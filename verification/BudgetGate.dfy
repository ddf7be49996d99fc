/**
 The budget gate over whole runs (`authorize` in internal/policy/store.go, `OverLimit` in
 internal/policy/usage.go): spending is checked before a request and charged after it, so requests in
 flight can overshoot a limit. How far is bounded, and the bound is met.
 */
module BudgetGate {
  import opened Wrappers
  import opened UsageWindows
  import opened UsageLedgers

  datatype Gate = Gate(usage: map<string, UsageValue>, inFlight: map<string, nat>, clock: int)

  datatype Event =
    | Authorize(key: string, at: int)
    | Record(key: string, at: int, model: string, delta: Tally)
    | Drop(key: string, at: int)      // the request fails and is not charged
    | Delete(key: string, at: int)    // the key is deleted, and its usage with it
    | ResetAll(at: int)

  function UsageOf(g: Gate, key: string): Option<UsageValue> {
    if key in g.usage then Some(g.usage[key]) else None
  }

  function Flights(g: Gate, key: string): nat { if key in g.inFlight then g.inFlight[key] else 0 }

  function Land(g: Gate, key: string): map<string, nat> {
    g.inFlight[key := if Flights(g, key) > 0 then Flights(g, key) - 1 else 0]
  }

  /** One atomic step; a request over a limit is refused and leaves no flight behind. */
  function Next(g: Gate, e: Event, limits: map<string, Limits>): Gate {
    match e
    case Authorize(key, at) =>
      if key !in limits || OverDaily(UsageOf(g, key), limits[key], at) || OverWeekly(UsageOf(g, key), limits[key], at)
      then g.(clock := at)
      else g.(clock := at, inFlight := g.inFlight[key := Flights(g, key) + 1])
    case Record(key, at, model, delta) =>
      Gate(g.usage[key := ApplyCost(Start(UsageOf(g, key)), Charge(at, model, delta))], Land(g, key), at)
    case Drop(key, at) => g.(clock := at, inFlight := Land(g, key))
    case Delete(key, at) => g.(clock := at, usage := g.usage - {key})
    case ResetAll(at) => g.(clock := at, usage := map[])
  }

  function Run(start: Gate, events: seq<Event>, limits: map<string, Limits>): Gate {
    if events == [] then start
    else Next(Run(start, events[..|events| - 1], limits), events[|events| - 1], limits)
  }

  /** Nothing used and nothing in flight, on the first day that counts. */
  const UNUSED_GATE := Gate(map[], map[], DAY)

  /** The clock does not go back; a key has at most `k` requests in flight, each costing between 0 and `c`. */
  ghost predicate Allowed(g: Gate, e: Event, k: nat, c: nat) {
    && g.clock <= e.at
    && (e.Authorize? ==> Flights(g, e.key) < k)
    && (e.Record? ==> Flights(g, e.key) > 0 && 0 <= e.delta.usd <= c)
    && (e.Drop? ==> Flights(g, e.key) > 0)
  }

  ghost predicate Fair(start: Gate, events: seq<Event>, limits: map<string, Limits>, k: nat, c: nat) {
    events == [] ||
    (var front := events[..|events| - 1];
     Fair(start, front, limits, k, c) && Allowed(Run(start, front, limits), events[|events| - 1], k, c))
  }

  /** What is spent plus the most that requests in flight can still add. */
  ghost predicate Within(g: Gate, key: string, limits: Limits, now: int, k: nat, c: nat) {
    var seen, pending := Seen(UsageOf(g, key), now), Flights(g, key) * c;
    && (limits.daily > 0 ==> seen.daily.tally.usd + pending < limits.daily + k * c)
    && (limits.weekly > 0 ==> seen.weekly.tally.usd + pending < limits.weekly + k * c)
  }

  /** No window of the key starts after `now`. */
  predicate Opened(g: Gate, key: string, now: int) { key in g.usage ==> g.usage[key].daily.start <= now }

  /** As a run starts, say on the usage that a restart has loaded, with nothing in flight: the key is not beyond the bound. */
  ghost predicate Ready(g: Gate, key: string, limits: Limits, k: nat, c: nat) {
    DAY <= g.clock && Flights(g, key) <= k && Within(g, key, limits, g.clock, k, c) && Opened(g, key, g.clock)
  }

  lemma {:induction false} Scale(a: nat, b: nat, c: nat)
    requires a <= b
    ensures a * c <= b * c && (a + 1) * c == a * c + c
  {
  }

  /** As time passes a reader sees the same windows or fresh ones. */
  lemma {:induction false} SeenLater(state: Option<UsageValue>, now: int, later: int)
    requires now <= later && (state.Some? ==> state.value.daily.start <= now)
    ensures var a, b := Seen(state, now), Seen(state, later);
            && (b.daily.tally == a.daily.tally || b.daily.tally == NOTHING)
            && (b.weekly.tally == a.weekly.tally || b.weekly.tally == NOTHING)
  {
    DayFacts(now);
    DayFacts(later);
    if state.Some? && state.value.daily.start <= now {
      DayBetween(state.value.daily.start, now, later);
    }
  }

  lemma {:induction false} DayBetween(a: int, b: int, c: int)
    requires a <= b <= c
    ensures SameDay(a, StartOfDay(c)) ==> SameDay(a, StartOfDay(b))
  {
  }

  lemma {:induction false} WithinLater(g: Gate, key: string, limits: Limits, now: int, later: int, k: nat, c: nat)
    requires now <= later && Flights(g, key) <= k && Within(g, key, limits, now, k, c)
    requires Opened(g, key, now)
    ensures Within(g, key, limits, later, k, c)
  {
    SeenLater(UsageOf(g, key), now, later);
    Scale(Flights(g, key), k, c);
  }

  lemma {:induction false} StepStaysWithin(g: Gate, e: Event, limits: map<string, Limits>, key: string, k: nat, c: nat)
    requires key in limits && Allowed(g, e, k, c) && Ready(g, key, limits[key], k, c)
    ensures Ready(Next(g, e, limits), key, limits[key], k, c)
  {
    var g' := Next(g, e, limits);
    DayFacts(e.at);
    WithinLater(g, key, limits[key], g.clock, e.at, k, c);
    Scale(Flights(g, key), k, c);
    Scale(Flights(g', key), k, c);
    if e.Record? && e.key == key {
      ChargeGrowsTheView(UsageOf(g, key), Charge(e.at, e.model, e.delta), key);
      Scale(Flights(g', key), Flights(g, key), c);
    } else if e.Authorize? && e.key == key && g'.inFlight != g.inFlight {
      Scale(Flights(g', key), k, c);
    }
  }

  /**
   In every run in which a key never has more than `k` requests in flight, none costing more than `c`, from any gate
   that is itself within the bound, and with keys deleted and usage reset at any time: what is spent in the key's
   current day (week) stays strictly below the limit plus k * c at every later reading.
   */
  lemma {:induction false} OvershootBound(start: Gate, events: seq<Event>, limits: map<string, Limits>, key: string, now: int,
                                          k: nat, c: nat)
    requires key in limits && Ready(start, key, limits[key], k, c)
    requires Fair(start, events, limits, k, c) && Run(start, events, limits).clock <= now
    ensures var seen := Seen(UsageOf(Run(start, events, limits), key), now);
            && (limits[key].daily > 0 ==> seen.daily.tally.usd < limits[key].daily + k * c)
            && (limits[key].weekly > 0 ==> seen.weekly.tally.usd < limits[key].weekly + k * c)
  {
    var g := Run(start, events, limits);
    StaysWithin(start, events, limits, key, k, c);
    WithinLater(g, key, limits[key], g.clock, now, k, c);
    Scale(0, Flights(g, key), c);
  }

  lemma {:induction false} StaysWithin(start: Gate, events: seq<Event>, limits: map<string, Limits>, key: string, k: nat, c: nat)
    requires key in limits && Ready(start, key, limits[key], k, c) && Fair(start, events, limits, k, c)
    ensures Ready(Run(start, events, limits), key, limits[key], k, c)
  {
    if events != [] {
      var front := events[..|events| - 1];
      StaysWithin(start, front, limits, key, k, c);
      StepStaysWithin(Run(start, front, limits), events[|events| - 1], limits, key, k, c);
    }
  }

  /** A request is let in if and only if what the charges of today and of the running week add up to is below both limits. */
  lemma {:induction false} GateIsExact(g: Gate, key: string, at: int, limits: map<string, Limits>, log: seq<Charge>)
    requires Recorded(UsageOf(g, key), log, at)
    ensures var g' := Next(g, Authorize(key, at), limits);
            && g'.usage == g.usage && (forall other :: other != key ==> Flights(g', other) == Flights(g, other))
            && Flights(g', key) == Flights(g, key)
                 + if && key in limits
                      && (limits[key].daily > 0 ==>
                            SumIn(KeyEntries(log), StartOfDay(at), StartOfDay(at) + DAY).usd < limits[key].daily)
                      && (limits[key].weekly > 0 ==>
                            WeekSum(KeyEntries(log), Replay(log).weekly.start, at).usd < limits[key].weekly)
                   then 1 else 0
  {
    SeenIsDated(UsageOf(g, key), log, at);
    hide Seen, Replay, KeyEntries, SumIn, WeekSum, Recorded;
  }

  /** A store that has used nothing is ready, and so is one restarted on usage that is within the bound. */
  lemma {:induction false} RestartIsReady(usage: map<string, UsageValue>, key: string, own: Limits, now: int, k: nat, c: nat)
    requires DAY <= now && (key in usage ==> usage[key].daily.start <= now)
    ensures var seen := Seen(UsageOf(Gate(usage, map[], now), key), now);
            Ready(Gate(usage, map[], now), key, own, k, c)
            <==> && (own.daily > 0 ==> seen.daily.tally.usd < own.daily + k * c)
                 && (own.weekly > 0 ==> seen.weekly.tally.usd < own.weekly + k * c)
    ensures key !in usage ==> Ready(Gate(usage, map[], now), key, own, k, c)
  {
    Scale(0, k, c);
    DayFacts(now);
  }

  // ---------- the bound is met ----------

  function Many(n: nat, e: Event): seq<Event> { if n == 0 then [] else Many(n - 1, e) + [e] }

  const ASK := Authorize("k", DAY)

  function Spend(usd: int): Event { Record("k", DAY, "m", Tally(usd, 0, 1, 0, 0, 0)) }

  /** Requests of one unit each, one after the other. */
  function Saving(n: nat): seq<Event> { if n == 0 then [] else Saving(n - 1) + [ASK] + [Spend(1)] }

  /** Small requests take the key to a unit below the limit; then `k` authorized together each cost `c`. */
  function Overshoot(limit: nat, k: nat, c: nat): seq<Event>
    requires limit > 0
  {
    Saving(limit - 1) + Many(k, ASK) + Many(k, Spend(c))
  }

  /** The key is on its first day, has spent `usd` there and in its week, and has `flights` requests in flight. */
  ghost predicate Stands(g: Gate, usd: int, flights: nat) {
    var seen := Seen(UsageOf(g, "k"), DAY);
    g.clock == DAY && Flights(g, "k") == flights && seen.daily.tally.usd == usd && seen.weekly.tally.usd == usd
  }

  /** No limit that applies lies below `limit`. */
  predicate AtLeast(own: Limits, limit: int) {
    (own.daily > 0 ==> own.daily >= limit) && (own.weekly > 0 ==> own.weekly >= limit)
  }

  lemma {:induction false} Extend(events: seq<Event>, e: Event, limits: map<string, Limits>, k: nat, c: nat)
    ensures Run(UNUSED_GATE, events + [e], limits) == Next(Run(UNUSED_GATE, events, limits), e, limits)
    ensures Fair(UNUSED_GATE, events + [e], limits, k, c)
            <==> Fair(UNUSED_GATE, events, limits, k, c) && Allowed(Run(UNUSED_GATE, events, limits), e, k, c)
  {
  }

  lemma {:induction false} OneTakesOff(g: Gate, limits: map<string, Limits>, limit: int, usd: int, n: nat, k: nat, c: nat)
    requires usd < limit && n < k && Stands(g, usd, n) && "k" in limits && AtLeast(limits["k"], limit)
    ensures Allowed(g, ASK, k, c) && Stands(Next(g, ASK, limits), usd, n + 1)
  {
  }

  lemma {:induction false} OneTouchesDown(g: Gate, limits: map<string, Limits>, usd: int, cost: nat, n: nat, k: nat, c: nat)
    requires 0 < n && Stands(g, usd, n) && cost <= c
    ensures Allowed(g, Spend(cost), k, c) && Stands(Next(g, Spend(cost), limits), usd + cost, n - 1)
  {
    hide ApplyCost, Seen;
    var c := Charge(DAY, "m", Tally(cost, 0, 1, 0, 0, 0));
    ChargeGrowsTheView(UsageOf(g, "k"), c, "m");
    assert UsageOf(Next(g, Spend(cost), limits), "k") == Some(ApplyCost(Start(UsageOf(g, "k")), c));
  }

  lemma {:induction false} TakeOff(events: seq<Event>, limits: map<string, Limits>, n: nat, limit: int, usd: int, k: nat, c: nat)
    requires n <= k && usd < limit && "k" in limits && AtLeast(limits["k"], limit)
    requires Fair(UNUSED_GATE, events, limits, k, c) && Stands(Run(UNUSED_GATE, events, limits), usd, 0)
    ensures var more := events + Many(n, ASK); Fair(UNUSED_GATE, more, limits, k, c) && Stands(Run(UNUSED_GATE, more, limits), usd, n)
  {
    hide Run, Fair, Stands, Next, Allowed;
    if n == 0 {
      assert events + Many(0, ASK) == events;
    } else {
      var fewer := events + Many(n - 1, ASK);
      TakeOff(events, limits, n - 1, limit, usd, k, c);
      OneTakesOff(Run(UNUSED_GATE, fewer, limits), limits, limit, usd, n - 1, k, c);
      Extend(fewer, ASK, limits, k, c);
      assert events + Many(n, ASK) == fewer + [ASK];
    }
  }

  lemma {:induction false} TouchDown(events: seq<Event>, limits: map<string, Limits>, n: nat, usd: int, k: nat, c: nat)
    requires n <= k && Fair(UNUSED_GATE, events, limits, k, c) && Stands(Run(UNUSED_GATE, events, limits), usd, k)
    ensures var more := events + Many(n, Spend(c));
            Fair(UNUSED_GATE, more, limits, k, c) && Stands(Run(UNUSED_GATE, more, limits), usd + n * c, k - n)
  {
    hide Run, Fair, Stands, Next, Allowed;
    var e := Spend(c);
    if n == 0 {
      assert events + Many(0, e) == events;
    } else {
      var fewer := events + Many(n - 1, e);
      TouchDown(events, limits, n - 1, usd, k, c);
      OneTouchesDown(Run(UNUSED_GATE, fewer, limits), limits, usd + (n - 1) * c, c, k - (n - 1), k, c);
      Extend(fewer, e, limits, k, c);
      assert events + Many(n, e) == fewer + [e];
      Scale(n - 1, n, c);
    }
  }

  lemma {:induction false} SavingStarts(limits: map<string, Limits>, k: nat, c: nat)
    ensures Saving(0) == [] && Fair(UNUSED_GATE, [], limits, k, c) && Stands(Run(UNUSED_GATE, [], limits), 0, 0)
  {
  }

  lemma {:induction false} SavingStands(limits: map<string, Limits>, n: nat, limit: int, k: nat, c: nat)
    requires n < limit && k > 0 && (n > 0 ==> c > 0) && "k" in limits && AtLeast(limits["k"], limit)
    ensures Fair(UNUSED_GATE, Saving(n), limits, k, c) && Stands(Run(UNUSED_GATE, Saving(n), limits), n, 0)
  {
    hide Run, Fair, Stands, Next, Allowed;
    if n == 0 {
      SavingStarts(limits, k, c);
    } else {
      var saved := Saving(n - 1);
      SavingStands(limits, n - 1, limit, k, c);
      OneTakesOff(Run(UNUSED_GATE, saved, limits), limits, limit, n - 1, 0, k, c);
      Extend(saved, ASK, limits, k, c);
      OneTouchesDown(Run(UNUSED_GATE, saved + [ASK], limits), limits, n - 1, 1, 1, k, c);
      Extend(saved + [ASK], Spend(1), limits, k, c);
    }
  }

  /**
   For every limit, every k > 0 and every c > 0 (or a limit of one unit), daily or weekly or both: a fair run ends one
   unit below the bound of `OvershootBound`, in both windows at once.
   */
  lemma {:induction false} OvershootBoundIsTight(own: Limits, limit: nat, k: nat, c: nat)
    requires k > 0 && limit > 0 && (c > 0 || limit == 1) && AtLeast(own, limit)
    ensures var limits, events := map["k" := own], Overshoot(limit, k, c);
            var seen := Seen(UsageOf(Run(UNUSED_GATE, events, limits), "k"), DAY);
            && Fair(UNUSED_GATE, events, limits, k, c)
            && seen.daily.tally.usd == seen.weekly.tally.usd == limit + k * c - 1
  {
    hide Run, Fair, Next, Allowed, Saving, Many, Seen, UsageOf;
    var limits, saved := map["k" := own], Saving(limit - 1);
    SavingStands(limits, limit - 1, limit, k, c);
    TakeOff(saved, limits, k, limit, limit - 1, k, c);
    TouchDown(saved + Many(k, ASK), limits, k, limit - 1, k, c);
  }
}
