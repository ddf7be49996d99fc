/**
 Quota windows as values: what one charge does to a key's usage (internal/policy/usage.go).

 Instants are nanoseconds since the zero value of Go's `time.Time`, so `Truncate` is rounding
 down to a multiple and `IsZero` is `== 0`. Money is counted in units of 1e-12 USD, the grid
 `normalizePrice` rounds to; sums of grid amounts need no further rounding (see `Pricing`).
 */
module UsageWindows {

  const SECOND: int := 1_000_000_000
  const MINUTE: int := 60 * SECOND
  const HOUR: int := 60 * MINUTE
  const DAY: int := 24 * HOUR
  const WEEK: int := 7 * DAY

  /** How long request events are kept. */
  const RETENTION: int := 90 * DAY

  /** What is accumulated in a window, and what one request adds to it. */
  datatype Tally = Tally(usd: int, cacheUsd: int, calls: int, cacheRead: int, input: int, output: int) {
    function Plus(other: Tally): Tally {
      Tally(usd + other.usd, cacheUsd + other.cacheUsd, calls + other.calls,
            cacheRead + other.cacheRead, input + other.input, output + other.output)
    }

    /** The part of a request's tally that reaches the key-level windows. */
    function Guarded(): Tally {
      this.(cacheUsd := Positive(cacheUsd), cacheRead := Positive(cacheRead),
            input := Positive(input), output := Positive(output))
    }
  }

  function Positive(n: int): int { if n > 0 then n else 0 }

  const NOTHING := Tally(0, 0, 0, 0, 0, 0)

  datatype UsageWindow = UsageWindow(start: int, tally: Tally)

  datatype ModelWindows = ModelWindows(daily: UsageWindow, weekly: UsageWindow)

  /** The content of one key's usage state. */
  datatype UsageValue = UsageValue(daily: UsageWindow, weekly: UsageWindow, byModel: map<string, ModelWindows>)

  datatype Charge = Charge(at: int, model: string, delta: Tally)

  const UNUSED := UsageWindow(0, NOTHING)

  const UNUSED_MODEL := ModelWindows(UNUSED, UNUSED)

  const EMPTY := UsageValue(UNUSED, UNUSED, map[])

  function StartOfDay(t: int): int { t - t % DAY }

  predicate SameDay(a: int, b: int) { a / DAY == b / DAY }

  /** The daily window a read or a charge at `now` works on. */
  function CurrentDaily(w: UsageWindow, now: int): UsageWindow {
    if w.start == 0 || !SameDay(w.start, StartOfDay(now)) then UsageWindow(StartOfDay(now), NOTHING) else w
  }

  /** The weekly window a read or a charge at `now` works on: it restarts lazily after seven days. */
  function CurrentWeekly(w: UsageWindow, now: int): UsageWindow {
    if w.start == 0 || now - w.start >= WEEK then UsageWindow(now, NOTHING) else w
  }

  function Add(w: UsageWindow, delta: Tally): UsageWindow { w.(tally := w.tally.Plus(delta)) }

  function RowOf(byModel: map<string, ModelWindows>, model: string): ModelWindows {
    if model in byModel then byModel[model] else UNUSED_MODEL
  }

  function ChargeRow(row: ModelWindows, c: Charge): ModelWindows {
    ModelWindows(Add(CurrentDaily(row.daily, c.at), c.delta), Add(CurrentWeekly(row.weekly, c.at), c.delta))
  }

  function ApplyCost(st: UsageValue, c: Charge): UsageValue {
    UsageValue(
      Add(CurrentDaily(st.daily, c.at), c.delta.Guarded()),
      Add(CurrentWeekly(st.weekly, c.at), c.delta.Guarded()),
      st.byModel[c.model := ChargeRow(RowOf(st.byModel, c.model), c)])
  }

  /** The state reached from nothing by a log of charges. */
  function Replay(log: seq<Charge>): UsageValue {
    if log == [] then EMPTY else ApplyCost(Replay(log[..|log| - 1]), log[|log| - 1])
  }

  // ---------- one meter: a pair of windows fed by dated amounts ----------

  datatype Entry = Entry(at: int, delta: Tally)

  /** What the key-level windows of a log are fed with. */
  function KeyEntries(log: seq<Charge>): seq<Entry> {
    if log == [] then []
    else var c := log[|log| - 1]; KeyEntries(log[..|log| - 1]) + [Entry(c.at, c.delta.Guarded())]
  }

  /** What the windows of one model are fed with. */
  function ModelEntries(log: seq<Charge>, model: string): seq<Entry> {
    if log == [] then []
    else
      var c := log[|log| - 1];
      var rest := ModelEntries(log[..|log| - 1], model);
      if c.model == model then rest + [Entry(c.at, c.delta)] else rest
  }

  function Meter(entries: seq<Entry>): ModelWindows {
    if entries == [] then UNUSED_MODEL
    else
      var before := Meter(entries[..|entries| - 1]);
      var e := entries[|entries| - 1];
      ModelWindows(Add(CurrentDaily(before.daily, e.at), e.delta), Add(CurrentWeekly(before.weekly, e.at), e.delta))
  }

  /** The sum of the amounts dated in [from, to). */
  function SumIn(entries: seq<Entry>, from: int, to: int): Tally {
    if entries == [] then NOTHING
    else
      var e := entries[|entries| - 1];
      var rest := SumIn(entries[..|entries| - 1], from, to);
      if from <= e.at < to then rest.Plus(e.delta) else rest
  }

  /** Readings never go back and lie after Go's zero day, whose midnight reads as "no window yet". */
  ghost predicate Chronological(entries: seq<Entry>) {
    && (forall i :: 0 <= i < |entries| ==> DAY <= entries[i].at)
    && (forall i, j :: 0 <= i < j < |entries| ==> entries[i].at <= entries[j].at)
  }

  lemma {:induction false} DayFacts(t: int)
    ensures StartOfDay(t) <= t < StartOfDay(t) + DAY && StartOfDay(t) % DAY == 0
    ensures DAY <= t ==> DAY <= StartOfDay(t)
    ensures forall start :: start % DAY == 0 ==> (SameDay(start, StartOfDay(t)) <==> start == StartOfDay(t))
  {
  }

  lemma {:induction false} NoneBetween(entries: seq<Entry>, from: int, to: int)
    requires forall i :: 0 <= i < |entries| ==> !(from <= entries[i].at < to)
    ensures SumIn(entries, from, to) == NOTHING
  {
    if entries != [] { NoneBetween(entries[..|entries| - 1], from, to); }
  }

  /**
   The windows `w` account for `entries`: the daily total is the sum of the UTC day of the last entry, the
   weekly total the sum of the seven days from the window's start, and the last entry is among those.
   */
  ghost predicate Accounts(w: ModelWindows, entries: seq<Entry>) {
    && w.daily.tally == SumIn(entries, w.daily.start, w.daily.start + DAY)
    && w.weekly.tally == SumIn(entries, w.weekly.start, w.weekly.start + WEEK)
    && (entries == [] ==> w == UNUSED_MODEL)
    && (entries != [] ==>
          var last := entries[|entries| - 1].at;
          && w.daily.start == StartOfDay(last)
          && DAY <= w.weekly.start <= last < w.weekly.start + WEEK)
  }

  lemma {:induction false} MeterSums(entries: seq<Entry>)
    requires Chronological(entries)
    ensures Accounts(Meter(entries), entries)
  {
    if entries != [] {
      MeterSums(entries[..|entries| - 1]);
      MeterDaily(entries);
      MeterWeekly(entries);
    }
  }

  lemma {:induction false} MeterDaily(entries: seq<Entry>)
    requires Chronological(entries) && entries != []
    requires Accounts(Meter(entries[..|entries| - 1]), entries[..|entries| - 1])
    ensures var d := Meter(entries).daily;
            && d.start == StartOfDay(entries[|entries| - 1].at)
            && d.tally == SumIn(entries, d.start, d.start + DAY)
  {
    var front, at := entries[..|entries| - 1], entries[|entries| - 1].at;
    DayFacts(at);
    if front != [] {
      var before := front[|front| - 1].at;
      DayFacts(before);
      if StartOfDay(before) != StartOfDay(at) {
        EarlierDay(before, at);
        NoneBetween(front, StartOfDay(at), StartOfDay(at) + DAY);
      }
    }
  }

  lemma {:induction false} EarlierDay(before: int, at: int)
    requires before <= at && StartOfDay(before) != StartOfDay(at)
    ensures before < StartOfDay(at)
  {
  }

  lemma {:induction false} MeterWeekly(entries: seq<Entry>)
    requires Chronological(entries) && entries != []
    requires Accounts(Meter(entries[..|entries| - 1]), entries[..|entries| - 1])
    ensures var w := Meter(entries).weekly; var last := entries[|entries| - 1].at;
            && DAY <= w.start <= last < w.start + WEEK
            && w.tally == SumIn(entries, w.start, w.start + WEEK)
  {
    var front, at := entries[..|entries| - 1], entries[|entries| - 1].at;
    if front != [] {
      var w := Meter(front).weekly;
      assert front[|front| - 1].at <= at;
      if at - w.start >= WEEK { NoneBetween(front, at, at + WEEK); }
    }
  }

  // ---------- a key's usage is one meter per level ----------

  lemma {:induction false} KeyLevelIsAMeter(log: seq<Charge>)
    ensures Meter(KeyEntries(log)) == ModelWindows(Replay(log).daily, Replay(log).weekly)
  {
    if log != [] {
      var front := log[..|log| - 1];
      KeyLevelIsAMeter(front);
      var entries := KeyEntries(log);
      assert entries[..|entries| - 1] == KeyEntries(front);
    }
  }

  lemma {:induction false} ModelLevelIsAMeter(log: seq<Charge>, model: string)
    ensures Meter(ModelEntries(log, model)) == RowOf(Replay(log).byModel, model)
    ensures model in Replay(log).byModel <==> ModelEntries(log, model) != []
  {
    if log != [] {
      var front := log[..|log| - 1];
      ModelLevelIsAMeter(front, model);
      if log[|log| - 1].model == model {
        var entries := ModelEntries(log, model);
        assert entries[..|entries| - 1] == ModelEntries(front, model);
      }
    }
  }

  /** A log of charges made with clock readings that never go back. */
  ghost predicate Dated(log: seq<Charge>) {
    && (forall i :: 0 <= i < |log| ==> DAY <= log[i].at)
    && (forall i, j :: 0 <= i < j < |log| ==> log[i].at <= log[j].at)
  }

  lemma {:induction false} KeyEntriesChronological(log: seq<Charge>)
    requires Dated(log)
    ensures Chronological(KeyEntries(log)) && |KeyEntries(log)| == |log|
    ensures log != [] ==> KeyEntries(log)[|log| - 1].at == log[|log| - 1].at
    ensures forall i :: 0 <= i < |log| ==> KeyEntries(log)[i].at == log[i].at
  {
    if log != [] { KeyEntriesChronological(log[..|log| - 1]); }
  }

  lemma {:induction false} ModelEntriesChronological(log: seq<Charge>, model: string)
    requires Dated(log)
    ensures Chronological(ModelEntries(log, model))
    ensures forall e :: e in ModelEntries(log, model) ==> e.at <= log[|log| - 1].at
  {
    if log != [] { ModelEntriesChronological(log[..|log| - 1], model); }
  }

  /**
   Replaying a log with a clock that never goes back: the key's windows account for all its charges, and
   the windows of each model for the charges of that model.
   */
  lemma {:induction false} ReplayAccounts(log: seq<Charge>, model: string)
    requires Dated(log)
    ensures var st := Replay(log); Accounts(ModelWindows(st.daily, st.weekly), KeyEntries(log))
    ensures Accounts(RowOf(Replay(log).byModel, model), ModelEntries(log, model))
  {
    KeyAccounts(log);
    ModelAccounts(log, model);
  }

  lemma {:induction false} KeyAccounts(log: seq<Charge>)
    requires Dated(log)
    ensures var st := Replay(log); Accounts(ModelWindows(st.daily, st.weekly), KeyEntries(log))
    ensures log != [] ==> Replay(log).daily.start == StartOfDay(log[|log| - 1].at)
  {
    KeyEntriesChronological(log);
    MeterSums(KeyEntries(log));
    KeyLevelIsAMeter(log);
  }

  lemma {:induction false} ModelAccounts(log: seq<Charge>, model: string)
    requires Dated(log)
    ensures Accounts(RowOf(Replay(log).byModel, model), ModelEntries(log, model))
  {
    ModelEntriesChronological(log, model);
    MeterSums(ModelEntries(log, model));
    ModelLevelIsAMeter(log, model);
  }

  // ---------- when windows start ----------

  /**
   The next charge finds the weekly window open for seven days from its start and starts the next one itself once they
   are over; the daily window is the UTC day of the charge. So it is for the key, and for the charged model counted
   from that model's own first charge; other models keep their windows.
   */
  lemma {:induction false} WindowsStart(log: seq<Charge>, c: Charge, model: string)
    requires Dated(log + [c])
    ensures var st, st' := Replay(log), Replay(log + [c]);
            && st'.daily.start <= c.at < st'.daily.start + DAY && st'.daily.start % DAY == 0
            && (log == [] ==> st'.weekly.start == c.at)
            && (log != [] ==> st'.weekly.start == if c.at < st.weekly.start + WEEK then st.weekly.start else c.at)
    ensures var rows, rows' := Replay(log).byModel, Replay(log + [c]).byModel;
            && c.model in rows' && rows'.Keys == rows.Keys + {c.model}
            && var row := rows'[c.model];
               && row.daily.start <= c.at < row.daily.start + DAY && row.daily.start % DAY == 0
               && (c.model !in rows ==> row.weekly.start == c.at)
               && (c.model in rows ==>
                     row.weekly.start == if c.at < rows[c.model].weekly.start + WEEK then rows[c.model].weekly.start else c.at)
               && (model != c.model && model in rows ==> rows'[model] == rows[model])
  {
    assert (log + [c])[..|log|] == log;
    assert (log + [c])[|log|] == c;
    DatedFront(log, c);
    KeyAccounts(log + [c]);
    KeyAccounts(log);
    KeyEntriesDates(log);
    ModelAccounts(log + [c], c.model);
    ModelAccounts(log, c.model);
    ModelLevelIsAMeter(log, c.model);
    DayFacts(c.at);
  }

  lemma {:induction false} DatedFront(log: seq<Charge>, c: Charge)
    requires Dated(log + [c])
    ensures Dated(log) && DAY <= c.at && forall i :: 0 <= i < |log| ==> log[i].at <= c.at
  {
    assert forall i :: 0 <= i < |log| ==> (log + [c])[i] == log[i];
    assert (log + [c])[|log|] == c;
  }

  /** On Go's zero day a window start reads as "never started", so the second charge wipes the first. */
  lemma {:induction false} ZeroDayLosesCharges()
    ensures var c := Charge(5, "m", Tally(1, 0, 1, 0, 0, 0));
            && Replay([c, c]).daily.tally.calls == 1
            && SumIn(KeyEntries([c, c]), 0, DAY).calls == 2
  {
    var c := Charge(5, "m", Tally(1, 0, 1, 0, 0, 0));
    assert [c, c][..1] == [c] && [c][..0] == [];
    var e := Entry(5, c.delta);
    assert KeyEntries([c]) == [e];
    assert KeyEntries([c, c]) == [e, e];
    assert [e, e][..1] == [e] && [e][..0] == [];
    assert SumIn([e], 0, DAY) == c.delta;
    assert Replay([c]).daily == UsageWindow(0, c.delta);
  }

  /** Readings that do not go back, on Go's zero day or later. */
  ghost predicate FromZero(log: seq<Charge>) {
    (forall i :: 0 <= i < |log| ==> 0 <= log[i].at) && forall i, j :: 0 <= i < j < |log| ==> log[i].at <= log[j].at
  }

  ghost predicate FromZeroEntries(entries: seq<Entry>) {
    && (forall i :: 0 <= i < |entries| ==> 0 <= entries[i].at)
    && forall i, j :: 0 <= i < j < |entries| ==> entries[i].at <= entries[j].at
  }

  lemma {:induction false} MeterDay(entries: seq<Entry>)
    requires entries != [] && FromZeroEntries(entries)
    ensures Meter(entries).daily.start == StartOfDay(entries[|entries| - 1].at)
  {
    var front, at := entries[..|entries| - 1], entries[|entries| - 1].at;
    DayFacts(at);
    if front != [] {
      MeterDay(front);
      DayFacts(front[|front| - 1].at);
    }
  }

  /** On the zero day every charge restarts the window. */
  lemma {:induction false} ZeroDayRestarts(entries: seq<Entry>)
    requires entries != [] && FromZeroEntries(entries) && entries[|entries| - 1].at < DAY
    ensures Meter(entries).daily == UsageWindow(0, entries[|entries| - 1].delta)
    ensures SumIn(entries, 0, DAY) == SumIn(entries[..|entries| - 1], 0, DAY).Plus(entries[|entries| - 1].delta)
  {
    var front, at := entries[..|entries| - 1], entries[|entries| - 1].at;
    ZeroDayStartsAtZero(at);
    if front != [] {
      MeterDay(front);
      assert front[|front| - 1].at <= at;
      ZeroDayStartsAtZero(front[|front| - 1].at);
    }
    hide StartOfDay;
  }

  lemma {:induction false} ZeroDayStartsAtZero(t: int)
    requires 0 <= t < DAY
    ensures StartOfDay(t) == 0
  {
  }

  /** From the next day on the daily total is the sum of the day. */
  lemma {:induction false} LaterDayAccounts(entries: seq<Entry>)
    requires entries != [] && FromZeroEntries(entries) && entries[|entries| - 1].at >= DAY
    ensures var d := Meter(entries).daily; d.tally == SumIn(entries, d.start, d.start + DAY)
  {
    var front, at := entries[..|entries| - 1], entries[|entries| - 1].at;
    MeterDay(entries);
    DayFacts(at);
    if front != [] {
      var before := front[|front| - 1].at;
      MeterDay(front);
      DayFacts(before);
      if StartOfDay(before) == StartOfDay(at) {
        LaterDayAccounts(front);
      } else {
        EarlierDay(before, at);
        NoneBetween(front, StartOfDay(at), StartOfDay(at) + DAY);
      }
    }
  }

  /**
   For clocks that may stand on the zero day: the daily total is the sum over the window's day exactly when the last
   charge lies on a later day, or what came before it on the zero day sums to nothing.
   */
  lemma {:induction false} ZeroDayAccountsIff(log: seq<Charge>)
    requires FromZero(log) && log != []
    ensures var last, d := log[|log| - 1], Replay(log).daily;
            && d.start == StartOfDay(last.at)
            && (d.tally == SumIn(KeyEntries(log), d.start, d.start + DAY)
                <==> last.at >= DAY || SumIn(KeyEntries(log[..|log| - 1]), 0, DAY) == NOTHING)
  {
    hide Replay, SumIn, Meter, KeyEntries;
    KeyLevelIsAMeter(log);
    KeyEntriesDates(log);
    FrontEntries(log);
    var entries := KeyEntries(log);
    MeterDay(entries);
    DayFacts(log[|log| - 1].at);
    if entries[|entries| - 1].at >= DAY { LaterDayAccounts(entries); } else { ZeroDayRestarts(entries); }
  }

  lemma {:induction false} FrontEntries(log: seq<Charge>)
    requires log != []
    ensures |KeyEntries(log)| == |log| && KeyEntries(log)[..|log| - 1] == KeyEntries(log[..|log| - 1])
  {
    KeyEntriesDates(log[..|log| - 1]);
  }

  lemma {:induction false} KeyEntriesDates(log: seq<Charge>)
    ensures |KeyEntries(log)| == |log| && forall i :: 0 <= i < |log| ==> KeyEntries(log)[i].at == log[i].at
  {
    if log != [] { KeyEntriesDates(log[..|log| - 1]); }
  }

  // ---------- the key's day against its models ----------

  function DayPart(row: ModelWindows, day: int): Tally {
    if row.daily.start == day then row.daily.tally else NOTHING
  }

  ghost function Pick(names: set<string>): (name: string)
    requires names != {}
    ensures name in names
  {
    var name :| name in names; name
  }

  /** The sum over the models of `names` whose daily window is on `day`. */
  ghost function SumOver(names: set<string>, rows: map<string, ModelWindows>, day: int): Tally {
    if names == {} then NOTHING
    else DayPart(RowOf(rows, Pick(names)), day).Plus(SumOver(names - {Pick(names)}, rows, day))
  }

  /** The sum over exactly the models whose daily window is on `day`. */
  ghost function DaySum(rows: map<string, ModelWindows>, day: int): Tally {
    SumOver(rows.Keys, rows, day)
  }

  lemma {:induction false} PlusExchange(a: Tally, b: Tally, c: Tally)
    ensures a.Plus(b.Plus(c)) == b.Plus(a.Plus(c))
  {
  }

  lemma {:induction false} PlusSwap(a: Tally, b: Tally, c: Tally)
    ensures a.Plus(b).Plus(c) == a.Plus(c).Plus(b)
  {
  }

  lemma {:induction false} SumOverRemove(names: set<string>, rows: map<string, ModelWindows>, model: string, day: int)
    requires model in names
    ensures SumOver(names, rows, day)
         == DayPart(RowOf(rows, model), day).Plus(SumOver(names - {model}, rows, day))
    decreases names
  {
    var first := Pick(names);
    if first != model {
      var others := names - {first} - {model};
      assert names - {model} - {first} == others;
      SumOverRemove(names - {first}, rows, model, day);
      SumOverRemove(names - {model}, rows, first, day);
      PlusExchange(DayPart(RowOf(rows, first), day), DayPart(RowOf(rows, model), day), SumOver(others, rows, day));
    }
  }

  lemma {:induction false} SumOverUnchanged(names: set<string>, rows: map<string, ModelWindows>,
                                            model: string, row: ModelWindows, day: int)
    requires model !in names
    ensures SumOver(names, rows[model := row], day) == SumOver(names, rows, day)
    decreases names
  {
    if names != {} {
      var first := Pick(names);
      assert RowOf(rows[model := row], first) == RowOf(rows, first);
      SumOverUnchanged(names - {first}, rows, model, row, day);
    }
  }

  lemma {:induction false} SumWithRow(rows: map<string, ModelWindows>, model: string, row: ModelWindows, day: int)
    ensures DaySum(rows[model := row], day)
         == DayPart(row, day).Plus(SumOver(rows.Keys - {model}, rows, day))
  {
    var rows' := rows[model := row];
    assert rows'.Keys - {model} == rows.Keys - {model};
    assert RowOf(rows', model) == row;
    SumOverRemove(rows'.Keys, rows', model, day);
    SumOverUnchanged(rows.Keys - {model}, rows, model, row, day);
  }

  lemma {:induction false} SumWithoutRow(rows: map<string, ModelWindows>, model: string, day: int)
    requires day != 0
    ensures DaySum(rows, day) == DayPart(RowOf(rows, model), day).Plus(SumOver(rows.Keys - {model}, rows, day))
  {
    if model in rows { SumOverRemove(rows.Keys, rows, model, day); }
    else { assert rows.Keys == rows.Keys - {model}; }
  }

  /** Charging one model's row moves the sum by that row's change. */
  lemma {:induction false} DaySumUpdate(rows: map<string, ModelWindows>, model: string, row: ModelWindows, day: int, delta: Tally)
    requires day != 0
    requires DayPart(row, day) == DayPart(RowOf(rows, model), day).Plus(delta)
    ensures DaySum(rows[model := row], day) == DaySum(rows, day).Plus(delta)
  {
    SumWithRow(rows, model, row, day);
    SumWithoutRow(rows, model, day);
    PlusSwap(DayPart(RowOf(rows, model), day), delta, SumOver(rows.Keys - {model}, rows, day));
  }

  lemma {:induction false} SumOverOtherDays(names: set<string>, rows: map<string, ModelWindows>, day: int)
    requires forall model :: model in names ==> RowOf(rows, model).daily.start != day
    ensures SumOver(names, rows, day) == NOTHING
    decreases names
  {
    if names != {} { SumOverOtherDays(names - {Pick(names)}, rows, day); }
  }

  /** Everything charged in [from, to), whatever the model and without the key level's guards. */
  function RawSum(log: seq<Charge>, from: int, to: int): Tally {
    if log == [] then NOTHING
    else
      var c := log[|log| - 1];
      var rest := RawSum(log[..|log| - 1], from, to);
      if from <= c.at < to then rest.Plus(c.delta) else rest
  }

  lemma {:induction false} RawNoneBetween(log: seq<Charge>, from: int, to: int)
    requires forall i :: 0 <= i < |log| ==> !(from <= log[i].at < to)
    ensures RawSum(log, from, to) == NOTHING
  {
    if log != [] { RawNoneBetween(log[..|log| - 1], from, to); }
  }

  lemma {:induction false} RowsStartByTheLastDay(log: seq<Charge>, model: string)
    requires Dated(log) && model in Replay(log).byModel
    ensures log != [] && Replay(log).byModel[model].daily.start <= StartOfDay(log[|log| - 1].at)
    ensures DAY <= Replay(log).byModel[model].daily.start
  {
    ModelLevelIsAMeter(log, model);
    ModelEntriesChronological(log, model);
    ModelAccounts(log, model);
    var part := ModelEntries(log, model);
    var e := part[|part| - 1];
    assert e in part;
    DayFacts(e.at);
    DayFacts(log[|log| - 1].at);
    if StartOfDay(log[|log| - 1].at) < StartOfDay(e.at) { EarlierDay(e.at, log[|log| - 1].at); }
  }

  lemma {:induction false} RowGrowsByTheCharge(log: seq<Charge>, c: Charge)
    requires Dated(log) && DAY <= c.at
    ensures var day, row := StartOfDay(c.at), RowOf(Replay(log).byModel, c.model);
            DayPart(ChargeRow(row, c), day) == DayPart(row, day).Plus(c.delta)
  {
    DayFacts(c.at);
    if c.model in Replay(log).byModel { RowStartsAtMidnight(log, c.model); }
  }

  lemma {:induction false} ModelsOfTheDay(log: seq<Charge>)
    requires Dated(log) && log != []
    ensures var day := StartOfDay(log[|log| - 1].at);
            DaySum(Replay(log).byModel, day) == RawSum(log, day, day + DAY)
    decreases |log|, 0
  {
    var front, c := log[..|log| - 1], log[|log| - 1];
    var day, rows := StartOfDay(c.at), Replay(front).byModel;
    DayFacts(c.at);
    var row := ChargeRow(RowOf(rows, c.model), c);
    RowGrowsByTheCharge(front, c);
    DaySumUpdate(rows, c.model, row, day, c.delta);
    ModelsBefore(front, c.at);
    calc {
      DaySum(Replay(log).byModel, day);
      DaySum(rows[c.model := row], day);
      RawSum(front, day, day + DAY).Plus(c.delta);
      RawSum(log, day, day + DAY);
    }
  }

  lemma {:induction false} ModelsBefore(front: seq<Charge>, at: int)
    requires Dated(front) && DAY <= at
    requires forall i :: 0 <= i < |front| ==> front[i].at <= at
    ensures DaySum(Replay(front).byModel, StartOfDay(at)) == RawSum(front, StartOfDay(at), StartOfDay(at) + DAY)
    decreases |front|, 1
  {
    var day, rows := StartOfDay(at), Replay(front).byModel;
    if front != [] {
      var before := front[|front| - 1].at;
      if StartOfDay(before) == day {
        ModelsOfTheDay(front);
      } else {
        EarlierDay(before, at);
        DayFacts(before);
        RawNoneBetween(front, day, day + DAY);
        forall model | model in rows ensures rows[model].daily.start != day {
          RowsStartByTheLastDay(front, model);
        }
        SumOverOtherDays(rows.Keys, rows, day);
      }
    }
  }

  lemma {:induction false} RowStartsAtMidnight(log: seq<Charge>, model: string)
    requires Dated(log) && model in Replay(log).byModel
    ensures Replay(log).byModel[model].daily.start % DAY == 0 && DAY <= Replay(log).byModel[model].daily.start
  {
    RowsStartByTheLastDay(log, model);
    ModelLevelIsAMeter(log, model);
    var part := ModelEntries(log, model);
    ModelAccounts(log, model);
    DayFacts(part[|part| - 1].at);
  }

  /** No charge of [from, to) carries an amount that the key level drops. */
  ghost predicate NoneDropped(log: seq<Charge>, from: int, to: int) {
    forall i :: 0 <= i < |log| && from <= log[i].at < to ==> log[i].delta.Guarded() == log[i].delta
  }

  predicate AtLeast(a: Tally, b: Tally) {
    && a.usd == b.usd && a.calls == b.calls && a.cacheUsd >= b.cacheUsd
    && a.cacheRead >= b.cacheRead && a.input >= b.input && a.output >= b.output
  }

  lemma {:induction false} PlusAtLeast(a: Tally, b: Tally, c: Tally)
    requires AtLeast(a, b)
    ensures AtLeast(a.Plus(c.Guarded()), b.Plus(c))
    ensures a.Plus(c.Guarded()) == b.Plus(c) <==> a == b && c.Guarded() == c
  {
  }

  lemma {:induction false} GuardedAgainstRaw(log: seq<Charge>, from: int, to: int)
    ensures var key, raw := SumIn(KeyEntries(log), from, to), RawSum(log, from, to);
            AtLeast(key, raw) && (key == raw <==> NoneDropped(log, from, to))
  {
    if log != [] {
      var front, last := log[..|log| - 1], log[|log| - 1];
      GuardedAgainstRaw(front, from, to);
      KeyEntriesDates(log);
      assert KeyEntries(log)[..|log| - 1] == KeyEntries(front);
      PlusAtLeast(SumIn(KeyEntries(front), from, to), RawSum(front, from, to), last.delta);
      NoneDroppedFront(log, from, to);
    }
  }

  lemma {:induction false} NoneDroppedFront(log: seq<Charge>, from: int, to: int)
    requires log != []
    ensures var last := log[|log| - 1];
            NoneDropped(log, from, to) <==>
            NoneDropped(log[..|log| - 1], from, to) && (from <= last.at < to ==> last.delta.Guarded() == last.delta)
  {
  }

  /**
   The key's daily totals equal the sums over the models whose daily window is on the key's day exactly
   when no charge of that day carried a negative cache cost or token count: those the key level drops
   and the model level adds. Dollars and calls always agree.
   */
  lemma {:induction false} KeyReconcilesWithModels(log: seq<Charge>)
    requires Dated(log) && log != []
    ensures var st := Replay(log); var models := DaySum(st.byModel, st.daily.start);
            && (models == st.daily.tally <==> NoneDropped(log, st.daily.start, st.daily.start + DAY))
            && AtLeast(st.daily.tally, models)
  {
    var day := StartOfDay(log[|log| - 1].at);
    KeyAccounts(log);
    ModelsOfTheDay(log);
    GuardedAgainstRaw(log, day, day + DAY);
  }

  /** One charge with a negative token count, which reaches the model but not the key. */
  lemma {:induction false} NegativeTokensDisagree(at: int, model: string)
    requires DAY <= at
    ensures var log := [Charge(at, model, NOTHING.(input := -1))];
            var st := Replay(log);
            Dated(log) && DaySum(st.byModel, st.daily.start).input == -1 && st.daily.tally.input == 0
  {
    hide Replay, DaySum, StartOfDay, KeyEntries, SumIn, RawSum;
    var c := Charge(at, model, NOTHING.(input := -1));
    DayFacts(at);
    KeyAccounts([c]);
    ModelsOfTheDay([c]);
    SingleSums(c, StartOfDay(at), StartOfDay(at) + DAY);
  }

  lemma {:induction false} SingleSums(c: Charge, from: int, to: int)
    requires from <= c.at < to
    ensures RawSum([c], from, to) == c.delta && SumIn(KeyEntries([c]), from, to) == c.delta.Guarded()
  {
    assert [c][..0] == [] && KeyEntries([c]) == [Entry(c.at, c.delta.Guarded())];
    assert KeyEntries([c])[..0] == [];
  }
}
