/**
 The in-memory usage ledger (internal/policy/usage.go) and the usage rows it is written through to
 (internal/policy/state_database.go). Go's maps are references, so a usage state owns a table object:
 sharing it between two states would let one be changed through the other.
 */
module UsageLedgers {
  import opened Wrappers
  import opened UsageWindows
  import Strings

  class ModelTable {
    var rows: map<string, ModelWindows>

    constructor ()
      ensures rows == map[]
    {
      rows := map[];
    }
  }

  class UsageState {
    var daily: UsageWindow
    var weekly: UsageWindow
    var byAlias: ModelTable?

    constructor (daily: UsageWindow, weekly: UsageWindow, byAlias: ModelTable?)
      ensures this.daily == daily && this.weekly == weekly && this.byAlias == byAlias
    {
      this.daily, this.weekly, this.byAlias := daily, weekly, byAlias;
    }

    function Value(): UsageValue
      reads this, byAlias
    {
      UsageValue(daily, weekly, if byAlias == null then map[] else byAlias.rows)
    }
  }

  /** `cloneUsageState`: a copy that shares nothing with the original; nil gives an unused state. */
  method CloneUsageState(state: UsageState?) returns (cloned: UsageState)
    ensures fresh(cloned) && cloned.byAlias != null && fresh(cloned.byAlias)
    ensures cloned.Value() == if state == null then EMPTY else state.Value()
  {
    var table := new ModelTable();
    if state == null {
      cloned := new UsageState(UNUSED, UNUSED, table);
      return;
    }
    cloned := new UsageState(state.daily, state.weekly, table);
    var source := if state.byAlias == null then map[] else state.byAlias.rows;
    var left := source.Keys;
    while left != {}
      invariant left <= source.Keys && fresh(table) && fresh(cloned) && cloned.byAlias == table
      invariant cloned.daily == state.daily && cloned.weekly == state.weekly
      invariant table.rows == map m | m in source && m !in left :: source[m]
      decreases left
    {
      var model :| model in left;
      table.rows := table.rows[model := source[model]];
      left := left - {model};
    }
    assert table.rows == source;
  }

  /** A request event, dated by the request; zero means that the request carried no time. */
  datatype UsageEvent = UsageEvent(at: int, charge: Charge)

  /** Old events are pruned at most once an hour, or when the clock has gone back. */
  predicate PruneIsDue(lastPrune: int, now: int) { lastPrune == 0 || now < lastPrune || now - lastPrune >= HOUR }

  /** The events dated at or after a cutoff. */
  function Recent(events: seq<UsageEvent>, cutoff: int): seq<UsageEvent> {
    if events == [] then []
    else
      var e := events[|events| - 1];
      Recent(events[..|events| - 1], cutoff) + if e.at < cutoff then [] else [e]
  }

  lemma {:induction false} RecentKeeps(events: seq<UsageEvent>, cutoff: int, e: UsageEvent)
    ensures e in Recent(events, cutoff) <==> e in events && e.at >= cutoff
  {
    if events != [] {
      var n := |events| - 1;
      RecentKeeps(events[..n], cutoff, e);
      assert events == events[..n] + [events[n]];
    }
  }

  /** What the database lets through: pruning, and the transaction itself. */
  datatype Luck = Luck(prunes: bool, commits: bool)

  /** The usage rows and request events of an open or closed SQLite file. */
  class UsageTable {
    var open: bool
    var rows: map<string, UsageValue>
    var events: seq<UsageEvent>
    var lastPrune: int

    ghost predicate Accepts(key: string, event: Option<UsageEvent>, now: int, luck: Luck)
      reads this
    {
      && open && luck.commits && Strings.Trim(key) != ""
      && (event.Some? ==> !PruneIsDue(lastPrune, now) || luck.prunes)
    }

    /** The events once pruning has had its turn; it stands even if the transaction then fails. */
    ghost function EventsLeft(key: string, event: Option<UsageEvent>, now: int, luck: Luck): seq<UsageEvent>
      reads this
    {
      if Strings.Trim(key) != "" && event.Some? && PruneIsDue(lastPrune, now) && open && luck.prunes
      then Recent(events, now - RETENTION) else events
    }

    /** `maybePrune`: a failed attempt is due again at once. */
    method MaybePrune(now: int, luck: Luck) returns (ok: bool)
      modifies this
      ensures open == old(open) && rows == old(rows)
      ensures ok <==> !old(PruneIsDue(lastPrune, now)) || (open && luck.prunes)
      ensures events == if old(PruneIsDue(lastPrune, now)) && ok then Recent(old(events), now - RETENTION) else old(events)
      ensures lastPrune == if !old(PruneIsDue(lastPrune, now)) then old(lastPrune) else if ok then now else 0
    {
      if lastPrune != 0 && !(now < lastPrune) && now - lastPrune < HOUR { return true; }
      lastPrune := now;
      if !open || !luck.prunes {
        lastPrune := 0;
        return false;
      }
      events := Recent(events, now - RETENTION);
      return true;
    }

    /** `persistUsageEntry`: old events are pruned first; then one transaction writes the row and the event, or nothing. */
    method PersistUsageEntry(key: string, state: UsageState, event: Option<UsageEvent>, now: int, luck: Luck) returns (ok: bool)
      modifies this
      ensures open == old(open)
      ensures ok == old(Accepts(key, event, now, luck))
      ensures rows == if ok then old(rows)[Strings.Trim(key) := state.Value()] else old(rows)
      ensures events == old(EventsLeft(key, event, now, luck)) + if ok && event.Some? then [WithTime(event.value, now)] else []
      ensures open && event.Some? && Strings.Trim(key) != "" ==>
                History(events, lastPrune) == Written(old(History(events, lastPrune)), Write(event.value, now, luck))
    {
      hide Strings.Trim, Recent, WithTime, PruneIsDue;
      var id := Strings.Trim(key);
      if id == "" { return false; }
      if event.Some? {
        var pruned := MaybePrune(now, luck);
        if !pruned { return false; }
      }
      ok := open && luck.commits;
      if ok {
        rows := rows[id := state.Value()];
        if event.Some? { events := events + [WithTime(event.value, now)]; }
      }
    }
  }

  /** An event without a time is dated by the database's clock. */
  function WithTime(e: UsageEvent, now: int): UsageEvent { if e.at == 0 then e.(at := now) else e }

  // ---------- how long events are kept ----------

  /** An attempt to write an event: `prunes` and `commits` are what the database lets through. */
  datatype Write = Write(event: UsageEvent, now: int, luck: Luck)

  datatype History = History(events: seq<UsageEvent>, lastPrune: int)

  /** What an attempt makes of the events of an open file; this is `PersistUsageEntry` with an event. */
  function Written(h: History, w: Write): History {
    var due := PruneIsDue(h.lastPrune, w.now);
    if due && !w.luck.prunes then h.(lastPrune := 0)
    else
      History((if due then Recent(h.events, w.now - RETENTION) else h.events) + (if w.luck.commits then [WithTime(w.event, w.now)] else []),
              if due then w.now else h.lastPrune)
  }

  function Histories(h: History, writes: seq<Write>): History {
    if writes == [] then h else Written(Histories(h, writes[..|writes| - 1]), writes[|writes| - 1])
  }

  /** Clock readings after Go's zero instant that do not go back. */
  ghost predicate InOrder(writes: seq<Write>) {
    && (forall i :: 0 <= i < |writes| ==> 0 < writes[i].now)
    && (forall i, j :: 0 <= i < j < |writes| ==> writes[i].now <= writes[j].now)
  }

  /** Write `i` has left this event, dated by the clock if it carried no time. */
  predicate WrittenAt(writes: seq<Write>, i: int, e: UsageEvent) {
    && 0 <= i < |writes| && writes[i].luck.commits
    && e == (if writes[i].event.at == 0 then writes[i].event.(at := writes[i].now) else writes[i].event)
  }

  /**
   Over any run of writes with a clock that does not go back and without failed clean-ups: the table holds only events
   that were written, among them all that are at most ninety days old, and none that is older than that by more than an
   hour unless it was written within the last hour.
   */
  lemma {:induction false} EventsAreKeptNinetyDays(writes: seq<Write>, e: UsageEvent)
    requires InOrder(writes) && writes != [] && forall i :: 0 <= i < |writes| ==> writes[i].luck.prunes
    ensures var events, now := Histories(History([], 0), writes).events, writes[|writes| - 1].now;
            && (e in events ==> exists i :: WrittenAt(writes, i, e))
            && ((exists i :: WrittenAt(writes, i, e)) && e.at >= now - 90 * DAY ==> e in events)
            && (e in events && e.at < now - 90 * DAY - HOUR ==> exists i :: WrittenAt(writes, i, e) && now - writes[i].now < HOUR)
  {
    hide Histories, WrittenAt;
    KeptSinceLastPrune(writes, e);
  }

  lemma {:induction false} KeptSinceLastPrune(writes: seq<Write>, e: UsageEvent)
    requires InOrder(writes) && writes != [] && forall i :: 0 <= i < |writes| ==> writes[i].luck.prunes
    ensures var h, now := Histories(History([], 0), writes), writes[|writes| - 1].now;
            && 0 < h.lastPrune <= now < h.lastPrune + HOUR
            && (e in h.events ==> exists i :: WrittenAt(writes, i, e))
            && ((exists i :: WrittenAt(writes, i, e)) && e.at >= h.lastPrune - RETENTION ==> e in h.events)
            && (e in h.events && e.at < h.lastPrune - RETENTION ==>
                  exists i :: WrittenAt(writes, i, e) && writes[i].now >= h.lastPrune)
  {
    var n := |writes| - 1;
    var front, w := writes[..n], writes[n];
    var before := Histories(History([], 0), front);
    RecentKeeps(before.events, w.now - RETENTION, e);
    if n > 0 {
      KeptSinceLastPrune(front, e);
      assert front[n - 1] == writes[n - 1];
    }
    WrittenBefore(writes, e);
    hide WrittenAt, Recent, InOrder;
    if WrittenAt(writes, n, e) { assert writes[n].now == w.now; }
  }

  lemma {:induction false} WrittenBefore(writes: seq<Write>, e: UsageEvent)
    requires writes != []
    ensures var n := |writes| - 1;
            && (forall i :: i != n ==> (WrittenAt(writes, i, e) <==> WrittenAt(writes[..n], i, e)))
            && (WrittenAt(writes, n, e) <==> writes[n].luck.commits && e == WithTime(writes[n].event, writes[n].now))
  {
  }

  // ---------- reading ----------

  datatype Limits = Limits(daily: int, weekly: int)

  datatype UsageSummary = UsageSummary(daily: Tally, weekly: Tally, limits: Limits, dailyResetAt: int, weeklyResetAt: int)

  datatype Rule = Rule(model: string, billingMode: string, perCallUsd: int)

  datatype ModelUsageEntry =
    ModelUsageEntry(model: string, billingMode: string, perCallUsd: int, inConfig: bool, daily: UsageWindow, weekly: UsageWindow)

  /** The windows a reader at `now` sees. */
  function Seen(state: Option<UsageValue>, now: int): ModelWindows {
    match state
    case None => ModelWindows(UsageWindow(StartOfDay(now), NOTHING), UNUSED)
    case Some(st) => ModelWindows(CurrentDaily(st.daily, now), CurrentWeekly(st.weekly, now))
  }

  function SeenRow(row: ModelWindows, now: int): ModelWindows {
    ModelWindows(CurrentDaily(row.daily, now), CurrentWeekly(row.weekly, now))
  }

  predicate OverDaily(state: Option<UsageValue>, limits: Limits, now: int) {
    limits.daily > 0 && Seen(state, now).daily.tally.usd >= limits.daily
  }

  predicate OverWeekly(state: Option<UsageValue>, limits: Limits, now: int) {
    limits.weekly > 0 && Seen(state, now).weekly.tally.usd >= limits.weekly
  }

  // ---------- reading, told from the charges ----------

  /** The state is what a log of charges has left, none of them dated after `now`. */
  ghost predicate Recorded(state: Option<UsageValue>, log: seq<Charge>, now: int) {
    && (state == Some(Replay(log)) || (state.None? && log == []))
    && Dated(log) && DAY <= now && (log != [] ==> log[|log| - 1].at <= now)
  }

  /** A week that began at `start` is still running at `now`, or the next one begins. */
  function WeekStart(start: int, now: int): int { if now < start + WEEK then start else now }

  /** The amounts of the week from `start`, and nothing once it is over. */
  function WeekSum(entries: seq<Entry>, start: int, now: int): Tally {
    if now < start + WEEK then SumIn(entries, start, start + WEEK) else NOTHING
  }

  /** The windows a reader sees are those of the current UTC day and of the week of the last charge. */
  ghost predicate SeenFrom(seen: ModelWindows, log: seq<Charge>, now: int) {
    && seen.daily.tally == SumIn(KeyEntries(log), StartOfDay(now), StartOfDay(now) + DAY)
    && seen.weekly.tally == WeekSum(KeyEntries(log), Replay(log).weekly.start, now)
    && (log != [] ==> seen.weekly.start == WeekStart(Replay(log).weekly.start, now) != 0)
  }

  lemma {:induction false} SeenIsDated(state: Option<UsageValue>, log: seq<Charge>, now: int)
    requires Recorded(state, log, now)
    ensures SeenFrom(Seen(state, now), log, now)
  {
    KeyAccounts(log);
    if log != [] {
      KeyEntriesChronological(log);
      WindowsAreDated(ModelWindows(Replay(log).daily, Replay(log).weekly), KeyEntries(log), now);
    }
  }

  lemma {:induction false} WindowsAreDated(w: ModelWindows, entries: seq<Entry>, now: int)
    requires entries != [] && Chronological(entries) && Accounts(w, entries) && entries[|entries| - 1].at <= now
    ensures var seen := SeenRow(w, now);
            && seen.daily.start == StartOfDay(now)
            && seen.daily.tally == SumIn(entries, StartOfDay(now), StartOfDay(now) + DAY)
            && seen.weekly.start == WeekStart(w.weekly.start, now) != 0
            && seen.weekly.tally == WeekSum(entries, w.weekly.start, now)
  {
    var last := entries[|entries| - 1].at;
    DayFacts(last);
    DayFacts(now);
    hide StartOfDay, SameDay;
    if StartOfDay(last) != StartOfDay(now) {
      EarlierDay(last, now);
      NoneBetween(entries, StartOfDay(now), StartOfDay(now) + DAY);
    }
  }

  /** A model's windows show what the charges of that model add up to. */
  ghost predicate ModelIsDated(rows: map<string, ModelWindows>, log: seq<Charge>, model: string, now: int) {
    && (model in rows <==> exists c :: c in log && c.model == model)
    && (model in rows ==>
          var seen, entries, start := SeenRow(rows[model], now), ModelEntries(log, model), rows[model].weekly.start;
          && seen.daily == UsageWindow(StartOfDay(now), SumIn(entries, StartOfDay(now), StartOfDay(now) + DAY))
          && seen.weekly == UsageWindow(WeekStart(start, now), WeekSum(entries, start, now)))
  }

  lemma {:induction false} ModelsAreDated(state: Option<UsageValue>, log: seq<Charge>, model: string, now: int)
    requires Recorded(state, log, now)
    ensures ModelIsDated(Rows(state), log, model, now)
  {
    ModelLevelIsAMeter(log, model);
    ModelIsCharged(log, model);
    ModelAccounts(log, model);
    ModelEntriesChronological(log, model);
    hide Replay, ModelEntries, SumIn, Dated, Accounts;
    if model in Replay(log).byModel {
      var entries := ModelEntries(log, model);
      assert entries[|entries| - 1] in entries;
      WindowsAreDated(Replay(log).byModel[model], entries, now);
    }
  }

  lemma {:induction false} ModelIsCharged(log: seq<Charge>, model: string)
    ensures ModelEntries(log, model) != [] <==> exists c :: c in log && c.model == model
  {
    if log != [] {
      var n := |log| - 1;
      ModelIsCharged(log[..n], model);
      assert log == log[..n] + [log[n]];
    }
  }

  /** A row of the report shows the charges of its model; a model without any shows unused windows. */
  ghost predicate ShowsCharges(e: ModelUsageEntry, log: seq<Charge>, now: int) {
    var entries, start := ModelEntries(log, e.model), RowOf(Replay(log).byModel, e.model).weekly.start;
    if exists c :: c in log && c.model == e.model
    then && e.daily == UsageWindow(StartOfDay(now), SumIn(entries, StartOfDay(now), StartOfDay(now) + DAY))
         && e.weekly == UsageWindow(WeekStart(start, now), WeekSum(entries, start, now))
    else e.daily == e.weekly == UNUSED
  }

  lemma {:induction false} RowShowsCharges(e: ModelUsageEntry, state: Option<UsageValue>, log: seq<Charge>, now: int)
    requires Recorded(state, log, now)
    requires ModelWindows(e.daily, e.weekly) == if e.model in Rows(state) then SeenRow(Rows(state)[e.model], now) else UNUSED_MODEL
    ensures ShowsCharges(e, log, now)
  {
    ModelsAreDated(state, log, e.model, now);
    assert Rows(state) == Replay(log).byModel;
    hide Replay, ModelEntries, SumIn, SeenRow, Recorded;
  }

  // ---------- the ledger ----------

  class UsageLedger {
    var entries: map<string, UsageState?>

    constructor ()
      ensures entries == map[]
    {
      entries := map[];
    }

    /** The recorded usage of a key, if any. */
    function Entry(id: string): (st: Option<UsageValue>)
      reads this, entries.Values, set s | s in entries.Values && s != null :: s.byAlias
    {
      if id in entries && entries[id] != null then Some(entries[id].Value()) else None
    }

    /**
     `recordCost`: the next state is built on a copy, written through when there is a database, and
     published only if that write committed.
     */
    method RecordCost(id: string, c: Charge, database: UsageTable?, event: Option<UsageEvent>, now: int, luck: Luck) returns (ok: bool)
      modifies this, database
      ensures ok <==> id == "" || database == null || old(database.Accepts(id, event, now, luck))
      ensures var after := ApplyCost(Start(old(Entry(id))), c);
              && Entry(id) == (if ok && id != "" then Some(after) else old(Entry(id)))
              && (database != null ==>
                    database.rows == if ok && id != "" then old(database.rows)[Strings.Trim(id) := after] else old(database.rows))
      ensures database != null ==>
                database.events == if id == "" then old(database.events)
                                   else old(database.EventsLeft(id, event, now, luck))
                                        + if ok && event.Some? then [WithTime(event.value, now)] else []
      ensures forall other :: other != id ==> Entry(other) == old(Entry(other))
      ensures forall st :: st in entries.Values && st !in old(entries).Values ==> st != null && fresh(st) && fresh(st.byAlias)
    {
      hide ApplyCost, Strings.Trim, PruneIsDue, Recent, WithTime, UsageTable.Accepts, UsageTable.EventsLeft;
      if id == "" { return true; }
      var state := NextState(id, c);
      ok := true;
      if database != null {
        ok := database.PersistUsageEntry(id, state, event, now, luck);
      }
      if ok { entries := entries[id := state]; }
    }

    /** The charged copy of a key's state. */
    method NextState(id: string, c: Charge) returns (state: UsageState)
      ensures fresh(state) && state.byAlias != null && fresh(state.byAlias)
      ensures state.Value() == ApplyCost(Start(Entry(id)), c)
    {
      hide ApplyCost;
      state := CloneUsageState(if id in entries then entries[id] else null);
      ApplyCostInPlace(state, c);
    }

    /** `loadFromState`: the ledger takes copies, so later changes to the caller's states do not reach it. */
    method LoadFromState(usage: map<string, UsageState?>)
      modifies this
      ensures forall id :: Entry(id) == (if id in usage && usage[id] != null then Some(old(usage[id].Value())) else None)
      ensures Unshared(entries)
      ensures forall id :: id in entries ==> entries[id] != null && fresh(entries[id]) && fresh(entries[id].byAlias)
    {
      entries := CopyStates(usage);
    }

    /** `snapshot`: copies of every state, for persistence and reports. */
    method Snapshot() returns (copies: map<string, UsageState?>)
      ensures copies.Keys == set id | id in entries && entries[id] != null
      ensures forall id :: id in copies ==> copies[id] != null && Some(copies[id].Value()) == Entry(id)
      ensures Unshared(copies)
      ensures forall id :: id in copies ==> fresh(copies[id]) && fresh(copies[id].byAlias)
    {
      copies := CopyStates(entries);
    }

    /** `Summary`: what a key has used in the windows current at `now`, without touching the ledger. */
    method Summary(id: string, limits: Limits, now: int) returns (summary: UsageSummary)
      ensures var seen := Seen(Entry(id), now);
              && summary.daily == seen.daily.tally && summary.weekly == seen.weekly.tally
              && summary.limits == limits
              && summary.dailyResetAt == StartOfDay(now) + DAY
              && summary.weeklyResetAt == if seen.weekly.start == 0 then 0 else seen.weekly.start + WEEK
      ensures forall log :: Recorded(Entry(id), log, now) ==>
                && summary.daily == SumIn(KeyEntries(log), StartOfDay(now), StartOfDay(now) + DAY)
                && summary.weekly == WeekSum(KeyEntries(log), Replay(log).weekly.start, now)
                && (log != [] ==> summary.weeklyResetAt == WeekStart(Replay(log).weekly.start, now) + WEEK)
    {
      forall log | Recorded(Entry(id), log, now) ensures SeenFrom(Seen(Entry(id), now), log, now) {
        SeenIsDated(Entry(id), log, now);
      }
      hide Replay, KeyEntries, SumIn;
      summary := UsageSummary(NOTHING, NOTHING, limits, StartOfDay(now) + DAY, 0);
      if id !in entries || entries[id] == null { return; }
      var st := entries[id];
      var copy := new UsageState(st.daily, st.weekly, st.byAlias);
      EnsureDailyWindow(copy, now);
      EnsureWeeklyWindow(copy, now);
      summary := summary.(daily := copy.daily.tally, weekly := copy.weekly.tally);
      if copy.weekly.start != 0 { summary := summary.(weeklyResetAt := copy.weekly.start + WEEK); }
    }

    /** `OverLimit`: the daily limit is checked first; a limit of zero or less does not apply. */
    method OverLimit(id: string, limits: Limits, now: int) returns (reason: string)
      ensures reason == "daily_exceeded" <==> OverDaily(Entry(id), limits, now)
      ensures reason == "weekly_exceeded" <==> !OverDaily(Entry(id), limits, now) && OverWeekly(Entry(id), limits, now)
      ensures reason == "" <==> !OverDaily(Entry(id), limits, now) && !OverWeekly(Entry(id), limits, now)
      ensures forall log :: Recorded(Entry(id), log, now) ==>
                var today := SumIn(KeyEntries(log), StartOfDay(now), StartOfDay(now) + DAY).usd;
                var week := WeekSum(KeyEntries(log), Replay(log).weekly.start, now).usd;
                && (reason == "daily_exceeded" <==> limits.daily > 0 && today >= limits.daily)
                && (reason == "weekly_exceeded" <==>
                      !(limits.daily > 0 && today >= limits.daily) && limits.weekly > 0 && week >= limits.weekly)
                && (reason == "" <==>
                      (limits.daily > 0 ==> today < limits.daily) && (limits.weekly > 0 ==> week < limits.weekly))
    {
      hide Replay, KeyEntries, SumIn, Recorded, WeekSum;
      if limits.daily <= 0 && limits.weekly <= 0 { return ""; }
      var s := Summary(id, limits, now);
      if limits.daily > 0 && s.daily.usd >= limits.daily { return "daily_exceeded"; }
      if limits.weekly > 0 && s.weekly.usd >= limits.weekly { return "weekly_exceeded"; }
      return "";
    }

    method ResetUsage(id: string)
      modifies this
      ensures entries == old(entries) - {id}
    {
      entries := entries - {id};
    }

    method ResetAllUsage()
      modifies this
      ensures entries == map[]
    {
      entries := map[];
    }

    /**
     `ModelUsage`: one row per model that is configured or has usage, in model order, showing the windows
     current at `now`; the ledger is not touched.
     */
    method ModelUsage(id: string, rules: seq<Rule>, now: int) returns (report: seq<ModelUsageEntry>)
      ensures forall i, j :: 0 <= i < j < |report| ==> Strings.Less(report[i].model, report[j].model)
      ensures forall model :: Configured(rules, model) || model in Rows(Entry(id)) ==> exists e :: e in report && e.model == model
      ensures forall e :: e in report ==> Configured(rules, e.model) || e.model in Rows(Entry(id))
      ensures forall e :: e in report ==>
                && (e.inConfig <==> Configured(rules, e.model))
                && (e.inConfig ==> PricedAs(e, rules))
                && ModelWindows(e.daily, e.weekly)
                   == if e.model in Rows(Entry(id)) then SeenRow(Rows(Entry(id))[e.model], now) else UNUSED_MODEL
      ensures forall log, e :: Recorded(Entry(id), log, now) && e in report ==> ShowsCharges(e, log, now)
    {
      hide SeenRow, Recorded, ShowsCharges;
      var configured := ConfiguredEntries(rules);
      var rows := if id in entries && entries[id] != null && entries[id].byAlias != null then entries[id].byAlias.rows else map[];
      assert rows == Rows(Entry(id));
      var byModel := FillRows(configured, rows, now);
      report := InModelOrder(byModel);
      forall model | Configured(rules, model) || model in rows ensures exists e :: e in report && e.model == model {
        assert byModel[model] in report;
      }
      forall log, e | Recorded(Entry(id), log, now) && e in report ensures ShowsCharges(e, log, now) {
        RowShowsCharges(e, Entry(id), log, now);
      }
    }
  }

  /** The windows of the rows with usage replace the zero windows; models not configured are added. */
  method FillRows(byModel: map<string, ModelUsageEntry>, rows: map<string, ModelWindows>, now: int)
    returns (filled: map<string, ModelUsageEntry>)
    requires forall m :: m in byModel ==> byModel[m].model == m
    ensures filled.Keys == byModel.Keys + rows.Keys
    ensures forall m :: m in filled ==> filled[m] == Filled(byModel, rows, m, now)
  {
    filled := byModel;
    var left := rows.Keys;
    while left != {}
      invariant left <= rows.Keys
      invariant filled.Keys == byModel.Keys + (rows.Keys - left)
      invariant forall m :: m in filled ==>
                  filled[m] == if m in left then byModel[m] else Filled(byModel, rows, m, now)
      decreases left
    {
      var model :| model in left;
      var entry := if model in filled then filled[model] else ModelUsageEntry(model, "", 0, false, UNUSED, UNUSED);
      filled := filled[model := entry.(daily := CurrentDaily(rows[model].daily, now),
                                       weekly := CurrentWeekly(rows[model].weekly, now))];
      left := left - {model};
    }
  }

  function Filled(byModel: map<string, ModelUsageEntry>, rows: map<string, ModelWindows>, m: string, now: int): ModelUsageEntry
    requires m in byModel || m in rows
  {
    var entry := if m in byModel then byModel[m] else ModelUsageEntry(m, "", 0, false, UNUSED, UNUSED);
    if m in rows then entry.(daily := SeenRow(rows[m], now).daily, weekly := SeenRow(rows[m], now).weekly) else entry
  }

  method InModelOrder(byModel: map<string, ModelUsageEntry>) returns (report: seq<ModelUsageEntry>)
    requires forall m :: m in byModel ==> byModel[m].model == m
    ensures forall i, j :: 0 <= i < j < |report| ==> Strings.Less(report[i].model, report[j].model)
    ensures forall e :: e in report <==> e.model in byModel && byModel[e.model] == e
  {
    var names := Strings.SortNames(byModel.Keys);
    report := [];
    for i := 0 to |names|
      invariant |report| == i
      invariant forall k :: 0 <= k < i ==> names[k] in byModel && report[k] == byModel[names[k]]
    {
      assert names[i] in byModel.Keys;
      report := report + [byModel[names[i]]];
    }
    forall m | m in byModel ensures byModel[m] in report {
      var k :| 0 <= k < |names| && names[k] == m;
      assert report[k] == byModel[m];
    }
  }

  predicate Configured(rules: seq<Rule>, model: string) { exists r :: r in rules && r.model == model }

  /** Of several rules for one name the last counts. */
  function LastRule(rules: seq<Rule>, model: string): Option<Rule> {
    if rules == [] then None
    else if rules[|rules| - 1].model == model then Some(rules[|rules| - 1])
    else LastRule(rules[..|rules| - 1], model)
  }

  lemma {:induction false} LastRuleIsConfigured(rules: seq<Rule>, model: string)
    ensures LastRule(rules, model).Some? <==> Configured(rules, model)
  {
    if rules != [] {
      var n := |rules| - 1;
      LastRuleIsConfigured(rules[..n], model);
      assert rules == rules[..n] + [rules[n]];
    }
  }

  predicate PricedAs(e: ModelUsageEntry, rules: seq<Rule>) {
    var r := LastRule(rules, e.model);
    r.Some? && r.value.billingMode == e.billingMode && r.value.perCallUsd == e.perCallUsd
  }

  /** The configured models' rows before any usage is filled in; a later rule replaces an earlier one of its name. */
  method ConfiguredEntries(rules: seq<Rule>) returns (byModel: map<string, ModelUsageEntry>)
    ensures forall m :: m in byModel <==> Configured(rules, m)
    ensures forall m :: m in byModel ==>
              byModel[m].model == m && byModel[m].inConfig && PricedAs(byModel[m], rules)
              && ModelWindows(byModel[m].daily, byModel[m].weekly) == UNUSED_MODEL
  {
    byModel := map[];
    for i := 0 to |rules|
      invariant forall m :: m in byModel <==> LastRule(rules[..i], m).Some?
      invariant forall m :: m in byModel ==>
                  byModel[m].model == m && byModel[m].inConfig && PricedAs(byModel[m], rules[..i])
                  && ModelWindows(byModel[m].daily, byModel[m].weekly) == UNUSED_MODEL
    {
      var r := rules[i];
      assert rules[..i + 1][..i] == rules[..i] && rules[..i + 1][i] == r;
      byModel := byModel[r.model := ModelUsageEntry(r.model, r.billingMode, r.perCallUsd, true, UNUSED, UNUSED)];
    }
    assert rules[..|rules|] == rules;
    forall m ensures m in byModel <==> Configured(rules, m) { LastRuleIsConfigured(rules, m); }
  }

  function Rows(state: Option<UsageValue>): map<string, ModelWindows> {
    if state.Some? then state.value.byModel else map[]
  }

  /** No two states are the same object or share a table. */
  ghost predicate Unshared(states: map<string, UsageState?>)
    reads states.Values
  {
    && (forall id :: id in states && states[id] != null ==> states[id].byAlias != null)
    && (forall a, b :: a in states && b in states && a != b && states[a] != null && states[b] != null ==>
          states[a] != states[b] && states[a].byAlias != states[b].byAlias)
  }

  method CopyStates(source: map<string, UsageState?>) returns (copies: map<string, UsageState?>)
    ensures copies.Keys == set id | id in source && source[id] != null
    ensures forall id :: id in copies ==> copies[id] != null && copies[id].Value() == old(source[id].Value())
    ensures Unshared(copies)
    ensures forall id :: id in copies ==> fresh(copies[id]) && fresh(copies[id].byAlias)
  {
    copies := map[];
    var left := source.Keys;
    while left != {}
      invariant left <= source.Keys
      invariant copies.Keys == set id | id in source && source[id] != null && id !in left
      invariant forall id :: id in copies ==> copies[id] != null && fresh(copies[id]) && fresh(copies[id].byAlias)
      invariant forall id :: id in copies ==> copies[id].Value() == old(source[id].Value())
      invariant Unshared(copies)
      decreases left
    {
      var id :| id in left;
      if source[id] != null {
        var copy := CloneUsageState(source[id]);
        copies := copies[id := copy];
      }
      left := left - {id};
    }
  }

  /** `applyCostLocked`: windows and the model's row are updated in place on a private copy. */
  method ApplyCostInPlace(state: UsageState, c: Charge)
    requires state.byAlias != null
    modifies state, state.byAlias
    ensures state.byAlias == old(state.byAlias)
    ensures state.Value() == ApplyCost(old(state.Value()), c)
  {
    EnsureDailyWindow(state, c.at);
    EnsureWeeklyWindow(state, c.at);
    var d := c.delta;
    var day, week := AddGuarded(state.daily.tally, state.weekly.tally, d);
    state.daily, state.weekly := state.daily.(tally := day), state.weekly.(tally := week);
    var row := if c.model in state.byAlias.rows then state.byAlias.rows[c.model] else UNUSED_MODEL;
    row := ModelWindows(Add(CurrentDaily(row.daily, c.at), d), Add(CurrentWeekly(row.weekly, c.at), d));
    state.byAlias.rows := state.byAlias.rows[c.model := row];
  }

  /** Dollars and calls always count at key level; the other amounts only when positive. */
  method AddGuarded(day: Tally, week: Tally, d: Tally) returns (day': Tally, week': Tally)
    ensures day' == day.Plus(d.Guarded()) && week' == week.Plus(d.Guarded())
    ensures day'.usd == day.usd + d.usd && day'.calls == day.calls + d.calls
    ensures day'.cacheUsd == day.cacheUsd + (if d.cacheUsd > 0 then d.cacheUsd else 0)
    ensures day'.cacheRead == day.cacheRead + (if d.cacheRead > 0 then d.cacheRead else 0)
    ensures day'.input == day.input + (if d.input > 0 then d.input else 0)
    ensures day'.output == day.output + (if d.output > 0 then d.output else 0)
  {
    day' := day.(usd := day.usd + d.usd, calls := day.calls + d.calls);
    week' := week.(usd := week.usd + d.usd, calls := week.calls + d.calls);
    if d.cacheRead > 0 {
      day' := day'.(cacheRead := day'.cacheRead + d.cacheRead);
      week' := week'.(cacheRead := week'.cacheRead + d.cacheRead);
    }
    if d.cacheUsd > 0 {
      day' := day'.(cacheUsd := day'.cacheUsd + d.cacheUsd);
      week' := week'.(cacheUsd := week'.cacheUsd + d.cacheUsd);
    }
    if d.input > 0 {
      day' := day'.(input := day'.input + d.input);
      week' := week'.(input := week'.input + d.input);
    }
    if d.output > 0 {
      day' := day'.(output := day'.output + d.output);
      week' := week'.(output := week'.output + d.output);
    }
  }

  method EnsureDailyWindow(state: UsageState, now: int)
    modifies state
    ensures state.daily == CurrentDaily(old(state.daily), now)
    ensures state.weekly == old(state.weekly) && state.byAlias == old(state.byAlias)
  {
    var start := StartOfDay(now);
    if state.daily.start == 0 || !SameDay(state.daily.start, start) { state.daily := UsageWindow(start, NOTHING); }
  }

  method EnsureWeeklyWindow(state: UsageState, now: int)
    modifies state
    ensures state.weekly == CurrentWeekly(old(state.weekly), now)
    ensures state.daily == old(state.daily) && state.byAlias == old(state.byAlias)
  {
    if state.weekly.start == 0 || now - state.weekly.start >= WEEK { state.weekly := UsageWindow(now, NOTHING); }
  }

  // ---------- the read view is the write path's starting point ----------

  /**
   What a charge adds to is what a reader at that instant is shown: afterwards the key's summary and the
   charged model's row have grown by the charge and every other model's row is as it was shown.
   */
  lemma {:induction false} ChargeGrowsTheView(state: Option<UsageValue>, c: Charge, other: string)
    requires DAY <= c.at
    ensures var before, after := Seen(state, c.at), Seen(Some(ApplyCost(Start(state), c)), c.at);
            && after.daily == Add(before.daily, c.delta.Guarded())
            && after.weekly.tally == before.weekly.tally.Plus(c.delta.Guarded())
            && (state.Some? ==> after.weekly.start == before.weekly.start)
    ensures var rows, rows' := Rows(state), ApplyCost(Start(state), c).byModel;
            && SeenRow(RowOf(rows', c.model), c.at)
               == ModelWindows(Add(SeenRow(RowOf(rows, c.model), c.at).daily, c.delta),
                               Add(SeenRow(RowOf(rows, c.model), c.at).weekly, c.delta))
            && (other != c.model ==> RowOf(rows', other) == RowOf(rows, other))
  {
  }

  function Start(state: Option<UsageValue>): UsageValue { if state.Some? then state.value else EMPTY }
}
