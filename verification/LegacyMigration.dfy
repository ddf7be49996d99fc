/**
 Migration of the request history out of the legacy JSON state (internal/policy/state_migration.go): which events are
 carried over, and which ids the SQLite table hands out afterwards.
 */
module LegacyMigration {
  import opened Wrappers
  import opened Strings
  import opened Int64
  import opened KeyPreviews
  import W = UsageWindows

  /** A request event; the other text columns are trimmed like the ones shown. */
  datatype UsageEvent = UsageEvent(
    id: int64, timestamp: int, keyId: string, keyPreview: string, model: string, generate: bool, latencyMs: int,
    ttftMs: Option<int>, statusCode: int, inputTokens: int, outputTokens: int, totalTokens: int)

  datatype MigrationError = InvalidId(id: int) | DuplicateId(id: int) | InsertFailed(id: int)

  datatype Prepared = Prepared(sourceEventCount: nat, events: seq<UsageEvent>, nextEventId: int64)

  // ---------- one event ----------

  function NonNegative(n: int): int { if n < 0 then 0 else n }

  function NormalizeUsageEvent(e: UsageEvent, now: int): UsageEvent {
    e.(timestamp := if e.timestamp == 0 then now else e.timestamp,
       keyId := Trim(e.keyId), keyPreview := Trim(e.keyPreview), model := Trim(e.model),
       latencyMs := NonNegative(e.latencyMs),
       ttftMs := if e.ttftMs.Some? && e.ttftMs.value > 0 then e.ttftMs else None,
       statusCode := NonNegative(e.statusCode),
       totalTokens := if e.totalTokens <= 0 then NonNegative(e.inputTokens) + NonNegative(e.outputTokens) else e.totalTokens)
  }

  /** What an event becomes. */
  function Migrated(e: UsageEvent, previews: map<string, string>, now: int): UsageEvent {
    var n := NormalizeUsageEvent(e, now).(generate := true);
    n.(keyPreview := if n.keyPreview != "" then MaskKeyPreview(n.keyPreview)
                     else if Fold(n.keyId) in previews then previews[Fold(n.keyId)] else "")
  }

  /** Events older than the retention period are left behind; an event without a time is as new as the migration. */
  predicate Expired(e: UsageEvent, now: int) { NormalizeUsageEvent(e, now).timestamp < now - W.RETENTION }

  /** A migrated event, told from the legacy one: the same counts, no negative measurements, and its key masked. */
  ghost predicate ComesFrom(m: UsageEvent, e: UsageEvent, previews: map<string, string>, now: int) {
    && m.id == e.id && m.timestamp == (if e.timestamp != 0 then e.timestamp else now)
    && m.keyId == Trim(e.keyId) && m.model == Trim(e.model) && m.generate
    && (if Trim(e.keyPreview) != "" then m.keyPreview == MaskKeyPreview(e.keyPreview)
        else if Fold(Trim(e.keyId)) in previews then m.keyPreview == previews[Fold(Trim(e.keyId))] else m.keyPreview == "")
    && (e.latencyMs >= 0 ==> m.latencyMs == e.latencyMs) && (e.latencyMs < 0 ==> m.latencyMs == 0)
    && (e.statusCode >= 0 ==> m.statusCode == e.statusCode) && (e.statusCode < 0 ==> m.statusCode == 0)
    && m.ttftMs == (match e.ttftMs case None => None case Some(t) => if t > 0 then Some(t) else None)
    && m.inputTokens == e.inputTokens && m.outputTokens == e.outputTokens
    && (e.totalTokens > 0 ==> m.totalTokens == e.totalTokens)
    && (e.totalTokens <= 0 && e.inputTokens >= 0 && e.outputTokens >= 0 ==> m.totalTokens == e.inputTokens + e.outputTokens)
    && m.totalTokens >= 0
  }

  /** Each event is migrated to its own columns, and left behind exactly when it is more than ninety days old. */
  lemma {:induction false} MigrationKeepsColumns(e: UsageEvent, previews: map<string, string>, now: int)
    ensures ComesFrom(Migrated(e, previews, now), e, previews, now)
    ensures Expired(e, now) <==> (if e.timestamp != 0 then e.timestamp else now) + 90 * W.DAY < now
  {
    TrimIsIdempotent(e.keyPreview);
    hide Trim, Fold, AfterDots;
  }

  /** A migrated event is in the form that recording gives events: recording it again, at any time, would change nothing. */
  lemma {:induction false} MigratedIsNormal(e: UsageEvent, previews: map<string, string>, now: int, later: int)
    requires now != 0 && forall k :: k in previews ==> Trim(previews[k]) == previews[k]
    ensures var m := Migrated(e, previews, now);
            && NormalizeUsageEvent(m, later) == m && m.generate
            && m.latencyMs >= 0 && m.statusCode >= 0 && (m.ttftMs.Some? ==> m.ttftMs.value > 0)
  {
    hide Trim, Fold, MaskKeyPreview;
    TrimIsIdempotent(e.keyId);
    TrimIsIdempotent(e.keyPreview);
    TrimIsIdempotent(e.model);
    MaskIsTrimmed(Trim(e.keyPreview));
    EmptyIsTrimmed();
  }

  // ---------- the source list ----------

  predicate DistinctIds(events: seq<UsageEvent>) {
    forall i, j :: 0 <= i < j < |events| ==> events[i].id != events[j].id
  }

  predicate PositiveIds(events: seq<UsageEvent>) { forall i :: 0 <= i < |events| ==> events[i].id > 0 }

  predicate Sorted(events: seq<UsageEvent>) {
    forall i, j :: 0 <= i < j < |events| ==> events[i].id < events[j].id
  }

  function Ids(events: seq<UsageEvent>): multiset<int> {
    if events == [] then multiset{} else Ids(events[..|events| - 1]) + multiset{events[|events| - 1].id}
  }

  function Retained(source: seq<UsageEvent>, previews: map<string, string>, now: int): seq<UsageEvent> {
    if source == [] then []
    else
      var e := source[|source| - 1];
      Retained(source[..|source| - 1], previews, now) + if Expired(e, now) then [] else [Migrated(e, previews, now)]
  }

  function Dropped(source: seq<UsageEvent>, now: int): seq<UsageEvent> {
    if source == [] then []
    else
      var e := source[|source| - 1];
      Dropped(source[..|source| - 1], now) + if Expired(e, now) then [e] else []
  }

  /** The running maximum of the loop, and SQLite's largest row id. */
  function MaxId(events: seq<UsageEvent>): int64 {
    if events == [] then 0
    else
      var rest, id := MaxId(events[..|events| - 1]), events[|events| - 1].id;
      if id > rest then id else rest
  }

  function NextEventId(nextId: int64, maxId: int64): int64 {
    var next := if nextId <= maxId then Wrap64(maxId + 1) else nextId;
    if next < 1 then 1 else next
  }

  function Place(e: UsageEvent, sorted: seq<UsageEvent>): seq<UsageEvent> {
    if sorted == [] || e.id < sorted[0].id then [e] + sorted else [sorted[0]] + Place(e, sorted[1..])
  }

  /** `sort.Slice` by id. */
  function SortById(events: seq<UsageEvent>): seq<UsageEvent> {
    if events == [] then [] else Place(events[|events| - 1], SortById(events[..|events| - 1]))
  }

  /**
   The event part of `prepareLegacyState`. It succeeds exactly when the ids are positive and distinct, dropped events
   included, and otherwise names the first offender.
   */
  method PrepareEvents(source: seq<UsageEvent>, nextId: int64, previews: map<string, string>, now: int)
    returns (r: Result<Prepared, MigrationError>)
    ensures r.Ok? <==> PositiveIds(source) && DistinctIds(source)
    ensures r.Ok? ==> r.value == Prepared(|source|, SortById(Retained(source, previews, now)),
                                          NextEventId(nextId, MaxId(Retained(source, previews, now))))
    ensures r.Err? ==> exists i :: FirstOffender(source, i, r.error)
  {
    hide Retained, MaxId, Expired, Migrated, SortById;
    var events: seq<UsageEvent>, seen: set<int>, maxEventId: int64, i := [], {}, 0, 0;
    NothingRetained(previews, now);
    assert source[..0] == [];
    while i < |source|
      invariant 0 <= i <= |source| && SoundUpTo(source, i)
      invariant forall k :: 0 <= k < i ==> source[k].id in seen
      invariant forall id :: id in seen ==> exists k :: 0 <= k < i && source[k].id == id
      invariant events == Retained(source[..i], previews, now) && maxEventId == MaxId(events)
    {
      var e := source[i];
      if e.id <= 0 {
        assert FirstOffender(source, i, InvalidId(e.id));
        return Err(InvalidId(e.id));
      }
      if e.id in seen {
        assert FirstOffender(source, i, DuplicateId(e.id));
        return Err(DuplicateId(e.id));
      }
      seen := seen + {e.id};
      RetainedStep(source, i, previews, now);
      if !Expired(e, now) {
        var kept := Migrated(e, previews, now);
        MaxIdStep(events, kept);
        events := events + [kept];
        if kept.id > maxEventId { maxEventId := kept.id; }
      }
      i := i + 1;
    }
    assert source[..i] == source;
    r := Ok(Prepared(|source|, SortById(events), NextEventId(nextId, maxEventId)));
  }

  lemma {:induction false} NothingRetained(previews: map<string, string>, now: int)
    ensures Retained([], previews, now) == [] && MaxId([]) == 0
  {
  }

  lemma {:induction false} RetainedStep(source: seq<UsageEvent>, i: nat, previews: map<string, string>, now: int)
    requires i < |source|
    ensures Retained(source[..i + 1], previews, now)
            == Retained(source[..i], previews, now)
               + if Expired(source[i], now) then [] else [Migrated(source[i], previews, now)]
    ensures Expired(source[i], now) ==> Retained(source[..i + 1], previews, now) == Retained(source[..i], previews, now)
  {
    hide Expired, Migrated;
    assert source[..i + 1][..i] == source[..i] && source[..i + 1][i] == source[i];
  }

  lemma {:induction false} MaxIdStep(events: seq<UsageEvent>, e: UsageEvent)
    ensures MaxId(events + [e]) == if e.id > MaxId(events) then e.id else MaxId(events)
  {
  }

  /** The first i events have positive, distinct ids. */
  predicate SoundUpTo(source: seq<UsageEvent>, i: int)
    requires 0 <= i <= |source|
  {
    && (forall k :: 0 <= k < i ==> source[k].id > 0)
    && (forall j, k :: 0 <= j < k < i ==> source[j].id != source[k].id)
  }

  /** Event i is the first with an id that is not positive, or that occurred before. */
  predicate FirstOffender(source: seq<UsageEvent>, i: int, error: MigrationError) {
    && 0 <= i < |source| && SoundUpTo(source, i)
    && match error
       case InvalidId(id) => source[i].id == id <= 0
       case DuplicateId(id) => source[i].id == id > 0 && exists k :: 0 <= k < i && source[k].id == id
       case InsertFailed(_) => false
  }

  // ---------- what a successful preparation holds ----------

  lemma {:induction false} SplitKeepsIds(source: seq<UsageEvent>, previews: map<string, string>, now: int)
    ensures Ids(source) == Ids(Retained(source, previews, now)) + Ids(Dropped(source, now))
    ensures |source| == |Retained(source, previews, now)| + |Dropped(source, now)|
  {
    hide Expired, Migrated, Ids;
    NoIds();
    if source != [] {
      var n := |source| - 1;
      var kept, gone, e := Retained(source[..n], previews, now), Dropped(source[..n], now), source[n];
      SplitKeepsIds(source[..n], previews, now);
      MigrationKeepsId(e, previews, now);
      IdsStep(source[..n], e);
      IdsStep(kept, Migrated(e, previews, now));
      IdsStep(gone, e);
      assert source == source[..n] + [e] && kept + [] == kept && gone + [] == gone;
    }
  }

  lemma {:induction false} NoIds()
    ensures Ids([]) == multiset{}
  {
  }

  lemma {:induction false} IdsStep(events: seq<UsageEvent>, e: UsageEvent)
    ensures Ids(events + [e]) == Ids(events) + multiset{e.id}
  {
  }

  lemma {:induction false} MigrationKeepsId(e: UsageEvent, previews: map<string, string>, now: int)
    ensures Migrated(e, previews, now).id == e.id
  {
  }

  /** Every retained event is some source event, migrated; no event of the retention period is lost. */
  lemma {:induction false} RetainedAreMigrated(source: seq<UsageEvent>, previews: map<string, string>, now: int, e: UsageEvent)
    ensures e in Retained(source, previews, now)
            <==> exists i :: 0 <= i < |source| && !Expired(source[i], now) && Migrated(source[i], previews, now) == e
    ensures e in Retained(source, previews, now) ==> exists i :: 0 <= i < |source| && ComesFrom(e, source[i], previews, now)
  {
    RetainedFrom(source, previews, now, e);
    hide Migrated, Expired, ComesFrom;
    forall i | 0 <= i < |source| ensures ComesFrom(Migrated(source[i], previews, now), source[i], previews, now) {
      MigrationKeepsColumns(source[i], previews, now);
    }
  }

  lemma {:induction false} RetainedFrom(source: seq<UsageEvent>, previews: map<string, string>, now: int, e: UsageEvent)
    ensures e in Retained(source, previews, now)
            <==> exists i :: 0 <= i < |source| && !Expired(source[i], now) && Migrated(source[i], previews, now) == e
  {
    hide Expired, Migrated;
    if source != [] {
      var n := |source| - 1;
      RetainedFrom(source[..n], previews, now, e);
      assert forall i :: 0 <= i < n ==> source[..n][i] == source[i];
      if e in Retained(source[..n], previews, now) {
        var i :| 0 <= i < n && !Expired(source[..n][i], now) && Migrated(source[..n][i], previews, now) == e;
        assert source[i] == source[..n][i];
      }
    }
  }

  lemma {:induction false} RetainedIdsAreDistinct(source: seq<UsageEvent>, previews: map<string, string>, now: int)
    requires DistinctIds(source)
    ensures DistinctIds(Retained(source, previews, now))
  {
    hide Expired, Migrated;
    if source != [] {
      var n := |source| - 1;
      var kept := Retained(source[..n], previews, now);
      RetainedIdsAreDistinct(source[..n], previews, now);
      MigrationKeepsId(source[n], previews, now);
      forall k | 0 <= k < |kept| ensures kept[k].id != source[n].id {
        RetainedAreMigrated(source[..n], previews, now, kept[k]);
        var i :| 0 <= i < n && !Expired(source[..n][i], now) && Migrated(source[..n][i], previews, now) == kept[k];
        MigrationKeepsId(source[i], previews, now);
      }
    }
  }

  lemma {:induction false} PlaceKeeps(e: UsageEvent, sorted: seq<UsageEvent>)
    ensures multiset(Place(e, sorted)) == multiset(sorted) + multiset{e}
  {
    if sorted != [] && e.id >= sorted[0].id {
      assert sorted == [sorted[0]] + sorted[1..];
      PlaceKeeps(e, sorted[1..]);
    }
  }

  lemma {:induction false} PlaceSorts(e: UsageEvent, sorted: seq<UsageEvent>)
    requires Sorted(sorted) && forall i :: 0 <= i < |sorted| ==> sorted[i].id != e.id
    ensures Sorted(Place(e, sorted))
  {
    if sorted != [] && e.id >= sorted[0].id {
      var rest := Place(e, sorted[1..]);
      PlaceSorts(e, sorted[1..]);
      PlaceKeeps(e, sorted[1..]);
      forall i | 0 <= i < |rest| ensures sorted[0].id < rest[i].id {
        assert rest[i] in multiset(rest);
        assert rest[i] == e || rest[i] in sorted[1..];
      }
    }
  }

  lemma {:induction false} SortByIdSorts(events: seq<UsageEvent>)
    requires DistinctIds(events)
    ensures Sorted(SortById(events)) && multiset(SortById(events)) == multiset(events)
  {
    if events != [] {
      var before, e := events[..|events| - 1], events[|events| - 1];
      SortByIdSorts(before);
      assert events == before + [e];
      forall i | 0 <= i < |SortById(before)| ensures SortById(before)[i].id != e.id {
        assert SortById(before)[i] in multiset(SortById(before));
        assert SortById(before)[i] in before;
      }
      PlaceSorts(e, SortById(before));
      PlaceKeeps(e, SortById(before));
    }
  }

  lemma {:induction false} MaxIdBounds(events: seq<UsageEvent>)
    ensures MaxId(events) >= 0 && forall i :: 0 <= i < |events| ==> events[i].id <= MaxId(events)
    ensures MaxId(events) == 0 || exists i :: 0 <= i < |events| && events[i].id == MaxId(events)
  {
    if events != [] {
      var n := |events| - 1;
      MaxIdBounds(events[..n]);
      assert forall i :: 0 <= i < n ==> events[..n][i] == events[i];
    }
  }

  predicate Below(events: seq<UsageEvent>, bound: int) { forall i :: 0 <= i < |events| ==> events[i].id < bound }

  /**
   The plan of a successful migration: the source is the retained and the dropped events, the retained ones are exactly
   the source events inside the retention period, sorted by distinct ids; and the next id exceeds them all, and is no
   smaller than the legacy counter, exactly when the largest 64-bit id is not taken.
   */
  lemma {:induction false} PreparationIsSound(source: seq<UsageEvent>, nextId: int64, previews: map<string, string>, now: int)
    requires PositiveIds(source) && DistinctIds(source)
    ensures var kept := Retained(source, previews, now);
            var events, next := SortById(kept), NextEventId(nextId, MaxId(kept));
            && |source| == |events| + |Dropped(source, now)|
            && Ids(source) == Ids(kept) + Ids(Dropped(source, now))
            && Sorted(events) && multiset(events) == multiset(kept)
            && next >= 1
            && (Below(events, next) <==> MaxId(kept) < MAX_INT64)
            && (Below(events, next) ==> next >= nextId)
  {
    hide Retained, Dropped, SortById, MaxId, Ids;
    var kept := Retained(source, previews, now);
    var events, next := SortById(kept), NextEventId(nextId, MaxId(kept));
    SplitKeepsIds(source, previews, now);
    RetainedIdsAreDistinct(source, previews, now);
    SortByIdSorts(kept);
    MaxIdBounds(kept);
    assert |events| == |multiset(events)| == |kept|;
    forall i | 0 <= i < |events| ensures events[i].id <= MaxId(kept) {
      assert events[i] in multiset(events);
      assert events[i] in kept;
    }
    if MaxId(kept) > 0 {
      var i :| 0 <= i < |kept| && kept[i].id == MaxId(kept);
      assert kept[i] in multiset(kept);
      assert kept[i] in events;
    }
  }

  // ---------- the table ----------

  /** `usage_events` and its row in `sqlite_sequence`. */
  datatype EventTable = EventTable(rows: seq<UsageEvent>, sequence: int64)

  /** What AUTOINCREMENT continues from. */
  function LastId(t: EventTable): int64 { if MaxId(t.rows) > t.sequence then MaxId(t.rows) else t.sequence }

  /** An insert without an id; it fails when the ids are used up. */
  function Insert(t: EventTable, e: UsageEvent): Option<EventTable> {
    if LastId(t) == MAX_INT64 then None
    else Some(EventTable(t.rows + [e.(id := LastId(t) + 1)], LastId(t) + 1))
  }

  /** An insert with an explicit id, which fails when the id is taken. */
  function InsertWithId(t: EventTable, e: UsageEvent): Option<EventTable> {
    if exists i :: 0 <= i < |t.rows| && t.rows[i].id == e.id then None
    else Some(EventTable(t.rows + [e], if e.id > t.sequence then e.id else t.sequence))
  }

  /** Deletes the rows older than a cutoff; the sequence stays. */
  function Prune(t: EventTable, cutoff: int): EventTable { t.(rows := Newer(t.rows, cutoff)) }

  function Newer(rows: seq<UsageEvent>, cutoff: int): seq<UsageEvent> {
    if rows == [] then []
    else
      var e := rows[|rows| - 1];
      Newer(rows[..|rows| - 1], cutoff) + if e.timestamp < cutoff then [] else [e]
  }

  /** A clean-up removes exactly the rows older than its cutoff. */
  lemma {:induction false} PruneKeeps(t: EventTable, cutoff: int, e: UsageEvent)
    ensures e in Prune(t, cutoff).rows <==> e in t.rows && e.timestamp >= cutoff
    ensures Prune(t, cutoff).sequence == t.sequence
  {
    NewerHolds(t.rows, cutoff, e);
  }

  lemma {:induction false} NewerHolds(rows: seq<UsageEvent>, cutoff: int, e: UsageEvent)
    ensures e in Newer(rows, cutoff) <==> e in rows && e.timestamp >= cutoff
  {
    if rows != [] {
      NewerHolds(rows[..|rows| - 1], cutoff, e);
      assert rows == rows[..|rows| - 1] + [rows[|rows| - 1]];
    }
  }

  /** `importLegacyState`: the rows are replaced by the prepared events and the sequence is set to just below the next id. */
  method ImportEvents(before: EventTable, events: seq<UsageEvent>, nextEventId: int64) returns (r: Result<EventTable, MigrationError>)
    requires nextEventId >= 1
    ensures r.Ok? <==> DistinctIds(events)
    ensures r.Ok? ==> r.value == EventTable(events, nextEventId - 1)
  {
    var t, i := EventTable([], before.sequence), 0;
    while i < |events|
      invariant 0 <= i <= |events| && t.rows == events[..i] && DistinctIds(events[..i])
    {
      var inserted := InsertWithId(t, events[i]);
      if inserted.None? {
        return Err(InsertFailed(events[i].id));
      }
      t, i := inserted.value, i + 1;
    }
    assert events[..i] == events;
    r := Ok(EventTable(t.rows, nextEventId - 1));
  }

  // ---------- life after the migration ----------

  datatype Operation = Record(event: UsageEvent) | Clean(cutoff: int)

  function Apply(t: EventTable, op: Operation): EventTable {
    match op
    case Record(e) => (var inserted := Insert(t, e); if inserted.Some? then inserted.value else t)
    case Clean(cutoff) => Prune(t, cutoff)
  }

  function Run(t: EventTable, ops: seq<Operation>): EventTable {
    if ops == [] then t else Apply(Run(t, ops[..|ops| - 1]), ops[|ops| - 1])
  }

  /** The ids handed out by a run, in order. */
  function IdsGiven(t: EventTable, ops: seq<Operation>): seq<int> {
    if ops == [] then []
    else
      var before, given, op := Run(t, ops[..|ops| - 1]), IdsGiven(t, ops[..|ops| - 1]), ops[|ops| - 1];
      if op.Record? && Insert(before, op.event).Some? then given + [LastId(before) + 1] else given
  }

  function Attempts(ops: seq<Operation>): nat {
    if ops == [] then 0 else Attempts(ops[..|ops| - 1]) + if ops[|ops| - 1].Record? then 1 else 0
  }

  lemma {:induction false} NewerKeeps(rows: seq<UsageEvent>, cutoff: int, bound: int)
    requires Below(rows, bound)
    ensures Below(Newer(rows, cutoff), bound)
  {
    if rows != [] { NewerKeeps(rows[..|rows| - 1], cutoff, bound); }
  }

  lemma {:induction false} LastIdIsSequence(t: EventTable)
    requires t.sequence >= 0 && Below(t.rows, t.sequence + 1)
    ensures LastId(t) == t.sequence
  {
    MaxIdBounds(t.rows);
  }

  /**
   From a table whose rows lie below the next id, any mix of inserts and clean-ups hands out the next id and its
   successors, one after the other and without a gap, until the 64-bit ids are used up: exactly as many as were asked
   for and are left. No id is given twice, and none that a row has or had.
   */
  lemma {:induction false} IdsContinue(t: EventTable, ops: seq<Operation>)
    requires t.sequence >= 0 && Below(t.rows, t.sequence + 1)
    ensures var given, after := IdsGiven(t, ops), Run(t, ops);
            && (forall i :: 0 <= i < |given| ==> given[i] == t.sequence + 1 + i)
            && |given| == (if Attempts(ops) <= MAX_INT64 - t.sequence then Attempts(ops) else MAX_INT64 - t.sequence)
            && after.sequence == t.sequence + |given| && Below(after.rows, after.sequence + 1)
  {
    hide LastId, Newer;
    if ops != [] {
      var n := |ops| - 1;
      var before, op := Run(t, ops[..n]), ops[n];
      IdsContinue(t, ops[..n]);
      LastIdIsSequence(before);
      match op
      case Record(e) =>
      case Clean(cutoff) => NewerKeeps(before.rows, cutoff, before.sequence + 1);
    }
  }

  /**
   The whole migration: after a successful preparation and import, every run of inserts and clean-ups starts at the
   prepared next id, so no id is ever shared with a retained event.
   */
  lemma {:induction false} MigrationContinuesIds(source: seq<UsageEvent>, nextId: int64, previews: map<string, string>, now: int,
                                                 ops: seq<Operation>)
    requires PositiveIds(source) && DistinctIds(source) && MaxId(Retained(source, previews, now)) < MAX_INT64
    ensures var kept := Retained(source, previews, now);
            var events, next := SortById(kept), NextEventId(nextId, MaxId(kept));
            var given := IdsGiven(EventTable(events, next - 1), ops);
            && next >= nextId
            && (forall i :: 0 <= i < |given| ==> given[i] == next + i)
            && (forall i, k :: 0 <= i < |given| && 0 <= k < |events| ==> given[i] != events[k].id)
  {
    hide Retained, SortById, MaxId, IdsGiven, Run;
    var kept := Retained(source, previews, now);
    PreparationIsSound(source, nextId, previews, now);
    IdsContinue(EventTable(SortById(kept), NextEventId(nextId, MaxId(kept)) - 1), ops);
  }

  // ---------- ids of dropped events ----------

  function Inserts(e: UsageEvent, n: nat): seq<Operation> { if n == 0 then [] else Inserts(e, n - 1) + [Record(e)] }

  lemma {:induction false} InsertsAttempt(e: UsageEvent, n: nat)
    ensures Attempts(Inserts(e, n)) == n
  {
    if n > 0 {
      InsertsAttempt(e, n - 1);
      assert Inserts(e, n)[..|Inserts(e, n)| - 1] == Inserts(e, n - 1);
    }
  }

  const ANY_EVENT := UsageEvent(1, 0, "", "", "", true, 0, None, 0, 0, 0, 0)

  /** Some run hands out an id exactly when the id lies above the sequence. */
  lemma {:induction false} IdIsGivenIff(t: EventTable, id: int64)
    requires t.sequence >= 0 && Below(t.rows, t.sequence + 1)
    ensures (exists ops :: id in IdsGiven(t, ops)) <==> id > t.sequence
  {
    hide IdsGiven, Run, Attempts, Inserts;
    forall ops | id in IdsGiven(t, ops) ensures id > t.sequence { IdsContinue(t, ops); }
    if id > t.sequence {
      var n := id - t.sequence;
      var ops := Inserts(ANY_EVENT, n);
      InsertsAttempt(ANY_EVENT, n);
      IdsContinue(t, ops);
      assert IdsGiven(t, ops)[n - 1] == id;
    }
  }

  lemma {:induction false} RunsCompose(t: EventTable, a: seq<Operation>, b: seq<Operation>)
    ensures Run(t, a + b) == Run(Run(t, a), b)
    ensures IdsGiven(t, a + b) == IdsGiven(t, a) + IdsGiven(Run(t, a), b)
  {
    hide Apply, LastId, Insert;
    if b == [] {
      assert a + b == a;
    } else {
      var n := |b| - 1;
      RunsCompose(t, a, b[..n]);
      assert (a + b)[..|a + b| - 1] == a + b[..n] && (a + b)[|a + b| - 1] == b[n];
    }
  }

  /** A cutoff past all timestamps. */
  function PastAll(rows: seq<UsageEvent>): int {
    if rows == [] then 0
    else
      var rest, at := PastAll(rows[..|rows| - 1]), rows[|rows| - 1].timestamp;
      if at < rest then rest else at + 1
  }

  lemma {:induction false} PastAllClears(rows: seq<UsageEvent>, cutoff: int)
    requires PastAll(rows) <= cutoff
    ensures Newer(rows, cutoff) == []
  {
    if rows != [] { PastAllClears(rows[..|rows| - 1], cutoff); }
  }

  /** Once everything has been cleaned up, ids continue from the sequence alone. */
  lemma {:induction false} EmptiedTableGives(t: EventTable, id: int64)
    requires 0 <= t.sequence < id
    ensures exists ops :: id in IdsGiven(t, ops)
  {
    hide IdsGiven, Run, Inserts;
    var clean, cleared := [Clean(PastAll(t.rows))], t.(rows := []);
    PastAllClears(t.rows, PastAll(t.rows));
    CleanOnce(t, PastAll(t.rows));
    IdIsGivenIff(cleared, id);
    var ops :| id in IdsGiven(cleared, ops);
    RunsCompose(t, clean, ops);
    assert id in IdsGiven(t, clean + ops);
  }

  lemma {:induction false} CleanOnce(t: EventTable, cutoff: int)
    ensures Run(t, [Clean(cutoff)]) == Prune(t, cutoff) && IdsGiven(t, [Clean(cutoff)]) == []
  {
    assert [Clean(cutoff)][..0] == [];
    assert Run(t, []) == t && IdsGiven(t, []) == [];
  }

  /** No run after the migration hands out this id. */
  ghost predicate StaysUnused(t: EventTable, id: int64) { forall ops :: id !in IdsGiven(t, ops) }

  /** The legacy counter, or some retained id, exceeds the id. */
  predicate Covered(id: int64, nextId: int64, kept: seq<UsageEvent>) {
    id < nextId || exists i :: 0 <= i < |kept| && id < kept[i].id
  }

  lemma {:induction false} DroppedAreSources(source: seq<UsageEvent>, now: int, e: UsageEvent)
    ensures e in Dropped(source, now) <==> exists i :: 0 <= i < |source| && Expired(source[i], now) && source[i] == e
  {
    hide Expired;
    if source != [] {
      var n := |source| - 1;
      DroppedAreSources(source[..n], now, e);
      assert forall i :: 0 <= i < n ==> source[..n][i] == source[i];
    }
  }

  /** A dropped id is no retained id. */
  lemma {:induction false} DroppedIsNotRetained(source: seq<UsageEvent>, previews: map<string, string>, now: int, d: UsageEvent, k: UsageEvent)
    requires DistinctIds(source) && d in Dropped(source, now) && k in Retained(source, previews, now)
    ensures d.id != k.id
  {
    hide Expired, Migrated;
    DroppedAreSources(source, now, d);
    RetainedAreMigrated(source, previews, now, k);
    var i :| 0 <= i < |source| && Expired(source[i], now) && source[i] == d;
    var j :| 0 <= j < |source| && !Expired(source[j], now) && Migrated(source[j], previews, now) == k;
    MigrationKeepsId(source[j], previews, now);
  }

  /**
   Which dropped ids stay unused: for every source, the id of a dropped event is handed out by no run after the
   migration if and only if it lies below the prepared next id; that is, if and only if the legacy counter or some
   retained id exceeds it and the largest 64-bit id is not retained.
   */
  lemma {:induction false} DroppedIdStaysUnusedIff(source: seq<UsageEvent>, nextId: int64, previews: map<string, string>, now: int,
                                                   d: UsageEvent)
    requires PositiveIds(source) && DistinctIds(source) && d in Dropped(source, now)
    ensures var kept := Retained(source, previews, now);
            var next := NextEventId(nextId, MaxId(kept));
            && next >= 1
            && (StaysUnused(EventTable(SortById(kept), next - 1), d.id) <==> d.id < next)
            && (d.id < next <==> Covered(d.id, nextId, kept) && MaxId(kept) < MAX_INT64)
  {
    hide Retained, Dropped, SortById, MaxId, StaysUnused, Covered, NextEventId, Expired, Migrated;
    var kept := Retained(source, previews, now);
    var next := NextEventId(nextId, MaxId(kept));
    PreparationIsSound(source, nextId, previews, now);
    DroppedAreSources(source, now, d);
    MaxIdBounds(kept);
    if MaxId(kept) < MAX_INT64 {
      UnusedIff(EventTable(SortById(kept), next - 1), d.id);
      forall i | 0 <= i < |kept| ensures kept[i].id != d.id { DroppedIsNotRetained(source, previews, now, d, kept[i]); }
      CoveredIff(kept, nextId, d.id);
    } else {
      LargestWraps(nextId);
      NotUnused(EventTable(SortById(kept), next - 1), d.id);
    }
  }

  lemma {:induction false} LargestWraps(nextId: int64)
    ensures NextEventId(nextId, MAX_INT64) == 1
  {
  }

  lemma {:induction false} NotUnused(t: EventTable, id: int64)
    requires 0 <= t.sequence < id
    ensures !StaysUnused(t, id)
  {
    hide IdsGiven;
    EmptiedTableGives(t, id);
    var ops :| id in IdsGiven(t, ops);
    assert !(id !in IdsGiven(t, ops));
  }

  lemma {:induction false} UnusedIff(t: EventTable, id: int64)
    requires t.sequence >= 0 && Below(t.rows, t.sequence + 1)
    ensures StaysUnused(t, id) <==> id <= t.sequence
  {
    hide IdsGiven;
    IdIsGivenIff(t, id);
    if id > t.sequence {
      var ops :| id in IdsGiven(t, ops);
      assert !StaysUnused(t, id);
    } else {
      forall ops ensures id !in IdsGiven(t, ops) {
      }
    }
  }

  lemma {:induction false} CoveredIff(kept: seq<UsageEvent>, nextId: int64, id: int64)
    requires id > 0 && MaxId(kept) < MAX_INT64 && forall i :: 0 <= i < |kept| ==> kept[i].id != id
    ensures id < NextEventId(nextId, MaxId(kept)) <==> Covered(id, nextId, kept)
  {
    hide MaxId;
    MaxIdBounds(kept);
    NextIdIs(nextId, MaxId(kept));
    if MaxId(kept) > 0 {
      var i :| 0 <= i < |kept| && kept[i].id == MaxId(kept);
      assert id < MaxId(kept) ==> id < kept[i].id;
    }
  }

  lemma {:induction false} NextIdIs(nextId: int64, maxId: int64)
    requires 0 <= maxId < MAX_INT64
    ensures NextEventId(nextId, maxId) == if nextId <= maxId then maxId + 1 else nextId
  {
  }

  /** Over all dropped events: none of their ids is ever given again exactly when each lies below the next id. */
  lemma {:induction false} DroppedIdsStayUnusedIff(source: seq<UsageEvent>, nextId: int64, previews: map<string, string>, now: int)
    requires PositiveIds(source) && DistinctIds(source)
    ensures var kept, dropped := Retained(source, previews, now), Dropped(source, now);
            var next := NextEventId(nextId, MaxId(kept));
            && next >= 1
            && ((forall i :: 0 <= i < |dropped| ==> StaysUnused(EventTable(SortById(kept), next - 1), dropped[i].id))
                <==> Below(dropped, next))
            && (dropped != [] ==>
                  (Below(dropped, next)
                   <==> MaxId(kept) < MAX_INT64 && forall i :: 0 <= i < |dropped| ==> Covered(dropped[i].id, nextId, kept)))
  {
    hide Retained, Dropped, SortById, MaxId, StaysUnused, Covered, NextEventId;
    var kept, dropped := Retained(source, previews, now), Dropped(source, now);
    var next := NextEventId(nextId, MaxId(kept));
    PreparationIsSound(source, nextId, previews, now);
    forall i | 0 <= i < |dropped|
      ensures && (StaysUnused(EventTable(SortById(kept), next - 1), dropped[i].id) <==> dropped[i].id < next)
              && (dropped[i].id < next <==> Covered(dropped[i].id, nextId, kept) && MaxId(kept) < MAX_INT64)
    {
      DroppedIdStaysUnusedIff(source, nextId, previews, now, dropped[i]);
    }
  }

  /** An input on which a dropped id is given again: no legacy counter, and an expired event alone. */
  lemma {:induction false} DroppedIdIsGivenAgain(e: UsageEvent, now: int)
    requires e.id == 1 && 0 != e.timestamp < now - W.RETENTION
    ensures PositiveIds([e]) && DistinctIds([e])
    ensures Retained([e], map[], now) == [] && Dropped([e], now) == [e]
    ensures NextEventId(0, MaxId(Retained([e], map[], now))) == 1
    ensures IdsGiven(EventTable([], 0), [Record(e)]) == [e.id]
  {
  }

  /**
   With the largest id retained the next one wraps around to 1: no insert succeeds while that row is there, and the ids
   start over at 1 once it has been cleaned up.
   */
  lemma {:induction false} LargestIdBlocksInserts(e: UsageEvent, nextId: int64, x: UsageEvent, cutoff: int)
    requires e.timestamp < cutoff
    ensures var last := e.(id := MAX_INT64);
            && NextEventId(nextId, MaxId([last])) == 1
            && Insert(EventTable([last], 0), x).None?
            && IdsGiven(Prune(EventTable([last], 0), cutoff), [Record(x)]) == [1]
  {
    var last := e.(id := MAX_INT64);
    assert [last][..0] == [];
    assert Newer([last], cutoff) == [];
  }
}
