/**
 The store's key and plan configuration (internal/policy/store.go, internal/policy/store_subscription_plans.go):
 key records shared between the id map and the hash index, and the configuration tables of the state file.
 The operations run one at a time, under `updateMu`.
 */
module PolicyStore {
  import opened Wrappers
  import opened Strings
  import opened PolicyConfig
  import opened PlanBindings
  import opened KeyPreviews
  import opened StoredTimes
  import RateLimiting
  import UsageLedgers

  datatype StoreError = Invalid(reason: ConfigError) | Refused | UnknownKey | NotSaved | IdRequired

  /** A key configuration that is changed in place; the id map and the hash index share it. */
  class KeyRecord {
    var row: KeyConfig

    constructor (row: KeyConfig)
      ensures this.row == row
    {
      this.row := row;
    }
  }

  /** What a request event shows of its key. */
  datatype EventKey = EventKey(keyId: string, preview: string)

  /** The events of a key, ignoring case, that have no preview yet get one. */
  function Backfilled(events: seq<EventKey>, id: string, preview: string): seq<EventKey> {
    if events == [] then []
    else
      var e := events[|events| - 1];
      Backfilled(events[..|events| - 1], id, preview)
      + [if EqualFold(e.keyId, id) && e.preview == "" then e.(preview := preview) else e]
  }

  /** A backfill changes nothing but missing previews of that key, and fills them all with the given one. */
  lemma {:induction false} BackfillIsExact(events: seq<EventKey>, id: string, preview: string, i: nat)
    requires i < |events|
    ensures var after := Backfilled(events, id, preview);
            && |after| == |events| && after[i].keyId == events[i].keyId
            && (after[i].preview != events[i].preview ==> EqualFold(events[i].keyId, id) && events[i].preview == "")
            && (EqualFold(events[i].keyId, id) && events[i].preview == "" ==> after[i].preview == preview)
  {
    hide EqualFold;
    BackfillLength(events, id, preview);
    if i < |events| - 1 { BackfillIsExact(events[..|events| - 1], id, preview, i); }
    BackfillLength(events[..|events| - 1], id, preview);
  }

  lemma {:induction false} BackfillLength(events: seq<EventKey>, id: string, preview: string)
    ensures |Backfilled(events, id, preview)| == |events|
  {
    if events != [] { BackfillLength(events[..|events| - 1], id, preview); }
  }

  /** What is read back of a key that was written: alias references and the expiry of a plan have no column. */
  function StoredKey(key: KeyConfig): KeyConfig {
    key.(createdAt := StoredTime(key.createdAt), updatedAt := StoredTime(key.updatedAt), expiresAt := 0, aliases := [])
  }

  function StoredPlan(plan: SubscriptionPlan): SubscriptionPlan {
    plan.(expiresAt := StoredTime(plan.expiresAt), createdAt := StoredTime(plan.createdAt), updatedAt := StoredTime(plan.updatedAt))
  }

  function StoredKeys(table: Keys): Keys { map id | id in table :: StoredKey(table[id]) }

  function StoredPlans(table: Plans): Plans { map id | id in table :: StoredPlan(table[id]) }

  /** The file's rows after a preview was written to one of them. */
  function PreviewStored(keys: Keys, id: string, preview: string, now: int): Keys
    requires id in keys
  {
    keys[id := keys[id].(keyPreview := preview, updatedAt := StoredTime(now))]
  }

  /** The key and plan tables, as they are read, and the request events of an open or closed state file. */
  class StateFile {
    var open: bool
    var keys: Keys
    var plans: Plans
    var events: seq<EventKey>

    /**
     `updateKeyPreview`: one transaction fills in the preview of one row, if the row is still the same key without one,
     and the missing previews of that key's events.
     */
    method UpdateKeyPreview(id: string, hash: string, preview: string, now: int, commits: bool) returns (changed: bool)
      modifies this
      ensures open == old(open) && plans == old(plans)
      ensures changed <==> && open && commits && id in old(keys)
                           && old(keys)[id].keyHash == hash && Trim(old(keys)[id].keyPreview) == ""
      ensures keys == if changed then PreviewStored(old(keys), id, preview, now) else old(keys)
      ensures events == if changed then Backfilled(old(events), id, MaskKeyPreview(preview)) else old(events)
    {
      changed := open && commits && id in keys && keys[id].keyHash == hash && Trim(keys[id].keyPreview) == "";
      if changed {
        keys := keys[id := keys[id].(keyPreview := preview, updatedAt := StoredTime(now))];
        events := Backfilled(events, id, MaskKeyPreview(preview));
      }
    }

    /** `saveStateWithPlans`: both tables are emptied and refilled with the stored form of the rows in one transaction. */
    method Save(rows: seq<KeyConfig>, planRows: seq<SubscriptionPlan>, commits: bool) returns (ok: bool)
      requires Distinct(rows) && DistinctPlans(planRows)
      modifies this`keys, this`plans
      ensures ok == (open && commits)
      ensures ok ==> Holds(keys, rows) && HoldsPlans(plans, planRows)
      ensures !ok ==> keys == old(keys) && plans == old(plans)
    {
      hide Holds, HoldsPlans, Distinct, DistinctPlans, StoredKey, StoredPlan;
      if !open || !commits { return false; }
      keys, plans := map[], map[];
      HoldsNothing(rows, planRows);
      for i := 0 to |rows|
        invariant Holds(keys, rows[..i]) && plans == map[] && open
      {
        HoldsOneMore(keys, rows, i);
        keys := keys[rows[i].id := StoredKey(rows[i])];
      }
      for i := 0 to |planRows|
        invariant HoldsPlans(plans, planRows[..i]) && Holds(keys, rows[..|rows|]) && open
      {
        HoldsOneMorePlan(plans, planRows, i);
        plans := plans[planRows[i].id := StoredPlan(planRows[i])];
      }
      assert rows[..|rows|] == rows && planRows[..|planRows|] == planRows;
      return true;
    }

    /** Saves the rows of a key table and the plans in id order. */
    method SaveTables(rows: seq<KeyConfig>, nextPlans: Plans, ghost table: Keys, commits: bool) returns (ok: bool)
      requires IsTable(table, rows) && Distinct(rows) && forall id :: id in nextPlans ==> nextPlans[id].id == id
      modifies this`keys, this`plans
      ensures ok == (open && commits)
      ensures ok ==> keys == StoredKeys(table) && plans == StoredPlans(nextPlans)
      ensures !ok ==> keys == old(keys) && plans == old(plans)
    {
      hide Holds, HoldsPlans, IsTable, IsPlanTable, Distinct, DistinctPlans, StoredKeys, StoredPlans;
      var planRows := PlansInOrder(nextPlans);
      ok := Save(rows, planRows, commits);
      if ok {
        HeldIsStored(keys, table, rows);
        HeldPlansAreStored(plans, nextPlans, planRows);
      }
    }
  }

  /** The table that is read back after exactly these rows were written. */
  ghost predicate Holds(table: Keys, rows: seq<KeyConfig>) {
    && (forall id :: id in table ==> exists r :: r in rows && r.id == id)
    && (forall r :: r in rows ==> r.id in table && table[r.id] == StoredKey(r))
  }

  ghost predicate HoldsPlans(table: Plans, rows: seq<SubscriptionPlan>) {
    && (forall id :: id in table ==> exists r :: r in rows && r.id == id)
    && (forall r :: r in rows ==> r.id in table && table[r.id] == StoredPlan(r))
  }

  lemma {:induction false} HoldsNothing(rows: seq<KeyConfig>, planRows: seq<SubscriptionPlan>)
    ensures Holds(map[], rows[..0]) && HoldsPlans(map[], planRows[..0])
  {
  }

  lemma {:induction false} HoldsOneMore(table: Keys, rows: seq<KeyConfig>, i: nat)
    requires i < |rows| && Distinct(rows) && Holds(table, rows[..i])
    ensures Holds(table[rows[i].id := StoredKey(rows[i])], rows[..i + 1])
  {
    hide StoredKey;
    assert rows[..i + 1] == rows[..i] + [rows[i]];
  }

  lemma {:induction false} HoldsOneMorePlan(table: Plans, rows: seq<SubscriptionPlan>, i: nat)
    requires i < |rows| && DistinctPlans(rows) && HoldsPlans(table, rows[..i])
    ensures HoldsPlans(table[rows[i].id := StoredPlan(rows[i])], rows[..i + 1])
  {
    hide StoredPlan;
    assert rows[..i + 1] == rows[..i] + [rows[i]];
  }

  lemma {:induction false} HeldIsStored(file: Keys, table: Keys, rows: seq<KeyConfig>)
    requires Holds(file, rows) && IsTable(table, rows)
    ensures file == StoredKeys(table)
  {
    hide StoredTime;
    forall id | id in table ensures id in file && file[id] == StoredKey(table[id]) {
      assert table[id] in rows;
    }
  }

  lemma {:induction false} HeldPlansAreStored(file: Plans, table: Plans, rows: seq<SubscriptionPlan>)
    requires HoldsPlans(file, rows) && IsPlanTable(table, rows)
    ensures file == StoredPlans(table)
  {
    hide StoredTime;
    forall id | id in table ensures id in file && file[id] == StoredPlan(table[id]) {
      assert table[id] in rows;
    }
  }

  ghost predicate IsTable(table: Keys, rows: seq<KeyConfig>) {
    && (forall id :: id in table ==> table[id].id == id && table[id] in rows)
    && (forall r :: r in rows ==> r.id in table)
  }

  ghost predicate IsPlanTable(table: Plans, rows: seq<SubscriptionPlan>) {
    && (forall id :: id in table ==> table[id].id == id && table[id] in rows)
    && (forall r :: r in rows ==> r.id in table)
  }

  ghost predicate Distinct(rows: seq<KeyConfig>) {
    forall i, j :: 0 <= i < j < |rows| ==> rows[i].id != rows[j].id
  }

  ghost predicate DistinctPlans(rows: seq<SubscriptionPlan>) {
    forall i, j :: 0 <= i < j < |rows| ==> rows[i].id != rows[j].id
  }

  lemma {:induction false} TableIsUnique(a: Keys, b: Keys, rows: seq<KeyConfig>)
    requires IsTable(a, rows) && IsTable(b, rows) && Distinct(rows)
    ensures a == b
  {
  }

  lemma {:induction false} PlanTableIsUnique(a: Plans, b: Plans, rows: seq<SubscriptionPlan>)
    requires IsPlanTable(a, rows) && IsPlanTable(b, rows) && DistinctPlans(rows)
    ensures a == b
  {
  }

  // ---------- the hash index ----------

  function NormalHash(key: KeyConfig): string { Fold(Trim(key.keyHash)) }

  /** `id` is the first key, in id order, with this hash. */
  predicate Owns(rows: Keys, hash: string, id: string) {
    && id in rows && NormalHash(rows[id]) == hash
    && forall other :: other in rows && NormalHash(rows[other]) == hash ==> !Less(other, id)
  }

  /** Alias references and the expiry of an effective copy are not part of a stored key. */
  predicate Stored(row: KeyConfig) { row.aliases == [] && row.expiresAt == 0 }

  /** Position `k` holds the first of the ids with this hash. */
  predicate FirstAmong(ids: seq<string>, rows: Keys, hash: string, k: nat) {
    && k < |ids| && ids[k] in rows && NormalHash(rows[ids[k]]) == hash
    && forall j :: 0 <= j < k && ids[j] in rows ==> NormalHash(rows[ids[j]]) != hash
  }

  lemma {:induction false} FirstOwns(ids: seq<string>, rows: Keys, hash: string, k: nat)
    requires Ascending(ids) && (forall id :: id in ids <==> id in rows.Keys) && FirstAmong(ids, rows, hash, k)
    ensures Owns(rows, hash, ids[k])
  {
    forall other | other in rows && NormalHash(rows[other]) == hash ensures !Less(other, ids[k]) {
      assert other in ids;
      var j :| 0 <= j < |ids| && ids[j] == other;
      LessIsStrict(ids[k], other);
    }
  }

  /** The index maps each non-empty hash to the record a scan in id order would find first. */
  ghost predicate IndexOf(byHash: map<string, KeyRecord>, keys: map<string, KeyRecord>, rows: Keys)
    requires rows.Keys == keys.Keys
  {
    && (forall h :: h in byHash ==> h != "" && exists id :: Owns(rows, h, id) && byHash[h] == keys[id])
    && (forall id :: id in rows && NormalHash(rows[id]) != "" ==> NormalHash(rows[id]) in byHash)
  }

  /** The index of the first `n` ids. */
  ghost predicate IndexedUpTo(byHash: map<string, KeyRecord>, keys: map<string, KeyRecord>, rows: Keys, ids: seq<string>, n: nat)
    requires rows.Keys == keys.Keys && n <= |ids| && (forall id :: id in ids <==> id in rows.Keys)
  {
    && (forall h :: h in byHash ==> h != "" && exists k :: 0 <= k < n && FirstAmong(ids, rows, h, k) && byHash[h] == keys[ids[k]])
    && (forall k :: 0 <= k < n && NormalHash(rows[ids[k]]) != "" ==> NormalHash(rows[ids[k]]) in byHash)
  }

  lemma {:induction false} SameHashesSameIndex(byHash: map<string, KeyRecord>, keys: map<string, KeyRecord>, rows: Keys, rows': Keys)
    requires rows.Keys == keys.Keys == rows'.Keys && IndexOf(byHash, keys, rows)
    requires forall id :: id in rows ==> NormalHash(rows'[id]) == NormalHash(rows[id])
    ensures IndexOf(byHash, keys, rows')
  {
  }

  lemma {:induction false} IndexStarts(keys: map<string, KeyRecord>, rows: Keys, ids: seq<string>)
    requires rows.Keys == keys.Keys && (forall id :: id in ids <==> id in rows.Keys)
    ensures IndexedUpTo(map[], keys, rows, ids, 0)
  {
  }

  lemma {:induction false} IndexNext(byHash: map<string, KeyRecord>, keys: map<string, KeyRecord>, rows: Keys, ids: seq<string>, i: nat)
    requires rows.Keys == keys.Keys && i < |ids| && (forall id :: id in ids <==> id in rows.Keys)
    requires IndexedUpTo(byHash, keys, rows, ids, i)
    ensures ids[i] in keys
    ensures var hash := NormalHash(rows[ids[i]]);
            IndexedUpTo(if hash != "" && hash !in byHash then byHash[hash := keys[ids[i]]] else byHash, keys, rows, ids, i + 1)
  {
    hide NormalHash;
    assert ids[i] in ids;
    var hash := NormalHash(rows[ids[i]]);
    if hash != "" && hash !in byHash { assert FirstAmong(ids, rows, hash, i); }
  }

  lemma {:induction false} PreviewKeepsHash(key: KeyConfig, preview: string, now: int)
    ensures NormalHash(key.(keyPreview := preview, updatedAt := now)) == NormalHash(key)
  {
  }

  lemma {:induction false} IndexComplete(byHash: map<string, KeyRecord>, keys: map<string, KeyRecord>, rows: Keys, ids: seq<string>)
    requires rows.Keys == keys.Keys && Ascending(ids) && (forall id :: id in ids <==> id in rows.Keys)
    requires IndexedUpTo(byHash, keys, rows, ids, |ids|)
    ensures IndexOf(byHash, keys, rows)
  {
    hide NormalHash;
    forall h | h in byHash ensures exists id :: Owns(rows, h, id) && byHash[h] == keys[id] {
      var k :| 0 <= k < |ids| && FirstAmong(ids, rows, h, k) && byHash[h] == keys[ids[k]];
      FirstOwns(ids, rows, h, k);
    }
    forall id | id in rows && NormalHash(rows[id]) != "" ensures NormalHash(rows[id]) in byHash {
      assert id in ids;
      var k :| 0 <= k < |ids| && ids[k] == id;
    }
  }

  class Store {
    var keys: map<string, KeyRecord>
    var keysByHash: map<string, KeyRecord>
    var plans: Plans
    var database: StateFile?
    var limiter: RateLimiting.RateLimiter?
    var usage: UsageLedgers.UsageLedger?

    ghost function Rows(): Keys
      reads this, keys.Values
    {
      map id | id in keys :: keys[id].row
    }

    ghost predicate Indexed()
      reads this, keys.Values
    {
      IndexOf(keysByHash, keys, Rows())
    }

    ghost predicate Named()
      reads this, keys.Values
    {
      && (forall id :: id in keys ==> keys[id].row.id == id && Stored(keys[id].row))
      && (forall id :: id in plans ==> plans[id].id == id)
    }

    ghost predicate Valid()
      reads this, keys.Values
    {
      Named() && Indexed()
    }

    /** The file holds the stored form of the configuration in memory. */
    ghost predicate Saved()
      reads this, keys.Values, database
    {
      database != null && database.keys == StoredKeys(Rows()) && database.plans == StoredPlans(plans)
    }

    constructor ()
      ensures Valid() && Rows() == map[] && plans == map[] && database == null && limiter == null && usage == null
    {
      keys, keysByHash, plans, database, limiter, usage := map[], map[], map[], null, null, null;
    }

    /** `rebuildKeysByHashLocked`: ids are visited in order and the first key of a hash keeps it. */
    method RebuildKeysByHash()
      modifies this`keysByHash
      ensures Indexed()
    {
      hide NormalHash, IndexOf, IndexedUpTo;
      var ids := SortNames(keys.Keys);
      ghost var rows := Rows();
      var byHash: map<string, KeyRecord> := map[];
      IndexStarts(keys, rows, ids);
      for i := 0 to |ids|
        invariant IndexedUpTo(byHash, keys, rows, ids, i)
      {
        IndexNext(byHash, keys, rows, ids, i);
        var hash := NormalHash(keys[ids[i]].row);
        if hash != "" && hash !in byHash { byHash := byHash[hash := keys[ids[i]]]; }
      }
      IndexComplete(byHash, keys, rows, ids);
      keysByHash := byHash;
      assert Rows() == rows;
    }

    /** `keysSnapshotLocked`: copies of all key rows in id order. */
    method KeysSnapshot() returns (rows: seq<KeyConfig>)
      requires Named()
      ensures IsTable(Rows(), rows) && Distinct(rows) && forall r :: r in rows ==> Stored(r)
      ensures forall i, j :: 0 <= i < j < |rows| ==> Less(rows[i].id, rows[j].id)
    {
      var ids := SortNames(keys.Keys);
      rows := [];
      for i := 0 to |ids|
        invariant |rows| == i
        invariant forall k :: 0 <= k < i ==> ids[k] in keys && rows[k] == keys[ids[k]].row
      {
        assert ids[i] in keys.Keys;
        rows := rows + [keys[ids[i]].row];
      }
      forall i, j | 0 <= i < j < |rows| ensures Less(rows[i].id, rows[j].id) && rows[i].id != rows[j].id {
        LessIsStrict(rows[i].id, rows[j].id);
      }
      forall id | id in keys ensures keys[id].row in rows {
        assert id in ids;
        var k :| 0 <= k < |ids| && ids[k] == id;
        assert rows[k] == keys[id].row;
      }
    }

    /** `replaceConfigurationState`: fresh records replace the old ones and the index is rebuilt. */
    method Replace(rows: seq<KeyConfig>, nextPlans: Plans, ghost table: Keys)
      requires IsTable(table, rows) && Distinct(rows) && (forall r :: r in rows ==> Stored(r))
      requires forall id :: id in nextPlans ==> nextPlans[id].id == id
      modifies this`keys, this`keysByHash, this`plans
      ensures Valid() && Rows() == table && plans == nextPlans
    {
      hide IndexOf, Distinct, NormalHash, Store.Indexed;
      var nextKeys := NewRecords(rows);
      keys, plans := nextKeys, nextPlans;
      TableIsUnique(Rows(), table, rows);
      RebuildKeysByHash();
    }

    /** The store and the file before and after an operation that is refused. */
    twostate predicate Untouched()
      reads this, keys.Values, database
    {
      && keys == old(keys) && keysByHash == old(keysByHash) && plans == old(plans) && database == old(database)
      && Rows() == old(Rows())
      && (database != null ==> database.keys == old(database.keys) && database.plans == old(database.plans))
    }

    /** Configuration writes leave the request events alone. */
    twostate predicate EventsKept()
      reads this, database
    {
      database == old(database) && (database != null ==> database.events == old(database.events) && database.open == old(database.open))
    }

    ghost predicate CanSave(commits: bool)
      reads this, database
    {
      database != null && database.open && commits
    }

    /** Saves the next configuration and, only if that worked, makes it the current one. */
    method SaveThenReplace(rows: seq<KeyConfig>, nextPlans: Plans, ghost table: Keys, commits: bool) returns (ok: bool)
      requires Valid() && IsTable(table, rows) && Distinct(rows) && (forall r :: r in rows ==> Stored(r))
      requires forall id :: id in nextPlans ==> nextPlans[id].id == id
      modifies this`keys, this`keysByHash, this`plans, database
      ensures Valid() && ok == old(CanSave(commits))
      ensures EventsKept()
      ensures ok ==> Current() == Policy(table, nextPlans) && Saved()
      ensures !ok ==> Untouched()
    {
      hide IndexOf;
      if database == null { return false; }
      ok := database.SaveTables(rows, nextPlans, table, commits);
      if ok { Replace(rows, nextPlans, table); }
    }

    function Current(): Policy
      reads this, keys.Values
    {
      Policy(map id | id in keys :: keys[id].row, plans)
    }

    /**
     `UpsertSubscriptionPlan`: accepted exactly when the plan normalizes, exists or not as `create` says, and
     every submitted key is free for it; then saved, then published.
     */
    method UpsertSubscriptionPlan(input: SubscriptionPlan, boundIds: Option<seq<string>>, create: bool, now: int, commits: bool)
      returns (result: Result<SubscriptionPlan, StoreError>)
      requires Valid()
      modifies this`keys, this`keysByHash, this`plans, database
      ensures Valid()
      ensures EventsKept()
      ensures result.Ok? <==>
                NormalizePlan(input).Ok? && old(CanSave(commits)) && MayPut(old(Current()), Trim(input.id), boundIds, create)
      ensures result.Ok? ==>
                && result.value == Stamped(NormalizePlan(input).value, old(plans), now)
                && Accepted(old(Current()), PutPlan(result.value, Submitted(boundIds), create))
                && Current() == Perform(old(Current()), PutPlan(result.value, Submitted(boundIds), create), now)
                && Saved()
                && (boundIds.Some? ==> BoundExactly(Current().keys, result.value.id, boundIds.value))
      ensures result.Err? ==> Untouched()
    {
      hide IndexOf, NormalizePlan, Submitted, Accepted, Perform, BoundExactly, MayPut, Trim;
      var normalized := NormalizeOnePlan(input);
      if normalized.Err? { return Err(Invalid(normalized.error)); }
      var plan := Stamped(normalized.value, plans, now);
      PlanIsKept(input);
      PutIsAcceptedIff(Current(), plan, boundIds, create);
      var error := PutPlanAndBindings(plan, boundIds, create, now, commits);
      if error.Some? { return Err(error.value); }
      if boundIds.Some? { SubmittedAreBound(old(Current()), plan, boundIds.value, create, now); }
      return Ok(plan);
    }

    method PutPlanAndBindings(plan: SubscriptionPlan, boundIds: Option<seq<string>>, create: bool, now: int, commits: bool)
      returns (error: Option<StoreError>)
      requires Valid() && plan.id != ""
      modifies this`keys, this`keysByHash, this`plans, database
      ensures Valid()
      ensures EventsKept()
      ensures error.None? <==> old(CanSave(commits)) && Accepted(old(Current()), PutPlan(plan, Submitted(boundIds), create))
      ensures error.None? ==>
                Saved() && Accepted(old(Current()), PutPlan(plan, Submitted(boundIds), create))
                && Current() == Perform(old(Current()), PutPlan(plan, Submitted(boundIds), create), now)
      ensures error.Some? ==> Untouched()
    {
      hide IndexOf, Submitted, Free, Bound, IsTable, Distinct, Stored, Accepted, Perform;
      PutMeans(Current(), plan, Submitted(boundIds), create, now);
      if create == (plan.id in plans) { return Some(Refused); }
      var rows := KeysSnapshot();
      ghost var table := Rows();
      var free, bound := BindSubmitted(rows, plan.id, boundIds, now, table);
      if !free { return Some(Refused); }
      var saved := SaveThenReplace(bound, plans[plan.id := plan], Bound(table, plan.id, Submitted(boundIds), now), commits);
      return if saved then None else Some(NotSaved);
    }

    /** Saves and publishes one changed key. */
    method SaveKey(key: KeyConfig, commits: bool) returns (ok: bool)
      requires Valid() && key.id in keys && Stored(key)
      modifies this`keys, this`keysByHash, this`plans, database
      ensures Valid() && ok == old(CanSave(commits))
      ensures EventsKept()
      ensures ok ==> Current() == old(Policy(Rows()[key.id := key], plans)) && Saved()
      ensures !ok ==> Untouched()
    {
      hide IndexOf, Stored, IsTable, Distinct, StoredKeys, StoredPlans, Store.Indexed, Store.CanSave, Store.Saved;
      var rows := KeysSnapshot();
      ghost var table := Rows();
      rows := ReplaceRow(rows, key, table);
      ok := SaveThenReplace(rows, plans, table[key.id := key], commits);
    }

    /** `SetKeySubscriptionPlan`: binds a key to a known plan, or unbinds it; an unchanged binding is not saved again. */
    method SetKeySubscriptionPlan(keyId: string, planId: string, now: int, commits: bool) returns (result: Result<KeyConfig, StoreError>)
      requires Valid()
      modifies this`keys, this`keysByHash, this`plans, database
      ensures Valid()
      ensures EventsKept()
      ensures var op := SetBinding(Trim(keyId), Trim(planId));
              && (result.Ok? <==>
                    && Trim(keyId) != "" && Accepted(old(Current()), op)
                    && (Perform(old(Current()), op, now) == old(Current()) || old(CanSave(commits))))
              && (result.Ok? <==>
                    && Trim(keyId) != "" && Trim(keyId) in old(keys) && (Trim(planId) == "" || Trim(planId) in old(plans))
                    && (old(Rows())[Trim(keyId)].planId == Trim(planId) || old(CanSave(commits))))
              && (result.Ok? ==>
                    && Current() == Perform(old(Current()), op, now)
                    && AnswersFor(result.value, Current().keys[Trim(keyId)], plans)
                    && (Current() != old(Current()) ==> Saved()))
      ensures result.Err? ==> Untouched()
    {
      hide IndexOf, Trim, Effective, AnswersFor, Stored, IsTable, Distinct;
      var id, plan := Trim(keyId), Trim(planId);
      if id == "" { return Err(IdRequired); }
      if plan != "" && plan !in plans { return Err(Refused); }
      if id !in keys { return Err(UnknownKey); }
      var key := keys[id].row;
      if key.planId != plan {
        StoredBinding(key, plan, now);
        key := key.(planId := plan, updatedAt := now);
        var saved := SaveKey(key, commits);
        if !saved { return Err(NotSaved); }
      }
      EffectiveAnswers(Effective(key, plans), key, plans);
      return Ok(Effective(key, plans));
    }

    /** `DeleteSubscriptionPlan`: the plan goes, its keys are unbound, and their number is returned. */
    method DeleteSubscriptionPlan(id: string, now: int, commits: bool) returns (result: Result<nat, StoreError>)
      requires Valid()
      modifies this`keys, this`keysByHash, this`plans, database
      ensures Valid()
      ensures EventsKept()
      ensures result.Ok? <==> Accepted(old(Current()), DropPlan(Trim(id))) && old(CanSave(commits))
      ensures result.Ok? <==> Trim(id) != "" && Trim(id) in old(plans) && old(CanSave(commits))
      ensures result.Ok? ==>
                && Current() == Perform(old(Current()), DropPlan(Trim(id)), now) && Saved()
                && result.value == |BoundTo(old(Current()).keys, Trim(id))|
      ensures result.Err? ==> Untouched()
    {
      hide IndexOf, Trim, Stored, IsTable, Distinct, UnbindAll, BoundTo;
      var plan := Trim(id);
      if plan == "" { return Err(IdRequired); }
      if plan !in plans { return Err(Refused); }
      var rows := KeysSnapshot();
      ghost var table := Rows();
      var unbound, freed := UnbindRows(rows, plan, now, table);
      var saved := SaveThenReplace(freed, plans - {plan}, UnbindAll(table, plan, now), commits);
      if !saved { return Err(NotSaved); }
      return Ok(unbound);
    }

    // ---------- keys ----------

    /** `findBySecret`, from the hash of the presented secret on: what a scan of all keys in id order would find. */
    method FindByHash(hash: string) returns (found: Option<KeyConfig>)
      requires Valid()
      ensures var h := Fold(Trim(hash));
              match found
              case None => h == "" || forall id :: id in keys ==> Fold(Trim(keys[id].row.keyHash)) != h
              case Some(k) =>
                h != "" && exists id :: Owns(Rows(), h, id) && Fold(Trim(keys[id].row.keyHash)) == h
                                        && AnswersFor(k, keys[id].row, plans)
    {
      var h := Fold(Trim(hash));
      hide Fold, Trim, Effective, AnswersFor;
      if h in keysByHash {
        ghost var id :| Owns(Rows(), h, id) && keysByHash[h] == keys[id];
        found := Some(Effective(keysByHash[h].row, plans));
        EffectiveAnswers(found.value, keys[id].row, plans);
      } else {
        found := None;
        assert forall id :: id in Rows() && NormalHash(Rows()[id]) != "" ==> NormalHash(Rows()[id]) in keysByHash;
        assert forall id :: id in keys ==> Rows()[id] == keys[id].row;
      }
    }

    /** `UpsertKey`: published first, then saved; a failed save is reported but not undone. */
    method UpsertKey(input: KeyConfig, persist: bool, now: int, commits: bool) returns (result: Result<(), StoreError>)
      requires Valid()
      modifies this`keys, this`keysByHash, database
      ensures Valid() && plans == old(plans)
      ensures EventsKept()
      ensures match Upserted(old(Rows()), input, now)
              case Err(e) => result == Err(Invalid(e)) && Untouched()
              case Ok(rows) =>
                && Rows() == rows && (result.Ok? <==> !persist || old(CanSave(commits)))
                && (persist && result.Ok? ==> Saved())
      ensures (!persist || result.Err?) && database != null ==>
                database.keys == old(database.keys) && database.plans == old(database.plans)
    {
      hide IndexOf, NormalizeKey, IsTable, Distinct, StoredKeys, StoredPlans, NormalHash;
      var normalized := NormalizeOneKey(input);
      if normalized.Err? { return Err(Invalid(normalized.error)); }
      var id := normalized.value.id;
      var key := Timed(normalized.value, if id in keys then keys[id].row.createdAt else 0, now);
      PublishKey(key);
      if persist {
        var saved := SaveCurrent(commits);
        if !saved { return Err(NotSaved); }
      }
      return Ok(());
    }

    /**
     `DeleteKey`: the key goes from memory, with its limiter bucket and its usage; the save may still fail.
     */
    method DeleteKey(id: string, commits: bool) returns (result: Result<(), StoreError>)
      requires Valid()
      modifies this`keys, this`keysByHash, database, limiter, usage
      ensures Valid() && plans == old(plans)
      ensures EventsKept()
      ensures Trim(id) == "" || Trim(id) !in old(keys) ==> result.Err? && Untouched() && Forgotten({})
      ensures Trim(id) != "" && Trim(id) in old(keys) ==>
                && keys == old(keys) - {Trim(id)} && Rows() == old(Rows()) - {Trim(id)} && Forgotten({Trim(id)})
                && (result.Ok? <==> old(CanSave(commits))) && (result.Ok? ==> Saved())
    {
      hide IndexOf, Trim, Store.Indexed;
      var target := Trim(id);
      if target == "" { return Err(IdRequired); }
      if target !in keys { return Err(UnknownKey); }
      var saved := DeleteKnown(target, commits);
      return if saved then Ok(()) else Err(NotSaved);
    }

    method DeleteKnown(id: string, commits: bool) returns (saved: bool)
      requires Valid()
      modifies this`keys, this`keysByHash, database, limiter, usage
      ensures Valid() && EventsKept() && Forgotten({id})
      ensures keys == old(keys) - {id} && Rows() == old(Rows()) - {id}
      ensures saved == old(CanSave(commits)) && (saved ==> Saved())
    {
      hide IndexOf, Store.Indexed;
      RemoveKey(id);
      saved := ForgetAndSave(id, commits);
    }

    method ForgetAndSave(id: string, commits: bool) returns (saved: bool)
      requires Named()
      modifies database, limiter, usage
      ensures EventsKept() && Forgotten({id})
      ensures saved == old(CanSave(commits)) && (saved ==> Saved())
      ensures !saved && database != null ==> database.keys == old(database.keys) && database.plans == old(database.plans)
    {
      hide IndexOf;
      ResetLimiter(id);
      ResetUsage(id);
      saved := SaveCurrent(commits);
    }

    method RemoveKey(id: string)
      requires Valid()
      modifies this`keys, this`keysByHash
      ensures Valid() && keys == old(keys) - {id} && Rows() == old(Rows()) - {id}
    {
      hide IndexOf;
      keys := keys - {id};
      RebuildKeysByHash();
    }

    method ResetAndSave(id: string, commits: bool) returns (saved: bool)
      requires Named()
      modifies database, limiter
      ensures EventsKept() && (limiter != null ==> limiter.buckets == old(limiter.buckets) - {id})
      ensures saved == old(CanSave(commits)) && (saved ==> Saved())
    {
      hide IndexOf;
      ResetLimiter(id);
      saved := SaveCurrent(commits);
    }

    method ResetUsage(id: string)
      modifies usage
      ensures usage != null ==> usage.entries == old(usage.entries) - {id}
    {
      if usage != null { usage.ResetUsage(id); }
    }

    method ResetLimiter(id: string)
      modifies limiter
      ensures limiter != null ==> limiter.buckets == old(limiter.buckets) - {id}
    {
      if limiter != null { limiter.Reset(id); }
    }

    /** Limiter and ledger have lost exactly these ids. */
    twostate predicate Forgotten(ids: set<string>)
      reads this, limiter, usage
    {
      && limiter == old(limiter) && usage == old(usage)
      && (limiter != null ==> limiter.buckets == old(limiter.buckets) - ids)
      && (usage != null ==> usage.entries == old(usage.entries) - ids)
    }

    /** `RotateKey`: the record is changed in place and keeps its identity; the index follows the new hash. */
    method RotateKey(id: string, hash: string, preview: string, now: int, commits: bool) returns (result: Result<KeyConfig, StoreError>)
      requires Valid()
      modifies this`keysByHash, keys.Values, database, limiter
      ensures Valid() && plans == old(plans) && keys == old(keys)
      ensures EventsKept()
      ensures limiter != null ==>
                limiter.buckets == if Trim(id) != "" && Trim(id) in keys then old(limiter.buckets) - {Trim(id)} else old(limiter.buckets)
      ensures Trim(id) == "" || Trim(id) !in old(keys) ==> result.Err? && Untouched()
      ensures Trim(id) != "" && Trim(id) in old(keys) ==>
                var rotated := old(Rows())[Trim(id)].(keyHash := hash, keyPreview := preview, updatedAt := now);
                && Rows() == old(Rows())[Trim(id) := rotated]
                && (result == if old(CanSave(commits)) then Ok(rotated) else Err(NotSaved))
                && (result.Ok? ==> Saved())
    {
      hide IndexOf, Trim, Store.Indexed, NormalHash, IsTable, Distinct;
      var target := Trim(id);
      if target == "" { return Err(IdRequired); }
      if target !in keys { return Err(UnknownKey); }
      var rotated := keys[target].row.(keyHash := hash, keyPreview := preview, updatedAt := now);
      var saved := RotateKnown(rotated, commits);
      return if saved then Ok(rotated) else Err(NotSaved);
    }

    method RotateKnown(row: KeyConfig, commits: bool) returns (saved: bool)
      requires Valid() && row.id in keys && Stored(row)
      modifies this`keysByHash, keys[row.id], database, limiter
      ensures Valid() && Rows() == old(Rows())[row.id := row]
      ensures EventsKept() && (limiter != null ==> limiter.buckets == old(limiter.buckets) - {row.id})
      ensures saved == old(CanSave(commits)) && (saved ==> Saved())
    {
      hide IndexOf, Store.Indexed, Stored;
      ChangeAndReindex(row);
      saved := ResetAndSave(row.id, commits);
    }

    /** A fresh record takes the id; the index is rebuilt. */
    method PublishKey(key: KeyConfig)
      requires Valid() && Stored(key)
      modifies this`keys, this`keysByHash
      ensures Valid() && Rows() == old(Rows())[key.id := key]
    {
      hide IndexOf;
      var record := new KeyRecord(key);
      keys := keys[key.id := record];
      RebuildKeysByHash();
    }

    /** The record of a key changes under both maps. */
    method ChangeInPlace(row: KeyConfig)
      requires Named() && row.id in keys && Stored(row)
      modifies keys[row.id]
      ensures Named() && Rows() == old(Rows())[row.id := row]
    {
      keys[row.id].row := row;
    }

    method ChangeAndReindex(row: KeyConfig)
      requires Valid() && row.id in keys && Stored(row)
      modifies this`keysByHash, keys[row.id]
      ensures Valid() && Rows() == old(Rows())[row.id := row]
    {
      hide IndexOf;
      ChangeInPlace(row);
      RebuildKeysByHash();
    }

    /**
     `learnKeyPreview`: a missing preview is saved first and then written into the shared record; the index
     does not need rebuilding because the hash stays. Row and record are each stamped by a clock reading of their own.
     */
    method LearnKeyPreview(key: KeyConfig, preview: string, savedAt: int, now: int, commits: bool) returns (result: KeyConfig)
      requires Valid()
      modifies keys.Values, database
      ensures Valid() && keys == old(keys) && keysByHash == old(keysByHash) && plans == old(plans)
      ensures var learns := && Trim(key.keyPreview) == "" && Trim(preview) != "" && key.id in old(keys)
                            && NormalHash(old(Rows())[key.id]) == NormalHash(key)
                            && Trim(old(Rows())[key.id].keyPreview) == ""
                            && old(CanSave(commits)) && old(FilePreviewMissing(key));
              && Rows() == (if learns then old(Rows())[key.id := old(Rows())[key.id].(keyPreview := preview, updatedAt := now)]
                            else old(Rows()))
              && (database != null ==>
                    database.plans == old(database.plans)
                    && database.keys == (if learns then PreviewStored(old(database.keys), key.id, preview, savedAt) else old(database.keys))
                    && database.events == if learns then Backfilled(old(database.events), key.id, MaskKeyPreview(preview))
                                          else old(database.events))
      ensures result == key || (key.id in keys && AnswersFor(result, keys[key.id].row, plans))
    {
      hide IndexOf, Trim, NormalHash, Effective, AnswersFor, MaskKeyPreview, Backfilled;
      result := key;
      if Trim(key.keyPreview) != "" || Trim(preview) == "" || key.id !in keys { return; }
      var current := keys[key.id].row;
      if NormalHash(current) != NormalHash(key) { return; }
      EffectiveAnswers(Effective(current, plans), current, plans);
      if Trim(current.keyPreview) != "" { return Effective(current, plans); }
      if database == null { return; }
      var changed := database.UpdateKeyPreview(key.id, key.keyHash, preview, savedAt, commits);
      if !changed { return; }
      ghost var before := Rows();
      var learned := current.(keyPreview := preview, updatedAt := now);
      ChangeInPlace(learned);
      PreviewKeepsHash(current, preview, now);
      SameHashesSameIndex(keysByHash, keys, before, Rows());
      EffectiveAnswers(Effective(learned, plans), learned, plans);
      return Effective(learned, plans);
    }

    /** The file's row of this key and hash has no preview yet. */
    ghost predicate FilePreviewMissing(key: KeyConfig)
      reads this, database
    {
      database != null && key.id in database.keys && database.keys[key.id].keyHash == key.keyHash
      && Trim(database.keys[key.id].keyPreview) == ""
    }

    /** Saves the configuration as it stands in memory. */
    method SaveCurrent(commits: bool) returns (ok: bool)
      requires Named()
      modifies database
      ensures EventsKept()
      ensures ok == old(CanSave(commits)) && (ok ==> Saved())
      ensures !ok && database != null ==> database.keys == old(database.keys) && database.plans == old(database.plans)
    {
      hide IsTable, Distinct, Stored, StoredKeys, StoredPlans;
      if database == null { return false; }
      var rows := KeysSnapshot();
      ghost var table := Rows();
      ok := database.SaveTables(rows, plans, table, commits);
      assert Rows() == table;
    }
  }

  /** An updated key keeps its creation time. */
  function Timed(key: KeyConfig, known: int, now: int): KeyConfig {
    key.(createdAt := if known != 0 then known else if key.createdAt == 0 then now else key.createdAt, updatedAt := now)
  }

  /** The keys after a create or update of one key. */
  function Upserted(rows: Keys, input: KeyConfig, now: int): Result<Keys, ConfigError> {
    match NormalizeKey(input, map[], {})
    case Err(e) => Err(e)
    case Ok(key) => Ok(rows[key.id := Timed(key, Created(rows, key.id), now)])
  }

  function Created(rows: Keys, id: string): int { if id in rows then rows[id].createdAt else 0 }

  /**
   A create or update stores the submitted policy under the trimmed id and leaves every other key alone. A key keeps the
   creation time it has, or is given one, and is modified now; it answers like its submitted rules.
   */
  lemma {:induction false} UpsertStoresTheInput(rows: Keys, input: KeyConfig, now: int, model: string)
    requires Upserted(rows, input, now).Ok?
    ensures var rows', id := Upserted(rows, input, now).value, Trim(input.id);
            && rows'.Keys == rows.Keys + {id} && (forall other :: other in rows && other != id ==> rows'[other] == rows[other])
            && var key := rows'[id];
               && KeyComesFrom(key.(createdAt := input.createdAt, updatedAt := input.updatedAt), input)
               && key.updatedAt == now
               && key.createdAt == (if id in rows && rows[id].createdAt != 0 then rows[id].createdAt
                                    else if input.createdAt != 0 then input.createdAt else now)
               && (if Trim(model) == "" then ModelRuleFor(key.models, model) == None
                   else AnswersFrom(ModelRuleFor(key.models, model), RawRules(input, map[]), Fold(Trim(model))))
  {
    KeyIsKept(input, map[], {});
    NormalizedKey(input, map[], {}, model);
    hide Trim, Fold, ModelRuleFor, AnswersFrom, RawRules, NormalizeKey, NormalForm, RawMatch;
  }

  /** A submitted plan keeps its policy; an existing one keeps its creation time, and either is modified now. */
  lemma {:induction false} StampKeepsTheInput(input: SubscriptionPlan, plans: Plans, now: int, model: string)
    requires NormalizePlan(input).Ok?
    ensures var plan := Stamped(NormalizePlan(input).value, plans, now);
            && PlanComesFrom(plan.(createdAt := input.createdAt, updatedAt := input.updatedAt), input)
            && plan.updatedAt == now
            && plan.createdAt == (if Trim(input.id) in plans then plans[Trim(input.id)].createdAt else now)
            && (if Trim(model) == "" then ModelRuleFor(plan.models, model) == None
                else AnswersFrom(ModelRuleFor(plan.models, model), input.models, Fold(Trim(model))))
  {
    PlanIsKept(input);
    NormalizedPlan(input, model);
    hide Trim, Fold, ModelRuleFor, AnswersFrom, NormalizePlan, NormalForm, RawMatch;
  }

  /** A key is validated as the only entry of a configuration. */
  method NormalizeOneKey(input: KeyConfig) returns (result: Result<KeyConfig, ConfigError>)
    ensures result == NormalizeKey(input, map[], {})
    ensures result.Ok? ==> Stored(result.value)
  {
    var cfg := new Config(true, "", [input], [], []);
    var outcome := Normalize(cfg);
    SingleKey(input);
    if outcome.Err? { return Err(outcome.error); }
    return Ok(cfg.keys[0]);
  }

  lemma {:induction false} SingleKey(input: KeyConfig)
    ensures NormalizeAll([input], [], [])
         == match NormalizeKey(input, map[], {}) case Err(e) => Err(e) case Ok(k) => Ok(Normalized([k], []))
    ensures NormalizeKey(input, map[], {}).Ok? ==> Stored(NormalizeKey(input, map[], {}).value)
  {
    assert [input][1..] == [];
    if NormalizeKey(input, map[], {}).Ok? {
      var k := NormalizeKey(input, map[], {}).value;
      assert NormalizeKeys([input], map[], {}) == Ok([k] + []) && [k] + [] == [k];
    }
  }

  lemma {:induction false} PutMeans(p: Policy, plan: SubscriptionPlan, bound: Option<set<string>>, create: bool, now: int)
    ensures var op := PutPlan(plan, bound, create);
            && (Accepted(p, op) <==> plan.id != "" && create == (plan.id !in p.plans) && Free(p.keys, plan.id, bound))
            && (Accepted(p, op) ==>
                  Perform(p, op, now) == Policy(Bound(p.keys, plan.id, bound, now), p.plans[plan.id := plan]))
  {
  }

  /**
   A plan that is created must be new and one that is updated must be there; every id of a submitted list, blank ones
   aside, must be a key that is bound to no other plan.
   */
  ghost predicate MayPut(p: Policy, id: string, boundIds: Option<seq<string>>, create: bool) {
    && (if create then id !in p.plans else id in p.plans)
    && (boundIds.Some? ==>
          forall i :: 0 <= i < |boundIds.value| && Trim(boundIds.value[i]) != "" ==>
            Trim(boundIds.value[i]) in p.keys && p.keys[Trim(boundIds.value[i])].planId in {"", id})
  }

  lemma {:induction false} PutIsAcceptedIff(p: Policy, plan: SubscriptionPlan, boundIds: Option<seq<string>>, create: bool)
    ensures Accepted(p, PutPlan(plan, Submitted(boundIds), create)) <==> plan.id != "" && MayPut(p, plan.id, boundIds, create)
  {
    hide Trim;
    if boundIds.Some? {
      var ids := boundIds.value;
      assert forall i :: 0 <= i < |ids| && Trim(ids[i]) != "" ==> Trim(ids[i]) in Selected(ids);
      assert forall id :: id in Selected(ids) ==> exists i :: 0 <= i < |ids| && Trim(ids[i]) == id && id != "";
    }
  }

  /** The plan's keys are those of a submitted list, blanks around the ids aside. */
  ghost predicate BoundExactly(keys: Keys, plan: string, ids: seq<string>) {
    forall id :: id in BoundTo(keys, plan) <==> id != "" && exists i :: 0 <= i < |ids| && Trim(ids[i]) == id
  }

  lemma {:induction false} SubmittedAreBound(p: Policy, plan: SubscriptionPlan, ids: seq<string>, create: bool, now: int)
    requires Accepted(p, PutPlan(plan, Submitted(Some(ids)), create))
    ensures BoundExactly(Perform(p, PutPlan(plan, Submitted(Some(ids)), create), now).keys, plan.id, ids)
  {
    hide Trim;
    RebindIsExact(p.keys, plan.id, Selected(ids), now);
  }

  lemma {:induction false} StoredBinding(key: KeyConfig, planId: string, now: int)
    ensures Stored(key.(planId := planId, updatedAt := now)) <==> Stored(key)
  {
  }

  function Submitted(boundIds: Option<seq<string>>): Option<set<string>> {
    if boundIds.Some? then Some(Selected(boundIds.value)) else None
  }

  /** An existing plan keeps its creation time. */
  function Stamped(plan: SubscriptionPlan, plans: Plans, now: int): SubscriptionPlan {
    plan.(createdAt := if plan.id in plans then plans[plan.id].createdAt else now, updatedAt := now)
  }

  predicate Free(keys: Keys, plan: string, bound: Option<set<string>>) {
    bound.Some? ==> Bindable(keys, plan, bound.value)
  }

  function Bound(keys: Keys, plan: string, bound: Option<set<string>>, now: int): Keys {
    if bound.Some? then RebindAll(keys, plan, bound.value, now) else keys
  }

  /** The submitted binding set is checked against all rows before any row changes; no list changes none. */
  method BindSubmitted(rows: seq<KeyConfig>, plan: string, boundIds: Option<seq<string>>, now: int, ghost table: Keys)
    returns (free: bool, bound: seq<KeyConfig>)
    requires IsTable(table, rows) && Distinct(rows) && (forall r :: r in rows ==> Stored(r))
    ensures free <==> Free(table, plan, Submitted(boundIds))
    ensures free ==>
              && IsTable(Bound(table, plan, Submitted(boundIds), now), bound)
              && Distinct(bound) && (forall r :: r in bound ==> Stored(r))
  {
    free, bound := true, rows;
    if boundIds.Some? {
      var selected := Select(boundIds.value);
      free := AllBindable(rows, plan, selected, table);
      if free {
        bound := RebindRows(rows, plan, selected, now);
        ReboundTable(table, rows, bound, plan, selected, now);
      }
    }
  }

  /** A plan is validated as the only entry of a configuration. */
  method NormalizeOnePlan(input: SubscriptionPlan) returns (result: Result<SubscriptionPlan, ConfigError>)
    ensures result == NormalizePlan(input)
    ensures result.Ok? ==> result.value.id != ""
  {
    var cfg := new Config(false, "", [], [input], []);
    var outcome := Normalize(cfg);
    OnePlan(input);
    if outcome.Err? { return Err(outcome.error); }
    return Ok(cfg.plans[0]);
  }

  lemma {:induction false} OnePlan(input: SubscriptionPlan)
    ensures NormalizeAll([], [input], [])
         == match NormalizePlan(input) case Err(e) => Err(e) case Ok(p) => Ok(Normalized([], [p]))
    ensures NormalizePlan(input).Ok? ==> NormalizePlan(input).value.id != ""
  {
    assert [input][1..] == [];
    if NormalizePlan(input).Ok? {
      var p := NormalizePlan(input).value;
      NormalizedPlan(input, "");
      assert NormalPlan(p);
      assert NormalizePlans([input], {}) == Ok([p] + []) && [p] + [] == [p];
    }
  }

  /** The submitted ids, trimmed, without blanks and duplicates. */
  method Select(ids: seq<string>) returns (selected: set<string>)
    ensures selected == Selected(ids)
  {
    selected := {};
    for i := 0 to |ids|
      invariant selected == Selected(ids[..i])
    {
      assert ids[..i + 1] == ids[..i] + [ids[i]];
      var id := Trim(ids[i]);
      if id != "" { selected := selected + {id}; }
    }
    assert ids[..|ids|] == ids;
  }

  /** Looks every selected id up in the rows. */
  method AllBindable(rows: seq<KeyConfig>, plan: string, selected: set<string>, ghost table: Keys) returns (free: bool)
    requires IsTable(table, rows) && Distinct(rows)
    ensures free <==> Bindable(table, plan, selected)
  {
    var left := selected;
    while left != {}
      invariant left <= selected
      invariant forall id :: id in selected && id !in left ==> id in table && (table[id].planId == "" || table[id].planId == plan)
      decreases left
    {
      var id :| id in left;
      var found := false;
      for i := 0 to |rows|
        invariant !found && forall k :: 0 <= k < i ==> rows[k].id != id
      {
        if rows[i].id == id {
          assert rows[i] in rows && table[id] == rows[i] by { RowOfId(table, rows, i); }
          if rows[i].planId != "" && rows[i].planId != plan { return false; }
          found := true;
          break;
        }
      }
      if !found {
        assert id !in table;
        return false;
      }
      left := left - {id};
    }
    return true;
  }

  lemma {:induction false} RowOfId(table: Keys, rows: seq<KeyConfig>, i: nat)
    requires IsTable(table, rows) && Distinct(rows) && i < |rows|
    ensures rows[i].id in table && table[rows[i].id] == rows[i]
  {
  }

  lemma {:induction false} StoredRows(rows: seq<KeyConfig>, rows': seq<KeyConfig>)
    requires (forall r :: r in rows ==> Stored(r)) && |rows'| == |rows|
    requires forall k :: 0 <= k < |rows| ==> Own(rows'[k]) == Own(rows[k])
    ensures forall r :: r in rows' ==> Stored(r)
  {
    forall r | r in rows' ensures Stored(r) {
      var k :| 0 <= k < |rows'| && rows'[k] == r;
      assert rows[k] in rows && Own(rows'[k]) == Own(rows[k]);
    }
  }

  method RebindRows(rows: seq<KeyConfig>, plan: string, selected: set<string>, now: int) returns (bound: seq<KeyConfig>)
    ensures |bound| == |rows| && forall k :: 0 <= k < |rows| ==> bound[k] == Rebind(rows[k], plan, rows[k].id in selected, now)
  {
    bound := rows;
    for i := 0 to |rows|
      invariant |bound| == |rows| && forall k :: i <= k < |rows| ==> bound[k] == rows[k]
      invariant forall k :: 0 <= k < i ==> bound[k] == Rebind(rows[k], plan, rows[k].id in selected, now)
    {
      var row, shouldBind := bound[i], bound[i].id in selected;
      if row.planId == plan && !shouldBind { row := row.(planId := "", updatedAt := now); }
      if shouldBind && row.planId == "" { row := row.(planId := plan, updatedAt := now); }
      bound := bound[i := row];
    }
  }

  lemma {:induction false} ReboundTable(table: Keys, rows: seq<KeyConfig>, bound: seq<KeyConfig>, plan: string, selected: set<string>, now: int)
    requires IsTable(table, rows) && Distinct(rows) && (forall r :: r in rows ==> Stored(r))
    requires |bound| == |rows| && forall k :: 0 <= k < |rows| ==> bound[k] == Rebind(rows[k], plan, rows[k].id in selected, now)
    ensures IsTable(RebindAll(table, plan, selected, now), bound) && Distinct(bound)
    ensures forall r :: r in bound ==> Stored(r)
  {
    hide IsTable, Stored;
    RowsByIndex(table, rows);
    MappedTable(table, rows, RebindAll(table, plan, selected, now), bound);
    StoredRows(rows, bound);
  }

  /** Changing rows one by one, ids aside, changes the table in the same places. */
  lemma {:induction false} MappedTable(table: Keys, rows: seq<KeyConfig>, table': Keys, rows': seq<KeyConfig>)
    requires IsTable(table, rows) && Distinct(rows) && |rows'| == |rows| && table'.Keys == table.Keys
    requires forall k :: 0 <= k < |rows| ==> rows'[k].id == rows[k].id && (rows[k].id in table' ==> table'[rows[k].id] == rows'[k])
    ensures IsTable(table', rows') && Distinct(rows')
  {
  }

  method ReplaceRow(rows: seq<KeyConfig>, row: KeyConfig, ghost table: Keys) returns (replaced: seq<KeyConfig>)
    requires IsTable(table, rows) && Distinct(rows) && row.id in table
    requires Stored(row) && forall r :: r in rows ==> Stored(r)
    ensures IsTable(table[row.id := row], replaced) && Distinct(replaced) && forall r :: r in replaced ==> Stored(r)
  {
    var i := 0;
    while i < |rows| && rows[i].id != row.id
      invariant i <= |rows| && forall k :: 0 <= k < i ==> rows[k].id != row.id
    {
      i := i + 1;
    }
    assert table[row.id] in rows;
    replaced := rows[i := row];
    forall k | 0 <= k < |rows| ensures rows[k].id in table && (k != i ==> table[rows[k].id] == rows[k]) { RowOfId(table, rows, k); }
    assert table[row.id := row].Keys == table.Keys;
    MappedTable(table, rows, table[row.id := row], replaced);
  }

  /** The ids of the rows bound to the plan, and their number. */
  function BoundIds(rows: seq<KeyConfig>, plan: string): set<string> {
    if rows == [] then {}
    else
      var last := rows[|rows| - 1];
      BoundIds(rows[..|rows| - 1], plan) + (if last.planId == plan then {last.id} else {})
  }

  function CountBound(rows: seq<KeyConfig>, plan: string): nat {
    if rows == [] then 0
    else CountBound(rows[..|rows| - 1], plan) + (if rows[|rows| - 1].planId == plan then 1 else 0)
  }

  lemma {:induction false} BoundIdsAre(rows: seq<KeyConfig>, plan: string, id: string)
    ensures id in BoundIds(rows, plan) <==> exists i :: 0 <= i < |rows| && rows[i].id == id && rows[i].planId == plan
  {
    if rows != [] {
      var front := rows[..|rows| - 1];
      BoundIdsAre(front, plan, id);
      if i :| 0 <= i < |front| && front[i].id == id && front[i].planId == plan { assert rows[i] == front[i]; }
      if i :| 0 <= i < |rows| && rows[i].id == id && rows[i].planId == plan {
        assert i == |rows| - 1 || front[i] == rows[i];
      }
    }
  }

  lemma {:induction false} CountIsCardinality(rows: seq<KeyConfig>, plan: string)
    requires Distinct(rows)
    ensures CountBound(rows, plan) == |BoundIds(rows, plan)|
  {
    if rows != [] {
      var front, last := rows[..|rows| - 1], rows[|rows| - 1];
      CountIsCardinality(front, plan);
      BoundIdsAre(front, plan, last.id);
      assert last.id !in BoundIds(front, plan);
    }
  }

  lemma {:induction false} CountOneMore(rows: seq<KeyConfig>, plan: string, i: nat)
    requires i < |rows|
    ensures CountBound(rows[..i + 1], plan) == CountBound(rows[..i], plan) + (if rows[i].planId == plan then 1 else 0)
  {
    assert rows[..i + 1][..i] == rows[..i];
  }

  lemma {:induction false} CountNone(plan: string)
    ensures forall rows: seq<KeyConfig> :: CountBound(rows[..0], plan) == 0
  {
  }

  lemma {:induction false} BoundRows(table: Keys, rows: seq<KeyConfig>, plan: string)
    requires IsTable(table, rows) && Distinct(rows)
    ensures BoundTo(table, plan) == BoundIds(rows, plan)
  {
    RowsByIndex(table, rows);
    forall id ensures id in BoundTo(table, plan) <==> id in BoundIds(rows, plan) {
      BoundIdsAre(rows, plan, id);
      if id in table { var k :| 0 <= k < |rows| && rows[k] == table[id]; }
    }
  }

  method UnbindRows(rows: seq<KeyConfig>, plan: string, now: int, ghost table: Keys) returns (unbound: nat, freed: seq<KeyConfig>)
    requires IsTable(table, rows) && Distinct(rows) && (forall r :: r in rows ==> Stored(r))
    ensures IsTable(UnbindAll(table, plan, now), freed) && Distinct(freed) && (forall r :: r in freed ==> Stored(r))
    ensures unbound == |BoundTo(table, plan)|
  {
    hide CountBound, BoundIds, IsTable, BoundTo;
    freed, unbound := rows, 0;
    CountNone(plan);
    for i := 0 to |rows|
      invariant |freed| == |rows| && forall k :: i <= k < |rows| ==> freed[k] == rows[k]
      invariant forall k :: 0 <= k < i ==> freed[k] == Unbind(rows[k], plan, now)
      invariant unbound == CountBound(rows[..i], plan)
    {
      CountOneMore(rows, plan, i);
      if freed[i].planId == plan {
        freed := freed[i := freed[i].(planId := "", updatedAt := now)];
        unbound := unbound + 1;
      }
    }
    assert rows[..|rows|] == rows;
    CountIsCardinality(rows, plan);
    BoundRows(table, rows, plan);
    RowsByIndex(table, rows);
    MappedTable(table, rows, UnbindAll(table, plan, now), freed);
    StoredRows(rows, freed);
  }

  lemma {:induction false} RowsByIndex(table: Keys, rows: seq<KeyConfig>)
    requires IsTable(table, rows) && Distinct(rows)
    ensures forall k :: 0 <= k < |rows| ==> rows[k] in rows && rows[k].id in table && table[rows[k].id] == rows[k]
  {
  }

  /** One fresh record per row. */
  method NewRecords(rows: seq<KeyConfig>) returns (records: map<string, KeyRecord>)
    requires Distinct(rows) && (forall r :: r in rows ==> Stored(r))
    ensures forall id :: id in records ==> fresh(records[id]) && records[id].row.id == id && records[id].row in rows
    ensures forall r :: r in rows ==> r.id in records
  {
    records := map[];
    for i := 0 to |rows|
      invariant forall id :: id in records ==> fresh(records[id]) && records[id].row.id == id && records[id].row in rows
      invariant forall k :: 0 <= k < i ==> rows[k].id in records
    {
      var record := new KeyRecord(rows[i].(expiresAt := 0, aliases := []));
      assert rows[i] in rows && record.row == rows[i];
      records := records[rows[i].id := record];
    }
  }

  /** The plan rows in id order. */
  method PlansInOrder(plans: Plans) returns (rows: seq<SubscriptionPlan>)
    requires forall id :: id in plans ==> plans[id].id == id
    ensures IsPlanTable(plans, rows) && DistinctPlans(rows)
  {
    var ids := SortNames(plans.Keys);
    rows := [];
    for i := 0 to |ids|
      invariant |rows| == i
      invariant forall k :: 0 <= k < i ==> ids[k] in plans && rows[k] == plans[ids[k]]
    {
      assert ids[i] in plans.Keys;
      rows := rows + [plans[ids[i]]];
    }
    forall i, j | 0 <= i < j < |rows| ensures rows[i].id != rows[j].id {
      LessIsStrict(rows[i].id, rows[j].id);
    }
    forall id | id in plans ensures plans[id] in rows {
      assert id in ids;
      var k :| 0 <= k < |ids| && ids[k] == id;
      assert rows[k] == plans[id];
    }
  }
}
