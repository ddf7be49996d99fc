/**
 `Configure` (internal/policy/store.go): the configuration comes from the state file if it has one, else from the
 caller; it is normalized, dated, saved into the new file, and only then published with a fresh index.
 A `StateFile` stands for one opened database with the tables it reads.
 */
module StoreConfiguration {
  import opened Wrappers
  import opened Strings
  import opened PolicyConfig
  import opened PlanBindings
  import opened StoredTimes
  import opened KeyPreviews
  import opened PolicyStore

  /** What the environment decides: the last flush, opening the file, the save, and the backfill of previews. */
  datatype Luck = Luck(flushes: bool, opens: bool, commits: bool, backfills: bool) {
    predicate Good() { flushes && opens && commits && backfills }
  }

  /** Missing times are filled in. */
  function DatedKey(k: KeyConfig, now: int): KeyConfig {
    var created := if k.createdAt == 0 then now else k.createdAt;
    k.(createdAt := created, updatedAt := if k.updatedAt == 0 then created else k.updatedAt)
  }

  function DatedPlan(p: SubscriptionPlan, now: int): SubscriptionPlan {
    var created := if p.createdAt == 0 then now else p.createdAt;
    p.(createdAt := created, updatedAt := if p.updatedAt == 0 then created else p.updatedAt)
  }

  function DatedKeys(rows: seq<KeyConfig>, now: int): seq<KeyConfig> {
    if rows == [] then [] else DatedKeys(rows[..|rows| - 1], now) + [DatedKey(rows[|rows| - 1], now)]
  }

  function DatedPlans(rows: seq<SubscriptionPlan>, now: int): seq<SubscriptionPlan> {
    if rows == [] then [] else DatedPlans(rows[..|rows| - 1], now) + [DatedPlan(rows[|rows| - 1], now)]
  }

  lemma {:induction false} DatedKeysAre(rows: seq<KeyConfig>, now: int)
    ensures |DatedKeys(rows, now)| == |rows| && forall i :: 0 <= i < |rows| ==> DatedKeys(rows, now)[i] == DatedKey(rows[i], now)
  {
    if rows != [] { DatedKeysAre(rows[..|rows| - 1], now); }
  }

  lemma {:induction false} DatedPlansAre(rows: seq<SubscriptionPlan>, now: int)
    ensures |DatedPlans(rows, now)| == |rows|
            && forall i :: 0 <= i < |rows| ==> DatedPlans(rows, now)[i] == DatedPlan(rows[i], now)
  {
    if rows != [] { DatedPlansAre(rows[..|rows| - 1], now); }
  }

  /** Rows of a file that are filed under their own ids. */
  ghost predicate Filed(keys: Keys, plans: Plans) {
    (forall id :: id in keys ==> keys[id].id == id) && (forall id :: id in plans ==> plans[id].id == id)
  }

  /** The policy that a normalized configuration stands for. */
  ghost predicate Describes(n: Normalized, now: int, policy: Policy) {
    IsTable(policy.keys, DatedKeys(n.keys, now)) && IsPlanTable(policy.plans, DatedPlans(n.plans, now))
  }

  /** Normalized keys and plans have distinct ids and nothing a stored key must not have. */
  lemma {:induction false} NormalizedKeyRows(keys: seq<KeyConfig>, table: map<string, AliasMapping>, now: int)
    requires NormalizeKeys(keys, table, {}).Ok?
    ensures var rows := DatedKeys(NormalizeKeys(keys, table, {}).value, now);
            Distinct(rows) && (forall r :: r in rows ==> Stored(r)) && |rows| == |keys|
  {
    hide NormalizeKeys, NormalKeys, Kept;
    var ks := NormalizeKeys(keys, table, {}).value;
    NormalizedKeys(keys, table, {}, 0, "");
    NormalKeysAreDistinct(ks, {});
    DatedKeysAre(ks, now);
  }

  lemma {:induction false} NormalizedPlanRows(plans: seq<SubscriptionPlan>, now: int)
    requires NormalizePlans(plans, {}).Ok?
    ensures DistinctPlans(DatedPlans(NormalizePlans(plans, {}).value, now))
  {
    hide NormalizePlans, NormalPlans, NormalPlan;
    var ps := NormalizePlans(plans, {}).value;
    NormalizedPlans(plans, {});
    NormalPlansAreDistinct(ps, {});
    DatedPlansAre(ps, now);
  }

  lemma {:induction false} NormalizedRows(keys: seq<KeyConfig>, plans: seq<SubscriptionPlan>, aliases: seq<AliasMapping>, now: int)
    requires NormalizeAll(keys, plans, aliases).Ok?
    ensures var n := NormalizeAll(keys, plans, aliases).value;
            && Distinct(DatedKeys(n.keys, now)) && (forall r :: r in DatedKeys(n.keys, now) ==> Stored(r))
            && DistinctPlans(DatedPlans(n.plans, now))
  {
    hide NormalizeKeys, NormalizePlans, DatedKeys, DatedPlans, Distinct, DistinctPlans;
    NormalizedKeyRows(keys, AliasTable(aliases), now);
    NormalizedPlanRows(plans, now);
  }

  lemma {:induction false} NormalPlansAreDistinct(plans: seq<SubscriptionPlan>, seen: set<string>)
    requires NormalPlans(plans, seen)
    ensures forall i :: 0 <= i < |plans| ==> plans[i].id !in seen
    ensures forall i, j :: 0 <= i < j < |plans| ==> plans[i].id != plans[j].id
  {
    hide NormalPlan;
    if plans != [] {
      NormalPlansAreDistinct(plans[1..], seen + {plans[0].id});
      assert forall i :: 0 < i < |plans| ==> plans[i] == plans[1..][i - 1];
    }
  }

  /** The key rows of a file in id order. */
  method KeysInOrder(keys: Keys) returns (rows: seq<KeyConfig>)
    requires forall id :: id in keys ==> keys[id].id == id
    ensures IsTable(keys, rows) && Distinct(rows)
  {
    var ids := SortNames(keys.Keys);
    rows := [];
    for i := 0 to |ids|
      invariant |rows| == i
      invariant forall k :: 0 <= k < i ==> ids[k] in keys && rows[k] == keys[ids[k]]
    {
      assert ids[i] in keys.Keys;
      rows := rows + [keys[ids[i]]];
    }
    forall i, j | 0 <= i < j < |rows| ensures rows[i].id != rows[j].id {
      LessIsStrict(rows[i].id, rows[j].id);
    }
    forall id | id in keys ensures keys[id] in rows {
      assert id in ids;
      var k :| 0 <= k < |ids| && ids[k] == id;
      assert rows[k] == keys[id];
    }
  }

  method PrepareKeys(keys: seq<KeyConfig>, now: int) returns (table: Keys)
    requires Distinct(DatedKeys(keys, now))
    ensures IsTable(table, DatedKeys(keys, now))
  {
    table := map[];
    DatedKeysAre(keys, now);
    ghost var dated := DatedKeys(keys, now);
    for i := 0 to |keys|
      invariant IsTable(table, dated[..i])
    {
      assert dated[..i + 1] == dated[..i] + [dated[i]];
      var item := DatedKey(keys[i], now);
      table := table[item.id := item];
    }
    assert dated[..|keys|] == dated;
  }

  method PreparePlans(plans: seq<SubscriptionPlan>, now: int) returns (table: Plans)
    requires DistinctPlans(DatedPlans(plans, now))
    ensures IsPlanTable(table, DatedPlans(plans, now))
  {
    table := map[];
    DatedPlansAre(plans, now);
    ghost var dated := DatedPlans(plans, now);
    for i := 0 to |plans|
      invariant IsPlanTable(table, dated[..i])
    {
      assert dated[..i + 1] == dated[..i] + [dated[i]];
      var item := DatedPlan(plans[i], now);
      table := table[item.id := item];
    }
    assert dated[..|plans|] == dated;
  }

  // ---------- which rows can be loaded ----------

  /** Each key is acceptable by itself and no two have the same trimmed id; likewise the plans. */
  ghost predicate Loadable(keys: Keys, plans: Plans) {
    && (forall id :: id in keys ==> NormalizeKey(keys[id], map[], {}).Ok?)
    && (forall a, b :: a in keys && b in keys && a != b ==> Trim(a) != Trim(b))
    && (forall id :: id in plans ==> NormalizePlan(plans[id]).Ok?)
    && (forall a, b :: a in plans && b in plans && a != b ==> Trim(a) != Trim(b))
  }

  lemma {:induction false} KeyAcceptedIff(key: KeyConfig, table: map<string, AliasMapping>, seen: set<string>)
    ensures NormalizeKey(key, table, seen).Ok? <==> NormalizeKey(key, table, {}).Ok? && Trim(key.id) !in seen
    ensures NormalizeKey(key, table, {}).Ok? ==> NormalizeKey(key, table, {}).value.id == Trim(key.id)
    ensures NormalizeKey(key, table, seen).Ok? ==> NormalizeKey(key, table, seen) == NormalizeKey(key, table, {})
  {
    hide ExpandRefs, NormalizeModels, Trim;
  }

  /** A list of keys is accepted exactly when each is, by itself, and their trimmed ids are new and distinct. */
  lemma {:induction false} KeysAcceptedIff(rows: seq<KeyConfig>, table: map<string, AliasMapping>, seen: set<string>)
    ensures NormalizeKeys(rows, table, seen).Ok? <==>
              && (forall i :: 0 <= i < |rows| ==> NormalizeKey(rows[i], table, {}).Ok? && Trim(rows[i].id) !in seen)
              && (forall i, j :: 0 <= i < j < |rows| ==> Trim(rows[i].id) != Trim(rows[j].id))
  {
    hide NormalizeKey, Trim;
    if rows != [] {
      var rest := rows[1..];
      KeyAcceptedIff(rows[0], table, seen);
      KeysAcceptedIff(rest, table, seen + {Trim(rows[0].id)});
      assert forall i :: 1 <= i < |rows| ==> rows[i] == rest[i - 1];
      assert forall i :: 0 <= i < |rest| ==> rest[i] == rows[i + 1];
      UnfoldKeys(rows, table, seen);
    }
  }

  lemma {:induction false} UnfoldKeys(rows: seq<KeyConfig>, table: map<string, AliasMapping>, seen: set<string>)
    requires rows != []
    ensures NormalizeKeys(rows, table, seen).Ok? <==>
              NormalizeKey(rows[0], table, seen).Ok? && NormalizeKeys(rows[1..], table, seen + {Trim(rows[0].id)}).Ok?
  {
    KeyAcceptedIff(rows[0], table, seen);
    hide NormalizeKey, Trim;
  }

  lemma {:induction false} UnfoldPlans(rows: seq<SubscriptionPlan>, seen: set<string>)
    requires rows != []
    ensures NormalizePlans(rows, seen).Ok? <==>
              && NormalizePlan(rows[0]).Ok? && Trim(rows[0].id) !in seen
              && NormalizePlans(rows[1..], seen + {Trim(rows[0].id)}).Ok?
  {
    if NormalizePlan(rows[0]).Ok? { NormalizedPlan(rows[0], ""); }
    hide NormalizePlan, Trim;
  }

  lemma {:induction false} PlansAcceptedIff(rows: seq<SubscriptionPlan>, seen: set<string>)
    ensures NormalizePlans(rows, seen).Ok? <==>
              && (forall i :: 0 <= i < |rows| ==> NormalizePlan(rows[i]).Ok? && Trim(rows[i].id) !in seen)
              && (forall i, j :: 0 <= i < j < |rows| ==> Trim(rows[i].id) != Trim(rows[j].id))
  {
    hide NormalizePlan, Trim;
    if rows != [] {
      var rest := rows[1..];
      PlansAcceptedIff(rest, seen + {Trim(rows[0].id)});
      assert forall i :: 1 <= i < |rows| ==> rows[i] == rest[i - 1];
      assert forall i :: 0 <= i < |rest| ==> rest[i] == rows[i + 1];
      UnfoldPlans(rows, seen);
    }
  }

  /** Whether the rows of a file can be loaded does not depend on the order in which they are read. */
  lemma {:induction false} LoadableIff(keys: Keys, plans: Plans, rows: seq<KeyConfig>, planRows: seq<SubscriptionPlan>)
    requires IsTable(keys, rows) && Distinct(rows) && IsPlanTable(plans, planRows) && DistinctPlans(planRows)
    ensures NormalizeAll(rows, planRows, []).Ok? <==> Loadable(keys, plans)
  {
    hide NormalizeKeys, NormalizePlans, NormalizeKey, NormalizePlan, Trim;
    KeysAcceptedIff(rows, map[], {});
    PlansAcceptedIff(planRows, {});
    RowsByIndex(keys, rows);
    LoadableKeys(keys, rows);
    LoadablePlans(plans, planRows);
  }

  lemma {:induction false} LoadableKeys(keys: Keys, rows: seq<KeyConfig>)
    requires IsTable(keys, rows) && Distinct(rows)
    ensures (forall i :: 0 <= i < |rows| ==> NormalizeKey(rows[i], map[], {}).Ok?)
            <==> (forall id :: id in keys ==> NormalizeKey(keys[id], map[], {}).Ok?)
    ensures (forall i, j :: 0 <= i < j < |rows| ==> Trim(rows[i].id) != Trim(rows[j].id))
            <==> (forall a, b :: a in keys && b in keys && a != b ==> Trim(a) != Trim(b))
  {
    hide NormalizeKey, Trim;
    RowsByIndex(keys, rows);
    var ids := seq(|rows|, i requires 0 <= i < |rows| => rows[i].id);
    forall id | id in keys ensures exists i :: 0 <= i < |rows| && rows[i] == keys[id] && ids[i] == id {
      assert keys[id] in rows;
    }
    hide IsTable;
    forall id ensures id in keys.Keys <==> id in ids {
      if id in keys { var i :| 0 <= i < |rows| && rows[i] == keys[id] && ids[i] == id; }
    }
    TrimmedApart(keys.Keys, ids);
  }

  /** Trimming keeps the ids of a set apart exactly if it does so along a list of them without repeats. */
  lemma {:induction false} TrimmedApart(names: set<string>, ids: seq<string>)
    requires (forall id :: id in names <==> id in ids) && forall i, j :: 0 <= i < j < |ids| ==> ids[i] != ids[j]
    ensures (forall i, j :: 0 <= i < j < |ids| ==> Trim(ids[i]) != Trim(ids[j]))
            <==> (forall a, b :: a in names && b in names && a != b ==> Trim(a) != Trim(b))
  {
    hide Trim;
  }

  lemma {:induction false} LoadablePlans(plans: Plans, rows: seq<SubscriptionPlan>)
    requires IsPlanTable(plans, rows) && DistinctPlans(rows)
    ensures (forall i :: 0 <= i < |rows| ==> NormalizePlan(rows[i]).Ok?)
            <==> (forall id :: id in plans ==> NormalizePlan(plans[id]).Ok?)
    ensures (forall i, j :: 0 <= i < j < |rows| ==> Trim(rows[i].id) != Trim(rows[j].id))
            <==> (forall a, b :: a in plans && b in plans && a != b ==> Trim(a) != Trim(b))
  {
    hide NormalizePlan, Trim;
    PlanRowsByIndex(plans, rows);
    var ids := seq(|rows|, i requires 0 <= i < |rows| => rows[i].id);
    forall id | id in plans ensures exists i :: 0 <= i < |rows| && rows[i] == plans[id] && ids[i] == id {
      assert plans[id] in rows;
    }
    hide IsPlanTable;
    forall id ensures id in plans.Keys <==> id in ids {
      if id in plans { var i :| 0 <= i < |rows| && rows[i] == plans[id] && ids[i] == id; }
    }
    TrimmedApart(plans.Keys, ids);
  }

  // ---------- configuring twice ----------

  /** Rows filed under their own ids, each in normal form. */
  ghost predicate Normal(policy: Policy) {
    && Filed(policy.keys, policy.plans)
    && (forall id :: id in policy.keys ==> NormalKey(policy.keys[id]))
    && (forall id :: id in policy.plans ==> NormalPlan(policy.plans[id]))
  }

  /** Rows as a `Configure` leaves them: normal, with both times set. */
  ghost predicate Settled(policy: Policy) {
    && Normal(policy)
    && (forall id :: id in policy.keys ==> policy.keys[id].createdAt != 0 && policy.keys[id].updatedAt != 0)
    && (forall id :: id in policy.plans ==> policy.plans[id].createdAt != 0 && policy.plans[id].updatedAt != 0)
  }

  lemma {:induction false} ConfiguredIsSettled(keys: seq<KeyConfig>, plans: seq<SubscriptionPlan>, aliases: seq<AliasMapping>,
                                               now: int, policy: Policy)
    requires now != 0 && NormalizeAll(keys, plans, aliases).Ok?
    requires Describes(NormalizeAll(keys, plans, aliases).value, now, policy)
    ensures Settled(policy)
  {
    hide NormalKey, NormalPlan, NormalKeys, NormalPlans, NormalizeKeys, NormalizePlans, DatedKeys, DatedPlans;
    var n := NormalizeAll(keys, plans, aliases).value;
    NormalizedKeys(keys, AliasTable(aliases), {}, 0, "");
    NormalizedPlans(plans, {});
    DatedStaysNormal(n, now);
  }

  /** Binding, hash, preview and times of a normal key may change. */
  lemma {:induction false} KeyStaysNormal(k: KeyConfig, planId: string, hash: string, preview: string, updated: int)
    requires NormalKey(k) && Trim(planId) == planId && Trim(hash) == hash && Trim(preview) == preview
    ensures NormalKey(k.(planId := planId, updatedAt := updated))
    ensures NormalKey(k.(keyHash := hash, keyPreview := preview, updatedAt := updated))
  {
    hide Kept, Trim;
  }

  lemma {:induction false} TimedIsNormal(k: KeyConfig, known: int, now: int)
    requires NormalKey(k)
    ensures NormalKey(Timed(k, known, now))
  {
    hide Kept, Trim;
  }

  /** What is put is normalized; a binding is trimmed. */
  ghost predicate Submittable(op: PlanOp, now: int) {
    match op
    case PutPlan(plan, _, _) => exists input, plans :: NormalizePlan(input).Ok? && plan == Stamped(NormalizePlan(input).value, plans, now)
    case SetBinding(_, planId) => exists submitted :: planId == Trim(submitted)
    case DropPlan(_) => true
  }

  lemma {:induction false} StampedIsNormal(plan: SubscriptionPlan, now: int)
    requires Submittable(PutPlan(plan, None, true), now)
    ensures NormalPlan(plan) && Trim(plan.id) == plan.id
  {
    var input, plans :| NormalizePlan(input).Ok? && plan == Stamped(NormalizePlan(input).value, plans, now);
    NormalizedPlan(input, "");
    hide Kept, NormalizePlan, Trim;
  }

  lemma {:induction false} BoundKeyIsNormal(k: KeyConfig, plan: string, selected: bool, now: int)
    requires NormalKey(k) && Trim(plan) == plan
    ensures NormalKey(Rebind(k, plan, selected, now)) && NormalKey(Unbind(k, plan, now))
    ensures NormalKey(k.(planId := plan, updatedAt := now))
  {
    assert Trim("") == "";
    hide NormalKey, Trim;
    KeyStaysNormal(k, "", "", "", now);
    KeyStaysNormal(k, plan, "", "", now);
    KeyStaysNormal(k.(planId := "", updatedAt := now), plan, "", "", now);
  }

  /** Every operation on plans and bindings keeps a policy normal. */
  lemma {:induction false} PlanEditsKeepNormal(policy: Policy, op: PlanOp, now: int)
    requires Normal(policy) && Accepted(policy, op) && Submittable(op, now)
    ensures Normal(Perform(policy, op, now))
  {
    hide NormalKey, NormalPlan, NormalizePlan, Trim, Rebind, Unbind, Bindable;
    match op {
      case PutPlan(plan, bound, create) =>
        StampedIsNormal(plan, now);
        if bound.Some? { ReboundIsNormal(policy.keys, plan.id, bound.value, now); }
      case SetBinding(key, planId) =>
        var submitted :| planId == Trim(submitted);
        TrimIsIdempotent(submitted);
        BoundKeyIsNormal(policy.keys[key], planId, true, now);
      case DropPlan(id) => UnboundIsNormal(policy.keys, id, now);
    }
  }

  lemma {:induction false} ReboundIsNormal(keys: Keys, plan: string, selected: set<string>, now: int)
    requires Trim(plan) == plan && forall id :: id in keys ==> keys[id].id == id && NormalKey(keys[id])
    ensures var keys' := RebindAll(keys, plan, selected, now); forall id :: id in keys' ==> keys'[id].id == id && NormalKey(keys'[id])
  {
    hide NormalKey, Trim;
    forall id | id in keys ensures NormalKey(Rebind(keys[id], plan, id in selected, now)) {
      BoundKeyIsNormal(keys[id], plan, id in selected, now);
    }
  }

  lemma {:induction false} UnboundIsNormal(keys: Keys, plan: string, now: int)
    requires forall id :: id in keys ==> keys[id].id == id && NormalKey(keys[id])
    ensures var keys' := UnbindAll(keys, plan, now); forall id :: id in keys' ==> keys'[id].id == id && NormalKey(keys'[id])
  {
    assert Trim("") == "";
    hide NormalKey, Trim;
    forall id | id in keys ensures NormalKey(Unbind(keys[id], plan, now)) {
      KeyStaysNormal(keys[id], "", "", "", now);
    }
  }

  /** So does every edit of a key: create or update, delete, rotate (hashes have no outer blanks), learn the preview of a secret. */
  lemma {:induction false} KeyEditsKeepNormal(policy: Policy, input: KeyConfig, id: string, hash: string, secret: string, now: int)
    requires Normal(policy) && Trim(hash) == hash
    ensures Upserted(policy.keys, input, now).Ok? ==> Normal(policy.(keys := Upserted(policy.keys, input, now).value))
    ensures Normal(policy.(keys := policy.keys - {id}))
    ensures id in policy.keys ==>
              && Normal(policy.(keys := policy.keys[id := Secret(policy.keys[id], hash, secret, now)]))
              && Normal(policy.(keys := policy.keys[id := Secret(policy.keys[id], policy.keys[id].keyHash, secret, now)]))
  {
    hide NormalKey, NormalPlan, NormalizeKey, Trim, Normal;
    if NormalizeKey(input, map[], {}).Ok? {
      NormalizedKey(input, map[], {}, "");
      var k := NormalizeKey(input, map[], {}).value;
      TimedIsNormal(k, Created(policy.keys, k.id), now);
      PutKeyKeepsNormal(policy, Timed(k, Created(policy.keys, k.id), now));
    }
    DropKeyKeepsNormal(policy, id);
    if id in policy.keys {
      SecretIsNormal(policy, id, hash, secret, now);
      PutKeyKeepsNormal(policy, Secret(policy.keys[id], hash, secret, now));
      PutKeyKeepsNormal(policy, Secret(policy.keys[id], policy.keys[id].keyHash, secret, now));
    }
  }

  lemma {:induction false} PutKeyKeepsNormal(policy: Policy, key: KeyConfig)
    requires Normal(policy) && NormalKey(key)
    ensures Normal(policy.(keys := policy.keys[key.id := key]))
  {
    hide NormalKey, NormalPlan;
  }

  lemma {:induction false} DropKeyKeepsNormal(policy: Policy, id: string)
    requires Normal(policy)
    ensures Normal(policy.(keys := policy.keys - {id}))
  {
    hide NormalKey, NormalPlan;
  }

  /** The key after it got this hash and the preview of this secret. */
  function Secret(key: KeyConfig, hash: string, secret: string, now: int): KeyConfig {
    key.(keyHash := hash, keyPreview := PreviewKey(secret), updatedAt := now)
  }

  lemma {:induction false} SecretIsNormal(policy: Policy, id: string, hash: string, secret: string, now: int)
    requires Normal(policy) && id in policy.keys && Trim(hash) == hash
    ensures var key := policy.keys[id];
            key.id == id && NormalKey(Secret(key, hash, secret, now)) && NormalKey(Secret(key, key.keyHash, secret, now))
  {
    var key := policy.keys[id];
    assert Trim(key.keyHash) == key.keyHash by { HashIsTrimmed(key); }
    assert Trim("") == "";
    hide NormalKey, NormalPlan, Trim, PreviewKey;
    PreviewIsTrimmed(secret);
    KeyStaysNormal(key, "", hash, PreviewKey(secret), now);
    KeyStaysNormal(key, "", key.keyHash, PreviewKey(secret), now);
  }

  lemma {:induction false} HashIsTrimmed(key: KeyConfig)
    requires NormalKey(key)
    ensures Trim(key.keyHash) == key.keyHash
  {
    hide Kept, Trim;
  }

  lemma {:induction false} DatedStaysNormal(n: Normalized, now: int)
    requires now != 0 && NormalKeys(n.keys, {}) && NormalPlans(n.plans, {})
    ensures forall r :: r in DatedKeys(n.keys, now) ==> NormalKey(r) && r.createdAt != 0 && r.updatedAt != 0
    ensures forall r :: r in DatedPlans(n.plans, now) ==> NormalPlan(r) && r.createdAt != 0 && r.updatedAt != 0
  {
    hide NormalKey, NormalPlan, NormalKeys, NormalPlans;
    DatedKeysAre(n.keys, now);
    DatedPlansAre(n.plans, now);
    NormalKeysAreDistinct(n.keys, {});
    NormalPlansAreNormal(n.plans, {});
    forall i | 0 <= i < |n.keys| ensures NormalKey(DatedKey(n.keys[i], now)) {
      DatedKeyIsNormal(n.keys[i], now);
    }
    forall i | 0 <= i < |n.plans| ensures NormalPlan(DatedPlan(n.plans[i], now)) {
      DatedPlanIsNormal(n.plans[i], now);
    }
  }

  lemma {:induction false} DatedKeyIsNormal(k: KeyConfig, now: int)
    requires NormalKey(k)
    ensures NormalKey(DatedKey(k, now))
  {
    hide Kept, Trim;
  }

  lemma {:induction false} DatedPlanIsNormal(p: SubscriptionPlan, now: int)
    requires NormalPlan(p)
    ensures NormalPlan(DatedPlan(p, now))
  {
    hide Kept, Trim;
  }

  lemma {:induction false} NormalPlansAreNormal(plans: seq<SubscriptionPlan>, seen: set<string>)
    requires NormalPlans(plans, seen)
    ensures forall i :: 0 <= i < |plans| ==> NormalPlan(plans[i])
  {
    hide NormalPlan;
    if plans != [] { NormalPlansAreNormal(plans[1..], seen + {plans[0].id}); }
  }

  lemma {:induction false} StoredIsNormal(policy: Policy)
    requires Normal(policy)
    ensures Normal(Policy(StoredKeys(policy.keys), StoredPlans(policy.plans)))
  {
    hide Kept, Trim, StoredTime;
  }

  /** Normal rows, in any order, are their own normalization. */
  lemma {:induction false} NormalIsFixed(policy: Policy, rows: seq<KeyConfig>, planRows: seq<SubscriptionPlan>)
    requires Normal(policy)
    requires IsTable(policy.keys, rows) && Distinct(rows) && IsPlanTable(policy.plans, planRows) && DistinctPlans(planRows)
    ensures NormalizeAll(rows, planRows, []) == Ok(Normalized(rows, planRows))
  {
    hide NormalKey, NormalPlan, NormalizeKeys, NormalizePlans;
    RowsByIndex(policy.keys, rows);
    PlanRowsByIndex(policy.plans, planRows);
    NormalRowsAreKeys(rows, {});
    NormalRowsArePlans(planRows, {});
    NormalKeysAreFixed(rows, {});
    NormalPlansAreFixed(planRows, {});
    assert AliasTable([]) == map[];
  }

  lemma {:induction false} PlanRowsByIndex(plans: Plans, rows: seq<SubscriptionPlan>)
    requires IsPlanTable(plans, rows) && DistinctPlans(rows)
    ensures forall i :: 0 <= i < |rows| ==> rows[i].id in plans && plans[rows[i].id] == rows[i]
  {
    forall i | 0 <= i < |rows| ensures rows[i].id in plans && plans[rows[i].id] == rows[i] {
      assert rows[i] in rows;
      var j :| 0 <= j < |rows| && rows[j] == plans[rows[i].id];
    }
  }

  lemma {:induction false} NormalRowsAreKeys(rows: seq<KeyConfig>, seen: set<string>)
    requires (forall i :: 0 <= i < |rows| ==> NormalKey(rows[i]) && rows[i].id !in seen) && Distinct(rows)
    ensures NormalKeys(rows, seen)
  {
    hide NormalKey;
    if rows != [] { NormalRowsAreKeys(rows[1..], seen + {rows[0].id}); }
  }

  lemma {:induction false} NormalRowsArePlans(rows: seq<SubscriptionPlan>, seen: set<string>)
    requires (forall i :: 0 <= i < |rows| ==> NormalPlan(rows[i]) && rows[i].id !in seen) && DistinctPlans(rows)
    ensures NormalPlans(rows, seen)
  {
    hide NormalPlan;
    if rows != [] { NormalRowsArePlans(rows[1..], seen + {rows[0].id}); }
  }

  /** A policy after it was saved and loaded again: stored form, with missing times filled in from the clock. */
  function Reopened(saved: Policy, clock: int): Policy {
    Policy(DatedKeyTable(StoredKeys(saved.keys), clock), DatedPlanTable(StoredPlans(saved.plans), clock))
  }

  function DatedKeyTable(keys: Keys, now: int): Keys { map id | id in keys :: DatedKey(keys[id], now) }

  function DatedPlanTable(plans: Plans, now: int): Plans { map id | id in plans :: DatedPlan(plans[id], now) }

  lemma {:induction false} DatingATable(keys: Keys, plans: Plans, rows: seq<KeyConfig>, planRows: seq<SubscriptionPlan>, now: int)
    requires IsTable(keys, rows) && Distinct(rows) && IsPlanTable(plans, planRows) && DistinctPlans(planRows)
    ensures IsTable(DatedKeyTable(keys, now), DatedKeys(rows, now)) && Distinct(DatedKeys(rows, now))
    ensures IsPlanTable(DatedPlanTable(plans, now), DatedPlans(planRows, now)) && DistinctPlans(DatedPlans(planRows, now))
  {
    DatedKeysAre(rows, now);
    DatedPlansAre(planRows, now);
    hide DatedKeys, DatedPlans;
    RowsByIndex(keys, rows);
    MappedTable(keys, rows, DatedKeyTable(keys, now), DatedKeys(rows, now));
    PlanRowsByIndex(plans, planRows);
    DatingPlans(plans, planRows, now);
  }

  lemma {:induction false} DatingPlans(plans: Plans, rows: seq<SubscriptionPlan>, now: int)
    requires IsPlanTable(plans, rows) && DistinctPlans(rows)
    ensures IsPlanTable(DatedPlanTable(plans, now), DatedPlans(rows, now)) && DistinctPlans(DatedPlans(rows, now))
  {
    DatedPlansAre(rows, now);
    hide DatedPlans;
    PlanRowsByIndex(plans, rows);
    forall id | id in plans ensures DatedPlan(plans[id], now) in DatedPlans(rows, now) {
      var i :| 0 <= i < |rows| && rows[i] == plans[id];
      assert DatedPlans(rows, now)[i] == DatedPlan(plans[id], now);
    }
  }

  /**
   Opening a file that holds a saved policy loads, whatever the order in which the rows are read, exactly the stored
   form of that policy, with missing times filled in.
   */
  lemma {:induction false} ReopeningGivesStoredForm(saved: Policy, rows: seq<KeyConfig>, planRows: seq<SubscriptionPlan>,
                                                    clock: int, policy: Policy)
    requires Normal(saved)
    requires IsTable(StoredKeys(saved.keys), rows) && Distinct(rows)
    requires IsPlanTable(StoredPlans(saved.plans), planRows) && DistinctPlans(planRows)
    ensures Loadable(StoredKeys(saved.keys), StoredPlans(saved.plans))
    ensures Established(rows, planRows, clock, policy) <==> policy == Reopened(saved, clock)
  {
    hide NormalizeAll, IsTable, IsPlanTable, Distinct, DistinctPlans, Loadable, StoredKeys, StoredPlans, Normal;
    var keys, plans := StoredKeys(saved.keys), StoredPlans(saved.plans);
    StoredIsNormal(saved);
    NormalIsFixed(Policy(keys, plans), rows, planRows);
    LoadableIff(keys, plans, rows, planRows);
    DatingATable(keys, plans, rows, planRows, clock);
    if Established(rows, planRows, clock, policy) {
      TableIsUnique(policy.keys, DatedKeyTable(keys, clock), DatedKeys(rows, clock));
      PlanTableIsUnique(policy.plans, DatedPlanTable(plans, clock), DatedPlans(planRows, clock));
    }
  }

  /** Every time of every key and plan is a whole millisecond, and none but the absent one reads as "no time". */
  ghost predicate AllLast(policy: Policy) {
    && (forall id :: id in policy.keys ==> Lasts(policy.keys[id].createdAt) && Lasts(policy.keys[id].updatedAt))
    && (forall id :: id in policy.plans ==> && Lasts(policy.plans[id].createdAt) && Lasts(policy.plans[id].updatedAt)
                                            && Lasts(policy.plans[id].expiresAt))
  }

  /** Both times come back, the forgotten ones because the clock happens to replace them by themselves. */
  predicate ComesBack(created: int, updated: int, clock: int) {
    && (Lasts(created) || (Vanishes(created) && created == clock))
    && (Lasts(updated) || (Vanishes(updated) && updated == created))
  }

  lemma {:induction false} KeyComesBackIff(k: KeyConfig, clock: int)
    requires NormalKey(k) && k.createdAt != 0 && k.updatedAt != 0
    ensures DatedKey(StoredKey(k), clock) == k <==> ComesBack(k.createdAt, k.updatedAt, clock)
  {
    hide Kept, Trim, StoredTime;
    StoredTimeIs(k.createdAt);
    StoredTimeIs(k.updatedAt);
  }

  lemma {:induction false} PlanComesBackIff(p: SubscriptionPlan, clock: int)
    requires p.createdAt != 0 && p.updatedAt != 0
    ensures DatedPlan(StoredPlan(p), clock) == p <==> ComesBack(p.createdAt, p.updatedAt, clock) && Lasts(p.expiresAt)
  {
    hide StoredTime;
    StoredTimeIs(p.createdAt);
    StoredTimeIs(p.updatedAt);
    StoredTimeIs(p.expiresAt);
  }

  /**
   The loaded policy is the published one if and only if all of its times last; only a clock that stands in a
   millisecond that reads as "no time" can restore a creation time that does not.
   */
  lemma {:induction false} ReopeningChangesNothingIff(saved: Policy, clock: int)
    requires Settled(saved)
    ensures Reopened(saved, clock) == saved <==>
              && (forall id :: id in saved.keys ==> ComesBack(saved.keys[id].createdAt, saved.keys[id].updatedAt, clock))
              && (forall id :: id in saved.plans ==>
                    ComesBack(saved.plans[id].createdAt, saved.plans[id].updatedAt, clock) && Lasts(saved.plans[id].expiresAt))
    ensures AllLast(saved) ==> Reopened(saved, clock) == saved
    ensures !Vanishes(clock) ==> (Reopened(saved, clock) == saved <==> AllLast(saved))
  {
    hide NormalKey, NormalPlan, StoredTime, DatedKey, DatedPlan, StoredKey, StoredPlan;
    var r := Reopened(saved, clock);
    forall id | id in saved.keys ensures r.keys[id] == saved.keys[id]
                                         <==> ComesBack(saved.keys[id].createdAt, saved.keys[id].updatedAt, clock) {
      KeyComesBackIff(saved.keys[id], clock);
    }
    forall id | id in saved.plans ensures r.plans[id] == saved.plans[id]
                                          <==> ComesBack(saved.plans[id].createdAt, saved.plans[id].updatedAt, clock)
                                               && Lasts(saved.plans[id].expiresAt) {
      PlanComesBackIff(saved.plans[id], clock);
    }
    assert r == saved <==> r.keys == saved.keys && r.plans == saved.plans;
    assert r.keys.Keys == saved.keys.Keys && r.plans.Keys == saved.plans.Keys;
  }

  /** If no creation time is forgotten, opening the file again and again changes nothing more. */
  lemma {:induction false} ReopeningAgainChangesNothing(saved: Policy, clock: int, again: int)
    requires Settled(saved)
    requires forall id :: id in saved.keys ==> !Vanishes(saved.keys[id].createdAt)
    requires forall id :: id in saved.plans ==> !Vanishes(saved.plans[id].createdAt)
    ensures Settled(Reopened(saved, clock))
    ensures Reopened(Reopened(saved, clock), again) == Reopened(saved, clock)
  {
    hide NormalKey, NormalPlan, StoredTime, Reopened;
    ReopenedIsSettled(saved, clock);
    ReopenedLasts(saved, clock);
    ReopeningChangesNothingIff(Reopened(saved, clock), again);
  }

  lemma {:induction false} ReopenedIsSettled(saved: Policy, clock: int)
    requires Settled(saved)
    requires forall id :: id in saved.keys ==> !Vanishes(saved.keys[id].createdAt)
    requires forall id :: id in saved.plans ==> !Vanishes(saved.plans[id].createdAt)
    ensures Settled(Reopened(saved, clock))
  {
    hide NormalKey, NormalPlan, StoredTime;
    StoredIsNormal(saved);
    forall id | id in saved.keys
      ensures var k := Reopened(saved, clock).keys[id]; NormalKey(k) && k.createdAt != 0 && k.updatedAt != 0
    {
      StoredTimeIs(saved.keys[id].createdAt);
      DatedKeyIsNormal(StoredKeys(saved.keys)[id], clock);
    }
    forall id | id in saved.plans
      ensures var p := Reopened(saved, clock).plans[id]; NormalPlan(p) && p.createdAt != 0 && p.updatedAt != 0
    {
      StoredTimeIs(saved.plans[id].createdAt);
      DatedPlanIsNormal(StoredPlans(saved.plans)[id], clock);
    }
  }

  lemma {:induction false} ReopenedLasts(saved: Policy, clock: int)
    requires Settled(saved)
    requires forall id :: id in saved.keys ==> !Vanishes(saved.keys[id].createdAt)
    requires forall id :: id in saved.plans ==> !Vanishes(saved.plans[id].createdAt)
    ensures AllLast(Reopened(saved, clock))
  {
    hide NormalKey, NormalPlan, StoredTime, Lasts;
    forall id | id in saved.keys
      ensures Lasts(Reopened(saved, clock).keys[id].createdAt) && Lasts(Reopened(saved, clock).keys[id].updatedAt)
    {
      StoredTimeIs(saved.keys[id].createdAt);
      StoredTimeIs(saved.keys[id].updatedAt);
    }
    forall id | id in saved.plans
      ensures Lasts(Reopened(saved, clock).plans[id].createdAt) && Lasts(Reopened(saved, clock).plans[id].updatedAt)
      ensures Lasts(Reopened(saved, clock).plans[id].expiresAt)
    {
      StoredTimeIs(saved.plans[id].createdAt);
      StoredTimeIs(saved.plans[id].updatedAt);
      StoredTimeIs(saved.plans[id].expiresAt);
    }
  }

  // ---------- expiry across a restart ----------

  /** `authorize` refuses an effective key from its expiry on; no expiry means never. */
  predicate SubscriptionExpired(key: KeyConfig, at: int) { key.expiresAt != 0 && at >= key.expiresAt }

  /**
   A key that has expired is still expired after its file is opened again, at every instant, if and only if its expiry
   does not read as "no time"; and no key expires a full millisecond before its time.
   */
  lemma {:induction false} ExpirySurvivesIff(saved: Policy, clock: int, id: string)
    requires Normal(saved) && id in saved.keys
    ensures var key, key' := Effective(saved.keys[id], saved.plans),
                             Effective(Reopened(saved, clock).keys[id], Reopened(saved, clock).plans);
            && ((forall at :: SubscriptionExpired(key, at) ==> SubscriptionExpired(key', at)) <==> !Vanishes(key.expiresAt))
            && (Vanishes(key.expiresAt) ==> forall at :: !SubscriptionExpired(key', at))
            && (forall at :: SubscriptionExpired(key', at) ==> SubscriptionExpired(key, at + MILLISECOND - 1))
  {
    var key, key' := Effective(saved.keys[id], saved.plans),
                     Effective(Reopened(saved, clock).keys[id], Reopened(saved, clock).plans);
    EffectiveExpiry(saved, clock, id);
    StoredTimeIs(key.expiresAt);
    hide StoredTime, Effective, Normal, Reopened;
    if Vanishes(key.expiresAt) { assert SubscriptionExpired(key, key.expiresAt); }
  }

  lemma {:induction false} EffectiveExpiry(saved: Policy, clock: int, id: string)
    requires Normal(saved) && id in saved.keys
    ensures Effective(Reopened(saved, clock).keys[id], Reopened(saved, clock).plans).expiresAt
         == StoredTime(Effective(saved.keys[id], saved.plans).expiresAt)
  {
    hide Kept, Trim, NormalPlan;
    StoredTimeIs(0);
  }

  const EPOCH_PLAN := SubscriptionPlan("p", "p", 0, [], false, 0.0, 0.0, EPOCH, 0, 0)

  const EPOCH_KEY := KeyConfig("k", "k", true, "", "", 0, [], false, 0.0, 0.0, "p", 0, 0, 0, [])

  lemma {:induction false} EpochRowsAreNormal()
    ensures NormalKey(EPOCH_KEY) && NormalPlan(EPOCH_PLAN)
    ensures NormalizeAll([EPOCH_KEY], [EPOCH_PLAN], []) == Ok(Normalized([EPOCH_KEY], [EPOCH_PLAN]))
  {
    assert Trim("k") == "k" && Trim("p") == "p" && Trim("") == "";
    assert NormalKey(EPOCH_KEY) && NormalPlan(EPOCH_PLAN);
    hide NormalKey, NormalPlan, Trim, NormalizeKeys, NormalizePlans;
    NormalKeysAreFixed([EPOCH_KEY], {});
    NormalPlansAreFixed([EPOCH_PLAN], {});
    assert AliasTable([]) == map[];
  }

  lemma {:induction false} EpochPolicy(now: int, saved: Policy)
    requires Describes(Normalized([EPOCH_KEY], [EPOCH_PLAN]), now, saved)
    ensures Normal(saved) && "k" in saved.keys && Effective(saved.keys["k"], saved.plans).expiresAt == EPOCH
  {
    EpochRowsAreNormal();
    DatedKeysAre([EPOCH_KEY], now);
    DatedPlansAre([EPOCH_PLAN], now);
    DatedKeyIsNormal(EPOCH_KEY, now);
    DatedPlanIsNormal(EPOCH_PLAN, now);
    assert Trim("p") == "p";
    hide NormalKey, NormalPlan, Trim, DatedKeys, DatedPlans;
    assert DatedKeys([EPOCH_KEY], now)[0].id == "k" && DatedPlans([EPOCH_PLAN], now)[0].id == "p";
  }

  /** A subscription that ended at 1970-01-01T00:00:00Z has expired while the store runs, and never does after a restart. */
  lemma {:induction false} Expiry1970IsForgotten(now: int, saved: Policy, clock: int, at: int)
    requires Describes(Normalized([EPOCH_KEY], [EPOCH_PLAN]), now, saved)
    ensures NormalizeAll([EPOCH_KEY], [EPOCH_PLAN], []) == Ok(Normalized([EPOCH_KEY], [EPOCH_PLAN]))
    ensures Normal(saved) && "k" in saved.keys
    ensures SubscriptionExpired(Effective(saved.keys["k"], saved.plans), at) <==> at >= EPOCH
    ensures !SubscriptionExpired(Effective(Reopened(saved, clock).keys["k"], Reopened(saved, clock).plans), at)
  {
    EpochRowsAreNormal();
    EpochPolicy(now, saved);
    ExpirySurvivesIff(saved, clock, "k");
  }

  /** What is to be configured: the file's rows if the file is known, else the caller's normalized configuration. */
  ghost predicate Chosen(known: bool, keys: Keys, plans: Plans, given: Normalized, rows: seq<KeyConfig>, planRows: seq<SubscriptionPlan>) {
    if known then IsTable(keys, rows) && Distinct(rows) && IsPlanTable(plans, planRows) && DistinctPlans(planRows)
    else rows == given.keys && planRows == given.plans
  }

  /**
   On success memory, index and the new file agree on the dated, normalized configuration of the file (or, for a new
   file, of the caller), and the previous database is closed; on any error the store is as it was.
   */
  method Configure(store: Store, config: Config, file: StateFile, known: bool, now: int, luck: Luck)
    returns (result: Result<(), StoreError>)
    requires store.Valid() && Filed(file.keys, file.plans) && file != store.database
    modifies store`keys, store`keysByHash, store`plans, store`database, store.database, config, file
    ensures store.Valid()
    ensures result.Err? ==> store.Untouched() && (store.database != null ==> store.database.open == old(store.database.open))
    ensures result.Ok? ==>
              && old(NormalizeAll(config.keys, config.plans, config.aliases)).Ok? && luck.Good()
              && store.database == file && file.open && store.Saved()
              && (old(store.database) != null ==> !old(store.database).open)
    ensures result.Ok? ==>
              exists rows, planRows ::
                && Chosen(known, old(file.keys), old(file.plans), old(NormalizeAll(config.keys, config.plans, config.aliases)).value,
                          rows, planRows)
                && Established(rows, planRows, now, store.Current())
    ensures !known ==>
              var n := old(NormalizeAll(config.keys, config.plans, config.aliases));
              (result.Ok? <==> n.Ok? && luck.Good()) && (result.Ok? ==> Describes(n.value, now, store.Current()))
    ensures known && result.Ok? ==>
              forall saved :: Normal(saved) && old(file.keys) == StoredKeys(saved.keys) && old(file.plans) == StoredPlans(saved.plans)
                              ==> store.Current() == Reopened(saved, now)
    ensures known ==>
              (result.Ok? <==> old(NormalizeAll(config.keys, config.plans, config.aliases)).Ok? && luck.Good()
                               && Loadable(old(file.keys), old(file.plans)))
  {
    hide NormalizeAll, IsTable, IsPlanTable, Distinct, DistinctPlans, Stored, Describes, Loadable;
    hide Store.Valid, Store.Saved, Store.Current, Normal, Reopened, StoredKeys, StoredPlans;
    ghost var given := NormalizeAll(config.keys, config.plans, config.aliases);
    var normalized := Normalize(config);
    if normalized.Err? { return Err(Invalid(normalized.error)); }
    NormalizeAllIsIdempotent(old(config.keys), old(config.plans), old(config.aliases));
    if !luck.flushes || !luck.opens { return Err(NotSaved); }
    var keys, plans := config.keys, config.plans;
    if known {
      keys := KeysInOrder(file.keys);
      plans := PlansInOrder(file.plans);
      LoadableIff(file.keys, file.plans, keys, plans);
    }
    var policy;
    result, policy := Load(store, file, keys, plans, now, luck);
    if result.Ok? {
      assert Chosen(known, old(file.keys), old(file.plans), given.value, keys, plans);
      assert Established(keys, plans, now, store.Current());
      if known { LoadedIsReopened(old(file.keys), old(file.plans), keys, plans, now, store.Current()); }
    }
  }

  lemma {:induction false} LoadedIsReopened(keys: Keys, plans: Plans, rows: seq<KeyConfig>, planRows: seq<SubscriptionPlan>,
                                            now: int, policy: Policy)
    requires IsTable(keys, rows) && Distinct(rows) && IsPlanTable(plans, planRows) && DistinctPlans(planRows)
    requires Established(rows, planRows, now, policy)
    ensures forall saved :: Normal(saved) && keys == StoredKeys(saved.keys) && plans == StoredPlans(saved.plans)
                            ==> policy == Reopened(saved, now)
  {
    hide Normal, IsTable, IsPlanTable, Distinct, DistinctPlans, Established, Reopened, StoredKeys, StoredPlans;
    forall saved | Normal(saved) && keys == StoredKeys(saved.keys) && plans == StoredPlans(saved.plans)
      ensures policy == Reopened(saved, now)
    {
      ReopeningGivesStoredForm(saved, rows, planRows, now, policy);
    }
  }

  /** A configured key in the running store: its own policy and identity, and its times unless they were missing. */
  ghost predicate RunsAs(key: KeyConfig, raw: KeyConfig, now: int) {
    && KeyComesFrom(key.(createdAt := raw.createdAt, updatedAt := raw.updatedAt), raw)
    && key.createdAt == (if raw.createdAt != 0 then raw.createdAt else now)
    && key.updatedAt == (if raw.updatedAt != 0 then raw.updatedAt else key.createdAt)
  }

  ghost predicate PlanRunsAs(plan: SubscriptionPlan, raw: SubscriptionPlan, now: int) {
    && PlanComesFrom(plan.(createdAt := raw.createdAt, updatedAt := raw.updatedAt), raw)
    && plan.createdAt == (if raw.createdAt != 0 then raw.createdAt else now)
    && plan.updatedAt == (if raw.updatedAt != 0 then raw.updatedAt else plan.createdAt)
  }

  /** From the caller's list to the running store: every configured key is there and answers like its raw rules. */
  lemma {:induction false} ConfiguredKeysAnswer(keys: seq<KeyConfig>, plans: seq<SubscriptionPlan>, aliases: seq<AliasMapping>,
                                                now: int, policy: Policy, i: nat, model: string)
    requires NormalizeAll(keys, plans, aliases).Ok? && i < |keys|
    requires Describes(NormalizeAll(keys, plans, aliases).value, now, policy)
    ensures var id := Trim(keys[i].id);
            && id in policy.keys && RunsAs(policy.keys[id], keys[i], now)
            && (if Trim(model) == "" then ModelRuleFor(policy.keys[id].models, model) == None
                else AnswersFrom(ModelRuleFor(policy.keys[id].models, model), RawRules(keys[i], AliasTable(aliases)), Fold(Trim(model))))
  {
    hide NormalizeAll, ModelRuleFor, NormalForm, RawMatch, RawRules, Distinct, AnswersFrom, Trim;
    var n := NormalizeAll(keys, plans, aliases).value;
    LookupIsPreserved(keys, plans, aliases, i, model);
    PoliciesAreKept(keys, plans, aliases);
    NormalizedRows(keys, plans, aliases, now);
    DatedKeysAre(n.keys, now);
    var dated := DatedKeys(n.keys, now);
    assert dated[i] in dated;
    RowOfId(policy.keys, dated, i);
  }

  /** And so is every configured plan. */
  lemma {:induction false} ConfiguredPlansAnswer(keys: seq<KeyConfig>, plans: seq<SubscriptionPlan>, aliases: seq<AliasMapping>,
                                                 now: int, policy: Policy, i: nat, model: string)
    requires NormalizeAll(keys, plans, aliases).Ok? && i < |plans|
    requires Describes(NormalizeAll(keys, plans, aliases).value, now, policy)
    ensures var id := Trim(plans[i].id);
            && id in policy.plans && PlanRunsAs(policy.plans[id], plans[i], now)
            && (if Trim(model) == "" then ModelRuleFor(policy.plans[id].models, model) == None
                else AnswersFrom(ModelRuleFor(policy.plans[id].models, model), plans[i].models, Fold(Trim(model))))
  {
    hide NormalizeKeys, NormalizePlans, ModelRuleFor, NormalForm, RawMatch, DistinctPlans, AnswersFrom, Trim;
    var n := NormalizeAll(keys, plans, aliases).value;
    PlanLookups(plans, {}, i, model);
    PoliciesAreKept(keys, plans, aliases);
    NormalizedRows(keys, plans, aliases, now);
    DatedPlansAre(n.plans, now);
    var dated := DatedPlans(n.plans, now);
    assert dated[i] in dated;
    PlanRowsByIndex(policy.plans, dated);
  }

  lemma {:induction false} PlanLookups(plans: seq<SubscriptionPlan>, seen: set<string>, i: nat, model: string)
    requires NormalizePlans(plans, seen).Ok? && i < |plans|
    ensures var ps := NormalizePlans(plans, seen).value;
            && |ps| == |plans|
            && (if Trim(model) == "" then ModelRuleFor(ps[i].models, model) == None
                else AnswersFrom(ModelRuleFor(ps[i].models, model), plans[i].models, Fold(Trim(model))))
  {
    hide NormalizePlan, ModelRuleFor, AnswersFrom, NormalForm, RawMatch, Trim, NormalPlan;
    NormalizedPlan(plans[0], model);
    NormalizedPlans(plans, seen);
    if i > 0 { PlanLookups(plans[1..], seen + {NormalizePlan(plans[0]).value.id}, i - 1, model); }
  }

  /** The normalized, dated form of some rows. */
  ghost predicate Established(rows: seq<KeyConfig>, planRows: seq<SubscriptionPlan>, now: int, policy: Policy) {
    NormalizeAll(rows, planRows, []).Ok? && Describes(NormalizeAll(rows, planRows, []).value, now, policy)
  }

  /** Normalizes, dates, saves and publishes the chosen rows. */
  method Load(store: Store, file: StateFile, keys: seq<KeyConfig>, plans: seq<SubscriptionPlan>, now: int, luck: Luck)
    returns (result: Result<(), StoreError>, policy: Policy)
    requires store.Valid() && file != store.database
    modifies store`keys, store`keysByHash, store`plans, store`database, store.database, file
    ensures store.Valid()
    ensures result.Ok? <==> NormalizeAll(keys, plans, []).Ok? && luck.commits && luck.backfills
    ensures result.Err? ==> store.Untouched() && (store.database != null ==> store.database.open == old(store.database.open))
    ensures result.Ok? ==>
              && store.Current() == policy && Describes(NormalizeAll(keys, plans, []).value, now, policy)
              && store.database == file && file.open && store.Saved()
              && (old(store.database) != null ==> !old(store.database).open)
  {
    hide NormalizeAll, IsTable, IsPlanTable, Distinct, DistinctPlans, Stored;
    hide Store.Valid, Store.Saved, Store.Current;
    file.open, policy := true, Policy(map[], map[]);
    var prepared := Prepare(keys, plans, now);
    if prepared.Err? {
      file.open := false;
      return Err(Invalid(prepared.error)), policy;
    }
    policy := prepared.value;
    var saved := PublishInto(store, file, policy.keys, policy.plans, luck);
    result := if saved then Ok(()) else Err(NotSaved);
  }

  /** The normalized and dated tables. */
  method Prepare(keys: seq<KeyConfig>, plans: seq<SubscriptionPlan>, now: int) returns (result: Result<Policy, ConfigError>)
    ensures result.Ok? <==> NormalizeAll(keys, plans, []).Ok?
    ensures result.Ok? ==>
              && Describes(NormalizeAll(keys, plans, []).value, now, result.value)
              && Filed(result.value.keys, result.value.plans)
              && forall id :: id in result.value.keys ==> Stored(result.value.keys[id])
  {
    hide NormalizeAll, IsTable, IsPlanTable, Distinct, DistinctPlans, Stored;
    var loaded := new Config(true, "", keys, plans, []);
    var checked := Normalize(loaded);
    if checked.Err? { return Err(checked.error); }
    NormalizedRows(keys, plans, [], now);
    var table := PrepareKeys(loaded.keys, now);
    var nextPlans := PreparePlans(loaded.plans, now);
    FiledRows(table, nextPlans, loaded.keys, loaded.plans, now);
    return Ok(Policy(table, nextPlans));
  }

  lemma {:induction false} FiledRows(table: Keys, nextPlans: Plans, keys: seq<KeyConfig>, plans: seq<SubscriptionPlan>, now: int)
    requires IsTable(table, DatedKeys(keys, now)) && IsPlanTable(nextPlans, DatedPlans(plans, now))
    requires forall r :: r in DatedKeys(keys, now) ==> Stored(r)
    ensures Filed(table, nextPlans) && forall id :: id in table ==> Stored(table[id])
  {
  }

  /** Saves the prepared configuration into the new file, then swaps. */
  method PublishInto(store: Store, file: StateFile, table: Keys, nextPlans: Plans, luck: Luck) returns (ok: bool)
    requires store.Valid() && file != store.database && file.open && Filed(table, nextPlans)
    requires forall id :: id in table ==> Stored(table[id])
    modifies store`keys, store`keysByHash, store`plans, store`database, store.database, file
    ensures store.Valid() && ok == (luck.commits && luck.backfills)
    ensures !ok ==> store.Untouched() && (store.database != null ==> store.database.open == old(store.database.open))
    ensures ok ==> store.Current() == Policy(table, nextPlans) && store.database == file && file.open && store.Saved()
    ensures ok && old(store.database) != null ==> !old(store.database).open
  {
    hide IndexOf, Distinct, IsTable, Stored, StoredKeys, StoredPlans;
    var rows;
    ok, rows := WriteInto(file, table, nextPlans, luck);
    if ok {
      store.Replace(rows, nextPlans, table);
      SwapDatabase(store, file, table);
    }
  }

  /** Saves the prepared tables into the new file, which is closed if that or the backfill fails. */
  method WriteInto(file: StateFile, table: Keys, nextPlans: Plans, luck: Luck) returns (ok: bool, rows: seq<KeyConfig>)
    requires file.open && Filed(table, nextPlans) && forall id :: id in table ==> Stored(table[id])
    modifies file
    ensures file.open == ok == (luck.commits && luck.backfills)
    ensures ok ==> file.keys == StoredKeys(table) && file.plans == StoredPlans(nextPlans)
    ensures IsTable(table, rows) && Distinct(rows) && forall r :: r in rows ==> Stored(r)
  {
    hide Distinct, IsTable, Stored, StoredKeys, StoredPlans;
    rows := KeysInOrder(table);
    StoredTable(table, rows);
    var saved := file.SaveTables(rows, nextPlans, table, luck.commits);
    ok := saved && luck.backfills;
    file.open := ok;
  }

  lemma {:induction false} StoredTable(table: Keys, rows: seq<KeyConfig>)
    requires IsTable(table, rows) && Distinct(rows) && forall id :: id in table ==> Stored(table[id])
    ensures forall r :: r in rows ==> Stored(r)
  {
    RowsByIndex(table, rows);
  }

  /** The new database replaces the previous one, which is closed. */
  method SwapDatabase(store: Store, file: StateFile, ghost table: Keys)
    requires store.Valid() && store.Rows() == table && file != store.database
    modifies store`database, store.database
    ensures store.Valid() && store.Rows() == table && store.database == file
    ensures file.open == old(file.open) && file.keys == old(file.keys) && file.plans == old(file.plans)
    ensures old(store.database) != null ==> !old(store.database).open
  {
    hide IndexOf, Stored;
    var previous := store.database;
    store.database := file;
    if previous != null { previous.open := false; }
    assert store.Rows() == table;
  }
}
