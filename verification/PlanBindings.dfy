/**
 What key and plan operations mean for the configuration as a value: which keys are bound to which plan,
 what a bound key's effective policy is, and what no operation changes
 (internal/policy/store_subscription_plans.go).
 */
module PlanBindings {
  import opened Wrappers
  import opened Strings
  import opened PolicyConfig

  type Keys = map<string, KeyConfig>
  type Plans = map<string, SubscriptionPlan>

  /** `effectiveKeyLocked`: a known plan's policy replaces the key's own. */
  function Effective(key: KeyConfig, plans: Plans): KeyConfig {
    if Trim(key.planId) == "" || key.planId !in plans then key
    else
      var p := plans[key.planId];
      key.(rpm := p.rpm, models := p.models, allowModels := p.allowModels, dailyLimit := p.dailyLimit,
           weeklyLimit := p.weeklyLimit, expiresAt := p.expiresAt)
  }

  /**
   `answer` is the key as its plan has it: a known plan's rate, models, budgets and expiry, each in its own place, on the
   key's own identity; and simply the key if it is unbound or its plan is unknown.
   */
  ghost predicate AnswersFor(answer: KeyConfig, key: KeyConfig, plans: Plans) {
    if Trim(key.planId) == "" || key.planId !in plans then answer == key
    else
      var p := plans[key.planId];
      && answer.rpm == p.rpm && answer.models == p.models && answer.allowModels == p.allowModels
      && answer.dailyLimit == p.dailyLimit && answer.weeklyLimit == p.weeklyLimit && answer.expiresAt == p.expiresAt
      && answer.id == key.id && answer.name == key.name && answer.enabled == key.enabled
      && answer.keyHash == key.keyHash && answer.keyPreview == key.keyPreview && answer.planId == key.planId
      && answer.createdAt == key.createdAt && answer.updatedAt == key.updatedAt && answer.aliases == key.aliases
  }

  /** There is one such answer. */
  lemma {:induction false} EffectiveAnswers(answer: KeyConfig, key: KeyConfig, plans: Plans)
    ensures AnswersFor(answer, key, plans) <==> answer == Effective(key, plans)
  {
    hide Trim;
  }

  /** The key with its binding and modification time left out. */
  function Own(key: KeyConfig): KeyConfig { key.(planId := "", updatedAt := 0) }

  /** One key's binding when `selected` says whether it belongs to the plan's submitted set. */
  function Rebind(key: KeyConfig, plan: string, selected: bool, now: int): KeyConfig {
    var kept := if key.planId == plan && !selected then key.(planId := "", updatedAt := now) else key;
    if selected && kept.planId == "" then kept.(planId := plan, updatedAt := now) else kept
  }

  function RebindAll(keys: Keys, plan: string, selected: set<string>, now: int): Keys {
    map id | id in keys :: Rebind(keys[id], plan, id in selected, now)
  }

  function Unbind(key: KeyConfig, plan: string, now: int): KeyConfig {
    if key.planId == plan then key.(planId := "", updatedAt := now) else key
  }

  function UnbindAll(keys: Keys, plan: string, now: int): Keys {
    map id | id in keys :: Unbind(keys[id], plan, now)
  }

  function BoundTo(keys: Keys, plan: string): set<string> { set id | id in keys && keys[id].planId == plan }

  /** Every selected id is a key that is unbound or already bound to the plan. */
  predicate Bindable(keys: Keys, plan: string, selected: set<string>) {
    forall id :: id in selected ==> id in keys && (keys[id].planId == "" || keys[id].planId == plan)
  }

  /** The trimmed, non-empty ids of a submitted list. */
  function Selected(ids: seq<string>): set<string> { set id | id in ids && Trim(id) != "" :: Trim(id) }

  /** After a rebind the plan has exactly the submitted keys, and no key of another plan or of none outside them changed. */
  lemma {:induction false} RebindIsExact(keys: Keys, plan: string, selected: set<string>, now: int)
    requires plan != "" && Bindable(keys, plan, selected)
    ensures var keys' := RebindAll(keys, plan, selected, now);
            && BoundTo(keys', plan) == selected
            && (forall id :: id in keys && id !in selected && keys[id].planId != plan ==> keys'[id] == keys[id])
            && (forall id :: id in keys ==>
                  && Own(keys'[id]) == Own(keys[id])
                  && (if keys'[id].planId == keys[id].planId then keys'[id] == keys[id] else keys'[id].updatedAt == now))
  {
  }

  // ---------- runs of plan operations ----------

  datatype Policy = Policy(keys: Keys, plans: Plans)

  datatype PlanOp =
    | PutPlan(plan: SubscriptionPlan, bound: Option<set<string>>, create: bool)
    | SetBinding(key: string, planId: string)
    | DropPlan(id: string)

  /** What an operation does when it is accepted and saved. */
  function Accepted(p: Policy, op: PlanOp): bool {
    match op
    case PutPlan(plan, bound, create) =>
      plan.id != "" && (create <==> plan.id !in p.plans) && (bound.Some? ==> Bindable(p.keys, plan.id, bound.value))
    case SetBinding(key, planId) => key in p.keys && (planId == "" || planId in p.plans)
    case DropPlan(id) => id != "" && id in p.plans
  }

  function Perform(p: Policy, op: PlanOp, now: int): Policy
    requires Accepted(p, op)
  {
    match op
    case PutPlan(plan, bound, create) =>
      Policy(if bound.Some? then RebindAll(p.keys, plan.id, bound.value, now) else p.keys, p.plans[plan.id := plan])
    case SetBinding(key, planId) =>
      if p.keys[key].planId == planId then p
      else p.(keys := p.keys[key := p.keys[key].(planId := planId, updatedAt := now)])
    case DropPlan(id) => Policy(UnbindAll(p.keys, id, now), p.plans - {id})
  }

  /** An operation that is refused or cannot be saved (`saved` false) changes nothing. */
  datatype Attempt = Attempt(op: PlanOp, saved: bool, now: int)

  function Try(p: Policy, a: Attempt): Policy {
    if a.saved && Accepted(p, a.op) then Perform(p, a.op, a.now) else p
  }

  function Run(p: Policy, attempts: seq<Attempt>): Policy {
    if attempts == [] then p else Try(Run(p, attempts[..|attempts| - 1]), attempts[|attempts| - 1])
  }

  /** Every binding names an existing plan. */
  predicate NoDangling(p: Policy) {
    forall id :: id in p.keys && p.keys[id].planId != "" ==> p.keys[id].planId in p.plans
  }

  /** The same keys, with the same policies of their own, and no new dangling binding. */
  predicate Conserves(p: Policy, p': Policy) {
    && p'.keys.Keys == p.keys.Keys
    && (forall id :: id in p.keys ==> Own(p'.keys[id]) == Own(p.keys[id]))
    && (NoDangling(p) ==> NoDangling(p'))
  }

  lemma {:induction false} PutConserves(p: Policy, plan: SubscriptionPlan, bound: Option<set<string>>, create: bool, now: int)
    requires Accepted(p, PutPlan(plan, bound, create))
    ensures Conserves(p, Perform(p, PutPlan(plan, bound, create), now))
  {
  }

  lemma {:induction false} BindConserves(p: Policy, key: string, planId: string, now: int)
    requires Accepted(p, SetBinding(key, planId))
    ensures Conserves(p, Perform(p, SetBinding(key, planId), now))
  {
  }

  lemma {:induction false} DropConserves(p: Policy, id: string, now: int)
    requires Accepted(p, DropPlan(id))
    ensures Conserves(p, Perform(p, DropPlan(id), now))
  {
  }

  lemma {:induction false} TryConserves(p: Policy, a: Attempt)
    ensures Conserves(p, Try(p, a))
  {
    hide Perform, NoDangling;
    if a.saved && Accepted(p, a.op) {
      match a.op {
        case PutPlan(plan, bound, create) => PutConserves(p, plan, bound, create, a.now);
        case SetBinding(key, planId) => BindConserves(p, key, planId, a.now);
        case DropPlan(id) => DropConserves(p, id, a.now);
      }
    }
  }

  /**
   Over any run of plan creations, updates, bindings and deletions, accepted or not: no key appears or
   disappears, every key's own rate limit, models, budgets, hash and enabled flag are unchanged, no
   binding dangles if none did, and a key that ends up unbound has its original policy again.
   */
  lemma {:induction false} PlansConserveKeys(p: Policy, attempts: seq<Attempt>, id: string)
    requires id in p.keys
    ensures var p' := Run(p, attempts);
            && p'.keys.Keys == p.keys.Keys
            && Own(p'.keys[id]) == Own(p.keys[id])
            && (NoDangling(p) ==> NoDangling(p'))
            && (p'.keys[id].planId == "" ==> Own(Effective(p'.keys[id], p'.plans)) == Own(p.keys[id]))
  {
    if attempts != [] {
      PlansConserveKeys(p, attempts[..|attempts| - 1], id);
      TryConserves(Run(p, attempts[..|attempts| - 1]), attempts[|attempts| - 1]);
    }
    assert Trim("") == "";
  }

  /**
   Over any run a key answers, on its original identity, with the rate, models, budgets and expiry of the plan it has come
   to be bound to, as that plan now is, and with the ones it started with if it is bound to none or to an unknown one.
   */
  lemma {:induction false} KeysAnswerForTheirPlan(p: Policy, attempts: seq<Attempt>, id: string)
    requires id in p.keys
    ensures var p', own := Run(p, attempts), p.keys[id];
            && id in p'.keys
            && var key := p'.keys[id];
               && (forall answer :: AnswersFor(answer, key, p'.plans) <==> answer == Effective(key, p'.plans))
               && AnswersFor(Effective(key, p'.plans), own.(planId := key.planId, updatedAt := key.updatedAt), p'.plans)
  {
    PlansConserveKeys(p, attempts, id);
    var p', own := Run(p, attempts), p.keys[id];
    var key := p'.keys[id];
    assert key == own.(planId := key.planId, updatedAt := key.updatedAt) by {
      assert Own(key) == Own(own);
    }
    forall answer ensures AnswersFor(answer, key, p'.plans) <==> answer == Effective(key, p'.plans) {
      EffectiveAnswers(answer, key, p'.plans);
    }
    hide Effective, AnswersFor, Run;
  }

  /** Once a plan is stored, exactly the submitted keys (or, without a list, those bound before) answer with its new values. */
  lemma {:induction false} StoredPlanIsEnforced(p: Policy, plan: SubscriptionPlan, bound: Option<set<string>>, create: bool,
                                                now: int, id: string)
    requires Accepted(p, PutPlan(plan, bound, create)) && Trim(plan.id) == plan.id && id in p.keys
    ensures var p' := Perform(p, PutPlan(plan, bound, create), now);
            && id in p'.keys && plan.id in p'.plans && p'.plans.Keys == p.plans.Keys + {plan.id}
            && (forall other :: other in p.plans && other != plan.id ==> p'.plans[other] == p.plans[other])
            && (p'.keys[id].planId == plan.id <==> if bound.Some? then id in bound.value else p.keys[id].planId == plan.id)
            && (p'.keys[id].planId == plan.id ==>
                  var answer := Effective(p'.keys[id], p'.plans);
                  && answer.rpm == plan.rpm && answer.models == plan.models && answer.allowModels == plan.allowModels
                  && answer.dailyLimit == plan.dailyLimit && answer.weeklyLimit == plan.weeklyLimit
                  && answer.expiresAt == plan.expiresAt)
  {
    hide Trim;
    if bound.Some? { RebindIsExact(p.keys, plan.id, bound.value, now); }
    var p' := Perform(p, PutPlan(plan, bound, create), now);
    EffectiveAnswers(Effective(p'.keys[id], p'.plans), p'.keys[id], p'.plans);
    hide Effective;
  }

  /** Binding one key changes its binding and the time of it, and nothing else. */
  lemma {:induction false} BindingIsExact(p: Policy, key: string, planId: string, now: int)
    requires Accepted(p, SetBinding(key, planId))
    ensures var p' := Perform(p, SetBinding(key, planId), now);
            && p'.plans == p.plans && p'.keys.Keys == p.keys.Keys && p'.keys[key].planId == planId
            && (forall id :: id in p.keys && id != key ==> p'.keys[id] == p.keys[id])
            && Own(p'.keys[key]) == Own(p.keys[key])
            && p'.keys[key].updatedAt == (if p.keys[key].planId == planId then p.keys[key].updatedAt else now)
  {
  }

  /** A dropped plan leaves exactly its keys unbound, and nothing refers to it any more. */
  lemma {:induction false} DropUnbindsItsKeys(p: Policy, id: string, now: int)
    requires Accepted(p, DropPlan(id))
    ensures var p' := Perform(p, DropPlan(id), now);
            && BoundTo(p'.keys, id) == {} && id !in p'.plans
            && (forall k :: k in p.keys ==> if k in BoundTo(p.keys, id) then p'.keys[k] == p.keys[k].(planId := "", updatedAt := now)
                                            else p'.keys[k] == p.keys[k])
            && p'.keys.Keys == p.keys.Keys && p'.plans == p.plans - {id}
  {
  }

  /** Storing one key keeps bindings sound exactly when its own binding is empty or known. */
  lemma {:induction false} UpsertKeyDangles(p: Policy, key: KeyConfig)
    requires NoDangling(p)
    ensures NoDangling(p.(keys := p.keys[key.id := key])) <==> key.planId == "" || key.planId in p.plans
  {
    if NoDangling(p.(keys := p.keys[key.id := key])) {
      assert p.(keys := p.keys[key.id := key]).keys[key.id] == key;
    }
  }
}
