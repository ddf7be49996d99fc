/**
 Policy configuration and its normalization (internal/policy/config.go): trimming, defaults, validation,
 expansion of legacy aliases and first-wins removal of duplicate models.
 */
module PolicyConfig {
  import opened Wrappers
  import opened Strings
  import opened Prices

  datatype ModelRule = ModelRule(
    model: string, inputPrice: real, outputPrice: real, cacheReadPrice: real, billingMode: string, perCallUsd: real,
    alias: string, provider: string, targetModel: string, group: string)

  datatype AliasTarget = AliasTarget(provider: string, targetModel: string, group: string)

  datatype AliasMapping = AliasMapping(
    alias: string, targets: seq<AliasTarget>, dispatch: string, billingMode: string,
    inputPrice: real, outputPrice: real, cacheReadPrice: real, perCallUsd: real)

  datatype KeyAliasRef = KeyAliasRef(
    alias: string, inputPrice: Option<real>, outputPrice: Option<real>, cacheReadPrice: Option<real>,
    perCallUsd: Option<real>)

  datatype KeyConfig = KeyConfig(
    id: string, name: string, enabled: bool, keyHash: string, keyPreview: string,
    rpm: int, models: seq<ModelRule>, allowModels: bool, dailyLimit: real, weeklyLimit: real,
    planId: string, createdAt: int, updatedAt: int, expiresAt: int, aliases: seq<KeyAliasRef>)

  datatype SubscriptionPlan = SubscriptionPlan(
    id: string, name: string, rpm: int, models: seq<ModelRule>, allowModels: bool,
    dailyLimit: real, weeklyLimit: real, expiresAt: int, createdAt: int, updatedAt: int)

  datatype ConfigError =
    | PlanIdRequired
    | DuplicatePlan(id: string)
    | InvalidPlan(id: string, reason: ConfigError)
    | KeyIdRequired
    | DuplicateKey(id: string)
    | NegativeRpm(id: string)
    | NegativeDailyLimit(id: string)
    | NegativeWeeklyLimit(id: string)
    | UnknownAlias(id: string, alias: string)
    | ModelRequired(id: string)
    | InvalidPrice(id: string, model: string)
    | InvalidBillingMode(id: string, model: string)
    | InvalidPerCall(id: string, model: string)

  class Config {
    var enabled: bool
    var stateFile: string
    var keys: seq<KeyConfig>
    var plans: seq<SubscriptionPlan>
    var aliases: seq<AliasMapping>

    constructor (enabled: bool, stateFile: string, keys: seq<KeyConfig>, plans: seq<SubscriptionPlan>, aliases: seq<AliasMapping>)
      ensures this.enabled == enabled && this.stateFile == stateFile
      ensures this.keys == keys && this.plans == plans && this.aliases == aliases
    {
      this.enabled, this.stateFile, this.keys, this.plans, this.aliases := enabled, stateFile, keys, plans, aliases;
    }
  }

  // ---------- one key's rules ----------

  /** The name a rule is listed under: its model, else its legacy target, else its legacy alias. */
  function RawName(r: ModelRule): string {
    if Trim(r.model) != "" then Trim(r.model)
    else if Trim(r.targetModel) != "" then Trim(r.targetModel)
    else Trim(r.alias)
  }

  function NormalBilling(mode: string): Option<string> {
    var m := Fold(Trim(mode));
    if m == "" || m == "tokens" then Some("tokens") else if m == "per_call" then Some("per_call") else None
  }

  predicate PricesOk(r: ModelRule) { r.inputPrice >= 0.0 && r.outputPrice >= 0.0 && r.cacheReadPrice >= 0.0 }

  predicate Sound(r: ModelRule) { PricesOk(r) && NormalBilling(r.billingMode).Some? && r.perCallUsd >= 0.0 }

  function NormalRule(r: ModelRule): ModelRule
    requires Sound(r)
  {
    ModelRule(RawName(r), NormalizePrice(r.inputPrice), NormalizePrice(r.outputPrice), NormalizePrice(r.cacheReadPrice),
              NormalBilling(r.billingMode).value, NormalizePrice(r.perCallUsd), "", "", "", "")
  }

  /** What is wrong with a rule that is about to be kept, if anything. */
  function RuleError(id: string, r: ModelRule): Option<ConfigError> {
    if !PricesOk(r) then Some(InvalidPrice(id, RawName(r)))
    else if NormalBilling(r.billingMode).None? then Some(InvalidBillingMode(id, RawName(r)))
    else if r.perCallUsd < 0.0 then Some(InvalidPerCall(id, RawName(r)))
    else None
  }

  /** The rules kept from `rules` when the folded names in `seen` are already taken. */
  function NormalizeModels(id: string, rules: seq<ModelRule>, seen: set<string>): Result<seq<ModelRule>, ConfigError> {
    if rules == [] then Ok([])
    else
      var r, name := rules[0], RawName(rules[0]);
      if name == "" then Err(ModelRequired(id))
      else if Fold(name) in seen then NormalizeModels(id, rules[1..], seen)
      else if RuleError(id, r).Some? then Err(RuleError(id, r).value)
      else Prepend([NormalRule(r)], NormalizeModels(id, rules[1..], seen + {Fold(name)}))
  }

  function Prepend<T>(xs: seq<T>, r: Result<seq<T>, ConfigError>): Result<seq<T>, ConfigError> {
    if r.Ok? then Ok(xs + r.value) else r
  }

  // ---------- legacy aliases ----------

  /** The alias table: of several aliases with the same folded name the last one counts. */
  function AliasTable(aliases: seq<AliasMapping>): map<string, AliasMapping> {
    if aliases == [] then map[]
    else
      var a := aliases[|aliases| - 1];
      var rest := AliasTable(aliases[..|aliases| - 1]);
      if Fold(Trim(a.alias)) == "" then rest else rest[Fold(Trim(a.alias)) := a]
  }

  function Override(own: Option<real>, default: real): real { if own.Some? then own.value else default }

  function TargetRule(ref: KeyAliasRef, legacy: AliasMapping, target: AliasTarget): ModelRule {
    ModelRule(target.targetModel, Override(ref.inputPrice, legacy.inputPrice), Override(ref.outputPrice, legacy.outputPrice),
              Override(ref.cacheReadPrice, legacy.cacheReadPrice), legacy.billingMode,
              Override(ref.perCallUsd, legacy.perCallUsd), "", "", "", "")
  }

  function TargetRules(ref: KeyAliasRef, legacy: AliasMapping, targets: seq<AliasTarget>): seq<ModelRule> {
    if targets == [] then [] else [TargetRule(ref, legacy, targets[0])] + TargetRules(ref, legacy, targets[1..])
  }

  /** The rules a key's alias references stand for, in order; an unknown alias is an error. */
  function ExpandRefs(id: string, refs: seq<KeyAliasRef>, table: map<string, AliasMapping>): Result<seq<ModelRule>, ConfigError> {
    if refs == [] then Ok([])
    else
      var name := Fold(Trim(refs[0].alias));
      if name !in table then Err(UnknownAlias(id, refs[0].alias))
      else Prepend(TargetRules(refs[0], table[name], table[name].targets), ExpandRefs(id, refs[1..], table))
  }

  // ---------- keys and plans ----------

  function CleanKey(key: KeyConfig): KeyConfig {
    var id := Trim(key.id);
    key.(id := id, name := if Trim(key.name) == "" then id else Trim(key.name), keyHash := Trim(key.keyHash),
         keyPreview := Trim(key.keyPreview), planId := Trim(key.planId), expiresAt := 0)
  }

  function NormalizeKey(key: KeyConfig, table: map<string, AliasMapping>, seen: set<string>): Result<KeyConfig, ConfigError> {
    var k := CleanKey(key);
    if k.id == "" then Err(KeyIdRequired)
    else if k.id in seen then Err(DuplicateKey(k.id))
    else if k.rpm < 0 then Err(NegativeRpm(k.id))
    else if k.dailyLimit < 0.0 then Err(NegativeDailyLimit(k.id))
    else if k.weeklyLimit < 0.0 then Err(NegativeWeeklyLimit(k.id))
    else
      match ExpandRefs(k.id, k.aliases, table)
      case Err(e) => Err(e)
      case Ok(expanded) =>
        match NormalizeModels(k.id, k.models + expanded, {})
        case Err(e) => Err(e)
        case Ok(models) => Ok(k.(models := models, aliases := []))
  }

  function NormalizeKeys(keys: seq<KeyConfig>, table: map<string, AliasMapping>, seen: set<string>): Result<seq<KeyConfig>, ConfigError> {
    if keys == [] then Ok([])
    else
      match NormalizeKey(keys[0], table, seen)
      case Err(e) => Err(e)
      case Ok(k) => Prepend([k], NormalizeKeys(keys[1..], table, seen + {k.id}))
  }

  /** The key through which a plan's policy is normalized. */
  function PolicyKey(plan: SubscriptionPlan): KeyConfig {
    KeyConfig(plan.id, plan.name, true, "", "", plan.rpm, plan.models, plan.allowModels, plan.dailyLimit, plan.weeklyLimit,
              "", 0, 0, 0, [])
  }

  function CleanPlan(plan: SubscriptionPlan): SubscriptionPlan {
    var id := Trim(plan.id);
    plan.(id := id, name := if Trim(plan.name) == "" then id else Trim(plan.name))
  }

  function NormalizePlan(plan: SubscriptionPlan): Result<SubscriptionPlan, ConfigError> {
    var p := CleanPlan(plan);
    if p.id == "" then Err(PlanIdRequired)
    else
      match NormalizeKeys([PolicyKey(p)], map[], {})
      case Err(e) => Err(InvalidPlan(p.id, e))
      case Ok(ks) =>
        if ks == [] then Ok(p)
        else Ok(p.(rpm := ks[0].rpm, models := ks[0].models, allowModels := ks[0].allowModels,
                   dailyLimit := ks[0].dailyLimit, weeklyLimit := ks[0].weeklyLimit))
  }

  function NormalizePlans(plans: seq<SubscriptionPlan>, seen: set<string>): Result<seq<SubscriptionPlan>, ConfigError> {
    if plans == [] then Ok([])
    else
      match NormalizePlan(plans[0])
      case Err(e) => Err(e)
      case Ok(p) =>
        if p.id in seen then Err(DuplicatePlan(p.id))
        else Prepend([p], NormalizePlans(plans[1..], seen + {p.id}))
  }

  datatype Normalized = Normalized(keys: seq<KeyConfig>, plans: seq<SubscriptionPlan>)

  /** Plans are normalized first, then keys against the alias table. */
  function NormalizeAll(keys: seq<KeyConfig>, plans: seq<SubscriptionPlan>, aliases: seq<AliasMapping>): Result<Normalized, ConfigError> {
    match NormalizePlans(plans, {})
    case Err(e) => Err(e)
    case Ok(ps) =>
      match NormalizeKeys(keys, AliasTable(aliases), {})
      case Err(e) => Err(e)
      case Ok(ks) => Ok(Normalized(ks, ps))
  }

  // ---------- looking a model up ----------

  function FirstMatch(rules: seq<ModelRule>, name: string): Option<ModelRule> {
    if rules == [] then None
    else if Fold(Trim(rules[0].model)) == name then Some(rules[0])
    else FirstMatch(rules[1..], name)
  }

  /** `ModelRuleForModel`: the first rule whose model equals the trimmed request, ignoring case. */
  function ModelRuleFor(rules: seq<ModelRule>, model: string): Option<ModelRule> {
    if Trim(model) == "" then None else FirstMatch(rules, Fold(Trim(model)))
  }

  /** The first raw rule listed under a folded name. */
  function RawMatch(rules: seq<ModelRule>, name: string): Option<ModelRule> {
    if rules == [] then None
    else if Fold(RawName(rules[0])) == name then Some(rules[0])
    else RawMatch(rules[1..], name)
  }

  function NormalForm(raw: Option<ModelRule>): Option<ModelRule> {
    if raw.Some? && Sound(raw.value) then Some(NormalRule(raw.value)) else None
  }

  lemma {:induction false} RawNameIsTrimmed(r: ModelRule)
    ensures Trimmed(RawName(r)) && Trim(RawName(r)) == RawName(r)
  {
    TrimIsIdempotent(r.model);
    TrimIsIdempotent(r.targetModel);
    TrimIsIdempotent(r.alias);
  }

  /** What is kept answers each lookup with the first raw rule of that name, in normal form, and with its own prices. */
  lemma {:induction false} KeptAnswers(id: string, rules: seq<ModelRule>, seen: set<string>, name: string)
    requires NormalizeModels(id, rules, seen).Ok?
    ensures var kept, raw := NormalizeModels(id, rules, seen).value, RawMatch(rules, name);
            && (name in seen ==> FirstMatch(kept, name) == None)
            && (name !in seen ==> && (raw.Some? ==> Sound(raw.value)) && FirstMatch(kept, name) == NormalForm(raw)
                                  && AnswersFrom(FirstMatch(kept, name), rules, name))
  {
    KeptMatches(id, rules, seen, name);
    if name !in seen { NormalFormAnswers(rules, name); }
  }

  lemma {:induction false} KeptMatches(id: string, rules: seq<ModelRule>, seen: set<string>, name: string)
    requires NormalizeModels(id, rules, seen).Ok?
    ensures var kept, raw := NormalizeModels(id, rules, seen).value, RawMatch(rules, name);
            && (name in seen ==> FirstMatch(kept, name) == None)
            && (name !in seen ==> (raw.Some? ==> Sound(raw.value)) && FirstMatch(kept, name) == NormalForm(raw))
  {
    if rules != [] {
      var r := rules[0];
      var folded := Fold(RawName(r));
      RawNameIsTrimmed(r);
      if folded in seen {
        KeptMatches(id, rules[1..], seen, name);
      } else {
        KeptMatches(id, rules[1..], seen + {folded}, name);
        var rest := NormalizeModels(id, rules[1..], seen + {folded}).value;
        assert ([NormalRule(r)] + rest)[1..] == rest;
      }
    }
  }

  // ---------- what is kept, field by field ----------

  /** The rule a key answers with, told from the raw rule it comes from. */
  ghost predicate ComesFrom(kept: ModelRule, raw: ModelRule) {
    && kept.model == (if Trim(raw.model) != "" then Trim(raw.model)
                      else if Trim(raw.targetModel) != "" then Trim(raw.targetModel) else Trim(raw.alias))
    && RoundedTo(kept.inputPrice, raw.inputPrice) && RoundedTo(kept.outputPrice, raw.outputPrice)
    && RoundedTo(kept.cacheReadPrice, raw.cacheReadPrice) && RoundedTo(kept.perCallUsd, raw.perCallUsd)
    && (kept.billingMode == "per_call" <==> Fold(Trim(raw.billingMode)) == "per_call")
    && (kept.billingMode == "tokens" <==> Fold(Trim(raw.billingMode)) == "tokens" || Trim(raw.billingMode) == "")
    && kept.billingMode in {"tokens", "per_call"}
    && kept.alias == kept.provider == kept.targetModel == kept.group == ""
  }

  lemma {:induction false} NormalRuleComesFrom(raw: ModelRule)
    requires Sound(raw)
    ensures ComesFrom(NormalRule(raw), raw)
  {
    NormalizeRounds(raw.inputPrice);
    NormalizeRounds(raw.outputPrice);
    NormalizeRounds(raw.cacheReadPrice);
    NormalizeRounds(raw.perCallUsd);
    hide RoundedTo, NormalizePrice, Trim;
  }

  /** `found` is what a lookup of a folded name in `rules` should give: the first of that name, if there is one. */
  ghost predicate AnswersFrom(found: Option<ModelRule>, rules: seq<ModelRule>, name: string) {
    match found
    case None => forall k :: 0 <= k < |rules| ==> Fold(RawName(rules[k])) != name
    case Some(rule) =>
      exists j :: 0 <= j < |rules| && Fold(RawName(rules[j])) == name && ComesFrom(rule, rules[j])
                  && forall k :: 0 <= k < j ==> Fold(RawName(rules[k])) != name
  }

  lemma {:induction false} NormalFormAnswers(rules: seq<ModelRule>, name: string)
    requires RawMatch(rules, name).Some? ==> Sound(RawMatch(rules, name).value)
    ensures AnswersFrom(NormalForm(RawMatch(rules, name)), rules, name)
  {
    hide Fold, RawName, ComesFrom, NormalRule, Sound;
    if rules != [] {
      if Fold(RawName(rules[0])) == name {
        NormalRuleComesFrom(rules[0]);
      } else {
        NormalFormAnswers(rules[1..], name);
        if RawMatch(rules, name).Some? {
          var found := NormalForm(RawMatch(rules, name)).value;
          var j :| 0 <= j < |rules| - 1 && Fold(RawName(rules[1..][j])) == name && ComesFrom(found, rules[1..][j])
                   && forall k :: 0 <= k < j ==> Fold(RawName(rules[1..][k])) != name;
          assert rules[j + 1] == rules[1..][j];
          assert forall k :: 0 < k < j + 1 ==> rules[k] == rules[1..][k - 1];
        } else {
          assert forall k :: 0 < k < |rules| ==> rules[k] == rules[1..][k - 1];
        }
      }
    }
  }

  // ---------- the shape of what is kept ----------

  /** In normal form, with names that are new and pairwise distinct ignoring case. */
  predicate Kept(rules: seq<ModelRule>, seen: set<string>) {
    rules == [] ||
    (var r := rules[0];
     && Sound(r) && NormalRule(r) == r && RawName(r) != "" && Fold(RawName(r)) !in seen
     && Kept(rules[1..], seen + {Fold(RawName(r))}))
  }

  lemma {:induction false} NormalRuleIsNormal(r: ModelRule)
    requires Sound(r)
    ensures Sound(NormalRule(r)) && NormalRule(NormalRule(r)) == NormalRule(r) && RawName(NormalRule(r)) == RawName(r)
  {
    RawNameIsTrimmed(r);
    NormalizeIsIdempotent(r.inputPrice);
    NormalizeIsIdempotent(r.outputPrice);
    NormalizeIsIdempotent(r.cacheReadPrice);
    NormalizeIsIdempotent(r.perCallUsd);
    NormalizeKeepsSign(r.inputPrice);
    NormalizeKeepsSign(r.outputPrice);
    NormalizeKeepsSign(r.cacheReadPrice);
    NormalizeKeepsSign(r.perCallUsd);
    BillingIsNormal(r.billingMode);
    assert Trim("") == "";
  }

  lemma {:induction false} BillingIsNormal(mode: string)
    requires NormalBilling(mode).Some?
    ensures NormalBilling(NormalBilling(mode).value) == NormalBilling(mode)
  {
    FoldOf("tokens");
    FoldOf("per_call");
  }

  lemma {:induction false} FoldOf(mode: string)
    requires mode == "tokens" || mode == "per_call"
    ensures Fold(Trim(mode)) == mode
  {
    assert Trim(mode) == mode;
    LowerCaseFolds(mode);
  }

  lemma {:induction false} LowerCaseFolds(s: string)
    requires forall i :: 0 <= i < |s| ==> !('A' <= s[i] <= 'Z')
    ensures Fold(s) == s
  {
    if s != [] { LowerCaseFolds(s[1..]); }
  }

  lemma {:induction false} NormalizedIsKept(id: string, rules: seq<ModelRule>, seen: set<string>)
    requires NormalizeModels(id, rules, seen).Ok?
    ensures Kept(NormalizeModels(id, rules, seen).value, seen)
  {
    if rules != [] {
      var r := rules[0];
      var folded := Fold(RawName(r));
      if folded in seen {
        NormalizedIsKept(id, rules[1..], seen);
      } else {
        NormalizedIsKept(id, rules[1..], seen + {folded});
        NormalRuleIsNormal(r);
        var rest := NormalizeModels(id, rules[1..], seen + {folded}).value;
        assert ([NormalRule(r)] + rest)[1..] == rest;
      }
    }
  }

  lemma {:induction false} KeptIsFixed(id: string, rules: seq<ModelRule>, seen: set<string>)
    requires Kept(rules, seen)
    ensures NormalizeModels(id, rules, seen) == Ok(rules)
  {
    hide NormalizePrice, Fold, Trim;
    if rules != [] {
      KeptIsFixed(id, rules[1..], seen + {Fold(RawName(rules[0]))});
      assert [rules[0]] + rules[1..] == rules;
    }
  }

  lemma {:induction false} KeptIsDistinct(rules: seq<ModelRule>, seen: set<string>)
    requires Kept(rules, seen)
    ensures forall i :: 0 <= i < |rules| ==> Fold(RawName(rules[i])) !in seen && rules[i].model == RawName(rules[i])
    ensures forall i, j :: 0 <= i < j < |rules| ==> !EqualFold(rules[i].model, rules[j].model)
  {
    hide Fold, RawName, NormalizePrice, NormalBilling;
    if rules != [] { KeptIsDistinct(rules[1..], seen + {Fold(RawName(rules[0]))}); }
  }

  /** No earlier rule has the name of rule `i`, and the name is not taken. */
  predicate FirstOfItsName(rules: seq<ModelRule>, seen: set<string>, i: nat)
    requires i < |rules|
  {
    Fold(RawName(rules[i])) !in seen && forall j :: 0 <= j < i ==> Fold(RawName(rules[j])) != Fold(RawName(rules[i]))
  }

  lemma {:induction false} NoErrorIffSound(id: string, r: ModelRule)
    ensures RuleError(id, r).None? <==> Acceptable(r)
    ensures Sound(r) <==> Acceptable(r)
  {
  }

  /** All amounts are non-negative and the mode is known or left out. */
  predicate Acceptable(r: ModelRule) {
    && r.inputPrice >= 0.0 && r.outputPrice >= 0.0 && r.cacheReadPrice >= 0.0 && r.perCallUsd >= 0.0
    && Fold(Trim(r.billingMode)) in {"", "tokens", "per_call"}
  }

  /** Rules are accepted exactly when all have a name and the first of each name is acceptable. */
  lemma {:induction false} AcceptedIff(id: string, rules: seq<ModelRule>, seen: set<string>)
    ensures NormalizeModels(id, rules, seen).Ok? <==>
            && (forall i :: 0 <= i < |rules| ==> RawName(rules[i]) != "")
            && (forall i :: 0 <= i < |rules| && FirstOfItsName(rules, seen, i) ==> Acceptable(rules[i]))
  {
    hide Fold, RawName, RuleError, Acceptable, NormalRule;
    if rules != [] {
      NoErrorIffSound(id, rules[0]);
      var rest, folded := rules[1..], Fold(RawName(rules[0]));
      var seen' := seen + {folded};
      AcceptedIff(id, rest, seen');
      assert RawName(rules[0]) != "" && folded in seen ==> seen' == seen;
      assert FirstOfItsName(rules, seen, 0) <==> folded !in seen;
      forall i | 0 <= i < |rest| ensures FirstOfItsName(rest, seen', i) <==> FirstOfItsName(rules, seen, i + 1) {
        assert rules[i + 1] == rest[i];
        if FirstOfItsName(rest, seen', i) {
          forall j | 0 <= j < i + 1 ensures Fold(RawName(rules[j])) != Fold(RawName(rules[i + 1])) {
            if j > 0 { assert rules[j] == rest[j - 1]; }
          }
        }
        if FirstOfItsName(rules, seen, i + 1) {
          forall j | 0 <= j < i ensures Fold(RawName(rest[j])) != Fold(RawName(rest[i])) { assert rest[j] == rules[j + 1]; }
        }
      }
      assert forall i :: 1 <= i < |rules| ==> rules[i] == rest[i - 1];
      assert forall i :: 1 <= i < |rules| ==> (FirstOfItsName(rules, seen, i) <==> FirstOfItsName(rest, seen', i - 1));
    }
  }

  // ---------- whole configurations ----------

  /** The rules a key is given, in the order in which they count: its own, then those of each alias it names. */
  function RawRules(key: KeyConfig, table: map<string, AliasMapping>): seq<ModelRule> {
    key.models + (match ExpandRefs(Trim(key.id), key.aliases, table) case Ok(rules) => rules case Err(_) => [])
  }

  /** A key as normalization leaves it. */
  predicate NormalKey(k: KeyConfig) {
    && CleanKey(k) == k && k.id != "" && k.rpm >= 0 && k.dailyLimit >= 0.0 && k.weeklyLimit >= 0.0
    && k.aliases == [] && Kept(k.models, {})
  }

  lemma {:induction false} CleanIsIdempotent(key: KeyConfig)
    ensures CleanKey(CleanKey(key)) == CleanKey(key)
  {
    TrimIsIdempotent(key.id);
    TrimIsIdempotent(key.name);
    TrimIsIdempotent(key.keyHash);
    TrimIsIdempotent(key.keyPreview);
    TrimIsIdempotent(key.planId);
  }

  lemma {:induction false} NormalizedKey(key: KeyConfig, table: map<string, AliasMapping>, seen: set<string>, model: string)
    requires NormalizeKey(key, table, seen).Ok?
    ensures var k := NormalizeKey(key, table, seen).value;
            && NormalKey(k) && k.id == Trim(key.id) && k.id !in seen
            && ModelRuleFor(k.models, model)
               == (if Trim(model) == "" then None else NormalForm(RawMatch(RawRules(key, table), Fold(Trim(model)))))
            && (Trim(model) != "" ==> AnswersFrom(ModelRuleFor(k.models, model), RawRules(key, table), Fold(Trim(model))))
  {
    hide AnswersFrom;
    var k := CleanKey(key);
    CleanIsIdempotent(key);
    var rules := k.models + ExpandRefs(k.id, k.aliases, table).value;
    NormalizedIsKept(k.id, rules, {});
    KeptAnswers(k.id, rules, {}, Fold(Trim(model)));
  }

  lemma {:induction false} NormalKeyIsFixed(k: KeyConfig, seen: set<string>)
    requires NormalKey(k) && k.id !in seen
    ensures NormalizeKey(k, map[], seen) == Ok(k)
  {
    KeptIsFixed(k.id, k.models, {});
    assert k.models + [] == k.models;
  }

  /** Keys in normal form with ids that are new and pairwise distinct. */
  predicate NormalKeys(keys: seq<KeyConfig>, seen: set<string>) {
    keys == [] || (NormalKey(keys[0]) && keys[0].id !in seen && NormalKeys(keys[1..], seen + {keys[0].id}))
  }

  lemma {:induction false} NormalizedKeys(keys: seq<KeyConfig>, table: map<string, AliasMapping>, seen: set<string>,
                                          i: nat, model: string)
    requires NormalizeKeys(keys, table, seen).Ok?
    ensures var ks := NormalizeKeys(keys, table, seen).value;
            && |ks| == |keys| && NormalKeys(ks, seen)
            && (i < |keys| ==>
                  && ks[i].id == Trim(keys[i].id)
                  && ModelRuleFor(ks[i].models, model)
                     == (if Trim(model) == "" then None else NormalForm(RawMatch(RawRules(keys[i], table), Fold(Trim(model)))))
                  && (Trim(model) != "" ==> AnswersFrom(ModelRuleFor(ks[i].models, model), RawRules(keys[i], table), Fold(Trim(model)))))
  {
    hide AnswersFrom;
    if keys != [] {
      NormalizedKey(keys[0], table, seen, model);
      var k := NormalizeKey(keys[0], table, seen).value;
      NormalizedKeys(keys[1..], table, seen + {k.id}, if i > 0 then i - 1 else 0, model);
      var rest := NormalizeKeys(keys[1..], table, seen + {k.id}).value;
      assert ([k] + rest)[1..] == rest;
    }
  }

  lemma {:induction false} NormalKeysAreFixed(keys: seq<KeyConfig>, seen: set<string>)
    requires NormalKeys(keys, seen)
    ensures NormalizeKeys(keys, map[], seen) == Ok(keys)
  {
    if keys != [] {
      NormalKeyIsFixed(keys[0], seen);
      NormalKeysAreFixed(keys[1..], seen + {keys[0].id});
      assert [keys[0]] + keys[1..] == keys;
    }
  }

  lemma {:induction false} NormalKeysAreDistinct(keys: seq<KeyConfig>, seen: set<string>)
    requires NormalKeys(keys, seen)
    ensures forall i :: 0 <= i < |keys| ==> keys[i].id !in seen && keys[i].id != "" && NormalKey(keys[i])
    ensures forall i, j :: 0 <= i < j < |keys| ==> keys[i].id != keys[j].id
  {
    if keys != [] { NormalKeysAreDistinct(keys[1..], seen + {keys[0].id}); }
  }

  /** A plan as normalization leaves it: its policy is that of a key in normal form. */
  predicate NormalPlan(p: SubscriptionPlan) {
    CleanPlan(p) == p && p.id != "" && NormalKey(PolicyKey(p))
  }

  lemma {:induction false} NormalizedPlan(plan: SubscriptionPlan, model: string)
    requires NormalizePlan(plan).Ok?
    ensures var p := NormalizePlan(plan).value;
            && NormalPlan(p) && p.id == Trim(plan.id) && p.expiresAt == plan.expiresAt
            && ModelRuleFor(p.models, model)
               == (if Trim(model) == "" then None else NormalForm(RawMatch(plan.models, Fold(Trim(model)))))
            && (Trim(model) != "" ==> AnswersFrom(ModelRuleFor(p.models, model), plan.models, Fold(Trim(model))))
  {
    hide AnswersFrom;
    var p := CleanPlan(plan);
    TrimIsIdempotent(plan.id);
    TrimIsIdempotent(plan.name);
    var k := PolicyKey(p);
    assert CleanKey(k) == k by { assert Trim("") == ""; }
    NormalizedKey(k, map[], {}, model);
    assert p.models + [] == p.models;
    assert NormalizeKeys([k][1..], map[], {k.id}) == Ok([]);
  }

  lemma {:induction false} NormalPlanIsFixed(p: SubscriptionPlan)
    requires NormalPlan(p)
    ensures NormalizePlan(p) == Ok(p)
  {
    assert NormalKeys([PolicyKey(p)], {});
    NormalKeysAreFixed([PolicyKey(p)], {});
  }

  predicate NormalPlans(plans: seq<SubscriptionPlan>, seen: set<string>) {
    plans == [] || (NormalPlan(plans[0]) && plans[0].id !in seen && NormalPlans(plans[1..], seen + {plans[0].id}))
  }

  lemma {:induction false} NormalizedPlans(plans: seq<SubscriptionPlan>, seen: set<string>)
    requires NormalizePlans(plans, seen).Ok?
    ensures var ps := NormalizePlans(plans, seen).value; |ps| == |plans| && NormalPlans(ps, seen)
  {
    if plans != [] {
      NormalizedPlan(plans[0], "");
      var p := NormalizePlan(plans[0]).value;
      NormalizedPlans(plans[1..], seen + {p.id});
      var rest := NormalizePlans(plans[1..], seen + {p.id}).value;
      assert ([p] + rest)[1..] == rest;
    }
  }

  lemma {:induction false} NormalPlansAreFixed(plans: seq<SubscriptionPlan>, seen: set<string>)
    requires NormalPlans(plans, seen)
    ensures NormalizePlans(plans, seen) == Ok(plans)
  {
    hide NormalPlan, NormalizePlan;
    if plans != [] {
      NormalPlanIsFixed(plans[0]);
      NormalPlansAreFixed(plans[1..], seen + {plans[0].id});
      assert [plans[0]] + plans[1..] == plans;
    }
  }

  /**
   Normalization preserves what every lookup means: the rule a key answers with afterwards is the normal
   form of the first raw rule of that name among its own models followed by all targets of each alias it
   references, with the reference's price overrides, and holds that rule's own prices, each rounded to the grid;
   key ids are trimmed, non-empty and distinct.
   */
  lemma {:induction false} LookupIsPreserved(keys: seq<KeyConfig>, plans: seq<SubscriptionPlan>, aliases: seq<AliasMapping>,
                                             i: nat, model: string)
    requires NormalizeAll(keys, plans, aliases).Ok? && i < |keys|
    ensures var ks, raw := NormalizeAll(keys, plans, aliases).value.keys, RawRules(keys[i], AliasTable(aliases));
            && |ks| == |keys| && ks[i].id == Trim(keys[i].id) != ""
            && (forall j :: 0 <= j < |ks| && j != i ==> ks[j].id != ks[i].id)
            && (forall a, b :: 0 <= a < b < |ks[i].models| ==> !EqualFold(ks[i].models[a].model, ks[i].models[b].model))
            && ModelRuleFor(ks[i].models, model)
               == (if Trim(model) == "" then None else NormalForm(RawMatch(raw, Fold(Trim(model)))))
            && (Trim(model) != "" ==> AnswersFrom(ModelRuleFor(ks[i].models, model), raw, Fold(Trim(model))))
  {
    hide AnswersFrom;
    NormalizedKeys(keys, AliasTable(aliases), {}, i, model);
    var ks := NormalizeAll(keys, plans, aliases).value.keys;
    NormalKeysAreDistinct(ks, {});
    KeptIsDistinct(ks[i].models, {});
  }

  /** A second pass over a normalized configuration changes nothing. */
  lemma {:induction false} NormalizeAllIsIdempotent(keys: seq<KeyConfig>, plans: seq<SubscriptionPlan>, aliases: seq<AliasMapping>)
    requires NormalizeAll(keys, plans, aliases).Ok?
    ensures var n := NormalizeAll(keys, plans, aliases).value; NormalizeAll(n.keys, n.plans, []) == Ok(n)
  {
    var n := NormalizeAll(keys, plans, aliases).value;
    NormalizedKeys(keys, AliasTable(aliases), {}, 0, "");
    NormalKeysAreFixed(n.keys, {});
    NormalizedPlans(plans, {});
    NormalPlansAreFixed(n.plans, {});
  }

  /** An alias name stands for the last mapping of that name, ignoring case; blank names stand for nothing. */
  lemma {:induction false} LastAliasCounts(aliases: seq<AliasMapping>, name: string, i: nat)
    requires i < |aliases| && Fold(Trim(aliases[i].alias)) == name
    requires forall j :: i < j < |aliases| ==> Fold(Trim(aliases[j].alias)) != name
    ensures name in AliasTable(aliases) <==> name != ""
    ensures name != "" ==> AliasTable(aliases)[name] == aliases[i]
    decreases |aliases|
  {
    BlankIsNoAlias(aliases);
    if i < |aliases| - 1 { LastAliasCounts(aliases[..|aliases| - 1], name, i); }
  }

  lemma {:induction false} BlankIsNoAlias(aliases: seq<AliasMapping>)
    ensures "" !in AliasTable(aliases)
  {
    if aliases != [] { BlankIsNoAlias(aliases[..|aliases| - 1]); }
  }

  // ---------- keys and plans, field by field ----------

  /** What a normalized key holds besides its rules: its own policy, with text trimmed and a missing name filled in. */
  ghost predicate KeyComesFrom(k: KeyConfig, raw: KeyConfig) {
    && k.id == Trim(raw.id) != "" && k.name == (if Trim(raw.name) == "" then Trim(raw.id) else Trim(raw.name))
    && k.keyHash == Trim(raw.keyHash) && k.keyPreview == Trim(raw.keyPreview) && k.planId == Trim(raw.planId)
    && k.enabled == raw.enabled && k.rpm == raw.rpm && k.allowModels == raw.allowModels
    && k.dailyLimit == raw.dailyLimit && k.weeklyLimit == raw.weeklyLimit
    && k.createdAt == raw.createdAt && k.updatedAt == raw.updatedAt && k.expiresAt == 0 && k.aliases == []
  }

  ghost predicate PlanComesFrom(p: SubscriptionPlan, raw: SubscriptionPlan) {
    && p.id == Trim(raw.id) != "" && p.name == (if Trim(raw.name) == "" then Trim(raw.id) else Trim(raw.name))
    && p.rpm == raw.rpm && p.allowModels == raw.allowModels
    && p.dailyLimit == raw.dailyLimit && p.weeklyLimit == raw.weeklyLimit
    && p.expiresAt == raw.expiresAt && p.createdAt == raw.createdAt && p.updatedAt == raw.updatedAt
  }

  /** Every normalized key and plan holds the policy of the one in its place. */
  lemma {:induction false} PoliciesAreKept(keys: seq<KeyConfig>, plans: seq<SubscriptionPlan>, aliases: seq<AliasMapping>)
    requires NormalizeAll(keys, plans, aliases).Ok?
    ensures var n := NormalizeAll(keys, plans, aliases).value;
            && |n.keys| == |keys| && (forall i :: 0 <= i < |keys| ==> KeyComesFrom(n.keys[i], keys[i]))
            && |n.plans| == |plans| && (forall i :: 0 <= i < |plans| ==> PlanComesFrom(n.plans[i], plans[i]))
  {
    KeysAreKept(keys, AliasTable(aliases), {});
    PlansAreKept(plans, {});
  }

  lemma {:induction false} KeyIsKept(key: KeyConfig, table: map<string, AliasMapping>, seen: set<string>)
    requires NormalizeKey(key, table, seen).Ok?
    ensures KeyComesFrom(NormalizeKey(key, table, seen).value, key)
  {
    hide Trim, ExpandRefs, NormalizeModels;
  }

  lemma {:induction false} KeysAreKept(keys: seq<KeyConfig>, table: map<string, AliasMapping>, seen: set<string>)
    requires NormalizeKeys(keys, table, seen).Ok?
    ensures var ks := NormalizeKeys(keys, table, seen).value;
            |ks| == |keys| && forall i :: 0 <= i < |keys| ==> KeyComesFrom(ks[i], keys[i])
  {
    hide KeyComesFrom, NormalizeKey;
    if keys != [] {
      KeyIsKept(keys[0], table, seen);
      KeysAreKept(keys[1..], table, seen + {NormalizeKey(keys[0], table, seen).value.id});
    }
  }

  lemma {:induction false} PlanIsKept(plan: SubscriptionPlan)
    requires NormalizePlan(plan).Ok?
    ensures PlanComesFrom(NormalizePlan(plan).value, plan)
  {
    var p := CleanPlan(plan);
    KeysAreKept([PolicyKey(p)], map[], {});
    hide Trim, NormalizeKeys;
  }

  lemma {:induction false} PlansAreKept(plans: seq<SubscriptionPlan>, seen: set<string>)
    requires NormalizePlans(plans, seen).Ok?
    ensures var ps := NormalizePlans(plans, seen).value;
            |ps| == |plans| && forall i :: 0 <= i < |plans| ==> PlanComesFrom(ps[i], plans[i])
  {
    hide PlanComesFrom, NormalizePlan;
    if plans != [] {
      PlanIsKept(plans[0]);
      PlansAreKept(plans[1..], seen + {NormalizePlan(plans[0]).value.id});
    }
  }

  // ---------- legacy aliases, field by field ----------

  /** A target of an alias as a rule: each price is the reference's own if it has one, else the alias's. */
  ghost predicate TargetComesFrom(r: ModelRule, ref: KeyAliasRef, legacy: AliasMapping, target: AliasTarget) {
    && r.model == target.targetModel && r.billingMode == legacy.billingMode
    && r.inputPrice == (match ref.inputPrice case Some(p) => p case None => legacy.inputPrice)
    && r.outputPrice == (match ref.outputPrice case Some(p) => p case None => legacy.outputPrice)
    && r.cacheReadPrice == (match ref.cacheReadPrice case Some(p) => p case None => legacy.cacheReadPrice)
    && r.perCallUsd == (match ref.perCallUsd case Some(p) => p case None => legacy.perCallUsd)
    && r.alias == r.provider == r.targetModel == r.group == ""
  }

  lemma {:induction false} TargetsAre(ref: KeyAliasRef, legacy: AliasMapping, targets: seq<AliasTarget>)
    ensures |TargetRules(ref, legacy, targets)| == |targets|
    ensures forall i :: 0 <= i < |targets| ==> TargetComesFrom(TargetRules(ref, legacy, targets)[i], ref, legacy, targets[i])
  {
    if targets != [] { TargetsAre(ref, legacy, targets[1..]); }
  }

  lemma {:induction false} RefsSplit(id: string, refs: seq<KeyAliasRef>, ref: KeyAliasRef, table: map<string, AliasMapping>)
    ensures var before, after := ExpandRefs(id, refs, table), ExpandRefs(id, refs + [ref], table);
            && (after.Ok? <==> before.Ok? && Fold(Trim(ref.alias)) in table)
            && (after.Ok? ==>
                  var legacy := table[Fold(Trim(ref.alias))]; after.value == before.value + TargetRules(ref, legacy, legacy.targets))
  {
    hide Fold, Trim, TargetRules;
    if refs == [] {
      assert [ref][1..] == [] && ExpandRefs(id, [], table) == Ok([]);
      if Fold(Trim(ref.alias)) in table {
        var legacy := table[Fold(Trim(ref.alias))];
        assert TargetRules(ref, legacy, legacy.targets) + [] == TargetRules(ref, legacy, legacy.targets);
      }
    } else {
      RefsSplit(id, refs[1..], ref, table);
      assert (refs + [ref])[1..] == refs[1..] + [ref];
    }
  }

  /**
   One more alias reference adds the targets of that alias behind all rules the key had, each with the reference's
   overrides at their own prices; it is refused if and only if the alias is unknown.
   */
  lemma {:induction false} ReferenceAddsTargets(key: KeyConfig, ref: KeyAliasRef, table: map<string, AliasMapping>)
    ensures var id, name, more := Trim(key.id), Fold(Trim(ref.alias)), key.aliases + [ref];
            && (ExpandRefs(id, more, table).Ok? <==> ExpandRefs(id, key.aliases, table).Ok? && name in table)
            && (ExpandRefs(id, more, table).Ok? ==>
                  var before, after, targets := RawRules(key, table), RawRules(key.(aliases := more), table), table[name].targets;
                  && |after| == |before| + |targets| && after[..|before|] == before
                  && (key.aliases == [] ==> before == key.models)
                  && forall i :: 0 <= i < |targets| ==> TargetComesFrom(after[|before| + i], ref, table[name], targets[i]))
  {
    var id, name := Trim(key.id), Fold(Trim(ref.alias));
    RefsSplit(id, key.aliases, ref, table);
    if ExpandRefs(id, key.aliases + [ref], table).Ok? {
      TargetsAre(ref, table[name], table[name].targets);
      assert key.models + [] == key.models;
    }
    hide TargetComesFrom, TargetRules, Fold, Trim;
  }

  // ---------- what is refused, and why ----------

  /** A key is accepted exactly when its numbers are non-negative, its aliases known and its rules acceptable. */
  lemma {:induction false} KeyIsAcceptedIff(key: KeyConfig, table: map<string, AliasMapping>, seen: set<string>)
    ensures NormalizeKey(key, table, seen).Ok? <==>
              && Trim(key.id) != "" && Trim(key.id) !in seen
              && key.rpm >= 0 && key.dailyLimit >= 0.0 && key.weeklyLimit >= 0.0
              && (forall i :: 0 <= i < |key.aliases| ==> Fold(Trim(key.aliases[i].alias)) in table)
              && var rules := RawRules(key, table);
                 && (forall i :: 0 <= i < |rules| ==> RawName(rules[i]) != "")
                 && (forall i :: 0 <= i < |rules| && FirstOfItsName(rules, {}, i) ==> Acceptable(rules[i]))
  {
    ExpandsIff(Trim(key.id), key.aliases, table);
    AcceptedIff(Trim(key.id), RawRules(key, table), {});
    hide Trim, Fold, ExpandRefs, NormalizeModels, Acceptable, RawName, FirstOfItsName;
  }

  /** So is a plan. */
  lemma {:induction false} PlanIsAcceptedIff(plan: SubscriptionPlan)
    ensures NormalizePlan(plan).Ok? <==>
              && Trim(plan.id) != "" && plan.rpm >= 0 && plan.dailyLimit >= 0.0 && plan.weeklyLimit >= 0.0
              && (forall i :: 0 <= i < |plan.models| ==> RawName(plan.models[i]) != "")
              && (forall i :: 0 <= i < |plan.models| && FirstOfItsName(plan.models, {}, i) ==> Acceptable(plan.models[i]))
    ensures NormalizePlan(plan) == Err(PlanIdRequired) <==> Trim(plan.id) == ""
    ensures NormalizePlan(plan).Err? && Trim(plan.id) != "" ==>
              var e := NormalizePlan(plan).error;
              e.InvalidPlan? && e.id == Trim(plan.id) && Explains(e.reason, PolicyKey(CleanPlan(plan)), map[], {})
  {
    var k := PolicyKey(CleanPlan(plan));
    TrimIsIdempotent(plan.id);
    KeyIsAcceptedIff(k, map[], {});
    if NormalizeKey(k, map[], {}).Err? { ErrorsExplain(k, map[], {}); }
    OneKeyIs(k);
    assert RawRules(k, map[]) == plan.models;
    hide Trim, NormalizeKey, RawRules, Explains, Acceptable, FirstOfItsName, RawName;
  }

  lemma {:induction false} OneKeyIs(k: KeyConfig)
    ensures NormalizeKeys([k], map[], {})
         == match NormalizeKey(k, map[], {}) case Err(e) => Err(e) case Ok(n) => Ok([n])
  {
    assert [k][1..] == [];
    if NormalizeKey(k, map[], {}).Ok? {
      var n := NormalizeKey(k, map[], {}).value;
      assert NormalizeKeys([], map[], {n.id}) == Ok([]) && [n] + [] == [n];
    }
  }

  lemma {:induction false} ExpandsIff(id: string, refs: seq<KeyAliasRef>, table: map<string, AliasMapping>)
    ensures ExpandRefs(id, refs, table).Ok? <==> forall i :: 0 <= i < |refs| ==> Fold(Trim(refs[i].alias)) in table
  {
    hide Fold, Trim;
    if refs != [] {
      ExpandsIff(id, refs[1..], table);
      assert forall i :: 0 < i < |refs| ==> refs[i] == refs[1..][i - 1];
    }
  }

  /** The defect of a single rule. */
  predicate Blames(e: ConfigError, id: string, r: ModelRule) {
    match e
    case ModelRequired(i) => i == id && RawName(r) == ""
    case InvalidPrice(i, model) =>
      i == id && RawName(r) == model && (r.inputPrice < 0.0 || r.outputPrice < 0.0 || r.cacheReadPrice < 0.0)
    case InvalidBillingMode(i, model) =>
      i == id && RawName(r) == model && Fold(Trim(r.billingMode)) !in {"", "tokens", "per_call"}
    case InvalidPerCall(i, model) => i == id && RawName(r) == model && r.perCallUsd < 0.0
    case _ => false
  }

  /** The error that refuses a key names one of its defects. */
  ghost predicate Explains(e: ConfigError, key: KeyConfig, table: map<string, AliasMapping>, seen: set<string>) {
    match e
    case KeyIdRequired => Trim(key.id) == ""
    case DuplicateKey(id) => id == Trim(key.id) && id in seen
    case NegativeRpm(id) => id == Trim(key.id) && key.rpm < 0
    case NegativeDailyLimit(id) => id == Trim(key.id) && key.dailyLimit < 0.0
    case NegativeWeeklyLimit(id) => id == Trim(key.id) && key.weeklyLimit < 0.0
    case UnknownAlias(id, alias) =>
      id == Trim(key.id) && Fold(Trim(alias)) !in table && exists ref :: ref in key.aliases && ref.alias == alias
    case _ => exists r :: r in RawRules(key, table) && Blames(e, Trim(key.id), r)
  }

  lemma {:induction false} ErrorsExplain(key: KeyConfig, table: map<string, AliasMapping>, seen: set<string>)
    requires NormalizeKey(key, table, seen).Err?
    ensures Explains(NormalizeKey(key, table, seen).error, key, table, seen)
  {
    hide Trim, Fold, ExpandRefs, NormalizeModels, RawName;
    var k := CleanKey(key);
    match ExpandRefs(k.id, k.aliases, table) {
      case Err(_) => UnknownRef(k.id, k.aliases, table);
      case Ok(expanded) =>
        if NormalizeModels(k.id, k.models + expanded, {}).Err? { BadRule(k.id, k.models + expanded, {}); }
    }
  }

  lemma {:induction false} UnknownRef(id: string, refs: seq<KeyAliasRef>, table: map<string, AliasMapping>)
    requires ExpandRefs(id, refs, table).Err?
    ensures var e := ExpandRefs(id, refs, table).error;
            e.UnknownAlias? && e.id == id && Fold(Trim(e.alias)) !in table && exists ref :: ref in refs && ref.alias == e.alias
  {
    hide Fold, Trim;
    if Fold(Trim(refs[0].alias)) in table { UnknownRef(id, refs[1..], table); } else { assert refs[0] in refs; }
  }

  lemma {:induction false} BadRule(id: string, rules: seq<ModelRule>, seen: set<string>)
    requires NormalizeModels(id, rules, seen).Err?
    ensures exists r :: r in rules && Blames(NormalizeModels(id, rules, seen).error, id, r)
  {
    hide Fold, Trim, RawName, NormalRule;
    var r := rules[0];
    assert r in rules;
    if RawName(r) != "" {
      if Fold(RawName(r)) in seen { BadRule(id, rules[1..], seen); }
      else if RuleError(id, r).None? { BadRule(id, rules[1..], seen + {Fold(RawName(r))}); }
    }
  }

  // ---------- the procedure ----------

  lemma {:induction false} PrependEnds<T>(xs: seq<T>, r: Result<seq<T>, ConfigError>)
    ensures Prepend([], r) == r
    ensures Prepend<T>(xs, Ok([])) == Ok(xs)
  {
    if r.Ok? { assert [] + r.value == r.value; }
    assert xs + [] == xs;
  }

  lemma {:induction false} PrependTwice<T>(xs: seq<T>, ys: seq<T>, r: Result<seq<T>, ConfigError>)
    ensures Prepend(xs, Prepend(ys, r)) == Prepend(xs + ys, r)
  {
    if r.Ok? { assert xs + (ys + r.value) == xs + ys + r.value; }
  }

  /** `normalizeConfig`: the configuration is rewritten in place; on an error its contents are not used. */
  method Normalize(cfg: Config) returns (result: Result<(), ConfigError>)
    modifies cfg
    ensures cfg.enabled == old(cfg.enabled) && cfg.stateFile == old(cfg.stateFile)
    ensures match old(NormalizeAll(cfg.keys, cfg.plans, cfg.aliases))
            case Err(e) => result == Err(e)
            case Ok(n) => result == Ok(()) && cfg.keys == n.keys && cfg.plans == n.plans && cfg.aliases == []
    decreases |cfg.plans|, 1
  {
    result := NormalizePlansOf(cfg);
    if result.Err? { return; }
    var table := BuildAliasTable(cfg.aliases);
    result := NormalizeKeysOf(cfg, table);
    if result.Err? { return; }
    cfg.aliases := [];
  }

  method NormalizePlansOf(cfg: Config) returns (result: Result<(), ConfigError>)
    modifies cfg`plans
    ensures match old(NormalizePlans(cfg.plans, {}))
            case Err(e) => result == Err(e)
            case Ok(ps) => result == Ok(()) && cfg.plans == ps
    decreases |cfg.plans|, 0
  {
    hide NormalizePlan;
    var plans := cfg.plans;
    var seen: set<string> := {};
    PrependEnds(plans, NormalizePlans(plans, seen));
    assert plans[0..] == plans && cfg.plans[..0] == [];
    for i := 0 to |plans|
      invariant |cfg.plans| == |plans| && cfg.plans[i..] == plans[i..]
      invariant NormalizePlans(plans, {}) == Prepend(cfg.plans[..i], NormalizePlans(plans[i..], seen))
    {
      var planResult := NormalizePlanProcedure(plans[i], |plans|);
      assert plans[i..][0] == plans[i] && plans[i..][1..] == plans[i + 1..];
      if planResult.Err? { return Err(planResult.error); }
      var p := planResult.value;
      if p.id in seen { return Err(DuplicatePlan(p.id)); }
      seen := seen + {p.id};
      PrependTwice(cfg.plans[..i], [p], NormalizePlans(plans[i + 1..], seen));
      cfg.plans := cfg.plans[i := p];
      assert cfg.plans[..i + 1] == cfg.plans[..i] + [p];
    }
    PrependEnds(cfg.plans, NormalizePlans([], seen));
    assert cfg.plans[..|plans|] == cfg.plans && plans[|plans|..] == [];
    return Ok(());
  }

  method NormalizeKeysOf(cfg: Config, table: map<string, AliasMapping>) returns (result: Result<(), ConfigError>)
    modifies cfg`keys
    ensures match old(NormalizeKeys(cfg.keys, table, {}))
            case Err(e) => result == Err(e)
            case Ok(ks) => result == Ok(()) && cfg.keys == ks
  {
    hide NormalizeKey;
    var keys := cfg.keys;
    var seen: set<string> := {};
    PrependEnds(keys, NormalizeKeys(keys, table, seen));
    assert keys[0..] == keys && cfg.keys[..0] == [];
    for i := 0 to |keys|
      invariant |cfg.keys| == |keys| && cfg.keys[i..] == keys[i..]
      invariant NormalizeKeys(keys, table, {}) == Prepend(cfg.keys[..i], NormalizeKeys(keys[i..], table, seen))
    {
      var keyResult := NormalizeKeyProcedure(keys[i], table, seen);
      assert keys[i..][0] == keys[i] && keys[i..][1..] == keys[i + 1..];
      if keyResult.Err? { return Err(keyResult.error); }
      var k := keyResult.value;
      seen := seen + {k.id};
      PrependTwice(cfg.keys[..i], [k], NormalizeKeys(keys[i + 1..], table, seen));
      cfg.keys := cfg.keys[i := k];
      assert cfg.keys[..i + 1] == cfg.keys[..i] + [k];
    }
    PrependEnds(cfg.keys, NormalizeKeys([], table, seen));
    assert cfg.keys[..|keys|] == cfg.keys && keys[|keys|..] == [];
    return Ok(());
  }

  /** `normalizeSubscriptionPlan`: the plan's policy goes through the configuration of one key. */
  method NormalizePlanProcedure(plan: SubscriptionPlan, ghost depth: nat) returns (result: Result<SubscriptionPlan, ConfigError>)
    requires depth > 0
    ensures result == NormalizePlan(plan)
    decreases depth - 1, 2
  {
    var p := plan.(id := Trim(plan.id), name := Trim(plan.name));
    if p.id == "" { return Err(PlanIdRequired); }
    if p.name == "" { p := p.(name := p.id); }
    var policy := new Config(false, "", [PolicyKey(p)], [], []);
    var outcome := Normalize(policy);
    assert AliasTable([]) == map[] && NormalizePlans([], {}) == Ok([]);
    if outcome.Err? { return Err(InvalidPlan(p.id, outcome.error)); }
    OneKey(PolicyKey(p));
    var k := policy.keys[0];
    return Ok(p.(rpm := k.rpm, models := k.models, allowModels := k.allowModels, dailyLimit := k.dailyLimit,
                 weeklyLimit := k.weeklyLimit));
  }

  lemma {:induction false} OneKey(key: KeyConfig)
    ensures NormalizeKeys([key], map[], {}).Ok? ==> |NormalizeKeys([key], map[], {}).value| == 1
  {
  }

  method BuildAliasTable(aliases: seq<AliasMapping>) returns (table: map<string, AliasMapping>)
    ensures table == AliasTable(aliases)
  {
    table := map[];
    for i := 0 to |aliases|
      invariant table == AliasTable(aliases[..i])
    {
      assert aliases[..i + 1][..i] == aliases[..i];
      var name := Fold(Trim(aliases[i].alias));
      if name != "" { table := table[name := aliases[i]]; }
    }
    assert aliases[..|aliases|] == aliases;
  }

  method NormalizeKeyProcedure(key: KeyConfig, table: map<string, AliasMapping>, seen: set<string>) returns (result: Result<KeyConfig, ConfigError>)
    ensures result == NormalizeKey(key, table, seen)
  {
    var k := key.(id := Trim(key.id), name := Trim(key.name), keyHash := Trim(key.keyHash),
                  keyPreview := Trim(key.keyPreview), planId := Trim(key.planId), expiresAt := 0);
    if k.id == "" { return Err(KeyIdRequired); }
    if k.id in seen { return Err(DuplicateKey(k.id)); }
    if k.name == "" { k := k.(name := k.id); }
    if k.rpm < 0 { return Err(NegativeRpm(k.id)); }
    if k.dailyLimit < 0.0 { return Err(NegativeDailyLimit(k.id)); }
    if k.weeklyLimit < 0.0 { return Err(NegativeWeeklyLimit(k.id)); }
    var expanded := ExpandRefsProcedure(k, table);
    if expanded.Err? { return Err(expanded.error); }
    var models := KeepFirst(k.id, expanded.value);
    if models.Err? { return Err(models.error); }
    return Ok(k.(models := models.value, aliases := []));
  }

  method ExpandRefsProcedure(k: KeyConfig, table: map<string, AliasMapping>) returns (result: Result<seq<ModelRule>, ConfigError>)
    ensures result == Prepend(k.models, ExpandRefs(k.id, k.aliases, table))
  {
    var rules := k.models;
    assert k.aliases[0..] == k.aliases;
    for i := 0 to |k.aliases|
      invariant Prepend(k.models, ExpandRefs(k.id, k.aliases, table)) == Prepend(rules, ExpandRefs(k.id, k.aliases[i..], table))
    {
      var ref := k.aliases[i];
      var name := Fold(Trim(ref.alias));
      assert k.aliases[i..][0] == ref && k.aliases[i..][1..] == k.aliases[i + 1..];
      if name !in table { return Err(UnknownAlias(k.id, ref.alias)); }
      PrependTwice(rules, TargetRules(ref, table[name], table[name].targets), ExpandRefs(k.id, k.aliases[i + 1..], table));
      rules := AppendTargets(rules, ref, table[name]);
    }
    PrependEnds(rules, ExpandRefs(k.id, [], table));
    assert k.aliases[|k.aliases|..] == [];
    return Ok(rules);
  }

  method AppendTargets(rules: seq<ModelRule>, ref: KeyAliasRef, legacy: AliasMapping) returns (extended: seq<ModelRule>)
    ensures extended == rules + TargetRules(ref, legacy, legacy.targets)
  {
    extended := rules;
    assert legacy.targets[0..] == legacy.targets;
    for j := 0 to |legacy.targets|
      invariant rules + TargetRules(ref, legacy, legacy.targets) == extended + TargetRules(ref, legacy, legacy.targets[j..])
    {
      var rest := legacy.targets[j..];
      assert rest[0] == legacy.targets[j] && rest[1..] == legacy.targets[j + 1..];
      extended := extended + [TargetRule(ref, legacy, legacy.targets[j])];
    }
    assert legacy.targets[|legacy.targets|..] == [];
  }

  method KeepFirst(id: string, rules: seq<ModelRule>) returns (result: Result<seq<ModelRule>, ConfigError>)
    ensures result == NormalizeModels(id, rules, {})
    ensures result.Ok? ==> forall name :: AnswersFrom(FirstMatch(result.value, name), rules, name)
  {
    hide AnswersFrom;
    var kept: seq<ModelRule> := [];
    var seen: set<string> := {};
    PrependEnds(kept, NormalizeModels(id, rules, seen));
    assert rules[0..] == rules;
    for i := 0 to |rules|
      invariant NormalizeModels(id, rules, {}) == Prepend(kept, NormalizeModels(id, rules[i..], seen))
    {
      var rule := rules[i];
      assert rules[i..][0] == rule && rules[i..][1..] == rules[i + 1..];
      var model := Trim(rule.model);
      if model == "" { model := Trim(rule.targetModel); }
      if model == "" { model := Trim(rule.alias); }
      if model == "" { return Err(ModelRequired(id)); }
      if Fold(model) in seen { continue; }
      if rule.inputPrice < 0.0 || rule.outputPrice < 0.0 || rule.cacheReadPrice < 0.0 { return Err(InvalidPrice(id, model)); }
      var mode := NormalBilling(rule.billingMode);
      if mode.None? { return Err(InvalidBillingMode(id, model)); }
      if rule.perCallUsd < 0.0 { return Err(InvalidPerCall(id, model)); }
      seen := seen + {Fold(model)};
      PrependTwice(kept, [NormalRule(rule)], NormalizeModels(id, rules[i + 1..], seen));
      kept := kept + [ModelRule(model, NormalizePrice(rule.inputPrice), NormalizePrice(rule.outputPrice),
                                NormalizePrice(rule.cacheReadPrice), mode.value, NormalizePrice(rule.perCallUsd), "", "", "", "")];
    }
    PrependEnds(kept, NormalizeModels(id, [], seen));
    assert rules[|rules|..] == [];
    forall name ensures AnswersFrom(FirstMatch(kept, name), rules, name) { KeptAnswers(id, rules, {}, name); }
    return Ok(kept);
  }
}
