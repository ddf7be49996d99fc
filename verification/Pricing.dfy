/**
 What a request costs (internal/policy/cost.go, and the pricing part of `RecordUsage` in internal/policy/store.go):
 token lines rounded to the grid of 1e-12 USD, the provider's cache semantics, and the receipt kept with the event.
 */
module Pricing {
  import opened Wrappers
  import opened Strings
  import opened Prices
  import opened PolicyConfig

  /** Prices in USD per million tokens; a cache-read price of zero means that none is configured. */
  datatype Rates = Rates(input: real, output: real, cacheRead: real)

  datatype UsageDetail = UsageDetail(input: int, output: int, cached: int, cacheRead: int, cacheCreation: int, total: int)

  datatype CostBreakdown = CostBreakdown(
    total: real, uncachedInput: real, cacheRead: real, cacheCreation: real, output: real,
    cacheReadTokens: int, nonCacheInputTokens: int)

  const FREE := CostBreakdown(0.0, 0.0, 0.0, 0.0, 0.0, 0, 0)

  /** One grid unit. */
  const UNIT: real := Usd(1)

  /** The exact price of some tokens. */
  function Exact(tokens: int, perMillion: real): real { tokens as real / 1_000_000.0 * perMillion }

  /** A line of the bill: the exact price on the grid. */
  function Line(tokens: int, perMillion: real): real { NormalizePrice(Exact(tokens, perMillion)) }

  predicate CacheIsAdditive(provider: string) { Fold(Trim(provider)) in {"claude", "anthropic", "vertex-claude"} }

  function CacheHits(d: UsageDetail): int { if d.cacheRead == 0 then d.cached else d.cacheRead }

  function ComputeUsageCostBreakdown(provider: string, rates: Rates, priced: bool, d: UsageDetail): CostBreakdown {
    if !priced then FREE
    else if d.input == 0 && d.output == 0 && d.cached == 0 && d.cacheRead == 0 && d.cacheCreation == 0 then FREE
    else
      var hits, explicit := CacheHits(d), rates.cacheRead != 0.0;
      var output := Line(d.output, rates.output);
      if CacheIsAdditive(provider) then
        var creation := Line(d.cacheCreation, rates.input);
        var uncached := if explicit then Line(d.input, rates.input) else Line(d.input + hits, rates.input);
        var read := if explicit then Line(hits, rates.cacheRead) else 0.0;
        CostBreakdown(NormalizePrice(uncached + read + creation + output), uncached, read, creation, output,
                      hits, d.input + d.cacheCreation)
      else
        var within := if hits > d.input then d.input else hits;
        var uncached := if explicit then Line(d.input - within, rates.input) else Line(d.input, rates.input);
        var read := if explicit then Line(within, rates.cacheRead) else 0.0;
        CostBreakdown(NormalizePrice(uncached + read + 0.0 + output), uncached, read, 0.0, output,
                      within, d.input - within)
  }

  /** The older path, which sees a parsed body only. */
  function ComputeCost(rates: Rates, priced: bool, found: bool, promptTokens: int, completionTokens: int): real {
    if !priced || !found then 0.0
    else NormalizePrice(Exact(promptTokens, rates.input) + Exact(completionTokens, rates.output))
  }

  // ---------- rounding ----------

  /** Grid amounts add up on the grid. */
  lemma {:induction false} SumIsOnGrid(a: real, b: real)
    requires OnGrid(a) && OnGrid(b)
    ensures OnGrid(a + b) && Usd(Round(a * SCALE as real) + Round(b * SCALE as real)) == a + b
  {
    var m, n := Round(a * SCALE as real), Round(b * SCALE as real);
    assert Usd(m) + Usd(n) == Usd(m + n);
    UsdIsOnGrid(m + n);
  }

  lemma {:induction false} LineIsNear(tokens: int, perMillion: real)
    ensures var exact, line := Exact(tokens, perMillion), Line(tokens, perMillion);
            OnGrid(line) && exact - 0.5 * UNIT <= line <= exact + 0.5 * UNIT
  {
    NormalizeIsNear(Exact(tokens, perMillion));
  }

  lemma {:induction false} NormalizeIsNear(v: real)
    ensures OnGrid(NormalizePrice(v)) && v - 0.5 * UNIT <= NormalizePrice(v) <= v + 0.5 * UNIT
  {
    NormalizeIsIdempotent(v);
    RoundIsNear(v * SCALE as real);
    ScaleCancels(Round(v * SCALE as real));
  }

  /** Two grid amounts less than two units apart are at most one unit apart. */
  lemma {:induction false} GridGap(a: real, b: real)
    requires OnGrid(a) && OnGrid(b) && a < b + 2.0 * UNIT
    ensures a <= b + UNIT
  {
    hide Round, Usd, NormalizePrice, Units;
    InUnits(a);
    InUnits(b);
    UnitIsPositive();
    assert Units(a) as real < Units(b) as real + 2.0;
    assert Units(a) <= Units(b) + 1;
  }

  /** A grid amount in units. */
  function Units(v: real): int { Round(v * SCALE as real) }

  lemma {:induction false} InUnits(v: real)
    requires OnGrid(v)
    ensures v * SCALE as real == Units(v) as real && v == Usd(Units(v))
  {
  }

  lemma {:induction false} ZeroIsOnGrid()
    ensures OnGrid(0.0) && Exact(0, 0.0) == 0.0
  {
  }

  lemma {:induction false} NoTokensCostNothing(perMillion: real)
    ensures Exact(0, perMillion) == 0.0 && Line(0, perMillion) == 0.0
  {
  }

  lemma {:induction false} ExactSplits(m: int, n: int, perMillion: real)
    ensures Exact(m + n, perMillion) == Exact(m, perMillion) + Exact(n, perMillion)
  {
  }

  // ---------- the breakdown ----------

  /** The visible components add up to the bill, with nothing lost to the last rounding. */
  lemma {:induction false} ComponentsAddUp(provider: string, rates: Rates, priced: bool, d: UsageDetail)
    ensures var b := ComputeUsageCostBreakdown(provider, rates, priced, d);
            && b.total == b.uncachedInput + b.cacheRead + b.cacheCreation + b.output
            && OnGrid(b.total) && OnGrid(b.uncachedInput) && OnGrid(b.cacheRead) && OnGrid(b.cacheCreation) && OnGrid(b.output)
  {
    hide NormalizePrice, Exact, CacheIsAdditive;
    var b := ComputeUsageCostBreakdown(provider, rates, priced, d);
    ZeroIsOnGrid();
    forall tokens, perMillion ensures OnGrid(Line(tokens, perMillion)) { LineIsNear(tokens, perMillion); }
    SumIsOnGrid(b.uncachedInput, b.cacheRead);
    SumIsOnGrid(b.uncachedInput + b.cacheRead, b.cacheCreation);
    SumIsOnGrid(b.uncachedInput + b.cacheRead + b.cacheCreation, b.output);
  }

  /** What a cache hit costs: the cache-read price, or the input price when none is configured. */
  function HitPrice(rates: Rates): real { if rates.cacheRead != 0.0 then rates.cacheRead else rates.input }

  /**
   The tokens of a priced request are split without loss: an additive provider, one of three, reports hits and cache writes
   on top of its input, any other reports hits inside it, as far as they fit. The hits are the cache-read tokens, or the
   cached ones if there are none. An unpriced request has no tokens and costs nothing.
   */
  lemma {:induction false} TokensAreConserved(provider: string, rates: Rates, d: UsageDetail)
    ensures var b, name := ComputeUsageCostBreakdown(provider, rates, true, d), Fold(Trim(provider));
            var hits := if d.cacheRead != 0 then d.cacheRead else d.cached;
            if name == "claude" || name == "anthropic" || name == "vertex-claude"
            then b.cacheReadTokens == hits && b.nonCacheInputTokens == d.input + d.cacheCreation && CacheIsAdditive(provider)
            else && b.nonCacheInputTokens + b.cacheReadTokens == d.input && b.nonCacheInputTokens >= 0
                 && (hits <= d.input ==> b.cacheReadTokens == hits) && (hits > d.input ==> b.cacheReadTokens == d.input)
                 && !CacheIsAdditive(provider)
    ensures ComputeUsageCostBreakdown(provider, rates, false, d) == CostBreakdown(0.0, 0.0, 0.0, 0.0, 0.0, 0, 0)
  {
    hide Fold, Trim, Line, NormalizePrice;
  }

  /** Without a cache-read price the hits of a request are still reported, although nothing is billed for them separately. */
  lemma {:induction false} HitsAreReportedWithoutAPrice(provider: string, rates: Rates, d: UsageDetail)
    requires rates.cacheRead == 0.0 && 0 < CacheHits(d) <= d.input
    ensures var b := ComputeUsageCostBreakdown(provider, rates, true, d);
            b.cacheReadTokens == CacheHits(d) > 0 && b.cacheRead == 0.0
  {
  }

  predicate Near(amount: real, exact: real) { exact - 0.5 * UNIT <= amount <= exact + 0.5 * UNIT }

  /** Cache writes are a line of their own for additive providers only. */
  function CreationTokens(provider: string, d: UsageDetail): int { if CacheIsAdditive(provider) then d.cacheCreation else 0 }

  /** Each component is, up to half a unit, the exact price of its own tokens; unpriced cache hits are part of the input. */
  lemma {:induction false} ComponentsAreNearExact(provider: string, rates: Rates, d: UsageDetail)
    ensures var b, creation := ComputeUsageCostBreakdown(provider, rates, true, d), CreationTokens(provider, d);
            var folded := if rates.cacheRead == 0.0 then b.cacheReadTokens else 0;
            && Near(b.uncachedInput, Exact(b.nonCacheInputTokens - creation + folded, rates.input))
            && Near(b.cacheRead, Exact(b.cacheReadTokens, rates.cacheRead))
            && Near(b.cacheCreation, Exact(creation, rates.input))
            && Near(b.output, Exact(d.output, rates.output))
  {
    hide Line, Exact, UNIT, NormalizePrice, CacheIsAdditive;
    UnitIsPositive();
    forall tokens, perMillion ensures Near(Line(tokens, perMillion), Exact(tokens, perMillion)) {
      LineIsNear(tokens, perMillion);
    }
    NoTokensCostNothing(rates.input);
    NoTokensCostNothing(rates.output);
    NoTokensCostNothing(rates.cacheRead);
    UnpricedTokensCostNothing(ComputeUsageCostBreakdown(provider, rates, true, d).cacheReadTokens);
  }

  lemma {:induction false} UnpricedTokensCostNothing(tokens: int)
    ensures Exact(tokens, 0.0) == 0.0
  {
  }

  /** Each reported token at its own price: fresh input, cache hits and output. */
  function ExactBill(rates: Rates, b: CostBreakdown, outputTokens: int): real {
    Exact(b.nonCacheInputTokens, rates.input) + Exact(b.cacheReadTokens, HitPrice(rates)) + Exact(outputTokens, rates.output)
  }

  /** For every provider and every price, the bill is within two units of the exact price of the tokens it reports. */
  lemma {:induction false} BillIsNearExact(provider: string, rates: Rates, d: UsageDetail)
    ensures var b := ComputeUsageCostBreakdown(provider, rates, true, d);
            var exact := ExactBill(rates, b, d.output);
            exact - 2.0 * UNIT <= b.total <= exact + 2.0 * UNIT
  {
    hide Line, Exact, UNIT, NormalizePrice, ComputeUsageCostBreakdown, CreationTokens;
    var b, creation := ComputeUsageCostBreakdown(provider, rates, true, d), CreationTokens(provider, d);
    ComponentsAddUp(provider, rates, true, d);
    ComponentsAreNearExact(provider, rates, d);
    ExactSplits(b.nonCacheInputTokens - creation, creation, rates.input);
    ExactSplits(b.nonCacheInputTokens - creation, b.cacheReadTokens, rates.input);
    UnpricedTokensCostNothing(b.cacheReadTokens);
  }

  lemma {:induction false} UnitIsPositive()
    ensures UNIT > 0.0 && UNIT * SCALE as real == 1.0
  {
  }

  // ---------- configuring a cache-read price ----------

  lemma {:induction false} CheaperLine(tokens: int, low: real, high: real)
    requires tokens >= 0 && low <= high
    ensures Exact(tokens, low) <= Exact(tokens, high)
  {
  }

  /**
   A cache-read price no higher than the input price cannot make a request dearer than billing all its input at the
   input price, except by one unit of rounding.
   */
  lemma {:induction false} CachePriceIsADiscount(provider: string, rates: Rates, d: UsageDetail)
    requires 0.0 != rates.cacheRead <= rates.input && CacheHits(d) >= 0 && d.input >= 0
    ensures var with := ComputeUsageCostBreakdown(provider, rates, true, d);
            var without := ComputeUsageCostBreakdown(provider, rates.(cacheRead := 0.0), true, d);
            with.total <= without.total + UNIT
  {
    hide Line, Exact, UNIT, NormalizePrice;
    var with := ComputeUsageCostBreakdown(provider, rates, true, d);
    var without := ComputeUsageCostBreakdown(provider, rates.(cacheRead := 0.0), true, d);
    UnitIsPositive();
    ComponentsAddUp(provider, rates, true, d);
    ComponentsAddUp(provider, rates.(cacheRead := 0.0), true, d);
    if with != FREE {
      var hits := with.cacheReadTokens;
      var uncached := if CacheIsAdditive(provider) then d.input else d.input - hits;
      LineIsNear(uncached, rates.input);
      LineIsNear(hits, rates.cacheRead);
      LineIsNear(uncached + hits, rates.input);
      ExactSplits(uncached, hits, rates.input);
      CheaperLine(hits, rates.cacheRead, rates.input);
      assert with.uncachedInput == Line(uncached, rates.input) && with.cacheRead == Line(hits, rates.cacheRead);
      assert without.uncachedInput == Line(uncached + hits, rates.input) && without.cacheRead == 0.0;
      assert with.total < without.total + 2.0 * UNIT;
    }
    GridGap(with.total, without.total);
  }

  /** The unit is needed: two tokens, one of them cached, at half a unit each. */
  lemma {:induction false} DiscountBoundIsTight()
    ensures var d := UsageDetail(2, 0, 1, 0, 0, 2);
            var rates := Rates(0.0000005, 0.0, 0.0000005);
            ComputeUsageCostBreakdown("openai", rates, true, d).total
            == ComputeUsageCostBreakdown("openai", rates.(cacheRead := 0.0), true, d).total + UNIT
  {
    var d, p := UsageDetail(2, 0, 1, 0, 0, 2), 0.0000005;
    OpenAiIsNotAdditive();
    assert Round(0.5) == 1 && Round(1.0) == 1 && Round(0.0) == 0 && Round(2.0) == 2;
    assert Exact(1, p) * SCALE as real == 0.5 && Exact(2, p) * SCALE as real == 1.0;
    assert Line(1, p) == UNIT && Line(2, p) == UNIT;
    NoTokensCostNothing(0.0);
    assert (UNIT + UNIT) * SCALE as real == 2.0 && UNIT * SCALE as real == 1.0;
    assert NormalizePrice(UNIT + UNIT) == UNIT + UNIT && NormalizePrice(UNIT) == UNIT;
  }

  lemma {:induction false} OpenAiIsNotAdditive()
    ensures !CacheIsAdditive("openai")
  {
    assert TrimLeft("openai") == "openai" && TrimRight("openai") == "openai";
    assert Fold("openai")[0] == 'o';
  }

  // ---------- the two billing paths ----------

  /** Without cache tokens the two billing paths agree up to one unit. */
  lemma {:induction false} BillingPathsAgree(provider: string, rates: Rates, prompt: int, completion: int, total: int)
    requires prompt >= 0
    ensures var b := ComputeUsageCostBreakdown(provider, rates, true, UsageDetail(prompt, completion, 0, 0, 0, total));
            b.total - UNIT <= ComputeCost(rates, true, true, prompt, completion) <= b.total + UNIT
    ensures forall priced, found :: !priced || !found ==> ComputeCost(rates, priced, found, prompt, completion) == 0.0
  {
    hide Line, Exact, UNIT, NormalizePrice;
    var d := UsageDetail(prompt, completion, 0, 0, 0, total);
    var b := ComputeUsageCostBreakdown(provider, rates, true, d);
    var parsed := ComputeCost(rates, true, true, prompt, completion);
    UnitIsPositive();
    ComponentsAddUp(provider, rates, true, d);
    LineIsNear(prompt, rates.input);
    LineIsNear(completion, rates.output);
    NoTokensCostNothing(rates.input);
    NoTokensCostNothing(rates.output);
    NoTokensCostNothing(rates.cacheRead);
    NormalizeIsNear(Exact(prompt, rates.input) + Exact(completion, rates.output));
    assert b.total == Line(prompt, rates.input) + Line(completion, rates.output);
    GridGap(b.total, parsed);
    GridGap(parsed, b.total);
  }

  // ---------- the receipt of a request ----------

  /** What reaches the ledger. */
  datatype LedgerCharge = LedgerCharge(
    amount: real, cacheCost: real, cacheReadTokens: int, inputTokens: int, outputTokens: int, calls: int)

  /** The cost columns of the event, the charge, and the amount reported to the host. */
  datatype Receipt = Receipt(
    costAvailable: bool, cost: real, uncachedInput: real, cacheRead: real, cacheCreation: real, output: real, other: real,
    charge: Option<LedgerCharge>, returned: real)

  const NO_RECEIPT := Receipt(false, 0.0, 0.0, 0.0, 0.0, 0.0, 0.0, None, 0.0)

  function PriceForModel(rules: seq<ModelRule>, model: string): Option<Rates> {
    match ModelRuleFor(rules, model)
    case None => None
    case Some(r) => Some(Rates(r.inputPrice, r.outputPrice, r.cacheReadPrice))
  }

  predicate UsageFound(d: UsageDetail) {
    d.input > 0 || d.output > 0 || d.cached > 0 || d.cacheRead > 0 || d.cacheCreation > 0 || d.total > 0
  }

  /** How `RecordUsage` prices a request for the model it resolved; `ledger` says whether there is a ledger to charge. */
  function PriceRequest(rules: seq<ModelRule>, resolved: string, provider: string, failed: bool, d: UsageDetail, ledger: bool)
    : Receipt
  {
    match ModelRuleFor(rules, resolved)
    case None => NO_RECEIPT
    case Some(rule) =>
      var available := NO_RECEIPT.(costAvailable := true);
      if rule.billingMode == "per_call" then
        if failed then available
        else
          var cost := rule.perCallUsd;
          available.(cost := cost, other := cost, returned := cost,
                     charge := if ledger then Some(LedgerCharge(cost, 0.0, 0, 0, 0, 1)) else None)
      else if !UsageFound(d) then available
      else
        var rates := PriceForModel(rules, resolved);
        var b := ComputeUsageCostBreakdown(provider, if rates.Some? then rates.value else Rates(0.0, 0.0, 0.0), rates.Some?, d);
        Receipt(rates.Some?, b.total, b.uncachedInput, b.cacheRead, b.cacheCreation, b.output, 0.0,
                if rates.Some? && ledger
                then Some(LedgerCharge(b.total, b.cacheRead, b.cacheReadTokens, b.nonCacheInputTokens, d.output, 1)) else None,
                b.total)
  }

  predicate GridPrices(rules: seq<ModelRule>) { forall i :: 0 <= i < |rules| ==> OnGrid(rules[i].perCallUsd) }

  /** Normalization puts the prices of a single call on the grid. */
  lemma {:induction false} NormalRulesAreOnGrid(id: string, rules: seq<ModelRule>, seen: set<string>)
    requires NormalizeModels(id, rules, seen).Ok?
    ensures GridPrices(NormalizeModels(id, rules, seen).value)
  {
    hide NormalizePrice;
    if rules != [] {
      var name := Fold(RawName(rules[0]));
      NormalizeIsIdempotent(rules[0].perCallUsd);
      NormalRulesAreOnGrid(id, rules[1..], if name in seen then seen else seen + {name});
    }
  }

  /**
   For every request: the recorded cost is the sum of the recorded components, it is what the host is told and what the
   ledger is charged, and a charge counts one call of an available price.
   */
  lemma {:induction false} ReceiptAddsUp(rules: seq<ModelRule>, resolved: string, provider: string, failed: bool,
                                         d: UsageDetail, ledger: bool)
    ensures var r := PriceRequest(rules, resolved, provider, failed, d, ledger);
            && r.cost == r.uncachedInput + r.cacheRead + r.cacheCreation + r.output + r.other == r.returned
            && (r.charge.Some? ==> ledger && r.costAvailable && r.charge.value.calls == 1 && r.charge.value.amount == r.cost)
            && (ledger && r.charge.None? ==> r.cost == 0.0)
            && (GridPrices(rules) ==> OnGrid(r.cost))
  {
    hide ComputeUsageCostBreakdown;
    ZeroIsOnGrid();
    var r := PriceRequest(rules, resolved, provider, failed, d, ledger);
    if ModelRuleFor(rules, resolved).Some? {
      var rates := PriceForModel(rules, resolved);
      ComponentsAddUp(provider, rates.value, true, d);
      if GridPrices(rules) { MatchIsListed(rules, Fold(Trim(resolved))); }
    }
  }

  /**
   When a request is charged: there is a ledger, the model has a rule, and by the rule's mode the call succeeded, or any
   tokens were reported. A charge by call is the rule's price for one call and carries no tokens.
   */
  lemma {:induction false} ChargedIff(rules: seq<ModelRule>, resolved: string, provider: string, failed: bool,
                                      d: UsageDetail, ledger: bool)
    ensures var r, found := PriceRequest(rules, resolved, provider, failed, d, ledger), ModelRuleFor(rules, resolved);
            && (r.charge.Some? <==>
                  && ledger && found.Some?
                  && if found.value.billingMode == "per_call" then !failed
                     else !(d.input <= 0 && d.output <= 0 && d.cached <= 0 && d.cacheRead <= 0 && d.cacheCreation <= 0 && d.total <= 0))
            && (found.Some? && found.value.billingMode == "per_call" ==>
                  && r.cost == r.other == r.returned == (if failed then 0.0 else found.value.perCallUsd)
                  && r.uncachedInput == r.cacheRead == r.cacheCreation == r.output == 0.0
                  && (r.charge.Some? ==> r.charge.value == LedgerCharge(found.value.perCallUsd, 0.0, 0, 0, 0, 1)))
            && (r.costAvailable <==> found.Some?)
            && (found.None? ==> r.cost == r.returned == 0.0)
  {
    hide ComputeUsageCostBreakdown, ModelRuleFor;
  }

  /**
   A charge billed by tokens is itemized: each recorded component is, up to half a unit, the exact price of the tokens
   that reach the ledger with it, at the prices of the rule the model resolves to; these are the tokens of the breakdown.
   */
  lemma {:induction false} ReceiptIsItemized(rules: seq<ModelRule>, resolved: string, provider: string, failed: bool,
                                             d: UsageDetail)
    requires PriceRequest(rules, resolved, provider, failed, d, true).charge.Some?
    requires ModelRuleFor(rules, resolved).value.billingMode != "per_call"
    ensures var r, rule := PriceRequest(rules, resolved, provider, failed, d, true), ModelRuleFor(rules, resolved).value;
            var c, creation := r.charge.value, CreationTokens(provider, d);
            var folded := if rule.cacheReadPrice == 0.0 then c.cacheReadTokens else 0;
            && r.other == 0.0 && c.cacheCost == r.cacheRead && c.outputTokens == d.output
            && Near(r.uncachedInput, Exact(c.inputTokens - creation + folded, rule.inputPrice))
            && Near(r.cacheRead, Exact(c.cacheReadTokens, rule.cacheReadPrice))
            && Near(r.cacheCreation, Exact(creation, rule.inputPrice))
            && Near(r.output, Exact(c.outputTokens, rule.outputPrice))
            && var b := ComputeUsageCostBreakdown(provider, Rates(rule.inputPrice, rule.outputPrice, rule.cacheReadPrice), true, d);
               c.inputTokens == b.nonCacheInputTokens && c.cacheReadTokens == b.cacheReadTokens
  {
    hide ComputeUsageCostBreakdown, Near, Exact, ModelRuleFor;
    var rates := PriceForModel(rules, resolved).value;
    ComponentsAreNearExact(provider, rates, d);
  }

  lemma {:induction false} MatchIsListed(rules: seq<ModelRule>, name: string)
    ensures FirstMatch(rules, name).Some? ==> FirstMatch(rules, name).value in rules
  {
    if rules != [] { MatchIsListed(rules[1..], name); }
  }

  // ---------- accumulation ----------

  /** The ledger's `total = normalizePrice(total + amount)`, charge after charge. */
  function Accumulate(start: real, amounts: seq<real>): real {
    if amounts == [] then start
    else NormalizePrice(Accumulate(start, amounts[..|amounts| - 1]) + amounts[|amounts| - 1])
  }

  function SumUnits(amounts: seq<real>): int {
    if amounts == [] then 0 else SumUnits(amounts[..|amounts| - 1]) + Units(amounts[|amounts| - 1])
  }

  /**
   Rounding after every charge never moves the total: it is the start plus the charges, counted in whole units. This is
   what lets the ledger be modelled with integers.
   */
  lemma {:induction false} ChargesAccumulateExactly(start: real, amounts: seq<real>)
    requires OnGrid(start) && forall i :: 0 <= i < |amounts| ==> OnGrid(amounts[i])
    ensures OnGrid(Accumulate(start, amounts)) && Accumulate(start, amounts) == Usd(Units(start) + SumUnits(amounts))
  {
    hide NormalizePrice, Round, Usd;
    InUnits(start);
    if amounts != [] {
      var before, last := Accumulate(start, amounts[..|amounts| - 1]), amounts[|amounts| - 1];
      ChargesAccumulateExactly(start, amounts[..|amounts| - 1]);
      SumIsOnGrid(before, last);
      UnitsOfUsd(Units(start) + SumUnits(amounts[..|amounts| - 1]));
    }
  }

  lemma {:induction false} UnitsOfUsd(n: int)
    ensures Units(Usd(n)) == n
  {
  }

  /** n equal charges of a grid amount total exactly n times the amount. */
  lemma {:induction false} EqualChargesTotal(a: real, n: nat)
    requires OnGrid(a)
    ensures Accumulate(0.0, seq(n, _ => a)) == n as real * a
  {
    hide NormalizePrice, Round, Usd;
    var charges := seq(n, _ => a);
    ZeroIsOnGrid();
    ChargesAccumulateExactly(0.0, charges);
    EqualUnits(a, n);
    InUnits(a);
    UnitsOfUsd(0);
    UsdScales(n, 0);
    UsdScales(n, Units(a));
  }

  lemma {:induction false} UsdScales(n: nat, units: int)
    ensures n as real * Usd(units) == Usd(n * units) && Usd(0) == 0.0
  {
  }

  lemma {:induction false} EqualUnits(a: real, n: nat)
    ensures SumUnits(seq(n, _ => a)) == n * Units(a)
  {
    if n > 0 {
      assert seq(n, _ => a)[..n - 1] == seq(n - 1, _ => a);
      EqualUnits(a, n - 1);
    }
  }
}
