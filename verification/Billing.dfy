/** Token billing (database/billing.go): which price rule a model gets, and what a request costs. Prices are reals. */
module Billing {
  import opened Basics

  const LONG_CONTEXT_THRESHOLD: int := 272000

  /** Dollars per million tokens: input, output and cache reads, each also for priority; 0 is "no such price". */
  datatype ModelPricing = ModelPricing(
    input: real, inputPriority: real, output: real, outputPriority: real, cacheRead: real, cacheReadPriority: real,
    longInput: real, longInputPriority: real, longOutput: real, longOutputPriority: real,
    longCacheRead: real, longCacheReadPriority: real
  )

  datatype Rule = Rule(model: string, pricing: ModelPricing)

  function Flat(input: real, output: real, cacheRead: real): ModelPricing {
    ModelPricing(input, 0.0, output, 0.0, cacheRead, 0.0, 0.0, 0.0, 0.0, 0.0, 0.0, 0.0)
  }

  function WithPriority(input: real, inputPriority: real, output: real, outputPriority: real, cacheRead: real, cacheReadPriority: real)
    : ModelPricing
  {
    ModelPricing(input, inputPriority, output, outputPriority, cacheRead, cacheReadPriority, 0.0, 0.0, 0.0, 0.0, 0.0, 0.0)
  }

  function GPT55(): ModelPricing {
    ModelPricing(5.0, 12.5, 30.0, 75.0, 0.5, 1.25, 10.0, 25.0, 45.0, 112.5, 1.0, 2.5)
  }

  function GPT54(): ModelPricing {
    ModelPricing(2.5, 5.0, 15.0, 30.0, 0.25, 0.5, 5.0, 10.0, 22.5, 45.0, 0.5, 1.0)
  }

  function Pro(): ModelPricing {
    ModelPricing(30.0, 75.0, 180.0, 450.0, 0.0, 0.0, 60.0, 150.0, 270.0, 675.0, 0.0, 0.0)
  }

  function Default(): ModelPricing {
    Flat(1.0, 2.0, 0.0)
  }

  function Rules(): seq<Rule> {
    [
      Rule("gpt-5.5", GPT55()),
      Rule("gpt-5.5-pro", Pro()),
      Rule("gpt-5.4-mini", Flat(0.75, 4.5, 0.075)),
      Rule("gpt-5.4-nano", Flat(0.2, 1.25, 0.02)),
      Rule("gpt-5.4", GPT54()),
      Rule("gpt-5.4-pro", Pro()),
      Rule("gpt-5.3-codex-spark", WithPriority(1.25, 2.5, 10.0, 20.0, 0.125, 0.25)),
      Rule("gpt-5.3-codex", WithPriority(1.75, 3.5, 14.0, 28.0, 0.175, 0.35)),
      Rule("gpt-5.2", WithPriority(1.75, 3.5, 14.0, 28.0, 0.175, 0.35)),
      Rule("gpt-4o-mini", Flat(0.15, 0.6, 0.0)),
      Rule("gpt-4o", Flat(2.5, 10.0, 0.0)),
      Rule("gpt-4-turbo", Flat(10.0, 30.0, 0.0)),
      Rule("gpt-4", Flat(30.0, 60.0, 0.0)),
      Rule("gpt-3.5-turbo", Flat(0.5, 1.5, 0.0))
    ]
  }

  // ----- the rule -----

  /** modelMatchesRule */
  predicate Matches(model: string, rule: string) {
    if model == rule then true
    else if !HasPrefix(model, rule) then false
    else if |model| == |rule| then true
    else model[|rule|] == '-' || model[|rule|] == '.' || model[|rule|] == ':'
  }

  /** The rule is the model's name up to its end or a separator. */
  predicate BoundaryPrefix(model: string, rule: string) {
    && |rule| <= |model| && model[..|rule|] == rule
    && (|rule| < |model| ==> model[|rule|] in {'-', '.', ':'})
  }

  lemma MatchesIsBoundaryPrefix(model: string, rule: string)
    ensures Matches(model, rule) <==> BoundaryPrefix(model, rule)
  {
    if |rule| <= |model| && model[..|rule|] == rule && |rule| == |model| {
      assert model[..|rule|] == model;
    }
  }

  ghost predicate Longest(rules: seq<Rule>, model: string, r: Rule) {
    && r in rules && BoundaryPrefix(model, r.model)
    && forall q :: q in rules && BoundaryPrefix(model, q.model) ==> |q.model| <= |r.model|
  }

  ghost predicate DistinctNames(rules: seq<Rule>) {
    forall q, r :: q in rules && r in rules && q.model == r.model ==> q == r
  }

  /** The first of the longest rules that match. */
  function Selected(rules: seq<Rule>, model: string): Option<Rule> {
    if rules == [] then None
    else
      var best, last := Selected(rules[..|rules| - 1], model), rules[|rules| - 1];
      if BoundaryPrefix(model, last.model) && (best.None? || |last.model| > |best.value.model|) then Some(last) else best
  }

  lemma {:induction false} SelectedIsLongest(rules: seq<Rule>, model: string)
    ensures Selected(rules, model).None? <==> forall r :: r in rules ==> !BoundaryPrefix(model, r.model)
    ensures Selected(rules, model).Some? ==> Longest(rules, model, Selected(rules, model).value)
  {
    hide BoundaryPrefix;
    if rules != [] {
      var front, last := rules[..|rules| - 1], rules[|rules| - 1];
      SelectedIsLongest(front, model);
      assert rules == front + [last];
    }
  }

  /** modelRulePricing */
  method ModelRule(rules: seq<Rule>, model: string) returns (best: Option<Rule>)
    ensures best == Selected(rules, model)
  {
    hide Matches, BoundaryPrefix;
    var bestIdx: int := -1;
    var bestLen: int := -1;
    for i := 0 to |rules|
      invariant -1 <= bestIdx < i
      invariant Selected(rules[..i], model) == if bestIdx == -1 then None else Some(rules[bestIdx])
      invariant bestLen == if bestIdx == -1 then -1 else |rules[bestIdx].model|
    {
      var rule := rules[i];
      assert rules[..i + 1][..i] == rules[..i];
      MatchesIsBoundaryPrefix(model, rule.model);
      if Matches(model, rule.model) && |rule.model| > bestLen {
        bestIdx := i;
        bestLen := |rule.model|;
      }
    }
    assert rules[..|rules|] == rules;
    if bestIdx == -1 {
      return None;
    }
    return Some(rules[bestIdx]);
  }

  /** The longest rule is one, whatever the order of the table. */
  lemma LongestIsUnique(rules: seq<Rule>, others: seq<Rule>, model: string, r: Rule, q: Rule)
    requires DistinctNames(rules) && multiset(rules) == multiset(others)
    requires Longest(rules, model, r) && Longest(others, model, q)
    ensures r == q
  {
    assert q in multiset(others) && r in multiset(rules);
    assert q in rules && r in others;
    assert r.model == model[..|r.model|] && q.model == model[..|q.model|];
  }

  /** With distinct names the order of the table does not matter. */
  lemma SelectedIgnoresOrder(rules: seq<Rule>, others: seq<Rule>, model: string)
    requires DistinctNames(rules) && multiset(rules) == multiset(others)
    ensures Selected(rules, model) == Selected(others, model)
  {
    hide BoundaryPrefix;
    SelectedIsLongest(rules, model);
    SelectedIsLongest(others, model);
    assert forall r :: r in rules <==> r in multiset(rules);
    assert forall r :: r in others <==> r in multiset(others);
    if Selected(rules, model).Some? && Selected(others, model).Some? {
      LongestIsUnique(rules, others, model, Selected(rules, model).value, Selected(others, model).value);
    }
  }

  lemma NamesDiffer(i: nat, j: nat)
    requires i < j < |Rules()|
    ensures Rules()[i].model != Rules()[j].model
  {
    var rules := Rules();
    assert |rules[0].model| == 7 && |rules[1].model| == 11 && |rules[2].model| == 12 && |rules[3].model| == 12;
    assert |rules[4].model| == 7 && |rules[5].model| == 11 && |rules[6].model| == 19 && |rules[7].model| == 13;
    assert |rules[8].model| == 7 && |rules[9].model| == 11 && |rules[10].model| == 6 && |rules[11].model| == 11;
    assert |rules[12].model| == 5 && |rules[13].model| == 13;
    assert rules[0].model[6] == '5' && rules[4].model[6] == '4' && rules[8].model[6] == '2';
    assert rules[1].model[6] == '5' && rules[5].model[6] == '4' && rules[9].model[6] == '-' && rules[11].model[6] == 't';
    assert rules[2].model[8] == 'm' && rules[3].model[8] == 'n';
    assert rules[7].model[4] == '5' && rules[13].model[4] == '3';
  }

  lemma NamesApart(rules: seq<Rule>)
    requires forall i, j :: 0 <= i < j < |rules| ==> rules[i].model != rules[j].model
    ensures DistinctNames(rules)
  {
  }

  /** The names in the table differ, so for every model the order of the table does not matter. */
  lemma RulesAreDistinct()
    ensures DistinctNames(Rules())
  {
    hide Rules, DistinctNames;
    forall i, j | 0 <= i < j < |Rules()|
      ensures Rules()[i].model != Rules()[j].model
    {
      NamesDiffer(i, j);
    }
    NamesApart(Rules());
  }

  // ----- the pricing of a model -----

  function TrimSlashes(s: string): string {
    if s != "" && s[0] == '/' then TrimSlashes(s[1..]) else s
  }

  function TrimPrefix(s: string, prefix: string): string {
    if HasPrefix(s, prefix) then s[|prefix|..] else s
  }

  /** What comes after the last occurrence of `part`. */
  function AfterLast(s: string, part: string): Option<string> {
    if |s| < |part| then None
    else if s[|s| - |part|..] == part then Some("")
    else if s == "" then None
    else
      match AfterLast(s[..|s| - 1], part)
      case None => None
      case Some(rest) => Some(rest + [s[|s| - 1]])
  }

  predicate OccursAt(s: string, part: string, k: int) {
    0 <= k <= |s| - |part| && s[k..k + |part|] == part
  }

  /** What is left comes right after an occurrence of `part`, and none is further on. */
  lemma {:induction false} AfterLastIsLast(s: string, part: string)
    requires part != ""
    ensures match AfterLast(s, part)
      case Some(rest) =>
        && var k := |s| - |rest| - |part|;
        && OccursAt(s, part, k) && s[k + |part|..] == rest
        && forall i :: OccursAt(s, part, i) ==> i <= k
      case None => forall i :: !OccursAt(s, part, i)
  {
    if |s| >= |part| && s[|s| - |part|..] != part {
      var front := s[..|s| - 1];
      AfterLastIsLast(front, part);
      assert s == front + [s[|s| - 1]];
      forall i
        ensures OccursAt(s, part, i) <==> OccursAt(front, part, i)
      {
        if 0 <= i < |s| - |part| {
          assert s[i..i + |part|] == front[i..i + |part|];
        }
      }
    }
  }

  /** normalizeBillingModelName */
  function BillingName(model: string): string {
    var trimmed := TrimSlashes(Lower(Trim(model)));
    var bare := TrimPrefix(TrimPrefix(trimmed, "models/"), "publishers/google/models/");
    var google := AfterLast(bare, "/publishers/google/models/");
    var path := if google.Some? then google.value else bare;
    var models, slash := AfterLast(path, "/models/"), AfterLast(path, "/");
    TrimSlashes(if models.Some? then models.value else if slash.Some? then slash.value else path)
  }

  predicate ContainsAny(s: string, parts: seq<string>) {
    exists i :: 0 <= i < |parts| && Contains(s, parts[i])
  }

  function ClaudeFamily(model: string): Option<ModelPricing> {
    if Contains(model, "opus") then
      if ContainsAny(model, ["4.7", "4-7", "4.6", "4-6", "4.5", "4-5"]) then Some(Flat(5.0, 25.0, 0.0)) else Some(Flat(15.0, 75.0, 0.0))
    else if Contains(model, "sonnet") then Some(Flat(3.0, 15.0, 0.0))
    else if Contains(model, "haiku") then
      if ContainsAny(model, ["3-5", "3.5"]) then Some(Flat(1.0, 5.0, 0.0)) else Some(Flat(0.25, 1.25, 0.0))
    else if Contains(model, "claude") then Some(Flat(3.0, 15.0, 0.0))
    else None
  }

  function GeminiFamily(model: string): Option<ModelPricing> {
    if ContainsAny(model, ["gemini-3.1-pro", "gemini-3-1-pro"]) then Some(Flat(2.0, 12.0, 0.0)) else None
  }

  function Compact(model: string): string {
    seq(|model|, i requires 0 <= i < |model| => if model[i] == ' ' || model[i] == '_' then '-' else LowerChar(model[i]))
  }

  /** normalizeCodexBillingModel */
  function CodexModel(model: string): Option<string> {
    var c := Compact(model);
    if ContainsAny(c, ["gpt-5.5-pro", "gpt5-5-pro", "gpt5.5-pro"]) then Some("gpt-5.5-pro")
    else if ContainsAny(c, ["gpt-5.5", "gpt5-5", "gpt5.5"]) then Some("gpt-5.5")
    else if ContainsAny(c, ["gpt-5.4-mini", "gpt5-4-mini", "gpt5.4-mini"]) then Some("gpt-5.4-mini")
    else if ContainsAny(c, ["gpt-5.4-nano", "gpt5-4-nano", "gpt5.4-nano"]) then Some("gpt-5.4-nano")
    else if ContainsAny(c, ["gpt-5.4-pro", "gpt5-4-pro", "gpt5.4-pro"]) then Some("gpt-5.4-pro")
    else if ContainsAny(c, ["gpt-5.4", "gpt5-4", "gpt5.4"]) then Some("gpt-5.4")
    else if ContainsAny(c, ["gpt-5.2", "gpt5-2", "gpt5.2"]) then Some("gpt-5.2")
    else if ContainsAny(c, ["gpt-5.3-codex-spark", "gpt5-3-codex-spark", "gpt5.3-codex-spark"]) then Some("gpt-5.3-codex-spark")
    else if ContainsAny(c, ["gpt-5.3-codex", "gpt5-3-codex", "gpt5.3-codex"]) then Some("gpt-5.3-codex")
    else if ContainsAny(c, ["gpt-5.3", "gpt5-3", "gpt5.3"]) then Some("gpt-5.3-codex")
    else if Contains(c, "codex-auto-review") then Some("gpt-5.4")
    else if Contains(c, "codex") then Some("gpt-5.3-codex")
    else if ContainsAny(c, ["gpt-5", "gpt5"]) then Some("gpt-5.4")
    else None
  }

  // ----- the prices a request is charged at -----

  datatype Prices = Prices(input: real, output: real, cacheRead: real)

  datatype ServiceTier = PriorityTier | FlexTier | StandardTier

  function TierOf(serviceTier: string): ServiceTier {
    var tier := Lower(Trim(serviceTier));
    if tier == "priority" || tier == "fast" then PriorityTier else if tier == "flex" then FlexTier else StandardTier
  }

  function TierMultiplier(tier: ServiceTier): real {
    match tier
    case PriorityTier => 2.0
    case FlexTier => 0.5
    case StandardTier => 1.0
  }

  predicate UsesPriorityPrices(tier: ServiceTier, p: ModelPricing) {
    tier == PriorityTier && (p.inputPriority > 0.0 || p.outputPriority > 0.0 || p.cacheReadPriority > 0.0)
  }

  function Pick(first: real, second: real, otherwise: real): real {
    if first > 0.0 then first else if second > 0.0 then second else otherwise
  }

  /** The prices for one side of the long-context threshold. */
  function BasePrices(p: ModelPricing, long: bool): Prices {
    if long && p.longInput > 0.0 then Prices(p.longInput, p.longOutput, if p.longCacheRead > 0.0 then p.longCacheRead else p.cacheRead)
    else Prices(p.input, p.output, p.cacheRead)
  }

  function PricesFor(p: ModelPricing, long: bool, tier: ServiceTier): Prices {
    var base := BasePrices(p, long);
    if !UsesPriorityPrices(tier, p) then base
    else Prices(
      Pick(if long then p.longInputPriority else 0.0, p.inputPriority, base.input),
      Pick(if long then p.longOutputPriority else 0.0, p.outputPriority, base.output),
      Pick(if long then p.longCacheReadPriority else 0.0, p.cacheReadPriority, base.cacheRead))
  }

  function Multiplier(p: ModelPricing, tier: ServiceTier): real {
    if UsesPriorityPrices(tier, p) then 1.0 else TierMultiplier(tier)
  }

  function CachedPart(inputTokens: int, cachedTokens: int): int {
    Min(Max(cachedTokens, 0), inputTokens)
  }

  const MILLION: real := 1000000.0

  function Part(tokens: int, price: real): real {
    tokens as real / MILLION * price
  }

  /** What the prices come to, before the multiplier. */
  function Charge(prices: Prices, inputTokens: int, outputTokens: int, cachedTokens: int): real {
    var cached := CachedPart(inputTokens, cachedTokens);
    var uncached := if prices.cacheRead > 0.0 then inputTokens - cached else inputTokens;
    Part(uncached, prices.input) + Part(cached, prices.cacheRead) + Part(outputTokens, prices.output)
  }

  function Cost(p: ModelPricing, inputTokens: int, outputTokens: int, cachedTokens: int, tier: ServiceTier): real {
    Charge(PricesFor(p, inputTokens > LONG_CONTEXT_THRESHOLD, tier), inputTokens, outputTokens, cachedTokens) * Multiplier(p, tier)
  }

  datatype CostBreakdown = CostBreakdown(
    inputCost: real, outputCost: real, cacheReadCost: real, totalCost: real,
    inputPrice: real, outputPrice: real, cacheReadPrice: real, multiplier: real, longContext: bool
  )

  /** The first half of CalculateCostBreakdown: the prices are reassigned step by step. */
  method SelectPrices(p: ModelPricing, isLong: bool, tier: ServiceTier) returns (prices: Prices, multiplier: real, longContextApplied: bool)
    ensures prices == PricesFor(p, isLong, tier) && multiplier == Multiplier(p, tier)
    ensures longContextApplied <==> isLong && p.longInput > 0.0
  {
    longContextApplied := false;
    var inputPrice, outputPrice, cacheReadPrice := p.input, p.output, p.cacheRead;
    if isLong && p.longInput > 0.0 {
      longContextApplied := true;
      inputPrice, outputPrice := p.longInput, p.longOutput;
      if p.longCacheRead > 0.0 {
        cacheReadPrice := p.longCacheRead;
      }
    }
    multiplier := TierMultiplier(tier);
    if UsesPriorityPrices(tier, p) {
      multiplier := 1.0;
      if isLong && p.longInputPriority > 0.0 {
        inputPrice := p.longInputPriority;
      } else if p.inputPriority > 0.0 {
        inputPrice := p.inputPriority;
      }
      if isLong && p.longOutputPriority > 0.0 {
        outputPrice := p.longOutputPriority;
      } else if p.outputPriority > 0.0 {
        outputPrice := p.outputPriority;
      }
      if isLong && p.longCacheReadPriority > 0.0 {
        cacheReadPrice := p.longCacheReadPriority;
      } else if p.cacheReadPriority > 0.0 {
        cacheReadPrice := p.cacheReadPriority;
      }
    }
    prices := Prices(inputPrice, outputPrice, cacheReadPrice);
  }

  lemma PartMeans(tokens: int, price: real, multiplier: real)
    ensures Part(tokens, price) * multiplier * MILLION == tokens as real * (price * multiplier)
  {
    var t := tokens as real / MILLION;
    assert t * MILLION == tokens as real;
    assert Part(tokens, price) * multiplier * MILLION == (t * MILLION) * (price * multiplier);
  }

  lemma PositiveTimes(x: real, m: real)
    requires m > 0.0
    ensures x * m > 0.0 <==> x > 0.0
  {
  }

  lemma Distribute(x: real, y: real, z: real, m: real)
    ensures x * m + y * m + z * m == (x + y + z) * m
  {
  }

  // ----- every input token is charged once -----

  /** What one input token is charged, by its place: the first ones are those read from the cache. */
  function TokenPrice(prices: Prices, place: nat, cached: int): real {
    if place < cached && prices.cacheRead > 0.0 then prices.cacheRead else prices.input
  }

  /** The charge for the first `n` input tokens, token by token. */
  function TokenByToken(prices: Prices, n: nat, cached: int): real {
    if n == 0 then 0.0 else TokenByToken(prices, n - 1, cached) + TokenPrice(prices, n - 1, cached) / MILLION
  }

  lemma OneMoreAt(n: int, price: real)
    ensures Part(n + 1, price) == Part(n, price) + price / MILLION
  {
  }

  lemma {:induction false} TokenByTokenSum(prices: Prices, n: nat, cached: nat)
    requires prices.cacheRead >= 0.0
    ensures var c := if prices.cacheRead > 0.0 then Min(cached, n) else 0;
      TokenByToken(prices, n, cached) == Part(n - c, prices.input) + Part(c, prices.cacheRead)
  {
    if n > 0 {
      TokenByTokenSum(prices, n - 1, cached);
      var c := if prices.cacheRead > 0.0 then Min(cached, n - 1) else 0;
      OneMoreAt(n - 1 - c, prices.input);
      OneMoreAt(c, prices.cacheRead);
    }
  }

  /** The charge is the sum over the input tokens, each at exactly one price, and the output tokens. */
  lemma EachTokenOnce(prices: Prices, inputTokens: nat, outputTokens: int, cachedTokens: int)
    requires prices.cacheRead >= 0.0
    ensures Charge(prices, inputTokens, outputTokens, cachedTokens) ==
      TokenByToken(prices, inputTokens, CachedPart(inputTokens, cachedTokens)) + Part(outputTokens, prices.output)
  {
    TokenByTokenSum(prices, inputTokens, CachedPart(inputTokens, cachedTokens));
  }

  // ----- monotonicity -----

  /** No price falls when the context gets long, and a cache read never costs more than the token itself. */
  predicate Ordered(short: Prices, long: Prices) {
    && 0.0 <= short.input <= long.input && 0.0 <= short.output <= long.output
    && 0.0 <= short.cacheRead <= short.input && 0.0 <= long.cacheRead <= long.input
    && short.cacheRead <= long.cacheRead && (long.cacheRead > 0.0 ==> short.cacheRead > 0.0)
  }

  predicate WellPriced(p: ModelPricing) {
    forall tier :: Ordered(PricesFor(p, false, tier), PricesFor(p, true, tier))
  }

  lemma ScaleReal(x: real, y: real, p: real, q: real)
    requires x <= y && 0.0 <= p <= q && (y >= 0.0 || p == q)
    ensures x * p <= y * q
  {
    assert x * p <= y * p;
    assert y * p <= y * q;
  }

  lemma Scale(x: int, y: int, p: real, q: real)
    requires x <= y && 0.0 <= p <= q && (y >= 0 || p == q)
    ensures Part(x, p) <= Part(y, q)
  {
    ScaleReal(x as real / MILLION, y as real / MILLION, p, q);
  }

  /** More input tokens, at the same prices or at those of a longer context, never cost less. */
  lemma ChargeGrows(short: Prices, long: Prices, x: int, y: int, outputTokens: nat, cachedTokens: int)
    requires x <= y && Ordered(short, long) && (y >= 0 || short == long)
    ensures Charge(short, x, outputTokens, cachedTokens) <= Charge(long, y, outputTokens, cachedTokens)
  {
    hide Part;
    var cx, cy := CachedPart(x, cachedTokens), CachedPart(y, cachedTokens);
    var priced := short.cacheRead > 0.0;
    Scale(outputTokens, outputTokens, short.output, long.output);
    Scale(if priced then x - cx else x, if priced then y - cy else y, short.input, long.input);
    Scale(cx, cy, short.cacheRead, long.cacheRead);
  }

  lemma SelfOrdered(s: Prices, l: Prices)
    requires Ordered(s, l)
    ensures Ordered(s, s) && Ordered(l, l)
  {
  }

  lemma MultiplierPositive(p: ModelPricing, tier: ServiceTier)
    ensures Multiplier(p, tier) > 0.0
  {
  }

  lemma GrowsWithInput(p: ModelPricing, x: int, y: int, outputTokens: nat, cachedTokens: int, tier: ServiceTier)
    requires WellPriced(p) && x <= y
    ensures Cost(p, x, outputTokens, cachedTokens, tier) <= Cost(p, y, outputTokens, cachedTokens, tier)
  {
    hide Charge, PricesFor, Multiplier;
    var s, l := PricesFor(p, false, tier), PricesFor(p, true, tier);
    assert Ordered(s, l);
    if y <= LONG_CONTEXT_THRESHOLD {
      SelfOrdered(s, l);
      ChargeGrows(s, s, x, y, outputTokens, cachedTokens);
    } else if x <= LONG_CONTEXT_THRESHOLD {
      ChargeGrows(s, l, x, y, outputTokens, cachedTokens);
    } else {
      SelfOrdered(s, l);
      ChargeGrows(l, l, x, y, outputTokens, cachedTokens);
    }
    MultiplierPositive(p, tier);
    ScaleReal(Charge(if x > LONG_CONTEXT_THRESHOLD then l else s, x, outputTokens, cachedTokens),
              Charge(if y > LONG_CONTEXT_THRESHOLD then l else s, y, outputTokens, cachedTokens), Multiplier(p, tier), Multiplier(p, tier));
  }

  /** More output tokens never cost less. */
  lemma GrowsWithOutput(p: ModelPricing, inputTokens: int, x: int, y: int, cachedTokens: int, tier: ServiceTier)
    requires WellPriced(p) && x <= y
    ensures Cost(p, inputTokens, x, cachedTokens, tier) <= Cost(p, inputTokens, y, cachedTokens, tier)
  {
    hide Part, PricesFor, Multiplier;
    var s, l := PricesFor(p, false, tier), PricesFor(p, true, tier);
    assert Ordered(s, l);
    var q := PricesFor(p, inputTokens > LONG_CONTEXT_THRESHOLD, tier);
    Scale(x, y, q.output, q.output);
    MultiplierPositive(p, tier);
    ScaleReal(Charge(q, inputTokens, x, cachedTokens), Charge(q, inputTokens, y, cachedTokens), Multiplier(p, tier), Multiplier(p, tier));
  }

  lemma TradeReal(a: real, b: real, moved: real, dear: real, cheap: real)
    requires 0.0 <= moved && cheap <= dear
    ensures (a - moved) * dear + (b + moved) * cheap <= a * dear + b * cheap
  {
    assert moved * cheap <= moved * dear;
    assert (a - moved) * dear == a * dear - moved * dear;
    assert (b + moved) * cheap == b * cheap + moved * cheap;
  }

  /** Moving tokens from a dear price to a cheaper one saves. */
  lemma Trade(a: int, b: int, a': int, b': int, dear: real, cheap: real)
    requires a + b == a' + b' && b <= b' && cheap <= dear
    ensures Part(a', dear) + Part(b', cheap) <= Part(a, dear) + Part(b, cheap)
  {
    var moved := (b' - b) as real / MILLION;
    assert a' as real / MILLION == a as real / MILLION - moved;
    assert b' as real / MILLION == b as real / MILLION + moved;
    assert moved * cheap <= moved * dear;
    TradeReal(a as real / MILLION, b as real / MILLION, moved, dear, cheap);
  }

  lemma FreeOfCharge(n: int)
    ensures Part(n, 0.0) == 0.0
  {
  }

  /** More of the input read from the cache never costs more. */
  lemma FallsWithCached(p: ModelPricing, inputTokens: int, outputTokens: int, x: int, y: int, tier: ServiceTier)
    requires WellPriced(p) && x <= y
    ensures Cost(p, inputTokens, outputTokens, y, tier) <= Cost(p, inputTokens, outputTokens, x, tier)
  {
    hide Part, PricesFor, Multiplier;
    var s, l := PricesFor(p, false, tier), PricesFor(p, true, tier);
    assert Ordered(s, l);
    var q := PricesFor(p, inputTokens > LONG_CONTEXT_THRESHOLD, tier);
    var cx, cy := CachedPart(inputTokens, x), CachedPart(inputTokens, y);
    if q.cacheRead > 0.0 {
      Trade(inputTokens - cx, cx, inputTokens - cy, cy, q.input, q.cacheRead);
    } else {
      FreeOfCharge(cx);
      FreeOfCharge(cy);
    }
    MultiplierPositive(p, tier);
    ScaleReal(Charge(q, inputTokens, outputTokens, y), Charge(q, inputTokens, outputTokens, x), Multiplier(p, tier), Multiplier(p, tier));
  }

  // ----- every model -----

  /** The name the price table is asked for. */
  function RuleName(name: string): string {
    match CodexModel(name)
    case Some(codex) => codex
    case None => name
  }

  /** GetModelPricing */
  function PricingOf(model: string): ModelPricing {
    var name := BillingName(model);
    if ClaudeFamily(name).Some? then ClaudeFamily(name).value
    else if GeminiFamily(name).Some? then GeminiFamily(name).value
    else
      match Selected(Rules(), RuleName(name))
      case Some(rule) => rule.pricing
      case None => Default()
  }

  method GetModelPricing(model: string) returns (p: ModelPricing)
    ensures p == PricingOf(model)
  {
    hide BillingName, Contains, ContainsAny, CodexModel, ClaudeFamily, GeminiFamily, Rules, Selected;
    var normalized := BillingName(model);
    var claude := ClaudeFamily(normalized);
    if claude.Some? {
      return claude.value;
    }
    var gemini := GeminiFamily(normalized);
    if gemini.Some? {
      return gemini.value;
    }
    var codex := CodexModel(normalized);
    if codex.Some? {
      normalized := codex.value;
    }
    var best := ModelRule(Rules(), normalized);
    if best.Some? {
      return best.value.pricing;
    }
    return Default();
  }

  lemma FlatWellPriced(input: real, output: real, cacheRead: real)
    requires 0.0 <= cacheRead <= input && 0.0 <= output
    ensures WellPriced(Flat(input, output, cacheRead))
  {
  }

  lemma PriorityWellPriced(input: real, inputPriority: real, output: real, outputPriority: real, cacheRead: real, cacheReadPriority: real)
    requires 0.0 <= cacheRead <= input && 0.0 <= output && 0.0 < cacheReadPriority <= inputPriority && 0.0 < outputPriority
    ensures WellPriced(WithPriority(input, inputPriority, output, outputPriority, cacheRead, cacheReadPriority))
  {
  }

  lemma LongContextWellPriced()
    ensures WellPriced(GPT55()) && WellPriced(GPT54()) && WellPriced(Pro())
  {
  }

  lemma FamiliesWellPriced(model: string)
    ensures ClaudeFamily(model).Some? ==> WellPriced(ClaudeFamily(model).value)
    ensures GeminiFamily(model).Some? ==> WellPriced(GeminiFamily(model).value)
    ensures WellPriced(Default())
  {
    hide Contains, ContainsAny, WellPriced;
    forall input, output | input in {5.0, 15.0, 3.0, 1.0, 0.25, 2.0} && output in {25.0, 75.0, 15.0, 5.0, 1.25, 12.0, 2.0}
      ensures WellPriced(Flat(input, output, 0.0))
    {
      FlatWellPriced(input, output, 0.0);
    }
  }

  lemma RulesWellPriced(r: Rule)
    requires r in Rules()
    ensures WellPriced(r.pricing)
  {
    hide WellPriced;
    LongContextWellPriced();
    FlatWellPriced(0.75, 4.5, 0.075);
    FlatWellPriced(0.2, 1.25, 0.02);
    PriorityWellPriced(1.25, 2.5, 10.0, 20.0, 0.125, 0.25);
    PriorityWellPriced(1.75, 3.5, 14.0, 28.0, 0.175, 0.35);
    FlatWellPriced(0.15, 0.6, 0.0);
    FlatWellPriced(2.5, 10.0, 0.0);
    FlatWellPriced(10.0, 30.0, 0.0);
    FlatWellPriced(30.0, 60.0, 0.0);
    FlatWellPriced(0.5, 1.5, 0.0);
  }

  /** No model has prices that fall in a long context, or a cache read dearer than a token. */
  lemma EveryModelWellPriced(model: string)
    ensures WellPriced(PricingOf(model))
  {
    hide BillingName, ClaudeFamily, GeminiFamily, CodexModel, Rules, Selected, WellPriced, BoundaryPrefix;
    var name := BillingName(model);
    FamiliesWellPriced(name);
    var best := Selected(Rules(), RuleName(name));
    SelectedIsLongest(Rules(), RuleName(name));
    if best.Some? {
      RulesWellPriced(best.value);
    }
  }

  /** What a request to a model costs. */
  function CostOf(model: string, inputTokens: int, outputTokens: int, cachedTokens: int, tier: ServiceTier): real {
    Cost(PricingOf(model), inputTokens, outputTokens, cachedTokens, tier)
  }

  /** For every model and service tier: more input, across the threshold too, never costs less. */
  lemma CostGrowsWithInput(model: string, x: int, y: int, outputTokens: nat, cachedTokens: int, tier: ServiceTier)
    requires x <= y
    ensures CostOf(model, x, outputTokens, cachedTokens, tier) <= CostOf(model, y, outputTokens, cachedTokens, tier)
  {
    hide PricingOf, Cost, WellPriced;
    EveryModelWellPriced(model);
    GrowsWithInput(PricingOf(model), x, y, outputTokens, cachedTokens, tier);
  }

  /** More output never costs less. */
  lemma CostGrowsWithOutput(model: string, inputTokens: int, x: int, y: int, cachedTokens: int, tier: ServiceTier)
    requires x <= y
    ensures CostOf(model, inputTokens, x, cachedTokens, tier) <= CostOf(model, inputTokens, y, cachedTokens, tier)
  {
    hide PricingOf, Cost, WellPriced;
    EveryModelWellPriced(model);
    GrowsWithOutput(PricingOf(model), inputTokens, x, y, cachedTokens, tier);
  }

  /** More of the input read from the cache never costs more. */
  lemma CostFallsWithCached(model: string, inputTokens: int, outputTokens: int, x: int, y: int, tier: ServiceTier)
    requires x <= y
    ensures CostOf(model, inputTokens, outputTokens, y, tier) <= CostOf(model, inputTokens, outputTokens, x, tier)
  {
    hide PricingOf, Cost, WellPriced;
    EveryModelWellPriced(model);
    FallsWithCached(PricingOf(model), inputTokens, outputTokens, x, y, tier);
  }

  // ----- the prices seen from outside -----

  lemma HalfOf(x: real)
    ensures x * 0.5 == x / 2.0
  {
  }

  /** For every model the flexible tier costs half; priority costs twice as much unless the model has priority prices. */
  lemma TiersCompared(model: string, inputTokens: int, outputTokens: int, cachedTokens: int)
    ensures CostOf(model, inputTokens, outputTokens, cachedTokens, FlexTier) ==
      CostOf(model, inputTokens, outputTokens, cachedTokens, StandardTier) / 2.0
    ensures var p := PricingOf(model);
      p.inputPriority == p.outputPriority == p.cacheReadPriority == 0.0 ==>
        CostOf(model, inputTokens, outputTokens, cachedTokens, PriorityTier) ==
          2.0 * CostOf(model, inputTokens, outputTokens, cachedTokens, StandardTier)
  {
    hide PricingOf, Charge;
    var p := PricingOf(model);
    HalfOf(Charge(PricesFor(p, inputTokens > LONG_CONTEXT_THRESHOLD, StandardTier), inputTokens, outputTokens, cachedTokens));
  }

  /**
   * A bill of six items: 200,000 input tokens, as they are and all from the cache, and 1,000,000 output tokens,
   * which stay below the long-context threshold; and the same above it, with 1,000,000 input tokens.
   */
  function Bill(p: ModelPricing, tier: ServiceTier): seq<real> {
    [Cost(p, 200_000, 0, 0, tier), Cost(p, 200_000, 0, 200_000, tier), Cost(p, 0, 1_000_000, 0, tier),
     Cost(p, 1_000_000, 0, 0, tier), Cost(p, 1_000_000, 0, 1_000_000, tier), Cost(p, 1_000_000, 1_000_000, 0, tier)]
  }

  lemma GPT55Bill()
    ensures Bill(GPT55(), StandardTier) == [1.0, 0.1, 30.0, 10.0, 1.0, 55.0]
    ensures Bill(GPT55(), PriorityTier) == [2.5, 0.25, 75.0, 25.0, 2.5, 137.5]
  {
  }

  lemma GPT54Bill()
    ensures Bill(GPT54(), StandardTier) == [0.5, 0.05, 15.0, 5.0, 0.5, 27.5]
    ensures Bill(GPT54(), PriorityTier) == [1.0, 0.1, 30.0, 10.0, 1.0, 55.0]
  {
  }

  lemma ProBill()
    ensures Bill(Pro(), StandardTier) == [6.0, 6.0, 180.0, 60.0, 60.0, 330.0]
    ensures Bill(Pro(), PriorityTier) == [15.0, 15.0, 450.0, 150.0, 150.0, 825.0]
  {
  }

  lemma FlatBill(input: real, output: real, cacheRead: real)
    requires cacheRead >= 0.0
    ensures Bill(Flat(input, output, cacheRead), StandardTier) ==
      var cached := if cacheRead > 0.0 then cacheRead else input;
      [input / 5.0, cached / 5.0, output, input, cached, input + output]
  {
  }

  lemma PriorityBill(input: real, inputPriority: real, output: real, outputPriority: real, cacheRead: real, cacheReadPriority: real)
    requires inputPriority > 0.0 && outputPriority > 0.0 && cacheRead > 0.0 && cacheReadPriority > 0.0
    ensures var p := WithPriority(input, inputPriority, output, outputPriority, cacheRead, cacheReadPriority);
      && Bill(p, StandardTier) == [input / 5.0, cacheRead / 5.0, output, input, cacheRead, input + output]
      && Bill(p, PriorityTier) ==
           [inputPriority / 5.0, cacheReadPriority / 5.0, outputPriority, inputPriority, cacheReadPriority, inputPriority + outputPriority]
  {
  }

  predicate Billed(i: nat, model: string, bill: seq<real>) {
    i < |Rules()| && Rules()[i].model == model && Bill(Rules()[i].pricing, StandardTier) == bill
  }

  predicate BilledFast(i: nat, bill: seq<real>) {
    i < |Rules()| && Bill(Rules()[i].pricing, PriorityTier) == bill
  }

  /** The whole table in dollars: the bill of each entry, and for those with priority prices the priority bill. */
  lemma PriceList()
    ensures |Rules()| == 14
    ensures Billed(0, "gpt-5.5", [1.0, 0.1, 30.0, 10.0, 1.0, 55.0]) && BilledFast(0, [2.5, 0.25, 75.0, 25.0, 2.5, 137.5])
    ensures Billed(1, "gpt-5.5-pro", [6.0, 6.0, 180.0, 60.0, 60.0, 330.0]) && BilledFast(1, [15.0, 15.0, 450.0, 150.0, 150.0, 825.0])
    ensures Billed(2, "gpt-5.4-mini", [0.15, 0.015, 4.5, 0.75, 0.075, 5.25])
    ensures Billed(3, "gpt-5.4-nano", [0.04, 0.004, 1.25, 0.2, 0.02, 1.45])
    ensures Billed(4, "gpt-5.4", [0.5, 0.05, 15.0, 5.0, 0.5, 27.5]) && BilledFast(4, [1.0, 0.1, 30.0, 10.0, 1.0, 55.0])
    ensures Billed(5, "gpt-5.4-pro", [6.0, 6.0, 180.0, 60.0, 60.0, 330.0]) && BilledFast(5, [15.0, 15.0, 450.0, 150.0, 150.0, 825.0])
    ensures Billed(6, "gpt-5.3-codex-spark", [0.25, 0.025, 10.0, 1.25, 0.125, 11.25])
    ensures BilledFast(6, [0.5, 0.05, 20.0, 2.5, 0.25, 22.5])
    ensures Billed(7, "gpt-5.3-codex", [0.35, 0.035, 14.0, 1.75, 0.175, 15.75]) && BilledFast(7, [0.7, 0.07, 28.0, 3.5, 0.35, 31.5])
    ensures Billed(8, "gpt-5.2", [0.35, 0.035, 14.0, 1.75, 0.175, 15.75]) && BilledFast(8, [0.7, 0.07, 28.0, 3.5, 0.35, 31.5])
    ensures Billed(9, "gpt-4o-mini", [0.03, 0.03, 0.6, 0.15, 0.15, 0.75])
    ensures Billed(10, "gpt-4o", [0.5, 0.5, 10.0, 2.5, 2.5, 12.5])
    ensures Billed(11, "gpt-4-turbo", [2.0, 2.0, 30.0, 10.0, 10.0, 40.0])
    ensures Billed(12, "gpt-4", [6.0, 6.0, 60.0, 30.0, 30.0, 90.0])
    ensures Billed(13, "gpt-3.5-turbo", [0.1, 0.1, 1.5, 0.5, 0.5, 2.0])
  {
    hide Bill;
    GPT55Bill();
    GPT54Bill();
    ProBill();
    FlatBill(0.75, 4.5, 0.075);
    FlatBill(0.2, 1.25, 0.02);
    PriorityBill(1.25, 2.5, 10.0, 20.0, 0.125, 0.25);
    PriorityBill(1.75, 3.5, 14.0, 28.0, 0.175, 0.35);
    FlatBill(0.15, 0.6, 0.0);
    FlatBill(2.5, 10.0, 0.0);
    FlatBill(10.0, 30.0, 0.0);
    FlatBill(30.0, 60.0, 0.0);
    FlatBill(0.5, 1.5, 0.0);
  }

  lemma {:induction false} ContainedLetters(s: string, part: string)
    requires Contains(s, part)
    ensures forall c :: c in part ==> c in s
  {
    if !(part <= s) {
      ContainedLetters(s[1..], part);
    }
  }

  lemma OtherLetter(s: string, part: string, c: char)
    requires c in part && c !in s
    ensures !Contains(s, part)
  {
    if Contains(s, part) {
      ContainedLetters(s, part);
    }
  }

  lemma NoneContained(s: string, parts: seq<string>, c: char)
    requires c !in s && forall p :: p in parts ==> c in p
    ensures !ContainsAny(s, parts)
  {
    forall i | 0 <= i < |parts|
      ensures !Contains(s, parts[i])
    {
      OtherLetter(s, parts[i], c);
    }
  }

  lemma {:induction false} NoLast(s: string, part: string, c: char)
    requires c !in s && c in part
    ensures AfterLast(s, part) == None
  {
    if |s| >= |part| && s != "" {
      assert s[|s| - |part|..] != part;
      NoLast(s[..|s| - 1], part, c);
    }
  }

  /** A name without a path is only trimmed and lowered. */
  lemma PathlessName(model: string)
    requires '/' !in Lower(Trim(model))
    ensures BillingName(model) == Lower(Trim(model))
  {
    hide Trim, Lower;
    var name := Lower(Trim(model));
    assert TrimSlashes(name) == name;
    assert "models/"[6] == '/' && "publishers/google/models/"[10] == '/';
    assert !HasPrefix(name, "models/") && !HasPrefix(name, "publishers/google/models/");
    NoLast(name, "/publishers/google/models/", '/');
    NoLast(name, "/models/", '/');
    NoLast(name, "/", '/');
  }

  /** The plain name of a table entry that belongs to no family is priced by that entry. */
  lemma EntryPriced(name: string, i: nat)
    requires i < |Rules()| && Rules()[i].model == name
    ensures Selected(Rules(), name) == Some(Rules()[i])
  {
    hide Rules;
    SelectedIsLongest(Rules(), name);
    RulesAreDistinct();
    assert BoundaryPrefix(name, Rules()[i].model);
    var best := Selected(Rules(), name).value;
    assert best.model == name[..|best.model|];
  }

  /** Without a 5 and without codex in its name a model is none of the codex family. */
  lemma NoCodex(name: string)
    requires '5' !in Compact(name) && 'x' !in Compact(name)
    ensures CodexModel(name) == None
  {
    hide ContainsAny, Contains, Compact;
    var c := Compact(name);
    NoneContained(c, ["gpt-5.5-pro", "gpt5-5-pro", "gpt5.5-pro"], '5');
    NoneContained(c, ["gpt-5.5", "gpt5-5", "gpt5.5"], '5');
    NoneContained(c, ["gpt-5.4-mini", "gpt5-4-mini", "gpt5.4-mini"], '5');
    NoneContained(c, ["gpt-5.4-nano", "gpt5-4-nano", "gpt5.4-nano"], '5');
    NoneContained(c, ["gpt-5.4-pro", "gpt5-4-pro", "gpt5.4-pro"], '5');
    NoneContained(c, ["gpt-5.4", "gpt5-4", "gpt5.4"], '5');
    NoneContained(c, ["gpt-5.2", "gpt5-2", "gpt5.2"], '5');
    NoneContained(c, ["gpt-5.3-codex-spark", "gpt5-3-codex-spark", "gpt5.3-codex-spark"], '5');
    NoneContained(c, ["gpt-5.3-codex", "gpt5-3-codex", "gpt5.3-codex"], '5');
    NoneContained(c, ["gpt-5.3", "gpt5-3", "gpt5.3"], '5');
    NoneContained(c, ["gpt-5", "gpt5"], '5');
    OtherLetter(c, "codex-auto-review", 'x');
    OtherLetter(c, "codex", 'x');
  }

  lemma {:induction false} TooLong(s: string, part: string)
    requires |part| > |s|
    ensures !Contains(s, part)
  {
    if s != "" {
      TooLong(s[1..], part);
    }
  }

  lemma AllTooLong(s: string, p: string, q: string, r: string)
    requires |p| > |s| && |q| > |s| && |r| > |s|
    ensures !ContainsAny(s, [p, q, r])
  {
    TooLong(s, p);
    TooLong(s, q);
    TooLong(s, r);
  }

  lemma OneContained(s: string, parts: seq<string>, i: nat)
    requires i < |parts| && (s == parts[i] || Contains(s, parts[i]))
    ensures Contains(s, parts[i]) && ContainsAny(s, parts)
  {
    assert s == parts[i] ==> parts[i] <= s;
  }

  /** A name too short for any version is of the codex family only by the family's own name. */
  lemma ShortNames(name: string)
    requires |name| <= 5
    ensures CodexModel(name) ==
      if Contains(Compact(name), "codex") then Some("gpt-5.3-codex")
      else if ContainsAny(Compact(name), ["gpt-5", "gpt5"]) then Some("gpt-5.4")
      else None
  {
    var c := Compact(name);
    assert |c| <= 5;
    hide ContainsAny, Contains, Compact;
    AllTooLong(c, "gpt-5.5-pro", "gpt5-5-pro", "gpt5.5-pro");
    AllTooLong(c, "gpt-5.5", "gpt5-5", "gpt5.5");
    AllTooLong(c, "gpt-5.4-mini", "gpt5-4-mini", "gpt5.4-mini");
    AllTooLong(c, "gpt-5.4-nano", "gpt5-4-nano", "gpt5.4-nano");
    AllTooLong(c, "gpt-5.4-pro", "gpt5-4-pro", "gpt5.4-pro");
    AllTooLong(c, "gpt-5.4", "gpt5-4", "gpt5.4");
    AllTooLong(c, "gpt-5.2", "gpt5-2", "gpt5.2");
    AllTooLong(c, "gpt-5.3-codex-spark", "gpt5-3-codex-spark", "gpt5.3-codex-spark");
    AllTooLong(c, "gpt-5.3-codex", "gpt5-3-codex", "gpt5.3-codex");
    AllTooLong(c, "gpt-5.3", "gpt5-3", "gpt5.3");
    TooLong(c, "codex-auto-review");
  }

  /** The plain names of the two families. */
  lemma Unversioned()
    ensures RuleName("gpt-5") == RuleName("GPT5") == "gpt-5.4" && RuleName("codex") == "gpt-5.3-codex"
  {
    assert Compact("gpt-5") == "gpt-5" && Compact("GPT5") == "gpt5" && Compact("codex") == "codex";
    hide ContainsAny, Contains, Compact;
    ShortNames("gpt-5");
    ShortNames("GPT5");
    ShortNames("codex");
    OtherLetter("gpt-5", "codex", 'c');
    OtherLetter("gpt5", "codex", 'c');
    OneContained("gpt-5", ["gpt-5", "gpt5"], 0);
    OneContained("gpt5", ["gpt-5", "gpt5"], 1);
    OneContained("codex", ["codex"], 0);
  }

  lemma ContainedAfter(front: string, part: string, back: string)
    ensures Contains(front + part + back, part)
  {
    var s := front + part + back;
    if front == "" {
      assert part <= s;
    } else {
      assert s[1..] == front[1..] + part + back;
      ContainedAfter(front[1..], part, back);
    }
  }

  /** Opus, by its plain name and by the versions with prices of their own. */
  lemma OpusPrices()
    ensures ClaudeFamily("opus") == Some(Flat(15.0, 75.0, 0.0)) && ClaudeFamily("opus-4.5") == Some(Flat(5.0, 25.0, 0.0))
  {
    hide Contains, ContainsAny;
    ContainedAfter("", "opus", "");
    ContainedAfter("", "opus", "-4.5");
    assert "" + "opus" + "" == "opus" && "" + "opus" + "-4.5" == "opus-" + "4.5" + "" == "opus-4.5";
    ContainedAfter("opus-", "4.5", "");
    OneContained("opus-4.5", ["4.7", "4-7", "4.6", "4-6", "4.5", "4-5"], 4);
    NoneContained("opus", ["4.7", "4-7", "4.6", "4-6", "4.5", "4-5"], '4');
  }

  lemma HaikuPrices()
    ensures ClaudeFamily("haiku") == Some(Flat(0.25, 1.25, 0.0)) && ClaudeFamily("haiku-3.5") == Some(Flat(1.0, 5.0, 0.0))
  {
    hide Contains, ContainsAny;
    ContainedAfter("", "haiku", "");
    ContainedAfter("", "haiku", "-3.5");
    assert "" + "haiku" + "" == "haiku" && "" + "haiku" + "-3.5" == "haiku-" + "3.5" + "" == "haiku-3.5";
    ContainedAfter("haiku-", "3.5", "");
    OneContained("haiku-3.5", ["3-5", "3.5"], 1);
    NoneContained("haiku", ["3-5", "3.5"], '3');
    OtherLetter("haiku", "opus", 'o');
    OtherLetter("haiku-3.5", "opus", 'o');
    OtherLetter("haiku", "sonnet", 'o');
    OtherLetter("haiku-3.5", "sonnet", 'o');
  }

  /** Sonnet and the other claude models, and the one gemini model with a price of its own. */
  lemma OtherFamilyPrices()
    ensures ClaudeFamily("sonnet") == ClaudeFamily("claude") == Some(Flat(3.0, 15.0, 0.0))
    ensures GeminiFamily("gemini-3.1-pro") == Some(Flat(2.0, 12.0, 0.0))
  {
    hide Contains, ContainsAny;
    ContainedAfter("", "sonnet", "");
    ContainedAfter("", "claude", "");
    assert "" + "sonnet" + "" == "sonnet" && "" + "claude" + "" == "claude";
    OtherLetter("sonnet", "opus", 'p');
    OtherLetter("claude", "opus", 'p');
    OtherLetter("claude", "sonnet", 's');
    OtherLetter("claude", "haiku", 'h');
    OneContained("gemini-3.1-pro", ["gemini-3.1-pro", "gemini-3-1-pro"], 0);
  }

  lemma GPT4oHasNoFamily()
    ensures ClaudeFamily("gpt-4o") == None && GeminiFamily("gpt-4o") == None
  {
    hide Contains, ContainsAny;
    var name := "gpt-4o";
    OtherLetter(name, "opus", 's');
    OtherLetter(name, "sonnet", 's');
    OtherLetter(name, "haiku", 'h');
    OtherLetter(name, "claude", 'c');
    NoneContained(name, ["gemini-3.1-pro", "gemini-3-1-pro"], 'm');
  }

  lemma GPT4oPricing(model: string)
    requires Lower(Trim(model)) == "gpt-4o"
    ensures PricingOf(model) == Flat(2.5, 10.0, 0.0)
  {
    hide Selected, Contains, ContainsAny, Trim, Lower, CodexModel, ClaudeFamily, GeminiFamily, BillingName;
    PathlessName(model);
    GPT4oHasNoFamily();
    assert Compact("gpt-4o") == "gpt-4o";
    NoCodex("gpt-4o");
    EntryPriced("gpt-4o", 10);
  }

  /** One model from its name to the bill. */
  lemma GPT4oCosts()
    ensures CostOf("gpt-4o", 1_000_000, 0, 0, StandardTier) == 2.5
    ensures CostOf("gpt-4o", 0, 1_000_000, 0, StandardTier) == 10.0
    ensures CostOf(" GPT-4o", 1_000_000, 0, 0, FlexTier) == 1.25
  {
    hide PricingOf;
    assert Trim("gpt-4o") == "gpt-4o" && Lower("gpt-4o") == "gpt-4o" && Lower("GPT-4o") == "gpt-4o";
    assert " GPT-4o"[1..] == "GPT-4o" && Trim("GPT-4o") == "GPT-4o";
    GPT4oPricing("gpt-4o");
    GPT4oPricing(" GPT-4o");
  }

  /** Priority and flex by their names, whatever their case and the blanks around them; any other tier is the standard one. */
  lemma TiersByName(serviceTier: string)
    ensures TierMultiplier(TierOf(serviceTier)) ==
      if Lower(Trim(serviceTier)) in {"priority", "fast"} then 2.0 else if Lower(Trim(serviceTier)) == "flex" then 0.5 else 1.0
  {
  }

  /** The second half of CalculateCostBreakdown: what the tokens cost at the prices selected. */
  method ChargeTokens(prices: Prices, inputTokens: int, outputTokens: int, cachedTokens: int)
    returns (inputCost: real, cacheReadCost: real, outputCost: real)
    ensures inputCost + cacheReadCost + outputCost == Charge(prices, inputTokens, outputTokens, cachedTokens)
    ensures var cached := if cachedTokens < 0 then Min(0, inputTokens) else Min(cachedTokens, inputTokens);
      && inputCost == Part(if prices.cacheRead > 0.0 then inputTokens - cached else inputTokens, prices.input)
      && cacheReadCost == Part(cached, prices.cacheRead) && outputCost == Part(outputTokens, prices.output)
  {
    hide Part;
    var cached := cachedTokens;
    if cached < 0 {
      cached := 0;
    }
    if cached > inputTokens {
      cached := inputTokens;
    }
    var uncached := inputTokens;
    if prices.cacheRead > 0.0 {
      uncached := inputTokens - cached;
    }
    inputCost := Part(uncached, prices.input);
    cacheReadCost := Part(cached, prices.cacheRead);
    outputCost := Part(outputTokens, prices.output);
  }

  method CalculateCostBreakdown(model: string, inputTokens: int, outputTokens: int, cachedTokens: int, serviceTier: string)
    returns (b: CostBreakdown)
    ensures b.totalCost == CostOf(model, inputTokens, outputTokens, cachedTokens, TierOf(serviceTier))
    ensures b.inputCost + b.cacheReadCost + b.outputCost == b.totalCost
    ensures b.longContext <==> inputTokens > LONG_CONTEXT_THRESHOLD && PricingOf(model).longInput > 0.0
    // each part is its tokens at its price, and each price the model's, with the multiplier of the tier
    ensures var cached := if cachedTokens < 0 then Min(0, inputTokens) else Min(cachedTokens, inputTokens);
      && b.inputCost * MILLION == (if b.cacheReadPrice > 0.0 then inputTokens - cached else inputTokens) as real * b.inputPrice
      && b.cacheReadCost * MILLION == cached as real * b.cacheReadPrice
      && b.outputCost * MILLION == outputTokens as real * b.outputPrice
    ensures var prices := PricesFor(PricingOf(model), inputTokens > LONG_CONTEXT_THRESHOLD, TierOf(serviceTier));
      && b.inputPrice == prices.input * b.multiplier && b.outputPrice == prices.output * b.multiplier
      && b.cacheReadPrice == prices.cacheRead * b.multiplier
    ensures b.multiplier == Multiplier(PricingOf(model), TierOf(serviceTier)) > 0.0
  {
    hide TierOf, PricesFor, Multiplier, Part, PricingOf, Charge;
    var p := GetModelPricing(model);
    var prices, multiplier, longContextApplied := SelectPrices(p, inputTokens > LONG_CONTEXT_THRESHOLD, TierOf(serviceTier));
    var inputCost, cacheReadCost, outputCost := ChargeTokens(prices, inputTokens, outputTokens, cachedTokens);
    Distribute(inputCost, cacheReadCost, outputCost, multiplier);
    MultiplierPositive(p, TierOf(serviceTier));
    PositiveTimes(prices.cacheRead, multiplier);
    ghost var cached := if cachedTokens < 0 then Min(0, inputTokens) else Min(cachedTokens, inputTokens);
    PartMeans(if prices.cacheRead > 0.0 then inputTokens - cached else inputTokens, prices.input, multiplier);
    PartMeans(cached, prices.cacheRead, multiplier);
    PartMeans(outputTokens, prices.output, multiplier);
    b := CostBreakdown(
      inputCost * multiplier, outputCost * multiplier, cacheReadCost * multiplier, (inputCost + cacheReadCost + outputCost) * multiplier,
      prices.input * multiplier, prices.output * multiplier, prices.cacheRead * multiplier, multiplier, longContextApplied);
  }
}
