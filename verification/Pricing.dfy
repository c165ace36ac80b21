/** What a request is estimated to cost: four components, each rounded to the nearest
    billionth of a unit. Rates and multipliers are taken as the scaled integers the
    source computes with. */
module Pricing {
  import opened Text
  import opened Trimming
  import opened Amounts

  const MULTIPLIER_SCALE: nat := 1_000_000
  const MAX128: nat := 0xFFFF_FFFF_FFFF_FFFF_FFFF_FFFF_FFFF_FFFF

  /** `long` is the tier for long contexts, if there is one. */
  datatype LongContext = LongContext(threshold: U64, appliesAbove: bool, inputMultiplier: nat, outputMultiplier: nat)
  {
    predicate Fits() {
      threshold > 0 && inputMultiplier <= MAX128 && outputMultiplier <= MAX128
    }
  }

  /** A rate that scaling refuses, as it does negative ones, is a number beyond 128 bits here. */
  datatype Rates = Rates(uncachedInput: nat, cachedReadInput: nat, cacheCreationInput: nat, output: nat)
  {
    predicate Fit() {
      uncachedInput <= MAX128 && cachedReadInput <= MAX128 && cacheCreationInput <= MAX128 && output <= MAX128
    }
  }

  /** How the calendar and address libraries read a text: as a day, and as an address with a scheme. */
  datatype Readers = Readers(day: string -> Option<int>, scheme: string -> Option<string>)

  predicate IsUppercase(c: char) {
    'A' <= c <= 'Z'
  }

  predicate Distinct(ms: seq<string>) {
    forall i, j | 0 <= i < j < |ms| :: ms[i] != ms[j]
  }

  datatype Pricing = Pricing(
    models: seq<string>, currency: string, unitTokens: U64, effectiveAsOf: string, validThrough: Option<string>,
    provenanceKind: string, provenanceUrl: string, rates: Rates, long: Option<LongContext>)
  {
    /** What the source demands of a price list before it estimates anything with it. */
    predicate Valid(read: Readers) {
      && models != [] && (forall m | m in models :: !Blank(m)) && Distinct(models)
      && currency != "" && (forall c | c in currency :: IsUppercase(c))
      && unitTokens > 0
      && InForce(read)
      && !Blank(provenanceKind)
      && (read.scheme(provenanceUrl) == Some("http") || read.scheme(provenanceUrl) == Some("https"))
      && rates.Fit()
      && (long.Some? ==> long.value.Fits())
    }

    predicate InForce(read: Readers) {
      && read.day(effectiveAsOf).Some?
      && (validThrough.Some? ==>
            read.day(validThrough.value).Some? && read.day(effectiveAsOf).value <= read.day(validThrough.value).value)
    }

    predicate InLongTier(usage: Usage) {
      long.Some? &&
      if long.value.appliesAbove then usage.TotalInput() > long.value.threshold
          else usage.TotalInput() >= long.value.threshold
    }

    function InputMultiplier(usage: Usage): nat {
      if InLongTier(usage) then long.value.inputMultiplier else MULTIPLIER_SCALE
    }

    function OutputMultiplier(usage: Usage): nat {
      if InLongTier(usage) then long.value.outputMultiplier else MULTIPLIER_SCALE
    }

    function Denominator(): nat {
      unitTokens * MULTIPLIER_SCALE
    }

    /** Tokens, rate and multiplier of each component. */
    function Components(usage: Usage): (c: seq<Component>)
      ensures |c| == 4
    {
      [Component(usage.uncachedInput, rates.uncachedInput, InputMultiplier(usage)),
       Component(usage.cacheReadInput, rates.cachedReadInput, InputMultiplier(usage)),
       Component(usage.cacheCreationInput, rates.cacheCreationInput, InputMultiplier(usage)),
       Component(usage.output, rates.output, OutputMultiplier(usage))]
    }
  }

  datatype Component = Component(tokens: U64, rate: nat, multiplier: nat)
  {
    function Exact(): nat {
      tokens * rate * multiplier
    }
  }

  function Rounded(numerator: nat, denominator: nat): nat
    requires denominator > 0
  {
    (numerator + denominator / 2) / denominator
  }

  /** The sum of the rounded components, or nothing if any step leaves 128 bits. */
  function SumRounded(components: seq<Component>, denominator: nat): Option<nat>
    requires denominator > 0
  {
    if components == [] then Some(0)
    else
      var last := components[|components| - 1];
      var before := SumRounded(components[..|components| - 1], denominator);
      if before.None? || last.tokens * last.rate > MAX128 || last.Exact() > MAX128 ||
          last.Exact() + denominator / 2 > MAX128 ||
         before.value + Rounded(last.Exact(), denominator) > MAX128
      then None
      else Some(before.value + Rounded(last.Exact(), denominator))
  }

  function ExactSum(components: seq<Component>): nat {
    if components == [] then 0
    else ExactSum(components[..|components| - 1]) + components[|components| - 1].Exact()
  }

  /** The estimate: none for other models, an error when a number does not fit. */
  function Estimate(read: Readers, p: Pricing, model: string, usage: Usage): Result<Option<Cost>> {
    if !p.Valid(read) then Err("invalid pricing")
    else if model !in p.models then Ok(None)
    else if p.Denominator() > MAX128 then Err("overflow")
    else
      match SumRounded(p.Components(usage), p.Denominator())
      case None => Err("overflow")
      case Some(nanos) =>
        if nanos > MAX64 then Err("overflow")
        else Ok(Some(Cost(p.currency, nanos, !usage.breakdownComplete, false, p.InLongTier(usage), p.effectiveAsOf,
                          p.validThrough, p.provenanceKind)))
  }

  /** The price list is accepted exactly when it is valid. */
  method Validate(read: Readers, p: Pricing) returns (accepted: bool)
    ensures accepted == p.Valid(read)
  {
    if p.models == [] {
      return false;
    }
    var models: set<string> := {};
    for i := 0 to |p.models|
      invariant forall m :: m in models <==> m in p.models[..i]
      invariant (forall m | m in p.models[..i] :: !Blank(m)) && Distinct(p.models[..i])
    {
      var model := p.models[i];
      assert p.models[..i + 1] == p.models[..i] + [model];
      if Blank(model) || model in models {
        return false;
      }
      models := models + {model};
    }
    assert p.models[..|p.models|] == p.models;
    if p.currency == "" || !(forall c | c in p.currency :: 'A' <= c <= 'Z') || p.unitTokens == 0 {
      return false;
    }
    var effective := read.day(p.effectiveAsOf);
    if effective.None? {
      return false;
    }
    if p.validThrough.Some? {
      var valid := read.day(p.validThrough.value);
      if valid.None? || valid.value < effective.value {
        return false;
      }
    }
    if Blank(p.provenanceKind) {
      return false;
    }
    var scheme := read.scheme(p.provenanceUrl);
    if scheme != Some("http") && scheme != Some("https") {
      return false;
    }
    if p.rates.uncachedInput > MAX128 || p.rates.cachedReadInput > MAX128 || p.rates.cacheCreationInput > MAX128 ||
       p.rates.output > MAX128 {
      return false;
    }
    if p.long.Some? {
      var long := p.long.value;
      if long.threshold == 0 || long.inputMultiplier > MAX128 || long.outputMultiplier > MAX128 {
        return false;
      }
    }
    return true;
  }

  method EstimateCost(read: Readers, p: Pricing, model: string, usage: Usage) returns (r: Result<Option<Cost>>)
    ensures r == Estimate(read, p, model, usage)
  {
    var accepted := Validate(read, p);
    if !accepted {
      return Err("invalid pricing");
    }
    if model !in p.models {
      return Ok(None);
    }
    var denominator := p.Denominator();
    if denominator > MAX128 {
      return Err("overflow");
    }
    var components := p.Components(usage);
    var nanos: nat := 0;
    for i := 0 to |components|
      invariant SumRounded(components[..i], denominator) == Some(nanos)
    {
      var c := components[i];
      assert components[..i + 1][..i] == components[..i] && components[..i + 1][i] == c;
      if c.tokens * c.rate > MAX128 || c.Exact() > MAX128 || c.Exact() + denominator / 2 > MAX128 {
        OverflowStays(components, denominator, i + 1);
        return Err("overflow");
      }
      var rounded := Rounded(c.Exact(), denominator);
      if nanos + rounded > MAX128 {
        OverflowStays(components, denominator, i + 1);
        return Err("overflow");
      }
      nanos := nanos + rounded;
    }
    assert components[..|components|] == components;
    if nanos > MAX64 {
      return Err("overflow");
    }
    return Ok(Some(Cost(p.currency, nanos, !usage.breakdownComplete, false, p.InLongTier(usage), p.effectiveAsOf,
                        p.validThrough, p.provenanceKind)));
  }

  lemma {:induction false} OverflowStays(components: seq<Component>, denominator: nat, i: nat)
    requires denominator > 0 && i <= |components| && SumRounded(components[..i], denominator).None?
    ensures SumRounded(components, denominator).None?
    decreases |components| - i
  {
    if i == |components| {
      assert components[..i] == components;
    } else {
      assert components[..i + 1][..i] == components[..i];
      OverflowStays(components, denominator, i + 1);
    }
  }

  // ----- how far the estimate is from the exact cost ----------------------------------

  lemma RoundedIsNear(numerator: nat, denominator: nat)
    requires denominator > 0
    ensures 2 * denominator * Rounded(numerator, denominator) <= 2 * numerator + denominator
    ensures 2 * numerator <= 2 * denominator * Rounded(numerator, denominator) + denominator
  {
    var half := denominator / 2;
    var q := Rounded(numerator, denominator);
    DivisionBounds(numerator + half, denominator);
    assert denominator * q <= numerator + half < denominator * q + denominator;
    assert 2 * half <= denominator <= 2 * half + 1;
    assert 2 * denominator * q == 2 * (denominator * q);
  }

  lemma DivisionBounds(n: nat, d: nat)
    requires d > 0
    ensures d * (n / d) <= n < d * (n / d) + d
  {
  }

  lemma {:induction false} SumIsNear(components: seq<Component>, denominator: nat)
    requires denominator > 0 && SumRounded(components, denominator).Some?
    ensures var sum := SumRounded(components, denominator).value;
            && 2 * denominator * sum <= 2 * ExactSum(components) + |components| * denominator
            && 2 * ExactSum(components) <= 2 * denominator * sum + |components| * denominator
  {
    hide Rounded;
    if components != [] {
      var n := |components| - 1;
      var before, last := SumRounded(components[..n], denominator).value, components[n];
      SumIsNear(components[..n], denominator);
      RoundedIsNear(last.Exact(), denominator);
      Distribute(2 * denominator, before, Rounded(last.Exact(), denominator));
      assert (n + 1) * denominator == n * denominator + denominator;
    }
  }

  lemma Distribute(a: nat, b: nat, c: nat)
    ensures a * (b + c) == a * b + a * c
  {
  }

  /** Each count at its own rate: input at the multiplier for input, output at that for output. */
  function ExactCost(p: Pricing, usage: Usage, input: nat, output: nat): nat {
    Charge(usage.uncachedInput, p.rates.uncachedInput, input) +
    Charge(usage.cacheReadInput, p.rates.cachedReadInput, input) +
    Charge(usage.cacheCreationInput, p.rates.cacheCreationInput, input) +
    Charge(usage.output, p.rates.output, output)
  }

  function Charge(tokens: nat, rate: nat, multiplier: nat): nat {
    tokens * rate * multiplier
  }

  /** Whether the input, as reported or else as the sum of its parts, reaches the tier for long contexts. */
  predicate Long(tier: LongContext, usage: Usage) {
    var input := if usage.totalInputReported.Some? then usage.totalInputReported.value
        else usage.uncachedInput + usage.cacheReadInput + usage.cacheCreationInput;
    var counted := if input > MAX64 then MAX64 else input;
    counted > tier.threshold || (!tier.appliesAbove && counted == tier.threshold)
  }

  /** The estimate is within two billionths of the exact cost, whatever the usage; the long
      tier multiplies both sides. */
  lemma EstimateIsNear(read: Readers, p: Pricing, model: string, usage: Usage)
    requires Estimate(read, p, model, usage).Ok? && Estimate(read, p, model, usage).value.Some?
    ensures var cost, d := Estimate(read, p, model, usage).value.value, p.unitTokens * 1_000_000;
            var long := p.long.Some? && Long(p.long.value, usage);
            var exact := if long then ExactCost(p, usage, p.long.value.inputMultiplier, p.long.value.outputMultiplier)
                else ExactCost(p, usage, 1_000_000, 1_000_000);
            && d * cost.nanos <= exact + 2 * d && exact <= d * cost.nanos + 2 * d
            && cost == Cost(p.currency, cost.nanos, !usage.breakdownComplete, false, long, p.effectiveAsOf,
                            p.validThrough, p.provenanceKind)
  {
    hide Rounded, SumRounded, ExactSum, ExactCost;
    SumIsNear(p.Components(usage), p.Denominator());
    ComponentsCost(p, usage);
    assert 2 * p.Denominator() * Estimate(read, p, model, usage).value.value.nanos ==
           2 * (p.Denominator() * Estimate(read, p, model, usage).value.value.nanos);
  }

  lemma ComponentsCost(p: Pricing, usage: Usage)
    ensures ExactSum(p.Components(usage)) == ExactCost(p, usage, p.InputMultiplier(usage), p.OutputMultiplier(usage))
  {
    hide Component.Exact;
    var c := p.Components(usage);
    assert c[..3] == [c[0], c[1], c[2]] && c[..3][..2] == [c[0], c[1]] && c[..3][..2][..1] == [c[0]] &&
           c[..3][..2][..1][..0] == [];
    assert ExactSum([]) == 0 && ExactSum([c[0]]) == c[0].Exact();
    assert ExactSum([c[0], c[1]]) == c[0].Exact() + c[1].Exact();
    assert ExactSum(c[..3]) == c[0].Exact() + c[1].Exact() + c[2].Exact();
    ExactMeans(c[0]);
    ExactMeans(c[1]);
    ExactMeans(c[2]);
    ExactMeans(c[3]);
  }

  lemma ExactMeans(c: Component)
    ensures c.Exact() == Charge(c.tokens, c.rate, c.multiplier)
  {
  }

  // ----- when there is an estimate ------------------------------------------------------------

  /** The rounded components, added up without any bound. */
  function PlainSum(components: seq<Component>, denominator: nat): nat
    requires denominator > 0
  {
    if components == [] then 0
    else
      PlainSum(components[..|components| - 1], denominator) +
      (components[|components| - 1].Exact() + denominator / 2) / denominator
  }

  predicate InRange(c: Component, denominator: nat) {
    c.tokens * c.rate <= MAX128 && Charge(c.tokens, c.rate, c.multiplier) + denominator / 2 <= MAX128
  }

  lemma InRangeMeans(c: Component, denominator: nat)
    requires denominator > 0
    ensures InRange(c, denominator) <==>
            !(c.tokens * c.rate > MAX128 || c.Exact() > MAX128 || c.Exact() + denominator / 2 > MAX128)
    ensures Rounded(c.Exact(), denominator) == (c.Exact() + denominator / 2) / denominator
  {
    ExactMeans(c);
  }

  lemma {:induction false} SumGivenIff(components: seq<Component>, denominator: nat)
    requires denominator > 0
    ensures SumRounded(components, denominator).Some? <==>
            (forall c | c in components :: InRange(c, denominator)) && PlainSum(components, denominator) <= MAX128
    ensures SumRounded(components, denominator).Some? ==>
              SumRounded(components, denominator).value == PlainSum(components, denominator)
  {
    hide Component.Exact, Rounded, InRange;
    if components != [] {
      var n := |components| - 1;
      var last := components[n];
      SumGivenIff(components[..n], denominator);
      InRangeMeans(last, denominator);
      assert components == components[..n] + [last];
      assert forall c :: c in components <==> c in components[..n] || c == last;
    }
  }

  /** A valid price list gives an estimate for each of its models exactly when every product
      fits 128 bits and the sum 64; for other models it gives none. */
  lemma EstimateGivenIff(read: Readers, p: Pricing, model: string, usage: Usage)
    ensures Estimate(read, p, model, usage) == Ok(None) <==> p.Valid(read) && model !in p.models
    ensures p.Valid(read) ==>
              var e, d := Estimate(read, p, model, usage), p.unitTokens * 1_000_000;
              (e.Ok? && e.value.Some? <==>
               model in p.models && (forall c | c in p.Components(usage) :: InRange(c, d)) &&
               PlainSum(p.Components(usage), d) <= MAX64)
  {
    hide Pricing.Valid, SumRounded, PlainSum, InRange, Pricing.Components;
    if p.Valid(read) {
      assert 0 < p.unitTokens by { ValidUnit(read, p); }
      SumGivenIff(p.Components(usage), p.Denominator());
      assert p.Denominator() <= MAX128;
    }
  }

  lemma ValidUnit(read: Readers, p: Pricing)
    requires p.Valid(read)
    ensures p.unitTokens > 0
  {
  }

  // ----- more tokens never cost less -----------------------------------------------------

  ghost predicate ComponentsNoMore(a: seq<Component>, b: seq<Component>) {
    |a| == |b| && forall i | 0 <= i < |a| ::
          a[i].rate == b[i].rate && a[i].multiplier == b[i].multiplier &&
          a[i].tokens <= b[i].tokens
  }

  lemma ExactMonotone(a: Component, b: Component)
    requires a.rate == b.rate && a.multiplier == b.multiplier && a.tokens <= b.tokens
    ensures a.Exact() <= b.Exact()
  {
    ProductMonotone(a.tokens, b.tokens, a.rate);
    ProductMonotone(a.tokens * a.rate, b.tokens * b.rate, a.multiplier);
  }

  lemma ProductMonotone(a: nat, b: nat, c: nat)
    requires a <= b
    ensures a * c <= b * c
  {
    Distribute(c, a, b - a);
  }

  lemma RoundedMonotone(a: nat, b: nat, d: nat)
    requires a <= b && d > 0
    ensures Rounded(a, d) <= Rounded(b, d)
  {
    var x, y := a + d / 2, b + d / 2;
    DivisionBounds(x, d);
    DivisionBounds(y, d);
    if x / d > y / d {
      Distribute(d, y / d, x / d - y / d);
      ProductMonotone(1, x / d - y / d, d);
    }
  }

  lemma {:induction false} SumMonotone(a: seq<Component>, b: seq<Component>, d: nat)
    requires d > 0 && ComponentsNoMore(a, b) && SumRounded(a, d).Some? && SumRounded(b, d).Some?
    ensures SumRounded(a, d).value <= SumRounded(b, d).value
  {
    hide Rounded;
    if a != [] {
      var n := |a| - 1;
      SumMonotone(a[..n], b[..n], d);
      ExactMonotone(a[n], b[n]);
      RoundedMonotone(a[n].Exact(), b[n].Exact(), d);
    }
  }

  /** Within one tier the estimate grows with every token count. */
  lemma EstimateMonotone(read: Readers, p: Pricing, model: string, a: Usage, b: Usage)
    requires Estimate(read, p, model, a).Ok? && Estimate(read, p, model, a).value.Some?
    requires Estimate(read, p, model, b).Ok? && Estimate(read, p, model, b).value.Some?
    requires a.uncachedInput <= b.uncachedInput && a.cacheReadInput <= b.cacheReadInput
    requires a.cacheCreationInput <= b.cacheCreationInput && a.output <= b.output
    requires p.InLongTier(a) == p.InLongTier(b)
    ensures Estimate(read, p, model, a).value.value.nanos <= Estimate(read, p, model, b).value.value.nanos
  {
    hide SumRounded;
    SumMonotone(p.Components(a), p.Components(b), p.Denominator());
  }
}
