/** Token usage and estimated cost: saturating sums that do not depend on the order
    in which they are taken. */
module Amounts {
  import opened Text

  const MAX64: nat := 0xFFFF_FFFF_FFFF_FFFF

  type U64 = n: nat | n <= MAX64

  function Sat(a: nat, b: nat): (r: U64)
  {
    if a + b <= MAX64 then a + b else MAX64
  }

  /** The order of Rust strings, taken character by character. */
  predicate AtMost(a: string, b: string)
    decreases |a|
  {
    a == "" || (b != "" && (a[0] < b[0] || (a[0] == b[0] && AtMost(a[1..], b[1..]))))
  }

  function Smaller(a: string, b: string): string {
    if AtMost(a, b) then a else b
  }

  lemma {:induction false} AtMostTotal(a: string, b: string)
    ensures AtMost(a, b) || AtMost(b, a)
    ensures AtMost(a, b) && AtMost(b, a) ==> a == b
    decreases |a|
  {
    if a != "" && b != "" {
      AtMostTotal(a[1..], b[1..]);
      assert a == [a[0]] + a[1..] && b == [b[0]] + b[1..];
    }
  }

  lemma {:induction false} AtMostTransitive(a: string, b: string, c: string)
    requires AtMost(a, b) && AtMost(b, c)
    ensures AtMost(a, c)
    decreases |a|
  {
    if a != "" && a[0] == b[0] == c[0] {
      AtMostTransitive(a[1..], b[1..], c[1..]);
    }
  }

  /** One string is at most another when it is a beginning of it, or smaller where they first differ. */
  lemma {:induction false} AtMostIs(a: string, b: string)
    ensures AtMost(a, b) <==>
            a <= b || exists k :: 0 <= k < |a| && k < |b| && a[..k] == b[..k] && a[k] < b[k]
    decreases |a|
  {
    if a != "" && b != "" {
      AtMostIs(a[1..], b[1..]);
      assert a == [a[0]] + a[1..] && b == [b[0]] + b[1..];
      if k :| 0 <= k < |a| - 1 && k < |b| - 1 && a[1..][..k] == b[1..][..k] && a[1..][k] < b[1..][k] && a[0] == b[0] {
        assert a[..k + 1] == [a[0]] + a[1..][..k] && b[..k + 1] == [b[0]] + b[1..][..k];
      }
      if k :| 0 < k < |a| && k < |b| && a[..k] == b[..k] && a[k] < b[k] {
        assert a[..k][0] == b[..k][0] && a[..k][1..] == a[1..][..k - 1] && b[..k][1..] == b[1..][..k - 1];
        assert a[1..][k - 1] < b[1..][k - 1];
      }
      if a[0] < b[0] {
        assert a[..0] == b[..0];
      }
    }
  }

  lemma SmallerCommutes(a: string, b: string)
    ensures Smaller(a, b) == Smaller(b, a)
  {
    AtMostTotal(a, b);
  }

  lemma SmallerAssociates(a: string, b: string, c: string)
    ensures Smaller(Smaller(a, b), c) == Smaller(a, Smaller(b, c))
  {
    AtMostTotal(a, b);
    AtMostTotal(b, c);
    AtMostTotal(a, c);
    if AtMost(a, b) && AtMost(b, c) {
      AtMostTransitive(a, b, c);
    }
    if AtMost(c, b) && AtMost(b, a) {
      AtMostTransitive(c, b, a);
    }
  }

  // ----- token usage ------------------------------------------------------------

  datatype Usage = Usage(
    uncachedInput: U64, cacheReadInput: U64, cacheCreationInput: U64, output: U64,
    totalInputReported: Option<U64>, breakdownComplete: bool, reportedCost: Option<U64>)
  {
    function TotalInput(): U64 {
      if totalInputReported.Some? then totalInputReported.value
          else Sat(Sat(uncachedInput, cacheReadInput), cacheCreationInput)
    }

    function Add(other: Usage): Usage {
      Usage(Sat(uncachedInput, other.uncachedInput), Sat(cacheReadInput, other.cacheReadInput),
            Sat(cacheCreationInput, other.cacheCreationInput), Sat(output, other.output),
            Some(Sat(TotalInput(), other.TotalInput())), breakdownComplete && other.breakdownComplete,
            AddReported(reportedCost, other.reportedCost))
    }
  }

  function AddReported(a: Option<U64>, b: Option<U64>): Option<U64> {
    match (a, b)
    case (Some(x), Some(y)) => Some(Sat(x, y))
    case (Some(x), None) => Some(x)
    case (None, _) => b
  }

  const NO_USAGE := Usage(0, 0, 0, 0, None, true, None)

  lemma UsageAssociates(a: Usage, b: Usage, c: Usage)
    ensures a.Add(b).Add(c) == a.Add(b.Add(c))
  {
  }

  lemma UsageCommutes(a: Usage, b: Usage)
    ensures a.Add(b) == b.Add(a)
  {
  }

  // ----- estimated cost -----------------------------------------------------------

  datatype Cost = Cost(
    currency: string, nanos: U64, incomplete: bool, mixedPricing: bool, longContextApplied: bool,
    effectiveAsOf: string, validThrough: Option<string>, provenanceKind: string)
  {
    /** Costs in different currencies cannot be added. */
    function Add(other: Cost): Option<Cost> {
      if currency != other.currency then None
      else Some(Cost(
        currency, Sat(nanos, other.nanos), incomplete || other.incomplete,
        mixedPricing || other.mixedPricing || effectiveAsOf != other.effectiveAsOf ||
          provenanceKind != other.provenanceKind || validThrough != other.validThrough,
        longContextApplied || other.longContextApplied,
        Smaller(effectiveAsOf, other.effectiveAsOf),
        Earlier(validThrough, other.validThrough),
        if provenanceKind == other.provenanceKind then provenanceKind else "mixed"))
    }
  }

  function Earlier(a: Option<string>, b: Option<string>): Option<string> {
    match (a, b)
    case (Some(x), Some(y)) => Some(Smaller(x, y))
    case (Some(x), None) => Some(x)
    case (None, _) => b
  }

  lemma EarlierAssociates(a: Option<string>, b: Option<string>, c: Option<string>)
    ensures Earlier(Earlier(a, b), c) == Earlier(a, Earlier(b, c))
    ensures Earlier(a, b) == Earlier(b, a)
  {
    if a.Some? && b.Some? {
      SmallerCommutes(a.value, b.value);
      if c.Some? {
        SmallerAssociates(a.value, b.value, c.value);
      }
    }
  }

  lemma CostCommutes(a: Cost, b: Cost)
    ensures a.Add(b) == b.Add(a)
  {
    SmallerCommutes(a.effectiveAsOf, b.effectiveAsOf);
    EarlierAssociates(a.validThrough, b.validThrough, None);
  }

  /** Whether prices were mixed does not depend on how the costs are grouped either. */
  lemma CostAssociates(a: Cost, b: Cost, c: Cost)
    requires a.currency == b.currency == c.currency
    ensures a.Add(b).value.Add(c) == a.Add(b.Add(c).value)
  {
    SmallerAssociates(a.effectiveAsOf, b.effectiveAsOf, c.effectiveAsOf);
    EarlierAssociates(a.validThrough, b.validThrough, c.validThrough);
  }
}
