/** What the totals say, field by field: plain sums over the entries, capped at 64 bits,
    and what becomes of the prices. */
module AccountingFigures {
  import opened Text
  import opened Trimming
  import opened Amounts
  import opened AccountingTotals
  import opened AccountingLedger

  /** What is counted of an entry. */
  datatype Figure = UncachedInput | CacheRead | CacheCreation | Output | Input | Reported | Long | Incomplete

  function Of(figure: Figure, r: Request): nat {
    match figure
    case UncachedInput => r.usage.uncachedInput
    case CacheRead => r.usage.cacheReadInput
    case CacheCreation => r.usage.cacheCreationInput
    case Output => r.usage.output
    case Input =>
      // as reported, or else the three components
      if r.usage.totalInputReported.Some? then r.usage.totalInputReported.value
      else r.usage.uncachedInput + r.usage.cacheReadInput + r.usage.cacheCreationInput
    case Reported => if r.usage.reportedCost.Some? then r.usage.reportedCost.value else 0
    case Long => if r.cost.Some? && r.cost.value.longContextApplied then 1 else 0
    case Incomplete => if !r.usage.breakdownComplete && r.usage.reportedCost.None? then 1 else 0
  }

  /** The plain sum of a figure over the entries. */
  function SumOf(figure: Figure, entries: seq<Request>): nat {
    if entries == [] then 0
    else SumOf(figure, entries[..|entries| - 1]) + Of(figure, entries[|entries| - 1])
  }

  predicate AnyReported(entries: seq<Request>) {
    exists r :: r in entries && r.usage.reportedCost.Some?
  }

  lemma SumNext(figure: Figure, entries: seq<Request>, r: Request)
    ensures SumOf(figure, entries + [r]) == SumOf(figure, entries) + Of(figure, r)
  {
    assert (entries + [r])[..|entries|] == entries;
  }

  lemma {:induction false} NothingReported(entries: seq<Request>)
    requires !AnyReported(entries)
    ensures SumOf(Reported, entries) == 0
  {
    if entries != [] {
      var n := |entries| - 1;
      assert entries[n] in entries;
      NothingReported(entries[..n]);
    }
  }

  /** Every token count is the sum of that count over the entries, capped once. */
  ghost predicate Tokens(entries: seq<Request>, u: Usage) {
    && u.uncachedInput == Cap(SumOf(UncachedInput, entries))
    && u.cacheReadInput == Cap(SumOf(CacheRead, entries))
    && u.cacheCreationInput == Cap(SumOf(CacheCreation, entries))
    && u.output == Cap(SumOf(Output, entries))
    && u.totalInputReported == (if entries == [] then None else Some(Cap(SumOf(Input, entries))))
  }

  ghost predicate Marks(entries: seq<Request>, t: Totals) {
    && (t.usage.breakdownComplete <==> forall r | r in entries :: r.usage.breakdownComplete)
    && t.usage.reportedCost == (if AnyReported(entries) then Some(Cap(SumOf(Reported, entries))) else None)
    && t.longContextCount == Cap(SumOf(Long, entries))
    && t.incompleteCount == Cap(SumOf(Incomplete, entries))
  }

  lemma TokensNext(entries: seq<Request>, u: Usage, r: Request)
    requires Tokens(entries, u)
    ensures Tokens(entries + [r], u.Add(r.usage))
  {
    hide SumOf, Sat, Cap, Of, Usage.Add, Usage.TotalInput;
    forall figure ensures SumOf(figure, entries + [r]) == SumOf(figure, entries) + Of(figure, r) {
      SumNext(figure, entries, r);
    }
    Adds(u, r.usage);
    CapAdds(SumOf(UncachedInput, entries), r.usage.uncachedInput);
    CapAdds(SumOf(CacheRead, entries), r.usage.cacheReadInput);
    CapAdds(SumOf(CacheCreation, entries), r.usage.cacheCreationInput);
    CapAdds(SumOf(Output, entries), r.usage.output);
    CapAdds(SumOf(Input, entries), Of(Input, r));
    FigureMeans(r);
    InputCapped(r);
    if entries == [] {
      NoSums();
      NothingYet(u);
    } else {
      assert u.TotalInput() == Cap(SumOf(Input, entries)) by { ReportedInput(u); }
    }
  }

  lemma ReportedInput(u: Usage)
    ensures u.totalInputReported.Some? ==> u.TotalInput() == u.totalInputReported.value
  {
  }

  lemma MarksNext(entries: seq<Request>, t: Totals, r: Request)
    requires Marks(entries, t)
    ensures Marks(entries + [r], t.Record(r))
  {
    hide SumOf, Sat, Cap, Of;
    forall figure ensures SumOf(figure, entries + [r]) == SumOf(figure, entries) + Of(figure, r) {
      SumNext(figure, entries, r);
    }
    CapAdds(SumOf(Reported, entries), Of(Reported, r));
    CapAdds(SumOf(Long, entries), 1);
    CapAdds(SumOf(Incomplete, entries), 1);
    FigureMeans(r);
    var next := entries + [r];
    assert next[|entries|] == r && forall e :: e in next <==> e in entries || e == r;
    assert AnyReported(next) <==> AnyReported(entries) || r.usage.reportedCost.Some?;
    if !AnyReported(entries) {
      NothingReported(entries);
    }
  }

  lemma CapAdds(a: nat, b: nat)
    ensures Sat(Cap(a), Cap(b)) == Cap(a + b) && (b <= MAX64 ==> Sat(Cap(a), b) == Cap(a + b) && Cap(b) == b)
  {
  }

  /** Usage is added field by field. */
  lemma Adds(a: Usage, b: Usage)
    ensures var u := a.Add(b);
            && u.uncachedInput == Sat(a.uncachedInput, b.uncachedInput)
            && u.cacheReadInput == Sat(a.cacheReadInput, b.cacheReadInput)
            && u.cacheCreationInput == Sat(a.cacheCreationInput, b.cacheCreationInput)
            && u.output == Sat(a.output, b.output)
            && u.totalInputReported == Some(Sat(a.TotalInput(), b.TotalInput()))
  {
  }

  lemma FigureMeans(r: Request)
    ensures Of(UncachedInput, r) == r.usage.uncachedInput && Of(CacheRead, r) == r.usage.cacheReadInput
    ensures Of(CacheCreation, r) == r.usage.cacheCreationInput && Of(Output, r) == r.usage.output
    ensures Of(Reported, r) == if r.usage.reportedCost.Some? then r.usage.reportedCost.value else 0
    ensures Of(Long, r) == if r.cost.Some? && r.cost.value.longContextApplied then 1 else 0
    ensures Of(Incomplete, r) == if !r.usage.breakdownComplete && r.usage.reportedCost.None? then 1 else 0
  {
  }

  lemma InputCapped(r: Request)
    ensures r.usage.TotalInput() == Cap(Of(Input, r))
  {
  }

  lemma NothingYet(u: Usage)
    requires u.uncachedInput == u.cacheReadInput == u.cacheCreationInput == Cap(0) && u.totalInputReported.None?
    ensures u.TotalInput() == Cap(0)
  {
  }

  lemma NoSums()
    ensures forall figure :: SumOf(figure, []) == 0
  {
  }

  /** Each figure of the totals of any entries, whatever their currencies. */
  lemma {:induction false} FiguresAddUp(entries: seq<Request>)
    ensures Tokens(entries, TotalsOf(entries).usage) && Marks(entries, TotalsOf(entries))
  {
    hide Tokens, Marks, Totals.Record, Fold;
    if entries == [] {
      NoFigures();
    } else {
      var n := |entries| - 1;
      FiguresAddUp(entries[..n]);
      FoldLast(NO_TOTALS, entries[..n], entries[n]);
      assert entries == entries[..n] + [entries[n]];
      var before := TotalsOf(entries[..n]);
      TokensNext(entries[..n], before.usage, entries[n]);
      MarksNext(entries[..n], before, entries[n]);
      UsageIsAdded(before, entries[n]);
    }
  }

  lemma NoFigures()
    ensures TotalsOf([]) == NO_TOTALS && Tokens([], NO_USAGE) && Marks([], NO_TOTALS)
  {
  }

  lemma UsageIsAdded(t: Totals, r: Request)
    ensures t.Record(r).usage == t.usage.Add(r.usage)
  {
  }

  // ----- prices ------------------------------------------------------------------------

  /** The prices in the currency of the totals. */
  function PricesIn(entries: seq<Request>, currency: string): seq<Cost> {
    if entries == [] then []
    else
      var before, last := PricesIn(entries[..|entries| - 1], currency), entries[|entries| - 1].cost;
      if last.Some? && last.value.currency == currency then before + [last.value] else before
  }

  predicate AlikePriced(a: Cost, b: Cost) {
    a.effectiveAsOf == b.effectiveAsOf && a.validThrough == b.validThrough && a.provenanceKind == b.provenanceKind
  }

  /** What the total of some prices says beside the amount: marks that any of them has, the
      least dates, the common provenance, and whether they were made up differently. */
  ghost predicate Described(prices: seq<Cost>, total: Cost) {
    && prices != []
    && (total.incomplete <==> exists c :: c in prices && c.incomplete)
    && (total.longContextApplied <==> exists c :: c in prices && c.longContextApplied)
    && Dated(prices, total) && Origin(prices, total)
  }

  /** The dates are the least there are. */
  ghost predicate Dated(prices: seq<Cost>, total: Cost) {
    && (exists c :: c in prices && c.effectiveAsOf == total.effectiveAsOf)
    && (forall c | c in prices :: AtMost(total.effectiveAsOf, c.effectiveAsOf))
    && (exists c :: c in prices && c.validThrough == total.validThrough)
    && (forall c | c in prices && c.validThrough.Some? ::
          total.validThrough.Some? && AtMost(total.validThrough.value, c.validThrough.value))
  }

  ghost predicate Origin(prices: seq<Cost>, total: Cost)
    requires prices != []
  {
    && (total.mixedPricing <==>
        exists c :: c in prices && (c.mixedPricing || !AlikePriced(prices[0], c)))
    && total.provenanceKind ==
       (if forall c | c in prices :: c.provenanceKind == prices[0].provenanceKind then prices[0].provenanceKind
        else "mixed")
    && (total.mixedPricing || AlikePriced(prices[0], total))
  }

  lemma OneDescribed(c: Cost)
    ensures Described([c], c)
  {
    AtMostTotal(c.effectiveAsOf, c.effectiveAsOf);
    if c.validThrough.Some? {
      AtMostTotal(c.validThrough.value, c.validThrough.value);
    }
    assert c in [c];
  }

  lemma DescribedNext(prices: seq<Cost>, total: Cost, c: Cost)
    requires Described(prices, total) && total.currency == c.currency
    ensures Described(prices + [c], total.Add(c).value)
  {
    hide Dated, Origin;
    var next := prices + [c];
    assert c in next && forall d :: d in next <==> d in prices || d == c;
    DatedNext(prices, total, c);
    OriginNext(prices, total, c);
  }

  lemma OriginNext(prices: seq<Cost>, total: Cost, c: Cost)
    requires prices != [] && Origin(prices, total) && total.currency == c.currency
    ensures Origin(prices + [c], total.Add(c).value)
  {
    hide Smaller, Earlier, Sat;
    var next, v := prices + [c], total.Add(c).value;
    assert next[0] == prices[0] && c in next && prices[0] in prices;
    assert forall d :: d in next <==> d in prices || d == c;
    if !v.mixedPricing {
      SameDates(total, c);
    }
  }

  lemma SameDates(a: Cost, b: Cost)
    ensures a.effectiveAsOf == b.effectiveAsOf ==> Smaller(a.effectiveAsOf, b.effectiveAsOf) == a.effectiveAsOf
    ensures a.validThrough == b.validThrough ==> Earlier(a.validThrough, b.validThrough) == a.validThrough
  {
  }

  lemma DatedNext(prices: seq<Cost>, total: Cost, c: Cost)
    requires Dated(prices, total) && total.currency == c.currency
    ensures Dated(prices + [c], total.Add(c).value)
  {
    hide AtMost;
    var next, v := prices + [c], total.Add(c).value;
    assert c in next && forall d :: d in next <==> d in prices || d == c;
    AtMostTotal(total.effectiveAsOf, c.effectiveAsOf);
    AtMostTotal(c.effectiveAsOf, c.effectiveAsOf);
    forall d | d in next
      ensures AtMost(v.effectiveAsOf, d.effectiveAsOf)
      ensures d.validThrough.Some? ==>
                v.validThrough.Some? && AtMost(v.validThrough.value, d.validThrough.value)
    {
      if d in prices {
        if AtMost(c.effectiveAsOf, total.effectiveAsOf) {
          AtMostTransitive(c.effectiveAsOf, total.effectiveAsOf, d.effectiveAsOf);
        }
      }
      if d.validThrough.Some? {
        AtMostTotal(d.validThrough.value, d.validThrough.value);
        if total.validThrough.Some? && c.validThrough.Some? {
          AtMostTotal(total.validThrough.value, c.validThrough.value);
          if d in prices && AtMost(c.validThrough.value, total.validThrough.value) {
            AtMostTransitive(c.validThrough.value, total.validThrough.value, d.validThrough.value);
          }
        }
      }
    }
  }

  lemma PricesNext(entries: seq<Request>, r: Request, currency: string)
    ensures PricesIn(entries + [r], currency) ==
            if r.cost.Some? && r.cost.value.currency == currency then PricesIn(entries, currency) + [r.cost.value]
            else PricesIn(entries, currency)
  {
    assert (entries + [r])[..|entries|] == entries;
  }

  lemma {:induction false} NoPrices(entries: seq<Request>, currency: string)
    requires forall r | r in entries :: r.cost.None?
    ensures PricesIn(entries, currency) == []
  {
    if entries != [] {
      assert entries[|entries| - 1] in entries;
      NoPrices(entries[..|entries| - 1], currency);
    }
  }

  /** The price of the totals describes all prices in its currency, and there is none
      only if nothing is priced. */
  lemma {:induction false} PriceDescribes(entries: seq<Request>)
    ensures var cost := TotalsOf(entries).cost;
            && (cost.None? <==> forall r | r in entries :: r.cost.None?)
            && (cost.Some? ==> Described(PricesIn(entries, cost.value.currency), cost.value))
  {
    hide Described, Fold, PricesIn;
    if entries == [] {
      assert TotalsOf(entries) == NO_TOTALS by { NoFigures(); }
    } else {
      var n := |entries| - 1;
      var before, r := TotalsOf(entries[..n]), entries[n];
      PriceDescribes(entries[..n]);
      FoldLast(NO_TOTALS, entries[..n], r);
      assert entries == entries[..n] + [r];
      assert forall e :: e in entries <==> e in entries[..n] || e == r;
      var after := before.Record(r).cost;
      if after.Some? {
        PricesNext(entries[..n], r, after.value.currency);
      }
      if r.cost.Some? && before.cost.None? {
        NoPrices(entries[..n], r.cost.value.currency);
        OneDescribed(r.cost.value);
        assert [] + [r.cost.value] == [r.cost.value];
      } else if r.cost.Some? && before.cost.value.currency == r.cost.value.currency {
        DescribedNext(PricesIn(entries[..n], r.cost.value.currency), before.cost.value, r.cost.value);
      }
    }
  }

  /** The entries of a turn are all entries of that turn, as often as they are there, and no others. */
  lemma {:induction false} TurnEntries(requests: seq<Request>, turn: string)
    ensures forall r :: multiset(OfTurn(requests, turn))[r] == if r.turnId == turn then multiset(requests)[r] else 0
  {
    if requests != [] {
      assert requests == [requests[0]] + requests[1..];
      TurnEntries(requests[1..], turn);
    }
  }

  // ----- what is recorded --------------------------------------------------------------

  /** A request that no ledger takes: without identifiers, or in flight and yet completed or priced. */
  predicate Malformed(r: Request) {
    Trim(r.requestId) == "" || Trim(r.turnId) == "" || (r.inFlight && (r.completed || r.cost.Some?))
  }

  predicate Replaces(e: Request, r: Request) {
    e.inFlight && !r.inFlight && e.turnId == r.turnId && e.connectionId == r.connectionId && e.model == r.model
  }

  /** When a request is refused, told to be there already, settled in place or added, and
      what the entries and the latest turn are then. */
  lemma RecordDecides(l: Ledger, r: Request, preserving: bool)
    requires Sound(l)
    ensures var a := Record(l, r, preserving);
            && (Malformed(r) ==> a.result.Err? && a.ledger == l)
            && (!Malformed(r) ==> forall k | 0 <= k < |l.requests| && l.requests[k].requestId == r.requestId ::
                  if l.requests[k] == r then a == Answer(l, Ok(false))
                  else if Replaces(l.requests[k], r)
                  then a.result == Ok(true) && a.ledger.requests == l.requests[k := r] &&
                       (l.latestTurn.Some? ==> a.ledger.latestTurn == l.latestTurn)
                  else a.result.Err? && a.ledger == l)
            && (!Malformed(r) && (forall e | e in l.requests :: e.requestId != r.requestId) ==>
                  && a.result == Ok(true) && a.ledger.requests == l.requests + [r]
                  && a.ledger.latestTurn == if preserving then l.latestTurn else Some(r.turnId))
  {
    hide Sound, TotalsOf, Rebuild, Trim;
    BlankIffTrimmedAway(r.requestId);
    BlankIffTrimmedAway(r.turnId);
    SoundMeans(l);
    match Position(l.requests, r.requestId) {
      case None =>
      case Some(k) =>
        assert l.requests[k] in l.requests;
        if !Malformed(r) && Replaces(l.requests[k], r) {
          SettleKeepsEntries(l.requests, k, r);
          RebuildSucceeds(l.(requests := l.requests[k := r]));
        }
    }
  }
}
