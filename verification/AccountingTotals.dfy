/** Totals of accounted requests, as they are recorded one by one, and what they are
    whatever the order of the entries. */
module AccountingTotals {
  import opened Text
  import opened Amounts

  datatype Request = Request(
    requestId: string, turnId: string, connectionId: string, model: string,
    usage: Usage, cost: Option<Cost>, completed: bool, inFlight: bool)

  datatype Totals = Totals(
    usage: Usage, cost: Option<Cost>, requestCount: U64, longContextCount: U64, unpricedCount: U64,
        incompleteCount: U64)
  {
    function Record(r: Request): Totals {
      var counted := this.(
        requestCount := Sat(requestCount, 1),
        usage := usage.Add(r.usage),
        incompleteCount :=
          if !r.usage.breakdownComplete && r.usage.reportedCost.None? then Sat(incompleteCount, 1) else incompleteCount,
        longContextCount :=
          if r.cost.Some? && r.cost.value.longContextApplied then Sat(longContextCount, 1) else longContextCount);
      match r.cost
      case None => counted.(unpricedCount := Sat(unpricedCount, 1))
      case Some(c) =>
        if cost.None? then counted.(cost := Some(c))
        else if cost.value.Add(c).Some? then counted.(cost := cost.value.Add(c))
        else counted.(unpricedCount := Sat(unpricedCount, 1))
    }
  }

  const NO_TOTALS := Totals(NO_USAGE, None, 0, 0, 0, 0)

  function Fold(t: Totals, entries: seq<Request>): Totals
    decreases |entries|
  {
    if entries == [] then t else Fold(t.Record(entries[0]), entries[1..])
  }

  /** Recording the entries one after another into fresh totals. */
  function TotalsOf(entries: seq<Request>): Totals {
    Fold(NO_TOTALS, entries)
  }

  lemma {:induction false} FoldAppend(t: Totals, a: seq<Request>, b: seq<Request>)
    ensures Fold(t, a + b) == Fold(Fold(t, a), b)
    decreases |a|
  {
    if a == [] {
      assert a + b == b;
    } else {
      assert (a + b)[1..] == a[1..] + b && (a + b)[0] == a[0];
      FoldAppend(t.Record(a[0]), a[1..], b);
    }
  }

  lemma FoldLast(t: Totals, a: seq<Request>, r: Request)
    ensures Fold(t, a + [r]) == Fold(t, a).Record(r)
  {
    FoldAppend(t, a, [r]);
    assert [r][1..] == [];
    assert Fold(Fold(t, a).Record(r), []) == Fold(t, a).Record(r);
  }

  // ----- what the totals are --------------------------------------------------------

  /** The currency of the totals is that of the first priced entry. */
  function FirstCurrency(entries: seq<Request>): Option<string> {
    if entries == [] then None
    else if entries[0].cost.Some? then Some(entries[0].cost.value.currency)
    else FirstCurrency(entries[1..])
  }

  predicate PricedIn(r: Request, currency: Option<string>) {
    r.cost.Some? && currency == Some(r.cost.value.currency)
  }

  function CountPricedIn(entries: seq<Request>, currency: Option<string>): (n: nat)
    ensures n <= |entries|
  {
    if entries == [] then 0
    else
      (if PricedIn(entries[0], currency) then 1 else 0) + CountPricedIn(entries[1..], currency)
  }

  function NanosPricedIn(entries: seq<Request>, currency: Option<string>): nat {
    if entries == [] then 0
    else
      (if PricedIn(entries[0], currency) then entries[0].cost.value.nanos else 0) +
      NanosPricedIn(entries[1..], currency)
  }

  function Cap(n: nat): U64 {
    if n <= MAX64 then n else MAX64
  }

  function CurrencyAfter(t: Totals, entries: seq<Request>): Option<string> {
    if t.cost.Some? then Some(t.cost.value.currency) else FirstCurrency(entries)
  }

  function NanosOf(t: Totals): nat {
    if t.cost.Some? then t.cost.value.nanos else 0
  }

  lemma RecordCounts(t: Totals, r: Request, c: Option<string>)
    requires t.cost.Some? ==> c == Some(t.cost.value.currency)
    requires t.cost.None? && r.cost.Some? ==> c == Some(r.cost.value.currency)
    ensures var v := t.Record(r);
            && v.requestCount == Cap(t.requestCount + 1)
            && v.unpricedCount == Cap(t.unpricedCount + if PricedIn(r, c) then 0 else 1)
            && (v.cost.Some? <==> t.cost.Some? || r.cost.Some?) && (v.cost.Some? ==> c == Some(v.cost.value.currency))
            && NanosOf(v) == Cap(NanosOf(t) + if PricedIn(r, c) then r.cost.value.nanos else 0)
  {
  }

  lemma {:induction false} FoldCounts(t: Totals, entries: seq<Request>)
    ensures var c, v := CurrencyAfter(t, entries), Fold(t, entries);
            && v.requestCount == Cap(t.requestCount + |entries|)
            && v.unpricedCount == Cap(t.unpricedCount + (|entries| - CountPricedIn(entries, c)))
            && (v.cost.Some? <==> c.Some?) && (v.cost.Some? ==> v.cost.value.currency == c.value)
            && NanosOf(v) == Cap(NanosOf(t) + NanosPricedIn(entries, c))
    decreases |entries|
  {
    hide Totals.Record;
    if entries != [] {
      RecordCounts(t, entries[0], CurrencyAfter(t, entries));
      FoldCounts(t.Record(entries[0]), entries[1..]);
    }
  }

  /** Every entry is counted, and is either priced into the total or counted as unpriced,
      in whatever currencies the entries are. */
  lemma CountsAddUp(entries: seq<Request>)
    ensures var c, v := FirstCurrency(entries), TotalsOf(entries);
            && v.requestCount == Cap(|entries|)
            && v.unpricedCount == Cap(|entries| - CountPricedIn(entries, c))
            && (v.cost.Some? <==> c.Some?) && (v.cost.Some? ==> v.cost.value.currency == c.value)
            && NanosOf(v) == Cap(NanosPricedIn(entries, c))
            && (|entries| <= MAX64 ==> v.requestCount == v.unpricedCount + CountPricedIn(entries, c))
  {
    hide Fold, CountPricedIn, NanosPricedIn, FirstCurrency;
    FoldCounts(NO_TOTALS, entries);
  }

  // ----- the order of the entries ------------------------------------------------------

  predicate OneCurrency(entries: seq<Request>, currency: string) {
    forall r | r in entries && r.cost.Some? :: r.cost.value.currency == currency
  }

  predicate TotalsIn(t: Totals, currency: string) {
    t.cost.Some? ==> t.cost.value.currency == currency
  }

  lemma RecordKeepsCurrency(t: Totals, r: Request, currency: string)
    requires TotalsIn(t, currency) && OneCurrency([r], currency)
    ensures TotalsIn(t.Record(r), currency)
  {
    assert r in [r];
  }

  function AddCosts(total: Option<Cost>, c: Option<Cost>): Option<Cost>
    requires total.Some? && c.Some? ==> total.value.currency == c.value.currency
  {
    match (total, c)
    case (Some(x), Some(y)) => x.Add(y)
    case (Some(x), None) => Some(x)
    case (None, _) => c
  }

  /** In one currency recording adds to each field on its own. */
  lemma RecordAdds(t: Totals, r: Request)
    requires t.cost.Some? && r.cost.Some? ==> t.cost.value.currency == r.cost.value.currency
    ensures t.Record(r) == Totals(
              t.usage.Add(r.usage), AddCosts(t.cost, r.cost), Sat(t.requestCount, 1),
              Sat(t.longContextCount, if r.cost.Some? && r.cost.value.longContextApplied then 1 else 0),
              Sat(t.unpricedCount, if r.cost.None? then 1 else 0),
              Sat(t.incompleteCount, if !r.usage.breakdownComplete && r.usage.reportedCost.None? then 1 else 0))
  {
  }

  lemma CostsSwap(t: Option<Cost>, a: Option<Cost>, b: Option<Cost>, currency: string)
    requires t.Some? ==> t.value.currency == currency
    requires a.Some? ==> a.value.currency == currency
    requires b.Some? ==> b.value.currency == currency
    ensures AddCosts(AddCosts(t, a), b) == AddCosts(AddCosts(t, b), a)
  {
    if a.Some? && b.Some? {
      CostCommutes(a.value, b.value);
      if t.Some? {
        CostAssociates(t.value, a.value, b.value);
        CostAssociates(t.value, b.value, a.value);
      }
    }
  }

  lemma UsageSwap(t: Usage, a: Usage, b: Usage)
    ensures t.Add(a).Add(b) == t.Add(b).Add(a)
  {
    UsageAssociates(t, a, b);
    UsageCommutes(a, b);
    UsageAssociates(t, b, a);
  }

  lemma RecordSwap(t: Totals, a: Request, b: Request, currency: string)
    requires TotalsIn(t, currency) && OneCurrency([a, b], currency)
    ensures t.Record(a).Record(b) == t.Record(b).Record(a)
  {
    hide Totals.Record, AddCosts, Usage.Add, Sat;
    assert a in [a, b] && b in [a, b] && a in [a] && b in [b];
    RecordKeepsCurrency(t, a, currency);
    RecordKeepsCurrency(t, b, currency);
    RecordAdds(t, a);
    RecordAdds(t, b);
    RecordAdds(t.Record(a), b);
    RecordAdds(t.Record(b), a);
    UsageSwap(t.usage, a.usage, b.usage);
    CostsSwap(t.cost, a.cost, b.cost, currency);
    CountSwaps(t.requestCount);
    CountSwaps(t.longContextCount);
    CountSwaps(t.unpricedCount);
    CountSwaps(t.incompleteCount);
  }

  lemma CountSwaps(n: U64)
    ensures forall x: nat, y: nat :: Sat(Sat(n, x), y) == Sat(Sat(n, y), x)
  {
  }

  lemma {:induction false} RecordFirst(t: Totals, a: seq<Request>, r: Request, b: seq<Request>, currency: string)
    requires TotalsIn(t, currency) && OneCurrency(a + [r] + b, currency)
    ensures Fold(t, a + [r] + b) == Fold(t.Record(r), a + b)
    decreases |a|
  {
    hide Totals.Record;
    if a == [] {
      assert a + [r] + b == [r] + b && ([r] + b)[1..] == b && a + b == b;
    } else {
      assert (a + [r] + b)[1..] == a[1..] + [r] + b && (a + b)[1..] == a[1..] + b;
      assert a[0] in a + [r] + b && r in a + [r] + b;
      RecordKeepsCurrency(t, a[0], currency);
      RecordSwap(t, a[0], r, currency);
      RecordFirst(t.Record(a[0]), a[1..], r, b, currency);
    }
  }

  /** In one currency the totals depend only on which entries there are. */
  lemma {:induction false} OrderDoesNotMatter(t: Totals, a: seq<Request>, b: seq<Request>, currency: string)
    requires TotalsIn(t, currency) && OneCurrency(a, currency) && multiset(a) == multiset(b)
    ensures Fold(t, a) == Fold(t, b)
    decreases |a|
  {
    hide Totals.Record;
    if a == [] {
      assert |multiset(b)| == 0;
    } else {
      assert a[0] in multiset(a);
      var i :| 0 <= i < |b| && b[i] == a[0];
      assert b == b[..i] + [a[0]] + b[i + 1..];
      assert a == [a[0]] + a[1..];
      assert multiset(a) == multiset([a[0]]) + multiset(a[1..]);
      assert multiset(b) == multiset(b[..i]) + multiset([a[0]]) + multiset(b[i + 1..]);
      assert multiset(b[..i] + b[i + 1..]) == multiset(b) - multiset([a[0]]);
      forall r | r in b ensures r in a { assert r in multiset(b); }
      RecordFirst(t, b[..i], a[0], b[i + 1..], currency);
      assert OneCurrency([a[0]], currency);
      RecordKeepsCurrency(t, a[0], currency);
      OrderDoesNotMatter(t.Record(a[0]), a[1..], b[..i] + b[i + 1..], currency);
    }
  }

  ghost predicate OrderIndependent(entries: seq<Request>) {
    forall other | multiset(other) == multiset(entries) :: TotalsOf(other) == TotalsOf(entries)
  }

  lemma FirstIsFirst(r: Request, rest: seq<Request>)
    requires r.cost.Some?
    ensures FirstCurrency([r] + rest) == Some(r.cost.value.currency)
  {
  }

  lemma ToFront(entries: seq<Request>, i: nat) returns (other: seq<Request>)
    requires i < |entries| && entries[i].cost.Some?
    ensures multiset(other) == multiset(entries)
    ensures TotalsOf(other).cost.Some? && TotalsOf(other).cost.value.currency == entries[i].cost.value.currency
  {
    other := [entries[i]] + (entries[..i] + entries[i + 1..]);
    assert entries == entries[..i] + [entries[i]] + entries[i + 1..];
    FirstIsFirst(entries[i], entries[..i] + entries[i + 1..]);
    CountsAddUp(other);
  }

  /** Entries in two currencies total differently when a different one comes first. */
  lemma TwoOrders(entries: seq<Request>) returns (a: seq<Request>, b: seq<Request>)
    requires forall currency :: !OneCurrency(entries, currency)
    ensures multiset(a) == multiset(entries) == multiset(b) && TotalsOf(a) != TotalsOf(b)
  {
    assert !OneCurrency(entries, "");
    var r :| r in entries && r.cost.Some? && r.cost.value.currency != "";
    assert !OneCurrency(entries, r.cost.value.currency);
    var s :| s in entries && s.cost.Some? && s.cost.value.currency != r.cost.value.currency;
    var i :| 0 <= i < |entries| && entries[i] == r;
    var j :| 0 <= j < |entries| && entries[j] == s;
    a := ToFront(entries, i);
    b := ToFront(entries, j);
  }

  /** The totals are the same for every order of the entries exactly when all priced
      entries share one currency. */
  lemma OrderIndependentIffOneCurrency(entries: seq<Request>)
    ensures OrderIndependent(entries) <==> exists currency :: OneCurrency(entries, currency)
  {
    if currency :| OneCurrency(entries, currency) {
      forall other | multiset(other) == multiset(entries)
        ensures TotalsOf(other) == TotalsOf(entries)
      {
        OrderDoesNotMatter(NO_TOTALS, entries, other, currency);
      }
    } else {
      var a, b := TwoOrders(entries);
      assert TotalsOf(a) != TotalsOf(entries) || TotalsOf(b) != TotalsOf(entries);
    }
  }
}
