/** Trimming a conversation to its token budget: whole units are dropped from the
    front, and never a system message or anything from the last user message on. */
module ContextTrim {
  import opened Text
  import opened Messages

  /** An estimate of what a message takes to replay. Nothing here depends on which. */
  type Estimate = Message -> nat

  function Cost(estimate: Estimate, ms: seq<Message>): nat {
    if ms == [] then 0 else estimate(ms[0]) + Cost(estimate, ms[1..])
  }

  lemma {:induction false} CostConcat(estimate: Estimate, a: seq<Message>, b: seq<Message>)
    ensures Cost(estimate, a + b) == Cost(estimate, a) + Cost(estimate, b)
    decreases |a|
  {
    if a == [] {
      assert a + b == b;
    } else {
      assert (a + b)[1..] == a[1..] + b;
      CostConcat(estimate, a[1..], b);
    }
  }

  function LastUserBelow(ms: seq<Message>, n: nat): (p: Option<nat>)
    requires n <= |ms|
    ensures p.Some? ==> p.value < n && IsUser(ms[p.value]) && forall k | p.value < k < n :: !IsUser(ms[k])
    ensures p.None? ==> forall k | 0 <= k < n :: !IsUser(ms[k])
  {
    if n == 0 then None else if IsUser(ms[n - 1]) then Some(n - 1) else LastUserBelow(ms, n - 1)
  }

  /** Where the active request begins: the last user message, or the end if there is none. */
  function Protected(ms: seq<Message>): (p: nat)
    ensures p <= |ms|
    ensures p < |ms| ==> IsUser(ms[p])
    ensures forall k | p < k < |ms| :: !IsUser(ms[k])
    ensures p == |ms| ==> forall k | 0 <= k < |ms| :: !IsUser(ms[k])
  {
    var p := LastUserBelow(ms, |ms|);
    if p.Some? then p.value else |ms|
  }

  function ToolsFrom(ms: seq<Message>, i: nat, limit: nat): (e: nat)
    requires i <= limit <= |ms|
    decreases limit - i
    ensures i <= e <= limit
    ensures forall k | i <= k < e :: IsTool(ms[k])
    ensures e < limit ==> !IsTool(ms[e])
  {
    if i < limit && IsTool(ms[i]) then ToolsFrom(ms, i + 1, limit) else i
  }

  /** A call message and its results are one unit; every other message is one of its own. */
  function UnitEnd(ms: seq<Message>, i: nat, limit: nat): (e: nat)
    requires i < limit <= |ms|
    ensures i < e <= limit
  {
    if IsCall(ms[i]) then ToolsFrom(ms, i + 1, limit) else i + 1
  }

  function Minus(a: nat, b: nat): nat {
    if a >= b then a - b else 0
  }

  /** How far from `i` on units are dropped, when `need` tokens have to go. */
  function StopAt(estimate: Estimate, ms: seq<Message>, i: nat, limit: nat, need: nat): (k: nat)
    requires i <= limit <= |ms|
    decreases limit - i
    ensures i <= k <= limit
  {
    if i == limit || need == 0 then i
    else if IsSystem(ms[i]) then StopAt(estimate, ms, i + 1, limit, need)
    else
      var e := UnitEnd(ms, i, limit);
      StopAt(estimate, ms, e, limit, Minus(need, Cost(estimate, ms[i..e])))
  }

  function Systems(ms: seq<Message>): (r: seq<Message>)
    ensures forall m | m in r :: IsSystem(m) && m in ms
  {
    if ms == [] then [] else (if IsSystem(ms[0]) then [ms[0]] else []) + Systems(ms[1..])
  }

  /** Dropping everything but system messages before `k`. */
  function LeftAt(ms: seq<Message>, k: nat): seq<Message>
    requires k <= |ms|
  {
    Systems(ms[..k]) + ms[k..]
  }

  function Cut(estimate: Estimate, ms: seq<Message>, usable: nat): (k: nat)
    ensures k <= Protected(ms)
  {
    if Cost(estimate, ms) <= usable then 0 else StopAt(estimate, ms, 0, Protected(ms), Cost(estimate, ms) - usable)
  }

  function Trim(estimate: Estimate, ms: seq<Message>, usable: nat): seq<Message> {
    LeftAt(ms, Cut(estimate, ms, usable))
  }

  // ----- the dropped part, and what it costs --------------------------------------

  lemma {:induction false} SystemsConcat(a: seq<Message>, b: seq<Message>)
    ensures Systems(a + b) == Systems(a) + Systems(b)
    decreases |a|
  {
    if a == [] {
      assert a + b == b;
    } else {
      assert (a + b)[1..] == a[1..] + b;
      SystemsConcat(a[1..], b);
    }
  }

  lemma {:induction false} NoSystems(ms: seq<Message>)
    requires forall m | m in ms :: !IsSystem(m)
    ensures Systems(ms) == []
  {
    if ms != [] {
      NoSystems(ms[1..]);
    }
  }

  lemma {:induction false} AllSystems(ms: seq<Message>)
    requires forall m | m in ms :: IsSystem(m)
    ensures Systems(ms) == ms
  {
    if ms != [] {
      AllSystems(ms[1..]);
    }
  }

  lemma UnitHasNoSystem(ms: seq<Message>, i: nat, limit: nat)
    requires i < limit <= |ms| && !IsSystem(ms[i])
    ensures Systems(ms[i..UnitEnd(ms, i, limit)]) == []
  {
    NoSystems(ms[i..UnitEnd(ms, i, limit)]);
  }

  /** Leaving at the end of a unit saves what the unit costs. */
  lemma DropSaves(estimate: Estimate, ms: seq<Message>, i: nat, e: nat)
    requires i <= e <= |ms| && Systems(ms[i..e]) == []
    ensures Cost(estimate, LeftAt(ms, i)) == Cost(estimate, LeftAt(ms, e)) + Cost(estimate, ms[i..e])
  {
    assert ms[..e] == ms[..i] + ms[i..e];
    SystemsConcat(ms[..i], ms[i..e]);
    assert Systems(ms[..i]) + [] == Systems(ms[..i]);
    assert ms[i..] == ms[i..e] + ms[e..];
    CostConcat(estimate, Systems(ms[..i]), ms[i..]);
    CostConcat(estimate, ms[i..e], ms[e..]);
    CostConcat(estimate, Systems(ms[..e]), ms[e..]);
  }

  lemma SystemStays(ms: seq<Message>, i: nat)
    requires i < |ms| && IsSystem(ms[i])
    ensures LeftAt(ms, i) == LeftAt(ms, i + 1)
  {
    assert ms[..i + 1] == ms[..i] + [ms[i]];
    SystemsConcat(ms[..i], [ms[i]]);
    assert [ms[i]][1..] == [];
    assert ms[i..] == [ms[i]] + ms[i + 1..];
    ConcatAssociates(Systems(ms[..i]), [ms[i]], ms[i + 1..]);
  }

  lemma NothingDropped(ms: seq<Message>)
    ensures LeftAt(ms, 0) == ms
  {
    assert ms[..0] == [] && ms[0..] == ms;
  }

  /** A place where a unit begins. */
  predicate Boundary(ms: seq<Message>, k: nat, limit: nat, i: nat)
    requires i <= limit <= |ms|
    decreases limit - i
  {
    k == i || (i < k && i < limit && Boundary(ms, k, limit, if IsSystem(ms[i]) then i + 1 else UnitEnd(ms, i, limit)))
  }

  /** Everything the loop does: it stops where enough has gone or nothing may go, and at
      every earlier boundary not enough had gone yet. */
  lemma {:induction false} StopMeans(estimate: Estimate, ms: seq<Message>, i: nat, limit: nat, need: nat, usable: nat)
    requires i <= limit <= |ms| && need == Minus(Cost(estimate, LeftAt(ms, i)), usable)
    ensures var k := StopAt(estimate, ms, i, limit, need);
            && Boundary(ms, k, limit, i)
            && (Cost(estimate, LeftAt(ms, k)) <= usable || k == limit)
    decreases limit - i
  {
    if i < limit && need > 0 {
      if IsSystem(ms[i]) {
        SystemStays(ms, i);
        StopMeans(estimate, ms, i + 1, limit, need, usable);
      } else {
        var e := UnitEnd(ms, i, limit);
        UnitHasNoSystem(ms, i, limit);
        DropSaves(estimate, ms, i, e);
        StopMeans(estimate, ms, e, limit, Minus(need, Cost(estimate, ms[i..e])), usable);
      }
    }
  }

  /** At every boundary before the stop too much is left. */
  lemma {:induction false} StopIsFirst(estimate: Estimate, ms: seq<Message>, i: nat, limit: nat, need: nat,
                                       usable: nat, j: nat)
    requires i <= limit <= |ms| && need == Minus(Cost(estimate, LeftAt(ms, i)), usable)
    requires Boundary(ms, j, limit, i) && j < StopAt(estimate, ms, i, limit, need)
    ensures j <= |ms| && Cost(estimate, LeftAt(ms, j)) > usable
    decreases limit - i
  {
    if i != j {
      if IsSystem(ms[i]) {
        SystemStays(ms, i);
        StopIsFirst(estimate, ms, i + 1, limit, need, usable, j);
      } else {
        var e := UnitEnd(ms, i, limit);
        UnitHasNoSystem(ms, i, limit);
        DropSaves(estimate, ms, i, e);
        StopIsFirst(estimate, ms, e, limit, Minus(need, Cost(estimate, ms[i..e])), usable, j);
      }
    }
  }

  // ----- what trimming guarantees -----------------------------------------------------

  /** Trimming stops at a unit, where what is left fits the budget or only system
      messages precede the active request; no earlier unit would have been enough. */
  lemma TrimIsLeast(estimate: Estimate, ms: seq<Message>, usable: nat)
    ensures var k, p := Cut(estimate, ms, usable), Protected(ms);
            && k <= p && Boundary(ms, k, p, 0)
            && Trim(estimate, ms, usable) == LeftAt(ms, k)
            && (Cost(estimate, Trim(estimate, ms, usable)) <= usable || k == p)
    ensures forall j | 0 <= j < Cut(estimate, ms, usable) && Boundary(ms, j, Protected(ms), 0) ::
              Cost(estimate, LeftAt(ms, j)) > usable
  {
    hide StopAt, Boundary;
    NothingDropped(ms);
    var p := Protected(ms);
    if Cost(estimate, ms) <= usable {
      BoundaryHere(ms, p, 0);
    } else {
      var need := Cost(estimate, ms) - usable;
      StopMeans(estimate, ms, 0, p, need, usable);
      forall j: nat | j < StopAt(estimate, ms, 0, p, need) && Boundary(ms, j, p, 0)
        ensures Cost(estimate, LeftAt(ms, j)) > usable
      {
        StopIsFirst(estimate, ms, 0, p, need, usable, j);
      }
    }
  }

  lemma BoundaryHere(ms: seq<Message>, limit: nat, i: nat)
    requires i <= limit <= |ms|
    ensures Boundary(ms, i, limit, i)
  {
  }

  /** Trimming keeps a call and its results together: either all of them go or none. */
  lemma {:induction false} UnitsStayWhole(ms: seq<Message>, k: nat, limit: nat, from: nat, c: nat, t: nat)
    requires from <= limit <= |ms| && Boundary(ms, k, limit, from) && k <= limit
    requires from <= c < t < |ms| && IsCall(ms[c]) && forall x | c < x <= t :: IsTool(ms[x])
    requires limit < |ms| ==> IsUser(ms[limit])
    ensures c < k <==> t < k
    decreases limit - from
  {
    if k != from {
      var next := if IsSystem(ms[from]) then from + 1 else UnitEnd(ms, from, limit);
      if c < next {
        assert c == from || IsTool(ms[c]);
        assert next <= t ==> next == limit;
      } else {
        UnitsStayWhole(ms, k, limit, next, c, t);
      }
    }
  }

  lemma TrimKeepsUnits(estimate: Estimate, ms: seq<Message>, usable: nat, c: nat, t: nat)
    requires c < t < |ms| && IsCall(ms[c]) && forall x | c < x <= t :: IsTool(ms[x])
    ensures c < Cut(estimate, ms, usable) <==> t < Cut(estimate, ms, usable)
  {
    hide Boundary, Cut;
    TrimIsLeast(estimate, ms, usable);
    UnitsStayWhole(ms, Cut(estimate, ms, usable), Protected(ms), 0, c, t);
  }

  /** Everything from the last user message on is the end of the result, and the system
      messages before it are kept in order. */
  lemma TrimKeeps(estimate: Estimate, ms: seq<Message>, usable: nat)
    ensures var p, r := Protected(ms), Trim(estimate, ms, usable);
            && |r| >= |ms| - p && r[|r| - (|ms| - p)..] == ms[p..]
            && Systems(r) == Systems(ms)
  {
    hide Cut, Protected, Systems;
    var k, p := Cut(estimate, ms, usable), Protected(ms);
    SystemsConcat(Systems(ms[..k]), ms[k..]);
    AllSystems(Systems(ms[..k]));
    assert ms == ms[..k] + ms[k..];
    SystemsConcat(ms[..k], ms[k..]);
    assert ms[k..] == ms[k..p] + ms[p..];
    ConcatAssociates(Systems(ms[..k]), ms[k..p], ms[p..]);
  }

  // ----- trimming twice ------------------------------------------------------------------

  lemma ProtectedAfterSystems(a: seq<Message>, b: seq<Message>)
    requires forall m | m in a :: IsSystem(m)
    requires b == [] || (IsUser(b[0]) && forall k | 0 < k < |b| :: !IsUser(b[k]))
    ensures Protected(a + b) == |a|
  {
    var ms := a + b;
    forall k | 0 <= k < |a| ensures IsSystem(ms[k]) { assert ms[k] == a[k]; }
    assert forall k | |a| <= k < |ms| :: ms[k] == b[k - |a|];
    assert b != [] ==> ms[|a|] == b[0];
  }

  lemma {:induction false} OnlySystemsToDrop(estimate: Estimate, ms: seq<Message>, i: nat, limit: nat, need: nat)
    requires i <= limit <= |ms| && forall k | 0 <= k < limit :: IsSystem(ms[k])
    ensures LeftAt(ms, StopAt(estimate, ms, i, limit, need)) == ms
    decreases limit - i
  {
    hide LeftAt;
    if i < limit && need > 0 {
      OnlySystemsToDrop(estimate, ms, i + 1, limit, need);
    } else {
      SystemsLeft(ms, i);
    }
  }

  lemma SystemsLeft(ms: seq<Message>, i: nat)
    requires i <= |ms| && forall k | 0 <= k < i :: IsSystem(ms[k])
    ensures LeftAt(ms, i) == ms
  {
    hide Systems, IsSystem;
    AllSystems(ms[..i]);
    assert ms == ms[..i] + ms[i..];
  }

  lemma TrimmedToSystems(estimate: Estimate, ms: seq<Message>, usable: nat)
    requires Cost(estimate, LeftAt(ms, Protected(ms))) > usable
    ensures var r := LeftAt(ms, Protected(ms)); Trim(estimate, r, usable) == r
  {
    hide StopAt, Cost;
    var p, r := Protected(ms), LeftAt(ms, Protected(ms));
    ProtectedAfterSystems(Systems(ms[..p]), ms[p..]);
    forall k | 0 <= k < Protected(r) ensures IsSystem(r[k]) { assert r[k] == Systems(ms[..p])[k]; }
    OnlySystemsToDrop(estimate, r, 0, Protected(r), Cost(estimate, r) - usable);
  }

  lemma TrimIdempotent(estimate: Estimate, ms: seq<Message>, usable: nat)
    ensures Trim(estimate, Trim(estimate, ms, usable), usable) == Trim(estimate, ms, usable)
  {
    hide Boundary, StopAt, Cost, LeftAt, Protected;
    var r := Trim(estimate, ms, usable);
    TrimIsLeast(estimate, ms, usable);
    NothingDropped(r);
    if Cost(estimate, r) > usable {
      TrimmedToSystems(estimate, ms, usable);
    }
  }
}
