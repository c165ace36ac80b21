/** Transcripts in which every tool call has its results, and how they stay so while
    messages are appended and trimmed. */
module Transcripts {
  import opened Text
  import opened Messages
  import opened ContextTrim
  import opened ToolResults

  /** `m` is a result of `call`: an envelope with its name and identifier. */
  ghost predicate IsResultFor(m: Message, call: ToolCall) {
    IsTool(m) && m.toolCalls.None? && exists payload :: m.content == Envelope(call.name, payload, call.id)
  }

  ghost predicate ResultsFor(ms: seq<Message>, calls: seq<ToolCall>) {
    |ms| == |calls| && forall k | 0 <= k < |ms| :: IsResultFor(ms[k], calls[k])
  }

  /** Every call message is followed at once by exactly one result per call, in call order;
      only the last may still be waiting for the results of `pending`. */
  ghost predicate Awaiting(ms: seq<Message>, pending: seq<ToolCall>)
    decreases |ms|
  {
    if ms == [] then pending == []
    else if IsCall(ms[0]) then
      var calls := ms[0].toolCalls.value;
      if |ms| > |calls| then ResultsFor(ms[1..1 + |calls|], calls) && Awaiting(ms[1 + |calls|..], pending)
      else ResultsFor(ms[1..], calls[..|ms| - 1]) && pending == calls[|ms| - 1..]
    else !IsTool(ms[0]) && Awaiting(ms[1..], pending)
  }

  ghost predicate Answered(ms: seq<Message>) {
    Awaiting(ms, [])
  }

  predicate HasUser(ms: seq<Message>) {
    exists i :: 0 <= i < |ms| && IsUser(ms[i])
  }

  lemma StartsWithNoTool(ms: seq<Message>, pending: seq<ToolCall>)
    requires Awaiting(ms, pending) && ms != []
    ensures !IsTool(ms[0])
  {
  }

  // ----- appending -------------------------------------------------------------------

  lemma {:induction false} AppendPlain(ms: seq<Message>, m: Message)
    requires Answered(ms) && !IsTool(m) && !IsCall(m)
    ensures Answered(ms + [m])
    decreases |ms|
  {
    if ms == [] {
      assert [m][1..] == [] && ms + [m] == [m];
    } else {
      var n := if IsCall(ms[0]) then 1 + |ms[0].toolCalls.value| else 1;
      AppendPlain(ms[n..], m);
      assert (ms + [m])[n..] == ms[n..] + [m] && (ms + [m])[1..n] == ms[1..n];
    }
  }

  lemma {:induction false} AppendCall(ms: seq<Message>, m: Message)
    requires Answered(ms) && IsCall(m)
    ensures Awaiting(ms + [m], m.toolCalls.value)
    decreases |ms|
  {
    if ms == [] {
      assert ms + [m] == [m] && [m][1..] == [];
      assert m.toolCalls.value[..0] == [] && m.toolCalls.value[0..] == m.toolCalls.value;
    } else {
      var n := if IsCall(ms[0]) then 1 + |ms[0].toolCalls.value| else 1;
      AppendCall(ms[n..], m);
      assert (ms + [m])[n..] == ms[n..] + [m] && (ms + [m])[1..n] == ms[1..n];
    }
  }

  lemma {:induction false} AppendResult(ms: seq<Message>, pending: seq<ToolCall>, m: Message)
    requires pending != [] && Awaiting(ms, pending) && IsResultFor(m, pending[0])
    ensures Awaiting(ms + [m], pending[1..])
    decreases |ms|
  {
    var r := ms + [m];
    if IsCall(ms[0]) {
      var calls := ms[0].toolCalls.value;
      if |ms| > |calls| {
        AppendResult(ms[1 + |calls|..], pending, m);
        assert r[1 + |calls|..] == ms[1 + |calls|..] + [m] && r[1..1 + |calls|] == ms[1..1 + |calls|];
      } else {
        assert calls[|ms| - 1] == pending[0];
        assert ResultsFor(r[1..], calls[..|ms|]) by {
          forall k | 0 <= k < |ms| ensures IsResultFor(r[1..][k], calls[k]) {
            if k < |ms| - 1 {
              assert r[1..][k] == ms[1..][k] && calls[..|ms| - 1][k] == calls[k];
            }
          }
        }
        if |r| > |calls| {
          assert r[1..1 + |calls|] == r[1..] && calls[..|ms|] == calls && r[1 + |calls|..] == [];
        }
        assert pending[1..] == calls[|ms|..];
      }
    } else {
      AppendResult(ms[1..], pending, m);
      assert r[1..] == ms[1..] + [m];
    }
  }

  // ----- trimming ----------------------------------------------------------------------

  lemma ResultsAreTools(ms: seq<Message>, calls: seq<ToolCall>)
    requires ResultsFor(ms, calls)
    ensures forall k | 0 <= k < |ms| :: IsTool(ms[k])
  {
  }

  /** A call that waits for results has nothing but tool messages after it. */
  lemma OpenBlockIsLast(ms: seq<Message>, i: nat, pending: seq<ToolCall>)
    requires i < |ms| && IsCall(ms[i]) && Awaiting(ms[i..], pending)
    ensures |ms| - i <= |ms[i].toolCalls.value| ==> pending != [] && forall k | i < k < |ms| :: IsTool(ms[k])
  {
    hide IsResultFor;
    var calls, rest := ms[i].toolCalls.value, ms[i..];
    if |rest| <= |calls| {
      ResultsAreTools(rest[1..], calls[..|rest| - 1]);
      assert forall k | i < k < |ms| :: ms[k] == rest[1..][k - i - 1];
    }
  }

  /** A unit that is dropped is one call with all of its results. */
  lemma UnitIsBlock(ms: seq<Message>, i: nat, limit: nat, pending: seq<ToolCall>)
    requires i < limit <= |ms| && IsCall(ms[i]) && Awaiting(ms[i..], pending)
    requires limit < |ms| ==> IsUser(ms[limit])
    requires limit == |ms| ==> pending == []
    ensures i + 1 + |ms[i].toolCalls.value| <= limit
    ensures UnitEnd(ms, i, limit) == i + 1 + |ms[i].toolCalls.value|
    ensures Awaiting(ms[i + 1 + |ms[i].toolCalls.value|..], pending)
  {
    hide IsResultFor, ResultsFor, ToolsFrom;
    var calls, rest := ms[i].toolCalls.value, ms[i..];
    assert rest[0] == ms[i];
    OpenBlockIsLast(ms, i, pending);
    if |rest| > |calls| {
      var n := i + 1 + |calls|;
      ResultsAreTools(rest[1..1 + |calls|], calls);
      assert forall k | i < k < n :: ms[k] == rest[1..1 + |calls|][k - i - 1];
      assert rest[1 + |calls|..] == ms[n..];
      if n < |ms| {
        StartsWithNoTool(ms[n..], pending);
      }
      ToolsRun(ms, i + 1, n, limit);
    }
  }

  lemma {:induction false} ToolsRun(ms: seq<Message>, i: nat, n: nat, limit: nat)
    requires i <= n <= |ms| && i <= limit <= |ms| && (forall k | i <= k < n :: IsTool(ms[k])) &&
             (n < |ms| ==> !IsTool(ms[n]))
    requires limit < |ms| ==> !IsTool(ms[limit])
    ensures n <= limit ==> ToolsFrom(ms, i, limit) == n
    ensures n <= limit
    decreases n - i
  {
    if i < n {
      assert i < limit by {
        assert IsTool(ms[i]);
      }
      ToolsRun(ms, i + 1, n, limit);
    }
  }

  /** From a boundary on, an answered transcript is answered. */
  lemma {:induction false} FromBoundary(ms: seq<Message>, k: nat, limit: nat, i: nat, pending: seq<ToolCall>)
    requires i <= limit <= |ms| && Boundary(ms, k, limit, i) && k <= limit && Awaiting(ms[i..], pending)
    requires limit < |ms| ==> IsUser(ms[limit])
    requires limit == |ms| ==> pending == []
    ensures Awaiting(ms[k..], pending)
    decreases limit - i
  {
    if k != i {
      assert ms[i..][0] == ms[i] && ms[i..][1..] == ms[i + 1..];
      if IsCall(ms[i]) {
        UnitIsBlock(ms, i, limit, pending);
      }
      FromBoundary(ms, k, limit, if IsSystem(ms[i]) then i + 1 else UnitEnd(ms, i, limit), pending);
    }
  }

  lemma {:induction false} SystemsAwaitNothing(systems: seq<Message>, ms: seq<Message>, pending: seq<ToolCall>)
    requires forall m | m in systems :: IsSystem(m)
    ensures Awaiting(systems + ms, pending) <==> Awaiting(ms, pending)
    decreases |systems|
  {
    if systems == [] {
      assert systems + ms == ms;
    } else {
      assert (systems + ms)[1..] == systems[1..] + ms;
      assert (systems + ms)[0] == systems[0] && IsSystem(systems[0]);
      SystemsAwaitNothing(systems[1..], ms, pending);
    }
  }

  /** Trimming keeps a transcript answered. One that still awaits results needs a user
      message: the call it waits for is then part of the active request. */
  lemma TrimKeepsAnswered(estimate: Estimate, ms: seq<Message>, usable: nat, pending: seq<ToolCall>)
    requires Awaiting(ms, pending) && (pending == [] || HasUser(ms))
    ensures Awaiting(Trim(estimate, ms, usable), pending)
    ensures HasUser(ms) ==> HasUser(Trim(estimate, ms, usable))
  {
    hide Boundary, Awaiting, Cut;
    var p, k := Protected(ms), Cut(estimate, ms, usable);
    TrimIsLeast(estimate, ms, usable);
    assert ms[0..] == ms;
    FromBoundary(ms, k, p, 0, pending);
    SystemsAwaitNothing(Systems(ms[..k]), ms[k..], pending);
    if HasUser(ms) {
      var r := Trim(estimate, ms, usable);
      assert ms[k..][p - k] == ms[p];
      assert r[|Systems(ms[..k])| + (p - k)] == ms[p];
    }
  }

  // ----- without a user message ----------------------------------------------------------

  /** The call that is waiting, with nothing but results after it. */
  lemma {:induction false} OpenCall(ms: seq<Message>, pending: seq<ToolCall>) returns (c: nat)
    requires Awaiting(ms, pending) && pending != []
    ensures c < |ms| && IsCall(ms[c]) && forall k | c < k < |ms| :: IsTool(ms[k])
    decreases |ms|
  {
    hide IsResultFor, ResultsFor;
    var n := if IsCall(ms[0]) then 1 + |ms[0].toolCalls.value| else 1;
    if n <= |ms| {
      assert n < |ms|;
      var d := OpenCall(ms[n..], pending);
      c := n + d;
      assert forall k | c < k < |ms| :: ms[k] == ms[n..][k - n];
    } else {
      c := 0;
      ResultsAreTools(ms[1..], ms[0].toolCalls.value[..|ms| - 1]);
      assert forall k | 0 < k < |ms| :: ms[k] == ms[1..][k - 1];
    }
  }

  /** Only what is not a system message and not a result costs anything. */
  function OthersCost(m: Message): nat {
    if IsTool(m) || IsSystem(m) then 0 else 1
  }

  lemma {:induction false} CostsNothing(ms: seq<Message>, k: nat)
    requires k < |ms| && !IsTool(ms[k]) && !IsSystem(ms[k])
    ensures Cost(OthersCost, ms) > 0
  {
    if k > 0 {
      CostsNothing(ms[1..], k - 1);
    }
  }

  lemma {:induction false} SystemsAreFree(ms: seq<Message>)
    requires forall m | m in ms :: IsSystem(m) || IsTool(m)
    ensures Cost(OthersCost, ms) == 0
  {
    if ms != [] {
      assert ms[0] in ms;
      SystemsAreFree(ms[1..]);
    }
  }

  /** Without a user message nothing is protected, and a small budget leaves system messages only. */
  lemma WaitingCallIsDropped(ms: seq<Message>, pending: seq<ToolCall>)
    requires Awaiting(ms, pending) && pending != [] && !HasUser(ms)
    ensures Trim(OthersCost, ms, 0) == Systems(ms)
  {
    hide Awaiting, Cut, Cost, Boundary;
    var k := Cut(OthersCost, ms, 0);
    TrimIsLeast(OthersCost, ms, 0);
    assert Protected(ms) == |ms|;
    var c := OpenCall(ms, pending);
    if k < |ms| {
      if k <= c {
        var r := LeftAt(ms, k);
        assert r[|Systems(ms[..k])| + (c - k)] == ms[c];
        CostsNothing(r, |Systems(ms[..k])| + (c - k));
      } else {
        TrimKeepsUnits(OthersCost, ms, 0, c, k);
      }
    }
    assert ms[..|ms|] == ms && ms[|ms|..] == [];
  }

  /** Trimming keeps what a transcript waits for, whatever the estimate and the budget, if
      and only if it waits for nothing or has a user message. */
  lemma TrimKeepsAwaitingIff(ms: seq<Message>, pending: seq<ToolCall>)
    requires Awaiting(ms, pending)
    ensures (forall estimate, usable :: Awaiting(Trim(estimate, ms, usable), pending)) <==> pending == [] || HasUser(ms)
  {
    hide Awaiting, Trim;
    if pending == [] || HasUser(ms) {
      forall estimate, usable ensures Awaiting(Trim(estimate, ms, usable), pending) {
        TrimKeepsAnswered(estimate, ms, usable, pending);
      }
    } else {
      WaitingCallIsDropped(ms, pending);
      assert Systems(ms) + [] == Systems(ms);
      SystemsAwaitNothing(Systems(ms), [], pending);
      NothingAwaited(pending);
      assert !Awaiting(Trim(OthersCost, ms, 0), pending);
    }
  }

  lemma NothingAwaited(pending: seq<ToolCall>)
    ensures Awaiting([], pending) <==> pending == []
  {
  }

  /** What comes of it: from every transcript that waits without a user message, the next
      result may be left on its own, after its call has been dropped. */
  lemma WithoutUserResultIsOrphaned(ms: seq<Message>, pending: seq<ToolCall>, result: Message)
    requires Awaiting(ms, pending) && pending != [] && !HasUser(ms) && IsResultFor(result, pending[0])
    ensures exists estimate, usable :: !exists later ::
            Awaiting(Trim(estimate, Trim(estimate, ms, usable) + [result], usable), later)
  {
    hide Awaiting, Trim, Cost;
    WaitingCallIsDropped(ms, pending);
    var r := Systems(ms) + [result];
    SystemsAreFree(r);
    FreeIsKept(OthersCost, r, 0);
    forall later ensures !Awaiting(r, later) {
      SystemsAwaitNothing(Systems(ms), [result], later);
      ResultAwaitsNothing(result, later);
    }
    assert Trim(OthersCost, Trim(OthersCost, ms, 0) + [result], 0) == r;
  }

  lemma ResultAwaitsNothing(result: Message, later: seq<ToolCall>)
    requires IsTool(result)
    ensures !Awaiting([result], later)
  {
  }

  lemma FreeIsKept(estimate: Estimate, ms: seq<Message>, usable: nat)
    requires Cost(estimate, ms) <= usable
    ensures Trim(estimate, ms, usable) == ms
  {
    NothingDropped(ms);
  }
}
