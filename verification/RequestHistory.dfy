/** What a request task sends, told from what it has polled alone: no state, only history. */
module RequestHistory {
  import opened Text
  import opened Amounts
  import opened Messages
  import opened RequestTask

  predicate IsText(p: Poll) {
    p.Received? && p.event.TextDelta?
  }

  predicate IsCalls(p: Poll) {
    p.Received? && p.event.ToolCallsEvent?
  }

  /** Text has come, or calls after reasoning: from then on no thought is open. */
  ghost predicate Closed(polls: seq<Poll>) {
    || (exists p :: p in polls && IsText(p))
    || exists i :: 0 <= i < |polls| && IsCalls(polls[i]) && Reasons(polls[..i])
  }

  ghost predicate Thinking(polls: seq<Poll>) {
    Reasons(polls) && !Closed(polls)
  }

  /** The number of the last reasoning segment that had one. */
  function LastSegment(polls: seq<Poll>): Option<nat> {
    if polls == [] then None
    else
      var last := polls[|polls| - 1];
      if IsReasoning(last) && last.event.segment.Some? then last.event.segment
      else LastSegment(polls[..|polls| - 1])
  }

  function LastUsage(polls: seq<Poll>): Option<Usage> {
    if polls == [] then None
    else
      var last := polls[|polls| - 1];
      if last.Received? && last.event.UsageEvent? then Some(last.event.reported) else LastUsage(polls[..|polls| - 1])
  }

  /** The payload that came with the last calls that had one. */
  function LastPayload(polls: seq<Poll>): Option<string> {
    if polls == [] then None
    else
      var last := polls[|polls| - 1];
      if IsCalls(last) && last.event.payload.Some? then last.event.payload else LastPayload(polls[..|polls| - 1])
  }

  /** All calls, each under the identifier the session gives it. */
  function AllCalls(s: Session, polls: seq<Poll>): seq<ToolCall> {
    if polls == [] then []
    else
      var before, last := AllCalls(s, polls[..|polls| - 1]), polls[|polls| - 1];
      if IsCalls(last)
      then before + seq(|last.event.calls|, i requires 0 <= i < |last.event.calls| =>
                          last.event.calls[i].(id := s.effectiveId(last.event.calls[i])))
      else before
  }

  /** What the provider says is passed on as it is. */
  function Passed(p: Poll): seq<Sent> {
    if !p.Received? then []
    else
      match p.event
      case ReasoningDelta(text, _) => [Chunk(text, Reasoned)]
      case TextDelta(text) => [Chunk(text, Spoken)]
      case ToolCallStart(name) => [PreparingToolCall(name)]
      case UsageEvent(usage) => [UsageUpdate(usage)]
      case _ => []
  }

  /** What the task itself says before it passes on `p`: the opening tag before the first
      reasoning, a blank line where the numbered segment changes, and the closing tag as
      soon as text or calls follow the reasoning. */
  ghost function Framing(before: seq<Poll>, p: Poll): seq<Sent> {
    if IsReasoning(p) then
      (if Reasons(before) then [] else [Chunk("<think>\n", Synthetic)]) +
      (if p.event.segment.Some? && LastSegment(before).Some? && p.event.segment != LastSegment(before)
       then [Chunk("\n\n", Synthetic)] else [])
    else if (IsText(p) || IsCalls(p)) && Thinking(before) then [Chunk("</think>\n", Synthetic)]
    else []
  }

  ghost function Account(polls: seq<Poll>): seq<Sent> {
    if polls == [] then []
    else
      var before, last := polls[..|polls| - 1], polls[|polls| - 1];
      Account(before) + (Framing(before, last) + Passed(last))
  }

  // ----- how a request ends ------------------------------------------------------------------

  /** What a terminal poll leads to: the checkpoint, and what follows if it is saved. */
  ghost function Ending(s: Session, polls: seq<Poll>, p: Poll): seq<Sent> {
    var calls, used := AllCalls(s, polls), LastUsage(polls);
    match p
    case ReceiverClosed => Settled(s, Checkpoint(used, false, None), [])
    case TokenCancelled => Settled(s, Checkpoint(used, false, None), [RequestCancelled])
    case StreamEnded => Settled(s, Checkpoint(used, false, None), [Error(STREAM_ENDED)])
    case Received(ErrorEvent(error)) => Settled(s, Checkpoint(used, false, None), [Error(error)])
    case Received(DoneEvent(usage, payload)) =>
      var closing := if Thinking(polls) then [Chunk("</think>\n", Synthetic)] else [];
      var content := ChunkText(Account(polls) + closing);
      var kept := if LastPayload(polls).Some? then LastPayload(polls) else payload;
      var final := if usage.Some? then usage else used;
      closing + Settled(
        s, Checkpoint(final, true, Some(Message("assistant", content, if calls == [] then None else Some(calls), kept,
                                                false))),
        (if calls == [] then [] else [ToolCallsReady(calls, kept)]) + [Done(final)])
    case _ => []
  }

  function Settled(s: Session, c: Checkpoint, further: seq<Sent>): seq<Sent> {
    if s.saves(c) then [Checkpointed(c, true), RequestFinished(c)] + further
    else [Checkpointed(c, false), RequestSettlementFailed]
  }

  // ----- the state of a task that is going, told from history ------------------------------------

  ghost predicate Tells(s: Session, t: Task, polls: seq<Poll>) {
    && !t.ended && t.assembled == ChunkText(t.trace)
    && (t.thinkOpened <==> Reasons(polls)) && (t.inThought <==> !Closed(polls))
    && t.lastSegment == LastSegment(polls) && t.usage == LastUsage(polls)
    && t.pendingCalls == AllCalls(s, polls) && t.pendingPayload == LastPayload(polls)
    && t.trace == Account(polls)
  }

  lemma ReasonsNext(polls: seq<Poll>, p: Poll)
    ensures Reasons(polls + [p]) <==> Reasons(polls) || IsReasoning(p)
    ensures Closed(polls + [p]) <==> Closed(polls) || IsText(p) || (IsCalls(p) && Reasons(polls))
  {
    var next := polls + [p];
    assert next[|polls|] == p && next[..|polls|] == polls;
    assert forall q :: q in next <==> q in polls || q == p;
    assert forall i | 0 <= i < |polls| :: next[i] == polls[i] && next[..i] == polls[..i];
  }

  lemma LastsNext(s: Session, polls: seq<Poll>, p: Poll)
    ensures var next := polls + [p];
            && LastSegment(next) == (if IsReasoning(p) && p.event.segment.Some? then p.event.segment
                                     else LastSegment(polls))
            && LastUsage(next) == (if p.Received? && p.event.UsageEvent? then Some(p.event.reported)
                                   else LastUsage(polls))
            && LastPayload(next) == (if IsCalls(p) && p.event.payload.Some? then p.event.payload
                                     else LastPayload(polls))
            && AllCalls(s, next) == (if IsCalls(p) then AllCalls(s, polls) + Identified(s, p.event.calls)
                                     else AllCalls(s, polls))
            && Account(next) == Account(polls) + (Framing(polls, p) + Passed(p))
  {
    assert (polls + [p])[..|polls|] == polls;
  }

  /** Speaking twice and once more, in any order of grouping. */
  lemma ThreeParts<T>(a: seq<T>, b: seq<T>, c: seq<T>, d: seq<T>)
    ensures a + b + c + d == a + (b + c + d)
  {
  }

  lemma SayTells(t: Task, text: string, kind: ChunkKind)
    requires t.assembled == ChunkText(t.trace)
    ensures Say(t, text, kind).assembled == ChunkText(Say(t, text, kind).trace)
  {
    ChunkTextConcat(t.trace, [Chunk(text, kind)]);
    assert ChunkText([Chunk(text, kind)]) == "" + text == text;
  }

  lemma SilentTells(trace: seq<Sent>, e: Sent)
    requires !e.Chunk?
    ensures ChunkText(trace + [e]) == ChunkText(trace)
  {
    assert (trace + [e])[..|trace|] == trace;
    assert ChunkText(trace) + "" == ChunkText(trace);
  }

  lemma ReasoningTells(s: Session, t: Task, polls: seq<Poll>, p: Poll)
    requires Tells(s, t, polls) && IsReasoning(p)
    ensures Tells(s, OnReasoning(t, p.event.text, p.event.segment), polls + [p])
  {
    hide Reasons, Closed, LastSegment, LastUsage, LastPayload, AllCalls, Account, ChunkText, Say;
    var segment := p.event.segment;
    ReasonsNext(polls, p);
    LastsNext(s, polls, p);
    var open, blank := Chunk("<think>\n", Synthetic), Chunk("\n\n", Synthetic);
    var a := if t.thinkOpened then t else Say(t, OPEN_THINK, Synthetic).(thinkOpened := true);
    Says(t, OPEN_THINK, Synthetic);
    var b := if NeedsSeparator(a.lastSegment, segment) then Say(a, "\n\n", Synthetic) else a;
    Says(a, "\n\n", Synthetic);
    var c := b.(lastSegment := if segment.Some? then segment else b.lastSegment);
    Says(c, p.event.text, Reasoned);
    var first := if Reasons(polls) then [] else [open];
    var second := if segment.Some? && LastSegment(polls).Some? && segment != LastSegment(polls) then [blank] else [];
    assert a.trace == t.trace + first && b.trace == a.trace + second;
    ThreeParts(t.trace, first, second, [Chunk(p.event.text, Reasoned)]);
    assert Framing(polls, p) + Passed(p) == first + second + [Chunk(p.event.text, Reasoned)];
  }

  lemma Says(t: Task, text: string, kind: ChunkKind)
    ensures var v := Say(t, text, kind);
            && v.trace == t.trace + [Chunk(text, kind)] && v == t.(assembled := v.assembled, trace := v.trace)
            && (t.assembled == ChunkText(t.trace) ==> v.assembled == ChunkText(v.trace))
  {
    if t.assembled == ChunkText(t.trace) {
      SayTells(t, text, kind);
    }
  }

  lemma ClosesTells(t: Task)
    ensures var v := CloseThought(t);
            && v.trace == t.trace + (if t.inThought && t.thinkOpened then [Chunk("</think>\n", Synthetic)] else [])
            && v == t.(assembled := v.assembled, trace := v.trace)
            && (t.assembled == ChunkText(t.trace) ==> v.assembled == ChunkText(v.trace))
  {
    hide Say;
    Says(t, CLOSE_THINK, Synthetic);
    assert t.trace + [] == t.trace;
  }

  lemma StepTells(s: Session, t: Task, polls: seq<Poll>, p: Poll)
    requires Tells(s, t, polls) && !Terminal(p)
    ensures Tells(s, Step(s, t, p), polls + [p])
  {
    hide Reasons, Closed, LastSegment, LastUsage, LastPayload, AllCalls, Account, ChunkText, Say, OnReasoning,
      CloseThought, Identified;
    ReasonsNext(polls, p);
    LastsNext(s, polls, p);
    match p.event {
      case ReasoningDelta(text, segment) => ReasoningTells(s, t, polls, p);
      case TextDelta(text) =>
        ClosesTells(t);
        var a := CloseThought(t).(inThought := false);
        Says(a, text, Spoken);
        ConcatAssociates(t.trace, Framing(polls, p), Passed(p));
      case ToolCallStart(name) => SilentTells(t.trace, PreparingToolCall(name));
      case ToolCallDelta =>
      case ToolCallsEvent(calls, payload) => ClosesTells(t);
      case UsageEvent(usage) => SilentTells(t.trace, UsageUpdate(usage));
    }
  }

  lemma {:induction false} RunTells(s: Session, polls: seq<Poll>)
    requires Uninterrupted(polls)
    ensures Tells(s, Run(s, NEW_TASK, polls), polls)
    decreases |polls|
  {
    hide Tells, Step;
    if polls == [] {
      NothingTold(s);
    } else {
      var n := |polls| - 1;
      assert polls == polls[..n] + [polls[n]] && polls[n] in polls;
      RunTells(s, polls[..n]);
      RunLast(s, NEW_TASK, polls[..n], polls[n]);
      StepTells(s, Run(s, NEW_TASK, polls[..n]), polls[..n], polls[n]);
    }
  }

  lemma NothingTold(s: Session)
    ensures Tells(s, NEW_TASK, [])
  {
  }

  // ----- whole requests ---------------------------------------------------------------------------

  /** While nothing terminal is polled, what has been sent is what the provider said in its
      order, framed by the tags and blank lines of the task. */
  lemma RunningRequest(s: Session, polls: seq<Poll>)
    requires Uninterrupted(polls)
    ensures !Request(s, Started, polls).ended && Request(s, Started, polls).trace == Account(polls)
  {
    hide Run, Account;
    RunTells(s, polls);
  }

  lemma EndTells(s: Session, t: Task, polls: seq<Poll>, p: Poll)
    requires Tells(s, t, polls) && Terminal(p)
    ensures Step(s, t, p).ended && Step(s, t, p).trace == Account(polls) + Ending(s, polls, p)
  {
    hide Closed, Reasons, LastSegment, LastUsage, LastPayload, AllCalls, Account, ChunkText, CloseThought, OnDone,
      Thinking;
    if p.Received? && p.event.DoneEvent? {
      DoneTells(s, t, polls, p);
    }
  }

  lemma DoneTells(s: Session, t: Task, polls: seq<Poll>, p: Poll)
    requires Tells(s, t, polls) && p.Received? && p.event.DoneEvent?
    ensures Step(s, t, p).ended && Step(s, t, p).trace == Account(polls) + Ending(s, polls, p)
  {
    hide Closed, Reasons, LastSegment, LastUsage, LastPayload, AllCalls, Account, ChunkText, CloseThought, Settle,
      Settled;
    ClosesTells(t);
    var closing := if Thinking(polls) then [Chunk("</think>\n", Synthetic)] else [];
    var a, usage := CloseThought(t), p.event.usage;
    var used := if usage.Some? then usage else a.usage;
    var kept := if a.pendingPayload.Some? then a.pendingPayload else p.event.payload;
    var c := Checkpoint(used, true, Some(AssistantMessage(a, kept)));
    var further := (if a.pendingCalls == [] then [] else [ToolCallsReady(a.pendingCalls, kept)]) + [Done(used)];
    SettleSends(s, a, c, further);
    ConcatAssociates(Account(polls), closing, Settled(s, c, further));
    assert Ending(s, polls, p) == closing + Settled(s, c, further);
  }

  lemma SettleSends(s: Session, t: Task, c: Checkpoint, further: seq<Sent>)
    ensures Settle(s, t, c, further) == t.(trace := t.trace + Settled(s, c, further), ended := true)
  {
    assert [Checkpointed(c, true)] + ([RequestFinished(c)] + further) ==
           [Checkpointed(c, true), RequestFinished(c)] + further;
  }

  /** The first terminal poll ends the request: after what the provider said come one
      checkpoint, with the usage, text, calls and payload of the whole request, and what
      that poll leads to; later polls change nothing. */
  lemma EndedRequest(s: Session, polls: seq<Poll>, p: Poll, more: seq<Poll>)
    requires Uninterrupted(polls) && Terminal(p)
    ensures Request(s, Started, polls + [p] + more).trace == Account(polls) + Ending(s, polls, p)
  {
    hide Run, Account, Ending, Step, Tells;
    RunTells(s, polls);
    RunLast(s, NEW_TASK, polls, p);
    EndTells(s, Run(s, NEW_TASK, polls), polls, p);
    RunOn(s, NEW_TASK, polls + [p], more);
    RunEnded(s, Run(s, NEW_TASK, polls + [p]), more);
  }

  lemma {:induction false} RunOn(s: Session, t: Task, polls: seq<Poll>, more: seq<Poll>)
    ensures Run(s, t, polls + more) == Run(s, Run(s, t, polls), more)
    decreases |polls|
  {
    hide Step;
    if polls == [] {
      assert polls + more == more;
    } else {
      assert (polls + more)[1..] == polls[1..] + more;
      RunOn(s, Step(s, t, polls[0]), polls[1..], more);
    }
  }

  /** A request that does not start is settled without any text. */
  lemma UnstartedRequest(s: Session, start: Start, polls: seq<Poll>)
    requires !start.Started?
    ensures Request(s, start, polls).trace ==
            Settled(s, Checkpoint(None, false, None),
                    match start
                    case StartClosed => []
                    case StartCancelled => [RequestCancelled]
                    case StartFailed(error) => [Error(error)])
  {
    hide Run;
    RunEnded(s, Begin(s, start), polls);
  }

  // ----- nothing the provider said is lost or changed --------------------------------------------

  /** The chunks that are not the task's own. */
  function Voices(trace: seq<Sent>): seq<Sent> {
    if trace == [] then []
    else
      var last := trace[|trace| - 1];
      if last.Chunk? && last.kind != Synthetic then Voices(trace[..|trace| - 1]) + [last]
      else Voices(trace[..|trace| - 1])
  }

  /** What the provider said before the first terminal poll. */
  function Heard(polls: seq<Poll>): seq<Sent> {
    if polls == [] || Terminal(polls[0]) then []
    else
      var said :=
        match polls[0].event
        case ReasoningDelta(text, _) => [Chunk(text, Reasoned)]
        case TextDelta(text) => [Chunk(text, Spoken)]
        case _ => [];
      said + Heard(polls[1..])
  }

  lemma {:induction false} VoicesConcat(a: seq<Sent>, b: seq<Sent>)
    ensures Voices(a + b) == Voices(a) + Voices(b)
    decreases |b|
  {
    if b == [] {
      assert a + b == a;
    } else {
      assert (a + b)[..|a + b| - 1] == a + b[..|b| - 1];
      VoicesConcat(a, b[..|b| - 1]);
      ConcatAssociates(Voices(a), Voices(b[..|b| - 1]), [b[|b| - 1]]);
    }
  }

  lemma {:induction false} NoVoices(trace: seq<Sent>)
    requires forall e | e in trace :: !e.Chunk? || e.kind == Synthetic
    ensures Voices(trace) == []
  {
    if trace != [] {
      assert trace[|trace| - 1] in trace;
      NoVoices(trace[..|trace| - 1]);
    }
  }

  lemma {:induction false} AccountVoices(polls: seq<Poll>)
    requires Uninterrupted(polls)
    ensures Voices(Account(polls)) == Heard(polls)
    decreases |polls|
  {
    hide Framing, Thinking;
    if polls != [] {
      var n := |polls| - 1;
      var before, p := polls[..n], polls[n];
      assert polls == before + [p] && p in polls;
      AccountVoices(before);
      VoicesConcat(Account(before), Framing(before, p) + Passed(p));
      VoicesConcat(Framing(before, p), Passed(p));
      FramingIsSynthetic(before, p);
      NoVoices(Framing(before, p));
      PassedVoices(p);
      HeardConcat(before, [p]);
    }
  }

  lemma FramingIsSynthetic(before: seq<Poll>, p: Poll)
    ensures forall e | e in Framing(before, p) :: e.Chunk? && e.kind == Synthetic
  {
  }

  lemma PassedVoices(p: Poll)
    requires !Terminal(p)
    ensures Voices(Passed(p)) == Heard([p])
  {
    assert [p][1..] == [] && Heard([]) == [];
    if Passed(p) != [] {
      assert Passed(p) == [Passed(p)[0]] && Passed(p)[..0] == [];
    }
  }

  lemma {:induction false} HeardConcat(a: seq<Poll>, b: seq<Poll>)
    requires Uninterrupted(a)
    ensures Heard(a + b) == Heard(a) + Heard(b)
    decreases |a|
  {
    if a == [] {
      assert a + b == b;
    } else {
      assert a[0] in a && (a + b)[1..] == a[1..] + b;
      HeardConcat(a[1..], b);
    }
  }

  lemma {:induction false} FirstTerminal(polls: seq<Poll>) returns (k: nat)
    ensures k <= |polls| && Uninterrupted(polls[..k]) && (k < |polls| ==> Terminal(polls[k]))
  {
    k := 0;
    while k < |polls| && !Terminal(polls[k])
      invariant k <= |polls| && Uninterrupted(polls[..k])
    {
      assert polls[..k + 1] == polls[..k] + [polls[k]];
      k := k + 1;
    }
  }

  /** Over every run, what is sent apart from the framing is exactly what the provider said
      before the first terminal poll: the same texts, in order, reasoning as reasoning and
      text as text. */
  lemma SaidIsHeard(s: Session, polls: seq<Poll>)
    ensures Voices(Request(s, Started, polls).trace) == Heard(polls)
  {
    hide Voices, Heard, Account, Ending, Run, Uninterrupted;
    var k := FirstTerminal(polls);
    var before := polls[..k];
    AccountVoices(before);
    if k == |polls| {
      assert before == polls;
      RunningRequest(s, polls);
    } else {
      var p, more := polls[k], polls[k + 1..];
      assert polls == before + [p] + more == before + ([p] + more);
      EndedRequest(s, before, p, more);
      VoicesConcat(Account(before), Ending(s, before, p));
      EndingIsSynthetic(s, before, p);
      NoVoices(Ending(s, before, p));
      HeardConcat(before, [p] + more);
      NothingHeard(p, more);
    }
  }

  lemma NothingHeard(p: Poll, more: seq<Poll>)
    requires Terminal(p)
    ensures Heard([p] + more) == []
  {
  }

  lemma EndingIsSynthetic(s: Session, polls: seq<Poll>, p: Poll)
    ensures forall e | e in Ending(s, polls, p) :: !e.Chunk? || e.kind == Synthetic
  {
    hide ChunkText, Account, AllCalls, LastUsage, LastPayload, Thinking;
  }
}
