/** Showing an assistant message while it streams and then finishing it comes to the
    same as showing it once, except when its visible text has vanished by then. */
module StreamedProjection {
  import opened Text
  import opened Messages
  import opened TranscriptProjection
  import opened ProjectionInvariant

  /** Everything up to the next message is committed and nothing is streaming. */
  ghost predicate AtRest(st: State, messages: seq<Message>) {
    && st.messages == messages && st.committed == |messages|
    && st.streamingMessage.None? && st.streamingBlock.None?
    && (st.enrichable.Some? ==> st.enrichable.value < |messages|)
  }

  ghost predicate IsText(m: Message) {
    m.role == "assistant" && CallsOf(m) == []
  }

  lemma NoEnrichment(r: Rendering, st: State, messages: seq<Message>, next: Message)
    requires AtRest(st, messages)
    ensures Enrich(r, st, messages + [next]) == Ok(Applied(st, false)) && PrefixMatches(st, messages + [next])
  {
    assert (messages + [next])[..|messages|] == messages;
    if st.enrichable.Some? {
      assert (messages + [next])[st.enrichable.value] == messages[st.enrichable.value];
    }
  }

  /** Projecting the last message of a transcript. */
  lemma ProjectLast(r: Rendering, st: State, messages: seq<Message>, stage: Stage, n: nat, changed: bool)
    requires |messages| == n + 1
    ensures ProjectFrom(r, st, messages, stage, n, changed) ==
              (if StreamingTail(messages, stage, n) then
                 var a := UpsertStreaming(r, SettleEnrichable(st, n), n, messages[n].content);
                 Ok(Applied(a.state, changed || a.changed))
               else
                 match ProjectMessage(r, SettleEnrichable(st, n), n, messages[n])
                 case Err(e) => Err(e)
                 case Ok(a) => Ok(Applied(a.state.(committed := n + 1), changed || a.changed)))
  {
    hide UpsertStreaming, ProjectMessage;
    var m := ProjectMessage(r, SettleEnrichable(st, n), n, messages[n]);
    if m.Ok? {
      ProjectNone(r, m.value.state.(committed := n + 1), messages, stage, changed || m.value.changed);
    }
  }

  lemma ProjectNone(r: Rendering, st: State, messages: seq<Message>, stage: Stage, changed: bool)
    ensures ProjectFrom(r, st, messages, stage, |messages|, changed) == Ok(Applied(st, changed))
  {
  }

  /** One more message arrives, in the given stage. */
  lemma NextMessage(r: Rendering, st: State, messages: seq<Message>, next: Message, stage: Stage)
    requires AtRest(st, messages)
    ensures var at, n := SettleEnrichable(st, |messages|), |messages|;
            ApplyTranscript(r, st, messages + [next], stage) ==
              (if stage == Intermediate && IsText(next) then
                 Ok(Applied(UpsertStreaming(r, at, n, next.content).state.(messages := messages + [next]), true))
               else
                 match ProjectMessage(r, at, n, next)
                 case Err(e) => Err(e)
                 case Ok(a) => Ok(Applied(a.state.(committed := n + 1, messages := messages + [next]), true)))
  {
    hide UpsertStreaming, ProjectMessage, Enrich, PrefixMatches, ProjectFrom;
    NoEnrichment(r, st, messages, next);
    assert (messages + [next])[|messages|] == next;
    ProjectLast(r, st, messages + [next], stage, |messages|, true);
  }

  // ----- while the message streams -------------------------------------------------------

  /** The message streams as message `n` and nothing of it has been visible. */
  function Hidden(at: State, n: nat, messages: seq<Message>): State {
    at.(streamingMessage := Some(n), streamingBlock := None, messages := messages)
  }

  /** Something of it has been visible: it has a block, which now shows `shown`. */
  function Visible(at: State, n: nat, messages: seq<Message>, shown: string): State {
    var v := Push(at.(streamingMessage := Some(n)), TextOf(shown));
    v.(streamingBlock := Some(Last(v)), messages := messages)
  }

  /** The state while the message streams, last in the form `next`. */
  function Streaming(r: Rendering, at: State, messages: seq<Message>, next: Message, seen: bool): State {
    if seen then Visible(at, |messages|, messages + [next], r.clean(next.content))
        else Hidden(at, |messages|, messages + [next])
  }

  lemma UpsertFirst(r: Rendering, at: State, messages: seq<Message>, next: Message)
    requires at.streamingMessage.None? && at.streamingBlock.None?
    ensures UpsertStreaming(r, at, |messages|, next.content).state.(messages := messages + [next]) ==
            Streaming(r, at, messages, next, r.clean(next.content) != "")
  {
  }

  lemma UpsertAgain(r: Rendering, at: State, messages: seq<Message>, next: Message, later: Message, seen: bool)
    requires at.streamingBlock.None?
    ensures UpsertStreaming(r, Streaming(r, at, messages, next, seen), |messages|,
            later.content).state.(messages := messages + [later]) ==
            Streaming(r, at, messages, later, seen || r.clean(later.content) != "")
  {
    hide ShiftUnclaimed;
    if seen {
      var x, y := PushCapped(at.blocks, TextOf(r.clean(next.content))),
          PushCapped(at.blocks, TextOf(r.clean(later.content)));
      assert x[|x| - 1 := x[|x| - 1].(content := r.clean(later.content))] == y;
      assert r.clean(next.content) == r.clean(later.content) ==> x == y;
    }
  }

  /** While the message streams nothing is enriched and the committed messages match. */
  lemma StreamingMatches(r: Rendering, at: State, messages: seq<Message>, next: Message, seen: bool, later: Message)
    requires at.enrichable.None? && at.committed == |messages|
    ensures var v := Streaming(r, at, messages, next, seen);
            && Enrich(r, v, messages + [later]) == Ok(Applied(v, false)) && PrefixMatches(v, messages + [later])
            && SettleEnrichable(v, |messages|) == v && v.messages == messages + [next]
            && v.committed == |messages| && v.streamingMessage == Some(|messages|)
  {
    assert (messages + [next])[..|messages|] == messages == (messages + [later])[..|messages|];
  }

  /** A further intermediate form arrives. */
  lemma StreamOn(r: Rendering, at: State, messages: seq<Message>, next: Message, seen: bool, later: Message)
    requires at.enrichable.None? && at.committed == |messages| && at.streamingBlock.None? && IsText(later)
    ensures var a := ApplyTranscript(r, Streaming(r, at, messages, next, seen), messages + [later], Intermediate);
            a.Ok? && a.value.state == Streaming(r, at, messages, later, seen || r.clean(later.content) != "")
  {
    hide UpsertStreaming, Enrich, PrefixMatches, ProjectFrom, Streaming;
    var v := Streaming(r, at, messages, next, seen);
    StreamingMatches(r, at, messages, next, seen, later);
    assert (messages + [later])[|messages|] == later;
    ProjectLast(r, v, messages + [later], Intermediate, |messages|, messages + [next] != messages + [later]);
    UpsertAgain(r, at, messages, next, later, seen);
    SameWhileUpserted(r, v, |messages|, later.content);
  }

  lemma SameWhileUpserted(r: Rendering, st: State, index: nat, content: string)
    ensures UpsertStreaming(r, st, index, content).state.messages == st.messages
  {
  }

  /** The state after a message has streamed in the given forms, one checkpoint each. */
  function AfterForms(r: Rendering, st: State, messages: seq<Message>, forms: seq<Message>): Result<State>
    decreases |forms|
  {
    if forms == [] then Ok(st)
    else
      match ApplyTranscript(r, st, messages + [forms[0]], Intermediate)
      case Err(e) => Err(e)
      case Ok(a) => AfterForms(r, a.state, messages, forms[1..])
  }

  /** Something of some form is visible. */
  predicate SomeVisible(r: Rendering, forms: seq<Message>) {
    exists f | f in forms :: r.clean(f.content) != ""
  }

  lemma {:induction false} StreamedForms(r: Rendering, at: State, messages: seq<Message>, next: Message, seen: bool,
                                         forms: seq<Message>)
    requires at.enrichable.None? && at.committed == |messages| && at.streamingBlock.None? &&
             forall f | f in forms :: IsText(f)
    ensures var last := if forms == [] then next else forms[|forms| - 1];
            AfterForms(r, Streaming(r, at, messages, next, seen), messages, forms) ==
            Ok(Streaming(r, at, messages, last, seen || SomeVisible(r, forms)))
    decreases |forms|
  {
    hide ApplyTranscript, Streaming;
    if forms != [] {
      assert forms[0] in forms && IsText(forms[0]);
      StreamOn(r, at, messages, next, seen, forms[0]);
      StreamedForms(r, at, messages, forms[0], seen || r.clean(forms[0].content) != "", forms[1..]);
      VisibleFirst(r, forms);
    }
  }

  lemma VisibleFirst(r: Rendering, forms: seq<Message>)
    requires forms != []
    ensures SomeVisible(r, forms) <==> r.clean(forms[0].content) != "" || SomeVisible(r, forms[1..])
  {
    if f :| f in forms && r.clean(f.content) != "" {
      assert f == forms[0] || f in forms[1..];
    }
  }

  // ----- finishing it ----------------------------------------------------------------------

  /** The final form arrives while the message is streaming. */
  lemma FinishStreaming(r: Rendering, at: State, messages: seq<Message>, next: Message, seen: bool, final: Message)
    requires at.enrichable.None? && at.committed == |messages| && final.role == "assistant"
    ensures var v, n := Streaming(r, at, messages, next, seen), |messages|;
            ApplyTranscript(r, v, messages + [final], Final) ==
              match ProjectTerminal(r, v, n, final)
              case Err(e) => Err(e)
              case Ok(a) => Ok(Applied(a.state.(committed := n + 1, messages := messages + [final]), true))
  {
    hide UpsertStreaming, ProjectTerminal, Enrich, PrefixMatches, ProjectFrom, Streaming;
    var v := Streaming(r, at, messages, next, seen);
    StreamingMatches(r, at, messages, next, seen, final);
    assert (messages + [final])[|messages|] == final;
    ProjectLast(r, v, messages + [final], Final, |messages|, messages + [next] != messages + [final]);
    TerminalOfCurrentChanges(r, v, |messages|, final);
  }

  lemma TerminalOfCurrentChanges(r: Rendering, st: State, index: nat, m: Message)
    requires st.streamingMessage == Some(index)
    ensures ProjectTerminal(r, st, index, m).Ok? ==> ProjectTerminal(r, st, index, m).value.changed
  {
    hide PushCalls, ShowTerminal, RepeatsPending;
  }

  /** What streaming leaves to be finished. */
  lemma ShownAlike(r: Rendering, at: State, messages: seq<Message>, next: Message, seen: bool, content: string)
    requires at.streamingMessage.None? && at.streamingBlock.None?
    ensures var v, n := Streaming(r, at, messages, next, seen), |messages|;
            var a := ShowTerminal(r, v, n, content).(streamingMessage := None, streamingBlock := None,
                messages := messages, enrichable := None);
            var b := ShowTerminal(r, at, n, content).(streamingMessage := None, streamingBlock := None,
                messages := messages, enrichable := None);
            if !seen || r.clean(content) != "" then a == b
            else a.evicted + |a.blocks| == b.evicted + |b.blocks| + 1
  {
    hide ShiftUnclaimed;
    if seen {
      var x, y := PushCapped(at.blocks, TextOf(r.clean(next.content))), PushCapped(at.blocks, TextOf(r.clean(content)));
      var last := |x| - 1;
      assert x[last := x[last].(content := r.clean(content))] == y;
      assert |x| + Dropped(at.blocks) == |at.blocks| + 1;
      assert x[last].content == r.clean(content) ==> x == y;
    }
  }

  /** Pushing calls adds a block each and does not look at the messages. */
  lemma {:induction false} PushedCalls(r: Rendering, st: State, calls: seq<ToolCall>, messages: seq<Message>)
    ensures var v := PushCalls(r, st, calls); v.evicted + |v.blocks| == st.evicted + |st.blocks| + |calls|
    ensures PushCalls(r, st.(messages := messages), calls) == PushCalls(r, st, calls).(messages := messages)
    decreases |calls|
  {
    hide ShiftUnclaimed;
    if calls != [] {
      var c := calls[0];
      var v := Push(st, Block(CallBlock, c.arguments, r.title(c), true));
      PushedCalls(r, v.(pending := v.pending + [PendingCall(c.id, c.name, r.title(c))]), calls[1..], messages);
    }
  }

  /** Where the final form of a message ends, from the text that has been shown for it. */
  function Finished(r: Rendering, shown: State, index: nat, m: Message): Result<State> {
    var v := shown.(streamingMessage := None, streamingBlock := None);
    if CallsOf(m) == [] then Ok(v.(enrichable := Some(index)))
    else ProjectCalls(r, v.(enrichable := None), CallsOf(m))
  }

  lemma TerminalIs(r: Rendering, st: State, index: nat, m: Message)
    ensures var p, f := ProjectTerminal(r, st, index, m), Finished(r, ShowTerminal(r, st, index, m.content), index, m);
            && p.Ok? == f.Ok? && (p.Ok? ==> p.value.state == f.value) && (p.Err? ==> p.error == f.error)
  {
    hide ProjectCalls, ShowTerminal;
  }

  /** Two states that differ in their messages, and perhaps by a block too many, finished. */
  lemma FinishedIff(r: Rendering, a: State, b: State, index: nat, m: Message, same: bool)
    requires a.pending == b.pending
    requires var x, y := a.(streamingMessage := None, streamingBlock := None, messages := b.messages,
             enrichable := None),
                         b.(streamingMessage := None, streamingBlock := None, enrichable := None);
             if same then x == y else a.evicted + |a.blocks| == b.evicted + |b.blocks| + 1
    ensures var x, y := Finished(r, a, index, m), Finished(r, b, index, m);
            && (x.Ok? <==> y.Ok?) && (x.Err? <==> CallsOf(m) != [] && RepeatsPending(a.pending, CallsOf(m)))
            && (x.Err? ==> y.Err? && x.error == y.error)
            && (x.Ok? ==> if same then x.value.(messages := y.value.messages) == y.value
                          else x.value.evicted + |x.value.blocks| == y.value.evicted + |y.value.blocks| + 1)
  {
    hide PushCalls, RepeatsPending;
    var x, y := a.(streamingMessage := None, streamingBlock := None, enrichable := None),
                b.(streamingMessage := None, streamingBlock := None, enrichable := None);
    PushedCalls(r, x, CallsOf(m), b.messages);
    PushedCalls(r, y, CallsOf(m), b.messages);
    assert y.(messages := b.messages) == y;
  }

  /** The final form of the message cannot be taken over: its calls are already pending, or repeat. */
  predicate Refused(st: State, final: Message) {
    CallsOf(final) != [] && RepeatsPending(st.pending, CallsOf(final))
  }

  /** Finishing a message that is streaming, or not streamed at all, compared. */
  lemma FinishedAlikeIff(r: Rendering, st: State, messages: seq<Message>, next: Message, seen: bool, final: Message)
    requires AtRest(st, messages) && final.role == "assistant"
    ensures var v := Streaming(r, SettleEnrichable(st, |messages|), messages, next, seen);
            (ApplyTranscript(r, v, messages + [final], Final) == ApplyTranscript(r, st, messages + [final], Final))
            <==> Refused(st, final) || !seen || r.clean(final.content) != ""
  {
    hide ApplyTranscript, UpsertStreaming, ShowTerminal, Streaming, ProjectTerminal, Finished, RepeatsPending;
    var at, n := SettleEnrichable(st, |messages|), |messages|;
    var v := Streaming(r, at, messages, next, seen);
    NextMessage(r, st, messages, final, Final);
    FinishStreaming(r, at, messages, next, seen, final);
    ShownAlike(r, at, messages, next, seen, final.content);
    StreamedSamePending(r, at, messages, next, seen);
    ShownSameMessages(r, v, n, final.content);
    ShownSameMessages(r, at, n, final.content);
    TerminalIs(r, v, n, final);
    TerminalIs(r, at, n, final);
    FinishedIff(r, ShowTerminal(r, v, n, final.content), ShowTerminal(r, at, n, final.content), n, final,
                !seen || r.clean(final.content) != "");
  }

  lemma StreamedSamePending(r: Rendering, at: State, messages: seq<Message>, next: Message, seen: bool)
    ensures Streaming(r, at, messages, next, seen).pending == at.pending
  {
  }

  /** Whatever forms a message streams in, finishing it gives what one final checkpoint
      gives, exactly when no form showed anything or the final form does, unless the final
      form is refused either way: what was shown once has a block that cannot vanish again. */
  lemma StreamedIsBatchIff(r: Rendering, st: State, messages: seq<Message>, forms: seq<Message>, final: Message)
    requires AtRest(st, messages) && (forall f | f in forms :: IsText(f)) && final.role == "assistant"
    ensures var streamed, last := AfterForms(r, st, messages, forms), messages + [final];
            && streamed.Ok?
            && (ApplyTranscript(r, streamed.value, last, Final) == ApplyTranscript(r, st, last, Final) <==>
                Refused(st, final) || (forall f | f in forms :: r.clean(f.content) == "") ||
                r.clean(final.content) != "")
  {
    hide ApplyTranscript, UpsertStreaming, Streaming, Refused;
    if forms != [] {
      var at, next := SettleEnrichable(st, |messages|), forms[0];
      assert next in forms && IsText(next);
      NextMessage(r, st, messages, next, Intermediate);
      UpsertFirst(r, at, messages, next);
      StreamedForms(r, at, messages, next, r.clean(next.content) != "", forms[1..]);
      VisibleFirst(r, forms);
      var last := if |forms| == 1 then next else forms[1..][|forms| - 2];
      FinishedAlikeIff(r, st, messages, last, SomeVisible(r, forms), final);
    }
  }
}
