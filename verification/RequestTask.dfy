/** The task that carries one provider request: it turns provider events into events for
    the session, and settles the request once, through a checkpoint that may fail. */
module RequestTask {
  import opened Text
  import opened Amounts
  import opened Messages

  datatype ProviderEvent =
    | ReasoningDelta(text: string, segment: Option<nat>)
    | TextDelta(text: string)
    | ToolCallStart(name: string)
    | ToolCallDelta
    | ToolCallsEvent(calls: seq<ToolCall>, payload: Option<string>)
    | UsageEvent(reported: Usage)
    | DoneEvent(usage: Option<Usage>, payload: Option<string>)
    | ErrorEvent(error: string)

  /** What waiting for the provider yields. */
  datatype Poll = ReceiverClosed | TokenCancelled | StreamEnded | Received(event: ProviderEvent)

  datatype Start = StartClosed | StartCancelled | StartFailed(error: string) | Started

  /** What a checkpoint records: the accounting, and at the end the assistant message. */
  datatype Checkpoint = Checkpoint(usage: Option<Usage>, completed: bool, assistant: Option<Message>)

  /** Where a chunk comes from: the provider's reasoning or text, or the task itself. */
  datatype ChunkKind = Synthetic | Reasoned | Spoken

  datatype Sent =
    | Chunk(text: string, kind: ChunkKind)
    | PreparingToolCall(name: string)
    | UsageUpdate(reported: Usage)
    | Checkpointed(checkpoint: Checkpoint, saved: bool)
    | RequestFinished(checkpoint: Checkpoint)
    | RequestSettlementFailed
    | ToolCallsReady(calls: seq<ToolCall>, payload: Option<string>)
    | Done(usage: Option<Usage>)
    | Error(error: string)
    | RequestCancelled

  datatype Task = Task(
    inThought: bool, thinkOpened: bool, lastSegment: Option<nat>, usage: Option<Usage>,
    pendingCalls: seq<ToolCall>, pendingPayload: Option<string>, assembled: string,
    trace: seq<Sent>, ended: bool)

  const NEW_TASK := Task(true, false, None, None, [], None, "", [], false)

  /** Whether a checkpoint can be saved is up to the session; identifiers may be made up for calls without one. */
  datatype Session = Session(saves: Checkpoint -> bool, effectiveId: ToolCall -> string)

  const OPEN_THINK := "<think>\n"
  const CLOSE_THINK := "</think>\n"

  function Say(t: Task, text: string, kind: ChunkKind): Task {
    t.(assembled := t.assembled + text, trace := t.trace + [Chunk(text, kind)])
  }

  /** What settling sends: after a saved checkpoint the request is finished, and `further` follows. */
  function Settlement(c: Checkpoint, saved: bool, further: seq<Sent>): seq<Sent> {
    [Checkpointed(c, saved)] + (if saved then [RequestFinished(c)] + further else [RequestSettlementFailed])
  }

  function Settle(s: Session, t: Task, c: Checkpoint, further: seq<Sent>): Task {
    t.(trace := t.trace + Settlement(c, s.saves(c), further), ended := true)
  }

  function Abandoned(t: Task): Checkpoint {
    Checkpoint(t.usage, false, None)
  }

  function Begin(s: Session, start: Start): Task {
    match start
    case StartClosed => Settle(s, NEW_TASK, Abandoned(NEW_TASK), [])
    case StartCancelled => Settle(s, NEW_TASK, Abandoned(NEW_TASK), [RequestCancelled])
    case StartFailed(error) => Settle(s, NEW_TASK, Abandoned(NEW_TASK), [Error(error)])
    case Started => NEW_TASK
  }

  /** A blank line between reasoning segments that are told apart. */
  function NeedsSeparator(last: Option<nat>, segment: Option<nat>): bool {
    segment.Some? && last.Some? && last != segment
  }

  function OnReasoning(t: Task, text: string, segment: Option<nat>): Task {
    var a := if t.thinkOpened then t else Say(t, OPEN_THINK, Synthetic).(thinkOpened := true);
    var b := if NeedsSeparator(a.lastSegment, segment) then Say(a, "\n\n", Synthetic) else a;
    Say(b.(lastSegment := if segment.Some? then segment else b.lastSegment), text, Reasoned)
  }

  function CloseThought(t: Task): Task {
    if t.inThought && t.thinkOpened then Say(t, CLOSE_THINK, Synthetic) else t
  }

  function Identified(s: Session, calls: seq<ToolCall>): seq<ToolCall> {
    seq(|calls|, i requires 0 <= i < |calls| => calls[i].(id := s.effectiveId(calls[i])))
  }

  function AssistantMessage(t: Task, payload: Option<string>): Message {
    Message("assistant", t.assembled, if t.pendingCalls == [] then None else Some(t.pendingCalls), payload, false)
  }

  function OnDone(s: Session, t: Task, usage: Option<Usage>, payload: Option<string>): Task {
    var a := CloseThought(t);
    var used := if usage.Some? then usage else a.usage;
    var kept := if a.pendingPayload.Some? then a.pendingPayload else payload;
    Settle(s, a, Checkpoint(used, true, Some(AssistantMessage(a, kept))),
           (if a.pendingCalls == [] then [] else [ToolCallsReady(a.pendingCalls, kept)]) + [Done(used)])
  }

  function OnEvent(s: Session, t: Task, e: ProviderEvent): Task {
    match e
    case ReasoningDelta(text, segment) => OnReasoning(t, text, segment)
    case TextDelta(text) => Say(CloseThought(t).(inThought := false), text, Spoken)
    case ToolCallStart(name) => t.(trace := t.trace + [PreparingToolCall(name)])
    case ToolCallDelta => t
    case ToolCallsEvent(calls, payload) =>
      var a := if t.inThought && t.thinkOpened then CloseThought(t).(inThought := false) else t;
      a.(pendingCalls := a.pendingCalls + Identified(s, calls),
         pendingPayload := if payload.Some? then payload else a.pendingPayload)
    case UsageEvent(usage) => t.(usage := Some(usage), trace := t.trace + [UsageUpdate(usage)])
    case DoneEvent(usage, payload) => OnDone(s, t, usage, payload)
    case ErrorEvent(error) => Settle(s, t, Abandoned(t), [Error(error)])
  }

  const STREAM_ENDED :=
    "Provider stream ended without a terminal event: the model server closed the reply before finishing it"

  function Step(s: Session, t: Task, p: Poll): Task {
    if t.ended then t
    else
      match p
      case ReceiverClosed => Settle(s, t, Abandoned(t), [])
      case TokenCancelled => Settle(s, t, Abandoned(t), [RequestCancelled])
      case StreamEnded => Settle(s, t, Abandoned(t), [Error(STREAM_ENDED)])
      case Received(e) => OnEvent(s, t, e)
  }

  function Run(s: Session, t: Task, polls: seq<Poll>): Task
    decreases |polls|
  {
    if polls == [] then t else Run(s, Step(s, t, polls[0]), polls[1..])
  }

  /** A whole request: how it started, and everything polled after that. */
  function Request(s: Session, start: Start, polls: seq<Poll>): Task {
    Run(s, Begin(s, start), polls)
  }

  // ----- settled once -------------------------------------------------------------------

  predicate Settling(e: Sent) {
    e.RequestFinished? || e.RequestSettlementFailed?
  }

  /** Events that may only follow a settled request. */
  predicate Closing(e: Sent) {
    e.ToolCallsReady? || e.Done? || e.Error? || e.RequestCancelled?
  }

  function Count(trace: seq<Sent>): nat {
    if trace == [] then 0 else Count(trace[..|trace| - 1]) + if Settling(trace[|trace| - 1]) then 1 else 0
  }

  lemma {:induction false} CountConcat(a: seq<Sent>, b: seq<Sent>)
    ensures Count(a + b) == Count(a) + Count(b)
    decreases |b|
  {
    if b == [] {
      assert a + b == a;
    } else {
      assert (a + b)[..|a + b| - 1] == a + b[..|b| - 1];
      CountConcat(a, b[..|b| - 1]);
    }
  }

  /** Nothing of its kind precedes the settlement, a saved checkpoint comes right before a
      finished request and a failed one before a failed settlement, and the closing
      events follow only a finished request. */
  ghost predicate InOrder(trace: seq<Sent>) {
    && (forall i | 0 <= i < |trace| && trace[i].RequestFinished? ::
          i > 0 && trace[i - 1] == Checkpointed(trace[i].checkpoint, true))
    && (forall i | 0 <= i < |trace| && trace[i].RequestSettlementFailed? ::
         i > 0 && trace[i - 1].Checkpointed? &&
         !trace[i - 1].saved)
    && (forall i | 0 <= i < |trace| && Closing(trace[i]) :: exists j :: 0 <= j < i && trace[j].RequestFinished?)
  }

  ghost predicate NothingSettled(trace: seq<Sent>) {
    forall i | 0 <= i < |trace| :: !Settling(trace[i]) && !Closing(trace[i]) && !trace[i].Checkpointed?
  }

  /** The text of all chunks sent. */
  function ChunkText(trace: seq<Sent>): string {
    if trace == [] then ""
    else ChunkText(trace[..|trace| - 1]) + if trace[|trace| - 1].Chunk? then trace[|trace| - 1].text else ""
  }

  lemma {:induction false} ChunkTextConcat(a: seq<Sent>, b: seq<Sent>)
    ensures ChunkText(a + b) == ChunkText(a) + ChunkText(b)
    decreases |b|
  {
    if b == [] {
      assert a + b == a;
    } else {
      assert (a + b)[..|a + b| - 1] == a + b[..|b| - 1];
      ChunkTextConcat(a, b[..|b| - 1]);
      ConcatAssociates(ChunkText(a), ChunkText(b[..|b| - 1]), if b[|b| - 1].Chunk? then b[|b| - 1].text else "");
    }
  }

  /** What every running task keeps. */
  ghost predicate Going(t: Task) {
    !t.ended && NothingSettled(t.trace) && t.assembled == ChunkText(t.trace)
  }

  /** What a task that is over has done. */
  ghost predicate Over(t: Task) {
    && t.ended && InOrder(t.trace) && Count(t.trace) == 1
    && t.assembled == ChunkText(t.trace)
    && forall i | 0 <= i < |t.trace| && t.trace[i].Checkpointed? && t.trace[i].checkpoint.assistant.Some? ::
         t.trace[i].checkpoint.assistant.value.content == t.assembled
  }

  lemma {:induction false} NothingCounted(trace: seq<Sent>)
    requires NothingSettled(trace)
    ensures Count(trace) == 0
  {
    if trace != [] {
      NothingCounted(trace[..|trace| - 1]);
    }
  }

  lemma StillNothing(trace: seq<Sent>, e: Sent)
    requires NothingSettled(trace) && !Settling(e) && !Closing(e) && !e.Checkpointed?
    ensures NothingSettled(trace + [e])
  {
  }

  lemma SayGoes(t: Task, text: string, kind: ChunkKind)
    requires Going(t)
    ensures Going(Say(t, text, kind))
  {
    hide NothingSettled;
    StillNothing(t.trace, Chunk(text, kind));
    ChunkTextConcat(t.trace, [Chunk(text, kind)]);
    assert ChunkText([Chunk(text, kind)]) == "" + text == text;
  }

  lemma SilentGoes(t: Task, e: Sent)
    requires Going(t) && (e.PreparingToolCall? || e.UsageUpdate?)
    ensures Going(t.(trace := t.trace + [e]))
  {
    ChunkTextConcat(t.trace, [e]);
    assert ChunkText([e]) == "";
  }

  lemma {:induction false} NoChunks(trace: seq<Sent>)
    requires forall i | 0 <= i < |trace| :: !trace[i].Chunk?
    ensures ChunkText(trace) == ""
  {
    if trace != [] {
      NoChunks(trace[..|trace| - 1]);
    }
  }

  lemma {:induction false} NoSettling(trace: seq<Sent>)
    requires forall i | 0 <= i < |trace| :: !Settling(trace[i])
    ensures Count(trace) == 0
  {
    if trace != [] {
      NoSettling(trace[..|trace| - 1]);
    }
  }

  lemma SettlementShape(c: Checkpoint, saved: bool, further: seq<Sent>)
    requires forall i | 0 <= i < |further| :: Closing(further[i])
    ensures var tail := Settlement(c, saved, further);
            && |tail| >= 2 && tail[0] == Checkpointed(c, saved)
            && tail[1] == (if saved then RequestFinished(c) else RequestSettlementFailed)
            && tail[2..] == (if saved then further else [])
            && (forall i | 2 <= i < |tail| :: saved && Closing(tail[i]))
  {
  }

  lemma SettledInOrder(trace: seq<Sent>, tail: seq<Sent>, c: Checkpoint, saved: bool)
    requires NothingSettled(trace) && |tail| >= 2 && tail[0] == Checkpointed(c, saved)
    requires tail[1] == (if saved then RequestFinished(c) else RequestSettlementFailed)
    requires forall i | 2 <= i < |tail| :: saved && Closing(tail[i])
    ensures InOrder(trace + tail)
    ensures forall i | 0 <= i < |trace + tail| && (trace + tail)[i].Checkpointed? :: (trace + tail)[i].checkpoint == c
  {
    var v, n := trace + tail, |trace|;
    assert forall i | 0 <= i < n :: v[i] == trace[i];
    assert forall i | n <= i < |v| :: v[i] == tail[i - n];
    assert v[n] == tail[0] && v[n + 1] == tail[1];
  }

  lemma TailCount(tail: seq<Sent>, further: seq<Sent>)
    requires |tail| >= 2 && tail[0].Checkpointed? && Settling(tail[1]) && tail[2..] == further
    requires forall i | 0 <= i < |further| :: Closing(further[i])
    ensures Count(tail) == 1
  {
    assert tail == [tail[0], tail[1]] + further;
    CountConcat([tail[0], tail[1]], further);
    assert [tail[0], tail[1]][..1] == [tail[0]] && [tail[0]][..0] == [];
    NoSettling(further);
  }

  lemma SettleIsOver(s: Session, t: Task, c: Checkpoint, further: seq<Sent>)
    requires Going(t) && (c.assistant.Some? ==> c.assistant.value.content == t.assembled)
    requires forall i | 0 <= i < |further| :: Closing(further[i])
    ensures Over(Settle(s, t, c, further))
  {
    hide InOrder, NothingSettled, Settlement, Count, ChunkText;
    var saved := s.saves(c);
    var tail := Settlement(c, saved, further);
    SettlementShape(c, saved, further);
    SettledInOrder(t.trace, tail, c, saved);
    NoChunks(tail);
    ChunkTextConcat(t.trace, tail);
    NothingCounted(t.trace);
    CountConcat(t.trace, tail);
    TailCount(tail, if saved then further else []);
  }

  lemma CloseGoes(t: Task)
    requires Going(t)
    ensures Going(CloseThought(t))
  {
    hide Going;
    SayGoes(t, CLOSE_THINK, Synthetic);
  }

  lemma ReasoningGoes(t: Task, text: string, segment: Option<nat>)
    requires Going(t)
    ensures Going(OnReasoning(t, text, segment))
  {
    hide ChunkText, NothingSettled;
    SayGoes(t, OPEN_THINK, Synthetic);
    var a := if t.thinkOpened then t else Say(t, OPEN_THINK, Synthetic).(thinkOpened := true);
    SayGoes(a, "\n\n", Synthetic);
    var b := if NeedsSeparator(a.lastSegment, segment) then Say(a, "\n\n", Synthetic) else a;
    SayGoes(b.(lastSegment := if segment.Some? then segment else b.lastSegment), text, Reasoned);
  }

  lemma DoneIsOver(s: Session, t: Task, usage: Option<Usage>, payload: Option<string>)
    requires Going(t)
    ensures Over(OnDone(s, t, usage, payload))
  {
    hide Going, Over, Settle, CloseThought;
    CloseGoes(t);
    var a := CloseThought(t);
    var used := if usage.Some? then usage else a.usage;
    var kept := if a.pendingPayload.Some? then a.pendingPayload else payload;
    SettleIsOver(s, a, Checkpoint(used, true, Some(AssistantMessage(a, kept))),
                 (if a.pendingCalls == [] then [] else [ToolCallsReady(a.pendingCalls, kept)]) + [Done(used)]);
  }

  lemma EventKeeps(s: Session, t: Task, e: ProviderEvent)
    requires Going(t)
    ensures Going(OnEvent(s, t, e)) || Over(OnEvent(s, t, e))
  {
    hide ChunkText, NothingSettled, Over, Settle, OnReasoning, OnDone, CloseThought, Identified;
    match e {
      case ReasoningDelta(text, segment) => ReasoningGoes(t, text, segment);
      case TextDelta(text) =>
        CloseGoes(t);
        SayGoes(CloseThought(t).(inThought := false), text, Spoken);
      case ToolCallStart(name) => SilentGoes(t, PreparingToolCall(name));
      case ToolCallDelta =>
      case ToolCallsEvent(calls, payload) => CloseGoes(t);
      case UsageEvent(usage) => SilentGoes(t, UsageUpdate(usage));
      case DoneEvent(usage, payload) => DoneIsOver(s, t, usage, payload);
      case ErrorEvent(error) => SettleIsOver(s, t, Abandoned(t), [Error(error)]);
    }
  }

  lemma StepKeeps(s: Session, t: Task, p: Poll)
    requires Going(t) || Over(t)
    ensures Going(Step(s, t, p)) || Over(Step(s, t, p))
  {
    hide ChunkText, NothingSettled, Settle, OnEvent, InOrder, Count;
    if Going(t) {
      match p {
        case ReceiverClosed => SettleIsOver(s, t, Abandoned(t), []);
        case TokenCancelled => SettleIsOver(s, t, Abandoned(t), [RequestCancelled]);
        case StreamEnded => SettleIsOver(s, t, Abandoned(t), [Error(STREAM_ENDED)]);
        case Received(e) => EventKeeps(s, t, e);
      }
    }
  }

  lemma NewGoes()
    ensures Going(NEW_TASK)
  {
  }

  lemma BeginKeeps(s: Session, start: Start)
    ensures Going(Begin(s, start)) || Over(Begin(s, start))
  {
    hide Settle, Over, Going;
    NewGoes();
    assert NEW_TASK.assembled == "";
    SettleIsOver(s, NEW_TASK, Abandoned(NEW_TASK), []);
    SettleIsOver(s, NEW_TASK, Abandoned(NEW_TASK), [RequestCancelled]);
    if start.StartFailed? {
      SettleIsOver(s, NEW_TASK, Abandoned(NEW_TASK), [Error(start.error)]);
    }
  }

  lemma {:induction false} RunKeeps(s: Session, t: Task, polls: seq<Poll>)
    requires Going(t) || Over(t)
    ensures Going(Run(s, t, polls)) || Over(Run(s, t, polls))
    decreases |polls|
  {
    hide Going, Over, Step;
    if polls != [] {
      StepKeeps(s, t, polls[0]);
      RunKeeps(s, Step(s, t, polls[0]), polls[1..]);
    }
  }

  predicate Terminal(p: Poll) {
    p.ReceiverClosed? || p.TokenCancelled? || p.StreamEnded? ||
        (p.Received? && (p.event.DoneEvent? || p.event.ErrorEvent?))
  }

  lemma {:induction false} EndsIff(s: Session, t: Task, polls: seq<Poll>)
    ensures Run(s, t, polls).ended <==> t.ended || exists p :: p in polls && Terminal(p)
    decreases |polls|
  {
    hide CloseThought, OnReasoning, Identified;
    if polls != [] {
      EndsIff(s, Step(s, t, polls[0]), polls[1..]);
      assert polls == [polls[0]] + polls[1..];
      StepEnds(s, t, polls[0]);
    }
  }

  lemma StepEnds(s: Session, t: Task, p: Poll)
    ensures Step(s, t, p).ended <==> t.ended || Terminal(p)
  {
  }

  /** Over every run the request is settled exactly once if it ends and not at all before;
      the calls, the end, an error or a cancellation are announced only after a saved
      checkpoint; and the checkpointed text is that of all the chunks sent. */
  lemma RequestSettlesOnce(s: Session, start: Start, polls: seq<Poll>)
    ensures var t := Request(s, start, polls);
            && Count(t.trace) == (if t.ended then 1 else 0)
            && (t.ended <==> !start.Started? || exists p :: p in polls && Terminal(p))
            && InOrder(t.trace)
            && t.assembled == ChunkText(t.trace)
            && forall i | 0 <= i < |t.trace| && t.trace[i].Checkpointed? && t.trace[i].checkpoint.assistant.Some? ::
                 t.trace[i].checkpoint.assistant.value.content == ChunkText(t.trace)
  {
    hide Run, Step, ChunkText, Count;
    BeginKeeps(s, start);
    RunKeeps(s, Begin(s, start), polls);
    EndsIff(s, Begin(s, start), polls);
    var t := Request(s, start, polls);
    if Going(t) {
      NothingCounted(t.trace);
    }
  }

  // ----- thoughts ----------------------------------------------------------------------

  datatype Speech = Silent | ThoughtFirst | TextFirst

  /** Whether reasoning or text came first. */
  function FirstSpeech(polls: seq<Poll>): Speech {
    if polls == [] then Silent
    else if polls[0].Received? && polls[0].event.ReasoningDelta? then ThoughtFirst
    else if polls[0].Received? && polls[0].event.TextDelta? then TextFirst
    else FirstSpeech(polls[1..])
  }

  predicate IsReasoning(p: Poll) {
    p.Received? && p.event.ReasoningDelta?
  }

  ghost predicate Reasons(polls: seq<Poll>) {
    exists p :: p in polls && IsReasoning(p)
  }

  ghost predicate Uninterrupted(polls: seq<Poll>) {
    forall p | p in polls :: !Terminal(p)
  }

  /** How often the task itself sent `tag`. */
  function Tags(trace: seq<Sent>, tag: string): nat {
    if trace == [] then 0 else Tags(trace[..|trace| - 1], tag) + if trace[|trace| - 1] == Chunk(tag, Synthetic) then 1
        else 0
  }

  lemma {:induction false} TagsConcat(a: seq<Sent>, b: seq<Sent>, tag: string)
    ensures Tags(a + b, tag) == Tags(a, tag) + Tags(b, tag)
    decreases |b|
  {
    if b == [] {
      assert a + b == a;
    } else {
      assert (a + b)[..|a + b| - 1] == a + b[..|b| - 1];
      TagsConcat(a, b[..|b| - 1], tag);
    }
  }

  lemma {:induction false} NoTags(trace: seq<Sent>, tag: string)
    requires forall i | 0 <= i < |trace| :: trace[i] != Chunk(tag, Synthetic)
    ensures Tags(trace, tag) == 0
  {
    if trace != [] {
      NoTags(trace[..|trace| - 1], tag);
    }
  }

  lemma TagsSnoc(trace: seq<Sent>, e: Sent, tag: string)
    ensures Tags(trace + [e], tag) == Tags(trace, tag) + if e == Chunk(tag, Synthetic) then 1 else 0
  {
    assert (trace + [e])[..|trace|] == trace;
  }

  /** The task has opened and closed a thought `open` and `close` times. */
  ghost predicate Tagged(t: Task, opens: nat, closes: nat) {
    !t.ended && Tags(t.trace, OPEN_THINK) == opens && Tags(t.trace, CLOSE_THINK) == closes
  }

  lemma TagsDiffer()
    ensures OPEN_THINK != CLOSE_THINK && OPEN_THINK != "\n\n" && CLOSE_THINK != "\n\n"
  {
    assert OPEN_THINK[1] == 't' && CLOSE_THINK[1] == '/';
  }

  lemma SayTags(t: Task, text: string, kind: ChunkKind, opens: nat, closes: nat)
    requires Tagged(t, opens, closes)
    ensures Tagged(Say(t, text, kind),
                   opens + (if kind == Synthetic && text == OPEN_THINK then 1 else 0),
                   closes + (if kind == Synthetic && text == CLOSE_THINK then 1 else 0))
  {
    TagsSnoc(t.trace, Chunk(text, kind), OPEN_THINK);
    TagsSnoc(t.trace, Chunk(text, kind), CLOSE_THINK);
  }

  lemma SilentTags(t: Task, e: Sent, opens: nat, closes: nat)
    requires Tagged(t, opens, closes) && !e.Chunk?
    ensures Tagged(t.(trace := t.trace + [e]), opens, closes)
  {
    TagsSnoc(t.trace, e, OPEN_THINK);
    TagsSnoc(t.trace, e, CLOSE_THINK);
  }

  lemma CloseTags(t: Task, opens: nat, closes: nat)
    requires Tagged(t, opens, closes)
    ensures Tagged(CloseThought(t), opens, closes + if t.inThought && t.thinkOpened then 1 else 0)
    ensures CloseThought(t).inThought == t.inThought && CloseThought(t).thinkOpened == t.thinkOpened
  {
    hide Tagged;
    TagsDiffer();
    SayTags(t, CLOSE_THINK, Synthetic, opens, closes);
  }

  lemma ReasoningTags(t: Task, text: string, segment: Option<nat>, opens: nat, closes: nat)
    requires Tagged(t, opens, closes)
    ensures Tagged(OnReasoning(t, text, segment), opens + (if t.thinkOpened then 0 else 1), closes)
    ensures OnReasoning(t, text, segment).thinkOpened && OnReasoning(t, text, segment).inThought == t.inThought
  {
    TagsDiffer();
    SayTags(t, OPEN_THINK, Synthetic, opens, closes);
    var a := if t.thinkOpened then t else Say(t, OPEN_THINK, Synthetic).(thinkOpened := true);
    var n := opens + if t.thinkOpened then 0 else 1;
    SayTags(a, "\n\n", Synthetic, n, closes);
    var b := if NeedsSeparator(a.lastSegment, segment) then Say(a, "\n\n", Synthetic) else a;
    SayTags(b.(lastSegment := if segment.Some? then segment else b.lastSegment), text, Reasoned, n, closes);
  }

  /** A thought is open exactly when there has been reasoning, and it is closed as soon as
      something else follows, provided the reasoning came before any text. */
  ghost predicate Shape(t: Task, first: Speech, reasoned: bool) {
    && t.thinkOpened == reasoned
    && (first == Silent ==> t.inThought && !reasoned && Tagged(t, 0, 0))
    && (first == ThoughtFirst ==> reasoned && Tagged(t, 1, if t.inThought then 0 else 1))
    && (first == TextFirst ==> !t.inThought && Tagged(t, if reasoned then 1 else 0, 0))
  }

  function Later(first: Speech, p: Poll): Speech {
    if first != Silent then first else FirstSpeech([p])
  }

  lemma ShapeStep(s: Session, t: Task, p: Poll, first: Speech, reasoned: bool)
    requires Shape(t, first, reasoned) && !Terminal(p)
    ensures Shape(Step(s, t, p), Later(first, p), reasoned || IsReasoning(p))
  {
    hide Tags, OnReasoning, CloseThought, Identified;
    var opens, closes := Tags(t.trace, OPEN_THINK), Tags(t.trace, CLOSE_THINK);
    assert [p][1..] == [] && FirstSpeech([]) == Silent;
    match p.event {
      case ReasoningDelta(text, segment) => ReasoningTags(t, text, segment, opens, closes);
      case TextDelta(text) =>
        CloseTags(t, opens, closes);
        var a := CloseThought(t).(inThought := false);
        SayTags(a, text, Spoken, Tags(a.trace, OPEN_THINK), Tags(a.trace, CLOSE_THINK));
      case ToolCallStart(name) => SilentTags(t, PreparingToolCall(name), opens, closes);
      case ToolCallDelta =>
      case ToolCallsEvent(calls, payload) => CloseTags(t, opens, closes);
      case UsageEvent(usage) => SilentTags(t, UsageUpdate(usage), opens, closes);
    }
  }

  lemma {:induction false} ShapeRun(s: Session, t: Task, polls: seq<Poll>, first: Speech, reasoned: bool)
    requires Shape(t, first, reasoned) && Uninterrupted(polls)
    ensures Shape(Run(s, t, polls), if first != Silent then first else FirstSpeech(polls), reasoned || Reasons(polls))
    decreases |polls|
  {
    hide Shape, Step;
    if polls != [] {
      assert polls[0] in polls && [polls[0]][1..] == [] && FirstSpeech([]) == Silent;
      ShapeStep(s, t, polls[0], first, reasoned);
      ShapeRun(s, Step(s, t, polls[0]), polls[1..], Later(first, polls[0]), reasoned || IsReasoning(polls[0]));
      assert polls == [polls[0]] + polls[1..];
    }
  }

  /** In a finished request the opened thought has been closed exactly when it is not the
      case that text came first and reasoning after it. */
  lemma ThoughtClosedIff(s: Session, polls: seq<Poll>, usage: Option<Usage>, payload: Option<string>)
    requires Uninterrupted(polls)
    ensures var t := Request(s, Started, polls + [Received(DoneEvent(usage, payload))]);
            && t.ended
            && (Tags(t.trace, OPEN_THINK) == Tags(t.trace, CLOSE_THINK) <==>
                !(FirstSpeech(polls) == TextFirst && Reasons(polls)))
  {
    hide Tags, Settle, CloseThought;
    assert NEW_TASK.trace == [];
    NoTags([], OPEN_THINK);
    NoTags([], CLOSE_THINK);
    ShapeRun(s, NEW_TASK, polls, Silent, false);
    var t := Run(s, NEW_TASK, polls);
    RunLast(s, NEW_TASK, polls, Received(DoneEvent(usage, payload)));
    CloseTags(t, Tags(t.trace, OPEN_THINK), Tags(t.trace, CLOSE_THINK));
    DoneTags(s, t, usage, payload);
  }

  lemma {:induction false} RunLast(s: Session, t: Task, polls: seq<Poll>, p: Poll)
    ensures Run(s, t, polls + [p]) == Step(s, Run(s, t, polls), p)
    decreases |polls|
  {
    hide Step;
    if polls == [] {
      assert polls + [p] == [p] && [p][1..] == [];
    } else {
      assert (polls + [p])[1..] == polls[1..] + [p];
      RunLast(s, Step(s, t, polls[0]), polls[1..], p);
    }
  }

  lemma DoneTags(s: Session, t: Task, usage: Option<Usage>, payload: Option<string>)
    ensures Tags(OnDone(s, t, usage, payload).trace, OPEN_THINK) == Tags(CloseThought(t).trace, OPEN_THINK)
    ensures Tags(OnDone(s, t, usage, payload).trace, CLOSE_THINK) == Tags(CloseThought(t).trace, CLOSE_THINK)
    ensures OnDone(s, t, usage, payload).ended
  {
    hide Tags, CloseThought;
    var a, v := CloseThought(t), OnDone(s, t, usage, payload);
    var tail := v.trace[|a.trace|..];
    assert v.trace == a.trace + tail;
    NoTags(tail, OPEN_THINK);
    NoTags(tail, CLOSE_THINK);
    TagsConcat(a.trace, tail, OPEN_THINK);
    TagsConcat(a.trace, tail, CLOSE_THINK);
  }

  // ----- the calls that were announced ---------------------------------------------------

  function CallsIn(s: Session, polls: seq<Poll>): seq<ToolCall> {
    if polls == [] then []
    else
      (if polls[0].Received? && polls[0].event.ToolCallsEvent? then Identified(s, polls[0].event.calls) else []) +
      CallsIn(s, polls[1..])
  }

  lemma {:induction false} CallsCollected(s: Session, t: Task, polls: seq<Poll>)
    requires !t.ended && Uninterrupted(polls)
    ensures Run(s, t, polls).pendingCalls == t.pendingCalls + CallsIn(s, polls)
    decreases |polls|
  {
    hide Identified;
    if polls != [] {
      assert polls[0] in polls;
      CallsCollected(s, Step(s, t, polls[0]), polls[1..]);
      var here := if polls[0].event.ToolCallsEvent? then Identified(s, polls[0].event.calls) else [];
      ConcatAssociates(t.pendingCalls, here, CallsIn(s, polls[1..]));
    }
  }

  /** All calls the provider made are announced together, in order, and are what the
      checkpointed assistant message names. */
  lemma CallsAnnounced(s: Session, polls: seq<Poll>, usage: Option<Usage>, payload: Option<string>)
    requires Uninterrupted(polls)
    ensures var t, calls := Request(s, Started, polls + [Received(DoneEvent(usage, payload))]), CallsIn(s, polls);
            && (forall i | 0 <= i < |t.trace| && t.trace[i].ToolCallsReady? :: t.trace[i].calls == calls && calls != [])
            && (forall i | 0 <= i < |t.trace| && t.trace[i].Checkpointed? && t.trace[i].checkpoint.assistant.Some? ::
                  t.trace[i].checkpoint.assistant.value.toolCalls == if calls == [] then None else Some(calls))
            && (forall i | 0 <= i < |t.trace| && t.trace[i].Done? && calls != [] ::
                 i > 0 &&
                 t.trace[i - 1].ToolCallsReady?)
  {
    hide Step, CloseThought, Going, Over;
    NewGoes();
    RunKeeps(s, NEW_TASK, polls);
    EndsIff(s, NEW_TASK, polls);
    CallsCollected(s, NEW_TASK, polls);
    RunLast(s, NEW_TASK, polls, Received(DoneEvent(usage, payload)));
    var a := Run(s, NEW_TASK, polls);
    assert a.pendingCalls == CallsIn(s, polls);
    NotOver(a);
    DoneAnnounces(s, a, usage, payload);
  }

  lemma NotOver(t: Task)
    ensures Over(t) ==> t.ended
  {
  }

  lemma DoneAnnounces(s: Session, a: Task, usage: Option<Usage>, payload: Option<string>)
    requires Going(a)
    ensures var t := Step(s, a, Received(DoneEvent(usage, payload)));
            && (forall i | 0 <= i < |t.trace| && t.trace[i].ToolCallsReady? ::
                 t.trace[i].calls == a.pendingCalls &&
                 a.pendingCalls != [])
            && (forall i | 0 <= i < |t.trace| && t.trace[i].Checkpointed? && t.trace[i].checkpoint.assistant.Some? ::
                  t.trace[i].checkpoint.assistant.value.toolCalls == if a.pendingCalls == [] then None
                      else Some(a.pendingCalls))
            && (forall i | 0 <= i < |t.trace| && t.trace[i].Done? && a.pendingCalls != [] ::
                 i > 0 &&
                 t.trace[i - 1].ToolCallsReady?)
  {
    hide ChunkText, CloseThought, Identified, OnReasoning;
    CloseGoes(a);
    ClosedCalls(a);
    var b := CloseThought(a);
    var t := Step(s, a, Received(DoneEvent(usage, payload)));
    assert t == OnDone(s, a, usage, payload);
    var tail := t.trace[|b.trace|..];
    assert t.trace == b.trace + tail;
    assert |tail| <= 4;
    assert forall i | 0 <= i < |b.trace| :: t.trace[i] == b.trace[i];
    assert forall i | |b.trace| <= i < |t.trace| :: t.trace[i] == tail[i - |b.trace|];
  }

  lemma ClosedCalls(t: Task)
    ensures CloseThought(t).pendingCalls == t.pendingCalls && CloseThought(t).pendingPayload == t.pendingPayload
  {
  }

  // ----- the task itself -------------------------------------------------------------------

  class RequestTask {
    const session: Session
    var inThoughtMode: bool
    var emittedThinkOpen: bool
    var lastReasoningSegment: Option<nat>
    var latestUsage: Option<Usage>
    var pendingToolCalls: seq<ToolCall>
    var pendingProviderContent: Option<string>
    var assembledContent: string
    var trace: seq<Sent>
    var ended: bool

    function View(): Task
      reads this
    {
      Task(inThoughtMode, emittedThinkOpen, lastReasoningSegment, latestUsage, pendingToolCalls, pendingProviderContent,
           assembledContent, trace, ended)
    }

    constructor (session: Session)
      ensures View() == NEW_TASK && this.session == session
    {
      this.session := session;
      inThoughtMode, emittedThinkOpen, lastReasoningSegment, latestUsage := true, false, None, None;
      pendingToolCalls, pendingProviderContent, assembledContent, trace, ended := [], None, "", [], false;
    }

    /** How the stream was opened decides whether there is anything to poll. */
    method Open(start: Start)
      requires View() == NEW_TASK
      modifies this`trace, this`ended
      ensures View() == Begin(session, start)
    {
      match start {
        case StartClosed => FinishRequest(Checkpoint(None, false, None), []);
        case StartCancelled => FinishRequest(Checkpoint(None, false, None), [RequestCancelled]);
        case StartFailed(error) => FinishRequest(Checkpoint(None, false, None), [Error(error)]);
        case Started =>
      }
    }

    method SendChunk(text: string, kind: ChunkKind)
      modifies this`assembledContent, this`trace
      ensures View() == Say(old(View()), text, kind)
    {
      assembledContent := assembledContent + text;
      trace := trace + [Chunk(text, kind)];
    }

    method FinishRequest(c: Checkpoint, further: seq<Sent>)
      modifies this`trace, this`ended
      ensures View() == Settle(session, old(View()), c, further)
    {
      var saved := session.saves(c);
      trace := trace + ([Checkpointed(c, saved)] + if saved then [RequestFinished(c)] + further
          else [RequestSettlementFailed]);
      ended := true;
    }

    method EndThought()
      modifies this`assembledContent, this`trace
      ensures View() == CloseThought(old(View()))
    {
      if inThoughtMode && emittedThinkOpen {
        SendChunk(CLOSE_THINK, Synthetic);
      }
    }

    method ReceiveReasoning(text: string, segment: Option<nat>)
      modifies this
      ensures View() == OnReasoning(old(View()), text, segment)
    {
      if !emittedThinkOpen {
        emittedThinkOpen := true;
        SendChunk(OPEN_THINK, Synthetic);
      }
      var separate := NeedsSeparator(lastReasoningSegment, segment);
      if segment.Some? {
        lastReasoningSegment := segment;
      }
      if separate {
        SendChunk("\n\n", Synthetic);
      }
      SendChunk(text, Reasoned);
    }

    method ReceiveDone(usage: Option<Usage>, payload: Option<string>)
      modifies this
      ensures View() == OnDone(session, old(View()), usage, payload)
    {
      EndThought();
      var used := if usage.Some? then usage else latestUsage;
      var kept := if pendingProviderContent.Some? then pendingProviderContent else payload;
      var announced := if pendingToolCalls == [] then [] else [ToolCallsReady(pendingToolCalls, kept)];
      FinishRequest(Checkpoint(used, true, Some(AssistantMessage(View(), kept))), announced + [Done(used)]);
    }

    method Receive(e: ProviderEvent)
      modifies this
      ensures View() == OnEvent(session, old(View()), e)
    {
      hide OnReasoning, OnDone;
      match e {
        case ReasoningDelta(text, segment) => ReceiveReasoning(text, segment);
        case TextDelta(text) =>
          EndThought();
          inThoughtMode := false;
          SendChunk(text, Spoken);
        case ToolCallStart(name) => trace := trace + [PreparingToolCall(name)];
        case ToolCallDelta =>
        case ToolCallsEvent(calls, payload) =>
          if inThoughtMode && emittedThinkOpen {
            EndThought();
            inThoughtMode := false;
          }
          pendingToolCalls := pendingToolCalls + Identified(session, calls);
          if payload.Some? {
            pendingProviderContent := payload;
          }
        case UsageEvent(usage) =>
          latestUsage := Some(usage);
          trace := trace + [UsageUpdate(usage)];
        case DoneEvent(usage, payload) => ReceiveDone(usage, payload);
        case ErrorEvent(error) => FinishRequest(Checkpoint(latestUsage, false, None), [Error(error)]);
      }
    }

    /** The loop of the task over what it polls. */
    method Drive(polls: seq<Poll>)
      modifies this
      ensures View() == Run(session, old(View()), polls)
    {
      hide OnEvent, Settle;
      assert polls[0..] == polls;
      for i := 0 to |polls|
        invariant Run(session, View(), polls[i..]) == Run(session, old(View()), polls)
      {
        assert polls[i..][0] == polls[i] && polls[i..][1..] == polls[i + 1..];
        if ended {
          RunEnded(session, View(), polls[i..]);
          return;
        }
        match polls[i] {
          case ReceiverClosed => FinishRequest(Checkpoint(latestUsage, false, None), []);
          case TokenCancelled => FinishRequest(Checkpoint(latestUsage, false, None), [RequestCancelled]);
          case StreamEnded => FinishRequest(Checkpoint(latestUsage, false, None), [Error(STREAM_ENDED)]);
          case Received(e) => Receive(e);
        }
      }
      assert polls[|polls|..] == [];
    }
  }

  lemma {:induction false} RunEnded(s: Session, t: Task, polls: seq<Poll>)
    requires t.ended
    ensures Run(s, t, polls) == t
    decreases |polls|
  {
    if polls != [] {
      RunEnded(s, t, polls[1..]);
    }
  }
}
