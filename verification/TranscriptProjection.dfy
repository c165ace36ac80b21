/** Projecting the transcript of a headless run onto the visible blocks of its session:
    checkpoints arrive again and again, each longer, trimmed or repeated, and every
    message is shown once. */
module TranscriptProjection {
  import opened Text
  import opened Messages
  import opened ToolResults
  import opened Amounts
  import opened AccountingTotals
  import opened AccountingLedger

  const MAX_TOTAL_BLOCKS: nat := 200

  datatype BlockKind = TextBlock | CallBlock | ResultBlock | UserBlock | OtherBlock

  /** What a user block shows of the accounting of its turn. */
  datatype Shown = Shown(usage: Usage, cost: Option<Cost>)

  datatype Block = Block(
    kind: BlockKind, content: string, title: string, success: bool,
    turn: Option<string> := None, shown: Option<Shown> := None)

  datatype PendingCall = PendingCall(id: string, name: string, title: string)

  /** A projected result that its execution event has yet to claim. `slot` and `pushed`
      record, for the model only, which push made the block and what it pushed. */
  datatype Unclaimed = Unclaimed(id: string, name: string, title: string, blockIndex: nat, slot: nat, pushed: Block)

  /** The session with its cursor. `evicted` counts, for the model only, the blocks dropped so far. */
  datatype State = State(
    messages: seq<Message>, blocks: seq<Block>, evicted: nat, ledger: Ledger,
    committed: nat, streamingMessage: Option<nat>, streamingBlock: Option<nat>, enrichable: Option<nat>,
    pending: seq<PendingCall>, unclaimed: seq<Unclaimed>, projected: set<string>, finalized: set<string>)

  /** How the session shows what it shows: the visible part of assistant text, and the title of a call. */
  datatype Rendering = Rendering(clean: string -> string, title: ToolCall -> string)

  datatype Stage = Intermediate | Final

  /** A changed or unchanged candidate. */
  datatype Applied = Applied(state: State, changed: bool)

  datatype ToolEvent = ToolEvent(projectionId: string, call: ToolCall, ui: string, isError: bool)

  // ----- pushing blocks -------------------------------------------------------------

  function Dropped(blocks: seq<Block>): nat {
    if |blocks| + 1 > MAX_TOTAL_BLOCKS then |blocks| + 1 - MAX_TOTAL_BLOCKS else 0
  }

  function PushCapped(blocks: seq<Block>, block: Block): (r: seq<Block>)
    ensures 0 < |r| <= MAX_TOTAL_BLOCKS && r[|r| - 1] == block
  {
    (blocks + [block])[Dropped(blocks)..]
  }

  function Shift(index: Option<nat>, removed: nat): Option<nat> {
    if index.Some? && index.value >= removed then Some(index.value - removed) else None
  }

  function ShiftUnclaimed(results: seq<Unclaimed>, removed: nat): seq<Unclaimed> {
    if results == [] then []
    else if results[0].blockIndex >= removed
    then [results[0].(blockIndex := results[0].blockIndex - removed)] + ShiftUnclaimed(results[1..], removed)
    else ShiftUnclaimed(results[1..], removed)
  }

  /** Appends a block; those that fall out at the front take their positions with them. */
  function Push(st: State, block: Block): State {
    var removed := Dropped(st.blocks);
    st.(blocks := PushCapped(st.blocks, block), evicted := st.evicted + removed,
        streamingBlock := Shift(st.streamingBlock, removed),
        unclaimed := ShiftUnclaimed(st.unclaimed, removed))
  }

  function Last(st: State): nat
    requires st.blocks != []
  {
    |st.blocks| - 1
  }

  // ----- projecting single messages ----------------------------------------------------

  function TextOf(content: string): Block {
    Block(TextBlock, content, "", true)
  }

  predicate HasTextBlock(st: State) {
    st.streamingBlock.Some? && st.streamingBlock.value < |st.blocks| &&
        st.blocks[st.streamingBlock.value].kind == TextBlock
  }

  function WithContent(st: State, content: string): State
    requires HasTextBlock(st)
  {
    var i := st.streamingBlock.value;
    st.(blocks := st.blocks[i := st.blocks[i].(content := content)])
  }

  function UpsertStreaming(r: Rendering, st: State, index: nat, content: string): Applied {
    var shown := r.clean(content);
    var moved := st.streamingMessage != Some(index);
    var at := st.(streamingMessage := Some(index));
    if HasTextBlock(at) then
      if at.blocks[at.streamingBlock.value].content != shown then Applied(WithContent(at, shown), true)
          else Applied(at, moved)
    else if shown == "" then Applied(at.(streamingBlock := None), moved)
    else
      var v := Push(at, TextOf(shown));
      Applied(v.(streamingBlock := Some(Last(v))), true)
  }

  predicate IsPending(pending: seq<PendingCall>, id: string, name: string) {
    exists k :: 0 <= k < |pending| && pending[k].id == id && pending[k].name == name
  }

  predicate RepeatsPending(pending: seq<PendingCall>, calls: seq<ToolCall>) {
    || (exists i, j :: 0 <= i < j < |calls| && calls[i].id == calls[j].id)
    || (exists c :: c in calls && IsPending(pending, c.id, c.name))
  }

  function PushCalls(r: Rendering, st: State, calls: seq<ToolCall>): State
    decreases |calls|
  {
    if calls == [] then st
    else
      var c := calls[0];
      var v := Push(st, Block(CallBlock, c.arguments, r.title(c), true));
      PushCalls(r, v.(pending := v.pending + [PendingCall(c.id, c.name, r.title(c))]), calls[1..])
  }

  function ProjectCalls(r: Rendering, st: State, calls: seq<ToolCall>): Result<State> {
    if RepeatsPending(st.pending, calls) then Err("duplicate tool-call ID") else Ok(PushCalls(r, st, calls))
  }

  /** The text of a terminal assistant message: it completes its own streaming block, or is pushed. */
  function ShowTerminal(r: Rendering, st: State, index: nat, content: string): State {
    var shown := r.clean(content);
    if st.streamingMessage == Some(index) then
      if HasTextBlock(st) && st.blocks[st.streamingBlock.value].content != shown then WithContent(st, shown)
      else if st.streamingBlock.None? && shown != "" then Push(st, TextOf(shown))
      else st
    else if shown != "" then Push(st, TextOf(shown))
    else st
  }

  function CallsOf(m: Message): seq<ToolCall> {
    if m.toolCalls.Some? then m.toolCalls.value else []
  }

  function ProjectTerminal(r: Rendering, st: State, index: nat, m: Message): Result<Applied> {
    var shown := r.clean(m.content);
    var v := ShowTerminal(r, st, index, m.content).(streamingMessage := None, streamingBlock := None);
    var changed := st.streamingMessage == Some(index) || shown != "";
    if CallsOf(m) == [] then Ok(Applied(v.(enrichable := Some(index)), changed))
    else
      match ProjectCalls(r, v.(enrichable := None), CallsOf(m))
      case Err(e) => Err(e)
      case Ok(w) => Ok(Applied(w, true))
  }

  function FindCall(pending: seq<PendingCall>, id: string, name: string, from: nat): (r: Option<nat>)
    requires from <= |pending|
    decreases |pending| - from
    ensures r.Some? ==> from <= r.value < |pending| && pending[r.value].id == id && pending[r.value].name == name
    ensures r.None? ==> forall k | from <= k < |pending| :: !(pending[k].id == id && pending[k].name == name)
  {
    if from == |pending| then None
    else if pending[from].id == id && pending[from].name == name then Some(from)
    else FindCall(pending, id, name, from + 1)
  }

  datatype Match = Nothing | One(index: nat) | Many

  function MatchCall(pending: seq<PendingCall>, id: string, name: string): (m: Match)
    ensures m.One? ==> m.index < |pending| && pending[m.index].id == id && pending[m.index].name == name
  {
    match FindCall(pending, id, name, 0)
    case None => Nothing
    case Some(k) => if FindCall(pending, id, name, k + 1).Some? then Many else One(k)
  }

  function FindResult(results: seq<Unclaimed>, id: string, name: string, from: nat): (r: Option<nat>)
    requires from <= |results|
    decreases |results| - from
    ensures r.Some? ==> from <= r.value < |results| && results[r.value].id == id && results[r.value].name == name
  {
    if from == |results| then None
    else if results[from].id == id && results[from].name == name then Some(from)
    else FindResult(results, id, name, from + 1)
  }

  function MatchResult(results: seq<Unclaimed>, id: string, name: string): (m: Match)
    ensures m.One? ==> m.index < |results| && results[m.index].id == id && results[m.index].name == name
  {
    match FindResult(results, id, name, 0)
    case None => Nothing
    case Some(k) => if FindResult(results, id, name, k + 1).Some? then Many else One(k)
  }

  function Without<T>(s: seq<T>, i: nat): (r: seq<T>)
    requires i < |s|
    ensures |r| == |s| - 1
  {
    s[..i] + s[i + 1..]
  }

  const NAME_END := "{" + RESULT_PREFIX

  /** The function name an envelope gives. */
  function NameIn(content: string): Option<string> {
    if !(OPENING <= content) then None
    else
      var end := Find(content[|OPENING|..], NAME_END);
      if end.None? || end.value == 0 then None else Some(content[|OPENING|..][..end.value])
  }

  function ResultBlockOf(text: string, title: string, isError: bool): Block {
    Block(ResultBlock, "\n" + text + "\n", title, !isError)
  }

  function ProjectResult(st: State, m: Message): Result<State> {
    var fields, name := ExtractFields(m.content), NameIn(m.content);
    if fields.None? || name.None? then Err("no canonical tool-result envelope")
    else
      match MatchCall(st.pending, fields.value.id, name.value)
      case Nothing => Err("cannot be associated")
      case Many => Err("cannot be associated")
      case One(k) =>
        var call := st.pending[k];
        var block := ResultBlockOf(fields.value.payload, call.title, m.isError);
        var v := Push(st.(pending := Without(st.pending, k)), block);
        Ok(v.(unclaimed := v.unclaimed + [Unclaimed(call.id, call.name, call.title, Last(v), v.evicted + Last(v),
            block)]))
  }

  // ----- a whole transcript ------------------------------------------------------------

  predicate StreamingTail(messages: seq<Message>, stage: Stage, index: nat)
    requires index < |messages|
  {
    index + 1 == |messages| && stage == Intermediate && messages[index].role == "assistant" &&
        CallsOf(messages[index]) == []
  }

  function SettleEnrichable(st: State, index: nat): State {
    if st.enrichable.Some? && st.enrichable.value < index then st.(enrichable := None) else st
  }

  function ProjectMessage(r: Rendering, st: State, index: nat, m: Message): Result<Applied> {
    if m.role == "assistant" then ProjectTerminal(r, st, index, m)
    else if m.role == "tool" then
      match ProjectResult(st, m)
      case Err(e) => Err(e)
      case Ok(v) => Ok(Applied(v, true))
    else Ok(Applied(st, false))
  }

  function ProjectFrom(r: Rendering, st: State, messages: seq<Message>, stage: Stage, index: nat,
                       changed: bool): Result<Applied>
    requires index <= |messages|
    decreases |messages| - index
  {
    if index == |messages| then Ok(Applied(st, changed))
    else
      var at := SettleEnrichable(st, index);
      if StreamingTail(messages, stage, index) then
        var a := UpsertStreaming(r, at, index, messages[index].content);
        Ok(Applied(a.state, changed || a.changed))
      else
        match ProjectMessage(r, at, index, messages[index])
        case Err(e) => Err(e)
        case Ok(a) => ProjectFrom(r, a.state.(committed := index + 1), messages, stage, index + 1, changed || a.changed)
  }

  /** A finished assistant message may later arrive again with the calls it made. */
  predicate CanEnrich(st: State, messages: seq<Message>) {
    st.enrichable.Some? &&
    var i := st.enrichable.value;
    && st.committed == i + 1 && |st.messages| > i && |messages| > i && st.messages[..i] == messages[..i]
    && CallsOf(messages[i]) != []
    && st.messages[i].role == "assistant" && messages[i].role == "assistant"
    && st.messages[i].content == messages[i].content && CallsOf(st.messages[i]) == []
  }

  function Enrich(r: Rendering, st: State, messages: seq<Message>): Result<Applied> {
    if !CanEnrich(st, messages) then Ok(Applied(st, false))
    else
      var i := st.enrichable.value;
      match ProjectCalls(r, st, CallsOf(messages[i]))
      case Err(e) => Err(e)
      case Ok(v) => Ok(Applied(v.(messages := st.messages[i := messages[i]], enrichable := None), true))
  }

  predicate PrefixMatches(st: State, messages: seq<Message>) {
    |messages| >= st.committed && |st.messages| >= st.committed &&
        st.messages[..st.committed] == messages[..st.committed]
  }

  /** The committed messages, less the first `dropped`, begin the new transcript. */
  predicate SuffixRetained(st: State, messages: seq<Message>, dropped: nat)
    requires st.committed <= |st.messages|
  {
    dropped < st.committed && |messages| >= st.committed - dropped &&
    st.messages[dropped..st.committed] == messages[..st.committed - dropped]
  }

  function FirstDropped(st: State, messages: seq<Message>, dropped: nat): (d: Option<nat>)
    requires st.committed <= |st.messages| && dropped <= st.committed
    decreases st.committed - dropped
    ensures d.Some? ==> dropped <= d.value < st.committed && SuffixRetained(st, messages, d.value)
    ensures d.Some? ==> forall k | dropped <= k < d.value :: !SuffixRetained(st, messages, k)
    ensures d.None? ==> forall k | dropped <= k < st.committed :: !SuffixRetained(st, messages, k)
  {
    if dropped == st.committed then None
    else if SuffixRetained(st, messages, dropped) then Some(dropped)
    else FirstDropped(st, messages, dropped + 1)
  }

  function Rebase(st: State, messages: seq<Message>): (v: Option<State>)
    ensures v.Some? ==> 0 < v.value.committed < st.committed && v.value.committed <= |messages|
  {
    if st.committed == 0 || |st.messages| < st.committed then None
    else
      match FirstDropped(st, messages, 1)
      case None => None
      case Some(d) =>
        Some(st.(committed := st.committed - d, streamingMessage := Shift(st.streamingMessage, d),
            enrichable := Shift(st.enrichable, d)))
  }

  function ApplyTranscript(r: Rendering, st: State, messages: seq<Message>, stage: Stage): Result<Applied> {
    match Enrich(r, st, messages)
    case Err(e) => Err(e)
    case Ok(enriched) =>
      var start := if PrefixMatches(enriched.state, messages) then Some(enriched.state)
          else Rebase(enriched.state, messages);
      if start.None? then Ok(Applied(enriched.state, false))
      else
        var rebased := !PrefixMatches(enriched.state, messages);
        match ProjectFrom(r, start.value, messages, stage, start.value.committed,
                          enriched.changed || rebased || start.value.messages != messages)
        case Err(e) => Err(e)
        case Ok(a) => Ok(Applied(if a.changed then a.state.(messages := messages) else a.state, a.changed))
  }

  // ----- execution events and whole checkpoints ------------------------------------------

  /** The typed event of an executed call: it claims the result that was projected for it,
      or shows the call and its result itself. */
  function ApplyEvent(r: Rendering, st: State, e: ToolEvent): Result<Applied> {
    if e.projectionId == "" then Err("headless tool projection ID must not be empty")
    else if e.projectionId in st.projected then Ok(Applied(st, false))
    else
      match MatchResult(st.unclaimed, e.call.id, e.call.name)
      case Many => Err("matched multiple results")
      case One(k) =>
        var claimed := st.unclaimed[k];
        if claimed.blockIndex >= |st.blocks| then Err("block was evicted")
        else
          Ok(Applied(st.(unclaimed := Without(st.unclaimed, k),
                         blocks := st.blocks[claimed.blockIndex := ResultBlockOf(e.ui, claimed.title, e.isError)],
                         projected := st.projected + {e.projectionId}), true))
      case Nothing =>
        match MatchCall(st.pending, e.call.id, e.call.name)
        case Many => Err("cannot be associated unambiguously")
        case One(k) =>
          var v := Push(st.(pending := Without(st.pending, k)), ResultBlockOf(e.ui, st.pending[k].title, e.isError));
          Ok(Applied(v.(projected := v.projected + {e.projectionId}), true))
        case Nothing =>
          var shown := Push(st, Block(CallBlock, e.call.arguments, r.title(e.call), true));
          var v := Push(shown, ResultBlockOf(e.ui, r.title(e.call), e.isError));
          Ok(Applied(v.(projected := v.projected + {e.projectionId}), true))
  }

  function ApplyEvents(r: Rendering, st: State, events: seq<ToolEvent>, changed: bool): Result<Applied>
    decreases |events|
  {
    if events == [] then Ok(Applied(st, changed))
    else
      match ApplyEvent(r, st, events[0])
      case Err(e) => Err(e)
      case Ok(a) => ApplyEvents(r, a.state, events[1..], changed || a.changed)
  }

  /** The provider transcript becomes that of the checkpoint, whatever was trimmed from it. */
  function Synchronize(st: State, messages: seq<Message>): State {
    st.(messages := messages, committed := |messages|, streamingMessage := None, streamingBlock := None,
        enrichable := None)
  }

  /** A checkpoint of the agent loop. Updates of a finalized request come too late. */
  function ApplyTranscriptAndTools(r: Rendering, st: State, messages: seq<Message>, stage: Stage,
                                   request: Option<string>,
                                   events: seq<ToolEvent>): Result<Applied> {
    var scoped := if request.Some? && request.value in st.finalized then Ok(Applied(st, false))
        else ApplyTranscript(r, st, messages, stage);
    match scoped
    case Err(e) => Err(e)
    case Ok(a) =>
      match ApplyEvents(r, a.state, events, a.changed)
      case Err(e) => Err(e)
      case Ok(b) =>
        if events == [] then Ok(b) else Ok(Applied(Synchronize(b.state, messages), b.changed ||
            b.state.messages != messages))
  }

  // ----- the accounting of a turn -----------------------------------------------------------

  /** A cost that leaves entries unpriced or uncounted is shown as incomplete. */
  function ShownOf(totals: Totals): Shown {
    Shown(totals.usage,
          if totals.cost.Some? && (totals.unpricedCount > 0 || totals.incompleteCount > 0)
          then Some(totals.cost.value.(incomplete := true)) else totals.cost)
  }

  /** The first user block of the turn. */
  function UserBlockOf(blocks: seq<Block>, turn: string, from: nat): (index: Option<nat>)
    requires from <= |blocks|
    decreases |blocks| - from
    ensures index.Some? ==> from <= index.value < |blocks| && IsUserOf(blocks[index.value], turn)
    ensures index.Some? ==> forall k | from <= k < index.value :: !IsUserOf(blocks[k], turn)
    ensures index.None? ==> forall k | from <= k < |blocks| :: !IsUserOf(blocks[k], turn)
  {
    if from == |blocks| then None
    else if IsUserOf(blocks[from], turn) then Some(from)
    else UserBlockOf(blocks, turn, from + 1)
  }

  predicate IsUserOf(block: Block, turn: string) {
    block.kind == UserBlock && block.turn == Some(turn)
  }

  function ApplyTurnToUser(blocks: seq<Block>, turn: string, totals: Totals): (applied: seq<Block>)
    ensures |applied| == |blocks|
    ensures forall k | 0 <= k < |blocks| && !IsUserOf(blocks[k], turn) :: applied[k] == blocks[k]
  {
    match UserBlockOf(blocks, turn, 0)
    case Some(i) => if totals.requestCount == 0 then blocks else blocks[i := blocks[i].(shown := Some(ShownOf(totals)))]
    case None => blocks
  }

  /** The entry in the ledger, and its turn on the block of the user, if the ledger changed. */
  function Recorded(st: State, request: Request): (Result<bool>, State) {
    var recorded := Record(st.ledger, request, false);
    var at := st.(ledger := recorded.ledger);
    (recorded.result,
     if recorded.result.Ok? && recorded.result.value
     then at.(blocks := ApplyTurnToUser(at.blocks, request.turnId, TurnTotals(at.ledger.requests, request.turnId)))
     else at)
  }

  datatype RequestCheckpoint = RequestCheckpoint(request: Request, transcript: Option<seq<Message>>)

  /** The terminal checkpoint of a provider request: its accounting, and its transcript once. */
  function ApplyRequest(r: Rendering, st: State, c: RequestCheckpoint): Result<Applied> {
    var recorded := Recorded(st, c.request);
    if recorded.0.Err? then Err(recorded.0.error)
    else
      var at := recorded.1;
      if c.transcript.None? then Ok(Applied(at, recorded.0.value))
      else if c.transcript.value == [] || c.transcript.value[|c.transcript.value| - 1].role != "assistant" then
        Err("terminal provider checkpoint does not end in an assistant message")
      else if c.request.requestId in at.finalized then Ok(Applied(at, recorded.0.value))
      else
        match ApplyTranscript(r, at, c.transcript.value, Final)
        case Err(e) => Err(e)
        case Ok(a) => Ok(Applied(a.state.(finalized := a.state.finalized + {c.request.requestId}), true))
  }
}
