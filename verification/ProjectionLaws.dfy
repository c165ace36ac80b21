/** Nothing is projected twice, and nothing is lost between memory and disk. */
module ProjectionLaws {
  import opened Text
  import opened Messages
  import opened ToolResults
  import opened AccountingTotals
  import opened AccountingLedger
  import opened TranscriptProjection
  import opened ProjectionInvariant

  // ----- checkpoints of both kinds keep the invariant ----------------------------------

  lemma EventKeeps(r: Rendering, st: State, e: ToolEvent)
    requires Inv(st) && ApplyEvent(r, st, e).Ok?
    ensures Inv(ApplyEvent(r, st, e).value.state)
  {
    hide UnclaimedFrom, PendingDistinct, Push;
    match MatchResult(st.unclaimed, e.call.id, e.call.name) {
      case Many =>
      case One(k) =>
        ClaimKeeps(st, k, ResultBlockOf(e.ui, st.unclaimed[k].title, e.isError));
      case Nothing =>
        match MatchCall(st.pending, e.call.id, e.call.name) {
          case Many =>
          case One(k) =>
            PendingWithout(st.pending, k);
            PushKeeps(st.(pending := Without(st.pending, k)), ResultBlockOf(e.ui, st.pending[k].title, e.isError));
            PushSame(st.(pending := Without(st.pending, k)), ResultBlockOf(e.ui, st.pending[k].title, e.isError));
          case Nothing =>
            var block := Block(CallBlock, e.call.arguments, r.title(e.call), true);
            PushKeeps(st, block);
            PushSame(st, block);
            PushKeeps(Push(st, block), ResultBlockOf(e.ui, r.title(e.call), e.isError));
            PushSame(Push(st, block), ResultBlockOf(e.ui, r.title(e.call), e.isError));
        }
    }
  }

  lemma PushSame(st: State, block: Block)
    ensures var v := Push(st, block);
            && v.messages == st.messages && v.committed == st.committed && v.ledger == st.ledger
            && v.finalized == st.finalized && v.projected == st.projected && v.pending == st.pending
            && v.enrichable == st.enrichable && v.streamingMessage == st.streamingMessage
  {
  }

  lemma ClaimKeeps(st: State, k: nat, block: Block)
    requires BlocksOk(st) && k < |st.unclaimed| && block.kind == ResultBlock
    ensures st.unclaimed[k].blockIndex < |st.blocks|
    ensures BlocksOk(st.(unclaimed := Without(st.unclaimed, k),
            blocks := st.blocks[st.unclaimed[k].blockIndex := block]))
  {
    hide PendingDistinct;
    var at := st.unclaimed[k].blockIndex;
    UnclaimedMeans(st.unclaimed, st.blocks, st.evicted, 0, k);
    RemoveKeeps(st.unclaimed, st.blocks, st.evicted, 0, k);
    var rest := Without(st.unclaimed, k);
    forall j | 0 <= j < |rest| ensures rest[j].blockIndex != at {
      assert rest[j] == st.unclaimed[if j < k then j else j + 1];
      UnclaimedMeans(st.unclaimed, st.blocks, st.evicted, 0, j);
    }
    OverwriteKeeps(rest, st.blocks, st.evicted, 0, at, block);
  }

  lemma {:induction false} EventsKeep(r: Rendering, st: State, events: seq<ToolEvent>, changed: bool)
    requires Inv(st) && ApplyEvents(r, st, events, changed).Ok?
    ensures Inv(ApplyEvents(r, st, events, changed).value.state)
    decreases |events|
  {
    hide Inv, ApplyEvent;
    if events != [] {
      EventKeeps(r, st, events[0]);
      var a := ApplyEvent(r, st, events[0]).value;
      EventsKeep(r, a.state, events[1..], changed || a.changed);
    }
  }

  lemma CheckpointKeeps(r: Rendering, st: State, messages: seq<Message>, stage: Stage, request: Option<string>,
                        events: seq<ToolEvent>)
    requires Inv(st) && ApplyTranscriptAndTools(r, st, messages, stage, request, events).Ok?
    ensures Inv(ApplyTranscriptAndTools(r, st, messages, stage, request, events).value.state)
  {
    hide BlocksOk, ApplyTranscript, ApplyEvents;
    var late := request.Some? && request.value in st.finalized;
    if !late {
      TranscriptKeeps(r, st, messages, stage);
    }
    var a := if late then Applied(st, false) else ApplyTranscript(r, st, messages, stage).value;
    EventsKeep(r, a.state, events, a.changed);
    SynchronizeKeeps(ApplyEvents(r, a.state, events, a.changed).value.state, messages);
  }

  lemma SynchronizeKeeps(st: State, messages: seq<Message>)
    requires BlocksOk(st)
    ensures Inv(Synchronize(st, messages))
  {
  }

  lemma RequestKeeps(r: Rendering, st: State, c: RequestCheckpoint)
    requires Inv(st) && ApplyRequest(r, st, c).Ok?
    ensures Inv(ApplyRequest(r, st, c).value.state)
  {
    hide Recorded, ApplyTranscript, UnclaimedFrom, PendingDistinct;
    RecordedKeeps(st, c.request);
    var at := Recorded(st, c.request).1;
    if c.transcript.Some? && c.request.requestId !in at.finalized {
      TranscriptKeeps(r, at, c.transcript.value, Final);
    }
  }

  // ----- the accounting of a turn -------------------------------------------------------------

  /** Unclaimed results point at blocks of results, so what happens to others does not matter. */
  lemma {:induction false} SameResultBlocks(results: seq<Unclaimed>, blocks: seq<Block>, v: seq<Block>, evicted: nat,
                                            low: nat)
    requires UnclaimedFrom(results, blocks, evicted, low)
    requires |v| == |blocks| && forall k | 0 <= k < |blocks| && blocks[k].kind == ResultBlock :: v[k] == blocks[k]
    ensures UnclaimedFrom(results, v, evicted, low)
    decreases |results|
  {
    if results != [] {
      SameResultBlocks(results[1..], blocks, v, evicted, results[0].blockIndex + 1);
    }
  }

  lemma SameButTurn(st: State, request: Request)
    ensures var v := Recorded(st, request).1; v == st.(ledger := v.ledger, blocks := v.blocks)
    ensures Recorded(st, request).1.ledger == Record(st.ledger, request, false).ledger
  {
    hide Record, ApplyTurnToUser, TurnTotals;
  }

  lemma RecordedKeeps(st: State, request: Request)
    requires Inv(st)
    ensures Inv(Recorded(st, request).1)
  {
    hide Record, PendingDistinct, UnclaimedFrom, TurnTotals;
    var v := Recorded(st, request).1;
    SameResultBlocks(st.unclaimed, st.blocks, v.blocks, st.evicted, 0);
  }

  /** After a request has changed the ledger, the first block of the user of its turn shows
      the totals of that turn, with a cost that is marked incomplete when an entry is without
      price or breakdown, and no other block has changed. */
  lemma TurnIsShown(st: State, request: Request)
    requires Sound(st.ledger) && Recorded(st, request).0 == Ok(true)
    ensures var v, turn := Recorded(st, request).1, request.turnId;
            var totals := TurnTotals(v.ledger.requests, turn);
            var partly := totals.unpricedCount > 0 || totals.incompleteCount > 0;
            match UserBlockOf(v.blocks, turn, 0)
            case None => v.blocks == st.blocks
            case Some(i) =>
              && |v.blocks| == |st.blocks| && UserBlockOf(st.blocks, turn, 0) == Some(i)
              && (forall k | 0 <= k < i :: !(v.blocks[k].kind == UserBlock && v.blocks[k].turn == Some(turn)))
              && v.blocks[i].kind == UserBlock && v.blocks[i].turn == Some(turn)
              && v.blocks[i].shown == Some(Shown(totals.usage,
                   match totals.cost
                   case None => None
                   case Some(cost) => Some(if partly then cost.(incomplete := true) else cost)))
              && v.blocks == st.blocks[i := v.blocks[i]]
  {
    hide Record, TurnTotals, Sound, Acceptable;
    var v, turn := Recorded(st, request).1, request.turnId;
    RecordedIsThere(st.ledger, request);
    var i :| 0 <= i < |v.ledger.requests| && v.ledger.requests[i] == request;
    assert HasTurn(v.ledger.requests, turn);
    TurnCounted(v.ledger.requests, turn);
  }

  lemma TurnCounted(requests: seq<Request>, turn: string)
    requires HasTurn(requests, turn)
    ensures TurnTotals(requests, turn).requestCount > 0
  {
    NoneOfTurn(requests, turn);
    CountsAddUp(OfTurn(requests, turn));
  }

  // ----- trimmed and rewritten transcripts ------------------------------------------------

  /** The last `n` committed messages begin the new transcript. */
  predicate KeepsSuffix(st: State, messages: seq<Message>, n: nat) {
    n <= st.committed <= |st.messages| && n <= |messages| &&
        st.messages[st.committed - n..st.committed] == messages[..n]
  }

  /** A front trim is followed by keeping the longest proper suffix of what was committed
      that the new transcript begins with; without one the cursor does not move. */
  lemma RebaseIsLongest(st: State, messages: seq<Message>)
    requires st.committed <= |st.messages|
    ensures match Rebase(st, messages)
            case None => forall n | 0 < n < st.committed :: !KeepsSuffix(st, messages, n)
            case Some(v) =>
              && 0 < v.committed < st.committed && KeepsSuffix(st, messages, v.committed)
              && (forall n | v.committed < n < st.committed :: !KeepsSuffix(st, messages, n))
              && v == st.(committed := v.committed, streamingMessage := v.streamingMessage, enrichable := v.enrichable)
              && PrefixMatches(v.(messages := st.messages[st.committed - v.committed..]), messages)
  {
    forall n: nat | 0 < n < st.committed
      ensures KeepsSuffix(st, messages, n) == SuffixRetained(st, messages, st.committed - n)
    {
    }
    var v := Rebase(st, messages);
    if v.Some? {
      var d := st.committed - v.value.committed;
      assert st.messages[d..][..v.value.committed] == st.messages[d..st.committed];
      forall n | v.value.committed < n < st.committed ensures !KeepsSuffix(st, messages, n) {
        assert !SuffixRetained(st, messages, st.committed - n);
      }
    } else {
      forall n | 0 < n < st.committed ensures !KeepsSuffix(st, messages, n) {
        assert !SuffixRetained(st, messages, st.committed - n);
      }
    }
  }

  /** A transcript that begins with no suffix at all of what was committed, and does not
      enrich it, changes nothing: neither messages nor blocks nor the cursor. */
  lemma OtherRewriteIgnored(r: Rendering, st: State, messages: seq<Message>, stage: Stage)
    requires 0 < st.committed <= |st.messages| && !CanEnrich(st, messages)
    requires forall n | 0 < n <= st.committed :: !KeepsSuffix(st, messages, n)
    ensures ApplyTranscript(r, st, messages, stage) == Ok(Applied(st, false))
  {
    hide Rebase, CanEnrich, ProjectFrom;
    RebaseIsLongest(st, messages);
    assert PrefixMatches(st, messages) ==> KeepsSuffix(st, messages, st.committed);
  }

  // ----- replays ------------------------------------------------------------------------

  lemma {:induction false} FinalCommitsAll(r: Rendering, st: State, messages: seq<Message>, index: nat, changed: bool)
    requires index <= |messages| && st.committed == index && ProjectFrom(r, st, messages, Final, index, changed).Ok?
    ensures var a := ProjectFrom(r, st, messages, Final, index, changed).value;
            a.state.committed == |messages| && (changed ==> a.changed) && a.state.messages == st.messages
    decreases |messages| - index
  {
    hide ProjectMessage;
    if index < |messages| {
      var at := SettleEnrichable(st, index);
      var a := ProjectMessage(r, at, index, messages[index]).value;
      SameMessages(r, at, index, messages[index]);
      FinalCommitsAll(r, a.state.(committed := index + 1), messages, index + 1, changed || a.changed);
    }
  }

  lemma SameMessages(r: Rendering, st: State, index: nat, m: Message)
    requires ProjectMessage(r, st, index, m).Ok?
    ensures ProjectMessage(r, st, index, m).value.state.messages == st.messages
  {
    hide PushCalls, Push, ExtractFields, NameIn, RepeatsPending;
    if m.role == "assistant" {
      ShownSameMessages(r, st, index, m.content);
      var v := ShowTerminal(r, st, index, m.content).(streamingMessage := None, streamingBlock := None,
          enrichable := None);
      CallsSameMessages(r, v, CallsOf(m));
    } else if m.role == "tool" {
      var fields := ExtractFields(m.content).value;
      var k := MatchCall(st.pending, fields.id, NameIn(m.content).value).index;
      PushSame(st.(pending := Without(st.pending, k)), ResultBlockOf(fields.payload, st.pending[k].title, m.isError));
    }
  }

  lemma {:induction false} CallsSameMessages(r: Rendering, st: State, calls: seq<ToolCall>)
    ensures var v := PushCalls(r, st, calls);
            v.messages == st.messages && v.ledger == st.ledger && v.finalized == st.finalized &&
                v.projected == st.projected &&
            v.committed == st.committed && v.enrichable == st.enrichable
    decreases |calls|
  {
    hide Push;
    if calls != [] {
      var c := calls[0];
      var block := Block(CallBlock, c.arguments, r.title(c), true);
      PushSame(st, block);
      CallsSameMessages(r, Push(st, block).(pending := Push(st, block).pending +
          [PendingCall(c.id, c.name, r.title(c))]), calls[1..]);
    }
  }

  /** A transcript that has been taken over completely is not taken over again. */
  lemma SettledTranscriptIgnored(r: Rendering, st: State, stage: Stage)
    requires st.committed == |st.messages|
    ensures ApplyTranscript(r, st, st.messages, stage) == Ok(Applied(st, false))
  {
    assert !CanEnrich(st, st.messages);
    assert PrefixMatches(st, st.messages);
  }

  /** Replaying a final transcript is a no-op, also when it was a trim or was ignored. */
  lemma FinalReplayIgnored(r: Rendering, st: State, messages: seq<Message>)
    requires Inv(st) && ApplyTranscript(r, st, messages, Final).Ok?
    ensures var a := ApplyTranscript(r, st, messages, Final).value;
            ApplyTranscript(r, a.state, messages, Final) == Ok(Applied(a.state, false))
  {
    hide BlocksOk, Enrich, PrefixMatches, Rebase, ProjectFrom;
    EnrichKeeps(r, st, messages);
    var e := Enrich(r, st, messages).value;
    var start := if PrefixMatches(e.state, messages) then Some(e.state) else Rebase(e.state, messages);
    if start.Some? {
      PrefixLength(e.state, messages);
      var changed := e.changed || !PrefixMatches(e.state, messages) || start.value.messages != messages;
      FinalCommitsAll(r, start.value, messages, start.value.committed, changed);
      SettledTranscriptIgnored(r, ApplyTranscript(r, st, messages, Final).value.state, Final);
    }
  }

  lemma {:induction false} EventsProjected(r: Rendering, st: State, events: seq<ToolEvent>, changed: bool)
    requires ApplyEvents(r, st, events, changed).Ok?
    ensures var v := ApplyEvents(r, st, events, changed).value.state;
            st.projected <= v.projected && (forall e | e in events ::
                  e.projectionId in v.projected &&
                  e.projectionId != "") &&
            v.ledger == st.ledger && v.finalized == st.finalized
    decreases |events|
  {
    hide ApplyEvent;
    if events != [] {
      EventProjected(r, st, events[0]);
      var a := ApplyEvent(r, st, events[0]).value;
      EventsProjected(r, a.state, events[1..], changed || a.changed);
      assert events == [events[0]] + events[1..];
    }
  }

  lemma EventProjected(r: Rendering, st: State, e: ToolEvent)
    requires ApplyEvent(r, st, e).Ok?
    ensures var v := ApplyEvent(r, st, e).value.state;
            v.projected == st.projected + {e.projectionId} && e.projectionId != "" && v.ledger == st.ledger &&
                v.finalized == st.finalized
  {
    hide Push;
    var block := Block(CallBlock, e.call.arguments, r.title(e.call), true);
    PushSame(st, block);
    PushSame(Push(st, block), ResultBlockOf(e.ui, r.title(e.call), e.isError));
    match MatchCall(st.pending, e.call.id, e.call.name)
    case One(k) => PushSame(st.(pending := Without(st.pending, k)),
        ResultBlockOf(e.ui, st.pending[k].title, e.isError));
    case _ =>
  }

  lemma {:induction false} ProjectedIgnored(r: Rendering, st: State, events: seq<ToolEvent>, changed: bool)
    requires forall e | e in events :: e.projectionId in st.projected && e.projectionId != ""
    ensures ApplyEvents(r, st, events, changed) == Ok(Applied(st, changed))
    decreases |events|
  {
    if events != [] {
      assert events[0] in events;
      ProjectedIgnored(r, st, events[1..], changed);
    }
  }

  /** Replaying a checkpoint with execution events is a no-op. */
  lemma ToolReplayIgnored(r: Rendering, st: State, messages: seq<Message>, stage: Stage, request: Option<string>,
                          events: seq<ToolEvent>)
    requires events != [] && ApplyTranscriptAndTools(r, st, messages, stage, request, events).Ok?
    ensures var b := ApplyTranscriptAndTools(r, st, messages, stage, request, events).value;
            ApplyTranscriptAndTools(r, b.state, messages, stage, request, events) == Ok(Applied(b.state, false))
  {
    hide ApplyTranscript, ApplyEvents;
    var late := request.Some? && request.value in st.finalized;
    var a := if late then Applied(st, false) else ApplyTranscript(r, st, messages, stage).value;
    EventsProjected(r, a.state, events, a.changed);
    var b := ApplyTranscriptAndTools(r, st, messages, stage, request, events).value;
    SettledTranscriptIgnored(r, b.state, stage);
    ProjectedIgnored(r, b.state, events, false);
  }

  // ----- runs of checkpoints -----------------------------------------------------------------

  datatype Op =
    | TranscriptOp(messages: seq<Message>, stage: Stage, scope: Option<string>, events: seq<ToolEvent>)
    | RequestOp(checkpoint: RequestCheckpoint)

  function ApplyOp(r: Rendering, st: State, op: Op): Result<Applied> {
    match op
    case TranscriptOp(messages, stage, scope, events) => ApplyTranscriptAndTools(r, st, messages, stage, scope, events)
    case RequestOp(c) => ApplyRequest(r, st, c)
  }

  /** A candidate replaces the state only if it changed something and could be persisted. */
  function Commit(r: Rendering, st: State, op: Op, persists: State -> bool): State {
    match ApplyOp(r, st, op)
    case Err(_) => st
    case Ok(a) => if a.changed && persists(a.state) then a.state else st
  }

  function CommitAll(r: Rendering, st: State, ops: seq<Op>, persists: State -> bool): State
    decreases |ops|
  {
    if ops == [] then st else CommitAll(r, Commit(r, st, ops[0], persists), ops[1..], persists)
  }

  ghost predicate Good(st: State) {
    Inv(st) && Sound(st.ledger)
  }

  lemma {:induction false} FromSame(r: Rendering, st: State, messages: seq<Message>, stage: Stage, index: nat,
                                    changed: bool)
    requires index <= |messages| && ProjectFrom(r, st, messages, stage, index, changed).Ok?
    ensures var v := ProjectFrom(r, st, messages, stage, index, changed).value.state;
           v.ledger == st.ledger &&
           v.finalized == st.finalized
    decreases |messages| - index
  {
    hide ProjectMessage, UpsertStreaming, StreamingTail;
    if index < |messages| {
      var at := SettleEnrichable(st, index);
      if StreamingTail(messages, stage, index) {
        UpsertLedger(r, at, index, messages[index].content);
      } else {
        MessageLedger(r, at, index, messages[index]);
        var a := ProjectMessage(r, at, index, messages[index]).value;
        FromSame(r, a.state.(committed := index + 1), messages, stage, index + 1, changed || a.changed);
      }
    }
  }

  lemma UpsertLedger(r: Rendering, st: State, index: nat, content: string)
    ensures var v := UpsertStreaming(r, st, index, content).state; v.ledger == st.ledger && v.finalized == st.finalized
  {
  }

  lemma MessageLedger(r: Rendering, st: State, index: nat, m: Message)
    requires ProjectMessage(r, st, index, m).Ok?
    ensures var v := ProjectMessage(r, st, index, m).value.state; v.ledger == st.ledger && v.finalized == st.finalized
  {
    hide PushCalls, Push, ExtractFields, NameIn, RepeatsPending;
    if m.role == "assistant" {
      PushSame(st, TextOf(r.clean(m.content)));
      var v := ShowTerminal(r, st, index, m.content).(streamingMessage := None, streamingBlock := None,
          enrichable := None);
      CallsSameMessages(r, v, CallsOf(m));
    } else if m.role == "tool" {
      var fields := ExtractFields(m.content).value;
      var k := MatchCall(st.pending, fields.id, NameIn(m.content).value).index;
      PushSame(st.(pending := Without(st.pending, k)), ResultBlockOf(fields.payload, st.pending[k].title, m.isError));
    }
  }

  lemma TranscriptSame(r: Rendering, st: State, messages: seq<Message>, stage: Stage)
    requires ApplyTranscript(r, st, messages, stage).Ok?
    ensures var v := ApplyTranscript(r, st, messages, stage).value.state;
           v.ledger == st.ledger &&
           v.finalized == st.finalized
  {
    hide ProjectFrom, PushCalls, CanEnrich, PrefixMatches, RepeatsPending;
    if CanEnrich(st, messages) {
      CallsSameMessages(r, st, CallsOf(messages[st.enrichable.value])) by { CanEnrichIndex(st, messages); }
    }
    var e := Enrich(r, st, messages).value;
    var start := if PrefixMatches(e.state, messages) then Some(e.state) else Rebase(e.state, messages);
    if start.Some? {
      PrefixLength(e.state, messages);
      FromSame(r, start.value, messages, stage, start.value.committed,
               e.changed || !PrefixMatches(e.state, messages) || start.value.messages != messages);
    }
  }

  lemma CanEnrichIndex(st: State, messages: seq<Message>)
    ensures CanEnrich(st, messages) ==> st.enrichable.Some? && st.enrichable.value < |messages|
  {
  }

  lemma OpKeeps(r: Rendering, st: State, op: Op)
    requires Good(st) && ApplyOp(r, st, op).Ok?
    ensures var v := ApplyOp(r, st, op).value.state;
            && Good(v) && st.finalized <= v.finalized
            && |st.ledger.requests| <= |v.ledger.requests|
            && forall i | 0 <= i < |st.ledger.requests| &&
               !st.ledger.requests[i].inFlight :: v.ledger.requests[i] == st.ledger.requests[i]
  {
    hide Inv, Sound, ApplyTranscript, ApplyEvents, Recorded, Record;
    match op
    case TranscriptOp(messages, stage, scope, events) =>
      CheckpointKeeps(r, st, messages, stage, scope, events);
      var late := scope.Some? && scope.value in st.finalized;
      if !late {
        TranscriptSame(r, st, messages, stage);
      }
      var a := if late then Applied(st, false) else ApplyTranscript(r, st, messages, stage).value;
      EventsProjected(r, a.state, events, a.changed);
    case RequestOp(c) =>
      RequestKeeps(r, st, c);
      RecordSound(st.ledger, c.request, false);
      LedgerStays(st.ledger, c.request);
      SameButTurn(st, c.request);
      var at := Recorded(st, c.request).1;
      if c.transcript.Some? && c.request.requestId !in at.finalized {
        TranscriptSame(r, at, c.transcript.value, Final);
      }
  }

  lemma LedgerStays(l: Ledger, request: Request)
    requires Sound(l)
    ensures |l.requests| <= |Record(l, request, false).ledger.requests|
    ensures forall i | 0 <= i < |l.requests| &&
            !l.requests[i].inFlight :: Record(l, request, false).ledger.requests[i] == l.requests[i]
  {
    hide Sound, Record;
    ReachableStep(l, request);
    forall i | 0 <= i < |l.requests| && !l.requests[i].inFlight
      ensures Record(l, request, false).ledger.requests[i] == l.requests[i]
    {
      EntriesStay(l, request, false, i);
    }
  }

  lemma ReachableStep(l: Ledger, request: Request)
    requires Sound(l)
    ensures |l.requests| <= |Record(l, request, false).ledger.requests|
  {
    hide Sound, Record;
    RecordSound(l, request, false);
    if l.requests != [] {
      EntriesStay(l, request, false, 0);
    }
  }

  lemma {:induction false} RunKeeps(r: Rendering, st: State, ops: seq<Op>, persists: State -> bool)
    requires Good(st)
    ensures var v := CommitAll(r, st, ops, persists);
            && Good(v) && st.finalized <= v.finalized
            && |st.ledger.requests| <= |v.ledger.requests|
            && forall i | 0 <= i < |st.ledger.requests| &&
               !st.ledger.requests[i].inFlight :: v.ledger.requests[i] == st.ledger.requests[i]
    decreases |ops|
  {
    hide Good, ApplyOp;
    if ops != [] {
      if ApplyOp(r, st, ops[0]).Ok? {
        OpKeeps(r, st, ops[0]);
      }
      RunKeeps(r, Commit(r, st, ops[0], persists), ops[1..], persists);
    }
  }

  /** A session as it was loaded, with a cursor that starts after its messages. */
  function Fresh(messages: seq<Message>, blocks: seq<Block>, ledger: Ledger): State {
    State(messages, blocks, 0, ledger, |messages|, None, None, None, [], [], {}, {})
  }

  /** Loading rebuilds the ledger; if that succeeds the run starts in a good state. */
  lemma FreshIsGood(messages: seq<Message>, blocks: seq<Block>, loaded: Ledger)
    requires Rebuild(loaded).result.Ok?
    ensures Good(Fresh(messages, blocks, Rebuild(loaded).ledger))
  {
    hide Rebuild, Sound;
    RebuildSound(loaded);
  }

  /** In every state that checkpoints can lead to, whichever of them failed, every unclaimed
      result points at the block pushed for it, the streaming position at a text block, and
      pending calls are told apart by identifier and name. */
  lemma ReachableInvariant(r: Rendering, st: State, ops: seq<Op>, persists: State -> bool, k: nat)
    requires Good(st)
    ensures var v := CommitAll(r, st, ops, persists);
            && (k < |v.unclaimed| ==> PointsAtItsBlock(v.unclaimed[k], v.blocks, v.evicted))
            && (v.streamingBlock.Some? ==>
                 v.streamingBlock.value < |v.blocks| &&
                 v.blocks[v.streamingBlock.value].kind == TextBlock)
            && PendingDistinct(v.pending) && v.committed <= |v.messages|
  {
    hide CommitAll;
    RunKeeps(r, st, ops, persists);
    var v := CommitAll(r, st, ops, persists);
    if k < |v.unclaimed| {
      UnclaimedMeans(v.unclaimed, v.blocks, v.evicted, 0, k);
    }
  }

  lemma RecordedIsThere(l: Ledger, request: Request)
    requires Sound(l) && Record(l, request, false).result.Ok?
    ensures exists i ::
              0 <= i < |Record(l, request, false).ledger.requests| &&
              Record(l, request, false).ledger.requests[i] == request
    ensures Acceptable(request)
  {
    hide Sound, Rebuild;
    RecordSound(l, request, false);
    match Position(l.requests, request.requestId)
    case None => assert Record(l, request, false).ledger.requests[|l.requests|] == request;
    case Some(k) => assert Record(l, request, false).ledger.requests[k] == request;
  }

  lemma SettledAgain(l: Ledger, request: Request, i: nat)
    requires Sound(l) && i < |l.requests| && l.requests[i] == request && Acceptable(request)
    ensures Record(l, request, false) == Answer(l, Ok(false))
  {
    var k := Position(l.requests, request.requestId).value;
    assert k == i;
  }

  /** A finalized request is settled for good: its checkpoint, replayed after any further
      checkpoints, changes nothing. */
  lemma RequestReplayIgnored(r: Rendering, st: State, c: RequestCheckpoint, ops: seq<Op>, persists: State -> bool)
    requires Good(st) && c.transcript.Some? && !c.request.inFlight && ApplyRequest(r, st, c).Ok?
    ensures var v := CommitAll(r, ApplyRequest(r, st, c).value.state, ops, persists);
            ApplyRequest(r, v, c) == Ok(Applied(v, false))
  {
    hide Good, CommitAll, ApplyTranscript, Record, Sound, Acceptable, ApplyTurnToUser, TurnTotals;
    GoodMeans(st);
    OpKeeps(r, st, RequestOp(c));
    RecordedIsThere(st.ledger, c.request);
    var at := Recorded(st, c.request).1;
    var w := ApplyRequest(r, st, c).value.state;
    if c.request.requestId !in at.finalized {
      TranscriptSame(r, at, c.transcript.value, Final);
    }
    assert w.ledger == at.ledger && c.request.requestId in w.finalized;
    var i :| 0 <= i < |w.ledger.requests| && w.ledger.requests[i] == c.request;
    RunKeeps(r, w, ops, persists);
    var v := CommitAll(r, w, ops, persists);
    GoodMeans(v);
    SettledAgain(v.ledger, c.request, i);
  }

  lemma GoodMeans(st: State)
    requires Good(st)
    ensures Inv(st) && Sound(st.ledger)
  {
  }
}
