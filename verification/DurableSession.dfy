/** The durable headless session: a candidate copy takes each checkpoint in place, and
    replaces the session only after it has been persisted. */
module DurableSession {
  import opened Text
  import opened Messages
  import opened ToolResults
  import opened AccountingTotals
  import opened AccountingLedger
  import opened TranscriptProjection
  import opened ProjectionLaws

  /** Drops the results whose blocks fell out and moves the others. */
  method ShiftResults(results: seq<Unclaimed>, removed: nat) returns (kept: seq<Unclaimed>)
    ensures kept == ShiftUnclaimed(results, removed)
  {
    kept := [];
    assert results[0..] == results;
    for i := 0 to |results|
      invariant kept + ShiftUnclaimed(results[i..], removed) == ShiftUnclaimed(results, removed)
    {
      var rest := results[i..];
      assert rest[0] == results[i] && rest[1..] == results[i + 1..];
      if results[i].blockIndex >= removed {
        var moved := results[i].(blockIndex := results[i].blockIndex - removed);
        ConcatAssociates(kept, [moved], ShiftUnclaimed(rest[1..], removed));
        kept := kept + [moved];
      }
    }
    assert results[|results|..] == [];
  }

  /** A session state with its cursor, as the projection updates them. */
  class Candidate {
    const rendering: Rendering
    var messages: seq<Message>
    var blocks: seq<Block>
    var evicted: nat
    var ledger: Ledger
    var committed: nat
    var streamingMessage: Option<nat>
    var streamingBlock: Option<nat>
    var enrichable: Option<nat>
    var pending: seq<PendingCall>
    var unclaimed: seq<Unclaimed>
    var projected: set<string>
    var finalized: set<string>

    function View(): State
      reads this
    {
      State(messages, blocks, evicted, ledger, committed, streamingMessage, streamingBlock, enrichable, pending,
          unclaimed, projected, finalized)
    }

    constructor (rendering: Rendering, st: State)
      ensures View() == st && this.rendering == rendering
    {
      this.rendering := rendering;
      messages, blocks, evicted, ledger := st.messages, st.blocks, st.evicted, st.ledger;
      committed, streamingMessage, streamingBlock, enrichable := st.committed, st.streamingMessage, st.streamingBlock,
          st.enrichable;
      pending, unclaimed, projected, finalized := st.pending, st.unclaimed, st.projected, st.finalized;
    }

    /** Appends a block and moves every position by what fell out at the front. */
    method PushProjectedBlock(block: Block) returns (index: nat)
      modifies this`blocks, this`evicted, this`streamingBlock, this`unclaimed
      ensures View() == Push(old(View()), block) && index == |blocks| - 1
    {
      hide PushCapped, Dropped, Shift, ShiftUnclaimed;
      var removed := Dropped(blocks);
      var kept := ShiftResults(unclaimed, removed);
      blocks, evicted := PushCapped(blocks, block), evicted + removed;
      streamingBlock := Shift(streamingBlock, removed);
      unclaimed := kept;
      index := |blocks| - 1;
    }

    method UpsertStreamingAssistant(index: nat, content: string) returns (changed: bool)
      modifies this
      ensures Applied(View(), changed) == UpsertStreaming(rendering, old(View()), index, content)
    {
      hide Push;
      var shown := rendering.clean(content);
      changed := streamingMessage != Some(index);
      streamingMessage := Some(index);
      if streamingBlock.Some? && streamingBlock.value < |blocks| && blocks[streamingBlock.value].kind == TextBlock {
        if blocks[streamingBlock.value].content != shown {
          blocks := blocks[streamingBlock.value := blocks[streamingBlock.value].(content := shown)];
          changed := true;
        }
        return;
      }
      if shown == "" {
        streamingBlock := None;
        return;
      }
      var at := PushProjectedBlock(TextOf(shown));
      streamingBlock := Some(at);
      changed := true;
    }

    method ProjectToolCalls(calls: seq<ToolCall>) returns (ok: bool)
      modifies this
      ensures ok == ProjectCalls(rendering, old(View()), calls).Ok?
      ensures ok ==> Ok(View()) == ProjectCalls(rendering, old(View()), calls)
    {
      hide Push;
      if RepeatsPending(pending, calls) {
        return false;
      }
      ghost var start := View();
      assert calls[0..] == calls;
      for i := 0 to |calls|
        invariant PushCalls(rendering, View(), calls[i..]) == PushCalls(rendering, start, calls)
      {
        assert calls[i..][0] == calls[i] && calls[i..][1..] == calls[i + 1..];
        var call := calls[i];
        var title := rendering.title(call);
        var at := PushProjectedBlock(Block(CallBlock, call.arguments, title, true));
        pending := pending + [PendingCall(call.id, call.name, title)];
      }
      assert calls[|calls|..] == [];
      return true;
    }

    method ProjectTerminalAssistant(index: nat, m: Message) returns (result: Result<bool>)
      modifies this
      ensures result.Ok? == ProjectTerminal(rendering, old(View()), index, m).Ok?
      ensures result.Ok? ==> ProjectTerminal(rendering, old(View()), index, m) == Ok(Applied(View(), result.value))
    {
      hide Push, ProjectCalls;
      var shown := rendering.clean(m.content);
      var changed := streamingMessage == Some(index) || shown != "";
      if streamingMessage == Some(index) {
        if streamingBlock.Some? && streamingBlock.value < |blocks| && blocks[streamingBlock.value].kind == TextBlock &&
           blocks[streamingBlock.value].content != shown {
          blocks := blocks[streamingBlock.value := blocks[streamingBlock.value].(content := shown)];
        } else if streamingBlock.None? && shown != "" {
          var at := PushProjectedBlock(TextOf(shown));
        }
      } else if shown != "" {
        var at := PushProjectedBlock(TextOf(shown));
      }
      streamingMessage := None;
      streamingBlock := None;
      if CallsOf(m) == [] {
        enrichable := Some(index);
        return Ok(changed);
      }
      enrichable := None;
      var ok := ProjectToolCalls(CallsOf(m));
      return if ok then Ok(true) else Err("duplicate tool-call ID");
    }

    method ProjectToolResult(m: Message) returns (ok: bool)
      modifies this
      ensures ok == ProjectResult(old(View()), m).Ok?
      ensures ok ==> Ok(View()) == ProjectResult(old(View()), m)
    {
      hide Push, ExtractFields, NameIn;
      var fields, name := ExtractFields(m.content), NameIn(m.content);
      if fields.None? || name.None? {
        return false;
      }
      var found := MatchCall(pending, fields.value.id, name.value);
      if !found.One? {
        return false;
      }
      var call := pending[found.index];
      pending := Without(pending, found.index);
      var block := ResultBlockOf(fields.value.payload, call.title, m.isError);
      var at := PushProjectedBlock(block);
      unclaimed := unclaimed + [Unclaimed(call.id, call.name, call.title, at, evicted + at, block)];
      return true;
    }

    method EnrichFinalizedAssistant(ms: seq<Message>) returns (result: Result<bool>)
      modifies this
      ensures result.Ok? == Enrich(rendering, old(View()), ms).Ok?
      ensures result.Ok? ==> Enrich(rendering, old(View()), ms) == Ok(Applied(View(), result.value))
    {
      hide ProjectCalls;
      if !CanEnrich(View(), ms) {
        return Ok(false);
      }
      var i := enrichable.value;
      var before := messages;
      var ok := ProjectToolCalls(CallsOf(ms[i]));
      if !ok {
        return Err("duplicate tool-call ID");
      }
      messages := before[i := ms[i]];
      enrichable := None;
      return Ok(true);
    }

    method RebaseAfterTrim(ms: seq<Message>) returns (ok: bool)
      modifies this`committed, this`streamingMessage, this`enrichable
      ensures ok == Rebase(old(View()), ms).Some?
      ensures if ok then Some(View()) == Rebase(old(View()), ms) else View() == old(View())
    {
      if committed == 0 || |messages| < committed {
        return false;
      }
      for dropped := 1 to committed
        invariant View() == old(View())
        invariant FirstDropped(View(), ms, 1) == FirstDropped(View(), ms, dropped)
      {
        if SuffixRetained(View(), ms, dropped) {
          committed := committed - dropped;
          streamingMessage := Shift(streamingMessage, dropped);
          enrichable := Shift(enrichable, dropped);
          return true;
        }
      }
      return false;
    }

    /** Takes over what is new in a transcript; a rewrite of committed messages that is not
        a front trim is left alone. */
    method ApplyTranscriptCheckpoint(ms: seq<Message>, stage: Stage) returns (result: Result<bool>)
      modifies this
      ensures result.Ok? == ApplyTranscript(rendering, old(View()), ms, stage).Ok?
      ensures result.Ok? ==> ApplyTranscript(rendering, old(View()), ms, stage) == Ok(Applied(View(), result.value))
    {
      hide Enrich, Rebase, PrefixMatches, ProjectFrom;
      var enriched := EnrichFinalizedAssistant(ms);
      if enriched.Err? {
        return enriched;
      }
      var matches := PrefixMatches(View(), ms);
      var changed := enriched.value;
      if !matches {
        var rebased := RebaseAfterTrim(ms);
        if !rebased {
          return Ok(false);
        }
        changed := true;
      }
      CommittedFits(View(), ms, matches);
      changed := changed || messages != ms;
      var rest := ProjectRest(ms, stage, changed);
      if rest.Err? {
        return rest;
      }
      changed := rest.value;
      if changed {
        messages := ms;
      }
      return Ok(changed);
    }

    method ProjectRest(ms: seq<Message>, stage: Stage, already: bool) returns (result: Result<bool>)
      requires committed <= |ms|
      modifies this
      ensures var projected := ProjectFrom(rendering, old(View()), ms, stage, old(committed), already);
              result.Ok? == projected.Ok? && (result.Ok? ==> projected == Ok(Applied(View(), result.value)))
      ensures result.Ok? ==> messages == old(messages)
    {
      hide UpsertStreaming, ProjectMessage, StreamingTail;
      var changed := already;
      ghost var start := View();
      var index := committed;
      while index < |ms|
        invariant index <= |ms| && messages == start.messages
        invariant ProjectFrom(rendering, View(), ms, stage, index, changed) ==
                  ProjectFrom(rendering, start, ms, stage, start.committed, already)
      {
        if enrichable.Some? && enrichable.value < index {
          enrichable := None;
        }
        if StreamingTail(ms, stage, index) {
          ghost var at := View();
          var shown := UpsertStreamingAssistant(index, ms[index].content);
          SameWhileStreaming(rendering, at, index, ms[index].content);
          return Ok(changed || shown);
        }
        var projected := ProjectOne(index, ms[index]);
        if projected.Err? {
          return projected;
        }
        changed := changed || projected.value;
        committed := index + 1;
        index := index + 1;
      }
      return Ok(changed);
    }

    method ProjectOne(index: nat, m: Message) returns (result: Result<bool>)
      modifies this
      ensures result.Ok? == ProjectMessage(rendering, old(View()), index, m).Ok?
      ensures result.Ok? ==>
                ProjectMessage(rendering, old(View()), index, m) == Ok(Applied(View(), result.value)) &&
                messages == old(messages)
    {
      hide ProjectTerminal, ProjectResult;
      ghost var start := View();
      if m.role == "assistant" {
        result := ProjectTerminalAssistant(index, m);
      } else if m.role == "tool" {
        var ok := ProjectToolResult(m);
        result := if ok then Ok(true) else Err("cannot be associated");
      } else {
        result := Ok(false);
      }
      if result.Ok? {
        SameMessages(rendering, start, index, m);
      }
    }

    method ApplyExplicitToolEvents(events: seq<ToolEvent>, already: bool) returns (result: Result<bool>)
      modifies this
      ensures result.Ok? == ApplyEvents(rendering, old(View()), events, already).Ok?
      ensures result.Ok? ==> ApplyEvents(rendering, old(View()), events, already) == Ok(Applied(View(), result.value))
    {
      hide ApplyEvent;
      var changed := already;
      ghost var start := View();
      assert events[0..] == events;
      for i := 0 to |events|
        invariant ApplyEvents(rendering, View(), events[i..], changed) == ApplyEvents(rendering, start, events, already)
      {
        assert events[i..][0] == events[i] && events[i..][1..] == events[i + 1..];
        var applied := ApplyToolEvent(events[i]);
        if applied.Err? {
          return applied;
        }
        changed := changed || applied.value;
      }
      assert events[|events|..] == [];
      return Ok(changed);
    }

    method ApplyToolEvent(e: ToolEvent) returns (result: Result<bool>)
      modifies this
      ensures result.Ok? == ApplyEvent(rendering, old(View()), e).Ok?
      ensures result.Ok? ==> ApplyEvent(rendering, old(View()), e) == Ok(Applied(View(), result.value))
    {
      hide Push;
      if e.projectionId == "" {
        return Err("headless tool projection ID must not be empty");
      }
      if e.projectionId in projected {
        return Ok(false);
      }
      var found := MatchResult(unclaimed, e.call.id, e.call.name);
      match found {
        case Many => return Err("matched multiple results");
        case One(k) =>
          var claimed := unclaimed[k];
          unclaimed := Without(unclaimed, k);
          if claimed.blockIndex >= |blocks| {
            return Err("block was evicted");
          }
          blocks := blocks[claimed.blockIndex := ResultBlockOf(e.ui, claimed.title, e.isError)];
        case Nothing =>
          var call := MatchCall(pending, e.call.id, e.call.name);
          var title := rendering.title(e.call);
          match call {
            case Many => return Err("cannot be associated unambiguously");
            case One(k) =>
              title := pending[k].title;
              pending := Without(pending, k);
            case Nothing =>
              var at := PushProjectedBlock(Block(CallBlock, e.call.arguments, title, true));
          }
          var at := PushProjectedBlock(ResultBlockOf(e.ui, title, e.isError));
      }
      projected := projected + {e.projectionId};
      return Ok(true);
    }

    method ApplyTranscriptAndToolCheckpoint(ms: seq<Message>, stage: Stage, scope: Option<string>,
                                            events: seq<ToolEvent>) returns (result: Result<bool>)
      modifies this
      ensures result.Ok? == ApplyTranscriptAndTools(rendering, old(View()), ms, stage, scope, events).Ok?
      ensures result.Ok? ==>
                ApplyTranscriptAndTools(rendering, old(View()), ms, stage, scope, events) ==
                Ok(Applied(View(), result.value))
    {
      hide ApplyTranscript, ApplyEvents;
      result := Ok(false);
      if !(scope.Some? && scope.value in finalized) {
        result := ApplyTranscriptCheckpoint(ms, stage);
        if result.Err? {
          return;
        }
      }
      result := ApplyExplicitToolEvents(events, result.value);
      if result.Ok? && events != [] {
        result := Ok(result.value || messages != ms);
        messages, committed := ms, |ms|;
        streamingMessage, streamingBlock, enrichable := None, None, None;
      }
    }

    /** The totals of the turn go to the first block of its user. */
    method ApplyTurnToUserBlock(turn: string)
      modifies this`blocks
      ensures blocks == ApplyTurnToUser(old(blocks), turn, TurnTotals(ledger.requests, turn))
    {
      var totals := TurnTotals(ledger.requests, turn);
      for i := 0 to |blocks|
        invariant blocks == old(blocks) && UserBlockOf(blocks, turn, 0) == UserBlockOf(blocks, turn, i)
      {
        if IsUserOf(blocks[i], turn) {
          if totals.requestCount > 0 {
            blocks := blocks[i := blocks[i].(shown := Some(ShownOf(totals)))];
          }
          return;
        }
      }
    }

    method RecordRequest(request: Request) returns (result: Result<bool>)
      modifies this`ledger, this`blocks
      ensures result == Recorded(old(View()), request).0
      ensures View() == Recorded(old(View()), request).1
    {
      hide Record, TurnTotals, ApplyTurnToUser;
      var recorded := Record(ledger, request, false);
      ledger := recorded.ledger;
      if recorded.result.Ok? && recorded.result.value {
        ApplyTurnToUserBlock(request.turnId);
      }
      return recorded.result;
    }

    method ApplyRequestCheckpoint(c: RequestCheckpoint) returns (result: Result<bool>)
      modifies this
      ensures result.Ok? == ApplyRequest(rendering, old(View()), c).Ok?
      ensures result.Ok? ==> ApplyRequest(rendering, old(View()), c) == Ok(Applied(View(), result.value))
    {
      hide ApplyTranscript, Recorded;
      result := RecordRequest(c.request);
      if result.Err? {
        return;
      }
      if c.transcript.Some? {
        var ms := c.transcript.value;
        if ms == [] || ms[|ms| - 1].role != "assistant" {
          return Err("terminal provider checkpoint does not end in an assistant message");
        }
        if c.request.requestId !in finalized {
          result := ApplyTranscriptCheckpoint(ms, Final);
          if result.Ok? {
            finalized := finalized + {c.request.requestId};
            result := Ok(true);
          }
        }
      }
    }
  }

  lemma SameWhileStreaming(r: Rendering, st: State, index: nat, content: string)
    ensures UpsertStreaming(r, st, index, content).state.messages == st.messages
  {
  }

  lemma CommittedFits(st: State, ms: seq<Message>, matches: bool)
    ensures PrefixMatches(st, ms) ==> st.committed <= |ms|
  {
  }

  /** What the session remembers and what is on disk. */
  class DurableSession {
    const rendering: Rendering
    var memory: State
    var disk: State

    /** Memory always equals what was last persisted. */
    predicate Valid()
      reads this
    {
      memory == disk
    }

    constructor (rendering: Rendering, persisted: State)
      ensures Valid() && memory == persisted && this.rendering == rendering
    {
      this.rendering := rendering;
      memory, disk := persisted, persisted;
    }

    /** Applies a checkpoint to a copy, persists the copy, and only then remembers it. */
    method CommitCheckpoint(op: Op, persists: State -> bool) returns (result: Result<bool>)
      requires Valid()
      modifies this`memory, this`disk
      ensures Valid() && memory == Commit(rendering, old(memory), op, persists)
      ensures result == Ok(true) ==>
                persists(memory) &&
                Ok(Applied(memory, true)) == ApplyOp(rendering, old(memory), op)
      ensures result != Ok(true) ==> memory == old(memory)
    {
      hide ApplyRequest, ApplyTranscriptAndTools;
      var candidate := new Candidate(rendering, memory);
      match op {
        case TranscriptOp(messages, stage, scope, events) =>
          result := candidate.ApplyTranscriptAndToolCheckpoint(messages, stage, scope, events);
        case RequestOp(checkpoint) =>
          result := candidate.ApplyRequestCheckpoint(checkpoint);
      }
      if result.Err? || !result.value {
        return;
      }
      if !persists(candidate.View()) {
        return Err("could not be persisted");
      }
      disk := candidate.View();
      memory := candidate.View();
    }
  }
}
