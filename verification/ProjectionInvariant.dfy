/** What every projection keeps: the positions in the cursor point at the blocks they
    were made for, however many blocks have been dropped at the front. */
module ProjectionInvariant {
  import opened Text
  import opened Messages
  import opened ToolResults
  import opened TranscriptProjection

  /** An unclaimed result points at the very block that was pushed for it. */
  ghost predicate PointsAtItsBlock(u: Unclaimed, blocks: seq<Block>, evicted: nat) {
    && u.blockIndex < |blocks| && blocks[u.blockIndex] == u.pushed
    && u.slot == evicted + u.blockIndex
    && u.pushed.kind == ResultBlock && u.pushed.title == u.title
  }

  /** The results stand in the order of their blocks, the first at or after `low`. */
  ghost predicate UnclaimedFrom(results: seq<Unclaimed>, blocks: seq<Block>, evicted: nat, low: nat)
    decreases |results|
  {
    results == [] ||
    (low <= results[0].blockIndex && PointsAtItsBlock(results[0], blocks, evicted) &&
     UnclaimedFrom(results[1..], blocks, evicted, results[0].blockIndex + 1))
  }

  ghost predicate UnclaimedOk(results: seq<Unclaimed>, blocks: seq<Block>, evicted: nat) {
    UnclaimedFrom(results, blocks, evicted, 0)
  }

  lemma {:induction false} UnclaimedMeans(results: seq<Unclaimed>, blocks: seq<Block>, evicted: nat, low: nat, i: nat)
    requires UnclaimedFrom(results, blocks, evicted, low) && i < |results|
    ensures low <= results[i].blockIndex && PointsAtItsBlock(results[i], blocks, evicted)
    ensures forall j | i < j < |results| :: results[i].blockIndex < results[j].blockIndex
    decreases |results|
  {
    if i == 0 {
      forall j | 0 < j < |results| ensures results[0].blockIndex < results[j].blockIndex {
        UnclaimedMeans(results[1..], blocks, evicted, results[0].blockIndex + 1, j - 1);
      }
    } else {
      UnclaimedMeans(results[1..], blocks, evicted, results[0].blockIndex + 1, i - 1);
      forall j | i < j < |results| ensures results[i].blockIndex < results[j].blockIndex {
        assert results[1..][i - 1] == results[i] && results[1..][j - 1] == results[j];
      }
    }
  }

  ghost predicate PendingDistinct(pending: seq<PendingCall>) {
    forall i, j | 0 <= i < j < |pending| :: pending[i].id != pending[j].id || pending[i].name != pending[j].name
  }

  ghost predicate StreamingOk(st: State) {
    st.streamingBlock.Some? ==>
          st.streamingBlock.value < |st.blocks| &&
          st.blocks[st.streamingBlock.value].kind == TextBlock
  }

  ghost predicate BlocksOk(st: State) {
    UnclaimedOk(st.unclaimed, st.blocks, st.evicted) && PendingDistinct(st.pending) && StreamingOk(st)
  }

  ghost predicate Inv(st: State) {
    BlocksOk(st) && st.committed <= |st.messages|
  }

  // ----- pushing ------------------------------------------------------------------------

  lemma {:induction false} ShiftKeeps(results: seq<Unclaimed>, blocks: seq<Block>, evicted: nat, low: nat,
                                      removed: nat, kept: seq<Block>)
    requires UnclaimedFrom(results, blocks, evicted, low) && removed <= |blocks|
    requires |kept| >= |blocks| - removed && forall k | removed <= k < |blocks| :: kept[k - removed] == blocks[k]
    ensures UnclaimedFrom(ShiftUnclaimed(results, removed), kept, evicted + removed, if low >= removed
            then low - removed else 0)
    decreases |results|
  {
    if results != [] {
      ShiftKeeps(results[1..], blocks, evicted, results[0].blockIndex + 1, removed, kept);
    }
  }

  lemma Pushed(st: State, block: Block)
    ensures var v, removed := Push(st, block), Dropped(st.blocks);
            && |v.blocks| == |st.blocks| + 1 - removed && removed <= |st.blocks|
            && v.blocks[Last(v)] == block
            && forall k | removed <= k < |st.blocks| :: v.blocks[k - removed] == st.blocks[k]
  {
  }

  lemma PushKeeps(st: State, block: Block)
    requires BlocksOk(st)
    ensures BlocksOk(Push(st, block))
    ensures Push(st, block).blocks != [] && Push(st, block).blocks[Last(Push(st, block))] == block
    ensures Push(st, block).evicted + Last(Push(st, block)) == st.evicted + |st.blocks|
  {
    hide PointsAtItsBlock, PendingDistinct;
    Pushed(st, block);
    ShiftKeeps(st.unclaimed, st.blocks, st.evicted, 0, Dropped(st.blocks), Push(st, block).blocks);
  }

  /** Overwriting a block that no unclaimed result points at. */
  lemma {:induction false} OverwriteKeeps(results: seq<Unclaimed>, blocks: seq<Block>, evicted: nat, low: nat,
                                          at: nat, block: Block)
    requires UnclaimedFrom(results, blocks, evicted, low) && at < |blocks|
    requires forall k | 0 <= k < |results| :: results[k].blockIndex != at
    ensures UnclaimedFrom(results, blocks[at := block], evicted, low)
    decreases |results|
  {
    if results != [] {
      forall k | 0 <= k < |results| - 1 ensures results[1..][k].blockIndex != at {
        assert results[1..][k] == results[k + 1];
      }
      OverwriteKeeps(results[1..], blocks, evicted, results[0].blockIndex + 1, at, block);
    }
  }

  lemma {:induction false} RemoveKeeps(results: seq<Unclaimed>, blocks: seq<Block>, evicted: nat, low: nat, k: nat)
    requires UnclaimedFrom(results, blocks, evicted, low) && k < |results|
    ensures UnclaimedFrom(Without(results, k), blocks, evicted, low)
    decreases |results|
  {
    if k == 0 {
      assert Without(results, 0) == results[1..];
      LowerFrom(results[1..], blocks, evicted, results[0].blockIndex + 1, low);
    } else {
      assert Without(results, k)[1..] == Without(results[1..], k - 1);
      RemoveKeeps(results[1..], blocks, evicted, results[0].blockIndex + 1, k - 1);
    }
  }

  lemma LowerFrom(results: seq<Unclaimed>, blocks: seq<Block>, evicted: nat, low: nat, lower: nat)
    requires UnclaimedFrom(results, blocks, evicted, low) && lower <= low
    ensures UnclaimedFrom(results, blocks, evicted, lower)
  {
  }

  lemma {:induction false} AddKeeps(results: seq<Unclaimed>, blocks: seq<Block>, evicted: nat, low: nat, u: Unclaimed)
    requires UnclaimedFrom(results, blocks, evicted, low) && PointsAtItsBlock(u, blocks, evicted)
    requires low <= u.blockIndex && forall k | 0 <= k < |results| :: results[k].blockIndex < u.blockIndex
    ensures UnclaimedFrom(results + [u], blocks, evicted, low)
    decreases |results|
  {
    if results == [] {
      assert results + [u] == [u] && [u][1..] == [];
    } else {
      assert (results + [u])[1..] == results[1..] + [u];
      AddKeeps(results[1..], blocks, evicted, results[0].blockIndex + 1, u);
    }
  }

  /** Old unclaimed results stand before a block that has just been pushed. */
  lemma {:induction false} BeforeLast(results: seq<Unclaimed>, blocks: seq<Block>, evicted: nat, removed: nat, low: nat)
    requires UnclaimedFrom(results, blocks, evicted, low) && removed <= |blocks|
    ensures forall k | 0 <= k < |ShiftUnclaimed(results, removed)| ::
            ShiftUnclaimed(results, removed)[k].blockIndex < |blocks| - removed
    decreases |results|
  {
    if results != [] {
      BeforeLast(results[1..], blocks, evicted, removed, results[0].blockIndex + 1);
    }
  }

  // ----- single messages ---------------------------------------------------------------------

  lemma OverwriteTextKeeps(st: State, content: string)
    requires BlocksOk(st) && HasTextBlock(st)
    ensures BlocksOk(WithContent(st, content)) && HasTextBlock(WithContent(st, content))
  {
    hide PendingDistinct;
    var i := st.streamingBlock.value;
    forall k | 0 <= k < |st.unclaimed| ensures st.unclaimed[k].blockIndex != i {
      UnclaimedMeans(st.unclaimed, st.blocks, st.evicted, 0, k);
    }
    OverwriteKeeps(st.unclaimed, st.blocks, st.evicted, 0, i, st.blocks[i].(content := content));
  }

  lemma UpsertKeeps(r: Rendering, st: State, index: nat, content: string)
    requires BlocksOk(st)
    ensures BlocksOk(UpsertStreaming(r, st, index, content).state)
  {
    hide UnclaimedFrom, PendingDistinct, Push;
    var at, shown := st.(streamingMessage := Some(index)), r.clean(content);
    if HasTextBlock(at) {
      OverwriteTextKeeps(at, shown);
    } else if shown != "" {
      PushKeeps(at, TextOf(shown));
    }
  }

  lemma ShowTerminalKeeps(r: Rendering, st: State, index: nat, content: string)
    requires BlocksOk(st)
    ensures BlocksOk(ShowTerminal(r, st, index, content))
  {
    hide UnclaimedFrom, PendingDistinct, Push;
    var shown := r.clean(content);
    PushKeeps(st, TextOf(shown));
    if HasTextBlock(st) {
      OverwriteTextKeeps(st, shown);
    }
  }

  lemma PendingAdd(pending: seq<PendingCall>, c: PendingCall)
    requires PendingDistinct(pending) && !IsPending(pending, c.id, c.name)
    ensures PendingDistinct(pending + [c])
  {
  }

  lemma PendingWithout(pending: seq<PendingCall>, k: nat)
    requires PendingDistinct(pending) && k < |pending|
    ensures PendingDistinct(Without(pending, k))
  {
    assert forall i | 0 <= i < |pending| - 1 :: Without(pending, k)[i] == pending[if i < k then i else i + 1];
  }

  lemma RepeatsRest(pending: seq<PendingCall>, calls: seq<ToolCall>, title: string)
    requires calls != [] && !RepeatsPending(pending, calls)
    ensures !IsPending(pending, calls[0].id, calls[0].name)
    ensures !RepeatsPending(pending + [PendingCall(calls[0].id, calls[0].name, title)], calls[1..])
  {
    assert calls[0] in calls;
    forall c | c in calls[1..]
      ensures !IsPending(pending + [PendingCall(calls[0].id, calls[0].name, title)], c.id, c.name)
    {
      var j :| 0 <= j < |calls| - 1 && calls[1..][j] == c;
      assert calls[j + 1] == c && c in calls;
      assert calls[0].id != calls[j + 1].id;
    }
  }

  lemma {:induction false} PushCallsKeeps(r: Rendering, st: State, calls: seq<ToolCall>)
    requires BlocksOk(st) && !RepeatsPending(st.pending, calls)
    ensures BlocksOk(PushCalls(r, st, calls))
    ensures PushCalls(r, st, calls).committed == st.committed && PushCalls(r, st, calls).messages == st.messages
    decreases |calls|
  {
    hide UnclaimedFrom, PendingDistinct, RepeatsPending;
    if calls != [] {
      var c := calls[0];
      var block := Block(CallBlock, c.arguments, r.title(c), true);
      PushKeeps(st, block);
      RepeatsRest(st.pending, calls, r.title(c));
      var v := Push(st, block);
      PendingAdd(v.pending, PendingCall(c.id, c.name, r.title(c)));
      PushCallsKeeps(r, v.(pending := v.pending + [PendingCall(c.id, c.name, r.title(c))]), calls[1..]);
    }
  }

  lemma TerminalKeeps(r: Rendering, st: State, index: nat, m: Message)
    requires BlocksOk(st) && ProjectTerminal(r, st, index, m).Ok?
    ensures BlocksOk(ProjectTerminal(r, st, index, m).value.state)
    ensures ProjectTerminal(r, st, index, m).value.state.messages == st.messages
  {
    hide UnclaimedFrom, PendingDistinct, RepeatsPending, PushCalls;
    ShowTerminalKeeps(r, st, index, m.content);
    ShownSameMessages(r, st, index, m.content);
    var v := ShowTerminal(r, st, index, m.content).(streamingMessage := None, streamingBlock := None);
    if CallsOf(m) != [] {
      PushCallsKeeps(r, v.(enrichable := None), CallsOf(m));
    }
  }

  lemma ShownSameMessages(r: Rendering, st: State, index: nat, content: string)
    ensures ShowTerminal(r, st, index, content).messages == st.messages &&
            ShowTerminal(r, st, index, content).pending == st.pending
  {
  }

  lemma ResultKeeps(st: State, m: Message)
    requires BlocksOk(st) && ProjectResult(st, m).Ok?
    ensures BlocksOk(ProjectResult(st, m).value) && ProjectResult(st, m).value.messages == st.messages
  {
    hide UnclaimedFrom, PendingDistinct, ExtractFields, NameIn;
    var fields, name := ExtractFields(m.content), NameIn(m.content);
    var k := MatchCall(st.pending, fields.value.id, name.value).index;
    var call := st.pending[k];
    var block := ResultBlockOf(fields.value.payload, call.title, m.isError);
    var at := st.(pending := Without(st.pending, k));
    PendingWithout(st.pending, k);
    PushKeeps(at, block);
    var v := Push(at, block);
    Pushed(at, block);
    BeforeLast(at.unclaimed, at.blocks, at.evicted, Dropped(at.blocks), 0);
    AddKeeps(v.unclaimed, v.blocks, v.evicted, 0,
        Unclaimed(call.id, call.name, call.title, Last(v), v.evicted + Last(v), block));
  }

  lemma MessageKeeps(r: Rendering, st: State, index: nat, m: Message)
    requires BlocksOk(st) && ProjectMessage(r, st, index, m).Ok?
    ensures BlocksOk(ProjectMessage(r, st, index, m).value.state)
    ensures ProjectMessage(r, st, index, m).value.state.messages == st.messages
  {
    hide BlocksOk, ProjectTerminal, ProjectResult;
    if m.role == "assistant" {
      TerminalKeeps(r, st, index, m);
    } else if m.role == "tool" {
      ResultKeeps(st, m);
    }
  }

  lemma EnrichableKeeps(st: State, index: nat)
    requires BlocksOk(st)
    ensures BlocksOk(SettleEnrichable(st, index)) && SettleEnrichable(st, index).messages == st.messages
  {
  }

  lemma CommittedKeeps(st: State, n: nat, messages: seq<Message>)
    requires BlocksOk(st)
    ensures BlocksOk(st.(committed := n)) && BlocksOk(st.(messages := messages))
  {
  }

  lemma UpsertSame(r: Rendering, st: State, index: nat, content: string)
    ensures var v := UpsertStreaming(r, st, index, content).state;
           v.messages == st.messages &&
           v.committed == st.committed
  {
  }

  lemma {:induction false} FromKeeps(r: Rendering, st: State, messages: seq<Message>, stage: Stage, index: nat,
                                     changed: bool)
    requires BlocksOk(st) && index <= |messages| && st.committed <= index &&
             ProjectFrom(r, st, messages, stage, index, changed).Ok?
    ensures var a := ProjectFrom(r, st, messages, stage, index, changed).value;
            BlocksOk(a.state) && a.state.committed <= |messages| && a.state.messages == st.messages &&
                (changed ==> a.changed)
    decreases |messages| - index
  {
    hide BlocksOk, UpsertStreaming, ProjectMessage, StreamingTail;
    if index < |messages| {
      var at := SettleEnrichable(st, index);
      EnrichableKeeps(st, index);
      if StreamingTail(messages, stage, index) {
        UpsertKeeps(r, at, index, messages[index].content);
        UpsertSame(r, at, index, messages[index].content);
      } else {
        MessageKeeps(r, at, index, messages[index]);
        var a := ProjectMessage(r, at, index, messages[index]).value;
        CommittedKeeps(a.state, index + 1, []);
        FromKeeps(r, a.state.(committed := index + 1), messages, stage, index + 1, changed || a.changed);
      }
    }
  }

  // ----- whole checkpoints ---------------------------------------------------------------------

  lemma EnrichKeeps(r: Rendering, st: State, messages: seq<Message>)
    requires Inv(st) && Enrich(r, st, messages).Ok?
    ensures Inv(Enrich(r, st, messages).value.state)
    ensures Enrich(r, st, messages).value.changed ==> PrefixMatches(Enrich(r, st, messages).value.state, messages)
    ensures !Enrich(r, st, messages).value.changed ==> Enrich(r, st, messages).value.state == st
  {
    hide UnclaimedFrom, PendingDistinct, RepeatsPending, PushCalls;
    if CanEnrich(st, messages) {
      var i := st.enrichable.value;
      PushCallsKeeps(r, st, CallsOf(messages[i]));
      var v := Enrich(r, st, messages).value.state;
      assert v.messages[..i + 1] == st.messages[..i] + [messages[i]];
      assert messages[..i + 1] == messages[..i] + [messages[i]];
    }
  }

  lemma RebaseKeeps(st: State, messages: seq<Message>)
    requires Inv(st) && Rebase(st, messages).Some?
    ensures BlocksOk(Rebase(st, messages).value) && Rebase(st, messages).value.messages == st.messages
  {
    hide UnclaimedFrom, PendingDistinct;
  }

  lemma TranscriptKeeps(r: Rendering, st: State, messages: seq<Message>, stage: Stage)
    requires Inv(st) && ApplyTranscript(r, st, messages, stage).Ok?
    ensures Inv(ApplyTranscript(r, st, messages, stage).value.state)
  {
    hide BlocksOk, Enrich, PrefixMatches, Rebase, ProjectFrom;
    EnrichKeeps(r, st, messages);
    var e := Enrich(r, st, messages).value;
    if !PrefixMatches(e.state, messages) && Rebase(e.state, messages).Some? {
      RebaseKeeps(e.state, messages);
    }
    var start := if PrefixMatches(e.state, messages) then Some(e.state) else Rebase(e.state, messages);
    if start.Some? {
      PrefixLength(e.state, messages);
      var changed := e.changed || !PrefixMatches(e.state, messages) || start.value.messages != messages;
      FromKeeps(r, start.value, messages, stage, start.value.committed, changed);
      var a := ProjectFrom(r, start.value, messages, stage, start.value.committed, changed).value;
      CommittedKeeps(a.state, 0, messages);
    }
  }

  lemma PrefixLength(st: State, messages: seq<Message>)
    ensures PrefixMatches(st, messages) ==> st.committed <= |messages|
  {
  }
}
