/** What a session shows of a transcript: block by block, with no cursor, no queues and no
    positions, and the last two hundred blocks of that are what projecting leaves. */
module ShownBlocks {
  import opened Text
  import opened Messages
  import opened ToolResults
  import opened Transcripts
  import opened TranscriptProjection
  import opened StreamedProjection
  import opened ProjectionLaws
  import opened UniqueIds
  import opened AnsweredCalls
  import opened AccountingLedger

  /** The blocks after some were added: at most two hundred, the latest. */
  function Capped(blocks: seq<Block>, added: seq<Block>): seq<Block> {
    var all := blocks + added;
    if added == [] || |all| <= 200 then all else all[|all| - 200..]
  }

  lemma CappedTwice(blocks: seq<Block>, a: seq<Block>, b: seq<Block>)
    ensures Capped(Capped(blocks, a), b) == Capped(blocks, a + b)
  {
    ConcatAssociates(blocks, a, b);
    assert a + [] == a && [] + b == b && blocks + [] == blocks;
    if a != [] && b != [] {
      var all := blocks + a;
      if |all| > 200 {
        assert all[|all| - 200..] + b == (all + b)[|all| - 200..];
      }
    }
  }

  lemma PushShows(st: State, block: Block)
    ensures var v := Push(st, block);
            && v.blocks == Capped(st.blocks, [block]) && v.pending == st.pending
            && (st.streamingBlock.None? ==> v.streamingBlock.None?) && v.streamingMessage == st.streamingMessage
            && v.messages == st.messages && v.committed == st.committed && v.enrichable == st.enrichable
  {
  }

  /** When blocks fall out, what the cursor points at is followed to its new place, or forgotten
      with its block. */
  lemma PushFollows(st: State, block: Block)
    ensures var v, removed := Push(st, block), |st.blocks| + 1 - |Push(st, block).blocks|;
            && (forall i | st.streamingBlock == Some(i) && removed <= i < |st.blocks| ::
                  v.streamingBlock == Some(i - removed) && v.blocks[i - removed] == st.blocks[i])
            && (forall i | st.streamingBlock == Some(i) && i < removed :: v.streamingBlock.None?)
            && v.evicted == st.evicted + removed
  {
  }

  /** After a front trim the cursor names the same messages by their new positions. */
  lemma RebaseFollows(st: State, messages: seq<Message>)
    requires Rebase(st, messages).Some?
    ensures var v := Rebase(st, messages).value;
            var dropped := st.committed - v.committed;
            && (forall i | st.streamingMessage == Some(i) ::
                  v.streamingMessage == if i >= dropped then Some(i - dropped) else None)
            && (forall i | st.enrichable == Some(i) :: v.enrichable == if i >= dropped then Some(i - dropped) else None)
            && (forall i | dropped <= i < st.committed :: messages[i - dropped] == st.messages[i])
            && v.blocks == st.blocks && v.pending == st.pending && v.messages == st.messages
  {
    var dropped := st.committed - Rebase(st, messages).value.committed;
    assert SuffixRetained(st, messages, dropped);
    forall i | dropped <= i < st.committed ensures messages[i - dropped] == st.messages[i] {
      assert st.messages[dropped..st.committed][i - dropped] == messages[..st.committed - dropped][i - dropped];
    }
  }

  // ----- single messages ---------------------------------------------------------------------------

  /** The visible text of a message, if there is any. */
  function TextBlocks(r: Rendering, content: string): seq<Block> {
    if r.clean(content) == "" then [] else [Block(TextBlock, r.clean(content), "", true)]
  }

  /** One block per call, with its arguments under its title. */
  function CallBlocks(r: Rendering, calls: seq<ToolCall>): seq<Block> {
    seq(|calls|, k requires 0 <= k < |calls| => Block(CallBlock, calls[k].arguments, r.title(calls[k]), true))
  }

  /** A result stands between newlines under the title of its call, and shows whether it succeeded. */
  function ResultShown(text: string, title: string, isError: bool): Block {
    Block(ResultBlock, ['\n'] + text + ['\n'], title, !isError)
  }

  function Awaited(r: Rendering, calls: seq<ToolCall>): seq<PendingCall> {
    seq(|calls|, k requires 0 <= k < |calls| => PendingCall(calls[k].id, calls[k].name, r.title(calls[k])))
  }

  lemma {:induction false} CallsShow(r: Rendering, st: State, calls: seq<ToolCall>)
    ensures var v := PushCalls(r, st, calls);
            && v.blocks == Capped(st.blocks, CallBlocks(r, calls)) && v.pending == st.pending + Awaited(r, calls)
            && (st.streamingBlock.None? ==> v.streamingBlock.None?) && v.streamingMessage == st.streamingMessage
            && v.messages == st.messages && v.committed == st.committed && v.enrichable == st.enrichable
    decreases |calls|
  {
    hide Push;
    if calls == [] {
      assert st.blocks + [] == st.blocks && st.pending + [] == st.pending;
    } else {
      var c := calls[0];
      var block, waits := Block(CallBlock, c.arguments, r.title(c), true), PendingCall(c.id, c.name, r.title(c));
      PushShows(st, block);
      var v := Push(st, block);
      CallsShow(r, v.(pending := v.pending + [waits]), calls[1..]);
      CappedTwice(st.blocks, [block], CallBlocks(r, calls[1..]));
      assert CallBlocks(r, calls) == [block] + CallBlocks(r, calls[1..]);
      assert Awaited(r, calls) == [waits] + Awaited(r, calls[1..]);
      ConcatAssociates(st.pending, [waits], Awaited(r, calls[1..]));
    }
  }

  /** What a finished message of the assistant shows: its text, then its calls, unless they
      repeat identifiers. */
  lemma AssistantShows(r: Rendering, st: State, index: nat, m: Message)
    requires st.streamingMessage.None? && st.streamingBlock.None?
    ensures var p, calls := ProjectTerminal(r, st, index, m), CallsOf(m);
            && (p.Err? <==> calls != [] && (!DistinctIds(calls) || exists c, w ::
                              c in calls && w in st.pending && w.id == c.id && w.name == c.name))
            && (p.Ok? ==>
                  var v := p.value.state;
                  && v.blocks == Capped(st.blocks, TextBlocks(r, m.content) + CallBlocks(r, calls))
                  && v.pending == st.pending + Awaited(r, calls)
                  && v.streamingMessage.None? && v.streamingBlock.None? && v.messages == st.messages
                  && v.enrichable == if calls == [] then Some(index) else None)
  {
    hide PushCalls, Push, RepeatsPending, Capped;
    var calls, text := CallsOf(m), TextBlocks(r, m.content);
    var shown := ShowTerminal(r, st, index, m.content);
    if text != [] {
      PushShows(st, text[0]);
      assert text == [text[0]];
    } else {
      NothingAdded(st.blocks);
    }
    assert shown.blocks == Capped(st.blocks, text) && shown.pending == st.pending;
    var v := shown.(streamingMessage := None, streamingBlock := None, enrichable := None);
    CallsShow(r, v, calls);
    CappedTwice(st.blocks, text, CallBlocks(r, calls));
    RepeatsMeans(st.pending, calls);
    if calls == [] {
      assert text + CallBlocks(r, calls) == text && st.pending + Awaited(r, calls) == st.pending;
    }
  }

  lemma NothingAdded(blocks: seq<Block>)
    ensures Capped(blocks, []) == blocks
  {
  }

  lemma RepeatsMeans(pending: seq<PendingCall>, calls: seq<ToolCall>)
    ensures RepeatsPending(pending, calls) <==>
            !DistinctIds(calls) || exists c, w :: c in calls && w in pending && w.id == c.id && w.name == c.name
  {
    if c, w :| c in calls && w in pending && w.id == c.id && w.name == c.name {
      var k :| 0 <= k < |pending| && pending[k] == w;
      assert IsPending(pending, c.id, c.name);
    }
    if c :| c in calls && IsPending(pending, c.id, c.name) {
      var k :| 0 <= k < |pending| && pending[k].id == c.id && pending[k].name == c.name;
      assert pending[k] in pending;
    }
  }

  /** `k` is the one entry with the identifier and the name. */
  predicate OnlyPending(pending: seq<PendingCall>, id: string, name: string, k: nat) {
    k < |pending| && forall j | 0 <= j < |pending| :: pending[j].id == id && pending[j].name == name <==> j == k
  }

  lemma {:induction false} FirstCall(pending: seq<PendingCall>, id: string, name: string, from: nat)
    requires from <= |pending|
    ensures var r := FindCall(pending, id, name, from);
            r.Some? ==> forall j | from <= j < r.value :: !(pending[j].id == id && pending[j].name == name)
    decreases |pending| - from
  {
    if from < |pending| && !(pending[from].id == id && pending[from].name == name) {
      FirstCall(pending, id, name, from + 1);
    }
  }

  lemma MatchIs(pending: seq<PendingCall>, id: string, name: string)
    ensures forall k: nat :: MatchCall(pending, id, name) == One(k) <==> OnlyPending(pending, id, name, k)
    ensures MatchCall(pending, id, name) == Nothing <==>
            forall j | 0 <= j < |pending| :: !(pending[j].id == id && pending[j].name == name)
  {
    hide FindCall;
    FirstCall(pending, id, name, 0);
    var first := FindCall(pending, id, name, 0);
    forall k: nat ensures MatchCall(pending, id, name) == One(k) <==> OnlyPending(pending, id, name, k) {
      if first.Some? {
        var next := FindCall(pending, id, name, first.value + 1);
        assert OnlyPending(pending, id, name, k) ==> k == first.value && next.None?;
        assert next.None? ==> OnlyPending(pending, id, name, first.value);
      } else {
        assert k < |pending| ==> !(pending[k].id == id && pending[k].name == name);
      }
    }
  }

  /** A result is shown under the title of the one call it answers, which no longer waits. */
  lemma ResultShows(st: State, m: Message, name: string, payload: string, id: string, k: nat)
    requires m.content == Envelope(name, payload, id) && CleanName(name) && CleanId(id) && name != ""
    requires OnlyPending(st.pending, id, name, k)
    ensures ProjectResult(st, m).Ok?
    ensures var v, title := ProjectResult(st, m).value, st.pending[k].title;
            && v.blocks == Capped(st.blocks, [ResultShown(payload, title, m.isError)]) && v.blocks != []
            && v.pending == st.pending[..k] + st.pending[k + 1..]
            && v.unclaimed != []
            && (v.unclaimed[|v.unclaimed| - 1].id, v.unclaimed[|v.unclaimed| - 1].name) == (id, name)
            && v.unclaimed[|v.unclaimed| - 1].title == title
            && v.unclaimed[|v.unclaimed| - 1].blockIndex == |v.blocks| - 1
            && v.messages == st.messages && v.enrichable == st.enrichable
            && (st.streamingBlock.None? ==> v.streamingBlock.None?) && v.streamingMessage == st.streamingMessage
  {
    hide MatchCall, Push, ExtractFields, NameIn, Envelope, Capped, CleanName, CleanId;
    RoundTripsIff(name, payload, id);
    NameIsRead(name, payload, id);
    MatchIs(st.pending, id, name);
    var block := ResultShown(payload, st.pending[k].title, m.isError);
    assert ResultBlockOf(payload, st.pending[k].title, m.isError) == block;
    PushShows(st.(pending := Without(st.pending, k)), block);
    PushNonempty(st.(pending := Without(st.pending, k)), block);
  }

  /** Without such a call, or with several, a result is refused. */
  lemma ResultShownIff(st: State, m: Message, name: string, payload: string, id: string)
    requires m.content == Envelope(name, payload, id) && CleanName(name) && CleanId(id) && name != ""
    ensures ProjectResult(st, m).Ok? <==> exists k: nat :: OnlyPending(st.pending, id, name, k)
  {
    hide MatchCall, Push, ExtractFields, NameIn, Envelope, CleanName, CleanId, OnlyPending;
    RoundTripsIff(name, payload, id);
    NameIsRead(name, payload, id);
    MatchIs(st.pending, id, name);
    if ProjectResult(st, m).Ok? {
      var k := MatchCall(st.pending, id, name).index;
      assert OnlyPending(st.pending, id, name, k);
    }
  }

  lemma PushNonempty(st: State, block: Block)
    ensures Push(st, block).blocks != []
  {
  }

  lemma NameIsRead(name: string, payload: string, id: string)
    requires CleanName(name) && name != ""
    ensures NameIn(Envelope(name, payload, id)) == Some(name)
  {
    hide OPENING, ID_SEPARATOR, CLOSING, RESULT_PREFIX, DELIMITER;
    var w, after := Envelope(name, payload, id), payload + ID_SEPARATOR + id + DELIMITER + CLOSING;
    NameFollows(name, payload, id);
    var rest := w[|OPENING|..];
    PrefixFound(name, payload, id);
    forall i: nat | i < |name| ensures !OccursAt(rest, NAME_END, i) {
      if OccursAt(rest, NAME_END, i) {
        PrefixInside(w, i);
      }
    }
    FindIs(rest, NAME_END, |name|);
  }

  lemma PrefixInside(w: string, i: nat)
    requires |OPENING| <= |w| && OccursAt(w[|OPENING|..], NAME_END, i)
    ensures OccursAt(w, RESULT_PREFIX, |OPENING| + i + 1)
  {
    hide OPENING, RESULT_PREFIX;
    assert w[|OPENING|..][i..i + |NAME_END|][1..] == RESULT_PREFIX;
    assert w[|OPENING| + i + 1..|OPENING| + i + 1 + |RESULT_PREFIX|] == RESULT_PREFIX;
  }

  lemma NameFollows(name: string, payload: string, id: string)
    ensures var w := Envelope(name, payload, id);
            && OPENING <= w && OccursAt(w[|OPENING|..], NAME_END, |name|) && w[|OPENING|..][..|name|] == name
            && |Head(name)| == |OPENING| + |name| + 1
  {
    hide OPENING, ID_SEPARATOR, CLOSING, RESULT_PREFIX, DELIMITER;
    var w, rest := Envelope(name, payload, id), Envelope(name, payload, id)[|OPENING|..];
    EnvelopeParts(name, payload, id);
    assert w == OPENING + (name + ("{" + RESULT_PREFIX) + (payload + Tail(id)));
    assert rest == name + NAME_END + (payload + Tail(id));
    assert rest[|name|..|name| + |NAME_END|] == NAME_END;
  }

  // ----- execution events ------------------------------------------------------------------------------

  predicate OnlyUnclaimed(results: seq<Unclaimed>, id: string, name: string, k: nat) {
    k < |results| && forall j | 0 <= j < |results| :: results[j].id == id && results[j].name == name <==> j == k
  }

  predicate NoUnclaimed(results: seq<Unclaimed>, id: string, name: string) {
    forall j | 0 <= j < |results| :: !(results[j].id == id && results[j].name == name)
  }

  lemma {:induction false} FirstResult(results: seq<Unclaimed>, id: string, name: string, from: nat)
    requires from <= |results|
    ensures var r := FindResult(results, id, name, from);
            forall j | from <= j < (if r.Some? then r.value else |results|) ::
              !(results[j].id == id && results[j].name == name)
    decreases |results| - from
  {
    if from < |results| && !(results[from].id == id && results[from].name == name) {
      FirstResult(results, id, name, from + 1);
    }
  }

  lemma MatchResultIs(results: seq<Unclaimed>, id: string, name: string)
    ensures forall k: nat :: MatchResult(results, id, name) == One(k) <==> OnlyUnclaimed(results, id, name, k)
    ensures MatchResult(results, id, name) == Nothing <==> NoUnclaimed(results, id, name)
  {
    hide FindResult;
    FirstResult(results, id, name, 0);
    var first := FindResult(results, id, name, 0);
    forall k: nat ensures MatchResult(results, id, name) == One(k) <==> OnlyUnclaimed(results, id, name, k) {
      if first.Some? {
        FirstResult(results, id, name, first.value + 1);
        var next := FindResult(results, id, name, first.value + 1);
        assert OnlyUnclaimed(results, id, name, k) ==> k == first.value && next.None?;
        assert next.None? ==> OnlyUnclaimed(results, id, name, first.value);
      } else {
        assert k < |results| ==> !(results[k].id == id && results[k].name == name);
      }
    }
  }

  /** The event of an executed call replaces the one result that was projected for it, in its
      place and under its title. */
  lemma ClaimShows(r: Rendering, st: State, e: ToolEvent, k: nat)
    requires e.projectionId != "" && e.projectionId !in st.projected
    requires OnlyUnclaimed(st.unclaimed, e.call.id, e.call.name, k)
    ensures var u, p := st.unclaimed[k], ApplyEvent(r, st, e);
            if u.blockIndex >= |st.blocks| then p.Err?
            else
              && p.Ok? && p.value.changed
              && p.value.state.blocks == st.blocks[u.blockIndex := ResultShown(e.ui, u.title, e.isError)]
              && p.value.state.unclaimed == st.unclaimed[..k] + st.unclaimed[k + 1..]
              && p.value.state.pending == st.pending && p.value.state.projected == st.projected + {e.projectionId}
  {
    hide MatchResult;
    MatchResultIs(st.unclaimed, e.call.id, e.call.name);
    assert ResultBlockOf(e.ui, st.unclaimed[k].title, e.isError) ==
           ResultShown(e.ui, st.unclaimed[k].title, e.isError);
  }

  /** Without a projected result the event shows the result itself: under the title of the
      call that waits for it, or with a block for the call when none does. */
  lemma EventShows(r: Rendering, st: State, e: ToolEvent)
    requires e.projectionId != "" && e.projectionId !in st.projected
    requires NoUnclaimed(st.unclaimed, e.call.id, e.call.name)
    ensures var p := ApplyEvent(r, st, e);
            && (forall k: nat | OnlyPending(st.pending, e.call.id, e.call.name, k) ::
                  && p.Ok? && p.value.state.pending == st.pending[..k] + st.pending[k + 1..]
                  && p.value.state.blocks == Capped(st.blocks, [ResultShown(e.ui, st.pending[k].title, e.isError)]))
            && ((forall w | w in st.pending :: !(w.id == e.call.id && w.name == e.call.name)) ==>
                  && p.Ok? && p.value.state.pending == st.pending
                  && p.value.state.blocks ==
                     Capped(st.blocks, [Block(CallBlock, e.call.arguments, r.title(e.call), true),
                                        ResultShown(e.ui, r.title(e.call), e.isError)]))
            && (p.Ok? ==> p.value.state.projected == st.projected + {e.projectionId} && p.value.changed)
  {
    hide MatchResult, MatchCall, Push, Capped, OnlyPending;
    MatchResultIs(st.unclaimed, e.call.id, e.call.name);
    MatchIs(st.pending, e.call.id, e.call.name);
    match MatchCall(st.pending, e.call.id, e.call.name) {
      case One(k) =>
        var block := ResultShown(e.ui, st.pending[k].title, e.isError);
        assert ResultBlockOf(e.ui, st.pending[k].title, e.isError) == block;
        PushEvent(st.(pending := Without(st.pending, k)), block);
        assert st.pending[k] in st.pending;
      case Many =>
        ManyMatch(st.pending, e.call.id, e.call.name);
      case Nothing =>
        var call := Block(CallBlock, e.call.arguments, r.title(e.call), true);
        var block := ResultShown(e.ui, r.title(e.call), e.isError);
        assert ResultBlockOf(e.ui, r.title(e.call), e.isError) == block;
        PushEvent(st, call);
        PushEvent(Push(st, call), block);
        CappedTwice(st.blocks, [call], [block]);
        assert [call] + [block] == [call, block];
    }
  }

  lemma ManyMatch(pending: seq<PendingCall>, id: string, name: string)
    requires MatchCall(pending, id, name) == Many
    ensures exists w :: w in pending && w.id == id && w.name == name
  {
    var k := FindCall(pending, id, name, 0).value;
    assert pending[k] in pending;
  }

  lemma PushEvent(st: State, block: Block)
    ensures var v := Push(st, block);
            v.blocks == Capped(st.blocks, [block]) && v.pending == st.pending && v.projected == st.projected
  {
  }

  // ----- a whole transcript ----------------------------------------------------------------------------

  predicate Quiet(st: State) {
    st.streamingMessage.None? && st.streamingBlock.None?
  }

  /** Calls that results can be told apart by, and whose names results carry. */
  predicate NamedCalls(calls: seq<ToolCall>) {
    ClearBatch(calls) && forall c | c in calls :: CleanName(c.name) && c.name != ""
  }

  ghost predicate NamedTranscript(ms: seq<Message>) {
    forall m | m in ms :: NamedCalls(CallsOf(m))
  }

  /** `ms` begins with the results of the calls that are owed, and is answered after that. */
  ghost predicate Settles(ms: seq<Message>, owed: seq<ToolCall>) {
    |owed| <= |ms| && ResultsFor(ms[..|owed|], owed) && Answered(ms[|owed|..])
  }

  /** What a result holds for the call. */
  ghost function PayloadFor(m: Message, call: ToolCall): (payload: string)
    requires IsResultFor(m, call)
    ensures m.content == Envelope(call.name, payload, call.id)
  {
    var payload :| m.content == Envelope(call.name, payload, call.id);
    payload
  }

  /** What is shown of a transcript: of each message of the assistant its text and its calls,
      and of each result its payload under the title of its call. */
  ghost function BlocksOf(r: Rendering, ms: seq<Message>, owed: seq<ToolCall>): seq<Block>
    requires Settles(ms, owed)
    decreases |ms|
  {
    if ms == [] then []
    else if owed != [] then
      ResultSettles(ms, owed);
      [ResultShown(PayloadFor(ms[0], owed[0]), r.title(owed[0]), ms[0].isError)] + BlocksOf(r, ms[1..], owed[1..])
    else if ms[0].role == "assistant" then
      CallSettles(ms);
      TextBlocks(r, ms[0].content) + CallBlocks(r, CallsOf(ms[0])) + BlocksOf(r, ms[1..], CallsOf(ms[0]))
    else
      OtherSettles(ms);
      BlocksOf(r, ms[1..], [])
  }

  lemma ResultSettles(ms: seq<Message>, owed: seq<ToolCall>)
    requires Settles(ms, owed) && owed != []
    ensures ms != [] && IsResultFor(ms[0], owed[0]) && Settles(ms[1..], owed[1..])
  {
    hide IsResultFor, Awaiting;
    assert ms[..|owed|][0] == ms[0] && ms[1..][..|owed| - 1] == ms[..|owed|][1..];
    assert ms[1..][|owed| - 1..] == ms[|owed|..];
  }

  lemma CallSettles(ms: seq<Message>)
    requires Settles(ms, []) && ms != [] && ms[0].role == "assistant"
    ensures Settles(ms[1..], CallsOf(ms[0]))
  {
    hide IsResultFor;
    assert ms[0..] == ms && ms[1..][0..] == ms[1..] && ms[1..][..0] == [];
    if ms[0].toolCalls.Some? {
      var n := |CallsOf(ms[0])|;
      if |ms| > n {
        assert ms[1..][..n] == ms[1..1 + n] && ms[1..][n..] == ms[1 + n..];
      }
    }
  }

  lemma OtherSettles(ms: seq<Message>)
    requires Settles(ms, []) && ms != [] && ms[0].role != "assistant"
    ensures Settles(ms[1..], []) && !IsTool(ms[0])
  {
    assert ms[0..] == ms && ms[1..][0..] == ms[1..] && ms[1..][..0] == [];
  }

  lemma FirstAwaited(r: Rendering, owed: seq<ToolCall>)
    requires owed != [] && NamedCalls(owed)
    ensures OnlyPending(Awaited(r, owed), owed[0].id, owed[0].name, 0) && NamedCalls(owed[1..])
    ensures Awaited(r, owed)[0].title == r.title(owed[0])
    ensures Awaited(r, owed)[..0] + Awaited(r, owed)[1..] == Awaited(r, owed[1..])
    ensures CleanName(owed[0].name) && CleanId(owed[0].id) && owed[0].name != ""
  {
    hide CleanName, CleanId;
    assert owed[0] in owed && forall c | c in owed[1..] :: c in owed;
  }

  /** Projecting such a transcript leaves its blocks, whatever positions and queues there are on the way. */
  lemma {:induction false} FromShows(r: Rendering, st: State, messages: seq<Message>, index: nat,
                                     owed: seq<ToolCall>, changed: bool)
    requires index <= |messages| && Quiet(st) && st.pending == Awaited(r, owed)
    requires Settles(messages[index..], owed) && NamedCalls(owed) && NamedTranscript(messages[index..])
    requires st.enrichable.Some? ==> st.enrichable.value < |messages|
    ensures var p := ProjectFrom(r, st, messages, Final, index, changed);
            && p.Ok? && Quiet(p.value.state) && p.value.state.pending == []
            && (p.value.state.enrichable.Some? ==> p.value.state.enrichable.value < |messages|)
            && p.value.state.blocks == Capped(st.blocks, BlocksOf(r, messages[index..], owed))
    decreases |messages| - index
  {
    hide ProjectTerminal, ProjectResult, Settles, NamedCalls, Capped, TextBlocks, CallBlocks, Awaited, OnlyPending;
    var rest := messages[index..];
    if index == |messages| {
      assert rest == [];
      NothingOwed(r, owed);
      NothingAdded(st.blocks);
    } else {
      var at, m := SettleEnrichable(st, index), messages[index];
      assert rest[0] == m && rest[1..] == messages[index + 1..];
      TailNamed(messages, index);
      if owed != [] {
        ResultSettles(rest, owed);
        FirstAwaited(r, owed);
        ResultStep(r, at, m, owed);
        var v := ProjectResult(at, m).value;
        FromShows(r, v.(committed := index + 1), messages, index + 1, owed[1..], true);
        CappedTwice(st.blocks, [ResultShown(PayloadFor(m, owed[0]), r.title(owed[0]), m.isError)],
                    BlocksOf(r, rest[1..], owed[1..]));
      } else if m.role == "assistant" {
        CallSettles(rest);
        NothingAwaited(r);
        AssistantShows(r, at, index, m);
        DistinctOf(CallsOf(m));
        var v := ProjectTerminal(r, at, index, m).value;
        assert at.pending + Awaited(r, CallsOf(m)) == Awaited(r, CallsOf(m));
        FromShows(r, v.state.(committed := index + 1), messages, index + 1, CallsOf(m), changed || v.changed);
        CappedTwice(st.blocks, TextBlocks(r, m.content) + CallBlocks(r, CallsOf(m)),
                    BlocksOf(r, rest[1..], CallsOf(m)));
      } else {
        OtherSettles(rest);
        FromShows(r, at.(committed := index + 1), messages, index + 1, [], changed);
      }
    }
  }

  lemma ResultStep(r: Rendering, st: State, m: Message, owed: seq<ToolCall>)
    requires owed != [] && IsResultFor(m, owed[0]) && NamedCalls(owed) && st.pending == Awaited(r, owed) && Quiet(st)
    ensures var p := ProjectResult(st, m);
            && p.Ok? && Quiet(p.value) && p.value.pending == Awaited(r, owed[1..])
            && p.value.enrichable == st.enrichable
            && p.value.blocks ==
               Capped(st.blocks, [ResultShown(PayloadFor(m, owed[0]), r.title(owed[0]), m.isError)])
  {
    hide ProjectResult, Capped, Awaited, OnlyPending, NamedCalls, CleanName, CleanId, Envelope;
    FirstAwaited(r, owed);
    ResultShows(st, m, owed[0].name, PayloadFor(m, owed[0]), owed[0].id, 0);
  }

  lemma NothingOwed(r: Rendering, owed: seq<ToolCall>)
    requires Settles([], owed)
    ensures owed == [] && Awaited(r, owed) == []
  {
  }

  lemma NothingAwaited(r: Rendering)
    ensures Awaited(r, []) == []
  {
  }

  lemma DistinctOf(calls: seq<ToolCall>)
    requires NamedCalls(calls)
    ensures DistinctIds(calls)
  {
  }

  lemma TailNamed(messages: seq<Message>, index: nat)
    requires index < |messages| && NamedTranscript(messages[index..])
    ensures NamedCalls(CallsOf(messages[index])) && NamedTranscript(messages[index + 1..])
  {
    assert messages[index..][0] == messages[index];
    forall m | m in messages[index + 1..] ensures m in messages[index..] {
      var i :| 0 <= i < |messages| - index - 1 && messages[index + 1..][i] == m;
      assert messages[index..][i + 1] == m;
    }
  }

  /** A session at rest that takes over a transcript with answered messages added shows, of
      what was added, exactly its blocks: the last two hundred of everything. */
  lemma TranscriptShows(r: Rendering, st: State, messages: seq<Message>, added: seq<Message>)
    requires AtRest(st, messages) && st.pending == [] && Answered(added) && NamedTranscript(added)
    ensures Settles(added, [])
    ensures var p := ApplyTranscript(r, st, messages + added, Final);
            && p.Ok? && p.value.state.blocks == Capped(st.blocks, BlocksOf(r, added, []))
            && AtRest(p.value.state, messages + added) && p.value.state.pending == []
  {
    hide ProjectFrom, Enrich, Settles, NamedTranscript, Capped, BlocksOf;
    AddedSettles(added);
    var all, n := messages + added, |messages|;
    assert all[..n] == messages && all[n..] == added;
    NothingToEnrich(r, st, messages, added);
    NothingAwaited(r);
    assert NamedCalls([]);
    FromShows(r, st, all, n, [], st.messages != all);
    FinalCommitsAll(r, st, all, n, st.messages != all);
    if added == [] {
      assert all == messages;
      ProjectNone(r, st, all, Final, false);
      NothingAdded(st.blocks);
    }
  }

  lemma AddedSettles(added: seq<Message>)
    requires Answered(added)
    ensures Settles(added, [])
  {
    hide Awaiting;
    assert added[..0] == [] && added[0..] == added;
  }

  lemma NothingToEnrich(r: Rendering, st: State, messages: seq<Message>, added: seq<Message>)
    requires AtRest(st, messages)
    ensures Enrich(r, st, messages + added) == Ok(Applied(st, false)) && PrefixMatches(st, messages + added)
  {
    assert (messages + added)[..|messages|] == messages;
    if st.enrichable.Some? {
      assert (messages + added)[st.enrichable.value] == messages[st.enrichable.value];
    }
  }

  // ----- a message that streams, and calls that come late ---------------------------------------------

  /** While a message streams, one block shows the visible text of its last form, from the
      first form on that had any; nothing is committed yet. */
  lemma StreamedShows(r: Rendering, st: State, messages: seq<Message>, forms: seq<Message>)
    requires AtRest(st, messages) && forms != [] && forall f | f in forms :: IsText(f)
    ensures var p, last := AfterForms(r, st, messages, forms), forms[|forms| - 1];
            && p.Ok?
            && p.value.blocks == (if forall f | f in forms :: r.clean(f.content) == "" then st.blocks
                                  else Capped(st.blocks, [Block(TextBlock, r.clean(last.content), "", true)]))
            && p.value.messages == messages + [last] && p.value.committed == |messages| &&
            p.value.pending == st.pending
  {
    hide ApplyTranscript, UpsertStreaming, Streaming, Capped;
    var at, next, last := SettleEnrichable(st, |messages|), forms[0], forms[|forms| - 1];
    assert next in forms && IsText(next);
    NextMessage(r, st, messages, next, Intermediate);
    UpsertFirst(r, at, messages, next);
    StreamedForms(r, at, messages, next, r.clean(next.content) != "", forms[1..]);
    VisibleFirst(r, forms);
    assert last == if |forms| == 1 then next else forms[1..][|forms| - 2];
    StreamingShows(r, at, messages, last, SomeVisible(r, forms));
  }

  lemma StreamingShows(r: Rendering, at: State, messages: seq<Message>, last: Message, seen: bool)
    ensures var v := Streaming(r, at, messages, last, seen);
            && v.blocks == (if seen then Capped(at.blocks, [Block(TextBlock, r.clean(last.content), "", true)])
                            else at.blocks)
            && v.messages == messages + [last] && v.committed == at.committed && v.pending == at.pending
  {
  }

  /** A message is only ever enriched by calls: it is the last one committed, was committed as
      text of the assistant, and comes again with the same text behind the same messages. */
  lemma EnrichedIff(st: State, messages: seq<Message>)
    ensures CanEnrich(st, messages) <==>
            exists i :: st.enrichable == Some(i) && st.committed == i + 1 && i < |st.messages| && i < |messages| &&
              (forall k | 0 <= k < i :: messages[k] == st.messages[k]) &&
              st.messages[i].role == "assistant" == messages[i].role &&
              messages[i].content == st.messages[i].content &&
              CallsOf(st.messages[i]) == [] && CallsOf(messages[i]) != []
  {
    if CanEnrich(st, messages) {
      var i := st.enrichable.value;
      forall k | 0 <= k < i ensures messages[k] == st.messages[k] {
        assert st.messages[..i][k] == messages[..i][k];
      }
    }
  }

  /** A finished message that arrives again with the calls it made: its calls are shown then,
      and the message is kept with them. */
  lemma EnrichedShows(r: Rendering, st: State, messages: seq<Message>)
    requires CanEnrich(st, messages)
    ensures var p, i := Enrich(r, st, messages), st.enrichable.value;
            var calls := CallsOf(messages[i]);
            && (p.Err? <==> !DistinctIds(calls) || exists c, w ::
                              c in calls && w in st.pending && w.id == c.id && w.name == c.name)
            && (p.Ok? ==>
                  var v := p.value.state;
                  && v.blocks == Capped(st.blocks, CallBlocks(r, calls)) && v.pending == st.pending + Awaited(r, calls)
                  && v.messages == st.messages[i := messages[i]] && v.committed == st.committed &&
                  v.enrichable.None?)
  {
    hide PushCalls, RepeatsPending, Capped, CallBlocks, Awaited;
    var calls := CallsOf(messages[st.enrichable.value]);
    CallsShow(r, st, calls);
    RepeatsMeans(st.pending, calls);
  }

  // ----- whole checkpoints --------------------------------------------------------------------------------

  /** A checkpoint of the agent loop: the transcript is taken over unless its request is
      finalized; with events, these are applied and the session then holds the transcript as
      it was given, all of it committed. */
  lemma ToolCheckpointIs(r: Rendering, st: State, messages: seq<Message>, stage: Stage, request: Option<string>,
                         events: seq<ToolEvent>)
    ensures var p := ApplyTranscriptAndTools(r, st, messages, stage, request, events);
            var late := request.Some? && request.value in st.finalized;
            && (events == [] ==> p == if late then Ok(Applied(st, false)) else ApplyTranscript(r, st, messages, stage))
            && (events != [] && p.Ok? ==>
                  var before := if late then st else ApplyTranscript(r, st, messages, stage).value.state;
                  var after := ApplyEvents(r, before, events, false);
                  && (!late ==> ApplyTranscript(r, st, messages, stage).Ok?) && after.Ok?
                  && p.value.state.blocks == after.value.state.blocks
                  && p.value.state.pending == after.value.state.pending
                  && p.value.state.unclaimed == after.value.state.unclaimed
                  && p.value.state.messages == messages && p.value.state.committed == |messages|
                  && (after.value.changed || after.value.state.messages != messages ==> p.value.changed)
                  && Quiet(p.value.state) && p.value.state.enrichable.None?)
  {
    hide ApplyTranscript, ApplyEvent;
    var late := request.Some? && request.value in st.finalized;
    var scoped := if late then Ok(Applied(st, false)) else ApplyTranscript(r, st, messages, stage);
    if scoped.Ok? {
      EventsSameState(r, scoped.value.state, events, scoped.value.changed);
    }
  }

  lemma {:induction false} EventsSameState(r: Rendering, st: State, events: seq<ToolEvent>, changed: bool)
    ensures var a, b := ApplyEvents(r, st, events, changed), ApplyEvents(r, st, events, false);
            && a.Ok? == b.Ok?
            && (a.Ok? ==> a.value.state == b.value.state && a.value.changed == (changed || b.value.changed))
    decreases |events|
  {
    hide ApplyEvent;
    if events != [] {
      var e := ApplyEvent(r, st, events[0]);
      if e.Ok? {
        EventsSameState(r, e.value.state, events[1..], changed || e.value.changed);
        EventsSameState(r, e.value.state, events[1..], false || e.value.changed);
      }
    }
  }

  /** The checkpoint that ends a request: its accounting first; its transcript must end with
      the assistant, and is taken over as final the first time, after which the request is finalized. */
  lemma RequestCheckpointIs(r: Rendering, st: State, c: RequestCheckpoint)
    ensures var p, recorded, ms := ApplyRequest(r, st, c), Recorded(st, c.request), c.transcript;
            if recorded.0.Err? then p.Err?
            else if ms.None? then p == Ok(Applied(recorded.1, recorded.0.value))
            else if ms.value == [] || ms.value[|ms.value| - 1].role != "assistant" then p.Err?
            else if c.request.requestId in st.finalized then p == Ok(Applied(recorded.1, recorded.0.value))
            else
              var taken := ApplyTranscript(r, recorded.1, ms.value, Final);
              && p.Ok? == taken.Ok?
              && (p.Ok? ==> p.value.changed &&
                            p.value.state == taken.value.state.(
                              finalized := taken.value.state.finalized + {c.request.requestId}))
  {
    hide ApplyTranscript, Record, TurnTotals;
  }
}
