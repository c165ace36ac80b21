/** Repairing a conversation in which tool calls were interrupted: every call that has
    no result gets one that says so. */
module InterruptedCalls {
  import opened Text
  import opened Messages
  import opened ContextTrim
  import opened ToolResults

  const INTERRUPTED_TOOL_RESULT :=
    "Tool execution was interrupted before a durable result was recorded. " +
    "The operation may have partially completed; inspect current state before deciding whether to retry."

  function CallsOf(m: Message): seq<ToolCall> {
    if m.role == "assistant" && m.toolCalls.Some? then m.toolCalls.value else []
  }

  /** How many results follow the first message. */
  function RunEnd(ms: seq<Message>): (e: nat)
    requires ms != []
    ensures 1 <= e <= |ms|
    ensures forall k | 1 <= k < e :: IsTool(ms[k])
    ensures e < |ms| ==> !IsTool(ms[e])
  {
    ToolsFrom(ms, 1, |ms|)
  }

  function ResultId(m: Message): Option<string> {
    var f := ExtractFields(m.content);
    if f.Some? then Some(f.value.id) else None
  }

  /** The identifiers the results name. */
  function CompletedIds(results: seq<Message>): set<string> {
    if results == [] then {}
    else CompletedIds(results[..|results| - 1]) +
         (if ResultId(results[|results| - 1]).Some? then {ResultId(results[|results| - 1]).value} else {})
  }

  function InterruptedResult(call: ToolCall): Message {
    Message("tool", Envelope(call.name, INTERRUPTED_TOOL_RESULT, call.id), None, None, true)
  }

  function Missing(calls: seq<ToolCall>, completed: set<string>): seq<Message> {
    if calls == [] then []
    else Missing(calls[..|calls| - 1], completed) +
         (if calls[|calls| - 1].id in completed then [] else [InterruptedResult(calls[|calls| - 1])])
  }

  datatype Entry = Kept(message: Message) | Added(message: Message)

  function KeptAll(ms: seq<Message>): seq<Entry> {
    seq(|ms|, i requires 0 <= i < |ms| => Kept(ms[i]))
  }

  function AddedAll(ms: seq<Message>): seq<Entry> {
    seq(|ms|, i requires 0 <= i < |ms| => Added(ms[i]))
  }

  /** The repaired conversation, each message marked as an original or as added. */
  function Repair(ms: seq<Message>): seq<Entry>
    decreases |ms|
  {
    if ms == [] then []
    else if CallsOf(ms[0]) == [] then [Kept(ms[0])] + Repair(ms[1..])
    else
      var e := RunEnd(ms);
      KeptAll(ms[..e]) + AddedAll(Missing(CallsOf(ms[0]), CompletedIds(ms[1..e]))) + Repair(ms[e..])
  }

  function MessagesOf(entries: seq<Entry>): seq<Message> {
    seq(|entries|, i requires 0 <= i < |entries| => entries[i].message)
  }

  function Originals(entries: seq<Entry>): seq<Message> {
    if entries == [] then [] else (if entries[0].Kept? then [entries[0].message] else []) + Originals(entries[1..])
  }

  // ----- the originals stay -----------------------------------------------------------

  lemma {:induction false} OriginalsConcat(a: seq<Entry>, b: seq<Entry>)
    ensures Originals(a + b) == Originals(a) + Originals(b)
    decreases |a|
  {
    if a == [] {
      assert a + b == b;
    } else {
      assert (a + b)[1..] == a[1..] + b && (a + b)[0] == a[0];
      OriginalsConcat(a[1..], b);
      ConcatAssociates(if a[0].Kept? then [a[0].message] else [], Originals(a[1..]), Originals(b));
    }
  }

  lemma {:induction false} OriginalsOfKept(ms: seq<Message>)
    ensures Originals(KeptAll(ms)) == ms
  {
    if ms != [] {
      assert KeptAll(ms)[1..] == KeptAll(ms[1..]);
      OriginalsOfKept(ms[1..]);
    }
  }

  lemma {:induction false} OriginalsOfAdded(ms: seq<Message>)
    ensures Originals(AddedAll(ms)) == []
  {
    if ms != [] {
      assert AddedAll(ms)[1..] == AddedAll(ms[1..]);
      OriginalsOfAdded(ms[1..]);
    }
  }

  lemma OriginalsOfRun(head: seq<Message>, added: seq<Message>, rest: seq<Entry>)
    ensures Originals(KeptAll(head) + AddedAll(added) + rest) == head + Originals(rest)
  {
    hide Originals, KeptAll, AddedAll;
    OriginalsConcat(KeptAll(head) + AddedAll(added), rest);
    OriginalsConcat(KeptAll(head), AddedAll(added));
    OriginalsOfKept(head);
    OriginalsOfAdded(added);
  }

  /** Without what was added, the repaired conversation is the original one, in order. */
  lemma {:induction false} OriginalsPreserved(ms: seq<Message>)
    ensures Originals(Repair(ms)) == ms
    decreases |ms|
  {
    if ms != [] {
      hide Originals, KeptAll, AddedAll, Missing, CompletedIds, RunEnd, CallsOf;
      if CallsOf(ms[0]) == [] {
        OriginalsPreserved(ms[1..]);
        OriginalsFirst(ms[0], Repair(ms[1..]));
        assert ms == [ms[0]] + ms[1..];
      } else {
        var e := RunEnd(ms);
        OriginalsPreserved(ms[e..]);
        OriginalsOfRun(ms[..e], Missing(CallsOf(ms[0]), CompletedIds(ms[1..e])), Repair(ms[e..]));
        assert ms[..e] + ms[e..] == ms;
      }
    } else {
      NoOriginals();
    }
  }

  lemma OriginalsFirst(m: Message, rest: seq<Entry>)
    ensures Originals([Kept(m)] + rest) == [m] + Originals(rest)
  {
    assert ([Kept(m)] + rest)[1..] == rest;
  }

  lemma NoOriginals()
    ensures Originals([]) == []
  {
  }

  // ----- every call is answered ----------------------------------------------------------

  /** Each call is answered, by its identifier, among the results that follow its message. */
  ghost predicate Answered(ms: seq<Message>)
    decreases |ms|
  {
    ms == [] ||
    if CallsOf(ms[0]) == [] then Answered(ms[1..])
    else
      (forall c | c in CallsOf(ms[0]) :: c.id in CompletedIds(ms[1..RunEnd(ms)])) && Answered(ms[RunEnd(ms)..])
  }

  ghost predicate CleanCalls(ms: seq<Message>) {
    forall m, c | m in ms && c in CallsOf(m) :: CleanId(c.id)
  }

  lemma {:induction false} CompletedMeans(results: seq<Message>, id: string)
    ensures id in CompletedIds(results) <==> exists m :: m in results && ResultId(m) == Some(id)
  {
    if results != [] {
      var n := |results| - 1;
      CompletedMeans(results[..n], id);
      assert results == results[..n] + [results[n]];
    }
  }

  lemma CompletedConcat(a: seq<Message>, b: seq<Message>)
    ensures CompletedIds(a + b) == CompletedIds(a) + CompletedIds(b)
  {
    forall id
      ensures id in CompletedIds(a + b) <==> id in CompletedIds(a) + CompletedIds(b)
    {
      CompletedMeans(a + b, id);
      CompletedMeans(a, id);
      CompletedMeans(b, id);
    }
  }

  lemma CompletedClean(results: seq<Message>)
    ensures forall id | id in CompletedIds(results) :: CleanId(id)
  {
    forall id | id in CompletedIds(results) ensures CleanId(id) {
      CompletedMeans(results, id);
      var m :| m in results && ResultId(m) == Some(id);
      OnlyCleanIdsAreRead(m.content);
    }
  }

  lemma InterruptedReads(call: ToolCall)
    ensures ResultId(InterruptedResult(call)) == Some(call.id) <==> CleanId(call.id)
  {
    hide ExtractFields, CleanId, Envelope;
    IdRoundTripsIff(call.name, INTERRUPTED_TOOL_RESULT, call.id);
  }

  lemma {:induction false} MissingMeans(calls: seq<ToolCall>, completed: set<string>)
    ensures forall m | m in Missing(calls, completed) :: exists c ::
              c in calls && c.id !in completed &&
              m == InterruptedResult(c)
    ensures forall c | c in calls && c.id !in completed :: InterruptedResult(c) in Missing(calls, completed)
    ensures forall m | m in Missing(calls, completed) :: IsTool(m)
  {
    hide InterruptedResult;
    if calls != [] {
      var n := |calls| - 1;
      MissingMeans(calls[..n], completed);
      assert calls == calls[..n] + [calls[n]];
      InterruptedIsTool(calls[n]);
    }
  }

  lemma InterruptedIsTool(call: ToolCall)
    ensures IsTool(InterruptedResult(call))
  {
  }

  /** A call is answered after the repair if and only if its identifier is clean. */
  lemma CallAnsweredIff(calls: seq<ToolCall>, results: seq<Message>, c: ToolCall)
    requires c in calls
    ensures c.id in CompletedIds(results + Missing(calls, CompletedIds(results))) <==> CleanId(c.id)
  {
    hide CleanId, InterruptedResult, Missing;
    var completed := CompletedIds(results);
    var added := Missing(calls, completed);
    CompletedConcat(results, added);
    CompletedClean(results + added);
    MissingMeans(calls, completed);
    InterruptedReads(c);
    CompletedMeans(added, c.id);
  }

  lemma MessagesConcat(a: seq<Entry>, b: seq<Entry>)
    ensures MessagesOf(a + b) == MessagesOf(a) + MessagesOf(b)
  {
  }

  lemma RepairParts(ms: seq<Message>)
    requires ms != [] && CallsOf(ms[0]) != []
    ensures var e := RunEnd(ms);
            MessagesOf(Repair(ms)) == ms[..e] + Missing(CallsOf(ms[0]), CompletedIds(ms[1..e])) +
                MessagesOf(Repair(ms[e..]))
  {
    hide Missing, CompletedIds;
    var e := RunEnd(ms);
    var added := Missing(CallsOf(ms[0]), CompletedIds(ms[1..e]));
    MessagesConcat(KeptAll(ms[..e]) + AddedAll(added), Repair(ms[e..]));
    MessagesConcat(KeptAll(ms[..e]), AddedAll(added));
    assert MessagesOf(KeptAll(ms[..e])) == ms[..e] && MessagesOf(AddedAll(added)) == added;
  }

  lemma RunShape(head: seq<Message>, added: seq<Message>, tail: seq<Message>)
    requires head != [] && (forall k | 1 <= k < |head| :: IsTool(head[k])) && (forall m | m in added :: IsTool(m))
    requires tail != [] ==> !IsTool(tail[0])
    ensures var r := head + added + tail;
            && RunEnd(r) == |head| + |added|
            && r[1..RunEnd(r)] == head[1..] + added && r[RunEnd(r)..] == tail
  {
    var r := head + added + tail;
    forall k | 1 <= k < |head| + |added| ensures IsTool(r[k]) {
      if k >= |head| {
        assert r[k] == added[k - |head|];
      }
    }
    ToolsEnd(r, 1, |head| + |added|);
  }

  /** The shape of a repaired conversation that starts with calls. */
  lemma RepairShape(ms: seq<Message>)
    requires ms != [] && CallsOf(ms[0]) != []
    ensures var e, r := RunEnd(ms), MessagesOf(Repair(ms));
            var added := Missing(CallsOf(ms[0]), CompletedIds(ms[1..e]));
            && r == ms[..e] + added + MessagesOf(Repair(ms[e..]))
            && |r| > 0 && r[0] == ms[0]
            && RunEnd(r) == e + |added|
            && r[1..RunEnd(r)] == ms[1..e] + added && r[RunEnd(r)..] == MessagesOf(Repair(ms[e..]))
  {
    hide Missing, CompletedIds, Repair, MessagesOf;
    RepairParts(ms);
    MissingMeans(CallsOf(ms[0]), CompletedIds(ms[1..RunEnd(ms)]));
    RepairStartsAlike(ms[RunEnd(ms)..]);
    RunShape(ms[..RunEnd(ms)], Missing(CallsOf(ms[0]), CompletedIds(ms[1..RunEnd(ms)])),
        MessagesOf(Repair(ms[RunEnd(ms)..])));
    assert ms[..RunEnd(ms)][1..] == ms[1..RunEnd(ms)];
  }

  lemma {:induction false} ToolsEnd(ms: seq<Message>, i: nat, e: nat)
    requires i <= e <= |ms| && (forall k | i <= k < e :: IsTool(ms[k])) && (e < |ms| ==> !IsTool(ms[e]))
    ensures ToolsFrom(ms, i, |ms|) == e
    decreases e - i
  {
    if i < e {
      ToolsEnd(ms, i + 1, e);
    }
  }

  lemma RepairStartsAlike(ms: seq<Message>)
    ensures |MessagesOf(Repair(ms))| > 0 <==> ms != []
    ensures ms != [] ==> MessagesOf(Repair(ms))[0] == ms[0]
  {
    if ms != [] && CallsOf(ms[0]) != [] {
      assert Repair(ms)[0] == Kept(ms[0]);
    }
  }

  /** A repaired conversation has an answer to every call exactly when no call has an
      identifier that cannot be read back. */
  lemma {:induction false} RepairedIsAnsweredIff(ms: seq<Message>)
    ensures Answered(MessagesOf(Repair(ms))) <==> CleanCalls(ms)
    decreases |ms|
  {
    hide CleanId, Missing, CompletedIds;
    var r := MessagesOf(Repair(ms));
    if ms != [] {
      if CallsOf(ms[0]) == [] {
        assert r == [ms[0]] + MessagesOf(Repair(ms[1..]));
        assert ms == [ms[0]] + ms[1..];
        RepairedIsAnsweredIff(ms[1..]);
      } else {
        var e := RunEnd(ms);
        RepairShape(ms);
        RepairedIsAnsweredIff(ms[e..]);
        forall c | c in CallsOf(ms[0])
          ensures c.id in CompletedIds(r[1..RunEnd(r)]) <==> CleanId(c.id)
        {
          CallAnsweredIff(CallsOf(ms[0]), ms[1..e], c);
        }
        CallsSplit(ms, e);
      }
    }
  }

  lemma CallsSplit(ms: seq<Message>, e: nat)
    requires ms != [] && 1 <= e <= |ms| && forall k | 1 <= k < e :: IsTool(ms[k])
    ensures CleanCalls(ms) <==> (forall c | c in CallsOf(ms[0]) :: CleanId(c.id)) && CleanCalls(ms[e..])
  {
    hide CleanId;
    assert forall m | m in ms :: m == ms[0] || IsTool(m) || m in ms[e..];
    assert forall m | m in ms[e..] :: m in ms;
  }

  // ----- repairing again -------------------------------------------------------------------

  lemma {:induction false} NothingMissing(calls: seq<ToolCall>, completed: set<string>)
    ensures Missing(calls, completed) == [] <==> forall c | c in calls :: c.id in completed
  {
    hide InterruptedResult;
    if calls != [] {
      var n := |calls| - 1;
      NothingMissing(calls[..n], completed);
      assert calls == calls[..n] + [calls[n]];
    }
  }

  lemma {:induction false} AnsweredNeedsNoRepair(ms: seq<Message>)
    ensures MessagesOf(Repair(ms)) == ms <==> Answered(ms)
    decreases |ms|
  {
    hide Missing, CompletedIds;
    var r := MessagesOf(Repair(ms));
    if ms != [] {
      if CallsOf(ms[0]) == [] {
        assert r == [ms[0]] + MessagesOf(Repair(ms[1..]));
        assert ms == [ms[0]] + ms[1..];
        AnsweredNeedsNoRepair(ms[1..]);
        assert r == ms <==> r[1..] == ms[1..];
      } else {
        var e := RunEnd(ms);
        var added := Missing(CallsOf(ms[0]), CompletedIds(ms[1..e]));
        RepairParts(ms);
        AnsweredNeedsNoRepair(ms[e..]);
        NothingMissing(CallsOf(ms[0]), CompletedIds(ms[1..e]));
        RepairNotShorter(ms[e..]);
        SameSplit(ms, e, added, MessagesOf(Repair(ms[e..])));
      }
    }
  }

  lemma SameSplit(ms: seq<Message>, e: nat, added: seq<Message>, rest: seq<Message>)
    requires e <= |ms| && |rest| >= |ms| - e
    ensures ms[..e] + added + rest == ms <==> added == [] && rest == ms[e..]
  {
    var r := ms[..e] + added + rest;
    if added == [] {
      assert r[e..] == rest && r[..e] == ms[..e];
    }
    assert ms == ms[..e] + ms[e..];
  }

  lemma {:induction false} RepairNotShorter(ms: seq<Message>)
    ensures |MessagesOf(Repair(ms))| >= |ms|
    decreases |ms|
  {
    if ms != [] {
      RepairNotShorter(if CallsOf(ms[0]) == [] then ms[1..] else ms[RunEnd(ms)..]);
    }
  }

  /** A second repair inserts nothing exactly when no call has an identifier that cannot be read back. */
  lemma SecondRepairIff(ms: seq<Message>)
    ensures var r := MessagesOf(Repair(ms)); MessagesOf(Repair(r)) == r <==> CleanCalls(ms)
  {
    RepairedIsAnsweredIff(ms);
    AnsweredNeedsNoRepair(MessagesOf(Repair(ms)));
  }

  ghost predicate AnsweredAt(ms: seq<Message>, i: nat, k: nat, id: string) {
    i < k < |ms| && ResultId(ms[k]) == Some(id) && forall x | i < x <= k :: IsTool(ms[x])
  }

  lemma FirstAnswered(ms: seq<Message>, id: string)
    requires ms != [] && id in CompletedIds(ms[1..RunEnd(ms)])
    ensures exists k :: AnsweredAt(ms, 0, k, id)
  {
    hide ResultId;
    var e := RunEnd(ms);
    CompletedMeans(ms[1..e], id);
    var m :| m in ms[1..e] && ResultId(m) == Some(id);
    var j :| 0 <= j < e - 1 && ms[1..e][j] == m;
    assert AnsweredAt(ms, 0, j + 1, id);
  }

  lemma AnsweredShift(ms: seq<Message>, n: nat, i: nat, k: nat, id: string)
    requires n <= i <= |ms| && k + n >= n && AnsweredAt(ms[n..], i - n, k, id)
    ensures AnsweredAt(ms, i, k + n, id)
  {
    forall x | i < x <= k + n ensures IsTool(ms[x]) {
      assert ms[x] == ms[n..][x - n];
    }
  }

  /** What being answered means: the result stands among those right after the call. */
  lemma {:induction false} AnsweredMeans(ms: seq<Message>, i: nat, c: ToolCall)
    requires Answered(ms) && i < |ms| && c in CallsOf(ms[i])
    ensures exists k :: AnsweredAt(ms, i, k, c.id)
    decreases |ms|
  {
    hide CompletedIds, AnsweredAt;
    if i == 0 {
      FirstAnswered(ms, c.id);
    } else {
      var n := if CallsOf(ms[0]) == [] then 1 else RunEnd(ms);
      assert forall x | 1 <= x < n :: IsTool(ms[x]);
      AnsweredMeans(ms[n..], i - n, c);
      var k :| AnsweredAt(ms[n..], i - n, k, c.id);
      AnsweredShift(ms, n, i, k, c.id);
    }
  }

  lemma NoneCompleted()
    ensures CompletedIds([]) == {}
  {
  }

  lemma CompletedNext(results: seq<Message>, m: Message)
    ensures CompletedIds(results + [m]) == CompletedIds(results) + if ResultId(m).Some? then {ResultId(m).value} else {}
  {
    assert (results + [m])[..|results + [m]| - 1] == results;
  }

  method CollectResults(ms: seq<Message>, start: nat) returns (index: nat, completed: set<string>)
    requires 1 <= start <= |ms|
    ensures index == ToolsFrom(ms, start, |ms|)
    ensures completed == CompletedIds(ms[start..index])
  {
    hide ResultId, CompletedIds;
    index, completed := start, {};
    NoneCompleted();
    assert ms[start..start] == [];
    while index < |ms| && IsTool(ms[index])
      invariant start <= index <= |ms| && ToolsFrom(ms, start, |ms|) == ToolsFrom(ms, index, |ms|)
      invariant completed == CompletedIds(ms[start..index])
    {
      assert ms[start..index + 1] == ms[start..index] + [ms[index]];
      CompletedNext(ms[start..index], ms[index]);
      var id := ResultId(ms[index]);
      if id.Some? {
        completed := completed + {id.value};
      }
      index := index + 1;
    }
  }

  // ----- what was inserted -------------------------------------------------------------------

  /** The calls that have no result. */
  function MissingCalls(calls: seq<ToolCall>, completed: set<string>): seq<ToolCall> {
    if calls == [] then []
    else
      MissingCalls(calls[..|calls| - 1], completed) +
      (if calls[|calls| - 1].id in completed then [] else [calls[|calls| - 1]])
  }

  /** The calls of a conversation that the repair answers, in order. */
  function RepairedCalls(ms: seq<Message>): seq<ToolCall>
    decreases |ms|
  {
    if ms == [] then []
    else if CallsOf(ms[0]) == [] then RepairedCalls(ms[1..])
    else MissingCalls(CallsOf(ms[0]), CompletedIds(ms[1..RunEnd(ms)])) + RepairedCalls(ms[RunEnd(ms)..])
  }

  function ResultsOf(calls: seq<ToolCall>): seq<Message> {
    seq(|calls|, i requires 0 <= i < |calls| => InterruptedResult(calls[i]))
  }

  function Insertions(entries: seq<Entry>): seq<Message> {
    if entries == [] then [] else (if entries[0].Added? then [entries[0].message] else []) + Insertions(entries[1..])
  }

  lemma {:induction false} MissingAreResults(calls: seq<ToolCall>, completed: set<string>)
    ensures Missing(calls, completed) == ResultsOf(MissingCalls(calls, completed))
  {
    if calls != [] {
      MissingAreResults(calls[..|calls| - 1], completed);
    }
  }

  lemma {:induction false} InsertionsConcat(a: seq<Entry>, b: seq<Entry>)
    ensures Insertions(a + b) == Insertions(a) + Insertions(b)
    decreases |a|
  {
    if a == [] {
      assert a + b == b;
    } else {
      assert (a + b)[1..] == a[1..] + b && (a + b)[0] == a[0];
      InsertionsConcat(a[1..], b);
      ConcatAssociates(if a[0].Added? then [a[0].message] else [], Insertions(a[1..]), Insertions(b));
    }
  }

  lemma {:induction false} InsertionsOfKept(ms: seq<Message>)
    ensures Insertions(KeptAll(ms)) == []
  {
    if ms != [] {
      assert KeptAll(ms)[1..] == KeptAll(ms[1..]);
      InsertionsOfKept(ms[1..]);
    }
  }

  lemma {:induction false} InsertionsOfAdded(ms: seq<Message>)
    ensures Insertions(AddedAll(ms)) == ms
  {
    if ms != [] {
      assert AddedAll(ms)[1..] == AddedAll(ms[1..]);
      InsertionsOfAdded(ms[1..]);
    }
  }

  lemma InsertionsOfRun(head: seq<Message>, added: seq<Message>, rest: seq<Entry>)
    ensures Insertions(KeptAll(head) + AddedAll(added) + rest) == added + Insertions(rest)
  {
    hide Insertions, KeptAll, AddedAll;
    InsertionsConcat(KeptAll(head) + AddedAll(added), rest);
    InsertionsConcat(KeptAll(head), AddedAll(added));
    InsertionsOfKept(head);
    InsertionsOfAdded(added);
  }

  lemma KeptIsNoInsertion(m: Message)
    ensures Insertions([Kept(m)]) == []
  {
  }

  lemma ResultsConcat(a: seq<ToolCall>, b: seq<ToolCall>)
    ensures ResultsOf(a + b) == ResultsOf(a) + ResultsOf(b)
  {
  }

  lemma NoResults()
    ensures ResultsOf([]) == [] && Insertions([]) == []
  {
  }

  lemma {:induction false} InsertionsAre(ms: seq<Message>)
    ensures Insertions(Repair(ms)) == ResultsOf(RepairedCalls(ms))
    decreases |ms|
  {
    if ms != [] {
      hide Insertions, KeptAll, AddedAll, Missing, MissingCalls, CompletedIds, RunEnd, CallsOf, ResultsOf;
      if CallsOf(ms[0]) == [] {
        InsertionsAre(ms[1..]);
        InsertionsConcat([Kept(ms[0])], Repair(ms[1..]));
        KeptIsNoInsertion(ms[0]);
      } else {
        var e := RunEnd(ms);
        var missing := MissingCalls(CallsOf(ms[0]), CompletedIds(ms[1..e]));
        InsertionsAre(ms[e..]);
        InsertionsOfRun(ms[..e], Missing(CallsOf(ms[0]), CompletedIds(ms[1..e])), Repair(ms[e..]));
        MissingAreResults(CallsOf(ms[0]), CompletedIds(ms[1..e]));
        ResultsConcat(missing, RepairedCalls(ms[e..]));
      }
    } else {
      NoResults();
    }
  }

  /** What the repair inserts is, for each of the calls it reports and in that order, a result
      under its name and identifier that says it was interrupted, marked as an error. */
  lemma InsertionsAreReported(ms: seq<Message>)
    ensures var added, calls := Insertions(Repair(ms)), RepairedCalls(ms);
            && |added| == |calls|
            && forall k | 0 <= k < |calls| ::
                 added[k] == Message("tool", Envelope(calls[k].name, INTERRUPTED_TOOL_RESULT, calls[k].id), None, None,
                                     true)
  {
    InsertionsAre(ms);
  }

  /** Of the calls of a message those without a result are reported, in order, as often as they occur. */
  lemma {:induction false} MissingAre(calls: seq<ToolCall>, completed: set<string>)
    ensures forall c :: multiset(MissingCalls(calls, completed))[c] ==
                        if c.id in completed then 0 else multiset(calls)[c]
  {
    if calls != [] {
      var n := |calls| - 1;
      MissingAre(calls[..n], completed);
      assert calls == calls[..n] + [calls[n]];
    }
  }

  // ----- the repair as it runs -----------------------------------------------------------------

  /** What is reported of an inserted result. */
  datatype Detail = Detail(functionName: string, arguments: string)

  function DetailsOf(calls: seq<ToolCall>): seq<Detail> {
    seq(|calls|, i requires 0 <= i < |calls| => Detail(calls[i].name, calls[i].arguments))
  }

  method MissingResults(calls: seq<ToolCall>, completed: set<string>)
    returns (added: seq<Message>, details: seq<Detail>)
    ensures added == Missing(calls, completed) && details == DetailsOf(MissingCalls(calls, completed))
    ensures |added| == |details|
  {
    added, details := [], [];
    for n := 0 to |calls|
      invariant added == Missing(calls[..n], completed) && details == DetailsOf(MissingCalls(calls[..n], completed))
      invariant |added| == |details|
    {
      assert calls[..n + 1][..n] == calls[..n];
      if calls[n].id !in completed {
        added := added + [InterruptedResult(calls[n])];
        details := details + [Detail(calls[n].name, calls[n].arguments)];
      }
    }
    assert calls[..|calls|] == calls;
  }

  lemma DetailsConcat(a: seq<ToolCall>, b: seq<ToolCall>)
    ensures DetailsOf(a + b) == DetailsOf(a) + DetailsOf(b)
  {
  }

  lemma RepairedCallsParts(ms: seq<Message>, index: nat, end: nat)
    requires index < |ms| && CallsOf(ms[index]) != [] && end == index + RunEnd(ms[index..]) && end <= |ms|
    ensures RepairedCalls(ms[index..]) ==
            MissingCalls(CallsOf(ms[index]), CompletedIds(ms[index + 1..end])) + RepairedCalls(ms[end..])
  {
    hide CompletedIds, MissingCalls, RunEnd;
    var rest := ms[index..];
    assert rest[1..end - index] == ms[index + 1..end] && rest[end - index..] == ms[end..];
  }

  method RepairInterruptedToolCalls(ms: seq<Message>) returns (repaired: seq<Message>, inserted: seq<Detail>)
    ensures repaired == MessagesOf(Repair(ms)) && |repaired| == |ms| + |inserted|
    ensures inserted == DetailsOf(RepairedCalls(ms))
  {
    hide CompletedIds, Missing, MissingCalls, RepairedCalls, DetailsOf, Repair, MessagesOf, ToolsFrom, CallsOf;
    repaired, inserted := [], [];
    var index := 0;
    assert ms[0..] == ms;
    while index < |ms|
      invariant index <= |ms| && |repaired| == index + |inserted|
      invariant repaired + MessagesOf(Repair(ms[index..])) == MessagesOf(Repair(ms))
      invariant inserted + DetailsOf(RepairedCalls(ms[index..])) == DetailsOf(RepairedCalls(ms))
    {
      ghost var rest := ms[index..];
      assert rest[0] == ms[index] && rest[1..] == ms[index + 1..];
      var calls := CallsOf(ms[index]);
      if calls == [] {
        NoCallsStep(repaired, rest);
        NoCallsReported(rest);
        repaired := repaired + [ms[index]];
        index := index + 1;
      } else {
        var end, completed := CollectResults(ms, index + 1);
        var added, details := MissingResults(calls, completed);
        RunAt(ms, index);
        CallsStep(repaired, ms, index, end);
        RepairedCallsParts(ms, index, end);
        DetailsConcat(MissingCalls(calls, completed), RepairedCalls(ms[end..]));
        ConcatAssociates(inserted, details, DetailsOf(RepairedCalls(ms[end..])));
        repaired := repaired + ms[index..end] + added;
        inserted := inserted + details;
        index := end;
      }
    }
    NothingToRepair();
    assert ms[index..] == [];
  }

  lemma NothingToRepair()
    ensures MessagesOf(Repair([])) == [] && DetailsOf(RepairedCalls([])) == []
  {
  }

  lemma NoCallsReported(ms: seq<Message>)
    requires ms != [] && CallsOf(ms[0]) == []
    ensures RepairedCalls(ms) == RepairedCalls(ms[1..])
  {
  }

  lemma CallsStep(repaired: seq<Message>, ms: seq<Message>, index: nat, end: nat)
    requires index < |ms| && CallsOf(ms[index]) != [] && end == index + RunEnd(ms[index..]) && end <= |ms|
    ensures repaired + MessagesOf(Repair(ms[index..])) ==
            repaired + ms[index..end] + Missing(CallsOf(ms[index]), CompletedIds(ms[index + 1..end])) +
                MessagesOf(Repair(ms[end..]))
  {
    hide CompletedIds, Missing, Repair, MessagesOf, RunEnd;
    var rest := ms[index..];
    RepairParts(rest);
    assert rest[1..end - index] == ms[index + 1..end] && rest[..end - index] == ms[index..end] &&
           rest[end - index..] == ms[end..];
    var added := Missing(CallsOf(ms[index]), CompletedIds(ms[index + 1..end]));
    ConcatAssociates(repaired, ms[index..end] + added, MessagesOf(Repair(ms[end..])));
    ConcatAssociates(repaired, ms[index..end], added);
  }

  lemma NoCallsStep(repaired: seq<Message>, rest: seq<Message>)
    requires rest != [] && CallsOf(rest[0]) == []
    ensures repaired + MessagesOf(Repair(rest)) == repaired + [rest[0]] + MessagesOf(Repair(rest[1..]))
  {
    hide Repair, MessagesOf;
    RepairSkips(rest);
    MessagesConcat([Kept(rest[0])], Repair(rest[1..]));
    KeptShows(rest[0]);
    ConcatAssociates(repaired, [rest[0]], MessagesOf(Repair(rest[1..])));
  }

  lemma RepairSkips(rest: seq<Message>)
    requires rest != [] && CallsOf(rest[0]) == []
    ensures Repair(rest) == [Kept(rest[0])] + Repair(rest[1..])
  {
    hide CallsOf;
  }

  lemma KeptShows(m: Message)
    ensures MessagesOf([Kept(m)]) == [m]
  {
  }

  lemma RunAt(ms: seq<Message>, index: nat)
    requires index < |ms|
    ensures ToolsFrom(ms, index + 1, |ms|) == index + RunEnd(ms[index..])
  {
    var e := RunEnd(ms[index..]);
    ToolsEnd(ms, index + 1, index + e);
  }
}
