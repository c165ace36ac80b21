/** Results told apart by identifier: when every call of a request has exactly one. */
module AnsweredCalls {
  import opened Text
  import opened Decimals
  import opened Messages
  import opened ContextTrim
  import opened ToolResults
  import opened Transcripts
  import opened UniqueIds
  import opened AgentLoop
  import InterruptedCalls

  /** `m` reads back as a result for the identifier. */
  predicate Names(m: Message, id: string) {
    InterruptedCalls.ResultId(m) == Some(id)
  }

  function CountNaming(ms: seq<Message>, id: string): nat {
    if ms == [] then 0 else (if Names(ms[0], id) then 1 else 0) + CountNaming(ms[1..], id)
  }

  /** Identifiers that are distinct, and that a result can carry. */
  predicate ClearBatch(calls: seq<ToolCall>) {
    DistinctIds(calls) && forall c | c in calls :: CleanId(c.id)
  }

  /** The tool messages right after the call at `i`. */
  function ResultRun(ms: seq<Message>, i: nat): seq<Message>
    requires i < |ms|
  {
    ms[i + 1..ToolsFrom(ms, i + 1, |ms|)]
  }

  /** Every call of the message at `i` has exactly one result with its identifier among the
      tool messages right after it. */
  ghost predicate EachAnsweredOnce(ms: seq<Message>, i: nat)
    requires i < |ms| && IsCall(ms[i])
  {
    forall c | c in ms[i].toolCalls.value :: CountNaming(ResultRun(ms, i), c.id) == 1
  }

  // ----- counting ---------------------------------------------------------------------------

  lemma {:induction false} CountNone(ms: seq<Message>, id: string)
    requires forall k | 0 <= k < |ms| :: !Names(ms[k], id)
    ensures CountNaming(ms, id) == 0
  {
    if ms != [] {
      CountNone(ms[1..], id);
    }
  }

  lemma {:induction false} CountOnce(ms: seq<Message>, id: string, k: nat)
    requires k < |ms| && Names(ms[k], id) && forall j | 0 <= j < |ms| && j != k :: !Names(ms[j], id)
    ensures CountNaming(ms, id) == 1
  {
    if k == 0 {
      CountNone(ms[1..], id);
    } else {
      CountOnce(ms[1..], id, k - 1);
    }
  }

  lemma {:induction false} CountSome(ms: seq<Message>, id: string, k: nat)
    requires k < |ms| && Names(ms[k], id)
    ensures CountNaming(ms, id) >= 1
  {
    if k > 0 {
      CountSome(ms[1..], id, k - 1);
    }
  }

  lemma {:induction false} CountTwice(ms: seq<Message>, id: string, j: nat, k: nat)
    requires j < k < |ms| && Names(ms[j], id) && Names(ms[k], id)
    ensures CountNaming(ms, id) >= 2
  {
    if j == 0 {
      CountSome(ms[1..], id, k - 1);
    } else {
      CountTwice(ms[1..], id, j - 1, k - 1);
    }
  }

  // ----- one message with calls ----------------------------------------------------------------

  lemma ResultNames(m: Message, call: ToolCall)
    requires IsResultFor(m, call)
    ensures Names(m, call.id) <==> CleanId(call.id)
    ensures CleanId(call.id) ==> forall id :: Names(m, id) <==> id == call.id
  {
    var payload :| m.content == Envelope(call.name, payload, call.id);
    IdRoundTripsIff(call.name, payload, call.id);
  }

  lemma NamedIsClean(m: Message, id: string)
    requires Names(m, id)
    ensures CleanId(id)
  {
    OnlyCleanIdsAreRead(m.content);
  }

  lemma ResultsNameOnceIff(run: seq<Message>, calls: seq<ToolCall>)
    requires ResultsFor(run, calls)
    ensures (forall c | c in calls :: CountNaming(run, c.id) == 1) <==> ClearBatch(calls)
  {
    hide IsResultFor, CountNaming, Names, CleanId;
    if ClearBatch(calls) {
      forall k | 0 <= k < |calls| ensures CountNaming(run, calls[k].id) == 1 {
        forall j | 0 <= j < |run| ensures Names(run[j], calls[k].id) <==> j == k {
          assert calls[j] in calls;
          ResultNames(run[j], calls[j]);
        }
        CountOnce(run, calls[k].id, k);
      }
    } else if k :| 0 <= k < |calls| && !CleanId(calls[k].id) {
      forall j | 0 <= j < |run| ensures !Names(run[j], calls[k].id) {
        if Names(run[j], calls[k].id) {
          NamedIsClean(run[j], calls[k].id);
        }
      }
      CountNone(run, calls[k].id);
      assert calls[k] in calls;
    } else {
      var j, k :| 0 <= j < k < |calls| && calls[j].id == calls[k].id;
      ResultNames(run[j], calls[j]);
      ResultNames(run[k], calls[k]);
      CountTwice(run, calls[k].id, j, k);
      assert calls[k] in calls;
    }
  }

  /** What follows a message with calls is answered too. */
  lemma {:induction false} FromCall(ms: seq<Message>, i: nat)
    requires Answered(ms) && i < |ms| && IsCall(ms[i])
    ensures Answered(ms[i..])
    decreases |ms|
  {
    hide IsResultFor, ResultsFor;
    if i > 0 {
      var n := if IsCall(ms[0]) then 1 + |ms[0].toolCalls.value| else 1;
      if IsCall(ms[0]) {
        ResultsAreTools(ms[1..n], ms[0].toolCalls.value);
        assert i < n ==> ms[i] == ms[1..n][i - 1];
      }
      FromCall(ms[n..], i - n);
      assert ms[n..][i - n..] == ms[i..];
    } else {
      assert ms[0..] == ms;
    }
  }

  /** In an answered transcript each call of a message has exactly one result with its
      identifier in the run of results right after it, if and only if the identifiers of
      that message are distinct and can be carried by a result. */
  lemma EachAnsweredOnceIff(ms: seq<Message>, i: nat)
    requires Answered(ms) && i < |ms| && IsCall(ms[i])
    ensures EachAnsweredOnce(ms, i) <==> ClearBatch(ms[i].toolCalls.value)
  {
    hide IsResultFor, ResultsFor, ClearBatch, CountNaming, UnitEnd;
    var calls, rest := ms[i].toolCalls.value, ms[i..];
    FromCall(ms, i);
    OpenBlockIsLast(ms, i, []);
    UnitIsBlock(ms, i, |ms|, []);
    UnitIsRun(ms, i);
    assert rest[1..1 + |calls|] == ms[i + 1..i + 1 + |calls|] == ResultRun(ms, i);
    FirstResults(rest);
    ResultsNameOnceIff(ResultRun(ms, i), calls);
  }

  lemma UnitIsRun(ms: seq<Message>, i: nat)
    requires i < |ms| && IsCall(ms[i])
    ensures UnitEnd(ms, i, |ms|) == ToolsFrom(ms, i + 1, |ms|)
  {
  }

  lemma FirstResults(ms: seq<Message>)
    requires Answered(ms) && ms != [] && IsCall(ms[0]) && |ms| > |ms[0].toolCalls.value|
    ensures ResultsFor(ms[1..1 + |ms[0].toolCalls.value|], ms[0].toolCalls.value)
  {
  }

  // ----- whole runs ----------------------------------------------------------------------------

  /** Every request of a run, looked at call by call. */
  lemma EveryCallAnsweredOnceIff(env: Env, earlier: seq<Message>, cwd: string, prompt: Option<string>,
                                 events: seq<Event>,
                                 t: seq<Message>, i: nat)
    requires Answered(earlier) && (HasUser(earlier) || prompt.Some?)
    requires t in Run(env, Start(env, earlier, cwd, prompt), events).sent && i < |t| && IsCall(t[i])
    ensures EachAnsweredOnce(t, i) <==> ClearBatch(t[i].toolCalls.value)
  {
    hide Start, Run, Awaiting, EachAnsweredOnce;
    EveryRequestAnswered(env, earlier, cwd, prompt, events);
    EachAnsweredOnceIff(t, i);
  }

  /** All batches of a transcript are clear. */
  ghost predicate ClearTranscript(ms: seq<Message>) {
    forall m | m in ms :: IsCall(m) ==> ClearBatch(m.toolCalls.value)
  }

  /** Text is never read as a call with an identifier that a result cannot carry. */
  ghost predicate TextIdsClean(env: Env) {
    forall text ::
      && (env.findCalls(text).Some? && env.findCalls(text).value.Ok? ==>
           forall c | c in env.findCalls(text).value.value :: CleanId(c.id))
      && (env.findCall(text).Some? && env.findCall(text).value.Ok? ==> CleanId(env.findCall(text).value.value.id))
  }

  lemma Appended(id: string, n: nat, k: nat)
    requires |id| <= k < |Suffixed(id, n)|
    ensures Suffixed(id, n)[k] == '-' || IsDigit(Suffixed(id, n)[k])
  {
    if k > |id| {
      assert Suffixed(id, n)[k] == Decimal(n)[k - |id| - 1];
    }
  }

  lemma DelimiterEndsInside(id: string, n: nat, i: nat)
    requires OccursAt(Suffixed(id, n), DELIMITER, i)
    ensures i + 5 <= |id|
  {
    hide Suffixed;
    OccursChar(Suffixed(id, n), DELIMITER, i, 4);
    if i + 4 >= |id| {
      Appended(id, n, i + 4);
    }
  }

  lemma SuffixKeepsClean(id: string, n: nat)
    requires CleanId(id)
    ensures CleanId(Suffixed(id, n))
  {
    var s, d := Suffixed(id, n), Decimal(n);
    if Contains(s, DELIMITER) {
      var i := Find(s, DELIMITER).value;
      DelimiterEndsInside(id, n, i);
      assert s[i..i + 5] == id[i..i + 5];
      assert OccursAt(id, DELIMITER, i);
    }
    assert s[|s| - 1] == d[|d| - 1];
    assert ID_LABEL[|ID_LABEL| - 1] == ':';
  }

  /** A renamed batch is clear when its identifiers can be carried at all. */
  lemma RenamedIsClear(calls: seq<ToolCall>)
    requires forall c | c in calls :: CleanId(c.id)
    ensures ClearBatch(Renamed(calls))
  {
    hide CleanId, Suffixed;
    RenamedMeans(calls);
    var r := Renamed(calls);
    forall i | 0 <= i < |r| ensures CleanId(r[i].id) {
      assert calls[i] in calls;
      if r[i].id != calls[i].id {
        var n: nat :| r[i].id == Suffixed(calls[i].id, n);
        SuffixKeepsClean(calls[i].id, n);
      }
    }
  }

  lemma TextBatchIsClear(env: Env, text: string)
    requires TextIdsClean(env)
    ensures var found := TextCalls(env, text); found.Some? && found.value.Ok? ==> ClearBatch(found.value.value)
  {
    hide CleanId, ClearBatch, Renamed;
    if !env.nativeTools && env.allowsBatches {
      var found := env.findCalls(text);
      if found.Some? && found.value.Ok? {
        RenamedIsClear(found.value.value);
      }
    } else if !env.nativeTools {
      var found := env.findCall(text);
      if found.Some? && found.value.Ok? {
        SingleIsClear(found.value.value);
      }
    }
  }

  lemma SingleIsClear(call: ToolCall)
    requires CleanId(call.id)
    ensures ClearBatch([call])
  {
  }

  lemma AddClear(env: Env, ms: seq<Message>, m: Message)
    requires ClearTranscript(ms) && (IsCall(m) ==> ClearBatch(m.toolCalls.value))
    ensures ClearTranscript(Add(env, ms, m))
  {
    hide ClearBatch;
    TrimmedAreThere(env.estimate, ms + [m], env.usable);
  }

  lemma TrimmedAreThere(estimate: Estimate, ms: seq<Message>, usable: nat)
    ensures forall m | m in Trim(estimate, ms, usable) :: m in ms
  {
    hide Cut;
  }

  lemma {:induction false} RejectClear(env: Env, ms: seq<Message>, calls: seq<ToolCall>, total: nat)
    requires ClearTranscript(ms)
    ensures ClearTranscript(RejectAll(env, ms, calls, total))
    decreases |calls|
  {
    hide ClearTranscript, Add, RejectionOf;
    if calls != [] {
      AddClear(env, ms, ResultMessage(calls[0], RejectionOf(total), true));
      RejectClear(env, Add(env, ms, ResultMessage(calls[0], RejectionOf(total), true)), calls[1..], total);
    }
  }

  lemma {:induction false} RunClear(env: Env, ms: seq<Message>, cwd: string, calls: seq<ToolCall>, outcomes: Outcomes,
                                    from: nat)
    requires ClearTranscript(ms) && from <= |calls|
    ensures ClearTranscript(RunAll(env, ms, cwd, calls, outcomes, from).0)
    decreases |calls| - from
  {
    hide ClearTranscript, Add;
    if from < |calls| {
      match env.refusal(calls[from]) {
        case Some(reason) => AddClear(env, ms, ResultMessage(calls[from], "ERROR: " + reason, true));
        case None => AddClear(env, ms, ResultMessage(calls[from], outcomes(from).text, outcomes(from).isError));
      }
      var next := RunCall(env, ms, cwd, calls[from], outcomes(from));
      RunClear(env, next.0, next.1, calls, outcomes, from + 1);
    }
  }

  lemma ExecuteClear(env: Env, ms: seq<Message>, cwd: string, content: string, calls: seq<ToolCall>,
                     payload: Option<string>,
                     outcomes: Outcomes)
    requires ClearTranscript(ms) && ClearBatch(calls)
    ensures ClearTranscript(ExecuteCalls(env, ms, cwd, content, calls, payload, outcomes).0)
  {
    hide ClearTranscript, ClearBatch, Add, RunAll, RejectAll;
    var called := Add(env, ms, CallMessage(content, calls, payload));
    AddClear(env, ms, CallMessage(content, calls, payload));
    RejectClear(env, called, calls, |calls|);
    RunClear(env, called, cwd, calls, outcomes, 0);
    var done := RunAll(env, called, cwd, calls, outcomes, 0);
    AddClear(env, done.0, Plain("system", "Current working directory: " + done.1));
  }

  ghost predicate Clear(a: Agent) {
    && ClearTranscript(a.messages) && (forall t | t in a.sent :: ClearTranscript(t))
    && (a.pending.Some? ==> ClearBatch(a.pending.value.0))
  }

  /** The provider gives the calls of each batch identifiers that are distinct and can be carried. */
  ghost predicate ClearEvents(events: seq<Event>) {
    forall e | e in events :: e.ToolCalls? ==> ClearBatch(e.calls)
  }

  lemma StepClear(env: Env, a: Agent, e: Event)
    requires Clear(a) && TextIdsClean(env) && (e.ToolCalls? ==> ClearBatch(e.calls))
    ensures Clear(Step(env, a, e))
  {
    hide ClearTranscript, ClearBatch, ExecuteCalls, Add, TextCalls, TextIdsClean;
    if a.status == Running && e.Done? {
      if a.pending.Some? {
        ExecuteClear(env, a.messages, a.cwd, a.response, a.pending.value.0,
                     if a.pending.value.1.Some? then a.pending.value.1 else e.payload, e.outcomes);
      } else {
        TextBatchIsClear(env, a.response);
        var said := Message("assistant", a.response, None, e.payload, false);
        AddClear(env, a.messages, said);
        match TextCalls(env, a.response) {
          case Some(Ok(calls)) => ExecuteClear(env, a.messages, a.cwd, a.response, calls, None, e.outcomes);
          case Some(Err(error)) =>
            AddClear(env, Add(env, a.messages, said),
                     Plain("user", "Your tool call could not be parsed: " + error +
                         ". Correct it and call one tool again."));
          case None =>
        }
      }
    }
  }

  lemma {:induction false} RunsClear(env: Env, a: Agent, events: seq<Event>)
    requires Clear(a) && TextIdsClean(env) && ClearEvents(events)
    ensures Clear(Run(env, a, events))
    decreases |events|
  {
    hide Clear, Step, TextIdsClean, ClearBatch;
    if events != [] {
      assert events[0] in events;
      StepClear(env, a, events[0]);
      RunsClear(env, Step(env, a, events[0]), events[1..]);
    }
  }

  lemma StartClear(env: Env, earlier: seq<Message>, cwd: string, prompt: Option<string>)
    requires ClearTranscript(earlier)
    ensures Clear(Start(env, earlier, cwd, prompt))
  {
    hide ClearTranscript, Trim, Add;
    TrimmedClear(env, earlier);
    var kept := if earlier == [] then [] else Trim(env.estimate, earlier, env.usable);
    var place := Plain("system", "Current working directory: " + cwd);
    AddClear(env, kept, place);
    var placed := if cwd == "." then kept else Add(env, kept, place);
    if prompt.Some? {
      AddClear(env, placed, Plain("user", prompt.value));
    }
  }

  lemma TrimmedClear(env: Env, ms: seq<Message>)
    requires ClearTranscript(ms)
    ensures ClearTranscript(Trim(env.estimate, ms, env.usable)) && ClearTranscript([])
  {
    hide ClearBatch;
    TrimmedAreThere(env.estimate, ms, env.usable);
  }

  /** When the provider tells the calls of each of its batches apart, every call of every
      request has exactly one result with its identifier right after it: batches from text
      are renamed so that they always are told apart. */
  lemma EveryCallAnsweredOnce(env: Env, earlier: seq<Message>, cwd: string, prompt: Option<string>, events: seq<Event>)
    requires Answered(earlier) && (HasUser(earlier) || prompt.Some?)
    requires ClearTranscript(earlier) && ClearEvents(events) && TextIdsClean(env)
    ensures forall t, i: nat |
              t in Run(env, Start(env, earlier, cwd, prompt), events).sent && i < |t| && IsCall(t[i]) ::
              EachAnsweredOnce(t, i)
  {
    hide Start, Run, Awaiting, EachAnsweredOnce, ClearBatch;
    StartClear(env, earlier, cwd, prompt);
    RunsClear(env, Start(env, earlier, cwd, prompt), events);
    forall t, i: nat | t in Run(env, Start(env, earlier, cwd, prompt), events).sent && i < |t| && IsCall(t[i])
      ensures EachAnsweredOnce(t, i)
    {
      assert t[i] in t;
      EveryCallAnsweredOnceIff(env, earlier, cwd, prompt, events, t, i);
    }
  }
}
