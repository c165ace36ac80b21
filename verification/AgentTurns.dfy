/** What the turns of a headless run put into its transcript, word for word. Trimming drops
    nothing from the last user message on, so this part of the transcript can be told exactly. */
module AgentTurns {
  import opened Text
  import opened Decimals
  import opened Messages
  import opened ContextTrim
  import opened ToolResults
  import opened Transcripts
  import opened AgentLoop

  /** The active request: everything from the last user message on. */
  function Active(ms: seq<Message>): (active: seq<Message>)
    ensures |active| <= |ms|
  {
    ms[Protected(ms)..]
  }

  lemma AddActive(env: Env, ms: seq<Message>, m: Message)
    requires HasUser(ms) || IsUser(m)
    ensures Active(Add(env, ms, m)) == if IsUser(m) then [m] else Active(ms) + [m]
    ensures HasUser(Add(env, ms, m))
  {
    hide Trim;
    var all, p := ms + [m], Protected(ms);
    assert all[|ms|] == m && forall i | 0 <= i < |ms| :: all[i] == ms[i];
    if IsUser(m) {
      ActiveFrom(all, |ms|);
    } else {
      ActiveFrom(all, p);
      assert all[p..] == ms[p..] + [m];
    }
    TrimActive(env.estimate, all, env.usable);
  }

  lemma ActiveFrom(ms: seq<Message>, p: nat)
    requires p < |ms| && IsUser(ms[p]) && forall k | p < k < |ms| :: !IsUser(ms[k])
    ensures Protected(ms) == p
  {
    var q := Protected(ms);
    assert q < |ms| && q >= p && p >= q;
  }

  lemma TrimActive(estimate: Estimate, ms: seq<Message>, usable: nat)
    requires HasUser(ms)
    ensures Active(Trim(estimate, ms, usable)) == Active(ms) && HasUser(Trim(estimate, ms, usable))
  {
    hide Cut;
    var p, k := Protected(ms), Cut(estimate, ms, usable);
    var r, n := Trim(estimate, ms, usable), |Systems(ms[..k])|;
    assert ms[k..][p - k] == ms[p] && r[n + (p - k)] == ms[p];
    forall j | n + (p - k) < j < |r| ensures !IsUser(r[j]) {
      assert r[j] == ms[k..][j - n] == ms[j - n + k];
    }
    ActiveFrom(r, n + (p - k));
    assert r[n + (p - k)..] == ms[k..][p - k..] == ms[p..];
  }

  // ----- a batch of calls -------------------------------------------------------------------------

  /** The result of one call of a batch that is run: refused by policy, or what running it gave. */
  function ResultOf(env: Env, call: ToolCall, outcome: ToolOutcome): Message {
    match env.refusal(call)
    case Some(reason) => Message("tool", Envelope(call.name, "ERROR: " + reason, call.id), None, None, true)
    case None => Message("tool", Envelope(call.name, outcome.text, call.id), None, None, outcome.isError)
  }

  /** The result of a call in a batch of `n` that is turned away as a whole. */
  function TurnedAway(call: ToolCall, n: nat): Message {
    Message("tool", Envelope(call.name, "ERROR: Provider returned " + Decimal(n) +
        " tool calls in one turn; Headless mode requires exactly one and rejected the entire batch.", call.id), None,
        None, true)
  }

  predicate Rejected(env: Env, calls: seq<ToolCall>) {
    |calls| > 1 && !env.allowsBatches
  }

  /** One result for each call, in its place. */
  function ResultsOf(env: Env, calls: seq<ToolCall>, outcomes: Outcomes): (r: seq<Message>)
    ensures |r| == |calls|
  {
    seq(|calls|, k requires 0 <= k < |calls| =>
      if Rejected(env, calls) then TurnedAway(calls[k], |calls|) else ResultOf(env, calls[k], outcomes(k)))
  }

  /** The last call from place `from` on that policy allows. */
  function LastAllowed(env: Env, calls: seq<ToolCall>, from: nat): (last: Option<nat>)
    requires from <= |calls|
    decreases |calls| - from
    ensures last.Some? ==> from <= last.value < |calls| && env.refusal(calls[last.value]).None?
    ensures forall k | (if last.Some? then last.value + 1 else from) <= k < |calls| :: env.refusal(calls[k]).Some?
  {
    if from == |calls| then None
    else
      var later := LastAllowed(env, calls, from + 1);
      if later.Some? then later else if env.refusal(calls[from]).None? then Some(from) else None
  }

  /** The directory is that of the last call that was run. */
  function DirectoryAfter(env: Env, cwd: string, calls: seq<ToolCall>, outcomes: Outcomes): string {
    var last := if Rejected(env, calls) then None else LastAllowed(env, calls, 0);
    if last.Some? then outcomes(last.value).cwd else cwd
  }

  function Notice(from: string, to: string): seq<Message> {
    if from == to then [] else [Message("system", "Current working directory: " + to, None, None, false)]
  }

  /** What a batch adds: the call message, one result per call, and a change of directory. */
  function BatchOf(env: Env, cwd: string, content: string, calls: seq<ToolCall>, payload: Option<string>,
                   outcomes: Outcomes): seq<Message>
  {
    [Message("assistant", content, Some(calls), payload, false)] + ResultsOf(env, calls, outcomes) +
    Notice(cwd, DirectoryAfter(env, cwd, calls, outcomes))
  }

  lemma {:induction false} RejectIs(env: Env, ms: seq<Message>, calls: seq<ToolCall>, outcomes: Outcomes, from: nat)
    requires HasUser(ms) && Rejected(env, calls) && from <= |calls|
    ensures var r := RejectAll(env, ms, calls[from..], |calls|);
            HasUser(r) && Active(r) == Active(ms) + ResultsOf(env, calls, outcomes)[from..]
    decreases |calls| - from
  {
    hide Add, Active, HasUser;
    var results := ResultsOf(env, calls, outcomes);
    if from < |calls| {
      var m := ResultMessage(calls[from], RejectionOf(|calls|), true);
      assert m == results[from] by { RejectionText(calls[from], |calls|); }
      assert calls[from..][0] == calls[from] && calls[from..][1..] == calls[from + 1..];
      AddActive(env, ms, m);
      RejectIs(env, Add(env, ms, m), calls, outcomes, from + 1);
      assert results[from..] == [m] + results[from + 1..];
      ConcatAssociates(Active(ms), [m], results[from + 1..]);
    } else {
      assert calls[from..] == [] && Active(ms) + [] == Active(ms);
    }
  }

  lemma RejectionText(call: ToolCall, n: nat)
    ensures ResultMessage(call, RejectionOf(n), true) == TurnedAway(call, n)
  {
  }

  lemma {:induction false} RunIs(env: Env, ms: seq<Message>, cwd: string, calls: seq<ToolCall>, outcomes: Outcomes,
                                 from: nat)
    requires HasUser(ms) && !Rejected(env, calls) && from <= |calls|
    ensures var r := RunAll(env, ms, cwd, calls, outcomes, from);
            && HasUser(r.0) && Active(r.0) == Active(ms) + ResultsOf(env, calls, outcomes)[from..]
            && r.1 == (var last := LastAllowed(env, calls, from);
                       if last.Some? then outcomes(last.value).cwd else cwd)
    decreases |calls| - from
  {
    hide Add, Active, HasUser;
    var results := ResultsOf(env, calls, outcomes);
    if from < |calls| {
      var m := results[from];
      AddActive(env, ms, m);
      var next := RunCall(env, ms, cwd, calls[from], outcomes(from));
      assert next.0 == Add(env, ms, m);
      RunIs(env, next.0, next.1, calls, outcomes, from + 1);
      assert results[from..] == [m] + results[from + 1..];
      ConcatAssociates(Active(ms), [m], results[from + 1..]);
    } else {
      assert results[from..] == [] && Active(ms) + [] == Active(ms);
    }
  }

  /** After a batch the active request ends with the call message, the result of each call
      in its place, and a change of directory if there was one. */
  lemma BatchIs(env: Env, ms: seq<Message>, cwd: string, content: string, calls: seq<ToolCall>,
                payload: Option<string>, outcomes: Outcomes)
    requires HasUser(ms)
    ensures var done := ExecuteCalls(env, ms, cwd, content, calls, payload, outcomes);
            && HasUser(done.0)
            && Active(done.0) == Active(ms) + BatchOf(env, cwd, content, calls, payload, outcomes)
            && done.1 == DirectoryAfter(env, cwd, calls, outcomes)
  {
    hide Add, Active, HasUser, RunAll, RejectAll, ResultsOf, LastAllowed;
    var m := CallMessage(content, calls, payload);
    AddActive(env, ms, m);
    var called, results := Add(env, ms, m), ResultsOf(env, calls, outcomes);
    assert calls[0..] == calls && results[0..] == results;
    ConcatAssociates(Active(ms), [m], results);
    var to := DirectoryAfter(env, cwd, calls, outcomes);
    ConcatAssociates(Active(ms), [m] + results, Notice(cwd, to));
    if Rejected(env, calls) {
      RejectIs(env, called, calls, outcomes, 0);
      assert [m] + results + [] == [m] + results;
    } else {
      RunIs(env, called, cwd, calls, outcomes, 0);
      var done := RunAll(env, called, cwd, calls, outcomes, 0);
      if to == cwd {
        assert [m] + results + [] == [m] + results;
      } else {
        AddActive(env, done.0, Plain("system", "Current working directory: " + to));
      }
    }
  }

  // ----- a whole turn -------------------------------------------------------------------------------

  /** All text that was streamed. */
  function Said(events: seq<Event>): string {
    if events == [] then ""
    else if events[0].Chunk? then events[0].text + Said(events[1..])
    else Said(events[1..])
  }

  /** The last calls that were announced. */
  function LastBatch(events: seq<Event>): Option<(seq<ToolCall>, Option<string>)> {
    if events == [] then None
    else
      var later := LastBatch(events[1..]);
      if later.Some? then later
      else if events[0].ToolCalls? then Some((events[0].calls, events[0].payload)) else None
  }

  predicate Streaming(e: Event) {
    e.Chunk? || e.ToolCalls? || e.Other?
  }

  lemma {:induction false} Gathered(env: Env, a: Agent, events: seq<Event>)
    requires a.status == Running && forall e | e in events :: Streaming(e)
    ensures Run(env, a, events) ==
            a.(response := a.response + Said(events),
               pending := if LastBatch(events).Some? then LastBatch(events) else a.pending)
    decreases |events|
  {
    if events == [] {
      assert a.response + "" == a.response;
    } else {
      assert events[0] in events;
      var b := Step(env, a, events[0]);
      Gathered(env, b, events[1..]);
      if events[0].Chunk? {
        ConcatAssociates(a.response, events[0].text, Said(events[1..]));
      }
    }
  }

  lemma {:induction false} RunLast(env: Env, a: Agent, events: seq<Event>, e: Event)
    ensures Run(env, a, events + [e]) == Step(env, Run(env, a, events), e)
    decreases |events|
  {
    hide Step;
    if events == [] {
      assert events + [e] == [e] && [e][1..] == [];
      assert Run(env, Step(env, a, e), []) == Step(env, a, e);
    } else {
      assert (events + [e])[1..] == events[1..] + [e];
      RunLast(env, Step(env, a, events[0]), events[1..], e);
    }
  }

  /** The next request is made from the transcript as it stands. */
  predicate Asked(a: Agent, b: Agent) {
    b.status == Running && b.pending.None? && b.response == "" && b.sent == a.sent + [b.messages] &&
    b.retryAttempts == 0
  }

  /** The calls a finished reply makes, with their payload: those that were announced, or
      else those that its text is read as. */
  function CallsMade(env: Env, events: seq<Event>, text: string, payload: Option<string>):
    Option<(seq<ToolCall>, Option<string>)>
  {
    var announced := LastBatch(events);
    if announced.Some? then
      Some((announced.value.0, if announced.value.1.Some? then announced.value.1 else payload))
    else
      match TextCalls(env, text)
      case Some(Ok(calls)) => Some((calls, None))
      case _ => None
  }

  /** One turn from its beginning: all text streamed and the reply finished. With calls, the
      whole batch joins the active request and the next request is made; calls that cannot
      be read are sent back as a correction; otherwise the text is the answer and the run ends. */
  lemma TurnIs(env: Env, a: Agent, events: seq<Event>, payload: Option<string>, outcomes: Outcomes)
    requires a.status == Running && a.response == "" && a.pending.None? && HasUser(a.messages)
    requires forall e | e in events :: Streaming(e)
    ensures var b, text := Run(env, a, events + [Done(payload, outcomes)]), Said(events);
            match CallsMade(env, events, text, payload)
            case Some(made) =>
              && Active(b.messages) == Active(a.messages) + BatchOf(env, a.cwd, text, made.0, made.1, outcomes)
              && b.cwd == DirectoryAfter(env, a.cwd, made.0, outcomes) && Asked(a, b) && HasUser(b.messages)
            case None =>
              b.cwd == a.cwd &&
              match TextCalls(env, text)
              case Some(_) =>
                && Active(b.messages) == [Message("user", "Your tool call could not be parsed: " +
                       TextCalls(env, text).value.error + ". Correct it and call one tool again.", None, None, false)]
                && Asked(a, b) && HasUser(b.messages)
              case None =>
                && Active(b.messages) == Active(a.messages) + [Message("assistant", text, None, payload, false)]
                && b.status == Finished && b.sent == a.sent
  {
    hide Active, HasUser, Add, ExecuteCalls, BatchOf, DirectoryAfter, TextCalls, Run, Said, LastBatch;
    var text := Said(events);
    Gathered(env, a, events);
    assert "" + text == text;
    RunLast(env, a, events, Done(payload, outcomes));
    match CallsMade(env, events, text, payload) {
      case Some(made) => BatchIs(env, a.messages, a.cwd, text, made.0, made.1, outcomes);
      case None =>
        var said := Message("assistant", text, None, payload, false);
        AddActive(env, a.messages, said);
        match TextCalls(env, text) {
          case Some(found) =>
            AddActive(env, Add(env, a.messages, said), Plain("user", "Your tool call could not be parsed: " +
                found.error + ". Correct it and call one tool again."));
          case None =>
        }
    }
  }

  /** A turn that does not finish leaves the transcript alone: it is asked again only after a
      failure that may be retried, while no call is waiting and retries are left. */
  lemma UnfinishedTurnIs(env: Env, a: Agent, events: seq<Event>, e: Event)
    requires a.status == Running && a.pending.None? && forall e | e in events :: Streaming(e)
    requires !Streaming(e) && !e.Done?
    ensures var b := Run(env, a, events + [e]);
            && b.messages == a.messages && b.cwd == a.cwd
            && if e.Failed? && e.retryable && LastBatch(events).None? && a.retryAttempts < env.retries
               then b.status == Running && b.response == "" && b.pending.None? &&
                    b.sent == a.sent + [a.messages] && b.retryAttempts == a.retryAttempts + 1
               else b.sent == a.sent &&
                    b.status == match e
                                case Closed => Finished
                                case Cancelled => Stopped("cancelled")
                                case SettlementFailed(error) => Stopped(error)
                                case Failed(error, _) => Stopped(error)
                                case _ => Running
  {
    hide Run, Said, LastBatch;
    Gathered(env, a, events);
    RunLast(env, a, events, e);
  }

  /** The first request ends with the prompt, or, when there is none, with the request that
      is resumed, told where it now runs. */
  lemma StartIs(env: Env, earlier: seq<Message>, cwd: string, prompt: Option<string>)
    requires HasUser(earlier) || prompt.Some?
    ensures var a := Start(env, earlier, cwd, prompt);
            && a.sent == [a.messages] && a.status == Running && a.response == "" && a.pending.None? && a.cwd == cwd
            && a.retryAttempts == 0
            && HasUser(a.messages)
            && Active(a.messages) ==
               if prompt.Some? then [Message("user", prompt.value, None, None, false)]
               else Active(earlier) + Notice(".", cwd)
  {
    hide Active, Add, Trim, HasUser;
    var kept := if earlier == [] then [] else Trim(env.estimate, earlier, env.usable);
    var place := Plain("system", "Current working directory: " + cwd);
    if prompt.Some? {
      var placed := if cwd == "." then kept else Add(env, kept, place);
      AddActive(env, placed, Plain("user", prompt.value));
    } else {
      assert earlier != [] by { SomeUser(earlier); }
      TrimActive(env.estimate, earlier, env.usable);
      AddActive(env, kept, place);
      assert Active(earlier) + [] == Active(earlier);
    }
  }

  lemma SomeUser(ms: seq<Message>)
    ensures HasUser(ms) ==> ms != []
  {
  }

  // ----- how much is sent ------------------------------------------------------------------------------

  /** Nothing more could be trimmed from it. */
  predicate Fits(env: Env, ms: seq<Message>) {
    Trim(env.estimate, ms, env.usable) == ms
  }

  lemma AddFits(env: Env, ms: seq<Message>, m: Message)
    ensures Fits(env, Add(env, ms, m))
  {
    hide Trim;
    TrimIdempotent(env.estimate, ms + [m], env.usable);
  }

  lemma ExecuteFits(env: Env, ms: seq<Message>, cwd: string, content: string, calls: seq<ToolCall>,
                    payload: Option<string>, outcomes: Outcomes)
    ensures Fits(env, ExecuteCalls(env, ms, cwd, content, calls, payload, outcomes).0)
  {
    hide Fits, Add, RunAll, RejectAll;
    var called := Add(env, ms, CallMessage(content, calls, payload));
    AddFits(env, ms, CallMessage(content, calls, payload));
    RejectFits(env, called, calls, |calls|);
    RunFits(env, called, cwd, calls, outcomes, 0);
    var done := RunAll(env, called, cwd, calls, outcomes, 0);
    AddFits(env, done.0, Plain("system", "Current working directory: " + done.1));
  }

  lemma {:induction false} RejectFits(env: Env, ms: seq<Message>, calls: seq<ToolCall>, total: nat)
    requires Fits(env, ms)
    ensures Fits(env, RejectAll(env, ms, calls, total))
    decreases |calls|
  {
    hide Fits, Add;
    if calls != [] {
      AddFits(env, ms, ResultMessage(calls[0], RejectionOf(total), true));
      RejectFits(env, Add(env, ms, ResultMessage(calls[0], RejectionOf(total), true)), calls[1..], total);
    }
  }

  lemma {:induction false} RunFits(env: Env, ms: seq<Message>, cwd: string, calls: seq<ToolCall>, outcomes: Outcomes,
                                   from: nat)
    requires Fits(env, ms) && from <= |calls|
    ensures Fits(env, RunAll(env, ms, cwd, calls, outcomes, from).0)
    decreases |calls| - from
  {
    hide Fits, Add;
    if from < |calls| {
      match env.refusal(calls[from]) {
        case Some(reason) => AddFits(env, ms, ResultMessage(calls[from], "ERROR: " + reason, true));
        case None => AddFits(env, ms, ResultMessage(calls[from], outcomes(from).text, outcomes(from).isError));
      }
      var next := RunCall(env, ms, cwd, calls[from], outcomes(from));
      RunFits(env, next.0, next.1, calls, outcomes, from + 1);
    }
  }

  ghost predicate AllFit(env: Env, a: Agent) {
    Fits(env, a.messages) && forall t | t in a.sent :: Fits(env, t)
  }

  lemma StepFits(env: Env, a: Agent, e: Event)
    requires AllFit(env, a)
    ensures AllFit(env, Step(env, a, e))
  {
    hide Fits, Add, ExecuteCalls, TextCalls;
    if a.status == Running && e.Done? {
      var said := Message("assistant", a.response, None, e.payload, false);
      AddFits(env, a.messages, said);
      if a.pending.Some? {
        ExecuteFits(env, a.messages, a.cwd, a.response, a.pending.value.0,
                    if a.pending.value.1.Some? then a.pending.value.1 else e.payload, e.outcomes);
      } else {
        match TextCalls(env, a.response) {
          case Some(Ok(calls)) => ExecuteFits(env, a.messages, a.cwd, a.response, calls, None, e.outcomes);
          case Some(Err(error)) =>
            AddFits(env, Add(env, a.messages, said), Plain("user",
                "Your tool call could not be parsed: " + error + ". Correct it and call one tool again."));
          case None =>
        }
      }
    }
  }

  lemma {:induction false} RunAllFit(env: Env, a: Agent, events: seq<Event>)
    requires AllFit(env, a)
    ensures AllFit(env, Run(env, a, events))
    decreases |events|
  {
    hide AllFit, Step;
    if events != [] {
      StepFits(env, a, events[0]);
      RunAllFit(env, Step(env, a, events[0]), events[1..]);
    }
  }

  /** Every request of every run is within the budget, or has nothing left before the active
      request but system messages. */
  lemma RequestsFit(env: Env, earlier: seq<Message>, cwd: string, prompt: Option<string>, events: seq<Event>)
    ensures forall t | t in Run(env, Start(env, earlier, cwd, prompt), events).sent ::
              Cost(env.estimate, t) <= env.usable || forall m | m in t[..|t| - |Active(t)|] :: IsSystem(m)
  {
    hide Fits, Run, Add, Trim, Active, Cost;
    var kept := if earlier == [] then [] else Trim(env.estimate, earlier, env.usable);
    var place := Plain("system", "Current working directory: " + cwd);
    KeptFits(env, earlier);
    AddFits(env, kept, place);
    var placed := if cwd == "." then kept else Add(env, kept, place);
    if prompt.Some? {
      AddFits(env, placed, Plain("user", prompt.value));
    }
    var a := Start(env, earlier, cwd, prompt);
    RunAllFit(env, a, events);
    forall t | t in Run(env, a, events).sent
      ensures Cost(env.estimate, t) <= env.usable || forall m | m in t[..|t| - |Active(t)|] :: IsSystem(m)
    {
      FitMeans(env, t);
    }
  }

  lemma KeptFits(env: Env, earlier: seq<Message>)
    ensures Fits(env, Trim(env.estimate, earlier, env.usable)) && Fits(env, [])
  {
    hide Cut;
    TrimIdempotent(env.estimate, earlier, env.usable);
    assert Protected([]) == 0;
  }

  lemma FitMeans(env: Env, t: seq<Message>)
    requires Fits(env, t)
    ensures Cost(env.estimate, t) <= env.usable || forall m | m in t[..|t| - |Active(t)|] :: IsSystem(m)
  {
    hide Cut, Cost;
    var k, p := Cut(env.estimate, t, env.usable), Protected(t);
    TrimIsLeast(env.estimate, t, env.usable);
    assert t == LeftAt(t, k);
  }
}
