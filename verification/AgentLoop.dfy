/** The loop of a headless run: provider events come in, tool calls are run, and further
    requests are made from the transcript, which is trimmed after every append. */
module AgentLoop {
  import opened Text
  import opened Decimals
  import opened Messages
  import opened ContextTrim
  import opened ToolResults
  import opened Transcripts
  import opened UniqueIds

  datatype ToolOutcome = ToolOutcome(text: string, isError: bool, cwd: string)

  /** What the loop does not decide itself: the budget, the policy, and what is read from
      text as tool calls by a search for all of them or for the first. */
  datatype Env = Env(
    estimate: Estimate, usable: nat, nativeTools: bool, allowsBatches: bool, retries: nat,
    refusal: ToolCall -> Option<string>,
    findCalls: string -> Option<Result<seq<ToolCall>>>,
    findCall: string -> Option<Result<ToolCall>>)

  /** Tool calls written as text. Those of a batch get identifiers of their own. */
  function TextCalls(env: Env, text: string): Option<Result<seq<ToolCall>>> {
    if env.nativeTools then None
    else if env.allowsBatches then
      match env.findCalls(text)
      case Some(Ok(calls)) => Some(Ok(Renamed(calls)))
      case Some(Err(error)) => Some(Err(error))
      case None => None
    else
      match env.findCall(text)
      case Some(Ok(call)) => Some(Ok([call]))
      case Some(Err(error)) => Some(Err(error))
      case None => None
  }

  /** How the calls of a batch turn out when they are run, by their place in it. */
  type Outcomes = nat -> ToolOutcome

  datatype Event =
    | Chunk(text: string)
    | ToolCalls(calls: seq<ToolCall>, payload: Option<string>)
    | Done(payload: Option<string>, outcomes: Outcomes)
    | Cancelled
    | SettlementFailed(error: string)
    | Failed(error: string, retryable: bool)
    | Closed
    | Other

  datatype Status = Running | Finished | Stopped(error: string)

  /** The state of a run. `sent` are the transcripts of the requests made so far. */
  datatype Agent = Agent(
    messages: seq<Message>, cwd: string, response: string, retryAttempts: nat,
    pending: Option<(seq<ToolCall>, Option<string>)>, sent: seq<seq<Message>>, status: Status)

  function Add(env: Env, ms: seq<Message>, m: Message): seq<Message> {
    Trim(env.estimate, ms + [m], env.usable)
  }

  function CallMessage(content: string, calls: seq<ToolCall>, payload: Option<string>): Message {
    Message("assistant", content, Some(calls), payload, false)
  }

  function ResultMessage(call: ToolCall, text: string, isError: bool): Message {
    Message("tool", Envelope(call.name, text, call.id), None, None, isError)
  }

  const PROVIDER_RETURNED := "ERROR: Provider returned "
  const BATCH_REJECTED := " tool calls in one turn; Headless mode requires exactly one and rejected the entire batch."

  function RejectionOf(n: nat): string {
    PROVIDER_RETURNED + Decimal(n) + BATCH_REJECTED
  }

  function RejectAll(env: Env, ms: seq<Message>, calls: seq<ToolCall>, total: nat): seq<Message>
    decreases |calls|
  {
    if calls == [] then ms
    else RejectAll(env, Add(env, ms, ResultMessage(calls[0], RejectionOf(total), true)), calls[1..], total)
  }

  /** One call: refused by policy, or run; either way it gets its result. */
  function RunCall(env: Env, ms: seq<Message>, cwd: string, call: ToolCall,
                   outcome: ToolOutcome): (seq<Message>, string)
  {
    match env.refusal(call)
    case Some(reason) => (Add(env, ms, ResultMessage(call, "ERROR: " + reason, true)), cwd)
    case None => (Add(env, ms, ResultMessage(call, outcome.text, outcome.isError)), outcome.cwd)
  }

  /** The calls from place `from` on, one after another. */
  function RunAll(env: Env, ms: seq<Message>, cwd: string, calls: seq<ToolCall>, outcomes: Outcomes,
                  from: nat): (seq<Message>, string)
    requires from <= |calls|
    decreases |calls| - from
  {
    if from == |calls| then (ms, cwd)
    else
      var next := RunCall(env, ms, cwd, calls[from], outcomes(from));
      RunAll(env, next.0, next.1, calls, outcomes, from + 1)
  }

  function ChangeDirectory(env: Env, ms: seq<Message>, from: string, to: string): seq<Message> {
    if from == to then ms else Add(env, ms, Plain("system", "Current working directory: " + to))
  }

  /** The whole batch: the call message, then one result per call. Several calls are
      rejected together where only one is allowed. */
  function ExecuteCalls(env: Env, ms: seq<Message>, cwd: string, content: string, calls: seq<ToolCall>,
                        payload: Option<string>,
                        outcomes: Outcomes): (seq<Message>, string)
  {
    var called := Add(env, ms, CallMessage(content, calls, payload));
    if |calls| > 1 && !env.allowsBatches then (RejectAll(env, called, calls, |calls|), cwd)
    else
      var done := RunAll(env, called, cwd, calls, outcomes, 0);
      (ChangeDirectory(env, done.0, cwd, done.1), done.1)
  }

  /** A new request is made from the transcript as it stands. */
  function Ask(a: Agent): Agent {
    a.(response := "", sent := a.sent + [a.messages])
  }

  function AfterCalls(env: Env, a: Agent, calls: seq<ToolCall>, payload: Option<string>, outcomes: Outcomes): Agent {
    var done := ExecuteCalls(env, a.messages, a.cwd, a.response, calls, payload, outcomes);
    Ask(a.(messages := done.0, cwd := done.1, pending := None))
  }

  function OnDone(env: Env, a: Agent, payload: Option<string>, outcomes: Outcomes): Agent {
    var b := a.(retryAttempts := 0);
    match a.pending
    case Some(batch) => AfterCalls(env, b, batch.0, if batch.1.Some? then batch.1 else payload, outcomes)
    case None =>
      match TextCalls(env, a.response)
      case Some(Ok(calls)) => AfterCalls(env, b, calls, None, outcomes)
      case Some(Err(error)) =>
        var said := Add(env, a.messages, Message("assistant", a.response, None, payload, false));
        Ask(b.(messages := Add(env, said, Plain("user",
            "Your tool call could not be parsed: " + error + ". Correct it and call one tool again."))))
      case None =>
        b.(messages := Add(env, a.messages, Message("assistant", a.response, None, payload, false)), status := Finished)
  }

  function Step(env: Env, a: Agent, e: Event): Agent {
    if a.status != Running then a
    else
      match e
      case Chunk(text) => a.(response := a.response + text)
      case ToolCalls(calls, payload) => a.(pending := Some((calls, payload)))
      case Done(payload, outcomes) => OnDone(env, a, payload, outcomes)
      case Cancelled => a.(status := Stopped("cancelled"))
      case SettlementFailed(error) => a.(status := Stopped(error))
      case Failed(error, retryable) =>
        if a.pending.None? && a.retryAttempts < env.retries && retryable
        then Ask(a.(retryAttempts := a.retryAttempts + 1))
        else a.(status := Stopped(error))
      case Closed => a.(status := Finished)
      case Other => a
  }

  function Run(env: Env, a: Agent, events: seq<Event>): Agent
    decreases |events|
  {
    if events == [] then a else Run(env, Step(env, a, events[0]), events[1..])
  }

  /** The first request: the earlier transcript, the working directory, and the prompt if it is to be added. */
  function Start(env: Env, earlier: seq<Message>, cwd: string, prompt: Option<string>): Agent {
    var kept := if earlier == [] then [] else Trim(env.estimate, earlier, env.usable);
    var placed := if cwd == "." then kept else Add(env, kept, Plain("system", "Current working directory: " + cwd));
    var ready := if prompt.Some? then Add(env, placed, Plain("user", prompt.value)) else placed;
    Agent(ready, cwd, "", 0, None, [ready], Running)
  }

  // ----- every request is made from an answered transcript -------------------------------

  ghost predicate Ready(ms: seq<Message>) {
    Answered(ms) && HasUser(ms)
  }

  lemma UserStays(ms: seq<Message>, m: Message)
    ensures HasUser(ms) || IsUser(m) ==> HasUser(ms + [m])
  {
    if HasUser(ms) {
      var i :| 0 <= i < |ms| && IsUser(ms[i]);
      assert (ms + [m])[i] == ms[i];
    } else {
      assert (ms + [m])[|ms|] == m;
    }
  }

  lemma AddPlain(env: Env, ms: seq<Message>, m: Message)
    requires Answered(ms) && !IsTool(m) && !IsCall(m)
    ensures Answered(Add(env, ms, m)) && (HasUser(ms) || IsUser(m) ==> HasUser(Add(env, ms, m)))
  {
    hide Awaiting, Trim;
    AppendPlain(ms, m);
    UserStays(ms, m);
    TrimKeepsAnswered(env.estimate, ms + [m], env.usable, []);
  }

  lemma AddCall(env: Env, ms: seq<Message>, m: Message)
    requires Ready(ms) && IsCall(m)
    ensures Awaiting(Add(env, ms, m), m.toolCalls.value) && HasUser(Add(env, ms, m))
  {
    hide Awaiting, Trim;
    AppendCall(ms, m);
    UserStays(ms, m);
    TrimKeepsAnswered(env.estimate, ms + [m], env.usable, m.toolCalls.value);
  }

  lemma AddResult(env: Env, ms: seq<Message>, pending: seq<ToolCall>, text: string, isError: bool)
    requires pending != [] && Awaiting(ms, pending) && HasUser(ms)
    ensures var r := Add(env, ms, ResultMessage(pending[0], text, isError)); Awaiting(r, pending[1..]) && HasUser(r)
  {
    hide Awaiting, Trim;
    var m := ResultMessage(pending[0], text, isError);
    assert IsResultFor(m, pending[0]);
    AppendResult(ms, pending, m);
    UserStays(ms, m);
    TrimKeepsAnswered(env.estimate, ms + [m], env.usable, pending[1..]);
  }

  lemma {:induction false} RejectAnswers(env: Env, ms: seq<Message>, calls: seq<ToolCall>, total: nat)
    requires Awaiting(ms, calls) && HasUser(ms)
    ensures Ready(RejectAll(env, ms, calls, total))
    decreases |calls|
  {
    hide Awaiting, Add, RejectionOf;
    if calls != [] {
      AddResult(env, ms, calls, RejectionOf(total), true);
      RejectAnswers(env, Add(env, ms, ResultMessage(calls[0], RejectionOf(total), true)), calls[1..], total);
    }
  }

  lemma {:induction false} RunAnswers(env: Env, ms: seq<Message>, cwd: string, calls: seq<ToolCall>,
                                      outcomes: Outcomes, from: nat)
    requires from <= |calls| && Awaiting(ms, calls[from..]) && HasUser(ms)
    ensures Ready(RunAll(env, ms, cwd, calls, outcomes, from).0)
    decreases |calls| - from
  {
    hide Awaiting, Add;
    if from < |calls| {
      assert calls[from..][0] == calls[from] && calls[from..][1..] == calls[from + 1..];
      match env.refusal(calls[from]) {
        case Some(reason) => AddResult(env, ms, calls[from..], "ERROR: " + reason, true);
        case None => AddResult(env, ms, calls[from..], outcomes(from).text, outcomes(from).isError);
      }
      var next := RunCall(env, ms, cwd, calls[from], outcomes(from));
      RunAnswers(env, next.0, next.1, calls, outcomes, from + 1);
    } else {
      assert calls[from..] == [];
    }
  }

  /** A batch, run or rejected, leaves every call answered. */
  lemma ExecuteAnswers(env: Env, ms: seq<Message>, cwd: string, content: string, calls: seq<ToolCall>,
                       payload: Option<string>,
                       outcomes: Outcomes)
    requires Ready(ms)
    ensures Ready(ExecuteCalls(env, ms, cwd, content, calls, payload, outcomes).0)
  {
    hide Awaiting, Add, RunAll, RejectAll;
    AddCall(env, ms, CallMessage(content, calls, payload));
    var called := Add(env, ms, CallMessage(content, calls, payload));
    if |calls| > 1 && !env.allowsBatches {
      RejectAnswers(env, called, calls, |calls|);
    } else {
      assert calls[0..] == calls;
      RunAnswers(env, called, cwd, calls, outcomes, 0);
      var done := RunAll(env, called, cwd, calls, outcomes, 0);
      AddPlain(env, done.0, Plain("system", "Current working directory: " + done.1));
    }
  }

  /** While the run goes on its transcript is ready for a request, and so was that of every request. */
  ghost predicate Sound(a: Agent) {
    (a.status == Running ==> Ready(a.messages)) && forall t | t in a.sent :: Ready(t)
  }

  lemma StepSound(env: Env, a: Agent, e: Event)
    requires Sound(a)
    ensures Sound(Step(env, a, e))
  {
    hide Ready, ExecuteCalls, Add;
    if a.status == Running && e.Done? {
      if a.pending.Some? {
        ExecuteAnswers(env, a.messages, a.cwd, a.response, a.pending.value.0,
                       if a.pending.value.1.Some? then a.pending.value.1 else e.payload, e.outcomes);
      } else {
        match TextCalls(env, a.response) {
          case Some(Ok(calls)) => ExecuteAnswers(env, a.messages, a.cwd, a.response, calls, None, e.outcomes);
          case Some(Err(error)) =>
            var m := Message("assistant", a.response, None, e.payload, false);
            AddTwice(env, a.messages, m, Plain("user",
                "Your tool call could not be parsed: " + error + ". Correct it and call one tool again."));
          case None =>
        }
      }
    }
  }

  lemma AddTwice(env: Env, ms: seq<Message>, m: Message, n: Message)
    requires Ready(ms) && !IsTool(m) && !IsCall(m) && !IsTool(n) && !IsCall(n)
    ensures Ready(Add(env, Add(env, ms, m), n))
  {
    hide Awaiting, Add;
    AddPlain(env, ms, m);
    AddPlain(env, Add(env, ms, m), n);
  }

  lemma StartSound(env: Env, earlier: seq<Message>, cwd: string, prompt: Option<string>)
    requires Answered(earlier) && (HasUser(earlier) || prompt.Some?)
    ensures Sound(Start(env, earlier, cwd, prompt))
  {
    hide Awaiting, Trim, Add;
    TrimKeepsAnswered(env.estimate, earlier, env.usable, []);
    var kept := if earlier == [] then [] else Trim(env.estimate, earlier, env.usable);
    AddPlain(env, kept, Plain("system", "Current working directory: " + cwd));
    var placed := if cwd == "." then kept else Add(env, kept, Plain("system", "Current working directory: " + cwd));
    if prompt.Some? {
      AddPlain(env, placed, Plain("user", prompt.value));
    }
  }

  lemma {:induction false} RunSound(env: Env, a: Agent, events: seq<Event>)
    requires Sound(a)
    ensures Sound(Run(env, a, events))
    decreases |events|
  {
    hide Sound, Step;
    if events != [] {
      StepSound(env, a, events[0]);
      RunSound(env, Step(env, a, events[0]), events[1..]);
    }
  }

  /** Every request of a run that starts from an answered transcript with a user message
      is made from an answered transcript, whatever the provider and the tools do and
      however much is trimmed. */
  lemma EveryRequestAnswered(env: Env, earlier: seq<Message>, cwd: string, prompt: Option<string>, events: seq<Event>)
    requires Answered(earlier) && (HasUser(earlier) || prompt.Some?)
    ensures forall t | t in Run(env, Start(env, earlier, cwd, prompt), events).sent :: Answered(t)
  {
    hide Start, Run, Awaiting;
    StartSound(env, earlier, cwd, prompt);
    RunSound(env, Start(env, earlier, cwd, prompt), events);
  }

  // ----- retries --------------------------------------------------------------------------

  /** A retry sends the same transcript again; at most `retries` of them follow each other. */
  lemma {:induction false} RetriesRepeat(env: Env, a: Agent, events: seq<Event>)
    requires a.status == Running && (forall e | e in events :: !e.Done?)
    ensures var b := Run(env, a, events);
            && b.messages == a.messages
            && |a.sent| <= |b.sent| && b.sent[..|a.sent|] == a.sent
            && (forall i | |a.sent| <= i < |b.sent| :: b.sent[i] == a.messages)
            && (a.retryAttempts <= env.retries ==> |b.sent| - |a.sent| <= env.retries - a.retryAttempts)
    decreases |events|
  {
    if events != [] {
      var b := Step(env, a, events[0]);
      assert events[0] in events;
      if b.status == Running {
        RetriesRepeat(env, b, events[1..]);
      } else {
        StoppedStays(env, b, events[1..]);
      }
    }
  }

  lemma {:induction false} StoppedStays(env: Env, a: Agent, events: seq<Event>)
    requires a.status != Running
    ensures Run(env, a, events) == a
    decreases |events|
  {
    if events != [] {
      StoppedStays(env, a, events[1..]);
    }
  }
}
