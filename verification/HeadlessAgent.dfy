/** A headless run as it is carried out: one context, updated event by event. */
module HeadlessAgent {
  import opened Text
  import opened Messages
  import opened FileCache
  import opened ContextManager
  import opened AgentLoop
  import opened UniqueIds

  /** Calls in the text of a reply, renamed when there may be several. */
  method FindLegacyTextToolCall(env: Env, text: string) returns (found: Option<Result<seq<ToolCall>>>)
    ensures found == TextCalls(env, text)
  {
    if env.nativeTools {
      return None;
    }
    if env.allowsBatches {
      found := env.findCalls(text);
      if found.Some? && found.value.Ok? {
        var renamed := WithUniqueIds(found.value.value);
        return Some(Ok(renamed));
      }
      return;
    }
    var single := env.findCall(text);
    return match single
           case Some(Ok(call)) => Some(Ok([call]))
           case Some(Err(error)) => Some(Err(error))
           case None => None;
  }

  class HeadlessAgent {
    const env: Env
    const context: ContextManager
    var currentDir: string
    var fullResponse: string
    var retryAttempts: nat
    var pendingStructured: Option<(seq<ToolCall>, Option<string>)>
    var sent: seq<seq<Message>>
    var status: Status

    ghost predicate Valid()
      reads this, context
    {
      context.Valid() && context.estimate == env.estimate && context.Usable() == env.usable
    }

    function View(): Agent
      reads this, context
    {
      Agent(context.messages, currentDir, fullResponse, retryAttempts, pendingStructured, sent, status)
    }

    constructor (env: Env, context: ContextManager, cwd: string)
      requires context.Valid() && context.estimate == env.estimate && context.Usable() == env.usable
      ensures Valid() && View() == Agent(context.messages, cwd, "", 0, None, [context.messages], Running)
      ensures this.env == env && this.context == context
    {
      this.env, this.context := env, context;
      currentDir, fullResponse, retryAttempts, pendingStructured := cwd, "", 0, None;
      sent, status := [context.messages], Running;
    }

    method Append(m: Message)
      requires Valid()
      modifies context
      ensures Valid() && context.messages == Add(env, old(context.messages), m)
    {
      context.AddMessageRaw(m);
    }

    /** Appends the call message and then one result per call. */
    method ExecuteToolCalls(calls: seq<ToolCall>, payload: Option<string>, outcomes: Outcomes)
      requires Valid()
      modifies this`currentDir, context
      ensures Valid()
      ensures var done := ExecuteCalls(env, old(context.messages), old(currentDir), fullResponse, calls, payload,
              outcomes);
              context.messages == done.0 && currentDir == done.1
    {
      hide Add, Tiers, Tokens;
      Append(CallMessage(fullResponse, calls, payload));
      ghost var called := context.messages;
      if |calls| > 1 && !env.allowsBatches {
        assert calls[0..] == calls;
        for i := 0 to |calls|
          invariant Valid() && currentDir == old(currentDir)
          invariant RejectAll(env, context.messages, calls[i..], |calls|) == RejectAll(env, called, calls, |calls|)
        {
          assert calls[i..][0] == calls[i] && calls[i..][1..] == calls[i + 1..];
          Append(ResultMessage(calls[i], RejectionOf(|calls|), true));
        }
        return;
      }
      var before := currentDir;
      for i := 0 to |calls|
        invariant Valid()
        invariant RunAll(env, context.messages, currentDir, calls, outcomes, i) ==
                  RunAll(env, called, before, calls, outcomes, 0)
      {
        var refusal := env.refusal(calls[i]);
        if refusal.Some? {
          Append(ResultMessage(calls[i], "ERROR: " + refusal.value, true));
          continue;
        }
        var outcome := outcomes(i);
        currentDir := outcome.cwd;
        Append(ResultMessage(calls[i], outcome.text, outcome.isError));
      }
      if currentDir != before {
        Append(Plain("system", "Current working directory: " + currentDir));
      }
    }

    method TriggerRequest()
      modifies this`fullResponse, this`sent
      ensures fullResponse == "" && sent == old(sent) + [context.messages]
    {
      fullResponse := "";
      sent := sent + [context.messages];
    }

    method FinishTurn(payload: Option<string>, outcomes: Outcomes)
      requires Valid() && status == Running
      modifies this, context
      ensures Valid() && View() == OnDone(env, old(View()), payload, outcomes)
    {
      hide Add, ExecuteCalls, Tiers, Tokens;
      retryAttempts := 0;
      if pendingStructured.Some? {
        var batch := pendingStructured.value;
        pendingStructured := None;
        ExecuteToolCalls(batch.0, if batch.1.Some? then batch.1 else payload, outcomes);
        TriggerRequest();
        return;
      }
      var found := FindLegacyTextToolCall(env, fullResponse);
      if found.Some? && found.value.Ok? {
        ExecuteToolCalls(found.value.value, None, outcomes);
        TriggerRequest();
        return;
      }
      Append(Message("assistant", fullResponse, None, payload, false));
      if found.Some? {
        Append(Plain("user", "Your tool call could not be parsed: " + found.value.error +
            ". Correct it and call one tool again."));
        TriggerRequest();
        return;
      }
      status := Finished;
    }

    method Handle(e: Event)
      requires Valid()
      modifies this, context
      ensures Valid() && View() == Step(env, old(View()), e)
    {
      hide OnDone;
      if status != Running {
        return;
      }
      match e {
        case Chunk(text) => fullResponse := fullResponse + text;
        case ToolCalls(calls, payload) => pendingStructured := Some((calls, payload));
        case Done(payload, outcomes) => FinishTurn(payload, outcomes);
        case Cancelled => status := Stopped("cancelled");
        case SettlementFailed(error) => status := Stopped(error);
        case Failed(error, retryable) =>
          if pendingStructured.None? && retryAttempts < env.retries && retryable {
            retryAttempts := retryAttempts + 1;
            TriggerRequest();
          } else {
            status := Stopped(error);
          }
        case Closed => status := Finished;
        case Other =>
      }
    }

    method RunAgent(events: seq<Event>)
      requires Valid()
      modifies this, context
      ensures Valid() && View() == Run(env, old(View()), events)
    {
      hide Step;
      assert events[0..] == events;
      for i := 0 to |events|
        invariant Valid() && Run(env, View(), events[i..]) == Run(env, old(View()), events)
      {
        assert events[i..][0] == events[i] && events[i..][1..] == events[i + 1..];
        Handle(events[i]);
      }
      assert events[|events|..] == [];
    }
  }
}
