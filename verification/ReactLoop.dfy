/** The ReAct loop (agent_server/internal/agent/react_loop.go).  The model stream, the tools, the
    approver, the hooks and cancellation are arbitrary: each is a method that may answer anything. */
module ReactLoop {
  import opened Text
  import opened ResponsesStream
  import opened ResponsesInput
  import opened RunTrace
  import opened ApprovalCache

  /** The context and the unbuffered output channel of one run. */
  class Listener {
    var cancelled: bool
    var received: seq<Event>
    /** Everything the loop tried to send. */
    ghost var attempted: seq<Event>
    /** The message log of every provider call, and what was read of its stream. */
    ghost var requests: seq<seq<Message>>
    ghost var streams: seq<Reading>

    ghost predicate Valid()
      reads this
    {
      && Subsequence(received, attempted)
      && (!cancelled ==> received == attempted)
    }

    constructor ()
      ensures Valid() && attempted == [] && requests == [] && streams == []
    {
      cancelled, received, attempted, requests, streams := false, [], [], [], [];
    }

    /** The context may be cancelled at any moment. */
    method Poll()
      requires Valid()
      modifies this`cancelled
      ensures Valid() && (old(cancelled) ==> cancelled)
    {
      if * {
        cancelled := true;
      }
    }

    /** A send that races with cancellation: once cancelled, either may win. */
    method Emit(e: Event)
      requires Valid()
      modifies this`cancelled, this`received, this`attempted
      ensures Valid() && (old(cancelled) ==> cancelled)
      ensures attempted == old(attempted) + [e]
    {
      Poll();
      SubsequenceGrows(received, attempted, e);
      attempted := attempted + [e];
      if cancelled {
        if * {
          received := received + [e];
        }
      } else {
        received := received + [e];
      }
    }
  }

  // ---------------------------------------------------------------- the model stream

  function DeltaOf(e: CompletionEvent): seq<string> {
    if e.MessageDelta? then [e.delta] else []
  }

  function DeltasIn(events: seq<CompletionEvent>): seq<string> {
    FlatMap(DeltaOf, events)
  }

  /** What the loop reads of one provider call: the assembled stream, cut short if the context is
      cancelled, or an error. */
  datatype Stream = StreamError(error: string) | Events(events: seq<CompletionEvent>)

  /** A stream with, for each event taken off it, whether the context was cancelled by then. */
  datatype Reading = Reading(stream: Stream, late: seq<bool>)

  predicate NoneLate(late: seq<bool>) {
    forall k :: 0 <= k < |late| ==> !late[k]
  }

  /** Every event of the stream was taken before the context was cancelled. */
  predicate ReadInTime(reading: Reading) {
    reading.stream.Events? && |reading.late| == |reading.stream.events| && NoneLate(reading.late)
  }

  lemma {:induction false} PrefixHasGoodIds(events: seq<CompletionEvent>, n: nat)
    requires GoodIds(CallsIn(events)) && n <= |events|
    ensures GoodIds(CallsIn(events[..n]))
    decreases |events|
  {
    if n == |events| {
      assert events[..n] == events;
    } else {
      var init := events[..|events| - 1];
      assert CallsIn(init) <= CallsIn(events);
      PrefixHasGoodIds(init, n);
      assert init[..n] == events[..n];
    }
  }

  type Encoder = ToolResult -> string

  /** One execution of a tool, plain or approved, and what came of it. */
  datatype ToolAnswer = ToolAnswer(approved: bool, call: ToolCall, result: ToolResult, failed: bool)

  /** An "always" under this call's own key is remembered. */
  predicate IsCached(tools: Tools, approved: set<string>, call: ToolCall)
    requires call.name in tools
  {
    tools[call.name].Capable? && tools[call.name].approvalKey(call.arguments).1 &&
    CacheKey(call.name, tools[call.name].approvalKey(call.arguments).0) in approved
  }

  /** How a known tool is executed.  A cached call runs once, approved, and nobody is asked.  Any other is
      tried first, and the approver is asked exactly when there is one, the tool can be approved and it asked
      to be; a yes runs it again, approved, and anything else refuses it.  The result is that of the last
      execution, unless it was refused. */
  predicate ExecutedAs(call: ToolCall, cached: bool, canAsk: bool, ran: seq<ToolAnswer>, answered: Option<Decision>,
                       result: ToolResult, failed: bool)
  {
    && 1 <= |ran| <= 2 && (forall k :: 0 <= k < |ran| ==> ran[k].call == call)
    && ran[0].approved == cached
    && (answered.Some? <==> !cached && canAsk && !ran[0].failed && ran[0].result.approvalRequired)
    && if answered == None then |ran| == 1 && result == ran[0].result && failed == ran[0].failed
       else if answered.value in {Once, Always} then
         |ran| == 2 && ran[1].approved && result == ran[1].result && failed == ran[1].failed
       else |ran| == 1 && !failed && !result.ok
  }

  /** The same, a failed execution being reported as a result that is not ok. */
  predicate CompletedAs(call: ToolCall, cached: bool, canAsk: bool, ran: seq<ToolAnswer>, answered: Option<Decision>,
                        result: ToolResult)
  {
    || ExecutedAs(call, cached, canAsk, ran, answered, result, false)
    || (!result.ok && ran != [] && ExecutedAs(call, cached, canAsk, ran, answered, ran[|ran| - 1].result, true))
  }

  /** Each output is the encoding of the result of its own call. */
  predicate Encoded(encode: Encoder, handled: seq<CallTrace>, outputs: seq<string>) {
    |outputs| == |handled| && forall i :: 0 <= i < |outputs| ==> outputs[i] == encode(handled[i].result)
  }

  predicate AllEncoded(encode: Encoder, rounds: seq<Round>) {
    forall i :: 0 <= i < |rounds| ==> Encoded(encode, rounds[i].handled, rounds[i].outputs)
  }

  datatype Action = Proceed | Block | RequestApproval

  /** What the before-call hooks say: an error, or an action with the call as the hooks left it. */
  datatype HookVerdict = HookError(error: string) | Verdict(action: Action, name: string, arguments: string, reason: string)

  predicate AsksApprover(verdict: HookVerdict, hasApprover: bool) {
    verdict.Verdict? && verdict.action == RequestApproval && hasApprover
  }

  /** What keeps a call from being started: failing or blocking hooks, or a question that nobody can
      answer, that fails, or that is answered with a deny. */
  predicate IsRefused(verdict: HookVerdict, hasApprover: bool, answer: Option<Decision>) {
    match verdict
    case HookError(_) => true
    case Verdict(action, _, _, _) =>
      action == Block || (action == RequestApproval && (!hasApprover || answer == None || answer == Some(Deny)))
  }

  class ReactLoop {
    const tools: Tools
    const maxToolRounds: nat
    /** JSON encoding of a result. */
    const encode: Encoder
    var approved: set<string>
    ghost var uses: seq<Use>

    ghost predicate Valid()
      reads this
    {
      IsCacheOf(tools, approved, uses) && Sound(tools, uses)
    }

    constructor (tools: Tools, maxToolRounds: int, encode: Encoder)
      ensures Valid() && this.tools == tools && this.encode == encode && uses == []
      ensures this.maxToolRounds == if maxToolRounds <= 0 then 8 else maxToolRounds
    {
      this.tools, this.encode := tools, encode;
      this.maxToolRounds := if maxToolRounds <= 0 then 8 else maxToolRounds;
      approved, uses := {}, [];
    }

    // -------------------------------------------------------------- the environment

    method CallProvider(run: Listener, messages: seq<Message>) returns (stream: Stream)
      requires run.Valid()
      modifies run`cancelled, run`requests
      ensures run.Valid() && (old(run.cancelled) ==> run.cancelled)
      ensures run.requests == old(run.requests) + [messages]
      ensures stream.Events? ==> GoodIds(CallsIn(stream.events))
    {
      run.requests := run.requests + [messages];
      run.Poll();
      if * {
        var error: string := *;
        stream := StreamError(error);
        return;
      }
      var data: seq<StreamData> := *;
      var events := Assemble(data).1;
      AssembledIdsAreGood(data);
      if run.cancelled {
        var n: int := *;
        if 0 <= n <= |events| {
          PrefixHasGoodIds(events, n);
          events := events[..n];
        }
      }
      stream := Events(events);
    }

    method AskHooks(call: ToolCall) returns (verdict: HookVerdict) {
      verdict := *;
    }

    /** `answer` records what the tool did. */
    method ExecuteTool(approved: bool, call: ToolCall) returns (result: ToolResult, failed: bool, ghost answer: ToolAnswer)
      ensures answer == ToolAnswer(approved, call, result, failed)
    {
      result, failed := *, *;
      answer := ToolAnswer(approved, call, result, failed);
    }

    method AskApprover() returns (decision: Decision, failed: bool) {
      decision, failed := *, *;
    }

    // -------------------------------------------------------------- approvals

    /** Records an approved execution, which its tool may fail. */
    method ExecuteApproved(call: ToolCall) returns (result: ToolResult, failed: bool, ghost answer: ToolAnswer)
      requires Valid() && Justified(tools, uses + [RanApproved(call.name, call.arguments)], |uses|)
      modifies this`uses
      ensures Valid() && uses == old(uses) + [RanApproved(call.name, call.arguments)]
      ensures answer == ToolAnswer(true, call, result, failed)
    {
      ghost var use := RanApproved(call.name, call.arguments);
      SoundGrows(tools, uses, use);
      forall k {
        GrantedGrows(tools, uses, use, |uses|, k);
      }
      uses := uses + [use];
      result, failed, answer := ExecuteTool(true, call);
    }

    /** Records the approver's answer, and an "always" in the cache. */
    method Remember(call: ToolCall, decision: Decision, key: string)
      requires Valid() && call.name in tools && tools[call.name].Capable?
      requires key == ToolKey(tools, call.name, call.arguments)
      modifies this
      ensures Valid() && uses == old(uses) + [Answered(call.name, call.arguments, decision)]
    {
      ghost var use := Answered(call.name, call.arguments, decision);
      forall k
        ensures GrantedBefore(tools, uses + [use], |uses| + 1, k) <==>
                GrantedBefore(tools, uses, |uses|, k) || Grants(tools, use, k)
      {
        GrantedGrows(tools, uses, use, |uses|, k);
      }
      SoundGrows(tools, uses, use);
      uses := uses + [use];
      if decision == Always && key != "" {
        approved := approved + {CacheKey(call.name, key)};
      }
    }

    /** `answered` is the decision the run was told about, if the tool asked for approval, and `ran` what
        the tool did each time it was executed. */
    method ExecuteWithApproval(run: Listener, hasApprover: bool, call: ToolCall)
      returns (result: ToolResult, failed: bool, ghost answered: Option<Decision>, ghost ran: seq<ToolAnswer>)
      requires Valid() && run.Valid() && call.name in tools
      modifies this, run`cancelled, run`received, run`attempted
      ensures Valid() && run.Valid() && (old(run.cancelled) ==> run.cancelled)
      ensures UsesOf(call, old(uses), uses, answered)
      ensures run.attempted == old(run.attempted) + ApprovalEvents(call, answered)
      ensures answered.Some? ==> hasApprover && tools[call.name].Capable?
      ensures ExecutedAs(call, IsCached(tools, old(approved), call), hasApprover && tools[call.name].Capable?,
                         ran, answered, result, failed)
    {
      var tool := tools[call.name];
      answered := None;
      ghost var answer;
      if tool.Capable? {
        var (key, ok) := tool.approvalKey(call.arguments);
        if ok && CacheKey(call.name, key) in approved {
          ghost var use := RanApproved(call.name, call.arguments);
          GrantedGrows(tools, uses, use, |uses|, CacheKey(call.name, key));
          result, failed, answer := ExecuteApproved(call);
          ran := [answer];
          return;
        }
      }
      result, failed, answer := ExecuteTool(false, call);
      ran := [answer];
      if failed || !result.approvalRequired || !tool.Capable? || !hasApprover {
        return;
      }
      var key := tool.approvalKey(call.arguments).0;
      run.Emit(ApprovalRequested(call.id, call.name));
      var decision, approveFailed := AskApprover();
      if approveFailed {
        answered := Some(Deny);
        run.Emit(ApprovalDecided(call.id, call.name, Deny));
        failed := false;
        result := ToolResult(false, "", "approval failed", false);
        return;
      }
      answered := Some(decision);
      run.Emit(ApprovalDecided(call.id, call.name, decision));
      Remember(call, decision, key);
      if decision == Once || decision == Always {
        assert JustAnswered(uses + [RanApproved(call.name, call.arguments)], |uses|);
        result, failed, answer := ExecuteApproved(call);
        ran := ran + [answer];
      } else {
        failed := false;
        result := ToolResult(false, "", "approval denied", false);
      }
    }

    /** The call as the hooks let it through, or the result that replaces it.  `verdict` is what the hooks
        said and `answer` what the approver said, None for a failure.  A hook's question is only put to an
        approver there is, and every answer but deny lets the call through, unknown ones included. */
    method BeforeToolCall(run: Listener, hasHooks: bool, hasApprover: bool, call: ToolCall)
      returns (renamed: ToolCall, refused: Option<ToolResult>, ghost verdict: HookVerdict, ghost answer: Option<Decision>)
      requires run.Valid()
      modifies run`cancelled, run`received, run`attempted
      ensures run.Valid() && (old(run.cancelled) ==> run.cancelled)
      ensures renamed == if hasHooks && verdict.Verdict? then call.(name := verdict.name, arguments := verdict.arguments) else call
      ensures refused.Some? <==> hasHooks && IsRefused(verdict, hasApprover, answer)
      ensures refused.Some? ==> refused.value.error == if verdict.HookError? then verdict.error else verdict.reason
      ensures run.attempted == old(run.attempted) +
                               if hasHooks && AsksApprover(verdict, hasApprover)
                               then [ApprovalRequested(renamed.id, renamed.name)] else []
    {
      renamed, refused, verdict, answer := call, None, HookError(""), None;
      if !hasHooks {
        return;
      }
      var said := AskHooks(call);
      verdict := said;
      if said.HookError? {
        refused := Some(ToolResult(false, "", said.error, false));
        return;
      }
      renamed := call.(name := said.name, arguments := said.arguments);
      if said.action == Block || (said.action == RequestApproval && !hasApprover) {
        refused := Some(ToolResult(false, "", said.reason, false));
        return;
      }
      if said.action == RequestApproval {
        run.Emit(ApprovalRequested(renamed.id, renamed.name));
        var decision, failed := AskApprover();
        answer := if failed then None else Some(decision);
        if failed || decision == Deny {
          refused := Some(ToolResult(false, "", said.reason, false));
        }
      }
    }

    /** The after-call hooks may replace the result. */
    method AfterToolCall(hasHooks: bool, result: ToolResult) returns (final: ToolResult)
      ensures !hasHooks ==> final == result
    {
      final := result;
      if hasHooks {
        final := *;
      }
    }

    /** Executes a known tool; an error becomes a result that is not ok, and the hooks have the last word. */
    method RunKnown(run: Listener, hasHooks: bool, hasApprover: bool, call: ToolCall)
      returns (result: ToolResult, ghost answered: Option<Decision>, ghost ran: seq<ToolAnswer>)
      requires Valid() && run.Valid() && call.name in tools
      modifies this, run`cancelled, run`received, run`attempted
      ensures Valid() && run.Valid() && (old(run.cancelled) ==> run.cancelled) && ran != []
      ensures old(uses) <= uses && run.attempted == old(run.attempted) + ApprovalEvents(call, answered)
      ensures answered.Some? ==> hasApprover && tools[call.name].Capable?
      ensures !hasHooks ==>
                CompletedAs(call, IsCached(tools, old(approved), call), hasApprover && tools[call.name].Capable?,
                            ran, answered, result)
    {
      var failed;
      result, failed, answered, ran := ExecuteWithApproval(run, hasApprover, call);
      if failed {
        result := ToolResult(false, "", "failed", false);
      }
      result := AfterToolCall(hasHooks, result);
    }

    method RunTool(run: Listener, hasHooks: bool, hasApprover: bool, call: ToolCall)
      returns (result: ToolResult, ghost trace: CallTrace, ghost ran: seq<ToolAnswer>)
      requires Valid() && run.Valid()
      modifies this, run`cancelled, run`received, run`attempted
      ensures Valid() && run.Valid() && (old(run.cancelled) ==> run.cancelled)
      ensures old(uses) <= uses && run.attempted == old(run.attempted) + CallEvents(trace)
      ensures HandledOk(trace, call) && trace.result == result
      ensures if trace.started then trace.known <==> trace.name in tools else !trace.known
      ensures trace.hookAsked || trace.decision.Some? ==> hasApprover
      ensures !hasHooks ==> trace.started && trace.name == call.name && (trace.known <==> call.name in tools)
      ensures trace.known <==> ran != []
      ensures trace.started && !trace.known ==> !result.ok
      ensures !hasHooks && call.name in tools ==>
                CompletedAs(call, IsCached(tools, old(approved), call), hasApprover && tools[call.name].Capable?,
                            ran, trace.decision, result)
    {
      ran := [];
      var renamed, refused;
      ghost var verdict, answer;
      renamed, refused, verdict, answer := BeforeToolCall(run, hasHooks, hasApprover, call);
      ghost var hookAsked := hasHooks && AsksApprover(verdict, hasApprover);
      if refused.Some? {
        result := refused.value;
        trace := CallTrace(renamed.id, renamed.name, hookAsked, false, false, None, result);
        run.Emit(ToolCallCompleted(Some(renamed.id), result));
        CallSaid(old(run.attempted), trace);
        return;
      }
      run.Emit(ToolCallStarted(renamed.id, renamed.name));
      if renamed.name !in tools {
        result := ToolResult(false, "", "unknown tool", false);
        trace := CallTrace(renamed.id, renamed.name, hookAsked, true, false, None, result);
        run.Emit(ToolCallCompleted(None, result));
        CallSaid(old(run.attempted), trace);
        return;
      }
      ghost var answered;
      result, answered, ran := RunKnown(run, hasHooks, hasApprover, renamed);
      trace := CallTrace(renamed.id, renamed.name, hookAsked, true, true, answered, result);
      run.Emit(ToolCallCompleted(Some(renamed.id), result));
      CallSaid(old(run.attempted), trace);
    }

    // -------------------------------------------------------------- one provider call

    /** Reads the events of one stream; true when a cancellation or a failure ended the run.  The context is
        only looked at when an event has been taken, so one that is cancelled after the last event goes
        unnoticed. */
    method ReadStream(run: Listener, events: seq<CompletionEvent>)
      returns (stopped: bool, text: string, calls: seq<ToolCall>, ghost deltas: seq<string>, ghost terminal: Event,
               ghost late: seq<bool>)
      requires run.Valid()
      modifies run`cancelled, run`received, run`attempted
      ensures run.Valid() && (old(run.cancelled) ==> run.cancelled)
      ensures old(run.cancelled) ==> forall k :: 0 <= k < |late| ==> late[k]
      ensures !run.cancelled ==> NoneLate(late)
      ensures stopped && terminal.RunCancelled? <==> exists k :: 0 <= k < |late| && late[k]
      ensures !stopped ==> ReadInTime(Reading(Events(events), late))
      ensures !stopped ==> CleanStream(events) && calls == CallsIn(events) && deltas == DeltasIn(events)
      ensures !stopped ==> text == JoinDeltas(deltas) && run.attempted == old(run.attempted) + DeltaEvents(deltas)
      ensures stopped ==> run.attempted == old(run.attempted) + DeltaEvents(deltas) + [terminal]
      ensures stopped ==> StoppedAt(events, late, deltas, terminal)
    {
      text, calls, deltas, late := "", [], [], [];
      terminal := RunCancelled;
      for i := 0 to |events|
        invariant run.Valid() && (old(run.cancelled) ==> run.cancelled)
        invariant |late| == i && NoneLate(late) && (old(run.cancelled) ==> i == 0)
        invariant CleanStream(events[..i]) && calls == CallsIn(events[..i]) && deltas == DeltasIn(events[..i])
        invariant text == JoinDeltas(deltas)
        invariant run.attempted == old(run.attempted) + DeltaEvents(deltas)
      {
        var event := events[i];
        ReadOne(events, i);
        run.Poll();
        late := late + [run.cancelled];
        if run.cancelled {
          assert late[i];
          run.Emit(RunCancelled);
          return true, text, calls, deltas, RunCancelled, late;
        }
        match event {
          case MessageDelta(delta) =>
            text := text + delta;
            OneDelta(deltas, delta);
            deltas := deltas + [delta];
            run.Emit(Event.MessageDelta(delta));
          case ToolCallReady(call) =>
            calls := calls + [call];
          case Failed(error) =>
            run.Emit(RunFailed(error));
            return true, text, calls, deltas, RunFailed(error), late;
          case Completed =>
        }
      }
      assert events[..|events|] == events;
      stopped := false;
    }

    /** Runs the calls of a round in order and logs an output for each. */
    method RunCalls(run: Listener, hasHooks: bool, hasApprover: bool, calls: seq<ToolCall>, messages: seq<Message>)
      returns (log: seq<Message>, ghost handled: seq<CallTrace>, ghost outputs: seq<string>)
      requires Valid() && run.Valid()
      modifies this, run`cancelled, run`received, run`attempted
      ensures Valid() && run.Valid() && (old(run.cancelled) ==> run.cancelled)
      ensures |handled| == |outputs| == |calls| && forall i :: 0 <= i < |calls| ==> HandledOk(handled[i], calls[i])
      ensures old(uses) <= uses && run.attempted == old(run.attempted) + FlatMap(CallEvents, handled)
      ensures log == messages + OutputMessages(calls, outputs) && Encoded(encode, handled, outputs)
    {
      log, handled, outputs := messages, [], [];
      for i := 0 to |calls|
        invariant Valid() && run.Valid() && (old(run.cancelled) ==> run.cancelled) && old(uses) <= uses
        invariant |handled| == |outputs| == i && forall j :: 0 <= j < i ==> HandledOk(handled[j], calls[j])
        invariant run.attempted == Onto(CallEvents, old(run.attempted), handled)
        invariant Encoded(encode, handled, outputs)
        invariant log == messages + OutputMessages(calls[..i], outputs)
      {
        var call := calls[i];
        var result;
        ghost var trace, ran;
        result, trace, ran := RunTool(run, hasHooks, hasApprover, call);
        var output := encode(result);
        OntoPush(CallEvents, old(run.attempted), handled, trace);
        OutputsPush(messages, calls, outputs, output);
        handled, outputs := handled + [trace], outputs + [output];
        log := log + [Message("tool", output, [], Some(call.id))];
      }
      assert calls[..|calls|] == calls;
      OntoIsConcat(CallEvents, old(run.attempted), handled);
    }

    // -------------------------------------------------------------- a run

    /** The error of a before-run hook that blocks the run, fails or asks for approval. */
    method BeforeRun(hasHooks: bool) returns (blocked: Option<string>)
      ensures !hasHooks ==> blocked.None?
    {
      blocked := None;
      if hasHooks {
        blocked := *;
      }
    }

    /** Reads what a provider call returned; `done` when the run ends with it. */
    method ReadReply(run: Listener, reply: Stream)
      returns (done: bool, text: string, calls: seq<ToolCall>, ghost reading: Reading, ghost deltas: seq<string>,
               ghost terminal: Event)
      requires run.Valid() && (reply.Events? ==> GoodIds(CallsIn(reply.events)))
      modifies run
      ensures run.Valid() && (old(run.cancelled) ==> run.cancelled)
      ensures run.requests == old(run.requests) && run.streams == old(run.streams) + [reading] && reading.stream == reply
      ensures done ==> run.attempted == old(run.attempted) + DeltaEvents(deltas) + [terminal]
      ensures done ==> EndsRun(reading, deltas, terminal)
      ensures (old(run.cancelled) ==> forall k :: 0 <= k < |reading.late| ==> reading.late[k])
      ensures !run.cancelled ==> NoneLate(reading.late)
      ensures !done ==> run.attempted == old(run.attempted) + DeltaEvents(deltas) && text == JoinDeltas(deltas)
      ensures !done ==> AsksFor(reading.stream, calls, deltas) && ReadInTime(reading)
    {
      text, calls, deltas, reading := "", [], [], Reading(reply, []);
      if reply.StreamError? {
        terminal := RunFailed(reply.error);
        run.Emit(RunFailed(reply.error));
        done := true;
      } else {
        ghost var late;
        done, text, calls, deltas, terminal, late := ReadStream(run, reply.events);
        reading := Reading(reply, late);
        if !done && |calls| == 0 {
          terminal := RunCompleted;
          run.Emit(RunCompleted);
          done := true;
        }
      }
      run.streams := run.streams + [reading];
    }

    /** A provider call and its stream. */
    method ReadRound(run: Listener, messages: seq<Message>)
      returns (done: bool, text: string, calls: seq<ToolCall>, ghost reading: Reading, ghost deltas: seq<string>,
               ghost terminal: Event)
      requires run.Valid()
      modifies run
      ensures run.Valid() && (old(run.cancelled) ==> run.cancelled)
      ensures run.requests == old(run.requests) + [messages] && run.streams == old(run.streams) + [reading]
      ensures done ==> run.attempted == old(run.attempted) + DeltaEvents(deltas) + [terminal]
      ensures done ==> EndsRun(reading, deltas, terminal)
      ensures old(run.cancelled) ==> forall k :: 0 <= k < |reading.late| ==> reading.late[k]
      ensures !run.cancelled ==> NoneLate(reading.late)
      ensures !done ==> run.attempted == old(run.attempted) + DeltaEvents(deltas) && text == JoinDeltas(deltas)
      ensures !done ==> AsksFor(reading.stream, calls, deltas) && ReadInTime(reading)
    {
      var reply := CallProvider(run, messages);
      done, text, calls, reading, deltas, terminal := ReadReply(run, reply);
    }

    /** A run that completes although it was cancelled: the provider, told of the cancellation too, closes
        its stream before another event is taken. */
    method CancelledRunCompletes(history: seq<Message>) returns (run: Listener, ghost trace: RunTrace)
      ensures fresh(run) && run.cancelled && trace.terminal == RunCompleted
      ensures Finished(encode, run.attempted, run.requests, run.streams, history, trace, maxToolRounds)
    {
      run := new Listener();
      run.Emit(RunStarted);
      run.requests := [history];
      run.cancelled := true;
      ghost var reading, deltas, terminal;
      var done, text, calls;
      done, text, calls, reading, deltas, terminal := ReadReply(run, Events([]));
      trace := RunTrace([], deltas, terminal);
      assert done && EndsRun(reading, deltas, terminal) && |reading.late| == 0;
      Finish(encode, [RunStarted], [], [], history, history, trace, reading, maxToolRounds);
    }

    /** One pass of the loop: a provider call, its stream, and its tool calls. */
    method RunRound(run: Listener, hasHooks: bool, hasApprover: bool, history: seq<Message>, messages: seq<Message>,
                    ghost rounds: seq<Round>)
      returns (done: bool, log: seq<Message>, ghost more: seq<Round>, ghost trace: RunTrace)
      requires Valid() && run.Valid() && |rounds| <= maxToolRounds
      requires Progress(encode, run.attempted, run.requests, run.streams, messages, history, rounds)
      modifies this, run
      ensures Valid() && run.Valid() && old(uses) <= uses
      ensures !done ==> |more| == |rounds| + 1 && Progress(encode, run.attempted, run.requests, run.streams, log, history, more)
      ensures done ==> Finished(encode, run.attempted, run.requests, run.streams, history, trace, maxToolRounds)
      ensures done && trace.terminal.RunCancelled? ==> run.cancelled
    {
      var text, calls;
      ghost var stream, deltas, terminal;
      done, text, calls, stream, deltas, terminal := ReadRound(run, messages);
      log, more, trace := messages, rounds, RunTrace(rounds, deltas, terminal);
      if done {
        Finish(encode, old(run.attempted), old(run.requests), old(run.streams), messages, history, trace, stream, maxToolRounds);
        return;
      }
      log := log + [Message("assistant", text, calls, None)];
      ghost var handled, outputs;
      log, handled, outputs := RunCalls(run, hasHooks, hasApprover, calls, log);
      ghost var r := Round(deltas, calls, handled, outputs);
      more := rounds + [r];
      NewRound(r, stream, old(run.attempted), messages);
      Advance(encode, old(run.attempted), old(run.requests), old(run.streams), messages, history, rounds, r, stream);
    }

    /** One run on a fresh channel.  The history of approvals only grows, so `Valid` speaks about every run
        on this loop. */
    method Run(run: Listener, history: seq<Message>, hasHooks: bool, hasApprover: bool) returns (ghost outcome: Outcome)
      requires Valid() && run.Valid()
      requires run.attempted == [] && run.requests == [] && run.streams == []
      modifies this, run
      ensures Valid() && run.Valid() && old(uses) <= uses
      ensures outcome.Blocked? ==> hasHooks && run.attempted == [RunFailed(outcome.error)] && run.requests == []
      ensures outcome.Ran? ==> Finished(encode, run.attempted, run.requests, run.streams, history, outcome.trace, maxToolRounds)
      ensures outcome.Ran? && outcome.trace.terminal.RunCancelled? ==> run.cancelled
    {
      var blocked := BeforeRun(hasHooks);
      if blocked.Some? {
        run.Emit(RunFailed(blocked.value));
        return Blocked(blocked.value);
      }
      run.Emit(RunStarted);
      var messages := history;
      ghost var rounds: seq<Round> := [];
      for round := 0 to maxToolRounds + 1
        invariant Valid() && run.Valid() && old(uses) <= uses && |rounds| == round
        invariant Progress(encode, run.attempted, run.requests, run.streams, messages, history, rounds)
      {
        var done;
        ghost var trace;
        done, messages, rounds, trace := RunRound(run, hasHooks, hasApprover, history, messages, rounds);
        if done {
          return Ran(trace);
        }
      }
      run.Emit(RunFailed(TOO_MANY_ROUNDS));
      outcome := Ran(RunTrace(rounds, [], RunFailed(TOO_MANY_ROUNDS)));
    }
  }

  /** Between two rounds. */
  ghost predicate Progress(encode: Encoder, attempted: seq<Event>, requests: seq<seq<Message>>, streams: seq<Reading>,
                           messages: seq<Message>, history: seq<Message>, rounds: seq<Round>)
  {
    && |rounds| == |requests| == |streams|
    && attempted == Onto(RoundEvents, [RunStarted], rounds)
    && messages == Onto(RoundMessages, history, rounds)
    && Follow(RoundMessages, history, requests, rounds)
    && Match(RoundFrom, rounds, streams)
    && AllEncoded(encode, rounds)
  }

  /** What holds of every run that was not blocked: its events follow the protocol, each request repeats
      the whole log, each round answers its own stream, the last stream decides the ending, and the
      provider is called at most once more than there may be tool rounds. */
  ghost predicate Finished(encode: Encoder, attempted: seq<Event>, requests: seq<seq<Message>>, streams: seq<Reading>,
                           history: seq<Message>, t: RunTrace, maxToolRounds: nat)
  {
    && attempted == RunEvents(t) && IsTerminal(t.terminal)
    && Follow(RoundMessages, history, requests, t.rounds)
    && Match(RoundFrom, t.rounds, streams)
    && AllEncoded(encode, t.rounds)
    && Ending(t, streams, maxToolRounds)
    && |requests| == |streams| <= maxToolRounds + 1
  }

  lemma OutputsPush(base: seq<Message>, calls: seq<ToolCall>, outputs: seq<string>, output: string)
    requires |outputs| < |calls|
    ensures var i := |outputs|;
            base + OutputMessages(calls[..i + 1], outputs + [output]) ==
            base + OutputMessages(calls[..i], outputs) + [Message("tool", output, [], Some(calls[i].id))]
  {
  }

  lemma NewRound(r: Round, stream: Reading, attempted: seq<Event>, messages: seq<Message>)
    requires AsksFor(stream.stream, r.calls, r.deltas) && ReadInTime(stream) && |r.handled| == |r.outputs| == |r.calls|
    requires forall i :: 0 <= i < |r.calls| ==> HandledOk(r.handled[i], r.calls[i])
    ensures RoundFrom(r, stream)
    ensures attempted + DeltaEvents(r.deltas) + FlatMap(CallEvents, r.handled) == attempted + RoundEvents(r)
    ensures messages + [Message("assistant", JoinDeltas(r.deltas), r.calls, None)] + OutputMessages(r.calls, r.outputs) ==
            messages + RoundMessages(r)
  {
  }

  lemma Advance(encode: Encoder, attempted: seq<Event>, requests: seq<seq<Message>>, streams: seq<Reading>,
                messages: seq<Message>, history: seq<Message>, rounds: seq<Round>, r: Round, stream: Reading)
    requires Progress(encode, attempted, requests, streams, messages, history, rounds)
    requires RoundFrom(r, stream) && Encoded(encode, r.handled, r.outputs)
    ensures Progress(encode, attempted + RoundEvents(r), requests + [messages], streams + [stream],
                     messages + RoundMessages(r), history, rounds + [r])
  {
    OntoPush(RoundEvents, [RunStarted], rounds, r);
    OntoPush(RoundMessages, history, rounds, r);
    FollowGrows(RoundMessages, history, requests, rounds);
    FollowKept(RoundMessages, history, requests + [messages], rounds, r);
    MatchGrows(RoundFrom, rounds, streams, r, stream);
  }

  lemma Finish(encode: Encoder, attempted: seq<Event>, requests: seq<seq<Message>>, streams: seq<Reading>,
               messages: seq<Message>, history: seq<Message>, t: RunTrace, stream: Reading, maxToolRounds: nat)
    requires Progress(encode, attempted, requests, streams, messages, history, t.rounds) && |t.rounds| <= maxToolRounds
    requires EndsRun(stream, t.rest, t.terminal)
    ensures Finished(encode, attempted + DeltaEvents(t.rest) + [t.terminal], requests + [messages], streams + [stream],
                     history, t, maxToolRounds)
  {
    FollowGrows(RoundMessages, history, requests, t.rounds);
    MatchKept(RoundFrom, t.rounds, streams, stream);
  }

  // ---------------------------------------------------------------- logs that grow round by round

  /** List `i` is the head and everything the first `i` rounds appended to it. */
  ghost predicate Follow<R, E>(f: R -> seq<E>, head: seq<E>, lists: seq<seq<E>>, rounds: seq<R>) {
    |lists| <= |rounds| + 1 && forall i :: 0 <= i < |lists| ==> lists[i] == Onto(f, head, rounds[..i])
  }

  ghost predicate Match<R, S>(ok: (R, S) -> bool, rounds: seq<R>, streams: seq<S>) {
    |rounds| <= |streams| && forall i :: 0 <= i < |rounds| ==> ok(rounds[i], streams[i])
  }

  lemma OntoPush<R, E>(f: R -> seq<E>, head: seq<E>, rounds: seq<R>, r: R)
    ensures Onto(f, head, rounds + [r]) == Onto(f, head, rounds) + f(r)
  {
    assert (rounds + [r])[..|rounds|] == rounds;
  }

  lemma FollowGrows<R, E>(f: R -> seq<E>, head: seq<E>, lists: seq<seq<E>>, rounds: seq<R>)
    requires Follow(f, head, lists, rounds) && |lists| == |rounds|
    ensures Follow(f, head, lists + [Onto(f, head, rounds)], rounds)
  {
    assert rounds[..|rounds|] == rounds;
  }

  lemma FollowKept<R, E>(f: R -> seq<E>, head: seq<E>, lists: seq<seq<E>>, rounds: seq<R>, r: R)
    requires Follow(f, head, lists, rounds)
    ensures Follow(f, head, lists, rounds + [r])
  {
    assert forall i :: 0 <= i <= |rounds| ==> (rounds + [r])[..i] == rounds[..i];
  }

  lemma MatchKept<R, S>(ok: (R, S) -> bool, rounds: seq<R>, streams: seq<S>, s: S)
    requires Match(ok, rounds, streams)
    ensures Match(ok, rounds, streams + [s])
  {
  }

  lemma MatchGrows<R, S>(ok: (R, S) -> bool, rounds: seq<R>, streams: seq<S>, r: R, s: S)
    requires Match(ok, rounds, streams) && |rounds| == |streams| && ok(r, s)
    ensures Match(ok, rounds + [r], streams + [s])
  {
  }

  const TOO_MANY_ROUNDS := "maximum tool rounds exceeded"

  datatype Outcome = Blocked(error: string) | Ran(trace: RunTrace)

  /** The stream ended well and asked for these calls, after saying these deltas. */
  predicate AsksFor(stream: Stream, calls: seq<ToolCall>, deltas: seq<string>) {
    && stream.Events? && CleanStream(stream.events)
    && calls == CallsIn(stream.events) && deltas == DeltasIn(stream.events)
    && calls != [] && GoodIds(calls)
  }

  /** The round handles exactly the calls its stream asked for, all of it read in time. */
  predicate RoundFrom(r: Round, reading: Reading) {
    RoundOk(r) && AsksFor(reading.stream, r.calls, r.deltas) && ReadInTime(reading)
  }

  /** A stream after which the run ends: an error, a failure, a cancellation, or no tool calls. */
  predicate EndsRun(reading: Reading, rest: seq<string>, terminal: Event) {
    match reading.stream
    case StreamError(error) => terminal == RunFailed(error) && rest == [] && reading.late == []
    case Events(events) =>
      || StoppedAt(events, reading.late, rest, terminal)
      || (&& CleanStream(events) && ReadInTime(reading)
          && CallsIn(events) == [] && rest == DeltasIn(events) && terminal == RunCompleted)
  }

  /** Only a full set of tool rounds runs out of them; otherwise the last stream ended the run. */
  ghost predicate Ending(t: RunTrace, streams: seq<Reading>, maxToolRounds: nat) {
    if |t.rounds| == maxToolRounds + 1 then t.terminal == RunFailed(TOO_MANY_ROUNDS) && t.rest == []
    else |streams| == |t.rounds| + 1 && EndsRun(streams[|t.rounds|], t.rest, t.terminal)
  }

  // ---------------------------------------------------------------- what every run keeps

  lemma FinishedTraceIsOk(encode: Encoder, attempted: seq<Event>, requests: seq<seq<Message>>, streams: seq<Reading>,
                          history: seq<Message>, t: RunTrace, maxToolRounds: nat)
    requires Finished(encode, attempted, requests, streams, history, t, maxToolRounds)
    ensures TraceOk(t)
  {
    forall i | 0 <= i < |t.rounds|
      ensures RoundOk(t.rounds[i])
    {
      assert RoundFrom(t.rounds[i], streams[i]);
    }
  }

  predicate AnyLate(reading: Reading) {
    exists k :: 0 <= k < |reading.late| && reading.late[k]
  }

  lemma EndsCancelledIff(reading: Reading, rest: seq<string>, terminal: Event)
    requires EndsRun(reading, rest, terminal)
    ensures terminal.RunCancelled? <==> AnyLate(reading)
    ensures terminal.RunCompleted? ==> ReadInTime(reading)
  {
    if AnyLate(reading) {
      var k :| 0 <= k < |reading.late| && reading.late[k];
      var i := |reading.late| - 1;
      assert k < i ==> reading.late[..i][k];
    }
  }

  /** When a run ends cancelled: if and only if some event of its last stream was taken after the
      cancellation.  Every stream before, and the last one of a run that completes, was read to its end
      in time; a cancellation after that goes unnoticed. */
  lemma CancelledIff(encode: Encoder, attempted: seq<Event>, requests: seq<seq<Message>>, streams: seq<Reading>,
                     history: seq<Message>, t: RunTrace, maxToolRounds: nat)
    requires Finished(encode, attempted, requests, streams, history, t, maxToolRounds)
    ensures streams != []
    ensures t.terminal.RunCancelled? <==> AnyLate(streams[|streams| - 1])
    ensures forall i :: 0 <= i < |streams| - 1 ==> ReadInTime(streams[i])
    ensures t.terminal.RunCompleted? ==> ReadInTime(streams[|streams| - 1])
  {
    forall i | 0 <= i < |t.rounds|
      ensures ReadInTime(streams[i])
    {
      assert RoundFrom(t.rounds[i], streams[i]);
    }
    if |t.rounds| <= maxToolRounds {
      EndsCancelledIff(streams[|t.rounds|], t.rest, t.terminal);
    }
  }

  /** In every request a run sends, each round's calls are followed by exactly one output per call. */
  lemma RequestsArePaired(encode: Encoder, attempted: seq<Event>, requests: seq<seq<Message>>, streams: seq<Reading>,
                          history: seq<Message>, t: RunTrace, maxToolRounds: nat, i: nat)
    requires Finished(encode, attempted, requests, streams, history, t, maxToolRounds)
    requires Paired(Input(history)) && i < |requests|
    ensures Paired(Input(requests[i]))
  {
    FinishedTraceIsOk(encode, attempted, requests, streams, history, t, maxToolRounds);
    LogStaysPaired(history, t.rounds[..i]);
  }

  /** What a round adds to the log: what the model said, and for each call the result it completed with. */
  function Answers(encode: Encoder): Round -> seq<Message> {
    (r: Round) =>
      [Message("assistant", JoinDeltas(r.deltas), r.calls, None)] +
      if |r.handled| == |r.calls| then ResultMessages(encode, r.calls, r.handled) else []
  }

  function ResultMessages(encode: Encoder, calls: seq<ToolCall>, handled: seq<CallTrace>): seq<Message>
    requires |handled| == |calls|
  {
    seq(|calls|, i requires 0 <= i < |calls| => Message("tool", encode(handled[i].result), [], Some(calls[i].id)))
  }

  lemma RoundAnswers(encode: Encoder, r: Round)
    requires RoundOk(r) && Encoded(encode, r.handled, r.outputs)
    ensures RoundMessages(r) == Answers(encode)(r)
  {
    assert OutputMessages(r.calls, r.outputs) == ResultMessages(encode, r.calls, r.handled);
  }

  lemma {:induction false} OntoSame<R, E>(f: R -> seq<E>, g: R -> seq<E>, head: seq<E>, rounds: seq<R>)
    requires forall i :: 0 <= i < |rounds| ==> f(rounds[i]) == g(rounds[i])
    ensures Onto(f, head, rounds) == Onto(g, head, rounds)
  {
    if rounds != [] {
      OntoSame(f, g, head, rounds[..|rounds| - 1]);
    }
  }

  /** Every request carries the history and then, for each round so far, each call's own result: the one
      that its ToolCallCompleted event reported, under the call's id. */
  lemma RequestsCarryResults(encode: Encoder, attempted: seq<Event>, requests: seq<seq<Message>>, streams: seq<Reading>,
                             history: seq<Message>, t: RunTrace, maxToolRounds: nat, i: nat)
    requires Finished(encode, attempted, requests, streams, history, t, maxToolRounds) && i < |requests|
    ensures i <= |t.rounds| && requests[i] == Onto(Answers(encode), history, t.rounds[..i])
    ensures attempted == RunEvents(t)
  {
    FinishedTraceIsOk(encode, attempted, requests, streams, history, t, maxToolRounds);
    forall j | 0 <= j < i
      ensures RoundMessages(t.rounds[..i][j]) == Answers(encode)(t.rounds[..i][j])
    {
      assert Encoded(encode, t.rounds[j].handled, t.rounds[j].outputs);
      RoundAnswers(encode, t.rounds[j]);
    }
    OntoSame(RoundMessages, Answers(encode), history, t.rounds[..i]);
  }

  /** What the listener of a run receives: at most one terminal event, with nothing after it; and all of
      the run's events, exactly one of them terminal, unless it was cancelled. */
  lemma ReceivedEvents(encode: Encoder, attempted: seq<Event>, requests: seq<seq<Message>>, streams: seq<Reading>,
                       history: seq<Message>, t: RunTrace, maxToolRounds: nat, received: seq<Event>)
    requires Finished(encode, attempted, requests, streams, history, t, maxToolRounds) && Subsequence(received, attempted)
    ensures forall i :: 0 <= i < |received| && IsTerminal(received[i]) ==> i == |received| - 1
    ensures received == attempted ==> |received| >= 2 && received[0] == RunStarted && IsTerminal(received[|received| - 1])
    ensures Completions(attempted) == FlatMap(RoundCompletions, t.rounds)
    ensures forall i :: 0 <= i < |t.rounds| ==> CompletesEachCall(RoundCompletions(t.rounds[i]), t.rounds[i])
  {
    FinishedTraceIsOk(encode, attempted, requests, streams, history, t, maxToolRounds);
    TerminalStaysLast(t, received);
    EventsAreFramed(t);
    OneCompletionPerCall(t);
  }

  lemma ReadOne(events: seq<CompletionEvent>, i: nat)
    requires i < |events|
    ensures CallsIn(events[..i + 1]) ==
            CallsIn(events[..i]) + if events[i].ToolCallReady? then [events[i].call] else []
    ensures DeltasIn(events[..i + 1]) ==
            DeltasIn(events[..i]) + if events[i].MessageDelta? then [events[i].delta] else []
    ensures CleanStream(events[..i]) && !events[i].Failed? ==> CleanStream(events[..i + 1])
  {
    assert events[..i + 1] == events[..i] + [events[i]] && events[..i + 1][..i] == events[..i];
    FlatMapPush(DeltaOf, events[..i], events[i]);
  }

  lemma OneDelta(deltas: seq<string>, delta: string)
    ensures DeltaEvents(deltas + [delta]) == DeltaEvents(deltas) + [Event.MessageDelta(delta)]
    ensures JoinDeltas(deltas + [delta]) == JoinDeltas(deltas) + delta
  {
    FlatMapPush(DeltaEvent, deltas, delta);
    FlatMapPush(Identity, deltas, delta);
  }

  /** No failure was reported in the stream. */
  predicate CleanStream(events: seq<CompletionEvent>) {
    forall i :: 0 <= i < |events| ==> !events[i].Failed?
  }

  /** A stream stopped at the last event taken: by a cancellation seen then, or by its own failure. */
  predicate StoppedAt(events: seq<CompletionEvent>, late: seq<bool>, deltas: seq<string>, terminal: Event) {
    && 0 < |late| <= |events|
    && var i := |late| - 1;
       && NoneLate(late[..i]) && CleanStream(events[..i]) && deltas == DeltasIn(events[..i])
       && if late[i] then terminal == RunCancelled else events[i].Failed? && terminal == RunFailed(events[i].error)
  }

  lemma CallSaid(base: seq<Event>, c: CallTrace)
    ensures base + CallEvents(c) ==
            base + (if c.hookAsked then [ApprovalRequested(c.id, c.name)] else []) +
            (if c.started then [ToolCallStarted(c.id, c.name)] else []) +
            (if c.decision.Some?
             then [ApprovalRequested(c.id, c.name), ApprovalDecided(c.id, c.name, c.decision.value)]
             else []) +
            [ToolCallCompleted(if c.started && !c.known then None else Some(c.id), c.result)]
  {
  }

  /** A yes runs the approved call right away, a no does not, and without a question the call may have
      been approved before. */
  predicate UsesOf(call: ToolCall, before: seq<Use>, after: seq<Use>, answered: Option<Decision>) {
    var ran := RanApproved(call.name, call.arguments);
    match answered
    case None => after == before || after == before + [ran]
    case Some(decision) =>
      if decision == Once || decision == Always
      then after == before + [Answered(call.name, call.arguments, decision)] + [ran]
      else after == before || after == before + [Answered(call.name, call.arguments, decision)]
  }

  function ApprovalEvents(call: ToolCall, answered: Option<Decision>): seq<Event> {
    if answered.None? then []
    else [ApprovalRequested(call.id, call.name), ApprovalDecided(call.id, call.name, answered.value)]
  }
}
