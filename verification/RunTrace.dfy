/** What one run of the ReAct loop says to its listener and to the model
    (agent_server/internal/agent/react_loop.go, types.go), described independently of the loop. */
module RunTrace {
  import opened Text
  import opened ResponsesStream
  import opened ResponsesInput

  datatype Decision = Once | Always | Deny | OtherDecision

  /** `approvalRequired` is the code "approval_required" in the result's data. */
  datatype ToolResult = ToolResult(ok: bool, content: string, error: string, approvalRequired: bool)

  datatype Event =
    | RunStarted
    | MessageDelta(content: string)
    | ToolCallStarted(id: string, name: string)
    | ToolCallCompleted(forId: Option<string>, result: ToolResult)
    | ApprovalRequested(id: string, name: string)
    | ApprovalDecided(id: string, name: string, decision: Decision)
    | RunCompleted
    | RunFailed(error: string)
    | RunCancelled

  predicate IsTerminal(e: Event) {
    e.RunCompleted? || e.RunFailed? || e.RunCancelled?
  }

  // ---------------------------------------------------------------- one call, one round, one run

  /** How one tool call went: whether a hook asked for approval, whether the call was started, whether
      its tool exists, the approver's decision if the tool asked, and the result.  Hooks may rename the
      call but not change its id. */
  datatype CallTrace =
    CallTrace(id: string, name: string, hookAsked: bool, started: bool, known: bool, decision: Option<Decision>, result: ToolResult)

  function CallEvents(c: CallTrace): seq<Event> {
    (if c.hookAsked then [ApprovalRequested(c.id, c.name)] else []) +
    (if c.started then [ToolCallStarted(c.id, c.name)] else []) +
    (if c.decision.Some?
     then [ApprovalRequested(c.id, c.name), ApprovalDecided(c.id, c.name, c.decision.value)]
     else []) +
    [ToolCallCompleted(if c.started && !c.known then None else Some(c.id), c.result)]
  }

  /** A complete tool round: the text deltas, the calls in stream order, and for each the trace and the
      encoded result sent back to the model. */
  datatype Round = Round(deltas: seq<string>, calls: seq<ToolCall>, handled: seq<CallTrace>, outputs: seq<string>)

  predicate RoundOk(r: Round) {
    && r.calls != [] && GoodIds(r.calls)
    && |r.handled| == |r.calls| == |r.outputs|
    && forall i :: 0 <= i < |r.calls| ==> HandledOk(r.handled[i], r.calls[i])
  }

  predicate HandledOk(c: CallTrace, call: ToolCall) {
    && c.id == call.id
    && (c.decision.Some? ==> c.started && c.known)
  }

  function DeltaEvent(delta: string): seq<Event> {
    [Event.MessageDelta(delta)]
  }

  function DeltaEvents(deltas: seq<string>): seq<Event> {
    FlatMap(DeltaEvent, deltas)
  }

  function RoundEvents(r: Round): seq<Event> {
    DeltaEvents(r.deltas) + FlatMap(CallEvents, r.handled)
  }

  function Identity(s: string): string {
    s
  }

  function JoinDeltas(deltas: seq<string>): string {
    FlatMap(Identity, deltas)
  }

  function OutputMessages(calls: seq<ToolCall>, outputs: seq<string>): seq<Message>
    requires |calls| == |outputs|
  {
    seq(|calls|, i requires 0 <= i < |calls| => Message("tool", outputs[i], [], Some(calls[i].id)))
  }

  /** What a round appends to the message log. */
  function RoundMessages(r: Round): seq<Message> {
    [Message("assistant", JoinDeltas(r.deltas), r.calls, None)] +
    if |r.calls| == |r.outputs| then OutputMessages(r.calls, r.outputs) else []
  }

  /** A whole run that was not blocked: its complete rounds, the deltas after them, and how it ended. */
  datatype RunTrace = RunTrace(rounds: seq<Round>, rest: seq<string>, terminal: Event)

  ghost predicate TraceOk(t: RunTrace) {
    IsTerminal(t.terminal) && forall i :: 0 <= i < |t.rounds| ==> RoundOk(t.rounds[i])
  }

  function BodyEvents(t: RunTrace): seq<Event> {
    Onto(RoundEvents, [RunStarted], t.rounds) + DeltaEvents(t.rest)
  }

  function RunEvents(t: RunTrace): seq<Event> {
    BodyEvents(t) + [t.terminal]
  }

  // ---------------------------------------------------------------- the event protocol

  predicate NoneTerminal(events: seq<Event>) {
    forall i :: 0 <= i < |events| ==> !IsTerminal(events[i]) && !events[i].RunStarted?
  }

  ghost predicate MapsToNonTerminal<A(!new)>(f: A -> seq<Event>) {
    forall a :: NoneTerminal(f(a))
  }

  lemma {:induction false} FlatMapNonTerminal<A(!new)>(f: A -> seq<Event>, xs: seq<A>)
    requires MapsToNonTerminal(f)
    ensures NoneTerminal(FlatMap(f, xs))
  {
    if xs != [] {
      FlatMapNonTerminal(f, xs[..|xs| - 1]);
      assert NoneTerminal(f(xs[|xs| - 1]));
    }
  }

  lemma RoundNonTerminal(r: Round)
    ensures NoneTerminal(RoundEvents(r))
  {
    assert MapsToNonTerminal(DeltaEvent) && MapsToNonTerminal(CallEvents);
    FlatMapNonTerminal(DeltaEvent, r.deltas);
    FlatMapNonTerminal(CallEvents, r.handled);
  }

  /** RunStarted comes first and only there; the terminal event comes last and only there. */
  lemma EventsAreFramed(t: RunTrace)
    requires TraceOk(t)
    ensures var events := RunEvents(t);
            && |events| >= 2
            && (forall i :: 0 <= i < |events| ==> (events[i].RunStarted? <==> i == 0))
            && (forall i :: 0 <= i < |events| ==> (IsTerminal(events[i]) <==> i == |events| - 1))
  {
    forall r: Round {
      RoundNonTerminal(r);
    }
    assert MapsToNonTerminal(RoundEvents) && MapsToNonTerminal(DeltaEvent);
    FlatMapNonTerminal(RoundEvents, t.rounds);
    OntoIsConcat(RoundEvents, [RunStarted], t.rounds);
    FlatMapNonTerminal(DeltaEvent, t.rest);
  }

  /** The call that a completion event names; an unknown tool's completion names none. */
  function Completed(e: Event): seq<Option<string>> {
    if e.ToolCallCompleted? then [e.forId] else []
  }

  /** All completions of a trace, in order. */
  function Completions(events: seq<Event>): seq<Option<string>> {
    FlatMap(Completed, events)
  }

  /** What is said to have completed for a call: its own id, unless its tool is unknown. */
  function CompletionFor(c: CallTrace): seq<Option<string>> {
    [if c.started && !c.known then None else Some(c.id)]
  }

  function RoundCompletions(r: Round): seq<Option<string>> {
    FlatMap(CompletionFor, r.handled)
  }

  lemma NoCompletions(events: seq<Event>)
    requires forall i :: 0 <= i < |events| ==> !events[i].ToolCallCompleted?
    ensures Completions(events) == []
    decreases |events|
  {
    if events != [] {
      NoCompletions(events[..|events| - 1]);
    }
  }

  ghost predicate CompletesAs<A(!new)>(f: A -> seq<Event>, g: A -> seq<Option<string>>) {
    forall a :: Completions(f(a)) == g(a)
  }

  /** The completions of concatenated traces. */
  lemma {:induction false} CompletionsOfAll<A(!new)>(f: A -> seq<Event>, g: A -> seq<Option<string>>, xs: seq<A>)
    requires CompletesAs(f, g)
    ensures Completions(FlatMap(f, xs)) == FlatMap(g, xs)
  {
    if xs != [] {
      var n := |xs| - 1;
      CompletionsOfAll(f, g, xs[..n]);
      FlatMapConcat(Completed, FlatMap(f, xs[..n]), f(xs[n]));
    }
  }

  lemma CallCompletesOnce(c: CallTrace)
    ensures Completions(CallEvents(c)) == CompletionFor(c)
  {
    var e := ToolCallCompleted(if c.started && !c.known then None else Some(c.id), c.result);
    var before := CallEvents(c)[..|CallEvents(c)| - 1];
    assert CallEvents(c) == before + [e];
    NoCompletions(before);
    FlatMapPush(Completed, before, e);
    assert [] + CompletionFor(c) == CompletionFor(c);
  }

  function Nothing(delta: string): seq<Option<string>> {
    []
  }

  lemma {:induction false} NothingForAll(deltas: seq<string>)
    ensures FlatMap(Nothing, deltas) == []
  {
    if deltas != [] {
      NothingForAll(deltas[..|deltas| - 1]);
    }
  }

  lemma NoDeltaCompletes(deltas: seq<string>)
    ensures Completions(DeltaEvents(deltas)) == []
  {
    forall d
      ensures Completions(DeltaEvent(d)) == Nothing(d)
    {
      NoCompletions(DeltaEvent(d));
    }
    CompletionsOfAll(DeltaEvent, Nothing, deltas);
    NothingForAll(deltas);
  }

  lemma RoundCompletes(r: Round)
    ensures Completions(RoundEvents(r)) == RoundCompletions(r)
  {
    forall c
      ensures Completions(CallEvents(c)) == CompletionFor(c)
    {
      CallCompletesOnce(c);
    }
    CompletionsOfAll(CallEvents, CompletionFor, r.handled);
    NoDeltaCompletes(r.deltas);
    FlatMapConcat(Completed, DeltaEvents(r.deltas), FlatMap(CallEvents, r.handled));
    assert [] + RoundCompletions(r) == RoundCompletions(r);
  }

  lemma BodyCompletes(rounds: seq<Round>)
    ensures Completions(Onto(RoundEvents, [RunStarted], rounds)) == FlatMap(RoundCompletions, rounds)
  {
    forall r
      ensures Completions(RoundEvents(r)) == RoundCompletions(r)
    {
      RoundCompletes(r);
    }
    CompletionsOfAll(RoundEvents, RoundCompletions, rounds);
    OntoIsConcat(RoundEvents, [RunStarted], rounds);
    FlatMapConcat(Completed, [RunStarted], FlatMap(RoundEvents, rounds));
    NoCompletions([RunStarted]);
    assert [] + FlatMap(RoundCompletions, rounds) == FlatMap(RoundCompletions, rounds);
  }

  lemma RunCompletions(t: RunTrace)
    requires IsTerminal(t.terminal)
    ensures Completions(RunEvents(t)) == FlatMap(RoundCompletions, t.rounds)
  {
    var body, deltas := Onto(RoundEvents, [RunStarted], t.rounds), DeltaEvents(t.rest);
    BodyCompletes(t.rounds);
    NoDeltaCompletes(t.rest);
    NoCompletions([t.terminal]);
    FlatMapConcat(Completed, body, deltas);
    FlatMapConcat(Completed, body + deltas, [t.terminal]);
    var all := FlatMap(RoundCompletions, t.rounds);
    assert all + [] + [] == all;
  }

  /** One completion per call of the round, in the calls' order, under the call's own id unless its tool
      turned out to be unknown. */
  predicate CompletesEachCall(completions: seq<Option<string>>, r: Round) {
    && |completions| == |r.calls| == |r.handled|
    && forall i :: 0 <= i < |r.calls| ==>
         completions[i] == if r.handled[i].started && !r.handled[i].known then None else Some(r.calls[i].id)
  }

  lemma {:induction false} CompletionForEach(cs: seq<CallTrace>)
    ensures |FlatMap(CompletionFor, cs)| == |cs|
    ensures forall i :: 0 <= i < |cs| ==> [FlatMap(CompletionFor, cs)[i]] == CompletionFor(cs[i])
  {
    if cs != [] {
      CompletionForEach(cs[..|cs| - 1]);
    }
  }

  /** A run completes exactly its calls: the completions are those of its rounds in order, and each round's
      are one per call, in order. */
  lemma OneCompletionPerCall(t: RunTrace)
    requires TraceOk(t)
    ensures Completions(RunEvents(t)) == FlatMap(RoundCompletions, t.rounds)
    ensures forall i :: 0 <= i < |t.rounds| ==> CompletesEachCall(RoundCompletions(t.rounds[i]), t.rounds[i])
  {
    RunCompletions(t);
    forall i | 0 <= i < |t.rounds|
      ensures CompletesEachCall(RoundCompletions(t.rounds[i]), t.rounds[i])
    {
      EachCallCompletes(t.rounds[i]);
    }
  }

  lemma EachCallCompletes(r: Round)
    requires RoundOk(r)
    ensures CompletesEachCall(RoundCompletions(r), r)
  {
    CompletionForEach(r.handled);
    forall i | 0 <= i < |r.calls|
      ensures RoundCompletions(r)[i] == if r.handled[i].started && !r.handled[i].known then None else Some(r.calls[i].id)
    {
      assert HandledOk(r.handled[i], r.calls[i]);
      assert [RoundCompletions(r)[i]][0] == CompletionFor(r.handled[i])[0];
    }
  }

  // ---------------------------------------------------------------- what the listener receives

  /** Some events of `all` were dropped to give `some`. */
  predicate Subsequence<T(==)>(some: seq<T>, all: seq<T>)
    decreases |all|
  {
    if some == [] then true
    else if all == [] then false
    else
      || (some[|some| - 1] == all[|all| - 1] && Subsequence(some[..|some| - 1], all[..|all| - 1]))
      || Subsequence(some, all[..|all| - 1])
  }

  lemma SubsequenceGrows<T>(some: seq<T>, all: seq<T>, x: T)
    requires Subsequence(some, all)
    ensures Subsequence(some, all + [x]) && Subsequence(some + [x], all + [x])
  {
    assert (all + [x])[..|all|] == all && (some + [x])[..|some|] == some;
  }

  lemma {:induction false} SubsequenceContains<T>(some: seq<T>, all: seq<T>, i: nat) returns (j: nat)
    requires Subsequence(some, all) && i < |some|
    ensures j < |all| && all[j] == some[i]
    decreases |all|
  {
    var n := |all| - 1;
    if Subsequence(some, all[..n]) {
      j := SubsequenceContains(some, all[..n], i);
    } else if i == |some| - 1 {
      j := n;
    } else {
      j := SubsequenceContains(some[..|some| - 1], all[..n], i);
    }
  }

  lemma NoTerminalAppears(some: seq<Event>, all: seq<Event>)
    requires Subsequence(some, all) && forall j :: 0 <= j < |all| ==> !IsTerminal(all[j])
    ensures forall i :: 0 <= i < |some| ==> !IsTerminal(some[i])
  {
    forall i | 0 <= i < |some|
      ensures !IsTerminal(some[i])
    {
      var j := SubsequenceContains(some, all, i);
    }
  }

  /** Dropping events leaves at most one terminal event, with nothing after it. */
  lemma TerminalStaysLast(t: RunTrace, received: seq<Event>)
    requires TraceOk(t) && Subsequence(received, RunEvents(t))
    ensures forall i :: 0 <= i < |received| && IsTerminal(received[i]) ==> i == |received| - 1 && received[i] == t.terminal
  {
    EventsAreFramed(t);
    var events := RunEvents(t);
    var n := |events| - 1;
    assert events[..n] == BodyEvents(t);
    if Subsequence(received, events[..n]) {
      NoTerminalAppears(received, events[..n]);
    } else if received != [] {
      NoTerminalAppears(received[..|received| - 1], events[..n]);
      assert forall i :: 0 <= i < |received| - 1 ==> received[i] == received[..|received| - 1][i];
    }
  }

  // ---------------------------------------------------------------- the message log

  lemma RoundExtendsLog(log: seq<Message>, r: Round)
    requires Paired(Input(log)) && RoundOk(r)
    ensures Paired(Input(log + RoundMessages(r)))
  {
    var messages := RoundMessages(r);
    RoundKeepsPairing(log, messages, r.calls, |r.calls|);
    assert messages[..|r.calls| + 1] == messages;
  }

  function LogAfter(history: seq<Message>, rounds: seq<Round>): seq<Message> {
    Onto(RoundMessages, history, rounds)
  }

  /** Every log of complete rounds on a paired history is paired. */
  lemma {:induction false} LogStaysPaired(history: seq<Message>, rounds: seq<Round>)
    requires Paired(Input(history)) && forall i :: 0 <= i < |rounds| ==> RoundOk(rounds[i])
    ensures Paired(Input(LogAfter(history, rounds)))
  {
    if rounds != [] {
      var n := |rounds| - 1;
      LogStaysPaired(history, rounds[..n]);
      RoundExtendsLog(LogAfter(history, rounds[..n]), rounds[n]);
    }
  }

  // ---------------------------------------------------------------- the order within one call

  predicate Says(events: seq<Event>, i: nat, e: Event) {
    i < |events| && events[i] == e
  }

  /** A call's events: it ends with its completion, which carries its result, and nothing else completes it;
      it is started, under its own id and name, if and only if it was not refused; a decision is told of
      exactly when there was one, right after its question and after the start; and every question about
      the call is a hook's, before the start, or the one decided. */
  lemma CallIsOrdered(c: CallTrace)
    requires c.decision.Some? ==> c.started
    ensures var events := CallEvents(c);
      && events != []
      && events[|events| - 1] == ToolCallCompleted(if c.started && !c.known then None else Some(c.id), c.result)
      && (forall i :: 0 <= i < |events| - 1 ==> !events[i].ToolCallCompleted?)
      && (c.started <==> exists i: nat :: Says(events, i, ToolCallStarted(c.id, c.name)))
      && (c.decision.Some? <==> exists i: nat :: i < |events| && events[i].ApprovalDecided?)
      && (forall i: nat :: i < |events| && events[i].ApprovalDecided? ==>
            && i >= 2 && c.decision == Some(events[i].decision)
            && events[i] == ApprovalDecided(c.id, c.name, c.decision.value)
            && events[i - 1] == ApprovalRequested(c.id, c.name) && events[i - 2] == ToolCallStarted(c.id, c.name))
      && (forall i: nat :: i < |events| && events[i].ApprovalRequested? ==>
            (i == 0 && c.hookAsked) || (i + 1 < |events| && events[i + 1].ApprovalDecided?))
      && (c.hookAsked <==> events[0] == ApprovalRequested(c.id, c.name))
  {
    var events := CallEvents(c);
    var k := if c.hookAsked then 1 else 0;
    if c.started {
      assert Says(events, k, ToolCallStarted(c.id, c.name));
    }
    if c.decision.Some? {
      assert events[k + 2].ApprovalDecided?;
    }
  }

  // ---------------------------------------------------------------- the text that is heard

  function HeardFrom(e: Event): seq<string> {
    if e.MessageDelta? then [e.content] else []
  }

  function DeltasOf(r: Round): seq<string> {
    r.deltas
  }

  lemma {:induction false} FlatMapTwice<A(!new), B, C>(f: A -> seq<B>, h: B -> seq<C>, g: A -> seq<C>, xs: seq<A>)
    requires forall a :: FlatMap(h, f(a)) == g(a)
    ensures FlatMap(h, FlatMap(f, xs)) == FlatMap(g, xs)
  {
    if xs != [] {
      var n := |xs| - 1;
      FlatMapTwice(f, h, g, xs[..n]);
      FlatMapConcat(h, FlatMap(f, xs[..n]), f(xs[n]));
    }
  }

  lemma {:induction false} NoneHeard(events: seq<Event>)
    requires forall i :: 0 <= i < |events| ==> !events[i].MessageDelta?
    ensures FlatMap(HeardFrom, events) == []
  {
    if events != [] {
      NoneHeard(events[..|events| - 1]);
    }
  }

  lemma {:induction false} DeltasAreHeard(deltas: seq<string>)
    ensures FlatMap(HeardFrom, DeltaEvents(deltas)) == deltas
  {
    if deltas != [] {
      var n := |deltas| - 1;
      DeltasAreHeard(deltas[..n]);
      FlatMapPush(HeardFrom, DeltaEvents(deltas[..n]), Event.MessageDelta(deltas[n]));
      assert deltas == deltas[..n] + [deltas[n]];
    }
  }

  lemma CallsAreQuiet(cs: seq<CallTrace>)
    ensures FlatMap(HeardFrom, FlatMap(CallEvents, cs)) == []
  {
    forall c
      ensures FlatMap(HeardFrom, CallEvents(c)) == QuietCall(c)
    {
      NoneHeard(CallEvents(c));
    }
    FlatMapTwice(CallEvents, HeardFrom, QuietCall, cs);
    QuietForAll(cs);
  }

  function QuietCall(c: CallTrace): seq<string> {
    []
  }

  lemma {:induction false} QuietForAll(cs: seq<CallTrace>)
    ensures FlatMap(QuietCall, cs) == []
  {
    if cs != [] {
      QuietForAll(cs[..|cs| - 1]);
    }
  }

  lemma RoundIsHeard(r: Round)
    ensures FlatMap(HeardFrom, RoundEvents(r)) == DeltasOf(r)
  {
    DeltasAreHeard(r.deltas);
    CallsAreQuiet(r.handled);
    FlatMapConcat(HeardFrom, DeltaEvents(r.deltas), FlatMap(CallEvents, r.handled));
    assert r.deltas + [] == r.deltas;
  }

  /** A run tells every text delta that it read, once and in order: those of its rounds, then the rest. */
  lemma TextIsHeard(t: RunTrace)
    requires IsTerminal(t.terminal)
    ensures FlatMap(HeardFrom, RunEvents(t)) == FlatMap(DeltasOf, t.rounds) + t.rest
  {
    forall r
      ensures FlatMap(HeardFrom, RoundEvents(r)) == DeltasOf(r)
    {
      RoundIsHeard(r);
    }
    FlatMapTwice(RoundEvents, HeardFrom, DeltasOf, t.rounds);
    OntoIsConcat(RoundEvents, [RunStarted], t.rounds);
    RunIsHeard(FlatMap(RoundEvents, t.rounds), t.rest, t.terminal);
    assert BodyEvents(t) == [RunStarted] + FlatMap(RoundEvents, t.rounds) + DeltaEvents(t.rest);
  }

  lemma RunIsHeard(rounds: seq<Event>, rest: seq<string>, terminal: Event)
    requires IsTerminal(terminal)
    ensures FlatMap(HeardFrom, [RunStarted] + rounds + DeltaEvents(rest) + [terminal]) == FlatMap(HeardFrom, rounds) + rest
  {
    NoneHeard([RunStarted]);
    DeltasAreHeard(rest);
    FlatMapConcat(HeardFrom, [RunStarted], rounds);
    FlatMapConcat(HeardFrom, [RunStarted] + rounds, DeltaEvents(rest));
    FlatMapPush(HeardFrom, [RunStarted] + rounds + DeltaEvents(rest), terminal);
    var heard := FlatMap(HeardFrom, rounds);
    assert [] + heard == heard && heard + rest + [] == heard + rest;
  }
}
