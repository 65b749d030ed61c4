/** Assembling the events of an OpenAI Responses stream
    (agent_server/internal/llm/openai_responses.go, readOpenAIResponsesStream and below). */
module ResponsesStream {
  import opened Text

  datatype ToolCall = ToolCall(id: string, itemId: string, name: string, arguments: string)

  datatype CompletionEvent = MessageDelta(delta: string) | ToolCallReady(call: ToolCall) | Completed | Failed(error: string)

  /** The data of one server-sent event, decoded. */
  datatype StreamData =
    | DoneMarker
    | Undecodable(error: string)
    | TextDelta(delta: string)
    | ArgumentsDelta(itemId: string, delta: string)
    | ArgumentsDone(itemId: string, callId: string, name: string, arguments: string)
    | ItemDone(isFunctionCall: bool, itemId: string, callId: string, name: string, arguments: string)
    | ResponseCompleted
    | ResponseFailed(error: string)
    | Ignored

  /** What is known of a call so far. */
  datatype PartialCall = PartialCall(id: string, name: string, arguments: string)

  datatype State = State(toolCalls: map<string, PartialCall>, emitted: set<string>)

  const INITIAL := State(map[], {})

  function FirstNonEmpty(a: string, b: string): string {
    if a != "" then a else b
  }

  // ---------------------------------------------------------------- one event

  function Entry(s: State, key: string): PartialCall {
    if key in s.toolCalls then s.toolCalls[key] else PartialCall(key, "", "")
  }

  /** A partial call updated by a `done` event, whose empty fields say nothing. */
  function Updated(call: PartialCall, callId: string, name: string, arguments: string): PartialCall {
    PartialCall(FirstNonEmpty(callId, call.id), FirstNonEmpty(name, call.name), FirstNonEmpty(arguments, call.arguments))
  }

  /** What a `done` event does: it may complete a call that was not emitted yet. */
  function AfterDone(s: State, itemId: string, callId: string, name: string, arguments: string): (State, seq<CompletionEvent>) {
    var key := FirstNonEmpty(itemId, callId);
    if key == "" then (s, [])
    else
      var call := Updated(Entry(s, key), callId, name, arguments);
      var known := s.(toolCalls := s.toolCalls[key := call]);
      if call.name == "" then (known, [])
      else
        var id := FirstNonEmpty(call.id, key);
        if id in s.emitted then (known, [])
        else (known.(emitted := s.emitted + {id}), [ToolCallReady(ToolCall(id, itemId, call.name, call.arguments))])
  }

  function Handle(s: State, data: StreamData): (State, seq<CompletionEvent>) {
    match data
    case DoneMarker => (s, [Completed])
    case Undecodable(error) => (s, [Failed(error)])
    case TextDelta(delta) => (s, if delta == "" then [] else [MessageDelta(delta)])
    case ArgumentsDelta(itemId, delta) =>
      if itemId == "" then (s, [])
      else
        var call := Entry(s, itemId);
        (s.(toolCalls := s.toolCalls[itemId := call.(arguments := call.arguments + delta)]), [])
    case ArgumentsDone(itemId, callId, name, arguments) => AfterDone(s, itemId, callId, name, arguments)
    case ItemDone(isFunctionCall, itemId, callId, name, arguments) =>
      if isFunctionCall then AfterDone(s, itemId, callId, name, arguments) else (s, [])
    case ResponseCompleted => (s, [Completed])
    case ResponseFailed(error) => (s, [Failed(error)])
    case Ignored => (s, [])
  }

  /** The state after a stream, and everything it emitted. */
  function Assemble(stream: seq<StreamData>): (State, seq<CompletionEvent>) {
    if stream == [] then (INITIAL, [])
    else
      var (s, events) := Assemble(stream[..|stream| - 1]);
      var (t, more) := Handle(s, stream[|stream| - 1]);
      (t, events + more)
  }

  // ---------------------------------------------------------------- distinct ids

  function CallsIn(events: seq<CompletionEvent>): seq<ToolCall> {
    if events == [] then []
    else
      var last := events[|events| - 1];
      CallsIn(events[..|events| - 1]) + if last.ToolCallReady? then [last.call] else []
  }

  ghost predicate HasId(calls: seq<ToolCall>, id: string) {
    exists i :: 0 <= i < |calls| && calls[i].id == id
  }

  /** What a round of calls needs so that its outputs can be told apart. */
  predicate GoodIds(calls: seq<ToolCall>) {
    && (forall i :: 0 <= i < |calls| ==> calls[i].id != "")
    && (forall i, j :: 0 <= i < j < |calls| ==> calls[i].id != calls[j].id)
  }

  ghost predicate EmittedAre(emitted: set<string>, calls: seq<ToolCall>) {
    GoodIds(calls) && forall id :: id in emitted <==> HasId(calls, id)
  }

  lemma CallsInGrows(events: seq<CompletionEvent>, more: seq<CompletionEvent>)
    requires |more| <= 1
    ensures CallsIn(events + more) == CallsIn(events) + CallsIn(more)
  {
    if more == [] {
      assert events + more == events;
    } else {
      assert (events + more)[..|events|] == events;
      assert more[..0] == [];
    }
  }

  lemma HasIdGrows(calls: seq<ToolCall>, call: ToolCall, id: string)
    ensures HasId(calls + [call], id) <==> HasId(calls, id) || call.id == id
  {
    var all := calls + [call];
    assert all[|calls|] == call;
    if HasId(calls, id) {
      var i :| 0 <= i < |calls| && calls[i].id == id;
      assert all[i].id == id;
    }
  }

  lemma EmittedStep(emitted: set<string>, calls: seq<ToolCall>, call: ToolCall)
    requires EmittedAre(emitted, calls) && call.id != "" && call.id !in emitted
    ensures EmittedAre(emitted + {call.id}, calls + [call])
  {
    forall id
      ensures id in emitted + {call.id} <==> HasId(calls + [call], id)
    {
      HasIdGrows(calls, call, id);
    }
    assert !HasId(calls, call.id);
  }

  /** An event emits at most one call, under a new and non-empty id. */
  lemma HandleEmitsNewIds(s: State, data: StreamData)
    ensures var (t, more) := Handle(s, data);
            || (t.emitted == s.emitted && |more| <= 1 && CallsIn(more) == [])
            || (exists call :: more == [ToolCallReady(call)] && call.id != "" && call.id !in s.emitted &&
                               call.name != "" && t.emitted == s.emitted + {call.id})
  {
    var (t, more) := Handle(s, data);
    if more != [] && more[0].ToolCallReady? {
      var call := more[0].call;
      assert more == [ToolCallReady(call)] && call.id != "";
    } else if more != [] {
      assert CallsIn(more[..0]) == [];
    }
  }

  /** Whatever the stream holds, the calls it emits have non-empty and pairwise distinct ids. */
  lemma {:induction false} AssembledIdsAreGood(stream: seq<StreamData>)
    ensures EmittedAre(Assemble(stream).0.emitted, CallsIn(Assemble(stream).1))
  {
    if stream != [] {
      var init := stream[..|stream| - 1];
      AssembledIdsAreGood(init);
      var (s, events) := Assemble(init);
      var (t, more) := Handle(s, stream[|stream| - 1]);
      HandleEmitsNewIds(s, stream[|stream| - 1]);
      CallsInGrows(events, more);
      if t.emitted == s.emitted && CallsIn(more) == [] {
        assert CallsIn(events) + [] == CallsIn(events);
      } else {
        var call :| more == [ToolCallReady(call)] && call.id != "" && call.id !in s.emitted &&
                    t.emitted == s.emitted + {call.id};
        assert more[..0] == [];
        EmittedStep(s.emitted, CallsIn(events), call);
      }
    }
  }

  // ---------------------------------------------------------------- what a call is made of

  /** The table entry an event writes to, if any. */
  function KeyOf(data: StreamData): string {
    match data
    case ArgumentsDelta(itemId, _) => itemId
    case ArgumentsDone(itemId, callId, _, _) => FirstNonEmpty(itemId, callId)
    case ItemDone(isFunctionCall, itemId, callId, _, _) => if isFunctionCall then FirstNonEmpty(itemId, callId) else ""
    case DoneMarker => ""
    case Undecodable(_) => ""
    case TextDelta(_) => ""
    case ResponseCompleted => ""
    case ResponseFailed(_) => ""
    case Ignored => ""
  }

  /** The arguments of one call, read off the stream: its deltas joined, starting over at each `done`
      event that repeats them in full. */
  function ArgumentsOf(stream: seq<StreamData>, key: string): string {
    if stream == [] then ""
    else
      var before, last := ArgumentsOf(stream[..|stream| - 1], key), stream[|stream| - 1];
      if KeyOf(last) != key then before
      else if last.ArgumentsDelta? then before + last.delta
      else if (last.ArgumentsDone? || last.ItemDone?) && last.arguments != "" then last.arguments
      else before
  }

  /** Events for other calls, however they interleave, do not disturb the arguments of this one. */
  lemma {:induction false} ArgumentsAreKept(stream: seq<StreamData>, key: string)
    requires key != ""
    ensures Entry(Assemble(stream).0, key).arguments == ArgumentsOf(stream, key)
  {
    if stream != [] {
      ArgumentsAreKept(stream[..|stream| - 1], key);
    }
  }

  /** An emitted call carries the arguments the stream spelled out for it up to that point. */
  lemma EmittedArguments(stream: seq<StreamData>, data: StreamData)
    requires CallsIn(Handle(Assemble(stream).0, data).1) != []
    ensures var call := CallsIn(Handle(Assemble(stream).0, data).1)[0];
            KeyOf(data) != "" && call.arguments == ArgumentsOf(stream + [data], KeyOf(data))
  {
    var s := Assemble(stream).0;
    assert (stream + [data])[..|stream|] == stream;
    HandleEmitsNewIds(s, data);
    ArgumentsAreKept(stream, KeyOf(data));
    var more := Handle(s, data).1;
    assert more[..0] == [];
  }

  // ---------------------------------------------------------------- how often one call is emitted

  predicate IsDone(data: StreamData) {
    data.ArgumentsDone? || (data.ItemDone? && data.isFunctionCall)
  }

  /** The last non-empty call id of the entry's `done` events, else the entry's own key. */
  function IdOf(stream: seq<StreamData>, key: string): string {
    if stream == [] then key
    else
      var last := stream[|stream| - 1];
      if IsDone(last) && KeyOf(last) == key && last.callId != "" then last.callId
      else IdOf(stream[..|stream| - 1], key)
  }

  /** The last non-empty name of the entry's `done` events. */
  function NameOf(stream: seq<StreamData>, key: string): string {
    if stream == [] then ""
    else
      var last := stream[|stream| - 1];
      if IsDone(last) && KeyOf(last) == key && last.name != "" then last.name
      else NameOf(stream[..|stream| - 1], key)
  }

  lemma EntryStep(s: State, data: StreamData, key: string)
    requires key != ""
    ensures Entry(Handle(s, data).0, key) ==
            if KeyOf(data) != key then Entry(s, key)
            else if IsDone(data) then Updated(Entry(s, key), data.callId, data.name, data.arguments)
            else if data.ArgumentsDelta? then Entry(s, key).(arguments := Entry(s, key).arguments + data.delta)
            else Entry(s, key)
  {
  }

  /** The tables hold exactly what can be read off the stream. */
  lemma {:induction false} EntryIs(stream: seq<StreamData>, key: string)
    requires key != ""
    ensures Entry(Assemble(stream).0, key) == PartialCall(IdOf(stream, key), NameOf(stream, key), ArgumentsOf(stream, key))
  {
    if stream != [] {
      var n := |stream| - 1;
      EntryIs(stream[..n], key);
      EntryStep(Assemble(stream[..n]).0, stream[n], key);
    }
  }

  /** The `done` event at `k` could emit a call: its entry's name is known by then. */
  predicate ReadyAt(stream: seq<StreamData>, k: nat) {
    k < |stream| && IsDone(stream[k]) && KeyOf(stream[k]) != "" && NameOf(stream[..k + 1], KeyOf(stream[k])) != ""
  }

  /** The id it would be emitted under. */
  function IdAt(stream: seq<StreamData>, k: nat): string
    requires k < |stream|
  {
    IdOf(stream[..k + 1], KeyOf(stream[k]))
  }

  predicate EmitsAt(stream: seq<StreamData>, k: nat) {
    k < |stream| && CallsIn(Handle(Assemble(stream[..k]).0, stream[k]).1) != []
  }

  /** Some event before `n` was ready with this id. */
  ghost predicate UsedBefore(stream: seq<StreamData>, n: nat, id: string) {
    exists j: nat :: j < n && ReadyAt(stream, j) && IdAt(stream, j) == id
  }

  lemma DoneStep(s: State, data: StreamData)
    ensures var call := if IsDone(data) && KeyOf(data) != ""
                        then Updated(Entry(s, KeyOf(data)), data.callId, data.name, data.arguments)
                        else PartialCall("", "", "");
            var (t, more) := Handle(s, data);
            if call.name == "" || FirstNonEmpty(call.id, KeyOf(data)) in s.emitted
            then t.emitted == s.emitted && CallsIn(more) == []
            else t.emitted == s.emitted + {FirstNonEmpty(call.id, KeyOf(data))} && CallsIn(more) != []
  {
    HandleEmitsNewIds(s, data);
    var more := Handle(s, data).1;
    assert more != [] ==> more[..0] == [];
  }

  lemma {:induction false} IdIsNotEmpty(stream: seq<StreamData>, key: string)
    requires key != ""
    ensures IdOf(stream, key) != ""
  {
    if stream != [] {
      IdIsNotEmpty(stream[..|stream| - 1], key);
    }
  }

  lemma UpdatedEntry(stream: seq<StreamData>, k: nat)
    requires k < |stream| && IsDone(stream[k]) && KeyOf(stream[k]) != ""
    ensures var s, data := Assemble(stream[..k]).0, stream[k];
            var call := Updated(Entry(s, KeyOf(data)), data.callId, data.name, data.arguments);
            call.id == IdAt(stream, k) != "" && call.name == NameOf(stream[..k + 1], KeyOf(data))
  {
    assert stream[..k + 1][..k] == stream[..k];
    EntryIs(stream[..k], KeyOf(stream[k]));
    IdIsNotEmpty(stream[..k + 1], KeyOf(stream[k]));
  }

  /** A ready event emits its call unless the id has been used, and uses the id. */
  lemma EmitsStep(stream: seq<StreamData>, k: nat)
    requires k < |stream|
    ensures var emitted := Assemble(stream[..k]).0.emitted;
            && (EmitsAt(stream, k) <==> ReadyAt(stream, k) && IdAt(stream, k) !in emitted)
            && Assemble(stream[..k + 1]).0.emitted == emitted + if ReadyAt(stream, k) then {IdAt(stream, k)} else {}
  {
    assert stream[..k + 1][..k] == stream[..k];
    DoneStep(Assemble(stream[..k]).0, stream[k]);
    if IsDone(stream[k]) && KeyOf(stream[k]) != "" {
      UpdatedEntry(stream, k);
    }
  }

  lemma {:induction false} EmittedIff(stream: seq<StreamData>, n: nat, id: string)
    requires n <= |stream|
    ensures id in Assemble(stream[..n]).0.emitted <==> UsedBefore(stream, n, id)
  {
    if n > 0 {
      EmittedIff(stream, n - 1, id);
      EmitsStep(stream, n - 1);
      UsedBeforeNext(stream, n - 1, id);
    }
  }

  lemma UsedBeforeNext(stream: seq<StreamData>, n: nat, id: string)
    requires n < |stream|
    ensures UsedBefore(stream, n + 1, id) <==>
            UsedBefore(stream, n, id) || (ReadyAt(stream, n) && IdAt(stream, n) == id)
  {
    if j: nat :| j < n && ReadyAt(stream, j) && IdAt(stream, j) == id {
      assert UsedBefore(stream, n + 1, id);
    }
    if ReadyAt(stream, n) && IdAt(stream, n) == id {
      assert UsedBefore(stream, n + 1, id);
    }
  }

  /** Exactly when an event emits a call, read off the stream. */
  lemma EmitsIff(stream: seq<StreamData>, k: nat)
    requires k < |stream|
    ensures EmitsAt(stream, k) <==> ReadyAt(stream, k) && !UsedBefore(stream, k, IdAt(stream, k))
  {
    EmitsStep(stream, k);
    EmittedIff(stream, k, IdAt(stream, k));
  }

  predicate ReadyFor(stream: seq<StreamData>, key: string, k: nat) {
    ReadyAt(stream, k) && KeyOf(stream[k]) == key
  }

  /** Ready, under an id that no event of another entry has used. */
  ghost predicate FreeAt(stream: seq<StreamData>, key: string, k: nat) {
    && ReadyFor(stream, key, k)
    && forall j: nat :: j < k && ReadyAt(stream, j) && KeyOf(stream[j]) != key ==> IdAt(stream, j) != IdAt(stream, k)
  }

  predicate EmitsFor(stream: seq<StreamData>, key: string, k: nat) {
    EmitsAt(stream, k) && KeyOf(stream[k]) == key
  }

  ghost predicate EmittedTwice(stream: seq<StreamData>, key: string) {
    exists j: nat, k: nat :: j < k && EmitsFor(stream, key, j) && EmitsFor(stream, key, k)
  }

  ghost predicate FreeIdsAgree(stream: seq<StreamData>, key: string) {
    forall j: nat, k: nat :: FreeAt(stream, key, j) && FreeAt(stream, key, k) ==> IdAt(stream, j) == IdAt(stream, k)
  }

  /** The first event of the entry that is ready under the id of a free one emits it. */
  lemma {:induction false} FirstUseEmits(stream: seq<StreamData>, key: string, k: nat) returns (j: nat)
    requires FreeAt(stream, key, k)
    ensures j <= k && EmitsFor(stream, key, j) && IdAt(stream, j) == IdAt(stream, k)
    decreases k
  {
    EmitsIff(stream, k);
    if UsedBefore(stream, k, IdAt(stream, k)) {
      var i: nat :| i < k && ReadyAt(stream, i) && IdAt(stream, i) == IdAt(stream, k);
      assert FreeAt(stream, key, i);
      j := FirstUseEmits(stream, key, i);
    } else {
      j := k;
    }
  }

  lemma EmissionIsFree(stream: seq<StreamData>, key: string, k: nat)
    requires EmitsFor(stream, key, k)
    ensures FreeAt(stream, key, k)
    ensures forall j: nat :: j < k && ReadyAt(stream, j) ==> IdAt(stream, j) != IdAt(stream, k)
  {
    EmitsIff(stream, k);
  }

  /** How often a call is emitted: at most once if and only if all its `done` events that know its name,
      and whose id no other call has used, agree on that id (the last call id seen so far, else the item
      id). */
  lemma EmittedOnceIff(stream: seq<StreamData>, key: string)
    ensures !EmittedTwice(stream, key) <==> FreeIdsAgree(stream, key)
  {
    if j: nat, k: nat :| j < k && EmitsFor(stream, key, j) && EmitsFor(stream, key, k) {
      EmissionIsFree(stream, key, j);
      EmissionIsFree(stream, key, k);
    }
    if j: nat, k: nat :| FreeAt(stream, key, j) && FreeAt(stream, key, k) && IdAt(stream, j) != IdAt(stream, k) {
      var a := FirstUseEmits(stream, key, j);
      var b := FirstUseEmits(stream, key, k);
      assert a != b;
      assert a < b || b < a;
    }
  }

  /** The calls emitted for one entry. */
  function CallsFor(stream: seq<StreamData>, key: string): seq<ToolCall> {
    if stream == [] then []
    else
      var n := |stream| - 1;
      CallsFor(stream[..n], key) +
      if EmitsFor(stream, key, n) then CallsIn(Handle(Assemble(stream[..n]).0, stream[n]).1) else []
  }

  ghost predicate SomeBefore(p: nat -> bool, n: nat) {
    exists j: nat :: j < n && p(j)
  }

  ghost predicate TwiceBefore(p: nat -> bool, n: nat) {
    exists j: nat, k: nat :: j < k < n && p(j) && p(k)
  }

  lemma SomeNext(p: nat -> bool, n: nat)
    ensures SomeBefore(p, n + 1) <==> SomeBefore(p, n) || p(n)
  {
  }

  lemma TwiceNext(p: nat -> bool, n: nat)
    ensures TwiceBefore(p, n + 1) <==> TwiceBefore(p, n) || (SomeBefore(p, n) && p(n))
  {
    if j: nat, k: nat :| j < k < n && p(j) && p(k) {
      assert j < k < n + 1;
    }
    if j: nat :| j < n && p(j) && p(n) {
      assert j < n < n + 1 && p(j) && p(n);
    }
    if j: nat, k: nat :| j < k < n + 1 && p(j) && p(k) {
      if k < n {
        assert j < k < n;
      }
    }
  }

  function Count(p: nat -> bool, n: nat): nat {
    if n == 0 then 0 else Count(p, n - 1) + if p(n - 1) then 1 else 0
  }

  lemma {:induction false} CountIs(p: nat -> bool, n: nat)
    ensures Count(p, n) == 0 <==> !SomeBefore(p, n)
    ensures Count(p, n) <= 1 <==> !TwiceBefore(p, n)
  {
    if n > 0 {
      CountIs(p, n - 1);
      SomeNext(p, n - 1);
      TwiceNext(p, n - 1);
    }
  }

  function Emissions(stream: seq<StreamData>, key: string): nat -> bool {
    (k: nat) => EmitsFor(stream, key, k)
  }

  lemma CallsForNext(stream: seq<StreamData>, key: string, n: nat)
    requires n < |stream|
    ensures |CallsFor(stream[..n + 1], key)| == |CallsFor(stream[..n], key)| + if EmitsFor(stream, key, n) then 1 else 0
  {
    var next := stream[..n + 1];
    assert next[..n] == stream[..n] && next[n] == stream[n];
    assert EmitsFor(next, key, n) == EmitsFor(stream, key, n);
    AtMostOneCall(Assemble(stream[..n]).0, stream[n]);
  }

  lemma AtMostOneCall(s: State, data: StreamData)
    ensures |CallsIn(Handle(s, data).1)| <= 1
  {
    HandleEmitsNewIds(s, data);
    assert Handle(s, data).1 != [] ==> Handle(s, data).1[..0] == [];
  }

  lemma {:induction false} CallsForCount(stream: seq<StreamData>, key: string, n: nat)
    requires n <= |stream|
    ensures |CallsFor(stream[..n], key)| == Count(Emissions(stream, key), n)
  {
    if n > 0 {
      CallsForCount(stream, key, n - 1);
      CallsForNext(stream, key, n - 1);
    }
  }

  lemma TwiceIs(stream: seq<StreamData>, key: string)
    ensures EmittedTwice(stream, key) <==> TwiceBefore(Emissions(stream, key), |stream|)
  {
    var p := Emissions(stream, key);
    if j: nat, k: nat :| j < k && EmitsFor(stream, key, j) && EmitsFor(stream, key, k) {
      assert p(j) && p(k) && k < |stream|;
    }
    if j: nat, k: nat :| j < k < |stream| && p(j) && p(k) {
      assert EmitsFor(stream, key, j) && EmitsFor(stream, key, k);
    }
  }

  /** The same as a count of what the listener gets. */
  lemma CallCountIff(stream: seq<StreamData>, key: string)
    ensures |CallsFor(stream, key)| <= 1 <==> FreeIdsAgree(stream, key)
  {
    CallsForCount(stream, key, |stream|);
    CountIs(Emissions(stream, key), |stream|);
    TwiceIs(stream, key);
    assert stream[..|stream|] == stream;
    EmittedOnceIff(stream, key);
  }

  /** The ordinary stream: an `arguments.done` without name or call id, and then the item's own `done`,
      make one call. */
  lemma OrdinaryItem(itemId: string, callId: string, name: string, arguments: string)
    requires itemId != "" && callId != "" && name != "" && arguments != ""
    ensures var stream := [ArgumentsDone(itemId, "", "", arguments), ItemDone(true, itemId, callId, name, arguments)];
            CallsIn(Assemble(stream).1) == [ToolCall(callId, itemId, name, arguments)]
  {
    var first, second := ArgumentsDone(itemId, "", "", arguments), ItemDone(true, itemId, callId, name, arguments);
    var stream := [first, second];
    assert stream[..1] == [first] && stream[..0] == [] && [first][..0] == [];
    var c := ToolCallReady(ToolCall(callId, itemId, name, arguments));
    assert Assemble([first]).1 == [];
    var s := Assemble([first]).0;
    assert Entry(s, itemId) == PartialCall(itemId, "", arguments) && s.emitted == {};
    assert Handle(s, second).1 == [c];
    assert Assemble(stream).1 == [] + [c] == [c] && [c][..0] == [];
  }

  /** Otherwise the same item can be emitted twice: a named `arguments.done` without a call id and then
      the item's own `done` give two calls, and the tool would be run for both. */
  lemma ItemCanBeEmittedTwice(itemId: string, callId: string, name: string, arguments: string)
    requires itemId != "" && callId != "" && name != "" && arguments != "" && callId != itemId
    ensures var stream := [ArgumentsDone(itemId, "", name, arguments), ItemDone(true, itemId, callId, name, arguments)];
            CallsIn(Assemble(stream).1) ==
            [ToolCall(itemId, itemId, name, arguments), ToolCall(callId, itemId, name, arguments)]
  {
    var first, second := ArgumentsDone(itemId, "", name, arguments), ItemDone(true, itemId, callId, name, arguments);
    var stream := [first, second];
    assert stream[..1] == [first] && stream[..0] == [] && [first][..0] == [];
    var c1, c2 := ToolCallReady(ToolCall(itemId, itemId, name, arguments)), ToolCallReady(ToolCall(callId, itemId, name, arguments));
    assert Assemble([first]).1 == [c1];
    assert Assemble(stream).1 == [c1] + [c2];
    CallsInGrows([c1], [c2]);
    assert [c1][..0] == [] && [c2][..0] == [];
    assert CallsIn([c1]) == [c1.call] && CallsIn([c2]) == [c2.call];
  }

  // ---------------------------------------------------------------- the state in place

  class StreamState {
    var toolCalls: map<string, PartialCall>
    var emitted: set<string>

    function Abstract(): State
      reads this
    {
      State(toolCalls, emitted)
    }

    constructor ()
      ensures Abstract() == INITIAL
    {
      toolCalls, emitted := map[], {};
    }

    /** Finds or creates the entry of an item. */
    method Call(key: string) returns (call: PartialCall)
      modifies this`toolCalls
      ensures call == Entry(old(Abstract()), key)
      ensures toolCalls == old(toolCalls)[key := call]
    {
      if key !in toolCalls {
        toolCalls := toolCalls[key := PartialCall(key, "", "")];
      }
      call := toolCalls[key];
    }

    method EmitToolCall(itemId: string, callId: string, name: string, arguments: string)
      returns (out: seq<CompletionEvent>)
      modifies this
      ensures (Abstract(), out) == AfterDone(old(Abstract()), itemId, callId, name, arguments)
    {
      if itemId == "" && callId == "" {
        return [];
      }
      var key := FirstNonEmpty(itemId, callId);
      var call := Call(key);
      if callId != "" {
        call := call.(id := callId);
      }
      if name != "" {
        call := call.(name := name);
      }
      if arguments != "" {
        call := call.(arguments := arguments);
      }
      toolCalls := toolCalls[key := call];
      assert toolCalls == old(toolCalls)[key := call];
      if call.name == "" {
        return [];
      }
      var id := FirstNonEmpty(call.id, FirstNonEmpty(callId, itemId));
      if id in emitted {
        return [];
      }
      emitted := emitted + {id};
      return [ToolCallReady(ToolCall(id, itemId, call.name, call.arguments))];
    }

    method HandleData(data: StreamData) returns (out: seq<CompletionEvent>)
      modifies this
      ensures (Abstract(), out) == Handle(old(Abstract()), data)
    {
      match data {
        case DoneMarker => out := [Completed];
        case Undecodable(error) => out := [Failed(error)];
        case TextDelta(delta) => out := if delta == "" then [] else [MessageDelta(delta)];
        case ArgumentsDelta(itemId, delta) =>
          if itemId != "" {
            var call := Call(itemId);
            call := call.(arguments := call.arguments + delta);
            toolCalls := toolCalls[itemId := call];
            assert toolCalls == old(toolCalls)[itemId := call];
          }
          out := [];
        case ArgumentsDone(itemId, callId, name, arguments) =>
          out := EmitToolCall(itemId, callId, name, arguments);
        case ItemDone(isFunctionCall, itemId, callId, name, arguments) =>
          if isFunctionCall {
            out := EmitToolCall(itemId, callId, name, arguments);
          } else {
            out := [];
          }
        case ResponseCompleted => out := [Completed];
        case ResponseFailed(error) => out := [Failed(error)];
        case Ignored => out := [];
      }
    }
  }

  // ---------------------------------------------------------------- everything that is emitted

  /** What an event emits besides tool calls. */
  function PlainOf(data: StreamData): seq<CompletionEvent> {
    if data.TextDelta? && data.delta != "" then [MessageDelta(data.delta)]
    else if data.DoneMarker? || data.ResponseCompleted? then [Completed]
    else if data.Undecodable? || data.ResponseFailed? then [Failed(data.error)]
    else []
  }

  function PlainsOf(stream: seq<StreamData>): seq<CompletionEvent> {
    if stream == [] then [] else PlainsOf(stream[..|stream| - 1]) + PlainOf(stream[|stream| - 1])
  }

  function PlainsIn(events: seq<CompletionEvent>): seq<CompletionEvent> {
    if events == [] then []
    else
      var last := events[|events| - 1];
      PlainsIn(events[..|events| - 1]) + if last.ToolCallReady? then [] else [last]
  }

  lemma PlainsInOne(events: seq<CompletionEvent>, more: seq<CompletionEvent>)
    requires |more| <= 1
    ensures PlainsIn(events + more) == PlainsIn(events) + PlainsIn(more)
  {
    if more == [] {
      assert events + more == events;
    } else {
      assert (events + more)[..|events|] == events && more[..0] == [];
    }
  }

  lemma HandlePlain(s: State, data: StreamData)
    ensures |Handle(s, data).1| <= 1 && PlainsIn(Handle(s, data).1) == PlainOf(data)
  {
    var more := Handle(s, data).1;
    assert |more| == 1 ==> more[..0] == [];
  }

  /** Besides tool calls, a stream emits exactly its non-empty text deltas, completions and failures, each
      once, with its own text and in order, whatever calls they are interleaved with. */
  lemma {:induction false} PlainEventsAreKept(stream: seq<StreamData>)
    ensures PlainsIn(Assemble(stream).1) == PlainsOf(stream)
  {
    if stream != [] {
      var init, last := stream[..|stream| - 1], stream[|stream| - 1];
      PlainEventsAreKept(init);
      HandlePlain(Assemble(init).0, last);
      PlainsInOne(Assemble(init).1, Handle(Assemble(init).0, last).1);
    }
  }

  /** The item id an event names, which an emitted call repeats. */
  function ItemIdOf(data: StreamData): string {
    match data
    case ArgumentsDone(itemId, _, _, _) => itemId
    case ItemDone(_, itemId, _, _, _) => itemId
    case _ => ""
  }

  lemma EmittedFields(s: State, data: StreamData)
    requires CallsIn(Handle(s, data).1) != []
    ensures var t, call := Handle(s, data).0, CallsIn(Handle(s, data).1)[0];
            var entry := Entry(t, KeyOf(data));
            && KeyOf(data) != "" && call.itemId == ItemIdOf(data)
            && call == ToolCall(FirstNonEmpty(entry.id, KeyOf(data)), ItemIdOf(data), entry.name, entry.arguments)
  {
    HandleEmitsNewIds(s, data);
    var more := Handle(s, data).1;
    assert more[..0] == [];
  }

  /** An emitted call is exactly what the stream said of it: its last call id (or the item's), the item id
      of the event that completes it, its last name and its arguments so far. */
  lemma EmittedCallIs(stream: seq<StreamData>, data: StreamData)
    requires CallsIn(Handle(Assemble(stream).0, data).1) != []
    ensures var all, key := stream + [data], KeyOf(data);
            && key != ""
            && CallsIn(Handle(Assemble(stream).0, data).1)[0] ==
               ToolCall(IdOf(all, key), ItemIdOf(data), NameOf(all, key), ArgumentsOf(all, key))
  {
    EmittedFields(Assemble(stream).0, data);
    assert (stream + [data])[..|stream|] == stream;
    KnownIs(stream + [data], KeyOf(data), Handle(Assemble(stream).0, data).0);
  }

  lemma KnownIs(stream: seq<StreamData>, key: string, s: State)
    requires key != "" && s == Assemble(stream).0
    ensures Entry(s, key) == PartialCall(IdOf(stream, key), NameOf(stream, key), ArgumentsOf(stream, key))
    ensures IdOf(stream, key) != ""
  {
    EntryIs(stream, key);
    ArgumentsAreKept(stream, key);
    IdIsSome(stream, key);
  }

  lemma {:induction false} IdIsSome(stream: seq<StreamData>, key: string)
    requires key != ""
    ensures IdOf(stream, key) != ""
  {
    if stream != [] {
      IdIsSome(stream[..|stream| - 1], key);
    }
  }
}
