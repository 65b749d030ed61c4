/** Translating a message log into Responses input items
    (agent_server/internal/llm/openai_responses.go, openAIInput), and what it means for the log to keep
    function calls and their outputs together. */
module ResponsesInput {
  import opened Text
  import opened ResponsesStream

  /** `toolCallId` is the "tool_call_id" metadata entry. */
  datatype Message = Message(role: string, content: string, toolCalls: seq<ToolCall>, toolCallId: Option<string>)

  datatype InputItem =
    | FunctionCall(callId: string, name: string, arguments: string, itemId: Option<string>)
    | FunctionCallOutput(outputFor: Option<string>, output: string)
    | Chat(role: string, content: string)

  function Present(s: string): Option<string> {
    if s == "" then None else Some(s)
  }

  function CallItem(call: ToolCall): InputItem {
    FunctionCall(call.id, call.name, call.arguments, Present(call.itemId))
  }

  function CallItems(calls: seq<ToolCall>): seq<InputItem> {
    seq(|calls|, i requires 0 <= i < |calls| => CallItem(calls[i]))
  }

  /** A message with tool calls becomes those calls only: its text is dropped. */
  function ItemsOf(msg: Message): seq<InputItem> {
    if msg.toolCalls != [] then CallItems(msg.toolCalls)
    else if msg.role == "tool" then
      [FunctionCallOutput(if msg.toolCallId.Some? then Present(msg.toolCallId.value) else None, msg.content)]
    else [Chat(if msg.role == "" then "user" else msg.role, msg.content)]
  }

  function FlatMap<A, B>(f: A -> seq<B>, xs: seq<A>): seq<B> {
    if xs == [] then [] else FlatMap(f, xs[..|xs| - 1]) + f(xs[|xs| - 1])
  }

  lemma {:induction false} FlatMapConcat<A, B>(f: A -> seq<B>, a: seq<A>, b: seq<A>)
    ensures FlatMap(f, a + b) == FlatMap(f, a) + FlatMap(f, b)
    decreases |b|
  {
    if b == [] {
      assert a + b == a;
    } else {
      assert (a + b)[..|a + b| - 1] == a + b[..|b| - 1];
      FlatMapConcat(f, a, b[..|b| - 1]);
    }
  }

  lemma FlatMapPush<A, B>(f: A -> seq<B>, xs: seq<A>, x: A)
    ensures FlatMap(f, xs + [x]) == FlatMap(f, xs) + f(x)
  {
    assert (xs + [x])[..|xs|] == xs;
  }

  /** `head` with what each of `xs` appends to it. */
  function Onto<A, B>(f: A -> seq<B>, head: seq<B>, xs: seq<A>): seq<B> {
    if xs == [] then head else Onto(f, head, xs[..|xs| - 1]) + f(xs[|xs| - 1])
  }

  lemma {:induction false} OntoIsConcat<A, B>(f: A -> seq<B>, head: seq<B>, xs: seq<A>)
    ensures Onto(f, head, xs) == head + FlatMap(f, xs)
  {
    if xs != [] {
      OntoIsConcat(f, head, xs[..|xs| - 1]);
    }
  }

  function Input(messages: seq<Message>): seq<InputItem> {
    FlatMap(ItemsOf, messages)
  }

  method OpenAIInput(messages: seq<Message>) returns (input: seq<InputItem>)
    ensures input == Input(messages)
  {
    input := [];
    for i := 0 to |messages|
      invariant input == Input(messages[..i])
    {
      assert messages[..i + 1][..i] == messages[..i];
      var msg := messages[i];
      if |msg.toolCalls| > 0 {
        ghost var before := input;
        for j := 0 to |msg.toolCalls|
          invariant input == before + CallItems(msg.toolCalls[..j])
        {
          var call := msg.toolCalls[j];
          input := input + [FunctionCall(call.id, call.name, call.arguments, Present(call.itemId))];
          assert CallItems(msg.toolCalls[..j + 1]) == CallItems(msg.toolCalls[..j]) + [CallItem(call)];
        }
        assert msg.toolCalls[..|msg.toolCalls|] == msg.toolCalls;
      } else if msg.role == "tool" {
        var callId := if msg.toolCallId.Some? then msg.toolCallId.value else "";
        input := input + [FunctionCallOutput(Present(callId), msg.content)];
      } else {
        var role := if msg.role == "" then "user" else msg.role;
        input := input + [Chat(role, msg.content)];
      }
    }
    assert messages[..|messages|] == messages;
  }

  // ---------------------------------------------------------------- what is said

  function SaidIn(item: InputItem): seq<string> {
    match item
    case FunctionCall(_, _, _, _) => []
    case FunctionCallOutput(_, output) => [output]
    case Chat(_, content) => [content]
  }

  function SaidBy(msg: Message): seq<string> {
    if msg.toolCalls == [] then [msg.content] else []
  }

  lemma {:induction false} CallsSayNothing(calls: seq<ToolCall>, n: nat)
    requires n <= |calls|
    ensures FlatMap(SaidIn, CallItems(calls)[..n]) == []
  {
    if n > 0 {
      CallsSayNothing(calls, n - 1);
      assert CallItems(calls)[..n][..n - 1] == CallItems(calls)[..n - 1];
    }
  }

  lemma MessageSays(msg: Message)
    ensures FlatMap(SaidIn, ItemsOf(msg)) == SaidBy(msg)
  {
    if msg.toolCalls != [] {
      CallsSayNothing(msg.toolCalls, |msg.toolCalls|);
      assert CallItems(msg.toolCalls)[..|msg.toolCalls|] == CallItems(msg.toolCalls);
    } else {
      assert ItemsOf(msg)[..0] == [];
    }
  }

  /** The texts a request carries are those of the messages without tool calls, all of them, in order. */
  lemma {:induction false} RequestSays(messages: seq<Message>)
    ensures FlatMap(SaidIn, Input(messages)) == FlatMap(SaidBy, messages)
  {
    if messages != [] {
      var init, last := messages[..|messages| - 1], messages[|messages| - 1];
      RequestSays(init);
      FlatMapConcat(SaidIn, Input(init), ItemsOf(last));
      MessageSays(last);
    }
  }

  /** When a message's text reaches the request: changing it changes the request if and only if the
      message has no tool calls. */
  lemma TextReachesIff(before: seq<Message>, msg: Message, after: seq<Message>, text: string)
    requires text != msg.content
    ensures Input(before + [msg.(content := text)] + after) != Input(before + [msg] + after) <==> msg.toolCalls == []
  {
    InputAround(before, msg, after);
    InputAround(before, msg.(content := text), after);
    var a, b, m := Input(before), Input(after), ItemsOf(msg);
    if msg.toolCalls == [] {
      assert (a + m + b)[|a|] == m[0];
      assert (a + ItemsOf(msg.(content := text)) + b)[|a|] == ItemsOf(msg.(content := text))[0];
    }
  }

  lemma InputAround(before: seq<Message>, msg: Message, after: seq<Message>)
    ensures Input(before + [msg] + after) == Input(before) + ItemsOf(msg) + Input(after)
  {
    FlatMapConcat(ItemsOf, before + [msg], after);
    FlatMapPush(ItemsOf, before, msg);
  }

  // ---------------------------------------------------------------- pairing

  function LeadingCalls(items: seq<InputItem>): (n: nat)
    ensures n <= |items|
    ensures forall i :: 0 <= i < n ==> items[i].FunctionCall?
    ensures n < |items| ==> !items[n].FunctionCall?
  {
    if items == [] || !items[0].FunctionCall? then 0 else 1 + LeadingCalls(items[1..])
  }

  /** Item `n + i` is the output of call `i`. */
  predicate OutputAt(items: seq<InputItem>, n: nat, i: nat)
    requires n + i < |items|
  {
    && items[i].FunctionCall?
    && items[n + i].FunctionCallOutput?
    && items[n + i].outputFor == Some(items[i].callId)
  }

  /** `n` calls with non-empty, pairwise distinct ids, and then the output of each, in order. */
  predicate StartsWithRound(items: seq<InputItem>, n: nat) {
    && 2 * n <= |items|
    && (forall i :: 0 <= i < n ==> OutputAt(items, n, i))
    && (forall i :: 0 <= i < n ==> items[i].FunctionCall? && items[i].callId != "")
    && (forall i, j :: 0 <= i < j < n ==> items[i].callId != items[j].callId)
  }

  /** Chat items, and rounds: a run of calls, all of them, followed by exactly one output per call, for
      the same ids in the same order. */
  predicate Paired(items: seq<InputItem>)
    decreases |items|
  {
    if items == [] then true
    else if items[0].Chat? then Paired(items[1..])
    else
      var n := LeadingCalls(items);
      n > 0 && StartsWithRound(items, n) && Paired(items[2 * n..])
  }

  lemma {:induction false} LeadingCallsIs(items: seq<InputItem>, n: nat)
    requires n <= |items| && (n < |items| ==> !items[n].FunctionCall?)
    requires forall i :: 0 <= i < n ==> items[i].FunctionCall?
    ensures LeadingCalls(items) == n
  {
    if n > 0 {
      LeadingCallsIs(items[1..], n - 1);
    }
  }

  lemma RoundIsAPrefix(a: seq<InputItem>, b: seq<InputItem>, n: nat)
    requires 0 < n == LeadingCalls(a) && StartsWithRound(a, n)
    ensures LeadingCalls(a + b) == n && StartsWithRound(a + b, n)
    ensures (a + b)[2 * n..] == a[2 * n..] + b && !(a + b)[0].Chat?
  {
    assert OutputAt(a, n, 0);
    LeadingCallsIs(a + b, n);
    forall i | 0 <= i < n
      ensures OutputAt(a + b, n, i)
    {
      assert OutputAt(a, n, i);
    }
  }

  /** A well-paired list followed by anything is paired exactly when what follows is. */
  lemma {:induction false} PairedThen(a: seq<InputItem>, b: seq<InputItem>)
    requires Paired(a)
    ensures Paired(a + b) <==> Paired(b)
    decreases |a|
  {
    if a == [] {
      assert a + b == b;
    } else if a[0].Chat? {
      assert (a + b)[1..] == a[1..] + b;
      PairedThen(a[1..], b);
    } else {
      var n := LeadingCalls(a);
      RoundIsAPrefix(a, b, n);
      PairedThen(a[2 * n..], b);
    }
  }

  // ---------------------------------------------------------------- the log of one tool round

  /** What one round appends: the assistant message with its calls, and one tool message per call. */
  predicate IsRound(messages: seq<Message>, calls: seq<ToolCall>) {
    && |messages| == |calls| + 1
    && messages[0].toolCalls == calls
    && forall i :: 0 <= i < |calls| ==> IsOutputFor(messages[i + 1], calls[i])
  }

  predicate IsOutputFor(msg: Message, call: ToolCall) {
    msg.role == "tool" && msg.toolCalls == [] && msg.toolCallId == Some(call.id)
  }

  lemma InputConcat(a: seq<Message>, b: seq<Message>)
    ensures Input(a + b) == Input(a) + Input(b)
  {
    FlatMapConcat(ItemsOf, a, b);
  }

  predicate AreOutputs(items: seq<InputItem>, calls: seq<ToolCall>) {
    && |items| <= |calls|
    && forall i :: 0 <= i < |items| ==> items[i].FunctionCallOutput? && items[i].outputFor == Some(calls[i].id)
  }

  /** The first `k` tool messages of a round translate to the outputs of its first `k` calls. */
  lemma {:induction false} OutputItems(messages: seq<Message>, calls: seq<ToolCall>, k: nat)
    requires IsRound(messages, calls) && GoodIds(calls) && k <= |calls|
    ensures |Input(messages[1..k + 1])| == k && AreOutputs(Input(messages[1..k + 1]), calls)
  {
    if k > 0 {
      OutputItems(messages, calls, k - 1);
      assert messages[1..k + 1][..k - 1] == messages[1..k];
      assert IsOutputFor(messages[k], calls[k - 1]);
    }
  }

  /** A round cut off after `k` outputs translates to all its calls and `k` outputs. */
  lemma RoundItems(messages: seq<Message>, calls: seq<ToolCall>, k: nat) returns (outputs: seq<InputItem>)
    requires IsRound(messages, calls) && GoodIds(calls) && calls != [] && k <= |calls|
    ensures Input(messages[..k + 1]) == CallItems(calls) + outputs
    ensures |outputs| == k && AreOutputs(outputs, calls)
  {
    outputs := Input(messages[1..k + 1]);
    OutputItems(messages, calls, k);
    assert messages[..k + 1] == messages[..1] + messages[1..k + 1];
    InputConcat(messages[..1], messages[1..k + 1]);
    assert messages[..1][..0] == [] && [] + CallItems(calls) == CallItems(calls);
    assert Input(messages[..1]) == FlatMap(ItemsOf, messages[..1][..0]) + ItemsOf(messages[0]);
  }

  lemma LeadingOf(calls: seq<ToolCall>, outputs: seq<InputItem>, items: seq<InputItem>)
    requires AreOutputs(outputs, calls) && items == CallItems(calls) + outputs
    ensures LeadingCalls(items) == |calls|
  {
    var n := |calls|;
    assert forall i :: 0 <= i < n ==> items[i] == CallItem(calls[i]);
    assert n < |items| ==> items[n] == outputs[0];
    LeadingCallsIs(items, n);
  }

  lemma CompleteRound(calls: seq<ToolCall>, outputs: seq<InputItem>, items: seq<InputItem>)
    requires GoodIds(calls) && AreOutputs(outputs, calls) && |outputs| == |calls|
    requires items == CallItems(calls) + outputs
    ensures StartsWithRound(items, |calls|)
  {
    var n := |calls|;
    forall i | 0 <= i < n
      ensures OutputAt(items, n, i) && items[i].callId == calls[i].id
    {
      assert items[i] == CallItem(calls[i]) && items[n + i] == outputs[i];
    }
  }

  lemma CallsThenOutputs(calls: seq<ToolCall>, outputs: seq<InputItem>)
    requires GoodIds(calls) && calls != [] && AreOutputs(outputs, calls)
    ensures Paired(CallItems(calls) + outputs) <==> |outputs| == |calls|
  {
    var n, items := |calls|, CallItems(calls) + outputs;
    LeadingOf(calls, outputs, items);
    assert items[0] == CallItem(calls[0]);
    if |outputs| == n {
      CompleteRound(calls, outputs, items);
      assert items[2 * n..] == [];
    } else {
      assert 2 * n > |items|;
    }
  }

  /** A complete round keeps a log paired; one cut off before its last output does not. */
  lemma RoundKeepsPairing(history: seq<Message>, messages: seq<Message>, calls: seq<ToolCall>, k: nat)
    requires Paired(Input(history)) && IsRound(messages, calls) && GoodIds(calls) && calls != [] && k <= |calls|
    ensures Paired(Input(history + messages[..k + 1])) <==> k == |calls|
  {
    var outputs := RoundItems(messages, calls, k);
    CallsThenOutputs(calls, outputs);
    InputConcat(history, messages[..k + 1]);
    PairedThen(Input(history), Input(messages[..k + 1]));
  }

  // ---------------------------------------------------------------- reading a request back

  /** What a request item says, and what a message has to say. */
  datatype Said = SaidCall(call: ToolCall) | SaidOutput(callId: string, text: string) | SaidChat(role: string, text: string)

  function ReadItem(item: InputItem): seq<Said> {
    match item
    case FunctionCall(callId, name, arguments, itemId) =>
      [SaidCall(ToolCall(callId, if itemId.Some? then itemId.value else "", name, arguments))]
    case FunctionCallOutput(outputFor, output) => [SaidOutput(if outputFor.Some? then outputFor.value else "", output)]
    case Chat(role, content) => [SaidChat(role, content)]
  }

  function SaidCalls(calls: seq<ToolCall>): seq<Said> {
    if calls == [] then [] else SaidCalls(calls[..|calls| - 1]) + [SaidCall(calls[|calls| - 1])]
  }

  function Says(msg: Message): seq<Said> {
    if msg.toolCalls != [] then SaidCalls(msg.toolCalls)
    else if msg.role == "tool" then [SaidOutput(if msg.toolCallId.Some? then msg.toolCallId.value else "", msg.content)]
    else [SaidChat(if msg.role == "" then "user" else msg.role, msg.content)]
  }

  lemma {:induction false} CallsReadBack(calls: seq<ToolCall>, n: nat)
    requires n <= |calls|
    ensures FlatMap(ReadItem, CallItems(calls)[..n]) == SaidCalls(calls[..n])
  {
    if n > 0 {
      CallsReadBack(calls, n - 1);
      assert CallItems(calls)[..n][..n - 1] == CallItems(calls)[..n - 1] && calls[..n][..n - 1] == calls[..n - 1];
    }
  }

  lemma MessageReadsBack(msg: Message)
    ensures FlatMap(ReadItem, ItemsOf(msg)) == Says(msg)
  {
    if msg.toolCalls != [] {
      CallsReadBack(msg.toolCalls, |msg.toolCalls|);
      assert CallItems(msg.toolCalls)[..|msg.toolCalls|] == CallItems(msg.toolCalls);
      assert msg.toolCalls[..|msg.toolCalls|] == msg.toolCalls;
    } else {
      assert ItemsOf(msg)[..0] == [];
    }
  }

  /** The round trip: reading a request back gives every call with its ids, name and arguments, every
      output with its call's id, and every chat text under its role, in the order of the log. */
  lemma {:induction false} RequestReadsBack(messages: seq<Message>)
    ensures FlatMap(ReadItem, Input(messages)) == FlatMap(Says, messages)
  {
    if messages != [] {
      var init, last := messages[..|messages| - 1], messages[|messages| - 1];
      RequestReadsBack(init);
      FlatMapConcat(ReadItem, Input(init), ItemsOf(last));
      MessageReadsBack(last);
    }
  }
}
