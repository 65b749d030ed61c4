/** The gateway's conversation store: an in-memory index (agent_gateway/internal/store/memory.go) in
    front of append-only JSONL files (agent_gateway/internal/store/jsonl.go).  A file is the list of
    its lines; JSON is a codec that each caller supplies. */
module Store {
  import opened Text

  /** One kind of object per file, named after it. */
  datatype Kind = Conversations | Messages | Runs | Approvals | Audits

  /** A Go map that may be nil. */
  type SafeMeta = Option<map<string, string>>

  /** One stored object; `body` is every field the store does not look at. */
  datatype Item =
    | Conversation(id: string, sessionId: string, body: string, meta: SafeMeta)
    | Message(id: string, sessionId: string, body: string, meta: SafeMeta)
    | Run(id: string, runId: string, sessionId: string, body: string, meta: SafeMeta)
    | Approval(id: string, sessionId: string, runId: string, requestId: string, body: string, meta: SafeMeta)
    | Audit(id: string, body: string, meta: SafeMeta)

  function KindOf(item: Item): Kind {
    match item
    case Conversation(_, _, _, _) => Conversations
    case Message(_, _, _, _) => Messages
    case Run(_, _, _, _, _) => Runs
    case Approval(_, _, _, _, _, _) => Approvals
    case Audit(_, _, _) => Audits
  }

  /** Copies a map, and turns an empty one into nil. */
  function CloneMeta(m: SafeMeta): SafeMeta {
    if m == Some(map[]) then None else m
  }

  function Clone(item: Item): (c: Item)
    ensures KindOf(c) == KindOf(item)
  {
    match item
    case Conversation(id, sessionId, body, meta) => Conversation(id, sessionId, body, CloneMeta(meta))
    case Message(id, sessionId, body, meta) => Message(id, sessionId, body, CloneMeta(meta))
    case Run(id, runId, sessionId, body, meta) => Run(id, runId, sessionId, body, CloneMeta(meta))
    case Approval(id, sessionId, runId, requestId, body, meta) =>
      Approval(id, sessionId, runId, requestId, body, CloneMeta(meta))
    case Audit(id, body, meta) => Audit(id, body, CloneMeta(meta))
  }

  // ---------------------------------------------------------------- tables

  /** What a write does to a table: nothing (ErrMissingID), an upsert, or an append. */
  datatype Entry = Refused | Keyed(key: string, value: Item) | Listed(value: Item)

  /** The two ids of a conversation stand in for each other, and so do those of a run. */
  function Prepare(item: Item): Entry {
    match Clone(item)
    case Conversation(id, sessionId, body, meta) =>
      var session := if sessionId == "" then id else sessionId;
      if session == "" then Refused
      else Keyed(session, Conversation(if id == "" then session else id, session, body, meta))
    case Message(id, sessionId, body, meta) =>
      if id == "" || sessionId == "" then Refused else Listed(Message(id, sessionId, body, meta))
    case Run(id, runId, sessionId, body, meta) =>
      var run := if runId == "" then id else runId;
      if run == "" || sessionId == "" then Refused
      else Keyed(run, Run(if id == "" then run else id, run, sessionId, body, meta))
    case Approval(id, sessionId, runId, requestId, body, meta) =>
      if id == "" || sessionId == "" || runId == "" || requestId == "" then Refused
      else Keyed(id, Approval(id, sessionId, runId, requestId, body, meta))
    case Audit(id, body, meta) =>
      if id == "" then Refused else Listed(Audit(id, body, meta))
  }

  /** A map with its order list, or an append-only list. */
  datatype Table = Table(rows: map<string, Item>, order: seq<string>, appended: seq<Item>)

  const EMPTY := Table(map[], [], [])

  function Put(t: Table, e: Entry): Table {
    match e
    case Refused => t
    case Keyed(k, v) =>
      Table(t.rows[k := v], if k in t.rows then t.order else t.order + [k], t.appended)
    case Listed(v) => Table(t.rows, t.order, t.appended + [v])
  }

  function TableOf(log: seq<Entry>): Table {
    if log == [] then EMPTY else Put(TableOf(log[..|log| - 1]), log[|log| - 1])
  }

  // ---------------------------------------------------------------- what a table means

  predicate Writes(e: Entry, key: string) {
    e.Keyed? && e.key == key
  }

  ghost predicate Written(log: seq<Entry>, key: string) {
    exists i :: 0 <= i < |log| && Writes(log[i], key)
  }

  predicate NotWrittenFrom(log: seq<Entry>, i: nat, key: string) {
    forall j :: i <= j < |log| ==> !Writes(log[j], key)
  }

  /** Entry `i` is the last one under its key. */
  predicate IsLatest(log: seq<Entry>, i: nat) {
    i < |log| && log[i].Keyed? && NotWrittenFrom(log, i + 1, log[i].key)
  }

  /** The position of the first entry under a key, or the length. */
  function FirstWrite(log: seq<Entry>, key: string): (i: nat)
    ensures i <= |log|
    ensures i < |log| ==> Writes(log[i], key)
    ensures forall j :: 0 <= j < i ==> !Writes(log[j], key)
  {
    if log == [] then 0
    else
      var n, last := |log| - 1, log[|log| - 1];
      var i := FirstWrite(log[..n], key);
      if i < n then i else if Writes(last, key) then n else n + 1
  }

  function Appended(log: seq<Entry>): seq<Item> {
    if log == [] then []
    else
      Appended(log[..|log| - 1]) + if log[|log| - 1].Listed? then [log[|log| - 1].value] else []
  }

  ghost predicate KeysAgree(t: Table, log: seq<Entry>) {
    && (forall k :: k in t.order <==> k in t.rows)
    && (forall k :: k in t.rows <==> Written(log, k))
  }

  ghost predicate RowsAreLatest(t: Table, log: seq<Entry>) {
    forall i :: 0 <= i < |log| && IsLatest(log, i) ==> log[i].key in t.rows && t.rows[log[i].key] == log[i].value
  }

  predicate OrderedByFirstWrite(order: seq<string>, log: seq<Entry>) {
    && (forall a :: 0 <= a < |order| ==> FirstWrite(log, order[a]) < |log|)
    && (forall a, b :: 0 <= a < b < |order| ==> FirstWrite(log, order[a]) < FirstWrite(log, order[b]))
  }

  /** The latest value under each written key; keys once each, in the order of their first write;
      and the entries without a key in the order they came. */
  ghost predicate IsIndexOf(t: Table, log: seq<Entry>) {
    KeysAgree(t, log) && RowsAreLatest(t, log) && OrderedByFirstWrite(t.order, log) && t.appended == Appended(log)
  }

  lemma WrittenGrows(log: seq<Entry>, last: Entry, key: string)
    ensures Written(log + [last], key) <==> Written(log, key) || Writes(last, key)
  {
    var all := log + [last];
    assert all[|log|] == last;
    if Written(log, key) {
      var i :| 0 <= i < |log| && Writes(log[i], key);
      assert Writes(all[i], key);
    }
  }

  lemma LatestShrinks(log: seq<Entry>, last: Entry, i: nat)
    requires i < |log| && IsLatest(log + [last], i)
    ensures IsLatest(log, i) && !Writes(last, log[i].key)
  {
    var all := log + [last];
    assert all[|log|] == last && all[i] == log[i];
    assert forall j :: 0 <= j < |log| ==> all[j] == log[j];
  }

  lemma KeysAgreeStep(t: Table, log: seq<Entry>, last: Entry)
    requires KeysAgree(t, log)
    ensures KeysAgree(Put(t, last), log + [last])
  {
    forall k {
      WrittenGrows(log, last, k);
    }
  }

  lemma RowsAreLatestStep(t: Table, log: seq<Entry>, last: Entry)
    requires RowsAreLatest(t, log)
    ensures RowsAreLatest(Put(t, last), log + [last])
  {
    var all, u := log + [last], Put(t, last);
    forall i | 0 <= i < |all| && IsLatest(all, i)
      ensures all[i].key in u.rows && u.rows[all[i].key] == all[i].value
    {
      if i < |log| {
        LatestShrinks(log, last, i);
      }
    }
  }

  lemma FirstWriteGrows(log: seq<Entry>, last: Entry, key: string)
    ensures FirstWrite(log, key) < |log| ==> FirstWrite(log + [last], key) == FirstWrite(log, key)
    ensures FirstWrite(log, key) == |log| && Writes(last, key) ==> FirstWrite(log + [last], key) == |log|
  {
    assert (log + [last])[..|log|] == log;
  }

  lemma NeverWritten(log: seq<Entry>, key: string)
    requires !Written(log, key)
    ensures FirstWrite(log, key) == |log|
  {
  }

  lemma OrderKept(order: seq<string>, log: seq<Entry>, last: Entry)
    requires OrderedByFirstWrite(order, log)
    ensures OrderedByFirstWrite(order, log + [last])
    ensures forall a :: 0 <= a < |order| ==> FirstWrite(log + [last], order[a]) < |log|
  {
    forall a | 0 <= a < |order|
      ensures FirstWrite(log + [last], order[a]) == FirstWrite(log, order[a]) < |log|
    {
      FirstWriteGrows(log, last, order[a]);
    }
  }

  lemma OrderPush(order: seq<string>, log: seq<Entry>, key: string)
    requires OrderedByFirstWrite(order, log) && FirstWrite(log, key) == |log| - 1
    requires forall a :: 0 <= a < |order| ==> FirstWrite(log, order[a]) < |log| - 1
    ensures OrderedByFirstWrite(order + [key], log)
  {
  }

  lemma OrderedStep(t: Table, log: seq<Entry>, last: Entry)
    requires KeysAgree(t, log) && OrderedByFirstWrite(t.order, log)
    ensures OrderedByFirstWrite(Put(t, last).order, log + [last])
  {
    OrderKept(t.order, log, last);
    if last.Keyed? && last.key !in t.rows {
      NeverWritten(log, last.key);
      FirstWriteGrows(log, last, last.key);
      OrderPush(t.order, log + [last], last.key);
    }
  }

  /** Replaying any log of writes gives the table that log means. */
  lemma {:induction false} TableIsIndex(log: seq<Entry>)
    ensures IsIndexOf(TableOf(log), log)
  {
    if log != [] {
      var init, last := log[..|log| - 1], log[|log| - 1];
      assert log == init + [last];
      TableIsIndex(init);
      KeysAgreeStep(TableOf(init), init, last);
      RowsAreLatestStep(TableOf(init), init, last);
      OrderedStep(TableOf(init), init, last);
    }
  }

  // ---------------------------------------------------------------- histories

  /** What a history of writes did to the table of one kind. */
  function Log(items: seq<Item>, k: Kind): seq<Entry> {
    if items == [] then []
    else
      var last := items[|items| - 1];
      Log(items[..|items| - 1], k) + if KindOf(last) == k then [Prepare(last)] else []
  }

  lemma TableGrows(items: seq<Item>, item: Item, k: Kind)
    ensures TableOf(Log(items + [item], k)) ==
            if KindOf(item) == k then Put(TableOf(Log(items, k)), Prepare(item)) else TableOf(Log(items, k))
  {
    assert (items + [item])[..|items|] == items;
    var log := Log(items, k);
    assert (log + [Prepare(item)])[..|log|] == log;
    assert log + [] == log;
  }

  /** The list a store hands out: the rows in table order, each one copied. */
  function Listing(t: Table): seq<Item>
    requires forall i :: 0 <= i < |t.order| ==> t.order[i] in t.rows
  {
    seq(|t.order|, i requires 0 <= i < |t.order| => Clone(t.rows[t.order[i]]))
  }

  predicate InSession(item: Item, sessionId: string) {
    (item.Message? || item.Run?) && item.sessionId == sessionId
  }

  /** The items of one session, in order; `any` takes them all. */
  function OfSession(items: seq<Item>, sessionId: string, any: bool): seq<Item> {
    if items == [] then []
    else
      var last := items[|items| - 1];
      OfSession(items[..|items| - 1], sessionId, any) + if any || InSession(last, sessionId) then [Clone(last)] else []
  }

  class MemoryStore {
    var conversations: map<string, Item>
    var conversationOrder: seq<string>
    var messages: seq<Item>
    var runs: map<string, Item>
    var runOrder: seq<string>
    var approvals: map<string, Item>
    var approvalOrder: seq<string>
    var auditEvents: seq<Item>

    /** Every item ever handed to the store. */
    ghost var written: seq<Item>

    function TableFor(k: Kind): Table
      reads this
    {
      match k
      case Conversations => Table(conversations, conversationOrder, [])
      case Messages => Table(map[], [], messages)
      case Runs => Table(runs, runOrder, [])
      case Approvals => Table(approvals, approvalOrder, [])
      case Audits => Table(map[], [], auditEvents)
    }

    ghost predicate Valid()
      reads this
    {
      forall k {:trigger Log(written, k)} :: TableFor(k) == TableOf(Log(written, k))
    }

    constructor ()
      ensures Valid() && written == [] && forall k :: TableFor(k) == EMPTY
    {
      conversations, conversationOrder, messages := map[], [], [];
      runs, runOrder, approvals, approvalOrder, auditEvents := map[], [], map[], [], [];
      written := [];
    }

    /** Recording an item is what keeps a table the index of its history. */
    twostate lemma Recorded(item: Item)
      requires old(Valid()) && written == old(written) + [item]
      requires TableFor(KindOf(item)) == Put(old(TableFor(KindOf(item))), Prepare(item))
      requires forall k :: k != KindOf(item) ==> TableFor(k) == old(TableFor(k))
      ensures Valid()
    {
      forall k
        ensures TableFor(k) == TableOf(Log(written, k))
      {
        TableGrows(old(written), item, k);
      }
    }

    method UpsertConversation(item: Item) returns (ok: bool)
      requires Valid() && item.Conversation?
      modifies this
      ensures Valid() && written == old(written) + [item]
      ensures ok == !Prepare(item).Refused?
    {
      written := written + [item];
      var c := Clone(item);
      var id, sessionId := c.id, c.sessionId;
      if sessionId == "" {
        sessionId := id;
      }
      if id == "" {
        id := sessionId;
      }
      if sessionId == "" {
        Recorded(item);
        return false;
      }
      if sessionId !in conversations {
        conversationOrder := conversationOrder + [sessionId];
      }
      conversations := conversations[sessionId := Conversation(id, sessionId, c.body, c.meta)];
      Recorded(item);
      return true;
    }

    method UpsertRun(item: Item) returns (ok: bool)
      requires Valid() && item.Run?
      modifies this
      ensures Valid() && written == old(written) + [item]
      ensures ok == !Prepare(item).Refused?
    {
      written := written + [item];
      var c := Clone(item);
      var id, runId := c.id, c.runId;
      if runId == "" {
        runId := id;
      }
      if id == "" {
        id := runId;
      }
      if runId == "" || c.sessionId == "" {
        Recorded(item);
        return false;
      }
      if runId !in runs {
        runOrder := runOrder + [runId];
      }
      runs := runs[runId := Run(id, runId, c.sessionId, c.body, c.meta)];
      Recorded(item);
      return true;
    }

    method UpsertApproval(item: Item) returns (ok: bool)
      requires Valid() && item.Approval?
      modifies this
      ensures Valid() && written == old(written) + [item]
      ensures ok == !Prepare(item).Refused?
    {
      written := written + [item];
      if item.id == "" || item.sessionId == "" || item.runId == "" || item.requestId == "" {
        Recorded(item);
        return false;
      }
      if item.id !in approvals {
        approvalOrder := approvalOrder + [item.id];
      }
      approvals := approvals[item.id := Clone(item)];
      Recorded(item);
      return true;
    }

    method AppendMessage(item: Item) returns (ok: bool)
      requires Valid() && item.Message?
      modifies this
      ensures Valid() && written == old(written) + [item]
      ensures ok == !Prepare(item).Refused?
    {
      written := written + [item];
      if item.id == "" || item.sessionId == "" {
        Recorded(item);
        return false;
      }
      messages := messages + [Clone(item)];
      Recorded(item);
      return true;
    }

    method AppendAudit(item: Item) returns (ok: bool)
      requires Valid() && item.Audit?
      modifies this
      ensures Valid() && written == old(written) + [item]
      ensures ok == !Prepare(item).Refused?
    {
      written := written + [item];
      if item.id == "" {
        Recorded(item);
        return false;
      }
      auditEvents := auditEvents + [Clone(item)];
      Recorded(item);
      return true;
    }

    method ListConversations() returns (out: seq<Item>)
      requires Valid()
      ensures forall i :: 0 <= i < |conversationOrder| ==> conversationOrder[i] in conversations
      ensures out == Listing(TableFor(Conversations))
    {
      OrderIsInRows();
      out := [];
      for i := 0 to |conversationOrder|
        invariant |out| == i && forall j :: 0 <= j < i ==> out[j] == Clone(conversations[conversationOrder[j]])
      {
        out := out + [Clone(conversations[conversationOrder[i]])];
      }
    }

    lemma OrderIsInRows()
      requires Valid()
      ensures forall i :: 0 <= i < |conversationOrder| ==> conversationOrder[i] in conversations
    {
      TableIsIndex(Log(written, Conversations));
      assert TableFor(Conversations).order == conversationOrder;
      assert forall i :: 0 <= i < |conversationOrder| ==> conversationOrder[i] in TableFor(Conversations).order;
    }

    method ListMessages(sessionId: string) returns (out: seq<Item>)
      ensures out == OfSession(messages, sessionId, false)
    {
      out := [];
      for i := 0 to |messages|
        invariant out == OfSession(messages[..i], sessionId, false)
      {
        assert messages[..i + 1][..i] == messages[..i];
        if InSession(messages[i], sessionId) {
          out := out + [Clone(messages[i])];
        }
      }
      assert messages[..|messages|] == messages;
    }
  }

  // ---------------------------------------------------------------- under which key

  /** An id is missing from both places it could be taken from. */
  predicate IsUnkeyed(item: Item) {
    match item
    case Conversation(id, sessionId, _, _) => id == "" && sessionId == ""
    case Message(id, sessionId, _, _) => id == "" || sessionId == ""
    case Run(id, runId, sessionId, _, _) => (id == "" && runId == "") || sessionId == ""
    case Approval(id, sessionId, runId, requestId, _, _) => id == "" || sessionId == "" || runId == "" || requestId == ""
    case Audit(id, _, _) => id == ""
  }

  /** The value kept says all that the item said; only a missing id is filled in, and an empty map dropped. */
  predicate SaysAll(item: Item, value: Item) {
    && KindOf(value) == KindOf(item) && value.body == item.body
    && value.meta == (if item.meta == Some(map[]) then None else item.meta)
    && value.id != "" && (item.id != "" ==> value.id == item.id)
    && (!item.Audit? ==> item.sessionId != "" ==> value.sessionId == item.sessionId)
    && (item.Run? || item.Approval? ==> item.runId != "" ==> value.runId == item.runId)
    && (item.Approval? ==> value.requestId == item.requestId)
  }

  lemma RefusedIff(item: Item)
    ensures Prepare(item).Refused? <==> IsUnkeyed(item)
  {
  }

  /** What an accepted item is kept as and under: a conversation under its session, a run under its run id
      and an approval under its own id, where the two ids of a conversation, and of a run, stand in for
      each other; messages and audit events in order.  Only an item without the ids it needs is refused. */
  lemma PrepareIs(item: Item)
    ensures var e := Prepare(item);
            && (e.Refused? <==> IsUnkeyed(item))
            && (!e.Refused? ==> SaysAll(item, e.value) && (e.Listed? <==> item.Message? || item.Audit?))
            && (e.Keyed? && item.Conversation? ==>
                  e.key == e.value.sessionId && e.key == if item.sessionId != "" then item.sessionId else item.id)
            && (e.Keyed? && item.Run? ==> e.key == e.value.runId && e.key == if item.runId != "" then item.runId else item.id)
            && (e.Keyed? && item.Approval? ==> e.key == item.id)
            && (e.Keyed? && (item.Conversation? || item.Run?) ==> e.value.id == if item.id != "" then item.id else e.key)
  {
  }

  /** The lookup a caller relies on: after any history, what was accepted last under a key is what the
      table of its kind holds there. */
  lemma LastWriteIsFound(items: seq<Item>, item: Item)
    requires Prepare(item).Keyed?
    ensures var t := TableOf(Log(items + [item], KindOf(item)));
            Prepare(item).key in t.rows && SaysAll(item, t.rows[Prepare(item).key])
  {
    TableGrows(items, item, KindOf(item));
    PrepareIs(item);
  }

  /** Listing a session gives exactly its messages: each is there, and nothing else. */
  lemma {:induction false} SessionListIs(items: seq<Item>, sessionId: string)
    requires forall i :: 0 <= i < |items| ==> items[i].Message?
    ensures forall x :: x in OfSession(items, sessionId, false) <==>
              exists i :: 0 <= i < |items| && items[i].sessionId == sessionId && x == Clone(items[i])
    ensures |items| > 0 && items[|items| - 1].sessionId == sessionId ==>
              OfSession(items, sessionId, false) ==
              OfSession(items[..|items| - 1], sessionId, false) + [Clone(items[|items| - 1])]
  {
    if items != [] {
      var n := |items| - 1;
      SessionListIs(items[..n], sessionId);
      assert forall i :: 0 <= i < n ==> items[..n][i] == items[i];
    }
  }
}
