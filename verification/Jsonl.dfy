/** The write-through JSONL store (agent_gateway/internal/store/jsonl.go): replaying the files gives
    the live tables. */
module Jsonl {
  import opened Text
  import opened Store

  /** The longest line, in bytes, that `bufio.Scanner` accepts: its buffer of 64 KiB must also hold the
      newline. */
  const MAX_LINE := 0x1_0000 - 1

  /** The length of a line in its file, which is UTF-8. */
  function ByteLength(line: string): nat {
    if line == [] then 0 else ByteLength(line[..|line| - 1]) + CharLength(line[|line| - 1])
  }

  function CharLength(c: char): nat {
    if c < '\U{80}' then 1 else if c < '\U{800}' then 2 else if c < '\U{10000}' then 3 else 4
  }

  predicate FitsLine(line: string) {
    ByteLength(line) <= MAX_LINE
  }

  type Encoder = Item -> string
  type Decoder = (Kind, string) -> Option<Item>

  /** Each file is decoded into its own Go type. */
  ghost predicate Typed(decode: Decoder) {
    forall k, line :: decode(k, line).Some? ==> KindOf(decode(k, line).value) == k
  }

  /** What the store writes for an item reads back as that item. */
  ghost predicate FaithfulFor(encode: Encoder, decode: Decoder, item: Item) {
    var line := encode(Clone(item));
    line != [] && Trimmed(line) && decode(KindOf(item), line) == Some(Clone(item))
  }

  ghost predicate Faithful(encode: Encoder, decode: Decoder) {
    forall item :: FaithfulFor(encode, decode, item)
  }

  // ---------------------------------------------------------------- loading one file

  /** The table built so far with the numbers of the undecodable lines, or the error that ends NewJSONLStore. */
  datatype Load = Loaded(table: Table, issues: seq<nat>) | Failed

  function LoadLine(decode: Decoder, k: Kind, state: Load, line: string, number: nat): Load {
    if state.Failed? || !FitsLine(line) then Failed
    else if Trim(line) == [] then state
    else
      match decode(k, Trim(line))
      case None => Loaded(state.table, state.issues + [number])
      case Some(item) =>
        if Prepare(item).Refused? then Failed else Loaded(Put(state.table, Prepare(item)), state.issues)
  }

  function LoadFile(decode: Decoder, k: Kind, lines: seq<string>): Load {
    if lines == [] then Loaded(EMPTY, [])
    else LoadLine(decode, k, LoadFile(decode, k, lines[..|lines| - 1]), lines[|lines| - 1], |lines|)
  }

  // ---------------------------------------------------------------- replay equals live state

  /** The lines a history of successful writes leaves in the file of one kind. */
  function FileOf(encode: Encoder, items: seq<Item>, k: Kind): seq<string> {
    if items == [] then []
    else
      var last := items[|items| - 1];
      FileOf(encode, items[..|items| - 1], k) +
      if KindOf(last) == k && !Prepare(last).Refused? then [encode(Clone(last))] else []
  }

  predicate AllShort(lines: seq<string>) {
    forall i :: 0 <= i < |lines| ==> FitsLine(lines[i])
  }

  /** Storing a copy, as JSONLStore does, is storing the original. */
  lemma PrepareClone(item: Item)
    ensures Prepare(Clone(item)) == Prepare(item)
  {
    assert Clone(Clone(item)) == Clone(item);
  }

  /** Reading back the line of an accepted write repeats that write. */
  lemma LoadWrittenLine(encode: Encoder, decode: Decoder, state: Load, item: Item, number: nat)
    requires state.Loaded? && FaithfulFor(encode, decode, item) && !Prepare(item).Refused?
    ensures LoadLine(decode, KindOf(item), state, encode(Clone(item)), number) ==
            if FitsLine(encode(Clone(item))) then Loaded(Put(state.table, Prepare(item)), state.issues) else Failed
  {
    PrepareClone(item);
  }

  lemma AllShortStep(lines: seq<string>, line: string)
    ensures AllShort(lines + [line]) <==> AllShort(lines) && FitsLine(line)
  {
    var all := lines + [line];
    assert all[|lines|] == line;
    assert forall i :: 0 <= i < |lines| ==> all[i] == lines[i];
  }

  lemma ReplayStep(encode: Encoder, decode: Decoder, lines: seq<string>, table: Table, item: Item)
    requires FaithfulFor(encode, decode, item)
    requires LoadFile(decode, KindOf(item), lines) == if AllShort(lines) then Loaded(table, []) else Failed
    requires !Prepare(item).Refused?
    ensures var more := lines + [encode(Clone(item))];
            LoadFile(decode, KindOf(item), more) ==
            if AllShort(more) then Loaded(Put(table, Prepare(item)), []) else Failed
  {
    var line := encode(Clone(item));
    var more := lines + [line];
    assert more[..|lines|] == lines;
    AllShortStep(lines, line);
    if AllShort(lines) {
      LoadWrittenLine(encode, decode, Loaded(table, []), item, |more|);
    }
  }

  /** Loading the file of any history of writes gives exactly the live table, with no issues, as long
      as every line fits the scanner; with one longer line the store does not open at all. */
  lemma {:induction false} ReplayIsLive(encode: Encoder, decode: Decoder, items: seq<Item>, k: Kind)
    requires Faithful(encode, decode)
    ensures var lines := FileOf(encode, items, k);
            LoadFile(decode, k, lines) ==
            if AllShort(lines) then Loaded(TableOf(Log(items, k)), []) else Failed
  {
    if items != [] {
      var init, last := items[..|items| - 1], items[|items| - 1];
      assert items == init + [last];
      ReplayIsLive(encode, decode, init, k);
      TableGrows(init, last, k);
      var lines := FileOf(encode, init, k);
      if KindOf(last) == k && !Prepare(last).Refused? {
        assert FaithfulFor(encode, decode, last);
        ReplayStep(encode, decode, lines, TableOf(Log(init, k)), last);
      } else {
        assert FileOf(encode, items, k) == lines + [] == lines;
      }
    }
  }

  /** Opening a file with these lines would rebuild this table, whatever else the file holds. */
  predicate Rebuilds(decode: Decoder, k: Kind, lines: seq<string>, table: Table) {
    var load := LoadFile(decode, k, lines);
    load.Loaded? && load.table == table
  }

  /** One accepted write from a table its file rebuilds.  Appended, it is rebuilt too exactly when its
      line fits the scanner; not appended, exactly when it changed nothing, so memory is ahead of the
      file after any failed append of a message or an audit event. */
  lemma WriteKeepsSync(encode: Encoder, decode: Decoder, lines: seq<string>, table: Table, item: Item)
    requires FaithfulFor(encode, decode, item) && !Prepare(item).Refused?
    requires Rebuilds(decode, KindOf(item), lines, table)
    ensures var line, now := encode(Clone(item)), Put(table, Prepare(item));
            && (Rebuilds(decode, KindOf(item), lines + [line], now) <==> FitsLine(line))
            && (Rebuilds(decode, KindOf(item), lines, now) <==> now == table)
            && (item.Message? || item.Audit? ==> now != table)
  {
    var line := encode(Clone(item));
    assert (lines + [line])[..|lines|] == lines;
    LoadWrittenLine(encode, decode, LoadFile(decode, KindOf(item), lines), item, |lines| + 1);
    if Prepare(item).Listed? {
      PutGrowsList(table, Prepare(item));
    }
  }

  lemma PutGrowsList(table: Table, e: Entry)
    requires e.Listed?
    ensures Put(table, e) != table
  {
    assert |Put(table, e).appended| == |table.appended| + 1;
  }

  // ---------------------------------------------------------------- the store

  class JSONLStore {
    const encode: Encoder
    const decode: Decoder
    const mem: MemoryStore
    /** The files on disk; a missing file is an empty one. */
    var files: map<Kind, seq<string>>
    /** File and line number of every line that did not decode. */
    var issues: seq<(Kind, nat)>

    ghost predicate Valid()
      reads this, mem
    {
      mem.Valid() && Faithful(encode, decode) && Typed(decode)
    }

    function Lines(k: Kind): seq<string>
      reads this
    {
      if k in files then files[k] else []
    }

    /** Opening the files now would rebuild the live table of this kind. */
    ghost predicate InSync(k: Kind)
      reads this, mem
    {
      Rebuilds(decode, k, Lines(k), mem.TableFor(k))
    }

    constructor (files: map<Kind, seq<string>>, encode: Encoder, decode: Decoder)
      requires Faithful(encode, decode) && Typed(decode)
      ensures Valid() && fresh(mem) && this.files == files && this.encode == encode && this.decode == decode
      ensures issues == [] && forall k :: mem.TableFor(k) == EMPTY
    {
      this.files, this.encode, this.decode, issues := files, encode, decode, [];
      mem := new MemoryStore();
    }

    /** Hands a copy to the memory method of its kind. */
    method Remember(copy: Item) returns (ok: bool)
      requires mem.Valid()
      modifies mem
      ensures mem.Valid() && mem.written == old(mem.written) + [copy]
      ensures ok == !Prepare(copy).Refused?
    {
      match copy {
        case Conversation(_, _, _, _) => ok := mem.UpsertConversation(copy);
        case Message(_, _, _, _) => ok := mem.AppendMessage(copy);
        case Run(_, _, _, _, _) => ok := mem.UpsertRun(copy);
        case Approval(_, _, _, _, _, _) => ok := mem.UpsertApproval(copy);
        case Audit(_, _, _) => ok := mem.AppendAudit(copy);
      }
    }

    /** One of the store's five write methods: memory first, then the file.  `appendFails` is an I/O
        error while appending. */
    method Write(item: Item, appendFails: bool) returns (ok: bool)
      requires Valid()
      modifies this`files, mem
      ensures Valid() && mem.written == old(mem.written) + [Clone(item)]
      ensures ok == (!Prepare(item).Refused? && !appendFails)
      ensures forall k :: Lines(k) == old(Lines(k)) + if ok && k == KindOf(item) then [encode(Clone(item))] else []
      ensures forall k :: mem.TableFor(k) ==
                          if k == KindOf(item) then Put(old(mem.TableFor(k)), Prepare(item)) else old(mem.TableFor(k))
      ensures old(InSync(KindOf(item))) && ok ==> (InSync(KindOf(item)) <==> FitsLine(encode(Clone(item))))
    {
      var copy := Clone(item);
      var remembered := Remember(copy);
      PrepareClone(item);
      forall k
        ensures mem.TableFor(k) ==
                if k == KindOf(item) then Put(old(mem.TableFor(k)), Prepare(item)) else old(mem.TableFor(k))
      {
        TableGrows(old(mem.written), copy, k);
      }
      if !remembered {
        return false;
      }
      if appendFails {
        return false;
      }
      files := files[KindOf(item) := Lines(KindOf(item)) + [encode(copy)]];
      if old(InSync(KindOf(item))) {
        assert FaithfulFor(encode, decode, item);
        WriteKeepsSync(encode, decode, old(Lines(KindOf(item))), old(mem.TableFor(KindOf(item))), item);
      }
      return true;
    }

    /** The callback of one load method on one scanned line, `before` being what the file gave so far and
        `earlier` the issues of the files before it. */
    method HandleLine(k: Kind, line: string, number: nat, ghost before: Load, ghost earlier: seq<(Kind, nat)>)
      returns (ok: bool, ghost after: Load)
      requires Valid() && Shows(k, before, earlier) && FitsLine(line)
      modifies this`issues, mem
      ensures Valid() && files == old(files) && OthersKept(k)
      ensures after == LoadLine(decode, k, before, line, number) && ok == after.Loaded?
      ensures ok ==> Shows(k, after, earlier)
    {
      after := LoadLine(decode, k, before, line, number);
      var trimmed := Trim(line);
      if trimmed == [] {
        ok := true;
        return;
      }
      match decode(k, trimmed) {
        case None =>
          issues := issues + [(k, number)];
          LocatedPush(earlier, k, before.issues, number);
          ok := true;
        case Some(item) =>
          ok := Remember(item);
          forall j
            ensures mem.TableFor(j) ==
                    if j == k then Put(old(mem.TableFor(j)), Prepare(item)) else old(mem.TableFor(j))
          {
            TableGrows(old(mem.written), item, j);
          }
      }
    }

    twostate predicate OthersKept(k: Kind)
      reads mem
    {
      forall j :: j != k ==> mem.TableFor(j) == old(mem.TableFor(j))
    }

    /** The memory table and the issues are what one file gave, after the issues of earlier files. */
    ghost predicate Shows(k: Kind, load: Load, earlier: seq<(Kind, nat)>)
      reads this, mem
    {
      load.Loaded? && mem.TableFor(k) == load.table && issues == Located(earlier, k, load.issues)
    }

    /** Reads one file into an empty table; false ends NewJSONLStore with an error. */
    method LoadKind(k: Kind, ghost load: Load) returns (ok: bool)
      requires Valid() && mem.TableFor(k) == EMPTY && load == LoadFile(decode, k, Lines(k))
      modifies this`issues, mem
      ensures Valid() && files == old(files) && OthersKept(k)
      ensures ok == load.Loaded?
      ensures ok ==> Shows(k, load, old(issues))
    {
      var lines := Lines(k);
      ghost var now := Loaded(EMPTY, []);
      for i := 0 to |lines|
        invariant Valid() && files == old(files) && OthersKept(k)
        invariant now == LoadFile(decode, k, lines[..i]) && Shows(k, now, old(issues))
      {
        OneMoreLine(decode, k, lines, i);
        if !FitsLine(lines[i]) {
          return false;
        }
        ok, now := HandleLine(k, lines[i], i + 1, now, old(issues));
        if !ok {
          return false;
        }
      }
      assert lines[..|lines|] == lines;
      return true;
    }

    /** Opening the store reads the five files in turn; it succeeds exactly when each of them loads,
        and then every later restart would rebuild the same tables. */
    method LoadAll(ghost load: Kind -> Load) returns (ok: bool)
      requires Valid() && forall k :: mem.TableFor(k) == EMPTY && load(k) == LoadFile(decode, k, Lines(k))
      modifies this`issues, mem
      ensures Valid() && files == old(files)
      ensures ok <==> forall k :: load(k).Loaded?
      ensures ok ==> forall k :: Rebuilt(k, load)
    {
      for i := 0 to |KINDS|
        invariant Valid() && files == old(files)
        invariant forall j :: 0 <= j < i ==> Rebuilt(KINDS[j], load)
        invariant forall j :: i <= j < |KINDS| ==> mem.TableFor(KINDS[j]) == EMPTY
      {
        KindsAreDistinct(i);
        ok := LoadKind(KINDS[i], load(KINDS[i]));
        if !ok {
          return false;
        }
      }
      forall k
        ensures load(k).Loaded? && Rebuilt(k, load)
      {
        var i := KindIndex(k);
        assert Rebuilt(KINDS[i], load);
      }
      return true;
    }

    ghost predicate Rebuilt(k: Kind, load: Kind -> Load)
      reads mem
    {
      load(k).Loaded? && mem.TableFor(k) == load(k).table
    }
  }

  /** The order in which the files are read. */
  const KINDS := [Conversations, Messages, Runs, Approvals, Audits]

  lemma KindsAreDistinct(i: nat)
    requires i < |KINDS|
    ensures forall j :: 0 <= j < |KINDS| && j != i ==> KINDS[j] != KINDS[i]
  {
  }

  lemma KindIndex(k: Kind) returns (i: nat)
    ensures i < |KINDS| && KINDS[i] == k
  {
    i := match k case Conversations => 0 case Messages => 1 case Runs => 2 case Approvals => 3 case Audits => 4;
  }

  /** The list of issues with those of one more file. */
  function Located(earlier: seq<(Kind, nat)>, k: Kind, numbers: seq<nat>): seq<(Kind, nat)> {
    if numbers == [] then earlier
    else Located(earlier, k, numbers[..|numbers| - 1]) + [(k, numbers[|numbers| - 1])]
  }

  lemma LocatedPush(earlier: seq<(Kind, nat)>, k: Kind, numbers: seq<nat>, number: nat)
    ensures Located(earlier, k, numbers + [number]) == Located(earlier, k, numbers) + [(k, number)]
  {
    assert (numbers + [number])[..|numbers|] == numbers;
  }

  lemma OneMoreLine(decode: Decoder, k: Kind, lines: seq<string>, i: nat)
    requires i < |lines|
    ensures var next := LoadLine(decode, k, LoadFile(decode, k, lines[..i]), lines[i], i + 1);
            && LoadFile(decode, k, lines[..i + 1]) == next
            && (next.Failed? || !FitsLine(lines[i]) ==> LoadFile(decode, k, lines).Failed?)
  {
    LoadFileStep(decode, k, lines, i);
    FailureSticks(decode, k, lines, i + 1);
  }

  lemma LoadFileStep(decode: Decoder, k: Kind, lines: seq<string>, i: nat)
    requires i < |lines|
    ensures LoadFile(decode, k, lines[..i + 1]) ==
            LoadLine(decode, k, LoadFile(decode, k, lines[..i]), lines[i], i + 1)
  {
    assert lines[..i + 1][..i] == lines[..i];
  }

  lemma {:induction false} FailureSticks(decode: Decoder, k: Kind, lines: seq<string>, i: nat)
    requires i <= |lines|
    ensures LoadFile(decode, k, lines[..i]).Failed? ==> LoadFile(decode, k, lines).Failed?
    decreases |lines| - i
  {
    if i < |lines| {
      assert lines[..i + 1][..i] == lines[..i];
      FailureSticks(decode, k, lines, i + 1);
    } else {
      assert lines[..i] == lines;
    }
  }
}
