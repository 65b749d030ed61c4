/** What loading any JSONL file gives, whoever wrote it (agent_gateway/internal/store/jsonl.go). */
module JsonlFiles {
  import opened Text
  import opened Store
  import opened Jsonl

  /** What one line of the file says; a line that is too long, or that decodes to an item without its ids,
      ends the load. */
  datatype Line = Blank | Undecodable | Says(item: Item) | Fatal

  function Read(decode: Decoder, k: Kind, line: string): Line {
    if !FitsLine(line) then Fatal
    else if Trim(line) == [] then Blank
    else
      match decode(k, Trim(line))
      case None => Undecodable
      case Some(item) => if IsUnkeyed(item) then Fatal else Says(item)
  }

  type Reader = string -> Line

  function ReaderOf(decode: Decoder, k: Kind): Reader {
    (line: string) => Read(decode, k, line)
  }

  predicate NoneFatal(read: Reader, lines: seq<string>) {
    forall i :: 0 <= i < |lines| ==> !read(lines[i]).Fatal?
  }

  /** The numbers, from 1, of the lines that do not decode. */
  function BadNumbers(read: Reader, lines: seq<string>): seq<nat> {
    if lines == [] then []
    else
      BadNumbers(read, lines[..|lines| - 1]) + if read(lines[|lines| - 1]).Undecodable? then [|lines|] else []
  }

  /** The items the lines say, in order. */
  function Items(read: Reader, lines: seq<string>): seq<Item> {
    if lines == [] then []
    else
      var last := read(lines[|lines| - 1]);
      Items(read, lines[..|lines| - 1]) + if last.Says? then [last.item] else []
  }

  /** The writes of these items, whatever their kinds. */
  function WritesOf(items: seq<Item>): seq<Entry> {
    if items == [] then [] else WritesOf(items[..|items| - 1]) + [Prepare(items[|items| - 1])]
  }

  function AfterLine(state: Load, line: Line, number: nat): Load {
    if state.Failed? then Failed
    else
      match line
      case Blank => state
      case Undecodable => Loaded(state.table, state.issues + [number])
      case Says(item) => Loaded(Put(state.table, Prepare(item)), state.issues)
      case Fatal => Failed
  }

  lemma LoadLineIs(decode: Decoder, k: Kind, state: Load, line: string, number: nat)
    ensures LoadLine(decode, k, state, line, number) == AfterLine(state, Read(decode, k, line), number)
  {
    if FitsLine(line) && Trim(line) != [] && decode(k, Trim(line)).Some? {
      DecodedLineIs(decode, k, state, line, number, decode(k, Trim(line)).value);
    } else {
      OtherLineIs(decode, k, state, line, number);
    }
  }

  lemma OtherLineIs(decode: Decoder, k: Kind, state: Load, line: string, number: nat)
    requires !(FitsLine(line) && Trim(line) != [] && decode(k, Trim(line)).Some?)
    ensures LoadLine(decode, k, state, line, number) == AfterLine(state, Read(decode, k, line), number)
  {
  }

  lemma DecodedLineIs(decode: Decoder, k: Kind, state: Load, line: string, number: nat, item: Item)
    requires FitsLine(line) && Trim(line) != [] && decode(k, Trim(line)) == Some(item)
    ensures LoadLine(decode, k, state, line, number) == AfterLine(state, Read(decode, k, line), number)
  {
    RefusedIff(item);
    assert Read(decode, k, line) == if IsUnkeyed(item) then Fatal else Says(item);
  }

  function LoadResult(read: Reader, lines: seq<string>): Load {
    if NoneFatal(read, lines) then Loaded(TableOf(WritesOf(Items(read, lines))), BadNumbers(read, lines)) else Failed
  }

  lemma LoadResultStep(read: Reader, lines: seq<string>, n: nat)
    requires n + 1 == |lines|
    ensures LoadResult(read, lines) == AfterLine(LoadResult(read, lines[..n]), read(lines[n]), n + 1)
  {
    var init, last := lines[..n], read(lines[n]);
    assert NoneFatal(read, lines) <==> NoneFatal(read, init) && !last.Fatal?;
    assert Items(read, init) + [] == Items(read, init) && BadNumbers(read, init) + [] == BadNumbers(read, init);
    if last.Says? {
      WritesPush(Items(read, init), last.item);
    }
  }

  lemma WritesPush(items: seq<Item>, item: Item)
    ensures TableOf(WritesOf(items + [item])) == Put(TableOf(WritesOf(items)), Prepare(item))
  {
    assert (items + [item])[..|items|] == items;
    var writes := WritesOf(items);
    assert (writes + [Prepare(item)])[..|writes|] == writes;
  }

  /** What loading any file gives: it fails if and only if some line is too long or decodes to an item
      without its ids; otherwise blank lines count for nothing, lines that do not decode are listed by
      number, and the table is the index of all the other lines' items, in order. */
  lemma {:induction false} LoadIs(decode: Decoder, k: Kind, lines: seq<string>)
    ensures LoadFile(decode, k, lines) == LoadResult(ReaderOf(decode, k), lines)
  {
    if lines != [] {
      var n := |lines| - 1;
      LoadIs(decode, k, lines[..n]);
      LoadLineIs(decode, k, LoadFile(decode, k, lines[..n]), lines[n], n + 1);
      LoadResultStep(ReaderOf(decode, k), lines, n);
    }
  }
}
