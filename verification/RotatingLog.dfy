/** The size-rotated audit log writer (agent_server/internal/audit/logger.go).  Files hold whole
    records: each Write hands the operating system one record, and no file operation fails. */
module RotatingLog {
  import opened Text

  type Record = seq<bv8>
  type Path = string
  type FileSystem = map<Path, seq<Record>>

  // ---------------------------------------------------------------- paths

  /** Length of the path without its extension, as `filepath.Ext` finds it. */
  function StemLength(path: Path, i: nat): (n: nat)
    requires i <= |path|
    ensures n <= |path|
  {
    if i == 0 || path[i - 1] == '/' then |path|
    else if path[i - 1] == '.' then i - 1
    else StemLength(path, i - 1)
  }

  function RotatedPath(path: Path, index: nat): Path {
    var n := StemLength(path, |path|);
    path[..n] + "." + Itoa(index) + path[n..]
  }

  lemma RotatedPathsDiffer(path: Path, i: nat, j: nat)
    ensures RotatedPath(path, i) != path
    ensures i != j ==> RotatedPath(path, i) != RotatedPath(path, j)
  {
    assert |RotatedPath(path, i)| == |path| + 1 + |Itoa(i)|;
    var n := StemLength(path, |path|);
    if RotatedPath(path, i) == RotatedPath(path, j) {
      assert |Itoa(i)| == |Itoa(j)|;
      assert Itoa(i) == RotatedPath(path, i)[n + 1..n + 1 + |Itoa(i)|];
      assert Itoa(j) == RotatedPath(path, j)[n + 1..n + 1 + |Itoa(j)|];
      ItoaInjective(i, j);
    }
  }

  /** The log's files by age: 0 is the current one, i > 0 the i-th backup. */
  function FilePath(path: Path, age: nat): Path {
    if age == 0 then path else RotatedPath(path, age)
  }

  /** The name of the file of each age. */
  type Naming = nat -> Path

  function Names(path: Path): Naming {
    (age: nat) => FilePath(path, age)
  }

  ghost predicate Injective(name: Naming) {
    forall i, j :: i != j ==> name(i) != name(j)
  }

  /** No two files of one log share a path. */
  lemma NamesAreInjective(path: Path)
    ensures Injective(Names(path))
  {
    forall i, j | i != j
      ensures Names(path)(i) != Names(path)(j)
    {
      RotatedPathsDiffer(path, i, j);
      RotatedPathsDiffer(path, j, i);
    }
  }

  // ---------------------------------------------------------------- file operations

  function Remove(fs: FileSystem, p: Path): FileSystem {
    fs - {p}
  }

  /** Renaming a file that does not exist changes nothing. */
  function Rename(fs: FileSystem, src: Path, dst: Path): FileSystem {
    if src in fs then (fs - {src})[dst := fs[src]] else fs
  }

  function Size(records: seq<Record>): nat {
    if records == [] then 0 else Size(records[..|records| - 1]) + |records[|records| - 1]|
  }

  // ---------------------------------------------------------------- what a sequence of writes leaves

  /** The files of one log, by age.  An existing directory may have any of them missing. */
  type Slots = seq<Option<seq<Record>>>

  function Held(slot: Option<seq<Record>>): seq<Record> {
    if slot.Some? then slot.value else []
  }

  /** A record that a limit of `maxBytes` cannot take any more starts a new file, which makes every
      file one step older; the oldest goes. */
  function WriteSlots(slots: Slots, r: Record, maxBytes: nat): (next: Slots)
    requires slots != []
    ensures |next| == |slots|
  {
    if NeedsRotation(Held(slots[0]), r, maxBytes) then [Some([r])] + slots[..|slots| - 1]
    else slots[0 := Some(Held(slots[0]) + [r])]
  }

  predicate NeedsRotation(current: seq<Record>, r: Record, maxBytes: nat) {
    maxBytes > 0 && Size(current) > 0 && Size(current) + |r| > maxBytes
  }

  function WriteAll(start: Slots, records: seq<Record>, maxBytes: nat): (slots: Slots)
    requires start != []
    ensures |slots| == |start|
  {
    if records == [] then start
    else WriteSlots(WriteAll(start, records[..|records| - 1], maxBytes), records[|records| - 1], maxBytes)
  }

  /** All records, oldest first. */
  function Flat(slots: Slots): seq<Record> {
    if slots == [] then [] else Flat(slots[1..]) + Held(slots[0])
  }

  predicate IsSuffix(s: seq<Record>, all: seq<Record>) {
    |s| <= |all| && s == all[|all| - |s|..]
  }

  function NonEmpty(records: seq<Record>): nat {
    if records == [] then 0
    else NonEmpty(records[..|records| - 1]) + if records[|records| - 1] == [] then 0 else 1
  }

  /** A file fits the limit, or it is one oversized record (next to empty ones). */
  predicate Fits(records: seq<Record>, maxBytes: nat) {
    Size(records) <= maxBytes || NonEmpty(records) == 1
  }

  ghost predicate AllFit(slots: Slots, maxBytes: nat) {
    forall i :: 0 <= i < |slots| ==> Fits(Held(slots[i]), maxBytes)
  }

  /** The files present are the newest ones. */
  predicate NoGaps(slots: Slots) {
    forall i, j :: 0 <= i < j < |slots| && slots[j].Some? ==> slots[i].Some?
  }

  lemma {:induction false} FlatPrefix(slots: Slots, n: nat)
    requires n <= |slots|
    ensures IsSuffix(Flat(slots[..n]), Flat(slots))
    decreases n
  {
    if n > 0 {
      FlatPrefix(slots[1..], n - 1);
      assert slots[..n][1..] == slots[1..][..n - 1];
      SuffixAppend(Flat(slots[1..][..n - 1]), Flat(slots[1..]), Held(slots[0]));
    }
  }

  lemma SuffixAppend(s: seq<Record>, all: seq<Record>, more: seq<Record>)
    requires IsSuffix(s, all)
    ensures IsSuffix(s + more, all + more)
  {
  }

  lemma SuffixTransitive(a: seq<Record>, b: seq<Record>, c: seq<Record>)
    requires IsSuffix(a, b) && IsSuffix(b, c)
    ensures IsSuffix(a, c)
  {
  }

  lemma NoSize(records: seq<Record>)
    requires Size(records) == 0
    ensures NonEmpty(records) == 0
  {
  }

  lemma SizeAppend(records: seq<Record>, r: Record)
    ensures Size(records + [r]) == Size(records) + |r|
    ensures NonEmpty(records + [r]) == NonEmpty(records) + if r == [] then 0 else 1
  {
    assert (records + [r])[..|records|] == records;
  }

  lemma WriteFits(slots: Slots, r: Record, maxBytes: nat)
    requires slots != [] && maxBytes > 0 && AllFit(slots, maxBytes)
    ensures AllFit(WriteSlots(slots, r, maxBytes), maxBytes)
  {
    SizeAppend([], r);
    assert [] + [r] == [r];
    assert Fits([r], maxBytes);
    var current := Held(slots[0]);
    if !NeedsRotation(current, r, maxBytes) {
      SizeAppend(current, r);
      if Size(current) == 0 {
        NoSize(current);
      }
    }
  }

  /** A rotation drops the records of the oldest backup and nothing else; without one nothing is dropped. */
  lemma DropsOnlyOldest(slots: Slots, r: Record, maxBytes: nat)
    requires slots != []
    ensures Flat(WriteSlots(slots, r, maxBytes)) ==
            if NeedsRotation(Held(slots[0]), r, maxBytes) then Flat(slots[..|slots| - 1]) + [r] else Flat(slots) + [r]
  {
    var out := WriteSlots(slots, r, maxBytes);
    if NeedsRotation(Held(slots[0]), r, maxBytes) {
      assert out[1..] == slots[..|slots| - 1];
    } else {
      assert out[1..] == slots[1..];
      assert Flat(slots[1..]) + (Held(slots[0]) + [r]) == (Flat(slots[1..]) + Held(slots[0])) + [r];
    }
  }

  lemma WriteLeavesNoGaps(slots: Slots, r: Record, maxBytes: nat)
    requires slots != [] && NoGaps(slots)
    ensures NoGaps(WriteSlots(slots, r, maxBytes))
  {
  }

  lemma NextWrite(slots: Slots, before: seq<Record>, r: Record, maxBytes: nat)
    requires slots != [] && IsSuffix(Flat(slots), before)
    ensures var out := Flat(WriteSlots(slots, r, maxBytes));
            IsSuffix(out, before + [r]) && IsSuffix([r], out)
  {
    DropsOnlyOldest(slots, r, maxBytes);
    FlatPrefix(slots, |slots| - 1);
    var kept := if NeedsRotation(Held(slots[0]), r, maxBytes) then slots[..|slots| - 1] else slots;
    SuffixTransitive(Flat(kept), Flat(slots), before);
    SuffixAppend(Flat(kept), before, [r]);
  }

  /** No file was closed while the record that opened the next one would still have fitted. */
  predicate ClosedWhenFull(slots: Slots, maxBytes: nat) {
    && (forall i :: 0 <= i < |slots| - 1 && slots[i + 1].Some? ==> OpenedAfter(Held(slots[i]), Held(slots[i + 1]), maxBytes))
  }

  predicate OpenedAfter(newer: seq<Record>, older: seq<Record>, maxBytes: nat) {
    newer != [] && Size(older) + |newer[0]| > maxBytes
  }

  lemma WriteClosesWhenFull(slots: Slots, r: Record, maxBytes: nat)
    requires slots != [] && ClosedWhenFull(slots, maxBytes)
    ensures ClosedWhenFull(WriteSlots(slots, r, maxBytes), maxBytes)
  {
    var out := WriteSlots(slots, r, maxBytes);
    forall i | 0 <= i < |out| - 1 && out[i + 1].Some?
      ensures OpenedAfter(Held(out[i]), Held(out[i + 1]), maxBytes)
    {
      if NeedsRotation(Held(slots[0]), r, maxBytes) {
        assert i > 0 ==> out[i] == slots[i - 1] && out[i + 1] == slots[i];
      } else {
        assert OpenedAfter(Held(slots[i]), Held(slots[i + 1]), maxBytes);
      }
    }
  }

  /** What the files are after `written` was written to a log whose files were `start`. */
  ghost predicate HoldsSuffix(start: Slots, written: seq<Record>, slots: Slots, maxBytes: nat) {
    && IsSuffix(Flat(slots), Flat(start) + written)
    && (written != [] ==> IsSuffix([written[|written| - 1]], Flat(slots)))
    && (AllFit(start, maxBytes) ==> AllFit(slots, maxBytes))
    && (NoGaps(start) ==> NoGaps(slots))
    && (ClosedWhenFull(start, maxBytes) ==> ClosedWhenFull(slots, maxBytes))
  }

  lemma HoldsAfterWrite(start: Slots, written: seq<Record>, slots: Slots, r: Record, maxBytes: nat)
    requires slots != [] && maxBytes > 0 && HoldsSuffix(start, written, slots, maxBytes)
    ensures HoldsSuffix(start, written + [r], WriteSlots(slots, r, maxBytes), maxBytes)
  {
    assert (Flat(start) + written) + [r] == Flat(start) + (written + [r]);
    NextWrite(slots, Flat(start) + written, r, maxBytes);
    if AllFit(start, maxBytes) {
      WriteFits(slots, r, maxBytes);
    }
    if NoGaps(start) {
      WriteLeavesNoGaps(slots, r, maxBytes);
    }
    if ClosedWhenFull(start, maxBytes) {
      WriteClosesWhenFull(slots, r, maxBytes);
    }
  }

  /** Rotation keeps a suffix: after any sequence of writes the files hold, oldest backup to current
      file, an unbroken suffix of what they held at first and everything written, and it ends with the
      last record.  No record is split over two files.  Each file fits maxBytes unless it is a single
      oversized record, no backup is missing between others, and no file was closed before it was full, as
      long as that was so at first. */
  lemma {:induction false} RotationKeepsSuffix(start: Slots, records: seq<Record>, maxBytes: nat)
    requires start != [] && maxBytes > 0
    ensures HoldsSuffix(start, records, WriteAll(start, records, maxBytes), maxBytes)
  {
    if records == [] {
      assert Flat(start) + records == Flat(start);
    } else {
      var init, last := records[..|records| - 1], records[|records| - 1];
      RotationKeepsSuffix(start, init, maxBytes);
      assert init + [last] == records;
      HoldsAfterWrite(start, init, WriteAll(start, init, maxBytes), last, maxBytes);
    }
  }

  // ---------------------------------------------------------------- the writer object

  function FileAt(fs: FileSystem, name: Naming, age: nat): Option<seq<Record>> {
    if name(age) in fs then Some(fs[name(age)]) else None
  }

  /** The files on disk are `slots`. */
  ghost predicate Layout(fs: FileSystem, name: Naming, slots: Slots) {
    forall a :: 0 <= a < |slots| ==> FileAt(fs, name, a) == slots[a]
  }

  predicate SameFile(was: FileSystem, now: FileSystem, p: Path) {
    p in was <==> p in now && (p in was ==> was[p] == now[p])
  }

  ghost predicate IsLogFile(name: Naming, maxBackups: nat, p: Path) {
    exists age: nat :: age <= maxBackups && name(age) == p
  }

  /** Only the log's own files, up to the last backup, may differ. */
  ghost predicate OthersKept(was: FileSystem, now: FileSystem, name: Naming, maxBackups: nat) {
    forall p :: !IsLogFile(name, maxBackups, p) ==> SameFile(was, now, p)
  }

  /** Changing files of at most two ages keeps the others. */
  lemma OwnFiles(was: FileSystem, now: FileSystem, next: FileSystem, name: Naming, maxBackups: nat, i: nat, j: nat)
    requires OthersKept(was, now, name, maxBackups) && i <= maxBackups && j <= maxBackups
    requires forall p :: p != name(i) && p != name(j) ==> SameFile(now, next, p)
    ensures OthersKept(was, next, name, maxBackups)
  {
    assert IsLogFile(name, maxBackups, name(i)) && IsLogFile(name, maxBackups, name(j));
    forall p | !IsLogFile(name, maxBackups, p)
      ensures SameFile(was, next, p)
    {
      assert SameFile(was, now, p) && SameFile(now, next, p);
    }
  }

  lemma RenameAges(fs: FileSystem, name: Naming, src: nat, dst: nat)
    requires Injective(name) && src != dst && FileAt(fs, name, dst).None?
    ensures var t := Rename(fs, name(src), name(dst));
      forall a :: FileAt(t, name, a) ==
        (if a == dst then FileAt(fs, name, src) else if a == src then None else FileAt(fs, name, a))
  {
  }

  lemma RemoveAge(fs: FileSystem, name: Naming, age: nat)
    requires Injective(name)
    ensures forall a :: FileAt(Remove(fs, name(age)), name, a) == (if a == age then None else FileAt(fs, name, a))
  {
  }

  lemma StoreCurrent(fs: FileSystem, name: Naming, records: seq<Record>)
    requires Injective(name)
    ensures forall a :: FileAt(fs[name(0) := records], name, a) == (if a == 0 then Some(records) else FileAt(fs, name, a))
  {
    forall a: nat
      ensures FileAt(fs[name(0) := records], name, a) == (if a == 0 then Some(records) else FileAt(fs, name, a))
    {
      assert a != 0 ==> name(a) != name(0);
    }
  }

  const DEFAULT_MAX_SIZE_MB := 100
  const DEFAULT_BACKUPS := 5

  class RotatingWriter {
    const path: Path
    const name: Naming
    const maxBytes: nat
    const maxBackups: nat
    var fs: FileSystem
    var open: bool
    var size: nat
    ghost var slots: Slots

    ghost predicate Valid()
      reads this
    {
      && maxBytes > 0
      && Injective(name) && name(0) == path
      && |slots| == maxBackups + 1 && Layout(fs, name, slots)
      && (open ==> slots[0].Some? && size == Size(slots[0].value))
    }

    constructor (path: Path, maxSizeMB: int, maxBackups: int, fs: FileSystem)
      ensures Valid() && !open && this.fs == fs && this.path == path && name == Names(path)
      ensures this.maxBytes == (if maxSizeMB <= 0 then DEFAULT_MAX_SIZE_MB else maxSizeMB) * 1024 * 1024
      ensures this.maxBackups == if maxBackups < 0 then DEFAULT_BACKUPS else maxBackups
    {
      NamesAreInjective(path);
      var backups: nat := if maxBackups < 0 then DEFAULT_BACKUPS else maxBackups;
      this.path, this.name := path, Names(path);
      this.maxBytes := (if maxSizeMB <= 0 then DEFAULT_MAX_SIZE_MB else maxSizeMB) * 1024 * 1024;
      this.maxBackups := backups;
      this.fs, this.open, this.size := fs, false, 0;
      this.slots := seq(backups + 1, (age: nat) => FileAt(fs, Names(path), age));
    }

    /** Opens the current file for appending, creating it when it is missing. */
    method EnsureOpen()
      requires Valid()
      modifies `fs, `open, `size, `slots
      ensures Valid() && open
      ensures slots == old(slots)[0 := Some(Held(old(slots)[0]))]
      ensures OthersKept(old(fs), fs, name, maxBackups)
    {
      if open {
        return;
      }
      if path !in fs {
        StoreCurrent(fs, name, []);
        assert name(0) == path;
        assert FileAt(fs, name, 0) == slots[0] == None;
        OwnFiles(fs, fs, fs[path := []], name, maxBackups, 0, 0);
        fs := fs[path := []];
        slots := slots[0 := Some([])];
        assert forall a :: 0 < a < |slots| ==> FileAt(fs, name, a) == FileAt(old(fs), name, a);
      }
      assert FileAt(fs, name, 0) == slots[0];
      open := true;
      size := Size(fs[path]);
    }

    /** Drops the oldest backup, renames the others from the oldest down, and the current file last. */
    method Rotate()
      requires Valid() && open
      modifies `fs, `open, `size, `slots
      ensures Valid() && open
      ensures slots == [Some([])] + old(slots)[..maxBackups]
      ensures OthersKept(old(fs), fs, name, maxBackups)
    {
      open, size := false, 0;
      if maxBackups > 0 {
        ShiftBackups();
      } else {
        RemoveAge(fs, name, 0);
        OwnFiles(fs, fs, Remove(fs, path), name, maxBackups, 0, 0);
        fs := Remove(fs, path);
      }
      ghost var shifted := fs;
      StoreCurrent(shifted, name, []);
      assert name(0) == path;
      fs := fs[path := []];
      assert fs == shifted[name(0) := []];
      OwnFiles(old(fs), shifted, fs, name, maxBackups, 0, 0);
      slots := [Some([])] + slots[..maxBackups];
      open := true;
      forall a | 0 <= a < |slots|
        ensures FileAt(fs, name, a) == slots[a]
      {
        if a > 0 {
          assert FileAt(fs, name, a) == FileAt(shifted, name, a);
          assert FileAt(shifted, name, a) == FileAt(old(fs), name, a - 1) == old(slots)[a - 1];
        } else {
          assert FileAt(fs, name, 0) == Some([]);
        }
      }
    }

    /** The file of age i becomes the file of age i + 1; the current one is then missing. */
    method ShiftBackups()
      requires Injective(name) && name(0) == path && maxBackups > 0
      modifies `fs
      ensures FileAt(fs, name, 0).None?
      ensures forall a :: 0 < a <= maxBackups ==> FileAt(fs, name, a) == FileAt(old(fs), name, a - 1)
      ensures OthersKept(old(fs), fs, name, maxBackups)
    {
      RemoveAge(fs, name, maxBackups);
      OwnFiles(fs, fs, Remove(fs, name(maxBackups)), name, maxBackups, maxBackups, maxBackups);
      fs := Remove(fs, name(maxBackups));
      var i := maxBackups - 1;
      while i >= 1
        invariant 0 <= i < maxBackups
        invariant forall a :: 0 <= a <= i ==> FileAt(fs, name, a) == FileAt(old(fs), name, a)
        invariant FileAt(fs, name, i + 1).None?
        invariant forall a :: i + 1 < a <= maxBackups ==> FileAt(fs, name, a) == FileAt(old(fs), name, a - 1)
        invariant OthersKept(old(fs), fs, name, maxBackups)
      {
        RenameAges(fs, name, i, i + 1);
        OwnFiles(old(fs), fs, Rename(fs, name(i), name(i + 1)), name, maxBackups, i, i + 1);
        fs := Rename(fs, name(i), name(i + 1));
        i := i - 1;
      }
      RenameAges(fs, name, 0, 1);
      OwnFiles(old(fs), fs, Rename(fs, path, name(1)), name, maxBackups, 0, 1);
      fs := Rename(fs, path, name(1));
    }

    /** One record goes, whole, to the end of the open file, which is then closed. */
    method Append(record: Record)
      requires Valid() && open
      modifies `fs, `open, `size, `slots
      ensures Valid() && !open
      ensures slots == old(slots)[0 := Some(Held(old(slots)[0]) + [record])]
      ensures OthersKept(old(fs), fs, name, maxBackups)
    {
      assert FileAt(fs, name, 0) == slots[0];
      assert name(0) == path;
      ghost var before := fs;
      StoreCurrent(before, name, before[path] + [record]);
      fs := fs[path := fs[path] + [record]];
      assert fs == before[name(0) := before[path] + [record]];
      OwnFiles(before, before, fs, name, maxBackups, 0, 0);
      slots := slots[0 := Some(slots[0].value + [record])];
      forall a | 0 <= a < |slots|
        ensures FileAt(fs, name, a) == slots[a]
      {
        assert a > 0 ==> FileAt(fs, name, a) == FileAt(before, name, a) == old(slots)[a];
      }
      size := size + |record|;
      open := false;
    }

    /** Appends to the current file, after a rotation if the record would not fit; without a path nothing
        is written. */
    method Write(record: Record) returns (ok: bool)
      requires Valid() && !open
      modifies `fs, `open, `size, `slots
      ensures Valid() && !open && ok == (path != "")
      ensures slots == if ok then WriteSlots(old(slots), record, maxBytes) else old(slots)
      ensures OthersKept(old(fs), fs, name, maxBackups) && (!ok ==> fs == old(fs))
    {
      if path == "" {
        return false;
      }
      EnsureOpen();
      ghost var prepared := fs;
      if size > 0 && size + |record| > maxBytes {
        Rotate();
      }
      OthersKeptTwice(old(fs), prepared, fs, name, maxBackups);
      ghost var ready := fs;
      Append(record);
      OthersKeptTwice(old(fs), ready, fs, name, maxBackups);
      assert Size([]) == 0 && [] + [record] == [record];
      return true;
    }
  }

  lemma OthersKeptTwice(was: FileSystem, now: FileSystem, next: FileSystem, name: Naming, maxBackups: nat)
    requires OthersKept(was, now, name, maxBackups) && OthersKept(now, next, name, maxBackups)
    ensures OthersKept(was, next, name, maxBackups)
  {
    forall p | !IsLogFile(name, maxBackups, p)
      ensures SameFile(was, next, p)
    {
      assert SameFile(was, now, p) && SameFile(now, next, p);
    }
  }

  // ---------------------------------------------------------------- rotated names

  lemma {:induction false} StemStops(path: Path, i: nat, j: nat)
    requires j <= i <= |path|
    requires forall k :: j <= k < i ==> path[k] !in {'.', '/'}
    ensures StemLength(path, i) == StemLength(path, j)
    decreases i
  {
    if j < i {
      StemStops(path, i - 1, j);
    }
  }

  /** The number goes before the extension, if the last part of the path has one, and else to the end. */
  lemma RotatedIs(stem: Path, rest: string, index: nat)
    requires '.' !in rest && '/' !in rest
    ensures RotatedPath(stem + "." + rest, index) == stem + "." + Itoa(index) + ("." + rest)
    ensures stem == "" || stem[|stem| - 1] == '/' ==> RotatedPath(stem + rest, index) == stem + rest + "." + Itoa(index)
  {
    var path := stem + "." + rest;
    StemStops(path, |path|, |stem| + 1);
    assert path[|stem|] == '.' && path[..|stem|] == stem && path[|stem|..] == "." + rest;
    var plain := stem + rest;
    StemStops(plain, |plain|, |stem|);
    assert plain[|plain|..] == "" && plain[..|plain|] == plain;
  }
}
