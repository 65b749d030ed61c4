/** The string operations of Go's `strings` and `strconv` packages that the modelled code calls,
    with the facts about them that the other modules need. */
module Text {

  datatype Option<+T> = None | Some(value: T)

  datatype Result<+T> = Ok(value: T) | Err(message: string)

  // ---------------------------------------------------------------- white space

  /** The characters `unicode.IsSpace` accepts. */
  predicate IsSpace(c: char) {
    || c == ' '
    || '\t' <= c <= '\r'
    || c in {'\U{85}', '\U{A0}', '\U{1680}', '\U{2028}', '\U{2029}', '\U{202F}', '\U{205F}', '\U{3000}'}
    || '\U{2000}' <= c <= '\U{200A}'
  }

  /** No white space at either end. */
  predicate Trimmed(s: string) {
    s != [] ==> !IsSpace(s[0]) && !IsSpace(s[|s| - 1])
  }

  function TrimStart(s: string): (t: string)
    ensures t == [] || !IsSpace(t[0])
    ensures |t| <= |s| && t == s[|s| - |t|..]
  {
    if s != [] && IsSpace(s[0]) then TrimStart(s[1..]) else s
  }

  function TrimEnd(s: string): (t: string)
    ensures t == [] || !IsSpace(t[|t| - 1])
    ensures t <= s
  {
    if s != [] && IsSpace(s[|s| - 1]) then TrimEnd(s[..|s| - 1]) else s
  }

  /** `strings.TrimSpace`. */
  function Trim(s: string): (t: string)
    ensures Trimmed(t)
    ensures Trimmed(s) ==> t == s
  {
    TrimEnd(TrimStart(s))
  }

  lemma TrimSubset(s: string)
    ensures forall c :: c in Trim(s) ==> c in s
  {
  }

  function LowerChar(c: char): char {
    if 'A' <= c <= 'Z' then (c as int + 32) as char else c
  }

  /** `strings.ToLower` on ASCII. */
  function Lower(s: string): (t: string)
    ensures |t| == |s|
  {
    seq(|s|, i requires 0 <= i < |s| => LowerChar(s[i]))
  }

  // ---------------------------------------------------------------- searching and splitting

  /** The index of the first `c`, or the length when there is none. */
  function IndexOf(s: string, c: char): (i: nat)
    ensures i <= |s| && c !in s[..i]
    ensures i < |s| ==> s[i] == c
  {
    if s == [] || s[0] == c then 0 else 1 + IndexOf(s[1..], c)
  }

  lemma IndexOfIsFirst(s: string, c: char, i: nat)
    requires i < |s| && s[i] == c && c !in s[..i]
    ensures IndexOf(s, c) == i
  {
    var j := IndexOf(s, c);
    assert forall k :: 0 <= k < i ==> s[k] == s[..i][k] != c;
    assert forall k :: 0 <= k < j ==> s[k] == s[..j][k] != c;
  }

  lemma {:induction false} IndexOfAbsent(s: string, c: char)
    requires c !in s
    ensures IndexOf(s, c) == |s|
  {
    if s != [] {
      assert s[0] in s;
      IndexOfAbsent(s[1..], c);
    }
  }

  /** `strings.Split` on one character. */
  function Split(s: string, c: char): (parts: seq<string>)
    ensures |parts| >= 1
    decreases |s|
  {
    var i := IndexOf(s, c);
    if i == |s| then [s] else [s[..i]] + Split(s[i + 1..], c)
  }

  function Join(parts: seq<string>, c: char): string {
    if parts == [] then []
    else if |parts| == 1 then parts[0]
    else parts[0] + [c] + Join(parts[1..], c)
  }

  /** Splitting what was joined gives the parts back, when no part contains the separator. */
  lemma {:induction false} SplitJoin(parts: seq<string>, c: char)
    requires parts != [] && forall p :: p in parts ==> c !in p
    ensures Split(Join(parts, c), c) == parts
    decreases |parts|
  {
    var s := Join(parts, c);
    if |parts| == 1 {
      IndexOfAbsent(s, c);
    } else {
      var head, rest := parts[0], Join(parts[1..], c);
      assert s[|head|] == c && s[..|head|] == head && s[|head| + 1..] == rest;
      IndexOfIsFirst(s, c, |head|);
      SplitJoin(parts[1..], c);
    }
  }

  /** Length of the leading run of non-space characters. */
  function WordLength(s: string): (n: nat)
    ensures n <= |s|
    ensures forall i :: 0 <= i < n ==> !IsSpace(s[i])
    ensures n < |s| ==> IsSpace(s[n])
  {
    if s == [] || IsSpace(s[0]) then 0 else 1 + WordLength(s[1..])
  }

  /** `strings.Fields`: the maximal runs of non-space characters. */
  function Fields(s: string): seq<string>
    decreases |s|
  {
    var t := TrimStart(s);
    if t == [] then [] else [t[..WordLength(t)]] + Fields(t[WordLength(t)..])
  }

  predicate IsWord(s: string) {
    s != [] && forall c :: c in s ==> !IsSpace(c)
  }

  lemma {:induction false} WordLengthIs(s: string, n: nat)
    requires n <= |s| && (n < |s| ==> IsSpace(s[n]))
    requires forall i :: 0 <= i < n ==> !IsSpace(s[i])
    ensures WordLength(s) == n
  {
    if n > 0 {
      WordLengthIs(s[1..], n - 1);
    }
  }

  lemma FieldsOfWordThen(w: string, rest: string)
    requires IsWord(w) && (rest != [] ==> IsSpace(rest[0]))
    ensures Fields(w + rest) == [w] + Fields(rest)
  {
    var s := w + rest;
    assert forall i :: 0 <= i < |w| ==> s[i] == w[i] && w[i] in w;
    WordLengthIs(s, |w|);
    assert s[..|w|] == w && s[|w|..] == rest;
  }

  lemma FieldsAfterSpace(rest: string)
    ensures Fields([' '] + rest) == Fields(rest)
  {
    assert ([' '] + rest)[1..] == rest;
  }

  lemma {:induction false} FieldsJoin(words: seq<string>)
    requires forall w :: w in words ==> IsWord(w)
    ensures Fields(Join(words, ' ')) == words
    decreases |words|
  {
    if words != [] {
      var w, more := words[0], words[1..];
      var rest := if more == [] then [] else [' '] + Join(more, ' ');
      assert Join(words, ' ') == w + rest;
      FieldsOfWordThen(w, rest);
      FieldsJoin(more);
      if more != [] {
        FieldsAfterSpace(Join(more, ' '));
      }
      assert words == [w] + more;
    }
  }

  // ---------------------------------------------------------------- decimal numbers

  predicate IsDigit(c: char) { '0' <= c <= '9' }

  predicate AllDigits(s: string) {
    s != [] && forall c :: c in s ==> IsDigit(c)
  }

  function DigitValue(c: char): nat
    requires IsDigit(c)
  {
    c as int - '0' as int
  }

  /** `strconv.Itoa` of a natural number. */
  function Itoa(n: nat): (s: string)
    ensures AllDigits(s)
  {
    if n < 10 then [(n + '0' as int) as char] else Itoa(n / 10) + Itoa(n % 10)
  }

  /** The number a digit string denotes. */
  function DecimalValue(s: string): nat
    requires forall c :: c in s ==> IsDigit(c)
  {
    if s == [] then 0 else 10 * DecimalValue(s[..|s| - 1]) + DigitValue(s[|s| - 1])
  }

  lemma {:induction false} ItoaValue(n: nat)
    ensures DecimalValue(Itoa(n)) == n
  {
    var s := Itoa(n);
    if n >= 10 {
      ItoaValue(n / 10);
      assert s[..|s| - 1] == Itoa(n / 10);
    } else {
      assert s[..|s| - 1] == [];
    }
  }

  lemma ItoaInjective(m: nat, n: nat)
    requires Itoa(m) == Itoa(n)
    ensures m == n
  {
    ItoaValue(m);
    ItoaValue(n);
  }

  const MAX_INT := 0x7FFF_FFFF_FFFF_FFFF
  const MIN_INT := -MAX_INT - 1

  /** `strconv.Atoi` on a 64-bit platform: an optional sign, digits, and a range check. */
  function Atoi(s: string): (r: Option<int>)
    ensures r.Some? ==> MIN_INT <= r.value <= MAX_INT
  {
    var signed := s != [] && s[0] in {'+', '-'};
    var digits := if signed then s[1..] else s;
    if !AllDigits(digits) then None
    else
      var v := if signed && s[0] == '-' then -(DecimalValue(digits) as int) else DecimalValue(digits);
      if MIN_INT <= v <= MAX_INT then Some(v) else None
  }

  lemma AtoiItoa(n: nat)
    requires n <= MAX_INT
    ensures Atoi(Itoa(n)) == Some(n)
  {
    ItoaValue(n);
    assert Itoa(n)[0] in Itoa(n);
  }
}
