/** Writing a SKILL.md file (agent_server/internal/skilltools/tools.go) and reading it back
    (agent_server/internal/skills/frontmatter.go). */
module SkillMarkdown {
  import opened Text

  // ---------------------------------------------------------------- writing

  predicate IsNameChar(c: char) {
    'a' <= c <= 'z' || 'A' <= c <= 'Z' || IsDigit(c) || c in {'-', '_', '.'}
  }

  predicate HasDoubleDot(s: string) {
    exists i :: 0 <= i < |s| - 1 && s[i] == '.' && s[i + 1] == '.'
  }

  /** The trimmed name, if it is safe as a directory name. */
  function SafeSkillDirName(name: string): (r: Result<string>)
    ensures r.Ok? ==> IsName(r.value) && r.value == Trim(name) && !HasDoubleDot(r.value) && r.value != "."
  {
    var trimmed := Trim(name);
    if trimmed in {"", ".", ".."} then Err("invalid skill name")
    else if exists c :: c in trimmed && !IsNameChar(c) then Err("unsupported characters")
    else if HasDoubleDot(trimmed) then Err("path traversal")
    else Ok(trimmed)
  }

  predicate IsName(s: string) {
    s != "" && forall c :: c in s ==> IsNameChar(c)
  }

  /** `strings.ReplaceAll` of one character. */
  function Replace(s: string, c: char, with: string): string {
    if s == [] then [] else (if s[0] == c then with else [s[0]]) + Replace(s[1..], c, with)
  }

  function Escape(s: string): string {
    Replace(Replace(Replace(s, '\\', "\\\\"), '"', "\\\""), '\n', "\\n")
  }

  function Quote(escaped: string): string {
    ['"'] + escaped + ['"']
  }

  function YamlQuote(s: string): string {
    Quote(Escape(s))
  }

  /** `strings.TrimLeft(body, "\r\n")`. */
  function TrimBreaks(s: string): (t: string)
    ensures t == [] || t[0] !in {'\r', '\n'}
  {
    if s != [] && s[0] in {'\r', '\n'} then TrimBreaks(s[1..]) else s
  }

  const OPEN := "---\n"
  const CLOSE := "\n---\n"
  const NAME := "name"
  const DESCRIPTION := "description"

  function Line(key: string, quoted: string): string {
    key + ": " + quoted
  }

  function Header(name: string, description: string): string {
    Line(NAME, name) + "\n" + Line(DESCRIPTION, description)
  }

  /** The file with this header and this body. */
  function File(header: string, body: string): string {
    OPEN + header + CLOSE + ("\n" + body)
  }

  function SkillMarkdown(name: string, description: string, body: string): string {
    File(Header(YamlQuote(name), YamlQuote(description)), TrimBreaks(body) + "\n")
  }

  // ---------------------------------------------------------------- reading

  datatype Manifest = Manifest(name: string, description: string, body: string)

  function CrLfToLf(s: string): string {
    if s == [] then []
    else if |s| >= 2 && s[0] == '\r' && s[1] == '\n' then ['\n'] + CrLfToLf(s[2..])
    else [s[0]] + CrLfToLf(s[1..])
  }

  /** All three kinds of line break become "\n". */
  function Unix(s: string): string {
    Replace(CrLfToLf(s), '\r', "\n")
  }

  function StripBom(s: string): string {
    if s != [] && s[0] == '\U{FEFF}' then s[1..] else s
  }

  predicate At(s: string, i: nat, sub: string) {
    i + |sub| <= |s| && s[i..i + |sub|] == sub
  }

  /** `strings.Index`, from position `i` on. */
  function Find(s: string, sub: string, i: nat): (r: Option<nat>)
    ensures r.Some? ==> i <= r.value && At(s, r.value, sub) && forall j :: i <= j < r.value ==> !At(s, j, sub)
    ensures r.None? ==> forall j :: i <= j ==> !At(s, j, sub)
    decreases |s| - i
  {
    if i + |sub| > |s| then None else if At(s, i, sub) then Some(i) else Find(s, sub, i + 1)
  }

  /** Where the header ends: at the first closing line, which may also be the last line of the file. */
  function HeaderEnd(rest: string): (r: Option<nat>)
    ensures r.Some? ==> r.value + |CLOSE| - 1 <= |rest|
  {
    match Find(rest, CLOSE, 0)
    case Some(i) => Some(i)
    case None =>
      var last := CLOSE[..|CLOSE| - 1];
      if |rest| >= |last| && rest[|rest| - |last|..] == last then Some(|rest| - |last|) else None
  }

  function SkipBreak(s: string): string {
    if s != [] && s[0] == '\n' then s[1..] else s
  }

  function Unquote(value: string): string {
    if |value| >= 2 && value[0] == value[|value| - 1] && value[0] in {'"', '\''} then value[1..|value| - 1] else value
  }

  type Values = map<string, string>

  function YamlLineWith(trim: string -> string, values: Values, raw: string): Result<Values> {
    var line := trim(raw);
    if line == "" || line[0] == '#' then Ok(values)
    else
      var colon := IndexOf(line, ':');
      var key := trim(line[..colon]);
      if colon == |line| || key == "" then Err("invalid frontmatter line")
      else Ok(values[key := Unquote(trim(line[colon + 1..]))])
  }

  function YamlLine(values: Values, raw: string): Result<Values> {
    YamlLineWith(Trim, values, raw)
  }

  /** Every line adds to the values before it, up to the first bad one. */
  function Fold(step: (Values, string) -> Result<Values>, lines: seq<string>): Result<Values> {
    if lines == [] then Ok(map[])
    else
      match Fold(step, lines[..|lines| - 1])
      case Err(message) => Err(message)
      case Ok(values) => step(values, lines[|lines| - 1])
  }

  lemma {:induction false} FoldErrorSticks(step: (Values, string) -> Result<Values>, lines: seq<string>, i: nat)
    requires i <= |lines| && Fold(step, lines[..i]).Err?
    ensures Fold(step, lines) == Fold(step, lines[..i])
    decreases |lines| - i
  {
    if i < |lines| {
      assert lines[..i + 1][..i] == lines[..i];
      FoldErrorSticks(step, lines, i + 1);
    } else {
      assert lines[..i] == lines;
    }
  }

  function SimpleYAML(header: string): Result<Values> {
    Fold(YamlLine, Split(header, '\n'))
  }

  /** One line of the header into the values; false for a line without a key.  `trim` is `Trim`. */
  method ParseLine(trim: string -> string, values: Values, raw: string) returns (ok: bool, more: Values)
    ensures YamlLineWith(trim, values, raw) == if ok then Ok(more) else Err("invalid frontmatter line")
  {
    var line := trim(raw);
    if line == "" || line[0] == '#' {
      return true, values;
    }
    var colon := IndexOf(line, ':');
    if colon == |line| {
      return false, values;
    }
    var key := trim(line[..colon]);
    if key == "" {
      return false, values;
    }
    return true, values[key := Unquote(trim(line[colon + 1..]))];
  }

  method ParseSimpleYAML(header: string) returns (r: Result<Values>)
    ensures r == SimpleYAML(header)
  {
    r := ParseLines(YamlLine, Split(header, '\n'));
  }

  /** The loop over the lines stops at the first bad one. */
  method ParseLines(ghost step: (Values, string) -> Result<Values>, lines: seq<string>) returns (r: Result<Values>)
    requires step == YamlLine
    ensures r == Fold(step, lines)
  {
    var values: Values := map[];
    for i := 0 to |lines|
      invariant Fold(step, lines[..i]) == Ok(values)
    {
      assert lines[..i + 1][..i] == lines[..i];
      var ok, more := ParseLine(Trim, values, lines[i]);
      if !ok {
        FoldErrorSticks(step, lines, i + 1);
        return Err("invalid frontmatter line");
      }
      values := more;
    }
    assert lines[..|lines|] == lines;
    return Ok(values);
  }

  function Value(values: Values, key: string): string {
    if key in values then Trim(values[key]) else ""
  }

  function ManifestOf(values: Values, body: string): Result<Manifest> {
    if Value(values, NAME) == "" then Err("SKILL.md frontmatter missing name")
    else if Value(values, DESCRIPTION) == "" then Err("SKILL.md frontmatter missing description")
    else Ok(Manifest(Value(values, NAME), Value(values, DESCRIPTION), body))
  }

  function ParseWith(headerEnd: string -> Option<nat>, yaml: string -> Result<Values>, text: string): Result<Manifest>
    requires forall rest :: headerEnd(rest).Some? ==> headerEnd(rest).value + |CLOSE| - 1 <= |rest|
  {
    if |text| < |OPEN| || text[..|OPEN|] != OPEN then Err("SKILL.md missing YAML frontmatter")
    else
      var rest := text[|OPEN|..];
      match headerEnd(rest)
      case None => Err("SKILL.md missing closing frontmatter delimiter")
      case Some(end) =>
        match yaml(rest[..end])
        case Err(message) => Err(message)
        case Ok(values) => ManifestOf(values, SkipBreak(SkipBreak(rest[end + |CLOSE| - 1..])))
  }

  function ParseSkillMarkdown(data: string): Result<Manifest> {
    ParseWith(HeaderEnd, SimpleYAML, Unix(StripBom(data)))
  }

  // ---------------------------------------------------------------- line breaks

  lemma {:induction false} ReplaceConcat(a: string, b: string, c: char, with: string)
    ensures Replace(a + b, c, with) == Replace(a, c, with) + Replace(b, c, with)
  {
    if a == [] {
      assert a + b == b;
    } else {
      assert (a + b)[1..] == a[1..] + b;
      ReplaceConcat(a[1..], b, c, with);
    }
  }

  lemma {:induction false} ReplaceNothing(s: string, c: char, with: string)
    requires c !in s
    ensures Replace(s, c, with) == s
  {
    if s != [] {
      assert s[0] in s;
      ReplaceNothing(s[1..], c, with);
    }
  }

  lemma {:induction false} ReplaceRemoves(s: string, c: char, with: string)
    requires c !in with
    ensures c !in Replace(s, c, with)
  {
    if s != [] {
      ReplaceRemoves(s[1..], c, with);
    }
  }

  lemma {:induction false} ReplaceLength(s: string, c: char, with: string)
    requires |with| >= 1
    ensures |Replace(s, c, with)| >= |s|
    ensures |with| >= 2 && c in s ==> |Replace(s, c, with)| > |s|
  {
    if s != [] {
      ReplaceLength(s[1..], c, with);
    }
  }

  lemma {:induction false} CrLfAfter(a: string, b: string)
    requires '\r' !in a
    ensures CrLfToLf(a + b) == a + CrLfToLf(b)
  {
    if a == [] {
      assert a + b == b;
    } else {
      assert a[0] in a && (a + b)[1..] == a[1..] + b;
      CrLfAfter(a[1..], b);
    }
  }

  /** Normalising line breaks leaves a prefix without carriage returns alone. */
  lemma UnixAfter(a: string, b: string)
    requires '\r' !in a
    ensures Unix(a + b) == a + Unix(b)
  {
    CrLfAfter(a, b);
    ReplaceConcat(a, CrLfToLf(b), '\r', "\n");
    ReplaceNothing(a, '\r', "\n");
  }

  lemma UnixIsIdentityIff(s: string)
    ensures Unix(s) == s <==> '\r' !in s
    ensures '\r' !in Unix(s)
  {
    ReplaceRemoves(CrLfToLf(s), '\r', "\n");
    if '\r' !in s {
      UnixAfter(s, "");
      assert s + "" == s;
    }
  }

  // ---------------------------------------------------------------- escaping

  lemma {:induction false} ReplaceOnlyAdds(s: string, c: char, with: string)
    ensures forall d :: d in Replace(s, c, with) ==> d in s || d in with
  {
    if s != [] {
      ReplaceOnlyAdds(s[1..], c, with);
    }
  }

  lemma {:induction false} ReplaceTrimmed(s: string, c: char, with: string)
    requires Trimmed(s) && with != "" && Trimmed(with)
    ensures Trimmed(Replace(s, c, with))
  {
    if s != [] {
      var init, last := s[..|s| - 1], s[|s| - 1];
      assert s == init + [last];
      ReplaceConcat(init, [last], c, with);
      assert [last][1..] == [] && Replace([last], c, with) == (if last == c then with else [last]) + [];
    }
  }

  predicate NoBreaks(s: string) {
    '\r' !in s && '\n' !in s
  }

  lemma EscapeHasNoBreaks(s: string)
    requires '\r' !in s
    ensures NoBreaks(Escape(s))
  {
    var one := Replace(s, '\\', "\\\\");
    var two := Replace(one, '"', "\\\"");
    ReplaceOnlyAdds(s, '\\', "\\\\");
    ReplaceOnlyAdds(one, '"', "\\\"");
    ReplaceOnlyAdds(two, '\n', "\\n");
    ReplaceRemoves(two, '\n', "\\n");
  }

  /** The descriptions that survive a write and a read: the reader does not undo the escaping. */
  predicate IsPlain(s: string) {
    s != "" && Trimmed(s) && '\\' !in s && '"' !in s && NoBreaks(s)
  }

  lemma EscapeIsIdentityIff(s: string)
    ensures Escape(s) == s <==> '\\' !in s && '"' !in s && '\n' !in s
  {
    var one := Replace(s, '\\', "\\\\");
    var two := Replace(one, '"', "\\\"");
    ReplaceLength(s, '\\', "\\\\");
    ReplaceLength(one, '"', "\\\"");
    ReplaceLength(two, '\n', "\\n");
    if '\\' !in s {
      ReplaceNothing(s, '\\', "\\\\");
      if '"' !in s {
        ReplaceNothing(s, '"', "\\\"");
        if '\n' !in s {
          ReplaceNothing(s, '\n', "\\n");
        }
      }
    }
  }

  lemma TrimmedEscapeIff(s: string)
    requires s != "" && '\r' !in s
    ensures Trim(Escape(s)) == s <==> IsPlain(s)
  {
    EscapeIsIdentityIff(s);
    if Trimmed(s) {
      var one := Replace(s, '\\', "\\\\");
      ReplaceTrimmed(s, '\\', "\\\\");
      ReplaceTrimmed(one, '"', "\\\"");
      ReplaceTrimmed(Replace(one, '"', "\\\""), '\n', "\\n");
    }
  }

  // ---------------------------------------------------------------- the header

  lemma TrimSpaced(text: string)
    requires IsWordLike(text)
    ensures Trim(text) == text && Trim([' '] + text) == text
  {
    assert ([' '] + text)[1..] == text;
    assert TrimStart([' '] + text) == TrimStart(text) == text;
  }

  /** Non-empty, without white space at either end. */
  predicate IsWordLike(text: string) {
    text != "" && Trimmed(text)
  }

  lemma UnquoteQuoted(escaped: string)
    ensures IsWordLike(Quote(escaped)) && Unquote(Quote(escaped)) == escaped
  {
  }

  lemma SplitAtColon(key: string, rest: string)
    requires ':' !in key
    ensures IndexOf(key + [':'] + rest, ':') == |key|
    ensures (key + [':'] + rest)[..|key|] == key && (key + [':'] + rest)[|key| + 1..] == rest
  {
    var line := key + [':'] + rest;
    assert line[..|key|] == key;
    IndexOfIsFirst(line, ':', |key|);
  }

  lemma KeyedLine(trim: string -> string, values: Values, key: string, quoted: string)
    requires key != "" && key[0] != '#' && ':' !in key
    requires trim(key) == key && trim([' '] + quoted) == quoted
    requires trim(key + [':'] + ([' '] + quoted)) == key + [':'] + ([' '] + quoted)
    ensures YamlLineWith(trim, values, key + [':'] + ([' '] + quoted)) == Ok(values[key := Unquote(quoted)])
  {
    SplitAtColon(key, [' '] + quoted);
  }

  lemma LineIsTrimmed(key: string, quoted: string)
    requires IsWordLike(key) && IsWordLike(quoted)
    ensures IsWordLike(key + [':'] + ([' '] + quoted))
  {
    var line := key + [':'] + ([' '] + quoted);
    assert line[0] == key[0] && line[|line| - 1] == quoted[|quoted| - 1];
  }

  lemma QuotedLine(values: Values, key: string, quoted: string)
    requires IsWordLike(key) && ':' !in key && key[0] != '#' && IsWordLike(quoted)
    ensures YamlLine(values, key + [':'] + ([' '] + quoted)) == Ok(values[key := Unquote(quoted)])
  {
    LineIsTrimmed(key, quoted);
    assert Trim(key) == key && Trim([' '] + quoted) == quoted by {
      TrimSpaced(key);
      TrimSpaced(quoted);
    }
    KeyedLine(Trim, values, key, quoted);
  }

  lemma YamlLineOf(values: Values, key: string, escaped: string)
    requires IsWordLike(key) && ':' !in key && key[0] != '#'
    ensures YamlLine(values, Line(key, Quote(escaped))) == Ok(values[key := escaped])
  {
    UnquoteQuoted(escaped);
    QuotedLine(values, key, Quote(escaped));
    assert Line(key, Quote(escaped)) == key + [':'] + ([' '] + Quote(escaped));
  }

  lemma FoldTwo(step: (Values, string) -> Result<Values>, one: string, two: string, first: Values, both: Values)
    requires step(map[], one) == Ok(first) && step(first, two) == Ok(both)
    ensures Fold(step, [one, two]) == Ok(both)
  {
    assert [one, two][..1] == [one] && [one][..0] == [];
    assert Fold(step, [one]) == Ok(first);
  }

  lemma SplitTwo(one: string, two: string)
    requires '\n' !in one && '\n' !in two
    ensures Split(one + "\n" + two, '\n') == [one, two]
  {
    assert [one, two][1..] == [two];
    SplitJoin([one, two], '\n');
  }

  lemma TwoLines(one: string, two: string, first: Values, both: Values)
    requires '\n' !in one && '\n' !in two
    requires YamlLine(map[], one) == Ok(first) && YamlLine(first, two) == Ok(both)
    ensures SimpleYAML(one + "\n" + two) == Ok(both)
  {
    SplitTwo(one, two);
    FoldTwo(YamlLine, one, two, first, both);
  }

  predicate IsKey(key: string) {
    IsWordLike(key) && ':' !in key && key[0] != '#' && NoBreaks(key)
  }

  lemma TwoKeys(one: string, two: string, name: string, description: string)
    requires IsKey(one) && IsKey(two) && NoBreaks(name) && NoBreaks(description)
    ensures SimpleYAML(Line(one, Quote(name)) + "\n" + Line(two, Quote(description))) ==
            Ok(map[one := name][two := description])
  {
    var first := map[one := name];
    YamlLineOf(map[], one, name);
    YamlLineOf(first, two, description);
    TwoLines(Line(one, Quote(name)), Line(two, Quote(description)), first, first[two := description]);
  }

  lemma HeaderReadsBack(name: string, description: string)
    requires NoBreaks(name) && NoBreaks(description)
    ensures SimpleYAML(Header(Quote(name), Quote(description))) == Ok(map[NAME := name][DESCRIPTION := description])
  {
    TwoKeys(NAME, DESCRIPTION, name, description);
  }

  lemma FindIs(s: string, sub: string, i: nat)
    requires At(s, i, sub) && forall j :: 0 <= j < i ==> !At(s, j, sub)
    ensures Find(s, sub, 0) == Some(i)
  {
    var r := Find(s, sub, 0);
  }

  lemma HeaderEndsThere(name: string, description: string, after: string)
    requires NoBreaks(name) && NoBreaks(description)
    ensures HeaderEnd(Header(name, description) + CLOSE + after) == Some(|Header(name, description)|)
  {
    var header := Header(name, description);
    var rest := header + CLOSE + after;
    assert rest[|header|..|header| + |CLOSE|] == CLOSE;
    forall j | 0 <= j < |header|
      ensures !At(rest, j, CLOSE)
    {
      OnlyBreak(Line(NAME, name), Line(DESCRIPTION, description), j);
      NotAt(rest, j, CLOSE);
    }
    FindIs(rest, CLOSE, |header|);
  }

  lemma OnlyBreak(one: string, two: string, j: nat)
    requires NoBreaks(one) && NoBreaks(two) && j < |one + "\n" + two|
    ensures (one + "\n" + two)[j] == '\n' ==> j == |one|
  {
    assert forall i :: 0 <= i < |one| ==> one[i] in one;
    assert forall i :: 0 <= i < |two| ==> two[i] in two;
  }

  lemma NotAt(s: string, i: nat, sub: string)
    requires |sub| >= 2 && i + 1 < |s| && (s[i] != sub[0] || s[i + 1] != sub[1])
    ensures !At(s, i, sub)
  {
    assert i + |sub| <= |s| ==> s[i..i + |sub|][0] == s[i] && s[i..i + |sub|][1] == s[i + 1];
  }

  // ---------------------------------------------------------------- round trip

  function ReadBack(name: string, description: string, body: string): Result<Manifest> {
    if Trim(description) == "" then Err("SKILL.md frontmatter missing description")
    else Ok(Manifest(name, Trim(description), body))
  }

  lemma NameIsPlain(name: string)
    requires IsName(name)
    ensures IsPlain(name) && Escape(name) == name && Trim(name) == name
  {
    EscapeIsIdentityIff(name);
    assert name[0] in name && name[|name| - 1] in name;
  }

  lemma Slices(open: string, header: string, close: string, body: string)
    requires close != ""
    ensures var text, rest := open + header + close + body, header + close + body;
            && |text| >= |open| && text[..|open|] == open && text[|open|..] == rest
            && rest[..|header|] == header
            && rest[|header| + |close| - 1..] == [close[|close| - 1]] + body
  {
    assert open + header + close + body == open + (header + close + body);
  }

  lemma ParsedText(headerEnd: string -> Option<nat>, yaml: string -> Result<Values>, header: string, values: Values, body: string)
    requires forall rest :: headerEnd(rest).Some? ==> headerEnd(rest).value + |CLOSE| - 1 <= |rest|
    requires headerEnd(header + CLOSE + ("\n" + body)) == Some(|header|) && yaml(header) == Ok(values)
    ensures ParseWith(headerEnd, yaml, File(header, body)) == ManifestOf(values, body)
  {
    Slices(OPEN, header, CLOSE, "\n" + body);
    TwoBreaks(body);
  }

  lemma TwoBreaks(body: string)
    ensures SkipBreak(SkipBreak(['\n'] + ("\n" + body))) == body
  {
    assert (['\n'] + ("\n" + body))[1..] == "\n" + body && ("\n" + body)[1..] == body;
  }

  lemma FileIsUnix(header: string, body: string)
    requires '\r' !in header
    ensures Unix(StripBom(File(header, body))) == File(header, Unix(body))
  {
    var before := OPEN + header + CLOSE + "\n";
    assert File(header, body) == before + body && before[0] == '-';
    assert before + Unix(body) == File(header, Unix(body));
    UnixAfter(before, body);
  }

  lemma FileIsRead(name: string, description: string, body: string)
    requires NoBreaks(name) && NoBreaks(description) && IsWordLike(name)
    ensures ParseSkillMarkdown(File(Header(Quote(name), Quote(description)), body)) ==
            ManifestOf(map[NAME := name][DESCRIPTION := description], Unix(body))
  {
    var header := Header(Quote(name), Quote(description));
    FileIsUnix(header, body);
    HeaderEndsThere(Quote(name), Quote(description), "\n" + Unix(body));
    HeaderReadsBack(name, description);
    ParsedText(HeaderEnd, SimpleYAML, header, map[NAME := name][DESCRIPTION := description], Unix(body));
  }

  lemma ManifestOfTwo(name: string, description: string, body: string)
    requires IsWordLike(name)
    ensures ManifestOf(map[NAME := name][DESCRIPTION := description], body) == ReadBack(name, description, body)
  {
    assert NAME[0] == 'n' && DESCRIPTION[0] == 'd';
  }

  /** What reading a written file gives, for a description without carriage returns: the escaped
      description, which the reader does not unescape. */
  lemma WrittenIsReadBack(name: string, description: string, body: string)
    requires IsName(name) && '\r' !in description
    ensures ParseSkillMarkdown(SkillMarkdown(name, description, body)) ==
            ReadBack(name, Escape(description), Unix(TrimBreaks(body) + "\n"))
  {
    NameIsPlain(name);
    EscapeHasNoBreaks(description);
    FileIsRead(name, Escape(description), TrimBreaks(body) + "\n");
    ManifestOfTwo(name, Escape(description), Unix(TrimBreaks(body) + "\n"));
  }

  // ---------------------------------------------------------------- what can be read at all

  predicate CharsFrom(t: string, s: string) {
    forall c :: c in t ==> c in s
  }

  lemma {:induction false} SplitParts(s: string, c: char)
    ensures forall p :: p in Split(s, c) ==> c !in p && CharsFrom(p, s)
    decreases |s|
  {
    var i := IndexOf(s, c);
    if i == |s| {
      assert s[..i] == s;
    } else {
      SplitParts(s[i + 1..], c);
      assert CharsFrom(s[..i], s) && CharsFrom(s[i + 1..], s);
    }
  }

  ghost predicate ValuesHaveNoBreaks(values: Values) {
    forall k :: k in values ==> NoBreaks(values[k])
  }

  ghost predicate OnlyTrims(trim: string -> string) {
    forall s :: CharsFrom(trim(s), s)
  }

  lemma YamlLineWithKeepsOut(trim: string -> string, values: Values, raw: string)
    requires OnlyTrims(trim) && ValuesHaveNoBreaks(values) && NoBreaks(raw)
    ensures YamlLineWith(trim, values, raw).Ok? ==> ValuesHaveNoBreaks(YamlLineWith(trim, values, raw).value)
  {
    var line := trim(raw);
    assert CharsFrom(line, raw);
    var colon := IndexOf(line, ':');
    if colon < |line| {
      var rest := line[colon + 1..];
      assert CharsFrom(rest, line) && CharsFrom(trim(rest), rest) && CharsFrom(Unquote(trim(rest)), trim(rest));
      assert NoBreaks(Unquote(trim(rest)));
    }
  }

  lemma YamlLineKeepsOut(values: Values, raw: string)
    requires ValuesHaveNoBreaks(values) && NoBreaks(raw)
    ensures YamlLine(values, raw).Ok? ==> ValuesHaveNoBreaks(YamlLine(values, raw).value)
  {
    forall s
      ensures CharsFrom(Trim(s), s)
    {
      TrimSubset(s);
    }
    YamlLineWithKeepsOut(Trim, values, raw);
  }

  lemma {:induction false} FoldKeepsOut(lines: seq<string>)
    requires forall i :: 0 <= i < |lines| ==> NoBreaks(lines[i])
    ensures Fold(YamlLine, lines).Ok? ==> ValuesHaveNoBreaks(Fold(YamlLine, lines).value)
  {
    if lines != [] {
      var n := |lines| - 1;
      FoldKeepsOut(lines[..n]);
      if Fold(YamlLine, lines[..n]).Ok? {
        YamlLineKeepsOut(Fold(YamlLine, lines[..n]).value, lines[n]);
      }
    }
  }

  lemma SimpleYamlKeepsOut(header: string)
    requires '\r' !in header
    ensures SimpleYAML(header).Ok? ==> ValuesHaveNoBreaks(SimpleYAML(header).value)
  {
    SplitParts(header, '\n');
    var lines := Split(header, '\n');
    forall i | 0 <= i < |lines|
      ensures NoBreaks(lines[i])
    {
      assert lines[i] in lines && CharsFrom(lines[i], header);
    }
    FoldKeepsOut(lines);
  }

  lemma ManifestKeepsOut(values: Values, body: string)
    requires ValuesHaveNoBreaks(values)
    ensures var r := ManifestOf(values, body);
            r.Ok? ==> IsWordLike(r.value.description) && NoBreaks(r.value.description)
  {
    if DESCRIPTION in values {
      TrimSubset(values[DESCRIPTION]);
    }
  }

  /** No file reads back with a description that has a line break or white space at an end. */
  lemma ReadDescriptions(data: string)
    ensures var r := ParseSkillMarkdown(data);
            r.Ok? ==> IsWordLike(r.value.description) && NoBreaks(r.value.description)
  {
    var text := Unix(StripBom(data));
    UnixIsIdentityIff(StripBom(data));
    if |text| >= |OPEN| {
      var rest := text[|OPEN|..];
      var end := HeaderEnd(rest);
      if end.Some? {
        var header := rest[..end.value];
        assert CharsFrom(header, text);
        SimpleYamlKeepsOut(header);
        if SimpleYAML(header).Ok? {
          ManifestKeepsOut(SimpleYAML(header).value, SkipBreak(SkipBreak(rest[end.value + |CLOSE| - 1..])));
        }
      }
    }
  }

  /** A skill file reads back exactly as it was written, with the body's leading line breaks stripped and
      one newline added, if and only if its description is trimmed, non-empty and free of quotes,
      backslashes and line breaks, and the stripped body has no carriage return. */
  lemma RoundTrip(dirName: string, description: string, body: string)
    requires SafeSkillDirName(dirName).Ok?
    ensures var name := SafeSkillDirName(dirName).value;
            ParseSkillMarkdown(SkillMarkdown(name, description, body)) ==
            Ok(Manifest(name, description, TrimBreaks(body) + "\n")) <==>
            IsPlain(description) && '\r' !in TrimBreaks(body)
  {
    var name := SafeSkillDirName(dirName).value;
    var kept := TrimBreaks(body) + "\n";
    var r := ParseSkillMarkdown(SkillMarkdown(name, description, body));
    ReadDescriptions(SkillMarkdown(name, description, body));
    UnixIsIdentityIff(kept);
    assert '\r' in kept <==> '\r' in TrimBreaks(body);
    if description != "" && '\r' !in description {
      WrittenIsReadBack(name, description, body);
      TrimmedEscapeIff(description);
      SameManifestIff(r, name, description, Escape(description), Unix(kept), kept);
    }
  }

  lemma SameManifestIff(r: Result<Manifest>, name: string, description: string, escaped: string, read: string, kept: string)
    requires r == ReadBack(name, escaped, read) && description != ""
    ensures r == Ok(Manifest(name, description, kept)) <==> Trim(escaped) == description && read == kept
  {
  }
}
