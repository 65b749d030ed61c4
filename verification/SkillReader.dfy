/** Which SKILL.md files the reader accepts, and what it reads from them
    (agent_server/internal/skills/frontmatter.go). */
module SkillReader {
  import opened Text
  import opened SkillMarkdown

  // ---------------------------------------------------------------- line breaks and the mark

  /** The style of the line breaks, and a byte order mark in front, make no difference. */
  lemma BreaksMakeNoDifference(data: string)
    requires data == [] || data[0] != '\U{FEFF}'
    ensures ParseSkillMarkdown(Unix(data)) == ParseSkillMarkdown(data)
    ensures ParseSkillMarkdown(['\U{FEFF}'] + data) == ParseSkillMarkdown(data)
  {
    UnixIsIdentityIff(Unix(data));
    UnixIsIdentityIff(data);
    FirstOfUnix(data);
    assert (['\U{FEFF}'] + data)[1..] == data;
    assert StripBom(Unix(data)) == Unix(data);
    assert Unix(StripBom(Unix(data))) == Unix(data);
  }

  lemma FirstOfUnix(data: string)
    requires data == [] || data[0] != '\U{FEFF}'
    ensures Unix(data) == [] || Unix(data)[0] != '\U{FEFF}'
  {
  }

  // ---------------------------------------------------------------- one header line

  /** `colon` splits the line into a key and a value. */
  predicate SplitsAt(trim: string -> string, line: string, colon: nat) {
    colon < |line| && line[colon] == ':' && ':' !in line[..colon] && trim(line[..colon]) != ""
  }

  predicate IsBlankOrComment(line: string) {
    line == "" || line[0] == '#'
  }

  lemma FirstColon(trim: string -> string, line: string)
    ensures forall colon: nat :: SplitsAt(trim, line, colon) ==> colon == IndexOf(line, ':')
    ensures (forall colon: nat :: !SplitsAt(trim, line, colon)) <==>
            IndexOf(line, ':') == |line| || trim(line[..IndexOf(line, ':')]) == ""
  {
    forall colon: nat | SplitsAt(trim, line, colon)
      ensures IndexOf(line, ':') == colon
    {
      IndexOfIsFirst(line, ':', colon);
    }
    var first := IndexOf(line, ':');
    if first < |line| && trim(line[..first]) != "" {
      assert SplitsAt(trim, line, first);
    }
  }

  /** What one line does: a blank line or a comment nothing; one with a key before its first colon sets that
      key, over any earlier value, to the rest of the line, trimmed and unquoted; any other is an error.
      `trim` is `Trim`. */
  lemma LineMeans(trim: string -> string, values: Values, raw: string)
    ensures var line, r := trim(raw), YamlLineWith(trim, values, raw);
            && (r.Err? <==> !IsBlankOrComment(line) && forall colon: nat :: !SplitsAt(trim, line, colon))
            && (IsBlankOrComment(line) ==> r == Ok(values))
            && (forall colon: nat :: !IsBlankOrComment(line) && SplitsAt(trim, line, colon) ==>
                  r == Ok(values[trim(line[..colon]) := Unquote(trim(line[colon + 1..]))]))
  {
    FirstColon(trim, trim(raw));
  }

  /** Only a matching pair of single or double quotes around a value is taken off. */
  lemma UnquoteIff(value: string)
    ensures Unquote(value) != value <==>
            exists quote, inner :: quote in {'"', '\''} && value == [quote] + inner + [quote]
    ensures forall quote: char, inner: string :: quote in {'"', '\''} ==> Unquote([quote] + inner + [quote]) == inner
  {
    forall quote: char, inner: string | quote in {'"', '\''}
      ensures Unquote([quote] + inner + [quote]) == inner && inner != [quote] + inner + [quote]
    {
      var all := [quote] + inner + [quote];
      assert all[1..|all| - 1] == inner && |all| == |inner| + 2;
    }
    if Unquote(value) != value {
      assert value == [value[0]] + value[1..|value| - 1] + [value[0]];
    }
  }

  // ---------------------------------------------------------------- one file

  /** The text opens with the delimiter, and its header ends at the first closing line: one inside the text
      or, if there is none, one that ends it. */
  predicate HasHeader(text: string, header: string, tail: string) {
    && text == OPEN + (header + "\n---") + tail
    && (tail == "" || tail[0] == '\n')
    && (forall j :: 0 <= j < |header| ==> !At(header + "\n---" + tail, j, CLOSE))
    && (tail == "" ==> !At(header + "\n---", |header|, CLOSE))
  }

  /** The body is what follows, without the line break of the closing line and one empty line. */
  function BodyOf(tail: string): string {
    SkipBreak(SkipBreak(tail))
  }

  lemma CloseIs()
    ensures CLOSE == "\n---" + "\n" && |CLOSE| == 5 && CLOSE[..4] == "\n---" && |OPEN| == 4
  {
  }

  lemma ClosedInside(rest: string, header: string, tail: string)
    requires rest == header + "\n---" + tail && tail != "" && tail[0] == '\n'
    requires forall j :: 0 <= j < |header| ==> !At(rest, j, CLOSE)
    ensures HeaderEnd(rest) == Some(|header|) && rest[|header| + |CLOSE| - 1..] == tail && rest[..|header|] == header
  {
    CloseIs();
    assert rest[|header|..|header| + 5] == "\n---" + [tail[0]];
    assert At(rest, |header|, CLOSE);
    FindIs(rest, CLOSE, |header|);
  }

  lemma ClosedAtEnd(rest: string, header: string)
    requires rest == header + "\n---" && forall j :: 0 <= j < |header| ==> !At(rest, j, CLOSE)
    ensures HeaderEnd(rest) == Some(|header|) && rest[|header| + |CLOSE| - 1..] == "" && rest[..|header|] == header
  {
    CloseIs();
    var found := Find(rest, CLOSE, 0);
    assert rest[|rest| - 4..] == "\n---";
  }

  /** What a file with a header reads as: its header's name and description, trimmed, which must both be
      there, and its body; it is refused only for a bad header line or a missing one of the two. */
  lemma FileReadsAs(data: string, header: string, tail: string)
    requires HasHeader(Unix(StripBom(data)), header, tail)
    ensures var r, yaml := ParseSkillMarkdown(data), SimpleYAML(header);
            && (r.Ok? <==> yaml.Ok? && Value(yaml.value, NAME) != "" && Value(yaml.value, DESCRIPTION) != "")
            && (r.Ok? ==> r.value == Manifest(Value(yaml.value, NAME), Value(yaml.value, DESCRIPTION), BodyOf(tail)))
  {
    var text := Unix(StripBom(data));
    var rest := header + "\n---" + tail;
    CloseIs();
    assert text[..|OPEN|] == OPEN && text[|OPEN|..] == rest;
    if tail != "" {
      ClosedInside(rest, header, tail);
    } else {
      assert rest == header + "\n---";
      ClosedAtEnd(rest, header);
    }
    ParsedAs(HeaderEnd, SimpleYAML, text, rest, |header|);
  }

  lemma ParsedAs(headerEnd: string -> Option<nat>, yaml: string -> Result<Values>, text: string, rest: string, n: nat)
    requires forall s :: headerEnd(s).Some? ==> headerEnd(s).value + |CLOSE| - 1 <= |s|
    requires |text| >= |OPEN| && text[..|OPEN|] == OPEN && text[|OPEN|..] == rest && headerEnd(rest) == Some(n)
    ensures ParseWith(headerEnd, yaml, text) ==
            match yaml(rest[..n]) {
              case Err(message) => Err(message)
              case Ok(values) => ManifestOf(values, BodyOf(rest[n + |CLOSE| - 1..]))
            }
  {
  }

  /** And every file it accepts has such a header. */
  lemma AcceptedHasHeader(data: string)
    requires ParseSkillMarkdown(data).Ok?
    ensures exists header, tail :: HasHeader(Unix(StripBom(data)), header, tail)
  {
    AcceptedText(Unix(StripBom(data)));
  }

  lemma AcceptedText(text: string)
    requires ParseWith(HeaderEnd, SimpleYAML, text).Ok?
    ensures exists header, tail :: HasHeader(text, header, tail)
  {
    AcceptedOpens(HeaderEnd, SimpleYAML, text);
    CutOpen(text);
    OpenedHasHeader(text, text[|OPEN|..]);
  }

  lemma CutOpen(text: string)
    requires |text| >= |OPEN| && text[..|OPEN|] == OPEN
    ensures text == OPEN + text[|OPEN|..]
  {
  }

  lemma AcceptedOpens(headerEnd: string -> Option<nat>, yaml: string -> Result<Values>, text: string)
    requires forall s :: headerEnd(s).Some? ==> headerEnd(s).value + |CLOSE| - 1 <= |s|
    requires ParseWith(headerEnd, yaml, text).Ok?
    ensures |text| >= |OPEN| && text[..|OPEN|] == OPEN && headerEnd(text[|OPEN|..]).Some?
  {
    CloseIs();
  }

  lemma OpenedHasHeader(text: string, rest: string)
    requires text == OPEN + rest && HeaderEnd(rest).Some?
    ensures exists header, tail :: HasHeader(text, header, tail)
  {
    var header, tail := HeaderFound(rest, HeaderEnd(rest).value);
    Associates(OPEN, header + "\n---", tail);
    HeaderOf(text, rest, header, tail);
  }

  lemma Associates(a: string, b: string, c: string)
    ensures a + (b + c) == a + b + c
  {
  }

  lemma HeaderOf(text: string, rest: string, header: string, tail: string)
    requires rest == header + "\n---" + tail && text == OPEN + (header + "\n---") + tail
    requires (tail == "" || tail[0] == '\n') && forall j :: 0 <= j < |header| ==> !At(rest, j, CLOSE)
    requires tail == "" ==> !At(header + "\n---", |header|, CLOSE)
    ensures HasHeader(text, header, tail)
  {
  }

  lemma HeaderFound(rest: string, n: nat) returns (header: string, tail: string)
    requires HeaderEnd(rest) == Some(n)
    ensures rest == header + "\n---" + tail && (tail == "" || tail[0] == '\n')
    ensures forall j :: 0 <= j < |header| ==> !At(rest, j, CLOSE)
    ensures tail == "" ==> !At(header + "\n---", |header|, CLOSE)
  {
    CloseIs();
    EndIs(rest, n);
    header, tail := rest[..n], rest[n + 4..];
    assert rest == rest[..n] + rest[n..n + 4] + rest[n + 4..];
    assert |header| == n;
  }

  lemma EndIs(rest: string, n: nat)
    requires HeaderEnd(rest) == Some(n)
    ensures n + 4 <= |rest| && rest[n..n + 4] == "\n---" && (n + 4 < |rest| ==> rest[n + 4] == '\n')
    ensures forall j :: 0 <= j < n ==> !At(rest, j, CLOSE)
  {
    CloseIs();
    if Find(rest, CLOSE, 0).Some? {
      var slice := rest[n..n + 5];
      assert slice == CLOSE && slice[..4] == rest[n..n + 4] && slice[4] == rest[n + 4];
    }
  }

  // ---------------------------------------------------------------- accepted names

  /** Which names can be a directory: trimmed, exactly those made of name characters, at least one, without
      two dots in a row and not a single dot. */
  lemma NameIsAcceptedIff(name: string)
    ensures SafeSkillDirName(name).Ok? <==> IsName(Trim(name)) && !HasDoubleDot(Trim(name)) && Trim(name) != "."
  {
    var dots := "..";
    assert dots[0] == '.' && dots[1] == '.' && HasDoubleDot(dots);
  }
}
