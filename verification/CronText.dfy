/** Every text of a cron field, not only a printed one: which the parser accepts, and what each means
    (agent_gateway/internal/runtime/scheduler/schedule.go, parseCronField). */
module CronText {
  import opened Text
  import opened Cron
  import opened Schedule

  /** A number as `strconv.Atoi` reads it: a sign may be written, and leading zeros. */
  datatype Numeral = Numeral(sign: string, digits: string)

  function NumText(n: Numeral): string { n.sign + n.digits }

  predicate IsNumeral(n: Numeral) {
    n.sign in {"", "+", "-"} && AllDigits(n.digits) && MIN_INT <= NumValue(n) <= MAX_INT
  }

  function NumValue(n: Numeral): int
    requires AllDigits(n.digits)
  {
    if n.sign == "-" then -(DecimalValue(n.digits) as int) else DecimalValue(n.digits)
  }

  lemma NumeralParses(n: Numeral)
    requires IsNumeral(n)
    ensures Atoi(NumText(n)) == Some(NumValue(n))
  {
    var s := NumText(n);
    assert n.digits[0] in n.digits && IsDigit(n.digits[0]);
    if n.sign == "" {
      assert s == n.digits && s[0] !in {'+', '-'};
    } else {
      assert s[0] in {'+', '-'} && s[1..] == n.digits;
    }
  }

  lemma NumeralOf(s: string) returns (n: Numeral)
    requires Atoi(s).Some?
    ensures IsNumeral(n) && NumText(n) == s && NumValue(n) == Atoi(s).value
  {
    if s[0] in {'+', '-'} {
      n := Numeral([s[0]], s[1..]);
      assert s == [s[0]] + s[1..];
    } else {
      n := Numeral("", s);
    }
  }

  lemma NumeralWord(n: Numeral)
    requires IsNumeral(n)
    ensures IsWord(NumText(n)) && forall c :: c in NumText(n) ==> c !in {'*', '/', ','}
    ensures n.sign != "-" ==> '-' !in NumText(n)
  {
    assert n.digits[0] in n.digits;
    assert forall c :: c in n.digits ==> IsDigit(c);
  }

  // ---------------------------------------------------------------- one token

  datatype BaseText = Star | Single(n: Numeral) | Range(lo: Numeral, hi: Numeral)

  function PrintBaseText(b: BaseText): string {
    match b
    case Star => "*"
    case Single(n) => NumText(n)
    case Range(lo, hi) => NumText(lo) + ['-'] + NumText(hi)
  }

  /** A leading minus would be taken for the dash of a range. */
  predicate IsBaseText(b: BaseText) {
    match b
    case Star => true
    case Single(n) => IsNumeral(n) && n.sign != "-"
    case Range(lo, hi) => IsNumeral(lo) && IsNumeral(hi) && lo.sign != "-"
  }

  function BaseBounds(b: BaseText, minValue: int, maxValue: int): (int, int)
    requires IsBaseText(b)
  {
    match b
    case Star => (minValue, maxValue)
    case Single(n) => (NumValue(n), NumValue(n))
    case Range(lo, hi) => (NumValue(lo), NumValue(hi))
  }

  lemma BaseWord(b: BaseText)
    requires IsBaseText(b)
    ensures IsWord(PrintBaseText(b)) && '/' !in PrintBaseText(b) && ',' !in PrintBaseText(b)
    ensures '*' in PrintBaseText(b) ==> b == Star
  {
    match b
    case Star =>
    case Single(n) => NumeralWord(n);
    case Range(lo, hi) =>
      NumeralWord(lo);
      NumeralWord(hi);
  }

  lemma BaseParses(b: BaseText, minValue: int, maxValue: int)
    requires IsBaseText(b)
    ensures ParseBase(PrintBaseText(b), minValue, maxValue) == Ok(BaseBounds(b, minValue, maxValue))
  {
    BaseWord(b);
    var text := PrintBaseText(b);
    assert text == "*" ==> text[0] in text;
    match b
    case Star =>
    case Single(n) =>
      NumeralWord(n);
      NumeralParses(n);
    case Range(lo, hi) =>
      NumeralWord(lo);
      CutPrinted(NumText(lo), '-', NumText(hi));
      NumeralParses(lo);
      NumeralParses(hi);
      assert text[|NumText(lo)|] == '-';
  }

  lemma CutAt(s: string, c: char)
    requires c in s
    ensures s == Before(s, c) + ([c] + After(s, c)) && c !in Before(s, c)
  {
    var i := IndexOf(s, c);
    assert s == s[..i] + s[i..];
    assert c in s[i..];
    assert s[i..] == [s[i]] + s[i + 1..];
  }

  lemma NoMinus(n: Numeral)
    requires IsNumeral(n) && '-' !in NumText(n)
    ensures n.sign != "-"
  {
    assert n.sign != "" ==> n.sign[0] in NumText(n);
  }

  lemma RangeOf(text: string) returns (b: BaseText)
    requires '-' in text && Atoi(Before(text, '-')).Some? && Atoi(After(text, '-')).Some?
    ensures IsBaseText(b) && PrintBaseText(b) == text && b.Range?
    ensures NumValue(b.lo) == Atoi(Before(text, '-')).value && NumValue(b.hi) == Atoi(After(text, '-')).value
  {
    var left, right := Before(text, '-'), After(text, '-');
    CutAt(text, '-');
    assert left + ['-'] + right == left + (['-'] + right);
    var lo := NumeralOf(left);
    var hi := NumeralOf(right);
    NoMinus(lo);
    b := Range(lo, hi);
  }

  lemma BaseOf(text: string, minValue: int, maxValue: int) returns (b: BaseText)
    requires ParseBase(text, minValue, maxValue).Ok?
    ensures IsBaseText(b) && PrintBaseText(b) == text
    ensures BaseBounds(b, minValue, maxValue) == ParseBase(text, minValue, maxValue).value
  {
    if text == "*" {
      b := Star;
    } else if '-' in text {
      b := RangeOf(text);
    } else {
      var n := NumeralOf(text);
      NoMinus(n);
      b := Single(n);
    }
  }

  /** A token with the white space around it. */
  datatype Token = Token(left: string, base: BaseText, step: Option<Numeral>, right: string)

  predicate IsBlank(s: string) {
    forall i :: 0 <= i < |s| ==> IsSpace(s[i])
  }

  function CoreText(t: Token): string {
    PrintBaseText(t.base) + if t.step.Some? then ['/'] + NumText(t.step.value) else []
  }

  function TokenText(t: Token): string { t.left + CoreText(t) + t.right }

  predicate IsToken(t: Token) {
    && IsBlank(t.left) && IsBlank(t.right) && ',' !in t.left && ',' !in t.right && IsBaseText(t.base)
    && (t.step.Some? ==> IsNumeral(t.step.value) && NumValue(t.step.value) > 0)
  }

  function TokenBounds(t: Token, minValue: int, maxValue: int): Bounds
    requires IsToken(t)
  {
    var (start, end) := BaseBounds(t.base, minValue, maxValue);
    Bounds(start, end, StepOf(t))
  }

  predicate InLimits(b: Bounds, minValue: int, maxValue: int) {
    minValue <= b.start <= b.end <= maxValue && 1 <= b.step <= MAX_INT
  }

  lemma {:induction false} TrimStartBlank(left: string, rest: string)
    requires IsBlank(left) && (rest != [] ==> !IsSpace(rest[0]))
    ensures TrimStart(left + rest) == rest
    decreases |left|
  {
    if left == [] {
      assert left + rest == rest;
    } else {
      assert (left + rest)[1..] == left[1..] + rest;
      TrimStartBlank(left[1..], rest);
    }
  }

  lemma {:induction false} TrimEndBlank(rest: string, right: string)
    requires IsBlank(right) && (rest != [] ==> !IsSpace(rest[|rest| - 1]))
    ensures TrimEnd(rest + right) == rest
    decreases |right|
  {
    if right == [] {
      assert rest + right == rest;
    } else {
      var n := |right| - 1;
      assert (rest + right)[..|rest + right| - 1] == rest + right[..n];
      TrimEndBlank(rest, right[..n]);
    }
  }

  lemma TrimAround(left: string, core: string, right: string)
    requires IsBlank(left) && IsBlank(right) && IsWord(core)
    ensures Trim(left + core + right) == core
  {
    assert core[0] in core && core[|core| - 1] in core;
    assert left + core + right == left + (core + right);
    TrimStartBlank(left, core + right);
    TrimEndBlank(core, right);
  }

  lemma {:induction false} TrimStartParts(s: string) returns (left: string)
    ensures IsBlank(left) && s == left + TrimStart(s)
  {
    if s != [] && IsSpace(s[0]) {
      var more := TrimStartParts(s[1..]);
      left := [s[0]] + more;
      assert left + TrimStart(s) == [s[0]] + (more + TrimStart(s[1..])) == s;
    } else {
      left := [];
      assert left + s == s;
    }
  }

  lemma {:induction false} TrimEndParts(s: string) returns (right: string)
    ensures IsBlank(right) && s == TrimEnd(s) + right
  {
    if s != [] && IsSpace(s[|s| - 1]) {
      var n := |s| - 1;
      var more := TrimEndParts(s[..n]);
      right := more + [s[n]];
      assert TrimEnd(s) + right == (TrimEnd(s[..n]) + more) + [s[n]] == s;
    } else {
      right := [];
      assert s + right == s;
    }
  }

  lemma CoreWord(t: Token)
    requires IsToken(t)
    ensures IsWord(CoreText(t)) && ',' !in CoreText(t)
    ensures '/' in CoreText(t) <==> t.step.Some?
  {
    BaseWord(t.base);
    if t.step.Some? {
      NumeralWord(t.step.value);
      assert CoreText(t)[|PrintBaseText(t.base)|] == '/';
    }
  }

  function StepOf(t: Token): int
    requires IsToken(t)
  {
    if t.step.Some? then NumValue(t.step.value) else 1
  }

  /** What is left of a token's step. */
  function Base(core: string): string {
    if '/' in core then Before(core, '/') else core
  }

  lemma CoreParses(t: Token)
    requires IsToken(t)
    ensures ParseStep(CoreText(t)) == Ok(StepOf(t)) && Base(CoreText(t)) == PrintBaseText(t.base)
  {
    CoreWord(t);
    BaseWord(t.base);
    if t.step.Some? {
      NumeralParses(t.step.value);
      CutStep(PrintBaseText(t.base), NumText(t.step.value), NumValue(t.step.value));
    } else {
      assert CoreText(t) == PrintBaseText(t.base);
    }
  }

  lemma CutStep(base: string, stepText: string, step: int)
    requires '/' !in base && Atoi(stepText) == Some(step) && step > 0
    ensures var core := base + (['/'] + stepText); ParseStep(core) == Ok(step) && Base(core) == base
  {
    var core := base + (['/'] + stepText);
    assert core == base + ['/'] + stepText && core[|base|] == '/';
    CutPrinted(base, '/', stepText);
  }

  /** ParseToken, once the token is trimmed and cut. */
  lemma ParsedCore(raw: string, core: string, minValue: int, maxValue: int, step: Result<int>, bounds: Result<(int, int)>)
    requires Trim(raw) == core && ParseStep(core) == step && ParseBase(Base(core), minValue, maxValue) == bounds
    ensures ParseToken(raw, minValue, maxValue).Ok? ==> core != "" && step.Ok? && bounds.Ok?
    ensures core != "" && step.Ok? && bounds.Ok? ==>
              var b := Bounds(bounds.value.0, bounds.value.1, step.value);
              var r := ParseToken(raw, minValue, maxValue);
              (r.Ok? <==> minValue <= b.start <= b.end <= maxValue) && (r.Ok? ==> r.value == b)
  {
  }

  /** A well-formed token is accepted exactly when its bounds are within the limits. */
  lemma TokenParses(t: Token, minValue: int, maxValue: int)
    requires IsToken(t)
    ensures var r := ParseToken(TokenText(t), minValue, maxValue);
            && (r.Ok? <==> InLimits(TokenBounds(t, minValue, maxValue), minValue, maxValue))
            && (r.Ok? ==> r.value == TokenBounds(t, minValue, maxValue))
  {
    CoreWord(t);
    TrimAround(t.left, CoreText(t), t.right);
    CoreParses(t);
    BaseParses(t.base, minValue, maxValue);
    ParsedCore(TokenText(t), CoreText(t), minValue, maxValue, Ok(StepOf(t)), Ok(BaseBounds(t.base, minValue, maxValue)));
  }

  lemma CoreOf(core: string, minValue: int, maxValue: int) returns (base: BaseText, step: Option<Numeral>)
    requires ParseStep(core).Ok? && ParseBase(Base(core), minValue, maxValue).Ok?
    ensures IsBaseText(base) && (step.Some? ==> IsNumeral(step.value) && NumValue(step.value) > 0)
    ensures core == PrintBaseText(base) + if step.Some? then ['/'] + NumText(step.value) else []
  {
    base := BaseOf(Base(core), minValue, maxValue);
    step := None;
    if '/' in core {
      CutAt(core, '/');
      var n := NumeralOf(After(core, '/'));
      step := Some(n);
      assert NumText(n) == After(core, '/') && PrintBaseText(base) == Before(core, '/');
    } else {
      assert core == core + [];
    }
  }

  /** Every accepted text is that of a well-formed token. */
  lemma TokenOf(raw: string, minValue: int, maxValue: int) returns (t: Token)
    requires ParseToken(raw, minValue, maxValue).Ok? && ',' !in raw
    ensures IsToken(t) && TokenText(t) == raw
  {
    var core := Trim(raw);
    ParsedCore(raw, core, minValue, maxValue, ParseStep(core), ParseBase(Base(core), minValue, maxValue));
    var base, step := CoreOf(core, minValue, maxValue);
    t := SurroundedBy(raw, base, step);
  }

  lemma SurroundedBy(raw: string, base: BaseText, step: Option<Numeral>) returns (t: Token)
    requires IsBaseText(base) && (step.Some? ==> IsNumeral(step.value) && NumValue(step.value) > 0)
    requires Trim(raw) == PrintBaseText(base) + (if step.Some? then ['/'] + NumText(step.value) else []) && ',' !in raw
    ensures IsToken(t) && TokenText(t) == raw
  {
    var left, right := TrimParts(raw, ',');
    t := Token(left, base, step, right);
    assert CoreText(t) == Trim(raw);
  }

  lemma TrimParts(raw: string, c: char) returns (left: string, right: string)
    ensures IsBlank(left) && IsBlank(right) && raw == left + Trim(raw) + right
    ensures c !in raw ==> c !in left && c !in right
  {
    left := TrimStartParts(raw);
    right := TrimEndParts(TrimStart(raw));
    Regroup(raw, left, Trim(raw), right, c);
  }

  lemma Regroup(raw: string, left: string, core: string, right: string, c: char)
    requires raw == left + (core + right)
    ensures raw == left + core + right && (c !in raw ==> c !in left && c !in right)
  {
  }

  // ---------------------------------------------------------------- one field

  function TokenTexts(tokens: seq<Token>): seq<string> {
    Mapped(TokenText, tokens)
  }

  function Mapped<T, S>(f: T -> S, ts: seq<T>): (r: seq<S>)
    ensures |r| == |ts|
  {
    if ts == [] then [] else Mapped(f, ts[..|ts| - 1]) + [f(ts[|ts| - 1])]
  }

  lemma {:induction false} MappedIs<T, S>(f: T -> S, ts: seq<T>, xs: seq<S>)
    requires |ts| == |xs| && forall i :: 0 <= i < |ts| ==> f(ts[i]) == xs[i]
    ensures Mapped(f, ts) == xs
    decreases |ts|
  {
    if ts != [] {
      var n := |ts| - 1;
      MappedIs(f, ts[..n], xs[..n]);
      assert xs == xs[..n] + [xs[n]];
    }
  }

  predicate AreTokens(tokens: seq<Token>) {
    forall i :: 0 <= i < |tokens| ==> IsToken(tokens[i])
  }

  predicate AllInLimits(tokens: seq<Token>, minValue: int, maxValue: int)
    requires AreTokens(tokens)
  {
    forall i :: 0 <= i < |tokens| ==> InLimits(TokenBounds(tokens[i], minValue, maxValue), minValue, maxValue)
  }

  /** These tokens, separated by commas, are spelled like this, and all are within the limits. */
  predicate Spells(raw: string, tokens: seq<Token>, minValue: int, maxValue: int) {
    && tokens != [] && AreTokens(tokens) && AllInLimits(tokens, minValue, maxValue)
    && raw == Join(TokenTexts(tokens), ',')
  }

  /** What the range loops over the tokens collect. */
  function CollectedAll(tokens: seq<Token>, minValue: int, maxValue: int): set<int>
    requires 0 <= minValue <= maxValue <= 99 && AreTokens(tokens) && AllInLimits(tokens, minValue, maxValue)
  {
    if tokens == [] then {}
    else
      var b := TokenBounds(tokens[|tokens| - 1], minValue, maxValue);
      CollectedAll(tokens[..|tokens| - 1], minValue, maxValue) + Collected(b.start, b.end, b.step)
  }

  lemma {:induction false} TextsOfTokens(tokens: seq<Token>)
    requires AreTokens(tokens)
    ensures |TokenTexts(tokens)| == |tokens|
    ensures forall p :: p in TokenTexts(tokens) ==> ',' !in p
    decreases |tokens|
  {
    if tokens != [] {
      TextsOfTokens(tokens[..|tokens| - 1]);
      CoreWord(tokens[|tokens| - 1]);
    }
  }

  lemma {:induction false} TokensParse(tokens: seq<Token>, minValue: int, maxValue: int)
    requires 0 <= minValue <= maxValue <= 99 && AreTokens(tokens) && AllInLimits(tokens, minValue, maxValue)
    ensures ParseTokens(TokenTexts(tokens), minValue, maxValue) == Ok(CollectedAll(tokens, minValue, maxValue))
    decreases |tokens|
  {
    if tokens != [] {
      var n := |tokens| - 1;
      TokensParse(tokens[..n], minValue, maxValue);
      TokenParses(tokens[n], minValue, maxValue);
      var texts := TokenTexts(tokens);
      assert texts[..|texts| - 1] == TokenTexts(tokens[..n]) && texts[|texts| - 1] == TokenText(tokens[n]);
    }
  }

  lemma ParsedLast(texts: seq<string>, minValue: int, maxValue: int)
    requires 0 <= minValue <= maxValue <= 99 && texts != [] && ParseTokens(texts, minValue, maxValue).Ok?
    ensures ParseToken(texts[|texts| - 1], minValue, maxValue).Ok?
  {
  }

  /** Every text of an accepted list is accepted, and so that of a token. */
  lemma ParsedTokenAt(texts: seq<string>, i: nat, minValue: int, maxValue: int, ok: (Token, string) -> bool)
    requires 0 <= minValue <= maxValue <= 99 && ParseTokens(texts, minValue, maxValue).Ok?
    requires i < |texts| && ',' !in texts[i] && ok == SpellsToken(minValue, maxValue)
    ensures HasOne(ok, texts[i])
  {
    assert ParseTokens(texts[..i + 1], minValue, maxValue).Ok? by {
      if ParseTokens(texts[..i + 1], minValue, maxValue).Err? {
        ParseTokensFails(texts, i + 1, minValue, maxValue);
      }
    }
    ParsedLast(texts[..i + 1], minValue, maxValue);
    var t := TokenOf(texts[i], minValue, maxValue);
    TokenParses(t, minValue, maxValue);
    assert ok(t, texts[i]);
  }

  function SpellsToken(minValue: int, maxValue: int): (Token, string) -> bool {
    (t: Token, text: string) => IsToken(t) && InLimits(TokenBounds(t, minValue, maxValue), minValue, maxValue) && TokenText(t) == text
  }

  ghost predicate HasOne<T(!new), S>(ok: (T, S) -> bool, x: S) {
    exists t :: ok(t, x)
  }

  ghost predicate AllHaveOne<T(!new), S>(ok: (T, S) -> bool, xs: seq<S>) {
    forall i :: 0 <= i < |xs| ==> HasOne(ok, xs[i])
  }

  lemma {:induction false} ChooseAll<T(!new), S(!new)>(ok: (T, S) -> bool, xs: seq<S>) returns (ts: seq<T>)
    requires AllHaveOne(ok, xs)
    ensures |ts| == |xs| && forall i :: 0 <= i < |xs| ==> ok(ts[i], xs[i])
    decreases |xs|
  {
    ts := [];
    if xs != [] {
      var n := |xs| - 1;
      var init := ChooseAll(ok, xs[..n]);
      assert HasOne(ok, xs[n]);
      var t :| ok(t, xs[n]);
      ts := init + [t];
    }
  }

  lemma ParsedHaveOne(texts: seq<string>, minValue: int, maxValue: int, ok: (Token, string) -> bool)
    requires 0 <= minValue <= maxValue <= 99 && ParseTokens(texts, minValue, maxValue).Ok?
    requires NoneContains(texts, ',') && ok == SpellsToken(minValue, maxValue)
    ensures AllHaveOne(ok, texts)
  {
    forall i | 0 <= i < |texts|
      ensures HasOne(ok, texts[i])
    {
      ParsedTokenAt(texts, i, minValue, maxValue, ok);
    }
  }

  predicate NoneContains(texts: seq<string>, c: char) {
    forall i :: 0 <= i < |texts| ==> c !in texts[i]
  }

  lemma TokensOf(texts: seq<string>, minValue: int, maxValue: int) returns (tokens: seq<Token>)
    requires 0 <= minValue <= maxValue <= 99 && ParseTokens(texts, minValue, maxValue).Ok? && NoneContains(texts, ',')
    ensures |tokens| == |texts| && AreTokens(tokens) && AllInLimits(tokens, minValue, maxValue)
    ensures TokenTexts(tokens) == texts
  {
    tokens := Chosen(texts, minValue, maxValue, SpellsToken(minValue, maxValue));
  }

  lemma Chosen(texts: seq<string>, minValue: int, maxValue: int, ok: (Token, string) -> bool) returns (tokens: seq<Token>)
    requires 0 <= minValue <= maxValue <= 99 && ParseTokens(texts, minValue, maxValue).Ok? && NoneContains(texts, ',')
    requires ok == SpellsToken(minValue, maxValue)
    ensures |tokens| == |texts| && AreTokens(tokens) && AllInLimits(tokens, minValue, maxValue)
    ensures TokenTexts(tokens) == texts
  {
    ParsedHaveOne(texts, minValue, maxValue, ok);
    tokens := ChooseAll(ok, texts);
    TokensAre(tokens, texts, minValue, maxValue, ok);
  }

  lemma TokensAre(tokens: seq<Token>, texts: seq<string>, minValue: int, maxValue: int, ok: (Token, string) -> bool)
    requires |tokens| == |texts| && ok == SpellsToken(minValue, maxValue)
    requires forall i :: 0 <= i < |texts| ==> ok(tokens[i], texts[i])
    ensures AreTokens(tokens) && AllInLimits(tokens, minValue, maxValue) && TokenTexts(tokens) == texts
  {
    assert forall i :: 0 <= i < |texts| ==> ok(tokens[i], texts[i]);
    MappedIs(TokenText, tokens, texts);
  }

  lemma {:induction false} JoinSplit(s: string, c: char)
    ensures Join(Split(s, c), c) == s && NoneContains(Split(s, c), c)
    decreases |s|
  {
    var i := IndexOf(s, c);
    if i < |s| {
      JoinSplit(s[i + 1..], c);
      var parts := Split(s, c);
      assert parts[0] == s[..i] && parts[1..] == Split(s[i + 1..], c);
      assert s == s[..i] + [c] + s[i + 1..];
    } else {
      assert s[..i] == s;
    }
  }

  /** Which fields the parser accepts: exactly the comma-separated lists of tokens within the limits. */
  lemma AcceptedIff(raw: string, minValue: int, maxValue: int)
    requires 0 <= minValue <= maxValue <= 99
    ensures ParseField(raw, minValue, maxValue).Ok? <==> exists tokens :: Spells(raw, tokens, minValue, maxValue)
  {
    if tokens :| Spells(raw, tokens, minValue, maxValue) {
      TextsOfTokens(tokens);
      SplitJoin(TokenTexts(tokens), ',');
      TokensParse(tokens, minValue, maxValue);
    }
    if ParseField(raw, minValue, maxValue).Ok? {
      StarParses(minValue, maxValue);
      JoinSplit(raw, ',');
      var tokens := TokensOf(Split(raw, ','), minValue, maxValue);
      assert Spells(raw, tokens, minValue, maxValue);
    }
  }

  /** The field `*` is also a list of one token. */
  lemma StarParses(minValue: int, maxValue: int)
    requires 0 <= minValue <= maxValue <= 99
    ensures Split("*", ',') == ["*"] && ParseTokens(["*"], minValue, maxValue).Ok?
  {
    var star := Token("", Star, None, "");
    IndexOfSingle('*', ',');
    assert CoreText(star) == "*" && TokenText(star) == "*";
    assert [star][..0] == [] && TokenTexts([star]) == ["*"];
    TokensParse([star], minValue, maxValue);
  }

  /** The value is one that the token's notation stands for. */
  predicate Selects(t: Token, minValue: int, maxValue: int, v: int)
    requires IsToken(t) && InLimits(TokenBounds(t, minValue, maxValue), minValue, maxValue)
  {
    var b := TokenBounds(t, minValue, maxValue);
    b.start <= v <= b.end && OnGrid(b.start, b.step, v)
  }

  /** The range loop of this token does not overflow. */
  predicate Fits(t: Token, minValue: int, maxValue: int)
    requires IsToken(t) && InLimits(TokenBounds(t, minValue, maxValue), minValue, maxValue)
  {
    var b := TokenBounds(t, minValue, maxValue);
    LastOf(b.start, b.end, b.step) + b.step <= MAX_INT
  }

  predicate SelectedBy(tokens: seq<Token>, minValue: int, maxValue: int, v: int)
    requires AreTokens(tokens) && AllInLimits(tokens, minValue, maxValue)
  {
    exists i :: 0 <= i < |tokens| && Selects(tokens[i], minValue, maxValue, v)
  }

  lemma SelectsCollected(t: Token, minValue: int, maxValue: int, v: int)
    requires 0 <= minValue <= maxValue <= 99
    requires IsToken(t) && InLimits(TokenBounds(t, minValue, maxValue), minValue, maxValue) && Fits(t, minValue, maxValue)
    ensures var b := TokenBounds(t, minValue, maxValue);
            v in Collected(b.start, b.end, b.step) <==> Selects(t, minValue, maxValue, v)
  {
    var b := TokenBounds(t, minValue, maxValue);
    CollectedIsExact(b.start, b.end, b.step);
  }

  lemma {:induction false} CollectedAllMeans(tokens: seq<Token>, minValue: int, maxValue: int, v: int)
    requires 0 <= minValue <= maxValue <= 99 && AreTokens(tokens) && AllInLimits(tokens, minValue, maxValue)
    requires forall i :: 0 <= i < |tokens| ==> Fits(tokens[i], minValue, maxValue)
    ensures v in CollectedAll(tokens, minValue, maxValue) <==> SelectedBy(tokens, minValue, maxValue, v)
    decreases |tokens|
  {
    if tokens != [] {
      var n := |tokens| - 1;
      CollectedAllMeans(tokens[..n], minValue, maxValue, v);
      SelectsCollected(tokens[n], minValue, maxValue, v);
      SelectedPush(tokens, minValue, maxValue, v);
    }
  }

  lemma SelectedPush(tokens: seq<Token>, minValue: int, maxValue: int, v: int)
    requires tokens != [] && AreTokens(tokens) && AllInLimits(tokens, minValue, maxValue)
    ensures SelectedBy(tokens, minValue, maxValue, v) <==>
            SelectedBy(tokens[..|tokens| - 1], minValue, maxValue, v) || Selects(tokens[|tokens| - 1], minValue, maxValue, v)
  {
    var n := |tokens| - 1;
    assert forall i :: 0 <= i < n ==> tokens[..n][i] == tokens[i];
    if i :| 0 <= i < |tokens| && Selects(tokens[i], minValue, maxValue, v) {
      assert i < n ==> Selects(tokens[..n][i], minValue, maxValue, v);
    }
  }

  lemma OnlyStarText(tokens: seq<Token>, minValue: int, maxValue: int)
    requires 0 <= minValue <= maxValue <= 99 && Spells("*", tokens, minValue, maxValue)
    ensures forall v :: minValue <= v <= maxValue ==> SelectedBy(tokens, minValue, maxValue, v)
  {
    TextsOfTokens(tokens);
    SplitJoin(TokenTexts(tokens), ',');
    IndexOfSingle('*', ',');
    var t := tokens[0];
    assert tokens == [t] && tokens[..0] == [];
    assert TokenText(t) == TokenTexts(tokens)[0] == "*";
    CoreWord(t);
    assert CoreText(t)[0] in CoreText(t);
    assert |t.left| + |CoreText(t)| + |t.right| == 1;
    assert CoreText(t) == "*";
    BaseWord(t.base);
    assert CoreText(t)[0] == PrintBaseText(t.base)[0];
    assert t.base == Star && t.step.None?;
    forall v | minValue <= v <= maxValue
      ensures SelectedBy(tokens, minValue, maxValue, v)
    {
      assert Selects(tokens[0], minValue, maxValue, v);
    }
  }

  /** What an accepted field means, however it is spelled: a value within the limits matches if and only
      if one of the tokens stands for it, as long as no token's range loop overflows. */
  lemma AcceptedMeans(raw: string, tokens: seq<Token>, minValue: int, maxValue: int, v: int)
    requires 0 <= minValue <= v <= maxValue <= 99 && Spells(raw, tokens, minValue, maxValue)
    requires forall i :: 0 <= i < |tokens| ==> Fits(tokens[i], minValue, maxValue)
    ensures var r := ParseField(raw, minValue, maxValue);
            r.Ok? && (r.value.Match(v) <==> SelectedBy(tokens, minValue, maxValue, v))
  {
    if raw == "*" {
      OnlyStarText(tokens, minValue, maxValue);
    } else {
      TextsOfTokens(tokens);
      SplitJoin(TokenTexts(tokens), ',');
      TokensParse(tokens, minValue, maxValue);
      CollectedAllMeans(tokens, minValue, maxValue, v);
    }
  }

  // ---------------------------------------------------------------- a whole expression

  /** The tokens spell this field of an expression, and their range loops do not overflow. */
  predicate SpellsField(raw: string, tokens: seq<Token>, field: nat) {
    && Spells(raw, tokens, Limits(field).0, Limits(field).1)
    && forall i :: 0 <= i < |tokens| ==> Fits(tokens[i], Limits(field).0, Limits(field).1)
  }

  /** The values within the field's limits that one of the tokens stands for. */
  ghost function SelectedValues(raw: string, tokens: seq<Token>, field: nat): set<int>
    requires SpellsField(raw, tokens, field)
  {
    set v | Limits(field).0 <= v <= Limits(field).1 && SelectedBy(tokens, Limits(field).0, Limits(field).1, v)
  }

  ghost predicate FieldReads(parse: (nat, string) -> Result<Matcher>, raw: string, m: Matcher, values: set<int>, field: nat) {
    parse(field, raw) == Ok(m) && Means(m, values, field)
  }

  lemma FieldIsRead(raw: string, tokens: seq<Token>, field: nat) returns (m: Matcher)
    requires SpellsField(raw, tokens, field)
    ensures FieldReads(FieldParser(), raw, m, SelectedValues(raw, tokens, field), field)
  {
    var (lo, hi) := Limits(field);
    AcceptedMeans(raw, tokens, lo, hi, lo);
    m := ParseField(raw, lo, hi).value;
    forall v | lo <= v <= hi
      ensures m.Match(v) <==> v in SelectedValues(raw, tokens, field)
    {
      AcceptedMeans(raw, tokens, lo, hi, v);
    }
  }

  /** What an accepted expression means, however its fields are spelled: it matches a minute if and only
      if each clock field is selected by the tokens of its own field, day of month and weekday both. */
  lemma CronMeans(expr: string, lists: seq<seq<Token>>, t: nat)
    requires |Fields(expr)| == 5 == |lists|
    requires forall i :: 0 <= i < 5 ==> SpellsField(Fields(expr)[i], lists[i], i)
    ensures var spec := ParseCron(expr);
            && spec.Ok?
            && (spec.value.Matches(t) <==> InFields(t, FieldValues(Fields(expr), lists, 5)))
  {
    var parts, sets := Fields(expr), FieldValues(Fields(expr), lists, 5);
    forall i | 0 <= i < 5
      ensures IsReadable(FieldParser(), parts[i], sets[i], i)
    {
      var m := FieldIsRead(parts[i], lists[i], i);
      FieldValueAt(parts, lists, 5, i);
    }
    var ms := ReadAll(FieldParser(), parts, sets);
    ReadTogether(FieldParser(), parts, ms, sets, t);
  }

  /** The values the first `n` fields select. */
  ghost function FieldValues(parts: seq<string>, lists: seq<seq<Token>>, n: nat): (sets: seq<set<int>>)
    requires n <= 5 == |parts| == |lists| && forall i :: 0 <= i < 5 ==> SpellsField(parts[i], lists[i], i)
    ensures |sets| == n
  {
    if n == 0 then []
    else FieldValues(parts, lists, n - 1) + [SelectedValues(parts[n - 1], lists[n - 1], n - 1)]
  }

  lemma {:induction false} FieldValueAt(parts: seq<string>, lists: seq<seq<Token>>, n: nat, i: nat)
    requires i < n <= 5 == |parts| == |lists| && forall i :: 0 <= i < 5 ==> SpellsField(parts[i], lists[i], i)
    ensures FieldValues(parts, lists, n)[i] == SelectedValues(parts[i], lists[i], i)
  {
    if i < n - 1 {
      FieldValueAt(parts, lists, n - 1, i);
    }
  }

  ghost predicate IsReadable(parse: (nat, string) -> Result<Matcher>, raw: string, values: set<int>, field: nat) {
    exists m :: FieldReads(parse, raw, m, values, field)
  }

  lemma {:induction false} ReadAll(parse: (nat, string) -> Result<Matcher>, parts: seq<string>, sets: seq<set<int>>)
    returns (ms: seq<Matcher>)
    requires |parts| == |sets| && forall i :: 0 <= i < |parts| ==> IsReadable(parse, parts[i], sets[i], i)
    ensures |ms| == |parts| && forall i :: 0 <= i < |parts| ==> FieldReads(parse, parts[i], ms[i], sets[i], i)
    decreases |parts|
  {
    ms := [];
    if parts != [] {
      var n := |parts| - 1;
      var init := ReadAll(parse, parts[..n], sets[..n]);
      assert IsReadable(parse, parts[n], sets[n], n);
      var m :| FieldReads(parse, parts[n], m, sets[n], n);
      ms := init + [m];
    }
  }

  lemma ReadTogether(parse: (nat, string) -> Result<Matcher>, parts: seq<string>, ms: seq<Matcher>, sets: seq<set<int>>, t: nat)
    requires |parts| == |ms| == |sets| == 5
    requires forall i :: 0 <= i < 5 ==> FieldReads(parse, parts[i], ms[i], sets[i], i)
    ensures ParseFields(parse, parts) == Ok(CronSpec(ms[0], ms[1], ms[2], ms[3], ms[4]))
    ensures ParseFields(parse, parts).value.Matches(t) <==> InFields(t, sets)
  {
    assert forall i :: 0 <= i < 5 ==> FieldReads(parse, parts[i], ms[i], sets[i], i);
    FiveFields(parse, parts, ms);
    MatchesMeans(ms, sets, t);
  }

  /** Which expressions are accepted: five fields, each a list of tokens within its own limits. */
  lemma CronAcceptedIff(expr: string)
    ensures ParseCron(expr).Ok? <==>
            |Fields(expr)| == 5 && forall i :: 0 <= i < 5 ==> IsSpelled(Fields(expr)[i], i)
  {
    var parts := Fields(expr);
    if |parts| == 5 {
      AllFieldsParse(FieldParser(), parts);
      forall i | 0 <= i < 5
        ensures FieldParser()(i, parts[i]).Ok? <==> IsSpelled(parts[i], i)
      {
        AcceptedIff(parts[i], Limits(i).0, Limits(i).1);
      }
    }
  }

  ghost predicate IsSpelled(raw: string, field: nat) {
    exists tokens :: Spells(raw, tokens, Limits(field).0, Limits(field).1)
  }

  lemma AllFieldsParse(parse: (nat, string) -> Result<Matcher>, parts: seq<string>)
    requires |parts| == 5
    ensures ParseFields(parse, parts).Ok? <==> forall i :: 0 <= i < 5 ==> parse(i, parts[i]).Ok?
  {
    assert (forall i :: 0 <= i < 5 ==> parse(i, parts[i]).Ok?) ==>
      parse(0, parts[0]).Ok? && parse(1, parts[1]).Ok? && parse(2, parts[2]).Ok? && parse(3, parts[3]).Ok? && parse(4, parts[4]).Ok?;
  }
}
