/** Parsing one field of a cron expression
    (agent_gateway/internal/runtime/scheduler/schedule.go, parseCronField).  Integers are Go's 64-bit ones. */
module Cron {
  import opened Text

  datatype Matcher = Matcher(any: bool, values: set<int>) {
    /** `fieldMatcher.match` */
    predicate Match(v: int) { any || v in values }
  }

  // ---------------------------------------------------------------- the range loop

  /** `value += step` on int64, for a positive step. */
  function Advance(value: int, step: int): int {
    if value + step > MAX_INT then value + step - 0x1_0000_0000_0000_0000 else value + step
  }

  /** The values the range loop can be at.  A step so large that adding it wraps sends the loop to a
      very negative value, from where it comes back below where it was. */
  predicate LoopState(value: int, end: int, step: int) {
    && 0 <= end <= 99 && 1 <= step <= MAX_INT
    && (step <= MAX_INT - end ==> value >= 0)
    && (step > MAX_INT - end ==>
          -200 <= value <= MAX_INT || (MIN_INT <= value < -200 && -200 <= value + step <= end))
  }

  function LoopMeasure(value: int, end: int, step: int): nat
    requires LoopState(value, end, step)
  {
    if value > end then 0
    else if step <= MAX_INT - end then end - value + 1
    else if value >= -200 then 2 * (value + 200) + 2
    else 2 * (value + step + 200) + 3
  }

  lemma AdvanceStays(value: int, end: int, step: int)
    requires LoopState(value, end, step) && value <= end
    ensures LoopState(Advance(value, step), end, step)
    ensures LoopMeasure(Advance(value, step), end, step) < LoopMeasure(value, end, step)
  {
  }

  /** What `for value := start; value <= end; value += step` collects. */
  function Collected(value: int, end: int, step: int): set<int>
    requires LoopState(value, end, step)
    decreases LoopMeasure(value, end, step)
  {
    if value > end then {}
    else
      AdvanceStays(value, end, step);
      {value} + Collected(Advance(value, step), end, step)
  }

  /** The values the notation start-end/step stands for. */
  function Progression(start: int, end: int, step: int): set<int>
    requires step > 0
  {
    set v | start <= v <= end && OnGrid(start, step, v)
  }

  predicate OnGrid(start: int, step: int, v: int)
    requires step > 0
  {
    (v - start) % step == 0
  }

  /** The last of them. */
  function LastOf(start: int, end: int, step: int): int
    requires step > 0
  {
    end - (end - start) % step
  }

  lemma {:induction false} CollectedWithoutWrap(value: int, end: int, step: int)
    requires LoopState(value, end, step) && step <= MAX_INT - end
    ensures Collected(value, end, step) == Progression(value, end, step)
    decreases LoopMeasure(value, end, step)
  {
    if value <= end {
      AdvanceStays(value, end, step);
      CollectedWithoutWrap(value + step, end, step);
      forall v
        ensures v in Progression(value, end, step) <==> v == value || v in Progression(value + step, end, step)
      {
        ProgressionStep(value, end, step, v);
      }
    }
  }

  lemma ProgressionStep(start: int, end: int, step: int, v: int)
    requires step > 0 && start <= end
    ensures v in Progression(start, end, step) <==> v == start || v in Progression(start + step, end, step)
  {
    if v >= start + step {
      ModStep(v - start - step, step);
    } else if start < v {
      assert (v - start) % step == v - start;
    }
  }

  lemma ModStep(x: nat, step: int)
    requires step > 0
    ensures (x + step) % step == x % step
  {
    var q := (x + step) / step - x / step - 1;
    assert q * step == x % step - (x + step) % step;
    Multiple(q, step);
  }

  lemma Multiple(k: int, d: int)
    requires d > 0
    ensures k >= 1 ==> k * d >= d
    ensures k <= -1 ==> k * d <= -d
  {
    if k >= 1 {
      assert k * d == (k - 1) * d + d && (k - 1) * d >= 0;
    } else if k <= -1 {
      assert k * d == (k + 1) * d - d && (k + 1) * d <= 0;
    }
  }

  /** The range loop collects what the notation stands for exactly when adding the step to the last
      value does not overflow. */
  lemma CollectedIsExact(start: int, end: int, step: int)
    requires 0 <= start <= end <= 99 && 1 <= step <= MAX_INT
    ensures Collected(start, end, step) == Progression(start, end, step)
       <==> LastOf(start, end, step) + step <= MAX_INT
  {
    if step <= MAX_INT - end {
      CollectedWithoutWrap(start, end, step);
    } else {
      CollectedOnce(start, end, step);
    }
  }

  lemma CollectedOnce(start: int, end: int, step: int)
    requires 0 <= start <= end <= 99 && MAX_INT - end < step <= MAX_INT
    ensures LastOf(start, end, step) == start && Progression(start, end, step) == {start}
    ensures Collected(start, end, step) == {start} <==> start + step <= MAX_INT
  {
    ProgressionOfOne(start, end, step);
    AdvanceStays(start, end, step);
    var next := Advance(start, step);
    assert Collected(start, end, step) == {start} + Collected(next, end, step);
    if start + step > MAX_INT {
      assert next in Collected(next, end, step);
    }
  }

  lemma ProgressionOfOne(start: int, end: int, step: int)
    requires 0 <= start <= end < start + step
    ensures LastOf(start, end, step) == start && Progression(start, end, step) == {start}
  {
    forall v | start <= v <= end
      ensures OnGrid(start, step, v) <==> v == start
    {
      SmallMod(v - start, step);
    }
    SmallMod(end - start, step);
  }

  lemma SmallMod(x: nat, d: int)
    requires x < d
    ensures x % d == x
  {
  }

  /** One overflowing field: "5/9223372036854775807" also matches 3 and 1. */
  lemma OverflowingStepMatchesMore()
    ensures {5, 3, 1} <= Collected(5, 5, MAX_INT) && 3 !in Progression(5, 5, MAX_INT)
  {
    var v1 := Advance(5, MAX_INT);
    assert Collected(5, 5, MAX_INT) == {5} + Collected(v1, 5, MAX_INT);
    assert Collected(v1, 5, MAX_INT) == {v1} + Collected(3, 5, MAX_INT);
    var v2 := Advance(3, MAX_INT);
    assert Collected(3, 5, MAX_INT) == {3} + Collected(v2, 5, MAX_INT);
    assert Collected(v2, 5, MAX_INT) == {v2} + Collected(1, 5, MAX_INT);
  }

  // ---------------------------------------------------------------- field syntax

  /** `strings.Cut`: what is before and after the first separator. */
  function Before(s: string, c: char): string { s[..IndexOf(s, c)] }

  function After(s: string, c: char): string {
    var i := IndexOf(s, c);
    if i < |s| then s[i + 1..] else []
  }

  datatype Bounds = Bounds(start: int, end: int, step: int)

  function ParseStep(token: string): Result<int> {
    if '/' !in token then Ok(1)
    else
      match Atoi(After(token, '/'))
      case Some(n) => if n <= 0 then Err("invalid step") else Ok(n)
      case None => Err("invalid step")
  }

  function ParseBase(base: string, minValue: int, maxValue: int): Result<(int, int)> {
    if base == "*" then Ok((minValue, maxValue))
    else if '-' in base then
      match (Atoi(Before(base, '-')), Atoi(After(base, '-')))
      case (Some(a), Some(b)) => Ok((a, b))
      case _ => Err("invalid syntax")
    else
      match Atoi(base)
      case Some(a) => Ok((a, a))
      case None => Err("invalid syntax")
  }

  /** One comma-separated token of a field. */
  function ParseToken(raw: string, minValue: int, maxValue: int): (r: Result<Bounds>)
    ensures r.Ok? ==> minValue <= r.value.start <= r.value.end <= maxValue && 1 <= r.value.step <= MAX_INT
  {
    var token := Trim(raw);
    if token == "" then Err("empty token")
    else
      match ParseStep(token)
      case Err(e) => Err(e)
      case Ok(step) =>
        match ParseBase(if '/' in token then Before(token, '/') else token, minValue, maxValue)
        case Err(e) => Err(e)
        case Ok((start, end)) =>
          if start < minValue || end > maxValue || start > end then Err("value out of range")
          else Ok(Bounds(start, end, step))
  }

  function ParseTokens(tokens: seq<string>, minValue: int, maxValue: int): Result<set<int>>
    requires 0 <= minValue <= maxValue <= 99
  {
    if tokens == [] then Ok({})
    else
      match ParseTokens(tokens[..|tokens| - 1], minValue, maxValue)
      case Err(e) => Err(e)
      case Ok(values) =>
        match ParseToken(tokens[|tokens| - 1], minValue, maxValue)
        case Err(e) => Err(e)
        case Ok(b) => Ok(values + Collected(b.start, b.end, b.step))
  }

  function ParseField(raw: string, minValue: int, maxValue: int): Result<Matcher>
    requires 0 <= minValue <= maxValue <= 99
  {
    if raw == "*" then Ok(Matcher(true, {}))
    else
      match ParseTokens(Split(raw, ','), minValue, maxValue)
      case Err(e) => Err(e)
      case Ok(values) => Ok(Matcher(false, values))
  }

  lemma {:induction false} ParseTokensFails(tokens: seq<string>, i: nat, minValue: int, maxValue: int)
    requires 0 <= minValue <= maxValue <= 99
    requires i <= |tokens| && ParseTokens(tokens[..i], minValue, maxValue).Err?
    ensures ParseTokens(tokens, minValue, maxValue) == ParseTokens(tokens[..i], minValue, maxValue)
    decreases |tokens|
  {
    if i == |tokens| {
      assert tokens[..i] == tokens;
    } else {
      assert tokens[..|tokens| - 1][..i] == tokens[..i];
      ParseTokensFails(tokens[..|tokens| - 1], i, minValue, maxValue);
    }
  }

  method CollectRange(b: Bounds, before: set<int>) returns (values: set<int>)
    requires 0 <= b.start <= b.end <= 99 && 1 <= b.step <= MAX_INT
    ensures values == before + Collected(b.start, b.end, b.step)
  {
    values := before;
    var value := b.start;
    while value <= b.end
      invariant LoopState(value, b.end, b.step)
      invariant before + Collected(b.start, b.end, b.step) == values + Collected(value, b.end, b.step)
      decreases LoopMeasure(value, b.end, b.step)
    {
      AdvanceStays(value, b.end, b.step);
      values := values + {value};
      value := Advance(value, b.step);
    }
  }

  lemma NextToken(tokens: seq<string>, i: nat, minValue: int, maxValue: int, before: set<int>)
    requires 0 <= minValue <= maxValue <= 99 && i < |tokens|
    requires ParseTokens(tokens[..i], minValue, maxValue) == Ok(before)
    requires ParseToken(tokens[i], minValue, maxValue).Ok?
    ensures var b := ParseToken(tokens[i], minValue, maxValue).value;
      ParseTokens(tokens[..i + 1], minValue, maxValue) == Ok(before + Collected(b.start, b.end, b.step))
  {
    assert tokens[..i + 1][..i] == tokens[..i];
  }

  lemma TokenFails(tokens: seq<string>, i: nat, minValue: int, maxValue: int)
    requires 0 <= minValue <= maxValue <= 99 && i < |tokens|
    requires ParseTokens(tokens[..i], minValue, maxValue).Ok?
    requires ParseToken(tokens[i], minValue, maxValue).Err?
    ensures ParseTokens(tokens, minValue, maxValue) == Err(ParseToken(tokens[i], minValue, maxValue).message)
  {
    assert tokens[..i + 1][..i] == tokens[..i];
    ParseTokensFails(tokens, i + 1, minValue, maxValue);
  }

  /** `parseCronField` as the source runs it: a loop over the tokens, and per token the range loop. */
  method ParseCronField(raw: string, minValue: int, maxValue: int) returns (r: Result<Matcher>)
    requires 0 <= minValue <= maxValue <= 99
    ensures r == ParseField(raw, minValue, maxValue)
  {
    if raw == "*" {
      return Ok(Matcher(true, {}));
    }
    var values: set<int> := {};
    var tokens := Split(raw, ',');
    for i := 0 to |tokens|
      invariant ParseTokens(tokens[..i], minValue, maxValue) == Ok(values)
    {
      var parsed := ParseToken(tokens[i], minValue, maxValue);
      if parsed.Err? {
        TokenFails(tokens, i, minValue, maxValue);
        return Err(parsed.message);
      }
      NextToken(tokens, i, minValue, maxValue, values);
      values := CollectRange(parsed.value, values);
    }
    assert tokens[..|tokens|] == tokens;
    return Ok(Matcher(false, values));
  }

  // ---------------------------------------------------------------- what field text means

  datatype Base = All | One(n: nat) | Span(lo: nat, hi: nat)

  /** One item of a field: `*`, `n` or `lo-hi`, each with an optional `/step`. */
  datatype Item = Item(base: Base, step: Option<nat>)

  function PrintBase(b: Base): string {
    match b
    case All => "*"
    case One(n) => Itoa(n)
    case Span(lo, hi) => Itoa(lo) + "-" + Itoa(hi)
  }

  function PrintItem(item: Item): string {
    PrintBase(item.base) + if item.step.Some? then "/" + Itoa(item.step.value) else ""
  }

  function PrintItems(items: seq<Item>): seq<string> {
    if items == [] then [] else PrintItems(items[..|items| - 1]) + [PrintItem(items[|items| - 1])]
  }

  function ItemBounds(item: Item, minValue: int, maxValue: int): Bounds {
    var step := if item.step.Some? then item.step.value else 1;
    match item.base
    case All => Bounds(minValue, maxValue, step)
    case One(n) => Bounds(n, n, step)
    case Span(lo, hi) => Bounds(lo, hi, step)
  }

  /** An item within the field's limits, whose step does not overflow. */
  predicate IsItem(item: Item, minValue: int, maxValue: int) {
    var b := ItemBounds(item, minValue, maxValue);
    && minValue <= b.start <= b.end <= maxValue && 1 <= b.step <= MAX_INT
    && LastOf(b.start, b.end, b.step) + b.step <= MAX_INT
  }

  function Denotes(item: Item, minValue: int, maxValue: int): set<int>
    requires IsItem(item, minValue, maxValue)
  {
    var b := ItemBounds(item, minValue, maxValue);
    Progression(b.start, b.end, b.step)
  }

  lemma PrintedBase(b: Base)
    ensures IsWord(PrintBase(b)) && '/' !in PrintBase(b) && ',' !in PrintBase(b)
  {
    match b
    case All =>
    case One(n) => DigitsOnly(n);
    case Span(lo, hi) =>
      DigitsOnly(lo);
      DigitsOnly(hi);
  }

  lemma DigitsOnly(n: nat)
    ensures forall c :: c in Itoa(n) ==> !IsSpace(c) && c !in {'*', '-', '/', ','}
    ensures IsWord(Itoa(n))
  {
    assert forall c :: c in Itoa(n) ==> IsDigit(c);
  }

  lemma PrintedItem(item: Item)
    ensures IsWord(PrintItem(item)) && ',' !in PrintItem(item)
  {
    PrintedBase(item.base);
    if item.step.Some? {
      DigitsOnly(item.step.value);
    }
  }

  lemma CutPrinted(s: string, c: char, rest: string)
    requires c !in s
    ensures Before(s + [c] + rest, c) == s && After(s + [c] + rest, c) == rest
  {
    var all := s + [c] + rest;
    assert all[|s|] == c && all[..|s|] == s && all[|s| + 1..] == rest;
    IndexOfIsFirst(all, c, |s|);
  }

  lemma BaseRoundTrip(b: Base, minValue: int, maxValue: int)
    requires IsItem(Item(b, None), minValue, maxValue) && 0 <= minValue <= maxValue <= 99
    ensures var bounds := ItemBounds(Item(b, None), minValue, maxValue);
      ParseBase(PrintBase(b), minValue, maxValue) == Ok((bounds.start, bounds.end))
  {
    match b
    case All =>
    case One(n) =>
      DigitsOnly(n);
      AtoiItoa(n);
      assert Itoa(n) != "*" by { assert Itoa(n)[0] in Itoa(n); }
    case Span(lo, hi) =>
      DigitsOnly(lo);
      AtoiItoa(lo);
      AtoiItoa(hi);
      CutPrinted(Itoa(lo), '-', Itoa(hi));
      assert PrintBase(b) != "*" by { assert '-' in PrintBase(b); }
  }

  lemma TrimWord(w: string)
    requires IsWord(w)
    ensures Trim(w) == w && w != ""
  {
    assert w[0] in w && w[|w| - 1] in w;
  }

  lemma TokenRoundTrip(item: Item, minValue: int, maxValue: int)
    requires IsItem(item, minValue, maxValue) && 0 <= minValue <= maxValue <= 99
    ensures ParseToken(PrintItem(item), minValue, maxValue) == Ok(ItemBounds(item, minValue, maxValue))
  {
    PrintedItem(item);
    TrimWord(PrintItem(item));
    StepRoundTrip(item);
    BaseRoundTrip(item.base, minValue, maxValue);
  }

  /** The step of a printed item is read back, and what is left of it is its base. */
  lemma StepRoundTrip(item: Item)
    requires item.step.Some? ==> 1 <= item.step.value <= MAX_INT
    ensures ParseStep(PrintItem(item)) == Ok(if item.step.Some? then item.step.value else 1)
    ensures var token := PrintItem(item);
            (if '/' in token then Before(token, '/') else token) == PrintBase(item.base)
  {
    PrintedBase(item.base);
    if item.step.Some? {
      AtoiItoa(item.step.value);
      CutPrinted(PrintBase(item.base), '/', Itoa(item.step.value));
      assert PrintItem(item) == PrintBase(item.base) + ['/'] + Itoa(item.step.value);
    } else {
      assert PrintItem(item) == PrintBase(item.base);
    }
  }

  /** The union of what the items denote. */
  function Union(items: seq<Item>, minValue: int, maxValue: int): (r: set<int>)
    requires forall i :: 0 <= i < |items| ==> IsItem(items[i], minValue, maxValue)
  {
    if items == [] then {}
    else Union(items[..|items| - 1], minValue, maxValue) + Denotes(items[|items| - 1], minValue, maxValue)
  }

  lemma {:induction false} TokensRoundTrip(items: seq<Item>, minValue: int, maxValue: int)
    requires 0 <= minValue <= maxValue <= 99
    requires forall i :: 0 <= i < |items| ==> IsItem(items[i], minValue, maxValue)
    ensures ParseTokens(PrintItems(items), minValue, maxValue) == Ok(Union(items, minValue, maxValue))
    decreases |items|
  {
    if items != [] {
      TokensRoundTrip(items[..|items| - 1], minValue, maxValue);
      AppendToken(PrintItems(items[..|items| - 1]), items[|items| - 1], minValue, maxValue);
    }
  }

  lemma AppendToken(tokens: seq<string>, item: Item, minValue: int, maxValue: int)
    requires 0 <= minValue <= maxValue <= 99 && IsItem(item, minValue, maxValue)
    requires ParseTokens(tokens, minValue, maxValue).Ok?
    ensures ParseTokens(tokens + [PrintItem(item)], minValue, maxValue)
         == Ok(ParseTokens(tokens, minValue, maxValue).value + Denotes(item, minValue, maxValue))
  {
    TokenRoundTrip(item, minValue, maxValue);
    var b := ItemBounds(item, minValue, maxValue);
    CollectedIsExact(b.start, b.end, b.step);
    var all := tokens + [PrintItem(item)];
    assert all[..|all| - 1] == tokens && all[|all| - 1] == PrintItem(item);
  }

  lemma {:induction false} PrintItemsWords(items: seq<Item>)
    ensures |PrintItems(items)| == |items|
    ensures forall p :: p in PrintItems(items) ==> ',' !in p
    decreases |items|
  {
    if items != [] {
      PrintItemsWords(items[..|items| - 1]);
      PrintedItem(items[|items| - 1]);
    }
  }

  /** Parsing the text of a list of items gives a matcher for exactly the union of what they denote. */
  lemma FieldRoundTrip(items: seq<Item>, minValue: int, maxValue: int)
    requires 0 <= minValue <= maxValue <= 99 && items != []
    requires forall i :: 0 <= i < |items| ==> IsItem(items[i], minValue, maxValue)
    ensures var r := ParseField(Join(PrintItems(items), ','), minValue, maxValue);
      r.Ok? && forall v :: minValue <= v <= maxValue ==> (r.value.Match(v) <==> v in Union(items, minValue, maxValue))
  {
    PrintItemsWords(items);
    SplitJoin(PrintItems(items), ',');
    TokensRoundTrip(items, minValue, maxValue);
    var text := Join(PrintItems(items), ',');
    if text == "*" {
      IndexOfSingle('*', ',');
      OnlyStar(items);
      StarDenotesAll(minValue, maxValue);
    }
  }

  lemma IndexOfSingle(c: char, sep: char)
    requires c != sep
    ensures Split([c], sep) == [[c]]
  {
    IndexOfAbsent([c], sep);
  }

  lemma StarDenotesAll(minValue: int, maxValue: int)
    requires 0 <= minValue <= maxValue <= 99 && IsItem(Item(All, None), minValue, maxValue)
    ensures forall v :: minValue <= v <= maxValue ==> v in Union([Item(All, None)], minValue, maxValue)
  {
    var items := [Item(All, None)];
    assert items[..0] == [];
    assert forall v :: OnGrid(minValue, 1, v);
  }

  lemma OnlyStar(items: seq<Item>)
    requires PrintItems(items) == ["*"]
    ensures items == [Item(All, None)]
  {
    PrintItemsWords(items);
    var item := items[0];
    assert items[..0] == [];
    assert PrintItems(items) == PrintItems(items[..0]) + [PrintItem(item)];
    assert PrintItem(item) == PrintItems(items)[0] == "*";
    FirstOfBase(item.base);
    assert PrintItem(item)[0] == PrintBase(item.base)[0];
    assert |PrintItem(item)| == 1;
    assert items == [item];
  }

  lemma FirstOfBase(b: Base)
    ensures PrintBase(b) != "" && (PrintBase(b)[0] == '*' <==> b == All)
  {
    match b
    case All =>
    case One(n) => assert Itoa(n)[0] in Itoa(n);
    case Span(lo, hi) => assert Itoa(lo)[0] in Itoa(lo);
  }
}
