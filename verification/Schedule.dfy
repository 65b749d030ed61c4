/** Cron expressions, the next run of a schedule, and what a finished run does to its task
    (agent_gateway/internal/runtime/scheduler/schedule.go, runner.go).  Instants are nanoseconds since
    the start of year 1 in one fixed zone whose offset is a whole number of minutes. */
module Schedule {
  import opened Text
  import opened Calendar
  import opened Cron
  import opened Search

  const MILLISECOND := 1_000_000

  // ---------------------------------------------------------------- cron expressions

  datatype CronSpec = CronSpec(minute: Matcher, hour: Matcher, dayOfMonth: Matcher, month: Matcher, weekday: Matcher) {
    /** All five fields must match: day of month and weekday are both required. */
    predicate Matches(t: nat) {
      var d := DateOf(DayOf(t));
      && minute.Match(MinuteOfHour(t)) && hour.Match(HourOfDay(t))
      && dayOfMonth.Match(d.day) && month.Match(d.month) && weekday.Match(Weekday(t))
    }
  }

  /** The limits of the five fields, in order. */
  function Limits(field: nat): (l: (int, int))
    ensures 0 <= l.0 <= l.1 <= 99
  {
    match field
    case 0 => (0, 59)
    case 1 => (0, 23)
    case 2 => (1, 31)
    case 3 => (1, 12)
    case _ => (0, 6)
  }

  function FieldParser(): (nat, string) -> Result<Matcher> {
    (field: nat, raw: string) => ParseField(raw, Limits(field).0, Limits(field).1)
  }

  function ParseFields(parse: (nat, string) -> Result<Matcher>, parts: seq<string>): Result<CronSpec>
    requires |parts| == 5
  {
    match parse(0, parts[0]) case Err(e) => Err("minute: " + e) case Ok(minute) =>
    match parse(1, parts[1]) case Err(e) => Err("hour: " + e) case Ok(hour) =>
    match parse(2, parts[2]) case Err(e) => Err("day of month: " + e) case Ok(day) =>
    match parse(3, parts[3]) case Err(e) => Err("month: " + e) case Ok(month) =>
    match parse(4, parts[4]) case Err(e) => Err("weekday: " + e) case Ok(weekday) =>
    Ok(CronSpec(minute, hour, day, month, weekday))
  }

  function ParseCron(expr: string): Result<CronSpec> {
    var parts := Fields(expr);
    if |parts| != 5 then Err("cron expression must have 5 fields") else ParseFields(FieldParser(), parts)
  }

  // ---------------------------------------------------------------- the search

  function HitOf(spec: CronSpec): nat -> bool {
    (t: nat) => spec.Matches(t)
  }

  /** Where the search ends: two calendar years after its first minute. */
  function SearchLimit(after: nat): nat { AddYears(FirstMinute(after), 2) }

  function NextMinute(spec: CronSpec, after: nat): Option<nat> {
    FirstHit(HitOf(spec), FirstMinute(after), SearchLimit(after))
  }

  const NOT_FOUND := "cron next run not found within two years"

  /** `nextCron` as a function, in minutes. */
  function CronMinute(expr: string, after: nat): Result<nat> {
    match ParseCron(expr)
    case Err(e) => Err(e)
    case Ok(spec) =>
      match NextMinute(spec, after)
      case None => Err(NOT_FOUND)
      case Some(t) => Ok(t)
  }

  /** `nextCron` as the source runs it: the cursor loop. */
  method NextCron(expr: string, after: nat) returns (r: Result<nat>)
    ensures r == match CronMinute(expr, after) { case Ok(t) => Ok(t * MINUTE) case Err(e) => Err(e) }
  {
    var spec := ParseCron(expr);
    if spec.Err? {
      return Err(spec.message);
    }
    var found := Scan(HitOf(spec.value), FirstMinute(after), SearchLimit(after));
    if found.Some? {
      return Ok(found.value * MINUTE);
    }
    return Err(NOT_FOUND);
  }

  method Scan(hit: nat -> bool, from: nat, limit: nat) returns (r: Option<nat>)
    ensures r == FirstHit(hit, from, limit)
  {
    var cursor := from;
    while cursor < limit
      invariant from <= cursor
      invariant FirstHit(hit, from, limit) == FirstHit(hit, cursor, limit)
    {
      if hit(cursor) {
        return Some(cursor);
      }
      cursor := cursor + 1;
    }
    return None;
  }

  /** The cron search is exact: it answers the least whole minute strictly after the instant whose
      fields all match and which lies within two calendar years, and it fails exactly when the
      expression is malformed or there is none. */
  lemma CronSearchIsExact(expr: string, after: nat)
    ensures var r := CronMinute(expr, after);
      && (r.Ok? ==> ParseCron(expr).Ok? && IsNextHit(HitOf(ParseCron(expr).value), after, r.value)
                    && r.value < SearchLimit(after))
      && (r.Err? <==> ParseCron(expr).Err?
                      || forall t: nat :: after < t * MINUTE && t < SearchLimit(after) ==>
                           !HitOf(ParseCron(expr).value)(t))
  {
    if ParseCron(expr).Ok? {
      HitsWithin(HitOf(ParseCron(expr).value), after, SearchLimit(after));
    }
  }

  lemma HitsWithin(hit: nat -> bool, after: nat, limit: nat)
    ensures var r := FirstHit(hit, FirstMinute(after), limit);
      && (r.Some? ==> IsNextHit(hit, after, r.value) && r.value < limit)
      && (r.None? <==> forall t: nat :: after < t * MINUTE && t < limit ==> !hit(t))
  {
  }

  /** The search interval is never empty. */
  lemma SearchIsNonempty(after: nat)
    ensures FirstMinute(after) < SearchLimit(after)
  {
    AddYearsIsLater(FirstMinute(after), 2);
  }

  /** Asking again and again from the previous answer enumerates every matching minute in order. */
  lemma CronEnumerates(expr: string, after: nat, n: nat)
    requires ParseCron(expr).Ok?
    ensures Enumerates(HitOf(ParseCron(expr).value), after, Iterated(NextOf(expr), after, n))
  {
    forall a | NextOf(expr)(a).Some?
      ensures IsNextHit(HitOf(ParseCron(expr).value), a, NextOf(expr)(a).value)
    {
      CronSearchIsExact(expr, a);
    }
    IterationEnumerates(HitOf(ParseCron(expr).value), NextOf(expr), after, n);
  }

  function NextOf(expr: string): nat -> Option<nat> {
    (a: nat) => match CronMinute(expr, a) { case Ok(t) => Some(t) case Err(_) => None }
  }

  // ---------------------------------------------------------------- what an expression means

  function FieldText(items: seq<Item>): string { Join(PrintItems(items), ',') }

  ghost predicate AreItems(items: seq<Item>, minValue: int, maxValue: int) {
    items != [] && forall i :: 0 <= i < |items| ==> IsItem(items[i], minValue, maxValue)
  }

  lemma {:induction false} JoinedWord(parts: seq<string>)
    requires parts != [] && forall p :: p in parts ==> IsWord(p)
    ensures IsWord(Join(parts, ','))
    decreases |parts|
  {
    assert parts[0] in parts;
    if |parts| > 1 {
      JoinedWord(parts[1..]);
    }
  }

  lemma {:induction false} PrintedAreWords(items: seq<Item>)
    ensures |PrintItems(items)| == |items| && forall p :: p in PrintItems(items) ==> IsWord(p)
    decreases |items|
  {
    if items != [] {
      PrintedAreWords(items[..|items| - 1]);
      PrintedItem(items[|items| - 1]);
    }
  }

  /** Within a field's limits the matcher accepts exactly the values of a set. */
  ghost predicate Means(m: Matcher, values: set<int>, field: nat) {
    forall v :: Limits(field).0 <= v <= Limits(field).1 ==> (m.Match(v) <==> v in values)
  }

  /** What a list of items denotes in a field: the union over its items. */
  ghost function Meaning(items: seq<Item>, field: nat): set<int>
    requires IsField(items, field)
  {
    Union(items, Limits(field).0, Limits(field).1)
  }

  ghost predicate IsField(items: seq<Item>, field: nat) {
    AreItems(items, Limits(field).0, Limits(field).1)
  }

  lemma FieldMeans(items: seq<Item>, field: nat) returns (text: string, m: Matcher, values: set<int>)
    requires IsField(items, field)
    ensures text == FieldText(items) && IsWord(text) && values == Meaning(items, field)
    ensures FieldParser()(field, text) == Ok(m) && Means(m, values, field)
  {
    var (lo, hi) := Limits(field);
    PrintedAreWords(items);
    JoinedWord(PrintItems(items));
    FieldRoundTrip(items, lo, hi);
    text, values := FieldText(items), Union(items, lo, hi);
    m := FieldParser()(field, text).value;
  }

  lemma ClockRanges(t: nat)
    ensures 0 <= MinuteOfHour(t) <= 59 && 0 <= HourOfDay(t) <= 23 && 0 <= Weekday(t) <= 6
    ensures var d := DateOf(DayOf(t)); 1 <= d.day <= 31 && 1 <= d.month <= 12
  {
  }

  /** The minute's five clock fields lie in the five sets. */
  ghost predicate InFields(t: nat, sets: seq<set<int>>)
    requires |sets| == 5
  {
    var d := DateOf(DayOf(t));
    && MinuteOfHour(t) in sets[0] && HourOfDay(t) in sets[1]
    && d.day in sets[2] && d.month in sets[3] && Weekday(t) in sets[4]
  }

  lemma MatchesMeans(ms: seq<Matcher>, sets: seq<set<int>>, t: nat)
    requires |ms| == 5 == |sets| && forall i :: 0 <= i < 5 ==> Means(ms[i], sets[i], i)
    ensures CronSpec(ms[0], ms[1], ms[2], ms[3], ms[4]).Matches(t) <==> InFields(t, sets)
  {
    assert Means(ms[0], sets[0], 0) && Means(ms[1], sets[1], 1) && Means(ms[2], sets[2], 2);
    assert Means(ms[3], sets[3], 3) && Means(ms[4], sets[4], 4);
    ClockRanges(t);
  }

  lemma FiveFields(parse: (nat, string) -> Result<Matcher>, parts: seq<string>, ms: seq<Matcher>)
    requires |parts| == 5 == |ms| && forall i :: 0 <= i < 5 ==> parse(i, parts[i]) == Ok(ms[i])
    ensures ParseFields(parse, parts) == Ok(CronSpec(ms[0], ms[1], ms[2], ms[3], ms[4]))
  {
    assert parse(0, parts[0]) == Ok(ms[0]) && parse(1, parts[1]) == Ok(ms[1]) && parse(2, parts[2]) == Ok(ms[2]);
    assert parse(3, parts[3]) == Ok(ms[3]) && parse(4, parts[4]) == Ok(ms[4]);
  }

  ghost predicate AreFields(lists: seq<seq<Item>>) {
    |lists| <= 5 && forall i :: 0 <= i < |lists| ==> IsField(lists[i], i)
  }

  function FieldTexts(lists: seq<seq<Item>>): (r: seq<string>)
    ensures |r| == |lists|
  {
    if lists == [] then [] else FieldTexts(lists[..|lists| - 1]) + [FieldText(lists[|lists| - 1])]
  }

  ghost function Meanings(lists: seq<seq<Item>>): (r: seq<set<int>>)
    requires AreFields(lists)
    ensures |r| == |lists|
  {
    if lists == [] then []
    else Meanings(lists[..|lists| - 1]) + [Meaning(lists[|lists| - 1], |lists| - 1)]
  }

  ghost predicate FieldOk(parse: (nat, string) -> Result<Matcher>, text: string, m: Matcher, values: set<int>, i: nat) {
    parse(i, text) == Ok(m) && IsWord(text) && i < 5 && Means(m, values, i)
  }

  ghost predicate FieldsOk(parse: (nat, string) -> Result<Matcher>, texts: seq<string>, ms: seq<Matcher>, sets: seq<set<int>>) {
    |texts| == |ms| == |sets| && forall i :: 0 <= i < |ms| ==> FieldOk(parse, texts[i], ms[i], sets[i], i)
  }

  lemma FieldsPush(parse: (nat, string) -> Result<Matcher>, texts: seq<string>, ms: seq<Matcher>, sets: seq<set<int>>,
                   text: string, m: Matcher, values: set<int>)
    requires FieldsOk(parse, texts, ms, sets) && FieldOk(parse, text, m, values, |ms|)
    ensures FieldsOk(parse, texts + [text], ms + [m], sets + [values])
  {
  }

  lemma {:induction false} FieldsMean(lists: seq<seq<Item>>) returns (ms: seq<Matcher>)
    requires AreFields(lists)
    ensures FieldsOk(FieldParser(), FieldTexts(lists), ms, Meanings(lists))
    decreases |lists|
  {
    ms := [];
    if lists != [] {
      var n := |lists| - 1;
      var init := FieldsMean(lists[..n]);
      var text, m, values := FieldMeans(lists[n], n);
      FieldsPush(FieldParser(), FieldTexts(lists[..n]), init, Meanings(lists[..n]), text, m, values);
      ms := init + [m];
    }
  }

  /** The text of five item lists parses, and the result matches a minute exactly when each of its
      five clock fields is in the set its list denotes. */
  lemma CronTextMeans(lists: seq<seq<Item>>, t: nat)
    requires |lists| == 5 && AreFields(lists)
    ensures
      var spec := ParseCron(Join(FieldTexts(lists), ' '));
      spec.Ok? && (spec.value.Matches(t) <==> InFields(t, Meanings(lists)))
  {
    var ms := FieldsMean(lists);
    ParsedMeans(FieldTexts(lists), ms, Meanings(lists), t);
  }

  lemma ParsedSpec(parse: (nat, string) -> Result<Matcher>, texts: seq<string>, ms: seq<Matcher>)
    requires parse == FieldParser() && |texts| == 5 == |ms|
    requires forall i :: 0 <= i < 5 ==> parse(i, texts[i]) == Ok(ms[i]) && IsWord(texts[i])
    ensures ParseCron(Join(texts, ' ')) == Ok(CronSpec(ms[0], ms[1], ms[2], ms[3], ms[4]))
  {
    FieldsJoin(texts);
    FiveFields(parse, texts, ms);
  }

  lemma ParsedMeans(texts: seq<string>, ms: seq<Matcher>, sets: seq<set<int>>, t: nat)
    requires |texts| == 5 && FieldsOk(FieldParser(), texts, ms, sets)
    ensures var spec := ParseCron(Join(texts, ' ')); spec.Ok? && (spec.value.Matches(t) <==> InFields(t, sets))
  {
    assert forall i :: 0 <= i < 5 ==> FieldOk(FieldParser(), texts[i], ms[i], sets[i], i);
    ParsedSpec(FieldParser(), texts, ms);
    MatchesMeans(ms, sets, t);
  }

  // ---------------------------------------------------------------- the limits are the clock's

  /** The five clock fields of a minute. */
  function ClockField(t: nat, field: nat): int {
    match field
    case 0 => MinuteOfHour(t)
    case 1 => HourOfDay(t)
    case 2 => DateOf(DayOf(t)).day
    case 3 => DateOf(DayOf(t)).month
    case _ => Weekday(t)
  }

  lemma DayHasDate(d: Date) returns (t: nat)
    requires IsDate(d)
    ensures DateOf(DayOf(t)) == d
  {
    t := DayNumber(d) * 1440 + 0;
    DayAndMinute(DayNumber(d), 0);
    DateRoundTrip(d);
  }

  /** A field's limits are exactly the values its clock field takes: every value within them occurs at some
      minute, and no other ever does. */
  lemma LimitsAreTheClocks(field: nat, v: int)
    requires field < 5
    ensures Limits(field).0 <= v <= Limits(field).1 <==> exists t: nat :: ClockField(t, field) == v
  {
    if t: nat :| ClockField(t, field) == v {
      ClockRanges(t);
    }
    if Limits(field).0 <= v <= Limits(field).1 {
      var t := ClockShows(field, v);
      assert ClockField(t, field) == v;
    }
  }

  lemma ClockShows(field: nat, v: int) returns (t: nat)
    requires field < 5 && Limits(field).0 <= v <= Limits(field).1
    ensures ClockField(t, field) == v
  {
    match field
    case 0 => t := v;
    case 1 => t := v * 60;
    case 2 => t := DayHasDate(Date(1, 1, v));
    case 3 => t := DayHasDate(Date(1, v, 1));
    case 4 => t := DayWithWeekday(v);
  }

  lemma DayWithWeekday(v: nat) returns (t: nat)
    requires v <= 6
    ensures Weekday(t) == v
  {
    t := (v + 6) * 1440;
    assert DayOf(t) == v + 6;
  }

  /** The search goes on for two years: to the same date and time two years after its first minute, unless
      that is a 29 February. */
  lemma SearchGoesTwoYears(after: nat)
    requires var d := DateOf(DayOf(FirstMinute(after))); IsDate(d.(year := d.year + 2))
    ensures var d := DateOf(DayOf(FirstMinute(after)));
            && DateOf(DayOf(SearchLimit(after))) == d.(year := d.year + 2)
            && SearchLimit(after) % 1440 == FirstMinute(after) % 1440
  {
    YearsLaterIs(FirstMinute(after), 2);
  }

  // ---------------------------------------------------------------- schedules and completions

  datatype Kind = AtTime | Every | CronExpr | Unknown

  /** `at` and `every` are nanoseconds. */
  datatype Plan = Plan(kind: Kind, at: Option<nat>, every: int, cron: string)

  /** A next-minute search: `nextCron` is `CronSearch()`. */
  type CronFinder = (string, nat) -> Result<nat>

  function CronSearch(): CronFinder {
    (expr: string, after: nat) => CronMinute(expr, after)
  }

  ghost predicate FindsLater(search: CronFinder) {
    forall expr: string, after: nat :: search(expr, after).Ok? ==> after < search(expr, after).value * MINUTE
  }

  lemma CronSearchFindsLater()
    ensures FindsLater(CronSearch())
  {
    forall expr: string, after: nat
      ensures CronSearch()(expr, after).Ok? ==> after < CronSearch()(expr, after).value * MINUTE
    {
      CronSearchIsExact(expr, after);
    }
  }

  /** The outer option is the error, the inner one a schedule with no further run. */
  function NextRun(search: CronFinder, plan: Plan, after: nat): Result<Option<nat>> {
    match plan.kind
    case AtTime =>
      if plan.at.None? then Err("at schedule missing time")
      else if plan.at.value > after then Ok(plan.at) else Ok(None)
    case Every =>
      if plan.every <= 0 then Err("every schedule must be positive") else Ok(Some(after + plan.every))
    case CronExpr =>
      (match search(plan.cron, after) case Ok(t) => Ok(Some(t * MINUTE)) case Err(e) => Err(e))
    case Unknown => Err("unknown schedule kind")
  }

  /** What the store is told about a finished run. */
  datatype Completion = Completion(status: string, next: Option<nat>, disable: bool, delete: bool)

  /** `Runner.Run` once the agent has returned, at `finished`. */
  function Complete(search: CronFinder, plan: Plan, deleteAfterRun: bool, ok: bool, finished: nat): Completion {
    var status := if ok then "ok" else "error";
    if plan.kind == AtTime then Completion(status, None, !deleteAfterRun, deleteAfterRun)
    else
      match NextRun(search, plan, finished)
      case Ok(next) => Completion(status, next, false, false)
      case Err(_) => Completion("error", None, false, false)
  }

  /** Every schedule's next run is strictly later than the instant it is computed from. */
  lemma NextRunIsLater(search: CronFinder, plan: Plan, after: nat)
    requires FindsLater(search)
    ensures var r := NextRun(search, plan, after); r.Ok? && r.value.Some? ==> r.value.value > after
  {
    assert search(plan.cron, after).Ok? ==> after < search(plan.cron, after).value * MINUTE;
  }

  /** A completion reschedules strictly after its finish time or not at all, and it disables or
      deletes exactly the one-time tasks. */
  lemma CompletionIsLater(search: CronFinder, plan: Plan, deleteAfterRun: bool, ok: bool, finished: nat)
    requires FindsLater(search)
    ensures var c := Complete(search, plan, deleteAfterRun, ok, finished);
      && (c.next.Some? ==> c.next.value > finished)
      && (c.disable || c.delete <==> plan.kind == AtTime)
      && !(c.disable && c.delete)
      && (plan.kind == AtTime ==> c.next.None?)
      && (plan.kind == Every && plan.every > 0 ==> c.next == Some(finished + plan.every))
  {
    NextRunIsLater(search, plan, finished);
  }

  /** The cron plan of a task gets exactly what the search is for: the least minute strictly after the
      instant at which all five fields match, or an error, exactly when the expression is malformed or
      there is none before the limit. */
  lemma CronPlanIsNextHit(plan: Plan, after: nat)
    requires plan.kind == CronExpr
    ensures var r, spec := NextRun(CronSearch(), plan, after), ParseCron(plan.cron);
      && (r.Ok? ==> spec.Ok? && r.value.Some? && exists t: nat :: IsRunAt(spec.value, after, t, r.value.value))
      && (r.Err? <==> spec.Err? || forall t: nat :: after < t * MINUTE && t < SearchLimit(after) ==> !HitOf(spec.value)(t))
  {
    CronSearchIsExact(plan.cron, after);
    var found := CronMinute(plan.cron, after);
    if found.Ok? {
      assert IsRunAt(ParseCron(plan.cron).value, after, found.value, found.value * MINUTE);
    }
  }

  /** The instant is minute `t`, the first hit after `after`, and lies before the limit. */
  ghost predicate IsRunAt(spec: CronSpec, after: nat, t: nat, instant: nat) {
    instant == t * MINUTE && IsNextHit(HitOf(spec), after, t) && t < SearchLimit(after)
  }

  /** The other plans: an `at` plan answers its own time if and only if that is later, an `every` plan the
      end of its period, and a plan without time, period or known kind is an error. */
  lemma OtherPlansAnswer(search: CronFinder, plan: Plan, after: nat)
    requires plan.kind != CronExpr
    ensures var r := NextRun(search, plan, after);
      && (r.Ok? && r.value.Some? <==>
            || (plan.kind == AtTime && plan.at.Some? && plan.at.value > after)
            || (plan.kind == Every && plan.every > 0))
      && (r.Err? <==> !(plan.kind == AtTime && plan.at.Some?) && !(plan.kind == Every && plan.every > 0))
      && (r.Ok? && r.value.Some? ==> r.value.value == if plan.kind == AtTime then plan.at.value else after + plan.every)
  {
  }

  /** A finished `at` task is deleted if and only if it asks for that and disabled otherwise, other tasks are
      neither; and a run counts as ok if and only if the agent did well and a next run, if one is due, could
      be computed. */
  lemma CompletionIs(search: CronFinder, plan: Plan, deleteAfterRun: bool, ok: bool, finished: nat)
    ensures var c := Complete(search, plan, deleteAfterRun, ok, finished);
      && (c.delete <==> plan.kind == AtTime && deleteAfterRun)
      && (c.disable <==> plan.kind == AtTime && !deleteAfterRun)
      && (c.status == "ok" <==> ok && (plan.kind == AtTime || NextRun(search, plan, finished).Ok?))
      && (c.status == "ok" || c.status == "error")
  {
  }

  /** The store keeps whole milliseconds.  What it keeps for an `every` task is still later than the
      finish time exactly when the period reaches the next millisecond; a cron minute is kept whole. */
  lemma StoredNextRun(finished: nat, every: nat)
    requires every > 0
    ensures var stored := (finished + every) / MILLISECOND * MILLISECOND;
      stored > finished <==> finished % MILLISECOND + every >= MILLISECOND
  {
  }

  lemma StoredMinute(t: nat)
    ensures t * MINUTE / MILLISECOND * MILLISECOND == t * MINUTE
  {
  }
}
