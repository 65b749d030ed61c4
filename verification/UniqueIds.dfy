/** Unique ids for the lists in the chat client's settings
    (agent_chat/internal/bridge/settings.go): the allocator with its counters, what it computes without
    them, and the four list normalisers. */
module UniqueIds {
  import opened Text

  function Candidate(base: string, n: nat): string {
    base + "_" + Itoa(n)
  }

  lemma CandidateInjective(base: string, m: nat, n: nat)
    requires Candidate(base, m) == Candidate(base, n)
    ensures m == n
  {
    assert Candidate(base, m)[|base| + 1..] == Itoa(m) && Candidate(base, n)[|base| + 1..] == Itoa(n);
    ItoaInjective(m, n);
  }

  // ---------------------------------------------------------------- the id a list item gets

  /** The issued ids that a search from `from` on could still run into. */
  ghost function InTheWay(issued: set<string>, base: string, from: nat): set<string> {
    set k | k in issued && exists n: nat :: n >= from && k == Candidate(base, n)
  }

  /** Passing an issued candidate leaves fewer of them, since candidates are pairwise distinct. */
  lemma SearchProgresses(issued: set<string>, base: string, from: nat)
    requires Candidate(base, from) in issued
    ensures |InTheWay(issued, base, from + 1)| < |InTheWay(issued, base, from)|
  {
    var before, after, k := InTheWay(issued, base, from), InTheWay(issued, base, from + 1), Candidate(base, from);
    if k in after {
      var n: nat :| n >= from + 1 && k == Candidate(base, n);
      CandidateInjective(base, from, n);
    }
    assert k in before && after <= before - {k};
    Smaller(after, before - {k});
  }

  lemma {:induction false} Smaller<T>(a: set<T>, b: set<T>)
    requires a <= b
    ensures |a| <= |b|
  {
    if a != {} {
      var x :| x in a;
      Smaller(a - {x}, b - {x});
    }
  }

  /** The least suffix from `from` on whose candidate is free. */
  function LeastFree(issued: set<string>, base: string, from: nat): (n: nat)
    ensures n >= from && Candidate(base, n) !in issued
    ensures forall m :: from <= m < n ==> Candidate(base, m) in issued
    decreases |InTheWay(issued, base, from)|
  {
    if Candidate(base, from) in issued then
      SearchProgresses(issued, base, from);
      LeastFree(issued, base, from + 1)
    else from
  }

  lemma LeastFreeIs(issued: set<string>, base: string, from: nat, n: nat)
    requires n >= from && Candidate(base, n) !in issued
    requires forall m :: from <= m < n ==> Candidate(base, m) in issued
    ensures LeastFree(issued, base, from) == n
  {
    var l := LeastFree(issued, base, from);
    assert Candidate(base, l) !in issued;
  }

  /** The base itself while it is free, then the base with the least free suffix from 2 on. */
  function FreshId(issued: set<string>, base: string): (id: string)
    ensures id !in issued
  {
    if base !in issued then base else Candidate(base, LeastFree(issued, base, 2))
  }

  // ---------------------------------------------------------------- the allocator

  class Allocator {
    /** Every id issued so far, with the last suffix tried for it. */
    var used: map<string, nat>

    /** A counter never skips a suffix that is free. */
    ghost predicate Valid()
      reads this
    {
      && (forall base :: base in used ==> used[base] >= 1)
      && (forall base, n: nat :: base in used && 2 <= n <= used[base] ==> Candidate(base, n) in used)
    }

    constructor ()
      ensures Valid() && used == map[]
    {
      used := map[];
    }

    /** Counters make the search skip suffixes; they never change its result. */
    method EnsureUnique(rawId: string, fallback: string) returns (id: string)
      requires Valid()
      modifies this
      ensures Valid()
      ensures id == FreshId(old(used.Keys), BaseId(rawId, fallback))
      ensures used.Keys == old(used.Keys) + {id}
    {
      var base := BaseId(rawId, fallback);
      if base !in used {
        used := used[base := 1];
        return base;
      }
      var suffix := FirstFree(base);
      id := Candidate(base, suffix);
      LeastFreeIs(used.Keys, base, 2, suffix);
      used := used[base := suffix][id := 1];
    }

    /** The search loop, from behind the last suffix tried. */
    method FirstFree(base: string) returns (suffix: nat)
      requires Valid() && base in used
      ensures suffix >= 2 && Candidate(base, suffix) !in used
      ensures forall n: nat :: 2 <= n < suffix ==> Candidate(base, n) in used
    {
      suffix := used[base] + 1;
      while Candidate(base, suffix) in used
        invariant suffix >= 2
        invariant forall n: nat :: 2 <= n < suffix ==> Candidate(base, n) in used
        decreases |InTheWay(used.Keys, base, suffix)|
      {
        SearchProgresses(used.Keys, base, suffix);
        suffix := suffix + 1;
      }
    }
  }

  function BaseId(rawId: string, fallback: string): (base: string)
    ensures IsId(base)
  {
    if Trim(rawId) != "" then Trim(rawId) else if Trim(fallback) != "" then Trim(fallback) else "qq"
  }

  predicate IsId(s: string) {
    s != "" && Trimmed(s)
  }

  // ---------------------------------------------------------------- a whole list of ids

  function SetOf(ids: seq<string>): set<string> {
    set id | id in ids
  }

  /** The ids a list gets, given what each item would like to be called. */
  function Ids(bases: seq<string>): (ids: seq<string>)
    ensures |ids| == |bases|
  {
    if bases == [] then []
    else
      var before := Ids(bases[..|bases| - 1]);
      before + [FreshId(SetOf(before), bases[|bases| - 1])]
  }

  predicate Distinct(ids: seq<string>) {
    forall i, j :: 0 <= i < j < |ids| ==> ids[i] != ids[j]
  }

  /** No two items share an id. */
  lemma {:induction false} IdsAreDistinct(bases: seq<string>)
    ensures Distinct(Ids(bases))
  {
    if bases != [] {
      IdsAreDistinct(bases[..|bases| - 1]);
    }
  }

  lemma {:induction false} IdsOfPrefix(bases: seq<string>, n: nat)
    requires n <= |bases|
    ensures Ids(bases[..n]) == Ids(bases)[..n]
    decreases |bases|
  {
    if n < |bases| {
      IdsOfPrefix(bases[..|bases| - 1], n);
      assert bases[..|bases| - 1][..n] == bases[..n];
    } else {
      assert bases[..n] == bases;
    }
  }

  /** An item keeps the id it asks for exactly when no earlier item ended up with it. */
  lemma KeptIffFree(bases: seq<string>, i: nat)
    requires i < |bases|
    ensures Ids(bases)[i] == bases[i] <==> bases[i] !in Ids(bases)[..i]
  {
    IdsOfPrefix(bases, i);
    IdsOfPrefix(bases, i + 1);
    assert bases[..i + 1][..i] == bases[..i];
    assert Ids(bases)[i] == Ids(bases)[..i + 1][i] == FreshId(SetOf(Ids(bases[..i])), bases[i]);
  }

  /** Distinct ids are left alone. */
  lemma {:induction false} DistinctIdsAreKept(bases: seq<string>)
    requires Distinct(bases)
    ensures Ids(bases) == bases
  {
    if bases != [] {
      DistinctIdsAreKept(bases[..|bases| - 1]);
    }
  }

  lemma CandidateIsId(base: string, n: nat)
    requires IsId(base)
    ensures IsId(Candidate(base, n))
  {
    var s := Itoa(n);
    assert Candidate(base, n)[|base| + 1 + |s| - 1] == s[|s| - 1] && s[|s| - 1] in s;
  }

  lemma {:induction false} IdsAreIds(bases: seq<string>)
    requires forall i :: 0 <= i < |bases| ==> IsId(bases[i])
    ensures forall i :: 0 <= i < |bases| ==> IsId(Ids(bases)[i])
  {
    if bases != [] {
      var n := |bases| - 1;
      IdsAreIds(bases[..n]);
      var issued := SetOf(Ids(bases[..n]));
      if bases[n] in issued {
        CandidateIsId(bases[n], LeastFree(issued, bases[n], 2));
      }
    }
  }

  // ---------------------------------------------------------------- the normalisers

  /** How one kind of item is normalised: the id it asks for, and its fields once it has an id.  Both may
      depend on its position. */
  datatype Normaliser<!R> = Normaliser(base: (R, nat) -> string, finish: (R, nat, string) -> R)

  function Bases<R>(f: Normaliser<R>, items: seq<R>): seq<string> {
    seq(|items|, i requires 0 <= i < |items| => f.base(items[i], i))
  }

  function Normalised<R>(f: Normaliser<R>, items: seq<R>): seq<R> {
    seq(|items|, i requires 0 <= i < |items| => f.finish(items[i], i, Ids(Bases(f, items))[i]))
  }

  /** An item always asks for an id, and normalising it again at the same place, once it has one, changes
      nothing. */
  predicate StableAt<R(==)>(f: Normaliser<R>, r: R, i: nat, id: string) {
    && IsId(f.base(r, i))
    && (IsId(id) ==> f.base(f.finish(r, i, id), i) == id && f.finish(f.finish(r, i, id), i, id) == f.finish(r, i, id))
  }

  ghost predicate IsStable<R(!new)>(f: Normaliser<R>) {
    forall r, i: nat, id :: StableAt(f, r, i, id)
  }

  /** The ids of a normalised list are the ones it was given, all different; and normalising it again
      changes no field of any item. */
  lemma NormalisingIsIdempotent<R(!new)>(f: Normaliser<R>, items: seq<R>)
    requires IsStable(f)
    ensures Bases(f, Normalised(f, items)) == Ids(Bases(f, items)) && Distinct(Ids(Bases(f, items)))
    ensures Normalised(f, Normalised(f, items)) == Normalised(f, items)
  {
    var ids, once := Ids(Bases(f, items)), Normalised(f, items);
    assert forall i :: 0 <= i < |items| ==> StableAt(f, items[i], i, ids[i]);
    IdsAreIds(Bases(f, items));
    IdsAreDistinct(Bases(f, items));
    assert Bases(f, once) == ids;
    DistinctIdsAreKept(ids);
  }

  /** The loop the four normalisers share; `fallback` is what the allocator is told to use for an empty
      base, which never happens. */
  method Normalise<R>(f: Normaliser<R>, items: seq<R>, fallback: string) returns (out: seq<R>)
    requires forall i :: 0 <= i < |items| ==> IsId(f.base(items[i], i))
    ensures out == Normalised(f, items)
  {
    var allocator := new Allocator();
    out := [];
    for i := 0 to |items|
      invariant allocator.Valid() && fresh(allocator)
      invariant allocator.used.Keys == SetOf(Ids(Bases(f, items[..i])))
      invariant out == Normalised(f, items[..i])
    {
      BasesGrow(f, items, i);
      var id := allocator.EnsureUnique(f.base(items[i], i), fallback);
      out := out + [f.finish(items[i], i, id)];
    }
    assert items[..|items|] == items;
  }

  lemma BasesGrow<R>(f: Normaliser<R>, items: seq<R>, i: nat)
    requires i < |items|
    ensures var before := Ids(Bases(f, items[..i]));
            var id := FreshId(SetOf(before), f.base(items[i], i));
            && Ids(Bases(f, items[..i + 1])) == before + [id]
            && SetOf(before + [id]) == SetOf(before) + {id}
            && Normalised(f, items[..i + 1]) == Normalised(f, items[..i]) + [f.finish(items[i], i, id)]
  {
    var bases := Bases(f, items[..i + 1]);
    assert bases[..i] == Bases(f, items[..i]);
  }

  // ---------------------------------------------------------------- the four lists

  function KeepNonBlank(texts: seq<string>): seq<string> {
    if texts == [] then []
    else
      KeepNonBlank(texts[..|texts| - 1]) +
      if Trim(texts[|texts| - 1]) == "" then [] else [Trim(texts[|texts| - 1])]
  }

  lemma {:induction false} KeepNonBlankTwice(texts: seq<string>)
    ensures KeepNonBlank(KeepNonBlank(texts)) == KeepNonBlank(texts)
  {
    if texts != [] {
      var kept, last := KeepNonBlank(texts[..|texts| - 1]), Trim(texts[|texts| - 1]);
      KeepNonBlankTwice(texts[..|texts| - 1]);
      assert kept + [] == kept && (kept + [last])[..|kept|] == kept;
    }
  }

  function Or(text: string, default: string): string {
    if Trim(text) == "" then default else Trim(text)
  }

  lemma OrTwice(text: string, default: string)
    requires Trimmed(default)
    ensures Or(Or(text, default), default) == Or(text, default)
    ensures IsId(default) ==> IsId(Or(text, default))
  {
  }

  lemma OrId(id: string, default: string)
    requires IsId(id)
    ensures Or(id, default) == id
  {
  }

  lemma NumberedIsId(prefix: string, n: nat)
    requires prefix != "" && !IsSpace(prefix[0])
    ensures IsId(prefix + Itoa(n))
  {
    var s := Itoa(n);
    assert (prefix + s)[|prefix + s| - 1] == s[|s| - 1] && s[|s| - 1] in s;
  }

  datatype McpServer = McpServer(id: string, name: string, command: string, args: seq<string>, enabled: bool)

  function McpBase(s: McpServer, i: nat): string {
    Or(s.id, "mcp_" + Itoa(i + 1))
  }

  function McpFinish(s: McpServer, i: nat, id: string): McpServer {
    McpServer(id, Or(s.name, id), Trim(s.command), KeepNonBlank(s.args), s.enabled)
  }

  const MCP_SERVERS := Normaliser(McpBase, McpFinish)

  datatype Agent =
    Agent(id: string, name: string, protocol: string, description: string, models: seq<string>, enabled: bool)

  function AgentBase(a: Agent, i: nat): string {
    Or(a.id, "agent_" + Itoa(i + 1))
  }

  function AgentFinish(a: Agent, i: nat, id: string): Agent {
    Agent(id, Or(a.name, id), Trim(a.protocol), Trim(a.description), KeepNonBlank(a.models), a.enabled)
  }

  const AGENTS := Normaliser(AgentBase, AgentFinish)

  datatype ScheduleTask = ScheduleTask(id: string, name: string, spec: string, content: string, enabled: bool)

  const DEFAULT_SPEC := "*/5 * * * *"

  function TaskBase(t: ScheduleTask, i: nat): string {
    Or(t.id, "task_" + Itoa(i + 1))
  }

  function TaskFinish(t: ScheduleTask, i: nat, id: string): ScheduleTask {
    ScheduleTask(id, Or(t.name, id), Or(t.spec, DEFAULT_SPEC), Trim(t.content), t.enabled)
  }

  const SCHEDULE_TASKS := Normaliser(TaskBase, TaskFinish)

  datatype Channel = Channel(
    id: string, name: string, kind: string, enabled: bool,
    appId: string, appSecret: string, botToken: string, webhookUrl: string)

  /** The kinds of the default channels, in order. */
  const CHANNEL_KINDS := ["qq", "lark", "wechat"]

  function ChannelKind(raw: string, fallback: string): (kind: string)
    ensures kind in CHANNEL_KINDS
    ensures raw in CHANNEL_KINDS ==> kind == raw
  {
    KindsAreNormal();
    if Lower(Trim(raw)) in CHANNEL_KINDS then Lower(Trim(raw))
    else if Lower(Trim(fallback)) in CHANNEL_KINDS then Lower(Trim(fallback))
    else "qq"
  }

  lemma KindsAreNormal()
    ensures forall kind :: kind in CHANNEL_KINDS ==> IsId(kind) && Lower(kind) == kind
  {
    assert CHANNEL_KINDS[0] == "qq" && CHANNEL_KINDS[1] == "lark" && CHANNEL_KINDS[2] == "wechat";
  }

  /** The list's own position picks the fallback kind. */
  function KindAt(c: Channel, i: nat): string {
    ChannelKind(c.kind, if i < |CHANNEL_KINDS| then CHANNEL_KINDS[i] else "")
  }

  function DefaultName(kind: string): string {
    if kind == "lark" then "\U{98DE}\U{4E66}\U{673A}\U{5668}\U{4EBA}"
    else if kind == "wechat" then "\U{5FAE}\U{4FE1}\U{673A}\U{5668}\U{4EBA}"
    else "QQ\U{673A}\U{5668}\U{4EBA}"
  }

  function ChannelBase(c: Channel, i: nat): string {
    Or(c.id, KindAt(c, i))
  }

  function ChannelOf(c: Channel, id: string, kind: string, defaultName: string): Channel {
    Channel(id, Or(c.name, defaultName), kind, c.enabled,
            Trim(c.appId), Trim(c.appSecret), Trim(c.botToken), Trim(c.webhookUrl))
  }

  function ChannelFinish(c: Channel, i: nat, id: string): Channel {
    ChannelOf(c, id, KindAt(c, i), DefaultName(KindAt(c, i)))
  }

  lemma ChannelOfTwice(c: Channel, id: string, kind: string, defaultName: string)
    requires Trimmed(defaultName)
    ensures ChannelOf(ChannelOf(c, id, kind, defaultName), id, kind, defaultName) == ChannelOf(c, id, kind, defaultName)
  {
    OrTwice(c.name, defaultName);
  }

  lemma DefaultNameIsTrimmed(kind: string)
    ensures Trimmed(DefaultName(kind))
  {
  }

  const CHANNELS := Normaliser(ChannelBase, ChannelFinish)

  lemma KindTwice(c: Channel, i: nat, id: string, defaultName: string)
    ensures KindAt(ChannelOf(c, id, KindAt(c, i), defaultName), i) == KindAt(c, i) && IsId(KindAt(c, i))
  {
    KindsAreNormal();
  }

  lemma ChannelIsStable(c: Channel, i: nat, id: string)
    ensures StableAt(CHANNELS, c, i, id)
  {
    var kind := KindAt(c, i);
    var name := DefaultName(kind);
    KindTwice(c, i, id, name);
    DefaultNameIsTrimmed(kind);
    ChannelOfTwice(c, id, kind, name);
    OrTwice(c.id, kind);
    if IsId(id) {
      OrId(id, kind);
    }
  }

  lemma McpServerIsStable(s: McpServer, i: nat, id: string)
    ensures StableAt(MCP_SERVERS, s, i, id)
  {
    NumberedIsId("mcp_", i + 1);
    OrTwice(s.id, "mcp_" + Itoa(i + 1));
    KeepNonBlankTwice(s.args);
    if IsId(id) {
      OrId(id, "mcp_" + Itoa(i + 1));
      OrTwice(s.name, id);
    }
  }

  lemma AgentIsStable(a: Agent, i: nat, id: string)
    ensures StableAt(AGENTS, a, i, id)
  {
    NumberedIsId("agent_", i + 1);
    OrTwice(a.id, "agent_" + Itoa(i + 1));
    KeepNonBlankTwice(a.models);
    if IsId(id) {
      OrId(id, "agent_" + Itoa(i + 1));
      OrTwice(a.name, id);
    }
  }

  lemma ScheduleTaskIsStable(t: ScheduleTask, i: nat, id: string)
    ensures StableAt(SCHEDULE_TASKS, t, i, id)
  {
    NumberedIsId("task_", i + 1);
    OrTwice(t.id, "task_" + Itoa(i + 1));
    OrTwice(t.spec, DEFAULT_SPEC);
    if IsId(id) {
      OrId(id, "task_" + Itoa(i + 1));
      OrTwice(t.name, id);
    }
  }

  lemma SettingsAreStable()
    ensures IsStable(CHANNELS) && IsStable(MCP_SERVERS) && IsStable(AGENTS) && IsStable(SCHEDULE_TASKS)
  {
    forall c, i: nat, id
      ensures StableAt(CHANNELS, c, i, id)
    {
      ChannelIsStable(c, i, id);
    }
    forall s, i: nat, id
      ensures StableAt(MCP_SERVERS, s, i, id)
    {
      McpServerIsStable(s, i, id);
    }
    forall a, i: nat, id
      ensures StableAt(AGENTS, a, i, id)
    {
      AgentIsStable(a, i, id);
    }
    forall t, i: nat, id
      ensures StableAt(SCHEDULE_TASKS, t, i, id)
    {
      ScheduleTaskIsStable(t, i, id);
    }
  }

  // ---------------------------------------------------------------- what normalising changes

  predicate AreIds(texts: seq<string>) {
    forall i :: 0 <= i < |texts| ==> IsId(texts[i])
  }

  lemma {:induction false} KeptAreIds(texts: seq<string>)
    ensures AreIds(KeepNonBlank(texts))
  {
    if texts != [] {
      KeptAreIds(texts[..|texts| - 1]);
    }
  }

  lemma {:induction false} IdsAreAllKept(texts: seq<string>)
    requires AreIds(texts)
    ensures KeepNonBlank(texts) == texts
  {
    if texts != [] {
      var n := |texts| - 1;
      IdsAreAllKept(texts[..n]);
      assert texts == texts[..n] + [texts[n]] && IsId(texts[n]);
    }
  }

  lemma KeepsAllIff(texts: seq<string>)
    ensures KeepNonBlank(texts) == texts <==> AreIds(texts)
  {
    KeptAreIds(texts);
    if AreIds(texts) {
      IdsAreAllKept(texts);
    }
  }

  lemma OrKeepsIff(text: string, default: string)
    ensures IsId(default) ==> (Or(text, default) == text <==> IsId(text) || text == default)
    ensures Trim(text) == "" ==> Or(text, default) == default
  {
  }

  /** A given id changes nothing but the id if and only if every field is as normalising leaves it; so a
      field that is given is never lost, nor one that is not normal kept. */
  lemma McpChangesIff(s: McpServer, i: nat, id: string)
    requires IsId(id)
    ensures McpFinish(s, i, id) == s.(id := id) <==> IsId(s.name) && Trimmed(s.command) && AreIds(s.args)
    ensures Trim(s.name) == "" ==> McpFinish(s, i, id).name == id
    ensures McpFinish(s, i, id).enabled == s.enabled
  {
    OrKeepsIff(s.name, id);
    KeepsAllIff(s.args);
    assert s.name == id ==> IsId(s.name);
  }

  lemma AgentChangesIff(a: Agent, i: nat, id: string)
    requires IsId(id)
    ensures AgentFinish(a, i, id) == a.(id := id) <==>
            IsId(a.name) && Trimmed(a.protocol) && Trimmed(a.description) && AreIds(a.models)
    ensures Trim(a.name) == "" ==> AgentFinish(a, i, id).name == id
    ensures AgentFinish(a, i, id).enabled == a.enabled
  {
    OrKeepsIff(a.name, id);
    KeepsAllIff(a.models);
  }

  lemma TaskChangesIff(t: ScheduleTask, i: nat, id: string)
    requires IsId(id)
    ensures TaskFinish(t, i, id) == t.(id := id) <==> IsId(t.name) && IsId(t.spec) && Trimmed(t.content)
    ensures Trim(t.name) == "" ==> TaskFinish(t, i, id).name == id
    ensures Trim(t.spec) == "" ==> TaskFinish(t, i, id).spec == DEFAULT_SPEC
    ensures TaskFinish(t, i, id).enabled == t.enabled
  {
    OrKeepsIff(t.name, id);
    OrKeepsIff(t.spec, DEFAULT_SPEC);
    DefaultSpecIsId();
  }

  lemma DefaultSpecIsId()
    ensures IsId(DEFAULT_SPEC)
  {
    assert DEFAULT_SPEC[0] == '*' && DEFAULT_SPEC[|DEFAULT_SPEC| - 1] == '*';
  }

  lemma ChannelChangesIff(c: Channel, i: nat, id: string)
    ensures ChannelFinish(c, i, id) == c.(id := id) <==>
            && Or(c.name, DefaultName(KindAt(c, i))) == c.name && c.kind in CHANNEL_KINDS
            && Trimmed(c.appId) && Trimmed(c.appSecret) && Trimmed(c.botToken) && Trimmed(c.webhookUrl)
  {
    KindKeptIff(c, i);
    ChannelOfIff(c, id, KindAt(c, i), DefaultName(KindAt(c, i)));
  }

  lemma KindKeptIff(c: Channel, i: nat)
    ensures KindAt(c, i) == c.kind <==> c.kind in CHANNEL_KINDS
  {
  }

  lemma ChannelOfIff(c: Channel, id: string, kind: string, defaultName: string)
    ensures ChannelOf(c, id, kind, defaultName) == c.(id := id) <==>
            && Or(c.name, defaultName) == c.name && kind == c.kind
            && Trimmed(c.appId) && Trimmed(c.appSecret) && Trimmed(c.botToken) && Trimmed(c.webhookUrl)
  {
  }

  /** The first of several items that ask for the same id keeps it and the others get 2, 3 and so on. */
  lemma RepeatsAreNumbered(base: string)
    ensures Ids([base, base, base]) == [base, base + "_2", base + "_3"]
  {
    CandidatesDiffer(base);
    SecondIs(base, Candidate(base, 2));
    ThirdIs(base, Candidate(base, 2), Candidate(base, 3));
  }

  lemma OneMoreId(bases: seq<string>, all: seq<string>, b: string, ids: seq<string>, issued: set<string>)
    requires all == bases + [b] && Ids(bases) == ids && SetOf(ids) == issued
    ensures Ids(all) == ids + [FreshId(issued, b)]
  {
    assert all[..|bases|] == bases;
  }

  lemma SecondIs(base: string, c2: string)
    requires c2 == Candidate(base, 2) && c2 != base
    ensures Ids([base, base]) == [base, c2]
  {
    OneMoreId([], [base], base, [], {});
    assert [] + [base] == [base];
    OneMoreId([base], [base, base], base, [base], {base});
    LeastFreeIs({base}, base, 2, 2);
  }

  lemma ThirdIs(base: string, c2: string, c3: string)
    requires c2 == Candidate(base, 2) && c3 == Candidate(base, 3) && c3 !in {base, c2}
    requires Ids([base, base]) == [base, c2]
    ensures Ids([base, base, base]) == [base, c2, c3]
  {
    assert SetOf([base, c2]) == {base, c2};
    OneMoreId([base, base], [base, base, base], base, [base, c2], {base, c2});
    LeastFreeIs({base, c2}, base, 2, 3);
  }

  lemma CandidatesDiffer(base: string)
    ensures Candidate(base, 2) == base + "_2" && Candidate(base, 3) == base + "_3"
    ensures Candidate(base, 2) != base && Candidate(base, 3) != base && Candidate(base, 2) != Candidate(base, 3)
  {
    if Candidate(base, 2) == Candidate(base, 3) {
      CandidateInjective(base, 2, 3);
    }
    assert |Candidate(base, 2)| > |base| && |Candidate(base, 3)| > |base|;
  }

  /** The id an item asks for: the one it has, trimmed, and a numbered one if that is blank. */
  lemma AskedIdIs(s: McpServer, a: Agent, t: ScheduleTask, c: Channel, i: nat)
    ensures McpBase(s, i) == if Trim(s.id) != "" then Trim(s.id) else "mcp_" + Itoa(i + 1)
    ensures AgentBase(a, i) == if Trim(a.id) != "" then Trim(a.id) else "agent_" + Itoa(i + 1)
    ensures TaskBase(t, i) == if Trim(t.id) != "" then Trim(t.id) else "task_" + Itoa(i + 1)
    ensures Trim(c.id) != "" ==> ChannelBase(c, i) == Trim(c.id)
    ensures Trim(c.id) == "" && c.kind in CHANNEL_KINDS ==> ChannelBase(c, i) == c.kind
  {
  }
}
