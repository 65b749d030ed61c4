/** The hook dispatcher and its policy guards
    (agent_server/internal/hooks/dispatcher.go, builtin.go, types.go).  Hooks are arbitrary functions,
    and so is the policy. */
module Hooks {
  import opened Text

  datatype EventType =
    | BeforeRun | AfterRun | BeforeToolCall | AfterToolCall
    | BeforeFileWrite | AfterFileWrite | BeforeShellCommand | AfterShellCommand | OnError

  /** A value in an event's data. */
  datatype Value = Str(text: string) | Map(entries: map<string, Value>) | Request(request: PolicyRequest) | Other(tag: int)

  datatype PolicyRequest =
    | Command(command: string, workingDir: string)
    | Path(path: string, workspaceRoot: string)
    | Network(url: string)
    | Mcp(name: string)
    | Nothing

  /** `data` is empty for both a nil and an empty map: no code here tells them apart. */
  datatype Event = Event(kind: EventType, sessionId: string, name: string, cwd: string, data: map<string, Value>, error: string)

  datatype HookAction = Unset | Continue | Modify | Block | RequestApproval | Unknown(text: string)

  /** `patches` lists the entries of the patch map in the order the map happens to be ranged over. */
  datatype HookResult = HookResult(action: HookAction, reason: string, patches: seq<(string, Value)>)

  /** A hook: what it matches, and what it returns (None for an error). */
  datatype Hook = Hook(name: string, match_: Event -> bool, execute: Event -> Option<HookResult>)

  datatype DispatchResult = DispatchResult(action: HookAction, event: Event, reason: string, results: seq<HookAction>)

  datatype Decision = Allow | AskApproval | Deny | OtherDecision

  type Policy = PolicyRequest -> Decision

  // ---------------------------------------------------------------- patches

  function ApplyPatch(e: Event, key: string, value: Value): (r: Event)
    ensures r.kind == e.kind
  {
    if key == "session_id" then if value.Str? then e.(sessionId := value.text) else e
    else if key == "name" then if value.Str? then e.(name := value.text) else e
    else if key == "cwd" then if value.Str? then e.(cwd := value.text) else e
    else if key == "error" then if value.Str? then e.(error := value.text) else e
    else if key == "data" then if value.Map? then e.(data := e.data + value.entries) else e
    else e.(data := e.data[key := value])
  }

  function ApplyPatches(e: Event, patches: seq<(string, Value)>): (r: Event)
    ensures r.kind == e.kind
  {
    if patches == [] then e
    else
      var (key, value) := patches[|patches| - 1];
      ApplyPatch(ApplyPatches(e, patches[..|patches| - 1]), key, value)
  }

  /** Two patches can be applied in either order, unless one is `data` and writes the other's key with
      another value. */
  predicate Independent(a: (string, Value), b: (string, Value)) {
    && (a.0 == "data" && a.1.Map? && IsDataKey(b.0) ==> (b.0 in a.1.entries ==> a.1.entries[b.0] == b.1))
    && (b.0 == "data" && b.1.Map? && IsDataKey(a.0) ==> (a.0 in b.1.entries ==> b.1.entries[a.0] == a.1))
  }

  predicate IsDataKey(key: string) {
    key !in {"session_id", "name", "cwd", "error", "data"}
  }

  function ApplyBoth(e: Event, first: (string, Value), second: (string, Value)): Event {
    ApplyPatch(ApplyPatch(e, first.0, first.1), second.0, second.1)
  }

  /** What a patch writes into the data map. */
  function DataPart(key: string, value: Value): map<string, Value> {
    if IsDataKey(key) then map[key := value]
    else if key == "data" && value.Map? then value.entries
    else map[]
  }

  /** A patch is its data part and a change of at most one field named by its key. */
  lemma PatchParts(e: Event, key: string, value: Value)
    ensures var r := ApplyPatch(e, key, value);
      && r.data == e.data + DataPart(key, value)
      && r.sessionId == (if key == "session_id" && value.Str? then value.text else e.sessionId)
      && r.name == (if key == "name" && value.Str? then value.text else e.name)
      && r.cwd == (if key == "cwd" && value.Str? then value.text else e.cwd)
      && r.error == (if key == "error" && value.Str? then value.text else e.error)
  {
    assert e.data + map[] == e.data;
  }

  lemma IndependentPatchesCommute(e: Event, a: (string, Value), b: (string, Value))
    requires a.0 != b.0 && Independent(a, b)
    ensures ApplyBoth(e, a, b) == ApplyBoth(e, b, a)
  {
    PatchParts(e, a.0, a.1);
    PatchParts(e, b.0, b.1);
    PatchParts(ApplyPatch(e, a.0, a.1), b.0, b.1);
    PatchParts(ApplyPatch(e, b.0, b.1), a.0, a.1);
    DataPartsCommute(e.data, DataPart(a.0, a.1), DataPart(b.0, b.1));
  }

  lemma DataPartsCommute(m: map<string, Value>, x: map<string, Value>, y: map<string, Value>)
    requires forall k :: k in x && k in y ==> x[k] == y[k]
    ensures m + x + y == m + y + x
  {
  }

  lemma ConflictingPatchesDiffer(e: Event, a: (string, Value), b: (string, Value))
    requires a.0 != b.0 && !Independent(a, b)
    ensures ApplyBoth(e, a, b) != ApplyBoth(e, b, a)
  {
    if a.0 == "data" && a.1.Map? && IsDataKey(b.0) && b.0 in a.1.entries && a.1.entries[b.0] != b.1 {
      assert ApplyBoth(e, a, b).data[b.0] == b.1;
      assert ApplyBoth(e, b, a).data[b.0] == a.1.entries[b.0];
    } else {
      assert ApplyBoth(e, a, b).data[a.0] == b.1.entries[a.0];
      assert ApplyBoth(e, b, a).data[a.0] == a.1;
    }
  }

  // ---------------------------------------------------------------- whole patch maps

  /** The entries of a map: no key twice. */
  predicate DistinctKeys(patches: seq<(string, Value)>) {
    forall i, j :: 0 <= i < j < |patches| ==> patches[i].0 != patches[j].0
  }

  predicate AllIndependent(patches: seq<(string, Value)>) {
    forall i, j :: 0 <= i < j < |patches| ==> Independent(patches[i], patches[j])
  }

  ghost predicate SameResult(p: seq<(string, Value)>, q: seq<(string, Value)>) {
    forall e :: ApplyPatches(e, p) == ApplyPatches(e, q)
  }

  /** Another order of the same entries. */
  predicate IsReordering(p: seq<(string, Value)>, q: seq<(string, Value)>) {
    multiset(p) == multiset(q)
  }

  lemma ApplyPush(e: Event, patches: seq<(string, Value)>, last: (string, Value))
    ensures ApplyPatches(e, patches + [last]) == ApplyPatch(ApplyPatches(e, patches), last.0, last.1)
  {
    assert (patches + [last])[..|patches|] == patches;
  }

  /** An entry that is independent of everything behind it may as well come last. */
  lemma {:induction false} MoveToEnd(e: Event, before: seq<(string, Value)>, x: (string, Value), after: seq<(string, Value)>)
    requires forall i :: 0 <= i < |after| ==> x.0 != after[i].0 && Independent(x, after[i])
    ensures ApplyPatches(e, before + [x] + after) == ApplyPatches(e, before + after + [x])
    decreases |after|
  {
    if after == [] {
      assert before + [x] + after == before + after + [x];
    } else {
      var n := |after| - 1;
      var init, last := after[..n], after[n];
      assert before + [x] + after == (before + [x] + init) + [last];
      assert before + after + [x] == (before + init + [last]) + [x];
      MoveToEnd(e, before, x, init);
      var mid := ApplyPatches(e, before + init);
      ApplyPush(e, before + [x] + init, last);
      ApplyPush(e, before + init, x);
      ApplyPush(e, before + init, last);
      ApplyPush(e, before + init + [last], x);
      IndependentPatchesCommute(mid, x, last);
    }
  }

  lemma ReorderingMember(p: seq<(string, Value)>, q: seq<(string, Value)>, i: nat) returns (j: nat)
    requires IsReordering(p, q) && i < |p|
    ensures j < |q| && q[j] == p[i]
  {
    assert p[i] in multiset(q);
    j :| 0 <= j < |q| && q[j] == p[i];
  }

  lemma TakeOut<T>(q: seq<T>, m: nat)
    requires m < |q|
    ensures multiset(q) == multiset(q[..m] + q[m + 1..]) + multiset{q[m]}
  {
    assert q == q[..m] + [q[m]] + q[m + 1..];
  }

  lemma SameRest<T>(a: multiset<T>, b: multiset<T>, x: T)
    requires a + multiset{x} == b + multiset{x}
    ensures a == b
  {
    assert a == a + multiset{x} - multiset{x} && b == b + multiset{x} - multiset{x};
  }

  lemma RemoveOne<T>(p: seq<T>, q: seq<T>, m: nat)
    requires multiset(p) == multiset(q) && p != [] && m < |q| && q[m] == p[|p| - 1]
    ensures multiset(p[..|p| - 1]) == multiset(q[..m] + q[m + 1..])
  {
    var n := |p| - 1;
    TakeOut(p, n);
    TakeOut(q, m);
    assert p[..n] + p[n + 1..] == p[..n];
    SameRest(multiset(p[..n]), multiset(q[..m] + q[m + 1..]), p[n]);
  }

  /** Without a conflict every order gives the same event. */
  lemma {:induction false} ReorderingKeeps(e: Event, p: seq<(string, Value)>, q: seq<(string, Value)>)
    requires DistinctKeys(p) && AllIndependent(p) && IsReordering(p, q)
    ensures ApplyPatches(e, p) == ApplyPatches(e, q)
    decreases |p|
  {
    if p == [] {
      assert |multiset(q)| == |q| == 0;
    } else {
      var n := |p| - 1;
      var x := p[n];
      var m := ReorderingMember(p, q, n);
      var before, after := q[..m], q[m + 1..];
      assert q == before + [x] + after && p == p[..n] + [x];
      RemoveOne(p, q, m);
      forall i | 0 <= i < |after|
        ensures x.0 != after[i].0 && Independent(x, after[i])
      {
        OthersIndependent(p, before + after, |before| + i);
      }
      MoveToEnd(e, before, x, after);
      ReorderingKeeps(e, p[..n], before + after);
      ApplyPush(e, before + after, x);
    }
  }

  lemma OthersIndependent(p: seq<(string, Value)>, rest: seq<(string, Value)>, i: nat)
    requires p != [] && DistinctKeys(p) && AllIndependent(p)
    requires IsReordering(rest, p[..|p| - 1]) && i < |rest|
    ensures rest[i].0 != p[|p| - 1].0 && Independent(p[|p| - 1], rest[i])
  {
    var j := ReorderingMember(rest, p[..|p| - 1], i);
    assert p[j] == rest[i] && Independent(p[j], p[|p| - 1]);
  }

  function Without<T>(p: seq<T>, i: nat, j: nat): seq<T>
    requires i < j < |p|
  {
    p[..i] + p[i + 1..j] + p[j + 1..]
  }

  lemma TwoLast<T>(p: seq<T>, i: nat, j: nat)
    requires i < j < |p|
    ensures multiset(p) == multiset(Without(p, i, j) + [p[i]] + [p[j]])
    ensures multiset(p) == multiset(Without(p, i, j) + [p[j]] + [p[i]])
  {
    assert p == p[..i] + [p[i]] + p[i + 1..j] + [p[j]] + p[j + 1..];
  }

  lemma SwappedDiffer(e: Event, rest: seq<(string, Value)>, a: (string, Value), b: (string, Value))
    requires a.0 != b.0 && !Independent(a, b)
    ensures ApplyPatches(e, rest + [a] + [b]) != ApplyPatches(e, rest + [b] + [a])
  {
    ApplyPush(e, rest, a);
    ApplyPush(e, rest + [a], b);
    ApplyPush(e, rest, b);
    ApplyPush(e, rest + [b], a);
    ConflictingPatchesDiffer(ApplyPatches(e, rest), a, b);
  }

  lemma OneDiffers(e: Event, p: seq<(string, Value)>, q: seq<(string, Value)>, r: seq<(string, Value)>)
    requires IsReordering(p, q) && IsReordering(p, r) && ApplyPatches(e, q) != ApplyPatches(e, r)
    ensures exists o :: IsReordering(p, o) && !SameResult(p, o)
  {
    if ApplyPatches(e, p) != ApplyPatches(e, q) {
      assert !SameResult(p, q);
    } else {
      assert !SameResult(p, r);
    }
  }

  /** Two conflicting entries can be put last in either order, with different results. */
  lemma ConflictShows(p: seq<(string, Value)>, i: nat, j: nat)
    requires DistinctKeys(p) && i < j < |p| && !Independent(p[i], p[j])
    ensures exists q :: IsReordering(p, q) && !SameResult(p, q)
  {
    var rest, a, b := Without(p, i, j), p[i], p[j];
    var e := Event(BeforeRun, "", "", "", map[], "");
    TwoLast(p, i, j);
    SwappedDiffer(e, rest, a, b);
    OneDiffers(e, p, rest + [a] + [b], rest + [b] + [a]);
  }

  /** The event does not depend on the order in which Go ranges over a patch map if and only if the map's
      entries are pairwise independent. */
  lemma PatchOrderMatters(p: seq<(string, Value)>)
    requires DistinctKeys(p)
    ensures (forall q :: IsReordering(p, q) ==> SameResult(p, q)) <==> AllIndependent(p)
  {
    if AllIndependent(p) {
      forall q, e | IsReordering(p, q)
        ensures ApplyPatches(e, p) == ApplyPatches(e, q)
      {
        ReorderingKeeps(e, p, q);
      }
    } else {
      var i, j :| 0 <= i < j < |p| && !Independent(p[i], p[j]);
      ConflictShows(p, i, j);
    }
  }

  method PatchEvent(e: Event, patches: seq<(string, Value)>) returns (out: Event)
    ensures out == ApplyPatches(e, patches)
  {
    out := e;
    for i := 0 to |patches|
      invariant out == ApplyPatches(e, patches[..i])
    {
      var (key, value) := patches[i];
      assert patches[..i + 1][..i] == patches[..i];
      if key == "session_id" {
        if value.Str? { out := out.(sessionId := value.text); }
      } else if key == "name" {
        if value.Str? { out := out.(name := value.text); }
      } else if key == "cwd" {
        if value.Str? { out := out.(cwd := value.text); }
      } else if key == "error" {
        if value.Str? { out := out.(error := value.text); }
      } else if key == "data" {
        if value.Map? { out := out.(data := out.data + value.entries); }
      } else {
        out := out.(data := out.data[key := value]);
      }
    }
    assert patches[..|patches|] == patches;
  }

  // ---------------------------------------------------------------- dispatch

  /** The effect of one matching hook: the next event, and the dispatch result if it stops here. */
  datatype HookStep = Go(event: Event, modified: bool, reason: string, ran: HookAction) | Stop(dispatch: DispatchResult)

  function RunHook(hook: Hook, current: Event, d: DispatchResult): HookStep {
    match hook.execute(current)
    case None =>
      Stop(DispatchResult(Block, current, "hook failed", d.results + [Block]))
    case Some(result) =>
      match result.action
      case Unset => Go(current, false, "", Continue)
      case Continue => Go(current, false, "", Continue)
      case Modify => Go(ApplyPatches(current, result.patches), true, result.reason, Modify)
      case Block => Stop(DispatchResult(Block, current, result.reason, d.results + [Block]))
      case RequestApproval => Stop(DispatchResult(RequestApproval, current, result.reason, d.results + [RequestApproval]))
      case Unknown(text) =>
        Stop(DispatchResult(Block, current, "unknown action", d.results + [Unknown(text)] + [Block]))
  }

  function AfterHook(d: DispatchResult, g: HookStep): DispatchResult
    requires g.Go?
  {
    DispatchResult(if g.modified then Modify else d.action, g.event,
             if g.modified && g.reason != "" then g.reason else d.reason, d.results + [g.ran])
  }

  /** Dispatching to `hooks` from a partial result; `cancelled(n)` says whether the context has been
      cancelled by the time n hooks are left.  None is the context error. */
  function DispatchFrom(hooks: seq<Hook>, d: DispatchResult, cancelled: nat -> bool): (r: Option<DispatchResult>)
    decreases |hooks|
  {
    if hooks == [] then Some(d)
    else if !hooks[0].match_(d.event) then DispatchFrom(hooks[1..], d, cancelled)
    else
      match RunHook(hooks[0], d.event, d)
      case Stop(out) => Some(out)
      case Go(_, _, _, _) =>
        if cancelled(|hooks|) then None
        else DispatchFrom(hooks[1..], AfterHook(d, RunHook(hooks[0], d.event, d)), cancelled)
  }

  function DispatchAll(hooks: seq<Hook>, event: Event, cancelled: nat -> bool): Option<DispatchResult> {
    if cancelled(|hooks| + 1) then None
    else DispatchFrom(hooks, DispatchResult(Continue, event, "", []), cancelled)
  }

  /** `DefaultDispatcher`: registration skips nil hooks, Dispatch folds the rest over the event. */
  class Dispatcher {
    var hooks: seq<Hook>

    constructor (all: seq<Option<Hook>>)
      ensures hooks == Present(all)
    {
      hooks := [];
      new;
      for i := 0 to |all|
        invariant hooks == Present(all[..i])
      {
        assert all[..i + 1][..i] == all[..i];
        Register(all[i]);
      }
      assert all[..|all|] == all;
    }

    method Register(hook: Option<Hook>)
      modifies this
      ensures hooks == old(hooks) + if hook.Some? then [hook.value] else []
    {
      if hook.None? {
        return;
      }
      hooks := hooks + [hook.value];
    }

    method Dispatch(event: Event, cancelled: nat -> bool) returns (r: Option<DispatchResult>)
      ensures r == DispatchAll(hooks, event, cancelled)
    {
      if cancelled(|hooks| + 1) {
        return None;
      }
      var current := event;
      var dispatch := DispatchResult(Continue, current, "", []);
      for i := 0 to |hooks|
        invariant dispatch.event == current
        invariant DispatchAll(hooks, event, cancelled) == DispatchFrom(hooks[i..], dispatch, cancelled)
      {
        var hook := hooks[i];
        assert hooks[i..][0] == hook && hooks[i..][1..] == hooks[i + 1..];
        if !hook.match_(current) {
          continue;
        }
        var outcome := hook.execute(current);
        if outcome.None? {
          return Some(dispatch.(action := Block, reason := "hook failed", results := dispatch.results + [Block]));
        }
        var result := outcome.value;
        var action := if result.action == Unset then Continue else result.action;
        dispatch := dispatch.(results := dispatch.results + [action]);
        match action {
          case Modify =>
            current := PatchEvent(current, result.patches);
            dispatch := dispatch.(action := Modify, event := current);
            if result.reason != "" {
              dispatch := dispatch.(reason := result.reason);
            }
          case Block =>
            return Some(dispatch.(action := Block, reason := result.reason));
          case RequestApproval =>
            return Some(dispatch.(action := RequestApproval, reason := result.reason));
          case Unknown(_) =>
            return Some(dispatch.(action := Block, reason := "unknown action", results := dispatch.results + [Block]));
          case _ =>
        }
        if cancelled(|hooks| - i) {
          return None;
        }
      }
      return Some(dispatch);
    }
  }

  /** The hooks that are not nil. */
  function Present(all: seq<Option<Hook>>): seq<Hook> {
    if all == [] then []
    else Present(all[..|all| - 1]) + if all[|all| - 1].Some? then [all[|all| - 1].value] else []
  }

  // ---------------------------------------------------------------- the policy hooks

  /** A non-empty string field of the event's data. */
  function StringField(e: Event, key: string): string {
    if key in e.data && e.data[key].Str? then e.data[key].text else ""
  }

  /** `PolicyRequestFromEvent`: an error, no request, or a request. */
  function RequestOf(e: Event): Result<Option<PolicyRequest>> {
    match e.kind
    case BeforeShellCommand =>
      if StringField(e, "command") == "" then Err("before shell command hook event requires data.command")
      else
        var dir := StringField(e, "working_dir");
        Ok(Some(Command(StringField(e, "command"), if dir == "" then e.cwd else dir)))
    case BeforeFileWrite =>
      if StringField(e, "path") == "" then Err("before file write hook event requires data.path")
      else
        var root := StringField(e, "workspace_root");
        Ok(Some(Path(StringField(e, "path"), if root == "" then e.cwd else root)))
    case _ =>
      if "policy_request" in e.data && e.data["policy_request"].Request? then
        Ok(Some(e.data["policy_request"].request))
      else Ok(None)
  }

  /** A request naming nothing is allowed without asking the policy. */
  function Evaluate(p: Policy, req: PolicyRequest): Decision {
    if req == Nothing then Allow else p(req)
  }

  function ResultFromDecision(d: Decision): HookResult {
    match d
    case Allow => HookResult(Continue, "", [])
    case AskApproval => HookResult(RequestApproval, "", [])
    case Deny => HookResult(Block, "", [])
    case OtherDecision => HookResult(RequestApproval, "unknown policy decision requires approval", [])
  }

  function GuardResult(p: Policy, e: Event): HookResult {
    match RequestOf(e)
    case Err(message) => HookResult(Block, message, [])
    case Ok(None) => HookResult(Continue, "", [])
    case Ok(Some(req)) => ResultFromDecision(Evaluate(p, req))
  }

  /** Both built-in hooks return the context's error once it is cancelled. */
  function SecurityHook(p: Policy, cancelled: bool): Hook {
    Hook("builtin-security-policy", (e: Event) => e.kind in {BeforeFileWrite, BeforeShellCommand},
         (e: Event) => if cancelled then None else Some(GuardResult(p, e)))
  }

  function PolicyGuard(p: Policy, cancelled: bool): Hook {
    Hook("policy-guard", (e: Event) => RequestOf(e).Ok? && RequestOf(e).value.Some?,
         (e: Event) => if cancelled then None else Some(GuardResult(p, e)))
  }

  /** Each user hook is followed by a guard; `cancelled` is indexed as in DispatchFrom. */
  function Interleaved(p: Policy, hooks: seq<Option<Hook>>, cancelled: nat -> bool): seq<Option<Hook>> {
    if hooks == [] then []
    else [hooks[0], Some(PolicyGuard(p, cancelled(2 * |hooks|)))] + Interleaved(p, hooks[1..], cancelled)
  }

  function WithPolicyGuard(p: Policy, hooks: seq<Option<Hook>>, cancelled: nat -> bool): seq<Option<Hook>> {
    [Some(SecurityHook(p, cancelled(2 * |hooks| + 2)))] + Interleaved(p, hooks, cancelled)
  }

  // ---------------------------------------------------------------- the guarantee

  predicate IsGuardedKind(kind: EventType) {
    kind in {BeforeFileWrite, BeforeShellCommand}
  }

  /** The policy allows whatever request the event carries. */
  predicate Cleared(p: Policy, e: Event) {
    RequestOf(e).Ok? && RequestOf(e).value.Some? ==> Evaluate(p, RequestOf(e).value.value) == Allow
  }

  predicate Passes(r: Option<DispatchResult>) {
    r.Some? && r.value.action in {Continue, Modify}
  }

  lemma {:induction false} DispatchKeepsKind(hooks: seq<Hook>, d: DispatchResult, cancelled: nat -> bool)
    ensures var r := DispatchFrom(hooks, d, cancelled); r.Some? ==> r.value.event.kind == d.event.kind
    decreases |hooks|
  {
    if hooks != [] {
      if !hooks[0].match_(d.event) {
        DispatchKeepsKind(hooks[1..], d, cancelled);
      } else if RunHook(hooks[0], d.event, d).Go? {
        DispatchKeepsKind(hooks[1..], AfterHook(d, RunHook(hooks[0], d.event, d)), cancelled);
      }
    }
  }

  /** After a guard has let an event pass, the event is cleared. */
  lemma GuardClears(p: Policy, c: bool, e: Event, d: DispatchResult)
    requires d.event == e
    ensures var g := PolicyGuard(p, c);
      if g.match_(e) then RunHook(g, e, d).Go? ==> Cleared(p, e) && RunHook(g, e, d).event == e
      else Cleared(p, e)
  {
  }

  lemma PresentCons(a: seq<Option<Hook>>, b: seq<Option<Hook>>)
    ensures Present(a + b) == Present(a) + Present(b)
    decreases |b|
  {
    if b == [] {
      assert a + b == a;
    } else {
      assert (a + b)[..|a + b| - 1] == a + b[..|b| - 1];
      PresentCons(a, b[..|b| - 1]);
    }
  }

  /** One dispatch step over a list whose head is known. */
  lemma DispatchHead(h: Hook, rest: seq<Hook>, d: DispatchResult, cancelled: nat -> bool)
    requires Passes(DispatchFrom([h] + rest, d, cancelled))
    ensures
      if h.match_(d.event) then
        && RunHook(h, d.event, d).Go?
        && DispatchFrom([h] + rest, d, cancelled) == DispatchFrom(rest, AfterHook(d, RunHook(h, d.event, d)), cancelled)
      else DispatchFrom([h] + rest, d, cancelled) == DispatchFrom(rest, d, cancelled)
  {
    assert ([h] + rest)[1..] == rest;
  }

  lemma GuardThen(p: Policy, c: bool, rest: seq<Hook>, d: DispatchResult, cancelled: nat -> bool) returns (next: DispatchResult)
    requires Passes(DispatchFrom([PolicyGuard(p, c)] + rest, d, cancelled))
    ensures DispatchFrom([PolicyGuard(p, c)] + rest, d, cancelled) == DispatchFrom(rest, next, cancelled)
    ensures Cleared(p, next.event)
  {
    var g := PolicyGuard(p, c);
    DispatchHead(g, rest, d, cancelled);
    GuardClears(p, c, d.event, d);
    next := if g.match_(d.event) then AfterHook(d, RunHook(g, d.event, d)) else d;
  }

  lemma {:induction false} InterleavedClears(p: Policy, hooks: seq<Option<Hook>>, d: DispatchResult, cancelled: nat -> bool, other: nat -> bool)
    requires Cleared(p, d.event)
    requires Passes(DispatchFrom(Present(Interleaved(p, hooks, other)), d, cancelled))
    ensures Cleared(p, DispatchFrom(Present(Interleaved(p, hooks, other)), d, cancelled).value.event)
    decreases |hooks|
  {
    if hooks == [] {
      return;
    }
    var c := other(2 * |hooks|);
    var rest := Present(Interleaved(p, hooks[1..], other));
    var tail := [PolicyGuard(p, c)] + rest;
    PresentPair(hooks[0], PolicyGuard(p, c), Interleaved(p, hooks[1..], other));
    var after := d;
    if hooks[0].Some? {
      var h := hooks[0].value;
      DispatchHead(h, tail, d, cancelled);
      after := if h.match_(d.event) then AfterHook(d, RunHook(h, d.event, d)) else d;
    }
    var next := GuardThen(p, c, rest, after, cancelled);
    InterleavedClears(p, hooks[1..], next, cancelled, other);
  }

  lemma PresentPair(h: Option<Hook>, g: Hook, rest: seq<Option<Hook>>)
    ensures Present([h, Some(g)] + rest) == (if h.Some? then [h.value] + ([g] + Present(rest)) else [g] + Present(rest))
  {
    PresentCons([h, Some(g)], rest);
    PresentTwo(h, g);
    assert [g] + Present(rest) == [] + ([g] + Present(rest));
  }

  lemma PresentTwo(h: Option<Hook>, g: Hook)
    ensures Present([h, Some(g)]) == (if h.Some? then [h.value] else []) + [g]
  {
    assert [h, Some(g)][..1] == [h] && [h][..0] == [];
    assert Present([h]) == if h.Some? then [h.value] else [];
  }

  lemma PresentGuarded(p: Policy, hooks: seq<Option<Hook>>, guardCancelled: nat -> bool)
    ensures Present(WithPolicyGuard(p, hooks, guardCancelled)) ==
            [SecurityHook(p, guardCancelled(2 * |hooks| + 2))] + Present(Interleaved(p, hooks, guardCancelled))
  {
    var security := SecurityHook(p, guardCancelled(2 * |hooks| + 2));
    PresentCons([Some(security)], Interleaved(p, hooks, guardCancelled));
    assert [Some(security)][..0] == [] && [] + [security] == [security];
  }

  /** The security hook matches every guarded event, and lets pass only well-formed, cleared ones. */
  lemma SecurityClears(p: Policy, c: bool, d: DispatchResult)
    requires IsGuardedKind(d.event.kind)
    ensures var h := SecurityHook(p, c);
            && h.match_(d.event)
            && (RunHook(h, d.event, d).Go? ==>
                  RequestOf(d.event).Ok? && Cleared(p, d.event) && RunHook(h, d.event, d).event == d.event)
  {
  }

  lemma SecurityThen(p: Policy, c: bool, rest: seq<Hook>, d: DispatchResult, cancelled: nat -> bool) returns (next: DispatchResult)
    requires IsGuardedKind(d.event.kind)
    requires Passes(DispatchFrom([SecurityHook(p, c)] + rest, d, cancelled))
    ensures DispatchFrom([SecurityHook(p, c)] + rest, d, cancelled) == DispatchFrom(rest, next, cancelled)
    ensures Cleared(p, next.event) && RequestOf(d.event).Ok?
  {
    var h := SecurityHook(p, c);
    DispatchHead(h, rest, d, cancelled);
    SecurityClears(p, c, d);
    next := AfterHook(d, RunHook(h, d.event, d));
  }

  lemma GuardedKindCleared(p: Policy, e: Event)
    requires IsGuardedKind(e.kind) && Cleared(p, e)
    ensures RequestOf(e).Ok? ==> RequestOf(e).value.Some? && Evaluate(p, RequestOf(e).value.value) == Allow
  {
  }

  /** The field without which a guarded event carries no request. */
  function RequiredField(kind: EventType): string {
    if kind == BeforeShellCommand then "command" else "path"
  }

  lemma WellFormedIff(e: Event)
    requires IsGuardedKind(e.kind)
    ensures RequestOf(e).Ok? <==> StringField(e, RequiredField(e.kind)) != ""
  {
  }

  /** Guarded dispatch: on a file-write or shell event, whatever the user hooks do, if the dispatch ends in
      continue or modify then the event was well-formed to begin with, its type is unchanged, and the
      policy allows the request it carries in the end, if it still carries a well-formed one. */
  lemma GuardedDispatch(p: Policy, hooks: seq<Option<Hook>>, event: Event,
                        guardCancelled: nat -> bool, cancelled: nat -> bool)
    requires IsGuardedKind(event.kind)
    requires Passes(DispatchAll(Present(WithPolicyGuard(p, hooks, guardCancelled)), event, cancelled))
    ensures RequestOf(event).Ok?
    ensures var out := DispatchAll(Present(WithPolicyGuard(p, hooks, guardCancelled)), event, cancelled).value.event;
            && out.kind == event.kind
            && (RequestOf(out).Ok? <==> StringField(out, RequiredField(event.kind)) != "")
            && (RequestOf(out).Ok? ==> RequestOf(out).value.Some? && Evaluate(p, RequestOf(out).value.value) == Allow)
  {
    var start := DispatchResult(Continue, event, "", []);
    var rest := Present(Interleaved(p, hooks, guardCancelled));
    PresentGuarded(p, hooks, guardCancelled);
    DispatchKeepsKind(Present(WithPolicyGuard(p, hooks, guardCancelled)), start, cancelled);
    var next := SecurityThen(p, guardCancelled(2 * |hooks| + 2), rest, start, cancelled);
    InterleavedClears(p, hooks, next, cancelled, guardCancelled);
    GuardedKindCleared(p, DispatchFrom(rest, next, cancelled).value.event);
    WellFormedIff(DispatchFrom(rest, next, cancelled).value.event);
  }

  // ---------------------------------------------------------------- hooks that lose the request

  /** On this well-formed guarded event the hook's changes leave the required field empty. */
  predicate LosesAt(h: Hook, e: Event) {
    && IsGuardedKind(e.kind) && RequestOf(e).Ok? && h.match_(e)
    && var r := h.execute(e);
       r.Some? && r.value.action == Modify && StringField(ApplyPatches(e, r.value.patches), RequiredField(e.kind)) == ""
  }

  ghost predicate KeepsField(h: Hook) {
    forall e :: !LosesAt(h, e)
  }

  predicate WellFormed(e: Event) {
    IsGuardedKind(e.kind) && RequestOf(e).Ok?
  }

  lemma KeepingStep(h: Hook, d: DispatchResult)
    requires KeepsField(h) && WellFormed(d.event) && h.match_(d.event) && RunHook(h, d.event, d).Go?
    ensures WellFormed(AfterHook(d, RunHook(h, d.event, d)).event)
  {
    assert !LosesAt(h, d.event);
    WellFormedIff(RunHook(h, d.event, d).event);
  }

  lemma {:induction false} DispatchKeepsField(hooks: seq<Hook>, d: DispatchResult, cancelled: nat -> bool)
    requires WellFormed(d.event) && Passes(DispatchFrom(hooks, d, cancelled))
    requires forall h :: h in hooks ==> KeepsField(h)
    ensures WellFormed(DispatchFrom(hooks, d, cancelled).value.event)
    decreases |hooks|
  {
    if hooks != [] {
      var h, rest := hooks[0], hooks[1..];
      assert hooks == [h] + rest;
      DispatchHead(h, rest, d, cancelled);
      if h.match_(d.event) {
        KeepingStep(h, d);
        DispatchKeepsField(rest, AfterHook(d, RunHook(h, d.event, d)), cancelled);
      } else {
        DispatchKeepsField(rest, d, cancelled);
      }
    }
  }

  lemma GuardNeverModifies(p: Policy, e: Event)
    ensures GuardResult(p, e).action != Modify
  {
  }

  /** Neither built-in hook changes an event. */
  lemma BuiltInsKeepField(p: Policy, c: bool)
    ensures KeepsField(SecurityHook(p, c)) && KeepsField(PolicyGuard(p, c))
  {
    forall e
      ensures !LosesAt(SecurityHook(p, c), e) && !LosesAt(PolicyGuard(p, c), e)
    {
      GuardNeverModifies(p, e);
      var r := if c then None else Some(GuardResult(p, e));
      assert SecurityHook(p, c).execute(e) == r && PolicyGuard(p, c).execute(e) == r;
    }
  }

  lemma {:induction false} InterleavedKeepField(p: Policy, hooks: seq<Option<Hook>>, cancelled: nat -> bool)
    requires forall h :: Some(h) in hooks ==> KeepsField(h)
    ensures forall h :: h in Present(Interleaved(p, hooks, cancelled)) ==> KeepsField(h)
  {
    if hooks != [] {
      var g := PolicyGuard(p, cancelled(2 * |hooks|));
      InterleavedKeepField(p, hooks[1..], cancelled);
      PresentPair(hooks[0], g, Interleaved(p, hooks[1..], cancelled));
      BuiltInsKeepField(p, cancelled(2 * |hooks|));
      assert hooks[0] in hooks;
    }
  }

  /** What hooks that keep the field give: every dispatch that passes, under any policy and any
      cancellation, ends with a well-formed event whose request the policy allows. */
  lemma KeepingHooksAreSafe(p: Policy, hooks: seq<Option<Hook>>, event: Event,
                            guardCancelled: nat -> bool, cancelled: nat -> bool)
    requires IsGuardedKind(event.kind) && forall h :: Some(h) in hooks ==> KeepsField(h)
    requires Passes(DispatchAll(Present(WithPolicyGuard(p, hooks, guardCancelled)), event, cancelled))
    ensures var out := DispatchAll(Present(WithPolicyGuard(p, hooks, guardCancelled)), event, cancelled).value.event;
            && out.kind == event.kind
            && RequestOf(out).Ok? && RequestOf(out).value.Some? && Evaluate(p, RequestOf(out).value.value) == Allow
  {
    GuardedDispatch(p, hooks, event, guardCancelled, cancelled);
    PresentGuarded(p, hooks, guardCancelled);
    InterleavedKeepField(p, hooks, guardCancelled);
    BuiltInsKeepField(p, guardCancelled(2 * |hooks| + 2));
    DispatchKeepsField(Present(WithPolicyGuard(p, hooks, guardCancelled)), DispatchResult(Continue, event, "", []), cancelled);
  }

  function NeverCancelled(): nat -> bool {
    (n: nat) => false
  }

  lemma DispatchNext(h: Hook, rest: seq<Hook>, d: DispatchResult)
    requires h.match_(d.event) && RunHook(h, d.event, d).Go?
    ensures DispatchFrom([h] + rest, d, NeverCancelled()) ==
            DispatchFrom(rest, AfterHook(d, RunHook(h, d.event, d)), NeverCancelled())
  {
    assert ([h] + rest)[1..] == rest;
  }

  lemma ClearedPasses(p: Policy, d: DispatchResult)
    requires WellFormed(d.event) && Cleared(p, d.event)
    ensures var h := SecurityHook(p, false);
            h.match_(d.event) && RunHook(h, d.event, d).Go? && AfterHook(d, RunHook(h, d.event, d)).event == d.event
  {
    GuardedKindCleared(p, d.event);
  }

  lemma LosingStep(h: Hook, d: DispatchResult)
    requires LosesAt(h, d.event)
    ensures h.match_(d.event) && RunHook(h, d.event, d).Go?
    ensures var next := AfterHook(d, RunHook(h, d.event, d));
            next.action == Modify && next.event.kind == d.event.kind && RequestOf(next.event).Err?
  {
    WellFormedIff(RunHook(h, d.event, d).event);
  }

  lemma MalformedSkipsGuard(p: Policy, d: DispatchResult)
    requires RequestOf(d.event).Err?
    ensures DispatchFrom([PolicyGuard(p, false)], d, NeverCancelled()) == Some(d)
  {
  }

  /** The dispatcher WithPolicyGuard makes of one user hook, never cancelled. */
  function GuardedAlone(p: Policy, h: Hook): seq<Hook> {
    Present(WithPolicyGuard(p, [Some(h)], NeverCancelled()))
  }

  lemma GuardedAloneIs(p: Policy, h: Hook)
    ensures GuardedAlone(p, h) == [SecurityHook(p, false)] + ([h] + [PolicyGuard(p, false)])
  {
    var no, g := NeverCancelled(), PolicyGuard(p, false);
    var rest: seq<Option<Hook>> := [];
    PresentGuarded(p, [Some(h)], no);
    assert [Some(h)][1..] == [];
    assert Interleaved(p, [Some(h)], no) == [Some(h), Some(g)] + rest;
    PresentPair(Some(h), g, rest);
    assert Present(rest) == [] && [g] + [] == [g];
  }

  /** What a hook that loses the field does: the guard behind it does not match any more, so on any such
      event that the policy allows the dispatch ends in modify, without a request. */
  lemma LosingHookPasses(p: Policy, h: Hook, event: Event)
    requires LosesAt(h, event) && Cleared(p, event)
    ensures var out := DispatchAll(GuardedAlone(p, h), event, NeverCancelled());
            out.Some? && out.value.action == Modify && RequestOf(out.value.event).Err?
  {
    var security, g := SecurityHook(p, false), PolicyGuard(p, false);
    var start := DispatchResult(Continue, event, "", []);
    GuardedAloneIs(p, h);
    ClearedPasses(p, start);
    DispatchNext(security, [h] + [g], start);
    var first := AfterHook(start, RunHook(security, event, start));
    LosingStep(h, first);
    DispatchNext(h, [g], first);
    MalformedSkipsGuard(p, AfterHook(first, RunHook(h, first.event, first)));
  }

  /** If this dispatch passes, it carries a request. */
  predicate CarriesRequest(p: Policy, h: Hook, event: Event, guardCancelled: nat -> bool, cancelled: nat -> bool) {
    var out := DispatchAll(Present(WithPolicyGuard(p, [Some(h)], guardCancelled)), event, cancelled);
    Passes(out) ==> RequestOf(out.value.event).Ok?
  }

  ghost predicate IsSafeAlone(h: Hook) {
    forall p, event: Event, guardCancelled, cancelled ::
      IsGuardedKind(event.kind) ==> CarriesRequest(p, h, event, guardCancelled, cancelled)
  }

  /** When a guarded dispatch cannot lose its request: under every policy, event and cancellation it
      carries one if and only if the user hook never empties the required field of a well-formed event. */
  lemma SafeAloneIff(h: Hook)
    ensures IsSafeAlone(h) <==> KeepsField(h)
  {
    if KeepsField(h) {
      forall p, event: Event, guardCancelled, cancelled | IsGuardedKind(event.kind)
        ensures CarriesRequest(p, h, event, guardCancelled, cancelled)
      {
        if Passes(DispatchAll(Present(WithPolicyGuard(p, [Some(h)], guardCancelled)), event, cancelled)) {
          KeepingHooksAreSafe(p, [Some(h)], event, guardCancelled, cancelled);
        }
      }
    } else {
      var e :| LosesAt(h, e);
      var allowAll: Policy := (request: PolicyRequest) => Allow;
      LosingHookPasses(allowAll, h, e);
      assert !CarriesRequest(allowAll, h, e, NeverCancelled(), NeverCancelled());
    }
  }

  /** A hook that blanks a field. */
  function BlankingHook(field: string): Hook {
    Hook("blank", (e: Event) => true, (e: Event) => Some(HookResult(Modify, "", [(field, Str(""))])))
  }

  /** The simplest such hook: it blanks the field. */
  lemma BlankingLoses(event: Event)
    requires WellFormed(event)
    ensures LosesAt(BlankingHook(RequiredField(event.kind)), event)
  {
    var field := RequiredField(event.kind);
    var patches := [(field, Str(""))];
    assert patches[..0] == [];
    assert ApplyPatches(event, patches) == ApplyPatch(event, field, Str(""));
  }

  /** So under any policy an allowed write or command passes without a request when a hook blanks it. */
  lemma MalformedMayPass(p: Policy, event: Event)
    requires WellFormed(event) && Cleared(p, event)
    ensures var out := DispatchAll(GuardedAlone(p, BlankingHook(RequiredField(event.kind))), event, NeverCancelled());
            out.Some? && out.value.action == Modify && RequestOf(out.value.event).Err?
  {
    BlankingLoses(event);
    LosingHookPasses(p, BlankingHook(RequiredField(event.kind)), event);
  }
}
