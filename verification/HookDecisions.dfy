/** What the policy's answer does to a guarded dispatch (agent_server/internal/hooks/dispatcher.go,
    builtin.go): a refusal blocks, a question asks, and neither lets a later hook run. */
module HookDecisions {
  import opened Text
  import opened Hooks

  /** The request an event makes, read off its data: a command or a path with its directory, or, for all
      other types, whatever request it carries. */
  predicate Makes(e: Event, request: PolicyRequest) {
    if e.kind == BeforeShellCommand then
      && request.Command? && request.command != "" && Holds(e, "command", request.command)
      && if HasText(e, "working_dir") then Holds(e, "working_dir", request.workingDir) else request.workingDir == e.cwd
    else if e.kind == BeforeFileWrite then
      && request.Path? && request.path != "" && Holds(e, "path", request.path)
      && if HasText(e, "workspace_root") then Holds(e, "workspace_root", request.workspaceRoot)
         else request.workspaceRoot == e.cwd
    else "policy_request" in e.data && e.data["policy_request"] == Request(request)
  }

  predicate Holds(e: Event, key: string, text: string) {
    key in e.data && e.data[key] == Str(text)
  }

  predicate HasText(e: Event, key: string) {
    key in e.data && e.data[key].Str? && e.data[key].text != ""
  }

  lemma MakesIff(e: Event, request: PolicyRequest)
    ensures Makes(e, request) <==> RequestOf(e) == Ok(Some(request))
  {
  }

  /** How a hook chain ends, or does not, when the policy is asked about a request. */
  predicate EndsAs(decision: Decision, out: Option<DispatchResult>, before: DispatchResult) {
    match decision
    case Deny => out.Some? && out.value.action == Block && Untouched(out.value, before, Block)
    case Allow => true
    case _ => out.Some? && out.value.action == RequestApproval && Untouched(out.value, before, RequestApproval)
  }

  /** Nothing ran after the hook that answered, and the event is what it was. */
  predicate Untouched(out: DispatchResult, before: DispatchResult, answer: HookAction) {
    out.event == before.event && out.results == before.results + [answer]
  }

  /** The security hook answers first: on a guarded event, whatever the user hooks are and whenever the
      context is cancelled later, a request that the policy denies ends the dispatch in block, one it asks
      about (or answers in no known way) in a request for approval, and an event without a request in
      block, each with the event unchanged and no user hook run. */
  lemma SecurityDecides(p: Policy, hooks: seq<Option<Hook>>, event: Event,
                        guardCancelled: nat -> bool, cancelled: nat -> bool)
    requires IsGuardedKind(event.kind)
    requires !guardCancelled(2 * |hooks| + 2) && !cancelled(|Present(WithPolicyGuard(p, hooks, guardCancelled))| + 1)
    ensures var out := DispatchAll(Present(WithPolicyGuard(p, hooks, guardCancelled)), event, cancelled);
            var start := DispatchResult(Continue, event, "", []);
            && (forall request :: Makes(event, request) ==> EndsAs(p(request), out, start))
            && ((forall request :: !Makes(event, request)) ==>
                  out.Some? && out.value.action == Block && Untouched(out.value, start, Block))
  {
    var rest := Present(Interleaved(p, hooks, guardCancelled));
    var start := DispatchResult(Continue, event, "", []);
    PresentGuarded(p, hooks, guardCancelled);
    SecurityEnds(p, rest, start, cancelled);
    forall request | Makes(event, request)
      ensures RequestOf(event) == Ok(Some(request))
    {
      MakesIff(event, request);
    }
    if RequestOf(event).Ok? {
      MakesIff(event, RequestOf(event).value.value);
    }
  }

  lemma SecurityEnds(p: Policy, rest: seq<Hook>, d: DispatchResult, cancelled: nat -> bool)
    requires IsGuardedKind(d.event.kind)
    ensures var out := DispatchFrom([SecurityHook(p, false)] + rest, d, cancelled);
            match RequestOf(d.event)
            case Ok(Some(request)) => EndsAs(p(request), out, d)
            case _ => out.Some? && out.value.action == Block && Untouched(out.value, d, Block)
  {
    var h := SecurityHook(p, false);
    assert ([h] + rest)[1..] == rest;
    assert h.match_(d.event) && h.execute(d.event) == Some(GuardResult(p, d.event));
  }

  // ---------------------------------------------------------------- dispatching to a list in two parts

  lemma DispatchCons(h: Hook, rest: seq<Hook>, d: DispatchResult, no: nat -> bool)
    requires no == NeverCancelled()
    ensures DispatchFrom([h] + rest, d, no) ==
            if !h.match_(d.event) then DispatchFrom(rest, d, no)
            else match RunHook(h, d.event, d) {
              case Stop(out) => Some(out)
              case Go(_, _, _, _) => DispatchFrom(rest, AfterHook(d, RunHook(h, d.event, d)), no)
            }
  {
    assert ([h] + rest)[1..] == rest;
  }

  /** A hook goes on exactly when the result so far would pass. */
  lemma StopsIff(h: Hook, d: DispatchResult)
    requires Passes(Some(d))
    ensures var g := RunHook(h, d.event, d);
            if g.Stop? then !Passes(Some(g.dispatch)) else Passes(Some(AfterHook(d, g)))
  {
  }

  /** Dispatching to one list and then another is dispatching to both, unless the first one stopped. */
  lemma {:induction false} DispatchInTwo(a: seq<Hook>, b: seq<Hook>, d: DispatchResult, no: nat -> bool)
    requires Passes(Some(d)) && no == NeverCancelled()
    ensures DispatchFrom(a + b, d, no) ==
            if Passes(DispatchFrom(a, d, no)) then DispatchFrom(b, DispatchFrom(a, d, no).value, no)
            else DispatchFrom(a, d, no)
    decreases |a|
  {
    if a == [] {
      assert a + b == b;
    } else {
      var h, rest := a[0], a[1..];
      assert a == [h] + rest && a + b == [h] + (rest + b);
      DispatchCons(h, rest, d, no);
      DispatchCons(h, rest + b, d, no);
      StopsIff(h, d);
      if !h.match_(d.event) {
        DispatchInTwo(rest, b, d, no);
      } else if RunHook(h, d.event, d).Go? {
        DispatchInTwo(rest, b, AfterHook(d, RunHook(h, d.event, d)), no);
      }
    }
  }

  lemma GuardEnds(p: Policy, rest: seq<Hook>, d: DispatchResult, no: nat -> bool)
    requires RequestOf(d.event).Ok? && RequestOf(d.event).value.Some? && no == NeverCancelled()
    ensures EndsAs(Evaluate(p, RequestOf(d.event).value.value), DispatchFrom([PolicyGuard(p, false)] + rest, d, no), d)
  {
    var g := PolicyGuard(p, false);
    DispatchCons(g, rest, d, no);
    assert g.match_(d.event) && g.execute(d.event) == Some(GuardResult(p, d.event));
  }

  /** The hooks up to and with user hook `k`, before the guard behind it. */
  function Upto(p: Policy, hooks: seq<Option<Hook>>, k: nat): seq<Hook>
    requires k < |hooks|
  {
    Present(WithPolicyGuard(p, hooks[..k], NeverCancelled())) + Present([hooks[k]])
  }

  lemma {:induction false} InterleavedSplit(p: Policy, hooks: seq<Option<Hook>>, k: nat)
    requires k <= |hooks|
    ensures Interleaved(p, hooks, NeverCancelled()) ==
            Interleaved(p, hooks[..k], NeverCancelled()) + Interleaved(p, hooks[k..], NeverCancelled())
  {
    if k == 0 {
      assert hooks[k..] == hooks && Interleaved(p, hooks[..0], NeverCancelled()) == [];
    } else {
      var pair := [hooks[0], Some(PolicyGuard(p, false))];
      InterleavedSplit(p, hooks[1..], k - 1);
      assert hooks[..k][1..] == hooks[1..][..k - 1] && hooks[1..][k - 1..] == hooks[k..];
      var a, b := Interleaved(p, hooks[1..][..k - 1], NeverCancelled()), Interleaved(p, hooks[k..], NeverCancelled());
      assert pair + (a + b) == (pair + a) + b;
    }
  }

  lemma PresentParts(head: seq<Option<Hook>>, h: Option<Hook>, g: Hook, after: seq<Option<Hook>>)
    ensures Present(head + ([h, Some(g)] + after)) == (Present(head) + Present([h])) + ([g] + Present(after))
  {
    PresentCons(head, [h, Some(g)] + after);
    PresentPair(h, g, after);
    PresentSingle(h);
    Associates(Present(head), Present([h]), [g] + Present(after));
  }

  lemma Associates<T>(a: seq<T>, b: seq<T>, c: seq<T>)
    ensures a + (b + c) == (a + b) + c
    ensures b == [] ==> b + c == c
  {
  }

  lemma GuardedParts(p: Policy, hooks: seq<Option<Hook>>, k: nat, g: Hook)
    requires k < |hooks| && g == PolicyGuard(p, false)
    ensures WithPolicyGuard(p, hooks, NeverCancelled()) ==
            WithPolicyGuard(p, hooks[..k], NeverCancelled()) +
            ([hooks[k], Some(g)] + Interleaved(p, hooks[k + 1..], NeverCancelled()))
  {
    InterleavedSplit(p, hooks, k);
    assert hooks[k..][1..] == hooks[k + 1..] && hooks[k..][0] == hooks[k];
  }

  /** The guard stands right behind its user hook. */
  lemma GuardStands(p: Policy, hooks: seq<Option<Hook>>, k: nat)
    requires k < |hooks|
    ensures Present(WithPolicyGuard(p, hooks, NeverCancelled())) ==
            Upto(p, hooks, k) + ([PolicyGuard(p, false)] + Present(Interleaved(p, hooks[k + 1..], NeverCancelled())))
  {
    GuardedParts(p, hooks, k, PolicyGuard(p, false));
    PresentParts(WithPolicyGuard(p, hooks[..k], NeverCancelled()), hooks[k], PolicyGuard(p, false),
                 Interleaved(p, hooks[k + 1..], NeverCancelled()));
  }

  lemma PresentSingle(h: Option<Hook>)
    ensures Present([h]) == if h.Some? then [h.value] else []
  {
    assert [h][..0] == [];
  }

  /** Each later guard answers, for events of every type, for the event as the user hook in front of it left it: if the dispatch got
      that far, a request that the policy denies ends it in block and one it asks about in a request for
      approval, with that event and no later hook run. */
  lemma LaterGuardDecides(p: Policy, hooks: seq<Option<Hook>>, k: nat, event: Event, request: PolicyRequest)
    requires k < |hooks| && request != Nothing
    requires Passes(DispatchAll(Upto(p, hooks, k), event, NeverCancelled()))
    requires Makes(DispatchAll(Upto(p, hooks, k), event, NeverCancelled()).value.event, request)
    ensures var before := DispatchAll(Upto(p, hooks, k), event, NeverCancelled()).value;
            var out := DispatchAll(Present(WithPolicyGuard(p, hooks, NeverCancelled())), event, NeverCancelled());
            EndsAs(p(request), out, before)
  {
    var no, g := NeverCancelled(), PolicyGuard(p, false);
    var start := DispatchResult(Continue, event, "", []);
    var rest := Present(Interleaved(p, hooks[k + 1..], no));
    GuardStands(p, hooks, k);
    DispatchInTwo(Upto(p, hooks, k), [g] + rest, start, no);
    var before := DispatchFrom(Upto(p, hooks, k), start, no).value;
    MakesIff(before.event, request);
    GuardEnds(p, rest, before, no);
  }

  /** A request the policy allows stops nothing: the dispatch goes on behind the guard. */
  lemma AllowedGoesOn(p: Policy, hooks: seq<Option<Hook>>, event: Event, request: PolicyRequest)
    requires IsGuardedKind(event.kind) && Makes(event, request) && p(request) == Allow
    ensures var start := DispatchResult(Continue, event, "", [Continue]);
            DispatchAll(Present(WithPolicyGuard(p, hooks, NeverCancelled())), event, NeverCancelled()) ==
            DispatchFrom(Present(Interleaved(p, hooks, NeverCancelled())), start, NeverCancelled())
  {
    var h, no := SecurityHook(p, false), NeverCancelled();
    var start := DispatchResult(Continue, event, "", []);
    PresentGuarded(p, hooks, no);
    MakesIff(event, request);
    DispatchCons(h, Present(Interleaved(p, hooks, no)), start, no);
    assert h.match_(event) && h.execute(event) == Some(GuardResult(p, event));
    assert [] + [Continue] == [Continue];
  }

  // ---------------------------------------------------------------- one hook

  /** What one hook's answer makes of a dispatch that it matches; a hook that fails, or answers with an
      action nobody knows, blocks. */
  lemma OneHookAnswers(h: Hook, event: Event)
    requires h.match_(event)
    ensures var out := DispatchAll([h], event, NeverCancelled());
            && out.Some?
            && match h.execute(event) {
                 case None => out.value.action == Block && out.value.event == event
                 case Some(r) =>
                   match r.action {
                     case Modify => out.value == DispatchResult(Modify, ApplyPatches(event, r.patches), r.reason, [Modify])
                     case Block => out.value == DispatchResult(Block, event, r.reason, [Block])
                     case RequestApproval => out.value == DispatchResult(RequestApproval, event, r.reason, [RequestApproval])
                     case Unknown(_) => out.value.action == Block && out.value.event == event
                     case _ => out.value == DispatchResult(Continue, event, "", [Continue])
                   }
               }
  {
    var start := DispatchResult(Continue, event, "", []);
    var no := NeverCancelled();
    assert [h] + [] == [h];
    DispatchCons(h, [], start, no);
  }

  /** A hook that does not match is as good as absent. */
  lemma UnmatchedIsAbsent(h: Hook, before: seq<Hook>, after: seq<Hook>, event: Event)
    requires forall e :: !h.match_(e)
    ensures DispatchAll(before + ([h] + after), event, NeverCancelled()) == DispatchAll(before + after, event, NeverCancelled())
  {
    var start := DispatchResult(Continue, event, "", []);
    var no := NeverCancelled();
    DispatchInTwo(before, [h] + after, start, no);
    DispatchInTwo(before, after, start, no);
    if Passes(DispatchFrom(before, start, no)) {
      DispatchCons(h, after, DispatchFrom(before, start, no).value, no);
    }
  }
}
