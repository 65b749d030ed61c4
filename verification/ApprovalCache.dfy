/** The approval cache of the ReAct loop (agent_server/internal/agent/react_loop.go,
    executeWithApproval): what it remembers, and when that justifies an approved execution. */
module ApprovalCache {
  import opened RunTrace

  /** `Capable` is a tool with ApprovalKey and ExecuteApproved; the key comes with an "ok" flag. */
  datatype Tool = Plain | Capable(approvalKey: string -> (string, bool))

  type Tools = map<string, Tool>

  /** An approver's answer for a call, or an approved execution of one. */
  datatype Use =
    | Answered(name: string, arguments: string, decision: Decision)
    | RanApproved(name: string, arguments: string)

  const NUL: char := '\0'

  function CacheKey(name: string, key: string): string {
    name + [NUL] + key
  }

  function ToolKey(tools: Tools, name: string, arguments: string): string
    requires name in tools && tools[name].Capable?
  {
    tools[name].approvalKey(arguments).0
  }

  /** An "always" answer is remembered under the call's key, unless that is empty. */
  predicate Grants(tools: Tools, use: Use, cacheKey: string) {
    && use.Answered? && use.decision == Always
    && use.name in tools && tools[use.name].Capable?
    && ToolKey(tools, use.name, use.arguments) != ""
    && cacheKey == CacheKey(use.name, ToolKey(tools, use.name, use.arguments))
  }

  ghost predicate GrantedBefore(tools: Tools, uses: seq<Use>, n: nat, cacheKey: string) {
    exists i :: 0 <= i < n <= |uses| && Grants(tools, uses[i], cacheKey)
  }

  ghost predicate IsCacheOf(tools: Tools, approved: set<string>, uses: seq<Use>) {
    forall k :: k in approved <==> GrantedBefore(tools, uses, |uses|, k)
  }

  /** The approver said yes to this very call. */
  predicate JustAnswered(uses: seq<Use>, i: nat) {
    0 < i < |uses| && uses[i].RanApproved? &&
    (uses[i - 1] == Answered(uses[i].name, uses[i].arguments, Once) ||
     uses[i - 1] == Answered(uses[i].name, uses[i].arguments, Always))
  }

  ghost predicate Justified(tools: Tools, uses: seq<Use>, i: nat)
    requires i < |uses|
  {
    uses[i].RanApproved? ==>
      && uses[i].name in tools && tools[uses[i].name].Capable?
      && (JustAnswered(uses, i) ||
          GrantedBefore(tools, uses, i, CacheKey(uses[i].name, ToolKey(tools, uses[i].name, uses[i].arguments))))
  }

  /** Every approved execution was answered just before, or "always" earlier under the same key. */
  ghost predicate Sound(tools: Tools, uses: seq<Use>) {
    forall i :: 0 <= i < |uses| ==> Justified(tools, uses, i)
  }

  lemma GrantedGrows(tools: Tools, uses: seq<Use>, use: Use, n: nat, k: string)
    requires n <= |uses|
    ensures GrantedBefore(tools, uses, n, k) <==> GrantedBefore(tools, uses + [use], n, k)
    ensures GrantedBefore(tools, uses + [use], |uses| + 1, k) <==>
            GrantedBefore(tools, uses, |uses|, k) || Grants(tools, use, k)
  {
    var all := uses + [use];
    assert forall i :: 0 <= i < |uses| ==> all[i] == uses[i];
    assert all[|uses|] == use;
    if GrantedBefore(tools, uses, n, k) {
      var i :| 0 <= i < n && Grants(tools, uses[i], k);
      assert Grants(tools, all[i], k);
    }
    if GrantedBefore(tools, uses, |uses|, k) {
      var i :| 0 <= i < |uses| && Grants(tools, uses[i], k);
      assert Grants(tools, all[i], k);
    }
    if Grants(tools, use, k) {
      assert Grants(tools, all[|uses|], k);
    }
  }

  lemma SoundGrows(tools: Tools, uses: seq<Use>, use: Use)
    requires Sound(tools, uses) && Justified(tools, uses + [use], |uses|)
    ensures Sound(tools, uses + [use])
  {
    var all := uses + [use];
    forall i | 0 <= i < |all|
      ensures Justified(tools, all, i)
    {
      if i < |uses| {
        assert Justified(tools, uses, i) && all[i] == uses[i];
        if uses[i].RanApproved? {
          GrantedGrows(tools, uses, use, i, CacheKey(uses[i].name, ToolKey(tools, uses[i].name, uses[i].arguments)));
        }
      }
    }
  }

  // ---------------------------------------------------------------- the key encoding

  /** Two tools can share a cache key exactly when one's name continues the other's after a NUL. */
  lemma KeysCollide(a: string, b: string)
    requires a != b
    ensures (exists k, l :: CacheKey(a, k) == CacheKey(b, l)) <==> a + [NUL] <= b || b + [NUL] <= a
  {
    if a + [NUL] <= b {
      var k := b[|a| + 1..] + [NUL];
      assert CacheKey(a, k) == CacheKey(b, "");
    } else if b + [NUL] <= a {
      var l := a[|b| + 1..] + [NUL];
      assert CacheKey(a, "") == CacheKey(b, l);
    } else {
      forall k, l
        ensures CacheKey(a, k) != CacheKey(b, l)
      {
        DistinctNamesDiffer(a, k, b, l);
      }
    }
  }

  lemma DistinctNamesDiffer(a: string, k: string, b: string, l: string)
    requires a != b && !(a + [NUL] <= b) && !(b + [NUL] <= a)
    ensures CacheKey(a, k) != CacheKey(b, l)
  {
    var s, t := CacheKey(a, k), CacheKey(b, l);
    assert s[..|a|] == a && s[|a|] == NUL && t[..|b|] == b && t[|b|] == NUL;
    if |a| < |b| {
      assert !(b[..|a| + 1] == a + [NUL]);
    } else if |b| < |a| {
      assert !(a[..|b| + 1] == b + [NUL]);
    }
  }

  /** No registered name continues another after a NUL. */
  predicate NamesApart(tools: Tools) {
    forall a, b :: a in tools && b in tools && a != b ==> !(a + [NUL] <= b)
  }

  /** With such names a cached approval was given for this very tool, with an equal key. */
  lemma CachedMeansSameTool(tools: Tools, uses: seq<Use>, n: nat, name: string, arguments: string) returns (i: nat)
    requires NamesApart(tools) && n <= |uses| && name in tools && tools[name].Capable?
    requires GrantedBefore(tools, uses, n, CacheKey(name, ToolKey(tools, name, arguments)))
    ensures i < n && uses[i].Answered? && uses[i].decision == Always && uses[i].name == name
    ensures ToolKey(tools, name, uses[i].arguments) == ToolKey(tools, name, arguments)
  {
    var key := ToolKey(tools, name, arguments);
    i :| 0 <= i < n && Grants(tools, uses[i], CacheKey(name, key));
    var granted := ToolKey(tools, uses[i].name, uses[i].arguments);
    if uses[i].name != name {
      DistinctNamesDiffer(name, key, uses[i].name, granted);
    }
    assert CacheKey(name, key)[|name| + 1..] == key;
    assert CacheKey(uses[i].name, granted)[|uses[i].name| + 1..] == granted;
  }
}
