/** Searching minutes for the first one a predicate accepts, and iterating such a search. */
module Search {
  import opened Text

  /** One minute in nanoseconds. */
  const MINUTE := 60_000_000_000

  /** The first minute in [from, limit) that `hit` accepts. */
  function FirstHit(hit: nat -> bool, from: nat, limit: nat): (r: Option<nat>)
    ensures r.Some? ==>
      from <= r.value < limit && hit(r.value) && forall t :: from <= t < r.value ==> !hit(t)
    ensures r.None? ==> forall t :: from <= t < limit ==> !hit(t)
    decreases limit - from
  {
    if from >= limit then None
    else if hit(from) then Some(from)
    else FirstHit(hit, from + 1, limit)
  }

  /** The first minute that starts strictly after an instant. */
  function FirstMinute(after: nat): (m: nat)
    ensures forall t: nat {:trigger t * MINUTE} :: m <= t <==> after < t * MINUTE
  {
    after / MINUTE + 1
  }

  /** `next` answers the least whole minute strictly after an instant that `hit` accepts. */
  ghost predicate IsNextHit(hit: nat -> bool, after: nat, t: nat) {
    && after < t * MINUTE && hit(t)
    && forall u: nat {:trigger hit(u)} :: after < u * MINUTE < t * MINUTE ==> !hit(u)
  }

  /** The minutes found by asking `n` times, each time from the previous answer. */
  function Iterated(next: nat -> Option<nat>, after: nat, n: nat): (r: seq<nat>)
    ensures |r| <= n
  {
    if n == 0 then []
    else
      var before := Iterated(next, after, n - 1);
      if |before| < n - 1 then before
      else
        match next(if before == [] then after else before[|before| - 1] * MINUTE)
        case Some(t) => before + [t]
        case None => before
  }

  /** `times` lists every accepted minute after an instant, up to its last one, in order. */
  ghost predicate Enumerates(hit: nat -> bool, after: nat, times: seq<nat>) {
    && (forall i, j :: 0 <= i < j < |times| ==> times[i] < times[j])
    && (forall i :: 0 <= i < |times| ==> after < times[i] * MINUTE && hit(times[i]))
    && (times != [] ==> forall t: nat {:trigger hit(t)} ::
          after < t * MINUTE && t <= times[|times| - 1] && hit(t) ==> t in times)
  }

  lemma EnumerateNext(hit: nat -> bool, after: nat, before: seq<nat>, t: nat)
    requires Enumerates(hit, after, before)
    requires IsNextHit(hit, if before == [] then after else before[|before| - 1] * MINUTE, t)
    ensures Enumerates(hit, after, before + [t])
  {
    var times := before + [t];
    if before != [] {
      assert before[|before| - 1] < t;
    }
    forall u: nat | after < u * MINUTE && u <= t && hit(u)
      ensures u in times
    {
      if u == t {
        assert times[|times| - 1] == u;
      } else {
        assert before != [] && u <= before[|before| - 1];
        assert u in before;
      }
    }
  }

  lemma {:induction false} IterationEnumerates(hit: nat -> bool, next: nat -> Option<nat>, after: nat, n: nat)
    requires forall a :: next(a).Some? ==> IsNextHit(hit, a, next(a).value)
    ensures Enumerates(hit, after, Iterated(next, after, n))
  {
    if n > 0 {
      IterationEnumerates(hit, next, after, n - 1);
      var before := Iterated(next, after, n - 1);
      var last := if before == [] then after else before[|before| - 1] * MINUTE;
      if |before| == n - 1 && next(last).Some? {
        EnumerateNext(hit, after, before, next(last).value);
      }
    }
  }
}
