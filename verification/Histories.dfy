/** Reading a fact off a list of steps. */
module Histories {

  /** A flag that only `cause` can set, and nothing clears. */
  lemma {:induction false} Latched(flag: nat -> bool, cause: nat -> bool, n: nat)
    requires !flag(0) && forall i: nat :: i < n ==> (flag(i + 1) <==> flag(i) || cause(i))
    ensures flag(n) <==> exists i: nat :: i < n && cause(i)
  {
    if n > 0 {
      Latched(flag, cause, n - 1);
      assert flag(n - 1 + 1) <==> flag(n - 1) || cause(n - 1);
    }
  }
}
