/** Lists picked out of other lists, in order. */
module Listing {

  /** Rising positions below `n`. */
  ghost predicate Rising(at: seq<nat>, n: nat) {
    (forall k :: 0 <= k < |at| ==> at[k] < n) && forall j, k :: 0 <= j < k < |at| ==> at[j] < at[k]
  }

  lemma RisingOn(at: seq<nat>, n: nat)
    requires Rising(at, n)
    ensures Rising(at + [n], n + 1) && Rising(at, n + 1)
    ensures forall i :: i in at + [n] <==> i in at || i == n
    ensures n !in at
  {
  }

  lemma {:induction false} RisingFits(at: seq<nat>, n: nat)
    requires Rising(at, n)
    ensures |at| <= n
  {
    if at != [] { RisingFits(at[..|at| - 1], at[|at| - 1]); }
  }
}
