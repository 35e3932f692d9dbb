/** The poller's own code: a stable sort, and a sweep that compacts the pending slice in place. */
module Polling {
  import opened Hosts
  import opened Pipeline
  import opened PipelineSafety

  /** The hosts come by their order numbers. */
  ghost predicate InOrder(c: Config, q: seq<nat>) {
    forall i, j :: 0 <= i < j < |q| ==>
      (if q[i] < c.N() then c.todo[q[i]].host.order else 0) <= if q[j] < c.N() then c.todo[q[j]].host.order else 0
  }

  /** The entries of `q` with order `k`, as they come. */
  function WithOrder(c: Config, q: seq<nat>, k: int): seq<nat> {
    if q == [] then []
    else
      var front := WithOrder(c, q[..|q| - 1], k);
      if Order(c, q[|q| - 1]) == k then front + [q[|q| - 1]] else front
  }

  lemma WithOrderPush(c: Config, q: seq<nat>, x: nat, k: int)
    ensures WithOrder(c, q + [x], k) == if Order(c, x) == k then WithOrder(c, q, k) + [x] else WithOrder(c, q, k)
  {
    assert (q + [x])[..|q|] == q;
  }

  lemma {:induction false} InsertInOrder(c: Config, q: seq<nat>, i: nat)
    requires InOrder(c, q)
    ensures InOrder(c, InsertByOrder(c, q, i))
  {
    if q != [] && Order(c, q[|q| - 1]) > Order(c, i) {
      var front, last := q[..|q| - 1], q[|q| - 1];
      InsertInOrder(c, front, i);
      var r := InsertByOrder(c, front, i);
      forall j | 0 <= j < |r| ensures Order(c, r[j]) <= Order(c, last) {
        assert r[j] == i || r[j] in front;
      }
    }
  }

  lemma {:induction false} InsertStable(c: Config, q: seq<nat>, i: nat, k: int)
    ensures WithOrder(c, InsertByOrder(c, q, i), k) == WithOrder(c, q + [i], k)
  {
    WithOrderPush(c, q, i, k);
    if q != [] && Order(c, q[|q| - 1]) > Order(c, i) {
      var front, last := q[..|q| - 1], q[|q| - 1];
      InsertStable(c, front, i, k);
      WithOrderPush(c, InsertByOrder(c, front, i), last, k);
      WithOrderPush(c, front, i, k);
      WithOrderPush(c, front, last, k);
      assert q == front + [last];
    }
  }

  /** The poller's order: by host order, ties as in the plan. */
  lemma {:induction false} SortIsStable(c: Config, q: seq<nat>, k: int)
    ensures InOrder(c, SortByOrder(c, q))
    ensures WithOrder(c, SortByOrder(c, q), k) == WithOrder(c, q, k)
  {
    if q != [] {
      var front := q[..|q| - 1];
      SortIsStable(c, front, k);
      InsertInOrder(c, SortByOrder(c, front), q[|q| - 1]);
      InsertStable(c, SortByOrder(c, front), q[|q| - 1], k);
      WithOrderPush(c, SortByOrder(c, front), q[|q| - 1], k);
    }
  }

  // ---- One sweep ----

  /** The entries of `q` whose store query answered `yes`, in order. */
  function Picked(q: seq<nat>, answers: seq<bool>, yes: bool): (r: seq<nat>)
    requires |q| == |answers|
    ensures |r| <= |q|
  {
    if q == [] then []
    else
      var n := |q| - 1;
      var front := Picked(q[..n], answers[..n], yes);
      if answers[n] == yes then front + [q[n]] else front
  }

  lemma {:induction false} PickedMember(q: seq<nat>, answers: seq<bool>, yes: bool, k: nat)
    requires |q| == |answers| && k < |Picked(q, answers, yes)|
    ensures Picked(q, answers, yes)[k] in q
  {
    var n := |q| - 1;
    if k < |Picked(q[..n], answers[..n], yes)| { PickedMember(q[..n], answers[..n], yes, k); }
  }

  /** Nothing is lost and nothing is picked twice. */
  lemma {:induction false} PickedSplits(q: seq<nat>, answers: seq<bool>, i: nat)
    requires |q| == |answers|
    ensures Occ(Picked(q, answers, true), i) + Occ(Picked(q, answers, false), i) == Occ(q, i)
  {
    if q != [] {
      var n := |q| - 1;
      PickedSplits(q[..n], answers[..n], i);
      OccPush(Picked(q[..n], answers[..n], true), q[n], i);
      OccPush(Picked(q[..n], answers[..n], false), q[n], i);
    }
  }

  lemma {:induction false} PickedInOrder(c: Config, q: seq<nat>, answers: seq<bool>, yes: bool)
    requires |q| == |answers| && InOrder(c, q)
    ensures InOrder(c, Picked(q, answers, yes))
  {
    if q != [] {
      var n := |q| - 1;
      PickedInOrder(c, q[..n], answers[..n], yes);
      var r := Picked(q[..n], answers[..n], yes);
      forall j | 0 <= j < |r| ensures Order(c, r[j]) <= Order(c, q[n]) {
        PickedMember(q[..n], answers[..n], yes, j);
      }
    }
  }

  /**
   * Reads the first `len` entries while writing the ones to keep over the front of the same array. The
   * write index never passes the read index, so every entry is read before it is overwritten.
   */
  method Sweep(left: array<nat>, len: nat, answers: seq<bool>) returns (kept: nat, sent: seq<nat>)
    requires len <= left.Length && |answers| == len
    modifies left
    ensures kept <= len && left[..kept] == Picked(old(left[..len]), answers, false)
    ensures sent == Picked(old(left[..len]), answers, true)
  {
    ghost var was := left[..len];
    kept, sent := 0, [];
    for i := 0 to len
      invariant kept <= i
      invariant left[i..len] == was[i..]
      invariant left[..kept] == Picked(was[..i], answers[..i], false)
      invariant sent == Picked(was[..i], answers[..i], true)
    {
      var p := left[i];
      assert p == was[i] by { assert left[i..len][0] == was[i..][0]; }
      assert was[..i + 1][..i] == was[..i] && answers[..i + 1][..i] == answers[..i];
      assert left[i + 1..len] == left[i..len][1..] == was[i + 1..];
      if answers[i] {
        sent := sent + [p];
      } else {
        left[kept] := p;
        kept := kept + 1;
      }
    }
    assert was[..len] == was && answers[..len] == answers;
  }

  /** The machine's query steps, one per answer. */
  function Queries(s: State, answers: seq<bool>): (s': State)
    requires s.poller.Sweeping? && |answers| <= |s.poller.rest|
    ensures s'.poller.Sweeping? && s'.poller.rest == s.poller.rest[|answers|..]
  {
    if answers == [] then s
    else DoQuery(Queries(s, answers[..|answers| - 1]), answers[|answers| - 1])
  }

  /** Interleaved with anything else, a sweep of the machine does to its queues what the array code does. */
  lemma {:induction false} MachineSweep(s: State, answers: seq<bool>)
    requires s.poller.Sweeping? && |answers| <= |s.poller.rest|
    ensures var s', seen := Queries(s, answers), s.poller.rest[..|answers|];
            && s'.poller.kept == s.poller.kept + Picked(seen, answers, false)
            && s'.copies.q == s.copies.q + Picked(seen, answers, true)
  {
    if answers != [] {
      var n := |answers| - 1;
      var rest := s.poller.rest;
      MachineSweep(s, answers[..n]);
      var t := Queries(s, answers[..n]);
      assert t.poller.rest[0] == rest[n] && rest[..n + 1][..n] == rest[..n];
      assert Queries(s, answers) == DoQuery(t, answers[n]);
    }
  }

  // ---- The whole poll ----

  function Flat(batches: seq<seq<nat>>): seq<nat> {
    if batches == [] then [] else Flat(batches[..|batches| - 1]) + batches[|batches| - 1]
  }

  lemma {:induction false} OccConcat(a: seq<nat>, b: seq<nat>, i: nat)
    ensures Occ(a + b, i) == Occ(a, i) + Occ(b, i)
  {
    if b == [] {
      assert a + b == a;
    } else {
      var n := |b| - 1;
      OccConcat(a, b[..n], i);
      OccPush(a + b[..n], b[n], i);
      assert a + b == (a + b[..n]) + [b[n]];
    }
  }

  lemma FlatPush(batches: seq<seq<nat>>, b: seq<nat>, i: nat)
    ensures Occ(Flat(batches + [b]), i) == Occ(Flat(batches), i) + Occ(b, i)
  {
    assert (batches + [b])[..|batches|] == batches;
    OccConcat(Flat(batches), b, i);
  }

  /** Dispatched and remaining hosts are together the pending ones, each as often as it was pending. */
  ghost predicate Accounts(pending: seq<nat>, batches: seq<seq<nat>>, left: seq<nat>) {
    forall i :: Occ(Flat(batches), i) + Occ(left, i) == Occ(pending, i)
  }

  lemma SweepAccounts(pending: seq<nat>, batches: seq<seq<nat>>, left: seq<nat>, answers: seq<bool>)
    requires |left| == |answers| && Accounts(pending, batches, left)
    ensures Accounts(pending, batches + [Picked(left, answers, true)], Picked(left, answers, false))
  {
    forall i ensures Occ(Flat(batches + [Picked(left, answers, true)]), i) + Occ(Picked(left, answers, false), i)
                     == Occ(pending, i) {
      FlatPush(batches, Picked(left, answers, true), i);
      PickedSplits(left, answers, i);
    }
  }

  ghost predicate EachInOrder(c: Config, batches: seq<seq<nat>>) {
    forall k :: 0 <= k < |batches| ==> InOrder(c, batches[k])
  }

  /**
   * Sweeps at every tick until nothing is pending or the build is over, then once more. Over all sweeps
   * nothing is lost or dispatched twice, and every sweep dispatches in order.
   */
  method PollBuilds(c: Config, pending: seq<nat>, ticks: nat) returns (batches: seq<seq<nat>>, unbuilt: seq<nat>)
    ensures Accounts(pending, batches, unbuilt)
    ensures EachInOrder(c, batches) && InOrder(c, unbuilt)
  {
    var left := SortedCopy(c, pending);
    var len: nat := left.Length;
    assert left[..len] == left[..];
    batches := [];
    var more, over := ticks, false;
    while len > 0 && !over
      invariant len <= left.Length && InOrder(c, left[..len])
      invariant Accounts(pending, batches, left[..len]) && EachInOrder(c, batches)
      decreases !over, more
    {
      if more == 0 { over := true; } else { over := *; more := more - 1; }
      var answers := StoreAnswers(len);
      ghost var was := left[..len];
      SweepAccounts(pending, batches, was, answers);
      PickedInOrder(c, was, answers, true);
      PickedInOrder(c, was, answers, false);
      var batch;
      len, batch := Sweep(left, len, answers);
      batches := batches + [batch];
    }
    unbuilt := left[..len];
  }

  method SortedCopy(c: Config, pending: seq<nat>) returns (left: array<nat>)
    ensures fresh(left) && InOrder(c, left[..]) && Accounts(pending, [], left[..])
  {
    var sorted := SortByOrder(c, pending);
    SortIsStable(c, pending, 0);
    left := new nat[|sorted|](k requires 0 <= k < |sorted| => sorted[k]);
    assert left[..] == sorted;
  }

  /** Whatever the store says about each pending path. */
  method StoreAnswers(n: nat) returns (answers: seq<bool>)
    ensures |answers| == n
  {
    answers := [];
    for i := 0 to n
      invariant |answers| == i
    {
      var yes: bool := *;
      answers := answers + [yes];
    }
  }
}
