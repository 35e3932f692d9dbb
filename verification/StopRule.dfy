/** Which failures cancel the rest of the run, said of the results and the order of arrival. */
module StopRule {
  import opened Hosts
  import opened Pipeline
  import opened PipelineSafety
  import opened PipelineOutcome

  /** The host at this position failed, and it is a k3s node or every failure is final. */
  predicate Stops(c: Config, order: seq<nat>, statuses: seq<Status>, p: nat) {
    && p < |order| && p < |statuses| && order[p] < c.N() && statuses[p] == DeployFailed
    && ("k3s" in c.todo[order[p]].host.groups || c.stopOnFailure)
  }

  /** The host at position `q` is cancelled exactly if one before it stops the run; else it has what its deploy gave. */
  ghost predicate RightAt(c: Config, works: set<string>, order: seq<nat>, statuses: seq<Status>, q: nat)
    requires q < |order| && q < |statuses| && order[q] < c.N()
  {
    && (statuses[q] == Cancelled <==> exists p :: 0 <= p < q && Stops(c, order, statuses, p))
    && (statuses[q] != Cancelled ==>
          statuses[q] == if c.todo[order[q]].host.name in works then Deployed else DeployFailed)
  }

  function Statuses(vs: seq<Verdict>): (r: seq<Status>)
    ensures |r| == |vs| && forall k :: 0 <= k < |vs| ==> r[k] == vs[k].status
  {
    seq(|vs|, k requires 0 <= k < |vs| => vs[k].status)
  }

  ghost predicate SomeStops(c: Config, order: seq<nat>, statuses: seq<Status>) {
    exists p :: 0 <= p < |order| && Stops(c, order, statuses, p)
  }

  ghost predicate Right(c: Config, works: set<string>, order: seq<nat>, statuses: seq<Status>) {
    && Within(order, c.N()) && |statuses| == |order|
    && forall q :: 0 <= q < |order| ==> RightAt(c, works, order, statuses, q)
  }

  lemma StopsPrefix(c: Config, order: seq<nat>, statuses: seq<Status>, i: nat, x: Status, p: nat)
    requires p < |order| == |statuses|
    ensures Stops(c, order, statuses, p) <==> Stops(c, order + [i], statuses + [x], p)
  {
  }

  lemma StopsBefore(c: Config, order: seq<nat>, statuses: seq<Status>, i: nat, x: Status, q: nat)
    requires q <= |order| == |statuses|
    ensures (exists p :: 0 <= p < q && Stops(c, order, statuses, p)) <==>
            (exists p :: 0 <= p < q && Stops(c, order + [i], statuses + [x], p))
  {
    forall p | 0 <= p < q ensures Stops(c, order, statuses, p) <==> Stops(c, order + [i], statuses + [x], p) {
      StopsPrefix(c, order, statuses, i, x, p);
    }
  }

  lemma RightStep(c: Config, works: set<string>, order: seq<nat>, statuses: seq<Status>, i: nat, x: Status)
    requires Right(c, works, order, statuses) && i < c.N()
    requires x == if SomeStops(c, order, statuses) then Cancelled
                  else if c.todo[i].host.name in works then Deployed else DeployFailed
    ensures Right(c, works, order + [i], statuses + [x])
    ensures SomeStops(c, order + [i], statuses + [x]) <==>
            SomeStops(c, order, statuses)
            || (x == DeployFailed && ("k3s" in c.todo[i].host.groups || c.stopOnFailure))
  {
    var n := |order|;
    forall q | 0 <= q <= n ensures RightAt(c, works, order + [i], statuses + [x], q) {
      StopsBefore(c, order, statuses, i, x, q);
      if q < n { assert RightAt(c, works, order, statuses, q); }
    }
    StopsBefore(c, order, statuses, i, x, n);
    assert Stops(c, order + [i], statuses + [x], n) <==>
           x == DeployFailed && ("k3s" in c.todo[i].host.groups || c.stopOnFailure);
  }

  /** The activation worker cancels every host after a failure that stops the run, and no other. */
  lemma {:induction false} DrainedRight(c: Config, o: Outcomes, order: seq<nat>)
    requires Within(order, c.N())
    ensures var f := Drained(c, o, order);
            && (forall k :: 0 <= k < |order| ==> f.verdicts[k].id == order[k])
            && (f.halted <==> SomeStops(c, order, Statuses(f.verdicts)))
            && Right(c, o.deployOk, order, Statuses(f.verdicts))
  {
    if order != [] {
      var n := |order| - 1;
      var front, i := order[..n], order[n];
      assert order == front + [i];
      DrainedRight(c, o, front);
      var f, f' := Drained(c, o, front), Drained(c, o, order);
      assert f' == DrainOne(c, o, f, i);
      var x := f'.verdicts[n].status;
      assert Statuses(f'.verdicts) == Statuses(f.verdicts) + [x];
      RightStep(c, o.deployOk, front, Statuses(f.verdicts), i, x);
    }
  }

  /** What the results say of each host in the order of arrival. */
  function ResultsOf(results: seq<Status>, order: seq<nat>): (r: seq<Status>)
    requires Within(order, |results|)
    ensures |r| == |order| && forall k :: 0 <= k < |order| ==> r[k] == results[order[k]]
  {
    seq(|order|, k requires 0 <= k < |order| => results[order[k]])
  }

  ghost predicate OnceEach(order: seq<nat>) {
    forall p, q :: 0 <= p < q < |order| ==> order[p] != order[q]
  }

  lemma {:induction false} OccOnce(order: seq<nat>, p: nat, q: nat)
    requires p < q < |order| && order[p] == order[q]
    ensures Occ(order, order[p]) >= 2
  {
    var n := |order| - 1;
    if q < n { OccOnce(order[..n], p, q); } else { OccAt(order[..n], p); }
  }

  lemma {:induction false} OccAt(order: seq<nat>, p: nat)
    requires p < |order|
    ensures Occ(order, order[p]) >= 1
  {
    var n := |order| - 1;
    if p < n { OccAt(order[..n], p); }
  }

  lemma {:induction false} SaidAtOwn(vs: seq<Verdict>, order: seq<nat>, q: nat)
    requires |vs| == |order| && OnceEach(order) && (forall k :: 0 <= k < |vs| ==> vs[k].id == order[k])
    requires q < |order|
    ensures Said(vs, order[q]) == vs[q].status
  {
    var n := |vs| - 1;
    if q < n { SaidAtOwn(vs[..n], order[..n], q); }
  }

  lemma CountedOnce(order: seq<nat>, n: nat)
    requires Within(order, n) && forall i :: 0 <= i < n ==> Occ(order, i) <= 1
    ensures OnceEach(order)
  {
    forall p, q | 0 <= p < q < |order| ensures order[p] != order[q] {
      if order[p] == order[q] { OccOnce(order, p, q); }
    }
  }

  lemma {:induction false} OccIn(order: seq<nat>, i: nat)
    ensures i in order <==> Occ(order, i) > 0
  {
    if order != [] {
      var n := |order| - 1;
      OccIn(order[..n], i);
      assert order == order[..n] + [order[n]];
    }
  }

  lemma AtTheEnd(c: Config, o: Outcomes, ticks: nat, ls: seq<Label>, s: State)
    requires Ends(c, o, ticks, ls, s)
    ensures |s.results| == c.N() && Within(s.hist.arrivals, c.N())
  {
    StartExplained(c, o, ticks);
    RunExplained(c, o, Start(c, ticks), ls);
  }

  lemma ArrivedOnce(c: Config, o: Outcomes, ticks: nat, ls: seq<Label>, s: State, i: nat)
    requires Ends(c, o, ticks, ls, s) && i < c.N()
    ensures Within(s.hist.arrivals, c.N()) && i < |s.results| == c.N()
    ensures Occ(s.hist.arrivals, i) == Flag(Arrived(s.results[i]))
    ensures Arrived(s.results[i]) ==> s.results[i] == Said(Drained(c, o, s.hist.arrivals).verdicts, i)
  {
    BuildAndCopyFailuresFixed(c, o, ticks, ls, s, i);
    ActivationIsSequentialFold(c, o, ticks, ls, s, i);
    EndExplained(c, o, ticks, ls, s, i);
  }

  /** Every host's status is settled by when it arrived and by which hosts before it failed. */
  ghost predicate StoppedOnlyByFailures(c: Config, works: set<string>, results: seq<Status>, order: seq<nat>) {
    && |results| == c.N() && Within(order, c.N()) && OnceEach(order)
    && (forall i :: 0 <= i < c.N() ==> (i in order <==> Arrived(results[i])))
    && Right(c, works, order, ResultsOf(results, order))
  }

  /**
   * In every finished schedule the hosts that reach activation do so once each, and one of them is cancelled
   * if and only if a host that arrived before it failed and is a k3s node, or failed at all when a failure is
   * final. Every other one has what its own deploy gave.
   */
  lemma CancelledIff(c: Config, o: Outcomes, ticks: nat, ls: seq<Label>, s: State)
    requires Ends(c, o, ticks, ls, s)
    ensures StoppedOnlyByFailures(c, o.deployOk, s.results, s.hist.arrivals)
  {
    var order := s.hist.arrivals;
    AtTheEnd(c, o, ticks, ls, s);
    forall i | 0 <= i < c.N()
      ensures Occ(order, i) == Flag(Arrived(s.results[i])) && (i in order <==> Arrived(s.results[i]))
      ensures Arrived(s.results[i]) ==> s.results[i] == Said(Drained(c, o, order).verdicts, i)
    {
      ArrivedOnce(c, o, ticks, ls, s, i);
      OccIn(order, i);
    }
    CountedOnce(order, c.N());
    DrainedRight(c, o, order);
    var vs := Drained(c, o, order).verdicts;
    forall q | 0 <= q < |order| ensures ResultsOf(s.results, order)[q] == Statuses(vs)[q] {
      SaidAtOwn(vs, order, q);
      assert order[q] in order;
    }
    assert ResultsOf(s.results, order) == Statuses(vs);
  }
}
