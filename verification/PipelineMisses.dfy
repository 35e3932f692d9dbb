/**
 * Schedules that differ only in what the last sweep's store queries answered, and in what they report of one host for
 * that reason alone.
 */
module PipelineMisses {
  import opened Hosts
  import opened Pipeline
  import opened PipelineSafety
  import opened PipelineProgress
  import opened PipelineOutcome

  /** An enabled step with the given outcomes; unless `honest`, every store query says the path is not there. */
  method Choose(c: Config, o: Outcomes, s: State, honest: bool) returns (l: Label)
    requires c.Valid() && Inv(c, s) && !s.drain.Returned?
    ensures Enabled(c, s, l) && Follows(c, o, s, l)
    ensures l.Query? ==> (l.yes <==> honest && Visible(c, s, s.poller.rest[0]))
  {
    l := NextStep(c, s);
    match l {
      case Query(_) =>
        SendsNeverBlock(c, s);
        l := Query(honest && Visible(c, s, s.poller.rest[0]));
      case Copied(w, _) => l := Copied(w, c.todo[s.crew[w].id].host.name in o.copyOk);
      case Finish(_) => l := Finish(c.todo[s.drain.id].host.name in o.deployOk);
      case _ =>
    }
  }

  ghost predicate AllUpToDate(c: Config, q: seq<nat>) {
    forall k :: 0 <= k < |q| ==> q[k] < c.N() && c.todo[q[k]].upToDate
  }

  /** No host that needs a build has got past the poller. */
  ghost predicate Unserved(c: Config, s: State) {
    && s.copies.q == [] && (forall w :: 0 <= w < |s.crew| ==> s.crew[w].Idle? || s.crew[w].Exited?)
    && AllUpToDate(c, s.acts.q) && AllUpToDate(c, s.hist.arrivals)
    && forall k :: 0 <= k < |s.hist.verdicts| ==> s.hist.verdicts[k].status != CopyFailed
  }

  lemma UnservedDecision(c: Config, s: State, l: Label)
    requires c.Valid() && Sound(c, s) && Unserved(c, s) && Enabled(c, s, l) && Decides(l)
    ensures Unserved(c, Apply(c, s, l))
  {
  }

  lemma StaysUnserved(c: Config, s: State, l: Label)
    requires c.Valid() && Sound(c, s) && Unserved(c, s) && Enabled(c, s, l) && l != Query(true)
    ensures Unserved(c, Apply(c, s, l))
  {
    if Decides(l) { UnservedDecision(c, s, l); }
  }

  lemma NoMiss(c: Config, s: State, l: Label)
    requires c.Valid() && Sound(c, s) && Enabled(c, s, l)
    requires l.Query? ==> (l.yes <==> Visible(c, s, s.poller.rest[0]))
    ensures Apply(c, s, l).supply.missed == s.supply.missed
  {
  }

  lemma {:induction false} NeverArrived(c: Config, q: seq<nat>, i: nat)
    requires AllUpToDate(c, q) && i < c.N() && !c.todo[i].upToDate
    ensures Occ(q, i) == 0
  {
    if q != [] { NeverArrived(c, q[..|q| - 1], i); }
  }

  lemma UnservedEnd(c: Config, o: Outcomes, ticks: nat, ls: seq<Label>, s: State, i: nat)
    requires Ends(c, o, ticks, ls, s) && Unserved(c, s) && i < c.N() && !c.todo[i].upToDate
    ensures i < |s.results| && s.results[i] == BuildFailed
  {
    EndExplained(c, o, ticks, ls, s, i);
    NeverArrived(c, s.hist.arrivals, i);
    assert Tracked(s, i);
    var k := FindVerdict(s.hist.verdicts, i);
  }

  /** A schedule to the end with any given outcomes, under honest answers or under misses throughout. */
  method RunToEnd(c: Config, o: Outcomes, ticks: nat, honest: bool) returns (ls: seq<Label>, s: State)
    requires c.Valid()
    ensures Ends(c, o, ticks, ls, s)
    ensures honest ==> s.supply.missed == []
    ensures !honest ==> Unserved(c, s)
  {
    StartInv(c, ticks);
    s, ls := Start(c, ticks), [];
    while !s.drain.Returned?
      invariant Inv(c, s) && Inv(c, Start(c, ticks)) && CanRun(c, Start(c, ticks), ls)
      invariant AllFollow(c, o, Start(c, ticks), ls) && s == RunAll(c, Start(c, ticks), ls)
      invariant honest ==> s.supply.missed == []
      invariant !honest ==> Unserved(c, s)
      decreases Measure(c, s)
    {
      MeasureNonNegative(c, s);
      var l := Choose(c, o, s, honest);
      if honest { NoMiss(c, s, l); } else { StaysUnserved(c, s, l); }
      OneMore(c, o, Start(c, ticks), ls, l);
      Decreases(c, s, l);
      Keeps(c, s, l);
      ls, s := ls + [l], Apply(c, s, l);
    }
  }

  /**
   * Where the result depends on timing: for every host that needs a build and whose path does appear, and
   * with every other outcome fixed, one schedule builds it and another, whose last query misses the path,
   * reports it BuildFailed.
   */
  method MissChangesResult(c: Config, o: Outcomes, ticks: nat, i: nat)
    returns (ls1: seq<Label>, s1: State, ls2: seq<Label>, s2: State)
    requires c.Valid() && i < c.N() && !c.todo[i].upToDate && Buildable(c, i)
    ensures Ends(c, o, ticks, ls1, s1) && Ends(c, o, ticks, ls2, s2)
    ensures i < |s1.results| && i < |s2.results|
    ensures !Missed(s1, i) && s1.results[i] != BuildFailed
    ensures Missed(s2, i) && s2.results[i] == BuildFailed
  {
    ls1, s1 := RunToEnd(c, o, ticks, true);
    ls2, s2 := RunToEnd(c, o, ticks, false);
    BuildAndCopyFailuresFixed(c, o, ticks, ls1, s1, i);
    UnservedEnd(c, o, ticks, ls2, s2, i);
    BuildAndCopyFailuresFixed(c, o, ticks, ls2, s2, i);
  }
}
