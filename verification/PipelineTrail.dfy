/**
 * A schedule of the pipeline as it unfolds, one step at a time, with each deploy's outcome noted when it is known and
 * not before.
 */
module PipelineTrail {
  import opened Hosts
  import opened Pipeline
  import opened PipelineSafety
  import opened PipelineOutcome

  /** `ls` leads from the start to `s`, with the outcomes so far; a deploy worked exactly where one returned true. */
  ghost predicate Trail(c: Config, ticks: nat, o: Outcomes, ls: seq<Label>, s: State) {
    && c.Valid() && Inv(c, Start(c, ticks)) && CanRun(c, Start(c, ticks), ls)
    && AllFollow(c, o, Start(c, ticks), ls) && s == RunAll(c, Start(c, ticks), ls)
    && forall i :: 0 <= i < c.N() ==> (Works(c, o, i) <==> Verdict(i, Deployed) in s.hist.verdicts)
  }

  lemma TrailStart(c: Config, ticks: nat, copyOk: set<string>)
    requires c.Valid()
    ensures Trail(c, ticks, Outcomes(copyOk, {}), [], Start(c, ticks))
  {
    StartInv(c, ticks);
  }

  lemma VerdictsGrow(c: Config, s: State, l: Label)
    requires c.Valid() && Sound(c, s) && Enabled(c, s, l)
    ensures s.hist.verdicts <= Apply(c, s, l).hist.verdicts
  {
    if Decides(l) { DecisionGrows(c, s, l); } else { DecidesNothing(c, s, l); }
  }

  lemma DecisionGrows(c: Config, s: State, l: Label)
    requires c.Valid() && Sound(c, s) && Enabled(c, s, l) && Decides(l)
    ensures s.hist.verdicts <= Apply(c, s, l).hist.verdicts
  {
  }

  lemma {:induction false} VerdictsGrowAlong(c: Config, s: State, ls: seq<Label>)
    requires c.Valid() && Inv(c, s) && CanRun(c, s, ls)
    ensures s.hist.verdicts <= RunAll(c, s, ls).hist.verdicts
    decreases |ls|
  {
    if ls != [] {
      Keeps(c, s, ls[0]);
      VerdictsGrow(c, s, ls[0]);
      VerdictsGrowAlong(c, Apply(c, s, ls[0]), ls[1..]);
    }
  }

  lemma {:induction false} PrefixCount(a: seq<Verdict>, b: seq<Verdict>, i: nat)
    requires a <= b
    ensures Verdicts(a, i) <= Verdicts(b, i)
  {
    if |a| < |b| {
      PrefixCount(a, b[..|b| - 1], i);
    } else {
      assert a == b;
    }
  }

  lemma NameOwn(c: Config, i: nat, j: nat)
    requires c.Valid() && i < c.N() && j < c.N()
    ensures c.todo[i].host.name == c.todo[j].host.name <==> i == j
  {
  }

  /** The outcomes with host `x`'s deploy among those that work. */
  function Worked(c: Config, o: Outcomes, x: nat): Outcomes
    requires x < c.N()
  {
    o.(deployOk := o.deployOk + {c.todo[x].host.name})
  }

  lemma FinishJudged(c: Config, s: State, ok: bool)
    requires c.Valid() && Sound(c, s) && s.drain.Deploying?
    ensures Verdicts(DoFinish(c, s, ok).hist.verdicts, s.drain.id) > 0
  {
    JudgeCount(s.hist.verdicts, Verdict(s.drain.id, if ok then Deployed else DeployFailed), s.drain.id);
  }

  /** What is noted of a host without a verdict changes nothing that came before. */
  lemma {:induction false} AllFollowMore(c: Config, o: Outcomes, s: State, ls: seq<Label>, x: nat)
    requires c.Valid() && Inv(c, s) && CanRun(c, s, ls) && AllFollow(c, o, s, ls)
    requires x < c.N() && Verdicts(RunAll(c, s, ls).hist.verdicts, x) == 0
    ensures AllFollow(c, Worked(c, o, x), s, ls)
    decreases |ls|
  {
    if ls != [] {
      Keeps(c, s, ls[0]);
      var next := Apply(c, s, ls[0]);
      VerdictsGrowAlong(c, next, ls[1..]);
      PrefixCount(next.hist.verdicts, RunAll(c, next, ls[1..]).hist.verdicts, x);
      FollowsMore(c, o, s, ls[0], x);
      AllFollowMore(c, o, next, ls[1..], x);
    }
  }

  lemma FollowsMore(c: Config, o: Outcomes, s: State, l: Label, x: nat)
    requires c.Valid() && Sound(c, s) && Enabled(c, s, l) && Follows(c, o, s, l) && x < c.N()
    requires Verdicts(Apply(c, s, l).hist.verdicts, x) == 0
    ensures Follows(c, Worked(c, o, x), s, l)
  {
    if l.Finish? {
      FinishJudged(c, s, l.ok);
      NameOwn(c, s.drain.id, x);
    }
  }

  /** Deployed is said of a host only when its deploy ends with true. */
  lemma DeployedAppears(c: Config, s: State, l: Label, i: nat)
    requires c.Valid() && Sound(c, s) && Enabled(c, s, l)
    ensures Verdict(i, Deployed) in Apply(c, s, l).hist.verdicts <==>
            Verdict(i, Deployed) in s.hist.verdicts || (l == Finish(true) && s.drain.id == i)
  {
    if !Decides(l) { DecidesNothing(c, s, l); } else { DeployedAppearsThere(c, s, l, i); }
  }

  lemma DeployedAppearsThere(c: Config, s: State, l: Label, i: nat)
    requires c.Valid() && Sound(c, s) && Enabled(c, s, l) && Decides(l)
    ensures Verdict(i, Deployed) in Apply(c, s, l).hist.verdicts <==>
            Verdict(i, Deployed) in s.hist.verdicts || (l == Finish(true) && s.drain.id == i)
  {
  }

  /** The host being deployed has no verdict yet. */
  lemma DeployingUnjudged(c: Config, s: State)
    requires Inv(c, s) && s.drain.Deploying?
    ensures Verdicts(s.hist.verdicts, s.drain.id) == 0
  {
    assert Tracked(s, s.drain.id);
  }

  lemma NoVerdictNone(vs: seq<Verdict>, i: nat)
    requires Verdicts(vs, i) == 0
    ensures Verdict(i, Deployed) !in vs
  {
    if Verdict(i, Deployed) in vs {
      var k :| 0 <= k < |vs| && vs[k] == Verdict(i, Deployed);
      VerdictCounted(vs, k);
    }
  }

  /** The outcomes once the step is taken. */
  function Noting(c: Config, o: Outcomes, s: State, l: Label): Outcomes
    requires Sound(c, s) && Enabled(c, s, l)
  {
    if l == Finish(true) then Worked(c, o, s.drain.id) else o
  }

  /** One more step, with its outcome noted; copies go as was settled before. */
  lemma TrailStep(c: Config, ticks: nat, o: Outcomes, ls: seq<Label>, s: State, l: Label)
    requires Trail(c, ticks, o, ls, s) && Enabled(c, s, l)
    requires l.Copied? ==> (l.ok <==> c.todo[s.crew[l.w].id].host.name in o.copyOk)
    ensures Trail(c, ticks, Noting(c, o, s, l), ls + [l], Apply(c, s, l))
  {
    var o' := Noting(c, o, s, l);
    if l.Finish? {
      DeployingUnjudged(c, s);
      NoVerdictNone(s.hist.verdicts, s.drain.id);
      assert Works(c, o, s.drain.id) <==> false;
    }
    if l == Finish(true) { AllFollowMore(c, o, Start(c, ticks), ls, s.drain.id); }
    OneMore(c, o', Start(c, ticks), ls, l);
    forall i | 0 <= i < c.N() ensures Works(c, o', i) <==> Verdict(i, Deployed) in Apply(c, s, l).hist.verdicts {
      DeployedAppears(c, s, l, i);
      if l == Finish(true) { NameOwn(c, i, s.drain.id); }
    }
  }
}
