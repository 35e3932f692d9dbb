/** A whole run: the pipeline or the serial loop over deploys, and the exit code. */
module Fleet {
  import opened Hosts
  import opened Wire
  import opened Session
  import D = Deploy
  import Watchdog
  import WatchdogTheorems
  import opened Pipeline
  import opened PipelineSafety
  import opened PipelineProgress
  import opened PipelineSupply
  import opened PipelineOutcome
  import opened StopRule
  import opened PipelineTrail
  import opened Listing

  ghost predicate VerdictsWithin(c: Config, vs: seq<Verdict>) {
    forall k :: 0 <= k < |vs| ==> vs[k].id < c.N()
  }

  /** The deploy of job `i` ends: its own name and its own planned path. */
  function DeployOf(c: Config, i: nat, ok: bool): Event
    requires i < c.N()
  {
    End(c.todo[i].host.name, c.todo[i].path, ok)
  }

  function BeginOf(c: Config, mode: Mode, i: nat): Event
    requires i < c.N()
  {
    Begin(c.todo[i].host, c.todo[i].path, mode)
  }

  /** The starts and ends of the deploys that verdicts stand for, in order. */
  function DeployEvents(c: Config, mode: Mode, vs: seq<Verdict>): seq<Event>
    requires VerdictsWithin(c, vs)
  {
    if vs == [] then []
    else
      var n := |vs| - 1;
      var front := DeployEvents(c, mode, vs[..n]);
      if Called(vs[n].status)
        then front + [BeginOf(c, mode, vs[n].id), DeployOf(c, vs[n].id, vs[n].status.Deployed?)]
        else front
  }

  lemma EventsAppend(c: Config, mode: Mode, vs: seq<Verdict>, v: Verdict)
    requires VerdictsWithin(c, vs) && v.id < c.N()
    ensures DeployEvents(c, mode, vs + [v]) ==
            if Called(v.status)
            then DeployEvents(c, mode, vs) + [BeginOf(c, mode, v.id), DeployOf(c, v.id, v.status.Deployed?)]
            else DeployEvents(c, mode, vs)
  {
    assert (vs + [v])[..|vs|] == vs;
  }

  /** One more deploy. */
  lemma EventsExtend(base: seq<Event>, c: Config, mode: Mode, vs: seq<Verdict>, i: nat, ok: bool)
    requires VerdictsWithin(c, vs) && i < c.N()
    ensures var vs' := vs + [Verdict(i, if ok then Deployed else DeployFailed)];
            VerdictsWithin(c, vs')
            && base + DeployEvents(c, mode, vs) + [BeginOf(c, mode, i), DeployOf(c, i, ok)]
               == base + DeployEvents(c, mode, vs')
  {
    EventsAppend(c, mode, vs, Verdict(i, if ok then Deployed else DeployFailed));
  }

  /** The event starts or ends the deploy of one of the jobs, at that job's path and in that mode. */
  ghost predicate OfJob(jobs: seq<Job>, mode: Mode, e: Event) {
    match e
    case Begin(h, p, m) => m == mode && exists k :: 0 <= k < |jobs| && jobs[k].host == h && jobs[k].path == p
    case End(n, p, _) => PathOf(jobs, n, p)
    case _ => true
  }

  /** One of the jobs takes the host of that name to that path. */
  ghost predicate PathOf(jobs: seq<Job>, name: string, path: string) {
    exists k :: 0 <= k < |jobs| && jobs[k].host.name == name && jobs[k].path == path
  }

  lemma {:induction false} EventsOfJobs(c: Config, mode: Mode, vs: seq<Verdict>, e: Event)
    requires VerdictsWithin(c, vs) && e in DeployEvents(c, mode, vs)
    ensures OfJob(c.todo, mode, e)
  {
    var n := |vs| - 1;
    if e in DeployEvents(c, mode, vs[..n]) {
      EventsOfJobs(c, mode, vs[..n], e);
    } else {
      assert c.todo[vs[n].id].path == c.todo[vs[n].id].path;
    }
  }

  /** The event starts, ends or belongs to the deploy of one of the jobs, and any path it carries is that job's. */
  ghost predicate Carries(jobs: seq<Job>, mode: Mode, e: Event) {
    if e.Sent? && WatchdogTheorems.MovesPath(e.cmd)
    then PathOf(jobs, e.name, e.cmd.path)
    else OfJob(jobs, mode, e)
  }

  lemma SameTail(a: seq<Event>, b: seq<Event>, c: seq<Event>)
    requires a + b == a + c
    ensures b == c
  {
    assert (a + b)[|a|..] == b && (a + c)[|a|..] == c;
  }

  lemma NewMark(log: seq<Event>, log': seq<Event>, c: Config, mode: Mode, vs: seq<Verdict>, j: nat)
    requires log <= log' && |log| <= j < |log'| && Marks(log'[j]) && VerdictsWithin(c, vs)
    requires Deploys(log') == Deploys(log) + DeployEvents(c, mode, vs)
    ensures OfJob(c.todo, mode, log'[j])
  {
    var new' := log'[|log|..];
    assert log' == log + new' && log'[j] == new'[j - |log|];
    DeploysAppend(log, new');
    SameTail(Deploys(log), Deploys(new'), DeployEvents(c, mode, vs));
    MarkInDeploys(new', j - |log|);
    EventsOfJobs(c, mode, vs, log'[j]);
  }

  /** Every event a run adds is about one of its jobs, at that job's own path. */
  lemma NewEventsCarry(log: seq<Event>, log': seq<Event>, c: Config, mode: Mode, vs: seq<Verdict>)
    requires log <= log' && VerdictsWithin(c, vs)
    requires Watchdog.WatchOf(log').lawful && !Watchdog.WatchOf(log).open
    requires Deploys(log') == Deploys(log) + DeployEvents(c, mode, vs)
    ensures forall j :: |log| <= j < |log'| ==> Carries(c.todo, mode, log'[j])
  {
    forall j | |log| <= j < |log'| ensures Carries(c.todo, mode, log'[j]) {
      if Marks(log'[j]) {
        NewMark(log, log', c, mode, vs, j);
      } else if log'[j].Sent? && WatchdogTheorems.MovesPath(log'[j].cmd) {
        assert log'[..|log|] == log;
        var b := WatchdogTheorems.SentUnderBegin(log', |log|, j);
        NewMark(log, log', c, mode, vs, b);
      }
    }
  }

  /** A host's deploy returned true exactly when it has that verdict. */
  lemma {:induction false} EventMeansVerdict(c: Config, mode: Mode, vs: seq<Verdict>, i: nat)
    requires c.Valid() && VerdictsWithin(c, vs) && i < c.N()
    ensures DeployOf(c, i, true) in DeployEvents(c, mode, vs) <==> Verdict(i, Deployed) in vs
  {
    if vs != [] {
      var n := |vs| - 1;
      EventMeansVerdict(c, mode, vs[..n], i);
      EventsAppend(c, mode, vs[..n], vs[n]);
      assert vs == vs[..n] + [vs[n]];
      c.SlotOwn(i);
      c.SlotOwn(vs[n].id);
    }
  }

  /** A host's deploy returned false exactly when it has that verdict. */
  lemma {:induction false} FalseMeansVerdict(c: Config, mode: Mode, vs: seq<Verdict>, i: nat)
    requires c.Valid() && VerdictsWithin(c, vs) && i < c.N()
    ensures DeployOf(c, i, false) in DeployEvents(c, mode, vs) <==> Verdict(i, DeployFailed) in vs
  {
    if vs != [] {
      var n := |vs| - 1;
      FalseMeansVerdict(c, mode, vs[..n], i);
      EventsAppend(c, mode, vs[..n], vs[n]);
      assert vs == vs[..n] + [vs[n]];
      c.SlotOwn(i);
      c.SlotOwn(vs[n].id);
    }
  }

  // ---- Safe mode: the pipeline ----

  /** A verdict other than of a deploy leaves the record of deploys alone. */
  lemma VerdictOnly(c: Config, vs: seq<Verdict>, v: Verdict)
    requires VerdictsWithin(c, vs) && v.id < c.N() && !Called(v.status)
    ensures VerdictsWithin(c, vs + [v]) && DeployEvents(c, Safe, vs + [v]) == DeployEvents(c, Safe, vs)
  {
    EventsAppend(c, Safe, vs, v);
  }

  lemma OtherVerdicts(c: Config, st: State, l: Label)
    requires c.Valid() && Sound(c, st) && Enabled(c, st, l) && !l.Finish?
    ensures var vs, vs' := st.hist.verdicts, Apply(c, st, l).hist.verdicts;
            vs' == vs || exists v: Verdict :: v.id < c.N() && !Called(v.status) && vs' == vs + [v]
  {
    if l.Mark? {
      assert Apply(c, st, l).hist.verdicts == st.hist.verdicts + [Verdict(st.poller.unbuilt[0], BuildFailed)];
    } else if l.Copied? && !l.ok {
      assert Apply(c, st, l).hist.verdicts == st.hist.verdicts + [Verdict(st.crew[l.w].id, CopyFailed)];
    } else if l.Receive? && st.halted {
      assert Apply(c, st, l).hist.verdicts == st.hist.verdicts + [Verdict(st.acts.q[0], Cancelled)];
    } else {
      assert Apply(c, st, l).hist.verdicts == st.hist.verdicts;
    }
  }

  /** No step but the end of a deploy touches the record of deploys. */
  lemma OtherHistory(c: Config, st: State, l: Label)
    requires c.Valid() && Sound(c, st) && Enabled(c, st, l) && !l.Finish? && VerdictsWithin(c, st.hist.verdicts)
    ensures var vs' := Apply(c, st, l).hist.verdicts;
            VerdictsWithin(c, vs') && DeployEvents(c, Safe, vs') == DeployEvents(c, Safe, st.hist.verdicts)
  {
    OtherVerdicts(c, st, l);
    var vs, vs' := st.hist.verdicts, Apply(c, st, l).hist.verdicts;
    if vs' != vs {
      var v: Verdict :| v.id < c.N() && !Called(v.status) && vs' == vs + [v];
      VerdictOnly(c, vs, v);
    }
  }

  lemma OtherDrain(c: Config, st: State, l: Label)
    requires c.Valid() && Sound(c, st) && Enabled(c, st, l) && !l.Finish? && (st.drain.Deploying? ==> !st.halted)
    ensures var st' := Apply(c, st, l); st'.halted == st.halted && (st'.drain.Deploying? ==> !st'.halted)
  {
  }

  /** The run's log agrees with the verdicts, and an outstanding noout has stopped further deploys. */
  ghost predicate Linked(s: Session, c: Config, mode: Mode, vs: seq<Verdict>, halted: bool, since: Since)
    reads s
  {
    && D.Between(s) && since.log <= s.log && VerdictsWithin(c, vs)
    && s.deploys == since.deploys + DeployEvents(c, mode, vs)
    && (s.gate.held != {} ==> halted && s.gate.held == {s.gate.host.name})
    && D.NooutWarnings(s.warnings) == since.noouts + if s.gate.held != {} then [s.gate.host.name] else []
  }

  /** What a session had on record when a run began. */
  datatype Since = Since(log: seq<Event>, deploys: seq<Event>, noouts: seq<string>)

  ghost function Now(s: Session): Since
    reads s
  {
    Since(s.log, s.deploys, D.NooutWarnings(s.warnings))
  }

  /** Activate one host and close its master. */
  method Activate(s: Session, c: Config, i: nat, mode: Mode, flag: D.RebootFlag, ghost vs: seq<Verdict>,
                  ghost since: Since) returns (ok: bool)
    requires i < c.N() && CephInK3s(c.todo[i].host)
    requires s.gate.held == {} && Linked(s, c, mode, vs, false, since)
    modifies s
    ensures Linked(s, c, mode, vs + [Verdict(i, if ok then Deployed else DeployFailed)],
                   !ok && Halts(c, i), since)
  {
    var job := c.todo[i];
    assert since.noouts + [] == since.noouts;
    ok := D.DeployAndHangUp(s, job.host, mode, job.path, flag);
    EventsExtend(since.deploys, c, mode, vs, i, ok);
  }

  lemma FinishTurn(c: Config, st: State, ok: bool)
    requires c.Valid() && Inv(c, st) && st.drain.Deploying? && !st.halted
    ensures var st' := DoFinish(c, st, ok);
            && Inv(c, st') && Measure(c, st') < Measure(c, st) && st'.drain.Receiving?
            && st'.halted == (!ok && Halts(c, st.drain.id))
            && st'.hist.verdicts == st.hist.verdicts + [Verdict(st.drain.id, if ok then Deployed else DeployFailed)]
  {
    Keeps(c, st, Finish(ok));
    Decreases(c, st, Finish(ok));
  }

  lemma OtherTurn(c: Config, st: State, l: Label)
    requires c.Valid() && Inv(c, st) && Enabled(c, st, l) && !l.Finish? && VerdictsWithin(c, st.hist.verdicts)
    requires st.drain.Deploying? ==> !st.halted
    ensures var st' := Apply(c, st, l);
            && Inv(c, st') && Measure(c, st') < Measure(c, st) && (st'.drain.Deploying? ==> !st'.halted)
            && VerdictsWithin(c, st'.hist.verdicts) && st'.halted == st.halted
            && DeployEvents(c, Safe, st'.hist.verdicts) == DeployEvents(c, Safe, st.hist.verdicts)
  {
    OtherHistory(c, st, l);
    OtherDrain(c, st, l);
    Keeps(c, st, l);
    Decreases(c, st, l);
  }

  /** A schedule so far: its steps, the outcomes known by now, and where it is. */
  datatype Course = Course(ticks: nat, o: Outcomes, ls: seq<Label>)

  ghost predicate Runs(c: Config, k: Course, st: State) { Trail(c, k.ticks, k.o, k.ls, st) }

  function Onward(c: Config, k: Course, st: State, l: Label): Course
    requires Sound(c, st) && Enabled(c, st, l)
  {
    Course(k.ticks, Noting(c, k.o, st, l), k.ls + [l])
  }

  /** One turn of the scheduler: any enabled step may be taken. */
  method Turn(s: Session, c: Config, st: State, copyOk: set<string>, flag: D.RebootFlag,
              ghost k: Course, ghost since: Since) returns (st': State, ghost k': Course)
    requires c.Valid() && Inv(c, st) && Supplied(c, st) && !st.drain.Returned? && (st.drain.Deploying? ==> !st.halted)
    requires Runs(c, k, st) && k.o.copyOk == copyOk
    requires forall i :: 0 <= i < c.N() ==> CephInK3s(c.todo[i].host)
    requires Linked(s, c, Safe, st.hist.verdicts, st.halted, since)
    modifies s
    ensures Inv(c, st') && Supplied(c, st') && Runs(c, k', st') && k'.o.copyOk == copyOk && k'.ticks == k.ticks
    ensures Measure(c, st') < Measure(c, st) && (st'.drain.Deploying? ==> !st'.halted)
    ensures Linked(s, c, Safe, st'.hist.verdicts, st'.halted, since)
  {
    var l := Choice(c, st, copyOk);
    if l.Finish? {
      st', k' := FinishDeploy(s, c, st, flag, k, since);
    } else {
      k' := OtherGoes(c, k, st, l);
      st' := Apply(c, st, l);
    }
  }

  lemma OtherGoes(c: Config, k: Course, st: State, l: Label) returns (k': Course)
    requires c.Valid() && Inv(c, st) && Supplied(c, st) && Runs(c, k, st) && Enabled(c, st, l) && !l.Finish?
    requires (st.drain.Deploying? ==> !st.halted) && VerdictsWithin(c, st.hist.verdicts)
    requires l.Copied? ==> (l.ok <==> c.todo[st.crew[l.w].id].host.name in k.o.copyOk)
    ensures var st' := Apply(c, st, l);
            && Inv(c, st') && Supplied(c, st') && Measure(c, st') < Measure(c, st)
            && (st'.drain.Deploying? ==> !st'.halted) && st'.halted == st.halted
            && Runs(c, k', st') && k'.o.copyOk == k.o.copyOk && k'.ticks == k.ticks
            && VerdictsWithin(c, st'.hist.verdicts)
            && DeployEvents(c, Safe, st'.hist.verdicts) == DeployEvents(c, Safe, st.hist.verdicts)
  {
    OtherTurn(c, st, l);
    KeepsSupplied(c, st, l);
    TrailStep(c, k.ticks, k.o, k.ls, st, l);
    k' := Onward(c, k, st, l);
  }

  /** Any enabled step; a copy succeeds as was settled for its host beforehand. */
  method Choice(c: Config, st: State, copyOk: set<string>) returns (l: Label)
    requires c.Valid() && Inv(c, st) && !st.drain.Returned?
    ensures Enabled(c, st, l)
    ensures l.Copied? ==> (l.ok <==> c.todo[st.crew[l.w].id].host.name in copyOk)
  {
    l := NextStep(c, st);
    var wish: Label := *;
    if Enabled(c, st, wish) { l := wish; }
    match l {
      case Copied(w, _) => l := Copied(w, c.todo[st.crew[w].id].host.name in copyOk);
      case _ =>
    }
  }

  /** The activation worker's step: the deploy itself. */
  method FinishDeploy(s: Session, c: Config, st: State, flag: D.RebootFlag, ghost k: Course, ghost since: Since)
    returns (st': State, ghost k': Course)
    requires c.Valid() && Inv(c, st) && Supplied(c, st) && st.drain.Deploying? && !st.halted && Runs(c, k, st)
    requires CephInK3s(c.todo[st.drain.id].host) && Linked(s, c, Safe, st.hist.verdicts, false, since)
    modifies s
    ensures Inv(c, st') && Supplied(c, st') && Measure(c, st') < Measure(c, st) && st'.drain.Receiving?
    ensures Runs(c, k', st') && k'.o.copyOk == k.o.copyOk && k'.ticks == k.ticks
    ensures Linked(s, c, Safe, st'.hist.verdicts, st'.halted, since)
  {
    var ok := Activate(s, c, st.drain.id, Safe, flag, st.hist.verdicts, since);
    k' := FinishGoes(c, k, st, ok);
    st' := DoFinish(c, st, ok);
  }

  lemma FinishGoes(c: Config, k: Course, st: State, ok: bool) returns (k': Course)
    requires c.Valid() && Inv(c, st) && Supplied(c, st) && st.drain.Deploying? && !st.halted && Runs(c, k, st)
    ensures var st' := DoFinish(c, st, ok);
            && Inv(c, st') && Supplied(c, st') && Measure(c, st') < Measure(c, st) && st'.drain.Receiving?
            && st'.halted == (!ok && Halts(c, st.drain.id))
            && Runs(c, k', st') && k'.o.copyOk == k.o.copyOk && k'.ticks == k.ticks
            && st'.hist.verdicts == st.hist.verdicts + [Verdict(st.drain.id, if ok then Deployed else DeployFailed)]
  {
    FinishTurn(c, st, ok);
    KeepsSupplied(c, st, Finish(ok));
    TrailStep(c, k.ticks, k.o, k.ls, st, Finish(ok));
    k' := Onward(c, k, st, Finish(ok));
  }

  lemma OnReturn(c: Config, st: State, i: nat)
    requires c.Valid() && Inv(c, st) && Supplied(c, st) && st.drain.Returned? && i < c.N()
    ensures Verdicts(st.hist.verdicts, i) == 1 && i < |st.results| && st.results[i] == Said(st.hist.verdicts, i)
    ensures Called(st.results[i]) ==> Delivered(c, st.supply.shipped, i)
  {
    FinishedIsEmpty(c, st, i);
    assert Tracked(st, i);
    if Called(st.results[i]) {
      var k := FindOcc(st.hist.arrivals, i);
      assert Delivered(c, st.supply.shipped, st.hist.arrivals[k]);
    }
  }

  lemma {:induction false} FindOcc(q: seq<nat>, i: nat) returns (k: nat)
    requires Occ(q, i) > 0
    ensures k < |q| && q[k] == i
  {
    var n := |q| - 1;
    if q[n] == i { k := n; } else { k := FindOcc(q[..n], i); }
  }

  /** The run is this schedule of the machine, and a host's deploy works where it returned true. */
  ghost predicate IsSchedule(c: Config, k: Course, end: State, vs: seq<Verdict>)
    requires VerdictsWithin(c, vs)
  {
    && Ends(c, k.o, k.ticks, k.ls, end) && end.hist.verdicts == vs
    && forall i :: 0 <= i < c.N() ==> (Works(c, k.o, i) <==> DeployOf(c, i, true) in DeployEvents(c, Safe, vs))
  }

  lemma TrailIsSchedule(c: Config, k: Course, st: State)
    requires c.Valid() && Runs(c, k, st) && st.drain.Returned? && VerdictsWithin(c, st.hist.verdicts)
    ensures IsSchedule(c, k, st, st.hist.verdicts)
  {
    forall i | 0 <= i < c.N()
      ensures Works(c, k.o, i) <==> DeployOf(c, i, true) in DeployEvents(c, Safe, st.hist.verdicts)
    {
      EventMeansVerdict(c, Safe, st.hist.verdicts, i);
    }
  }

  /**
   * The pipeline under an arbitrary schedule: results and supply are those of a whole schedule of the machine
   * in which a deploy works exactly where it returned true. Every host gets one verdict, which is what its slot
   * holds, and the deploys of the run are exactly the verdicts' deploys. The build is given exactly the
   * derivations of the hosts that are not up to date and the extra ones; every copy takes a host's own path to
   * that host, and no host that needs one is deployed without. A host that got as far as activation is
   * cancelled exactly when one that arrived before it failed and is a k3s node or every failure is final.
   */
  method RunPipeline(s: Session, c: Config, ticks: nat, flag: D.RebootFlag)
    returns (results: seq<Status>, supply: Supply, ghost vs: seq<Verdict>, ghost k: Course, ghost end: State)
    requires c.Valid() && D.Between(s) && s.gate.held == {}
    requires forall i :: 0 <= i < c.N() ==> CephInK3s(c.todo[i].host)
    modifies s
    ensures |results| == c.N() && VerdictsWithin(c, vs)
    ensures k.ticks == ticks && IsSchedule(c, k, end, vs) && results == end.results && supply == end.supply
    ensures forall i :: 0 <= i < c.N() ==> Verdicts(vs, i) == 1 && results[i] == Said(vs, i)
    ensures supply.asked == StaleDrvs(c.todo) + c.extra && OwnPaths(c, supply.shipped)
    ensures forall i :: 0 <= i < c.N() && Called(results[i]) ==> Delivered(c, supply.shipped, i)
    ensures Linked(s, c, Safe, vs, true, old(Now(s)))
    ensures StoppedOnlyByFailures(c, k.o.deployOk, results, end.hist.arrivals)
  {
    var st := Start(c, ticks);
    var copyOk: set<string> := *;
    StartInv(c, ticks);
    StartSupplied(c, ticks);
    TrailStart(c, ticks, copyOk);
    k := Course(ticks, Outcomes(copyOk, {}), []);
    ghost var since := Now(s);
    assert since.noouts + [] == since.noouts && since.deploys + [] == since.deploys;
    while !st.drain.Returned?
      invariant Inv(c, st) && Supplied(c, st) && (st.drain.Deploying? ==> !st.halted)
      invariant Runs(c, k, st) && k.o.copyOk == copyOk && k.ticks == ticks
      invariant Linked(s, c, Safe, st.hist.verdicts, st.halted, since)
      decreases Measure(c, st)
    {
      MeasureNonNegative(c, st);
      st, k := Turn(s, c, st, copyOk, flag, k, since);
    }
    results, supply, vs, end := st.results, st.supply, st.hist.verdicts, st;
    TrailIsSchedule(c, k, st);
    CancelledIff(c, k.o, k.ticks, k.ls, st);
    forall i | 0 <= i < c.N()
      ensures Verdicts(vs, i) == 1 && results[i] == Said(vs, i)
      ensures Called(results[i]) ==> Delivered(c, supply.shipped, i)
    {
      OnReturn(c, st, i);
    }
  }

  // ---- Switch and boot mode: one host after the other ----

  /** The hosts are called in their order. */
  ghost predicate InTurn(vs: seq<Verdict>) {
    forall k :: 0 <= k < |vs| ==> vs[k].id == k && Called(vs[k].status)
  }

  /** Host `k` failed, and that ends the run. */
  predicate Ended(c: Config, vs: seq<Verdict>, k: nat) {
    && k < |vs| && k < c.N() && vs[k].status == DeployFailed
    && ("k3s" in c.todo[k].host.groups || c.stopOnFailure)
  }

  /** The loop went on after every host but one that ends the run, and stopped there or at the end. */
  ghost predicate StoppedRight(c: Config, vs: seq<Verdict>) {
    && InTurn(vs) && |vs| <= c.N()
    && (forall k :: 0 <= k < |vs| - 1 ==> !Ended(c, vs, k))
    && (|vs| == c.N() || (vs != [] && Ended(c, vs, |vs| - 1)))
  }

  function FailedNames(c: Config, vs: seq<Verdict>): seq<string>
    requires VerdictsWithin(c, vs)
  {
    if vs == [] then []
    else
      var n := |vs| - 1;
      if vs[n].status.Deployed? then FailedNames(c, vs[..n])
      else FailedNames(c, vs[..n]) + [c.todo[vs[n].id].host.name]
  }

  /** The failed hosts of a serial run are those whose deploy did not return true, in the order they were called. */
  lemma {:induction false} FailedAt(c: Config, vs: seq<Verdict>) returns (at: seq<nat>)
    requires VerdictsWithin(c, vs)
    ensures Rising(at, |vs|) && |FailedNames(c, vs)| == |at|
    ensures forall k :: 0 <= k < |at| ==> FailedNames(c, vs)[k] == c.todo[vs[at[k]].id].host.name
    ensures forall i: nat :: i in at <==> i < |vs| && vs[i].status != Deployed
  {
    at := [];
    if vs != [] {
      var n := |vs| - 1;
      at := FailedAt(c, vs[..n]);
      RisingOn(at, n);
      if !vs[n].status.Deployed? { at := at + [n]; }
    }
  }

  lemma {:induction false} NoneFailedIff(c: Config, vs: seq<Verdict>)
    requires VerdictsWithin(c, vs)
    ensures FailedNames(c, vs) == [] <==> forall k :: 0 <= k < |vs| ==> vs[k].status == Deployed
  {
    if vs != [] { NoneFailedIff(c, vs[..|vs| - 1]); }
  }

  lemma NextInTurn(c: Config, vs: seq<Verdict>, ok: bool)
    requires InTurn(vs) && |vs| < c.N() && VerdictsWithin(c, vs)
    requires forall k :: 0 <= k < |vs| ==> !Ended(c, vs, k)
    ensures var vs' := vs + [Verdict(|vs|, if ok then Deployed else DeployFailed)];
            && InTurn(vs') && VerdictsWithin(c, vs')
            && (forall k :: 0 <= k < |vs| ==> !Ended(c, vs', k))
            && (Ended(c, vs', |vs|) <==> !ok && Halts(c, |vs|))
            && FailedNames(c, vs') == FailedNames(c, vs) + if ok then [] else [c.todo[|vs|].host.name]
  {
    var vs' := vs + [Verdict(|vs|, if ok then Deployed else DeployFailed)];
    assert vs'[..|vs|] == vs;
    assert forall k :: 0 <= k < |vs| ==> vs'[k] == vs[k];
    forall k | 0 <= k < |vs| ensures !Ended(c, vs', k) { assert !Ended(c, vs, k); }
    assert FailedNames(c, vs) + [] == FailedNames(c, vs);
  }

  /** Deploys in order, and stops at the first failure that is a k3s node's or that --on-failure makes final. */
  method SerialDeploys(s: Session, c: Config, mode: Mode, flag: D.RebootFlag)
    returns (failed: seq<string>, ghost vs: seq<Verdict>)
    requires c.Valid() && D.Between(s) && s.gate.held == {}
    requires forall i :: 0 <= i < c.N() ==> CephInK3s(c.todo[i].host)
    modifies s
    ensures VerdictsWithin(c, vs) && Linked(s, c, mode, vs, true, old(Now(s)))
    ensures StoppedRight(c, vs) && failed == FailedNames(c, vs)
  {
    failed, vs := [], [];
    ghost var since := Now(s);
    assert since.noouts + [] == since.noouts && since.deploys + [] == since.deploys;
    var i := 0;
    while i < c.N()
      invariant 0 <= i == |vs| <= c.N()
      invariant Linked(s, c, mode, vs, false, since)
      invariant InTurn(vs) && failed == FailedNames(c, vs)
      invariant forall k :: 0 <= k < |vs| ==> !Ended(c, vs, k)
    {
      var ok := Activate(s, c, i, mode, flag, vs, since);
      NextInTurn(c, vs, ok);
      vs := vs + [Verdict(i, if ok then Deployed else DeployFailed)];
      if !ok {
        failed := failed + [c.todo[i].host.name];
        if Halts(c, i) { return; }
      }
      i := i + 1;
    }
  }
}
