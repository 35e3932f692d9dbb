/** From the prechecked fleet to the exit code. */
module Run {
  import opened Hosts
  import opened Wire
  import opened Session
  import D = Deploy
  import Watchdog
  import opened Pipeline
  import opened PipelineSafety
  import opened PipelineSupply
  import opened Precheck
  import opened Fleet
  import opened Listing

  /** A host that is built but not deployed; `valid` is what the store says of its path at the end. */
  datatype BuildOnly = BuildOnly(drv: string, out: string, valid: bool)
  {
    predicate BuiltOk() { out != "" && valid }
  }

  datatype Args = Args(mode: Mode, flag: D.RebootFlag, stopOnFailure: bool, copyJobs: int)

  /** What the build machine's store will do during the run. */
  datatype Store = Store(present: set<string>, paths: set<string>, ticks: nat)

  predicate Faulty(p: Pre) { p.skip && p.failed }

  predicate AbortsRun(p: Pre) { Faulty(p) && p.job.host.InGroup("k3s") }

  ghost predicate NoFault(pre: seq<Pre>) { forall k :: 0 <= k < |pre| ==> !Faulty(pre[k]) }

  ghost predicate Aborts(pre: seq<Pre>) { exists k :: 0 <= k < |pre| && AbortsRun(pre[k]) }

  predicate AllBuilt(extra: seq<BuildOnly>) { forall k :: 0 <= k < |extra| ==> extra[k].BuiltOk() }

  /** The prechecked hosts that are to be deployed, in order. */
  function Todo(pre: seq<Pre>): (r: seq<Job>)
    ensures forall j :: j in r <==> exists k :: 0 <= k < |pre| && !pre[k].skip && pre[k].job == j
  {
    if pre == [] then []
    else
      var n := |pre| - 1;
      assert pre == pre[..n] + [pre[n]];
      if pre[n].skip then Todo(pre[..n]) else Todo(pre[..n]) + [pre[n].job]
  }

  ghost predicate DistinctJobs(jobs: seq<Job>) {
    forall i, j :: 0 <= i < j < |jobs| ==> jobs[i].host.name != jobs[j].host.name
  }

  ghost predicate DistinctPre(pre: seq<Pre>) {
    forall i, j :: 0 <= i < j < |pre| ==> pre[i].job.host.name != pre[j].job.host.name
  }

  lemma {:induction false} TodoDistinct(pre: seq<Pre>)
    requires DistinctPre(pre)
    ensures DistinctJobs(Todo(pre))
  {
    if pre != [] {
      var n := |pre| - 1;
      TodoDistinct(pre[..n]);
      var front := Todo(pre[..n]);
      forall i | 0 <= i < |front| && !pre[n].skip ensures front[i].host.name != pre[n].job.host.name {
        assert front[i] in front;
      }
    }
  }

  function ExtraDrvs(extra: seq<BuildOnly>): seq<string> { seq(|extra|, k requires 0 <= k < |extra| => extra[k].drv) }

  function FaultyNames(pre: seq<Pre>): seq<string> {
    if pre == [] then []
    else
      var n := |pre| - 1;
      if Faulty(pre[n]) then FaultyNames(pre[..n]) + [pre[n].job.host.name] else FaultyNames(pre[..n])
  }

  function SkippedNames(pre: seq<Pre>): seq<string> {
    if pre == [] then []
    else
      var n := |pre| - 1;
      if pre[n].skip && !pre[n].failed then SkippedNames(pre[..n]) + [pre[n].job.host.name]
      else SkippedNames(pre[..n])
  }

  /** The faulty hosts are those whose precheck failed, in host order. */
  lemma {:induction false} FaultyAt(pre: seq<Pre>) returns (at: seq<nat>)
    ensures Rising(at, |pre|) && |FaultyNames(pre)| == |at|
    ensures forall k :: 0 <= k < |at| ==> FaultyNames(pre)[k] == pre[at[k]].job.host.name
    ensures forall i: nat :: i in at <==> i < |pre| && pre[i].skip && pre[i].failed
  {
    at := [];
    if pre != [] {
      var n := |pre| - 1;
      at := FaultyAt(pre[..n]);
      RisingOn(at, n);
      if Faulty(pre[n]) { at := at + [n]; }
    }
  }

  /** The skipped hosts are those left out without a failure, in host order. */
  lemma {:induction false} SkippedAt(pre: seq<Pre>) returns (at: seq<nat>)
    ensures Rising(at, |pre|) && |SkippedNames(pre)| == |at|
    ensures forall k :: 0 <= k < |at| ==> SkippedNames(pre)[k] == pre[at[k]].job.host.name
    ensures forall i: nat :: i in at <==> i < |pre| && pre[i].skip && !pre[i].failed
  {
    at := [];
    if pre != [] {
      var n := |pre| - 1;
      at := SkippedAt(pre[..n]);
      RisingOn(at, n);
      if pre[n].skip && !pre[n].failed { at := at + [n]; }
    }
  }

  /** The jobs are those of the hosts that are not left out, in host order. */
  lemma {:induction false} TodoAt(pre: seq<Pre>) returns (at: seq<nat>)
    ensures Rising(at, |pre|) && |Todo(pre)| == |at|
    ensures forall k :: 0 <= k < |at| ==> Todo(pre)[k] == pre[at[k]].job
    ensures forall i: nat :: i in at <==> i < |pre| && !pre[i].skip
  {
    at := [];
    if pre != [] {
      var n := |pre| - 1;
      at := TodoAt(pre[..n]);
      RisingOn(at, n);
      if !pre[n].skip { at := at + [n]; }
    }
  }

  lemma {:induction false} NoFaultIff(pre: seq<Pre>)
    ensures FaultyNames(pre) == [] <==> NoFault(pre)
  {
    if pre != [] {
      var n := |pre| - 1;
      NoFaultIff(pre[..n]);
      assert pre == pre[..n] + [pre[n]];
    }
  }

  /** Who failed the precheck, who was skipped, who is to be deployed, and whether a k3s node is among the first. */
  method Partition(pre: seq<Pre>) returns (failed: seq<string>, skipped: seq<string>, todo: seq<Job>, abort: bool)
    ensures failed == FaultyNames(pre) && skipped == SkippedNames(pre) && todo == Todo(pre)
    ensures abort <==> Aborts(pre)
  {
    failed, skipped, todo, abort := [], [], [], false;
    for i := 0 to |pre|
      invariant failed == FaultyNames(pre[..i]) && skipped == SkippedNames(pre[..i]) && todo == Todo(pre[..i])
      invariant abort <==> exists k :: 0 <= k < i && AbortsRun(pre[k])
    {
      assert pre[..i + 1][..i] == pre[..i];
      if !pre[i].skip {
        todo := todo + [pre[i].job];
      } else if pre[i].failed {
        failed := failed + [pre[i].job.host.name];
        if pre[i].job.host.InGroup("k3s") { abort := true; }
      } else {
        skipped := skipped + [pre[i].job.host.name];
      }
    }
    assert pre[..|pre|] == pre;
  }

  // ---- Statuses and deploys ----

  ghost predicate EveryDeployTrue(c: Config, events: seq<Event>) {
    forall i :: 0 <= i < c.N() ==> DeployOf(c, i, true) in events
  }

  lemma DeployedIff(c: Config, results: seq<Status>, vs: seq<Verdict>, i: nat)
    requires c.Valid() && |results| == c.N() && VerdictsWithin(c, vs) && i < c.N()
    requires Verdicts(vs, i) == 1 && results[i] == Said(vs, i)
    ensures results[i] == Deployed <==> DeployOf(c, i, true) in DeployEvents(c, Safe, vs)
  {
    EventMeansVerdict(c, Safe, vs, i);
    var k := FindVerdict(vs, i);
    if Verdict(i, Deployed) in vs {
      var m :| 0 <= m < |vs| && vs[m] == Verdict(i, Deployed);
      OnlyVerdict(vs, i, m);
    }
  }

  lemma SerialSucceededIff(c: Config, mode: Mode, vs: seq<Verdict>)
    requires c.Valid() && VerdictsWithin(c, vs) && StoppedRight(c, vs)
    ensures FailedNames(c, vs) == [] <==> EveryDeployTrue(c, DeployEvents(c, mode, vs))
  {
    NoneFailedIff(c, vs);
    forall i | 0 <= i < c.N()
      ensures (i < |vs| && vs[i].status == Deployed) <==> DeployOf(c, i, true) in DeployEvents(c, mode, vs)
    {
      EventMeansVerdict(c, mode, vs, i);
      if i < |vs| && vs[i].status == Deployed { assert vs[i] == Verdict(i, Deployed); }
    }
    if |vs| < c.N() {
      assert DeployOf(c, |vs|, true) !in DeployEvents(c, mode, vs);
      assert Ended(c, vs, |vs| - 1);
    }
  }

  /** The names of the hosts whose slot does not read Deployed, in order. */
  function NotDeployed(c: Config, results: seq<Status>, k: nat): seq<string>
    requires |results| == c.N() && k <= c.N()
  {
    if k == 0 then []
    else if results[k - 1] != Deployed then NotDeployed(c, results, k - 1) + [c.todo[k - 1].host.name]
    else NotDeployed(c, results, k - 1)
  }

  lemma {:induction false} NoneNotDeployed(c: Config, results: seq<Status>, k: nat)
    requires |results| == c.N() && k <= c.N()
    ensures NotDeployed(c, results, k) == [] <==> forall i :: 0 <= i < k ==> results[i] == Deployed
  {
    if k > 0 { NoneNotDeployed(c, results, k - 1); }
  }

  /** The failed hosts of a pipeline's run are those whose slot does not read Deployed, in host order. */
  lemma {:induction false} NotDeployedAt(c: Config, results: seq<Status>, k: nat) returns (at: seq<nat>)
    requires |results| == c.N() && k <= c.N()
    ensures Rising(at, k) && |NotDeployed(c, results, k)| == |at|
    ensures forall j :: 0 <= j < |at| ==> NotDeployed(c, results, k)[j] == c.todo[at[j]].host.name
    ensures forall i: nat :: i in at <==> i < k && results[i] != Deployed
  {
    at := [];
    if k > 0 {
      at := NotDeployedAt(c, results, k - 1);
      RisingOn(at, k - 1);
      if results[k - 1] != Deployed { at := at + [k - 1]; }
    }
  }

  /** A host that was deployed with success had its own path copied to it before, unless it was up to date. */
  ghost predicate AllServed(jobs: seq<Job>, shipped: seq<Shipment>, events: seq<Event>) {
    forall i :: 0 <= i < |jobs| && !jobs[i].upToDate && End(jobs[i].host.name, jobs[i].path, true) in events ==>
      Shipment(jobs[i].host.name, jobs[i].path) in shipped
  }

  /** Every copy takes one of the jobs' paths to that job's host. */
  ghost predicate AllOwn(jobs: seq<Job>, shipped: seq<Shipment>) {
    forall k :: 0 <= k < |shipped| ==> PathOf(jobs, shipped[k].name, shipped[k].path)
  }

  ghost predicate AllCarry(jobs: seq<Job>, mode: Mode, log: seq<Event>, from: nat) {
    forall j :: from <= j < |log| ==> Carries(jobs, mode, log[j])
  }

  /**
   * These are the names, in order, of the jobs whose deploy did not return true; outside the safe mode, where a
   * stopped run says nothing of the hosts it did not come to, of those whose deploy returned false.
   */
  ghost predicate FailedAre(jobs: seq<Job>, mode: Mode, events: seq<Event>, names: seq<string>, at: seq<nat>) {
    && Rising(at, |jobs|) && |names| == |at|
    && (forall k :: 0 <= k < |at| ==> names[k] == jobs[at[k]].host.name)
    && forall i: nat :: i in at <==>
         i < |jobs| && if mode.Safe? then End(jobs[i].host.name, jobs[i].path, true) !in events
                       else End(jobs[i].host.name, jobs[i].path, false) in events
  }

  lemma SafeFailedAre(c: Config, results: seq<Status>, events: seq<Event>) returns (at: seq<nat>)
    requires |results| == c.N()
    requires forall i :: 0 <= i < c.N() ==> (results[i] == Deployed <==> DeployOf(c, i, true) in events)
    ensures FailedAre(c.todo, Safe, events, NotDeployed(c, results, c.N()), at)
  {
    at := NotDeployedAt(c, results, c.N());
    forall i: nat | i < c.N()
      ensures results[i] == Deployed <==> End(c.todo[i].host.name, c.todo[i].path, true) in events
    {
      assert results[i] == Deployed <==> DeployOf(c, i, true) in events;
    }
  }

  lemma SerialFailedAre(c: Config, mode: Mode, vs: seq<Verdict>) returns (at: seq<nat>)
    requires c.Valid() && VerdictsWithin(c, vs) && StoppedRight(c, vs) && !mode.Safe?
    ensures FailedAre(c.todo, mode, DeployEvents(c, mode, vs), FailedNames(c, vs), at)
  {
    at := FailedAt(c, vs);
    forall i: nat | i < c.N()
      ensures i < |vs| && vs[i].status != Deployed <==>
              End(c.todo[i].host.name, c.todo[i].path, false) in DeployEvents(c, mode, vs)
    {
      FalseMeansVerdict(c, mode, vs, i);
      if i < |vs| { assert vs[i] == Verdict(i, vs[i].status); }
    }
  }

  /** How a run of deploys leaves its session. */
  ghost predicate RanFrom(s: Session, jobs: seq<Job>, mode: Mode, since: Since)
    reads s
  {
    && D.Between(s) && since.log <= s.log && since.deploys <= s.deploys
    && AllCarry(jobs, mode, s.log, |since.log|)
    && s.gate.held <= {s.gate.host.name}
    && D.NooutWarnings(s.warnings) == since.noouts + if s.gate.held != {} then [s.gate.host.name] else []
  }

  lemma LinkedRan(s: Session, c: Config, mode: Mode, vs: seq<Verdict>, since: Since)
    requires Linked(s, c, mode, vs, true, since)
    requires since.deploys == Deploys(since.log) && !Watchdog.WatchOf(since.log).open
    ensures RanFrom(s, c.todo, mode, since)
    ensures s.deploys[|since.deploys|..] == DeployEvents(c, mode, vs)
  {
    NewEventsCarry(since.log, s.log, c, mode, vs);
  }

  /** The hosts of the safe mode's run. */
  method DeploySafely(s: Session, c: Config, args: Args, ticks: nat) returns (failed: seq<string>, supply: Supply)
    requires c.Valid() && D.Between(s) && s.gate.held == {}
    requires forall i :: 0 <= i < c.N() ==> CephInK3s(c.todo[i].host)
    modifies s
    ensures RanFrom(s, c.todo, Safe, old(Now(s)))
    ensures failed == [] <==> EveryDeployTrue(c, s.deploys[|old(s.deploys)|..])
    ensures exists at :: FailedAre(c.todo, Safe, s.deploys[|old(s.deploys)|..], failed, at)
    ensures supply.asked == StaleDrvs(c.todo) + c.extra && AllOwn(c.todo, supply.shipped)
    ensures AllServed(c.todo, supply.shipped, s.deploys[|old(s.deploys)|..])
  {
    ghost var vs: seq<Verdict>;
    var results: seq<Status>;
    ghost var k: Course;
    ghost var end: State;
    results, supply, vs, k, end := RunPipeline(s, c, ticks, args.flag);
    failed := NamesNotDeployed(c, results);
    LinkedRan(s, c, Safe, vs, old(Now(s)));
    NoneNotDeployed(c, results, c.N());
    forall i | 0 <= i < c.N()
      ensures results[i] == Deployed <==> DeployOf(c, i, true) in DeployEvents(c, Safe, vs)
    {
      DeployedIff(c, results, vs, i);
    }
    ServedWhenDelivered(c, results, supply.shipped, DeployEvents(c, Safe, vs));
    ghost var at := SafeFailedAre(c, results, DeployEvents(c, Safe, vs));
  }

  lemma ServedWhenDelivered(c: Config, results: seq<Status>, shipped: seq<Shipment>, events: seq<Event>)
    requires |results| == c.N() && OwnPaths(c, shipped)
    requires forall i :: 0 <= i < c.N() && Called(results[i]) ==> Delivered(c, shipped, i)
    requires forall i :: 0 <= i < c.N() ==> (results[i] == Deployed <==> DeployOf(c, i, true) in events)
    ensures AllServed(c.todo, shipped, events) && AllOwn(c.todo, shipped)
  {
    forall i | 0 <= i < c.N() && !c.todo[i].upToDate && End(c.todo[i].host.name, c.todo[i].path, true) in events
      ensures Shipment(c.todo[i].host.name, c.todo[i].path) in shipped
    {
      assert DeployOf(c, i, true) in events;
      assert Delivered(c, shipped, i);
    }
    forall k | 0 <= k < |shipped| ensures PathOf(c.todo, shipped[k].name, shipped[k].path) {
      var i :| 0 <= i < c.N() && shipped[k] == ShipmentOf(c, i);
      assert c.todo[i].host.name == shipped[k].name;
    }
  }

  method NamesNotDeployed(c: Config, results: seq<Status>) returns (names: seq<string>)
    requires |results| == c.N()
    ensures names == NotDeployed(c, results, c.N())
  {
    names := [];
    for i := 0 to c.N()
      invariant names == NotDeployed(c, results, i)
    {
      if results[i] != Deployed { names := names + [c.todo[i].host.name]; }
    }
  }

  /** The hosts of the other modes' run. */
  method DeploySerially(s: Session, c: Config, args: Args) returns (failed: seq<string>)
    requires c.Valid() && D.Between(s) && s.gate.held == {}
    requires forall i :: 0 <= i < c.N() ==> CephInK3s(c.todo[i].host)
    requires !args.mode.Safe?
    modifies s
    ensures RanFrom(s, c.todo, args.mode, old(Now(s)))
    ensures failed == [] <==> EveryDeployTrue(c, s.deploys[|old(s.deploys)|..])
    ensures exists at :: FailedAre(c.todo, args.mode, s.deploys[|old(s.deploys)|..], failed, at)
  {
    ghost var vs: seq<Verdict>;
    failed, vs := SerialDeploys(s, c, args.mode, args.flag);
    SerialSucceededIff(c, args.mode, vs);
    LinkedRan(s, c, args.mode, vs, old(Now(s)));
    ghost var at := SerialFailedAre(c, args.mode, vs);
  }

  /** Every host to deploy had its own deploy, of its own planned path, return true during this run. */
  ghost predicate AllDeployed(jobs: seq<Job>, events: seq<Event>) {
    forall i :: 0 <= i < |jobs| ==> End(jobs[i].host.name, jobs[i].path, true) in events
  }

  lemma EveryTrueIff(c: Config, events: seq<Event>)
    ensures EveryDeployTrue(c, events) <==> AllDeployed(c.todo, events)
  {
    if EveryDeployTrue(c, events) {
      forall i | 0 <= i < |c.todo| ensures End(c.todo[i].host.name, c.todo[i].path, true) in events {
        assert DeployOf(c, i, true) in events;
      }
    }
  }

  /** Run the deploys of either kind, and the build; `failed` names hosts whose deploy did not return true. */
  method DeployAll(s: Session, c: Config, args: Args, ticks: nat)
    returns (failed: seq<string>, asked: seq<string>, shipped: seq<Shipment>)
    requires c.Valid() && D.Between(s) && s.gate.held == {}
    requires forall i :: 0 <= i < c.N() ==> CephInK3s(c.todo[i].host)
    modifies s
    ensures RanFrom(s, c.todo, args.mode, old(Now(s)))
    ensures failed == [] <==> AllDeployed(c.todo, s.deploys[|old(s.deploys)|..])
    ensures exists at :: FailedAre(c.todo, args.mode, s.deploys[|old(s.deploys)|..], failed, at)
    ensures asked == (if args.mode.Safe? then StaleDrvs(c.todo) else []) + c.extra
    ensures AllOwn(c.todo, shipped)
    ensures args.mode.Safe? ==> AllServed(c.todo, shipped, s.deploys[|old(s.deploys)|..])
  {
    if args.mode.Safe? {
      var supply;
      failed, supply := DeploySafely(s, c, args, ticks);
      asked, shipped := supply.asked, supply.shipped;
    } else {
      failed := DeploySerially(s, c, args);
      asked, shipped := c.extra, [];
      assert [] + c.extra == c.extra;
    }
    EveryTrueIff(c, s.deploys[|old(s.deploys)|..]);
  }

  /** What a run reports and what it asked of the build machine. */
  datatype Report = Report(
    code: int, failed: seq<string>, skipped: seq<string>, asked: seq<string>, shipped: seq<Shipment>)

  /**
   * The run after the precheck. It exits 0 if and only if no precheck failed, every host that was not skipped
   * by policy had its deploy return true, and every build-only path is valid at the end. A k3s node that
   * failed its precheck ends the run before anything is built or deployed.
   */
  method RunFleet(s: Session, pre: seq<Pre>, extra: seq<BuildOnly>, args: Args, store: Store) returns (r: Report)
    requires DistinctPre(pre) && store.present <= store.paths && D.Between(s) && s.gate.held == {}
    requires forall k :: 0 <= k < |pre| ==> CephInK3s(pre[k].job.host)
    modifies s
    ensures RanFrom(s, Todo(pre), args.mode, old(Now(s)))
    ensures r.code in {0, 1} && r.skipped == SkippedNames(pre) && FaultyNames(pre) <= r.failed
    ensures !Aborts(pre) ==>
              exists at :: FailedAre(Todo(pre), args.mode, s.deploys[|old(s.deploys)|..],
                                     r.failed[|FaultyNames(pre)|..], at)
    ensures Aborts(pre) ==> r.code == 1 && r.asked == [] && r.shipped == [] && s.log == old(s.log)
    ensures r.code == 0 <==> r.failed == [] && AllBuilt(extra)
    ensures r.failed == [] <==> NoFault(pre) && AllDeployed(Todo(pre), s.deploys[|old(s.deploys)|..])
    ensures !Aborts(pre) ==>
              r.asked == (if args.mode.Safe? then StaleDrvs(Todo(pre)) else []) + ExtraDrvs(extra)
    ensures AllOwn(Todo(pre), r.shipped)
    ensures args.mode.Safe? && !Aborts(pre) ==>
              AllServed(Todo(pre), r.shipped, s.deploys[|old(s.deploys)|..])
  {
    var faulty, skipped, todo, abort := Partition(pre);
    NoFaultIff(pre);
    if abort {
      AbortMeansFault(pre);
      assert D.NooutWarnings(s.warnings) + [] == D.NooutWarnings(s.warnings);
      return Report(1, faulty, skipped, [], []);
    }
    var c := Config(todo, args.copyJobs, args.stopOnFailure, store.present, store.paths, ExtraDrvs(extra));
    TodoDistinct(pre);
    forall i | 0 <= i < |todo| ensures CephInK3s(todo[i].host) { assert todo[i] in todo; }
    var failed, asked, shipped := DeployAll(s, c, args, store.ticks);
    var code := if faulty + failed != [] || !AllBuilt(extra) then 1 else 0;
    r := Report(code, faulty + failed, skipped, asked, shipped);
    assert r.failed[|FaultyNames(pre)|..] == failed;
  }

  lemma AbortMeansFault(pre: seq<Pre>)
    requires Aborts(pre)
    ensures !NoFault(pre) && FaultyNames(pre) != []
  {
    NoFaultIff(pre);
    var k :| 0 <= k < |pre| && AbortsRun(pre[k]);
    assert Faulty(pre[k]);
  }
}
