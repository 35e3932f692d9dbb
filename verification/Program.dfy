/** The program: from the evals and probes of the selected hosts to the exit code. */
module Program {
  import opened Hosts
  import opened Wire
  import opened Session
  import D = Deploy
  import opened Pipeline
  import opened PipelineSupply
  import opened Precheck
  import opened Fleet
  import opened Run
  import opened Listing
  import Master
  import Noout
  import WatchdogTheorems
  import Endings
  import Modes

  /** The precheck leaves the host out by policy: a printer that is busy or silent, not forced. */
  predicate PolicySkip(h: Host, p: Probe, force: bool) {
    p.reachable && h.InGroup("printer") && !force && !p.printer.Idle?
  }

  function ExtraOf(t: Toplevel, stored: set<string>): BuildOnly { BuildOnly(t.drv, t.out, t.out in stored) }

  /** The build-only hosts with the toplevels resolved for them. */
  method Extras(hosts: seq<Host>, tops: map<string, Toplevel>, stored: set<string>) returns (extra: seq<BuildOnly>)
    requires forall k :: 0 <= k < |hosts| ==> hosts[k].name in tops
    ensures |extra| == |hosts|
    ensures forall k :: 0 <= k < |hosts| ==>
              extra[k] == ExtraOf(tops[hosts[k].name], stored)
  {
    extra := [];
    for k := 0 to |hosts|
      invariant |extra| == k
      invariant forall j :: 0 <= j < k ==> extra[j] == ExtraOf(tops[hosts[j].name], stored)
    {
      extra := extra + [ExtraOf(tops[hosts[k].name], stored)];
    }
  }

  ghost predicate AllUsable(evals: seq<Eval>) { forall i :: 0 <= i < |evals| ==> Usable(evals[i]) }

  /** Host `i` was skipped by policy, or its deploy of its own eval's path returned true. */
  ghost predicate Settled(h: Host, e: Eval, p: Probe, force: bool, events: seq<Event>)
    requires Usable(e)
  {
    p.reachable && (PolicySkip(h, p, force) || End(h.name, e.top.out, true) in events)
  }

  ghost predicate AllSettled(hosts: seq<Host>, evals: seq<Eval>, probes: seq<Probe>, force: bool, events: seq<Event>)
    requires |hosts| == |probes| && |hosts| <= |evals| && AllUsable(evals)
  {
    forall k :: 0 <= k < |hosts| ==> Settled(hosts[k], evals[k], probes[k], force, events)
  }

  ghost predicate K3sDown(hosts: seq<Host>, probes: seq<Probe>)
    requires |hosts| == |probes|
  {
    exists k :: 0 <= k < |hosts| && !probes[k].reachable && hosts[k].InGroup("k3s")
  }

  /** The paths of the build-only hosts, whose evals come last, are in the store. */
  ghost predicate AllStored(evals: seq<Eval>, n: nat, stored: set<string>)
    requires AllUsable(evals)
  {
    forall k :: n <= k < |evals| ==> evals[k].top.out in stored
  }

  ghost predicate DoneWell(p: Pre, events: seq<Event>) { End(p.job.host.name, p.job.path, true) in events }

  lemma AllDeployedIff(pre: seq<Pre>, events: seq<Event>)
    ensures AllDeployed(Todo(pre), events) <==>
            forall k :: 0 <= k < |pre| && !pre[k].skip ==> DoneWell(pre[k], events)
  {
    var todo := Todo(pre);
    if AllDeployed(todo, events) {
      forall k | 0 <= k < |pre| && !pre[k].skip ensures DoneWell(pre[k], events) {
        assert pre[k].job in todo;
      }
    } else {
      var i :| 0 <= i < |todo| && End(todo[i].host.name, todo[i].path, true) !in events;
      assert todo[i] in todo;
    }
  }

  /** Each host's plan is made from its own eval and probe. */
  ghost predicate Planned(hosts: seq<Host>, evals: seq<Eval>, probes: seq<Probe>, force: bool, pre: seq<Pre>) {
    && |pre| == |hosts| == |probes| && |hosts| <= |evals| && AllUsable(evals)
    && forall k :: 0 <= k < |hosts| ==> pre[k] == PrecheckHost(hosts[k], evals[k].top, force, probes[k])
  }

  /** Resolve and probe: every host and build-only host gets the two halves of its own eval, or nobody does. */
  method Prepare(hosts: seq<Host>, buildOnly: seq<Host>, evals: seq<Eval>, probes: seq<Probe>, force: bool,
                 stored: set<string>) returns (ok: bool, pre: seq<Pre>, extra: seq<BuildOnly>)
    requires |evals| == |hosts| + |buildOnly| && |probes| == |hosts| && DistinctNames(hosts + buildOnly)
    ensures ok <==> AllUsable(evals)
    ensures ok ==> Planned(hosts, evals, probes, force, pre) && |extra| == |buildOnly|
    ensures ok ==> forall k :: 0 <= k < |buildOnly| ==>
              extra[k] == ExtraOf(evals[|hosts| + k].top, stored)
    ensures ok ==> DistinctPre(pre)
  {
    var every := hosts + buildOnly;
    var r := ResolveToplevels(every, evals);
    if r.Errors? { return false, [], []; }
    forall k | 0 <= k < |hosts| ensures hosts[k].name in r.tops && r.tops[hosts[k].name] == evals[k].top {
      assert every[k] == hosts[k];
    }
    forall k | 0 <= k < |buildOnly|
      ensures buildOnly[k].name in r.tops && r.tops[buildOnly[k].name] == evals[|hosts| + k].top
    {
      assert every[|hosts| + k] == buildOnly[k];
    }
    ok := true;
    pre := PrecheckAll(hosts, r.tops, probes, force);
    extra := Extras(buildOnly, r.tops, stored);
    forall i, j | 0 <= i < j < |hosts| ensures pre[i].job.host.name != pre[j].job.host.name {
      assert every[i] == hosts[i] && every[j] == hosts[j];
    }
  }

  lemma PlanIsSound(hosts: seq<Host>, evals: seq<Eval>, probes: seq<Probe>, force: bool, pre: seq<Pre>)
    requires Planned(hosts, evals, probes, force, pre)
    requires forall k :: 0 <= k < |hosts| ==> CephInK3s(hosts[k])
    ensures forall k :: 0 <= k < |pre| ==> CephInK3s(pre[k].job.host)
    ensures Aborts(pre) <==> K3sDown(hosts, probes)
  {
    forall k | 0 <= k < |pre|
      ensures AbortsRun(pre[k]) <==> !probes[k].reachable && hosts[k].InGroup("k3s")
    {
      assert pre[k].job.host == hosts[k];
    }
  }

  lemma SettledIff(hosts: seq<Host>, evals: seq<Eval>, probes: seq<Probe>, force: bool, pre: seq<Pre>,
                   events: seq<Event>)
    requires Planned(hosts, evals, probes, force, pre)
    ensures NoFault(pre) && AllDeployed(Todo(pre), events) <==>
            AllSettled(hosts, evals, probes, force, events)
  {
    AllDeployedIff(pre, events);
    forall k | 0 <= k < |hosts|
      ensures Settled(hosts[k], evals[k], probes[k], force, events) <==>
              !Faulty(pre[k]) && (!pre[k].skip ==> DoneWell(pre[k], events))
    {
      assert pre[k] == PrecheckHost(hosts[k], evals[k].top, force, probes[k]);
    }
  }

  lemma BuiltOkIff(extra: seq<BuildOnly>, evals: seq<Eval>, n: nat, stored: set<string>)
    requires AllUsable(evals) && |evals| == n + |extra|
    requires forall k :: 0 <= k < |extra| ==> extra[k] == ExtraOf(evals[n + k].top, stored)
    ensures AllBuilt(extra) <==> AllStored(evals, n, stored)
  {
    if AllBuilt(extra) {
      forall k | n <= k < |evals| ensures evals[k].top.out in stored { assert extra[k - n].BuiltOk(); }
    }
  }

  // ---- Own derivations, own paths ----

  /** The host is to be deployed, and does not run and keep its own eval's path already. */
  predicate NeedsBuild(h: Host, e: Eval, p: Probe, force: bool)
    requires Usable(e)
  {
    p.reachable && !PolicySkip(h, p, force) && !(p.active == e.top.out && p.profile == e.top.out)
  }

  /** The Drv halves of the first `k` hosts that need a build, in order. */
  function OwnDrvs(hosts: seq<Host>, evals: seq<Eval>, probes: seq<Probe>, force: bool, k: nat): seq<string>
    requires k <= |hosts| == |probes| && |hosts| <= |evals| && forall i :: 0 <= i < |evals| ==> Usable(evals[i])
  {
    if k == 0 then []
    else
      var front := OwnDrvs(hosts, evals, probes, force, k - 1);
      if NeedsBuild(hosts[k - 1], evals[k - 1], probes[k - 1], force) then front + [evals[k - 1].top.drv] else front
  }

  /** The Drv halves of the build-only hosts. */
  function LastDrvs(evals: seq<Eval>, n: nat): seq<string>
    requires n <= |evals| && forall i :: 0 <= i < |evals| ==> Usable(evals[i])
  {
    seq(|evals| - n, k requires 0 <= k < |evals| - n => (assert Usable(evals[n + k]); evals[n + k].top.drv))
  }

  lemma {:induction false} OwnDrvsAre(hosts: seq<Host>, evals: seq<Eval>, probes: seq<Probe>, force: bool,
                                      pre: seq<Pre>, k: nat)
    requires Planned(hosts, evals, probes, force, pre) && k <= |pre|
    ensures StaleDrvs(Todo(pre[..k])) == OwnDrvs(hosts, evals, probes, force, k)
  {
    if k > 0 {
      OwnDrvsAre(hosts, evals, probes, force, pre, k - 1);
      assert pre[..k][..k - 1] == pre[..k - 1];
      StaleNext(Todo(pre[..k - 1]), pre[k - 1].job);
      NeedsBuildIff(hosts[k - 1], evals[k - 1], probes[k - 1], force);
    }
  }

  lemma StaleNext(jobs: seq<Job>, j: Job)
    ensures StaleDrvs(jobs + [j]) == if j.upToDate then StaleDrvs(jobs) else StaleDrvs(jobs) + [j.drv]
  {
    assert (jobs + [j])[..|jobs|] == jobs;
  }

  /** The precheck's verdict is the condition. */
  lemma NeedsBuildIff(h: Host, e: Eval, p: Probe, force: bool)
    requires Usable(e)
    ensures var pre := PrecheckHost(h, e.top, force, p); NeedsBuild(h, e, p, force) <==> !pre.skip && !pre.job.upToDate
  {
  }

  /** Those are the derivations of the hosts that need a build, each its own eval's, in host order. */
  lemma {:induction false} OwnDrvsAt(hosts: seq<Host>, evals: seq<Eval>, probes: seq<Probe>, force: bool, k: nat)
    returns (at: seq<nat>)
    requires k <= |hosts| == |probes| && |hosts| <= |evals| && AllUsable(evals)
    ensures Rising(at, k) && |OwnDrvs(hosts, evals, probes, force, k)| == |at|
    ensures forall j :: 0 <= j < |at| ==> OwnDrvs(hosts, evals, probes, force, k)[j] == evals[at[j]].top.drv
    ensures forall i: nat :: i in at <==>
              && i < k && probes[i].reachable
              && !("printer" in hosts[i].groups && !force && !probes[i].printer.Idle?)
              && !(probes[i].active == evals[i].top.out && probes[i].profile == evals[i].top.out)
  {
    at := [];
    if k > 0 {
      at := OwnDrvsAt(hosts, evals, probes, force, k - 1);
      RisingOn(at, k - 1);
      if NeedsBuild(hosts[k - 1], evals[k - 1], probes[k - 1], force) { at := at + [k - 1]; }
    }
  }

  /** Every host that needs a build has its own derivation among those. */
  lemma {:induction false} OwnDrvAsked(hosts: seq<Host>, evals: seq<Eval>, probes: seq<Probe>, force: bool,
                                       k: nat, i: nat)
    requires i < k <= |hosts| == |probes| && |hosts| <= |evals| && AllUsable(evals)
    requires NeedsBuild(hosts[i], evals[i], probes[i], force)
    ensures evals[i].top.drv in OwnDrvs(hosts, evals, probes, force, k)
  {
    if i < k - 1 { OwnDrvAsked(hosts, evals, probes, force, k - 1, i); }
  }

  /** A deploy's begin, in that mode, its end, or a command that switches a path, is of a host at its own Out. */
  ghost predicate CarriesOwn(hosts: seq<Host>, evals: seq<Eval>, mode: Mode, e: Event)
    requires |hosts| <= |evals| && AllUsable(evals)
  {
    match e
    case Begin(h, p, m) => m == mode && exists k :: 0 <= k < |hosts| && hosts[k] == h && evals[k].top.out == p
    case End(n, p, _) => OutOf(hosts, evals, n, p)
    case Sent(n, _, cmd, _, _, _) => WatchdogTheorems.MovesPath(cmd) ==> OutOf(hosts, evals, n, cmd.path)
    case _ => true
  }

  /** The path is the Out half of the eval of the host of that name. */
  ghost predicate OutOf(hosts: seq<Host>, evals: seq<Eval>, name: string, path: string)
    requires |hosts| <= |evals| && AllUsable(evals)
  {
    exists k :: 0 <= k < |hosts| && hosts[k].name == name && evals[k].top.out == path
  }

  ghost predicate AllCarryOwn(hosts: seq<Host>, evals: seq<Eval>, mode: Mode, log: seq<Event>, from: nat)
    requires |hosts| <= |evals| && AllUsable(evals)
  {
    forall j :: from <= j < |log| ==> CarriesOwn(hosts, evals, mode, log[j])
  }

  lemma JobIsOwn(hosts: seq<Host>, evals: seq<Eval>, probes: seq<Probe>, force: bool, pre: seq<Pre>, i: nat)
    returns (k: nat)
    requires Planned(hosts, evals, probes, force, pre) && i < |Todo(pre)|
    ensures k < |hosts| && Todo(pre)[i].host == hosts[k] && Todo(pre)[i].path == evals[k].top.out
  {
    assert Todo(pre)[i] in Todo(pre);
    k :| 0 <= k < |pre| && !pre[k].skip && pre[k].job == Todo(pre)[i];
    assert pre[k] == PrecheckHost(hosts[k], evals[k].top, force, probes[k]);
  }

  lemma PathIsOwn(hosts: seq<Host>, evals: seq<Eval>, probes: seq<Probe>, force: bool, pre: seq<Pre>,
                  name: string, path: string)
    requires Planned(hosts, evals, probes, force, pre) && PathOf(Todo(pre), name, path)
    ensures OutOf(hosts, evals, name, path)
  {
    var jobs := Todo(pre);
    var i :| 0 <= i < |jobs| && jobs[i].host.name == name && jobs[i].path == path;
    var k := JobIsOwn(hosts, evals, probes, force, pre, i);
  }

  lemma CarriesIsOwn(hosts: seq<Host>, evals: seq<Eval>, probes: seq<Probe>, force: bool, pre: seq<Pre>,
                     mode: Mode, e: Event)
    requires Planned(hosts, evals, probes, force, pre) && Carries(Todo(pre), mode, e)
    ensures CarriesOwn(hosts, evals, mode, e)
  {
    var jobs := Todo(pre);
    if e.Begin? {
      assert OfJob(jobs, mode, e);
      var i :| 0 <= i < |jobs| && jobs[i].host == e.host && jobs[i].path == e.plan;
      var k := JobIsOwn(hosts, evals, probes, force, pre, i);
    } else if e.End? {
      assert OfJob(jobs, mode, e);
      PathIsOwn(hosts, evals, probes, force, pre, e.name, e.plan);
    } else if e.Sent? && WatchdogTheorems.MovesPath(e.cmd) {
      PathIsOwn(hosts, evals, probes, force, pre, e.name, e.cmd.path);
    }
  }

  lemma AllCarryIsOwn(hosts: seq<Host>, evals: seq<Eval>, probes: seq<Probe>, force: bool, pre: seq<Pre>,
                      mode: Mode, log: seq<Event>, from: nat)
    requires Planned(hosts, evals, probes, force, pre) && AllCarry(Todo(pre), mode, log, from)
    ensures AllCarryOwn(hosts, evals, mode, log, from)
  {
    forall j | from <= j < |log| ensures CarriesOwn(hosts, evals, mode, log[j]) {
      CarriesIsOwn(hosts, evals, probes, force, pre, mode, log[j]);
    }
  }

  /** Every copy takes a host its own eval's Out. */
  ghost predicate ShipsOwn(hosts: seq<Host>, evals: seq<Eval>, shipped: seq<Shipment>)
    requires |hosts| <= |evals| && AllUsable(evals)
  {
    forall j :: 0 <= j < |shipped| ==> OutOf(hosts, evals, shipped[j].name, shipped[j].path)
  }

  /** Every host that needed a build and was deployed with success had its own eval's Out copied to it. */
  ghost predicate ServedOwn(hosts: seq<Host>, evals: seq<Eval>, probes: seq<Probe>, force: bool,
                            shipped: seq<Shipment>, events: seq<Event>)
    requires |hosts| == |probes| && |hosts| <= |evals| && AllUsable(evals)
  {
    forall k :: 0 <= k < |hosts| && NeedsBuild(hosts[k], evals[k], probes[k], force)
                && End(hosts[k].name, evals[k].top.out, true) in events ==>
      Shipment(hosts[k].name, evals[k].top.out) in shipped
  }

  lemma ShipsAreOwn(hosts: seq<Host>, evals: seq<Eval>, probes: seq<Probe>, force: bool, pre: seq<Pre>,
                    shipped: seq<Shipment>)
    requires Planned(hosts, evals, probes, force, pre) && AllOwn(Todo(pre), shipped)
    ensures ShipsOwn(hosts, evals, shipped)
  {
    forall j | 0 <= j < |shipped| ensures OutOf(hosts, evals, shipped[j].name, shipped[j].path) {
      PathIsOwn(hosts, evals, probes, force, pre, shipped[j].name, shipped[j].path);
    }
  }

  lemma ServedAreOwn(hosts: seq<Host>, evals: seq<Eval>, probes: seq<Probe>, force: bool, pre: seq<Pre>,
                     shipped: seq<Shipment>, events: seq<Event>)
    requires Planned(hosts, evals, probes, force, pre) && AllServed(Todo(pre), shipped, events)
    ensures ServedOwn(hosts, evals, probes, force, shipped, events)
  {
    forall k | 0 <= k < |hosts| && NeedsBuild(hosts[k], evals[k], probes[k], force)
               && End(hosts[k].name, evals[k].top.out, true) in events
      ensures Shipment(hosts[k].name, evals[k].top.out) in shipped
    {
      assert pre[k] == PrecheckHost(hosts[k], evals[k].top, force, probes[k]);
      assert pre[k].job in Todo(pre);
      var i :| 0 <= i < |Todo(pre)| && Todo(pre)[i] == pre[k].job;
    }
  }

  /** What a run did, said of its evals and probes. */
  ghost predicate Faithful(hosts: seq<Host>, evals: seq<Eval>, probes: seq<Probe>, force: bool, mode: Mode,
                           r: Report, log: seq<Event>, from: nat, events: seq<Event>)
    requires |hosts| == |probes| && |hosts| <= |evals| && AllUsable(evals)
  {
    && AllCarryOwn(hosts, evals, mode, log, from)
    && ShipsOwn(hosts, evals, r.shipped)
    && (K3sDown(hosts, probes) ==> r.code == 1 && r.asked == [] && r.shipped == [] && |log| == from)
    && (!K3sDown(hosts, probes) ==>
          r.asked == (if mode.Safe? then OwnDrvs(hosts, evals, probes, force, |hosts|) else [])
                     + LastDrvs(evals, |hosts|))
    && (mode.Safe? && !K3sDown(hosts, probes) ==> ServedOwn(hosts, evals, probes, force, r.shipped, events))
  }

  /**
   * From the evals to the exit code. An unusable eval ends the run before anything is asked for or sent, and so
   * does an unreachable k3s node. The program exits 0 if and only if every eval is usable, every selected host
   * was reachable and either skipped by policy or had its deploy return true, and the Out half of every
   * build-only host's eval is in the store at the end. Every deploy, and every command in one that switches to a
   * path, is of a host at its own eval's Out. The derivations asked for are exactly the own Drvs of the hosts
   * that need a build, in safe mode, and those of the build-only hosts; every copy takes a host its own Out.
   */
  method Orchestrate(s: Session, hosts: seq<Host>, buildOnly: seq<Host>, evals: seq<Eval>, probes: seq<Probe>,
                     force: bool, args: Args, store: Store, stored: set<string>) returns (r: Report)
    requires |evals| == |hosts| + |buildOnly| && |probes| == |hosts| && DistinctNames(hosts + buildOnly)
    requires store.present <= store.paths && D.Between(s) && s.gate.held == {}
    requires forall k :: 0 <= k < |hosts| ==> CephInK3s(hosts[k])
    modifies s
    ensures D.Between(s) && r.code in {0, 1} && old(s.log) <= s.log && old(s.deploys) <= s.deploys
    ensures !AllUsable(evals) ==> r == Report(1, [], [], [], []) && s.log == old(s.log)
    ensures AllUsable(evals) ==>
              Faithful(hosts, evals, probes, force, args.mode, r, s.log, |old(s.log)|,
                       s.deploys[|old(s.deploys)|..])
    ensures r.code == 0 <==>
              && AllUsable(evals)
              && AllSettled(hosts, evals, probes, force, s.deploys[|old(s.deploys)|..])
              && AllStored(evals, |hosts|, stored)
    ensures s.gate.held <= {s.gate.host.name}
    ensures D.NooutWarnings(s.warnings) ==
            D.NooutWarnings(old(s.warnings)) + if s.gate.held != {} then [s.gate.host.name] else []
  {
    var ok, pre, extra := Prepare(hosts, buildOnly, evals, probes, force, stored);
    if !ok {
      assert D.NooutWarnings(s.warnings) + [] == D.NooutWarnings(s.warnings);
      return Report(1, [], [], [], []);
    }
    PlanIsSound(hosts, evals, probes, force, pre);
    r := RunFleet(s, pre, extra, args, store);
    SettledIff(hosts, evals, probes, force, pre, s.deploys[|old(s.deploys)|..]);
    BuiltOkIff(extra, evals, |hosts|, stored);
    RunIsFaithful(hosts, evals, probes, force, args.mode, pre, extra, r, s.log, |old(s.log)|,
                  s.deploys[|old(s.deploys)|..]);
  }

  lemma RunIsFaithful(hosts: seq<Host>, evals: seq<Eval>, probes: seq<Probe>, force: bool, mode: Mode, pre: seq<Pre>,
                      extra: seq<BuildOnly>, r: Report, log: seq<Event>, from: nat, events: seq<Event>)
    requires Planned(hosts, evals, probes, force, pre) && |evals| == |hosts| + |extra|
    requires forall k :: 0 <= k < |extra| ==> extra[k].drv == evals[|hosts| + k].top.drv
    requires AllCarry(Todo(pre), mode, log, from) && AllOwn(Todo(pre), r.shipped)
    requires Aborts(pre) <==> K3sDown(hosts, probes)
    requires Aborts(pre) ==> r.code == 1 && r.asked == [] && r.shipped == [] && |log| == from
    requires !Aborts(pre) ==> r.asked == (if mode.Safe? then StaleDrvs(Todo(pre)) else []) + ExtraDrvs(extra)
    requires mode.Safe? && !Aborts(pre) ==> AllServed(Todo(pre), r.shipped, events)
    ensures Faithful(hosts, evals, probes, force, mode, r, log, from, events)
  {
    AllCarryIsOwn(hosts, evals, probes, force, pre, mode, log, from);
    ShipsAreOwn(hosts, evals, probes, force, pre, r.shipped);
    if mode.Safe? && !Aborts(pre) { ServedAreOwn(hosts, evals, probes, force, pre, r.shipped, events); }
    AskedIsOwn(hosts, evals, probes, force, pre, extra);
  }

  lemma AskedIsOwn(hosts: seq<Host>, evals: seq<Eval>, probes: seq<Probe>, force: bool, pre: seq<Pre>,
                   extra: seq<BuildOnly>)
    requires Planned(hosts, evals, probes, force, pre) && |evals| == |hosts| + |extra|
    requires forall k :: 0 <= k < |extra| ==> extra[k].drv == evals[|hosts| + k].top.drv
    ensures StaleDrvs(Todo(pre)) == OwnDrvs(hosts, evals, probes, force, |hosts|)
    ensures ExtraDrvs(extra) == LastDrvs(evals, |hosts|)
  {
    OwnDrvsAre(hosts, evals, probes, force, pre, |pre|);
    assert pre[..|pre|] == pre;
  }

  // ---- Every run ----

  /**
   * What every run's log satisfies, in one place: no command rides a master from before a disruption, at most
   * one noout is outstanding at any step and none when a deploy starts, and every stretch of a safe deploy is
   * possible and keeps the watchdog discipline, to an end which that discipline allows.
   */
  lemma EveryRunIsSafe(s: Session)
    requires D.Between(s)
    ensures Master.FreshRides(s.log)
    ensures forall k: nat, m, n ::
              k <= |s.log| && Noout.Held(s.log[..k], m) && Noout.Held(s.log[..k], n) ==> m == n
    ensures forall k: nat, n :: k < |s.log| && s.log[k].Begin? ==> !Noout.Held(s.log[..k], n)
    ensures forall b: nat, e: nat :: WatchdogTheorems.Stretch(s.log, b, e) ==>
              WatchdogTheorems.Lawful(WatchdogTheorems.JobAt(s.log, b), s.log[b + 1..e])
              && AllPossible(s.log[b + 1..e])
    ensures forall b: nat, e: nat :: WatchdogTheorems.Whole(s.log, b, e) ==>
              s.log[e].name == s.log[b].host.name && s.log[e].plan == s.log[b].plan
              && WatchdogTheorems.At(WatchdogTheorems.JobAt(s.log, b), s.log[b + 1..e]).MayEnd(s.log[e].ok)
  {
    Master.LawfulIffFreshRides(s.log);
    forall k: nat, m, n | k <= |s.log| && Noout.Held(s.log[..k], m) && Noout.Held(s.log[..k], n) ensures m == n {
      Noout.AtMostOneNoout(s.log, k, m, n);
    }
    forall k: nat, n | k < |s.log| && s.log[k].Begin? ensures !Noout.Held(s.log[..k], n) {
      Noout.AtMostOneNoout(s.log, k, n, n);
    }
    forall b: nat, e: nat | WatchdogTheorems.Stretch(s.log, b, e)
      ensures WatchdogTheorems.Lawful(WatchdogTheorems.JobAt(s.log, b), s.log[b + 1..e])
    {
      WatchdogTheorems.EveryDeployLawful(s.log, b, e);
    }
    forall b: nat, e: nat | WatchdogTheorems.Whole(s.log, b, e)
      ensures s.log[e].name == s.log[b].host.name && s.log[e].plan == s.log[b].plan
      ensures WatchdogTheorems.At(WatchdogTheorems.JobAt(s.log, b), s.log[b + 1..e]).MayEnd(s.log[e].ok)
    {
      WatchdogTheorems.EveryDeployEndedWell(s.log, b, e);
    }
  }

  /** In every run, what a safe deploy that returned true says of the boot entry, and what it does not. */
  lemma TrueBootsPlanInEveryRun(s: Session, b: nat, e: nat, r0: Remote)
    requires D.Between(s) && WatchdogTheorems.Whole(s.log, b, e) && s.log[e].ok
    ensures Replay(r0, s.log[b + 1..e]).boot == s.log[b].plan <==>
            || r0.boot == s.log[b].plan
            || exists a :: b < a < e && WatchdogTheorems.Arms(s.log[a]) && s.log[a].reply.ok
  {
    WatchdogTheorems.TrueDeployBootsPlanIff(s.log, b, e, r0);
  }

  /** In every run a deploy of any mode ended false exactly for a cause its events show, and went on until then. */
  lemma EveryDeployIsAccounted(s: Session, b: nat, e: nat)
    requires D.Between(s) && Endings.Ended(s.log, b, e)
    ensures Endings.Accounted(s.log[b + 1..e], WatchdogTheorems.JobAt(s.log, b), s.log[e].ok)
  {
    s.AllFit();
    Endings.EveryEndHasCause(s.log, b, e);
  }

  /** In every run each deploy sends only what belongs to its mode. */
  lemma EveryCommandFitsItsMode(s: Session, b: nat, k: nat)
    requires D.Between(s) && Endings.Going(s.log, b, k) && k < |s.log| && s.log[k].Sent?
    ensures s.log[k].cmd.NixosRebuild? ==> s.log[b].mode == (if s.log[k].cmd.stage then Boot else Switch)
    ensures Modes.Activates(s.log[k].cmd) ==> s.log[b].mode == Safe
  {
    Modes.EveryDeployWithin(s.log, b, k + 1);
    var seg := s.log[b + 1..k + 1];
    assert seg[k - b - 1] == s.log[k];
    Modes.CommandsOfMode(WatchdogTheorems.JobAt(s.log, b), seg, k - b - 1);
  }

  /** In every run a deploy in mode boot leaves the running system of a host that does not reboot as it was. */
  lemma BootActivatesNothingInAnyRun(s: Session, b: nat, e: nat, r0: Remote)
    requires D.Between(s) && Endings.Going(s.log, b, e) && s.log[b].mode.Boot?
    requires !Modes.WentDown(s.log[b + 1..e])
    ensures Replay(r0, s.log[b + 1..e]).active == r0.active
  {
    Modes.EveryDeployWithin(s.log, b, e);
    Modes.BootActivatesNothing(WatchdogTheorems.JobAt(s.log, b), s.log[b + 1..e], r0);
  }
}
