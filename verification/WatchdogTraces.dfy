/**
 * Stretches of events that a deploy can produce, built one event at a time from the code's own commands, on which a
 * promise of the watchdog flow breaks.
 */
module WatchdogTraces {
  import opened Hosts
  import opened Wire
  import opened Watchdog
  import opened WatchdogTheorems
  import Ceph

  /** A lawful stretch that can happen on a host that starts as `r0`, and answers truly. */
  ghost predicate Plausible(job: Job, seg: seq<Event>, r0: Remote) {
    Lawful(job, seg) && AllPossible(seg) && Quiet(r0, seg)
  }

  lemma Extend(job: Job, seg: seq<Event>, e: Event, r0: Remote)
    requires Plausible(job, seg, r0) && !Marks(e) && Possible(e) && Step(At(job, seg), e).lawful
    requires e.Sent? ==> !e.rebooted && (e.cmd.ReadActive? || e.cmd.ReadProfile? ==> e.reply.ok)
    requires TrueRead(Replay(r0, seg), e)
    ensures Plausible(job, seg + [e], r0)
    ensures At(job, seg + [e]) == Step(At(job, seg), e)
    ensures Replay(r0, seg + [e]) == After(Replay(r0, seg), e)
  {
    assert (seg + [e])[..|seg|] == seg;
  }

  /** An acknowledged command. */
  function Answer(name: string, via: Via, cmd: Command, text: string): Event {
    Sent(name, via, cmd, Reply(true, false, Text(text)), true, false)
  }

  /** The Ceph gate's commands before and after the body, with every OSD up and every group clean. */
  function OpenGate(host: Host, seg: seq<Event>): seq<Event> {
    if host.ceph then seg + [LookUp(host.name)] + [Answer(host.name, Mux, SetNoout, "")] else seg
  }

  function CloseGate(host: Host, seg: seq<Event>): seq<Event> {
    if host.ceph
      then seg + [LookUp(host.name)] + [LookClean(host.name)] + [Answer(host.name, Mux, UnsetNoout, "")]
      else seg
  }

  function LookUp(name: string): Event { Sent(name, Mux, OsdTree, Reply(true, false, Tree([])), true, false) }

  function LookClean(name: string): Event {
    Sent(name, Mux, PgStat, Reply(true, false, Pgs(Ceph.PgStat([], 0))), true, false)
  }

  function SkipStart(host: Host): seq<Event> { OpenGate(host, [Answer(host.name, Mux, Echo, "ok")]) }

  function SkipReads(host: Host, active: string, profile: string): seq<Event> {
    SkipStart(host) + [Answer(host.name, Mux, ReadActive, active)] + [Answer(host.name, Mux, ReadProfile, profile)]
  }

  function SkipQueries(host: Host, plan: string): seq<Event> {
    SkipReads(host, plan, plan)
    + [Answer(host.name, Mux, KernelQuery(0), "")] + [Answer(host.name, Mux, KernelQuery(1), "")]
    + [Answer(host.name, Mux, KernelQuery(2), "")] + [Answer(host.name, Mux, KernelQuery(3), "")]
  }

  function SkipBody(host: Host, plan: string): seq<Event> {
    SkipQueries(host, plan) + if host.k8s then [Answer(host.name, Local, NodeReady, "True")] else []
  }

  /**
   * What a deploy sends that finds its plan active and in the profile, with every command answered: the probe,
   * the gate, the two reads, the four kernel queries, the node check and the gate again.
   */
  function SkipTrace(host: Host, plan: string): seq<Event> { CloseGate(host, SkipBody(host, plan)) }

  /** Commands that tell the watchdog discipline nothing. */
  predicate Neutral(cmd: Command) {
    cmd.Echo? || cmd.KernelQuery? || cmd.OsdTree? || cmd.PgStat? || cmd.SetNoout? || cmd.UnsetNoout?
  }

  /** The stretch leads to this state of the discipline and of the host. */
  ghost predicate Leads(job: Job, seg: seq<Event>, r0: Remote, w: Watch, r: Remote) {
    Plausible(job, seg, r0) && At(job, seg) == w && Replay(r0, seg) == r
  }

  lemma NeutralStep(w: Watch, e: Event)
    requires w.open && w.lawful && e.Sent? && e.name == w.job.host.name && e.via.Mux? && Neutral(e.cmd)
    requires e.cmd.KernelQuery? ==> w.MayReboot()
    ensures Step(w, e) == w
  {
  }

  lemma NeutralEffect(r: Remote, e: Event)
    requires e.Sent? && Neutral(e.cmd) && e.took && !e.rebooted
    ensures TrueRead(r, e) && After(r, e) == Effect(r, e.cmd)
  {
  }

  lemma ExtendNeutral(job: Job, seg: seq<Event>, r0: Remote, w: Watch, r: Remote, e: Event)
    requires Leads(job, seg, r0, w, r) && w.open && w.lawful && w.job == job
    requires e.Sent? && e.name == job.host.name && e.via.Mux? && Neutral(e.cmd)
    requires e.reply.ok && !e.reply.lost && e.took && !e.rebooted && (e.cmd.KernelQuery? ==> w.MayReboot())
    ensures Leads(job, seg + [e], r0, w, Effect(r, e.cmd))
  {
    NeutralStep(w, e);
    NeutralEffect(r, e);
    Extend(job, seg, e, r0);
  }

  lemma SetLeads(job: Job, seg: seq<Event>, r0: Remote, w: Watch, r: Remote)
    requires Leads(job, seg, r0, w, r) && w.open && w.lawful && w.job == job
    ensures Leads(job, seg + [LookUp(job.host.name)] + [Answer(job.host.name, Mux, SetNoout, "")], r0, w,
                  r.(noout := true))
  {
    var e1, e2 := LookUp(job.host.name), Answer(job.host.name, Mux, SetNoout, "");
    ExtendNeutral(job, seg, r0, w, r, e1);
    ExtendNeutral(job, seg + [e1], r0, w, r, e2);
  }

  lemma GateOpened(job: Job, seg: seq<Event>, r0: Remote, w: Watch, r: Remote)
    requires Leads(job, seg, r0, w, r) && w.open && w.lawful && w.job == job
    ensures Leads(job, OpenGate(job.host, seg), r0, w, Gated(job.host, r))
  {
    if job.host.ceph { SetLeads(job, seg, r0, w, r); }
  }

  lemma CleanLookLeads(job: Job, seg: seq<Event>, r0: Remote, w: Watch, r: Remote)
    requires Leads(job, seg, r0, w, r) && w.open && w.lawful && w.job == job
    ensures Leads(job, seg + [LookUp(job.host.name)] + [LookClean(job.host.name)], r0, w, r)
  {
    var e1, e2 := LookUp(job.host.name), LookClean(job.host.name);
    ExtendNeutral(job, seg, r0, w, r, e1);
    ExtendNeutral(job, seg + [e1], r0, w, r, e2);
  }

  lemma GateClosed(job: Job, seg: seq<Event>, r0: Remote, w: Watch, r: Remote)
    requires Leads(job, seg, r0, w, r) && w.open && w.lawful && w.job == job
    ensures Leads(job, CloseGate(job.host, seg), r0, w, Ungated(job.host, r))
  {
    if job.host.ceph {
      var n := job.host.name;
      CleanLookLeads(job, seg, r0, w, r);
      ExtendNeutral(job, seg + [LookUp(n)] + [LookClean(n)], r0, w, r, Answer(n, Mux, UnsetNoout, ""));
    }
  }

  /** The host once the gate is open. */
  function Gated(host: Host, r: Remote): Remote { if host.ceph then r.(noout := true) else r }

  function Ungated(host: Host, r: Remote): Remote { if host.ceph then r.(noout := false) else r }

  lemma StartLeads(job: Job, r: Remote)
    requires job.Guarded()
    ensures Leads(job, SkipStart(job.host), r, Fresh(job, true), Gated(job.host, r))
  {
    var e := Answer(job.host.name, Mux, Echo, "ok");
    ExtendNeutral(job, [], r, Fresh(job, true), r, e);
    assert [] + [e] == [e];
    GateOpened(job, [e], r, Fresh(job, true), r);
  }

  lemma ExtendActive(job: Job, seg: seq<Event>, r0: Remote, r: Remote)
    requires Leads(job, seg, r0, Fresh(job, true), r)
    ensures Leads(job, seg + [Answer(job.host.name, Mux, ReadActive, r.active)], r0,
                  Fresh(job, true).(start := Start(r.active, "")), r)
  {
    Extend(job, seg, Answer(job.host.name, Mux, ReadActive, r.active), r0);
  }

  lemma ExtendProfile(job: Job, seg: seq<Event>, r0: Remote, r: Remote)
    requires Leads(job, seg, r0, Fresh(job, true).(start := Start(r.active, "")), r)
    ensures Leads(job, seg + [Answer(job.host.name, Mux, ReadProfile, r.profile)], r0,
                  Fresh(job, true).(start := Start(r.active, r.profile)), r)
  {
    Extend(job, seg, Answer(job.host.name, Mux, ReadProfile, r.profile), r0);
  }

  lemma ReadsLead(job: Job, r: Remote)
    requires job.Guarded()
    ensures Leads(job, SkipReads(job.host, r.active, r.profile), r,
                  Fresh(job, true).(start := Start(r.active, r.profile)), Gated(job.host, r))
  {
    StartLeads(job, r);
    ExtendActive(job, SkipStart(job.host), r, Gated(job.host, r));
    ExtendProfile(job, SkipStart(job.host) + [Answer(job.host.name, Mux, ReadActive, r.active)], r,
                  Gated(job.host, r));
  }

  lemma QueriesLead(job: Job, r0: Remote, w: Watch, r: Remote)
    requires Leads(job, SkipReads(job.host, job.plan, job.plan), r0, w, r) && w.open && w.lawful && w.job == job
    requires w.MayReboot()
    ensures Leads(job, SkipQueries(job.host, job.plan), r0, w, r)
  {
    var n := job.host.name;
    var seg0 := SkipReads(job.host, job.plan, job.plan);
    var seg1 := seg0 + [Answer(n, Mux, KernelQuery(0), "")];
    var seg2 := seg1 + [Answer(n, Mux, KernelQuery(1), "")];
    var seg3 := seg2 + [Answer(n, Mux, KernelQuery(2), "")];
    ExtendNeutral(job, seg0, r0, w, r, Answer(n, Mux, KernelQuery(0), ""));
    ExtendNeutral(job, seg1, r0, w, r, Answer(n, Mux, KernelQuery(1), ""));
    ExtendNeutral(job, seg2, r0, w, r, Answer(n, Mux, KernelQuery(2), ""));
    ExtendNeutral(job, seg3, r0, w, r, Answer(n, Mux, KernelQuery(3), ""));
  }

  /** The state of the discipline when an up-to-date deploy is through. */
  function Skipped(job: Job): Watch {
    Fresh(job, true).(start := Start(job.plan, job.plan), post := Aftermath(false, job.host.k8s))
  }

  lemma ReadyLeads(job: Job, seg: seq<Event>, r0: Remote, r: Remote)
    requires Leads(job, seg, r0, Fresh(job, true).(start := Start(job.plan, job.plan)), r)
    ensures Leads(job, seg + if job.host.k8s then [Answer(job.host.name, Local, NodeReady, "True")] else [],
                  r0, Skipped(job), r)
  {
    if job.host.k8s {
      Extend(job, seg, Answer(job.host.name, Local, NodeReady, "True"), r0);
    } else {
      assert seg + [] == seg;
    }
  }

  /** Such a deploy returns true and leaves the host alone but for its noout, whatever the host would boot. */
  lemma SkipReturnsTrue(job: Job, r: Remote)
    requires job.Guarded() && job.plan != "" && r.active == r.profile == job.plan
    ensures Leads(job, SkipTrace(job.host, job.plan), r, Skipped(job), Ungated(job.host, r))
    ensures SafeExit(Skipped(job), true)
  {
    ReadsLead(job, r);
    QueriesLead(job, r, Fresh(job, true).(start := Start(job.plan, job.plan)), Gated(job.host, r));
    ReadyLeads(job, SkipQueries(job.host, job.plan), r, Gated(job.host, r));
    GateClosed(job, SkipBody(job.host, job.plan), r, Skipped(job), Gated(job.host, r));
  }

  /**
   * After any such half persist the next deploy of the same path skips and returns true, with every command
   * answered and every read true, on a host that boots what it booted before both.
   */
  lemma SkippedWithStaleBootEntry(job: Job, seg: seq<Event>, r0: Remote)
    requires Plausible(job, seg, r0) && At(job, seg).kept.profile.Acked?
    requires BootNeverSwitched(seg)
    ensures var r1, next := Replay(r0, seg), SkipTrace(job.host, job.plan);
            && Plausible(job, next, r1) && SafeExit(At(job, next), true)
            && Replay(r1, next).active == Replay(r1, next).profile == job.plan
            && Replay(r1, next).boot == r0.boot
  {
    HalfPersisted(job, seg, r0);
    SkipReturnsTrue(job, Replay(r0, seg));
  }

  const TV := Host("dovahkiin", 40, false, false, ["workstation"], false, [Ssh])
  const UPGRADE := Job(TV, "new", Safe)
  const OLD := Remote("old", "old", "old", {}, false)

  lemma UpToCleanup() returns (seg: seq<Event>)
    ensures Plausible(UPGRADE, seg, OLD) && Replay(OLD, seg) == OLD && BootNeverSwitched(seg)
    ensures At(UPGRADE, seg) == Fresh(UPGRADE, true).(start := Start("old", "old"),
                                                      timer := Timer(true, Unarmed, "", false))
  {
    var front := SkipReads(TV, "old", "old");
    ReadsLead(UPGRADE, OLD);
    Extend(UPGRADE, front, Answer(TV.name, Mux, StopStale, ""), OLD);
    seg := front + [Answer(TV.name, Mux, StopStale, "")];
  }

  lemma UpToAttempt() returns (seg: seq<Event>)
    ensures Plausible(UPGRADE, seg, OLD) && BootNeverSwitched(seg)
    ensures Replay(OLD, seg) == OLD.(active := "new", timers := {"deploy-watchdog-1"})
    ensures At(UPGRADE, seg) == Fresh(UPGRADE, true).(
              start := Start("old", "old"), timer := Timer(true, Arming.Armed, "deploy-watchdog-1", false),
              trial := Trial(true, true, false), contact := Contact(true, 0, ""))
  {
    var n := TV.name;
    var front := UpToCleanup();
    var e1, e2 := Answer(n, Mux, Arm("deploy-watchdog-1"), ""), Answer(n, Mux, SwitchTest("new"), "");
    var e3 := Dropped(n);
    Extend(UPGRADE, front, e1, OLD);
    Extend(UPGRADE, front + [e1], e2, OLD);
    Extend(UPGRADE, front + [e1] + [e2], e3, OLD);
    Extend(UPGRADE, front + [e1] + [e2] + [e3], Attempt(n), OLD);
    seg := front + [e1] + [e2] + [e3] + [Attempt(n)];
  }

  lemma UpToProfile() returns (seg: seq<Event>)
    ensures Plausible(UPGRADE, seg, OLD) && BootNeverSwitched(seg)
    ensures At(UPGRADE, seg) == Fresh(UPGRADE, true).(
              start := Start("old", "old"), timer := Timer(true, Arming.Armed, "deploy-watchdog-1", false),
              trial := Trial(true, true, false), contact := Contact(true, 1, "new"),
              kept := Lasting(Acked, Untried, Untried))
  {
    var front := UpToReadBack();
    var e := Answer(TV.name, Mux, SetProfile("new"), "");
    assert At(UPGRADE, front).Verified();
    Extend(UPGRADE, front, e, OLD);
    seg := front + [e];
  }

  lemma UpToReadBack() returns (seg: seq<Event>)
    ensures Plausible(UPGRADE, seg, OLD) && BootNeverSwitched(seg)
    ensures Replay(OLD, seg) == OLD.(active := "new", timers := {"deploy-watchdog-1"})
    ensures At(UPGRADE, seg) == Fresh(UPGRADE, true).(
              start := Start("old", "old"), timer := Timer(true, Arming.Armed, "deploy-watchdog-1", false),
              trial := Trial(true, true, false), contact := Contact(true, 1, "new"))
  {
    var front := UpToAttempt();
    var e1, e2 := Answer(TV.name, Direct, Check(0, Ssh), "ok"), Answer(TV.name, Mux, ReadActive, "new");
    Extend(UPGRADE, front, e1, OLD);
    Extend(UPGRADE, front + [e1], e2, OLD);
    seg := front + [e1] + [e2];
  }

  /** A first deploy like that, on a host that runs, keeps and boots one path: only its boot switch fails. */
  lemma FailedBootSwitch() returns (seg: seq<Event>)
    ensures Plausible(UPGRADE, seg, OLD) && BootNeverSwitched(seg)
    ensures At(UPGRADE, seg).kept.profile.Acked? && SafeExit(At(UPGRADE, seg), false)
    ensures OLD.active == OLD.profile == OLD.boot != UPGRADE.plan
  {
    var n := TV.name;
    var front := UpToProfile();
    var e1 := Sent(n, Mux, SwitchBoot("new"), Reply(false, false, Text("")), false, false);
    var e2 := Answer(n, Mux, Disarm("deploy-watchdog-1"), "");
    Extend(UPGRADE, front, e1, OLD);
    Extend(UPGRADE, front + [e1], e2, OLD);
    seg := front + [e1] + [e2];
  }

  // ---- A reboot in the window ----

  /** As `Extend`, on a host that may reboot before the event. */
  lemma ExtendRebooted(job: Job, seg: seq<Event>, e: Event, r0: Remote)
    requires Lawful(job, seg) && AllPossible(seg) && Honest(r0, seg)
    requires !Marks(e) && Possible(e) && Step(At(job, seg), e).lawful && TrueRead(Before(Replay(r0, seg), e), e)
    ensures Lawful(job, seg + [e]) && AllPossible(seg + [e]) && Honest(r0, seg + [e])
    ensures At(job, seg + [e]) == Step(At(job, seg), e)
    ensures Replay(r0, seg + [e]) == After(Replay(r0, seg), e)
  {
    assert (seg + [e])[..|seg|] == seg;
  }

  lemma RebootedIntoProfile() returns (seg: seq<Event>)
    ensures Lawful(UPGRADE, seg) && AllPossible(seg) && Honest(OLD, seg)
    ensures Replay(OLD, seg) == Remote("old", "new", "old", {}, false)
    ensures At(UPGRADE, seg) == Fresh(UPGRADE, true).(
              start := Start("old", "old"), timer := Timer(true, Arming.Armed, "deploy-watchdog-1", false),
              trial := Trial(true, true, false), contact := Contact(true, 1, "new"),
              kept := Lasting(Acked, Untried, Untried))
  {
    var front := UpToReadBack();
    var e := Sent(TV.name, Mux, SetProfile("new"), Reply(true, false, Text("")), true, true);
    assert At(UPGRADE, front).Verified();
    ExtendRebooted(UPGRADE, front, e, OLD);
    seg := front + [e];
  }

  lemma RebootedUpToDisarm() returns (seg: seq<Event>)
    ensures Lawful(UPGRADE, seg) && AllPossible(seg) && Honest(OLD, seg)
    ensures Replay(OLD, seg) == Remote("old", "new", "new", {}, false)
    ensures At(UPGRADE, seg) == Fresh(UPGRADE, true).(
              start := Start("old", "old"), timer := Timer(true, Arming.Armed, "deploy-watchdog-1", true),
              trial := Trial(true, true, false), contact := Contact(true, 1, "new"),
              kept := Lasting(Acked, Acked, Untried))
  {
    var front := RebootedIntoProfile();
    var e1, e2 := Answer(TV.name, Mux, SwitchBoot("new"), ""), Answer(TV.name, Mux, Disarm("deploy-watchdog-1"), "");
    assert At(UPGRADE, front).Verified();
    ExtendRebooted(UPGRADE, front, e1, OLD);
    ExtendRebooted(UPGRADE, front + [e1], e2, OLD);
    seg := front + [e1] + [e2];
  }

  /**
   * The watchdog fires between the read-back and the disarm, and the host is up again for the next command:
   * every command is acknowledged, every read is true and the deploy returns true, on a host that runs its
   * old system until the next reboot.
   */
  lemma RebootInWindow() returns (seg: seq<Event>)
    ensures Lawful(UPGRADE, seg) && AllPossible(seg) && Honest(OLD, seg) && SafeExit(At(UPGRADE, seg), true)
    ensures Replay(OLD, seg).active == OLD.active != UPGRADE.plan == Replay(OLD, seg).boot
  {
    var n := TV.name;
    var front := RebootedUpToDisarm();
    var e0, e1 := Answer(n, Mux, KernelQuery(0), ""), Answer(n, Mux, KernelQuery(1), "");
    var e2, e3 := Answer(n, Mux, KernelQuery(2), ""), Answer(n, Mux, KernelQuery(3), "");
    ExtendRebooted(UPGRADE, front, e0, OLD);
    ExtendRebooted(UPGRADE, front + [e0], e1, OLD);
    ExtendRebooted(UPGRADE, front + [e0] + [e1], e2, OLD);
    ExtendRebooted(UPGRADE, front + [e0] + [e1] + [e2], e3, OLD);
    seg := front + [e0] + [e1] + [e2] + [e3];
  }
}
