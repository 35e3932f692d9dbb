/** What tells the three modes apart. */
module Modes {
  import opened Hosts
  import opened Wire
  import opened Watchdog
  import opened WatchdogTheorems
  import opened Causes
  import opened Endings

  /** The watchdog's own commands. */
  predicate Activates(cmd: Command) {
    cmd.StopStale? || cmd.Arm? || cmd.Disarm? || cmd.SwitchTest? || cmd.ClearUnit? || cmd.SetProfile?
    || cmd.SwitchBoot?
  }

  ghost predicate Unsafe(w: Watch) { w.timer.arm.Unarmed? && Idle(w) }

  lemma ModeStep(w: Watch, e: Event)
    requires Step(w, e).lawful && !Marks(e) && e.Sent? && (!w.job.mode.Safe? ==> Unsafe(w))
    ensures e.cmd.NixosRebuild? ==>
              (w.job.mode == if e.cmd.stage then Boot else Switch) && w.kept.rebuilt == Untried
    ensures Activates(e.cmd) ==> w.job.mode == Safe
  {
  }

  lemma UnsafeIsIdle(job: Job, seg: seq<Event>)
    requires Within(job, seg) && !job.mode.Safe?
    ensures Unsafe(AtAny(job, seg))
  {
    UnsafeNeverArmed(job, seg);
    UnarmedIdle(job, seg);
  }

  lemma {:induction false} WithinPrefix(job: Job, seg: seq<Event>, k: nat)
    requires Within(job, seg) && k <= |seg|
    ensures Within(job, seg[..k])
  {
    if k < |seg| {
      WithinFront(job, seg);
      WithinPrefix(job, seg[..|seg| - 1], k);
      assert seg[..|seg| - 1][..k] == seg[..k];
    } else {
      assert seg[..k] == seg;
    }
  }

  /**
   * A rebuild is only staged in mode boot and only activated in mode switch, it is sent once, and the
   * watchdog's commands belong to the safe mode alone.
   */
  lemma CommandsOfMode(job: Job, seg: seq<Event>, k: nat)
    requires Within(job, seg) && k < |seg| && seg[k].Sent?
    ensures seg[k].cmd.NixosRebuild? ==> job.mode == (if seg[k].cmd.stage then Boot else Switch)
    ensures seg[k].cmd.NixosRebuild? ==>
              forall j :: 0 <= j < k && seg[j].Sent? ==> !seg[j].cmd.NixosRebuild?
    ensures Activates(seg[k].cmd) ==> job.mode == Safe
  {
    WithinPrefix(job, seg, k);
    WithinPrefix(job, seg, k + 1);
    assert seg[..k + 1][..k] == seg[..k];
    WithinFront(job, seg[..k + 1]);
    if !job.mode.Safe? { UnsafeIsIdle(job, seg[..k]); }
    ModeStep(AtAny(job, seg[..k]), seg[k]);
    if seg[k].cmd.NixosRebuild? {
      RebuildLink(job, seg[..k]);
      forall j | 0 <= j < k && seg[j].Sent? ensures !seg[j].cmd.NixosRebuild? {
        assert seg[..k][j] == seg[j] && !Is(seg[..k][j], Rebuilding);
      }
    }
  }

  /** The host rebooted, by itself or because it was told to. */
  ghost predicate WentDown(seg: seq<Event>) {
    exists k :: 0 <= k < |seg| && seg[k].Sent? && (seg[k].rebooted || (seg[k].cmd.Reboot? && seg[k].took))
  }

  /** A deploy in mode boot leaves the running system as it was on a host that does not reboot. */
  lemma {:induction false} BootActivatesNothing(job: Job, seg: seq<Event>, r0: Remote)
    requires Within(job, seg) && job.mode.Boot? && !WentDown(seg)
    ensures Replay(r0, seg).active == r0.active
  {
    if seg != [] {
      var n := |seg| - 1;
      WithinFront(job, seg);
      forall k | 0 <= k < n && seg[..n][k].Sent?
        ensures !seg[k].rebooted && !(seg[k].cmd.Reboot? && seg[k].took)
      {
        assert seg[..n][k] == seg[k];
      }
      assert seg[n].Sent? ==> !seg[n].rebooted && !(seg[n].cmd.Reboot? && seg[n].took);
      BootActivatesNothing(job, seg[..n], r0);
      if seg[n].Sent? { CommandsOfMode(job, seg, n); }
    }
  }

  /** The host boots what was rebuilt, and after a rebuild that was not only staged it runs it. */
  predicate Holds(r: Remote, path: string, stage: bool) {
    r.boot == path && r.profile == path && (!stage ==> r.active == path)
  }

  lemma HoldsStep(r: Remote, e: Event, path: string, stage: bool)
    requires Holds(r, path, stage) && !Marks(e) && (e.Sent? ==> !Activates(e.cmd) && !e.cmd.NixosRebuild?)
    ensures Holds(After(r, e), path, stage)
  {
  }

  /**
   * An acknowledged rebuild is still there at every later point of the deploy: as profile and boot entry in
   * both modes, and in mode switch as the running system, whatever reboots come between.
   */
  lemma {:induction false} RebuildStays(job: Job, seg: seq<Event>, r0: Remote, k: nat)
    requires Within(job, seg) && AllPossible(seg) && k < |seg|
    requires seg[k].Sent? && seg[k].cmd.NixosRebuild? && seg[k].reply.ok
    ensures Holds(Replay(r0, seg), seg[k].cmd.result, job.mode.Boot?)
  {
    var n := |seg| - 1;
    WithinFront(job, seg);
    CommandsOfMode(job, seg, k);
    if k < n {
      forall j | 0 <= j < n ensures Possible(seg[..n][j]) { assert Possible(seg[j]); }
      RebuildStays(job, seg[..n], r0, k);
      if seg[n].Sent? { CommandsOfMode(job, seg, n); }
      HoldsStep(Replay(r0, seg[..n]), seg[n], seg[k].cmd.result, job.mode.Boot?);
    } else {
      assert Possible(seg[k]);
    }
  }

  // ---- The same of every run ----

  /** In a lawful run the events of every deploy, of any mode, are within its discipline. */
  lemma EveryDeployWithin(log: seq<Event>, b: nat, e: nat)
    requires WatchOf(log).lawful && Going(log, b, e)
    ensures Within(JobAt(log, b), log[b + 1..e])
  {
    Parts(log, b, e);
    RunPrefix(log, e);
    OwnRecord(log[..b + 1], log[b + 1..e]);
  }
}
