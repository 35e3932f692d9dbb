/** Why deploys fail, exactly, and what makes them go on. */
module Endings {
  import opened Hosts
  import opened Wire
  import opened Watchdog
  import opened WatchdogTheorems
  import opened Causes
  import Ceph
  import P = Progress
  import Noout
  import opened Exits

  // ---- What is only sent once armed ----

  ghost predicate Idle(w: Watch) {
    && !w.trial.tested && !w.contact.attempt && w.contact.seen == ""
    && w.kept.profile.Untried? && w.kept.boot.Untried?
  }

  lemma IdleStep(w: Watch, e: Event)
    requires Step(w, e).lawful && !Marks(e) && !Step(w, e).Armed()
    ensures !w.Armed() && (Idle(w) ==> Idle(Step(w, e)))
  {
  }

  lemma {:induction false} UnarmedIdle(job: Job, seg: seq<Event>)
    requires Within(job, seg) && !AtAny(job, seg).Armed()
    ensures Idle(AtAny(job, seg))
  {
    if seg != [] {
      WithinFront(job, seg);
      IdleStep(AtAny(job, seg[..|seg| - 1]), seg[|seg| - 1]);
      UnarmedIdle(job, seg[..|seg| - 1]);
    }
  }

  /** The profile is only written after a full attempt, the boot entry only after the profile. */
  ghost predicate InOrder(w: Watch) {
    && (w.contact.attempt ==> w.Armed() && w.trial.tested && w.trial.settled)
    && (!w.kept.profile.Untried? ==> w.Connected())
    && (!w.kept.boot.Untried? ==> !w.kept.profile.Untried?)
  }

  lemma OrderStep(w: Watch, e: Event)
    requires Step(w, e).lawful && !Marks(e) && InOrder(w) && (w.trial.settled ==> w.trial.tested)
    ensures InOrder(Step(w, e)) && (Step(w, e).trial.settled ==> Step(w, e).trial.tested)
  {
  }

  lemma {:induction false} StaysInOrder(job: Job, seg: seq<Event>)
    requires Within(job, seg)
    ensures InOrder(AtAny(job, seg)) && (AtAny(job, seg).trial.settled ==> AtAny(job, seg).trial.tested)
  {
    if seg != [] {
      WithinFront(job, seg);
      StaysInOrder(job, seg[..|seg| - 1]);
      OrderStep(AtAny(job, seg[..|seg| - 1]), seg[|seg| - 1]);
    }
  }

  lemma RebuiltStep(w: Watch, e: Event)
    requires Step(w, e).lawful && !Marks(e)
    ensures w.job.mode.Safe? ==> Step(w, e).kept.rebuilt == w.kept.rebuilt && !Is(e, Rebuilding)
    ensures !w.job.mode.Safe? && w.timer.arm.Unarmed? ==> Step(w, e).timer.arm.Unarmed?
  {
  }

  lemma {:induction false} UnsafeNeverArmed(job: Job, seg: seq<Event>)
    requires Within(job, seg) && !job.mode.Safe?
    ensures AtAny(job, seg).timer.arm.Unarmed?
  {
    if seg != [] {
      WithinFront(job, seg);
      RebuiltStep(AtAny(job, seg[..|seg| - 1]), seg[|seg| - 1]);
      UnsafeNeverArmed(job, seg[..|seg| - 1]);
    }
  }

  // ---- The gate's record, read off the events ----

  /** The run's log up to and with a begin, and the events of that deploy since. */
  ghost predicate Since(pre: seq<Event>, seg: seq<Event>) {
    pre != [] && pre[|pre| - 1].Begin? && Unmarked(seg)
  }

  function HostOf(pre: seq<Event>): Host
    requires pre != [] && pre[|pre| - 1].Begin?
  {
    pre[|pre| - 1].host
  }

  ghost function GateAt(pre: seq<Event>, seg: seq<Event>): Noout.Gate { Noout.GateOf(pre + seg) }

  lemma GateAppend(log: seq<Event>, e: Event)
    ensures Noout.GateOf(log + [e]) == Noout.Step(Noout.GateOf(log), e)
  {
    assert (log + [e])[..|log|] == log;
  }

  lemma GateFront(pre: seq<Event>, seg: seq<Event>)
    requires Since(pre, seg)
    ensures seg == [] ==> GateAt(pre, seg) == Noout.Step(Noout.GateOf(pre[..|pre| - 1]), pre[|pre| - 1])
    ensures seg != [] ==> Since(pre, seg[..|seg| - 1]) && !Marks(seg[|seg| - 1])
    ensures seg != [] ==> GateAt(pre, seg) == Noout.Step(GateAt(pre, seg[..|seg| - 1]), seg[|seg| - 1])
  {
    if seg == [] {
      GateAppend(pre[..|pre| - 1], pre[|pre| - 1]);
      assert pre + seg == pre[..|pre| - 1] + [pre[|pre| - 1]];
    } else {
      GateAppend(pre + seg[..|seg| - 1], seg[|seg| - 1]);
      assert pre + seg == pre + seg[..|seg| - 1] + [seg[|seg| - 1]];
    }
  }

  lemma LookStep(g: Noout.Gate, e: Event)
    requires !Marks(e)
    ensures Noout.Step(g, e).host == g.host
    ensures Noout.Step(g, e).passed <==> if Is(e, Treeing) then Noout.OthersUp(e, g.host.name) else g.passed
    ensures Noout.Step(g, e).treeUp <==> if Is(e, Treeing) then Noout.TreeUp(e) else g.treeUp
    ensures Noout.Step(g, e).clean <==>
            if Is(e, Grouping) then g.treeUp && Noout.PgsClean(e) else g.clean && !Is(e, Treeing)
  {
    if e.Sent? {
      var read := e.reply.ok && e.reply.body.Tree?;
      assert e.cmd.OsdTree? ==>
        && (Noout.OthersUp(e, g.host.name) <==> read && !Ceph.DownElsewhere(e.reply.body.nodes, g.host.name))
        && (Noout.TreeUp(e) <==> read && !Ceph.SomeDown(e.reply.body.nodes));
      NoteLook(g, e.cmd, e.reply);
    }
  }

  lemma NoteLook(g: Noout.Gate, cmd: Command, reply: Reply)
    ensures var h := g.Note(cmd, reply); var read := reply.ok && reply.body.Tree?;
            && h.host == g.host
            && (h.passed <==>
                if cmd.OsdTree? then read && !Ceph.DownElsewhere(reply.body.nodes, g.host.name) else g.passed)
            && (h.treeUp <==> if cmd.OsdTree? then read && !Ceph.SomeDown(reply.body.nodes) else g.treeUp)
            && (h.clean <==>
                if cmd.PgStat? then g.treeUp && reply.ok && reply.body.Pgs? && Ceph.AllClean(reply.body.pgs)
                else g.clean && !cmd.OsdTree?)
  {
  }

  lemma {:induction false} PassedLink(pre: seq<Event>, seg: seq<Event>)
    requires Since(pre, seg)
    ensures GateAt(pre, seg).host == HostOf(pre)
    ensures var t := Latest(seg, Treeing);
            GateAt(pre, seg).passed <==> t >= 0 && Noout.OthersUp(seg[t], HostOf(pre).name)
  {
    GateFront(pre, seg);
    if seg != [] {
      LookStep(GateAt(pre, seg[..|seg| - 1]), seg[|seg| - 1]);
      PassedLink(pre, seg[..|seg| - 1]);
    }
  }

  lemma {:induction false} CleanLink(pre: seq<Event>, seg: seq<Event>)
    requires Since(pre, seg)
    ensures var t := Latest(seg, Treeing); GateAt(pre, seg).treeUp <==> t >= 0 && Noout.TreeUp(seg[t])
    ensures GateAt(pre, seg).clean <==> LookedClean(seg)
  {
    GateFront(pre, seg);
    if seg != [] {
      LookStep(GateAt(pre, seg[..|seg| - 1]), seg[|seg| - 1]);
      CleanLink(pre, seg[..|seg| - 1]);
    }
  }

  lemma ShieldStep(g: Noout.Gate, e: Event)
    requires !Marks(e) && Noout.Step(g, e).lawful
    ensures Noout.Step(g, e).shielded <==> g.shielded || Is(e, Shielding)
    ensures Noout.Step(g, e).host == g.host && g.lawful
  {
    if e.Sent? { NoteShielded(g, e.cmd, e.reply); }
  }

  lemma NoteShielded(g: Noout.Gate, cmd: Command, reply: Reply)
    ensures g.Note(cmd, reply).shielded <==> g.shielded || (cmd.SetNoout? && reply.ok)
  {
  }

  lemma HeldStep(g: Noout.Gate, e: Event)
    requires !Marks(e)
    ensures Noout.Step(g, e).held ==
            if Is(e, Shielding) then g.held + {g.host.name}
            else if Is(e, Unshielding) then g.held - {g.host.name} else g.held
  {
    if e.Sent? { Noout.NoteHeld(g, e.cmd, e.reply); }
  }

  lemma {:induction false} ShieldLink(pre: seq<Event>, seg: seq<Event>)
    requires Since(pre, seg) && GateAt(pre, seg).lawful
    ensures GateAt(pre, seg).host == HostOf(pre)
    ensures GateAt(pre, seg).shielded <==> Latest(seg, Shielding) >= 0
    ensures GateAt(pre, seg).held ==
            if Latest(seg, Shielding) > Latest(seg, Unshielding) then {HostOf(pre).name} else {}
  {
    GateFront(pre, seg);
    if seg != [] {
      ShieldStep(GateAt(pre, seg[..|seg| - 1]), seg[|seg| - 1]);
      HeldStep(GateAt(pre, seg[..|seg| - 1]), seg[|seg| - 1]);
      ShieldLink(pre, seg[..|seg| - 1]);
    }
  }

  // ---- One deploy's record ----

  function JobOf(pre: seq<Event>): Job
    requires pre != [] && pre[|pre| - 1].Begin?
  {
    JobAt(pre, |pre| - 1)
  }

  /** The discipline's state and the counts are functions of the deploy's own events. */
  lemma OwnRecord(pre: seq<Event>, seg: seq<Event>)
    requires Since(pre, seg) && WatchOf(pre + seg).lawful
    ensures Within(JobOf(pre), seg)
    ensures WatchOf(pre + seg) == AtAny(JobOf(pre), seg) && WatchOf(pre + seg).job == JobOf(pre)
    ensures P.ProgressOf(pre + seg) == Far(seg)
  {
    RunAppend(IDLE, pre, seg);
    LawfulFrom(WatchOf(pre), seg);
    JobKept(JobOf(pre), seg);
    P.RunAppend(P.START, pre, seg);
  }

  lemma OwnTimer(job: Job, seg: seq<Event>)
    requires Within(job, seg)
    ensures var w := AtAny(job, seg); w.timer.arm == ArmOf(seg) && (w.timer.disarmed <==> Latest(seg, Disarming) >= 0)
    ensures AtAny(job, seg).trial.tested <==> Latest(seg, Testing) >= 0
    ensures AtAny(job, seg).trial.settled <==> Latest(seg, Testing) >= 0 && !TestLost(seg)
  {
    ArmLink(job, seg);
    DisarmLink(job, seg);
    SettledLink(job, seg);
  }

  lemma OwnTries(job: Job, seg: seq<Event>)
    requires Within(job, seg)
    ensures AtAny(job, seg).kept == Lasting(TryOf(seg, Keeping), TryOf(seg, Booting), TryOf(seg, Rebuilding))
    ensures AtAny(job, seg).post == Aftermath(RebootUnanswered(seg), SaidReady(seg))
  {
    KeepLink(job, seg);
    BootLink(job, seg);
    RebuildLink(job, seg);
    AwayLink(job, seg);
    ReadyLink(job, seg);
  }

  lemma OwnContact(job: Job, seg: seq<Event>)
    requires Within(job, seg)
    ensures AtAny(job, seg).Connected() <==> FullAttempt(seg, job.host)
    ensures AtAny(job, seg).contact.attempt <==> Latest(seg, Trying) >= 0
    ensures ReadBack(seg) ==> AtAny(job, seg).contact.seen == Printed(seg, Reading)
    ensures Far(seg).tries == P.Tries(Count(seg, Trying), Latest(seg, Reading) > Latest(seg, Trying))
  {
    ConnectedLink(job, seg);
    AttemptLink(job, seg);
    AttemptsLink(seg);
    LookedLink(seg);
  }

  // ---- Why the body of a deploy fails ----

  lemma SettledFails(w: Watch, p: P.Progress, job: Job, seg: seq<Event>, ok: bool)
    requires Settled(w, p, ok) && w.job == job
    requires w.post == Aftermath(RebootUnanswered(seg), SaidReady(seg)) && p.later.polls == Count(seg, Polling)
    ensures !ok <==> RebootUnanswered(seg) || NotReady(seg, job.host)
  {
  }

  lemma {:induction false} SomeCounted(seg: seq<Event>, k: Kind)
    ensures Count(seg, k) > 0 <==> Latest(seg, k) >= 0
  {
    if seg != [] { SomeCounted(seg[..|seg| - 1], k); }
  }

  lemma StartStep(w: Watch, e: Event)
    requires Step(w, e).lawful && !Marks(e) && Step(w, e).timer.arm.Unarmed?
    ensures w.timer.arm.Unarmed?
    ensures Step(w, e).start.prior == if Is(e, Reading) && e.Sent? then e.reply.Said() else w.start.prior
    ensures Step(w, e).start.profile == if Is(e, Profiling) && e.Sent? then e.reply.Said() else w.start.profile
  {
  }

  lemma {:induction false} StartLink(job: Job, seg: seq<Event>)
    requires Within(job, seg) && AtAny(job, seg).timer.arm.Unarmed?
    ensures AtAny(job, seg).start == Start(Printed(seg, Reading), Printed(seg, Profiling))
  {
    if seg != [] {
      WithinFront(job, seg);
      StartStep(AtAny(job, seg[..|seg| - 1]), seg[|seg| - 1]);
      StartLink(job, seg[..|seg| - 1]);
    }
  }

  /** The discipline's record of a deploy, said of its events. */
  ghost predicate Reads(w: Watch, p: P.Progress, job: Job, seg: seq<Event>) {
    && w.job == job
    && w.timer.arm == ArmOf(seg) && (w.timer.disarmed <==> Latest(seg, Disarming) >= 0)
    && (w.trial.tested <==> Latest(seg, Testing) >= 0)
    && (w.trial.settled <==> Latest(seg, Testing) >= 0 && !TestLost(seg))
    && w.kept == Lasting(TryOf(seg, Keeping), TryOf(seg, Booting), TryOf(seg, Rebuilding))
    && w.post == Aftermath(RebootUnanswered(seg), SaidReady(seg))
    && (w.Connected() <==> FullAttempt(seg, job.host))
    && (w.contact.attempt <==> Latest(seg, Trying) >= 0)
    && (ReadBack(seg) ==> w.contact.seen == Printed(seg, Reading))
    && (!w.Armed() ==> Idle(w)) && InOrder(w)
    && (w.timer.arm.Unarmed? ==> w.start == Start(Printed(seg, Reading), Printed(seg, Profiling)))
    && p.tries == P.Tries(Count(seg, Trying), Latest(seg, Reading) > Latest(seg, Trying))
    && (p.tries.attempts > 0 <==> Latest(seg, Trying) >= 0)
    && p.later.polls == Count(seg, Polling)
    && (p.later.polls > 0 <==> Latest(seg, Polling) >= 0)
  }

  lemma Own(job: Job, seg: seq<Event>)
    requires Within(job, seg)
    ensures Reads(AtAny(job, seg), Far(seg), job, seg)
  {
    JobKept(job, seg);
    OwnTimer(job, seg);
    OwnTries(job, seg);
    OwnContact(job, seg);
    PollsLink(seg);
    SomeCounted(seg, Trying);
    SomeCounted(seg, Polling);
    StaysInOrder(job, seg);
    if !AtAny(job, seg).Armed() { UnarmedIdle(job, seg); }
    if AtAny(job, seg).timer.arm.Unarmed? { StartLink(job, seg); }
  }

  lemma TryMeans(seg: seq<Event>, k: Kind)
    requires k.Arming? || k.Testing? || k.Keeping? || k.Booting? || k.Rebuilding?
    ensures Unacked(seg, k) <==> Latest(seg, k) >= 0 && !Acknowledged(seg, k)
    ensures Acknowledged(seg, k) ==> Latest(seg, k) >= 0
  {
  }

  // ---- What makes a deploy go on ----

  /** After a reboot, if any, that the host answered: the node is asked for. */
  predicate Asked(seg: seq<Event>, host: Host) {
    host.k8s && !RebootUnanswered(seg) ==> Latest(seg, Polling) >= 0
  }

  /** Each step of an activation that worked was followed by the next. */
  ghost predicate WentOn(seg: seq<Event>, job: Job) {
    && (Latest(seg, Arming) < 0 ==>
          job.plan != "" && Printed(seg, Reading) == job.plan && Printed(seg, Profiling) == job.plan
          && Asked(seg, job.host))
    && (Acknowledged(seg, Arming) ==> Latest(seg, Testing) >= 0)
    && (Latest(seg, Testing) >= 0 && !TestLost(seg) ==> Latest(seg, Trying) >= 0)
    && (FullAttempt(seg, job.host) ==> ReadBack(seg))
    && (FullAttempt(seg, job.host) && Printed(seg, Reading) == job.plan != "" ==> Latest(seg, Keeping) >= 0)
    && (Acknowledged(seg, Keeping) ==> Latest(seg, Booting) >= 0)
    && (Latest(seg, Keeping) >= 0 ==> Latest(seg, Disarming) >= 0)
    && (Acknowledged(seg, Booting) ==> Asked(seg, job.host))
  }

  /** The last part of an activation: what fails it, and what follows what. */
  ghost predicate KeptWell(seg: seq<Event>, job: Job, ok: bool) {
    && (!ok <==> Unacked(seg, Keeping) || Unacked(seg, Booting) || RebootUnanswered(seg) || NotReady(seg, job.host))
    && Latest(seg, Keeping) >= 0
    && (Acknowledged(seg, Keeping) ==> Latest(seg, Booting) >= 0)
    && (Acknowledged(seg, Booting) ==> Asked(seg, job.host))
  }

  lemma KeptEnds(w: Watch, p: P.Progress, job: Job, seg: seq<Event>, ok: bool)
    requires Reads(w, p, job, seg) && Kept(w, p, ok)
    ensures KeptWell(seg, job, ok)
  {
    TryMeans(seg, Keeping);
    TryMeans(seg, Booting);
    if w.kept.profile.Acked? && w.kept.boot.Acked? { SettledFails(w, p, job, seg, ok); }
  }

  lemma NotKeptEnds(w: Watch, p: P.Progress, job: Job, seg: seq<Event>)
    requires Reads(w, p, job, seg) && w.Armed() && Activated(w, p, false) && job.mode.Safe? && SafeExit(w, false)
    requires w.kept.profile.Untried?
    ensures BodyFailed(seg, job) && WentOn(seg, job)
  {
    TryMeans(seg, Testing);
  }

  lemma KeptIsWell(w: Watch, p: P.Progress, job: Job, seg: seq<Event>, ok: bool)
    requires Reads(w, p, job, seg) && w.Armed() && Activated(w, p, ok) && job.mode.Safe? && SafeExit(w, ok)
    requires !w.kept.profile.Untried? && KeptWell(seg, job, ok)
    ensures (!ok <==> BodyFailed(seg, job)) && WentOn(seg, job)
  {
    TryMeans(seg, Arming);
  }

  lemma ActivatedEnds(w: Watch, p: P.Progress, job: Job, seg: seq<Event>, ok: bool)
    requires Reads(w, p, job, seg) && w.Armed() && Activated(w, p, ok) && job.mode.Safe? && SafeExit(w, ok)
    ensures (!ok <==> BodyFailed(seg, job)) && WentOn(seg, job)
  {
    if w.kept.profile.Untried? {
      NotKeptEnds(w, p, job, seg);
    } else {
      KeptEnds(w, p, job, seg, ok);
      KeptIsWell(w, p, job, seg, ok);
    }
  }

  lemma UpToDateEnds(w: Watch, p: P.Progress, job: Job, seg: seq<Event>, ok: bool)
    requires Reads(w, p, job, seg) && w.timer.arm.Unarmed? && SafeDone(w, p, ok) && job.mode.Safe?
    ensures (!ok <==> BodyFailed(seg, job)) && WentOn(seg, job)
  {
    TryMeans(seg, Keeping);
    TryMeans(seg, Booting);
    SettledFails(w, p, job, seg, ok);
  }

  lemma RefusedEnds(w: Watch, p: P.Progress, job: Job, seg: seq<Event>, ok: bool)
    requires Reads(w, p, job, seg) && w.timer.arm.Refused? && SafeDone(w, p, ok) && job.mode.Safe?
    ensures (!ok <==> BodyFailed(seg, job)) && WentOn(seg, job)
  {
    TryMeans(seg, Arming);
    TryMeans(seg, Keeping);
    TryMeans(seg, Booting);
  }

  lemma SafeEnds(job: Job, seg: seq<Event>, ok: bool)
    requires Within(job, seg) && job.mode.Safe? && SafeDone(AtAny(job, seg), Far(seg), ok)
    ensures (!ok <==> BodyFailed(seg, job)) && WentOn(seg, job)
  {
    Own(job, seg);
    var w := AtAny(job, seg);
    match w.timer.arm
    case Armed => ActivatedEnds(w, Far(seg), job, seg, ok);
    case Unarmed => UpToDateEnds(w, Far(seg), job, seg, ok);
    case Refused => RefusedEnds(w, Far(seg), job, seg, ok);
  }

  lemma UnsafeEnds(job: Job, seg: seq<Event>, ok: bool)
    requires Within(job, seg) && !job.mode.Safe? && UnsafeDone(AtAny(job, seg), Far(seg), ok)
    ensures !ok <==> BodyFailed(seg, job)
    ensures Latest(seg, Rebuilding) >= 0 && (Acknowledged(seg, Rebuilding) ==> Asked(seg, job.host))
  {
    Own(job, seg);
    TryMeans(seg, Rebuilding);
    if Acknowledged(seg, Rebuilding) { SettledFails(AtAny(job, seg), Far(seg), job, seg, ok); }
  }

  /** The body of a deploy, of any mode: what fails it, and what follows what. */
  ghost predicate BodyEnds(seg: seq<Event>, job: Job, ok: bool) {
    && (!ok <==> BodyFailed(seg, job))
    && (job.mode.Safe? ==> WentOn(seg, job))
    && (!job.mode.Safe? ==>
          Latest(seg, Rebuilding) >= 0 && (Acknowledged(seg, Rebuilding) ==> Asked(seg, job.host)))
  }

  lemma DoneEnds(job: Job, seg: seq<Event>, ok: bool)
    requires Within(job, seg) && Done(AtAny(job, seg), Far(seg), ok)
    ensures BodyEnds(seg, job, ok)
  {
    JobKept(job, seg);
    if job.mode.Safe? { SafeEnds(job, seg, ok); } else { UnsafeEnds(job, seg, ok); }
  }

  lemma GatingLink(seg: seq<Event>)
    requires Unmarked(seg)
    ensures Far(seg).probes.answered <==> !Unanswered(seg)
    ensures Far(seg).gating == P.Gating(Latest(seg, Treeing) >= 0, Latest(seg, Raising) >= 0,
                                        Count(seg, Looking), Latest(seg, Clearing) >= 0)
  {
    AnswerLink(seg);
    AskedLink(seg);
    RaisedLink(seg);
    LooksLink(seg);
    ClearedLink(seg);
  }

  /** What an answered deploy of a storage node does about its noout: set it if it may, clear it if all is well. */
  ghost predicate GateWentOn(seg: seq<Event>, job: Job) {
    && Latest(seg, Treeing) >= 0
    && (Noout.OthersUp(seg[Latest(seg, Treeing)], job.host.name) ==> Latest(seg, Raising) >= 0)
    && (Latest(seg, Shielding) >= 0 && !BodyFailed(seg, job) ==>
          Latest(seg, Clearing) >= 0 || (Count(seg, Looking) == 30 && !LookedClean(seg)))
  }

  lemma GateEnds(pre: seq<Event>, seg: seq<Event>, ok: bool)
    requires Since(pre, seg) && GateAt(pre, seg).lawful && HostOf(pre).ceph
    requires GateDone(GateAt(pre, seg), Far(seg), true, ok) && Latest(seg, Shielding) >= 0
    ensures !ok <==> GateStuck(seg, HostOf(pre))
    ensures Latest(seg, Clearing) >= 0 || (Count(seg, Looking) == 30 && !LookedClean(seg))
  {
    GatingLink(seg);
    CleanLink(pre, seg);
    ShieldLink(pre, seg);
    if ok { ClearedIfUnshielded(seg); }
  }

  lemma {:induction false} ClearedIfUnshielded(seg: seq<Event>)
    ensures Latest(seg, Unshielding) <= Latest(seg, Clearing)
  {
    if seg != [] { ClearedIfUnshielded(seg[..|seg| - 1]); }
  }

  lemma {:induction false} RaisedIfShielded(seg: seq<Event>)
    ensures Latest(seg, Shielding) <= Latest(seg, Raising)
  {
    if seg != [] { RaisedIfShielded(seg[..|seg| - 1]); }
  }

  /** How far an ended deploy went, and why it ended as it did. */
  ghost predicate Accounted(seg: seq<Event>, job: Job, ok: bool) {
    && (!ok <==> HasCause(seg, job))
    && (!Unanswered(seg) && job.host.ceph ==> GateWentOn(seg, job))
    && (!Unanswered(seg) && (job.host.ceph ==> Latest(seg, Shielding) >= 0) ==>
          BodyEnds(seg, job, !BodyFailed(seg, job)))
  }

  lemma CephEnds(pre: seq<Event>, seg: seq<Event>, ok: bool)
    requires Since(pre, seg) && GateAt(pre, seg).lawful && Within(JobOf(pre), seg) && HostOf(pre).ceph
    requires EndFits(AtAny(JobOf(pre), seg), GateAt(pre, seg), Far(seg), ok) && !Unanswered(seg)
    ensures Accounted(seg, JobOf(pre), ok)
  {
    var job, g := JobOf(pre), GateAt(pre, seg);
    JobKept(job, seg);
    GatingLink(seg);
    PassedLink(pre, seg);
    ShieldLink(pre, seg);
    RaisedIfShielded(seg);
    if g.shielded {
      var worked := Done(AtAny(job, seg), Far(seg), true) && GateDone(g, Far(seg), true, ok);
      DoneEnds(job, seg, worked);
      if worked { GateEnds(pre, seg, ok); }
    }
  }

  lemma EndHasCause(pre: seq<Event>, seg: seq<Event>, ok: bool)
    requires Since(pre, seg) && GateAt(pre, seg).lawful && WatchOf(pre + seg).lawful
    requires EndFits(WatchOf(pre + seg), GateAt(pre, seg), P.ProgressOf(pre + seg), ok)
    ensures Accounted(seg, JobOf(pre), ok)
  {
    OwnRecord(pre, seg);
    GatingLink(seg);
    if !Unanswered(seg) {
      if HostOf(pre).ceph { CephEnds(pre, seg, ok); } else { DoneEnds(JobOf(pre), seg, ok); }
    }
  }

  /** The deploy that began at `b` has not ended before `e`. */
  ghost predicate Going(log: seq<Event>, b: nat, e: nat) {
    b < e <= |log| && log[b].Begin? && forall k :: b < k < e ==> !Marks(log[k])
  }

  /** A deploy that began at `b` and ended at `e`. */
  ghost predicate Ended(log: seq<Event>, b: nat, e: nat) {
    Going(log, b, e) && e < |log| && log[e].End?
  }

  lemma EndLawful(log: seq<Event>, e: nat)
    requires WatchOf(log).lawful && Noout.GateOf(log).lawful && EndsFit(log) && e < |log| && log[e].End?
    ensures WatchOf(log[..e]).lawful && Noout.GateOf(log[..e]).lawful
    ensures EndFits(WatchOf(log[..e]), Noout.GateOf(log[..e]), P.ProgressOf(log[..e]), log[e].ok)
  {
    RunPrefix(log, e);
    Noout.LawfulPrefix(log, e);
    EndFitsAt(log, e);
  }

  lemma Parts(log: seq<Event>, b: nat, e: nat)
    requires Going(log, b, e)
    ensures log[..b + 1] + log[b + 1..e] == log[..e]
    ensures Since(log[..b + 1], log[b + 1..e]) && JobOf(log[..b + 1]) == JobAt(log, b)
  {
    var seg := log[b + 1..e];
    forall k | 0 <= k < |seg| ensures !Marks(seg[k]) { assert seg[k] == log[b + 1 + k]; }
  }

  /**
   * In every run a deploy ends false exactly for a cause that its own events show, and every step of it that
   * worked is followed by the next.
   */
  lemma EveryEndHasCause(log: seq<Event>, b: nat, e: nat)
    requires WatchOf(log).lawful && Noout.GateOf(log).lawful && EndsFit(log) && Ended(log, b, e)
    ensures Accounted(log[b + 1..e], JobAt(log, b), log[e].ok)
  {
    EndLawful(log, e);
    Parts(log, b, e);
    EndHasCause(log[..b + 1], log[b + 1..e], log[e].ok);
  }
}
