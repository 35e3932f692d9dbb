/** What the deploy discipline means, said of the events of one deploy. */
module WatchdogTheorems {
  import opened Hosts
  import opened Wire
  import opened Watchdog

  /** The events of one safe deploy so far, all within the discipline. */
  ghost predicate Lawful(job: Job, seg: seq<Event>) {
    && job.Guarded()
    && (forall k :: 0 <= k < |seg| ==> !Marks(seg[k]))
    && At(job, seg).lawful
  }

  function At(job: Job, seg: seq<Event>): Watch { Run(Fresh(job, true), seg) }

  predicate Persists(e: Event) { e.Sent? && (e.cmd.SetProfile? || e.cmd.SwitchBoot?) }

  predicate Arms(e: Event) { e.Sent? && e.cmd.Arm? }

  predicate Tests(e: Event) { e.Sent? && e.cmd.SwitchTest? }

  predicate Disarms(e: Event) { e.Sent? && e.cmd.Disarm? }

  /** The last step of a lawful stretch, taken apart. */
  lemma Peel(job: Job, seg: seq<Event>)
    requires Lawful(job, seg) && seg != []
    ensures Lawful(job, seg[..|seg| - 1])
    ensures At(job, seg) == Step(At(job, seg[..|seg| - 1]), seg[|seg| - 1])
    ensures At(job, seg[..|seg| - 1]).job == job && At(job, seg).job == job
    decreases |seg|
  {
    var front := seg[..|seg| - 1];
    assert forall k :: 0 <= k < |front| ==> front[k] == seg[k];
    if front != [] { Peel(job, front); }
  }

  lemma {:induction false} LawfulPrefix(job: Job, seg: seq<Event>, k: nat)
    requires Lawful(job, seg) && k <= |seg|
    ensures Lawful(job, seg[..k])
    decreases |seg|
  {
    if k < |seg| {
      Peel(job, seg);
      LawfulPrefix(job, seg[..|seg| - 1], k);
      assert seg[..|seg| - 1][..k] == seg[..k];
    } else {
      assert seg[..k] == seg;
    }
  }

  /** Whatever is sent was allowed by what came before. */
  lemma SentWasAllowed(job: Job, seg: seq<Event>, k: nat)
    requires Lawful(job, seg) && k < |seg| && seg[k].Sent?
    ensures Lawful(job, seg[..k]) && At(job, seg[..k]).job == job
    ensures seg[k].name == job.host.name && At(job, seg[..k]).Allowed(seg[k].cmd)
  {
    LawfulPrefix(job, seg, k + 1);
    Peel(job, seg[..k + 1]);
    assert seg[..k + 1][..k] == seg[..k];
  }

  // ---- From the run's log to one deploy ----

  lemma {:induction false} LawfulFrom(w: Watch, seg: seq<Event>)
    ensures Run(w, seg).lawful ==> w.lawful
  {
    if seg != [] { LawfulFrom(w, seg[..|seg| - 1]); }
  }

  lemma RunPrefix(log: seq<Event>, k: nat)
    requires k <= |log|
    ensures Run(IDLE, log) == Run(Run(IDLE, log[..k]), log[k..])
    ensures Run(IDLE, log).lawful ==> Run(IDLE, log[..k]).lawful
  {
    assert log == log[..k] + log[k..];
    RunAppend(IDLE, log[..k], log[k..]);
    LawfulFrom(Run(IDLE, log[..k]), log[k..]);
  }

  /** A safe deploy begins at `b`, and nothing before `e` ends it. */
  ghost predicate Stretch(log: seq<Event>, b: nat, e: nat) {
    b < e <= |log| && log[b].Begin? && log[b].mode.Safe? && forall k :: b < k < e ==> !Marks(log[k])
  }

  function JobAt(log: seq<Event>, b: nat): Job
    requires b < |log| && log[b].Begin?
  {
    Job(log[b].host, log[b].plan, log[b].mode)
  }

  lemma BeginRun(log: seq<Event>, b: nat)
    requires WatchOf(log).lawful && b < |log| && log[b].Begin?
    ensures WatchOf(log[..b + 1]) == Fresh(JobAt(log, b), true)
  {
    RunPrefix(log, b + 1);
    assert log[..b + 1][..b] == log[..b];
  }

  lemma StretchRun(log: seq<Event>, b: nat, e: nat)
    requires b < e <= |log|
    ensures WatchOf(log[..e]) == Run(WatchOf(log[..b + 1]), log[b + 1..e])
  {
    RunPrefix(log[..e], b + 1);
    assert log[..e][..b + 1] == log[..b + 1] && log[..e][b + 1..] == log[b + 1..e];
  }

  /** In a lawful run, the events of every safe deploy are a lawful stretch, from its begin to any later point. */
  lemma EveryDeployLawful(log: seq<Event>, b: nat, e: nat)
    requires WatchOf(log).lawful && Stretch(log, b, e)
    ensures Lawful(JobAt(log, b), log[b + 1..e])
    ensures At(JobAt(log, b), log[b + 1..e]) == WatchOf(log[..e])
  {
    BeginRun(log, b);
    StretchRun(log, b, e);
    RunPrefix(log, e);
    assert At(JobAt(log, b), log[b + 1..e]) == Run(IDLE, log[..e]);
    var seg := log[b + 1..e];
    forall k | 0 <= k < |seg| ensures !Marks(seg[k]) { assert seg[k] == log[b + 1 + k]; }
  }

  /** A safe deploy that ended at `e`. */
  ghost predicate Whole(log: seq<Event>, b: nat, e: nat) {
    Stretch(log, b, e) && e < |log| && log[e].End?
  }

  /** In a lawful run every safe deploy ended the way its own events allow, under its own name and path. */
  lemma EveryDeployEndedWell(log: seq<Event>, b: nat, e: nat)
    requires WatchOf(log).lawful && AllPossible(log) && Whole(log, b, e)
    ensures Lawful(JobAt(log, b), log[b + 1..e]) && AllPossible(log[b + 1..e])
    ensures log[e].name == log[b].host.name && log[e].plan == log[b].plan
    ensures At(JobAt(log, b), log[b + 1..e]).MayEnd(log[e].ok)
    ensures log[e].ok ==> SafeExit(At(JobAt(log, b), log[b + 1..e]), true)
  {
    EveryDeployLawful(log, b, e);
    JobStays(JobAt(log, b), log[b + 1..e]);
    RunPrefix(log, e + 1);
    assert log[..e + 1][..e] == log[..e];
  }

  lemma JobStays(job: Job, seg: seq<Event>)
    requires Lawful(job, seg)
    ensures At(job, seg).job == job
  {
    if seg != [] { Peel(job, seg); }
  }

  /** While a deploy is open, the latest begin is its own. */
  lemma {:induction false} OpenSince(log: seq<Event>, n0: nat) returns (b: nat)
    requires n0 <= |log| && !WatchOf(log[..n0]).open && WatchOf(log).open
    ensures n0 <= b < |log| && log[b].Begin? && WatchOf(log).job == JobAt(log, b)
    ensures forall k :: b < k < |log| ==> !Marks(log[k])
    decreases |log|
  {
    assert log[..|log|] == log;
    var n := |log| - 1;
    if log[n].Begin? {
      b := n;
    } else {
      assert log[..n][..n0] == log[..n0];
      b := OpenSince(log[..n], n0);
    }
  }

  predicate MovesPath(cmd: Command) { cmd.SwitchTest? || cmd.SetProfile? || cmd.SwitchBoot? }

  /** Whatever is sent goes to the host of the latest begin, and a path that is switched to is that begin's plan. */
  lemma SentUnderBegin(log: seq<Event>, n0: nat, k: nat) returns (b: nat)
    requires WatchOf(log).lawful && n0 <= k < |log| && !WatchOf(log[..n0]).open && log[k].Sent?
    ensures n0 <= b < k && log[b].Begin? && log[k].name == log[b].host.name
    ensures MovesPath(log[k].cmd) ==> log[k].cmd.path == log[b].plan
  {
    RunPrefix(log, k + 1);
    assert log[..k + 1][..k] == log[..k] && log[..k][..n0] == log[..n0];
    b := OpenSince(log[..k], n0);
  }

  // ---- Where the evidence is ----

  predicate ArmAcked(e: Event, unit: string) { e.Sent? && e.cmd == Arm(unit) && e.reply.ok }

  lemma {:induction false} FindArm(job: Job, seg: seq<Event>) returns (a: nat)
    requires Lawful(job, seg) && At(job, seg).Armed()
    ensures a < |seg| && ArmAcked(seg[a], At(job, seg).timer.unit)
    decreases |seg|
  {
    Peel(job, seg);
    if At(job, seg[..|seg| - 1]).Armed() {
      a := FindArm(job, seg[..|seg| - 1]);
    } else {
      a := |seg| - 1;
    }
  }

  lemma {:induction false} FindTest(job: Job, seg: seq<Event>) returns (a: nat, t: nat)
    requires Lawful(job, seg) && At(job, seg).trial.tested
    ensures a < t < |seg| && ArmAcked(seg[a], At(job, seg).timer.unit)
    ensures Tests(seg[t]) && seg[t].cmd.path == job.plan
    ensures At(job, seg).Armed()
    decreases |seg|
  {
    Peel(job, seg);
    var front := seg[..|seg| - 1];
    if At(job, front).trial.tested {
      a, t := FindTest(job, front);
    } else {
      a := FindArm(job, front);
      t := |seg| - 1;
    }
  }

  /** Event `e` is check `c` of the host's list, passed. */
  predicate CheckPassed(e: Event, host: Host, c: nat) {
    && e.Sent? && c < |host.checks| && e.cmd == Check(c, host.checks[c])
    && e.reply.ok && (host.checks[c].Ssh? ==> e.reply.body == Text("ok"))
  }

  /** The attempt that starts at `m` is the last one of `seg`; its checks 0, 1, ... passed at `passes`. */
  ghost predicate AttemptFrom(seg: seq<Event>, host: Host, m: nat, passes: seq<nat>) {
    && m < |seg| && seg[m].Attempt?
    && (forall j :: m < j < |seg| ==> !seg[j].Attempt?)
    && (forall c :: 0 <= c < |passes| ==> m < passes[c] < |seg| && CheckPassed(seg[passes[c]], host, c))
    && (forall c, d :: 0 <= c < d < |passes| ==> passes[c] < passes[d])
  }

  lemma {:induction false} FindAttempt(job: Job, seg: seq<Event>) returns (a: nat, t: nat, m: nat, passes: seq<nat>)
    requires Lawful(job, seg) && At(job, seg).contact.attempt
    ensures a < t < m < |seg| && ArmAcked(seg[a], At(job, seg).timer.unit)
    ensures Tests(seg[t]) && seg[t].cmd.path == job.plan
    ensures AttemptFrom(seg, job.host, m, passes) && |passes| == At(job, seg).contact.streak
    ensures At(job, seg).Armed()
    decreases |seg|
  {
    Peel(job, seg);
    var n := |seg| - 1;
    var front, e := seg[..n], seg[n];
    var w := At(job, front);
    if e.Attempt? {
      SettledMeansTested(job, front);
      a, t := FindTest(job, front);
      m, passes := n, [];
    } else {
      a, t, m, passes := FindAttempt(job, front);
      AttemptGrows(seg, job.host, m, passes);
      NextPass(w, e);
      if At(job, seg).contact.streak != w.contact.streak { passes := passes + [n]; }
    }
  }

  /** Events other than an attempt leave the last attempt the last. */
  lemma AttemptGrows(seg: seq<Event>, host: Host, m: nat, passes: seq<nat>)
    requires seg != [] && AttemptFrom(seg[..|seg| - 1], host, m, passes) && !seg[|seg| - 1].Attempt?
    ensures AttemptFrom(seg, host, m, passes)
  {
    var front := seg[..|seg| - 1];
    assert forall j :: 0 <= j < |front| ==> front[j] == seg[j];
  }

  lemma NextPass(w: Watch, e: Event)
    requires Step(w, e).lawful && !Marks(e) && !e.Attempt?
    ensures Step(w, e).contact.attempt == w.contact.attempt
    ensures w.Armed() ==> Step(w, e).timer.unit == w.timer.unit
    ensures Step(w, e).contact.streak in {w.contact.streak, w.contact.streak + 1}
    ensures Step(w, e).contact.streak != w.contact.streak ==> CheckPassed(e, w.job.host, w.contact.streak)
  {
  }

  lemma {:induction false} SettledMeansTested(job: Job, seg: seq<Event>)
    requires Lawful(job, seg) && At(job, seg).trial.settled
    ensures At(job, seg).trial.tested
    decreases |seg|
  {
    if seg != [] {
      Peel(job, seg);
      if At(job, seg[..|seg| - 1]).trial.settled { SettledMeansTested(job, seg[..|seg| - 1]); }
    }
  }

  /** Event `r` reads the active path as `path`, after the attempt. */
  ghost predicate ReadsBack(seg: seq<Event>, r: nat, m: nat, passes: seq<nat>, path: string) {
    && m < r < |seg| && seg[r].Sent? && seg[r].cmd.ReadActive? && seg[r].reply.Said() == path
    && forall c :: 0 <= c < |passes| ==> passes[c] < r
  }

  lemma NewlySeen(w: Watch, e: Event)
    requires Step(w, e).lawful && !Marks(e) && Step(w, e).contact.seen !in {"", w.contact.seen}
    ensures e.Sent? && e.cmd.ReadActive? && e.reply.Said() == Step(w, e).contact.seen
    ensures w.Connected() && Step(w, e) == w.(contact := w.contact.(seen := e.reply.Said()))
  {
  }

  lemma {:induction false} FindRead(job: Job, seg: seq<Event>)
    returns (a: nat, t: nat, m: nat, passes: seq<nat>, r: nat)
    requires Lawful(job, seg) && At(job, seg).contact.seen != ""
    ensures a < t < m < r < |seg| && ArmAcked(seg[a], At(job, seg).timer.unit)
    ensures Tests(seg[t]) && seg[t].cmd.path == job.plan
    ensures AttemptFrom(seg, job.host, m, passes) && |passes| == |job.host.checks|
    ensures ReadsBack(seg, r, m, passes, At(job, seg).contact.seen)
    ensures At(job, seg).Armed()
    decreases |seg|
  {
    Peel(job, seg);
    var n := |seg| - 1;
    var front, e := seg[..n], seg[n];
    if At(job, front).contact.seen == At(job, seg).contact.seen {
      a, t, m, passes, r := FindRead(job, front);
      if !e.Attempt? { AttemptGrows(seg, job.host, m, passes); }
    } else {
      NewlySeen(At(job, front), e);
      a, t, m, passes := FindAttempt(job, front);
      AttemptGrows(seg, job.host, m, passes);
      r := n;
    }
  }

  /**
   * The profile and the boot entry are written only for the planned path, and only after an acknowledged
   * arm, a test activation of that path, one attempt that passed every connectivity check in order, and a
   * read of the active path that returned it, in that order and with no other attempt in between.
   */
  lemma PersistEvidence(job: Job, seg: seq<Event>, k: nat) returns (a: nat, t: nat, m: nat, passes: seq<nat>, r: nat)
    requires Lawful(job, seg) && k < |seg| && Persists(seg[k])
    ensures seg[k].cmd.path == job.plan && seg[k].name == job.host.name
    ensures a < t < m < r < k && exists u :: ArmAcked(seg[a], u)
    ensures Tests(seg[t]) && seg[t].cmd.path == job.plan
    ensures AttemptFrom(seg[..k], job.host, m, passes) && |passes| == |job.host.checks|
    ensures ReadsBack(seg[..k], r, m, passes, job.plan)
  {
    SentWasAllowed(job, seg, k);
    a, t, m, passes, r := FindRead(job, seg[..k]);
    assert ArmAcked(seg[a], At(job, seg[..k]).timer.unit);
  }

  // ---- The host ----

  /** Until a persist command is sent, nothing the tool does touches the profile or the boot entry. */
  lemma {:induction false} BootUntouched(job: Job, seg: seq<Event>, r0: Remote)
    requires Lawful(job, seg)
    requires forall k :: 0 <= k < |seg| ==> !Persists(seg[k])
    ensures Replay(r0, seg).boot == r0.boot && Replay(r0, seg).profile == r0.profile
    decreases |seg|
  {
    if seg != [] {
      Peel(job, seg);
      BootUntouched(job, seg[..|seg| - 1], r0);
    }
  }

  /** So a reboot at any point before the first persist command lands on the boot default from before the deploy. */
  lemma RebootBeforePersist(job: Job, seg: seq<Event>, k: nat, r0: Remote)
    requires Lawful(job, seg) && k <= |seg|
    requires forall j :: 0 <= j < k ==> !Persists(seg[j])
    ensures Rebooted(Replay(r0, seg[..k])).active == r0.boot
  {
    LawfulPrefix(job, seg, k);
    BootUntouched(job, seg[..k], r0);
  }

  lemma AckedStep(w: Watch, r: Remote, e: Event)
    requires Step(w, e).lawful && Possible(e) && w.job.Guarded() && !e.Begin?
    requires w.kept.boot.Acked? ==> r.boot == w.job.plan
    requires w.kept.profile.Acked? ==> r.profile == w.job.plan
    ensures Step(w, e).kept.boot.Acked? ==> After(r, e).boot == w.job.plan
    ensures Step(w, e).kept.profile.Acked? ==> After(r, e).profile == w.job.plan
  {
  }

  /** An acknowledged persist step lasts: nothing sent afterwards undoes it. */
  lemma {:induction false} AckedIsKept(job: Job, seg: seq<Event>, r0: Remote)
    requires Lawful(job, seg) && AllPossible(seg)
    ensures At(job, seg).kept.boot.Acked? ==> Replay(r0, seg).boot == job.plan
    ensures At(job, seg).kept.profile.Acked? ==> Replay(r0, seg).profile == job.plan
    decreases |seg|
  {
    if seg != [] {
      Peel(job, seg);
      AckedIsKept(job, seg[..|seg| - 1], r0);
      AckedStep(At(job, seg[..|seg| - 1]), Replay(r0, seg[..|seg| - 1]), seg[|seg| - 1]);
    }
  }

  /** Before arming nothing was tested or persisted. */
  lemma {:induction false} UnarmedMeansNothingSent(job: Job, seg: seq<Event>, k: nat)
    requires Lawful(job, seg) && !At(job, seg).Armed() && k < |seg|
    ensures !Persists(seg[k]) && !Tests(seg[k])
    decreases |seg|
  {
    Peel(job, seg);
    if k < |seg| - 1 { UnarmedMeansNothingSent(job, seg[..|seg| - 1], k); }
  }

  /**
   * A safe deploy that returns true leaves the planned path as boot entry if and only if it went through
   * activation, or the entry was the planned one already.
   */
  lemma TrueBootsPlanIff(job: Job, seg: seq<Event>, r0: Remote)
    requires Lawful(job, seg) && AllPossible(seg) && SafeExit(At(job, seg), true)
    ensures Replay(r0, seg).boot == job.plan <==> At(job, seg).Armed() || r0.boot == job.plan
  {
    AckedIsKept(job, seg, r0);
    if !At(job, seg).Armed() {
      forall k | 0 <= k < |seg| ensures !Persists(seg[k]) { UnarmedMeansNothingSent(job, seg, k); }
      BootUntouched(job, seg, r0);
    }
  }

  /** While unarmed, the profile path on record is the host's profile, if every such read was acknowledged. */
  lemma {:induction false} ProfileReadIsProfile(job: Job, seg: seq<Event>, r0: Remote)
    requires Lawful(job, seg) && Honest(r0, seg) && !At(job, seg).Armed()
    requires forall k :: 0 <= k < |seg| && seg[k].Sent? && seg[k].cmd.ReadProfile? ==> seg[k].reply.ok
    ensures At(job, seg).start.profile in {"", r0.profile}
    decreases |seg|
  {
    if seg != [] {
      Peel(job, seg);
      var n := |seg| - 1;
      var front := seg[..n];
      if At(job, front).Armed() { StaysArmed(job, seg); }
      ProfileReadIsProfile(job, front, r0);
      forall k | 0 <= k < n ensures !Persists(front[k]) { UnarmedMeansNothingSent(job, front, k); }
      BootUntouched(job, front, r0);
    }
  }

  lemma StaysArmed(job: Job, seg: seq<Event>)
    requires Lawful(job, seg) && seg != [] && !At(job, seg[..|seg| - 1]).timer.arm.Unarmed?
    ensures At(job, seg).timer.arm == At(job, seg[..|seg| - 1]).timer.arm
    ensures At(job, seg).timer.unit == At(job, seg[..|seg| - 1]).timer.unit
  {
    Peel(job, seg);
  }

  /** On a host whose profile and boot entry agreed before the deploy, true means the plan boots. */
  lemma TrueBootsPlanWhenCoherent(job: Job, seg: seq<Event>, r0: Remote)
    requires Lawful(job, seg) && AllPossible(seg) && SafeExit(At(job, seg), true)
    requires Honest(r0, seg) && r0.profile == r0.boot
    requires forall k :: 0 <= k < |seg| && seg[k].Sent? && seg[k].cmd.ReadProfile? ==> seg[k].reply.ok
    ensures Replay(r0, seg).boot == job.plan
  {
    TrueBootsPlanIff(job, seg, r0);
    var w := At(job, seg);
    if !w.Armed() {
      ProfileReadIsProfile(job, seg, r0);
      assert w.job == job by { if seg != [] { Peel(job, seg); } }
      assert w.start.profile == w.job.plan != "";
    }
  }

  // ---- The active path ----

  /** The host did not reboot on its own, and every read of a path was answered, truly. */
  ghost predicate Quiet(r0: Remote, seg: seq<Event>) {
    && Honest(r0, seg)
    && forall k :: 0 <= k < |seg| && seg[k].Sent? ==>
         !seg[k].rebooted && (seg[k].cmd.ReadActive? || seg[k].cmd.ReadProfile? ==> seg[k].reply.ok)
  }

  predicate TrialInv(w: Watch) {
    && (w.contact.attempt || w.trial.settled || w.kept.profile.Acked? ==> w.trial.tested)
    && (w.trial.tested ==> w.Armed())
    && (w.contact.seen != "" ==> w.contact.attempt)
    && (w.kept.boot.Acked? ==> w.kept.profile.Acked?)
  }

  /** The path read back is still active; once the profile is acknowledged that is the plan, and so is a kept entry. */
  predicate SeenInv(w: Watch, r: Remote) {
    && TrialInv(w)
    && (w.contact.seen != "" ==> r.active == w.contact.seen)
    && (w.kept.profile.Acked? ==> r.active == w.job.plan != "")
    && (w.kept.boot.Acked? ==> r.boot == w.job.plan)
  }

  lemma TestedStep(w: Watch, e: Event)
    requires TrialInv(w) && w.job.Guarded() && Step(w, e).lawful && !Marks(e)
    ensures var v := Step(w, e);
            && (v.contact.attempt || v.trial.settled || v.kept.profile.Acked? ==> v.trial.tested)
            && (v.trial.tested ==> v.Armed())
  {
  }

  lemma KeptStep(w: Watch, e: Event)
    requires TrialInv(w) && w.job.Guarded() && Step(w, e).lawful && !Marks(e)
    ensures var v := Step(w, e);
            && (v.contact.seen != "" ==> v.contact.attempt)
            && (v.kept.boot.Acked? ==> v.kept.profile.Acked?)
  {
  }

  lemma TrialStep(w: Watch, e: Event)
    requires TrialInv(w) && w.job.Guarded() && Step(w, e).lawful && !Marks(e)
    ensures TrialInv(Step(w, e))
  {
    TestedStep(w, e);
    KeptStep(w, e);
  }

  lemma SeenStep(w: Watch, r: Remote, e: Event)
    requires SeenInv(w, r) && w.job.Guarded()
    requires Step(w, e).lawful && !Marks(e) && Possible(e) && TrueRead(r, e)
    requires e.Sent? ==> !e.rebooted && (e.cmd.ReadActive? ==> e.reply.ok)
    ensures SeenInv(Step(w, e), After(r, e))
  {
    TrialStep(w, e);
    ActiveStep(w, r, e);
    SeenChange(w, e);
    BootStep(w, r, e);
  }

  /** A test activation comes before anything is read back or kept; a reboot lands on the path that is active. */
  lemma ActiveStep(w: Watch, r: Remote, e: Event)
    requires SeenInv(w, r) && w.job.Guarded() && Step(w, e).lawful && !Marks(e)
    requires e.Sent? ==> !e.rebooted
    ensures After(r, e).active == r.active
            || (e.Sent? && !e.cmd.ReadActive? && !e.cmd.SetProfile? && w.contact.seen == "" && !w.kept.profile.Acked?)
  {
  }

  lemma BootStep(w: Watch, r: Remote, e: Event)
    requires SeenInv(w, r) && w.job.Guarded() && Step(w, e).lawful && !Marks(e) && Possible(e)
    ensures Step(w, e).kept.boot.Acked? ==> After(r, e).boot == w.job.plan
  {
  }

  lemma SeenChange(w: Watch, e: Event)
    requires Step(w, e).lawful && !Marks(e)
    ensures Step(w, e).job == w.job
    ensures || Step(w, e).contact.seen in {"", w.contact.seen}
            || (e.Sent? && e.cmd.ReadActive? && Step(w, e).contact.seen == e.reply.Said())
    ensures Step(w, e).kept.profile.Acked? ==>
              w.kept.profile.Acked? || (e.Sent? && e.cmd.SetProfile? && w.Verified())
  {
  }

  lemma {:induction false} SeenIsActive(job: Job, seg: seq<Event>, r0: Remote)
    requires Lawful(job, seg) && AllPossible(seg) && Quiet(r0, seg)
    ensures SeenInv(At(job, seg), Replay(r0, seg))
    decreases |seg|
  {
    if seg != [] {
      Peel(job, seg);
      var n := |seg| - 1;
      SeenIsActive(job, seg[..n], r0);
      SeenStep(At(job, seg[..n]), Replay(r0, seg[..n]), seg[n]);
    }
  }

  /** A reboot command took effect. */
  ghost predicate RebootTook(seg: seq<Event>) {
    exists k :: 0 <= k < |seg| && seg[k].Sent? && seg[k].cmd.Reboot? && seg[k].took
  }

  lemma RebootTookStep(seg: seq<Event>)
    requires seg != []
    ensures var n := |seg| - 1;
            RebootTook(seg) <==> RebootTook(seg[..n]) || (seg[n].Sent? && seg[n].cmd.Reboot? && seg[n].took)
  {
    var n := |seg| - 1;
    assert forall k :: 0 <= k < n ==> seg[..n][k] == seg[k];
  }

  lemma UnarmedStep(w: Watch, r: Remote, e: Event)
    requires Step(w, e).lawful && w.job.Guarded() && !Marks(e) && !w.Armed() && !w.trial.tested
    requires e.Sent? ==> !e.rebooted
    ensures After(r, e).boot == r.boot && !Step(w, e).trial.tested
    ensures After(r, e).active == if e.Sent? && e.cmd.Reboot? && e.took then r.boot else r.active
  {
  }

  lemma PriorStep(w: Watch, r: Remote, e: Event)
    requires Step(w, e).lawful && !Marks(e) && TrueRead(r, e)
    requires e.Sent? && e.cmd.ReadActive? ==> e.reply.ok
    ensures Step(w, e).start.prior in {w.start.prior, r.active}
  {
  }

  /** A deploy that has not armed only reads and reboots. */
  lemma {:induction false} UnarmedActive(job: Job, seg: seq<Event>, r0: Remote)
    requires Lawful(job, seg) && Quiet(r0, seg) && !At(job, seg).Armed()
    ensures Replay(r0, seg).active == if RebootTook(seg) then r0.boot else r0.active
    ensures !RebootTook(seg) ==> At(job, seg).start.prior in {"", r0.active}
    ensures Replay(r0, seg).boot == r0.boot && !At(job, seg).trial.tested
    decreases |seg|
  {
    if seg != [] {
      Peel(job, seg);
      var n := |seg| - 1;
      if At(job, seg[..n]).Armed() { StaysArmed(job, seg); }
      UnarmedActive(job, seg[..n], r0);
      RebootTookStep(seg);
      UnarmedStep(At(job, seg[..n]), Replay(r0, seg[..n]), seg[n]);
      PriorStep(At(job, seg[..n]), Replay(r0, seg[..n]), seg[n]);
    }
  }

  /**
   * A safe deploy that returns true on a host that stays up by itself and answers truly leaves the plan active,
   * if and only if it went through activation, or rebooted nothing, or the host boots the plan.
   */
  lemma TrueRunsPlanIff(job: Job, seg: seq<Event>, r0: Remote)
    requires Lawful(job, seg) && AllPossible(seg) && Quiet(r0, seg) && SafeExit(At(job, seg), true)
    ensures Replay(r0, seg).active == job.plan <==>
            At(job, seg).Armed() || !RebootTook(seg) || r0.boot == job.plan
  {
    JobStays(job, seg);
    if At(job, seg).Armed() { SeenIsActive(job, seg, r0); } else { UnarmedActive(job, seg, r0); }
  }

  // ---- Where the promise of the boot entry breaks ----

  /** No switch of the boot entry took effect. */
  ghost predicate BootNeverSwitched(seg: seq<Event>) {
    forall k :: 0 <= k < |seg| && seg[k].Sent? && seg[k].cmd.SwitchBoot? ==> !seg[k].took
  }

  /**
   * A persist that set the profile but never got to the boot entry leaves the two apart, with the new path
   * active if the host stayed up.
   */
  lemma HalfPersisted(job: Job, seg: seq<Event>, r0: Remote)
    requires Lawful(job, seg) && AllPossible(seg) && At(job, seg).kept.profile.Acked?
    requires BootNeverSwitched(seg)
    ensures Replay(r0, seg).profile == job.plan && Replay(r0, seg).boot == r0.boot
    ensures !At(job, seg).kept.boot.Acked?
    ensures Quiet(r0, seg) ==> Replay(r0, seg).active == job.plan != ""
  {
    AckedIsKept(job, seg, r0);
    BootOnlyBySwitch(job, seg, r0);
    if Quiet(r0, seg) {
      JobStays(job, seg);
      SeenIsActive(job, seg, r0);
    }
  }

  lemma {:induction false} BootOnlyBySwitch(job: Job, seg: seq<Event>, r0: Remote)
    requires Lawful(job, seg) && AllPossible(seg)
    requires BootNeverSwitched(seg)
    ensures Replay(r0, seg).boot == r0.boot && !At(job, seg).kept.boot.Acked?
    decreases |seg|
  {
    if seg != [] {
      Peel(job, seg);
      BootOnlyBySwitch(job, seg[..|seg| - 1], r0);
    }
  }

  // ---- The timer ----

  /** The timer is armed at most once in a deploy. */
  lemma {:induction false} ArmedOnce(job: Job, seg: seq<Event>, i: nat, j: nat)
    requires Lawful(job, seg) && i < j < |seg| && Arms(seg[i])
    ensures !Arms(seg[j])
  {
    SentTriesArm(job, seg[..j], i);
    LawfulPrefix(job, seg, j);
    if Arms(seg[j]) { SentWasAllowed(job, seg, j); }
  }

  lemma {:induction false} SentTriesArm(job: Job, seg: seq<Event>, i: nat)
    requires i < |seg| && Arms(seg[i])
    ensures Lawful(job, seg) ==> !At(job, seg).timer.arm.Unarmed?
    decreases |seg|
  {
    if Lawful(job, seg) {
      Peel(job, seg);
      if i < |seg| - 1 {
        SentTriesArm(job, seg[..|seg| - 1], i);
        StaysArmed(job, seg);
      }
    }
  }

  /** The arm is on record exactly when an acknowledged arm was sent. */
  lemma ArmedIff(job: Job, seg: seq<Event>)
    requires Lawful(job, seg)
    ensures At(job, seg).Armed() <==> exists a :: 0 <= a < |seg| && Arms(seg[a]) && seg[a].reply.ok
  {
    if At(job, seg).Armed() {
      var a := FindArm(job, seg);
      assert Arms(seg[a]) && seg[a].reply.ok;
    }
    if a :| 0 <= a < |seg| && Arms(seg[a]) && seg[a].reply.ok { AckedArmStays(job, seg, a); }
  }

  /** An acknowledged arm with no disarm sent leaves the timer live, unless the host rebooted since. */
  lemma {:induction false} TimerLeftArmed(job: Job, seg: seq<Event>, r0: Remote, a: nat)
    requires Lawful(job, seg) && AllPossible(seg) && a < |seg| && Arms(seg[a]) && seg[a].reply.ok
    requires forall k :: 0 <= k < |seg| ==> !Disarms(seg[k])
    ensures || seg[a].cmd.unit in Replay(r0, seg).timers
            || exists k :: a < k < |seg| && seg[k].Sent? && (seg[k].rebooted || seg[k].cmd.Reboot?)
    decreases |seg|
  {
    Peel(job, seg);
    var n := |seg| - 1;
    if a < n {
      var front := seg[..n];
      AckedArmStays(job, front, a);
      TimerLeftArmed(job, front, r0, a);
      if k :| a < k < n && front[k].Sent? && (front[k].rebooted || front[k].cmd.Reboot?) {
        assert seg[k] == front[k];
      }
    }
  }

  /** The active path on record as the pre-deploy one is what some read before the arm returned. */
  lemma {:induction false} FindPrior(job: Job, seg: seq<Event>) returns (p: nat)
    requires Lawful(job, seg) && At(job, seg).start.prior != ""
    ensures p < |seg| && seg[p].Sent? && seg[p].cmd.ReadActive? && seg[p].reply.Said() == At(job, seg).start.prior
    ensures forall k :: 0 <= k < p ==> !Arms(seg[k])
    decreases |seg|
  {
    Peel(job, seg);
    var n := |seg| - 1;
    if At(job, seg[..n]).start.prior == At(job, seg).start.prior {
      p := FindPrior(job, seg[..n]);
    } else {
      p := n;
      forall k | 0 <= k < p ensures !Arms(seg[k]) {
        if Arms(seg[k]) { SentTriesArm(job, seg[..n], k); }
      }
    }
  }

  /** Nothing was armed with an acknowledgement, and nothing activated, before `k`. */
  ghost predicate NothingStarted(seg: seq<Event>, k: nat) {
    forall j :: 0 <= j < k && j < |seg| ==> !Tests(seg[j]) && !Persists(seg[j]) && (Arms(seg[j]) ==> !seg[j].reply.ok)
  }

  /** The active path was read back after the last attempt, non-empty, as before the deploy and not the plan. */
  ghost predicate StillOnPrior(seg: seq<Event>, k: nat, plan: string) {
    exists p, r :: 0 <= p < r < k && k <= |seg| && seg[p].Sent? && seg[p].cmd.ReadActive?
      && seg[r].Sent? && seg[r].cmd.ReadActive? && seg[r].reply.Said() == seg[p].reply.Said()
      && seg[r].reply.Said() != "" && seg[r].reply.Said() != plan
      && (exists t :: p < t < r && Tests(seg[t])) && (forall j :: 0 <= j < p ==> !Arms(seg[j]))
  }

  /**
   * Before persisting is attempted, a disarm is sent only when the arm was not acknowledged and nothing was
   * activated, or when the host was read back on the very path it ran before, not the plan.
   */
  lemma DisarmOnlyWhenHarmless(job: Job, seg: seq<Event>, k: nat)
    requires Lawful(job, seg) && k < |seg| && Disarms(seg[k])
    requires forall j :: 0 <= j < k ==> !Persists(seg[j])
    ensures NothingStarted(seg, k) || StillOnPrior(seg, k, job.plan)
  {
    SentWasAllowed(job, seg, k);
    var front := seg[..k];
    var w := At(job, front);
    if w.timer.arm.Refused? {
      forall j | 0 <= j < k ensures !Tests(seg[j]) && !Persists(seg[j]) && (Arms(seg[j]) ==> !seg[j].reply.ok) {
        assert front[j] == seg[j];
        UnarmedMeansNothingSent(job, front, j);
        if Arms(seg[j]) && seg[j].reply.ok { AckedArmStays(job, front, j); }
      }
    } else {
      NoPersistMeansUntried(job, front);
      var a, t, m, passes, r := FindRead(job, front);
      var p := FindPrior(job, front);
      assert Arms(front[a]) && p < a && front[p] == seg[p] && front[r] == seg[r] && Tests(seg[t]);
    }
  }

  lemma {:induction false} AckedArmStays(job: Job, seg: seq<Event>, i: nat)
    requires Lawful(job, seg) && i < |seg| && Arms(seg[i]) && seg[i].reply.ok
    ensures At(job, seg).Armed()
    decreases |seg|
  {
    Peel(job, seg);
    if i < |seg| - 1 {
      AckedArmStays(job, seg[..|seg| - 1], i);
      StaysArmed(job, seg);
    }
  }

  lemma {:induction false} NoPersistMeansUntried(job: Job, seg: seq<Event>)
    requires Lawful(job, seg) && forall j :: 0 <= j < |seg| ==> !Persists(seg[j])
    ensures At(job, seg).kept.profile.Untried?
    decreases |seg|
  {
    if seg != [] {
      Peel(job, seg);
      NoPersistMeansUntried(job, seg[..|seg| - 1]);
    }
  }

  // ---- The same of whole runs ----

  /**
   * In every run, a safe deploy that returned true leaves the planned path as boot entry if and only if a
   * watchdog arm was acknowledged in it, or the entry was the planned one before.
   */
  lemma TrueDeployBootsPlanIff(log: seq<Event>, b: nat, e: nat, r0: Remote)
    requires WatchOf(log).lawful && AllPossible(log) && Whole(log, b, e) && log[e].ok
    ensures Replay(r0, log[b + 1..e]).boot == log[b].plan <==>
            r0.boot == log[b].plan || exists a :: b < a < e && Arms(log[a]) && log[a].reply.ok
  {
    var job, seg := JobAt(log, b), log[b + 1..e];
    EveryDeployEndedWell(log, b, e);
    TrueBootsPlanIff(job, seg, r0);
    ArmedIff(job, seg);
    if a :| 0 <= a < |seg| && Arms(seg[a]) && seg[a].reply.ok { assert Arms(log[b + 1 + a]); }
    if a :| b < a < e && Arms(log[a]) && log[a].reply.ok { assert Arms(seg[a - b - 1]); }
  }

  /** In every run, what a safe deploy that returned true says of the running system. */
  lemma TrueDeployRunsPlanIff(log: seq<Event>, b: nat, e: nat, r0: Remote)
    requires WatchOf(log).lawful && AllPossible(log) && Whole(log, b, e) && log[e].ok
    requires Quiet(r0, log[b + 1..e])
    ensures Replay(r0, log[b + 1..e]).active == log[b].plan <==>
            || r0.boot == log[b].plan || !RebootTook(log[b + 1..e])
            || exists a :: b < a < e && Arms(log[a]) && log[a].reply.ok
  {
    var job, seg := JobAt(log, b), log[b + 1..e];
    EveryDeployEndedWell(log, b, e);
    TrueRunsPlanIff(job, seg, r0);
    ArmedIff(job, seg);
    if a :| 0 <= a < |seg| && Arms(seg[a]) && seg[a].reply.ok { assert Arms(log[b + 1 + a]); }
    if a :| b < a < e && Arms(log[a]) && log[a].reply.ok { assert Arms(seg[a - b - 1]); }
  }

  /** In every run, an acknowledged arm at `a` with no disarm up to `e` leaves its timer live unless a reboot came. */
  lemma UndisarmedTimerIsLive(log: seq<Event>, b: nat, a: nat, e: nat, r0: Remote)
    requires WatchOf(log).lawful && AllPossible(log) && Stretch(log, b, e)
    requires b < a < e && Arms(log[a]) && log[a].reply.ok && forall k :: b < k < e ==> !Disarms(log[k])
    ensures || log[a].cmd.unit in Replay(r0, log[b + 1..e]).timers
            || exists k :: a < k < e && log[k].Sent? && (log[k].rebooted || log[k].cmd.Reboot?)
  {
    var job, seg := JobAt(log, b), log[b + 1..e];
    EveryDeployLawful(log, b, e);
    TimerLeftArmed(job, seg, r0, a - b - 1);
    if k :| a - b - 1 < k < |seg| && seg[k].Sent? && (seg[k].rebooted || seg[k].cmd.Reboot?) {
      assert log[b + 1 + k] == seg[k];
    }
  }
}
