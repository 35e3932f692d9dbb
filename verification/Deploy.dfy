/**
 * Deploying one host: the probe, the two halves of the storage gate, the flow under the watchdog, the two flows
 * without it, and the checks after a deploy, each with every way it can end.
 */
module Deploy {
  import opened Hosts
  import opened Wire
  import opened Watchdog
  import opened Session
  import opened Exits
  import Progress
  import Ceph
  import Kernel

  const K8S_RETRIES := 12
  const VERIFY_RETRIES := 3
  const CEPH_RETRIES := 30

  /** Inside a deploy of `host`, nothing amiss so far. */
  ghost predicate Begun(s: Session, host: Host)
    reads s
  {
    && s.Valid() && s.line.Rides()
    && s.watch.lawful && s.watch.open && s.watch.job.host == host
    && s.gate.lawful && s.gate.host == host
  }

  /** ... and the host has answered. */
  ghost predicate On(s: Session, host: Host)
    reads s
  {
    Begun(s, host) && s.prog.probes.answered
  }

  /** A storage node's noout is on record. */
  ghost predicate Sheltered(s: Session, host: Host)
    reads s
  {
    host.ceph ==> host.name in s.gate.held
  }

  // ---- health.go ----

  /** Asks until the node is Ready, at most twelve times. */
  method WaitForK8sReady(s: Session, host: Host) returns (ok: bool)
    requires On(s, host) && !s.watch.post.ready && s.prog.later.polls == 0
    modifies s`log, s`watch, s`gate, s`line, s`prog
    ensures On(s, host) && s.gate == old(s.gate) && s.line.disrupted == old(s.line.disrupted)
    ensures s.watch == old(s.watch).(post := old(s.watch.post).(ready := ok))
    ensures s.prog == old(s.prog).(later := old(s.prog.later).(polls := s.prog.later.polls))
    ensures 1 <= s.prog.later.polls <= 12 && (!ok ==> s.prog.later.polls == 12)
  {
    ok := false;
    var i := 0;
    while i < K8S_RETRIES && !ok
      invariant On(s, host) && s.gate == old(s.gate) && s.line.disrupted == old(s.line.disrupted)
      invariant 0 <= i <= K8S_RETRIES && (i == 0 ==> !ok)
      invariant s.watch == old(s.watch).(post := old(s.watch.post).(ready := ok))
      invariant s.prog == old(s.prog).(later := old(s.prog.later).(polls := i))
    {
      var r, _ := s.RunLocal(host.name, NodeReady);
      ok := r.ok && r.body == Text("True");
      i := i + 1;
    }
  }

  /** The ssh check dials its own connection and compares the answer. */
  method CheckSsh(s: Session, host: Host, k: nat) returns (ok: bool)
    requires On(s, host) && k < |host.checks| && host.checks[k].Ssh?
    requires s.watch.contact.attempt && s.watch.contact.streak == k
    modifies s`log, s`watch, s`gate, s`line, s`prog
    ensures On(s, host) && s.gate == old(s.gate) && s.line.disrupted == old(s.line.disrupted)
    ensures s.prog == old(s.prog)
    ensures s.watch == old(s.watch).(contact := s.watch.contact)
    ensures s.watch.contact == old(s.watch.contact).(streak := if ok then k + 1 else k)
  {
    var r, _ := s.SshRunDirect(host.name, Check(k, host.checks[k]));
    ok := r.Echoed();
  }

  /** Pings from the host, over its master. */
  method CheckFromHost(s: Session, host: Host, k: nat) returns (ok: bool)
    requires On(s, host) && k < |host.checks| && !host.checks[k].Ssh?
    requires s.watch.contact.attempt && s.watch.contact.streak == k
    modifies s`log, s`watch, s`gate, s`line, s`prog
    ensures On(s, host) && s.gate == old(s.gate) && s.line.disrupted == old(s.line.disrupted)
    ensures s.prog == old(s.prog)
    ensures s.watch == old(s.watch).(contact := s.watch.contact)
    ensures s.watch.contact == old(s.watch.contact).(streak := if ok then k + 1 else k)
  {
    var r, _ := s.SshRun(host.name, Check(k, host.checks[k]));
    ok := r.ok;
  }

  /** Probes from this machine. */
  method CheckFromHere(s: Session, host: Host, k: nat) returns (ok: bool)
    requires On(s, host) && k < |host.checks| && !host.checks[k].Ssh?
    requires s.watch.contact.attempt && s.watch.contact.streak == k
    modifies s`log, s`watch, s`gate, s`line, s`prog
    ensures On(s, host) && s.gate == old(s.gate) && s.line.disrupted == old(s.line.disrupted)
    ensures s.prog == old(s.prog)
    ensures s.watch == old(s.watch).(contact := s.watch.contact)
    ensures s.watch.contact == old(s.watch.contact).(streak := if ok then k + 1 else k)
  {
    var r, _ := s.RunLocal(host.name, Check(k, host.checks[k]));
    ok := r.ok;
  }

  method RunConnCheck(s: Session, host: Host, k: nat) returns (ok: bool)
    requires On(s, host) && k < |host.checks|
    requires s.watch.contact.attempt && s.watch.contact.streak == k
    modifies s`log, s`watch, s`gate, s`line, s`prog
    ensures On(s, host) && s.gate == old(s.gate) && s.line.disrupted == old(s.line.disrupted)
    ensures s.prog == old(s.prog)
    ensures s.watch == old(s.watch).(contact := s.watch.contact)
    ensures s.watch.contact == old(s.watch.contact).(streak := if ok then k + 1 else k)
  {
    match host.checks[k] {
      case Ssh => ok := CheckSsh(s, host, k);
      case PingInternet => ok := CheckFromHere(s, host, k);
      case Dns => ok := CheckFromHere(s, host, k);
      case _ => ok := CheckFromHost(s, host, k);
    }
  }

  /** One attempt: the checks in order, up to the first that fails. */
  method ConnectivityAttempt(s: Session, host: Host) returns (ok: bool)
    requires On(s, host) && s.watch.trial.settled && s.watch.Armed() && !s.watch.timer.disarmed && !s.watch.Connected()
    modifies s`log, s`watch, s`gate, s`line, s`prog
    ensures On(s, host) && s.gate == old(s.gate) && s.line.disrupted == old(s.line.disrupted)
    ensures s.watch == old(s.watch).(contact := s.watch.contact)
    ensures s.watch.contact.attempt && s.watch.contact.seen == "" && (ok <==> s.watch.Connected())
    ensures s.prog == old(s.prog).(tries := Progress.Tries(old(s.prog.tries.attempts) + 1, false))
  {
    s.Record(Attempt(host.name));
    var k := 0;
    ok := true;
    while k < |host.checks| && ok
      invariant On(s, host) && s.gate == old(s.gate) && s.line.disrupted == old(s.line.disrupted)
      invariant k <= |host.checks| && (!ok ==> k > 0)
      invariant s.watch == old(s.watch).(contact := Contact(true, if ok then k else k - 1, ""))
      invariant s.prog == old(s.prog).(tries := Progress.Tries(old(s.prog.tries.attempts) + 1, false))
    {
      ok := RunConnCheck(s, host, k);
      k := k + 1;
    }
  }

  /** Up to three attempts, the last of which decides; a failed one costs the master. */
  method VerifyConnectivity(s: Session, host: Host) returns (ok: bool)
    requires On(s, host) && s.watch.trial.settled && s.watch.Armed() && !s.watch.timer.disarmed
    requires !s.watch.contact.attempt && s.prog.tries.attempts == 0
    modifies s`log, s`watch, s`gate, s`line, s`prog
    ensures On(s, host) && s.gate == old(s.gate) && s.line.disrupted == old(s.line.disrupted)
    ensures s.watch == old(s.watch).(contact := s.watch.contact)
    ensures s.watch.contact.seen == "" && (ok <==> s.watch.Connected())
    ensures s.prog == old(s.prog).(tries := s.prog.tries)
    ensures 1 <= s.prog.tries.attempts <= 3 && (!ok ==> s.prog.tries.attempts == 3)
  {
    var attempt := 0;
    ok := false;
    while attempt < VERIFY_RETRIES && !ok
      invariant On(s, host) && s.gate == old(s.gate) && s.line.disrupted == old(s.line.disrupted)
      invariant 0 <= attempt <= VERIFY_RETRIES && (attempt == 0 ==> !ok)
      invariant s.watch == old(s.watch).(contact := s.watch.contact)
      invariant ok <==> s.watch.Connected()
      invariant attempt > 0 ==> s.watch.contact.seen == ""
      invariant s.prog == old(s.prog).(tries := s.prog.tries) && s.prog.tries.attempts == attempt
    {
      ok := ConnectivityAttempt(s, host);
      if !ok && attempt < VERIFY_RETRIES - 1 {
        s.DropMaster(host.name);
      }
      attempt := attempt + 1;
    }
  }

  // ---- deploy.go: the steps ----

  /** The live toplevel, or "" when it cannot be read. */
  method ActiveSystemPath(s: Session, host: Host) returns (path: string)
    requires On(s, host) && (s.watch.timer.arm.Unarmed? || s.watch.Connected())
    modifies s`log, s`watch, s`gate, s`line, s`prog
    ensures On(s, host) && s.gate == old(s.gate) && s.line.disrupted == old(s.line.disrupted)
    ensures s.prog == old(s.prog).(tries := old(s.prog.tries).(looked := true))
    ensures s.watch == if old(s.watch.timer.arm).Unarmed?
                       then old(s.watch).(start := old(s.watch.start).(prior := path))
                       else old(s.watch).(contact := old(s.watch.contact).(seen := path))
  {
    var r, _ := s.SshRun(host.name, ReadActive);
    path := r.Said();
  }

  method ProfilePath(s: Session, host: Host) returns (path: string)
    requires On(s, host) && s.watch.timer.arm.Unarmed?
    modifies s`log, s`watch, s`gate, s`line, s`prog
    ensures On(s, host) && s.gate == old(s.gate) && s.line.disrupted == old(s.line.disrupted)
    ensures s.prog == old(s.prog)
    ensures s.watch == old(s.watch).(start := old(s.watch.start).(profile := path))
  {
    var r, _ := s.SshRun(host.name, ReadProfile);
    path := r.Said();
  }

  /** Does the host run and boot `path`, as far as the two reads say? An empty path is never a match. */
  method HostAtPath(s: Session, host: Host, path: string) returns (same: bool, active: string)
    requires On(s, host) && s.watch.timer.arm.Unarmed? && path == s.watch.job.plan
    modifies s`log, s`watch, s`gate, s`line, s`prog
    ensures On(s, host) && s.gate == old(s.gate) && s.line.disrupted == old(s.line.disrupted)
    ensures s.prog == old(s.prog).(tries := old(s.prog.tries).(looked := true))
    ensures s.watch == old(s.watch).(start := s.watch.start) && s.watch.start.prior == active
    ensures same <==> s.watch.UpToDate()
  {
    active := ActiveSystemPath(s, host);
    var boot := ProfilePath(s, host);
    if path == "" { return false, active; }
    same := active == path && boot == path;
  }

  method CleanupStaleUnits(s: Session, host: Host)
    requires On(s, host) && s.watch.job.Guarded() && s.watch.timer.arm.Unarmed?
    modifies s`log, s`watch, s`gate, s`line, s`prog
    ensures On(s, host) && s.gate == old(s.gate) && s.line.disrupted == old(s.line.disrupted)
    ensures s.prog == old(s.prog)
    ensures s.watch == old(s.watch).(timer := old(s.watch.timer).(swept := true))
  {
    var _, _ := s.SshRun(host.name, StopStale);
  }

  /** Sent once: a second try would find the unit there. The unit name comes back either way. */
  method ArmWatchdog(s: Session, host: Host) returns (unit: string, ok: bool)
    requires On(s, host) && s.watch.job.Guarded() && Sheltered(s, host)
    requires s.watch.timer.arm.Unarmed? && s.watch.timer.swept && !s.watch.UpToDate()
    modifies s`log, s`watch, s`gate, s`line, s`prog
    ensures On(s, host) && s.gate == old(s.gate) && s.line.disrupted == old(s.line.disrupted)
    ensures s.prog == old(s.prog)
    ensures s.watch == old(s.watch).(timer := s.watch.timer)
    ensures s.watch.timer == old(s.watch.timer).(unit := unit, arm := if ok then Arming.Armed else Refused)
    ensures |s.log| == |old(s.log)| + 1
  {
    unit := *;
    var r, _ := s.SshRunOnce(host.name, Arm(unit));
    ok := r.ok;
  }

  method DisarmWatchdog(s: Session, host: Host, unit: string)
    requires On(s, host) && unit == s.watch.timer.unit && s.watch.MayDisarm()
    modifies s`log, s`watch, s`gate, s`line, s`prog
    ensures On(s, host) && s.gate == old(s.gate) && s.line.disrupted == old(s.line.disrupted)
    ensures s.prog == old(s.prog)
    ensures s.watch == old(s.watch).(timer := old(s.watch.timer).(disarmed := true))
  {
    var _, _ := s.SshRun(host.name, Disarm(unit));
  }

  /** The master is discarded whatever the exit status; an unacknowledged test counts if the host answers afresh. */
  method ActivateTest(s: Session, host: Host, path: string) returns (ok: bool, timedOut: bool)
    requires On(s, host) && Sheltered(s, host) && path == s.watch.job.plan
    requires s.watch.Armed() && !s.watch.trial.tested && !s.watch.timer.disarmed && !s.watch.post.away
    modifies s`log, s`watch, s`gate, s`line, s`prog
    ensures On(s, host) && s.gate == old(s.gate)
    ensures s.watch == old(s.watch).(trial := Trial(true, ok, timedOut || !ok))
    ensures s.prog == old(s.prog).(probes := s.prog.probes) && (!ok ==> s.prog.probes.probed)
  {
    var acked := SendTest(s, host, path);
    if acked { return true, false; }
    var answered, _ := s.ReachableDirect(host.name);
    ok, timedOut := answered, answered;
  }

  /** The test activation, after which the master is dropped whatever came back. */
  method SendTest(s: Session, host: Host, path: string) returns (acked: bool)
    requires On(s, host) && Sheltered(s, host) && path == s.watch.job.plan
    requires s.watch.Armed() && !s.watch.trial.tested && !s.watch.timer.disarmed
    modifies s`log, s`watch, s`gate, s`line, s`prog
    ensures On(s, host) && s.gate == old(s.gate)
    ensures s.watch == old(s.watch).(trial := Trial(true, acked, !acked))
    ensures s.prog == old(s.prog).(probes := Progress.Probes(true, false))
  {
    var r, _ := s.SshRunOnce(host.name, SwitchTest(path));
    s.DropMaster(host.name);
    acked := r.ok;
  }

  method VerifyActivePath(s: Session, host: Host, expected: string) returns (ok: bool, got: string)
    requires On(s, host) && !s.watch.timer.arm.Unarmed? && s.watch.Connected()
    modifies s`log, s`watch, s`gate, s`line, s`prog
    ensures On(s, host) && s.gate == old(s.gate) && s.line.disrupted == old(s.line.disrupted)
    ensures s.prog == old(s.prog).(tries := old(s.prog.tries).(looked := true))
    ensures s.watch == old(s.watch).(contact := old(s.watch.contact).(seen := got))
    ensures ok <==> got != "" && got == expected
  {
    got := ActiveSystemPath(s, host);
    ok := got != "" && got == expected;
  }

  method ClearRebuildUnit(s: Session, host: Host)
    requires On(s, host) && s.watch.Verified()
    modifies s`log, s`watch, s`gate, s`line, s`prog
    ensures On(s, host) && s.gate == old(s.gate) && s.line.disrupted == old(s.line.disrupted)
    ensures s.prog == old(s.prog)
    ensures s.watch == old(s.watch).(trial := old(s.watch.trial).(stuck := false))
  {
    var _, _ := s.SshRun(host.name, ClearUnit);
  }

  /** Profile first, then the boot entry. */
  method PersistBoot(s: Session, host: Host, path: string) returns (ok: bool)
    requires On(s, host) && path == s.watch.job.plan
    requires s.watch.Verified() && !s.watch.trial.stuck && s.watch.kept.boot.Untried?
    modifies s`log, s`watch, s`gate, s`line, s`prog
    ensures On(s, host) && s.gate == old(s.gate) && s.line.disrupted == old(s.line.disrupted)
    ensures s.prog == old(s.prog)
    ensures s.watch == old(s.watch).(kept := s.watch.kept)
    ensures s.watch.kept == old(s.watch.kept).(profile := s.watch.kept.profile, boot := s.watch.kept.boot)
    ensures s.watch.kept.profile.Failed? ==> s.watch.kept.boot.Untried?
    ensures s.watch.kept.profile.Acked? ==> !s.watch.kept.boot.Untried?
    ensures !s.watch.kept.profile.Untried? && (ok <==> s.watch.kept.boot.Acked?)
  {
    var r1 := SetSystemProfile(s, host, path);
    if !r1 { return false; }
    ok := SwitchBootEntry(s, host, path);
  }

  method SetSystemProfile(s: Session, host: Host, path: string) returns (ok: bool)
    requires On(s, host) && path == s.watch.job.plan
    requires s.watch.Verified() && !s.watch.trial.stuck && s.watch.kept.boot.Untried?
    modifies s`log, s`watch, s`gate, s`line, s`prog
    ensures On(s, host) && s.gate == old(s.gate) && s.line.disrupted == old(s.line.disrupted)
    ensures s.prog == old(s.prog)
    ensures s.watch == old(s.watch).(kept := old(s.watch.kept).(profile := if ok then Acked else Failed))
  {
    var r, _ := s.SshRun(host.name, SetProfile(path));
    ok := r.ok;
  }

  method SwitchBootEntry(s: Session, host: Host, path: string) returns (ok: bool)
    requires On(s, host) && path == s.watch.job.plan
    requires s.watch.Verified() && s.watch.kept.profile.Acked?
    modifies s`log, s`watch, s`gate, s`line, s`prog
    ensures On(s, host) && s.gate == old(s.gate) && s.line.disrupted == old(s.line.disrupted)
    ensures s.prog == old(s.prog)
    ensures s.watch == old(s.watch).(kept := old(s.watch.kept).(boot := if ok then Acked else Failed))
  {
    var r, _ := s.SshRun(host.name, SwitchBoot(path));
    ok := r.ok;
  }

  // ---- Reboots ----

  datatype RebootFlag = Never | Auto | Always | Ask
  datatype RebootAction = Skip | Do | Prompt

  function RebootDecide(flag: RebootFlag, changed: bool): RebootAction {
    match flag
    case Never => Skip
    case Always => Do
    case Ask => if changed then Prompt else Skip
    case Auto => if changed then Do else Skip
  }

  /** One question about the kernel; whatever was printed counts, failed or not. */
  method AskKernel(s: Session, host: Host, item: nat) returns (text: string)
    requires On(s, host) && s.watch.MayReboot()
    modifies s`log, s`watch, s`gate, s`line, s`prog
    ensures On(s, host) && s.gate == old(s.gate) && s.line.disrupted == old(s.line.disrupted)
    ensures s.watch == old(s.watch)
    ensures s.prog == old(s.prog).(kernel := Progress.Hear(old(s.prog.kernel), item, text))
  {
    var r, _ := s.SshRun(host.name, KernelQuery(item));
    text := r.Said();
  }

  /** The kernel or its parameters on disk are not the booted ones, by the host's own answers. */
  predicate KernelDiffers(k: Progress.Booted) {
    Kernel.Changed(k.running.Words(), k.current.Words(), k.params.Words(), k.latest.Words())
  }

  /** Asks for both kernels and both parameter lists. */
  method DetectKernelChange(s: Session, host: Host) returns (changed: bool)
    requires On(s, host) && s.watch.MayReboot()
    modifies s`log, s`watch, s`gate, s`line, s`prog
    ensures On(s, host) && s.gate == old(s.gate) && s.line.disrupted == old(s.line.disrupted)
    ensures s.prog == old(s.prog).(kernel := s.prog.kernel)
    ensures s.watch == old(s.watch)
    ensures s.prog.kernel.Known() && (changed <==> KernelDiffers(s.prog.kernel))
  {
    var running := AskKernel(s, host, 0);
    var current := AskKernel(s, host, 1);
    var booted := AskKernel(s, host, 2);
    var latest := AskKernel(s, host, 3);
    changed := Kernel.KernelChanged(running, current, booted, latest);
  }

  /** Probes on fresh connections, at least one, until one answers or they end. */
  predicate ProbesUntil(trace: seq<Event>, name: string, ok: bool) {
    trace != [] && forall k :: 0 <= k < |trace| ==> ProbeOf(trace[k], name, ok && k == |trace| - 1)
  }

  /** A reboot command, and the drop of the master if there is one. */
  predicate RebootHead(head: seq<Event>, name: string, mux: bool) {
    && |head| == (if mux then 2 else 1)
    && head[0].Sent? && head[0].name == name && head[0].cmd.Reboot?
    && (mux ==> head[1] == Dropped(name))
  }

  /** The two after each other. */
  ghost predicate RebootTrace(trace: seq<Event>, name: string, mux: bool, ok: bool) {
    exists head, probes :: trace == head + probes && RebootHead(head, name, mux) && ProbesUntil(probes, name, ok)
  }

  /** Reboots, then polls until the host answers or the deadline passes. */
  method RebootAndWait(s: Session, host: Host) returns (ok: bool, ghost trace: seq<Event>)
    requires On(s, host) && Sheltered(s, host) && s.watch.MayReboot() && !s.watch.post.away
    modifies s`log, s`watch, s`gate, s`line, s`prog
    ensures On(s, host) && s.gate == old(s.gate)
    ensures s.watch.post == Aftermath(!ok, false)
    ensures s.watch == old(s.watch).(trial := s.watch.trial, post := s.watch.post)
    ensures s.watch.trial == old(s.watch.trial).(settled := s.watch.trial.settled)
    ensures old(s.watch.trial.settled) ==> s.watch.trial.settled
    ensures s.log == old(s.log) + trace && RebootTrace(trace, host.name, s.mux, ok) && trace != []
    ensures s.prog == old(s.prog).(probes := Progress.Probes(true, true), later := s.prog.later)
    ensures s.prog.later == old(s.prog.later).(sent := true)
  {
    ghost var head := StartReboot(s, host);
    ghost var probes;
    ok, probes := PollHost(s, host);
    trace := head + probes;
  }

  method PollHost(s: Session, host: Host) returns (ok: bool, ghost probes: seq<Event>)
    requires On(s, host) && s.watch.post == Aftermath(true, false)
    modifies s`log, s`watch, s`gate, s`line, s`prog
    ensures On(s, host) && s.gate == old(s.gate)
    ensures s.watch == if ok then Answered(old(s.watch)) else old(s.watch)
    ensures s.log == old(s.log) + probes && ProbesUntil(probes, host.name, ok)
    ensures s.prog == old(s.prog).(probes := Progress.Probes(true, true))
  {
    ghost var sent;
    ok, sent := s.ReachableDirect(host.name);
    probes := [sent];
    var polls: nat := *;
    while polls > 0 && !ok
      invariant On(s, host) && s.gate == old(s.gate)
      invariant s.watch == if ok then Answered(old(s.watch)) else old(s.watch)
      invariant s.log == old(s.log) + probes && ProbesUntil(probes, host.name, ok)
      invariant s.prog == old(s.prog).(probes := Progress.Probes(true, true))
    {
      ok, sent := s.ReachableDirect(host.name);
      probes := probes + [sent];
      polls := polls - 1;
    }
  }

  method StartReboot(s: Session, host: Host) returns (ghost trace: seq<Event>)
    requires On(s, host) && Sheltered(s, host) && s.watch.MayReboot() && !s.watch.post.away
    modifies s`log, s`watch, s`gate, s`line, s`prog
    ensures On(s, host) && s.gate == old(s.gate)
    ensures s.watch == old(s.watch).(post := Aftermath(true, false))
    ensures s.log == old(s.log) + trace && RebootHead(trace, host.name, s.mux)
    ensures s.prog == old(s.prog).(probes := Progress.Probes(true, false), later := s.prog.later)
    ensures s.prog.later == old(s.prog.later).(sent := true)
  {
    ghost var sent;
    var reply;
    reply, sent := s.SshRunOnce(host.name, Reboot);
    s.DropMaster(host.name);
    trace := if s.mux then [sent, Dropped(host.name)] else [sent];
  }

  /** What the flag asks for. */
  predicate RebootPolicy(flag: RebootFlag, changed: bool, sent: bool) {
    && (flag.Always? ==> sent)
    && (flag.Never? ==> !sent)
    && (flag.Auto? ==> (sent <==> changed))
    && (flag.Ask? && sent ==> changed)
  }

  /** What keeps the new system worked, or the host had it already. */
  predicate Persisted(w: Watch) {
    if !w.job.mode.Safe? then w.kept.rebuilt.Acked?
    else if w.timer.arm.Unarmed? then w.UpToDate()
    else w.kept.boot.Acked?
  }

  /** A staged rebuild always owes a reboot; after anything else the host's answers say. */
  predicate RebootOwed(w: Watch, p: Progress.Progress) { w.job.mode.Boot? || KernelDiffers(p.kernel) }

  /** A reboot is sent as the flag says of what is owed, once the new system is kept, and never before. */
  predicate RebootRight(w: Watch, p: Progress.Progress, flag: RebootFlag) {
    if Persisted(w) then
      RebootPolicy(flag, RebootOwed(w, p), p.later.sent) && (w.job.mode.Boot? || p.kernel.Known())
    else !p.later.sent
  }

  /** A reboot that is owed and was not sent is warned about. */
  function RebootWarnings(w: Watch, p: Progress.Progress, flag: RebootFlag): seq<Warning> {
    if Persisted(w) && RebootOwed(w, p) && !p.later.sent then [NeedsReboot(w.job.host.name, flag.Ask?)] else []
  }

  /** The body of a deploy rebooted and warned as it should. */
  ghost predicate Rebooting(s: Session, flag: RebootFlag, before: seq<Warning>)
    reads s
  {
    RebootRight(s.watch, s.prog, flag) && s.warnings == before + RebootWarnings(s.watch, s.prog, flag)
  }

  /** Acts on the decision; a reboot that is owed and not done is warned about. */
  method ApplyReboot(s: Session, host: Host, flag: RebootFlag, changed: bool)
    returns (ok: bool, ghost trace: seq<Event>)
    requires On(s, host) && Sheltered(s, host) && s.watch.MayReboot() && !s.watch.post.away && !s.prog.later.sent
    modifies s`log, s`watch, s`gate, s`line, s`prog, s`warnings
    ensures On(s, host) && s.gate == old(s.gate)
    ensures s.watch == old(s.watch).(trial := s.watch.trial, post := s.watch.post)
    ensures s.watch.trial == old(s.watch.trial).(settled := s.watch.trial.settled)
    ensures old(s.watch.trial.settled) ==> s.watch.trial.settled
    ensures ok <==> !s.watch.post.away
    ensures s.log == old(s.log) + trace && (trace == [] || RebootTrace(trace, host.name, s.mux, ok))
    ensures s.prog == old(s.prog).(probes := s.prog.probes, later := s.prog.later)
    ensures s.prog.later == old(s.prog.later).(sent := trace != [])
    ensures trace != [] ==> s.watch.post == Aftermath(!ok, false) && s.prog.probes.probed
    ensures trace == [] ==> s.watch == old(s.watch)
    ensures RebootPolicy(flag, changed, trace != [])
    ensures s.warnings == old(s.warnings) +
              if changed && trace == [] then [NeedsReboot(host.name, flag.Ask?)] else []
  {
    trace := [];
    match RebootDecide(flag, changed) {
      case Skip =>
        if changed { s.warnings := s.warnings + [NeedsReboot(host.name, false)]; }
        ok := true;
      case Prompt =>
        var agreed: bool := *;
        if !agreed {
          s.warnings := s.warnings + [NeedsReboot(host.name, true)];
          ok := true;
        } else {
          ok, trace := RebootAndWait(s, host);
        }
      case Do =>
        ok, trace := RebootAndWait(s, host);
    }
  }

  /** Reboot if owed, then wait for the node: the shared tail of every mode. */
  method PostChecks(s: Session, host: Host, flag: RebootFlag, changed: bool) returns (ok: bool)
    requires On(s, host) && Sheltered(s, host) && s.watch.MayReboot() && !s.watch.post.away && !s.watch.post.ready
    requires s.prog.later == Progress.Later(false, 0)
    modifies s`log, s`watch, s`gate, s`line, s`prog, s`warnings
    ensures On(s, host) && s.gate == old(s.gate) && NooutWarnings(s.warnings) == NooutWarnings(old(s.warnings))
    ensures s.watch == old(s.watch).(trial := s.watch.trial, post := s.watch.post)
    ensures s.watch.trial == old(s.watch.trial).(settled := s.watch.trial.settled)
    ensures old(s.watch.trial.settled) ==> s.watch.trial.settled
    ensures ok <==> !s.watch.post.away && (host.k8s ==> s.watch.post.ready)
    ensures s.prog == old(s.prog).(probes := s.prog.probes, later := s.prog.later)
    ensures Settled(s.watch, s.prog, ok)
    ensures RebootPolicy(flag, changed, s.prog.later.sent)
    ensures s.warnings == old(s.warnings) +
              if changed && !s.prog.later.sent then [NeedsReboot(host.name, flag.Ask?)] else []
  {
    ghost var trace;
    ok, trace := ApplyReboot(s, host, flag, changed);
    NooutWarningsAppend(old(s.warnings), s.warnings);
    if ok && host.k8s {
      ok := WaitForK8sReady(s, host);
    }
  }

  /** Looks whether a reboot is owed, then as above. */
  method KernelAndPostChecks(s: Session, host: Host, flag: RebootFlag) returns (ok: bool)
    requires On(s, host) && Sheltered(s, host) && s.watch.MayReboot() && !s.watch.post.away && !s.watch.post.ready
    requires s.prog.later == Progress.Later(false, 0) && Persisted(s.watch) && !s.watch.job.mode.Boot?
    modifies s`log, s`watch, s`gate, s`line, s`prog, s`warnings
    ensures On(s, host) && s.gate == old(s.gate) && NooutWarnings(s.warnings) == NooutWarnings(old(s.warnings))
    ensures s.watch == old(s.watch).(trial := s.watch.trial, post := s.watch.post)
    ensures s.watch.trial == old(s.watch.trial).(settled := s.watch.trial.settled)
    ensures old(s.watch.trial.settled) ==> s.watch.trial.settled
    ensures ok <==> !s.watch.post.away && (host.k8s ==> s.watch.post.ready)
    ensures s.prog == old(s.prog).(probes := s.prog.probes, later := s.prog.later, kernel := s.prog.kernel)
    ensures Settled(s.watch, s.prog, ok) && Rebooting(s, flag, old(s.warnings))
  {
    var owed := DetectKernelChange(s, host);
    ok := PostChecks(s, host, flag, owed);
    PolicyMeans(s.watch, s.prog, flag, owed, old(s.warnings), s.warnings);
  }

  lemma PolicyMeans(w: Watch, p: Progress.Progress, flag: RebootFlag, owed: bool, before: seq<Warning>,
                    after: seq<Warning>)
    requires Persisted(w) && owed == RebootOwed(w, p) && (w.job.mode.Boot? || p.kernel.Known())
    requires RebootPolicy(flag, owed, p.later.sent)
    requires after == before +
             if owed && !p.later.sent then [NeedsReboot(w.job.host.name, flag.Ask?)] else []
    ensures RebootRight(w, p, flag) && after == before + RebootWarnings(w, p, flag)
  {
  }


  /** The hosts named by the noout warnings, oldest first. */
  function NooutWarnings(ws: seq<Warning>): seq<string> {
    if ws == [] then []
    else NooutWarnings(ws[..|ws| - 1]) + if ws[|ws| - 1].NooutLeftSet? then [ws[|ws| - 1].name] else []
  }

  lemma NooutWarningsAppend(before: seq<Warning>, after: seq<Warning>)
    requires after == before || exists w :: after == before + [w]
    ensures after != before ==>
              NooutWarnings(after) ==
              NooutWarnings(before) + if after[|after| - 1].NooutLeftSet? then [after[|after| - 1].name] else []
  {
    if after != before {
      assert after[..|after| - 1] == before;
    }
  }

  // ---- deploy.go: the two flows ----

  /** The watchdog-protected flow. */
  method DeploySafe(s: Session, host: Host, path: string, flag: RebootFlag) returns (ok: bool)
    requires On(s, host) && Sheltered(s, host) && s.watch == Fresh(Job(host, path, Safe), true)
    requires s.prog.tries == Progress.Tries(0, false) && s.prog.later == Progress.Later(false, 0)
    modifies s`log, s`watch, s`gate, s`line, s`prog, s`warnings
    ensures On(s, host) && s.gate == old(s.gate) && NooutWarnings(s.warnings) == NooutWarnings(old(s.warnings))
    ensures s.prog.gating == old(s.prog.gating) && Rebooting(s, flag, old(s.warnings))
    ensures s.watch.job == Job(host, path, Safe) && SafeDone(s.watch, s.prog, ok)
  {
    var upToDate, prior := HostAtPath(s, host, path);
    if upToDate {
      ok := KernelAndPostChecks(s, host, flag);
      return;
    }
    CleanupStaleUnits(s, host);
    var unit, armed := ArmWatchdog(s, host);
    if !armed {
      DisarmWatchdog(s, host, unit);
      return false;
    }
    ok := ActivateAndKeep(s, host, path, flag, unit, prior);
  }

  /** Under an acknowledged watchdog: activate, verify, persist. */
  method ActivateAndKeep(s: Session, host: Host, path: string, flag: RebootFlag, unit: string, prior: string)
    returns (ok: bool)
    requires On(s, host) && Sheltered(s, host) && s.prog.tries.attempts == 0
    requires s.prog.later == Progress.Later(false, 0)
    requires s.watch == Fresh(Job(host, path, Safe), true).(
               start := Start(prior, s.watch.start.profile), timer := Timer(true, Arming.Armed, unit, false))
    modifies s`log, s`watch, s`gate, s`line, s`prog, s`warnings
    ensures On(s, host) && s.gate == old(s.gate) && NooutWarnings(s.warnings) == NooutWarnings(old(s.warnings))
    ensures s.prog.gating == old(s.prog.gating) && Rebooting(s, flag, old(s.warnings))
    ensures s.watch.job == Job(host, path, Safe) && SafeDone(s.watch, s.prog, ok)
  {
    var active, timedOut := ActivateTest(s, host, path);
    if !active { return false; }
    var connected := VerifyConnectivity(s, host);
    if !connected { return false; }
    ok := KeepIfRead(s, host, path, flag, unit, prior, timedOut);
  }

  /** Keep the new system if it reads back; disarm if the old one does; leave anything else to the timer. */
  method KeepIfRead(s: Session, host: Host, path: string, flag: RebootFlag, unit: string, prior: string,
                    timedOut: bool) returns (ok: bool)
    requires On(s, host) && Sheltered(s, host) && s.watch.job == Job(host, path, Safe)
    requires s.watch.start.prior == prior && s.watch.timer == Timer(true, Arming.Armed, unit, false)
    requires s.watch.trial == Trial(true, true, timedOut) && s.watch.Connected() && s.watch.contact.seen == ""
    requires s.watch.kept == Lasting(Untried, Untried, Untried) && s.watch.post == Aftermath(false, false)
    requires s.prog.later == Progress.Later(false, 0)
    modifies s`log, s`watch, s`gate, s`line, s`prog, s`warnings
    ensures On(s, host) && s.gate == old(s.gate) && NooutWarnings(s.warnings) == NooutWarnings(old(s.warnings))
    ensures s.prog.gating == old(s.prog.gating) && Rebooting(s, flag, old(s.warnings))
    ensures s.watch.job == Job(host, path, Safe) && SafeDone(s.watch, s.prog, ok)
  {
    var same, got := VerifyActivePath(s, host, path);
    if !same {
      if got != "" && got == prior {
        DisarmWatchdog(s, host, unit);
      }
      return false;
    }
    ok := FinishSafe(s, host, path, flag, unit, timedOut);
    KeptIsDone(s.watch, s.prog, ok);
  }

  /** From the verified activation on: persist, disarm, post-deploy checks. */
  method FinishSafe(s: Session, host: Host, path: string, flag: RebootFlag, unit: string, timedOut: bool)
    returns (ok: bool)
    requires On(s, host) && Sheltered(s, host) && s.watch.job == Job(host, path, Safe)
    requires s.watch.Verified() && s.watch.timer.unit == unit && s.watch.trial.stuck == timedOut
    requires s.watch.kept == Lasting(Untried, Untried, Untried) && s.watch.post == Aftermath(false, false)
    requires s.prog.later == Progress.Later(false, 0)
    modifies s`log, s`watch, s`gate, s`line, s`prog, s`warnings
    ensures On(s, host) && s.gate == old(s.gate) && NooutWarnings(s.warnings) == NooutWarnings(old(s.warnings))
    ensures s.prog == old(s.prog).(probes := s.prog.probes, later := s.prog.later, kernel := s.prog.kernel)
    ensures Rebooting(s, flag, old(s.warnings))
    ensures s.watch == old(s.watch).(trial := s.watch.trial, timer := old(s.watch.timer).(disarmed := true),
                                     kept := s.watch.kept, post := s.watch.post)
    ensures s.watch.trial.tested && (old(s.watch.trial.settled) ==> s.watch.trial.settled)
    ensures Kept(s.watch, s.prog, ok)
  {
    if timedOut {
      ClearRebuildUnit(s, host);
    }
    var kept := PersistBoot(s, host, path);
    DisarmWatchdog(s, host, unit);
    if !kept { return false; }
    ok := KernelAndPostChecks(s, host, flag);
  }

  /** One nixos-rebuild call, no watchdog. With `stage` nothing is activated, so a reboot is owed. */
  method DeployUnsafe(s: Session, host: Host, stage: bool, flag: RebootFlag) returns (ok: bool)
    requires On(s, host) && Sheltered(s, host)
    requires s.watch == Fresh(Job(host, s.watch.job.plan, if stage then Boot else Switch), true)
    requires s.prog.later == Progress.Later(false, 0)
    modifies s`log, s`watch, s`gate, s`line, s`prog, s`warnings
    ensures On(s, host) && s.gate == old(s.gate) && NooutWarnings(s.warnings) == NooutWarnings(old(s.warnings))
    ensures s.prog.gating == old(s.prog.gating) && Rebooting(s, flag, old(s.warnings))
    ensures s.watch.job == old(s.watch.job) && UnsafeDone(s.watch, s.prog, ok)
  {
    var rebuilt := Rebuild(s, host, stage);
    if !rebuilt { return false; }
    if stage {
      ok := PostChecks(s, host, flag, true);
    } else {
      ok := KernelAndPostChecks(s, host, flag);
    }
  }

  /** The switch can restart networkd under the connection, so the master goes. */
  method Rebuild(s: Session, host: Host, stage: bool) returns (ok: bool)
    requires On(s, host) && Sheltered(s, host) && s.watch.kept.rebuilt.Untried?
    requires s.watch.job.mode == if stage then Boot else Switch
    modifies s`log, s`watch, s`gate, s`line, s`prog
    ensures On(s, host) && s.gate == old(s.gate) && s.prog == old(s.prog)
    ensures s.watch == old(s.watch).(kept := old(s.watch.kept).(rebuilt := if ok then Acked else Failed))
  {
    var result: string := *;
    var r, _ := s.SshRunOnce(host.name, NixosRebuild(stage, result));
    s.DropMaster(host.name);
    ok := r.ok;
  }

  // ---- ceph.go ----

  /** The event at `n` asks the host for the OSD tree. */
  predicate TreeRead(log: seq<Event>, n: nat, name: string) {
    n < |log| && log[n].Sent? && log[n].name == name && log[n].cmd.OsdTree?
  }

  method ReadTree(s: Session, host: Host) returns (read: bool, nodes: seq<Ceph.Node>)
    requires On(s, host) && host.ceph && !s.gate.clean
    modifies s`log, s`watch, s`gate, s`line, s`prog
    ensures On(s, host) && s.watch == old(s.watch) && s.line.disrupted == old(s.line.disrupted)
    ensures s.gate.held == old(s.gate.held) && s.gate.shielded == old(s.gate.shielded) && !s.gate.clean
    ensures s.gate.passed <==> read && !Ceph.DownElsewhere(nodes, host.name)
    ensures s.gate.treeUp <==> read && !Ceph.SomeDown(nodes)
    ensures s.prog == old(s.prog).(gating := old(s.prog.gating).(asked := true))
    ensures old(s.log) <= s.log && TreeRead(s.log, |old(s.log)|, host.name)
  {
    var r, x := s.SshRun(host.name, OsdTree);
    read := r.ok && r.body.Tree?;
    nodes := if r.body.Tree? then r.body.nodes else [];
  }

  method ReadPgs(s: Session, host: Host) returns (read: bool, pgs: Ceph.PgStat)
    requires On(s, host) && host.ceph && !s.gate.clean
    modifies s`log, s`watch, s`gate, s`line, s`prog
    ensures On(s, host) && s.watch == old(s.watch) && s.line.disrupted == old(s.line.disrupted)
    ensures s.prog == old(s.prog)
    ensures s.gate == old(s.gate).(clean := s.gate.clean)
    ensures s.gate.clean <==> old(s.gate.treeUp) && read && Ceph.AllClean(pgs)
  {
    var r, _ := s.SshRun(host.name, PgStat);
    read := r.ok && r.body.Pgs?;
    pgs := if r.body.Pgs? then r.body.pgs else Ceph.PgStat([], 0);
  }

  /** Refuses while an OSD elsewhere is down; otherwise sets noout on the host. */
  method CephBeforeDeploy(s: Session, host: Host) returns (ok: bool)
    requires On(s, host) && host.ceph && s.gate.held == {} && !s.gate.shielded && !s.gate.clean
    modifies s`log, s`watch, s`gate, s`line, s`prog
    ensures On(s, host) && s.watch == old(s.watch) && s.line.disrupted == old(s.line.disrupted)
    ensures s.gate.held == (if ok then {host.name} else {})
    ensures ok <==> s.gate.shielded
    ensures ok ==> s.gate.passed && !s.gate.clean
    ensures s.prog == old(s.prog).(gating := s.prog.gating)
    ensures s.prog.gating == old(s.prog.gating).(asked := true, raised := s.prog.gating.raised)
    ensures s.gate.passed ==> s.prog.gating.raised
    ensures s.gate.passed ==> AnsweredSet(s.log, host.name, ok)
    ensures old(s.log) <= s.log && TreeRead(s.log, |old(s.log)|, host.name)
  {
    var read, nodes := ReadTree(s, host);
    if !read { return false; }
    var clear := Ceph.TreeAllows(nodes, host.name);
    if !clear { return false; }
    ok := SetNooutOn(s, host);
  }

  /** The log ends with a set of the host's noout, acknowledged or not. */
  predicate AnsweredSet(log: seq<Event>, name: string, ok: bool) {
    && log != [] && log[|log| - 1].Sent? && log[|log| - 1].name == name
    && log[|log| - 1].cmd.SetNoout? && (log[|log| - 1].reply.ok <==> ok)
  }

  method SetNooutOn(s: Session, host: Host) returns (ok: bool)
    requires On(s, host) && host.ceph && s.gate.held == {} && s.gate.passed
    modifies s`log, s`watch, s`gate, s`line, s`prog
    ensures On(s, host) && s.watch == old(s.watch) && s.line.disrupted == old(s.line.disrupted)
    ensures s.gate == old(s.gate).(held := if ok then {host.name} else {},
                                   shielded := ok || old(s.gate.shielded))
    ensures s.prog == old(s.prog).(gating := old(s.prog.gating).(raised := true))
    ensures AnsweredSet(s.log, host.name, ok) && old(s.log) <= s.log
  {
    var r, x := s.SshRun(host.name, SetNoout);
    ok := r.ok;
  }

  method UnsetNooutOn(s: Session, host: Host) returns (ok: bool)
    requires On(s, host) && host.ceph && s.gate.held == {host.name} && s.gate.clean
    modifies s`log, s`watch, s`gate, s`line, s`prog
    ensures On(s, host) && s.watch == old(s.watch) && s.line.disrupted == old(s.line.disrupted)
    ensures s.prog == old(s.prog).(gating := old(s.prog.gating).(cleared := true))
    ensures s.gate == old(s.gate).(held := if ok then {} else {host.name})
  {
    var r, _ := s.SshRun(host.name, UnsetNoout);
    ok := r.ok;
  }

  /** One look at the cluster. */
  method CephHealthy(s: Session, host: Host) returns (ok: bool)
    requires On(s, host) && host.ceph && s.gate.shielded && !s.gate.clean
    modifies s`log, s`watch, s`gate, s`line, s`prog
    ensures On(s, host) && s.watch == old(s.watch)
    ensures s.gate.held == old(s.gate.held) && s.gate.shielded
    ensures ok <==> s.gate.clean
    ensures s.prog == old(s.prog).(gating := s.prog.gating)
    ensures s.prog.gating == old(s.prog.gating).(asked := true, looks := old(s.prog.gating.looks) + 1)
  {
    s.Record(Look(host.name));
    var read, nodes := ReadTree(s, host);
    if !read { return false; }
    var read', pgs := ReadPgs(s, host);
    if !read' { return false; }
    var down := Ceph.DownOsdsByHost(nodes);
    if down != map[] { return false; }
    ok := Ceph.AllActiveClean(pgs);
  }

  /** Up to thirty looks for every OSD up and every placement group clean, then clears noout; else it stays set. */
  method CephAfterDeploy(s: Session, host: Host) returns (ok: bool)
    requires On(s, host) && host.ceph && s.gate.held == {host.name} && s.gate.shielded && !s.gate.clean
    requires s.prog.gating.looks == 0
    modifies s`log, s`watch, s`gate, s`line, s`prog
    ensures On(s, host) && s.watch == old(s.watch)
    ensures s.gate.held == (if ok then {} else {host.name})
    ensures s.gate.shielded && (ok ==> s.gate.clean)
    ensures s.prog == old(s.prog).(gating := s.prog.gating) && s.prog.gating.asked
    ensures !ok ==> (s.gate.clean && s.prog.gating.cleared) || (!s.gate.clean && s.prog.gating.looks == 30)
  {
    for i := 0 to CEPH_RETRIES
      invariant On(s, host) && s.watch == old(s.watch) && s.gate.held == {host.name}
      invariant s.gate.shielded && !s.gate.clean
      invariant s.prog == old(s.prog).(gating := s.prog.gating)
      invariant (i > 0 ==> s.prog.gating.asked) && s.prog.gating.looks == i
    {
      var healthy := CephHealthy(s, host);
      if healthy {
        ok := UnsetNooutOn(s, host);
        return;
      }
    }
    ok := false;
  }

  // ---- deploy.go: the entry point ----

  /** Between deploys, nothing amiss so far. */
  ghost predicate Between(s: Session)
    reads s
  {
    s.Valid() && s.line.Rides() && s.watch.lawful && !s.watch.open && s.gate.lawful
  }

  /** How the body of a deploy of `host` leaves the run. */
  ghost predicate BodyExit(s: Session, host: Host, ok: bool)
    reads s
  {
    && Begun(s, host) && s.gate.MayEnd(ok) && s.watch.MayEnd(ok) && EndFits(s.watch, s.gate, s.prog, ok)
    && (s.gate.held == {} || (s.gate.held == {host.name} && host.ceph && !ok))
  }

  method Dispatch(s: Session, host: Host, mode: Mode, path: string, flag: RebootFlag) returns (ok: bool)
    requires On(s, host) && Sheltered(s, host) && s.watch == Fresh(Job(host, path, mode), true)
    requires s.prog.tries == Progress.Tries(0, false) && s.prog.later == Progress.Later(false, 0)
    modifies s`log, s`watch, s`gate, s`line, s`prog, s`warnings
    ensures On(s, host) && s.gate == old(s.gate) && NooutWarnings(s.warnings) == NooutWarnings(old(s.warnings))
    ensures s.prog.gating == old(s.prog.gating) && Rebooting(s, flag, old(s.warnings))
    ensures s.watch.job == Job(host, path, mode)
    ensures Done(s.watch, s.prog, ok)
  {
    match mode {
      case Safe => ok := DeploySafe(s, host, path, flag);
      case Switch => ok := DeployUnsafe(s, host, false, flag);
      case Boot => ok := DeployUnsafe(s, host, true, flag);
    }
  }

  /** By a deploy's own events, it rebooted and warned as it should. */
  ghost predicate RebootsRight(host: Host, mode: Mode, path: string, flag: RebootFlag, seg: seq<Event>,
                               before: seq<Warning>, after: seq<Warning>, left: bool) {
    var w, p := Run(Fresh(Job(host, path, mode), true), seg), Progress.Run(Progress.START, seg);
    && RebootRight(w, p, flag)
    && after == before + RebootWarnings(w, p, flag) + if left then [NooutLeftSet(host.name)] else []
  }

  /**
   * The deploy of one host, Ceph gate included: its begin, the body's events and its end are what it adds to
   * the log, and the body's events let the deploy end the way it did.
   */
  method Deploy(s: Session, host: Host, mode: Mode, path: string, flag: RebootFlag)
    returns (ok: bool, ghost seg: seq<Event>)
    requires Between(s) && s.gate.held == {}
    modifies s
    ensures Between(s) && s.gate.host == host
    ensures s.gate.held == {} || (s.gate.held == {host.name} && host.ceph && !ok)
    ensures s.log == old(s.log) + [Begin(host, path, mode)] + seg + [End(host.name, path, ok)]
    ensures s.deploys == old(s.deploys) + [Begin(host, path, mode), End(host.name, path, ok)]
    ensures Run(Fresh(Job(host, path, mode), true), seg).MayEnd(ok)
    ensures RebootsRight(host, mode, path, flag, seg, old(s.warnings), s.warnings, s.gate.held != {})
    ensures NooutWarnings(s.warnings) ==
            NooutWarnings(old(s.warnings)) + if s.gate.held != {} then [host.name] else []
  {
    ok, seg := BeginAndDeploy(s, host, mode, path, flag);
    s.Finish(End(host.name, path, ok));
  }

  method BeginAndDeploy(s: Session, host: Host, mode: Mode, path: string, flag: RebootFlag)
    returns (ok: bool, ghost seg: seq<Event>)
    requires Between(s) && s.gate.held == {}
    modifies s
    ensures BodyExit(s, host, ok) && s.watch.job == Job(host, path, mode)
    ensures s.log == old(s.log) + [Begin(host, path, mode)] + seg
    ensures s.deploys == old(s.deploys) + [Begin(host, path, mode)]
    ensures RebootsRight(host, mode, path, flag, seg, old(s.warnings), s.warnings, s.gate.held != {})
    ensures s.watch == Run(Fresh(Job(host, path, mode), true), seg)
    ensures NooutWarnings(s.warnings) ==
            NooutWarnings(old(s.warnings)) + if s.gate.held != {} then [host.name] else []
  {
    Open(s, host, mode, path);
    ok := DeployBody(s, host, mode, path, flag);
    seg := s.log[|s.past|..];
    BodyRun(old(s.log), host, path, mode, seg);
    BodyProgress(old(s.log), host, path, mode, seg);
  }

  method Open(s: Session, host: Host, mode: Mode, path: string)
    requires Between(s) && s.gate.held == {}
    modifies s
    ensures Begun(s, host) && s.gate.held == {} && !s.gate.shielded && !s.gate.clean
    ensures s.watch == Fresh(Job(host, path, mode), true) && s.prog == Progress.START && !s.line.disrupted
    ensures s.past == s.log == old(s.log) + [Begin(host, path, mode)] && s.warnings == old(s.warnings)
    ensures s.deploys == old(s.deploys) + [Begin(host, path, mode)]
  {
    s.Start(Begin(host, path, mode));
  }

  lemma BodyRun(log: seq<Event>, host: Host, path: string, mode: Mode, seg: seq<Event>)
    requires WatchOf(log).lawful && !WatchOf(log).open
    ensures WatchOf(log + [Begin(host, path, mode)] + seg) == Run(Fresh(Job(host, path, mode), true), seg)
  {
    var begun := log + [Begin(host, path, mode)];
    assert begun[..|begun| - 1] == log;
    RunAppend(IDLE, begun, seg);
  }

  lemma BodyProgress(log: seq<Event>, host: Host, path: string, mode: Mode, seg: seq<Event>)
    ensures Progress.ProgressOf(log + [Begin(host, path, mode)] + seg) == Progress.Run(Progress.START, seg)
  {
    var begun := log + [Begin(host, path, mode)];
    assert begun[..|begun| - 1] == log;
    Progress.RunAppend(Progress.START, begun, seg);
  }

  method DeployBody(s: Session, host: Host, mode: Mode, path: string, flag: RebootFlag) returns (ok: bool)
    requires Begun(s, host) && s.gate.held == {} && !s.line.disrupted && !s.gate.shielded && !s.gate.clean
    requires s.prog == Progress.START
    requires s.watch == Fresh(Job(host, path, mode), true)
    modifies s`log, s`watch, s`gate, s`line, s`prog, s`warnings
    ensures BodyExit(s, host, ok) && s.watch.job == old(s.watch.job)
    ensures RebootRight(s.watch, s.prog, flag)
    ensures s.warnings == old(s.warnings) + RebootWarnings(s.watch, s.prog, flag)
                          + if s.gate.held != {} then [NooutLeftSet(host.name)] else []
    ensures NooutWarnings(s.warnings) ==
            NooutWarnings(old(s.warnings)) + if s.gate.held != {} then [host.name] else []
  {
    var alive := s.Reachable(host.name);
    if !alive { return false; }
    if host.ceph {
      ok := DeployGated(s, host, mode, path, flag);
    } else {
      ok := Dispatch(s, host, mode, path, flag);
    }
  }

  /** A storage node's deploy between the two halves of the gate. */
  method DeployGated(s: Session, host: Host, mode: Mode, path: string, flag: RebootFlag) returns (ok: bool)
    requires On(s, host) && host.ceph && s.gate.held == {} && !s.gate.shielded && !s.gate.clean
    requires s.prog == Progress.START.(probes := s.prog.probes)
    requires s.watch == Fresh(Job(host, path, mode), true)
    modifies s`log, s`watch, s`gate, s`line, s`prog, s`warnings
    ensures BodyExit(s, host, ok) && s.watch.job == old(s.watch.job)
    ensures RebootRight(s.watch, s.prog, flag)
    ensures s.warnings == old(s.warnings) + RebootWarnings(s.watch, s.prog, flag)
                          + if s.gate.held != {} then [NooutLeftSet(host.name)] else []
    ensures NooutWarnings(s.warnings) ==
            NooutWarnings(old(s.warnings)) + if s.gate.held != {} then [host.name] else []
  {
    var clear := CephBeforeDeploy(s, host);
    if !clear { return false; }
    ok := DeployUnderNoout(s, host, mode, path, flag);
  }

  method DeployUnderNoout(s: Session, host: Host, mode: Mode, path: string, flag: RebootFlag) returns (ok: bool)
    requires On(s, host) && host.ceph && s.gate.held == {host.name} && s.gate.shielded && !s.gate.clean
    requires s.watch == Fresh(Job(host, path, mode), true) && s.prog.gating.asked && s.prog.gating.looks == 0
    requires s.prog.tries == Progress.Tries(0, false) && s.prog.later == Progress.Later(false, 0)
    modifies s`log, s`watch, s`gate, s`line, s`prog, s`warnings
    ensures BodyExit(s, host, ok) && s.watch.job == old(s.watch.job)
    ensures RebootRight(s.watch, s.prog, flag)
    ensures s.warnings == old(s.warnings) + RebootWarnings(s.watch, s.prog, flag)
                          + if s.gate.held != {} then [NooutLeftSet(host.name)] else []
    ensures s.gate.held == if ok then {} else {host.name}
    ensures NooutWarnings(s.warnings) == NooutWarnings(old(s.warnings)) + if ok then [] else [host.name]
  {
    ok := Dispatch(s, host, mode, path, flag);
    ok := CloseGate(s, host, ok);
  }

  /** The second half of the gate; a noout that stays set is warned about. */
  method CloseGate(s: Session, host: Host, worked: bool) returns (ok: bool)
    requires On(s, host) && host.ceph && s.gate.held == {host.name} && s.gate.shielded && !s.gate.clean
    requires s.prog.gating.asked && s.prog.gating.looks == 0 && Done(s.watch, s.prog, worked)
    requires s.watch.job.host == host
    modifies s`log, s`watch, s`gate, s`line, s`prog, s`warnings
    ensures BodyExit(s, host, ok) && s.watch == old(s.watch) && s.prog == old(s.prog).(gating := s.prog.gating)
    ensures s.gate.held == if ok then {} else {host.name}
    ensures s.warnings == old(s.warnings) + if ok then [] else [NooutLeftSet(host.name)]
    ensures NooutWarnings(s.warnings) == NooutWarnings(old(s.warnings)) + if ok then [] else [host.name]
  {
    ok := worked;
    ghost var done := s.prog;
    if ok {
      ok := CephAfterDeploy(s, host);
      DoneGated(s.watch, done, s.prog, true);
    }
    if !ok {
      ghost var before := s.warnings;
      s.warnings := s.warnings + [NooutLeftSet(host.name)];
      NooutWarningsAppend(before, s.warnings);
    }
  }

  /** The gate's events do not matter to how the body ended. */
  lemma DoneGated(w: Watch, p: Progress.Progress, q: Progress.Progress, ok: bool)
    requires Done(w, p, ok) && q == p.(gating := q.gating)
    ensures Done(w, q, ok)
  {
  }

  /** A deploy as the run's loops make it: afterwards the host's master is closed. */
  method DeployAndHangUp(s: Session, host: Host, mode: Mode, path: string, flag: RebootFlag) returns (ok: bool)
    requires Between(s) && s.gate.held == {}
    modifies s
    ensures Between(s) && s.gate.host == host && old(s.log) <= s.log
    ensures s.gate.held == {} || (s.gate.held == {host.name} && host.ceph && !ok)
    ensures s.deploys == old(s.deploys) + [Begin(host, path, mode), End(host.name, path, ok)]
    ensures NooutWarnings(s.warnings) ==
            NooutWarnings(old(s.warnings)) + if s.gate.held != {} then [host.name] else []
  {
    ok := DeployQuietly(s, host, mode, path, flag);
    s.DropMaster(host.name);
  }

  /** The same without its particulars. */
  method DeployQuietly(s: Session, host: Host, mode: Mode, path: string, flag: RebootFlag) returns (ok: bool)
    requires Between(s) && s.gate.held == {}
    modifies s
    ensures Between(s) && s.gate.host == host && old(s.log) <= s.log
    ensures s.gate.held == {} || (s.gate.held == {host.name} && host.ceph && !ok)
    ensures s.deploys == old(s.deploys) + [Begin(host, path, mode), End(host.name, path, ok)]
    ensures NooutWarnings(s.warnings) ==
            NooutWarnings(old(s.warnings)) + if s.gate.held != {} then [host.name] else []
  {
    ghost var seg;
    ok, seg := Deploy(s, host, mode, path, flag);
  }
}
