/** The discipline of one safe deploy: what must have been seen before each command may be sent. */
module Watchdog {
  import opened Hosts
  import opened Wire

  datatype Arming = Unarmed | Refused | Armed
  datatype Try = Untried | Failed | Acked

  /** What is being deployed, and how. */
  datatype Job = Job(host: Host, plan: string, mode: Mode)
  {
    predicate Guarded() { mode.Safe? }
  }

  /** The two paths read before arming. */
  datatype Start = Start(prior: string, profile: string)

  datatype Timer = Timer(
    swept: bool,        // stale units were stopped
    arm: Arming,
    unit: string,
    disarmed: bool)     // a disarm was sent

  datatype Trial = Trial(
    tested: bool,       // test activation sent
    settled: bool,      // ... and acknowledged, or the host probed alive after it
    stuck: bool)        // ... unacknowledged, its unit not cleared yet

  datatype Contact = Contact(
    attempt: bool,
    streak: nat,        // checks passed in a row in the current connectivity attempt
    seen: string)       // active path read after the attempt passed

  datatype Lasting = Lasting(profile: Try, boot: Try, rebuilt: Try)

  datatype Aftermath = Aftermath(
    away: bool,         // a reboot was sent and the host has not answered since
    ready: bool)        // the node's last status was Ready

  /** What the events of the current deploy amount to. */
  datatype Watch = Watch(
    job: Job, start: Start, timer: Timer, trial: Trial, contact: Contact, kept: Lasting, post: Aftermath,
    open: bool,         // between the deploy's begin and its end
    lawful: bool)
  {
    predicate Connected() { contact.attempt && contact.streak == |job.host.checks| }

    predicate Armed() { timer.arm.Armed? }

    predicate Verified() {
      Armed() && trial.tested && Connected() && contact.seen == job.plan && contact.seen != "" && !timer.disarmed
    }

    /** The switch did not take: the host still runs what it ran before. */
    predicate NotTaken() {
      && Armed() && trial.tested && Connected()
      && contact.seen != "" && contact.seen == start.prior && contact.seen != job.plan
    }

    predicate UpToDate() { job.plan != "" && start.prior == job.plan && start.profile == job.plan }

    predicate MayDisarm() {
      || (timer.arm.Refused? && !trial.tested)
      || (NotTaken() && kept.profile.Untried?)
      || (Armed() && !kept.profile.Untried?)
    }

    predicate MayReboot() {
      if !job.Guarded() then kept.rebuilt.Acked?
      else if timer.arm.Unarmed? then UpToDate()
      else kept.boot.Acked? && timer.disarmed
    }

    /** May the deploy end now, and so? */
    predicate MayEnd(ok: bool) {
      if ok then Dispatched(this, true)
      else this == Fresh(job, lawful) || Dispatched(this, false) || (job.host.ceph && Dispatched(this, true))
    }

    /** May `cmd` be sent now? */
    predicate Allowed(cmd: Command) {
      match cmd
      case Check(k, kind) => contact.attempt && k < |job.host.checks| && kind == job.host.checks[k]
      case StopStale => job.Guarded() && timer.arm.Unarmed?
      case Arm(_) => job.Guarded() && timer.arm.Unarmed? && timer.swept && !UpToDate()
      case SwitchTest(p) => p == job.plan && Armed() && !trial.tested && !timer.disarmed
      case ClearUnit => Verified()
      case SetProfile(p) => p == job.plan && Verified() && !trial.stuck && kept.boot.Untried?
      case SwitchBoot(p) => p == job.plan && Verified() && kept.profile.Acked?
      case Disarm(u) => u == timer.unit && MayDisarm()
      case NixosRebuild(stage, _) =>
        kept.rebuilt.Untried? && (if stage then job.mode == Boot else job.mode == Switch)
      case ReadActive => timer.arm.Unarmed? || Connected()
      case KernelQuery(_) => MayReboot()
      case NodeReady => !post.ready
      case Reboot => !post.away && MayReboot()
      case _ => true
    }

    function Note(via: Via, cmd: Command, reply: Reply): Watch {
      match cmd
      case Echo =>
        if via.Direct? && reply.Echoed() then Answered(this) else this
      case Check(k, _) =>
        if Passed(cmd, reply) && k == contact.streak then this.(contact := contact.(streak := k + 1)) else this
      case ReadActive =>
        if timer.arm.Unarmed? then this.(start := start.(prior := reply.Said()))
        else if Connected() then this.(contact := contact.(seen := reply.Said())) else this
      case ReadProfile => if timer.arm.Unarmed? then this.(start := start.(profile := reply.Said())) else this
      case StopStale => this.(timer := timer.(swept := true))
      case ClearUnit => this.(trial := trial.(stuck := false))
      case Arm(u) => this.(timer := timer.(unit := u, arm := if reply.ok then Arming.Armed else Refused))
      case Disarm(_) => this.(timer := timer.(disarmed := true))
      case SwitchTest(_) => this.(trial := Trial(true, reply.ok, !reply.ok))
      case SetProfile(_) => this.(kept := kept.(profile := Tried(reply)))
      case SwitchBoot(_) => this.(kept := kept.(boot := Tried(reply)))
      case NixosRebuild(_, _) => this.(kept := kept.(rebuilt := Tried(reply)))
      case Reboot => this.(post := Aftermath(true, false))
      case NodeReady => this.(post := post.(ready := reply.ok && reply.body == Text("True")))
      case _ => this
    }
  }

  /** A fresh connection got an answer. */
  function Answered(w: Watch): Watch {
    w.(trial := w.trial.(settled := w.trial.settled || w.trial.tested), post := w.post.(away := false))
  }

  function Tried(reply: Reply): Try { if reply.ok then Acked else Failed }

  function Fresh(job: Job, lawful: bool): Watch {
    Watch(job, Start("", ""), Timer(false, Unarmed, "", false), Trial(false, false, false),
          Contact(false, 0, ""), Lasting(Untried, Untried, Untried), Aftermath(false, false), true, lawful)
  }

  /** Before the first deploy. */
  const IDLE := Fresh(Job(Host("", 0, false, false, [], false, []), "", Safe), true).(open := false)

  function Step(w: Watch, e: Event): Watch {
    match e
    case Begin(h, p, m) => Fresh(Job(h, p, m), w.lawful && !w.open)
    case End(n, p, ok) =>
      w.(open := false,
         lawful := w.lawful && w.open && n == w.job.host.name && p == w.job.plan && w.MayEnd(ok))
    case Attempt(n) =>
      w.(contact := Contact(true, 0, ""),
         lawful := w.lawful && w.open && n == w.job.host.name
                   && w.trial.settled && w.Armed() && !w.timer.disarmed && !w.Connected())
    case Sent(n, via, cmd, reply, _, _) =>
      w.Note(via, cmd, reply).(lawful := w.lawful && w.open && n == w.job.host.name && w.Allowed(cmd))
    case _ => w
  }

  function Steps(w: Watch, x: Exchange): Watch {
    if x.Once? then Step(w, x.only) else Step(Step(w, x.first), x.last)
  }

  function Run(w: Watch, seg: seq<Event>): Watch {
    if seg == [] then w else Step(Run(w, seg[..|seg| - 1]), seg[|seg| - 1])
  }

  lemma {:induction false} RunAppend(w: Watch, a: seq<Event>, b: seq<Event>)
    ensures Run(w, a + b) == Run(Run(w, a), b)
  {
    if b == [] {
      assert a + b == a;
    } else {
      RunAppend(w, a, b[..|b| - 1]);
      assert (a + b)[..|a + b| - 1] == a + b[..|b| - 1];
    }
  }

  function WatchOf(log: seq<Event>): Watch { Run(IDLE, log) }

  /** How a safe deploy may end, exactly. */
  predicate SafeExit(w: Watch, ok: bool) {
    && w.lawful && w.job.Guarded()
    && (w.timer.arm.Unarmed? ==> w.UpToDate())
    && (w.timer.arm.Refused? ==> !w.trial.tested && w.timer.disarmed && !ok)
    && (w.Armed() ==> w.trial.tested)
    && (w.Armed() && w.kept.profile.Untried? ==> (w.timer.disarmed <==> w.NotTaken()))
    && (!w.kept.profile.Untried? ==> w.timer.disarmed)
    && (ok <==> (w.timer.arm.Unarmed? || w.kept.boot.Acked?) && !w.post.away && (w.job.host.k8s ==> w.post.ready))
  }

  predicate UnsafeExit(w: Watch, ok: bool) {
    && w.lawful && !w.job.Guarded() && w.timer.arm.Unarmed?
    && (ok <==> w.kept.rebuilt.Acked? && !w.post.away && (w.job.host.k8s ==> w.post.ready))
  }

  predicate Dispatched(w: Watch, ok: bool) {
    if w.job.Guarded() then SafeExit(w, ok) else UnsafeExit(w, ok)
  }
}
