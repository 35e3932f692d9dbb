/**
 * Why a deploy returned false, read off its events: what each cause looks like, and how the disciplines' record of a
 * deploy is read off them.
 */
module Causes {
  import opened Hosts
  import opened Wire
  import opened Watchdog
  import opened WatchdogTheorems
  import P = Progress
  import Noout
  import opened Exits

  datatype Kind =
    | Answer | FreshAnswer | Arming | Disarming | Testing | Trying | Reading | Profiling | Keeping | Booting
    | Rebuilding | Rebooting | Polling
    | Treeing | Grouping | Raising | Shielding | Looking | Clearing | Unshielding

  /** What kind of event it is. */
  predicate Is(e: Event, k: Kind) {
    match k
    case Trying => e.Attempt?
    case Looking => e.Look?
    case Answer => e.Sent? && e.cmd.Echo? && e.reply.ok && e.reply.body == Text("ok")
    case FreshAnswer => e.Sent? && e.cmd.Echo? && e.via.Direct? && e.reply.ok && e.reply.body == Text("ok")
    case Arming => e.Sent? && e.cmd.Arm?
    case Disarming => e.Sent? && e.cmd.Disarm?
    case Testing => e.Sent? && e.cmd.SwitchTest?
    case Reading => e.Sent? && e.cmd.ReadActive?
    case Profiling => e.Sent? && e.cmd.ReadProfile?
    case Keeping => e.Sent? && e.cmd.SetProfile?
    case Booting => e.Sent? && e.cmd.SwitchBoot?
    case Rebuilding => e.Sent? && e.cmd.NixosRebuild?
    case Rebooting => e.Sent? && e.cmd.Reboot?
    case Polling => e.Sent? && e.cmd.NodeReady?
    case Treeing => e.Sent? && e.cmd.OsdTree?
    case Grouping => e.Sent? && e.cmd.PgStat?
    case Raising => e.Sent? && e.cmd.SetNoout?
    case Shielding => e.Sent? && e.cmd.SetNoout? && e.reply.ok
    case Clearing => e.Sent? && e.cmd.UnsetNoout?
    case Unshielding => e.Sent? && e.cmd.UnsetNoout? && e.reply.ok
  }

  /** The latest event of the kind, or -1. */
  function Latest(seg: seq<Event>, k: Kind): (r: int)
    ensures -1 <= r < |seg|
    ensures r >= 0 ==> Is(seg[r], k)
    ensures forall j :: r < j < |seg| ==> !Is(seg[j], k)
  {
    if seg == [] then -1
    else if Is(seg[|seg| - 1], k) then |seg| - 1
    else Latest(seg[..|seg| - 1], k)
  }

  function Count(seg: seq<Event>, k: Kind): nat {
    if seg == [] then 0 else Count(seg[..|seg| - 1], k) + if Is(seg[|seg| - 1], k) then 1 else 0
  }

  /** There was such a command, and the latest of them was not acknowledged. */
  predicate Unacked(seg: seq<Event>, k: Kind) {
    var r := Latest(seg, k);
    r >= 0 && seg[r].Sent? && !seg[r].reply.ok
  }

  predicate Acknowledged(seg: seq<Event>, k: Kind) {
    var r := Latest(seg, k);
    r >= 0 && seg[r].Sent? && seg[r].reply.ok
  }

  /** What the latest such command printed. */
  function Printed(seg: seq<Event>, k: Kind): string {
    var r := Latest(seg, k);
    if r >= 0 && seg[r].Sent? then seg[r].reply.Said() else ""
  }

  // ---- The causes ----

  /** No probe was answered. */
  predicate Unanswered(seg: seq<Event>) { Latest(seg, Answer) < 0 }

  /** The test was not acknowledged and the host did not answer a fresh probe after it. */
  predicate TestLost(seg: seq<Event>) {
    Unacked(seg, Testing) && Latest(seg, FreshAnswer) < Latest(seg, Testing)
  }

  /** The last attempt passed every check, in order. */
  ghost predicate FullAttempt(seg: seq<Event>, host: Host) {
    exists m, passes :: AttemptFrom(seg, host, m, passes) && |passes| == |host.checks|
  }

  /** Three attempts, the last of which did not pass every check. */
  ghost predicate AttemptsFailed(seg: seq<Event>, host: Host) {
    Count(seg, Trying) == 3 && !FullAttempt(seg, host)
  }

  /** The running path was asked for after the last attempt. */
  predicate ReadBack(seg: seq<Event>) { Latest(seg, Reading) > Latest(seg, Trying) >= 0 }

  /** After a full attempt the path read back was not the plan, or none. */
  ghost predicate WrongPath(seg: seq<Event>, job: Job) {
    FullAttempt(seg, job.host) && ReadBack(seg) && (Printed(seg, Reading) == "" || Printed(seg, Reading) != job.plan)
  }

  /** The host did not answer a fresh probe after the reboot. */
  predicate RebootUnanswered(seg: seq<Event>) {
    Latest(seg, Rebooting) >= 0 && Latest(seg, FreshAnswer) < Latest(seg, Rebooting)
  }

  /** The last answer about the node, after any reboot, was that it is Ready. */
  predicate SaidReady(seg: seq<Event>) {
    var r := Latest(seg, Polling);
    r > Latest(seg, Rebooting) && seg[r].Sent? && seg[r].reply.ok && seg[r].reply.body == Text("True")
  }

  /** The node was asked for twelve times and last was not Ready. */
  predicate NotReady(seg: seq<Event>, host: Host) { host.k8s && Count(seg, Polling) == 12 && !SaidReady(seg) }

  /** What fails the body of a deploy. */
  ghost predicate BodyFailed(seg: seq<Event>, job: Job) {
    || (job.mode.Safe? &&
         (|| Unacked(seg, Arming) || TestLost(seg) || AttemptsFailed(seg, job.host) || WrongPath(seg, job)
          || Unacked(seg, Keeping) || Unacked(seg, Booting)))
    || (!job.mode.Safe? && Unacked(seg, Rebuilding))
    || RebootUnanswered(seg) || NotReady(seg, job.host)
  }

  /** A storage node's gate: the tree shows something down elsewhere, or the set was not acknowledged. */
  ghost predicate GateRefused(seg: seq<Event>, host: Host) {
    && host.ceph && Latest(seg, Shielding) < 0 && Latest(seg, Treeing) >= 0
    && (Latest(seg, Raising) < 0 ==> !Noout.OthersUp(seg[Latest(seg, Treeing)], host.name))
  }

  /** The last look at the cluster found every OSD up and then every placement group clean. */
  ghost predicate LookedClean(seg: seq<Event>) {
    var t, g := Latest(seg, Treeing), Latest(seg, Grouping);
    0 <= t < g && Noout.TreeUp(seg[t]) && Noout.PgsClean(seg[g])
  }

  /** The noout that was set is still set: its clear failed, or thirty looks were not clean and none was sent. */
  ghost predicate GateStuck(seg: seq<Event>, host: Host) {
    && host.ceph && Latest(seg, Unshielding) < Latest(seg, Shielding)
    && (Latest(seg, Clearing) < 0 ==> Count(seg, Looking) == 30 && !LookedClean(seg))
  }

  /** Everything that fails a deploy. */
  ghost predicate HasCause(seg: seq<Event>, job: Job) {
    Unanswered(seg) || GateRefused(seg, job.host) || BodyFailed(seg, job) || GateStuck(seg, job.host)
  }

  // ---- Reading the discipline's record off the events ----

  ghost predicate Unmarked(seg: seq<Event>) { forall k :: 0 <= k < |seg| ==> !Marks(seg[k]) }

  function AtAny(job: Job, seg: seq<Event>): Watch { Watchdog.Run(Fresh(job, true), seg) }

  function Far(seg: seq<Event>): P.Progress { P.Run(P.START, seg) }

  function TryOf(seg: seq<Event>, k: Kind): Try {
    if Latest(seg, k) < 0 then Untried else if Acknowledged(seg, k) then Acked else Failed
  }

  function ArmOf(seg: seq<Event>): Watchdog.Arming {
    if Latest(seg, Arming) < 0 then Unarmed else if Acknowledged(seg, Arming) then Armed else Refused
  }

  lemma Cut(seg: seq<Event>)
    requires Unmarked(seg) && seg != []
    ensures Unmarked(seg[..|seg| - 1]) && !Marks(seg[|seg| - 1])
  {
  }

  lemma {:induction false} JobKept(job: Job, seg: seq<Event>)
    requires Unmarked(seg)
    ensures AtAny(job, seg).job == job
  {
    if seg != [] { JobKept(job, seg[..|seg| - 1]); }
  }

  lemma {:induction false} ArmLink(job: Job, seg: seq<Event>)
    requires Unmarked(seg)
    ensures AtAny(job, seg).timer.arm == ArmOf(seg)
  {
    if seg != [] {
      Cut(seg);
      ArmLink(job, seg[..|seg| - 1]);
    }
  }

  lemma {:induction false} KeepLink(job: Job, seg: seq<Event>)
    requires Unmarked(seg)
    ensures AtAny(job, seg).kept.profile == TryOf(seg, Keeping)
  {
    if seg != [] {
      Cut(seg);
      KeepLink(job, seg[..|seg| - 1]);
    }
  }

  lemma {:induction false} BootLink(job: Job, seg: seq<Event>)
    requires Unmarked(seg)
    ensures AtAny(job, seg).kept.boot == TryOf(seg, Booting)
  {
    if seg != [] {
      Cut(seg);
      BootLink(job, seg[..|seg| - 1]);
    }
  }

  lemma {:induction false} RebuildLink(job: Job, seg: seq<Event>)
    requires Unmarked(seg)
    ensures AtAny(job, seg).kept.rebuilt == TryOf(seg, Rebuilding)
  {
    if seg != [] {
      Cut(seg);
      RebuildLink(job, seg[..|seg| - 1]);
    }
  }

  lemma {:induction false} DisarmLink(job: Job, seg: seq<Event>)
    requires Unmarked(seg)
    ensures AtAny(job, seg).timer.disarmed <==> Latest(seg, Disarming) >= 0
  {
    if seg != [] {
      Cut(seg);
      DisarmLink(job, seg[..|seg| - 1]);
    }
  }

  lemma TrialStep(w: Watch, e: Event)
    requires !Marks(e)
    ensures Step(w, e).trial.tested <==> w.trial.tested || Is(e, Testing)
    ensures Step(w, e).trial.settled <==>
            if Is(e, Testing) then e.Sent? && e.reply.ok
            else w.trial.settled || (w.trial.tested && Is(e, FreshAnswer))
  {
  }

  lemma {:induction false} SettledLink(job: Job, seg: seq<Event>)
    requires Unmarked(seg)
    ensures AtAny(job, seg).trial.tested <==> Latest(seg, Testing) >= 0
    ensures AtAny(job, seg).trial.settled <==> Latest(seg, Testing) >= 0 && !TestLost(seg)
  {
    if seg != [] {
      Cut(seg);
      TrialStep(AtAny(job, seg[..|seg| - 1]), seg[|seg| - 1]);
      SettledLink(job, seg[..|seg| - 1]);
    }
  }

  lemma PostStep(w: Watch, e: Event)
    requires !Marks(e)
    ensures Step(w, e).post.away <==> Is(e, Rebooting) || (w.post.away && !Is(e, FreshAnswer))
    ensures Step(w, e).post.ready <==>
            if Is(e, Polling) then e.Sent? && e.reply.ok && e.reply.body == Text("True")
            else w.post.ready && !Is(e, Rebooting)
  {
  }

  lemma {:induction false} AwayLink(job: Job, seg: seq<Event>)
    requires Unmarked(seg)
    ensures AtAny(job, seg).post.away <==> RebootUnanswered(seg)
  {
    if seg != [] {
      Cut(seg);
      PostStep(AtAny(job, seg[..|seg| - 1]), seg[|seg| - 1]);
      AwayLink(job, seg[..|seg| - 1]);
    }
  }

  lemma {:induction false} ReadyLink(job: Job, seg: seq<Event>)
    requires Unmarked(seg)
    ensures AtAny(job, seg).post.ready <==> SaidReady(seg)
  {
    if seg != [] {
      Cut(seg);
      PostStep(AtAny(job, seg[..|seg| - 1]), seg[|seg| - 1]);
      ReadyLink(job, seg[..|seg| - 1]);
    }
  }

  lemma {:induction false} AnswerLink(seg: seq<Event>)
    requires Unmarked(seg)
    ensures Far(seg).probes.answered <==> !Unanswered(seg)
  {
    if seg != [] {
      Cut(seg);
      AnswerLink(seg[..|seg| - 1]);
    }
  }

  lemma {:induction false} AttemptsLink(seg: seq<Event>)
    requires Unmarked(seg)
    ensures Far(seg).tries.attempts == Count(seg, Trying)
  {
    if seg != [] {
      Cut(seg);
      AttemptsLink(seg[..|seg| - 1]);
    }
  }

  lemma {:induction false} LookedLink(seg: seq<Event>)
    requires Unmarked(seg)
    ensures Far(seg).tries.looked <==> Latest(seg, Reading) > Latest(seg, Trying)
  {
    if seg != [] {
      Cut(seg);
      LookedLink(seg[..|seg| - 1]);
    }
  }

  lemma {:induction false} PollsLink(seg: seq<Event>)
    requires Unmarked(seg)
    ensures Far(seg).later.polls == Count(seg, Polling)
  {
    if seg != [] {
      Cut(seg);
      PollsLink(seg[..|seg| - 1]);
    }
  }

  lemma {:induction false} AskedLink(seg: seq<Event>)
    requires Unmarked(seg)
    ensures Far(seg).gating.asked <==> Latest(seg, Treeing) >= 0
  {
    if seg != [] {
      Cut(seg);
      AskedLink(seg[..|seg| - 1]);
    }
  }

  lemma {:induction false} RaisedLink(seg: seq<Event>)
    requires Unmarked(seg)
    ensures Far(seg).gating.raised <==> Latest(seg, Raising) >= 0
  {
    if seg != [] {
      Cut(seg);
      RaisedLink(seg[..|seg| - 1]);
    }
  }

  lemma {:induction false} LooksLink(seg: seq<Event>)
    requires Unmarked(seg)
    ensures Far(seg).gating.looks == Count(seg, Looking)
  {
    if seg != [] {
      Cut(seg);
      LooksLink(seg[..|seg| - 1]);
    }
  }

  lemma {:induction false} ClearedLink(seg: seq<Event>)
    requires Unmarked(seg)
    ensures Far(seg).gating.cleared <==> Latest(seg, Clearing) >= 0
  {
    if seg != [] {
      Cut(seg);
      ClearedLink(seg[..|seg| - 1]);
    }
  }

  // ---- The connectivity attempt ----

  /** The events of one deploy, of any mode, within the discipline. */
  ghost predicate Within(job: Job, seg: seq<Event>) { Unmarked(seg) && AtAny(job, seg).lawful }

  lemma WithinFront(job: Job, seg: seq<Event>)
    requires Within(job, seg) && seg != []
    ensures Within(job, seg[..|seg| - 1]) && !Marks(seg[|seg| - 1])
    ensures AtAny(job, seg) == Step(AtAny(job, seg[..|seg| - 1]), seg[|seg| - 1])
    ensures AtAny(job, seg[..|seg| - 1]).job == job && AtAny(job, seg).job == job
  {
    Cut(seg);
    JobKept(job, seg);
    JobKept(job, seg[..|seg| - 1]);
  }

  lemma ContactStep(w: Watch, e: Event)
    requires Step(w, e).lawful && !Marks(e)
    ensures Step(w, e).contact.attempt <==> w.contact.attempt || e.Attempt?
    ensures !e.Attempt? ==> Step(w, e).contact.streak >= w.contact.streak
    ensures w.contact.streak <= |w.job.host.checks| ==> Step(w, e).contact.streak <= |w.job.host.checks|
    ensures CheckPassed(e, w.job.host, w.contact.streak) ==> Step(w, e).contact.streak == w.contact.streak + 1
    ensures w.Armed() ==> Step(w, e).Armed()
    ensures e.Attempt? ==> w.Armed()
  {
  }

  lemma SeenStep(w: Watch, e: Event)
    requires Step(w, e).lawful && !Marks(e) && w.Armed() && !e.Attempt?
    ensures Step(w, e).contact.seen == if Is(e, Reading) && e.Sent? then e.reply.Said() else w.contact.seen
  {
  }

  lemma {:induction false} AttemptLink(job: Job, seg: seq<Event>)
    requires Within(job, seg)
    ensures AtAny(job, seg).contact.attempt <==> Latest(seg, Trying) >= 0
    ensures AtAny(job, seg).contact.streak <= |job.host.checks|
    ensures Latest(seg, Trying) >= 0 ==> AtAny(job, seg).Armed()
    ensures ReadBack(seg) ==> AtAny(job, seg).contact.seen == Printed(seg, Reading)
  {
    if seg != [] {
      var front, e := seg[..|seg| - 1], seg[|seg| - 1];
      WithinFront(job, seg);
      AttemptLink(job, front);
      ContactStep(AtAny(job, front), e);
      if Latest(front, Trying) >= 0 && !e.Attempt? { SeenStep(AtAny(job, front), e); }
    }
  }

  /** Without its last event an attempt has the same passes, or all but the last. */
  lemma AttemptShrinks(seg: seq<Event>, host: Host, m: nat, passes: seq<nat>) returns (before: seq<nat>)
    requires AttemptFrom(seg, host, m, passes) && m < |seg| - 1
    ensures AttemptFrom(seg[..|seg| - 1], host, m, before)
    ensures before == passes || (|before| == |passes| - 1 && CheckPassed(seg[|seg| - 1], host, |before|))
  {
    var n, c := |seg| - 1, |passes| - 1;
    before := if passes != [] && passes[c] == n then passes[..c] else passes;
    forall d | 0 <= d < |before| ensures m < before[d] < n && CheckPassed(seg[..n][before[d]], host, d) {
      assert CheckPassed(seg[passes[d]], host, d);
      if d < c { assert passes[d] < passes[c]; }
    }
    assert seg[..n][m] == seg[m];
    if before != passes { assert CheckPassed(seg[passes[c]], host, c); }
  }

  lemma {:induction false} StreakLink(job: Job, seg: seq<Event>, m: nat, passes: seq<nat>)
    requires Within(job, seg) && AttemptFrom(seg, job.host, m, passes)
    ensures AtAny(job, seg).contact.attempt && AtAny(job, seg).contact.streak >= |passes|
  {
    var n := |seg| - 1;
    WithinFront(job, seg);
    ContactStep(AtAny(job, seg[..n]), seg[n]);
    if passes != [] { assert m < passes[0] < |seg|; }
    if m < n {
      var before := AttemptShrinks(seg, job.host, m, passes);
      StreakLink(job, seg[..n], m, before);
    }
  }

  lemma {:induction false} FindStreak(job: Job, seg: seq<Event>) returns (m: nat, passes: seq<nat>)
    requires Within(job, seg) && AtAny(job, seg).contact.attempt
    ensures AttemptFrom(seg, job.host, m, passes) && |passes| == AtAny(job, seg).contact.streak
  {
    var n := |seg| - 1;
    var front, e := seg[..n], seg[n];
    WithinFront(job, seg);
    if e.Attempt? {
      m, passes := n, [];
    } else {
      m, passes := FindStreak(job, front);
      AttemptGrows(seg, job.host, m, passes);
      NextPass(AtAny(job, front), e);
      if AtAny(job, seg).contact.streak != AtAny(job, front).contact.streak { passes := passes + [n]; }
    }
  }

  lemma ConnectedLink(job: Job, seg: seq<Event>)
    requires Within(job, seg)
    ensures AtAny(job, seg).Connected() <==> FullAttempt(seg, job.host)
  {
    AttemptLink(job, seg);
    JobKept(job, seg);
    if AtAny(job, seg).Connected() {
      var m, passes := FindStreak(job, seg);
    }
    if FullAttempt(seg, job.host) {
      var m, passes :| AttemptFrom(seg, job.host, m, passes) && |passes| == |job.host.checks|;
      StreakLink(job, seg, m, passes);
    }
  }
}
