/**
 * How a deploy may end: every way out of it, and what must have been done before, said of the disciplines' record
 * and of the counts.
 */
module Exits {
  import opened Hosts
  import opened Wire
  import opened Watchdog
  import Noout
  import opened Progress

  const ATTEMPTS := 3
  const POLLS := 12
  const LOOKS := 30

  /** After a reboot, if any: an unanswered host fails; then the node is polled until it is ready, or twelve times. */
  predicate Settled(w: Watch, p: Progress, ok: bool) {
    if w.post.away then p.later.sent && p.probes.probed && p.later.polls == 0 && !ok
    else if w.job.host.k8s then
      p.later.polls >= 1 && (ok <==> w.post.ready) && (!ok ==> p.later.polls == POLLS)
    else ok
  }

  /** From the verified activation on: the profile, then the boot entry, then the checks. */
  predicate Kept(w: Watch, p: Progress, ok: bool) {
    if w.kept.profile.Failed? then w.kept.boot.Untried? && !ok
    else w.kept.profile.Acked? && !w.kept.boot.Untried? && if w.kept.boot.Failed? then !ok else Settled(w, p, ok)
  }

  /** The ways out of an activation, in the order they are come to. */
  predicate Activated(w: Watch, p: Progress, ok: bool) {
    if !w.trial.settled then p.probes.probed && p.tries.attempts == 0 && !ok
    else if !w.Connected() then p.tries.attempts == ATTEMPTS && !ok
    else
      && p.tries.looked
      && if w.contact.seen == "" || w.contact.seen != w.job.plan then w.kept.profile.Untried? && !ok
         else Kept(w, p, ok)
  }

  predicate SafeDone(w: Watch, p: Progress, ok: bool) {
    SafeExit(w, ok) &&
    match w.timer.arm
    case Unarmed => Settled(w, p, ok)
    case Refused => !ok
    case Armed => Activated(w, p, ok)
  }

  lemma KeptIsDone(w: Watch, p: Progress, ok: bool)
    requires w.lawful && w.job.mode.Safe? && w.Armed() && w.trial.tested && w.trial.settled && w.Connected()
    requires w.contact.seen == w.job.plan != "" && w.timer.disarmed && p.tries.looked && Kept(w, p, ok)
    ensures SafeDone(w, p, ok)
  {
  }

  predicate UnsafeDone(w: Watch, p: Progress, ok: bool) {
    && UnsafeExit(w, ok) && !w.kept.rebuilt.Untried?
    && if w.kept.rebuilt.Failed? then !ok else Settled(w, p, ok)
  }

  /** The body of the deploy ended, and so. */
  predicate Done(w: Watch, p: Progress, ok: bool) {
    if w.job.mode.Safe? then SafeDone(w, p, ok) else UnsafeDone(w, p, ok)
  }

  /** Nothing but probes and the gate's questions. */
  predicate Untouched(w: Watch) { w == Fresh(w.job, w.lawful) }

  /** The gate's second half: skipped after a failure, else up to thirty looks and a clear. */
  predicate GateDone(g: Noout.Gate, p: Progress, worked: bool, ok: bool) {
    if !worked then p.gating.looks == 0 && !ok
    else
      && (ok <==> g.held == {})
      && (!ok ==> p.gating.cleared || (p.gating.looks == LOOKS && !g.clean))
  }

  /** Exactly how a deploy may end. */
  predicate EndFits(w: Watch, g: Noout.Gate, p: Progress, ok: bool) {
    if !p.probes.answered then !ok && Untouched(w) && !p.gating.asked
    else if !w.job.host.ceph then Done(w, p, ok)
    else
      && p.gating.asked
      && if !g.shielded then !ok && Untouched(w) && (g.passed ==> p.gating.raised)
         else || (Done(w, p, true) && GateDone(g, p, true, ok))
              || (Done(w, p, false) && GateDone(g, p, false, ok))
  }

  /** Every deploy in the log ended so. */
  ghost predicate EndsFit(log: seq<Event>) {
    log == [] ||
    var front, e := log[..|log| - 1], log[|log| - 1];
    EndsFit(front) && (e.End? ==> EndFits(WatchOf(front), Noout.GateOf(front), ProgressOf(front), e.ok))
  }

  lemma {:induction false} UnmarkedFits(past: seq<Event>, log: seq<Event>)
    requires past <= log && EndsFit(past) && Deploys(log) == Deploys(past)
    ensures EndsFit(log)
  {
    if |past| < |log| {
      var n := |log| - 1;
      DeploysGrow(past, log[..n]);
      UnmarkedFits(past, log[..n]);
    } else {
      assert past == log;
    }
  }

  lemma {:induction false} DeploysGrow(past: seq<Event>, log: seq<Event>)
    requires past <= log
    ensures |Deploys(past)| <= |Deploys(log)|
    ensures |Deploys(past)| == |Deploys(log)| ==> Deploys(past) == Deploys(log)
  {
    if |past| < |log| { DeploysGrow(past, log[..|log| - 1]); } else { assert past == log; }
  }

  lemma {:induction false} EndFitsAt(log: seq<Event>, e: nat)
    requires EndsFit(log) && e < |log| && log[e].End?
    ensures EndFits(WatchOf(log[..e]), Noout.GateOf(log[..e]), ProgressOf(log[..e]), log[e].ok)
  {
    var n := |log| - 1;
    if e < n {
      EndFitsAt(log[..n], e);
      assert log[..n][..e] == log[..e];
    }
  }
}
