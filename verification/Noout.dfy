/** The Ceph rolling gate over a whole run: which hosts' noout the run was told is set. */
module Noout {
  import opened Hosts
  import opened Wire
  import Ceph

  datatype Gate = Gate(
    host: Host,
    held: set<string>,    // told set, not told cleared
    shielded: bool,       // told set during the current deploy
    passed: bool,         // last OSD tree showed nothing down on another host
    treeUp: bool,         // last OSD tree showed nothing down at all
    clean: bool,          // ... and the placement groups read after it were all clean
    lawful: bool)
  {
    /** May `cmd` be sent now? A storage node is only disrupted under its own acknowledged noout. */
    predicate Allowed(cmd: Command) {
      match cmd
      case OsdTree => host.ceph && !clean
      case PgStat => host.ceph && !clean
      case SetNoout => host.ceph && passed && held == {}
      case UnsetNoout => host.ceph && clean
      case Arm(_) => host.ceph ==> host.name in held
      case SwitchTest(_) => host.ceph ==> host.name in held
      case NixosRebuild(_, _) => host.ceph ==> host.name in held
      case Reboot => host.ceph ==> host.name in held
      case _ => true
    }

    /** A storage node's deploy ends well only with its own noout told set and told cleared, after a clean look. */
    predicate MayEnd(ok: bool) {
      ok && host.ceph ==> shielded && clean && held == {}
    }

    ghost function Note(cmd: Command, reply: Reply): Gate {
      match cmd
      case OsdTree =>
        var read := reply.ok && reply.body.Tree?;
        this.(passed := read && !Ceph.DownElsewhere(reply.body.nodes, host.name),
              treeUp := read && !Ceph.SomeDown(reply.body.nodes), clean := false)
      case PgStat => this.(clean := treeUp && reply.ok && reply.body.Pgs? && Ceph.AllClean(reply.body.pgs))
      case SetNoout => if reply.ok then this.(held := held + {host.name}, shielded := true) else this
      case UnsetNoout => if reply.ok then this.(held := held - {host.name}) else this
      case _ => this
    }
  }

  ghost const IDLE := Gate(Host("", 0, false, false, [], false, []), {}, false, false, false, false, true)

  ghost function Step(g: Gate, e: Event): Gate {
    match e
    case Begin(h, _, _) => Gate(h, g.held, false, false, false, false, g.lawful && g.held == {})
    case Look(n) => g.(lawful := g.lawful && n == g.host.name && g.shielded && !g.clean)
    case End(n, _, ok) => g.(lawful := g.lawful && n == g.host.name && g.MayEnd(ok))
    case Sent(n, _, cmd, reply, _, _) => g.Note(cmd, reply).(lawful := g.lawful && n == g.host.name && g.Allowed(cmd))
    case _ => g
  }

  ghost function Steps(g: Gate, x: Exchange): Gate {
    if x.Once? then Step(g, x.only) else Step(Step(g, x.first), x.last)
  }

  ghost function GateOf(log: seq<Event>): Gate {
    if log == [] then IDLE else Step(GateOf(log[..|log| - 1]), log[|log| - 1])
  }

  // ---- The same, said of the events themselves ----

  predicate ToldSet(e: Event, n: string) { e.Sent? && e.name == n && e.cmd.SetNoout? && e.reply.ok }

  predicate ToldCleared(e: Event, n: string) { e.Sent? && e.name == n && e.cmd.UnsetNoout? && e.reply.ok }

  /** After the events of `log`, the run was told host `n`'s noout is set and not told it is cleared. */
  ghost predicate Held(log: seq<Event>, n: string) {
    exists i :: 0 <= i < |log| && ToldSet(log[i], n) && forall j :: i < j < |log| ==> !ToldCleared(log[j], n)
  }

  /** Unlawfulness is final. */
  lemma {:induction false} LawfulPrefix(log: seq<Event>, k: nat)
    requires k <= |log| && GateOf(log).lawful
    ensures GateOf(log[..k]).lawful
  {
    if k < |log| {
      LawfulPrefix(log[..|log| - 1], k);
      assert log[..|log| - 1][..k] == log[..k];
    } else {
      assert log[..k] == log;
    }
  }

  lemma HeldStep(log: seq<Event>, e: Event, n: string)
    ensures Held(log + [e], n) <==> ToldSet(e, n) || (Held(log, n) && !ToldCleared(e, n))
  {
    var log' := log + [e];
    assert log'[|log|] == e;
    if Held(log', n) && !ToldSet(e, n) {
      var i :| 0 <= i < |log'| && ToldSet(log'[i], n) && forall j :: i < j < |log'| ==> !ToldCleared(log'[j], n);
      assert ToldSet(log[i], n);
      assert forall j :: i < j < |log| ==> log'[j] == log[j];
    }
    if Held(log, n) && !ToldCleared(e, n) {
      var i :| 0 <= i < |log| && ToldSet(log[i], n) && forall j :: i < j < |log| ==> !ToldCleared(log[j], n);
      assert ToldSet(log'[i], n);
      assert forall j :: i < j < |log'| ==> !ToldCleared(log'[j], n);
    }
  }

  lemma NoteHeld(g: Gate, cmd: Command, reply: Reply)
    ensures g.Note(cmd, reply).host == g.host
    ensures g.Note(cmd, reply).held ==
            if cmd.SetNoout? && reply.ok then g.held + {g.host.name}
            else if cmd.UnsetNoout? && reply.ok then g.held - {g.host.name}
            else g.held
  {
  }

  lemma StepHeld(g: Gate, e: Event, n: string)
    requires Step(g, e).lawful
    requires n in g.held ==> n == g.host.name
    ensures n in Step(g, e).held <==> ToldSet(e, n) || (n in g.held && !ToldCleared(e, n))
    ensures n in Step(g, e).held ==> n == Step(g, e).host.name
  {
    if e.Sent? { NoteHeld(g, e.cmd, e.reply); }
  }

  /** The bookkeeping set is the set the events define. */
  lemma {:induction false} HeldIsHeld(log: seq<Event>, n: string)
    requires GateOf(log).lawful
    ensures n in GateOf(log).held <==> Held(log, n)
    ensures n in GateOf(log).held ==> n == GateOf(log).host.name
  {
    if log != [] {
      var front, e := log[..|log| - 1], log[|log| - 1];
      assert log == front + [e];
      HeldIsHeld(front, n);
      StepHeld(GateOf(front), e, n);
      HeldStep(front, e, n);
    }
  }

  /**
   * At every step of the run at most one host has a noout told set and not told cleared, and whenever a
   * deploy starts there is none.
   */
  lemma AtMostOneNoout(log: seq<Event>, k: nat, m: string, n: string)
    requires GateOf(log).lawful && k <= |log|
    ensures Held(log[..k], m) && Held(log[..k], n) ==> m == n
    ensures k < |log| && log[k].Begin? ==> !Held(log[..k], n)
  {
    LawfulPrefix(log, k);
    HeldIsHeld(log[..k], m);
    HeldIsHeld(log[..k], n);
    if k < |log| {
      LawfulPrefix(log, k + 1);
      assert log[..k + 1][..k] == log[..k];
    }
  }

  /** No deploy starts after one that ended with its noout still told set. */
  lemma NoDeployAfterLeftSet(log: seq<Event>, i: nat, n: string)
    requires GateOf(log).lawful && i <= |log|
    requires Held(log[..i], n)
    requires forall j :: i <= j < |log| ==> !ToldCleared(log[j], n)
    ensures forall k :: i <= k < |log| ==> !log[k].Begin?
  {
    forall k | i <= k < |log| ensures !log[k].Begin? {
      AtMostOneNoout(log, k, n, n);
      StillHeld(log, i, k, n);
    }
  }

  lemma StillHeld(log: seq<Event>, i: nat, k: nat, n: string)
    requires i <= k <= |log| && Held(log[..i], n)
    requires forall j :: i <= j < |log| ==> !ToldCleared(log[j], n)
    ensures Held(log[..k], n)
  {
    var a, b := log[..i], log[..k];
    var w :| 0 <= w < |a| && ToldSet(a[w], n) && forall j :: w < j < |a| ==> !ToldCleared(a[j], n);
    assert b[w] == a[w];
    forall j | w < j < |b| ensures !ToldCleared(b[j], n) {
      if j < i { assert b[j] == a[j]; } else { assert b[j] == log[j]; }
    }
  }

  // ---- What a set and a cleared noout prove ----

  lemma StepAllowed(g: Gate, e: Event)
    requires Step(g, e).lawful && e.Sent?
    ensures g.lawful && e.name == g.host.name && g.Allowed(e.cmd)
  {
  }

  /** Whatever is sent was allowed by what came before. */
  lemma {:induction false} SentWasAllowed(log: seq<Event>, k: nat)
    requires GateOf(log).lawful && k < |log| && log[k].Sent?
    ensures GateOf(log[..k]).lawful && log[k].name == GateOf(log[..k]).host.name
    ensures GateOf(log[..k]).Allowed(log[k].cmd)
  {
    var front := log[..|log| - 1];
    if k < |front| {
      LawfulPrefix(log, |front|);
      SentWasAllowed(front, k);
      assert front[..k] == log[..k];
    } else {
      StepAllowed(GateOf(front), log[k]);
    }
  }

  predicate SameDeployFrom(log: seq<Event>, i: nat) {
    forall j :: i <= j < |log| ==> !log[j].Begin?
  }

  /** Event `t` is an OSD tree with every OSD up. */
  ghost predicate TreeUp(e: Event) {
    e.Sent? && e.cmd.OsdTree? && e.reply.ok && e.reply.body.Tree? && !Ceph.SomeDown(e.reply.body.nodes)
  }

  predicate PgsClean(e: Event) {
    e.Sent? && e.cmd.PgStat? && e.reply.ok && e.reply.body.Pgs? && Ceph.AllClean(e.reply.body.pgs)
  }

  lemma {:induction false} FindTree(log: seq<Event>) returns (t: nat)
    requires GateOf(log).treeUp
    ensures t < |log| && TreeUp(log[t]) && SameDeployFrom(log, t)
    ensures forall j :: t < j < |log| && log[j].Sent? ==> !log[j].cmd.OsdTree?
  {
    var n := |log| - 1;
    if log[n].Sent? && log[n].cmd.OsdTree? {
      t := n;
    } else {
      t := FindTree(log[..n]);
    }
  }

  lemma {:induction false} FindCleanLook(log: seq<Event>) returns (t: nat, p: nat)
    requires GateOf(log).clean
    ensures t < p < |log| && TreeUp(log[t]) && PgsClean(log[p]) && SameDeployFrom(log, t)
    ensures forall j :: t < j < |log| && log[j].Sent? ==> !log[j].cmd.OsdTree?
  {
    var n := |log| - 1;
    if log[n].Sent? && log[n].cmd.PgStat? {
      t := FindTree(log[..n]);
      p := n;
    } else {
      t, p := FindCleanLook(log[..n]);
    }
  }

  lemma {:induction false} FindShield(log: seq<Event>) returns (i: nat)
    requires GateOf(log).lawful && GateOf(log).shielded
    ensures i < |log| && ToldSet(log[i], GateOf(log).host.name) && SameDeployFrom(log, i)
  {
    var n := |log| - 1;
    if ToldSet(log[n], GateOf(log).host.name) {
      i := n;
    } else {
      i := FindShield(log[..n]);
    }
  }

  /** Event `e` is an OSD tree with nothing down on a host other than `self`. */
  ghost predicate OthersUp(e: Event, self: string) {
    e.Sent? && e.cmd.OsdTree? && e.reply.ok && e.reply.body.Tree? && !Ceph.DownElsewhere(e.reply.body.nodes, self)
  }

  lemma {:induction false} FindGateTree(log: seq<Event>) returns (t: nat)
    requires GateOf(log).passed
    ensures t < |log| && OthersUp(log[t], GateOf(log).host.name) && SameDeployFrom(log, t)
  {
    var n := |log| - 1;
    var g := GateOf(log[..n]);
    assert GateOf(log) == Step(g, log[n]);
    if log[n].Sent? && log[n].cmd.OsdTree? {
      t := n;
    } else {
      assert g.passed && g.host == GateOf(log).host;
      t := FindGateTree(log[..n]);
    }
  }

  /** noout is set on a host only after a tree of the same deploy with nothing down elsewhere, and with none held. */
  lemma SetEvidence(log: seq<Event>, k: nat, n: string) returns (t: nat)
    requires GateOf(log).lawful && k < |log| && log[k].Sent? && log[k].cmd.SetNoout?
    ensures t < k && OthersUp(log[t], log[k].name) && SameDeployFrom(log[..k], t)
    ensures !Held(log[..k], n)
  {
    SentWasAllowed(log, k);
    t := FindGateTree(log[..k]);
    HeldIsHeld(log[..k], n);
  }

  /** noout is cleared only after one look, within the same deploy, that found every OSD up and every group clean. */
  lemma UnsetEvidence(log: seq<Event>, k: nat) returns (t: nat, p: nat)
    requires GateOf(log).lawful && k < |log| && log[k].Sent? && log[k].cmd.UnsetNoout?
    ensures t < p < k && TreeUp(log[t]) && PgsClean(log[p]) && SameDeployFrom(log[..k], t)
    ensures forall j :: t < j < k && log[j].Sent? ==> !log[j].cmd.OsdTree?
  {
    SentWasAllowed(log, k);
    t, p := FindCleanLook(log[..k]);
  }

  /** A storage node's deploy that ends well was told its noout set, looked, and was told it cleared, in that order. */
  lemma ClearedAfterCleanLook(log: seq<Event>) returns (i: nat, t: nat, p: nat, u: nat)
    requires GateOf(log).lawful && GateOf(log).shielded && GateOf(log).held == {}
    ensures i < u < |log| && ToldSet(log[i], GateOf(log).host.name) && ToldCleared(log[u], GateOf(log).host.name)
    ensures t < p < u && TreeUp(log[t]) && PgsClean(log[p]) && SameDeployFrom(log, i)
  {
    var n := GateOf(log).host.name;
    i := FindShield(log);
    HeldIsHeld(log, n);
    u :| i < u < |log| && ToldCleared(log[u], n);
    t, p := UnsetEvidence(log, u);
  }

  predicate TakesDown(cmd: Command) { cmd.Arm? || cmd.SwitchTest? || cmd.NixosRebuild? || cmd.Reboot? }

  /** A watchdog, an activation, a rebuild or a reboot reaches a storage node only while its noout is outstanding. */
  lemma DisruptedUnderNoout(log: seq<Event>, k: nat)
    requires GateOf(log).lawful && k < |log| && log[k].Sent? && TakesDown(log[k].cmd)
    requires GateOf(log[..k]).host.ceph
    ensures Held(log[..k], log[k].name)
  {
    SentWasAllowed(log, k);
    HeldIsHeld(log[..k], log[k].name);
  }

  /** When the log says a storage node's deploy ended well, the whole sequence was seen within it. */
  lemma GoodEndWasGated(log: seq<Event>, k: nat, n: string) returns (i: nat, t: nat, p: nat, u: nat)
    requires GateOf(log).lawful && k < |log| && log[k].End? && log[k].ok && GateOf(log[..k]).host.ceph
    ensures i < u < k && ToldSet(log[i], log[k].name) && ToldCleared(log[u], log[k].name)
    ensures t < p < u && TreeUp(log[t]) && PgsClean(log[p]) && SameDeployFrom(log[..k], i)
    ensures !Held(log[..k], n)
  {
    LawfulPrefix(log, k + 1);
    assert log[..k + 1][..k] == log[..k];
    i, t, p, u := ClearedAfterCleanLook(log[..k]);
    HeldIsHeld(log[..k], n);
  }
}
