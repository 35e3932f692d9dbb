/** The shared ssh master: when riding it is safe. */
module Master {
  import opened Wire

  datatype Line = Line(
    stale: set<string>,   // hosts whose master may be open from before a disruption
    disrupted: bool,      // a disruptive command was sent in this deploy
    lawful: bool)
  {
    /** Commands may ride any master. */
    predicate Rides() { lawful && stale == {} }
  }

  const IDLE := Line({}, false, true)

  function Step(m: Line, e: Event): Line {
    match e
    case Begin(_, _, _) => m.(disrupted := false)
    case Dropped(n) => m.(stale := m.stale - {n})
    case Sent(n, via, cmd, _, _, _) =>
      Line(if Disruptive(cmd) && via.Mux? then m.stale + {n} else m.stale,
           m.disrupted || Disruptive(cmd),
           m.lawful && (via.Mux? ==> n !in m.stale) && (m.disrupted && Liveness(cmd) ==> via.Direct?))
    case _ => m
  }

  function LineOf(log: seq<Event>): Line {
    if log == [] then IDLE else Step(LineOf(log[..|log| - 1]), log[|log| - 1])
  }

  // ---- The same, said of the events themselves ----

  /** A test activation, a rebuild or a reboot. */
  predicate Disrupts(e: Event) { e.Sent? && (e.cmd.SwitchTest? || e.cmd.NixosRebuild? || e.cmd.Reboot?) }

  predicate Multiplexed(e: Event) { e.Sent? && e.via.Mux? }

  /** `echo ok`, by itself or as a connectivity check. */
  predicate Probe(e: Event) { e.Sent? && (e.cmd.Echo? || (e.cmd.Check? && e.cmd.kind.Ssh?)) }

  predicate DropOf(e: Event, n: string) { e.Dropped? && e.name == n }

  predicate DisruptsOver(e: Event, n: string) { Disrupts(e) && Multiplexed(e) && e.name == n }

  /** A master of `n` opened before a disruption of `n` may still be open. */
  ghost predicate Outdated(log: seq<Event>, n: string) {
    exists d :: 0 <= d < |log| && DisruptsOver(log[d], n) && forall j :: d < j < |log| ==> !DropOf(log[j], n)
  }

  /** The current deploy has sent a disruptive command. */
  ghost predicate Disturbed(log: seq<Event>) {
    exists d :: 0 <= d < |log| && Disrupts(log[d]) && forall j :: d < j < |log| ==> !log[j].Begin?
  }

  /** Nothing rides a master that predates a disruption, and every probe after one dials its own connection. */
  ghost predicate FreshRides(log: seq<Event>) {
    forall k :: 0 <= k < |log| ==>
      && (Multiplexed(log[k]) ==> !Outdated(log[..k], log[k].name))
      && (Probe(log[k]) && Disturbed(log[..k]) ==> log[k].via.Direct?)
  }

  lemma OutdatedStep(log: seq<Event>, e: Event, n: string)
    ensures Outdated(log + [e], n) <==> DisruptsOver(e, n) || (Outdated(log, n) && !DropOf(e, n))
  {
    var log' := log + [e];
    assert log'[|log|] == e;
    if Outdated(log', n) && !DisruptsOver(e, n) {
      var d :| 0 <= d < |log'| && DisruptsOver(log'[d], n) && forall j :: d < j < |log'| ==> !DropOf(log'[j], n);
      assert DisruptsOver(log[d], n);
      assert forall j :: d < j < |log| ==> log'[j] == log[j];
    }
    if Outdated(log, n) && !DropOf(e, n) {
      var d :| 0 <= d < |log| && DisruptsOver(log[d], n) && forall j :: d < j < |log| ==> !DropOf(log[j], n);
      assert DisruptsOver(log'[d], n);
      assert forall j :: d < j < |log'| ==> !DropOf(log'[j], n);
    }
  }

  lemma DisturbedStep(log: seq<Event>, e: Event)
    ensures Disturbed(log + [e]) <==> Disrupts(e) || (Disturbed(log) && !e.Begin?)
  {
    var log' := log + [e];
    assert log'[|log|] == e;
    if Disturbed(log') && !Disrupts(e) {
      var d :| 0 <= d < |log'| && Disrupts(log'[d]) && forall j :: d < j < |log'| ==> !log'[j].Begin?;
      assert Disrupts(log[d]);
      assert forall j :: d < j < |log| ==> log'[j] == log[j];
    }
    if Disturbed(log) && !e.Begin? {
      var d :| 0 <= d < |log| && Disrupts(log[d]) && forall j :: d < j < |log| ==> !log[j].Begin?;
      assert Disrupts(log'[d]);
      assert forall j :: d < j < |log'| ==> !log'[j].Begin?;
    }
  }

  /** The rule the tool keeps is exactly the one said of the events. */
  lemma {:induction false} LawfulIffFreshRides(log: seq<Event>)
    ensures LineOf(log).lawful <==> FreshRides(log)
    ensures forall n :: n in LineOf(log).stale <==> Outdated(log, n)
    ensures LineOf(log).disrupted <==> Disturbed(log)
  {
    if log != [] {
      var k := |log| - 1;
      var front, e := log[..k], log[k];
      assert log == front + [e];
      LawfulIffFreshRides(front);
      forall n ensures n in LineOf(log).stale <==> Outdated(log, n) { OutdatedStep(front, e, n); }
      DisturbedStep(front, e);
      FreshRidesStep(front, e);
    }
  }

  lemma FreshRidesStep(log: seq<Event>, e: Event)
    ensures FreshRides(log + [e]) <==>
            && FreshRides(log)
            && (Multiplexed(e) ==> !Outdated(log, e.name))
            && (Probe(e) && Disturbed(log) ==> e.via.Direct?)
  {
    var log' := log + [e];
    assert log'[..|log|] == log && log'[|log|] == e;
    assert forall k :: 0 <= k < |log| ==> log'[..k] == log[..k] && log'[k] == log[k];
  }
}
