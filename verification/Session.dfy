/**
 * One run's conversation with the fleet, and the ssh layer on top of it: single tries, the redial over a new
 * master, and probes on connections of their own.
 */
module Session {
  import opened Hosts
  import opened Wire
  import Watchdog
  import Noout
  import Master
  import Progress
  import Exits

  datatype Warning = NooutLeftSet(name: string) | NeedsReboot(name: string, declined: bool)

  /** Before anything else is sent, a probe changes nothing but whether the host has answered. */
  lemma EchoKeeps(w: Watchdog.Watch, g: Noout.Gate, p: Progress.Progress, e: Event)
    requires e.Sent? && e.cmd.Echo? && w.lawful && w.open && g.lawful
    requires e.name == w.job.host.name == g.host.name && !w.trial.tested && !w.post.away
    ensures Watchdog.Step(w, e) == w && Noout.Step(g, e) == g
    ensures Progress.Step(p, e) == p.(probes := Progress.Step(p, e).probes)
    ensures Progress.Step(p, e).probes.answered == (p.probes.answered || e.reply.Echoed())
  {
  }

  lemma EchoesKeep(w: Watchdog.Watch, g: Noout.Gate, p: Progress.Progress, x: Exchange, via: Via)
    requires x.Is(w.job.host.name, via, Echo) && w.lawful && w.open && g.lawful
    requires w.job.host.name == g.host.name && !w.trial.tested && !w.post.away
    ensures Watchdog.Steps(w, x) == w && Noout.Steps(g, x) == g
    ensures Progress.Steps(p, x) == p.(probes := Progress.Steps(p, x).probes)
    ensures Progress.Steps(p, x).probes.answered == (p.probes.answered || x.Final().reply.Echoed())
  {
    if x.Once? {
      EchoKeeps(w, g, p, x.only);
    } else {
      EchoKeeps(w, g, p, x.first);
      EchoKeeps(w, g, Progress.Step(p, x.first), x.last);
    }
  }

  class Session {
    const mux: bool               // an ssh control directory exists
    var log: seq<Event>
    var warnings: seq<Warning>
    ghost var past: seq<Event>    // the log up to the latest begin or end of a deploy
    ghost var deploys: seq<Event>
    ghost var watch: Watchdog.Watch
    ghost var gate: Noout.Gate
    ghost var line: Master.Line
    ghost var prog: Progress.Progress

    ghost predicate Valid()
      reads this
    {
      && past <= log && AllPossible(log)
      && deploys == Deploys(log)
      && watch == Watchdog.WatchOf(log) && gate == Noout.GateOf(log) && line == Master.LineOf(log)
      && prog == Progress.ProgressOf(log)
      && deploys == Deploys(past) && Exits.EndsFit(past)
    }

    constructor (mux: bool)
      ensures Valid() && log == [] && deploys == [] && warnings == [] && this.mux == mux
      ensures watch == Watchdog.IDLE && gate == Noout.IDLE && line == Master.IDLE && prog == Progress.START
    {
      this.mux := mux;
      log, past, deploys, warnings := [], [], [], [];
      watch, gate, line, prog := Watchdog.IDLE, Noout.IDLE, Master.IDLE, Progress.START;
    }

    method Record(e: Event)
      requires Valid() && !Marks(e) && Possible(e)
      modifies `log, `watch, `gate, `line, `prog
      ensures Valid() && log == old(log) + [e]
      ensures watch == Watchdog.Step(old(watch), e)
      ensures gate == Noout.Step(old(gate), e)
      ensures line == Master.Step(old(line), e) && prog == Progress.Step(old(prog), e)
    {
      ghost var before := log;
      log := log + [e];
      assert log[..|log| - 1] == before;
      watch, gate, line := Watchdog.Step(watch, e), Noout.Step(gate, e), Master.Step(line, e);
      prog := Progress.Step(prog, e);
    }

    /** A deploy begins. */
    method Start(e: Event)
      requires Valid() && e.Begin?
      modifies `log, `past, `deploys, `watch, `gate, `line, `prog
      ensures Valid() && past == log == old(log) + [e] && deploys == old(deploys) + [e]
      ensures watch == Watchdog.Step(old(watch), e)
      ensures gate == Noout.Step(old(gate), e)
      ensures line == Master.Step(old(line), e) && prog == Progress.Step(old(prog), e)
    {
      ghost var before := log;
      AllFit();
      log := log + [e];
      past := log;
      assert log[..|log| - 1] == before;
      deploys := deploys + [e];
      watch, gate, line := Watchdog.Step(watch, e), Noout.Step(gate, e), Master.Step(line, e);
      prog := Progress.Step(prog, e);
    }

    /** The current deploy is over. */
    method Finish(e: Event)
      requires Valid() && e.End? && Exits.EndFits(watch, gate, prog, e.ok)
      modifies `log, `past, `deploys, `watch, `gate, `line, `prog
      ensures Valid() && past == log == old(log) + [e] && deploys == old(deploys) + [e]
      ensures watch == Watchdog.Step(old(watch), e)
      ensures gate == Noout.Step(old(gate), e)
      ensures line == Master.Step(old(line), e) && prog == Progress.Step(old(prog), e)
    {
      ghost var before := log;
      AllFit();
      log := log + [e];
      past := log;
      assert log[..|log| - 1] == before;
      deploys := deploys + [e];
      watch, gate, line := Watchdog.Step(watch, e), Noout.Step(gate, e), Master.Step(line, e);
      prog := Progress.Step(prog, e);
    }

    /** Every deploy in the log ended as it may. */
    lemma AllFit()
      requires Valid()
      ensures Exits.EndsFit(log)
    {
      Exits.UnmarkedFits(past, log);
    }

    /** One command: it may take effect or not, and its reply may be lost either way. */
    method Send(name: string, via: Via, cmd: Command) returns (r: Reply, ghost e: Event)
      requires Valid()
      modifies `log, `watch, `gate, `line, `prog
      ensures Valid() && log == old(log) + [e]
      ensures e.Sent? && e == Sent(name, via, cmd, r, e.took, e.rebooted) && Possible(e)
      ensures watch == Watchdog.Step(old(watch), e)
      ensures gate == Noout.Step(old(gate), e)
      ensures line == Master.Step(old(line), e) && prog == Progress.Step(old(prog), e)
    {
      var ok: bool, lost: bool, took: bool, rebooted: bool := *, *, *, *;
      var body: Body := *;
      r := Reply(ok, lost && !ok, body);
      var sent := Sent(name, via, cmd, r, took || ok, rebooted);
      Record(sent);
      e := sent;
    }

    function Shared(): Via { if mux then Mux else Direct }

    method DropMaster(name: string)
      requires Valid()
      modifies `log, `watch, `gate, `line, `prog
      ensures Valid() && watch == old(watch) && gate == old(gate) && prog == old(prog)
      ensures log == if mux then old(log) + [Dropped(name)] else old(log)
      ensures line == if mux then old(line).(stale := old(line).stale - {name}) else old(line)
    {
      if mux { Record(Dropped(name)); }
    }

    /** No redial: for commands that must not run twice or handle a disconnect themselves. */
    method SshRunOnce(name: string, cmd: Command) returns (r: Reply, ghost e: Event)
      requires Valid()
      modifies `log, `watch, `gate, `line, `prog
      ensures Valid() && log == old(log) + [e]
      ensures e.Sent? && e == Sent(name, if mux then Mux else Direct, cmd, r, e.took, e.rebooted) && Possible(e)
      ensures watch == Watchdog.Step(old(watch), e)
      ensures gate == Noout.Step(old(gate), e)
      ensures line == Master.Step(old(line), e) && prog == Progress.Step(old(prog), e)
    {
      r, e := Send(name, Shared(), cmd);
    }

    /** On a transport failure, discard the master and dial again, once. */
    method SshRun(name: string, cmd: Command) returns (r: Reply, ghost x: Exchange)
      requires Valid() && line.Rides() && !Disruptive(cmd) && (Liveness(cmd) ==> !line.disrupted)
      modifies `log, `watch, `gate, `line, `prog
      ensures Valid() && x.Is(name, if mux then Mux else Direct, cmd) && x.Final().reply == r
      ensures log == old(log) + x.Events()
      ensures x.Twice? <==> mux && (if x.Twice? then x.first else x.only).reply.lost
      ensures watch == Watchdog.Steps(old(watch), x)
      ensures gate == Noout.Steps(old(gate), x)
      ensures line.Rides() && line.disrupted == old(line.disrupted)
      ensures prog == Progress.Steps(old(prog), x)
    {
      ghost var e: Event;
      r, e := SshRunOnce(name, cmd);
      x := Once(e);
      if r.lost && mux {
        DropMaster(name);
        ghost var e': Event;
        r, e' := SshRunOnce(name, cmd);
        x := Twice(e, e');
      }
    }

    /** On a connection of its own. */
    method SshRunDirect(name: string, cmd: Command) returns (r: Reply, ghost e: Event)
      requires Valid() && line.Rides() && !Disruptive(cmd)
      modifies `log, `watch, `gate, `line, `prog
      ensures Valid() && log == old(log) + [e]
      ensures e.Sent? && e == Sent(name, Direct, cmd, r, e.took, e.rebooted) && Possible(e)
      ensures watch == Watchdog.Step(old(watch), e)
      ensures gate == Noout.Step(old(gate), e)
      ensures line.Rides() && line.disrupted == old(line.disrupted)
      ensures prog == Progress.Step(old(prog), e)
    {
      r, e := Send(name, Direct, cmd);
    }

    /** A command on this machine about the host. */
    method RunLocal(name: string, cmd: Command) returns (r: Reply, ghost e: Event)
      requires Valid() && line.Rides() && !Disruptive(cmd) && !Liveness(cmd)
      modifies `log, `watch, `gate, `line, `prog
      ensures Valid() && log == old(log) + [e]
      ensures e.Sent? && e == Sent(name, Local, cmd, r, e.took, e.rebooted) && Possible(e)
      ensures watch == Watchdog.Step(old(watch), e)
      ensures gate == Noout.Step(old(gate), e)
      ensures line.Rides() && line.disrupted == old(line.disrupted)
      ensures prog == Progress.Step(old(prog), e)
    {
      r, e := Send(name, Local, cmd);
    }

    /** `echo ok` over the shared master. */
    method Reachable(name: string) returns (ok: bool)
      requires Valid() && line.Rides() && !line.disrupted
      requires watch.lawful && watch.open && name == watch.job.host.name && gate.lawful && name == gate.host.name
      requires !watch.trial.tested && !watch.post.away && !prog.probes.answered
      modifies `log, `watch, `gate, `line, `prog
      ensures Valid() && watch == old(watch) && gate == old(gate)
      ensures prog == old(prog).(probes := prog.probes) && prog.probes.answered == ok
      ensures line.Rides() && !line.disrupted
    {
      ghost var w, g, p := watch, gate, prog;
      var r, x := SshRun(name, Echo);
      ok := r.Echoed();
      EchoesKeep(w, g, p, x, Shared());
    }

    /** `echo ok` on a fresh connection. */
    method ReachableDirect(name: string) returns (ok: bool, ghost e: Event)
      requires Valid() && line.Rides()
      requires watch.lawful && watch.open && name == watch.job.host.name && gate.lawful && name == gate.host.name
      modifies `log, `watch, `gate, `line, `prog
      ensures Valid() && gate == old(gate)
      ensures line.Rides() && line.disrupted == old(line.disrupted)
      ensures watch == if ok then Watchdog.Answered(old(watch)) else old(watch)
      ensures log == old(log) + [e] && ProbeOf(e, name, ok)
      ensures prog == old(prog).(probes := Progress.Probes(old(prog).probes.answered || ok, true))
    {
      var r;
      r, e := SshRunDirect(name, Echo);
      ok := r.Echoed();
    }
  }
}
