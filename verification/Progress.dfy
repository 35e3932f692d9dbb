/** How far the current deploy has got, counted off its events. */
module Progress {
  import opened Hosts
  import opened Wire

  datatype Probes = Probes(
    answered: bool,     // some probe was answered
    probed: bool)       // a probe on a connection of its own since the last test activation or reboot

  datatype Tries = Tries(
    attempts: nat,      // connectivity attempts
    looked: bool)       // the active path was asked for since the last of them

  datatype Later = Later(
    sent: bool,         // a reboot was sent
    polls: nat)         // questions for the node's status

  datatype Gating = Gating(
    asked: bool,        // the OSD tree was asked for
    raised: bool,       // a set of noout was sent
    looks: nat,         // looks at the cluster after the deploy
    cleared: bool)      // a clear of noout was sent

  datatype Answer = Unheard | Heard(text: string)
  {
    function Words(): string { if Heard? then text else "" }
  }

  /** The last answers to the four kernel queries: kernels and parameters, as booted and as on disk. */
  datatype Booted = Booted(running: Answer, current: Answer, params: Answer, latest: Answer)
  {
    predicate Known() { running.Heard? && current.Heard? && params.Heard? && latest.Heard? }
  }

  datatype Progress = Progress(probes: Probes, tries: Tries, later: Later, gating: Gating, kernel: Booted)

  const START := Progress(Probes(false, false), Tries(0, false), Later(false, 0), Gating(false, false, 0, false),
                          Booted(Unheard, Unheard, Unheard, Unheard))

  function Hear(k: Booted, item: nat, text: string): Booted {
    match item
    case 0 => Booted(Heard(text), k.current, k.params, k.latest)
    case 1 => Booted(k.running, Heard(text), k.params, k.latest)
    case 2 => Booted(k.running, k.current, Heard(text), k.latest)
    case 3 => Booted(k.running, k.current, k.params, Heard(text))
    case _ => k
  }

  function Note(p: Progress, via: Via, cmd: Command, reply: Reply): Progress {
    match cmd
    case Echo => p.(probes := Probes(p.probes.answered || reply.Echoed(), p.probes.probed || via.Direct?))
    case SwitchTest(_) => p.(probes := p.probes.(probed := false))
    case Reboot => p.(probes := p.probes.(probed := false), later := p.later.(sent := true))
    case ReadActive => p.(tries := p.tries.(looked := true))
    case NodeReady => p.(later := p.later.(polls := p.later.polls + 1))
    case KernelQuery(item) => p.(kernel := Hear(p.kernel, item, reply.Said()))
    case OsdTree => p.(gating := p.gating.(asked := true))
    case SetNoout => p.(gating := p.gating.(raised := true))
    case UnsetNoout => p.(gating := p.gating.(cleared := true))
    case _ => p
  }

  function Step(p: Progress, e: Event): Progress {
    match e
    case Begin(_, _, _) => START
    case Attempt(_) => p.(tries := Tries(p.tries.attempts + 1, false))
    case Look(_) => p.(gating := p.gating.(looks := p.gating.looks + 1))
    case Sent(_, via, cmd, reply, _, _) => Note(p, via, cmd, reply)
    case _ => p
  }

  function Steps(p: Progress, x: Exchange): Progress {
    if x.Once? then Step(p, x.only) else Step(Step(p, x.first), x.last)
  }

  function Run(p: Progress, seg: seq<Event>): Progress {
    if seg == [] then p else Step(Run(p, seg[..|seg| - 1]), seg[|seg| - 1])
  }

  lemma {:induction false} RunAppend(p: Progress, a: seq<Event>, b: seq<Event>)
    ensures Run(p, a + b) == Run(Run(p, a), b)
  {
    if b == [] {
      assert a + b == a;
    } else {
      RunAppend(p, a, b[..|b| - 1]);
      assert (a + b)[..|a + b| - 1] == a + b[..|b| - 1];
    }
  }

  function ProgressOf(log: seq<Event>): Progress { Run(START, log) }
}
