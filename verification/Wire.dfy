/** Everything the tool sends to a host, what may come back, and what it does to the host. */
module Wire {
  import opened Hosts
  import Ceph

  /** How a command travels: over the host's shared ssh master, over a connection of its own, or not at all. */
  datatype Via = Mux | Direct | Local

  datatype Command =
    | Echo                                     // the liveness probe `echo ok`
    | Check(index: nat, kind: ConnCheck)       // the index-th connectivity check of the host
    | ReadActive | ReadProfile                 // /run/current-system, the system profile
    | StopStale | ClearUnit
    | Arm(unit: string) | Disarm(unit: string)
    | SwitchTest(path: string) | SetProfile(path: string) | SwitchBoot(path: string)
    | NixosRebuild(stage: bool, result: string) // `result`: whatever path it builds by itself
    | Reboot | KernelQuery(item: nat)
    | NodeReady
    | OsdTree | PgStat | SetNoout | UnsetNoout

  datatype Body = Text(text: string) | Tree(nodes: seq<Ceph.Node>) | Pgs(pgs: Ceph.PgStat) | Garbage

  /** `ok`: the call did not fail. `lost`: it timed out or ssh itself failed (exit 255). */
  datatype Reply = Reply(ok: bool, lost: bool, body: Body)
  {
    predicate WellFormed() { ok ==> !lost }
    function Said(): string { if body.Text? then body.text else "" }
    predicate Echoed() { ok && body == Text("ok") }
  }

  /** The watchdog-protected flow, or one nixos-rebuild that activates or only stages. */
  datatype Mode = Safe | Switch | Boot

  datatype Event =
    | Begin(host: Host, plan: string, mode: Mode)
    | End(name: string, plan: string, ok: bool)
    | Attempt(name: string)       // a connectivity attempt starts at the first check
    | Look(name: string)          // a look at the cluster after the deploy starts
    | Dropped(name: string)       // the ssh master is discarded
    | Sent(name: string, via: Via, cmd: Command, reply: Reply,
           took: bool,            // it took effect on the host
           rebooted: bool)        // the host rebooted since the previous event

  /** The starts and ends of deploys, in order. */
  function Deploys(log: seq<Event>): seq<Event> {
    if log == [] then []
    else if Marks(log[|log| - 1]) then Deploys(log[..|log| - 1]) + [log[|log| - 1]]
    else Deploys(log[..|log| - 1])
  }

  predicate Marks(e: Event) { e.Begin? || e.End? }

  lemma {:induction false} DeploysAppend(a: seq<Event>, b: seq<Event>)
    ensures Deploys(a + b) == Deploys(a) + Deploys(b)
  {
    if b == [] {
      assert a + b == a;
    } else {
      var n := |b| - 1;
      DeploysAppend(a, b[..n]);
      assert (a + b)[..|a + b| - 1] == a + b[..n];
    }
  }

  lemma {:induction false} MarkInDeploys(log: seq<Event>, k: nat)
    requires k < |log| && Marks(log[k])
    ensures log[k] in Deploys(log)
  {
    if k < |log| - 1 { MarkInDeploys(log[..|log| - 1], k); }
  }

  /** An acknowledged command took effect; a failed one may or may not have. */
  predicate Possible(e: Event) {
    e.Sent? ==> e.reply.WellFormed() && (e.reply.ok ==> e.took)
  }

  ghost predicate AllPossible(seg: seq<Event>) {
    forall k :: 0 <= k < |seg| ==> Possible(seg[k])
  }

  /** Commands after which the connection may be gone although the socket looks alive. */
  predicate Disruptive(cmd: Command) {
    cmd.SwitchTest? || cmd.NixosRebuild? || cmd.Reboot?
  }

  /** Commands that ask whether the host is on the network. */
  predicate Liveness(cmd: Command) {
    cmd.Echo? || (cmd.Check? && cmd.kind == Ssh)
  }

  /** `e` is a probe of the host on a connection of its own, answered or not. */
  predicate ProbeOf(e: Event, name: string, answered: bool) {
    e.Sent? && e.name == name && e.via.Direct? && e.cmd.Echo? && (answered <==> e.reply.Echoed())
  }

  /** A check's verdict: the ssh check also compares what came back. */
  predicate Passed(cmd: Command, reply: Reply) {
    if Liveness(cmd) then reply.Echoed() else reply.ok
  }

  // ---- The remote host ----

  datatype Remote = Remote(
    active: string,       // running system
    profile: string,      // system profile
    boot: string,         // bootloader entry a reboot lands on
    timers: set<string>,  // live watchdog timers
    noout: bool)

  function Rebooted(r: Remote): Remote {
    r.(active := r.boot, timers := {})
  }

  function Effect(r: Remote, cmd: Command): Remote {
    match cmd
    case StopStale => r.(timers := {})
    case Arm(u) => r.(timers := r.timers + {u})
    case Disarm(u) => r.(timers := r.timers - {u})
    case SwitchTest(p) => r.(active := p)
    case SetProfile(p) => r.(profile := p)
    case SwitchBoot(p) => r.(boot := p)
    case NixosRebuild(stage, p) =>
      var r' := r.(profile := p, boot := p);
      if stage then r' else r'.(active := p)
    case Reboot => Rebooted(r)
    case SetNoout => r.(noout := true)
    case UnsetNoout => r.(noout := false)
    case _ => r
  }

  /** The host as the event finds it. */
  function Before(r: Remote, e: Event): Remote {
    if e.Sent? && e.rebooted then Rebooted(r) else r
  }

  function After(r: Remote, e: Event): Remote {
    var r' := Before(r, e);
    if e.Sent? && e.took then Effect(r', e.cmd) else r'
  }

  /** The host after a stretch of events, all of them its own. */
  function Replay(r: Remote, seg: seq<Event>): Remote {
    if seg == [] then r else After(Replay(r, seg[..|seg| - 1]), seg[|seg| - 1])
  }

  /** An acknowledged read returned what was there. */
  predicate TrueRead(at: Remote, e: Event) {
    e.Sent? && e.reply.ok ==>
      && (e.cmd.ReadActive? ==> e.reply.Said() == at.active)
      && (e.cmd.ReadProfile? ==> e.reply.Said() == at.profile)
  }

  predicate Honest(r: Remote, seg: seq<Event>) {
    seg == [] ||
    var front, e := seg[..|seg| - 1], seg[|seg| - 1];
    Honest(r, front) && TrueRead(Before(Replay(r, front), e), e)
  }

  // ---- One redial ----

  /** What one call of the retrying form puts on the wire. */
  datatype Exchange = Once(only: Event) | Twice(first: Event, last: Event)
  {
    function Final(): Event { if Once? then only else last }

    function Events(): seq<Event>
      requires Twice? ==> first.Sent?
    {
      if Once? then [only] else [first, Dropped(first.name), last]
    }

    /** Every try is `cmd` to `name` over `via`, and only a lost try is repeated. */
    ghost predicate Is(name: string, via: Via, cmd: Command) {
      if Once? then
        only.Sent? && Possible(only) && only.name == name && only.via == via && only.cmd == cmd
      else
        && first.Sent? && Possible(first) && first.name == name && first.via == via && first.cmd == cmd
        && last.Sent? && Possible(last) && last.name == name && last.via == via && last.cmd == cmd
        && first.reply.lost
    }
  }

  /** Every command sent with the redial does the same when it runs twice. */
  lemma RedialedCommandsIdempotent(cmd: Command, r: Remote)
    ensures Effect(Effect(r, cmd), cmd) == Effect(r, cmd)
  {
  }

  /** A single try of the command with the same last answer leaves the host as the exchange did. */
  ghost predicate SingleTry(t: Event, x: Exchange, name: string, via: Via, cmd: Command, r: Remote)
    requires x.Is(name, via, cmd)
  {
    && t.Sent? && t.name == name && t.via == via && t.cmd == cmd && Possible(t)
    && t.reply == x.Final().reply && (x.Final().took ==> t.took)
    && Replay(r, x.Events()) == After(r, t)
  }

  /**
   * The first try switched the boot entry, its reply was lost and the host rebooted into the new entry before
   * the second: no single try leaves the new path both active and booted, unless it was active before, with
   * no timer to lose.
   */
  predicate Splits(x: Exchange, cmd: Command, r: Remote) {
    && x.Twice? && x.first.Sent? && x.last.Sent? && x.first.took && x.last.rebooted
    && cmd.SwitchBoot? && r.boot != cmd.path && !(r.active == cmd.path && r.timers == {})
  }

  lemma ReplayTwice(x: Exchange, r: Remote)
    requires x.Twice? && x.first.Sent?
    ensures Replay(r, x.Events()) == After(After(r, x.first), x.last)
  {
    var ev := x.Events();
    assert ev[..2] == ev[..1] + [Dropped(x.first.name)] && ev[..2][..1] == ev[..1];
    assert ev[..1] == [x.first];
    assert Replay(r, ev[..1]) == After(r, x.first);
    assert Replay(r, ev[..2]) == After(r, x.first);
  }

  lemma RedialAcrossReboot(x: Exchange, name: string, via: Via, cmd: Command, r: Remote) returns (t: Event)
    requires x.Is(name, via, cmd) && x.Twice? && x.last.rebooted && !Disruptive(cmd) && !Splits(x, cmd, r)
    ensures SingleTry(t, x, name, via, cmd, r)
  {
    ReplayTwice(x, r);
    if cmd.SwitchBoot? && x.first.took {
      t := x.last.(took := true, rebooted := r.boot == cmd.path);
    } else if cmd.Arm? {
      t := x.last;
    } else {
      t := x.last.(took := x.first.took || x.last.took);
    }
  }

  /**
   * Retrying refines running once: some single try with the same last answer leaves the host the same, whether
   * or not the first try took effect before its reply was lost, and even if the host rebooted in between, with
   * exactly one exception.
   */
  lemma RedialRefinesOnce(x: Exchange, name: string, via: Via, cmd: Command, r: Remote)
    requires x.Is(name, via, cmd) && (x.Twice? && x.last.rebooted ==> !Disruptive(cmd))
    ensures |x.Events()| <= 3
    ensures (exists t :: SingleTry(t, x, name, via, cmd, r)) <==> !Splits(x, cmd, r)
  {
    var ev := x.Events();
    if x.Once? {
      assert ev[..0] == [] && Replay(r, ev[..0]) == r;
      assert SingleTry(x.only, x, name, via, cmd, r);
    } else if !x.last.rebooted {
      ReplayTwice(x, r);
      RedialedCommandsIdempotent(cmd, Before(r, x.first));
      var t := x.last.(took := x.first.took || x.last.took, rebooted := x.first.rebooted);
      assert SingleTry(t, x, name, via, cmd, r);
    } else if !Splits(x, cmd, r) {
      var t := RedialAcrossReboot(x, name, via, cmd, r);
    } else {
      ReplayTwice(x, r);
      forall t: Event ensures !SingleTry(t, x, name, via, cmd, r) {
        SplitHasNoSingleTry(x, name, via, cmd, r, t);
      }
    }
  }

  lemma SplitHasNoSingleTry(x: Exchange, name: string, via: Via, cmd: Command, r: Remote, t: Event)
    requires x.Is(name, via, cmd) && Splits(x, cmd, r)
    ensures !SingleTry(t, x, name, via, cmd, r)
  {
    ReplayTwice(x, r);
    var end := After(After(r, x.first), x.last);
    assert end.active == end.boot == cmd.path && end.timers == {};
  }
}
