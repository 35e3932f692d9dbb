/** The build, copy and activate stages of a run, as one concurrent machine. */
module Pipeline {
  import opened Hosts

  datatype Status = Deployed | BuildFailed | CopyFailed | DeployFailed | Cancelled

  /** A host that passed the precheck, with its plan. */
  datatype Job = Job(host: Host, path: string, drv: string, upToDate: bool)

  datatype Config = Config(
    todo: seq<Job>,
    copyJobs: int,
    stopOnFailure: bool,
    present: set<string>,   // store paths there when the run starts
    paths: set<string>,     // ... and once the build is over
    extra: seq<string>)     // derivations to build for hosts that are not deployed
  {
    function N(): nat { |todo| }

    function Workers(): nat { if copyJobs < 1 then 1 else copyJobs }

    ghost predicate Valid() {
      && (forall i, j :: 0 <= i < j < |todo| ==> todo[i].host.name != todo[j].host.name)
      && present <= paths
    }

    /** The result slot a name is mapped to: the last entry with that name. */
    function SlotFrom(k: nat, name: string): nat
      requires k <= |todo|
    {
      if k == 0 then 0 else if todo[k - 1].host.name == name then k - 1 else SlotFrom(k - 1, name)
    }

    function Slot(i: nat): nat
      requires i < N()
    {
      SlotFrom(N(), todo[i].host.name)
    }

    lemma {:induction false} SlotFromOwn(k: nat, i: nat)
      requires Valid() && i < k <= N()
      ensures SlotFrom(k, todo[i].host.name) == i
    {
      if i < k - 1 { SlotFromOwn(k - 1, i); }
    }

    /** A host's status lands in its own slot. */
    lemma SlotOwn(i: nat)
      requires Valid() && i < N()
      ensures Slot(i) == i
    {
      SlotFromOwn(N(), i);
    }
  }

  datatype Poller =
    | Waiting(left: seq<nat>)
    | Sweeping(kept: seq<nat>, rest: seq<nat>, final: bool)
    | Marking(unbuilt: seq<nat>)
    | Stopped

  datatype Worker = Idle | Copying(id: nat) | Sending(id: nat) | Exited

  datatype Drain = Receiving | Deploying(id: nat) | Returned

  datatype Verdict = Verdict(id: nat, status: Status)

  datatype Chan = Chan(q: seq<nat>, closed: bool)

  datatype Seeding = Seeding(
    looked: nat,            // todo entries the seeding loop has looked at
    need: seq<nat>,         // of those, the ones to build
    spawned: bool)          // the goroutines are running

  datatype Build = Build(
    store: set<string>,
    over: bool,
    ticks: nat)             // poll intervals that will still elapse

  datatype History = History(
    verdicts: seq<Verdict>, // what was decided, in order
    calls: seq<nat>,        // hosts Deploy was called for
    arrivals: seq<nat>)     // hosts taken off the activation queue

  /** One copy: which path to which host. */
  datatype Shipment = Shipment(name: string, path: string)

  datatype Supply = Supply(
    asked: seq<string>,     // derivations the build was given
    shipped: seq<Shipment>, // copies that were started
    missed: seq<nat>)       // hosts whose path was there when the last sweep's query said it was not

  datatype State = State(
    seed: Seeding, build: Build, poller: Poller, copies: Chan, crew: seq<Worker>, acts: Chan,
    drain: Drain, halted: bool, results: seq<Status>, hist: History, supply: Supply)

  datatype Label =
    | Seed | Spawn
    | Realise(path: string) | BuildEnds
    | Tick | Wake | Query(yes: bool) | SweepEnds | Mark | PollerQuits
    | Take(w: nat) | Copied(w: nat, ok: bool) | Forward(w: nat) | Leave(w: nat) | CloseActs
    | Receive | Finish(ok: bool) | Return

  function Start(c: Config, ticks: nat): State {
    State(Seeding(0, [], false), Build(c.present, false, ticks), Waiting([]), Chan([], false), [], Chan([], false),
          Receiving, false, seq(c.N(), i => Deployed), History([], [], []), Supply([], [], []))
  }

  // ---- Stable sort by order ----

  function Order(c: Config, i: nat): int { if i < c.N() then c.todo[i].host.order else 0 }

  function InsertByOrder(c: Config, q: seq<nat>, i: nat): (r: seq<nat>)
    ensures |r| == |q| + 1
    ensures forall x :: Occ(r, x) == Occ(q + [i], x)
    ensures forall k :: 0 <= k < |r| ==> r[k] == i || r[k] in q
  {
    assert (q + [i])[..|q|] == q;
    if q == [] then [i]
    else
      var last := q[|q| - 1];
      if Order(c, last) <= Order(c, i) then q + [i]
      else
        var front := q[..|q| - 1];
        var r := InsertByOrder(c, front, i) + [last];
        assert r[..|r| - 1] == InsertByOrder(c, front, i) && (front + [i])[..|front|] == front;
        r
  }

  function SortByOrder(c: Config, q: seq<nat>): (r: seq<nat>)
    ensures |r| == |q|
    ensures forall x :: Occ(r, x) == Occ(q, x)
    ensures forall k :: 0 <= k < |r| ==> r[k] in q
  {
    if q == [] then []
    else
      var front := SortByOrder(c, q[..|q| - 1]);
      assert (front + [q[|q| - 1]])[..|front|] == front;
      InsertByOrder(c, front, q[|q| - 1])
  }

  // ---- What is where ----

  /** How often `i` occurs in `q`. */
  function Occ(q: seq<nat>, i: nat): nat {
    if q == [] then 0 else Occ(q[..|q| - 1], i) + if q[|q| - 1] == i then 1 else 0
  }

  function PollCount(p: Poller, i: nat): nat {
    match p
    case Waiting(left) => Occ(left, i)
    case Sweeping(kept, rest, _) => Occ(kept, i) + Occ(rest, i)
    case Marking(unbuilt) => Occ(unbuilt, i)
    case Stopped => 0
  }

  function Holds(w: Worker, i: nat): nat {
    if (w.Copying? || w.Sending?) && w.id == i then 1 else 0
  }

  function CrewCount(crew: seq<Worker>, i: nat): nat {
    if crew == [] then 0 else CrewCount(crew[..|crew| - 1], i) + Holds(crew[|crew| - 1], i)
  }

  function DrainCount(d: Drain, i: nat): nat { if d.Deploying? && d.id == i then 1 else 0 }

  /** How many verdicts host `i` got. */
  function Verdicts(vs: seq<Verdict>, i: nat): nat {
    if vs == [] then 0 else Verdicts(vs[..|vs| - 1], i) + if vs[|vs| - 1].id == i then 1 else 0
  }

  predicate Called(s: Status) { s.Deployed? || s.DeployFailed? }

  predicate Arrived(s: Status) { Called(s) || s.Cancelled? }

  /** The last verdict on host `i`, Deployed if there is none. */
  function Said(vs: seq<Verdict>, i: nat): Status {
    if vs == [] then Deployed else if vs[|vs| - 1].id == i then vs[|vs| - 1].status else Said(vs[..|vs| - 1], i)
  }

  /** The number of places host `i` is in. */
  function Places(s: State, i: nat): nat {
    (if s.seed.looked <= i then 1 else 0) + Occ(s.seed.need, i) + PollCount(s.poller, i) + Occ(s.copies.q, i)
    + CrewCount(s.crew, i) + Occ(s.acts.q, i) + DrainCount(s.drain, i) + Verdicts(s.hist.verdicts, i)
  }

  // ---- The invariant ----

  ghost predicate Within(q: seq<nat>, n: nat) { forall k :: 0 <= k < |q| ==> q[k] < n }

  ghost predicate PollWithin(p: Poller, n: nat) {
    match p
    case Waiting(left) => Within(left, n)
    case Sweeping(kept, rest, _) => Within(kept, n) && Within(rest, n)
    case Marking(unbuilt) => Within(unbuilt, n)
    case Stopped => true
  }

  ghost predicate CrewWithin(crew: seq<Worker>, n: nat) {
    forall w :: 0 <= w < |crew| && (crew[w].Copying? || crew[w].Sending?) ==> crew[w].id < n
  }

  /** Every queue holds hosts of this run. */
  ghost predicate Sound(c: Config, s: State) {
    var n := c.N();
    && s.seed.looked <= n && |s.results| == n
    && Within(s.seed.need, n) && PollWithin(s.poller, n) && Within(s.copies.q, n) && Within(s.acts.q, n)
    && CrewWithin(s.crew, n) && (s.drain.Deploying? ==> s.drain.id < n)
  }

  /** Who may be running, and which queue is closed. */
  ghost predicate Wired(c: Config, s: State) {
    && (!s.seed.spawned ==> s.poller == Waiting([]) && s.copies == Chan([], false) && s.crew == [] && !s.acts.closed
                            && s.drain.Receiving? && !s.build.over)
    && (s.seed.spawned ==> s.seed.looked == c.N() && s.seed.need == [])
    && (s.seed.spawned ==> |s.crew| == if c.copyJobs < 1 then 1 else c.copyJobs)
    && (s.copies.closed <==> s.poller.Stopped?)
    && (forall w :: 0 <= w < |s.crew| && s.crew[w].Exited? ==> s.copies == Chan([], true))
    && (s.acts.closed ==> s.seed.spawned && AllExited(s.crew))
    && (s.drain.Returned? ==> s.acts == Chan([], true))
    && s.build.store <= c.paths && (s.build.over ==> s.build.store == c.paths)
    && ((s.poller.Marking? || (s.poller.Sweeping? && s.poller.final)) ==> s.build.over)
  }

  predicate AllExited(crew: seq<Worker>) { forall w :: 0 <= w < |crew| ==> crew[w].Exited? }

  function Flag(b: bool): nat { if b then 1 else 0 }

  /** Host `i`'s slot and the history say what was decided about it; `d` is 1 while it is being deployed. */
  ghost predicate Booked(results: seq<Status>, h: History, d: nat, i: nat) {
    var done, said := Verdicts(h.verdicts, i) == 1, Said(h.verdicts, i);
    && i < |results| && results[i] == said
    && Occ(h.calls, i) == d + Flag(done && Called(said))
    && Occ(h.arrivals, i) == d + Flag(done && Arrived(said))
  }

  /** Host `i` is in exactly one place, and its books are right. */
  ghost predicate Tracked(s: State, i: nat) {
    Places(s, i) == 1 && Booked(s.results, s.hist, DrainCount(s.drain, i), i)
  }

  ghost predicate Inv(c: Config, s: State) {
    Sound(c, s) && Wired(c, s) && forall i :: 0 <= i < c.N() ==> Tracked(s, i)
  }

  // ---- The steps ----

  predicate Visible(c: Config, s: State, i: nat)
    requires i < c.N()
  {
    c.todo[i].path != "" && c.todo[i].path in s.build.store
  }

  /** May this step happen now? A send needs room in its channel. */
  predicate Enabled(c: Config, s: State, l: Label)
    requires Sound(c, s)
  {
    var n := c.N();
    match l
    case Seed => !s.seed.spawned && s.seed.looked < n && (c.todo[s.seed.looked].upToDate ==> |s.acts.q| < n)
    case Spawn => !s.seed.spawned && s.seed.looked == n
    case Realise(p) => s.seed.spawned && !s.build.over && p in c.paths && p !in s.build.store
    case BuildEnds => s.seed.spawned && !s.build.over && s.build.store == c.paths
    case Tick => s.seed.spawned && s.poller.Waiting? && s.poller.left != [] && s.build.ticks > 0
    case Wake => s.seed.spawned && s.poller.Waiting? && s.poller.left != [] && s.build.over
    case Query(yes) =>
      && s.poller.Sweeping? && s.poller.rest != []
      && (yes ==> Visible(c, s, s.poller.rest[0]) && |s.copies.q| < n)
    case SweepEnds => s.poller.Sweeping? && s.poller.rest == []
    case Mark => s.poller.Marking? && s.poller.unbuilt != []
    case PollerQuits => s.seed.spawned && (s.poller == Waiting([]) || s.poller == Marking([]))
    case Take(w) => w < |s.crew| && s.crew[w].Idle? && s.copies.q != []
    case Copied(w, _) => w < |s.crew| && s.crew[w].Copying?
    case Forward(w) => w < |s.crew| && s.crew[w].Sending? && |s.acts.q| < n
    case Leave(w) => w < |s.crew| && s.crew[w].Idle? && s.copies == Chan([], true)
    case CloseActs => s.seed.spawned && !s.acts.closed && AllExited(s.crew)
    case Receive => s.seed.spawned && s.drain.Receiving? && s.acts.q != []
    case Finish(_) => s.drain.Deploying?
    case Return => s.seed.spawned && s.drain.Receiving? && s.acts == Chan([], true)
  }

  function Judge(h: History, i: nat, status: Status): History {
    h.(verdicts := h.verdicts + [Verdict(i, status)])
  }

  /** `setStatus`, and the record of why. */
  function Decide(c: Config, s: State, i: nat, status: Status): State
    requires c.Valid() && Sound(c, s) && i < c.N()
  {
    c.SlotOwn(i);
    s.(results := s.results[c.Slot(i) := status], hist := Judge(s.hist, i, status))
  }

  /** Does a failed activation of host `i` cancel the rest? A k3s failure always does. */
  predicate Halts(c: Config, i: nat)
    requires i < c.N()
  {
    c.todo[i].host.InGroup("k3s") || c.stopOnFailure
  }

  function Push(ch: Chan, i: nat): Chan { ch.(q := ch.q + [i]) }

  function Drop(ch: Chan): Chan
    requires ch.q != []
  {
    ch.(q := ch.q[1..])
  }

  function Apply(c: Config, s: State, l: Label): State
    requires c.Valid() && Sound(c, s) && Enabled(c, s, l)
  {
    match l
    case Seed => DoSeed(s, c.todo[s.seed.looked].upToDate)
    case Spawn => DoSpawn(c, s)
    case Realise(p) => s.(build := s.build.(store := s.build.store + {p}))
    case BuildEnds => s.(build := s.build.(over := true))
    case Tick =>
      s.(build := s.build.(ticks := s.build.ticks - 1), poller := Sweeping([], s.poller.left, false))
    case Wake => s.(poller := Sweeping([], s.poller.left, true))
    case Query(yes) => DoQuery(Noted(c, s, yes), yes)
    case SweepEnds => s.(poller := if s.poller.final then Marking(s.poller.kept) else Waiting(s.poller.kept))
    case Mark => DoMark(c, s)
    case PollerQuits => s.(poller := Stopped, copies := s.copies.(closed := true))
    case Take(w) => DoTake(c, s, w)
    case Copied(w, ok) => DoCopied(c, s, w, ok)
    case Forward(w) => s.(acts := Push(s.acts, s.crew[w].id), crew := s.crew[w := Idle])
    case Leave(w) => s.(crew := s.crew[w := Exited])
    case CloseActs => s.(acts := s.acts.(closed := true))
    case Receive => DoReceive(c, s)
    case Finish(ok) => DoFinish(c, s, ok)
    case Return => s.(drain := Returned)
  }

  /** One turn of the seeding loop. */
  function DoSeed(s: State, upToDate: bool): State {
    var i := s.seed.looked;
    if upToDate then s.(seed := s.seed.(looked := i + 1), acts := Push(s.acts, i))
    else s.(seed := s.seed.(looked := i + 1, need := s.seed.need + [i]))
  }

  /** The derivations of these hosts, in order. */
  function DrvsOf(c: Config, q: seq<nat>): seq<string>
    requires Within(q, c.N())
  {
    if q == [] then [] else DrvsOf(c, q[..|q| - 1]) + [c.todo[q[|q| - 1]].drv]
  }

  /** The build gets the derivations of the hosts to build and the extra ones, and the goroutines start. */
  function DoSpawn(c: Config, s: State): State
    requires Within(s.seed.need, c.N())
  {
    s.(seed := s.seed.(spawned := true, need := []),
       poller := Waiting(SortByOrder(c, s.seed.need)), crew := seq(c.Workers(), k => Idle),
       supply := s.supply.(asked := DrvsOf(c, s.seed.need) + c.extra))
  }

  /** A query that misses a path which is there fails its host if the build is over. */
  function Noted(c: Config, s: State, yes: bool): State
    requires s.poller.Sweeping? && s.poller.rest != [] && s.poller.rest[0] < c.N()
  {
    var i := s.poller.rest[0];
    if !yes && s.poller.final && Visible(c, s, i)
      then s.(supply := s.supply.(missed := s.supply.missed + [i]))
      else s
  }

  function DoTake(c: Config, s: State, w: nat): State
    requires w < |s.crew| && s.copies.q != [] && s.copies.q[0] < c.N()
  {
    var i := s.copies.q[0];
    s.(crew := s.crew[w := Copying(i)], copies := Drop(s.copies),
       supply := s.supply.(shipped := s.supply.shipped + [Shipment(c.todo[i].host.name, c.todo[i].path)]))
  }

  function DoQuery(s: State, yes: bool): State
    requires s.poller.Sweeping? && s.poller.rest != []
  {
    var p := s.poller;
    if yes then s.(poller := p.(rest := p.rest[1..]), copies := Push(s.copies, p.rest[0]))
    else s.(poller := p.(rest := p.rest[1..], kept := p.kept + [p.rest[0]]))
  }

  function DoMark(c: Config, s: State): State
    requires c.Valid() && Sound(c, s) && s.poller.Marking? && s.poller.unbuilt != []
  {
    Decide(c, s, s.poller.unbuilt[0], BuildFailed).(poller := Marking(s.poller.unbuilt[1..]))
  }

  function DoCopied(c: Config, s: State, w: nat, ok: bool): State
    requires c.Valid() && Sound(c, s) && w < |s.crew| && s.crew[w].Copying?
  {
    if ok then s.(crew := s.crew[w := Sending(s.crew[w].id)])
    else Decide(c, s, s.crew[w].id, CopyFailed).(crew := s.crew[w := Idle])
  }

  function DoReceive(c: Config, s: State): State
    requires c.Valid() && Sound(c, s) && s.acts.q != []
  {
    var i := s.acts.q[0];
    var next := s.(acts := Drop(s.acts), hist := s.hist.(arrivals := s.hist.arrivals + [i]));
    if s.halted then Decide(c, next, i, Cancelled)
    else next.(drain := Deploying(i), hist := next.hist.(calls := s.hist.calls + [i]))
  }

  function DoFinish(c: Config, s: State, ok: bool): State
    requires c.Valid() && Sound(c, s) && s.drain.Deploying?
  {
    var i := s.drain.id;
    if ok then s.(drain := Receiving, hist := Judge(s.hist, i, Deployed))
    else Decide(c, s, i, DeployFailed).(drain := Receiving, halted := s.halted || Halts(c, i))
  }
}
