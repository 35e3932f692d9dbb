/** No send blocks or hits a closed channel, nothing deadlocks, and every schedule ends. */
module PipelineProgress {
  import opened Hosts
  import opened Pipeline
  import opened PipelineSafety

  // ---- Room ----

  /** Occurrences of 0, ..., n-1 in `q`, together. */
  function Total(q: seq<nat>, n: nat): nat {
    if n == 0 then 0 else Total(q, n - 1) + Occ(q, n - 1)
  }

  lemma {:induction false} TotalEmpty(n: nat)
    ensures Total([], n) == 0
  {
    if n > 0 { TotalEmpty(n - 1); }
  }

  lemma {:induction false} TotalPush(q: seq<nat>, x: nat, n: nat)
    ensures Total(q + [x], n) == Total(q, n) + Flag(x < n)
  {
    if n > 0 {
      TotalPush(q, x, n - 1);
      OccPush(q, x, n - 1);
    }
  }

  lemma {:induction false} TotalIsLength(q: seq<nat>, n: nat)
    requires Within(q, n)
    ensures Total(q, n) == |q|
  {
    if q == [] {
      TotalEmpty(n);
    } else {
      var front := q[..|q| - 1];
      TotalIsLength(front, n);
      TotalPush(front, q[|q| - 1], n);
      assert q == front + [q[|q| - 1]];
    }
  }

  /** With every host at most once and host `j` not at all, fewer than `n`. */
  lemma {:induction false} TotalBound(q: seq<nat>, n: nat, j: nat)
    requires forall i :: 0 <= i < n ==> Occ(q, i) <= 1
    requires j < n ==> Occ(q, j) == 0
    ensures Total(q, n) <= n - Flag(j < n)
  {
    if n > 0 { TotalBound(q, n - 1, j); }
  }

  lemma Room(q: seq<nat>, n: nat, j: nat)
    requires Within(q, n) && forall i :: 0 <= i < n ==> Occ(q, i) <= 1
    requires j < n ==> Occ(q, j) == 0
    ensures |q| <= n - Flag(j < n)
  {
    TotalIsLength(q, n);
    TotalBound(q, n, j);
  }

  lemma {:induction false} CrewHolds(crew: seq<Worker>, w: nat, i: nat)
    requires w < |crew|
    ensures Holds(crew[w], i) <= CrewCount(crew, i)
  {
    if w < |crew| - 1 { CrewHolds(crew[..|crew| - 1], w, i); }
  }

  lemma OccHead(q: seq<nat>)
    requires q != []
    ensures Occ(q, q[0]) >= 1
  {
    OccPop(q, q[0]);
  }

  lemma AtMostOnce(c: Config, s: State)
    requires Inv(c, s)
    ensures forall i :: 0 <= i < c.N() ==> Occ(s.acts.q, i) <= 1 && Occ(s.copies.q, i) <= 1
  {
    forall i | 0 <= i < c.N() ensures Occ(s.acts.q, i) <= 1 && Occ(s.copies.q, i) <= 1 {
      assert Tracked(s, i);
    }
  }

  /**
   * Wherever a goroutine is about to send, the channel has room and is open: the seeding loop with an
   * up-to-date host (before any receiver exists), the poller with a built host, a worker with a copied host.
   */
  lemma SendsNeverBlock(c: Config, s: State)
    requires c.Valid() && Inv(c, s)
    ensures !s.seed.spawned && s.seed.looked < c.N() ==> |s.acts.q| < c.N() && !s.acts.closed
    ensures s.poller.Sweeping? && s.poller.rest != [] ==> |s.copies.q| < c.N() && !s.copies.closed
    ensures forall w :: 0 <= w < |s.crew| && s.crew[w].Sending? ==> |s.acts.q| < c.N() && !s.acts.closed
  {
    AtMostOnce(c, s);
    if !s.seed.spawned && s.seed.looked < c.N() {
      assert Tracked(s, s.seed.looked);
      Room(s.acts.q, c.N(), s.seed.looked);
    }
    if s.poller.Sweeping? && s.poller.rest != [] {
      var j := s.poller.rest[0];
      OccHead(s.poller.rest);
      assert Tracked(s, j);
      Room(s.copies.q, c.N(), j);
    }
    forall w | 0 <= w < |s.crew| && s.crew[w].Sending? ensures |s.acts.q| < c.N() && !s.acts.closed {
      var j := s.crew[w].id;
      CrewHolds(s.crew, w, j);
      assert Tracked(s, j);
      Room(s.acts.q, c.N(), j);
    }
  }

  // ---- Always a next step ----

  /** Some step is enabled until the pipeline returns. */
  method NextStep(c: Config, s: State) returns (l: Label)
    requires c.Valid() && Inv(c, s) && !s.drain.Returned?
    ensures Enabled(c, s, l)
  {
    SendsNeverBlock(c, s);
    if !s.seed.spawned {
      return if s.seed.looked < c.N() then Seed else Spawn;
    }
    if !s.build.over {
      var missing := c.paths - s.build.store;
      if missing == {} {
        assert c.paths == s.build.store + missing;
        return BuildEnds;
      }
      var p :| p in missing;
      return Realise(p);
    }
    match s.poller {
      case Waiting(left) => return if left == [] then PollerQuits else Wake;
      case Sweeping(_, rest, _) => return if rest == [] then SweepEnds else Query(Visible(c, s, rest[0]));
      case Marking(unbuilt) => return if unbuilt == [] then PollerQuits else Mark;
      case Stopped =>
    }
    var w := 0;
    while w < |s.crew| && s.crew[w].Exited?
      invariant w <= |s.crew|
      invariant forall v :: 0 <= v < w ==> s.crew[v].Exited?
    {
      w := w + 1;
    }
    if w < |s.crew| {
      match s.crew[w] {
        case Idle => return if s.copies.q != [] then Take(w) else Leave(w);
        case Copying(_) => return Copied(w, true);
        case Sending(_) => return Forward(w);
      }
    }
    if !s.acts.closed { return CloseActs; }
    if s.drain.Deploying? { return Finish(true); }
    return if s.acts.q != [] then Receive else Return;
  }

  // ---- Every schedule ends ----

  function PollLength(p: Poller): nat {
    match p
    case Waiting(left) => |left|
    case Sweeping(kept, rest, _) => |kept| + |rest|
    case Marking(unbuilt) => |unbuilt|
    case Stopped => 0
  }

  /** What the sweep in progress still costs. */
  function SweepCost(p: Poller): nat { if p.Sweeping? then |p.rest| + 1 else 0 }

  /** Sweeps that can still start. */
  function SweepsLeft(s: State): nat {
    s.build.ticks + Flag(s.poller.Waiting? || (s.poller.Sweeping? && !s.poller.final))
  }

  function WorkerCost(w: Worker): nat {
    match w
    case Idle => 1
    case Copying(_) => 5
    case Sending(_) => 4
    case Exited => 0
  }

  function CrewCost(crew: seq<Worker>): nat {
    if crew == [] then 0 else CrewCost(crew[..|crew| - 1]) + WorkerCost(crew[|crew| - 1])
  }

  /** Stages the hosts still have before them. */
  function StageCost(c: Config, s: State): int {
    8 * (c.N() - s.seed.looked) + 6 * (|s.seed.need| + PollLength(s.poller)) + 5 * |s.copies.q|
    + CrewCost(s.crew) + 2 * |s.acts.q| + Flag(s.drain.Deploying?)
  }

  /** One-off transitions still to come. */
  function OnceCost(c: Config, s: State): nat {
    (if s.seed.spawned then 0 else c.Workers() + 1) + |c.paths - s.build.store| + Flag(!s.build.over)
    + Flag(!s.poller.Stopped?) + Flag(!s.acts.closed) + Flag(!s.drain.Returned?)
  }

  /** An upper bound on the steps left. */
  function Measure(c: Config, s: State): int {
    SweepsLeft(s) * (c.N() + 2) + SweepCost(s.poller) + StageCost(c, s) + OnceCost(c, s)
  }

  lemma {:induction false} CrewCostUpdate(crew: seq<Worker>, w: nat, x: Worker)
    requires w < |crew|
    ensures CrewCost(crew[w := x]) + WorkerCost(crew[w]) == CrewCost(crew) + WorkerCost(x)
  {
    var n := |crew| - 1;
    if w == n {
      assert crew[w := x][..n] == crew[..n];
    } else {
      CrewCostUpdate(crew[..n], w, x);
      assert crew[w := x][..n] == crew[..n][w := x];
    }
  }

  lemma {:induction false} IdleCost(crew: seq<Worker>)
    requires forall w :: 0 <= w < |crew| ==> crew[w].Idle?
    ensures CrewCost(crew) == |crew|
  {
    if crew != [] { IdleCost(crew[..|crew| - 1]); }
  }

  lemma LeftBound(c: Config, s: State)
    requires Inv(c, s) && s.poller.Waiting?
    ensures |s.poller.left| <= c.N()
  {
    forall i | 0 <= i < c.N() ensures Occ(s.poller.left, i) <= 1 { assert Tracked(s, i); }
    Room(s.poller.left, c.N(), c.N());
  }

  lemma OneSweepLess(t: nat, m: nat)
    requires t > 0
    ensures (t - 1) * m == t * m - m
  {
  }

  lemma DecreasesSweep(c: Config, s: State, l: Label)
    requires c.Valid() && Inv(c, s) && Enabled(c, s, l) && (l.Tick? || l.Wake?)
    ensures Measure(c, Apply(c, s, l)) < Measure(c, s)
  {
    LeftBound(c, s);
    var s' := Apply(c, s, l);
    assert SweepsLeft(s') == SweepsLeft(s) - 1;
    OneSweepLess(SweepsLeft(s), c.N() + 2);
    assert StageCost(c, s') == StageCost(c, s) && OnceCost(c, s') == OnceCost(c, s);
  }

  lemma DecreasesQuit(c: Config, s: State)
    requires c.Valid() && Inv(c, s) && Enabled(c, s, PollerQuits)
    ensures Measure(c, Apply(c, s, PollerQuits)) < Measure(c, s)
  {
    if s.poller.Waiting? { OneSweepLess(SweepsLeft(s), c.N() + 2); }
  }

  lemma DecreasesBuild(c: Config, s: State, l: Label)
    requires c.Valid() && Inv(c, s) && Enabled(c, s, l) && (l.Realise? || l.BuildEnds?)
    ensures Measure(c, Apply(c, s, l)) < Measure(c, s)
  {
    if l.Realise? {
      assert c.paths - s.build.store == (c.paths - (s.build.store + {l.path})) + {l.path};
    }
  }

  /** Fewer stages left, everything else as before. */
  ghost predicate StageDone(c: Config, s: State, s': State) {
    && StageCost(c, s') < StageCost(c, s)
    && OnceCost(c, s') == OnceCost(c, s) && SweepsLeft(s') == SweepsLeft(s)
    && SweepCost(s'.poller) <= SweepCost(s.poller)
  }

  lemma StageDoneDecreases(c: Config, s: State, s': State)
    requires StageDone(c, s, s')
    ensures Measure(c, s') < Measure(c, s)
  {
  }

  lemma DecreasesTake(c: Config, s: State, w: nat)
    requires c.Valid() && Sound(c, s) && Enabled(c, s, Take(w))
    ensures StageDone(c, s, Apply(c, s, Take(w)))
  {
    CrewCostUpdate(s.crew, w, Copying(s.copies.q[0]));
  }

  lemma DecreasesCopied(c: Config, s: State, w: nat, ok: bool)
    requires c.Valid() && Sound(c, s) && w < |s.crew| && s.crew[w].Copying?
    ensures StageDone(c, s, DoCopied(c, s, w, ok))
  {
    CrewCostUpdate(s.crew, w, if ok then Sending(s.crew[w].id) else Idle);
  }

  lemma DecreasesForward(c: Config, s: State, w: nat)
    requires c.Valid() && Sound(c, s) && Enabled(c, s, Forward(w))
    ensures StageDone(c, s, Apply(c, s, Forward(w)))
  {
    CrewCostUpdate(s.crew, w, Idle);
  }

  lemma DecreasesLeave(c: Config, s: State, w: nat)
    requires c.Valid() && Sound(c, s) && Enabled(c, s, Leave(w))
    ensures StageDone(c, s, Apply(c, s, Leave(w)))
  {
    CrewCostUpdate(s.crew, w, Exited);
  }

  lemma DecreasesSeed(c: Config, s: State, upToDate: bool)
    requires s.seed.looked < c.N()
    ensures StageDone(c, s, DoSeed(s, upToDate))
  {
  }

  lemma DecreasesMark(c: Config, s: State)
    requires c.Valid() && Sound(c, s) && s.poller.Marking? && s.poller.unbuilt != []
    ensures StageDone(c, s, DoMark(c, s))
  {
  }

  lemma DecreasesReceive(c: Config, s: State)
    requires c.Valid() && Sound(c, s) && s.acts.q != [] && s.drain.Receiving?
    ensures StageDone(c, s, DoReceive(c, s))
  {
  }

  lemma DecreasesFinish(c: Config, s: State, ok: bool)
    requires c.Valid() && Sound(c, s) && s.drain.Deploying?
    ensures StageDone(c, s, DoFinish(c, s, ok))
  {
  }

  lemma DecreasesQuery(c: Config, s: State)
    requires s.poller.Sweeping? && s.poller.rest != []
    ensures StageDone(c, s, DoQuery(s, true))
  {
  }

  lemma DecreasesSpawn(c: Config, s: State)
    requires c.Valid() && Inv(c, s) && Enabled(c, s, Spawn)
    ensures Measure(c, Apply(c, s, Spawn)) < Measure(c, s)
  {
    IdleCost(Apply(c, s, Spawn).crew);
  }

  /** Steps that take a host to its next stage. */
  predicate MovesHost(l: Label) {
    l.Take? || l.Copied? || l.Forward? || l.Leave? || l.Seed? || l.Mark? || l.Receive? || l.Finish? || l == Query(true)
  }

  /** Every step brings the bound down. */
  lemma Decreases(c: Config, s: State, l: Label)
    requires c.Valid() && Inv(c, s) && Enabled(c, s, l)
    ensures Measure(c, Apply(c, s, l)) < Measure(c, s)
  {
    if MovesHost(l) {
      match l {
        case Take(w) => DecreasesTake(c, s, w);
        case Copied(w, ok) => DecreasesCopied(c, s, w, ok);
        case Forward(w) => DecreasesForward(c, s, w);
        case Leave(w) => DecreasesLeave(c, s, w);
        case Seed => DecreasesSeed(c, s, c.todo[s.seed.looked].upToDate);
        case Mark => DecreasesMark(c, s);
        case Receive => DecreasesReceive(c, s);
        case Finish(ok) => DecreasesFinish(c, s, ok);
        case Query(_) => DecreasesQuery(c, s);
      }
      StageDoneDecreases(c, s, Apply(c, s, l));
    } else {
      DecreasesRest(c, s, l);
    }
  }

  lemma DecreasesRest(c: Config, s: State, l: Label)
    requires c.Valid() && Inv(c, s) && Enabled(c, s, l)
    requires !MovesHost(l)
    ensures Measure(c, Apply(c, s, l)) < Measure(c, s)
  {
    match l
    case Spawn => DecreasesSpawn(c, s);
    case Realise(_) => DecreasesBuild(c, s, l);
    case BuildEnds => DecreasesBuild(c, s, l);
    case Tick => DecreasesSweep(c, s, l);
    case Wake => DecreasesSweep(c, s, l);
    case PollerQuits => DecreasesQuit(c, s);
    case _ =>
  }

  lemma MeasureNonNegative(c: Config, s: State)
    requires Sound(c, s)
    ensures Measure(c, s) >= 0
  {
    assert SweepsLeft(s) * (c.N() + 2) >= 0;
  }

  /** No schedule is longer than the bound at its start. */
  lemma {:induction false} SchedulesAreBounded(c: Config, s: State, ls: seq<Label>)
    requires c.Valid() && Inv(c, s) && CanRun(c, s, ls)
    ensures |ls| + Measure(c, RunAll(c, s, ls)) <= Measure(c, s)
    ensures |ls| <= Measure(c, s)
    decreases |ls|
  {
    if ls != [] {
      Keeps(c, s, ls[0]);
      Decreases(c, s, ls[0]);
      SchedulesAreBounded(c, Apply(c, s, ls[0]), ls[1..]);
    }
    MeasureNonNegative(c, RunAll(c, s, ls));
  }
}
