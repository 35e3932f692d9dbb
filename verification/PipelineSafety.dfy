/** What every schedule of the pipeline keeps, and what it has decided when it returns. */
module PipelineSafety {
  import opened Hosts
  import opened Pipeline

  // ---- Counting ----

  lemma OccPush(q: seq<nat>, x: nat, i: nat)
    ensures Occ(q + [x], i) == Occ(q, i) + Flag(x == i)
  {
    assert (q + [x])[..|q|] == q;
  }

  lemma {:induction false} OccPop(q: seq<nat>, i: nat)
    requires q != []
    ensures Occ(q, i) == Flag(q[0] == i) + Occ(q[1..], i)
  {
    var n := |q| - 1;
    if n > 0 {
      OccPop(q[..n], i);
      assert q[..n][1..] == q[1..][..n - 1];
    }
  }

  lemma {:induction false} CrewUpdate(crew: seq<Worker>, w: nat, x: Worker, i: nat)
    requires w < |crew|
    ensures CrewCount(crew[w := x], i) + Holds(crew[w], i) == CrewCount(crew, i) + Holds(x, i)
  {
    var n := |crew| - 1;
    if w == n {
      assert crew[w := x][..n] == crew[..n];
    } else {
      CrewUpdate(crew[..n], w, x, i);
      assert crew[w := x][..n] == crew[..n][w := x];
    }
  }

  lemma {:induction false} CrewResting(crew: seq<Worker>, i: nat)
    requires forall w :: 0 <= w < |crew| ==> crew[w].Idle? || crew[w].Exited?
    ensures CrewCount(crew, i) == 0
  {
    if crew != [] { CrewResting(crew[..|crew| - 1], i); }
  }

  lemma JudgeCount(vs: seq<Verdict>, v: Verdict, i: nat)
    ensures Verdicts(vs + [v], i) == Verdicts(vs, i) + Flag(v.id == i)
    ensures Said(vs + [v], i) == if v.id == i then v.status else Said(vs, i)
  {
    assert (vs + [v])[..|vs|] == vs;
  }

  lemma {:induction false} SaidDefault(vs: seq<Verdict>, i: nat)
    requires Verdicts(vs, i) == 0
    ensures Said(vs, i) == Deployed
  {
    if vs != [] { SaidDefault(vs[..|vs| - 1], i); }
  }

  // ---- The start ----

  lemma StartInv(c: Config, ticks: nat)
    requires c.Valid()
    ensures Inv(c, Start(c, ticks))
  {
  }

  // ---- Each step keeps one host in one place ----

  lemma PlacesSeed(s: State, upToDate: bool, i: nat)
    ensures Places(DoSeed(s, upToDate), i) == Places(s, i)
  {
    if upToDate { OccPush(s.acts.q, s.seed.looked, i); } else { OccPush(s.seed.need, s.seed.looked, i); }
  }

  lemma PlacesSpawn(c: Config, s: State, i: nat)
    requires Within(s.seed.need, c.N()) && s.poller == Waiting([]) && s.crew == []
    ensures Places(DoSpawn(c, s), i) == Places(s, i)
  {
    CrewResting(DoSpawn(c, s).crew, i);
    assert Occ(SortByOrder(c, s.seed.need), i) == Occ(s.seed.need, i);
  }

  lemma PlacesQuery(s: State, yes: bool, i: nat)
    requires s.poller.Sweeping? && s.poller.rest != []
    ensures Places(DoQuery(s, yes), i) == Places(s, i)
  {
    OccPop(s.poller.rest, i);
    if yes { OccPush(s.copies.q, s.poller.rest[0], i); } else { OccPush(s.poller.kept, s.poller.rest[0], i); }
  }

  lemma PlacesMark(c: Config, s: State, i: nat)
    requires c.Valid() && Sound(c, s) && s.poller.Marking? && s.poller.unbuilt != []
    ensures Places(DoMark(c, s), i) == Places(s, i)
  {
    OccPop(s.poller.unbuilt, i);
    JudgeCount(s.hist.verdicts, Verdict(s.poller.unbuilt[0], BuildFailed), i);
  }

  lemma PlacesTake(c: Config, s: State, w: nat, i: nat)
    requires w < |s.crew| && s.crew[w].Idle? && s.copies.q != [] && s.copies.q[0] < c.N()
    ensures Places(DoTake(c, s, w), i) == Places(s, i)
  {
    OccPop(s.copies.q, i);
    CrewUpdate(s.crew, w, Copying(s.copies.q[0]), i);
  }

  lemma PlacesCopied(c: Config, s: State, w: nat, ok: bool, i: nat)
    requires c.Valid() && Sound(c, s) && w < |s.crew| && s.crew[w].Copying?
    ensures Places(DoCopied(c, s, w, ok), i) == Places(s, i)
  {
    if ok {
      CrewUpdate(s.crew, w, Sending(s.crew[w].id), i);
    } else {
      CrewUpdate(s.crew, w, Idle, i);
      JudgeCount(s.hist.verdicts, Verdict(s.crew[w].id, CopyFailed), i);
    }
  }

  lemma PlacesForward(s: State, w: nat, i: nat)
    requires w < |s.crew| && s.crew[w].Sending?
    ensures Places(s.(acts := Push(s.acts, s.crew[w].id), crew := s.crew[w := Idle]), i) == Places(s, i)
  {
    CrewUpdate(s.crew, w, Idle, i);
    OccPush(s.acts.q, s.crew[w].id, i);
  }

  lemma PlacesLeave(s: State, w: nat, i: nat)
    requires w < |s.crew| && s.crew[w].Idle?
    ensures Places(s.(crew := s.crew[w := Exited]), i) == Places(s, i)
  {
    CrewUpdate(s.crew, w, Exited, i);
  }

  lemma PlacesReceive(c: Config, s: State, i: nat)
    requires c.Valid() && Sound(c, s) && s.acts.q != [] && s.drain.Receiving?
    ensures Places(DoReceive(c, s), i) == Places(s, i)
  {
    OccPop(s.acts.q, i);
    JudgeCount(s.hist.verdicts, Verdict(s.acts.q[0], Cancelled), i);
  }

  lemma PlacesFinish(c: Config, s: State, ok: bool, i: nat)
    requires c.Valid() && Sound(c, s) && s.drain.Deploying?
    ensures Places(DoFinish(c, s, ok), i) == Places(s, i)
  {
    JudgeCount(s.hist.verdicts, Verdict(s.drain.id, if ok then Deployed else DeployFailed), i);
  }

  // ---- ... and its books right ----

  /** The entry of host `i` in a history: how many verdicts, the last of them, how many calls and arrivals. */
  ghost predicate Entry(h: History, i: nat, n: nat, said: Status, calls: nat, arrivals: nat) {
    && Verdicts(h.verdicts, i) == n && Said(h.verdicts, i) == said
    && Occ(h.calls, i) == calls && Occ(h.arrivals, i) == arrivals
  }

  lemma JudgeEntry(h: History, x: nat, status: Status, i: nat, n: nat, said: Status, calls: nat, arrivals: nat)
    requires Entry(h, i, n, said, calls, arrivals)
    ensures Entry(Judge(h, x, status), i, n + Flag(x == i), if x == i then status else said, calls, arrivals)
  {
    JudgeCount(h.verdicts, Verdict(x, status), i);
  }

  lemma ArriveEntry(h: History, x: nat, i: nat, n: nat, said: Status, calls: nat, arrivals: nat)
    requires Entry(h, i, n, said, calls, arrivals)
    ensures Entry(h.(arrivals := h.arrivals + [x]), i, n, said, calls, arrivals + Flag(x == i))
  {
    OccPush(h.arrivals, x, i);
  }

  lemma CallEntry(h: History, x: nat, i: nat, n: nat, said: Status, calls: nat, arrivals: nat)
    requires Entry(h, i, n, said, calls, arrivals)
    ensures Entry(h.(calls := h.calls + [x]), i, n, said, calls + Flag(x == i), arrivals)
  {
    OccPush(h.calls, x, i);
  }

  /** A verdict other than a cancellation; a host being deployed stops being so. */
  lemma BookVerdict(results: seq<Status>, h: History, d: nat, x: nat, status: Status, i: nat)
    requires Booked(results, h, d + Flag(x == i && Called(status)), i) && x < |results| && !status.Cancelled?
    requires x == i ==> Verdicts(h.verdicts, i) == 0
    ensures Booked(results[x := status], Judge(h, x, status), d, i)
  {
    JudgeEntry(h, x, status, i, Verdicts(h.verdicts, i), Said(h.verdicts, i), Occ(h.calls, i), Occ(h.arrivals, i));
  }

  lemma BookCancelled(results: seq<Status>, h: History, x: nat, i: nat)
    requires Booked(results, h, 0, i) && x < |results| && (x == i ==> Verdicts(h.verdicts, i) == 0)
    ensures Booked(results[x := Cancelled], Judge(h.(arrivals := h.arrivals + [x]), x, Cancelled), 0, i)
  {
    var n, said, calls, arrivals := Verdicts(h.verdicts, i), Said(h.verdicts, i), Occ(h.calls, i), Occ(h.arrivals, i);
    ArriveEntry(h, x, i, n, said, calls, arrivals);
    JudgeEntry(h.(arrivals := h.arrivals + [x]), x, Cancelled, i, n, said, calls, arrivals + Flag(x == i));
  }

  lemma BookCall(results: seq<Status>, h: History, x: nat, i: nat)
    requires Booked(results, h, 0, i) && (x == i ==> Verdicts(h.verdicts, i) == 0)
    ensures Booked(results, h.(arrivals := h.arrivals + [x], calls := h.calls + [x]), Flag(x == i), i)
  {
    var n, said, calls, arrivals := Verdicts(h.verdicts, i), Said(h.verdicts, i), Occ(h.calls, i), Occ(h.arrivals, i);
    ArriveEntry(h, x, i, n, said, calls, arrivals);
    CallEntry(h.(arrivals := h.arrivals + [x]), x, i, n, said, calls, arrivals + Flag(x == i));
  }

  /** A true deploy leaves the slot alone: it already reads Deployed. */
  lemma BookDeployed(results: seq<Status>, h: History, x: nat, i: nat)
    requires Booked(results, h, Flag(x == i), i)
    requires x == i ==> Verdicts(h.verdicts, i) == 0
    ensures Booked(results, Judge(h, x, Deployed), 0, i)
  {
    JudgeEntry(h, x, Deployed, i, Verdicts(h.verdicts, i), Said(h.verdicts, i), Occ(h.calls, i), Occ(h.arrivals, i));
    if x == i { SaidDefault(h.verdicts, i); }
  }

  lemma TrackMark(c: Config, s: State, i: nat)
    requires c.Valid() && Sound(c, s) && s.poller.Marking? && s.poller.unbuilt != [] && Tracked(s, i)
    ensures Tracked(DoMark(c, s), i)
  {
    var x := s.poller.unbuilt[0];
    c.SlotOwn(x);
    PlacesMark(c, s, i);
    OccPop(s.poller.unbuilt, i);
    BookVerdict(s.results, s.hist, DrainCount(s.drain, i), x, BuildFailed, i);
  }

  lemma TrackCopied(c: Config, s: State, w: nat, ok: bool, i: nat)
    requires c.Valid() && Sound(c, s) && w < |s.crew| && s.crew[w].Copying? && Tracked(s, i)
    ensures Tracked(DoCopied(c, s, w, ok), i)
  {
    var x := s.crew[w].id;
    PlacesCopied(c, s, w, ok, i);
    if !ok {
      c.SlotOwn(x);
      CrewUpdate(s.crew, w, Idle, i);
      BookVerdict(s.results, s.hist, DrainCount(s.drain, i), x, CopyFailed, i);
    }
  }

  lemma TrackReceive(c: Config, s: State, i: nat)
    requires c.Valid() && Sound(c, s) && s.acts.q != [] && s.drain.Receiving? && Tracked(s, i)
    ensures Tracked(DoReceive(c, s), i)
  {
    var x := s.acts.q[0];
    c.SlotOwn(x);
    PlacesReceive(c, s, i);
    OccPop(s.acts.q, i);
    if s.halted { BookCancelled(s.results, s.hist, x, i); } else { BookCall(s.results, s.hist, x, i); }
  }

  lemma TrackFinish(c: Config, s: State, ok: bool, i: nat)
    requires c.Valid() && Sound(c, s) && s.drain.Deploying? && Tracked(s, i)
    ensures Tracked(DoFinish(c, s, ok), i)
  {
    var x := s.drain.id;
    c.SlotOwn(x);
    PlacesFinish(c, s, ok, i);
    if ok {
      BookDeployed(s.results, s.hist, x, i);
    } else {
      BookVerdict(s.results, s.hist, 0, x, DeployFailed, i);
    }
  }

  /** A host that only moves keeps its books. */
  lemma TrackMoved(s: State, s': State, i: nat)
    requires Tracked(s, i) && OnlyMoves(s, s', i)
    ensures Tracked(s', i)
  {
  }

  predicate Decides(l: Label) { l.Mark? || l.Copied? || l.Receive? || l.Finish? }

  /** The step leaves host `i` in as many places as before, and decides nothing. */
  ghost predicate OnlyMoves(s: State, s': State, i: nat) {
    && Places(s', i) == Places(s, i) && s'.results == s.results && s'.hist == s.hist
    && (s'.drain == s.drain || (s.drain.Receiving? && s'.drain.Returned?))
  }

  lemma MovesCrew(c: Config, s: State, l: Label, i: nat)
    requires c.Valid() && Sound(c, s) && Enabled(c, s, l) && (l.Take? || l.Forward? || l.Leave?)
    ensures OnlyMoves(s, Apply(c, s, l), i)
  {
    match l
    case Take(w) => PlacesTake(c, s, w, i);
    case Forward(w) => PlacesForward(s, w, i);
    case Leave(w) => PlacesLeave(s, w, i);
  }

  lemma MovesRest(c: Config, s: State, l: Label, i: nat)
    requires c.Valid() && Sound(c, s) && Wired(c, s) && Enabled(c, s, l)
    requires !Decides(l) && !l.Take? && !l.Forward? && !l.Leave?
    ensures OnlyMoves(s, Apply(c, s, l), i)
  {
    match l
    case Seed => PlacesSeed(s, c.todo[s.seed.looked].upToDate, i);
    case Spawn => PlacesSpawn(c, s, i);
    case Query(yes) => PlacesQuery(Noted(c, s, yes), yes, i);
    case _ => MovesLittle(c, s, l, i);
  }

  lemma MovesLittle(c: Config, s: State, l: Label, i: nat)
    requires c.Valid() && Sound(c, s) && Enabled(c, s, l) && !Decides(l)
    requires !l.Seed? && !l.Spawn? && !l.Query? && !l.Take? && !l.Forward? && !l.Leave?
    ensures OnlyMoves(s, Apply(c, s, l), i)
  {
  }

  lemma TracksMove(c: Config, s: State, l: Label, i: nat)
    requires c.Valid() && Sound(c, s) && Wired(c, s) && Enabled(c, s, l) && Tracked(s, i) && !Decides(l)
    ensures Tracked(Apply(c, s, l), i)
  {
    if l.Take? || l.Forward? || l.Leave? { MovesCrew(c, s, l, i); } else { MovesRest(c, s, l, i); }
    TrackMoved(s, Apply(c, s, l), i);
  }

  lemma TracksDecision(c: Config, s: State, l: Label, i: nat)
    requires c.Valid() && Sound(c, s) && Enabled(c, s, l) && Tracked(s, i) && Decides(l)
    ensures Tracked(Apply(c, s, l), i)
  {
    match l
    case Mark => TrackMark(c, s, i);
    case Copied(w, ok) => TrackCopied(c, s, w, ok, i);
    case Receive => TrackReceive(c, s, i);
    case Finish(ok) => TrackFinish(c, s, ok, i);
  }

  lemma Tracks(c: Config, s: State, l: Label, i: nat)
    requires c.Valid() && Sound(c, s) && Wired(c, s) && Enabled(c, s, l) && Tracked(s, i)
    ensures Tracked(Apply(c, s, l), i)
  {
    if Decides(l) { TracksDecision(c, s, l, i); } else { TracksMove(c, s, l, i); }
  }

  // ---- Each step keeps the shape ----

  lemma SortWithin(c: Config, q: seq<nat>)
    requires Within(q, c.N())
    ensures Within(SortByOrder(c, q), c.N())
  {
    var r := SortByOrder(c, q);
    forall k | 0 <= k < |r| ensures r[k] < c.N() {
      assert r[k] in q;
    }
  }

  lemma SoundTake(c: Config, s: State, w: nat)
    requires Sound(c, s) && w < |s.crew| && s.copies.q != []
    ensures Sound(c, DoTake(c, s, w))
  {
  }

  lemma KeepsSound(c: Config, s: State, l: Label)
    requires c.Valid() && Sound(c, s) && Enabled(c, s, l)
    ensures Sound(c, Apply(c, s, l))
  {
    match l
    case Seed => SoundSeed(c, s, c.todo[s.seed.looked].upToDate);
    case Spawn => SortWithin(c, s.seed.need);
    case Query(yes) => SoundQuery(c, Noted(c, s, yes), yes);
    case Mark => SoundMark(c, s);
    case Take(w) => SoundTake(c, s, w);
    case Copied(w, ok) => SoundCopied(c, s, w, ok);
    case Receive => SoundReceive(c, s);
    case Finish(ok) => SoundFinish(c, s, ok);
    case _ => SoundRest(c, s, l);
  }

  lemma SoundRest(c: Config, s: State, l: Label)
    requires c.Valid() && Sound(c, s) && Enabled(c, s, l) && !Decides(l)
    requires !l.Seed? && !l.Spawn? && !l.Query? && !l.Take?
    ensures Sound(c, Apply(c, s, l))
  {
  }

  lemma SoundSeed(c: Config, s: State, upToDate: bool)
    requires Sound(c, s) && s.seed.looked < c.N()
    ensures Sound(c, DoSeed(s, upToDate))
  {
  }

  lemma SoundQuery(c: Config, s: State, yes: bool)
    requires Sound(c, s) && s.poller.Sweeping? && s.poller.rest != []
    ensures Sound(c, DoQuery(s, yes))
  {
  }

  lemma SoundMark(c: Config, s: State)
    requires c.Valid() && Sound(c, s) && s.poller.Marking? && s.poller.unbuilt != []
    ensures Sound(c, DoMark(c, s))
  {
    c.SlotOwn(s.poller.unbuilt[0]);
  }

  lemma SoundCopied(c: Config, s: State, w: nat, ok: bool)
    requires c.Valid() && Sound(c, s) && w < |s.crew| && s.crew[w].Copying?
    ensures Sound(c, DoCopied(c, s, w, ok))
  {
    c.SlotOwn(s.crew[w].id);
  }

  lemma SoundReceive(c: Config, s: State)
    requires c.Valid() && Sound(c, s) && s.acts.q != []
    ensures Sound(c, DoReceive(c, s))
  {
    c.SlotOwn(s.acts.q[0]);
  }

  lemma SoundFinish(c: Config, s: State, ok: bool)
    requires c.Valid() && Sound(c, s) && s.drain.Deploying?
    ensures Sound(c, DoFinish(c, s, ok))
  {
    c.SlotOwn(s.drain.id);
  }

  lemma WiredPoller(c: Config, s: State, l: Label)
    requires c.Valid() && Sound(c, s) && Wired(c, s) && Enabled(c, s, l)
    requires l.Tick? || l.Wake? || l.Query? || l.SweepEnds? || l.Mark? || l.PollerQuits?
    ensures Wired(c, Apply(c, s, l))
  {
  }

  lemma WiredCrew(c: Config, s: State, l: Label)
    requires c.Valid() && Sound(c, s) && Wired(c, s) && Enabled(c, s, l)
    requires l.Take? || l.Copied? || l.Forward? || l.Leave?
    ensures Wired(c, Apply(c, s, l))
  {
  }

  lemma WiredRest(c: Config, s: State, l: Label)
    requires c.Valid() && Sound(c, s) && Wired(c, s) && Enabled(c, s, l)
    requires l.Seed? || l.Spawn? || l.Realise? || l.BuildEnds? || l.CloseActs? || l.Receive? || l.Finish? || l.Return?
    ensures Wired(c, Apply(c, s, l))
  {
  }

  lemma KeepsWired(c: Config, s: State, l: Label)
    requires c.Valid() && Sound(c, s) && Wired(c, s) && Enabled(c, s, l)
    ensures Wired(c, Apply(c, s, l))
  {
    if l.Take? || l.Copied? || l.Forward? || l.Leave? {
      WiredCrew(c, s, l);
    } else if l.Tick? || l.Wake? || l.Query? || l.SweepEnds? || l.Mark? || l.PollerQuits? {
      WiredPoller(c, s, l);
    } else {
      WiredRest(c, s, l);
    }
  }

  /** Every step of every goroutine keeps the invariant. */
  lemma Keeps(c: Config, s: State, l: Label)
    requires c.Valid() && Inv(c, s) && Enabled(c, s, l)
    ensures Inv(c, Apply(c, s, l))
  {
    KeepsSound(c, s, l);
    KeepsWired(c, s, l);
    forall i | 0 <= i < c.N() ensures Tracked(Apply(c, s, l), i) { Tracks(c, s, l, i); }
  }

  // ---- Whole runs ----

  /** `ls` is a schedule from `s`: each step is enabled where it is taken. */
  ghost predicate CanRun(c: Config, s: State, ls: seq<Label>)
    requires c.Valid() && Inv(c, s)
    decreases |ls|
  {
    ls == [] || (Enabled(c, s, ls[0]) && (Keeps(c, s, ls[0]); CanRun(c, Apply(c, s, ls[0]), ls[1..])))
  }

  ghost function RunAll(c: Config, s: State, ls: seq<Label>): (s': State)
    requires c.Valid() && Inv(c, s) && CanRun(c, s, ls)
    ensures Inv(c, s')
    decreases |ls|
  {
    if ls == [] then s else (Keeps(c, s, ls[0]); RunAll(c, Apply(c, s, ls[0]), ls[1..]))
  }

  // ---- What a finished run has decided ----

  lemma FinishedIsEmpty(c: Config, s: State, i: nat)
    requires c.Valid() && Inv(c, s) && s.drain.Returned? && i < c.N()
    ensures Places(s, i) == Verdicts(s.hist.verdicts, i) == 1
  {
    assert s.crew[0].Exited?;
    CrewResting(s.crew, i);
    assert Tracked(s, i);
  }

  lemma {:induction false} FindVerdict(vs: seq<Verdict>, i: nat) returns (k: nat)
    requires Verdicts(vs, i) > 0
    ensures k < |vs| && vs[k] == Verdict(i, Said(vs, i))
  {
    var n := |vs| - 1;
    if vs[n].id == i { k := n; } else { k := FindVerdict(vs[..n], i); }
  }

  lemma {:induction false} OnlyVerdict(vs: seq<Verdict>, i: nat, k: nat)
    requires Verdicts(vs, i) == 1 && k < |vs| && vs[k].id == i
    ensures vs[k].status == Said(vs, i)
  {
    var n := |vs| - 1;
    if k < n {
      VerdictCounted(vs[..n], k);
      OnlyVerdict(vs[..n], i, k);
    }
  }

  lemma {:induction false} VerdictCounted(vs: seq<Verdict>, k: nat)
    requires k < |vs|
    ensures Verdicts(vs, vs[k].id) > 0
  {
    if k < |vs| - 1 { VerdictCounted(vs[..|vs| - 1], k); }
  }

  /**
   * When the pipeline returns, under any schedule, every host got exactly one verdict and its slot holds it.
   * Deploy was called once for the hosts reported Deployed or DeployFailed and never for the others; a slot
   * reads Deployed exactly when that one call returned true, so no host is lost on the initial value.
   */
  lemma FinishedRun(c: Config, ticks: nat, ls: seq<Label>, i: nat)
    requires c.Valid() && Inv(c, Start(c, ticks)) && CanRun(c, Start(c, ticks), ls) && i < c.N()
    requires RunAll(c, Start(c, ticks), ls).drain.Returned?
    ensures var s := RunAll(c, Start(c, ticks), ls);
            && i < |s.results| && Verdicts(s.hist.verdicts, i) == 1
            && (exists k :: 0 <= k < |s.hist.verdicts| && s.hist.verdicts[k] == Verdict(i, s.results[i]))
            && (forall k :: 0 <= k < |s.hist.verdicts| && s.hist.verdicts[k].id == i ==>
                  s.hist.verdicts[k].status == s.results[i])
            && Occ(s.hist.calls, i) == Flag(Called(s.results[i]))
            && Occ(s.hist.arrivals, i) == Flag(Arrived(s.results[i]))
  {
    var s := RunAll(c, Start(c, ticks), ls);
    FinishedIsEmpty(c, s, i);
    assert Tracked(s, i);
    var k := FindVerdict(s.hist.verdicts, i);
    forall k | 0 <= k < |s.hist.verdicts| && s.hist.verdicts[k].id == i
      ensures s.hist.verdicts[k].status == s.results[i]
    {
      OnlyVerdict(s.hist.verdicts, i, k);
    }
  }
}
