/** What the schedule can and cannot change about the result, once each host's own outcomes are fixed. */
module PipelineOutcome {
  import opened Hosts
  import opened Pipeline
  import opened PipelineSafety

  /** The hosts whose copy succeeds and those whose activation succeeds, if they get there. */
  datatype Outcomes = Outcomes(copyOk: set<string>, deployOk: set<string>)

  /** The step agrees with the fixed outcomes. */
  predicate Follows(c: Config, o: Outcomes, s: State, l: Label)
    requires Sound(c, s) && Enabled(c, s, l)
  {
    && (l.Copied? ==> (l.ok <==> c.todo[s.crew[l.w].id].host.name in o.copyOk))
    && (l.Finish? ==> (l.ok <==> c.todo[s.drain.id].host.name in o.deployOk))
  }

  // ---- Three classes of hosts, by their outcomes alone ----

  predicate Buildable(c: Config, i: nat)
    requires i < c.N()
  {
    c.todo[i].path != "" && c.todo[i].path in c.paths
  }

  predicate Unbuilt(c: Config, i: nat)
    requires i < c.N()
  {
    !c.todo[i].upToDate && !Buildable(c, i)
  }

  predicate Uncopied(c: Config, o: Outcomes, i: nat)
    requires i < c.N()
  {
    !c.todo[i].upToDate && Buildable(c, i) && c.todo[i].host.name !in o.copyOk
  }

  predicate Reaches(c: Config, o: Outcomes, i: nat)
    requires i < c.N()
  {
    !Unbuilt(c, i) && !Uncopied(c, o, i)
  }

  predicate Works(c: Config, o: Outcomes, i: nat)
    requires i < c.N()
  {
    c.todo[i].host.name in o.deployOk
  }

  // ---- The activation worker, alone ----

  datatype Fold = Fold(halted: bool, verdicts: seq<Verdict>)

  /** Take the hosts in this order, one at a time. */
  function Drained(c: Config, o: Outcomes, arrivals: seq<nat>): (f: Fold)
    requires Within(arrivals, c.N())
    ensures |f.verdicts| == |arrivals|
  {
    if arrivals == [] then Fold(false, [])
    else
      var i := arrivals[|arrivals| - 1];
      DrainOne(c, o, Drained(c, o, arrivals[..|arrivals| - 1]), i)
  }

  function DrainOne(c: Config, o: Outcomes, f: Fold, i: nat): Fold
    requires i < c.N()
  {
    if f.halted then f.(verdicts := f.verdicts + [Verdict(i, Cancelled)])
    else if Works(c, o, i) then f.(verdicts := f.verdicts + [Verdict(i, Deployed)])
    else Fold(Halts(c, i), f.verdicts + [Verdict(i, DeployFailed)])
  }

  /** The verdicts the activation worker gave. */
  function Acted(vs: seq<Verdict>): seq<Verdict> {
    if vs == [] then []
    else Acted(vs[..|vs| - 1]) + if Arrived(vs[|vs| - 1].status) then [vs[|vs| - 1]] else []
  }

  // ---- The invariant ----

  ghost predicate AllStale(c: Config, q: seq<nat>) {
    forall k :: 0 <= k < |q| ==> q[k] < c.N() && !c.todo[q[k]].upToDate
  }

  /** The last sweep's query said the host's path was not there, and it was. */
  predicate Missed(s: State, i: nat) { i in s.supply.missed }

  ghost predicate AllLost(c: Config, missed: seq<nat>, q: seq<nat>) {
    forall k :: 0 <= k < |q| ==> q[k] < c.N() && (Unbuilt(c, q[k]) || q[k] in missed)
  }

  ghost predicate AllBuilt(c: Config, q: seq<nat>) {
    forall k :: 0 <= k < |q| ==> q[k] < c.N() && !c.todo[q[k]].upToDate && Buildable(c, q[k])
  }

  ghost predicate AllReach(c: Config, o: Outcomes, q: seq<nat>) {
    forall k :: 0 <= k < |q| ==> q[k] < c.N() && Reaches(c, o, q[k])
  }

  ghost predicate PollPlaced(c: Config, missed: seq<nat>, p: Poller) {
    match p
    case Waiting(left) => AllStale(c, left)
    case Sweeping(kept, rest, final) => AllStale(c, kept) && AllStale(c, rest) && (final ==> AllLost(c, missed, kept))
    case Marking(unbuilt) => AllLost(c, missed, unbuilt)
    case Stopped => true
  }

  ghost predicate CrewPlaced(c: Config, o: Outcomes, crew: seq<Worker>) {
    forall w :: 0 <= w < |crew| ==>
      && (crew[w].Copying? ==> AllBuilt(c, [crew[w].id]))
      && (crew[w].Sending? ==> AllReach(c, o, [crew[w].id]))
  }

  /** Every host is on the way its outcomes send it. */
  ghost predicate Placed(c: Config, o: Outcomes, s: State) {
    && AllStale(c, s.seed.need) && PollPlaced(c, s.supply.missed, s.poller) && AllBuilt(c, s.copies.q)
    && CrewPlaced(c, o, s.crew) && AllReach(c, o, s.acts.q) && AllReach(c, o, s.hist.arrivals)
    && (s.drain.Deploying? ==> AllReach(c, o, [s.drain.id]))
    && AllBuilt(c, s.supply.missed)
  }

  ghost predicate Justified(c: Config, o: Outcomes, missed: seq<nat>, v: Verdict) {
    v.id < c.N() &&
    match v.status
    case BuildFailed => Unbuilt(c, v.id) || v.id in missed
    case CopyFailed => Uncopied(c, o, v.id)
    case _ => Reaches(c, o, v.id)
  }

  /** The hosts the activation worker is through with. */
  ghost predicate Through(s: State, done: seq<nat>) {
    s.hist.arrivals == if s.drain.Deploying? then done + [s.drain.id] else done
  }

  function DoneWith(s: State): seq<nat> {
    if s.drain.Deploying? && s.hist.arrivals != [] then s.hist.arrivals[..|s.hist.arrivals| - 1] else s.hist.arrivals
  }

  /** The worker's verdicts so far are those of the sequential fold over the order of arrival. */
  ghost predicate Ruled(c: Config, o: Outcomes, s: State) {
    && (forall k :: 0 <= k < |s.hist.verdicts| ==> Justified(c, o, s.supply.missed, s.hist.verdicts[k]))
    && Through(s, DoneWith(s)) && Within(DoneWith(s), c.N())
    && Drained(c, o, DoneWith(s)) == Fold(s.halted, Acted(s.hist.verdicts))
    && (s.drain.Deploying? ==> !s.halted)
  }

  /** A missed host is on its way to BuildFailed. */
  ghost predicate Caught(s: State, i: nat) {
    || (s.poller.Sweeping? && s.poller.final && i in s.poller.kept)
    || (s.poller.Marking? && i in s.poller.unbuilt)
    || Verdict(i, BuildFailed) in s.hist.verdicts
  }

  ghost predicate AllCaught(s: State) { forall k :: 0 <= k < |s.supply.missed| ==> Caught(s, s.supply.missed[k]) }

  ghost predicate Explained(c: Config, o: Outcomes, s: State) { Placed(c, o, s) && Ruled(c, o, s) && AllCaught(s) }

  lemma StartExplained(c: Config, o: Outcomes, ticks: nat)
    requires c.Valid()
    ensures Explained(c, o, Start(c, ticks))
  {
  }

  // ---- Placement ----

  lemma PlacedSeed(c: Config, o: Outcomes, s: State)
    requires Placed(c, o, s) && s.seed.looked < c.N()
    ensures Placed(c, o, DoSeed(s, c.todo[s.seed.looked].upToDate))
  {
  }

  lemma PlacedSpawn(c: Config, o: Outcomes, s: State)
    requires Placed(c, o, s)
    ensures Placed(c, o, DoSpawn(c, s))
  {
    var q := SortByOrder(c, s.seed.need);
    forall k | 0 <= k < |q| ensures q[k] < c.N() && !c.todo[q[k]].upToDate {
      assert q[k] in s.seed.need;
    }
  }

  lemma PlacedQuery(c: Config, o: Outcomes, s: State, yes: bool)
    requires Sound(c, s) && Wired(c, s) && Placed(c, o, s) && Enabled(c, s, Query(yes))
    ensures Placed(c, o, DoQuery(Noted(c, s, yes), yes))
  {
    var i := s.poller.rest[0];
    if yes {
      assert Buildable(c, i);
    } else if s.poller.final {
      assert Visible(c, s, i) <==> Buildable(c, i);
    }
  }

  lemma PlacedMark(c: Config, o: Outcomes, s: State)
    requires c.Valid() && Sound(c, s) && Placed(c, o, s) && s.poller.Marking? && s.poller.unbuilt != []
    ensures Placed(c, o, DoMark(c, s))
  {
  }

  lemma PlacedTake(c: Config, o: Outcomes, s: State, w: nat)
    requires c.Valid() && Sound(c, s) && Placed(c, o, s) && Enabled(c, s, Take(w))
    ensures Placed(c, o, Apply(c, s, Take(w)))
  {
  }

  lemma PlacedCopied(c: Config, o: Outcomes, s: State, w: nat, ok: bool)
    requires c.Valid() && Sound(c, s) && Placed(c, o, s) && w < |s.crew| && s.crew[w].Copying?
    requires ok <==> c.todo[s.crew[w].id].host.name in o.copyOk
    ensures Placed(c, o, DoCopied(c, s, w, ok))
    ensures !ok ==> Uncopied(c, o, s.crew[w].id)
  {
    assert AllBuilt(c, [s.crew[w].id]) && [s.crew[w].id][0] == s.crew[w].id;
  }

  lemma PlacedForward(c: Config, o: Outcomes, s: State, w: nat)
    requires c.Valid() && Sound(c, s) && Placed(c, o, s) && Enabled(c, s, Forward(w))
    ensures Placed(c, o, Apply(c, s, Forward(w)))
  {
    assert AllReach(c, o, [s.crew[w].id]) && [s.crew[w].id][0] == s.crew[w].id;
  }

  lemma PlacedReceive(c: Config, o: Outcomes, s: State)
    requires c.Valid() && Sound(c, s) && Placed(c, o, s) && s.acts.q != []
    ensures Placed(c, o, DoReceive(c, s))
  {
  }

  lemma KeepsPlaced(c: Config, o: Outcomes, s: State, l: Label)
    requires c.Valid() && Inv(c, s) && Placed(c, o, s)
    requires Enabled(c, s, l) && Follows(c, o, s, l)
    ensures Placed(c, o, Apply(c, s, l))
  {
    match l
    case Seed => PlacedSeed(c, o, s);
    case Spawn => PlacedSpawn(c, o, s);
    case Query(yes) => PlacedQuery(c, o, s, yes);
    case Mark => PlacedMark(c, o, s);
    case Take(w) => PlacedTake(c, o, s, w);
    case Copied(w, ok) => PlacedCopied(c, o, s, w, ok);
    case Forward(w) => PlacedForward(c, o, s, w);
    case Receive => PlacedReceive(c, o, s);
    case _ =>
  }

  lemma CaughtMark(c: Config, s: State)
    requires c.Valid() && Sound(c, s) && AllCaught(s) && s.poller.Marking? && s.poller.unbuilt != []
    ensures AllCaught(DoMark(c, s))
  {
    var q, s' := s.poller.unbuilt, DoMark(c, s);
    assert q == [q[0]] + q[1..];
    assert s'.hist.verdicts[|s.hist.verdicts|] == Verdict(q[0], BuildFailed);
    forall k | 0 <= k < |s'.supply.missed| ensures Caught(s', s'.supply.missed[k]) {
      assert Caught(s, s.supply.missed[k]);
    }
  }

  lemma CaughtQuery(c: Config, s: State, yes: bool)
    requires Sound(c, s) && AllCaught(s) && s.poller.Sweeping? && s.poller.rest != []
    ensures AllCaught(DoQuery(Noted(c, s, yes), yes))
  {
    var s' := DoQuery(Noted(c, s, yes), yes);
    forall k | 0 <= k < |s'.supply.missed| ensures Caught(s', s'.supply.missed[k]) {
      if k < |s.supply.missed| { assert Caught(s, s.supply.missed[k]); }
    }
  }

  /** Any other step leaves the missed hosts where they are. */
  lemma CaughtRest(c: Config, s: State, l: Label)
    requires c.Valid() && Sound(c, s) && Wired(c, s) && AllCaught(s) && Enabled(c, s, l) && !l.Mark? && !l.Query?
    ensures AllCaught(Apply(c, s, l))
  {
    var s' := Apply(c, s, l);
    assert s'.supply.missed == s.supply.missed;
    assert forall v :: v in s.hist.verdicts ==> v in s'.hist.verdicts;
    forall k | 0 <= k < |s'.supply.missed| ensures Caught(s', s'.supply.missed[k]) {
      assert Caught(s, s.supply.missed[k]);
    }
  }

  lemma KeepsCaught(c: Config, s: State, l: Label)
    requires c.Valid() && Sound(c, s) && Wired(c, s) && AllCaught(s) && Enabled(c, s, l)
    ensures AllCaught(Apply(c, s, l))
  {
    match l
    case Mark => CaughtMark(c, s);
    case Query(yes) => CaughtQuery(c, s, yes);
    case _ => CaughtRest(c, s, l);
  }

  // ---- Verdicts ----

  lemma ActedAppend(vs: seq<Verdict>, v: Verdict)
    ensures Acted(vs + [v]) == if Arrived(v.status) then Acted(vs) + [v] else Acted(vs)
  {
    assert (vs + [v])[..|vs|] == vs;
  }

  lemma RuledMark(c: Config, o: Outcomes, s: State)
    requires c.Valid() && Sound(c, s) && Placed(c, o, s) && Ruled(c, o, s)
    requires s.poller.Marking? && s.poller.unbuilt != []
    ensures Ruled(c, o, DoMark(c, s))
  {
    ActedAppend(s.hist.verdicts, Verdict(s.poller.unbuilt[0], BuildFailed));
  }

  lemma RuledCopied(c: Config, o: Outcomes, s: State, w: nat, ok: bool)
    requires c.Valid() && Sound(c, s) && Placed(c, o, s) && Ruled(c, o, s) && w < |s.crew| && s.crew[w].Copying?
    requires ok <==> c.todo[s.crew[w].id].host.name in o.copyOk
    ensures Ruled(c, o, DoCopied(c, s, w, ok))
  {
    PlacedCopied(c, o, s, w, ok);
    ActedAppend(s.hist.verdicts, Verdict(s.crew[w].id, CopyFailed));
  }

  lemma DrainedAppend(c: Config, o: Outcomes, q: seq<nat>, i: nat)
    requires Within(q, c.N()) && i < c.N()
    ensures Within(q + [i], c.N()) && Drained(c, o, q + [i]) == DrainOne(c, o, Drained(c, o, q), i)
  {
    assert (q + [i])[..|q|] == q;
  }

  lemma RuledReceive(c: Config, o: Outcomes, s: State)
    requires c.Valid() && Sound(c, s) && Placed(c, o, s) && Ruled(c, o, s) && s.acts.q != [] && s.drain.Receiving?
    ensures Ruled(c, o, DoReceive(c, s))
  {
    var i := s.acts.q[0];
    var before := s.hist.arrivals;
    DrainedAppend(c, o, before, i);
    ActedAppend(s.hist.verdicts, Verdict(i, Cancelled));
    assert (before + [i])[..|before|] == before;
  }

  lemma RuledFinish(c: Config, o: Outcomes, s: State, ok: bool)
    requires c.Valid() && Sound(c, s) && Placed(c, o, s) && Ruled(c, o, s) && s.drain.Deploying?
    requires ok <==> Works(c, o, s.drain.id)
    ensures Ruled(c, o, DoFinish(c, s, ok))
  {
    var i := s.drain.id;
    DrainedAppend(c, o, DoneWith(s), i);
    ActedAppend(s.hist.verdicts, Verdict(i, if ok then Deployed else DeployFailed));
    assert AllReach(c, o, [i]) && [i][0] == i;
  }

  /** A step that decides nothing. */
  lemma RuledRest(c: Config, o: Outcomes, s: State, s': State)
    requires Ruled(c, o, s) && s'.hist == s.hist && s'.halted == s.halted && s.supply.missed <= s'.supply.missed
    requires s'.drain == s.drain || (s.drain.Receiving? && s'.drain.Returned?)
    ensures Ruled(c, o, s')
  {
    forall k | 0 <= k < |s'.hist.verdicts| ensures Justified(c, o, s'.supply.missed, s'.hist.verdicts[k]) {
      assert Justified(c, o, s.supply.missed, s.hist.verdicts[k]);
    }
  }

  lemma DecidesNothing(c: Config, s: State, l: Label)
    requires c.Valid() && Sound(c, s) && Enabled(c, s, l) && !Decides(l)
    ensures var s' := Apply(c, s, l);
            && s'.hist == s.hist && s'.halted == s.halted && s.supply.missed <= s'.supply.missed
            && (s'.drain == s.drain || (s.drain.Receiving? && s'.drain.Returned?))
  {
  }

  lemma KeepsRuled(c: Config, o: Outcomes, s: State, l: Label)
    requires c.Valid() && Sound(c, s) && Placed(c, o, s) && Ruled(c, o, s)
    requires Enabled(c, s, l) && Follows(c, o, s, l)
    ensures Ruled(c, o, Apply(c, s, l))
  {
    if Decides(l) {
      RuledDecision(c, o, s, l);
    } else {
      DecidesNothing(c, s, l);
      RuledRest(c, o, s, Apply(c, s, l));
    }
  }

  lemma RuledDecision(c: Config, o: Outcomes, s: State, l: Label)
    requires c.Valid() && Sound(c, s) && Placed(c, o, s) && Ruled(c, o, s)
    requires Enabled(c, s, l) && Follows(c, o, s, l) && Decides(l)
    ensures Ruled(c, o, Apply(c, s, l))
  {
    match l
    case Mark => RuledMark(c, o, s);
    case Copied(w, ok) => RuledCopied(c, o, s, w, ok);
    case Receive => RuledReceive(c, o, s);
    case Finish(ok) => RuledFinish(c, o, s, ok);
  }

  // ---- Whole runs with fixed outcomes ----

  ghost predicate AllFollow(c: Config, o: Outcomes, s: State, ls: seq<Label>)
    requires c.Valid() && Inv(c, s) && CanRun(c, s, ls)
    decreases |ls|
  {
    ls == [] || (Follows(c, o, s, ls[0]) && (Keeps(c, s, ls[0]); AllFollow(c, o, Apply(c, s, ls[0]), ls[1..])))
  }

  /** `l` follows `ls` on a schedule from `s` with these outcomes. */
  lemma {:induction false} OneMore(c: Config, o: Outcomes, s: State, ls: seq<Label>, l: Label)
    requires c.Valid() && Inv(c, s) && CanRun(c, s, ls) && AllFollow(c, o, s, ls)
    requires Enabled(c, RunAll(c, s, ls), l) && Follows(c, o, RunAll(c, s, ls), l)
    ensures CanRun(c, s, ls + [l]) && AllFollow(c, o, s, ls + [l])
    ensures RunAll(c, s, ls + [l]) == Apply(c, RunAll(c, s, ls), l)
    decreases |ls|
  {
    if ls == [] {
      assert ls + [l] == [l] && [l][1..] == [];
      Keeps(c, s, l);
    } else {
      Keeps(c, s, ls[0]);
      OneMore(c, o, Apply(c, s, ls[0]), ls[1..], l);
      assert (ls + [l])[1..] == ls[1..] + [l];
    }
  }

  lemma {:induction false} RunExplained(c: Config, o: Outcomes, s: State, ls: seq<Label>)
    requires c.Valid() && Inv(c, s) && Explained(c, o, s) && CanRun(c, s, ls) && AllFollow(c, o, s, ls)
    ensures Explained(c, o, RunAll(c, s, ls))
    decreases |ls|
  {
    if ls != [] {
      Keeps(c, s, ls[0]);
      KeepsPlaced(c, o, s, ls[0]);
      KeepsRuled(c, o, s, ls[0]);
      KeepsCaught(c, s, ls[0]);
      RunExplained(c, o, Apply(c, s, ls[0]), ls[1..]);
    }
  }

  /** A schedule that runs the pipeline to its end with these outcomes, and the state it ends in. */
  ghost predicate Ends(c: Config, o: Outcomes, ticks: nat, ls: seq<Label>, s: State) {
    && c.Valid() && Inv(c, Start(c, ticks)) && CanRun(c, Start(c, ticks), ls)
    && AllFollow(c, o, Start(c, ticks), ls)
    && s == RunAll(c, Start(c, ticks), ls) && s.drain.Returned?
  }

  lemma EndExplained(c: Config, o: Outcomes, ticks: nat, ls: seq<Label>, s: State, i: nat)
    requires Ends(c, o, ticks, ls, s) && i < c.N()
    ensures Inv(c, s) && Explained(c, o, s) && Verdicts(s.hist.verdicts, i) == 1
    ensures Justified(c, o, s.supply.missed, Verdict(i, s.results[i])) && s.results[i] == Said(s.hist.verdicts, i)
    ensures Missed(s, i) ==> s.results[i] == BuildFailed && !c.todo[i].upToDate && Buildable(c, i)
  {
    StartExplained(c, o, ticks);
    RunExplained(c, o, Start(c, ticks), ls);
    FinishedIsEmpty(c, s, i);
    assert Tracked(s, i);
    var k := FindVerdict(s.hist.verdicts, i);
    if Missed(s, i) {
      var m :| 0 <= m < |s.supply.missed| && s.supply.missed[m] == i;
      assert Caught(s, s.supply.missed[m]);
      var j :| 0 <= j < |s.hist.verdicts| && s.hist.verdicts[j] == Verdict(i, BuildFailed);
      OnlyVerdict(s.hist.verdicts, i, j);
    }
  }

  /**
   * Which hosts are BuildFailed and which CopyFailed is settled by their own outcomes and the answers of the
   * last sweep: a host is BuildFailed exactly when its path never appeared, or the last sweep missed it.
   */
  lemma BuildAndCopyFailuresFixed(c: Config, o: Outcomes, ticks: nat, ls: seq<Label>, s: State, i: nat)
    requires Ends(c, o, ticks, ls, s) && i < c.N()
    ensures i < |s.results|
    ensures s.results[i] == BuildFailed <==>
            (!c.todo[i].upToDate && (c.todo[i].path == "" || c.todo[i].path !in c.paths)) || i in s.supply.missed
    ensures s.results[i] == CopyFailed <==>
            && !c.todo[i].upToDate && c.todo[i].path != "" && c.todo[i].path in c.paths
            && c.todo[i].host.name !in o.copyOk && i !in s.supply.missed
    ensures Arrived(s.results[i]) <==> Reaches(c, o, i) && !Missed(s, i)
  {
    EndExplained(c, o, ticks, ls, s, i);
  }

  lemma {:induction false} SaidActed(vs: seq<Verdict>, i: nat)
    requires Verdicts(vs, i) == 1 && Arrived(Said(vs, i))
    ensures Said(Acted(vs), i) == Said(vs, i)
  {
    var n := |vs| - 1;
    ActedAppend(vs[..n], vs[n]);
    assert vs == vs[..n] + [vs[n]];
    if vs[n].id == i {
      JudgeCount(Acted(vs[..n]), vs[n], i);
    } else {
      SaidActed(vs[..n], i);
      JudgeCount(Acted(vs[..n]), vs[n], i);
    }
  }

  /** The hosts that reach activation get the statuses of a sequential fold over the order they arrived in. */
  lemma ActivationIsSequentialFold(c: Config, o: Outcomes, ticks: nat, ls: seq<Label>, s: State, i: nat)
    requires Ends(c, o, ticks, ls, s) && i < c.N()
    ensures Within(s.hist.arrivals, c.N()) && i < |s.results|
    ensures Occ(s.hist.arrivals, i) == Flag(Reaches(c, o, i) && !Missed(s, i))
    ensures Reaches(c, o, i) && !Missed(s, i) ==> s.results[i] == Said(Drained(c, o, s.hist.arrivals).verdicts, i)
  {
    EndExplained(c, o, ticks, ls, s, i);
    assert Tracked(s, i);
    if Reaches(c, o, i) && !Missed(s, i) { SaidActed(s.hist.verdicts, i); }
  }

  /** No host whose activation fails would stop the others. */
  ghost predicate NothingHalts(c: Config, o: Outcomes) {
    forall i :: 0 <= i < c.N() && Reaches(c, o, i) && c.todo[i].host.name !in o.deployOk ==>
      "k3s" !in c.todo[i].host.groups && !c.stopOnFailure
  }

  lemma {:induction false} FoldWithoutHalt(c: Config, o: Outcomes, q: seq<nat>, i: nat)
    requires NothingHalts(c, o) && AllReach(c, o, q) && Within(q, c.N())
    ensures !Drained(c, o, q).halted
    ensures Occ(q, i) > 0 ==>
              i < c.N() && Said(Drained(c, o, q).verdicts, i) == if Works(c, o, i) then Deployed else DeployFailed
  {
    if q != [] {
      var n := |q| - 1;
      FoldWithoutHalt(c, o, q[..n], i);
      var f := Drained(c, o, q[..n]);
      JudgeCount(f.verdicts, Verdict(q[n], if Works(c, o, q[n]) then Deployed else DeployFailed), i);
    }
  }

  /** The result no schedule can change. */
  function Expected(c: Config, o: Outcomes, i: nat): Status
    requires i < c.N()
  {
    var job := c.todo[i];
    if !job.upToDate && (job.path == "" || job.path !in c.paths) then BuildFailed
    else if !job.upToDate && job.host.name !in o.copyOk then CopyFailed
    else if job.host.name in o.deployOk then Deployed
    else DeployFailed
  }

  /**
   * With --on-failure=continue and no k3s host failing, every schedule gives every host this result, unless
   * the last sweep missed the host, and exactly then not.
   */
  lemma ScheduleIndependent(c: Config, o: Outcomes, ticks: nat, ls: seq<Label>, s: State)
    requires Ends(c, o, ticks, ls, s) && NothingHalts(c, o)
    ensures |s.results| == c.N()
    ensures forall i :: 0 <= i < c.N() ==> (s.results[i] == Expected(c, o, i) <==> !Missed(s, i))
  {
    forall i | 0 <= i < c.N()
      ensures |s.results| == c.N() && (s.results[i] == Expected(c, o, i) <==> !Missed(s, i))
    {
      BuildAndCopyFailuresFixed(c, o, ticks, ls, s, i);
      ActivationIsSequentialFold(c, o, ticks, ls, s, i);
      EndExplained(c, o, ticks, ls, s, i);
      if Reaches(c, o, i) && !Missed(s, i) { FoldWithoutHalt(c, o, s.hist.arrivals, i); }
    }
  }

  /**
   * Two runs over the same hosts, builds and copies agree on whether a host is BuildFailed and whether it is
   * CopyFailed if and only if, where its path appeared, the last sweeps missed it in both or in neither,
   * whatever the schedules, worker counts, tick counts, --on-failure values and activations.
   */
  lemma FailuresAgreeAcrossRuns(c1: Config, o1: Outcomes, t1: nat, ls1: seq<Label>, s1: State,
                                c2: Config, o2: Outcomes, t2: nat, ls2: seq<Label>, s2: State, i: nat)
    requires Ends(c1, o1, t1, ls1, s1) && Ends(c2, o2, t2, ls2, s2)
    requires c1.todo == c2.todo && c1.paths == c2.paths && o1.copyOk == o2.copyOk && i < c1.N()
    ensures i < |s1.results| && i < |s2.results|
    ensures ((s1.results[i] == BuildFailed <==> s2.results[i] == BuildFailed)
             && (s1.results[i] == CopyFailed <==> s2.results[i] == CopyFailed))
            <==> (Missed(s1, i) <==> Missed(s2, i))
  {
    BuildAndCopyFailuresFixed(c1, o1, t1, ls1, s1, i);
    BuildAndCopyFailuresFixed(c2, o2, t2, ls2, s2, i);
    EndExplained(c1, o1, t1, ls1, s1, i);
    EndExplained(c2, o2, t2, ls2, s2, i);
  }
}
