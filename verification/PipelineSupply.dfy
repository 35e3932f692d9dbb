/**
 * What a run builds and what it copies where: the derivations asked for, and the path that each copy takes to which
 * host, kept exact by every step.
 */
module PipelineSupply {
  import opened Hosts
  import opened Pipeline

  /** The derivations of the jobs that are not up to date, in order. */
  function StaleDrvs(jobs: seq<Job>): seq<string> {
    if jobs == [] then []
    else
      var n := |jobs| - 1;
      if jobs[n].upToDate then StaleDrvs(jobs[..n]) else StaleDrvs(jobs[..n]) + [jobs[n].drv]
  }

  function ShipmentOf(c: Config, i: nat): Shipment
    requires i < c.N()
  {
    Shipment(c.todo[i].host.name, c.todo[i].path)
  }

  /** Nothing but a host's own path is ever copied to it. */
  ghost predicate OwnPaths(c: Config, shipped: seq<Shipment>) {
    forall k :: 0 <= k < |shipped| ==> exists i :: 0 <= i < c.N() && shipped[k] == ShipmentOf(c, i)
  }

  /** The host was up to date, or its own path was copied to it. */
  predicate Delivered(c: Config, shipped: seq<Shipment>, i: nat) {
    i < c.N() && (c.todo[i].upToDate || ShipmentOf(c, i) in shipped)
  }

  ghost predicate AllDelivered(c: Config, shipped: seq<Shipment>, q: seq<nat>) {
    forall k :: 0 <= k < |q| ==> Delivered(c, shipped, q[k])
  }

  ghost predicate CrewDelivers(c: Config, shipped: seq<Shipment>, crew: seq<Worker>) {
    forall w :: 0 <= w < |crew| && (crew[w].Copying? || crew[w].Sending?) ==> Delivered(c, shipped, crew[w].id)
  }

  ghost predicate Shipped(c: Config, s: State) {
    && OwnPaths(c, s.supply.shipped)
    && AllDelivered(c, s.supply.shipped, s.acts.q) && AllDelivered(c, s.supply.shipped, s.hist.arrivals)
    && CrewDelivers(c, s.supply.shipped, s.crew)
  }

  ghost predicate Asked(c: Config, s: State) {
    if s.seed.spawned then s.supply.asked == StaleDrvs(c.todo) + c.extra
    else
      && s.seed.looked <= c.N() && Within(s.seed.need, c.N())
      && DrvsOf(c, s.seed.need) == StaleDrvs(c.todo[..s.seed.looked])
  }

  ghost predicate Supplied(c: Config, s: State) { Asked(c, s) && Shipped(c, s) }

  lemma StartSupplied(c: Config, ticks: nat)
    ensures Supplied(c, Start(c, ticks))
  {
  }

  lemma AskedSeed(c: Config, s: State)
    requires Asked(c, s) && !s.seed.spawned && s.seed.looked < c.N()
    ensures Asked(c, DoSeed(s, c.todo[s.seed.looked].upToDate))
  {
    var i, need := s.seed.looked, s.seed.need;
    assert c.todo[..i + 1][..i] == c.todo[..i];
    assert (need + [i])[..|need|] == need;
  }

  lemma AskedSpawn(c: Config, s: State)
    requires Asked(c, s) && !s.seed.spawned && s.seed.looked == c.N()
    ensures Asked(c, DoSpawn(c, s))
  {
    assert c.todo[..c.N()] == c.todo;
  }

  lemma KeepsAsked(c: Config, s: State, l: Label)
    requires c.Valid() && Sound(c, s) && Asked(c, s) && Enabled(c, s, l)
    ensures Asked(c, Apply(c, s, l))
  {
    match l
    case Seed => AskedSeed(c, s);
    case Spawn => AskedSpawn(c, s);
    case _ => assert Apply(c, s, l).seed == s.seed && Apply(c, s, l).supply.asked == s.supply.asked;
  }

  lemma ShippedTake(c: Config, s: State, w: nat)
    requires Sound(c, s) && Shipped(c, s) && w < |s.crew| && s.copies.q != []
    ensures Shipped(c, DoTake(c, s, w))
  {
    var s', old' := DoTake(c, s, w), s.supply.shipped;
    var i := s.copies.q[0];
    assert s'.supply.shipped == old' + [ShipmentOf(c, i)];
    assert s'.supply.shipped[|old'|] == ShipmentOf(c, i);
    forall j: nat | Delivered(c, old', j) ensures Delivered(c, s'.supply.shipped, j) {}
    forall k | 0 <= k < |s'.supply.shipped|
      ensures exists j :: 0 <= j < c.N() && s'.supply.shipped[k] == ShipmentOf(c, j)
    {
      if k < |old'| {
        var j :| 0 <= j < c.N() && old'[k] == ShipmentOf(c, j);
        assert s'.supply.shipped[k] == ShipmentOf(c, j);
      }
    }
  }

  lemma KeepsShipped(c: Config, s: State, l: Label)
    requires c.Valid() && Sound(c, s) && Shipped(c, s) && Enabled(c, s, l)
    ensures Shipped(c, Apply(c, s, l))
  {
    if l.Take? {
      ShippedTake(c, s, l.w);
    } else {
      assert Apply(c, s, l).supply.shipped == s.supply.shipped;
      ShippedRest(c, s, l);
    }
  }

  lemma ShippedRest(c: Config, s: State, l: Label)
    requires c.Valid() && Sound(c, s) && Shipped(c, s) && Enabled(c, s, l) && !l.Take?
    ensures Shipped(c, Apply(c, s, l))
  {
    if l.Copied? || l.Forward? || l.Leave? || l.Spawn? {
      ShippedCrew(c, s, l);
    } else {
      ShippedQueues(c, s, l);
    }
  }

  lemma ShippedCrew(c: Config, s: State, l: Label)
    requires c.Valid() && Sound(c, s) && Shipped(c, s) && Enabled(c, s, l)
    requires l.Copied? || l.Forward? || l.Leave? || l.Spawn?
    ensures Shipped(c, Apply(c, s, l))
  {
  }

  lemma ShippedQueues(c: Config, s: State, l: Label)
    requires c.Valid() && Sound(c, s) && Shipped(c, s) && Enabled(c, s, l)
    requires !l.Take? && !l.Copied? && !l.Forward? && !l.Leave? && !l.Spawn?
    ensures Shipped(c, Apply(c, s, l))
  {
    assert Apply(c, s, l).crew == s.crew && Apply(c, s, l).supply.shipped == s.supply.shipped;
    if l.Receive? { assert s.acts.q == [s.acts.q[0]] + s.acts.q[1..]; }
  }

  /** Every step keeps to the hosts' own derivations and paths. */
  lemma KeepsSupplied(c: Config, s: State, l: Label)
    requires c.Valid() && Sound(c, s) && Supplied(c, s) && Enabled(c, s, l)
    ensures Supplied(c, Apply(c, s, l))
  {
    KeepsAsked(c, s, l);
    KeepsShipped(c, s, l);
  }
}
