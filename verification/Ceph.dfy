/** What the Ceph gate reads: the OSD tree and the placement-group summary. */
module Ceph {
  import opened Listing

  datatype Node = Node(id: int, name: string, kind: string, status: string, children: seq<int>)
  {
    predicate DownOsd() { kind == "osd" && status != "up" }
  }

  datatype PgState = PgState(name: string, num: int)
  datatype PgStat = PgStat(byState: seq<PgState>, numPgs: int)

  const ACTIVE_CLEAN := "active+clean"

  /** Node `j` is the last host node that lists the OSD. */
  ghost predicate LastLister(nodes: seq<Node>, j: nat, id: int) {
    && j < |nodes| && nodes[j].kind == "host" && id in nodes[j].children
    && forall k :: j < k < |nodes| && nodes[k].kind == "host" ==> id !in nodes[k].children
  }

  ghost predicate Unlisted(nodes: seq<Node>, id: int) {
    forall k :: 0 <= k < |nodes| && nodes[k].kind == "host" ==> id !in nodes[k].children
  }

  /** The OSD hangs under the host of that name; one that no host lists hangs under no name. */
  ghost predicate Under(nodes: seq<Node>, id: int, h: string) {
    (exists j: nat :: LastLister(nodes, j, id) && nodes[j].name == h) || (Unlisted(nodes, id) && h == "")
  }

  /** The host an OSD hangs under: the last host node that lists it, or "" when none does. */
  function ParentOf(nodes: seq<Node>, id: int): (h: string)
  {
    if nodes == [] then ""
    else
      var n := nodes[|nodes| - 1];
      if n.kind == "host" && id in n.children then n.name else ParentOf(nodes[..|nodes| - 1], id)
  }

  lemma {:induction false} ParentIsUnder(nodes: seq<Node>, id: int)
    ensures Under(nodes, id, ParentOf(nodes, id))
  {
    if nodes != [] {
      var n := |nodes| - 1;
      if nodes[n].kind == "host" && id in nodes[n].children {
        assert LastLister(nodes, n, id);
      } else {
        ParentIsUnder(nodes[..n], id);
        UnderOnward(nodes, id, ParentOf(nodes, id));
      }
    }
  }

  lemma UnderOnward(nodes: seq<Node>, id: int, h: string)
    requires nodes != [] && Under(nodes[..|nodes| - 1], id, h)
    requires nodes[|nodes| - 1].kind == "host" ==> id !in nodes[|nodes| - 1].children
    ensures Under(nodes, id, h)
  {
    var front := nodes[..|nodes| - 1];
    if j: nat :| LastLister(front, j, id) && front[j].name == h {
      assert forall k :: j < k < |front| ==> nodes[k] == front[k];
      assert LastLister(nodes, j, id);
    } else {
      assert forall k :: 0 <= k < |front| ==> nodes[k] == front[k];
      assert Unlisted(nodes, id);
    }
  }

  /** An OSD hangs under one name only. */
  lemma ParentIff(nodes: seq<Node>, id: int, h: string)
    ensures Under(nodes, id, h) <==> ParentOf(nodes, id) == h
  {
    ParentIsUnder(nodes, id);
    if Under(nodes, id, h) { UnderOne(nodes, id, h, ParentOf(nodes, id)); }
  }

  lemma UnderOne(nodes: seq<Node>, id: int, g: string, h: string)
    requires Under(nodes, id, g) && Under(nodes, id, h)
    ensures g == h
  {
    if !Unlisted(nodes, id) {
      var i: nat :| LastLister(nodes, i, id) && nodes[i].name == g;
      var j: nat :| LastLister(nodes, j, id) && nodes[j].name == h;
      assert i == j;
    } else {
      assert forall j: nat :: !LastLister(nodes, j, id);
    }
  }

  /** Some OSD that is not up hangs under a host other than `self` (or under none). */
  ghost predicate DownElsewhere(nodes: seq<Node>, self: string) {
    exists i :: 0 <= i < |nodes| && nodes[i].kind == "osd" && nodes[i].status != "up"
                && !Under(nodes, nodes[i].id, self)
  }

  ghost predicate SomeDown(nodes: seq<Node>) {
    exists i :: 0 <= i < |nodes| && nodes[i].kind == "osd" && nodes[i].status != "up"
  }

  /** A down OSD of host `h`, said of the nodes. */
  ghost predicate DownUnder(nodes: seq<Node>, i: nat, h: string) {
    i < |nodes| && nodes[i].kind == "osd" && nodes[i].status != "up" && Under(nodes, nodes[i].id, h)
  }

  /** Names of the OSDs of host `h` that are not up among the first `k` nodes, in tree order. */
  function DownOn(nodes: seq<Node>, k: nat, h: string): seq<string>
    requires k <= |nodes|
  {
    if k == 0 then []
    else if nodes[k - 1].DownOsd() && ParentOf(nodes, nodes[k - 1].id) == h
      then DownOn(nodes, k - 1, h) + [nodes[k - 1].name]
      else DownOn(nodes, k - 1, h)
  }

  /** These are the names of the host's OSDs that are not up, each once and in tree order. */
  ghost predicate NamesDown(nodes: seq<Node>, h: string, names: seq<string>, at: seq<nat>) {
    && Rising(at, |nodes|) && |names| == |at|
    && (forall i: nat :: i in at <==> DownUnder(nodes, i, h))
    && forall k :: 0 <= k < |at| ==> names[k] == nodes[at[k]].name
  }

  lemma {:induction false} DownOnNames(nodes: seq<Node>, k: nat, h: string) returns (at: seq<nat>)
    requires k <= |nodes|
    ensures Rising(at, k) && |DownOn(nodes, k, h)| == |at|
    ensures forall i: nat :: i in at <==> i < k && DownUnder(nodes, i, h)
    ensures forall j :: 0 <= j < |at| ==> DownOn(nodes, k, h)[j] == nodes[at[j]].name
  {
    at := [];
    if k > 0 {
      at := DownOnNames(nodes, k - 1, h);
      RisingOn(at, k - 1);
      ParentIff(nodes, nodes[k - 1].id, h);
      if DownUnder(nodes, k - 1, h) { at := at + [k - 1]; }
    }
  }

  function Lookup(m: map<int, string>, id: int): string {
    if id in m then m[id] else ""
  }

  /** One host node's children, written over whatever the map held for them. */
  method AdoptChildren(hostOf: map<int, string>, n: Node) returns (m: map<int, string>)
    ensures forall id :: Lookup(m, id) == if id in n.children then n.name else Lookup(hostOf, id)
  {
    m := hostOf;
    for c := 0 to |n.children|
      invariant forall id ::
                  Lookup(m, id) == if id in n.children[..c] then n.name else Lookup(hostOf, id)
    {
      m := m[n.children[c] := n.name];
      assert n.children[..c + 1] == n.children[..c] + [n.children[c]];
    }
    assert n.children[..|n.children|] == n.children;
  }

  method HostMap(nodes: seq<Node>) returns (hostOf: map<int, string>)
    ensures forall id, j: nat :: LastLister(nodes, j, id) ==> Lookup(hostOf, id) == nodes[j].name
    ensures forall id :: Unlisted(nodes, id) ==> Lookup(hostOf, id) == ""
    ensures forall id :: Lookup(hostOf, id) == ParentOf(nodes, id)
  {
    hostOf := map[];
    for i := 0 to |nodes|
      invariant forall id :: Lookup(hostOf, id) == ParentOf(nodes[..i], id)
    {
      var before := hostOf;
      if nodes[i].kind == "host" {
        hostOf := AdoptChildren(hostOf, nodes[i]);
      }
      assert nodes[..i + 1][..i] == nodes[..i] && nodes[..i + 1][i] == nodes[i];
    }
    assert nodes[..|nodes|] == nodes;
    forall id, j: nat | LastLister(nodes, j, id) ensures Lookup(hostOf, id) == nodes[j].name {
      ParentIff(nodes, id, nodes[j].name);
    }
    forall id | Unlisted(nodes, id) ensures Lookup(hostOf, id) == "" { ParentIff(nodes, id, ""); }
  }

  /** Every host with an OSD that is not up, mapped to those OSDs in tree order. Orphans go under "". */
  method DownOsdsByHost(nodes: seq<Node>) returns (down: map<string, seq<string>>)
    ensures forall h :: h in down <==> exists i: nat :: DownUnder(nodes, i, h)
    ensures forall h :: h in down ==> exists at :: NamesDown(nodes, h, down[h], at)
    ensures down != map[] <==> SomeDown(nodes)
  {
    var hostOf := HostMap(nodes);
    down := map[];
    for i := 0 to |nodes|
      invariant forall h :: (h in down <==> DownOn(nodes, i, h) != [])
      invariant forall h :: h in down ==> down[h] == DownOn(nodes, i, h)
    {
      if nodes[i].kind == "osd" && nodes[i].status != "up" {
        var h := Lookup(hostOf, nodes[i].id);
        down := down[h := (if h in down then down[h] else []) + [nodes[i].name]];
      }
    }
    forall h
      ensures h in down <==> exists i: nat :: DownUnder(nodes, i, h)
      ensures h in down ==> exists at :: NamesDown(nodes, h, down[h], at)
    {
      var at := DownOnNames(nodes, |nodes|, h);
      assert at != [] ==> DownUnder(nodes, at[0], h);
      if h in down { assert NamesDown(nodes, h, down[h], at); }
    }
    NoneDownIff(nodes, down.Keys);
  }

  lemma NoneDownIff(nodes: seq<Node>, hosts: set<string>)
    requires forall h :: h in hosts <==> exists i: nat :: DownUnder(nodes, i, h)
    ensures hosts != {} <==> SomeDown(nodes)
  {
    if SomeDown(nodes) {
      var i :| 0 <= i < |nodes| && nodes[i].kind == "osd" && nodes[i].status != "up";
      var h := ParentOf(nodes, nodes[i].id);
      ParentIsUnder(nodes, nodes[i].id);
      assert DownUnder(nodes, i, h) && h in hosts;
    }
    if hosts != {} {
      var h :| h in hosts;
      var i: nat :| DownUnder(nodes, i, h);
      assert nodes[i].kind == "osd" && nodes[i].status != "up";
    }
  }

  /**
   * The tree half of the gate: it allows if and only if every OSD that is not up is last listed by a host node
   * named `self`. Walks the map in any order and refuses at the first foreign host.
   */
  method TreeAllows(nodes: seq<Node>, self: string) returns (ok: bool)
    ensures ok <==> forall i :: 0 <= i < |nodes| && nodes[i].kind == "osd" && nodes[i].status != "up" ==>
              Under(nodes, nodes[i].id, self)
    ensures ok <==> !DownElsewhere(nodes, self)
  {
    var down := DownOsdsByHost(nodes);
    var todo := down.Keys;
    while todo != {}
      invariant todo <= down.Keys
      invariant forall h :: h in down && h !in todo ==> h == self
      decreases |todo|
    {
      var h :| h in todo;
      if h != self {
        ghost var i: nat :| DownUnder(nodes, i, h);
        ParentIff(nodes, nodes[i].id, h);
        ParentIff(nodes, nodes[i].id, self);
        return false;
      }
      todo := todo - {h};
    }
    forall i | 0 <= i < |nodes| && nodes[i].kind == "osd" && nodes[i].status != "up"
      ensures Under(nodes, nodes[i].id, self)
    {
      var h := ParentOf(nodes, nodes[i].id);
      ParentIsUnder(nodes, nodes[i].id);
      assert DownUnder(nodes, i, h) && h in down;
    }
    return true;
  }

  function CleanPgs(states: seq<PgState>): int {
    if states == [] then 0
    else
      var s := states[|states| - 1];
      CleanPgs(states[..|states| - 1]) + if s.name == ACTIVE_CLEAN then s.num else 0
  }

  function TotalPgs(states: seq<PgState>): int {
    if states == [] then 0 else TotalPgs(states[..|states| - 1]) + states[|states| - 1].num
  }

  predicate AllClean(pgs: PgStat) {
    CleanPgs(pgs.byState) == pgs.numPgs
  }

  method AllActiveClean(pgs: PgStat) returns (ok: bool)
    ensures ok <==> AllClean(pgs)
  {
    var clean := 0;
    var states := pgs.byState;
    for i := 0 to |states|
      invariant clean == CleanPgs(states[..i])
    {
      if states[i].name == ACTIVE_CLEAN { clean := clean + states[i].num; }
      assert states[..i + 1][..i] == states[..i];
    }
    assert states[..|states|] == states;
    return clean == pgs.numPgs;
  }

  lemma {:induction false} CleanAtMostTotal(states: seq<PgState>)
    requires forall s :: s in states ==> s.num >= 0
    ensures CleanPgs(states) <= TotalPgs(states)
    ensures CleanPgs(states) == TotalPgs(states) <==>
            forall s :: s in states && s.name != ACTIVE_CLEAN ==> s.num == 0
  {
    if states != [] {
      var front := states[..|states| - 1];
      assert states == front + [states[|states| - 1]];
      CleanAtMostTotal(front);
    }
  }

  /** On an honest summary the check holds exactly when no placement group is in another state. */
  lemma AllCleanMeansNoOther(pgs: PgStat)
    requires forall s :: s in pgs.byState ==> s.num >= 0
    requires TotalPgs(pgs.byState) == pgs.numPgs
    ensures AllClean(pgs) <==> forall s :: s in pgs.byState && s.name != ACTIVE_CLEAN ==> s.num == 0
  {
    CleanAtMostTotal(pgs.byState);
  }
}
