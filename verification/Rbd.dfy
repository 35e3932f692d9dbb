/** The pool, and the commands the backup job may issue on it. */
module Rbd {

  /** A snapshot of an image. */
  datatype Snap = Snap(img: string, name: string)

  datatype Pool = Pool(
    images: set<string>,
    snaps: map<Snap, bool>,       // whether the snapshot is protected
    parent: map<string, Snap>,    // a clone's snapshot
    devs: map<string, string>,    // a mapped device's image
    mounts: map<string, string>)  // a mount point's device

  datatype Command =
    | CreateImage(img: string)
    | CreateSnap(snap: Snap)
    | Protect(snap: Snap)
    | Clone(snap: Snap, img: string)
    | Map(img: string, dev: string)
    | Mount(dev: string, point: string)
    | Umount(point: string)
    | Unmap(dev: string)
    | Remove(img: string)
    | Unprotect(snap: Snap)
    | RemoveSnap(snap: Snap)

  /** When the command can take effect. */
  predicate Accepts(p: Pool, cmd: Command) {
    match cmd
    case CreateImage(i) => i !in p.images
    case CreateSnap(s) => s.img in p.images && s !in p.snaps
    case Protect(s) => s in p.snaps && !p.snaps[s]
    case Clone(s, c) => s in p.snaps && p.snaps[s] && c !in p.images
    case Map(i, d) => i in p.images && d !in p.devs
    case Mount(d, m) => d in p.devs && m !in p.mounts
    case Umount(m) => m in p.mounts
    case Unmap(d) => d in p.devs && d !in p.mounts.Values
    case Remove(i) => i in p.images && i !in p.devs.Values && forall s :: s in p.snaps ==> s.img != i
    case Unprotect(s) => s in p.snaps && p.snaps[s] && s !in p.parent.Values
    case RemoveSnap(s) => s in p.snaps && !p.snaps[s]
  }

  function Apply(p: Pool, cmd: Command): Pool {
    match cmd
    case CreateImage(i) => p.(images := p.images + {i})
    case CreateSnap(s) => p.(snaps := p.snaps[s := false])
    case Protect(s) => p.(snaps := p.snaps[s := true])
    case Clone(s, c) => p.(images := p.images + {c}, parent := p.parent[c := s])
    case Map(i, d) => p.(devs := p.devs[d := i])
    case Mount(d, m) => p.(mounts := p.mounts[m := d])
    case Umount(m) => p.(mounts := p.mounts - {m})
    case Unmap(d) => p.(devs := p.devs - {d})
    case Remove(i) => p.(images := p.images - {i}, parent := p.parent - {i})
    case Unprotect(s) => p.(snaps := p.snaps[s := false])
    case RemoveSnap(s) => p.(snaps := p.snaps - {s})
  }

  // ---- Whose artefact ----

  const PREFIX := "kopia-backup-"

  predicate Prefixed(name: string) { PREFIX <= name }

  predicate OurDev(p: Pool, d: string) { d in p.devs && Prefixed(p.devs[d]) }

  predicate OurMount(p: Pool, m: string) { m in p.mounts && OurDev(p, p.mounts[m]) }

  function OurDevs(p: Pool): set<string> { set d | d in p.devs && OurDev(p, d) }

  function OurImages(p: Pool): set<string> { set i | i in p.images && Prefixed(i) }

  function OurSnaps(p: Pool): set<Snap> { set s | s in p.snaps && Prefixed(s.name) }

  /** The commands the backup job confines itself to. */
  predicate Ours(p: Pool, cmd: Command) {
    match cmd
    case CreateImage(_) => false
    case CreateSnap(s) => Prefixed(s.name) && !Prefixed(s.img)
    case Protect(s) => Prefixed(s.name)
    case Clone(s, c) => Prefixed(s.name) && Prefixed(c)
    case Map(i, _) => Prefixed(i)
    case Mount(d, _) => OurDev(p, d)
    case Umount(m) => OurMount(p, m)
    case Unmap(d) => OurDev(p, d)
    case Remove(i) => Prefixed(i)
    case Unprotect(s) => Prefixed(s.name)
    case RemoveSnap(s) => Prefixed(s.name)
  }

  /** Everyone else leaves prefixed names alone. */
  predicate Theirs(p: Pool, cmd: Command) {
    match cmd
    case CreateImage(i) => !Prefixed(i)
    case CreateSnap(s) => !Prefixed(s.name) && !Prefixed(s.img)
    case Protect(s) => !Prefixed(s.name)
    case Clone(s, c) => !Prefixed(s.name) && !Prefixed(c)
    case Map(i, _) => !Prefixed(i)
    case Mount(d, _) => !OurDev(p, d)
    case Umount(m) => !OurMount(p, m)
    case Unmap(d) => !OurDev(p, d)
    case Remove(i) => !Prefixed(i)
    case Unprotect(s) => !Prefixed(s.name)
    case RemoveSnap(s) => !Prefixed(s.name)
  }

  /** What holds of the pool between any two commands of anyone. */
  ghost predicate Inv(p: Pool) {
    && (forall m :: m in p.mounts ==> p.mounts[m] in p.devs)
    && (forall d :: d in p.devs ==> p.devs[d] in p.images)
    && (forall s :: s in p.snaps ==> s.img in p.images && !Prefixed(s.img))
    && (forall c :: c in p.parent ==> c in p.images && p.parent[c] in p.snaps && p.snaps[p.parent[c]])
    && (forall c :: c in p.parent ==> (Prefixed(p.parent[c].name) ==> Prefixed(c)))
  }

  /** Nothing of the backup job is left. */
  ghost predicate Clean(p: Pool) { OurDevs(p) == {} && OurImages(p) == {} && OurSnaps(p) == {} }

  /** Everyone else's images, snapshots with their protection, clones, mappings and mounts. */
  function Foreign(p: Pool): Pool {
    Pool(
      ForeignImages(p.images),
      ForeignSnaps(p.snaps),
      ForeignClones(p.parent),
      ForeignDevs(p.devs),
      ForeignMounts(p.devs, p.mounts))
  }

  function ForeignImages(images: set<string>): set<string> { set i | i in images && !Prefixed(i) }

  function ForeignSnaps(snaps: map<Snap, bool>): map<Snap, bool> {
    map s | s in snaps && !Prefixed(s.name) :: snaps[s]
  }

  function ForeignClones(parent: map<string, Snap>): map<string, Snap> {
    map c | c in parent && !Prefixed(c) :: parent[c]
  }

  function ForeignDevs(devs: map<string, string>): map<string, string> {
    map d | d in devs && !Prefixed(devs[d]) :: devs[d]
  }

  function ForeignMounts(devs: map<string, string>, mounts: map<string, string>): map<string, string> {
    map m | m in mounts && mounts[m] in ForeignDevs(devs) :: mounts[m]
  }

  lemma KeepsInv(p: Pool, cmd: Command)
    requires Inv(p) && Accepts(p, cmd) && (Ours(p, cmd) || Theirs(p, cmd))
    ensures Inv(Apply(p, cmd))
  {
    var q := Apply(p, cmd);
    if cmd.Remove? && cmd.img in p.images {
      forall d | d in q.devs ensures q.devs[d] in q.images { assert p.devs[d] in p.devs.Values; }
    }
    if cmd.Unmap? {
      forall m | m in q.mounts ensures q.mounts[m] in q.devs { assert p.mounts[m] in p.mounts.Values; }
    }
    if cmd.Unprotect? {
      forall c | c in q.parent ensures q.snaps[q.parent[c]] { assert p.parent[c] in p.parent.Values; }
    }
  }

  lemma KeepsForeign(p: Pool, cmd: Command)
    requires Accepts(p, cmd) && Ours(p, cmd)
    ensures Foreign(Apply(p, cmd)) == Foreign(p)
  {
    var q := Apply(p, cmd);
    match cmd
    case CreateImage(_) =>
    case CreateSnap(_) => assert ForeignSnaps(q.snaps) == ForeignSnaps(p.snaps);
    case Protect(_) => assert ForeignSnaps(q.snaps) == ForeignSnaps(p.snaps);
    case Clone(_, _) =>
      assert ForeignImages(q.images) == ForeignImages(p.images);
      assert ForeignClones(q.parent) == ForeignClones(p.parent);
    case Map(_, _) =>
      assert ForeignDevs(q.devs) == ForeignDevs(p.devs);
    case Mount(_, _) => assert ForeignMounts(q.devs, q.mounts) == ForeignMounts(p.devs, p.mounts);
    case Umount(_) => assert ForeignMounts(q.devs, q.mounts) == ForeignMounts(p.devs, p.mounts);
    case Unmap(_) => assert ForeignDevs(q.devs) == ForeignDevs(p.devs);
    case Remove(_) =>
      assert ForeignImages(q.images) == ForeignImages(p.images);
      assert ForeignClones(q.parent) == ForeignClones(p.parent);
    case Unprotect(_) => assert ForeignSnaps(q.snaps) == ForeignSnaps(p.snaps);
    case RemoveSnap(_) => assert ForeignSnaps(q.snaps) == ForeignSnaps(p.snaps);
  }

  // ---- Histories: runs cut anywhere, other users of the pool, reboots ----

  /** One command, whether it reported success, and the pool around it. */
  datatype Try = Try(before: Pool, cmd: Command, done: bool, after: Pool)
  {
    /** A command may fail outright, take effect, or take effect and report failure. */
    predicate Possible() {
      && (after == before || (Accepts(before, cmd) && after == Apply(before, cmd)))
      && (done ==> Accepts(before, cmd) && after == Apply(before, cmd))
    }

    predicate Spurious() { !done && Accepts(before, cmd) }
  }

  datatype Step = Tool(t: Try) | Other(t: Try) | Reboot

  ghost predicate Legal(p: Pool, e: Step) {
    match e
    case Tool(t) => t.before == p && t.Possible() && Ours(p, t.cmd)
    case Other(t) => t.before == p && t.Possible() && Theirs(p, t.cmd)
    case Reboot => true
  }

  function Next(p: Pool, e: Step): Pool {
    match e
    case Tool(t) => t.after
    case Other(t) => t.after
    case Reboot => p.(devs := map[], mounts := map[])
  }

  ghost predicate History(p: Pool, es: seq<Step>)
    decreases |es|
  {
    es == [] || (Legal(p, es[0]) && History(Next(p, es[0]), es[1..]))
  }

  function End(p: Pool, es: seq<Step>): Pool
    decreases |es|
  {
    if es == [] then p else End(Next(p, es[0]), es[1..])
  }

  /** However runs are cut, rebooted and interleaved with other users, the pool is fit for the next cleanup. */
  lemma {:induction false} EveryHistoryKeepsInv(p: Pool, es: seq<Step>)
    requires Inv(p) && History(p, es)
    ensures Inv(End(p, es))
    decreases |es|
  {
    if es != [] {
      if !es[0].Reboot? && es[0].t.after != p { KeepsInv(p, es[0].t.cmd); }
      EveryHistoryKeepsInv(Next(p, es[0]), es[1..]);
    }
  }

  /** The tries of one run, from `origin` to `pool`: each starts where the one before it ended. */
  ghost predicate Chained(origin: Pool, ts: seq<Try>, pool: Pool) {
    if ts == [] then pool == origin
    else
      var t := ts[|ts| - 1];
      pool == t.after && Legal(t.before, Tool(t)) && Chained(origin, ts[..|ts| - 1], t.before)
  }

  lemma ExtendChain(origin: Pool, ts: seq<Try>, t: Try)
    requires Chained(origin, ts, t.before) && Legal(t.before, Tool(t))
    ensures Chained(origin, ts + [t], t.after)
  {
    assert (ts + [t])[..|ts|] == ts;
  }

  lemma TryKeeps(t: Try)
    requires Inv(t.before) && Legal(t.before, Tool(t))
    ensures Inv(t.after) && Foreign(t.after) == Foreign(t.before)
  {
    if t.after != t.before {
      KeepsInv(t.before, t.cmd);
      KeepsForeign(t.before, t.cmd);
    }
  }

  lemma {:induction false} ChainPrefix(origin: Pool, ts: seq<Try>, pool: Pool, k: nat)
    requires Chained(origin, ts, pool) && k <= |ts|
    ensures Chained(origin, ts[..k], if k == 0 then origin else ts[k - 1].after)
  {
    if k == |ts| {
      assert ts[..k] == ts;
    } else {
      ChainPrefix(origin, ts[..|ts| - 1], ts[|ts| - 1].before, k);
      assert ts[..|ts| - 1][..k] == ts[..k];
    }
  }

  lemma {:induction false} ChainKeeps(origin: Pool, ts: seq<Try>, pool: Pool)
    requires Inv(origin) && Chained(origin, ts, pool)
    ensures Inv(pool) && Foreign(pool) == Foreign(origin)
  {
    if ts != [] {
      ChainKeeps(origin, ts[..|ts| - 1], ts[|ts| - 1].before);
      TryKeeps(ts[|ts| - 1]);
    }
  }

  /** Cut a run after any of its commands: the pool keeps its invariant, and nothing foreign has changed. */
  lemma CutAnywhere(origin: Pool, ts: seq<Try>, pool: Pool, k: nat)
    requires Inv(origin) && Chained(origin, ts, pool) && k <= |ts|
    ensures var cut := if k == 0 then origin else ts[k - 1].after;
            Inv(cut) && Foreign(cut) == Foreign(origin)
  {
    ChainPrefix(origin, ts, pool, k);
    ChainKeeps(origin, ts[..k], if k == 0 then origin else ts[k - 1].after);
  }
}
