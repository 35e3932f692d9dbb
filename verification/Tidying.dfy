/** What a cleanup may do and what it leaves, given its listings. */
module Tidying {
  import opened Rbd

  /**
   * What a tidying command needs: mounted before umount, unmounted before unmap, unmapped and without
   * snapshots before image removal, no child clone before a snapshot is unprotected or removed.
   */
  ghost predicate Ordered(p: Pool, cmd: Command) {
    match cmd
    case Unprotect(s) => s in p.snaps && s !in p.parent.Values
    case RemoveSnap(s) => s in p.snaps && s !in p.parent.Values
    case _ => Accepts(p, cmd)
  }

  ghost predicate AllOrdered(ts: seq<Try>, n: nat) {
    forall k :: n <= k < |ts| ==> Ordered(ts[k].before, ts[k].cmd)
  }

  /** Some command failed that the pool would have accepted. */
  ghost predicate Faulted(ts: seq<Try>, n: nat) {
    exists k :: n <= k < |ts| && ts[k].Spurious()
  }

  /** The last of these commands reported failure. */
  ghost predicate FailedLast(ts: seq<Try>, n: nat) { n < |ts| && !ts[|ts| - 1].done }

  /**
   * How a stretch of tidying ends. Unless `blocked`, it keeps the order and fails only when an acceptable
   * command fails; blocked, it fails; and a failure is that of its last command.
   */
  ghost predicate Fair(ts: seq<Try>, n: nat, ok: bool, blocked: bool) {
    && (!blocked ==> AllOrdered(ts, n) && (ok || Faulted(ts, n)))
    && (blocked ==> !ok)
    && (!ok ==> FailedLast(ts, n))
  }

  // ---- What listings show ----

  /**
   * What the listings of one cleanup do not show. A failing pipeline inside a loop's command substitution
   * does not stop the script: the loop runs over whatever was printed.
   */
  datatype Hidden = Hidden(
    devs: set<string>, points: set<string>, clones: set<string>, images: set<string>, snaps: set<Snap>)

  const NOTHING := Hidden({}, {}, {}, {}, {})

  function MountsOf(p: Pool, d: string): set<string> { set m | m in p.mounts && p.mounts[m] == d }

  /** `q` has fewer mounts, and what is gone is among these points. */
  ghost predicate FewerMounts(p: Pool, q: Pool, points: set<string>) {
    && (forall m :: m in q.mounts ==> m in p.mounts && q.mounts[m] == p.mounts[m])
    && (forall m :: m in p.mounts && m !in points ==> m in q.mounts)
  }

  function SnapsOf(p: Pool, img: string): set<Snap> { set s | s in p.snaps && s.img == img && Prefixed(s.name) }

  function ShownDevs(p: Pool, h: Hidden): set<string> { OurDevs(p) - h.devs }

  function ShownClones(p: Pool, h: Hidden): set<string> { OurImages(p) - h.clones }

  /** A snapshot shows when its image does and it does. */
  function ShownSnaps(p: Pool, h: Hidden): set<Snap> {
    set s | s in OurSnaps(p) && s.img !in h.images && s !in h.snaps
  }

  /** The command is about something the listings show. */
  ghost predicate Shown(p: Pool, h: Hidden, cmd: Command) {
    match cmd
    case Umount(m) => m in p.mounts && p.mounts[m] in ShownDevs(p, h) && m !in h.points
    case Unmap(d) => d in ShownDevs(p, h)
    case Remove(c) => c in ShownClones(p, h)
    case Unprotect(s) => s in ShownSnaps(p, h)
    case RemoveSnap(s) => s in ShownSnaps(p, h)
    case _ => false
  }

  ghost predicate OnlyShown(ts: seq<Try>, n: nat, p: Pool, h: Hidden) {
    forall k :: n <= k < |ts| ==> Shown(p, h, ts[k].cmd)
  }

  datatype Left = Left(devs: set<string>, clones: set<string>, snaps: set<Snap>)

  const NONE := Left({}, {}, {})

  /** Everything of the backup job that is in the pool. */
  function Artefacts(p: Pool): Left { Left(OurDevs(p), OurImages(p), OurSnaps(p)) }

  /** What a cleanup with these listings does not see. */
  function Unseen(p: Pool, h: Hidden): Left {
    Left(OurDevs(p) * h.devs, OurImages(p) * h.clones, OurSnaps(p) - ShownSnaps(p, h))
  }

  /** A mount point that does not show holds a device that does. */
  ghost predicate MountBlocks(p: Pool, h: Hidden) {
    exists d :: d in ShownDevs(p, h) && MountsOf(p, d) * h.points != {}
  }

  /** A device that does not show holds an image that does. */
  ghost predicate DevBlocks(p: Pool, h: Hidden) {
    exists d :: d in OurDevs(p) * h.devs && p.devs[d] !in h.clones
  }

  /** A clone that does not show holds a snapshot that does. */
  ghost predicate CloneBlocks(p: Pool, h: Hidden) {
    exists c :: c in p.parent && c in h.clones && p.parent[c] in ShownSnaps(p, h)
  }

  ghost predicate Blocks(p: Pool, h: Hidden) { MountBlocks(p, h) || DevBlocks(p, h) || CloneBlocks(p, h) }

  /** Full listings see everything, and nothing then is in the way. */
  lemma FullListings(p: Pool)
    ensures Unseen(p, NOTHING) == NONE && !Blocks(p, NOTHING)
  {
    assert ShownSnaps(p, NOTHING) == OurSnaps(p);
  }

  lemma CleanIff(p: Pool)
    ensures Clean(p) <==> Artefacts(p) == NONE
  {
  }

  // ---- The stages of a cleanup ----

  ghost predicate Unmapped(p: Pool, h: Hidden, q: Pool) {
    && q == p.(devs := q.devs, mounts := q.mounts)
    && OurDevs(q) == OurDevs(p) * h.devs && forall d :: d in OurDevs(q) ==> q.devs[d] == p.devs[d]
  }

  ghost predicate Uncloned(p: Pool, h: Hidden, q: Pool) {
    && q == p.(images := q.images, parent := q.parent)
    && OurImages(q) == OurImages(p) * h.clones && q.parent == p.parent - ShownClones(p, h)
  }

  /** A device left by the first stage holds an image that shows. */
  ghost predicate DevLeftBlocks(q: Pool, h: Hidden) { exists d :: d in OurDevs(q) && q.devs[d] !in h.clones }

  lemma DevStage(p: Pool, h: Hidden, q: Pool)
    requires Unmapped(p, h, q)
    ensures DevLeftBlocks(q, h) <==> DevBlocks(p, h)
    ensures ShownClones(q, h) == ShownClones(p, h) && ShownSnaps(q, h) == ShownSnaps(p, h)
  {
    if DevBlocks(p, h) {
      var d :| d in OurDevs(p) * h.devs && p.devs[d] !in h.clones;
      assert d in OurDevs(q);
    }
  }

  /** A clone left by the second stage holds a snapshot that shows. */
  ghost predicate CloneLeftBlocks(q: Pool, h: Hidden) { exists s :: s in ShownSnaps(q, h) && s in q.parent.Values }

  lemma CloneStage(p: Pool, h: Hidden, q: Pool)
    requires Inv(p) && Uncloned(p, h, q)
    ensures CloneLeftBlocks(q, h) <==> CloneBlocks(p, h)
    ensures ShownSnaps(q, h) == ShownSnaps(p, h)
  {
    if CloneLeftBlocks(q, h) {
      var s :| s in ShownSnaps(q, h) && s in q.parent.Values;
      var c :| c in q.parent && q.parent[c] == s;
      assert c in OurImages(p) && c !in ShownClones(p, h);
    }
    if CloneBlocks(p, h) {
      var c :| c in p.parent && c in h.clones && p.parent[c] in ShownSnaps(p, h);
      assert c in q.parent && q.parent[c] in q.parent.Values;
    }
  }

  /** The commands of a later stage are about what shows, if it has no more to see. */
  lemma ShownThen(ts: seq<Try>, n: nat, p: Pool, q: Pool, h: Hidden)
    requires OnlyShown(ts, n, q, h) && ShownDevs(q, h) == {}
    requires ShownClones(q, h) <= ShownClones(p, h) && ShownSnaps(q, h) <= ShownSnaps(p, h)
    ensures OnlyShown(ts, n, p, h)
  {
    forall k | n <= k < |ts| ensures Shown(p, h, ts[k].cmd) { assert Shown(q, h, ts[k].cmd); }
  }

  // ---- Devices, one by one ----

  /** What is gone of the device is what shows of its mounts, and then itself. */
  ghost predicate UnmapUpTo(p: Pool, h: Hidden, rest: set<string>, q: Pool) {
    && rest <= ShownDevs(p, h)
    && q == p.(devs := p.devs - (ShownDevs(p, h) - rest), mounts := q.mounts) && q.mounts.Keys <= p.mounts.Keys
    && (forall d :: d in rest ==> MountsOf(q, d) == MountsOf(p, d))
    && (forall d :: d in ShownDevs(p, h) - rest ==> MountsOf(p, d) * h.points == {})
  }

  lemma UnmapNext(p: Pool, h: Hidden, rest: set<string>, q: Pool, dev: string)
    requires UnmapUpTo(p, h, rest, q) && dev in rest
    ensures OurDev(q, dev) && MountsOf(q, dev) == MountsOf(p, dev)
    ensures MountsOf(p, dev) * h.points != {} ==> MountBlocks(p, h)
  {
    assert dev in ShownDevs(p, h);
  }

  lemma UnmapStep(p: Pool, h: Hidden, rest: set<string>, q: Pool, dev: string, r: Pool)
    requires UnmapUpTo(p, h, rest, q) && dev in rest && MountsOf(q, dev) * h.points == {}
    requires r == q.(devs := q.devs - {dev}, mounts := r.mounts) && FewerMounts(q, r, MountsOf(q, dev) - h.points)
    ensures UnmapUpTo(p, h, rest - {dev}, r)
  {
    assert p.devs - (ShownDevs(p, h) - (rest - {dev})) == r.devs;
    forall d | d in rest - {dev} ensures MountsOf(r, d) == MountsOf(q, d) {}
  }

  lemma UnmapEnd(p: Pool, h: Hidden, q: Pool)
    requires UnmapUpTo(p, h, {}, q)
    ensures Unmapped(p, h, q) && !MountBlocks(p, h)
  {
  }

  // ---- Clones, one by one ----

  ghost predicate UncloneUpTo(p: Pool, h: Hidden, rest: set<string>, q: Pool) {
    var gone := ShownClones(p, h) - rest;
    && rest <= ShownClones(p, h)
    && q == p.(images := p.images - gone, parent := p.parent - gone)
    && (forall c :: c in gone ==> c !in p.devs.Values)
  }

  lemma UncloneStep(p: Pool, h: Hidden, rest: set<string>, q: Pool, clone: string, r: Pool)
    requires UncloneUpTo(p, h, rest, q) && clone in rest && clone !in p.devs.Values
    requires r == q.(images := q.images - {clone}, parent := q.parent - {clone})
    ensures UncloneUpTo(p, h, rest - {clone}, r)
  {
    var gone := ShownClones(p, h) - (rest - {clone});
    assert r.images == p.images - gone && r.parent == p.parent - gone;
  }

  lemma UncloneEnd(p: Pool, h: Hidden, q: Pool)
    requires UncloneUpTo(p, h, {}, q)
    ensures Uncloned(p, h, q) && forall c :: c in ShownClones(p, h) ==> c !in p.devs.Values
  {
    assert ShownClones(p, h) - {} == ShownClones(p, h);
  }

  // ---- Snapshots, image by image ----

  /** The shown snapshots of the images that are done with. */
  function ShownOff(p: Pool, h: Hidden, rest: set<string>): set<Snap> {
    set s | s in ShownSnaps(p, h) && s.img !in rest
  }

  /** Some of these snapshots have a clone. */
  ghost predicate Parents(p: Pool, snaps: set<Snap>) { exists s :: s in snaps && s in p.parent.Values }

  /** Once the shown snapshots of one image are gone, so are those of all images done with. */
  lemma OneImageLess(p: Pool, q: Pool, r: Pool, h: Hidden, rest: set<string>, img: string)
    requires img in rest && img !in h.images
    requires OurSnaps(q) == OurSnaps(p) - ShownOff(p, h, rest)
    requires OurSnaps(r) == OurSnaps(q) - (SnapsOf(q, img) - h.snaps)
    ensures OurSnaps(r) == OurSnaps(p) - ShownOff(p, h, rest - {img})
  {
    forall s ensures s in SnapsOf(q, img) <==> s in OurSnaps(q) && s.img == img {}
  }

  lemma OneImageShown(p: Pool, q: Pool, h: Hidden, rest: set<string>, img: string)
    requires img in rest && img !in h.images
    requires OurSnaps(q) == OurSnaps(p) - ShownOff(p, h, rest)
    ensures SnapsOf(q, img) - h.snaps == ShownOff(p, h, rest - {img}) - ShownOff(p, h, rest)
  {
    forall s ensures s in SnapsOf(q, img) <==> s in OurSnaps(q) && s.img == img {}
  }
}
