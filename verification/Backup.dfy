/** The daily backup job. Clean up, then save every image. */
module Backup {
  import opened Rbd
  import opened Tidying
  import opened Listing

  /** A listing shows each element once. */
  ghost predicate Lists<T(!new)>(r: seq<T>, all: set<T>) {
    && (forall x :: x in r <==> x in all)
    && (forall i, j :: 0 <= i < j < |r| ==> r[i] != r[j])
  }

  method Enumerate<T(!new)>(all: set<T>) returns (r: seq<T>)
    ensures Lists(r, all)
  {
    r := [];
    var rest := all;
    while rest != {}
      invariant rest <= all
      invariant Lists(r, all - rest)
      decreases |rest|
    {
      var x :| x in rest;
      rest := rest - {x};
      r := r + [x];
    }
  }

  datatype Option<T> = None | Some(value: T)

  /** What the environment answers during the backup of one image. */
  datatype Facts = Facts(
    ns: Option<string>,   // the image's PVC metadata, where it has any
    pvc: Option<string>,
    stamp: string,        // the time in the snapshot's name
    dev: string,          // the device the kernel will map
    formatted: bool,      // whether the device holds a filesystem
    mkdir: bool,          // whether the mount point, the copy and the status file can be made
    copied: bool,
    recorded: bool)

  datatype Rule = NoMetadata | ExcludedNamespace | NoFilesystem | Saved

  function RuleFor(f: Facts, excluded: seq<string>): Rule {
    if f.ns.None? || f.pvc.None? then NoMetadata
    else if f.ns.value in excluded then ExcludedNamespace
    else if !f.formatted then NoFilesystem
    else Saved
  }

  /** A finished copy, labelled with the claim and image, and the snapshot whose contents were read. */
  datatype Copy = Copy(ns: string, pvc: string, img: string, source: Snap)

  function SnapFor(img: string, f: Facts): Snap { Snap(img, PREFIX + f.stamp) }

  function CloneFor(img: string): string { PREFIX + img }

  function PointFor(f: Facts): string
    requires f.ns.Some? && f.pvc.Some?
  {
    "/run/ceph-backup/" + f.ns.value + "/" + f.pvc.value
  }

  /** The copy that is due of an image: none when a rule skips it. */
  function Due(img: string, f: Facts, excluded: seq<string>): seq<Copy> {
    if RuleFor(f, excluded).Saved? then [Copy(f.ns.value, f.pvc.value, img, SnapFor(img, f))] else []
  }

  function Kept(status: set<string>, images: seq<string>): set<string> { set i | i in status && i in images }

  /** The statuses whose check fails: of volumes not listed, and where it breaks off. */
  function Dropped(status: set<string>, images: seq<string>, broken: set<string>): set<string> {
    set i | i in status && (i !in images || i in broken)
  }

  /** The copies a run makes of the images, in order. */
  ghost function CopiesOf(images: seq<string>, facts: string -> Facts, excluded: seq<string>): seq<Copy> {
    if images == [] then []
    else
      var n := |images| - 1;
      CopiesOf(images[..n], facts, excluded) + Due(images[n], facts(images[n]), excluded)
  }

  ghost function SavedOf(images: seq<string>, facts: string -> Facts, excluded: seq<string>): set<string> {
    set i | i in images && RuleFor(facts(i), excluded).Saved?
  }

  /** The image exists and none of the names its backup needs is taken. */
  ghost predicate Room(p: Pool, img: string, f: Facts) {
    && img in p.images && SnapFor(img, f) !in p.snaps && CloneFor(img) !in p.images && f.dev !in p.devs
    && (f.ns.Some? && f.pvc.Some? ==> PointFor(f) !in p.mounts)
  }

  /** The first two rules skip the image before anything is done to it. */
  predicate SkippedEarly(f: Facts, excluded: seq<string>) {
    RuleFor(f, excluded).NoMetadata? || RuleFor(f, excluded).ExcludedNamespace?
  }

  /** The host lets the backup through. */
  predicate Able(f: Facts) { f.mkdir && f.copied && f.recorded }

  /** Every image that is not skipped early has room in the pool and is let through. */
  ghost predicate AllRoom(p: Pool, images: seq<string>, facts: string -> Facts, excluded: seq<string>) {
    forall i :: i in images && !SkippedEarly(facts(i), excluded) ==> Room(p, i, facts(i)) && Able(facts(i))
  }

  ghost predicate AllSkipped(images: seq<string>, facts: string -> Facts, excluded: seq<string>) {
    forall i :: i in images ==> SkippedEarly(facts(i), excluded)
  }

  // ---- What a backup may do, said of what the environment answers ----

  /** The command makes something only out of this image. */
  predicate MadeOf(cmd: Command, img: string) {
    match cmd
    case CreateSnap(s) => s.img == img
    case Protect(s) => s.img == img
    case Clone(s, c) => s.img == img && c == PREFIX + img
    case Map(c, _) => c == PREFIX + img
    case _ => true
  }

  predicate Makes(cmd: Command) { cmd.CreateSnap? || cmd.Protect? || cmd.Clone? || cmd.Map? }

  ghost predicate OnlyOf(ts: seq<Try>, n: nat, img: string) {
    forall k :: n <= k < |ts| ==> MadeOf(ts[k].cmd, img)
  }

  /** Snapshots, clones and devices are only made of listed images with metadata, of namespaces not excluded. */
  ghost predicate MadeRight(ts: seq<Try>, n: nat, images: seq<string>, facts: string -> Facts, excluded: seq<string>) {
    forall k :: n <= k < |ts| && Makes(ts[k].cmd) ==>
      exists i :: i in images && MadeOf(ts[k].cmd, i)
                  && facts(i).ns.Some? && facts(i).pvc.Some? && facts(i).ns.value !in excluded
  }

  lemma ShownMakesNothing(ts: seq<Try>, n: nat, p: Pool, h: Hidden)
    requires OnlyShown(ts, n, p, h)
    ensures forall k :: n <= k < |ts| ==> !Makes(ts[k].cmd)
  {
    forall k | n <= k < |ts| ensures !Makes(ts[k].cmd) { assert Shown(p, h, ts[k].cmd); }
  }

  /** A volume with metadata and a filesystem, of a namespace that is not excluded. */
  predicate Saveable(f: Facts, excluded: seq<string>) {
    f.ns.Some? && f.pvc.Some? && f.ns.value !in excluded && f.formatted
  }

  /** A copy of one image's own snapshot, of a volume that is to be saved, under its own claim. */
  predicate CopyOf(c: Copy, img: string, f: Facts, excluded: seq<string>) {
    Saveable(f, excluded) && c == Copy(f.ns.value, f.pvc.value, img, Snap(img, PREFIX + f.stamp))
  }

  ghost predicate CopyRight(c: Copy, images: seq<string>, facts: string -> Facts, excluded: seq<string>) {
    c.img in images && CopyOf(c, c.img, facts(c.img), excluded)
  }

  ghost predicate CopiesRight(cs: seq<Copy>, n: nat, images: seq<string>, facts: string -> Facts,
                              excluded: seq<string>) {
    forall k :: n <= k < |cs| ==> CopyRight(cs[k], images, facts, excluded)
  }

  /** A new status is of a listed image that is to be saved. */
  ghost predicate StatusRight(was: set<string>, now: set<string>, images: seq<string>, facts: string -> Facts,
                              excluded: seq<string>) {
    forall i :: i in now && i !in was ==>
      i in images && Saveable(facts(i), excluded)
  }

  /** All that one image's turn may add. */
  ghost predicate TurnRight(ts: seq<Try>, n: nat, was: seq<Copy>, cs: seq<Copy>, had: set<string>, has: set<string>,
                            img: string, f: Facts, excluded: seq<string>) {
    && (forall k :: n <= k < |ts| && Makes(ts[k].cmd) ==>
          MadeOf(ts[k].cmd, img) && f.ns.Some? && f.pvc.Some? && f.ns.value !in excluded)
    && (cs != was ==>
          Saveable(f, excluded)
          && cs == was + [Copy(f.ns.value, f.pvc.value, img, Snap(img, PREFIX + f.stamp))])
    && has in {had, had + {img}} && (cs == was ==> has == had)
  }

  /** All that a run may add. */
  ghost predicate RunRight(ts: seq<Try>, n: nat, was: seq<Copy>, cs: seq<Copy>, had: set<string>, has: set<string>,
                           images: seq<string>, facts: string -> Facts, excluded: seq<string>) {
    && was <= cs && CopiesRight(cs, |was|, images, facts, excluded) && StatusRight(had, has, images, facts, excluded)
    && MadeRight(ts, n, images, facts, excluded)
  }

  lemma MadeLater(t0: seq<Try>, t1: seq<Try>, n: nat, images: seq<string>, facts: string -> Facts,
                  excluded: seq<string>)
    requires n <= |t0| && t0 <= t1 && (forall k :: n <= k < |t0| ==> !Makes(t0[k].cmd))
    requires MadeRight(t1, |t0|, images, facts, excluded)
    ensures MadeRight(t1, n, images, facts, excluded)
  {
  }

  lemma NextTurn(t0: seq<Try>, t1: seq<Try>, n: nat, was: seq<Copy>, c0: seq<Copy>, c1: seq<Copy>,
                 had: set<string>, s0: set<string>, s1: set<string>,
                 images: seq<string>, facts: string -> Facts, excluded: seq<string>, img: string)
    requires RunRight(t0, n, was, c0, had, s0, images, facts, excluded) && img in images && n <= |t0| && t0 <= t1
    requires TurnRight(t1, |t0|, c0, c1, s0, s1, img, facts(img), excluded)
    ensures RunRight(t1, n, was, c1, had, s1, images, facts, excluded)
  {
    forall k | |was| <= k < |c1| ensures CopyRight(c1[k], images, facts, excluded) {
      if k < |c0| { assert c1[k] == c0[k] && CopyRight(c0[k], images, facts, excluded); }
    }
    forall k | n <= k < |t1| && Makes(t1[k].cmd)
      ensures exists i :: i in images && MadeOf(t1[k].cmd, i)
                          && facts(i).ns.Some? && facts(i).pvc.Some? && facts(i).ns.value !in excluded
    {
      if k < |t0| { assert Makes(t0[k].cmd); } else { assert MadeOf(t1[k].cmd, img); }
    }
  }

  /** The copies are one of each listed image that is to be saved, in the order of the list. */
  ghost predicate CopiedAt(cs: seq<Copy>, images: seq<string>, facts: string -> Facts, excluded: seq<string>,
                           at: seq<nat>) {
    && Rising(at, |images|) && |cs| == |at|
    && (forall k :: 0 <= k < |at| ==> CopyOf(cs[k], images[at[k]], facts(images[at[k]]), excluded))
    && forall i: nat :: i in at <==> i < |images| && Saveable(facts(images[i]), excluded)
  }

  lemma CopiedNext(cs: seq<Copy>, front: seq<string>, img: string, facts: string -> Facts, excluded: seq<string>,
                   at: seq<nat>)
    requires CopiedAt(cs, front, facts, excluded, at)
    ensures Saveable(facts(img), excluded) ==>
              CopiedAt(cs + Due(img, facts(img), excluded), front + [img], facts, excluded, at + [|front|])
    ensures !Saveable(facts(img), excluded) ==>
              Due(img, facts(img), excluded) == [] && CopiedAt(cs, front + [img], facts, excluded, at)
  {
    RisingOn(at, |front|);
    var images := front + [img];
    assert forall i: nat :: i < |front| ==> images[i] == front[i];
    forall k | 0 <= k < |at| ensures CopyOf(cs[k], images[at[k]], facts(images[at[k]]), excluded) {
      assert CopyOf(cs[k], front[at[k]], facts(front[at[k]]), excluded);
    }
  }

  lemma {:induction false} CopiesAt(images: seq<string>, facts: string -> Facts, excluded: seq<string>)
    returns (at: seq<nat>)
    ensures CopiedAt(CopiesOf(images, facts, excluded), images, facts, excluded, at)
  {
    at := [];
    if images != [] {
      var n := |images| - 1;
      at := CopiesAt(images[..n], facts, excluded);
      CopiedNext(CopiesOf(images[..n], facts, excluded), images[..n], images[n], facts, excluded, at);
      assert images == images[..n] + [images[n]];
      if Saveable(facts(images[n]), excluded) { at := at + [n]; }
    }
  }

  /** Which statuses a run that exits 0 leaves, image by image. */
  ghost predicate StatusIs(was: set<string>, now: set<string>, images: seq<string>, facts: string -> Facts,
                           excluded: seq<string>, broken: set<string>) {
    forall i :: i in now <==>
      i in images && i !in broken && (i in was || Saveable(facts(i), excluded))
  }

  lemma ListingDone(was: seq<Copy>, cs: seq<Copy>, had: set<string>, has: set<string>, images: seq<string>,
                    facts: string -> Facts, excluded: seq<string>, broken: set<string>)
    requires cs == was + CopiesOf(images, facts, excluded)
    requires has == Kept(had + SavedOf(images, facts, excluded), images) - broken
    ensures exists at :: CopiedAt(cs[|was|..], images, facts, excluded, at)
    ensures StatusIs(had, has, images, facts, excluded, broken)
  {
    var at := CopiesAt(images, facts, excluded);
    assert cs[|was|..] == CopiesOf(images, facts, excluded);
  }

  lemma ForgetKeepsRight(ts: seq<Try>, n: nat, was: seq<Copy>, cs: seq<Copy>, had: set<string>, s0: set<string>,
                         s1: set<string>, images: seq<string>, facts: string -> Facts, excluded: seq<string>)
    requires RunRight(ts, n, was, cs, had, s0, images, facts, excluded) && s1 <= s0
    ensures RunRight(ts, n, was, cs, had, s1, images, facts, excluded)
  {
  }

  lemma NothingCopied(cs: seq<Copy>, images: seq<string>, facts: string -> Facts, excluded: seq<string>)
    requires images == [] && exists at :: CopiedAt(cs, images, facts, excluded, at)
    ensures cs == []
  {
    var at :| CopiedAt(cs, images, facts, excluded, at);
    RisingFits(at, 0);
  }

  // ---- What a run's listings and checks answer ----

  /** `blind(0)` is for the first cleanup, `blind(k + 1)` for the one after the `k`-th image fails. */
  datatype Answers = Answers(
    blind: nat -> Hidden,
    unlisted: set<string>,  // images the main listing does not show
    broken: set<string>)    // status files whose check breaks off

  /** The images of the main listing. */
  function Listed(p: Pool, a: Answers): set<string> { ForeignImages(p.images) - a.unlisted }

  /** There is room for the image's backup once a cleanup has removed what its listings show. */
  ghost predicate RoomAfter(p: Pool, h: Hidden, img: string, f: Facts) {
    && SnapFor(img, f) !in Unseen(p, h).snaps && CloneFor(img) !in Unseen(p, h).clones && f.dev !in p.devs
    && (f.ns.Some? && f.pvc.Some? ==> PointFor(f) !in p.mounts)
  }

  ghost predicate AllRoomAfter(p: Pool, a: Answers, facts: string -> Facts, excluded: seq<string>) {
    forall i :: i in Listed(p, a) && !SkippedEarly(facts(i), excluded) ==>
      RoomAfter(p, a.blind(0), i, facts(i)) && Able(facts(i))
  }

  /** Nothing is in the way of the first cleanup, nor then of any listed image. */
  ghost predicate Unhindered(p: Pool, a: Answers, facts: string -> Facts, excluded: seq<string>) {
    !Blocks(p, a.blind(0)) && AllRoomAfter(p, a, facts, excluded)
  }

  ghost predicate AllSkippedListed(p: Pool, a: Answers, facts: string -> Facts, excluded: seq<string>) {
    forall i :: i in Listed(p, a) ==> SkippedEarly(facts(i), excluded)
  }

  lemma StillRoom(p: Pool, q: Pool, a: Answers, images: seq<string>, facts: string -> Facts, excluded: seq<string>)
    requires AllRoomAfter(p, a, facts, excluded) && (forall i :: i in images ==> i in Listed(p, a))
    requires Artefacts(q) == Unseen(p, a.blind(0)) && Foreign(q) == Foreign(p)
    requires q.devs.Keys <= p.devs.Keys && q.mounts.Keys <= p.mounts.Keys
    ensures AllRoom(q, images, facts, excluded)
  {
    assert Foreign(q).images == Foreign(p).images;
    forall i | i in images && !SkippedEarly(facts(i), excluded) ensures Room(q, i, facts(i)) && Able(facts(i)) {
      assert i in Listed(p, a) && i in ForeignImages(q.images);
      assert RoomAfter(p, a.blind(0), i, facts(i));
      assert SnapFor(i, facts(i)) in q.snaps ==> SnapFor(i, facts(i)) in Artefacts(q).snaps;
      assert CloneFor(i) in q.images ==> CloneFor(i) in Artefacts(q).clones;
    }
  }

  lemma CopiesOfNext(base: seq<Copy>, images: seq<string>, facts: string -> Facts, excluded: seq<string>, i: nat)
    requires i < |images|
    ensures base + CopiesOf(images[..i + 1], facts, excluded) ==
            base + CopiesOf(images[..i], facts, excluded) + Due(images[i], facts(images[i]), excluded)
  {
    assert images[..i + 1][..i] == images[..i];
  }

  lemma SavedOfNext(base: set<string>, images: seq<string>, facts: string -> Facts, excluded: seq<string>, i: nat)
    requires i < |images|
    ensures base + SavedOf(images[..i + 1], facts, excluded) ==
            base + SavedOf(images[..i], facts, excluded) +
            if RuleFor(facts(images[i]), excluded).Saved? then {images[i]} else {}
  {
  }

  /** The pool once an image is snapshotted, cloned and mapped. */
  function Staged(p: Pool, img: string, f: Facts): Pool {
    Apply(Apply(Apply(Apply(p,
      CreateSnap(SnapFor(img, f))),
      Protect(SnapFor(img, f))),
      Clone(SnapFor(img, f), CloneFor(img))),
      Map(CloneFor(img), f.dev))
  }

  function Unstaged(p: Pool, img: string, f: Facts): Pool {
    Apply(Apply(Apply(Apply(p,
      Unmap(f.dev)),
      Remove(CloneFor(img))),
      Unprotect(SnapFor(img, f))),
      RemoveSnap(SnapFor(img, f)))
  }

  /** What is read under the mount point is the image's own snapshot. */
  lemma MountShows(p: Pool, img: string, f: Facts, point: string)
    ensures var q := Apply(Staged(p, img, f), Mount(f.dev, point));
            && point in q.mounts && q.mounts[point] == f.dev && q.devs[f.dev] == CloneFor(img)
            && q.parent[CloneFor(img)] == SnapFor(img, f)
  {
  }

  lemma AddThenDrop<K, V>(m: map<K, V>, k: K, v: V)
    requires k !in m
    ensures m[k := v] - {k} == m
  {}

  lemma UnstagingRestores(p: Pool, img: string, f: Facts)
    requires Inv(p) && SnapFor(img, f) !in p.snaps && CloneFor(img) !in p.images && f.dev !in p.devs
    ensures Unstaged(Staged(p, img, f), img, f) == p
  {
    var q := Apply(Apply(p, CreateSnap(SnapFor(img, f))), Protect(SnapFor(img, f)));
    CloneUndone(q, CloneFor(img), SnapFor(img, f), f.dev);
    SnapUndone(p, SnapFor(img, f));
  }

  lemma CloneUndone(p: Pool, c: string, s: Snap, dev: string)
    requires c !in p.images && c !in p.parent && dev !in p.devs
    ensures Apply(Apply(Apply(Apply(p, Clone(s, c)), Map(c, dev)), Unmap(dev)), Remove(c)) == p
  {
    AddThenDrop(p.devs, dev, c);
    AddThenDrop(p.parent, c, s);
    assert p.images + {c} - {c} == p.images;
  }

  lemma SnapUndone(p: Pool, s: Snap)
    requires s !in p.snaps
    ensures Apply(Apply(Apply(Apply(p, CreateSnap(s)), Protect(s)), Unprotect(s)), RemoveSnap(s)) == p
  {
    AddThenDrop(p.snaps, s, false);
    assert p.snaps[s := false][s := true][s := false] == p.snaps[s := false];
  }

  /** Each undoing command is acceptable in its turn. */
  lemma UnstagingAccepted(p: Pool, img: string, f: Facts)
    requires Inv(p) && SnapFor(img, f) !in p.snaps && CloneFor(img) !in p.images && f.dev !in p.devs
    requires !Prefixed(img)
    ensures var a := Staged(p, img, f);
            var b := Apply(a, Unmap(f.dev));
            var c := Apply(b, Remove(CloneFor(img)));
            var d := Apply(c, Unprotect(SnapFor(img, f)));
            && Accepts(a, Unmap(f.dev)) && Accepts(b, Remove(CloneFor(img)))
            && Accepts(c, Unprotect(SnapFor(img, f))) && Accepts(d, RemoveSnap(SnapFor(img, f)))
  {
    var s, c := SnapFor(img, f), CloneFor(img);
    AddThenDrop(p.devs, f.dev, c);
    AddThenDrop(p.parent, c, s);
    assert f.dev !in p.mounts.Values;
    assert c !in p.devs.Values;
    assert s !in p.parent.Values;
  }

  /** The pool once the image is snapshotted. */
  function Snapped(p: Pool, s: Snap): Pool { Apply(Apply(p, CreateSnap(s)), Protect(s)) }

  /** Undoing goes over the snapshotted pool back to where it began. */
  lemma UnstagingInTwo(p: Pool, img: string, f: Facts)
    requires Inv(p) && SnapFor(img, f) !in p.snaps && CloneFor(img) !in p.images && f.dev !in p.devs
    requires !Prefixed(img)
    ensures var a, s := Staged(p, img, f), SnapFor(img, f);
            var b := Apply(a, Unmap(f.dev));
            && Accepts(a, Unmap(f.dev)) && Ours(a, Unmap(f.dev))
            && Accepts(b, Remove(CloneFor(img))) && Ours(b, Remove(CloneFor(img)))
            && Apply(b, Remove(CloneFor(img))) == Snapped(p, s)
            && Accepts(Snapped(p, s), Unprotect(s))
            && Accepts(Apply(Snapped(p, s), Unprotect(s)), RemoveSnap(s))
            && Apply(Apply(Snapped(p, s), Unprotect(s)), RemoveSnap(s)) == p
  {
    UnstagingAccepted(p, img, f);
    CloneUndone(Snapped(p, SnapFor(img, f)), CloneFor(img), SnapFor(img, f), f.dev);
    SnapUndone(p, SnapFor(img, f));
  }

  class BackupRun {
    var pool: Pool
    var copies: seq<Copy>
    var status: set<string>   // images whose last success is on file
    var failed: int
    var lastRun: int
    ghost const origin: Pool
    ghost var tries: seq<Try>

    ghost predicate Valid()
      reads this
    {
      Inv(origin) && Chained(origin, tries, pool)
    }

    constructor (p: Pool)
      requires Inv(p)
      ensures Valid() && pool == p && origin == p && tries == []
    {
      pool, origin, tries := p, p, [];
      copies, status, failed, lastRun := [], {}, 0, 0;
    }

    /** Issue one command. It may fail, take effect, or take effect and report failure. */
    method Do(cmd: Command) returns (done: bool)
      requires Valid() && Ours(pool, cmd)
      modifies this`pool, this`tries
      ensures Valid()
      ensures tries == old(tries) + [Try(old(pool), cmd, done, pool)]
      ensures pool == old(pool) || (Accepts(old(pool), cmd) && pool == Apply(old(pool), cmd))
      ensures done ==> Accepts(old(pool), cmd) && pool == Apply(old(pool), cmd)
      ensures !done && Accepts(old(pool), cmd) ==> Faulted(tries, |old(tries)|)
    {
      ghost var was := pool;
      done := false;
      if Accepts(pool, cmd) {
        if * { pool := Apply(pool, cmd); if * { done := true; } }
      }
      ghost var t := Try(was, cmd, done, pool);
      ExtendChain(origin, tries, t);
      tries := tries + [t];
      assert !done && Accepts(was, cmd) ==> tries[|old(tries)|].Spurious();
    }

    /** Unmount everything the listing shows of a device. */
    method UnmountAll(dev: string, points: set<string>) returns (ok: bool)
      requires Valid() && OurDev(pool, dev)
      modifies this`pool, this`tries
      ensures Valid() && old(tries) <= tries
      ensures pool == old(pool).(mounts := pool.mounts)
      ensures FewerMounts(old(pool), pool, MountsOf(old(pool), dev) - points)
      ensures ok ==> pool.mounts.Keys * (MountsOf(old(pool), dev) - points) == {}
      ensures Fair(tries, |old(tries)|, ok, false)
      ensures OnlyUmounts(tries, |old(tries)|, MountsOf(old(pool), dev) - points)
    {
      ghost var first, n := pool, |tries|;
      ghost var shown := MountsOf(pool, dev) - points;
      var rest := MountsOf(pool, dev) - points;
      ok := true;
      while rest != {}
        invariant Valid() && old(tries) <= tries && AllOrdered(tries, n)
        invariant pool == first.(mounts := pool.mounts) && FewerMounts(first, pool, shown) && rest <= shown
        invariant pool.mounts.Keys * shown == rest
        invariant OnlyUmounts(tries, n, shown)
        decreases |rest|
      {
        var m :| m in rest;
        ok := UnmountOne(m);
        if !ok { return; }
        rest := rest - {m};
      }
    }

    method UnmountOne(m: string) returns (ok: bool)
      requires Valid() && OurMount(pool, m)
      modifies this`pool, this`tries
      ensures Valid() && old(tries) <= tries
      ensures pool == old(pool).(mounts := old(pool).mounts - {m}) || (!ok && pool == old(pool))
      ensures Fair(tries, |old(tries)|, ok, false) && OnlyUmounts(tries, |old(tries)|, {m})
    {
      ok := Do(Umount(m));
    }

    /** Unmount and unmap one device; a mount point that does not show is in the way. */
    method UnmapOne(dev: string, points: set<string>) returns (ok: bool)
      requires Valid() && OurDev(pool, dev)
      modifies this`pool, this`tries
      ensures Valid() && old(tries) <= tries
      ensures pool == old(pool).(devs := pool.devs, mounts := pool.mounts)
      ensures FewerMounts(old(pool), pool, MountsOf(old(pool), dev) - points)
      ensures pool.devs == old(pool).devs - {dev} || (!ok && pool.devs == old(pool).devs)
      ensures Fair(tries, |old(tries)|, ok, MountsOf(old(pool), dev) * points != {})
      ensures OnlyUnmap(tries, |old(tries)|, dev, MountsOf(old(pool), dev) - points)
    {
      ok := UnmountAll(dev, points);
      if !ok { return; }
      LeftMounts(old(pool), dev, points, pool);
      ok := Do(Unmap(dev));
    }

    /** Unmount and unmap every prefixed device the listing shows. */
    method UnmapAll(h: Hidden) returns (ok: bool)
      requires Valid()
      modifies this`pool, this`tries
      ensures Valid() && old(tries) <= tries
      ensures pool == old(pool).(devs := pool.devs, mounts := pool.mounts)
      ensures ok ==> Unmapped(old(pool), h, pool)
      ensures pool.devs.Keys <= old(pool).devs.Keys && pool.mounts.Keys <= old(pool).mounts.Keys
      ensures Fair(tries, |old(tries)|, ok, MountBlocks(old(pool), h))
      ensures OnlyShown(tries, |old(tries)|, old(pool), h)
    {
      ghost var first, n := pool, |tries|;
      var rest := ShownDevs(pool, h);
      ok := true;
      assert first.devs - (ShownDevs(first, h) - rest) == first.devs;
      while rest != {}
        invariant Valid() && old(tries) <= tries && UnmapUpTo(first, h, rest, pool)
        invariant !MountBlocks(first, h) ==> AllOrdered(tries, n)
        invariant OnlyShown(tries, n, first, h)
        decreases |rest|
      {
        var dev :| dev in rest;
        ghost var before, m := pool, |tries|;
        UnmapNext(first, h, rest, before, dev);
        ok := UnmapOne(dev, h.points);
        UnmapShown(tries, m, first, h, dev);
        if !ok { return; }
        UnmapStep(first, h, rest, before, dev, pool);
        rest := rest - {dev};
      }
      UnmapEnd(first, h, pool);
    }

    /** Remove every prefixed image the listing shows; a device that is left is in the way. */
    method RemoveClones(h: Hidden) returns (ok: bool)
      requires Valid()
      modifies this`pool, this`tries
      ensures Valid() && old(tries) <= tries
      ensures pool == old(pool).(images := pool.images, parent := pool.parent)
      ensures ok ==> Uncloned(old(pool), h, pool)
      ensures Fair(tries, |old(tries)|, ok, DevLeftBlocks(old(pool), h))
      ensures OnlyShown(tries, |old(tries)|, old(pool), h)
    {
      ghost var first, n := pool, |tries|;
      DevLeft(h);
      var rest := ShownClones(pool, h);
      ok := true;
      assert first.parent - (ShownClones(first, h) - rest) == first.parent;
      while rest != {}
        invariant Valid() && old(tries) <= tries && UncloneUpTo(first, h, rest, pool)
        invariant !DevLeftBlocks(first, h) ==> AllOrdered(tries, n)
        invariant OnlyShown(tries, n, first, h)
        decreases |rest|
      {
        var clone :| clone in rest;
        ghost var before, m := pool, |tries|;
        ok := RemoveClone(clone);
        RemoveShown(tries, m, first, h, clone);
        if !ok { return; }
        UncloneStep(first, h, rest, before, clone, pool);
        rest := rest - {clone};
      }
      UncloneEnd(first, h, pool);
    }

    method RemoveClone(clone: string) returns (ok: bool)
      requires Valid() && clone in OurImages(pool)
      modifies this`pool, this`tries
      ensures Valid() && old(tries) <= tries
      ensures ok ==> pool == old(pool).(images := old(pool).images - {clone}, parent := old(pool).parent - {clone})
      ensures pool == old(pool).(images := pool.images, parent := pool.parent)
      ensures Fair(tries, |old(tries)|, ok, clone in old(pool).devs.Values)
      ensures OnlyRemove(tries, |old(tries)|, clone)
    {
      PoolInv();
      ok := Do(Remove(clone));
    }

    /** A device is in the way exactly when some shown clone is mapped. */
    lemma DevLeft(h: Hidden)
      requires Valid()
      ensures DevLeftBlocks(pool, h) <==> exists c :: c in ShownClones(pool, h) && c in pool.devs.Values
    {
      PoolInv();
      if DevLeftBlocks(pool, h) {
        var d :| d in OurDevs(pool) && pool.devs[d] !in h.clones;
        assert pool.devs[d] in ShownClones(pool, h) && pool.devs[d] in pool.devs.Values;
      }
      if c :| c in ShownClones(pool, h) && c in pool.devs.Values {
        var d :| d in pool.devs && pool.devs[d] == c;
        assert d in OurDevs(pool);
      }
    }

    /** Remove the prefixed snapshots that show, image by image; a clone that is left is in the way. */
    method RemoveSnaps(h: Hidden) returns (ok: bool)
      requires Valid()
      modifies this`pool, this`tries
      ensures Valid() && old(tries) <= tries
      ensures pool == old(pool).(snaps := pool.snaps)
      ensures ok ==> OurSnaps(pool) == OurSnaps(old(pool)) - ShownSnaps(old(pool), h)
      ensures Fair(tries, |old(tries)|, ok, CloneLeftBlocks(old(pool), h))
      ensures OnlyShown(tries, |old(tries)|, old(pool), h)
    {
      ghost var first, n := pool, |tries|;
      SnapsOnPlain();
      var rest := ForeignImages(pool.images) - h.images;
      ok := true;
      assert ShownOff(first, h, rest) == {};
      while rest != {}
        invariant Valid() && old(tries) <= tries && (!CloneLeftBlocks(first, h) ==> AllOrdered(tries, n))
        invariant pool == first.(snaps := pool.snaps) && rest <= ForeignImages(first.images) - h.images
        invariant OurSnaps(pool) == OurSnaps(first) - ShownOff(first, h, rest)
        invariant !Parents(first, ShownOff(first, h, rest))
        invariant OnlyShown(tries, n, first, h)
        decreases |rest|
      {
        var img :| img in rest;
        ghost var before, m := pool, |tries|;
        OneImageShown(first, before, h, rest, img);
        ok := RemoveSnapsOf(img, h.snaps);
        SnapsShown(tries, m, first, h, SnapsOf(before, img) - h.snaps);
        if !ok { return; }
        OneImageLess(first, before, pool, h, rest, img);
        rest := rest - {img};
      }
      assert ShownOff(first, h, {}) == ShownSnaps(first, h);
    }

    /** Unprotect and remove the prefixed snapshots of one image that show. */
    method RemoveSnapsOf(img: string, hidden: set<Snap>) returns (ok: bool)
      requires Valid()
      modifies this`pool, this`tries
      ensures Valid() && old(tries) <= tries
      ensures pool == old(pool).(snaps := pool.snaps)
      ensures ok ==> OurSnaps(pool) == OurSnaps(old(pool)) - (SnapsOf(old(pool), img) - hidden)
      ensures Fair(tries, |old(tries)|, ok, Parents(old(pool), SnapsOf(old(pool), img) - hidden))
      ensures OnlySnaps(tries, |old(tries)|, SnapsOf(old(pool), img) - hidden)
    {
      ghost var first, n := pool, |tries|;
      ghost var shown := SnapsOf(pool, img) - hidden;
      var rest := SnapsOf(pool, img) - hidden;
      ok := true;
      while rest != {}
        invariant Valid() && old(tries) <= tries && (!Parents(first, shown) ==> AllOrdered(tries, n))
        invariant pool == first.(snaps := pool.snaps) && rest <= shown
        invariant OurSnaps(pool) == OurSnaps(first) - (shown - rest)
        invariant forall s :: s in shown - rest ==> s !in first.parent.Values
        invariant OnlySnaps(tries, n, shown)
        decreases |rest|
      {
        var s :| s in rest;
        assert s in OurSnaps(pool);
        ok := RemoveOneSnap(s);
        if !ok { return; }
        rest := rest - {s};
      }
    }

    /** Unprotecting may fail and is tolerated; removing may not. */
    method RemoveOneSnap(s: Snap) returns (ok: bool)
      requires Valid() && s in OurSnaps(pool)
      modifies this`pool, this`tries
      ensures Valid() && old(tries) <= tries
      ensures pool == old(pool).(snaps := pool.snaps)
      ensures ok ==> OurSnaps(pool) == OurSnaps(old(pool)) - {s}
      ensures Fair(tries, |old(tries)|, ok, s in old(pool).parent.Values)
      ensures OnlySnaps(tries, |old(tries)|, {s})
    {
      if s in pool.parent.Values { ParentIsProtected(s); }
      TryUnprotect(s);
      ok := DropSnap(s);
    }

    /** The snapshot stays protected only under a clone, or if the command failed for no reason of the pool's. */
    method TryUnprotect(s: Snap)
      requires Valid() && s in OurSnaps(pool)
      modifies this`pool, this`tries
      ensures Valid() && old(tries) <= tries
      ensures pool == old(pool).(snaps := pool.snaps) && pool.snaps.Keys == old(pool).snaps.Keys
      ensures s in old(pool).parent.Values ==> pool == old(pool)
      ensures s !in old(pool).parent.Values ==> AllOrdered(tries, |old(tries)|)
      ensures s !in old(pool).parent.Values && pool.snaps[s] ==> Faulted(tries, |old(tries)|)
      ensures OnlySnaps(tries, |old(tries)|, {s})
    {
      var freed := Do(Unprotect(s));
    }

    method DropSnap(s: Snap) returns (ok: bool)
      requires Valid() && s in OurSnaps(pool)
      modifies this`pool, this`tries
      ensures Valid() && old(tries) <= tries
      ensures pool == old(pool).(snaps := pool.snaps)
      ensures s !in old(pool).parent.Values ==> AllOrdered(tries, |old(tries)|)
      ensures old(pool).snaps[s] ==> !ok
      ensures !old(pool).snaps[s] && !ok ==> Faulted(tries, |old(tries)|)
      ensures !ok ==> FailedLast(tries, |old(tries)|)
      ensures ok ==> OurSnaps(pool) == OurSnaps(old(pool)) - {s}
      ensures OnlySnaps(tries, |old(tries)|, {s})
    {
      ok := Do(RemoveSnap(s));
    }

    lemma ParentIsProtected(s: Snap)
      requires Valid() && s in pool.parent.Values
      ensures s in pool.snaps && pool.snaps[s]
    {
      PoolInv();
    }

    /** Snapshots are on plain images. */
    lemma SnapsOnPlain()
      requires Valid()
      ensures forall s :: s in OurSnaps(pool) ==> s.img in ForeignImages(pool.images)
    {
      PoolInv();
    }

    /**
     * With given listings, what a successful cleanup leaves is exactly what they do not show; it issues
     * commands only about what they show. Unless something that shows is held by something that does not, its
     * commands are in order and it fails only if an acceptable command fails; otherwise it fails.
     */
    method Cleanup(h: Hidden) returns (ok: bool)
      requires Valid()
      modifies this`pool, this`tries
      ensures Valid() && old(tries) <= tries
      ensures ok ==> Artefacts(pool) == Unseen(old(pool), h)
      ensures ok ==> (Clean(pool) <==> Unseen(old(pool), h) == NONE)
      ensures Fair(tries, |old(tries)|, ok, Blocks(old(pool), h))
      ensures OnlyShown(tries, |old(tries)|, old(pool), h)
      ensures pool.devs.Keys <= old(pool).devs.Keys && pool.mounts.Keys <= old(pool).mounts.Keys
    {
      ghost var first := pool;
      ok := UnmapAll(h);
      if !ok { return; }
      ghost var second, m := pool, |tries|;
      DevStage(first, h, second);
      PoolInv();
      ok := RemoveClones(h);
      ShownThen(tries, m, first, second, h);
      if !ok { return; }
      ghost var third, l := pool, |tries|;
      CloneStage(second, h, third);
      ok := RemoveSnaps(h);
      ShownThen(tries, l, first, third, h);
    }

    method Stage(img: string, f: Facts) returns (ok: bool)
      requires Valid() && !Prefixed(img)
      modifies this`pool, this`tries
      ensures Valid() && old(tries) <= tries
      ensures ok ==> SnapFor(img, f) !in old(pool).snaps && CloneFor(img) !in old(pool).images
      ensures ok ==> f.dev !in old(pool).devs && pool == Staged(old(pool), img, f)
      ensures Room(old(pool), img, f) && !ok ==> Faulted(tries, |old(tries)|)
      ensures OnlyOf(tries, |old(tries)|, img)
      ensures |old(tries)| < |tries| && tries[|old(tries)|].cmd == CreateSnap(Snap(img, PREFIX + f.stamp))
    {
      ok := TakeSnap(SnapFor(img, f));
      if !ok { return; }
      ok := OpenClone(SnapFor(img, f), CloneFor(img), f.dev);
    }

    /** Take a snapshot and protect it. */
    method TakeSnap(s: Snap) returns (ok: bool)
      requires Valid() && Prefixed(s.name) && !Prefixed(s.img)
      modifies this`pool, this`tries
      ensures Valid() && old(tries) <= tries
      ensures ok ==> s !in old(pool).snaps && pool == Apply(Apply(old(pool), CreateSnap(s)), Protect(s))
      ensures s.img in old(pool).images && s !in old(pool).snaps && !ok ==> Faulted(tries, |old(tries)|)
      ensures OnlyOf(tries, |old(tries)|, s.img)
      ensures |old(tries)| < |tries| && tries[|old(tries)|].cmd == CreateSnap(s)
    {
      ok := Do(CreateSnap(s));
      if !ok { return; }
      ok := Do(Protect(s));
    }

    /** Clone a protected snapshot and map the clone. */
    method OpenClone(s: Snap, c: string, dev: string) returns (ok: bool)
      requires Valid() && Prefixed(s.name) && Prefixed(c) && c == PREFIX + s.img
      modifies this`pool, this`tries
      ensures Valid() && old(tries) <= tries
      ensures ok ==> c !in old(pool).images && dev !in old(pool).devs
      ensures ok ==> pool == Apply(Apply(old(pool), Clone(s, c)), Map(c, dev))
      ensures Accepts(old(pool), Clone(s, c)) && dev !in old(pool).devs && !ok ==> Faulted(tries, |old(tries)|)
      ensures OnlyOf(tries, |old(tries)|, s.img)
    {
      ok := Do(Clone(s, c));
      if !ok { return; }
      ok := Do(Map(c, dev));
    }

    method Unstage(img: string, f: Facts, ghost p: Pool) returns (ok: bool)
      requires Valid() && Inv(p) && !Prefixed(img) && pool == Staged(p, img, f)
      requires SnapFor(img, f) !in p.snaps && CloneFor(img) !in p.images && f.dev !in p.devs
      modifies this`pool, this`tries
      ensures Valid() && old(tries) <= tries
      ensures ok ==> pool == p
      ensures !ok ==> Faulted(tries, |old(tries)|)
      ensures OnlyOf(tries, |old(tries)|, img)
    {
      UnstagingInTwo(p, img, f);
      ok := Two(Unmap(f.dev), Remove(CloneFor(img)));
      if !ok { return; }
      ok := Two(Unprotect(SnapFor(img, f)), RemoveSnap(SnapFor(img, f)));
    }

    /** One command after the other, stopping at a failure. */
    method Two(first: Command, second: Command) returns (ok: bool)
      requires Valid() && Accepts(pool, first) && Accepts(Apply(pool, first), second)
      requires Ours(pool, first) && Ours(Apply(pool, first), second)
      modifies this`pool, this`tries
      ensures Valid() && old(tries) <= tries
      ensures ok ==> pool == Apply(Apply(old(pool), first), second)
      ensures !ok ==> Faulted(tries, |old(tries)|)
      ensures forall k :: |old(tries)| <= k < |tries| ==> tries[k].cmd in {first, second}
    {
      ok := Do(first);
      if !ok { return; }
      ok := Do(second);
    }

    /** Mount the clone and copy what is under the mount point. */
    method CopyMounted(img: string, f: Facts, ghost p: Pool) returns (ok: bool)
      requires Valid() && pool == Staged(p, img, f) && f.ns.Some? && f.pvc.Some?
      modifies this`pool, this`tries, this`copies
      ensures Valid() && old(tries) <= tries
      ensures ok ==> Accepts(old(pool), Mount(f.dev, PointFor(f)))
      ensures ok ==> pool == Apply(old(pool), Mount(f.dev, PointFor(f)))
      ensures ok ==> copies == old(copies) + [Copy(f.ns.value, f.pvc.value, img, SnapFor(img, f))]
      ensures PointFor(f) !in p.mounts && f.mkdir && f.copied && !ok ==> Faulted(tries, |old(tries)|)
      ensures !ok ==> copies == old(copies)
      ensures OnlyOf(tries, |old(tries)|, img)
    {
      if !f.mkdir { return false; }
      ok := Do(Mount(f.dev, PointFor(f)));
      if !ok { return; }
      if !f.copied { return false; }
      MountShows(p, img, f, PointFor(f));
      var source := pool.parent[pool.devs[pool.mounts[PointFor(f)]]];
      copies := copies + [Copy(f.ns.value, f.pvc.value, img, source)];
    }

    /** Copy, unmount, and note the success. */
    method CopyOut(img: string, f: Facts, ghost p: Pool) returns (ok: bool)
      requires Valid() && pool == Staged(p, img, f) && f.ns.Some? && f.pvc.Some?
      modifies this`pool, this`tries, this`copies, this`status
      ensures Valid() && old(tries) <= tries
      ensures ok ==> pool == old(pool) && status == old(status) + {img}
      ensures ok ==> copies == old(copies) + [Copy(f.ns.value, f.pvc.value, img, SnapFor(img, f))]
      ensures PointFor(f) !in p.mounts && f.mkdir && f.copied && f.recorded && !ok ==>
                Faulted(tries, |old(tries)|)
      ensures !ok ==> status == old(status)
                      && copies in {old(copies), old(copies) + [Copy(f.ns.value, f.pvc.value, img, SnapFor(img, f))]}
      ensures OnlyOf(tries, |old(tries)|, img)
    {
      ok := CopyMounted(img, f, p);
      if !ok { return; }
      MountShows(p, img, f, PointFor(f));
      AddThenDrop(old(pool).mounts, PointFor(f), f.dev);
      ok := Do(Umount(PointFor(f)));
      if !ok { return; }
      if !f.recorded { return false; }
      status := status + {img};
    }

    /**
     * Back up one image. One without metadata or in an excluded namespace gets no command, no copy and no
     * status; one without a filesystem is snapshotted but not copied; of any other the copy holds this image's
     * own snapshot under its own claim, and its success is noted. On success the pool is as it was.
     */
    method BackupOne(img: string, f: Facts, excluded: seq<string>) returns (ok: bool)
      requires Valid() && !Prefixed(img)
      modifies this`pool, this`tries, this`copies, this`status
      ensures Valid() && old(tries) <= tries
      ensures ok ==> pool == old(pool)
      ensures f.ns.None? || f.pvc.None? || f.ns.value in excluded ==>
                ok && tries == old(tries) && copies == old(copies) && status == old(status)
      ensures f.ns.Some? && f.pvc.Some? && f.ns.value !in excluded ==>
                |old(tries)| < |tries| && tries[|old(tries)|].cmd == CreateSnap(Snap(img, PREFIX + f.stamp))
      ensures ok && f.ns.Some? && f.pvc.Some? && f.ns.value !in excluded && f.formatted ==>
                && copies == old(copies) + [Copy(f.ns.value, f.pvc.value, img, Snap(img, PREFIX + f.stamp))]
                && status == old(status) + {img}
      ensures !f.formatted ==> copies == old(copies) && status == old(status)
      ensures status in {old(status), old(status) + {img}} && (copies == old(copies) ==> status == old(status))
      ensures f.ns.Some? && f.pvc.Some? && copies != old(copies) ==>
                copies == old(copies) + [Copy(f.ns.value, f.pvc.value, img, Snap(img, PREFIX + f.stamp))]
      ensures OnlyOf(tries, |old(tries)|, img)
      ensures Room(old(pool), img, f) && Able(f) && !ok ==> Faulted(tries, |old(tries)|)
    {
      if f.ns.None? || f.pvc.None? || f.ns.value in excluded { return true; }
      ok := BackupVolume(img, f);
    }

    /** Snapshot, clone and map the image, copy it if it holds a filesystem, and undo it all. */
    method BackupVolume(img: string, f: Facts) returns (ok: bool)
      requires Valid() && !Prefixed(img) && f.ns.Some? && f.pvc.Some?
      modifies this`pool, this`tries, this`copies, this`status
      ensures Valid() && old(tries) <= tries
      ensures ok ==> pool == old(pool)
      ensures |old(tries)| < |tries| && tries[|old(tries)|].cmd == CreateSnap(SnapFor(img, f))
      ensures ok && f.formatted ==> status == old(status) + {img}
      ensures ok && f.formatted ==> copies == old(copies) + [Copy(f.ns.value, f.pvc.value, img, SnapFor(img, f))]
      ensures !f.formatted ==> copies == old(copies) && status == old(status)
      ensures status in {old(status), old(status) + {img}} && (copies == old(copies) ==> status == old(status))
      ensures copies in {old(copies), old(copies) + [Copy(f.ns.value, f.pvc.value, img, SnapFor(img, f))]}
      ensures OnlyOf(tries, |old(tries)|, img)
      ensures Room(old(pool), img, f) && Able(f) && !ok ==> Faulted(tries, |old(tries)|)
    {
      PoolInv();
      ok := Stage(img, f);
      if !ok { return; }
      if f.formatted {
        ok := CopyOut(img, f, old(pool));
        if !ok { return; }
      }
      ok := Unstage(img, f, old(pool));
    }

    /** The exit trap. */
    method Exit(rc: int)
      modifies this`failed, this`lastRun
      ensures failed == if rc != 0 then 1 else old(failed)
      ensures lastRun == 1 - failed
    {
      if rc != 0 { failed := 1; }
      lastRun := 1 - failed;
    }

    /**
     * Drop the status of volumes that are not listed. `grep -q` leaves at its first match, and under pipefail
     * a listing still being printed then fails the pipeline: a check that breaks off like that drops the
     * status of a listed volume as well.
     */
    method Forget(images: seq<string>, broken: set<string>)
      modifies this`status
      ensures status == Kept(old(status), images) - broken
    {
      var files := status;
      while files != {}
        invariant files <= old(status)
        invariant status == old(status) - Dropped(old(status) - files, images, broken)
        decreases |files|
      {
        var f :| f in files;
        files := files - {f};
        if f !in images || f in broken { status := status - {f}; }
      }
    }

    /**
     * A whole run. It records success exactly when it exits 0. Then every image of the main listing was copied
     * or skipped by rule, the statuses are those of the listed images less the broken checks, and what is left
     * in the pool is exactly what the first cleanup's listings did not show. With nothing in that cleanup's
     * way, a connection, and room for every listed image, it exits 0 unless an acceptable command fails. If
     * every cleanup's listings are full, nothing is left unless the run's last command failed.
     */
    method Run(facts: string -> Facts, excluded: seq<string>, connected: bool, a: Answers)
      returns (code: int, images: seq<string>)
      requires Valid()
      modifies this
      ensures Valid() && old(tries) <= tries
      ensures Foreign(pool) == Foreign(old(pool))
      ensures code in {0, 1} && (lastRun == 1 <==> code == 0)
      ensures images == [] || Lists(images, Listed(old(pool), a))
      ensures code == 0 ==> Lists(images, Listed(old(pool), a)) && connected && !Blocks(old(pool), a.blind(0))
      ensures code == 0 ==> Artefacts(pool) == Unseen(old(pool), a.blind(0))
      ensures code == 1 && connected && Unhindered(old(pool), a, facts, excluded) ==> Faulted(tries, |old(tries)|)
      ensures AllSkippedListed(old(pool), a, facts, excluded) ==>
                OnlyShown(tries, |old(tries)|, old(pool), a.blind(0))
      ensures (forall k :: a.blind(k) == NOTHING) ==> Clean(pool) || FailedLast(tries, |old(tries)|)
      ensures RunRight(tries, |old(tries)|, old(copies), copies, old(status), status, images, facts, excluded)
      ensures code == 0 ==> exists at :: CopiedAt(copies[|old(copies)|..], images, facts, excluded, at)
      ensures code == 0 ==> StatusIs(old(status), status, images, facts, excluded, a.broken)
    {
      ghost var first := pool;
      SameForeign();
      FullListings(first);
      failed, code, images := 0, 1, [];
      var ok := Cleanup(a.blind(0));
      SameForeign();
      assert Foreign(pool).images == Foreign(first).images;
      ShownMakesNothing(tries, |old(tries)|, first, a.blind(0));
      if !ok || !connected { Exit(1); return; }
      ghost var cleaned := pool;
      code, images := BackupListed(facts, excluded, a, |old(tries)|);
      SameForeign();
      if AllRoomAfter(first, a, facts, excluded) { StillRoom(first, cleaned, a, images, facts, excluded); }
    }

    /** From the main listing on. */
    method BackupListed(facts: string -> Facts, excluded: seq<string>, a: Answers, ghost n: nat)
      returns (code: int, images: seq<string>)
      requires Valid() && failed == 0 && n <= |tries| && forall k :: n <= k < |tries| ==> !Makes(tries[k].cmd)
      modifies this
      ensures Valid() && old(tries) <= tries && code in {0, 1} && (lastRun == 1 <==> code == 0)
      ensures Lists(images, Listed(old(pool), a))
      ensures RunRight(tries, n, old(copies), copies, old(status), status, images, facts, excluded)
      ensures code == 0 ==> pool == old(pool)
      ensures code == 0 ==> exists at :: CopiedAt(copies[|old(copies)|..], images, facts, excluded, at)
      ensures code == 0 ==> StatusIs(old(status), status, images, facts, excluded, a.broken)
      ensures AllRoom(old(pool), images, facts, excluded) && code == 1 ==> Faulted(tries, |old(tries)|)
      ensures AllSkipped(images, facts, excluded) ==> tries == old(tries)
      ensures (forall k :: a.blind(k) == NOTHING) && Clean(old(pool)) ==>
                Clean(pool) || FailedLast(tries, |old(tries)|)
    {
      images := Enumerate(ForeignImages(pool.images) - a.unlisted);
      var ok := BackupAll(images, facts, excluded, a.blind);
      MadeLater(old(tries), tries, n, images, facts, excluded);
      code := 1;
      if !ok { Exit(1); return; }
      ghost var has := status;
      Forget(images, a.broken);
      ForgetKeepsRight(tries, n, old(copies), copies, old(status), has, status, images, facts, excluded);
      if failed == 0 {
        ListingDone(old(copies), copies, old(status), status, images, facts, excluded, a.broken);
      }
      code := failed;
      Exit(code);
    }

    /** Back up the images in turn, cleaning up after each failure; `reached` unless a cleanup fails. */
    method BackupAll(images: seq<string>, facts: string -> Facts, excluded: seq<string>, blind: nat -> Hidden)
      returns (reached: bool)
      requires Valid() && failed == 0
      requires forall i :: i in images ==> i in ForeignImages(pool.images)
      modifies this`pool, this`tries, this`copies, this`status, this`failed
      ensures Valid() && old(tries) <= tries && failed in {0, 1} && (!reached ==> failed == 1)
      ensures failed == 0 ==> copies == old(copies) + CopiesOf(images, facts, excluded)
      ensures failed == 0 ==> status == old(status) + SavedOf(images, facts, excluded) && pool == old(pool)
      ensures AllRoom(old(pool), images, facts, excluded) && failed == 1 ==> Faulted(tries, |old(tries)|)
      ensures AllSkipped(images, facts, excluded) ==> failed == 0 && tries == old(tries)
      ensures (forall k :: blind(k) == NOTHING) && Clean(old(pool)) ==>
                Clean(pool) || FailedLast(tries, |old(tries)|)
      ensures RunRight(tries, |old(tries)|, old(copies), copies, old(status), status, images, facts, excluded)
    {
      reached := true;
      ghost var first, n := pool, |tries|;
      ghost var full := Clean(pool) && forall k :: blind(k) == NOTHING;
      for k := 0 to |images|
        invariant Valid() && old(tries) <= tries && failed in {0, 1}
        invariant failed == 0 ==> copies == old(copies) + CopiesOf(images[..k], facts, excluded)
        invariant failed == 0 ==> status == old(status) + SavedOf(images[..k], facts, excluded)
        invariant failed == 0 ==> pool == first
        invariant AllRoom(first, images, facts, excluded) && failed == 1 ==> Faulted(tries, n)
        invariant AllSkipped(images, facts, excluded) ==> failed == 0 && tries == old(tries)
        invariant full ==> Clean(pool)
        invariant RunRight(tries, n, old(copies), copies, old(status), status, images, facts, excluded)
      {
        assert images[k] in images && images[k] in ForeignImages(first.images);
        CopiesOfNext(old(copies), images, facts, excluded, k);
        SavedOfNext(old(status), images, facts, excluded, k);
        reached := BackupNext(images, k, facts, excluded, blind(k + 1), n, old(copies), old(status));
        if !reached { return; }
      }
      assert images[..|images|] == images;
    }

    /** The next image's turn. */
    method BackupNext(images: seq<string>, k: nat, facts: string -> Facts, excluded: seq<string>, h: Hidden,
                      ghost n: nat, ghost was: seq<Copy>, ghost had: set<string>) returns (reached: bool)
      requires Valid() && k < |images| && !Prefixed(images[k]) && failed in {0, 1} && n <= |tries|
      requires RunRight(tries, n, was, copies, had, status, images, facts, excluded)
      modifies this`pool, this`tries, this`copies, this`status, this`failed
      ensures Valid() && old(tries) <= tries && failed in {0, 1}
      ensures failed == 0 ==> old(failed) == 0 && reached && pool == old(pool)
      ensures failed == 0 ==>
                status == old(status) + if RuleFor(facts(images[k]), excluded).Saved? then {images[k]} else {}
      ensures failed == 0 ==> copies == old(copies) + Due(images[k], facts(images[k]), excluded)
      ensures SkippedEarly(facts(images[k]), excluded) ==> failed == old(failed) && tries == old(tries)
      ensures Room(old(pool), images[k], facts(images[k])) && Able(facts(images[k])) && failed == 1 ==>
                old(failed) == 1 || Faulted(tries, |old(tries)|)
      ensures !reached ==> failed == 1 && FailedLast(tries, |old(tries)|)
      ensures reached && h == NOTHING && Clean(old(pool)) ==> Clean(pool)
      ensures RunRight(tries, n, was, copies, had, status, images, facts, excluded)
    {
      reached := BackupOrClean(images[k], facts(images[k]), excluded, h);
      NextTurn(old(tries), tries, n, was, old(copies), copies, had, old(status), status, images, facts, excluded,
               images[k]);
    }

    /** Back up one image; after a failure, clean up before going on. */
    method BackupOrClean(img: string, f: Facts, excluded: seq<string>, h: Hidden) returns (reached: bool)
      requires Valid() && !Prefixed(img) && failed in {0, 1}
      modifies this`pool, this`tries, this`copies, this`status, this`failed
      ensures Valid() && old(tries) <= tries && failed in {0, 1}
      ensures failed == 0 ==> old(failed) == 0 && reached && pool == old(pool)
      ensures failed == 0 ==> status == old(status) + if RuleFor(f, excluded).Saved? then {img} else {}
      ensures failed == 0 ==> copies == old(copies) + Due(img, f, excluded)
      ensures SkippedEarly(f, excluded) ==> failed == old(failed) && tries == old(tries)
      ensures Room(old(pool), img, f) && Able(f) && failed == 1 ==> old(failed) == 1 || Faulted(tries, |old(tries)|)
      ensures !reached ==> failed == 1 && FailedLast(tries, |old(tries)|)
      ensures reached && h == NOTHING && Clean(old(pool)) ==> Clean(pool)
      ensures TurnRight(tries, |old(tries)|, old(copies), copies, old(status), status, img, f, excluded)
    {
      reached := BackupOne(img, f, excluded);
      if !reached {
        failed := 1;
        FullListings(pool);
        ghost var p, n := pool, |tries|;
        reached := Cleanup(h);
        ShownMakesNothing(tries, n, p, h);
      }
    }

    /** Nothing the job has done has changed what is not its own. */
    lemma SameForeign()
      requires Valid()
      ensures Foreign(pool) == Foreign(origin)
    {
      ChainKeeps(origin, tries, pool);
    }

    lemma PoolInv()
      requires Valid()
      ensures Inv(pool)
    {
      ChainKeeps(origin, tries, pool);
    }
  }

  ghost predicate OnlySnaps(ts: seq<Try>, n: nat, snaps: set<Snap>) {
    forall k :: n <= k < |ts| ==> (ts[k].cmd.Unprotect? || ts[k].cmd.RemoveSnap?) && ts[k].cmd.snap in snaps
  }

  lemma SnapsShown(ts: seq<Try>, n: nat, p: Pool, h: Hidden, snaps: set<Snap>)
    requires snaps <= ShownSnaps(p, h) && OnlySnaps(ts, n, snaps)
    ensures OnlyShown(ts, n, p, h)
  {
  }

  ghost predicate OnlyUmounts(ts: seq<Try>, n: nat, points: set<string>) {
    forall k :: n <= k < |ts| ==> ts[k].cmd.Umount? && ts[k].cmd.point in points
  }

  ghost predicate OnlyUnmap(ts: seq<Try>, n: nat, dev: string, points: set<string>) {
    forall k :: n <= k < |ts| ==> ts[k].cmd == Unmap(dev) || (ts[k].cmd.Umount? && ts[k].cmd.point in points)
  }

  /** What is mounted of the device after unmounting what shows. */
  lemma LeftMounts(p: Pool, dev: string, points: set<string>, q: Pool)
    requires FewerMounts(p, q, MountsOf(p, dev) - points) && q.mounts.Keys * (MountsOf(p, dev) - points) == {}
    ensures dev in q.mounts.Values <==> MountsOf(p, dev) * points != {}
  {
    if dev in q.mounts.Values {
      var m :| m in q.mounts && q.mounts[m] == dev;
      assert m in MountsOf(p, dev) && m !in q.mounts.Keys * (MountsOf(p, dev) - points);
      assert m in MountsOf(p, dev) * points;
    }
    if MountsOf(p, dev) * points != {} {
      var m :| m in MountsOf(p, dev) * points;
      assert m in q.mounts && q.mounts[m] == dev;
    }
  }

  lemma UnmapShown(ts: seq<Try>, n: nat, p: Pool, h: Hidden, dev: string)
    requires dev in ShownDevs(p, h) && OnlyUnmap(ts, n, dev, MountsOf(p, dev) - h.points)
    ensures OnlyShown(ts, n, p, h)
  {
  }

  ghost predicate OnlyRemove(ts: seq<Try>, n: nat, clone: string) {
    forall k :: n <= k < |ts| ==> ts[k].cmd == Remove(clone)
  }

  lemma RemoveShown(ts: seq<Try>, n: nat, p: Pool, h: Hidden, clone: string)
    requires clone in ShownClones(p, h) && OnlyRemove(ts, n, clone)
    ensures OnlyShown(ts, n, p, h)
  {
  }

  ghost function CutAt(origin: Pool, ts: seq<Try>, k: nat): Pool
    requires k <= |ts|
  {
    if k == 0 then origin else ts[k - 1].after
  }

  /**
   * A run is cut after any of its commands; then anyone else uses the pool, further runs are cut and machines
   * reboot. The next run's cleanup leaves exactly what its listings do not show; with full listings that is
   * nothing, every command it issues is in order, and it fails only if an acceptable command fails.
   */
  method RecoverFromCut(now: Pool, h: Hidden, ghost origin: Pool, ghost ts: seq<Try>, ghost end: Pool, ghost k: nat,
                        ghost es: seq<Step>) returns (job: BackupRun, ok: bool)
    requires Inv(origin) && Chained(origin, ts, end) && k <= |ts|
    requires History(CutAt(origin, ts, k), es) && now == End(CutAt(origin, ts, k), es)
    ensures job.Valid() && Foreign(job.pool) == Foreign(now)
    ensures ok ==> Artefacts(job.pool) == Unseen(now, h)
    ensures Fair(job.tries, 0, ok, Blocks(now, h)) && OnlyShown(job.tries, 0, now, h)
    ensures h == NOTHING ==> AllOrdered(job.tries, 0) && (ok || Faulted(job.tries, 0)) && (ok ==> Clean(job.pool))
  {
    CutAnywhere(origin, ts, end, k);
    EveryHistoryKeepsInv(CutAt(origin, ts, k), es);
    job := new BackupRun(now);
    FullListings(now);
    ok := job.Cleanup(h);
    job.SameForeign();
  }

  // ---- Runs that do less than they say ----

  lemma SomethingShows(ts: seq<Try>, n: nat, p: Pool, h: Hidden)
    requires OnlyShown(ts, n, p, h)
    ensures n < |ts| ==> ShownDevs(p, h) != {} || ShownClones(p, h) != {} || ShownSnaps(p, h) != {}
  {
    if n < |ts| { assert Shown(p, h, ts[n].cmd); }
  }

  lemma ListedNothing(images: seq<string>, all: set<string>)
    requires images == [] || Lists(images, all)
    ensures all == {} ==> images == []
  {
    if images != [] { assert images[0] in all; }
  }

  /**
   * A run was cut right after its first command. In the next one the cleanup's image listing fails without
   * printing anything: the cleanup succeeds, whatever any command would do, and the snapshot is still there.
   */
  method CleanupLeavesSnapshot() returns (job: BackupRun, ok: bool)
    ensures ok && job.Valid() && OurSnaps(job.pool) != {} && !Clean(job.pool)
  {
    var snap := Snap("csi-vol-1", PREFIX + "20250101T030000Z");
    var before := Pool({"csi-vol-1"}, map[], map[], map[], map[]);
    var now := Apply(before, CreateSnap(snap));
    var h := NOTHING.(images := {"csi-vol-1"});
    assert snap in OurSnaps(now) && ShownSnaps(now, h) == {};
    assert !Blocks(now, h);
    ghost var t := Try(before, CreateSnap(snap), true, now);
    assert [t][..0] == [];
    job, ok := RecoverFromCut(now, h, before, [t], now, 1, []);
    SomethingShows(job.tries, 0, now, h);
    assert snap in Unseen(now, h).snaps;
  }

  /** A main listing that fails without printing anything: the run exits 0 over no images and drops every status. */
  method RunOverNoImages(job: BackupRun, facts: string -> Facts, excluded: seq<string>) returns (code: int)
    requires job.Valid() && Clean(job.pool)
    modifies job
    ensures code == 0 && job.lastRun == 1 && job.copies == old(job.copies) && job.status == {}
  {
    ghost var first, n := job.pool, |job.tries|;
    var a := Answers(k => NOTHING, ForeignImages(job.pool.images), {});
    FullListings(first);
    var images;
    code, images := job.Run(facts, excluded, true, a);
    SomethingShows(job.tries, n, first, NOTHING);
    ListedNothing(images, Listed(first, a));
    NothingCopied(job.copies[|old(job.copies)|..], images, facts, excluded);
    assert old(job.copies) + job.copies[|old(job.copies)|..] == job.copies;
  }

  /** A status check that breaks off: the run exits 0 and the status of a volume that is there is gone. */
  method RunDropsLiveStatus(job: BackupRun, img: string, facts: string -> Facts, excluded: seq<string>)
    returns (code: int)
    requires job.Valid() && Clean(job.pool) && img in job.status && img in ForeignImages(job.pool.images)
    requires forall i :: SkippedEarly(facts(i), excluded)
    modifies job
    ensures code == 0 && job.lastRun == 1 && img in ForeignImages(job.pool.images) && img !in job.status
  {
    ghost var first, n := job.pool, |job.tries|;
    var a := Answers(k => NOTHING, {}, {img});
    FullListings(first);
    var images;
    code, images := job.Run(facts, excluded, true, a);
    SomethingShows(job.tries, n, first, NOTHING);
    assert Foreign(job.pool).images == Foreign(first).images;
  }
}
