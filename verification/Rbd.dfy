/**
 The rbd commands the driver issues, with the semantics of its in-memory cluster:
 images with sizes, live and trashed snapshots, copy-on-write parents and image metadata.
 A snapshot "image@snap" is the pair (image, snap).
 */
module Rbd {
  import opened Options

  type SnapId = (string, string)

  /** Each image's key-value metadata. */
  type Metadata = map<string, map<string, string>>

  /** The cluster as a value. */
  datatype Cluster = Cluster(
    images: map<string, nat>,
    snaps: set<SnapId>,
    trashed: set<SnapId>,
    parents: map<string, string>,
    meta: Metadata)

  const EMPTY := Cluster(map[], {}, {}, map[], map[])

  // ---- the commands as functions -------------------------------------------

  predicate HasChildren(c: Cluster, img: string) { exists k | k in c.parents :: c.parents[k] == img }

  function ChildrenOf(c: Cluster, img: string): set<string> { set k | k in c.parents && c.parents[k] == img }

  /** Trashed snapshots of `img` are purged once its last clone is gone. */
  function Released(c: Cluster, img: string): Cluster {
    if HasChildren(c, img) then c else c.(trashed := set t | t in c.trashed && t.0 != img)
  }

  function CreateImage(c: Cluster, img: string, size: nat): Cluster { c.(images := c.images[img := size]) }

  function Entries(m: Metadata, img: string): map<string, string> { if img in m then m[img] else map[] }

  /** `from`'s metadata written over `to`'s. */
  function CopiedMeta(m: Metadata, from: string, to: string): Metadata { m[to := Entries(m, to) + Entries(m, from)] }

  /** `rbd clone from@snap to`: the parent's size and metadata, and a parent link. */
  function Clone(c: Cluster, from: string, to: string): Cluster {
    c.(images := c.images[to := if from in c.images then c.images[from] else 0],
       meta := CopiedMeta(c.meta, from, to),
       parents := c.parents[to := from])
  }

  /** Sever the parent link; the former parent's trash may become releasable. */
  function Flatten(c: Cluster, img: string): Cluster {
    if img in c.parents then Released(c.(parents := c.parents - {img}), c.parents[img]) else c
  }

  predicate HasSnaps(s: set<SnapId>, img: string) { exists t | t in s :: t.0 == img }

  datatype RmResult = Removed | NotFound | LiveSnapshots | LinkedClones

  function RmOutcome(c: Cluster, img: string): RmResult {
    if img !in c.images then NotFound
    else if HasSnaps(c.snaps, img) then LiveSnapshots
    else if HasSnaps(c.trashed, img) then LinkedClones
    else Removed
  }

  function Rm(c: Cluster, img: string): Cluster {
    if RmOutcome(c, img) != Removed then c
    else
      var c1 := c.(images := c.images - {img}, parents := c.parents - {img});
      if img in c.parents then Released(c1, c.parents[img]) else c1
  }

  function SnapCreate(c: Cluster, s: SnapId): Cluster { c.(snaps := c.snaps + {s}) }

  /** Removing a snapshot of an image with clones moves it to the trash. */
  function SnapRm(c: Cluster, s: SnapId): Cluster {
    if s !in c.snaps then c
    else c.(snaps := c.snaps - {s}, trashed := if HasChildren(c, s.0) then c.trashed + {s} else c.trashed)
  }

  function MetaSet(c: Cluster, img: string, key: string, value: string): Cluster {
    c.(meta := c.meta[img := Entries(c.meta, img)[key := value]])
  }

  /** An absent key reads as the empty string. */
  function MetaGet(c: Cluster, img: string, key: string): string {
    if key in Entries(c.meta, img) then c.meta[img][key] else ""
  }

  // ---- the cluster as the driver's fake keeps it ---------------------------

  /** Copies `source` over `target` key by key. */
  method Overlay(target: map<string, string>, source: map<string, string>) returns (m: map<string, string>)
    ensures m == target + source
  {
    m := target;
    var todo := source.Keys;
    while todo != {}
      invariant todo <= source.Keys
      invariant m.Keys == target.Keys + (source.Keys - todo)
      invariant forall k | k in m :: m[k] == if k in source && k !in todo then source[k] else target[k]
      decreases |todo|
    {
      var k :| k in todo;
      m := m[k := source[k]];
      todo := todo - {k};
    }
  }

  class Runner {
    var images: map<string, nat>
    var snaps: set<SnapId>
    var trashed: set<SnapId>
    var parents: map<string, string>
    var meta: Metadata

    function View(): Cluster
      reads this
    {
      Cluster(images, snaps, trashed, parents, meta)
    }

    constructor ()
      ensures View() == EMPTY
    {
      images, snaps, trashed, parents, meta := map[], {}, {}, map[], map[];
    }

    method RbdInfo(img: string) returns (size: Option<nat>, parent: Option<string>)
      ensures size == if img in images then Some(images[img]) else None
      ensures parent == if img in images && img in parents then Some(parents[img]) else None
    {
      if img !in images { return None, None; }
      size := Some(images[img]);
      parent := if img in parents then Some(parents[img]) else None;
    }

    method RbdCreate(img: string, size: nat)
      modifies this
      ensures View() == CreateImage(old(View()), img, size)
    {
      images := images[img := size];
    }

    method RbdResize(img: string, size: nat)
      modifies this
      ensures View() == CreateImage(old(View()), img, size)
    {
      images := images[img := size];
    }

    method RbdClone(from: string, to: string)
      modifies this
      ensures View() == Clone(old(View()), from, to)
    {
      images := images[to := if from in images then images[from] else 0];
      var copied := Overlay(Entries(meta, to), Entries(meta, from));
      meta := meta[to := copied];
      parents := parents[to := from];
    }

    /** Whether any clone still names `img` as its parent. */
    method HasCloneChildren(img: string) returns (found: bool)
      ensures found == HasChildren(View(), img)
    {
      var todo := parents.Keys;
      while todo != {}
        invariant todo <= parents.Keys
        invariant forall k | k in parents && k !in todo :: parents[k] != img
        decreases |todo|
      {
        var k :| k in todo;
        if parents[k] == img { return true; }
        todo := todo - {k};
      }
      return false;
    }

    method ReleaseTrashedSnaps(img: string)
      modifies this
      ensures View() == Released(old(View()), img)
    {
      var busy := HasCloneChildren(img);
      if busy { return; }
      var todo := trashed;
      while todo != {}
        invariant images == old(images) && snaps == old(snaps) && parents == old(parents) && meta == old(meta)
        invariant todo <= old(trashed)
        invariant trashed == set t | t in old(trashed) && (t in todo || t.0 != img)
        decreases |todo|
      {
        var t :| t in todo;
        if t.0 == img { trashed := trashed - {t}; }
        todo := todo - {t};
      }
    }

    method RbdFlatten(img: string)
      modifies this
      ensures View() == Flatten(old(View()), img)
    {
      if img in parents {
        var parent := parents[img];
        parents := parents - {img};
        ReleaseTrashedSnaps(parent);
      }
    }

    method RbdRm(img: string) returns (r: RmResult)
      modifies this
      ensures r == RmOutcome(old(View()), img) && View() == Rm(old(View()), img)
    {
      if img !in images { return NotFound; }
      if HasSnaps(snaps, img) { return LiveSnapshots; }
      if HasSnaps(trashed, img) { return LinkedClones; }
      var linked := img in parents;
      var parent := if linked then parents[img] else "";
      images := images - {img};
      parents := parents - {img};
      if linked { ReleaseTrashedSnaps(parent); }
      return Removed;
    }

    method RbdSnapCreate(s: SnapId)
      modifies this
      ensures View() == SnapCreate(old(View()), s)
    {
      snaps := snaps + {s};
    }

    method RbdSnapRm(s: SnapId) returns (found: bool)
      modifies this
      ensures found == (s in old(snaps)) && View() == SnapRm(old(View()), s)
    {
      if s !in snaps { return false; }
      var linked := HasCloneChildren(s.0);
      snaps := snaps - {s};
      if linked { trashed := trashed + {s}; }
      return true;
    }

    method RbdMetaSet(img: string, key: string, value: string)
      modifies this
      ensures View() == MetaSet(old(View()), img, key, value)
    {
      meta := meta[img := Entries(meta, img)[key := value]];
    }
  }

  // ---- what every command keeps --------------------------------------------

  /** No parent link dangles, no image with clones can be removed, and trash only exists
      while clones do. */
  ghost predicate Sound(c: Cluster) {
    && (forall k | k in c.parents :: k in c.images && c.parents[k] in c.images)
    && (forall t | t in c.snaps || t in c.trashed :: t.0 in c.images)
    && (forall img :: HasChildren(c, img) ==> HasSnaps(c.snaps, img) || HasSnaps(c.trashed, img))
    && (forall t | t in c.trashed :: HasChildren(c, t.0))
  }

  lemma ReleasedKeeps(c: Cluster, img: string)
    requires forall k | k in c.parents :: k in c.images && c.parents[k] in c.images
    requires forall t | t in c.snaps || t in c.trashed :: t.0 in c.images
    requires forall i :: HasChildren(c, i) ==> HasSnaps(c.snaps, i) || HasSnaps(c.trashed, i)
    requires forall t | t in c.trashed :: t.0 == img || HasChildren(c, t.0)
    ensures Sound(Released(c, img))
  {
    var d := Released(c, img);
    if !HasChildren(c, img) {
      forall i | HasChildren(d, i) ensures HasSnaps(d.snaps, i) || HasSnaps(d.trashed, i) {
        assert HasChildren(c, i) && i != img;
        if t :| t in c.trashed && t.0 == i { assert t in d.trashed; }
      }
      forall t | t in d.trashed ensures HasChildren(d, t.0) {
        var k :| k in c.parents && c.parents[k] == t.0;
        assert d.parents[k] == t.0;
      }
    }
  }

  /** Losing the link of `img` only affects the parent it pointed at. */
  lemma UnlinkedChildren(c: Cluster, d: Cluster, img: string, i: string)
    requires d.parents == c.parents - {img}
    ensures HasChildren(d, i) ==> HasChildren(c, i)
    ensures HasChildren(c, i) && !(img in c.parents && c.parents[img] == i) ==> HasChildren(d, i)
  {
    if HasChildren(d, i) {
      var k :| k in d.parents && d.parents[k] == i;
      assert c.parents[k] == i;
    }
    if HasChildren(c, i) && !(img in c.parents && c.parents[img] == i) {
      var k :| k in c.parents && c.parents[k] == i;
      assert k in d.parents && d.parents[k] == i;
    }
  }

  lemma FlattenSound(c: Cluster, img: string)
    requires Sound(c)
    ensures Sound(Flatten(c, img))
  {
    if img in c.parents {
      var d := c.(parents := c.parents - {img});
      forall i ensures HasChildren(d, i) ==> HasChildren(c, i) { UnlinkedChildren(c, d, img, i); }
      forall t | t in d.trashed ensures t.0 == c.parents[img] || HasChildren(d, t.0) {
        UnlinkedChildren(c, d, img, t.0);
      }
      ReleasedKeeps(d, c.parents[img]);
    }
  }

  lemma RmSound(c: Cluster, img: string)
    requires Sound(c)
    ensures Sound(Rm(c, img))
  {
    if RmOutcome(c, img) == Removed {
      assert !HasChildren(c, img);
      var d := c.(images := c.images - {img}, parents := c.parents - {img});
      forall i ensures HasChildren(d, i) ==> HasChildren(c, i) { UnlinkedChildren(c, d, img, i); }
      forall k | k in d.parents ensures d.parents[k] in d.images {
        assert d.parents[k] == img ==> HasChildren(c, img);
      }
      forall t | t in d.trashed ensures (img in c.parents && t.0 == c.parents[img]) || HasChildren(d, t.0) {
        UnlinkedChildren(c, d, img, t.0);
      }
      ReleasedKeeps(d, if img in c.parents then c.parents[img] else img);
    }
  }

  lemma SnapRmSound(c: Cluster, s: SnapId)
    requires Sound(c)
    ensures Sound(SnapRm(c, s))
  {
    var d := SnapRm(c, s);
    forall i | HasChildren(d, i) ensures HasSnaps(d.snaps, i) || HasSnaps(d.trashed, i) {
      assert HasChildren(c, i);
      if i == s.0 && s in c.snaps { assert s in d.trashed; }
      else if t :| t in c.snaps && t.0 == i { assert t in d.snaps; }
      else {
        var t :| t in c.trashed && t.0 == i;
        assert t in d.trashed;
      }
    }
    forall t | t in d.trashed ensures HasChildren(d, t.0) { assert HasChildren(c, t.0); }
  }

  /** A clone of a live snapshot into a new image. */
  lemma CloneSound(c: Cluster, from: string, snap: string, to: string)
    requires Sound(c) && (from, snap) in c.snaps && to !in c.images
    ensures Sound(Clone(c, from, to))
  {
    var d := Clone(c, from, to);
    forall i | HasChildren(d, i) ensures HasSnaps(d.snaps, i) || HasSnaps(d.trashed, i) {
      var k :| k in d.parents && d.parents[k] == i;
      if k == to { assert (from, snap) in d.snaps; } else { assert c.parents[k] == i; }
    }
    forall t | t in d.trashed ensures HasChildren(d, t.0) {
      var k :| k in c.parents && c.parents[k] == t.0;
      assert d.parents[k] == t.0;
    }
  }

  lemma CreateSound(c: Cluster, img: string, size: nat)
    requires Sound(c)
    ensures Sound(CreateImage(c, img, size))
  {
    var d := CreateImage(c, img, size);
    forall i ensures HasChildren(d, i) == HasChildren(c, i) {}
  }

  lemma SnapCreateSound(c: Cluster, s: SnapId)
    requires Sound(c) && s.0 in c.images
    ensures Sound(SnapCreate(c, s))
  {
    var d := SnapCreate(c, s);
    forall i | HasChildren(d, i) ensures HasSnaps(d.snaps, i) || HasSnaps(d.trashed, i) {
      assert HasChildren(c, i);
      if t :| t in c.snaps && t.0 == i { assert t in d.snaps; }
    }
    forall t | t in d.trashed ensures HasChildren(d, t.0) { assert HasChildren(c, t.0); }
  }
}
