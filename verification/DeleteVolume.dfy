/**
 DeleteVolume: static images are left alone, a stored key is only destroyed once no live
 snapshot needs it, and a delete blocked by linked clones flattens them so that a retry
 converges.
 */
module DeleteVolume {
  import opened Rbd

  const STATIC_KEY := "bard.static"
  const KMS_KEY := "bard.encryptionKMSID"

  /** The cluster, the images whose key the KMS stores, and the flattens scheduled. */
  datatype State = State(c: Cluster, keys: set<string>, due: set<string>)

  /** `Kept` and `Deleted` are the successful answers, the other two are errors. */
  datatype Outcome = Kept | Deleted | HasSnapshots | Blocked

  predicate IsStatic(c: Cluster, img: string) { MetaGet(c, img, STATIC_KEY) == "true" }

  predicate HasStoredKey(c: Cluster, img: string) { MetaGet(c, img, KMS_KEY) != "" }

  /** The answer depends only on the static mark and on the snapshots of the image. */
  function Expected(c: Cluster, img: string): Outcome {
    if IsStatic(c, img) then Kept
    else if img !in c.images && !(HasStoredKey(c, img) && HasSnaps(c.snaps, img)) then Deleted
    else if HasSnaps(c.snaps, img) then HasSnapshots
    else if HasSnaps(c.trashed, img) then Blocked
    else Deleted
  }

  function Effect(s: State, img: string): State {
    var out := Expected(s.c, img);
    State(
      if out.Deleted? then Rm(s.c, img) else s.c,
      if (out.Deleted? || out.Blocked?) && HasStoredKey(s.c, img) then s.keys - {img} else s.keys,
      if out.Blocked? then s.due + ChildrenOf(s.c, img) else s.due)
  }

  /** Each answer by its own condition: the static mark, a live snapshot, a clone that a trashed
      snapshot is kept for. */
  lemma AnsweredIff(c: Cluster, img: string)
    requires Sound(c)
    ensures var marked := MetaGet(c, img, "bard.static") == "true";
            var live := exists t :: t in c.snaps && t.0 == img;
            var cloned := exists k :: k in c.parents && c.parents[k] == img;
            && (Expected(c, img) == Kept <==> marked)
            && (Expected(c, img) == HasSnapshots <==> !marked && live)
            && (Expected(c, img) == Blocked <==> !marked && !live && cloned)
            && (Expected(c, img) == Deleted <==> !marked && !live && !cloned)
  {
    assert HasChildren(c, img) <==> exists k :: k in c.parents && c.parents[k] == img;
    assert HasSnaps(c.snaps, img) <==> exists t :: t in c.snaps && t.0 == img;
  }

  lemma AnsweredIfSound(c: Cluster, img: string)
    ensures Sound(c) ==>
              && (Expected(c, img) == Kept <==> MetaGet(c, img, "bard.static") == "true")
              && (Expected(c, img) == HasSnapshots <==>
                    MetaGet(c, img, "bard.static") != "true" && exists t :: t in c.snaps && t.0 == img)
  {
    if Sound(c) { AnsweredIff(c, img); }
  }

  class Driver {
    const rbd: Runner
    var keys: set<string>
    var due: set<string>

    constructor (r: Runner)
      ensures rbd == r && keys == {} && due == {}
    {
      rbd, keys, due := r, {}, {};
    }

    function View(): State
      reads this, rbd
    {
      State(rbd.View(), keys, due)
    }

    /** Schedules a flatten of every clone; one already scheduled is not doubled. */
    method FlattenChildren(img: string)
      modifies this`due
      ensures due == old(due) + ChildrenOf(rbd.View(), img)
    {
      var kids := ChildrenOf(rbd.View(), img);
      var todo := kids;
      while todo != {}
        invariant todo <= kids && due == old(due) + (kids - todo)
        decreases |todo|
      {
        var k :| k in todo;
        due := due + {k};
        todo := todo - {k};
      }
    }

    method DeleteVolume(img: string) returns (out: Outcome)
      modifies this, rbd
      ensures out == Expected(old(rbd.View()), img)
      ensures View() == Effect(old(View()), img)
      ensures Sound(old(rbd.View())) ==>
                && (out == Kept <==> MetaGet(old(rbd.View()), img, "bard.static") == "true")
                && (out == HasSnapshots <==>
                      MetaGet(old(rbd.View()), img, "bard.static") != "true" && exists t ::
                          t in old(rbd.snaps) && t.0 == img)
                && (out == Deleted ==> img !in rbd.images)
                && (out != Deleted ==> rbd.View() == old(rbd.View()))
    {
      AnsweredIfSound(rbd.View(), img);
      if IsStatic(rbd.View(), img) { return Kept; }
      if HasStoredKey(rbd.View(), img) {
        if HasSnaps(rbd.snaps, img) { return HasSnapshots; }
        keys := keys - {img};
      }
      var r := rbd.RbdRm(img);
      match r
      case Removed => return Deleted;
      case NotFound => return Deleted;
      case LiveSnapshots => return HasSnapshots;
      case LinkedClones =>
        FlattenChildren(img);
        return Blocked;
    }

    /** Lands one scheduled flatten. */
    method Land(img: string)
      modifies this, rbd
      ensures rbd.View() == Flatten(old(rbd.View()), img) && due == old(due) - {img} && keys == old(keys)
    {
      rbd.RbdFlatten(img);
      due := due - {img};
    }
  }

  // ---- retries converge ----------------------------------------------------

  /** A retried delete, or a scheduled flatten landing; flattens of other images too. */
  datatype Event = Retry | Land(image: string)

  function Next(s: State, img: string, e: Event): State {
    match e
    case Retry => Effect(s, img)
    case Land(k) => s.(c := Flatten(s.c, k), due := s.due - {k})
  }

  function Run(s: State, img: string, events: seq<Event>): State
    decreases |events|
  {
    if events == [] then s else Run(Next(s, img, events[0]), img, events[1..])
  }

  function Landed(events: seq<Event>): set<string> { set e | e in events && e.Land? :: e.image }

  /** While the image is there, the landed flattens are all that has happened to the links. */
  ghost predicate Waiting(c0: Cluster, c: Cluster, img: string, landed: set<string>) {
    && Sound(c) && c.snaps == c0.snaps && c.images == c0.images && c.meta == c0.meta
    && c.parents == c0.parents - landed
    && !HasSnaps(c.snaps, img) && !IsStatic(c, img) && img in c.images
  }

  lemma DeletedIffFlattened(c0: Cluster, c: Cluster, img: string, landed: set<string>)
    requires Waiting(c0, c, img, landed)
    ensures Expected(c, img) == if ChildrenOf(c0, img) <= landed then Deleted else Blocked
  {
    if ChildrenOf(c0, img) <= landed {
      assert forall k | k in c.parents :: k !in ChildrenOf(c0, img) && c.parents[k] != img;
      assert !HasChildren(c, img);
    } else {
      var k :| k in ChildrenOf(c0, img) && k !in landed;
      assert k in c.parents && c.parents[k] == img;
      assert HasChildren(c, img);
    }
  }

  lemma LandWaits(c0: Cluster, c: Cluster, img: string, landed: set<string>, k: string)
    requires Waiting(c0, c, img, landed)
    ensures Waiting(c0, Flatten(c, k), img, landed + {k})
  {
    FlattenSound(c, k);
    assert c0.parents - landed - {k} == c0.parents - (landed + {k});
    assert k !in c.parents ==> c.parents == c.parents - {k};
  }

  /** A deleted image stays deleted, and its neighbours keep their sizes and snapshots. */
  ghost predicate Gone(c0: Cluster, c: Cluster, img: string) {
    c.images == c0.images - {img} && c.snaps == c0.snaps && c.meta == c0.meta
    && !HasSnaps(c.snaps, img) && !IsStatic(c, img)
  }

  lemma {:induction false} RunWaits(c0: Cluster, s: State, img: string, landed: set<string>, events: seq<Event>)
    requires Waiting(c0, s.c, img, landed) || (Gone(c0, s.c, img) && ChildrenOf(c0, img) <= landed)
    ensures var t := Run(s, img, events);
            || Waiting(c0, t.c, img, landed + Landed(events))
            || (Gone(c0, t.c, img) && ChildrenOf(c0, img) <= landed + Landed(events))
    decreases |events|
  {
    if events == [] {
      assert landed + Landed(events) == landed;
    } else {
      var now := if events[0].Land? then landed + {events[0].image} else landed;
      if Waiting(c0, s.c, img, landed) {
        if events[0].Land? {
          LandWaits(c0, s.c, img, landed, events[0].image);
        } else {
          DeletedIffFlattened(c0, s.c, img, landed);
        }
      }
      RunWaits(c0, Next(s, img, events[0]), img, now, events[1..]);
      assert events == [events[0]] + events[1..];
      assert now + Landed(events[1..]) == landed + Landed(events);
    }
  }

  /** What is scheduled: every clone whose flatten has not landed, and none whose flatten has. */
  ghost predicate Scheduled(c0: Cluster, due: set<string>, img: string, landed: set<string>) {
    ChildrenOf(c0, img) - landed <= due && due !! landed
  }

  lemma {:induction false} RunSchedules(c0: Cluster, s: State, img: string, landed: set<string>, events: seq<Event>)
    requires Waiting(c0, s.c, img, landed) || (Gone(c0, s.c, img) && ChildrenOf(c0, img) <= landed)
    requires Scheduled(c0, s.due, img, landed)
    ensures Scheduled(c0, Run(s, img, events).due, img, landed + Landed(events))
    decreases |events|
  {
    if events == [] {
      assert landed + Landed(events) == landed;
    } else {
      var now := if events[0].Land? then landed + {events[0].image} else landed;
      RunWaits(c0, s, img, landed, [events[0]]);
      assert Run(s, img, [events[0]]) == Run(Next(s, img, events[0]), img, [events[0]][1..]) == Next(s, img, events[0]);
      assert landed + Landed([events[0]]) == now;
      if Waiting(c0, s.c, img, landed) && events[0].Retry? { DeletedIffFlattened(c0, s.c, img, landed); }
      RunSchedules(c0, Next(s, img, events[0]), img, now, events[1..]);
      assert events == [events[0]] + events[1..];
      assert now + Landed(events[1..]) == landed + Landed(events);
    }
  }

  /** A delete blocked by linked clones schedules a flatten for each of them, and after any
      retries and landings, in any order, the next delete succeeds exactly when every one of
      those flattens has landed; until then the others stay scheduled. */
  lemma BlockedDeleteConverges(s: State, img: string, events: seq<Event>)
    requires Sound(s.c) && Expected(s.c, img).Blocked?
    ensures ChildrenOf(s.c, img) <= Effect(s, img).due
    ensures var t := Run(Effect(s, img), img, events);
            Expected(t.c, img) == if ChildrenOf(s.c, img) <= Landed(events) then Deleted else Blocked
    ensures var t := Effect(Run(Effect(s, img), img, events), img);
            ChildrenOf(s.c, img) <= Landed(events) ==>
              t.c.images == s.c.images - {img} && t.c.snaps == s.c.snaps && t.c.meta == s.c.meta
    ensures var t := Run(Effect(s, img), img, events);
            ChildrenOf(s.c, img) - Landed(events) <= t.due && t.due !! Landed(events)
  {
    var s1 := Effect(s, img);
    assert s.c.parents - {} == s.c.parents;
    assert Waiting(s.c, s1.c, img, {});
    RunWaits(s.c, s1, img, {}, events);
    RunSchedules(s.c, s1, img, {}, events);
    assert {} + Landed(events) == Landed(events);
    var t := Run(s1, img, events);
    if Waiting(s.c, t.c, img, Landed(events)) { DeletedIffFlattened(s.c, t.c, img, Landed(events)); }
  }

  /** A volume that cannot be deleted because of its snapshots is not altered, nor is a static
      one; a stored key is destroyed exactly when no live snapshot could need it, and the image
      goes exactly when no snapshot, live or trashed, holds it. No other image changes. */
  lemma RefusedUnaltered(s: State, img: string)
    requires Sound(s.c)
    ensures HasSnaps(s.c.snaps, img) || IsStatic(s.c, img) ==> Effect(s, img) == s
    ensures forall k | k in s.keys && k !in Effect(s, img).keys ::
            k == img && !HasSnaps(s.c.snaps, k) && !IsStatic(s.c, k)
    ensures img in s.keys ==> (img !in Effect(s, img).keys <==>
                MetaGet(s.c, img, "bard.encryptionKMSID") != "" && !IsStatic(s.c, img) && !HasSnaps(s.c.snaps, img))
    ensures img in s.c.images ==> (img !in Effect(s, img).c.images <==>
                !IsStatic(s.c, img) && !HasSnaps(s.c.snaps, img) && !HasSnaps(s.c.trashed, img))
    ensures var c := Effect(s, img).c;
            c.images - {img} == s.c.images - {img} && c.snaps == s.c.snaps && c.meta == s.c.meta
  {}

  /** Over any retries and landings, in any order, a static image answers `Kept` and one with live
      snapshots `HasSnapshots`, and no image, snapshot, metadata or key goes. */
  lemma {:induction false} RefusedForGood(s: State, img: string, events: seq<Event>)
    requires MetaGet(s.c, img, "bard.static") == "true" ||
             (HasSnaps(s.c.snaps, img) && (img in s.c.images || HasStoredKey(s.c, img)))
    ensures var t := Run(s, img, events);
            && Expected(t.c, img) == (if MetaGet(s.c, img, "bard.static") == "true" then Kept else HasSnapshots)
            && t.keys == s.keys && t.c.images == s.c.images && t.c.snaps == s.c.snaps && t.c.meta == s.c.meta
    decreases |events|
  {
    if events != [] { RefusedForGood(Next(s, img, events[0]), img, events[1..]); }
  }
}
