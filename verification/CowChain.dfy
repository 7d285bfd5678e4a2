/**
 The copy-on-write chain above a clone: the bounded depth walk, the decision to flatten, and
 what that decision keeps over every sequence of restores, flattens, deletes and trash moves.
 */
module CowChain {
  import opened Rbd

  /** What the walk can see: parent links, the images in the rbd trash (a layer, but one that
      cannot be opened by name), and the images whose `info` fails. */
  datatype Ancestry = Ancestry(parents: map<string, string>, trash: set<string>, unreadable: set<string>)

  /** The walk gives up after this many layers. */
  const WALK_BOUND := 65

  datatype Walk = Walk(depth: nat, exact: bool, failed: bool)

  /** The walk, layer by layer. */
  method CloneDepth(a: Ancestry, x: string) returns (w: Walk)
    ensures w == Walked(a, x, 0)
  {
    var depth, cur := 0, x;
    while depth < WALK_BOUND
      invariant depth <= WALK_BOUND && Walked(a, cur, depth) == Walked(a, x, 0)
    {
      if cur in a.unreadable { return Walk(depth, false, true); }
      if cur !in a.parents { return Walk(depth, true, false); }
      depth := depth + 1;
      if a.parents[cur] in a.trash { return Walk(depth, false, false); }
      cur := a.parents[cur];
    }
    return Walk(depth, true, false);
  }

  /** The rest of a walk that stands at `x` after `done` layers. */
  function Walked(a: Ancestry, x: string, done: nat): Walk
    requires done <= WALK_BOUND
    decreases WALK_BOUND - done
  {
    if done == WALK_BOUND then Walk(done, true, false)
    else if x in a.unreadable then Walk(done, false, true)
    else if x !in a.parents then Walk(done, true, false)
    else if a.parents[x] in a.trash then Walk(done + 1, false, false)
    else Walked(a, a.parents[x], done + 1)
  }

  /** Flatten unless the chain is known to be short; a non-clone has nothing to flatten. */
  predicate Flattens(limit: int, w: Walk) {
    limit > 0 && !(!w.failed && w.exact && w.depth < limit) && !(!w.failed && w.depth == 0)
  }

  method FlattenIfDeep(r: Runner, limit: int, x: string, trash: set<string>, unreadable: set<string>)
    modifies r
    ensures r.View() == if Flattens(limit, Walked(Ancestry(old(r.parents), trash, unreadable), x, 0))
                        then Flatten(old(r.View()), x) else old(r.View())
  {
    if limit <= 0 { return; }
    var w := CloneDepth(Ancestry(r.parents, trash, unreadable), x);
    if !w.failed && w.exact && w.depth < limit { return; }
    if !w.failed && w.depth == 0 { return; }
    r.RbdFlatten(x);
  }

  // ---- the decision against the true depth ---------------------------------

  /** `x` has exactly `n` layers above it. */
  ghost predicate Chain(parents: map<string, string>, x: string, n: nat)
    decreases n
  {
    if n == 0 then x !in parents else x in parents && Chain(parents, parents[x], n - 1)
  }

  /** Some layer of the chain hides what is above it. */
  ghost predicate Obscured(a: Ancestry, x: string, n: nat)
    requires Chain(a.parents, x, n)
    decreases n
  {
    x in a.unreadable || (n > 0 && (a.parents[x] in a.trash || Obscured(a, a.parents[x], n - 1)))
  }

  /** Within the bound the walk is exact; an obscured chain is seen as obscured or as deep. */
  lemma {:induction false} WalkMeasures(a: Ancestry, x: string, n: nat, done: nat)
    requires Chain(a.parents, x, n) && done <= WALK_BOUND
    ensures var w := Walked(a, x, done);
            if Obscured(a, x, n) then w.failed || (!w.exact && w.depth > 0) || w.depth == WALK_BOUND
            else w == Walk(if done + n < WALK_BOUND then done + n else WALK_BOUND, true, false)
    decreases n
  {
    if n > 0 && done < WALK_BOUND && x !in a.unreadable && a.parents[x] !in a.trash {
      WalkMeasures(a, a.parents[x], n - 1, done + 1);
    }
  }

  /** `y` is `m` layers above `x`, with every layer below it readable and none of them, nor `y`, in the
      trash. */
  ghost predicate Clear(a: Ancestry, x: string, m: nat, y: string)
    decreases m
  {
    if m == 0 then x == y
    else x !in a.unreadable && x in a.parents && a.parents[x] !in a.trash && Clear(a, a.parents[x], m - 1, y)
  }

  /** What the walk answers, by the layer that ends it: the depth of the top, an error where an image
      cannot be read, one more layer and not exact where a parent is in the trash, and 65 beyond. */
  lemma {:induction false} WalkEndsAt(a: Ancestry, x: string, m: nat, y: string, done: nat)
    requires Clear(a, x, m, y) && done <= 65
    requires y in a.unreadable || y !in a.parents || a.parents[y] in a.trash || done + m >= 65
    ensures Walked(a, x, done) == if done + m >= 65 then Walk(65, true, false)
                                  else if y in a.unreadable then Walk(done + m, false, true)
                                  else if y !in a.parents then Walk(done + m, true, false)
                                  else Walk(done + m + 1, false, false)
    decreases m
  {
    if m > 0 && done < 65 { WalkEndsAt(a, a.parents[x], m - 1, y, done + 1); }
  }

  /** A clone is flattened exactly when its true depth reaches the limit or cannot be known, and never
      if the limit is switched off. */
  lemma FlattensExactly(a: Ancestry, x: string, n: nat, limit: int)
    requires Chain(a.parents, x, n) && limit <= 65
    ensures Flattens(limit, Walked(a, x, 0)) <==> limit > 0 && (n >= limit || Obscured(a, x, n))
  {
    WalkMeasures(a, x, n, 0);
  }

  /** A limit above the bound is never reached by an exact walk. */
  lemma HighLimitNeverFlattens(a: Ancestry, x: string, n: nat, limit: int)
    requires Chain(a.parents, x, n) && !Obscured(a, x, n) && limit > 65
    ensures !Flattens(limit, Walked(a, x, 0))
  {
    WalkMeasures(a, x, n, 0);
  }

  ghost predicate Decides(limit: int) {
    forall a: Ancestry, x: string, n: nat | Chain(a.parents, x, n) ::
      Flattens(limit, Walked(a, x, 0)) <==> n >= limit || Obscured(a, x, n)
  }

  /** The decision matches the true depth on every chain if and only if the configured limit
      is within the walk's bound. */
  lemma DecidesIff(limit: int)
    requires limit > 0
    ensures Decides(limit) <==> limit <= 65
  {
    if limit <= WALK_BOUND {
      forall a: Ancestry, x: string, n: nat | Chain(a.parents, x, n)
        ensures Flattens(limit, Walked(a, x, 0)) <==> n >= limit || Obscured(a, x, n)
      {
        FlattensExactly(a, x, n, limit);
      }
    } else {
      var a := Ancestry(Tower(limit), {}, {});
      TowerChain(limit, limit);
      NeverObscured(a, Unary(0), limit);
      HighLimitNeverFlattens(a, Unary(0), limit, limit);
    }
  }

  lemma {:induction false} NeverObscured(a: Ancestry, x: string, n: nat)
    requires Chain(a.parents, x, n) && a.trash == {} && a.unreadable == {}
    ensures !Obscured(a, x, n)
    decreases n
  {
    if n > 0 { NeverObscured(a, a.parents[x], n - 1); }
  }

  function Unary(i: nat): string { seq(i, _ => 'p') }

  /** A chain of `n` clones, each of the next. */
  function Tower(n: nat): map<string, string> {
    map s: string | s in (set i: nat | i < n :: Unary(i)) :: Unary(|s| + 1)
  }

  lemma {:induction false} TowerChain(n: nat, k: nat)
    requires k <= n
    ensures Chain(Tower(n), Unary(n - k), k)
    decreases k
  {
    assert |Unary(n - k)| == n - k;
    if k == 0 {
      forall i: nat | i < n ensures Unary(i) != Unary(n) { assert |Unary(i)| != |Unary(n)|; }
    } else {
      assert n - k < n && Unary(n - k) in Tower(n);
      TowerChain(n, k - 1);
    }
  }

  // ---- bounded chains over whole runs --------------------------------------

  /** `x` has at most `k` layers above it. */
  ghost predicate Shallow(parents: map<string, string>, x: string, k: int)
    decreases if k > 0 then k else 0
  {
    x !in parents || (k > 0 && Shallow(parents, parents[x], k - 1))
  }

  /** `pending` are the clones whose scheduled flatten has not finished; `short` those of them
      whose walk decided against flattening. */
  datatype State = State(c: Cluster, trash: set<string>, pending: set<string>, short: set<string>)

  datatype Op =
    | Create(image: string, size: nat)
    | TakeSnapshot(s: SnapId)
    | DropSnapshot(s: SnapId)
    | Restore(parent: string, snap: string, child: string)
    | Measure(image: string, unreadable: set<string>)
    | Settle(image: string)
    | FlattenNow(image: string)
    | Delete(image: string)
    | MoveToTrash(image: string)

  predicate Enabled(s: State, op: Op) {
    match op
    case Create(x, _) => x !in s.c.images
    case TakeSnapshot(t) => t.0 in s.c.images && t.0 !in s.trash
    case DropSnapshot(t) => t.0 !in s.trash
    case Restore(p, snap, x) => (p, snap) in s.c.snaps && p !in s.trash && x !in s.c.images
    case Measure(x, _) => x in s.pending
    case Settle(x) => x in s.pending
    case FlattenNow(x) => x in s.c.images
    case Delete(x) => x !in s.trash
    case MoveToTrash(x) => x in s.c.images
  }

  /** The configured limit decides; a restore may start from a clone that is itself pending. */
  function Next(limit: int, s: State, op: Op): State {
    match op
    case Create(x, size) => s.(c := CreateImage(s.c, x, size))
    case TakeSnapshot(t) => s.(c := SnapCreate(s.c, t))
    case DropSnapshot(t) => s.(c := SnapRm(s.c, t))
    case Restore(p, _, x) => s.(c := Clone(s.c, p, x), pending := s.pending + {x}, short := s.short - {x})
    case Measure(x, unreadable) =>
      if Flattens(limit, Walked(Ancestry(s.c.parents, s.trash, unreadable), x, 0)) then s.(short := s.short - {x})
      else s.(short := s.short + {x})
    case Settle(x) =>
      s.(c := if x in s.short then s.c else Flatten(s.c, x), pending := s.pending - {x}, short := s.short - {x})
    case FlattenNow(x) => s.(c := Flatten(s.c, x))
    case Delete(x) => s.(c := Rm(s.c, x))
    case MoveToTrash(x) => s.(trash := s.trash + {x})
  }

  /** A scheduled flatten that is not interrupted cuts the clone's link exactly if its true depth
      reaches the limit or cannot be known, and is then no longer due. */
  lemma BackgroundFlatten(limit: int, s: State, x: string, unreadable: set<string>, n: nat)
    requires x in s.pending && Chain(s.c.parents, x, n) && 0 < limit <= 65
    ensures var t := Next(limit, Next(limit, s, Measure(x, unreadable)), Settle(x));
            && t.pending == s.pending - {x} && t.trash == s.trash
            && t.c == if n >= limit || Obscured(Ancestry(s.c.parents, s.trash, unreadable), x, n)
                      then Flatten(s.c, x) else s.c
  {
    FlattensExactly(Ancestry(s.c.parents, s.trash, unreadable), x, n, limit);
  }

  /** A clone whose parent is moved to the trash before its flatten is decided is cut loose, whatever
      its depth. */
  lemma TrashedParentFlattens(limit: int, s: State, x: string, unreadable: set<string>, n: nat)
    requires x in s.pending && Chain(s.c.parents, x, n) && 0 < limit <= 65 && x in s.c.parents
    ensures var s1 := Next(limit, s, MoveToTrash(s.c.parents[x]));
            Next(limit, Next(limit, s1, Measure(x, unreadable)), Settle(x)).c == Flatten(s.c, x)
  {
    BackgroundFlatten(limit, Next(limit, s, MoveToTrash(s.c.parents[x])), x, unreadable, n);
  }

  /** No link dangles, links are acyclic, and every settled image is below the limit. */
  ghost predicate Inv(limit: int, s: State) {
    && Sound(s.c)
    && (forall x | x in s.c.images :: Grounded(s.c.parents, x))
    && (forall x | x in s.c.images && (x !in s.pending || x in s.short) :: Shallow(s.c.parents, x, limit - 1))
  }

  ghost predicate Grounded(parents: map<string, string>, x: string) { exists n: nat :: Chain(parents, x, n) }

  lemma {:induction false} ChainShallow(parents: map<string, string>, x: string, n: nat, k: int)
    requires Chain(parents, x, n)
    ensures Shallow(parents, x, k) <==> n == 0 || n <= k
    decreases n
  {
    if n > 0 && k > 0 { ChainShallow(parents, parents[x], n - 1, k - 1); }
  }

  /** Cutting any link leaves every chain at most as long. */
  lemma {:induction false} CutShortens(parents: map<string, string>, y: string, x: string, n: nat) returns (m: nat)
    requires Chain(parents, x, n)
    ensures m <= n && Chain(parents - {y}, x, m)
    decreases n
  {
    if n == 0 || x == y {
      m := 0;
    } else {
      var m0 := CutShortens(parents, y, parents[x], n - 1);
      m := m0 + 1;
    }
  }

  /** A new leaf is on no chain but its own. */
  lemma {:induction false} LeafApart(parents: map<string, string>, leaf: string, p: string, x: string, n: nat)
    requires Chain(parents, x, n) && x != leaf
    requires forall k | k in parents :: parents[k] != leaf
    ensures Chain(parents[leaf := p], x, n)
    decreases n
  {
    if n > 0 { LeafApart(parents, leaf, p, parents[x], n - 1); }
  }

  lemma CutKeeps(parents: map<string, string>, y: string, x: string, k: int)
    requires Grounded(parents, x)
    ensures Grounded(parents - {y}, x)
    ensures Shallow(parents, x, k) ==> Shallow(parents - {y}, x, k)
    ensures k >= 0 && x == y ==> Shallow(parents - {y}, x, k)
  {
    var n :| Chain(parents, x, n);
    var m := CutShortens(parents, y, x, n);
    ChainShallow(parents, x, n, k);
    ChainShallow(parents - {y}, x, m, k);
  }

  lemma FlattenKeeps(c: Cluster, y: string, x: string, k: int)
    requires Grounded(c.parents, x) && k >= 0
    ensures Grounded(Flatten(c, y).parents, x)
    ensures Shallow(c.parents, x, k) || x == y ==> Shallow(Flatten(c, y).parents, x, k)
  {
    CutKeeps(c.parents, y, x, k);
    assert y !in c.parents ==> c.parents - {y} == c.parents;
  }

  lemma RestoreKeeps(limit: int, s: State, p: string, snap: string, child: string)
    requires limit > 0 && Inv(limit, s) && Enabled(s, Restore(p, snap, child))
    ensures Inv(limit, Next(limit, s, Restore(p, snap, child)))
  {
    var t := Next(limit, s, Restore(p, snap, child));
    CloneSound(s.c, p, snap, child);
    forall x | x in t.c.images
      ensures Grounded(t.c.parents, x)
      ensures x !in t.pending || x in t.short ==> Shallow(t.c.parents, x, limit - 1)
    {
      var y := if x == child then p else x;
      var n: nat :| Chain(s.c.parents, y, n);
      LeafApart(s.c.parents, child, p, y, n);
      if x == child {
        assert Chain(t.c.parents, x, n + 1);
      } else {
        ChainShallow(s.c.parents, x, n, limit - 1);
        ChainShallow(t.c.parents, x, n, limit - 1);
      }
    }
  }

  lemma FlattenStepKeeps(limit: int, s: State, y: string, t: State)
    requires limit > 0 && Inv(limit, s) && t.c == Flatten(s.c, y)
    requires forall x | x in s.c.images && (x !in t.pending || x in t.short) ::
             x == y || x !in s.pending || x in s.short
    ensures Inv(limit, t)
  {
    FlattenSound(s.c, y);
    forall x | x in t.c.images
      ensures Grounded(t.c.parents, x)
      ensures x !in t.pending || x in t.short ==> Shallow(t.c.parents, x, limit - 1)
    {
      FlattenKeeps(s.c, y, x, limit - 1);
    }
  }

  lemma DeleteKeeps(limit: int, s: State, y: string)
    requires limit > 0 && Inv(limit, s)
    ensures Inv(limit, Next(limit, s, Delete(y)))
  {
    var t := Next(limit, s, Delete(y));
    RmSound(s.c, y);
    if RmOutcome(s.c, y) == Removed {
      assert t.c.parents == s.c.parents - {y};
      forall x | x in t.c.images
        ensures Grounded(t.c.parents, x)
        ensures x !in t.pending || x in t.short ==> Shallow(t.c.parents, x, limit - 1)
      {
        CutKeeps(s.c.parents, y, x, limit - 1);
      }
    }
  }

  lemma MeasureKeeps(limit: int, s: State, y: string, unreadable: set<string>)
    requires 0 < limit <= WALK_BOUND && Inv(limit, s)
    ensures Inv(limit, Next(limit, s, Measure(y, unreadable)))
  {
    var a := Ancestry(s.c.parents, s.trash, unreadable);
    if y in s.c.images && !Flattens(limit, Walked(a, y, 0)) {
      var n :| Chain(s.c.parents, y, n);
      FlattensExactly(a, y, n, limit);
      ChainShallow(s.c.parents, y, n, limit - 1);
    }
  }

  lemma StepKeeps(limit: int, s: State, op: Op)
    requires 0 < limit <= WALK_BOUND && Inv(limit, s) && Enabled(s, op)
    ensures Inv(limit, Next(limit, s, op))
  {
    match op
    case Create(x, size) =>
      CreateSound(s.c, x, size);
      assert Chain(s.c.parents, x, 0);
    case TakeSnapshot(t) => SnapCreateSound(s.c, t);
    case DropSnapshot(t) => SnapRmSound(s.c, t);
    case Restore(p, snap, x) => RestoreKeeps(limit, s, p, snap, x);
    case Measure(x, unreadable) => MeasureKeeps(limit, s, x, unreadable);
    case Settle(x) => if x !in s.short { FlattenStepKeeps(limit, s, x, Next(limit, s, op)); }
    case FlattenNow(x) => FlattenStepKeeps(limit, s, x, Next(limit, s, op));
    case Delete(x) => DeleteKeeps(limit, s, x);
    case MoveToTrash(x) =>
  }

  function Exec(limit: int, s: State, ops: seq<Op>): State
    decreases |ops|
  {
    if ops == [] then s else Exec(limit, Next(limit, s, ops[0]), ops[1..])
  }

  predicate AllEnabled(limit: int, s: State, ops: seq<Op>)
    decreases |ops|
  {
    ops == [] || (Enabled(s, ops[0]) && AllEnabled(limit, Next(limit, s, ops[0]), ops[1..]))
  }

  lemma {:induction false} RunKeeps(limit: int, s: State, ops: seq<Op>)
    requires 0 < limit <= WALK_BOUND && Inv(limit, s) && AllEnabled(limit, s, ops)
    ensures Inv(limit, Exec(limit, s, ops))
    decreases |ops|
  {
    if ops != [] {
      StepKeeps(limit, s, ops[0]);
      RunKeeps(limit, Next(limit, s, ops[0]), ops[1..]);
    }
  }

  /** How many of the first `n` images of a chain still await their flatten. */
  ghost function Awaiting(s: State, x: string, n: nat): nat
    requires Chain(s.c.parents, x, n)
    decreases n
  {
    if n == 0 || x !in s.pending then 0 else 1 + Awaiting(s, s.c.parents[x], n - 1)
  }

  lemma {:induction false} DepthBound(limit: int, s: State, x: string, n: nat)
    requires limit > 0 && Inv(limit, s) && x in s.c.images && Chain(s.c.parents, x, n)
    ensures n <= limit - 1 + Awaiting(s, x, n)
    decreases n
  {
    if n > 0 {
      if x !in s.pending {
        ChainShallow(s.c.parents, x, n, limit - 1);
      } else {
        DepthBound(limit, s, s.c.parents[x], n - 1);
      }
    }
  }

  /** In every reachable state an image's chain is shorter than the limit, but for the clones
      directly below it on that chain whose flatten is still due; and it never ends in a
      missing parent. */
  lemma ChainsStayBounded(limit: int, ops: seq<Op>, x: string) returns (n: nat)
    requires 0 < limit <= WALK_BOUND
    requires AllEnabled(limit, State(EMPTY, {}, {}, {}), ops)
    requires x in Exec(limit, State(EMPTY, {}, {}, {}), ops).c.images
    ensures var s := Exec(limit, State(EMPTY, {}, {}, {}), ops);
            && Chain(s.c.parents, x, n)
            && n < limit + Awaiting(s, x, n)
            && (x !in s.pending ==> n < limit)
            && (x in s.c.parents ==> s.c.parents[x] in s.c.images)
  {
    var s0 := State(EMPTY, {}, {}, {});
    RunKeeps(limit, s0, ops);
    var s := Exec(limit, s0, ops);
    n :| Chain(s.c.parents, x, n);
    DepthBound(limit, s, x, n);
  }
}
