/**
 targetd exports: the LUN allocator that grants and revokes access for initiators, the mutex
 that makes each of its calls one step, and what every run of calls keeps.
 */
module LunAllocator {
  import opened Options

  datatype Export = Export(pool: string, vol: string, initiator: string, lun: nat)

  // ---- the calls as functions ----------------------------------------------

  /** The export the idempotence test finds: the first of this name to this initiator. */
  function Existing(es: seq<Export>, vol: string, initiator: string): Option<nat> {
    if es == [] then None
    else if es[0].initiator == initiator && es[0].vol == vol then Some(es[0].lun)
    else Existing(es[1..], vol, initiator)
  }

  function Used(es: seq<Export>, initiator: string): set<nat> {
    set e | e in es && e.initiator == initiator :: e.lun
  }

  ghost predicate LowestFree(used: set<nat>, lun: nat) { lun !in used && forall k: nat | k < lun :: k in used }

  /** `lun` is what granting `vol` answers and `after` the exports it leaves. */
  ghost predicate Grants(es: seq<Export>, pool: string, vol: string, initiator: string, lun: nat, after: seq<Export>) {
    match Existing(es, vol, initiator)
    case Some(l) => lun == l && after == es
    case None => LowestFree(Used(es, initiator), lun) && after == es + [Export(pool, vol, initiator, lun)]
  }

  /** The exports without those of the volume to any of `initiators`. */
  function Without(es: seq<Export>, pool: string, vol: string, initiators: set<string>): seq<Export> {
    if es == [] then []
    else if es[0].pool == pool && es[0].vol == vol && es[0].initiator in initiators
        then Without(es[1..], pool, vol, initiators)
    else [es[0]] + Without(es[1..], pool, vol, initiators)
  }

  // ---- the calls as the manager makes them ---------------------------------

  /** The lowest number that is not in use; it cannot exceed how many are. */
  method LowestUnused(used: set<nat>) returns (lun: nat)
    ensures LowestFree(used, lun) && lun <= |used|
  {
    lun := 0;
    ghost var below: set<nat> := {};
    while lun in used
      invariant (forall k: nat :: k in below <==> k < lun) && |below| == lun
      invariant below <= used && lun <= |used|
      decreases |used| - lun
    {
      SubsetSize(below + {lun}, used);
      below := below + {lun};
      lun := lun + 1;
    }
  }

  lemma SubsetSize(a: set<nat>, b: set<nat>)
    requires a <= b
    ensures |a| <= |b|
  {
    assert b == a + (b - a);
  }

  /** A volume of one pool. */
  datatype Volume = Volume(pool: string, name: string)

  /** What vol_destroy answers. */
  datatype Destroyed = Done | NotFound | InUse

  class Target {
    var exports: seq<Export>
    var volumes: set<Volume>

    constructor ()
      ensures exports == [] && volumes == {}
    {
      exports, volumes := [], {};
    }

    method GrantAccess(pool: string, vol: string, initiator: string) returns (lun: nat)
      modifies this`exports
      ensures Grants(old(exports), pool, vol, initiator, lun, exports)
    {
      var used: set<nat> := {};
      var i := 0;
      while i < |exports|
        invariant i <= |exports| && exports == old(exports)
        invariant used == Used(exports[..i], initiator)
        invariant Existing(exports[i..], vol, initiator) == Existing(exports, vol, initiator)
      {
        var e := exports[i];
        assert exports[i..][0] == e && exports[i..][1..] == exports[i + 1..] && exports[..i + 1] == exports[..i] + [e];
        if e.initiator == initiator {
          if e.vol == vol { return e.lun; }
          used := used + {e.lun};
        }
        i := i + 1;
      }
      assert exports[..i] == exports;
      lun := LowestUnused(used);
      exports := exports + [Export(pool, vol, initiator, lun)];
    }

    /** export_destroy keeps every other export, in order; one that is already gone is success. */
    method RevokeAccess(pool: string, vol: string, initiator: string)
      modifies this`exports
      ensures exports == Without(old(exports), pool, vol, {initiator})
      ensures forall e :: e in exports <==>
              e in old(exports) && !(e.pool == pool && e.vol == vol && e.initiator == initiator)
    {
      var kept, i := [], 0;
      while i < |exports|
        invariant i <= |exports| && exports == old(exports)
        invariant kept + Without(exports[i..], pool, vol, {initiator}) == Without(exports, pool, vol, {initiator})
      {
        var e := exports[i];
        assert exports[i..][0] == e && exports[i..][1..] == exports[i + 1..];
        if !(e.pool == pool && e.vol == vol && e.initiator == initiator) { kept := kept + [e]; }
        i := i + 1;
      }
      forall e { WithoutIff(exports, pool, vol, {initiator}, e); }
      exports := kept;
    }

    /** vol_destroy: targetd refuses a volume that is still exported. */
    method VolDestroy(pool: string, vol: string) returns (answer: Destroyed)
      modifies this`volumes
      ensures answer.InUse? <==> exists e :: e in exports && e.pool == pool && e.vol == vol
      ensures answer.NotFound? ==> Volume(pool, vol) !in old(volumes)
      ensures volumes == if answer.InUse? then old(volumes) else old(volumes) - {Volume(pool, vol)}
    {
      var i := 0;
      while i < |exports|
        invariant i <= |exports| && forall k | 0 <= k < i :: !(exports[k].pool == pool && exports[k].vol == vol)
      {
        if exports[i].pool == pool && exports[i].vol == vol { return InUse; }
        i := i + 1;
      }
      if Volume(pool, vol) !in volumes { return NotFound; }
      volumes := volumes - {Volume(pool, vol)};
      return Done;
    }

    /** Revokes, one by one, every listed export that has the volume's name, then destroys the
        volume; one that is already gone is success. */
    method DeleteVolume(pool: string, vol: string) returns (ok: bool)
      modifies this
      ensures ok && exports == Without(old(exports), pool, vol, Initiators(old(exports)))
      ensures volumes == old(volumes) - {Volume(pool, vol)}
    {
      hide Without;
      var listed := exports;
      ghost var gone: set<string> := {};
      var i := 0;
      WithoutNobody(exports, pool, vol);
      while i < |listed|
        invariant i <= |listed| && exports == Without(listed, pool, vol, gone) && volumes == old(volumes)
        invariant gone <= Initiators(listed)
        invariant forall k | 0 <= k < i && listed[k].vol == vol :: listed[k].initiator in gone
      {
        if listed[i].vol == vol {
          WithoutTwice(listed, pool, vol, gone, {listed[i].initiator});
          RevokeAccess(pool, vol, listed[i].initiator);
          gone := gone + {listed[i].initiator};
        }
        i := i + 1;
      }
      AllGone(listed, pool, vol, gone);
      forall e { DeleteClears(listed, pool, vol, e); }
      var answer := VolDestroy(pool, vol);
      ok := !answer.InUse?;
    }
  }

  function Initiators(es: seq<Export>): set<string> { set e | e in es :: e.initiator }

  lemma {:induction false} WithoutNobody(es: seq<Export>, pool: string, vol: string)
    ensures Without(es, pool, vol, {}) == es
  {
    if es != [] { WithoutNobody(es[1..], pool, vol); }
  }

  lemma {:induction false} WithoutTwice(es: seq<Export>, pool: string, vol: string, a: set<string>, b: set<string>)
    ensures Without(Without(es, pool, vol, a), pool, vol, b) == Without(es, pool, vol, a + b)
  {
    if es != [] { WithoutTwice(es[1..], pool, vol, a, b); }
  }

  lemma {:induction false} WithoutSame(es: seq<Export>, pool: string, vol: string, a: set<string>, b: set<string>)
    requires forall e | e in es && e.pool == pool && e.vol == vol :: e.initiator in a <==> e.initiator in b
    ensures Without(es, pool, vol, a) == Without(es, pool, vol, b)
  {
    if es != [] { WithoutSame(es[1..], pool, vol, a, b); }
  }

  lemma AllGone(es: seq<Export>, pool: string, vol: string, gone: set<string>)
    requires gone <= Initiators(es) && forall k | 0 <= k < |es| && es[k].vol == vol :: es[k].initiator in gone
    ensures Without(es, pool, vol, gone) == Without(es, pool, vol, Initiators(es))
  {
    hide Without;
    assert forall e | e in es && e.vol == vol :: e.initiator in gone;
    WithoutSame(es, pool, vol, gone, Initiators(es));
  }

  lemma {:induction false} WithoutIff(es: seq<Export>, pool: string, vol: string, initiators: set<string>, e: Export)
    ensures e in Without(es, pool, vol, initiators) <==>
            e in es && !(e.pool == pool && e.vol == vol && e.initiator in initiators)
  {
    if es != [] {
      WithoutIff(es[1..], pool, vol, initiators, e);
      assert es == [es[0]] + es[1..];
    }
  }

  /** After a delete the volume has no export, and every other export is as it was. */
  lemma DeleteClears(es: seq<Export>, pool: string, vol: string, e: Export)
    ensures e in Without(es, pool, vol, Initiators(es)) <==> e in es && !(e.pool == pool && e.vol == vol)
  {
    WithoutIff(es, pool, vol, Initiators(es), e);
  }

  // ---- what every run of calls keeps ---------------------------------------

  /** No initiator sees two exports on one LUN, nor one volume name twice. */
  ghost predicate Inv(es: seq<Export>) {
    forall i, j | 0 <= i < j < |es| && es[i].initiator == es[j].initiator ::
        es[i].lun != es[j].lun && es[i].vol != es[j].vol
  }

  lemma {:induction false} ExistingIff(es: seq<Export>, vol: string, initiator: string)
    ensures Existing(es, vol, initiator).None? <==> forall e | e in es :: !(e.initiator == initiator && e.vol == vol)
    ensures Existing(es, vol, initiator).Some? ==>
              exists e ::
                  e in es && e.initiator == initiator && e.vol == vol && e.lun == Existing(es, vol, initiator).value
  {
    if es != [] {
      ExistingIff(es[1..], vol, initiator);
      assert es == [es[0]] + es[1..];
      if es[0].initiator == initiator && es[0].vol == vol { assert es[0] in es; }
    }
  }

  lemma GrantKeeps(es: seq<Export>, pool: string, vol: string, initiator: string, lun: nat, after: seq<Export>)
    requires Inv(es) && Grants(es, pool, vol, initiator, lun, after)
    ensures Inv(after)
  {
    ExistingIff(es, vol, initiator);
    forall i | 0 <= i < |es| && es[i].initiator == initiator && Existing(es, vol, initiator).None?
      ensures es[i].lun != lun && es[i].vol != vol
    {
      assert es[i] in es && es[i].lun in Used(es, initiator);
    }
  }

  lemma {:induction false} RevokeKeeps(es: seq<Export>, pool: string, vol: string, initiators: set<string>)
    requires Inv(es)
    ensures Inv(Without(es, pool, vol, initiators))
  {
    if es != [] {
      RevokeKeeps(es[1..], pool, vol, initiators);
      var rest := Without(es[1..], pool, vol, initiators);
      forall j | 0 <= j < |rest| && rest[j].initiator == es[0].initiator
        ensures es[0].lun != rest[j].lun && es[0].vol != rest[j].vol
      {
        WithoutIff(es[1..], pool, vol, initiators, rest[j]);
        var k :| 0 <= k < |es[1..]| && es[1..][k] == rest[j];
        assert es[k + 1] == rest[j];
      }
    }
  }

  /** Under the invariant the first export of a name is the only one. */
  lemma ExistingIs(es: seq<Export>, e: Export)
    requires Inv(es) && e in es
    ensures Existing(es, e.vol, e.initiator) == Some(e.lun)
  {
    ExistingIff(es, e.vol, e.initiator);
    var d :| d in es && d.initiator == e.initiator && d.vol == e.vol && d.lun == Existing(es, e.vol, e.initiator).value;
    var i :| 0 <= i < |es| && es[i] == d;
    var j :| 0 <= j < |es| && es[j] == e;
    assert i == j;
  }

  /** A new LUN is at most the number of the initiator's other exports. */
  lemma NewLunBounded(es: seq<Export>, pool: string, vol: string, initiator: string, lun: nat, after: seq<Export>)
    requires Grants(es, pool, vol, initiator, lun, after) && Existing(es, vol, initiator).None?
    ensures lun <= CountOf(es, initiator)
  {
    UsedSize(es, initiator);
    InitialSegment(Used(es, initiator), lun);
  }

  function CountOf(es: seq<Export>, initiator: string): nat {
    if es == [] then 0 else (if es[0].initiator == initiator then 1 else 0) + CountOf(es[1..], initiator)
  }

  lemma {:induction false} UsedSize(es: seq<Export>, initiator: string)
    ensures |Used(es, initiator)| <= CountOf(es, initiator)
  {
    if es != [] {
      UsedSize(es[1..], initiator);
      assert es == [es[0]] + es[1..];
      assert Used(es, initiator) == (if es[0].initiator == initiator then {es[0].lun} else {}) +
             Used(es[1..], initiator);
    }
  }

  lemma {:induction false} InitialSegment(used: set<nat>, n: nat)
    requires forall k: nat | k < n :: k in used
    ensures n <= |used|
  {
    if n > 0 { InitialSegment(used - {n - 1}, n - 1); }
  }

  // ---- runs ----------------------------------------------------------------

  datatype Call = Grant(pool: string, vol: string, initiator: string)
    | Revoke(pool: string, vol: string, initiator: string)

  /** One call, atomically: the exports after it and the LUN it answers. */
  ghost predicate Does(es: seq<Export>, call: Call, lun: nat, after: seq<Export>) {
    match call
    case Grant(pool, vol, initiator) => Grants(es, pool, vol, initiator, lun, after)
    case Revoke(pool, vol, initiator) => after == Without(es, pool, vol, {initiator})
  }

  /** `trace` are the states of a run of `calls`. */
  ghost predicate Behaves(trace: seq<seq<Export>>, calls: seq<Call>, luns: seq<nat>) {
    |trace| == |calls| + 1 && |luns| == |calls|
        && forall i | 0 <= i < |calls| :: Does(trace[i], calls[i], luns[i], trace[i + 1])
  }

  lemma {:induction false} RunKeeps(trace: seq<seq<Export>>, calls: seq<Call>, luns: seq<nat>, k: nat)
    requires Behaves(trace, calls, luns) && Inv(trace[0]) && k < |trace|
    ensures Inv(trace[k])
    decreases k
  {
    if k > 0 {
      RunKeeps(trace, calls, luns, k - 1);
      match calls[k - 1]
      case Grant(pool, vol, initiator) => GrantKeeps(trace[k - 1], pool, vol, initiator, luns[k - 1], trace[k]);
      case Revoke(pool, vol, initiator) => RevokeKeeps(trace[k - 1], pool, vol, {initiator});
    }
  }

  lemma {:induction false} ExportStays(trace: seq<seq<Export>>, calls: seq<Call>, luns: seq<nat>, i: nat, k: nat,
      e: Export)
    requires Behaves(trace, calls, luns) && i <= k < |trace| && e in trace[i]
    requires Revoke(e.pool, e.vol, e.initiator) !in calls[i..k]
    ensures e in trace[k]
    decreases k - i
  {
    if i < k {
      assert calls[i..k][0] == calls[i] && calls[i..k][1..] == calls[i + 1..k];
      assert Does(trace[i], calls[i], luns[i], trace[i + 1]);
      if calls[i].Revoke? { WithoutIff(trace[i], calls[i].pool, calls[i].vol, {calls[i].initiator}, e); }
      ExportStays(trace, calls, luns, i + 1, k, e);
    }
  }

  /** Granting again, whatever happened in between, answers the same LUN until it is revoked. */
  lemma SameLunUntilRevoked(trace: seq<seq<Export>>, calls: seq<Call>, luns: seq<nat>, i: nat, k: nat, pool: string)
    requires Behaves(trace, calls, luns) && Inv(trace[0])
    requires i < k < |calls| && calls[i].Grant? && calls[k].Grant?
    requires calls[k].vol == calls[i].vol && calls[k].initiator == calls[i].initiator
    requires Export(pool, calls[i].vol, calls[i].initiator, luns[i]) in trace[i + 1]
    requires Revoke(pool, calls[i].vol, calls[i].initiator) !in calls[i + 1..k]
    ensures luns[k] == luns[i] && trace[k + 1] == trace[k]
  {
    var e := Export(pool, calls[i].vol, calls[i].initiator, luns[i]);
    ExportStays(trace, calls, luns, i + 1, k, e);
    RunKeeps(trace, calls, luns, k);
    ExistingIs(trace[k], e);
    assert Does(trace[k], calls[k], luns[k], trace[k + 1]);
  }

  // ---- names shared across pools -------------------------------------------

  /** The answered LUN is an export of the volume asked for if and only if the initiator holds
      no export of the same name from another pool: the test compares names only. */
  lemma AnswersOwnVolumeIff(es: seq<Export>, pool: string, vol: string, initiator: string, lun: nat, after: seq<Export>)
    requires Inv(es) && Grants(es, pool, vol, initiator, lun, after)
    ensures Export(pool, vol, initiator, lun) in after
       <==> forall e | e in es && e.vol == vol && e.initiator == initiator :: e.pool == pool
  {
    ExistingIff(es, vol, initiator);
    if Existing(es, vol, initiator).Some? {
      var d :| d in es && d.initiator == initiator && d.vol == vol && d.lun == lun;
      forall e | e in es && e.vol == vol && e.initiator == initiator ensures e == d {
        var i :| 0 <= i < |es| && es[i] == d;
        var j :| 0 <= j < |es| && es[j] == e;
        assert i == j;
      }
    } else {
      assert after[|es|] == Export(pool, vol, initiator, lun);
    }
  }

  /** Two pools with a volume "v": the second grant answers the first pool's export. */
  lemma OtherPoolAnswered()
    ensures var es := [Export("a", "v", "i", 0)];
            Inv(es) && Grants(es, "b", "v", "i", 0, es) && Export("b", "v", "i", 0) !in es
  {
    var es := [Export("a", "v", "i", 0)];
    assert Existing(es, "v", "i") == Some(0);
  }

  // ---- the mutex -----------------------------------------------------------

  /** Where a call stands: waiting for the mutex, holding it, or having read the export list. */
  datatype Phase = Waiting | Holding | Listed(seen: seq<Export>) | Answered(lun: nat)

  datatype Thread = Thread(call: Call, phase: Phase)

  datatype Shared = Shared(exports: seq<Export>, holder: Option<nat>, threads: map<nat, Thread>)

  ghost predicate Arrives(s: Shared, t: nat, call: Call, u: Shared) {
    t !in s.threads && u == s.(threads := s.threads[t := Thread(call, Waiting)])
  }

  ghost predicate Locks(s: Shared, t: nat, u: Shared) {
    && t in s.threads && s.threads[t].phase.Waiting? && s.holder.None?
    && u == s.(holder := Some(t), threads := s.threads[t := s.threads[t].(phase := Holding)])
  }

  ghost predicate Reads(s: Shared, t: nat, u: Shared) {
    && t in s.threads && s.threads[t].phase.Holding? && s.threads[t].call.Grant?
    && u == s.(threads := s.threads[t := s.threads[t].(phase := Listed(s.exports))])
  }

  /** A grant writes what it computed from the list it read; a revoke needs no list. Then the
      mutex is released. */
  ghost predicate Commits(s: Shared, t: nat, lun: nat, u: Shared) {
    && t in s.threads
    && (if s.threads[t].call.Grant? then s.threads[t].phase.Listed? else s.threads[t].phase.Holding?)
    && Does(if s.threads[t].call.Grant? then s.threads[t].phase.seen else s.exports, s.threads[t].call, lun, u.exports)
    && u == s.(exports := u.exports, holder := None, threads := s.threads[t := s.threads[t].(phase := Answered(lun))])
  }

  /** A call that fails or dies before its write gives the mutex up. */
  ghost predicate GivesUp(s: Shared, t: nat, u: Shared) {
    && t in s.threads && !s.threads[t].phase.Answered?
    && u == s.(holder := if s.holder == Some(t) then None else s.holder, threads := s.threads - {t})
  }

  datatype Step = Arrive(call: Call) | Lock | Read | Commit(lun: nat) | GiveUp

  ghost predicate MovesBy(s: Shared, t: nat, step: Step, u: Shared) {
    match step
    case Arrive(call) => Arrives(s, t, call, u)
    case Lock => Locks(s, t, u)
    case Read => Reads(s, t, u)
    case Commit(lun) => Commits(s, t, lun, u)
    case GiveUp => GivesUp(s, t, u)
  }

  ghost predicate Moves(s: Shared, u: Shared) {
    exists t: nat, step: Step :: MovesBy(s, t, step, u)
  }

  /** Only the holder is past the mutex, and what it read is what is there. */
  ghost predicate Guarded(s: Shared) {
    forall t | t in s.threads && (s.threads[t].phase.Holding? || s.threads[t].phase.Listed?) ::
      s.holder == Some(t) && (s.threads[t].phase.Listed? ==> s.threads[t].phase.seen == s.exports)
  }

  /** Every interleaved step leaves the exports alone or is one whole call on them. */
  lemma StepsAreCalls(s: Shared, u: Shared)
    requires Guarded(s) && Moves(s, u)
    ensures Guarded(u)
    ensures u.exports == s.exports || exists call: Call, lun: nat :: Does(s.exports, call, lun, u.exports)
  {
    var t: nat, step: Step :| MovesBy(s, t, step, u);
    if step.Commit? { assert Does(s.exports, s.threads[t].call, step.lun, u.exports); }
  }

  /** So no interleaving of any number of callers puts two exports of an initiator on one LUN. */
  lemma {:induction false} InterleavingsKeep(run: seq<Shared>, k: nat)
    requires 0 < |run| && run[0] == Shared([], None, map[]) && k < |run|
    requires forall i | 0 <= i < |run| - 1 :: Moves(run[i], run[i + 1])
    ensures Guarded(run[k]) && Inv(run[k].exports)
    decreases k
  {
    if k > 0 {
      InterleavingsKeep(run, k - 1);
      assert Moves(run[k - 1], run[k - 1 + 1]);
      StepsAreCalls(run[k - 1], run[k]);
      var es, after := run[k - 1].exports, run[k].exports;
      if after != es {
        var call: Call, lun: nat :| Does(es, call, lun, after);
        match call
        case Grant(pool, vol, initiator) => GrantKeeps(es, pool, vol, initiator, lun, after);
        case Revoke(pool, vol, initiator) => RevokeKeeps(es, pool, vol, {initiator});
      }
    }
  }

  // ---- the results over interleavings --------------------------------------

  /** One step of one thread. */
  datatype Event = Event(thread: nat, step: Step)

  /** `run` are the states of an interleaving whose steps are `events`. */
  ghost predicate Interleaves(run: seq<Shared>, events: seq<Event>) {
    && |run| == |events| + 1 && run[0] == Shared([], None, map[])
    && forall i | 0 <= i < |events| :: MovesBy(run[i], events[i].thread, events[i].step, run[i + 1])
  }

  /** Step `i` commits `call`. */
  ghost predicate CommitsCall(run: seq<Shared>, events: seq<Event>, i: nat, call: Call) {
    i < |events| && i < |run| && events[i].step.Commit? && events[i].thread in run[i].threads &&
        run[i].threads[events[i].thread].call == call
  }

  lemma InterleavingGuarded(run: seq<Shared>, events: seq<Event>, k: nat)
    requires Interleaves(run, events) && k < |run|
    ensures Guarded(run[k]) && Inv(run[k].exports)
  {
    hide MovesBy;
    forall i | 0 <= i < |run| - 1 ensures Moves(run[i], run[i + 1]) {
      assert MovesBy(run[i], events[i].thread, events[i].step, run[i + 1]);
    }
    InterleavingsKeep(run, k);
  }

  /** A commit is one whole call on the exports, and its LUN is the thread's answer; no other
      step touches the exports. */
  lemma EventIsCall(run: seq<Shared>, events: seq<Event>, i: nat)
    requires Interleaves(run, events) && i < |events|
    ensures !events[i].step.Commit? ==> run[i + 1].exports == run[i].exports
    ensures events[i].step.Commit? ==>
              && events[i].thread in run[i].threads
              && CommitsCall(run, events, i, run[i].threads[events[i].thread].call)
              && Does(run[i].exports, run[i].threads[events[i].thread].call, events[i].step.lun, run[i + 1].exports)
              && events[i].thread in run[i + 1].threads
              && run[i + 1].threads[events[i].thread].phase == Answered(events[i].step.lun)
  {
    InterleavingGuarded(run, events, i);
    assert MovesBy(run[i], events[i].thread, events[i].step, run[i + 1]);
  }

  lemma {:induction false} ExportSurvives(run: seq<Shared>, events: seq<Event>, i: nat, k: nat, e: Export)
    requires Interleaves(run, events) && i <= k < |run| && e in run[i].exports
    requires forall j | i <= j < k :: !CommitsCall(run, events, j, Revoke(e.pool, e.vol, e.initiator))
    ensures e in run[k].exports
    decreases k - i
  {
    if i < k {
      EventIsCall(run, events, i);
      if events[i].step.Commit? {
        var call := run[i].threads[events[i].thread].call;
        if call.Revoke? { WithoutIff(run[i].exports, call.pool, call.vol, {call.initiator}, e); }
      }
      ExportSurvives(run, events, i + 1, k, e);
    }
  }

  /** In every interleaving, two threads that grant the same volume to the same initiator answer the
      same LUN, and the second adds no export, unless some thread revokes it in between. */
  lemma SameLunInterleaved(run: seq<Shared>, events: seq<Event>, i: nat, k: nat, first: Call, again: Call, pool: string)
    requires Interleaves(run, events) && i < k < |events| && CommitsCall(run, events, i, first)
    requires CommitsCall(run, events, k, again)
    requires first.Grant? && again.Grant? && again.vol == first.vol && again.initiator == first.initiator
    requires Export(pool, first.vol, first.initiator, events[i].step.lun) in run[i + 1].exports
    requires forall j | i < j < k :: !CommitsCall(run, events, j, Revoke(pool, first.vol, first.initiator))
    ensures events[k].step.lun == events[i].step.lun && run[k + 1].exports == run[k].exports
    ensures events[k].thread in run[k + 1].threads
    ensures run[k + 1].threads[events[k].thread].phase == Answered(events[i].step.lun)
  {
    var e := Export(pool, first.vol, first.initiator, events[i].step.lun);
    ExportSurvives(run, events, i + 1, k, e);
    InterleavingGuarded(run, events, k);
    ExistingIs(run[k].exports, e);
    EventIsCall(run, events, k);
  }

  /** In every interleaving, a LUN newly given to an initiator is at most the number of exports it
      has at that moment, and none of them is on it. */
  lemma NewLunInterleaved(run: seq<Shared>, events: seq<Event>, i: nat, call: Call)
    requires Interleaves(run, events) && CommitsCall(run, events, i, call) && call.Grant?
    requires Existing(run[i].exports, call.vol, call.initiator).None?
    ensures events[i].step.lun <= CountOf(run[i].exports, call.initiator)
    ensures forall e | e in run[i].exports && e.initiator == call.initiator :: e.lun != events[i].step.lun
    ensures run[i + 1].exports == run[i].exports + [Export(call.pool, call.vol, call.initiator, events[i].step.lun)]
  {
    EventIsCall(run, events, i);
    NewLunBounded(run[i].exports, call.pool, call.vol, call.initiator, events[i].step.lun, run[i + 1].exports);
    forall e | e in run[i].exports && e.initiator == call.initiator ensures e.lun != events[i].step.lun {
      assert e.lun in Used(run[i].exports, call.initiator);
    }
  }

  /** The calls an interleaving commits, in order; their LUNs; and the exports before and after each. */
  ghost function Committed(run: seq<Shared>, events: seq<Event>): (seq<Call>, seq<nat>, seq<seq<Export>>)
    requires |run| == |events| + 1
    decreases |events|
  {
    if events == [] then ([], [], [run[0].exports])
    else
      var n := |events| - 1;
      var (calls, luns, states) := Committed(run[..n + 1], events[..n]);
      if events[n].step.Commit? && events[n].thread in run[n].threads
      then (calls + [run[n].threads[events[n].thread].call], luns + [events[n].step.lun], states + [run[n + 1].exports])
      else (calls, luns, states)
  }

  /** Every interleaving is a sequence of whole calls, whose LUNs are what the threads answered. */
  lemma {:induction false} Linearizes(run: seq<Shared>, events: seq<Event>)
    requires Interleaves(run, events)
    ensures var (calls, luns, states) := Committed(run, events);
            Behaves(states, calls, luns) && states[0] == [] && states[|states| - 1] == run[|events|].exports
    decreases |events|
  {
    if events != [] {
      var n := |events| - 1;
      Linearizes(run[..n + 1], events[..n]);
      EventIsCall(run, events, n);
      var (calls, luns, states) := Committed(run[..n + 1], events[..n]);
      assert states[|calls|] == run[n].exports;
      if events[n].step.Commit? {
        var call := run[n].threads[events[n].thread].call;
        assert Behaves(states + [run[n + 1].exports], calls + [call], luns + [events[n].step.lun]);
      }
    }
  }

  /** Without it they can: two grants that both read the empty list. */
  lemma UnlockedGrantsCollide()
    ensures var one, both := [Export("p", "v", "i", 0)], [Export("p", "v", "i", 0), Export("p", "w", "i", 0)];
            && Grants([], "p", "v", "i", 0, one) && Grants([], "p", "w", "i", 0, [both[1]])
            && both == one + [both[1]] && !Inv(both)
  {
    var both := [Export("p", "v", "i", 0), Export("p", "w", "i", 0)];
    assert both[0].initiator == both[1].initiator && both[0].lun == both[1].lun;
  }
}
