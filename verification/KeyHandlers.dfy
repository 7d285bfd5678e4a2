/**
 The handlers that move the key plane, as the plugin runs them: each reads and writes the
 cluster and the key stores in the order of the code. An undisturbed call is exactly a run of
 the machine's commands, so what holds over every run holds of the handlers.
 */
module KeyHandlers {
  import opened Options
  import opened KeyPlane
  import opened KeyInvariant
  import opened KeyFrame
  import opened KeyAttempt
  import T = KeyTheorems

  predicate AllEnabled(w: World, acts: seq<Action>)
    decreases |acts|
  {
    acts == [] || (Enabled(w, acts[0]) && AllEnabled(Next(w, acts[0]), acts[1..]))
  }

  /** Every command of the run was enabled, and together they lead from `w` to `w'`. */
  ghost predicate Leads(w: World, run: seq<Action>, w': World) { AllEnabled(w, run) && Exec(w, run) == w' }

  lemma {:induction false} Longer(w: World, run: seq<Action>, w': World, a: Action)
    requires Leads(w, run, w') && Enabled(w', a)
    ensures Leads(w, run + [a], Next(w', a))
    decreases |run|
  {
    if run == [] {
      assert run + [a] == [a] && [a][1..] == [];
    } else {
      assert (run + [a])[1..] == run[1..] + [a];
      Longer(Next(w, run[0]), run[1..], w', a);
    }
  }

  /** The commands a rotation of `v` may issue. */
  ghost predicate Rotating(run: seq<Action>, v: string, r: nat) {
    forall a | a in run ::
        a == DoProvision(BeginStage(r, v)) || a == DoProvision(StoreKey(r)) || (a.DoRotate? && a.r == r)
  }

  // ---- single commands of a rotation ---------------------------------------

  /** `w` with rotation `r` of `v` at turn `t`. */
  ghost function At(w: World, r: nat, v: string, t: Turn): World { w.(rots := w.rots[r := Rotation(v, t)]) }

  lemma StartMoves(w: World, r: nat, v: string)
    requires CanRotate(w, r, Start(v))
    ensures Next(w, DoRotate(r, Start(v))) == At(w, r, v, Started)
  {}

  lemma ReadMoves(w: World, r: nat, v: string, t: Turn, a: RotateStep)
    requires CanRotate(At(w, r, v, t), r, a) && (a.ReadUid? || a.ReadPrior? || a.ReadPriorUid?)
    ensures Next(At(w, r, v, t), DoRotate(r, a)) == At(w, r, v, ReadTurn(At(w, r, v, t), r, a))
  {
    var u := ReadTurn(At(w, r, v, t), r, a);
    assert w.rots[r := Rotation(v, t)][r := Rotation(v, u)] == w.rots[r := Rotation(v, u)];
  }

  /** What a rotation has learnt when it is about to mint. */
  ghost function Learnt(w: World, v: string): Turn
    requires Stored(w, Vol(v)).Some?
  {
    var p := Stored(w, Vol(v)).value;
    if DescOf(w, Vol(v)).kms == Kmip then HaveUid(p, DescOf(w, Vol(v)).uid) else HaveOld(p)
  }

  lemma Begins(w0: World, run: seq<Action>, w: World, r: nat, v: string) returns (run': seq<Action>)
    requires Leads(w0, run, w) && Rotating(run, v, r) && CanRotate(w, r, Start(v)) && Stored(w, Vol(v)).Some?
    ensures Leads(w0, run', At(w, r, v, Learnt(w, v))) && Rotating(run', v, r)
  {
    hide Leads, Next;
    Longer(w0, run, w, DoRotate(r, Start(v)));
    StartMoves(w, r, v);
    run' := run + [DoRotate(r, Start(v))];
    var p, uid := Stored(w, Vol(v)).value, DescOf(w, Vol(v)).uid;
    if DescOf(w, Vol(v)).kms == Kmip {
      run' := Reading(w0, run', w, r, v, Started, ReadUid);
      run' := Reading(w0, run', w, r, v, UidRead(uid.value), ReadPrior);
      run' := Reading(w0, run', w, r, v, HaveOld(p), ReadPriorUid);
    } else {
      run' := Reading(w0, run', w, r, v, Started, ReadPrior);
    }
  }

  lemma Reading(w0: World, run: seq<Action>, w: World, r: nat, v: string, t: Turn, a: RotateStep)
    returns (run': seq<Action>)
    requires Leads(w0, run, At(w, r, v, t)) && Rotating(run, v, r)
    requires CanRotate(At(w, r, v, t), r, a) && (a.ReadUid? || a.ReadPrior? || a.ReadPriorUid?)
    ensures Leads(w0, run', At(w, r, v, ReadTurn(At(w, r, v, t), r, a))) && Rotating(run', v, r)
  {
    hide Leads, Next;
    Longer(w0, run, At(w, r, v, t), DoRotate(r, a));
    ReadMoves(w, r, v, t, a);
    run' := run + [DoRotate(r, a)];
  }

  lemma MintMoves(w: World, r: nat, v: string, t: Turn)
    requires CanRotate(At(w, r, v, t), r, MintKey)
    ensures var kmip := t.HaveUid?;
            var w' := w.(objects := if kmip then w.objects[w.next := Random(w.next)] else w.objects,
                next := w.next + 1);
            Next(At(w, r, v, t), DoRotate(r, MintKey)) ==
              At(w', r, v,
                  Minted(t.prior, if kmip then t.priorUid else None, Random(w.next), if kmip then Some(w.next)
                      else None))
  {
    var u := Minted(t.prior, if t.HaveUid? then t.priorUid else None, Random(w.next), if t.HaveUid? then Some(w.next)
        else None);
    assert w.rots[r := Rotation(v, t)][r := Rotation(v, u)] == w.rots[r := Rotation(v, u)];
  }

  lemma AddMoves(w: World, r: nat, v: string, t: Turn)
    requires CanRotate(At(w, r, v, t), r, AddSlot)
    ensures Next(At(w, r, v, t), DoRotate(r, AddSlot)) ==
              At(w.(slots := w.slots[Vol(v) := w.slots[Vol(v)] + {t.minted}]), r, v,
                  Applied(t.prior, t.priorUid, t.minted, t.mintedUid))
  {
    var u := Applied(t.prior, t.priorUid, t.minted, t.mintedUid);
    assert w.rots[r := Rotation(v, t)][r := Rotation(v, u)] == w.rots[r := Rotation(v, u)];
  }

  lemma AbortMoves(w: World, r: nat, v: string, t: Turn)
    requires CanRotate(At(w, r, v, t), r, Abort) && r !in w.rots
    ensures Next(At(w, r, v, t), DoRotate(r, Abort)) == w.(objects := Without(w.objects, t.mintedUid))
  {
    assert w.rots[r := Rotation(v, t)] - {r} == w.rots;
  }

  lemma PersistMoves(w: World, r: nat, v: string, t: Turn)
    requires CanRotate(At(w, r, v, t), r, Persist(true))
    ensures Next(At(w, r, v, t), DoRotate(r, Persist(true))) ==
              At(w.(meta := StoreMeta(w, Vol(v), t.minted, t.mintedUid), vault := StoreVault(w, Vol(v), t.minted)),
                 r, v, Persisted(t.prior, t.priorUid))
  {
    var u := Persisted(t.prior, t.priorUid);
    assert w.rots[r := Rotation(v, t)][r := Rotation(v, u)] == w.rots[r := Rotation(v, u)];
  }

  lemma ReapMoves(w: World, r: nat, v: string, t: Turn)
    requires CanRotate(At(w, r, v, t), r, Reap(true))
    ensures Next(At(w, r, v, t), DoRotate(r, Reap(true))) ==
              At(w.(objects := Without(w.objects, t.priorUid)), r, v, Reaped(t.prior))
  {
    var u := Reaped(t.prior);
    assert w.rots[r := Rotation(v, t)][r := Rotation(v, u)] == w.rots[r := Rotation(v, u)];
  }

  lemma RemoveMoves(w: World, r: nat, v: string, t: Turn)
    requires CanRotate(At(w, r, v, t), r, RemoveSlot) && r !in w.rots
    ensures Next(At(w, r, v, t), DoRotate(r, RemoveSlot)) == w.(slots := w.slots[Vol(v) := w.slots[Vol(v)] - {t.prior}])
  {
    assert w.rots[r := Rotation(v, t)] - {r} == w.rots;
  }

  // ---- a provider's passphrase call ------------------------------------------

  /** What becomes of the write that stores a first key: it works; it takes effect but is reported
      failed; it fails. */
  datatype Luck = Works | Lost | Fails

  /** The key is stored, or minted and stored. Where the key itself is written, a write reported
      failed is read back; KMIP destroys the object it registered, whether or not its UID was
      recorded. */
  ghost function Resolved(w: World, v: string, luck: Luck): World {
    var sp, p, d, mints := Vol(v), Random(w.next), DescOf(w, Vol(v)), NoKey(w, v);
    var kms := if mints && !luck.Fails? then d.kms else NoKms;
    w.(meta := if kms == SecretsMetadata then PutMeta(w, sp, d.(dek := Some(p)))
               else if kms == Kmip then PutMeta(w, sp, d.(uid := Some(w.next + 1)))
               else w.meta,
       vault := if kms == Vault then w.vault[sp := p] else w.vault,
       objects := if kms == Kmip && luck.Works? then w.objects[w.next + 1 := p] else w.objects,
       next := if !mints then w.next else if kms == Kmip then w.next + 2 else w.next + 1)
  }

  /** The second command of a first stage. */
  function Storing(kms: Kms, luck: Luck, t: nat): ProvisionStep {
    if luck.Fails? then LoseStage(t) else if luck.Lost? && kms == Kmip then StoreLost(t) else StoreKey(t)
  }

  lemma StageBegins(w: World, v: string, t: nat)
    requires CanProvision(w, BeginStage(t, v))
    ensures var w1 := Next(w, DoProvision(BeginStage(t, v)));
            && w1 == w.(stages := w.stages[t := FirstStage(v, DescOf(w, Vol(v)).kms, Random(w.next))],
               next := w.next + 1)
            && w1.stages - {t} == w.stages && DescOf(w1, Vol(v)) == DescOf(w, Vol(v))
  {}

  /** A call that finds no key is two commands of the machine, both enabled, whatever its luck. */
  lemma ResolvedIsRun(w: World, v: string, luck: Luck, t: nat)
    requires Vol(v) in w.ready && v in w.meta && DescOf(w, Vol(v)).kms != NoKms && NoKey(w, v) && t !in w.stages
    ensures Leads(w, [DoProvision(BeginStage(t, v)), DoProvision(Storing(DescOf(w, Vol(v)).kms, luck, t))],
            Resolved(w, v, luck))
  {
    hide DescOf, PutMeta, NoKey;
    var a, b := DoProvision(BeginStage(t, v)), DoProvision(Storing(DescOf(w, Vol(v)).kms, luck, t));
    var w1 := Next(w, a);
    StageBegins(w, v, t);
    StoreRuns(w, w1, v, luck, t);
    Longer(w, [], w, a);
    Longer(w, [] + [a], w1, b);
    assert [] + [a] + [b] == [a, b];
  }

  lemma StoreRuns(w: World, w1: World, v: string, luck: Luck, t: nat)
    requires v in w.meta && DescOf(w, Vol(v)).kms != NoKms && NoKey(w, v)
    requires w1 == w.(stages := w.stages[t := FirstStage(v, DescOf(w, Vol(v)).kms, Random(w.next))], next := w.next + 1)
    requires w1.stages - {t} == w.stages && DescOf(w1, Vol(v)) == DescOf(w, Vol(v))
    ensures var b := DoProvision(Storing(DescOf(w, Vol(v)).kms, luck, t));
            Enabled(w1, b) && Next(w1, b) == Resolved(w, v, luck)
  {}

  /** Unless the write fails, or KMIP's is reported failed, the call resolves to what is stored. */
  lemma ResolvedReads(w: World, v: string, luck: Luck)
    requires DescOf(w, Vol(v)).kms != NoKms
    ensures var d, w' := DescOf(w, Vol(v)), Resolved(w, v, luck);
            && DescOf(w', Vol(v)).kms == d.kms
            && (NoKey(w, v) && luck != Fails && (luck == Works || d.kms != Kmip) ==>
               Stored(w', Vol(v)) == Some(Random(w.next)))
  {
    hide PutMeta;
    var d, w', p := DescOf(w, Vol(v)), Resolved(w, v, luck), Random(w.next);
    if NoKey(w, v) && luck != Fails {
      if d.kms == SecretsMetadata { PutReads(w, w', Vol(v), d.(dek := Some(p)), Vol(v)); }
      if d.kms == Kmip { PutReads(w, w', Vol(v), d.(uid := Some(w.next + 1)), Vol(v)); }
    }
  }

  lemma SameStored(w: World, w': World, sp: Spec)
    requires w.meta == w'.meta && w.vault == w'.vault && w.objects == w'.objects
    ensures DescOf(w, sp) == DescOf(w', sp) && Stored(w, sp) == Stored(w', sp)
  {}

  lemma Unregistered(objects: map<nat, Pass>, uid: nat, pass: Pass)
    requires uid !in objects
    ensures objects[uid := pass] - {uid} == objects
  {}

  // ---- what a rotation does to the stored state ----------------------------

  /** The new key added to the header and persisted, the superseded object destroyed. */
  ghost function Spliced(w: World, v: string): World
    requires Vol(v) in w.slots
  {
    var sp, pass, kmip := Vol(v), Random(w.next), DescOf(w, Vol(v)).kms == Kmip;
    w.(slots := w.slots[sp := w.slots[sp] + {pass}],
       meta := StoreMeta(w, sp, pass, Some(w.next)),
       vault := StoreVault(w, sp, pass),
       objects := if kmip then Without(w.objects[w.next := pass], DescOf(w, sp).uid) else w.objects,
       next := w.next + 1)
  }

  lemma SplicedWrapped(w: World, v: string)
    requires Vol(v) in w.slots && DescOf(w, Vol(v)).kms == SecretsMetadata
    ensures var d, pass := DescOf(w, Vol(v)), Random(w.next);
            Spliced(w, v) == w.(slots := w.slots[Vol(v) := w.slots[Vol(v)] + {pass}],
                                meta := PutMeta(w, Vol(v), d.(dek := Some(pass))), next := w.next + 1)
  {}

  lemma SplicedVault(w: World, v: string)
    requires Vol(v) in w.slots && DescOf(w, Vol(v)).kms == Vault
    ensures var pass := Random(w.next);
            Spliced(w, v)
                == w.(slots := w.slots[Vol(v) := w.slots[Vol(v)] + {pass}], vault := w.vault[Vol(v) := pass],
                    next := w.next + 1)
  {}

  lemma SplicedKmip(w: World, v: string)
    requires Vol(v) in w.slots && DescOf(w, Vol(v)).kms == Kmip
    ensures var d, pass := DescOf(w, Vol(v)), Random(w.next);
            Spliced(w, v) == w.(slots := w.slots[Vol(v) := w.slots[Vol(v)] + {pass}],
                                meta := PutMeta(w, Vol(v), d.(uid := Some(w.next))),
                                objects := Without(w.objects[w.next := pass], d.uid), next := w.next + 1)
  {}

  /** `w` with the new key spliced in and the old keyslot retired. */
  ghost function Replaced(w: World, v: string): World
    requires Vol(v) in w.slots && Stored(w, Vol(v)).Some?
  {
    var w' := Spliced(w, v);
    w'.(slots := w'.slots[Vol(v) := w'.slots[Vol(v)] - {Stored(w, Vol(v)).value}])
  }

  /** A rotation succeeds if the passphrase that resolves opens the header. */
  ghost predicate Rotates(w: World, v: string) {
    && DescOf(w, Vol(v)).kms != NoKms && Vol(v) in w.slots
    && var pass := Stored(Resolved(w, v, Works), Vol(v)); pass.Some? && pass.value in w.slots[Vol(v)]
  }

  /** A volume with a derived key is refused; a key that does not resolve ends the call; one
      that does not open the header costs a minted key; else the new one replaces the old. */
  ghost function Rotated(w: World, v: string): World
    requires Vol(v) in w.slots
  {
    if DescOf(w, Vol(v)).kms == NoKms then w
    else
      var w1 := Resolved(w, v, Works);
      if Stored(w1, Vol(v)).None? then w1
      else if !Rotates(w, v) then w1.(next := w1.next + 1)
      else Replaced(w1, v)
  }

  /** Every random key in the header of the volume was drawn before. */
  ghost predicate HeaderKnown(w: World, v: string) {
    Vol(v) in w.slots && forall p | p in w.slots[Vol(v)] :: Known(w, p)
  }

  /** In any state whose header holds no key still to be drawn: a rotation succeeds exactly if a KMS
      id is recorded and the key stored under it opens the header. One that a stored key does not
      authorise leaves nothing behind. */
  lemma RotatesIff(w: World, v: string)
    requires HeaderKnown(w, v)
    ensures Rotates(w, v) <==>
              && DescOf(w, Vol(v)).kms != NoKms
              && Stored(w, Vol(v)).Some? && Stored(w, Vol(v)).value in w.slots[Vol(v)]
    ensures Stored(w, Vol(v)).Some? && !Rotates(w, v) ==> Rotated(w, v) == w.(next := w.next + 1)
  {
    if DescOf(w, Vol(v)).kms != NoKms {
      ResolvedReads(w, v, Works);
      hide PutMeta;
      assert !NoKey(w, v) ==> Resolved(w, v, Works) == w;
      assert NoKey(w, v) ==> Stored(w, Vol(v)).None? && !Known(w, Random(w.next));
    }
  }

  /** A volume with a derived key is refused, and nothing is changed. */
  lemma DerivedRefused(w: World, v: string)
    requires Vol(v) in w.slots && DescOf(w, Vol(v)).kms == NoKms
    ensures !Rotates(w, v) && Rotated(w, v) == w
  {}

  lemma ResolvedKnown(w: World, v: string)
    requires forall u | u in w.objects :: u < w.next
    ensures forall u | u in Resolved(w, v, Works).objects :: u < Resolved(w, v, Works).next
  {}

  // ---- it is a run of the machine ------------------------------------------

  lemma Extended(w0: World, run: seq<Action>, w: World, v: string, r: nat, a: RotateStep, w': World)
    requires Leads(w0, run, w) && Rotating(run, v, r) && CanRotate(w, r, a) && Next(w, DoRotate(r, a)) == w'
    ensures Leads(w0, run + [DoRotate(r, a)], w') && Rotating(run + [DoRotate(r, a)], v, r)
  {
    Longer(w0, run, w, DoRotate(r, a));
  }

  /** The turn a rotation is at once it has minted. */
  ghost function MintedTurn(w: World, v: string): Turn
    requires Stored(w, Vol(v)).Some?
  {
    var p, kmip := Stored(w, Vol(v)).value, DescOf(w, Vol(v)).kms == Kmip;
    Minted(p, if kmip then DescOf(w, Vol(v)).uid else None, Random(w.next), if kmip then Some(w.next) else None)
  }

  ghost function MintedWorld(w: World, v: string): World {
    w.(objects := if DescOf(w, Vol(v)).kms == Kmip then w.objects[w.next := Random(w.next)] else w.objects,
        next := w.next + 1)
  }

  lemma RunsToMinted(w0: World, run: seq<Action>, w: World, r: nat, v: string) returns (run': seq<Action>)
    requires Leads(w0, run, w) && Rotating(run, v, r) && CanRotate(w, r, Start(v)) && Stored(w, Vol(v)).Some?
    ensures Leads(w0, run', At(MintedWorld(w, v), r, v, MintedTurn(w, v))) && Rotating(run', v, r)
  {
    hide Leads, Next, Rotating;
    run' := Begins(w0, run, w, r, v);
    MintMoves(w, r, v, Learnt(w, v));
    Extended(w0, run', At(w, r, v, Learnt(w, v)), v, r, MintKey, At(MintedWorld(w, v), r, v, MintedTurn(w, v)));
    run' := run' + [DoRotate(r, MintKey)];
  }

  /** From the minted key to the persisted one. */
  lemma RunsToPersisted(w0: World, run: seq<Action>, w: World, r: nat, v: string, t: Turn) returns (run': seq<Action>)
    requires Leads(w0, run, At(w, r, v, t)) && Rotating(run, v, r) && t.Minted? && Vol(v) in w.slots
    requires t.prior in w.slots[Vol(v)]
    ensures var w' := w.(slots := w.slots[Vol(v) := w.slots[Vol(v)] + {t.minted}],
                         meta := StoreMeta(w, Vol(v), t.minted, t.mintedUid), vault := StoreVault(w, Vol(v), t.minted));
            Leads(w0, run', At(w', r, v, Persisted(t.prior, t.priorUid))) && Rotating(run', v, r)
  {
    hide Leads, Next, Rotating;
    var w1 := w.(slots := w.slots[Vol(v) := w.slots[Vol(v)] + {t.minted}]);
    var t1 := Applied(t.prior, t.priorUid, t.minted, t.mintedUid);
    AddMoves(w, r, v, t);
    Extended(w0, run, At(w, r, v, t), v, r, AddSlot, At(w1, r, v, t1));
    var run1 := run + [DoRotate(r, AddSlot)];
    PersistMoves(w1, r, v, t1);
    var w2 := w1.(meta := StoreMeta(w1, Vol(v), t.minted, t.mintedUid), vault := StoreVault(w1, Vol(v), t.minted));
    Extended(w0, run1, At(w1, r, v, t1), v, r, Persist(true), At(w2, r, v, Persisted(t.prior, t.priorUid)));
    run' := run1 + [DoRotate(r, Persist(true))];
  }

  lemma RunsToEnd(w0: World, run: seq<Action>, w: World, r: nat, v: string, t: Turn) returns (run': seq<Action>)
    requires Leads(w0, run, At(w, r, v, t)) && Rotating(run, v, r) && t.Persisted? && Vol(v) in w.slots && r !in w.rots
    ensures var w' := w.(objects := Without(w.objects, t.priorUid),
            slots := w.slots[Vol(v) := w.slots[Vol(v)] - {t.prior}]);
            Leads(w0, run', w') && Rotating(run', v, r)
  {
    hide Leads, Next, Rotating;
    ReapMoves(w, r, v, t);
    var w1 := w.(objects := Without(w.objects, t.priorUid));
    Extended(w0, run, At(w, r, v, t), v, r, Reap(true), At(w1, r, v, Reaped(t.prior)));
    RemoveMoves(w1, r, v, Reaped(t.prior));
    var w2 := w1.(slots := w1.slots[Vol(v) := w1.slots[Vol(v)] - {t.prior}]);
    Extended(w0, run + [DoRotate(r, Reap(true))], At(w1, r, v, Reaped(t.prior)), v, r, RemoveSlot, w2);
    run' := run + [DoRotate(r, Reap(true))] + [DoRotate(r, RemoveSlot)];
  }

  lemma RunsToAbort(w0: World, run: seq<Action>, w: World, r: nat, v: string) returns (run': seq<Action>)
    requires Stored(w, Vol(v)).Some? && r !in w.rots && w.next !in w.objects
    requires Leads(w0, run, At(MintedWorld(w, v), r, v, MintedTurn(w, v))) && Rotating(run, v, r)
    ensures Leads(w0, run', w.(next := w.next + 1)) && Rotating(run', v, r)
  {
    hide Leads, Next, Rotating;
    var w1, t := MintedWorld(w, v), MintedTurn(w, v);
    AbortMoves(w1, r, v, t);
    assert w1.(objects := Without(w1.objects, t.mintedUid)) == w.(next := w.next + 1);
    Extended(w0, run, At(w1, r, v, t), v, r, Abort, w.(next := w.next + 1));
    run' := run + [DoRotate(r, Abort)];
  }

  lemma ReplacedWorld(w: World, v: string)
    requires Vol(v) in w.slots && Stored(w, Vol(v)).Some?
    ensures var w1, t := MintedWorld(w, v), MintedTurn(w, v);
            var slots := w1.slots[Vol(v) := w1.slots[Vol(v)] + {t.minted}];
            Replaced(w, v) == w1.(slots := slots[Vol(v) := slots[Vol(v)] - {t.prior}],
                                  meta := StoreMeta(w1, Vol(v), t.minted, t.mintedUid),
                                  vault := StoreVault(w1, Vol(v), t.minted), objects := Without(w1.objects, t.priorUid))
  {
    assert DescOf(MintedWorld(w, v), Vol(v)) == DescOf(w, Vol(v));
  }

  lemma RunsToReplaced(w0: World, run: seq<Action>, w: World, r: nat, v: string) returns (run': seq<Action>)
    requires Stored(w, Vol(v)).Some? && r !in w.rots && Vol(v) in w.slots && Stored(w, Vol(v)).value in w.slots[Vol(v)]
    requires Leads(w0, run, At(MintedWorld(w, v), r, v, MintedTurn(w, v))) && Rotating(run, v, r)
    ensures Leads(w0, run', Replaced(w, v)) && Rotating(run', v, r)
  {
    hide Leads, Next, Rotating, Replaced, StoreMeta, StoreVault;
    var w1, t := MintedWorld(w, v), MintedTurn(w, v);
    run' := RunsToPersisted(w0, run, w1, r, v, t);
    var w2 := w1.(slots := w1.slots[Vol(v) := w1.slots[Vol(v)] + {t.minted}],
                  meta := StoreMeta(w1, Vol(v), t.minted, t.mintedUid), vault := StoreVault(w1, Vol(v), t.minted));
    run' := RunsToEnd(w0, run', w2, r, v, Persisted(t.prior, t.priorUid));
    ReplacedWorld(w, v);
  }

  /** One undisturbed rotation is a run of the machine's commands, all of them enabled. */
  lemma RunsFromKey(w0: World, run: seq<Action>, w: World, r: nat, v: string) returns (run': seq<Action>)
    requires Leads(w0, run, w) && Rotating(run, v, r) && CanRotate(w, r, Start(v)) && Stored(w, Vol(v)).Some?
    requires w.next !in w.objects
    ensures Leads(w0, run', if Stored(w, Vol(v)).value in w.slots[Vol(v)] then Replaced(w, v)
            else w.(next := w.next + 1)) && Rotating(run', v, r)
  {
    hide Leads, Rotating, DescOf, Stored, Replaced, MintedWorld, MintedTurn;
    run' := RunsToMinted(w0, run, w, r, v);
    if Stored(w, Vol(v)).value in w.slots[Vol(v)] {
      run' := RunsToReplaced(w0, run', w, r, v);
    } else {
      run' := RunsToAbort(w0, run', w, r, v);
    }
  }

  lemma RotationIsRun(w: World, r: nat, v: string) returns (run: seq<Action>)
    requires r !in w.rots && r !in w.stages && Vol(v) in w.ready && v in w.meta
    requires Vol(v) in w.slots && w.slots[Vol(v)] != {} && forall u | u in w.objects :: u < w.next
    ensures Leads(w, run, Rotated(w, v)) && Rotating(run, v, r)
  {
    hide Leads, Next, Stored, Replaced, DescOf, NoKey, Resolved;
    run := [];
    NoRun(w);
    if DescOf(w, Vol(v)).kms != NoKms {
      ResolvedKnown(w, v);
      ResolvedReads(w, v, Works);
      ResolvedSlots(w, v);
      run := StageRun(w, v, r);
      if Stored(Resolved(w, v, Works), Vol(v)).Some? { run := RunsFromKey(w, run, Resolved(w, v, Works), r, v); }
    }
  }

  lemma StageRun(w: World, v: string, r: nat) returns (run: seq<Action>)
    requires r !in w.stages && Vol(v) in w.ready && v in w.meta && DescOf(w, Vol(v)).kms != NoKms
    ensures Leads(w, run, Resolved(w, v, Works)) && Rotating(run, v, r)
  {
    hide Leads, NoKey;
    if NoKey(w, v) {
      ResolvedIsRun(w, v, Works, r);
      run := [DoProvision(BeginStage(r, v)), DoProvision(StoreKey(r))];
    } else {
      run := [];
      NoRun(w);
    }
  }

  lemma NoRun(w: World)
    ensures Leads(w, [], w)
  {}

  // ---- an undisturbed rotation always succeeds -----------------------------

  lemma ReplacedOwn(w: World, v: string)
    requires IdsKnown(w) && Vol(v) in w.slots && Stored(w, Vol(v)).Some?
    ensures Stored(Replaced(w, v), Vol(v)) == Some(Random(w.next))
  {
    var d, w' := DescOf(w, Vol(v)), Replaced(w, v);
    assert KnownUid(w, d.uid);
    if d.kms == SecretsMetadata { PutReads(w, w', Vol(v), d.(dek := Some(Random(w.next))), Vol(v)); }
    if d.kms == Kmip { PutReads(w, w', Vol(v), d.(uid := Some(w.next)), Vol(v)); }
  }

  lemma ReplacedOther(w: World, v: string, x: Spec)
    requires IdsKnown(w) && Exclusive(w) && Vol(v) in w.slots && Stored(w, Vol(v)).Some? && Vol(v) in w.ready
    requires x in w.ready && x != Vol(v)
    ensures Stored(Replaced(w, v), x) == Stored(w, x)
  {
    hide Exclusive, IdsKnown;
    var d, w' := DescOf(w, Vol(v)), Replaced(w, v);
    assert KnownUid(w, DescOf(w, x).uid) by { KnownOf(w, x); }
    assert d.uid.Some? ==> DescOf(w, x).uid != d.uid by { ApartUids(w, Vol(v), x); }
    if d.kms == SecretsMetadata { PutReads(w, w', Vol(v), d.(dek := Some(Random(w.next))), x); }
    if d.kms == Kmip { PutReads(w, w', Vol(v), d.(uid := Some(w.next)), x); }
  }

  lemma KnownOf(w: World, x: Spec)
    requires IdsKnown(w)
    ensures KnownUid(w, DescOf(w, x).uid)
  {
    hide DescOf;
    assert KnownUid(w, DescOf(w, x).uid);
  }

  lemma ApartUids(w: World, x: Spec, y: Spec)
    requires Exclusive(w) && x in w.ready && y in w.ready && x != y
    ensures DescOf(w, x).uid.Some? ==> DescOf(w, y).uid != DescOf(w, x).uid
  {
    assert HeldUid(w, OfSpec(x)).Some? ==> HeldUid(w, OfSpec(x)) != HeldUid(w, OfSpec(y));
  }

  /** A staged stored-key volume opens, and has nothing to mint. */
  lemma StagedOpens(w: World, v: string)
    requires SpecsOk(w) && IdsKnown(w) && Vol(v) in w.ready && Vol(v) in w.slots && w.slots[Vol(v)] != {}
    requires DescOf(w, Vol(v)).kms != NoKms
    ensures Stored(w, Vol(v)).Some? && Stored(w, Vol(v)).value in w.slots[Vol(v)]
    ensures Stored(w, Vol(v)).value != Random(w.next)
    ensures Resolved(w, v, Works) == w
  {
    assert SpecOk(w, Vol(v));
    KnownKey(w, v);
  }

  lemma SucceedsAt(w: World, v: string)
    requires SpecsOk(w) && IdsKnown(w) && Vol(v) in w.ready && Vol(v) in w.slots && w.slots[Vol(v)] != {}
    requires DescOf(w, Vol(v)).kms != NoKms
    ensures Rotates(w, v) && Stored(w, Vol(v)).Some? && Rotated(w, v) == Replaced(w, v)
    ensures Replaced(w, v).slots == w.slots[Vol(v) := w.slots[Vol(v)] - {Stored(w, Vol(v)).value} + {Random(w.next)}]
  {
    hide SpecsOk, IdsKnown, Next, Stored, DescOf;
    StagedOpens(w, v);
    var h, p, q := w.slots[Vol(v)], Stored(w, Vol(v)).value, Random(w.next);
    assert h + {q} - {p} == h - {p} + {q};
  }

  /** A rotation trades the object the volume recorded for one new one; without KMIP it touches none. */
  ghost predicate Supersedes(w: World, w': World, d: Desc) {
    if d.kms == Kmip then d.uid.Some? && w'.objects == (w.objects - {d.uid.value})[w.next := Random(w.next)]
    else w'.objects == w.objects
  }

  lemma ReplacedObjects(w: World, v: string)
    requires IdsKnown(w) && Vol(v) in w.slots && Stored(w, Vol(v)).Some?
    ensures Supersedes(w, Replaced(w, v), DescOf(w, Vol(v)))
    ensures DescOf(Replaced(w, v), Vol(v)).kms == DescOf(w, Vol(v)).kms
  {
    var d, w' := DescOf(w, Vol(v)), Replaced(w, v);
    assert KnownUid(w, d.uid);
    hide IdsKnown;
    if d.kms == SecretsMetadata { PutReads(w, w', Vol(v), d.(dek := Some(Random(w.next))), Vol(v)); }
    if d.kms == Kmip { PutReads(w, w', Vol(v), d.(uid := Some(w.next)), Vol(v)); }
  }

  /** In every reachable state, rotating a staged stored-key volume succeeds: a fresh key
      resolves and opens the header, the old one no longer does and its object is gone, and no other
      volume's or snapshot's key or header changes. */
  lemma RotationSucceeds(acts: seq<Action>, v: string, x: Spec)
    requires AllAdmitted(EMPTY, acts)
    requires var w := Exec(EMPTY, acts);
             && Vol(v) in w.ready && Vol(v) in w.slots && w.slots[Vol(v)] != {} && DescOf(w, Vol(v)).kms != NoKms
    ensures var w := Exec(EMPTY, acts);
            var w', pass := Rotated(w, v), Random(w.next);
            && Rotates(w, v) && Stored(w, Vol(v)).Some?
            && Stored(w', Vol(v)) == Some(pass) && Vol(v) in w'.slots
            && w'.slots[Vol(v)] == w.slots[Vol(v)] - {Stored(w, Vol(v)).value} + {pass}
            && DescOf(w', Vol(v)).kms == DescOf(w, Vol(v)).kms && Supersedes(w, w', DescOf(w, Vol(v)))
            && (x in w.ready && x != Vol(v) ==>
               Stored(w', x) == Stored(w, x) && x in w'.slots && x in w.slots && w'.slots[x] == w.slots[x])
  {
    hide AllAdmitted, Exec, SpecOk, IdsKnown, Shape, JobsOk, RotsOk, Exclusive, PriorsPrivate, Replaced, Rotated,
         DescOf, Stored, Rotates;
    EmptyInv();
    T.RunKeeps(EMPTY, acts);
    var w := Exec(EMPTY, acts);
    SucceedsAt(w, v);
    ReplacedOwn(w, v);
    ReplacedObjects(w, v);
    if x in w.ready && x != Vol(v) { ReplacedOther(w, v, x); }
  }

  /** In every reachable state, rotating a volume whose create has answered succeeds if and only if it
      records a KMS id and is formatted. */
  lemma RotationAnswersIff(acts: seq<Action>, v: string)
    requires AllAdmitted(EMPTY, acts) && Vol(v) in Exec(EMPTY, acts).ready
    ensures var w := Exec(EMPTY, acts);
            && Vol(v) in w.slots
            && (Rotates(w, v) <==> DescOf(w, Vol(v)).kms != NoKms && w.slots[Vol(v)] != {})
            && (DescOf(w, Vol(v)).kms == NoKms ==> Rotated(w, v) == w)
  {
    hide AllAdmitted, Exec, Shape, JobsOk, RotsOk, Exclusive, PriorsPrivate, Replaced, DescOf, Stored;
    EmptyInv();
    T.RunKeeps(EMPTY, acts);
    var w := Exec(EMPTY, acts);
    assert SpecOk(w, Vol(v));
    HeaderIsKnown(w, v);
    RotatesIff(w, v);
    if DescOf(w, Vol(v)).kms == NoKms {
      DerivedRefused(w, v);
    } else if w.slots[Vol(v)] != {} {
      StagedOpens(w, v);
    }
  }

  lemma HeaderIsKnown(w: World, v: string)
    requires IdsKnown(w) && Vol(v) in w.slots
    ensures HeaderKnown(w, v)
  {}

  lemma KnownKey(w: World, v: string)
    requires IdsKnown(w) && Vol(v) in w.slots && Stored(w, Vol(v)).Some? && Stored(w, Vol(v)).value in w.slots[Vol(v)]
    ensures Stored(w, Vol(v)).value != Random(w.next)
  {
    hide Stored;
    assert Known(w, Stored(w, Vol(v)).value);
  }

  // ---- the stored state alone ------------------------------------------------

  /** `w` with the metadata, keyslots and key stores of `h`. */
  function On(w: World, h: World): World {
    w.(meta := h.meta, slots := h.slots, vault := h.vault, objects := h.objects, next := h.next)
  }

  /** What a handler does to the stored state does not depend on what else is in flight. */
  lemma ResolvedOn(w: World, v: string)
    ensures var h := On(EMPTY, w);
            && DescOf(h, Vol(v)) == DescOf(w, Vol(v)) && Stored(h, Vol(v)) == Stored(w, Vol(v))
            && Resolved(w, v, Works) == On(w, Resolved(h, v, Works))
  {
    hide PutMeta;
    SamePut(w, On(EMPTY, w), Vol(v), DescOf(w, Vol(v)).(dek := Some(Random(w.next))));
    SamePut(w, On(EMPTY, w), Vol(v), DescOf(w, Vol(v)).(uid := Some(w.next + 1)));
  }

  lemma ReplacedOn(w: World, v: string)
    requires Vol(v) in w.slots && Stored(w, Vol(v)).Some?
    ensures Stored(On(EMPTY, w), Vol(v)) == Stored(w, Vol(v)) && Replaced(w, v) == On(w, Replaced(On(EMPTY, w), v))
  {
    hide PutMeta;
    var h, pass := On(EMPTY, w), Random(w.next);
    SameStored(w, h, Vol(v));
    SamePut(w, h, Vol(v), DescOf(w, Vol(v)).(dek := Some(pass)));
    SamePut(w, h, Vol(v), DescOf(w, Vol(v)).(uid := Some(w.next)));
  }

  lemma RotatedOn(w: World, v: string)
    requires Vol(v) in w.slots
    ensures Rotated(w, v) == On(w, Rotated(On(EMPTY, w), v)) && (Rotates(w, v) <==> Rotates(On(EMPTY, w), v))
  {
    hide Resolved, Replaced, Stored, DescOf, NoKey;
    var h := On(EMPTY, w);
    ResolvedOn(w, v);
    var w1, h1 := Resolved(w, v, Works), Resolved(h, v, Works);
    SameStored(w1, h1, Vol(v));
    ResolvedSlots(w, v);
    ResolvedSlots(h, v);
    if DescOf(w, Vol(v)).kms != NoKms && Stored(w1, Vol(v)).Some? {
      ReplacedOn(w1, v);
      ReplacedOn(h1, v);
      assert On(EMPTY, w1) == On(EMPTY, h1);
    }
  }

  /** What inheritEncryption leaves in the stored state, and the key identity it answers with. */
  function Inheriting(h: World, from: Source, sp: Spec): (World, Option<Spec>) {
    var src := SourceSpec(h, from);
    var h1, kms := WithDescriptor(h, src, sp), InheritedKms(WithKeyId(h, src, sp), src, sp);
    (WithKey(h1, kms, src, sp), if KeyTaken(h1, kms, src, sp) then Some(InheritedKeyId(h, src, sp)) else None)
  }

  lemma DescriptorOn(w: World, src: Spec, sp: Spec)
    ensures var h := On(EMPTY, w);
            && InheritedKeyId(w, src, sp) == InheritedKeyId(h, src, sp)
            && InheritedKms(WithKeyId(w, src, sp), src, sp) == InheritedKms(WithKeyId(h, src, sp), src, sp)
            && WithDescriptor(w, src, sp) == On(w, WithDescriptor(h, src, sp))
            && On(EMPTY, WithDescriptor(w, src, sp)) == WithDescriptor(h, src, sp)
  {
    hide DescOf, PutMeta, InheritedKeyId, InheritedKms, InheritedDek;
    var h := On(EMPTY, w);
    SameInherited(w, h, src, sp);
    var w1, h1 := WithKeyId(w, src, sp), WithKeyId(h, src, sp);
    SameInherited(w1, h1, src, sp);
    var w2, h2 := WithKms(w1, src, sp), WithKms(h1, src, sp);
    SameInherited(w2, h2, src, sp);
  }

  lemma ObjectOn(w: World, src: Spec, sp: Spec)
    ensures WithObject(w, src, sp) == On(w, WithObject(On(EMPTY, w), src, sp))
    ensures ObjectTaken(w, src, sp) <==> ObjectTaken(On(EMPTY, w), src, sp)
  {
    hide DescOf, PutMeta;
    var h := On(EMPTY, w);
    SameDesc(w, h, src);
    SameDesc(w, h, sp);
    SamePut(w, h, sp, DescOf(w, sp).(uid := Some(w.next), owner := Some(sp)));
  }

  lemma KeyOn(w: World, kms: Kms, src: Spec, sp: Spec)
    ensures WithKey(w, kms, src, sp) == On(w, WithKey(On(EMPTY, w), kms, src, sp))
    ensures KeyTaken(w, kms, src, sp) <==> KeyTaken(On(EMPTY, w), kms, src, sp)
  {
    hide WithObject, ObjectTaken;
    ObjectOn(w, src, sp);
  }

  /** One attempt of the machine does to the stored state what the handler does. */
  lemma AttemptOn(w: World, sp: Spec)
    requires Copies(w, sp)
    ensures var (h, key) := Inheriting(On(EMPTY, w), w.jobs[sp].from, sp);
            AfterAttempt(w, sp) == if key.Some? then Answered(On(w, h), sp, key.value) else On(w, h)
  {
    hide DescOf, PutMeta, InheritedKeyId, InheritedKms, WithDescriptor, WithKeyId, WithKey, KeyTaken;
    var h0, from := On(EMPTY, w), w.jobs[sp].from;
    SameSource(w, h0, from);
    var src := SourceSpec(w, from);
    DescriptorOn(w, src, sp);
    KeyOn(WithDescriptor(w, src, sp), InheritedKms(WithKeyId(w, src, sp), src, sp), src, sp);
  }

  lemma ResolvedSlots(w: World, v: string)
    ensures Resolved(w, v, Works).slots == w.slots && Resolved(w, v, Works) == On(w, Resolved(w, v, Works))
  {}

  // ---- the handlers --------------------------------------------------------

  class Plugin {
    var meta: map<string, Meta>
    var slots: map<Spec, set<Pass>>
    var vault: map<Spec, Pass>
    var objects: map<nat, Pass>
    var next: nat

    constructor ()
      ensures Here() == EMPTY
    {
      meta, slots, vault, objects, next := map[], map[], map[], map[], 0;
    }

    /** The stored state, with nothing in flight. */
    function Here(): World
      reads this
    {
      EMPTY.(meta := meta, slots := slots, vault := vault, objects := objects, next := next)
    }

    /** The passphrase of a stored-key provider: what is stored, else minted and stored. */
    method Passphrase(v: string, luck: Luck) returns (pass: Option<Pass>)
      requires DescOf(Here(), Vol(v)).kms != NoKms && next + 1 !in objects
      modifies this`meta, this`vault, this`objects, this`next
      ensures Here() == Resolved(old(Here()), v, luck)
      ensures pass == if NoKey(old(Here()), v) &&
              (luck.Fails? || (luck.Lost? && DescOf(old(Here()), Vol(v)).kms == Kmip)) then None
                      else Stored(Here(), Vol(v))
    {
      hide PutMeta, DescOf;
      ResolvedReads(Here(), v, luck);
      var d := DescOf(Here(), Vol(v));
      match d.kms {
        case SecretsMetadata => pass := WrappedPassphrase(v, luck);
        case Vault => pass := EntryPassphrase(v, luck);
        case Kmip => pass := ObjectPassphrase(v, luck);
      }
    }

    /** Secrets-metadata: a failed write is read back, and what it finds is preferred. */
    method WrappedPassphrase(v: string, luck: Luck) returns (pass: Option<Pass>)
      requires DescOf(Here(), Vol(v)).kms == SecretsMetadata
      modifies this`meta, this`next
      ensures Here() == Resolved(old(Here()), v, luck)
      ensures pass == if !NoKey(old(Here()), v) then Stored(old(Here()), Vol(v)) else if luck.Fails? then None
              else Some(Random(old(next)))
    {
      hide PutMeta, DescOf;
      var here, key := Here(), Random(next);
      var d := DescOf(here, Vol(v));
      if d.dek.Some? { return d.dek; }
      next := next + 1;
      if luck != Fails { meta := PutMeta(here, Vol(v), d.(dek := Some(key))); }
      if luck == Works { return Some(key); }
      pass := DescOf(Here(), Vol(v)).dek;
      if luck == Fails {
        SameStored(here, Here(), Vol(v));
      } else {
        PutReads(here, Here(), Vol(v), d.(dek := Some(key)), Vol(v));
      }
    }

    /** Vault: a create-only write; on failure the value in place is read. */
    method EntryPassphrase(v: string, luck: Luck) returns (pass: Option<Pass>)
      requires DescOf(Here(), Vol(v)).kms == Vault
      modifies this`vault, this`next
      ensures Here() == Resolved(old(Here()), v, luck)
      ensures pass == if !NoKey(old(Here()), v) then Stored(old(Here()), Vol(v)) else if luck.Fails? then None
              else Some(Random(old(next)))
    {
      hide PutMeta, DescOf;
      var sp, key := Vol(v), Random(next);
      if sp in vault { return Some(vault[sp]); }
      next := next + 1;
      if luck != Fails { vault := vault[sp := key]; }
      if luck == Works { return Some(key); }
      pass := if sp in vault then Some(vault[sp]) else None;
    }

    /** KMIP: register, record the UID; if recording fails, destroy the object again. */
    method ObjectPassphrase(v: string, luck: Luck) returns (pass: Option<Pass>)
      requires DescOf(Here(), Vol(v)).kms == Kmip && next + 1 !in objects
      modifies this`meta, this`objects, this`next
      ensures Here() == Resolved(old(Here()), v, luck)
      ensures pass == if !NoKey(old(Here()), v) then Stored(old(Here()), Vol(v))
              else if luck.Works? then Some(Random(old(next))) else None
    {
      hide PutMeta, DescOf;
      var here, key, uid := Here(), Random(next), next + 1;
      var d := DescOf(here, Vol(v));
      if d.uid.Some? { return if d.uid.value in objects then Some(objects[d.uid.value]) else None; }
      Unregistered(objects, uid, key);
      objects, next := objects[uid := key], next + 1;
      if luck != Fails { meta, next := PutMeta(here, Vol(v), d.(uid := Some(uid))), next + 1; }
      if luck == Works { return Some(key); }
      objects := objects - {uid};
      return None;
    }

    /** luksAddKey: the old passphrase must open the header. */
    method LuksAddKey(v: string, oldPass: Pass, newPass: Pass) returns (ok: bool)
      modifies this`slots
      ensures ok == (Vol(v) in old(slots) && oldPass in old(slots)[Vol(v)])
      ensures slots == if ok then old(slots)[Vol(v) := old(slots)[Vol(v)] + {newPass}] else old(slots)
    {
      ok := Vol(v) in slots && oldPass in slots[Vol(v)];
      if ok { slots := slots[Vol(v) := slots[Vol(v)] + {newPass}]; }
    }

    /** rotateKey of secrets-metadata: mint, splice into the header, overwrite the wrapped key. */
    method RotateWrapped(v: string, oldPass: Pass) returns (ok: bool)
      requires DescOf(Here(), Vol(v)).kms == SecretsMetadata && Vol(v) in slots
      modifies this`meta, this`slots, this`next
      ensures ok == (oldPass in old(slots)[Vol(v)])
      ensures Here() == if ok then Spliced(old(Here()), v) else old(Here()).(next := old(next) + 1)
    {
      hide Spliced, DescOf, PutMeta, Stored;
      var here, pass := Here(), Random(next);
      var d := DescOf(here, Vol(v));
      SplicedWrapped(Here(), v);
      ok := LuksAddKey(v, oldPass, pass);
      next := next + 1;
      if ok { meta := PutMeta(here, Vol(v), d.(dek := Some(pass))); }
    }

    /** rotateKey of Vault: the entry is overwritten. */
    method RotateVault(v: string, oldPass: Pass) returns (ok: bool)
      requires DescOf(Here(), Vol(v)).kms == Vault && Vol(v) in slots
      modifies this`vault, this`slots, this`next
      ensures ok == (oldPass in old(slots)[Vol(v)])
      ensures Here() == if ok then Spliced(old(Here()), v) else old(Here()).(next := old(next) + 1)
    {
      hide Spliced, DescOf, PutMeta, Stored;
      SplicedVault(Here(), v);
      var pass := Random(next);
      ok := LuksAddKey(v, oldPass, pass);
      next := next + 1;
      if ok { vault := vault[Vol(v) := pass]; }
    }

    /** rotateKey of KMIP: a new object, recorded once the header takes its key; then the
        superseded one is destroyed. */
    method RotateKmip(v: string, oldPass: Pass) returns (ok: bool)
      requires DescOf(Here(), Vol(v)).kms == Kmip && Vol(v) in slots && next !in objects
      modifies this`meta, this`objects, this`slots, this`next
      ensures ok == (oldPass in old(slots)[Vol(v)])
      ensures Here() == if ok then Spliced(old(Here()), v) else old(Here()).(next := old(next) + 1)
    {
      hide Spliced, DescOf, PutMeta, Stored;
      var here, pass, uid := Here(), Random(next), next;
      var d := DescOf(here, Vol(v));
      SplicedKmip(Here(), v);
      Unregistered(objects, uid, pass);
      objects, next := objects[uid := pass], next + 1;
      ok := LuksAddKey(v, oldPass, pass);
      if !ok {
        objects := objects - {uid};
        return;
      }
      meta := PutMeta(here, Vol(v), d.(uid := Some(uid)));
      if d.uid.Some? { objects := objects - {d.uid.value}; }
    }

    /** The registry's choice of provider. */
    method RotateKey(v: string, oldPass: Pass) returns (ok: bool)
      requires DescOf(Here(), Vol(v)).kms != NoKms && Vol(v) in slots && next !in objects
      modifies this
      ensures ok == (oldPass in old(slots)[Vol(v)])
      ensures Here() == if ok then Spliced(old(Here()), v) else old(Here()).(next := old(next) + 1)
    {
      hide DescOf, Spliced;
      match DescOf(Here(), Vol(v)).kms {
        case SecretsMetadata => ok := RotateWrapped(v, oldPass);
        case Vault => ok := RotateVault(v, oldPass);
        case Kmip => ok := RotateKmip(v, oldPass);
      }
    }

    /** RotateEncryptionKey: resolve the old passphrase, rotate, retire the old keyslot. */
    method RotateEncryptionKey(v: string) returns (ok: bool)
      requires Vol(v) in slots && forall u | u in objects :: u < next
      modifies this
      ensures ok == Rotates(old(Here()), v) && Here() == Rotated(old(Here()), v)
      ensures DescOf(old(Here()), Vol(v)).kms == NoKms ==> !ok && Here() == old(Here())
      ensures HeaderKnown(old(Here()), v) ==>
                (ok <==> && DescOf(old(Here()), Vol(v)).kms != NoKms && Stored(old(Here()), Vol(v)).Some?
                         && Stored(old(Here()), Vol(v)).value in old(slots)[Vol(v)])
      ensures HeaderKnown(old(Here()), v) && Stored(old(Here()), Vol(v)).Some? && !ok ==>
                Here() == old(Here()).(next := next)
    {
      if HeaderKnown(Here(), v) { RotatesIff(Here(), v); }
      hide DescOf, Stored, NoKey, PutMeta;
      if DescOf(Here(), Vol(v)).kms == NoKms { return false; }
      ResolvedKnown(Here(), v);
      ResolvedReads(Here(), v, Works);
      var oldPass := Passphrase(v, Works);
      if oldPass.None? { return false; }
      ok := RotateKey(v, oldPass.value);
      if !ok { return; }
      slots := slots[Vol(v) := slots[Vol(v)] - {oldPass.value}];
    }

    /** The key identity: a snapshot's own first, else the copy's; then the other; then the source. */
    method InheritKeyId(src: Spec, sp: Spec) returns (key: Spec)
      modifies this`meta
      ensures Here() == WithKeyId(old(Here()), src, sp) && key == InheritedKeyId(old(Here()), src, sp)
    {
      hide PutMeta, DescOf;
      var here := Here();
      var first, second := sp, src;
      if src.Snap? { first, second := second, first; }
      var found := DescOf(here, first).keyId;
      if found.None? { found := DescOf(here, second).keyId; }
      key := src;
      if found.Some? { key := found.value; }
      meta := PutMeta(here, sp, DescOf(here, sp).(keyId := Some(key)));
    }

    /** The KMS id, read in the same order; an empty one is not written. */
    method InheritKms(src: Spec, sp: Spec) returns (kms: Kms)
      modifies this`meta
      ensures Here() == WithKms(old(Here()), src, sp) && kms == InheritedKms(old(Here()), src, sp)
    {
      hide PutMeta, DescOf;
      var here := Here();
      var first, second := sp, src;
      if src.Snap? { first, second := second, first; }
      kms := DescOf(here, first).kms;
      if kms == NoKms { kms := DescOf(here, second).kms; }
      if kms != NoKms { meta := PutMeta(here, sp, DescOf(here, sp).(kms := kms)); }
    }

    /** The wrapped key, read in the same order; an absent one is not written. */
    method InheritDek(src: Spec, sp: Spec)
      modifies this`meta
      ensures Here() == WithDek(old(Here()), src, sp)
    {
      hide PutMeta, DescOf;
      var here := Here();
      var first, second := sp, src;
      if src.Snap? { first, second := second, first; }
      var dek := DescOf(here, first).dek;
      if dek.None? { dek := DescOf(here, second).dek; }
      if dek.Some? { meta := PutMeta(here, sp, DescOf(here, sp).(dek := dek)); }
    }

    /** cloneKey of Vault. */
    method CloneEntry(src: Spec, sp: Spec) returns (ok: bool)
      modifies this`vault
      ensures Here() == WithEntry(old(Here()), src, sp) && ok == EntryTaken(old(Here()), src, sp)
      ensures ok && src in old(vault) ==> sp in vault && vault[sp] == old(vault)[src]
      ensures !ok <==> src in old(vault) && sp in old(vault) && old(vault)[sp] != old(vault)[src]
      ensures forall x :: (x != sp || x in old(vault) || src !in old(vault)) ==>
                (x in vault <==> x in old(vault)) && (x in vault ==> vault[x] == old(vault)[x])
    {
      if src !in vault { return true; }
      if sp in vault { return vault[sp] == vault[src]; }
      vault := vault[sp := vault[src]];
      return true;
    }

    /** cloneKey of KMIP. */
    method CloneObject(src: Spec, sp: Spec) returns (ok: bool)
      modifies this`meta, this`objects, this`next
      ensures Here() == WithObject(old(Here()), src, sp) && ok == ObjectTaken(old(Here()), src, sp)
      ensures var d, e := DescOf(old(Here()), src), DescOf(old(Here()), sp);
              && (!ok <==> d.uid.Some? && e.owner != Some(sp) && d.uid.value !in old(objects))
              && (ok && d.uid.Some? && e.owner != Some(sp) ==>
                    && DescOf(Here(), sp) == e.(uid := Some(old(next)), owner := Some(sp))
                    && objects == old(objects)[old(next) := old(objects)[d.uid.value]])
              && (!ok || d.uid.None? || e.owner == Some(sp) ==> Here() == old(Here()))
    {
      hide PutMeta, DescOf;
      var srcUid := DescOf(Here(), src).uid;
      if srcUid.None? || DescOf(Here(), sp).owner == Some(sp) { return true; }
      if srcUid.value !in objects { return false; }
      var here, d, uid := Here(), DescOf(Here(), sp).(uid := Some(next)), next;
      objects, next := objects[uid := objects[srcUid.value]], next + 1;
      meta := PutMeta(here, sp, d);
      PutAgain(here, Here(), sp, d, d.(owner := Some(sp)));
      ghost var registered := Here();
      meta := PutMeta(Here(), sp, DescOf(Here(), sp).(owner := Some(sp)));
      PutReads(registered, Here(), sp, d.(owner := Some(sp)), sp);
      return true;
    }

    /** The registry's choice of provider; the others have nothing to copy. */
    method CloneKey(kms: Kms, src: Spec, sp: Spec) returns (ok: bool)
      modifies this`meta, this`vault, this`objects, this`next
      ensures Here() == WithKey(old(Here()), kms, src, sp) && ok == KeyTaken(old(Here()), kms, src, sp)
    {
      hide WithEntry, WithObject, EntryTaken, ObjectTaken;
      ok := true;
      if kms == Vault { ok := CloneEntry(src, sp); } else if kms == Kmip { ok := CloneObject(src, sp); }
    }

    /** inheritEncryption; it answers with the key identity to advertise. */
    method InheritEncryption(from: Source, sp: Spec) returns (key: Option<Spec>)
      modifies this
      ensures (Here(), key) == Inheriting(old(Here()), from, sp)
    {
      hide DescOf, InheritedKeyId, InheritedKms, WithKeyId, WithKms, WithDek, WithKey, KeyTaken;
      var src := SourceSpec(Here(), from);
      var keyId := InheritKeyId(src, sp);
      var kms := InheritKms(src, sp);
      InheritDek(src, sp);
      var ok := CloneKey(kms, src, sp);
      key := if ok then Some(keyId) else None;
    }
  }
}
