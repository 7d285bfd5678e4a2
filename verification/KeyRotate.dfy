/** Every command of a key rotation keeps the invariant, whatever else is in flight. */
module KeyRotate {
  import opened Options
  import opened KeyPlane
  import opened KeyInvariant
  import opened KeyFrame

  /** Rotation `r` of volume `v` moved; every other rotation and all bookkeeping did not. */
  ghost predicate Others(w: World, w': World, r: nat) {
    && w'.ready == w.ready && w'.jobs == w.jobs && w'.stages == w.stages && w'.dying == w.dying
    && w'.ctx == w.ctx && w'.root == w.root
    && w'.slots.Keys == w.slots.Keys && w'.meta.Keys == w.meta.Keys
    && (forall q | q != r :: (q in w'.rots <==> q in w.rots) && (q in w.rots ==> w'.rots[q] == w.rots[q]))
  }

  lemma ShapeCarries(w: World, w': World, r: nat)
    requires Shape(w) && Others(w, w', r)
    ensures Shape(w')
  {
    assert forall v :: v in w'.meta <==> v in w.meta;
    assert forall x :: x in w'.slots <==> x in w.slots;
  }

  /** The moved rotation fits in with the rest. */
  ghost predicate TurnFits(w: World, r: nat) {
    r in w.rots ==>
      && RotOk(w, r) && TurnIdsKnown(w, w.rots[r].turn)
      && (forall q | q in w.rots :: RotsApart(w, r, q) && RotsApart(w, q, r))
      && (forall h | h != OfSpec(Vol(w.rots[r].image)) ::
            PriorUidOf(w.rots[r].turn).Some? ==> HeldUid(w, h) != PriorUidOf(w.rots[r].turn))
  }

  lemma RotsCarry(w: World, w': World, r: nat)
    requires RotsOk(w) && Others(w, w', r) && TurnFits(w', r)
    requires forall q | q in w.rots && q != r ::
             SeenPass(w', w.rots[q].turn) == SeenPass(w, w.rots[q].turn) || SeenPass(w', w.rots[q].turn).None?
    requires forall q | q in w.rots && q != r :: RotOk(w', q)
    ensures RotsOk(w')
  {
    forall a, b | a in w'.rots && b in w'.rots ensures RotsApart(w', a, b) {
      if a != r && b != r { assert RotsApart(w, a, b); }
    }
  }

  lemma OthersOk(w: World, w': World, r: nat)
    requires RotsOk(w) && Others(w, w', r)
    requires forall q | q in w.rots && q != r :: Agree(w, w', Vol(w.rots[q].image)) && HeldKept(w, w', OfRotation(q))
    ensures forall q | q in w.rots && q != r :: RotOk(w', q)
  {
    forall q | q in w.rots && q != r ensures RotOk(w', q) { RotCarries(w, w', q); }
  }

  /** Holders keep what they held; the moved rotation lets go or keeps hold. */
  lemma HoldsCarry(w: World, w': World, r: nat)
    requires Exclusive(w) && PriorsPrivate(w) && Others(w, w', r) && TurnFits(w', r)
    requires forall h :: HeldUid(w', h) == HeldUid(w, h) || (h == OfRotation(r) && HeldUid(w', h).None?)
    ensures Exclusive(w') && PriorsPrivate(w')
  {
    forall h, g | h != g && HeldUid(w', h).Some? ensures HeldUid(w', h) != HeldUid(w', g) {
      assert HeldUid(w, h) != HeldUid(w, g);
    }
    forall q, h | q in w'.rots && PriorUidOf(w'.rots[q].turn).Some? && h != OfSpec(Vol(w'.rots[q].image))
      ensures HeldUid(w', h) != PriorUidOf(w'.rots[q].turn)
    {
      if q != r { assert HeldUid(w, h) != PriorUidOf(w.rots[q].turn); }
    }
  }

  lemma IdsCarry(w: World, w': World, r: nat)
    requires IdsKnown(w) && Others(w, w', r) && TurnFits(w', r) && NoStrangers(w, w')
    ensures IdsKnown(w')
  {
    forall q | q in w'.rots ensures TurnIdsKnown(w', w'.rots[q].turn) {
      if q != r { assert TurnIdsKnown(w, w.rots[q].turn); }
    }
    IdsStayKnown(w, w');
  }

  /** Everything but the specs and the copies carries over. */
  lemma RestCarries(w: World, w': World, r: nat)
    requires IdsKnown(w) && Shape(w) && RotsOk(w) && Exclusive(w) && PriorsPrivate(w)
    requires Others(w, w', r) && TurnFits(w', r) && NoStrangers(w, w')
    requires forall q | q in w.rots && q != r :: RotOk(w', q)
    requires forall q | q in w.rots && q != r ::
             SeenPass(w', w.rots[q].turn) == SeenPass(w, w.rots[q].turn) || SeenPass(w', w.rots[q].turn).None?
    requires forall h :: HeldUid(w', h) == HeldUid(w, h) || (h == OfRotation(r) && HeldUid(w', h).None?)
    ensures IdsKnown(w') && Shape(w') && RotsOk(w') && Exclusive(w') && PriorsPrivate(w')
  {
    ShapeCarries(w, w', r);
    IdsCarry(w, w', r);
    RotsCarry(w, w', r);
    HoldsCarry(w, w', r);
  }

  // ---- commands that read, end a rotation, or destroy an object -----------

  /** At most an object was destroyed by rotation `r`: its own unrecorded one, or one it retired. */
  ghost predicate Destroyed(w: World, w': World, r: nat, u: Option<nat>) {
    && w' == w.(objects := w'.objects, rots := w'.rots)
    && w'.objects == (if u.Some? then w.objects - {u.value} else w.objects)
    && (u.Some? ==> forall h | h != OfRotation(r) :: HeldUid(w, h) != u)
  }

  lemma DestroySpec(w: World, w': World, r: nat, u: Option<nat>, x: Spec)
    requires Destroyed(w, w', r, u) && DescOf(w', x) == DescOf(w, x)
    ensures Agree(w, w', x)
  {
    assert HeldUid(w, OfSpec(x)) != u || u.None?;
    hide DescOf;
  }

  lemma DestroyAgrees(w: World, w': World, r: nat, u: Option<nat>)
    requires Destroyed(w, w', r, u)
    ensures forall x :: Agree(w, w', x)
    ensures forall h | h != OfRotation(r) :: HeldKept(w, w', h)
    ensures forall x :: HeldUid(w', OfSpec(x)) == HeldUid(w, OfSpec(x)) && HeldUid(w', OfJob(x)) == HeldUid(w, OfJob(x))
    ensures NoStrangers(w, w')
  {
    forall x ensures DescOf(w', x) == DescOf(w, x) {}
    hide DescOf;
    assert forall x :: Agree(w, w', x) by {
      hide Agree;
      forall x ensures Agree(w, w', x) { DestroySpec(w, w', r, u, x); }
    }
  }

  lemma DestroyHolds(w: World, w': World, r: nat, u: Option<nat>)
    requires Destroyed(w, w', r, u) && Others(w, w', r)
    requires forall x ::
             HeldUid(w', OfSpec(x)) == HeldUid(w, OfSpec(x)) && HeldUid(w', OfJob(x)) == HeldUid(w, OfJob(x))
    ensures forall h | h != OfRotation(r) :: HeldUid(w', h) == HeldUid(w, h)
    ensures forall q | q in w.rots && q != r ::
            SeenPass(w', w.rots[q].turn) == SeenPass(w, w.rots[q].turn) || SeenPass(w', w.rots[q].turn).None?
  {}

  lemma DestroyRest(w: World, w': World, r: nat, u: Option<nat>)
    requires IdsKnown(w) && Shape(w) && RotsOk(w) && Exclusive(w) && PriorsPrivate(w)
    requires Destroyed(w, w', r, u) && Others(w, w', r) && TurnFits(w', r)
    requires HeldUid(w', OfRotation(r)) == HeldUid(w, OfRotation(r)) || HeldUid(w', OfRotation(r)).None?
    ensures IdsKnown(w') && Shape(w') && RotsOk(w') && Exclusive(w') && PriorsPrivate(w')
  {
    hide Agree, RotsOk, IdsKnown, Exclusive, PriorsPrivate, TurnFits, HeldUid, Shape, NoStrangers, SeenPass;
    DestroyAgrees(w, w', r, u);
    DestroyHolds(w, w', r, u);
    OthersOk(w, w', r);
    RestCarries(w, w', r);
  }

  lemma DestroyKeeps(w: World, w': World, r: nat, u: Option<nat>)
    requires Inv(w) && Destroyed(w, w', r, u) && Others(w, w', r) && TurnFits(w', r)
    requires HeldUid(w', OfRotation(r)) == HeldUid(w, OfRotation(r)) || HeldUid(w', OfRotation(r)).None?
    ensures Inv(w')
  {
    DestroyAgrees(w, w', r, u);
    AgreeCarries(w, w');
    DestroyRest(w, w', r, u);
  }

  /** What the invariant says to one rotation. */
  ghost predicate RotFacts(w: World, r: nat) {
    && r in w.rots && TurnFits(w, r)
    && (forall q | q in w.rots :: RotOk(w, q) && TurnIdsKnown(w, w.rots[q].turn))
    && Exclusive(w) && PriorsPrivate(w)
    && IdFactsOf(w, Vol(w.rots[r].image)) && (forall u | u in w.objects :: u < w.next && Known(w, w.objects[u]))
    && Vol(w.rots[r].image) in w.slots && SpecOk(w, Vol(w.rots[r].image))
  }

  ghost predicate IdFactsOf(w: World, v: Spec) {
    KnownOpt(w, Stored(w, v)) && KnownUid(w, DescOf(w, v).uid)
  }

  lemma InvRot(w: World, r: nat)
    requires Inv(w) && r in w.rots
    ensures RotFacts(w, r)
  {
    var v := Vol(w.rots[r].image);
    assert KnownOpt(w, DescOf(w, v).dek) && KnownUid(w, DescOf(w, v).uid);
    assert RotOk(w, r) && TurnIdsKnown(w, w.rots[r].turn);
    forall h | h != OfSpec(v) && PriorUidOf(w.rots[r].turn).Some?
      ensures HeldUid(w, h) != PriorUidOf(w.rots[r].turn) {}
  }

  /** What a reading command may learn: the key or UID the volume has now, or keep what it had. */
  ghost predicate Learnt(w: World, r: nat, t: Turn)
    requires r in w.rots
  {
    var v, was := Vol(w.rots[r].image), w.rots[r].turn;
    && (t.UidRead? || t.HaveOld? || t.HaveUid?)
    && (t.UidRead? ==> DescOf(w, v).kms == Kmip && DescOf(w, v).uid == Some(t.seen))
    && (t.HaveUid? ==> DescOf(w, v).kms == Kmip && t.priorUid == DescOf(w, v).uid)
    && (PriorOf(t).Some? ==> PriorOf(t) == Stored(w, v) || PriorOf(t) == PriorOf(was) || PriorOf(t) == SeenPass(w, was))
  }

  lemma ReadsAreLearnt(w: World, r: nat, a: RotateStep)
    requires CanRotate(w, r, a) && (a.ReadUid? || a.ReadPrior? || a.ReadPriorUid?)
    ensures Learnt(w, r, ReadTurn(w, r, a)) && Rotate(w, r, a) == w.(rots := Turned(w, r, ReadTurn(w, r, a)))
  {}

  lemma LearntApart(w: World, w': World, r: nat, t: Turn)
    requires RotFacts(w, r) && Learnt(w, r, t) && w' == w.(rots := Turned(w, r, t))
    ensures forall q | q in w'.rots :: RotsApart(w', r, q) && RotsApart(w', q, r)
  {
    hide SpecOk, Exclusive, PriorsPrivate, TurnIdsKnown, IdFactsOf;
    forall q | q in w'.rots ensures RotsApart(w', r, q) && RotsApart(w', q, r) {
      assert RotsApart(w, r, q) && RotsApart(w, q, r) && RotOk(w, q);
    }
  }

  lemma LearntOk(w: World, w': World, r: nat, t: Turn)
    requires RotFacts(w, r) && Learnt(w, r, t) && w' == w.(rots := Turned(w, r, t))
    requires Agree(w, w', Vol(w.rots[r].image))
    ensures RotOk(w', r) && TurnIdsKnown(w', w'.rots[r].turn)
  {
    hide SpecOk, Exclusive, PriorsPrivate, RotsApart;
    assert RotOk(w, r) && TurnIdsKnown(w, w.rots[r].turn);
  }

  lemma LearntFits(w: World, w': World, r: nat, t: Turn)
    requires RotFacts(w, r) && Learnt(w, r, t) && w' == w.(rots := Turned(w, r, t))
    ensures TurnFits(w', r)
  {
    assert RotOk(w, r) && Vol(w.rots[r].image) in w.ready;
    hide RotsApart, DescOf, Stored, SpecOk, RotOk, TurnIdsKnown, IdFactsOf, HeldUid, Exclusive, PriorsPrivate, Learnt;
    LearntApart(w, w', r, t);
    DestroyAgrees(w, w', r, None);
    LearntOk(w, w', r, t);
    LearntPriors(w, w', r, t);
  }

  lemma LearntPriors(w: World, w': World, r: nat, t: Turn)
    requires r in w.rots && Exclusive(w) && PriorsPrivate(w) && Learnt(w, r, t)
    requires w' == w.(rots := Turned(w, r, t)) && Vol(w.rots[r].image) in w.ready
    requires forall x ::
             HeldUid(w', OfSpec(x)) == HeldUid(w, OfSpec(x)) && HeldUid(w', OfJob(x)) == HeldUid(w, OfJob(x))
    ensures forall h | h != OfSpec(Vol(w.rots[r].image)) :: PriorUidOf(t).Some? ==> HeldUid(w', h) != PriorUidOf(t)
  {
    hide DescOf, Stored, PriorsPrivate;
    forall h | h != OfSpec(Vol(w.rots[r].image)) && PriorUidOf(t).Some? ensures HeldUid(w', h) != PriorUidOf(t) {
      assert HeldUid(w, OfSpec(Vol(w.rots[r].image))) == PriorUidOf(t);
      assert HeldUid(w, h) != HeldUid(w, OfSpec(Vol(w.rots[r].image)));
      assert HeldUid(w', h) == HeldUid(w, h) || h == OfRotation(r);
    }
  }

  lemma KeepsRead(w: World, r: nat, a: RotateStep)
    requires Inv(w) && CanRotate(w, r, a) && (a.ReadUid? || a.ReadPrior? || a.ReadPriorUid?)
    ensures Inv(Rotate(w, r, a))
  {
    hide IdsKnown, Shape, SpecsOk, JobsOk, RotsOk, Exclusive, PriorsPrivate, TurnFits, Learnt, SpecOk;
    InvRot(w, r);
    ReadsAreLearnt(w, r, a);
    LearntFits(w, Rotate(w, r, a), r, ReadTurn(w, r, a));
    DestroyKeeps(w, Rotate(w, r, a), r, None);
  }

  lemma DieShape(w: World, r: nat)
    requires CanRotate(w, r, Die)
    ensures Rotate(w, r, Die) == w.(rots := w.rots - {r})
  {}

  lemma DieFits(w: World, w': World, r: nat)
    requires w' == w.(rots := w.rots - {r})
    ensures Destroyed(w, w', r, None) && Others(w, w', r) && TurnFits(w', r) && HeldUid(w', OfRotation(r)).None?
  {}

  lemma KeepsDie(w: World, r: nat)
    requires Inv(w) && CanRotate(w, r, Die)
    ensures Inv(Rotate(w, r, Die))
  {
    hide Inv, Destroyed, Others, TurnFits, HeldUid, Rotate, CanRotate;
    DieShape(w, r);
    DieFits(w, Rotate(w, r, Die), r);
    DestroyKeeps(w, Rotate(w, r, Die), r, None);
  }

  lemma KeepsStart(w: World, r: nat, v: string)
    requires Inv(w) && CanRotate(w, r, Start(v))
    ensures Inv(Rotate(w, r, Start(v)))
  {
    hide IdsKnown, Shape, SpecsOk, JobsOk, Exclusive, PriorsPrivate;
    var w' := Rotate(w, r, Start(v));
    DestroyAgrees(w, w', r, None);
    assert RotOk(w', r);
    DestroyKeeps(w, w', r, None);
  }

  // ---- minting -------------------------------------------------------------

  lemma MintKeyReads(w: World, r: nat)
    requires CanRotate(w, r, MintKey)
    ensures forall x :: DescOf(Rotate(w, r, MintKey), x) == DescOf(w, x)
  {}

  /** What minting leaves alone, for a spec and for a holder. */
  lemma MintKeyObject(w: World, r: nat, u: nat)
    requires CanRotate(w, r, MintKey) && u < w.next
    ensures var w' := Rotate(w, r, MintKey);
            (u in w'.objects <==> u in w.objects) && (u in w.objects ==> w'.objects[u] == w.objects[u])
  {}

  lemma MintKeyStores(w: World, r: nat)
    requires CanRotate(w, r, MintKey)
    ensures var w' := Rotate(w, r, MintKey);
            w' == w.(objects := w'.objects, next := w'.next, rots := w'.rots)
  {}

  lemma MintKeySpec(w: World, r: nat, x: Spec)
    requires CanRotate(w, r, MintKey) && KnownUid(w, DescOf(w, x).uid)
    requires DescOf(Rotate(w, r, MintKey), x) == DescOf(w, x)
    ensures Agree(w, Rotate(w, r, MintKey), x)
  {
    hide DescOf, Rotate, CanRotate;
    MintKeyStores(w, r);
    if DescOf(w, x).uid.Some? { MintKeyObject(w, r, DescOf(w, x).uid.value); }
  }

  lemma MintKeyHolder(w: World, w': World, r: nat, h: Holder)
    requires ObjectsGrow(w, w') && Others(w, w', r) && forall x :: DescOf(w', x) == DescOf(w, x)
    ensures HeldKept(w, w', h) && (h != OfRotation(r) ==> HeldUid(w', h) == HeldUid(w, h))
  {
    hide DescOf;
  }

  lemma MintKeyGrows(w: World, r: nat)
    requires CanRotate(w, r, MintKey) && forall u | u in w.objects :: u < w.next
    ensures ObjectsGrow(w, Rotate(w, r, MintKey))
  {}

  lemma MintKeySpecs(w: World, r: nat)
    requires IdsKnown(w) && CanRotate(w, r, MintKey)
    ensures forall x :: Agree(w, Rotate(w, r, MintKey), x)
  {
    hide DescOf, Agree, Rotate, CanRotate;
    MintKeyReads(w, r);
    forall x ensures Agree(w, Rotate(w, r, MintKey), x) {
      assert KnownUid(w, DescOf(w, x).uid);
      MintKeySpec(w, r, x);
    }
  }

  lemma MintKeyHolders(w: World, r: nat)
    requires IdsKnown(w) && CanRotate(w, r, MintKey)
    ensures var w' := Rotate(w, r, MintKey);
            forall h :: HeldKept(w, w', h) && (h != OfRotation(r) ==> HeldUid(w', h) == HeldUid(w, h))
  {
    hide DescOf, HeldKept, HeldUid, ObjectsGrow, Others, Rotate, CanRotate;
    MintKeyReads(w, r);
    MintKeyStrangers(w, r);
    MintKeyGrows(w, r);
    forall h { MintKeyHolder(w, Rotate(w, r, MintKey), r, h); }
  }

  lemma MintKeySeen(w: World, r: nat, t: Turn)
    requires CanRotate(w, r, MintKey) && TurnIdsKnown(w, t)
    ensures SeenPass(Rotate(w, r, MintKey), t) == SeenPass(w, t)
  {
    hide Rotate, CanRotate, KnownOpt, KnownUid;
    if t.UidRead? { MintKeyObject(w, r, t.seen); }
  }

  lemma MintKeyTurns(w: World, r: nat)
    requires IdsKnown(w) && CanRotate(w, r, MintKey)
    ensures forall q | q in w.rots :: SeenPass(Rotate(w, r, MintKey), w.rots[q].turn) == SeenPass(w, w.rots[q].turn)
  {
    hide DescOf, SeenPass, TurnIdsKnown, Rotate, CanRotate;
    forall q | q in w.rots { MintKeySeen(w, r, w.rots[q].turn); }
  }

  lemma MintKeyAgrees(w: World, r: nat)
    requires IdsKnown(w) && CanRotate(w, r, MintKey)
    ensures var w' := Rotate(w, r, MintKey);
            && (forall x :: Agree(w, w', x))
            && (forall h :: HeldKept(w, w', h))
            && (forall h | h != OfRotation(r) :: HeldUid(w', h) == HeldUid(w, h))
            && (forall q | q in w.rots && q != r :: SeenPass(w', w.rots[q].turn) == SeenPass(w, w.rots[q].turn))
  {
    hide IdsKnown, Agree, HeldKept, HeldUid, SeenPass, Rotate, CanRotate;
    MintKeySpecs(w, r);
    MintKeyHolders(w, r);
    MintKeyTurns(w, r);
  }

  lemma MintKeyOk(w: World, r: nat)
    requires r in w.rots && RotOk(w, r) && TurnIdsKnown(w, w.rots[r].turn) && CanRotate(w, r, MintKey)
    requires Agree(w, Rotate(w, r, MintKey), Vol(w.rots[r].image))
    requires KnownOpt(w, Stored(w, Vol(w.rots[r].image))) && KnownUid(w, DescOf(w, Vol(w.rots[r].image)).uid)
    ensures RotOk(Rotate(w, r, MintKey), r) && TurnIdsKnown(Rotate(w, r, MintKey), Rotate(w, r, MintKey).rots[r].turn)
  {
    hide DescOf, Stored;
  }

  lemma MintKeyFits(w: World, r: nat)
    requires RotFacts(w, r) && CanRotate(w, r, MintKey) && IdsKnown(w)
    ensures TurnFits(Rotate(w, r, MintKey), r)
  {
    var w', v := Rotate(w, r, MintKey), Vol(w.rots[r].image);
    MintKeyAgrees(w, r);
    MintKeyOk(w, r);
    hide DescOf, HeldKept, Agree, SpecOk, RotOk, Stored, Exclusive, PriorsPrivate;
    forall q | q in w'.rots ensures RotsApart(w', r, q) && RotsApart(w', q, r) {
      assert RotsApart(w, r, q) && RotsApart(w, q, r) && TurnIdsKnown(w, w.rots[q].turn);
    }
    forall h | h != OfSpec(v) && PriorUidOf(w'.rots[r].turn).Some?
      ensures HeldUid(w', h) != PriorUidOf(w'.rots[r].turn)
    {
      assert h != OfRotation(r) ==> HeldUid(w', h) == HeldUid(w, h);
    }
  }

  lemma MintKeyHolds(w: World, r: nat)
    requires IdsKnown(w) && Exclusive(w) && PriorsPrivate(w) && CanRotate(w, r, MintKey)
    requires TurnFits(Rotate(w, r, MintKey), r)
    ensures Exclusive(Rotate(w, r, MintKey)) && PriorsPrivate(Rotate(w, r, MintKey))
  {
    var w' := Rotate(w, r, MintKey);
    MintKeyAgrees(w, r);
    forall h ensures KnownUid(w, HeldUid(w, h)) { HeldKnown(w, h); }
    forall h, g | h != g && HeldUid(w', h).Some? ensures HeldUid(w', h) != HeldUid(w', g) {
      assert KnownUid(w, HeldUid(w, h)) && KnownUid(w, HeldUid(w, g));
      assert HeldUid(w, h).Some? ==> HeldUid(w, h) != HeldUid(w, g);
      assert HeldUid(w, g).Some? ==> HeldUid(w, h) != HeldUid(w, g);
    }
    forall q, h | q in w'.rots && PriorUidOf(w'.rots[q].turn).Some? && h != OfSpec(Vol(w'.rots[q].image))
      ensures HeldUid(w', h) != PriorUidOf(w'.rots[q].turn)
    {
      if q != r {
        assert TurnIdsKnown(w, w.rots[q].turn);
        assert HeldUid(w, h) != PriorUidOf(w.rots[q].turn);
      }
    }
  }

  lemma MintKeyStrangers(w: World, r: nat)
    requires CanRotate(w, r, MintKey) && forall x :: DescOf(Rotate(w, r, MintKey), x) == DescOf(w, x)
    ensures NoStrangers(w, Rotate(w, r, MintKey)) && Others(w, Rotate(w, r, MintKey), r)
  {
    hide DescOf, Stored;
  }

  lemma MintKeyIds(w: World, r: nat)
    requires IdsKnown(w) && Shape(w) && CanRotate(w, r, MintKey) && TurnFits(Rotate(w, r, MintKey), r)
    ensures IdsKnown(Rotate(w, r, MintKey)) && Shape(Rotate(w, r, MintKey))
  {
    hide Rotate, IdsKnown, Shape, TurnFits, NoStrangers, Others, DescOf;
    MintKeyReads(w, r);
    MintKeyStrangers(w, r);
    ShapeCarries(w, Rotate(w, r, MintKey), r);
    IdsCarry(w, Rotate(w, r, MintKey), r);
  }

  lemma MintKeyRest(w: World, r: nat)
    requires IdsKnown(w) && RotsOk(w) && CanRotate(w, r, MintKey) && Others(w, Rotate(w, r, MintKey), r)
    requires TurnFits(Rotate(w, r, MintKey), r)
    ensures RotsOk(Rotate(w, r, MintKey))
  {
    hide Rotate, CanRotate, IdsKnown, RotsOk, Others, TurnFits, Agree, HeldKept, HeldUid, SeenPass;
    MintKeyAgrees(w, r);
    OthersOk(w, Rotate(w, r, MintKey), r);
    RotsCarry(w, Rotate(w, r, MintKey), r);
  }

  lemma KeepsMintKey(w: World, r: nat)
    requires Inv(w) && CanRotate(w, r, MintKey)
    ensures Inv(Rotate(w, r, MintKey))
  {
    MintKeyReads(w, r);
    MintKeyStrangers(w, r);
    hide Rotate, CanRotate, IdsKnown, Shape, SpecsOk, JobsOk, RotsOk, Exclusive, PriorsPrivate, TurnFits, Agree,
         HeldKept, HeldUid, DescOf, SpecOk, NoStrangers;
    InvRot(w, r);
    MintKeyAgrees(w, r);
    AgreeCarries(w, Rotate(w, r, MintKey));
    MintKeyFits(w, r);
    MintKeyIds(w, r);
    MintKeyRest(w, r);
    MintKeyHolds(w, r);
  }

  lemma KeepsAbort(w: World, r: nat)
    requires Inv(w) && CanRotate(w, r, Abort)
    ensures Inv(Rotate(w, r, Abort))
  {
    hide IdsKnown, Shape, SpecsOk, JobsOk, RotsOk, PriorsPrivate;
    var w', u := Rotate(w, r, Abort), w.rots[r].turn.mintedUid;
    forall h | h != OfRotation(r) && u.Some? ensures HeldUid(w, h) != u {
      assert HeldUid(w, OfRotation(r)) == u;
    }
    DestroyKeeps(w, w', r, u);
  }

  lemma ReapFits(w: World, r: nat, done: bool)
    requires RotFacts(w, r) && CanRotate(w, r, Reap(done))
    requires Agree(w, Rotate(w, r, Reap(done)), Vol(w.rots[r].image))
    ensures TurnFits(Rotate(w, r, Reap(done)), r)
  {
    hide DescOf, Stored, SpecOk, Exclusive, PriorsPrivate;
    var w' := Rotate(w, r, Reap(done));
    forall q | q in w'.rots ensures RotsApart(w', r, q) && RotsApart(w', q, r) {
      assert RotsApart(w, r, q) && RotsApart(w, q, r);
    }
  }

  lemma ReapsOwn(w: World, r: nat, done: bool)
    requires RotFacts(w, r) && CanRotate(w, r, Reap(done))
    ensures Destroyed(w, Rotate(w, r, Reap(done)), r, if done then w.rots[r].turn.priorUid else None)
    ensures Others(w, Rotate(w, r, Reap(done)), r) && HeldUid(Rotate(w, r, Reap(done)), OfRotation(r)).None?
  {
    hide DescOf, Stored, TurnFits, SpecOk, Exclusive;
    var u := if done then w.rots[r].turn.priorUid else None;
    forall h | h != OfRotation(r) && u.Some? ensures HeldUid(w, h) != u {
      assert RotOk(w, r);
    }
  }

  lemma KeepsReap(w: World, r: nat, done: bool)
    requires Inv(w) && CanRotate(w, r, Reap(done))
    ensures Inv(Rotate(w, r, Reap(done)))
  {
    var w' := Rotate(w, r, Reap(done));
    var u := if done then w.rots[r].turn.priorUid else None;
    hide Rotate, TurnFits, SpecsOk, JobsOk, RotsOk, IdsKnown, Exclusive, PriorsPrivate, Shape, Destroyed, Others,
         RotFacts, HeldUid, Agree, DescOf;
    InvRot(w, r);
    ReapsOwn(w, r, done);
    DestroyAgrees(w, w', r, u);
    ReapFits(w, r, done);
    DestroyKeeps(w, w', r, u);
  }

  // ---- keyslots ------------------------------------------------------------

  /** Only the keyslots of `v` changed, and every key someone counts on is still there. */
  ghost predicate SlotStep(w: World, w': World, r: nat, v: string) {
    && w' == w.(slots := w'.slots, rots := w'.rots)
    && Vol(v) in w.slots && Vol(v) in w'.slots && w'.slots == w.slots[Vol(v) := w'.slots[Vol(v)]]
    && w'.slots[Vol(v)] != {}
    && (Stored(w, Vol(v)).Some? ==> Stored(w, Vol(v)).value in w'.slots[Vol(v)])
    && (forall q | q in w.rots && q != r && w.rots[q].image == v && w.rots[q].turn.Applied? ::
          w.rots[q].turn.minted in w'.slots[Vol(v)])
  }

  lemma SlotAgrees(w: World, w': World, r: nat, v: string)
    requires SlotStep(w, w', r, v)
    ensures AgreeBut(w, w', Vol(v))
    ensures forall h :: HeldKept(w, w', h)
    ensures forall x :: HeldUid(w', OfSpec(x)) == HeldUid(w, OfSpec(x)) && HeldUid(w', OfJob(x)) == HeldUid(w, OfJob(x))
    ensures DescOf(w', Vol(v)) == DescOf(w, Vol(v)) && Stored(w', Vol(v)) == Stored(w, Vol(v))
  {
    forall x ensures DescOf(w', x) == DescOf(w, x) && Stored(w', x) == Stored(w, x) {}
  }

  lemma SlotRots(w: World, w': World, r: nat, v: string)
    requires RotsOk(w) && SlotStep(w, w', r, v) && Others(w, w', r)
    ensures forall q | q in w.rots && q != r :: RotOk(w', q)
  {
    SlotAgrees(w, w', r, v);
    forall q | q in w.rots && q != r ensures RotOk(w', q) {
      assert RotOk(w, q);
      if w.rots[q].image != v {
        assert Agree(w, w', Vol(w.rots[q].image)) && HeldKept(w, w', OfRotation(q));
        RotCarries(w, w', q);
      }
    }
  }

  lemma SlotVol(w: World, w': World, r: nat, v: string)
    requires SlotStep(w, w', r, v) && Vol(v) in w.ready && SpecOk(w, Vol(v)) && DescOf(w, Vol(v)).kms != NoKms
    requires DescOf(w', Vol(v)) == DescOf(w, Vol(v)) && Stored(w', Vol(v)) == Stored(w, Vol(v))
    requires w.slots[Vol(v)] != {}
    ensures Vol(v) in w'.slots && SpecOk(w', Vol(v))
  {}

  lemma SlotRest(w: World, w': World, r: nat, v: string)
    requires IdsKnown(w) && Shape(w) && RotsOk(w) && Exclusive(w) && PriorsPrivate(w)
    requires SlotStep(w, w', r, v) && Others(w, w', r) && TurnFits(w', r)
    requires forall q | q in w.rots && q != r :: RotOk(w', q)
    requires HeldUid(w', OfRotation(r)) == HeldUid(w, OfRotation(r)) || HeldUid(w', OfRotation(r)).None?
    requires forall p | p in w'.slots[Vol(v)] :: p in w.slots[Vol(v)] || Known(w', p)
    ensures IdsKnown(w') && Shape(w') && RotsOk(w') && Exclusive(w') && PriorsPrivate(w')
  {
    hide Agree, IdsKnown, Exclusive, PriorsPrivate, RotsOk, RotOk, TurnFits, Shape;
    SlotAgrees(w, w', r, v);
    forall x ensures DescOf(w', x) == DescOf(w, x) {}
    RestCarries(w, w', r);
  }

  lemma SlotKeeps(w: World, w': World, r: nat, v: string)
    requires Inv(w) && SlotStep(w, w', r, v) && Others(w, w', r) && TurnFits(w', r)
    requires r in w.rots && w.rots[r].image == v
    requires HeldUid(w', OfRotation(r)) == HeldUid(w, OfRotation(r)) || HeldUid(w', OfRotation(r)).None?
    requires forall p | p in w'.slots[Vol(v)] :: p in w.slots[Vol(v)] || Known(w', p)
    ensures Inv(w')
  {
    SlotAgrees(w, w', r, v);
    assert RotOk(w, r) && SpecOk(w, Vol(v));
    SlotVol(w, w', r, v);
    VolStepCarries(w, w', v);
    SlotRots(w, w', r, v);
    SlotRest(w, w', r, v);
  }

  lemma AddSlotOk(w: World, w': World, r: nat)
    requires r in w.rots && RotOk(w, r) && TurnIdsKnown(w, w.rots[r].turn) && CanRotate(w, r, AddSlot)
    requires w' == Rotate(w, r, AddSlot)
    requires DescOf(w', Vol(w.rots[r].image)) == DescOf(w, Vol(w.rots[r].image))
    requires Stored(w', Vol(w.rots[r].image)) == Stored(w, Vol(w.rots[r].image))
    ensures RotOk(w', r) && TurnIdsKnown(w', w'.rots[r].turn)
  {
    hide DescOf, Stored;
  }

  lemma AddSlotFits(w: World, r: nat)
    requires RotFacts(w, r) && CanRotate(w, r, AddSlot)
    requires SlotStep(w, Rotate(w, r, AddSlot), r, w.rots[r].image)
    ensures TurnFits(Rotate(w, r, AddSlot), r)
  {
    var w' := Rotate(w, r, AddSlot);
    SlotAgrees(w, w', r, w.rots[r].image);
    AddSlotOk(w, w', r);
    hide SlotStep, SpecOk, DescOf, Stored, Exclusive, PriorsPrivate, AgreeBut, HeldKept, RotOk;
    forall q | q in w'.rots ensures RotsApart(w', r, q) && RotsApart(w', q, r) {
      assert RotsApart(w, r, q) && RotsApart(w, q, r);
    }
    assert forall h :: HeldUid(w', h) == HeldUid(w, h);
  }

  lemma KeepsAddSlot(w: World, r: nat)
    requires Inv(w) && CanRotate(w, r, AddSlot)
    ensures Inv(Rotate(w, r, AddSlot))
  {
    hide TurnFits, SpecsOk, JobsOk, IdsKnown, Exclusive, PriorsPrivate, Shape;
    var w', v := Rotate(w, r, AddSlot), w.rots[r].image;
    InvRot(w, r);
    assert RotOk(w, r) && SpecOk(w, Vol(v));
    assert SlotStep(w, w', r, v) by {
      forall q | q in w.rots && q != r && w.rots[q].image == v && w.rots[q].turn.Applied?
        ensures w.rots[q].turn.minted in w'.slots[Vol(v)] { assert RotOk(w, q); }
    }
    AddSlotFits(w, r);
    SlotKeeps(w, w', r, v);
  }

  lemma RemoveSlotShape(w: World, r: nat)
    requires CanRotate(w, r, RemoveSlot) && RotsOk(w) && Vol(w.rots[r].image) in w.slots
    requires SpecOk(w, Vol(w.rots[r].image))
    ensures SlotStep(w, Rotate(w, r, RemoveSlot), r, w.rots[r].image)
  {
    var w', v := Rotate(w, r, RemoveSlot), w.rots[r].image;
    assert RotOk(w, r);
    assert Stored(w, Vol(v)).value in w'.slots[Vol(v)];
    forall q | q in w.rots && q != r && w.rots[q].image == v && w.rots[q].turn.Applied?
      ensures w.rots[q].turn.minted in w'.slots[Vol(v)] { assert RotOk(w, q) && RotsApart(w, q, r); }
  }

  lemma KeepsRemoveSlot(w: World, r: nat)
    requires Inv(w) && CanRotate(w, r, RemoveSlot)
    ensures Inv(Rotate(w, r, RemoveSlot))
  {
    hide TurnFits, SpecsOk, JobsOk, IdsKnown, Exclusive, PriorsPrivate, Shape, SlotStep, SpecOk, RotOk;
    InvRot(w, r);
    RemoveSlotShape(w, r);
    SlotKeeps(w, Rotate(w, r, RemoveSlot), r, w.rots[r].image);
  }

  // ---- persisting ----------------------------------------------------------

  /** The minted key of `r` became the stored key of `v`; nothing else did. */
  ghost predicate PersistedStep(w: World, w': World, r: nat)
    requires r in w.rots && w.rots[r].turn.Applied?
  {
    var v, t := Vol(w.rots[r].image), w.rots[r].turn;
    && w'.slots == w.slots && w'.objects == w.objects && w'.next == w.next
    && (forall x | x != v :: DescOf(w', x) == DescOf(w, x))
    && (forall x | x != v :: (x in w'.vault <==> x in w.vault) && (x in w.vault ==> w'.vault[x] == w.vault[x]))
    && (v in w'.vault ==> (v in w.vault && w'.vault[v] == w.vault[v]) || w'.vault[v] == t.minted)
    && DescOf(w', v).kms == DescOf(w, v).kms && DescOf(w', v).keyId == DescOf(w, v).keyId
    && DescOf(w', v).owner == DescOf(w, v).owner
    && (DescOf(w', v).dek == DescOf(w, v).dek || DescOf(w', v).dek == Some(t.minted))
    && DescOf(w', v).uid == (if DescOf(w, v).kms == Kmip then t.mintedUid else DescOf(w, v).uid)
    && Stored(w', v) == Some(t.minted)
  }

  lemma PersistEffect(w: World, r: nat, acked: bool)
    requires CanRotate(w, r, Persist(acked)) && RotOk(w, r) && w.rots[r].image in w.meta
    ensures PersistedStep(w, Rotate(w, r, Persist(acked)), r)
    ensures Others(w, Rotate(w, r, Persist(acked)), r)
  {
    var w', v := Rotate(w, r, Persist(acked)), Vol(w.rots[r].image);
    forall x | x != v ensures DescOf(w', x) == DescOf(w, x) {}
  }

  lemma PersistAgrees(w: World, w': World, r: nat)
    requires r in w.rots && w.rots[r].turn.Applied? && PersistedStep(w, w', r) && Others(w, w', r)
    ensures AgreeBut(w, w', Vol(w.rots[r].image))
    ensures forall h :: HeldKept(w, w', h)
    ensures forall h | h != OfRotation(r) && h != OfSpec(Vol(w.rots[r].image)) :: HeldUid(w', h) == HeldUid(w, h)
  {
    var v := Vol(w.rots[r].image);
    forall x | x != v ensures Agree(w, w', x) { assert DescOf(w', x) == DescOf(w, x); }
    forall h | h != OfRotation(r) && h != OfSpec(v) ensures HeldUid(w', h) == HeldUid(w, h) {
      if h.OfSpec? { assert DescOf(w', h.sp) == DescOf(w, h.sp); }
    }
  }

  lemma PersistVol(w: World, w': World, r: nat)
    requires r in w.rots && w.rots[r].turn.Applied? && PersistedStep(w, w', r) && Others(w, w', r) && RotOk(w, r)
    requires SpecOk(w, Vol(w.rots[r].image))
    ensures Vol(w.rots[r].image) in w'.slots && SpecOk(w', Vol(w.rots[r].image))
    ensures DescOf(w, Vol(w.rots[r].image)).uid.Some? ==> DescOf(w', Vol(w.rots[r].image)).uid.Some?
  {}

  /** Every other rotation of the volume survives the new key. */
  lemma PersistRots(w: World, w': World, r: nat)
    requires r in w.rots && w.rots[r].turn.Applied? && PersistedStep(w, w', r) && Others(w, w', r)
    requires RotsOk(w) && PriorsPrivate(w)
    ensures forall q | q in w.rots && q != r :: RotOk(w', q)
  {
    PersistAgrees(w, w', r);
    forall q | q in w.rots && q != r ensures RotOk(w', q) {
      assert RotOk(w, q) && RotOk(w, r) && RotsApart(w, r, q);
      if w.rots[q].image != w.rots[r].image {
        assert Agree(w, w', Vol(w.rots[q].image)) && HeldKept(w, w', OfRotation(q));
        RotCarries(w, w', q);
      } else if w.rots[q].turn.Persisted? {
        assert HeldUid(w, OfRotation(r)) != PriorUidOf(w.rots[q].turn) || PriorUidOf(w.rots[q].turn).None?;
      }
    }
  }

  lemma PersistFits(w: World, w': World, r: nat)
    requires r in w.rots && w.rots[r].turn.Applied? && PersistedStep(w, w', r) && Others(w, w', r) && TurnFits(w, r)
    requires r in w'.rots ==> w'.rots[r] == w.rots[r].(turn := Persisted(w.rots[r].turn.prior, w.rots[r].turn.priorUid))
    requires PriorsPrivate(w)
    ensures TurnFits(w', r)
  {
    PersistAgrees(w, w', r);
    if r in w'.rots {
      assert RotsApart(w, r, r);
      forall q | q in w'.rots ensures RotsApart(w', r, q) && RotsApart(w', q, r) {
        assert RotsApart(w, r, q) && RotsApart(w, q, r);
      }
      assert HeldUid(w, OfRotation(r)) != PriorUidOf(w.rots[r].turn) || PriorUidOf(w.rots[r].turn).None?;
    }
  }

  lemma PersistHolds(w: World, w': World, r: nat)
    requires r in w.rots && w.rots[r].turn.Applied? && PersistedStep(w, w', r) && Others(w, w', r) && RotOk(w, r)
    requires r in w'.rots ==>
             w'.rots[r].turn.Persisted? && w'.rots[r].turn.priorUid == w.rots[r].turn.priorUid &&
                 w'.rots[r].image == w.rots[r].image
    requires Exclusive(w) && PriorsPrivate(w)
    ensures Exclusive(w') && PriorsPrivate(w')
  {
    PersistAgrees(w, w', r);
    var v := Vol(w.rots[r].image);
    assert HeldUid(w', OfSpec(v)) == HeldUid(w, OfSpec(v)) || HeldUid(w', OfSpec(v)) == HeldUid(w, OfRotation(r));
    forall h, g | h != g && HeldUid(w', h).Some? ensures HeldUid(w', h) != HeldUid(w', g) {
      assert HeldUid(w, h).Some? ==> HeldUid(w, h) != HeldUid(w, g);
      assert HeldUid(w, g).Some? ==> HeldUid(w, h) != HeldUid(w, g);
      assert h != OfRotation(r) && HeldUid(w, h).Some? ==> HeldUid(w, h) != HeldUid(w, OfRotation(r));
      assert g != OfRotation(r) && HeldUid(w, g).Some? ==> HeldUid(w, g) != HeldUid(w, OfRotation(r));
    }
    forall q, h | q in w'.rots && PriorUidOf(w'.rots[q].turn).Some? && h != OfSpec(Vol(w'.rots[q].image))
      ensures HeldUid(w', h) != PriorUidOf(w'.rots[q].turn)
    {
      assert q in w.rots && PriorUidOf(w.rots[q].turn) == PriorUidOf(w'.rots[q].turn);
      assert HeldUid(w, h) != PriorUidOf(w.rots[q].turn);
      assert HeldUid(w, OfRotation(r)) != PriorUidOf(w.rots[q].turn);
    }
  }

  lemma PersistStrangers(w: World, w': World, r: nat)
    requires r in w.rots && w.rots[r].turn.Applied? && PersistedStep(w, w', r) && Others(w, w', r) && IdsKnown(w)
    ensures NoStrangers(w, w')
  {
    hide DescOf, Stored;
    var v := Vol(w.rots[r].image);
    assert TurnIdsKnown(w, w.rots[r].turn) && KnownOpt(w, DescOf(w, v).dek) && KnownUid(w, DescOf(w, v).uid);
  }

  lemma PersistIds(w: World, w': World, r: nat)
    requires r in w.rots && w.rots[r].turn.Applied? && PersistedStep(w, w', r) && Others(w, w', r) && TurnFits(w', r)
    requires IdsKnown(w) && Shape(w)
    ensures IdsKnown(w') && Shape(w')
  {
    hide PersistedStep, NoStrangers, TurnFits, Others, IdsKnown, Shape;
    ShapeCarries(w, w', r);
    PersistStrangers(w, w', r);
    IdsCarry(w, w', r);
  }

  lemma PersistRest(w: World, w': World, r: nat)
    requires r in w.rots && w.rots[r].turn.Applied? && PersistedStep(w, w', r) && Others(w, w', r)
    requires r in w'.rots ==> w'.rots[r] == w.rots[r].(turn := Persisted(w.rots[r].turn.prior, w.rots[r].turn.priorUid))
    requires RotFacts(w, r) && IdsKnown(w) && Shape(w) && RotsOk(w)
    ensures IdsKnown(w') && Shape(w') && RotsOk(w') && Exclusive(w') && PriorsPrivate(w')
  {
    PersistSeen(w, w', r);
    hide PersistedStep, Others, TurnFits, IdsKnown, Shape, RotsOk, Exclusive, PriorsPrivate, RotOk, SpecOk, SeenPass;
    PersistFits(w, w', r);
    PersistIds(w, w', r);
    PersistRots(w, w', r);
    RotsCarry(w, w', r);
    PersistHolds(w, w', r);
  }

  lemma PersistSeen(w: World, w': World, r: nat)
    requires r in w.rots && w.rots[r].turn.Applied? && PersistedStep(w, w', r)
    ensures forall q | q in w.rots :: SeenPass(w', w.rots[q].turn) == SeenPass(w, w.rots[q].turn)
  {}

  lemma KeepsPersist(w: World, r: nat, acked: bool)
    requires Inv(w) && CanRotate(w, r, Persist(acked)) && KeyUnwatched(w, w.rots[r].image)
    ensures Inv(Rotate(w, r, Persist(acked)))
  {
    var w', v := Rotate(w, r, Persist(acked)), Vol(w.rots[r].image);
    InvRot(w, r);
    assert RotOk(w, r) && SpecOk(w, v);
    PersistEffect(w, r, acked);
    PersistAgrees(w, w', r);
    PersistVol(w, w', r);
    assert VolStep(w, w', w.rots[r].image);
    VolStepCarries(w, w', w.rots[r].image);
    PersistRest(w, w', r);
  }

  lemma KeepsRotate(w: World, r: nat, a: RotateStep)
    requires Inv(w) && CanRotate(w, r, a) && Admitted(w, DoRotate(r, a))
    ensures Inv(Rotate(w, r, a))
  {
    match a
    case Start(v) => KeepsStart(w, r, v);
    case ReadUid => KeepsRead(w, r, a);
    case ReadPrior => KeepsRead(w, r, a);
    case ReadPriorUid => KeepsRead(w, r, a);
    case Die => KeepsDie(w, r);
    case MintKey => KeepsMintKey(w, r);
    case AddSlot => KeepsAddSlot(w, r);
    case Abort => KeepsAbort(w, r);
    case Persist(acked) => KeepsPersist(w, r, acked);
    case Reap(done) => KeepsReap(w, r, done);
    case RemoveSlot => KeepsRemoveSlot(w, r);
  }
}
