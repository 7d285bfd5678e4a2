/** Every command of CreateVolume, NodeStage and CreateSnapshot before the key is copied
    keeps the invariant. */
module KeyProvision {
  import opened Options
  import opened KeyPlane
  import opened KeyInvariant
  import opened KeyFrame

  /** Rotations and stores are as they were. */
  ghost predicate StoresSame(w: World, w': World) {
    w'.rots == w.rots && w'.vault == w.vault && w'.objects == w.objects && w'.next == w.next
  }

  /** A step that touches no store and lets nobody take hold of an object. */
  lemma StoreFree(w: World, w': World, T: iset<Spec>)
    requires Inv(w) && StoresSame(w, w') && AgreeOff(w, w', T) && TouchedOk(w, w', T)
    requires Shape(w') && NoStrangers(w, w')
    requires forall r | r in w.rots && Vol(w.rots[r].image) in T :: RotOk(w', r)
    requires forall h :: HeldUid(w', h) == HeldUid(w, h) || HeldUid(w', h).None?
    ensures Inv(w')
  {
    hide AgreeOff, TouchedOk, Shape, NoStrangers, SpecsOk, JobsOk, RotsOk, IdsKnown, Exclusive, PriorsPrivate, HeldUid,
         RotOk;
    OffCarries(w, w', T);
    OffRots(w, w', T);
    IdsStayKnown(w, w');
    OffHolds(w, w', OfRotation(0));
  }

  /** No unfinished copy reads a touched spec. */
  ghost predicate SourcesOff(w: World, T: iset<Spec>) {
    forall x | x in w.jobs && x !in T && x !in w.ready && w.jobs[x].Copy? ::
      Vol(w.jobs[x].from.image) !in T && SourceOf(w.jobs[x].from) !in T
  }

  lemma SourcesCarry(w: World, w': World, T: iset<Spec>)
    requires JobsOk(w) && AgreeOff(w, w', T) && SourcesOff(w, T)
    ensures forall x | x !in T && x in w.jobs :: SourceHolds(w, w', x)
  {
    forall x | x !in T && x in w.jobs ensures SourceHolds(w, w', x) { OffSource(w, w', T, x); }
  }

  lemma HoldsOff(w: World, w': World, T: iset<Spec>)
    requires AgreeOff(w, w', T) && w'.rots == w.rots
    requires forall x | x in T :: HeldUid(w', OfSpec(x)).None? || HeldUid(w', OfSpec(x)) == HeldUid(w, OfSpec(x))
    requires forall x | x in T :: HeldUid(w', OfJob(x)).None? || HeldUid(w', OfJob(x)) == HeldUid(w, OfJob(x))
    ensures forall h :: HeldUid(w', h) == HeldUid(w, h) || HeldUid(w', h).None?
  {
    forall h ensures HeldUid(w', h) == HeldUid(w, h) || HeldUid(w', h).None? {
      if !h.OfRotation? && h.sp !in T { assert Agree(w, w', h.sp); }
    }
  }

  /** A step on one spec that is no finished volume. */
  lemma OneSpec(w: World, w': World, sp: Spec)
    requires Inv(w) && StoresSame(w, w') && AgreeBut(w, w', sp) && Shape(w') && NoStrangers(w, w')
    requires (sp.Vol? ==> sp !in w.ready) && forall x | x != sp && x in w.jobs :: SourceHolds(w, w', x)
    requires sp in w'.ready ==> sp in w'.slots && SpecOk(w', sp)
    requires sp in w'.jobs ==> JobOk(w', sp)
    requires HeldUid(w', OfSpec(sp)).None? || HeldUid(w', OfSpec(sp)) == HeldUid(w, OfSpec(sp))
    requires HeldUid(w', OfJob(sp)).None? || HeldUid(w', OfJob(sp)) == HeldUid(w, OfJob(sp))
    ensures Inv(w')
  {
    hide Agree, JobOk, SourceHolds, Shape, NoStrangers, JobsOk, IdsKnown, Exclusive, PriorsPrivate, HeldUid, RotsApart;
    var T := iset{sp};
    assert AgreeOff(w, w', T);
    HoldsOff(w, w', T);
    forall x | x !in T && x in w.ready && x.Snap? ensures Vol(x.image) !in T { assert SpecOk(w, x); }
    forall r | r in w.rots ensures Vol(w.rots[r].image) !in T { assert RotOk(w, r); }
    StoreFree(w, w', T);
  }

  // ---- a plain volume ------------------------------------------------------

  lemma CreateImageShape(w: World, v: string, kms: Kms)
    requires Shape(w) && CanProvision(w, CreateImage(v, kms))
    ensures Shape(CreateImageStep(w, v, kms)) && Vol(v) !in w.ready
  {}

  lemma CreateImageReads(w: World, v: string, kms: Kms)
    requires Shape(w) && CanProvision(w, CreateImage(v, kms))
    ensures forall x :: DescOf(CreateImageStep(w, v, kms), x) == DescOf(w, x)
  {
    assert v !in w.meta;
  }

  lemma CreateImageEffect(w: World, v: string, kms: Kms)
    requires forall x :: DescOf(CreateImageStep(w, v, kms), x) == DescOf(w, x)
    ensures AgreeBut(w, CreateImageStep(w, v, kms), Vol(v)) && StoresSame(w, CreateImageStep(w, v, kms))
  {
    hide DescOf;
  }

  lemma CreateImageIds(w: World, v: string, kms: Kms)
    requires forall x :: DescOf(CreateImageStep(w, v, kms), x) == DescOf(w, x)
    ensures NoStrangers(w, CreateImageStep(w, v, kms))
  {}

  lemma CreateImageOk(w: World, v: string, kms: Kms)
    requires Vol(v) !in w.ready && Vol(v) !in w.dying
    ensures var w' := CreateImageStep(w, v, kms);
            && Vol(v) !in w'.ready && Vol(v) in w'.jobs && JobOk(w', Vol(v))
            && HeldUid(w', OfSpec(Vol(v))).None? && HeldUid(w', OfJob(Vol(v))).None?
  {
    assert DescOf(CreateImageStep(w, v, kms), Vol(v)) == BLANK;
  }

  lemma KeepsCreateImage(w: World, v: string, kms: Kms)
    requires Inv(w) && CanProvision(w, CreateImage(v, kms)) && Uncopied(w, v)
    ensures Inv(CreateImageStep(w, v, kms))
  {
    hide CreateImageStep, StoresSame, Agree, JobOk, NoStrangers, SpecsOk, RotsOk, IdsKnown, Exclusive, PriorsPrivate,
         HeldUid, SpecOk, JobsOk, SourceHolds;
    CreateImageShape(w, v, kms);
    assert Vol(v) !in w.dying by { assert Shape(w); }
    CreateImageReads(w, v, kms);
    CreateImageEffect(w, v, kms);
    CreateImageIds(w, v, kms);
    CreateImageOk(w, v, kms);
    assert SourcesOff(w, iset{Vol(v)}) by {
      forall x | x in w.jobs && x !in w.ready && w.jobs[x].Copy? ensures w.jobs[x].from.image != v {
        assert !Copying(w, x, v);
      }
    }
    SourcesCarry(w, CreateImageStep(w, v, kms), iset{Vol(v)});
    OneSpec(w, CreateImageStep(w, v, kms), Vol(v));
  }

  lemma RecordKmsShape(w: World, v: string)
    requires Shape(w) && CanProvision(w, RecordKms(v)) && Vol(v) in w.slots
    ensures Shape(RecordKmsStep(w, v))
  {}

  lemma RecordKmsEffect(w: World, v: string)
    requires CanProvision(w, RecordKms(v)) && DescOf(w, Vol(v)) == BLANK
    ensures var w' := RecordKmsStep(w, v);
            && AgreeBut(w, w', Vol(v)) && StoresSame(w, w') && NoStrangers(w, w')
            && DescOf(w', Vol(v)) == BLANK.(kms := w.jobs[Vol(v)].want)
  {
    var w', d := RecordKmsStep(w, v), BLANK.(kms := w.jobs[Vol(v)].want);
    forall x ensures DescOf(w', x) == if x == Vol(v) then d else DescOf(w, x) { PutReads(w, w', Vol(v), d, x); }
  }

  lemma RecordKmsOk(w: World, w': World, v: string)
    requires CanProvision(w, RecordKms(v)) && JobOk(w, Vol(v)) && w' == RecordKmsStep(w, v)
    requires DescOf(w', Vol(v)) == BLANK.(kms := w.jobs[Vol(v)].want)
    ensures Vol(v) in w'.slots && SpecOk(w', Vol(v)) && Vol(v) !in w'.jobs
    ensures HeldUid(w', OfSpec(Vol(v))).None? && HeldUid(w', OfJob(Vol(v))).None?
  {}

  lemma KeepsRecordKms(w: World, v: string)
    requires Inv(w) && CanProvision(w, RecordKms(v))
    ensures Inv(RecordKmsStep(w, v))
  {
    hide RecordKmsStep, StoresSame, Agree, NoStrangers, Shape, SpecsOk, RotsOk, IdsKnown, Exclusive, PriorsPrivate,
         HeldUid, SpecOk, SourceHolds;
    assert JobOk(w, Vol(v));
    RecordKmsShape(w, v);
    RecordKmsEffect(w, v);
    RecordKmsOk(w, RecordKmsStep(w, v), v);
    assert SourcesOff(w, iset{Vol(v)}) by {
      forall x | x in w.jobs && x !in w.ready && w.jobs[x].Copy? ensures w.jobs[x].from.image != v {
        assert JobOk(w, x);
      }
    }
    SourcesCarry(w, RecordKmsStep(w, v), iset{Vol(v)});
    OneSpec(w, RecordKmsStep(w, v), Vol(v));
  }

  // ---- snapshots, temporary ones included, and captures run again ----------

  lemma ReadyVol(w: World, v: string)
    requires Inv(w) && Vol(v) in w.ready
    ensures Vol(v) in w.slots && SpecOk(w, Vol(v)) && v in w.meta
  {}

  /** Nothing an unfinished copy reads has changed. */
  lemma SourcesStay(w: World, w': World, sp: Spec)
    requires JobsOk(w) && (forall x :: DescOf(w', x) == DescOf(w, x) && Stored(w', x) == Stored(w, x))
    requires forall x | x in w.ready :: x in w'.ready && RootOf(w', x) == RootOf(w, x)
    requires forall x | x != sp :: x in w'.jobs <==> x in w.jobs
    requires forall x | x in w'.ready && x !in w.ready ::
             x == sp && sp.Snap? && Vol(sp.image) in w.ready && DescOf(w, Vol(sp.image)).kms == NoKms
    requires sp in w'.jobs && sp !in w'.ready ==>
             if sp.Vol? then Uncopied(w, sp.image) else Unrestored(w, sp.image, sp.snap)
    ensures forall x | x != sp && x in w.jobs :: SourceHolds(w, w', x)
  {
    forall x | x != sp && x in w.jobs ensures SourceHolds(w, w', x) {
      assert JobOk(w, x);
      if sp in w'.jobs && sp !in w'.ready && w.jobs[x].Copy? && w.jobs[x].from.image == sp.image && x !in w.ready {
        assert Copying(w, x, sp.image);
      }
    }
  }

  lemma TakeSnapshotShape(w: World, v: string, s: string)
    requires Shape(w) && CanProvision(w, TakeSnapshot(v, s)) && Snap(v, s) !in w.dying
    ensures Shape(TakeSnapshotStep(w, v, s)) && Snap(v, s) !in w.ready
  {}

  lemma TakeSnapshotEffect(w: World, v: string, s: string)
    requires CanProvision(w, TakeSnapshot(v, s)) && Snap(v, s) !in w.ready
    ensures var w' := TakeSnapshotStep(w, v, s);
            && AgreeBut(w, w', Snap(v, s)) && StoresSame(w, w')
            && (forall x :: DescOf(w', x) == DescOf(w, x) && Stored(w', x) == Stored(w, x))
            && w.ready <= w'.ready
            && (w'.ready <= w.ready || (DescOf(w, Vol(v)).kms == NoKms && w'.ready == w.ready + {Snap(v, s)}))
            && (forall x | x != Snap(v, s) :: (x in w'.jobs <==> x in w.jobs) && RootOf(w', x) == RootOf(w, x))
  {
    var w' := TakeSnapshotStep(w, v, s);
    forall x ensures DescOf(w', x) == DescOf(w, x) && Stored(w', x) == Stored(w, x) {}
  }

  lemma TakeSnapshotIds(w: World, v: string, s: string)
    requires CanProvision(w, TakeSnapshot(v, s)) && IdsKnown(w)
    ensures NoStrangers(w, TakeSnapshotStep(w, v, s))
  {
    var w' := TakeSnapshotStep(w, v, s);
    forall x ensures DescOf(w', x) == DescOf(w, x) {}
    forall p | p in w.slots[Vol(v)] ensures Known(w', p) { assert Known(w, p); }
  }

  lemma SnapshotOk(w: World, v: string, s: string)
    requires CanProvision(w, TakeSnapshot(v, s)) && SpecOk(w, Vol(v)) && Snap(v, s) !in w.ready
    requires DescOf(w, Snap(v, s)) == BLANK && HasKmipUid(w, v)
    ensures var w', sp := TakeSnapshotStep(w, v, s), Snap(v, s);
            && (sp in w'.ready ==> sp in w'.slots && SpecOk(w', sp))
            && (sp in w'.jobs && DescOf(w, Vol(v)).kms != NoKms ==> JobOk(w', sp))
  {
    var w', sp := TakeSnapshotStep(w, v, s), Snap(v, s);
    forall x ensures DescOf(w', x) == DescOf(w, x) && Stored(w', x) == Stored(w, x) {}
    assert RootOf(w', Vol(v)) == RootOf(w, Vol(v));
  }

  lemma SnapshotHolds(w: World, v: string, s: string)
    requires CanProvision(w, TakeSnapshot(v, s)) && DescOf(w, Snap(v, s)) == BLANK
    ensures HeldUid(TakeSnapshotStep(w, v, s), OfSpec(Snap(v, s))).None?
    ensures HeldUid(TakeSnapshotStep(w, v, s), OfJob(Snap(v, s))).None? ||
            HeldUid(TakeSnapshotStep(w, v, s), OfJob(Snap(v, s))) == HeldUid(w, OfJob(Snap(v, s)))
  {
    assert DescOf(TakeSnapshotStep(w, v, s), Snap(v, s)) == BLANK;
  }

  lemma TakeSnapshotFacts(w: World, v: string, s: string)
    requires Inv(w) && CanProvision(w, TakeSnapshot(v, s)) && DescOf(w, Vol(v)).kms == NoKms
    ensures Snap(v, s) !in TakeSnapshotStep(w, v, s).jobs
  {}

  lemma KeepsTakeSnapshot(w: World, v: string, s: string)
    requires Inv(w) && CanProvision(w, TakeSnapshot(v, s)) && Admitted(w, DoProvision(TakeSnapshot(v, s)))
    ensures Inv(TakeSnapshotStep(w, v, s))
  {
    hide TakeSnapshotStep, StoresSame, AgreeBut, RotsOk, Exclusive, PriorsPrivate, SpecsOk, SpecOk, SourceHolds,
         NoStrangers, JobsOk, JobOk, Shape, IdsKnown, HeldUid, DescOf, Stored, RootOf;
    var w', sp := TakeSnapshotStep(w, v, s), Snap(v, s);
    ReadyVol(w, v);
    if DescOf(w, Vol(v)).kms == NoKms { TakeSnapshotFacts(w, v, s); }
    TakeSnapshotShape(w, v, s);
    TakeSnapshotEffect(w, v, s);
    TakeSnapshotIds(w, v, s);
    SnapshotOk(w, v, s);
    SourcesStay(w, w', sp);
    SnapshotHolds(w, v, s);
    OneSpec(w, w', sp);
  }

  /** A new job changes nothing but the jobs. */
  lemma NewJobEffect(w: World, sp: Spec, j: Job)
    ensures AgreeBut(w, NewJob(w, sp, j), sp) && StoresSame(w, NewJob(w, sp, j))
    ensures forall x :: DescOf(NewJob(w, sp, j), x) == DescOf(w, x) && Stored(NewJob(w, sp, j), x) == Stored(w, x)
    ensures forall x :: RootOf(NewJob(w, sp, j), x) == RootOf(w, x)
    ensures JobIdsKnown(w, j) ==> NoStrangers(w, NewJob(w, sp, j))
    ensures Shape(w) && sp !in w.dying ==> Shape(NewJob(w, sp, j))
  {
    forall x ensures DescOf(NewJob(w, sp, j), x) == DescOf(w, x) && Stored(NewJob(w, sp, j), x) == Stored(w, x) {}
  }

  lemma TempSnapshotOk(w: World, v: string, x: string)
    requires CanProvision(w, TempSnapshot(v, x)) && SpecOk(w, Vol(v)) && Vol(x) !in w.ready && HasKmipUid(w, v)
    ensures JobOk(TempSnapshotStep(w, v, x), Vol(x))
  {
    var w' := TempSnapshotStep(w, v, x);
    forall y ensures DescOf(w', y) == DescOf(w, y) && Stored(w', y) == Stored(w, y) {}
  }

  lemma TempSnapshotFacts(w: World, v: string, x: string)
    requires Inv(w) && CanProvision(w, TempSnapshot(v, x))
    ensures SpecOk(w, Vol(v)) && Vol(x) !in w.ready && Vol(x) !in w.dying
    ensures JobIdsKnown(w, TempSnapshotStep(w, v, x).jobs[Vol(x)])
    ensures var w' := TempSnapshotStep(w, v, x); HeldUid(w', OfSpec(Vol(x))).None? && HeldUid(w', OfJob(Vol(x))).None?
  {
    hide Exclusive, PriorsPrivate, RotsOk, JobsOk;
    assert forall p | p in w.slots[Vol(v)] :: Known(w, p);
  }

  lemma KeepsTempSnapshot(w: World, v: string, x: string)
    requires Inv(w) && CanProvision(w, TempSnapshot(v, x)) && Admitted(w, DoProvision(TempSnapshot(v, x)))
    ensures Inv(TempSnapshotStep(w, v, x))
  {
    hide StoresSame, AgreeBut, RotsOk, Exclusive, PriorsPrivate, SpecsOk, SpecOk, SourceHolds, NoStrangers, JobsOk,
         JobOk, Shape, IdsKnown, JobIdsKnown, DescOf, Stored, RootOf, HeldUid;
    var w', sp := TempSnapshotStep(w, v, x), Vol(x);
    TempSnapshotFacts(w, v, x);
    NewJobEffect(w, sp, w'.jobs[sp]);
    TempSnapshotOk(w, v, x);
    SourcesStay(w, w', sp);
    OneSpec(w, w', sp);
  }

  lemma RedoCarries(w: World, w': World, sp: Spec, from: Source)
    requires CanProvision(w, Redo(sp, from)) && w' == RedoStep(w, sp, from) && sp in w.slots && SpecOk(w, sp)
    ensures SpecOk(w', sp) && JobOk(w', sp)
    ensures HeldUid(w', OfSpec(sp)) == HeldUid(w, OfSpec(sp)) && HeldUid(w', OfJob(sp)).None?
  {
    assert DescOf(w', sp) == DescOf(w, sp) && Stored(w', sp) == Stored(w, sp);
    assert DescOf(w', Vol(sp.image)) == DescOf(w, Vol(sp.image));
  }

  lemma RedoRots(w: World, sp: Spec, j: Job, r: nat)
    requires r in w.rots && RotOk(w, r)
    ensures RotOk(NewJob(w, sp, j), r)
  {
    var v := Vol(w.rots[r].image);
    assert DescOf(NewJob(w, sp, j), v) == DescOf(w, v) && Stored(NewJob(w, sp, j), v) == Stored(w, v);
  }

  lemma RedoIds(w: World, sp: Spec, from: Source)
    requires Inv(w) && CanProvision(w, Redo(sp, from))
    ensures sp in w.slots && SpecOk(w, sp) && sp !in w.dying && JobIdsKnown(w, RedoStep(w, sp, from).jobs[sp])
  {}

  lemma KeepsRedo(w: World, sp: Spec, from: Source)
    requires Inv(w) && CanProvision(w, Redo(sp, from))
    ensures Inv(RedoStep(w, sp, from))
  {
    hide Agree, StoresSame, NoStrangers, RotOk, RotsApart, Exclusive, PriorsPrivate, IdsKnown, JobsOk, SpecsOk,
         SourceHolds, SpecOk, JobOk, HeldUid, Shape, JobIdsKnown, DescOf, Stored, RootOf, Replayable;
    var w', T := RedoStep(w, sp, from), iset{sp};
    RedoIds(w, sp, from);
    NewJobEffect(w, sp, w'.jobs[sp]);
    SourcesStay(w, w', sp);
    RedoCarries(w, w', sp, from);
    assert AgreeOff(w, w', T);
    HoldsOff(w, w', T);
    forall r | r in w.rots ensures RotOk(w', r) { RedoRots(w, sp, w'.jobs[sp], r); }
    RedoTouches(w, w', sp);
    StoreFree(w, w', T);
  }

  lemma RedoTouches(w: World, w': World, sp: Spec)
    requires sp in w'.slots && SpecOk(w', sp) && sp in w'.jobs && JobOk(w', sp) && sp in w.ready && w'.ready == w.ready
    requires forall x | x != sp && x in w.jobs :: SourceHolds(w, w', x)
    requires (forall x :: DescOf(w', x) == DescOf(w, x)) && (forall x :: RootOf(w', x) == RootOf(w, x)) && SpecsOk(w)
    ensures TouchedOk(w, w', iset{sp})
  {
    hide JobOk, SourceHolds, DescOf, Stored, RootOf, OpensWith;
    forall x | x in w.ready && x.Snap? ensures Vol(x.image) in w.ready { assert SpecOk(w, x); }
  }

  // ---- clones and restores -------------------------------------------------

  ghost function OfImage(x: string): iset<Spec> { iset sp: Spec | sp.image == x }

  /** Image `x` appears with a copy of `v`'s metadata, and a job to finish it. */
  ghost predicate ImageCopied(w: World, w': World, v: string, x: string) {
    && v in w.meta && v != x && Vol(x) in w'.slots && Vol(x) in w'.jobs
    && w' == w.(slots := w.slots[Vol(x) := w'.slots[Vol(x)]], meta := w.meta[x := w.meta[v]],
       jobs := w.jobs[Vol(x) := w'.jobs[Vol(x)]])
    && w'.jobs[Vol(x)].Copy? && w'.jobs[Vol(x)].phase.Idle? && w'.jobs[Vol(x)].frozen.None?
  }

  lemma CopiedDesc(w: World, w': World, v: string, x: string)
    requires ImageCopied(w, w', v, x)
    ensures AgreeOff(w, w', OfImage(x)) && StoresSame(w, w')
    ensures forall y: Spec | y.image != x :: DescOf(w', y) == DescOf(w, y) && Stored(w', y) == Stored(w, y)
    ensures DescOf(w', Vol(x)) == DescOf(w, Vol(v))
    ensures forall s :: DescOf(w', Snap(x, s)) == DescOf(w, Snap(v, s))
  {
    forall y: Spec | y.image != x ensures DescOf(w', y) == DescOf(w, y) && Stored(w', y) == Stored(w, y) {}
  }

  /** Nothing of image `x` is in use before it exists. */
  lemma AbsentImage(w: World, x: string, y: Spec)
    requires Shape(w) && JobsOk(w) && Vol(x) !in w.slots && y.image == x
    ensures y !in w.ready && y !in w.dying && y !in w.slots && (y in w.jobs ==> y == Vol(x))
  {
    if y in w.jobs { assert JobOk(w, y); }
  }

  lemma CopiedShape(w: World, w': World, v: string, x: string)
    requires Shape(w) && JobsOk(w) && Vol(x) !in w.slots && ImageCopied(w, w', v, x)
    ensures Shape(w')
  {
    AbsentImage(w, x, Vol(x));
  }

  lemma CopiedIds(w: World, w': World, v: string, x: string)
    requires IdsKnown(w) && ImageCopied(w, w', v, x)
    requires forall p | p in w'.slots[Vol(x)] :: Known(w, p)
    ensures NoStrangers(w, w')
  {
    CopiedDesc(w, w', v, x);
    forall y
      ensures DescOf(w', y) == DescOf(w, y) || (KnownOpt(w', DescOf(w', y).dek) && KnownUid(w', DescOf(w', y).uid)) {
      if y.image == x {
        var z := if y.Vol? then Vol(v) else Snap(v, y.snap);
        assert DescOf(w', y) == DescOf(w, z);
        assert KnownOpt(w, DescOf(w, z).dek) && KnownUid(w, DescOf(w, z).uid);
      }
    }
  }

  lemma CopiedHolds(w: World, w': World, v: string, x: string)
    requires Shape(w) && JobsOk(w) && Vol(x) !in w.slots && ImageCopied(w, w', v, x)
    requires DescOf(w, Vol(v)).owner != Some(Vol(x))
    ensures forall h :: HeldUid(w', h) == HeldUid(w, h) || HeldUid(w', h).None?
  {
    hide Agree, JobOk, DescOf, Shape;
    CopiedDesc(w, w', v, x);
    forall y | y in OfImage(x) ensures HeldUid(w', OfSpec(y)).None? && HeldUid(w', OfJob(y)).None? {
      AbsentImage(w, x, y);
    }
    HoldsOff(w, w', OfImage(x));
  }

  lemma CopiedRots(w: World, x: string)
    requires Shape(w) && RotsOk(w) && Vol(x) !in w.slots
    ensures forall r | r in w.rots :: Vol(w.rots[r].image) !in OfImage(x)
  {
    forall r | r in w.rots ensures Vol(w.rots[r].image) !in OfImage(x) { assert RotOk(w, r); }
  }

  lemma CopiedTouches(w: World, w': World, v: string, x: string)
    requires Shape(w) && JobsOk(w) && Vol(x) !in w.slots && ImageCopied(w, w', v, x) && JobOk(w', Vol(x))
    requires forall y | y !in OfImage(x) && y in w.jobs :: SourceHolds(w, w', y)
    ensures TouchedOk(w, w', OfImage(x))
  {
    hide JobOk, SourceHolds, Shape;
    forall y | y in OfImage(x) ensures y !in w'.ready && (y in w'.jobs ==> y == Vol(x)) { AbsentImage(w, x, y); }
    assert Vol(x) !in w.ready by { assert Shape(w); AbsentImage(w, x, Vol(x)); }
    forall y | y !in OfImage(x) && y.Snap? ensures Vol(y.image) !in OfImage(x) {}
  }

  lemma CopiedKeeps(w: World, w': World, v: string, x: string)
    requires Inv(w) && Vol(x) !in w.slots && ImageCopied(w, w', v, x) && JobOk(w', Vol(x))
    requires SourcesOff(w, OfImage(x)) && DescOf(w, Vol(v)).owner != Some(Vol(x))
    requires forall p | p in w'.slots[Vol(x)] :: Known(w, p)
    ensures Inv(w')
  {
    hide ImageCopied, JobOk, Agree, SpecsOk, JobsOk, RotsOk, Shape, IdsKnown, Exclusive, PriorsPrivate, SourcesOff,
         SourceHolds, NoStrangers, TouchedOk, HeldUid, DescOf, StoresSame, AgreeOff;
    var T := OfImage(x);
    CopiedDesc(w, w', v, x);
    CopiedShape(w, w', v, x);
    CopiedIds(w, w', v, x);
    CopiedHolds(w, w', v, x);
    SourcesCarry(w, w', T);
    CopiedTouches(w, w', v, x);
    CopiedRots(w, x);
    StoreFree(w, w', T);
  }

  lemma CloneJobOk(w: World, x: string)
    requires CanProvision(w, CloneImage(x)) && JobOk(w, Vol(x)) && Vol(x) !in w.ready
    requires Vol(w.jobs[Vol(x)].from.image) in w.slots && SpecOk(w, Vol(w.jobs[Vol(x)].from.image))
    ensures JobOk(CloneImageStep(w, x), Vol(x))
  {
    var w', v := CloneImageStep(w, x), w.jobs[Vol(x)].from.image;
    CopiedDesc(w, w', v, x);
  }

  lemma CloneFacts(w: World, x: string)
    requires Inv(w) && CanProvision(w, CloneImage(x))
    ensures var j := w.jobs[Vol(x)];
            && JobOk(w, Vol(x)) && Vol(x) !in w.slots && Vol(x) !in w.ready && j.from.image != x && j.phase.Idle?
            && Vol(j.from.image) in w.slots && SpecOk(w, Vol(j.from.image))
            && DescOf(w, Vol(j.from.image)).owner != Some(Vol(x))
            && (forall p | p in j.frozen.value :: Known(w, p))
  {
    hide Exclusive, PriorsPrivate, RotsOk, SourceOk, OwnOk, PhaseOk, OpensWith, DescOf, Stored;
    assert JobOk(w, Vol(x)) && JobIdsKnown(w, w.jobs[Vol(x)]);
    assert SpecOk(w, Vol(w.jobs[Vol(x)].from.image));
  }

  lemma CloneSources(w: World, x: string)
    requires JobsOk(w) && Vol(x) in w.jobs && Vol(x) !in w.ready
    ensures SourcesOff(w, OfImage(x))
  {
    forall y | y in w.jobs && y !in w.ready && w.jobs[y].Copy? ensures w.jobs[y].from.image != x { assert JobOk(w, y); }
  }

  lemma KeepsCloneImage(w: World, x: string)
    requires Inv(w) && CanProvision(w, CloneImage(x))
    ensures Inv(CloneImageStep(w, x))
  {
    hide JobOk, SpecOk, SpecsOk, JobsOk, RotsOk, Shape, IdsKnown, Exclusive, PriorsPrivate, SourcesOff, Known, DescOf;
    CloneFacts(w, x);
    CloneSources(w, x);
    CloneJobOk(w, x);
    CopiedKeeps(w, CloneImageStep(w, x), w.jobs[Vol(x)].from.image, x);
  }

  lemma RestoreJobOk(w: World, v: string, s: string, x: string)
    requires CanProvision(w, RestoreImage(v, s, x)) && Snap(v, s) in w.ready && SpecOk(w, Snap(v, s))
    requires Vol(v) in w.slots && SpecOk(w, Vol(v)) && Vol(x) !in w.ready && v != x
    ensures JobOk(RestoreImageStep(w, v, s, x), Vol(x))
  {
    CopiedDesc(w, RestoreImageStep(w, v, s, x), v, x);
  }

  lemma RestoreFacts(w: World, v: string, s: string, x: string)
    requires Inv(w) && CanProvision(w, RestoreImage(v, s, x))
    ensures Vol(v) in w.slots && SpecOk(w, Vol(v)) && SpecOk(w, Snap(v, s)) && Vol(x) !in w.ready && v != x
    ensures DescOf(w, Vol(v)).owner != Some(Vol(x)) && forall p | p in w.slots[Snap(v, s)] :: Known(w, p)
  {
    hide Exclusive, PriorsPrivate, RotsOk, JobsOk;
    assert SpecOk(w, Snap(v, s));
    assert SpecOk(w, Vol(v));
  }

  lemma RestoreSources(w: World, x: string)
    requires Uncopied(w, x)
    ensures SourcesOff(w, OfImage(x))
  {
    forall y | y in w.jobs && y !in w.ready && w.jobs[y].Copy? ensures w.jobs[y].from.image != x {
      assert !Copying(w, y, x);
    }
  }

  lemma KeepsRestoreImage(w: World, v: string, s: string, x: string)
    requires Inv(w) && CanProvision(w, RestoreImage(v, s, x)) && Admitted(w, DoProvision(RestoreImage(v, s, x)))
    ensures Inv(RestoreImageStep(w, v, s, x))
  {
    hide JobOk, SpecOk, SpecsOk, JobsOk, RotsOk, Shape, IdsKnown, Exclusive, PriorsPrivate, SourcesOff, Known, DescOf,
         Uncopied;
    RestoreFacts(w, v, s, x);
    RestoreSources(w, x);
    RestoreJobOk(w, v, s, x);
    CopiedKeeps(w, RestoreImageStep(w, v, s, x), v, x);
  }

  // ---- first stage ---------------------------------------------------------

  /** A finished but unformatted volume moves alone: its stored key, its keyslots, new ids. */
  ghost predicate StageStep(w: World, w': World, v: string) {
    && VolStep(w, w', v) && Vol(v) in w.slots && w.slots[Vol(v)] == {} && w'.rots == w.rots && w'.dying == w.dying
    && w'.slots.Keys == w.slots.Keys && w'.meta.Keys == w.meta.Keys
    && ObjectsGrow(w, w') && NoStrangers(w, w')
    && (forall u | u in w'.objects :: u in w.objects || u >= w.next)
    && (DescOf(w', Vol(v)).uid == DescOf(w, Vol(v)).uid ||
       (DescOf(w', Vol(v)).uid.Some? && DescOf(w', Vol(v)).uid.value >= w.next))
  }

  lemma StageHolds(w: World, w': World, v: string)
    requires IdsKnown(w) && Exclusive(w) && PriorsPrivate(w) && StageStep(w, w', v)
    ensures Exclusive(w') && PriorsPrivate(w')
  {
    forall h
      ensures HeldUid(w', h) == HeldUid(w, h) ||
              (h == OfSpec(Vol(v)) && HeldUid(w', h).Some? && HeldUid(w', h).value >= w.next) {
      if !h.OfRotation? && h.sp != Vol(v) { assert Agree(w, w', h.sp); }
    }
    OffHolds(w, w', OfSpec(Vol(v)));
  }

  lemma StageRots(w: World, w': World, v: string)
    requires IdsKnown(w) && RotsOk(w) && StageStep(w, w', v)
    ensures RotsOk(w')
  {
    var T := iset{Vol(v)};
    assert AgreeOff(w, w', T);
    forall r | r in w.rots ensures Vol(w.rots[r].image) !in T { assert RotOk(w, r); }
    forall r | r in w.rots ensures SeenPass(w', w.rots[r].turn) == SeenPass(w, w.rots[r].turn) {
      assert TurnIdsKnown(w, w.rots[r].turn);
    }
    OffRots(w, w', T);
  }

  lemma StageKeeps(w: World, w': World, v: string)
    requires Inv(w) && StageStep(w, w', v)
    ensures Inv(w')
  {
    VolStepCarries(w, w', v);
    IdsStayKnown(w, w');
    StageRots(w, w', v);
    StageHolds(w, w', v);
    assert Shape(w') by {
      assert forall x :: x in w'.meta <==> x in w.meta;
      assert forall x :: x in w'.slots <==> x in w.slots;
    }
  }

  /** A first stage that stores the key of an unstaged volume. */
  ghost predicate Storing(w: World, t: nat, v: string) {
    && t in w.stages && w.stages[t].image == v && Known(w, w.stages[t].key)
    && DescOf(w, Vol(v)).kms == w.stages[t].kms != NoKms && NoKey(w, v)
    && IdsKnown(w) && v in w.meta && Vol(v) in w.slots && SpecOk(w, Vol(v)) && Vol(v) in w.ready
  }

  lemma StoreKeyEffect(w: World, t: nat, v: string)
    requires Storing(w, t, v)
    ensures var w' := StoreKeyStep(w, t);
            && AgreeBut(w, w', Vol(v)) && ObjectsGrow(w, w')
            && DescOf(w', Vol(v)) == DescOf(w, Vol(v)).(dek := DescOf(w', Vol(v)).dek, uid := DescOf(w', Vol(v)).uid)
  {
    var w' := StoreKeyStep(w, t);
    forall x | x != Vol(v) ensures Agree(w, w', x) {
      assert DescOf(w', x) == DescOf(w, x);
      assert KnownUid(w, DescOf(w, x).uid);
    }
  }

  lemma StoreKeyIds(w: World, t: nat, v: string)
    requires Storing(w, t, v)
    ensures NoStrangers(w, StoreKeyStep(w, t))
  {
    var w' := StoreKeyStep(w, t);
    forall x | x != Vol(v) ensures DescOf(w', x) == DescOf(w, x) {}
    assert KnownOpt(w, DescOf(w, Vol(v)).dek) && KnownUid(w, DescOf(w, Vol(v)).uid);
  }

  lemma StoreKeyVol(w: World, w': World, t: nat, v: string)
    requires Storing(w, t, v) && w' == StoreKeyStep(w, t)
    ensures SpecOk(w', Vol(v)) && w.slots[Vol(v)] == {} && Stored(w, Vol(v)).None?
    ensures DescOf(w', Vol(v)).uid == DescOf(w, Vol(v)).uid || DescOf(w', Vol(v)).uid == Some(w.next)
    ensures w'.slots == w.slots && w'.ready == w.ready && w'.jobs == w.jobs && w'.rots == w.rots && w'.dying == w.dying
    ensures w'.root == w.root && w'.meta.Keys == w.meta.Keys
    ensures forall u | u in w'.objects :: u in w.objects || u >= w.next
  {}

  lemma StoreKeyIsStage(w: World, w': World, t: nat, v: string)
    requires Storing(w, t, v) && w' == StoreKeyStep(w, t)
    ensures StageStep(w, w', v)
  {
    StoreKeyEffect(w, t, v);
    StoreKeyIds(w, t, v);
    StoreKeyVol(w, w', t, v);
  }

  /** Nothing but the first stages in flight, and the next id, has changed. */
  lemma StagesKeep(w: World, w': World)
    requires Inv(w) && w' == w.(stages := w'.stages, next := w'.next) && w.next <= w'.next
    requires forall t | t in w'.stages :: Known(w', w'.stages[t].key)
    ensures Inv(w')
  {
    StagesEffect(w, w');
    AgreeCarries(w, w');
    OffRots(w, w', iset{});
    IdsStayKnown(w, w');
    OffHolds(w, w', OfRotation(0));
  }

  lemma StagesEffect(w: World, w': World)
    requires w' == w.(stages := w'.stages, next := w'.next) && w.next <= w'.next
    requires forall t | t in w'.stages :: Known(w', w'.stages[t].key)
    ensures (forall x :: Agree(w, w', x)) && (forall h :: HeldKept(w, w', h)) && NoStrangers(w, w')
    ensures forall h :: HeldUid(w', h) == HeldUid(w, h)
    ensures forall r | r in w.rots :: SeenPass(w', w.rots[r].turn) == SeenPass(w, w.rots[r].turn)
  {
    forall x ensures DescOf(w', x) == DescOf(w, x) && Stored(w', x) == Stored(w, x) {}
  }

  lemma KeepsBeginStage(w: World, t: nat, v: string)
    requires Inv(w)
    ensures Inv(BeginStageStep(w, t, v))
  {
    StagesKeep(w, BeginStageStep(w, t, v));
  }

  lemma KeepsLoseStage(w: World, t: nat)
    requires Inv(w)
    ensures Inv(w.(stages := w.stages - {t}))
  {
    StagesKeep(w, w.(stages := w.stages - {t}));
  }

  lemma KeepsStoreKey(w: World, t: nat)
    requires Inv(w) && CanProvision(w, StoreKey(t)) && Stageable(w, t)
    ensures Inv(StoreKeyStep(w, t))
  {
    var w', v := StoreKeyStep(w, t), w.stages[t].image;
    ReadyVol(w, v);
    if DescOf(w, Vol(v)).kms == NoKms || !NoKey(w, v) {
      assert w' == w.(stages := w.stages - {t});
      KeepsLoseStage(w, t);
    } else {
      StoreKeyIsStage(w, w', t, v);
      StageKeeps(w, w', v);
    }
  }

  lemma StoreLostEffect(w: World, t: nat, v: string)
    requires Storing(w, t, v)
    ensures var w' := StoreLostStep(w, t);
            AgreeBut(w, w', Vol(v)) && NoStrangers(w, w') &&
                DescOf(w', Vol(v)) == DescOf(w, Vol(v)).(uid := Some(w.next))
  {
    var w', d := StoreLostStep(w, t), DescOf(w, Vol(v)).(uid := Some(w.next));
    forall x ensures DescOf(w', x) == if x == Vol(v) then d else DescOf(w, x) { PutReads(w, w', Vol(v), d, x); }
    assert KnownOpt(w, DescOf(w, Vol(v)).dek);
  }

  lemma StoreLostIsStage(w: World, t: nat, v: string)
    requires Storing(w, t, v) && DescOf(w, Vol(v)).kms == Kmip
    ensures StageStep(w, StoreLostStep(w, t), v)
  {
    hide Agree, NoStrangers;
    StoreLostEffect(w, t, v);
  }

  lemma KeepsStoreLost(w: World, t: nat)
    requires Inv(w) && CanProvision(w, StoreLost(t)) && Stageable(w, t)
    ensures Inv(StoreLostStep(w, t))
  {
    var v := w.stages[t].image;
    ReadyVol(w, v);
    StoreLostIsStage(w, t, v);
    StageKeeps(w, StoreLostStep(w, t), v);
  }

  lemma FormatEffect(w: World, v: string)
    requires CanProvision(w, Format(v)) && IdsKnown(w)
    ensures AgreeBut(w, FormatStep(w, v), Vol(v)) && NoStrangers(w, FormatStep(w, v))
    ensures DescOf(FormatStep(w, v), Vol(v)) == DescOf(w, Vol(v))
    ensures Stored(FormatStep(w, v), Vol(v)) == Stored(w, Vol(v))
  {
    var w' := FormatStep(w, v);
    forall x ensures DescOf(w', x) == DescOf(w, x) && Stored(w', x) == Stored(w, x) {}
    assert KnownOpt(w, DescOf(w, Vol(v)).dek);
    assert Known(w', StagePass(w, v).value);
  }

  lemma FormatIsStage(w: World, v: string)
    requires CanProvision(w, Format(v)) && IdsKnown(w) && SpecOk(w, Vol(v))
    ensures StageStep(w, FormatStep(w, v), v)
  {
    hide Agree, NoStrangers, IdsKnown;
    FormatEffect(w, v);
  }

  lemma KeepsFormat(w: World, v: string)
    requires Inv(w) && CanProvision(w, Format(v))
    ensures Inv(FormatStep(w, v))
  {
    ReadyVol(w, v);
    FormatIsStage(w, v);
    StageKeeps(w, FormatStep(w, v), v);
  }

  lemma RegisterReads(w: World)
    ensures forall x :: DescOf(RegisterOnlyStep(w), x) == DescOf(w, x)
  {}

  lemma RegisterAgrees(w: World, x: Spec)
    requires KnownUid(w, DescOf(w, x).uid) && DescOf(RegisterOnlyStep(w), x) == DescOf(w, x)
    ensures Agree(w, RegisterOnlyStep(w), x)
  {
    hide DescOf;
  }

  lemma RegisterHolds(w: World, h: Holder)
    requires KnownUid(w, HeldUid(w, h)) && forall x :: DescOf(RegisterOnlyStep(w), x) == DescOf(w, x)
    ensures HeldUid(RegisterOnlyStep(w), h) == HeldUid(w, h) && HeldKept(w, RegisterOnlyStep(w), h)
  {
    hide DescOf;
  }

  lemma RegisterEffect(w: World)
    requires IdsKnown(w)
    ensures var w' := RegisterOnlyStep(w);
            && (forall x :: Agree(w, w', x)) && (forall h :: HeldKept(w, w', h)) && NoStrangers(w, w')
            && (forall h :: HeldUid(w', h) == HeldUid(w, h))
            && (forall r | r in w.rots :: SeenPass(w', w.rots[r].turn) == SeenPass(w, w.rots[r].turn))
  {
    hide DescOf, Agree, HeldUid, HeldKept;
    var w' := RegisterOnlyStep(w);
    RegisterReads(w);
    forall x ensures Agree(w, w', x) {
      assert KnownUid(w, DescOf(w, x).uid);
      RegisterAgrees(w, x);
    }
    forall r | r in w.rots ensures SeenPass(w', w.rots[r].turn) == SeenPass(w, w.rots[r].turn) {
      assert TurnIdsKnown(w, w.rots[r].turn);
    }
    forall h ensures HeldUid(w', h) == HeldUid(w, h) && HeldKept(w, w', h) {
      HeldKnown(w, h);
      RegisterHolds(w, h);
    }
  }

  lemma KeepsRegisterOnly(w: World)
    requires Inv(w)
    ensures Inv(RegisterOnlyStep(w))
  {
    var w' := RegisterOnlyStep(w);
    RegisterEffect(w);
    AgreeCarries(w, w');
    OffRots(w, w', iset{});
    IdsStayKnown(w, w');
    OffHolds(w, w', OfRotation(0));
  }

  lemma KeepsProvision(w: World, a: ProvisionStep)
    requires Inv(w) && CanProvision(w, a) && Admitted(w, DoProvision(a))
    ensures Inv(Provision(w, a))
  {
    match a
    case CreateImage(v, kms) => KeepsCreateImage(w, v, kms);
    case RecordKms(v) => KeepsRecordKms(w, v);
    case BeginStage(t, v) => KeepsBeginStage(w, t, v);
    case StoreKey(t) => KeepsStoreKey(w, t);
    case StoreLost(t) => KeepsStoreLost(w, t);
    case LoseStage(t) => KeepsLoseStage(w, t);
    case RegisterOnly => KeepsRegisterOnly(w);
    case Format(v) => KeepsFormat(w, v);
    case TakeSnapshot(v, s) => KeepsTakeSnapshot(w, v, s);
    case TempSnapshot(v, x) => KeepsTempSnapshot(w, v, x);
    case CloneImage(x) => KeepsCloneImage(w, x);
    case RestoreImage(v, s, x) => KeepsRestoreImage(w, v, s, x);
    case Redo(sp, from) => KeepsRedo(w, sp, from);
  }
}
