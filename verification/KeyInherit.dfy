/** Every command of inheritEncryption keeps the invariant. */
module KeyInherit {
  import opened Options
  import opened KeyPlane
  import opened KeyInvariant
  import opened KeyFrame

  /** Only `sp`'s descriptor, its Vault entry and its job changed, and ids were drawn. */
  ghost predicate Local(w: World, w': World, sp: Spec) {
    && w'.slots == w.slots && w'.ready == w.ready && w'.rots == w.rots && w'.dying == w.dying
    && w'.ctx == w.ctx && w'.root == w.root && w'.stages == w.stages
    && (forall x | x != sp :: (x in w'.jobs <==> x in w.jobs) && (x in w.jobs ==> w'.jobs[x] == w.jobs[x]))
    && sp in w.jobs && sp in w'.jobs
    && (forall v :: v in w'.meta <==> v in w.meta)
    && (forall x | x != sp :: DescOf(w', x) == DescOf(w, x))
    && (forall x | x != sp :: (x in w'.vault <==> x in w.vault) && (x in w.vault ==> w'.vault[x] == w.vault[x]))
    && w.next <= w'.next && ObjectsGrow(w, w')
    && (forall u | u in w'.objects :: u in w.objects || w.next <= u < w'.next)
  }

  lemma LocalAgrees(w: World, w': World, sp: Spec)
    requires Local(w, w', sp) && IdsKnown(w)
    ensures AgreeBut(w, w', sp)
  {
    forall x | x != sp ensures Agree(w, w', x) {
      assert DescOf(w', x) == DescOf(w, x);
    }
  }

  /** What a finished spec keeps while its create runs again. */
  ghost predicate Steady(w: World, w': World, sp: Spec) {
    var d, d' := DescOf(w, sp), DescOf(w', sp);
    && d'.kms == d.kms && d'.uid == d.uid && d'.owner == d.owner
    && (sp.Vol? ==> d.keyId.Some? == d'.keyId.Some?) && (d.kms == NoKms ==> d'.keyId == d.keyId)
    && (Stored(w, sp).Some? ==> Stored(w', sp) == Stored(w, sp))
  }

  lemma LocalSpecs(w: World, w': World, sp: Spec)
    requires Inv(w) && Local(w, w', sp) && (sp in w.ready ==> Steady(w, w', sp))
    ensures SpecsOk(w')
  {
    LocalAgrees(w, w', sp);
    forall x | x in w'.ready ensures x in w'.slots && SpecOk(w', x) {
      assert SpecOk(w, x) && JobOk(w, sp);
      if x != sp {
        assert Agree(w, w', x);
        if x.Snap? && Vol(x.image) != sp { assert Agree(w, w', Vol(x.image)); }
        SpecCarries(w, w', x);
      } else if x.Snap? {
        assert Agree(w, w', Vol(x.image));
      }
    }
  }

  /** The source of another copy is finished, and its own create runs again. */
  lemma LocalServes(w: World, w': World, sp: Spec, x: Spec)
    requires x in w.jobs && x != sp && w.jobs[x].Copy? && Local(w, w', sp) && sp in w.ready && Steady(w, w', sp)
    ensures SourceServes(w, x, w.jobs[x]) && SourceOf(w.jobs[x].from) == sp ==> SourceServing(w, w', x, sp)
  {}

  lemma LocalSource(w: World, w': World, sp: Spec, x: Spec)
    requires Inv(w) && Local(w, w', sp) && (sp in w.ready ==> Steady(w, w', sp))
    requires x in w.jobs && x != sp
    ensures SourceHolds(w, w', x)
  {
    hide Local, IdsKnown, Shape, SpecsOk, RotsOk, Exclusive, PriorsPrivate, HoldsKey;
    LocalAgrees(w, w', sp);
    assert JobOk(w, x);
    var j := w.jobs[x];
    if j.Copy? && x !in w.ready {
      LocalBooks(w, w', sp);
      if Vol(j.from.image) != sp { assert Agree(w, w', Vol(j.from.image)); }
      if SourceOf(j.from) != sp { assert Agree(w, w', SourceOf(j.from)); } else { LocalServes(w, w', sp, x); }
    }
  }

  lemma LocalBooks(w: World, w': World, sp: Spec)
    requires Local(w, w', sp)
    ensures w'.ready == w.ready && w'.root == w.root && sp in w.jobs && (forall y :: y in w'.jobs <==> y in w.jobs)
  {}

  lemma LocalJobs(w: World, w': World, sp: Spec)
    requires Inv(w) && Local(w, w', sp) && (sp in w.ready ==> Steady(w, w', sp))
    requires JobOk(w', sp)
    ensures JobsOk(w')
  {
    hide Shape, SpecsOk, RotsOk, Exclusive, PriorsPrivate, IdsKnown, SourceHolds, Steady;
    LocalAgrees(w, w', sp);
    forall x | x in w'.jobs ensures JobOk(w', x) {
      if x != sp {
        assert JobOk(w, x);
        LocalSource(w, w', sp, x);
        JobCarries(w, w', x);
      }
    }
  }

  lemma LocalRots(w: World, w': World, sp: Spec)
    requires Inv(w) && Local(w, w', sp) && (sp in w.ready ==> Steady(w, w', sp))
    ensures RotsOk(w')
  {
    hide HeldUid, JobIdsKnown, Exclusive, PriorsPrivate, Shape, DescOf, JobsOk;
    LocalAgrees(w, w', sp);
    forall r | r in w'.rots ensures RotOk(w', r) {
      assert RotOk(w, r) && SpecOk(w, Vol(w.rots[r].image));
      if Vol(w.rots[r].image) != sp {
        assert Agree(w, w', Vol(w.rots[r].image));
        RotCarries(w, w', r);
      }
    }
    forall r, q | r in w'.rots && q in w'.rots ensures RotsApart(w', r, q) {
      assert RotsApart(w, r, q);
    }
  }

  /** Every UID now held for `sp` was held for it before, or is new. */
  ghost predicate HoldsOwn(w: World, w': World, sp: Spec) {
    && (forall h | h == OfSpec(sp) || h == OfJob(sp) ::
          HeldUid(w', h).Some? ==>
            HeldUid(w', h).value >= w.next || HeldUid(w', h) == HeldUid(w, OfSpec(sp)) ||
                HeldUid(w', h) == HeldUid(w, OfJob(sp)))
    && (HeldUid(w', OfSpec(sp)).Some? ==> HeldUid(w', OfSpec(sp)) != HeldUid(w', OfJob(sp)))
    && (sp in w.ready ==> HeldUid(w', OfJob(sp)).None?)
  }

  lemma LocalHeld(w: World, w': World, sp: Spec, h: Holder)
    requires Inv(w) && Local(w, w', sp) && h != OfSpec(sp) && h != OfJob(sp)
    ensures HeldUid(w', h) == HeldUid(w, h) && KnownUid(w, HeldUid(w, h))
  {
    LocalAgrees(w, w', sp);
    if !h.OfRotation? { assert Agree(w, w', h.sp); }
    HeldCarries(w, w', h);
    HeldKnown(w, h);
  }

  lemma LocalExclusive(w: World, w': World, sp: Spec)
    requires Inv(w) && Local(w, w', sp) && HoldsOwn(w, w', sp)
    ensures Exclusive(w')
  {
    hide Local, IdsKnown, Shape, SpecsOk, JobsOk, RotsOk, PriorsPrivate, HeldUid;
    forall h, g | h != g && HeldUid(w', h).Some? ensures HeldUid(w', h) != HeldUid(w', g) {
      if h != OfSpec(sp) && h != OfJob(sp) { LocalHeld(w, w', sp, h); }
      if g != OfSpec(sp) && g != OfJob(sp) { LocalHeld(w, w', sp, g); }
      assert forall k | k != OfSpec(sp) && HeldUid(w, k).Some? :: HeldUid(w, k) != HeldUid(w, OfSpec(sp));
      assert forall k | k != OfJob(sp) && HeldUid(w, k).Some? :: HeldUid(w, k) != HeldUid(w, OfJob(sp));
    }
  }

  /** A volume that is being rotated is finished. */
  lemma RotatedReady(w: World, r: nat)
    requires Inv(w) && r in w.rots
    ensures Vol(w.rots[r].image) in w.ready && TurnIdsKnown(w, w.rots[r].turn)
  {
    assert RotOk(w, r);
  }

  lemma LocalPriors(w: World, w': World, sp: Spec)
    requires Inv(w) && Local(w, w', sp) && HoldsOwn(w, w', sp)
    ensures PriorsPrivate(w')
  {
    hide IdsKnown, Shape, SpecsOk, JobsOk, RotsOk, Exclusive, HeldUid;
    forall r, h | r in w'.rots && PriorUidOf(w'.rots[r].turn).Some? && h != OfSpec(Vol(w'.rots[r].image))
      ensures HeldUid(w', h) != PriorUidOf(w'.rots[r].turn)
    {
      RotatedReady(w, r);
      if h != OfSpec(sp) && h != OfJob(sp) { LocalHeld(w, w', sp, h); }
      assert HeldUid(w, h) != PriorUidOf(w.rots[r].turn);
      if sp != Vol(w.rots[r].image) { assert HeldUid(w, OfSpec(sp)) != PriorUidOf(w.rots[r].turn); }
      assert HeldUid(w, OfJob(sp)) != PriorUidOf(w.rots[r].turn);
    }
  }

  lemma LocalIds(w: World, w': World, sp: Spec)
    requires Inv(w) && Local(w, w', sp)
    requires KnownOpt(w', DescOf(w', sp).dek) && KnownUid(w', DescOf(w', sp).uid) && JobIdsKnown(w', w'.jobs[sp])
    requires sp in w'.vault ==> Known(w', w'.vault[sp])
    requires forall u | u in w'.objects && u !in w.objects :: Known(w', w'.objects[u])
    ensures IdsKnown(w')
  {
    hide Shape, SpecsOk, JobsOk, RotsOk, Exclusive, PriorsPrivate;
    IdsStayKnown(w, w');
  }

  lemma LocalKeeps(w: World, w': World, sp: Spec)
    requires Inv(w) && Local(w, w', sp) && (sp in w.ready ==> Steady(w, w', sp))
    requires JobOk(w', sp) && HoldsOwn(w, w', sp)
    requires KnownOpt(w', DescOf(w', sp).dek) && KnownUid(w', DescOf(w', sp).uid) && JobIdsKnown(w', w'.jobs[sp])
    requires sp in w'.vault ==> Known(w', w'.vault[sp])
    requires forall u | u in w'.objects && u !in w.objects :: Known(w', w'.objects[u])
    ensures Inv(w')
  {
    LocalIds(w, w', sp);
    LocalSpecs(w, w', sp);
    LocalJobs(w, w', sp);
    LocalRots(w, w', sp);
    LocalExclusive(w, w', sp);
    LocalPriors(w, w', sp);
    assert Shape(w');
  }

  // ---- the commands --------------------------------------------------------

  /** Only the metadata and the phase of `sp` moved. */
  ghost predicate Moved(w: World, w': World, sp: Spec, ph: Phase) {
    && sp in w.jobs && w.jobs[sp].Copy? && w'.jobs == Phased(w, sp, ph)
    && w'.slots == w.slots && w'.vault == w.vault && w'.objects == w.objects && w'.next == w.next
    && w'.ready == w.ready && w'.rots == w.rots && w'.dying == w.dying && w'.ctx == w.ctx && w'.root == w.root
    && w'.stages == w.stages
  }

  /** A write of at most the copy's descriptor is local to it. */
  lemma PutIsLocal(w: World, w': World, sp: Spec, d: Desc, ph: Phase)
    requires Moved(w, w', sp, ph) && sp.image in w.meta
    requires w'.meta == PutMeta(w, sp, d) || (w'.meta == w.meta && d == DescOf(w, sp))
    ensures Local(w, w', sp) && DescOf(w', sp) == d
  {
    if w'.meta != w.meta { forall x { PutReads(w, w', sp, d, x); } }
  }

  /** What the invariant says about one job, and nothing else. */
  ghost predicate JobFacts(w: World, sp: Spec) {
    && sp in w.jobs && sp !in w.dying && sp.image in w.meta && JobOk(w, sp)
    && (sp in w.ready ==> sp in w.slots && SpecOk(w, sp))
    && (HeldUid(w, OfSpec(sp)).Some? ==> HeldUid(w, OfSpec(sp)) != HeldUid(w, OfJob(sp)))
    && (w.jobs[sp].Copy? ==>
          && (SourceOf(w.jobs[sp].from) in w.ready ==>
             SourceOf(w.jobs[sp].from) in w.slots && SpecOk(w, SourceOf(w.jobs[sp].from)))
          && (Vol(w.jobs[sp].from.image) in w.ready ==>
             Vol(w.jobs[sp].from.image) in w.slots && SpecOk(w, Vol(w.jobs[sp].from.image)))
          && IdFacts(w, sp) && IdFacts(w, SourceOf(w.jobs[sp].from)) && IdFacts(w, Vol(w.jobs[sp].from.image)))
  }

  ghost predicate IdFacts(w: World, sp: Spec) {
    && KnownOpt(w, DescOf(w, sp).dek) && KnownUid(w, DescOf(w, sp).uid) && KnownOpt(w, Stored(w, sp))
    && (sp in w.vault ==> Known(w, w.vault[sp]))
    && (sp in w.jobs ==> JobIdsKnown(w, w.jobs[sp]))
    && (sp in w.jobs && w.jobs[sp].Copy? && HasSource(w.jobs[sp].phase) ==>
          KnownOpt(w, DescOf(w, w.jobs[sp].phase.src).dek) &&
              (w.jobs[sp].phase.src in w.vault ==> Known(w, w.vault[w.jobs[sp].phase.src])))
  }

  lemma InvIds(w: World, sp: Spec)
    requires IdsKnown(w)
    ensures IdFacts(w, sp)
  {
    assert KnownOpt(w, DescOf(w, sp).dek) && KnownUid(w, DescOf(w, sp).uid);
    if sp in w.jobs {
      var j := w.jobs[sp];
      assert JobIdsKnown(w, j);
      if j.Copy? && HasSource(j.phase) {
        assert KnownOpt(w, DescOf(w, j.phase.src).dek);
      }
    }
  }

  lemma InvJob(w: World, sp: Spec)
    requires Inv(w) && sp in w.jobs && (w.jobs[sp].Copy? ==> w.jobs[sp].frozen.None?)
    ensures JobFacts(w, sp)
  {
    assert JobOk(w, sp);
    assert sp in w.slots;
    assert sp.image in w.meta by {
      if sp.Snap? { assert Vol(sp.image) in w.ready; }
    }
    if w.jobs[sp].Copy? {
      InvIds(w, sp);
      InvIds(w, SourceOf(w.jobs[sp].from));
      InvIds(w, Vol(w.jobs[sp].from.image));
    }
    assert HeldUid(w, OfSpec(sp)).Some? ==> HeldUid(w, OfSpec(sp)) != HeldUid(w, OfJob(sp));
  }

  /** What a job can see: nothing but its own descriptor and phase has moved. */
  ghost predicate Narrow(w: World, w': World, sp: Spec)
    requires sp in w.jobs && w.jobs[sp].Copy? && sp in w'.jobs
  {
    var j := w.jobs[sp];
    var src, v := SourceOf(j.from), Vol(j.from.image);
    && w'.slots == w.slots && w'.ready == w.ready && w'.root == w.root && ObjectsGrow(w, w')
    && w'.jobs[sp].Copy? && w'.jobs[sp] == j.(phase := w'.jobs[sp].phase)
    && (v in w'.jobs <==> v in w.jobs) && (src in w'.jobs <==> src in w.jobs)
    && DescOf(w', v) == DescOf(w, v)
    && (src != sp ==> DescOf(w', src) == DescOf(w, src) && Stored(w', src) == Stored(w, src))
  }

  lemma LocalNarrow(w: World, w': World, sp: Spec)
    requires JobFacts(w, sp) && w.jobs[sp].Copy? && Local(w, w', sp)
    requires w'.jobs[sp].Copy? && w'.jobs[sp] == w.jobs[sp].(phase := w'.jobs[sp].phase)
    requires Vol(w.jobs[sp].from.image) != sp
    ensures Narrow(w, w', sp)
  {
    var src, v := SourceOf(w.jobs[sp].from), Vol(w.jobs[sp].from.image);
    assert DescOf(w', v) == DescOf(w, v);
    if src != sp { assert DescOf(w', src) == DescOf(w, src); }
  }

  lemma OpenAdvances(w: World, w': World, sp: Spec)
    requires JobFacts(w, sp) && w.jobs[sp].Copy? && sp !in w.ready && w.jobs[sp].frozen.None? && sp in w'.jobs
    requires Narrow(w, w', sp)
    requires OwnOk(w', sp, w'.jobs[sp]) && PhaseOk(w', sp, w'.jobs[sp]) && (HoldsKey(w, sp) ==> HoldsKey(w', sp))
    ensures JobOk(w', sp)
  {}

  lemma AttemptOpen(w: World, w': World, sp: Spec)
    requires CanInherit(w, sp, Attempt) && JobFacts(w, sp) && sp !in w.ready && sp in w'.jobs && Narrow(w, w', sp)
    requires w'.jobs[sp].phase == Begun(SourceSpec(w, w.jobs[sp].from))
    requires DescOf(w', sp) == DescOf(w, sp)
    requires w'.vault == w.vault
    ensures JobOk(w', sp)
  {
    OpenAdvances(w, w', sp);
  }

  lemma CrashOpen(w: World, w': World, sp: Spec)
    requires CanInherit(w, sp, Crash) && JobFacts(w, sp) && sp !in w.ready && sp in w'.jobs && Narrow(w, w', sp)
    requires w'.jobs[sp].phase == Idle
    requires DescOf(w', sp) == DescOf(w, sp)
    requires w'.vault == w.vault
    ensures JobOk(w', sp)
  {
    OpenAdvances(w, w', sp);
  }

  lemma SetKeyIdOpen(w: World, w': World, sp: Spec)
    requires CanInherit(w, sp, SetKeyId) && JobFacts(w, sp) && sp !in w.ready && sp in w'.jobs && Narrow(w, w', sp)
    requires w'.jobs[sp].phase == KeySet(w.jobs[sp].phase.src, InheritedKeyId(w, w.jobs[sp].phase.src, sp))
    requires DescOf(w', sp) == DescOf(w, sp).(keyId := Some(InheritedKeyId(w, w.jobs[sp].phase.src, sp)))
    requires w'.vault == w.vault
    ensures JobOk(w', sp)
  {
    OpenAdvances(w, w', sp);
  }

  lemma SetKmsOpen(w: World, w': World, sp: Spec)
    requires CanInherit(w, sp, SetKms) && JobFacts(w, sp) && sp !in w.ready && sp in w'.jobs && Narrow(w, w', sp)
    requires w'.jobs[sp].phase
             == KmsSet(w.jobs[sp].phase.src, w.jobs[sp].phase.key, InheritedKms(w, w.jobs[sp].phase.src, sp))
    requires DescOf(w', sp) == DescOf(w, sp).(kms := InheritedKms(w, w.jobs[sp].phase.src, sp))
    requires w'.vault == w.vault
    ensures JobOk(w', sp)
  {
    OpenAdvances(w, w', sp);
  }

  lemma SetDekOpen(w: World, w': World, sp: Spec)
    requires CanInherit(w, sp, SetDek) && JobFacts(w, sp) && sp !in w.ready && sp in w'.jobs && Narrow(w, w', sp)
    requires w'.jobs[sp].phase == DekSet(w.jobs[sp].phase.src, w.jobs[sp].phase.key, w.jobs[sp].phase.kms)
    requires DescOf(w', sp) == DescOf(w, sp).(dek := InheritedDek(w, w.jobs[sp].phase.src, sp))
    requires w'.vault == w.vault
    ensures JobOk(w', sp)
  {
    OpenAdvances(w, w', sp);
  }

  lemma SetUidOpen(w: World, w': World, sp: Spec)
    requires CanInherit(w, sp, SetUid) && JobFacts(w, sp) && sp !in w.ready && sp in w'.jobs && Narrow(w, w', sp)
    requires w'.jobs[sp].phase == UidSet(w.jobs[sp].phase.key, w.jobs[sp].phase.uid)
    requires DescOf(w', sp) == DescOf(w, sp).(uid := Some(w.jobs[sp].phase.uid))
    requires w'.vault == w.vault
    ensures JobOk(w', sp)
  {
    OpenAdvances(w, w', sp);
  }

  lemma SetOwnerOpen(w: World, w': World, sp: Spec)
    requires CanInherit(w, sp, SetOwner) && JobFacts(w, sp) && sp !in w.ready && sp in w'.jobs && Narrow(w, w', sp)
    requires w'.jobs[sp].phase == Copied(w.jobs[sp].phase.key)
    requires DescOf(w', sp) == DescOf(w, sp).(owner := Some(sp))
    requires w'.vault == w.vault
    ensures JobOk(w', sp)
  {
    OpenAdvances(w, w', sp);
  }

  /** A create run again leaves the descriptor, but for an unused key identity, and the key as
      they are. */
  /** What a replayed write finds in agreement stays as it is. */
  lemma AgreedSteady(w: World, w': World, sp: Spec, d: Desc)
    requires w'.meta == PutMeta(w, sp, d) && w'.vault == w.vault && w'.objects == w.objects
    requires d == DescOf(w, sp).(keyId := d.keyId, dek := d.dek)
    requires sp.Vol? ==> d.keyId.Some? == DescOf(w, sp).keyId.Some?
    requires d.kms == NoKms ==> d.keyId == DescOf(w, sp).keyId
    requires d.kms == SecretsMetadata && DescOf(w, sp).dek.Some? ==> d.dek == DescOf(w, sp).dek
    ensures Steady(w, w', sp)
  {
    hide DescOf, PutMeta;
    PutReads(w, w', sp, d, sp);
  }

  lemma RedoSteady(w: World, w': World, sp: Spec, a: InheritStep)
    requires CanInherit(w, sp, a) && Admitted(w, DoInherit(sp, a)) && JobFacts(w, sp) && sp in w.ready
    requires a != Finish && a != CloneKey
    requires w' == Inherit(w, sp, a)
    ensures Steady(w, w', sp)
  {
    hide Steady, HeldUid, IdFacts;
    var ph, d := w.jobs[sp].phase, DescOf(w, sp);
    match a
    case SetKeyId => AgreedSteady(w, w', sp, d.(keyId := Some(InheritedKeyId(w, ph.src, sp))));
    case SetKms => if w'.meta == w.meta { SameSteady(w, w', sp); } else { AgreedSteady(w, w', sp, d); }
    case SetDek =>
      if w'.meta == w.meta {
        SameSteady(w, w', sp);
      } else {
        AgreedSteady(w, w', sp, d.(dek := InheritedDek(w, ph.src, sp)));
      }
    case Attempt => SameSteady(w, w', sp);
    case Crash => SameSteady(w, w', sp);
    case _ =>
  }

  lemma SameSteady(w: World, w': World, sp: Spec)
    requires w'.meta == w.meta && w'.vault == w.vault && w'.objects == w.objects
    ensures Steady(w, w', sp)
  {
    assert DescOf(w', sp) == DescOf(w, sp);
  }

  lemma RedoCloneKeySteady(w: World, sp: Spec)
    requires CanInherit(w, sp, CloneKey)
    requires w.jobs[sp].phase.kms == DescOf(w, sp).kms
    requires DescOf(w, sp).kms == Kmip ==> DescOf(w, sp).owner == Some(sp)
    ensures Steady(w, Inherit(w, sp, CloneKey), sp)
  {}

  lemma RedoCloneKeyPhase(w: World, sp: Spec)
    requires CanInherit(w, sp, CloneKey)
    requires w.jobs[sp].phase.kms == DescOf(w, sp).kms
    requires DescOf(w, sp).kms == Kmip ==> DescOf(w, sp).owner == Some(sp)
    ensures Inherit(w, sp, CloneKey).jobs == Phased(w, sp, Copied(w.jobs[sp].phase.key)) ||
            Inherit(w, sp, CloneKey).jobs == Phased(w, sp, Idle)
  {}

  lemma RedoMoves(w: World, w': World, sp: Spec, ph: Phase)
    requires sp in w.ready && sp in w.jobs && w.jobs[sp].Copy? && RedoOk(w, sp, w.jobs[sp]) && Steady(w, w', sp)
    requires w'.ready == w.ready && w'.root == w.root && w'.jobs == Phased(w, sp, ph)
    requires !ph.Registered? && !ph.UidSet? && (sp.Snap? && HasSource(ph) ==> ph.src == Vol(sp.image))
    requires (ph.KmsSet? || ph.DekSet? ==> ph.kms == DescOf(w, sp).kms)
    requires DescOf(w, sp).kms == NoKms && !ph.Idle? && !ph.Begun? ==> ph.key == RootOf(w, sp)
    ensures JobOk(w', sp)
  {
    hide DescOf, Stored;
  }

  lemma RedoAdvances(w: World, w': World, sp: Spec, a: InheritStep)
    requires CanInherit(w, sp, a) && Admitted(w, DoInherit(sp, a)) && sp in w.ready && a != Finish && a != CloneKey
    requires RedoOk(w, sp, w.jobs[sp]) && sp in w.slots && SpecOk(w, sp) && w' == Inherit(w, sp, a) && Steady(w, w', sp)
    ensures JobOk(w', sp)
  {
    hide OpensWith, Stored, PutMeta, InheritedDek, Steady, JobOk;
    RedoMoves(w, w', sp, w'.jobs[sp].phase);
  }

  lemma RedoCloneKeyAdvances(w: World, w': World, sp: Spec)
    requires CanInherit(w, sp, CloneKey) && sp in w.ready && RedoOk(w, sp, w.jobs[sp])
    requires w'.jobs == Phased(w, sp, Copied(w.jobs[sp].phase.key)) || w'.jobs == Phased(w, sp, Idle)
    requires w'.ready == w.ready && w'.root == w.root && Steady(w, w', sp)
    ensures JobOk(w', sp)
  {}

  lemma VaultIsLocal(w: World, sp: Spec, src: Spec, key: Spec)
    requires CanInherit(w, sp, CloneKey)
    ensures Local(w, VaultCloneKey(w, sp, src, key), sp) && DescOf(VaultCloneKey(w, sp, src, key), sp) == DescOf(w, sp)
  {}

  lemma KmipIsLocal(w: World, sp: Spec, src: Spec, key: Spec)
    requires CanInherit(w, sp, CloneKey)
    requires forall u | u in w.objects :: u < w.next
    ensures Local(w, KmipCloneKey(w, sp, src, key), sp) && DescOf(KmipCloneKey(w, sp, src, key), sp) == DescOf(w, sp)
  {}

  lemma PlainIsLocal(w: World, sp: Spec, key: Spec)
    requires CanInherit(w, sp, CloneKey)
    ensures Local(w, PlainCloneKey(w, sp, key), sp) && DescOf(PlainCloneKey(w, sp, key), sp) == DescOf(w, sp)
  {}

  lemma CloneKeyIsLocal(w: World, sp: Spec)
    requires CanInherit(w, sp, CloneKey)
    requires forall u | u in w.objects :: u < w.next
    ensures Local(w, Inherit(w, sp, CloneKey), sp) && DescOf(Inherit(w, sp, CloneKey), sp) == DescOf(w, sp)
  {
    hide Local, VaultCloneKey, KmipCloneKey, PlainCloneKey;
    var ph := w.jobs[sp].phase;
    match ph.kms
    case Vault => VaultIsLocal(w, sp, ph.src, ph.key);
    case Kmip => KmipIsLocal(w, sp, ph.src, ph.key);
    case _ => PlainIsLocal(w, sp, ph.key);
  }

  /** Each command but the last is local to its copy. */
  lemma StepIsLocal(w: World, sp: Spec, a: InheritStep)
    requires CanInherit(w, sp, a) && JobFacts(w, sp) && a != Finish && a != CloneKey
    ensures Local(w, Inherit(w, sp, a), sp)
  {
    hide Local, JobOk, SpecOk, IdFacts, HeldUid;
    var w', ph := Inherit(w, sp, a), w.jobs[sp].phase;
    match a
    case Attempt => PutIsLocal(w, w', sp, DescOf(w, sp), Begun(SourceSpec(w, w.jobs[sp].from)));
    case Crash => PutIsLocal(w, w', sp, DescOf(w, sp), Idle);
    case SetKeyId =>
      var k := InheritedKeyId(w, ph.src, sp);
      PutIsLocal(w, w', sp, DescOf(w, sp).(keyId := Some(k)), KeySet(ph.src, k));
    case SetKms =>
      var kms := InheritedKms(w, ph.src, sp);
      PutIsLocal(w, w', sp, DescOf(w, sp).(kms := kms), KmsSet(ph.src, ph.key, kms));
    case SetDek =>
      PutIsLocal(w, w', sp, DescOf(w, sp).(dek := InheritedDek(w, ph.src, sp)), DekSet(ph.src, ph.key, ph.kms));
    case SetUid => PutIsLocal(w, w', sp, DescOf(w, sp).(uid := Some(ph.uid)), UidSet(ph.key, ph.uid));
    case SetOwner => PutIsLocal(w, w', sp, DescOf(w, sp).(owner := Some(sp)), Copied(ph.key));
  }

  lemma PlainStepOpen(w: World, sp: Spec, a: InheritStep)
    requires CanInherit(w, sp, a) && JobFacts(w, sp) && sp !in w.ready
    requires a == Attempt || a == Crash || a == SetUid || a == SetOwner
    requires Local(w, Inherit(w, sp, a), sp)
    ensures JobOk(Inherit(w, sp, a), sp)
  {
    var w' := Inherit(w, sp, a);
    LocalNarrow(w, w', sp);
    match a
    case Attempt => AttemptOpen(w, w', sp);
    case Crash => CrashOpen(w, w', sp);
    case SetUid => SetUidOpen(w, w', sp);
    case SetOwner => SetOwnerOpen(w, w', sp);
  }

  lemma InheritStepOpen(w: World, sp: Spec, a: InheritStep)
    requires CanInherit(w, sp, a) && JobFacts(w, sp) && sp !in w.ready && (a == SetKeyId || a == SetKms || a == SetDek)
    requires Local(w, Inherit(w, sp, a), sp)
    ensures JobOk(Inherit(w, sp, a), sp)
  {
    var w' := Inherit(w, sp, a);
    LocalNarrow(w, w', sp);
    match a
    case SetKeyId => SetKeyIdOpen(w, w', sp);
    case SetKms => SetKmsOpen(w, w', sp);
    case SetDek => SetDekOpen(w, w', sp);
  }

  lemma StepOpen(w: World, sp: Spec, a: InheritStep)
    requires CanInherit(w, sp, a) && JobFacts(w, sp) && a != Finish && a != CloneKey && sp !in w.ready
    ensures JobOk(Inherit(w, sp, a), sp)
  {
    hide JobOk, JobFacts, Local, Inherit, CanInherit;
    StepIsLocal(w, sp, a);
    if a == SetKeyId || a == SetKms || a == SetDek { InheritStepOpen(w, sp, a); } else { PlainStepOpen(w, sp, a); }
  }

  lemma VaultOpen(w: World, sp: Spec, src: Spec, key: Spec)
    requires CanInherit(w, sp, CloneKey) && JobFacts(w, sp) && sp !in w.ready
    requires w.jobs[sp].phase == DekSet(src, key, Vault)
    ensures sp in VaultCloneKey(w, sp, src, key).jobs && JobOk(VaultCloneKey(w, sp, src, key), sp)
  {
    var w' := VaultCloneKey(w, sp, src, key);
    VaultIsLocal(w, sp, src, key);
    LocalNarrow(w, w', sp);
    OpenAdvances(w, w', sp);
  }

  lemma KmipOpen(w: World, sp: Spec, src: Spec, key: Spec)
    requires CanInherit(w, sp, CloneKey) && JobFacts(w, sp) && sp !in w.ready
    requires w.jobs[sp].phase == DekSet(src, key, Kmip) && forall u | u in w.objects :: u < w.next
    ensures sp in KmipCloneKey(w, sp, src, key).jobs && JobOk(KmipCloneKey(w, sp, src, key), sp)
  {
    var w' := KmipCloneKey(w, sp, src, key);
    KmipIsLocal(w, sp, src, key);
    LocalNarrow(w, w', sp);
    OpenAdvances(w, w', sp);
  }

  lemma PlainOpen(w: World, sp: Spec, src: Spec, key: Spec, kms: Kms)
    requires CanInherit(w, sp, CloneKey) && JobFacts(w, sp) && sp !in w.ready
    requires w.jobs[sp].phase == DekSet(src, key, kms) && kms != Vault && kms != Kmip
    ensures sp in PlainCloneKey(w, sp, key).jobs && JobOk(PlainCloneKey(w, sp, key), sp)
  {
    var w' := PlainCloneKey(w, sp, key);
    PlainIsLocal(w, sp, key);
    LocalNarrow(w, w', sp);
    OpenAdvances(w, w', sp);
  }

  lemma CloneKeyOpen(w: World, sp: Spec)
    requires CanInherit(w, sp, CloneKey) && JobFacts(w, sp) && sp !in w.ready
    requires forall u | u in w.objects :: u < w.next
    ensures sp in Inherit(w, sp, CloneKey).jobs && JobOk(Inherit(w, sp, CloneKey), sp)
  {
    hide JobOk, JobFacts, VaultCloneKey, KmipCloneKey, PlainCloneKey;
    var ph := w.jobs[sp].phase;
    match ph.kms
    case Vault => VaultOpen(w, sp, ph.src, ph.key);
    case Kmip => KmipOpen(w, sp, ph.src, ph.key);
    case _ => PlainOpen(w, sp, ph.src, ph.key, ph.kms);
  }

  lemma StepIds(w: World, sp: Spec, a: InheritStep)
    requires CanInherit(w, sp, a) && IdFacts(w, sp) && a != Finish && a != CloneKey
    ensures var w' := Inherit(w, sp, a);
            && KnownOpt(w', DescOf(w', sp).dek) && KnownUid(w', DescOf(w', sp).uid) && JobIdsKnown(w', w'.jobs[sp])
            && w'.vault == w.vault && w'.next == w.next && w'.objects == w.objects
  {}

  /** A step that leaves UID and owner alone lets go of an object at most. */
  lemma QuietHolds(w: World, w': World, sp: Spec)
    requires sp in w.jobs && sp in w'.jobs && w'.ready == w.ready && w'.dying == w.dying && w'.jobs[sp].Copy?
    requires !w'.jobs[sp].phase.Registered? && !w'.jobs[sp].phase.UidSet?
    requires DescOf(w', sp).uid == DescOf(w, sp).uid && DescOf(w', sp).owner == DescOf(w, sp).owner
    ensures HoldsOwn(w, w', sp)
  {
    hide DescOf;
  }

  lemma RecordHolds(w: World, sp: Spec, a: InheritStep)
    requires CanInherit(w, sp, a) && JobFacts(w, sp) && (a == SetUid || a == SetOwner)
    ensures HoldsOwn(w, Inherit(w, sp, a), sp)
  {}

  lemma StepHolds(w: World, sp: Spec, a: InheritStep)
    requires CanInherit(w, sp, a) && JobFacts(w, sp) && a != Finish && a != CloneKey
    ensures HoldsOwn(w, Inherit(w, sp, a), sp)
  {
    hide HoldsOwn, JobOk, SpecOk, IdFacts, HeldUid;
    var w', d, ph := Inherit(w, sp, a), DescOf(w, sp), w.jobs[sp].phase;
    match a
    case SetUid => RecordHolds(w, sp, a);
    case SetOwner => RecordHolds(w, sp, a);
    case SetKeyId => PutReads(w, w', sp, d.(keyId := Some(InheritedKeyId(w, ph.src, sp))), sp); QuietHolds(w, w', sp);
    case SetKms =>
      if w'.meta != w.meta { PutReads(w, w', sp, d.(kms := InheritedKms(w, ph.src, sp)), sp); }
      QuietHolds(w, w', sp);
    case SetDek =>
      if w'.meta != w.meta { PutReads(w, w', sp, d.(dek := InheritedDek(w, ph.src, sp)), sp); }
      QuietHolds(w, w', sp);
    case _ => QuietHolds(w, w', sp);
  }

  /** The ids a step brings in for `sp` are drawn ones. */
  ghost predicate IdsAfter(w: World, w': World, sp: Spec) {
    && sp in w'.jobs && JobIdsKnown(w', w'.jobs[sp])
    && (sp in w'.vault ==> Known(w', w'.vault[sp]))
    && (forall u | u in w'.objects && u !in w.objects :: Known(w', w'.objects[u]))
  }

  lemma VaultIds(w: World, sp: Spec, src: Spec, key: Spec)
    requires CanInherit(w, sp, CloneKey) && IdFacts(w, sp) && src == w.jobs[sp].phase.src
    ensures IdsAfter(w, VaultCloneKey(w, sp, src, key), sp)
  {}

  lemma KmipIds(w: World, sp: Spec, src: Spec, key: Spec)
    requires CanInherit(w, sp, CloneKey) && IdFacts(w, sp)
    requires forall u | u in w.objects :: Known(w, w.objects[u])
    ensures IdsAfter(w, KmipCloneKey(w, sp, src, key), sp)
  {}

  lemma PlainIds(w: World, sp: Spec, key: Spec)
    requires CanInherit(w, sp, CloneKey) && IdFacts(w, sp)
    ensures IdsAfter(w, PlainCloneKey(w, sp, key), sp)
  {}

  lemma CloneKeyIds(w: World, sp: Spec)
    requires CanInherit(w, sp, CloneKey) && IdFacts(w, sp)
    requires forall u | u in w.objects :: Known(w, w.objects[u])
    ensures IdsAfter(w, Inherit(w, sp, CloneKey), sp)
  {
    hide IdsAfter, IdFacts, VaultCloneKey, KmipCloneKey, PlainCloneKey;
    var ph := w.jobs[sp].phase;
    match ph.kms
    case Vault => VaultIds(w, sp, ph.src, ph.key);
    case Kmip => KmipIds(w, sp, ph.src, ph.key);
    case _ => PlainIds(w, sp, ph.key);
  }

  lemma VaultHolds(w: World, sp: Spec, src: Spec, key: Spec)
    requires CanInherit(w, sp, CloneKey) && JobFacts(w, sp)
    ensures HoldsOwn(w, VaultCloneKey(w, sp, src, key), sp)
  {
    assert DescOf(VaultCloneKey(w, sp, src, key), sp) == DescOf(w, sp);
  }

  lemma KmipHolds(w: World, sp: Spec, src: Spec, key: Spec)
    requires CanInherit(w, sp, CloneKey) && JobFacts(w, sp) && w.jobs[sp].phase == DekSet(src, key, Kmip)
    ensures HoldsOwn(w, KmipCloneKey(w, sp, src, key), sp)
  {
    assert DescOf(KmipCloneKey(w, sp, src, key), sp) == DescOf(w, sp);
  }

  lemma PlainHolds(w: World, sp: Spec, key: Spec)
    requires CanInherit(w, sp, CloneKey) && JobFacts(w, sp)
    ensures HoldsOwn(w, PlainCloneKey(w, sp, key), sp)
  {
    assert DescOf(PlainCloneKey(w, sp, key), sp) == DescOf(w, sp);
  }

  lemma CloneKeyHolds(w: World, sp: Spec)
    requires CanInherit(w, sp, CloneKey) && JobFacts(w, sp)
    ensures HoldsOwn(w, Inherit(w, sp, CloneKey), sp)
  {
    hide HoldsOwn, JobFacts, VaultCloneKey, KmipCloneKey, PlainCloneKey;
    var ph := w.jobs[sp].phase;
    match ph.kms
    case Vault => VaultHolds(w, sp, ph.src, ph.key);
    case Kmip => KmipHolds(w, sp, ph.src, ph.key);
    case _ => PlainHolds(w, sp, ph.key);
  }

  lemma KeepsStep(w: World, sp: Spec, a: InheritStep)
    requires Inv(w) && CanInherit(w, sp, a) && Admitted(w, DoInherit(sp, a)) && a != Finish && a != CloneKey
    ensures Inv(Inherit(w, sp, a))
  {
    var w' := Inherit(w, sp, a);
    InvJob(w, sp);
    StepIsLocal(w, sp, a);
    StepIds(w, sp, a);
    StepHolds(w, sp, a);
    if sp in w.ready {
      RedoSteady(w, w', sp, a);
      RedoAdvances(w, w', sp, a);
    } else {
      StepOpen(w, sp, a);
    }
    LocalKeeps(w, w', sp);
  }

  lemma KeepsCloneKey(w: World, sp: Spec)
    requires Inv(w) && CanInherit(w, sp, CloneKey)
    ensures Inv(Inherit(w, sp, CloneKey))
  {
    var w' := Inherit(w, sp, CloneKey);
    InvJob(w, sp);
    CloneKeyIsLocal(w, sp);
    CloneKeyIds(w, sp);
    CloneKeyHolds(w, sp);
    if sp in w.ready {
      RedoCloneKeySteady(w, sp);
      RedoCloneKeyPhase(w, sp);
      RedoCloneKeyAdvances(w, w', sp);
    } else {
      CloneKeyOpen(w, sp);
    }
    LocalKeeps(w, w', sp);
  }

  // ---- the last step -------------------------------------------------------

  lemma FinishedSpec(w: World, w': World, sp: Spec)
    requires CanInherit(w, sp, Finish) && JobFacts(w, sp) && w' == Inherit(w, sp, Finish)
    requires DescOf(w', sp) == DescOf(w, sp) && Stored(w', sp) == Stored(w, sp) && w'.slots == w.slots
    requires sp.Snap? ==> Agree(w, w', Vol(sp.image))
    ensures sp in w'.slots && SpecOk(w', sp)
  {}

  lemma FinishAgrees(w: World, sp: Spec)
    requires CanInherit(w, sp, Finish)
    ensures AgreeBut(w, Inherit(w, sp, Finish), sp)
    ensures DescOf(Inherit(w, sp, Finish), sp) == DescOf(w, sp) && Stored(Inherit(w, sp, Finish), sp) == Stored(w, sp)
  {
    var w' := Inherit(w, sp, Finish);
    forall x ensures DescOf(w', x) == DescOf(w, x) && Stored(w', x) == Stored(w, x) {}
  }

  lemma FinishSource(w: World, w': World, sp: Spec, x: Spec)
    requires CanInherit(w, sp, Finish) && w' == Inherit(w, sp, Finish) && JobFacts(w, sp)
    requires x in w.jobs && x != sp && JobOk(w, x) && AgreeBut(w, w', sp)
    requires DescOf(w', sp) == DescOf(w, sp) && Stored(w', sp) == Stored(w, sp)
    ensures SourceHolds(w, w', x)
  {
    var j := w.jobs[x];
    if j.Copy? && x !in w.ready {
      if Vol(j.from.image) != sp { assert Agree(w, w', Vol(j.from.image)); }
      if SourceOf(j.from) != sp { assert Agree(w, w', SourceOf(j.from)); }
    }
  }

  lemma FinishHeld(w: World, w': World, sp: Spec, h: Holder)
    requires CanInherit(w, sp, Finish) && w' == Inherit(w, sp, Finish) && JobFacts(w, sp)
    requires DescOf(w', sp) == DescOf(w, sp) && AgreeBut(w, w', sp)
    ensures HeldUid(w', h) == HeldUid(w, h)
  {
    if !h.OfRotation? && h.sp != sp { assert Agree(w, w', h.sp); }
  }

  lemma FinishShape(w: World, sp: Spec)
    requires Shape(w) && CanInherit(w, sp, Finish) && sp in w.slots && sp !in w.dying
    ensures Shape(Inherit(w, sp, Finish))
  {}

  lemma FinishIds(w: World, sp: Spec)
    requires IdsKnown(w) && CanInherit(w, sp, Finish)
    ensures IdsKnown(Inherit(w, sp, Finish))
  {
    var w' := Inherit(w, sp, Finish);
    forall x ensures DescOf(w', x) == DescOf(w, x) {}
    IdsStayKnown(w, w');
  }

  lemma FinishSpecs(w: World, w': World, sp: Spec)
    requires CanInherit(w, sp, Finish) && w' == Inherit(w, sp, Finish) && JobFacts(w, sp)
    requires SpecsOk(w) && Shape(w) && AgreeBut(w, w', sp) && DescOf(w', sp) == DescOf(w, sp)
    requires Stored(w', sp) == Stored(w, sp)
    ensures SpecsOk(w')
  {
    forall x | x in w'.ready ensures x in w'.slots && SpecOk(w', x) {
      if x.Snap? && x in w.slots { assert Vol(x.image) in w.ready && SpecOk(w, Vol(x.image)); }
      if x == sp {
        FinishedSpec(w, w', sp);
      } else {
        assert SpecOk(w, x) && Agree(w, w', x);
        if x.Snap? && Vol(x.image) != sp { assert Agree(w, w', Vol(x.image)); }
        SpecCarries(w, w', x);
      }
    }
  }

  lemma FinishJobs(w: World, w': World, sp: Spec)
    requires CanInherit(w, sp, Finish) && w' == Inherit(w, sp, Finish) && JobFacts(w, sp)
    requires JobsOk(w) && AgreeBut(w, w', sp) && DescOf(w', sp) == DescOf(w, sp) && Stored(w', sp) == Stored(w, sp)
    ensures JobsOk(w')
  {
    forall x | x in w'.jobs ensures JobOk(w', x) {
      assert JobOk(w, x) && Agree(w, w', x);
      FinishSource(w, w', sp, x);
      JobCarries(w, w', x);
    }
  }

  lemma FinishRots(w: World, w': World, sp: Spec)
    requires CanInherit(w, sp, Finish) && w' == Inherit(w, sp, Finish) && JobOk(w, sp) && RotsOk(w)
    requires AgreeBut(w, w', sp)
    requires DescOf(w', sp) == DescOf(w, sp) && Stored(w', sp) == Stored(w, sp)
    ensures RotsOk(w')
  {
    forall r | r in w'.rots ensures RotOk(w', r) {
      assert RotOk(w, r);
      if Vol(w.rots[r].image) != sp {
        assert Agree(w, w', Vol(w.rots[r].image));
        RotCarries(w, w', r);
      }
    }
    forall r, q | r in w'.rots && q in w'.rots ensures RotsApart(w', r, q) { assert RotsApart(w, r, q); }
  }

  lemma FinishHolders(w: World, w': World, sp: Spec)
    requires Exclusive(w) && PriorsPrivate(w) && w'.rots == w.rots && forall h :: HeldUid(w', h) == HeldUid(w, h)
    ensures Exclusive(w') && PriorsPrivate(w')
  {
    hide HeldUid;
  }

  lemma FinishTurns(w: World, sp: Spec)
    requires CanInherit(w, sp, Finish)
    ensures Inherit(w, sp, Finish).rots == w.rots
  {}

  lemma KeepsFinish(w: World, sp: Spec)
    requires Inv(w) && CanInherit(w, sp, Finish)
    ensures Inv(Inherit(w, sp, Finish))
  {
    var w' := Inherit(w, sp, Finish);
    InvJob(w, sp);
    hide AgreeBut, SpecOk, SpecsOk, RotsOk, RotOk, IdsKnown, Exclusive, PriorsPrivate, HeldUid, Inherit, CanInherit,
         DescOf, Stored, Shape;
    FinishAgrees(w, sp);
    FinishIds(w, sp);
    FinishShape(w, sp);
    FinishSpecs(w, w', sp);
    FinishJobs(w, w', sp);
    FinishRots(w, w', sp);
    forall h ensures HeldUid(w', h) == HeldUid(w, h) { FinishHeld(w, w', sp, h); }
    FinishTurns(w, sp);
    FinishHolders(w, w', sp);
  }

  lemma KeepsInherit(w: World, sp: Spec, a: InheritStep)
    requires Inv(w) && CanInherit(w, sp, a) && Admitted(w, DoInherit(sp, a))
    ensures Inv(Inherit(w, sp, a))
  {
    if a == Finish {
      KeepsFinish(w, sp);
    } else if a == CloneKey {
      KeepsCloneKey(w, sp);
    } else {
      KeepsStep(w, sp, a);
    }
  }
}
