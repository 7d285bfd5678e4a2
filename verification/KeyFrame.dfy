/** What a step that touches one spec leaves alone. */
module KeyFrame {
  import opened Options
  import opened KeyPlane
  import opened KeyInvariant

  /** Spec `x` looks the same in both worlds. */
  ghost predicate Agree(w: World, w': World, x: Spec) {
    && DescOf(w', x) == DescOf(w, x)
    && (Live(w, x) ==> Stored(w', x) == Stored(w, x))
    && (x in w'.slots <==> x in w.slots) && (x in w.slots ==> w'.slots[x] == w.slots[x])
    && (x in w'.ready <==> x in w.ready)
    && (x in w'.jobs <==> x in w.jobs) && (x in w.jobs ==> w'.jobs[x] == w.jobs[x])
    && (x in w'.dying <==> x in w.dying)
    && (x in w'.root <==> x in w.root) && RootOf(w', x) == RootOf(w, x)
    && (x.Vol? ==> ContextKeyId(w', x.image) == ContextKeyId(w, x.image))
  }

  /** The key stored for `x` is its own to lose. */
  ghost predicate Live(w: World, x: Spec) {
    x in w.ready || (x in w.jobs && DescOf(w, x).owner == Some(x)) || DescOf(w, x).kms != Kmip
  }

  /** The object a holder is about to record is untouched. */
  ghost predicate HeldKept(w: World, w': World, h: Holder) {
    var u := HeldUid(w, h);
    u.Some? && u.value in w.objects ==> u.value in w'.objects && w'.objects[u.value] == w.objects[u.value]
  }

  ghost predicate AgreeBut(w: World, w': World, sp: Spec) { forall x :: x != sp ==> Agree(w, w', x) }

  /** The objects of `w` are still there, with the same contents. */
  ghost predicate ObjectsGrow(w: World, w': World) {
    forall u | u in w.objects :: u in w'.objects && w'.objects[u] == w.objects[u]
  }

  /** What the snapshots of a finished volume rely on. */
  ghost predicate VolSteady(w: World, w': World, v: Spec) {
    v in w'.ready && DescOf(w', v).kms == DescOf(w, v).kms && RootOf(w', v) == RootOf(w, v)
  }

  lemma SpecCarries(w: World, w': World, x: Spec)
    requires x in w.ready && x in w.slots && SpecOk(w, x) && Agree(w, w', x)
    requires x.Snap? ==> Vol(x.image) in w.ready && VolSteady(w, w', Vol(x.image))
    ensures x in w'.slots && SpecOk(w', x)
  {}

  /** The source of an unfinished copy still has what the copy came for. */
  ghost predicate SourceHolds(w: World, w': World, x: Spec)
    requires x in w.jobs
  {
    var j := w.jobs[x];
    j.Copy? && x !in w.ready ==>
      var src, v := SourceOf(j.from), Vol(j.from.image);
      && (v in w'.jobs ==> v in w'.ready) && (src in w'.jobs ==> src in w'.ready)
      && (j.frozen.Some? ==> v in w'.ready && RootOf(w', v) == RootOf(w, v))
      && (if j.srcKms == NoKms then
            && DescOf(w', v).kms == NoKms && (DescOf(w, v).keyId.None? ==> DescOf(w', v).keyId.None?)
            && (j.from.FromSnapshot? ==> DescOf(w', src).kms == NoKms)
          else
            && (HoldsKey(w, x) || SourceServing(w, w', x, src))
            && (j.from.Capture? ==> v in w'.ready && DescOf(w', v).kms == DescOf(w, v).kms)
            && (j.from.FromSnapshot? ==>
                  && (v in w'.ready ==> v in w.ready && DescOf(w', v).kms == DescOf(w, v).kms)
                  && (src in w'.ready ==> src in w.ready && SourceServing(w, w', x, src))
                  && Fading(DescOf(w, src), DescOf(w', src), j.srcKms, HeaderOf(w, x))))
  }

  /** A finished source is still finished, and still has the key that copy `x` needs. */
  ghost predicate SourceServing(w: World, w': World, x: Spec, src: Spec)
    requires x in w.jobs
  {
    && src in w'.ready && DescOf(w', src).kms == DescOf(w, src).kms
    && (DescOf(w, src).uid.Some? ==> DescOf(w', src).uid.Some?)
    && (HeaderOf(w, x) != {} ==> Stored(w', src) == Stored(w, src))
  }

  /** The descriptor of a snapshot stands, or is being wiped. */
  ghost predicate Fading(d: Desc, d': Desc, kms: Kms, header: set<Pass>) {
    (d'.kms == NoKms || d'.kms == d.kms) && (kms == SecretsMetadata && header != {} ==> d'.dek.None? || d'.dek == d.dek)
  }

  /** A copy holds its key as before. */
  lemma HoldingCarries(w: World, w': World, x: Spec)
    requires x in w.jobs && Agree(w, w', x)
    ensures x in w'.jobs && HeaderOf(w', x) == HeaderOf(w, x) && (HoldsKey(w, x) ==> HoldsKey(w', x))
  {}

  lemma SourceCarries(w: World, w': World, x: Spec)
    requires x in w.jobs && w.jobs[x].Copy? && x !in w.ready && Agree(w, w', x) && SourceHolds(w, w', x)
    requires SourceOk(w, x, w.jobs[x])
    requires w.jobs[x].frozen.Some? ==> FrozenOk(w, x, w.jobs[x])
    ensures SourceOk(w', x, w'.jobs[x]) && (w.jobs[x].frozen.Some? ==> FrozenOk(w', x, w'.jobs[x]))
  {
    HoldingCarries(w, w', x);
    hide HoldsKey, HeaderOf, DescOf, Stored;
  }

  lemma OwnCarries(w: World, w': World, x: Spec)
    requires x in w.jobs && w.jobs[x].Copy? && x !in w.ready && Agree(w, w', x) && SourceHolds(w, w', x)
    requires SourceOk(w, x, w.jobs[x]) && OwnOk(w, x, w.jobs[x])
    ensures OwnOk(w', x, w'.jobs[x])
  {
    HoldingCarries(w, w', x);
    hide HoldsKey, HeaderOf, DescOf, Stored;
  }

  lemma PhaseCarries(w: World, w': World, x: Spec)
    requires x in w.jobs && w.jobs[x].Copy? && x !in w.ready && Agree(w, w', x) && PhaseOk(w, x, w.jobs[x])
    requires HeldKept(w, w', OfJob(x))
    ensures PhaseOk(w', x, w'.jobs[x])
  {
    HoldingCarries(w, w', x);
    hide HoldsKey, HeaderOf, DescOf, Stored;
  }

  lemma JobCarries(w: World, w': World, x: Spec)
    requires x in w.jobs && JobOk(w, x) && Agree(w, w', x) && SourceHolds(w, w', x)
    requires HeldKept(w, w', OfJob(x))
    ensures x in w'.jobs && JobOk(w', x)
  {
    hide SourceOk, FrozenOk, OwnOk, PhaseOk, DescOf, HeldKept, SourceServing, Fading, HoldsKey, Stored;
    if w.jobs[x].Copy? && x !in w.ready {
      SourceCarries(w, w', x);
      if w.jobs[x].frozen.None? {
        OwnCarries(w, w', x);
        PhaseCarries(w, w', x);
      }
    }
  }

  lemma SourceAgrees(w: World, w': World, x: Spec)
    requires x in w.jobs && JobOk(w, x)
    requires w.jobs[x].Copy? ==> Agree(w, w', Vol(w.jobs[x].from.image)) && Agree(w, w', SourceOf(w.jobs[x].from))
    ensures SourceHolds(w, w', x)
  {}

  lemma RotCarries(w: World, w': World, r: nat)
    requires r in w.rots && r in w'.rots && w'.rots[r] == w.rots[r] && RotOk(w, r)
    requires Agree(w, w', Vol(w.rots[r].image)) && HeldKept(w, w', OfRotation(r))
    ensures RotOk(w', r)
  {}

  lemma HeldCarries(w: World, w': World, h: Holder)
    requires h.OfRotation? ==> w'.rots == w.rots
    requires !h.OfRotation? ==> Agree(w, w', h.sp)
    ensures HeldUid(w', h) == HeldUid(w, h)
  {}

  /** A step of the volume `v` alone carries every other spec and every copy. */
  ghost predicate VolStep(w: World, w': World, v: string) {
    && AgreeBut(w, w', Vol(v)) && Vol(v) in w.ready && VolSteady(w, w', Vol(v))
    && Vol(v) in w'.slots && SpecOk(w', Vol(v))
    && w'.ready == w.ready && w'.jobs == w.jobs
    && DescOf(w', Vol(v)).keyId == DescOf(w, Vol(v)).keyId
    && (DescOf(w, Vol(v)).uid.Some? ==> DescOf(w', Vol(v)).uid.Some?)
    && (Stored(w', Vol(v)) == Stored(w, Vol(v)) || Stored(w, Vol(v)).None? || KeyUnwatched(w, v))
  }

  /** The copy of a volume that moves alone. */
  lemma VolStepCopy(w: World, w': World, v: string, x: Spec)
    requires VolStep(w, w', v) && x in w.jobs && JobOk(w, x) && w.jobs[x].Copy? && x !in w.ready
    requires w.jobs[x].from.image == v
    requires w.jobs[x].from.FromSnapshot? ==> Agree(w, w', SourceOf(w.jobs[x].from))
    ensures SourceHolds(w, w', x)
  {
    hide OwnOk, PhaseOk, HoldsKey, DescOf, Stored, SpecOk;
    assert Copying(w, x, v);
  }

  lemma VolStepSource(w: World, w': World, v: string, x: Spec)
    requires JobsOk(w) && VolStep(w, w', v) && x in w.jobs
    ensures SourceHolds(w, w', x)
  {
    hide JobOk, SourceHolds, Agree, DescOf, Stored, SpecOk, KeyUnwatched;
    assert JobOk(w, x);
    if w.jobs[x].Copy? && x !in w.ready && w.jobs[x].from.image == v {
      VolStepCopy(w, w', v, x);
    } else {
      OffSource(w, w', iset{Vol(v)}, x);
    }
  }

  lemma VolStepCarries(w: World, w': World, v: string)
    requires Inv(w) && VolStep(w, w', v)
    requires forall x :: HeldKept(w, w', OfJob(x))
    ensures SpecsOk(w') && JobsOk(w')
  {
    forall x | x in w'.ready ensures x in w'.slots && SpecOk(w', x) {
      if x != Vol(v) {
        assert SpecOk(w, x) && Agree(w, w', x);
        if x.Snap? && x.image != v { assert Agree(w, w', Vol(x.image)); }
        SpecCarries(w, w', x);
      }
    }
    forall x | x in w'.jobs ensures JobOk(w', x) {
      assert JobOk(w, x);
      if x != Vol(v) {
        assert Agree(w, w', x) && HeldKept(w, w', OfJob(x));
        VolStepSource(w, w', v, x);
        JobCarries(w, w', x);
      }
    }
  }

  /** A step no spec can notice carries every spec and every copy. */
  lemma AgreeCarries(w: World, w': World)
    requires Inv(w) && w'.ready == w.ready && w'.jobs == w.jobs
    requires forall x :: Agree(w, w', x)
    requires forall x :: HeldKept(w, w', OfJob(x))
    ensures SpecsOk(w') && JobsOk(w')
  {
    forall x | x in w'.ready ensures x in w'.slots && SpecOk(w', x) {
      assert SpecOk(w, x) && Agree(w, w', x) && (x.Snap? ==> Agree(w, w', Vol(x.image)));
      SpecCarries(w, w', x);
    }
    forall x | x in w'.jobs ensures JobOk(w', x) {
      assert JobOk(w, x) && Agree(w, w', x) && HeldKept(w, w', OfJob(x));
      if w.jobs[x].Copy? { assert Agree(w, w', Vol(w.jobs[x].from.image)) && Agree(w, w', SourceOf(w.jobs[x].from)); }
      SourceAgrees(w, w', x);
      JobCarries(w, w', x);
    }
  }

  lemma HeldKnown(w: World, h: Holder)
    requires IdsKnown(w)
    ensures KnownUid(w, HeldUid(w, h))
  {
    if h.OfSpec? { assert KnownUid(w, DescOf(w, h.sp).uid); }
    if h.OfJob? && h.sp in w.jobs { assert JobIdsKnown(w, w.jobs[h.sp]); }
    if h.OfRotation? && h.r in w.rots { assert TurnIdsKnown(w, w.rots[h.r].turn); }
  }

  // ---- steps that touch a set of specs, and no rotation --------------------

  ghost predicate AgreeOff(w: World, w': World, T: iset<Spec>) { forall x | x !in T :: Agree(w, w', x) }

  /** What is left to show about the touched specs. */
  ghost predicate TouchedOk(w: World, w': World, T: iset<Spec>) {
    && (forall x | x in T && x in w'.ready :: x in w'.slots && SpecOk(w', x))
    && (forall x | x in T && x in w'.jobs :: JobOk(w', x))
    && (forall x | x !in T && x in w.ready && x.Snap? && Vol(x.image) in T :: VolSteady(w, w', Vol(x.image)))
    && (forall x | x !in T && x in w.jobs :: SourceHolds(w, w', x))
  }

  lemma OffCarries(w: World, w': World, T: iset<Spec>)
    requires SpecsOk(w) && JobsOk(w) && AgreeOff(w, w', T) && TouchedOk(w, w', T)
    requires forall x :: HeldKept(w, w', OfJob(x))
    ensures SpecsOk(w') && JobsOk(w')
  {
    forall x | x in w'.ready && x !in T ensures x in w'.slots && SpecOk(w', x) {
      assert Agree(w, w', x);
      assert SpecOk(w, x);
      if x.Snap? && Vol(x.image) !in T { assert Agree(w, w', Vol(x.image)); }
      SpecCarries(w, w', x);
    }
    forall x | x in w'.jobs && x !in T ensures JobOk(w', x) {
      assert Agree(w, w', x);
      assert JobOk(w, x) && HeldKept(w, w', OfJob(x));
      JobCarries(w, w', x);
    }
  }

  lemma OffRots(w: World, w': World, T: iset<Spec>)
    requires RotsOk(w) && AgreeOff(w, w', T) && w'.rots == w.rots
    requires forall r :: HeldKept(w, w', OfRotation(r))
    requires forall r | r in w.rots && Vol(w.rots[r].image) in T :: RotOk(w', r)
    requires forall r | r in w.rots ::
             SeenPass(w', w.rots[r].turn) == SeenPass(w, w.rots[r].turn) || SeenPass(w', w.rots[r].turn).None?
    ensures RotsOk(w')
  {
    forall r | r in w'.rots ensures RotOk(w', r) {
      assert HeldKept(w, w', OfRotation(r));
      if Vol(w.rots[r].image) !in T {
        assert RotOk(w, r) && Agree(w, w', Vol(w.rots[r].image));
        RotCarries(w, w', r);
      }
    }
    forall r, q | r in w'.rots && q in w'.rots ensures RotsApart(w', r, q) { assert RotsApart(w, r, q); }
  }

  /** Letting go of objects, or taking hold of new ones, keeps them exclusive. */
  lemma OffHolds(w: World, w': World, h0: Holder)
    requires IdsKnown(w) && Exclusive(w) && PriorsPrivate(w) && w'.rots == w.rots
    requires forall h ::
             HeldUid(w', h) == HeldUid(w, h) || HeldUid(w', h).None? || (h == h0 && HeldUid(w', h).value >= w.next)
    ensures Exclusive(w') && PriorsPrivate(w')
  {
    forall h, g | h != g && HeldUid(w', h).Some? ensures HeldUid(w', h) != HeldUid(w', g) {
      HeldKnown(w, h);
      HeldKnown(w, g);
      assert HeldUid(w, h).Some? ==> HeldUid(w, h) != HeldUid(w, g);
    }
    forall q, h | q in w'.rots && PriorUidOf(w'.rots[q].turn).Some? && h != OfSpec(Vol(w'.rots[q].image))
      ensures HeldUid(w', h) != PriorUidOf(w'.rots[q].turn)
    {
      assert TurnIdsKnown(w, w.rots[q].turn);
      assert HeldUid(w, h) != PriorUidOf(w.rots[q].turn);
    }
  }

  /** The source of an untouched copy outside the touched set. */
  lemma OffSource(w: World, w': World, T: iset<Spec>, x: Spec)
    requires x in w.jobs && JobOk(w, x) && AgreeOff(w, w', T)
    requires w.jobs[x].Copy? && x !in w.ready ==> Vol(w.jobs[x].from.image) !in T && SourceOf(w.jobs[x].from) !in T
    ensures SourceHolds(w, w', x)
  {
    if w.jobs[x].Copy? && x !in w.ready {
      assert Agree(w, w', Vol(w.jobs[x].from.image)) && Agree(w, w', SourceOf(w.jobs[x].from));
    }
  }

  /** Every id in `w'` was in `w` or is a drawn one. */
  ghost predicate NoStrangers(w: World, w': World) {
    && w.next <= w'.next
    && (forall x, p | x in w'.slots && p in w'.slots[x] :: (x in w.slots && p in w.slots[x]) || Known(w', p))
    && (forall x | x in w'.jobs :: (x in w.jobs && w'.jobs[x] == w.jobs[x]) || JobIdsKnown(w', w'.jobs[x]))
    && (forall x ::
       DescOf(w', x) == DescOf(w, x) || (KnownOpt(w', DescOf(w', x).dek) && KnownUid(w', DescOf(w', x).uid)))
    && (forall x | x in w'.vault :: (x in w.vault && w'.vault[x] == w.vault[x]) || Known(w', w'.vault[x]))
    && (forall u | u in w'.objects ::
       (u in w.objects && w'.objects[u] == w.objects[u]) || (u < w'.next && Known(w', w'.objects[u])))
    && (forall t | t in w'.stages :: (t in w.stages && w'.stages[t] == w.stages[t]) || Known(w', w'.stages[t].key))
  }

  lemma IdsStayKnown(w: World, w': World)
    requires IdsKnown(w) && NoStrangers(w, w')
    requires forall r | r in w'.rots :: (r in w.rots && w'.rots[r] == w.rots[r]) || TurnIdsKnown(w', w'.rots[r].turn)
    ensures IdsKnown(w')
  {
    forall x, p | x in w'.slots && p in w'.slots[x] ensures Known(w', p) {
      if x in w.slots && p in w.slots[x] { assert Known(w, p); }
    }
    forall x ensures KnownOpt(w', DescOf(w', x).dek) && KnownUid(w', DescOf(w', x).uid) {
      assert KnownOpt(w, DescOf(w, x).dek) && KnownUid(w, DescOf(w, x).uid);
    }
    forall x | x in w'.jobs ensures JobIdsKnown(w', w'.jobs[x]) {
      if x in w.jobs && w'.jobs[x] == w.jobs[x] { assert JobIdsKnown(w, w.jobs[x]); }
    }
    forall r | r in w'.rots ensures TurnIdsKnown(w', w'.rots[r].turn) {
      if r in w.rots && w'.rots[r] == w.rots[r] { assert TurnIdsKnown(w, w.rots[r].turn); }
    }
  }

  /** A later write of the same descriptor covers an earlier one. */
  lemma PutAgain(w: World, w': World, sp: Spec, d: Desc, d': Desc)
    requires w'.meta == PutMeta(w, sp, d)
    ensures PutMeta(w', sp, d') == PutMeta(w, sp, d') && DescOf(w', sp) == d
  {
    assert PutMeta(w', sp, d').Keys == PutMeta(w, sp, d').Keys;
    if sp.Snap? { assert PutMeta(w', sp, d')[sp.image].snaps == PutMeta(w, sp, d')[sp.image].snaps; }
  }

  /** Writing one descriptor changes that descriptor alone. */
  lemma PutReads(w: World, w': World, sp: Spec, d: Desc, x: Spec)
    requires w'.meta == PutMeta(w, sp, d)
    ensures DescOf(w', x) == if x == sp then d else DescOf(w, x)
  {}
}
