/** Every command of DeleteSnapshot and DeleteVolume keeps the invariant. */
module KeyDelete {
  import opened Options
  import opened KeyPlane
  import opened KeyInvariant
  import opened KeyFrame
  import opened KeyProvision

  // ---- DeleteSnapshot ------------------------------------------------------

  lemma SnapDropShape(w: World, v: string, s: string)
    requires CanDelete(w, DeleteSnapshot(v, s)) && Shape(w) && Vol(v) in w.slots
    ensures Shape(DeleteSnapshotStep(w, Snap(v, s)))
  {}

  lemma SnapDropEffect(w: World, sp: Spec)
    ensures var w' := DeleteSnapshotStep(w, sp);
            && AgreeBut(w, w', sp) && StoresSame(w, w') && NoStrangers(w, w')
            && (forall x :: DescOf(w', x) == DescOf(w, x) && Stored(w', x) == Stored(w, x))
            && sp !in w'.ready && sp !in w'.jobs
  {
    var w' := DeleteSnapshotStep(w, sp);
    forall x ensures DescOf(w', x) == DescOf(w, x) && Stored(w', x) == Stored(w, x) {}
  }

  lemma SnapDropSources(w: World, w': World, v: string, s: string)
    requires JobsOk(w) && CanDelete(w, DeleteSnapshot(v, s)) && w' == DeleteSnapshotStep(w, Snap(v, s))
    requires forall x :: DescOf(w', x) == DescOf(w, x) && Stored(w', x) == Stored(w, x)
    requires Admitted(w, DoDelete(DeleteSnapshot(v, s)))
    ensures forall x | x != Snap(v, s) && x in w.jobs :: SourceHolds(w, w', x)
  {
    forall x | x != Snap(v, s) && x in w.jobs ensures SourceHolds(w, w', x) {
      assert JobOk(w, x);
      var j := w.jobs[x];
      if j.Copy? && x !in w.ready && SourceOf(j.from) == Snap(v, s) && j.srcKms != NoKms { assert Copying(w, x, v); }
    }
  }

  lemma SnapDropHolds(w: World, sp: Spec)
    requires sp in w.ready
    ensures var w' := DeleteSnapshotStep(w, sp);
            && (HeldUid(w', OfSpec(sp)).None? || HeldUid(w', OfSpec(sp)) == HeldUid(w, OfSpec(sp)))
            && HeldUid(w', OfJob(sp)).None?
  {
    assert DescOf(DeleteSnapshotStep(w, sp), sp) == DescOf(w, sp);
  }

  lemma KeepsDeleteSnapshot(w: World, v: string, s: string)
    requires Inv(w) && CanDelete(w, DeleteSnapshot(v, s)) && Admitted(w, DoDelete(DeleteSnapshot(v, s)))
    ensures Inv(DeleteSnapshotStep(w, Snap(v, s)))
  {
    hide DeleteSnapshotStep, StoresSame, AgreeBut, NoStrangers, HeldUid, SourceHolds, RotsOk, Exclusive, PriorsPrivate,
         IdsKnown, Shape, JobOk;
    var w', sp := DeleteSnapshotStep(w, Snap(v, s)), Snap(v, s);
    assert SpecOk(w, sp);
    SnapDropShape(w, v, s);
    SnapDropEffect(w, sp);
    SnapDropSources(w, w', v, s);
    SnapDropHolds(w, sp);
    OneSpec(w, w', sp);
  }

  // ---- DeleteVolume --------------------------------------------------------

  lemma VolDropShape(w: World, v: string)
    requires CanDelete(w, DeleteVolume(v)) && Shape(w)
    ensures Shape(Delete(w, DeleteVolume(v)))
  {}

  lemma VolDropEffect(w: World, v: string)
    requires CanDelete(w, DeleteVolume(v))
    ensures var w', T := Delete(w, DeleteVolume(v)), iset{Vol(v)};
            && AgreeOff(w, w', T) && StoresSame(w, w') && NoStrangers(w, w')
            && (forall x :: DescOf(w', x) == DescOf(w, x) && Stored(w', x) == Stored(w, x))
  {
    var w' := Delete(w, DeleteVolume(v));
    forall x ensures DescOf(w', x) == DescOf(w, x) && Stored(w', x) == Stored(w, x) {}
  }

  lemma VolDropSource(w: World, w': World, v: string, x: Spec)
    requires Shape(w) && CanDelete(w, DeleteVolume(v)) && w' == Delete(w, DeleteVolume(v))
    requires forall y :: DescOf(w', y) == DescOf(w, y) && Stored(w', y) == Stored(w, y)
    requires Admitted(w, DoDelete(DeleteVolume(v))) && x != Vol(v) && x in w.jobs && JobOk(w, x)
    ensures SourceHolds(w, w', x)
  {
    hide OwnOk, PhaseOk, HoldsKey, DescOf, Stored;
    var j := w.jobs[x];
    if j.Copy? && x !in w.ready && j.from.image == v { assert Copying(w, x, v); }
  }

  lemma VolDropSources(w: World, w': World, v: string)
    requires JobsOk(w) && Shape(w) && CanDelete(w, DeleteVolume(v)) && w' == Delete(w, DeleteVolume(v))
    requires forall x :: DescOf(w', x) == DescOf(w, x) && Stored(w', x) == Stored(w, x)
    requires Admitted(w, DoDelete(DeleteVolume(v)))
    ensures forall x | x != Vol(v) && x in w.jobs :: SourceHolds(w, w', x)
  {
    hide Shape, JobOk, SourceHolds, Admitted, Delete, DescOf, Stored;
    forall x | x != Vol(v) && x in w.jobs { VolDropSource(w, w', v, x); }
  }

  lemma KeepsDeleteVolume(w: World, v: string)
    requires Inv(w) && CanDelete(w, DeleteVolume(v)) && Admitted(w, DoDelete(DeleteVolume(v)))
    ensures Inv(Delete(w, DeleteVolume(v)))
  {
    hide Agree, JobOk, Shape, NoStrangers, JobsOk, RotsOk, IdsKnown, Exclusive, PriorsPrivate, SpecOk;
    var w', T := Delete(w, DeleteVolume(v)), iset{Vol(v)};
    VolDropShape(w, v);
    VolDropEffect(w, v);
    VolDropSources(w, w', v);
    HoldsOff(w, w', T);
    StoreFree(w, w', T);
  }

  // ---- the key, the metadata, the image ------------------------------------

  lemma WipeShape(w: World, sp: Spec)
    requires CanDelete(w, WipeMeta(sp)) && Shape(w)
    ensures Shape(WipeMetaStep(w, sp)) && sp !in w.ready && sp !in w.jobs && sp.image in w.meta
  {}

  /** The descriptor of a dying spec is replaced by `d`, and the delete moves on. */
  ghost predicate Rewritten(w: World, w': World, sp: Spec, d: Desc) {
    && w' == w.(meta := PutMeta(w, sp, d), dying := w'.dying)
    && (forall x | x != sp :: x in w'.dying <==> x in w.dying)
  }

  lemma RewriteEffect(w: World, w': World, sp: Spec, d: Desc)
    requires Rewritten(w, w', sp, d) && sp.image in w.meta
    ensures AgreeBut(w, w', sp) && StoresSame(w, w') && DescOf(w', sp) == d
    ensures forall x | x != sp :: DescOf(w', x) == DescOf(w, x)
  {
    forall x | x != sp ensures Agree(w, w', x) && DescOf(w', x) == DescOf(w, x) {
      assert DescOf(w', x) == DescOf(w, x);
    }
  }

  lemma RewriteSources(w: World, w': World, sp: Spec, d: Desc)
    requires JobsOk(w) && Rewritten(w, w', sp, d) && sp.image in w.meta && sp.Snap? && sp !in w.ready && sp !in w.jobs
    requires (d.kms == NoKms || d.kms == DescOf(w, sp).kms) && (d.dek.None? || d.dek == DescOf(w, sp).dek)
    ensures forall x | x != sp && x in w.jobs :: SourceHolds(w, w', x)
  {
    RewriteEffect(w, w', sp, d);
    forall x | x != sp && x in w.jobs ensures SourceHolds(w, w', x) {
      assert JobOk(w, x);
      var j := w.jobs[x];
      if j.Copy? && x !in w.ready {
        assert Agree(w, w', Vol(j.from.image));
        if SourceOf(j.from) != sp { assert Agree(w, w', SourceOf(j.from)); }
      }
    }
  }

  lemma RewriteIds(w: World, w': World, sp: Spec, d: Desc)
    requires IdsKnown(w) && Rewritten(w, w', sp, d) && sp.image in w.meta
    requires d.dek.None? || d.dek == DescOf(w, sp).dek
    requires d.uid.None? || d.uid == DescOf(w, sp).uid
    ensures NoStrangers(w, w')
  {
    RewriteEffect(w, w', sp, d);
    assert KnownOpt(w, DescOf(w, sp).dek) && KnownUid(w, DescOf(w, sp).uid);
  }

  lemma WipeIsRewrite(w: World, sp: Spec)
    requires sp in w.dying
    ensures var d, d' := DescOf(w, sp), Wiped(DescOf(w, sp), w.dying[sp]);
            && Rewritten(w, WipeMetaStep(w, sp), sp, d')
            && (d'.kms == NoKms || d'.kms == d.kms) && (d'.dek.None? || d'.dek == d.dek)
            && (d'.uid.None? || d'.uid == d.uid)
  {}

  lemma KeepsWipeMeta(w: World, sp: Spec)
    requires Inv(w) && CanDelete(w, WipeMeta(sp))
    ensures Inv(WipeMetaStep(w, sp))
  {
    hide WipeMetaStep, Rewritten, StoresSame, AgreeBut, NoStrangers, SpecsOk, JobsOk, RotsOk, IdsKnown, Exclusive,
         PriorsPrivate, SourceHolds;
    var w', d := WipeMetaStep(w, sp), Wiped(DescOf(w, sp), w.dying[sp]);
    WipeShape(w, sp);
    WipeIsRewrite(w, sp);
    RewriteEffect(w, w', sp, d);
    RewriteSources(w, w', sp, d);
    RewriteIds(w, w', sp, d);
    OneSpec(w, w', sp);
  }

  lemma RemoveShape(w: World, v: string)
    requires CanDelete(w, RemoveImage(v)) && Shape(w)
    ensures Shape(Delete(w, RemoveImage(v))) && forall x | x in w.ready :: x.image != v
  {}

  lemma RemoveEffect(w: World, v: string)
    requires CanDelete(w, RemoveImage(v)) && forall x | x in w.ready :: x.image != v
    ensures var w', T := Delete(w, RemoveImage(v)), OfImage(v);
            && AgreeOff(w, w', T) && StoresSame(w, w')
            && (forall x: Spec | x.image == v :: DescOf(w', x) == BLANK && x !in w'.ready && x !in w'.dying)
  {
    var w' := Delete(w, RemoveImage(v));
    forall x: Spec | x.image != v ensures Agree(w, w', x) { assert DescOf(w', x) == DescOf(w, x); }
  }

  /** A copy of the removed image holds its key, or needs none. */
  lemma RemoveSource(w: World, w': World, v: string, x: Spec)
    requires x in w.jobs && JobOk(w, x) && w.jobs[x].Copy? && x !in w.ready && w.jobs[x].from.image == v
    requires forall y: Spec | y.image == v :: DescOf(w', y) == BLANK && y !in w.ready && y !in w'.ready && y !in w'.jobs
    requires NoLiveSnaps(w, v)
    ensures SourceHolds(w, w', x)
  {
    hide OwnOk, PhaseOk, HoldsKey, Stored, DescOf, FrozenOk;
  }

  lemma RemoveSources(w: World, w': World, v: string)
    requires JobsOk(w) && Shape(w) && CanDelete(w, RemoveImage(v)) && w' == Delete(w, RemoveImage(v))
    requires AgreeOff(w, w', OfImage(v)) && forall x: Spec | x.image == v :: DescOf(w', x) == BLANK
    ensures forall x | x !in OfImage(v) && x in w.jobs :: SourceHolds(w, w', x)
    ensures forall x | x in w.jobs :: x !in OfImage(v)
  {
    RemoveShape(w, v);
    forall x | x in w.jobs ensures x.image != v { assert JobOk(w, x); }
    hide JobOk, DescOf, SourceHolds, Agree, Shape;
    forall x | x in w.jobs ensures SourceHolds(w, w', x) {
      assert JobOk(w, x);
      if w.jobs[x].Copy? && x !in w.ready && w.jobs[x].from.image == v {
        RemoveSource(w, w', v, x);
      } else {
        OffSource(w, w', OfImage(v), x);
      }
    }
  }

  lemma RemoveIds(w: World, w': World, v: string)
    requires CanDelete(w, RemoveImage(v)) && w' == Delete(w, RemoveImage(v))
    requires AgreeOff(w, w', OfImage(v)) && forall x: Spec | x.image == v :: DescOf(w', x) == BLANK
    ensures NoStrangers(w, w')
  {
    forall x: Spec | x.image != v ensures DescOf(w', x) == DescOf(w, x) { assert Agree(w, w', x); }
  }

  lemma KeepsRemoveImage(w: World, v: string)
    requires Inv(w) && CanDelete(w, RemoveImage(v))
    ensures Inv(Delete(w, RemoveImage(v)))
  {
    hide AgreeOff, StoresSame, NoStrangers, Exclusive, PriorsPrivate, IdsKnown, SpecOk, JobOk, SourceHolds;
    var w', T := Delete(w, RemoveImage(v)), OfImage(v);
    RemoveShape(w, v);
    RemoveEffect(w, v);
    RemoveSources(w, w', v);
    RemoveIds(w, w', v);
    HoldsOff(w, w', T);
    forall r | r in w.rots ensures Vol(w.rots[r].image) !in T { assert RotOk(w, r); }
    StoreFree(w, w', T);
  }

  // ---- the key -------------------------------------------------------------

  /** Only the stored key of the dying spec is gone. */
  ghost predicate KeyDropped(w: World, w': World, sp: Spec) {
    && w' == w.(vault := w'.vault, objects := w'.objects, dying := w'.dying)
    && sp in w.dying && w'.dying.Keys == w.dying.Keys
    && (forall x | x != sp :: (x in w'.vault <==> x in w.vault) && (x in w.vault ==> w'.vault[x] == w.vault[x]))
    && (sp in w'.vault ==> sp in w.vault && w'.vault[sp] == w.vault[sp])
    && (forall u | u in w'.objects :: u in w.objects && w'.objects[u] == w.objects[u])
    && (forall u | u in w.objects && u !in w'.objects :: DescOf(w, sp).uid == Some(u))
  }

  lemma DropIsKeyDropped(w: World, sp: Spec)
    requires CanDelete(w, DropKey(sp))
    ensures KeyDropped(w, DropKeyStep(w, sp), sp)
  {}

  lemma DropSpec(w: World, w': World, sp: Spec, x: Spec)
    requires KeyDropped(w, w', sp) && x != sp && DescOf(w', x) == DescOf(w, x)
    requires HeldUid(w, OfSpec(sp)).Some? ==> HeldUid(w, OfSpec(x)) != HeldUid(w, OfSpec(sp))
    ensures Agree(w, w', x)
  {
    hide DescOf;
  }

  lemma DropAgrees(w: World, w': World, sp: Spec)
    requires KeyDropped(w, w', sp) && Exclusive(w)
    ensures AgreeBut(w, w', sp)
    ensures forall h | h != OfSpec(sp) :: HeldKept(w, w', h)
    ensures forall h :: HeldUid(w', h) == HeldUid(w, h)
    ensures NoStrangers(w, w')
  {
    forall x ensures DescOf(w', x) == DescOf(w, x) {}
    hide DescOf;
    forall h | h != OfSpec(sp) ensures HeldUid(w, OfSpec(sp)).Some? ==> HeldUid(w, h) != HeldUid(w, OfSpec(sp)) {}
    assert AgreeBut(w, w', sp) by {
      hide Agree, HeldUid;
      forall x | x != sp ensures Agree(w, w', x) { DropSpec(w, w', sp, x); }
    }
  }

  lemma DropSources(w: World, w': World, sp: Spec)
    requires JobsOk(w) && KeyDropped(w, w', sp) && AgreeBut(w, w', sp) && sp !in w.ready && sp !in w.jobs
    ensures forall x | x != sp && x in w.jobs :: SourceHolds(w, w', x)
  {
    forall x ensures DescOf(w', x) == DescOf(w, x) {}
    forall x | x != sp && x in w.jobs ensures SourceHolds(w, w', x) {
      assert JobOk(w, x);
      var j := w.jobs[x];
      if j.Copy? && x !in w.ready && SourceOf(j.from) != sp { assert Agree(w, w', SourceOf(j.from)); }
    }
  }

  lemma DropShape(w: World, w': World, sp: Spec)
    requires Shape(w) && KeyDropped(w, w', sp)
    ensures Shape(w') && sp !in w.ready && sp !in w.jobs
  {
    assert forall x :: x in w'.dying <==> x in w.dying;
  }

  /** A dying spec is neither a volume with snapshots nor one being rotated. */
  lemma DyingAlone(w: World, sp: Spec)
    requires SpecsOk(w) && RotsOk(w) && sp !in w.ready
    ensures forall x | x in w.ready && x.Snap? :: Vol(x.image) != sp
    ensures forall r | r in w.rots :: Vol(w.rots[r].image) != sp
  {
    forall x | x in w.ready && x.Snap? ensures Vol(x.image) != sp { assert SpecOk(w, x); }
    forall r | r in w.rots ensures Vol(w.rots[r].image) != sp { assert RotOk(w, r); }
  }

  lemma DropCarries(w: World, w': World, sp: Spec)
    requires SpecsOk(w) && JobsOk(w) && RotsOk(w) && Exclusive(w) && KeyDropped(w, w', sp) && sp !in w.ready
    requires sp !in w.jobs
    ensures SpecsOk(w') && JobsOk(w')
  {
    hide Agree, JobOk, SourceHolds, NoStrangers, RotsApart;
    DropAgrees(w, w', sp);
    DropSources(w, w', sp);
    DyingAlone(w, sp);
    OffCarries(w, w', iset{sp});
  }

  lemma DropRots(w: World, w': World, sp: Spec)
    requires SpecsOk(w) && RotsOk(w) && Exclusive(w) && KeyDropped(w, w', sp) && sp !in w.ready
    ensures RotsOk(w')
  {
    hide Agree, NoStrangers;
    DropAgrees(w, w', sp);
    DyingAlone(w, sp);
    OffRots(w, w', iset{sp});
  }

  lemma DropKeeps(w: World, w': World, sp: Spec)
    requires Inv(w) && KeyDropped(w, w', sp)
    ensures Inv(w')
  {
    hide AgreeBut, SpecsOk, JobsOk, RotsOk, Shape, NoStrangers, IdsKnown, Exclusive, PriorsPrivate;
    DropShape(w, w', sp);
    DropAgrees(w, w', sp);
    DropCarries(w, w', sp);
    DropRots(w, w', sp);
    IdsStayKnown(w, w');
    OffHolds(w, w', OfRotation(0));
  }

  lemma KeepsDelete(w: World, a: DeleteStep)
    requires Inv(w) && CanDelete(w, a) && Admitted(w, DoDelete(a))
    ensures Inv(Delete(w, a))
  {
    match a
    case DeleteSnapshot(v, s) => KeepsDeleteSnapshot(w, v, s);
    case DeleteVolume(v) => KeepsDeleteVolume(w, v);
    case DropKey(sp) => DropIsKeyDropped(w, sp); DropKeeps(w, DropKeyStep(w, sp), sp);
    case WipeMeta(sp) => KeepsWipeMeta(w, sp);
    case RemoveImage(v) => KeepsRemoveImage(w, v);
    case RestartDelete(sp) => DropKeeps(w, Delete(w, a), sp);
  }
}
