/** Deletes that are interrupted and retried: the key goes before what names it. */
module KeyReap {
  import opened Options
  import opened KeyPlane
  import opened KeyInvariant
  import opened KeyFrame
  import opened KeyAttempt
  import opened KeyProvision
  import opened KeyInherit
  import L = KeyLimits
  import T = KeyTheorems

  /** The stored key behind descriptor `d` of `sp` is no longer there. */
  predicate Reaped(w: World, sp: Spec, d: Desc) {
    && (d.kms == Vault ==> sp !in w.vault)
    && (d.kms == Kmip && d.uid.Some? ==> d.uid.value !in w.objects)
  }

  /** Begin deleting a finished volume or snapshot. */
  function Begin(sp: Spec): Action {
    DoDelete(if sp.Vol? then DeleteVolume(sp.image) else DeleteSnapshot(sp.image, sp.snap))
  }

  /** One command of the delete of `sp`, or its restart after a crash. */
  predicate Deletes(a: Action, sp: Spec) {
    && a.DoDelete?
    && (a.d == DropKey(sp) || a.d == WipeMeta(sp) || a.d == RestartDelete(sp) ||
       (sp.Vol? && a.d == RemoveImage(sp.image)))
  }

  /** What `n` commands of one pass have cleared. */
  predicate Cleared(d: Desc, n: nat) {
    (n >= 2 ==> d.dek.None?) && (n >= 3 ==> d.uid.None?) && (n >= 4 ==> d.owner.None?) && (n >= 5 ==> d.keyId.None?)
  }

  /** How a delete that began with descriptor `d0` stands: under way, with the KMS id still
      recorded and the descriptor whole until the key is gone; or over. */
  predicate Underway(w: World, sp: Spec, d0: Desc) {
    if sp in w.dying then
      && DescOf(w, sp).kms == d0.kms
      && w.dying[sp] <= 5 && (sp.Snap? ==> Cleared(DescOf(w, sp), w.dying[sp]))
      && (if w.dying[sp] == 0 then DescOf(w, sp) == d0 || Reaped(w, sp, d0) else Reaped(w, sp, d0))
    else Reaped(w, sp, d0) && DescOf(w, sp) == BLANK
  }

  lemma DropStep(w: World, sp: Spec, d0: Desc)
    requires Underway(w, sp, d0) && CanDelete(w, DropKey(sp))
    ensures Underway(DropKeyStep(w, sp), sp, d0) && DropKeyStep(w, sp).next == w.next
  {
    assert DescOf(DropKeyStep(w, sp), sp) == DescOf(w, sp);
  }

  lemma WipeStep(w: World, sp: Spec, d0: Desc)
    requires Underway(w, sp, d0) && CanDelete(w, WipeMeta(sp))
    ensures Underway(WipeMetaStep(w, sp), sp, d0) && WipeMetaStep(w, sp).next == w.next
  {
    var w' := WipeMetaStep(w, sp);
    PutReads(w, w', sp, Wiped(DescOf(w, sp), w.dying[sp]), sp);
  }

  lemma RemoveStep(w: World, v: string, d0: Desc)
    requires Underway(w, Vol(v), d0) && CanDelete(w, RemoveImage(v))
    ensures Underway(Delete(w, RemoveImage(v)), Vol(v), d0)
  {}

  lemma RestartStep(w: World, sp: Spec, d0: Desc)
    requires Underway(w, sp, d0) && CanDelete(w, RestartDelete(sp))
    ensures Underway(Delete(w, RestartDelete(sp)), sp, d0)
  {
    assert DescOf(Delete(w, RestartDelete(sp)), sp) == DescOf(w, sp);
  }

  lemma StepUnderway(w: World, sp: Spec, d0: Desc, a: Action)
    requires Underway(w, sp, d0) && Deletes(a, sp)
    ensures Underway(Next(w, a), sp, d0) && Next(w, a).next == w.next
  {
    hide Underway, CanDelete, DropKeyStep, WipeMetaStep;
    if Enabled(w, a) {
      match a.d
      case DropKey(_) => DropStep(w, sp, d0);
      case WipeMeta(_) => WipeStep(w, sp, d0);
      case RestartDelete(_) => RestartStep(w, sp, d0);
      case RemoveImage(v) => RemoveStep(w, v, d0);
    }
  }

  // ---- whatever else goes on -----------------------------------------------

  /** A step that does not concern the delete of `sp`, nor object `u`. */
  ghost predicate Apart(w: World, w': World, sp: Spec, u: Option<nat>) {
    && DescOf(w', sp) == DescOf(w, sp)
    && (sp in w'.vault ==> sp in w.vault)
    && (u.Some? && u.value in w'.objects ==> u.value in w.objects)
    && (sp in w.dying ==> sp in w'.dying && w'.dying[sp] == w.dying[sp]) && w.next <= w'.next
  }

  lemma ApartUnderway(w: World, w': World, sp: Spec, d0: Desc)
    requires Underway(w, sp, d0) && Apart(w, w', sp, d0.uid) && sp in w.dying
    ensures Underway(w', sp, d0) && w.next <= w'.next
  {}

  /** The metadata of one other spec is written. */
  lemma OtherWritten(w: World, w': World, x: Spec, d: Desc, sp: Spec)
    requires w'.meta == PutMeta(w, x, d) && x != sp
    ensures DescOf(w', sp) == DescOf(w, sp)
  {
    PutReads(w, w', x, d, sp);
  }

  /** A whole other image is created, copied or removed. */
  lemma OtherImage(w: World, w': World, x: string, sp: Spec)
    requires sp.image != x && (sp.image in w'.meta <==> sp.image in w.meta)
    requires sp.image in w.meta ==> w'.meta[sp.image] == w.meta[sp.image]
    ensures DescOf(w', sp) == DescOf(w, sp)
  {}

  /** A command of the create or first stage of volume `sp` itself. */
  predicate Provisions(w: World, p: ProvisionStep, sp: Spec) {
    || (p.RecordKms? && Vol(p.v) == sp)
    || ((p.StoreKey? || p.StoreLost?) && p.t in w.stages && Vol(w.stages[p.t].image) == sp)
  }

  lemma ApartProvision(w: World, p: ProvisionStep, sp: Spec, u: Option<nat>)
    requires JobsOk(w) && CanProvision(w, p) && Vol(sp.image) in w.slots && !Provisions(w, p, sp) && KnownUid(w, u)
    ensures Apart(w, Provision(w, p), sp, u)
  {
    hide Apart, DescOf;
    match p
    case CreateImage(v, kms) => ApartCreate(w, v, kms, sp, u);
    case RecordKms(v) => ApartRecord(w, v, sp, u);
    case StoreKey(t) => ApartStore(w, t, sp, u);
    case StoreLost(t) => ApartLost(w, t, sp, u);
    case CloneImage(x) => assert JobOk(w, Vol(x)); ApartClone(w, x, sp, u);
    case RestoreImage(v, s, x) => ApartRestore(w, v, s, x, sp, u);
    case _ => ApartPlain(w, p, sp, u);
  }

  /** Another image appears with a copy of some metadata. */
  lemma ApartCopy(w: World, w': World, x: string, sp: Spec, u: Option<nat>)
    requires sp.image != x && w'.meta.Keys == w.meta.Keys + {x}
    requires sp.image in w.meta ==> w'.meta[sp.image] == w.meta[sp.image]
    requires w'.vault == w.vault && w'.objects == w.objects && w'.dying == w.dying && w'.next == w.next
    ensures Apart(w, w', sp, u)
  {
    assert sp.image in w'.meta.Keys <==> sp.image in w.meta.Keys;
    OtherImage(w, w', x, sp);
  }

  lemma ApartCreate(w: World, v: string, kms: Kms, sp: Spec, u: Option<nat>)
    requires sp.image != v
    ensures Apart(w, CreateImageStep(w, v, kms), sp, u)
  {
    ApartCopy(w, CreateImageStep(w, v, kms), v, sp, u);
  }

  lemma ApartClone(w: World, x: string, sp: Spec, u: Option<nat>)
    requires CanProvision(w, CloneImage(x)) && sp.image != x
    ensures Apart(w, CloneImageStep(w, x), sp, u)
  {
    ApartCopy(w, CloneImageStep(w, x), x, sp, u);
  }

  lemma ApartRestore(w: World, v: string, s: string, x: string, sp: Spec, u: Option<nat>)
    requires CanProvision(w, RestoreImage(v, s, x)) && sp.image != x
    ensures Apart(w, RestoreImageStep(w, v, s, x), sp, u)
  {
    ApartCopy(w, RestoreImageStep(w, v, s, x), x, sp, u);
  }

  lemma ApartRecord(w: World, v: string, sp: Spec, u: Option<nat>)
    requires CanProvision(w, RecordKms(v)) && Vol(v) != sp
    ensures Apart(w, RecordKmsStep(w, v), sp, u)
  {
    OtherWritten(w, RecordKmsStep(w, v), Vol(v), DescOf(w, Vol(v)).(kms := w.jobs[Vol(v)].want), sp);
  }

  lemma ApartLost(w: World, t: nat, sp: Spec, u: Option<nat>)
    requires t in w.stages && Vol(w.stages[t].image) != sp
    ensures Apart(w, StoreLostStep(w, t), sp, u)
  {
    var x := Vol(w.stages[t].image);
    OtherWritten(w, StoreLostStep(w, t), x, DescOf(w, x).(uid := Some(w.next)), sp);
  }

  lemma ApartStore(w: World, t: nat, sp: Spec, u: Option<nat>)
    requires t in w.stages && Vol(w.stages[t].image) != sp && KnownUid(w, u)
    ensures Apart(w, StoreKeyStep(w, t), sp, u)
  {
    var f, w' := w.stages[t], StoreKeyStep(w, t);
    var x := Vol(f.image);
    match f.kms
    case SecretsMetadata => OtherWritten(w, w', x, DescOf(w, x).(dek := Some(f.key)), sp);
    case Kmip => OtherWritten(w, w', x, DescOf(w, x).(uid := Some(w.next)), sp);
    case _ => assert w'.meta == w.meta;
  }

  /** A step that writes no metadata. */
  lemma ApartPlain(w: World, p: ProvisionStep, sp: Spec, u: Option<nat>)
    requires CanProvision(w, p) && KnownUid(w, u)
    requires !p.CreateImage? && !p.RecordKms? && !p.StoreKey? && !p.StoreLost? && !p.CloneImage? && !p.RestoreImage?
    ensures Apart(w, Provision(w, p), sp, u)
  {
    hide CanProvision, StagePass, RootOf;
    assert Provision(w, p).meta == w.meta;
  }

  lemma OtherStored(w: World, w': World, x: Spec, p: Pass, uid: Option<nat>, sp: Spec)
    requires w'.meta == StoreMeta(w, x, p, uid) && x != sp
    ensures DescOf(w', sp) == DescOf(w, sp)
  {
    match DescOf(w, x).kms
    case SecretsMetadata => OtherWritten(w, w', x, DescOf(w, x).(dek := Some(p)), sp);
    case Kmip => OtherWritten(w, w', x, DescOf(w, x).(uid := uid), sp);
    case _ =>
  }

  lemma ApartInherit(w: World, x: Spec, a: InheritStep, sp: Spec, u: Option<nat>)
    requires CanInherit(w, x, a) && x != sp && KnownUid(w, u)
    ensures Apart(w, Inherit(w, x, a), sp, u)
  {
    var w' := Inherit(w, x, a);
    match a
    case SetKeyId =>
      OtherWritten(w, w', x, DescOf(w, x).(keyId := Some(InheritedKeyId(w, w.jobs[x].phase.src, x))), sp);
    case SetKms =>
      if w'.meta != w.meta {
        OtherWritten(w, w', x, DescOf(w, x).(kms := InheritedKms(w, w.jobs[x].phase.src, x)), sp);
      }
    case SetDek =>
      if w'.meta != w.meta {
        OtherWritten(w, w', x, DescOf(w, x).(dek := InheritedDek(w, w.jobs[x].phase.src, x)), sp);
      }
    case CloneKey => ApartCloneKey(w, x, sp, u);
    case SetUid => OtherWritten(w, w', x, DescOf(w, x).(uid := Some(w.jobs[x].phase.uid)), sp);
    case SetOwner => OtherWritten(w, w', x, DescOf(w, x).(owner := Some(x)), sp);
    case _ => assert w'.meta == w.meta;
  }

  lemma ApartCloneKey(w: World, x: Spec, sp: Spec, u: Option<nat>)
    requires CanInherit(w, x, CloneKey) && x != sp && KnownUid(w, u)
    ensures Apart(w, CloneKeyStep(w, x), sp, u)
  {
    var ph := w.jobs[x].phase;
    if ph.kms == Vault {
      ApartEntry(w, x, ph.src, ph.key, sp, u);
    } else if ph.kms == Kmip {
      ApartObject(w, x, ph.src, ph.key, sp, u);
    } else {
      assert PlainCloneKey(w, x, ph.key).meta == w.meta;
    }
  }

  lemma ApartEntry(w: World, x: Spec, src: Spec, key: Spec, sp: Spec, u: Option<nat>)
    requires CanInherit(w, x, CloneKey) && x != sp
    ensures Apart(w, VaultCloneKey(w, x, src, key), sp, u)
  {
    assert VaultCloneKey(w, x, src, key).meta == w.meta;
  }

  lemma ApartObject(w: World, x: Spec, src: Spec, key: Spec, sp: Spec, u: Option<nat>)
    requires CanInherit(w, x, CloneKey) && x != sp && KnownUid(w, u)
    ensures Apart(w, KmipCloneKey(w, x, src, key), sp, u)
  {
    assert KmipCloneKey(w, x, src, key).meta == w.meta;
  }

  lemma ApartRotate(w: World, r: nat, a: RotateStep, sp: Spec, u: Option<nat>)
    requires CanRotate(w, r, a) && (a.Start? || Vol(w.rots[r].image) != sp) && KnownUid(w, u)
    ensures Apart(w, Rotate(w, r, a), sp, u)
  {
    hide Apart, DescOf;
    if a.Persist? { ApartPersist(w, r, a.acked, sp, u); } else { ApartTurn(w, r, a, sp, u); }
  }

  lemma ApartTurn(w: World, r: nat, a: RotateStep, sp: Spec, u: Option<nat>)
    requires CanRotate(w, r, a) && !a.Persist? && KnownUid(w, u)
    ensures Apart(w, Rotate(w, r, a), sp, u)
  {
    if a.MintKey? { ApartMintKey(w, r, sp, u); } else { ObjectsShrink(w, r, a); assert Rotate(w, r, a).meta == w.meta; }
  }

  lemma ApartMintKey(w: World, r: nat, sp: Spec, u: Option<nat>)
    requires CanRotate(w, r, MintKey) && KnownUid(w, u)
    ensures Apart(w, MintKeyStep(w, r), sp, u)
  {
    assert MintKeyStep(w, r).meta == w.meta;
  }

  lemma ObjectsShrink(w: World, r: nat, a: RotateStep)
    requires CanRotate(w, r, a) && !a.Persist? && !a.MintKey?
    ensures Rotate(w, r, a).objects.Keys <= w.objects.Keys
  {}

  lemma ApartPersist(w: World, r: nat, acked: bool, sp: Spec, u: Option<nat>)
    requires CanRotate(w, r, Persist(acked)) && Vol(w.rots[r].image) != sp
    ensures Apart(w, PersistStep(w, r, acked), sp, u)
  {
    var t := w.rots[r].turn;
    OtherStored(w, PersistStep(w, r, acked), Vol(w.rots[r].image), t.minted, t.mintedUid, sp);
  }

  lemma ApartDelete(w: World, d: DeleteStep, sp: Spec, u: Option<nat>)
    requires CanDelete(w, d) && !Deletes(DoDelete(d), sp) && d != Begin(sp).d && d != RemoveImage(sp.image)
    ensures Apart(w, Delete(w, d), sp, u)
  {
    hide Apart;
    match d
    case WipeMeta(x) => ApartWipe(w, x, sp, u);
    case RemoveImage(v) => ApartRemove(w, v, sp, u);
    case DropKey(x) => ApartDrop(w, x, sp, u);
    case _ => ApartBegin(w, d, sp, u);
  }

  lemma ApartWipe(w: World, x: Spec, sp: Spec, u: Option<nat>)
    requires x in w.dying && x != sp
    ensures Apart(w, WipeMetaStep(w, x), sp, u)
  {
    OtherWritten(w, WipeMetaStep(w, x), x, Wiped(DescOf(w, x), w.dying[x]), sp);
  }

  lemma ApartRemove(w: World, v: string, sp: Spec, u: Option<nat>)
    requires CanDelete(w, RemoveImage(v)) && v != sp.image
    ensures Apart(w, Delete(w, RemoveImage(v)), sp, u)
  {
    OtherImage(w, Delete(w, RemoveImage(v)), v, sp);
  }

  lemma ApartDrop(w: World, x: Spec, sp: Spec, u: Option<nat>)
    requires x != sp
    ensures Apart(w, DropKeyStep(w, x), sp, u)
  {
    assert DropKeyStep(w, x).meta == w.meta;
  }

  lemma ApartBegin(w: World, d: DeleteStep, sp: Spec, u: Option<nat>)
    requires CanDelete(w, d) && d != Begin(sp).d
    requires d.DeleteSnapshot? || d.DeleteVolume? || (d.RestartDelete? && d.sp != sp)
    ensures Apart(w, Delete(w, d), sp, u)
  {
    assert Delete(w, d).meta == w.meta;
  }

  /** While `sp` is being deleted, and unless the image under a dying snapshot goes first. */
  ghost predicate Spared(w: World, sp: Spec, a: Action) {
    sp in w.dying && (sp.Snap? ==> a != DoDelete(RemoveImage(sp.image)))
  }

  /** What is being deleted is neither created, staged, copied nor rotated. */
  lemma DyingIdle(w: World, sp: Spec, a: Action)
    requires Shape(w) && RotsOk(w) && sp in w.dying && Admitted(w, a) && Enabled(w, a)
    ensures Vol(sp.image) in w.slots && (a.DoProvision? ==> !Provisions(w, a.p, sp))
    ensures (a.DoInherit? ==> a.sp != sp) && a != Begin(sp)
    ensures a.DoRotate? && !a.t.Start? ==> Vol(w.rots[a.r].image) != sp
  {
    if a.DoRotate? && !a.t.Start? { assert RotOk(w, a.r); }
  }

  lemma AnyApart(w: World, sp: Spec, u: Option<nat>, a: Action)
    requires Inv(w) && Admitted(w, a) && Spared(w, sp, a) && KnownUid(w, u) && !Deletes(a, sp) && Enabled(w, a)
    ensures Apart(w, Next(w, a), sp, u)
  {
    hide Apart, IdsKnown, SpecsOk, Exclusive, PriorsPrivate, JobsOk, RotsOk, Shape, DescOf, Provision, Inherit, Rotate,
         Delete, Provisions, Admitted;
    DyingIdle(w, sp, a);
    match a
    case DoProvision(p) => ApartProvision(w, p, sp, u);
    case DoInherit(x, i) => ApartInherit(w, x, i, sp, u);
    case DoRotate(r, t) => ApartRotate(w, r, t, sp, u);
    case DoDelete(d) => ApartDelete(w, d, sp, u);
  }

  lemma AnyStepUnderway(w: World, sp: Spec, d0: Desc, a: Action)
    requires Inv(w) && Admitted(w, a) && Underway(w, sp, d0) && Spared(w, sp, a) && KnownUid(w, d0.uid)
    ensures Underway(Next(w, a), sp, d0) && KnownUid(Next(w, a), d0.uid)
  {
    hide Underway, Inv, Next, DescOf, Apart;
    if Deletes(a, sp) {
      StepUnderway(w, sp, d0, a);
    } else if Enabled(w, a) {
      AnyApart(w, sp, d0.uid, a);
      ApartUnderway(w, Next(w, a), sp, d0);
    } else {
      assert Next(w, a) == w by { Disabled(w, a); }
    }
  }

  lemma Disabled(w: World, a: Action)
    requires !Enabled(w, a)
    ensures Next(w, a) == w
  {}

  ghost predicate AllSpared(w: World, sp: Spec, acts: seq<Action>)
    decreases |acts|
  {
    acts == [] || (Spared(w, sp, acts[0]) && AllSpared(Next(w, acts[0]), sp, acts[1..]))
  }

  lemma {:induction false} RunUnderway(w: World, sp: Spec, d0: Desc, acts: seq<Action>)
    requires Inv(w) && AllAdmitted(w, acts) && Underway(w, sp, d0) && AllSpared(w, sp, acts) && KnownUid(w, d0.uid)
    ensures Underway(Exec(w, acts), sp, d0)
    decreases |acts|
  {
    hide Underway, Inv, Next, Admitted, Spared;
    if acts != [] {
      T.StepKeeps(w, acts[0]);
      AnyStepUnderway(w, sp, d0, acts[0]);
      RunUnderway(Next(w, acts[0]), sp, d0, acts[1..]);
    }
  }

  lemma BeginsWhole(w: World, sp: Spec)
    requires Enabled(w, Begin(sp)) && (sp.Snap? ==> DescOf(w, sp).kms != NoKms)
    ensures Underway(Next(w, Begin(sp)), sp, DescOf(w, sp)) && Next(w, Begin(sp)).next == w.next
  {
    assert DescOf(Next(w, Begin(sp)), sp) == DescOf(w, sp);
  }

  /** From every reachable state, a delete that is begun, interrupted and retried in any way, with
      any other operations in between, never loses track of the key: the KMS id stays recorded
      until the key is gone, and once the delete is over the key is gone and no metadata is left.
      The delete of a snapshot needs its image to outlast it. */
  lemma DeletesReap(past: seq<Action>, sp: Spec, acts: seq<Action>)
    requires AllAdmitted(EMPTY, past)
    requires var w := Exec(EMPTY, past);
             && Enabled(w, Begin(sp)) && Admitted(w, Begin(sp)) && (sp.Snap? ==> DescOf(w, sp).kms != NoKms)
             && AllAdmitted(Next(w, Begin(sp)), acts) && AllSpared(Next(w, Begin(sp)), sp, acts)
    ensures var w := Exec(EMPTY, past);
            var d, w' := DescOf(w, sp), Exec(Next(w, Begin(sp)), acts);
            && Underway(w', sp, d)
            && if sp in w'.dying then DescOf(w', sp).kms == d.kms && (DescOf(w', sp) == d || Reaped(w', sp, d))
               else Reaped(w', sp, d) && DescOf(w', sp) == BLANK
  {
    hide Next, Admitted, Enabled, AllSpared, Reaped, AllAdmitted, Exec;
    EmptyInv();
    T.RunKeeps(EMPTY, past);
    var w := Exec(EMPTY, past);
    assert KnownUid(w, DescOf(w, sp).uid) by { UidKnown(w, sp); }
    BeginsWhole(w, sp);
    T.StepKeeps(w, Begin(sp));
    RunUnderway(Next(w, Begin(sp)), sp, DescOf(w, sp), acts);
  }

  lemma UidKnown(w: World, sp: Spec)
    requires Inv(w)
    ensures KnownUid(w, DescOf(w, sp).uid)
  {
    hide DescOf, Shape, SpecsOk, JobsOk, RotsOk, Exclusive, PriorsPrivate;
    assert IdsKnown(w);
  }

  function Wipes(sp: Spec, k: nat): seq<Action> { if k == 0 then [] else [DoDelete(WipeMeta(sp))] + Wipes(sp, k - 1) }

  lemma {:induction false} WipesFinish(w: World, sp: Spec, d0: Desc, k: nat)
    requires Underway(w, sp, d0) && sp.Snap? && sp in w.dying && 1 <= w.dying[sp] <= 5 && w.dying[sp] + k == 6
    ensures var w' := Exec(w, Wipes(sp, k)); sp !in w'.dying && Underway(w', sp, d0)
    decreases k
  {
    hide Underway;
    var a := DoDelete(WipeMeta(sp));
    StepUnderway(w, sp, d0, a);
    assert Wipes(sp, k)[0] == a && Wipes(sp, k)[1..] == Wipes(sp, k - 1);
    assert Next(w, a) == WipeMetaStep(w, sp);
    if k > 1 { WipesFinish(Next(w, a), sp, d0, k - 1); }
  }

  /** Wherever the delete of a snapshot was interrupted, one undisturbed retry finishes it. */
  lemma RetryFinishes(w: World, sp: Spec, d0: Desc)
    requires Underway(w, sp, d0) && sp.Snap? && sp in w.dying
    ensures var w' := Exec(Next(Next(w, DoDelete(RestartDelete(sp))), DoDelete(DropKey(sp))), Wipes(sp, 5));
            sp !in w'.dying && Reaped(w', sp, d0) && DescOf(w', sp) == BLANK
  {
    hide DescOf, Reaped;
    StepUnderway(w, sp, d0, DoDelete(RestartDelete(sp)));
    var w1 := Next(w, DoDelete(RestartDelete(sp)));
    StepUnderway(w1, sp, d0, DoDelete(DropKey(sp)));
    WipesFinish(Next(w1, DoDelete(DropKey(sp))), sp, d0, 5);
  }

  /** Nothing but the given snapshot hangs on the image. */
  ghost predicate Unheld(w: World, v: string, s: string) {
    && (forall sp | sp in w.slots :: sp.image == v && sp.Snap? ==> sp == Snap(v, s))
    && (forall sp | sp in w.jobs && w.jobs[sp].Copy? && w.jobs[sp].frozen.Some? :: w.jobs[sp].from.image != v)
  }

  lemma HalfDeletedUnheld(w: World, v: string, s: string)
    requires Shape(w) && Snap(v, s) in w.dying
    ensures NoLiveSnaps(w, v) <==> Unheld(w, v, s)
  {}

  /** In every reachable state, a snapshot whose delete stopped after `rbd snap rm` does not hold up
      the delete of its volume: whether that may begin, and whether it may remove the image, is up to
      the other snapshots and the clones in flight. */
  lemma HalfDeletedHoldsNothing(past: seq<Action>, v: string, s: string)
    requires AllAdmitted(EMPTY, past) && Snap(v, s) in Exec(EMPTY, past).dying
    ensures var w := Exec(EMPTY, past);
            && (CanDelete(w, DeleteVolume(v)) <==> Vol(v) in w.ready && Unheld(w, v, s))
            && (CanDelete(w, RemoveImage(v)) <==> Vol(v) in w.dying && w.dying[Vol(v)] == 1 && Unheld(w, v, s))
  {
    hide Exec, AllAdmitted, IdsKnown, Shape, SpecsOk, JobsOk, RotsOk, Exclusive, PriorsPrivate, Unheld, NoLiveSnaps;
    EmptyInv();
    T.RunKeeps(EMPTY, past);
    HalfDeletedUnheld(Exec(EMPTY, past), v, s);
  }

  /** If the delete of the volume removes the image of such a snapshot first, the descriptor goes with
      it: the Vault entry and the KMIP object stay, nothing names the object any more, and the retried
      delete finds nothing to reap. */
  lemma ImageGoesFirst(past: seq<Action>, v: string, s: string)
    requires AllAdmitted(EMPTY, past)
    requires CanDelete(Exec(EMPTY, past), RemoveImage(v)) && Snap(v, s) in Exec(EMPTY, past).dying
    ensures var w, sp := Exec(EMPTY, past), Snap(v, s);
            var w', uid := Next(w, DoDelete(RemoveImage(v))), DescOf(w, sp).uid;
            && w'.vault == w.vault && w'.objects == w.objects && sp !in w'.dying && DescOf(w', sp) == BLANK
            && (uid.Some? ==> forall x | x in w'.ready || x in w'.dying :: DescOf(w', x).uid != uid)
            && !Enabled(w', DoDelete(DropKey(sp))) && !Enabled(w', DoDelete(RestartDelete(sp)))
  {
    hide Exec, AllAdmitted, IdsKnown, Shape, SpecsOk, JobsOk, RotsOk, PriorsPrivate;
    EmptyInv();
    T.RunKeeps(EMPTY, past);
    var w, sp := Exec(EMPTY, past), Snap(v, s);
    var w' := Next(w, DoDelete(RemoveImage(v)));
    forall x | (x in w'.ready || x in w'.dying) && DescOf(w, sp).uid.Some?
      ensures DescOf(w', x).uid != DescOf(w, sp).uid {
      if x.image != v {
        OtherImage(w, w', v, x);
        assert HeldUid(w, OfSpec(sp)) != HeldUid(w, OfSpec(x));
      }
    }
  }

  /** The staged Vault volume with one finished snapshot. */
  function Captured(): seq<Action> { [DoProvision(TakeSnapshot(L.V, L.S))] + Attempted(Snap(L.V, L.S)) }

  lemma CapturedReached()
    ensures var w := Exec(L.Staged(Vault), Captured());
            && w.slots.Keys == {Vol(L.V), Snap(L.V, L.S)} && w.ready == {Vol(L.V), Snap(L.V, L.S)}
            && w.jobs == map[] && w.rots == map[] && w.dying == map[]
            && Snap(L.V, L.S) in w.vault && DescOf(w, Snap(L.V, L.S)).kms == Vault
  {
    hide Exec, Attempted;
    var sp, w0, take := Snap(L.V, L.S), L.Staged(Vault), DoProvision(TakeSnapshot(L.V, L.S));
    Unroll(w0, take, Attempted(sp));
    AttemptOutcome(Next(w0, take), sp, Vol(L.V));
  }

  function DeleteBoth(): seq<Action> {
    [DoDelete(DeleteSnapshot(L.V, L.S)), DoDelete(DeleteVolume(L.V))] +
        ([DoDelete(DropKey(Vol(L.V))), DoDelete(RemoveImage(L.V))] + [])
  }

  lemma BothDying(w: World)
    requires w.slots.Keys == {Vol(L.V), Snap(L.V, L.S)} && w.ready == {Vol(L.V), Snap(L.V, L.S)}
    requires w.jobs == map[] && w.dying == map[]
    requires DescOf(w, Snap(L.V, L.S)).kms == Vault
    ensures var w' := Next(Next(w, DoDelete(DeleteSnapshot(L.V, L.S))), DoDelete(DeleteVolume(L.V)));
            && w'.dying == map[Snap(L.V, L.S) := 0, Vol(L.V) := 0] && w'.slots.Keys == {Vol(L.V)} && w'.jobs == map[]
            && w'.vault == w.vault && w'.ready == {}
  {
    var w1 := Next(w, DoDelete(DeleteSnapshot(L.V, L.S)));
    assert w1.ready == {Vol(L.V)} && w1.slots.Keys == {Vol(L.V)} && w1.jobs == map[];
  }

  /** This happens: a snapshot delete that stopped half way, and a complete delete of its volume,
      leave nothing of either but the snapshot's key. */
  lemma KeyOutlivesImage()
    ensures var w := Exec(EMPTY, L.MakeVolume(Vault) + (Captured() + DeleteBoth()));
            w.slots == map[] && w.ready == {} && w.dying == map[] && Snap(L.V, L.S) in w.vault
  {
    hide Next, Captured, L.MakeVolume, L.Staged;
    L.StagedIsReached(Vault);
    ExecConcat(EMPTY, L.MakeVolume(Vault), Captured() + DeleteBoth());
    ExecConcat(L.Staged(Vault), Captured(), DeleteBoth());
    CapturedReached();
    var w := Exec(L.Staged(Vault), Captured());
    BothDying(w);
    var w2 := Next(Next(w, DoDelete(DeleteSnapshot(L.V, L.S))), DoDelete(DeleteVolume(L.V)));
    RemovedWhole(w2);
    Unroll2(w, DoDelete(DeleteSnapshot(L.V, L.S)), DoDelete(DeleteVolume(L.V)),
        [DoDelete(DropKey(Vol(L.V))), DoDelete(RemoveImage(L.V))] + []);
    Unroll2(w2, DoDelete(DropKey(Vol(L.V))), DoDelete(RemoveImage(L.V)), []);
  }

  lemma RemovedWhole(w: World)
    requires w.dying == map[Snap(L.V, L.S) := 0, Vol(L.V) := 0] && w.slots.Keys == {Vol(L.V)} && w.jobs == map[]
    requires Snap(L.V, L.S) in w.vault && w.ready == {}
    ensures var w' := Next(Next(w, DoDelete(DropKey(Vol(L.V)))), DoDelete(RemoveImage(L.V)));
            w'.slots == map[] && w'.ready == {} && w'.dying == map[] && Snap(L.V, L.S) in w'.vault
  {
    var w1 := Next(w, DoDelete(DropKey(Vol(L.V))));
    assert w1.slots == w.slots && w1.jobs == map[] && w1.dying[Vol(L.V)] == 1 && w1.ready == {};
  }

  // ---- a lost UID write ------------------------------------------------------------

  /** The volume records a KMIP object that is gone for good. */
  ghost predicate Stranded(w: World, v: string, u: nat) {
    Vol(v) in w.ready && DescOf(w, Vol(v)).kms == Kmip && DescOf(w, Vol(v)).uid == Some(u) && u < w.next &&
        u !in w.objects
  }

  /** No stage finds a key, mints one or formats the volume, and no rotation starts. */
  lemma StrandedIdle(w: World, v: string, u: nat)
    requires Inv(w) && Stranded(w, v, u)
    ensures Stored(w, Vol(v)).None? && !CanProvision(w, Format(v)) && (forall t :: !CanProvision(w, BeginStage(t, v)))
    ensures (forall r :: !CanRotate(w, r, Start(v))) && forall r | r in w.rots :: w.rots[r].image != v
  {
    hide IdsKnown, Shape, JobsOk, Exclusive, PriorsPrivate, RotsApart;
    assert SpecOk(w, Vol(v));
    forall r | r in w.rots ensures w.rots[r].image != v { assert RotOk(w, r); }
  }

  lemma ReplayStrands(w: World, i: InheritStep, v: string, u: nat)
    requires Inv(w) && Stranded(w, v, u) && CanInherit(w, Vol(v), i) && Admitted(w, DoInherit(Vol(v), i))
    ensures Stranded(Inherit(w, Vol(v), i), v, u)
  {
    hide IdsKnown, Shape, JobsOk, Exclusive, PriorsPrivate, RotsOk;
    InvJob(w, Vol(v));
    var w' := Inherit(w, Vol(v), i);
    if i == Finish {
      FinishAgrees(w, Vol(v));
    } else if i == CloneKey {
      RedoCloneKeySteady(w, Vol(v));
      RedoCopiesNothing(w, Vol(v));
    } else {
      RedoSteady(w, w', Vol(v), i);
    }
  }

  lemma RedoCopiesNothing(w: World, sp: Spec)
    requires CanInherit(w, sp, CloneKey) && (w.jobs[sp].phase.kms == Kmip ==> DescOf(w, sp).owner == Some(sp))
    ensures Inherit(w, sp, CloneKey).objects == w.objects && Inherit(w, sp, CloneKey).next == w.next
    ensures Inherit(w, sp, CloneKey).ready == w.ready
  {}

  lemma StrandedStays(w: World, a: Action, v: string, u: nat)
    requires Inv(w) && Admitted(w, a) && Stranded(w, v, u) && Vol(v) in Next(w, a).ready && Enabled(w, a)
    ensures Stranded(Next(w, a), v, u)
  {
    if a.DoInherit? && a.sp == Vol(v) {
      ReplayStrands(w, a.i, v, u);
    } else {
      StrandedApart(w, a, v, u);
    }
  }

  lemma StrandedApart(w: World, a: Action, v: string, u: nat)
    requires Inv(w) && Admitted(w, a) && Stranded(w, v, u) && Vol(v) in Next(w, a).ready && Enabled(w, a)
    requires a.DoInherit? ==> a.sp != Vol(v)
    ensures Apart(w, Next(w, a), Vol(v), Some(u))
  {
    hide Apart, IdsKnown, SpecsOk, Exclusive, PriorsPrivate, JobsOk, RotsOk, DescOf, Provision, Inherit, Rotate, Delete,
         Provisions, Admitted, CanProvision, CanInherit, CanRotate, CanDelete, Deletes, Begin;
    var sp := Vol(v);
    match a
    case DoProvision(p) => StrandedUnprovisioned(w, p, v, u); ApartProvision(w, p, sp, Some(u));
    case DoInherit(x, i) => ApartInherit(w, x, i, sp, Some(u));
    case DoRotate(r, t) => StrandedUnrotated(w, r, t, v, u); ApartRotate(w, r, t, sp, Some(u));
    case DoDelete(d) => StrandedUndeleted(w, d, v); ApartDelete(w, d, sp, Some(u));
  }

  lemma StrandedUnrotated(w: World, r: nat, t: RotateStep, v: string, u: nat)
    requires Inv(w) && Stranded(w, v, u) && CanRotate(w, r, t)
    ensures t.Start? || Vol(w.rots[r].image) != Vol(v)
  {
    hide Inv, Stranded;
    StrandedIdle(w, v, u);
  }

  lemma StrandedUndeleted(w: World, d: DeleteStep, v: string)
    requires Shape(w) && Vol(v) in w.ready && CanDelete(w, d) && Vol(v) in Delete(w, d).ready
    ensures !Deletes(DoDelete(d), Vol(v)) && d != Begin(Vol(v)).d && d != RemoveImage(v)
  {}

  lemma StrandedUnprovisioned(w: World, p: ProvisionStep, v: string, u: nat)
    requires JobsOk(w) && CanProvision(w, p) && Admitted(w, DoProvision(p)) && Stranded(w, v, u)
    ensures !Provisions(w, p, Vol(v))
  {
    if p.RecordKms? { assert JobOk(w, Vol(p.v)); }
  }

  lemma {:induction false} StrandedRun(w: World, acts: seq<Action>, v: string, u: nat)
    requires Inv(w) && AllAdmitted(w, acts) && T.StaysReady(w, acts, Vol(v)) && Stranded(w, v, u)
    ensures Inv(Exec(w, acts)) && Stranded(Exec(w, acts), v, u)
    decreases |acts|
  {
    hide Inv, Admitted, Stranded, Next;
    if acts != [] {
      T.StepKeeps(w, acts[0]);
      assert Vol(v) in Next(w, acts[0]).ready by { assert T.StaysReady(Next(w, acts[0]), acts[1..], Vol(v)); }
      if Enabled(w, acts[0]) { StrandedStays(w, acts[0], v, u); } else { Disabled(w, acts[0]); }
      StrandedRun(Next(w, acts[0]), acts[1..], v, u);
    }
  }

  lemma LostWriteStrands(w: World, t: nat)
    requires Inv(w) && CanProvision(w, StoreLost(t)) && Stageable(w, t)
    ensures Stranded(StoreLostStep(w, t), w.stages[t].image, w.next)
  {
    var v := w.stages[t].image;
    PutReads(w, StoreLostStep(w, t), Vol(v), DescOf(w, Vol(v)).(uid := Some(w.next)), Vol(v));
  }

  /** A first KMIP stage whose UID write is reported failed although it took effect destroys the
      object it has just recorded. In every run after it in which the volume is not deleted, no
      stage finds a key, mints one or formats the volume. */
  lemma LostWriteStrandsForGood(past: seq<Action>, t: nat, acts: seq<Action>)
    requires AllAdmitted(EMPTY, past)
    requires var w, a := Exec(EMPTY, past), DoProvision(StoreLost(t));
             && Enabled(w, a) && Admitted(w, a)
             && AllAdmitted(Next(w, a), acts) && T.StaysReady(Next(w, a), acts, Vol(w.stages[t].image))
    ensures var w := Exec(EMPTY, past);
            var v, w' := w.stages[t].image, Exec(Next(w, DoProvision(StoreLost(t))), acts);
            && Stored(w', Vol(v)).None? && !CanProvision(w', Format(v))
            && (forall q :: !CanProvision(w', BeginStage(q, v)))
            && Vol(v) in w'.slots && w'.slots[Vol(v)] == {}
  {
    hide Exec, AllAdmitted, IdsKnown, JobsOk, Exclusive, PriorsPrivate, RotsOk, T.StaysReady;
    EmptyInv();
    T.RunKeeps(EMPTY, past);
    var w, a := Exec(EMPTY, past), DoProvision(StoreLost(t));
    var v := w.stages[t].image;
    LostWriteStrands(w, t);
    T.StepKeeps(w, a);
    StrandedRun(Next(w, a), acts, v, w.next);
    StrandedIdle(Exec(Next(w, a), acts), v, w.next);
    assert SpecOk(Exec(Next(w, a), acts), Vol(v));
  }
}
