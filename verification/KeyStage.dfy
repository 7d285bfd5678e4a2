/** First stages that overlap: when the store of a drawn key leaves a formatted volume openable. */
module KeyStage {
  import opened Options
  import opened KeyPlane
  import opened KeyInvariant
  import opened KeyFrame
  import T = KeyTheorems

  /** The key is nowhere that a header is filled from: in no header, store or rotation. */
  ghost predicate Unused(w: World, p: Pass) {
    && (forall sp | sp in w.slots :: p !in w.slots[sp])
    && (forall sp | sp in w.jobs :: NotFrozen(w.jobs[sp], p))
    && UnusedMeta(w, p)
    && (forall sp | sp in w.vault :: w.vault[sp] != p)
    && (forall u | u in w.objects :: w.objects[u] != p)
    && (forall r | r in w.rots :: MintedOf(w.rots[r].turn) != Some(p))
  }

  ghost predicate NotFrozen(j: Job, p: Pass) { j.Copy? && j.frozen.Some? ==> p !in j.frozen.value }

  ghost predicate UnusedMeta(w: World, p: Pass) { forall sp :: DescOf(w, sp).dek != Some(p) }

  /** Stage `t` is the one that stores `p`. */
  ghost predicate Stores(w: World, a: Action, p: Pass) {
    a.DoProvision? && a.p.StoreKey? && a.p.t in w.stages && w.stages[a.p.t].key == p
  }

  lemma PutUnused(w: World, w': World, sp: Spec, d: Desc, p: Pass)
    requires UnusedMeta(w, p) && w'.meta == PutMeta(w, sp, d) && d.dek != Some(p)
    ensures UnusedMeta(w', p)
  {
    forall x ensures DescOf(w', x).dek != Some(p) { PutReads(w, w', sp, d, x); }
  }

  lemma SameUnused(w: World, w': World, p: Pass)
    requires UnusedMeta(w, p) && w'.meta == w.meta
    ensures UnusedMeta(w', p)
  {
    assert forall x :: DescOf(w', x) == DescOf(w, x);
  }

  /** What is stored for a spec, or resolved at its stage, is not an unused key. */
  lemma StoredUnused(w: World, sp: Spec, p: Pass)
    requires Unused(w, p)
    ensures Stored(w, sp) != Some(p) && (sp.Vol? && p.Random? ==> StagePass(w, sp.image) != Some(p))
  {}

  /** Metadata copied from one image to another, or dropped with it. */
  lemma ImageUnused(w: World, w': World, x: string, v: string, p: Pass)
    requires UnusedMeta(w, p)
    requires (w'.meta == w.meta - {x}) || (w'.meta == w.meta[x := Meta(BLANK, map[])]) ||
             (v in w.meta && w'.meta == w.meta[x := w.meta[v]])
    ensures UnusedMeta(w', p)
  {
    forall y ensures DescOf(w', y).dek != Some(p) {
      if y.image == x {
        assert DescOf(w, if y.Vol? then Vol(v) else Snap(v, y.snap)).dek != Some(p);
      } else {
        assert DescOf(w', y) == DescOf(w, y);
      }
    }
  }

  // ---- every step leaves a drawn key unused until it is stored ------------------

  lemma CreateUnused(w: World, a: ProvisionStep, p: Pass)
    requires Unused(w, p) && CanProvision(w, a) && (a.CreateImage? || a.RecordKms?)
    ensures Unused(Provision(w, a), p)
  {
    hide UnusedMeta;
    match a
    case CreateImage(v, kms) => ImageUnused(w, Provision(w, a), v, v, p);
    case RecordKms(v) =>
      var d := DescOf(w, Vol(v));
      DescUnused(w, Vol(v), p);
      PutUnused(w, Provision(w, a), Vol(v), d.(kms := w.jobs[Vol(v)].want), p);
  }

  lemma DescUnused(w: World, sp: Spec, p: Pass)
    requires UnusedMeta(w, p)
    ensures DescOf(w, sp).dek != Some(p)
  {}

  lemma StoreUnused(w: World, t: nat, p: Pass)
    requires Unused(w, p) && t in w.stages && w.stages[t].key != p
    ensures Unused(StoreKeyStep(w, t), p)
  {
    hide UnusedMeta, DescOf;
    var f, w', sp := w.stages[t], StoreKeyStep(w, t), Vol(w.stages[t].image);
    DescUnused(w, sp, p);
    match f.kms
    case SecretsMetadata => PutUnused(w, w', sp, DescOf(w, sp).(dek := Some(f.key)), p);
    case Kmip => PutUnused(w, w', sp, DescOf(w, sp).(uid := Some(w.next)), p);
    case _ => SameUnused(w, w', p);
  }

  lemma LostUnused(w: World, t: nat, p: Pass)
    requires Unused(w, p) && t in w.stages
    ensures Unused(StoreLostStep(w, t), p)
  {
    hide UnusedMeta, DescOf;
    var sp := Vol(w.stages[t].image);
    DescUnused(w, sp, p);
    PutUnused(w, StoreLostStep(w, t), sp, DescOf(w, sp).(uid := Some(w.next)), p);
  }

  lemma CloneUnused(w: World, x: string, p: Pass)
    requires Unused(w, p) && CanProvision(w, CloneImage(x))
    ensures Unused(Provision(w, CloneImage(x)), p)
  {
    hide UnusedMeta, DescOf, RootOf;
    ImageUnused(w, Provision(w, CloneImage(x)), x, w.jobs[Vol(x)].from.image, p);
  }

  lemma RestoreUnused(w: World, v: string, s: string, x: string, p: Pass)
    requires Unused(w, p) && CanProvision(w, RestoreImage(v, s, x))
    ensures Unused(Provision(w, RestoreImage(v, s, x)), p)
  {
    hide UnusedMeta, DescOf, RootOf;
    ImageUnused(w, Provision(w, RestoreImage(v, s, x)), x, v, p);
  }

  lemma FreezeUnused(w: World, a: ProvisionStep, p: Pass)
    requires Unused(w, p) && CanProvision(w, a) && (a.TakeSnapshot? || a.TempSnapshot?)
    ensures Unused(Provision(w, a), p)
  {
    hide UnusedMeta, DescOf, RootOf;
    SameUnused(w, Provision(w, a), p);
  }

  lemma RedoUnused(w: World, sp: Spec, from: Source, p: Pass)
    requires Unused(w, p) && CanProvision(w, Redo(sp, from))
    ensures Unused(Provision(w, Redo(sp, from)), p)
  {
    hide UnusedMeta, DescOf, RootOf, Replayable;
    SameUnused(w, Provision(w, Redo(sp, from)), p);
  }

  lemma FormatUnused(w: World, v: string, p: Pass)
    requires Unused(w, p) && p.Random? && CanProvision(w, Format(v))
    ensures Unused(Provision(w, Format(v)), p)
  {
    StoredUnused(w, Vol(v), p);
    hide UnusedMeta, DescOf, StagePass, NoKey;
    SameUnused(w, Provision(w, Format(v)), p);
  }

  lemma BegunUnused(w: World, t: nat, v: string, p: Pass)
    requires Unused(w, p) && CanProvision(w, BeginStage(t, v))
    ensures Unused(Provision(w, BeginStage(t, v)), p)
  {
    hide UnusedMeta, DescOf, NoKey;
    SameUnused(w, Provision(w, BeginStage(t, v)), p);
  }

  lemma RegisterUnused(w: World, p: Pass)
    requires Unused(w, p) && p.Random? && p.n < w.next
    ensures Unused(RegisterOnlyStep(w), p)
  {
    hide UnusedMeta;
    SameUnused(w, RegisterOnlyStep(w), p);
  }

  lemma LoseUnused(w: World, t: nat, p: Pass)
    requires Unused(w, p) && CanProvision(w, LoseStage(t))
    ensures Unused(Provision(w, LoseStage(t)), p)
  {
    hide UnusedMeta, DescOf, NoKey;
    SameUnused(w, Provision(w, LoseStage(t)), p);
  }

  lemma ProvisionUnused(w: World, a: ProvisionStep, p: Pass)
    requires Unused(w, p) && p.Random? && p.n < w.next && CanProvision(w, a) && !Stores(w, DoProvision(a), p)
    ensures Unused(Provision(w, a), p)
  {
    hide Unused;
    match a
    case CreateImage(_, _) => CreateUnused(w, a, p);
    case RecordKms(_) => CreateUnused(w, a, p);
    case StoreKey(t) => StoreUnused(w, t, p);
    case StoreLost(t) => LostUnused(w, t, p);
    case CloneImage(x) => CloneUnused(w, x, p);
    case RestoreImage(v, s, x) => RestoreUnused(w, v, s, x, p);
    case TakeSnapshot(_, _) => FreezeUnused(w, a, p);
    case TempSnapshot(_, _) => FreezeUnused(w, a, p);
    case Redo(sp, from) => RedoUnused(w, sp, from, p);
    case Format(v) => FormatUnused(w, v, p);
    case BeginStage(t, v) => BegunUnused(w, t, v, p);
    case RegisterOnly => RegisterUnused(w, p);
    case LoseStage(t) => LoseUnused(w, t, p);
  }

  lemma WriteUnused(w: World, sp: Spec, i: InheritStep, p: Pass)
    requires Unused(w, p) && CanInherit(w, sp, i) && i != CloneKey && i != Attempt && i != Finish && i != Crash
    ensures Unused(Inherit(w, sp, i), p)
  {
    hide DescOf, InheritedKeyId, InheritedKms, UnusedMeta;
    var w', d, ph := Inherit(w, sp, i), DescOf(w, sp), w.jobs[sp].phase;
    DescUnused(w, sp, p);
    match i
    case SetKeyId => PutUnused(w, w', sp, d.(keyId := Some(InheritedKeyId(w, ph.src, sp))), p);
    case SetKms =>
      if w'.meta == w.meta {
        SameUnused(w, w', p);
      } else {
        PutUnused(w, w', sp, d.(kms := InheritedKms(w, ph.src, sp)), p);
      }
    case SetDek =>
      DescUnused(w, ph.src, p);
      if w'.meta == w.meta {
        SameUnused(w, w', p);
      } else {
        PutUnused(w, w', sp, d.(dek := InheritedDek(w, ph.src, sp)), p);
      }
    case SetUid => PutUnused(w, w', sp, d.(uid := Some(ph.uid)), p);
    case SetOwner => PutUnused(w, w', sp, d.(owner := Some(sp)), p);
  }

  lemma VaultUnused(w: World, sp: Spec, src: Spec, key: Spec, p: Pass)
    requires Unused(w, p) && CanInherit(w, sp, CloneKey)
    ensures Unused(VaultCloneKey(w, sp, src, key), p)
  {
    hide UnusedMeta;
    SameUnused(w, VaultCloneKey(w, sp, src, key), p);
  }

  lemma KmipUnused(w: World, sp: Spec, src: Spec, key: Spec, p: Pass)
    requires Unused(w, p) && CanInherit(w, sp, CloneKey)
    ensures Unused(KmipCloneKey(w, sp, src, key), p)
  {
    hide UnusedMeta, DescOf;
    SameUnused(w, KmipCloneKey(w, sp, src, key), p);
  }

  lemma QuietUnused(w: World, sp: Spec, i: InheritStep, p: Pass)
    requires Unused(w, p) && CanInherit(w, sp, i) && (i == Attempt || i == Finish || i == Crash)
    ensures Unused(Inherit(w, sp, i), p)
  {
    hide UnusedMeta, SourceSpec;
    SameUnused(w, Inherit(w, sp, i), p);
  }

  lemma PlainUnused(w: World, sp: Spec, key: Spec, p: Pass)
    requires Unused(w, p) && CanInherit(w, sp, CloneKey)
    ensures Unused(PlainCloneKey(w, sp, key), p)
  {
    hide UnusedMeta;
    SameUnused(w, PlainCloneKey(w, sp, key), p);
  }

  lemma InheritUnused(w: World, sp: Spec, i: InheritStep, p: Pass)
    requires Unused(w, p) && CanInherit(w, sp, i)
    ensures Unused(Inherit(w, sp, i), p)
  {
    hide Unused, VaultCloneKey, KmipCloneKey, PlainCloneKey;
    var ph := w.jobs[sp].phase;
    match i
    case CloneKey =>
      if ph.kms == Vault {
        VaultUnused(w, sp, ph.src, ph.key, p);
      } else if ph.kms == Kmip {
        KmipUnused(w, sp, ph.src, ph.key, p);
      } else {
        PlainUnused(w, sp, ph.key, p);
      }
    case Attempt => QuietUnused(w, sp, i, p);
    case Finish => QuietUnused(w, sp, i, p);
    case Crash => QuietUnused(w, sp, i, p);
    case _ => WriteUnused(w, sp, i, p);
  }

  lemma PersistUnused(w: World, r: nat, acked: bool, p: Pass)
    requires Unused(w, p) && CanRotate(w, r, Persist(acked))
    ensures Unused(PersistStep(w, r, acked), p)
  {
    hide UnusedMeta, DescOf;
    var w', v, t := PersistStep(w, r, acked), Vol(w.rots[r].image), w.rots[r].turn;
    DescUnused(w, v, p);
    match DescOf(w, v).kms
    case SecretsMetadata => PutUnused(w, w', v, DescOf(w, v).(dek := Some(t.minted)), p);
    case Kmip => PutUnused(w, w', v, DescOf(w, v).(uid := t.mintedUid), p);
    case _ => SameUnused(w, w', p);
  }

  lemma AddUnused(w: World, r: nat, p: Pass)
    requires Unused(w, p) && CanRotate(w, r, AddSlot)
    ensures Unused(AddSlotStep(w, r), p)
  {
    assert MintedOf(w.rots[r].turn) == Some(w.rots[r].turn.minted);
    hide UnusedMeta, CanRotate;
    SameUnused(w, AddSlotStep(w, r), p);
  }

  lemma RemoveUnused(w: World, r: nat, p: Pass)
    requires Unused(w, p) && CanRotate(w, r, RemoveSlot)
    ensures Unused(RemoveSlotStep(w, r), p)
  {
    assert w.rots[r].turn.Reaped? && Vol(w.rots[r].image) in w.slots;
    hide UnusedMeta, CanRotate;
    SameUnused(w, RemoveSlotStep(w, r), p);
  }

  lemma AbortUnused(w: World, r: nat, p: Pass)
    requires Unused(w, p) && CanRotate(w, r, Abort)
    ensures Unused(AbortStep(w, r), p)
  {
    hide UnusedMeta, CanRotate;
    SameUnused(w, AbortStep(w, r), p);
  }

  lemma ReapUnused(w: World, r: nat, done: bool, p: Pass)
    requires Unused(w, p) && CanRotate(w, r, Reap(done))
    ensures Unused(ReapStep(w, r, done), p)
  {
    hide UnusedMeta, CanRotate;
    SameUnused(w, ReapStep(w, r, done), p);
  }

  lemma MintUnused(w: World, r: nat, p: Pass)
    requires Unused(w, p) && CanRotate(w, r, MintKey) && p.Random? && p.n < w.next
    ensures Unused(MintKeyStep(w, r), p)
  {
    hide UnusedMeta, CanRotate;
    SameUnused(w, MintKeyStep(w, r), p);
  }

  /** A rotation that starts, reads or dies holds no minted key. */
  lemma QuietTurnUnused(w: World, w': World, p: Pass)
    requires Unused(w, p) && w' == w.(rots := w'.rots)
    requires forall q | q in w'.rots :: (q in w.rots && w'.rots[q] == w.rots[q]) || MintedOf(w'.rots[q].turn).None?
    ensures Unused(w', p)
  {
    hide UnusedMeta;
    SameUnused(w, w', p);
  }

  lemma QuietTurn(w: World, r: nat, t: RotateStep)
    requires CanRotate(w, r, t) && (t.Start? || t.ReadUid? || t.ReadPrior? || t.ReadPriorUid? || t.Die?)
    ensures var w' := Rotate(w, r, t);
            && w' == w.(rots := w'.rots)
            && forall q | q in w'.rots :: (q in w.rots && w'.rots[q] == w.rots[q]) || MintedOf(w'.rots[q].turn).None?
  {
    hide CanRotate, MintKeyStep, AddSlotStep, AbortStep, PersistStep, ReapStep, RemoveSlotStep;
  }

  lemma RotateUnused(w: World, r: nat, t: RotateStep, p: Pass)
    requires Unused(w, p) && CanRotate(w, r, t) && p.Random? && p.n < w.next
    ensures Unused(Rotate(w, r, t), p)
  {
    hide Unused, CanRotate, MintedOf, MintKeyStep, AddSlotStep, AbortStep, PersistStep, ReapStep, RemoveSlotStep,
         ReadTurn;
    match t
    case Persist(acked) => PersistUnused(w, r, acked, p);
    case MintKey => MintUnused(w, r, p);
    case Abort => AbortUnused(w, r, p);
    case Reap(done) => ReapUnused(w, r, done, p);
    case AddSlot => AddUnused(w, r, p);
    case RemoveSlot => RemoveUnused(w, r, p);
    case _ =>
      QuietTurn(w, r, t);
      QuietTurnUnused(w, Rotate(w, r, t), p);
  }

  lemma WipeUnused(w: World, sp: Spec, p: Pass)
    requires Unused(w, p) && CanDelete(w, WipeMeta(sp))
    ensures Unused(Delete(w, WipeMeta(sp)), p)
  {
    hide UnusedMeta, DescOf;
    DescUnused(w, sp, p);
    PutUnused(w, Delete(w, WipeMeta(sp)), sp, Wiped(DescOf(w, sp), w.dying[sp]), p);
  }

  lemma ImageGoneUnused(w: World, v: string, p: Pass)
    requires Unused(w, p) && CanDelete(w, RemoveImage(v))
    ensures Unused(Delete(w, RemoveImage(v)), p)
  {
    hide UnusedMeta, NoLiveSnaps;
    ImageUnused(w, Delete(w, RemoveImage(v)), v, v, p);
  }

  lemma DropUnused(w: World, d: DeleteStep, p: Pass)
    requires Unused(w, p) && CanDelete(w, d) && !d.WipeMeta? && !d.RemoveImage?
    ensures Unused(Delete(w, d), p)
  {
    hide UnusedMeta, DescOf, NoLiveSnaps;
    SameUnused(w, Delete(w, d), p);
  }

  lemma DeleteUnused(w: World, d: DeleteStep, p: Pass)
    requires Unused(w, p) && CanDelete(w, d)
    ensures Unused(Delete(w, d), p)
  {
    hide Unused, Delete;
    match d
    case WipeMeta(sp) => WipeUnused(w, sp, p);
    case RemoveImage(v) => ImageGoneUnused(w, v, p);
    case _ => DropUnused(w, d, p);
  }

  lemma StepUnused(w: World, a: Action, p: Pass)
    requires Unused(w, p) && p.Random? && p.n < w.next && !Stores(w, a, p)
    ensures Unused(Next(w, a), p)
  {
    hide Unused, Provision, Inherit, Rotate, Delete;
    if Enabled(w, a) {
      match a
      case DoProvision(s) => ProvisionUnused(w, s, p);
      case DoInherit(sp, i) => InheritUnused(w, sp, i, p);
      case DoRotate(r, t) => RotateUnused(w, r, t, p);
      case DoDelete(d) => DeleteUnused(w, d, p);
    }
  }

  // ---- every pending stage holds a key of its own ---------------------------------

  /** A stage that has drawn its key and not yet stored it holds one found nowhere else. */
  ghost predicate Pending(w: World, t: nat)
    requires t in w.stages
  {
    var p := w.stages[t].key;
    && w.stages[t].kms != NoKms && p.Random? && p.n < w.next && Unused(w, p)
    && forall t' | t' in w.stages && t' != t :: w.stages[t'].key != p
  }

  ghost predicate AllPending(w: World) { forall t | t in w.stages :: Pending(w, t) }

  /** A number not yet drawn names a key that is nowhere. */
  lemma FreshUnused(w: World)
    requires IdsKnown(w)
    ensures Unused(w, Random(w.next))
    ensures forall t | t in w.stages :: w.stages[t].key != Random(w.next)
  {
    var p := Random(w.next);
    assert !Known(w, p);
    assert forall sp | sp in w.jobs :: JobIdsKnown(w, w.jobs[sp]) ==> NotFrozen(w.jobs[sp], p);
    assert forall r | r in w.rots :: TurnIdsKnown(w, w.rots[r].turn) ==> MintedOf(w.rots[r].turn) != Some(p);
    assert forall sp :: KnownOpt(w, DescOf(w, sp).dek) ==> DescOf(w, sp).dek != Some(p);
  }

  /** No stage is changed, and none is new. */
  ghost predicate NoneBegins(w: World, w': World) {
    w.next <= w'.next && forall t | t in w'.stages :: t in w.stages && w'.stages[t] == w.stages[t]
  }

  lemma ProvisionBegins(w: World, a: ProvisionStep)
    requires CanProvision(w, a) && !a.BeginStage?
    ensures NoneBegins(w, Provision(w, a)) && (a.StoreKey? ==> a.t !in Provision(w, a).stages)
  {
    hide DescOf, PutMeta, Stored, StagePass, RootOf, Replayable, NoKey;
  }

  lemma VaultBegins(w: World, sp: Spec, src: Spec, key: Spec)
    requires CanInherit(w, sp, CloneKey)
    ensures NoneBegins(w, VaultCloneKey(w, sp, src, key))
  {
    hide DescOf;
  }

  lemma KmipBegins(w: World, sp: Spec, src: Spec, key: Spec)
    requires CanInherit(w, sp, CloneKey)
    ensures NoneBegins(w, KmipCloneKey(w, sp, src, key))
  {
    hide DescOf;
  }

  lemma CloneBegins(w: World, sp: Spec)
    requires CanInherit(w, sp, CloneKey)
    ensures NoneBegins(w, Inherit(w, sp, CloneKey))
  {
    hide DescOf, NoneBegins, VaultCloneKey, KmipCloneKey;
    var ph := w.jobs[sp].phase;
    VaultBegins(w, sp, ph.src, ph.key);
    KmipBegins(w, sp, ph.src, ph.key);
    PlainBegins(w, sp, ph.key);
  }

  lemma PlainBegins(w: World, sp: Spec, key: Spec)
    requires CanInherit(w, sp, CloneKey)
    ensures NoneBegins(w, PlainCloneKey(w, sp, key))
  {
    hide DescOf;
  }

  lemma InheritBegins(w: World, sp: Spec, i: InheritStep)
    requires CanInherit(w, sp, i)
    ensures NoneBegins(w, Inherit(w, sp, i))
  {
    hide DescOf, PutMeta, InheritedDek, InheritedKms, InheritedKeyId, SourceSpec, VaultCloneKey, KmipCloneKey,
         PlainCloneKey;
    if i == CloneKey { CloneBegins(w, sp); }
  }

  lemma RotateStages(w: World, r: nat, t: RotateStep)
    requires CanRotate(w, r, t)
    ensures Rotate(w, r, t).stages == w.stages && w.next <= Rotate(w, r, t).next
  {
    match t
    case Persist(acked) => assert PersistStep(w, r, acked).stages == w.stages;
    case MintKey => assert MintKeyStep(w, r).stages == w.stages;
    case Abort => assert AbortStep(w, r).stages == w.stages;
    case Reap(done) => assert ReapStep(w, r, done).stages == w.stages;
    case AddSlot => assert AddSlotStep(w, r).stages == w.stages;
    case RemoveSlot => assert RemoveSlotStep(w, r).stages == w.stages;
    case _ =>
  }

  lemma RotateBegins(w: World, r: nat, t: RotateStep)
    requires CanRotate(w, r, t)
    ensures NoneBegins(w, Rotate(w, r, t))
  {
    hide Rotate, CanRotate;
    RotateStages(w, r, t);
  }

  lemma DeleteBegins(w: World, d: DeleteStep)
    requires CanDelete(w, d)
    ensures NoneBegins(w, Delete(w, d))
  {
    hide DescOf, PutMeta, Wiped, NoLiveSnaps;
  }

  lemma StagesStep(w: World, a: Action)
    requires Enabled(w, a) && !(a.DoProvision? && a.p.BeginStage?)
    ensures NoneBegins(w, Next(w, a))
    ensures a.DoProvision? && a.p.StoreKey? ==> a.p.t !in Next(w, a).stages
  {
    hide NoneBegins, Provision, Inherit, Rotate, Delete, CanProvision, CanInherit, CanRotate, CanDelete;
    match a
    case DoProvision(s) => ProvisionBegins(w, s);
    case DoInherit(sp, i) => InheritBegins(w, sp, i);
    case DoRotate(r, t) => RotateBegins(w, r, t);
    case DoDelete(d) => DeleteBegins(w, d);
  }

  lemma OldStagePending(w: World, a: Action, t: nat)
    requires AllPending(w) && Enabled(w, a) && !(a.DoProvision? && a.p.BeginStage?) && t in Next(w, a).stages
    ensures Pending(Next(w, a), t)
  {
    hide Next, Unused, Enabled;
    StagesStep(w, a);
    assert Pending(w, t);
    StepUnused(w, a, w.stages[t].key);
  }

  lemma BegunPending(w: World, t: nat, v: string)
    requires Inv(w) && AllPending(w) && CanProvision(w, BeginStage(t, v))
    ensures AllPending(Provision(w, BeginStage(t, v)))
  {
    hide Unused, Provision, DescOf, NoKey;
    var w', a := Provision(w, BeginStage(t, v)), BeginStage(t, v);
    FreshUnused(w);
    BegunStages(w, t, v);
    BegunUnused(w, t, v, Random(w.next));
    forall u | u in w'.stages ensures Pending(w', u) {
      if u != t {
        assert Pending(w, u);
        BegunUnused(w, t, v, w.stages[u].key);
      }
    }
  }

  lemma BegunStages(w: World, t: nat, v: string)
    requires CanProvision(w, BeginStage(t, v))
    ensures Provision(w, BeginStage(t, v)) ==
            w.(stages := w.stages[t := FirstStage(v, DescOf(w, Vol(v)).kms, Random(w.next))], next := w.next + 1)
  {}

  lemma StepPending(w: World, a: Action)
    requires Inv(w) && AllPending(w)
    ensures AllPending(Next(w, a))
  {
    hide Pending, Inv, Provision, Inherit, Rotate, Delete, CanProvision, CanInherit, CanRotate, CanDelete;
    if Enabled(w, a) {
      if a.DoProvision? && a.p.BeginStage? {
        BegunPending(w, a.p.t, a.p.v);
      } else {
        forall t | t in Next(w, a).stages ensures Pending(Next(w, a), t) { OldStagePending(w, a, t); }
      }
    }
  }

  lemma {:induction false} RunPending(w: World, acts: seq<Action>)
    requires Inv(w) && AllPending(w) && AllAdmitted(w, acts)
    ensures AllPending(Exec(w, acts))
    decreases |acts|
  {
    hide AllPending, Inv, Next, Admitted;
    if acts != [] {
      T.StepKeeps(w, acts[0]);
      StepPending(w, acts[0]);
      RunPending(Next(w, acts[0]), acts[1..]);
    }
  }

  // ---- storing a drawn key over a formatted volume ----------------------------------

  /** The store changes what the volume resolves only under the provider the stage read. */
  lemma StoredElsewhere(w: World, t: nat)
    requires CanProvision(w, StoreKey(t))
    requires w.stages[t].kms != DescOf(w, Vol(w.stages[t].image)).kms
    ensures var v, w' := w.stages[t].image, StoreKeyStep(w, t);
            StagePass(w', v) == StagePass(w, v) && ResizePass(w', v) == ResizePass(w, v)
  {
    var f, sp, w' := w.stages[t], Vol(w.stages[t].image), StoreKeyStep(w, t);
    if f.kms == SecretsMetadata {
      PutReads(w, w', sp, DescOf(w, sp).(dek := Some(f.key)), sp);
    } else if f.kms == Kmip {
      PutReads(w, w', sp, DescOf(w, sp).(uid := Some(w.next)), sp);
    } else {
      assert DescOf(w', sp) == DescOf(w, sp);
    }
    hide DescOf, PutMeta, StoreKeyStep;
    StoredVault(w, t);
  }

  lemma StoredVault(w: World, t: nat)
    requires t in w.stages
    ensures var f, w' := w.stages[t], StoreKeyStep(w, t);
            w'.ctx == w.ctx && (f.kms != Vault ==> w'.vault == w.vault) && (f.kms != Kmip ==> w'.objects == w.objects)
  {}

  /** Secrets-metadata and KMIP overwrite: the volume then resolves the stage's key. */
  lemma StoredOver(w: World, t: nat)
    requires CanProvision(w, StoreKey(t)) && w.stages[t].kms == DescOf(w, Vol(w.stages[t].image)).kms
    requires w.stages[t].kms == SecretsMetadata || w.stages[t].kms == Kmip
    ensures StagePass(StoreKeyStep(w, t), w.stages[t].image) == Some(w.stages[t].key)
  {
    var f, sp, w' := w.stages[t], Vol(w.stages[t].image), StoreKeyStep(w, t);
    if f.kms == Kmip {
      PutReads(w, w', sp, DescOf(w, sp).(uid := Some(w.next)), sp);
    } else {
      PutReads(w, w', sp, DescOf(w, sp).(dek := Some(f.key)), sp);
    }
  }

  /** Vault keeps the entry it has. */
  lemma StoredOnce(w: World, t: nat)
    requires CanProvision(w, StoreKey(t)) && w.stages[t].kms == Vault
    requires Vol(w.stages[t].image) in w.vault
    ensures var v, w' := w.stages[t].image, StoreKeyStep(w, t);
            StagePass(w', v) == StagePass(w, v) && ResizePass(w', v) == ResizePass(w, v)
  {}

  /** In every reachable state, the store of a first stage, admitted or not, leaves a finished volume
      openable exactly when the volume is not yet formatted, the provider creates and never
      overwrites, or the volume records another provider by now. On a formatted volume of the
      stage's provider that is exactly what `Admitted` asks of a store. */
  lemma StoreOpensIff(past: seq<Action>, t: nat)
    requires AllAdmitted(EMPTY, past) && CanProvision(Exec(EMPTY, past), StoreKey(t))
    requires Vol(Exec(EMPTY, past).stages[t].image) in Exec(EMPTY, past).ready
    ensures var w := Exec(EMPTY, past);
            var f, w' := w.stages[t], Next(w, DoProvision(StoreKey(t)));
            && Vol(f.image) in w.slots
            && (T.Openable(w', f.image) <==>
                w.slots[Vol(f.image)] == {} || f.kms == Vault || f.kms != DescOf(w, Vol(f.image)).kms)
            && (w.slots[Vol(f.image)] != {} && f.kms == DescOf(w, Vol(f.image)).kms ==>
                (T.Openable(w', f.image) <==> Stageable(w, t)))
  {
    EmptyInv();
    T.RunKeeps(EMPTY, past);
    RunPending(EMPTY, past);
    T.RestoresOpen(past, Exec(EMPTY, past).stages[t].image);
    StoreOpens(Exec(EMPTY, past), t);
  }

  lemma StoreOpens(w: World, t: nat)
    requires Inv(w) && AllPending(w) && CanProvision(w, StoreKey(t)) && T.Openable(w, w.stages[t].image)
    requires Vol(w.stages[t].image) in w.ready
    ensures var f, w' := w.stages[t], Next(w, DoProvision(StoreKey(t)));
            && (T.Openable(w', f.image) <==>
                w.slots[Vol(f.image)] == {} || f.kms == Vault || f.kms != DescOf(w, Vol(f.image)).kms)
            && (w.slots[Vol(f.image)] != {} && f.kms == DescOf(w, Vol(f.image)).kms ==>
                (T.Openable(w', f.image) <==> Stageable(w, t)))
  {
    var f := w.stages[t];
    assert Pending(w, t);
    assert Next(w, DoProvision(StoreKey(t))) == StoreKeyStep(w, t);
    assert w.slots[Vol(f.image)] != {} && f.kms == DescOf(w, Vol(f.image)).kms ==> !NoKey(w, f.image);
    hide DescOf, StoreKeyStep, Inv, NoKey;
    StoredSlots(w, t);
    if f.kms != DescOf(w, Vol(f.image)).kms {
      StoredElsewhere(w, t);
    } else if f.kms != Vault {
      StoredOver(w, t);
    } else if w.slots[Vol(f.image)] != {} {
      StoredOnce(w, t);
    }
  }

  lemma StoredSlots(w: World, t: nat)
    requires CanProvision(w, StoreKey(t))
    ensures StoreKeyStep(w, t).slots == w.slots
  {}
}
