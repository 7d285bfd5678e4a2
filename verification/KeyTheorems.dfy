/** What the key plane guarantees over whole runs. */
module KeyTheorems {
  import opened Options
  import opened KeyPlane
  import opened KeyInvariant
  import opened KeyFrame
  import opened KeyInherit
  import opened KeyRotate
  import opened KeyProvision
  import opened KeyDelete

  lemma StepKeeps(w: World, a: Action)
    requires Inv(w) && Admitted(w, a)
    ensures Inv(Next(w, a))
  {
    if Enabled(w, a) {
      match a
      case DoProvision(p) => KeepsProvision(w, p);
      case DoInherit(sp, i) => KeepsInherit(w, sp, i);
      case DoRotate(r, t) => KeepsRotate(w, r, t);
      case DoDelete(d) => KeepsDelete(w, d);
    }
  }

  lemma {:induction false} RunKeeps(w: World, acts: seq<Action>)
    requires Inv(w) && AllAdmitted(w, acts)
    ensures Inv(Exec(w, acts))
    decreases |acts|
  {
    if acts != [] {
      StepKeeps(w, acts[0]);
      RunKeeps(Next(w, acts[0]), acts[1..]);
    }
  }

  // ---- every volume opens --------------------------------------------------

  /** A formatted volume's header opens with the passphrase NodeStage resolves, which is the
      one a resize resolves. */
  ghost predicate Openable(w: World, v: string) {
    Vol(v) in w.slots && (w.slots[Vol(v)] != {} ==>
      && StagePass(w, v).Some? && StagePass(w, v).value in w.slots[Vol(v)]
      && ResizePass(w, v) == StagePass(w, v))
  }

  /** In every run, every volume whose create succeeded (restores and clones included) opens,
      whatever has since happened to the volume or snapshot it was copied from. */
  lemma RestoresOpen(acts: seq<Action>, v: string)
    requires AllAdmitted(EMPTY, acts) && Vol(v) in Exec(EMPTY, acts).ready
    ensures Openable(Exec(EMPTY, acts), v)
  {
    EmptyInv();
    RunKeeps(EMPTY, acts);
    assert SpecOk(Exec(EMPTY, acts), Vol(v));
  }

  /** In every run, the key a finished snapshot captured opens the header it froze. */
  lemma SnapshotsOpen(acts: seq<Action>, v: string, s: string)
    requires AllAdmitted(EMPTY, acts) && Snap(v, s) in Exec(EMPTY, acts).ready
    ensures var w := Exec(EMPTY, acts);
            Snap(v, s) in w.slots && (w.slots[Snap(v, s)] != {} && DescOf(w, Vol(v)).kms != NoKms ==>
              Stored(w, Snap(v, s)).Some? && Stored(w, Snap(v, s)).value in w.slots[Snap(v, s)])
  {
    EmptyInv();
    RunKeeps(EMPTY, acts);
    assert SpecOk(Exec(EMPTY, acts), Snap(v, s));
  }

  // ---- rotation ------------------------------------------------------------

  ghost predicate OnlyRotations(acts: seq<Action>) { forall i | 0 <= i < |acts| :: acts[i].DoRotate? }

  /** What no command of a rotation changes. */
  ghost predicate SameBut(w: World, w': World) { w'.jobs == w.jobs && w'.ready == w.ready }

  lemma StoreKeepsKms(w: World, w': World, sp: Spec, p: Pass, uid: Option<nat>, x: Spec)
    requires w'.meta == StoreMeta(w, sp, p, uid)
    ensures DescOf(w', x).kms == DescOf(w, x).kms
  {
    match DescOf(w, sp).kms
    case SecretsMetadata => PutReads(w, w', sp, DescOf(w, sp).(dek := Some(p)), x);
    case Kmip => PutReads(w, w', sp, DescOf(w, sp).(uid := uid), x);
    case _ =>
  }

  lemma RotateFrame(w: World, r: nat, a: RotateStep, v: string)
    requires CanRotate(w, r, a)
    ensures SameBut(w, Rotate(w, r, a)) && DescOf(Rotate(w, r, a), Vol(v)).kms == DescOf(w, Vol(v)).kms
  {
    var w' := Rotate(w, r, a);
    if a.Persist? {
      var t := w.rots[r].turn;
      StoreKeepsKms(w, w', Vol(w.rots[r].image), t.minted, t.mintedUid, Vol(v));
    } else {
      assert w'.meta == w.meta;
    }
  }

  lemma RotateSlots(w: World, r: nat, a: RotateStep)
    requires CanRotate(w, r, a) && !a.RemoveSlot? && !a.AddSlot?
    ensures Rotate(w, r, a).slots == w.slots
  {}

  lemma RemoveLeavesSlots(w: World, r: nat)
    requires CanRotate(w, r, RemoveSlot) && RotOk(w, r) && Vol(w.rots[r].image) in w.slots
    requires w.slots[Vol(w.rots[r].image)] != {} && SpecOk(w, Vol(w.rots[r].image))
    ensures var w', v := Rotate(w, r, RemoveSlot), Vol(w.rots[r].image); v in w'.slots && w'.slots[v] != {}
  {
    var v := Vol(w.rots[r].image);
    assert Stored(w, v).value in Rotate(w, r, RemoveSlot).slots[v];
  }

  lemma SlotsElsewhere(w: World, r: nat, a: RotateStep, x: Spec)
    requires CanRotate(w, r, a) && (a.RemoveSlot? || a.AddSlot?) && x in w.slots
    ensures x in Rotate(w, r, a).slots
    ensures a.AddSlot? || x != Vol(w.rots[r].image) ==> w.slots[x] <= Rotate(w, r, a).slots[x]
  {}

  lemma FinishedRot(w: World, r: nat)
    requires SpecsOk(w) && RotsOk(w) && r in w.rots
    ensures RotOk(w, r) && Vol(w.rots[r].image) in w.slots && SpecOk(w, Vol(w.rots[r].image))
  {
    hide SpecOk, DescOf, Stored;
    assert RotOk(w, r);
  }

  /** A header that has keyslots keeps some. */
  lemma RotateLeavesSlots(w: World, r: nat, a: RotateStep, v: string)
    requires Inv(w) && CanRotate(w, r, a) && Vol(v) in w.slots && w.slots[Vol(v)] != {}
    ensures var w' := Rotate(w, r, a); Vol(v) in w'.slots && w'.slots[Vol(v)] != {}
  {
    hide IdsKnown, Shape, JobsOk, Exclusive, PriorsPrivate, RotsApart, RotOk, SpecOk, Rotate;
    if !a.RemoveSlot? && !a.AddSlot? {
      RotateSlots(w, r, a);
    } else if a.RemoveSlot? && w.rots[r].image == v {
      FinishedRot(w, r);
      RemoveLeavesSlots(w, r);
    } else {
      SlotsElsewhere(w, r, a, Vol(v));
    }
  }

  lemma AbortDestroys(w: World, r: nat)
    requires Inv(w) && CanRotate(w, r, Abort)
    ensures Destroyed(w, Rotate(w, r, Abort), r, w.rots[r].turn.mintedUid)
  {
    hide IdsKnown, Shape, SpecsOk, JobsOk, RotsOk, PriorsPrivate;
    var u := w.rots[r].turn.mintedUid;
    forall h | h != OfRotation(r) && u.Some? ensures HeldUid(w, h) != u { assert HeldUid(w, OfRotation(r)) == u; }
  }

  lemma ReapDestroys(w: World, r: nat, done: bool)
    requires Inv(w) && CanRotate(w, r, Reap(done))
    ensures Destroyed(w, Rotate(w, r, Reap(done)), r, if done then w.rots[r].turn.priorUid else None)
  {
    hide Inv, Destroyed, RotFacts;
    InvRot(w, r);
    ReapsOwn(w, r, done);
  }

  /** A command that writes no metadata and no key. */
  predicate Quiet(a: RotateStep) { !a.MintKey? && !a.Abort? && !a.Reap? && !a.Persist? }

  lemma QuietFrame(w: World, r: nat, a: RotateStep)
    requires CanRotate(w, r, a) && Quiet(a)
    ensures var w' := Rotate(w, r, a);
            && w' == w.(slots := w'.slots, rots := w'.rots)
            && (forall x | a.Start? || x != Vol(w.rots[r].image) ::
               (x in w'.slots <==> x in w.slots) && (x in w.slots ==> w'.slots[x] == w.slots[x]))
  {}

  lemma QuietAgrees(w: World, r: nat, a: RotateStep, x: Spec)
    requires CanRotate(w, r, a) && Quiet(a)
    ensures DescOf(Rotate(w, r, a), x) == DescOf(w, x) && Stored(Rotate(w, r, a), x) == Stored(w, x)
    ensures a.Start? || Vol(w.rots[r].image) != x ==> Agree(w, Rotate(w, r, a), x)
  {
    hide Rotate, CanRotate;
    QuietFrame(w, r, a);
    assert DescOf(Rotate(w, r, a), x) == DescOf(w, x);
  }

  /** A rotation leaves every spec but its own volume alone. */
  lemma RotateAgrees(w: World, r: nat, a: RotateStep, x: Spec)
    requires Inv(w) && CanRotate(w, r, a) && (a.Start? || Vol(w.rots[r].image) != x)
    ensures Agree(w, Rotate(w, r, a), x)
  {
    hide Agree, Rotate, IdsKnown, Shape, SpecsOk, JobsOk, Exclusive, PriorsPrivate, RotsApart;
    var w' := Rotate(w, r, a);
    match a
    case MintKey => MintKeyAgrees(w, r);
    case Abort => AbortDestroys(w, r); DestroyAgrees(w, w', r, w.rots[r].turn.mintedUid);
    case Reap(done) =>
      ReapDestroys(w, r, done); DestroyAgrees(w, w', r, if done then w.rots[r].turn.priorUid else None);
    case Persist(acked) => PersistReaches(w, r, acked); PersistAgrees(w, w', r);
    case _ => QuietAgrees(w, r, a, x);
  }

  lemma PersistReaches(w: World, r: nat, acked: bool)
    requires Inv(w) && CanRotate(w, r, Persist(acked))
    ensures PersistedStep(w, Rotate(w, r, Persist(acked)), r) && Others(w, Rotate(w, r, Persist(acked)), r)
  {
    assert RotOk(w, r);
    PersistEffect(w, r, acked);
  }

  /** The images that are being rotated, or that `acts` rotates. */
  ghost predicate Rotates(w: World, acts: seq<Action>, v: string) {
    || (exists r | r in w.rots :: w.rots[r].image == v)
    || (exists i | 0 <= i < |acts| :: acts[i].DoRotate? && acts[i].t == Start(v))
  }

  lemma UnwatchedCarries(w: World, r: nat, a: RotateStep, v: string)
    requires Inv(w) && CanRotate(w, r, a) && KeyUnwatched(w, v) && SameBut(w, Rotate(w, r, a))
    ensures KeyUnwatched(Rotate(w, r, a), v)
  {
    hide Agree, Rotate, IdsKnown, Shape, SpecsOk, Exclusive, PriorsPrivate, HoldsKey, HeaderOf;
    var w' := Rotate(w, r, a);
    forall x | x in w'.jobs && Copying(w', x, v) && !w'.jobs[x].from.FromSnapshot?
      ensures HeaderOf(w', x) == {} || HoldsKey(w', x)
    {
      assert Copying(w, x, v);
      if !a.Start? { assert RotOk(w, r) && Vol(w.rots[r].image) != x; }
      RotateAgrees(w, r, a, x);
      HoldingCarries(w, w', x);
    }
  }

  lemma NextImages(w: World, a: Action, q: nat)
    requires a.DoRotate? && q in Next(w, a).rots
    ensures (q in w.rots && w.rots[q].image == Next(w, a).rots[q].image) || a.t == Start(Next(w, a).rots[q].image)
  {
    hide DescOf, Stored, StoreMeta, StoreVault, Without;
    if Enabled(w, a) && !a.t.Start? { RotateImages(w, a.r, a.t, q); }
  }

  lemma RotateImages(w: World, r: nat, t: RotateStep, q: nat)
    requires CanRotate(w, r, t) && !t.Start? && q in Rotate(w, r, t).rots
    ensures q in w.rots && w.rots[q].image == Rotate(w, r, t).rots[q].image
  {
    hide DescOf, Stored, StoreMeta, StoreVault, Without;
    var turns := Rotate(w, r, t).rots;
    if r in turns { assert turns == w.rots[r := turns[r]]; } else { assert turns == w.rots - {r}; }
  }

  /** A rotating command turns the images it works on no wider. */
  lemma RotatesShrinks(w: World, acts: seq<Action>, v: string)
    requires acts != [] && OnlyRotations(acts) && Rotates(Next(w, acts[0]), acts[1..], v)
    ensures Rotates(w, acts, v)
  {
    var w' := Next(w, acts[0]);
    if r :| r in w'.rots && w'.rots[r].image == v {
      NextImages(w, acts[0], r);
      assert (r in w.rots && w.rots[r].image == v) || (acts[0].DoRotate? && acts[0].t == Start(v));
    } else {
      var i :| 0 <= i < |acts[1..]| && acts[1..][i].DoRotate? && acts[1..][i].t == Start(v);
      assert acts[i + 1] == acts[1..][i];
    }
  }

  lemma RotationStep(w: World, acts: seq<Action>, v: string)
    requires acts != [] && OnlyRotations(acts) && CanRotate(w, acts[0].r, acts[0].t)
    requires Inv(w) && forall x :: Rotates(w, acts, x) ==> KeyUnwatched(w, x)
    requires Vol(v) in w.ready && Vol(v) in w.slots && w.slots[Vol(v)] != {}
    ensures var w' := Next(w, acts[0]);
            && Inv(w') && Vol(v) in w'.ready && Vol(v) in w'.slots && w'.slots[Vol(v)] != {}
            && DescOf(w', Vol(v)).kms == DescOf(w, Vol(v)).kms
            && (forall x :: Rotates(w', acts[1..], x) ==> KeyUnwatched(w', x))
  {
    hide Rotate, CanRotate, SpecsOk, Shape, JobsOk, RotsOk, IdsKnown, Exclusive, PriorsPrivate, KeyUnwatched, Rotates;
    var r, a := acts[0].r, acts[0].t;
    RotateFrame(w, r, a, v);
    RotateLeavesSlots(w, r, a, v);
    if a.Persist? && r in w.rots { assert Rotates(w, acts, w.rots[r].image) by { RotatesNow(w, acts, r); } }
    StepKeeps(w, acts[0]);
    forall x | Rotates(Next(w, acts[0]), acts[1..], x) ensures KeyUnwatched(Next(w, acts[0]), x) {
      RotatesShrinks(w, acts, x);
      UnwatchedCarries(w, r, a, x);
    }
  }

  lemma RotatesNow(w: World, acts: seq<Action>, r: nat)
    requires r in w.rots
    ensures Rotates(w, acts, w.rots[r].image)
  {}

  lemma {:induction false} RotationRun(w: World, acts: seq<Action>, v: string)
    requires Inv(w) && OnlyRotations(acts) && forall x :: Rotates(w, acts, x) ==> KeyUnwatched(w, x)
    requires Vol(v) in w.ready && Vol(v) in w.slots && w.slots[Vol(v)] != {}
    ensures var w' := Exec(w, acts);
            && Inv(w') && Vol(v) in w'.ready && Vol(v) in w'.slots && w'.slots[Vol(v)] != {}
            && DescOf(w', Vol(v)).kms == DescOf(w, Vol(v)).kms
    decreases |acts|
  {
    hide Next, Inv, Rotates, KeyUnwatched;
    if acts != [] {
      if CanRotate(w, acts[0].r, acts[0].t) { RotationStep(w, acts, v); } else { RotationSkips(w, acts); }
      RotationRun(Next(w, acts[0]), acts[1..], v);
    }
  }

  lemma RotationSkips(w: World, acts: seq<Action>)
    requires acts != [] && OnlyRotations(acts) && !CanRotate(w, acts[0].r, acts[0].t)
    ensures Next(w, acts[0]) == w && forall x :: Rotates(w, acts[1..], x) ==> Rotates(w, acts, x)
  {
    forall x | Rotates(w, acts[1..], x) ensures Rotates(w, acts, x) { RotatesShrinks(w, acts, x); }
  }

  /** From any reachable state, under any interleaving of any number of rotations, each free to stop
      at any command or to have its store write reported failed although it took effect, the
      passphrase the provider resolves has a live keyslot, and a recorded KMIP UID is a live object.
      Nothing is asked of `acts` but that they rotate, and of the state that no unfinished copy of a
      rotated image waits for that image's key. */
  lemma RotationSafety(past: seq<Action>, acts: seq<Action>, v: string)
    requires AllAdmitted(EMPTY, past) && OnlyRotations(acts)
    requires var w := Exec(EMPTY, past);
             && (forall x :: Rotates(w, acts, x) ==> KeyUnwatched(w, x))
             && Vol(v) in w.ready && DescOf(w, Vol(v)).kms != NoKms
             && Vol(v) in w.slots && w.slots[Vol(v)] != {}
    ensures var w' := Exec(Exec(EMPTY, past), acts);
            && Vol(v) in w'.slots && Stored(w', Vol(v)).Some? && Stored(w', Vol(v)).value in w'.slots[Vol(v)]
            && (DescOf(w', Vol(v)).kms == Kmip ==>
               DescOf(w', Vol(v)).uid.Some? && DescOf(w', Vol(v)).uid.value in w'.objects)
  {
    hide Rotates, KeyUnwatched, Exec, AllAdmitted;
    EmptyInv();
    RunKeeps(EMPTY, past);
    RotationRun(Exec(EMPTY, past), acts, v);
    assert SpecOk(Exec(Exec(EMPTY, past), acts), Vol(v));
  }

  // ---- a key is its own ----------------------------------------------------

  /** The one command that may replace a finished spec's key. */
  predicate Replaces(w: World, a: Action, sp: Spec) {
    a.DoRotate? && a.t.Persist? && a.r in w.rots && Vol(w.rots[a.r].image) == sp
  }

  lemma InheritSpares(w: World, x: Spec, i: InheritStep, sp: Spec)
    requires Inv(w) && CanInherit(w, x, i) && Admitted(w, DoInherit(x, i)) && sp in w.ready && Stored(w, sp).Some?
    ensures Stored(Inherit(w, x, i), sp) == Stored(w, sp)
  {
    var w' := Inherit(w, x, i);
    InvJob(w, x);
    if i == Finish {
      FinishAgrees(w, x);
      assert sp != x ==> Agree(w, w', sp);
    } else {
      if i == CloneKey { CloneKeyIsLocal(w, x); } else { StepIsLocal(w, x, i); }
      if x != sp {
        LocalAgrees(w, w', x);
        assert Agree(w, w', sp);
      } else if i == CloneKey {
        RedoCloneKeySteady(w, x);
      } else {
        RedoSteady(w, w', x, i);
      }
    }
  }

  lemma ReapSpares(w: World, r: nat, u: Option<nat>, w': World, sp: Spec)
    requires Inv(w) && Destroyed(w, w', r, u) && sp in w.ready
    ensures Stored(w', sp) == Stored(w, sp)
  {
    DestroyAgrees(w, w', r, u);
    assert Agree(w, w', sp);
  }

  lemma RotateSpares(w: World, r: nat, t: RotateStep, sp: Spec)
    requires Inv(w) && CanRotate(w, r, t) && sp in w.ready && !Replaces(w, DoRotate(r, t), sp)
    ensures Stored(Rotate(w, r, t), sp) == Stored(w, sp)
  {
    hide Rotate, IdsKnown, Shape, SpecsOk, JobsOk, RotsOk, Exclusive, PriorsPrivate;
    match t
    case MintKey => MintKeyAgrees(w, r); assert Agree(w, Rotate(w, r, t), sp);
    case Abort => AbortDestroys(w, r); ReapSpares(w, r, w.rots[r].turn.mintedUid, Rotate(w, r, t), sp);
    case Reap(done) =>
      ReapDestroys(w, r, done); ReapSpares(w, r, if done then w.rots[r].turn.priorUid else None, Rotate(w, r, t), sp);
    case Persist(_) => RotateAgrees(w, r, t, sp);
    case _ => QuietAgrees(w, r, t, sp);
  }

  lemma CopySpares(w: World, w': World, v: string, x: string, sp: Spec)
    requires Shape(w) && JobsOk(w) && Vol(x) !in w.slots && ImageCopied(w, w', v, x) && sp in w.ready
    ensures Stored(w', sp) == Stored(w, sp)
  {
    if sp.image == x { AbsentImage(w, x, sp); }
    CopiedDesc(w, w', v, x);
  }

  lemma StoreSkips(w: World, t: nat, sp: Spec)
    requires t in w.stages && Stageable(w, t) && (w.stages[t].kms == NoKms || !NoKey(w, w.stages[t].image))
    ensures w.stages[t].kms != Kmip && Stored(StoreKeyStep(w, t), sp) == Stored(w, sp)
  {
    assert StoreKeyStep(w, t) == w.(stages := w.stages - {t});
    assert DescOf(StoreKeyStep(w, t), sp) == DescOf(w, sp);
  }

  lemma StageSpares(w: World, t: nat, sp: Spec)
    requires Inv(w) && t in w.stages && Stageable(w, t) && sp in w.ready && Stored(w, sp).Some?
    ensures Stored(StoreKeyStep(w, t), sp) == Stored(w, sp)
    ensures w.stages[t].kms == Kmip ==> Stored(StoreLostStep(w, t), sp) == Stored(w, sp)
  {
    hide Exclusive, PriorsPrivate, RotsOk, JobsOk, StoreKeyStep, StoreLostStep;
    var v := w.stages[t].image;
    ReadyVol(w, v);
    if w.stages[t].kms == NoKms || !NoKey(w, v) {
      StoreSkips(w, t, sp);
    } else {
      StoreKeyEffect(w, t, v);
      assert sp != Vol(v) ==> Agree(w, StoreKeyStep(w, t), sp);
      StoreLostEffect(w, t, v);
      assert sp != Vol(v) ==> Agree(w, StoreLostStep(w, t), sp);
    }
  }

  /** A step that writes no descriptor, no Vault entry and no old object changes no stored key. */
  lemma StoresSpare(w: World, w': World, sp: Spec)
    requires w'.meta == w.meta && w'.vault == w.vault && KnownUid(w, DescOf(w, sp).uid)
    requires forall u | u < w.next ::
             (u in w'.objects <==> u in w.objects) && (u in w.objects ==> w'.objects[u] == w.objects[u])
    ensures Stored(w', sp) == Stored(w, sp)
  {
    assert DescOf(w', sp) == DescOf(w, sp);
  }

  lemma PlainSpares(w: World, p: ProvisionStep, sp: Spec)
    requires IdsKnown(w) && CanProvision(w, p) && !p.CreateImage? && !p.RecordKms? && !p.StoreKey?
    requires !p.StoreLost? && !p.CloneImage? && !p.RestoreImage?
    ensures Stored(Provision(w, p), sp) == Stored(w, sp)
  {
    hide DescOf, Stored;
    assert KnownUid(w, DescOf(w, sp).uid);
    StoresSpare(w, Provision(w, p), sp);
  }

  lemma CreateSpares(w: World, p: ProvisionStep, sp: Spec)
    requires Inv(w) && CanProvision(w, p) && sp in w.ready && (p.CreateImage? || p.RecordKms?)
    ensures Stored(Provision(w, p), sp) == Stored(w, sp)
  {
    hide Exclusive, PriorsPrivate, RotsOk, IdsKnown, SpecsOk, Stored, DescOf;
    match p
    case CreateImage(v, kms) =>
      CreateImageReads(w, v, kms);
      CreateImageEffect(w, v, kms);
      assert sp != Vol(v) && Agree(w, CreateImageStep(w, v, kms), sp);
    case RecordKms(v) =>
      assert JobOk(w, Vol(v)) && sp != Vol(v);
      RecordKmsEffect(w, v);
      assert Agree(w, RecordKmsStep(w, v), sp);
  }

  lemma ProvisionSpares(w: World, p: ProvisionStep, sp: Spec)
    requires Inv(w) && CanProvision(w, p) && Admitted(w, DoProvision(p)) && sp in w.ready && Stored(w, sp).Some?
    ensures Stored(Provision(w, p), sp) == Stored(w, sp)
  {
    hide Exclusive, PriorsPrivate, RotsOk, IdsKnown, SpecsOk, Stored, DescOf, Shape;
    match p
    case CreateImage(_, _) => CreateSpares(w, p, sp);
    case RecordKms(_) => CreateSpares(w, p, sp);
    case StoreKey(t) => StageSpares(w, t, sp);
    case StoreLost(t) => StageSpares(w, t, sp);
    case CloneImage(x) =>
      assert JobOk(w, Vol(x)); CopySpares(w, CloneImageStep(w, x), w.jobs[Vol(x)].from.image, x, sp);
    case RestoreImage(v, s, x) => RestoreApart(w, v, s, x); CopySpares(w, RestoreImageStep(w, v, s, x), v, x, sp);
    case _ => PlainSpares(w, p, sp);
  }

  lemma RestoreApart(w: World, v: string, s: string, x: string)
    requires Shape(w) && CanProvision(w, RestoreImage(v, s, x))
    ensures v != x
  {}

  lemma DropSpares(w: World, w': World, x: Spec, sp: Spec)
    requires Exclusive(w) && KeyDropped(w, w', x) && x != sp && sp in w.ready
    ensures Stored(w', sp) == Stored(w, sp)
  {
    DropAgrees(w, w', x);
    assert Agree(w, w', sp);
  }

  lemma WipeSpares(w: World, x: Spec, sp: Spec)
    requires Shape(w) && CanDelete(w, WipeMeta(x)) && sp in w.ready
    ensures Stored(WipeMetaStep(w, x), sp) == Stored(w, sp)
  {
    WipeShape(w, x);
    RewriteEffect(w, WipeMetaStep(w, x), x, Wiped(DescOf(w, x), w.dying[x]));
    assert Agree(w, WipeMetaStep(w, x), sp);
  }

  lemma DeleteSpares(w: World, d: DeleteStep, sp: Spec)
    requires Shape(w) && Exclusive(w) && CanDelete(w, d) && sp in w.ready && sp in Delete(w, d).ready
    ensures Stored(Delete(w, d), sp) == Stored(w, sp)
  {
    match d
    case DeleteSnapshot(v, s) => SnapDropEffect(w, Snap(v, s));
    case DeleteVolume(v) => VolDropEffect(w, v);
    case DropKey(x) => DropIsKeyDropped(w, x); DropSpares(w, DropKeyStep(w, x), x, sp);
    case WipeMeta(x) => WipeSpares(w, x, sp);
    case RemoveImage(v) =>
      RemoveShape(w, v); RemoveEffect(w, v); assert sp !in OfImage(v); assert Agree(w, Delete(w, d), sp);
    case RestartDelete(x) => DropSpares(w, Delete(w, d), x, sp);
  }

  lemma StepSpares(w: World, a: Action, sp: Spec)
    requires Inv(w) && Admitted(w, a) && !Replaces(w, a, sp)
    requires sp in w.ready && sp in Next(w, a).ready && Stored(w, sp).Some?
    ensures Stored(Next(w, a), sp) == Stored(w, sp)
  {
    if Enabled(w, a) {
      match a
      case DoProvision(p) => ProvisionSpares(w, p, sp);
      case DoInherit(x, i) => InheritSpares(w, x, i, sp);
      case DoRotate(r, t) => RotateSpares(w, r, t, sp);
      case DoDelete(d) => DeleteSpares(w, d, sp);
    }
  }

  /** In every reachable state, no command replaces or destroys the key of a finished spec but the
      rotation of that very volume: deleting or rotating one never takes away what another
      resolves to. */
  lemma KeysAreOwn(past: seq<Action>, a: Action, sp: Spec)
    requires AllAdmitted(EMPTY, past)
    requires var w := Exec(EMPTY, past);
             && Admitted(w, a) && !Replaces(w, a, sp)
             && sp in w.ready && sp in Next(w, a).ready && Stored(w, sp).Some?
    ensures var w := Exec(EMPTY, past); Stored(Next(w, a), sp) == Stored(w, sp)
  {
    hide Next, Admitted;
    EmptyInv();
    RunKeeps(EMPTY, past);
    StepSpares(Exec(EMPTY, past), a, sp);
  }

  /** Two finished specs never record the same KMIP object. */
  lemma KmipOwnership(acts: seq<Action>, a: Spec, b: Spec)
    requires AllAdmitted(EMPTY, acts) && a != b
    requires a in Exec(EMPTY, acts).ready && b in Exec(EMPTY, acts).ready
    ensures var w := Exec(EMPTY, acts); DescOf(w, a).uid.Some? ==> DescOf(w, a).uid != DescOf(w, b).uid
  {
    hide SpecsOk, JobsOk, RotsOk, IdsKnown, PriorsPrivate, Exec, AllAdmitted;
    EmptyInv();
    RunKeeps(EMPTY, acts);
    var w := Exec(EMPTY, acts);
    assert HeldUid(w, OfSpec(a)).Some? ==> HeldUid(w, OfSpec(a)) != HeldUid(w, OfSpec(b));
  }

  // ---- captured keys are stable --------------------------------------------

  ghost predicate StaysReady(w: World, acts: seq<Action>, sp: Spec)
    decreases |acts|
  {
    sp in w.ready && (acts == [] || StaysReady(Next(w, acts[0]), acts[1..], sp))
  }

  lemma {:induction false} StaysCaptured(w: World, acts: seq<Action>, v: string, s: string)
    requires Inv(w) && AllAdmitted(w, acts) && StaysReady(w, acts, Snap(v, s)) && Stored(w, Snap(v, s)).Some?
    ensures Stored(Exec(w, acts), Snap(v, s)) == Stored(w, Snap(v, s))
    decreases |acts|
  {
    if acts != [] {
      assert Snap(v, s) in Next(w, acts[0]).ready;
      StepKeeps(w, acts[0]);
      StepSpares(w, acts[0], Snap(v, s));
      StaysCaptured(Next(w, acts[0]), acts[1..], v, s);
    }
  }

  /** From every reachable state, while a snapshot lives the key it captured never changes: not by
      rotations of its source, and not by running its capture again any number of times. */
  lemma CapturedKeyStable(past: seq<Action>, acts: seq<Action>, v: string, s: string)
    requires AllAdmitted(EMPTY, past)
    requires var w := Exec(EMPTY, past);
             AllAdmitted(w, acts) && StaysReady(w, acts, Snap(v, s)) && Stored(w, Snap(v, s)).Some?
    ensures var w := Exec(EMPTY, past); Stored(Exec(w, acts), Snap(v, s)) == Stored(w, Snap(v, s))
  {
    EmptyInv();
    RunKeeps(EMPTY, past);
    StaysCaptured(Exec(EMPTY, past), acts, v, s);
  }

  // ---- derived keys --------------------------------------------------------

  /** In every tree of clones and restores, a derived-key volume resolves the identity of the
      root it descends from, from its context and from its metadata alike. */
  lemma DerivedFollowsRoot(acts: seq<Action>, v: string)
    requires AllAdmitted(EMPTY, acts) && Vol(v) in Exec(EMPTY, acts).ready
    requires DescOf(Exec(EMPTY, acts), Vol(v)).kms == NoKms
    ensures var w := Exec(EMPTY, acts);
            && StagePass(w, v) == Some(Derived(RootOf(w, Vol(v))))
            && ResizePass(w, v) == Some(Derived(RootOf(w, Vol(v))))
            && Vol(v) in w.slots && (w.slots[Vol(v)] != {} ==> Derived(RootOf(w, Vol(v))) in w.slots[Vol(v)])
  {
    EmptyInv();
    RunKeeps(EMPTY, acts);
    assert SpecOk(Exec(EMPTY, acts), Vol(v));
  }

  // ---- what a crash leaks --------------------------------------------------

  /** Some spec or operation can still name the object. */
  ghost predicate Tracked(w: World, u: nat) {
    || (exists h :: HeldUid(w, h) == Some(u))
    || (exists r :: r in w.rots && w.rots[r].turn.Persisted? && w.rots[r].turn.priorUid == Some(u))
  }

  ghost function Orphans(w: World): set<nat> { set u | u in w.objects && !Tracked(w, u) }

  lemma AtMostOne(s: set<nat>, x: nat)
    requires forall y | y in s :: y == x
    ensures |s| <= 1
  {
    assert s <= {x};
    if x in s { assert s == {x}; } else { assert s == {}; }
  }

  lemma JobCrashLoses(w: World, sp: Spec, u: nat)
    requires CanInherit(w, sp, Crash) && Tracked(w, u) && HeldUid(w, OfJob(sp)) != Some(u)
    ensures Tracked(Inherit(w, sp, Crash), u)
  {
    var w' := Inherit(w, sp, Crash);
    if h :| HeldUid(w, h) == Some(u) {
      assert !h.OfRotation? ==> DescOf(w', h.sp) == DescOf(w, h.sp);
      assert HeldUid(w', h) == Some(u);
    }
  }

  lemma RotationCrashLoses(w: World, r: nat, u: nat)
    requires CanRotate(w, r, Die) && Tracked(w, u) && HeldUid(w, OfRotation(r)) != Some(u)
    requires w.rots[r].turn.Persisted? ==> w.rots[r].turn.priorUid != Some(u)
    ensures Tracked(Rotate(w, r, Die), u)
  {
    var w' := Rotate(w, r, Die);
    if h :| HeldUid(w, h) == Some(u) {
      assert !h.OfRotation? ==> DescOf(w', h.sp) == DescOf(w, h.sp);
      assert HeldUid(w', h) == Some(u);
    } else {
      var q :| q in w.rots && w.rots[q].turn.Persisted? && w.rots[q].turn.priorUid == Some(u);
      assert q in w'.rots && w'.rots[q] == w.rots[q];
    }
  }

  /** A crash in the middle of cloneKey or rotateKey, at any command, leaks at most one object. */
  lemma CrashLeaksAtMostOne(w: World, a: Action)
    requires Enabled(w, a)
    requires (a.DoInherit? && a.i == Crash) || (a.DoRotate? && a.t == Die)
    ensures |Orphans(Next(w, a)) - Orphans(w)| <= 1
  {
    var w' := Next(w, a);
    var lost := if a.DoInherit? then HeldUid(w, OfJob(a.sp))
                else if w.rots[a.r].turn.Persisted? then w.rots[a.r].turn.priorUid else HeldUid(w, OfRotation(a.r));
    var x := if lost.Some? then lost.value else 0;
    forall u | u in Orphans(w') - Orphans(w) ensures u == x {
      if Some(u) != lost {
        if a.DoInherit? { JobCrashLoses(w, a.sp, u); } else { RotationCrashLoses(w, a.r, u); }
      }
    }
    AtMostOne(Orphans(w') - Orphans(w), x);
  }

  // ---- what a failed write leaks ---------------------------------------------

  /** Whoever can name the object still can: its holder, or a rotation that is to reap it. */
  lemma StaysTracked(w: World, w': World, u: nat)
    requires Tracked(w, u)
    requires forall h | HeldUid(w, h) == Some(u) :: exists g :: HeldUid(w', g) == Some(u)
    requires forall r | r in w.rots && w.rots[r].turn.Persisted? && w.rots[r].turn.priorUid == Some(u) ::
               r in w'.rots && w'.rots[r] == w.rots[r]
    ensures Tracked(w', u)
  {
    if h :| HeldUid(w, h) == Some(u) {
    } else {
      var r :| r in w.rots && w.rots[r].turn.Persisted? && w.rots[r].turn.priorUid == Some(u);
      assert r in w'.rots;
    }
  }

  lemma LostPersistTracks(w: World, r: nat, u: nat)
    requires Inv(w) && CanRotate(w, r, Persist(false)) && Tracked(w, u)
    requires DescOf(w, Vol(w.rots[r].image)).uid != Some(u)
    ensures Tracked(Rotate(w, r, Persist(false)), u)
  {
    var w', v := Rotate(w, r, Persist(false)), Vol(w.rots[r].image);
    assert RotOk(w, r);
    PersistEffect(w, r, false);
    PersistAgrees(w, w', r);
    hide Inv, PersistedStep, AgreeBut;
    forall h | HeldUid(w, h) == Some(u) ensures exists g :: HeldUid(w', g) == Some(u) {
      assert h != OfSpec(v);
      if h == OfRotation(r) { LostPersistMoves(w, r, u); } else { assert HeldUid(w', h) == Some(u); }
    }
    StaysTracked(w, w', u);
  }

  /** The minted object is the volume's now. */
  lemma LostPersistMoves(w: World, r: nat, u: nat)
    requires CanRotate(w, r, Persist(false)) && RotOk(w, r) && HeldUid(w, OfRotation(r)) == Some(u)
    requires PersistedStep(w, Rotate(w, r, Persist(false)), r)
    ensures HeldUid(Rotate(w, r, Persist(false)), OfSpec(Vol(w.rots[r].image))) == Some(u)
  {}

  lemma LostReapTracks(w: World, r: nat, u: nat)
    requires CanRotate(w, r, Reap(false)) && Tracked(w, u) && w.rots[r].turn.priorUid != Some(u)
    ensures Tracked(Rotate(w, r, Reap(false)), u)
  {
    var w' := Rotate(w, r, Reap(false));
    assert forall x :: DescOf(w', x) == DescOf(w, x);
    hide DescOf;
    forall h | HeldUid(w, h) == Some(u) ensures HeldUid(w', h) == Some(u) {}
    StaysTracked(w, w', u);
  }

  lemma LostStoreTracks(w: World, t: nat, u: nat)
    requires CanProvision(w, StoreLost(t)) && Tracked(w, u) && DescOf(w, Vol(w.stages[t].image)).uid != Some(u)
    ensures Tracked(StoreLostStep(w, t), u)
  {
    var w', v := StoreLostStep(w, t), Vol(w.stages[t].image);
    var d := DescOf(w, v).(uid := Some(w.next));
    forall x ensures DescOf(w', x) == if x == v then d else DescOf(w, x) { PutReads(w, w', v, d, x); }
    hide DescOf;
    forall h | HeldUid(w, h) == Some(u) ensures HeldUid(w', h) == Some(u) {}
    StaysTracked(w, w', u);
  }

  /** The object a failed write may leave behind: the one its volume recorded, or was about to reap. */
  ghost function Superseded(w: World, a: Action): Option<nat>
    requires Enabled(w, a) && FailedWrite(a)
  {
    if a.DoProvision? then DescOf(w, Vol(w.stages[a.p.t].image)).uid
    else if a.t.Persist? then DescOf(w, Vol(w.rots[a.r].image)).uid
    else w.rots[a.r].turn.priorUid
  }

  /** A UID write that took effect and was reported failed, or an object that was not destroyed. */
  predicate FailedWrite(a: Action) {
    (a.DoRotate? && (a.t == Persist(false) || a.t == Reap(false))) || (a.DoProvision? && a.p.StoreLost?)
  }

  lemma FailedWriteTracks(w: World, a: Action, u: nat)
    requires Inv(w) && Enabled(w, a) && FailedWrite(a) && Tracked(w, u) && Superseded(w, a) != Some(u)
    ensures Tracked(Next(w, a), u)
  {
    hide Inv, Tracked, DescOf;
    if a.DoProvision? {
      LostStoreTracks(w, a.p.t, u);
    } else if a.t.Persist? {
      LostPersistTracks(w, a.r, u);
    } else {
      LostReapTracks(w, a.r, u);
    }
  }

  lemma FailedWriteSpares(w: World, a: Action)
    requires Enabled(w, a) && FailedWrite(a)
    ensures Next(w, a).objects == w.objects
  {
    hide Rotate, CanRotate, CanProvision, StoreLostStep;
    if a.DoProvision? {
      LostStoreSpares(w, a.p.t);
    } else {
      LostTurnSpares(w, a.r, a.t);
    }
  }

  lemma LostStoreSpares(w: World, t: nat)
    requires CanProvision(w, StoreLost(t))
    ensures StoreLostStep(w, t).objects == w.objects
  {}

  lemma LostTurnSpares(w: World, r: nat, t: RotateStep)
    requires CanRotate(w, r, t) && (t == Persist(false) || t == Reap(false))
    ensures Rotate(w, r, t).objects == w.objects
  {}

  /** In every reachable state, a rotation's UID write that took effect and was reported failed, a
      superseded object that could not be destroyed, and a first stage's lost UID write each leave
      at most one object that nothing can name: the one they superseded. */
  lemma FailedWriteLeaksAtMostOne(past: seq<Action>, a: Action)
    requires AllAdmitted(EMPTY, past) && Enabled(Exec(EMPTY, past), a) && FailedWrite(a)
    ensures var w := Exec(EMPTY, past);
            && |Orphans(Next(w, a)) - Orphans(w)| <= 1
            && forall u | u in Orphans(Next(w, a)) - Orphans(w) :: Superseded(w, a) == Some(u)
  {
    hide Exec, AllAdmitted, Inv, Tracked, DescOf, Next, Enabled, Superseded, FailedWrite;
    EmptyInv();
    RunKeeps(EMPTY, past);
    var w := Exec(EMPTY, past);
    var w', lost := Next(w, a), Superseded(w, a);
    FailedWriteSpares(w, a);
    forall u | u in Orphans(w') - Orphans(w) ensures lost == Some(u) {
      if lost != Some(u) { FailedWriteTracks(w, a, u); }
    }
    AtMostOne(Orphans(w') - Orphans(w), if lost.Some? then lost.value else 0);
  }
}
