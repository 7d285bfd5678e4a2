/** The invariant of the key plane: what every admitted command keeps, in every interleaving. */
module KeyInvariant {
  import opened Options
  import opened KeyPlane

  // ---- ids -----------------------------------------------------------------

  ghost predicate Known(w: World, p: Pass) { p.Random? ==> p.n < w.next }

  ghost predicate KnownOpt(w: World, p: Option<Pass>) { p.Some? ==> Known(w, p.value) }

  ghost predicate KnownUid(w: World, u: Option<nat>) { u.Some? ==> u.value < w.next }

  /** Every random key and object id in use was drawn before `next`. */
  ghost predicate IdsKnown(w: World) {
    && (forall sp, p | sp in w.slots && p in w.slots[sp] :: Known(w, p))
    && (forall sp | sp in w.jobs :: JobIdsKnown(w, w.jobs[sp]))
    && (forall sp :: KnownOpt(w, DescOf(w, sp).dek) && KnownUid(w, DescOf(w, sp).uid))
    && (forall sp | sp in w.vault :: Known(w, w.vault[sp]))
    && (forall u | u in w.objects :: u < w.next && Known(w, w.objects[u]))
    && (forall r | r in w.rots :: TurnIdsKnown(w, w.rots[r].turn))
    && (forall t | t in w.stages :: Known(w, w.stages[t].key))
  }

  ghost predicate JobIdsKnown(w: World, j: Job) {
    j.Copy? ==>
      && (j.frozen.Some? ==> forall p | p in j.frozen.value :: Known(w, p))
      && (j.phase.Registered? || j.phase.UidSet? ==> j.phase.uid < w.next)
  }

  ghost predicate TurnIdsKnown(w: World, t: Turn) {
    && (t.UidRead? ==> t.seen < w.next)
    && KnownOpt(w, PriorOf(t)) && KnownOpt(w, MintedOf(t)) && KnownUid(w, PriorUidOf(t)) && KnownUid(w, MintedUidOf(t))
  }

  ghost function PriorOf(t: Turn): Option<Pass> {
    if t.Started? || t.UidRead? then None else Some(t.prior)
  }

  ghost function PriorUidOf(t: Turn): Option<nat> {
    if t.HaveUid? || t.Minted? || t.Applied? || t.Persisted? then t.priorUid else None
  }

  ghost function MintedOf(t: Turn): Option<Pass> {
    if t.Minted? || t.Applied? then Some(t.minted) else None
  }

  ghost function MintedUidOf(t: Turn): Option<nat> {
    if t.Minted? || t.Applied? then t.mintedUid else None
  }

  // ---- shape ---------------------------------------------------------------

  ghost predicate Shape(w: World) {
    && (forall sp | sp in w.ready :: sp in w.slots && sp !in w.dying)
    && (forall sp | sp in w.jobs :: sp !in w.dying)
    && (forall sp | sp in w.slots :: sp in w.ready || sp in w.jobs || (sp.Vol? && sp in w.dying))
    && (forall sp | sp in w.slots :: sp.Snap? ==> Vol(sp.image) in w.ready)
    && (forall sp | sp in w.dying :: Vol(sp.image) in w.slots && (sp.Snap? ==> sp !in w.slots))
    && (forall v :: v in w.meta <==> Vol(v) in w.slots)
  }

  // ---- finished specs ------------------------------------------------------

  /** The key a spec must open with. */
  ghost function Key(w: World, sp: Spec): Option<Pass> {
    if DescOf(w, sp).kms == NoKms then Some(Derived(RootOf(w, sp))) else Stored(w, sp)
  }

  ghost predicate OpensWith(k: Option<Pass>, header: set<Pass>) { header != {} ==> k.Some? && k.value in header }

  ghost predicate SpecOk(w: World, sp: Spec)
    requires sp in w.slots
  {
    && OpensWith(Key(w, sp), w.slots[sp])
    && sp in w.root && (DescOf(w, sp).kms != Kmip ==> DescOf(w, sp).uid.None?)
    && (if sp.Vol? then VolOk(w, sp) else SnapOk(w, sp))
  }

  ghost predicate VolOk(w: World, sp: Spec)
    requires sp.Vol?
  {
    var d := DescOf(w, sp);
    && (d.kms == NoKms ==> RecordedKeyId(w, sp) == RootOf(w, sp) && ContextKeyId(w, sp.image) == RootOf(w, sp))
    && (d.owner.None? || (d.owner == Some(sp) && d.kms == Kmip))
    && (d.kms == Kmip && d.keyId.Some? ==> d.uid.Some? && d.owner == Some(sp))
  }

  ghost predicate SnapOk(w: World, sp: Spec)
    requires sp.Snap?
  {
    var d, v := DescOf(w, sp), Vol(sp.image);
    && v in w.ready
    && d.kms == DescOf(w, v).kms
    && (d.kms == NoKms ==> RootOf(w, sp) == RootOf(w, v))
    && (d.kms == Kmip ==> d.uid.Some? && d.owner == Some(sp))
  }

  // ---- creates in flight ---------------------------------------------------

  ghost function SourceOf(from: Source): Spec {
    match from
    case Capture(v) => Vol(v)
    case FromVolume(v) => Vol(v)
    case FromSnapshot(v, s) => Snap(v, s)
  }

  ghost predicate JobOk(w: World, sp: Spec)
    requires sp in w.jobs
  {
    var j := w.jobs[sp];
    if j.Fresh? then sp.Vol? && sp !in w.ready && sp in w.slots && w.slots[sp] == {} && DescOf(w, sp) == BLANK
    else if sp in w.ready then RedoOk(w, sp, j)
    else
      && (sp.Snap? <==> j.from.Capture?)
      && (sp.Snap? ==> j.from.image == sp.image && j.srcKms != NoKms)
      && (Vol(j.from.image) in w.jobs ==> Vol(j.from.image) in w.ready)
      && (SourceOf(j.from) in w.jobs ==> SourceOf(j.from) in w.ready)
      && SourceOk(w, sp, j)
      && (if j.frozen.Some? then sp !in w.slots && j.from.FromVolume? && j.phase.Idle? && FrozenOk(w, sp, j)
          else sp in w.slots && OwnOk(w, sp, j) && PhaseOk(w, sp, j))
  }

  predicate HasSource(ph: Phase) { ph.Begun? || ph.KeySet? || ph.KmsSet? || ph.DekSet? }

  /** The create of a finished snapshot or copied volume, run again. */
  ghost predicate RedoOk(w: World, sp: Spec, j: Job)
    requires j.Copy?
  {
    && Replayable(w, sp, j.from) && j.frozen.None? && !j.phase.Registered? && !j.phase.UidSet?
    && (sp.Snap? && HasSource(j.phase) ==> j.phase.src == Vol(sp.image))
    && (j.phase.KmsSet? || j.phase.DekSet? ==> j.phase.kms == DescOf(w, sp).kms)
    && (DescOf(w, sp).kms == NoKms && !j.phase.Idle? && !j.phase.Begun? ==> j.phase.key == RootOf(w, sp))
    && j.root == RootOf(w, sp)
  }

  /** The source is finished and has the key the copied header opens with. */
  ghost predicate SourceServes(w: World, sp: Spec, j: Job)
    requires j.Copy? && sp in w.jobs
  {
    var src := SourceOf(j.from);
    && src in w.ready && src != sp
    && DescOf(w, src).kms == j.srcKms
    && OpensWith(Stored(w, src), HeaderOf(w, sp))
    && (j.srcKms == Kmip ==> DescOf(w, src).uid.Some?)
  }

  /** A copy holds its own key, or its source still has it. What is left of a deleted snapshot
      does not mislead the copy. */
  ghost predicate SourceOk(w: World, sp: Spec, j: Job)
    requires j.Copy? && sp in w.jobs
  {
    var src, v, h := SourceOf(j.from), Vol(j.from.image), HeaderOf(w, sp);
    if j.srcKms == NoKms then
      && (h != {} ==> Derived(j.root) in h)
      && DescOf(w, v).kms == NoKms
      && (j.from.FromSnapshot? ==> DescOf(w, src).kms == NoKms)
    else
      && (HoldsKey(w, sp) || SourceServes(w, sp, j))
      && (j.from.Capture? ==> v in w.ready && DescOf(w, v).kms == j.srcKms)
      && (j.from.FromSnapshot? ==>
            && (v in w.ready ==> DescOf(w, v).kms == j.srcKms) && (src in w.ready ==> SourceServes(w, sp, j))
            && (DescOf(w, src).kms == NoKms || DescOf(w, src).kms == j.srcKms)
            && (j.srcKms == SecretsMetadata ==> OpensIfSome(DescOf(w, src).dek, h)))
  }

  ghost predicate OpensIfSome(k: Option<Pass>, header: set<Pass>) { k.Some? && header != {} ==> k.value in header }

  ghost predicate FrozenOk(w: World, sp: Spec, j: Job)
    requires j.Copy?
  {
    var v := Vol(j.from.image);
    v in w.ready && (j.srcKms == NoKms ==> RootOf(w, v) == j.root) && sp != v
  }

  /** What the copy's own descriptor may hold before the copy is finished. */
  ghost predicate OwnOk(w: World, sp: Spec, j: Job)
    requires j.Copy? && sp in w.jobs
  {
    var d, h := DescOf(w, sp), HeaderOf(w, sp);
    && (d.kms == j.srcKms || (d.kms == NoKms && sp.Snap?))
    && (j.srcKms == NoKms ==> d.keyId.None? || d.keyId == Some(j.root))
    && (j.srcKms == NoKms && d.keyId.None? ==> j.root == Vol(j.from.image) && DescOf(w, j.root).keyId.None?)
    && (j.srcKms == SecretsMetadata && !j.from.FromSnapshot? ==> OpensIfSome(d.dek, h))
    && (d.owner.Some? ==> j.srcKms == Kmip && (d.owner == Some(sp) || d.owner == Some(Vol(j.from.image))))
    && (d.owner == Some(sp) ==> d.kms == Kmip && d.uid.Some? && OpensWith(Stored(w, sp), h))
    && sp != Vol(j.from.image) && (j.srcKms != Kmip ==> d.uid.None?)
  }

  ghost predicate PhaseOk(w: World, sp: Spec, j: Job)
    requires j.Copy? && sp in w.jobs
  {
    var d, ph, h, v := DescOf(w, sp), j.phase, HeaderOf(w, sp), Vol(j.from.image);
    && (HasSource(ph) ==>
          if j.srcKms == NoKms then ph.src == v else ph.src == SourceOf(j.from) || (HoldsKey(w, sp) && ph.src == v))
    && (j.srcKms == NoKms && !ph.Idle? && !ph.Begun? ==> ph.key == j.root && d.keyId == Some(j.root))
    && (ph.KmsSet? || ph.DekSet? ==> ph.kms == j.srcKms)
    && (!ph.Idle? && !ph.Begun? && !ph.KeySet? ==> d.kms == j.srcKms)
    && (ph.DekSet? && j.srcKms == SecretsMetadata ==> OpensWith(d.dek, h))
    && (ph.Registered? || ph.UidSet? ==>
          j.srcKms == Kmip && d.owner != Some(sp) && ph.uid in w.objects && OpensWith(Some(w.objects[ph.uid]), h))
    && (ph.UidSet? ==> d.uid == Some(ph.uid))
    && (ph.Copied? && j.srcKms != NoKms ==> OpensWith(Stored(w, sp), h))
    && (ph.Copied? && j.srcKms == Kmip ==> d.uid.Some? && d.owner == Some(sp))
  }

  // ---- rotations in flight -------------------------------------------------

  ghost predicate RotOk(w: World, r: nat)
    requires r in w.rots
  {
    var v, t := Vol(w.rots[r].image), w.rots[r].turn;
    && v in w.ready && v in w.slots && w.slots[v] != {} && DescOf(w, v).kms != NoKms
    && (MintedOf(t).Some? ==> Stored(w, v) != MintedOf(t))
    && (t.Minted? || t.Applied? ==>
          if DescOf(w, v).kms == Kmip then t.mintedUid.Some? && t.mintedUid.value in w.objects &&
              w.objects[t.mintedUid.value] == t.minted
          else t.mintedUid.None?)
    && (t.Applied? ==> t.minted in w.slots[v])
    && (t.Persisted? || t.Reaped? ==> Stored(w, v) != Some(t.prior))
    && (t.UidRead? || t.HaveUid? || PriorUidOf(t).Some? ==> DescOf(w, v).kms == Kmip)
    && (t.Persisted? && t.priorUid.Some? ==> DescOf(w, v).uid != t.priorUid)
  }

  /** The passphrase behind a UID a rotation has read but not yet fetched. */
  ghost function SeenPass(w: World, t: Turn): Option<Pass> {
    if t.UidRead? && t.seen in w.objects then Some(w.objects[t.seen]) else None
  }

  /** A key being introduced by one rotation is neither another's nor one to be retired. */
  ghost predicate RotsApart(w: World, r: nat, q: nat)
    requires r in w.rots && q in w.rots
  {
    w.rots[r].image == w.rots[q].image && MintedOf(w.rots[r].turn).Some? ==>
      && PriorOf(w.rots[q].turn) != MintedOf(w.rots[r].turn)
      && SeenPass(w, w.rots[q].turn) != MintedOf(w.rots[r].turn)
      && (r != q ==> MintedOf(w.rots[q].turn) != MintedOf(w.rots[r].turn))
  }

  // ---- KMIP ownership ------------------------------------------------------

  /** Who may be holding a KMIP object. */
  datatype Holder = OfSpec(sp: Spec) | OfRotation(r: nat) | OfJob(sp: Spec)

  ghost predicate Claims(w: World, sp: Spec) {
    sp in w.ready || sp in w.dying || (sp in w.jobs && DescOf(w, sp).owner == Some(sp))
  }

  ghost function HeldUid(w: World, h: Holder): Option<nat> {
    match h
    case OfSpec(sp) => if Claims(w, sp) then DescOf(w, sp).uid else None
    case OfRotation(r) => if r in w.rots then MintedUidOf(w.rots[r].turn) else None
    case OfJob(sp) =>
      if sp in w.jobs && w.jobs[sp].Copy? && (w.jobs[sp].phase.Registered? || w.jobs[sp].phase.UidSet?)
      then Some(w.jobs[sp].phase.uid) else None
  }

  ghost predicate Exclusive(w: World) {
    forall h, g :: h != g && HeldUid(w, h).Some? ==> HeldUid(w, h) != HeldUid(w, g)
  }

  /** The object a rotation is going to reap belongs to its own volume alone. */
  ghost predicate PriorsPrivate(w: World) {
    forall r, h | r in w.rots ::
      PriorUidOf(w.rots[r].turn).Some? && h != OfSpec(Vol(w.rots[r].image)) ==>
          HeldUid(w, h) != PriorUidOf(w.rots[r].turn)
  }

  // ---- the invariant -------------------------------------------------------

  ghost predicate SpecsOk(w: World) { forall sp | sp in w.ready :: sp in w.slots && SpecOk(w, sp) }

  ghost predicate JobsOk(w: World) { forall sp | sp in w.jobs :: JobOk(w, sp) }

  ghost predicate RotsOk(w: World) {
    && (forall r | r in w.rots :: RotOk(w, r))
    && (forall r, q | r in w.rots && q in w.rots :: RotsApart(w, r, q))
  }

  ghost predicate Inv(w: World) {
    && IdsKnown(w) && Shape(w) && SpecsOk(w) && JobsOk(w) && RotsOk(w) && Exclusive(w) && PriorsPrivate(w)
  }

  lemma EmptyInv()
    ensures Inv(EMPTY)
  {}
}
