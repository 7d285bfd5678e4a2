/**
 The life of an encrypted volume's key, as a machine over single commands.

 The state is what survives a plugin crash (image metadata, LUKS keyslots, the Vault
 and KMIP stores) plus the operations in flight. Any action of any operation may run
 next, so operations interleave freely; dropping an operation's progress is a crash.
 `Enabled` holds the guards of the code, and that a request names a volume or snapshot whose
 create has answered, since only the answer carries its handle. `Admitted` holds what the
 callers are trusted with beyond that.
 */
module KeyPlane {
  import opened Options

  /** A metadata target: an image, or a snapshot of one ("image@snap"). */
  datatype Spec = Vol(image: string) | Snap(image: string, snap: string)

  /** The recorded KMS id; no id means the key is derived from the master key. */
  datatype Kms = NoKms | SecretsMetadata | Vault | Kmip

  /** A passphrase: random material, or HKDF output for one key identity. */
  datatype Pass = Random(n: nat) | Derived(keyId: Spec)

  /** An encryption descriptor. Unwrapping `dek` with the master key yields the value here. */
  datatype Desc = Desc(kms: Kms, keyId: Option<Spec>, dek: Option<Pass>, uid: Option<nat>, owner: Option<Spec>)

  const BLANK := Desc(NoKms, None, None, None, None)

  /** The metadata stored on one image: its own, and its snapshots' under qualified keys. */
  datatype Meta = Meta(own: Desc, snaps: map<string, Desc>)

  /** What a copy of an encrypted header was asked to copy. */
  datatype Source = Capture(image: string) | FromVolume(image: string) | FromSnapshot(image: string, snap: string)

  /** How far one attempt at inheritEncryption has come. */
  datatype Phase =
    | Idle
    | Begun(src: Spec)
    | KeySet(src: Spec, key: Spec)
    | KmsSet(src: Spec, key: Spec, kms: Kms)
    | DekSet(src: Spec, key: Spec, kms: Kms)
    | Registered(key: Spec, uid: nat)
    | UidSet(key: Spec, uid: nat)
    | Copied(key: Spec)

  /** A create that has not answered yet. `frozen` is the header in the temporary snapshot
      of a volume-to-volume clone until the clone exists. `root` and `srcKms` remember the
      source's key identity and KMS id at the start; the code does not read them. */
  datatype Job =
    | Fresh(want: Kms)
    | Copy(from: Source, frozen: Option<set<Pass>>, phase: Phase, root: Spec, srcKms: Kms)

  /** How far one key rotation has come. */
  datatype Turn =
    | Started
    | UidRead(seen: nat)
    | HaveOld(prior: Pass)
    | HaveUid(prior: Pass, priorUid: Option<nat>)
    | Minted(prior: Pass, priorUid: Option<nat>, minted: Pass, mintedUid: Option<nat>)
    | Applied(prior: Pass, priorUid: Option<nat>, minted: Pass, mintedUid: Option<nat>)
    | Persisted(prior: Pass, priorUid: Option<nat>)
    | Reaped(prior: Pass)

  datatype Rotation = Rotation(image: string, turn: Turn)

  /** A first stage that found no key and has drawn one, not stored yet. */
  datatype FirstStage = FirstStage(image: string, kms: Kms, key: Pass)

  /** `slots` has the LUKS keyslots of every image and live snapshot ({} = not formatted).
      `ready` are the specs whose create succeeded, `ctx` the key identity in a volume's
      context, `dying` how far a delete has come, `root` the identity a spec descends from. */
  datatype World = World(
    meta: map<string, Meta>,
    slots: map<Spec, set<Pass>>,
    vault: map<Spec, Pass>,
    objects: map<nat, Pass>,
    next: nat,
    ready: set<Spec>,
    jobs: map<Spec, Job>,
    rots: map<nat, Rotation>,
    stages: map<nat, FirstStage>,
    dying: map<Spec, nat>,
    ctx: map<string, Spec>,
    root: map<Spec, Spec>)

  const EMPTY := World(map[], map[], map[], map[], 0, {}, map[], map[], map[], map[], map[], map[])

  // ---- reading -----------------------------------------------------------

  function DescOf(w: World, sp: Spec): Desc {
    if sp.image !in w.meta then BLANK
    else if sp.Vol? then w.meta[sp.image].own
    else if sp.snap in w.meta[sp.image].snaps then w.meta[sp.image].snaps[sp.snap]
    else BLANK
  }

  /** The key a provider has stored for a spec, if it resolves. */
  function Stored(w: World, sp: Spec): Option<Pass> {
    var d := DescOf(w, sp);
    match d.kms
    case NoKms => None
    case SecretsMetadata => d.dek
    case Vault => if sp in w.vault then Some(w.vault[sp]) else None
    case Kmip => if d.uid.Some? && d.uid.value in w.objects then Some(w.objects[d.uid.value]) else None
  }

  /** encryptionDescriptor: the identity recorded on the image, else the image itself. */
  function RecordedKeyId(w: World, sp: Spec): Spec {
    if DescOf(w, sp).keyId.Some? then DescOf(w, sp).keyId.value else sp
  }

  /** volumePassphrase: the identity in the volume context, else the image itself. */
  function ContextKeyId(w: World, v: string): Spec {
    if v in w.ctx then w.ctx[v] else Vol(v)
  }

  /** The passphrase NodeStage resolves for a volume. */
  function StagePass(w: World, v: string): Option<Pass> {
    if DescOf(w, Vol(v)).kms == NoKms then Some(Derived(ContextKeyId(w, v))) else Stored(w, Vol(v))
  }

  /** The passphrase a resize resolves for a volume. */
  function ResizePass(w: World, v: string): Option<Pass> {
    if DescOf(w, Vol(v)).kms == NoKms then Some(Derived(RecordedKeyId(w, Vol(v)))) else Stored(w, Vol(v))
  }

  /** encryptionSourceSpec. */
  function SourceSpec(w: World, from: Source): Spec {
    match from
    case Capture(v) => Vol(v)
    case FromVolume(v) => Vol(v)
    case FromSnapshot(v, s) => if DescOf(w, Snap(v, s)).kms != NoKms then Snap(v, s) else Vol(v)
  }

  /** Which of two descriptors inheritEncryption consults first: a snapshot source is
      authoritative, otherwise the copy's own value wins. */
  function First(w: World, src: Spec, dst: Spec): Desc { if src.Snap? then DescOf(w, src) else DescOf(w, dst) }

  function Second(w: World, src: Spec, dst: Spec): Desc { if src.Snap? then DescOf(w, dst) else DescOf(w, src) }

  function Or<T>(a: Option<T>, b: Option<T>): Option<T> { if a.Some? then a else b }

  function InheritedKeyId(w: World, src: Spec, dst: Spec): Spec {
    var k := Or(First(w, src, dst).keyId, Second(w, src, dst).keyId);
    if k.Some? then k.value else src
  }

  function InheritedKms(w: World, src: Spec, dst: Spec): Kms {
    if First(w, src, dst).kms != NoKms then First(w, src, dst).kms else Second(w, src, dst).kms
  }

  function InheritedDek(w: World, src: Spec, dst: Spec): Option<Pass> {
    Or(First(w, src, dst).dek, Second(w, src, dst).dek)
  }

  /** A create still owed an answer that copies the header or key of image `v`. */
  predicate Copying(w: World, sp: Spec, v: string) {
    sp in w.jobs && sp !in w.ready && w.jobs[sp].Copy? && w.jobs[sp].from.image == v
  }

  /** The header a create in flight has copied, or is going to. */
  function HeaderOf(w: World, sp: Spec): set<Pass>
    requires sp in w.jobs
  {
    var j := w.jobs[sp];
    if j.Copy? && j.frozen.Some? then j.frozen.value else if sp in w.slots then w.slots[sp] else {}
  }

  /** The copy needs its source no more: the key recorded under its own name is its own to keep
      and opens its header. */
  predicate HoldsKey(w: World, sp: Spec)
    requires sp in w.jobs
  {
    && w.jobs[sp].Copy? && w.jobs[sp].frozen.None? && DescOf(w, sp).kms != NoKms
    && (DescOf(w, sp).kms == Kmip ==> DescOf(w, sp).owner == Some(sp))
    && (HeaderOf(w, sp) != {} ==> Stored(w, sp).Some? && Stored(w, sp).value in HeaderOf(w, sp))
  }

  predicate NoLiveSnaps(w: World, v: string) {
    && (forall sp | sp in w.slots :: sp.image == v ==> sp.Vol?)
    && (forall sp | sp in w.jobs :: !(w.jobs[sp].Copy? && w.jobs[sp].frozen.Some? && w.jobs[sp].from.image == v))
  }

  /** A provider's passphrase call finds nothing and mints. */
  predicate NoKey(w: World, v: string) {
    if DescOf(w, Vol(v)).kms == Kmip then DescOf(w, Vol(v)).uid.None? else Stored(w, Vol(v)).None?
  }

  // ---- writing -----------------------------------------------------------

  /** The metadata with one descriptor written. */
  function PutMeta(w: World, sp: Spec, d: Desc): map<string, Meta> {
    var m := if sp.image in w.meta then w.meta[sp.image] else Meta(BLANK, map[]);
    w.meta[sp.image := if sp.Vol? then m.(own := d) else m.(snaps := m.snaps[sp.snap := d])]
  }

  /** Record a minted key as the one a provider resolves: in the metadata, or in Vault. */
  function StoreMeta(w: World, sp: Spec, p: Pass, uid: Option<nat>): map<string, Meta> {
    match DescOf(w, sp).kms
    case SecretsMetadata => PutMeta(w, sp, DescOf(w, sp).(dek := Some(p)))
    case Kmip => PutMeta(w, sp, DescOf(w, sp).(uid := uid))
    case _ => w.meta
  }

  function StoreVault(w: World, sp: Spec, p: Pass): map<Spec, Pass> {
    if DescOf(w, sp).kms == Vault then w.vault[sp := p] else w.vault
  }

  function Without(objects: map<nat, Pass>, uid: Option<nat>): map<nat, Pass> {
    if uid.Some? then objects - {uid.value} else objects
  }

  /** The jobs with one copy moved to another phase. */
  function Phased(w: World, sp: Spec, ph: Phase): map<Spec, Job>
    requires sp in w.jobs && w.jobs[sp].Copy?
  {
    w.jobs[sp := w.jobs[sp].(phase := ph)]
  }

  /** The rotations with one moved to another turn. */
  function Turned(w: World, r: nat, t: Turn): map<nat, Rotation>
    requires r in w.rots
  {
    w.rots[r := w.rots[r].(turn := t)]
  }

  // ---- CreateVolume, NodeStage and CreateSnapshot up to the copied header ----

  datatype ProvisionStep =
    // CreateVolume of a plain volume: rbd create, then the KMS id.
    | CreateImage(v: string, kms: Kms)
    | RecordKms(v: string)
    // First stage: find no key and draw one; store it, or die. KMIP may crash after Register,
    // or destroy the object when recording its UID reports a failure after taking effect.
    | BeginStage(t: nat, v: string)
    | StoreKey(t: nat)
    | StoreLost(t: nat)
    | LoseStage(t: nat)
    | RegisterOnly
    | Format(v: string)
    // Snapshot, clone and restore up to the copied header; a create repeated later.
    | TakeSnapshot(v: string, s: string)
    | TempSnapshot(v: string, copy: string)
    | CloneImage(copy: string)
    | RestoreImage(v: string, s: string, copy: string)
    | Redo(sp: Spec, from: Source)

  predicate CanProvision(w: World, a: ProvisionStep) {
    match a
    case CreateImage(v, _) => Vol(v) !in w.slots && Vol(v) !in w.jobs
    case RecordKms(v) => Vol(v) in w.jobs && w.jobs[Vol(v)].Fresh?
    case BeginStage(t, v) => t !in w.stages && Vol(v) in w.ready && DescOf(w, Vol(v)).kms != NoKms && NoKey(w, v)
    case StoreKey(t) => t in w.stages && (w.stages[t].kms == Vault || w.stages[t].image in w.meta)
    case StoreLost(t) => t in w.stages && w.stages[t].kms == Kmip && w.stages[t].image in w.meta
    case LoseStage(t) => t in w.stages
    case RegisterOnly => true
    case Format(v) => Vol(v) in w.ready && Vol(v) in w.slots && w.slots[Vol(v)] == {} && StagePass(w, v).Some?
    case TakeSnapshot(v, s) => Vol(v) in w.ready && Vol(v) in w.slots && Snap(v, s) !in w.slots
    case TempSnapshot(v, x) => Vol(v) in w.ready && Vol(v) in w.slots && Vol(x) !in w.slots && Vol(x) !in w.jobs
    case CloneImage(x) =>
      Vol(x) in w.jobs && w.jobs[Vol(x)].Copy? && w.jobs[Vol(x)].frozen.Some? && w.jobs[Vol(x)].from.image in w.meta
    case RestoreImage(v, s, x) =>
      Snap(v, s) in w.ready && Snap(v, s) in w.slots && v in w.meta && Vol(x) !in w.slots && Vol(x) !in w.jobs
    case Redo(sp, from) => sp in w.ready && sp !in w.jobs && Replayable(w, sp, from)
  }

  /** What a create names as its source: a snapshot's is its image, and only a copied volume,
      which records a key identity, has one. */
  predicate Replayable(w: World, sp: Spec, from: Source) {
    if sp.Snap? then from == Capture(sp.image) && DescOf(w, sp).kms != NoKms
    else !from.Capture? && from.image != sp.image && DescOf(w, sp).keyId.Some?
  }

  function RootOf(w: World, sp: Spec): Spec { if sp in w.root then w.root[sp] else Vol(sp.image) }

  function NewJob(w: World, sp: Spec, j: Job): World { w.(jobs := w.jobs[sp := j]) }

  function CreateImageStep(w: World, v: string, kms: Kms): World {
    w.(meta := w.meta[v := Meta(BLANK, map[])], slots := w.slots[Vol(v) := {}], jobs := w.jobs[Vol(v) := Fresh(kms)])
  }

  function RecordKmsStep(w: World, v: string): World
    requires CanProvision(w, RecordKms(v))
  {
    w.(meta := PutMeta(w, Vol(v), DescOf(w, Vol(v)).(kms := w.jobs[Vol(v)].want)), ctx := w.ctx - {v},
       jobs := w.jobs - {Vol(v)}, ready := w.ready + {Vol(v)}, root := w.root[Vol(v) := Vol(v)])
  }

  function BeginStageStep(w: World, t: nat, v: string): World {
    w.(stages := w.stages[t := FirstStage(v, DescOf(w, Vol(v)).kms, Random(w.next))], next := w.next + 1)
  }

  /** Vault's write is create-only; the others overwrite what they find. */
  function StoreKeyStep(w: World, t: nat): World
    requires t in w.stages
  {
    var f, sp := w.stages[t], Vol(w.stages[t].image);
    w.(meta := if f.kms == SecretsMetadata then PutMeta(w, sp, DescOf(w, sp).(dek := Some(f.key)))
               else if f.kms == Kmip then PutMeta(w, sp, DescOf(w, sp).(uid := Some(w.next)))
               else w.meta,
       vault := if f.kms == Vault && sp !in w.vault then w.vault[sp := f.key] else w.vault,
       objects := if f.kms == Kmip then w.objects[w.next := f.key] else w.objects,
       next := if f.kms == Kmip then w.next + 1 else w.next,
       stages := w.stages - {t})
  }

  function RegisterOnlyStep(w: World): World {
    w.(objects := w.objects[w.next := Random(w.next)], next := w.next + 1)
  }

  function StoreLostStep(w: World, t: nat): World
    requires t in w.stages
  {
    var sp := Vol(w.stages[t].image);
    w.(meta := PutMeta(w, sp, DescOf(w, sp).(uid := Some(w.next))), next := w.next + 1, stages := w.stages - {t})
  }

  function FormatStep(w: World, v: string): World
    requires CanProvision(w, Format(v))
  {
    w.(slots := w.slots[Vol(v) := {StagePass(w, v).value}])
  }

  function TempSnapshotStep(w: World, v: string, x: string): World
    requires CanProvision(w, TempSnapshot(v, x))
  {
    NewJob(w, Vol(x), Copy(FromVolume(v), Some(w.slots[Vol(v)]), Idle, RootOf(w, Vol(v)), DescOf(w, Vol(v)).kms))
  }

  function RedoStep(w: World, sp: Spec, from: Source): World {
    NewJob(w, sp, Copy(from, None, Idle, RootOf(w, sp), DescOf(w, sp).kms))
  }

  /** A snapshot of a derived-key volume has no key to capture and is done at once. */
  function TakeSnapshotStep(w: World, v: string, s: string): World
    requires CanProvision(w, TakeSnapshot(v, s))
  {
    var sp, kms, root := Snap(v, s), DescOf(w, Vol(v)).kms, RootOf(w, Vol(v));
    w.(slots := w.slots[sp := w.slots[Vol(v)]],
       ready := if kms == NoKms then w.ready + {sp} else w.ready,
       root := if kms == NoKms then w.root[sp := root] else w.root,
       jobs := if kms == NoKms then w.jobs - {sp} else w.jobs[sp := Copy(Capture(v), None, Idle, root, kms)])
  }

  /** librbd copies the parent's metadata, snapshot-qualified keys included. */
  function CloneImageStep(w: World, x: string): World
    requires CanProvision(w, CloneImage(x))
  {
    var j := w.jobs[Vol(x)];
    w.(slots := w.slots[Vol(x) := j.frozen.value], meta := w.meta[x := w.meta[j.from.image]],
       jobs := w.jobs[Vol(x) := j.(frozen := None)])
  }

  function RestoreImageStep(w: World, v: string, s: string, x: string): World
    requires CanProvision(w, RestoreImage(v, s, x))
  {
    w.(slots := w.slots[Vol(x) := w.slots[Snap(v, s)]], meta := w.meta[x := w.meta[v]],
       jobs := w.jobs[Vol(x) := Copy(FromSnapshot(v, s), None, Idle, RootOf(w, Snap(v, s)), DescOf(w, Snap(v, s)).kms)])
  }

  function Provision(w: World, a: ProvisionStep): World
    requires CanProvision(w, a)
  {
    match a
    case CreateImage(v, kms) => CreateImageStep(w, v, kms)
    case RecordKms(v) => RecordKmsStep(w, v)
    case BeginStage(t, v) => BeginStageStep(w, t, v)
    case StoreKey(t) => StoreKeyStep(w, t)
    case StoreLost(t) => StoreLostStep(w, t)
    case LoseStage(t) => w.(stages := w.stages - {t})
    case RegisterOnly => RegisterOnlyStep(w)
    case Format(v) => FormatStep(w, v)
    case TakeSnapshot(v, s) => TakeSnapshotStep(w, v, s)
    case TempSnapshot(v, x) => TempSnapshotStep(w, v, x)
    case CloneImage(x) => CloneImageStep(w, x)
    case RestoreImage(v, s, x) => RestoreImageStep(w, v, s, x)
    case Redo(sp, from) => RedoStep(w, sp, from)
  }

  // ---- inheritEncryption, for a snapshot or a copied volume ----------------

  /** One write with the reads that feed it; `Crash` forgets the attempt's progress. */
  datatype InheritStep = Attempt | SetKeyId | SetKms | SetDek | CloneKey | SetUid | SetOwner | Finish | Crash

  predicate CanInherit(w: World, sp: Spec, a: InheritStep) {
    && sp in w.jobs && w.jobs[sp].Copy? && w.jobs[sp].frozen.None?
    && var ph := w.jobs[sp].phase;
       match a
       case Attempt => ph.Idle?
       case SetKeyId => ph.Begun?
       case SetKms => ph.KeySet?
       case SetDek => ph.KmsSet?
       case CloneKey => ph.DekSet?
       case SetUid => ph.Registered?
       case SetOwner => ph.UidSet?
       case Finish => ph.Copied?
       case Crash => true
  }

  function SetKeyIdStep(w: World, sp: Spec): World
    requires CanInherit(w, sp, SetKeyId)
  {
    var ph := w.jobs[sp].phase;
    var k := InheritedKeyId(w, ph.src, sp);
    w.(meta := PutMeta(w, sp, DescOf(w, sp).(keyId := Some(k))), jobs := Phased(w, sp, KeySet(ph.src, k)))
  }

  function SetKmsStep(w: World, sp: Spec): World
    requires CanInherit(w, sp, SetKms)
  {
    var ph := w.jobs[sp].phase;
    var kms := InheritedKms(w, ph.src, sp);
    w.(meta := if kms != NoKms then PutMeta(w, sp, DescOf(w, sp).(kms := kms)) else w.meta,
       jobs := Phased(w, sp, KmsSet(ph.src, ph.key, kms)))
  }

  function SetDekStep(w: World, sp: Spec): World
    requires CanInherit(w, sp, SetDek)
  {
    var ph := w.jobs[sp].phase;
    var dek := InheritedDek(w, ph.src, sp);
    w.(meta := if dek.Some? then PutMeta(w, sp, DescOf(w, sp).(dek := dek)) else w.meta,
       jobs := Phased(w, sp, DekSet(ph.src, ph.key, ph.kms)))
  }

  /** Vault writes create-only and accepts an equal value found in place; any other value
      found there fails the attempt. A source without a key has nothing to copy. */
  function VaultCloneKey(w: World, sp: Spec, src: Spec, key: Spec): World
    requires CanInherit(w, sp, CloneKey)
  {
    var done := src !in w.vault || sp !in w.vault || w.vault[sp] == w.vault[src];
    w.(vault := if src in w.vault && sp !in w.vault then w.vault[sp := w.vault[src]] else w.vault,
       jobs := Phased(w, sp, if done then Copied(key) else Idle))
  }

  /** KMIP registers an object of the copy's own unless the source has none or the copy is
      marked as owner already; a source object that is gone fails the attempt. */
  function KmipCloneKey(w: World, sp: Spec, src: Spec, key: Spec): World
    requires CanInherit(w, sp, CloneKey)
  {
    var uid := DescOf(w, src).uid;
    var done := uid.None? || DescOf(w, sp).owner == Some(sp);
    var copies := !done && uid.value in w.objects;
    w.(objects := if copies then w.objects[w.next := w.objects[uid.value]] else w.objects,
       next := if copies then w.next + 1 else w.next,
       jobs := Phased(w, sp, if done then Copied(key) else if copies then Registered(key, w.next) else Idle))
  }

  /** A provider whose key rides in the metadata has nothing more to copy. */
  function PlainCloneKey(w: World, sp: Spec, key: Spec): World
    requires CanInherit(w, sp, CloneKey)
  {
    w.(jobs := Phased(w, sp, Copied(key)))
  }

  function CloneKeyStep(w: World, sp: Spec): World
    requires CanInherit(w, sp, CloneKey)
  {
    var ph := w.jobs[sp].phase;
    if ph.kms == Vault then VaultCloneKey(w, sp, ph.src, ph.key)
    else if ph.kms == Kmip then KmipCloneKey(w, sp, ph.src, ph.key)
    else PlainCloneKey(w, sp, ph.key)
  }

  function SetUidStep(w: World, sp: Spec): World
    requires CanInherit(w, sp, SetUid)
  {
    var ph := w.jobs[sp].phase;
    w.(meta := PutMeta(w, sp, DescOf(w, sp).(uid := Some(ph.uid))), jobs := Phased(w, sp, UidSet(ph.key, ph.uid)))
  }

  function SetOwnerStep(w: World, sp: Spec): World
    requires CanInherit(w, sp, SetOwner)
  {
    w.(meta := PutMeta(w, sp, DescOf(w, sp).(owner := Some(sp))), jobs := Phased(w, sp, Copied(w.jobs[sp].phase.key)))
  }

  function FinishStep(w: World, sp: Spec): World
    requires CanInherit(w, sp, Finish)
  {
    w.(ctx := if sp.Vol? then w.ctx[sp.image := w.jobs[sp].phase.key] else w.ctx,
       jobs := w.jobs - {sp}, ready := w.ready + {sp}, root := w.root[sp := w.jobs[sp].root])
  }

  function Inherit(w: World, sp: Spec, a: InheritStep): World
    requires CanInherit(w, sp, a)
  {
    match a
    case Attempt => w.(jobs := Phased(w, sp, Begun(SourceSpec(w, w.jobs[sp].from))))
    case SetKeyId => SetKeyIdStep(w, sp)
    case SetKms => SetKmsStep(w, sp)
    case SetDek => SetDekStep(w, sp)
    case CloneKey => CloneKeyStep(w, sp)
    case SetUid => SetUidStep(w, sp)
    case SetOwner => SetOwnerStep(w, sp)
    case Finish => FinishStep(w, sp)
    case Crash => w.(jobs := Phased(w, sp, Idle))
  }

  // ---- RotateEncryptionKey -------------------------------------------------

  /** Every command of a rotation. `ReadUid`, `ReadPriorUid` and `Reap` are KMIP's; a write
      that is not acknowledged took effect all the same, and `Abort` is a luksAddKey reported
      failed, whether or not it added the keyslot. */
  datatype RotateStep =
    | Start(v: string) | ReadUid | ReadPrior | ReadPriorUid | MintKey | AddSlot | Abort
    | Persist(acked: bool) | Reap(done: bool) | RemoveSlot | Die

  predicate CanRotate(w: World, r: nat, a: RotateStep) {
    if a.Start? then
      r !in w.rots && Vol(a.v) in w.ready && Vol(a.v) in w.slots && w.slots[Vol(a.v)] != {} &&
          DescOf(w, Vol(a.v)).kms != NoKms
    else
      && r in w.rots
      && var v, t := Vol(w.rots[r].image), w.rots[r].turn;
         var kmip := DescOf(w, v).kms == Kmip;
         match a
         case ReadUid => t.Started? && kmip && DescOf(w, v).uid.Some?
         case ReadPrior => if t.UidRead? then t.seen in w.objects else t.Started? && !kmip && Stored(w, v).Some?
         case ReadPriorUid => t.HaveOld? && kmip
         case MintKey => t.HaveUid? || (t.HaveOld? && !kmip)
         case AddSlot => t.Minted? && v in w.slots && t.prior in w.slots[v]
         case Abort => t.Minted? || t.Applied?
         case Persist(_) => t.Applied?
         case Reap(_) => t.Persisted?
         case RemoveSlot => t.Reaped? && v in w.slots
         case Die => true
  }

  function MintKeyStep(w: World, r: nat): World
    requires CanRotate(w, r, MintKey)
  {
    var t, p := w.rots[r].turn, Random(w.next);
    var priorUid, uid := if t.HaveUid? then t.priorUid else None, if t.HaveUid? then Some(w.next) else None;
    w.(objects := if t.HaveUid? then w.objects[w.next := p] else w.objects, next := w.next + 1,
       rots := Turned(w, r, Minted(t.prior, priorUid, p, uid)))
  }

  function AddSlotStep(w: World, r: nat): World
    requires CanRotate(w, r, AddSlot)
  {
    var v, t := Vol(w.rots[r].image), w.rots[r].turn;
    w.(slots := w.slots[v := w.slots[v] + {t.minted}],
       rots := Turned(w, r, Applied(t.prior, t.priorUid, t.minted, t.mintedUid)))
  }

  function AbortStep(w: World, r: nat): World
    requires CanRotate(w, r, Abort)
  {
    w.(objects := Without(w.objects, w.rots[r].turn.mintedUid), rots := w.rots - {r})
  }

  function PersistStep(w: World, r: nat, acked: bool): World
    requires CanRotate(w, r, Persist(acked))
  {
    var v, t := Vol(w.rots[r].image), w.rots[r].turn;
    w.(meta := StoreMeta(w, v, t.minted, t.mintedUid), vault := StoreVault(w, v, t.minted),
       rots := if acked then Turned(w, r, Persisted(t.prior, t.priorUid)) else w.rots - {r})
  }

  function ReapStep(w: World, r: nat, done: bool): World
    requires CanRotate(w, r, Reap(done))
  {
    var t := w.rots[r].turn;
    w.(objects := if done then Without(w.objects, t.priorUid) else w.objects, rots := Turned(w, r, Reaped(t.prior)))
  }

  function RemoveSlotStep(w: World, r: nat): World
    requires CanRotate(w, r, RemoveSlot)
  {
    var v := Vol(w.rots[r].image);
    w.(slots := w.slots[v := w.slots[v] - {w.rots[r].turn.prior}], rots := w.rots - {r})
  }

  /** What a rotation learns from a command that only reads. */
  function ReadTurn(w: World, r: nat, a: RotateStep): Turn
    requires CanRotate(w, r, a) && (a.ReadUid? || a.ReadPrior? || a.ReadPriorUid?)
  {
    var v, t := Vol(w.rots[r].image), w.rots[r].turn;
    match a
    case ReadUid => UidRead(DescOf(w, v).uid.value)
    case ReadPrior => HaveOld(if t.UidRead? then w.objects[t.seen] else Stored(w, v).value)
    case ReadPriorUid => HaveUid(t.prior, DescOf(w, v).uid)
  }

  function Rotate(w: World, r: nat, a: RotateStep): World
    requires CanRotate(w, r, a)
  {
    match a
    case Start(v) => w.(rots := w.rots[r := Rotation(v, Started)])
    case ReadUid => w.(rots := Turned(w, r, ReadTurn(w, r, a)))
    case ReadPrior => w.(rots := Turned(w, r, ReadTurn(w, r, a)))
    case ReadPriorUid => w.(rots := Turned(w, r, ReadTurn(w, r, a)))
    case MintKey => MintKeyStep(w, r)
    case AddSlot => AddSlotStep(w, r)
    case Abort => AbortStep(w, r)
    case Persist(acked) => PersistStep(w, r, acked)
    case Reap(done) => ReapStep(w, r, done)
    case RemoveSlot => RemoveSlotStep(w, r)
    case Die => w.(rots := w.rots - {r})
  }

  // ---- DeleteSnapshot and DeleteVolume -------------------------------------

  datatype DeleteStep =
    | DeleteSnapshot(v: string, s: string)
    | DeleteVolume(v: string)
    | DropKey(sp: Spec)
    | WipeMeta(sp: Spec)
    | RemoveImage(v: string)
    | RestartDelete(sp: Spec)

  predicate CanDelete(w: World, a: DeleteStep) {
    match a
    case DeleteSnapshot(v, s) => Snap(v, s) in w.ready
    case DeleteVolume(v) => Vol(v) in w.ready && NoLiveSnaps(w, v)
    case DropKey(sp) => sp in w.dying && w.dying[sp] == 0
    case WipeMeta(sp) => sp in w.dying && sp.Snap? && 1 <= w.dying[sp] <= 5
    case RemoveImage(v) => Vol(v) in w.dying && w.dying[Vol(v)] == 1 && NoLiveSnaps(w, v)
    case RestartDelete(sp) => sp in w.dying
  }

  function Wiped(d: Desc, n: nat): Desc {
    if n == 1 then d.(dek := None)
    else if n == 2 then d.(uid := None)
    else if n == 3 then d.(owner := None)
    else if n == 4 then d.(keyId := None)
    else d.(kms := NoKms)
  }

  /** `rbd snap rm`; a snapshot without a KMS id has no key copy left to reap. */
  function DeleteSnapshotStep(w: World, sp: Spec): World {
    w.(slots := w.slots - {sp}, ready := w.ready - {sp}, jobs := w.jobs - {sp},
       dying := if DescOf(w, sp).kms == NoKms then w.dying else w.dying[sp := 0])
  }

  /** The descriptor goes key by key, the KMS id last. */
  function WipeMetaStep(w: World, sp: Spec): World
    requires sp in w.dying
  {
    var n := w.dying[sp];
    w.(meta := PutMeta(w, sp, Wiped(DescOf(w, sp), n)), dying := if n == 5 then w.dying - {sp}
        else w.dying[sp := n + 1])
  }

  function DropKeyStep(w: World, sp: Spec): World {
    var d := DescOf(w, sp);
    w.(vault := if d.kms == Vault then w.vault - {sp} else w.vault,
       objects := if d.kms == Kmip then Without(w.objects, d.uid) else w.objects,
       dying := w.dying[sp := 1])
  }

  function Delete(w: World, a: DeleteStep): World
    requires CanDelete(w, a)
  {
    match a
    case DeleteSnapshot(v, s) => DeleteSnapshotStep(w, Snap(v, s))
    case DeleteVolume(v) => w.(ready := w.ready - {Vol(v)}, jobs := w.jobs - {Vol(v)}, dying := w.dying[Vol(v) := 0])
    case DropKey(sp) => DropKeyStep(w, sp)
    case WipeMeta(sp) => WipeMetaStep(w, sp)
    case RemoveImage(v) =>
      w.(slots := w.slots - {Vol(v)}, meta := w.meta - {v},
         dying := map sp | sp in w.dying && sp.image != v :: w.dying[sp])
    case RestartDelete(sp) => w.(dying := w.dying[sp := 0])
  }

  // ---- runs ----------------------------------------------------------------

  datatype Action =
    | DoProvision(p: ProvisionStep)
    | DoInherit(sp: Spec, i: InheritStep)
    | DoRotate(r: nat, t: RotateStep)
    | DoDelete(d: DeleteStep)

  /** The guards of the code, and the handles its requests carry. */
  predicate Enabled(w: World, a: Action) {
    match a
    case DoProvision(p) => CanProvision(w, p)
    case DoInherit(sp, i) => CanInherit(w, sp, i)
    case DoRotate(r, t) => CanRotate(w, r, t)
    case DoDelete(d) => CanDelete(w, d)
  }

  /** No unfinished copy of image `v` has a header that still waits for the key `v` has now. */
  predicate KeyUnwatched(w: World, v: string) {
    forall sp | sp in w.jobs :: Copying(w, sp, v) && !w.jobs[sp].from.FromSnapshot? ==>
        HeaderOf(w, sp) == {} || HoldsKey(w, sp)
  }

  /** Every unfinished copy of `from` holds its key. */
  predicate Served(w: World, from: Source) {
    forall sp | sp in w.jobs :: Copying(w, sp, from.image) && w.jobs[sp].from == from ==> HoldsKey(w, sp)
  }

  predicate Uncopied(w: World, v: string) { forall sp | sp in w.jobs :: !Copying(w, sp, v) }

  predicate Unrestored(w: World, v: string, s: string) {
    forall sp | sp in w.jobs :: Copying(w, sp, v) ==> w.jobs[sp].from != FromSnapshot(v, s)
  }

  predicate HasKmipUid(w: World, v: string) { DescOf(w, Vol(v)).kms == Kmip ==> DescOf(w, Vol(v)).uid.Some? }

  /** A first stage may store its key: the volume it read is still there, and no other stage has
      stored one that the write would replace. */
  predicate Stageable(w: World, t: nat)
    requires t in w.stages
  {
    var f := w.stages[t];
    Vol(f.image) in w.ready && DescOf(w, Vol(f.image)).kms == f.kms && (f.kms == Vault || NoKey(w, f.image))
  }

  /** A replayed create of volume `sp` finds nothing to inherit in place of what the volume has. */
  predicate ReplayAgrees(w: World, sp: Spec)
    requires CanInherit(w, sp, SetKeyId) || CanInherit(w, sp, SetKms) || CanInherit(w, sp, SetDek)
  {
    var src, d := w.jobs[sp].phase.src, DescOf(w, sp);
    && InheritedKms(w, src, sp) == d.kms
    && (d.kms == NoKms ==> Some(InheritedKeyId(w, src, sp)) == d.keyId)
    && (d.kms == SecretsMetadata && d.dek.Some? ==> InheritedDek(w, src, sp) == d.dek)
  }

  /** What the environment promises:
      - a KMIP source holds a key before it is copied;
      - a snapshot name is not reused over the metadata of its former holder;
      - a source is neither deleted before its unfinished copies hold their key, nor recreated
        under any of them, nor does a rotation persist before their headers are served;
      - a volume is not deleted while it is staged for the first time or rotated;
      - two first stages do not overlap, unless the provider's write is create-only;
      - a replayed create of a volume finds its source's descriptor in agreement with its own. */
  predicate Admitted(w: World, a: Action) {
    match a
    case DoProvision(CreateImage(v, _)) => Uncopied(w, v)
    case DoProvision(StoreKey(t)) => t in w.stages ==> Stageable(w, t)
    case DoProvision(StoreLost(t)) => t in w.stages ==> Stageable(w, t)
    case DoProvision(TakeSnapshot(v, s)) =>
      && DescOf(w, Snap(v, s)) == BLANK && Snap(v, s) !in w.dying && HasKmipUid(w, v)
      && (DescOf(w, Vol(v)).kms != NoKms ==> Unrestored(w, v, s))
    case DoProvision(TempSnapshot(v, x)) => HasKmipUid(w, v) && Uncopied(w, x)
    case DoProvision(RestoreImage(v, s, x)) => Uncopied(w, x)
    case DoInherit(sp, i) =>
      (i == SetKeyId || i == SetKms || i == SetDek) && CanInherit(w, sp, i) && sp in w.ready && sp.Vol? ==>
          ReplayAgrees(w, sp)
    case DoRotate(r, Persist(_)) => r in w.rots ==> KeyUnwatched(w, w.rots[r].image)
    case DoDelete(DeleteSnapshot(v, s)) => DescOf(w, Snap(v, s)).kms != NoKms ==> Served(w, FromSnapshot(v, s))
    case DoDelete(DeleteVolume(v)) =>
      && (forall r | r in w.rots :: w.rots[r].image != v)
      && (DescOf(w, Vol(v)).kms != NoKms ==> Served(w, FromVolume(v)))
    case _ => true
  }

  function Next(w: World, a: Action): World {
    if !Enabled(w, a) then w
    else
      match a
      case DoProvision(p) => Provision(w, p)
      case DoInherit(sp, i) => Inherit(w, sp, i)
      case DoRotate(r, t) => Rotate(w, r, t)
      case DoDelete(d) => Delete(w, d)
  }

  function Exec(w: World, acts: seq<Action>): World
    decreases |acts|
  {
    if acts == [] then w else Exec(Next(w, acts[0]), acts[1..])
  }

  predicate AllAdmitted(w: World, acts: seq<Action>)
    decreases |acts|
  {
    acts == [] || (Admitted(w, acts[0]) && AllAdmitted(Next(w, acts[0]), acts[1..]))
  }
}
