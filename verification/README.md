# Bard CSI: a verified model

Bard CSI provisions block volumes for Kubernetes through plugins for Ceph RBD and iSCSI. This
project models the parts of it that carry state across crashes, retries and concurrent callers,
and proves what they keep. `dafny verify dfyconfig.toml` checks all of it.

**The life of an encrypted volume's key** (`KeyPlane`, `KeyInvariant`, `KeyFrame`, `KeyProvision`,
`KeyInherit`, `KeyRotate`, `KeyDelete`, `KeyTheorems`, `KeyAttempt`, `KeyHandlers`, `KeyLimits`,
`KeyReap`, `KeyStage`). The state is what outlives a plugin: the metadata of every image with the
snapshot-qualified keys of its snapshots, the LUKS keyslots of every image and live snapshot, the
Vault entries and the KMIP objects, and beside them the operations in flight. Create, first stage,
snapshot, clone, restore, rotation and delete are sequences of single commands; any command of any
operation may come next, an operation may stop after any of them, and a finished create may be
replayed. `Enabled` holds the guards of the code, and that a request names a volume or snapshot whose
create has answered. `Admitted` holds what the callers are trusted with beyond that:

- a KMIP source has a key before it is snapshotted or cloned;
- a snapshot name is not reused over metadata that a former holder left, deleted and never reaped or
  copied along by a clone;
- a source is not deleted before its unfinished copies hold their own key, nor recreated under any
  unfinished copy, nor does a rotation of it persist while a frozen header waits for the key it
  replaces, the race that the comment at line 1468 of `internal/cephplugin/cephplugin.go` admits;
- a volume is not deleted while it is rotated or staged for the first time;
- two first stages of a volume do not overlap, unless the provider's write is create-only;
- a replayed create of a volume finds its source's descriptor in agreement with its own.

`KeyTheorems` states what holds in every run under these promises, and `KeyReap` that deletes, however
interrupted, take the keys with them. `KeyAttempt` says of every attempt at inheriting a key, from any
state at all, what it leaves behind and whether the copy will open and own its key, and of every
replayed create whether it keeps the key, by conditions visible before the call. `KeyLimits` gives for
every promise a run from the empty cluster that breaks it, and what it costs; `KeyStage` says of every
first stage's store, promised or not, whether the volume still opens. `KeyHandlers` is the
plugin's own code, statement by statement, on mutable stores, with the proof that an undisturbed call
is a run of the machine.

**Concurrent first stages** (`FirstStage`). One passphrase per volume, for Vault under any number of
concurrent callers and for secrets-metadata under any sequence of calls.

**The rbd control plane** (`Rbd`, `CloneRecipe`, `CowChain`, `DeleteVolume`, `SnapshotIndex`,
`MetaAddress`). `Rbd` is the repository's in-memory cluster: images, live and trashed snapshots,
parents and metadata. On it stand the crash-and-retry recipe of a volume-to-volume clone, the bound
on copy-on-write chains, the convergence of a delete blocked by linked clones, and the index of CSI
snapshot names.

**The iSCSI attach plane** (`LunAllocator`, `SharedSession`). The LUN allocator under its mutex, and
the session shared by the volumes of a target, counted under a lock per target.

**Configuration and reporting** (`Config`, `Dispatch`, `Inspect`, `Report`, `Pagination`, `VolumeId`,
`Text`). The fold of BackendCluster resources, the dispatcher built from it and the scanner's
prediction of the dispatcher; the join of persistent volumes with what the backends list; list
pagination as in the section "ListVolumes" of the Container Storage Interface specification; the
volume handle.

Assumptions: SHA-256 names and Vault paths are injective, and random keys and object ids are fresh.
Names, keys and specs are strings; wrapping a key is an inverse pair. Clocks, the network, foreign
services and randomness are arguments of the steps.

Where the code and its documentation part, the model follows the code:

- The comment above `flattenIfDeep` says that it flattens synchronously at the limit; the code
  schedules it in the background, and an image may be cloned again before it lands. `CowChain` bounds
  the chain for that case too.
- The walk of `cloneDepth` is described as bounded by 64; it counts up to 65 layers, and a configured
  limit above 65 never flattens (`CowChain.DecidesIff`).
- `rbd clone` copies the source's `bard.source` stamp, so a clone interrupted before its own stamp is
  not "accepted as before" if its source was itself a clone (`CloneRecipe.ConvergesIff`).
- The KMIP rollback that is meant to leave nothing behind destroys an object whose UID has been
  recorded, if that write was reported failed but took effect; the volume can never be staged
  (`KeyReap.LostWriteStrandsForGood`).
- inheritEncryption is called idempotent and said to run on every create of a clone, fresh or resumed
  (lines 1030 to 1036 of `cephplugin.go`). A restore of a secrets-metadata snapshot that was rotated
  since gets the snapshot's key back when its create is replayed, and no longer opens
  (`KeyLimits.ReplayLosesKey`; `KeyAttempt.ReplayKeepsIff` says exactly when a replay is safe).
- The same comment says a retry stays correct even if the source has been deleted since. It does once
  the copy holds its key; before that, a Vault clone answers without one (`KeyLimits.SourceDeleted`).
- The metadata keys of a source's snapshots are called inert on a clone (lines 494 to 496 of
  `cephplugin.go`). A snapshot of the clone that takes such a name finds them there and keeps a key
  that a rotation of the clone has made wrong (`KeyLimits.NameReuseCapturesStaleKey`).
- A first stage that loses a race is said to prefer the stored key. Under secrets-metadata and KMIP
  that is so only if its own write fails; a write that succeeds replaces the winner's key
  (`KeyLimits.OverlappingStages`; `KeyStage.StoreOpensIff` says exactly when a late store is harmless).
- An unstage is meant to be retried until the device is gone. One that stops between the detach and
  the removal of its record fails on every retry while other volumes share the target
  (`SharedSession.CrashedDetachIsStuck`).
- A failed step of DeleteSnapshot is said to converge on retry; it does unless the volume is deleted in
  between, which a half-deleted snapshot does not prevent (`KeyReap.KeyOutlivesImage`).
- `grantAccess` is described as idempotent per volume; it compares names only, so a volume of the
  same name in another pool answers (`LunAllocator.AnswersOwnVolumeIff`).
- The stage's record is written after the target lock is released, so the lock alone does not keep a
  session up (`SharedSession.PullsIff`).
- `zoneResolvable` mirrors the dispatcher on folded configurations, but not on a configuration file
  with a default for a backend that is not there (`Dispatch.PredictsIff`).
- The in-memory cluster keeps an image's metadata after `rbd rm`, real rbd drops it; `Rbd` does the
  former, the key plane the latter.

## Model

| member | source | states |
|---|---|---|
| KeyTheorems.StepKeeps | internal/cephplugin/cephplugin.go:1003-1096 | every admitted command of create, stage, snapshot, clone, restore, rotate and delete keeps the invariant of the key plane, whatever else is in flight |
| KeyTheorems.RunKeeps | internal/cephplugin/cephplugin.go:735-897 | so does every run of them, interleaved and crashed in any way |
| KeyTheorems.RestoresOpen | internal/cephplugin/cephplugin.go:1003-1096 | in every reachable state, every volume whose create succeeded (plain, clone or restore, answered once or replayed) opens with the passphrase NodeStage resolves, which is the one a resize resolves, whatever has happened to its source since it held its key |
| KeyTheorems.SnapshotsOpen | internal/cephplugin/cephplugin.go:1459-1478 | in every reachable state, the key a finished snapshot captured opens the header it froze, also after its source was rotated |
| KeyTheorems.RotationSafety | internal/cephplugin/encryption.go:372-409 | from every reachable state in which no unfinished copy of a rotated image still waits for that image's key, whatever else is in flight, under any interleaving of any number of rotations that crash, abort or have their store write reported failed at any point, the passphrase that resolves keeps a live keyslot and a recorded KMIP UID stays a live object |
| KeyTheorems.KeysAreOwn | internal/cephenc/kms_kmip.go:140-233 | in every reachable state, the only command that can change or destroy the key of a finished volume or snapshot is the persist of a rotation of that very volume |
| KeyTheorems.KmipOwnership | internal/cephenc/kms_kmip.go:140-178 | in every reachable state no two finished volumes or snapshots record the same KMIP UID |
| KeyTheorems.CapturedKeyStable | internal/cephplugin/cephplugin.go:1046-1095 | from every reachable state, over every run in which a snapshot lives, the key it captured stays the same, through re-run captures, rotations and deletes |
| KeyTheorems.DerivedFollowsRoot | internal/cephplugin/cephplugin.go:1038-1065 | in every tree of clones and restores a derived-key volume resolves the key identity of the root it descends from, both from the volume context and from the image metadata, and that key opens its header |
| KeyTheorems.CrashLeaksAtMostOne | internal/cephenc/kms_kmip.go:140-214 | in any state, a crash at any command of a key copy or a rotation adds at most one KMIP object that nothing can name any more |
| KeyTheorems.FailedWriteLeaksAtMostOne | internal/cephenc/kms_kmip.go:123-132 | in every reachable state, a UID write that took effect and was reported failed, in a rotation or a first stage, or an object that a rotation failed to destroy, adds at most one object that nothing can name, and that is the one the volume recorded before or was about to reap |
| KeyProvision.KeepsCreateImage | internal/cephplugin/cephplugin.go:1145-1150 | `rbd create` of a new image keeps the invariant |
| KeyProvision.KeepsRecordKms | internal/cephplugin/cephplugin.go:890-896 | recording the KMS id of a plain create finishes a volume that meets the invariant |
| KeyProvision.KeepsBeginStage | internal/cephenc/kms.go:251-264 | a first stage that finds no key and draws one keeps the invariant, any number of them at once |
| KeyProvision.KeepsStoreKey | internal/cephenc/kms.go:265-277 | so does the store of that key, a step of its own, for all three stored-key providers: create-only for Vault; for the others no second stage may have stored one in between |
| KeyProvision.KeepsLoseStage | internal/cephenc/kms.go:265-276 | a stage may die, or fail, before its store |
| KeyProvision.KeepsRegisterOnly | internal/cephenc/kms_kmip.go:114-122 | a crash between KMIP Register and recording the UID keeps the invariant |
| KeyProvision.KeepsStoreLost | internal/cephenc/kms_kmip.go:123-132 | so does the rollback that destroys an object whose UID was recorded all the same |
| KeyProvision.KeepsFormat | internal/cephplugin/encryption.go:255-290 | luksFormat with the resolved passphrase leaves a header that passphrase opens |
| KeyProvision.KeepsTakeSnapshot | internal/cephplugin/cephplugin.go:1459-1478 | `rbd snap create` with the capture still to come keeps the invariant |
| KeyProvision.KeepsRedo | internal/cephplugin/cephplugin.go:875-889 | a finished snapshot's create, and a finished clone's or restore's, may be replayed at any time |
| KeyProvision.KeepsTempSnapshot | internal/cephplugin/cephplugin.go:1128-1132 | the temporary snapshot of a volume-to-volume clone keeps the invariant |
| KeyProvision.KeepsCloneImage | internal/fakerun/fakerun.go:131-147 | so does the clone, which copies header and metadata of the source, snapshot-qualified keys included |
| KeyProvision.KeepsRestoreImage | internal/cephplugin/cephplugin.go:1100-1110 | and the clone of a finished snapshot |
| KeyInherit.KeepsStep | internal/cephplugin/cephplugin.go:1046-1086 | each single write of inheritEncryption, in a first attempt, a retry or a replay, and a crash before the next, keeps the invariant |
| KeyInherit.KeepsCloneKey | internal/cephenc/kms.go:515-532 | so does the copy of the external key: Vault's create-only write, KMIP's registration, nothing for secrets-metadata |
| KeyInherit.KeepsFinish | internal/cephplugin/cephplugin.go:875-889 | a copy that answers meets the invariant of a finished volume or snapshot |
| KeyRotate.KeepsStart | internal/cephplugin/encryption.go:372-395 | starting a rotation beside any others keeps the invariant |
| KeyRotate.KeepsRead | internal/cephplugin/encryption.go:396-399 | so do its reads of the old passphrase and the old UID, however stale they become |
| KeyRotate.KeepsMintKey | internal/cephenc/kms_kmip.go:191-202 | minting (and registering) the new key |
| KeyRotate.KeepsAddSlot | internal/cephplugin/encryption.go:333-348 | adding its keyslot, authorised by the old passphrase |
| KeyRotate.KeepsAbort | internal/cephenc/kms_kmip.go:203-206 | rolling the new object back when luksAddKey reports a failure |
| KeyRotate.KeepsPersist | internal/cephenc/kms.go:309-312 | persisting it, acknowledged or not, also while copies that hold their key have not answered yet |
| KeyRotate.KeepsReap | internal/cephenc/kms_kmip.go:210-213 | destroying the superseded object, or failing to |
| KeyRotate.KeepsRemoveSlot | internal/cephplugin/encryption.go:352-365 | removing the old keyslot never removes the keyslot of the passphrase that resolves |
| KeyRotate.KeepsDie | internal/cephplugin/encryption.go:372-409 | a rotation may stop at any point |
| KeyDelete.KeepsDeleteSnapshot | internal/cephplugin/cephplugin.go:1507-1517 | `rbd snap rm` keeps the invariant |
| KeyDelete.KeepsDeleteVolume | internal/cephplugin/cephplugin.go:1346-1366 | a volume delete that passed the snapshot guard keeps the invariant |
| KeyDelete.DropKeeps | internal/cephenc/kms_kmip.go:219-233 | deleting a key of a dying volume or snapshot destroys nobody else's |
| KeyDelete.KeepsWipeMeta | internal/cephplugin/cephplugin.go:1518-1527 | a snapshot's descriptor may go key by key, interrupted and restarted anywhere |
| KeyDelete.KeepsRemoveImage | internal/cephplugin/cephplugin.go:1368-1380 | `rbd rm` of the image and its metadata keeps the invariant |
| KeyReap.DeletesReap | internal/cephplugin/cephplugin.go:1507-1527 | from every reachable state, a delete of a volume or snapshot that is interrupted and retried in any way, with any other operations in between, keeps the KMS id recorded until the key is gone, and once it is over the key is gone and no metadata is left; a snapshot's needs its image to outlast it |
| KeyReap.RetryFinishes | internal/cephplugin/cephplugin.go:1511-1527 | wherever a snapshot's delete was interrupted, one undisturbed retry finishes it |
| KeyReap.HalfDeletedHoldsNothing | internal/cephplugin/cephplugin.go:1356-1366 | in every reachable state, a snapshot whose delete stopped after `rbd snap rm` does not hold up its volume: the delete of the volume, and the removal of the image, are open exactly when no other snapshot and no frozen header hangs on the image |
| KeyReap.ImageGoesFirst | internal/cephplugin/cephplugin.go:1356-1366 | in every reachable state, if the removal of the image overtakes a snapshot whose delete stopped half way, the snapshot's Vault entry or KMIP object is left, no volume or snapshot names the object, and the retried delete finds nothing to reap |
| KeyReap.KeyOutlivesImage | internal/cephplugin/cephplugin.go:1356-1380 | a run from the empty cluster that ends with no image, no metadata and that key |
| KeyReap.LostWriteStrandsForGood | internal/cephenc/kms_kmip.go:123-132 | a first KMIP stage whose UID write took effect but was reported failed: in every later run in which the volume is not deleted, no stage resolves a key, mints one or formats it |
| KeyAttempt.AttemptIsRun | internal/cephplugin/cephplugin.go:1038-1096 | the outcome of one undisturbed inheritEncryption, failures included, is that of a run of the machine's commands |
| KeyAttempt.AttemptOutcome | internal/cephplugin/cephplugin.go:1038-1096 | from any state at all and for every provider, an attempt leaves the inherited descriptor on the copy, at most one new Vault entry or KMIP object of the copy's own, everything else as it was, and answers exactly unless Vault has another value in place or the source's object is gone |
| KeyAttempt.CopyOpensIff | internal/cephplugin/cephplugin.go:1038-1096 | from any state, first attempt or retry, derived or stored key: the attempt fails only on another Vault entry in place or a lost KMIP object, and the copy opens its header afterwards if and only if a key is there to inherit when the attempt begins and that key opens it |
| KeyAttempt.KmipCopyOwnsIff | internal/cephenc/kms_kmip.go:140-178 | a KMIP copy ends with an object of its own, holding the source's key, if and only if the source had a UID; otherwise it keeps the UID it was cloned with and is not marked as its owner |
| KeyAttempt.ReplayKeepsIff | internal/cephplugin/cephplugin.go:1030-1096 | in every reachable state, a replayed create leaves a staged volume its provider and its key if and only if what its source records agrees: a volume source never speaks against a copy with a KMS id, a snapshot source must record the copy's KMS id and, under secrets-metadata, the copy's own key |
| KeyAttempt.VolumeReplayAdmitted | internal/cephplugin/cephplugin.go:1030-1096 | the replayed create of a clone with a KMS id is always admitted, with any steps of the inherit handler after it, whatever has become of the source: the promise about replays only concerns restores and derived keys |
| KeyLimits.SharedDeleteDestroys | internal/cephenc/kms_kmip.go:219-233 | deleting a copy that shares a UID takes the key away from the other |
| KeyLimits.KmipSharingReached | internal/cephenc/kms_kmip.go:146-152 | a run from the empty cluster that ends with source and restore recording one UID: snapshot before the first stage, restore after it |
| KeyLimits.CaptureRacesRotation | internal/cephplugin/cephplugin.go:1459-1478 | the documented race as a run from the empty cluster: a rotation persisted between `rbd snap create` and the capture finishes a snapshot whose key cannot open its header |
| KeyLimits.ReplayLosesKey | internal/cephplugin/cephplugin.go:1030-1096 | a run from the empty cluster in which a restore of a secrets-metadata snapshot is rotated, its create replayed, and the snapshot's key put back, which no longer opens it |
| KeyLimits.SourceDeleted | internal/cephplugin/cephplugin.go:1030-1096 | a run in which the source of an unfinished Vault clone is deleted and the retried create answers a volume that resolves no key |
| KeyLimits.SourceRecreated | internal/cephplugin/cephplugin.go:1069-1077 | a run in which the source of an unfinished derived-key clone is recreated under a KMS id and the clone takes that id over |
| KeyLimits.NameReuseCapturesStaleKey | internal/cephplugin/cephplugin.go:490-502 | a run in which a restore is rotated and then snapshotted under a name of its source's snapshots: the snapshot keeps the key found in the metadata librbd copied, which does not open its header |
| KeyLimits.OverlappingStages | internal/cephenc/kms.go:251-277 | a run in which two first stages overlap under secrets-metadata: one formats, the other then overwrites the stored key |
| KeyStage.StoreOpensIff | internal/cephenc/kms.go:251-277 | in every reachable state, the store of a first stage, however late, leaves its finished volume openable if and only if the volume is not formatted yet, the provider's write is create-only, or the volume records another provider by now; on a formatted volume of the stage's provider that is exactly what the callers are trusted with |
| KeyStage.RunPending | internal/cephenc/kms.go:251-264 | every admitted run keeps that the key a first stage has drawn and not stored is in no header, store, rotation or other stage |
| KeyLimits.StageOutlivesVolume | internal/cephenc/kms_kmip.go:114-123 | a run in which a KMIP volume is deleted between the read and the store of its first stage, and an object is left that nothing names |
| KeyLimits.RotationOutlivesVolume | internal/cephplugin/encryption.go:396-409 | a run in which a Vault volume is deleted and recreated under a rotation that then writes its key over the new volume's |
| KeyHandlers.RotationIsRun | internal/cephplugin/encryption.go:372-409 | the outcome of one undisturbed RotateEncryptionKey, in all its branches, is that of a run of the machine's commands, each enabled when it is issued |
| KeyHandlers.RotationSucceeds | internal/cephplugin/encryption.go:372-409 | in every reachable state, rotating a staged stored-key volume succeeds: a fresh key resolves, the header has it in place of the old one, a KMIP volume's old object is gone for one new one, and no other volume's or snapshot's key or header changes |
| KeyHandlers.RotationAnswersIff | internal/cephplugin/encryption.go:372-409 | in every reachable state, rotating a volume whose create has answered succeeds if and only if it records a KMS id and is formatted; a derived key is refused with nothing changed |
| KeyHandlers.RotatesIff | internal/cephenc/registry.go:195-210 | in any state, a rotation succeeds exactly if a KMS id is recorded and the key stored under it opens the header; one that the stored key does not authorise leaves nothing behind |
| KeyHandlers.RotatedOn | internal/cephplugin/encryption.go:372-409 | what the handler does to the stored state is what the run does to it, whatever else is in flight |
| KeyHandlers.AttemptOn | internal/cephplugin/cephplugin.go:1038-1096 | likewise for inheritEncryption and its answer |
| KeyHandlers.ResolvedIsRun | internal/cephenc/kms.go:251-277 | a passphrase call that finds no key is two commands of the machine, each enabled, whether its write works, fails, or takes effect and is reported failed |
| KeyHandlers.Plugin.Passphrase | internal/cephenc/registry.go:154-163 | answers with the stored key, or mints and stores one; no answer exactly if nothing was stored and the write failed, or KMIP's was reported failed |
| KeyHandlers.Plugin.WrappedPassphrase | internal/cephenc/kms.go:240-278 | secrets-metadata: a write reported failed is read back and what it left preferred |
| KeyHandlers.Plugin.EntryPassphrase | internal/cephenc/kms.go:488-508 | Vault: the same with the entry |
| KeyHandlers.Plugin.ObjectPassphrase | internal/cephenc/kms_kmip.go:98-134 | KMIP: a write reported failed destroys the object registered, whether or not its UID was recorded |
| KeyHandlers.Plugin.LuksAddKey | internal/cephplugin/encryption.go:333-348 | adds the keyslot exactly when the old passphrase opens the header |
| KeyHandlers.Plugin.RotateWrapped | internal/cephenc/kms.go:291-313 | secrets-metadata: succeeds exactly when the header takes the key, and only then replaces the wrapped key |
| KeyHandlers.Plugin.RotateVault | internal/cephenc/kms.go:539-548 | Vault: the same with the entry overwritten |
| KeyHandlers.Plugin.RotateKmip | internal/cephenc/kms_kmip.go:185-214 | KMIP: the same with the UID moved to the new object and the old one destroyed; a refused key leaves no object behind |
| KeyHandlers.Plugin.RotateKey | internal/cephenc/registry.go:195-212 | the registry's choice of provider meets their common outcome |
| KeyHandlers.Plugin.RotateEncryptionKey | internal/cephplugin/encryption.go:372-409 | a volume with a derived key is refused and nothing changes; else the call succeeds exactly if the stored key opens the header, an attempt that fails on a stored key changes nothing but the counter, and the stored state afterwards is the stated outcome |
| KeyHandlers.Plugin.InheritKeyId | internal/cephplugin/cephplugin.go:1046-1065 | read in turn, a snapshot source before the copy and the copy before any other source, then the other, then the source itself, and written on the copy: the identity the machine inherits |
| KeyHandlers.Plugin.InheritKms | internal/cephplugin/cephplugin.go:1069-1077 | the KMS id read in the same order, and nothing written when there is none: the id the machine inherits |
| KeyHandlers.Plugin.InheritDek | internal/cephplugin/cephplugin.go:1078-1086 | the wrapped key likewise |
| KeyHandlers.Plugin.CloneEntry | internal/cephenc/kms.go:515-532 | a create-only copy: fails exactly if the copy has an entry other than its source's; after success the copy has its source's entry if there is one, and no entry that was there changes |
| KeyHandlers.Plugin.CloneObject | internal/cephenc/kms_kmip.go:140-178 | fails exactly if the source's object is gone before the copy owns one; else the copy ends owning a new object with the source's key, and nothing changes if the source records none or the copy owns one already |
| KeyHandlers.Plugin.CloneKey | internal/cephenc/registry.go:178-187 | the registry's choice; other providers have nothing to copy |
| KeyHandlers.Plugin.InheritEncryption | internal/cephplugin/cephplugin.go:1038-1096 | the stored state and the answer are those that AttemptOn ties to the machine |
| FirstStage.OnePassphrase | internal/cephenc/kms.go:488-508 | Vault: under any number of concurrent first stages, with reads that fail and writes that are refused, lost or unacknowledged, all successful calls answer with one passphrase, the stored one |
| FirstStage.AgreementKept | internal/cephenc/kms.go:633-652 | a create-only store never changes an entry, and every answer given stays the stored key |
| FirstStage.NeverFails | internal/cephenc/kms.go:488-508 | from the moment an entry is there, a call whose reads work never fails, whatever the other callers do and however its own write ends |
| FirstStage.StoredEndsAnswered | internal/cephenc/kms.go:488-508 | and after any such steps the rest of the call ends answered, with the stored key |
| FirstStage.FirstCallAnswersIff | internal/cephenc/kms.go:488-508 | an undisturbed call that finds nothing answers with the key it drew, which is then stored, exactly if its write took effect |
| FirstStage.OverwritingDisagrees | internal/cephenc/kms.go:251-277 | with overwriting writes, as secrets-metadata and KMIP make them, two first stages can answer differently |
| FirstStage.OneDataKey | internal/cephenc/kms.go:240-278 | secrets-metadata: over any sequence of calls, with failed reads and unacknowledged writes that did or did not take effect, all successful calls answer with one passphrase |
| FirstStage.AnswersFrom | internal/cephenc/kms.go:240-278 | over any sequence of calls, the key of the first call whose write takes effect is the answer of every later call whose read works, and that call's own if it learns of its write; no earlier call answers |
| FirstStage.NothingStoredNoAnswer | internal/cephenc/kms.go:240-278 | and if no write takes effect, no call answers |
| FirstStage.MetadataEntry.Passphrase | internal/cephenc/kms.go:240-278 | answers exactly if the read works and the stored key is wrapped under this master key, or nothing is stored and the write is acknowledged or took effect and the re-read works; the answer is what the entry left behind unwraps to, and a stored entry is never replaced |
| Rbd.Runner.constructor | internal/fakerun/fakerun.go:45-60 | an empty cluster |
| Rbd.Runner.RbdInfo | internal/fakerun/fakerun.go:105-118 | size and parent of an image that exists, nothing otherwise |
| Rbd.Runner.RbdCreate | internal/fakerun/fakerun.go:128-130 | sets the image's size and nothing else |
| Rbd.Runner.RbdResize | internal/fakerun/fakerun.go:177-179 | likewise |
| Rbd.Runner.RbdClone | internal/fakerun/fakerun.go:131-147 | the parent's size, its metadata over the child's, and a parent link |
| Rbd.Overlay | internal/fakerun/fakerun.go:139-143 | copying key by key is the map union |
| Rbd.Runner.HasCloneChildren | internal/fakerun/fakerun.go:325-332 | true exactly if some clone names the image as parent |
| Rbd.Runner.ReleaseTrashedSnaps | internal/fakerun/fakerun.go:336-345 | drops exactly the image's trashed snapshots, and only when it has no clones |
| Rbd.Runner.RbdFlatten | internal/fakerun/fakerun.go:148-154 | severs the link and releases the former parent's trash |
| Rbd.Runner.RbdRm | internal/fakerun/fakerun.go:155-176 | refused for a missing image, live snapshots or trashed ones, in that order; else the image and its link go |
| Rbd.Runner.RbdSnapCreate | internal/fakerun/fakerun.go:288-289 | adds the snapshot |
| Rbd.Runner.RbdSnapRm | internal/fakerun/fakerun.go:290-300 | a live snapshot goes, to the trash exactly when its image has clones |
| Rbd.Runner.RbdMetaSet | internal/fakerun/fakerun.go:227-229 | one key of one image |
| Rbd.FlattenSound | internal/fakerun/fakerun.go:148-154 | flatten keeps the cluster sound: no dangling parent, an image with clones has a snapshot that blocks its removal, trash only under clones |
| Rbd.RmSound | internal/fakerun/fakerun.go:155-176 | so does rm |
| Rbd.SnapRmSound | internal/fakerun/fakerun.go:290-300 | so does snap rm |
| Rbd.CloneSound | internal/fakerun/fakerun.go:131-147 | so does a clone of a live snapshot into a new image |
| Rbd.CreateSound | internal/fakerun/fakerun.go:128-130 | so does create |
| Rbd.SnapCreateSound | internal/fakerun/fakerun.go:288-289 | so does snap create |
| CloneRecipe.CreateVolume | internal/cephplugin/cephplugin.go:789-861 | succeeds exactly if the target is there unstamped or with this source's stamp, or is not there and the source is; a refused call changes nothing, a new target carries the request's stamp, and the size reported is the image's real one, at least the one asked for; the cluster is the one the recipe's commands lead to |
| CloneRecipe.AttemptAnswers | internal/cephplugin/cephplugin.go:789-861 | the same of every attempt from every cluster |
| CloneRecipe.OtherSourceRefused | internal/cephplugin/cephplugin.go:796-803 | once a create of an absent target has answered, over every run of attempts of that request, crashed or not, a request for the target succeeds exactly if it names the same source; any other is refused and changes nothing |
| CloneRecipe.FinishCreate | internal/cephplugin/cephplugin.go:826-861 | the part shared by the fresh and the resumed path: size reconciled, temporary snapshot dropped |
| CloneRecipe.RunFits | internal/cephplugin/cephplugin.go:1120-1144 | every run of commands, crashes and landing flattens leaves the start state plus an explicitly described partial result |
| CloneRecipe.Converges | internal/cephplugin/cephplugin.go:789-861 | after any crashes, unless they leave a foreign stamp, one undisturbed attempt answers with the target at the larger of source and requested size, the temporary snapshot not live and the flatten scheduled; once that lands, the cluster is the start state plus an independent copy and nothing else, stamped exactly if no crash came between the clone and the stamp |
| CloneRecipe.RetryFits | internal/cephplugin/cephplugin.go:1120-1141 | whether the target ends with the stamp of the request is decided by the events: it does unless the first attempt to clone crashed right before stamping |
| CloneRecipe.AnswersIff | internal/cephplugin/cephplugin.go:800-803 | after any crashes the next undisturbed attempt answers if and only if the target ends stamped or the source carries no foreign stamp |
| CloneRecipe.Idempotent | internal/cephplugin/cephplugin.go:793-821 | attempts after the one that answered change nothing |
| CloneRecipe.Wedges | internal/cephplugin/cephplugin.go:1133-1141 | with a foreign stamp on the source, a crash between clone and stamp makes every later attempt refuse and leaves the temporary snapshot live |
| CloneRecipe.ConvergesIff | internal/cephplugin/cephplugin.go:800-803 | every crash point converges if and only if the source carries no stamp of its own that differs from the request's |
| CowChain.CloneDepth | internal/cephplugin/cephplugin.go:598-615 | the loop computes the bounded walk |
| CowChain.FlattenIfDeep | internal/cephplugin/cephplugin.go:623-647 | flattens exactly when the decision says so and changes nothing else |
| CowChain.WalkMeasures | internal/cephplugin/cephplugin.go:598-615 | the walk reports the true depth up to its bound, and an obscured chain as obscured or at the bound |
| CowChain.WalkEndsAt | internal/cephplugin/cephplugin.go:598-615 | what the walk answers by the layer that ends it: the depth of the top, an error at an image that cannot be read, one more layer and not exact below a trashed parent, 65 beyond |
| CowChain.FlattensExactly | internal/cephplugin/cephplugin.go:623-640 | for limits up to 65 a clone is flattened if and only if the limit is positive and its true depth reaches it or an ancestor is trashed or unreadable |
| CowChain.DecidesIff | internal/cephplugin/cephplugin.go:598-640 | the decision agrees with the true depth on every chain if and only if the limit is at most 65 |
| CowChain.HighLimitNeverFlattens | internal/cephplugin/cephplugin.go:600-614 | a larger limit never flattens a readable chain, however deep |
| CowChain.BackgroundFlatten | internal/cephplugin/cephplugin.go:649-731 | an uninterrupted background flatten cuts the link exactly if the true depth reaches the limit or cannot be known, and is then no longer due |
| CowChain.TrashedParentFlattens | internal/cephplugin/cephplugin.go:625-640 | a clone whose parent is moved to the trash first is cut loose whatever its depth |
| CowChain.StepKeeps | internal/cephplugin/cephplugin.go:678-731 | create, snapshot, restore, background flatten, delete and trash moves keep links acyclic, grounded and settled images below the limit |
| CowChain.RunKeeps | internal/cephplugin/cephplugin.go:678-731 | so does every run, with walks and flattens interleaved |
| CowChain.ChainsStayBounded | internal/cephplugin/cephplugin.go:678-731 | in every reachable state an image's chain is shorter than the limit plus the clones directly on it whose flatten is still due, and its parent exists |
| DeleteVolume.Driver.DeleteVolume | internal/cephplugin/cephplugin.go:1333-1381 | on a sound cluster, a static image is kept and answers success, one with live snapshots is refused, after success the image is gone, and in every other case the cluster is untouched; the new state is the stated one |
| DeleteVolume.AnsweredIff | internal/cephplugin/cephplugin.go:1333-1381 | each of the four answers by its own condition on the static mark, the live snapshots and the clones of the image |
| DeleteVolume.Driver.FlattenChildren | internal/cephplugin/cephplugin.go:1387-1407 | schedules a flatten of every clone of the image, and of nothing else |
| DeleteVolume.Driver.Land | internal/cephplugin/cephplugin.go:708-721 | a background flatten that lands |
| DeleteVolume.BlockedDeleteConverges | internal/cephplugin/cephplugin.go:1368-1407 | a delete blocked by linked clones schedules a flatten for each, and after any retries and landings in any order the next delete succeeds if and only if all of those have landed, the others staying scheduled; neighbours keep sizes, snapshots and metadata |
| DeleteVolume.RefusedUnaltered | internal/cephplugin/cephplugin.go:1333-1366 | a static image or one with live snapshots is not altered; a stored key is destroyed exactly when the image is neither; the image goes exactly when no snapshot, live or trashed, holds it either; no other image changes |
| DeleteVolume.RefusedForGood | internal/cephplugin/cephplugin.go:1333-1366 | over every run of retries and landing flattens, a static image answers success and one with live snapshots the error, and images, snapshots, metadata and keys stay as they were |
| SnapshotIndex.Backend.constructor | internal/cephplugin/cephplugin.go:243-254 | an empty index |
| SnapshotIndex.Backend.CreateSnapshot | internal/cephplugin/cephplugin.go:1440-1451 | succeeds exactly if the name is free or bound to this source, then name and handle are bound; else nothing changes |
| SnapshotIndex.Backend.DeleteSnapshot | internal/cephplugin/cephplugin.go:1528-1534 | frees the name its handle stands for |
| SnapshotIndex.RefKeyInjective | internal/cephplugin/cephplugin.go:343-345 | a reference is read back from its key in one way |
| SnapshotIndex.SnapRefKey | internal/cephplugin/cephplugin.go:1450 | a snapshot's handle key is its source's key with the snapshot name appended |
| SnapshotIndex.HandleKeyInjective | internal/cephplugin/cephplugin.go:302-305 | source and CSI name are read back from a handle key in one way |
| SnapshotIndex.RunInverse | internal/cephplugin/cephplugin.go:1440-1451 | with one name prefix the two maps stay mutually inverse over every run |
| SnapshotIndex.NameFreedByItsHandle | internal/cephplugin/cephplugin.go:1528-1534 | in every run a call binds only a free name and frees a name only by deleting exactly the handle of its binding |
| SnapshotIndex.StaysBound | internal/cephplugin/cephplugin.go:1444-1451 | a name keeps its source until that handle is deleted |
| SnapshotIndex.NameBelongsToSource | internal/cephplugin/cephplugin.go:1440-1451 | whatever happened before, a free name once bound is refused to every other source and given to its own again, with nothing changed, until its handle is deleted; then it is free for any |
| SnapshotIndex.TwoPrefixes | internal/cephplugin/cephplugin.go:1433-1451 | with two prefixes a retried create has two handles, and deleting one frees the name while the other stands |
| MetaAddress.MetaAddrInjective | internal/cephplugin/cephplugin.go:497-502 | distinct volumes, snapshots or keys have distinct addresses, for every key without '@' |
| MetaAddress.QualifiedKeyCollides | internal/cephplugin/cephplugin.go:497-502 | a key that holds '@' collides with a snapshot's |
| MetaAddress.WriteTouchesOne | internal/cephplugin/cephplugin.go:505-533 | a write is read back at its own volume or snapshot and key and nowhere else |
| VolumeId.ParseEncode | internal/volumeid/volumeid.go:64-84 | parsing the encoding of a valid handle gives it back |
| VolumeId.EncodeParse | internal/volumeid/volumeid.go:69-84 | an accepted id is exactly the encoding of the valid handle it decodes to |
| VolumeId.AcceptedIff | internal/volumeid/volumeid.go:48-84 | the accepted ids are exactly the encodings of valid handles |
| VolumeId.AcceptedForm | internal/volumeid/volumeid.go:18-84 | written out: at most 128 characters, magic, version and four fields without separator, the location alone possibly empty, and those fields are what is read |
| Pagination.AtoiItoa | internal/driver/controller.go:617-633 | the decimal token round trip |
| Pagination.AtoiReads | internal/driver/controller.go:617-626 | digits with or without a sign are read as their value within a 64-bit int |
| Pagination.RefusedIff | internal/driver/controller.go:617-626 | a token is refused exactly if it is neither empty nor a number from 0 to the length of the list |
| Pagination.PageIs | internal/driver/controller.go:617-636 | a page is the entries from its token to the next, which is accepted and lies strictly ahead; it is as long as asked for unless fewer are left or no length is asked for, and then it is the last |
| Pagination.ListsEverythingOnce | internal/driver/controller.go:617-636 | whatever page sizes are asked for, following the tokens ends and returns the whole list once, in order |
| LunAllocator.LowestUnused | internal/iscsiplugin/targetd.go:417-420 | the lowest unused number, at most the number of used ones |
| LunAllocator.Target.GrantAccess | internal/iscsiplugin/targetd.go:388-427 | an existing export of this name to this initiator answers its LUN and changes nothing; otherwise one export is added on the initiator's lowest free LUN |
| LunAllocator.Target.RevokeAccess | internal/iscsiplugin/targetd.go:431-440 | exactly this volume's export to this initiator goes and the others keep their order; one already gone is success |
| LunAllocator.Target.VolDestroy | internal/iscsiplugin/targetd.go:310-314 | refused exactly while an export of the volume is left |
| LunAllocator.Target.DeleteVolume | internal/iscsiplugin/targetd.go:297-315 | revoking each listed export of the volume leaves the list without them, so the volume can be and is destroyed |
| LunAllocator.DeleteClears | internal/iscsiplugin/targetd.go:297-310 | after a delete the volume has no export, and every other export is as it was |
| LunAllocator.GrantKeeps | internal/iscsiplugin/targetd.go:388-427 | a grant keeps every initiator's LUNs and volume names distinct |
| LunAllocator.RevokeKeeps | internal/iscsiplugin/targetd.go:431-440 | so does a revoke |
| LunAllocator.RunKeeps | internal/iscsiplugin/targetd.go:388-440 | so does every run of calls |
| LunAllocator.NewLunBounded | internal/iscsiplugin/targetd.go:407-420 | a new LUN is at most the number of the initiator's other exports |
| LunAllocator.NewLunInterleaved | internal/iscsiplugin/targetd.go:407-426 | so in every interleaving, at the moment it is committed, and no export of the initiator is on it |
| LunAllocator.SameLunUntilRevoked | internal/iscsiplugin/targetd.go:408-416 | over every run, a repeated grant answers the same LUN and changes nothing until that export is revoked |
| LunAllocator.SameLunInterleaved | internal/iscsiplugin/targetd.go:408-416 | in every interleaving of any number of callers, a second thread that grants the same volume to the same initiator answers the first one's LUN and adds nothing, unless some thread commits a revoke in between |
| LunAllocator.StepsAreCalls | internal/iscsiplugin/targetd.go:120-130 | under the mutex every interleaved step of any number of callers is no change or one whole call |
| LunAllocator.EventIsCall | internal/iscsiplugin/targetd.go:388-440 | in every interleaving a commit is one whole call whose LUN is its thread's answer, and no other step touches the exports |
| LunAllocator.Linearizes | internal/iscsiplugin/targetd.go:388-440 | so every interleaving is a sequence of whole calls, in the order of their commits |
| LunAllocator.InterleavingsKeep | internal/iscsiplugin/targetd.go:388-440 | so in every interleaving, with callers failing anywhere, no initiator sees two exports on one LUN or one name twice |
| LunAllocator.UnlockedGrantsCollide | internal/iscsiplugin/targetd.go:107-118 | without the mutex two grants that read the same list collide |
| LunAllocator.AnswersOwnVolumeIff | internal/iscsiplugin/targetd.go:408-416 | the answered LUN belongs to the volume asked for if and only if the initiator holds no export of that name from another pool |
| LunAllocator.OtherPoolAnswered | internal/iscsiplugin/targetd.go:408-416 | two pools with one volume name: the second grant answers the first pool's export |
| SharedSession.NodePlugin.OtherRecords | internal/iscsiplugin/iscsiplugin.go:1106-1143 | counts exactly the parsable records of the target, the excluded one left out; non-zero exactly if another staged volume shares it |
| SharedSession.NodePlugin.NodeStage | internal/iscsiplugin/iscsiplugin.go:1304-1346 | succeeds exactly if the device appears and, where another record names the target, its session is up; then session, device and record are there; a failed one leaves no record, a login staying up |
| SharedSession.NodePlugin.NodeUnstage | internal/iscsiplugin/iscsiplugin.go:1567-1622 | fails, with nothing changed, exactly if the recorded device is gone already and others share the target; else the record goes, the session goes exactly if no other record names the target, the device goes with it, and devices of other targets stay |
| SharedSession.StepKeeps | internal/iscsiplugin/iscsiplugin.go:1074-1094 | the per-target lock keeps every count true while its holder is inside, over interleaved stages, unstages and crashes |
| SharedSession.RunKeeps | internal/iscsiplugin/iscsiplugin.go:1074-1094 | so does every run |
| SharedSession.NeverPulled | internal/iscsiplugin/iscsiplugin.go:1567-1622 | in every run, crashes included, a session goes down only in an unstage, and only if no other record names its target and no stage is about to |
| SharedSession.LastUnstageLogsOut | internal/iscsiplugin/iscsiplugin.go:1567-1622 | in every run, crashes and failed stages included, the unstage that removes the last record of a target leaves its session down: no final logout is skipped |
| SharedSession.CalmRunExact | internal/iscsiplugin/iscsiplugin.go:1304-1346 | while no handler of a target dies between its change and its record, and no first login is left without its device, the target's session and devices stay exactly those of its volumes in service, whatever happens on other targets |
| SharedSession.TargetMatchesRecords | internal/iscsiplugin/iscsiplugin.go:1567-1622 | under that condition on the target's own handlers, once they are done its session is up exactly if some record names it, and its devices are those of its records |
| SharedSession.SessionsMatchRecords | internal/iscsiplugin/iscsiplugin.go:1567-1622 | if that condition holds of every target, once all handlers are done the sessions up are exactly those some record names and the devices those of the records |
| SharedSession.PullsIff | internal/iscsiplugin/iscsiplugin.go:1340-1346 | an unstage spares every other volume's session if and only if another record shares the target or no stage stands between its unlock and its record |
| SharedSession.LateRecordLosesSession | internal/iscsiplugin/iscsiplugin.go:1340-1346 | the code's own steps reach a recorded volume without a session when an unstage runs in that window |
| SharedSession.StuckFails | internal/iscsiplugin/iscsiplugin.go:1573-1593 | an unstage of a recorded volume whose device is gone, while others share the target, fails and leaves the node as it was |
| SharedSession.CrashedDetachIsStuck | internal/iscsiplugin/iscsiplugin.go:1573-1593 | over every run in which another record shares the target and the volume is not staged again, crashes included, such a volume stays so |
| SharedSession.CrashedDetachReached | internal/iscsiplugin/iscsiplugin.go:1573-1593 | the code's own steps reach such a volume, by a crash between detach and record |
| SharedSession.TargetIqnInjective | internal/iscsiplugin/iscsiplugin.go:296 | one target per volume |
| SharedSession.LocalModePlain | internal/iscsiplugin/iscsiplugin.go:1567-1600 | so in local mode an unstage is a plain logout of that volume alone |
| Config.AddCluster | internal/config/crd.go:69-102 | adding a resource succeeds exactly if the resources so far and it are compatible, and then the result says exactly what they say |
| Config.FromBackendClusters | internal/config/crd.go:64-107 | accepts exactly the non-empty, zoned, pairwise compatible sets and describes them exactly, each resource under the instance it gives, else under its name |
| Config.ConfiguredUnder | internal/config/crd.go:53-58 | a resource is configured with its zone under its instance, or its name if it gives none, and there is no other instance |
| Config.ValidatesIff | internal/config/config.go:70-85 | a folded configuration validates exactly if there is a resource and every one has a zone |
| Config.OrderIrrelevant | internal/config/crd.go:60-107 | every ordering of the resources is accepted or refused alike and gives one configuration |
| Dispatch.IndexZones | internal/dispatch/dispatch.go:51-57 | succeeds exactly if the zones are distinct, and then gives their exact inverse |
| Dispatch.New | internal/dispatch/dispatch.go:48-61 | succeeds exactly if zones are distinct per backend, and indexes the exact inverse of each |
| Dispatch.FirstServedIs | internal/dispatch/dispatch.go:103-112 | the search finds the earliest served zone, and finds one exactly if there is one |
| Dispatch.ResolvesIff | internal/dispatch/dispatch.go:90-128 | a request is dispatched if and only if its backend has instances and a named zone is served, a default is set, or there is one instance |
| Dispatch.ResolvedServes | internal/dispatch/dispatch.go:90-128 | the instance chosen serves the zone reported: the earliest served preferred zone, else requisite zone, else the default, else the only instance; each decision exactly in its case |
| Dispatch.PredictsBackend | internal/inspect/checks.go:358-369 | for a configured backend the scanner's prediction is the dispatcher's answer |
| Dispatch.PredictsIff | internal/inspect/checks.go:356-369 | prediction and dispatcher agree on every backend and zone if and only if no backend has an empty name and every default belongs to a configured backend |
| Dispatch.FoldedPredicts | internal/inspect/checks.go:356-369 | configurations folded from resources always meet that condition |
| Inspect.CollectBackendTruth | internal/inspect/collect.go:186-227 | asks the backends in order and collects their answers for volumes and snapshots, with a finding for each listing that failed |
| Inspect.TruthSorts | internal/inspect/collect.go:202-226 | every backend ends up listed with exactly its entries, unlisted, or with a finding that says its listing failed, for volumes and independently for snapshots |
| Inspect.SkipsAreFailures | internal/inspect/collect.go:202-226 | there is no finding but of a listing that failed, at severity skip and with its backend |
| Inspect.SkipsCountFailures | internal/inspect/collect.go:202-226 | and as many as listings failed |
| Inspect.GhostCandidates | internal/inspect/collect.go:159-182 | the handles of the Bard volumes their listed backend lacks, in order |
| Inspect.ProbeGhostCandidates | internal/inspect/collect.go:128-153 | records for every candidate the outcome of its probe, and nothing else |
| Inspect.ProbedExactly | internal/inspect/collect.go:128-153 | the probed handles are exactly those of missing volumes whose backend has a client and a probe |
| Inspect.MissingInstances | internal/inspect/checks.go:15-31 | the keys of exactly the instances some probe found unknown |
| Inspect.MissingKeyIff | internal/inspect/checks.go:15-31 | a valid handle's instance is among them exactly if a probe on that backend and instance said so |
| Inspect.MissingInstanceFindings | internal/inspect/checks.go:37-49 | the findings of the keys, in the order of the keys |
| Inspect.CutOnce | internal/inspect/checks.go:37-49 | one finding for each key, cut back into backend and instance, and no other |
| Inspect.JoinPvs | internal/inspect/checks.go:57-127 | the findings per volume in order, the handles referenced, and the unverifiable volumes counted per backend |
| Inspect.Orphans | internal/inspect/checks.go:129-142 | the orphans backend by backend in order, within each in the order listed |
| Inspect.OrphansInCount | internal/inspect/checks.go:129-142 | each listed entry without a reference, as often as it is listed |
| Inspect.UnverifiableFindings | internal/inspect/checks.go:144-150 | the counts backend by backend in order |
| Inspect.UnverifiableOnce | internal/inspect/checks.go:144-150 | one finding with the count per backend that has any, and no other |
| Inspect.CheckVolumes | internal/inspect/checks.go:54-152 | the findings of the volumes, then of the orphans, then of what cannot be verified, in that order; with distinct names, a volume is reported for its instance once exactly if it is Bard's and its handle encodes a backend or instance that is not configured, and as unparseable once exactly if it is Bard's and its handle encodes nothing, and then for nothing else |
| Inspect.HandleReported | internal/inspect/checks.go:70-90 | the same of the joined findings of every state |
| Inspect.JoinedCount | internal/inspect/checks.go:54-152 | every finding exactly as often as the join says |
| Inspect.Check | internal/inspect/inspect.go:208-231 | the report is the stable sort of all findings in the order the checks bring them up, the other checks' among them, none lost or added, errors before everything else |
| Inspect.ReportedOnce | internal/inspect/checks.go:54-127 | a Bard volume missing from a successful list is reported in exactly one of three ways (invisible instance, dropped from the list, ghost), each with its condition; any other volume in none of the last two |
| Inspect.ProbesDecide | internal/inspect/collect.go:128-153 | by what the plugins answer: if a plugin does not know the instance of some missing volume, its missing volumes are reported as that instance; else one it finds in order is reported as dropped from the list, and any other, not found, abnormal, failing or without a probe, as a ghost |
| Inspect.UnverifiableReported | internal/inspect/checks.go:144-150 | a backend that cannot list is reported once, with the number of Bard volumes on it, exactly if there are any |
| Inspect.OrphanedIff | internal/inspect/checks.go:129-142 | a listed volume is an orphan, once per entry, exactly if no Bard volume references it |
| Report.SortStable | internal/inspect/inspect.go:221-230 | insertion gives the same findings, sorted by severity, check and resource, ties in their given order |
| Report.SevereFirst | internal/inspect/inspect.go:221-230 | errors come before warnings, warnings before information, skipped checks last; ghosts, unknown and missing instances are errors, orphans, unparseable handles and dropped entries warnings |
| Report.ChecksInOrder | internal/inspect/inspect.go:225-229 | within a severity the checks come in the order of their names: ghosts, missing instances, unknown instances; dropped entries, orphans, unparseable handles |
| Report.SortedKeys | internal/inspect/checks.go:412-419 | each key once, in ascending order |
| Report.OrderUnique | internal/inspect/checks.go:412-419 | there is only one such list, whatever order the map is read in |
| Report.StableUnique | internal/inspect/inspect.go:221-230 | there is only one such order |
| Report.LeqTransitive | internal/inspect/inspect.go:221-230 | the comparison is transitive |
| Report.LeqTotal | internal/inspect/inspect.go:221-230 | and total |

## Left out

- Real command execution, error-text classification, JSON, XML and temporary key files: commands succeed, report absent or existing, or fail.
- Vault, KMIP, AWS and Azure wire code, TLS, token caches and cryptography: only get, put, create-only put, register and destroy remain.
- AWS KMS, whose transitions are those of secrets-metadata, and Azure Key Vault, whose key copy overwrites.
- An explicit passphrase secret, which bypasses the providers, and a restore that names another KMS id than its source's: the passphrase that resolves is the one of the recorded KMS id.
- fscrypt, mkfs, mount, dm-multipath, device polling, device records across reboots and the rbd-nbd healer.
- CephFS, NFS and LVM plugins, mirroring, fencing, volume groups, gRPC plumbing, metrics, the Kubernetes API and the command-line programs.
- The reads of one inherited field are one step with the write they feed; a rotation that persists between them is excluded by `Admitted` like one between freeze and capture. A stage's read of the stored key and its luksFormat are one step, too.
- The replay of a plain create, which records the same KMS id once more, is no step.
- A create counts as finished once its answer has arrived; an answer that is lost is a crash before the last step.
- Deleting a snapshot whose create never finished.
- The key plane's interleavings are steps on values; the class of `KeyHandlers` runs one handler at a time.
- DeleteVolume.Driver.FlattenChildren: clones that an administrator has moved to the rbd trash, which the code skips, do not exist in the in-memory cluster the model follows.
- A delete of the targetd manager is a list and single revokes; only the revokes are steps of the interleaved allocator.
- The wording of findings: their check, severity, backend and resource are kept, and their text only where a listing failed.
- The checks of snapshots, topology and attachments enter the report as given findings.
- LunAllocator.Target.RevokeAccess: the export list is the foreign service's, so its removal is stated as the service documents it.
