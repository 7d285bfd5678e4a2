/**
 What the promises of `Admitted` are for: for each, a run from the empty cluster that breaks it and
 ends with a volume or snapshot that does not open, with a KMIP object that two volumes record, or
 with a key that nothing names.
 */
module KeyLimits {
  import opened Options
  import opened KeyPlane
  import opened KeyInvariant
  import opened KeyFrame
  import opened KeyAttempt
  import H = KeyHandlers

  const V := "v"
  const S := "s"
  const X := "x"

  // ---- whole operations, run without a break ---------------------------------

  function Making(v: string, kms: Kms): seq<Action> { [DoProvision(CreateImage(v, kms)), DoProvision(RecordKms(v))] }

  /** `w` with a new volume `v` under `kms`, never staged. */
  function Made(w: World, v: string, kms: Kms): World {
    w.(meta := w.meta[v := Meta(BLANK.(kms := kms), map[])], slots := w.slots[Vol(v) := {}],
        ready := w.ready + {Vol(v)},
       ctx := w.ctx - {v}, root := w.root[Vol(v) := Vol(v)])
  }

  lemma ImageCreated(w: World, v: string, kms: Kms)
    requires Vol(v) !in w.slots && Vol(v) !in w.jobs
    ensures Next(w, DoProvision(CreateImage(v, kms))) == CreateImageStep(w, v, kms)
  {}

  lemma KmsRecorded(w: World, v: string, kms: Kms)
    requires Vol(v) !in w.jobs
    ensures Next(CreateImageStep(w, v, kms), DoProvision(RecordKms(v))) == Made(w, v, kms)
  {
    var w1 := CreateImageStep(w, v, kms);
    assert DescOf(w1, Vol(v)) == BLANK && w1.jobs - {Vol(v)} == w.jobs;
    assert PutMeta(w1, Vol(v), BLANK.(kms := kms)) == Made(w, v, kms).meta;
  }

  lemma MakeRun(w: World, v: string, kms: Kms)
    requires Vol(v) !in w.slots && Vol(v) !in w.jobs
    ensures Exec(w, Making(v, kms)) == Made(w, v, kms)
  {
    hide Next, Exec;
    ImageCreated(w, v, kms);
    KmsRecorded(w, v, kms);
    assert Making(v, kms) == [DoProvision(CreateImage(v, kms)), DoProvision(RecordKms(v))] + [];
    Unroll2(w, DoProvision(CreateImage(v, kms)), DoProvision(RecordKms(v)), []);
    NothingRun(Made(w, v, kms));
  }

  function Staging(v: string): seq<Action> {
    [DoProvision(BeginStage(0, v)), DoProvision(StoreKey(0))] + ([DoProvision(Format(v))] + [])
  }

  /** `w` with the unformatted volume `v` staged for the first time. */
  ghost function Opened(w: World, v: string): World {
    var w1 := H.Resolved(w, v, H.Works);
    w1.(slots := w1.slots[Vol(v) := {Random(w.next)}])
  }

  lemma FormatRun(w: World, v: string, p: Pass)
    requires CanProvision(w, Format(v)) && StagePass(w, v) == Some(p)
    ensures Exec(w, [DoProvision(Format(v))] + []) == w.(slots := w.slots[Vol(v) := {p}])
  {
    Unroll(w, DoProvision(Format(v)), []);
    NothingRun(Next(w, DoProvision(Format(v))));
  }

  lemma StageRun(w: World, v: string)
    requires Vol(v) in w.ready && v in w.meta && DescOf(w, Vol(v)).kms != NoKms && NoKey(w, v) && 0 !in w.stages
    requires Vol(v) in w.slots && w.slots[Vol(v)] == {}
    ensures Exec(w, Staging(v)) == Opened(w, v)
  {
    hide H.Resolved, Exec, NoKey, Next;
    var w1, format := H.Resolved(w, v, H.Works), [DoProvision(Format(v))] + [];
    var begin := [DoProvision(BeginStage(0, v)), DoProvision(StoreKey(0))];
    H.ResolvedIsRun(w, v, H.Works, 0);
    H.ResolvedReads(w, v, H.Works);
    H.ResolvedSlots(w, v);
    ExecConcat(w, begin, format);
    FormatRun(w1, v, Random(w.next));
  }

  lemma NothingRun(w: World)
    ensures Exec(w, []) == w
  {}

  function Deleting(v: string): seq<Action> {
    [DoDelete(DeleteVolume(v)), DoDelete(DropKey(Vol(v)))] + ([DoDelete(RemoveImage(v))] + [])
  }

  /** `w` without the volume `v` and its key. */
  function Gone(w: World, v: string): World {
    var d := DescOf(w, Vol(v));
    w.(ready := w.ready - {Vol(v)}, slots := w.slots - {Vol(v)}, meta := w.meta - {v},
       vault := if d.kms == Vault then w.vault - {Vol(v)} else w.vault,
       objects := if d.kms == Kmip then Without(w.objects, d.uid) else w.objects)
  }

  lemma DeleteBegins(w: World, v: string)
    requires CanDelete(w, DeleteVolume(v)) && w.dying == map[] && Vol(v) !in w.jobs
    ensures Next(w, DoDelete(DeleteVolume(v))) == w.(ready := w.ready - {Vol(v)}, dying := map[Vol(v) := 0])
  {
    assert w.jobs - {Vol(v)} == w.jobs;
  }

  lemma KeyDrops(w: World, v: string)
    requires w.dying == map[Vol(v) := 0]
    ensures Next(w, DoDelete(DropKey(Vol(v)))) == DropKeyStep(w, Vol(v))
    ensures DropKeyStep(w, Vol(v)).dying == map[Vol(v) := 1]
  {}

  lemma DeleteEnds(w: World, v: string)
    requires NoLiveSnaps(w, v) && w.dying == map[Vol(v) := 1]
    ensures Next(w, DoDelete(RemoveImage(v))) == w.(slots := w.slots - {Vol(v)}, meta := w.meta - {v}, dying := map[])
  {}

  lemma DeleteRun(w: World, v: string)
    requires CanDelete(w, DeleteVolume(v)) && w.dying == map[] && Vol(v) !in w.jobs
    ensures Exec(w, Deleting(v)) == Gone(w, v)
  {
    hide Exec;
    var w1 := w.(ready := w.ready - {Vol(v)}, dying := map[Vol(v) := 0]);
    var w2 := DropKeyStep(w1, Vol(v));
    DeleteBegins(w, v);
    KeyDrops(w1, v);
    SameDesc(w, w1, Vol(v));
    hide Next, DescOf;
    DeleteEnds(w2, v);
    Unroll2(w, DoDelete(DeleteVolume(v)), DoDelete(DropKey(Vol(v))), [DoDelete(RemoveImage(v))] + []);
    Unroll(w2, DoDelete(RemoveImage(v)), []);
    NothingRun(Gone(w, v));
  }

  /** A rotation up to the keyslot it adds. */
  lemma ApplyRun(w: World, v: string) returns (run: seq<Action>)
    requires 0 !in w.rots && CanRotate(w, 0, Start(v)) && Stored(w, Vol(v)).Some?
    requires Stored(w, Vol(v)).value in w.slots[Vol(v)]
    ensures var w1, t := H.MintedWorld(w, v), H.MintedTurn(w, v);
            Exec(w, run) == H.At(w1.(slots := w1.slots[Vol(v) := w1.slots[Vol(v)] + {t.minted}]), 0, v,
                                 Applied(t.prior, t.priorUid, t.minted, t.mintedUid))
  {
    hide DescOf, Stored;
    var w1, t := H.MintedWorld(w, v), H.MintedTurn(w, v);
    H.NoRun(w);
    run := H.RunsToMinted(w, [], w, 0, v);
    H.AddMoves(w1, 0, v, t);
    ExecConcat(w, run, [DoRotate(0, AddSlot)]);
    assert [DoRotate(0, AddSlot)] == [DoRotate(0, AddSlot)] + [];
    Unroll(H.At(w1, 0, v, t), DoRotate(0, AddSlot), []);
    run := run + [DoRotate(0, AddSlot)];
  }

  /** A whole rotation. */
  lemma RotateRun(w: World, v: string) returns (run: seq<Action>)
    requires 0 !in w.rots && CanRotate(w, 0, Start(v)) && Stored(w, Vol(v)).Some?
    requires Stored(w, Vol(v)).value in w.slots[Vol(v)]
    ensures Exec(w, run) == H.Replaced(w, v)
  {
    hide DescOf, Stored;
    H.NoRun(w);
    run := H.RunsToMinted(w, [], w, 0, v);
    run := H.RunsToReplaced(w, run, w, 0, v);
  }

  // ---- a staged volume ---------------------------------------------------------

  /** A finished and formatted volume under `kms`, alone in the cluster. */
  function Staged(kms: Kms): World {
    var d := BLANK.(kms := kms, dek := if kms == SecretsMetadata then Some(Random(0)) else None,
                    uid := if kms == Kmip then Some(1) else None);
    World(map[V := Meta(d, map[])], map[Vol(V) := {Random(0)}],
          if kms == Vault then map[Vol(V) := Random(0)] else map[],
          if kms == Kmip then map[1 := Random(0)] else map[],
          if kms == Kmip then 2 else 1, {Vol(V)}, map[], map[], map[], map[], map[], map[Vol(V) := Vol(V)])
  }

  function MakeVolume(kms: Kms): seq<Action> { Making(V, kms) + Staging(V) }

  lemma StagedIsReached(kms: Kms)
    requires kms != NoKms
    ensures Exec(EMPTY, MakeVolume(kms)) == Staged(kms)
  {
    hide Exec, Making, Staging;
    MakeRun(EMPTY, V, kms);
    var w := Made(EMPTY, V, kms);
    StageRun(w, V);
    ExecConcat(EMPTY, Making(V, kms), Staging(V));
    assert Opened(w, V) == Staged(kms);
  }

  // ---- two first stages overlap --------------------------------------------------

  /** Both nodes find no key and draw one; the first formats with its own, the second then stores
      another over it. */
  function TwoStages(): seq<Action> {
    [DoProvision(BeginStage(0, V)), DoProvision(BeginStage(1, V))] +
      ([DoProvision(StoreKey(0)), DoProvision(Format(V))] + ([DoProvision(StoreKey(1))] + []))
  }

  lemma StageBegins(w: World, t: nat)
    requires CanProvision(w, BeginStage(t, V))
    ensures Next(w, DoProvision(BeginStage(t, V))) ==
            w.(stages := w.stages[t := FirstStage(V, DescOf(w, Vol(V)).kms, Random(w.next))], next := w.next + 1)
  {}

  lemma StoresDek(w: World, t: nat)
    requires CanProvision(w, StoreKey(t)) && w.stages[t].image == V && w.stages[t].kms == SecretsMetadata
    ensures var w' := Next(w, DoProvision(StoreKey(t)));
            && w' == w.(meta := w'.meta, stages := w.stages - {t}) && V in w'.meta
            && DescOf(w', Vol(V)) == DescOf(w, Vol(V)).(dek := Some(w.stages[t].key))
  {
    PutReads(w, Next(w, DoProvision(StoreKey(t))), Vol(V), DescOf(w, Vol(V)).(dek := Some(w.stages[t].key)), Vol(V));
  }

  lemma Formats(w: World, p: Pass)
    requires CanProvision(w, Format(V)) && StagePass(w, V) == Some(p)
    ensures Next(w, DoProvision(Format(V))) == w.(slots := w.slots[Vol(V) := {p}])
  {}

  lemma OverlappingStages()
    ensures var w := Exec(EMPTY, Making(V, SecretsMetadata) + TwoStages());
            Vol(V) in w.ready && Vol(V) in w.slots && w.slots[Vol(V)] == {Random(0)} &&
                StagePass(w, V) == Some(Random(1))
  {
    hide Next, Exec, Making;
    var w0 := Made(EMPTY, V, SecretsMetadata);
    MakeRun(EMPTY, V, SecretsMetadata);
    StageBegins(w0, 0);
    var w1 := Next(w0, DoProvision(BeginStage(0, V)));
    StageBegins(w1, 1);
    var w2 := Next(w1, DoProvision(BeginStage(1, V)));
    StoresDek(w2, 0);
    var w3 := Next(w2, DoProvision(StoreKey(0)));
    Formats(w3, Random(0));
    var w4 := Next(w3, DoProvision(Format(V)));
    StoresDek(w4, 1);
    var w5 := Next(w4, DoProvision(StoreKey(1)));
    ExecConcat(EMPTY, Making(V, SecretsMetadata), TwoStages());
    Unroll2(w0, DoProvision(BeginStage(0, V)), DoProvision(BeginStage(1, V)),
            [DoProvision(StoreKey(0)), DoProvision(Format(V))] + ([DoProvision(StoreKey(1))] + []));
    Unroll2(w2, DoProvision(StoreKey(0)), DoProvision(Format(V)), [DoProvision(StoreKey(1))] + []);
    Unroll(w4, DoProvision(StoreKey(1)), []);
    NothingRun(w5);
  }

  lemma StoresObject(w: World)
    requires 0 in w.stages && w.stages[0].image == V && w.stages[0].kms == Kmip && V in w.meta
    ensures var w' := Next(w, DoProvision(StoreKey(0)));
            w' == w.(meta := w'.meta, objects := w.objects[w.next := w.stages[0].key], next := w.next + 1,
                stages := w.stages - {0})
            && w'.meta.Keys == w.meta.Keys
  {}

  /** The volume is deleted between the read and the store of its first stage. */
  function StageUnderDelete(): seq<Action> {
    [DoProvision(BeginStage(0, V)), DoDelete(DeleteVolume(V))] +
        ([DoDelete(DropKey(Vol(V))), DoProvision(StoreKey(0))] + ([DoDelete(RemoveImage(V))] + []))
  }

  /** A KMIP stage that outlives the delete of its volume leaves an object nothing names. */
  lemma StageOutlivesVolume()
    ensures var w := Exec(EMPTY, Making(V, Kmip) + StageUnderDelete());
            w.meta == map[] && w.slots == map[] && w.ready == {} && w.dying == map[] && w.jobs == map[] &&
                w.objects == map[1 := Random(0)]
  {
    hide Exec, Making;
    var w0 := Made(EMPTY, V, Kmip);
    MakeRun(EMPTY, V, Kmip);
    StageBegins(w0, 0);
    var w1 := w0.(stages := map[0 := FirstStage(V, Kmip, Random(0))], next := 1);
    DeleteBegins(w1, V);
    var w2 := w1.(ready := {}, dying := map[Vol(V) := 0]);
    var w3 := w2.(dying := map[Vol(V) := 1]);
    KeyDrops(w2, V);
    assert DropKeyStep(w2, Vol(V)) == w3;
    hide Next;
    var w4 := Next(w3, DoProvision(StoreKey(0)));
    StoresObject(w3);
    DeleteEnds(w4, V);
    ExecConcat(EMPTY, Making(V, Kmip), StageUnderDelete());
    Unroll2(w0, DoProvision(BeginStage(0, V)), DoDelete(DeleteVolume(V)),
        [DoDelete(DropKey(Vol(V))), DoProvision(StoreKey(0))] + ([DoDelete(RemoveImage(V))] + []));
    Unroll2(w2, DoDelete(DropKey(Vol(V))), DoProvision(StoreKey(0)), [DoDelete(RemoveImage(V))] + []);
    Unroll(w4, DoDelete(RemoveImage(V)), []);
    NothingRun(Next(w4, DoDelete(RemoveImage(V))));
  }

  // ---- a source deleted, or recreated, under an unfinished copy ---------------------

  function Cloning(): seq<Action> { [DoProvision(TempSnapshot(V, X)), DoProvision(CloneImage(X))] }

  /** `w` with an unfinished clone `X` of `V`. */
  function Cloned(w: World): World
    requires V in w.meta && Vol(V) in w.slots
  {
    w.(slots := w.slots[Vol(X) := w.slots[Vol(V)]], meta := w.meta[X := w.meta[V]],
       jobs := w.jobs[Vol(X) := Copy(FromVolume(V), None, Idle, RootOf(w, Vol(V)), DescOf(w, Vol(V)).kms)])
  }

  lemma CloneRun(w: World)
    requires V in w.meta && Vol(V) in w.ready && Vol(V) in w.slots && Vol(X) !in w.slots && Vol(X) !in w.jobs
    ensures Exec(w, Cloning()) == Cloned(w)
  {
    var w1 := Next(w, DoProvision(TempSnapshot(V, X)));
    assert w1 == TempSnapshotStep(w, V, X);
    assert w1.jobs[Vol(X) := Cloned(w).jobs[Vol(X)]] == Cloned(w).jobs;
    assert Cloning() == [DoProvision(TempSnapshot(V, X)), DoProvision(CloneImage(X))] + [];
    Unroll2(w, DoProvision(TempSnapshot(V, X)), DoProvision(CloneImage(X)), []);
  }

  /** A Vault clone whose source is deleted before its create is retried answers without a key. */
  lemma SourceDeleted()
    ensures var w := Exec(EMPTY, MakeVolume(Vault) + (Cloning() + (Deleting(V) + Attempted(Vol(X)))));
            Vol(X) in w.ready && Vol(X) in w.slots && w.slots[Vol(X)] == {Random(0)} && StagePass(w, X).None?
  {
    hide Exec, Attempted, Cloning, Deleting, MakeVolume;
    var w1 := Cloned(Staged(Vault));
    var w2 := Gone(w1, V);
    StagedIsReached(Vault);
    CloneRun(Staged(Vault));
    DeleteRun(w1, V);
    ExecConcat(EMPTY, MakeVolume(Vault), Cloning() + (Deleting(V) + Attempted(Vol(X))));
    ExecConcat(Staged(Vault), Cloning(), Deleting(V) + Attempted(Vol(X)));
    ExecConcat(w1, Deleting(V), Attempted(Vol(X)));
    AttemptOutcome(w2, Vol(X), Vol(V));
  }

  /** A formatted derived-key volume, cloned, and deleted before the clone's create has answered. */
  function CloneOrphaned(): seq<Action> { Making(V, NoKms) + ([DoProvision(Format(V))] + (Cloning() + Deleting(V))) }

  lemma OrphanedClone()
    ensures var w := Exec(EMPTY, CloneOrphaned());
            && w.slots == map[Vol(X) := {Derived(Vol(V))}] && w.meta == map[X := Meta(BLANK, map[])] && w.ready == {}
            && w.jobs == map[Vol(X) := Copy(FromVolume(V), None, Idle, Vol(V), NoKms)] && w.vault == map[]
  {
    hide Exec, Cloning, Deleting, Making;
    var w0 := Made(EMPTY, V, NoKms);
    var w1 := w0.(slots := w0.slots[Vol(V) := {Derived(Vol(V))}]);
    MakeRun(EMPTY, V, NoKms);
    Formats(w0, Derived(Vol(V)));
    var w2 := Cloned(w1);
    CloneRun(w1);
    DeleteRun(w2, V);
    assert w2.slots.Keys == {Vol(V), Vol(X)} && w2.meta.Keys == {V, X};
    ExecConcat(EMPTY, Making(V, NoKms), [DoProvision(Format(V))] + (Cloning() + Deleting(V)));
    Unroll(w0, DoProvision(Format(V)), Cloning() + Deleting(V));
    ExecConcat(w1, Cloning(), Deleting(V));
  }

  /** A derived-key clone whose source is deleted and recreated under another KMS id takes that id. */
  lemma SourceRecreated()
    ensures var w := Exec(EMPTY, CloneOrphaned() + (Making(V, SecretsMetadata) + Attempted(Vol(X))));
            Vol(X) in w.ready && Vol(X) in w.slots && w.slots[Vol(X)] == {Derived(Vol(V))} && StagePass(w, X).None?
  {
    hide Exec, Attempted, CloneOrphaned, Making;
    OrphanedClone();
    var w3 := Exec(EMPTY, CloneOrphaned());
    var w4 := Made(w3, V, SecretsMetadata);
    MakeRun(w3, V, SecretsMetadata);
    ExecConcat(EMPTY, CloneOrphaned(), Making(V, SecretsMetadata) + Attempted(Vol(X)));
    ExecConcat(w3, Making(V, SecretsMetadata), Attempted(Vol(X)));
    AttemptOutcome(w4, Vol(X), Vol(V));
  }

  // ---- a volume deleted while it is rotated -----------------------------------------

  /** The staged volume with a rotation that has added its keyslot. */
  function Rotating(): World {
    Staged(Vault).(slots := map[Vol(V) := {Random(0), Random(1)}], next := 2,
                   rots := map[0 := Rotation(V, Applied(Random(0), None, Random(1), None))])
  }

  lemma RotatingIsReached() returns (acts: seq<Action>)
    ensures Exec(EMPTY, acts) == Rotating()
  {
    hide Exec, MakeVolume;
    StagedIsReached(Vault);
    var run := ApplyRun(Staged(Vault), V);
    assert {Random(0)} + {Random(1)} == {Random(0), Random(1)};
    assert Exec(Staged(Vault), run) == Rotating();
    ExecConcat(EMPTY, MakeVolume(Vault), run);
    acts := MakeVolume(Vault) + run;
  }

  function DeleteAndRecreate(): seq<Action> { Deleting(V) + (Making(V, Vault) + Staging(V)) }

  lemma RecreatedUnderRotation()
    ensures var w := Exec(Rotating(), DeleteAndRecreate());
            && w.vault == map[Vol(V) := Random(2)] && w.slots == map[Vol(V) := {Random(2)}] && w.rots == Rotating().rots
            && Vol(V) in w.ready && DescOf(w, Vol(V)).kms == Vault
  {
    hide Exec, Deleting, Making, Staging;
    var w1 := Gone(Rotating(), V);
    var w2 := Made(w1, V, Vault);
    DeleteRun(Rotating(), V);
    MakeRun(w1, V, Vault);
    StageRun(w2, V);
    ExecConcat(Rotating(), Deleting(V), Making(V, Vault) + Staging(V));
    ExecConcat(w1, Making(V, Vault), Staging(V));
  }

  /** A rotation that outlives its volume writes its key over that of the volume recreated in its
      place. */
  lemma RotationOutlivesVolume() returns (acts: seq<Action>)
    ensures var w := Exec(EMPTY, acts);
            Vol(V) in w.ready && Vol(V) in w.slots && w.slots[Vol(V)] == {Random(2)} &&
                StagePass(w, V) == Some(Random(1))
  {
    hide Exec, DeleteAndRecreate;
    var run := RotatingIsReached();
    RecreatedUnderRotation();
    var w := Exec(Rotating(), DeleteAndRecreate());
    PersistsEntry(w);
    ExecConcat(EMPTY, run, DeleteAndRecreate() + ([DoRotate(0, Persist(true))] + []));
    ExecConcat(Rotating(), DeleteAndRecreate(), [DoRotate(0, Persist(true))] + []);
    Unroll(w, DoRotate(0, Persist(true)), []);
    NothingRun(Next(w, DoRotate(0, Persist(true))));
    acts := run + (DeleteAndRecreate() + ([DoRotate(0, Persist(true))] + []));
  }

  lemma PersistsEntry(w: World)
    requires CanRotate(w, 0, Persist(true)) && w.rots[0].image == V && DescOf(w, Vol(V)).kms == Vault
    ensures var w' := Next(w, DoRotate(0, Persist(true)));
            w' == w.(vault := w.vault[Vol(V) := w.rots[0].turn.minted], rots := w'.rots) &&
                DescOf(w', Vol(V)) == DescOf(w, Vol(V))
  {}

  // ---- a rotation between a snapshot and its capture ------------------------------

  /** The staged volume with a snapshot of it, not captured yet. */
  function Snapped(): World {
    Staged(SecretsMetadata).(slots := map[Vol(V) := {Random(0)}, Snap(V, S) := {Random(0)}],
                             jobs := map[Snap(V, S) := Copy(Capture(V), None, Idle, Vol(V), SecretsMetadata)])
  }

  function Snapshotting(): seq<Action> { MakeVolume(SecretsMetadata) + ([DoProvision(TakeSnapshot(V, S))] + []) }

  lemma SnappedIsReached()
    ensures Exec(EMPTY, Snapshotting()) == Snapped()
  {
    hide Exec, MakeVolume;
    StagedIsReached(SecretsMetadata);
    assert Next(Staged(SecretsMetadata), DoProvision(TakeSnapshot(V, S))) == Snapped();
    ExecConcat(EMPTY, MakeVolume(SecretsMetadata), [DoProvision(TakeSnapshot(V, S))] + []);
    Unroll(Staged(SecretsMetadata), DoProvision(TakeSnapshot(V, S)), []);
    NothingRun(Snapped());
  }

  /** What a whole rotation of a secrets-metadata volume changes. */
  lemma RotatedWrapped(w: World, v: string)
    requires Vol(v) in w.slots && DescOf(w, Vol(v)).kms == SecretsMetadata && Stored(w, Vol(v)).Some?
    ensures var w', d := H.Replaced(w, v), DescOf(w, Vol(v));
            && w' == w.(meta := w'.meta, slots := w'.slots, next := w.next + 1) && w.meta.Keys <= w'.meta.Keys
            && w'.slots == w.slots[Vol(v) := w.slots[Vol(v)] + {Random(w.next)} - {d.dek.value}]
            && DescOf(w', Vol(v)) == d.(dek := Some(Random(w.next)))
            && (forall x | x != Vol(v) :: DescOf(w', x) == DescOf(w, x))
  {
    var w', d := H.Replaced(w, v), DescOf(w, Vol(v)).(dek := Some(Random(w.next)));
    forall x { PutReads(w, w', Vol(v), d, x); }
  }

  /** The race CreateSnapshot documents: a rotation between `rbd snap create` and the capture
      finishes a snapshot whose captured key cannot open the header it froze. */
  lemma CaptureRacesRotation() returns (acts: seq<Action>)
    ensures var w := Exec(EMPTY, acts);
            && Snap(V, S) in w.ready && Snap(V, S) in w.slots && w.slots[Snap(V, S)] == {Random(0)}
            && Stored(w, Snap(V, S)) == Some(Random(1))
  {
    hide Exec, Attempted, Snapshotting, H.Replaced;
    SnappedIsReached();
    var run := RotateRun(Snapped(), V);
    var w := H.Replaced(Snapped(), V);
    RotatedWrapped(Snapped(), V);
    ExecConcat(EMPTY, Snapshotting(), run + Attempted(Snap(V, S)));
    ExecConcat(Snapped(), run, Attempted(Snap(V, S)));
    AttemptOutcome(w, Snap(V, S), Vol(V));
    acts := Snapshotting() + (run + Attempted(Snap(V, S)));
  }

  // ---- a restored volume, rotated -------------------------------------------------

  const CAPTURED := Desc(SecretsMetadata, Some(Vol(V)), Some(Random(0)), None, None)

  /** The volume and its finished snapshot. */
  ghost predicate HasSnapshot(w: World) {
    && DescOf(w, Vol(V)) == BLANK.(kms := SecretsMetadata, dek := Some(Random(0))) && DescOf(w, Snap(V, S)) == CAPTURED
    && V in w.meta
    && w.slots == map[Vol(V) := {Random(0)}, Snap(V, S) := {Random(0)}] && w.ready == {Vol(V), Snap(V, S)}
    && w.jobs == map[] && w.rots == map[] && w.next == 1
  }

  lemma SnapshotFinished()
    ensures HasSnapshot(Exec(EMPTY, Snapshotting() + Attempted(Snap(V, S))))
  {
    hide Exec, Attempted, Snapshotting;
    SnappedIsReached();
    ExecConcat(EMPTY, Snapshotting(), Attempted(Snap(V, S)));
    AttemptOutcome(Snapped(), Snap(V, S), Vol(V));
  }

  /** A restore of the snapshot, with the snapshot's metadata that librbd copied along. */
  ghost predicate HasRestore(w: World, pass: Pass) {
    && DescOf(w, Vol(X)) == CAPTURED.(dek := Some(pass)) && DescOf(w, Snap(X, S)) == CAPTURED
    && DescOf(w, Snap(V, S)) == CAPTURED
    && Vol(X) in w.slots && w.slots[Vol(X)] == {pass} && Snap(X, S) !in w.slots && X in w.meta && Vol(X) in w.ready
    && w.jobs == map[] && w.rots == map[]
  }

  lemma RestoreBegins(w: World)
    requires CanProvision(w, RestoreImage(V, S, X))
    ensures var w' := Next(w, DoProvision(RestoreImage(V, S, X)));
            && w' == RestoreImageStep(w, V, S, X) && CanInherit(w', Vol(X), Attempt)
            && w'.jobs[Vol(X)].from == FromSnapshot(V, S)
            && DescOf(w', Vol(X)) == DescOf(w, Vol(V)) && DescOf(w', Snap(X, S)) == DescOf(w, Snap(V, S))
            && DescOf(w', Vol(V)) == DescOf(w, Vol(V)) && DescOf(w', Snap(V, S)) == DescOf(w, Snap(V, S))
  {
    assert Next(w, DoProvision(RestoreImage(V, S, X))) == RestoreImageStep(w, V, S, X);
    hide CanProvision, RootOf, Next;
  }

  lemma RestoreFinishes(w: World)
    requires HasSnapshot(w)
    ensures var w' := Exec(w, [DoProvision(RestoreImage(V, S, X))] + Attempted(Vol(X)));
            HasRestore(w', Random(0)) && w'.next == 1 && CanRotate(w', 0, Start(X))
  {
    hide Exec, Attempted, DescOf, RootOf, Inherit, Provision;
    RestoreBegins(w);
    var w1 := Next(w, DoProvision(RestoreImage(V, S, X)));
    hide Next;
    Unroll(w, DoProvision(RestoreImage(V, S, X)), Attempted(Vol(X)));
    AttemptOutcome(w1, Vol(X), Snap(V, S));
  }

  /** A snapshot, restored, the restore rotated. */
  lemma RestoredAndRotated() returns (acts: seq<Action>)
    ensures HasRestore(Exec(EMPTY, acts), Random(1))
  {
    hide Exec, Attempted, Snapshotting, DescOf;
    var make := Snapshotting() + Attempted(Snap(V, S));
    var restore := [DoProvision(RestoreImage(V, S, X))] + Attempted(Vol(X));
    SnapshotFinished();
    var w := Exec(EMPTY, make);
    RestoreFinishes(w);
    var w1 := Exec(w, restore);
    var run := RotateRun(w1, X);
    RotatedWrapped(w1, X);
    assert {Random(0)} + {Random(1)} - {Random(0)} == {Random(1)};
    ExecConcat(EMPTY, make, restore + run);
    ExecConcat(w, restore, run);
    acts := make + (restore + run);
  }

  /** A restore of a secrets-metadata snapshot that is rotated and whose create is then replayed
      gets the snapshot's key back, which no longer opens it. */
  lemma ReplayLosesKey() returns (acts: seq<Action>)
    ensures var w := Exec(EMPTY, acts);
            Vol(X) in w.ready && Vol(X) in w.slots && w.slots[Vol(X)] == {Random(1)} &&
                StagePass(w, X) == Some(Random(0))
  {
    hide Exec, Attempted, DescOf;
    var run := RestoredAndRotated();
    var redo := DoProvision(Redo(Vol(X), FromSnapshot(V, S)));
    var w := Exec(EMPTY, run);
    ReplayBegins(w, Vol(X), FromSnapshot(V, S));
    ExecConcat(EMPTY, run, [redo] + Attempted(Vol(X)));
    Unroll(w, redo, Attempted(Vol(X)));
    AttemptOutcome(Next(w, redo), Vol(X), Snap(V, S));
    acts := run + ([redo] + Attempted(Vol(X)));
  }

  lemma CaptureBegins(w: World)
    requires HasRestore(w, Random(1))
    ensures var w' := Next(w, DoProvision(TakeSnapshot(X, S)));
            && CanInherit(w', Snap(X, S), Attempt) && w'.jobs[Snap(X, S)].from == Capture(X) && w'.meta == w.meta
            && Snap(X, S) in w'.slots && w'.slots[Snap(X, S)] == {Random(1)} && w'.ready == w.ready
  {}

  /** The restore carries the metadata of its source's snapshots. A snapshot of the restore that
      reuses such a name keeps the key found there instead of the restore's own. */
  lemma NameReuseCapturesStaleKey() returns (acts: seq<Action>)
    ensures var w := Exec(EMPTY, acts);
            && Snap(X, S) in w.ready && Snap(X, S) in w.slots && w.slots[Snap(X, S)] == {Random(1)}
            && Stored(w, Snap(X, S)) == Some(Random(0))
  {
    hide Exec, Attempted, DescOf;
    var run := RestoredAndRotated();
    var take := DoProvision(TakeSnapshot(X, S));
    var w := Exec(EMPTY, run);
    CaptureBegins(w);
    SameDescs(w, Next(w, take));
    ExecConcat(EMPTY, run, [take] + Attempted(Snap(X, S)));
    Unroll(w, take, Attempted(Snap(X, S)));
    AttemptOutcome(Next(w, take), Snap(X, S), Vol(X));
    acts := run + ([take] + Attempted(Snap(X, S)));
  }

  // ---- a KMIP source copied before it has a key ------------------------------------

  /** Deleting a copy that does not own its object takes away the key of whoever does. */
  lemma SharedDeleteDestroys(w: World, sp: Spec, other: Spec)
    requires CanDelete(w, DropKey(sp)) && DescOf(w, sp).kms == Kmip && DescOf(w, other).kms == Kmip
    requires DescOf(w, sp).uid.Some? && DescOf(w, other).uid == DescOf(w, sp).uid
    ensures Stored(Next(w, DoDelete(DropKey(sp))), other).None?
  {
    assert DescOf(Next(w, DoDelete(DropKey(sp))), other) == DescOf(w, other);
  }

  function UnstagedKmip(): seq<Action> { Making(V, Kmip) + ([DoProvision(TakeSnapshot(V, S))] + Attempted(Snap(V, S))) }

  /** An unstaged KMIP volume with a finished snapshot that captured no key. */
  ghost predicate KeylessSnapshot(w: World) {
    && DescOf(w, Vol(V)) == BLANK.(kms := Kmip) && V in w.meta
    && DescOf(w, Snap(V, S)).kms == Kmip && DescOf(w, Snap(V, S)).uid.None? && DescOf(w, Snap(V, S)).owner.None?
    && w.ready == {Vol(V), Snap(V, S)} && w.slots == map[Vol(V) := {}, Snap(V, S) := {}] && w.jobs == map[]
    && w.stages == map[]
  }

  lemma KeylessReached()
    ensures KeylessSnapshot(Exec(EMPTY, UnstagedKmip()))
  {
    hide Exec, Attempted, Making;
    var w, take := Made(EMPTY, V, Kmip), DoProvision(TakeSnapshot(V, S));
    MakeRun(EMPTY, V, Kmip);
    ExecConcat(EMPTY, Making(V, Kmip), [take] + Attempted(Snap(V, S)));
    Unroll(w, take, Attempted(Snap(V, S)));
    AttemptOutcome(Next(w, take), Snap(V, S), Vol(V));
  }

  lemma KeylessStages(w: World)
    requires KeylessSnapshot(w)
    ensures var w' := Exec(w, Staging(V));
            && DescOf(w', Vol(V)) == BLANK.(kms := Kmip, uid := Some(w.next + 1))
            && DescOf(w', Snap(V, S)) == DescOf(w, Snap(V, S))
            && w'.ready == w.ready && w'.slots.Keys == w.slots.Keys && w'.jobs == w.jobs && V in w'.meta
  {
    hide Exec, Staging;
    StageRun(w, V);
    var d := DescOf(w, Vol(V)).(uid := Some(w.next + 1));
    PutReads(w, Opened(w, V), Vol(V), d, Vol(V));
    PutReads(w, Opened(w, V), Vol(V), d, Snap(V, S));
  }

  /** A snapshot taken before the first stage, restored after it: the restore records the very
      object the source resolves to. */
  lemma KmipSharingReached()
    ensures var w := Exec(EMPTY, UnstagedKmip() +
            (Staging(V) + ([DoProvision(RestoreImage(V, S, X))] + Attempted(Vol(X)))));
            && Vol(V) in w.ready && Vol(X) in w.ready
            && DescOf(w, Vol(V)).kms == Kmip && DescOf(w, Vol(V)).uid.Some?
            && DescOf(w, Vol(X)).uid == DescOf(w, Vol(V)).uid
  {
    hide Exec, Attempted, Staging, UnstagedKmip, DescOf, Next, RootOf;
    var restore := DoProvision(RestoreImage(V, S, X));
    KeylessReached();
    var w := Exec(EMPTY, UnstagedKmip());
    KeylessStages(w);
    var w1 := Exec(w, Staging(V));
    RestoreBegins(w1);
    ExecConcat(EMPTY, UnstagedKmip(), Staging(V) + ([restore] + Attempted(Vol(X))));
    ExecConcat(w, Staging(V), [restore] + Attempted(Vol(X)));
    Unroll(w1, restore, Attempted(Vol(X)));
    AttemptOutcome(Next(w1, restore), Vol(X), Snap(V, S));
  }
}
