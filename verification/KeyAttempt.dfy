/** One undisturbed attempt at inheritEncryption: what it leaves behind, from any state at all. */
module KeyAttempt {
  import opened Options
  import opened KeyPlane
  import opened KeyInvariant
  import opened KeyFrame
  import T = KeyTheorems

  lemma Unroll(w: World, a: Action, rest: seq<Action>)
    ensures Exec(w, [a] + rest) == Exec(Next(w, a), rest)
  {
    assert ([a] + rest)[1..] == rest;
  }

  lemma Unroll2(w: World, a: Action, b: Action, rest: seq<Action>)
    ensures Exec(w, [a, b] + rest) == Exec(Next(Next(w, a), b), rest)
  {
    assert [a, b] + rest == [a] + ([b] + rest);
    Unroll(w, a, [b] + rest);
    Unroll(Next(w, a), b, rest);
  }

  lemma {:induction false} ExecConcat(w: World, a: seq<Action>, b: seq<Action>)
    ensures Exec(w, a + b) == Exec(Exec(w, a), b)
    decreases |a|
  {
    if a == [] {
      assert a + b == b;
    } else {
      assert (a + b)[1..] == a[1..] + b;
      ExecConcat(Next(w, a[0]), a[1..], b);
    }
  }

  /** One full attempt at inheritEncryption; the last writes are KMIP's and do nothing elsewhere. */
  function Attempted(sp: Spec): seq<Action> {
    [DoInherit(sp, Attempt), DoInherit(sp, SetKeyId)] + ([DoInherit(sp, SetKms), DoInherit(sp, SetDek)] +
      ([DoInherit(sp, CloneKey), DoInherit(sp, SetUid)] + ([DoInherit(sp, SetOwner), DoInherit(sp, Finish)] + [])))
  }

  function Described(w: World, sp: Spec): World {
    Next(Next(Next(Next(w, DoInherit(sp, Attempt)), DoInherit(sp, SetKeyId)), DoInherit(sp, SetKms)),
        DoInherit(sp, SetDek))
  }

  function KeyCopied(w: World, sp: Spec): World {
    Next(Next(Next(Next(w, DoInherit(sp, CloneKey)), DoInherit(sp, SetUid)), DoInherit(sp, SetOwner)),
        DoInherit(sp, Finish))
  }

  lemma UnrollAttempt(w: World, sp: Spec)
    ensures Exec(w, Attempted(sp)) == KeyCopied(Described(w, sp), sp)
  {
    hide Next;
    var w2 := Next(Next(w, DoInherit(sp, Attempt)), DoInherit(sp, SetKeyId));
    var w4 := Described(w, sp);
    var w6 := Next(Next(w4, DoInherit(sp, CloneKey)), DoInherit(sp, SetUid));
    var last := [DoInherit(sp, SetOwner), DoInherit(sp, Finish)] + [];
    var tail := [DoInherit(sp, CloneKey), DoInherit(sp, SetUid)] + last;
    Unroll2(w, DoInherit(sp, Attempt), DoInherit(sp, SetKeyId), [DoInherit(sp, SetKms), DoInherit(sp, SetDek)] + tail);
    Unroll2(w2, DoInherit(sp, SetKms), DoInherit(sp, SetDek), tail);
    Unroll2(w4, DoInherit(sp, CloneKey), DoInherit(sp, SetUid), last);
    Unroll2(w6, DoInherit(sp, SetOwner), DoInherit(sp, Finish), []);
  }

  // ---- what inheritEncryption does to the stored state ----------------------

  /** The descriptor, field by field. */
  function WithKeyId(w: World, src: Spec, sp: Spec): World {
    w.(meta := PutMeta(w, sp, DescOf(w, sp).(keyId := Some(InheritedKeyId(w, src, sp)))))
  }

  function WithKms(w: World, src: Spec, sp: Spec): World {
    var kms := InheritedKms(w, src, sp);
    w.(meta := if kms == NoKms then w.meta else PutMeta(w, sp, DescOf(w, sp).(kms := kms)))
  }

  function WithDek(w: World, src: Spec, sp: Spec): World {
    var dek := InheritedDek(w, src, sp);
    w.(meta := if dek.None? then w.meta else PutMeta(w, sp, DescOf(w, sp).(dek := dek)))
  }

  /** Vault: a create-only copy of the source's entry. */
  function WithEntry(w: World, src: Spec, sp: Spec): World {
    w.(vault := if src in w.vault && sp !in w.vault then w.vault[sp := w.vault[src]] else w.vault)
  }

  /** A retry that finds the same value in place succeeds; another value fails. */
  predicate EntryTaken(w: World, src: Spec, sp: Spec) {
    src !in w.vault || sp !in w.vault || w.vault[sp] == w.vault[src]
  }

  /** The copy still needs an object of its own. */
  predicate NeedsObject(w: World, src: Spec, sp: Spec) { DescOf(w, src).uid.Some? && DescOf(w, sp).owner != Some(sp) }

  /** KMIP: a new object with the source's key, its UID recorded before the owner marker. */
  function WithObject(w: World, src: Spec, sp: Spec): World {
    if !NeedsObject(w, src, sp) || DescOf(w, src).uid.value !in w.objects then w
    else
      w.(objects := w.objects[w.next := w.objects[DescOf(w, src).uid.value]], next := w.next + 1,
         meta := PutMeta(w, sp, DescOf(w, sp).(uid := Some(w.next), owner := Some(sp))))
  }

  predicate ObjectTaken(w: World, src: Spec, sp: Spec) {
    NeedsObject(w, src, sp) ==> DescOf(w, src).uid.value in w.objects
  }

  function WithKey(w: World, kms: Kms, src: Spec, sp: Spec): (w': World)
    ensures w'.jobs == w.jobs
  {
    if kms == Vault then WithEntry(w, src, sp) else if kms == Kmip then WithObject(w, src, sp) else w
  }

  predicate KeyTaken(w: World, kms: Kms, src: Spec, sp: Spec) {
    if kms == Vault then EntryTaken(w, src, sp) else if kms == Kmip then ObjectTaken(w, src, sp) else true
  }

  lemma SameDesc(w: World, w': World, sp: Spec)
    requires w.meta == w'.meta
    ensures DescOf(w, sp) == DescOf(w', sp)
  {}

  lemma SamePut(w: World, w': World, sp: Spec, d: Desc)
    requires w.meta == w'.meta
    ensures DescOf(w, sp) == DescOf(w', sp) && PutMeta(w, sp, d) == PutMeta(w', sp, d)
  {}

  lemma SameSource(w: World, w': World, from: Source)
    requires w.meta == w'.meta
    ensures SourceSpec(w, from) == SourceSpec(w', from)
  {}

  lemma SameInherited(w: World, w': World, src: Spec, sp: Spec)
    requires w.meta == w'.meta
    ensures DescOf(w, src) == DescOf(w', src) && DescOf(w, sp) == DescOf(w', sp)
    ensures InheritedKeyId(w, src, sp) == InheritedKeyId(w', src, sp)
    ensures InheritedKms(w, src, sp) == InheritedKms(w', src, sp)
    ensures InheritedDek(w, src, sp) == InheritedDek(w', src, sp)
    ensures forall d :: PutMeta(w, sp, d) == PutMeta(w', sp, d)
  {}

  // ---- it is a run of the machine, too --------------------------------------

  ghost predicate Copies(w: World, sp: Spec) { sp in w.jobs && w.jobs[sp].Copy? && w.jobs[sp].frozen.None? }

  /** `w` with the copy `sp` at phase `ph`. */
  ghost function Doing(w: World, sp: Spec, ph: Phase): World
    requires Copies(w, sp)
  {
    w.(jobs := Phased(w, sp, ph))
  }

  /** The create has answered, with the key identity to advertise. */
  ghost function Answered(w: World, sp: Spec, key: Spec): World
    requires Copies(w, sp)
  {
    w.(ctx := if sp.Vol? then w.ctx[sp.image := key] else w.ctx,
       jobs := w.jobs - {sp}, ready := w.ready + {sp}, root := w.root[sp := w.jobs[sp].root])
  }

  lemma Rephased(w: World, sp: Spec, ph: Phase, ph': Phase)
    requires Copies(w, sp)
    ensures Phased(Doing(w, sp, ph), sp, ph') == Phased(w, sp, ph')
    ensures Doing(w, sp, ph).jobs - {sp} == w.jobs - {sp}
  {}

  lemma AttemptMoves(w: World, sp: Spec)
    requires Copies(w, sp)
    ensures Next(Doing(w, sp, Idle), DoInherit(sp, Attempt)) == Doing(w, sp, Begun(SourceSpec(w, w.jobs[sp].from)))
  {
    Rephased(w, sp, Idle, Begun(SourceSpec(w, w.jobs[sp].from)));
    assert SourceSpec(Doing(w, sp, Idle), w.jobs[sp].from) == SourceSpec(w, w.jobs[sp].from);
  }

  lemma KeyIdMoves(w: World, sp: Spec, src: Spec)
    requires Copies(w, sp)
    ensures Next(Doing(w, sp, Begun(src)), DoInherit(sp, SetKeyId)) ==
            Doing(WithKeyId(w, src, sp), sp, KeySet(src, InheritedKeyId(w, src, sp)))
  {
    Rephased(w, sp, Begun(src), KeySet(src, InheritedKeyId(w, src, sp)));
  }

  lemma KmsMoves(w: World, sp: Spec, src: Spec, key: Spec)
    requires Copies(w, sp)
    ensures Next(Doing(w, sp, KeySet(src, key)), DoInherit(sp, SetKms)) ==
            Doing(WithKms(w, src, sp), sp, KmsSet(src, key, InheritedKms(w, src, sp)))
  {
    Rephased(w, sp, KeySet(src, key), KmsSet(src, key, InheritedKms(w, src, sp)));
  }

  lemma DekMoves(w: World, sp: Spec, src: Spec, key: Spec, kms: Kms)
    requires Copies(w, sp)
    ensures Next(Doing(w, sp, KmsSet(src, key, kms)), DoInherit(sp, SetDek)) ==
            Doing(WithDek(w, src, sp), sp, DekSet(src, key, kms))
  {
    Rephased(w, sp, KmsSet(src, key, kms), DekSet(src, key, kms));
  }

  /** A provider other than KMIP copies its key in one command. */
  lemma EntryMoves(w: World, sp: Spec, src: Spec, key: Spec, kms: Kms)
    requires Copies(w, sp) && kms != Kmip
    ensures Next(Doing(w, sp, DekSet(src, key, kms)), DoInherit(sp, CloneKey)) ==
            Doing(WithKey(w, kms, src, sp), sp, if KeyTaken(w, kms, src, sp) then Copied(key) else Idle)
  {
    Rephased(w, sp, DekSet(src, key, kms), if KeyTaken(w, kms, src, sp) then Copied(key) else Idle);
  }

  lemma ObjectMoves(w: World, sp: Spec, src: Spec, key: Spec)
    requires Copies(w, sp)
    ensures var w' := Next(Doing(w, sp, DekSet(src, key, Kmip)), DoInherit(sp, CloneKey));
            w' == if !NeedsObject(w, src, sp) then Doing(w, sp, Copied(key))
                  else if DescOf(w, src).uid.value !in w.objects then Doing(w, sp, Idle)
                  else Doing(w.(objects := w.objects[w.next := w.objects[DescOf(w, src).uid.value]],
                      next := w.next + 1), sp, Registered(key, w.next))
  {
    Rephased(w, sp, DekSet(src, key, Kmip), Copied(key));
    Rephased(w, sp, DekSet(src, key, Kmip), Idle);
    Rephased(w, sp, DekSet(src, key, Kmip), Registered(key, w.next));
  }

  lemma RecordMoves(w: World, sp: Spec, key: Spec, uid: nat)
    requires Copies(w, sp)
    ensures Next(Doing(w, sp, Registered(key, uid)), DoInherit(sp, SetUid)) ==
            Doing(w.(meta := PutMeta(w, sp, DescOf(w, sp).(uid := Some(uid)))), sp, UidSet(key, uid))
    ensures Next(Doing(w, sp, UidSet(key, uid)), DoInherit(sp, SetOwner)) ==
            Doing(w.(meta := PutMeta(w, sp, DescOf(w, sp).(owner := Some(sp)))), sp, Copied(key))
  {
    Rephased(w, sp, Registered(key, uid), UidSet(key, uid));
    Rephased(w, sp, UidSet(key, uid), Copied(key));
  }

  /** With nothing left to record the attempt answers, or is over. */
  lemma SettleMoves(w: World, sp: Spec, ph: Phase)
    requires Copies(w, sp) && (ph.Copied? || ph.Idle?)
    ensures Next(Doing(w, sp, ph), DoInherit(sp, SetUid)) == Doing(w, sp, ph)
    ensures Next(Doing(w, sp, ph), DoInherit(sp, SetOwner)) == Doing(w, sp, ph)
    ensures Next(Doing(w, sp, ph), DoInherit(sp, Finish)) == if ph.Copied? then Answered(w, sp, ph.key)
            else Doing(w, sp, ph)
  {
    Rephased(w, sp, ph, ph);
  }

  lemma CopiesEntry(w: World, sp: Spec, src: Spec, key: Spec, kms: Kms)
    requires Copies(w, sp) && kms != Kmip
    ensures KeyCopied(Doing(w, sp, DekSet(src, key, kms)), sp) ==
            if KeyTaken(w, kms, src, sp) then Answered(WithKey(w, kms, src, sp), sp, key)
                else Doing(WithKey(w, kms, src, sp), sp, Idle)
  {
    hide Next, KeyTaken, Doing, Answered;
    EntryMoves(w, sp, src, key, kms);
    SettleMoves(WithKey(w, kms, src, sp), sp, if KeyTaken(w, kms, src, sp) then Copied(key) else Idle);
  }

  lemma CopiesObject(w: World, sp: Spec, src: Spec, key: Spec)
    requires Copies(w, sp)
    ensures KeyCopied(Doing(w, sp, DekSet(src, key, Kmip)), sp) ==
            if ObjectTaken(w, src, sp) then Answered(WithObject(w, src, sp), sp, key) else Doing(w, sp, Idle)
  {
    hide Next, Doing, Answered, PutMeta, DescOf;
    ObjectMoves(w, sp, src, key);
    if !NeedsObject(w, src, sp) {
      SettleMoves(w, sp, Copied(key));
    } else if DescOf(w, src).uid.value !in w.objects {
      SettleMoves(w, sp, Idle);
    } else {
      var w1 := w.(objects := w.objects[w.next := w.objects[DescOf(w, src).uid.value]], next := w.next + 1);
      var d := DescOf(w1, sp).(uid := Some(w.next));
      var w2 := w1.(meta := PutMeta(w1, sp, d));
      RecordMoves(w1, sp, key, w.next);
      RecordMoves(w2, sp, key, w.next);
      PutAgain(w1, w2, sp, d, d.(owner := Some(sp)));
      SamePut(w, w1, sp, d.(owner := Some(sp)));
      SettleMoves(WithObject(w, src, sp), sp, Copied(key));
    }
  }

  lemma CopiesKey(w: World, sp: Spec, src: Spec, key: Spec, kms: Kms)
    requires Copies(w, sp) && w.jobs[sp].phase.Idle?
    ensures KeyCopied(Doing(w, sp, DekSet(src, key, kms)), sp) ==
            if KeyTaken(w, kms, src, sp) then Answered(WithKey(w, kms, src, sp), sp, key) else WithKey(w, kms, src, sp)
  {
    hide KeyCopied, Doing, Answered, PutMeta, DescOf;
    if kms == Kmip { CopiesObject(w, sp, src, key); } else { CopiesEntry(w, sp, src, key, kms); }
    IdlePhase(WithKey(w, kms, src, sp), sp);
  }

  function WithDescriptor(w: World, src: Spec, sp: Spec): (w': World)
    ensures w'.jobs == w.jobs
  {
    WithDek(WithKms(WithKeyId(w, src, sp), src, sp), src, sp)
  }

  lemma DescribesCopy(w: World, sp: Spec, src: Spec)
    requires Copies(w, sp) && w.jobs[sp].phase.Idle? && src == SourceSpec(w, w.jobs[sp].from)
    ensures Described(w, sp) == Doing(WithDescriptor(w, src, sp), sp,
              DekSet(src, InheritedKeyId(w, src, sp), InheritedKms(WithKeyId(w, src, sp), src, sp)))
  {
    hide Next, Doing, PutMeta, DescOf, InheritedKeyId, InheritedKms, InheritedDek, SourceSpec;
    var key := InheritedKeyId(w, src, sp);
    var w1 := WithKeyId(w, src, sp);
    IdlePhase(w, sp);
    AttemptMoves(w, sp);
    KeyIdMoves(w, sp, src);
    KmsMoves(w1, sp, src, key);
    DekMoves(WithKms(w1, src, sp), sp, src, key, InheritedKms(w1, src, sp));
  }

  /** What one attempt at inheritEncryption leaves behind. */
  ghost function AfterAttempt(w: World, sp: Spec): World
    requires Copies(w, sp)
  {
    var src := SourceSpec(w, w.jobs[sp].from);
    var w1, kms := WithDescriptor(w, src, sp), InheritedKms(WithKeyId(w, src, sp), src, sp);
    if KeyTaken(w1, kms, src, sp) then Answered(WithKey(w1, kms, src, sp), sp, InheritedKeyId(w, src, sp))
    else WithKey(w1, kms, src, sp)
  }

  /** One undisturbed attempt is a run of the machine's commands. */
  lemma AttemptIsRun(w: World, sp: Spec)
    requires Copies(w, sp) && w.jobs[sp].phase.Idle?
    ensures Exec(w, Attempted(sp)) == AfterAttempt(w, sp)
  {
    hide Exec, Attempted, Described, KeyCopied, Doing, Answered, DescOf, InheritedKeyId, InheritedKms, InheritedDek,
         SourceSpec, KeyTaken, WithKey, PutMeta;
    UnrollAttempt(w, sp);
    var src := SourceSpec(w, w.jobs[sp].from);
    var w1, kms := WithDescriptor(w, src, sp), InheritedKms(WithKeyId(w, src, sp), src, sp);
    DescribesCopy(w, sp, src);
    CopiesKey(w1, sp, src, InheritedKeyId(w, src, sp), kms);
  }

  lemma IdlePhase(w: World, sp: Spec)
    requires Copies(w, sp) && w.jobs[sp].phase.Idle?
    ensures Doing(w, sp, Idle) == w
  {
    assert w.jobs[sp := w.jobs[sp]] == w.jobs;
  }

  // ---- the outcome -----------------------------------------------------------

  /** The descriptor an attempt leaves on the copy, but for KMIP's UID and owner. */
  function Inherited(w: World, src: Spec, sp: Spec): Desc {
    DescOf(w, sp).(keyId := Some(InheritedKeyId(w, src, sp)), kms := InheritedKms(w, src, sp),
        dek := InheritedDek(w, src, sp))
  }

  /** An attempt that registers an object of the copy's own. */
  predicate Registers(w: World, src: Spec, sp: Spec) {
    NeedsObject(w, src, sp) && DescOf(w, src).uid.value in w.objects
  }

  /** The attempt answers; otherwise it fails, and may be repeated. */
  predicate Answers(w: World, src: Spec, sp: Spec) { KeyTaken(w, InheritedKms(w, src, sp), src, sp) }

  lemma KeyIdWritten(w: World, src: Spec, sp: Spec)
    requires src != sp
    ensures var w' := WithKeyId(w, src, sp);
            && DescOf(w', sp) == DescOf(w, sp).(keyId := Some(InheritedKeyId(w, src, sp)))
            && (forall x | x != sp :: DescOf(w', x) == DescOf(w, x))
            && InheritedKms(w', src, sp) == InheritedKms(w, src, sp)
            && InheritedDek(w', src, sp) == InheritedDek(w, src, sp)
  {
    var d := DescOf(w, sp).(keyId := Some(InheritedKeyId(w, src, sp)));
    forall x { PutReads(w, WithKeyId(w, src, sp), sp, d, x); }
  }

  lemma KmsWritten(w: World, src: Spec, sp: Spec)
    requires src != sp
    ensures var w' := WithKms(w, src, sp);
            && DescOf(w', sp) == DescOf(w, sp).(kms := InheritedKms(w, src, sp))
            && (forall x | x != sp :: DescOf(w', x) == DescOf(w, x))
            && InheritedDek(w', src, sp) == InheritedDek(w, src, sp)
  {
    var d := DescOf(w, sp).(kms := InheritedKms(w, src, sp));
    if InheritedKms(w, src, sp) != NoKms { forall x { PutReads(w, WithKms(w, src, sp), sp, d, x); } }
  }

  lemma DekWritten(w: World, src: Spec, sp: Spec)
    requires src != sp
    ensures var w' := WithDek(w, src, sp);
            && DescOf(w', sp) == DescOf(w, sp).(dek := InheritedDek(w, src, sp))
            && (forall x | x != sp :: DescOf(w', x) == DescOf(w, x))
  {
    var d := DescOf(w, sp).(dek := InheritedDek(w, src, sp));
    if InheritedDek(w, src, sp).Some? { forall x { PutReads(w, WithDek(w, src, sp), sp, d, x); } }
  }

  /** The three writes leave the inherited descriptor on the copy, and no other changes. */
  lemma DescriptorWritten(w: World, src: Spec, sp: Spec)
    requires src != sp
    ensures var w' := WithDescriptor(w, src, sp);
            && DescOf(w', sp) == Inherited(w, src, sp) && (forall x | x != sp :: DescOf(w', x) == DescOf(w, x))
            && w' == w.(meta := w'.meta) && w.meta.Keys <= w'.meta.Keys
            && InheritedKms(WithKeyId(w, src, sp), src, sp) == InheritedKms(w, src, sp)
  {
    hide DescOf, InheritedKeyId, InheritedKms, InheritedDek, PutMeta;
    KeyIdWritten(w, src, sp);
    var w1 := WithKeyId(w, src, sp);
    KmsWritten(w1, src, sp);
    DekWritten(WithKms(w1, src, sp), src, sp);
    MetaGrows(w, src, sp);
  }

  lemma MetaGrows(w: World, src: Spec, sp: Spec)
    ensures w.meta.Keys <= WithDescriptor(w, src, sp).meta.Keys
  {}

  lemma ObjectRecorded(w: World, src: Spec, sp: Spec)
    requires src != sp
    ensures var w' := WithObject(w, src, sp);
            && DescOf(w', sp) == (if Registers(w, src, sp) then DescOf(w, sp).(uid := Some(w.next), owner := Some(sp))
               else DescOf(w, sp))
            && (forall x | x != sp :: DescOf(w', x) == DescOf(w, x))
            && w' == w.(meta := w'.meta, objects := w'.objects, next := w'.next) && w.meta.Keys <= w'.meta.Keys
            && w'.next == (if Registers(w, src, sp) then w.next + 1 else w.next)
            && w'.objects == (if Registers(w, src, sp) then w.objects[w.next := w.objects[DescOf(w, src).uid.value]]
               else w.objects)
  {
    var d, w' := DescOf(w, sp).(uid := Some(w.next), owner := Some(sp)), WithObject(w, src, sp);
    if Registers(w, src, sp) { forall x { PutReads(w, w', sp, d, x); } }
  }

  /** What one attempt writes, whatever the provider and whatever an earlier one left. */
  ghost predicate Written(w: World, w': World, src: Spec, sp: Spec) {
    var kms := InheritedKms(w, src, sp);
    var copies := kms == Kmip && Registers(w, src, sp);
    && DescOf(w', sp) == (if copies then Inherited(w, src, sp).(uid := Some(w.next), owner := Some(sp))
       else Inherited(w, src, sp))
    && (forall x | x != sp :: DescOf(w', x) == DescOf(w, x)) && w.meta.Keys <= w'.meta.Keys
    && w'.vault == (if kms == Vault && src in w.vault && sp !in w.vault then w.vault[sp := w.vault[src]] else w.vault)
    && w'.objects == (if copies then w.objects[w.next := w.objects[DescOf(w, src).uid.value]] else w.objects)
    && w'.next == (if copies then w.next + 1 else w.next)
    && w'.slots == w.slots && w'.rots == w.rots && w'.stages == w.stages && w'.dying == w.dying
  }

  /** What one attempt leaves behind: its writes, and the answer if there is one. */
  ghost predicate Outcome(w: World, w': World, src: Spec, sp: Spec) {
    && Written(w, w', src, sp)
    && w'.ready == (if Answers(w, src, sp) then w.ready + {sp} else w.ready)
    && w'.jobs == (if Answers(w, src, sp) then w.jobs - {sp} else w.jobs)
    && (Answers(w, src, sp) && sp.Vol? ==> ContextKeyId(w', sp.image) == InheritedKeyId(w, src, sp))
  }

  lemma KeyWritten(w: World, w1: World, kms: Kms, src: Spec, sp: Spec)
    requires src != sp && kms == InheritedKms(w, src, sp)
    requires DescOf(w1, sp) == Inherited(w, src, sp) && (forall x | x != sp :: DescOf(w1, x) == DescOf(w, x))
    requires w1 == w.(meta := w1.meta) && w.meta.Keys <= w1.meta.Keys
    ensures var w2 := WithKey(w1, kms, src, sp);
            && Written(w, w2, src, sp) && w2.ready == w.ready && w2.jobs == w.jobs && w2.ctx == w.ctx
            && (KeyTaken(w1, kms, src, sp) <==> Answers(w, src, sp))
  {
    hide DescOf, InheritedKeyId, InheritedKms, InheritedDek, WithObject;
    if kms == Kmip { ObjectRecorded(w1, src, sp); } else { SameDescs(w1, WithKey(w1, kms, src, sp)); }
  }

  lemma AnsweredOutcome(w: World, w2: World, src: Spec, sp: Spec)
    requires CanInherit(w, sp, Attempt) && Written(w, w2, src, sp) && w2.ready == w.ready && w2.jobs == w.jobs
    requires w2.ctx == w.ctx
    ensures Outcome(w, if Answers(w, src, sp) then Answered(w2, sp, InheritedKeyId(w, src, sp)) else w2, src, sp)
  {
    hide DescOf, InheritedKeyId, InheritedKms, InheritedDek, Inherited, Registers, Answers;
    SameDescs(w2, Answered(w2, sp, InheritedKeyId(w, src, sp)));
  }

  lemma SameDescs(w: World, w': World)
    requires w'.meta == w.meta
    ensures forall x :: DescOf(w', x) == DescOf(w, x)
  {}

  /** One undisturbed attempt, from any state. */
  lemma AttemptOutcome(w: World, sp: Spec, src: Spec)
    requires CanInherit(w, sp, Attempt) && src == SourceSpec(w, w.jobs[sp].from) && src != sp
    ensures Outcome(w, Exec(w, Attempted(sp)), src, sp)
  {
    hide Exec, Attempted, DescOf, InheritedKeyId, InheritedKms, InheritedDek, SourceSpec, KeyTaken, WithKey, Answered,
         Outcome, Written, Answers, WithDescriptor, WithKeyId;
    AttemptIsRun(w, sp);
    DescriptorWritten(w, src, sp);
    var w1, kms := WithDescriptor(w, src, sp), InheritedKms(w, src, sp);
    KeyWritten(w, w1, kms, src, sp);
    AnsweredOutcome(w, WithKey(w1, kms, src, sp), src, sp);
  }

  // ---- when a copy opens -----------------------------------------------------

  /** The passphrase a spec's own metadata resolves to. */
  function RecordedPass(w: World, sp: Spec): Option<Pass> {
    if DescOf(w, sp).kms == NoKms then Some(Derived(RecordedKeyId(w, sp))) else Stored(w, sp)
  }

  /** The passphrase an attempt that begins now gives the copy. A copy that has a Vault entry keeps
      it; a copy that owns its KMIP object, or whose source has none to copy, keeps its own. */
  function PassToInherit(w: World, src: Spec, sp: Spec): Option<Pass> {
    match InheritedKms(w, src, sp)
    case NoKms => Some(Derived(InheritedKeyId(w, src, sp)))
    case SecretsMetadata => InheritedDek(w, src, sp)
    case Vault => if sp in w.vault then Some(w.vault[sp]) else if src in w.vault then Some(w.vault[src]) else None
    case Kmip =>
      var uid := if Registers(w, src, sp) then DescOf(w, src).uid else DescOf(w, sp).uid;
      if uid.Some? && uid.value in w.objects then Some(w.objects[uid.value]) else None
  }

  /** The header of `sp` opens with `pass`. */
  predicate Unlocks(w: World, sp: Spec, pass: Option<Pass>)
    requires sp in w.slots
  {
    pass.Some? && pass.value in w.slots[sp]
  }

  /** What an attempt fails on: the copy has a Vault entry other than its source's, or the source's KMIP
      object is gone before the copy has one of its own. */
  ghost predicate Fails(w: World, src: Spec, sp: Spec) {
    || (InheritedKms(w, src, sp) == Vault && src in w.vault && sp in w.vault && w.vault[src] != w.vault[sp])
    || (InheritedKms(w, src, sp) == Kmip && DescOf(w, sp).owner != Some(sp)
        && DescOf(w, src).uid.Some? && DescOf(w, src).uid.value !in w.objects)
  }

  lemma AnswersUnlessFails(w: World, src: Spec, sp: Spec)
    ensures Answers(w, src, sp) <==> !Fails(w, src, sp)
  {
    hide DescOf, InheritedKms;
  }

  /** After one undisturbed attempt, first or repeated, under any provider and from any state, the
      copy opens its header if and only if the key that is there to inherit when it begins does.
      The attempt answers unless Vault has another value in place or the source's KMIP object is
      gone. So a copy answered after its source's key was deleted or rotated does not open. */
  lemma CopyOpensIff(w: World, sp: Spec, src: Spec)
    requires CanInherit(w, sp, Attempt) && src == SourceSpec(w, w.jobs[sp].from) && src != sp && sp in w.slots
    ensures var w' := Exec(w, Attempted(sp));
            && (sp in w'.ready <==> sp in w.ready || !Fails(w, src, sp))
            && sp in w'.slots && (Unlocks(w', sp, RecordedPass(w', sp)) <==> Unlocks(w, sp, PassToInherit(w, src, sp)))
            && (sp.Vol? && !Fails(w, src, sp) ==>
                  (Unlocks(w', sp, StagePass(w', sp.image)) <==> Unlocks(w, sp, PassToInherit(w, src, sp))))
  {
    hide Exec, Attempted, DescOf, InheritedKeyId, InheritedKms, InheritedDek, SourceSpec, Answers, Fails;
    AttemptOutcome(w, sp, src);
    AnswersUnlessFails(w, src, sp);
  }

  /** An undisturbed KMIP attempt on a copy without an object of its own ends with one, holding the
      source's key, if and only if the source held a key when it began. Otherwise the copy
      finishes with whatever UID it was cloned with, and does not own it. */
  lemma KmipCopyOwnsIff(w: World, sp: Spec, src: Spec)
    requires CanInherit(w, sp, Attempt) && src == SourceSpec(w, w.jobs[sp].from) && src != sp
    requires InheritedKms(w, src, sp) == Kmip && DescOf(w, sp).owner != Some(sp)
    requires DescOf(w, src).uid.Some? ==> DescOf(w, src).uid.value in w.objects
    ensures var w' := Exec(w, Attempted(sp));
            && sp in w'.ready
            && (DescOf(w', sp).owner == Some(sp) <==> DescOf(w, src).uid.Some?)
            && (if DescOf(w, src).uid.Some?
                then DescOf(w', sp).uid == Some(w.next) && Stored(w', sp) == Some(w.objects[DescOf(w, src).uid.value])
                else DescOf(w', sp).uid == DescOf(w, sp).uid)
  {
    hide Exec, Attempted, DescOf, InheritedKeyId, InheritedKms, InheritedDek, SourceSpec;
    AttemptOutcome(w, sp, src);
  }

  // ---- when a replayed create is safe ----------------------------------------

  function Replayed(sp: Spec, from: Source): seq<Action> { [DoProvision(Redo(sp, from))] + Attempted(sp) }

  /** What a replay must find. A volume source never speaks against a copy that has a KMS id; a
      snapshot source must record the copy's own KMS id and, where the key rides in the metadata,
      the copy's own key. */
  predicate ReplaySafe(w: World, sp: Spec, from: Source) {
    var src, d := SourceSpec(w, from), DescOf(w, sp);
    if src.Vol? then d.kms == NoKms ==> DescOf(w, src).kms == NoKms
    else
      && DescOf(w, src).kms == d.kms
      && (d.kms == SecretsMetadata ==> DescOf(w, src).dek.None? || DescOf(w, src).dek == d.dek)
  }

  /** The copy of a volume under a KMS id, in its replayed create. */
  ghost predicate VolumeReplay(w: World, sp: Spec) {
    && DescOf(w, sp).kms != NoKms
    && (sp in w.jobs && w.jobs[sp].Copy? ==>
          w.jobs[sp].from.FromVolume? && (HasSource(w.jobs[sp].phase) ==> w.jobs[sp].phase.src.Vol?))
  }

  /** A step of inheritEncryption moves the copy's own job, which keeps its source; the sources that
      its phases name come from there. */
  ghost predicate SourceKept(w: World, w': World, sp: Spec)
    requires sp in w.jobs && w.jobs[sp].Copy?
  {
    sp in w'.jobs ==>
      && w'.jobs[sp].Copy? && w'.jobs[sp].from == w.jobs[sp].from
      && (HasSource(w'.jobs[sp].phase) ==>
            || (HasSource(w.jobs[sp].phase) && w'.jobs[sp].phase.src == w.jobs[sp].phase.src)
            || w'.jobs[sp].phase.src == SourceSpec(w, w.jobs[sp].from))
  }

  lemma WriteKeepsSource(w: World, sp: Spec, i: InheritStep)
    requires CanInherit(w, sp, i) && (i == SetKeyId || i == SetKms || i == SetDek)
    ensures SourceKept(w, Inherit(w, sp, i), sp)
  {
    hide DescOf, PutMeta, InheritedKeyId, InheritedKms, InheritedDek, SourceSpec;
  }

  lemma RecordKeepsSource(w: World, sp: Spec, i: InheritStep)
    requires CanInherit(w, sp, i) && (i == SetUid || i == SetOwner || i == Attempt || i == Crash || i == Finish)
    ensures SourceKept(w, Inherit(w, sp, i), sp)
  {
    hide DescOf, PutMeta, SourceSpec;
  }

  lemma CloneKeepsSource(w: World, sp: Spec)
    requires CanInherit(w, sp, CloneKey)
    ensures SourceKept(w, Inherit(w, sp, CloneKey), sp) && Inherit(w, sp, CloneKey).meta == w.meta
  {
    hide DescOf, SourceSpec, SourceKept, VaultCloneKey, KmipCloneKey, PlainCloneKey;
    var ph := w.jobs[sp].phase;
    match ph.kms
    case Vault => VaultKeepsSource(w, sp, ph.src, ph.key);
    case Kmip => KmipKeepsSource(w, sp, ph.src, ph.key);
    case _ => PlainKeepsSource(w, sp, ph.key);
  }

  lemma VaultKeepsSource(w: World, sp: Spec, src: Spec, key: Spec)
    requires CanInherit(w, sp, CloneKey)
    ensures SourceKept(w, VaultCloneKey(w, sp, src, key), sp) && VaultCloneKey(w, sp, src, key).meta == w.meta
  {
    hide SourceSpec;
  }

  lemma KmipKeepsSource(w: World, sp: Spec, src: Spec, key: Spec)
    requires CanInherit(w, sp, CloneKey)
    ensures SourceKept(w, KmipCloneKey(w, sp, src, key), sp) && KmipCloneKey(w, sp, src, key).meta == w.meta
  {
    hide DescOf, SourceSpec;
  }

  lemma PlainKeepsSource(w: World, sp: Spec, key: Spec)
    requires CanInherit(w, sp, CloneKey)
    ensures SourceKept(w, PlainCloneKey(w, sp, key), sp) && PlainCloneKey(w, sp, key).meta == w.meta
  {
    hide SourceSpec;
  }

  lemma StepKeepsSource(w: World, sp: Spec, i: InheritStep)
    requires CanInherit(w, sp, i)
    ensures SourceKept(w, Inherit(w, sp, i), sp)
  {
    hide CanInherit, Inherit, SourceKept;
    if i == CloneKey {
      CloneKeepsSource(w, sp);
    } else if i == SetKeyId || i == SetKms || i == SetDek {
      WriteKeepsSource(w, sp, i);
    } else {
      RecordKeepsSource(w, sp, i);
    }
  }

  /** A volume source leaves the copy's KMS id alone. */
  lemma WriteKeepsKms(w: World, sp: Spec, i: InheritStep)
    requires CanInherit(w, sp, i) && (i == SetKeyId || i == SetKms || i == SetDek)
    requires DescOf(w, sp).kms != NoKms && w.jobs[sp].phase.src.Vol?
    ensures DescOf(Inherit(w, sp, i), sp).kms == DescOf(w, sp).kms
  {
    hide PutMeta, DescOf;
    var w', d, ph := Inherit(w, sp, i), DescOf(w, sp), w.jobs[sp].phase;
    match i
    case SetKeyId => PutReads(w, w', sp, d.(keyId := Some(InheritedKeyId(w, ph.src, sp))), sp);
    case SetKms => PutReads(w, w', sp, d, sp);
    case SetDek =>
      if InheritedDek(w, ph.src, sp).Some? {
        PutReads(w, w', sp, d.(dek := InheritedDek(w, ph.src, sp)), sp);
      } else {
        SameDesc(w, w', sp);
      }
  }

  lemma RecordKeepsKms(w: World, sp: Spec, i: InheritStep)
    requires CanInherit(w, sp, i) && (i == SetUid || i == SetOwner || i == Attempt || i == Crash || i == Finish)
    ensures DescOf(Inherit(w, sp, i), sp).kms == DescOf(w, sp).kms
  {
    hide PutMeta, DescOf;
    var w', d, ph := Inherit(w, sp, i), DescOf(w, sp), w.jobs[sp].phase;
    match i
    case SetUid => PutReads(w, w', sp, d.(uid := Some(ph.uid)), sp);
    case SetOwner => PutReads(w, w', sp, d.(owner := Some(sp)), sp);
    case _ => SameDesc(w, w', sp);
  }

  lemma ReplayKeepsKms(w: World, sp: Spec, i: InheritStep)
    requires CanInherit(w, sp, i) && DescOf(w, sp).kms != NoKms
    requires HasSource(w.jobs[sp].phase) ==> w.jobs[sp].phase.src.Vol?
    ensures DescOf(Inherit(w, sp, i), sp).kms == DescOf(w, sp).kms
  {
    hide Inherit, DescOf;
    if i == CloneKey {
      CloneKeepsSource(w, sp);
      SameDesc(w, Inherit(w, sp, i), sp);
    } else if i == SetKeyId || i == SetKms || i == SetDek {
      WriteKeepsKms(w, sp, i);
    } else {
      RecordKeepsKms(w, sp, i);
    }
  }

  lemma VolumeReplayStep(w: World, sp: Spec, i: InheritStep)
    requires VolumeReplay(w, sp)
    ensures Admitted(w, DoInherit(sp, i)) && VolumeReplay(Next(w, DoInherit(sp, i)), sp)
  {
    hide DescOf, Inherit;
    if CanInherit(w, sp, i) {
      ReplayKeepsKms(w, sp, i);
      StepKeepsSource(w, sp, i);
    }
  }

  function Steps(sp: Spec, steps: seq<InheritStep>): seq<Action> {
    if steps == [] then [] else [DoInherit(sp, steps[0])] + Steps(sp, steps[1..])
  }

  lemma {:induction false} VolumeReplayRuns(w: World, sp: Spec, steps: seq<InheritStep>)
    requires VolumeReplay(w, sp)
    ensures AllAdmitted(w, Steps(sp, steps))
    decreases |steps|
  {
    hide VolumeReplay, Admitted, Next;
    if steps != [] {
      VolumeReplayStep(w, sp, steps[0]);
      VolumeReplayRuns(Next(w, DoInherit(sp, steps[0])), sp, steps[1..]);
      assert Steps(sp, steps)[1..] == Steps(sp, steps[1..]);
    }
  }

  /** A replay from a volume is admitted whole, with all its crashes and retries, wherever the copy has
      a KMS id: the copy's own values win. So it falls under every theorem about admitted runs. */
  lemma VolumeReplayAdmitted(w: World, sp: Spec, v: string, steps: seq<InheritStep>)
    requires DescOf(w, sp).kms != NoKms && CanProvision(w, Redo(sp, FromVolume(v)))
    ensures AllAdmitted(w, [DoProvision(Redo(sp, FromVolume(v)))] + Steps(sp, steps))
  {
    var a := DoProvision(Redo(sp, FromVolume(v)));
    SameDesc(w, Next(w, a), sp);
    VolumeReplayRuns(Next(w, a), sp, steps);
    assert ([a] + Steps(sp, steps))[1..] == Steps(sp, steps);
  }

  lemma ReplayBegins(w: World, sp: Spec, from: Source)
    requires CanProvision(w, Redo(sp, from))
    ensures var w1 := Next(w, DoProvision(Redo(sp, from)));
            && w1 == w.(jobs := w1.jobs) && CanInherit(w1, sp, Attempt) && w1.jobs[sp].from == from
            && SourceSpec(w1, from) == SourceSpec(w, from) && forall x :: DescOf(w1, x) == DescOf(w, x)
  {}

  lemma ReplayKeepsAt(w: World, w1: World, w': World, sp: Spec, from: Source)
    requires CanProvision(w, Redo(sp, from)) && sp.Vol? && sp in w.slots && SpecOk(w, sp) && w.slots[sp] != {}
    requires w1 == w.(jobs := w1.jobs) && (forall x :: DescOf(w1, x) == DescOf(w, x))
    requires SourceSpec(w, from) != sp && Outcome(w1, w', SourceSpec(w, from), sp)
    ensures w'.slots == w.slots && sp in w'.ready
    ensures DescOf(w', sp).kms == DescOf(w, sp).kms && RecordedPass(w', sp) == RecordedPass(w, sp) <==>
            ReplaySafe(w, sp, from)
  {
    hide DescOf;
  }

  /** In every reachable state, a create of a staged volume that is replayed undisturbed leaves the
      volume the provider and the key it had if and only if what it finds at its source agrees. */
  lemma ReplayKeepsIff(acts: seq<Action>, x: string, from: Source)
    requires AllAdmitted(EMPTY, acts)
    requires var w := Exec(EMPTY, acts);
             CanProvision(w, Redo(Vol(x), from)) && Vol(x) in w.slots && w.slots[Vol(x)] != {}
    ensures var w, sp := Exec(EMPTY, acts), Vol(x);
            var w' := Exec(w, Replayed(sp, from));
            && w'.slots == w.slots && sp in w'.ready
            && (DescOf(w', sp).kms == DescOf(w, sp).kms && RecordedPass(w', sp) == RecordedPass(w, sp) <==>
               ReplaySafe(w, sp, from))
  {
    hide Exec, Attempted, DescOf, SourceSpec, SpecOk, IdsKnown, Shape, JobsOk, RotsOk, Exclusive, PriorsPrivate,
         Outcome, RecordedPass, ReplaySafe;
    EmptyInv();
    T.RunKeeps(EMPTY, acts);
    var w, sp := Exec(EMPTY, acts), Vol(x);
    var w1 := Next(w, DoProvision(Redo(sp, from)));
    ReplayBegins(w, sp, from);
    SourceElsewhere(w, sp, from);
    Unroll(w, DoProvision(Redo(sp, from)), Attempted(sp));
    AttemptOutcome(w1, sp, SourceSpec(w, from));
    ReplayKeepsAt(w, w1, Exec(w1, Attempted(sp)), sp, from);
  }

  lemma SourceElsewhere(w: World, sp: Spec, from: Source)
    requires Replayable(w, sp, from) && sp.Vol?
    ensures SourceSpec(w, from) != sp
  {}
}
