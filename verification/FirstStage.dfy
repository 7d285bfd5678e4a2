/** The first stage of a volume: many nodes may try, one passphrase must come out. */
module FirstStage {
  import opened Options

  // ---- any number of concurrent attempts -----------------------------------

  /** One attempt at a provider's passphrase call: the read found nothing (`Minted`), the
      write was not acknowledged (`Unsure`), or the attempt has answered. */
  datatype Attempt = Reading | Minted(key: nat) | Unsure | Answered(key: nat) | Failed

  /** `stored` is the entry of one volume; `createOnly` writes (Vault's cas=0) never replace it. */
  datatype Store = Store(createOnly: bool, stored: Option<nat>, attempts: map<nat, Attempt>, next: nat)

  /** Reads may fail; a write may be refused, lost, or take effect without being acknowledged. */
  datatype Step =
    | Begin(t: nat)
    | Read(t: nat, ok: bool)
    | Write(t: nat, acked: bool, applied: bool)
    | ReadAgain(t: nat, ok: bool)

  function Moved(s: Store, t: nat, a: Attempt): Store { s.(attempts := s.attempts[t := a]) }

  function Next(s: Store, a: Step): Store {
    match a
    case Begin(t) => if t in s.attempts then s else Moved(s, t, Reading)
    case Read(t, ok) =>
      if t !in s.attempts || !s.attempts[t].Reading? then s
      else if !ok then Moved(s, t, Failed)
      else if s.stored.Some? then Moved(s, t, Answered(s.stored.value))
      else Moved(s, t, Minted(s.next)).(next := s.next + 1)
    case Write(t, acked, applied) =>
      if t !in s.attempts || !s.attempts[t].Minted? then s
      else
        var key := s.attempts[t].key;
        var refused := s.createOnly && s.stored.Some?;
        if acked && !refused then Moved(s, t, Answered(key)).(stored := Some(key))
        else Moved(s, t, Unsure).(stored := if applied && !refused then Some(key) else s.stored)
    case ReadAgain(t, ok) =>
      if t !in s.attempts || !s.attempts[t].Unsure? then s
      else if ok && s.stored.Some? then Moved(s, t, Answered(s.stored.value))
      else Moved(s, t, Failed)
  }

  function Run(s: Store, steps: seq<Step>): Store
    decreases |steps|
  {
    if steps == [] then s else Run(Next(s, steps[0]), steps[1..])
  }

  /** Every answer given is the stored key. */
  ghost predicate Agreed(s: Store) {
    s.createOnly && forall t | t in s.attempts && s.attempts[t].Answered? :: s.stored == Some(s.attempts[t].key)
  }

  lemma {:induction false} AgreementKept(s: Store, steps: seq<Step>)
    requires Agreed(s)
    ensures Agreed(Run(s, steps))
    ensures s.stored.Some? ==> Run(s, steps).stored == s.stored
    decreases |steps|
  {
    if steps != [] {
      assert Agreed(Next(s, steps[0]));
      AgreementKept(Next(s, steps[0]), steps[1..]);
    }
  }

  /** With create-only writes, all successful calls answer with one passphrase, under any number
      of concurrent first stages and any failures. */
  lemma OnePassphrase(steps: seq<Step>, t: nat, u: nat)
    ensures var s := Run(Store(true, None, map[], 0), steps);
            t in s.attempts && u in s.attempts && s.attempts[t].Answered? && s.attempts[u].Answered? ==>
              s.attempts[t].key == s.attempts[u].key && s.stored == Some(s.attempts[t].key)
  {
    AgreementKept(Store(true, None, map[], 0), steps);
  }

  /** No read of attempt `t` fails in `steps`. */
  ghost predicate ReadsWork(steps: seq<Step>, t: nat) {
    forall a | a in steps && (a.Read? || a.ReadAgain?) && a.t == t :: a.ok
  }

  /** From the moment an entry is there, a call whose reads work cannot fail, whatever the others do
      and however its own write ends. */
  lemma {:induction false} NeverFails(s: Store, steps: seq<Step>, t: nat)
    requires Agreed(s) && s.stored.Some? && t in s.attempts && !s.attempts[t].Failed? && ReadsWork(steps, t)
    ensures var r := Run(s, steps); Agreed(r) && r.stored == s.stored && t in r.attempts && !r.attempts[t].Failed?
    decreases |steps|
  {
    if steps != [] {
      assert Agreed(Next(s, steps[0])) && steps[0] in steps;
      assert ReadsWork(steps[1..], t);
      NeverFails(Next(s, steps[0]), steps[1..], t);
    }
  }

  /** The commands of a call, up to its last one. */
  function Calling(t: nat, acked: bool, applied: bool): seq<Step> {
    [Read(t, true), Write(t, acked, applied), ReadAgain(t, true)]
  }

  lemma CallSteps(s: Store, t: nat, acked: bool, applied: bool)
    ensures var r := Next(Next(Next(s, Read(t, true)), Write(t, acked, applied)), ReadAgain(t, true));
            Run(s, Calling(t, acked, applied)) == r
  {
    var steps := Calling(t, acked, applied);
    assert steps[1..] == [Write(t, acked, applied), ReadAgain(t, true)] && steps[1..][1..] == [ReadAgain(t, true)];
    var s2 := Next(Next(s, steps[0]), steps[1]);
    assert Run(s, steps) == Run(s2, [ReadAgain(t, true)]) == Run(Next(s2, ReadAgain(t, true)), []);
  }

  /** A call ends answered, with the stored key, if an entry is there at any point before its last
      read: after any steps of anybody the rest of the call answers. */
  lemma StoredEndsAnswered(s: Store, steps: seq<Step>, t: nat, acked: bool, applied: bool)
    requires Agreed(s) && s.stored.Some? && t in s.attempts && !s.attempts[t].Failed? && ReadsWork(steps, t)
    ensures var r := Run(Run(s, steps), Calling(t, acked, applied));
            t in r.attempts && r.attempts[t] == Answered(s.stored.value) && r.stored == s.stored
  {
    NeverFails(s, steps, t);
    var u := Run(s, steps);
    CallSteps(u, t, acked, applied);
    if u.attempts[t].Answered? { assert u.stored == Some(u.attempts[t].key); }
  }

  /** An undisturbed call that finds nothing answers with the key it drew, which is then stored,
      exactly if its write took effect; and exactly then is anything stored. */
  lemma FirstCallAnswersIff(s: Store, t: nat, acked: bool, applied: bool)
    requires s.stored.None? && t in s.attempts && s.attempts[t].Reading?
    ensures var r := Run(s, Calling(t, acked, applied));
            && t in r.attempts
            && (if acked || applied then r.attempts[t] == Answered(s.next) && r.stored == Some(s.next)
                else r.attempts[t] == Failed && r.stored == None)
  {
    CallSteps(s, t, acked, applied);
  }

  /** With overwriting writes it fails: two first stages that both read nothing answer differently. */
  lemma OverwritingDisagrees()
    ensures var s := Run(Store(false, None, map[], 0),
            [Begin(0), Begin(1), Read(0, true), Read(1, true), Write(0, true, true), Write(1, true, true)]);
            s.attempts == map[0 := Answered(0), 1 := Answered(1)]
  {
    var s0 := Store(false, None, map[], 0);
    var steps := [Begin(0), Begin(1), Read(0, true), Read(1, true), Write(0, true, true), Write(1, true, true)];
    var s1 := Next(s0, steps[0]);
    var s2 := Next(s1, steps[1]);
    var s3 := Next(s2, steps[2]);
    var s4 := Next(s3, steps[3]);
    var s5 := Next(s4, steps[4]);
    var s6 := Next(s5, steps[5]);
    assert steps[1..][1..] == steps[2..] && steps[2..][1..] == steps[3..] && steps[3..][1..] == steps[4..];
    assert steps[4..][1..] == steps[5..] && steps[5..][1..] == [];
    assert Run(s0, steps) == Run(s2, steps[2..]) == Run(s4, steps[4..]) == s6;
  }

  // ---- secrets-metadata, one attempt after another --------------------------

  /** A data key wrapped under the instance's master key. */
  datatype Wrapped = Wrapped(kek: nat, nonce: nat, dek: nat)

  function Unwrap(kek: nat, w: Wrapped): (dek: Option<nat>)
    ensures kek == w.kek <==> dek == Some(w.dek)
  {
    if kek == w.kek then Some(w.dek) else None
  }

  /** What the metadata store does to one call, and the random values it draws. */
  datatype Luck = Luck(readOk: bool, writeAcked: bool, writeApplied: bool, rereadOk: bool, key: nat, nonce: nat)

  /** The entry of one volume's metadata. */
  class MetadataEntry {
    var wrapped: Option<Wrapped>

    constructor ()
      ensures wrapped == None
    {
      wrapped := None;
    }

    /** secretsMetadataKeyService.passphrase. */
    method Passphrase(kek: nat, luck: Luck) returns (pass: Option<nat>)
      modifies this
      ensures (wrapped, pass) == Called(old(wrapped), kek, luck)
      ensures pass.Some? <==>
                luck.readOk && if old(wrapped).Some? then old(wrapped).value.kek == kek
                               else luck.writeAcked || (luck.writeApplied && luck.rereadOk)
      ensures pass.Some? ==> wrapped.Some? && Unwrap(kek, wrapped.value) == pass
      ensures old(wrapped).Some? ==> wrapped == old(wrapped)
      ensures old(wrapped).None? && wrapped.Some? ==> wrapped.value == Wrapped(kek, luck.nonce, luck.key)
    {
      if !luck.readOk {
        return None;
      }
      if wrapped.Some? {
        pass := Unwrap(kek, wrapped.value);
        return;
      }
      var w := Wrapped(kek, luck.nonce, luck.key);
      if luck.writeAcked {
        wrapped := Some(w);
        return Some(luck.key);
      }
      if luck.writeApplied {
        wrapped := Some(w);
      }
      if luck.rereadOk && wrapped.Some? {
        pass := Unwrap(kek, wrapped.value);
      } else {
        pass := None;
      }
    }
  }

  /** The outcome of one call: the metadata afterwards, and the answer. */
  function Called(wrapped: Option<Wrapped>, kek: nat, luck: Luck): (Option<Wrapped>, Option<nat>) {
    if !luck.readOk then (wrapped, None)
    else if wrapped.Some? then (wrapped, Unwrap(kek, wrapped.value))
    else
      var w := Wrapped(kek, luck.nonce, luck.key);
      if luck.writeAcked then (Some(w), Some(luck.key))
      else if luck.writeApplied then (Some(w), if luck.rereadOk then Some(luck.key) else None)
      else (None, None)
  }

  /** The answers of a sequence of calls. */
  function Answers(wrapped: Option<Wrapped>, kek: nat, lucks: seq<Luck>): (r: seq<Option<nat>>)
    ensures |r| == |lucks|
    decreases |lucks|
  {
    if lucks == [] then []
    else
      var c := Called(wrapped, kek, lucks[0]);
      [c.1] + Answers(c.0, kek, lucks[1..])
  }

  lemma {:induction false} StoredAnswers(wrapped: Option<Wrapped>, kek: nat, lucks: seq<Luck>, i: nat)
    requires wrapped.Some? && wrapped.value.kek == kek && i < |lucks|
    ensures Answers(wrapped, kek, lucks)[i].Some? ==> Answers(wrapped, kek, lucks)[i] == Some(wrapped.value.dek)
    decreases |lucks|
  {
    if i > 0 { StoredAnswers(wrapped, kek, lucks[1..], i - 1); }
  }

  /** Over any sequence of calls from an unstaged volume, whatever reads fail and whatever
      unacknowledged writes took effect, all successful calls answer with one passphrase. */
  lemma {:induction false} OneDataKey(kek: nat, lucks: seq<Luck>, i: nat, j: nat)
    requires i < j < |lucks|
    ensures var r := Answers(None, kek, lucks); r[i].Some? && r[j].Some? ==> r[i] == r[j]
    decreases |lucks|
  {
    var c := Called(None, kek, lucks[0]);
    if c.0.Some? {
      StoredAnswers(c.0, kek, lucks[1..], j - 1);
      if i > 0 { StoredAnswers(c.0, kek, lucks[1..], i - 1); }
    } else if i > 0 {
      OneDataKey(kek, lucks[1..], i - 1, j - 1);
    }
  }

  /** The write of a call that finds nothing takes effect. */
  predicate Stores(luck: Luck) { luck.readOk && (luck.writeAcked || luck.writeApplied) }

  /** The first call whose write takes effect. */
  ghost predicate FirstStores(lucks: seq<Luck>, k: nat) {
    k < |lucks| && Stores(lucks[k]) && forall j | 0 <= j < k :: !Stores(lucks[j])
  }

  lemma {:induction false} LaterAnswers(wrapped: Option<Wrapped>, kek: nat, lucks: seq<Luck>, i: nat)
    requires wrapped.Some? && wrapped.value.kek == kek && i < |lucks|
    ensures Answers(wrapped, kek, lucks)[i] == if lucks[i].readOk then Some(wrapped.value.dek) else None
    decreases |lucks|
  {
    if i > 0 { LaterAnswers(wrapped, kek, lucks[1..], i - 1); }
  }

  /** Over any sequence of calls from an unstaged volume, the key of the first call whose write takes
      effect is the answer of every later call whose read works, and that call's own if it learns of
      its write; no earlier call answers. */
  lemma {:induction false} AnswersFrom(kek: nat, lucks: seq<Luck>, k: nat, i: nat)
    requires FirstStores(lucks, k) && i < |lucks|
    ensures var answered := if i < k then false
                            else if i == k then lucks[k].writeAcked || lucks[k].rereadOk
                            else lucks[i].readOk;
            Answers(None, kek, lucks)[i] == if answered then Some(lucks[k].key) else None
    decreases |lucks|
  {
    var c := Called(None, kek, lucks[0]);
    if k == 0 {
      if i > 0 { LaterAnswers(c.0, kek, lucks[1..], i - 1); }
    } else {
      assert !Stores(lucks[0]);
      assert forall j | 0 <= j < k - 1 :: lucks[1..][j] == lucks[j + 1];
      if i > 0 { AnswersFrom(kek, lucks[1..], k - 1, i - 1); }
    }
  }

  /** Without such a call none answers. */
  lemma {:induction false} NothingStoredNoAnswer(kek: nat, lucks: seq<Luck>, i: nat)
    requires (forall j | 0 <= j < |lucks| :: !Stores(lucks[j])) && i < |lucks|
    ensures Answers(None, kek, lucks)[i] == None
    decreases |lucks|
  {
    assert !Stores(lucks[0]);
    if i > 0 { NothingStoredNoAnswer(kek, lucks[1..], i - 1); }
  }
}
