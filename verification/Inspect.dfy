/**
 The consistency scan's join of persistent volumes against what the backends list: the
 candidates for a ghost, the probe that double-checks them, and the findings.
 */
module Inspect {
  import opened Options
  import opened Text
  import opened VolumeId
  import opened Report
  import C = Config

  datatype Pv = Pv(name: string, driver: string, handle: string)

  /** What a direct probe of a volume found. */
  datatype Probe = Confirmed | Healthy | InstanceUnknown(err: string) | Inconclusive(err: string)

  /** `listed` are the backends that enumerated their volumes, `unlisted` those that cannot. */
  datatype State = State(
    driver: string, config: C.Config, pvs: seq<Pv>,
    listed: map<string, seq<Handle>>, unlisted: set<string>, probes: map<string, Probe>)

  predicate WellFormed(st: State) { forall bt | bt in st.listed :: bt !in st.unlisted }

  // ---- collecting ----------------------------------------------------------

  datatype ListAnswer = Entries(entries: seq<Handle>) | NoList | ListFailed(err: string)

  /** What one backend answers when asked for its volumes and its snapshots. */
  datatype Answers = Answers(volumes: ListAnswer, snapshots: ListAnswer)

  /** The truth collected: what is listed, which backends cannot list, and the findings of those
      that failed to. */
  datatype Truth = Truth(volumes: map<string, seq<Handle>>, noVolumes: set<string>,
                         snapshots: map<string, seq<Handle>>, noSnapshots: set<string>, skips: seq<Finding>)

  function SkipFinding(bt: string, what: string, affected: string, err: string): Finding {
    Other("collect", Skip, "backend/" + bt, "listing " + what + " failed: " + err + "; skipped: " + affected)
  }

  function VolumesSkipped(bt: string, err: string): Finding {
    SkipFinding(bt, "volumes", "ghost-pv, orphan-volume", err)
  }

  function SnapshotsSkipped(bt: string, err: string): Finding {
    SkipFinding(bt, "snapshots", "ghost-snapshot, orphan-snapshot", err)
  }

  /** The truth with the answers of one more backend. */
  function Collected(t: Truth, bt: string, a: Answers): Truth {
    Truth(if a.volumes.Entries? then t.volumes[bt := a.volumes.entries] else t.volumes,
          if a.volumes.NoList? then t.noVolumes + {bt} else t.noVolumes,
          if a.snapshots.Entries? then t.snapshots[bt := a.snapshots.entries] else t.snapshots,
          if a.snapshots.NoList? then t.noSnapshots + {bt} else t.noSnapshots,
          t.skips + (if a.volumes.ListFailed? then [VolumesSkipped(bt, a.volumes.err)] else [])
            + (if a.snapshots.ListFailed? then [SnapshotsSkipped(bt, a.snapshots.err)] else []))
  }

  function TruthOf(answers: map<string, Answers>, bts: seq<string>): Truth
    requires forall bt | bt in bts :: bt in answers
  {
    if bts == [] then Truth(map[], {}, map[], {}, [])
    else Collected(TruthOf(answers, bts[..|bts| - 1]), bts[|bts| - 1], answers[bts[|bts| - 1]])
  }

  lemma KeysKnown(keys: set<string>, out: seq<string>)
    requires InOrder(keys, out)
    ensures forall k :: k in out <==> k in keys
  {}

  /** One backend's volumes, then its snapshots. */
  method CollectBackend(before: Truth, bt: string, a: Answers) returns (t: Truth)
    ensures t == Collected(before, bt, a)
  {
    hide VolumesSkipped, SnapshotsSkipped;
    t := before;
    match a.volumes {
      case Entries(es) => t := t.(volumes := t.volumes[bt := es]);
      case NoList => t := t.(noVolumes := t.noVolumes + {bt});
      case ListFailed(err) => t := t.(skips := t.skips + [VolumesSkipped(bt, err)]);
    }
    match a.snapshots {
      case Entries(es) => t := t.(snapshots := t.snapshots[bt := es]);
      case NoList => t := t.(noSnapshots := t.noSnapshots + {bt});
      case ListFailed(err) => t := t.(skips := t.skips + [SnapshotsSkipped(bt, err)]);
    }
  }

  /** Asks each backend in order; a listing that fails is skipped with a finding. */
  method CollectBackendTruth(answers: map<string, Answers>) returns (t: Truth)
    ensures t == TruthOf(answers, Ordered(answers.Keys))
  {
    hide Collected, InOrder;
    var bts := SortedKeys(answers.Keys);
    assert forall bt | bt in bts :: bt in answers by { KeysKnown(answers.Keys, bts); }
    t := Truth(map[], {}, map[], {}, []);
    var i := 0;
    while i < |bts|
      invariant i <= |bts| && t == TruthOf(answers, bts[..i])
    {
      var bt := bts[i];
      assert bts[..i + 1][..i] == bts[..i];
      t := CollectBackend(t, bt, answers[bt]);
      i := i + 1;
    }
    assert bts[..i] == bts;
  }

  /** Every backend is listed with exactly its entries, or unlisted, or has a finding that says its
      listing failed: for its volumes, and independently for its snapshots. */
  lemma {:induction false} TruthSorts(answers: map<string, Answers>, bts: seq<string>, bt: string)
    requires (forall b | b in bts :: b in answers) && bt in bts
    ensures var t, a := TruthOf(answers, bts), answers[bt];
            && (bt in t.volumes <==> a.volumes.Entries?) && (bt in t.volumes ==> t.volumes[bt] == a.volumes.entries)
            && (bt in t.noVolumes <==> a.volumes.NoList?)
            && (bt in t.snapshots <==> a.snapshots.Entries?)
            && (bt in t.snapshots ==> t.snapshots[bt] == a.snapshots.entries)
            && (bt in t.noSnapshots <==> a.snapshots.NoList?)
            && (a.volumes.ListFailed? ==> VolumesSkipped(bt, a.volumes.err) in t.skips)
            && (a.snapshots.ListFailed? ==> SnapshotsSkipped(bt, a.snapshots.err) in t.skips)
    decreases |bts|
  {
    var init, last := bts[..|bts| - 1], bts[|bts| - 1];
    assert bts == init + [last];
    if bt in init { TruthSorts(answers, init, bt); } else { TruthKnows(answers, init, bt); }
  }

  lemma {:induction false} TruthKnows(answers: map<string, Answers>, bts: seq<string>, bt: string)
    requires (forall b | b in bts :: b in answers) && bt !in bts
    ensures var t := TruthOf(answers, bts);
            bt !in t.volumes && bt !in t.noVolumes && bt !in t.snapshots && bt !in t.noSnapshots
    decreases |bts|
  {
    if bts != [] {
      assert bts[|bts| - 1] in bts;
      TruthKnows(answers, bts[..|bts| - 1], bt);
    }
  }

  /** The finding says that a listing of the backend failed, and how. */
  ghost predicate SaysFailed(f: Finding, bt: string, a: Answers) {
    || (a.volumes.ListFailed? && f == VolumesSkipped(bt, a.volumes.err))
    || (a.snapshots.ListFailed? && f == SnapshotsSkipped(bt, a.snapshots.err))
  }

  /** There is no other finding: each says that a listing failed. */
  lemma {:induction false} SkipsAreFailures(answers: map<string, Answers>, bts: seq<string>, f: Finding)
    requires (forall b | b in bts :: b in answers) && f in TruthOf(answers, bts).skips
    ensures exists b :: b in bts && SaysFailed(f, b, answers[b]) && SeverityOf(f).Skip? && Resource(f) == "backend/" + b
    decreases |bts|
  {
    var init, last := bts[..|bts| - 1], bts[|bts| - 1];
    assert bts == init + [last];
    if f in TruthOf(answers, init).skips {
      SkipsAreFailures(answers, init, f);
      var b :| b in init && SaysFailed(f, b, answers[b]) && SeverityOf(f).Skip? && Resource(f) == "backend/" + b;
      assert b in bts;
    } else {
      assert SaysFailed(f, last, answers[last]);
    }
  }

  function Failures(a: Answers): nat {
    (if a.volumes.ListFailed? then 1 else 0) + if a.snapshots.ListFailed? then 1 else 0
  }

  /** How many listings failed. */
  function AllFailures(answers: map<string, Answers>, bts: seq<string>): nat
    requires forall b | b in bts :: b in answers
  {
    if bts == [] then 0 else Failures(answers[bts[0]]) + AllFailures(answers, bts[1..])
  }

  lemma {:induction false} FailuresAppend(answers: map<string, Answers>, bts: seq<string>, bt: string)
    requires (forall b | b in bts :: b in answers) && bt in answers
    ensures AllFailures(answers, bts + [bt]) == AllFailures(answers, bts) + Failures(answers[bt])
    decreases |bts|
  {
    hide Failures;
    if bts == [] {
      assert ([] + [bt])[1..] == [];
    } else {
      assert (bts + [bt])[1..] == bts[1..] + [bt];
      FailuresAppend(answers, bts[1..], bt);
    }
  }

  /** And there are as many findings as listings failed. */
  lemma {:induction false} SkipsCountFailures(answers: map<string, Answers>, bts: seq<string>)
    requires forall b | b in bts :: b in answers
    ensures |TruthOf(answers, bts).skips| == AllFailures(answers, bts)
    decreases |bts|
  {
    hide VolumesSkipped, SnapshotsSkipped, AllFailures;
    if bts == [] {
      assert AllFailures(answers, []) == 0 by { NoFailures(answers); }
    } else {
      var init, last := bts[..|bts| - 1], bts[|bts| - 1];
      assert bts == init + [last];
      SkipsCountFailures(answers, init);
      FailuresAppend(answers, init, last);
    }
  }

  lemma NoFailures(answers: map<string, Answers>)
    ensures AllFailures(answers, []) == 0
  {}

  /** A Bard volume whose backend listed successfully and does not have it. */
  predicate IsMissing(st: State, pv: Pv) {
    pv.driver == st.driver && Parse(pv.handle).Some? &&
    var bt := Parse(pv.handle).value.backend;
    bt in st.listed && forall e | e in st.listed[bt] :: Encode(e) != pv.handle
  }

  function Candidates(st: State, pvs: seq<Pv>): seq<Handle> {
    if pvs == [] then []
    else
      var last := pvs[|pvs| - 1];
      Candidates(st, pvs[..|pvs| - 1]) + if IsMissing(st, last) then [Parse(last.handle).value] else []
  }

  method GhostCandidates(st: State) returns (out: seq<Handle>)
    ensures out == Candidates(st, st.pvs)
  {
    out := [];
    var i := 0;
    while i < |st.pvs|
      invariant i <= |st.pvs| && out == Candidates(st, st.pvs[..i])
    {
      var pv := st.pvs[i];
      assert st.pvs[..i + 1][..i] == st.pvs[..i];
      if pv.driver == st.driver {
        var h := Parse(pv.handle);
        if h.Some? && h.value.backend in st.listed {
          var present := set e | e in st.listed[h.value.backend] :: Encode(e);
          if pv.handle !in present { out := out + [h.value]; }
        }
      }
      i := i + 1;
    }
    assert st.pvs[..i] == st.pvs;
  }

  lemma {:induction false} CandidateIff(st: State, pvs: seq<Pv>, h: Handle)
    ensures h in Candidates(st, pvs) <==> exists pv :: pv in pvs && IsMissing(st, pv) && Parse(pv.handle) == Some(h)
  {
    if pvs != [] {
      var init, last := pvs[..|pvs| - 1], pvs[|pvs| - 1];
      assert pvs == init + [last];
      CandidateIff(st, init, h);
    }
  }

  datatype HealthAnswer = Unsupported | InvalidArgument(err: string) | NotFound | Failed(err: string) | Abnormal | Fine

  function ProbeOf(a: HealthAnswer): Option<Probe> {
    match a
    case Unsupported => None
    case InvalidArgument(err) => Some(InstanceUnknown(err))
    case NotFound => Some(Confirmed)
    case Failed(err) => Some(Inconclusive(err))
    case Abnormal => Some(Confirmed)
    case Fine => Some(Healthy)
  }

  /** What probing a candidate records: nothing if its backend has no client or no probe. */
  function Probed(clients: set<string>, health: Handle -> HealthAnswer, h: Handle): Option<Probe> {
    if h.backend !in clients then None else ProbeOf(health(h))
  }

  method ProbeGhostCandidates(st: State, clients: set<string>, health: Handle -> HealthAnswer)
    returns (probes: map<string, Probe>)
    ensures forall s :: s in probes <==> exists h ::
            h in Candidates(st, st.pvs) && Probed(clients, health, h).Some? && Encode(h) == s
    ensures forall h | h in Candidates(st, st.pvs) && Probed(clients, health, h).Some? ::
            probes[Encode(h)] == Probed(clients, health, h).value
  {
    probes := map[];
    var cs := GhostCandidates(st);
    var i := 0;
    while i < |cs|
      invariant i <= |cs|
      invariant forall s :: s in probes <==> exists h ::
          h in cs[..i] && Probed(clients, health, h).Some? && Encode(h) == s
      invariant forall h | h in cs[..i] && Probed(clients, health, h).Some? ::
          probes[Encode(h)] == Probed(clients, health, h).value
    {
      assert cs[..i + 1] == cs[..i] + [cs[i]];
      CandidatesDistinct(st, cs, i);
      if cs[i].backend in clients {
        var p := ProbeOf(health(cs[i]));
        if p.Some? { probes := probes[Encode(cs[i]) := p.value]; }
      }
      i := i + 1;
    }
    assert cs[..i] == cs;
  }

  /** Candidates are valid handles, so equal encodings are equal handles. */
  lemma CandidatesDistinct(st: State, cs: seq<Handle>, i: nat)
    requires cs == Candidates(st, st.pvs) && i < |cs|
    ensures forall h | h in cs && Encode(h) == Encode(cs[i]) :: h == cs[i]
  {
    forall h | h in cs && Encode(h) == Encode(cs[i]) ensures h == cs[i] {
      CandidateValid(st, h);
      CandidateValid(st, cs[i]);
      ParseEncode(h);
      ParseEncode(cs[i]);
    }
  }

  lemma CandidateValid(st: State, h: Handle)
    requires h in Candidates(st, st.pvs)
    ensures Valid(h)
  {
    CandidateIff(st, st.pvs, h);
    var pv :| pv in st.pvs && IsMissing(st, pv) && Parse(pv.handle) == Some(h);
    EncodeParse(pv.handle);
  }

  /** The probed handles are exactly those of the missing volumes whose backend has a
      client and a probe. */
  lemma ProbedExactly(st: State, clients: set<string>, health: Handle -> HealthAnswer, probes: map<string, Probe>,
      s: string)
    requires forall t :: t in probes <==> exists h ::
             h in Candidates(st, st.pvs) && Probed(clients, health, h).Some? && Encode(h) == t
    ensures s in probes <==> exists pv ::
            pv in st.pvs && IsMissing(st, pv) && pv.handle == s && Probed(clients, health, Parse(s).value).Some?
  {
    if s in probes {
      var h :| h in Candidates(st, st.pvs) && Probed(clients, health, h).Some? && Encode(h) == s;
      CandidateIff(st, st.pvs, h);
      var pv :| pv in st.pvs && IsMissing(st, pv) && Parse(pv.handle) == Some(h);
      EncodeParse(pv.handle);
    }
    if pv :| pv in st.pvs && IsMissing(st, pv) && pv.handle == s && Probed(clients, health, Parse(s).value).Some? {
      CandidateIff(st, st.pvs, Parse(s).value);
      EncodeParse(s);
    }
  }

  // ---- instances a plugin cannot see ---------------------------------------

  function Key(h: Handle): string { h.backend + "|" + h.instance }

  /** Some probe of a volume on the same instance found that the plugin does not know it. */
  ghost predicate Invisible(st: State, h: Handle) {
    exists s :: s in st.probes && st.probes[s].InstanceUnknown? && Parse(s).Some?
      && Parse(s).value.backend == h.backend && Parse(s).value.instance == h.instance
  }

  ghost predicate IsMissingKeys(st: State, missing: set<string>) {
    forall k :: k in missing <==>
      exists s :: s in st.probes && st.probes[s].InstanceUnknown? && Parse(s).Some? && Key(Parse(s).value) == k
  }

  method MissingInstances(st: State) returns (missing: set<string>)
    ensures IsMissingKeys(st, missing)
  {
    missing := {};
    var todo := st.probes.Keys;
    while todo != {}
      invariant todo <= st.probes.Keys
      invariant forall k :: k in missing <==>
                  exists s ::
                      s in st.probes && s !in todo && st.probes[s].InstanceUnknown? && Parse(s).Some? &&
                          Key(Parse(s).value) == k
      decreases |todo|
    {
      var s :| s in todo;
      todo := todo - {s};
      if st.probes[s].InstanceUnknown? && Parse(s).Some? { missing := missing + {Key(Parse(s).value)}; }
    }
  }

  lemma MissingKeyIff(st: State, missing: set<string>, h: Handle)
    requires IsMissingKeys(st, missing) && Valid(h)
    ensures Key(h) in missing <==> Invisible(st, h)
  {
    if Key(h) in missing {
      var s :| s in st.probes && st.probes[s].InstanceUnknown? && Parse(s).Some? && Key(Parse(s).value) == Key(h);
      EncodeParse(s);
      CutUnique(Parse(s).value.backend, Parse(s).value.instance, h.backend, h.instance, '|');
    }
  }

  function MissingCount(missing: set<string>, f: Finding): nat {
    if f.MissingInstance? && '|' !in f.backend && f.backend + "|" + f.instance in missing then 1 else 0
  }

  /** A key cut at its separator. */
  function Cut(k: string): (f: Finding)
    requires '|' in k
    ensures f.MissingInstance?
  {
    MissingInstance(k[..IndexOf(k, '|')], k[IndexOf(k, '|') + 1..])
  }

  function CutAll(keys: seq<string>): seq<Finding>
    requires forall k | k in keys :: '|' in k
  {
    if keys == [] then [] else CutAll(keys[..|keys| - 1]) + [Cut(keys[|keys| - 1])]
  }

  /** The findings for the keys, in order. */
  method MissingInstanceFindings(missing: set<string>) returns (out: seq<Finding>)
    requires forall k | k in missing :: '|' in k
    ensures out == CutAll(Ordered(missing))
  {
    out := [];
    var keys := SortedKeys(missing);
    var i := 0;
    while i < |keys|
      invariant i <= |keys| && out == CutAll(keys[..i])
    {
      var k := keys[i];
      assert keys[..i + 1][..i] == keys[..i];
      out := out + [MissingInstance(k[..IndexOf(k, '|')], k[IndexOf(k, '|') + 1..])];
      i := i + 1;
    }
    assert keys[..i] == keys;
  }

  predicate Distinct(keys: seq<string>) { forall i, j | 0 <= i < j < |keys| :: keys[i] != keys[j] }

  /** One finding for each key, and no other. */
  lemma {:induction false} CutOnce(keys: seq<string>, f: Finding)
    requires Distinct(keys) && forall k | k in keys :: '|' in k
    ensures multiset(CutAll(keys))[f] == MissingCount((set k | k in keys), f)
    decreases |keys|
  {
    hide IndexOf, Cut;
    if keys != [] {
      var init, last := keys[..|keys| - 1], keys[|keys| - 1];
      assert keys == init + [last] && last !in init;
      CutOnce(init, f);
      var was, now := (set k | k in init), (set k | k in keys);
      assert now == was + {last};
      CutWhole(last);
      CountCut(last, Cut(last), was, now, f);
    }
  }

  lemma CountCut(k: string, cut: Finding, was: set<string>, now: set<string>, f: Finding)
    requires cut.MissingInstance? && '|' !in cut.backend && k == cut.backend + "|" + cut.instance && k !in was
    requires now == was + {k}
    ensures MissingCount(now, f) == MissingCount(was, f) + if f == cut then 1 else 0
  {
    if f.MissingInstance? && '|' !in f.backend && f.backend + "|" + f.instance == k {
      CutUnique(f.backend, f.instance, cut.backend, cut.instance, '|');
    }
  }

  lemma CutWhole(k: string)
    requires '|' in k
    ensures '|' !in Cut(k).backend && k == Cut(k).backend + "|" + Cut(k).instance
  {
    assert k == k[..IndexOf(k, '|')] + "|" + k[IndexOf(k, '|') + 1..];
  }

  // ---- the join ------------------------------------------------------------

  predicate Configured(st: State, h: Handle) {
    h.backend in st.config.backends && h.instance in st.config.backends[h.backend].instances
  }

  predicate IsUnverifiable(st: State, pv: Pv) {
    pv.driver == st.driver && Parse(pv.handle).Some? && Parse(pv.handle).value.backend in st.unlisted
  }

  function PvFindings(st: State, missing: set<string>, pv: Pv): seq<Finding> {
    if pv.driver != st.driver then []
    else if Parse(pv.handle).None? then [UnparseableHandle(pv.name)]
    else
      var h := Parse(pv.handle).value;
      (if Configured(st, h) then [] else [UnknownInstance(pv.name)]) +
      (if h.backend in st.unlisted || !IsMissing(st, pv) || Key(h) in missing then []
       else if pv.handle in st.probes && st.probes[pv.handle].Healthy? then [ListInconsistent(pv.name)]
       else [GhostPv(pv.name)])
  }

  function AllPvFindings(st: State, missing: set<string>, pvs: seq<Pv>): seq<Finding> {
    if pvs == [] then [] else AllPvFindings(st, missing, pvs[..|pvs| - 1]) + PvFindings(st, missing, pvs[|pvs| - 1])
  }

  function Referenced(st: State, pvs: seq<Pv>): set<string> {
    set pv | pv in pvs && pv.driver == st.driver && Parse(pv.handle).Some? :: pv.handle
  }

  function Unverified(st: State, pvs: seq<Pv>, bt: string): nat {
    if pvs == [] then 0
    else
      var last := pvs[|pvs| - 1];
      Unverified(st, pvs[..|pvs| - 1], bt) +
          if IsUnverifiable(st, last) && Parse(last.handle).value.backend == bt then 1 else 0
  }

  /** `counts` holds the number of unverifiable volumes of each backend that has any. */
  ghost predicate Counts(st: State, pvs: seq<Pv>, counts: map<string, nat>) {
    && (forall bt :: Unverified(st, pvs, bt) == if bt in counts then counts[bt] else 0)
    && (forall bt | bt in counts :: counts[bt] > 0)
  }

  function CountsOf(st: State, pvs: seq<Pv>): map<string, nat> {
    if pvs == [] then map[]
    else
      var last, counts := pvs[|pvs| - 1], CountsOf(st, pvs[..|pvs| - 1]);
      if IsUnverifiable(st, last) then Bumped(counts, Parse(last.handle).value.backend) else counts
  }

  method JoinPvs(st: State, missing: set<string>)
    returns (out: seq<Finding>, handles: set<string>, unverifiable: map<string, nat>)
    ensures out == AllPvFindings(st, missing, st.pvs) && handles == Referenced(st, st.pvs)
    ensures Counts(st, st.pvs, unverifiable) && unverifiable == CountsOf(st, st.pvs)
  {
    hide PvFindings, Parse;
    out, handles, unverifiable := [], {}, map[];
    var i := 0;
    while i < |st.pvs|
      invariant i <= |st.pvs| && out == AllPvFindings(st, missing, st.pvs[..i])
      invariant handles == Referenced(st, st.pvs[..i])
      invariant Counts(st, st.pvs[..i], unverifiable) && unverifiable == CountsOf(st, st.pvs[..i])
    {
      var pv := st.pvs[i];
      assert st.pvs[..i + 1][..i] == st.pvs[..i];
      JoinStep(st, missing, st.pvs[..i], pv, unverifiable);
      assert st.pvs[..i + 1] == st.pvs[..i] + [pv];
      var found := PvFindingsOf(st, missing, pv);
      out := out + found;
      if pv.driver == st.driver && Parse(pv.handle).Some? { handles := handles + {pv.handle}; }
      if IsUnverifiable(st, pv) { unverifiable := Bumped(unverifiable, Parse(pv.handle).value.backend); }
      i := i + 1;
    }
    assert st.pvs[..i] == st.pvs;
  }

  function Bumped(counts: map<string, nat>, bt: string): map<string, nat> {
    counts[bt := if bt in counts then counts[bt] + 1 else 1]
  }

  lemma JoinFindings(st: State, missing: set<string>, pvs: seq<Pv>, pv: Pv)
    ensures AllPvFindings(st, missing, pvs + [pv]) == AllPvFindings(st, missing, pvs) + PvFindings(st, missing, pv)
  {
    hide PvFindings;
    assert (pvs + [pv])[..|pvs|] == pvs;
  }

  lemma JoinReferenced(st: State, pvs: seq<Pv>, pv: Pv)
    ensures Referenced(st, pvs + [pv])
         == Referenced(st, pvs) + if pv.driver == st.driver && Parse(pv.handle).Some? then {pv.handle} else {}
  {
    hide Parse;
  }

  lemma JoinCounts(st: State, pvs: seq<Pv>, pv: Pv, counts: map<string, nat>)
    requires Counts(st, pvs, counts)
    ensures var all := pvs + [pv];
            Counts(st, all, if IsUnverifiable(st, pv) then Bumped(counts, Parse(pv.handle).value.backend) else counts)
  {
    hide Parse;
    assert (pvs + [pv])[..|pvs|] == pvs;
  }

  lemma {:induction false} CountsAre(st: State, pvs: seq<Pv>)
    ensures Counts(st, pvs, CountsOf(st, pvs))
    decreases |pvs|
  {
    if pvs != [] {
      var init, last := pvs[..|pvs| - 1], pvs[|pvs| - 1];
      assert pvs == init + [last];
      CountsAre(st, init);
      hide Counts, Parse;
      JoinCounts(st, init, last, CountsOf(st, init));
    }
  }

  lemma JoinStep(st: State, missing: set<string>, pvs: seq<Pv>, pv: Pv, counts: map<string, nat>)
    requires Counts(st, pvs, counts)
    ensures AllPvFindings(st, missing, pvs + [pv]) == AllPvFindings(st, missing, pvs) + PvFindings(st, missing, pv)
    ensures Referenced(st, pvs + [pv])
         == Referenced(st, pvs) + if pv.driver == st.driver && Parse(pv.handle).Some? then {pv.handle} else {}
    ensures Counts(st, pvs + [pv], if IsUnverifiable(st, pv) then Bumped(counts, Parse(pv.handle).value.backend)
            else counts)
  {
    hide AllPvFindings, PvFindings, Referenced, Counts, Parse;
    JoinFindings(st, missing, pvs, pv);
    JoinReferenced(st, pvs, pv);
    JoinCounts(st, pvs, pv, counts);
  }

  /** The findings about one volume, in the order the scan appends them. */
  method PvFindingsOf(st: State, missing: set<string>, pv: Pv) returns (out: seq<Finding>)
    ensures out == PvFindings(st, missing, pv)
  {
    out := [];
    if pv.driver != st.driver { return; }
    var h := Parse(pv.handle);
    if h.None? { return [UnparseableHandle(pv.name)]; }
    if !Configured(st, h.value) { out := [UnknownInstance(pv.name)]; }
    if h.value.backend in st.unlisted { return; }
    if h.value.backend in st.listed && pv.handle !in (set e | e in st.listed[h.value.backend] :: Encode(e)) {
      if Key(h.value) in missing { return; }
      if pv.handle in st.probes && st.probes[pv.handle].Healthy? {
        out := out + [ListInconsistent(pv.name)];
      } else {
        out := out + [GhostPv(pv.name)];
      }
    }
  }

  function OrphanCount(st: State, handles: set<string>, f: Finding): nat {
    if f.OrphanVolume? && f.backend in st.listed && Encode(f.volume) !in handles
        then multiset(st.listed[f.backend])[f.volume] else 0
  }

  function OrphansOf(bt: string, entries: seq<Handle>, handles: set<string>): seq<Finding> {
    if entries == [] then []
    else
      var last := entries[|entries| - 1];
      OrphansOf(bt, entries[..|entries| - 1], handles) + if Encode(last) in handles then []
          else [OrphanVolume(bt, last)]
  }

  /** The orphans of the given backends, one after the other. */
  function OrphansIn(st: State, bts: seq<string>, handles: set<string>): seq<Finding>
    requires forall bt | bt in bts :: bt in st.listed
  {
    if bts == [] then []
    else
      var last := bts[|bts| - 1];
      OrphansIn(st, bts[..|bts| - 1], handles) + OrphansOf(last, st.listed[last], handles)
  }

  method BackendOrphans(bt: string, entries: seq<Handle>, handles: set<string>) returns (out: seq<Finding>)
    ensures out == OrphansOf(bt, entries, handles)
  {
    out := [];
    var i := 0;
    while i < |entries|
      invariant i <= |entries| && out == OrphansOf(bt, entries[..i], handles)
    {
      assert entries[..i + 1][..i] == entries[..i];
      if Encode(entries[i]) !in handles { out := out + [OrphanVolume(bt, entries[i])]; }
      i := i + 1;
    }
    assert entries[..i] == entries;
  }

  method Orphans(st: State, handles: set<string>) returns (out: seq<Finding>)
    ensures out == OrphansIn(st, Ordered(st.listed.Keys), handles)
  {
    out := [];
    var bts := SortedKeys(st.listed.Keys);
    var i := 0;
    while i < |bts|
      invariant i <= |bts| && out == OrphansIn(st, bts[..i], handles)
    {
      assert bts[..i + 1][..i] == bts[..i];
      var more := BackendOrphans(bts[i], st.listed[bts[i]], handles);
      out := out + more;
      i := i + 1;
    }
    assert bts[..i] == bts;
  }

  lemma {:induction false} OrphansOfCount(bt: string, entries: seq<Handle>, handles: set<string>, f: Finding)
    ensures multiset(OrphansOf(bt, entries, handles))[f] ==
              if f.OrphanVolume? && f.backend == bt && Encode(f.volume) !in handles
                  then multiset(entries)[f.volume] else 0
    decreases |entries|
  {
    if entries != [] {
      assert entries == entries[..|entries| - 1] + [entries[|entries| - 1]];
      OrphansOfCount(bt, entries[..|entries| - 1], handles, f);
    }
  }

  /** Each listed entry without a reference, as often as it is listed. */
  lemma {:induction false} OrphansInCount(st: State, bts: seq<string>, handles: set<string>, f: Finding)
    requires Distinct(bts) && forall bt | bt in bts :: bt in st.listed
    ensures multiset(OrphansIn(st, bts, handles))[f] == if f.OrphanVolume? && f.backend in bts
            then OrphanCount(st, handles, f) else 0
    decreases |bts|
  {
    if bts != [] {
      var init, last := bts[..|bts| - 1], bts[|bts| - 1];
      assert bts == init + [last] && last !in init;
      OrphansInCount(st, init, handles, f);
      OrphansOfCount(last, st.listed[last], handles, f);
    }
  }

  function UnverifiableCount(st: State, f: Finding): nat {
    if f.Unverifiable? && f.count > 0 && f.count == Unverified(st, st.pvs, f.backend) then 1 else 0
  }

  function UnverifiableIn(counts: map<string, nat>, bts: seq<string>): seq<Finding>
    requires forall bt | bt in bts :: bt in counts
  {
    if bts == [] then []
    else UnverifiableIn(counts, bts[..|bts| - 1]) + [Unverifiable(bts[|bts| - 1], counts[bts[|bts| - 1]])]
  }

  method UnverifiableFindings(counts: map<string, nat>) returns (out: seq<Finding>)
    ensures out == UnverifiableIn(counts, Ordered(counts.Keys))
  {
    out := [];
    var bts := SortedKeys(counts.Keys);
    var i := 0;
    while i < |bts|
      invariant i <= |bts| && out == UnverifiableIn(counts, bts[..i])
    {
      assert bts[..i + 1][..i] == bts[..i];
      out := out + [Unverifiable(bts[i], counts[bts[i]])];
      i := i + 1;
    }
    assert bts[..i] == bts;
  }

  /** One finding with the count for each backend, and no other. */
  lemma {:induction false} UnverifiableOnce(counts: map<string, nat>, bts: seq<string>, f: Finding)
    requires Distinct(bts) && forall bt | bt in bts :: bt in counts
    ensures multiset(UnverifiableIn(counts, bts))[f]
         == if f.Unverifiable? && f.backend in bts && f.count == counts[f.backend] then 1 else 0
    decreases |bts|
  {
    if bts != [] {
      var init, last := bts[..|bts| - 1], bts[|bts| - 1];
      assert bts == init + [last] && last !in init;
      UnverifiableOnce(counts, init, f);
    }
  }

  /** How often the volume join reports `f`. */
  function JoinCount(st: State, missing: set<string>, f: Finding): nat {
    multiset(AllPvFindings(st, missing, st.pvs))[f] + OrphanCount(st, Referenced(st, st.pvs), f) +
        UnverifiableCount(st, f)
  }

  /** The findings of the volume join: volume by volume, then backend by backend. */
  ghost function Joined(st: State, missing: set<string>): seq<Finding> {
    AllPvFindings(st, missing, st.pvs) + OrphansIn(st, Ordered(st.listed.Keys), Referenced(st, st.pvs))
      + UnverifiableIn(CountsOf(st, st.pvs), Ordered(CountsOf(st, st.pvs).Keys))
  }

  method CheckVolumes(st: State, missing: set<string>) returns (out: seq<Finding>)
    ensures out == Joined(st, missing) && Counts(st, st.pvs, CountsOf(st, st.pvs))
    ensures DistinctNames(st.pvs) ==> forall pv | pv in st.pvs :: JudgesHandle(st, pv, multiset(out))
  {
    hide Joined, JudgesHandle;
    var pvs, handles, unverifiable := JoinPvs(st, missing);
    var orphans := Orphans(st, handles);
    var rest := UnverifiableFindings(unverifiable);
    out := pvs + orphans + rest;
    JoinedIs(st, missing);
    if DistinctNames(st.pvs) {
      forall i | 0 <= i < |st.pvs| ensures JudgesHandle(st, st.pvs[i], multiset(out)) {
        HandleReported(st, missing, i);
      }
    }
  }

  lemma JoinedIs(st: State, missing: set<string>)
    ensures Joined(st, missing) ==
              AllPvFindings(st, missing, st.pvs) + OrphansIn(st, Ordered(st.listed.Keys), Referenced(st, st.pvs))
                + UnverifiableIn(CountsOf(st, st.pvs), Ordered(CountsOf(st, st.pvs).Keys))
  {}

  /** Every finding exactly as often as the join says. */
  lemma JoinedCount(st: State, missing: set<string>, f: Finding)
    ensures multiset(Joined(st, missing))[f] == JoinCount(st, missing, f)
  {
    var counts := CountsOf(st, st.pvs);
    CountsAre(st, st.pvs);
    OrphansInCount(st, Ordered(st.listed.Keys), Referenced(st, st.pvs), f);
    UnverifiableOnce(counts, Ordered(counts.Keys), f);
  }

  /** All findings, the unmodelled checks' among them, stably sorted into the report: ties stay in
      the order in which the checks and their sorted keys bring them up. */
  method Check(st: State, others: seq<Finding>) returns (report: seq<Finding>, missing: set<string>)
    ensures IsMissingKeys(st, missing) && forall k | k in missing :: '|' in k
    ensures StablySorted(CutAll(Ordered(missing)) + Joined(st, missing) + others, report)
    ensures forall f ::
            multiset(report)[f] == MissingCount(missing, f) + JoinCount(st, missing, f) + multiset(others)[f]
    ensures forall i, j | 0 <= i < j < |report| :: SeverityOf(report[j]).Error? ==> SeverityOf(report[i]).Error?
  {
    hide StablySorted, TiedWith, Sorted, Joined, JoinCount;
    missing := MissingInstances(st);
    forall k | k in missing ensures '|' in k {
      var s :| s in st.probes && st.probes[s].InstanceUnknown? && Parse(s).Some? && Key(Parse(s).value) == k;
      assert k[|Parse(s).value.backend|] == '|';
    }
    var invisible := MissingInstanceFindings(missing);
    var volumes := CheckVolumes(st, missing);
    var findings := invisible + volumes + others;
    report := StableSort(findings);
    SortStable(findings);
    SortedSame(findings, report);
    forall i: nat, j: nat | i < j < |report| ensures SeverityOf(report[j]).Error? ==> SeverityOf(report[i]).Error? {
      SortedReport(findings, report);
      SevereFirst(report, i, j);
    }
    forall f ensures multiset(report)[f] == MissingCount(missing, f) + JoinCount(st, missing, f) + multiset(others)[f] {
      OrderDistinct(missing);
      CutOnce(Ordered(missing), f);
      assert (set k | k in Ordered(missing)) == missing;
      JoinedCount(st, missing, f);
    }
  }

  lemma OrderDistinct(keys: set<string>)
    ensures Distinct(Ordered(keys)) && (set k | k in Ordered(keys)) == keys
  {}

  lemma SortedReport(fs: seq<Finding>, r: seq<Finding>)
    requires StablySorted(fs, r)
    ensures Sorted(r)
  {}

  lemma SortedSame(fs: seq<Finding>, r: seq<Finding>)
    requires StablySorted(fs, r)
    ensures multiset(r) == multiset(fs)
  {}

  // ---- what the report says about a missing volume -------------------------

  predicate DistinctNames(pvs: seq<Pv>) { forall i, j | 0 <= i < j < |pvs| :: pvs[i].name != pvs[j].name }

  predicate AboutPv(f: Finding) { f.UnparseableHandle? || f.UnknownInstance? || f.GhostPv? || f.ListInconsistent? }

  lemma {:induction false} OneVolumeSpeaks(st: State, missing: set<string>, pvs: seq<Pv>, i: nat, f: Finding)
    requires DistinctNames(pvs) && i < |pvs| && AboutPv(f) && f.pv == pvs[i].name
    ensures multiset(AllPvFindings(st, missing, pvs))[f] == multiset(PvFindings(st, missing, pvs[i]))[f]
    decreases |pvs|
  {
    var init, last := pvs[..|pvs| - 1], pvs[|pvs| - 1];
    if i == |pvs| - 1 {
      NobodySpeaks(st, missing, init, f);
    } else {
      OneVolumeSpeaks(st, missing, init, i, f);
      Silent(st, missing, last, f);
    }
  }

  lemma Silent(st: State, missing: set<string>, pv: Pv, f: Finding)
    requires AboutPv(f) ==> f.pv != pv.name
    ensures multiset(PvFindings(st, missing, pv))[f] == 0
  {
    assert f !in PvFindings(st, missing, pv);
  }

  lemma {:induction false} NobodySpeaks(st: State, missing: set<string>, pvs: seq<Pv>, f: Finding)
    requires AboutPv(f) ==> forall i | 0 <= i < |pvs| :: pvs[i].name != f.pv
    ensures multiset(AllPvFindings(st, missing, pvs))[f] == 0
    decreases |pvs|
  {
    if pvs != [] {
      NobodySpeaks(st, missing, pvs[..|pvs| - 1], f);
      Silent(st, missing, pvs[|pvs| - 1], f);
    }
  }

  lemma PvVerdict(st: State, missing: set<string>, pv: Pv)
    requires WellFormed(st)
    ensures var fs := multiset(PvFindings(st, missing, pv));
            var visible := IsMissing(st, pv) && Key(Parse(pv.handle).value) !in missing;
            var healthy := pv.handle in st.probes && st.probes[pv.handle].Healthy?;
            && fs[GhostPv(pv.name)] == (if visible && !healthy then 1 else 0)
            && fs[ListInconsistent(pv.name)] == (if visible && healthy then 1 else 0)
  {}

  /** A volume of Bard's whose handle encodes `h`, on a backend that listed no entry of that encoding. */
  ghost predicate Unlisted(st: State, pv: Pv, h: Handle) {
    && pv.driver == st.driver && Valid(h) && Encode(h) == pv.handle
    && h.backend in st.listed && forall e | e in st.listed[h.backend] :: Encode(e) != pv.handle
  }

  lemma MissingIff(st: State, pv: Pv)
    ensures IsMissing(st, pv) <==> exists h :: Unlisted(st, pv, h)
    ensures forall h | Unlisted(st, pv, h) :: Parse(pv.handle) == Some(h)
  {
    if IsMissing(st, pv) {
      EncodeParse(pv.handle);
      assert Unlisted(st, pv, Parse(pv.handle).value);
    }
    forall h | Unlisted(st, pv, h) ensures Parse(pv.handle) == Some(h) { ParseEncode(h); }
  }

  /** A volume is reported in exactly one of three ways if its backend listed and lacks it: as
      belonging to an invisible instance, as dropped from the list although a probe finds it, or
      as a ghost. Any other volume is reported in neither of the last two. */
  lemma ReportedOnce(st: State, missing: set<string>, i: nat)
    requires WellFormed(st) && IsMissingKeys(st, missing) && DistinctNames(st.pvs) && i < |st.pvs|
    ensures var pv := st.pvs[i];
            var ghosts, dropped := JoinCount(st, missing, GhostPv(pv.name)),
                JoinCount(st, missing, ListInconsistent(pv.name));
            && ((forall h :: !Unlisted(st, pv, h)) ==> ghosts == dropped == 0)
            && forall h | Unlisted(st, pv, h) ::
                 var unseen := MissingCount(missing, MissingInstance(h.backend, h.instance));
                 && ghosts + dropped + unseen == 1
                 && (unseen == 1 <==> Invisible(st, h))
                 && (dropped == 1 <==> !Invisible(st, h) && pv.handle in st.probes && st.probes[pv.handle].Healthy?)
  {
    var pv := st.pvs[i];
    OneVolumeSpeaks(st, missing, st.pvs, i, GhostPv(pv.name));
    OneVolumeSpeaks(st, missing, st.pvs, i, ListInconsistent(pv.name));
    PvVerdict(st, missing, pv);
    MissingIff(st, pv);
    if IsMissing(st, pv) {
      var h := Parse(pv.handle).value;
      EncodeParse(pv.handle);
      MissingKeyIff(st, missing, h);
    }
    hide Parse, Encode, Valid, Unlisted, IsMissing, AllPvFindings, PvFindings, Invisible;
  }

  /** Each listed volume yields one orphan per entry exactly when no Bard volume references it. */
  lemma OrphanedIff(st: State, missing: set<string>, bt: string, h: Handle)
    ensures JoinCount(st, missing, OrphanVolume(bt, h)) ==
              if bt in st.listed && (forall pv | pv in st.pvs && pv.driver == st.driver && pv.handle == Encode(h) ::
                  Parse(pv.handle).None?)
              then multiset(st.listed[bt])[h] else 0
  {
    NobodySpeaks(st, missing, st.pvs, OrphanVolume(bt, h));
  }

  // ---- what the report says about a volume's handle ----------------------------

  /** What the scan of `st` reports, the findings of the other checks aside. */
  ghost function Reports(st: State, missing: set<string>, f: Finding): nat {
    MissingCount(missing, f) + JoinCount(st, missing, f)
  }

  /** Some handle of the volume names a backend or an instance that is not configured. */
  ghost predicate Unconfigured(st: State, s: string) {
    exists h :: Valid(h) && Encode(h) == s &&
      (h.backend !in st.config.backends || h.instance !in st.config.backends[h.backend].instances)
  }

  ghost predicate IsHandle(s: string) { exists h :: Valid(h) && Encode(h) == s }

  lemma UnconfiguredIff(st: State, s: string)
    requires Parse(s).Some?
    ensures Unconfigured(st, s) <==> !Configured(st, Parse(s).value)
  {
    EncodeParse(s);
    if h :| Valid(h) && Encode(h) == s &&
            (h.backend !in st.config.backends || h.instance !in st.config.backends[h.backend].instances) {
      ParseEncode(h);
    }
  }

  lemma HandleVerdict(st: State, missing: set<string>, pv: Pv)
    ensures JudgesHandle(st, pv, multiset(PvFindings(st, missing, pv)))
  {
    AcceptedIff(pv.handle);
    assert Parse(pv.handle).Some? <==> IsHandle(pv.handle);
    assert Unconfigured(st, pv.handle) ==> IsHandle(pv.handle);
    if Parse(pv.handle).Some? { UnconfiguredIff(st, pv.handle); }
    hide Parse, Encode, Valid, Unconfigured, IsHandle, Configured;
  }

  /** A volume is reported for its instance, once, exactly if it is Bard's and its handle encodes a
      backend or an instance that is not configured; for its handle, once, exactly if it is Bard's
      and its handle encodes nothing, and then it is reported for nothing else. */
  ghost predicate JudgesHandle(st: State, pv: Pv, fs: multiset<Finding>) {
    var bard := pv.driver == st.driver;
    && fs[UnknownInstance(pv.name)] == (if bard && Unconfigured(st, pv.handle) then 1 else 0)
    && fs[UnparseableHandle(pv.name)] == (if bard && !IsHandle(pv.handle) then 1 else 0)
    && (!bard || !IsHandle(pv.handle) ==> fs[GhostPv(pv.name)] == fs[ListInconsistent(pv.name)] == 0)
  }

  lemma HandleReported(st: State, missing: set<string>, i: nat)
    requires DistinctNames(st.pvs) && i < |st.pvs|
    ensures JudgesHandle(st, st.pvs[i], multiset(Joined(st, missing)))
  {
    hide PvFindings, AllPvFindings, Unconfigured, IsHandle, Joined;
    var pv := st.pvs[i];
    HandleVerdict(st, missing, pv);
    CountedOnce(st, missing, i, UnknownInstance(pv.name));
    CountedOnce(st, missing, i, UnparseableHandle(pv.name));
    CountedOnce(st, missing, i, GhostPv(pv.name));
    CountedOnce(st, missing, i, ListInconsistent(pv.name));
  }

  lemma CountedOnce(st: State, missing: set<string>, i: nat, f: Finding)
    requires DistinctNames(st.pvs) && i < |st.pvs|
    requires AboutPv(f) && f.pv == st.pvs[i].name
    ensures multiset(Joined(st, missing))[f] == multiset(PvFindings(st, missing, st.pvs[i]))[f]
  {
    hide Joined, PvFindings, AllPvFindings;
    JoinedCount(st, missing, f);
    OneVolumeSpeaks(st, missing, st.pvs, i, f);
  }

  // ---- what a probe makes of a missing volume ----------------------------------

  /** The probes are those that `ProbeGhostCandidates` records for these answers. */
  ghost predicate ProbedBy(st: State, clients: set<string>, health: Handle -> HealthAnswer) {
    && (forall s :: s in st.probes <==> exists h ::
          h in Candidates(st, st.pvs) && Probed(clients, health, h).Some? && Encode(h) == s)
    && (forall h | h in Candidates(st, st.pvs) && Probed(clients, health, h).Some? ::
          st.probes[Encode(h)] == Probed(clients, health, h).value)
  }

  /** The plugin answers of some missing volume on the instance that it does not know it. */
  ghost predicate Disowned(st: State, clients: set<string>, health: Handle -> HealthAnswer, bt: string, id: string) {
    bt in clients && exists pv, h :: pv in st.pvs && Unlisted(st, pv, h) && h.backend == bt && h.instance == id
                                  && health(h).InvalidArgument?
  }

  lemma InvisibleDisowned(st: State, clients: set<string>, health: Handle -> HealthAnswer, h: Handle, s: string)
    requires ProbedBy(st, clients, health)
    requires s in st.probes && st.probes[s].InstanceUnknown? && Parse(s).Some?
    requires Parse(s).value.backend == h.backend && Parse(s).value.instance == h.instance
    ensures Disowned(st, clients, health, h.backend, h.instance)
  {
    hide Candidates, Parse, Encode, Valid;
    var g :| g in Candidates(st, st.pvs) && Probed(clients, health, g).Some? && Encode(g) == s;
    CandidateValid(st, g);
    ParseEncode(g);
    CandidateIff(st, st.pvs, g);
    var pv :| pv in st.pvs && IsMissing(st, pv) && Parse(pv.handle) == Some(g);
    MissingIff(st, pv);
    assert Unlisted(st, pv, g) && health(g).InvalidArgument?;
  }

  lemma DisownedInvisible(st: State, clients: set<string>, health: Handle -> HealthAnswer, h: Handle, g: Handle)
    requires ProbedBy(st, clients, health) && h.backend in clients && g in Candidates(st, st.pvs)
    requires g.backend == h.backend && g.instance == h.instance && health(g).InvalidArgument?
    ensures Invisible(st, h)
  {
    hide Candidates, Parse, Encode, Valid;
    CandidateValid(st, g);
    ParseEncode(g);
    assert Probed(clients, health, g).Some?;
    assert Encode(g) in st.probes && st.probes[Encode(g)].InstanceUnknown?;
  }

  lemma InvisibleIff(st: State, clients: set<string>, health: Handle -> HealthAnswer, h: Handle)
    requires ProbedBy(st, clients, health)
    ensures Invisible(st, h) <==> Disowned(st, clients, health, h.backend, h.instance)
  {
    hide ProbedBy, Candidates, Parse;
    if Invisible(st, h) {
      var s :| s in st.probes && st.probes[s].InstanceUnknown? && Parse(s).Some?
        && Parse(s).value.backend == h.backend && Parse(s).value.instance == h.instance;
      InvisibleDisowned(st, clients, health, h, s);
    }
    if Disowned(st, clients, health, h.backend, h.instance) {
      var pv, g :| pv in st.pvs && Unlisted(st, pv, g) && g.backend == h.backend && g.instance == h.instance
        && health(g).InvalidArgument?;
      MissingIff(st, pv);
      CandidateIff(st, st.pvs, g);
      DisownedInvisible(st, clients, health, h, g);
    }
  }

  lemma HealthyIff(st: State, clients: set<string>, health: Handle -> HealthAnswer, pv: Pv)
    requires ProbedBy(st, clients, health) && pv in st.pvs && IsMissing(st, pv)
    ensures var h := Parse(pv.handle).value;
            (pv.handle in st.probes && st.probes[pv.handle].Healthy?) <==> h.backend in clients && health(h).Fine?
  {
    hide Parse, Encode, Valid, Candidates;
    var h := Parse(pv.handle).value;
    EncodeParse(pv.handle);
    CandidateIff(st, st.pvs, h);
    assert h in Candidates(st, st.pvs);
    if pv.handle in st.probes {
      var g :| g in Candidates(st, st.pvs) && Probed(clients, health, g).Some? && Encode(g) == pv.handle;
      CandidateValid(st, g);
      ParseEncode(g);
    }
  }

  /** A missing volume, by what its plugin answers: if the plugin does not know some missing volume's
      instance, all of that instance are reported as the instance; else a volume that the plugin
      finds in order is reported as dropped from the list, and any other, not found, abnormal,
      unreachable or without a probe, as a ghost. */
  lemma ProbesDecide(st: State, missing: set<string>, clients: set<string>, health: Handle -> HealthAnswer, i: nat,
      h: Handle)
    requires WellFormed(st) && IsMissingKeys(st, missing) && DistinctNames(st.pvs)
    requires ProbedBy(st, clients, health) && i < |st.pvs| && Unlisted(st, st.pvs[i], h)
    ensures var pv := st.pvs[i];
            var disowned := Disowned(st, clients, health, h.backend, h.instance);
            var fine := h.backend in clients && health(h).Fine?;
            && Reports(st, missing, MissingInstance(h.backend, h.instance)) == (if disowned then 1 else 0)
            && Reports(st, missing, ListInconsistent(pv.name)) == (if !disowned && fine then 1 else 0)
            && Reports(st, missing, GhostPv(pv.name)) == (if !disowned && !fine then 1 else 0)
  {
    var pv := st.pvs[i];
    MissingIff(st, pv);
    ReportedOnce(st, missing, i);
    InvisibleIff(st, clients, health, h);
    HealthyIff(st, clients, health, pv);
    NobodySpeaks(st, missing, st.pvs, MissingInstance(h.backend, h.instance));
    hide Invisible, Disowned, IsMissing, AllPvFindings, Parse, Unlisted;
  }

  // ---- what the report says about volumes it cannot check -----------------------

  /** The volumes of Bard's, by index, whose handle names the backend. */
  ghost function OnBackend(st: State, pvs: seq<Pv>, bt: string): set<nat> {
    set i: nat | i < |pvs| && pvs[i].driver == st.driver && HandleOn(pvs[i].handle, bt)
  }

  ghost predicate HandleOn(s: string, bt: string) { exists h :: Valid(h) && Encode(h) == s && h.backend == bt }

  lemma HandleOnIff(s: string, bt: string)
    ensures HandleOn(s, bt) <==> Parse(s).Some? && Parse(s).value.backend == bt
  {
    if Parse(s).Some? { EncodeParse(s); }
    if h :| Valid(h) && Encode(h) == s && h.backend == bt { ParseEncode(h); }
  }

  lemma {:induction false} UnverifiedIs(st: State, pvs: seq<Pv>, bt: string)
    ensures Unverified(st, pvs, bt) == if bt in st.unlisted then |OnBackend(st, pvs, bt)| else 0
    decreases |pvs|
  {
    hide Parse, HandleOn;
    if pvs == [] {
      assert OnBackend(st, pvs, bt) == {};
    } else {
      var init, last := pvs[..|pvs| - 1], |pvs| - 1;
      UnverifiedIs(st, init, bt);
      HandleOnIff(pvs[last].handle, bt);
      var was, now := OnBackend(st, init, bt), OnBackend(st, pvs, bt);
      assert last !in was && now == was + (if last in now then {last} else {});
    }
  }

  /** A backend that cannot list its volumes is reported once, with the number of Bard volumes on it,
      exactly if there are any; no other backend is. */
  lemma UnverifiableReported(st: State, missing: set<string>, bt: string, n: nat)
    ensures Reports(st, missing, Unverifiable(bt, n)) ==
              if bt in st.unlisted && n > 0 && n == |OnBackend(st, st.pvs, bt)| then 1 else 0
  {
    hide OnBackend;
    UnverifiedIs(st, st.pvs, bt);
    NobodySpeaks(st, missing, st.pvs, Unverifiable(bt, n));
  }
}
