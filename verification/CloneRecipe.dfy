/**
 CreateVolume from another volume: a temporary snapshot of the source, a copy-on-write clone
 of it, a stamp of the content source, a resize, and a tail that drops the snapshot and severs
 the clone in the background. Any prefix of the recipe may be lost to a crash and retried.
 */
module CloneRecipe {
  import opened Rbd

  /** The metadata key that records what an image was created from. */
  const SOURCE_KEY := "bard.source"

  datatype Request = Request(source: string, target: string, tmp: string, size: nat, desc: string)

  datatype Pc = Lookup | TakeSnapshot | CloneImage | Stamp | Measure | Resize | DropSnapshot | Unlink | Done | Refused

  /** `due` says that a background flatten of the target has been scheduled. */
  datatype State = State(c: Cluster, pc: Pc, due: bool)

  datatype Event = Advance | Crash | FlattenLands

  predicate Refusable(recorded: string, desc: string) { recorded != "" && recorded != desc }

  function Grown(size: nat, wanted: nat): nat { if size < wanted then wanted else size }

  /** The command at each point of the recipe. */
  function Step(req: Request, s: State): State {
    var c := s.c;
    match s.pc
    case Lookup =>
      if req.target !in c.images then s.(pc := TakeSnapshot)
      else if Refusable(MetaGet(c, req.target, SOURCE_KEY), req.desc) then s.(pc := Refused)
      else s.(pc := Measure)
    case TakeSnapshot =>
      if req.source !in c.images then s.(pc := Refused)
      else s.(c := SnapCreate(c, (req.source, req.tmp)), pc := CloneImage)
    case CloneImage => s.(c := if req.target in c.images then c else Clone(c, req.source, req.target), pc := Stamp)
    case Stamp => s.(c := MetaSet(c, req.target, SOURCE_KEY, req.desc), pc := Measure)
    case Measure =>
      if req.target !in c.images then s.(pc := Refused)
      else s.(pc := if c.images[req.target] < req.size then Resize else DropSnapshot)
    case Resize => s.(c := CreateImage(c, req.target, req.size), pc := DropSnapshot)
    case DropSnapshot => s.(c := SnapRm(c, (req.source, req.tmp)), pc := Unlink)
    case Unlink => s.(pc := Done, due := true)
    case Done => s
    case Refused => s
  }

  /** A crash loses the request and any scheduled flatten, never the cluster. */
  function Next(req: Request, s: State, e: Event): State {
    match e
    case Advance => Step(req, s)
    case Crash => State(s.c, Lookup, false)
    case FlattenLands => State(Flatten(s.c, req.target), s.pc, false)
  }

  function Run(req: Request, s: State, events: seq<Event>): State
    decreases |events|
  {
    if events == [] then s else Run(req, Next(req, s, events[0]), events[1..])
  }

  /** How many commands a request still has to issue. */
  function Remaining(pc: Pc): nat {
    match pc
    case Lookup => 8 case TakeSnapshot => 7 case CloneImage => 6 case Stamp => 5 case Measure => 4
    case Resize => 3 case DropSnapshot => 2 case Unlink => 1 case Done => 0 case Refused => 0
  }

  /** Run the request undisturbed to its answer. */
  function Finish(req: Request, s: State): (t: State)
    ensures t.pc.Done? || t.pc.Refused?
    decreases Remaining(s.pc)
  {
    if s.pc.Done? || s.pc.Refused? then s else Finish(req, Step(req, s))
  }

  function Attempt(req: Request, c: Cluster): State { Finish(req, State(c, Lookup, false)) }

  lemma Unfold(req: Request, s: State)
    requires !s.pc.Done? && !s.pc.Refused?
    ensures Finish(req, s) == Finish(req, Step(req, s))
  {}

  /** From the measuring on, a request succeeds and leaves the metadata alone. */
  lemma {:induction false} TailSucceeds(req: Request, s: State)
    requires Remaining(s.pc) <= 4 && !s.pc.Refused? && req.target in s.c.images
    ensures var t := Finish(req, s); t.pc.Done? && t.c.meta == s.c.meta && req.target in t.c.images
    decreases Remaining(s.pc)
  {
    if !s.pc.Done? { TailSucceeds(req, Step(req, s)); }
  }

  lemma FreshSucceeds(req: Request, c: Cluster)
    requires req.target !in c.images && req.source in c.images
    ensures var s := Attempt(req, c);
            s.pc.Done? && req.target in s.c.images && MetaGet(s.c, req.target, "bard.source") == req.desc
  {
    var s1 := Step(req, State(c, Lookup, false));
    var s2 := Step(req, s1);
    var s3 := Step(req, s2);
    var s4 := Step(req, s3);
    Unfold(req, State(c, Lookup, false));
    Unfold(req, s1);
    Unfold(req, s2);
    Unfold(req, s3);
    TailSucceeds(req, s4);
  }

  /** One undisturbed attempt succeeds exactly if the target is there and was made from this source,
      or carries no stamp, or is not there and the source is. A refused one changes nothing, and a
      new target carries the stamp of the request. */
  lemma AttemptAnswers(req: Request, c: Cluster)
    ensures var s, recorded := Attempt(req, c), MetaGet(c, req.target, "bard.source");
            && (s.pc.Done? <==> if req.target in c.images then recorded == "" || recorded == req.desc
                                else req.source in c.images)
            && (req.target in c.images && "bard.source" !in Entries(c.meta, req.target) ==> s.pc.Done?)
            && (!s.pc.Done? ==> s == State(c, Refused, false))
            && (s.pc.Done? ==>
                  && req.target in s.c.images
                  && MetaGet(s.c, req.target, "bard.source") == if req.target in c.images then recorded else req.desc)
  {
    var s0 := State(c, Lookup, false);
    Unfold(req, s0);
    if req.target in c.images {
      if Step(req, s0).pc.Measure? { TailSucceeds(req, Step(req, s0)); }
    } else if req.source in c.images {
      FreshSucceeds(req, c);
    } else {
      Unfold(req, Step(req, s0));
    }
  }

  // ---- the handler itself --------------------------------------------------

  /** One undisturbed call issues exactly the commands of the recipe. */
  method CreateVolume(r: Runner, req: Request) returns (ok: bool, size: nat)
    modifies r
    ensures r.View() == Attempt(req, old(r.View())).c
    ensures ok <==> Attempt(req, old(r.View())).pc.Done?
    ensures ok ==> req.target in r.images && size == r.images[req.target] && req.size <= size
    ensures var recorded := MetaGet(old(r.View()), req.target, "bard.source");
            && (ok <==> if req.target in old(r.images) then recorded == "" || recorded == req.desc
                        else req.source in old(r.images))
            && (!ok ==> r.View() == old(r.View()))
            && (ok && req.target !in old(r.images) ==> MetaGet(r.View(), req.target, "bard.source") == req.desc)
  {
    AttemptAnswers(req, r.View());
    ghost var goal := Attempt(req, r.View());
    Unfold(req, State(r.View(), Lookup, false));
    var found, _ := r.RbdInfo(req.target);
    if found.Some? {
      var recorded := MetaGet(r.View(), req.target, SOURCE_KEY);
      if Refusable(recorded, req.desc) {
        assert Finish(req, State(r.View(), Refused, false)) == State(r.View(), Refused, false);
        return false, 0;
      }
    } else {
      Unfold(req, State(r.View(), TakeSnapshot, false));
      var source, _ := r.RbdInfo(req.source);
      if source.None? {
        assert Finish(req, State(r.View(), Refused, false)) == State(r.View(), Refused, false);
        return false, 0;
      }
      r.RbdSnapCreate((req.source, req.tmp));
      Unfold(req, State(r.View(), CloneImage, false));
      r.RbdClone(req.source, req.target);
      Unfold(req, State(r.View(), Stamp, false));
      r.RbdMetaSet(req.target, SOURCE_KEY, req.desc);
    }
    assert Finish(req, State(r.View(), Measure, false)) == goal;
    size := FinishCreate(r, req);
    ok := true;
  }

  /** What the fresh and the resumed path share: reconcile the size, then run the tail. */
  method FinishCreate(r: Runner, req: Request) returns (size: nat)
    requires req.target in r.images
    modifies r
    ensures var goal := Finish(req, State(old(r.View()), Measure, false)); r.View() == goal.c && goal.pc.Done?
    ensures req.target in r.images && size == r.images[req.target] && req.size <= size
  {
    Unfold(req, State(r.View(), Measure, false));
    var now, _ := r.RbdInfo(req.target);
    size := now.value;
    if size < req.size {
      Unfold(req, State(r.View(), Resize, false));
      r.RbdResize(req.target, req.size);
      size := req.size;
    }
    Unfold(req, State(r.View(), DropSnapshot, false));
    var _ := r.RbdSnapRm((req.source, req.tmp));
    Unfold(req, State(r.View(), Unlink, false));
  }

  // ---- how far the recipe has got ------------------------------------------

  datatype Tmp = Live | Trashed | Gone

  /** Everything an interrupted recipe can have left behind. */
  datatype Progress = Absent(taken: bool) | Present(size: nat, stamped: bool, tmp: Tmp, linked: bool)

  ghost predicate Start(c0: Cluster, req: Request) {
    && Sound(c0)
    && req.source in c0.images
    && req.target !in c0.images && req.target !in c0.meta
    && (req.source, req.tmp) !in c0.snaps && (req.source, req.tmp) !in c0.trashed
  }

  function TargetMeta(c0: Cluster, req: Request, stamped: bool): Metadata {
    var copied := CopiedMeta(c0.meta, req.source, req.target);
    if stamped then copied[req.target := Entries(copied, req.target)[SOURCE_KEY := req.desc]] else copied
  }

  /** The cluster, given the progress: the start plus the target, its link and the snapshot. */
  function Form(c0: Cluster, req: Request, p: Progress): Cluster {
    var t := (req.source, req.tmp);
    match p
    case Absent(taken) => if taken then SnapCreate(c0, t) else c0
    case Present(size, stamped, tmp, linked) =>
      Cluster(
        c0.images[req.target := size],
        if tmp.Live? then c0.snaps + {t} else c0.snaps,
        if tmp.Trashed? then c0.trashed + {t} else c0.trashed,
        if linked then c0.parents[req.target := req.source] else c0.parents,
        TargetMeta(c0, req, stamped))
  }

  ghost predicate Fits(c0: Cluster, req: Request, s: State, p: Progress)
    requires Start(c0, req)
  {
    var born := c0.images[req.source];
    && s.c == Form(c0, req, p)
    && (p.Present? ==>
          && (p.size == born || p.size == Grown(born, req.size))
          && (p.tmp.Trashed? ==> p.linked || HasChildren(c0, req.source))
          && (p.tmp.Gone? ==> !p.linked && !HasChildren(c0, req.source)))
    && (s.due ==> p.Present?)
    && match s.pc
       case Lookup => true
       case TakeSnapshot => p.Absent?
       case CloneImage => p == Absent(true)
       case Stamp => p.Present? && p.tmp.Live? && p.size == born
       case Measure => p.Present?
       case Resize => p.Present? && p.size < req.size
       case DropSnapshot => p.Present? && req.size <= p.size
       case Unlink => p.Present? && req.size <= p.size && !p.tmp.Live?
       case Done => p.Present? && req.size <= p.size && !p.tmp.Live? && (s.due || !p.linked)
       case Refused => p.Present? && !p.stamped && Refusable(MetaGet(c0, req.source, SOURCE_KEY), req.desc)
  }

  // ---- each command moves the progress -------------------------------------

  lemma CloneForm(c0: Cluster, req: Request)
    requires Start(c0, req)
    ensures Clone(Form(c0, req, Absent(true)), req.source, req.target)
         == Form(c0, req, Present(c0.images[req.source], false, Live, true))
  {}

  lemma StampForm(c0: Cluster, req: Request, p: Progress)
    requires p.Present?
    ensures MetaSet(Form(c0, req, p), req.target, SOURCE_KEY, req.desc) == Form(c0, req, p.(stamped := true))
  {
    var m := CopiedMeta(c0.meta, req.source, req.target);
    var k := Entries(m, req.target);
    assert k[SOURCE_KEY := req.desc][SOURCE_KEY := req.desc] == k[SOURCE_KEY := req.desc];
    var e := k[SOURCE_KEY := req.desc];
    assert m[req.target := e][req.target := e] == m[req.target := e];
  }

  lemma ResizeForm(c0: Cluster, req: Request, p: Progress, size: nat)
    requires p.Present?
    ensures CreateImage(Form(c0, req, p), req.target, size) == Form(c0, req, p.(size := size))
  {
    assert c0.images[req.target := p.size][req.target := size] == c0.images[req.target := size];
  }

  lemma ChildrenForm(c0: Cluster, req: Request, p: Progress)
    requires Start(c0, req) && p.Present?
    ensures HasChildren(Form(c0, req, p), req.source) <==> p.linked || HasChildren(c0, req.source)
  {
    var c := Form(c0, req, p);
    assert p.linked ==> c.parents[req.target] == req.source;
    forall k | k in c0.parents ensures k in c.parents && c.parents[k] == c0.parents[k] { assert k != req.target; }
  }

  function Dropped(c0: Cluster, req: Request, p: Progress): Progress
    requires p.Present?
  {
    if !p.tmp.Live? then p
    else p.(tmp := if p.linked || HasChildren(c0, req.source) then Trashed else Gone)
  }

  lemma DropForm(c0: Cluster, req: Request, p: Progress)
    requires Start(c0, req) && p.Present?
    ensures SnapRm(Form(c0, req, p), (req.source, req.tmp)) == Form(c0, req, Dropped(c0, req, p))
  {
    ChildrenForm(c0, req, p);
    var t := (req.source, req.tmp);
    if p.tmp.Live? { assert c0.snaps + {t} - {t} == c0.snaps; }
  }

  function Severed(c0: Cluster, req: Request, p: Progress): Progress {
    if p.Absent? || !p.linked then p
    else p.(linked := false, tmp := if p.tmp.Trashed? && !HasChildren(c0, req.source) then Gone else p.tmp)
  }

  lemma SeverForm(c0: Cluster, req: Request, p: Progress)
    requires Start(c0, req)
    ensures Flatten(Form(c0, req, p), req.target) == Form(c0, req, Severed(c0, req, p))
  {
    assert req.target !in c0.parents;
    if p.Present? && p.linked {
      var c := Form(c0, req, p);
      var d := c.(parents := c.parents - {req.target});
      var t := (req.source, req.tmp);
      assert d.parents == c0.parents;
      assert HasChildren(d, req.source) == HasChildren(c0, req.source);
      if !HasChildren(c0, req.source) {
        assert (set x | x in c.trashed && x.0 != req.source) == c0.trashed;
      }
    }
  }

  lemma RecordedForm(c0: Cluster, req: Request, p: Progress)
    requires Start(c0, req) && p.Present?
    ensures MetaGet(Form(c0, req, p), req.target, SOURCE_KEY)
         == if p.stamped then req.desc else MetaGet(c0, req.source, SOURCE_KEY)
  {}

  // ---- every run -----------------------------------------------------------

  lemma NextFits(c0: Cluster, req: Request, s: State, p: Progress, e: Event) returns (q: Progress)
    requires Start(c0, req) && Fits(c0, req, s, p)
    ensures Fits(c0, req, Next(req, s, e), q)
    ensures p.Present? ==> q.Present? && (q.stamped <==> p.stamped || (e.Advance? && s.pc.Stamp?))
    ensures p.Absent? && q.Present? ==> !q.stamped && e.Advance? && s.pc.CloneImage?
  {
    match e
    case Crash => q := p;
    case FlattenLands =>
      SeverForm(c0, req, p);
      q := Severed(c0, req, p);
    case Advance =>
      q := p;
      match s.pc {
        case Lookup => if p.Present? { RecordedForm(c0, req, p); }
        case TakeSnapshot => q := Absent(true);
        case CloneImage =>
          CloneForm(c0, req);
          q := Present(c0.images[req.source], false, Live, true);
        case Stamp =>
          StampForm(c0, req, p);
          q := p.(stamped := true);
        case Measure =>
        case Resize =>
          ResizeForm(c0, req, p, req.size);
          q := p.(size := req.size);
        case DropSnapshot =>
          DropForm(c0, req, p);
          q := Dropped(c0, req, p);
        case Unlink =>
        case Done =>
        case Refused =>
      }
  }

  lemma {:induction false} RunFits(c0: Cluster, req: Request, s: State, p: Progress, events: seq<Event>)
    returns (q: Progress)
    requires Start(c0, req) && Fits(c0, req, s, p)
    ensures Fits(c0, req, Run(req, s, events), q)
    ensures p.Present? ==> q.Present? && (p.stamped ==> q.stamped)
    decreases |events|
  {
    if events == [] {
      q := p;
    } else {
      var p1 := NextFits(c0, req, s, p, events[0]);
      q := RunFits(c0, req, Next(req, s, events[0]), p1, events[1..]);
    }
  }

  lemma {:induction false} FinishFits(c0: Cluster, req: Request, s: State, p: Progress) returns (q: Progress)
    requires Start(c0, req) && Fits(c0, req, s, p)
    ensures Fits(c0, req, Finish(req, s), q)
    ensures q.Present? && (q.stamped <==> p.Absent? || p.stamped || s.pc.Stamp?)
    decreases Remaining(s.pc)
  {
    if s.pc.Done? || s.pc.Refused? {
      q := p;
    } else {
      var p1 := NextFits(c0, req, s, p, Advance);
      q := FinishFits(c0, req, Step(req, s), p1);
    }
  }

  // ---- whether a crashed and retried create ends stamped ----------------------

  /** Whether the target ends with the stamp of the request, after `events` and one undisturbed
      attempt, when the attempt in flight has issued `done` commands and has not stamped. The fourth
      command stamps. A crash just before it leaves a target without the stamp for good; a crash
      before the third, the clone, leaves no target, and the next attempt starts over. */
  function EndsStamped(done: nat, events: seq<Event>): bool
    decreases |events|
  {
    if events == [] then done < 3
    else match events[0]
      case Advance => done == 3 || EndsStamped(done + 1, events[1..])
      case Crash => done != 3 && EndsStamped(0, events[1..])
      case FlattenLands => EndsStamped(done, events[1..])
  }

  /** The attempt in flight has issued `done` commands on the way to the stamp. */
  ghost predicate OnTheWay(s: State, p: Progress, done: nat) {
    if s.pc.Stamp? then done == 3 && p.Present? && !p.stamped
    else p.Absent? && done == match s.pc case Lookup => 0 case TakeSnapshot => 1 case CloneImage => 2 case _ => 4
  }

  lemma {:induction false} NeverStamped(c0: Cluster, req: Request, s: State, p: Progress, events: seq<Event>)
    returns (q: Progress)
    requires Start(c0, req) && Fits(c0, req, s, p) && p.Present? && !p.stamped && !s.pc.Stamp?
    ensures Fits(c0, req, Run(req, s, events), q) && q.Present? && !q.stamped
    decreases |events|
  {
    if events == [] {
      q := p;
    } else {
      var p1 := NextFits(c0, req, s, p, events[0]);
      q := NeverStamped(c0, req, Next(req, s, events[0]), p1, events[1..]);
    }
  }

  lemma {:induction false} RunStamps(c0: Cluster, req: Request, s: State, p: Progress, done: nat, events: seq<Event>)
    returns (q: Progress)
    requires Start(c0, req) && Fits(c0, req, s, p) && OnTheWay(s, p, done)
    ensures Fits(c0, req, Run(req, s, events), q)
    ensures EndsStamped(done, events) <==> q.Absent? || q.stamped
    decreases |events|
  {
    if events == [] {
      q := p;
    } else {
      var s1 := Next(req, s, events[0]);
      var p1 := NextFits(c0, req, s, p, events[0]);
      if done == 3 && events[0].Advance? {
        q := RunFits(c0, req, s1, p1, events[1..]);
      } else if done == 3 && events[0].Crash? {
        q := NeverStamped(c0, req, s1, p1, events[1..]);
      } else {
        var now := if events[0].Advance? then done + 1 else if events[0].Crash? then 0 else done;
        q := RunStamps(c0, req, s1, p1, now, events[1..]);
      }
    }
  }

  /** What a last undisturbed attempt leaves behind. */
  lemma RetryFits(c0: Cluster, req: Request, events: seq<Event>) returns (q: Progress)
    requires Start(c0, req)
    ensures var s := Attempt(req, Run(req, State(c0, Lookup, false), events).c);
            && Fits(c0, req, s, q) && q.Present? && (q.stamped <==> EndsStamped(0, events))
            && MetaGet(s.c, req.target, "bard.source")
               == if EndsStamped(0, events) then req.desc else MetaGet(c0, req.source, "bard.source")
  {
    var start := State(c0, Lookup, false);
    var p := RunStamps(c0, req, start, Absent(false), 0, events);
    var retry := State(Run(req, start, events).c, Lookup, false);
    assert Fits(c0, req, retry, p);
    q := FinishFits(c0, req, retry, p);
    RecordedForm(c0, req, q);
  }

  /** The cluster with an independent copy of the source, and nothing else new. The temporary
      snapshot survives, trashed, exactly when the source already had other clones. */
  function Copied(c0: Cluster, req: Request, stamped: bool): Cluster
    requires req.source in c0.images
  {
    c0.(images := c0.images[req.target := Grown(c0.images[req.source], req.size)],
        meta := TargetMeta(c0, req, stamped),
        trashed := if HasChildren(c0, req.source) then c0.trashed + {(req.source, req.tmp)} else c0.trashed)
  }

  /** Whatever crashes interrupted the earlier attempts, one undisturbed attempt answers unless it
      was left a target with a foreign stamp, and once its flatten lands the cluster is the start
      plus an independent copy, stamped exactly as `events` say. */
  lemma Converges(c0: Cluster, req: Request, events: seq<Event>)
    requires Start(c0, req)
    requires EndsStamped(0, events) || !Refusable(MetaGet(c0, req.source, SOURCE_KEY), req.desc)
    ensures var s := Attempt(req, Run(req, State(c0, Lookup, false), events).c);
            && s.pc.Done?
            && req.target in s.c.images && s.c.images[req.target] == Grown(c0.images[req.source], req.size)
            && (req.source, req.tmp) !in s.c.snaps
            && (req.target in s.c.parents ==> s.due)
            && Flatten(s.c, req.target) == Copied(c0, req, EndsStamped(0, events))
            && MetaGet(s.c, req.target, "bard.source")
               == if EndsStamped(0, events) then req.desc else MetaGet(c0, req.source, "bard.source")
  {
    var q := RetryFits(c0, req, events);
    SeverForm(c0, req, q);
  }

  /** Once an attempt has answered, later ones change nothing. */
  lemma Idempotent(c0: Cluster, req: Request, events: seq<Event>)
    requires Start(c0, req)
    requires EndsStamped(0, events) || !Refusable(MetaGet(c0, req.source, SOURCE_KEY), req.desc)
    ensures var c := Attempt(req, Run(req, State(c0, Lookup, false), events).c).c;
            Attempt(req, c) == State(c, Done, true)
  {
    var q := RetryFits(c0, req, events);
    DropForm(c0, req, q);
    Answered(req, Attempt(req, Run(req, State(c0, Lookup, false), events).c).c);
  }

  lemma Answered(req: Request, c: Cluster)
    requires req.target in c.images && req.size <= c.images[req.target]
    requires !Refusable(MetaGet(c, req.target, SOURCE_KEY), req.desc)
    requires (req.source, req.tmp) !in c.snaps
    ensures Attempt(req, c) == State(c, Done, true)
  {
    var s1 := State(c, Measure, false);
    var s2 := State(c, DropSnapshot, false);
    var s3 := State(c, Unlink, false);
    assert Step(req, State(c, Lookup, false)) == s1 && Step(req, s1) == s2 && Step(req, s2) == s3;
    assert Finish(req, s3) == State(c, Done, true);
    assert Finish(req, s2) == Finish(req, s3);
    assert Finish(req, s1) == Finish(req, s2);
  }

  // ---- exactly when a crash can wedge the create ---------------------------

  /** `rbd clone` copies the source's own stamp, so a crash before the target is stamped leaves
      a target that names somebody else's source; every later attempt is then refused and the
      temporary snapshot stays live. */
  lemma Wedges(c0: Cluster, req: Request) returns (crashed: seq<Event>)
    requires Start(c0, req) && Refusable(MetaGet(c0, req.source, SOURCE_KEY), req.desc)
    ensures crashed == [Advance, Advance, Advance, Crash]
    ensures var c := Run(req, State(c0, Lookup, false), crashed).c;
            Attempt(req, c).pc.Refused? && Attempt(req, c).c == c && (req.source, req.tmp) in c.snaps
  {
    crashed := [Advance, Advance, Advance, Crash];
    var s0 := State(c0, Lookup, false);
    var s1 := Next(req, s0, Advance);
    var s2 := Next(req, s1, Advance);
    var s3 := Next(req, s2, Advance);
    var s4 := Next(req, s3, Crash);
    assert crashed[1..] == [Advance, Advance, Crash] && crashed[1..][1..] == [Advance, Crash];
    assert [Advance, Crash][1..] == [Crash] && [Crash][1..] == [];
    assert Run(req, s3, [Crash]) == Run(req, s4, []);
    assert Run(req, s2, [Advance, Crash]) == s4;
    assert Run(req, s1, [Advance, Advance, Crash]) == s4;
    CloneForm(c0, req);
    RecordedForm(c0, req, Present(c0.images[req.source], false, Live, true));
    assert s2.c == Form(c0, req, Absent(true)) && s3.c == Clone(s2.c, req.source, req.target);
    Unfold(req, s4);
    assert Step(req, s4) == State(s4.c, Refused, false);
  }

  /** After any crashes, the next undisturbed attempt answers if and only if the target ends stamped
      or the source carries no foreign stamp. */
  lemma AnswersIff(c0: Cluster, req: Request, events: seq<Event>)
    requires Start(c0, req)
    ensures Attempt(req, Run(req, State(c0, Lookup, false), events).c).pc.Done?
       <==> EndsStamped(0, events) || !Refusable(MetaGet(c0, req.source, SOURCE_KEY), req.desc)
  {
    var c := Run(req, State(c0, Lookup, false), events).c;
    var p := RunStamps(c0, req, State(c0, Lookup, false), Absent(false), 0, events);
    if p.Present? { RecordedForm(c0, req, p); }
    AttemptAnswers(req, c);
  }

  /** Every crash point converges if and only if the source carries no foreign stamp. */
  lemma ConvergesIff(c0: Cluster, req: Request)
    requires Start(c0, req)
    ensures (forall events :: Attempt(req, Run(req, State(c0, Lookup, false), events).c).pc.Done?)
       <==> !Refusable(MetaGet(c0, req.source, SOURCE_KEY), req.desc)
  {
    if Refusable(MetaGet(c0, req.source, SOURCE_KEY), req.desc) {
      var crashed := Wedges(c0, req);
    } else {
      forall events ensures Attempt(req, Run(req, State(c0, Lookup, false), events).c).pc.Done? {
        AnswersIff(c0, req, events);
      }
    }
  }

  // ---- one target, one source --------------------------------------------------

  /** The target is there and carries the stamp of the request. */
  ghost predicate Stamped(req: Request, c: Cluster) {
    req.target in c.images && MetaGet(c, req.target, "bard.source") == req.desc
  }

  lemma {:induction false} StampStays(req: Request, s: State, events: seq<Event>)
    requires Stamped(req, s.c)
    ensures Stamped(req, Run(req, s, events).c)
    decreases |events|
  {
    if events != [] { StampStays(req, Next(req, s, events[0]), events[1..]); }
  }

  /** Once a create of an absent target has answered, over every run of attempts of the same request,
      crashed or not, a request for that target answers exactly if it names the same source; any
      other is refused and changes nothing. Only a request without a source leaves no stamp. */
  lemma OtherSourceRefused(req: Request, c: Cluster, events: seq<Event>, other: Request)
    requires req.target !in c.images && req.source in c.images && other.target == req.target
    ensures var c1 := Run(req, State(Attempt(req, c).c, Lookup, false), events).c;
            && Stamped(req, c1)
            && (Attempt(other, c1).pc.Done? <==> req.desc == "" || other.desc == req.desc)
            && (!Attempt(other, c1).pc.Done? ==> Attempt(other, c1) == State(c1, Refused, false))
  {
    FreshSucceeds(req, c);
    StampStays(req, State(Attempt(req, c).c, Lookup, false), events);
    AttemptAnswers(other, Run(req, State(Attempt(req, c).c, Lookup, false), events).c);
  }
}
