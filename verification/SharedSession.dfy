/**
 iSCSI sessions shared by the volumes of one target: a stage logs in or rescans, an unstage
 logs out or detaches one device, each deciding by counting the staged records that name the
 target, under a lock per target.
 */
module SharedSession {
  import opened Options

  /** What survives on a node: staged records, logged-in targets, attached devices. A volume is
      named by its staging path, and `Target` gives the IQN it lives under. */
  datatype Node = Node(records: set<string>, sessions: set<string>, attached: set<string>)

  type Target = string -> string

  predicate Shared(records: set<string>, f: Target, iqn: string, except: Option<string>) {
    exists p | p in records :: f(p) == iqn && except != Some(p)
  }

  /** Log in, or rescan; then the device `appears`, or the wait for it fails. A rescan finds it only
      if the session is up, and a login is not undone. */
  function StageAct(n: Node, f: Target, path: string, shared: bool, appears: bool): Node {
    if !shared then n.(sessions := n.sessions + {f(path)}, attached := if appears then n.attached + {path}
        else n.attached)
    else if f(path) in n.sessions && appears then n.(attached := n.attached + {path})
    else n
  }

  predicate StageWorks(n: Node, f: Target, path: string, shared: bool, appears: bool) {
    appears && (shared ==> f(path) in n.sessions)
  }

  /** Detach one device, which a lost record no longer names, or log out and lose every device of
      the target. */
  function UnstageAct(n: Node, f: Target, path: string, shared: bool): Node {
    if shared then (if path in n.records then n.(attached := n.attached - {path}) else n)
    else n.(sessions := n.sessions - {f(path)}, attached := set p | p in n.attached && f(p) != f(path))
  }

  /** A recorded device that is gone already cannot be resolved, and the detach fails. */
  predicate UnstageWorks(n: Node, path: string, shared: bool) { shared && path in n.records ==> path in n.attached }

  // ---- the handlers --------------------------------------------------------

  /** A state directory holds records, lock files and files that do not parse. */
  datatype File = Record(iqn: string) | LockFile | Unreadable

  lemma FoundShared(files: map<string, File>, f: Target, iqn: string, except: Option<string>, found: set<string>)
    requires forall p | p in files && files[p].Record? :: files[p].iqn == f(p)
    requires found == set p | p in files && files[p] == Record(iqn) && except != Some(p)
    ensures |found| > 0 <==> Shared((set p | p in files && files[p].Record?), f, iqn, except)
  {
    var records := set p | p in files && files[p].Record?;
    if Shared(records, f, iqn, except) {
      var p :| p in records && f(p) == iqn && except != Some(p);
      assert p in found;
    }
    assert forall p | p in found :: p in records && f(p) == iqn && except != Some(p);
  }

  class NodePlugin {
    const target: Target
    var files: map<string, File>
    var sessions: set<string>
    var attached: set<string>

    constructor (f: Target)
      ensures target == f && Valid() && View() == Node({}, {}, {})
    {
      target, files, sessions, attached := f, map[], {}, {};
    }

    /** Every record holds its volume's own target. */
    ghost predicate Valid()
      reads this
    {
      forall p | p in files && files[p].Record? :: files[p].iqn == target(p)
    }

    ghost function View(): Node
      reads this
    {
      Node((set p | p in files && files[p].Record?), sessions, attached)
    }

    method OtherRecords(iqn: string, except: Option<string>) returns (count: nat)
      ensures count == |set p | p in files && files[p] == Record(iqn) && except != Some(p)|
      ensures Valid() ==> (count > 0 <==> Shared(View().records, target, iqn, except))
    {
      count := 0;
      var todo := files.Keys;
      ghost var found: set<string> := {};
      while todo != {}
        invariant todo <= files.Keys && count == |found|
        invariant forall p :: p in found <==> p in files && p !in todo && files[p] == Record(iqn) && except != Some(p)
        decreases |todo|
      {
        var p :| p in todo;
        todo := todo - {p};
        if except != Some(p) && files[p] == Record(iqn) {
          found := found + {p};
          count := count + 1;
        }
      }
      assert found == set p | p in files && files[p] == Record(iqn) && except != Some(p);
      if Valid() { FoundShared(files, target, iqn, except, found); }
    }

    method NodeStage(path: string, appears: bool) returns (ok: bool)
      requires Valid()
      modifies this
      ensures Valid()
      ensures var n, shared := old(View()), Shared(old(View()).records, target, target(path), None);
              && ok == StageWorks(n, target, path, shared, appears)
              && View() == StageAct(n, target, path, shared, appears).(records := if ok then n.records + {path}
                 else n.records)
      ensures ok <==>
                && appears
                && ((exists p :: p in old(View()).records && target(p) == target(path)) ==>
                   target(path) in old(sessions))
      ensures ok ==> target(path) in sessions && attached == old(attached) + {path}
      ensures old(sessions) <= sessions <= old(sessions) + {target(path)}
      ensures View().records == if ok then old(View()).records + {path} else old(View()).records
    {
      var others := OtherRecords(target(path), None);
      if others > 0 {
        if target(path) !in sessions { return false; }
      } else {
        sessions := sessions + {target(path)};
      }
      if !appears { return false; }
      attached := attached + {path};
      files := files[path := Record(target(path))];
      ok := true;
    }

    method NodeUnstage(path: string) returns (ok: bool)
      requires Valid()
      modifies this
      ensures Valid()
      ensures var n, shared := old(View()), Shared(old(View()).records, target, target(path), Some(path));
              && ok == UnstageWorks(n, path, shared)
              && View() == if ok then UnstageAct(n, target, path, shared).(records := n.records - {path}) else n
      ensures !ok <==>
                && path in old(View()).records && path !in old(attached)
                && exists p :: p in old(View()).records && p != path && target(p) == target(path)
      ensures ok ==> View().records == old(View()).records - {path}
      ensures ok ==> sessions == if exists p :: p in old(View()).records && p != path && target(p) == target(path)
                                 then old(sessions) else old(sessions) - {target(path)}
      ensures ok && path in old(View()).records ==> path !in attached
      ensures forall p | target(p) != target(path) :: p in attached <==> p in old(attached)
    {
      var others := OtherRecords(target(path), Some(path));
      if others > 0 {
        if path in files && files[path].Record? {
          if path !in attached { return false; }
          attached := attached - {path};
        }
      } else {
        sessions := sessions - {target(path)};
        attached := set p | p in attached && target(p) != target(path);
      }
      files := if path in files && files[path].Record? then files - {path} else files;
      ok := true;
    }
  }

  // ---- interleaved handlers ------------------------------------------------

  /** A stage is `Ready` once it has released the lock and before its record is written. */
  datatype Phase = Entering | Inside | Counted(shared: bool) | Ready | Acted

  datatype Thread = Thread(stage: bool, path: string, phase: Phase)

  datatype World = World(n: Node, locks: map<string, nat>, threads: map<nat, Thread>)

  const EMPTY := World(Node({}, {}, {}), map[], map[])

  datatype Step = Begin(stage: bool, path: string) | Lock | Count | Act(appears: bool) | Finish | Die

  predicate Holds(w: World, f: Target, t: nat)
    requires t in w.threads
  {
    f(w.threads[t].path) in w.locks && w.locks[f(w.threads[t].path)] == t
  }

  predicate Enabled(w: World, f: Target, t: nat, step: Step) {
    if step.Begin? then t !in w.threads
    else t in w.threads && var th := w.threads[t];
      match step
      case Lock => th.phase.Entering? && f(th.path) !in w.locks
      case Count => th.phase.Inside?
      case Act(_) => th.phase.Counted?
      case Finish => th.phase.Ready? || th.phase.Acted?
      case Die => true
  }

  function Unlocked(w: World, f: Target, t: nat): map<string, nat>
    requires t in w.threads
  {
    if Holds(w, f, t) then w.locks - {f(w.threads[t].path)} else w.locks
  }

  function Next(w: World, f: Target, t: nat, step: Step): World
    requires Enabled(w, f, t, step)
  {
    if step.Begin? then w.(threads := w.threads[t := Thread(step.stage, step.path, Entering)])
    else
      var th := w.threads[t];
      match step
      case Lock => w.(locks := w.locks[f(th.path) := t], threads := w.threads[t := th.(phase := Inside)])
      case Count =>
        var shared := Shared(w.n.records, f, f(th.path), if th.stage then None else Some(th.path));
        w.(threads := w.threads[t := th.(phase := Counted(shared))])
      case Act(appears) =>
        var shared := th.phase.shared;
        if th.stage then
          var works := StageWorks(w.n, f, th.path, shared, appears);
          World(StageAct(w.n, f, th.path, shared, appears), Unlocked(w, f, t),
                if works then w.threads[t := th.(phase := Ready)] else w.threads - {t})
        else if UnstageWorks(w.n, th.path, shared) then
          World(UnstageAct(w.n, f, th.path, shared), w.locks, w.threads[t := th.(phase := Acted)])
        else World(w.n, Unlocked(w, f, t), w.threads - {t})
      case Finish =>
        var n := w.n.(records := if th.stage then w.n.records + {th.path} else w.n.records - {th.path});
        World(n, Unlocked(w, f, t), w.threads - {t})
      case Die => World(w.n, Unlocked(w, f, t), w.threads - {t})
  }

  ghost predicate ReadyFor(w: World, f: Target, iqn: string) {
    exists t :: t in w.threads && w.threads[t].phase.Ready? && f(w.threads[t].path) == iqn
  }

  /** No unstage takes a target's lock between a stage's unlock and its record. */
  ghost predicate Admitted(w: World, f: Target, t: nat, step: Step) {
    && Enabled(w, f, t, step)
    && (step.Lock? && !w.threads[t].stage ==> !ReadyFor(w, f, f(w.threads[t].path)))
  }

  // ---- safety, with crashes ------------------------------------------------

  predicate InLock(p: Phase) { p.Inside? || p.Counted? || p.Acted? }

  ghost predicate LocksOk(w: World, f: Target) {
    forall t | t in w.threads ::
      && (InLock(w.threads[t].phase) ==> Holds(w, f, t))
      && (w.threads[t].phase.Ready? ==> w.threads[t].stage)
      && (w.threads[t].phase.Acted? ==> !w.threads[t].stage)
  }

  /** While an unstage is inside, no stage of its target is unrecorded and its count is true. */
  ghost predicate CountsOk(w: World, f: Target) {
    forall t | t in w.threads && !w.threads[t].stage && InLock(w.threads[t].phase) ::
      var th := w.threads[t];
      && !ReadyFor(w, f, f(th.path))
      && (th.phase.Counted? ==> th.phase.shared == Shared(w.n.records, f, f(th.path), Some(th.path)))
  }

  /** An unstage that has acted leaves another record of its target, or no session. */
  ghost predicate ActedOk(w: World, f: Target) {
    forall t | t in w.threads && w.threads[t].phase.Acted? ::
      var path := w.threads[t].path;
      Shared(w.n.records, f, f(path), Some(path)) || f(path) !in w.n.sessions
  }

  ghost predicate Inv(w: World, f: Target) { LocksOk(w, f) && CountsOk(w, f) && ActedOk(w, f) }

  lemma LocksKeep(w: World, f: Target, t: nat, step: Step)
    requires LocksOk(w, f) && Enabled(w, f, t, step)
    ensures LocksOk(Next(w, f, t, step), f)
  {}

  /** Only the lock's holder moves a record, a stage or the session of the target. */
  lemma OthersUnmoved(w: World, f: Target, t: nat, step: Step, u: nat)
    requires Inv(w, f) && Admitted(w, f, t, step)
    requires u in w.threads && u != t && !w.threads[u].stage && InLock(w.threads[u].phase)
    ensures var v, iqn := Next(w, f, t, step), f(w.threads[u].path);
            && !ReadyFor(v, f, iqn) && (iqn in v.n.sessions <==> iqn in w.n.sessions)
            && forall p | f(p) == iqn :: p in v.n.records <==> p in w.n.records
  {
    var v := Next(w, f, t, step);
    var iqn := f(w.threads[u].path);
    assert Holds(w, f, u) && !ReadyFor(w, f, iqn);
    assert forall x | x in v.threads && x != t :: x in w.threads && w.threads[x] == v.threads[x];
  }

  lemma StepKeeps(w: World, f: Target, t: nat, step: Step)
    requires Inv(w, f) && Admitted(w, f, t, step)
    ensures Inv(Next(w, f, t, step), f)
  {
    LocksKeep(w, f, t, step);
    var v := Next(w, f, t, step);
    forall u | u in v.threads && !v.threads[u].stage && InLock(v.threads[u].phase)
      ensures !ReadyFor(v, f, f(v.threads[u].path))
      ensures var th := v.threads[u];
              var shared := Shared(v.n.records, f, f(th.path), Some(th.path));
              && (th.phase.Counted? ==> th.phase.shared == shared)
              && (th.phase.Acted? ==> shared || f(th.path) !in v.n.sessions)
    {
      if u != t {
        OthersUnmoved(w, f, t, step, u);
        assert v.threads[u] == w.threads[u];
      } else {
        assert forall x | x in v.threads && x != t :: x in w.threads && w.threads[x] == v.threads[x];
      }
    }
  }

  /** A run: which thread takes which step. */
  ghost predicate Runs(w: World, f: Target, run: seq<(nat, Step)>)
    decreases |run|
  {
    run == [] || (Admitted(w, f, run[0].0, run[0].1) && Runs(Next(w, f, run[0].0, run[0].1), f, run[1..]))
  }

  function After(w: World, f: Target, run: seq<(nat, Step)>): World
    requires Runs(w, f, run)
    decreases |run|
  {
    if run == [] then w else After(Next(w, f, run[0].0, run[0].1), f, run[1..])
  }

  lemma {:induction false} RunKeeps(w: World, f: Target, run: seq<(nat, Step)>)
    requires Inv(w, f) && Runs(w, f, run)
    ensures Inv(After(w, f, run), f)
    decreases |run|
  {
    if run != [] {
      StepKeeps(w, f, run[0].0, run[0].1);
      RunKeeps(Next(w, f, run[0].0, run[0].1), f, run[1..]);
    }
  }

  /** In every run, with any number of handlers and crashes, a session goes down only in an
      unstage, and only when no other staged volume names its target. */
  lemma NeverPulled(f: Target, run: seq<(nat, Step)>, t: nat, step: Step, iqn: string)
    requires Runs(EMPTY, f, run) && Admitted(After(EMPTY, f, run), f, t, step)
    requires var w := After(EMPTY, f, run); iqn in w.n.sessions && iqn !in Next(w, f, t, step).n.sessions
    ensures var w := After(EMPTY, f, run);
            && step.Act? && !w.threads[t].stage && f(w.threads[t].path) == iqn
            && !ReadyFor(w, f, iqn)
            && forall p | p in w.n.records && f(p) == iqn :: p == w.threads[t].path
  {
    RunKeeps(EMPTY, f, run);
  }

  /** In every run, with any number of handlers, crashes and failed stages, the unstage that removes
      the last record of a target leaves its session down: unstages that race never all skip the
      final logout. */
  lemma LastUnstageLogsOut(f: Target, run: seq<(nat, Step)>, t: nat, iqn: string)
    requires Runs(EMPTY, f, run) && Admitted(After(EMPTY, f, run), f, t, Finish)
    requires var w := After(EMPTY, f, run); !w.threads[t].stage && f(w.threads[t].path) == iqn
    requires forall p | p in Next(After(EMPTY, f, run), f, t, Finish).n.records :: f(p) != iqn
    ensures iqn !in Next(After(EMPTY, f, run), f, t, Finish).n.sessions
  {
    RunKeeps(EMPTY, f, run);
    var w := After(EMPTY, f, run);
    assert forall p | p in w.n.records && p != w.threads[t].path :: p in Next(w, f, t, Finish).n.records;
  }

  // ---- exactness of one target, without crashes past the point of no return ---

  ghost predicate ActedOn(w: World, p: string) {
    exists t :: t in w.threads && w.threads[t].phase.Acted? && w.threads[t].path == p
  }

  ghost predicate ReadyAt(w: World, p: string) {
    exists t :: t in w.threads && w.threads[t].phase.Ready? && w.threads[t].path == p
  }

  /** A volume in service: recorded and not being torn down, or about to be recorded. */
  ghost predicate InService(w: World, p: string) { (p in w.n.records && !ActedOn(w, p)) || ReadyAt(w, p) }

  /** The session and the devices of a target are exactly those of its volumes in service. */
  ghost predicate Exact(w: World, f: Target, iqn: string) {
    && (forall p | InService(w, p) && f(p) == iqn :: iqn in w.n.sessions && p in w.n.attached)
    && (iqn in w.n.sessions ==> exists p :: InService(w, p) && f(p) == iqn)
    && (forall p | p in w.n.attached && f(p) == iqn :: InService(w, p))
    && (forall t | t in w.threads && CountedShared(w.threads[t]) && f(w.threads[t].path) == iqn :: iqn in w.n.sessions)
  }

  /** A stage that relies on the session of others. */
  predicate CountedShared(th: Thread) { th.stage && th.phase.Counted? && th.phase.shared }

  /** A handler of the target may die or fail as long as it has not changed anything: no login is
      left without its device. */
  predicate Calm(w: World, f: Target, t: nat, step: Step, iqn: string) {
    t in w.threads && f(w.threads[t].path) == iqn ==>
      && (step.Die? ==> !w.threads[t].phase.Ready? && !w.threads[t].phase.Acted?)
      && (step == Act(false) && w.threads[t].stage && w.threads[t].phase.Counted? ==> w.threads[t].phase.shared)
  }

  /** If only thread `t` changes, then what it is Ready or Acted on is all that changes. */
  lemma OneThread(w: World, v: World, t: nat, p: string)
    requires forall x | x != t :: x in v.threads <==> x in w.threads
    requires forall x | x != t && x in w.threads :: v.threads[x] == w.threads[x]
    ensures ActedOn(v, p) && !ActedOn(w, p) ==> t in v.threads && v.threads[t].phase.Acted? && v.threads[t].path == p
    ensures ActedOn(w, p) && !ActedOn(v, p) ==> t in w.threads && w.threads[t].phase.Acted? && w.threads[t].path == p
    ensures ReadyAt(v, p) && !ReadyAt(w, p) ==> t in v.threads && v.threads[t].phase.Ready? && v.threads[t].path == p
    ensures ReadyAt(w, p) && !ReadyAt(v, p) ==> t in w.threads && w.threads[t].phase.Ready? && w.threads[t].path == p
  {
    if ActedOn(v, p) && !ActedOn(w, p) {
      var x :| x in v.threads && v.threads[x].phase.Acted? && v.threads[x].path == p;
      assert x == t;
    }
    if ReadyAt(v, p) && !ReadyAt(w, p) {
      var x :| x in v.threads && v.threads[x].phase.Ready? && v.threads[x].path == p;
      assert x == t;
    }
    if ActedOn(w, p) && !ActedOn(v, p) {
      var x :| x in w.threads && w.threads[x].phase.Acted? && w.threads[x].path == p;
      assert x == t;
    }
    if ReadyAt(w, p) && !ReadyAt(v, p) {
      var x :| x in w.threads && w.threads[x].phase.Ready? && w.threads[x].path == p;
      assert x == t;
    }
  }

  lemma QuietService(w: World, f: Target, t: nat, step: Step, p: string)
    requires Admitted(w, f, t, step) && Calm(w, f, t, step, f(p)) && !step.Act? && !step.Finish?
    ensures InService(Next(w, f, t, step), p) <==> InService(w, p)
  {
    OneThread(w, Next(w, f, t, step), t, p);
  }

  /** A step of a handler leaves the volumes of every other target in service. */
  lemma ElsewhereService(w: World, f: Target, t: nat, step: Step, p: string)
    requires Enabled(w, f, t, step) && t in w.threads && f(w.threads[t].path) != f(p)
    ensures InService(Next(w, f, t, step), p) <==> InService(w, p)
  {
    OneThread(w, Next(w, f, t, step), t, p);
  }

  lemma StageActService(w: World, f: Target, t: nat, appears: bool, p: string)
    requires Enabled(w, f, t, Act(appears)) && w.threads[t].stage
    ensures var works := StageWorks(w.n, f, w.threads[t].path, w.threads[t].phase.shared, appears);
            InService(Next(w, f, t, Act(appears)), p) <==> InService(w, p) || (works && p == w.threads[t].path)
  {
    var v := Next(w, f, t, Act(appears));
    OneThread(w, v, t, p);
    var works := StageWorks(w.n, f, w.threads[t].path, w.threads[t].phase.shared, appears);
    if works && p == w.threads[t].path { assert t in v.threads && v.threads[t].phase.Ready? && v.threads[t].path == p; }
  }

  lemma UnstageActService(w: World, f: Target, t: nat, appears: bool, p: string)
    requires Inv(w, f) && Enabled(w, f, t, Act(appears)) && !w.threads[t].stage
    requires UnstageWorks(w.n, w.threads[t].path, w.threads[t].phase.shared)
    ensures InService(Next(w, f, t, Act(appears)), p) <==> InService(w, p) && p != w.threads[t].path
  {
    var v := Next(w, f, t, Act(appears));
    OneThread(w, v, t, p);
    if p == w.threads[t].path {
      assert t in v.threads && v.threads[t].phase.Acted? && v.threads[t].path == p;
      assert !ReadyFor(w, f, f(p));
    }
  }

  lemma FinishService(w: World, f: Target, t: nat, p: string)
    requires Inv(w, f) && Enabled(w, f, t, Finish)
    ensures InService(Next(w, f, t, Finish), p) <==> InService(w, p)
  {
    var v := Next(w, f, t, Finish);
    OneThread(w, v, t, p);
    if p == w.threads[t].path {
      if w.threads[t].stage {
        assert ReadyFor(w, f, f(p)) && ReadyAt(w, p);
        assert !ActedOn(w, p);
      } else {
        assert ActedOn(w, p);
      }
    }
  }

  /** What the steps of one handler do to the threads of a target. */
  lemma ElsewhereKeeps(w: World, f: Target, t: nat, step: Step, iqn: string)
    requires Exact(w, f, iqn) && Enabled(w, f, t, step) && t in w.threads && f(w.threads[t].path) != iqn
    ensures Exact(Next(w, f, t, step), f, iqn)
  {
    var v := Next(w, f, t, step);
    forall p | f(p) == iqn ensures InService(v, p) <==> InService(w, p) { ElsewhereService(w, f, t, step, p); }
    assert forall x | x in v.threads && x != t :: x in w.threads && w.threads[x] == v.threads[x];
    assert forall p | f(p) == iqn :: p in v.n.attached <==> p in w.n.attached;
  }

  lemma QuietKeeps(w: World, f: Target, t: nat, step: Step, iqn: string)
    requires Inv(w, f) && Exact(w, f, iqn) && Admitted(w, f, t, step) && Calm(w, f, t, step, iqn)
    requires !step.Act? && !step.Finish?
    ensures Exact(Next(w, f, t, step), f, iqn)
  {
    var v := Next(w, f, t, step);
    forall p | f(p) == iqn ensures InService(v, p) <==> InService(w, p) { QuietService(w, f, t, step, p); }
    if step.Count? && w.threads[t].stage && v.threads[t].phase.shared && f(w.threads[t].path) == iqn {
      var p :| p in w.n.records && f(p) == iqn;
      if ActedOn(w, p) {
        var x :| x in w.threads && w.threads[x].phase.Acted? && w.threads[x].path == p;
        Alone(w, f, t, x);
      }
      assert InService(w, p);
    }
  }

  /** Nobody else is past the lock of the target that `t` holds. */
  lemma Alone(w: World, f: Target, t: nat, x: nat)
    requires LocksOk(w, f) && t in w.threads && InLock(w.threads[t].phase)
    requires x in w.threads && InLock(w.threads[x].phase) && f(w.threads[x].path) == f(w.threads[t].path)
    ensures x == t
  {
    assert Holds(w, f, x) && Holds(w, f, t);
  }

  lemma StageActKeeps(w: World, f: Target, t: nat, appears: bool)
    requires Enabled(w, f, t, Act(appears)) && w.threads[t].stage
    requires Inv(w, f) && Exact(w, f, f(w.threads[t].path)) && Calm(w, f, t, Act(appears), f(w.threads[t].path))
    ensures Exact(Next(w, f, t, Act(appears)), f, f(w.threads[t].path))
  {
    var v, path := Next(w, f, t, Act(appears)), w.threads[t].path;
    var works := StageWorks(w.n, f, path, w.threads[t].phase.shared, appears);
    forall p ensures InService(v, p) <==> InService(w, p) || (works && p == path) {
      StageActService(w, f, t, appears, p);
    }
    if f(path) in v.n.sessions {
      if f(path) in w.n.sessions {
        var p :| InService(w, p) && f(p) == f(path);
        assert InService(v, p);
      } else {
        assert InService(v, path);
      }
    }
  }

  /** Nothing in service is unresolvable, so an unstage of an exact target does not fail. */
  lemma ExactUnstages(w: World, f: Target, t: nat)
    requires t in w.threads && !w.threads[t].stage && w.threads[t].phase.Counted?
    requires Inv(w, f) && Exact(w, f, f(w.threads[t].path))
    ensures UnstageWorks(w.n, w.threads[t].path, w.threads[t].phase.shared)
    ensures w.threads[t].path in w.n.attached ==> w.threads[t].path in w.n.records
  {
    var path := w.threads[t].path;
    assert !ReadyFor(w, f, f(path));
    assert ReadyAt(w, path) ==> ReadyFor(w, f, f(path));
    if ActedOn(w, path) {
      var x :| x in w.threads && w.threads[x].phase.Acted? && w.threads[x].path == path;
      Alone(w, f, t, x);
    }
    assert path in w.n.records ==> InService(w, path);
  }

  lemma UnstageActKeeps(w: World, f: Target, t: nat, appears: bool)
    requires Enabled(w, f, t, Act(appears)) && !w.threads[t].stage
    requires Inv(w, f) && Exact(w, f, f(w.threads[t].path))
    ensures Exact(Next(w, f, t, Act(appears)), f, f(w.threads[t].path))
  {
    ExactUnstages(w, f, t);
    var v := Next(w, f, t, Act(appears));
    var path := w.threads[t].path;
    forall p ensures InService(v, p) <==> InService(w, p) && p != path { UnstageActService(w, f, t, appears, p); }
    assert !ReadyFor(w, f, f(path));
    if w.threads[t].phase.shared {
      var q :| q in w.n.records && f(q) == f(path) && q != path;
      if ActedOn(w, q) {
        var x :| x in w.threads && w.threads[x].phase.Acted? && w.threads[x].path == q;
        Alone(w, f, t, x);
      }
      assert InService(v, q);
    } else {
      forall p | InService(v, p) ensures f(p) != f(path) {}
    }
    forall x | x in v.threads && CountedShared(v.threads[x]) ensures f(v.threads[x].path) != f(path) {
      assert x != t && w.threads[x] == v.threads[x];
      if f(w.threads[x].path) == f(path) { Alone(w, f, t, x); }
    }
  }

  lemma FinishKeeps(w: World, f: Target, t: nat)
    requires Inv(w, f) && Enabled(w, f, t, Finish) && Exact(w, f, f(w.threads[t].path))
    ensures Exact(Next(w, f, t, Finish), f, f(w.threads[t].path))
  {
    var v := Next(w, f, t, Finish);
    forall p ensures InService(v, p) <==> InService(w, p) { FinishService(w, f, t, p); }
  }

  lemma ExactStep(w: World, f: Target, t: nat, step: Step, iqn: string)
    requires Inv(w, f) && Exact(w, f, iqn) && Admitted(w, f, t, step) && Calm(w, f, t, step, iqn)
    ensures Exact(Next(w, f, t, step), f, iqn)
  {
    hide Exact, Inv, Next;
    if t in w.threads && f(w.threads[t].path) != iqn {
      ElsewhereKeeps(w, f, t, step, iqn);
    } else if step.Act? {
      if w.threads[t].stage {
        StageActKeeps(w, f, t, step.appears);
      } else {
        UnstageActKeeps(w, f, t, step.appears);
      }
    } else if step.Finish? {
      FinishKeeps(w, f, t);
    } else {
      QuietKeeps(w, f, t, step, iqn);
    }
  }

  ghost predicate RunsCalm(w: World, f: Target, run: seq<(nat, Step)>, iqn: string)
    requires Runs(w, f, run)
    decreases |run|
  {
    run == [] || (Calm(w, f, run[0].0, run[0].1, iqn) && RunsCalm(Next(w, f, run[0].0, run[0].1), f, run[1..], iqn))
  }

  lemma {:induction false} CalmRunExact(w: World, f: Target, run: seq<(nat, Step)>, iqn: string)
    requires Inv(w, f) && Exact(w, f, iqn) && Runs(w, f, run) && RunsCalm(w, f, run, iqn)
    ensures Exact(After(w, f, run), f, iqn)
    decreases |run|
  {
    hide Exact, Inv;
    if run != [] {
      var t, step := run[0].0, run[0].1;
      StepKeeps(w, f, t, step);
      ExactStep(w, f, t, step, iqn);
      CalmRunExact(Next(w, f, t, step), f, run[1..], iqn);
    }
  }

  /** If no handler of a target died or failed after it had changed something, then once those
      handlers are done, whatever goes on elsewhere on the node, the session is up exactly if some
      record names the target, and the devices are those of its records. */
  lemma TargetMatchesRecords(f: Target, run: seq<(nat, Step)>, iqn: string)
    requires Runs(EMPTY, f, run) && RunsCalm(EMPTY, f, run, iqn)
    requires forall t | t in After(EMPTY, f, run).threads :: f(After(EMPTY, f, run).threads[t].path) != iqn
    ensures var n := After(EMPTY, f, run).n;
            && (iqn in n.sessions <==> exists p :: p in n.records && f(p) == iqn)
            && forall p | f(p) == iqn :: p in n.attached <==> p in n.records
  {
    CalmRunExact(EMPTY, f, run, iqn);
    var w := After(EMPTY, f, run);
    forall p | f(p) == iqn ensures InService(w, p) <==> p in w.n.records {}
    if p :| p in w.n.records && f(p) == iqn { assert InService(w, p); }
  }

  /** The same of the whole node: if no handler of any target died or failed after it had changed
      something, then once all are done the sessions that are up are exactly those some record names. */
  lemma SessionsMatchRecords(f: Target, run: seq<(nat, Step)>)
    requires Runs(EMPTY, f, run) && (forall iqn :: RunsCalm(EMPTY, f, run, iqn))
    requires After(EMPTY, f, run).threads == map[]
    ensures var n := After(EMPTY, f, run).n;
            n.sessions == (set p | p in n.records :: f(p)) && n.attached == n.records
  {
    forall iqn ensures var n := After(EMPTY, f, run).n;
                       && (iqn in n.sessions <==> exists p :: p in n.records && f(p) == iqn)
                       && forall p | f(p) == iqn :: p in n.attached <==> p in n.records
    {
      TargetMatchesRecords(f, run, iqn);
    }
    var n := After(EMPTY, f, run).n;
    forall p ensures p in n.attached <==> p in n.records { TargetMatchesRecords(f, run, f(p)); }
  }

  // ---- the record written after the lock is released -----------------------

  /** An unstage that runs now keeps every other volume's session if and only if another record
      shares the target or no other stage is between its unlock and its record. */
  lemma PullsIff(w: World, f: Target, path: string)
    requires Exact(w, f, f(path)) && path in w.n.records && !ReadyAt(w, path)
    ensures var shared := Shared(w.n.records, f, f(path), Some(path));
            var n := UnstageAct(w.n, f, path, shared);
            (forall p | InService(w, p) && f(p) in w.n.sessions && p != path :: f(p) in n.sessions)
            <==> shared || !ReadyFor(w, f, f(path))
  {
    var shared := Shared(w.n.records, f, f(path), Some(path));
    var n := UnstageAct(w.n, f, path, shared);
    if !shared {
      if ReadyFor(w, f, f(path)) {
        var t :| t in w.threads && w.threads[t].phase.Ready? && f(w.threads[t].path) == f(path);
        assert ReadyAt(w, w.threads[t].path) && InService(w, w.threads[t].path);
      } else {
        forall p | InService(w, p) && f(p) in w.n.sessions && p != path ensures f(p) in n.sessions {
          assert f(p) == f(path) && ReadyAt(w, p) ==> ReadyFor(w, f, f(path));
        }
      }
    }
  }

  /** The steps of the code with the lock alone, without the promise of `Admitted`. */
  ghost predicate Possible(w: World, f: Target, run: seq<(nat, Step)>, v: World)
    decreases |run|
  {
    if run == [] then v == w
    else Enabled(w, f, run[0].0, run[0].1) && Possible(Next(w, f, run[0].0, run[0].1), f, run[1..], v)
  }

  lemma {:induction false} Joined(w: World, f: Target, r: seq<(nat, Step)>, v: World, q: seq<(nat, Step)>, u: World)
    requires Possible(w, f, r, v) && Possible(v, f, q, u)
    ensures Possible(w, f, r + q, u)
    decreases |r|
  {
    if r == [] {
      assert r + q == q;
    } else {
      assert (r + q)[0] == r[0] && (r + q)[1..] == r[1..] + q;
      Joined(Next(w, f, r[0].0, r[0].1), f, r[1..], v, q, u);
    }
  }

  function Then(t: nat, step: Step, rest: seq<(nat, Step)>): seq<(nat, Step)> { [(t, step)] + rest }

  lemma Prefixed(w: World, f: Target, t: nat, step: Step, rest: seq<(nat, Step)>, v: World)
    requires Enabled(w, f, t, step) && Possible(Next(w, f, t, step), f, rest, v)
    ensures Possible(w, f, Then(t, step, rest), v)
  {
    assert Then(t, step, rest)[0] == (t, step) && Then(t, step, rest)[1..] == rest;
  }

  /** A handler that meets a free lock runs undisturbed up to its decision's effect. */
  lemma RunsToAct(w: World, f: Target, t: nat, stage: bool, path: string) returns (run: seq<(nat, Step)>)
    requires t !in w.threads && f(path) !in w.locks
    ensures var shared := Shared(w.n.records, f, f(path), if stage then None else Some(path));
            var inside := World(w.n, w.locks[f(path) := t], w.threads[t := Thread(stage, path, Counted(shared))]);
            Possible(w, f, run, Next(inside, f, t, Act(true)))
  {
    var shared := Shared(w.n.records, f, f(path), if stage then None else Some(path));
    var w1 := Next(w, f, t, Begin(stage, path));
    var w2 := Next(w1, f, t, Lock);
    var w3 := Next(w2, f, t, Count);
    assert w3.threads == w.threads[t := Thread(stage, path, Counted(shared))];
    var r3 := Then(t, Act(true), []);
    Prefixed(w3, f, t, Act(true), [], Next(w3, f, t, Act(true)));
    var r2 := Then(t, Count, r3);
    Prefixed(w2, f, t, Count, r3, Next(w3, f, t, Act(true)));
    var r1 := Then(t, Lock, r2);
    Prefixed(w1, f, t, Lock, r2, Next(w3, f, t, Act(true)));
    run := Then(t, Begin(stage, path), r1);
    Prefixed(w, f, t, Begin(stage, path), r1, Next(w3, f, t, Act(true)));
  }

  /** "a" is staged and recorded. */
  lemma FirstStaged(f: Target) returns (run: seq<(nat, Step)>)
    requires f("a") == "t"
    ensures Possible(EMPTY, f, run, World(Node({"a"}, {"t"}, {"a"}), map[], map[]))
  {
    var r := RunsToAct(EMPTY, f, 0, true, "a");
    var ready := World(Node({}, {"t"}, {"a"}), map[], map[0 := Thread(true, "a", Ready)]);
    var done := World(Node({"a"}, {"t"}, {"a"}), map[], map[]);
    ReadyFromEmpty(f);
    Prefixed(ready, f, 0, Finish, [], done);
    Joined(EMPTY, f, r, ready, Then(0, Finish, []), done);
    run := r + Then(0, Finish, []);
  }

  /** "a" is unstaged while "b" is ready; then both write their records. */
  lemma UnstagedMeanwhile(f: Target) returns (run: seq<(nat, Step)>)
    requires f("a") == "t" == f("b")
    ensures Possible(World(Node({"a"}, {"t"}, {"a", "b"}), map[], map[1 := Thread(true, "b", Ready)]), f, run,
                     World(Node({"b"}, {}, {}), map[], map[]))
  {
    var w := World(Node({"a"}, {"t"}, {"a", "b"}), map[], map[1 := Thread(true, "b", Ready)]);
    var r := RunsToAct(w, f, 0, false, "a");
    var acted := World(Node({"a"}, {}, {}), map["t" := 0],
        map[0 := Thread(false, "a", Acted), 1 := Thread(true, "b", Ready)]);
    assert Possible(w, f, r, acted) by { LoggedOut(f); }
    var cleared := World(Node({}, {}, {}), map[], map[1 := Thread(true, "b", Ready)]);
    var v := World(Node({"b"}, {}, {}), map[], map[]);
    BothFinish(f);
    Prefixed(cleared, f, 1, Finish, [], v);
    Prefixed(acted, f, 0, Finish, Then(1, Finish, []), v);
    Joined(w, f, r, acted, Then(0, Finish, Then(1, Finish, [])), v);
    run := r + Then(0, Finish, Then(1, Finish, []));
  }

  /** Volume "b" is staged on the session of "a", and "a" unstaged before b's record is written:
      b ends up recorded with its session gone. */
  lemma LateRecordLosesSession(f: Target)
    requires f("a") == "t" == f("b")
    ensures exists run, v :: Possible(EMPTY, f, run, v) && v.threads == map[] && v.n == Node({"b"}, {}, {})
  {
    var r1 := FirstStaged(f);
    var w1 := World(Node({"a"}, {"t"}, {"a"}), map[], map[]);
    var r2 := RunsToAct(w1, f, 1, true, "b");
    var w2 := World(Node({"a"}, {"t"}, {"a", "b"}), map[], map[1 := Thread(true, "b", Ready)]);
    assert Possible(w1, f, r2, w2) by { ReadyOnShared(f); }
    var r3 := UnstagedMeanwhile(f);
    Joined(EMPTY, f, r1, w1, r2, w2);
    Joined(EMPTY, f, r1 + r2, w2, r3, World(Node({"b"}, {}, {}), map[], map[]));
  }

  lemma ReadyFromEmpty(f: Target)
    requires f("a") == "t"
    ensures Next(World(EMPTY.n, map[]["t" := 0], map[][0 := Thread(true, "a", Counted(false))]), f, 0, Act(true))
         == World(Node({}, {"t"}, {"a"}), map[], map[0 := Thread(true, "a", Ready)])
    ensures !Shared({}, f, "t", None)
    ensures Next(World(Node({}, {"t"}, {"a"}), map[], map[0 := Thread(true, "a", Ready)]), f, 0, Finish)
         == World(Node({"a"}, {"t"}, {"a"}), map[], map[])
  {}

  lemma ReadyOnShared(f: Target)
    requires f("a") == "t" == f("b")
    ensures Shared({"a"}, f, "t", None)
    ensures Next(World(Node({"a"}, {"t"}, {"a"}), map[]["t" := 1], map[][1 := Thread(true, "b", Counted(true))]), f, 1,
            Act(true))
         == World(Node({"a"}, {"t"}, {"a", "b"}), map[], map[1 := Thread(true, "b", Ready)])
  {}

  lemma LoggedOut(f: Target)
    requires f("a") == "t" == f("b")
    ensures !Shared({"a"}, f, "t", Some("a"))
    ensures var ready := Thread(true, "b", Ready);
            Next(World(Node({"a"}, {"t"}, {"a", "b"}), map[]["t" := 0],
                map[1 := ready][0 := Thread(false, "a", Counted(false))]), f, 0, Act(true))
            == World(Node({"a"}, {}, {}), map["t" := 0], map[0 := Thread(false, "a", Acted), 1 := ready])
  {}

  lemma BothFinish(f: Target)
    requires f("a") == "t" == f("b")
    ensures var ready := Thread(true, "b", Ready);
            && Next(World(Node({"a"}, {}, {}), map["t" := 0], map[0 := Thread(false, "a", Acted), 1 := ready]), f, 0,
               Finish)
               == World(Node({}, {}, {}), map[], map[1 := ready])
            && Next(World(Node({}, {}, {}), map[], map[1 := ready]), f, 1, Finish) == World(Node({"b"}, {}, {}),
               map[], map[])
  {}

  // ---- a detach that is not retried ------------------------------------------

  /** A stage of "b" on the session of "a". */
  lemma BothStaged(f: Target) returns (run: seq<(nat, Step)>)
    requires f("a") == "t" == f("b")
    ensures Possible(EMPTY, f, run, World(Node({"a", "b"}, {"t"}, {"a", "b"}), map[], map[]))
  {
    var r1 := FirstStaged(f);
    var w1 := World(Node({"a"}, {"t"}, {"a"}), map[], map[]);
    var r2 := RunsToAct(w1, f, 1, true, "b");
    var w2 := World(Node({"a"}, {"t"}, {"a", "b"}), map[], map[1 := Thread(true, "b", Ready)]);
    assert Possible(w1, f, r2, w2) by { ReadyOnShared(f); }
    var w3 := World(Node({"a", "b"}, {"t"}, {"a", "b"}), map[], map[]);
    assert Next(w2, f, 1, Finish) == w3;
    Prefixed(w2, f, 1, Finish, [], w3);
    Joined(EMPTY, f, r1, w1, r2, w2);
    Joined(EMPTY, f, r1 + r2, w2, Then(1, Finish, []), w3);
    run := r1 + r2 + Then(1, Finish, []);
  }

  /** A record whose device is gone, with no handler of it in flight that could change that: no
      stage, and no unstage past its detach. */
  ghost predicate Stuck(w: World, f: Target, path: string) {
    && path in w.n.records && path !in w.n.attached
    && forall t | t in w.threads && w.threads[t].path == path :: !w.threads[t].stage && !w.threads[t].phase.Acted?
  }

  /** Another record shares the target all along, and the volume is not staged again. */
  ghost predicate LeftShared(w: World, f: Target, run: seq<(nat, Step)>, path: string)
    requires Runs(w, f, run)
    decreases |run|
  {
    && Shared(w.n.records, f, f(path), Some(path))
    && (run == [] || (run[0].1 != Begin(true, path) && LeftShared(Next(w, f, run[0].0, run[0].1), f, run[1..], path)))
  }

  /** An unstage of a stuck volume fails at its detach and leaves the node as it was. */
  lemma StuckFails(w: World, f: Target, t: nat, appears: bool)
    requires Inv(w, f) && Enabled(w, f, t, Act(appears)) && Stuck(w, f, w.threads[t].path)
    requires Shared(w.n.records, f, f(w.threads[t].path), Some(w.threads[t].path))
    ensures var v := Next(w, f, t, Act(appears)); v.n == w.n && t !in v.threads
  {
    assert !w.threads[t].stage && Holds(w, f, t);
  }

  lemma StuckStep(w: World, f: Target, t: nat, step: Step, path: string)
    requires Inv(w, f) && Admitted(w, f, t, step) && step != Begin(true, path)
    requires Stuck(w, f, path) && Shared(w.n.records, f, f(path), Some(path))
    ensures Stuck(Next(w, f, t, step), f, path)
  {
    var v := Next(w, f, t, step);
    assert forall x | x in v.threads && x != t :: x in w.threads && w.threads[x] == v.threads[x];
    if step.Act? && w.threads[t].path == path { StuckFails(w, f, t, step.appears); }
  }

  /** A detach that is not followed by the removal of its record is never repaired: in every run in
      which another volume shares the target and the volume is not staged again, every further
      unstage of it fails (`StuckFails`) and the record stays. */
  lemma {:induction false} CrashedDetachIsStuck(w: World, f: Target, run: seq<(nat, Step)>, path: string)
    requires Inv(w, f) && Runs(w, f, run) && Stuck(w, f, path) && LeftShared(w, f, run, path)
    ensures Stuck(After(w, f, run), f, path)
    decreases |run|
  {
    hide Inv, Stuck;
    if run != [] {
      StepKeeps(w, f, run[0].0, run[0].1);
      StuckStep(w, f, run[0].0, run[0].1, path);
      CrashedDetachIsStuck(Next(w, f, run[0].0, run[0].1), f, run[1..], path);
    }
  }

  lemma Detached(f: Target)
    requires f("a") == "t" == f("b")
    ensures Shared({"a", "b"}, f, "t", Some("a"))
    ensures var both := Node({"a", "b"}, {"t"}, {"a", "b"});
            var inside := World(both, map[]["t" := 0], map[][0 := Thread(false, "a", Counted(true))]);
            var acted := Next(inside, f, 0, Act(true));
            && acted == World(both.(attached := {"b"}), map["t" := 0], map[0 := Thread(false, "a", Acted)])
            && Next(acted, f, 0, Die) == World(both.(attached := {"b"}), map[], map[])
  {
    assert "b" in {"a", "b"} && f("b") == "t";
  }

  /** An unstage that dies between the detach and the removal of its record leaves such a volume. */
  lemma CrashedDetachReached(f: Target)
    requires f("a") == "t" == f("b")
    ensures var v := World(Node({"a", "b"}, {"t"}, {"b"}), map[], map[]);
            && (exists run :: Possible(EMPTY, f, run, v))
            && Inv(v, f) && Stuck(v, f, "a") && Shared(v.n.records, f, "t", Some("a"))
  {
    var w := World(Node({"a", "b"}, {"t"}, {"a", "b"}), map[], map[]);
    var v := World(Node({"a", "b"}, {"t"}, {"b"}), map[], map[]);
    Detached(f);
    var r1 := BothStaged(f);
    var r2 := RunsToAct(w, f, 0, false, "a");
    var acted := World(Node({"a", "b"}, {"t"}, {"b"}), map["t" := 0], map[0 := Thread(false, "a", Acted)]);
    Prefixed(acted, f, 0, Die, [], v);
    Joined(EMPTY, f, r1, w, r2, acted);
    Joined(EMPTY, f, r1 + r2, acted, Then(0, Die, []), v);
  }

  // ---- one target per volume -----------------------------------------------

  function TargetIqn(base: string, lv: string): string { base + ":tgt-" + lv }

  lemma TargetIqnInjective(base: string, a: string, b: string)
    requires TargetIqn(base, a) == TargetIqn(base, b)
    ensures a == b
  {
    var k := |base + ":tgt-"|;
    assert TargetIqn(base, a)[k..] == a && TargetIqn(base, b)[k..] == b;
  }

  /** With a target per volume no record is ever shared, so an unstage is a plain logout of that
      one volume and leaves every other alone. */
  lemma LocalModePlain(base: string, volume: Target, n: Node, path: string)
    requires forall p, q | volume(p) == volume(q) :: p == q
    ensures var f := p => TargetIqn(base, volume(p));
            var shared := Shared(n.records, f, f(path), Some(path));
            && !shared
            && UnstageAct(n, f, path, shared) == n.(sessions := n.sessions - {f(path)}, attached := n.attached - {path})
  {
    var f := p => TargetIqn(base, volume(p));
    forall p | f(p) == f(path) ensures p == path { TargetIqnInjective(base, volume(p), volume(path)); }
  }
}
