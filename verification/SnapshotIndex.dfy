/**
 The in-process index of CSI snapshot names: which source a name is bound to, and which name a
 snapshot handle releases.
 */
module SnapshotIndex {
  import opened Text

  datatype Ref = Ref(instance: string, location: string, name: string)

  function RefKey(r: Ref): string { r.instance + "|" + r.location + "|" + r.name }

  /** Fields free of '|' are read back from a key in only one way. */
  lemma RefKeyInjective(a: Ref, b: Ref)
    requires '|' !in a.instance && '|' !in a.location && '|' !in b.instance && '|' !in b.location
    requires RefKey(a) == RefKey(b)
    ensures a == b
  {
    assert RefKey(a) == a.instance + "|" + (a.location + "|" + a.name);
    assert RefKey(b) == b.instance + "|" + (b.location + "|" + b.name);
    CutUnique(a.instance, a.location + "|" + a.name, b.instance, b.location + "|" + b.name, '|');
    CutUnique(a.location, a.name, b.location, b.name, '|');
  }

  /** The short digest a CSI name becomes; distinct names have distinct digests of one length. */
  type Digest = string -> string

  ghost predicate Digests(h: Digest) {
    && (forall a, b :: h(a) == h(b) ==> a == b)
    && (forall a :: '@' !in h(a))
  }

  function SnapName(h: Digest, prefix: string, csiName: string): string { prefix + h(csiName) }

  /** The handle of a snapshot: its source, with the snapshot name appended. */
  function SnapRef(h: Digest, prefix: string, src: Ref, csiName: string): Ref {
    src.(name := src.name + "@" + SnapName(h, prefix, csiName))
  }

  /** A handle's key is the source's key with the snapshot name appended. */
  function HandleKey(h: Digest, prefix: string, srcKey: string, csiName: string): string {
    srcKey + "@" + SnapName(h, prefix, csiName)
  }

  lemma SnapRefKey(h: Digest, prefix: string, src: Ref, csiName: string)
    ensures RefKey(SnapRef(h, prefix, src, csiName)) == HandleKey(h, prefix, RefKey(src), csiName)
  {
    var n := SnapName(h, prefix, csiName);
    assert RefKey(src) + "@" + n == src.instance + "|" + src.location + "|" + (src.name + "@" + n);
  }

  lemma {:induction false} LastCutUnique(a: string, b: string, x: string, y: string)
    requires '@' !in b && '@' !in y && a + "@" + b == x + "@" + y
    ensures a == x && b == y
  {
    var s := a + "@" + b;
    assert s[|a|] == '@' && s[|x|] == '@';
    assert forall i | |a| < i < |s| :: s[i] == b[i - |a| - 1];
    assert forall i | |x| < i < |s| :: s[i] == y[i - |x| - 1];
    assert |a| == |x|;
    assert s[..|a|] == a && s[..|x|] == x && s[|a| + 1..] == b && s[|x| + 1..] == y;
  }

  lemma HandleKeyInjective(h: Digest, prefix: string, s: string, m: string, t: string, n: string)
    requires Digests(h) && '@' !in prefix
    requires HandleKey(h, prefix, s, m) == HandleKey(h, prefix, t, n)
    ensures s == t && m == n
  {
    LastCutUnique(s, SnapName(h, prefix, m), t, SnapName(h, prefix, n));
    assert SnapName(h, prefix, m)[|prefix|..] == h(m) && SnapName(h, prefix, n)[|prefix|..] == h(n);
  }

  // ---- the two maps --------------------------------------------------------

  /** CSI name to source key, and snapshot handle key to CSI name. */
  datatype Index = Index(sources: map<string, string>, names: map<string, string>)

  const EMPTY := Index(map[], map[])

  predicate Conflicts(x: Index, csiName: string, srcKey: string) {
    csiName in x.sources && x.sources[csiName] != srcKey
  }

  function Bound(x: Index, csiName: string, srcKey: string, handle: string): Index {
    Index(x.sources[csiName := srcKey], x.names[handle := csiName])
  }

  function Freed(x: Index, handle: string): Index {
    if handle in x.names then Index(x.sources - {x.names[handle]}, x.names - {handle}) else x
  }

  class Backend {
    const digest: Digest
    var sources: map<string, string>
    var names: map<string, string>

    constructor (h: Digest)
      ensures digest == h && View() == EMPTY
    {
      digest, sources, names := h, map[], map[];
    }

    function View(): Index
      reads this
    {
      Index(sources, names)
    }

    /** A name in use for another source is refused and nothing changes. */
    method CreateSnapshot(prefix: string, src: Ref, csiName: string) returns (ok: bool)
      modifies this
      ensures ok == !Conflicts(old(View()), csiName, RefKey(src))
      ensures View()
              == if ok then Bound(old(View()), csiName, RefKey(src), HandleKey(digest, prefix, RefKey(src), csiName))
                        else old(View())
      ensures ok <==> (csiName in old(sources) ==> old(sources)[csiName] == RefKey(src))
      ensures ok ==> csiName in sources && sources[csiName] == RefKey(src)
      ensures ok ==> var k := RefKey(src) + "@" + (prefix + digest(csiName)); k in names && names[k] == csiName
    {
      if csiName in sources && sources[csiName] != RefKey(src) { return false; }
      sources := sources[csiName := RefKey(src)];
      SnapRefKey(digest, prefix, src, csiName);
      names := names[RefKey(SnapRef(digest, prefix, src, csiName)) := csiName];
      ok := true;
    }

    method DeleteSnapshot(snapshot: Ref)
      modifies this
      ensures View() == Freed(old(View()), RefKey(snapshot))
    {
      if RefKey(snapshot) in names {
        sources := sources - {names[RefKey(snapshot)]};
        names := names - {RefKey(snapshot)};
      }
    }
  }

  // ---- every run with one name prefix --------------------------------------

  /** The maps are inverse to each other: a bound name's handle leads back to it, and every
      handle is that of its name's source. */
  ghost predicate Inverse(h: Digest, prefix: string, x: Index) {
    && (forall n | n in x.sources :: var k := HandleKey(h, prefix, x.sources[n], n); k in x.names && x.names[k] == n)
    && (forall k | k in x.names ::
       x.names[k] in x.sources && k == HandleKey(h, prefix, x.sources[x.names[k]], x.names[k]))
  }

  datatype Call = Create(csiName: string, srcKey: string) | Delete(handle: string)

  function Next(h: Digest, prefix: string, x: Index, call: Call): Index {
    match call
    case Create(n, s) => if Conflicts(x, n, s) then x else Bound(x, n, s, HandleKey(h, prefix, s, n))
    case Delete(k) => Freed(x, k)
  }

  lemma CreateInverse(h: Digest, prefix: string, x: Index, n: string, s: string)
    requires Digests(h) && '@' !in prefix && Inverse(h, prefix, x)
    ensures Inverse(h, prefix, Next(h, prefix, x, Create(n, s)))
  {
    if !Conflicts(x, n, s) {
      var k := HandleKey(h, prefix, s, n);
      forall m | m in x.sources && HandleKey(h, prefix, x.sources[m], m) == k ensures m == n {
        HandleKeyInjective(h, prefix, x.sources[m], m, s, n);
      }
    }
  }

  lemma StepInverse(h: Digest, prefix: string, x: Index, call: Call)
    requires Digests(h) && '@' !in prefix && Inverse(h, prefix, x)
    ensures Inverse(h, prefix, Next(h, prefix, x, call))
  {
    match call
    case Create(n, s) => CreateInverse(h, prefix, x, n, s);
    case Delete(k) =>
      hide HandleKey, Digests;
      var y := Next(h, prefix, x, call);
      forall m | m in y.sources ensures HandleKey(h, prefix, y.sources[m], m) in y.names {
        assert m in x.sources;
      }
  }

  function Run(h: Digest, prefix: string, x: Index, calls: seq<Call>): Index
    decreases |calls|
  {
    if calls == [] then x else Run(h, prefix, Next(h, prefix, x, calls[0]), calls[1..])
  }

  lemma {:induction false} RunInverse(h: Digest, prefix: string, x: Index, calls: seq<Call>)
    requires Digests(h) && '@' !in prefix && Inverse(h, prefix, x)
    ensures Inverse(h, prefix, Run(h, prefix, x, calls))
    decreases |calls|
  {
    if calls != [] {
      StepInverse(h, prefix, x, calls[0]);
      RunInverse(h, prefix, Next(h, prefix, x, calls[0]), calls[1..]);
    }
  }

  lemma StepBinding(h: Digest, prefix: string, x: Index, call: Call, n: string)
    requires Inverse(h, prefix, x)
    ensures var y := Next(h, prefix, x, call);
            && (n in x.sources ==>
                  if call == Delete(HandleKey(h, prefix, x.sources[n], n)) then n !in y.sources
                  else n in y.sources && y.sources[n] == x.sources[n])
            && (n !in x.sources && n in y.sources ==> call == Create(n, y.sources[n]))
  {
    if call.Delete? && call.handle in x.names && x.names[call.handle] == n {
      assert call.handle == HandleKey(h, prefix, x.sources[n], n);
    }
  }

  /** In every run a call changes what a name is bound to only by binding a free name, or by
      deleting exactly the handle of its binding. */
  lemma NameFreedByItsHandle(h: Digest, prefix: string, calls: seq<Call>, call: Call, n: string)
    requires Digests(h) && '@' !in prefix
    ensures var x := Run(h, prefix, EMPTY, calls);
            var y := Next(h, prefix, x, call);
            && Inverse(h, prefix, x)
            && (n in x.sources ==>
                  if call == Delete(HandleKey(h, prefix, x.sources[n], n)) then n !in y.sources
                  else n in y.sources && y.sources[n] == x.sources[n])
            && (n !in x.sources && n in y.sources ==> call == Create(n, y.sources[n]))
  {
    RunInverse(h, prefix, EMPTY, calls);
    StepBinding(h, prefix, Run(h, prefix, EMPTY, calls), call, n);
  }

  /** A name keeps its source until that handle is deleted. */
  lemma {:induction false} StaysBound(h: Digest, prefix: string, x: Index, calls: seq<Call>, n: string)
    requires Digests(h) && '@' !in prefix && Inverse(h, prefix, x) && n in x.sources
    requires Delete(HandleKey(h, prefix, x.sources[n], n)) !in calls
    ensures var y := Run(h, prefix, x, calls); n in y.sources && y.sources[n] == x.sources[n]
    decreases |calls|
  {
    if calls != [] {
      StepInverse(h, prefix, x, calls[0]);
      assert calls[0] in calls;
      StepBinding(h, prefix, x, calls[0], n);
      StaysBound(h, prefix, Next(h, prefix, x, calls[0]), calls[1..], n);
    }
  }

  /** Whatever happened before, a name that was free and then bound to `s` belongs to `s` until its
      handle is deleted, whatever else is created and deleted: a create of the name is refused exactly
      if it names another source, and repeating the create of `s` changes nothing. Deleting the
      handle frees the name for any source. */
  lemma NameBelongsToSource(h: Digest, prefix: string, past: seq<Call>, calls: seq<Call>, n: string, s: string,
      r: string)
    requires Digests(h) && '@' !in prefix && n !in Run(h, prefix, EMPTY, past).sources
    requires Delete(HandleKey(h, prefix, s, n)) !in calls
    ensures var y := Run(h, prefix, Next(h, prefix, Run(h, prefix, EMPTY, past), Create(n, s)), calls);
            var free := Next(h, prefix, y, Delete(HandleKey(h, prefix, s, n)));
            && (Conflicts(y, n, r) <==> r != s)
            && Next(h, prefix, y, Create(n, r)) == y
            && n !in free.sources && !Conflicts(free, n, r)
            && n in Next(h, prefix, free, Create(n, r)).sources && Next(h, prefix, free, Create(n, r)).sources[n] == r
  {
    var x := Run(h, prefix, EMPTY, past);
    var x1 := Next(h, prefix, x, Create(n, s));
    RunInverse(h, prefix, EMPTY, past);
    CreateInverse(h, prefix, x, n, s);
    StaysBound(h, prefix, x1, calls, n);
    RunInverse(h, prefix, x1, calls);
    BoundAgain(h, prefix, Run(h, prefix, x1, calls), n);
    StepBinding(h, prefix, Run(h, prefix, x1, calls), Delete(HandleKey(h, prefix, s, n)), n);
  }

  lemma BoundAgain(h: Digest, prefix: string, y: Index, n: string)
    requires Inverse(h, prefix, y) && n in y.sources
    ensures Bound(y, n, y.sources[n], HandleKey(h, prefix, y.sources[n], n)) == y
  {
    var k := HandleKey(h, prefix, y.sources[n], n);
    assert k in y.names && y.names[k] == n;
    assert y.sources[n := y.sources[n]] == y.sources && y.names[k := n] == y.names;
  }

  /** Two prefixes break it: a snapshot retried under another prefix has two handles, and
      deleting one frees the name while the other still stands. */
  lemma TwoPrefixes(h: Digest, p: string, q: string, s: string, n: string)
    requires p + h(n) != q + h(n)
    ensures var k, l := HandleKey(h, p, s, n), HandleKey(h, q, s, n);
            var x := Bound(Bound(EMPTY, n, s, k), n, s, l);
            && !Conflicts(Bound(EMPTY, n, s, k), n, s)
            && n !in Freed(x, k).sources && l in Freed(x, k).names && !Inverse(h, q, Freed(x, k))
  {
    var k, l := HandleKey(h, p, s, n), HandleKey(h, q, s, n);
    assert k[|s + "@"|..] == p + h(n) && l[|s + "@"|..] == q + h(n);
    var x := Bound(Bound(EMPTY, n, s, k), n, s, l);
    assert l in Freed(x, k).names && Freed(x, k).names[l] == n;
  }
}
