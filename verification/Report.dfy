/** The consistency report: findings and the order they are shown in. */
module Report {
  import opened VolumeId

  datatype Severity = Error | Warn | Info | Skip

  /** What the volume join can say, and the findings of the checks that are not modelled. */
  datatype Finding =
    | UnparseableHandle(pv: string)
    | UnknownInstance(pv: string)
    | GhostPv(pv: string)
    | ListInconsistent(pv: string)
    | MissingInstance(backend: string, instance: string)
    | OrphanVolume(backend: string, volume: Handle)
    | Unverifiable(backend: string, count: nat)
    | Other(check: string, severity: Severity, resource: string, detail: string)

  function SeverityOf(f: Finding): Severity {
    match f
    case UnparseableHandle(_) => Warn
    case UnknownInstance(_) => Error
    case GhostPv(_) => Error
    case ListInconsistent(_) => Warn
    case MissingInstance(_, _) => Error
    case OrphanVolume(_, _) => Warn
    case Unverifiable(_, _) => Info
    case Other(_, s, _, _) => s
  }

  function Rank(s: Severity): nat { match s case Error => 0 case Warn => 1 case Info => 2 case Skip => 3 }

  function CheckName(f: Finding): string {
    match f
    case UnparseableHandle(_) => "unparseable-handle"
    case UnknownInstance(_) => "unknown-instance"
    case GhostPv(_) => "ghost-pv"
    case ListInconsistent(_) => "list-inconsistent"
    case MissingInstance(_, _) => "plugin-missing-instance"
    case OrphanVolume(_, _) => "orphan-volume"
    case Unverifiable(_, _) => "unverifiable"
    case Other(c, _, _, _) => c
  }

  function Resource(f: Finding): string {
    match f
    case UnparseableHandle(pv) => "pv/" + pv
    case UnknownInstance(pv) => "pv/" + pv
    case GhostPv(pv) => "pv/" + pv
    case ListInconsistent(pv) => "pv/" + pv
    case MissingInstance(b, i) => "backend/" + b + " instance/" + i
    case OrphanVolume(b, h) => b + ":" + h.instance + " " + h.location + "/" + h.name
    case Unverifiable(b, _) => "backend/" + b
    case Other(_, _, r, _) => r
  }

  // ---- the order -----------------------------------------------------------

  /** Byte-wise string order. */
  predicate StringLeq(a: string, b: string) {
    a == "" || (b != "" && (a[0] < b[0] || (a[0] == b[0] && StringLeq(a[1..], b[1..]))))
  }

  lemma {:induction false} StringTotal(a: string, b: string)
    ensures StringLeq(a, b) || StringLeq(b, a)
    ensures StringLeq(a, b) && StringLeq(b, a) ==> a == b
    decreases |a|
  {
    if a != "" && b != "" && a[0] == b[0] {
      StringTotal(a[1..], b[1..]);
      assert a == [a[0]] + a[1..] && b == [b[0]] + b[1..];
    }
  }

  lemma {:induction false} StringTransitive(a: string, b: string, c: string)
    requires StringLeq(a, b) && StringLeq(b, c)
    ensures StringLeq(a, c)
    decreases |a|
  {
    if a != "" && a[0] == b[0] == c[0] { StringTransitive(a[1..], b[1..], c[1..]); }
  }

  // ---- the keys of a map, in order -------------------------------------------

  /** `out` has exactly the given keys, each once, in ascending order. */
  ghost predicate InOrder(keys: set<string>, out: seq<string>) {
    && (forall i, j | 0 <= i < j < |out| :: StringLeq(out[i], out[j]) && out[i] != out[j])
    && (forall k :: k in out <==> k in keys)
  }

  function InsertKey(k: string, out: seq<string>): seq<string> {
    if out == [] || StringLeq(k, out[0]) then [k] + out else [out[0]] + InsertKey(k, out[1..])
  }

  lemma OrderTail(keys: set<string>, out: seq<string>)
    requires InOrder(keys, out) && out != []
    ensures InOrder(keys - {out[0]}, out[1..]) && forall k | k in keys :: StringLeq(out[0], k)
  {
    assert out == [out[0]] + out[1..];
    StringTotal(out[0], out[0]);
    forall k | k in keys ensures StringLeq(out[0], k) { var i :| 0 <= i < |out| && out[i] == k; }
  }

  lemma OrderCons(k: string, keys: set<string>, out: seq<string>)
    requires InOrder(keys, out) && k !in keys && forall x | x in keys :: StringLeq(k, x)
    ensures InOrder(keys + {k}, [k] + out)
  {
    forall j | 0 <= j < |out| ensures StringLeq(k, out[j]) && k != out[j] { assert out[j] in out; }
  }

  lemma {:induction false} InsertKeyOrdered(k: string, keys: set<string>, out: seq<string>)
    requires InOrder(keys, out) && k !in keys
    ensures InOrder(keys + {k}, InsertKey(k, out))
    decreases |out|
  {
    if out == [] || StringLeq(k, out[0]) {
      if out != [] {
        OrderTail(keys, out);
        forall x | x in keys ensures StringLeq(k, x) { StringTransitive(k, out[0], x); }
      }
      OrderCons(k, keys, out);
    } else {
      OrderTail(keys, out);
      StringTotal(k, out[0]);
      assert out[0] in out;
      InsertKeyOrdered(k, keys - {out[0]}, out[1..]);
      OrderCons(out[0], keys - {out[0]} + {k}, InsertKey(k, out[1..]));
      assert keys - {out[0]} + {k} + {out[0]} == keys + {k};
    }
  }

  lemma {:induction false} OrderExists(keys: set<string>)
    ensures exists out :: InOrder(keys, out)
  {
    if keys == {} {
      assert InOrder(keys, []);
    } else {
      var k :| k in keys;
      OrderExists(keys - {k});
      var out :| InOrder(keys - {k}, out);
      InsertKeyOrdered(k, keys - {k}, out);
      assert keys - {k} + {k} == keys;
    }
  }

  lemma {:induction false} OrderUnique(keys: set<string>, a: seq<string>, b: seq<string>)
    requires InOrder(keys, a) && InOrder(keys, b)
    ensures a == b
    decreases |a|
  {
    assert b != [] ==> b[0] in b;
    if a != [] {
      assert a[0] in a;
      OrderTail(keys, a);
      OrderTail(keys, b);
      StringTotal(a[0], b[0]);
      OrderUnique(keys - {a[0]}, a[1..], b[1..]);
    }
  }

  /** The keys in ascending order. */
  ghost function Ordered(keys: set<string>): (out: seq<string>)
    ensures InOrder(keys, out)
  {
    OrderExists(keys);
    var out :| InOrder(keys, out);
    out
  }

  /** sortedKeys: collects the keys in whatever order they come, and sorts them. */
  method SortedKeys(keys: set<string>) returns (out: seq<string>)
    ensures InOrder(keys, out) && out == Ordered(keys)
  {
    out := [];
    var todo := keys;
    while todo != {}
      invariant todo <= keys && InOrder(keys - todo, out)
      decreases |todo|
    {
      var k :| k in todo;
      InsertKeyOrdered(k, keys - todo, out);
      assert keys - todo + {k} == keys - (todo - {k});
      out := InsertKey(k, out);
      todo := todo - {k};
    }
    assert keys - todo == keys;
    OrderUnique(keys, out, Ordered(keys));
  }

  /** Most severe first, then by check, then by resource. */
  predicate Leq(f: Finding, g: Finding) {
    var r, s := Rank(SeverityOf(f)), Rank(SeverityOf(g));
    if r != s then r < s
    else if CheckName(f) != CheckName(g) then StringLeq(CheckName(f), CheckName(g))
    else StringLeq(Resource(f), Resource(g))
  }

  predicate Tied(f: Finding, g: Finding) { Leq(f, g) && Leq(g, f) }

  lemma LeqTotal(f: Finding, g: Finding)
    ensures Leq(f, g) || Leq(g, f)
  {
    StringTotal(CheckName(f), CheckName(g));
    StringTotal(Resource(f), Resource(g));
  }

  lemma LeqTransitive(f: Finding, g: Finding, h: Finding)
    requires Leq(f, g) && Leq(g, h)
    ensures Leq(f, h)
  {
    var a, b, c := CheckName(f), CheckName(g), CheckName(h);
    if Rank(SeverityOf(f)) == Rank(SeverityOf(h)) {
      if StringLeq(a, b) && StringLeq(b, c) { StringTransitive(a, b, c); }
      if a == c && a != b { StringTotal(a, b); }
      if a == b == c { StringTransitive(Resource(f), Resource(g), Resource(h)); }
    }
  }

  // ---- stable sorting ------------------------------------------------------

  predicate Sorted(fs: seq<Finding>) { forall i, j | 0 <= i < j < |fs| :: Leq(fs[i], fs[j]) }

  /** In a report, errors come before everything else, then warnings, then information; skipped checks
      come last. Lost data and lost instances are errors, what is only out of step is a warning. */
  lemma SevereFirst(fs: seq<Finding>, i: nat, j: nat)
    requires Sorted(fs) && i < j < |fs|
    ensures SeverityOf(fs[j]).Error? ==> SeverityOf(fs[i]).Error?
    ensures SeverityOf(fs[j]).Warn? ==> SeverityOf(fs[i]).Error? || SeverityOf(fs[i]).Warn?
    ensures SeverityOf(fs[i]).Skip? ==> SeverityOf(fs[j]).Skip?
    ensures fs[j].GhostPv? || fs[j].UnknownInstance? || fs[j].MissingInstance? ==>
              !fs[i].UnparseableHandle? && !fs[i].ListInconsistent? && !fs[i].OrphanVolume? && !fs[i].Unverifiable?
    ensures fs[j].UnparseableHandle? || fs[j].ListInconsistent? || fs[j].OrphanVolume? ==> !fs[i].Unverifiable?
  {
    assert Leq(fs[i], fs[j]);
  }

  /** Among the errors, ghosts come before missing instances and those before unknown ones; among the
      warnings, dropped entries before orphans and those before unparseable handles. */
  lemma ChecksInOrder(fs: seq<Finding>, i: nat, j: nat)
    requires Sorted(fs) && i < j < |fs|
    ensures fs[j].GhostPv? ==> !fs[i].MissingInstance? && !fs[i].UnknownInstance?
    ensures fs[j].MissingInstance? ==> !fs[i].UnknownInstance?
    ensures fs[j].ListInconsistent? ==> !fs[i].OrphanVolume? && !fs[i].UnparseableHandle?
    ensures fs[j].OrphanVolume? ==> !fs[i].UnparseableHandle?
  {
    assert Leq(fs[i], fs[j]);
    assert "ghost-pv"[0] < "plugin-missing-instance"[0] < "unknown-instance"[0];
    assert "list-inconsistent"[0] < "orphan-volume"[0] < "unparseable-handle"[0];
  }

  /** The findings tied with `f`, in order. */
  function TiedWith(fs: seq<Finding>, f: Finding): seq<Finding> {
    if fs == [] then [] else (if Tied(fs[0], f) then [fs[0]] else []) + TiedWith(fs[1..], f)
  }

  /** The same findings, sorted, ties in their given order. */
  ghost predicate StablySorted(fs: seq<Finding>, r: seq<Finding>) {
    multiset(r) == multiset(fs) && Sorted(r) && forall f :: TiedWith(r, f) == TiedWith(fs, f)
  }

  /** `f` in front of the first finding it may precede. */
  function Insert(f: Finding, fs: seq<Finding>): seq<Finding> {
    if fs == [] || Leq(f, fs[0]) then [f] + fs else [fs[0]] + Insert(f, fs[1..])
  }

  function StableSort(fs: seq<Finding>): seq<Finding> {
    if fs == [] then [] else Insert(fs[0], StableSort(fs[1..]))
  }

  lemma {:induction false} InsertAdds(f: Finding, fs: seq<Finding>)
    ensures multiset(Insert(f, fs)) == multiset(fs) + multiset{f}
  {
    if !(fs == [] || Leq(f, fs[0])) {
      InsertAdds(f, fs[1..]);
      assert fs == [fs[0]] + fs[1..];
    }
  }

  lemma {:induction false} InsertSorted(f: Finding, fs: seq<Finding>)
    requires Sorted(fs)
    ensures Sorted(Insert(f, fs))
  {
    if fs != [] {
      var rest := Insert(f, fs[1..]);
      if Leq(f, fs[0]) {
        forall j | 0 <= j < |fs| ensures Leq(f, fs[j]) { if j > 0 { LeqTransitive(f, fs[0], fs[j]); } }
      } else {
        InsertSorted(f, fs[1..]);
        LeqTotal(f, fs[0]);
        InsertAdds(f, fs[1..]);
        forall j | 0 <= j < |rest| ensures Leq(fs[0], rest[j]) {
          assert rest[j] in multiset(rest);
          assert rest[j] == f || rest[j] in fs[1..];
        }
      }
    }
  }

  lemma TiedCons(f: Finding, fs: seq<Finding>, g: Finding)
    ensures TiedWith([f] + fs, g) == (if Tied(f, g) then [f] else []) + TiedWith(fs, g)
  {
    assert ([f] + fs)[1..] == fs;
  }

  /** Findings that do not tie with each other do not both tie with a third. */
  lemma TieShared(f: Finding, h: Finding, g: Finding)
    requires Tied(f, g) && Tied(h, g)
    ensures Leq(f, h)
  {
    LeqTransitive(f, g, h);
  }

  lemma Apart(a: seq<Finding>, b: seq<Finding>, t: seq<Finding>)
    requires a == [] || b == []
    ensures a + (b + t) == b + (a + t)
  {}

  lemma {:induction false} InsertStable(f: Finding, fs: seq<Finding>, g: Finding)
    ensures TiedWith(Insert(f, fs), g) == TiedWith([f] + fs, g)
  {
    if fs != [] && !Leq(f, fs[0]) {
      var h, rest := fs[0], fs[1..];
      InsertStable(f, rest, g);
      assert fs == [h] + rest;
      TiedCons(h, Insert(f, rest), g);
      TiedCons(f, rest, g);
      TiedCons(h, rest, g);
      TiedCons(f, fs, g);
      if Tied(f, g) && Tied(h, g) { TieShared(f, h, g); }
      Apart(if Tied(f, g) then [f] else [], if Tied(h, g) then [h] else [], TiedWith(rest, g));
    }
  }

  lemma InsertTied(fs: seq<Finding>, rest: seq<Finding>, g: Finding)
    requires fs != [] && TiedWith(rest, g) == TiedWith(fs[1..], g)
    ensures TiedWith(Insert(fs[0], rest), g) == TiedWith(fs, g)
  {
    hide Insert, Tied;
    InsertStable(fs[0], rest, g);
    assert ([fs[0]] + rest)[1..] == rest;
  }

  lemma {:induction false} SortStable(fs: seq<Finding>)
    ensures StablySorted(fs, StableSort(fs))
  {
    if fs != [] {
      hide Insert, TiedWith, Sorted;
      var rest := StableSort(fs[1..]);
      SortStable(fs[1..]);
      InsertAdds(fs[0], rest);
      InsertSorted(fs[0], rest);
      assert fs == [fs[0]] + fs[1..];
      forall g ensures TiedWith(StableSort(fs), g) == TiedWith(fs, g) { InsertTied(fs, rest, g); }
    }
  }

  lemma {:induction false} TiedMembers(fs: seq<Finding>, f: Finding, g: Finding)
    ensures g in TiedWith(fs, f) <==> g in fs && Tied(g, f)
  {
    if fs != [] {
      TiedMembers(fs[1..], f, g);
      assert fs == [fs[0]] + fs[1..];
    }
  }

  /** Something in `s` ties with the head of `r`, so the head of `s` comes no later. */
  lemma HeadNoLater(r: seq<Finding>, s: seq<Finding>)
    requires r != [] && Sorted(s) && TiedWith(r, r[0]) == TiedWith(s, r[0])
    ensures s != [] && Leq(s[0], r[0])
  {
    LeqTotal(r[0], r[0]);
    TiedMembers(r, r[0], r[0]);
    TiedMembers(s, r[0], r[0]);
    var j :| 0 <= j < |s| && s[j] == r[0];
    LeqTotal(s[0], s[0]);
  }

  /** The order leaves nothing open: a report has only one stably sorted form. */
  lemma {:induction false} StableUnique(r: seq<Finding>, s: seq<Finding>)
    requires Sorted(r) && Sorted(s) && forall f :: TiedWith(r, f) == TiedWith(s, f)
    ensures r == s
  {
    if r == [] {
      if s != [] { HeadNoLater(s, r); }
    } else {
      HeadNoLater(r, s);
      HeadNoLater(s, r);
      LeqTotal(r[0], r[0]);
      assert TiedWith(r, r[0])[0] == r[0] && TiedWith(s, r[0])[0] == s[0];
      forall f ensures TiedWith(r[1..], f) == TiedWith(s[1..], f) { TailTied(r, s, f); }
      StableUnique(r[1..], s[1..]);
    }
  }

  lemma TailTied(r: seq<Finding>, s: seq<Finding>, f: Finding)
    requires r != [] && s != [] && r[0] == s[0] && TiedWith(r, f) == TiedWith(s, f)
    ensures TiedWith(r[1..], f) == TiedWith(s[1..], f)
  {
    SamePrefix(if Tied(r[0], f) then [r[0]] else [], TiedWith(r[1..], f), TiedWith(s[1..], f));
  }

  lemma SamePrefix(x: seq<Finding>, a: seq<Finding>, b: seq<Finding>)
    requires x + a == x + b
    ensures a == b
  {
    assert (x + a)[|x|..] == a && (x + b)[|x|..] == b;
  }
}
