/**
 The BackendCluster resources folded into one configuration: which sets of resources are
 accepted, and that neither that nor the result depends on their order.
 */
module Config {
  import opened Options

  datatype BackendCluster = BackendCluster(
    name: string, backendType: string, instance: string, endpoint: string, zone: string, isDefault: bool)

  /** The instance id defaults to the resource's name. */
  function InstanceId(c: BackendCluster): string { if c.instance != "" then c.instance else c.name }

  /** One backend type: its plugin endpoint and the zone of each instance. */
  datatype Backend = Backend(endpoint: string, instances: map<string, string>)

  datatype Config = Config(backends: map<string, Backend>, defaults: map<string, string>)

  predicate Validates(cfg: Config) {
    cfg.backends != map[] &&
    forall bt | bt in cfg.backends ::
      cfg.backends[bt].instances != map[] &&
      forall i | i in cfg.backends[bt].instances :: cfg.backends[bt].instances[i] != ""
  }

  // ---- what the fold promises ----------------------------------------------

  /** Two resources of one backend type agree on the plugin, differ in id, and are not both
      the default. */
  predicate Compatible(c: BackendCluster, d: BackendCluster) {
    c.backendType == d.backendType ==>
      c.endpoint == d.endpoint && InstanceId(c) != InstanceId(d) && !(c.isDefault && d.isDefault)
  }

  predicate Foldable(cs: seq<BackendCluster>) {
    && (forall i | 0 <= i < |cs| :: cs[i].backendType != "" && cs[i].endpoint != "")
    && (forall i, j | 0 <= i < j < |cs| :: Compatible(cs[i], cs[j]))
  }

  predicate Acceptable(cs: seq<BackendCluster>) {
    cs != [] && Foldable(cs) && forall c | c in cs :: c.zone != ""
  }

  /** The configuration carries what resource `c` says. */
  predicate Carries(cfg: Config, c: BackendCluster) {
    && c.backendType in cfg.backends
    && cfg.backends[c.backendType].endpoint == c.endpoint
    && InstanceId(c) in cfg.backends[c.backendType].instances
    && cfg.backends[c.backendType].instances[InstanceId(c)] == c.zone
    && (c.isDefault ==> c.backendType in cfg.defaults && cfg.defaults[c.backendType] == InstanceId(c))
  }

  ghost predicate HasType(cs: seq<BackendCluster>, bt: string) { exists c :: c in cs && c.backendType == bt }

  ghost predicate HasInstance(cs: seq<BackendCluster>, bt: string, i: string) {
    exists c :: c in cs && c.backendType == bt && InstanceId(c) == i
  }

  ghost predicate HasDefault(cs: seq<BackendCluster>, bt: string) {
    exists c :: c in cs && c.backendType == bt && c.isDefault
  }

  ghost predicate Complete(cfg: Config, cs: seq<BackendCluster>) { forall c | c in cs :: Carries(cfg, c) }

  ghost predicate TypesFrom(cfg: Config, cs: seq<BackendCluster>) { forall bt | bt in cfg.backends :: HasType(cs, bt) }

  ghost predicate InstancesFrom(cfg: Config, cs: seq<BackendCluster>) {
    forall bt, i | bt in cfg.backends && i in cfg.backends[bt].instances :: HasInstance(cs, bt, i)
  }

  ghost predicate DefaultsFrom(cfg: Config, cs: seq<BackendCluster>) {
    forall bt | bt in cfg.defaults :: HasDefault(cs, bt)
  }

  /** The configuration says exactly what the resources say. */
  ghost predicate Describes(cfg: Config, cs: seq<BackendCluster>) {
    Complete(cfg, cs) && TypesFrom(cfg, cs) && InstancesFrom(cfg, cs) && DefaultsFrom(cfg, cs)
  }

  // ---- the fold ------------------------------------------------------------

  /** Adds one resource; `None` on a conflict with what is there. */
  method AddCluster(cfg: Config, c: BackendCluster, ghost done: seq<BackendCluster>) returns (r: Option<Config>)
    requires Foldable(done) && Describes(cfg, done)
    ensures r.Some? <==> Foldable(done + [c])
    ensures r.Some? ==> Describes(r.value, done + [c])
  {
    hide Foldable, Describes;
    var bt, inst := c.backendType, InstanceId(c);
    if bt == "" || c.endpoint == "" {
      Malformed(done, c);
      return None;
    }
    var instances: map<string, string> := map[];
    if bt in cfg.backends {
      if cfg.backends[bt].endpoint != c.endpoint {
        OtherEndpoint(cfg, done, c);
        return None;
      }
      instances := cfg.backends[bt].instances;
    }
    if inst in instances {
      SameInstance(cfg, done, c);
      return None;
    }
    var backends := cfg.backends[bt := Backend(c.endpoint, instances[inst := c.zone])];
    var defaults := cfg.defaults;
    if c.isDefault {
      if bt in defaults {
        SecondDefault(cfg, done, c);
        return None;
      }
      defaults := defaults[bt := inst];
    }
    r := Some(Config(backends, defaults));
    Extends(cfg, done, c, r.value);
  }

  lemma Malformed(done: seq<BackendCluster>, c: BackendCluster)
    requires c.backendType == "" || c.endpoint == ""
    ensures !Foldable(done + [c])
  {
    assert (done + [c])[|done|] == c;
  }

  lemma OtherEndpoint(cfg: Config, done: seq<BackendCluster>, c: BackendCluster)
    requires Describes(cfg, done) && c.backendType in cfg.backends && cfg.backends[c.backendType].endpoint != c.endpoint
    ensures !Foldable(done + [c])
  {
    hide Foldable;
    assert HasType(done, c.backendType);
    var d :| d in done && d.backendType == c.backendType;
    assert Carries(cfg, d);
    Conflict(done, d, c);
  }

  lemma SameInstance(cfg: Config, done: seq<BackendCluster>, c: BackendCluster)
    requires Describes(cfg, done) && c.backendType in cfg.backends
    requires InstanceId(c) in cfg.backends[c.backendType].instances
    ensures !Foldable(done + [c])
  {
    hide Foldable;
    assert HasInstance(done, c.backendType, InstanceId(c));
    var d :| d in done && d.backendType == c.backendType && InstanceId(d) == InstanceId(c);
    Conflict(done, d, c);
  }

  lemma SecondDefault(cfg: Config, done: seq<BackendCluster>, c: BackendCluster)
    requires Describes(cfg, done) && c.isDefault && c.backendType in cfg.defaults
    ensures !Foldable(done + [c])
  {
    hide Foldable;
    assert HasDefault(done, c.backendType);
    var d :| d in done && d.backendType == c.backendType && d.isDefault;
    Conflict(done, d, c);
  }

  lemma Conflict(done: seq<BackendCluster>, d: BackendCluster, c: BackendCluster)
    requires d in done && !Compatible(d, c)
    ensures !Foldable(done + [c])
  {
    var i :| 0 <= i < |done| && done[i] == d;
    var next := done + [c];
    assert next[i] == d && next[|done|] == c;
  }

  /** `r` is `cfg` with resource `c` added. */
  ghost predicate Added(cfg: Config, c: BackendCluster, r: Config) {
    && (c.backendType in cfg.backends ==>
          cfg.backends[c.backendType].endpoint == c.endpoint && InstanceId(c) !in cfg.backends[c.backendType].instances)
    && (c.isDefault ==> c.backendType !in cfg.defaults)
    && r.backends == cfg.backends[c.backendType := Backend(c.endpoint,
         (if c.backendType in cfg.backends then cfg.backends[c.backendType].instances
             else map[])[InstanceId(c) := c.zone])]
    && r.defaults == if c.isDefault then cfg.defaults[c.backendType := InstanceId(c)] else cfg.defaults
  }

  lemma AddedCarries(cfg: Config, c: BackendCluster, r: Config, d: BackendCluster)
    requires Added(cfg, c, r) && (Carries(cfg, d) || d == c)
    ensures Carries(r, d)
    ensures d != c || Carries(cfg, d) ==> Compatible(d, c)
  {}

  lemma AddedTypes(cfg: Config, done: seq<BackendCluster>, c: BackendCluster, r: Config)
    requires Added(cfg, c, r) && TypesFrom(cfg, done) && DefaultsFrom(cfg, done)
    ensures TypesFrom(r, done + [c]) && DefaultsFrom(r, done + [c])
  {
    var next := done + [c];
    assert next[|done|] == c && forall d | d in done :: d in next;
    forall bt | bt in r.backends ensures HasType(next, bt) { if bt != c.backendType { assert HasType(done, bt); } }
    forall bt | bt in r.defaults ensures HasDefault(next, bt) {
      if bt in cfg.defaults { assert HasDefault(done, bt); } else { assert c in next; }
    }
  }

  lemma AddedInstances(cfg: Config, done: seq<BackendCluster>, c: BackendCluster, r: Config)
    requires Added(cfg, c, r) && InstancesFrom(cfg, done)
    ensures InstancesFrom(r, done + [c])
  {
    var next := done + [c];
    assert next[|done|] == c && forall d | d in done :: d in next;
    forall bt, i | bt in r.backends && i in r.backends[bt].instances ensures HasInstance(next, bt, i) {
      if bt == c.backendType && i == InstanceId(c) { assert c in next; } else { assert HasInstance(done, bt, i); }
    }
  }

  lemma Extends(cfg: Config, done: seq<BackendCluster>, c: BackendCluster, r: Config)
    requires Foldable(done) && Describes(cfg, done) && c.backendType != "" && c.endpoint != "" && Added(cfg, c, r)
    ensures Foldable(done + [c]) && Describes(r, done + [c])
  {
    hide Added, Carries, Compatible, TypesFrom, InstancesFrom, DefaultsFrom;
    var next := done + [c];
    forall d | d in next ensures Carries(r, d) && (d in done ==> Compatible(d, c)) { AddedCarries(cfg, c, r, d); }
    forall i, j | 0 <= i < j < |next| ensures Compatible(next[i], next[j]) {
      assert next[i] == done[i];
      if j == |done| { assert next[i] in done; }
    }
    AddedTypes(cfg, done, c, r);
    AddedInstances(cfg, done, c, r);
  }

  /** Accepts exactly the acceptable sets, and describes them. */
  method FromBackendClusters(cs: seq<BackendCluster>) returns (r: Option<Config>)
    ensures r.Some? <==> Acceptable(cs)
    ensures r.Some? ==> Describes(r.value, cs)
    ensures r.Some? ==> forall c | c in cs :: NamedBy(r.value, c)
  {
    var cfg := Config(map[], map[]);
    var i := 0;
    while i < |cs|
      invariant i <= |cs| && Foldable(cs[..i]) && Describes(cfg, cs[..i])
    {
      var next := AddCluster(cfg, cs[i], cs[..i]);
      assert cs[..i] + [cs[i]] == cs[..i + 1];
      if next.None? {
        Unfoldable(cs, i + 1);
        return None;
      }
      cfg := next.value;
      i := i + 1;
    }
    assert cs[..i] == cs;
    ValidatesIff(cfg, cs);
    r := if Validates(cfg) then Some(cfg) else None;
    forall c | c in cs ensures NamedBy(cfg, c) { ConfiguredUnder(cfg, cs, c); }
  }

  /** A resource is configured, with its zone, under the instance it gives, else under its own name. */
  ghost predicate NamedBy(cfg: Config, c: BackendCluster) {
    && c.backendType in cfg.backends
    && var instances := cfg.backends[c.backendType].instances;
       if c.instance == "" then c.name in instances && instances[c.name] == c.zone
       else c.instance in instances && instances[c.instance] == c.zone
  }

  /** And the configuration has no instance that no resource gives in that way. */
  lemma ConfiguredUnder(cfg: Config, cs: seq<BackendCluster>, c: BackendCluster)
    requires Describes(cfg, cs) && c in cs
    ensures NamedBy(cfg, c)
    ensures forall bt, i | bt in cfg.backends && i in cfg.backends[bt].instances ::
              exists d :: d in cs && d.backendType == bt && (d.instance == i || (d.instance == "" && d.name == i))
  {
    assert Carries(cfg, c);
    forall bt, i | bt in cfg.backends && i in cfg.backends[bt].instances
      ensures exists d :: d in cs && d.backendType == bt && (d.instance == i || (d.instance == "" && d.name == i))
    {
      assert HasInstance(cs, bt, i);
    }
  }

  lemma Unfoldable(cs: seq<BackendCluster>, k: nat)
    requires k <= |cs| && !Foldable(cs[..k])
    ensures !Foldable(cs)
  {
    if Foldable(cs) { assert forall i | 0 <= i < k :: cs[..k][i] == cs[i]; }
  }

  lemma ValidatesIff(cfg: Config, cs: seq<BackendCluster>)
    requires Describes(cfg, cs)
    ensures Validates(cfg) <==> cs != [] && forall c | c in cs :: c.zone != ""
  {
    if Validates(cfg) {
      var bt :| bt in cfg.backends;
      assert HasType(cs, bt);
      forall c | c in cs ensures c.zone != "" { assert Carries(cfg, c); }
    } else if cs != [] && forall c | c in cs :: c.zone != "" {
      assert Carries(cfg, cs[0]);
      forall bt | bt in cfg.backends ensures cfg.backends[bt].instances != map[] {
        assert HasType(cs, bt);
        var c :| c in cs && c.backendType == bt;
        assert Carries(cfg, c);
      }
      forall bt, i | bt in cfg.backends && i in cfg.backends[bt].instances ensures cfg.backends[bt].instances[i] != "" {
        assert HasInstance(cs, bt, i);
        var c :| c in cs && c.backendType == bt && InstanceId(c) == i;
        assert Carries(cfg, c);
      }
    }
  }

  // ---- order does not matter -----------------------------------------------

  lemma {:induction false} CountAtMostOne(cs: seq<BackendCluster>, c: BackendCluster)
    requires forall i, j | 0 <= i < j < |cs| :: cs[i] != cs[j]
    ensures multiset(cs)[c] <= 1
  {
    if cs != [] {
      CountAtMostOne(cs[1..], c);
      assert cs == [cs[0]] + cs[1..];
      if c == cs[0] { assert c !in cs[1..] && c !in multiset(cs[1..]); }
    }
  }

  lemma CountTwo(cs: seq<BackendCluster>, i: nat, j: nat)
    requires i < j < |cs| && cs[i] == cs[j]
    ensures multiset(cs)[cs[i]] >= 2
  {
    assert cs == cs[..j] + cs[j..];
    assert multiset(cs) == multiset(cs[..j]) + multiset(cs[j..]);
    assert cs[i] == cs[..j][i] && cs[j..][0] == cs[j];
    assert cs[i] in multiset(cs[..j]) && cs[i] in multiset(cs[j..]);
  }

  lemma Permuted(cs: seq<BackendCluster>, ds: seq<BackendCluster>)
    requires multiset(cs) == multiset(ds) && Foldable(cs)
    ensures Foldable(ds)
  {
    forall i, j | 0 <= i < j < |cs| ensures cs[i] != cs[j] { assert Compatible(cs[i], cs[j]); }
    forall i | 0 <= i < |ds| ensures ds[i] in cs { assert ds[i] in multiset(ds); }
    forall i, j | 0 <= i < j < |ds| ensures Compatible(ds[i], ds[j]) {
      var a :| 0 <= a < |cs| && cs[a] == ds[i];
      var b :| 0 <= b < |cs| && cs[b] == ds[j];
      if a == b {
        CountTwo(ds, i, j);
        CountAtMostOne(cs, cs[a]);
        assert false;
      } else if a < b {
        assert Compatible(cs[a], cs[b]);
      } else {
        assert Compatible(cs[b], cs[a]);
      }
    }
  }

  lemma SameBackend(a: Config, b: Config, cs: seq<BackendCluster>, bt: string)
    requires Complete(a, cs) && Complete(b, cs) && HasType(cs, bt)
    requires bt in a.backends && InstancesFrom(a, cs)
    ensures bt in b.backends && a.backends[bt].endpoint == b.backends[bt].endpoint
    ensures forall i | i in a.backends[bt].instances ::
              i in b.backends[bt].instances && a.backends[bt].instances[i] == b.backends[bt].instances[i]
  {
    var c :| c in cs && c.backendType == bt;
    assert Carries(a, c) && Carries(b, c);
    forall i | i in a.backends[bt].instances
      ensures i in b.backends[bt].instances && a.backends[bt].instances[i] == b.backends[bt].instances[i]
    {
      assert HasInstance(cs, bt, i);
      var d :| d in cs && d.backendType == bt && InstanceId(d) == i;
      assert Carries(a, d) && Carries(b, d);
    }
  }

  lemma SameBackends(a: Config, b: Config, cs: seq<BackendCluster>)
    requires Describes(a, cs) && Describes(b, cs)
    ensures a.backends == b.backends
  {
    forall bt | bt in a.backends ensures bt in b.backends && a.backends[bt] == b.backends[bt] {
      SameBackend(a, b, cs, bt);
      SameBackend(b, a, cs, bt);
      assert a.backends[bt].instances == b.backends[bt].instances;
    }
    forall bt | bt in b.backends ensures bt in a.backends { SameBackend(b, a, cs, bt); }
  }

  lemma SameDefaults(a: Config, b: Config, cs: seq<BackendCluster>)
    requires Complete(a, cs) && Complete(b, cs) && DefaultsFrom(a, cs)
    ensures forall bt | bt in a.defaults :: bt in b.defaults && a.defaults[bt] == b.defaults[bt]
  {
    forall bt | bt in a.defaults ensures bt in b.defaults && a.defaults[bt] == b.defaults[bt] {
      assert HasDefault(cs, bt);
      var c :| c in cs && c.backendType == bt && c.isDefault;
      assert Carries(a, c) && Carries(b, c);
    }
  }

  lemma SameElements(a: Config, cs: seq<BackendCluster>, ds: seq<BackendCluster>)
    requires (forall c :: c in cs <==> c in ds) && Describes(a, cs)
    ensures Describes(a, ds)
  {
    forall bt | bt in a.backends ensures HasType(ds, bt) { assert HasType(cs, bt); }
    forall bt, i | bt in a.backends && i in a.backends[bt].instances ensures HasInstance(ds, bt, i) {
      assert HasInstance(cs, bt, i);
    }
    forall bt | bt in a.defaults ensures HasDefault(ds, bt) { assert HasDefault(cs, bt); }
  }

  lemma SameDescription(a: Config, b: Config, cs: seq<BackendCluster>)
    requires Describes(a, cs) && Describes(b, cs)
    ensures a == b
  {
    SameBackends(a, b, cs);
    SameDefaults(a, b, cs);
    SameDefaults(b, a, cs);
    assert a.defaults == b.defaults;
  }

  /** Every ordering of the resources is accepted or refused alike, and gives one configuration. */
  lemma OrderIrrelevant(cs: seq<BackendCluster>, ds: seq<BackendCluster>, a: Config, b: Config)
    requires multiset(cs) == multiset(ds)
    ensures Acceptable(cs) <==> Acceptable(ds)
    ensures Describes(a, cs) && Describes(b, ds) ==> a == b
  {
    forall c ensures c in cs <==> c in ds { assert c in multiset(cs) <==> c in multiset(ds); }
    assert cs == [] <==> ds == [] by {
      if cs != [] { assert cs[0] in ds; }
      if ds != [] { assert ds[0] in cs; }
    }
    if Foldable(cs) { Permuted(cs, ds); }
    if Foldable(ds) { Permuted(ds, cs); }
    if Describes(a, cs) && Describes(b, ds) {
      SameElements(b, ds, cs);
      SameDescription(a, b, cs);
    }
  }
}
