/**
 The dispatcher: the per-backend index from zone to instance, the choice of an instance for a
 request, and the scanner's prediction of that choice.
 */
module Dispatch {
  import opened Options
  import C = Config

  /** Backend type to instance to zone, and the default instance of a type. */
  datatype DispatchConfig = DispatchConfig(instances: map<string, map<string, string>>, defaults: map<string, string>)

  datatype Dispatcher = Dispatcher(cfg: DispatchConfig, zoneIndex: map<string, map<string, string>>)

  // ---- the index -----------------------------------------------------------

  predicate Distinct(instances: map<string, string>) {
    forall i, j | i in instances && j in instances && instances[i] == instances[j] :: i == j
  }

  /** `zi` leads from each zone back to the one instance that serves it. */
  ghost predicate Inverse(instances: map<string, string>, zi: map<string, string>) {
    && (forall i | i in instances :: instances[i] in zi && zi[instances[i]] == i)
    && (forall z | z in zi :: zi[z] in instances && instances[zi[z]] == z)
  }

  method IndexZones(instances: map<string, string>) returns (zi: Option<map<string, string>>)
    ensures zi.Some? <==> Distinct(instances)
    ensures zi.Some? ==> Inverse(instances, zi.value)
  {
    var index: map<string, string> := map[];
    var todo := instances.Keys;
    while todo != {}
      invariant todo <= instances.Keys
      invariant forall i | i in instances && i !in todo :: instances[i] in index && index[instances[i]] == i
      invariant forall z | z in index :: index[z] in instances && index[z] !in todo && instances[index[z]] == z
      decreases |todo|
    {
      var i :| i in todo;
      if instances[i] in index {
        assert instances[index[instances[i]]] == instances[i] && index[instances[i]] != i;
        return None;
      }
      index := index[instances[i] := i];
      todo := todo - {i};
    }
    zi := Some(index);
  }

  /** Succeeds exactly when the zones of each backend are distinct, and indexes the inverse. */
  method New(cfg: DispatchConfig) returns (d: Option<Dispatcher>)
    ensures d.Some? <==> forall bt | bt in cfg.instances :: Distinct(cfg.instances[bt])
    ensures d.Some? ==> d.value.cfg == cfg && Indexed(d.value)
  {
    var index: map<string, map<string, string>> := map[];
    var todo := cfg.instances.Keys;
    while todo != {}
      invariant todo <= cfg.instances.Keys && index.Keys == cfg.instances.Keys - todo
      invariant forall bt | bt in index :: Distinct(cfg.instances[bt]) && Inverse(cfg.instances[bt], index[bt])
      decreases |todo|
    {
      var bt :| bt in todo;
      var zi := IndexZones(cfg.instances[bt]);
      if zi.None? { return None; }
      index := index[bt := zi.value];
      todo := todo - {bt};
    }
    d := Some(Dispatcher(cfg, index));
  }

  ghost predicate Indexed(d: Dispatcher) {
    d.zoneIndex.Keys == d.cfg.instances.Keys
        && forall bt | bt in d.zoneIndex :: Inverse(d.cfg.instances[bt], d.zoneIndex[bt])
  }

  /** An index that is an inverse has as many zones as there are instances. */
  lemma InverseSize(instances: map<string, string>, zi: map<string, string>)
    requires Inverse(instances, zi)
    ensures |zi| == |instances|
    decreases |instances|
  {
    if i :| i in instances {
      var z := instances[i];
      var fewer, index := instances - {i}, zi - {z};
      InverseSize(fewer, index);
      assert |instances.Keys - {i}| == |instances| - 1 && fewer.Keys == instances.Keys - {i};
      assert |zi.Keys - {z}| == |zi| - 1 && index.Keys == zi.Keys - {z};
    } else {
      assert instances == map[] && zi == map[];
    }
  }

  // ---- the choice ----------------------------------------------------------

  datatype Decision = Preferred | Requisite | Default | SingleInstance

  datatype Resolution = Resolution(backend: string, instance: string, zone: string, decision: Decision)

  /** The first of `zones` that some instance serves. */
  function FirstServed(zi: map<string, string>, zones: seq<string>): (r: Option<string>)
    ensures r.Some? ==> r.value in zi && r.value in zones
  {
    if zones == [] then None else if zones[0] in zi then Some(zones[0]) else FirstServed(zi, zones[1..])
  }

  lemma OnlyZone(zi: map<string, string>, a: string, b: string)
    requires |zi| == 1 && a in zi && b in zi
    ensures a == b
  {
    assert zi.Keys == {a} + (zi.Keys - {a});
    assert b in zi.Keys - {a} ==> |zi.Keys - {a}| > 0;
  }

  function Resolve(d: Dispatcher, bt: string, preferred: seq<string>, requisite: seq<string>): Option<Resolution>
    requires Indexed(d)
  {
    if bt == "" || bt !in d.zoneIndex || |d.zoneIndex[bt]| == 0 then None
    else
      var zi := d.zoneIndex[bt];
      var p, q := FirstServed(zi, preferred), FirstServed(zi, requisite);
      if p.Some? then Some(Resolution(bt, zi[p.value], p.value, Preferred))
      else if q.Some? then Some(Resolution(bt, zi[q.value], q.value, Requisite))
      else if bt in d.cfg.defaults && d.cfg.defaults[bt] != "" then
        var i := d.cfg.defaults[bt];
        Some(Resolution(bt, i, if i in d.cfg.instances[bt] then d.cfg.instances[bt][i] else "", Default))
      else if |zi| == 1 then
        var z := TheZone(zi);
        Some(Resolution(bt, zi[z], z, SingleInstance))
      else None
  }

  function TheZone(zi: map<string, string>): (z: string)
    requires |zi| == 1
    ensures z in zi
  {
    assert zi.Keys == {} ==> |zi.Keys| == 0;
    assert exists z :: z in zi;
    assert forall a, b | a in zi && b in zi :: a == b by {
      forall a, b | a in zi && b in zi ensures a == b { OnlyZone(zi, a, b); }
    }
    var z :| z in zi; z
  }

  ghost predicate Serves(zi: map<string, string>, zones: seq<string>) { exists z :: z in zones && z in zi }

  /** `z` is the earliest of `zones` that is served. */
  ghost predicate Earliest(zi: map<string, string>, zones: seq<string>, z: string) {
    exists k :: 0 <= k < |zones| && zones[k] == z && z in zi && forall j | 0 <= j < k :: zones[j] !in zi
  }

  lemma {:induction false} FirstServedIs(zi: map<string, string>, zones: seq<string>)
    ensures FirstServed(zi, zones).Some? <==> Serves(zi, zones)
    ensures FirstServed(zi, zones).Some? ==> Earliest(zi, zones, FirstServed(zi, zones).value)
  {
    if zones != [] {
      assert zones == [zones[0]] + zones[1..];
      FirstServedIs(zi, zones[1..]);
      if zones[0] in zi {
        assert zones[0] in zones;
      } else if FirstServed(zi, zones).Some? {
        var z := FirstServed(zi, zones).value;
        var k :| 0 <= k < |zones[1..]| && zones[1..][k] == z && forall j | 0 <= j < k :: zones[1..][j] !in zi;
        assert zones[k + 1] == zones[1..][k];
        forall j | 0 <= j < k + 1 ensures zones[j] !in zi { if j > 0 { assert zones[j] == zones[1..][j - 1]; } }
      }
    }
  }

  /** A request is dispatched if and only if its backend has instances and a zone it names is
      served, the backend has a default, or its one instance leaves no choice. */
  lemma ResolvesIff(d: Dispatcher, bt: string, preferred: seq<string>, requisite: seq<string>)
    requires Indexed(d)
    ensures Resolve(d, bt, preferred, requisite).Some? <==>
              && bt != "" && bt in d.cfg.instances && d.cfg.instances[bt] != map[]
              && (|| Serves(d.zoneIndex[bt], preferred) || Serves(d.zoneIndex[bt], requisite)
                  || (bt in d.cfg.defaults && d.cfg.defaults[bt] != "")
                  || |d.cfg.instances[bt]| == 1)
  {
    if bt in d.cfg.instances {
      var instances, zi := d.cfg.instances[bt], d.zoneIndex[bt];
      InverseSize(instances, zi);
      assert |instances| == 0 <==> instances == map[];
      FirstServedIs(zi, preferred);
      FirstServedIs(zi, requisite);
    }
  }

  /** The chosen instance serves the reported zone (except for a default that names no instance):
      the earliest served zone of the preferred list, else of the requisite list, else the
      default's, else the only one. */
  lemma ResolvedServes(d: Dispatcher, bt: string, preferred: seq<string>, requisite: seq<string>)
    requires Indexed(d) && Resolve(d, bt, preferred, requisite).Some?
    ensures var r, zi := Resolve(d, bt, preferred, requisite).value, d.zoneIndex[bt];
            && bt in d.cfg.instances && r.backend == bt
            && (if r.instance in d.cfg.instances[bt] then d.cfg.instances[bt][r.instance] == r.zone
                else r.decision.Default? && r.zone == "")
            && (r.decision.Preferred? <==> Serves(zi, preferred))
            && (r.decision.Preferred? ==> Earliest(zi, preferred, r.zone))
            && (r.decision.Requisite? <==> !Serves(zi, preferred) && Serves(zi, requisite))
            && (r.decision.Requisite? ==> Earliest(zi, requisite, r.zone))
            && (r.decision.Default? ==> bt in d.cfg.defaults && d.cfg.defaults[bt] == r.instance && r.instance != "")
            && (r.decision.SingleInstance? ==>
               (bt in d.cfg.defaults ==> d.cfg.defaults[bt] == "") && d.cfg.instances[bt].Keys == {r.instance})
  {
    var instances, zi := d.cfg.instances[bt], d.zoneIndex[bt];
    FirstServedIs(zi, preferred);
    FirstServedIs(zi, requisite);
    InverseSize(instances, zi);
    var r := Resolve(d, bt, preferred, requisite).value;
    if r.decision.SingleInstance? {
      forall i | i in instances ensures i == r.instance { OnlyZone(zi, instances[i], r.zone); }
    }
  }

  // ---- the scanner's prediction --------------------------------------------

  /** What the driver's start-up hands the dispatcher. */
  function Build(cfg: C.Config): DispatchConfig {
    DispatchConfig(map bt | bt in cfg.backends :: cfg.backends[bt].instances, cfg.defaults)
  }

  predicate ZoneResolvable(cfg: C.Config, bt: string, zone: string) {
    var instances := if bt in cfg.backends then cfg.backends[bt].instances else map[];
    || (exists i | i in instances :: instances[i] == zone)
    || (bt in cfg.defaults && cfg.defaults[bt] != "")
    || |instances| == 1
  }

  lemma PredictsBackend(cfg: C.Config, d: Dispatcher, bt: string, zone: string)
    requires d.cfg == Build(cfg) && Indexed(d) && bt in cfg.backends && bt != "" && cfg.backends[bt].instances != map[]
    ensures ZoneResolvable(cfg, bt, zone) <==> Resolve(d, bt, [zone], []).Some?
  {
    var instances, zi := cfg.backends[bt].instances, d.zoneIndex[bt];
    InverseSize(instances, zi);
    assert FirstServed(zi, [zone]).Some? <==> zone in zi;
    if zone in zi { assert instances[zi[zone]] == zone; }
    if i :| i in instances && instances[i] == zone { assert zone in zi; }
    assert |instances| != 0 by { var i :| i in instances; }
  }

  /** The scanner predicts the dispatcher on every backend and zone if and only if no backend
      has an empty name and every default belongs to a configured backend. */
  lemma PredictsIff(cfg: C.Config, d: Dispatcher)
    requires C.Validates(cfg) && d.cfg == Build(cfg) && Indexed(d)
    ensures (forall bt, zone :: ZoneResolvable(cfg, bt, zone) <==> Resolve(d, bt, [zone], []).Some?)
       <==> "" !in cfg.backends && forall bt | bt in cfg.defaults && cfg.defaults[bt] != "" :: bt in cfg.backends
  {
    if "" !in cfg.backends && forall bt | bt in cfg.defaults && cfg.defaults[bt] != "" :: bt in cfg.backends {
      forall bt, zone ensures ZoneResolvable(cfg, bt, zone) <==> Resolve(d, bt, [zone], []).Some? {
        if bt in cfg.backends { PredictsBackend(cfg, d, bt, zone); }
      }
    } else if "" in cfg.backends {
      var i :| i in cfg.backends[""].instances;
      var zone := cfg.backends[""].instances[i];
      assert ZoneResolvable(cfg, "", zone) && Resolve(d, "", [zone], []).None?;
    } else {
      var bt :| bt in cfg.defaults && cfg.defaults[bt] != "" && bt !in cfg.backends;
      assert ZoneResolvable(cfg, bt, "") && Resolve(d, bt, [""], []).None?;
    }
  }

  /** Configurations folded from BackendCluster resources always meet that condition. */
  lemma FoldedPredicts(cs: seq<C.BackendCluster>, cfg: C.Config, d: Dispatcher, bt: string, zone: string)
    requires C.Acceptable(cs) && C.Describes(cfg, cs) && d.cfg == Build(cfg) && Indexed(d)
    ensures ZoneResolvable(cfg, bt, zone) <==> Resolve(d, bt, [zone], []).Some?
  {
    C.ValidatesIff(cfg, cs);
    assert "" in cfg.backends ==> C.HasType(cs, "");
    forall b | b in cfg.defaults ensures b in cfg.backends {
      assert C.HasDefault(cs, b);
      var c :| c in cs && c.backendType == b && c.isDefault;
      assert C.Carries(cfg, c);
    }
    PredictsIff(cfg, d);
  }
}
