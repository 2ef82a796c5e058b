/** Which label keys a cycle's samples can carry: never one of the deployment's global keys,
    so the publisher's collision guard never fires on them. */
module LabelKeys {
  import opened Common
  import opened Targets
  import opened Encoder
  import opened SeriesIdentity

  const GLOBAL_KEYS: set<string> :=
    {"job", "submitter_environment", "toplevel_hostgroup", "submitter_hostgroup", "region", "availability_zone"}

  const SAMPLE_KEYS: set<string> :=
    {"equipmentno", "building", "room", "eq_class", "model", "category", "hostname", "firmware", "status",
     "sensorindex", "sensor", "kind", "outlet", "name", "ifindex", "ifdescr", "shard", "tier"}

  /** Two letters tell the two families apart. */
  predicate GlobalStart(k: string) {
    |k| >= 2 && ((k[0] == 'j' && k[1] == 'o') || (k[0] == 's' && k[1] == 'u') || (k[0] == 't' && k[1] == 'o')
                 || (k[0] == 'r' && k[1] == 'e') || (k[0] == 'a' && k[1] == 'v'))
  }

  lemma GlobalsStartApart(k: string)
    ensures k in GLOBAL_KEYS ==> GlobalStart(k)
    ensures k in SAMPLE_KEYS ==> !GlobalStart(k)
  {
  }

  lemma KeysAreDisjoint()
    ensures GLOBAL_KEYS !! SAMPLE_KEYS
  {
    forall k ensures !(k in GLOBAL_KEYS && k in SAMPLE_KEYS) { GlobalsStartApart(k); }
  }

  ghost predicate Keyed(xs: seq<Sample>) {
    forall s :: s in xs ==> s.labels.Keys <= SAMPLE_KEYS
  }

  lemma FlatMapKeyed<A>(f: A -> seq<Sample>, xs: seq<A>)
    requires forall x :: x in xs ==> Keyed(f(x))
    ensures Keyed(FlatMap(f, xs))
  {
    forall s: Sample | s in FlatMap(f, xs) ensures s.labels.Keys <= SAMPLE_KEYS {
      FlatMapSource(f, xs, s);
      var i :| 0 <= i < |xs| && s in f(xs[i]);
      assert Keyed(f(xs[i]));
    }
  }

  ghost predicate KeyedLookup(lookup: DeviceLookup) {
    forall k :: k in lookup ==> lookup[k].Keys <= SAMPLE_KEYS
  }

  lemma ExtraIsKeyed(t: Target)
    ensures ExtraLabels(t).Keys <= SAMPLE_KEYS
  {
    OptLabelKeys("building", t.building);
    OptLabelKeys("room", t.room);
    OptLabelKeys("eq_class", t.eqClass);
    OptLabelKeys("model", t.model);
    OptLabelKeys("category", t.category);
    OptLabelKeys("hostname", t.hostname);
  }

  lemma {:induction false} BuiltLookupIsKeyed(devices: seq<Target>)
    ensures KeyedLookup(BuildLookup(devices))
  {
    if devices != [] {
      BuiltLookupIsKeyed(devices[..|devices| - 1]);
      ExtraIsKeyed(devices[|devices| - 1]);
    }
  }

  lemma SensorsKeyed(stat: SensorStat, kind: string, lbl: Labels, sensors: seq<Sensor>)
    requires lbl.Keys <= SAMPLE_KEYS
    ensures Keyed(FlatMap(SensorSamples(stat, kind, lbl), sensors))
  {
    FlatMapKeyed(SensorSamples(stat, kind, lbl), sensors);
  }

  lemma OutletsKeyed(lbl: Labels, outlets: seq<Outlet>)
    requires lbl.Keys <= SAMPLE_KEYS
    ensures Keyed(FlatMap(OutletSamples(lbl), outlets))
  {
    FlatMapKeyed(OutletSamples(lbl), outlets);
  }

  lemma ScalarsKeyed(numbers: map<PduStat, real>, texts: map<PduInfo, string>, lbl: Labels)
    requires lbl.Keys <= SAMPLE_KEYS
    ensures Keyed(FlatMap(PduNumber(numbers, lbl), PDU_STATS)) && Keyed(FlatMap(PduText(texts, lbl), PDU_INFOS))
  {
    FlatMapKeyed(PduNumber(numbers, lbl), PDU_STATS);
    FlatMapKeyed(PduText(texts, lbl), PDU_INFOS);
  }

  lemma QueryKeyed(q: Query, lbl: Labels)
    requires lbl.Keys <= SAMPLE_KEYS
    ensures Keyed(QuerySamples(q, lbl))
  {
    match q
    case Pdu(numbers, texts, temperature, humidity, outlets) =>
      ScalarsKeyed(numbers, texts, lbl);
      SensorsKeyed(TemperatureC, "temperature", lbl, temperature);
      SensorsKeyed(HumidityPct, "humidity", lbl, humidity);
      OutletsKeyed(lbl, outlets);
    case _ =>
  }

  lemma ReachabilityKeyed(pings: seq<PingResult>, probes: seq<ProbeResult>, lookup: DeviceLookup)
    requires KeyedLookup(lookup)
    ensures Keyed(FlatMap(PingSamples(lookup), pings)) && Keyed(FlatMap(ProbeSamples(lookup), probes))
  {
    FlatMapKeyed(PingSamples(lookup), pings);
    FlatMapKeyed(ProbeSamples(lookup), probes);
  }

  lemma QueriesKeyed(queries: seq<QueryResult>, lookup: DeviceLookup)
    requires KeyedLookup(lookup)
    ensures Keyed(FlatMap(QueryResultSamples(lookup), queries))
  {
    forall r | r in queries ensures Keyed(QueryResultSamples(lookup)(r)) {
      if Truthy(r.equipmentNo) { QueryKeyed(r.query, BaseLabels(r.equipmentNo.value, lookup)); }
    }
    FlatMapKeyed(QueryResultSamples(lookup), queries);
  }

  lemma InterfacesKeyed(interfaces: seq<InterfaceResult>, lookup: DeviceLookup)
    requires KeyedLookup(lookup)
    ensures Keyed(FlatMap(InterfaceResultSamples(lookup), interfaces))
  {
    forall r | r in interfaces ensures Keyed(InterfaceResultSamples(lookup)(r)) {
      if Truthy(r.equipmentNo) { FlatMapKeyed(IfaceSamples(BaseLabels(r.equipmentNo.value, lookup)), r.interfaces); }
    }
    FlatMapKeyed(InterfaceResultSamples(lookup), interfaces);
  }

  lemma EncodedKeyed(pings: seq<PingResult>, probes: seq<ProbeResult>, queries: seq<QueryResult>,
                     interfaces: seq<InterfaceResult>, lookup: DeviceLookup)
    requires KeyedLookup(lookup)
    ensures Keyed(Encoded(pings, probes, queries, interfaces, lookup))
  {
    ReachabilityKeyed(pings, probes, lookup);
    QueriesKeyed(queries, lookup);
    InterfacesKeyed(interfaces, lookup);
    KeyedAppend(FlatMap(PingSamples(lookup), pings), FlatMap(ProbeSamples(lookup), probes),
                FlatMap(QueryResultSamples(lookup), queries), FlatMap(InterfaceResultSamples(lookup), interfaces));
  }

  lemma KeyedAppend(a: seq<Sample>, b: seq<Sample>, c: seq<Sample>, d: seq<Sample>)
    requires Keyed(a) && Keyed(b) && Keyed(c) && Keyed(d)
    ensures Keyed(a + b + c + d)
  {
  }
}
