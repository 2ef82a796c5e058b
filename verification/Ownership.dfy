/** Whose samples are whose: every encoded sample is of a device metric and carries the
    equipment number of the result it was encoded from, whatever the answers look like. */
module Ownership {
  import opened Common
  import opened Targets
  import opened Encoder
  import opened SeriesIdentity

  /** A device sample of equipment `e`. */
  ghost predicate Owned(s: Sample, e: string) {
    IsDeviceMetric(s.name) && EQ in s.labels && s.labels[EQ] == e
  }

  ghost predicate AllOwned(xs: seq<Sample>, e: string) {
    forall s :: s in xs ==> Owned(s, e)
  }

  ghost predicate Labelled(lbl: Labels, e: string) {
    EQ in lbl && lbl[EQ] == e
  }

  lemma FlatMapOwned<A>(f: A -> seq<Sample>, xs: seq<A>, e: string)
    requires forall x :: x in xs ==> AllOwned(f(x), e)
    ensures AllOwned(FlatMap(f, xs), e)
  {
    forall s | s in FlatMap(f, xs) ensures Owned(s, e) {
      FlatMapSource(f, xs, s);
      var i :| 0 <= i < |xs| && s in f(xs[i]);
      assert AllOwned(f(xs[i]), e);
    }
  }

  lemma SensorsOwned(stat: SensorStat, kind: string, lbl: Labels, sensors: seq<Sensor>, e: string)
    requires Labelled(lbl, e)
    ensures AllOwned(FlatMap(SensorSamples(stat, kind, lbl), sensors), e)
  {
    LabelKeysDiffer();
    FlatMapOwned(SensorSamples(stat, kind, lbl), sensors, e);
  }

  lemma OutletsOwned(lbl: Labels, outlets: seq<Outlet>, e: string)
    requires Labelled(lbl, e)
    ensures AllOwned(FlatMap(OutletSamples(lbl), outlets), e)
  {
    LabelKeysDiffer();
    FlatMapOwned(OutletSamples(lbl), outlets, e);
  }

  lemma ScalarsOwned(numbers: map<PduStat, real>, texts: map<PduInfo, string>, lbl: Labels, e: string)
    requires Labelled(lbl, e)
    ensures AllOwned(FlatMap(PduNumber(numbers, lbl), PDU_STATS), e)
    ensures AllOwned(FlatMap(PduText(texts, lbl), PDU_INFOS), e)
  {
    LabelKeysDiffer();
    FlatMapOwned(PduNumber(numbers, lbl), PDU_STATS, e);
    FlatMapOwned(PduText(texts, lbl), PDU_INFOS, e);
  }

  lemma QueryOwned(q: Query, lbl: Labels, e: string)
    requires Labelled(lbl, e)
    ensures AllOwned(QuerySamples(q, lbl), e)
  {
    LabelKeysDiffer();
    match q
    case Pdu(numbers, texts, temperature, humidity, outlets) =>
      ScalarsOwned(numbers, texts, lbl, e);
      SensorsOwned(TemperatureC, "temperature", lbl, temperature, e);
      SensorsOwned(HumidityPct, "humidity", lbl, humidity, e);
      OutletsOwned(lbl, outlets, e);
    case _ =>
  }

  lemma IfacesOwned(lbl: Labels, ifaces: seq<Iface>, e: string)
    requires Labelled(lbl, e)
    ensures AllOwned(FlatMap(IfaceSamples(lbl), ifaces), e)
  {
    LabelKeysDiffer();
    FlatMapOwned(IfaceSamples(lbl), ifaces, e);
  }

  /** Some result is named `e`. */
  ghost predicate Names<R>(eq: R -> Option<string>, results: seq<R>, e: string) {
    exists r :: r in results && eq(r) == Some(e) && e != ""
  }

  /** A sample of one stage is owned by the device that one of its results names. */
  lemma StageOwned<R>(f: R -> seq<Sample>, eq: R -> Option<string>, results: seq<R>, s: Sample)
    requires forall r :: if Truthy(eq(r)) then AllOwned(f(r), eq(r).value) else f(r) == []
    requires s in FlatMap(f, results)
    ensures EQ in s.labels && Owned(s, s.labels[EQ]) && Names(eq, results, s.labels[EQ])
  {
    FlatMapSource(f, results, s);
    var i :| 0 <= i < |results| && s in f(results[i]);
    assert Owned(s, eq(results[i]).value);
  }

  lemma ReachabilityOwned(pings: seq<PingResult>, probes: seq<ProbeResult>, lookup: DeviceLookup, s: Sample)
    requires PlainLookup(lookup)
    ensures s in FlatMap(PingSamples(lookup), pings) ==>
              EQ in s.labels && Owned(s, s.labels[EQ]) && Names(PingEq(), pings, s.labels[EQ])
    ensures s in FlatMap(ProbeSamples(lookup), probes) ==>
              EQ in s.labels && Owned(s, s.labels[EQ]) && Names(ProbeEq(), probes, s.labels[EQ])
  {
    if s in FlatMap(PingSamples(lookup), pings) { StageOwned(PingSamples(lookup), PingEq(), pings, s); }
    if s in FlatMap(ProbeSamples(lookup), probes) { StageOwned(ProbeSamples(lookup), ProbeEq(), probes, s); }
  }

  lemma QueriesOwned(queries: seq<QueryResult>, lookup: DeviceLookup, s: Sample)
    requires PlainLookup(lookup) && s in FlatMap(QueryResultSamples(lookup), queries)
    ensures EQ in s.labels && Owned(s, s.labels[EQ]) && Names(QueryEq(), queries, s.labels[EQ])
  {
    forall r: QueryResult | Truthy(r.equipmentNo) ensures AllOwned(QueryResultSamples(lookup)(r), r.equipmentNo.value) {
      BaseCarries(r.equipmentNo.value, lookup);
      QueryOwned(r.query, BaseLabels(r.equipmentNo.value, lookup), r.equipmentNo.value);
    }
    StageOwned(QueryResultSamples(lookup), QueryEq(), queries, s);
  }

  lemma InterfacesOwned(interfaces: seq<InterfaceResult>, lookup: DeviceLookup, s: Sample)
    requires PlainLookup(lookup) && s in FlatMap(InterfaceResultSamples(lookup), interfaces)
    ensures EQ in s.labels && Owned(s, s.labels[EQ]) && Names(InterfaceEq(), interfaces, s.labels[EQ])
  {
    forall r: InterfaceResult | Truthy(r.equipmentNo)
      ensures AllOwned(InterfaceResultSamples(lookup)(r), r.equipmentNo.value)
    {
      BaseCarries(r.equipmentNo.value, lookup);
      IfacesOwned(BaseLabels(r.equipmentNo.value, lookup), r.interfaces, r.equipmentNo.value);
    }
    StageOwned(InterfaceResultSamples(lookup), InterfaceEq(), interfaces, s);
  }

  /** Every encoded sample is a device sample of the equipment some result names. */
  lemma EncodedOwned(pings: seq<PingResult>, probes: seq<ProbeResult>, queries: seq<QueryResult>,
                     interfaces: seq<InterfaceResult>, lookup: DeviceLookup, s: Sample)
    requires PlainLookup(lookup) && s in Encoded(pings, probes, queries, interfaces, lookup)
    ensures EQ in s.labels && Owned(s, s.labels[EQ])
    ensures Names(PingEq(), pings, s.labels[EQ]) || Names(ProbeEq(), probes, s.labels[EQ])
            || Names(QueryEq(), queries, s.labels[EQ]) || Names(InterfaceEq(), interfaces, s.labels[EQ])
  {
    ReachabilityOwned(pings, probes, lookup, s);
    if s in FlatMap(QueryResultSamples(lookup), queries) {
      QueriesOwned(queries, lookup, s);
    } else if s in FlatMap(InterfaceResultSamples(lookup), interfaces) {
      InterfacesOwned(interfaces, lookup, s);
    }
  }
}
