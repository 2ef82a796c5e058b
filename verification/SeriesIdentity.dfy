/** No sample is lost to last-wins grouping: the (metric, label map) pairs of one cycle
    are pairwise distinct. */
module SeriesIdentity {
  import opened Common
  import opened Text
  import opened Targets
  import opened Encoder

  const EQ := "equipmentno"

  /** A series' identity. */
  function Identity(): Sample -> (Metric, Labels) {
    (s: Sample) => (s.name, s.labels)
  }

  /** Every sample carries equipment number `e`. */
  ghost predicate Carries(xs: seq<Sample>, e: string) {
    forall s :: s in xs ==> EQ in s.labels && s.labels[EQ] == e
  }

  ghost predicate Sound(xs: seq<Sample>, e: string) {
    DistinctBy(Identity(), xs) && Carries(xs, e)
  }

  /** A segment of later-ranked metrics never meets the samples before it. */
  lemma AddSegment(xs: seq<Sample>, ys: seq<Sample>, rank: Metric -> nat, k: nat)
    requires DistinctBy(Identity(), xs) && DistinctBy(Identity(), ys)
    requires forall s :: s in xs ==> rank(s.name) < k
    requires forall s :: s in ys ==> rank(s.name) == k
    ensures DistinctBy(Identity(), xs + ys)
    ensures forall s :: s in xs + ys ==> rank(s.name) < k + 1
  {
    DistinctAppend(Identity(), xs, ys);
  }

  lemma LabelKeysDiffer()
    ensures EQ !in {"building", "room", "eq_class", "model", "category", "hostname"}
    ensures EQ !in {"firmware", "status", "sensorindex", "sensor", "kind", "outlet", "name"}
    ensures EQ !in {"ifindex", "ifdescr", "shard", "tier"}
    ensures "sensorindex" != "sensor" && "sensorindex" != "kind" && "outlet" != "name" && "ifindex" != "ifdescr"
  {
    assert EQ[0] == 'e' && EQ[1] == 'q' && EQ[2] == 'u';
    assert "eq_class"[2] == '_';
    assert "ifindex"[2] == 'i' && "ifdescr"[2] == 'd';
    assert |"sensor"| == 6 && |"sensorindex"| == 11;
  }

  /** Enrichment never overrides the equipment number. */
  ghost predicate PlainLookup(lookup: DeviceLookup) {
    forall k :: k in lookup ==> EQ !in lookup[k]
  }

  lemma OptLabelKeys(key: string, v: Option<string>)
    ensures OptLabel(key, v).Keys <= {key}
  {
  }

  lemma ExtraIsPlain(t: Target)
    ensures EQ !in ExtraLabels(t)
  {
    LabelKeysDiffer();
    OptLabelKeys("building", t.building);
    OptLabelKeys("room", t.room);
    OptLabelKeys("eq_class", t.eqClass);
    OptLabelKeys("model", t.model);
    OptLabelKeys("category", t.category);
    OptLabelKeys("hostname", t.hostname);
  }

  lemma {:induction false} BuiltLookupIsPlain(devices: seq<Target>)
    ensures PlainLookup(BuildLookup(devices))
  {
    if devices != [] {
      BuiltLookupIsPlain(devices[..|devices| - 1]);
      ExtraIsPlain(devices[|devices| - 1]);
    }
  }

  // ---- One result ----------------------------------------------------------------

  /** Rows that are indexed at all have different indices. */
  ghost predicate DistinctIndices<A>(index: A -> Option<int>, rows: seq<A>) {
    forall i, j :: 0 <= i < j < |rows| && index(rows[i]).Some? && index(rows[j]).Some? ==>
      index(rows[i]) != index(rows[j])
  }

  function SensorIndex(): Sensor -> Option<int> { (s: Sensor) => s.index }
  function OutletIndex(): Outlet -> Option<int> { (o: Outlet) => o.index }
  function IfaceIndex(): Iface -> Option<int> { (i: Iface) => i.ifindex }

  ghost predicate IndexedQuery(q: Query) {
    q.Pdu? ==> && DistinctIndices(SensorIndex(), q.temperature) && DistinctIndices(SensorIndex(), q.humidity)
               && DistinctIndices(OutletIndex(), q.outlets)
  }

  /** Rows keyed by a decimal index label give distinct samples when each row does. */
  lemma IndexedRowsDistinct<A>(f: A -> seq<Sample>, rows: seq<A>, index: A -> Option<int>, key: string)
    requires DistinctIndices(index, rows)
    requires forall r, s :: r in rows && s in f(r) ==>
               index(r).Some? && key in s.labels && s.labels[key] == IntText(index(r).value)
    requires forall r :: r in rows ==> DistinctBy(Identity(), f(r))
    ensures DistinctBy(Identity(), FlatMap(f, rows))
  {
    forall i, j, x, y | 0 <= i < j < |rows| && x in f(rows[i]) && y in f(rows[j])
      ensures Identity()(x) != Identity()(y)
    {
      IntTextInjective(index(rows[i]).value, index(rows[j]).value);
    }
    FlatMapDistinct(f, rows, Identity());
  }

  lemma NumbersDistinct(numbers: map<PduStat, real>, lbl: Labels)
    ensures var xs := FlatMap(PduNumber(numbers, lbl), PDU_STATS);
            DistinctBy(Identity(), xs) && forall s :: s in xs ==> s.name.PduQuery? && s.labels == lbl
  {
    var f := PduNumber(numbers, lbl);
    FlatMapDistinct(f, PDU_STATS, Identity());
    forall s: Sample | s in FlatMap(f, PDU_STATS) ensures s.name.PduQuery? && s.labels == lbl {
      FlatMapSource(f, PDU_STATS, s);
    }
  }

  lemma TextsDistinct(texts: map<PduInfo, string>, lbl: Labels, e: string)
    requires EQ in lbl && lbl[EQ] == e
    ensures var xs := FlatMap(PduText(texts, lbl), PDU_INFOS);
            DistinctBy(Identity(), xs) && Carries(xs, e) && forall s :: s in xs ==> s.name.PduQueryInfo?
  {
    LabelKeysDiffer();
    var f := PduText(texts, lbl);
    FlatMapDistinct(f, PDU_INFOS, Identity());
    forall s: Sample | s in FlatMap(f, PDU_INFOS) ensures s.name.PduQueryInfo? && EQ in s.labels && s.labels[EQ] == e {
      FlatMapSource(f, PDU_INFOS, s);
    }
  }

  /** A sensor sample is a reading of `stat` or an info row of `kind`. */
  predicate SensorShape(s: Sample, stat: SensorStat, kind: string) {
    s.name == PduSensor(stat) || (s.name == PduSensor(SensorInfo) && "kind" in s.labels && s.labels["kind"] == kind)
  }

  /** The samples of one sensor. */
  ghost predicate SensorRow(xs: seq<Sample>, stat: SensorStat, kind: string, r: Sensor, e: string) {
    && Sound(xs, e) && (xs != [] ==> r.index.Some?)
    && forall s :: s in xs ==>
         SensorShape(s, stat, kind) && "sensorindex" in s.labels && s.labels["sensorindex"] == IntText(r.index.value)
  }

  lemma SensorRowHolds(stat: SensorStat, kind: string, lbl: Labels, r: Sensor, e: string)
    requires stat != SensorInfo && EQ in lbl && lbl[EQ] == e
    ensures SensorRow(SensorSamples(stat, kind, lbl)(r), stat, kind, r, e)
  {
    LabelKeysDiffer();
  }

  lemma SensorsDistinct(stat: SensorStat, kind: string, lbl: Labels, sensors: seq<Sensor>, e: string)
    requires stat != SensorInfo && DistinctIndices(SensorIndex(), sensors) && EQ in lbl && lbl[EQ] == e
    ensures var xs := FlatMap(SensorSamples(stat, kind, lbl), sensors);
            DistinctBy(Identity(), xs) && Carries(xs, e) && forall s :: s in xs ==> SensorShape(s, stat, kind)
  {
    var f := SensorSamples(stat, kind, lbl);
    forall r | r in sensors ensures SensorRow(f(r), stat, kind, r, e) { SensorRowHolds(stat, kind, lbl, r, e); }
    IndexedRowsDistinct(f, sensors, SensorIndex(), "sensorindex");
    forall s: Sample | s in FlatMap(f, sensors)
      ensures SensorShape(s, stat, kind) && EQ in s.labels && s.labels[EQ] == e
    {
      FlatMapSource(f, sensors, s);
    }
  }

  /** A part of a row: at most one sample, of metric `name`, carrying `e` and the row's index label. */
  ghost predicate Part(xs: seq<Sample>, name: Metric, e: string, key: string, idx: string) {
    |xs| <= 1 && forall s :: s in xs ==> s.name == name && EQ in s.labels && s.labels[EQ] == e
                                         && key in s.labels && s.labels[key] == idx
  }

  /** Samples of one row so far. */
  ghost predicate Row(xs: seq<Sample>, names: set<Metric>, e: string, key: string, idx: string) {
    Sound(xs, e) && forall s :: s in xs ==> s.name in names && key in s.labels && s.labels[key] == idx
  }

  lemma AddPart(xs: seq<Sample>, names: set<Metric>, part: seq<Sample>, name: Metric, e: string, key: string,
                idx: string)
    requires Row(xs, names, e, key, idx) && Part(part, name, e, key, idx) && name !in names
    ensures Row(xs + part, names + {name}, e, key, idx)
  {
    DistinctAppend(Identity(), xs, part);
  }

  lemma GaugePart(name: Metric, v: Option<real>, lbl: Labels, e: string, key: string, idx: string)
    requires EQ in lbl && lbl[EQ] == e && key in lbl && lbl[key] == idx
    ensures Part(Gauge(name, v, lbl), name, e, key, idx)
  {
  }

  lemma InfoPart(name: Metric, textKey: string, text: Option<string>, lbl: Labels, e: string, key: string, idx: string)
    requires EQ in lbl && lbl[EQ] == e && key in lbl && lbl[key] == idx && textKey != EQ && textKey != key
    ensures Part(Info(name, textKey, text, lbl), name, e, key, idx)
  {
  }

  lemma FirstPart(part: seq<Sample>, name: Metric, e: string, key: string, idx: string)
    requires Part(part, name, e, key, idx)
    ensures Row(part, {name}, e, key, idx)
  {
  }

  lemma OutletRow(lbl: Labels, o: Outlet, e: string)
    requires o.index.Some? && EQ in lbl && lbl[EQ] == e
    ensures Row(OutletSamples(lbl)(o), OUTLET_METRICS, e, "outlet", IntText(o.index.value))
  {
    LabelKeysDiffer();
    var olbl, idx := lbl["outlet" := IntText(o.index.value)], IntText(o.index.value);
    var a := Gauge(PduOutlet(State), o.state, olbl);
    var b := Gauge(PduOutlet(CurrentAmps), o.current, olbl);
    var c := Gauge(PduOutlet(PowerWatts), o.power, olbl);
    var d := Gauge(PduOutlet(EnergyWh), o.energy, olbl);
    var f := Info(PduOutlet(OutletInfo), "name", o.name, olbl);
    GaugePart(PduOutlet(State), o.state, olbl, e, "outlet", idx);
    GaugePart(PduOutlet(CurrentAmps), o.current, olbl, e, "outlet", idx);
    GaugePart(PduOutlet(PowerWatts), o.power, olbl, e, "outlet", idx);
    GaugePart(PduOutlet(EnergyWh), o.energy, olbl, e, "outlet", idx);
    InfoPart(PduOutlet(OutletInfo), "name", o.name, olbl, e, "outlet", idx);
    FirstPart(a, PduOutlet(State), e, "outlet", idx);
    AddPart(a, {PduOutlet(State)}, b, PduOutlet(CurrentAmps), e, "outlet", idx);
    AddPart(a + b, {PduOutlet(State), PduOutlet(CurrentAmps)}, c, PduOutlet(PowerWatts), e, "outlet", idx);
    AddPart(a + b + c, {PduOutlet(State), PduOutlet(CurrentAmps), PduOutlet(PowerWatts)}, d, PduOutlet(EnergyWh), e,
            "outlet", idx);
    AddPart(a + b + c + d, OUTLET_METRICS - {PduOutlet(OutletInfo)}, f, PduOutlet(OutletInfo), e, "outlet", idx);
  }

  const OUTLET_METRICS: set<Metric> :=
    {PduOutlet(State), PduOutlet(CurrentAmps), PduOutlet(PowerWatts), PduOutlet(EnergyWh), PduOutlet(OutletInfo)}

  const IF_METRICS: set<Metric> :=
    {DeviceIf(OperStatus), DeviceIf(InOctets), DeviceIf(OutOctets), DeviceIf(InErrors), DeviceIf(OutErrors),
     DeviceIf(IfInfo)}

  lemma IfaceRow(base: Labels, i: Iface, e: string)
    requires i.ifindex.Some? && EQ in base && base[EQ] == e
    ensures Row(IfaceSamples(base)(i), IF_METRICS, e, "ifindex", IntText(i.ifindex.value))
  {
    LabelKeysDiffer();
    var lbl, idx := base["ifindex" := IntText(i.ifindex.value)], IntText(i.ifindex.value);
    var a := Gauge(DeviceIf(OperStatus), i.operStatus, lbl);
    var b := Gauge(DeviceIf(InOctets), i.inOctets, lbl);
    var c := Gauge(DeviceIf(OutOctets), i.outOctets, lbl);
    var d := Gauge(DeviceIf(InErrors), i.inErrors, lbl);
    var f := Gauge(DeviceIf(OutErrors), i.outErrors, lbl);
    var g := Info(DeviceIf(IfInfo), "ifdescr", i.ifdescr, lbl);
    GaugePart(DeviceIf(OperStatus), i.operStatus, lbl, e, "ifindex", idx);
    GaugePart(DeviceIf(InOctets), i.inOctets, lbl, e, "ifindex", idx);
    GaugePart(DeviceIf(OutOctets), i.outOctets, lbl, e, "ifindex", idx);
    GaugePart(DeviceIf(InErrors), i.inErrors, lbl, e, "ifindex", idx);
    GaugePart(DeviceIf(OutErrors), i.outErrors, lbl, e, "ifindex", idx);
    InfoPart(DeviceIf(IfInfo), "ifdescr", i.ifdescr, lbl, e, "ifindex", idx);
    FirstPart(a, DeviceIf(OperStatus), e, "ifindex", idx);
    AddPart(a, {DeviceIf(OperStatus)}, b, DeviceIf(InOctets), e, "ifindex", idx);
    AddPart(a + b, {DeviceIf(OperStatus), DeviceIf(InOctets)}, c, DeviceIf(OutOctets), e, "ifindex", idx);
    AddPart(a + b + c, {DeviceIf(OperStatus), DeviceIf(InOctets), DeviceIf(OutOctets)}, d, DeviceIf(InErrors), e,
            "ifindex", idx);
    AddPart(a + b + c + d, {DeviceIf(OperStatus), DeviceIf(InOctets), DeviceIf(OutOctets), DeviceIf(InErrors)},
            f, DeviceIf(OutErrors), e, "ifindex", idx);
    AddPart(a + b + c + d + f, IF_METRICS - {DeviceIf(IfInfo)}, g, DeviceIf(IfInfo), e, "ifindex", idx);
  }

  /** All indexed rows of one device together. */
  lemma RowsDistinct<A>(f: A -> seq<Sample>, rows: seq<A>, index: A -> Option<int>, names: set<Metric>, key: string,
                        e: string)
    requires DistinctIndices(index, rows)
    requires forall r :: r in rows ==>
               if index(r).Some? then Row(f(r), names, e, key, IntText(index(r).value)) else f(r) == []
    ensures Sound(FlatMap(f, rows), e) && forall s :: s in FlatMap(f, rows) ==> s.name in names
  {
    IndexedRowsDistinct(f, rows, index, key);
    forall s: Sample | s in FlatMap(f, rows) ensures s.name in names && EQ in s.labels && s.labels[EQ] == e {
      FlatMapSource(f, rows, s);
    }
  }

  lemma OutletsDistinct(lbl: Labels, outlets: seq<Outlet>, e: string)
    requires DistinctIndices(OutletIndex(), outlets) && EQ in lbl && lbl[EQ] == e
    ensures Segment(FlatMap(OutletSamples(lbl), outlets), e, 3)
  {
    forall o | o in outlets && o.index.Some?
      ensures Row(OutletSamples(lbl)(o), OUTLET_METRICS, e, "outlet", IntText(o.index.value))
    {
      OutletRow(lbl, o, e);
    }
    RowsDistinct(OutletSamples(lbl), outlets, OutletIndex(), OUTLET_METRICS, "outlet", e);
    OutletsAreLast(FlatMap(OutletSamples(lbl), outlets), e);
  }

  lemma OutletsAreLast(xs: seq<Sample>, e: string)
    requires Sound(xs, e) && forall s :: s in xs ==> s.name in OUTLET_METRICS
    ensures Segment(xs, e, 3)
  {
  }

  predicate IsQueryMetric(m: Metric) {
    || m.ProjectorLampHours? || m.ProjectorUptimeSeconds? || m.ProjectorPowerStatus? || m.ProjectorFirmwareInfo?
    || m.PduQuery? || m.PduQueryInfo? || m.PduSensor? || m.PduOutlet? || m.CodecUptimeSeconds? || m.MatrixUptimeSeconds?
  }

  /** Samples that carry `e`, are pairwise distinct, and are of metrics of one rank. */
  ghost predicate Segment(xs: seq<Sample>, e: string, rank: nat) {
    Sound(xs, e) && forall s :: s in xs ==> PduRank(s.name) == rank
  }

  ghost predicate UpTo(xs: seq<Sample>, e: string, rank: nat) {
    Sound(xs, e) && forall s :: s in xs ==> PduRank(s.name) <= rank
  }

  lemma GlueSegment(xs: seq<Sample>, ys: seq<Sample>, e: string, k: nat)
    requires UpTo(xs, e, k) && Segment(ys, e, k + 1)
    ensures UpTo(xs + ys, e, k + 1)
  {
    DistinctAppend(Identity(), xs, ys);
  }

  lemma GlueSensors(temps: seq<Sample>, hums: seq<Sample>, e: string)
    requires Sound(temps, e) && Sound(hums, e)
    requires forall s :: s in temps ==> SensorShape(s, TemperatureC, "temperature")
    requires forall s :: s in hums ==> SensorShape(s, HumidityPct, "humidity")
    ensures Segment(temps + hums, e, 2)
  {
    TemperatureIsNotHumidity();
    DistinctAppend(Identity(), temps, hums);
  }

  lemma PduDistinct(q: Query, lbl: Labels, e: string)
    requires q.Pdu? && IndexedQuery(q) && EQ in lbl && lbl[EQ] == e
    ensures Sound(QuerySamples(q, lbl), e) && forall s :: s in QuerySamples(q, lbl) ==> IsQueryMetric(s.name)
  {
    var numbers, texts := FlatMap(PduNumber(q.numbers, lbl), PDU_STATS), FlatMap(PduText(q.texts, lbl), PDU_INFOS);
    var temps := FlatMap(SensorSamples(TemperatureC, "temperature", lbl), q.temperature);
    var hums := FlatMap(SensorSamples(HumidityPct, "humidity", lbl), q.humidity);
    var outlets := FlatMap(OutletSamples(lbl), q.outlets);
    NumbersSegment(q.numbers, lbl, e);
    TextsSegment(q.texts, lbl, e);
    SensorsSegment(q, lbl, e);
    OutletsDistinct(lbl, q.outlets, e);
    GluePdu(numbers, texts, temps, hums, outlets, e);
  }

  lemma NumbersSegment(numbers: map<PduStat, real>, lbl: Labels, e: string)
    requires EQ in lbl && lbl[EQ] == e
    ensures UpTo(FlatMap(PduNumber(numbers, lbl), PDU_STATS), e, 0)
  {
    NumbersDistinct(numbers, lbl);
  }

  lemma TextsSegment(texts: map<PduInfo, string>, lbl: Labels, e: string)
    requires EQ in lbl && lbl[EQ] == e
    ensures Segment(FlatMap(PduText(texts, lbl), PDU_INFOS), e, 1)
  {
    TextsDistinct(texts, lbl, e);
  }

  lemma SensorsSegment(q: Query, lbl: Labels, e: string)
    requires q.Pdu? && IndexedQuery(q) && EQ in lbl && lbl[EQ] == e
    ensures Segment(FlatMap(SensorSamples(TemperatureC, "temperature", lbl), q.temperature)
                    + FlatMap(SensorSamples(HumidityPct, "humidity", lbl), q.humidity), e, 2)
  {
    SensorsDistinct(TemperatureC, "temperature", lbl, q.temperature, e);
    SensorsDistinct(HumidityPct, "humidity", lbl, q.humidity, e);
    GlueSensors(FlatMap(SensorSamples(TemperatureC, "temperature", lbl), q.temperature),
                FlatMap(SensorSamples(HumidityPct, "humidity", lbl), q.humidity), e);
  }

  lemma GluePdu(numbers: seq<Sample>, texts: seq<Sample>, temps: seq<Sample>, hums: seq<Sample>, outlets: seq<Sample>,
                e: string)
    requires UpTo(numbers, e, 0) && Segment(texts, e, 1) && Segment(temps + hums, e, 2) && Segment(outlets, e, 3)
    ensures var all := numbers + texts + temps + hums + outlets;
            Sound(all, e) && forall s :: s in all ==> IsQueryMetric(s.name)
  {
    GlueSegment(numbers, texts, e, 0);
    GlueSegment(numbers + texts, temps + hums, e, 1);
    GlueSegment(numbers + texts + (temps + hums), outlets, e, 2);
    ConcatAssoc(numbers + texts, temps, hums);
    UpToIsQuery(numbers + texts + (temps + hums) + outlets, e);
  }

  lemma UpToIsQuery(xs: seq<Sample>, e: string)
    requires UpTo(xs, e, 3)
    ensures Sound(xs, e) && forall s :: s in xs ==> IsQueryMetric(s.name)
  {
  }

  lemma TemperatureIsNotHumidity()
    ensures "temperature" != "humidity"
  {
    assert |"temperature"| == 11 && |"humidity"| == 8;
  }

  function PduRank(m: Metric): nat {
    match m
    case PduQuery(_) => 0
    case PduQueryInfo(_) => 1
    case PduSensor(_) => 2
    case PduOutlet(_) => 3
    case _ => 4
  }

  lemma ProjectorDistinct(q: Query, lbl: Labels, e: string)
    requires q.Projector? && EQ in lbl && lbl[EQ] == e
    ensures Sound(QuerySamples(q, lbl), e) && forall s :: s in QuerySamples(q, lbl) ==> IsQueryMetric(s.name)
  {
    LabelKeysDiffer();
    var a := Gauge(ProjectorLampHours, q.lampHours, lbl);
    var b := Gauge(ProjectorUptimeSeconds, q.projectorUptime, lbl);
    var c := Gauge(ProjectorPowerStatus, q.powerStatus, lbl);
    var d := Info(ProjectorFirmwareInfo, "firmware", q.firmware, lbl);
    AddPart(a, {ProjectorLampHours}, b, ProjectorUptimeSeconds, e, EQ, e);
    AddPart(a + b, {ProjectorLampHours, ProjectorUptimeSeconds}, c, ProjectorPowerStatus, e, EQ, e);
    AddPart(a + b + c, {ProjectorLampHours, ProjectorUptimeSeconds, ProjectorPowerStatus}, d, ProjectorFirmwareInfo, e,
            EQ, e);
  }

  lemma QueryDistinct(q: Query, lbl: Labels, e: string)
    requires IndexedQuery(q) && EQ in lbl && lbl[EQ] == e
    ensures Sound(QuerySamples(q, lbl), e) && forall s :: s in QuerySamples(q, lbl) ==> IsQueryMetric(s.name)
  {
    if q.Pdu? {
      PduDistinct(q, lbl, e);
    } else if q.Projector? {
      ProjectorDistinct(q, lbl, e);
    }
  }

  lemma IfacesDistinct(base: Labels, ifaces: seq<Iface>, e: string)
    requires DistinctIndices(IfaceIndex(), ifaces) && EQ in base && base[EQ] == e
    ensures var xs := FlatMap(IfaceSamples(base), ifaces);
            Sound(xs, e) && forall s :: s in xs ==> s.name.DeviceIf?
  {
    forall i | i in ifaces && i.ifindex.Some?
      ensures Row(IfaceSamples(base)(i), IF_METRICS, e, "ifindex", IntText(i.ifindex.value))
    {
      IfaceRow(base, i, e);
    }
    RowsDistinct(IfaceSamples(base), ifaces, IfaceIndex(), IF_METRICS, "ifindex", e);
    IfMetricsOnly(FlatMap(IfaceSamples(base), ifaces));
  }

  lemma IfMetricsOnly(xs: seq<Sample>)
    requires forall s :: s in xs ==> s.name in IF_METRICS
    ensures forall s :: s in xs ==> s.name.DeviceIf?
  {
  }

  // ---- One stage, and the whole cycle ------------------------------------------------

  /** Results that are encoded at all are of different devices. */
  ghost predicate DistinctDevices<A>(eq: A -> Option<string>, results: seq<A>) {
    forall i, j :: 0 <= i < j < |results| && Truthy(eq(results[i])) && Truthy(eq(results[j])) ==>
      eq(results[i]) != eq(results[j])
  }

  function PingEq(): PingResult -> Option<string> { (r: PingResult) => r.equipmentNo }
  function ProbeEq(): ProbeResult -> Option<string> { (r: ProbeResult) => r.equipmentNo }
  function QueryEq(): QueryResult -> Option<string> { (r: QueryResult) => r.equipmentNo }
  function InterfaceEq(): InterfaceResult -> Option<string> { (r: InterfaceResult) => r.equipmentNo }

  ghost predicate ResultSound<A>(f: A -> seq<Sample>, r: A, eq: A -> Option<string>, member: Metric -> bool) {
    if Truthy(eq(r)) then Sound(f(r), eq(r).value) && forall s :: s in f(r) ==> member(s.name) else f(r) == []
  }

  lemma StageDistinct<A>(f: A -> seq<Sample>, results: seq<A>, eq: A -> Option<string>, member: Metric -> bool,
                         rank: nat)
    requires DistinctDevices(eq, results)
    requires forall r :: r in results ==> ResultSound(f, r, eq, member)
    requires forall m :: member(m) ==> StageRank(m) == rank
    ensures OfStage(FlatMap(f, results), rank)
  {
    forall i | 0 <= i < |results| ensures ResultSound(f, results[i], eq, member) { assert results[i] in results; }
    FlatMapDistinct(f, results, Identity());
    forall s: Sample | s in FlatMap(f, results) ensures StageRank(s.name) == rank {
      FlatMapSource(f, results, s);
    }
  }

  lemma BaseCarries(e: string, lookup: DeviceLookup)
    requires PlainLookup(lookup)
    ensures EQ in BaseLabels(e, lookup) && BaseLabels(e, lookup)[EQ] == e
  {
  }

  ghost predicate CycleInputs(pings: seq<PingResult>, probes: seq<ProbeResult>, queries: seq<QueryResult>,
                              interfaces: seq<InterfaceResult>, lookup: DeviceLookup)
  {
    && PlainLookup(lookup)
    && DistinctDevices(PingEq(), pings) && DistinctDevices(ProbeEq(), probes)
    && DistinctDevices(QueryEq(), queries) && DistinctDevices(InterfaceEq(), interfaces)
    && (forall q :: q in queries ==> IndexedQuery(q.query))
    && (forall r :: r in interfaces ==> DistinctIndices(IfaceIndex(), r.interfaces))
  }

  predicate IsPingMetric(m: Metric) { m.PingCheckStatus? || m.PingCheckRttMs? }
  predicate IsProbeMetric(m: Metric) { m.SnmpProbeStatus? }
  predicate IsIfMetric(m: Metric) { m.DeviceIf? }
  predicate IsGuardrail(m: Metric) {
    m.SnmpDevicesTargeted? || m.SnmpDevicesPolled? || m.SnmpCoverageRatio? || m.SnmpCycleDurationSeconds?
  }

  predicate IsDeviceMetric(m: Metric) {
    IsPingMetric(m) || IsProbeMetric(m) || IsQueryMetric(m) || IsIfMetric(m)
  }

  /** Pairwise distinct samples of one stage. */
  ghost predicate OfStage(xs: seq<Sample>, rank: nat) {
    DistinctBy(Identity(), xs) && forall s :: s in xs ==> StageRank(s.name) == rank
  }

  lemma StagesDistinct(pings: seq<PingResult>, probes: seq<ProbeResult>, queries: seq<QueryResult>,
                       interfaces: seq<InterfaceResult>, lookup: DeviceLookup)
    requires CycleInputs(pings, probes, queries, interfaces, lookup)
    ensures OfStage(FlatMap(PingSamples(lookup), pings), 0) && OfStage(FlatMap(ProbeSamples(lookup), probes), 1)
    ensures OfStage(FlatMap(QueryResultSamples(lookup), queries), 2)
    ensures OfStage(FlatMap(InterfaceResultSamples(lookup), interfaces), 3)
  {
    PingStage(pings, lookup);
    ProbeStage(probes, lookup);
    QueryStage(queries, lookup);
    InterfaceStage(interfaces, lookup);
  }

  lemma PingSound(lookup: DeviceLookup, r: PingResult)
    requires PlainLookup(lookup)
    ensures ResultSound(PingSamples(lookup), r, PingEq(), IsPingMetric)
  {
    if Truthy(r.equipmentNo) { BaseCarries(r.equipmentNo.value, lookup); }
  }

  lemma PingStage(pings: seq<PingResult>, lookup: DeviceLookup)
    requires PlainLookup(lookup) && DistinctDevices(PingEq(), pings)
    ensures OfStage(FlatMap(PingSamples(lookup), pings), 0)
  {
    forall r | r in pings ensures ResultSound(PingSamples(lookup), r, PingEq(), IsPingMetric) { PingSound(lookup, r); }
    StageDistinct(PingSamples(lookup), pings, PingEq(), IsPingMetric, 0);
  }

  lemma ProbeSound(lookup: DeviceLookup, r: ProbeResult)
    requires PlainLookup(lookup)
    ensures ResultSound(ProbeSamples(lookup), r, ProbeEq(), IsProbeMetric)
  {
    if Truthy(r.equipmentNo) { BaseCarries(r.equipmentNo.value, lookup); }
  }

  lemma ProbeStage(probes: seq<ProbeResult>, lookup: DeviceLookup)
    requires PlainLookup(lookup) && DistinctDevices(ProbeEq(), probes)
    ensures OfStage(FlatMap(ProbeSamples(lookup), probes), 1)
  {
    forall r | r in probes ensures ResultSound(ProbeSamples(lookup), r, ProbeEq(), IsProbeMetric) {
      ProbeSound(lookup, r);
    }
    StageDistinct(ProbeSamples(lookup), probes, ProbeEq(), IsProbeMetric, 1);
  }

  lemma QuerySound(lookup: DeviceLookup, r: QueryResult)
    requires PlainLookup(lookup) && IndexedQuery(r.query)
    ensures ResultSound(QueryResultSamples(lookup), r, QueryEq(), IsQueryMetric)
  {
    if Truthy(r.equipmentNo) {
      BaseCarries(r.equipmentNo.value, lookup);
      QueryDistinct(r.query, BaseLabels(r.equipmentNo.value, lookup), r.equipmentNo.value);
    }
  }

  lemma QueryStage(queries: seq<QueryResult>, lookup: DeviceLookup)
    requires PlainLookup(lookup) && DistinctDevices(QueryEq(), queries)
             && forall q :: q in queries ==> IndexedQuery(q.query)
    ensures OfStage(FlatMap(QueryResultSamples(lookup), queries), 2)
  {
    forall r | r in queries ensures ResultSound(QueryResultSamples(lookup), r, QueryEq(), IsQueryMetric) {
      QuerySound(lookup, r);
    }
    StageDistinct(QueryResultSamples(lookup), queries, QueryEq(), IsQueryMetric, 2);
  }

  lemma InterfaceSound(lookup: DeviceLookup, r: InterfaceResult)
    requires PlainLookup(lookup) && DistinctIndices(IfaceIndex(), r.interfaces)
    ensures ResultSound(InterfaceResultSamples(lookup), r, InterfaceEq(), IsIfMetric)
  {
    if Truthy(r.equipmentNo) {
      BaseCarries(r.equipmentNo.value, lookup);
      IfacesDistinct(BaseLabels(r.equipmentNo.value, lookup), r.interfaces, r.equipmentNo.value);
    }
  }

  lemma InterfaceStage(interfaces: seq<InterfaceResult>, lookup: DeviceLookup)
    requires PlainLookup(lookup) && DistinctDevices(InterfaceEq(), interfaces)
    requires forall r :: r in interfaces ==> DistinctIndices(IfaceIndex(), r.interfaces)
    ensures OfStage(FlatMap(InterfaceResultSamples(lookup), interfaces), 3)
  {
    forall r | r in interfaces ensures ResultSound(InterfaceResultSamples(lookup), r, InterfaceEq(), IsIfMetric) {
      InterfaceSound(lookup, r);
    }
    StageDistinct(InterfaceResultSamples(lookup), interfaces, InterfaceEq(), IsIfMetric, 3);
  }

  lemma GuardrailsDistinct(targeted: nat, polled: nat, duration: Option<real>, labels: Labels)
    ensures var g := GuardrailSamples(targeted, polled, duration, labels);
            OfStage(g, 4) && forall s :: s in g ==> s.labels == labels
  {
  }

  /** A whole cycle, guardrails included, has pairwise distinct series. */
  lemma NoSeriesCollapse(pings: seq<PingResult>, probes: seq<ProbeResult>, queries: seq<QueryResult>,
                         interfaces: seq<InterfaceResult>, lookup: DeviceLookup,
                         targeted: nat, polled: nat, duration: Option<real>, labels: Labels)
    requires CycleInputs(pings, probes, queries, interfaces, lookup)
    ensures DistinctBy(Identity(), Encoded(pings, probes, queries, interfaces, lookup)
                                   + GuardrailSamples(targeted, polled, duration, labels))
  {
    StagesDistinct(pings, probes, queries, interfaces, lookup);
    var a, b := FlatMap(PingSamples(lookup), pings), FlatMap(ProbeSamples(lookup), probes);
    var c, d := FlatMap(QueryResultSamples(lookup), queries), FlatMap(InterfaceResultSamples(lookup), interfaces);
    var g := GuardrailSamples(targeted, polled, duration, labels);
    GuardrailsDistinct(targeted, polled, duration, labels);
    GlueStages(a, b, c, d, g);
  }

  lemma GlueStages(a: seq<Sample>, b: seq<Sample>, c: seq<Sample>, d: seq<Sample>, g: seq<Sample>)
    requires OfStage(a, 0) && OfStage(b, 1) && OfStage(c, 2) && OfStage(d, 3) && OfStage(g, 4)
    ensures DistinctBy(Identity(), a + b + c + d + g)
  {
    AddSegment(a, b, StageRank, 1);
    AddSegment(a + b, c, StageRank, 2);
    AddSegment(a + b + c, d, StageRank, 3);
    AddSegment(a + b + c + d, g, StageRank, 4);
  }

  function StageRank(m: Metric): nat {
    if IsPingMetric(m) then 0
    else if IsProbeMetric(m) then 1
    else if IsQueryMetric(m) then 2
    else if IsIfMetric(m) then 3
    else if IsGuardrail(m) then 4
    else 5
  }
}
