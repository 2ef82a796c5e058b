/** What the encoded samples say: a sample is published exactly when some collected result
    has that reading, under the metric, value and labels of that reading. */
module Readings {
  import opened Common
  import opened Text
  import opened Targets
  import opened Encoder
  import opened SeriesIdentity

  /** A text rides on an info metric of value 1. */
  function Presence(text: Option<string>): Option<real> {
    if Truthy(text) then Some(1.0) else None
  }

  function OrEmpty(text: Option<string>): string {
    if text.Some? then text.value else ""
  }

  /** Sample `s` is the reading `v` of metric `m` under `labels`. */
  predicate Says(s: Sample, m: Metric, v: Option<real>, labels: Labels) {
    s.name == m && Some(s.value) == v && s.labels == labels
  }

  lemma GaugeSays(m: Metric, v: Option<real>, labels: Labels, s: Sample)
    ensures s in Gauge(m, v, labels) <==> Says(s, m, v, labels)
  {
  }

  lemma InfoSaysText(m: Metric, key: string, text: Option<string>, labels: Labels, s: Sample)
    ensures s in Info(m, key, text, labels) <==> Says(s, m, Presence(text), labels[key := OrEmpty(text)])
  {
  }

  // ---- The labels of a target -------------------------------------------------------------

  /** Label `key` is there exactly when the attribute has a text, and then is that text. */
  predicate LabelShows(lbl: Labels, key: string, v: Option<string>) {
    (key in lbl <==> Truthy(v)) && (key in lbl ==> lbl[key] == v.value)
  }

  /** Whichever of building, room, class, model, category and host name are known. */
  ghost predicate Describes(lbl: Labels, t: Target) {
    && LabelShows(lbl, "building", t.building) && LabelShows(lbl, "room", t.room)
       && LabelShows(lbl, "eq_class", t.eqClass)
    && LabelShows(lbl, "model", t.model) && LabelShows(lbl, "category", t.category)
       && LabelShows(lbl, "hostname", t.hostname)
  }

  /** `lbl` are the labels of target `t`: its equipment number, and what describes it. */
  ghost predicate LabelsOf(lbl: Labels, t: Target) {
    && t.equipmentNo.Some? && EQ in lbl && lbl[EQ] == t.equipmentNo.value && Describes(lbl, t)
    && lbl.Keys <= {EQ, "building", "room", "eq_class", "model", "category", "hostname"}
  }

  lemma AttributeKeysDiffer()
    ensures "building" != "room" && "building" != "eq_class" && "room" != "eq_class"
    ensures "model" != "category" && "model" != "hostname" && "category" != "hostname"
    ensures "model" !in {"building", "room", "eq_class"} && "category" !in {"building", "room", "eq_class"}
    ensures "hostname" !in {"building", "room", "eq_class"}
  {
    assert |"building"| == 8 && |"room"| == 4 && |"eq_class"| == 8 && |"model"| == 5;
    assert |"category"| == 8 && |"hostname"| == 8;
    assert "building"[0] == 'b' && "eq_class"[0] == 'e' && "category"[0] == 'c' && "hostname"[0] == 'h';
  }

  /** Optional labels under new keys do not disturb one another, nor those that are there. */
  lemma ThreeMore(lbl: Labels, keys: set<string>, a: string, va: Option<string>, b: string, vb: Option<string>,
                  c: string, vc: Option<string>)
    requires lbl.Keys <= keys && a !in keys && b !in keys && c !in keys && a != b && a != c && b != c
    ensures var more := lbl + OptLabel(a, va) + OptLabel(b, vb) + OptLabel(c, vc);
            && LabelShows(more, a, va) && LabelShows(more, b, vb) && LabelShows(more, c, vc)
            && more.Keys <= keys + {a, b, c}
            && forall k, x :: k in keys && LabelShows(lbl, k, x) ==> LabelShows(more, k, x)
  {
    AddLabel(lbl, keys, a, va);
    AddLabel(lbl + OptLabel(a, va), keys + {a}, b, vb);
    AddLabel(lbl + OptLabel(a, va) + OptLabel(b, vb), keys + {a, b}, c, vc);
  }

  lemma AddLabel(lbl: Labels, keys: set<string>, key: string, v: Option<string>)
    requires lbl.Keys <= keys && key !in keys
    ensures LabelShows(lbl + OptLabel(key, v), key, v) && (lbl + OptLabel(key, v)).Keys <= keys + {key}
    ensures forall k, x :: k in keys && LabelShows(lbl, k, x) ==> LabelShows(lbl + OptLabel(key, v), k, x)
  {
  }

  lemma ExtraLabelsMeaning(t: Target)
    ensures Describes(ExtraLabels(t), t)
    ensures ExtraLabels(t).Keys <= {"building", "room", "eq_class", "model", "category", "hostname"}
  {
    AttributeKeysDiffer();
    var half := map[] + OptLabel("building", t.building) + OptLabel("room", t.room) + OptLabel("eq_class", t.eqClass);
    ThreeMore(map[], {}, "building", t.building, "room", t.room, "eq_class", t.eqClass);
    ThreeMore(half, {"building", "room", "eq_class"}, "model", t.model, "category", t.category, "hostname", t.hostname);
    assert map[] + OptLabel("building", t.building) == OptLabel("building", t.building);
  }

  lemma CarriedOver(lbl: Labels, extra: Labels, e: string, key: string, v: Option<string>)
    requires lbl == map[EQ := e] + extra && key != EQ && LabelShows(extra, key, v)
    ensures LabelShows(lbl, key, v)
  {
  }

  lemma DescriptionCarried(lbl: Labels, extra: Labels, e: string, t: Target)
    requires lbl == map[EQ := e] + extra && Describes(extra, t)
    ensures Describes(lbl, t)
  {
    LabelKeysDiffer();
    CarriedOver(lbl, extra, e, "building", t.building);
    CarriedOver(lbl, extra, e, "room", t.room);
    CarriedOver(lbl, extra, e, "eq_class", t.eqClass);
    CarriedOver(lbl, extra, e, "model", t.model);
    CarriedOver(lbl, extra, e, "category", t.category);
    CarriedOver(lbl, extra, e, "hostname", t.hostname);
  }

  lemma BaseLabelsMeaning(t: Target, lookup: DeviceLookup)
    requires t.equipmentNo.Some? && t.equipmentNo.value in lookup && lookup[t.equipmentNo.value] == ExtraLabels(t)
    ensures LabelsOf(BaseLabels(t.equipmentNo.value, lookup), t)
  {
    ExtraLabelsMeaning(t);
    ExtraIsPlain(t);
    DescriptionCarried(BaseLabels(t.equipmentNo.value, lookup), ExtraLabels(t), t.equipmentNo.value, t);
  }

  /** A target has one set of labels. */
  lemma LabelsOnce(a: Labels, b: Labels, t: Target)
    requires LabelsOf(a, t) && LabelsOf(b, t)
    ensures a == b
  {
    assert a.Keys == b.Keys;
  }

  // ---- Reachability ---------------------------------------------------------------------

  predicate PingSays(lookup: DeviceLookup, r: PingResult, s: Sample) {
    Truthy(r.equipmentNo) &&
    (|| Says(s, PingCheckStatus, Some(if r.up then 1.0 else 0.0), BaseLabels(r.equipmentNo.value, lookup))
     || Says(s, PingCheckRttMs, r.rttMs, BaseLabels(r.equipmentNo.value, lookup)))
  }

  predicate ProbeSays(lookup: DeviceLookup, r: ProbeResult, s: Sample) {
    Truthy(r.equipmentNo)
      && Says(s, SnmpProbeStatus, Some(if r.up then 1.0 else 0.0), BaseLabels(r.equipmentNo.value, lookup))
  }

  /** Ping and probe samples, both ways. */
  lemma ReachabilitySamplesIff(pings: seq<PingResult>, probes: seq<ProbeResult>, lookup: DeviceLookup, s: Sample)
    ensures s in FlatMap(PingSamples(lookup), pings) <==> exists r :: r in pings && PingSays(lookup, r, s)
    ensures s in FlatMap(ProbeSamples(lookup), probes) <==> exists r :: r in probes && ProbeSays(lookup, r, s)
  {
    FlatMapHolds(PingSamples(lookup), pings, s);
    FlatMapHolds(ProbeSamples(lookup), probes, s);
    forall r ensures s in PingSamples(lookup)(r) <==> PingSays(lookup, r, s) { PingSaysIff(lookup, r, s); }
  }

  lemma PingSaysIff(lookup: DeviceLookup, r: PingResult, s: Sample)
    ensures s in PingSamples(lookup)(r) <==> PingSays(lookup, r, s)
  {
  }

  /** Sample `s` is about equipment `e`. */
  predicate About(s: Sample, e: string) {
    EQ in s.labels && s.labels[EQ] == e
  }

  /** From the published samples about a device its ping result can be read back: its status
      is there and is its only status, and there is a round-trip time exactly when it had one,
      that one. */
  lemma PingReadsBack(pings: seq<PingResult>, lookup: DeviceLookup, r: PingResult, v: real)
    requires PlainLookup(lookup) && DistinctDevices(PingEq(), pings) && r in pings && Truthy(r.equipmentNo)
    ensures var xs := FlatMap(PingSamples(lookup), pings);
            && ((exists s :: s in xs && About(s, r.equipmentNo.value) && s.name == PingCheckStatus && s.value == v)
                <==> v == if r.up then 1.0 else 0.0)
            && ((exists s :: s in xs && About(s, r.equipmentNo.value) && s.name == PingCheckRttMs && s.value == v)
                <==> r.rttMs == Some(v))
  {
    var e := r.equipmentNo.value;
    var xs := FlatMap(PingSamples(lookup), pings);
    BaseCarries(e, lookup);
    forall s: Sample | s in xs && About(s, e) ensures PingSays(lookup, r, s) {
      ReachabilitySamplesIff(pings, [], lookup, s);
      var q :| q in pings && PingSays(lookup, q, s);
      BaseCarries(q.equipmentNo.value, lookup);
      OnlyResultOf(pings, PingEq(), q, r);
    }
    var status := Sample(PingCheckStatus, if r.up then 1.0 else 0.0, BaseLabels(e, lookup));
    ReachabilitySamplesIff(pings, [], lookup, status);
    assert PingSays(lookup, r, status);
    if r.rttMs.Some? {
      var rtt := Sample(PingCheckRttMs, r.rttMs.value, BaseLabels(e, lookup));
      ReachabilitySamplesIff(pings, [], lookup, rtt);
      assert PingSays(lookup, r, rtt);
    }
  }

  lemma OnlyResultOf<A>(results: seq<A>, eq: A -> Option<string>, q: A, r: A)
    requires DistinctDevices(eq, results) && q in results && r in results
    requires Truthy(eq(q)) && Truthy(eq(r)) && eq(q) == eq(r)
    ensures q == r
  {
    var i :| 0 <= i < |results| && results[i] == q;
    var j :| 0 <= j < |results| && results[j] == r;
    assert i == j;
  }

  /** Likewise the probe result. */
  lemma ProbeReadsBack(probes: seq<ProbeResult>, lookup: DeviceLookup, r: ProbeResult, v: real)
    requires PlainLookup(lookup) && DistinctDevices(ProbeEq(), probes) && r in probes && Truthy(r.equipmentNo)
    ensures (exists s :: s in FlatMap(ProbeSamples(lookup), probes) && About(s, r.equipmentNo.value) && s.value == v)
       <==> v == if r.up then 1.0 else 0.0
  {
    var e := r.equipmentNo.value;
    var xs := FlatMap(ProbeSamples(lookup), probes);
    BaseCarries(e, lookup);
    forall s: Sample | s in xs && About(s, e) ensures ProbeSays(lookup, r, s) {
      ReachabilitySamplesIff([], probes, lookup, s);
      var q :| q in probes && ProbeSays(lookup, q, s);
      BaseCarries(q.equipmentNo.value, lookup);
      OnlyResultOf(probes, ProbeEq(), q, r);
    }
    var status := Sample(SnmpProbeStatus, if r.up then 1.0 else 0.0, BaseLabels(e, lookup));
    ReachabilitySamplesIff([], probes, lookup, status);
    assert ProbeSays(lookup, r, status);
  }

  // ---- Interfaces ------------------------------------------------------------------------

  function IfReading(i: Iface, stat: IfStat): Option<real> {
    match stat
    case OperStatus => i.operStatus
    case InOctets => i.inOctets
    case OutOctets => i.outOctets
    case InErrors => i.inErrors
    case OutErrors => i.outErrors
    case IfInfo => Presence(i.ifdescr)
  }

  function IfLabels(base: Labels, i: Iface, stat: IfStat): Labels
    requires i.ifindex.Some?
  {
    var lbl := base["ifindex" := IntText(i.ifindex.value)];
    if stat.IfInfo? then lbl["ifdescr" := OrEmpty(i.ifdescr)] else lbl
  }

  predicate IfaceSays(base: Labels, i: Iface, s: Sample) {
    i.ifindex.Some? && s.name.DeviceIf?
    && Says(s, s.name, IfReading(i, s.name.ifStat), IfLabels(base, i, s.name.ifStat))
  }

  lemma IfaceSaysIff(base: Labels, i: Iface, s: Sample)
    ensures s in IfaceSamples(base)(i) <==> IfaceSays(base, i, s)
  {
    if i.ifindex.Some? {
      var lbl := base["ifindex" := IntText(i.ifindex.value)];
      GaugeSays(DeviceIf(OperStatus), i.operStatus, lbl, s);
      GaugeSays(DeviceIf(InOctets), i.inOctets, lbl, s);
      GaugeSays(DeviceIf(OutOctets), i.outOctets, lbl, s);
      GaugeSays(DeviceIf(InErrors), i.inErrors, lbl, s);
      GaugeSays(DeviceIf(OutErrors), i.outErrors, lbl, s);
      InfoSaysText(DeviceIf(IfInfo), "ifdescr", i.ifdescr, lbl, s);
    }
  }

  /** Interface samples, both ways: none is invented, and none of an indexed interface of a
      named device is skipped. */
  lemma InterfaceSamplesIff(results: seq<InterfaceResult>, lookup: DeviceLookup, s: Sample)
    ensures s in FlatMap(InterfaceResultSamples(lookup), results) <==>
      exists r, i :: r in results && Truthy(r.equipmentNo) && i in r.interfaces
                     && IfaceSays(BaseLabels(r.equipmentNo.value, lookup), i, s)
  {
    FlatMapHolds(InterfaceResultSamples(lookup), results, s);
    forall r: InterfaceResult | Truthy(r.equipmentNo)
      ensures s in InterfaceResultSamples(lookup)(r) <==>
        exists i :: i in r.interfaces && IfaceSays(BaseLabels(r.equipmentNo.value, lookup), i, s)
    {
      var base := BaseLabels(r.equipmentNo.value, lookup);
      FlatMapHolds(IfaceSamples(base), r.interfaces, s);
      forall i ensures s in IfaceSamples(base)(i) <==> IfaceSays(base, i, s) { IfaceSaysIff(base, i, s); }
    }
  }

  lemma FlatMapHolds<A, B>(f: A -> seq<B>, xs: seq<A>, y: B)
    ensures y in FlatMap(f, xs) <==> exists x :: x in xs && y in f(x)
  {
    FlatMapSource(f, xs, y);
    if x :| x in xs && y in f(x) {
      var i :| 0 <= i < |xs| && xs[i] == x;
      assert y in f(xs[i]);
    }
  }

  // ---- PDU answers --------------------------------------------------------------------------

  function OutletReading(o: Outlet, stat: OutletStat): Option<real> {
    match stat
    case State => o.state
    case CurrentAmps => o.current
    case PowerWatts => o.power
    case EnergyWh => o.energy
    case OutletInfo => Presence(o.name)
  }

  function OutletLabels(lbl: Labels, o: Outlet, stat: OutletStat): Labels
    requires o.index.Some?
  {
    var olbl := lbl["outlet" := IntText(o.index.value)];
    if stat.OutletInfo? then olbl["name" := OrEmpty(o.name)] else olbl
  }

  predicate OutletSays(lbl: Labels, o: Outlet, s: Sample) {
    o.index.Some? && s.name.PduOutlet?
    && Says(s, s.name, OutletReading(o, s.name.outlet), OutletLabels(lbl, o, s.name.outlet))
  }

  lemma OutletSaysIff(lbl: Labels, o: Outlet, s: Sample)
    ensures s in OutletSamples(lbl)(o) <==> OutletSays(lbl, o, s)
  {
    if o.index.Some? {
      var olbl := lbl["outlet" := IntText(o.index.value)];
      GaugeSays(PduOutlet(State), o.state, olbl, s);
      GaugeSays(PduOutlet(CurrentAmps), o.current, olbl, s);
      GaugeSays(PduOutlet(PowerWatts), o.power, olbl, s);
      GaugeSays(PduOutlet(EnergyWh), o.energy, olbl, s);
      InfoSaysText(PduOutlet(OutletInfo), "name", o.name, olbl, s);
    }
  }

  predicate SensorSays(stat: SensorStat, kind: string, lbl: Labels, r: Sensor, s: Sample) {
    r.index.Some? &&
    (|| Says(s, PduSensor(stat), r.reading, lbl["sensorindex" := IntText(r.index.value)])
     || Says(s, PduSensor(SensorInfo), Presence(r.name),
             lbl["sensorindex" := IntText(r.index.value)]["sensor" := OrEmpty(r.name)]["kind" := kind]))
  }

  lemma SensorSaysIff(stat: SensorStat, kind: string, lbl: Labels, r: Sensor, s: Sample)
    ensures s in SensorSamples(stat, kind, lbl)(r) <==> SensorSays(stat, kind, lbl, r, s)
  {
  }

  lemma EveryStatListed(s: PduStat)
    ensures s in PDU_STATS
  {
    var i := StatAt(s);
    assert PDU_STATS[i] == s;
  }

  function StatAt(s: PduStat): nat {
    match s
    case InputStatus => 0 case Healthy => 1 case ActivePowerWatts => 2 case LineCurrentAmps => 3
    case CurrentUtilizedPct => 4 case VoltageVolts => 5 case UptimeSeconds => 6 case EnergyKwh => 7
    case FrequencyHz => 8 case PowerFactor => 9 case ApparentPowerVa => 10 case OutOfBalancePct => 11
    case ActivePowerStatus => 12 case PowerFactorStatus => 13 case BalanceStatus => 14 case LoadStatus => 15
    case PqSeverity => 16
  }

  lemma EveryInfoListed(i: PduInfo)
    ensures i in PDU_INFOS
  {
    var k := match i
      case Firmware => 0 case InputStatusInfo => 1 case ActivePowerStatusInfo => 2
      case PowerFactorStatusInfo => 3 case BalanceStatusInfo => 4 case LoadStatusInfo => 5;
    assert PDU_INFOS[k] == i;
  }

  /** A scalar of a PDU answer, whichever it is. */
  predicate NumberSays(numbers: map<PduStat, real>, lbl: Labels, s: Sample) {
    s.name.PduQuery? && s.name.stat in numbers && s.value == numbers[s.name.stat] && s.labels == lbl
  }

  predicate InfoSays(texts: map<PduInfo, string>, lbl: Labels, s: Sample) {
    s.name.PduQueryInfo? && s.name.info in texts && texts[s.name.info] != "" && s.value == 1.0
    && s.labels == lbl[(if s.name.info.Firmware? then "firmware" else "status") := texts[s.name.info]]
  }

  lemma NumbersSayIff(numbers: map<PduStat, real>, lbl: Labels, s: Sample)
    ensures s in FlatMap(PduNumber(numbers, lbl), PDU_STATS) <==> NumberSays(numbers, lbl, s)
  {
    FlatMapHolds(PduNumber(numbers, lbl), PDU_STATS, s);
    if NumberSays(numbers, lbl, s) {
      EveryStatListed(s.name.stat);
      assert s in PduNumber(numbers, lbl)(s.name.stat);
    }
  }

  lemma InfosSayIff(texts: map<PduInfo, string>, lbl: Labels, s: Sample)
    ensures s in FlatMap(PduText(texts, lbl), PDU_INFOS) <==> InfoSays(texts, lbl, s)
  {
    FlatMapHolds(PduText(texts, lbl), PDU_INFOS, s);
    if InfoSays(texts, lbl, s) {
      EveryInfoListed(s.name.info);
      assert s in PduText(texts, lbl)(s.name.info);
    }
  }

  /** PDU samples, both ways. */
  lemma PduSamplesIff(q: Query, lbl: Labels, s: Sample)
    requires q.Pdu?
    ensures s in QuerySamples(q, lbl) <==> PduSays(q, lbl, s)
  {
    NumbersSayIff(q.numbers, lbl, s);
    InfosSayIff(q.texts, lbl, s);
    SensorsSayIff(TemperatureC, "temperature", lbl, q.temperature, s);
    SensorsSayIff(HumidityPct, "humidity", lbl, q.humidity, s);
    OutletsSayIff(lbl, q.outlets, s);
  }

  lemma SensorsSayIff(stat: SensorStat, kind: string, lbl: Labels, rows: seq<Sensor>, s: Sample)
    ensures s in FlatMap(SensorSamples(stat, kind, lbl), rows) <==>
            exists r :: r in rows && SensorSays(stat, kind, lbl, r, s)
  {
    FlatMapHolds(SensorSamples(stat, kind, lbl), rows, s);
    forall r ensures s in SensorSamples(stat, kind, lbl)(r) <==> SensorSays(stat, kind, lbl, r, s) {
      SensorSaysIff(stat, kind, lbl, r, s);
    }
  }

  lemma OutletsSayIff(lbl: Labels, rows: seq<Outlet>, s: Sample)
    ensures s in FlatMap(OutletSamples(lbl), rows) <==> exists o :: o in rows && OutletSays(lbl, o, s)
  {
    FlatMapHolds(OutletSamples(lbl), rows, s);
    forall o ensures s in OutletSamples(lbl)(o) <==> OutletSays(lbl, o, s) { OutletSaysIff(lbl, o, s); }
  }

  // ---- All families ---------------------------------------------------------------------------

  /** What a projector answer says: lamp hours, uptime, power status and firmware, each under its
      own metric. */
  predicate ProjectorSays(q: Query, lbl: Labels, s: Sample)
    requires q.Projector?
  {
    || Says(s, ProjectorLampHours, q.lampHours, lbl)
    || Says(s, ProjectorUptimeSeconds, q.projectorUptime, lbl)
    || Says(s, ProjectorPowerStatus, q.powerStatus, lbl)
    || Says(s, ProjectorFirmwareInfo, Presence(q.firmware), lbl["firmware" := OrEmpty(q.firmware)])
  }

  ghost predicate PduSays(q: Query, lbl: Labels, s: Sample)
    requires q.Pdu?
  {
    || NumberSays(q.numbers, lbl, s) || InfoSays(q.texts, lbl, s)
    || (exists r :: r in q.temperature && SensorSays(TemperatureC, "temperature", lbl, r, s))
    || (exists r :: r in q.humidity && SensorSays(HumidityPct, "humidity", lbl, r, s))
    || (exists o :: o in q.outlets && OutletSays(lbl, o, s))
  }

  /** Sample `s` is a reading of an answer, under the metric of the answer's family. */
  ghost predicate QuerySays(q: Query, lbl: Labels, s: Sample) {
    match q
    case Projector(_, _, _, _) => ProjectorSays(q, lbl, s)
    case Pdu(_, _, _, _, _) => PduSays(q, lbl, s)
    case Codec(uptime) => Says(s, CodecUptimeSeconds, uptime, lbl)
    case Matrix(uptime) => Says(s, MatrixUptimeSeconds, uptime, lbl)
  }

  lemma ProjectorSaysIff(q: Query, lbl: Labels, s: Sample)
    requires q.Projector?
    ensures s in QuerySamples(q, lbl) <==> ProjectorSays(q, lbl, s)
  {
    GaugeSays(ProjectorLampHours, q.lampHours, lbl, s);
    GaugeSays(ProjectorUptimeSeconds, q.projectorUptime, lbl, s);
    GaugeSays(ProjectorPowerStatus, q.powerStatus, lbl, s);
    InfoSaysText(ProjectorFirmwareInfo, "firmware", q.firmware, lbl, s);
  }

  lemma QuerySaysIff(q: Query, lbl: Labels, s: Sample)
    ensures s in QuerySamples(q, lbl) <==> QuerySays(q, lbl, s)
  {
    match q
    case Projector(_, _, _, _) => ProjectorSaysIff(q, lbl, s);
    case Pdu(_, _, _, _, _) => PduSamplesIff(q, lbl, s);
    case Codec(uptime) => GaugeSays(CodecUptimeSeconds, uptime, lbl, s);
    case Matrix(uptime) => GaugeSays(MatrixUptimeSeconds, uptime, lbl, s);
  }

  /** Query samples of whole result lists, both ways and for every family: a sample is published
      exactly when some named result has that reading under that metric and those labels. */
  lemma QuerySamplesIff(results: seq<QueryResult>, lookup: DeviceLookup, s: Sample)
    ensures s in FlatMap(QueryResultSamples(lookup), results) <==>
      exists r :: r in results && Truthy(r.equipmentNo)
                  && QuerySays(r.query, BaseLabels(r.equipmentNo.value, lookup), s)
  {
    FlatMapHolds(QueryResultSamples(lookup), results, s);
    forall r: QueryResult | Truthy(r.equipmentNo)
      ensures s in QueryResultSamples(lookup)(r) <==> QuerySays(r.query, BaseLabels(r.equipmentNo.value, lookup), s)
    {
      QuerySaysIff(r.query, BaseLabels(r.equipmentNo.value, lookup), s);
    }
  }
}
