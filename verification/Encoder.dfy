/** Metric names with their tiers, and the encoding of collection results into samples. */
module Encoder {
  import opened Common
  import opened Text
  import opened Targets

  datatype Priority = Critical | High | Medium | Low | Always

  datatype IfStat = OperStatus | InOctets | OutOctets | InErrors | OutErrors | IfInfo
  datatype SensorStat = TemperatureC | HumidityPct | SensorInfo
  datatype OutletStat = State | CurrentAmps | PowerWatts | EnergyWh | OutletInfo

  /** The exported metric names. */
  datatype Metric =
    | PingCheckStatus | PingCheckRttMs | SnmpProbeStatus
    | SnmpDevicesTargeted | SnmpDevicesPolled | SnmpCoverageRatio | SnmpCycleDurationSeconds
    | EamLastRunTimestamp | LandbLastRunTimestamp | RoomsLastRunTimestamp
    | DeviceIf(ifStat: IfStat)
    | ProjectorLampHours | ProjectorUptimeSeconds | ProjectorPowerStatus | ProjectorFirmwareInfo
    | PduQuery(stat: PduStat) | PduQueryInfo(info: PduInfo)
    | PduSensor(sensor: SensorStat) | PduOutlet(outlet: OutletStat)
    | CodecUptimeSeconds | MatrixUptimeSeconds

  /** The priority table. */
  function Tier(m: Metric): Priority {
    match m
    case PingCheckStatus | SnmpProbeStatus => Critical
    case PingCheckRttMs | ProjectorPowerStatus => High
    case SnmpDevicesTargeted | SnmpDevicesPolled | SnmpCoverageRatio | SnmpCycleDurationSeconds => Always
    case EamLastRunTimestamp | LandbLastRunTimestamp | RoomsLastRunTimestamp => Always
    case DeviceIf(OperStatus) => Critical
    case DeviceIf(IfInfo) => Low
    case DeviceIf(_) => Medium
    case ProjectorLampHours | ProjectorUptimeSeconds | CodecUptimeSeconds | MatrixUptimeSeconds => Medium
    case ProjectorFirmwareInfo => Low
    case PduQuery(s) => PduTier(s)
    case PduQueryInfo(_) => Low
    case PduSensor(SensorInfo) => Low
    case PduSensor(_) => Critical
    case PduOutlet(EnergyWh) => Medium
    case PduOutlet(OutletInfo) => Low
    case PduOutlet(_) => High
  }

  function PduTier(s: PduStat): Priority {
    match s
    case InputStatus | Healthy | ActivePowerStatus | PowerFactorStatus => Critical
    case BalanceStatus | LoadStatus | PqSeverity => Critical
    case ActivePowerWatts | LineCurrentAmps | CurrentUtilizedPct | VoltageVolts => High
    case UptimeSeconds | EnergyKwh | FrequencyHz | PowerFactor | ApparentPowerVa | OutOfBalancePct => Medium
  }

  /** The exact metrics of each tier. */
  predicate OfTier(m: Metric, p: Priority) {
    match p
    case Critical =>
      || m.PingCheckStatus? || m.SnmpProbeStatus?
      || (m.DeviceIf? && m.ifStat.OperStatus?) || (m.PduSensor? && (m.sensor.TemperatureC? || m.sensor.HumidityPct?))
      || (m.PduQuery? && (|| m.stat.InputStatus? || m.stat.Healthy? || m.stat.ActivePowerStatus?
                          || m.stat.PowerFactorStatus? || m.stat.BalanceStatus? || m.stat.LoadStatus?
                          || m.stat.PqSeverity?))
    case High =>
      || m.PingCheckRttMs? || m.ProjectorPowerStatus?
      || (m.PduOutlet? && (m.outlet.State? || m.outlet.CurrentAmps? || m.outlet.PowerWatts?))
      || (m.PduQuery? && (|| m.stat.ActivePowerWatts? || m.stat.LineCurrentAmps? || m.stat.CurrentUtilizedPct?
                          || m.stat.VoltageVolts?))
    case Medium =>
      || m.ProjectorLampHours? || m.ProjectorUptimeSeconds? || m.CodecUptimeSeconds? || m.MatrixUptimeSeconds?
      || (m.DeviceIf? && (m.ifStat.InOctets? || m.ifStat.OutOctets? || m.ifStat.InErrors? || m.ifStat.OutErrors?))
      || (m.PduOutlet? && m.outlet.EnergyWh?)
      || (m.PduQuery? && (|| m.stat.UptimeSeconds? || m.stat.EnergyKwh? || m.stat.FrequencyHz? || m.stat.PowerFactor?
                          || m.stat.ApparentPowerVa? || m.stat.OutOfBalancePct?))
    case Low =>
      || m.ProjectorFirmwareInfo? || m.PduQueryInfo? || (m.DeviceIf? && m.ifStat.IfInfo?)
      || (m.PduSensor? && m.sensor.SensorInfo?) || (m.PduOutlet? && m.outlet.OutletInfo?)
    case Always =>
      || m.SnmpDevicesTargeted? || m.SnmpDevicesPolled? || m.SnmpCoverageRatio? || m.SnmpCycleDurationSeconds?
      || m.EamLastRunTimestamp? || m.LandbLastRunTimestamp? || m.RoomsLastRunTimestamp?
  }

  /** The tiers' metrics and the metrics' tiers are the same classification: every metric is of
      exactly one tier's. */
  lemma TierMembers(m: Metric, p: Priority)
    ensures OfTier(m, p) <==> Tier(m) == p
  {
  }

  /** Tiers are exact: a metric passes under its own tier, and an always-metric under any. */
  predicate ShouldPublish(m: Metric, requested: Priority) {
    Tier(m) == Always || Tier(m) == requested
  }

  type Labels = map<string, string>
  datatype Sample = Sample(name: Metric, value: real, labels: Labels)
  type DeviceLookup = map<string, Labels>

  // ---- Labels ---------------------------------------------------------------------

  function BaseLabels(equipmentNo: string, lookup: DeviceLookup): Labels {
    map["equipmentno" := equipmentNo] + (if equipmentNo in lookup then lookup[equipmentNo] else map[])
  }

  function OptLabel(key: string, v: Option<string>): Labels {
    if Truthy(v) then map[key := v.value] else map[]
  }

  /** The enrichment labels of one target. */
  function ExtraLabels(t: Target): Labels {
    OptLabel("building", t.building) + OptLabel("room", t.room) + OptLabel("eq_class", t.eqClass)
    + OptLabel("model", t.model) + OptLabel("category", t.category) + OptLabel("hostname", t.hostname)
  }

  /** Enrichment labels by equipment number. */
  function BuildLookup(devices: seq<Target>): DeviceLookup {
    if devices == [] then map[]
    else
      var before := BuildLookup(devices[..|devices| - 1]);
      var t := devices[|devices| - 1];
      if Truthy(t.equipmentNo) then before[t.equipmentNo.value := ExtraLabels(t)] else before
  }

  // ---- Samples of one result --------------------------------------------------------

  function Gauge(name: Metric, v: Option<real>, labels: Labels): seq<Sample> {
    if v.Some? then [Sample(name, v.value, labels)] else []
  }

  /** An info metric: value 1, the text as a label. */
  function Info(name: Metric, key: string, text: Option<string>, labels: Labels): seq<Sample> {
    if Truthy(text) then [Sample(name, 1.0, labels[key := text.value])] else []
  }

  function PingSamples(lookup: DeviceLookup): PingResult -> seq<Sample> {
    (r: PingResult) =>
      if !Truthy(r.equipmentNo) then []
      else
        var lbl := BaseLabels(r.equipmentNo.value, lookup);
        [Sample(PingCheckStatus, if r.up then 1.0 else 0.0, lbl)] + Gauge(PingCheckRttMs, r.rttMs, lbl)
  }

  function ProbeSamples(lookup: DeviceLookup): ProbeResult -> seq<Sample> {
    (r: ProbeResult) =>
      if !Truthy(r.equipmentNo) then []
      else [Sample(SnmpProbeStatus, if r.up then 1.0 else 0.0, BaseLabels(r.equipmentNo.value, lookup))]
  }

  const PDU_STATS: seq<PduStat> := [
    InputStatus, Healthy, ActivePowerWatts, LineCurrentAmps, CurrentUtilizedPct, VoltageVolts,
    UptimeSeconds, EnergyKwh, FrequencyHz, PowerFactor, ApparentPowerVa, OutOfBalancePct,
    ActivePowerStatus, PowerFactorStatus, BalanceStatus, LoadStatus, PqSeverity]

  const PDU_INFOS: seq<PduInfo> := [
    Firmware, InputStatusInfo, ActivePowerStatusInfo, PowerFactorStatusInfo, BalanceStatusInfo, LoadStatusInfo]

  function PduNumber(numbers: map<PduStat, real>, lbl: Labels): PduStat -> seq<Sample> {
    (s: PduStat) => if s in numbers then [Sample(PduQuery(s), numbers[s], lbl)] else []
  }

  function PduText(texts: map<PduInfo, string>, lbl: Labels): PduInfo -> seq<Sample> {
    (i: PduInfo) =>
      Info(PduQueryInfo(i), if i.Firmware? then "firmware" else "status",
           if i in texts then Some(texts[i]) else None, lbl)
  }

  function SensorSamples(stat: SensorStat, kind: string, lbl: Labels): Sensor -> seq<Sample> {
    (s: Sensor) =>
      if s.index.None? then []
      else
        var slbl := lbl["sensorindex" := IntText(s.index.value)];
        Gauge(PduSensor(stat), s.reading, slbl)
        + (if !Truthy(s.name) then []
           else [Sample(PduSensor(SensorInfo), 1.0, slbl["sensor" := s.name.value]["kind" := kind])])
  }

  function OutletSamples(lbl: Labels): Outlet -> seq<Sample> {
    (o: Outlet) =>
      if o.index.None? then []
      else
        var olbl := lbl["outlet" := IntText(o.index.value)];
        Gauge(PduOutlet(State), o.state, olbl) + Gauge(PduOutlet(CurrentAmps), o.current, olbl)
        + Gauge(PduOutlet(PowerWatts), o.power, olbl) + Gauge(PduOutlet(EnergyWh), o.energy, olbl)
        + Info(PduOutlet(OutletInfo), "name", o.name, olbl)
  }

  function QuerySamples(q: Query, lbl: Labels): seq<Sample> {
    match q
    case Projector(lamp, uptime, power, firmware) =>
      Gauge(ProjectorLampHours, lamp, lbl) + Gauge(ProjectorUptimeSeconds, uptime, lbl)
      + Gauge(ProjectorPowerStatus, power, lbl) + Info(ProjectorFirmwareInfo, "firmware", firmware, lbl)
    case Pdu(numbers, texts, temperature, humidity, outlets) =>
      FlatMap(PduNumber(numbers, lbl), PDU_STATS) + FlatMap(PduText(texts, lbl), PDU_INFOS)
      + FlatMap(SensorSamples(TemperatureC, "temperature", lbl), temperature)
      + FlatMap(SensorSamples(HumidityPct, "humidity", lbl), humidity)
      + FlatMap(OutletSamples(lbl), outlets)
    case Codec(uptime) => Gauge(CodecUptimeSeconds, uptime, lbl)
    case Matrix(uptime) => Gauge(MatrixUptimeSeconds, uptime, lbl)
  }

  function QueryResultSamples(lookup: DeviceLookup): QueryResult -> seq<Sample> {
    (r: QueryResult) =>
      if !Truthy(r.equipmentNo) then [] else QuerySamples(r.query, BaseLabels(r.equipmentNo.value, lookup))
  }

  function IfaceSamples(base: Labels): Iface -> seq<Sample> {
    (i: Iface) =>
      if i.ifindex.None? then []
      else
        var lbl := base["ifindex" := IntText(i.ifindex.value)];
        Gauge(DeviceIf(OperStatus), i.operStatus, lbl)
        + Gauge(DeviceIf(InOctets), i.inOctets, lbl) + Gauge(DeviceIf(OutOctets), i.outOctets, lbl)
        + Gauge(DeviceIf(InErrors), i.inErrors, lbl) + Gauge(DeviceIf(OutErrors), i.outErrors, lbl)
        + Info(DeviceIf(IfInfo), "ifdescr", i.ifdescr, lbl)
  }

  function InterfaceResultSamples(lookup: DeviceLookup): InterfaceResult -> seq<Sample> {
    (r: InterfaceResult) =>
      if !Truthy(r.equipmentNo) then []
      else FlatMap(IfaceSamples(BaseLabels(r.equipmentNo.value, lookup)), r.interfaces)
  }

  /** All samples of one cycle, stage by stage. */
  function Encoded(pings: seq<PingResult>, probes: seq<ProbeResult>, queries: seq<QueryResult>,
                   interfaces: seq<InterfaceResult>, lookup: DeviceLookup): seq<Sample>
  {
    FlatMap(PingSamples(lookup), pings) + FlatMap(ProbeSamples(lookup), probes)
    + FlatMap(QueryResultSamples(lookup), queries) + FlatMap(InterfaceResultSamples(lookup), interfaces)
  }

  // ---- The imperative form -----------------------------------------------------------

  method EncodePing(results: seq<PingResult>, lookup: DeviceLookup) returns (out: seq<Sample>)
    ensures out == FlatMap(PingSamples(lookup), results)
  {
    out := [];
    for i := 0 to |results|
      invariant out == FlatMap(PingSamples(lookup), results[..i])
    {
      FlatMapStep(PingSamples(lookup), results, i);
      var r := results[i];
      if !Truthy(r.equipmentNo) {
        continue;
      }
      var lbl := BaseLabels(r.equipmentNo.value, lookup);
      ConcatAssoc(out, [Sample(PingCheckStatus, if r.up then 1.0 else 0.0, lbl)], Gauge(PingCheckRttMs, r.rttMs, lbl));
      out := out + [Sample(PingCheckStatus, if r.up then 1.0 else 0.0, lbl)];
      if r.rttMs.Some? {
        out := out + [Sample(PingCheckRttMs, r.rttMs.value, lbl)];
      }
    }
    assert results[..|results|] == results;
  }

  method EncodeProbe(results: seq<ProbeResult>, lookup: DeviceLookup) returns (out: seq<Sample>)
    ensures out == FlatMap(ProbeSamples(lookup), results)
  {
    out := [];
    for i := 0 to |results|
      invariant out == FlatMap(ProbeSamples(lookup), results[..i])
    {
      FlatMapStep(ProbeSamples(lookup), results, i);
      var r := results[i];
      if !Truthy(r.equipmentNo) {
        continue;
      }
      out := out + [Sample(SnmpProbeStatus, if r.up then 1.0 else 0.0, BaseLabels(r.equipmentNo.value, lookup))];
    }
    assert results[..|results|] == results;
  }

  /** The PDU branch: scalars, info texts, sensors, outlets. */
  method EncodePdu(q: Query, lbl: Labels) returns (out: seq<Sample>)
    requires q.Pdu?
    ensures out == QuerySamples(q, lbl)
  {
    var numbers := AppendAll(PduNumber(q.numbers, lbl), PDU_STATS);
    var texts := AppendAll(PduText(q.texts, lbl), PDU_INFOS);
    var temperature := AppendAll(SensorSamples(TemperatureC, "temperature", lbl), q.temperature);
    var humidity := AppendAll(SensorSamples(HumidityPct, "humidity", lbl), q.humidity);
    var outlets := AppendAll(OutletSamples(lbl), q.outlets);
    out := numbers + texts + temperature + humidity + outlets;
  }

  method EncodeQueries(results: seq<QueryResult>, lookup: DeviceLookup) returns (out: seq<Sample>)
    ensures out == FlatMap(QueryResultSamples(lookup), results)
  {
    out := [];
    for i := 0 to |results|
      invariant out == FlatMap(QueryResultSamples(lookup), results[..i])
    {
      FlatMapStep(QueryResultSamples(lookup), results, i);
      var r := results[i];
      if !Truthy(r.equipmentNo) {
        continue;
      }
      var lbl := BaseLabels(r.equipmentNo.value, lookup);
      if r.query.Pdu? {
        var pdu := EncodePdu(r.query, lbl);
        out := out + pdu;
      } else {
        out := out + QuerySamples(r.query, lbl);
      }
    }
    assert results[..|results|] == results;
  }

  method EncodeInterfaces(results: seq<InterfaceResult>, lookup: DeviceLookup) returns (out: seq<Sample>)
    ensures out == FlatMap(InterfaceResultSamples(lookup), results)
  {
    out := [];
    for i := 0 to |results|
      invariant out == FlatMap(InterfaceResultSamples(lookup), results[..i])
    {
      FlatMapStep(InterfaceResultSamples(lookup), results, i);
      var r := results[i];
      if !Truthy(r.equipmentNo) {
        continue;
      }
      var rows := AppendAll(IfaceSamples(BaseLabels(r.equipmentNo.value, lookup)), r.interfaces);
      out := out + rows;
    }
    assert results[..|results|] == results;
  }

  method EncodeAll(pings: seq<PingResult>, probes: seq<ProbeResult>, queries: seq<QueryResult>,
                   interfaces: seq<InterfaceResult>, lookup: DeviceLookup) returns (samples: seq<Sample>)
    ensures samples == Encoded(pings, probes, queries, interfaces, lookup)
  {
    var a := EncodePing(pings, lookup);
    var b := EncodeProbe(probes, lookup);
    var c := EncodeQueries(queries, lookup);
    var d := EncodeInterfaces(interfaces, lookup);
    samples := a + b + c + d;
  }

  // ---- Cycle guardrails ------------------------------------------------------------------

  /** The requested tier; `None` is the `all` token. */
  function GuardrailLabels(shardIndex: nat, shardTotal: nat, priority: Option<Priority>): Labels {
    (if shardTotal > 1 then map["shard" := IntText(shardIndex)] else map[])
    + (if priority.Some? then map["tier" := Token(priority.value)] else map[])
  }

  function Token(p: Priority): string {
    match p
    case Critical => "critical"
    case High => "high"
    case Medium => "medium"
    case Low => "low"
    case Always => "always"
  }

  /** Coverage guardrails (when something was targeted) and the cycle duration (when known). */
  function GuardrailSamples(targeted: nat, polled: nat, duration: Option<real>, labels: Labels): seq<Sample> {
    (if targeted > 0 then
       [Sample(SnmpDevicesTargeted, targeted as real, labels), Sample(SnmpDevicesPolled, polled as real, labels),
        Sample(SnmpCoverageRatio, polled as real / targeted as real, labels)]
     else [])
    + Gauge(SnmpCycleDurationSeconds, duration, labels)
  }

  lemma TokenInjective(p: Priority, q: Priority)
    ensures Token(p) == Token(q) ==> p == q
  {
    assert Token(Critical)[0] == 'c' && Token(High)[0] == 'h' && Token(Medium)[0] == 'm' && Token(Low)[0] == 'l'
      && Token(Always)[0] == 'a';
  }

  /** Two emitters of one deployment share a guardrail identity exactly when they are the
      same shard (or the fleet is not sharded) and the same tier. */
  lemma GuardrailIdentityIff(n: nat, i: nat, p: Option<Priority>, j: nat, q: Option<Priority>)
    ensures GuardrailLabels(i, n, p) == GuardrailLabels(j, n, q) <==> (n <= 1 || i == j) && p == q
  {
    var x, y := GuardrailLabels(i, n, p), GuardrailLabels(j, n, q);
    assert "shard" != "tier" by { assert |"shard"| == 5 && |"tier"| == 4; }
    IntTextInjective(i, j);
    if p.Some? && q.Some? { TokenInjective(p.value, q.value); }
    if x == y {
      assert ("tier" in x <==> p.Some?) && ("tier" in y <==> q.Some?);
      assert p.Some? ==> x["tier"] == Token(p.value);
      assert q.Some? ==> y["tier"] == Token(q.value);
      assert n > 1 ==> "shard" in x && x["shard"] == IntText(i) && y["shard"] == IntText(j);
    }
  }
}
