/** What a cycle says of each target: from what the network answers to the collected results,
    and from there to the published samples. */
module Telemetry {
  import opened Common
  import opened Text
  import opened Targets
  import opened Dispatch
  import opened Collection
  import opened Encoder
  import opened SeriesIdentity
  import opened Conservation
  import opened Deployment
  import opened Readings

  // ---- The collected results ------------------------------------------------------------

  /** `r` is the only result of its device. */
  ghost predicate OnlyResult<R>(eq: R -> Option<string>, results: seq<R>, r: R) {
    exists i :: 0 <= i < |results| && results[i] == r
                && forall j :: 0 <= j < |results| && eq(results[j]) == eq(r) ==> j == i
  }

  lemma DistinctIsOnly<R>(eq: R -> Option<string>, results: seq<R>, r: R)
    requires DistinctDevices(eq, results) && r in results && Truthy(eq(r))
    ensures OnlyResult(eq, results, r)
  {
    var i :| 0 <= i < |results| && results[i] == r;
    forall j | 0 <= j < |results| && eq(results[j]) == eq(r) ensures j == i {}
  }

  lemma Named(t: Target)
    requires ValidTarget(t)
    ensures Truthy(t.equipmentNo) && Truthy(t.ip)
  {
    NoneIfBlankIsFixed(t.equipmentNo);
    NoneIfBlankIsFixed(t.ip);
  }

  lemma SameMembers<A>(xs: seq<A>, ys: seq<A>, x: A)
    requires multiset(xs) == multiset(ys)
    ensures x in xs <==> x in ys
  {
    assert x in xs <==> x in multiset(xs);
    assert x in ys <==> x in multiset(ys);
  }

  /** The ping results are one per target: up or down as the ping was, with its time when up. */
  lemma PingResults(net: Network, devices: seq<Target>, maxWorkers: int, r: PingResult)
    requires ValidTargets(devices)
    ensures r in Collected(net, devices, maxWorkers).pings <==>
      exists t :: t in devices
        && r == PingResult(t.equipmentNo, net.ping(t).up, if net.ping(t).up then net.ping(t).rttMs else None)
  {
    ChunksPermute(devices, maxWorkers, PingChunk(net), Pinger(net));
    SameMembers(Collected(net, devices, maxWorkers).pings, FlatMap(Pinger(net), devices), r);
    FlatMapHolds(Pinger(net), devices, r);
    forall t | t in devices
      ensures Pinger(net)(t)
           == [PingResult(t.equipmentNo, net.ping(t).up, if net.ping(t).up then net.ping(t).rttMs else None)]
    {
      Named(t);
    }
  }

  /** The probe results are one per target, as the probe was. */
  lemma ProbeResults(net: Network, devices: seq<Target>, maxWorkers: int, r: ProbeResult)
    requires ValidTargets(devices)
    ensures r in FlatMap(ResultOf(), Collected(net, devices, maxWorkers).probes) <==>
      exists t :: t in devices && r == ProbeResult(t.equipmentNo, net.probeUp(t))
  {
    var probes := Collected(net, devices, maxWorkers).probes;
    ProbesPermute(net, devices, maxWorkers);
    FlatMapPermutes(ResultOf(), probes, FlatMap(SoloProbe(net), devices));
    FlatMapCompose(SoloProbe(net), ResultOf(), ProbeOf(net), devices);
    SameMembers(FlatMap(ResultOf(), probes), FlatMap(ProbeOf(net), devices), r);
    FlatMapHolds(ProbeOf(net), devices, r);
    forall t | t in devices ensures ProbeOf(net)(t) == [ProbeResult(t.equipmentNo, net.probeUp(t))] {
      Named(t);
      FlatMapOne(ResultOf(), ProbeVia(net, Some(t), t));
    }
  }

  /** The targets that go on to the later stages are those whose probe is up. */
  lemma AliveAreUp(net: Network, devices: seq<Target>, t: Target)
    requires ValidTargets(devices)
    ensures t in AliveSolo(net, devices) <==> t in devices && net.probeUp(t)
  {
    forall d | d in devices
      ensures FlatMap(Alive(), SoloProbe(net)(d)) == SoloAlive(net)(d)
      ensures SoloAlive(net)(d) == if net.probeUp(d) then [d] else []
    {
      Named(d);
      FlatMapOne(Alive(), ProbeVia(net, Some(d), d));
    }
    FlatMapCompose(SoloProbe(net), Alive(), SoloAlive(net), devices);
    FlatMapHolds(SoloAlive(net), devices, t);
  }

  /** An interface result exists exactly for a target whose probe is up and whose walk found
      something, and holds what the walk found. */
  lemma InterfaceResults(net: Network, devices: seq<Target>, maxWorkers: int, r: InterfaceResult)
    requires ValidTargets(devices)
    ensures r in Collected(net, devices, maxWorkers).interfaces <==>
      exists t :: t in devices && net.probeUp(t) && net.interfaces(t) != []
                  && r == InterfaceResult(t.equipmentNo, net.interfaces(t))
  {
    var raw := Collected(net, devices, maxWorkers);
    var alive := FlatMap(Alive(), raw.probes);
    AlivePermute(net, devices, maxWorkers);
    InterfacesPermute(net, alive, AliveSolo(net, devices), maxWorkers);
    SameMembers(raw.interfaces, FlatMap(SoloInterfaces(net), AliveSolo(net, devices)), r);
    FlatMapHolds(SoloInterfaces(net), AliveSolo(net, devices), r);
    WalkedAlive(net, AliveSolo(net, devices), devices, r);
  }

  lemma OwnWalk(net: Network, t: Target, r: InterfaceResult)
    ensures r in SoloInterfaces(net)(t) <==>
            net.interfaces(t) != [] && r == InterfaceResult(t.equipmentNo, net.interfaces(t))
  {
    assert SoloInterfaces(net)(t) == InterfacesVia(net, Some(t), t);
  }

  lemma WalkedAlive(net: Network, alive: seq<Target>, devices: seq<Target>, r: InterfaceResult)
    requires ValidTargets(devices) && alive == AliveSolo(net, devices)
    ensures (exists t :: t in alive && r in SoloInterfaces(net)(t)) <==>
      exists t :: t in devices && net.probeUp(t) && net.interfaces(t) != []
                  && r == InterfaceResult(t.equipmentNo, net.interfaces(t))
  {
    if t :| t in alive && r in SoloInterfaces(net)(t) {
      AliveAreUp(net, devices, t);
      OwnWalk(net, t, r);
    }
    if t :| t in devices && net.probeUp(t) && net.interfaces(t) != []
            && r == InterfaceResult(t.equipmentNo, net.interfaces(t)) {
      AliveAreUp(net, devices, t);
      OwnWalk(net, t, r);
    }
  }

  /** Target `t` answers a request of handler class `f`, and `q` is what its family reads of it. */
  ghost predicate AnswersWith(net: Network, t: Target, f: Fetcher, q: Query) {
    && FamilyOf(t).Some? && !f.NoGet? && net.fetch(f, t).Some?
    && q == ReadAs(FamilyOf(t).value, net.fetch(f, t).value)
  }

  lemma FromAlive(net: Network, alive: seq<Target>, maxWorkers: int, r: QueryResult) returns (chunk: seq<Target>,
                  t: Target)
    requires r in FlatMap(QueryChunk(net), SplitEven(alive, maxWorkers))
    ensures t in chunk && (forall u :: u in chunk ==> u in alive) && r in QueryWith(net, Handlers(chunk))(t)
  {
    var chunks := SplitEven(alive, maxWorkers);
    SplitEvenMeaning(alive, maxWorkers);
    FlatMapSource(QueryChunk(net), chunks, r);
    var i :| 0 <= i < |chunks| && r in QueryChunk(net)(chunks[i]);
    chunk := chunks[i];
    FlatMapSource(QueryWith(net, Handlers(chunk)), chunk, r);
    var j :| 0 <= j < |chunk| && r in QueryWith(net, Handlers(chunk))(chunk[j]);
    t := chunk[j];
    forall u | u in chunk ensures u in alive {
      FlatMapSource(Chunk(), chunks, u);
      assert u in Chunk()(chunks[i]);
      SameMembers(FlatMap(Chunk(), chunks), alive, u);
    }
  }

  /** A query result is of a target whose probe is up, and is what a handler built for a target
      at its address was answered. */
  lemma QueryResults(net: Network, devices: seq<Target>, maxWorkers: int, r: QueryResult)
    requires ValidTargets(devices) && r in Collected(net, devices, maxWorkers).queries
    ensures exists t, h :: t in devices && net.probeUp(t) && h in devices && h.ip == t.ip
                           && r.equipmentNo == t.equipmentNo && AnswersWith(net, t, FetcherOf(h), r.query)
  {
    var alive := FlatMap(Alive(), Collected(net, devices, maxWorkers).probes);
    var chunk, t := FromAlive(net, alive, maxWorkers, r);
    AlivePermute(net, devices, maxWorkers);
    SameMembers(alive, AliveSolo(net, devices), t);
    AliveAreUp(net, devices, t);
    var h := HandlerUsed(net, chunk, t, r);
    SameMembers(alive, AliveSolo(net, devices), h);
    AliveAreUp(net, devices, h);
  }

  lemma HandlerUsed(net: Network, chunk: seq<Target>, t: Target, r: QueryResult) returns (h: Target)
    requires ValidTargets(chunk) && t in chunk && r in QueryWith(net, Handlers(chunk))(t)
    ensures h in chunk && h.ip == t.ip && r.equipmentNo == t.equipmentNo && AnswersWith(net, t, FetcherOf(h), r.query)
  {
    HasHandler(chunk, t);
    h := HandlerFor(Handlers(chunk), t).value;
    assert r in QueryVia(net, Some(h), t);
  }

  /** When handlers that share an address agree, exactly what each target's own handler was
      answered. */
  lemma OwnQueryResults(net: Network, devices: seq<Target>, maxWorkers: int, r: QueryResult)
    requires ValidTargets(devices) && HandlersAgree(devices)
    ensures r in Collected(net, devices, maxWorkers).queries <==>
      exists t :: t in devices && net.probeUp(t) && r.equipmentNo == t.equipmentNo
                  && AnswersWith(net, t, FetcherOf(t), r.query)
  {
    var raw := Collected(net, devices, maxWorkers);
    AgreeingAreAnsweredAlike(net, devices);
    CollectedIsSolo(net, devices, maxWorkers);
    SameMembers(raw.queries, FlatMap(SoloQuery(net), AliveSolo(net, devices)), r);
    FlatMapHolds(SoloQuery(net), AliveSolo(net, devices), r);
    AskedAlive(net, AliveSolo(net, devices), devices, r);
  }

  lemma AskedAlive(net: Network, alive: seq<Target>, devices: seq<Target>, r: QueryResult)
    requires ValidTargets(devices) && alive == AliveSolo(net, devices)
    ensures (exists t :: t in alive && r in SoloQuery(net)(t)) <==>
      exists t :: t in devices && net.probeUp(t) && r.equipmentNo == t.equipmentNo
                  && AnswersWith(net, t, FetcherOf(t), r.query)
  {
    if t :| t in alive && r in SoloQuery(net)(t) {
      AliveAreUp(net, devices, t);
      OwnAnswer(net, t, r);
    }
    if t :| t in devices && net.probeUp(t) && r.equipmentNo == t.equipmentNo
            && AnswersWith(net, t, FetcherOf(t), r.query) {
      AliveAreUp(net, devices, t);
      OwnAnswer(net, t, r);
    }
  }

  lemma OwnAnswer(net: Network, t: Target, r: QueryResult)
    ensures r in SoloQuery(net)(t) <==> r.equipmentNo == t.equipmentNo && AnswersWith(net, t, FetcherOf(t), r.query)
  {
    assert SoloQuery(net)(t) == QueryVia(net, Some(t), t);
  }

  lemma OneTarget(devices: seq<Target>, t: Target, u: Target)
    requires DistinctEquipment(devices) && t in devices && u in devices && t.equipmentNo == u.equipmentNo
    ensures t == u
  {
    var i :| 0 <= i < |devices| && devices[i] == t;
    var j :| 0 <= j < |devices| && devices[j] == u;
    assert Number()(devices[i]) == Number()(devices[j]);
  }

  /** Every target has exactly one ping result and one probe result, which say what the network
      answered; it has query and interface results only when its probe is up, and an interface
      result exactly when its walk is not empty either. */
  lemma EachTargetCollected(net: Network, devices: seq<Target>, maxWorkers: int, t: Target)
    requires ValidTargets(devices) && DistinctEquipment(devices) && t in devices
    ensures var raw := Collected(net, devices, maxWorkers);
            var reply := net.ping(t);
            && OnlyResult(PingEq(), raw.pings,
                          PingResult(t.equipmentNo, reply.up, if reply.up then reply.rttMs else None))
            && OnlyResult(ProbeEq(), FlatMap(ResultOf(), raw.probes), ProbeResult(t.equipmentNo, net.probeUp(t)))
            && (forall r :: r in raw.queries && r.equipmentNo == t.equipmentNo ==> net.probeUp(t))
            && ((exists r :: r in raw.interfaces && r.equipmentNo == t.equipmentNo) <==>
                  net.probeUp(t) && net.interfaces(t) != [])
            && (forall r :: r in raw.interfaces && r.equipmentNo == t.equipmentNo ==> r.interfaces == net.interfaces(t))
  {
    var reply := net.ping(t);
    RunAnswers(net, devices, maxWorkers);
    Named(t);
    PingResults(net, devices, maxWorkers, PingResult(t.equipmentNo, reply.up, if reply.up then reply.rttMs else None));
    ProbeResults(net, devices, maxWorkers, ProbeResult(t.equipmentNo, net.probeUp(t)));
    DistinctIsOnly(PingEq(), Collected(net, devices, maxWorkers).pings,
                   PingResult(t.equipmentNo, reply.up, if reply.up then reply.rttMs else None));
    DistinctIsOnly(ProbeEq(), FlatMap(ResultOf(), Collected(net, devices, maxWorkers).probes),
                   ProbeResult(t.equipmentNo, net.probeUp(t)));
    AnswersOfTarget(net, devices, maxWorkers, t);
  }

  lemma AnswersOfTarget(net: Network, devices: seq<Target>, maxWorkers: int, t: Target)
    requires ValidTargets(devices) && DistinctEquipment(devices) && t in devices
    ensures var raw := Collected(net, devices, maxWorkers);
            && (forall r :: r in raw.queries && r.equipmentNo == t.equipmentNo ==> net.probeUp(t))
            && ((exists r :: r in raw.interfaces && r.equipmentNo == t.equipmentNo) <==>
                  net.probeUp(t) && net.interfaces(t) != [])
            && (forall r :: r in raw.interfaces && r.equipmentNo == t.equipmentNo ==> r.interfaces == net.interfaces(t))
  {
    var raw := Collected(net, devices, maxWorkers);
    forall r | r in raw.queries && r.equipmentNo == t.equipmentNo ensures net.probeUp(t) {
      QueryResults(net, devices, maxWorkers, r);
      var u, h :| u in devices && net.probeUp(u) && h in devices && h.ip == u.ip
                  && r.equipmentNo == u.equipmentNo && AnswersWith(net, u, FetcherOf(h), r.query);
      OneTarget(devices, t, u);
    }
    InterfaceResults(net, devices, maxWorkers, InterfaceResult(t.equipmentNo, net.interfaces(t)));
    forall r | r in raw.interfaces && r.equipmentNo == t.equipmentNo
      ensures net.probeUp(t) && net.interfaces(t) != [] && r.interfaces == net.interfaces(t)
    {
      InterfaceResults(net, devices, maxWorkers, r);
      var u :| u in devices && net.probeUp(u) && net.interfaces(u) != []
               && r == InterfaceResult(u.equipmentNo, net.interfaces(u));
      OneTarget(devices, t, u);
    }
  }

  // ---- The published samples ---------------------------------------------------------------

  function UptimeOf(st: Stats): Option<real> {
    if UptimeSeconds in st.numbers then Some(st.numbers[UptimeSeconds]) else None
  }

  function FirmwareOf(st: Stats): Option<string> {
    if Firmware in st.texts then Some(st.texts[Firmware]) else None
  }

  /** A sample of what a handler returned, by the family the target is queried as. */
  ghost predicate StatsSay(family: Family, st: Stats, lbl: Labels, s: Sample) {
    match family
    case ProjectorFamily =>
      || Says(s, ProjectorLampHours, st.lampHours, lbl) || Says(s, ProjectorUptimeSeconds, UptimeOf(st), lbl)
      || Says(s, ProjectorPowerStatus, st.powerStatus, lbl)
      || Says(s, ProjectorFirmwareInfo, Presence(FirmwareOf(st)), lbl["firmware" := OrEmpty(FirmwareOf(st))])
    case PduFamily =>
      || NumberSays(st.numbers, lbl, s) || InfoSays(st.texts, lbl, s)
      || (exists r :: r in st.temperature && SensorSays(TemperatureC, "temperature", lbl, r, s))
      || (exists r :: r in st.humidity && SensorSays(HumidityPct, "humidity", lbl, r, s))
      || (exists o :: o in st.outlets && OutletSays(lbl, o, s))
    case CodecFamily => Says(s, CodecUptimeSeconds, UptimeOf(st), lbl)
    case MatrixFamily => Says(s, MatrixUptimeSeconds, UptimeOf(st), lbl)
  }

  lemma ReadAsSays(family: Family, st: Stats, lbl: Labels, s: Sample)
    ensures QuerySays(ReadAs(family, st), lbl, s) <==> StatsSay(family, st, lbl, s)
  {
  }

  /** The ping's status, and its round-trip time when it was answered with one. */
  predicate PingTells(net: Network, t: Target, lbl: Labels, s: Sample) {
    || Says(s, PingCheckStatus, Some(if net.ping(t).up then 1.0 else 0.0), lbl)
    || Says(s, PingCheckRttMs, if net.ping(t).up then net.ping(t).rttMs else None, lbl)
  }

  predicate ProbeTells(net: Network, t: Target, lbl: Labels, s: Sample) {
    Says(s, SnmpProbeStatus, Some(if net.probeUp(t) then 1.0 else 0.0), lbl)
  }

  ghost predicate WalkTells(net: Network, t: Target, lbl: Labels, s: Sample) {
    exists i :: i in net.interfaces(t) && IfaceSays(lbl, i, s)
  }

  ghost predicate HandlerTells(net: Network, t: Target, lbl: Labels, s: Sample) {
    && FamilyOf(t).Some? && !FetcherOf(t).NoGet? && net.fetch(FetcherOf(t), t).Some?
    && StatsSay(FamilyOf(t).value, net.fetch(FetcherOf(t), t).value, lbl, s)
  }

  /** What the network says of a target: its ping and probe always, its walked interfaces and
      what its handler returned only when the probe is up. */
  ghost predicate TargetSays(net: Network, t: Target, lbl: Labels, s: Sample) {
    || PingTells(net, t, lbl, s) || ProbeTells(net, t, lbl, s)
    || (net.probeUp(t) && (WalkTells(net, t, lbl, s) || HandlerTells(net, t, lbl, s)))
  }

  /** The labels a run gives a target. */
  function RunLabels(devices: seq<Target>, t: Target): Labels
    requires t.equipmentNo.Some?
  {
    BaseLabels(t.equipmentNo.value, BuildLookup(devices))
  }

  lemma RunLabelsMeaning(devices: seq<Target>, t: Target)
    requires ValidTargets(devices) && DistinctEquipment(devices) && t in devices
    ensures t.equipmentNo.Some? && LabelsOf(RunLabels(devices, t), t)
  {
    assert ValidTarget(t);
    LookupIsOwn(devices, t);
    BaseLabelsMeaning(t, BuildLookup(devices));
  }

  lemma PingStageSays(net: Network, devices: seq<Target>, maxWorkers: int, s: Sample)
    requires ValidTargets(devices)
    ensures s in FlatMap(PingSamples(BuildLookup(devices)), Collected(net, devices, maxWorkers).pings)
       <==> exists t :: t in devices && PingTells(net, t, RunLabels(devices, t), s)
  {
    var pings, lookup := Collected(net, devices, maxWorkers).pings, BuildLookup(devices);
    ReachabilitySamplesIff(pings, [], lookup, s);
    if r :| r in pings && PingSays(lookup, r, s) {
      PingResults(net, devices, maxWorkers, r);
    }
    if t :| t in devices && PingTells(net, t, RunLabels(devices, t), s) {
      var r := PingResult(t.equipmentNo, net.ping(t).up, if net.ping(t).up then net.ping(t).rttMs else None);
      Named(t);
      PingResults(net, devices, maxWorkers, r);
      assert PingSays(lookup, r, s);
    }
  }

  lemma ProbeStageSays(net: Network, devices: seq<Target>, maxWorkers: int, s: Sample)
    requires ValidTargets(devices)
    ensures s in FlatMap(ProbeSamples(BuildLookup(devices)),
                         FlatMap(ResultOf(), Collected(net, devices, maxWorkers).probes))
       <==> exists t :: t in devices && ProbeTells(net, t, RunLabels(devices, t), s)
  {
    var probes, lookup := FlatMap(ResultOf(), Collected(net, devices, maxWorkers).probes), BuildLookup(devices);
    ReachabilitySamplesIff([], probes, lookup, s);
    if r :| r in probes && ProbeSays(lookup, r, s) {
      ProbeResults(net, devices, maxWorkers, r);
    }
    if t :| t in devices && ProbeTells(net, t, RunLabels(devices, t), s) {
      var r := ProbeResult(t.equipmentNo, net.probeUp(t));
      Named(t);
      ProbeResults(net, devices, maxWorkers, r);
      assert ProbeSays(lookup, r, s);
    }
  }

  lemma WalkListed(net: Network, devices: seq<Target>, maxWorkers: int, t: Target)
    requires ValidTargets(devices) && t in devices && net.probeUp(t) && net.interfaces(t) != []
    ensures Truthy(t.equipmentNo)
    ensures InterfaceResult(t.equipmentNo, net.interfaces(t)) in Collected(net, devices, maxWorkers).interfaces
  {
    Named(t);
    InterfaceResults(net, devices, maxWorkers, InterfaceResult(t.equipmentNo, net.interfaces(t)));
  }

  lemma WalkSampled(walks: seq<InterfaceResult>, lookup: DeviceLookup, r: InterfaceResult, i: Iface, s: Sample)
    requires r in walks && Truthy(r.equipmentNo) && i in r.interfaces
    requires IfaceSays(BaseLabels(r.equipmentNo.value, lookup), i, s)
    ensures s in FlatMap(InterfaceResultSamples(lookup), walks)
  {
    InterfaceSamplesIff(walks, lookup, s);
  }

  lemma WalkPublished(net: Network, devices: seq<Target>, maxWorkers: int, t: Target, s: Sample)
    requires ValidTargets(devices) && t in devices && t.equipmentNo.Some?
    requires net.probeUp(t) && WalkTells(net, t, RunLabels(devices, t), s)
    ensures s in FlatMap(InterfaceResultSamples(BuildLookup(devices)), Collected(net, devices, maxWorkers).interfaces)
  {
    var walks := Collected(net, devices, maxWorkers).interfaces;
    var r := InterfaceResult(t.equipmentNo, net.interfaces(t));
    var i :| i in net.interfaces(t) && IfaceSays(RunLabels(devices, t), i, s);
    WalkListed(net, devices, maxWorkers, t);
    WalkSampled(walks, BuildLookup(devices), r, i, s);
  }

  lemma WalkStageSays(net: Network, devices: seq<Target>, maxWorkers: int, s: Sample)
    requires ValidTargets(devices)
    ensures s in FlatMap(InterfaceResultSamples(BuildLookup(devices)), Collected(net, devices, maxWorkers).interfaces)
       <==> exists t :: t in devices && net.probeUp(t) && WalkTells(net, t, RunLabels(devices, t), s)
  {
    var walks, lookup := Collected(net, devices, maxWorkers).interfaces, BuildLookup(devices);
    if s in FlatMap(InterfaceResultSamples(lookup), walks) {
      InterfaceSamplesIff(walks, lookup, s);
      var r, i :| r in walks && Truthy(r.equipmentNo) && i in r.interfaces
                  && IfaceSays(BaseLabels(r.equipmentNo.value, lookup), i, s);
      InterfaceResults(net, devices, maxWorkers, r);
      var t :| t in devices && net.probeUp(t) && net.interfaces(t) != []
               && r == InterfaceResult(t.equipmentNo, net.interfaces(t));
      assert WalkTells(net, t, RunLabels(devices, t), s);
    }
    if t :| t in devices && net.probeUp(t) && WalkTells(net, t, RunLabels(devices, t), s) {
      WalkPublished(net, devices, maxWorkers, t, s);
    }
  }

  lemma HandlerStageSays(net: Network, devices: seq<Target>, maxWorkers: int, s: Sample)
    requires ValidTargets(devices) && HandlersAgree(devices)
    ensures s in FlatMap(QueryResultSamples(BuildLookup(devices)), Collected(net, devices, maxWorkers).queries)
       <==> exists t :: t in devices && net.probeUp(t) && HandlerTells(net, t, RunLabels(devices, t), s)
  {
    var queries, lookup := Collected(net, devices, maxWorkers).queries, BuildLookup(devices);
    QuerySamplesIff(queries, lookup, s);
    if r :| r in queries && Truthy(r.equipmentNo) && QuerySays(r.query, BaseLabels(r.equipmentNo.value, lookup), s) {
      OwnQueryResults(net, devices, maxWorkers, r);
      var t :| t in devices && net.probeUp(t) && r.equipmentNo == t.equipmentNo
               && AnswersWith(net, t, FetcherOf(t), r.query);
      ReadAsSays(FamilyOf(t).value, net.fetch(FetcherOf(t), t).value, RunLabels(devices, t), s);
      assert HandlerTells(net, t, RunLabels(devices, t), s);
    }
    if t :| t in devices && net.probeUp(t) && HandlerTells(net, t, RunLabels(devices, t), s) {
      var st := net.fetch(FetcherOf(t), t).value;
      var r := QueryResult(t.equipmentNo, ReadAs(FamilyOf(t).value, st));
      Named(t);
      OwnQueryResults(net, devices, maxWorkers, r);
      ReadAsSays(FamilyOf(t).value, st, RunLabels(devices, t), s);
      assert r in queries && QuerySays(r.query, BaseLabels(r.equipmentNo.value, lookup), s);
    }
  }

  lemma QueryMetricsOnly(results: seq<QueryResult>, lookup: DeviceLookup, s: Sample)
    ensures s in FlatMap(QueryResultSamples(lookup), results) ==> IsQueryMetric(s.name)
  {
    QuerySamplesIff(results, lookup, s);
    if r :| r in results && Truthy(r.equipmentNo) && QuerySays(r.query, BaseLabels(r.equipmentNo.value, lookup), s) {
      QuerySaysMetric(r.query, BaseLabels(r.equipmentNo.value, lookup), s);
    }
  }

  lemma QuerySaysMetric(q: Query, lbl: Labels, s: Sample)
    requires QuerySays(q, lbl, s)
    ensures IsQueryMetric(s.name)
  {
  }

  lemma HandlerMetricsOnly(net: Network, t: Target, lbl: Labels, s: Sample)
    ensures HandlerTells(net, t, lbl, s) ==> IsQueryMetric(s.name)
  {
    if HandlerTells(net, t, lbl, s) {
      var st := net.fetch(FetcherOf(t), t).value;
      ReadAsSays(FamilyOf(t).value, st, lbl, s);
      QuerySaysMetric(ReadAs(FamilyOf(t).value, st), lbl, s);
    }
  }

  lemma SomeStage(s: Sample, pings: seq<PingResult>, probes: seq<ProbeResult>, queries: seq<QueryResult>,
                  interfaces: seq<InterfaceResult>, lookup: DeviceLookup)
    ensures s in Encoded(pings, probes, queries, interfaces, lookup) <==>
      || s in FlatMap(PingSamples(lookup), pings) || s in FlatMap(ProbeSamples(lookup), probes)
      || s in FlatMap(QueryResultSamples(lookup), queries) || s in FlatMap(InterfaceResultSamples(lookup), interfaces)
  {
  }

  /** The samples of a run are exactly what the network says of its targets. Handlers that share
      an address need to agree only for what the handlers return. */
  lemma RunSays(net: Network, devices: seq<Target>, maxWorkers: int, s: Sample)
    requires ValidTargets(devices) && (IsQueryMetric(s.name) ==> HandlersAgree(devices))
    ensures s in RunSamples(net, devices, maxWorkers) <==>
            exists t :: t in devices && TargetSays(net, t, RunLabels(devices, t), s)
  {
    var raw := Collected(net, devices, maxWorkers);
    SomeStage(s, raw.pings, FlatMap(ResultOf(), raw.probes), raw.queries, raw.interfaces, BuildLookup(devices));
    PingStageSays(net, devices, maxWorkers, s);
    ProbeStageSays(net, devices, maxWorkers, s);
    WalkStageSays(net, devices, maxWorkers, s);
    if IsQueryMetric(s.name) {
      HandlerStageSays(net, devices, maxWorkers, s);
    } else {
      QueryMetricsOnly(raw.queries, BuildLookup(devices), s);
      forall t | t in devices ensures !HandlerTells(net, t, RunLabels(devices, t), s) {
        HandlerMetricsOnly(net, t, RunLabels(devices, t), s);
      }
    }
  }

  /** `t` is in the shard: of the fleet, and the checksum of its number picks the index. */
  ghost predicate InJob(crc: string -> nat, fleet: seq<Target>, index: nat, total: nat, t: Target) {
    t in fleet && t.equipmentNo.Some? && (total <= 1 || crc(t.equipmentNo.value) % total == index)
  }

  lemma ShardMembers(crc: string -> nat, fleet: seq<Target>, index: nat, total: nat, t: Target)
    requires ValidTargets(fleet)
    ensures t in Shard(crc, fleet, index, total) <==> InJob(crc, fleet, index, total, t)
  {
    FlatMapHolds(Keep(InShard(crc, index, total)), fleet, t);
    forall u | u in fleet ensures Truthy(u.equipmentNo) { Named(u); }
  }

  lemma ShardAgrees(crc: string -> nat, fleet: seq<Target>, index: nat, total: nat)
    requires ValidTargets(fleet)
    ensures ValidTargets(Shard(crc, fleet, index, total))
    ensures HandlersAgree(fleet) ==> HandlersAgree(Shard(crc, fleet, index, total))
  {
    forall t | t in Shard(crc, fleet, index, total) ensures t in fleet { ShardMembers(crc, fleet, index, total, t); }
  }

  lemma KeptIff(p: Sample -> bool, xs: seq<Sample>, s: Sample)
    ensures s in FlatMap(Keep(p), xs) <==> s in xs && p(s)
  {
    FlatMapHolds(Keep(p), xs, s);
    assert p(s) ==> s in Keep(p)(s);
  }

  lemma RoutedSays(encoded: seq<Sample>, targeted: nat, polled: nat, duration: Option<real>, labels: Labels,
                   priority: Option<Priority>, s: Sample)
    requires Tier(s.name) != Always
    ensures s in FlatMap(Keep(TierFilter(priority)), encoded + GuardrailSamples(targeted, polled, duration, labels))
       <==> s in encoded && (priority.Some? ==> Tier(s.name) == priority.value)
  {
    var all := encoded + GuardrailSamples(targeted, polled, duration, labels);
    GuardrailsAreAlways(targeted, polled, duration, labels);
    KeptIff(TierFilter(priority), all, s);
  }

  /** Under the target's own labels the network says `s` of it. */
  ghost predicate Reads(net: Network, t: Target, s: Sample) {
    exists lbl :: LabelsOf(lbl, t) && TargetSays(net, t, lbl, s)
  }

  lemma ReadsUnderRunLabels(net: Network, devices: seq<Target>, t: Target, s: Sample)
    requires ValidTargets(devices) && DistinctEquipment(devices) && t in devices && t.equipmentNo.Some?
    ensures Reads(net, t, s) <==> TargetSays(net, t, RunLabels(devices, t), s)
  {
    RunLabelsMeaning(devices, t);
    if lbl :| LabelsOf(lbl, t) && TargetSays(net, t, lbl, s) { LabelsOnce(lbl, RunLabels(devices, t), t); }
  }

  lemma RunReads(net: Network, devices: seq<Target>, maxWorkers: int, s: Sample)
    requires ValidTargets(devices) && DistinctEquipment(devices) && (IsQueryMetric(s.name) ==> HandlersAgree(devices))
    ensures s in RunSamples(net, devices, maxWorkers) <==> exists t :: t in devices && Reads(net, t, s)
  {
    RunSays(net, devices, maxWorkers, s);
    forall t | t in devices ensures Reads(net, t, s) <==> TargetSays(net, t, RunLabels(devices, t), s) {
      ReadsUnderRunLabels(net, devices, t, s);
    }
  }

  lemma CycleReads(net: Network, crc: string -> nat, fleet: seq<Target>, index: nat, total: nat,
                   priority: Option<Priority>, maxWorkers: int, duration: Option<real>, s: Sample)
    requires Tier(s.name) != Always
    ensures var devices := Shard(crc, fleet, index, total);
            s in CycleOutput(net, crc, fleet, index, total, priority, maxWorkers, duration) <==>
              devices != [] && s in RunSamples(net, devices, maxWorkers)
                && (priority.Some? ==> Tier(s.name) == priority.value)
  {
    var devices := Shard(crc, fleet, index, total);
    if devices != [] {
      RoutedSays(RunSamples(net, devices, maxWorkers), |devices|, |Collected(net, devices, maxWorkers).pings|, duration,
                 GuardrailLabels(index, total, priority), priority, s);
    }
  }

  /** What a job publishes of its devices, from the network and the fleet alone. A device sample is
      in the cycle's output exactly when its metric is of the job's tier and some target of the
      job's shard has that reading, under labels that are the target's own. */
  lemma CycleSaysIff(net: Network, crc: string -> nat, fleet: seq<Target>, index: nat, total: nat,
                     priority: Option<Priority>, maxWorkers: int, duration: Option<real>, s: Sample)
    requires ValidTargets(fleet) && DistinctEquipment(fleet) && (IsQueryMetric(s.name) ==> HandlersAgree(fleet))
    requires Tier(s.name) != Always
    ensures s in CycleOutput(net, crc, fleet, index, total, priority, maxWorkers, duration) <==>
      (priority.Some? ==> Tier(s.name) == priority.value)
      && exists t :: InJob(crc, fleet, index, total, t) && Reads(net, t, s)
  {
    var devices := Shard(crc, fleet, index, total);
    ShardAgrees(crc, fleet, index, total);
    ShardDistinct(crc, fleet, index, total);
    CycleReads(net, crc, fleet, index, total, priority, maxWorkers, duration, s);
    RunReads(net, devices, maxWorkers, s);
    forall t ensures t in devices <==> InJob(crc, fleet, index, total, t) { ShardMembers(crc, fleet, index, total, t); }
  }
}
