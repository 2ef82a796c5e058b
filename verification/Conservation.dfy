/** Sharding and tiers: N shards times four tier jobs publish, together, exactly the
    device samples of one unsharded run of everything. */
module Conservation {
  import opened Common
  import opened Text
  import opened Targets
  import opened Collection
  import opened Encoder

  // ---- One run ----------------------------------------------------------------------

  /** The shard test, with the checksum as an arbitrary fixed function. */
  predicate DeviceInShard(crc: string -> nat, equipmentNo: string, index: nat, total: nat) {
    total <= 1 || crc(equipmentNo) % total == index
  }

  function InShard(crc: string -> nat, index: nat, total: nat): Target -> bool {
    (t: Target) => Truthy(t.equipmentNo) && DeviceInShard(crc, t.equipmentNo.value, index, total)
  }

  /** A list comprehension's filter. */
  function Keep<A>(p: A -> bool): A -> seq<A> {
    (x: A) => if p(x) then [x] else []
  }

  function Shard(crc: string -> nat, fleet: seq<Target>, index: nat, total: nat): seq<Target> {
    if total > 1 then FlatMap(Keep(InShard(crc, index, total)), fleet) else fleet
  }

  function ResultOf(): Probed -> seq<ProbeResult> {
    (p: Probed) => [p.result]
  }

  /** The encoded samples of one collection, enriched with the labels of its own devices. */
  function RunSamples(net: Network, devices: seq<Target>, maxWorkers: int): seq<Sample> {
    var raw := Collected(net, devices, maxWorkers);
    Encoded(raw.pings, FlatMap(ResultOf(), raw.probes), raw.queries, raw.interfaces, BuildLookup(devices))
  }

  function TierFilter(priority: Option<Priority>): Sample -> bool {
    (s: Sample) => priority.Some? ==> ShouldPublish(s.name, priority.value)
  }

  /** What `process` hands to the publisher. */
  function Routed(pings: seq<PingResult>, probes: seq<ProbeResult>, queries: seq<QueryResult>,
                  interfaces: seq<InterfaceResult>,
                  lookup: DeviceLookup, targeted: nat, index: nat, total: nat, duration: Option<real>,
                  priority: Option<Priority>): seq<Sample>
  {
    FlatMap(Keep(TierFilter(priority)),
            Encoded(pings, probes, queries, interfaces, lookup)
            + GuardrailSamples(targeted, |pings|, duration, GuardrailLabels(index, total, priority)))
  }

  method Process(pings: seq<PingResult>, probes: seq<ProbeResult>, queries: seq<QueryResult>,
                 interfaces: seq<InterfaceResult>,
                 lookup: DeviceLookup, targeted: nat, index: nat, total: nat, duration: Option<real>,
                 priority: Option<Priority>)
    returns (samples: seq<Sample>)
    ensures samples == Routed(pings, probes, queries, interfaces, lookup, targeted, index, total, duration, priority)
  {
    samples := EncodeAll(pings, probes, queries, interfaces, lookup);
    ghost var encoded := samples;
    var labels := GuardrailLabels(index, total, priority);
    var polled := |pings|;
    if targeted > 0 {
      samples := samples + [Sample(SnmpDevicesTargeted, targeted as real, labels),
                            Sample(SnmpDevicesPolled, polled as real, labels),
                            Sample(SnmpCoverageRatio, polled as real / targeted as real, labels)];
    }
    if duration.Some? {
      samples := samples + [Sample(SnmpCycleDurationSeconds, duration.value, labels)];
    }
    assert samples == encoded + GuardrailSamples(targeted, polled, duration, labels);
    if priority.None? { KeepAll(TierFilter(priority), samples); }
    if priority.Some? {
      samples := AppendAll(Keep(TierFilter(priority)), samples);
    }
  }

  lemma {:induction false} KeepAll<A>(p: A -> bool, xs: seq<A>)
    requires forall x :: x in xs ==> p(x)
    ensures FlatMap(Keep(p), xs) == xs
  {
    if xs != [] {
      KeepAll(p, xs[..|xs| - 1]);
    }
  }

  /** The coverage guardrails of a cycle that had nothing to target. */
  function ZeroGuardrails(labels: Labels): seq<Sample> {
    [Sample(SnmpDevicesTargeted, 0.0, labels), Sample(SnmpDevicesPolled, 0.0, labels),
     Sample(SnmpCoverageRatio, 0.0, labels)]
  }

  /** Everything one job publishes in one cycle. */
  function CycleOutput(net: Network, crc: string -> nat, fleet: seq<Target>, index: nat, total: nat,
                       priority: Option<Priority>, maxWorkers: int, duration: Option<real>): seq<Sample>
  {
    var devices := Shard(crc, fleet, index, total);
    if devices == [] then ZeroGuardrails(GuardrailLabels(index, total, priority))
    else
      var raw := Collected(net, devices, maxWorkers);
      Routed(raw.pings, FlatMap(ResultOf(), raw.probes), raw.queries, raw.interfaces, BuildLookup(devices),
             |devices|, index, total, duration, priority)
  }

  // ---- A run is the sum of its devices ---------------------------------------------------

  ghost predicate DistinctEquipment(devices: seq<Target>) {
    DistinctBy(Number(), devices)
  }

  function Number(): Target -> Option<string> {
    (t: Target) => t.equipmentNo
  }

  lemma {:induction false} LookupIsOwn(devices: seq<Target>, t: Target)
    requires ValidTargets(devices) && DistinctEquipment(devices) && t in devices
    ensures t.equipmentNo.value in BuildLookup(devices) && BuildLookup(devices)[t.equipmentNo.value] == ExtraLabels(t)
  {
    var n := |devices| - 1;
    if t == devices[n] {
      NoneIfBlankIsFixed(t.equipmentNo);
    } else {
      LookupIsOwn(devices[..n], t);
      var i :| 0 <= i < n && devices[i] == t;
      assert Number()(devices[i]) != Number()(devices[n]);
    }
  }

  /** One stage of a device collected and enriched on its own. */
  function SoloStage<R>(producer: Target -> seq<R>, encode: DeviceLookup -> R -> seq<Sample>): Target -> seq<Sample> {
    (t: Target) => FlatMap(encode(BuildLookup([t])), producer(t))
  }

  /** `encode` looks at the labels of the result's own device only. */
  ghost predicate OwnLabelsOnly<R>(producer: Target -> seq<R>, encode: DeviceLookup -> R -> seq<Sample>) {
    forall l, m, t, r ::
      (r in producer(t)
       && (Truthy(t.equipmentNo) ==> BaseLabels(t.equipmentNo.value, l) == BaseLabels(t.equipmentNo.value, m)))
      ==> encode(l)(r) == encode(m)(r)
  }

  lemma StageIsSolo<R>(devices: seq<Target>, results: seq<R>, producer: Target -> seq<R>,
                       encode: DeviceLookup -> R -> seq<Sample>)
    requires ValidTargets(devices) && DistinctEquipment(devices)
    requires multiset(results) == multiset(FlatMap(producer, devices))
    requires OwnLabelsOnly(producer, encode)
    ensures multiset(FlatMap(encode(BuildLookup(devices)), results))
            == multiset(FlatMap(SoloStage(producer, encode), devices))
  {
    var lookup := BuildLookup(devices);
    FlatMapPermutes(encode(lookup), results, FlatMap(producer, devices));
    forall t | t in devices ensures FlatMap(encode(lookup), producer(t)) == SoloStage(producer, encode)(t) {
      LookupIsOwn(devices, t);
      LookupIsOwn([t], t);
      FlatMapSame(encode(lookup), encode(BuildLookup([t])), producer(t));
    }
    FlatMapCompose(producer, encode(lookup), SoloStage(producer, encode), devices);
  }

  function PingEncoder(): DeviceLookup -> PingResult -> seq<Sample> { (l: DeviceLookup) => PingSamples(l) }
  function ProbeEncoder(): DeviceLookup -> ProbeResult -> seq<Sample> { (l: DeviceLookup) => ProbeSamples(l) }
  function QueryEncoder(): DeviceLookup -> QueryResult -> seq<Sample> { (l: DeviceLookup) => QueryResultSamples(l) }

  function InterfaceEncoder(): DeviceLookup -> InterfaceResult -> seq<Sample> {
    (l: DeviceLookup) => InterfaceResultSamples(l)
  }

  function ProbeOf(net: Network): Target -> seq<ProbeResult> {
    (t: Target) => FlatMap(ResultOf(), SoloProbe(net)(t))
  }

  function QueriesOf(net: Network): Target -> seq<QueryResult> {
    (t: Target) => FlatMap(SoloQuery(net), SoloAlive(net)(t))
  }

  function InterfacesOf(net: Network): Target -> seq<InterfaceResult> {
    (t: Target) => FlatMap(SoloInterfaces(net), SoloAlive(net)(t))
  }

  /** All samples of a device monitored on its own: its ping, its probe and, when the probe
      is up, its query and interface answers, enriched with its own labels. */
  function Solo(net: Network): Target -> seq<Sample> {
    (t: Target) => SoloStage(Pinger(net), PingEncoder())(t) + SoloStage(ProbeOf(net), ProbeEncoder())(t)
                   + SoloStage(QueriesOf(net), QueryEncoder())(t) + SoloStage(InterfacesOf(net), InterfaceEncoder())(t)
  }

  lemma {:induction false} FlatMapPlus<A, B>(f: A -> seq<B>, g: A -> seq<B>, h: A -> seq<B>, xs: seq<A>)
    requires forall x :: h(x) == f(x) + g(x)
    ensures multiset(FlatMap(h, xs)) == multiset(FlatMap(f, xs)) + multiset(FlatMap(g, xs))
  {
    if xs != [] {
      FlatMapPlus(f, g, h, xs[..|xs| - 1]);
    }
  }

  lemma PingsAreSolo(net: Network, devices: seq<Target>, pings: seq<PingResult>)
    requires ValidTargets(devices) && DistinctEquipment(devices)
    requires multiset(pings) == multiset(FlatMap(Pinger(net), devices))
    ensures multiset(FlatMap(PingSamples(BuildLookup(devices)), pings))
         == multiset(FlatMap(SoloStage(Pinger(net), PingEncoder()), devices))
  {
    StageIsSolo(devices, pings, Pinger(net), PingEncoder());
  }

  lemma ProbeLabelsAreOwn(net: Network)
    ensures OwnLabelsOnly(ProbeOf(net), ProbeEncoder())
  {
    forall t, r | r in ProbeOf(net)(t) ensures r.equipmentNo == None || r.equipmentNo == t.equipmentNo {
      FlatMapSource(ResultOf(), SoloProbe(net)(t), r);
    }
  }

  lemma ProbesAreSolo(net: Network, devices: seq<Target>, probes: seq<Probed>)
    requires ValidTargets(devices) && DistinctEquipment(devices)
    requires multiset(probes) == multiset(FlatMap(SoloProbe(net), devices))
    ensures multiset(FlatMap(ProbeSamples(BuildLookup(devices)), FlatMap(ResultOf(), probes)))
         == multiset(FlatMap(SoloStage(ProbeOf(net), ProbeEncoder()), devices))
  {
    FlatMapPermutes(ResultOf(), probes, FlatMap(SoloProbe(net), devices));
    FlatMapCompose(SoloProbe(net), ResultOf(), ProbeOf(net), devices);
    ProbeLabelsAreOwn(net);
    StageIsSolo(devices, FlatMap(ResultOf(), probes), ProbeOf(net), ProbeEncoder());
  }

  lemma AnswersOfAlive<R>(net: Network, devices: seq<Target>, ask: Target -> seq<R>, answers: Target -> seq<R>)
    requires forall t :: answers(t) == FlatMap(ask, SoloAlive(net)(t))
    ensures FlatMap(ask, AliveSolo(net, devices)) == FlatMap(answers, devices)
  {
    forall d | d in devices ensures FlatMap(Alive(), SoloProbe(net)(d)) == SoloAlive(net)(d) {
      FlatMapOne(Alive(), ProbeVia(net, Some(d), d));
    }
    FlatMapCompose(SoloProbe(net), Alive(), SoloAlive(net), devices);
    FlatMapCompose(SoloAlive(net), ask, answers, devices);
  }

  lemma OnlyAliveItself(net: Network, t: Target)
    ensures forall u :: u in SoloAlive(net)(t) ==> u == t
  {
    var p := ProbeVia(net, Some(t), t);
    assert p.target == t && SoloAlive(net)(t) == Alive()(p);
  }

  lemma QueryIsOwn(net: Network, t: Target, r: QueryResult)
    requires r in QueriesOf(net)(t)
    ensures r.equipmentNo == t.equipmentNo
  {
    var alive := SoloAlive(net)(t);
    OnlyAliveItself(net, t);
    FlatMapSource(SoloQuery(net), alive, r);
    var i :| 0 <= i < |alive| && r in SoloQuery(net)(alive[i]);
    assert alive[i] in alive;
    assert r in QueryVia(net, Some(t), t);
  }

  lemma InterfaceIsOwn(net: Network, t: Target, r: InterfaceResult)
    requires r in InterfacesOf(net)(t)
    ensures r.equipmentNo == t.equipmentNo
  {
    var alive := SoloAlive(net)(t);
    OnlyAliveItself(net, t);
    FlatMapSource(SoloInterfaces(net), alive, r);
    var i :| 0 <= i < |alive| && r in SoloInterfaces(net)(alive[i]);
    assert alive[i] in alive;
    assert r in InterfacesVia(net, Some(t), t);
  }

  lemma AnswerLabelsAreOwn(net: Network)
    ensures OwnLabelsOnly(QueriesOf(net), QueryEncoder()) && OwnLabelsOnly(InterfacesOf(net), InterfaceEncoder())
  {
    forall t, r | r in QueriesOf(net)(t) ensures r.equipmentNo == t.equipmentNo { QueryIsOwn(net, t, r); }
    forall t, r | r in InterfacesOf(net)(t) ensures r.equipmentNo == t.equipmentNo { InterfaceIsOwn(net, t, r); }
  }

  lemma QueriesAreSolo(net: Network, devices: seq<Target>, queries: seq<QueryResult>)
    requires ValidTargets(devices) && DistinctEquipment(devices)
    requires multiset(queries) == multiset(FlatMap(SoloQuery(net), AliveSolo(net, devices)))
    ensures multiset(FlatMap(QueryResultSamples(BuildLookup(devices)), queries))
         == multiset(FlatMap(SoloStage(QueriesOf(net), QueryEncoder()), devices))
  {
    AnswersOfAlive(net, devices, SoloQuery(net), QueriesOf(net));
    AnswerLabelsAreOwn(net);
    StageIsSolo(devices, queries, QueriesOf(net), QueryEncoder());
  }

  lemma InterfacesAreSolo(net: Network, devices: seq<Target>, interfaces: seq<InterfaceResult>)
    requires ValidTargets(devices) && DistinctEquipment(devices)
    requires multiset(interfaces) == multiset(FlatMap(SoloInterfaces(net), AliveSolo(net, devices)))
    ensures multiset(FlatMap(InterfaceResultSamples(BuildLookup(devices)), interfaces))
         == multiset(FlatMap(SoloStage(InterfacesOf(net), InterfaceEncoder()), devices))
  {
    AnswersOfAlive(net, devices, SoloInterfaces(net), InterfacesOf(net));
    AnswerLabelsAreOwn(net);
    StageIsSolo(devices, interfaces, InterfacesOf(net), InterfaceEncoder());
  }

  function Both<A, B>(f: A -> seq<B>, g: A -> seq<B>): A -> seq<B> {
    (x: A) => f(x) + g(x)
  }

  /** Four stages, each a permutation of its per-device form, add up to the per-device sum. */
  lemma FourStages(a: seq<Sample>, b: seq<Sample>, c: seq<Sample>, d: seq<Sample>, devices: seq<Target>,
                   f: Target -> seq<Sample>, g: Target -> seq<Sample>, h: Target -> seq<Sample>,
                   k: Target -> seq<Sample>,
                   all: Target -> seq<Sample>)
    requires multiset(a) == multiset(FlatMap(f, devices)) && multiset(b) == multiset(FlatMap(g, devices))
    requires multiset(c) == multiset(FlatMap(h, devices)) && multiset(d) == multiset(FlatMap(k, devices))
    requires forall t :: all(t) == f(t) + g(t) + h(t) + k(t)
    ensures multiset(a + b + c + d) == multiset(FlatMap(all, devices))
  {
    FlatMapPlus(f, g, Both(f, g), devices);
    FlatMapPlus(Both(f, g), h, Both(Both(f, g), h), devices);
    FlatMapPlus(Both(Both(f, g), h), k, all, devices);
  }

  /** A run's samples are, up to order, those of each of its devices monitored on its own. */
  lemma RunIsSumOfDevices(net: Network, devices: seq<Target>, maxWorkers: int)
    requires ValidTargets(devices) && HandlersAgree(devices) && DistinctEquipment(devices)
    ensures multiset(RunSamples(net, devices, maxWorkers)) == multiset(FlatMap(Solo(net), devices))
  {
    AgreeingAreAnsweredAlike(net, devices);
    CollectedIsSolo(net, devices, maxWorkers);
    RawIsSumOfDevices(net, devices, Collected(net, devices, maxWorkers));
  }

  lemma RawIsSumOfDevices(net: Network, devices: seq<Target>, raw: Raw)
    requires ValidTargets(devices) && DistinctEquipment(devices)
    requires multiset(raw.pings) == multiset(FlatMap(Pinger(net), devices))
    requires multiset(raw.probes) == multiset(FlatMap(SoloProbe(net), devices))
    requires multiset(raw.queries) == multiset(FlatMap(SoloQuery(net), AliveSolo(net, devices)))
    requires multiset(raw.interfaces) == multiset(FlatMap(SoloInterfaces(net), AliveSolo(net, devices)))
    ensures multiset(Encoded(raw.pings, FlatMap(ResultOf(), raw.probes), raw.queries, raw.interfaces,
                             BuildLookup(devices)))
         == multiset(FlatMap(Solo(net), devices))
  {
    PingsAreSolo(net, devices, raw.pings);
    ProbesAreSolo(net, devices, raw.probes);
    QueriesAreSolo(net, devices, raw.queries);
    InterfacesAreSolo(net, devices, raw.interfaces);
    var lookup := BuildLookup(devices);
    FourStages(FlatMap(PingSamples(lookup), raw.pings), FlatMap(ProbeSamples(lookup), FlatMap(ResultOf(), raw.probes)),
               FlatMap(QueryResultSamples(lookup), raw.queries),
               FlatMap(InterfaceResultSamples(lookup), raw.interfaces), devices,
               SoloStage(Pinger(net), PingEncoder()), SoloStage(ProbeOf(net), ProbeEncoder()),
               SoloStage(QueriesOf(net), QueryEncoder()), SoloStage(InterfacesOf(net), InterfaceEncoder()), Solo(net));
  }

  // ---- Shards partition the fleet -----------------------------------------------------------

  /** The multiset union of `part(0)`, …, `part(n - 1)`. */
  ghost function Union<A>(n: nat, part: nat -> multiset<A>): multiset<A> {
    if n == 0 then multiset{} else Union(n - 1, part) + part(n - 1)
  }

  lemma {:induction false} UnionSame<A>(n: nat, f: nat -> multiset<A>, g: nat -> multiset<A>)
    requires forall i :: 0 <= i < n ==> f(i) == g(i)
    ensures Union(n, f) == Union(n, g)
  {
    if n > 0 {
      UnionSame(n - 1, f, g);
    }
  }

  /** Growing exactly part `h` by `x` grows the union by `x`. */
  lemma {:induction false} UnionGrow<A>(n: nat, f: nat -> multiset<A>, g: nat -> multiset<A>, h: nat, x: multiset<A>)
    requires forall i :: 0 <= i < n ==> g(i) == if i == h then f(i) + x else f(i)
    ensures Union(n, g) == if h < n then Union(n, f) + x else Union(n, f)
  {
    if n > 0 {
      UnionGrow(n - 1, f, g, h, x);
    }
  }

  lemma {:induction false} UnionEmpty<A>(n: nat, f: nat -> multiset<A>)
    requires forall i :: 0 <= i < n ==> f(i) == multiset{}
    ensures Union(n, f) == multiset{}
  {
    if n > 0 {
      UnionEmpty(n - 1, f);
    }
  }

  /** What shard `i` of `total` contributes when each device contributes `f`. */
  ghost function ShardPart<B>(crc: string -> nat, fleet: seq<Target>, total: nat,
                              f: Target -> seq<B>): nat -> multiset<B> {
    (i: nat) => multiset(FlatMap(f, Shard(crc, fleet, i, total)))
  }

  lemma ShardSnoc<B>(crc: string -> nat, fleet: seq<Target>, total: nat, f: Target -> seq<B>, i: nat)
    requires fleet != [] && total > 1 && ValidTargets(fleet)
    ensures var n := |fleet| - 1;
            var t := fleet[n];
            t.equipmentNo.Some? && ShardPart(crc, fleet, total, f)(i)
            == if crc(t.equipmentNo.value) % total == i then ShardPart(crc, fleet[..n], total, f)(i) + multiset(f(t))
               else ShardPart(crc, fleet[..n], total, f)(i)
  {
    var n := |fleet| - 1;
    var t := fleet[n];
    assert ValidTarget(t);
    NoneIfBlankIsFixed(t.equipmentNo);
    assert InShard(crc, i, total)(t) <==> crc(t.equipmentNo.value) % total == i;
    var before := Shard(crc, fleet[..n], i, total);
    if InShard(crc, i, total)(t) {
      assert Shard(crc, fleet, i, total) == before + [t];
      FlatMapAppend(f, before, [t]);
      FlatMapOne(f, t);
    } else {
      assert Shard(crc, fleet, i, total) == before;
    }
  }

  /** Every device is in exactly one shard: whatever each device contributes, the shards
      together contribute what the fleet does. */
  lemma {:induction false} ShardsPartition<B>(crc: string -> nat, fleet: seq<Target>, total: nat, f: Target -> seq<B>)
    requires total >= 1 && ValidTargets(fleet)
    ensures Union(total, ShardPart(crc, fleet, total, f)) == multiset(FlatMap(f, fleet))
  {
    var part := ShardPart(crc, fleet, total, f);
    if total == 1 {
      assert Union(0, part) == multiset{};
      assert part(0) == multiset(FlatMap(f, fleet));
    } else if fleet == [] {
      UnionEmpty(total, part);
    } else {
      var n := |fleet| - 1;
      forall i: nat ensures fleet[n].equipmentNo.Some? && part(i) == if crc(fleet[n].equipmentNo.value) % total == i
                                         then ShardPart(crc, fleet[..n], total, f)(i) + multiset(f(fleet[n]))
                                         else ShardPart(crc, fleet[..n], total, f)(i)
      {
        ShardSnoc(crc, fleet, total, f, i);
      }
      ShardsPartition(crc, fleet[..n], total, f);
      UnionGrow(total, ShardPart(crc, fleet[..n], total, f), part, crc(fleet[n].equipmentNo.value) % total,
                multiset(f(fleet[n])));
    }
  }

  // ---- Tiers split the device metrics --------------------------------------------------------

  /** The samples of one device-metric tier; `None` is every tier but `Always`. */
  function DeviceTier(priority: Option<Priority>): Sample -> bool {
    (s: Sample) => if priority.None? then Tier(s.name) != Always else Tier(s.name) == priority.value
  }

  function InTier(p: Option<Priority>, xs: seq<Sample>): seq<Sample> {
    FlatMap(Keep(DeviceTier(p)), xs)
  }

  function DeviceSeries(xs: seq<Sample>): seq<Sample> {
    InTier(None, xs)
  }

  /** The four tier jobs. */
  ghost function OverTiers<A>(part: Priority -> multiset<A>): multiset<A> {
    part(Critical) + part(High) + part(Medium) + part(Low)
  }

  lemma AddTiers<A>(a: multiset<A>, b: multiset<A>, c: multiset<A>, d: multiset<A>,
                    w: multiset<A>, x: multiset<A>, y: multiset<A>, z: multiset<A>)
    ensures (a + w) + (b + x) + (c + y) + (d + z) == (a + b + c + d) + (w + x + y + z)
  {
  }

  /** A device metric has exactly one tier. */
  lemma OneTier(s: Sample)
    ensures multiset(Keep(DeviceTier(Some(Critical)))(s)) + multiset(Keep(DeviceTier(Some(High)))(s))
            + multiset(Keep(DeviceTier(Some(Medium)))(s)) + multiset(Keep(DeviceTier(Some(Low)))(s))
            == multiset(Keep(DeviceTier(None))(s))
  {
  }

  lemma InTierSnoc(p: Option<Priority>, xs: seq<Sample>)
    requires xs != []
    ensures multiset(InTier(p, xs)) == multiset(InTier(p, xs[..|xs| - 1])) + multiset(Keep(DeviceTier(p))(xs[|xs| - 1]))
  {
  }

  lemma {:induction false} TiersPartition(xs: seq<Sample>)
    ensures OverTiers(p => multiset(InTier(Some(p), xs))) == multiset(InTier(None, xs))
  {
    if xs != [] {
      var n := |xs| - 1;
      TiersPartition(xs[..n]);
      InTierSnoc(Some(Critical), xs);
      InTierSnoc(Some(High), xs);
      InTierSnoc(Some(Medium), xs);
      InTierSnoc(Some(Low), xs);
      InTierSnoc(None, xs);
      OneTier(xs[n]);
      AddTiers(multiset(InTier(Some(Critical), xs[..n])), multiset(InTier(Some(High), xs[..n])),
               multiset(InTier(Some(Medium), xs[..n])), multiset(InTier(Some(Low), xs[..n])),
               multiset(Keep(DeviceTier(Some(Critical)))(xs[n])), multiset(Keep(DeviceTier(Some(High)))(xs[n])),
               multiset(Keep(DeviceTier(Some(Medium)))(xs[n])), multiset(Keep(DeviceTier(Some(Low)))(xs[n])));
    }
  }

  lemma KeepTwice<A>(p: A -> bool, q: A -> bool, r: A -> bool, xs: seq<A>)
    requires forall x :: r(x) <==> p(x) && q(x)
    ensures FlatMap(Keep(q), FlatMap(Keep(p), xs)) == FlatMap(Keep(r), xs)
  {
    forall x | x in xs ensures FlatMap(Keep(q), Keep(p)(x)) == Keep(r)(x) {
      if p(x) { FlatMapOne(Keep(q), x); }
    }
    FlatMapCompose(Keep(p), Keep(q), Keep(r), xs);
  }

  /** The device series `process` publishes are the encoded samples of the job's tier. */
  lemma RoutedDeviceSeries(encoded: seq<Sample>, targeted: nat, polled: nat, duration: Option<real>, labels: Labels,
                           priority: Option<Priority>)
    requires priority != Some(Always)
    ensures DeviceSeries(FlatMap(Keep(TierFilter(priority)),
                                 encoded + GuardrailSamples(targeted, polled, duration, labels)))
         == FlatMap(Keep(DeviceTier(priority)), encoded)
  {
    var g := GuardrailSamples(targeted, polled, duration, labels);
    forall s ensures DeviceTier(priority)(s) <==> TierFilter(priority)(s) && DeviceTier(None)(s) {}
    KeepTwice(TierFilter(priority), DeviceTier(None), DeviceTier(priority), encoded + g);
    FlatMapAppend(Keep(DeviceTier(priority)), encoded, g);
    GuardrailsAreAlways(targeted, polled, duration, labels);
    NothingToDo(Keep(DeviceTier(priority)), g);
  }

  lemma GuardrailsAreAlways(targeted: nat, polled: nat, duration: Option<real>, labels: Labels)
    ensures forall s :: s in GuardrailSamples(targeted, polled, duration, labels) ==> Tier(s.name) == Always
  {
  }

  /** One device's samples of one tier. */
  function TierOf(net: Network, priority: Option<Priority>): Target -> seq<Sample> {
    (t: Target) => FlatMap(Keep(DeviceTier(priority)), Solo(net)(t))
  }

  ghost predicate Fleet(devices: seq<Target>) {
    ValidTargets(devices) && HandlersAgree(devices) && DistinctEquipment(devices)
  }

  lemma ShardOfFleet(crc: string -> nat, fleet: seq<Target>, index: nat, total: nat)
    requires Fleet(fleet)
    ensures Fleet(Shard(crc, fleet, index, total))
  {
    var keep := Keep(InShard(crc, index, total));
    FlatMapDistinct(keep, fleet, Number());
    forall t | t in FlatMap(keep, fleet) ensures t in fleet {
      FlatMapSource(keep, fleet, t);
    }
  }

  /** The device series of one job, whatever its worker count and duration. */
  lemma JobOutput(net: Network, crc: string -> nat, fleet: seq<Target>, index: nat, total: nat,
                  priority: Option<Priority>, maxWorkers: int, duration: Option<real>)
    requires Fleet(fleet) && priority != Some(Always)
    ensures multiset(DeviceSeries(CycleOutput(net, crc, fleet, index, total, priority, maxWorkers, duration)))
         == multiset(FlatMap(TierOf(net, priority), Shard(crc, fleet, index, total)))
  {
    var devices := Shard(crc, fleet, index, total);
    if devices == [] {
      NothingToDo(Keep(DeviceTier(None)), ZeroGuardrails(GuardrailLabels(index, total, priority)));
    } else {
      ShardOfFleet(crc, fleet, index, total);
      var raw := Collected(net, devices, maxWorkers);
      RoutedDeviceSeries(RunSamples(net, devices, maxWorkers), |devices|, |raw.pings|, duration,
                         GuardrailLabels(index, total, priority), priority);
      RunIsSumOfDevices(net, devices, maxWorkers);
      TierOfRun(net, devices, RunSamples(net, devices, maxWorkers), priority);
    }
  }

  lemma TierOfRun(net: Network, devices: seq<Target>, run: seq<Sample>, priority: Option<Priority>)
    requires multiset(run) == multiset(FlatMap(Solo(net), devices))
    ensures multiset(FlatMap(Keep(DeviceTier(priority)), run)) == multiset(FlatMap(TierOf(net, priority), devices))
  {
    FlatMapPermutes(Keep(DeviceTier(priority)), run, FlatMap(Solo(net), devices));
    FlatMapCompose(Solo(net), Keep(DeviceTier(priority)), TierOf(net, priority), devices);
  }

  /** The four tier jobs of one shard publish the shard's device series. */
  lemma TiersOfShard(net: Network, devices: seq<Target>)
    ensures OverTiers(p => multiset(FlatMap(TierOf(net, Some(p)), devices)))
            == multiset(FlatMap(TierOf(net, None), devices))
  {
    var run := FlatMap(Solo(net), devices);
    TiersPartition(run);
    TierOfRun(net, devices, run, None);
    TierOfRun(net, devices, run, Some(Critical));
    TierOfRun(net, devices, run, Some(High));
    TierOfRun(net, devices, run, Some(Medium));
    TierOfRun(net, devices, run, Some(Low));
  }

  /** The device series of every job of a deployment: `total` shards times four tiers, each
      job with its own worker count and cycle duration. */
  ghost function Deployment(net: Network, crc: string -> nat, fleet: seq<Target>, total: nat,
                            maxWorkers: (nat, Priority) -> int,
                            duration: (nat, Priority) -> Option<real>): multiset<Sample>
  {
    Union(total, (i: nat) => OverTiers(p =>
      multiset(DeviceSeries(CycleOutput(net, crc, fleet, i, total, Some(p), maxWorkers(i, p), duration(i, p))))))
  }

  /** Conservation: no device sample is lost or doubled by sharding and tiering. */
  lemma ShardsTimesTiersConserve(net: Network, crc: string -> nat, fleet: seq<Target>, total: nat,
                                 maxWorkers: (nat, Priority) -> int, duration: (nat, Priority) -> Option<real>,
                                 workers: int, elapsed: Option<real>)
    requires Fleet(fleet) && total >= 1
    ensures Deployment(net, crc, fleet, total, maxWorkers, duration)
         == multiset(DeviceSeries(CycleOutput(net, crc, fleet, 0, 1, None, workers, elapsed)))
  {
    var jobs := (i: nat) => OverTiers(p =>
      multiset(DeviceSeries(CycleOutput(net, crc, fleet, i, total, Some(p), maxWorkers(i, p), duration(i, p)))));
    forall i: nat ensures jobs(i) == ShardPart(crc, fleet, total, TierOf(net, None))(i) {
      JobOutput(net, crc, fleet, i, total, Some(Critical), maxWorkers(i, Critical), duration(i, Critical));
      JobOutput(net, crc, fleet, i, total, Some(High), maxWorkers(i, High), duration(i, High));
      JobOutput(net, crc, fleet, i, total, Some(Medium), maxWorkers(i, Medium), duration(i, Medium));
      JobOutput(net, crc, fleet, i, total, Some(Low), maxWorkers(i, Low), duration(i, Low));
      TiersOfShard(net, Shard(crc, fleet, i, total));
    }
    UnionSame(total, jobs, ShardPart(crc, fleet, total, TierOf(net, None)));
    ShardsPartition(crc, fleet, total, TierOf(net, None));
    JobOutput(net, crc, fleet, 0, 1, None, workers, elapsed);
  }
}
