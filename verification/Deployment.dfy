/** Series of a whole deployment: no two samples of one job, and no two jobs, share a
    series, and the coverage guardrails never vanish. */
module Deployment {
  import opened Common
  import opened Text
  import opened Targets
  import opened Dispatch
  import opened Collection
  import opened Encoder
  import opened SeriesIdentity
  import opened Conservation
  import opened Ownership
  import opened LabelKeys
  import P = Publisher

  ghost predicate IndexedStats(s: Stats) {
    DistinctIndices(SensorIndex(), s.temperature) && DistinctIndices(SensorIndex(), s.humidity)
      && DistinctIndices(OutletIndex(), s.outlets)
  }

  /** Every answer of the network has distinctly indexed rows. */
  ghost predicate AnswersIndexed(net: Network) {
    && (forall f, t :: net.fetch(f, t).Some? ==> IndexedStats(net.fetch(f, t).value))
    && (forall t :: DistinctIndices(IfaceIndex(), net.interfaces(t)))
  }

  /** Two different positions of a list sit at two different positions of any permutation. */
  lemma TwoPlaces<A>(xs: seq<A>, ys: seq<A>, i: nat, j: nat) returns (p: nat, q: nat)
    requires multiset(xs) == multiset(ys) && i < j < |xs|
    ensures p < |ys| && q < |ys| && p != q && ys[p] == xs[i] && ys[q] == xs[j]
  {
    assert xs[i] in multiset(ys);
    p :| p < |ys| && ys[p] == xs[i];
    MultisetRemove(xs, i);
    MultisetRemove(ys, p);
    var restX, restY := xs[..i] + xs[i + 1..], ys[..p] + ys[p + 1..];
    MultisetCancel(multiset(restX), multiset(restY), xs[i]);
    assert restX[j - 1] == xs[j];
    assert xs[j] in multiset(restY);
    var k :| 0 <= k < |restY| && restY[k] == xs[j];
    q := if k < p then k else k + 1;
  }

  /** `results` are of devices that `sources` are of, and of different ones if those are. */
  ghost predicate Answers<R, A>(eq: R -> Option<string>, results: seq<R>, key: A -> Option<string>, sources: seq<A>) {
    && (DistinctDevices(key, sources) ==> DistinctDevices(eq, results))
    && forall r :: r in results && Truthy(eq(r)) ==> exists x :: x in sources && key(x) == eq(r)
  }

  lemma AnswersGlue<R, A>(eq: R -> Option<string>, rs: seq<R>, ss: seq<R>, key: A -> Option<string>, xs: seq<A>,
                          ys: seq<A>)
    requires Answers(eq, rs, key, xs) && Answers(eq, ss, key, ys)
    ensures Answers(eq, rs + ss, key, xs + ys)
  {
    if DistinctDevices(key, xs + ys) {
      DistinctHalves(key, xs, ys);
      forall i, j | 0 <= i < |rs| && 0 <= j < |ss| && Truthy(eq(rs[i])) && Truthy(eq(ss[j]))
        ensures eq(rs[i]) != eq(ss[j])
      {
        var x :| x in xs && key(x) == eq(rs[i]);
        var y :| y in ys && key(y) == eq(ss[j]);
        DistinctAcross(key, xs, ys, x, y);
      }
    }
  }

  lemma DistinctHalves<A>(key: A -> Option<string>, xs: seq<A>, ys: seq<A>)
    requires DistinctDevices(key, xs + ys)
    ensures DistinctDevices(key, xs) && DistinctDevices(key, ys)
  {
    forall i, j | 0 <= i < j < |xs| && Truthy(key(xs[i])) && Truthy(key(xs[j])) ensures key(xs[i]) != key(xs[j]) {
      assert (xs + ys)[i] == xs[i] && (xs + ys)[j] == xs[j];
    }
    forall i, j | 0 <= i < j < |ys| && Truthy(key(ys[i])) && Truthy(key(ys[j])) ensures key(ys[i]) != key(ys[j]) {
      assert (xs + ys)[|xs| + i] == ys[i] && (xs + ys)[|xs| + j] == ys[j];
    }
  }

  lemma DistinctAcross<A>(key: A -> Option<string>, xs: seq<A>, ys: seq<A>, x: A, y: A)
    requires DistinctDevices(key, xs + ys) && x in xs && y in ys && Truthy(key(x)) && Truthy(key(y))
    ensures key(x) != key(y)
  {
    var i :| 0 <= i < |xs| && xs[i] == x;
    var j :| 0 <= j < |ys| && ys[j] == y;
    assert (xs + ys)[i] == x && (xs + ys)[|xs| + j] == y;
  }

  /** A loop that adds at most one result per source, under its name. */
  lemma {:induction false} AnswersOfLoop<A, R>(f: A -> seq<R>, eq: R -> Option<string>, key: A -> Option<string>,
                                               xs: seq<A>)
    requires forall x :: x in xs ==> |f(x)| <= 1 && forall r :: r in f(x) && Truthy(eq(r)) ==> eq(r) == key(x)
    ensures Answers(eq, FlatMap(f, xs), key, xs)
  {
    if xs != [] {
      var n := |xs| - 1;
      AnswersOfLoop(f, eq, key, xs[..n]);
      assert Answers(eq, f(xs[n]), key, [xs[n]]);
      AnswersGlue(eq, FlatMap(f, xs[..n]), f(xs[n]), key, xs[..n], [xs[n]]);
      assert xs == xs[..n] + [xs[n]];
    }
  }

  lemma {:induction false} AnswersOfChunks<R>(perChunk: seq<Target> -> seq<R>, eq: R -> Option<string>,
                                              chunks: seq<seq<Target>>)
    requires forall c :: Answers(eq, perChunk(c), Number(), c)
    ensures Answers(eq, FlatMap(perChunk, chunks), Number(), FlatMap(Chunk(), chunks))
  {
    if chunks != [] {
      var n := |chunks| - 1;
      AnswersOfChunks(perChunk, eq, chunks[..n]);
      AnswersGlue(eq, FlatMap(perChunk, chunks[..n]), perChunk(chunks[n]), Number(), FlatMap(Chunk(), chunks[..n]),
                  chunks[n]);
    }
  }

  lemma AnswersPermuted<R, A>(eq: R -> Option<string>, results: seq<R>, key: A -> Option<string>, xs: seq<A>,
                              ys: seq<A>)
    requires Answers(eq, results, key, xs) && multiset(xs) == multiset(ys)
    ensures Answers(eq, results, key, ys)
  {
    if DistinctDevices(key, ys) {
      forall i, j | 0 <= i < j < |xs| && Truthy(key(xs[i])) && Truthy(key(xs[j])) ensures key(xs[i]) != key(xs[j]) {
        var p, q := TwoPlaces(xs, ys, i, j);
      }
    }
    forall r | r in results && Truthy(eq(r)) ensures exists y :: y in ys && key(y) == eq(r) {
      var x :| x in xs && key(x) == eq(r);
      assert x in multiset(ys);
    }
  }

  lemma AnswersThrough<R, A, B>(eq: R -> Option<string>, rs: seq<R>, key: A -> Option<string>, xs: seq<A>,
                                source: B -> Option<string>, ys: seq<B>)
    requires Answers(eq, rs, key, xs) && Answers(key, xs, source, ys)
    ensures Answers(eq, rs, source, ys)
  {
    forall r | r in rs && Truthy(eq(r)) ensures exists y :: y in ys && source(y) == eq(r) {
      var x :| x in xs && key(x) == eq(r);
    }
  }

  /** A stage run chunk by chunk answers for the devices, however they are dealt. */
  lemma SplitAnswers<R>(perChunk: seq<Target> -> seq<R>, eq: R -> Option<string>, devices: seq<Target>, maxWorkers: int)
    requires forall c :: Answers(eq, perChunk(c), Number(), c)
    ensures Answers(eq, FlatMap(perChunk, SplitEven(devices, maxWorkers)), Number(), devices)
  {
    var chunks := SplitEven(devices, maxWorkers);
    SplitEvenMeaning(devices, maxWorkers);
    AnswersOfChunks(perChunk, eq, chunks);
    AnswersPermuted(eq, FlatMap(perChunk, chunks), Number(), FlatMap(Chunk(), chunks), devices);
  }

  function ProbedNumber(): Probed -> Option<string> { (p: Probed) => p.target.equipmentNo }

  lemma PingsAnswer(net: Network, devices: seq<Target>, maxWorkers: int)
    ensures Answers(PingEq(), Collected(net, devices, maxWorkers).pings, Number(), devices)
  {
    forall c ensures Answers(PingEq(), PingChunk(net)(c), Number(), c) {
      AnswersOfLoop(Pinger(net), PingEq(), Number(), c);
    }
    SplitAnswers(PingChunk(net), PingEq(), devices, maxWorkers);
  }

  lemma ProbesAnswer(net: Network, devices: seq<Target>, maxWorkers: int)
    ensures var probes := Collected(net, devices, maxWorkers).probes;
            && Answers(ProbeEq(), FlatMap(ResultOf(), probes), Number(), devices)
            && Answers(Number(), FlatMap(Alive(), probes), Number(), devices)
  {
    forall c ensures Answers(ProbedNumber(), ProbeChunk(net)(c), Number(), c) {
      AnswersOfLoop(ProbeWith(net, Handlers(c)), ProbedNumber(), Number(), c);
    }
    SplitAnswers(ProbeChunk(net), ProbedNumber(), devices, maxWorkers);
    var probes := FlatMap(ProbeChunk(net), SplitEven(devices, maxWorkers));
    forall p | p in probes ensures NamedAfterTarget(p) { ProbedByItsOwnNumber(net, devices, maxWorkers, p); }
    ProbedAnswer(probes, devices);
  }

  ghost predicate NamedAfterTarget(p: Probed) {
    Truthy(p.result.equipmentNo) ==> p.result.equipmentNo == p.target.equipmentNo
  }

  lemma ProbedAnswer(probes: seq<Probed>, devices: seq<Target>)
    requires Answers(ProbedNumber(), probes, Number(), devices) && forall p :: p in probes ==> NamedAfterTarget(p)
    ensures Answers(ProbeEq(), FlatMap(ResultOf(), probes), Number(), devices)
    ensures Answers(Number(), FlatMap(Alive(), probes), Number(), devices)
  {
    AnswersOfLoop(ResultOf(), ProbeEq(), ProbedNumber(), probes);
    AnswersOfLoop(Alive(), Number(), ProbedNumber(), probes);
    AnswersThrough(ProbeEq(), FlatMap(ResultOf(), probes), ProbedNumber(), probes, Number(), devices);
    AnswersThrough(Number(), FlatMap(Alive(), probes), ProbedNumber(), probes, Number(), devices);
  }

  lemma ProbedByItsOwnNumber(net: Network, devices: seq<Target>, maxWorkers: int, p: Probed)
    requires p in Collected(net, devices, maxWorkers).probes
    ensures NamedAfterTarget(p)
  {
    var chunks := SplitEven(devices, maxWorkers);
    FlatMapSource(ProbeChunk(net), chunks, p);
    var i :| 0 <= i < |chunks| && p in ProbeChunk(net)(chunks[i]);
    FlatMapSource(ProbeWith(net, Handlers(chunks[i])), chunks[i], p);
  }

  /** A stage over the SNMP-alive targets. */
  lemma AliveAnswers<R>(net: Network, devices: seq<Target>, maxWorkers: int, perChunk: seq<Target> -> seq<R>,
                        eq: R -> Option<string>)
    requires forall c :: Answers(eq, perChunk(c), Number(), c)
    ensures var alive := FlatMap(Alive(), Collected(net, devices, maxWorkers).probes);
            Answers(eq, FlatMap(perChunk, SplitEven(alive, maxWorkers)), Number(), devices)
  {
    var alive := FlatMap(Alive(), Collected(net, devices, maxWorkers).probes);
    ProbesAnswer(net, devices, maxWorkers);
    SplitAnswers(perChunk, eq, alive, maxWorkers);
    AnswersThrough(eq, FlatMap(perChunk, SplitEven(alive, maxWorkers)), Number(), alive, Number(), devices);
  }

  lemma QueriesAnswer(net: Network, devices: seq<Target>, maxWorkers: int)
    ensures Answers(QueryEq(), Collected(net, devices, maxWorkers).queries, Number(), devices)
  {
    forall c ensures Answers(QueryEq(), QueryChunk(net)(c), Number(), c) {
      AnswersOfLoop(QueryWith(net, Handlers(c)), QueryEq(), Number(), c);
    }
    AliveAnswers(net, devices, maxWorkers, QueryChunk(net), QueryEq());
  }

  lemma InterfacesAnswer(net: Network, devices: seq<Target>, maxWorkers: int)
    ensures Answers(InterfaceEq(), Collected(net, devices, maxWorkers).interfaces, Number(), devices)
  {
    forall c ensures Answers(InterfaceEq(), InterfacesChunk(net)(c), Number(), c) {
      AnswersOfLoop(InterfacesWith(net, Handlers(c)), InterfaceEq(), Number(), c);
    }
    AliveAnswers(net, devices, maxWorkers, InterfacesChunk(net), InterfaceEq());
  }

  /** Every stage of a run has at most one result per device, whichever handler of a shared
      address gave it. */
  lemma RunAnswers(net: Network, devices: seq<Target>, maxWorkers: int)
    ensures var raw := Collected(net, devices, maxWorkers);
            && Answers(PingEq(), raw.pings, Number(), devices)
            && Answers(ProbeEq(), FlatMap(ResultOf(), raw.probes), Number(), devices)
            && Answers(QueryEq(), raw.queries, Number(), devices)
            && Answers(InterfaceEq(), raw.interfaces, Number(), devices)
  {
    PingsAnswer(net, devices, maxWorkers);
    ProbesAnswer(net, devices, maxWorkers);
    QueriesAnswer(net, devices, maxWorkers);
    InterfacesAnswer(net, devices, maxWorkers);
  }

  // ---- One cycle ----------------------------------------------------------------------------

  lemma FromSomeTarget<R>(with: map<string, Target> -> Target -> seq<R>, perChunk: seq<Target> -> seq<R>,
                          chunks: seq<seq<Target>>, r: R) returns (hs: map<string, Target>, t: Target)
    requires forall c :: perChunk(c) == FlatMap(with(Handlers(c)), c)
    requires r in FlatMap(perChunk, chunks)
    ensures r in with(hs)(t)
  {
    FlatMapSource(perChunk, chunks, r);
    var i :| 0 <= i < |chunks| && r in perChunk(chunks[i]);
    hs := Handlers(chunks[i]);
    FlatMapSource(with(hs), chunks[i], r);
    var j :| 0 <= j < |chunks[i]| && r in with(hs)(chunks[i][j]);
    t := chunks[i][j];
  }

  lemma QueriesIndexed(net: Network, chunks: seq<seq<Target>>, r: QueryResult)
    requires AnswersIndexed(net) && r in FlatMap(QueryChunk(net), chunks)
    ensures IndexedQuery(r.query)
  {
    var hs, t := FromSomeTarget(Querying(net), QueryChunk(net), chunks, r);
    QueryIsIndexed(net, HandlerFor(hs, t), t, r);
  }

  lemma QueryIsIndexed(net: Network, handler: Option<Target>, t: Target, r: QueryResult)
    requires AnswersIndexed(net) && r in QueryVia(net, handler, t)
    ensures IndexedQuery(r.query)
  {
    var f := FetcherOf(handler.value);
    assert !f.NoGet? && net.fetch(f, t).Some? && IndexedStats(net.fetch(f, t).value);
  }

  lemma InterfacesIndexed(net: Network, chunks: seq<seq<Target>>, r: InterfaceResult)
    requires AnswersIndexed(net) && r in FlatMap(InterfacesChunk(net), chunks)
    ensures DistinctIndices(IfaceIndex(), r.interfaces)
  {
    var hs, t := FromSomeTarget(Walking(net), InterfacesChunk(net), chunks, r);
    assert r in InterfacesVia(net, HandlerFor(hs, t), t);
  }

  lemma CollectedInputs(net: Network, devices: seq<Target>, maxWorkers: int)
    requires DistinctEquipment(devices) && AnswersIndexed(net)
    ensures var raw := Collected(net, devices, maxWorkers);
            CycleInputs(raw.pings, FlatMap(ResultOf(), raw.probes), raw.queries, raw.interfaces, BuildLookup(devices))
  {
    var raw := Collected(net, devices, maxWorkers);
    var chunks := SplitEven(FlatMap(Alive(), raw.probes), maxWorkers);
    BuiltLookupIsPlain(devices);
    RunAnswers(net, devices, maxWorkers);
    forall r | r in raw.queries ensures IndexedQuery(r.query) { QueriesIndexed(net, chunks, r); }
    forall r | r in raw.interfaces ensures DistinctIndices(IfaceIndex(), r.interfaces) {
      InterfacesIndexed(net, chunks, r);
    }
  }

  lemma KeptDistinct(p: Sample -> bool, xs: seq<Sample>)
    requires DistinctBy(Identity(), xs)
    ensures DistinctBy(Identity(), FlatMap(Keep(p), xs))
  {
    FlatMapDistinct(Keep(p), xs, Identity());
  }

  lemma ShardDistinct(crc: string -> nat, fleet: seq<Target>, index: nat, total: nat)
    requires DistinctEquipment(fleet)
    ensures DistinctEquipment(Shard(crc, fleet, index, total))
  {
    FlatMapDistinct(Keep(InShard(crc, index, total)), fleet, Number());
  }

  /** No two samples of one job's cycle share a series, as long as no two targets share an
      equipment number. Targets may share an address, whatever their handlers. */
  lemma CycleSeriesDistinct(net: Network, crc: string -> nat, fleet: seq<Target>, index: nat, total: nat,
                            priority: Option<Priority>, maxWorkers: int, duration: Option<real>)
    requires DistinctEquipment(fleet) && AnswersIndexed(net)
    ensures DistinctBy(Identity(), CycleOutput(net, crc, fleet, index, total, priority, maxWorkers, duration))
  {
    var devices := Shard(crc, fleet, index, total);
    if devices != [] {
      ShardDistinct(crc, fleet, index, total);
      CollectedInputs(net, devices, maxWorkers);
      var raw := Collected(net, devices, maxWorkers);
      var labels := GuardrailLabels(index, total, priority);
      var probes := FlatMap(ResultOf(), raw.probes);
      var lookup := BuildLookup(devices);
      NoSeriesCollapse(raw.pings, probes, raw.queries, raw.interfaces, lookup, |devices|, |raw.pings|, duration,
                       labels);
      KeptDistinct(TierFilter(priority), Encoded(raw.pings, probes, raw.queries, raw.interfaces, lookup)
                                         + GuardrailSamples(|devices|, |raw.pings|, duration, labels));
    }
  }

  // ---- Jobs never meet --------------------------------------------------------------------

  ghost predicate OwnedIn(s: Sample, devices: seq<Target>) {
    exists t :: t in devices && t.equipmentNo.Some? && Owned(s, t.equipmentNo.value)
  }

  lemma NamesDevice<R>(eq: R -> Option<string>, results: seq<R>, devices: seq<Target>, s: Sample, e: string)
    requires Answers(eq, results, Number(), devices) && Names(eq, results, e) && Owned(s, e)
    ensures OwnedIn(s, devices)
  {
    var r :| r in results && eq(r) == Some(e) && e != "";
    var t :| t in devices && Number()(t) == eq(r);
    assert t.equipmentNo == Some(e);
  }

  lemma EncodedOwnedIn(pings: seq<PingResult>, probes: seq<ProbeResult>, queries: seq<QueryResult>,
                       interfaces: seq<InterfaceResult>, devices: seq<Target>, lookup: DeviceLookup, s: Sample)
    requires Answers(PingEq(), pings, Number(), devices) && Answers(ProbeEq(), probes, Number(), devices)
    requires Answers(QueryEq(), queries, Number(), devices) && Answers(InterfaceEq(), interfaces, Number(), devices)
    requires PlainLookup(lookup) && s in Encoded(pings, probes, queries, interfaces, lookup)
    ensures OwnedIn(s, devices)
  {
    EncodedOwned(pings, probes, queries, interfaces, lookup, s);
    var e := s.labels[EQ];
    if Names(PingEq(), pings, e) {
      NamesDevice(PingEq(), pings, devices, s, e);
    } else if Names(ProbeEq(), probes, e) {
      NamesDevice(ProbeEq(), probes, devices, s, e);
    } else if Names(QueryEq(), queries, e) {
      NamesDevice(QueryEq(), queries, devices, s, e);
    } else {
      NamesDevice(InterfaceEq(), interfaces, devices, s, e);
    }
  }

  /** Whatever the devices and the network, a run's samples are owned by its devices. */
  lemma RunOwned(net: Network, devices: seq<Target>, maxWorkers: int, s: Sample)
    requires s in RunSamples(net, devices, maxWorkers)
    ensures OwnedIn(s, devices)
  {
    var raw := Collected(net, devices, maxWorkers);
    BuiltLookupIsPlain(devices);
    RunAnswers(net, devices, maxWorkers);
    EncodedOwnedIn(raw.pings, FlatMap(ResultOf(), raw.probes), raw.queries, raw.interfaces, devices,
                   BuildLookup(devices), s);
  }

  lemma DeviceMetricsAreTiered(m: Metric)
    requires IsDeviceMetric(m)
    ensures Tier(m) != Always
  {
  }

  lemma RoutedOrigin(encoded: seq<Sample>, guardrails: seq<Sample>, priority: Option<Priority>, s: Sample)
    requires s in FlatMap(Keep(TierFilter(priority)), encoded + guardrails)
    ensures TierFilter(priority)(s) && (s in encoded || s in guardrails)
  {
    FlatMapSource(Keep(TierFilter(priority)), encoded + guardrails, s);
  }

  /** A guardrail of the job, or a sample of a device of its shard and a metric of its tier. */
  ghost predicate FromJob(s: Sample, crc: string -> nat, fleet: seq<Target>, index: nat, total: nat,
                          priority: Option<Priority>) {
    if Tier(s.name) == Always then s.labels == GuardrailLabels(index, total, priority)
    else (priority.Some? ==> Tier(s.name) == priority.value) && OwnedIn(s, Shard(crc, fleet, index, total))
  }

  /** Where a published sample comes from. */
  lemma Origin(net: Network, crc: string -> nat, fleet: seq<Target>, index: nat, total: nat,
               priority: Option<Priority>, maxWorkers: int, duration: Option<real>, s: Sample)
    requires s in CycleOutput(net, crc, fleet, index, total, priority, maxWorkers, duration)
    ensures FromJob(s, crc, fleet, index, total, priority)
  {
    var devices := Shard(crc, fleet, index, total);
    if devices != [] {
      var raw := Collected(net, devices, maxWorkers);
      var labels := GuardrailLabels(index, total, priority);
      var guardrails := GuardrailSamples(|devices|, |raw.pings|, duration, labels);
      RoutedOrigin(RunSamples(net, devices, maxWorkers), guardrails, priority, s);
      if s in RunSamples(net, devices, maxWorkers) {
        RunOwned(net, devices, maxWorkers, s);
        DeviceMetricsAreTiered(s.name);
      } else {
        GuardrailsAreAlways(|devices|, |raw.pings|, duration, labels);
        GuardrailsDistinct(|devices|, |raw.pings|, duration, labels);
      }
    }
  }

  lemma InOneShard(crc: string -> nat, fleet: seq<Target>, index: nat, total: nat, t: Target)
    requires total > 1 && t in Shard(crc, fleet, index, total)
    ensures t.equipmentNo.Some? && crc(t.equipmentNo.value) % total == index
  {
    FlatMapSource(Keep(InShard(crc, index, total)), fleet, t);
  }

  /** One job's cycle: what it read, what its network answered, and when. */
  datatype Job = Job(net: Network, fleet: seq<Target>, index: nat, priority: Priority, maxWorkers: int,
                     duration: Option<real>)

  function Published(crc: string -> nat, total: nat, job: Job): seq<Sample> {
    CycleOutput(job.net, crc, job.fleet, job.index, total, Some(job.priority), job.maxWorkers, job.duration)
  }

  /** Two different jobs of one deployment never publish the same series, even when they read
      the table and asked the network at different times. Nothing is assumed of what they read:
      rows, addresses and answers may repeat. */
  lemma JobsNeverShareASeries(crc: string -> nat, total: nat, a: Job, b: Job, s: Sample, r: Sample)
    requires a.index < total && b.index < total && (a.index, a.priority) != (b.index, b.priority)
    requires s in Published(crc, total, a) && r in Published(crc, total, b)
    ensures Identity()(s) != Identity()(r)
  {
    Origin(a.net, crc, a.fleet, a.index, total, Some(a.priority), a.maxWorkers, a.duration, s);
    Origin(b.net, crc, b.fleet, b.index, total, Some(b.priority), b.maxWorkers, b.duration, r);
    JobsDiffer(crc, total, a.fleet, a.index, a.priority, s, b.fleet, b.index, b.priority, r);
  }

  lemma JobsDiffer(crc: string -> nat, total: nat, x: seq<Target>, i: nat, p: Priority, s: Sample,
                   y: seq<Target>, j: nat, q: Priority, r: Sample)
    requires i < total && j < total && (i, p) != (j, q)
    requires FromJob(s, crc, x, i, total, Some(p)) && FromJob(r, crc, y, j, total, Some(q))
    ensures Identity()(s) != Identity()(r)
  {
    GuardrailIdentityIff(total, i, Some(p), j, Some(q));
    if Tier(s.name) != Always && Tier(r.name) != Always && i != j {
      ShardsShareNoDevice(crc, total, x, i, s, y, j, r);
    }
  }

  /** Device samples of different shards carry different equipment numbers. */
  lemma ShardsShareNoDevice(crc: string -> nat, total: nat, x: seq<Target>, i: nat, s: Sample, y: seq<Target>, j: nat,
                            r: Sample)
    requires i < total && j < total && i != j
    requires OwnedIn(s, Shard(crc, x, i, total)) && OwnedIn(r, Shard(crc, y, j, total))
    ensures s.labels != r.labels
  {
    var t :| t in Shard(crc, x, i, total) && t.equipmentNo.Some? && Owned(s, t.equipmentNo.value);
    var u :| u in Shard(crc, y, j, total) && u.equipmentNo.Some? && Owned(r, u.equipmentNo.value);
    InOneShard(crc, x, i, total, t);
    InOneShard(crc, y, j, total, u);
  }

  // ---- Guardrails never vanish ----------------------------------------------------------------

  predicate IsCoverage(m: Metric) {
    m == SnmpDevicesTargeted || m == SnmpDevicesPolled || m == SnmpCoverageRatio
  }

  /** `out` holds exactly one sample of metric `m`, with these labels and this value. */
  ghost predicate OnceIn(out: seq<Sample>, m: Metric, labels: Labels, value: real) {
    exists i :: 0 <= i < |out| && out[i] == Sample(m, value, labels)
                && forall k :: 0 <= k < |out| && out[k].name == m ==> k == i
  }

  /** The guardrails of a cycle with targets pass every tier filter, behind the device samples. */
  lemma RoutedGuardrails(encoded: seq<Sample>, n: nat, duration: Option<real>, labels: Labels,
                         priority: Option<Priority>, m: Metric)
    requires n > 0 && forall s :: s in encoded ==> IsDeviceMetric(s.name)
    ensures var out := FlatMap(Keep(TierFilter(priority)), encoded + GuardrailSamples(n, n, duration, labels));
            && (IsCoverage(m) ==> OnceIn(out, m, labels, if m == SnmpCoverageRatio then 1.0 else n as real))
            && (m == SnmpCycleDurationSeconds ==>
                  if duration.Some? then OnceIn(out, m, labels, duration.value)
                  else forall s :: s in out ==> s.name != m)
  {
    var p := TierFilter(priority);
    FlatMapAppend(Keep(p), encoded, GuardrailSamples(n, n, duration, labels));
    GuardrailsPass(n, n, duration, labels, priority);
    KeptAreDevices(p, encoded);
    if IsCoverage(m) { CoverageOnce(FlatMap(Keep(p), encoded), n, duration, labels, m); }
    if m == SnmpCycleDurationSeconds { DurationOnce(FlatMap(Keep(p), encoded), n, duration, labels); }
  }

  lemma GuardrailsPass(targeted: nat, polled: nat, duration: Option<real>, labels: Labels, priority: Option<Priority>)
    ensures var guardrails := GuardrailSamples(targeted, polled, duration, labels);
            FlatMap(Keep(TierFilter(priority)), guardrails) == guardrails
  {
    GuardrailsAreAlways(targeted, polled, duration, labels);
    KeepAll(TierFilter(priority), GuardrailSamples(targeted, polled, duration, labels));
  }

  lemma KeptAreDevices(p: Sample -> bool, encoded: seq<Sample>)
    requires forall s :: s in encoded ==> IsDeviceMetric(s.name)
    ensures forall s :: s in FlatMap(Keep(p), encoded) ==> IsDeviceMetric(s.name)
  {
    forall s: Sample | s in FlatMap(Keep(p), encoded) ensures IsDeviceMetric(s.name) {
      FlatMapSource(Keep(p), encoded, s);
    }
  }

  lemma CoverageOnce(kept: seq<Sample>, n: nat, duration: Option<real>, labels: Labels, m: Metric)
    requires n > 0 && IsCoverage(m) && forall s :: s in kept ==> IsDeviceMetric(s.name)
    ensures OnceIn(kept + GuardrailSamples(n, n, duration, labels), m, labels,
                   if m == SnmpCoverageRatio then 1.0 else n as real)
  {
    var guardrails := GuardrailSamples(n, n, duration, labels);
    var i := |kept| + if m == SnmpDevicesTargeted then 0 else if m == SnmpDevicesPolled then 1 else 2;
    var out := kept + guardrails;
    assert n as real / n as real == 1.0;
    assert out[i] == guardrails[i - |kept|];
    forall k | 0 <= k < |out| ensures out[k].name == m ==> k == i {
      if k < |kept| { assert out[k] in kept; } else { assert out[k] == guardrails[k - |kept|]; }
    }
  }

  lemma DurationOnce(kept: seq<Sample>, n: nat, duration: Option<real>, labels: Labels)
    requires n > 0 && forall s :: s in kept ==> IsDeviceMetric(s.name)
    ensures var out := kept + GuardrailSamples(n, n, duration, labels);
            if duration.Some? then OnceIn(out, SnmpCycleDurationSeconds, labels, duration.value)
            else forall s :: s in out ==> s.name != SnmpCycleDurationSeconds
  {
    var guardrails := GuardrailSamples(n, n, duration, labels);
    var out := kept + guardrails;
    forall k | 0 <= k < |out|
      ensures out[k].name == SnmpCycleDurationSeconds ==> duration.Some? && k == |kept| + 3
    {
      if k < |kept| { assert out[k] in kept; } else { assert out[k] == guardrails[k - |kept|]; }
    }
    if duration.Some? { assert out[|kept| + 3] == guardrails[3]; }
  }

  /** The labels that tell the emitters of guardrails apart: the shard's number when there are
      several, and the requested tier unless all are. */
  ghost predicate EmitterLabels(labels: Labels, index: nat, total: nat, priority: Option<Priority>) {
    && ("shard" in labels <==> total > 1) && (total > 1 ==> labels["shard"] == IntText(index))
    && ("tier" in labels <==> priority.Some?)
    && (priority == Some(Critical) ==> labels["tier"] == "critical")
    && (priority == Some(High) ==> labels["tier"] == "high")
    && (priority == Some(Medium) ==> labels["tier"] == "medium") && (priority == Some(Low) ==> labels["tier"] == "low")
    && labels.Keys <= {"shard", "tier"}
  }

  lemma GuardrailLabelsMeaning(index: nat, total: nat, priority: Option<Priority>)
    ensures EmitterLabels(GuardrailLabels(index, total, priority), index, total, priority)
  {
    assert "shard" != "tier" by { assert |"shard"| == 5 && |"tier"| == 4; }
  }

  /** Every cycle, even one with nothing to target, publishes each coverage guardrail exactly
      once, under every tier: its number of targets, as many polled, and a ratio of one, or of
      zero when there was nothing to target. */
  lemma GuardrailsNeverVanish(net: Network, crc: string -> nat, fleet: seq<Target>, index: nat, total: nat,
                              priority: Option<Priority>, maxWorkers: int, duration: Option<real>, m: Metric)
    requires IsCoverage(m)
    ensures var n, labels := |Shard(crc, fleet, index, total)|, GuardrailLabels(index, total, priority);
            && EmitterLabels(labels, index, total, priority)
            && OnceIn(CycleOutput(net, crc, fleet, index, total, priority, maxWorkers, duration), m, labels,
                      if m != SnmpCoverageRatio then n as real else if n > 0 then 1.0 else 0.0)
  {
    var devices := Shard(crc, fleet, index, total);
    var labels := GuardrailLabels(index, total, priority);
    GuardrailLabelsMeaning(index, total, priority);
    if devices == [] {
      var zero := ZeroGuardrails(labels);
      assert zero[if m == SnmpDevicesTargeted then 0 else if m == SnmpDevicesPolled then 1 else 2].name == m;
    } else {
      var run := RunSamples(net, devices, maxWorkers);
      forall s: Sample | s in run ensures IsDeviceMetric(s.name) { RunIsOfDevices(net, devices, maxWorkers, s); }
      PolledIsTargeted(net, devices, maxWorkers);
      RoutedGuardrails(run, |devices|, duration, labels, priority, m);
    }
  }

  /** A cycle with targets and a known duration publishes that duration exactly once; no other
      cycle publishes one. */
  lemma DurationPublished(net: Network, crc: string -> nat, fleet: seq<Target>, index: nat, total: nat,
                          priority: Option<Priority>, maxWorkers: int, duration: Option<real>)
    ensures var out := CycleOutput(net, crc, fleet, index, total, priority, maxWorkers, duration);
            if Shard(crc, fleet, index, total) != [] && duration.Some?
            then OnceIn(out, SnmpCycleDurationSeconds, GuardrailLabels(index, total, priority), duration.value)
            else forall s :: s in out ==> s.name != SnmpCycleDurationSeconds
  {
    var devices := Shard(crc, fleet, index, total);
    if devices != [] {
      var run := RunSamples(net, devices, maxWorkers);
      forall s: Sample | s in run ensures IsDeviceMetric(s.name) { RunIsOfDevices(net, devices, maxWorkers, s); }
      PolledIsTargeted(net, devices, maxWorkers);
      RoutedGuardrails(run, |devices|, duration, GuardrailLabels(index, total, priority), priority,
                       SnmpCycleDurationSeconds);
    }
  }

  lemma {:induction false} OnePingEach(net: Network, devices: seq<Target>)
    ensures |FlatMap(Pinger(net), devices)| == |devices|
  {
    if devices != [] {
      OnePingEach(net, devices[..|devices| - 1]);
    }
  }

  lemma PolledIsTargeted(net: Network, devices: seq<Target>, maxWorkers: int)
    ensures |Collected(net, devices, maxWorkers).pings| == |devices|
  {
    ChunksPermute(devices, maxWorkers, PingChunk(net), Pinger(net));
    SameLength(FlatMap(PingChunk(net), SplitEven(devices, maxWorkers)), FlatMap(Pinger(net), devices));
    OnePingEach(net, devices);
  }

  /** The ping stage answers for every target, reachable or not, so every coverage ratio that
      a cycle with targets publishes is 1, whatever the network does. */
  lemma CoverageIsAlwaysFull(net: Network, crc: string -> nat, fleet: seq<Target>, index: nat, total: nat,
                             priority: Option<Priority>, maxWorkers: int, duration: Option<real>, s: Sample)
    requires Shard(crc, fleet, index, total) != []
    requires s in CycleOutput(net, crc, fleet, index, total, priority, maxWorkers, duration)
             && s.name == SnmpCoverageRatio
    ensures s.value == 1.0
  {
    GuardrailsNeverVanish(net, crc, fleet, index, total, priority, maxWorkers, duration, SnmpCoverageRatio);
  }

  lemma RunIsOfDevices(net: Network, devices: seq<Target>, maxWorkers: int, s: Sample)
    requires s in RunSamples(net, devices, maxWorkers)
    ensures IsDeviceMetric(s.name)
  {
    RunOwned(net, devices, maxWorkers, s);
    OwnedIsDevice(s, devices);
  }

  lemma OwnedIsDevice(s: Sample, devices: seq<Target>)
    requires OwnedIn(s, devices)
    ensures IsDeviceMetric(s.name)
  {
  }

  // ---- Cycle counts -------------------------------------------------------------------------

  /** How many of `xs` satisfy `p`. */
  function Count<A>(p: A -> bool, xs: seq<A>): nat {
    |FlatMap(Keep(p), xs)|
  }

  lemma {:induction false} CountSplits<A>(p: A -> bool, q: A -> bool, xs: seq<A>)
    requires forall x :: x in xs ==> q(x) == !p(x)
    ensures Count(p, xs) + Count(q, xs) == |xs|
  {
    if xs != [] {
      CountSplits(p, q, xs[..|xs| - 1]);
    }
  }

  function IsUp(): ProbeResult -> bool { (r: ProbeResult) => r.up }
  function IsFailedEquipment(): ProbeResult -> bool { (r: ProbeResult) => !r.up && Truthy(r.equipmentNo) }

  lemma ProbedOnce(net: Network, t: Target)
    requires ValidTarget(t)
    ensures |ProbeOf(net)(t)| == 1 && ProbeOf(net)(t)[0].equipmentNo == t.equipmentNo
  {
    NoneIfBlankIsFixed(t.equipmentNo);
    assert SoloProbe(net)(t) == [ProbeVia(net, Some(t), t)];
    FlatMapOne(ResultOf(), ProbeVia(net, Some(t), t));
  }

  lemma ProbeIsNamed(net: Network, t: Target, r: ProbeResult)
    requires ValidTarget(t) && r in ProbeOf(net)(t)
    ensures Truthy(r.equipmentNo)
  {
    ProbedOnce(net, t);
    NoneIfBlankIsFixed(t.equipmentNo);
  }

  /** One probe result per target, each naming its equipment. */
  lemma ProbesAreNamed(net: Network, devices: seq<Target>, probes: seq<ProbeResult>)
    requires ValidTargets(devices) && multiset(probes) == multiset(FlatMap(ProbeOf(net), devices))
    ensures |probes| == |devices| && forall r :: r in probes ==> Truthy(r.equipmentNo)
  {
    SameLength(probes, FlatMap(ProbeOf(net), devices));
    OneProbeEach(net, devices);
    forall r | r in probes ensures Truthy(r.equipmentNo) {
      assert r in multiset(probes);
      FlatMapSource(ProbeOf(net), devices, r);
      var i :| 0 <= i < |devices| && r in ProbeOf(net)(devices[i]);
      ProbeIsNamed(net, devices[i], r);
    }
  }

  /** The cycle summary's `unreachable_targets`: targets not polled that are not failed
      equipment. Loaded targets all carry an equipment number, so there are none. */
  lemma NoUnreachableTargets(net: Network, devices: seq<Target>, maxWorkers: int)
    requires ValidTargets(devices)
    ensures var probes := FlatMap(ResultOf(), Collected(net, devices, maxWorkers).probes);
            |devices| - Count(IsUp(), probes) - Count(IsFailedEquipment(), probes) == 0
  {
    var probed := Collected(net, devices, maxWorkers).probes;
    ProbesPermute(net, devices, maxWorkers);
    FlatMapPermutes(ResultOf(), probed, FlatMap(SoloProbe(net), devices));
    FlatMapCompose(SoloProbe(net), ResultOf(), ProbeOf(net), devices);
    ProbesAreNamed(net, devices, FlatMap(ResultOf(), probed));
    CountSplits(IsUp(), IsFailedEquipment(), FlatMap(ResultOf(), probed));
  }

  lemma {:induction false} OneProbeEach(net: Network, devices: seq<Target>)
    requires ValidTargets(devices)
    ensures |FlatMap(ProbeOf(net), devices)| == |devices|
  {
    if devices != [] {
      OneProbeEach(net, devices[..|devices| - 1]);
      assert ValidTarget(devices[|devices| - 1]);
      ProbedOnce(net, devices[|devices| - 1]);
    }
  }

  // ---- From the network to the backend --------------------------------------------------------

  /** The samples as handed to the publisher: each label dictionary as its items, in any order. */
  ghost predicate Presents(raws: seq<P.Raw<Metric>>, samples: seq<Sample>) {
    |raws| == |samples| && forall i :: 0 <= i < |raws| ==>
      raws[i].name == samples[i].name && raws[i].value == samples[i].value
      && P.DictItems(raws[i].items) && P.LabelMap(raws[i].items) == samples[i].labels
  }

  lemma DistinctIsConsistent(raws: seq<P.Raw<Metric>>, samples: seq<Sample>)
    requires Presents(raws, samples) && DistinctBy(Identity(), samples)
    ensures P.Consistent(raws)
  {
    forall r, s | r in raws && s in raws && r.name == s.name && P.LabelMap(r.items) == P.LabelMap(s.items)
      ensures r.value == s.value
    {
      var i := PresentedAt(raws, samples, r);
      var j := PresentedAt(raws, samples, s);
      SameSeries(samples, i, j);
    }
  }

  lemma PresentedAt(raws: seq<P.Raw<Metric>>, samples: seq<Sample>, r: P.Raw<Metric>) returns (i: nat)
    requires Presents(raws, samples) && r in raws
    ensures i < |samples| && samples[i] == Sample(r.name, r.value, P.LabelMap(r.items))
  {
    i :| i < |raws| && raws[i] == r;
  }

  lemma SameSeries(samples: seq<Sample>, i: nat, j: nat)
    requires DistinctBy(Identity(), samples) && i < |samples| && j < |samples|
    requires samples[i].name == samples[j].name && samples[i].labels == samples[j].labels
    ensures i == j
  {
    assert Identity()(samples[i]) == Identity()(samples[j]);
  }

  lemma CycleKeyed(net: Network, crc: string -> nat, fleet: seq<Target>, index: nat, total: nat,
                   priority: Option<Priority>, maxWorkers: int, duration: Option<real>)
    ensures Keyed(CycleOutput(net, crc, fleet, index, total, priority, maxWorkers, duration))
  {
    var devices := Shard(crc, fleet, index, total);
    if devices != [] {
      var raw := Collected(net, devices, maxWorkers);
      BuiltLookupIsKeyed(devices);
      EncodedKeyed(raw.pings, FlatMap(ResultOf(), raw.probes), raw.queries, raw.interfaces, BuildLookup(devices));
      RoutedKeyed(RunSamples(net, devices, maxWorkers), |devices|, |raw.pings|, duration, index, total, priority);
    }
  }

  lemma RoutedKeyed(encoded: seq<Sample>, targeted: nat, polled: nat, duration: Option<real>, index: nat, total: nat,
                    priority: Option<Priority>)
    requires Keyed(encoded)
    ensures Keyed(FlatMap(Keep(TierFilter(priority)),
                          encoded + GuardrailSamples(targeted, polled, duration,
                                                     GuardrailLabels(index, total, priority))))
  {
    FlatMapKeyed(Keep(TierFilter(priority)),
                 encoded + GuardrailSamples(targeted, polled, duration, GuardrailLabels(index, total, priority)));
  }

  lemma KeyedNeverCollides(globals: map<string, string>, raws: seq<P.Raw<Metric>>, samples: seq<Sample>)
    requires Presents(raws, samples) && Keyed(samples) && globals.Keys <= GLOBAL_KEYS
    ensures !P.Collides(globals, raws)
  {
    KeysAreDisjoint();
    forall r, k | r in raws && k in P.LabelMap(r.items) ensures k !in globals {
      var i :| 0 <= i < |raws| && raws[i] == r;
      assert Keyed(samples) && samples[i] in samples;
    }
  }

  /** With the deployment's own global labels the collision guard never fires, and last-wins
      grouping loses nothing: every sample of a cycle is exported, with its own value and its
      labels plus the global ones. */
  lemma {:induction false} CycleExportsEverySample(net: Network, crc: string -> nat, fleet: seq<Target>, index: nat,
                                                   total: nat,
                                priority: Option<Priority>, maxWorkers: int, duration: Option<real>,
                                globals: map<string, string>, raws: seq<P.Raw<Metric>>)
    requires DistinctEquipment(fleet) && AnswersIndexed(net) && globals.Keys <= GLOBAL_KEYS
    requires Presents(raws, CycleOutput(net, crc, fleet, index, total, priority, maxWorkers, duration))
    ensures !P.Collides(globals, raws)
    ensures forall s :: s in CycleOutput(net, crc, fleet, index, total, priority, maxWorkers, duration) ==>
              s.name in P.Grouped(raws)
              && P.Observation(s.value, globals + s.labels) in P.Export(globals, P.Grouped(raws)[s.name])
  {
    CycleSeriesDistinct(net, crc, fleet, index, total, priority, maxWorkers, duration);
    CycleKeyed(net, crc, fleet, index, total, priority, maxWorkers, duration);
    KeyedNeverCollides(globals, raws, CycleOutput(net, crc, fleet, index, total, priority, maxWorkers, duration));
    PresentedIsExported(globals, raws, CycleOutput(net, crc, fleet, index, total, priority, maxWorkers, duration));
  }

  lemma PresentedIsExported(globals: map<string, string>, raws: seq<P.Raw<Metric>>, samples: seq<Sample>)
    requires Presents(raws, samples) && DistinctBy(Identity(), samples) && !P.Collides(globals, raws)
    ensures forall s :: s in samples ==>
              s.name in P.Grouped(raws)
                && P.Observation(s.value, globals + s.labels) in P.Export(globals, P.Grouped(raws)[s.name])
  {
    DistinctIsConsistent(raws, samples);
    P.EverySampleExportedIff(globals, raws);
    forall s | s in samples
      ensures s.name in P.Grouped(raws)
              && P.Observation(s.value, globals + s.labels) in P.Export(globals, P.Grouped(raws)[s.name])
    {
      var i :| 0 <= i < |samples| && samples[i] == s;
      assert raws[i] in raws;
    }
  }
}
