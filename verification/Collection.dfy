/** The staged collection of `_get_snmp_raw`: targets are dealt round-robin to worker
    chunks, each chunk builds its own address-to-handler map, and the stages' results
    are concatenated. */
module Collection {
  import opened Common
  import opened Text
  import opened Targets
  import opened Dispatch

  // ---- Round-robin split ----------------------------------------------------------

  /** The items dealt to chunk `j` of `n`. */
  function Dealt<A>(items: seq<A>, n: nat, j: nat): seq<A>
    requires n > 0
  {
    if items == [] then []
    else
      var k := |items| - 1;
      Dealt(items[..k], n, j) + (if k % n == j then [items[k]] else [])
  }

  function WorkerCount(maxWorkers: int, items: nat): nat {
    Min(if maxWorkers < 1 then 1 else maxWorkers, items)
  }

  function SplitEven<A>(items: seq<A>, maxWorkers: int): seq<seq<A>> {
    var n := WorkerCount(maxWorkers, |items|);
    if n == 0 then [] else DealtAll(items, n)
  }

  method SplitEvenly<A>(items: seq<A>, maxWorkers: int) returns (chunks: seq<seq<A>>)
    ensures chunks == SplitEven(items, maxWorkers)
  {
    if items == [] {
      return [];
    }
    var n := WorkerCount(maxWorkers, |items|);
    chunks := seq(n, j => []);
    for i := 0 to |items|
      invariant |chunks| == n
      invariant forall j :: 0 <= j < n ==> chunks[j] == Dealt(items[..i], n, j)
    {
      assert items[..i + 1][..i] == items[..i];
      chunks := chunks[i % n := chunks[i % n] + [items[i]]];
    }
    assert items[..|items|] == items;
    assert chunks == SplitEven(items, maxWorkers);
  }

  function Chunk<A>(): seq<A> -> seq<A> {
    (c: seq<A>) => c
  }

  /** Growing one chunk by an item grows the whole by that item. */
  lemma GrowChunk<A>(chunks: seq<seq<A>>, i: nat, x: A)
    requires i < |chunks|
    ensures multiset(FlatMap(Chunk(), chunks[i := chunks[i] + [x]])) == multiset(FlatMap(Chunk(), chunks)) + multiset{x}
  {
    var grown := chunks[i := chunks[i] + [x]];
    FlatMapRemove(Chunk(), chunks, i);
    FlatMapRemove(Chunk(), grown, i);
    assert grown[..i] + grown[i + 1..] == chunks[..i] + chunks[i + 1..];
    MultisetSwap(multiset(FlatMap(Chunk(), chunks[..i] + chunks[i + 1..])), multiset(chunks[i]), multiset{x});
  }

  function DealtAll<A>(items: seq<A>, n: nat): seq<seq<A>>
    requires n > 0
  {
    seq(n, j requires 0 <= j < n => Dealt(items, n, j))
  }

  lemma DealtAllSnoc<A>(items: seq<A>, n: nat)
    requires n > 0 && items != []
    ensures var k := |items| - 1;
            var before := DealtAll(items[..k], n);
            DealtAll(items, n) == before[k % n := before[k % n] + [items[k]]]
  {
    var k := |items| - 1;
    forall j | 0 <= j < n
      ensures Dealt(items, n, j) == if j == k % n then Dealt(items[..k], n, j) + [items[k]] else Dealt(items[..k], n, j)
    {
    }
  }

  lemma {:induction false} DealtIsLossless<A>(items: seq<A>, n: nat)
    requires n > 0
    ensures multiset(FlatMap(Chunk(), DealtAll(items, n))) == multiset(items)
  {
    if items == [] {
      NothingToDo(Chunk(), DealtAll(items, n));
    } else {
      var k := |items| - 1;
      DealtIsLossless(items[..k], n);
      DealtAllSnoc(items, n);
      GrowChunk(DealtAll(items[..k], n), k % n, items[k]);
      MultisetSnoc(items);
    }
  }

  lemma DivModStep(k: nat, n: nat)
    requires n > 0
    ensures (k + 1) / n == if k % n == n - 1 then k / n + 1 else k / n
    ensures (k + 1) % n == if k % n == n - 1 then 0 else k % n + 1
  {
    var q, r := k / n, k % n;
    assert k == n * q + r;
    if r == n - 1 {
      assert k + 1 == n * (q + 1) + 0;
      DivModUnique(k + 1, n, q + 1, 0);
    } else {
      assert k + 1 == n * q + (r + 1);
      DivModUnique(k + 1, n, q, r + 1);
    }
  }

  lemma DivModUnique(k: nat, n: nat, q: nat, r: nat)
    requires n > 0 && k == n * q + r && r < n
    ensures k / n == q && k % n == r
  {
    var d := k / n - q;
    assert k == n * (k / n) + k % n;
    assert n * d == n * (k / n) - n * q;
    MulBound(n, d);
  }

  lemma MulBound(n: nat, d: int)
    ensures d >= 1 ==> n * d >= n
    ensures d <= -1 ==> n * d + n <= 0
  {
    if d >= 1 {
      assert n * d == n * (d - 1) + n;
    } else if d <= -1 {
      assert n * d == -(n * (-d - 1)) - n;
    }
  }

  lemma {:induction false} DealtSize<A>(items: seq<A>, n: nat, j: nat)
    requires n > 0 && j < n
    ensures |Dealt(items, n, j)| == |items| / n + (if j < |items| % n then 1 else 0)
  {
    if items != [] {
      DealtSize(items[..|items| - 1], n, j);
      DivModStep(|items| - 1, n);
    } else {
      DivModUnique(0, n, 0, 0);
    }
  }

  lemma {:induction false} DealtKeepsItems<A>(items: seq<A>, n: nat, j: nat, x: A)
    requires n > 0
    ensures x in Dealt(items, n, j) ==> x in items
  {
    if items != [] {
      DealtKeepsItems(items[..|items| - 1], n, j, x);
    }
  }

  /** The split is a lossless interleaving into non-empty chunks whose sizes differ by at
      most one. */
  lemma SplitEvenMeaning<A>(items: seq<A>, maxWorkers: int)
    ensures var chunks := SplitEven(items, maxWorkers);
            && |chunks| == WorkerCount(maxWorkers, |items|)
            && multiset(FlatMap(Chunk(), chunks)) == multiset(items)
            && (forall c :: c in chunks ==> c != [] && forall x :: x in c ==> x in items)
            && (forall c, d :: c in chunks && d in chunks ==> |c| <= |d| + 1)
  {
    var n := WorkerCount(maxWorkers, |items|);
    if n > 0 {
      DealtIsLossless(items, n);
      forall j | 0 <= j < n
        ensures |items| / n <= |Dealt(items, n, j)| <= |items| / n + 1 && Dealt(items, n, j) != []
        ensures forall x :: x in Dealt(items, n, j) ==> x in items
      {
        DealtSize(items, n, j);
        AtLeastOne(|items|, n);
        forall x | x in Dealt(items, n, j) ensures x in items { DealtKeepsItems(items, n, j, x); }
      }
    }
  }

  lemma AtLeastOne(k: nat, n: nat)
    requires 0 < n <= k
    ensures k / n >= 1
  {
    var q := k / n;
    assert k == n * q + k % n;
    assert q == 0 ==> n * q == 0;
  }

  // ---- Handlers and stages -------------------------------------------------------------

  /** What the addresses of the targets answer. Ping, probe and interface walk are the same
      whatever handler sends them; the stats depend on what the handler's class asks for. */
  datatype Network = Network(
    ping: Target -> Reply,
    probeUp: Target -> bool,
    fetch: (Fetcher, Target) -> Option<Stats>,
    interfaces: Target -> seq<Iface>)

  datatype Reply = Reply(up: bool, rttMs: Option<real>)

  function Address(t: Target): Option<string> {
    NoneIfBlank(t.ip)
  }

  /** Address to handler; the first target with an address wins. */
  function Handlers(chunk: seq<Target>): map<string, Target> {
    if chunk == [] then map[]
    else
      var before := Handlers(chunk[..|chunk| - 1]);
      var t := chunk[|chunk| - 1];
      if Address(t).Some? && Address(t).value !in before then before[Address(t).value := t] else before
  }

  method BuildHandlers(chunk: seq<Target>) returns (handlers: map<string, Target>)
    ensures handlers == Handlers(chunk)
  {
    handlers := map[];
    for i := 0 to |chunk|
      invariant handlers == Handlers(chunk[..i])
    {
      assert chunk[..i + 1][..i] == chunk[..i];
      var ip := Address(chunk[i]);
      if ip.None? {
        continue;
      }
      if ip.value in handlers {
        continue;
      }
      handlers := handlers[ip.value := chunk[i]];
    }
    assert chunk[..|chunk|] == chunk;
  }

  function HandlerFor(handlers: map<string, Target>, t: Target): Option<Target> {
    if Truthy(t.equipmentNo) && Truthy(t.ip) && t.ip.value in handlers then Some(handlers[t.ip.value]) else None
  }

  function Pinger(net: Network): Target -> seq<PingResult> {
    (t: Target) =>
      [if !Truthy(t.equipmentNo) then PingResult(None, false, None)
       else if !Truthy(t.ip) then PingResult(t.equipmentNo, false, None)
       else PingResult(t.equipmentNo, net.ping(t).up, if net.ping(t).up then net.ping(t).rttMs else None)]
  }

  /** The probed target rides along, as the result's device does. */
  datatype Probed = Probed(target: Target, result: ProbeResult)

  function ProbeVia(net: Network, handler: Option<Target>, t: Target): Probed {
    Probed(t, if !Truthy(t.equipmentNo) then ProbeResult(None, false)
              else if handler.None? then ProbeResult(t.equipmentNo, false)
              else ProbeResult(t.equipmentNo, net.probeUp(t)))
  }

  /** The generic handler's stats are always empty. */
  function StatsFor(net: Network, fetcher: Fetcher, t: Target): Option<Stats> {
    if fetcher.NoGet? then None else net.fetch(fetcher, t)
  }

  function QueryVia(net: Network, handler: Option<Target>, t: Target): seq<QueryResult> {
    if handler.None? || FamilyOf(t).None? || StatsFor(net, FetcherOf(handler.value), t).None? then []
    else [QueryResult(t.equipmentNo, ReadAs(FamilyOf(t).value, StatsFor(net, FetcherOf(handler.value), t).value))]
  }

  function InterfacesVia(net: Network, handler: Option<Target>, t: Target): seq<InterfaceResult> {
    if handler.None? || net.interfaces(t) == [] then []
    else [InterfaceResult(t.equipmentNo, net.interfaces(t))]
  }

  function ProbeWith(net: Network, handlers: map<string, Target>): Target -> seq<Probed> {
    (t: Target) => [ProbeVia(net, HandlerFor(handlers, t), t)]
  }

  function QueryWith(net: Network, handlers: map<string, Target>): Target -> seq<QueryResult> {
    (t: Target) => QueryVia(net, HandlerFor(handlers, t), t)
  }

  function InterfacesWith(net: Network, handlers: map<string, Target>): Target -> seq<InterfaceResult> {
    (t: Target) => InterfacesVia(net, HandlerFor(handlers, t), t)
  }

  function Alive(): Probed -> seq<Target> {
    (p: Probed) => if p.result.up && Truthy(p.result.equipmentNo) then [p.target] else []
  }

  function ProbeChunk(net: Network): seq<Target> -> seq<Probed> {
    (c: seq<Target>) => FlatMap(ProbeWith(net, Handlers(c)), c)
  }

  function QueryChunk(net: Network): seq<Target> -> seq<QueryResult> {
    (c: seq<Target>) => FlatMap(QueryWith(net, Handlers(c)), c)
  }

  function InterfacesChunk(net: Network): seq<Target> -> seq<InterfaceResult> {
    (c: seq<Target>) => FlatMap(InterfacesWith(net, Handlers(c)), c)
  }

  function PingChunk(net: Network): seq<Target> -> seq<PingResult> {
    (c: seq<Target>) => FlatMap(Pinger(net), c)
  }

  datatype Raw = Raw(pings: seq<PingResult>, probes: seq<Probed>, queries: seq<QueryResult>,
                     interfaces: seq<InterfaceResult>)

  /** The four stages, with a barrier and a fresh split between them. Interface results come
      back in completion order, so only their multiset is meaningful. */
  function Collected(net: Network, devices: seq<Target>, maxWorkers: int): Raw {
    var probes := FlatMap(ProbeChunk(net), SplitEven(devices, maxWorkers));
    var alive := FlatMap(Alive(), probes);
    Raw(FlatMap(PingChunk(net), SplitEven(devices, maxWorkers)), probes,
        FlatMap(QueryChunk(net), SplitEven(alive, maxWorkers)),
        FlatMap(InterfacesChunk(net), SplitEven(alive, maxWorkers)))
  }

  method Collect(net: Network, devices: seq<Target>, maxWorkers: int) returns (raw: Raw)
    ensures raw == Collected(net, devices, maxWorkers)
  {
    var chunks := SplitEvenly(devices, maxWorkers);
    var pings := AppendAll(PingChunk(net), chunks);
    var probes := AppendAll(ProbeChunk(net), chunks);
    var alive := AppendAll(Alive(), probes);
    var aliveChunks := SplitEvenly(alive, maxWorkers);
    var queries := AppendAll(QueryChunk(net), aliveChunks);
    var interfaces := AppendAll(InterfacesChunk(net), aliveChunks);
    raw := Raw(pings, probes, queries, interfaces);
  }

  // ---- Worker-count independence -----------------------------------------------------------

  lemma {:induction false} HandlersMeaning(chunk: seq<Target>, ip: string)
    ensures ip in Handlers(chunk) <==> exists t :: t in chunk && Address(t) == Some(ip)
    ensures ip in Handlers(chunk) ==> Handlers(chunk)[ip] in chunk && Address(Handlers(chunk)[ip]) == Some(ip)
  {
    if chunk != [] {
      HandlersMeaning(chunk[..|chunk| - 1], ip);
    }
  }

  /** The handler of an address is that of the first target bearing it. */
  lemma {:induction false} FirstHandlerWins(chunk: seq<Target>, i: nat)
    requires i < |chunk| && Address(chunk[i]).Some?
    requires forall j :: 0 <= j < i ==> Address(chunk[j]) != Address(chunk[i])
    ensures Address(chunk[i]).value in Handlers(chunk) && Handlers(chunk)[Address(chunk[i]).value] == chunk[i]
  {
    var n := |chunk| - 1;
    if i < n {
      FirstHandlerWins(chunk[..n], i);
    } else {
      HandlersMeaning(chunk[..n], Address(chunk[i]).value);
    }
  }

  /** Handler `h` asks for `t` what `t`'s own would, if `t` is queried at all. */
  ghost predicate Serves(h: Target, t: Target) {
    FamilyOf(t).Some? ==> FetcherOf(h) == FetcherOf(t)
  }

  /** No queried target shares its address with one whose handler asks for something else. */
  ghost predicate HandlersAgree(devices: seq<Target>) {
    forall a, b :: a in devices && b in devices && a.ip == b.ip ==> Serves(a, b)
  }

  /** Handlers at one address get, for every queried target there, what its own would. */
  ghost predicate AnsweredAlike(net: Network, devices: seq<Target>) {
    forall a, b :: a in devices && b in devices && a.ip == b.ip ==>
      QueryVia(net, Some(a), b) == QueryVia(net, Some(b), b)
  }

  /** The stage functions when every target has its own handler. */
  function SoloProbe(net: Network): Target -> seq<Probed> {
    (t: Target) => [ProbeVia(net, Some(t), t)]
  }

  function SoloQuery(net: Network): Target -> seq<QueryResult> {
    (t: Target) => QueryVia(net, Some(t), t)
  }

  function SoloInterfaces(net: Network): Target -> seq<InterfaceResult> {
    (t: Target) => InterfacesVia(net, Some(t), t)
  }

  lemma HasHandler(chunk: seq<Target>, t: Target)
    requires ValidTargets(chunk) && t in chunk
    ensures var h := HandlerFor(Handlers(chunk), t);
            h.Some? && h.value in chunk && h.value.ip == t.ip
  {
    HandlersMeaning(chunk, t.ip.value);
    NoneIfBlankIsFixed(t.equipmentNo);
    NoneIfBlankIsFixed(t.ip);
  }

  /** Working chunk by chunk gives a permutation of working target by target. */
  lemma ChunksPermute<B>(devices: seq<Target>, maxWorkers: int, perChunk: seq<Target> -> seq<B>, solo: Target -> seq<B>)
    requires forall c :: (forall t :: t in c ==> t in devices) ==> perChunk(c) == FlatMap(solo, c)
    ensures multiset(FlatMap(perChunk, SplitEven(devices, maxWorkers))) == multiset(FlatMap(solo, devices))
  {
    var chunks := SplitEven(devices, maxWorkers);
    SplitEvenMeaning(devices, maxWorkers);
    ChunksFlatten(chunks, perChunk, solo);
    FlatMapPermutes(solo, FlatMap(Chunk(), chunks), devices);
  }

  lemma {:induction false} ChunksFlatten<B>(chunks: seq<seq<Target>>, perChunk: seq<Target> -> seq<B>,
                                            solo: Target -> seq<B>)
    requires forall c :: c in chunks ==> perChunk(c) == FlatMap(solo, c)
    ensures FlatMap(perChunk, chunks) == FlatMap(solo, FlatMap(Chunk(), chunks))
  {
    if chunks != [] {
      var n := |chunks| - 1;
      ChunksFlatten(chunks[..n], perChunk, solo);
      FlatMapAppend(solo, FlatMap(Chunk(), chunks[..n]), chunks[n]);
    }
  }

  lemma ProbesPermute(net: Network, devices: seq<Target>, maxWorkers: int)
    requires ValidTargets(devices)
    ensures multiset(Collected(net, devices, maxWorkers).probes) == multiset(FlatMap(SoloProbe(net), devices))
  {
    forall c: seq<Target> | forall t :: t in c ==> t in devices
      ensures ProbeChunk(net)(c) == FlatMap(SoloProbe(net), c)
    {
      forall t | t in c ensures ProbeWith(net, Handlers(c))(t) == SoloProbe(net)(t) { HasHandler(c, t); }
      FlatMapSame(ProbeWith(net, Handlers(c)), SoloProbe(net), c);
    }
    ChunksPermute(devices, maxWorkers, ProbeChunk(net), SoloProbe(net));
  }

  /** The targets whose own probe answers, in fleet order. */
  function AliveSolo(net: Network, devices: seq<Target>): seq<Target> {
    FlatMap(Alive(), FlatMap(SoloProbe(net), devices))
  }

  function SoloAlive(net: Network): Target -> seq<Target> {
    (t: Target) => Alive()(ProbeVia(net, Some(t), t))
  }

  lemma AliveAreDevices(net: Network, devices: seq<Target>, t: Target)
    requires t in AliveSolo(net, devices)
    ensures t in devices
  {
    forall d | d in devices ensures FlatMap(Alive(), SoloProbe(net)(d)) == SoloAlive(net)(d) {
      FlatMapOne(Alive(), ProbeVia(net, Some(d), d));
    }
    FlatMapCompose(SoloProbe(net), Alive(), SoloAlive(net), devices);
    FlatMapSource(SoloAlive(net), devices, t);
  }

  /** The SNMP-alive targets of any run are a permutation of those alive on their own. */
  lemma AlivePermute(net: Network, devices: seq<Target>, maxWorkers: int)
    requires ValidTargets(devices)
    ensures var alive := FlatMap(Alive(), Collected(net, devices, maxWorkers).probes);
            multiset(alive) == multiset(AliveSolo(net, devices)) && forall t :: t in alive ==> t in devices
  {
    var probes := Collected(net, devices, maxWorkers).probes;
    ProbesPermute(net, devices, maxWorkers);
    FlatMapPermutes(Alive(), probes, FlatMap(SoloProbe(net), devices));
    forall t | t in FlatMap(Alive(), probes) ensures t in devices {
      assert t in multiset(FlatMap(Alive(), probes));
      assert t in AliveSolo(net, devices);
      AliveAreDevices(net, devices, t);
    }
  }

  /** The handler of `t` was built from one of `ts` at the same address. */
  ghost predicate SharedHandler(ts: seq<Target>, hs: map<string, Target>, t: Target) {
    HandlerFor(hs, t).Some? && HandlerFor(hs, t).value in ts && HandlerFor(hs, t).value.ip == t.ip
  }

  /** A later stage over the alive targets, when their handlers serve them alike. */
  lemma StagePermutes<B>(alive: seq<Target>, aliveSolo: seq<Target>, maxWorkers: int,
                         perChunk: seq<Target> -> seq<B>, withHandlers: map<string, Target> -> Target -> seq<B>,
                         solo: Target -> seq<B>)
    requires ValidTargets(alive) && multiset(alive) == multiset(aliveSolo)
    requires forall c :: perChunk(c) == FlatMap(withHandlers(Handlers(c)), c)
    requires forall hs, t :: t in alive && SharedHandler(alive, hs, t) ==> withHandlers(hs)(t) == solo(t)
    ensures multiset(FlatMap(perChunk, SplitEven(alive, maxWorkers))) == multiset(FlatMap(solo, aliveSolo))
  {
    forall c: seq<Target> | forall t :: t in c ==> t in alive
      ensures perChunk(c) == FlatMap(solo, c)
    {
      forall t | t in c ensures withHandlers(Handlers(c))(t) == solo(t) { HasHandler(c, t); }
      FlatMapSame(withHandlers(Handlers(c)), solo, c);
    }
    ChunksPermute(alive, maxWorkers, perChunk, solo);
    FlatMapPermutes(solo, alive, aliveSolo);
  }

  function Querying(net: Network): map<string, Target> -> Target -> seq<QueryResult> {
    (hs: map<string, Target>) => QueryWith(net, hs)
  }

  function Walking(net: Network): map<string, Target> -> Target -> seq<InterfaceResult> {
    (hs: map<string, Target>) => InterfacesWith(net, hs)
  }

  /** Handlers that ask the same are answered alike by any network. */
  lemma AgreeingAreAnsweredAlike(net: Network, devices: seq<Target>)
    requires HandlersAgree(devices)
    ensures AnsweredAlike(net, devices)
  {
    forall a, b | a in devices && b in devices && a.ip == b.ip
      ensures QueryVia(net, Some(a), b) == QueryVia(net, Some(b), b)
    {
      assert Serves(a, b);
    }
  }

  lemma QueriesPermute(net: Network, alive: seq<Target>, aliveSolo: seq<Target>, maxWorkers: int)
    requires ValidTargets(alive) && AnsweredAlike(net, alive) && multiset(alive) == multiset(aliveSolo)
    ensures multiset(FlatMap(QueryChunk(net), SplitEven(alive, maxWorkers)))
            == multiset(FlatMap(SoloQuery(net), aliveSolo))
  {
    forall hs, t | t in alive && SharedHandler(alive, hs, t) ensures Querying(net)(hs)(t) == SoloQuery(net)(t) {
      assert QueryVia(net, Some(HandlerFor(hs, t).value), t) == QueryVia(net, Some(t), t);
    }
    StagePermutes(alive, aliveSolo, maxWorkers, QueryChunk(net), Querying(net), SoloQuery(net));
  }

  lemma InterfacesPermute(net: Network, alive: seq<Target>, aliveSolo: seq<Target>, maxWorkers: int)
    requires ValidTargets(alive) && multiset(alive) == multiset(aliveSolo)
    ensures multiset(FlatMap(InterfacesChunk(net), SplitEven(alive, maxWorkers)))
         == multiset(FlatMap(SoloInterfaces(net), aliveSolo))
  {
    StagePermutes(alive, aliveSolo, maxWorkers, InterfacesChunk(net), Walking(net), SoloInterfaces(net));
  }

  /** Every stage, for every worker count: one ping and one probe per target and one query
      and interface answer per SNMP-alive target, each as through the target's own handler. */
  lemma CollectedIsSolo(net: Network, devices: seq<Target>, maxWorkers: int)
    requires ValidTargets(devices) && AnsweredAlike(net, devices)
    ensures var raw := Collected(net, devices, maxWorkers);
            && multiset(raw.pings) == multiset(FlatMap(Pinger(net), devices))
            && multiset(raw.probes) == multiset(FlatMap(SoloProbe(net), devices))
            && multiset(raw.queries) == multiset(FlatMap(SoloQuery(net), AliveSolo(net, devices)))
            && multiset(raw.interfaces) == multiset(FlatMap(SoloInterfaces(net), AliveSolo(net, devices)))
  {
    var raw := Collected(net, devices, maxWorkers);
    var alive := FlatMap(Alive(), raw.probes);
    ChunksPermute(devices, maxWorkers, PingChunk(net), Pinger(net));
    ProbesPermute(net, devices, maxWorkers);
    AlivePermute(net, devices, maxWorkers);
    QueriesPermute(net, alive, AliveSolo(net, devices), maxWorkers);
    InterfacesPermute(net, alive, AliveSolo(net, devices), maxWorkers);
  }

  /** Two runs give permutations of the same results. */
  ghost predicate SameResults(x: Raw, y: Raw) {
    && multiset(x.pings) == multiset(y.pings) && multiset(x.probes) == multiset(y.probes)
    && multiset(x.queries) == multiset(y.queries) && multiset(x.interfaces) == multiset(y.interfaces)
  }

  lemma {:induction false} DealtAllToOne<A>(items: seq<A>)
    ensures Dealt(items, 1, 0) == items
  {
    if items != [] {
      DealtAllToOne(items[..|items| - 1]);
    }
  }

  lemma OneWorker<A>(items: seq<A>)
    requires items != []
    ensures SplitEven(items, 1) == [items]
  {
    DealtAllToOne(items);
  }

  lemma {:induction false} DealtOneEach<A>(items: seq<A>, n: nat, j: nat)
    requires |items| <= n && j < n
    ensures Dealt(items, n, j) == if j < |items| then [items[j]] else []
  {
    if items != [] {
      DealtOneEach(items[..|items| - 1], n, j);
      DivModUnique(|items| - 1, n, 0, |items| - 1);
    }
  }

  lemma OneEach<A>(items: seq<A>, i: nat)
    requires i < |items|
    ensures |SplitEven(items, |items|)| == |items| && SplitEven(items, |items|)[i] == [items[i]]
  {
    DealtOneEach(items, |items|, i);
  }

  // ---- A shared address --------------------------------------------------------------

  /** Every answer depends on the address alone, as a device behind it would have it. */
  ghost predicate ByAddress(net: Network) {
    forall t: Target, u: Target :: t.ip == u.ip ==>
      && net.ping(t) == net.ping(u) && net.probeUp(t) == net.probeUp(u) && net.interfaces(t) == net.interfaces(u)
      && forall f :: net.fetch(f, t) == net.fetch(f, u)
  }

  /** Two requests that ask for anything are both answered, with the same uptime, or neither. */
  ghost predicate SameAnswer(net: Network, t: Target, f: Fetcher, g: Fetcher) {
    !f.NoGet? && !g.NoGet? ==>
      && (net.fetch(f, t).Some? <==> net.fetch(g, t).Some?)
      && (net.fetch(f, t).Some? ==> Uptime(net.fetch(f, t).value) == Uptime(net.fetch(g, t).value))
  }

  /** One device behind each address: it answers every request or none, and tells each handler
      the same uptime. */
  ghost predicate OneDevice(net: Network) {
    ByAddress(net) && forall t, f, g :: SameAnswer(net, t, f, g)
  }

  /** All that every request other than the generic handler's has in common is the uptime. */
  ghost predicate Suffices(h: Target, t: Target) {
    Serves(h, t)
    || ((FamilyOf(t).value.CodecFamily? || FamilyOf(t).value.MatrixFamily?) && !FetcherOf(h).NoGet?
        && !FetcherOf(t).NoGet?)
  }

  /** No queried target shares its address with one whose handler gets something else of what
      the target's family reads. */
  ghost predicate HandlersSuffice(devices: seq<Target>) {
    forall a, b :: a in devices && b in devices && a.ip == b.ip ==> Suffices(a, b)
  }

  /** Codec and matrix queries read nothing but the uptime. */
  lemma UptimeOnly(family: Family, s: Stats, r: Stats)
    requires (family.CodecFamily? || family.MatrixFamily?) && Uptime(s) == Uptime(r)
    ensures ReadAs(family, s) == ReadAs(family, r)
  {
  }

  lemma SufficientIsAnsweredAlike(net: Network, h: Target, t: Target)
    requires Suffices(h, t) && SameAnswer(net, t, FetcherOf(h), FetcherOf(t))
    ensures QueryVia(net, Some(h), t) == QueryVia(net, Some(t), t)
  {
    var f, g := FetcherOf(h), FetcherOf(t);
    if FamilyOf(t).Some? && f != g && net.fetch(f, t).Some? {
      UptimeOnly(FamilyOf(t).value, net.fetch(f, t).value, net.fetch(g, t).value);
    }
  }

  lemma SufficientAreAnsweredAlike(net: Network, devices: seq<Target>)
    requires OneDevice(net) && HandlersSuffice(devices)
    ensures AnsweredAlike(net, devices)
  {
    forall a, b | a in devices && b in devices && a.ip == b.ip
      ensures QueryVia(net, Some(a), b) == QueryVia(net, Some(b), b)
    {
      SufficientIsAnsweredAlike(net, a, b);
    }
  }

  /** What the device of the witness below tells a handler: an uptime, and as firmware what it
      was asked. */
  function Told(f: Fetcher, uptime: real): Stats {
    Stats(None, None, map[UptimeSeconds := uptime],
          match f case EpsonGet => map[Firmware := "Epson"] case Sentry4Get => map[Firmware := "Sentry4"]
                  case Sentry3Get => map[Firmware := "Sentry3"] case _ => map[],
          [], [], [])
  }

  /** Everything is up; the device at `ip` answers, each request at its own time. */
  function Answering(uptime: Fetcher -> real, ip: Option<string>): Network {
    Network((t: Target) => Reply(true, None), (t: Target) => true,
            (f: Fetcher, t: Target) => if t.ip == ip then Some(Told(f, uptime(f))) else None,
            (t: Target) => [])
  }

  /** Such a device tells `b`'s handler something else than `h`'s. */
  ghost predicate Tells(uptime: Fetcher -> real, h: Target, b: Target) {
    var f, g := FetcherOf(h), FetcherOf(b);
    FamilyOf(b).Some?
    && (f.NoGet? != g.NoGet?
        || (!g.NoGet?
            && ReadAs(FamilyOf(b).value, Told(f, uptime(f))) != ReadAs(FamilyOf(b).value, Told(g, uptime(g)))))
  }

  function Itself(): Target -> seq<Target> {
    (t: Target) => [t]
  }

  lemma {:induction false} ListedOnce(devices: seq<Target>)
    ensures FlatMap(Itself(), devices) == devices
  {
    if devices != [] {
      var n := |devices| - 1;
      ListedOnce(devices[..n]);
      assert devices == devices[..n] + [devices[n]];
    }
  }

  lemma AllAlive(probe: Target -> seq<Probed>, devices: seq<Target>)
    requires forall t :: t in devices ==> FlatMap(Alive(), probe(t)) == Itself()(t)
    ensures FlatMap(Alive(), FlatMap(probe, devices)) == devices
  {
    FlatMapCompose(probe, Alive(), Itself(), devices);
    ListedOnce(devices);
  }

  lemma AliveAlone(net: Network, h: Option<Target>, t: Target)
    requires ValidTarget(t) && h.Some? && net.probeUp(t)
    ensures FlatMap(Alive(), [ProbeVia(net, h, t)]) == Itself()(t)
  {
    NoneIfBlankIsFixed(t.equipmentNo);
    FlatMapOne(Alive(), ProbeVia(net, h, t));
  }

  /** With one worker and everything up, each address is queried through its first target. */
  lemma OneWorkerAsks(net: Network, devices: seq<Target>)
    requires ValidTargets(devices) && devices != [] && forall t :: net.probeUp(t)
    ensures Collected(net, devices, 1).queries == FlatMap(QueryWith(net, Handlers(devices)), devices)
  {
    forall t | t in devices ensures HandlerFor(Handlers(devices), t).Some? { HasHandler(devices, t); }
    OneWorker(devices);
    FlatMapOne(ProbeChunk(net), devices);
    forall t | t in devices ensures FlatMap(Alive(), ProbeWith(net, Handlers(devices))(t)) == Itself()(t) {
      AliveAlone(net, HandlerFor(Handlers(devices), t), t);
    }
    AllAlive(ProbeWith(net, Handlers(devices)), devices);
    FlatMapOne(QueryChunk(net), devices);
  }

  lemma QueriedAlone(net: Network, t: Target)
    requires ValidTarget(t)
    ensures QueryChunk(net)([t]) == FlatMap(SoloQuery(net), [t])
  {
    HasHandler([t], t);
    FlatMapSame(QueryWith(net, Handlers([t])), SoloQuery(net), [t]);
  }

  lemma AllAliveSolo(net: Network, devices: seq<Target>)
    requires ValidTargets(devices) && forall t :: net.probeUp(t)
    ensures AliveSolo(net, devices) == devices
  {
    forall t | t in devices ensures FlatMap(Alive(), SoloProbe(net)(t)) == Itself()(t) { AliveAlone(net, Some(t), t); }
    AllAlive(SoloProbe(net), devices);
  }

  lemma SinglesAskOwn(net: Network, alive: seq<Target>)
    requires ValidTargets(alive)
    ensures multiset(FlatMap(QueryChunk(net), SplitEven(alive, |alive|))) == multiset(FlatMap(SoloQuery(net), alive))
  {
    var chunks := SplitEven(alive, |alive|);
    SplitEvenMeaning(alive, |alive|);
    forall c | c in chunks ensures QueryChunk(net)(c) == FlatMap(SoloQuery(net), c) {
      var i :| 0 <= i < |chunks| && chunks[i] == c;
      OneEach(alive, i);
      QueriedAlone(net, alive[i]);
    }
    ChunksFlatten(chunks, QueryChunk(net), SoloQuery(net));
    FlatMapPermutes(SoloQuery(net), FlatMap(Chunk(), chunks), alive);
  }

  /** With a worker per target, each target is queried through its own handler. */
  lemma ManyWorkersAsk(net: Network, devices: seq<Target>)
    requires ValidTargets(devices) && forall t :: net.probeUp(t)
    ensures multiset(Collected(net, devices, |devices|).queries) == multiset(FlatMap(SoloQuery(net), devices))
  {
    var alive := FlatMap(Alive(), Collected(net, devices, |devices|).probes);
    AlivePermute(net, devices, |devices|);
    AllAliveSolo(net, devices);
    SameLength(alive, devices);
    SinglesAskOwn(net, alive);
    FlatMapPermutes(SoloQuery(net), alive, devices);
  }

  lemma {:induction false} ShorterSomewhere<A, B>(f: A -> seq<B>, g: A -> seq<B>, xs: seq<A>, x: A)
    requires forall y :: y in xs ==> |f(y)| <= |g(y)|
    requires x in xs ==> |f(x)| < |g(x)|
    ensures |FlatMap(f, xs)| <= |FlatMap(g, xs)|
    ensures x in xs ==> |FlatMap(f, xs)| < |FlatMap(g, xs)|
  {
    if xs != [] {
      ShorterSomewhere(f, g, xs[..|xs| - 1], x);
    }
  }

  /** One worker gets no result of `b` as its own handler would. */
  lemma NotAsB(uptime: Fetcher -> real, h: Target, b: Target, t: Target)
    requires Tells(uptime, h, b) && !FetcherOf(b).NoGet? && t.ip == b.ip
    ensures var net := Answering(uptime, b.ip);
            |QueryVia(net, Some(b), b)| == 1 && QueryVia(net, Some(b), b)[0] !in QueryVia(net, Some(h), t)
  {
    if FamilyOf(t).Some? && !FetcherOf(h).NoGet? {
      var f, g := FetcherOf(h), FetcherOf(b);
      SameFamily(FamilyOf(t).value, FamilyOf(b).value, Told(f, uptime(f)), Told(g, uptime(g)));
    }
  }

  lemma SameFamily(x: Family, y: Family, s: Stats, r: Stats)
    ensures ReadAs(x, s) == ReadAs(y, r) ==> x == y
  {
  }

  lemma ElsewhereNothing(uptime: Fetcher -> real, b: Target, h: Option<Target>, t: Target)
    requires t.ip != b.ip
    ensures QueryVia(Answering(uptime, b.ip), h, t) == []
  {
  }

  lemma NobodyAsB(uptime: Fetcher -> real, devices: seq<Target>, b: Target, t: Target)
    requires ValidTargets(devices) && b in devices && t in devices && b.ip.value in Handlers(devices)
    requires Tells(uptime, Handlers(devices)[b.ip.value], b) && !FetcherOf(b).NoGet?
    ensures var net := Answering(uptime, b.ip);
            |QueryVia(net, Some(b), b)| == 1 && QueryVia(net, Some(b), b)[0] !in QueryWith(net, Handlers(devices))(t)
  {
    var h := Handlers(devices)[b.ip.value];
    NotAsB(uptime, h, b, b);
    HasHandler(devices, t);
    if t.ip == b.ip {
      NotAsB(uptime, h, b, t);
    } else {
      ElsewhereNothing(uptime, b, HandlerFor(Handlers(devices), t), t);
    }
  }

  /** `b` asks something: its own result is missing when another's handler asks for it. */
  lemma OwnResultMissing(uptime: Fetcher -> real, devices: seq<Target>, b: Target)
    requires ValidTargets(devices) && b in devices && b.ip.value in Handlers(devices)
    requires Tells(uptime, Handlers(devices)[b.ip.value], b) && !FetcherOf(b).NoGet?
    ensures var net := Answering(uptime, b.ip);
            multiset(FlatMap(QueryWith(net, Handlers(devices)), devices)) != multiset(FlatMap(SoloQuery(net), devices))
  {
    var net := Answering(uptime, b.ip);
    var h := Handlers(devices)[b.ip.value];
    var first, alone := FlatMap(QueryWith(net, Handlers(devices)), devices), FlatMap(SoloQuery(net), devices);
    NotAsB(uptime, h, b, b);
    var r := QueryVia(net, Some(b), b)[0];
    var i :| 0 <= i < |devices| && devices[i] == b;
    assert r in SoloQuery(net)(devices[i]);
    FlatMapSource(SoloQuery(net), devices, r);
    forall t | t in devices ensures r !in QueryWith(net, Handlers(devices))(t) { NobodyAsB(uptime, devices, b, t); }
    FlatMapSource(QueryWith(net, Handlers(devices)), devices, r);
    assert r in multiset(alone) && r !in multiset(first);
  }

  /** `b` asks nothing: it has a result when another's handler asks for it. */
  lemma ForeignResultAdded(uptime: Fetcher -> real, devices: seq<Target>, b: Target)
    requires ValidTargets(devices) && b in devices && b.ip.value in Handlers(devices)
    requires Tells(uptime, Handlers(devices)[b.ip.value], b) && FetcherOf(b).NoGet?
    ensures var net := Answering(uptime, b.ip);
            multiset(FlatMap(QueryWith(net, Handlers(devices)), devices)) != multiset(FlatMap(SoloQuery(net), devices))
  {
    var net := Answering(uptime, b.ip);
    var first, alone := QueryWith(net, Handlers(devices)), SoloQuery(net);
    forall t | t in devices ensures |alone(t)| <= |first(t)| && (t == b ==> |alone(t)| < |first(t)|) {
      HasHandler(devices, t);
      if t.ip != b.ip {
        ElsewhereNothing(uptime, b, HandlerFor(Handlers(devices), t), t);
        ElsewhereNothing(uptime, b, Some(t), t);
      }
    }
    ShorterSomewhere(alone, first, devices, b);
    if multiset(FlatMap(first, devices)) == multiset(FlatMap(alone, devices)) {
      SameLength(FlatMap(first, devices), FlatMap(alone, devices));
    }
  }

  /** The first target of an address decides what the others there are asked: one that would
      be told something else is answered differently by one worker and by many. */
  lemma FirstTargetDecides(uptime: Fetcher -> real, devices: seq<Target>, b: Target)
    requires ValidTargets(devices) && b in devices
    requires b.ip.value in Handlers(devices) && Tells(uptime, Handlers(devices)[b.ip.value], b)
    ensures var net := Answering(uptime, b.ip);
            !SameResults(Collected(net, devices, 1), Collected(net, devices, |devices|))
  {
    var net := Answering(uptime, b.ip);
    OneWorkerAsks(net, devices);
    ManyWorkersAsk(net, devices);
    if FetcherOf(b).NoGet? {
      ForeignResultAdded(uptime, devices, b);
    } else {
      OwnResultMissing(uptime, devices, b);
    }
  }

  function AtOnce(): Fetcher -> real {
    (f: Fetcher) => 0.0
  }

  function OneByOne(): Fetcher -> real {
    (f: Fetcher) => match f case EpsonGet => 1.0 case Sentry4Get => 2.0 case Sentry3Get => 3.0 case _ => 4.0
  }

  lemma UptimeTold(f: Fetcher, uptime: real)
    ensures Uptime(Told(f, uptime)) == Some(uptime)
  {
  }

  lemma SameUptime(family: Family, s: Stats, r: Stats)
    ensures ReadAs(family, s) == ReadAs(family, r) ==> Uptime(s) == Uptime(r)
  {
  }

  /** Requests at different times tell any two handlers apart. */
  lemma ToldInTurn(h: Target, b: Target)
    requires !Serves(h, b)
    ensures Tells(OneByOne(), h, b)
  {
    var f, g := FetcherOf(h), FetcherOf(b);
    UptimeTold(f, OneByOne()(f));
    UptimeTold(g, OneByOne()(g));
    SameUptime(FamilyOf(b).value, Told(f, OneByOne()(f)), Told(g, OneByOne()(g)));
  }

  /** Simultaneous ones tell those apart that the family does not read alike. */
  lemma ToldAtOnce(h: Target, b: Target)
    requires !Suffices(h, b)
    ensures Tells(AtOnce(), h, b)
  {
    var f, g := FetcherOf(h), FetcherOf(b);
    if FamilyOf(b).Some? && !f.NoGet? && !g.NoGet? {
      ToldFirmware(f, g);
      SameFirmware(FamilyOf(b).value, Told(f, 0.0), Told(g, 0.0));
    }
  }

  lemma ToldFirmware(f: Fetcher, g: Fetcher)
    requires f != g && !f.NoGet? && !g.NoGet?
    ensures FirmwareText(Told(f, 0.0)) != FirmwareText(Told(g, 0.0))
  {
    FirmwareDiffers();
  }

  /** Projector and PDU queries read the firmware. */
  lemma SameFirmware(family: Family, s: Stats, r: Stats)
    requires family.ProjectorFamily? || family.PduFamily?
    ensures ReadAs(family, s) == ReadAs(family, r) ==> FirmwareText(s) == FirmwareText(r)
  {
  }

  lemma FirmwareDiffers()
    ensures "Epson" != "Sentry4" && "Epson" != "Sentry3" && "Sentry4" != "Sentry3"
  {
    assert "Epson"[0] == 'E' && "Sentry4"[0] == 'S' && "Sentry3"[0] == 'S' && "Sentry4"[6] == '4'
      && "Sentry3"[6] == '3';
  }

  lemma AnsweringIsByAddress(uptime: Fetcher -> real, ip: Option<string>)
    ensures ByAddress(Answering(uptime, ip))
  {
  }

  lemma AtOnceIsOneDevice(ip: Option<string>)
    ensures OneDevice(Answering(AtOnce(), ip))
  {
    AnsweringIsByAddress(AtOnce(), ip);
    forall f ensures Uptime(Told(f, AtOnce()(f))) == Some(0.0) { UptimeTold(f, 0.0); }
  }

  /** Neither the order of the rows nor the number of workers changes the results. */
  ghost predicate OrderAndWorkersIrrelevant(net: Network, devices: seq<Target>) {
    forall xs, ys, v, w :: multiset(xs) == multiset(devices) == multiset(ys) ==>
      SameResults(Collected(net, xs, v), Collected(net, ys, w))
  }

  lemma AnsweredAlikeAreIrrelevant(net: Network, devices: seq<Target>)
    requires ValidTargets(devices) && AnsweredAlike(net, devices)
    ensures OrderAndWorkersIrrelevant(net, devices)
  {
    forall xs, ys, v, w | multiset(xs) == multiset(devices) == multiset(ys)
      ensures SameResults(Collected(net, xs, v), Collected(net, ys, w))
    {
      AnyOrderIsSolo(net, devices, xs, v);
      AnyOrderIsSolo(net, devices, ys, w);
    }
  }

  lemma AnyOrderIsSolo(net: Network, devices: seq<Target>, xs: seq<Target>, v: int)
    requires ValidTargets(devices) && AnsweredAlike(net, devices) && multiset(xs) == multiset(devices)
    ensures var raw := Collected(net, xs, v);
            && multiset(raw.pings) == multiset(FlatMap(Pinger(net), devices))
            && multiset(raw.probes) == multiset(FlatMap(SoloProbe(net), devices))
            && multiset(raw.queries) == multiset(FlatMap(SoloQuery(net), AliveSolo(net, devices)))
            && multiset(raw.interfaces) == multiset(FlatMap(SoloInterfaces(net), AliveSolo(net, devices)))
  {
    forall t | t in xs ensures t in devices { assert t in multiset(xs); }
    CollectedIsSolo(net, xs, v);
    FlatMapPermutes(Pinger(net), xs, devices);
    FlatMapPermutes(SoloProbe(net), xs, devices);
    FlatMapPermutes(Alive(), FlatMap(SoloProbe(net), xs), FlatMap(SoloProbe(net), devices));
    FlatMapPermutes(SoloQuery(net), AliveSolo(net, xs), AliveSolo(net, devices));
    FlatMapPermutes(SoloInterfaces(net), AliveSolo(net, xs), AliveSolo(net, devices));
  }

  /** A row order in which `a` is met first at its address. */
  lemma InFront(devices: seq<Target>, a: Target) returns (xs: seq<Target>)
    requires ValidTargets(devices) && a in devices
    ensures multiset(xs) == multiset(devices) && ValidTargets(xs)
    ensures a.ip.value in Handlers(xs) && Handlers(xs)[a.ip.value] == a
  {
    var i :| 0 <= i < |devices| && devices[i] == a;
    xs := [a] + (devices[..i] + devices[i + 1..]);
    MultisetRemove(devices, i);
    forall t | t in xs ensures ValidTarget(t) { assert t in multiset(xs); }
    FirstHandlerWins(xs, 0);
  }

  lemma DisagreeingMatter(uptime: Fetcher -> real, devices: seq<Target>, a: Target, b: Target)
    requires ValidTargets(devices) && a in devices && b in devices && a.ip == b.ip && Tells(uptime, a, b)
    ensures !OrderAndWorkersIrrelevant(Answering(uptime, b.ip), devices)
  {
    var xs := InFront(devices, a);
    assert b in multiset(xs);
    FirstTargetDecides(uptime, xs, b);
    assert multiset(xs) == multiset(devices) == multiset(xs);
  }

  /** The results are independent of row order and worker count, for every network, exactly
      when no queried target shares its address with one whose handler asks for something
      else; networks whose answers depend on address and request alone already tell. When
      one device answers each address consistently, exactly when the handlers there get the
      same of what the target's family reads. */
  lemma WorkerIndependenceIff(devices: seq<Target>)
    requires ValidTargets(devices)
    ensures (forall net :: OrderAndWorkersIrrelevant(net, devices)) <==> HandlersAgree(devices)
    ensures (forall net :: ByAddress(net) ==> OrderAndWorkersIrrelevant(net, devices)) <==> HandlersAgree(devices)
    ensures (forall net :: OneDevice(net) ==> OrderAndWorkersIrrelevant(net, devices)) <==> HandlersSuffice(devices)
  {
    IndependentIfAgreeing(devices);
    if !HandlersAgree(devices) { AgreementIsNeeded(devices); }
    if !HandlersSuffice(devices) { SufficiencyIsNeeded(devices); }
  }

  lemma AgreementIsNeeded(devices: seq<Target>)
    requires ValidTargets(devices) && !HandlersAgree(devices)
    ensures exists net :: ByAddress(net) && !OrderAndWorkersIrrelevant(net, devices)
  {
    var a, b :| a in devices && b in devices && a.ip == b.ip && !Serves(a, b);
    ToldInTurn(a, b);
    AnsweringIsByAddress(OneByOne(), b.ip);
    DisagreeingMatter(OneByOne(), devices, a, b);
  }

  lemma SufficiencyIsNeeded(devices: seq<Target>)
    requires ValidTargets(devices) && !HandlersSuffice(devices)
    ensures exists net :: OneDevice(net) && !OrderAndWorkersIrrelevant(net, devices)
  {
    var a, b :| a in devices && b in devices && a.ip == b.ip && !Suffices(a, b);
    ToldAtOnce(a, b);
    AtOnceIsOneDevice(b.ip);
    DisagreeingMatter(AtOnce(), devices, a, b);
  }

  lemma IndependentIfAgreeing(devices: seq<Target>)
    requires ValidTargets(devices)
    ensures HandlersAgree(devices) ==> forall net :: OrderAndWorkersIrrelevant(net, devices)
    ensures HandlersSuffice(devices) ==> forall net :: OneDevice(net) ==> OrderAndWorkersIrrelevant(net, devices)
  {
    if HandlersAgree(devices) {
      forall net ensures OrderAndWorkersIrrelevant(net, devices) {
        AgreeingAreAnsweredAlike(net, devices);
        AnsweredAlikeAreIrrelevant(net, devices);
      }
    }
    if HandlersSuffice(devices) {
      forall net | OneDevice(net) ensures OrderAndWorkersIrrelevant(net, devices) {
        SufficientAreAnsweredAlike(net, devices);
        AnsweredAlikeAreIrrelevant(net, devices);
      }
    }
  }
}
