/** Chunked `field__in` lookups against LanDB (`_landb_fetch_in_chunks`): each chunk is
    one request, a request may fail after delivering some of its records, and the
    first record per merge key wins across chunks. */
module ChunkedLookup {
  import opened Common

  const LANDB_MAX_REQUEST_PARAMS: nat := 1000
  const LANDB_IN_CHUNK_SIZE: nat := 800

  /** A LanDB model: its records in answer order, the text the server filters on (`None`
      when no value the client sends can equal it), and the key the client merges by
      (`None` for a blank key, whose record is dropped). */
  datatype Endpoint<!R> = Endpoint(records: seq<R>, field: R -> Option<string>, keyOf: R -> Option<string>)

  /** Per chunk index: success, or a failure after that many records. */
  type Faults = nat -> Option<nat>

  // ---- Chunks ------------------------------------------------------------------

  function Chunks(values: seq<string>, size: nat): seq<seq<string>>
    requires size >= 1
  {
    if |values| <= size then (if values == [] then [] else [values])
    else [values[..size]] + Chunks(values[size..], size)
  }

  function Flatten<A>(xss: seq<seq<A>>): seq<A> {
    if xss == [] then [] else xss[0] + Flatten(xss[1..])
  }

  /** The chunks concatenate to the input and all but the last are full. A request carries
      one parameter per value plus `_limit` and `_offset`, so the default size keeps it
      under the server's ceiling. */
  lemma {:induction false} ChunksMeaning(values: seq<string>, size: nat)
    requires size >= 1
    ensures var chunks := Chunks(values, size);
            && Flatten(chunks) == values
            && (forall c :: c in chunks ==> 1 <= |c| <= size)
            && (forall i :: 0 <= i < |chunks| - 1 ==> |chunks[i]| == size)
            && (size == LANDB_IN_CHUNK_SIZE ==>
                  size == 800 && forall c :: c in chunks ==> |c| + 2 <= 802 <= LANDB_MAX_REQUEST_PARAMS)
    decreases |values|
  {
    if |values| > size {
      ChunksMeaning(values[size..], size);
    } else if values != [] {
      assert Flatten([values]) == values + Flatten([]);
    }
  }

  // ---- Answers and merging -------------------------------------------------------

  function Matching<R>(ep: Endpoint<R>, wanted: set<string>): R -> seq<R> {
    r => if ep.field(r).Some? && ep.field(r).value in wanted then [r] else []
  }

  /** What the server returns for one request. */
  function Answer<R>(ep: Endpoint<R>, wanted: set<string>): seq<R> {
    FlatMap(Matching(ep, wanted), ep.records)
  }

  function Delivered<R>(ep: Endpoint<R>, chunk: seq<string>, fault: Option<nat>): seq<R> {
    var answer := Answer(ep, Elements(chunk));
    if fault.None? then answer else answer[..Min(fault.value, |answer|)]
  }

  function Received<R>(ep: Endpoint<R>, chunks: seq<seq<string>>, faults: Faults, n: nat): seq<R>
    requires n <= |chunks|
  {
    if n == 0 then []
    else Received(ep, chunks, faults, n - 1) + Delivered(ep, chunks[n - 1], faults(n - 1))
  }

  function FirstByKey<R>(keyOf: R -> Option<string>, recs: seq<R>): map<string, R> {
    if recs == [] then map[]
    else
      var before := FirstByKey(keyOf, recs[..|recs| - 1]);
      var r := recs[|recs| - 1];
      if keyOf(r).Some? && keyOf(r).value !in before then before[keyOf(r).value := r] else before
  }

  function Fetched<R>(ep: Endpoint<R>, values: seq<string>, size: nat, faults: Faults): map<string, R>
    requires size >= 1
  {
    var chunks := Chunks(values, size);
    FirstByKey(ep.keyOf, Received(ep, chunks, faults, |chunks|))
  }

  ghost predicate SomeChunkFailed(faults: Faults, n: nat) {
    exists i: nat :: i < n && faults(i).Some?
  }

  ghost predicate Degraded(values: seq<string>, size: nat, faults: Faults)
    requires size >= 1
  {
    SomeChunkFailed(faults, |Chunks(values, size)|)
  }

  lemma FailedStep(faults: Faults, n: nat)
    ensures SomeChunkFailed(faults, n + 1) <==> SomeChunkFailed(faults, n) || faults(n).Some?
  {
  }

  method SplitIntoChunks(values: seq<string>, size: nat) returns (chunks: seq<seq<string>>)
    requires size >= 1
    ensures chunks == Chunks(values, size)
  {
    chunks := [];
    var i := 0;
    while i < |values|
      invariant 0 <= i
      invariant chunks + ChunksFrom(values, i, size) == Chunks(values, size)
    {
      var end := if i + size < |values| then i + size else |values|;
      SplitStep(values, i, size, chunks);
      chunks := chunks + [values[i..end]];
      i := i + size;
    }
  }

  function ChunksFrom(values: seq<string>, i: nat, size: nat): seq<seq<string>>
    requires size >= 1
  {
    if i < |values| then Chunks(values[i..], size) else []
  }

  lemma SplitStep(values: seq<string>, i: nat, size: nat, chunks: seq<seq<string>>)
    requires size >= 1 && i < |values|
    ensures var end := if i + size < |values| then i + size else |values|;
            chunks + ChunksFrom(values, i, size) == (chunks + [values[i..end]]) + ChunksFrom(values, i + size, size)
  {
    var end := if i + size < |values| then i + size else |values|;
    ChunksStep(values, i, size);
    ConcatAssoc(chunks, [values[i..end]], ChunksFrom(values, i + size, size));
  }

  lemma ChunksStep(values: seq<string>, i: nat, size: nat)
    requires size >= 1 && i < |values|
    ensures ChunksFrom(values, i, size)
         == [values[i..if i + size < |values| then i + size else |values|]] + ChunksFrom(values, i + size, size)
  {
    if i + size < |values| {
      assert values[i..][size..] == values[i + size..] && values[i..][..size] == values[i..i + size];
    } else {
      assert values[i..|values|] == values[i..];
      assert [values[i..]] + [] == [values[i..]];
    }
  }

  lemma FirstByKeyAdds<R>(keyOf: R -> Option<string>, recs: seq<R>, r: R)
    ensures var before := FirstByKey(keyOf, recs);
            FirstByKey(keyOf, recs + [r])
            == if keyOf(r).Some? && keyOf(r).value !in before then before[keyOf(r).value := r] else before
  {
    assert (recs + [r])[..|recs + [r]| - 1] == recs;
  }

  /** Merge the records of one chunk; a key already present is never overwritten. */
  method Absorb<R>(ep: Endpoint<R>, before: map<string, R>, delivered: seq<R>, ghost received: seq<R>)
    returns (results: map<string, R>)
    requires before == FirstByKey(ep.keyOf, received)
    ensures results == FirstByKey(ep.keyOf, received + delivered)
  {
    results := before;
    assert received + delivered[..0] == received;
    for j := 0 to |delivered|
      invariant results == FirstByKey(ep.keyOf, received + delivered[..j])
    {
      var k := ep.keyOf(delivered[j]);
      assert received + delivered[..j + 1] == (received + delivered[..j]) + [delivered[j]];
      FirstByKeyAdds(ep.keyOf, received + delivered[..j], delivered[j]);
      if k.Some? && k.value !in results {
        results := results[k.value := delivered[j]];
      }
    }
    assert delivered[..|delivered|] == delivered;
  }

  /** One chunk: its request, whether that failed, and the merge. */
  method FetchChunk<R>(ep: Endpoint<R>, chunks: seq<seq<string>>, faults: Faults, n: nat, before: map<string, R>,
                       wasDegraded: bool)
    returns (results: map<string, R>, degraded: bool)
    requires n < |chunks| && before == FirstByKey(ep.keyOf, Received(ep, chunks, faults, n))
    requires wasDegraded <==> SomeChunkFailed(faults, n)
    ensures results == FirstByKey(ep.keyOf, Received(ep, chunks, faults, n + 1))
    ensures degraded <==> SomeChunkFailed(faults, n + 1)
  {
    FailedStep(faults, n);
    results := Absorb(ep, before, Delivered(ep, chunks[n], faults(n)), Received(ep, chunks, faults, n));
    degraded := wasDegraded;
    if faults(n).Some? {
      degraded := true;
    }
  }

  /** The lookup as the program runs it. */
  method FetchInChunks<R>(ep: Endpoint<R>, values: seq<string>, chunkSize: nat, faults: Faults)
    returns (results: map<string, R>, degraded: bool)
    requires chunkSize >= 1
    ensures results == Fetched(ep, values, chunkSize, faults)
    ensures degraded <==> Degraded(values, chunkSize, faults)
  {
    results := map[];
    degraded := false;
    if values == [] {
      return;
    }
    var chunks := SplitIntoChunks(values, chunkSize);
    for chunkIndex := 0 to |chunks|
      invariant results == FirstByKey(ep.keyOf, Received(ep, chunks, faults, chunkIndex))
      invariant degraded <==> SomeChunkFailed(faults, chunkIndex)
    {
      results, degraded := FetchChunk(ep, chunks, faults, chunkIndex, results, degraded);
    }
  }

  // ---- Meaning: the first stored record per key --------------------------------------

  function FirstWith<R>(keyOf: R -> Option<string>, recs: seq<R>, k: string): Option<R> {
    if recs == [] then None
    else
      var before := FirstWith(keyOf, recs[..|recs| - 1], k);
      if before.None? && keyOf(recs[|recs| - 1]) == Some(k) then Some(recs[|recs| - 1]) else before
  }

  lemma {:induction false} FirstByKeyIsFirst<R>(keyOf: R -> Option<string>, recs: seq<R>, k: string)
    ensures k in FirstByKey(keyOf, recs) <==> FirstWith(keyOf, recs, k).Some?
    ensures k in FirstByKey(keyOf, recs) ==> FirstWith(keyOf, recs, k) == Some(FirstByKey(keyOf, recs)[k])
  {
    if recs != [] {
      FirstByKeyIsFirst(keyOf, recs[..|recs| - 1], k);
    }
  }

  lemma {:induction false} FirstWithMeaning<R>(keyOf: R -> Option<string>, recs: seq<R>, k: string)
    ensures FirstWith(keyOf, recs, k).Some? <==> exists i :: 0 <= i < |recs| && keyOf(recs[i]) == Some(k)
    ensures FirstWith(keyOf, recs, k).Some? ==>
              exists i :: 0 <= i < |recs| && recs[i] == FirstWith(keyOf, recs, k).value && keyOf(recs[i]) == Some(k)
                          && forall j :: 0 <= j < i ==> keyOf(recs[j]) != Some(k)
  {
    if recs != [] {
      var n := |recs| - 1;
      FirstWithMeaning(keyOf, recs[..n], k);
      if FirstWith(keyOf, recs[..n], k).Some? {
        var i :| 0 <= i < n && recs[..n][i] == FirstWith(keyOf, recs[..n], k).value && keyOf(recs[..n][i]) == Some(k)
                 && forall j :: 0 <= j < i ==> keyOf(recs[..n][j]) != Some(k);
        assert recs[i] == recs[..n][i];
        forall j | 0 <= j < i ensures keyOf(recs[j]) != Some(k) { assert recs[..n][j] == recs[j]; }
      } else {
        forall j | 0 <= j < n ensures keyOf(recs[j]) != Some(k) { assert recs[..n][j] == recs[j]; }
      }
    }
  }

  lemma {:induction false} FirstWithAppend<R>(keyOf: R -> Option<string>, xs: seq<R>, ys: seq<R>, k: string)
    ensures FirstWith(keyOf, xs + ys, k)
         == if FirstWith(keyOf, xs, k).Some? then FirstWith(keyOf, xs, k) else FirstWith(keyOf, ys, k)
  {
    if ys == [] {
      assert xs + ys == xs;
    } else {
      FirstWithAppend(keyOf, xs, ys[..|ys| - 1], k);
      assert (xs + ys)[..|xs + ys| - 1] == xs + ys[..|ys| - 1];
    }
  }

  /** Two records a filter could return that merge under one key. */
  predicate SameKey<R>(ep: Endpoint<R>, r: R, s: R) {
    ep.keyOf(r).Some? && ep.keyOf(r) == ep.keyOf(s) && ep.field(r).Some? && ep.field(s).Some?
  }

  /** Records that merge under key `k` agree on the filtered field. */
  ghost predicate Determined<R>(ep: Endpoint<R>, recs: seq<R>, k: string) {
    forall r, s :: r in recs && s in recs && SameKey(ep, r, s) && ep.keyOf(r) == Some(k) ==> ep.field(r) == ep.field(s)
  }

  /** True whenever merge key and filtered field are the same attribute, and of IP
      addresses when a device name determines its device. */
  ghost predicate KeyDeterminesField<R>(ep: Endpoint<R>) {
    forall k :: Determined(ep, ep.records, k)
  }

  function HasField<R>(ep: Endpoint<R>): R -> seq<R> {
    r => if ep.field(r).Some? then [r] else []
  }

  function HolderAmong<R>(ep: Endpoint<R>, recs: seq<R>, k: string): Option<R> {
    FirstWith(ep.keyOf, FlatMap(HasField(ep), recs), k)
  }

  /** The first stored record with key `k` that a filter could return at all. */
  function Holder<R>(ep: Endpoint<R>, k: string): Option<R> {
    HolderAmong(ep, ep.records, k)
  }

  predicate Wanted<R>(ep: Endpoint<R>, r: R, wanted: set<string>) {
    ep.field(r).Some? && ep.field(r).value in wanted
  }

  function HolderIn<R>(ep: Endpoint<R>, k: string, wanted: set<string>): Option<R> {
    var h := Holder(ep, k);
    if h.Some? && Wanted(ep, h.value, wanted) then h else None
  }

  lemma HolderMeaning<R>(ep: Endpoint<R>, recs: seq<R>, k: string)
    ensures var h := HolderAmong(ep, recs, k);
            && (h.Some? ==> h.value in recs && ep.keyOf(h.value) == Some(k) && ep.field(h.value).Some?)
            && (h.None? ==> forall r :: r in recs && ep.field(r).Some? ==> ep.keyOf(r) != Some(k))
  {
    var some := FlatMap(HasField(ep), recs);
    FirstWithMeaning(ep.keyOf, some, k);
    if HolderAmong(ep, recs, k).Some? {
      FlatMapSource(HasField(ep), recs, HolderAmong(ep, recs, k).value);
    } else {
      forall r | r in recs && ep.field(r).Some? ensures ep.keyOf(r) != Some(k) {
        var i :| 0 <= i < |recs| && recs[i] == r;
        assert r in HasField(ep)(recs[i]);
        FlatMapSource(HasField(ep), recs, r);
      }
    }
  }

  /** One clean answer holds the holder of every key whose field was asked for. */
  lemma {:induction false} AnswerHolds<R>(ep: Endpoint<R>, recs: seq<R>, wanted: set<string>, k: string)
    requires Determined(ep, recs, k)
    ensures var h := HolderAmong(ep, recs, k);
            FirstWith(ep.keyOf, FlatMap(Matching(ep, wanted), recs), k)
            == if h.Some? && Wanted(ep, h.value, wanted) then h else None
  {
    if recs != [] {
      var n := |recs| - 1;
      var r := recs[n];
      AnswerHolds(ep, recs[..n], wanted, k);
      HolderMeaning(ep, recs[..n], k);
      FirstWithAppend(ep.keyOf, FlatMap(Matching(ep, wanted), recs[..n]), Matching(ep, wanted)(r), k);
      FirstWithAppend(ep.keyOf, FlatMap(HasField(ep), recs[..n]), HasField(ep)(r), k);
      FirstWithOne(ep.keyOf, r, k);
      var h := HolderAmong(ep, recs[..n], k);
      if h.Some? && ep.field(r).Some? && ep.keyOf(r) == Some(k) {
        assert SameKey(ep, h.value, r);
      }
    }
  }

  lemma FirstWithOne<R>(keyOf: R -> Option<string>, r: R, k: string)
    ensures FirstWith(keyOf, [r], k) == if keyOf(r) == Some(k) then Some(r) else None
    ensures FirstWith(keyOf, [], k) == None
  {
    assert [r][..0] == [];
  }

  /** `got` is right when it is there at all, and always when nothing failed. */
  ghost predicate Trusted<R>(got: Option<R>, failed: bool, want: Option<R>) {
    got.Some? || !failed ==> got == want
  }

  /** What was received of the `wanted` values gives key `k` its holder. */
  ghost predicate TrustedFor<R>(ep: Endpoint<R>, k: string, received: seq<R>, failed: bool, wanted: set<string>) {
    Trusted(FirstWith(ep.keyOf, received, k), failed, HolderIn(ep, k, wanted))
  }

  lemma TrustedUnion<R>(ep: Endpoint<R>, k: string, before: seq<R>, failedBefore: bool, wantedBefore: set<string>,
                        now: seq<R>, failedNow: bool, wantedNow: set<string>)
    requires TrustedFor(ep, k, before, failedBefore, wantedBefore) && TrustedFor(ep, k, now, failedNow, wantedNow)
    ensures TrustedFor(ep, k, before + now, failedBefore || failedNow, wantedBefore + wantedNow)
  {
    FirstWithAppend(ep.keyOf, before, now, k);
    HolderInUnion(ep, k, wantedBefore, wantedNow);
  }

  /** A failed chunk keeps a prefix, so a key is found as in the clean answer or not at all. */
  lemma DeliveredHolds<R>(ep: Endpoint<R>, chunk: seq<string>, fault: Option<nat>, k: string)
    requires Determined(ep, ep.records, k)
    ensures TrustedFor(ep, k, Delivered(ep, chunk, fault), fault.Some?, Elements(chunk))
  {
    AnswerHolds(ep, ep.records, Elements(chunk), k);
    if fault.Some? { FirstOfPrefix(ep.keyOf, Answer(ep, Elements(chunk)), fault.value, k); }
  }

  lemma FirstOfPrefix<R>(keyOf: R -> Option<string>, recs: seq<R>, n: nat, k: string)
    ensures var got := FirstWith(keyOf, recs[..Min(n, |recs|)], k); got.Some? ==> got == FirstWith(keyOf, recs, k)
  {
    var part := recs[..Min(n, |recs|)];
    assert recs == part + recs[|part|..];
    FirstWithAppend(keyOf, part, recs[|part|..], k);
  }

  lemma HolderInUnion<R>(ep: Endpoint<R>, k: string, a: set<string>, b: set<string>)
    ensures HolderIn(ep, k, a + b) == if HolderIn(ep, k, a).Some? then HolderIn(ep, k, a) else HolderIn(ep, k, b)
    ensures HolderIn(ep, k, a).Some? && HolderIn(ep, k, b).Some? ==> HolderIn(ep, k, a) == HolderIn(ep, k, b)
  {
  }

  lemma FlattenPrefix(chunks: seq<seq<string>>, n: nat)
    requires 0 < n <= |chunks|
    ensures Elements(Flatten(chunks[..n])) == Elements(Flatten(chunks[..n - 1])) + Elements(chunks[n - 1])
  {
    FlattenSnoc(chunks[..n - 1], chunks[n - 1]);
    assert chunks[..n] == chunks[..n - 1] + [chunks[n - 1]];
    ElementsAppend(Flatten(chunks[..n - 1]), chunks[n - 1]);
  }

  /** The first `n` chunks give key `k` its holder. */
  ghost predicate ReceivedTrusted<R>(ep: Endpoint<R>, chunks: seq<seq<string>>, faults: Faults, k: string, n: nat) {
    n <= |chunks| ==>
      TrustedFor(ep, k, Received(ep, chunks, faults, n), SomeChunkFailed(faults, n), Elements(Flatten(chunks[..n])))
  }

  lemma NothingIsTrusted<R>(ep: Endpoint<R>, chunks: seq<seq<string>>, faults: Faults, k: string)
    ensures TrustedUpTo(ep, chunks, faults, k)(0)
  {
  }

  /** The next chunk keeps what was received trusted. */
  lemma NextIsTrusted<R>(ep: Endpoint<R>, k: string, received: seq<R>, failed: bool, wanted: set<string>,
                         chunk: seq<string>, fault: Option<nat>)
    requires Determined(ep, ep.records, k) && TrustedFor(ep, k, received, failed, wanted)
    ensures TrustedFor(ep, k, received + Delivered(ep, chunk, fault), failed || fault.Some?, wanted + Elements(chunk))
  {
    DeliveredHolds(ep, chunk, fault, k);
    TrustedUnion(ep, k, received, failed, wanted, Delivered(ep, chunk, fault), fault.Some?, Elements(chunk));
  }

  lemma ReceivedParts<R>(ep: Endpoint<R>, chunks: seq<seq<string>>, faults: Faults, n: nat)
    requires n < |chunks|
    ensures Received(ep, chunks, faults, n + 1) == Received(ep, chunks, faults, n) + Delivered(ep, chunks[n], faults(n))
    ensures SomeChunkFailed(faults, n + 1) == (SomeChunkFailed(faults, n) || faults(n).Some?)
    ensures Elements(Flatten(chunks[..n + 1])) == Elements(Flatten(chunks[..n])) + Elements(chunks[n])
  {
    ReceivedStep(ep, chunks, faults, n);
    FailedStep(faults, n);
    FlattenPrefix(chunks, n + 1);
  }

  lemma ReceivedHoldsNext<R>(ep: Endpoint<R>, chunks: seq<seq<string>>, faults: Faults, k: string, n: nat)
    requires Determined(ep, ep.records, k) && n < |chunks| && ReceivedTrusted(ep, chunks, faults, k, n)
    ensures ReceivedTrusted(ep, chunks, faults, k, n + 1)
  {
    ReceivedParts(ep, chunks, faults, n);
    NextIsTrusted(ep, k, Received(ep, chunks, faults, n), SomeChunkFailed(faults, n), Elements(Flatten(chunks[..n])),
                  chunks[n], faults(n));
  }

  ghost function TrustedUpTo<R>(ep: Endpoint<R>, chunks: seq<seq<string>>, faults: Faults, k: string): nat -> bool {
    (n: nat) => ReceivedTrusted(ep, chunks, faults, k, n)
  }

  lemma TrustedNext<R>(ep: Endpoint<R>, chunks: seq<seq<string>>, faults: Faults, k: string, n: nat)
    requires Determined(ep, ep.records, k) && TrustedUpTo(ep, chunks, faults, k)(n)
    ensures TrustedUpTo(ep, chunks, faults, k)(n + 1)
  {
    if n < |chunks| { ReceivedHoldsNext(ep, chunks, faults, k, n); }
  }

  lemma {:induction false} StepByStep(p: nat -> bool, n: nat)
    requires p(0) && forall i: nat :: p(i) ==> p(i + 1)
    ensures p(n)
  {
    if n > 0 {
      StepByStep(p, n - 1);
      assert p(n - 1 + 1);
    }
  }

  lemma ReceivedHolds<R>(ep: Endpoint<R>, chunks: seq<seq<string>>, faults: Faults, n: nat, k: string)
    requires Determined(ep, ep.records, k)
    ensures TrustedUpTo(ep, chunks, faults, k)(n)
  {
    NothingIsTrusted(ep, chunks, faults, k);
    forall i: nat | TrustedUpTo(ep, chunks, faults, k)(i) ensures TrustedUpTo(ep, chunks, faults, k)(i + 1) {
      TrustedNext(ep, chunks, faults, k, i);
    }
    StepByStep(TrustedUpTo(ep, chunks, faults, k), n);
  }

  lemma ReceivedStep<R>(ep: Endpoint<R>, chunks: seq<seq<string>>, faults: Faults, n: nat)
    requires n < |chunks|
    ensures Received(ep, chunks, faults, n + 1) == Received(ep, chunks, faults, n) + Delivered(ep, chunks[n], faults(n))
  {
  }

  lemma NothingDelivered<R>(ep: Endpoint<R>, chunk: seq<string>)
    ensures Delivered(ep, chunk, Some(0)) == []
  {
  }

  ghost predicate AllStored<R>(ep: Endpoint<R>, chunks: seq<seq<string>>, faults: Faults, n: nat) {
    n <= |chunks| ==> forall r :: r in Received(ep, chunks, faults, n) ==> r in ep.records
  }

  lemma DeliveredAreStored<R>(ep: Endpoint<R>, chunk: seq<string>, fault: Option<nat>)
    ensures forall r :: r in Delivered(ep, chunk, fault) ==> r in ep.records
  {
    forall r | r in Delivered(ep, chunk, fault) ensures r in ep.records {
      assert r in Answer(ep, Elements(chunk));
      InAnswer(ep, Elements(chunk), r);
    }
  }

  lemma NextAreStored<R>(ep: Endpoint<R>, chunks: seq<seq<string>>, faults: Faults, n: nat)
    requires AllStored(ep, chunks, faults, n)
    ensures AllStored(ep, chunks, faults, n + 1)
  {
    if n < |chunks| {
      ReceivedStep(ep, chunks, faults, n);
      DeliveredAreStored(ep, chunks[n], faults(n));
    }
  }

  ghost function StoredUpTo<R>(ep: Endpoint<R>, chunks: seq<seq<string>>, faults: Faults): nat -> bool {
    (n: nat) => AllStored(ep, chunks, faults, n)
  }

  lemma NoneAreStored<R>(ep: Endpoint<R>, chunks: seq<seq<string>>, faults: Faults)
    ensures StoredUpTo(ep, chunks, faults)(0)
  {
  }

  /** What a lookup finds under a key is stored and has that key, whatever failed. */
  lemma FetchedIsStored<R>(ep: Endpoint<R>, values: seq<string>, size: nat, faults: Faults, k: string)
    requires size >= 1 && k in Fetched(ep, values, size, faults)
    ensures Fetched(ep, values, size, faults)[k] in ep.records
    ensures ep.keyOf(Fetched(ep, values, size, faults)[k]) == Some(k)
  {
    var chunks := Chunks(values, size);
    NoneAreStored(ep, chunks, faults);
    forall n: nat | StoredUpTo(ep, chunks, faults)(n) ensures StoredUpTo(ep, chunks, faults)(n + 1) {
      NextAreStored(ep, chunks, faults, n);
    }
    StepByStep(StoredUpTo(ep, chunks, faults), |chunks|);
    assert AllStored(ep, chunks, faults, |chunks|);
    FirstByKeyIsFirst(ep.keyOf, Received(ep, chunks, faults, |chunks|), k);
    FirstWithMeaning(ep.keyOf, Received(ep, chunks, faults, |chunks|), k);
  }

  ghost predicate NothingYet<R>(ep: Endpoint<R>, chunks: seq<seq<string>>, faults: Faults, n: nat) {
    n <= |chunks| ==> forall r :: r !in Received(ep, chunks, faults, n)
  }

  lemma NothingMore<R>(ep: Endpoint<R>, chunks: seq<seq<string>>, faults: Faults, n: nat)
    requires faults(n) == Some(0) && NothingYet(ep, chunks, faults, n)
    ensures NothingYet(ep, chunks, faults, n + 1)
  {
    if n < |chunks| {
      ReceivedStep(ep, chunks, faults, n);
      NothingDelivered(ep, chunks[n]);
    }
  }

  ghost function NothingUpTo<R>(ep: Endpoint<R>, chunks: seq<seq<string>>, faults: Faults): nat -> bool {
    (n: nat) => NothingYet(ep, chunks, faults, n)
  }

  lemma NothingAtFirst<R>(ep: Endpoint<R>, chunks: seq<seq<string>>, faults: Faults)
    ensures NothingUpTo(ep, chunks, faults)(0)
  {
  }

  lemma NothingFound<R>(keyOf: R -> Option<string>, recs: seq<R>)
    requires |recs| == 0
    ensures FirstByKey(keyOf, recs) == map[]
  {
  }

  lemma HasMember<R>(recs: seq<R>)
    ensures recs != [] ==> exists r :: r in recs
  {
    if recs != [] { assert recs[0] in recs; }
  }

  /** Chunks that all fail before their first record find nothing. */
  lemma NothingFetched<R>(ep: Endpoint<R>, values: seq<string>, size: nat, faults: Faults)
    requires size >= 1 && forall i: nat :: faults(i) == Some(0)
    ensures Fetched(ep, values, size, faults) == map[]
  {
    var chunks := Chunks(values, size);
    NothingAtFirst(ep, chunks, faults);
    forall n: nat | NothingUpTo(ep, chunks, faults)(n) ensures NothingUpTo(ep, chunks, faults)(n + 1) {
      NothingMore(ep, chunks, faults, n);
    }
    StepByStep(NothingUpTo(ep, chunks, faults), |chunks|);
    assert NothingYet(ep, chunks, faults, |chunks|);
    HasMember(Received(ep, chunks, faults, |chunks|));
    NothingFound(ep.keyOf, Received(ep, chunks, faults, |chunks|));
  }

  lemma {:induction false} FlattenSnoc<A>(xss: seq<seq<A>>, xs: seq<A>)
    ensures Flatten(xss + [xs]) == Flatten(xss) + xs
  {
    if xss == [] {
      assert [] + [xs] == [xs];
      assert Flatten([xs]) == xs + Flatten([]);
    } else {
      FlattenSnoc(xss[1..], xs);
      assert (xss + [xs])[1..] == xss[1..] + [xs];
    }
  }

  /** A key is resolved to its holder or not at all, and always when nothing failed. */
  lemma FetchedHolds<R>(ep: Endpoint<R>, values: seq<string>, size: nat, faults: Faults, k: string)
    requires size >= 1 && Determined(ep, ep.records, k)
    ensures var wanted := Elements(values);
            && (k in Fetched(ep, values, size, faults) ==>
                  Some(Fetched(ep, values, size, faults)[k]) == HolderIn(ep, k, wanted))
            && (!Degraded(values, size, faults) && HolderIn(ep, k, wanted).Some? ==>
                  k in Fetched(ep, values, size, faults))
  {
    var chunks := Chunks(values, size);
    ChunksMeaning(values, size);
    assert chunks[..|chunks|] == chunks;
    ReceivedHolds(ep, chunks, faults, |chunks|, k);
    FirstByKeyIsFirst(ep.keyOf, Received(ep, chunks, faults, |chunks|), k);
  }

  /** A run with failures returns a sub-map of the clean result, whatever the sizes. */
  lemma DegradedIsSubMap<R>(ep: Endpoint<R>, values: seq<string>, size: nat, faults: Faults,
                            cleanSize: nat, clean: Faults)
    requires size >= 1 && cleanSize >= 1 && KeyDeterminesField(ep) && !Degraded(values, cleanSize, clean)
    ensures forall k :: k in Fetched(ep, values, size, faults) ==>
              k in Fetched(ep, values, cleanSize, clean)
              && Fetched(ep, values, cleanSize, clean)[k] == Fetched(ep, values, size, faults)[k]
  {
    forall k | k in Fetched(ep, values, size, faults)
      ensures k in Fetched(ep, values, cleanSize, clean)
              && Fetched(ep, values, cleanSize, clean)[k] == Fetched(ep, values, size, faults)[k]
    {
      FetchedHolds(ep, values, size, faults, k);
      FetchedHolds(ep, values, cleanSize, clean, k);
    }
  }

  function NoFaults(): Faults {
    i => None
  }

  ghost predicate ChunkSizeIrrelevant<R>(ep: Endpoint<R>) {
    forall values, s: nat, t: nat :: s >= 1 && t >= 1 ==>
      Fetched(ep, values, s, NoFaults()) == Fetched(ep, values, t, NoFaults())
  }

  /** With two values asked for, of which `m` holds the key's first record but `h` has one
      too, chunk sizes 1 and 2 disagree. */
  lemma FirstRequestWins<R>(ep: Endpoint<R>, k: string, h: string, m: string, x: R, w: R)
    requires FirstWith(ep.keyOf, Answer(ep, {h, m}), k) == Some(x) && ep.field(x) == Some(m) && h != m
    requires w in ep.records && ep.keyOf(w) == Some(k) && ep.field(w) == Some(h)
    ensures Fetched(ep, [h, m], 1, NoFaults()) != Fetched(ep, [h, m], 2, NoFaults())
  {
    InAnswer(ep, {h}, w);
    FirstWithMeaning(ep.keyOf, Answer(ep, {h}), k);
    var y := FirstWith(ep.keyOf, Answer(ep, {h}), k).value;
    InAnswer(ep, {h}, y);
    FetchTwo(ep, h, m, k);
  }

  /** With the filtered field not determined by the merge key, two values and chunk
      sizes 1 and 2 give different records for that key. */
  lemma ChunkSizeMatters<R>(ep: Endpoint<R>, r: R, s: R)
    requires r in ep.records && s in ep.records && SameKey(ep, r, s) && ep.field(r) != ep.field(s)
    ensures exists values :: Fetched(ep, values, 1, NoFaults()) != Fetched(ep, values, 2, NoFaults())
  {
    var k, f, g := ep.keyOf(r).value, ep.field(r).value, ep.field(s).value;
    InAnswer(ep, {f, g}, r);
    FirstWithMeaning(ep.keyOf, Answer(ep, {f, g}), k);
    var x := FirstWith(ep.keyOf, Answer(ep, {f, g}), k).value;
    InAnswer(ep, {f, g}, x);
    if ep.field(x) == Some(f) {
      assert {g, f} == {f, g};
      FirstRequestWins(ep, k, g, f, x, s);
    } else {
      FirstRequestWins(ep, k, f, g, x, r);
    }
  }

  lemma InAnswer<R>(ep: Endpoint<R>, wanted: set<string>, r: R)
    ensures r in Answer(ep, wanted) <==> r in ep.records && ep.field(r).Some? && ep.field(r).value in wanted
  {
    FlatMapSource(Matching(ep, wanted), ep.records, r);
    if r in ep.records && ep.field(r).Some? && ep.field(r).value in wanted {
      var i :| 0 <= i < |ep.records| && ep.records[i] == r;
      assert r in Matching(ep, wanted)(ep.records[i]);
    }
  }

  lemma FetchTwo<R>(ep: Endpoint<R>, h: string, m: string, k: string)
    requires FirstWith(ep.keyOf, Answer(ep, {h}), k).Some? && FirstWith(ep.keyOf, Answer(ep, {h, m}), k).Some?
    ensures var one, two := Fetched(ep, [h, m], 1, NoFaults()), Fetched(ep, [h, m], 2, NoFaults());
            && k in one && FirstWith(ep.keyOf, Answer(ep, {h}), k) == Some(one[k])
            && k in two && FirstWith(ep.keyOf, Answer(ep, {h, m}), k) == Some(two[k])
  {
    var ones, twos := [[h], [m]], [[h, m]];
    assert [h, m][1..] == [m] && [h, m][..1] == [h];
    assert Chunks([h, m], 1) == ones && Chunks([h, m], 2) == twos;
    assert Elements([h]) == {h} && Elements([h, m]) == {h, m};
    ReceivedClean(ep, twos, 0);
    ReceivedClean(ep, ones, 0);
    ReceivedClean(ep, ones, 1);
    FirstWithAppend(ep.keyOf, [], Answer(ep, {h, m}), k);
    FirstWithAppend(ep.keyOf, [], Answer(ep, {h}), k);
    FirstWithAppend(ep.keyOf, Received(ep, ones, NoFaults(), 1), Answer(ep, Elements([m])), k);
    FirstByKeyIsFirst(ep.keyOf, Received(ep, ones, NoFaults(), 2), k);
    FirstByKeyIsFirst(ep.keyOf, Received(ep, twos, NoFaults(), 1), k);
  }

  lemma ReceivedClean<R>(ep: Endpoint<R>, chunks: seq<seq<string>>, n: nat)
    requires n < |chunks|
    ensures Received(ep, chunks, NoFaults(), n + 1)
         == Received(ep, chunks, NoFaults(), n) + Answer(ep, Elements(chunks[n]))
  {
  }

  /** The chunk size never matters, for any list of values, exactly when the merge key
      determines the filtered field. */
  lemma ChunkSizeIrrelevantIff<R(!new)>(ep: Endpoint<R>)
    ensures ChunkSizeIrrelevant(ep) <==> KeyDeterminesField(ep)
  {
    if KeyDeterminesField(ep) {
      forall values, s: nat, t: nat | s >= 1 && t >= 1
        ensures Fetched(ep, values, s, NoFaults()) == Fetched(ep, values, t, NoFaults())
      {
        DegradedIsSubMap(ep, values, s, NoFaults(), t, NoFaults());
        DegradedIsSubMap(ep, values, t, NoFaults(), s, NoFaults());
      }
    } else {
      var k :| !Determined(ep, ep.records, k);
      var r, s :| r in ep.records && s in ep.records && SameKey(ep, r, s) && ep.keyOf(r) == Some(k)
          && ep.field(r) != ep.field(s);
      ChunkSizeMatters(ep, r, s);
    }
  }
}
