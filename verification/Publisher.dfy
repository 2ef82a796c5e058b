/** The OTLP publisher: grouping by sorted label tuples, the collision guard, the stores,
    the merge with global labels and the confirmed flush. */
module Publisher {
  import opened Common
  import Sorting

  // ---- Order on strings ------------------------------------------------------------

  /** Code-point order. */
  predicate TextLe(a: string, b: string) {
    a == "" || (b != "" && (a[0] < b[0] || (a[0] == b[0] && TextLe(a[1..], b[1..]))))
  }

  lemma {:induction false} TextLeTotal(a: string, b: string)
    ensures TextLe(a, b) || TextLe(b, a)
  {
    if a != "" && b != "" && a[0] == b[0] {
      TextLeTotal(a[1..], b[1..]);
    }
  }

  lemma {:induction false} TextLeAntisymmetric(a: string, b: string)
    requires TextLe(a, b) && TextLe(b, a)
    ensures a == b
  {
    if a != "" {
      TextLeAntisymmetric(a[1..], b[1..]);
      assert a == [a[0]] + a[1..] && b == [b[0]] + b[1..];
    }
  }

  lemma {:induction false} TextLeTransitive(a: string, b: string, c: string)
    requires TextLe(a, b) && TextLe(b, c)
    ensures TextLe(a, c)
  {
    if a != "" && a[0] == b[0] && b[0] == c[0] {
      TextLeTransitive(a[1..], b[1..], c[1..]);
    }
  }

  // ---- Label tuples ------------------------------------------------------------------

  datatype Pair = Pair(key: string, text: string)

  /** Tuple order: by key, then by text. */
  predicate PairLe(p: Pair, q: Pair) {
    if p.key == q.key then TextLe(p.text, q.text) else TextLe(p.key, q.key)
  }

  function PairBefore(): (Pair, Pair) -> bool {
    (p: Pair, q: Pair) => p != q && PairLe(p, q)
  }

  lemma PairLeTransitive(p: Pair, q: Pair, r: Pair)
    requires PairLe(p, q) && PairLe(q, r)
    ensures PairLe(p, r)
  {
    if p.key == q.key == r.key {
      TextLeTransitive(p.text, q.text, r.text);
    } else {
      TextLeTotal(p.key, p.key);
      TextLeTotal(q.key, q.key);
      TextLeTransitive(p.key, q.key, r.key);
      if p.key == r.key { TextLeAntisymmetric(p.key, q.key); }
    }
  }

  lemma PairLeAntisymmetric(p: Pair, q: Pair)
    requires PairLe(p, q) && PairLe(q, p)
    ensures p == q
  {
    if p.key == q.key {
      TextLeAntisymmetric(p.text, q.text);
    } else {
      TextLeAntisymmetric(p.key, q.key);
    }
  }

  lemma PairsAreOrdered()
    ensures Sorting.StrictOrder(PairBefore())
  {
    var before := PairBefore();
    forall p, q | p != q ensures before(p, q) || before(q, p) {
      TextLeTotal(p.key, q.key);
      TextLeTotal(p.text, q.text);
    }
    forall p, q | before(p, q) ensures p != q && !before(q, p) {
      if before(q, p) { PairLeAntisymmetric(p, q); }
    }
    forall p, q, r | before(p, q) && before(q, r) ensures before(p, r) {
      PairLeTransitive(p, q, r);
      if p == r { PairLeAntisymmetric(p, q); }
    }
  }

  /** The sorted permutation of a list of different pairs. */
  function Sorted(pairs: seq<Pair>): seq<Pair> {
    Sorting.Sorted(PairBefore(), pairs)
  }

  /** Strictly ascending keys. */
  ghost predicate Ascending(pairs: seq<Pair>) {
    forall i, j :: 0 <= i < j < |pairs| ==> pairs[i].key != pairs[j].key && TextLe(pairs[i].key, pairs[j].key)
  }

  function KeyOf(): Pair -> string {
    (p: Pair) => p.key
  }

  /** The dictionary of a list of pairs; the last one with a key wins. */
  function Dict(pairs: seq<Pair>): map<string, string> {
    if pairs == [] then map[] else Dict(pairs[..|pairs| - 1])[pairs[|pairs| - 1].key := pairs[|pairs| - 1].text]
  }

  lemma {:induction false} DictKeys(pairs: seq<Pair>, key: string)
    ensures key in Dict(pairs) <==> exists p :: p in pairs && p.key == key
  {
    if pairs != [] {
      DictKeys(pairs[..|pairs| - 1], key);
    }
  }

  lemma {:induction false} DictHolds(pairs: seq<Pair>, p: Pair)
    requires DistinctBy(KeyOf(), pairs) && p in pairs
    ensures p.key in Dict(pairs) && Dict(pairs)[p.key] == p.text
  {
    var n := |pairs| - 1;
    if p != pairs[n] {
      DictHolds(pairs[..n], p);
      var i :| 0 <= i < n && pairs[i] == p;
      assert KeyOf()(pairs[i]) != KeyOf()(pairs[n]);
    }
  }

  lemma SortedMeaning(pairs: seq<Pair>)
    requires DistinctBy(KeyOf(), pairs)
    ensures Ascending(Sorted(pairs)) && forall q :: q in Sorted(pairs) <==> q in pairs
  {
    var sorted := Sorted(pairs);
    PairsAreOrdered();
    Sorting.SortedMeaning(PairBefore(), pairs);
    forall i, j | 0 <= i < j < |sorted| ensures sorted[i].key != sorted[j].key && TextLe(sorted[i].key, sorted[j].key) {
      assert PairBefore()(sorted[i], sorted[j]) && sorted[i] in pairs && sorted[j] in pairs;
      KeysDiffer(pairs, sorted[i], sorted[j]);
    }
  }

  lemma KeysDiffer(pairs: seq<Pair>, p: Pair, q: Pair)
    requires DistinctBy(KeyOf(), pairs) && p in pairs && q in pairs && p != q
    ensures p.key != q.key
  {
    var i :| 0 <= i < |pairs| && pairs[i] == p;
    var j :| 0 <= j < |pairs| && pairs[j] == q;
    assert KeyOf()(pairs[i]) != KeyOf()(pairs[j]);
  }

  lemma AscendingIsDistinct(pairs: seq<Pair>)
    requires Ascending(pairs)
    ensures DistinctBy(KeyOf(), pairs)
  {
  }

  /** Two lists of the same pairs have the same dictionary. */
  lemma SameDict(a: seq<Pair>, b: seq<Pair>)
    requires DistinctBy(KeyOf(), a) && DistinctBy(KeyOf(), b) && forall q :: q in a <==> q in b
    ensures Dict(a) == Dict(b)
  {
    forall k ensures k in Dict(a) <==> k in Dict(b) {
      DictKeys(a, k);
      DictKeys(b, k);
    }
    forall k | k in Dict(a) ensures Dict(a)[k] == Dict(b)[k] {
      DictKeys(a, k);
      var p :| p in a && p.key == k;
      DictHolds(a, p);
      DictHolds(b, p);
    }
  }

  lemma InDict(pairs: seq<Pair>, p: Pair)
    requires Ascending(pairs)
    ensures p in pairs <==> p.key in Dict(pairs) && Dict(pairs)[p.key] == p.text
  {
    AscendingIsDistinct(pairs);
    DictKeys(pairs, p.key);
    if p.key in Dict(pairs) {
      var q :| q in pairs && q.key == p.key;
      DictHolds(pairs, q);
    }
  }

  /** An ascending list is determined by its dictionary. */
  lemma AscendingUnique(a: seq<Pair>, b: seq<Pair>)
    requires Ascending(a) && Ascending(b) && Dict(a) == Dict(b)
    ensures a == b
  {
    forall p ensures p in a <==> p in b {
      InDict(a, p);
      InDict(b, p);
    }
    PairsAreOrdered();
    Sorting.AscendingUnique(PairBefore(), a, b);
  }

  // ---- Samples -------------------------------------------------------------------------

  /** A label as handed to the publisher; a label without a text is dropped. */
  datatype Item = Item(key: string, text: Option<string>)
  datatype Raw<M> = Raw(name: M, value: real, items: seq<Item>)

  function ItemKey(): Item -> string {
    (i: Item) => i.key
  }

  /** The items of a dictionary, in any order. */
  ghost predicate DictItems(items: seq<Item>) {
    DistinctBy(ItemKey(), items)
  }

  function PresentItem(): Item -> seq<Pair> {
    (i: Item) => if i.text.Some? then [Pair(i.key, i.text.value)] else []
  }

  function Present(items: seq<Item>): seq<Pair> {
    FlatMap(PresentItem(), items)
  }

  /** The labels a sample means. */
  function LabelMap(items: seq<Item>): map<string, string> {
    Dict(Present(items))
  }

  /** The tuple it is grouped under. */
  function LabelKey(items: seq<Item>): seq<Pair> {
    Sorted(Present(items))
  }

  /** A sample's labels are its items with a text. */
  lemma LabelMapMeaning(items: seq<Item>, k: string, v: string)
    requires DictItems(items)
    ensures k in LabelMap(items) && LabelMap(items)[k] == v <==> Item(k, Some(v)) in items
  {
    var pairs := Present(items);
    PresentDistinct(items);
    DictKeys(pairs, k);
    FlatMapSource(PresentItem(), items, Pair(k, v));
    if Pair(k, v) in pairs { DictHolds(pairs, Pair(k, v)); }
    if k in Dict(pairs) {
      var p :| p in pairs && p.key == k;
      DictHolds(pairs, p);
    }
    if Item(k, Some(v)) in items {
      var i :| 0 <= i < |items| && items[i] == Item(k, Some(v));
      assert Pair(k, v) in PresentItem()(items[i]);
    }
  }

  lemma PresentDistinct(items: seq<Item>)
    requires DictItems(items)
    ensures DistinctBy(KeyOf(), Present(items))
  {
    forall i, j, x, y | 0 <= i < j < |items| && x in PresentItem()(items[i]) && y in PresentItem()(items[j])
      ensures KeyOf()(x) != KeyOf()(y)
    {
      assert ItemKey()(items[i]) != ItemKey()(items[j]);
    }
    FlatMapDistinct(PresentItem(), items, KeyOf());
  }

  lemma LabelKeyMeaning(items: seq<Item>)
    requires DictItems(items)
    ensures Ascending(LabelKey(items)) && Dict(LabelKey(items)) == LabelMap(items)
  {
    PresentDistinct(items);
    SortedMeaning(Present(items));
    AscendingIsDistinct(LabelKey(items));
    SameDict(LabelKey(items), Present(items));
  }

  /** Sorted label tuples are canonical: equal exactly when the label maps are. */
  lemma TuplesAreCanonical(a: seq<Item>, b: seq<Item>)
    requires DictItems(a) && DictItems(b)
    ensures LabelKey(a) == LabelKey(b) <==> LabelMap(a) == LabelMap(b)
  {
    LabelKeyMeaning(a);
    LabelKeyMeaning(b);
    if LabelMap(a) == LabelMap(b) {
      AscendingUnique(LabelKey(a), LabelKey(b));
    }
  }

  // ---- Grouping --------------------------------------------------------------------------

  type Store = map<seq<Pair>, real>

  /** Samples by metric name and label tuple; the last value wins. */
  function Grouped<M(==)>(samples: seq<Raw<M>>): map<M, Store> {
    if samples == [] then map[]
    else
      var before := Grouped(samples[..|samples| - 1]);
      var s := samples[|samples| - 1];
      Record(before, s.name, LabelKey(s.items), s.value)
  }

  /** One more value under a metric and tuple. */
  function Record<M(==)>(grouped: map<M, Store>, name: M, key: seq<Pair>, value: real): map<M, Store> {
    grouped[name := (if name in grouped then grouped[name] else map[])[key := value]]
  }

  method Group<M(==)>(samples: seq<Raw<M>>) returns (grouped: map<M, Store>)
    ensures grouped == Grouped(samples)
  {
    grouped := map[];
    for i := 0 to |samples|
      invariant grouped == Grouped(samples[..i])
    {
      assert samples[..i + 1][..i] == samples[..i];
      var s := samples[i];
      if s.name !in grouped {
        grouped := grouped[s.name := map[]];
      }
      grouped := grouped[s.name := grouped[s.name][LabelKey(s.items) := s.value]];
    }
    assert samples[..|samples|] == samples;
  }

  function Lookup<M(==)>(grouped: map<M, Store>, name: M, key: seq<Pair>): Option<real> {
    if name in grouped && key in grouped[name] then Some(grouped[name][key]) else None
  }

  lemma RecordMeaning<M>(grouped: map<M, Store>, name: M, key: seq<Pair>, value: real, n: M, k: seq<Pair>)
    ensures Lookup(Record(grouped, name, key, value), n, k)
         == if n == name && k == key then Some(value) else Lookup(grouped, n, k)
  {
  }

  function Bears<M(==)>(name: M, key: seq<Pair>): Raw<M> -> bool {
    (s: Raw<M>) => s.name == name && LabelKey(s.items) == key
  }

  /** Sample `i` is the last one of metric `name` under tuple `key`. */
  ghost predicate LastAt<M>(samples: seq<Raw<M>>, name: M, key: seq<Pair>, i: nat) {
    i < |samples| && Bears(name, key)(samples[i]) && forall j :: i < j < |samples| ==> !Bears(name, key)(samples[j])
  }

  /** The last position at which `p` holds, if any. */
  function LastWhere<A>(p: A -> bool, xs: seq<A>): Option<nat> {
    if xs == [] then None else if p(xs[|xs| - 1]) then Some(|xs| - 1) else LastWhere(p, xs[..|xs| - 1])
  }

  lemma {:induction false} LastWhereMeaning<A>(p: A -> bool, xs: seq<A>)
    ensures match LastWhere(p, xs)
            case Some(i) => i < |xs| && p(xs[i]) && forall j :: i < j < |xs| ==> !p(xs[j])
            case None => forall x :: x in xs ==> !p(x)
  {
    if xs != [] {
      LastWhereMeaning(p, xs[..|xs| - 1]);
    }
  }

  /** The position of that sample, if any. */
  function LastOf<M(==)>(samples: seq<Raw<M>>, name: M, key: seq<Pair>): Option<nat> {
    LastWhere(Bears(name, key), samples)
  }

  lemma {:induction false} GroupedIsLast<M>(samples: seq<Raw<M>>, name: M, key: seq<Pair>)
    ensures match LastOf(samples, name, key)
            case Some(i) => i < |samples| && Lookup(Grouped(samples), name, key) == Some(samples[i].value)
            case None => Lookup(Grouped(samples), name, key) == None
  {
    if samples != [] {
      var n := |samples| - 1;
      var s := samples[n];
      GroupedIsLast(samples[..n], name, key);
      RecordMeaning(Grouped(samples[..n]), s.name, LabelKey(s.items), s.value, name, key);
    }
  }

  /** The grouping holds a sample's metric and tuple with the value given last for them. */
  lemma GroupedMeaning<M>(samples: seq<Raw<M>>, name: M, key: seq<Pair>)
    ensures match Lookup(Grouped(samples), name, key)
            case Some(v) => exists i: nat :: LastAt(samples, name, key, i) && samples[i].value == v
            case None => forall s :: s in samples ==> !Bears(name, key)(s)
  {
    LastWhereMeaning(Bears(name, key), samples);
    GroupedIsLast(samples, name, key);
  }

  // ---- The collision guard ------------------------------------------------------------------

  /** Some sample carries a global label's key. */
  ghost predicate Collides<M(!new)>(globals: map<string, string>, samples: seq<Raw<M>>) {
    exists s, k :: s in samples && k in LabelMap(s.items) && k in globals
  }

  ghost predicate StoreCollides(globals: map<string, string>, store: Store) {
    exists key, p :: key in store && p in key && p.key in globals
  }

  function Keys(pairs: seq<Pair>): set<string> {
    set p | p in pairs :: p.key
  }

  method SampleKeys(store: Store) returns (keys: set<string>)
    ensures forall k :: k in keys <==> exists key, p :: key in store && p in key && p.key == k
  {
    keys := {};
    var todo := store.Keys;
    while todo != {}
      invariant todo <= store.Keys
      invariant forall k :: k in keys <==> exists key, p :: key in store.Keys - todo && p in key && p.key == k
    {
      var lt :| lt in todo;
      keys := keys + Keys(lt);
      todo := todo - {lt};
    }
  }

  method FindCollision<M(==, !new)>(globals: map<string, string>, grouped: map<M, Store>) returns (found: Option<M>)
    ensures found.None? <==> forall name :: name in grouped ==> !StoreCollides(globals, grouped[name])
    ensures found.Some? ==> found.value in grouped && StoreCollides(globals, grouped[found.value])
  {
    var todo := grouped.Keys;
    while todo != {}
      invariant todo <= grouped.Keys
      invariant forall name :: name in grouped.Keys - todo ==> !StoreCollides(globals, grouped[name])
    {
      var name :| name in todo;
      var keys := SampleKeys(grouped[name]);
      if globals.Keys * keys != {} {
        var k :| k in globals.Keys * keys;
        return Some(name);
      }
      assert forall k :: k in keys && k in globals ==> k in globals.Keys * keys;
      todo := todo - {name};
    }
    found := None;
  }

  /** The guard looks at the tuples; it fires exactly when some sample's label map has a
      global key. */
  lemma GuardMeaning<M(!new)>(globals: map<string, string>, samples: seq<Raw<M>>)
    requires forall s :: s in samples ==> DictItems(s.items)
    ensures Collides(globals, samples)
       <==> exists name :: name in Grouped(samples) && StoreCollides(globals, Grouped(samples)[name])
  {
    var g := Grouped(samples);
    if Collides(globals, samples) {
      var s, k :| s in samples && k in LabelMap(s.items) && k in globals;
      LabelKeyMeaning(s.items);
      DictKeys(LabelKey(s.items), k);
      GroupedMeaning(samples, s.name, LabelKey(s.items));
      assert StoreCollides(globals, g[s.name]);
    }
    if name :| name in g && StoreCollides(globals, g[name]) {
      var key: seq<Pair>, p: Pair :| key in g[name] && p in key && p.key in globals;
      GroupedMeaning(samples, name, key);
      var i: nat :| LastAt(samples, name, key, i);
      LabelKeyMeaning(samples[i].items);
      DictKeys(key, p.key);
      assert samples[i] in samples;
    }
  }

  // ---- Export ------------------------------------------------------------------------------

  datatype Observation = Observation(value: real, attributes: map<string, string>)

  /** What a gauge's callback yields: each entry with the global labels merged in. */
  function Export(globals: map<string, string>, store: Store): set<Observation> {
    set key | key in store :: Observation(store[key], globals + Dict(key))
  }

  lemma MergeCancels(globals: map<string, string>, a: map<string, string>, b: map<string, string>)
    requires globals + a == globals + b && globals.Keys !! a.Keys && globals.Keys !! b.Keys
    ensures a == b
  {
    forall k ensures k in a <==> k in b {
      assert k in globals + a <==> k in globals + b;
    }
    forall k | k in a ensures a[k] == b[k] {
      assert (globals + a)[k] == a[k] && (globals + b)[k] == b[k];
    }
  }

  /** Merging global labels keeps label sets over `keys` apart exactly when no key is global. */
  lemma MergeInjectiveIff(globals: map<string, string>, keys: set<string>)
    ensures (forall a: map<string, string>, b: map<string, string> ::
               a.Keys <= keys && b.Keys <= keys && globals + a == globals + b ==> a == b)
       <==> globals.Keys !! keys
  {
    if globals.Keys !! keys {
      forall a: map<string, string>, b: map<string, string>
        | a.Keys <= keys && b.Keys <= keys && globals + a == globals + b
        ensures a == b
      {
        MergeCancels(globals, a, b);
      }
    }
    if k :| k in globals && k in keys {
      var a: map<string, string>, b: map<string, string> := map[], map[k := globals[k]];
      assert globals + a == globals + b && k in b && k !in a;
    }
  }

  /** A stored tuple comes from a sample and, past the guard, has no global key. */
  lemma StoredKey<M(!new)>(globals: map<string, string>, samples: seq<Raw<M>>, name: M, key: seq<Pair>)
    requires (forall s :: s in samples ==> DictItems(s.items)) && !Collides(globals, samples)
    requires Lookup(Grouped(samples), name, key).Some?
    ensures Ascending(key) && globals.Keys !! Dict(key).Keys
  {
    GroupedMeaning(samples, name, key);
    var i: nat :| LastAt(samples, name, key, i);
    assert samples[i] in samples;
    LabelKeyMeaning(samples[i].items);
  }

  lemma MergeInjective<M(!new)>(globals: map<string, string>, samples: seq<Raw<M>>, name: M, a: seq<Pair>, b: seq<Pair>)
    requires (forall s :: s in samples ==> DictItems(s.items)) && !Collides(globals, samples)
    requires Lookup(Grouped(samples), name, a).Some? && Lookup(Grouped(samples), name, b).Some?
    requires globals + Dict(a) == globals + Dict(b)
    ensures a == b
  {
    StoredKey(globals, samples, name, a);
    StoredKey(globals, samples, name, b);
    MergeCancels(globals, Dict(a), Dict(b));
    AscendingUnique(a, b);
  }

  /** `v` is the one value exported under the attributes `attributes`. */
  ghost predicate ExportedOnce(globals: map<string, string>, store: Store, attributes: map<string, string>, v: real) {
    forall o :: o in Export(globals, store) && o.attributes == attributes <==> o == Observation(v, attributes)
  }

  /** A tuple no other entry merges to the same attributes as. */
  lemma LoneTuple(globals: map<string, string>, store: Store, key: seq<Pair>)
    requires key in store
             && forall other :: other in store && globals + Dict(other) == globals + Dict(key) ==> other == key
    ensures ExportedOnce(globals, store, globals + Dict(key), store[key])
  {
    forall o | o in Export(globals, store) && o.attributes == globals + Dict(key) ensures o.value == store[key] {
      var other :| other in store && o == Observation(store[other], globals + Dict(other));
    }
  }

  /** Past the guard, each label set of a metric is exported exactly once, with the value
      given last for it. */
  lemma {:induction false} OneObservationEach<M(!new)>(globals: map<string, string>, samples: seq<Raw<M>>, s: Raw<M>)
    requires (forall r :: r in samples ==> DictItems(r.items)) && !Collides(globals, samples) && s in samples
    ensures s.name in Grouped(samples)
    ensures exists i: nat :: LastAt(samples, s.name, LabelKey(s.items), i)
              && ExportedOnce(globals, Grouped(samples)[s.name], globals + LabelMap(s.items), samples[i].value)
  {
    var key, name := LabelKey(s.items), s.name;
    LabelKeyMeaning(s.items);
    GroupedMeaning(samples, name, key);
    var store := Grouped(samples)[name];
    var i: nat :| LastAt(samples, name, key, i) && samples[i].value == store[key];
    forall other | other in store && globals + Dict(other) == globals + Dict(key) ensures other == key {
      MergeInjective(globals, samples, name, other, key);
    }
    LoneTuple(globals, store, key);
  }

  lemma OneLast<M>(samples: seq<Raw<M>>, name: M, key: seq<Pair>, i: nat, j: nat)
    requires LastAt(samples, name, key, i) && LastAt(samples, name, key, j)
    ensures i == j
  {
  }

  lemma ExportedValue(globals: map<string, string>, store: Store, attributes: map<string, string>, v: real, w: real)
    requires ExportedOnce(globals, store, attributes, v)
    ensures Observation(w, attributes) in Export(globals, store) <==> w == v
  {
    var o := Observation(w, attributes);
    assert o in Export(globals, store) && o.attributes == attributes <==> o == Observation(v, attributes);
  }

  lemma Agree<M(!new)>(globals: map<string, string>, samples: seq<Raw<M>>, s: Raw<M>)
    requires (forall r :: r in samples ==> DictItems(r.items)) && !Collides(globals, samples) && s in samples
    ensures s.name in Grouped(samples)
    ensures Observation(s.value, globals + LabelMap(s.items)) in Export(globals, Grouped(samples)[s.name])
       <==> exists i: nat :: LastAt(samples, s.name, LabelKey(s.items), i) && samples[i].value == s.value
  {
    OneObservationEach(globals, samples, s);
    var i: nat :| LastAt(samples, s.name, LabelKey(s.items), i)
                  && ExportedOnce(globals, Grouped(samples)[s.name], globals + LabelMap(s.items), samples[i].value);
    ExportedValue(globals, Grouped(samples)[s.name], globals + LabelMap(s.items), samples[i].value, s.value);
    forall j: nat | LastAt(samples, s.name, LabelKey(s.items), j) ensures j == i {
      OneLast(samples, s.name, LabelKey(s.items), i, j);
    }
  }

  /** No two samples of one metric and label map disagree on the value. */
  ghost predicate Consistent<M(!new)>(samples: seq<Raw<M>>) {
    forall r, s :: r in samples && s in samples && r.name == s.name && LabelMap(r.items) == LabelMap(s.items) ==>
      r.value == s.value
  }

  /** Every sample reaches the backend with its own value exactly when the batch is consistent. */
  lemma {:induction false} EverySampleExportedIff<M(!new)>(globals: map<string, string>, samples: seq<Raw<M>>)
    requires (forall r :: r in samples ==> DictItems(r.items)) && !Collides(globals, samples)
    ensures forall s :: s in samples ==> s.name in Grouped(samples)
    ensures (forall s :: s in samples ==>
               Observation(s.value, globals + LabelMap(s.items)) in Export(globals, Grouped(samples)[s.name]))
       <==> Consistent(samples)
  {
    forall s | s in samples
      ensures s.name in Grouped(samples)
      ensures Observation(s.value, globals + LabelMap(s.items)) in Export(globals, Grouped(samples)[s.name])
         <==> exists i: nat :: LastAt(samples, s.name, LabelKey(s.items), i) && samples[i].value == s.value
      ensures exists i: nat :: LastAt(samples, s.name, LabelKey(s.items), i)
    {
      Agree(globals, samples, s);
      OneObservationEach(globals, samples, s);
    }
    forall r, s | r in samples && s in samples
      ensures LabelKey(r.items) == LabelKey(s.items) <==> LabelMap(r.items) == LabelMap(s.items)
    {
      TuplesAreCanonical(r.items, s.items);
    }
    LastsDecide(samples);
  }

  /** Every sample has the value of the last one of its identity exactly when identities
      determine values. */
  lemma LastsDecide<M(!new)>(samples: seq<Raw<M>>)
    requires forall s :: s in samples ==> exists i: nat :: LastAt(samples, s.name, LabelKey(s.items), i)
    requires forall r, s :: r in samples && s in samples ==>
               (LabelKey(r.items) == LabelKey(s.items) <==> LabelMap(r.items) == LabelMap(s.items))
    ensures (forall s :: s in samples ==>
               exists i: nat :: LastAt(samples, s.name, LabelKey(s.items), i) && samples[i].value == s.value)
       <==> Consistent(samples)
  {
    if Consistent(samples) {
      forall s | s in samples
        ensures exists i: nat :: LastAt(samples, s.name, LabelKey(s.items), i) && samples[i].value == s.value
      {
        var i: nat :| LastAt(samples, s.name, LabelKey(s.items), i);
        assert samples[i] in samples;
      }
    }
    if forall s :: s in samples ==>
      exists i: nat :: LastAt(samples, s.name, LabelKey(s.items), i) && samples[i].value == s.value {
      forall r, s | r in samples && s in samples && r.name == s.name && LabelMap(r.items) == LabelMap(s.items)
        ensures r.value == s.value
      {
        var i: nat :| LastAt(samples, r.name, LabelKey(r.items), i) && samples[i].value == r.value;
        var j: nat :| LastAt(samples, s.name, LabelKey(s.items), j) && samples[j].value == s.value;
        OneLast(samples, r.name, LabelKey(r.items), i, j);
      }
    }
  }

  // ---- Publish ---------------------------------------------------------------------------------

  datatype Flush = Confirmed | Refused | Raised

  const FLUSH_ATTEMPTS := 3
  const FLUSH_BACKOFF_S := 0.75

  /** Flush with retries: up to three attempts, with growing sleeps between them. */
  method FlushWithRetry(flush: nat -> Flush) returns (confirmed: bool, attempts: nat, slept: real)
    ensures 1 <= attempts <= 3
    ensures confirmed <==> exists a :: 1 <= a <= 3 && flush(a).Confirmed?
    ensures confirmed ==> flush(attempts).Confirmed? && forall a :: 1 <= a < attempts ==> !flush(a).Confirmed?
    ensures !confirmed ==> attempts == 3
    ensures slept == 0.75 * (attempts * (attempts - 1)) as real / 2.0 && slept <= 2.25
  {
    confirmed, attempts, slept := false, 0, 0.0;
    while attempts < FLUSH_ATTEMPTS && !confirmed
      invariant 0 <= attempts <= FLUSH_ATTEMPTS
      invariant confirmed ==> attempts > 0 && flush(attempts).Confirmed?
      invariant forall a :: 1 <= a < attempts ==> !flush(a).Confirmed?
      invariant !confirmed && attempts > 0 ==> !flush(attempts).Confirmed?
      invariant slept == if !confirmed && attempts < FLUSH_ATTEMPTS
                         then FLUSH_BACKOFF_S * (attempts * (attempts + 1)) as real / 2.0
                         else FLUSH_BACKOFF_S * (attempts * (attempts - 1)) as real / 2.0
      decreases FLUSH_ATTEMPTS - attempts, !confirmed
    {
      attempts := attempts + 1;
      if flush(attempts).Confirmed? {
        confirmed := true;
      } else if attempts < FLUSH_ATTEMPTS {
        slept := slept + FLUSH_BACKOFF_S * attempts as real;
      }
    }
  }

  datatype Outcome<M> = Collision(name: M) | Published(confirmed: bool)

  class OtlpPublisher<M(==, !new)> {
    const globals: map<string, string>
    var stores: map<M, Store>
    var instruments: set<M>
    var isShutdown: bool

    constructor (globals: map<string, string>)
      ensures this.globals == globals && stores == map[] && instruments == {} && !isShutdown
    {
      this.globals := globals;
      stores := map[];
      instruments := {};
      isShutdown := false;
    }

    /** Replaces the store of every metric of the batch and registers its gauge. */
    method Populate(grouped: map<M, Store>)
      modifies this
      ensures stores == old(stores) + grouped && instruments == old(instruments) + grouped.Keys
      ensures isShutdown == old(isShutdown)
    {
      var todo := grouped.Keys;
      while todo != {}
        invariant todo <= grouped.Keys
        invariant forall n :: n in stores <==> n in old(stores) || (n in grouped && n !in todo)
        invariant forall n :: n in stores ==>
                 stores[n] == if n in grouped && n !in todo then grouped[n] else old(stores)[n]
        invariant instruments == old(instruments) + (grouped.Keys - todo)
        invariant isShutdown == old(isShutdown)
      {
        var name :| name in todo;
        stores := stores[name := grouped[name]];
        if name !in instruments {
          instruments := instruments + {name};
        }
        todo := todo - {name};
      }
    }

    /** One batch. A collision raises before any store or instrument changes; otherwise each
        metric of the batch has its store replaced, and the provider is shut down whatever the
        flush does. */
    method Publish(samples: seq<Raw<M>>, flush: nat -> Flush) returns (out: Outcome<M>)
      requires forall s :: s in samples ==> DictItems(s.items)
      modifies this
      ensures out.Collision? <==> Collides(globals, samples)
      ensures out.Collision? ==>
              stores == old(stores) && instruments == old(instruments) && isShutdown == old(isShutdown)
      ensures out.Collision? ==> out.name in Grouped(samples) && StoreCollides(globals, Grouped(samples)[out.name])
      ensures out.Published? ==> stores == old(stores) + Grouped(samples)
                                 && instruments == old(instruments) + Grouped(samples).Keys && isShutdown
      ensures out.Published? ==> (out.confirmed <==> exists a :: 1 <= a <= 3 && flush(a).Confirmed?)
    {
      var grouped := Group(samples);
      var found := FindCollision(globals, grouped);
      GuardMeaning(globals, samples);
      if found.Some? {
        return Collision(found.value);
      }
      Populate(grouped);
      var confirmed, attempts, slept := FlushWithRetry(flush);
      isShutdown := true;
      out := Published(confirmed);
    }

    /** The callback of one gauge. */
    method Observe(name: M) returns (observations: seq<Observation>, ghost order: seq<seq<Pair>>)
      ensures name !in stores ==> observations == []
      ensures name in stores ==>
                && |observations| == |order| && Distinct(order) && (forall key :: key in order <==> key in stores[name])
                && forall i :: 0 <= i < |order| ==>
                     observations[i] == Observation(stores[name][order[i]], globals + Dict(order[i]))
      ensures name in stores ==> forall o :: o in observations <==> o in Export(globals, stores[name])
    {
      observations, order := [], [];
      if name !in stores {
        return;
      }
      var store := stores[name];
      var todo := store.Keys;
      while todo != {}
        invariant todo <= store.Keys
        invariant |observations| == |order| && Distinct(order)
                 && forall key :: key in order <==> key in store.Keys - todo
        invariant forall i :: 0 <= i < |order| ==>
                    order[i] in store && observations[i] == Observation(store[order[i]], globals + Dict(order[i]))
      {
        var key :| key in todo;
        assert key !in order;
        observations := observations + [Observation(store[key], globals + Dict(key))];
        order := order + [key];
        todo := todo - {key};
      }
      forall o | o in Export(globals, store) ensures o in observations {
        var key :| key in store && o == Observation(store[key], globals + Dict(key));
        assert key in order;
        var i :| 0 <= i < |order| && order[i] == key;
        assert observations[i] == o;
      }
    }
  }
}
