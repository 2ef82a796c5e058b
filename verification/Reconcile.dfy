/** The generic reconciler: `_sync_entities` diffs an upstream view against a cache
    table behind two delete guards, and `_sync_devices` applies the diff in one
    transaction. An `Entity` carries what differs between the synchronised tables. */
module Reconcile {
  import opened Common

  /** `getId` and `changed` belong to the diff, the rest to the ORM class. A `None`
      from `fromDomain` is the converter raising on a missing key. */
  datatype Entity<!D, !R> = Entity(
    getId: D -> string,
    fromDomain: D -> Option<R>,
    toDomain: R -> D,
    pk: R -> string,
    rekey: (R, string) -> R,
    changed: (D, D) -> bool)

  type Table<R> = map<string, R>

  datatype Outcome = Synced | MassDeleteRefused | Failed

  /** What every ORM class guarantees about its key column. */
  ghost predicate WellKeyed<D(!new), R(!new)>(e: Entity<D, R>) {
    && (forall r :: e.getId(e.toDomain(r)) == e.pk(r))
    && (forall r, k :: e.pk(e.rekey(r, k)) == k)
    && (forall r :: e.rekey(r, e.pk(r)) == r)
  }

  /** Rows are stored under their own key. */
  ghost predicate Keyed<D, R>(e: Entity<D, R>, t: Table<R>) {
    forall k :: k in t ==> e.pk(t[k]) == k
  }

  // ---- The diff ------------------------------------------------------------------

  /** Items by id; a later item wins. */
  function ItemMap<D, R>(e: Entity<D, R>, items: seq<D>): map<string, D> {
    if items == [] then map[]
    else ItemMap(e, items[..|items| - 1])[e.getId(items[|items| - 1]) := items[|items| - 1]]
  }

  /** The table as the diff sees it. */
  function View<D, R>(e: Entity<D, R>, t: Table<R>): map<string, D> {
    map k | k in t :: e.toDomain(t[k])
  }

  function NewOnly<D>(a: map<string, D>, cached: map<string, D>): string -> seq<D> {
    i => if i in a && i !in cached then [a[i]] else []
  }

  function ChangedOnly<D, R>(e: Entity<D, R>, a: map<string, D>, cached: map<string, D>): string -> seq<D> {
    i => if i in a && i in cached && e.changed(cached[i], a[i]) then [a[i]] else []
  }

  /** The circuit breaker trips when more than half of the cache would go. */
  predicate Refused(cacheIds: set<string>, apiIds: set<string>, allowDeletes: bool, allowMassDelete: bool) {
    allowDeletes && !allowMassDelete && 2 * |cacheIds - apiIds| > |cacheIds|
  }

  function Deletes(cacheIds: set<string>, apiIds: set<string>, allowDeletes: bool, allowMassDelete: bool): set<string> {
    if !allowDeletes || Refused(cacheIds, apiIds, allowDeletes, allowMassDelete) then {} else cacheIds - apiIds
  }

  // ---- The transaction -------------------------------------------------------------

  /** An update rewrites every column but the key of a row that is still there. */
  function UpdateOne<D, R>(e: Entity<D, R>, t: Table<R>, d: D): Option<Table<R>> {
    if e.getId(d) !in t then Some(t)
    else if e.fromDomain(d).None? then None
    else Some(t[e.getId(d) := e.rekey(e.fromDomain(d).value, e.getId(d))])
  }

  /** An insert fails on a missing key and on a duplicate primary key. */
  function InsertOne<D, R>(e: Entity<D, R>, t: Table<R>, d: D): Option<Table<R>> {
    var row := e.fromDomain(d);
    if row.None? || e.pk(row.value) in t then None else Some(t[e.pk(row.value) := row.value])
  }

  function ApplyUpdates<D, R>(e: Entity<D, R>, t: Table<R>, ups: seq<D>): Option<Table<R>> {
    if ups == [] then Some(t)
    else
      match ApplyUpdates(e, t, ups[..|ups| - 1])
      case None => None
      case Some(u) => UpdateOne(e, u, ups[|ups| - 1])
  }

  function ApplyInserts<D, R>(e: Entity<D, R>, t: Table<R>, ins: seq<D>): Option<Table<R>> {
    if ins == [] then Some(t)
    else
      match ApplyInserts(e, t, ins[..|ins| - 1])
      case None => None
      case Some(u) => InsertOne(e, u, ins[|ins| - 1])
  }

  lemma ApplyUpdatesSnoc<D, R>(e: Entity<D, R>, t: Table<R>, ups: seq<D>, d: D)
    requires ApplyUpdates(e, t, ups).Some?
    ensures ApplyUpdates(e, t, ups + [d]) == UpdateOne(e, ApplyUpdates(e, t, ups).value, d)
  {
    assert (ups + [d])[..|ups|] == ups;
  }

  lemma ApplyInsertsSnoc<D, R>(e: Entity<D, R>, t: Table<R>, ins: seq<D>, d: D)
    requires ApplyInserts(e, t, ins).Some?
    ensures ApplyInserts(e, t, ins + [d]) == InsertOne(e, ApplyInserts(e, t, ins).value, d)
  {
    assert (ins + [d])[..|ins|] == ins;
  }

  /** All or nothing: `None` means the transaction rolled back. */
  function Apply<D, R>(e: Entity<D, R>, t: Table<R>, ins: seq<D>, ups: seq<D>, del: set<string>, commitOk: bool)
    : Option<Table<R>>
  {
    match ApplyUpdates(e, t - del, ups)
    case None => None
    case Some(u) => if commitOk then ApplyInserts(e, u, ins) else None
  }

  datatype Diff<D> = Diff(ins: seq<D>, ups: seq<D>, del: set<string>, refused: bool)

  /** What one reconciliation decides to do. The first run inserts the list as it is.
      `order` is the unspecified iteration order over the ids. */
  function Plan<D, R>(e: Entity<D, R>, t: Table<R>, api: seq<D>, order: seq<string>,
                      allowDeletes: bool, allowMassDelete: bool): Diff<D>
  {
    var a := ItemMap(e, api);
    if |t| == 0 then Diff(api, [], {}, false)
    else Diff(FlatMap(NewOnly(a, View(e, t)), order), FlatMap(ChangedOnly(e, a, View(e, t)), order),
              Deletes(t.Keys, a.Keys, allowDeletes, allowMassDelete),
              Refused(t.Keys, a.Keys, allowDeletes, allowMassDelete))
  }

  datatype Result<R> = Result(table: Table<R>, outcome: Outcome)

  function Commit<D, R>(e: Entity<D, R>, t: Table<R>, diff: Diff<D>, commitOk: bool): Result<R> {
    match Apply(e, t, diff.ins, diff.ups, diff.del, commitOk)
    case None => Result(t, Failed)
    case Some(u) => Result(u, if diff.refused then MassDeleteRefused else Synced)
  }

  /** One reconciliation. */
  function Step<D, R>(e: Entity<D, R>, t: Table<R>, api: seq<D>, order: seq<string>,
                      allowDeletes: bool, allowMassDelete: bool, commitOk: bool): Result<R>
  {
    Commit(e, t, Plan(e, t, api, order, allowDeletes, allowMassDelete), commitOk)
  }

  ghost predicate IsOrder<D>(order: seq<string>, a: map<string, D>) {
    Distinct(order) && a.Keys == set i | i in order
  }

  // ---- The imperative form ----------------------------------------------------------

  class CacheTable<D, R> {
    var rows: Table<R>

    constructor (rows: Table<R>)
      ensures this.rows == rows
    {
      this.rows := rows;
    }

    /** Read the whole table as domain objects, in any order. */
    method GetAll(e: Entity<D, R>) returns (items: seq<D>)
      requires Keyed(e, rows)
      requires forall k :: k in rows ==> e.getId(e.toDomain(rows[k])) == k
      ensures ItemMap(e, items) == View(e, rows)
      ensures items == [] <==> |rows| == 0
    {
      items := [];
      var left := rows.Keys;
      while left != {}
        invariant left <= rows.Keys
        invariant ItemMap(e, items) == map k | k in rows.Keys - left :: e.toDomain(rows[k])
        invariant items == [] <==> left == rows.Keys
        decreases |left|
      {
        var k :| k in left;
        var more := items + [e.toDomain(rows[k])];
        assert more[..|more| - 1] == items;
        items := more;
        left := left - {k};
      }
      assert |rows.Keys| == |rows|;
    }

    /** Apply a diff in one transaction; a failure anywhere leaves the table as it was. */
    method SyncDevices(e: Entity<D, R>, toInsert: seq<D>, toUpdate: seq<D>, toDelete: set<string>, commitOk: bool)
      returns (ok: bool)
      modifies this
      ensures var result := Apply(e, old(rows), toInsert, toUpdate, toDelete, commitOk);
              ok == result.Some? && rows == if ok then result.value else old(rows)
    {
      var work := rows - toDelete;
      for i := 0 to |toUpdate|
        invariant rows == old(rows)
        invariant ApplyUpdates(e, rows - toDelete, toUpdate[..i]) == Some(work)
      {
        var d := toUpdate[i];
        assert toUpdate[..i + 1][..i] == toUpdate[..i];
        if e.getId(d) in work {
          var mapped := e.fromDomain(d);
          if mapped.None? {
            UpdatesFailForGood(e, rows - toDelete, toUpdate, i + 1);
            return false;
          }
          work := work[e.getId(d) := e.rekey(mapped.value, e.getId(d))];
        }
      }
      assert toUpdate[..|toUpdate|] == toUpdate;
      if !commitOk {
        return false;
      }
      ghost var base := work;
      for i := 0 to |toInsert|
        invariant rows == old(rows)
        invariant ApplyInserts(e, base, toInsert[..i]) == Some(work)
      {
        assert toInsert[..i + 1][..i] == toInsert[..i];
        var row := e.fromDomain(toInsert[i]);
        if row.None? || e.pk(row.value) in work {
          InsertsFailForGood(e, base, toInsert, i + 1);
          return false;
        }
        work := work[e.pk(row.value) := row.value];
      }
      assert toInsert[..|toInsert|] == toInsert;
      rows := work;
      ok := true;
    }
  }

  lemma {:induction false} UpdatesFailForGood<D, R>(e: Entity<D, R>, t: Table<R>, ups: seq<D>, n: nat)
    requires n <= |ups| && ApplyUpdates(e, t, ups[..n]).None?
    ensures ApplyUpdates(e, t, ups).None?
    decreases |ups|
  {
    if n == |ups| {
      assert ups[..n] == ups;
    } else {
      assert ups[..|ups| - 1][..n] == ups[..n];
      UpdatesFailForGood(e, t, ups[..|ups| - 1], n);
    }
  }

  lemma {:induction false} InsertsFailForGood<D, R>(e: Entity<D, R>, t: Table<R>, ins: seq<D>, n: nat)
    requires n <= |ins| && ApplyInserts(e, t, ins[..n]).None?
    ensures ApplyInserts(e, t, ins).None?
    decreases |ins|
  {
    if n == |ins| {
      assert ins[..n] == ins;
    } else {
      assert ins[..|ins| - 1][..n] == ins[..n];
      InsertsFailForGood(e, t, ins[..|ins| - 1], n);
    }
  }

  /** Items keyed by id, as the comprehension over a list builds it. */
  method BuildItemMap<D, R>(e: Entity<D, R>, items: seq<D>) returns (byId: map<string, D>)
    ensures byId == ItemMap(e, items)
  {
    byId := map[];
    for i := 0 to |items|
      invariant byId == ItemMap(e, items[..i])
    {
      assert items[..i + 1][..i] == items[..i];
      byId := byId[e.getId(items[i]) := items[i]];
    }
    assert items[..|items|] == items;
  }

  method CollectInserts<D>(apiMap: map<string, D>, cacheMap: map<string, D>, order: seq<string>)
    returns (toInsert: seq<D>)
    requires IsOrder(order, apiMap)
    ensures toInsert == FlatMap(NewOnly(apiMap, cacheMap), order)
  {
    toInsert := [];
    for n := 0 to |order|
      invariant toInsert == FlatMap(NewOnly(apiMap, cacheMap), order[..n])
    {
      FlatMapStep(NewOnly(apiMap, cacheMap), order, n);
      if order[n] !in cacheMap {
        toInsert := toInsert + [apiMap[order[n]]];
      }
    }
    assert order[..|order|] == order;
  }

  method CollectUpdates<D, R>(e: Entity<D, R>, apiMap: map<string, D>, cacheMap: map<string, D>, order: seq<string>)
    returns (toUpdate: seq<D>)
    requires IsOrder(order, apiMap)
    ensures toUpdate == FlatMap(ChangedOnly(e, apiMap, cacheMap), order)
  {
    toUpdate := [];
    for n := 0 to |order|
      invariant toUpdate == FlatMap(ChangedOnly(e, apiMap, cacheMap), order[..n])
    {
      FlatMapStep(ChangedOnly(e, apiMap, cacheMap), order, n);
      if order[n] in cacheMap {
        var changes := e.changed(cacheMap[order[n]], apiMap[order[n]]);
        if changes {
          toUpdate := toUpdate + [apiMap[order[n]]];
        }
      }
    }
    assert order[..|order|] == order;
  }

  /** The two delete guards: a degraded view deletes nothing, and the circuit breaker
      refuses a delete set covering most of the cache. */
  method GuardDeletes(cacheIds: set<string>, apiIds: set<string>, allowDeletes: bool, allowMassDelete: bool)
    returns (toDelete: set<string>, refusedMassDelete: nat)
    ensures toDelete == Deletes(cacheIds, apiIds, allowDeletes, allowMassDelete)
    ensures refusedMassDelete
         == if Refused(cacheIds, apiIds, allowDeletes, allowMassDelete) then |cacheIds - apiIds| else 0
    ensures refusedMassDelete > 0 <==> Refused(cacheIds, apiIds, allowDeletes, allowMassDelete)
  {
    toDelete := cacheIds - apiIds;
    refusedMassDelete := 0;
    if toDelete != {} && !allowDeletes {
      toDelete := {};
    }
    if toDelete != {} && !allowMassDelete {
      if 2 * |toDelete| > |cacheIds| {
        refusedMassDelete := |toDelete|;
        toDelete := {};
      }
    }
  }

  /** The reconciler as the program runs it, proved to be `Step`. */
  method SyncEntities<D, R>(e: Entity<D, R>, apiItems: seq<D>, cachedItems: seq<D>, order: seq<string>,
                            table: CacheTable<D, R>, allowDeletes: bool, allowMassDelete: bool, commitOk: bool)
    returns (outcome: Outcome)
    requires ItemMap(e, cachedItems) == View(e, table.rows)
    requires cachedItems == [] <==> |table.rows| == 0
    requires IsOrder(order, ItemMap(e, apiItems))
    modifies table
    ensures Result(table.rows, outcome)
         == Step(e, old(table.rows), apiItems, order, allowDeletes, allowMassDelete, commitOk)
  {
    if cachedItems == [] {
      var done := table.SyncDevices(e, apiItems, [], {}, commitOk);
      return if done then Synced else Failed;
    }
    ghost var diff := Plan(e, table.rows, apiItems, order, allowDeletes, allowMassDelete);
    var cacheMap := BuildItemMap(e, cachedItems);
    var apiMap := BuildItemMap(e, apiItems);
    assert cacheMap.Keys == table.rows.Keys;
    var toInsert := CollectInserts(apiMap, cacheMap, order);
    var toDelete, refusedMassDelete := GuardDeletes(cacheMap.Keys, apiMap.Keys, allowDeletes, allowMassDelete);
    var toUpdate := CollectUpdates(e, apiMap, cacheMap, order);
    assert diff == Diff(toInsert, toUpdate, toDelete, refusedMassDelete > 0);
    var ok := table.SyncDevices(e, toInsert, toUpdate, toDelete, commitOk);
    if !ok {
      return Failed;
    }
    outcome := if refusedMassDelete > 0 then MassDeleteRefused else Synced;
  }

  // ---- Closed form ---------------------------------------------------------------------

  /** Every item converts, and its stored key is the id it is diffed under. */
  ghost predicate Lawful<D, R>(e: Entity<D, R>, items: seq<D>) {
    forall d :: d in items ==> e.fromDomain(d).Some? && e.pk(e.fromDomain(d).value) == e.getId(d)
  }

  lemma {:induction false} ItemMapMeaning<D, R>(e: Entity<D, R>, items: seq<D>)
    ensures forall i :: i in ItemMap(e, items) ==> ItemMap(e, items)[i] in items && e.getId(ItemMap(e, items)[i]) == i
    ensures forall d :: d in items ==> e.getId(d) in ItemMap(e, items)
  {
    if items != [] {
      ItemMapMeaning(e, items[..|items| - 1]);
    }
  }

  /** The converted upstream view. */
  ghost function Target<D, R>(e: Entity<D, R>, a: map<string, D>): Table<R> {
    map i | i in a && e.fromDomain(a[i]).Some? :: e.fromDomain(a[i]).value
  }

  /** A row is written when it is new or its diff is non-empty. */
  ghost predicate Rewritten<D, R>(e: Entity<D, R>, t: Table<R>, a: map<string, D>, k: string) {
    k in a && e.fromDomain(a[k]).Some? && (k !in t || e.changed(e.toDomain(t[k]), a[k]))
  }

  /** The table a committed run leaves: stale rows gone or kept, rows whose diff is
      non-empty rewritten, new rows added, the others untouched. */
  ghost function Merged<D, R>(e: Entity<D, R>, t: Table<R>, a: map<string, D>, del: set<string>): Table<R> {
    map k | k in t.Keys + a.Keys && k !in del && (k in t || e.fromDomain(a[k]).Some?) ::
      if Rewritten(e, t, a, k) then e.fromDomain(a[k]).value else t[k]
  }

  ghost predicate LawfulMap<D, R>(e: Entity<D, R>, a: map<string, D>) {
    forall i :: i in a ==> e.getId(a[i]) == i && e.fromDomain(a[i]).Some? && e.pk(e.fromDomain(a[i]).value) == i
  }

  /** `r` is `u` with the rows listed in `order` rewritten. */
  ghost predicate Updated<D, R>(e: Entity<D, R>, t: Table<R>, u: Table<R>, a: map<string, D>, order: seq<string>,
                                r: Table<R>) {
    && r.Keys == u.Keys
    && forall k :: k in u ==>
         r[k] == if k in order && k in t && Rewritten(e, t, a, k) then e.fromDomain(a[k]).value else u[k]
  }

  lemma UpdatedSnoc<D, R>(e: Entity<D, R>, t: Table<R>, u: Table<R>, a: map<string, D>, order: seq<string>, r: Table<R>)
    requires LawfulMap(e, a) && order != [] && Updated(e, t, u, a, order[..|order| - 1], r)
    requires forall i :: i in a && i in t ==> i in u
    ensures var i := order[|order| - 1];
            Updated(e, t, u, a, order, if i in t && Rewritten(e, t, a, i) then r[i := e.fromDomain(a[i]).value] else r)
  {
    var n := |order| - 1;
    assert forall k :: k in order <==> k in order[..n] || k == order[n];
  }

  lemma {:induction false} UpdatesMeaning<D(!new), R(!new)>(e: Entity<D, R>, t: Table<R>, u: Table<R>,
                                                            a: map<string, D>, order: seq<string>)
    requires WellKeyed(e) && LawfulMap(e, a)
    requires forall i :: i in a && i in t ==> i in u
    ensures var r := ApplyUpdates(e, u, FlatMap(ChangedOnly(e, a, View(e, t)), order));
            r.Some? && Updated(e, t, u, a, order, r.value)
  {
    if order != [] {
      var n := |order| - 1;
      var i := order[n];
      var f := ChangedOnly(e, a, View(e, t));
      UpdatesMeaning(e, t, u, a, order[..n]);
      var before := FlatMap(f, order[..n]);
      UpdatedSnoc(e, t, u, a, order, ApplyUpdates(e, u, before).value);
      if f(i) == [] {
        assert before + f(i) == before;
      } else {
        assert f(i) == [a[i]];
        ApplyUpdatesSnoc(e, u, before, a[i]);
        assert e.rekey(e.fromDomain(a[i]).value, i) == e.fromDomain(a[i]).value;
      }
    }
  }

  lemma {:induction false} InsertsMeaning<D, R>(e: Entity<D, R>, t: Table<R>, u: Table<R>,
                                                a: map<string, D>, order: seq<string>)
    requires LawfulMap(e, a) && Distinct(order)
    requires forall i :: i in a && i in u ==> i in t
    ensures var r := ApplyInserts(e, u, FlatMap(NewOnly(a, View(e, t)), order));
            && r.Some?
            && (forall k :: k in r.value <==> k in u || (k in order && k in a && k !in t))
            && forall k :: k in r.value ==> r.value[k] == if k in u then u[k] else e.fromDomain(a[k]).value
  {
    if order != [] {
      var n := |order| - 1;
      var i := order[n];
      var f := NewOnly(a, View(e, t));
      InsertsMeaning(e, t, u, a, order[..n]);
      var before := FlatMap(f, order[..n]);
      assert i !in order[..n];
      if f(i) == [] {
        assert before + f(i) == before;
      } else {
        assert f(i) == [a[i]];
        ApplyInsertsSnoc(e, u, before, a[i]);
      }
      assert forall k :: k in order <==> k in order[..n] || k == i;
    }
  }

  /** The first run inserts the list as it came, so ids must be distinct. */
  lemma {:induction false} FirstInserts<D, R>(e: Entity<D, R>, items: seq<D>)
    requires Lawful(e, items)
    ensures DistinctBy(e.getId, items) ==> ApplyInserts(e, map[], items) == Some(Target(e, ItemMap(e, items)))
    ensures !DistinctBy(e.getId, items) ==> ApplyInserts(e, map[], items).None?
  {
    if items != [] {
      var n := |items| - 1;
      FirstInserts(e, items[..n]);
      LawfulItems(e, items[..n]);
      ItemMapIds(e, items[..n], e.getId(items[n]));
      DistinctSnoc(e.getId, items);
      TargetSnoc(e, items);
    }
  }

  lemma {:induction false} ItemMapIds<D, R>(e: Entity<D, R>, items: seq<D>, id: string)
    ensures id in ItemMap(e, items) <==> exists i :: 0 <= i < |items| && e.getId(items[i]) == id
  {
    if items != [] {
      ItemMapIds(e, items[..|items| - 1], id);
    }
  }

  lemma TargetSnoc<D, R>(e: Entity<D, R>, items: seq<D>)
    requires items != [] && e.fromDomain(items[|items| - 1]).Some?
    ensures var d := items[|items| - 1];
            Target(e, ItemMap(e, items))
              == Target(e, ItemMap(e, items[..|items| - 1]))[e.getId(d) := e.fromDomain(d).value]
  {
  }

  lemma LawfulItems<D, R>(e: Entity<D, R>, items: seq<D>)
    requires Lawful(e, items)
    ensures LawfulMap(e, ItemMap(e, items))
  {
    ItemMapMeaning(e, items);
  }

  lemma DiffCommits<D(!new), R(!new)>(e: Entity<D, R>, t: Table<R>, a: map<string, D>, order: seq<string>,
                                      del: set<string>)
    requires WellKeyed(e) && LawfulMap(e, a) && IsOrder(order, a) && del !! a.Keys
    ensures Apply(e, t, FlatMap(NewOnly(a, View(e, t)), order), FlatMap(ChangedOnly(e, a, View(e, t)), order), del,
                  true)
         == Some(Merged(e, t, a, del))
  {
    UpdatesMeaning(e, t, t - del, a, order);
    var u := ApplyUpdates(e, t - del, FlatMap(ChangedOnly(e, a, View(e, t)), order)).value;
    InsertsMeaning(e, t, u, a, order);
    var r := ApplyInserts(e, u, FlatMap(NewOnly(a, View(e, t)), order)).value;
    assert forall k :: k in a <==> k in order;
    assert r.Keys == Merged(e, t, a, del).Keys;
    assert r == Merged(e, t, a, del);
  }

  lemma FirstRun<D(!new), R(!new)>(e: Entity<D, R>, t: Table<R>, api: seq<D>, order: seq<string>,
                                   allowDeletes: bool, allowMassDelete: bool)
    requires Lawful(e, api) && |t| == 0
    ensures Step(e, t, api, order, allowDeletes, allowMassDelete, true)
         == if DistinctBy(e.getId, api) then Result(Target(e, ItemMap(e, api)), Synced) else Result(t, Failed)
  {
    FirstInserts(e, api);
    assert t - {} == map[];
    assert Plan(e, t, api, order, allowDeletes, allowMassDelete) == Diff(api, [], {}, false);
  }

  lemma LaterRun<D(!new), R(!new)>(e: Entity<D, R>, t: Table<R>, api: seq<D>, order: seq<string>,
                                   allowDeletes: bool, allowMassDelete: bool)
    requires WellKeyed(e) && Lawful(e, api) && IsOrder(order, ItemMap(e, api)) && |t| > 0
    ensures var a := ItemMap(e, api);
            Step(e, t, api, order, allowDeletes, allowMassDelete, true)
            == Result(Merged(e, t, a, Deletes(t.Keys, a.Keys, allowDeletes, allowMassDelete)),
                      if Refused(t.Keys, a.Keys, allowDeletes, allowMassDelete) then MassDeleteRefused else Synced)
  {
    var a := ItemMap(e, api);
    LawfulItems(e, api);
    DiffCommits(e, t, a, order, Deletes(t.Keys, a.Keys, allowDeletes, allowMassDelete));
  }

  lemma MergedIntoEmpty<D, R>(e: Entity<D, R>, t: Table<R>, a: map<string, D>, del: set<string>)
    requires |t| == 0 && del <= t.Keys
    ensures Merged(e, t, a, del) == Target(e, a)
  {
    assert t == map[] && del == {};
  }

  /** One committed reconciliation in closed form. It fails exactly when a first run
      meets a duplicate id, and the breaker raises exactly when deletes are allowed,
      mass delete is not, and more than half of a non-empty cache would go. */
  lemma ClosedForm<D(!new), R(!new)>(e: Entity<D, R>, t: Table<R>, api: seq<D>, order: seq<string>,
                                     allowDeletes: bool, allowMassDelete: bool)
    requires WellKeyed(e) && Lawful(e, api) && IsOrder(order, ItemMap(e, api))
    ensures var a := ItemMap(e, api);
            var stale := t.Keys - a.Keys;
            var refused := allowDeletes && !allowMassDelete && |t| > 0 && 2 * |stale| > |t|;
            var failed := |t| == 0 && !DistinctBy(e.getId, api);
            Step(e, t, api, order, allowDeletes, allowMassDelete, true)
            == Result(if failed then t else Merged(e, t, a, if allowDeletes && !refused then stale else {}),
                      if failed then Failed else if refused then MassDeleteRefused else Synced)
  {
    if |t| == 0 {
      FirstRun(e, t, api, order, allowDeletes, allowMassDelete);
      MergedIntoEmpty(e, t, ItemMap(e, api), {});
    } else {
      LaterRun(e, t, api, order, allowDeletes, allowMassDelete);
    }
  }

  lemma NonEmpty<R>(t: Table<R>, k: string)
    requires k in t
    ensures |t| > 0
  {
    assert |t.Keys| == |t| && t.Keys != {};
  }

  /** The row of an id upstream has, after a committed run that did not fail. */
  lemma RowAfter<D(!new), R(!new)>(e: Entity<D, R>, t: Table<R>, api: seq<D>, order: seq<string>,
                                   allowDeletes: bool, allowMassDelete: bool, k: string)
    requires WellKeyed(e) && Lawful(e, api) && IsOrder(order, ItemMap(e, api)) && k in ItemMap(e, api)
    requires |t| == 0 ==> DistinctBy(e.getId, api)
    ensures var d := ItemMap(e, api)[k];
            var after := Step(e, t, api, order, allowDeletes, allowMassDelete, true).table;
            && e.fromDomain(d).Some? && k in after
            && after[k] == if k !in t || e.changed(e.toDomain(t[k]), d) then e.fromDomain(d).value else t[k]
  {
    LawfulItems(e, api);
    ClosedForm(e, t, api, order, allowDeletes, allowMassDelete);
  }

  /** A cached id's item is updated exactly when its diff is non-empty. */
  lemma UpdatedIff<D(!new), R(!new)>(e: Entity<D, R>, t: Table<R>, api: seq<D>, order: seq<string>,
                                     allowDeletes: bool, allowMassDelete: bool, k: string)
    requires k in t && k in ItemMap(e, api) && IsOrder(order, ItemMap(e, api))
    ensures ItemMap(e, api)[k] in Plan(e, t, api, order, allowDeletes, allowMassDelete).ups
       <==> e.changed(e.toDomain(t[k]), ItemMap(e, api)[k])
  {
    var a := ItemMap(e, api);
    NonEmpty(t, k);
    ItemMapMeaning(e, api);
    FlatMapSource(ChangedOnly(e, a, View(e, t)), order, a[k]);
    assert k in (set i | i in order);
    var n :| 0 <= n < |order| && order[n] == k;
    if i :| 0 <= i < |order| && a[k] in ChangedOnly(e, a, View(e, t))(order[i]) {
      assert order[i] in (set j | j in order);
      assert e.getId(a[order[i]]) == order[i];
    }
  }

  /** An upstream id the cache lacks is inserted, by every run but the first over its item. */
  lemma InsertedIff<D, R>(e: Entity<D, R>, t: Table<R>, api: seq<D>, order: seq<string>,
                          allowDeletes: bool, allowMassDelete: bool, k: string)
    requires |t| > 0 && k in ItemMap(e, api) && IsOrder(order, ItemMap(e, api))
    ensures ItemMap(e, api)[k] in Plan(e, t, api, order, allowDeletes, allowMassDelete).ins <==> k !in t
  {
    var a := ItemMap(e, api);
    ItemMapMeaning(e, api);
    FlatMapSource(NewOnly(a, View(e, t)), order, a[k]);
    assert k in (set i | i in order);
    var n :| 0 <= n < |order| && order[n] == k;
    if i :| 0 <= i < |order| && a[k] in NewOnly(a, View(e, t))(order[i]) {
      assert order[i] in (set j | j in order);
      assert e.getId(a[order[i]]) == order[i];
    }
  }

  /** Inserting a row whose key is taken fails the whole list. */
  lemma {:induction false} TakenKeyFails<D, R>(e: Entity<D, R>, t: Table<R>, ins: seq<D>, d: D)
    requires d in ins && e.fromDomain(d).Some? && e.pk(e.fromDomain(d).value) in t
    ensures ApplyInserts(e, t, ins).None?
  {
    var n := |ins| - 1;
    if d in ins[..n] {
      TakenKeyFails(e, t, ins[..n], d);
    } else {
      InsertsKeepRows(e, t, ins[..n]);
    }
  }

  lemma MergedFullySet<D, R>(e: Entity<D, R>, t: Table<R>, a: map<string, D>, del: set<string>)
    requires LawfulMap(e, a)
    requires forall k :: k in t && k in a && !e.changed(e.toDomain(t[k]), a[k]) ==> e.fromDomain(a[k]) == Some(t[k])
    ensures Merged(e, t, a, {}) == t + Target(e, a)
    ensures Merged(e, t, a, t.Keys - a.Keys) == Target(e, a)
  {
  }

  /** Where an empty diff means the row already is the converted item (true of fully
      set items), the table becomes the converted view, or the old table overridden by it. */
  lemma ClosedFormFullySet<D(!new), R(!new)>(e: Entity<D, R>, t: Table<R>, api: seq<D>, order: seq<string>,
                                             allowDeletes: bool, allowMassDelete: bool)
    requires WellKeyed(e) && Lawful(e, api) && IsOrder(order, ItemMap(e, api))
    requires forall k, d :: k in t && d in api && e.getId(d) == k && !e.changed(e.toDomain(t[k]), d)
                            ==> e.fromDomain(d) == Some(t[k])
    requires |t| == 0 ==> DistinctBy(e.getId, api)
    ensures var a := ItemMap(e, api);
            Step(e, t, api, order, allowDeletes, allowMassDelete, true).table
            == if allowDeletes && (allowMassDelete || 2 * |t.Keys - a.Keys| <= |t|)
               then Target(e, a) else t + Target(e, a)
  {
    var a := ItemMap(e, api);
    LawfulItems(e, api);
    ItemMapMeaning(e, api);
    MergedFullySet(e, t, a, {});
    if |t| == 0 {
      FirstRun(e, t, api, order, allowDeletes, allowMassDelete);
      MergedIntoEmpty(e, t, a, {});
    } else {
      LaterRun(e, t, api, order, allowDeletes, allowMassDelete);
    }
  }

  // ---- Every run -------------------------------------------------------------------------

  lemma {:induction false} UpdatesKeepKeys<D, R>(e: Entity<D, R>, t: Table<R>, ups: seq<D>)
    ensures ApplyUpdates(e, t, ups).Some? ==> ApplyUpdates(e, t, ups).value.Keys == t.Keys
  {
    if ups != [] {
      UpdatesKeepKeys(e, t, ups[..|ups| - 1]);
    }
  }

  lemma {:induction false} InsertsKeepRows<D, R>(e: Entity<D, R>, t: Table<R>, ins: seq<D>)
    ensures ApplyInserts(e, t, ins).Some? ==> t.Keys <= ApplyInserts(e, t, ins).value.Keys
    ensures ApplyInserts(e, t, ins).Some? ==> forall k :: k in t ==> ApplyInserts(e, t, ins).value[k] == t[k]
  {
    if ins != [] {
      InsertsKeepRows(e, t, ins[..|ins| - 1]);
    }
  }

  /** Whatever upstream returns, a run without the override removes at most half of
      the table, and only rows absent from a view it was allowed to delete by. */
  lemma {:induction false} StepRemovesAtMostHalf<D, R>(e: Entity<D, R>, t: Table<R>, api: seq<D>, order: seq<string>,
                                    allowDeletes: bool, commitOk: bool)
    ensures var after := Step(e, t, api, order, allowDeletes, false, commitOk).table;
            && |t| <= 2 * |after|
            && forall k :: k in t && k !in after ==> allowDeletes && commitOk && k !in ItemMap(e, api)
  {
    var a := ItemMap(e, api);
    var after := Step(e, t, api, order, allowDeletes, false, commitOk).table;
    var del := if |t| == 0 then {} else Deletes(t.Keys, a.Keys, allowDeletes, false);
    var ins := if |t| == 0 then api else FlatMap(NewOnly(a, View(e, t)), order);
    var ups := if |t| == 0 then [] else FlatMap(ChangedOnly(e, a, View(e, t)), order);
    UpdatesKeepKeys(e, t - del, ups);
    if ApplyUpdates(e, t - del, ups).Some? {
      InsertsKeepRows(e, ApplyUpdates(e, t - del, ups).value, ins);
    }
    assert |t| == |t.Keys| && |after| == |after.Keys|;
    if after != t {
      assert (t - del).Keys <= after.Keys;
      SubsetSize(t.Keys - del, after.Keys);
      assert |t.Keys - del| == |t.Keys| - |del|;
    }
  }

  lemma SubsetSize<A>(x: set<A>, y: set<A>)
    requires x <= y
    ensures |x| <= |y|
  {
    assert y == x + (y - x);
  }

  datatype Cycle<D> = Cycle(api: seq<D>, order: seq<string>, allowDeletes: bool, commitOk: bool)

  /** The table after a sequence of reconciliations without the mass-delete override. */
  function After<D, R>(e: Entity<D, R>, t: Table<R>, run: seq<Cycle<D>>): Table<R> {
    if run == [] then t
    else
      var c := run[|run| - 1];
      Step(e, After(e, t, run[..|run| - 1]), c.api, c.order, c.allowDeletes, false, c.commitOk).table
  }

  /** `y` doubled `n` times. */
  function Doubled(n: nat, y: nat): nat {
    if n == 0 then y else 2 * Doubled(n - 1, y)
  }

  lemma {:induction false} DoubledMeaning(n: nat, x: nat, y: nat)
    requires x <= 2 * y
    ensures Doubled(n, x) <= Doubled(n + 1, y)
    ensures y > 0 <==> Doubled(n, y) > 0
  {
    if n > 0 {
      DoubledMeaning(n - 1, x, y);
    }
  }

  /** Over every run the table shrinks at most by half per step, so a non-empty
      table never becomes empty. */
  lemma {:induction false} RunNeverEmpties<D, R>(e: Entity<D, R>, t: Table<R>, run: seq<Cycle<D>>)
    ensures |t| <= Doubled(|run|, |After(e, t, run)|)
    ensures |t| > 0 ==> |After(e, t, run)| > 0
  {
    if run != [] {
      var n := |run| - 1;
      var c := run[n];
      var mid := After(e, t, run[..n]);
      RunNeverEmpties(e, t, run[..n]);
      StepRemovesAtMostHalf(e, mid, c.api, c.order, c.allowDeletes, c.commitOk);
      DoubledMeaning(n, |mid|, |After(e, t, run)|);
    }
  }

  /** A row that disappears was absent from the view of a committed step that was
      allowed to delete. */
  lemma {:induction false} DisappearanceIsJustified<D, R>(e: Entity<D, R>, t: Table<R>, run: seq<Cycle<D>>, k: string)
    requires k in t && k !in After(e, t, run)
    ensures exists i :: 0 <= i < |run| && run[i].allowDeletes && run[i].commitOk
                        && k in After(e, t, run[..i]) && k !in ItemMap(e, run[i].api)
  {
    var n := |run| - 1;
    var c := run[n];
    if k in After(e, t, run[..n]) {
      StepRemovesAtMostHalf(e, After(e, t, run[..n]), c.api, c.order, c.allowDeletes, c.commitOk);
    } else {
      DisappearanceIsJustified(e, t, run[..n], k);
      var i :| 0 <= i < n && run[..n][i].allowDeletes && run[..n][i].commitOk
               && k in After(e, t, run[..n][..i]) && k !in ItemMap(e, run[..n][i].api);
      assert run[..n][..i] == run[..i] && run[..n][i] == run[i];
    }
  }

  // ---- Fixpoint ----------------------------------------------------------------------------

  /** A freshly written row shows no difference to the item it was written from. */
  ghost predicate Stable<D, R>(e: Entity<D, R>, items: seq<D>) {
    forall d :: d in items ==> e.fromDomain(d).Some? && !e.changed(e.toDomain(e.fromDomain(d).value), d)
  }

  ghost predicate StableMap<D, R>(e: Entity<D, R>, a: map<string, D>) {
    LawfulMap(e, a) && forall i :: i in a ==> !e.changed(e.toDomain(e.fromDomain(a[i]).value), a[i])
  }

  lemma StableItems<D, R>(e: Entity<D, R>, items: seq<D>)
    requires Lawful(e, items) && Stable(e, items)
    ensures StableMap(e, ItemMap(e, items))
  {
    ItemMapMeaning(e, items);
  }

  ghost predicate Settled<D, R>(e: Entity<D, R>, t: Table<R>, a: map<string, D>) {
    forall k :: k in a ==> k in t && !e.changed(e.toDomain(t[k]), a[k])
  }

  lemma MergedIsSettled<D, R>(e: Entity<D, R>, t: Table<R>, a: map<string, D>, del: set<string>)
    requires StableMap(e, a) && del !! a.Keys
    ensures Settled(e, Merged(e, t, a, del), a)
    ensures Merged(e, t, a, del).Keys == (t.Keys - del) + a.Keys
  {
    var u := Merged(e, t, a, del);
    forall k | k in a ensures k in u && !e.changed(e.toDomain(u[k]), a[k]) {
      assert k !in del;
      if Rewritten(e, t, a, k) { assert u[k] == e.fromDomain(a[k]).value; } else { assert u[k] == t[k]; }
    }
  }

  lemma MergingSettled<D, R>(e: Entity<D, R>, t: Table<R>, a: map<string, D>, del: set<string>)
    requires Settled(e, t, a)
    ensures Merged(e, t, a, del) == t - del
  {
    assert Merged(e, t, a, del).Keys == (t - del).Keys;
  }

  /** On a settled table a diff inserts and updates nothing; it only deletes. */
  lemma SettledCommit<D(!new), R(!new)>(e: Entity<D, R>, t: Table<R>, a: map<string, D>, order: seq<string>,
                                        diff: Diff<D>)
    requires WellKeyed(e) && LawfulMap(e, a) && IsOrder(order, a) && diff.del !! a.Keys && Settled(e, t, a)
    requires diff.ins == FlatMap(NewOnly(a, View(e, t)), order)
    requires diff.ups == FlatMap(ChangedOnly(e, a, View(e, t)), order)
    ensures diff.ins == [] && diff.ups == []
    ensures Commit(e, t, diff, true) == Result(t - diff.del, if diff.refused then MassDeleteRefused else Synced)
  {
    NothingToDo(NewOnly(a, View(e, t)), order);
    NothingToDo(ChangedOnly(e, a, View(e, t)), order);
    DiffCommits(e, t, a, order, diff.del);
    MergingSettled(e, t, a, diff.del);
  }

  /** The guards of the run after next, on ids: the refused ids are refused again only
      while they outnumber the upstream ids, which the first run has added to the cache. */
  lemma SecondGuard(cache: set<string>, api: set<string>, allowDeletes: bool)
    requires cache != {}
    ensures var stale := cache - api;
            var refused := Refused(cache, api, allowDeletes, false);
            var next := (cache - Deletes(cache, api, allowDeletes, false)) + api;
            && next != {}
            && Refused(next, api, allowDeletes, false) == (refused && |stale| > |api|)
            && Deletes(next, api, allowDeletes, false) == if refused && |stale| <= |api| then stale else {}
  {
    var stale := cache - api;
    var del := Deletes(cache, api, allowDeletes, false);
    var next := (cache - del) + api;
    if del == stale {
      assert next == api;
      assert |cache| == |stale| + |cache * api| && cache == stale + cache * api;
      assert next >= cache * api;
    } else {
      assert next == stale + api;
      assert next - api == stale;
      assert |next| == |stale| + |api|;
    }
  }

  /** A committed run, a first one included, settles the table unless it failed. */
  lemma RunSettles<D(!new), R(!new)>(e: Entity<D, R>, t: Table<R>, api: seq<D>, order: seq<string>, allowDeletes: bool)
    requires WellKeyed(e) && Lawful(e, api) && Stable(e, api) && IsOrder(order, ItemMap(e, api))
    requires |t| == 0 ==> DistinctBy(e.getId, api)
    ensures var a := ItemMap(e, api);
            var once := Step(e, t, api, order, allowDeletes, false, true);
            && LawfulMap(e, a) && Settled(e, once.table, a)
            && once.table.Keys == (t.Keys - Deletes(t.Keys, a.Keys, allowDeletes, false)) + a.Keys
            && (once.outcome == MassDeleteRefused <==> Refused(t.Keys, a.Keys, allowDeletes, false))
  {
    var a := ItemMap(e, api);
    var del := Deletes(t.Keys, a.Keys, allowDeletes, false);
    StableItems(e, api);
    MergedIsSettled(e, t, a, del);
    if |t| == 0 {
      FirstRun(e, t, api, order, allowDeletes, false);
      MergedIntoEmpty(e, t, a, del);
    } else {
      LaterRun(e, t, api, order, allowDeletes, false);
    }
  }

  /** A run over a settled table only deletes. */
  lemma SettledRun<D(!new), R(!new)>(e: Entity<D, R>, t: Table<R>, api: seq<D>, order: seq<string>, allowDeletes: bool)
    requires WellKeyed(e) && IsOrder(order, ItemMap(e, api)) && |t| > 0
    requires LawfulMap(e, ItemMap(e, api)) && Settled(e, t, ItemMap(e, api))
    ensures var diff := Plan(e, t, api, order, allowDeletes, false);
            var a := ItemMap(e, api);
            && diff == Diff([], [], Deletes(t.Keys, a.Keys, allowDeletes, false),
                            Refused(t.Keys, a.Keys, allowDeletes, false))
            && Step(e, t, api, order, allowDeletes, false, true)
               == Result(t - diff.del, if diff.refused then MassDeleteRefused else Synced)
  {
    SettledCommit(e, t, ItemMap(e, api), order, Plan(e, t, api, order, allowDeletes, false));
  }

  /** The second of two runs with the same items: it inserts and updates nothing, and leaves
      the table alone unless a refusal is forgotten. */
  ghost predicate IdleAgain<D, R>(e: Entity<D, R>, api: seq<D>, again: seq<string>, allowDeletes: bool, once: Result<R>,
                                  stale: set<string>)
  {
    var diff := Plan(e, once.table, api, again, allowDeletes, false);
    var twice := Step(e, once.table, api, again, allowDeletes, false, true);
    var forgotten := once.outcome == MassDeleteRefused && |stale| <= |ItemMap(e, api).Keys|;
    && diff.ins == [] && diff.ups == []
    && (twice.table == once.table <==> !forgotten)
    && (forgotten ==> twice == Result(once.table - stale, Synced))
  }

  lemma IdleAfterFirst<D(!new), R(!new)>(e: Entity<D, R>, t: Table<R>, api: seq<D>, order: seq<string>,
                                         again: seq<string>,
                                         allowDeletes: bool, once: Result<R>)
    requires WellKeyed(e) && Lawful(e, api) && Stable(e, api) && DistinctBy(e.getId, api)
    requires IsOrder(order, ItemMap(e, api)) && IsOrder(again, ItemMap(e, api))
    requires |t| == 0 && once == Step(e, t, api, order, allowDeletes, false, true)
    ensures IdleAgain(e, api, again, allowDeletes, once, {})
  {
    RunSettles(e, t, api, order, allowDeletes);
    NothingAsked(e, api);
    if |once.table| > 0 {
      SettledRun(e, once.table, api, again, allowDeletes);
      assert once.table.Keys - ItemMap(e, api).Keys == {};
      RemovingChanges(once.table, {});
    }
  }

  lemma IdleAfterLater<D(!new), R(!new)>(e: Entity<D, R>, t: Table<R>, api: seq<D>, order: seq<string>,
                                         again: seq<string>,
                                         allowDeletes: bool, once: Result<R>)
    requires WellKeyed(e) && Lawful(e, api) && Stable(e, api)
    requires IsOrder(order, ItemMap(e, api)) && IsOrder(again, ItemMap(e, api))
    requires |t| > 0 && once == Step(e, t, api, order, allowDeletes, false, true)
    ensures IdleAgain(e, api, again, allowDeletes, once, t.Keys - ItemMap(e, api).Keys)
  {
    var apiIds := ItemMap(e, api).Keys;
    RunSettles(e, t, api, order, allowDeletes);
    SecondGuard(t.Keys, apiIds, allowDeletes);
    assert |once.table.Keys| == |once.table|;
    SettledRun(e, once.table, api, again, allowDeletes);
    RemovingChanges(once.table, Deletes(once.table.Keys, apiIds, allowDeletes, false));
  }

  /** Running again with the same items, from any table and in whatever order either run
      iterates its sets, is idle exactly when the first run was not refused, or the refused
      rows still outnumber the items. A refused run also inserts the new rows, so the cache
      grows, and the breaker may let the identical next run delete the rows it protected. */
  lemma {:induction false} RerunIsIdleIff<D(!new), R(!new)>(e: Entity<D, R>, t: Table<R>, api: seq<D>,
                                                            order: seq<string>, again: seq<string>,
                                                            allowDeletes: bool, once: Result<R>)
    requires WellKeyed(e) && Lawful(e, api) && Stable(e, api)
    requires IsOrder(order, ItemMap(e, api)) && IsOrder(again, ItemMap(e, api))
    requires once == Step(e, t, api, order, allowDeletes, false, true) && once.outcome != Failed
    ensures var stale := t.Keys - ItemMap(e, api).Keys;
            var diff := Plan(e, once.table, api, again, allowDeletes, false);
            var twice := Step(e, once.table, api, again, allowDeletes, false, true);
            var forgotten := once.outcome == MassDeleteRefused && |stale| <= |ItemMap(e, api).Keys|;
            && diff.ins == [] && diff.ups == []
            && (twice.table == once.table <==> !forgotten)
            && (forgotten ==> twice == Result(once.table - stale, Synced))
  {
    if |t| == 0 {
      FailedRunRepeats(e, t, api, order, again, allowDeletes);
      IdleAfterFirst(e, t, api, order, again, allowDeletes, once);
      assert t.Keys - ItemMap(e, api).Keys == {};
    } else {
      IdleAfterLater(e, t, api, order, again, allowDeletes, once);
    }
    assert IdleAgain(e, api, again, allowDeletes, once, t.Keys - ItemMap(e, api).Keys);
  }

  /** The smallest case of a forgotten refusal: one cached id, another one upstream. */
  lemma ForgetsRefusal<D(!new), R(!new)>(e: Entity<D, R>, t: Table<R>, api: seq<D>, order: seq<string>, x: string,
                                         y: string)
    requires WellKeyed(e) && Lawful(e, api) && Stable(e, api)
    requires t.Keys == {x} && ItemMap(e, api).Keys == {y} && x != y && order == [y]
    ensures var once := Step(e, t, api, order, true, false, true);
            var twice := Step(e, once.table, api, order, true, false, true);
            && once.outcome == MassDeleteRefused && x in once.table
            && twice.outcome == Synced && x !in twice.table
  {
    assert |t| == |t.Keys| && t.Keys - ItemMap(e, api).Keys == {x};
    ClosedForm(e, t, api, order, true, false);
    RerunIsIdleIff(e, t, api, order, order, true, Step(e, t, api, order, true, false, true));
  }

  /** A first run over duplicate ids fails, and fails the same way every time. */
  lemma FailedRunRepeats<D(!new), R(!new)>(e: Entity<D, R>, t: Table<R>, api: seq<D>, order: seq<string>,
                                           again: seq<string>,
                                           allowDeletes: bool)
    requires WellKeyed(e) && Lawful(e, api) && IsOrder(order, ItemMap(e, api)) && IsOrder(again, ItemMap(e, api))
    ensures var once := Step(e, t, api, order, allowDeletes, false, true);
            && (once.outcome == Failed <==> |t| == 0 && !DistinctBy(e.getId, api))
            && (once.outcome == Failed ==> Step(e, once.table, api, again, allowDeletes, false, true) == once)
  {
    ClosedForm(e, t, api, order, allowDeletes, false);
    ClosedForm(e, t, api, again, allowDeletes, false);
  }

  lemma NothingAsked<D, R>(e: Entity<D, R>, api: seq<D>)
    ensures ItemMap(e, api).Keys == {} <==> api == []
  {
    if api != [] {
      var d := api[|api| - 1];
      assert e.getId(d) in ItemMap(e, api);
    }
  }

  lemma RemovingChanges<R>(t: Table<R>, del: set<string>)
    requires del <= t.Keys
    ensures t - del == t <==> del == {}
  {
    if del != {} {
      var k :| k in del;
      assert k in t && k !in t - del;
    } else {
      assert t - {} == t;
    }
  }
}
