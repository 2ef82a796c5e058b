/** The EAM device and position caches: upstream text is sanitised, diffed on the fields
    that are set, and stored through converters that null whatever is unset. */
module EamSync {
  import opened Common
  import opened Text
  import opened Reconcile

  /** The sanitised text fields of an EAM record. */
  datatype Field =
    | SerialNumber | Description | Model | ManufacturerCode | ClassCode | CategoryCode | DepartmentCode
    | StatusCode | StatusDesc | Alias | AssignedTo | PrimarySystem
    | HierarchyPositionCode | HierarchyAssetCode | HierarchyLocationCode | Variable2

  /** The text columns of the device table, by domain field; the lemmas take any set of columns,
      as the position table has others. */
  const DEVICE_FIELDS: set<Field> := {
    SerialNumber, ClassCode, CategoryCode, Description, Model, ManufacturerCode, HierarchyPositionCode,
    HierarchyAssetCode, StatusDesc, HierarchyLocationCode, DepartmentCode}

  /** An EAM record: a field absent from `fields` is unset, a field mapped to `None` is set to null. */
  datatype EamItem = EamItem(code: Option<string>, fields: map<Field, Option<string>>)

  /** A stored row; an absent column is null. */
  datatype EamRow = EamRow(equipmentNo: string, cols: map<Field, string>)

  function Attr(d: EamItem, f: Field): Option<string> {
    if f in d.fields then d.fields[f] else None
  }

  function FromEquipment(persisted: set<Field>): EamItem -> Option<EamRow> {
    (d: EamItem) =>
      if NoneIfBlank(d.code).None? then None
      else Some(EamRow(NoneIfBlank(d.code).value,
                       map f | f in persisted && NoneIfBlank(Attr(d, f)).Some? :: NoneIfBlank(Attr(d, f)).value))
  }

  /** Null columns come back unset. */
  function ToEquipment(r: EamRow): EamItem {
    EamItem(Some(r.equipmentNo), map f | f in r.cols :: Some(r.cols[f]))
  }

  /** Only fields set on the new record are compared, after sanitising. */
  predicate FieldChanged(was: EamItem, now: EamItem, f: Field) {
    f in now.fields && Canon(Attr(was, f)) != Canon(Sanitize(now.fields[f]))
  }

  function Changed(persisted: set<Field>): (EamItem, EamItem) -> bool {
    (was: EamItem, now: EamItem) =>
      (now.code.Some? && Canon(was.code) != Canon(now.code)) || exists f :: f in persisted && FieldChanged(was, now, f)
  }

  function EamEntity(persisted: set<Field>): Entity<EamItem, EamRow> {
    Entity((d: EamItem) => IdText(d.code), FromEquipment(persisted), ToEquipment,
           (r: EamRow) => r.equipmentNo, (r: EamRow, k: string) => r.(equipmentNo := k), Changed(persisted))
  }

  // ---- Cleaning -------------------------------------------------------------------

  function CleanItem(d: EamItem): EamItem {
    d.(fields := map f | f in d.fields :: Sanitize(d.fields[f]))
  }

  /** What an EAM text field keeps: everything between the first and the last character that is
      not junk, or nothing when all of it is. */
  ghost predicate CleanedFrom(was: Option<string>, now: Option<string>) {
    Remains(IsJunk, was, now)
  }

  /** The same code and the same fields set, each cleaned. */
  ghost predicate CleanedItem(was: EamItem, now: EamItem) {
    && now.code == was.code && now.fields.Keys == was.fields.Keys
    && forall f :: f in was.fields ==> CleanedFrom(was.fields[f], now.fields[f])
  }

  method CleanItems(items: seq<EamItem>) returns (out: seq<EamItem>)
    ensures |out| == |items| && forall i :: 0 <= i < |items| ==> out[i] == CleanItem(items[i])
    ensures forall i :: 0 <= i < |items| ==> CleanedItem(items[i], out[i])
  {
    out := [];
    for i := 0 to |items|
      invariant |out| == i && forall j :: 0 <= j < i ==> out[j] == CleanItem(items[j])
    {
      var updates := map f | f in items[i].fields && items[i].fields[f].Some?
                             && Sanitize(items[i].fields[f]) != items[i].fields[f] :: Sanitize(items[i].fields[f]);
      var cleaned := items[i].(fields := items[i].fields + updates);
      assert cleaned.fields == CleanItem(items[i]).fields;
      out := out + [cleaned];
    }
    forall i | 0 <= i < |items| ensures CleanedItem(items[i], out[i]) { CleaningKeepsText(items[i]); }
  }

  lemma CleaningKeepsText(d: EamItem)
    ensures CleanedItem(d, CleanItem(d))
  {
    forall f | f in d.fields ensures CleanedFrom(d.fields[f], CleanItem(d).fields[f]) { SanitizeMeaning(d.fields[f]); }
  }

  /** The row a record converts to: under its trimmed id, with the trimmed text of every stored
      field that has one. */
  lemma StoredMeaning(persisted: set<Field>, d: EamItem)
    ensures var row := FromEquipment(persisted)(d);
            && (row.None? <==> NoneIfBlank(d.code).None?)
            && (row.Some? ==>
                  && Some(row.value.equipmentNo) == NoneIfBlank(d.code)
                  && forall f :: f in row.value.cols <==>
                     f in persisted && f in d.fields && NoneIfBlank(d.fields[f]).Some?)
            && (row.Some? ==> forall f :: f in row.value.cols ==>
                  Remains(IsSpace, d.fields[f], Some(row.value.cols[f])))
  {
    if FromEquipment(persisted)(d).Some? {
      var cols := FromEquipment(persisted)(d).value.cols;
      forall f | f in cols ensures f in d.fields && Remains(IsSpace, d.fields[f], Some(cols[f])) {
        NoneIfBlankMeaning(d.fields[f]);
      }
    }
  }

  ghost predicate IsClean(d: EamItem) {
    forall f :: f in d.fields ==> Sanitize(d.fields[f]) == d.fields[f] && NoneIfBlank(d.fields[f]) == d.fields[f]
  }

  /** Cleaning an item makes every set field a fixed point of the sanitiser and of the
      converters, so cleaning again does nothing. */
  lemma CleaningIsFixed(d: EamItem)
    ensures IsClean(CleanItem(d)) && CleanItem(CleanItem(d)) == CleanItem(d)
  {
    forall f | f in d.fields
      ensures Sanitize(CleanItem(d).fields[f]) == CleanItem(d).fields[f]
              && NoneIfBlank(CleanItem(d).fields[f]) == CleanItem(d).fields[f]
    {
      SanitizedIsFixed(d.fields[f]);
    }
  }

  /** A code the converter leaves alone, so the diffed id is the stored key. */
  ghost predicate TrimmedCode(d: EamItem) {
    d.code.Some? && NoneIfBlank(d.code) == d.code
  }

  /** Stored keys as every reconciliation leaves them: trimmed and not blank. */
  ghost predicate TrimmedKeys(t: Table<EamRow>) {
    forall k :: k in t ==> NoneIfBlank(Some(k)) == Some(k)
  }

  lemma EamWellKeyed(persisted: set<Field>)
    ensures WellKeyed(EamEntity(persisted))
  {
  }

  /** The ORM round trip preserves every compared field of a clean item. */
  lemma RoundTripShowsNoChange(persisted: set<Field>, d: EamItem)
    requires IsClean(d) && TrimmedCode(d)
    ensures var e := EamEntity(persisted);
            && e.fromDomain(d).Some? && e.pk(e.fromDomain(d).value) == e.getId(d)
            && !e.changed(e.toDomain(e.fromDomain(d).value), d)
  {
    var back := ToEquipment(FromEquipment(persisted)(d).value);
    forall f | f in persisted ensures !FieldChanged(back, d, f) {
      if f in d.fields {
        assert Attr(back, f) == NoneIfBlank(d.fields[f]);
      }
    }
  }

  lemma CleanItemsAreStable(persisted: set<Field>, items: seq<EamItem>)
    requires forall d :: d in items ==> IsClean(d) && TrimmedCode(d)
    ensures WellKeyed(EamEntity(persisted)) && Lawful(EamEntity(persisted), items)
            && Stable(EamEntity(persisted), items)
  {
    EamWellKeyed(persisted);
    forall d | d in items
      ensures var e := EamEntity(persisted);
              && e.fromDomain(d).Some? && e.pk(e.fromDomain(d).value) == e.getId(d)
              && !e.changed(e.toDomain(e.fromDomain(d).value), d)
    {
      RoundTripShowsNoChange(persisted, d);
    }
  }

  /** Reconciling the same cleaned items again, after a first run into an empty table or any
      later one, and in whatever order the sets are iterated, inserts and updates nothing, and
      changes the table only when the breaker forgets a refusal. */
  lemma EamRerunIsIdle(persisted: set<Field>, t: Table<EamRow>, items: seq<EamItem>, order: seq<string>,
                       again: seq<string>,
                       once: Result<EamRow>)
    requires forall d :: d in items ==> IsClean(d) && TrimmedCode(d)
    requires IsOrder(order, ItemMap(EamEntity(persisted), items))
             && IsOrder(again, ItemMap(EamEntity(persisted), items))
    requires once == Step(EamEntity(persisted), t, items, order, true, false, true) && once.outcome != Failed
    ensures var e := EamEntity(persisted);
            var diff := Plan(e, once.table, items, again, true, false);
            var stale := t.Keys - ItemMap(e, items).Keys;
            && diff.ins == [] && diff.ups == []
            && (Step(e, once.table, items, again, true, false, true).table == once.table
                <==> !(once.outcome == MassDeleteRefused && |stale| <= |ItemMap(e, items).Keys|))
  {
    CleanItemsAreStable(persisted, items);
    RerunIsIdleIff(EamEntity(persisted), t, items, order, again, true, once);
  }

  lemma LoneItem(persisted: set<Field>, d: EamItem)
    ensures ItemMap(EamEntity(persisted), [d]) == map[IdText(d.code) := d]
  {
    assert [d][..0] == [];
  }

  /** A refusal is forgotten: with one cached row and another record upstream, the breaker
      protects the row in the first run and lets the identical second run delete it. */
  lemma RefusalIsForgotten(persisted: set<Field>)
    ensures var e := EamEntity(persisted);
            var t := map["x" := EamRow("x", map[])];
            var items := [EamItem(Some("y"), map[])];
            var once := Step(e, t, items, ["y"], true, false, true);
            var twice := Step(e, once.table, items, ["y"], true, false, true);
            && once.outcome == MassDeleteRefused && "x" in once.table
            && twice.outcome == Synced && "x" !in twice.table
  {
    var e := EamEntity(persisted);
    var items := [EamItem(Some("y"), map[])];
    CleanIffFixed(IsSpace, "y");
    LoneItem(persisted, items[0]);
    CleanItemsAreStable(persisted, items);
    ForgetsRefusal(e, map["x" := EamRow("x", map[])], items, ["y"], "x", "y");
  }

  // ---- Items that are not clean ------------------------------------------------------

  /** One run with the `i`th iteration order. */
  function Rerun(persisted: set<Field>, items: seq<EamItem>, orders: nat -> seq<string>, allowDeletes: bool)
    : (Table<EamRow>, nat) -> Table<EamRow>
  {
    (t: Table<EamRow>, i: nat) => Step(EamEntity(persisted), t, items, orders(i), allowDeletes, false, true).table
  }

  function Iterate(run: (Table<EamRow>, nat) -> Table<EamRow>, t: Table<EamRow>, n: nat): Table<EamRow> {
    if n == 0 then t else run(Iterate(run, t, n - 1), n - 1)
  }

  /** What a run keeps, any number of runs keep. */
  lemma {:induction false} IterateKeeps(run: (Table<EamRow>, nat) -> Table<EamRow>, p: Table<EamRow> -> bool,
                                        t: Table<EamRow>,
                                        n: nat)
    requires p(t) && forall u, i :: p(u) ==> p(run(u, i))
    ensures p(Iterate(run, t, n))
  {
    if n > 0 {
      IterateKeeps(run, p, t, n - 1);
    }
  }

  /** The table after `n` runs with the same items. */
  function Reruns(persisted: set<Field>, t: Table<EamRow>, items: seq<EamItem>, orders: nat -> seq<string>,
                  allowDeletes: bool, n: nat): Table<EamRow>
  {
    Iterate(Rerun(persisted, items, orders, allowDeletes), t, n)
  }

  /** Text that the converter keeps but the diff sanitises. */
  ghost predicate Uncleaned(d: EamItem, f: Field) {
    f in d.fields && NoneIfBlank(d.fields[f]) == d.fields[f] && Sanitize(d.fields[f]) != d.fields[f]
  }

  lemma UncleanedShowsChange(persisted: set<Field>, d: EamItem, f: Field)
    requires f in persisted && Uncleaned(d, f) && TrimmedCode(d)
    ensures var e := EamEntity(persisted); e.changed(e.toDomain(e.fromDomain(d).value), d)
  {
    var back := ToEquipment(FromEquipment(persisted)(d).value);
    CanonOfNormal(d.fields[f]);
    SanitizedIsFixed(d.fields[f]);
    CanonOfNormal(Sanitize(d.fields[f]));
    assert Attr(back, f) == d.fields[f];
    assert FieldChanged(back, d, f);
  }

  /** A run writes the item of `k` when it is new or its diff is non-empty. */
  ghost predicate Writes(persisted: set<Field>, t: Table<EamRow>, k: string, d: EamItem) {
    k !in t || EamEntity(persisted).changed(ToEquipment(t[k]), d)
  }

  lemma TrimmedAreLawful(persisted: set<Field>, items: seq<EamItem>)
    requires forall d :: d in items ==> TrimmedCode(d)
    ensures WellKeyed(EamEntity(persisted)) && Lawful(EamEntity(persisted), items)
  {
    EamWellKeyed(persisted);
  }

  /** The row a written item is stored as. */
  ghost predicate StoredAs(persisted: set<Field>, row: EamRow, d: EamItem) {
    FromEquipment(persisted)(d) == Some(row)
  }

  /** One run over an uncleaned item: it is written now exactly when it will be written next. */
  lemma WrittenAgain(persisted: set<Field>, t: Table<EamRow>, items: seq<EamItem>, order: seq<string>,
                     allowDeletes: bool,
                     k: string, f: Field)
    requires (forall d :: d in items ==> TrimmedCode(d)) && (|t| == 0 ==> DistinctBy(EamEntity(persisted).getId, items))
    requires IsOrder(order, ItemMap(EamEntity(persisted), items))
    requires k in ItemMap(EamEntity(persisted), items) && f in persisted
    requires Uncleaned(ItemMap(EamEntity(persisted), items)[k], f)
    ensures var d := ItemMap(EamEntity(persisted), items)[k];
            var after := Step(EamEntity(persisted), t, items, order, allowDeletes, false, true).table;
            && k in after && (if Writes(persisted, t, k, d) then StoredAs(persisted, after[k], d) else after[k] == t[k])
            && (Writes(persisted, after, k, d) <==> Writes(persisted, t, k, d))
  {
    var e := EamEntity(persisted);
    TrimmedAreLawful(persisted, items);
    ItemMapMeaning(e, items);
    UncleanedShowsChange(persisted, ItemMap(e, items)[k], f);
    RowAfter(e, t, items, order, allowDeletes, false, k);
  }

  /** Without cleaning there is no fixpoint: once a text that trimming keeps and sanitising
      changes has been written, every further run writes it again; a run that finds the
      sanitised text stored leaves the row alone for good. */
  lemma {:induction false} UncleanedTextChurns(persisted: set<Field>, t: Table<EamRow>, items: seq<EamItem>,
                                               orders: nat -> seq<string>, allowDeletes: bool, k: string, f: Field,
                                               n: nat)
    requires (forall d :: d in items ==> TrimmedCode(d)) && (|t| == 0 ==> DistinctBy(EamEntity(persisted).getId, items))
    requires forall i :: IsOrder(orders(i), ItemMap(EamEntity(persisted), items))
    requires k in ItemMap(EamEntity(persisted), items) && f in persisted
    requires Uncleaned(ItemMap(EamEntity(persisted), items)[k], f) && n >= 1
    ensures var d := ItemMap(EamEntity(persisted), items)[k];
            var after := Reruns(persisted, t, items, orders, allowDeletes, n);
            && k in after && (if Writes(persisted, t, k, d) then StoredAs(persisted, after[k], d) else after[k] == t[k])
            && (d in Plan(EamEntity(persisted), after, items, orders(n), allowDeletes, false).ups <==>
                  Writes(persisted, t, k, d))
  {
    var e := EamEntity(persisted);
    if n > 1 {
      UncleanedTextChurns(persisted, t, items, orders, allowDeletes, k, f, n - 1);
      NonEmpty(Reruns(persisted, t, items, orders, allowDeletes, n - 1), k);
      UpdatedIff(e, Reruns(persisted, t, items, orders, allowDeletes, n - 1), items, orders(n - 1), allowDeletes, false,
                 k);
    }
    WrittenAgain(persisted, Reruns(persisted, t, items, orders, allowDeletes, n - 1), items, orders(n - 1),
                 allowDeletes, k, f);
    UpdatedIff(e, Reruns(persisted, t, items, orders, allowDeletes, n), items, orders(n), allowDeletes, false, k);
  }

  /** The zero-width space at the end of a text is such a case. */
  lemma ZeroWidthSpaceIsUncleaned(code: string)
    ensures Uncleaned(EamItem(Some(code), map[Description := Some("x\U{200B}")]), Description)
  {
    StrippedNeedNotBeSanitized();
    assert "x\U{200B}" != "x" by { assert |"x\U{200B}"| == 2; }
  }

  /** An untrimmed id whose trimmed form is a stored key. The diff takes the row for another
      record: the item is inserted again, and the run fails on the taken key unless it deletes
      that very row first. */
  lemma UntrimmedIdCollides(persisted: set<Field>, t: Table<EamRow>, items: seq<EamItem>, order: seq<string>,
                            allowDeletes: bool, d: EamItem, k: string)
    requires IsOrder(order, ItemMap(EamEntity(persisted), items))
    requires d.code.Some? && d.code.value in ItemMap(EamEntity(persisted), items)
             && ItemMap(EamEntity(persisted), items)[d.code.value] == d
    requires NoneIfBlank(d.code) == Some(k) && k != d.code.value && k in t && TrimmedKeys(t)
    ensures var e := EamEntity(persisted);
            var diff := Plan(e, t, items, order, allowDeletes, false);
            && d in diff.ins
            && (k !in diff.del ==> Step(e, t, items, order, allowDeletes, false, true) == Result(t, Failed))
            && (k in diff.del <==> k !in ItemMap(e, items) && allowDeletes
                                   && !Refused(t.Keys, ItemMap(e, items).Keys, allowDeletes, false))
  {
    var e := EamEntity(persisted);
    var a := ItemMap(e, items);
    var diff := Plan(e, t, items, order, allowDeletes, false);
    NonEmpty(t, k);
    InsertedIff(e, t, items, order, allowDeletes, false, d.code.value);
    UpdatesKeepKeys(e, t - diff.del, diff.ups);
    if k !in diff.del && ApplyUpdates(e, t - diff.del, diff.ups).Some? {
      TakenKeyFails(e, ApplyUpdates(e, t - diff.del, diff.ups).value, diff.ins, d);
    }
  }

  lemma UntrimmedKeepsItsId(persisted: set<Field>, items: seq<EamItem>, d: EamItem)
    requires d in items && d.code.Some? && !TrimmedCode(d)
    ensures var a := ItemMap(EamEntity(persisted), items); d.code.value in a && a[d.code.value].code == d.code
  {
    ItemMapMeaning(EamEntity(persisted), items);
    CleanIffFixed(IsSpace, "None");
  }

  /** An item with an untrimmed id is inserted, whatever is stored under its trimmed one. */
  lemma UntrimmedIsInserted(persisted: set<Field>, t: Table<EamRow>, items: seq<EamItem>, order: seq<string>,
                            allowDeletes: bool, d: EamItem)
    requires TrimmedKeys(t) && IsOrder(order, ItemMap(EamEntity(persisted), items))
    requires d in items && d.code.Some? && !TrimmedCode(d)
    ensures exists x :: x in Plan(EamEntity(persisted), t, items, order, allowDeletes, false).ins && x.code == d.code
  {
    var e := EamEntity(persisted);
    if |t| > 0 {
      UntrimmedKeepsItsId(persisted, items, d);
      InsertedIff(e, t, items, order, allowDeletes, false, d.code.value);
    }
  }

  lemma RerunsStayTrimmed(persisted: set<Field>, t: Table<EamRow>, items: seq<EamItem>, orders: nat -> seq<string>,
                          allowDeletes: bool, n: nat)
    requires TrimmedKeys(t)
    ensures TrimmedKeys(Reruns(persisted, t, items, orders, allowDeletes, n))
  {
    var run := Rerun(persisted, items, orders, allowDeletes);
    ghost var trimmed := (u: Table<EamRow>) => TrimmedKeys(u);
    forall u, i | trimmed(u) ensures trimmed(run(u, i)) {
      KeysStayTrimmed(persisted, u, items, orders(i), allowDeletes, true);
    }
    IterateKeeps(run, trimmed, t, n);
  }

  /** An untrimmed id never settles: after any number of runs the next one inserts its item. */
  lemma UntrimmedIdNeverSettles(persisted: set<Field>, t: Table<EamRow>, items: seq<EamItem>,
                                orders: nat -> seq<string>,
                                allowDeletes: bool, d: EamItem, n: nat)
    requires TrimmedKeys(t) && forall i :: IsOrder(orders(i), ItemMap(EamEntity(persisted), items))
    requires d in items && d.code.Some? && !TrimmedCode(d)
    ensures exists x :: x in Plan(EamEntity(persisted), Reruns(persisted, t, items, orders, allowDeletes, n), items,
                                  orders(n), allowDeletes, false).ins && x.code == d.code
  {
    RerunsStayTrimmed(persisted, t, items, orders, allowDeletes, n);
    UntrimmedIsInserted(persisted, Reruns(persisted, t, items, orders, allowDeletes, n), items, orders(n), allowDeletes,
                        d);
  }

  /** Of clean items with ids, a second run has nothing to write exactly when every id is
      trimmed. */
  lemma SettlesIffTrimmed(persisted: set<Field>, t: Table<EamRow>, items: seq<EamItem>, order: seq<string>,
                          again: seq<string>, allowDeletes: bool)
    requires TrimmedKeys(t) && forall d :: d in items ==> IsClean(d) && d.code.Some?
    requires IsOrder(order, ItemMap(EamEntity(persisted), items))
             && IsOrder(again, ItemMap(EamEntity(persisted), items))
    requires Step(EamEntity(persisted), t, items, order, allowDeletes, false, true).outcome != Failed
    ensures var e := EamEntity(persisted);
            var once := Step(e, t, items, order, allowDeletes, false, true);
            var diff := Plan(e, once.table, items, again, allowDeletes, false);
            diff.ins == [] && diff.ups == [] <==> forall d :: d in items ==> TrimmedCode(d)
  {
    var e := EamEntity(persisted);
    var once := Step(e, t, items, order, allowDeletes, false, true);
    if forall d :: d in items ==> TrimmedCode(d) {
      CleanItemsAreStable(persisted, items);
      RerunIsIdleIff(e, t, items, order, again, allowDeletes, once);
    } else {
      var d :| d in items && !TrimmedCode(d);
      KeysStayTrimmed(persisted, t, items, order, allowDeletes, true);
      UntrimmedIsInserted(persisted, once.table, items, again, allowDeletes, d);
    }
  }

  /** A record alone upstream whose id is not trimmed. */
  ghost predicate LoneUntrimmed(d: EamItem, k: string) {
    NoneIfBlank(d.code) == Some(k) && d.code != Some(k)
  }

  lemma LoneUntrimmedFirst(persisted: set<Field>, d: EamItem, k: string)
    requires LoneUntrimmed(d, k)
    ensures var once := Step(EamEntity(persisted), map[], [d], [d.code.value], true, false, true);
            once.outcome == Synced && once.table.Keys == {k}
  {
    var e := EamEntity(persisted);
    var t: Table<EamRow> := map[];
    assert t - {} == t;
    assert [d][..0] == [];
    assert ApplyInserts(e, t, []) == Some(t);
    assert ApplyInserts(e, t, [d]) == InsertOne(e, t, d);
  }

  lemma LoneUntrimmedAgain(persisted: set<Field>, t: Table<EamRow>, d: EamItem, k: string)
    requires LoneUntrimmed(d, k) && t.Keys == {k}
    ensures Step(EamEntity(persisted), t, [d], [d.code.value], true, false, true) == Result(t, Failed)
  {
    var c := d.code.value;
    LoneItem(persisted, d);
    NoneIfBlankIsFixed(d.code);
    assert t.Keys - {c} == {k};
    assert |t.Keys| == 1;
    UntrimmedIdCollides(persisted, t, [d], [c], true, d, k);
  }

  /** The first run stores it; the next one fails and leaves the table as it found it, and so
      will every other. */
  lemma LoneUntrimmedFails(persisted: set<Field>, d: EamItem, k: string)
    requires LoneUntrimmed(d, k)
    ensures var e := EamEntity(persisted);
            var once := Step(e, map[], [d], [d.code.value], true, false, true);
            && once.outcome == Synced && once.table.Keys == {k}
            && Step(e, once.table, [d], [d.code.value], true, false, true) == Result(once.table, Failed)
  {
    LoneUntrimmedFirst(persisted, d, k);
    var once := Step(EamEntity(persisted), map[], [d], [d.code.value], true, false, true);
    LoneUntrimmedAgain(persisted, once.table, d, k);
  }

  /** A space before the id is enough. */
  lemma SpacedIdFails(persisted: set<Field>)
    ensures var e := EamEntity(persisted);
            var items := [EamItem(Some(" x"), map[])];
            var once := Step(e, map[], items, [" x"], true, false, true);
            && once.outcome == Synced && once.table.Keys == {"x"}
            && Step(e, once.table, items, [" x"], true, false, true) == Result(once.table, Failed)
  {
    assert " x"[1..] == "x";
    CleanIffFixed(IsSpace, "x");
    assert " x" != "x" by { assert |" x"| == 2; }
    LoneUntrimmedFails(persisted, EamItem(Some(" x"), map[]), "x");
  }

  // ---- Partially set items -----------------------------------------------------------

  /** A stored row as the converters leave it. */
  ghost predicate NormalRow(persisted: set<Field>, r: EamRow) {
    forall f :: f in r.cols ==> f in persisted && NoneIfBlank(Some(r.cols[f])) == Some(r.cols[f])
  }

  lemma UnchangedFieldAgrees(persisted: set<Field>, r: EamRow, d: EamItem, f: Field)
    requires IsClean(d) && TrimmedCode(d) && NormalRow(persisted, r) && d.code == Some(r.equipmentNo)
    requires f in persisted && f in d.fields && !EamEntity(persisted).changed(EamEntity(persisted).toDomain(r), d)
    ensures var n := FromEquipment(persisted)(d).value;
            (f in r.cols <==> f in n.cols) && (f in r.cols ==> r.cols[f] == n.cols[f])
  {
    assert !FieldChanged(ToEquipment(r), d, f);
    NoneIfBlankIsFixed(d.fields[f]);
    if f in r.cols { NoneIfBlankIsFixed(Some(r.cols[f])); }
  }

  lemma ConvertedColumns(persisted: set<Field>, d: EamItem, n: EamRow)
    requires StoredAs(persisted, n, d)
    ensures forall f :: f in n.cols ==> f in persisted && f in d.fields
  {
  }

  lemma RowMeaning(persisted: set<Field>, r: EamRow, d: EamItem)
    requires IsClean(d) && TrimmedCode(d) && NormalRow(persisted, r) && d.code == Some(r.equipmentNo)
    requires !EamEntity(persisted).changed(EamEntity(persisted).toDomain(r), d)
    ensures StoredAs(persisted, r, d) <==> forall f :: f in r.cols ==> f in d.fields
  {
    var n := FromEquipment(persisted)(d).value;
    ConvertedColumns(persisted, d, n);
    forall f | f in persisted && f in d.fields
      ensures (f in r.cols <==> f in n.cols) && (f in r.cols ==> r.cols[f] == n.cols[f])
    {
      UnchangedFieldAgrees(persisted, r, d, f);
    }
    SameColumns(persisted, r, n, d.fields.Keys);
    assert n.equipmentNo == r.equipmentNo;
  }

  /** Two rows that agree on the columns in `given`, outside of which one has none. */
  lemma SameColumns(persisted: set<Field>, r: EamRow, n: EamRow, given: set<Field>)
    requires NormalRow(persisted, r) && r.equipmentNo == n.equipmentNo
    requires forall f :: f in n.cols ==> f in persisted && f in given
    requires forall f :: f in persisted && f in given ==>
             (f in r.cols <==> f in n.cols) && (f in r.cols ==> r.cols[f] == n.cols[f])
    ensures r == n <==> forall f :: f in r.cols ==> f in given
  {
    if forall f :: f in r.cols ==> f in given {
      assert r.cols.Keys == n.cols.Keys;
      assert r.cols == n.cols;
    }
  }

  /** After a committed run the row of a record both sides have equals its converted item
      unless its diff was empty and it holds a column the item leaves unset. Such a column
      keeps its value as long as the diff is empty, and is nulled by the first update. */
  lemma UnsetFieldsLingerIff(persisted: set<Field>, t: Table<EamRow>, items: seq<EamItem>, order: seq<string>,
                             allowDeletes: bool, k: string)
    requires forall d :: d in items ==> IsClean(d) && TrimmedCode(d)
    requires IsOrder(order, ItemMap(EamEntity(persisted), items))
    requires k in t && k in ItemMap(EamEntity(persisted), items) && t[k].equipmentNo == k && NormalRow(persisted, t[k])
    ensures var e := EamEntity(persisted);
            var d := ItemMap(e, items)[k];
            var changed := e.changed(e.toDomain(t[k]), d);
            var after := Step(e, t, items, order, allowDeletes, false, true).table;
            && k in after
            && (StoredAs(persisted, after[k], d) <==> changed || forall f :: f in t[k].cols ==> f in d.fields)
            && (forall f :: f in t[k].cols && f !in d.fields ==>
                  if changed then f !in after[k].cols else f in after[k].cols && after[k].cols[f] == t[k].cols[f])
  {
    var e := EamEntity(persisted);
    var d := ItemMap(e, items)[k];
    TrimmedAreLawful(persisted, items);
    ItemMapMeaning(e, items);
    RowAfter(e, t, items, order, allowDeletes, false, k);
    if !e.changed(e.toDomain(t[k]), d) { RowMeaning(persisted, t[k], d); }
  }

  /** A column two runs leave unset outlives the first, whose diff is empty, and is nulled by
      the second, in which another field differs. */
  lemma LingersThenNulled(persisted: set<Field>, t: Table<EamRow>, first: seq<EamItem>, second: seq<EamItem>,
                          order1: seq<string>, order2: seq<string>, allowDeletes: bool, k: string, f: Field, g: Field)
    requires forall d :: d in first + second ==> IsClean(d) && TrimmedCode(d)
    requires IsOrder(order1, ItemMap(EamEntity(persisted), first))
             && IsOrder(order2, ItemMap(EamEntity(persisted), second))
    requires k in t && t[k].equipmentNo == k && NormalRow(persisted, t[k]) && f in t[k].cols && g in persisted
    requires k in ItemMap(EamEntity(persisted), first) && k in ItemMap(EamEntity(persisted), second)
    requires var e := EamEntity(persisted);
             var d1, d2 := ItemMap(e, first)[k], ItemMap(e, second)[k];
             f !in d1.fields && f !in d2.fields && !e.changed(e.toDomain(t[k]), d1)
             && FieldChanged(e.toDomain(t[k]), d2, g)
    ensures var e := EamEntity(persisted);
            var once := Step(e, t, first, order1, allowDeletes, false, true).table;
            var twice := Step(e, once, second, order2, allowDeletes, false, true).table;
            && k in once && f in once[k].cols && once[k].cols[f] == t[k].cols[f]
            && k in twice && f !in twice[k].cols
  {
    var e := EamEntity(persisted);
    TrimmedAreLawful(persisted, first);
    ItemMapMeaning(e, first);
    RowAfter(e, t, first, order1, allowDeletes, false, k);
    var once := Step(e, t, first, order1, allowDeletes, false, true).table;
    assert once[k] == t[k];
    UnsetFieldsLingerIff(persisted, once, second, order2, allowDeletes, k);
  }

  /** The same for a table of one row and a record alone upstream. */
  lemma LoneRowLingers(persisted: set<Field>, r: EamRow, d1: EamItem, d2: EamItem, f: Field, g: Field)
    requires IsClean(d1) && TrimmedCode(d1) && IsClean(d2) && TrimmedCode(d2)
             && d1.code == d2.code == Some(r.equipmentNo)
    requires NormalRow(persisted, r) && f in r.cols && f !in d1.fields && f !in d2.fields && g in persisted
    requires !Changed(persisted)(ToEquipment(r), d1) && FieldChanged(ToEquipment(r), d2, g)
    ensures var e := EamEntity(persisted);
            var k := r.equipmentNo;
            var once := Step(e, map[k := r], [d1], [k], true, false, true).table;
            var twice := Step(e, once, [d2], [k], true, false, true).table;
            k in once && f in once[k].cols && once[k].cols[f] == r.cols[f] && k in twice && f !in twice[k].cols
  {
    var k := r.equipmentNo;
    LoneItem(persisted, d1);
    LoneItem(persisted, d2);
    assert IsOrder([k], map[k := d1]) && IsOrder([k], map[k := d2]);
    LingersThenNulled(persisted, map[k := r], [d1], [d2], [k], [k], true, k, f, g);
  }

  /** At a real row: a description outlives a run over an unchanged model, and goes when the
      model changes. */
  lemma StaleDescription()
    ensures var e := EamEntity(DEVICE_FIELDS);
            var t := map["k" := EamRow("k", map[Description := "old", Model := "m"])];
            var once := Step(e, t, [EamItem(Some("k"), map[Model := Some("m")])], ["k"], true, false, true).table;
            var twice := Step(e, once, [EamItem(Some("k"), map[Model := Some("n")])], ["k"], true, false, true).table;
            && "k" in once && Description in once["k"].cols && once["k"].cols[Description] == "old"
            && "k" in twice && Description !in twice["k"].cols
  {
    ModelItem("m");
    ModelItem("n");
    StaleRow();
    LoneRowLingers(DEVICE_FIELDS, EamRow("k", map[Description := "old", Model := "m"]),
                   EamItem(Some("k"), map[Model := Some("m")]), EamItem(Some("k"), map[Model := Some("n")]),
                   Description, Model);
  }

  lemma ModelItem(model: string)
    requires model == "m" || model == "n"
    ensures var d := EamItem(Some("k"), map[Model := Some(model)]);
            IsClean(d) && TrimmedCode(d)
  {
    CleanIffFixed(IsSpace, "k");
    CleanIffFixed(IsSpace, model);
    CleanIffFixed(IsJunk, model);
  }

  lemma StaleRow()
    ensures var r := EamRow("k", map[Description := "old", Model := "m"]);
            && NormalRow(DEVICE_FIELDS, r)
            && !Changed(DEVICE_FIELDS)(ToEquipment(r), EamItem(Some("k"), map[Model := Some("m")]))
            && FieldChanged(ToEquipment(r), EamItem(Some("k"), map[Model := Some("n")]), Model)
  {
    CleanIffFixed(IsSpace, "old");
    CleanIffFixed(IsSpace, "m");
    CleanIffFixed(IsJunk, "m");
    CleanIffFixed(IsJunk, "n");
  }

  /** Every reconciliation, whatever upstream sends, keeps the stored keys trimmed and
      non-blank, which is what the LanDB join needs of its snapshot. */
  lemma KeysStayTrimmed(persisted: set<Field>, t: Table<EamRow>, api: seq<EamItem>, order: seq<string>,
                        allowDeletes: bool, commitOk: bool)
    requires TrimmedKeys(t)
    ensures TrimmedKeys(Step(EamEntity(persisted), t, api, order, allowDeletes, false, commitOk).table)
  {
    var e := EamEntity(persisted);
    forall d | e.fromDomain(d).Some?
      ensures NoneIfBlank(Some(e.pk(e.fromDomain(d).value))) == Some(e.pk(e.fromDomain(d).value))
    {
      NoneIfBlankIsFixed(d.code);
    }
    var diff := Plan(e, t, api, order, allowDeletes, false);
    UpdatesKeepKeys(e, t - diff.del, diff.ups);
    if ApplyUpdates(e, t - diff.del, diff.ups).Some? {
      InsertsAddKeys(e, ApplyUpdates(e, t - diff.del, diff.ups).value, diff.ins);
    }
  }

  lemma {:induction false} InsertsAddKeys<D, R>(e: Entity<D, R>, t: Table<R>, ins: seq<D>)
    ensures var r := ApplyInserts(e, t, ins);
            r.Some? ==> forall k :: k in r.value && k !in t ==>
              exists d :: d in ins && e.fromDomain(d).Some? && e.pk(e.fromDomain(d).value) == k
  {
    if ins != [] {
      InsertsAddKeys(e, t, ins[..|ins| - 1]);
    }
  }
}
