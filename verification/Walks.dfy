/** SNMP table walks: the indexed column walk, the outlet merge, the sensor tables and the
    interface table. */
module Walks {
  import opened Common
  import opened Text
  import opened Targets
  import opened Sorting
  import opened SeriesIdentity

  /** A walked value, as its integer, numeric and text readings. */
  datatype Value = Value(asInt: Option<int>, asFloat: Option<real>, text: Option<string>)

  /** A walked row; the last arc of its name is not always an integer. */
  datatype Row = Row(arc: Option<int>, value: Value)

  // ---- One column ------------------------------------------------------------------

  /** An insertion-ordered dictionary: the keys in the order they first came, and the value
      that came last for each. */
  datatype Column = Column(keys: seq<int>, at: map<int, Value>) {
    function Get(i: int): Option<Value> {
      if i in at then Some(at[i]) else None
    }
  }

  function Put(c: Column, r: Row): Column {
    if r.arc.None? then c
    else Column(if r.arc.value in c.at then c.keys else c.keys + [r.arc.value], c.at[r.arc.value := r.value])
  }

  function Indexed(rows: seq<Row>): Column {
    if rows == [] then Column([], map[]) else Put(Indexed(rows[..|rows| - 1]), rows[|rows| - 1])
  }

  method WalkIndexed(rows: seq<Row>) returns (c: Column)
    ensures c == Indexed(rows)
  {
    c := Column([], map[]);
    for i := 0 to |rows|
      invariant c == Indexed(rows[..i])
    {
      assert rows[..i + 1][..i] == rows[..i];
      match rows[i].arc
      case None => continue;
      case Some(k) =>
        c := Column(if k in c.at then c.keys else c.keys + [k], c.at[k := rows[i].value]);
    }
    assert rows[..|rows|] == rows;
  }

  /** Row `i` is the last one of index `k`. */
  ghost predicate LastRow(rows: seq<Row>, k: int, i: nat) {
    i < |rows| && rows[i].arc == Some(k) && forall j :: i < j < |rows| ==> rows[j].arc != Some(k)
  }

  /** Rows without an integer index are skipped, the keys are distinct, and the last row of
      an index wins. */
  lemma {:induction false} IndexedMeaning(rows: seq<Row>)
    ensures var c := Indexed(rows);
            Distinct(c.keys) && (forall k :: k in c.keys <==> k in c.at)
  {
    if rows != [] {
      IndexedMeaning(rows[..|rows| - 1]);
    }
  }

  lemma {:induction false} LastRowWins(rows: seq<Row>, k: int)
    ensures match Indexed(rows).Get(k)
            case Some(v) => exists i: nat :: LastRow(rows, k, i) && rows[i].value == v
            case None => forall r :: r in rows ==> r.arc != Some(k)
  {
    if rows != [] {
      var n := |rows| - 1;
      LastRowWins(rows[..n], k);
      if rows[n].arc == Some(k) {
        assert LastRow(rows, k, n);
      } else if Indexed(rows).Get(k).Some? {
        var i: nat :| LastRow(rows[..n], k, i) && rows[i].value == Indexed(rows[..n]).Get(k).value;
        assert LastRow(rows, k, i);
      }
    }
  }

  function IntOf(v: Option<Value>): Option<int> {
    if v.None? then None else v.value.asInt
  }

  function FloatOf(v: Option<Value>): Option<real> {
    if v.None? then None else v.value.asFloat
  }

  /** The text reading, stripped; nothing when it is blank. */
  function TextOf(v: Option<Value>): Option<string> {
    if v.None? then None else NoneIfBlank(v.value.text)
  }

  /** The name of an outlet or sensor; an agent's exception marker is no name. */
  function NameOf(v: Option<Value>): Option<string> {
    var t := TextOf(v);
    if t.Some? && ("No Such " <= t.value || "No more variables" <= t.value) then None else t
  }

  /** A name is the text reading between its first and last visible character, unless that is one
      of the agent's two exception markers. */
  lemma NameMeaning(v: Value)
    ensures Remains(IsSpace, v.text, TextOf(Some(v)))
    ensures NameOf(Some(v)).Some? <==>
      TextOf(Some(v)).Some? && !("No Such " <= TextOf(Some(v)).value) && !("No more variables" <= TextOf(Some(v)).value)
    ensures NameOf(Some(v)).Some? ==> NameOf(Some(v)) == TextOf(Some(v))
  {
    NoneIfBlankMeaning(v.text);
  }

  function Scaled(v: Option<real>, scale: real): Option<real>
    requires scale != 0.0
  {
    if v.None? then None else Some(v.value / scale)
  }

  // ---- Outlets -----------------------------------------------------------------------------

  datatype OutletConfig = OutletConfig(currentScale: real, powerScale: real, energyScale: real, stateMap: map<int, int>)

  const SENTRY4 := OutletConfig(100.0, 1.0, 1.0, map[1 := 1, 2 := 0, 0 := 2])
  const SENTRY3 := OutletConfig(100.0, 1.0, 1.0, map[0 := 0, 1 := 1])

  ghost predicate Sane(cfg: OutletConfig) {
    cfg.currentScale != 0.0 && cfg.powerScale != 0.0 && cfg.energyScale != 0.0
  }

  datatype OutletTable = OutletTable(states: seq<Row>, currents: seq<Row>, powers: seq<Row>, energies: seq<Row>,
                                     names: seq<Row>)

  function Below(): (int, int) -> bool {
    (x: int, y: int) => x < y
  }

  datatype Columns = Columns(states: Column, currents: Column, powers: Column, energies: Column, names: Column)

  function ColumnsOf(t: OutletTable): Columns {
    Columns(Indexed(t.states), Indexed(t.currents), Indexed(t.powers), Indexed(t.energies), Indexed(t.names))
  }

  /** The entry of one index: each reading from its own column. */
  ghost predicate EntryOf(o: Outlet, k: int, cfg: OutletConfig, c: Columns)
    requires Sane(cfg)
  {
    && o.index == Some(k)
    && (match IntOf(c.states.Get(k))
        case None => o.state == None
        case Some(raw) => o.state == Some((if raw in cfg.stateMap then cfg.stateMap[raw] else 2) as real))
    && o.current == Scaled(FloatOf(c.currents.Get(k)), cfg.currentScale)
    && o.power == Scaled(FloatOf(c.powers.Get(k)), cfg.powerScale)
    && o.energy == Scaled(FloatOf(c.energies.Get(k)), cfg.energyScale)
    && o.name == NameOf(c.names.Get(k))
  }

  method BuildEntry(idx: int, cfg: OutletConfig, c: Columns) returns (entry: Outlet)
    requires Sane(cfg)
    ensures EntryOf(entry, idx, cfg, c)
  {
    entry := Outlet(Some(idx), None, None, None, None, None);
    var raw := IntOf(c.states.Get(idx));
    if raw.Some? {
      entry := entry.(state := Some((if raw.value in cfg.stateMap then cfg.stateMap[raw.value] else 2) as real));
    }
    var current := FloatOf(c.currents.Get(idx));
    if current.Some? {
      entry := entry.(current := Some(current.value / cfg.currentScale));
    }
    var power := FloatOf(c.powers.Get(idx));
    if power.Some? {
      entry := entry.(power := Some(power.value / cfg.powerScale));
    }
    var energy := FloatOf(c.energies.Get(idx));
    if energy.Some? {
      entry := entry.(energy := Some(energy.value / cfg.energyScale));
    }
    var name := NameOf(c.names.Get(idx));
    if name.Some? {
      entry := entry.(name := name);
    }
  }

  /** Some row of a column other than the names has index `k`. */
  ghost predicate Measured(t: OutletTable, k: int) {
    exists r :: (r in t.states || r in t.currents || r in t.powers || r in t.energies) && r.arc == Some(k)
  }

  ghost predicate NoIndex(rows: seq<Row>) {
    forall r :: r in rows ==> r.arc.None?
  }

  /** What the outlet merge promises: nothing when the state and current columns are empty;
      otherwise strictly ascending entries, one for each index of the state, current, power
      and energy columns. */
  ghost predicate Merged(out: seq<Outlet>, cfg: OutletConfig, t: OutletTable)
    requires Sane(cfg)
  {
    if NoIndex(t.states) && NoIndex(t.currents) then out == []
    else
      && (forall o :: o in out ==>
            o.index.Some? && Measured(t, o.index.value) && EntryOf(o, o.index.value, cfg, ColumnsOf(t)))
      && (forall i, j :: 0 <= i < j < |out| ==>
            out[i].index.Some? && out[j].index.Some? && out[i].index.value < out[j].index.value)
      && (forall k :: Measured(t, k) ==> exists o :: o in out && o.index == Some(k))
  }

  lemma ColumnEmpty(rows: seq<Row>)
    ensures Indexed(rows).keys == [] <==> NoIndex(rows)
  {
    IndexedMeaning(rows);
    forall r | r in rows && r.arc.Some? ensures r.arc.value in Indexed(rows).keys { LastRowWins(rows, r.arc.value); }
    if k :| k in Indexed(rows).keys { LastRowWins(rows, k); }
  }

  lemma ColumnKey(rows: seq<Row>, k: int)
    ensures k in Indexed(rows).keys <==> exists r :: r in rows && r.arc == Some(k)
  {
    IndexedMeaning(rows);
    LastRowWins(rows, k);
  }

  function AllKeys(c: Columns): seq<int> {
    c.states.keys + c.currents.keys + c.powers.keys + c.energies.keys
  }

  lemma SortedIndices(t: OutletTable)
    ensures var indices := Sorted(Below(), AllKeys(ColumnsOf(t)));
            Ascending(Below(), indices) && forall k :: k in indices <==> Measured(t, k)
  {
    var indices := Sorted(Below(), AllKeys(ColumnsOf(t)));
    SortedMeaning(Below(), AllKeys(ColumnsOf(t)));
    forall k ensures k in indices <==> Measured(t, k) {
      ColumnKey(t.states, k);
      ColumnKey(t.currents, k);
      ColumnKey(t.powers, k);
      ColumnKey(t.energies, k);
    }
  }

  lemma EntriesMerge(out: seq<Outlet>, indices: seq<int>, cfg: OutletConfig, t: OutletTable)
    requires Sane(cfg) && !(NoIndex(t.states) && NoIndex(t.currents))
    requires Ascending(Below(), indices) && forall k :: k in indices <==> Measured(t, k)
    requires |out| == |indices| && forall j :: 0 <= j < |out| ==> EntryOf(out[j], indices[j], cfg, ColumnsOf(t))
    ensures Merged(out, cfg, t)
  {
    forall k | Measured(t, k) ensures exists o :: o in out && o.index == Some(k) {
      assert k in indices;
      var i :| 0 <= i < |indices| && indices[i] == k;
      assert out[i] in out;
    }
  }

  method FetchOutlets(config: Option<OutletConfig>, t: OutletTable) returns (outlets: seq<Outlet>)
    requires config.Some? ==> Sane(config.value)
    ensures config.None? ==> outlets == []
    ensures config.Some? ==> Merged(outlets, config.value, t)
  {
    outlets := [];
    if config.None? {
      return;
    }
    var states := WalkIndexed(t.states);
    var currents := WalkIndexed(t.currents);
    ColumnEmpty(t.states);
    ColumnEmpty(t.currents);
    if states.keys == [] && currents.keys == [] {
      return;
    }
    var powers := WalkIndexed(t.powers);
    var energies := WalkIndexed(t.energies);
    var names := WalkIndexed(t.names);
    var columns := Columns(states, currents, powers, energies, names);
    var indices := Sorted(Below(), AllKeys(columns));
    SortedIndices(t);
    for i := 0 to |indices|
      invariant |outlets| == i
      invariant forall j :: 0 <= j < i ==> EntryOf(outlets[j], indices[j], config.value, columns)
    {
      var entry := BuildEntry(indices[i], config.value, columns);
      outlets := outlets + [entry];
    }
    EntriesMerge(outlets, indices, config.value, t);
  }

  lemma SameEntry(a: Outlet, b: Outlet, k: int, cfg: OutletConfig, c: Columns)
    requires Sane(cfg) && EntryOf(a, k, cfg, c) && EntryOf(b, k, cfg, c)
    ensures a == b
  {
  }

  function IndexList(a: seq<Outlet>): seq<int> {
    seq(|a|, i requires 0 <= i < |a| => if a[i].index.Some? then a[i].index.value else 0)
  }

  lemma IndicesOf(a: seq<Outlet>, cfg: OutletConfig, t: OutletTable, x: int)
    requires Sane(cfg) && Merged(a, cfg, t) && !(NoIndex(t.states) && NoIndex(t.currents))
    ensures x in IndexList(a) <==> Measured(t, x)
  {
    if x in IndexList(a) {
      var i :| 0 <= i < |a| && IndexList(a)[i] == x;
      assert a[i] in a;
    }
    if Measured(t, x) {
      var o :| o in a && o.index == Some(x);
      var i :| 0 <= i < |a| && a[i] == o;
      assert IndexList(a)[i] == x;
    }
  }

  /** The merge's promise determines its result. */
  lemma MergeIsUnique(a: seq<Outlet>, b: seq<Outlet>, cfg: OutletConfig, t: OutletTable)
    requires Sane(cfg) && Merged(a, cfg, t) && Merged(b, cfg, t)
    ensures a == b
  {
    if !(NoIndex(t.states) && NoIndex(t.currents)) {
      var ka, kb := IndexList(a), IndexList(b);
      forall x ensures x in ka <==> x in kb {
        IndicesOf(a, cfg, t, x);
        IndicesOf(b, cfg, t, x);
      }
      AscendingUnique(Below(), ka, kb);
      forall i | 0 <= i < |a| ensures a[i] == b[i] {
        assert ka[i] == kb[i] && a[i] in a && b[i] in b;
        SameEntry(a[i], b[i], ka[i], cfg, ColumnsOf(t));
      }
    }
  }

  /** Every state is off, on or other. */
  lemma StatesAreNormal(out: seq<Outlet>, cfg: OutletConfig, t: OutletTable, o: Outlet)
    requires cfg == SENTRY3 || cfg == SENTRY4
    requires Merged(out, cfg, t) && o in out && o.state.Some?
    ensures o.state.value in {0.0, 1.0, 2.0}
  {
  }

  // ---- By the walked rows themselves ---------------------------------------------------------

  /** `v` is the scaled numeric reading of the last row of index `k`, if it has one. */
  ghost predicate ScaledFrom(v: Option<real>, rows: seq<Row>, k: int, scale: real)
    requires scale != 0.0
  {
    if exists i: nat :: LastRow(rows, k, i) && rows[i].value.asFloat.Some?
    then exists i: nat :: LastRow(rows, k, i) && rows[i].value.asFloat.Some?
                          && v == Some(rows[i].value.asFloat.value / scale)
    else v == None
  }

  /** `v` is the state of the last row of index `k`, if that is an integer: its mapped code, or 2. */
  ghost predicate StateFrom(v: Option<real>, rows: seq<Row>, k: int, stateMap: map<int, int>) {
    if exists i: nat :: LastRow(rows, k, i) && rows[i].value.asInt.Some?
    then exists i: nat :: LastRow(rows, k, i) && rows[i].value.asInt.Some?
                          && v == (var raw := rows[i].value.asInt.value;
                                   Some((if raw in stateMap then stateMap[raw] else 2) as real))
    else v == None
  }

  /** `v` is the name in the last row of index `k`, if there is one. */
  ghost predicate NameFrom(v: Option<string>, rows: seq<Row>, k: int) {
    if exists i: nat :: LastRow(rows, k, i)
    then exists i: nat :: LastRow(rows, k, i) && v == NameOf(Some(rows[i].value))
    else v == None
  }

  /** The entry of one index, each reading from the last row of its own column. */
  ghost predicate OutletFrom(o: Outlet, k: int, cfg: OutletConfig, t: OutletTable)
    requires Sane(cfg)
  {
    && o.index == Some(k) && StateFrom(o.state, t.states, k, cfg.stateMap)
    && ScaledFrom(o.current, t.currents, k, cfg.currentScale) && ScaledFrom(o.power, t.powers, k, cfg.powerScale)
    && ScaledFrom(o.energy, t.energies, k, cfg.energyScale) && NameFrom(o.name, t.names, k)
  }

  /** The value a column has for an index is that of the last row of the index. */
  lemma LastValue(rows: seq<Row>, k: int, i: nat)
    requires LastRow(rows, k, i)
    ensures Indexed(rows).Get(k) == Some(rows[i].value)
  {
    LastRowWins(rows, k);
    assert rows[i] in rows;
    var j: nat :| LastRow(rows, k, j) && rows[j].value == Indexed(rows).Get(k).value;
    assert i == j;
  }

  lemma NoLastValue(rows: seq<Row>, k: int)
    ensures Indexed(rows).Get(k).Some? ==> exists i: nat :: LastRow(rows, k, i)
  {
    LastRowWins(rows, k);
  }

  lemma ScaledIsRead(rows: seq<Row>, k: int, scale: real)
    requires scale != 0.0
    ensures ScaledFrom(Scaled(FloatOf(Indexed(rows).Get(k)), scale), rows, k, scale)
  {
    NoLastValue(rows, k);
    forall i: nat | LastRow(rows, k, i) ensures Indexed(rows).Get(k) == Some(rows[i].value) { LastValue(rows, k, i); }
  }

  lemma NameIsRead(rows: seq<Row>, k: int)
    ensures NameFrom(NameOf(Indexed(rows).Get(k)), rows, k)
  {
    NoLastValue(rows, k);
    forall i: nat | LastRow(rows, k, i) ensures Indexed(rows).Get(k) == Some(rows[i].value) { LastValue(rows, k, i); }
  }

  lemma StateIsRead(o: Outlet, k: int, cfg: OutletConfig, t: OutletTable)
    requires Sane(cfg) && EntryOf(o, k, cfg, ColumnsOf(t))
    ensures StateFrom(o.state, t.states, k, cfg.stateMap)
  {
    NoLastValue(t.states, k);
    forall i: nat | LastRow(t.states, k, i) ensures Indexed(t.states).Get(k) == Some(t.states[i].value) {
      LastValue(t.states, k, i);
    }
  }

  /** The merge's entries by the rows: what the promise of the merge means. */
  lemma MergedIsRead(out: seq<Outlet>, cfg: OutletConfig, t: OutletTable, o: Outlet)
    requires Sane(cfg) && Merged(out, cfg, t) && o in out
    ensures o.index.Some? && OutletFrom(o, o.index.value, cfg, t)
  {
    var k := o.index.value;
    StateIsRead(o, k, cfg, t);
    ScaledIsRead(t.currents, k, cfg.currentScale);
    ScaledIsRead(t.powers, k, cfg.powerScale);
    ScaledIsRead(t.energies, k, cfg.energyScale);
    NameIsRead(t.names, k);
  }

  /** A state by its vendor's codes: on is 1 for both series, off is 2 for Sentry4 and 0 for
      Sentry3, and every other code is neither. */
  lemma VendorStates(o: Outlet, k: int, i: nat, raw: int, t: OutletTable)
    requires LastRow(t.states, k, i) && t.states[i].value.asInt == Some(raw)
    ensures OutletFrom(o, k, SENTRY4, t) ==> o.state == Some(if raw == 1 then 1.0 else if raw == 2 then 0.0 else 2.0)
    ensures OutletFrom(o, k, SENTRY3, t) ==> o.state == Some(if raw == 1 then 1.0 else if raw == 0 then 0.0 else 2.0)
  {
  }

  // ---- Sensors -------------------------------------------------------------------------------

  /** Which sensors report Fahrenheit: one scalar for all, a column, or none. */
  datatype Unit = Scalar(fahrenheit: bool) | PerSensor(rows: seq<Row>) | Unscaled

  function InFahrenheit(unit: Unit, k: int): bool {
    match unit
    case Scalar(f) => f
    case PerSensor(rows) => IntOf(Indexed(rows).Get(k)) == Some(1)
    case Unscaled => false
  }

  function Reading(raw: real, scale: real, fahrenheit: bool): real
    requires scale != 0.0
  {
    if fahrenheit then (raw / scale - 32.0) * 5.0 / 9.0 else raw / scale
  }

  /** The sensor entry of an index, or nothing when its value is not numeric. */
  function SensorEntry(values: Column, names: Column, scale: real, unit: Unit): int -> seq<Sensor>
    requires scale != 0.0
  {
    (k: int) =>
      var raw := FloatOf(values.Get(k));
      if raw.None? then []
      else [Sensor(Some(k), Some(Reading(raw.value, scale, InFahrenheit(unit, k))), NameOf(names.Get(k)))]
  }

  /** The sensors of a table report Fahrenheit: all by the scalar, or this one by its column. */
  ghost predicate SaysFahrenheit(unit: Unit, k: int) {
    || unit == Scalar(true)
    || (unit.PerSensor? && exists i: nat :: LastRow(unit.rows, k, i) && unit.rows[i].value.asInt == Some(1))
  }

  /** The entry of one index: the name from its own column, and the value scaled, in Celsius.
      A reading that the device gave in Fahrenheit converts back to what it gave. */
  ghost predicate SensorOf(o: Sensor, k: int, values: seq<Row>, names: seq<Row>, scale: real, unit: Unit)
    requires scale != 0.0
  {
    && o.index == Some(k) && o.reading.Some? && NameFrom(o.name, names, k)
    && exists i: nat :: LastRow(values, k, i) && values[i].value.asFloat.Some?
         && (if SaysFahrenheit(unit, k) then o.reading.value * 9.0 / 5.0 + 32.0 else o.reading.value)
            == values[i].value.asFloat.value / scale
  }

  /** What a sensor table promises: one entry per index with a numeric value, each that index's
      own. */
  ghost predicate SensorTableOf(sensors: seq<Sensor>, values: seq<Row>, names: seq<Row>, scale: real, unit: Unit)
    requires scale != 0.0
  {
    && (forall o :: o in sensors ==> o.index.Some? && SensorOf(o, o.index.value, values, names, scale, unit))
    && (forall k, i: nat :: LastRow(values, k, i) && values[i].value.asFloat.Some? ==>
          exists o :: o in sensors && o.index == Some(k))
    && DistinctIndices(SensorIndex(), sensors)
  }

  lemma FahrenheitMeaning(unit: Unit, k: int)
    ensures InFahrenheit(unit, k) <==> SaysFahrenheit(unit, k)
  {
    if unit.PerSensor? {
      NoLastValue(unit.rows, k);
      forall i: nat | LastRow(unit.rows, k, i) ensures Indexed(unit.rows).Get(k) == Some(unit.rows[i].value) {
        LastValue(unit.rows, k, i);
      }
    }
  }

  lemma EntryIsSensor(values: seq<Row>, names: seq<Row>, scale: real, unit: Unit, k: int)
    requires scale != 0.0
    ensures var entry := SensorEntry(Indexed(values), Indexed(names), scale, unit)(k);
            if FloatOf(Indexed(values).Get(k)).Some? then |entry| == 1
              && SensorOf(entry[0], k, values, names, scale, unit)
            else entry == []
  {
    FahrenheitMeaning(unit, k);
    NameIsRead(names, k);
    NoLastValue(values, k);
    forall i: nat | LastRow(values, k, i) ensures Indexed(values).Get(k) == Some(values[i].value) {
      LastValue(values, k, i);
    }
  }

  lemma SensorsMeaning(values: seq<Row>, names: seq<Row>, scale: real, unit: Unit)
    requires scale != 0.0
    ensures SensorTableOf(FlatMap(SensorEntry(Indexed(values), Indexed(names), scale, unit), Indexed(values).keys),
                          values, names, scale, unit)
  {
    var f, keys := SensorEntry(Indexed(values), Indexed(names), scale, unit), Indexed(values).keys;
    var sensors := FlatMap(f, keys);
    IndexedMeaning(values);
    SensorsIndexed(Indexed(values), Indexed(names), scale, unit, keys);
    forall o: Sensor | o in sensors ensures o.index.Some? && SensorOf(o, o.index.value, values, names, scale, unit) {
      FlatMapSource(f, keys, o);
      var i :| 0 <= i < |keys| && o in f(keys[i]);
      EntryIsSensor(values, names, scale, unit, keys[i]);
    }
    forall k, n: nat | LastRow(values, k, n) && values[n].value.asFloat.Some?
      ensures exists o :: o in sensors && o.index == Some(k)
    {
      LastValue(values, k, n);
      EntryIsSensor(values, names, scale, unit, k);
      var i :| 0 <= i < |keys| && keys[i] == k;
      assert f(k)[0] in f(keys[i]);
      FlatMapSource(f, keys, f(k)[0]);
    }
  }

  /** One sensor table, temperature or humidity. */
  method FetchSensors(values: seq<Row>, names: seq<Row>, scale: real, unit: Unit) returns (sensors: seq<Sensor>)
    requires scale != 0.0
    ensures sensors == FlatMap(SensorEntry(Indexed(values), Indexed(names), scale, unit), Indexed(values).keys)
    ensures SensorTableOf(sensors, values, names, scale, unit)
  {
    var column := WalkIndexed(values);
    var labels := WalkIndexed(names);
    sensors := AppendAll(SensorEntry(column, labels, scale, unit), column.keys);
    SensorsMeaning(values, names, scale, unit);
  }

  lemma SensorsIndexed(values: Column, names: Column, scale: real, unit: Unit, keys: seq<int>)
    requires scale != 0.0 && Distinct(keys)
    ensures DistinctIndices(SensorIndex(), FlatMap(SensorEntry(values, names, scale, unit), keys))
  {
    FlatMapDistinct(SensorEntry(values, names, scale, unit), keys, SensorIndex());
  }

  // ---- Interfaces -------------------------------------------------------------------------------

  const LOOPBACK := 24

  datatype IfTable = IfTable(oper: seq<Row>, descr: seq<Row>, iftype: seq<Row>,
                             inErr: seq<Row>, outErr: seq<Row>, hcIn: seq<Row>, hcOut: seq<Row>)

  predicate IsLoopback(t: IfTable, k: int) {
    IntOf(Indexed(t.iftype).Get(k)) == Some(LOOPBACK)
  }

  function Counter(rows: seq<Row>, k: int, wanted: bool): Option<real> {
    var v := IntOf(Indexed(rows).Get(k));
    if wanted && v.Some? then Some(v.value as real) else None
  }

  /** `v` is the integer reading of the last row of index `k`, if there is one. */
  ghost predicate ReadFrom(v: Option<real>, rows: seq<Row>, k: int) {
    if exists i: nat :: LastRow(rows, k, i) && rows[i].value.asInt.Some?
    then exists i: nat :: LastRow(rows, k, i) && rows[i].value.asInt.Some?
                          && v == Some(rows[i].value.asInt.value as real)
    else v == None
  }

  /** `v` is the trimmed text of the last row of index `k`, if there is one. */
  ghost predicate DescriptionFrom(v: Option<string>, rows: seq<Row>, k: int) {
    if exists i: nat :: LastRow(rows, k, i)
    then exists i: nat :: LastRow(rows, k, i) && Remains(IsSpace, rows[i].value.text, v)
    else v == None
  }

  lemma DescriptionIsRead(rows: seq<Row>, k: int)
    ensures DescriptionFrom(TextOf(Indexed(rows).Get(k)), rows, k)
  {
    NoLastValue(rows, k);
    forall i: nat | LastRow(rows, k, i)
      ensures Indexed(rows).Get(k) == Some(rows[i].value)
      ensures Remains(IsSpace, rows[i].value.text, TextOf(Indexed(rows).Get(k)))
    {
      LastValue(rows, k, i);
      NoneIfBlankMeaning(rows[i].value.text);
    }
  }

  /** The entry of one interface: its status, each counter from its own column or absent when
      counters are off, and its description. */
  ghost predicate IfaceOf(o: Iface, k: int, t: IfTable, counters: bool) {
    && o.ifindex == Some(k) && ReadFrom(o.operStatus, t.oper, k)
    && DescriptionFrom(o.ifdescr, t.descr, k)
    && if counters then
         ReadFrom(o.inOctets, t.hcIn, k) && ReadFrom(o.outOctets, t.hcOut, k)
         && ReadFrom(o.inErrors, t.inErr, k) && ReadFrom(o.outErrors, t.outErr, k)
       else o.inOctets == None && o.outOctets == None && o.inErrors == None && o.outErrors == None
  }

  lemma CounterMeaning(rows: seq<Row>, k: int)
    ensures ReadFrom(Counter(rows, k, true), rows, k)
  {
    NoLastValue(rows, k);
    forall i: nat | LastRow(rows, k, i) ensures Indexed(rows).Get(k) == Some(rows[i].value) { LastValue(rows, k, i); }
  }

  lemma EntryIsIface(t: IfTable, counters: bool, k: int)
    ensures forall o :: o in IfEntry(t, counters)(k) ==> IfaceOf(o, k, t, counters)
  {
    CounterMeaning(t.oper, k);
    CounterMeaning(t.hcIn, k);
    CounterMeaning(t.hcOut, k);
    CounterMeaning(t.inErr, k);
    CounterMeaning(t.outErr, k);
    DescriptionIsRead(t.descr, k);
  }

  /** The reading of one interface; a loopback has none. */
  function IfEntry(t: IfTable, counters: bool): int -> seq<Iface> {
    (k: int) =>
      if IsLoopback(t, k) then []
      else [Iface(Some(k), Counter(t.oper, k, true), Counter(t.hcIn, k, counters), Counter(t.hcOut, k, counters),
                  Counter(t.inErr, k, counters), Counter(t.outErr, k, counters), TextOf(Indexed(t.descr).Get(k)))]
  }

  /** What the interface walk promises: distinctly indexed entries, one for each walked index that
      is no loopback, each reading from its own columns. */
  ghost predicate InterfaceTableOf(interfaces: seq<Iface>, t: IfTable, counters: bool) {
    && DistinctIndices(IfaceIndex(), interfaces)
    && (forall k :: (exists i :: i in interfaces && i.ifindex == Some(k))
               <==> (exists r :: r in t.oper && r.arc == Some(k)) && !IsLoopback(t, k))
    && (forall o :: o in interfaces ==> o.ifindex.Some? && IfaceOf(o, o.ifindex.value, t, counters))
  }

  method FetchInterfaces(t: IfTable, counters: bool) returns (interfaces: seq<Iface>)
    ensures interfaces == FlatMap(IfEntry(t, counters), Indexed(t.oper).keys)
    ensures InterfaceTableOf(interfaces, t, counters)
  {
    interfaces := [];
    var oper := WalkIndexed(t.oper);
    var iftype := WalkIndexed(t.iftype);
    var descr := WalkIndexed(t.descr);
    for i := 0 to |oper.keys|
      invariant interfaces == FlatMap(IfEntry(t, counters), oper.keys[..i])
    {
      FlatMapStep(IfEntry(t, counters), oper.keys, i);
      var k := oper.keys[i];
      if IntOf(iftype.Get(k)) == Some(LOOPBACK) {
        continue;
      }
      var entry := Iface(Some(k), Counter(t.oper, k, true), None, None, None, None, TextOf(descr.Get(k)));
      if counters {
        entry := entry.(inOctets := Counter(t.hcIn, k, true), outOctets := Counter(t.hcOut, k, true),
                        inErrors := Counter(t.inErr, k, true), outErrors := Counter(t.outErr, k, true));
      }
      interfaces := interfaces + [entry];
    }
    assert oper.keys[..|oper.keys|] == oper.keys;
    InterfacesPromised(t, counters);
  }

  lemma InterfacesPromised(t: IfTable, counters: bool)
    ensures InterfaceTableOf(FlatMap(IfEntry(t, counters), Indexed(t.oper).keys), t, counters)
  {
    InterfacesMeaning(t, counters);
    InterfacesRead(t, counters);
  }

  lemma InterfacesRead(t: IfTable, counters: bool)
    ensures forall o :: o in FlatMap(IfEntry(t, counters), Indexed(t.oper).keys) ==>
              o.ifindex.Some? && IfaceOf(o, o.ifindex.value, t, counters)
  {
    var f, keys := IfEntry(t, counters), Indexed(t.oper).keys;
    forall o: Iface | o in FlatMap(f, keys) ensures o.ifindex.Some? && IfaceOf(o, o.ifindex.value, t, counters) {
      FlatMapSource(f, keys, o);
      var i :| 0 <= i < |keys| && o in f(keys[i]);
      EntryIsIface(t, counters, keys[i]);
    }
  }

  /** A loopback is an interface whose type column says 24. */
  lemma LoopbackMeaning(t: IfTable, k: int)
    ensures IsLoopback(t, k) <==> exists i: nat :: LastRow(t.iftype, k, i) && t.iftype[i].value.asInt == Some(24)
  {
    NoLastValue(t.iftype, k);
    forall i: nat | LastRow(t.iftype, k, i) ensures Indexed(t.iftype).Get(k) == Some(t.iftype[i].value) {
      LastValue(t.iftype, k, i);
    }
  }

  lemma InterfacesMeaning(t: IfTable, counters: bool)
    ensures var interfaces := FlatMap(IfEntry(t, counters), Indexed(t.oper).keys);
            && DistinctIndices(IfaceIndex(), interfaces)
            && forall k :: (exists i :: i in interfaces && i.ifindex == Some(k))
                      <==> (exists r :: r in t.oper && r.arc == Some(k)) && !IsLoopback(t, k)
  {
    var keys := Indexed(t.oper).keys;
    IndexedMeaning(t.oper);
    InterfacesIndexed(t, counters, keys);
    forall k ensures (exists i :: i in FlatMap(IfEntry(t, counters), keys) && i.ifindex == Some(k))
                <==> (exists r :: r in t.oper && r.arc == Some(k)) && !IsLoopback(t, k)
    {
      ColumnKey(t.oper, k);
      InterfaceListed(t, counters, keys, k);
    }
  }

  lemma InterfacesIndexed(t: IfTable, counters: bool, keys: seq<int>)
    requires Distinct(keys)
    ensures DistinctIndices(IfaceIndex(), FlatMap(IfEntry(t, counters), keys))
  {
    FlatMapDistinct(IfEntry(t, counters), keys, IfaceIndex());
  }

  lemma {:induction false} InterfaceListed(t: IfTable, counters: bool, keys: seq<int>, k: int)
    ensures (exists i :: i in FlatMap(IfEntry(t, counters), keys) && i.ifindex == Some(k)) <==>
            k in keys && !IsLoopback(t, k)
  {
    if keys != [] {
      var n := |keys| - 1;
      InterfaceListed(t, counters, keys[..n], k);
      var before, last := FlatMap(IfEntry(t, counters), keys[..n]), IfEntry(t, counters)(keys[n]);
      if k == keys[n] && !IsLoopback(t, k) {
        assert last[0] in before + last;
      } else if j :| j in before && j.ifindex == Some(k) {
        assert j in before + last;
      }
    }
  }

  // ---- Power-quality severity ----------------------------------------------------------------------

  /** One device-evaluated status: its code, if read, and the codes that warn or alarm. */
  datatype Quality = Quality(code: Option<int>, warning: set<int>, critical: set<int>)

  /** 2 when some status read is critical, else 1 when some warns, else 0; nothing when no
      status was read. */
  method Severity(statuses: seq<Quality>) returns (severity: Option<int>)
    ensures severity.None? <==> forall q :: q in statuses ==> q.code.None?
    ensures severity.Some? ==>
      severity.value == if exists q :: q in statuses && q.code.Some? && q.code.value in q.critical then 2
                        else if exists q :: q in statuses && q.code.Some? && q.code.value in q.warning then 1 else 0
  {
    var seen, level := false, 0;
    for i := 0 to |statuses|
      invariant seen <==> exists q :: q in statuses[..i] && q.code.Some?
      invariant level == if exists q :: q in statuses[..i] && q.code.Some? && q.code.value in q.critical then 2
                         else if exists q :: q in statuses[..i] && q.code.Some? && q.code.value in q.warning then 1
                         else 0
    {
      assert statuses[..i + 1] == statuses[..i] + [statuses[i]];
      var q := statuses[i];
      if q.code.None? {
        continue;
      }
      seen := true;
      if q.code.value in q.critical {
        level := if level > 2 then level else 2;
      } else if q.code.value in q.warning {
        level := if level > 1 then level else 1;
      }
    }
    assert statuses[..|statuses|] == statuses;
    severity := if seen then Some(level) else None;
  }

  // ---- The PDU answer ----------------------------------------------------------------------------------

  datatype SensorTable = SensorTable(values: seq<Row>, names: seq<Row>, scale: real, unit: Unit)

  /** The sensors of a table, or none when the model has no such table. */
  ghost predicate TableOrNone(sensors: seq<Sensor>, table: Option<SensorTable>)
    requires table.Some? ==> table.value.scale != 0.0
  {
    if table.None? then sensors == []
    else SensorTableOf(sensors, table.value.values, table.value.names, table.value.scale, table.value.unit)
  }

  /** The tables of a PDU's answer. Their rows are distinctly indexed, so the samples encoded
      from them never collapse. */
  method FetchPduTables(numbers: map<PduStat, real>, texts: map<PduInfo, string>, config: OutletConfig, t: OutletTable,
                        temperature: Option<SensorTable>, humidity: Option<SensorTable>) returns (q: Query)
    requires Sane(config)
    requires temperature.Some? ==> temperature.value.scale != 0.0
    requires humidity.Some? ==> humidity.value.scale != 0.0
    ensures q.Pdu? && q.numbers == numbers && q.texts == texts
    ensures Merged(q.outlets, config, t) && IndexedQuery(q)
    ensures TableOrNone(q.temperature, temperature) && TableOrNone(q.humidity, humidity)
  {
    var temps, hums: seq<Sensor> := [], [];
    if temperature.Some? {
      var table := temperature.value;
      temps := FetchSensors(table.values, table.names, table.scale, table.unit);
    }
    if humidity.Some? {
      var table := humidity.value;
      hums := FetchSensors(table.values, table.names, table.scale, table.unit);
    }
    var outlets := FetchOutlets(Some(config), t);
    q := Pdu(numbers, texts, temps, hums, outlets);
  }
}
