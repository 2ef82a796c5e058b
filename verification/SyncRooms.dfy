/** `sync-rooms`: recompute the device-to-room mapping through the memoising resolver and
    refresh the materialised `eam_rooms` table by difference. */
module SyncRooms {
  import opened Common
  import opened Text
  import opened Reconcile
  import opened RoomClimb

  datatype EamRoom = EamRoom(
    equipmentNo: Option<string>, parentPosition: Option<string>, roomNo: Option<string>, resolvedAt: int)

  datatype RoomRow = RoomRow(
    equipmentNo: string, parentPosition: Option<string>, roomNo: Option<string>, resolvedAt: int)

  /** A device key and its anchor position, as selected from `eam_devices`. */
  datatype DeviceAnchor = DeviceAnchor(equipmentNo: string, position: Option<string>)

  function FromRoom(r: EamRoom): Option<RoomRow> {
    match NoneIfBlank(r.equipmentNo)
    case None => None
    case Some(k) => Some(RoomRow(k, NoneIfBlank(r.parentPosition), NoneIfBlank(r.roomNo), r.resolvedAt))
  }

  function ToRoom(r: RoomRow): EamRoom {
    EamRoom(Some(r.equipmentNo), r.parentPosition, r.roomNo, r.resolvedAt)
  }

  /** Position and room are compared; the resolution time is not. */
  predicate RoomChanged(was: EamRoom, now: EamRoom) {
    Canon(was.parentPosition) != Canon(now.parentPosition) || Canon(was.roomNo) != Canon(now.roomNo)
  }

  function RoomEntity(): Entity<EamRoom, RoomRow> {
    Entity((r: EamRoom) => IdText(r.equipmentNo), FromRoom, ToRoom,
           (r: RoomRow) => r.equipmentNo, (r: RoomRow, k: string) => r.(equipmentNo := k), RoomChanged)
  }

  function RoomOf(idx: map<string, PositionNode>, now: int, d: DeviceAnchor, room: string): EamRoom {
    EamRoom(Some(d.equipmentNo), d.position, Some(room), now)
  }

  ghost function ResolvedRooms(idx: map<string, PositionNode>, now: int, devices: seq<DeviceAnchor>): seq<EamRoom> {
    seq(|devices|, i requires 0 <= i < |devices| => RoomOf(idx, now, devices[i], Resolve(idx, devices[i].position)))
  }

  datatype ErrorKind = PostgresKind | UtilsKind | OtherKind
  datatype Status =
    | Ok
    | SkippedNoDevices
    | FailedLoadInputs(kind: ErrorKind)
    | FailedLoadCached(kind: ErrorKind)
    | FailedSync(kind: ErrorKind)

  datatype World = World(
    inputsError: Option<ErrorKind>, devices: seq<DeviceAnchor>, positions: seq<PositionNode>,
    cachedError: Option<ErrorKind>, syncError: Option<ErrorKind>, order: seq<string>, now: int)

  ghost predicate IsKey(k: string) {
    NoneIfBlank(Some(k)) == Some(k)
  }

  /** The cache tables as their primary keys and converters leave them. */
  ghost predicate ValidWorld(w: World) {
    && (forall d :: d in w.devices ==> IsKey(d.equipmentNo) && NoneIfBlank(d.position) == d.position)
    && (forall i, j :: 0 <= i < j < |w.devices| ==> w.devices[i].equipmentNo != w.devices[j].equipmentNo)
    && (forall row :: row in w.positions && row.equipmentNo.Some? ==> IsKey(row.equipmentNo.value))
    && IsOrder(w.order, ItemMap(RoomEntity(), ResolvedRooms(BuildIndex(w.positions), w.now, w.devices)))
  }

  ghost predicate NormalRooms(t: Table<RoomRow>) {
    forall k :: k in t ==> t[k].equipmentNo == k && NoneIfBlank(t[k].parentPosition) == t[k].parentPosition
                           && NoneIfBlank(t[k].roomNo) == t[k].roomNo
  }

  function SyncKind(e: Option<ErrorKind>): ErrorKind {
    if e.Some? then e.value else PostgresKind
  }

  datatype Refreshed = Refreshed(table: Table<RoomRow>, status: Status)

  function EarlyStatus(w: World): Option<Status> {
    if w.inputsError.Some? then Some(FailedLoadInputs(w.inputsError.value))
    else if w.devices == [] then Some(SkippedNoDevices)
    else if w.cachedError.Some? then Some(FailedLoadCached(w.cachedError.value))
    else None
  }

  function FinalStatus(outcome: Outcome, syncError: Option<ErrorKind>): Status {
    match outcome
    case Synced => Ok
    case MassDeleteRefused => FailedSync(OtherKind)
    case Failed => FailedSync(SyncKind(syncError))
  }

  /** One run on values. */
  ghost function Refresh(t: Table<RoomRow>, w: World): Refreshed {
    if EarlyStatus(w).Some? then Refreshed(t, EarlyStatus(w).value)
    else Refreshed(RoomStep(t, w).table, FinalStatus(RoomStep(t, w).outcome, w.syncError))
  }

  ghost function RoomStep(t: Table<RoomRow>, w: World): Result<RoomRow> {
    Step(RoomEntity(), t, ResolvedRooms(BuildIndex(w.positions), w.now, w.devices), w.order, true, false,
         w.syncError.None?)
  }

  /** One room per device, in device order, whatever the memo holds when each is resolved. */
  method ResolveRooms(resolver: RoomResolver, devices: seq<DeviceAnchor>, now: int) returns (rooms: seq<EamRoom>)
    requires resolver.Valid()
    modifies resolver
    ensures resolver.Valid()
    ensures rooms == ResolvedRooms(resolver.index, now, devices)
  {
    rooms := [];
    for i := 0 to |devices|
      invariant resolver.Valid()
      invariant |rooms| == i
      invariant forall j :: 0 <= j < i ==>
        rooms[j] == RoomOf(resolver.index, now, devices[j], Resolve(resolver.index, devices[j].position))
    {
      var room := resolver.ResolveOne(devices[i].position);
      rooms := rooms + [RoomOf(resolver.index, now, devices[i], room)];
    }
  }

  /** The orchestrator's `sync_rooms`, proved to be `Refresh`. */
  method SyncRoomsOnce(table: CacheTable<EamRoom, RoomRow>, w: World) returns (status: Status)
    requires NormalRooms(table.rows) && ValidWorld(w)
    modifies table
    ensures Refreshed(table.rows, status) == Refresh(old(table.rows), w)
  {
    if w.inputsError.Some? {
      return FailedLoadInputs(w.inputsError.value);
    }
    if w.devices == [] {
      return SkippedNoDevices;
    }
    var resolver := new RoomResolver(w.positions);
    var rooms := ResolveRooms(resolver, w.devices, w.now);
    if w.cachedError.Some? {
      return FailedLoadCached(w.cachedError.value);
    }
    var cached := table.GetAll(RoomEntity());
    var outcome := SyncEntities(RoomEntity(), rooms, cached, w.order, table, true, false, w.syncError.None?);
    match outcome
    case Synced => return Ok;
    case MassDeleteRefused => return FailedSync(OtherKind);
    case Failed => return FailedSync(SyncKind(w.syncError));
  }

  // ---- The view is materialised ------------------------------------------------------

  lemma {:induction false} LastRoomInPath(idx: map<string, PositionNode>, p: seq<string>)
    requires forall i :: 0 <= i < |p| ==> p[i] in idx
    ensures LastRoom(idx, p).Some? ==> LastRoom(idx, p).value in idx
  {
    if p != [] {
      LastRoomInPath(idx, p[..|p| - 1]);
    }
  }

  lemma ResolvedIsKey(idx: map<string, PositionNode>, position: Option<string>)
    requires forall k :: k in idx ==> IsKey(k)
    ensures IsKey(Resolve(idx, position))
  {
    CleanIffFixed(IsSpace, NO_ROOM_NO_POSITION);
    CleanIffFixed(IsSpace, NO_ROOM_NO_PARENT);
    if position.Some? && position.value in idx {
      LastRoomInPath(idx, GuardedPath(idx, position.value));
    }
  }

  lemma IndexKeys(w: World)
    requires ValidWorld(w)
    ensures forall k :: k in BuildIndex(w.positions) ==> IsKey(k)
  {
    forall k | k in BuildIndex(w.positions) ensures IsKey(k) { BuildIndexMeaning(w.positions, k); }
  }

  /** The converter keeps a room's key, position and resolved room as they are. */
  lemma RoomConverts(d: DeviceAnchor, room: string, now: int, idx: map<string, PositionNode>)
    requires IsKey(d.equipmentNo) && NoneIfBlank(d.position) == d.position && IsKey(room)
    ensures FromRoom(RoomOf(idx, now, d, room)) == Some(RoomRow(d.equipmentNo, d.position, Some(room), now))
  {
  }

  lemma RoomsAreLawful(w: World)
    requires ValidWorld(w)
    ensures var e := RoomEntity();
            var rooms := ResolvedRooms(BuildIndex(w.positions), w.now, w.devices);
            WellKeyed(e) && Lawful(e, rooms) && DistinctBy(e.getId, rooms)
            && forall i :: 0 <= i < |rooms| ==>
                 e.fromDomain(rooms[i]) == Some(RoomRow(w.devices[i].equipmentNo, w.devices[i].position,
                                                        Some(Resolve(BuildIndex(w.positions), w.devices[i].position)),
                                                        w.now))
  {
    var idx := BuildIndex(w.positions);
    IndexKeys(w);
    forall i | 0 <= i < |w.devices| ensures IsKey(Resolve(idx, w.devices[i].position)) {
      ResolvedIsKey(idx, w.devices[i].position);
    }
    forall i | 0 <= i < |w.devices|
      ensures FromRoom(ResolvedRooms(idx, w.now, w.devices)[i])
           == Some(RoomRow(w.devices[i].equipmentNo, w.devices[i].position, Some(Resolve(idx, w.devices[i].position)),
                           w.now))
    {
      assert w.devices[i] in w.devices;
      RoomConverts(w.devices[i], Resolve(idx, w.devices[i].position), w.now, idx);
    }
  }

  /** The item the reconciler holds for a device is that device's room. */
  lemma RoomOfDevice(w: World, i: nat)
    requires ValidWorld(w) && i < |w.devices|
    ensures var rooms := ResolvedRooms(BuildIndex(w.positions), w.now, w.devices);
            var a := ItemMap(RoomEntity(), rooms);
            w.devices[i].equipmentNo in a && a[w.devices[i].equipmentNo] == rooms[i]
  {
    var rooms := ResolvedRooms(BuildIndex(w.positions), w.now, w.devices);
    forall i, j | 0 <= i < j < |rooms| ensures RoomEntity().getId(rooms[i]) != RoomEntity().getId(rooms[j]) {
      assert w.devices[i].equipmentNo != w.devices[j].equipmentNo;
    }
    HeldItem(RoomEntity(), rooms, i);
  }

  /** With distinct ids the reconciler holds every item it was given. */
  lemma HeldItem(e: Entity<EamRoom, RoomRow>, rooms: seq<EamRoom>, i: nat)
    requires i < |rooms| && forall i, j :: 0 <= i < j < |rooms| ==> e.getId(rooms[i]) != e.getId(rooms[j])
    ensures e.getId(rooms[i]) in ItemMap(e, rooms) && ItemMap(e, rooms)[e.getId(rooms[i])] == rooms[i]
  {
    ItemMapMeaning(e, rooms);
    assert rooms[i] in rooms;
    var d := ItemMap(e, rooms)[e.getId(rooms[i])];
    var j :| 0 <= j < |rooms| && rooms[j] == d;
  }

  ghost function Rooms(w: World): seq<EamRoom> {
    ResolvedRooms(BuildIndex(w.positions), w.now, w.devices)
  }

  lemma StepMerges(t: Table<RoomRow>, w: World)
    requires ValidWorld(w) && w.syncError.None? && RoomStep(t, w).outcome == Synced
    ensures var a := ItemMap(RoomEntity(), Rooms(w));
            RoomStep(t, w).table == Merged(RoomEntity(), t, a, t.Keys - a.Keys)
  {
    RoomsAreLawful(w);
    ClosedForm(RoomEntity(), t, Rooms(w), w.order, true, false);
  }

  lemma OkMeansSynced(t: Table<RoomRow>, w: World)
    requires Refresh(t, w).status.Ok?
    ensures RoomStep(t, w).outcome == Synced && Refresh(t, w).table == RoomStep(t, w).table && w.syncError.None?
  {
    if w.syncError.Some? { RolledBackRooms(t, w); }
  }

  /** The row of device `d`: its position, its uncached climb result, and a resolution time
      that moves exactly when one of the two did. */
  ghost predicate RowIsCurrent(t: Table<RoomRow>, after: Table<RoomRow>, w: World, d: DeviceAnchor) {
    var room := Resolve(BuildIndex(w.positions), d.position);
    var k := d.equipmentNo;
    && k in after && after[k].parentPosition == d.position && after[k].roomNo == Some(room)
    && after[k].resolvedAt == if k in t && t[k].parentPosition == d.position && t[k].roomNo == Some(room)
                              then t[k].resolvedAt else w.now
  }

  lemma MergedRowIsCurrent(t: Table<RoomRow>, w: World, i: nat, a: map<string, EamRoom>)
    requires NormalRooms(t) && ValidWorld(w) && i < |w.devices| && a == ItemMap(RoomEntity(), Rooms(w))
    ensures RowIsCurrent(t, Merged(RoomEntity(), t, a, t.Keys - a.Keys), w, w.devices[i])
  {
    var d := w.devices[i];
    var room := Resolve(BuildIndex(w.positions), d.position);
    RoomOfDevice(w, i);
    IndexKeys(w);
    ResolvedIsKey(BuildIndex(w.positions), d.position);
    CanonOfNormal(d.position);
    CanonOfNormal(Some(room));
    if d.equipmentNo in t {
      CanonOfNormal(t[d.equipmentNo].parentPosition);
      CanonOfNormal(t[d.equipmentNo].roomNo);
    }
  }

  lemma MergedView(t: Table<RoomRow>, w: World, m: Table<RoomRow>)
    requires NormalRooms(t) && ValidWorld(w)
    requires m == Merged(RoomEntity(), t, ItemMap(RoomEntity(), Rooms(w)),
                         t.Keys - ItemMap(RoomEntity(), Rooms(w)).Keys)
    ensures forall d :: d in w.devices ==> RowIsCurrent(t, m, w, d)
  {
    forall d | d in w.devices ensures RowIsCurrent(t, m, w, d) {
      var i :| 0 <= i < |w.devices| && w.devices[i] == d;
      MergedRowIsCurrent(t, w, i, ItemMap(RoomEntity(), Rooms(w)));
    }
  }

  lemma MergedIds(t: Table<RoomRow>, w: World, m: Table<RoomRow>)
    requires ValidWorld(w)
    requires m == Merged(RoomEntity(), t, ItemMap(RoomEntity(), Rooms(w)),
                         t.Keys - ItemMap(RoomEntity(), Rooms(w)).Keys)
    ensures m.Keys == set d | d in w.devices :: d.equipmentNo
  {
    RoomsAreLawful(w);
    LawfulItems(RoomEntity(), Rooms(w));
    DeviceIds(w);
    assert m.Keys == ItemMap(RoomEntity(), Rooms(w)).Keys;
  }

  /** After a run that ends `ok`, the table has exactly one row per device, and every row
      is current. */
  lemma RefreshedView(t: Table<RoomRow>, w: World)
    requires NormalRooms(t) && ValidWorld(w) && Refresh(t, w).status.Ok?
    ensures Refresh(t, w).table.Keys == set d | d in w.devices :: d.equipmentNo
    ensures forall d :: d in w.devices ==> RowIsCurrent(t, Refresh(t, w).table, w, d)
  {
    OkMeansSynced(t, w);
    StepMerges(t, w);
    MergedView(t, w, RoomStep(t, w).table);
    MergedIds(t, w, RoomStep(t, w).table);
  }

  /** No position row bears a marker's name. */
  ghost predicate Unmarked(rows: seq<PositionNode>) {
    !Borne(rows, "__NO_ROOM_NO_POSITION__") && !Borne(rows, "__NO_ROOM_NO_PARENT__")
  }

  /** The row of device `d`, in terms of the position rows alone. */
  ghost predicate RowIsResolved(t: Table<RoomRow>, after: Table<RoomRow>, w: World, d: DeviceAnchor) {
    var k := d.equipmentNo;
    && k in after && after[k].parentPosition == d.position && after[k].roomNo.Some?
    && ResolvedByRows(w.positions, d.position, after[k].roomNo.value)
    && (Unmarked(w.positions) ==>
          (after[k].roomNo.value == "__NO_ROOM_NO_POSITION__" <==>
             d.position.None? || !Borne(w.positions, d.position.value)))
    && after[k].resolvedAt == if k in t && t[k].parentPosition == d.position && t[k].roomNo == after[k].roomNo
                              then t[k].resolvedAt else w.now
  }

  lemma CurrentIsResolved(t: Table<RoomRow>, after: Table<RoomRow>, w: World, d: DeviceAnchor)
    requires RowIsCurrent(t, after, w, d)
    ensures RowIsResolved(t, after, w, d)
  {
    ResolveByRows(w.positions, d.position);
    if Unmarked(w.positions) { MarkersByRows(w.positions, d.position); }
  }

  /** After a run that ends `ok`, every device's room is the topmost one on the climb along the
      position rows' own parent links, and when no position row bears a marker's name, a device
      has the no-position marker exactly when its anchor is null or no row bears it. */
  lemma RefreshedByRows(t: Table<RoomRow>, w: World)
    requires NormalRooms(t) && ValidWorld(w) && Refresh(t, w).status.Ok?
    ensures Refresh(t, w).table.Keys == set d | d in w.devices :: d.equipmentNo
    ensures forall d :: d in w.devices ==> RowIsResolved(t, Refresh(t, w).table, w, d)
  {
    RefreshedView(t, w);
    var after := Refresh(t, w).table;
    forall d | d in w.devices ensures RowIsResolved(t, after, w, d) {
      assert RowIsCurrent(t, after, w, d);
      CurrentIsResolved(t, after, w, d);
    }
  }

  /** A failed load or commit ends the run with its own kind of error. */
  lemma FailuresKeepKind(t: Table<RoomRow>, w: World)
    ensures w.inputsError.Some? ==> Refresh(t, w) == Refreshed(t, FailedLoadInputs(w.inputsError.value))
    ensures w.inputsError.None? && w.devices != [] && w.cachedError.Some? ==>
              Refresh(t, w) == Refreshed(t, FailedLoadCached(w.cachedError.value))
    ensures w.inputsError.None? && w.devices != [] && w.cachedError.None? && w.syncError.Some? ==>
              Refresh(t, w) == Refreshed(t, FailedSync(w.syncError.value))
  {
    if w.syncError.Some? { RolledBackRooms(t, w); }
  }

  lemma RolledBackRooms(t: Table<RoomRow>, w: World)
    requires w.syncError.Some?
    ensures RoomStep(t, w).outcome == Failed
  {
  }

  lemma DeviceIds(w: World)
    requires ValidWorld(w)
    ensures ItemMap(RoomEntity(), ResolvedRooms(BuildIndex(w.positions), w.now, w.devices)).Keys
         == set d | d in w.devices :: d.equipmentNo
  {
    var e := RoomEntity();
    var rooms := ResolvedRooms(BuildIndex(w.positions), w.now, w.devices);
    forall d | d in w.devices ensures d.equipmentNo in ItemMap(e, rooms) {
      var i :| 0 <= i < |w.devices| && w.devices[i] == d;
      RoomOfDevice(w, i);
    }
    forall k | k in ItemMap(e, rooms) ensures exists d :: d in w.devices && d.equipmentNo == k {
      ItemMapMeaning(e, rooms);
      var j :| 0 <= j < |rooms| && rooms[j] == ItemMap(e, rooms)[k];
      assert w.devices[j] in w.devices;
    }
  }
}
