/** The room climb of `RoomResolver`: from a device's anchor position up the
    `parentasset` links to the topmost AV room, under a cycle guard and a depth
    guard, with a memo table per resolver. */
module RoomClimb {
  import opened Common

  const AVR_EQCLASS := "AVR"
  const ROOM_CATEGORIES := {"AV-VCR", "AV-VIS", "AV-MRO"}
  const NO_ROOM_NO_POSITION := "__NO_ROOM_NO_POSITION__"
  const NO_ROOM_NO_PARENT := "__NO_ROOM_NO_PARENT__"
  const MAX_CLIMB_DEPTH: nat := 100

  datatype PositionNode = PositionNode(
    equipmentNo: Option<string>, parentAsset: Option<string>,
    eqClass: Option<string>, category: Option<string>)

  type Index = map<string, PositionNode>

  /** The index a resolver is built on; a later row wins over an earlier one. */
  function BuildIndex(positions: seq<PositionNode>): (idx: Index)
    ensures Indexed(idx)
  {
    if positions == [] then map[]
    else
      var before := BuildIndex(positions[..|positions| - 1]);
      var node := positions[|positions| - 1];
      if node.equipmentNo.None? then before else before[node.equipmentNo.value := node]
  }

  ghost predicate Indexed(idx: Index) {
    forall k :: k in idx ==> idx[k].equipmentNo == Some(k)
  }

  predicate IsRoom(node: PositionNode) {
    node.eqClass == Some(AVR_EQCLASS) && node.category.Some? && node.category.value in ROOM_CATEGORIES
  }

  // ---- The maximal repetition-free parent path -------------------------------

  /** The indexed parent of a position, if its link resolves. */
  function Parent(idx: Index, id: string): Option<string>
    requires id in idx
  {
    match idx[id].parentAsset
    case Some(p) => if p in idx then Some(p) else None
    case None => None
  }

  /** A non-empty chain of parent links that never visits a position twice. */
  ghost predicate IsClimb(idx: Index, p: seq<string>) {
    && p != []
    && (forall i :: 0 <= i < |p| ==> p[i] in idx)
    && (forall i :: 0 < i < |p| ==> Parent(idx, p[i - 1]) == Some(p[i]))
    && Distinct(p)
  }

  /** No further step: no parent, a dangling link, or a position already visited. */
  ghost predicate Stuck(idx: Index, p: seq<string>)
    requires IsClimb(idx, p)
  {
    var up := Parent(idx, p[|p| - 1]);
    up.None? || up.value in p
  }

  ghost function Extend(idx: Index, p: seq<string>): (q: seq<string>)
    requires IsClimb(idx, p)
    ensures IsClimb(idx, q) && Stuck(idx, q) && p <= q
    decreases |idx.Keys| - |p|
  {
    Pigeonhole(p, idx.Keys);
    if Stuck(idx, p) then p
    else
      var longer := p + [Parent(idx, p[|p| - 1]).value];
      Pigeonhole(longer, idx.Keys);
      Extend(idx, longer)
  }

  ghost function FullPath(idx: Index, anchor: string): (p: seq<string>)
    requires anchor in idx
    ensures IsClimb(idx, p) && Stuck(idx, p) && p[0] == anchor
  {
    Extend(idx, [anchor])
  }

  /** The part of the path the depth guard lets the climb see: the anchor and 100 steps. */
  ghost function GuardedPath(idx: Index, anchor: string): seq<string>
    requires anchor in idx
  {
    var p := FullPath(idx, anchor);
    p[..Min(|p|, MAX_CLIMB_DEPTH + 1)]
  }

  ghost function LastRoom(idx: Index, p: seq<string>): Option<string>
    requires forall i :: 0 <= i < |p| ==> p[i] in idx
  {
    if p == [] then None
    else if IsRoom(idx[p[|p| - 1]]) then Some(p[|p| - 1])
    else LastRoom(idx, p[..|p| - 1])
  }

  ghost function ClimbRoom(idx: Index, anchor: string): Option<string>
    requires anchor in idx
  {
    LastRoom(idx, GuardedPath(idx, anchor))
  }

  ghost function Resolve(idx: Index, position: Option<string>): string {
    if position.None? || position.value !in idx then NO_ROOM_NO_POSITION
    else
      match ClimbRoom(idx, position.value)
      case Some(room) => room
      case None => NO_ROOM_NO_PARENT
  }

  /** One step of the climb loop. */
  lemma ClimbStep(idx: Index, p: seq<string>, up: string)
    requires IsClimb(idx, p) && Parent(idx, p[|p| - 1]) == Some(up) && up !in p
    ensures IsClimb(idx, p + [up]) && Extend(idx, p) == Extend(idx, p + [up])
    ensures LastRoom(idx, p + [up]) == if IsRoom(idx[up]) then Some(up) else LastRoom(idx, p)
  {
    assert (p + [up])[..|p|] == p;
  }

  // ---- What these functions mean ---------------------------------------------

  /** `room` is the deepest-climbed room on `p`, or absent because `p` has none. */
  ghost predicate TopmostRoom(idx: Index, p: seq<string>, room: Option<string>)
    requires forall i :: 0 <= i < |p| ==> p[i] in idx
  {
    match room
    case None => forall i :: 0 <= i < |p| ==> !IsRoom(idx[p[i]])
    case Some(r) =>
      exists i :: 0 <= i < |p| && p[i] == r && IsRoom(idx[p[i]]) && forall j :: i < j < |p| ==> !IsRoom(idx[p[j]])
  }

  lemma {:induction false} LastRoomIsTopmost(idx: Index, p: seq<string>)
    requires forall i :: 0 <= i < |p| ==> p[i] in idx
    ensures TopmostRoom(idx, p, LastRoom(idx, p))
  {
    if p != [] && !IsRoom(idx[p[|p| - 1]]) {
      var q := p[..|p| - 1];
      LastRoomIsTopmost(idx, q);
      if LastRoom(idx, q).Some? {
        var i :| 0 <= i < |q| && q[i] == LastRoom(idx, q).value && IsRoom(idx[q[i]])
                 && forall j :: i < j < |q| ==> !IsRoom(idx[q[j]]);
        assert p[i] == q[i];
        forall j | i < j < |p| ensures !IsRoom(idx[p[j]]) {
          if j < |q| { assert q[j] == p[j]; }
        }
      } else {
        forall j | 0 <= j < |p| ensures !IsRoom(idx[p[j]]) {
          if j < |q| { assert q[j] == p[j]; }
        }
      }
    }
  }

  /** Two climbs from one anchor: the shorter is a prefix of the longer. */
  lemma {:induction false} ClimbsAgree(idx: Index, p: seq<string>, q: seq<string>)
    requires IsClimb(idx, p) && IsClimb(idx, q) && p[0] == q[0] && |p| <= |q|
    ensures p <= q
  {
    if |p| > 1 {
      var n := |p| - 1;
      ClimbsAgree(idx, p[..n], q);
      assert p[n - 1] == p[..n][n - 1] == q[n - 1];
      assert Parent(idx, p[n - 1]) == Some(p[n]);
      assert Parent(idx, q[n - 1]) == Some(q[n]);
    }
  }

  lemma LongerClimbContinues(idx: Index, p: seq<string>, q: seq<string>)
    requires IsClimb(idx, p) && IsClimb(idx, q)
    ensures p < q ==> !Stuck(idx, p)
  {
    if p < q {
      assert Parent(idx, q[|p| - 1]) == Some(q[|p|]);
    }
  }

  /** The path is the only maximal repetition-free parent path from its anchor. */
  lemma FullPathUnique(idx: Index, p: seq<string>)
    requires IsClimb(idx, p) && Stuck(idx, p)
    ensures p == FullPath(idx, p[0])
  {
    var q := FullPath(idx, p[0]);
    if |p| <= |q| {
      ClimbsAgree(idx, p, q);
      LongerClimbContinues(idx, p, q);
    } else {
      ClimbsAgree(idx, q, p);
      LongerClimbContinues(idx, q, p);
    }
  }

  /** The resolver's answer on every position map, cyclic or dangling: for the
      one maximal repetition-free path from the anchor, cut to 101 nodes. */
  lemma ResolveMeaning(idx: Index, position: Option<string>, p: seq<string>)
    requires position.Some? && position.value in idx
    requires IsClimb(idx, p) && Stuck(idx, p) && p[0] == position.value
    ensures var cut := p[..Min(|p|, 101)];
            exists room :: TopmostRoom(idx, cut, room)
                           && Resolve(idx, position) == if room.Some? then room.value else NO_ROOM_NO_PARENT
  {
    FullPathUnique(idx, p);
    LastRoomIsTopmost(idx, p[..Min(|p|, 101)]);
  }

  /** The no-position marker: a null or unindexed anchor, or a room that bears its name. */
  lemma NoPositionIff(idx: Index, position: Option<string>)
    ensures Resolve(idx, position) == NO_ROOM_NO_POSITION <==>
      position.None? || position.value !in idx || ClimbRoom(idx, position.value) == Some(NO_ROOM_NO_POSITION)
  {
    MarkersDiffer();
  }

  /** The no-parent marker: an indexed anchor with no room on its path, or a room that bears
      its name. */
  lemma NoParentIff(idx: Index, position: Option<string>)
    ensures Resolve(idx, position) == NO_ROOM_NO_PARENT <==>
      position.Some? && position.value in idx
      && (ClimbRoom(idx, position.value).None? || ClimbRoom(idx, position.value) == Some(NO_ROOM_NO_PARENT))
  {
    MarkersDiffer();
  }

  lemma MarkersDiffer()
    ensures NO_ROOM_NO_POSITION != NO_ROOM_NO_PARENT
  {
    assert |NO_ROOM_NO_POSITION| == 23 && |NO_ROOM_NO_PARENT| == 21;
  }

  /** Each marker says what its name says. */
  ghost predicate ExactAt(idx: Index, position: Option<string>) {
    && (Resolve(idx, position) == NO_ROOM_NO_POSITION <==> position.None? || position.value !in idx)
    && (Resolve(idx, position) == NO_ROOM_NO_PARENT <==>
          position.Some? && position.value in idx && ClimbRoom(idx, position.value).None?)
  }

  ghost predicate MarkersExact(idx: Index) {
    forall position :: ExactAt(idx, position)
  }

  /** The climb from `k` ends in a room named like a marker. */
  ghost predicate ReachesMarker(idx: Index, k: string)
    requires k in idx
  {
    ClimbRoom(idx, k) == Some(NO_ROOM_NO_POSITION) || ClimbRoom(idx, k) == Some(NO_ROOM_NO_PARENT)
  }

  lemma ExactAtIff(idx: Index, position: Option<string>)
    ensures ExactAt(idx, position) <==> !(position.Some? && position.value in idx && ReachesMarker(idx, position.value))
  {
    NoPositionIff(idx, position);
    NoParentIff(idx, position);
  }

  lemma ClimbsToRoom(idx: Index, k: string)
    requires k in idx && ClimbRoom(idx, k).Some?
    ensures ClimbRoom(idx, k).value in idx && IsRoom(idx[ClimbRoom(idx, k).value])
  {
    LastRoomIsTopmost(idx, GuardedPath(idx, k));
  }

  /** The markers are exact exactly when no anchor climbs to a room named like one. */
  lemma MarkersExactIff(idx: Index)
    ensures MarkersExact(idx) <==> forall k :: k in idx ==> !ReachesMarker(idx, k)
  {
    forall position
      ensures ExactAt(idx, position) <==>
              !(position.Some? && position.value in idx && ReachesMarker(idx, position.value))
    {
      ExactAtIff(idx, position);
    }
    if MarkersExact(idx) {
      forall k | k in idx ensures !ReachesMarker(idx, k) { assert ExactAt(idx, Some(k)); }
    }
  }

  /** An index in which no room is named like a marker is enough. */
  lemma UnmarkedRoomsAreExact(idx: Index)
    requires forall k :: k in idx && IsRoom(idx[k]) ==> k != NO_ROOM_NO_POSITION && k != NO_ROOM_NO_PARENT
    ensures MarkersExact(idx)
  {
    forall k | k in idx ensures !ReachesMarker(idx, k) {
      if ClimbRoom(idx, k).Some? { ClimbsToRoom(idx, k); }
    }
    MarkersExactIff(idx);
  }

  /** They are not exact in general: a root that is a room named like the marker answers its
      own, indexed, position with it. */
  lemma MarkerRoomMisleads()
    ensures var k := NO_ROOM_NO_POSITION;
            var idx := BuildIndex([PositionNode(Some(k), None, Some(AVR_EQCLASS), Some("AV-VCR"))]);
            k in idx && Resolve(idx, Some(k)) == NO_ROOM_NO_POSITION && !MarkersExact(idx)
  {
    var k := NO_ROOM_NO_POSITION;
    var rows := [PositionNode(Some(k), None, Some(AVR_EQCLASS), Some("AV-VCR"))];
    assert rows[..0] == [];
    var idx := BuildIndex(rows);
    FullPathUnique(idx, [k]);
    assert GuardedPath(idx, k) == [k];
    assert ClimbRoom(idx, k) == Some(k);
    ExactAtIff(idx, Some(k));
  }

  /** A topmost room is unique on a path, so `TopmostRoom` pins the answer down. */
  lemma TopmostRoomUnique(idx: Index, p: seq<string>, a: Option<string>, b: Option<string>)
    requires forall i :: 0 <= i < |p| ==> p[i] in idx
    requires TopmostRoom(idx, p, a) && TopmostRoom(idx, p, b)
    ensures a == b
  {
    if a.Some? && b.Some? {
      var i :| 0 <= i < |p| && p[i] == a.value && IsRoom(idx[p[i]]) && forall j :: i < j < |p| ==> !IsRoom(idx[p[j]]);
      var k :| 0 <= k < |p| && p[k] == b.value && IsRoom(idx[p[k]]) && forall j :: k < j < |p| ==> !IsRoom(idx[p[j]]);
      assert i == k;
    }
  }

  // ---- By the position rows themselves -----------------------------------------

  /** Row `i` is the last one that bears equipment number `k`. */
  ghost predicate LastBearing(rows: seq<PositionNode>, k: string, i: nat) {
    i < |rows| && rows[i].equipmentNo == Some(k) && forall j :: i < j < |rows| ==> rows[j].equipmentNo != Some(k)
  }

  ghost predicate Borne(rows: seq<PositionNode>, k: string) {
    exists row :: row in rows && row.equipmentNo == Some(k)
  }

  /** The last row of `k`. */
  ghost predicate RowOf(rows: seq<PositionNode>, k: string, row: PositionNode) {
    exists i: nat :: LastBearing(rows, k, i) && rows[i] == row
  }

  /** The last row is the row of its number, and leaves those of other numbers alone. */
  lemma RowOfSnoc(rows: seq<PositionNode>, k: string)
    requires rows != []
    ensures var n := |rows| - 1;
            && (rows[n].equipmentNo == Some(k) ==> RowOf(rows, k, rows[n]))
            && (rows[n].equipmentNo != Some(k) ==> forall row :: RowOf(rows[..n], k, row) ==> RowOf(rows, k, row))
            && (Borne(rows, k) <==> Borne(rows[..n], k) || rows[n].equipmentNo == Some(k))
  {
    var n := |rows| - 1;
    if rows[n].equipmentNo == Some(k) {
      assert LastBearing(rows, k, n);
    } else {
      forall row | RowOf(rows[..n], k, row) ensures RowOf(rows, k, row) {
        var i: nat :| LastBearing(rows[..n], k, i) && rows[..n][i] == row;
        assert LastBearing(rows, k, i);
      }
    }
  }

  /** The index holds exactly the numbers that rows bear, each with its last row. */
  lemma {:induction false} BuildIndexMeaning(rows: seq<PositionNode>, k: string)
    ensures k in BuildIndex(rows) <==> Borne(rows, k)
    ensures k in BuildIndex(rows) ==> RowOf(rows, k, BuildIndex(rows)[k])
  {
    if rows != [] {
      var n := |rows| - 1;
      BuildIndexMeaning(rows[..n], k);
      RowOfSnoc(rows, k);
    }
  }

  lemma OneRow(rows: seq<PositionNode>, k: string, a: PositionNode, b: PositionNode)
    requires RowOf(rows, k, a) && RowOf(rows, k, b)
    ensures a == b
  {
    var i: nat :| LastBearing(rows, k, i) && rows[i] == a;
    var j: nat :| LastBearing(rows, k, j) && rows[j] == b;
    assert i == j;
  }

  /** `up` is the parent that `k`'s row names, and a row bears it. */
  ghost predicate RowParent(rows: seq<PositionNode>, k: string, up: string) {
    Borne(rows, up) && exists row :: RowOf(rows, k, row) && row.parentAsset == Some(up)
  }

  /** `k`'s row is an AV room: class AVR with one of the three room categories. */
  ghost predicate RowIsRoom(rows: seq<PositionNode>, k: string) {
    exists row :: RowOf(rows, k, row) && row.eqClass == Some("AVR")
                  && (row.category == Some("AV-VCR") || row.category == Some("AV-VIS")
                      || row.category == Some("AV-MRO"))
  }

  /** A climb along the rows' own parent links that ends only where it must: at a row without a
      parent, at one whose parent no row bears, or before a position already visited. */
  ghost predicate RowClimb(rows: seq<PositionNode>, p: seq<string>) {
    && p != [] && Distinct(p) && (forall k :: k in p ==> Borne(rows, k))
    && (forall i :: 0 < i < |p| ==> RowParent(rows, p[i - 1], p[i]))
    && (forall up :: RowParent(rows, p[|p| - 1], up) ==> up in p)
  }

  /** The answer for an anchor: of the first 101 positions of its climb, the last that is a room. */
  ghost predicate AnswerByRows(rows: seq<PositionNode>, p: seq<string>, answer: string) {
    || (exists i :: 0 <= i < |p| && i <= 100 && answer == p[i] && RowIsRoom(rows, p[i])
                    && forall j :: i < j < |p| && j <= 100 ==> !RowIsRoom(rows, p[j]))
    || (answer == "__NO_ROOM_NO_PARENT__" && forall j :: 0 <= j < |p| && j <= 100 ==> !RowIsRoom(rows, p[j]))
  }

  /** The climb from an anchor that a row bears finds no room. */
  ghost predicate RoomlessClimb(rows: seq<PositionNode>, anchor: string) {
    exists p :: RowClimb(rows, p) && p[0] == anchor && forall j :: 0 <= j < |p| && j <= 100 ==> !RowIsRoom(rows, p[j])
  }

  ghost predicate ResolvedByRows(rows: seq<PositionNode>, position: Option<string>, answer: string) {
    if position.None? || !Borne(rows, position.value) then answer == "__NO_ROOM_NO_POSITION__"
    else exists p :: RowClimb(rows, p) && p[0] == position.value && AnswerByRows(rows, p, answer)
  }

  lemma IndexedRow(rows: seq<PositionNode>, k: string, row: PositionNode)
    ensures RowOf(rows, k, row) <==> k in BuildIndex(rows) && BuildIndex(rows)[k] == row
  {
    BuildIndexMeaning(rows, k);
    if RowOf(rows, k, row) {
      var i: nat :| LastBearing(rows, k, i) && rows[i] == row;
      assert rows[i] in rows;
      OneRow(rows, k, row, BuildIndex(rows)[k]);
    }
  }

  lemma ParentByRows(rows: seq<PositionNode>, k: string, up: string)
    ensures RowParent(rows, k, up) <==> k in BuildIndex(rows) && Parent(BuildIndex(rows), k) == Some(up)
  {
    var idx := BuildIndex(rows);
    BuildIndexMeaning(rows, k);
    BuildIndexMeaning(rows, up);
    if k in idx { IndexedRow(rows, k, idx[k]); }
    forall row ensures RowOf(rows, k, row) <==> k in idx && idx[k] == row { IndexedRow(rows, k, row); }
  }

  lemma RoomByRows(rows: seq<PositionNode>, k: string)
    ensures RowIsRoom(rows, k) <==> k in BuildIndex(rows) && IsRoom(BuildIndex(rows)[k])
  {
    var idx := BuildIndex(rows);
    forall row ensures RowOf(rows, k, row) <==> k in idx && idx[k] == row { IndexedRow(rows, k, row); }
  }

  lemma PathByRows(rows: seq<PositionNode>, anchor: string)
    requires anchor in BuildIndex(rows)
    ensures RowClimb(rows, FullPath(BuildIndex(rows), anchor))
  {
    var idx := BuildIndex(rows);
    var p := FullPath(idx, anchor);
    forall k | k in p ensures Borne(rows, k) {
      BuildIndexMeaning(rows, k);
    }
    forall i | 0 < i < |p| ensures RowParent(rows, p[i - 1], p[i]) {
      ParentByRows(rows, p[i - 1], p[i]);
    }
    forall up | RowParent(rows, p[|p| - 1], up) ensures up in p {
      ParentByRows(rows, p[|p| - 1], up);
    }
  }

  /** The topmost room of the first 101 positions of a path, by rows. */
  lemma AnswerOfCut(rows: seq<PositionNode>, idx: Index, p: seq<string>, room: Option<string>)
    requires forall k :: k in p ==> (RowIsRoom(rows, k) <==> k in idx && IsRoom(idx[k]))
    requires (forall i :: 0 <= i < |p| ==> p[i] in idx) && TopmostRoom(idx, p[..Min(|p|, 101)], room)
    ensures AnswerByRows(rows, p, if room.Some? then room.value else NO_ROOM_NO_PARENT)
  {
    var cut := p[..Min(|p|, 101)];
    forall j | 0 <= j < |p| && j <= 100 ensures cut[j] == p[j] && p[j] in p {}
    if room.Some? {
      var i :| 0 <= i < |cut| && cut[i] == room.value && IsRoom(idx[cut[i]])
               && forall j :: i < j < |cut| ==> !IsRoom(idx[cut[j]]);
      assert i < |p| && i <= 100 && p[i] == cut[i];
    }
  }

  lemma AnswerOfPath(rows: seq<PositionNode>, anchor: string)
    requires anchor in BuildIndex(rows)
    ensures var idx := BuildIndex(rows); AnswerByRows(rows, FullPath(idx, anchor), Resolve(idx, Some(anchor)))
  {
    var idx := BuildIndex(rows);
    LastRoomIsTopmost(idx, GuardedPath(idx, anchor));
    forall k ensures RowIsRoom(rows, k) <==> k in idx && IsRoom(idx[k]) { RoomByRows(rows, k); }
    AnswerOfCut(rows, idx, FullPath(idx, anchor), ClimbRoom(idx, anchor));
  }

  /** The resolver over its position rows, without its index: the no-position marker for an
      anchor that is null or that no row bears, else what the climb from the anchor along the
      rows' own parent links finds. */
  lemma ResolveByRows(rows: seq<PositionNode>, position: Option<string>)
    ensures ResolvedByRows(rows, position, Resolve(BuildIndex(rows), position))
  {
    if position.Some? {
      BuildIndexMeaning(rows, position.value);
      if position.value in BuildIndex(rows) {
        PathByRows(rows, position.value);
        AnswerOfPath(rows, position.value);
      }
    }
  }

  /** When no row bears a marker's name, the markers mean what they say: no such position, and
      no room on the climb. */
  lemma MarkersByRows(rows: seq<PositionNode>, position: Option<string>)
    requires !Borne(rows, "__NO_ROOM_NO_POSITION__") && !Borne(rows, "__NO_ROOM_NO_PARENT__")
    ensures Resolve(BuildIndex(rows), position) == "__NO_ROOM_NO_POSITION__"
       <==> position.None? || !Borne(rows, position.value)
    ensures Resolve(BuildIndex(rows), position) == "__NO_ROOM_NO_PARENT__"
       <==> position.Some? && RoomlessClimb(rows, position.value)
  {
    var idx := BuildIndex(rows);
    forall k ensures k in idx <==> Borne(rows, k) { BuildIndexMeaning(rows, k); }
    UnmarkedRoomsAreExact(idx);
    assert ExactAt(idx, position);
    if position.Some? && position.value in idx {
      RoomlessByRows(rows, position.value);
    } else {
      forall p | RowClimb(rows, p) ensures Borne(rows, p[0]) { assert p[0] in p; }
    }
  }

  lemma RoomlessByRows(rows: seq<PositionNode>, anchor: string)
    requires anchor in BuildIndex(rows)
    ensures ClimbRoom(BuildIndex(rows), anchor).None?
       <==> RoomlessClimb(rows, anchor)
  {
    var idx := BuildIndex(rows);
    var cut := GuardedPath(idx, anchor);
    LastRoomIsTopmost(idx, cut);
    forall k ensures RowIsRoom(rows, k) <==> k in idx && IsRoom(idx[k]) { RoomByRows(rows, k); }
    forall p | RowClimb(rows, p) && p[0] == anchor ensures p == FullPath(idx, anchor) { ClimbByRows(rows, p); }
    PathByRows(rows, anchor);
    var p := FullPath(idx, anchor);
    forall j | 0 <= j < |p| && j <= 100 ensures j < |cut| && cut[j] == p[j] {}
    forall j | 0 <= j < |cut| ensures j <= 100 && j < |p| && cut[j] == p[j] {}
  }

  /** There is one climb per anchor. */
  lemma ClimbByRows(rows: seq<PositionNode>, p: seq<string>)
    requires RowClimb(rows, p)
    ensures p[0] in BuildIndex(rows) && p == FullPath(BuildIndex(rows), p[0])
  {
    var idx := BuildIndex(rows);
    forall i | 0 <= i < |p| ensures p[i] in idx {
      assert p[i] in p;
      BuildIndexMeaning(rows, p[i]);
    }
    forall i | 0 < i < |p| ensures Parent(idx, p[i - 1]) == Some(p[i]) { ParentByRows(rows, p[i - 1], p[i]); }
    forall up ensures RowParent(rows, p[|p| - 1], up) <==> Parent(idx, p[|p| - 1]) == Some(up) {
      ParentByRows(rows, p[|p| - 1], up);
    }
    FullPathUnique(idx, p);
  }

  // ---- The depth guard ---------------------------------------------------------

  /** The depth guard changes the answer exactly when a room lies past node 101. */
  lemma DepthGuardBitesIff(idx: Index, anchor: string)
    requires anchor in idx
    ensures var p := FullPath(idx, anchor);
            ClimbRoom(idx, anchor) != LastRoom(idx, p) <==> exists i :: 101 <= i < |p| && IsRoom(idx[p[i]])
  {
    var p := FullPath(idx, anchor);
    var cut := GuardedPath(idx, anchor);
    LastRoomIsTopmost(idx, p);
    LastRoomIsTopmost(idx, cut);
    if exists i :: 101 <= i < |p| && IsRoom(idx[p[i]]) {
      var i :| 101 <= i < |p| && IsRoom(idx[p[i]]);
      var top :| 0 <= top < |p| && p[top] == LastRoom(idx, p).value && forall j :: top < j < |p| ==> !IsRoom(idx[p[j]]);
      assert p[top] !in cut;
    } else {
      assert TopmostRoom(idx, p, LastRoom(idx, cut)) by {
        if LastRoom(idx, cut).Some? {
          var k :| 0 <= k < |cut| && cut[k] == LastRoom(idx, cut).value && IsRoom(idx[cut[k]])
                   && forall j :: k < j < |cut| ==> !IsRoom(idx[cut[j]]);
          forall j | k < j < |p| ensures !IsRoom(idx[p[j]]) {
            if j < |cut| { assert cut[j] == p[j]; }
          }
          assert p[k] == cut[k];
        } else {
          forall j | 0 <= j < |p| ensures !IsRoom(idx[p[j]]) {
            if j < |cut| { assert cut[j] == p[j]; }
          }
        }
      }
      TopmostRoomUnique(idx, p, LastRoom(idx, cut), LastRoom(idx, p));
    }
  }

  /** With at most 101 indexed positions the depth guard never matters. */
  lemma DepthGuardIdle(idx: Index, anchor: string)
    requires anchor in idx && |idx| <= 101
    ensures ClimbRoom(idx, anchor) == LastRoom(idx, FullPath(idx, anchor))
  {
    Pigeonhole(FullPath(idx, anchor), idx.Keys);
    DepthGuardBitesIff(idx, anchor);
  }

  // ---- Acyclic chains: structural recursion ------------------------------------

  /** The chain above `anchor` ends at a root or a dangling link, not in a cycle. */
  ghost predicate ChainEnds(idx: Index, anchor: string)
    requires anchor in idx
  {
    var p := FullPath(idx, anchor);
    Parent(idx, p[|p| - 1]).None?
  }

  lemma PathOfParent(idx: Index, anchor: string)
    requires anchor in idx && ChainEnds(idx, anchor) && Parent(idx, anchor).Some?
    ensures FullPath(idx, anchor) == [anchor] + FullPath(idx, Parent(idx, anchor).value)
    ensures ChainEnds(idx, Parent(idx, anchor).value)
  {
    var p := FullPath(idx, anchor);
    assert |p| > 1;
    FullPathUnique(idx, p[1..]);
    assert p == [anchor] + p[1..];
  }

  lemma {:induction false} LastRoomCons(idx: Index, a: string, p: seq<string>)
    requires a in idx && forall i :: 0 <= i < |p| ==> p[i] in idx
    ensures LastRoom(idx, [a] + p)
         == if LastRoom(idx, p).Some? then LastRoom(idx, p) else if IsRoom(idx[a]) then Some(a) else None
  {
    if p == [] {
      assert [a] + p == [a];
      assert [a][..0] == [];
    } else {
      LastRoomCons(idx, a, p[..|p| - 1]);
      assert ([a] + p)[..|p|] == [a] + p[..|p| - 1];
    }
  }

  /** On an acyclic chain of at most 101 nodes the climb is the recursion a reader
      expects: the parent's room if it has one, else the node itself if it is a room. */
  lemma ClimbIsStructural(idx: Index, anchor: string)
    requires anchor in idx && ChainEnds(idx, anchor) && |FullPath(idx, anchor)| <= 101
    ensures var up := Parent(idx, anchor);
            ClimbRoom(idx, anchor)
            == if up.Some? && ClimbRoom(idx, up.value).Some? then ClimbRoom(idx, up.value)
               else if IsRoom(idx[anchor]) then Some(anchor)
               else None
  {
    var p := FullPath(idx, anchor);
    assert p[..|p|] == p;
    var up := Parent(idx, anchor);
    if up.Some? {
      PathOfParent(idx, anchor);
      var q := FullPath(idx, up.value);
      assert q[..|q|] == q;
      LastRoomCons(idx, anchor, q);
    } else {
      FullPathUnique(idx, [anchor]);
      LastRoomCons(idx, anchor, []);
      assert [anchor] + [] == [anchor];
    }
  }

  // ---- Cycles --------------------------------------------------------------------

  ghost predicate IsCycle(idx: Index, c: seq<string>) {
    && c != [] && Distinct(c)
    && (forall i :: 0 <= i < |c| ==> c[i] in idx)
    && (forall i :: 0 < i < |c| ==> Parent(idx, c[i - 1]) == Some(c[i]))
    && Parent(idx, c[|c| - 1]) == Some(c[0])
  }

  /** From any member, the path is the cycle rotated to start there. */
  lemma PathOnCycle(idx: Index, c: seq<string>, i: nat)
    requires IsCycle(idx, c) && i < |c|
    ensures FullPath(idx, c[i]) == c[i..] + c[..i]
  {
    var r := c[i..] + c[..i];
    forall k | 0 < k < |r| ensures Parent(idx, r[k - 1]) == Some(r[k]) {
      if k < |c| - i {
        assert r[k - 1] == c[i + k - 1] && r[k] == c[i + k];
      } else if k == |c| - i {
        assert r[k - 1] == c[|c| - 1] && r[k] == c[0];
      } else {
        assert r[k - 1] == c[k - 1 - (|c| - i)] && r[k] == c[k - (|c| - i)];
      }
    }
    assert IsClimb(idx, r);
    assert Stuck(idx, r) by {
      if i == 0 {
        assert r[|r| - 1] == c[|c| - 1] && r[0] == c[0];
      } else {
        assert r[|r| - 1] == c[i - 1] && r[0] == c[i];
      }
    }
    FullPathUnique(idx, r);
  }

  /** Members of a cycle of at most 101 nodes agree on whether there is a room:
      there is one exactly when some member is one. */
  lemma CycleAgreesOnExistence(idx: Index, c: seq<string>, i: nat)
    requires IsCycle(idx, c) && i < |c| <= 101
    ensures ClimbRoom(idx, c[i]).Some? <==> exists k :: 0 <= k < |c| && IsRoom(idx[c[k]])
    ensures ClimbRoom(idx, c[i]).Some? ==> ClimbRoom(idx, c[i]).value in c
                                           && IsRoom(idx[ClimbRoom(idx, c[i]).value])
  {
    PathOnCycle(idx, c, i);
    var r := c[i..] + c[..i];
    assert r[..|r|] == r;
    LastRoomIsTopmost(idx, r);
    if k :| 0 <= k < |c| && IsRoom(idx[c[k]]) {
      if k < i { assert r[|c| - i + k] == c[k]; } else { assert r[k - i] == c[k]; }
    }
  }

  /** The member just past a room resolves to that room. */
  lemma CycleFindsItsPredecessor(idx: Index, c: seq<string>, a: nat)
    requires IsCycle(idx, c) && a < |c| <= 101 && IsRoom(idx[c[a]])
    ensures ClimbRoom(idx, c[if a + 1 < |c| then a + 1 else 0]) == Some(c[a])
  {
    var i := if a + 1 < |c| then a + 1 else 0;
    PathOnCycle(idx, c, i);
    var r := c[i..] + c[..i];
    assert r[..|r|] == r;
    assert r[|r| - 1] == c[a];
  }

  /** They do not agree on which room, unless the cycle has at most one. */
  lemma CycleAgreesOnRoomIff(idx: Index, c: seq<string>)
    requires IsCycle(idx, c) && |c| <= 101
    ensures (forall i, j :: 0 <= i < |c| && 0 <= j < |c| ==> ClimbRoom(idx, c[i]) == ClimbRoom(idx, c[j]))
       <==> (forall a, b :: 0 <= a < b < |c| ==> !(IsRoom(idx[c[a]]) && IsRoom(idx[c[b]])))
  {
    if a, b :| 0 <= a < b < |c| && IsRoom(idx[c[a]]) && IsRoom(idx[c[b]]) {
      CycleFindsItsPredecessor(idx, c, a);
      CycleFindsItsPredecessor(idx, c, b);
    } else {
      forall i, j | 0 <= i < |c| && 0 <= j < |c|
        ensures ClimbRoom(idx, c[i]) == ClimbRoom(idx, c[j])
      {
        CycleAgreesOnExistence(idx, c, i);
        CycleAgreesOnExistence(idx, c, j);
      }
    }
  }

  // ---- The resolver object ---------------------------------------------------------

  /** The memoising resolver. `Valid` is the memo invariant: every remembered answer
      is the uncached one. */
  class RoomResolver {
    const index: Index
    var cache: map<Option<string>, string>

    ghost predicate Valid()
      reads this
    {
      Indexed(index) && forall k :: k in cache ==> cache[k] == Resolve(index, k)
    }

    constructor (positions: seq<PositionNode>)
      ensures Valid() && index == BuildIndex(positions) && cache == map[]
    {
      index := BuildIndex(positions);
      cache := map[];
    }

    method ResolveOne(position: Option<string>) returns (roomNo: string)
      requires Valid()
      modifies this
      ensures Valid()
      ensures roomNo == Resolve(index, position)
      ensures cache == old(cache)[position := roomNo]
    {
      if position in cache {
        roomNo := cache[position];
        assert cache == cache[position := roomNo];
        return;
      }
      roomNo := ResolveUncached(position);
      cache := cache[position := roomNo];
    }

    method ResolveUncached(position: Option<string>) returns (roomNo: string)
      requires Indexed(index)
      ensures roomNo == Resolve(index, position)
    {
      if position.None? || position.value !in index {
        return NO_ROOM_NO_POSITION;
      }
      var room := ClimbToTopmostRoom(index[position.value]);
      roomNo := if room.Some? then room.value else NO_ROOM_NO_PARENT;
    }

    method ClimbToTopmostRoom(anchor: PositionNode) returns (topmostRoom: Option<string>)
      requires Indexed(index) && anchor in index.Values
      ensures anchor.equipmentNo.Some? && anchor.equipmentNo.value in index
      ensures topmostRoom == ClimbRoom(index, anchor.equipmentNo.value)
    {
      var node := anchor;
      var visited := {node.equipmentNo.value};
      topmostRoom := if IsRoom(node) then node.equipmentNo else None;
      ghost var path := [node.equipmentNo.value];
      ghost var full := FullPath(index, node.equipmentNo.value);
      assert path[..0] == [];
      for depth := 0 to MAX_CLIMB_DEPTH
        invariant IsClimb(index, path) && |path| == depth + 1
        invariant Extend(index, path) == full
        invariant node.equipmentNo == Some(path[|path| - 1]) && node == index[path[|path| - 1]]
        invariant visited == set id | id in path
        invariant topmostRoom == LastRoom(index, path)
      {
        var parent := NextParent(node, visited);
        if parent.None? {
          assert Stuck(index, path);
          break;
        }
        visited := visited + {parent.value.equipmentNo.value};
        node := parent.value;
        ClimbStep(index, path, node.equipmentNo.value);
        path := path + [node.equipmentNo.value];
        if IsRoom(node) {
          topmostRoom := node.equipmentNo;
        }
      }
      assert path == GuardedPath(index, anchor.equipmentNo.value);
    }

    function NextParent(node: PositionNode, visited: set<string>): (parent: Option<PositionNode>)
      requires Indexed(index)
      ensures parent.Some? ==> node.parentAsset.Some? && node.parentAsset.value !in visited
                               && parent.value.equipmentNo == node.parentAsset
    {
      if node.parentAsset.None? || node.parentAsset.value in visited then None
      else if node.parentAsset.value in index then Some(index[node.parentAsset.value])
      else None
    }
  }
}
