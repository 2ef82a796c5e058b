/** EAM and LanDB records, the cached row built from them, and its ORM converters. */
module LandbModel {
  import opened Common
  import opened Text
  import opened Reconcile

  /** The attributes of an EAM device the LanDB sync reads. */
  datatype Equipment = Equipment(
    code: Option<string>, serialNumber: Option<string>, description: Option<string>,
    classCode: Option<string>, classDesc: Option<string>,
    categoryCode: Option<string>, categoryDesc: Option<string>, category: Option<string>,
    manufacturerCode: Option<string>, manufacturerDesc: Option<string>, model: Option<string>)

  datatype Location =
    | NoLocation
    | Parts(building: Option<string>, floor: Option<string>, room: Option<string>)
    | Listing(items: seq<Option<string>>)
    | Unknown(text: string)

  datatype Device = Device(name: Option<string>, serialNumber: Option<string>, location: Location)

  /** `device` is the device name the client sees; `deviceSerial` is the serial number the
      server holds for that device and filters `device__serial_number__in` on. */
  datatype IpRecord = IpRecord(
    device: Option<string>, deviceSerial: Option<string>,
    name: Option<string>, ipv4: Option<string>, ipv6: Option<string>)

  datatype Landb = Landb(devices: seq<Device>, ips: seq<IpRecord>)

  /** The non-key columns of `landb_ipaddresses`. */
  datatype Details = Details(
    serialNumber: Option<string>, ip: Option<string>, name: Option<string>, hostname: Option<string>,
    landbSerial: Option<string>, landbDescription: Option<string>,
    building: Option<string>, floor: Option<string>, room: Option<string>,
    eqClass: Option<string>, category: Option<string>, manufacturer: Option<string>, model: Option<string>)

  datatype CachedIp = CachedIp(equipmentNo: Option<string>, details: Details)
  datatype LandbRow = LandbRow(equipmentNo: string, details: Details)

  /** Python's `a or b` on optional text. */
  function Or(a: Option<string>, b: Option<string>): Option<string> {
    if a.Some? && a.value != "" then a else b
  }

  function ItemAt(items: seq<Option<string>>, i: nat): Option<string> {
    if i < |items| then items[i] else None
  }

  /** (building, floor, room) of a location of any shape. */
  function ParseLocation(loc: Location): (Option<string>, Option<string>, Option<string>) {
    match loc
    case NoLocation => (None, None, None)
    case Parts(b, f, r) => (NoneIfBlank(b), NoneIfBlank(f), NoneIfBlank(r))
    case Listing(items) => (NoneIfBlank(ItemAt(items, 0)), NoneIfBlank(ItemAt(items, 1)), NoneIfBlank(ItemAt(items, 2)))
    case Unknown(text) => (None, None, NoneIfBlank(Some(text)))
  }

  /** The cached record of a matched device and its IP record. */
  function Enrich(eq: Equipment, ip: IpRecord, dev: Device): CachedIp {
    var landbDescription := NoneIfBlank(dev.name);
    var hostname := NoneIfBlank(ip.name);
    var (building, floor, room) := ParseLocation(dev.location);
    CachedIp(
      NoneIfBlank(eq.code),
      Details(
        NoneIfBlank(eq.serialNumber),
        Or(NoneIfBlank(ip.ipv4), NoneIfBlank(ip.ipv6)),
        Or(Or(landbDescription, NoneIfBlank(eq.description)), hostname),
        hostname, NoneIfBlank(dev.serialNumber), landbDescription,
        building, floor, room,
        NoneIfBlank(Or(eq.classCode, eq.classDesc)),
        NoneIfBlank(Or(Or(eq.categoryCode, eq.categoryDesc), eq.category)),
        NoneIfBlank(Or(eq.manufacturerCode, eq.manufacturerDesc)),
        NoneIfBlank(eq.model)))
  }

  // ---- What a record holds -------------------------------------------------------------

  predicate Given(v: Option<string>) {
    v.Some? && v.value != ""
  }

  /** `got` is the first of three texts that is left after trimming. */
  ghost predicate Preferred(got: Option<string>, a: Option<string>, b: Option<string>, c: Option<string>) {
    && (NoneIfBlank(a).Some? ==> got == NoneIfBlank(a))
    && (NoneIfBlank(a).None? && NoneIfBlank(b).Some? ==> got == NoneIfBlank(b))
    && (NoneIfBlank(a).None? && NoneIfBlank(b).None? ==> got == NoneIfBlank(c))
  }

  /** `got` is what trimming leaves of the first of three texts that is given at all. */
  ghost predicate FirstGiven(got: Option<string>, a: Option<string>, b: Option<string>, c: Option<string>) {
    && (Given(a) ==> got == NoneIfBlank(a))
    && (!Given(a) && Given(b) ==> got == NoneIfBlank(b))
    && (!Given(a) && !Given(b) ==> got == NoneIfBlank(c))
  }

  /** Building, floor and room, by the shape of the location: named parts, the first three
      entries of a listing, or a text that is taken for the room. */
  ghost predicate Located(d: Details, loc: Location) {
    match loc
    case NoLocation => d.building == None && d.floor == None && d.room == None
    case Parts(b, f, r) => d.building == NoneIfBlank(b) && d.floor == NoneIfBlank(f) && d.room == NoneIfBlank(r)
    case Listing(items) =>
      && (if |items| > 0 then d.building == NoneIfBlank(items[0]) else d.building == None)
      && (if |items| > 1 then d.floor == NoneIfBlank(items[1]) else d.floor == None)
      && (if |items| > 2 then d.room == NoneIfBlank(items[2]) else d.room == None)
    case Unknown(text) => d.building == None && d.floor == None && d.room == NoneIfBlank(Some(text))
  }

  /** Each column from its own source: serial number, class, category, manufacturer and model
      from EAM, serial number, name and location from the device, host name and address from
      the IP record. An IPv4 address is preferred to an IPv6 one, and as display name the
      device's name to the EAM description, and that to the host name. */
  ghost predicate Describes(d: Details, eq: Equipment, ip: IpRecord, dev: Device) {
    && d.serialNumber == NoneIfBlank(eq.serialNumber) && d.model == NoneIfBlank(eq.model)
    && d.landbSerial == NoneIfBlank(dev.serialNumber) && d.landbDescription == NoneIfBlank(dev.name)
    && d.hostname == NoneIfBlank(ip.name)
    && Preferred(d.ip, ip.ipv4, ip.ipv6, None)
    && Preferred(d.name, dev.name, eq.description, ip.name)
    && FirstGiven(d.eqClass, eq.classCode, eq.classDesc, None)
    && FirstGiven(d.category, eq.categoryCode, eq.categoryDesc, eq.category)
    && FirstGiven(d.manufacturer, eq.manufacturerCode, eq.manufacturerDesc, None)
    && Located(d, dev.location)
  }

  lemma EnrichDescribes(eq: Equipment, ip: IpRecord, dev: Device)
    ensures Describes(Enrich(eq, ip, dev).details, eq, ip, dev)
    ensures Enrich(eq, ip, dev).equipmentNo == NoneIfBlank(eq.code)
  {
    NoneIfBlankIsFixed(ip.ipv4);
    NoneIfBlankIsFixed(dev.name);
    NoneIfBlankIsFixed(eq.description);
    NothingIsBlank();
    ChosenText(eq.classCode, eq.classDesc, None);
    ChosenText(eq.categoryCode, eq.categoryDesc, eq.category);
    ChosenText(eq.manufacturerCode, eq.manufacturerDesc, None);
  }

  lemma NothingIsBlank()
    ensures NoneIfBlank(None) == None && NoneIfBlank(Some("")) == None
  {
  }

  lemma ChosenText(a: Option<string>, b: Option<string>, c: Option<string>)
    ensures FirstGiven(NoneIfBlank(Or(Or(a, b), c)), a, b, c)
    ensures c.None? ==> FirstGiven(NoneIfBlank(Or(a, b)), a, b, c)
  {
    NothingIsBlank();
  }

  // ---- The row ----------------------------------------------------------------------

  function MapDetails(f: Option<string> -> Option<string>, d: Details): Details {
    Details(f(d.serialNumber), f(d.ip), f(d.name), f(d.hostname), f(d.landbSerial), f(d.landbDescription),
            f(d.building), f(d.floor), f(d.room), f(d.eqClass), f(d.category), f(d.manufacturer), f(d.model))
  }

  function FromIpaddress(d: CachedIp): Option<LandbRow> {
    match NoneIfBlank(d.equipmentNo)
    case None => None
    case Some(k) => Some(LandbRow(k, MapDetails(NoneIfBlank, d.details)))
  }

  function ToIpaddress(r: LandbRow): CachedIp {
    CachedIp(Some(r.equipmentNo), r.details)
  }

  /** Whether any compared field differs; a cached LanDB item has every field set. */
  predicate DetailsChanged(was: CachedIp, now: CachedIp) {
    Canon(was.equipmentNo) != Canon(now.equipmentNo) || MapDetails(Canon, was.details) != MapDetails(Canon, now.details)
  }

  function LandbEntity(): Entity<CachedIp, LandbRow> {
    Entity((d: CachedIp) => IdText(d.equipmentNo), FromIpaddress, ToIpaddress,
           (r: LandbRow) => r.equipmentNo, (r: LandbRow, k: string) => r.(equipmentNo := k), DetailsChanged)
  }

  ghost predicate IsNormal(v: Option<string>) {
    NoneIfBlank(v) == v
  }

  ghost predicate NormalDetails(d: Details) {
    MapDetails(NoneIfBlank, d) == d
  }

  /** The shape `Enrich` produces and the table holds: every text trimmed, blanks null. */
  ghost predicate NormalItem(d: CachedIp) {
    d.equipmentNo.Some? && IsNormal(d.equipmentNo) && NormalDetails(d.details)
  }

  ghost predicate NormalTable(t: Table<LandbRow>) {
    forall k :: k in t ==> t[k].equipmentNo == k && NormalDetails(t[k].details)
  }

  lemma LandbWellKeyed()
    ensures WellKeyed(LandbEntity())
  {
  }

  lemma LocationIsNormal(loc: Location)
    ensures var (b, f, r) := ParseLocation(loc); IsNormal(b) && IsNormal(f) && IsNormal(r)
  {
    NoneIfBlankIsFixed(None);
    match loc
    case NoLocation =>
    case Parts(b, f, r) => NoneIfBlankIsFixed(b); NoneIfBlankIsFixed(f); NoneIfBlankIsFixed(r);
    case Listing(items) =>
      NoneIfBlankIsFixed(ItemAt(items, 0)); NoneIfBlankIsFixed(ItemAt(items, 1)); NoneIfBlankIsFixed(ItemAt(items, 2));
    case Unknown(text) => NoneIfBlankIsFixed(Some(text));
  }

  lemma OrIsNormal(a: Option<string>, b: Option<string>)
    requires IsNormal(a) && IsNormal(b)
    ensures IsNormal(Or(a, b))
  {
  }

  lemma NormalDetailsIff(d: Details)
    ensures NormalDetails(d) <==>
      && IsNormal(d.serialNumber) && IsNormal(d.ip) && IsNormal(d.name) && IsNormal(d.hostname)
      && IsNormal(d.landbSerial) && IsNormal(d.landbDescription) && IsNormal(d.building) && IsNormal(d.floor)
      && IsNormal(d.room) && IsNormal(d.eqClass) && IsNormal(d.category) && IsNormal(d.manufacturer)
      && IsNormal(d.model)
  {
  }

  lemma EnrichIsNormal(eq: Equipment, ip: IpRecord, dev: Device)
    requires eq.code.Some? && IsNormal(eq.code)
    ensures NormalItem(Enrich(eq, ip, dev)) && Enrich(eq, ip, dev).equipmentNo == eq.code
  {
    NoneIfBlankIsFixed(eq.serialNumber);
    NoneIfBlankIsFixed(ip.ipv4);
    NoneIfBlankIsFixed(ip.ipv6);
    OrIsNormal(NoneIfBlank(ip.ipv4), NoneIfBlank(ip.ipv6));
    NoneIfBlankIsFixed(dev.name);
    NoneIfBlankIsFixed(eq.description);
    NoneIfBlankIsFixed(ip.name);
    OrIsNormal(NoneIfBlank(dev.name), NoneIfBlank(eq.description));
    OrIsNormal(Or(NoneIfBlank(dev.name), NoneIfBlank(eq.description)), NoneIfBlank(ip.name));
    NoneIfBlankIsFixed(dev.serialNumber);
    LocationIsNormal(dev.location);
    NoneIfBlankIsFixed(Or(eq.classCode, eq.classDesc));
    NoneIfBlankIsFixed(Or(Or(eq.categoryCode, eq.categoryDesc), eq.category));
    NoneIfBlankIsFixed(Or(eq.manufacturerCode, eq.manufacturerDesc));
    NoneIfBlankIsFixed(eq.model);
    NormalDetailsIff(Enrich(eq, ip, dev).details);
  }

  /** Canonical forms agree exactly when normal details are equal, so an empty LanDB diff
      means the row already is the converted item. */
  lemma CanonIsFaithful(x: Details, y: Details)
    requires NormalDetails(x) && NormalDetails(y)
    ensures MapDetails(Canon, x) == MapDetails(Canon, y) <==> x == y
  {
    forall v | IsNormal(v) ensures Canon(v) == v { CanonOfNormal(v); }
  }

  lemma NormalItemsAreLawful(items: seq<CachedIp>)
    requires forall d :: d in items ==> NormalItem(d)
    ensures Lawful(LandbEntity(), items)
    ensures Stable(LandbEntity(), items)
  {
  }

  /** With trimmed items over a normal table, reconciliation leaves the converted view, or
      the old table overridden by it. */
  lemma LandbClosedForm(t: Table<LandbRow>, api: seq<CachedIp>, order: seq<string>, allowDeletes: bool)
    requires NormalTable(t) && (forall d :: d in api ==> NormalItem(d))
    requires IsOrder(order, ItemMap(LandbEntity(), api)) && (|t| == 0 ==> DistinctBy(LandbEntity().getId, api))
    ensures var e := LandbEntity();
            var a := ItemMap(e, api);
            Step(e, t, api, order, allowDeletes, false, true).table
            == if allowDeletes && 2 * |t.Keys - a.Keys| <= |t| then Target(e, a) else t + Target(e, a)
  {
    var e := LandbEntity();
    LandbWellKeyed();
    NormalItemsAreLawful(api);
    forall k, d | k in t && d in api && e.getId(d) == k && !e.changed(e.toDomain(t[k]), d)
      ensures e.fromDomain(d) == Some(t[k])
    {
      CanonIsFaithful(t[k].details, d.details);
    }
    ClosedFormFullySet(e, t, api, order, allowDeletes, false);
  }
}
