/** The bulk join of `_get_landb_ipaddresses`: four chunked, deduplicated lookups
    correlate EAM devices with LanDB devices and IP records. With no failed request
    it is the naive record-by-record lookup. */
module LandbJoin {
  import opened Common
  import opened Text
  import opened ChunkedLookup
  import opened LandbModel

  // ---- The four endpoints -------------------------------------------------------

  /** A stored text a normalised query value can equal. */
  function Queryable(v: Option<string>): Option<string> {
    if NoneIfBlank(v) == v then v else None
  }

  /** A lookup that filters on and merges by the same attribute. */
  function TextEndpoint<R>(records: seq<R>, attr: R -> Option<string>): Endpoint<R> {
    Endpoint(records, (r: R) => Queryable(attr(r)), (r: R) => NoneIfBlank(attr(r)))
  }

  function SerialOf(): Device -> Option<string> { (d: Device) => d.serialNumber }
  function NameOf(): Device -> Option<string> { (d: Device) => d.name }
  function DeviceOf(): IpRecord -> Option<string> { (ip: IpRecord) => ip.device }

  /** IP addresses filtered by their device's serial number but merged by device name. */
  function IpBySerial(ips: seq<IpRecord>): Endpoint<IpRecord> {
    Endpoint(ips, (ip: IpRecord) => Queryable(ip.deviceSerial), (ip: IpRecord) => NoneIfBlank(ip.device))
  }

  // ---- The bulk join --------------------------------------------------------------

  /** Normalised texts without repetition, in order of first occurrence. */
  function UniqueTexts(vs: seq<Option<string>>): seq<string> {
    if vs == [] then []
    else
      var before := UniqueTexts(vs[..|vs| - 1]);
      var v := NoneIfBlank(vs[|vs| - 1]);
      if v.Some? && v.value !in before then before + [v.value] else before
  }

  datatype JoinFaults = JoinFaults(serial: Faults, name: Faults, ipSerial: Faults, ipName: Faults)

  datatype Match = Match(eq: Equipment, dev: Device)

  function SerialsOf(): Equipment -> seq<Option<string>> { (eq: Equipment) => [eq.serialNumber] }
  function DescriptionsOf(): Equipment -> seq<Option<string>> { (eq: Equipment) => [eq.description] }
  function DevSerialsOf(): Match -> seq<Option<string>> { (m: Match) => [m.dev.serialNumber] }
  function DevNamesOf(): Match -> seq<Option<string>> { (m: Match) => [m.dev.name] }

  function Got<V>(found: map<string, V>, k: string): Option<V> {
    if k in found then Some(found[k]) else None
  }

  function HitIn(v: Option<string>, found: map<string, Device>): Option<Device> {
    if NoneIfBlank(v).Some? then Got(found, NoneIfBlank(v).value) else None
  }

  function NeedName(bySerial: map<string, Device>): Equipment -> seq<Equipment> {
    (eq: Equipment) => if HitIn(eq.serialNumber, bySerial).None? then [eq] else []
  }

  function MatchOne(bySerial: map<string, Device>, byName: map<string, Device>): Equipment -> seq<Match> {
    (eq: Equipment) =>
      if HitIn(eq.serialNumber, bySerial).Some? then [Match(eq, HitIn(eq.serialNumber, bySerial).value)]
      else if HitIn(eq.description, byName).Some? then [Match(eq, HitIn(eq.description, byName).value)]
      else []
  }

  function Missing(found: map<string, IpRecord>): string -> seq<string> {
    n => if n in found then [] else [n]
  }

  function EnrichOne(ips: map<string, IpRecord>): Match -> seq<CachedIp> {
    (m: Match) =>
      var n := NoneIfBlank(m.dev.name);
      if n.None? || n.value !in ips then []
      else
        var cached := Enrich(m.eq, ips[n.value], m.dev);
        if cached.details.ip.None? then [] else [cached]
  }

  datatype Lookup<V> = Lookup(found: map<string, V>, degraded: bool)

  ghost function Ask<V>(ep: Endpoint<V>, values: seq<string>, faults: Faults): Lookup<V> {
    Lookup(Fetched(ep, values, LANDB_IN_CHUNK_SIZE, faults), Degraded(values, LANDB_IN_CHUNK_SIZE, faults))
  }

  ghost function DevicesBySerial(db: Landb, eam: seq<Equipment>, f: JoinFaults): Lookup<Device> {
    Ask(TextEndpoint(db.devices, SerialOf()), UniqueTexts(FlatMap(SerialsOf(), eam)), f.serial)
  }

  ghost function DevicesByName(db: Landb, eam: seq<Equipment>, f: JoinFaults): Lookup<Device> {
    var need := FlatMap(NeedName(DevicesBySerial(db, eam, f).found), eam);
    Ask(TextEndpoint(db.devices, NameOf()), UniqueTexts(FlatMap(DescriptionsOf(), need)), f.name)
  }

  ghost function Matched(db: Landb, eam: seq<Equipment>, f: JoinFaults): seq<Match> {
    FlatMap(MatchOne(DevicesBySerial(db, eam, f).found, DevicesByName(db, eam, f).found), eam)
  }

  ghost function IpsBySerial(db: Landb, matched: seq<Match>, f: JoinFaults): Lookup<IpRecord> {
    Ask(IpBySerial(db.ips), UniqueTexts(FlatMap(DevSerialsOf(), matched)), f.ipSerial)
  }

  ghost function IpsByName(db: Landb, matched: seq<Match>, f: JoinFaults): Lookup<IpRecord> {
    var names := UniqueTexts(FlatMap(DevNamesOf(), matched));
    Ask(TextEndpoint(db.ips, DeviceOf()), FlatMap(Missing(IpsBySerial(db, matched, f).found), names), f.ipName)
  }

  ghost function Ips(db: Landb, matched: seq<Match>, f: JoinFaults): map<string, IpRecord> {
    IpsByName(db, matched, f).found + IpsBySerial(db, matched, f).found
  }

  ghost function BulkJoin(db: Landb, eam: seq<Equipment>, f: JoinFaults): seq<CachedIp> {
    FlatMap(EnrichOne(Ips(db, Matched(db, eam, f), f)), Matched(db, eam, f))
  }

  /** Some chunk of some lookup failed, so the view is partial. */
  ghost predicate JoinDegraded(db: Landb, eam: seq<Equipment>, f: JoinFaults) {
    var matched := Matched(db, eam, f);
    || DevicesBySerial(db, eam, f).degraded || DevicesByName(db, eam, f).degraded
    || IpsBySerial(db, matched, f).degraded || IpsByName(db, matched, f).degraded
  }

  // ---- The imperative form ------------------------------------------------------------

  lemma UniqueTextsNext(vs: seq<Option<string>>, more: seq<Option<string>>)
    requires |more| == 1
    ensures var before, v := UniqueTexts(vs), NoneIfBlank(more[0]);
            UniqueTexts(vs + more) == if v.Some? && v.value !in before then before + [v.value] else before
  {
    assert (vs + more)[..|vs|] == vs;
  }

  function UniqueUpTo<A>(attr: A -> seq<Option<string>>, items: seq<A>, i: nat): seq<string>
    requires i <= |items|
  {
    UniqueTexts(FlatMap(attr, items[..i]))
  }

  lemma UniqueStep<A>(attr: A -> seq<Option<string>>, items: seq<A>, i: nat)
    requires i < |items| && |attr(items[i])| == 1
    ensures var before, v := UniqueUpTo(attr, items, i), NoneIfBlank(attr(items[i])[0]);
            UniqueUpTo(attr, items, i + 1) == if v.Some? && v.value !in before then before + [v.value] else before
  {
    FlatMapStep(attr, items, i);
    UniqueTextsNext(FlatMap(attr, items[..i]), attr(items[i]));
  }

  lemma UniqueEnds<A>(attr: A -> seq<Option<string>>, items: seq<A>)
    ensures UniqueUpTo(attr, items, 0) == []
    ensures UniqueUpTo(attr, items, |items|) == UniqueTexts(FlatMap(attr, items))
  {
    assert items[..|items|] == items;
  }

  method CollectUnique<A>(attr: A -> seq<Option<string>>, items: seq<A>) returns (out: seq<string>)
    requires forall x :: x in items ==> |attr(x)| == 1
    ensures out == UniqueTexts(FlatMap(attr, items))
  {
    UniqueEnds(attr, items);
    out := [];
    var seen: set<string> := {};
    for i := 0 to |items|
      invariant out == UniqueUpTo(attr, items, i)
      invariant forall t :: t in seen <==> t in out
    {
      UniqueStep(attr, items, i);
      var v := NoneIfBlank(attr(items[i])[0]);
      if v.Some? && v.value !in seen {
        seen := seen + {v.value};
        out := out + [v.value];
      }
    }
  }

  class BulkFetcher {
    /** True when the last fetch returned a partial view of LanDB. */
    var landbFetchDegraded: bool

    constructor ()
      ensures !landbFetchDegraded
    {
      landbFetchDegraded := false;
    }

    method GetLandbIpaddresses(db: Landb, eam: seq<Equipment>, f: JoinFaults) returns (out: seq<CachedIp>)
      modifies this
      ensures out == BulkJoin(db, eam, f)
      ensures landbFetchDegraded <==> JoinDegraded(db, eam, f)
    {
      landbFetchDegraded := false;
      if eam == [] {
        return [];
      }
      var serials := CollectUnique(SerialsOf(), eam);
      var bySerial, degraded :=
        FetchInChunks(TextEndpoint(db.devices, SerialOf()), serials, LANDB_IN_CHUNK_SIZE, f.serial);
      landbFetchDegraded := landbFetchDegraded || degraded;

      var needNameLookup := AppendAll(NeedName(bySerial), eam);
      var names := CollectUnique(DescriptionsOf(), needNameLookup);
      var byName;
      byName, degraded := FetchInChunks(TextEndpoint(db.devices, NameOf()), names, LANDB_IN_CHUNK_SIZE, f.name);
      landbFetchDegraded := landbFetchDegraded || degraded;

      var matched := AppendAll(MatchOne(bySerial, byName), eam);
      if matched == [] {
        NothingMatched(db, f);
        return [];
      }
      var deviceSerials := CollectUnique(DevSerialsOf(), matched);
      var deviceNames := CollectUnique(DevNamesOf(), matched);
      var ipsByDevice;
      ipsByDevice, degraded := FetchInChunks(IpBySerial(db.ips), deviceSerials, LANDB_IN_CHUNK_SIZE, f.ipSerial);
      landbFetchDegraded := landbFetchDegraded || degraded;

      var missingIpNames := AppendAll(Missing(ipsByDevice), deviceNames);
      var ipsByName;
      ipsByName, degraded :=
        FetchInChunks(TextEndpoint(db.ips, DeviceOf()), missingIpNames, LANDB_IN_CHUNK_SIZE, f.ipName);
      landbFetchDegraded := landbFetchDegraded || degraded;

      ipsByDevice := ipsByName + ipsByDevice;
      out := AppendAll(EnrichOne(ipsByDevice), matched);
    }
  }

  lemma NothingMatched(db: Landb, f: JoinFaults)
    ensures !IpsBySerial(db, [], f).degraded && !IpsByName(db, [], f).degraded
  {
  }

  // ---- The naive reference --------------------------------------------------------------

  /** The first device with the record's serial number. */
  function SerialDevice(db: Landb, eq: Equipment): Option<Device> {
    var s := NoneIfBlank(eq.serialNumber);
    if s.Some? then FirstWith(SerialOf(), db.devices, s.value) else None
  }

  /** The first device named by the record's description. */
  function NamedDevice(db: Landb, eq: Equipment): Option<Device> {
    var n := NoneIfBlank(eq.description);
    if n.Some? then FirstWith(NameOf(), db.devices, n.value) else None
  }

  /** The device of one EAM record: by serial number first, else by description. */
  function NaiveDevice(db: Landb, eq: Equipment): Option<Device> {
    if SerialDevice(db, eq).Some? then SerialDevice(db, eq) else NamedDevice(db, eq)
  }

  function FirstIp(db: Landb, dev: Device): Option<IpRecord> {
    if dev.name.None? then None else FirstWith(DeviceOf(), db.ips, dev.name.value)
  }

  /** The item a device gives a record: that of the device's first IP record, kept when it has
      an IPv4 or IPv6 target. */
  function ItemOf(db: Landb, eq: Equipment, dev: Device): seq<CachedIp> {
    var ip := FirstIp(db, dev);
    if NoneIfBlank(dev.name).None? || ip.None? then []
    else if NoneIfBlank(ip.value.ipv4).None? && NoneIfBlank(ip.value.ipv6).None? then []
    else [Enrich(eq, ip.value, dev)]
  }

  function NaiveOne(db: Landb): Equipment -> seq<CachedIp> {
    (eq: Equipment) => if NaiveDevice(db, eq).None? then [] else ItemOf(db, eq, NaiveDevice(db, eq).value)
  }

  /** The item of the device the description names. */
  function NamedItem(db: Landb, eq: Equipment): seq<CachedIp> {
    if NamedDevice(db, eq).None? then [] else ItemOf(db, eq, NamedDevice(db, eq).value)
  }

  function NaiveJoin(db: Landb, eam: seq<Equipment>): seq<CachedIp> {
    FlatMap(NaiveOne(db), eam)
  }

  /** A device name determines its device: an IP record that names a device, up to blanks
      around the name, names it exactly and belongs to it. */
  ghost predicate NameDeterminesDevice(db: Landb) {
    forall ip, d :: ip in db.ips && d in db.devices
                    && NoneIfBlank(ip.device).Some? && NoneIfBlank(ip.device) == NoneIfBlank(d.name)
                    ==> ip.device == d.name && ip.deviceSerial == d.serialNumber
  }

  // ---- Proof --------------------------------------------------------------------------------

  lemma {:induction false} UniqueTextsMeaning(vs: seq<Option<string>>, s: string)
    ensures s in UniqueTexts(vs) <==> exists i :: 0 <= i < |vs| && NoneIfBlank(vs[i]) == Some(s)
  {
    if vs != [] {
      var n := |vs| - 1;
      UniqueTextsMeaning(vs[..n], s);
      assert forall i :: 0 <= i < n ==> vs[..n][i] == vs[i];
    }
  }

  /** Every attribute of a listed item is asked for. */
  lemma IsAsked<A>(attr: A -> seq<Option<string>>, items: seq<A>, x: A, v: Option<string>)
    requires x in items && attr(x) == [v] && NoneIfBlank(v).Some?
    ensures NoneIfBlank(v).value in Elements(UniqueTexts(FlatMap(attr, items)))
  {
    var all := FlatMap(attr, items);
    var i :| 0 <= i < |items| && items[i] == x;
    assert v in attr(items[i]);
    FlatMapSource(attr, items, v);
    var j :| 0 <= j < |all| && all[j] == v;
    UniqueTextsMeaning(all, NoneIfBlank(v).value);
  }

  lemma {:induction false} TextHolder<R>(all: seq<R>, recs: seq<R>, attr: R -> Option<string>, k: string)
    requires NoneIfBlank(Some(k)) == Some(k)
    ensures HolderAmong(TextEndpoint(all, attr), recs, k) == FirstWith(attr, recs, k)
  {
    if recs != [] {
      var n := |recs| - 1;
      var ep := TextEndpoint(all, attr);
      TextHolder(all, recs[..n], attr, k);
      FirstWithAppend(ep.keyOf, FlatMap(HasField(ep), recs[..n]), HasField(ep)(recs[n]), k);
      FirstWithOne(ep.keyOf, recs[n], k);
    }
  }

  /** A lookup on one attribute finds, for an asked text, the first record bearing it; after a
      failure it may find nothing instead, and nothing else. */
  lemma TextLookup<R>(recs: seq<R>, attr: R -> Option<string>, values: seq<string>, faults: Faults, k: string)
    requires NoneIfBlank(Some(k)) == Some(k) && k in Elements(values)
    ensures var asked := Ask(TextEndpoint(recs, attr), values, faults);
            Trusted(Got(asked.found, k), asked.degraded, FirstWith(attr, recs, k))
  {
    var ep := TextEndpoint(recs, attr);
    TextHolder(recs, recs, attr, k);
    FirstWithMeaning(attr, recs, k);
    FetchedHolds(ep, values, LANDB_IN_CHUNK_SIZE, faults, k);
  }

  lemma SerialLookup(db: Landb, eam: seq<Equipment>, f: JoinFaults, eq: Equipment)
    requires eq in eam
    ensures var asked := DevicesBySerial(db, eam, f);
            Trusted(HitIn(eq.serialNumber, asked.found), asked.degraded, SerialDevice(db, eq))
  {
    var s := NoneIfBlank(eq.serialNumber);
    if s.Some? {
      NoneIfBlankIsFixed(eq.serialNumber);
      IsAsked(SerialsOf(), eam, eq, eq.serialNumber);
      TextLookup(db.devices, SerialOf(), UniqueTexts(FlatMap(SerialsOf(), eam)), f.serial, s.value);
    }
  }

  lemma NameLookup(db: Landb, eam: seq<Equipment>, f: JoinFaults, eq: Equipment)
    requires eq in eam && HitIn(eq.serialNumber, DevicesBySerial(db, eam, f).found).None?
    ensures var asked := DevicesByName(db, eam, f);
            Trusted(HitIn(eq.description, asked.found), asked.degraded, NamedDevice(db, eq))
  {
    var n := NoneIfBlank(eq.description);
    if n.Some? {
      NoneIfBlankIsFixed(eq.description);
      var f1 := NeedName(DevicesBySerial(db, eam, f).found);
      var need := FlatMap(f1, eam);
      var i :| 0 <= i < |eam| && eam[i] == eq;
      assert eq in f1(eam[i]);
      FlatMapSource(f1, eam, eq);
      IsAsked(DescriptionsOf(), need, eq, eq.description);
      TextLookup(db.devices, NameOf(), UniqueTexts(FlatMap(DescriptionsOf(), need)), f.name, n.value);
    }
  }

  /** The bulk match of one record is its naive device. */
  lemma MatchIsNaive(db: Landb, eam: seq<Equipment>, f: JoinFaults, eq: Equipment)
    requires eq in eam && !DevicesBySerial(db, eam, f).degraded && !DevicesByName(db, eam, f).degraded
    ensures MatchOne(DevicesBySerial(db, eam, f).found, DevicesByName(db, eam, f).found)(eq)
         == if NaiveDevice(db, eq).Some? then [Match(eq, NaiveDevice(db, eq).value)] else []
  {
    SerialLookup(db, eam, f, eq);
    if HitIn(eq.serialNumber, DevicesBySerial(db, eam, f).found).None? {
      NameLookup(db, eam, f, eq);
    }
  }

  /** A device found by serial number or by name is stored, and that text is free of blanks. */
  ghost predicate Findable(db: Landb, d: Device) {
    d in db.devices
    && ((d.serialNumber.Some? && IsNormal(d.serialNumber)) || (d.name.Some? && IsNormal(d.name)))
  }

  lemma FoundIsFindable(db: Landb, eq: Equipment)
    ensures SerialDevice(db, eq).Some? ==> Findable(db, SerialDevice(db, eq).value)
    ensures NamedDevice(db, eq).Some? ==> Findable(db, NamedDevice(db, eq).value)
  {
    var s, n := NoneIfBlank(eq.serialNumber), NoneIfBlank(eq.description);
    NoneIfBlankIsFixed(eq.serialNumber);
    NoneIfBlankIsFixed(eq.description);
    if s.Some? { FirstWithMeaning(SerialOf(), db.devices, s.value); }
    if n.Some? { FirstWithMeaning(NameOf(), db.devices, n.value); }
  }

  /** Among records whose key is `k` exactly when their attribute is `v`, and which then all
      have a queryable field (or all have none), the holder is the first bearing `v`. */
  lemma {:induction false} HolderIsFirst(all: seq<IpRecord>, recs: seq<IpRecord>, v: string, k: string,
                                         serial: Option<string>)
    requires forall ip :: ip in recs ==> (NoneIfBlank(ip.device) == Some(k) <==> ip.device == Some(v))
    requires forall ip :: ip in recs && ip.device == Some(v) ==> ip.deviceSerial == serial
    ensures HolderAmong(IpBySerial(all), recs, k)
         == if Queryable(serial).Some? then FirstWith(DeviceOf(), recs, v) else None
  {
    if recs != [] {
      var n := |recs| - 1;
      var ep := IpBySerial(all);
      HolderIsFirst(all, recs[..n], v, k, serial);
      FirstWithAppend(ep.keyOf, FlatMap(HasField(ep), recs[..n]), HasField(ep)(recs[n]), k);
      FirstWithOne(ep.keyOf, recs[n], k);
    }
  }

  lemma IpsBySerialHold(db: Landb, matched: seq<Match>, f: JoinFaults, m: Match, k: string)
    requires NameDeterminesDevice(db) && m in matched && m.dev in db.devices && NoneIfBlank(m.dev.name) == Some(k)
    ensures var asked := IpsBySerial(db, matched, f);
            Trusted(Got(asked.found, k), asked.degraded,
                    if Queryable(m.dev.serialNumber).Some? then FirstIp(db, m.dev) else None)
  {
    var serials := UniqueTexts(FlatMap(DevSerialsOf(), matched));
    HolderIsFirst(db.ips, db.ips, m.dev.name.value, k, m.dev.serialNumber);
    FirstWithMeaning(DeviceOf(), db.ips, m.dev.name.value);
    if Queryable(m.dev.serialNumber).Some? {
      IsAsked(DevSerialsOf(), matched, m, m.dev.serialNumber);
    }
    FetchedHolds(IpBySerial(db.ips), serials, LANDB_IN_CHUNK_SIZE, f.ipSerial, k);
  }

  lemma IpsByNameHold(db: Landb, matched: seq<Match>, f: JoinFaults, m: Match, k: string)
    requires m in matched && m.dev.name == Some(k) && NoneIfBlank(Some(k)) == Some(k)
    requires k !in IpsBySerial(db, matched, f).found
    ensures var asked := IpsByName(db, matched, f);
            Trusted(Got(asked.found, k), asked.degraded, FirstIp(db, m.dev))
  {
    var names := UniqueTexts(FlatMap(DevNamesOf(), matched));
    var miss := Missing(IpsBySerial(db, matched, f).found);
    IsAsked(DevNamesOf(), matched, m, m.dev.name);
    var i :| 0 <= i < |names| && names[i] == k;
    assert k in miss(names[i]);
    FlatMapSource(miss, names, k);
    TextLookup(db.ips, DeviceOf(), FlatMap(miss, names), f.ipName, k);
  }

  /** No lookup invents a key: a record found under `k` has that key and was asked for. */
  lemma FoundHasKey<R>(ep: Endpoint<R>, values: seq<string>, faults: Faults, k: string)
    requires Determined(ep, ep.records, k) && k in Ask(ep, values, faults).found
    ensures exists r :: r in ep.records && ep.keyOf(r) == Some(k) && ep.field(r).Some?
  {
    FetchedHolds(ep, values, LANDB_IN_CHUNK_SIZE, faults, k);
    HolderMeaning(ep, ep.records, k);
  }

  ghost predicate IpsDegraded(db: Landb, matched: seq<Match>, f: JoinFaults) {
    IpsBySerial(db, matched, f).degraded || IpsByName(db, matched, f).degraded
  }

  /** The name lookup finds no IP record of a device whose name has blanks around it. */
  lemma BlankNameUnasked(db: Landb, matched: seq<Match>, f: JoinFaults, m: Match, k: string)
    requires NameDeterminesDevice(db) && m.dev in db.devices
    requires NoneIfBlank(m.dev.name) == Some(k) && !IsNormal(m.dev.name)
    ensures k !in IpsByName(db, matched, f).found
  {
    var names := UniqueTexts(FlatMap(DevNamesOf(), matched));
    if k in IpsByName(db, matched, f).found {
      FoundHasKey(TextEndpoint(db.ips, DeviceOf()), FlatMap(Missing(IpsBySerial(db, matched, f).found), names),
                  f.ipName, k);
    }
  }

  /** The merged IP table holds, for a matched device, its first IP record, or nothing after
      a failure. */
  lemma IpsHold(db: Landb, matched: seq<Match>, f: JoinFaults, m: Match, k: string)
    requires NameDeterminesDevice(db) && m in matched && NoneIfBlank(m.dev.name) == Some(k) && Findable(db, m.dev)
    ensures Trusted(Got(Ips(db, matched, f), k), IpsDegraded(db, matched, f), FirstIp(db, m.dev))
  {
    IpsBySerialHold(db, matched, f, m, k);
    if k !in IpsBySerial(db, matched, f).found {
      if IsNormal(m.dev.name) {
        IpsByNameHold(db, matched, f, m, k);
      } else {
        BlankNameUnasked(db, matched, f, m, k);
      }
    }
  }

  /** What a matched device contributes: its own item, or nothing after a failure. */
  lemma EnrichHolds(db: Landb, matched: seq<Match>, f: JoinFaults, m: Match)
    requires NameDeterminesDevice(db) && m in matched && Findable(db, m.dev)
    ensures var item := EnrichOne(Ips(db, matched, f))(m);
            item == ItemOf(db, m.eq, m.dev) || (IpsDegraded(db, matched, f) && item == [])
  {
    var k := NoneIfBlank(m.dev.name);
    if k.Some? {
      IpsHold(db, matched, f, m, k.value);
      if k.value in Ips(db, matched, f) { EnrichedItem(db, m, Ips(db, matched, f)); }
    }
  }

  lemma EnrichedItem(db: Landb, m: Match, ips: map<string, IpRecord>)
    requires NoneIfBlank(m.dev.name).Some? && NoneIfBlank(m.dev.name).value in ips
    requires FirstIp(db, m.dev) == Some(ips[NoneIfBlank(m.dev.name).value])
    ensures EnrichOne(ips)(m) == ItemOf(db, m.eq, m.dev)
  {
    var ip := ips[NoneIfBlank(m.dev.name).value];
    NoneIfBlankIsFixed(ip.ipv4);
    NoneIfBlankIsFixed(ip.ipv6);
  }

  // ---- One record of a join, whatever fails ---------------------------------------------------

  /** The join's item for one record. */
  ghost function JoinOne(db: Landb, eam: seq<Equipment>, f: JoinFaults): Equipment -> seq<CachedIp> {
    (eq: Equipment) =>
      FlatMap(EnrichOne(Ips(db, Matched(db, eam, f), f)),
              MatchOne(DevicesBySerial(db, eam, f).found, DevicesByName(db, eam, f).found)(eq))
  }

  lemma JoinIsOneByOne(db: Landb, eam: seq<Equipment>, f: JoinFaults)
    ensures BulkJoin(db, eam, f) == FlatMap(JoinOne(db, eam, f), eam)
  {
    FlatMapCompose(MatchOne(DevicesBySerial(db, eam, f).found, DevicesByName(db, eam, f).found),
                   EnrichOne(Ips(db, Matched(db, eam, f), f)), JoinOne(db, eam, f), eam);
  }

  /** The device the bulk join matches a record with. */
  ghost function Picked(db: Landb, eam: seq<Equipment>, f: JoinFaults, eq: Equipment): Option<Device> {
    var bySerial := HitIn(eq.serialNumber, DevicesBySerial(db, eam, f).found);
    if bySerial.Some? then bySerial else HitIn(eq.description, DevicesByName(db, eam, f).found)
  }

  /** The failure of a serial-number chunk hides the device with the record's serial number. */
  ghost predicate SerialLost(db: Landb, eam: seq<Equipment>, f: JoinFaults, eq: Equipment) {
    SerialDevice(db, eq).Some? && HitIn(eq.serialNumber, DevicesBySerial(db, eam, f).found).None?
  }

  /** The record's item is that of the device it was matched with, or nothing. */
  lemma JoinedItem(db: Landb, eam: seq<Equipment>, f: JoinFaults, eq: Equipment)
    requires NameDeterminesDevice(db) && eq in eam
    requires Picked(db, eam, f, eq).Some? ==> Findable(db, Picked(db, eam, f, eq).value)
    ensures var item, dev := JoinOne(db, eam, f)(eq), Picked(db, eam, f, eq);
            if dev.None? then item == []
            else item == ItemOf(db, eq, dev.value) || (IpsDegraded(db, Matched(db, eam, f), f) && item == [])
  {
    var pick := MatchOne(DevicesBySerial(db, eam, f).found, DevicesByName(db, eam, f).found);
    if Picked(db, eam, f, eq).Some? {
      var m := Match(eq, Picked(db, eam, f, eq).value);
      var i :| 0 <= i < |eam| && eam[i] == eq;
      assert pick(eq) == [m] && m in pick(eam[i]);
      FlatMapSource(pick, eam, m);
      FlatMapOne(EnrichOne(Ips(db, Matched(db, eam, f), f)), m);
      EnrichHolds(db, Matched(db, eam, f), f, m);
    }
  }

  /** Which device a record is matched with, whatever fails. */
  lemma PickedMeaning(db: Landb, eam: seq<Equipment>, f: JoinFaults, eq: Equipment)
    requires eq in eam
    ensures var dev := Picked(db, eam, f, eq);
            && (dev.Some? ==> Findable(db, dev.value))
            && (dev.None? ==> NaiveDevice(db, eq).None? || JoinDegraded(db, eam, f))
            && (dev.Some? ==> dev == if SerialLost(db, eam, f, eq) then NamedDevice(db, eq) else NaiveDevice(db, eq))
            && (SerialLost(db, eam, f, eq) ==> DevicesBySerial(db, eam, f).degraded)
  {
    SerialLookup(db, eam, f, eq);
    FoundIsFindable(db, eq);
    if HitIn(eq.serialNumber, DevicesBySerial(db, eam, f).found).None? {
      NameLookup(db, eam, f, eq);
    }
  }

  /** Every record's item, whatever fails: nothing, or that of its own device, unless the device
      with its serial number was lost; then nothing, or that of the device its description names. */
  lemma PartialItem(db: Landb, eam: seq<Equipment>, f: JoinFaults, eq: Equipment)
    requires NameDeterminesDevice(db) && eq in eam
    ensures var item := JoinOne(db, eam, f)(eq);
            && (item == [] || item == if SerialLost(db, eam, f, eq) then NamedItem(db, eq) else NaiveOne(db)(eq))
            && (!JoinDegraded(db, eam, f) ==> item == NaiveOne(db)(eq))
            && (SerialLost(db, eam, f, eq) ==> DevicesBySerial(db, eam, f).degraded)
  {
    PickedMeaning(db, eam, f, eq);
    JoinedItem(db, eam, f, eq);
  }

  /** With no failed request and device names determining devices, the bulk join is the
      naive per-record lookup, in EAM order. */
  lemma JoinIsNaive(db: Landb, eam: seq<Equipment>, f: JoinFaults)
    requires NameDeterminesDevice(db) && !JoinDegraded(db, eam, f)
    ensures BulkJoin(db, eam, f) == NaiveJoin(db, eam)
  {
    JoinIsOneByOne(db, eam, f);
    forall eq | eq in eam ensures JoinOne(db, eam, f)(eq) == NaiveOne(db)(eq) { PartialItem(db, eam, f, eq); }
    FlatMapSame(JoinOne(db, eam, f), NaiveOne(db), eam);
  }

  /** When no device of a record is lost to a failed serial-number chunk, every item of the
      join is an item of the naive one. */
  lemma PartialJoinIsRight(db: Landb, eam: seq<Equipment>, f: JoinFaults)
    requires NameDeterminesDevice(db) && forall eq :: eq in eam ==> !SerialLost(db, eam, f, eq)
    ensures forall d :: d in BulkJoin(db, eam, f) ==> d in NaiveJoin(db, eam)
  {
    JoinIsOneByOne(db, eam, f);
    forall d | d in BulkJoin(db, eam, f) ensures d in NaiveJoin(db, eam) {
      FlatMapSource(JoinOne(db, eam, f), eam, d);
      var i :| 0 <= i < |eam| && d in JoinOne(db, eam, f)(eam[i]);
      PartialItem(db, eam, f, eam[i]);
      assert d in NaiveOne(db)(eam[i]);
      FlatMapSource(NaiveOne(db), eam, d);
    }
  }

  // ---- When partial joins can be wrong ---------------------------------------------------------

  /** A record whose serial number finds a device is described by a name that finds no other
      item. */
  ghost predicate DescriptionAgrees(db: Landb, eq: Equipment) {
    SerialDevice(db, eq).Some? ==> NamedItem(db, eq) == [] || NamedItem(db, eq) == NaiveOne(db)(eq)
  }

  /** Every item of every join of the snapshot, whatever fails, is its record's own. */
  ghost predicate NeverWrong(db: Landb, eam: seq<Equipment>) {
    forall f, eq :: eq in eam ==> JoinOne(db, eam, f)(eq) == [] || JoinOne(db, eam, f)(eq) == NaiveOne(db)(eq)
  }

  /** Every chunk fails before its first record. */
  function AllFaults(): Faults {
    i => Some(0)
  }

  function NoSerials(): JoinFaults {
    JoinFaults(AllFaults(), NoFaults(), NoFaults(), NoFaults())
  }

  lemma SerialsAreLost(db: Landb, eam: seq<Equipment>)
    ensures DevicesBySerial(db, eam, NoSerials()).found == map[]
    ensures !DevicesByName(db, eam, NoSerials()).degraded
    ensures !IpsDegraded(db, Matched(db, eam, NoSerials()), NoSerials())
  {
    var serials := UniqueTexts(FlatMap(SerialsOf(), eam));
    NothingFetched(TextEndpoint(db.devices, SerialOf()), serials, LANDB_IN_CHUNK_SIZE, AllFaults());
  }

  /** With every serial-number request failing, a record gets the item of the device its
      description names. */
  lemma NamedInstead(db: Landb, eam: seq<Equipment>, eq: Equipment)
    requires NameDeterminesDevice(db) && eq in eam
    ensures JoinOne(db, eam, NoSerials())(eq) == NamedItem(db, eq)
  {
    SerialsAreLost(db, eam);
    NameLookup(db, eam, NoSerials(), eq);
    FoundIsFindable(db, eq);
    JoinedItem(db, eam, NoSerials(), eq);
  }

  /** No failure can give a record another device's data exactly when, for every record whose
      serial number finds a device, its description finds no other item. */
  lemma NeverWrongIff(db: Landb, eam: seq<Equipment>)
    requires NameDeterminesDevice(db)
    ensures NeverWrong(db, eam) <==> forall eq :: eq in eam ==> DescriptionAgrees(db, eq)
  {
    forall eq | eq in eam
      ensures DescriptionAgrees(db, eq) ==>
              forall f :: JoinOne(db, eam, f)(eq) == [] || JoinOne(db, eam, f)(eq) == NaiveOne(db)(eq)
    {
      if DescriptionAgrees(db, eq) {
        forall f ensures JoinOne(db, eam, f)(eq) == [] || JoinOne(db, eam, f)(eq) == NaiveOne(db)(eq) {
          PartialItem(db, eam, f, eq);
        }
      }
    }
    if NeverWrong(db, eam) {
      forall eq | eq in eam ensures DescriptionAgrees(db, eq) {
        NamedInstead(db, eam, eq);
        var f := NoSerials();
        assert JoinOne(db, eam, f)(eq) == [] || JoinOne(db, eam, f)(eq) == NaiveOne(db)(eq);
      }
    }
  }

  /** Such a database: the record has the serial number of one device and the name of another. */
  const TWO_DEVICES: Landb := Landb(
    [Device(Some("a"), Some("s"), NoLocation), Device(Some("b"), Some("t"), NoLocation)],
    [IpRecord(Some("a"), Some("s"), None, Some("1"), None), IpRecord(Some("b"), Some("t"), None, Some("2"), None)])

  const CROSSED: Equipment := Equipment(Some("x"), Some("s"), Some("b"), None, None, None, None, None, None, None, None)

  lemma FirstOfTwo<R>(keyOf: R -> Option<string>, x: R, y: R, k: string)
    ensures FirstWith(keyOf, [x, y], k)
         == if keyOf(x) == Some(k) then Some(x) else if keyOf(y) == Some(k) then Some(y) else None
  {
    assert [x, y][..1] == [x];
    FirstWithOne(keyOf, x, k);
  }

  lemma CrossedDevices()
    ensures SerialDevice(TWO_DEVICES, CROSSED) == Some(TWO_DEVICES.devices[0])
    ensures NamedDevice(TWO_DEVICES, CROSSED) == Some(TWO_DEVICES.devices[1])
  {
    CleanIffFixed(IsSpace, "s");
    CleanIffFixed(IsSpace, "b");
    FirstOfTwo(SerialOf(), TWO_DEVICES.devices[0], TWO_DEVICES.devices[1], "s");
    FirstOfTwo(NameOf(), TWO_DEVICES.devices[0], TWO_DEVICES.devices[1], "b");
    assert "a" != "b" by { assert "a"[0] != "b"[0]; }
  }

  lemma CrossedItem(i: nat)
    requires i < 2
    ensures var item := ItemOf(TWO_DEVICES, CROSSED, TWO_DEVICES.devices[i]);
            |item| == 1 && item[0].equipmentNo == Some("x") && item[0].details.ip == Some(if i == 0 then "1" else "2")
  {
    CleanIffFixed(IsSpace, "x");
    CleanIffFixed(IsSpace, "a");
    CleanIffFixed(IsSpace, "b");
    CleanIffFixed(IsSpace, "1");
    CleanIffFixed(IsSpace, "2");
    FirstOfTwo(DeviceOf(), TWO_DEVICES.ips[0], TWO_DEVICES.ips[1], TWO_DEVICES.devices[i].name.value);
    assert "a" != "b" by { assert "a"[0] != "b"[0]; }
  }

  lemma TwoNamesDiffer()
    ensures NameDeterminesDevice(TWO_DEVICES)
  {
    CleanIffFixed(IsSpace, "a");
    CleanIffFixed(IsSpace, "b");
    assert "a" != "b" by { assert "a"[0] != "b"[0]; }
  }

  /** A failed serial-number request gives that record the other device's address. */
  lemma LostSerialMisleads()
    ensures NameDeterminesDevice(TWO_DEVICES)
    ensures var wrong, right := BulkJoin(TWO_DEVICES, [CROSSED], NoSerials()), NaiveJoin(TWO_DEVICES, [CROSSED]);
            && |wrong| == 1 && wrong[0].equipmentNo == Some("x") && wrong[0].details.ip == Some("2")
            && |right| == 1 && right[0].equipmentNo == Some("x") && right[0].details.ip == Some("1")
  {
    TwoNamesDiffer();
    CrossedDevices();
    CrossedItem(0);
    CrossedItem(1);
    NamedInstead(TWO_DEVICES, [CROSSED], CROSSED);
    JoinIsOneByOne(TWO_DEVICES, [CROSSED], NoSerials());
    FlatMapOne(JoinOne(TWO_DEVICES, [CROSSED], NoSerials()), CROSSED);
    FlatMapOne(NaiveOne(TWO_DEVICES), CROSSED);
  }

  // ---- What any join returns, degraded or not ----------------------------------------------

  /** The EAM snapshot as the primary key and the ORM leave it: codes present, trimmed, distinct. */
  ghost predicate ValidSnapshot(eam: seq<Equipment>) {
    && (forall eq :: eq in eam ==> eq.code.Some? && IsNormal(eq.code))
    && forall i, j :: 0 <= i < j < |eam| ==> eam[i].code != eam[j].code
  }

  lemma EnrichOneMeaning(ips: map<string, IpRecord>, m: Match)
    requires m.eq.code.Some? && IsNormal(m.eq.code)
    ensures |EnrichOne(ips)(m)| <= 1
    ensures forall d :: d in EnrichOne(ips)(m) ==> NormalItem(d) && d.equipmentNo == m.eq.code
  {
    if EnrichOne(ips)(m) != [] {
      EnrichIsNormal(m.eq, ips[NoneIfBlank(m.dev.name).value], m.dev);
    }
  }

  lemma JoinOneMeaning(db: Landb, eam: seq<Equipment>, f: JoinFaults, eq: Equipment)
    requires eq.code.Some? && IsNormal(eq.code)
    ensures |JoinOne(db, eam, f)(eq)| <= 1
    ensures forall d :: d in JoinOne(db, eam, f)(eq) ==> NormalItem(d) && d.equipmentNo == eq.code
  {
    var pick := MatchOne(DevicesBySerial(db, eam, f).found, DevicesByName(db, eam, f).found)(eq);
    var ips := Ips(db, Matched(db, eam, f), f);
    if pick != [] {
      assert pick == [pick[0]] && pick[0].eq == eq;
      FlatMapOne(EnrichOne(ips), pick[0]);
      EnrichOneMeaning(ips, pick[0]);
    }
  }

  /** Items of distinct EAM records, each keyed by its record's code, have distinct ids. */
  lemma ItemsDistinct(one: Equipment -> seq<CachedIp>, eam: seq<Equipment>)
    requires ValidSnapshot(eam)
    requires forall eq :: eq in eam ==>
               |one(eq)| <= 1 && forall d :: d in one(eq) ==> NormalItem(d) && d.equipmentNo == eq.code
    ensures DistinctBy(LandbEntity().getId, FlatMap(one, eam))
    ensures forall d :: d in FlatMap(one, eam) ==> NormalItem(d)
  {
    var id := LandbEntity().getId;
    forall i, j, x, y | 0 <= i < j < |eam| && x in one(eam[i]) && y in one(eam[j]) ensures id(x) != id(y) {
      assert x.equipmentNo == eam[i].code && y.equipmentNo == eam[j].code;
    }
    FlatMapDistinct(one, eam, id);
    forall d | d in FlatMap(one, eam) ensures NormalItem(d) {
      FlatMapSource(one, eam, d);
    }
  }

  /** Even a partial view contains only normal items, at most one per EAM device. */
  lemma JoinItems(db: Landb, eam: seq<Equipment>, f: JoinFaults)
    requires ValidSnapshot(eam)
    ensures forall d :: d in BulkJoin(db, eam, f) ==> NormalItem(d)
    ensures DistinctBy(LandbEntity().getId, BulkJoin(db, eam, f))
  {
    var one := JoinOne(db, eam, f);
    forall eq | eq in eam
      ensures |one(eq)| <= 1 && forall d :: d in one(eq) ==> NormalItem(d) && d.equipmentNo == eq.code
    {
      JoinOneMeaning(db, eam, f, eq);
    }
    ItemsDistinct(one, eam);
    JoinIsOneByOne(db, eam, f);
  }

  // ---- What its items hold -------------------------------------------------------------------

  /** The device bears the record's serial number or is named by its description, and the IP
      record names the device, up to blanks. */
  ghost predicate Related(db: Landb, eq: Equipment, dev: Device, ip: IpRecord) {
    && dev in db.devices && ip in db.ips
    && NoneIfBlank(dev.name).Some? && NoneIfBlank(ip.device) == NoneIfBlank(dev.name)
    && (|| (NoneIfBlank(eq.serialNumber).Some? && NoneIfBlank(dev.serialNumber) == NoneIfBlank(eq.serialNumber))
        || NoneIfBlank(dev.name) == NoneIfBlank(eq.description))
  }

  /** Item `d` is that of record `eq`, and has an address. */
  ghost predicate ItemFrom(db: Landb, eq: Equipment, d: CachedIp) {
    && d.equipmentNo == NoneIfBlank(eq.code) && d.details.ip.Some?
    && exists dev, ip :: Related(db, eq, dev, ip) && Describes(d.details, eq, ip, dev)
  }

  lemma PickedIsRelated(db: Landb, eam: seq<Equipment>, f: JoinFaults, eq: Equipment)
    requires Picked(db, eam, f, eq).Some?
    ensures var dev := Picked(db, eam, f, eq).value;
            && dev in db.devices
            && (|| (NoneIfBlank(eq.serialNumber).Some? && NoneIfBlank(dev.serialNumber) == NoneIfBlank(eq.serialNumber))
                || NoneIfBlank(dev.name) == NoneIfBlank(eq.description))
  {
    if HitIn(eq.serialNumber, DevicesBySerial(db, eam, f).found).Some? {
      FetchedIsStored(TextEndpoint(db.devices, SerialOf()), UniqueTexts(FlatMap(SerialsOf(), eam)), LANDB_IN_CHUNK_SIZE,
                      f.serial, NoneIfBlank(eq.serialNumber).value);
    } else {
      var need := FlatMap(NeedName(DevicesBySerial(db, eam, f).found), eam);
      FetchedIsStored(TextEndpoint(db.devices, NameOf()), UniqueTexts(FlatMap(DescriptionsOf(), need)),
                      LANDB_IN_CHUNK_SIZE, f.name, NoneIfBlank(eq.description).value);
    }
  }

  lemma IpIsStored(db: Landb, matched: seq<Match>, f: JoinFaults, k: string)
    requires k in Ips(db, matched, f)
    ensures Ips(db, matched, f)[k] in db.ips && NoneIfBlank(Ips(db, matched, f)[k].device) == Some(k)
  {
    if k in IpsBySerial(db, matched, f).found {
      FetchedIsStored(IpBySerial(db.ips), UniqueTexts(FlatMap(DevSerialsOf(), matched)), LANDB_IN_CHUNK_SIZE,
                      f.ipSerial, k);
    } else {
      var names := UniqueTexts(FlatMap(DevNamesOf(), matched));
      FetchedIsStored(TextEndpoint(db.ips, DeviceOf()), FlatMap(Missing(IpsBySerial(db, matched, f).found), names),
                      LANDB_IN_CHUNK_SIZE, f.ipName, k);
    }
  }

  lemma EnrichedFrom(db: Landb, eam: seq<Equipment>, f: JoinFaults, eq: Equipment, d: CachedIp)
    requires Picked(db, eam, f, eq).Some?
    requires d in EnrichOne(Ips(db, Matched(db, eam, f), f))(Match(eq, Picked(db, eam, f, eq).value))
    ensures ItemFrom(db, eq, d)
  {
    var dev := Picked(db, eam, f, eq).value;
    var ips := Ips(db, Matched(db, eam, f), f);
    var ip := ips[NoneIfBlank(dev.name).value];
    PickedIsRelated(db, eam, f, eq);
    IpIsStored(db, Matched(db, eam, f), f, NoneIfBlank(dev.name).value);
    EnrichDescribes(eq, ip, dev);
    assert Related(db, eq, dev, ip) && Describes(d.details, eq, ip, dev);
  }

  lemma JoinOneIs(db: Landb, eam: seq<Equipment>, f: JoinFaults, eq: Equipment)
    ensures var dev := Picked(db, eam, f, eq);
            JoinOne(db, eam, f)(eq)
            == if dev.None? then [] else EnrichOne(Ips(db, Matched(db, eam, f), f))(Match(eq, dev.value))
  {
    var dev := Picked(db, eam, f, eq);
    var pick := MatchOne(DevicesBySerial(db, eam, f).found, DevicesByName(db, eam, f).found);
    if dev.Some? {
      assert pick(eq) == [Match(eq, dev.value)];
      FlatMapOne(EnrichOne(Ips(db, Matched(db, eam, f), f)), Match(eq, dev.value));
    } else {
      assert pick(eq) == [];
    }
  }

  lemma JoinedFrom(db: Landb, eam: seq<Equipment>, f: JoinFaults, eq: Equipment, d: CachedIp)
    requires d in JoinOne(db, eam, f)(eq)
    ensures ItemFrom(db, eq, d)
  {
    JoinOneIs(db, eam, f, eq);
    EnrichedFrom(db, eam, f, eq, d);
  }

  /** Every item of every join, whatever failed, is of some EAM record, and its columns are
      those of a device and an IP record stored for that record. */
  lemma ItemsDescribe(db: Landb, eam: seq<Equipment>, f: JoinFaults, d: CachedIp)
    requires d in BulkJoin(db, eam, f)
    ensures exists eq :: eq in eam && ItemFrom(db, eq, d)
  {
    JoinIsOneByOne(db, eam, f);
    FlatMapSource(JoinOne(db, eam, f), eam, d);
    var i :| 0 <= i < |eam| && d in JoinOne(db, eam, f)(eam[i]);
    JoinedFrom(db, eam, f, eam[i], d);
  }

  /** The naive device of a record and its first IP record, when the latter has an address. */
  ghost predicate Addressed(db: Landb, eq: Equipment, dev: Device, ip: IpRecord) {
    && NaiveDevice(db, eq) == Some(dev) && NoneIfBlank(dev.name).Some? && FirstIp(db, dev) == Some(ip)
    && (NoneIfBlank(ip.ipv4).Some? || NoneIfBlank(ip.ipv6).Some?)
  }

  /** The naive item of a record describes it, its device and that device's first IP record. */
  lemma NaiveItemDescribes(db: Landb, eq: Equipment, dev: Device, ip: IpRecord)
    requires Addressed(db, eq, dev, ip)
    ensures |NaiveOne(db)(eq)| == 1 && NaiveOne(db)(eq)[0].equipmentNo == NoneIfBlank(eq.code)
    ensures Describes(NaiveOne(db)(eq)[0].details, eq, ip, dev)
  {
    EnrichDescribes(eq, ip, dev);
  }

  /** And there is one only when there are such a device and IP record. */
  lemma NaiveItemIsAddressed(db: Landb, eq: Equipment)
    ensures NaiveOne(db)(eq) != [] ==> exists dev, ip :: Addressed(db, eq, dev, ip)
  {
    if NaiveOne(db)(eq) != [] {
      var dev := NaiveDevice(db, eq).value;
      assert Addressed(db, eq, dev, FirstIp(db, dev).value);
    }
  }
}
