/** SNMP targets and the results of the collection stages. */
module Targets {
  import opened Common
  import opened Text

  datatype Target = Target(
    equipmentNo: Option<string>, ip: Option<string>,
    building: Option<string>, room: Option<string>, eqClass: Option<string>,
    manufacturer: Option<string>, model: Option<string>, category: Option<string>, hostname: Option<string>)

  datatype PingResult = PingResult(equipmentNo: Option<string>, up: bool, rttMs: Option<real>)
  datatype ProbeResult = ProbeResult(equipmentNo: Option<string>, up: bool)

  // ---- Stats of one query, after numeric conversion -------------------------------

  datatype PduStat =
    | InputStatus | Healthy | ActivePowerWatts | LineCurrentAmps | CurrentUtilizedPct | VoltageVolts
    | UptimeSeconds | EnergyKwh | FrequencyHz | PowerFactor | ApparentPowerVa | OutOfBalancePct
    | ActivePowerStatus | PowerFactorStatus | BalanceStatus | LoadStatus | PqSeverity

  datatype PduInfo =
    | Firmware | InputStatusInfo | ActivePowerStatusInfo | PowerFactorStatusInfo | BalanceStatusInfo | LoadStatusInfo

  datatype Sensor = Sensor(index: Option<int>, reading: Option<real>, name: Option<string>)

  datatype Outlet = Outlet(
    index: Option<int>, state: Option<real>, current: Option<real>, power: Option<real>, energy: Option<real>,
    name: Option<string>)

  datatype Iface = Iface(
    ifindex: Option<int>, operStatus: Option<real>, inOctets: Option<real>, outOctets: Option<real>,
    inErrors: Option<real>, outErrors: Option<real>, ifdescr: Option<string>)

  /** A query's family and stats; a stat that is missing or not numeric is absent. */
  datatype Query =
    | Projector(lampHours: Option<real>, projectorUptime: Option<real>, powerStatus: Option<real>,
                firmware: Option<string>)
    | Pdu(numbers: map<PduStat, real>, texts: map<PduInfo, string>,
          temperature: seq<Sensor>, humidity: seq<Sensor>, outlets: seq<Outlet>)
    | Codec(codecUptime: Option<real>)
    | Matrix(matrixUptime: Option<real>)

  datatype QueryResult = QueryResult(equipmentNo: Option<string>, query: Query)
  datatype InterfaceResult = InterfaceResult(equipmentNo: Option<string>, interfaces: seq<Iface>)

  /** Python truthiness of optional text. */
  predicate Truthy(v: Option<string>) {
    v.Some? && v.value != ""
  }

  // ---- Loading targets ----------------------------------------------------------------

  function BeforeSlash(s: string): string {
    if s == "" || s[0] == '/' then "" else [s[0]] + BeforeSlash(s[1..])
  }

  /** A CIDR's address part: everything before the first slash. */
  lemma {:induction false} BeforeSlashMeaning(s: string)
    ensures BeforeSlash(s) <= s && '/' !in BeforeSlash(s)
    ensures BeforeSlash(s) == s || s[|BeforeSlash(s)|] == '/'
  {
    if s != "" && s[0] != '/' {
      BeforeSlashMeaning(s[1..]);
      assert s == [s[0]] + s[1..];
    }
  }

  /** The normalised target of a cached row, or nothing when its key or address is blank. */
  function LoadOne(t: Target): seq<Target> {
    var eq, ip := NoneIfBlank(t.equipmentNo), NoneIfBlank(t.ip);
    if eq.None? || ip.None? then []
    else
      var bare := NoneIfBlank(Some(BeforeSlash(ip.value)));
      if bare.None? then [] else [t.(equipmentNo := eq, ip := bare)]
  }

  function Loader(): Target -> seq<Target> {
    (t: Target) => LoadOne(t)
  }

  /** `bare` is what trimming leaves of the part of an address before its first slash. */
  ghost predicate BareAddress(ip: string, bare: Option<string>) {
    exists n: nat :: FirstSlash(ip, n) && bare == NoneIfBlank(Some(ip[..n]))
  }

  /** The text has its first slash at `n`, or none and ends there. */
  ghost predicate FirstSlash(ip: string, n: nat) {
    n <= |ip| && (forall i :: 0 <= i < n ==> ip[i] != '/') && (n == |ip| || ip[n] == '/')
  }

  /** Row `row` loads as target `t`: with its trimmed number and bare address, both of which are
      there, and everything else as it is. */
  ghost predicate LoadsAs(row: Target, t: Target) {
    && t.equipmentNo.Some? && t.equipmentNo == NoneIfBlank(row.equipmentNo)
    && t.ip.Some? && NoneIfBlank(row.ip).Some? && BareAddress(NoneIfBlank(row.ip).value, t.ip)
    && t == row.(equipmentNo := t.equipmentNo, ip := t.ip)
  }

  lemma OneBareAddress(ip: string, a: Option<string>, b: Option<string>)
    requires BareAddress(ip, a) && BareAddress(ip, b)
    ensures a == b
  {
    var m: nat :| FirstSlash(ip, m) && a == NoneIfBlank(Some(ip[..m]));
    var n: nat :| FirstSlash(ip, n) && b == NoneIfBlank(Some(ip[..n]));
    assert m == n;
  }

  lemma BeforeSlashIsBare(ip: string)
    ensures BareAddress(ip, NoneIfBlank(Some(BeforeSlash(ip))))
  {
    BeforeSlashMeaning(ip);
    var n := |BeforeSlash(ip)|;
    assert ip[..n] == BeforeSlash(ip);
    assert forall i :: 0 <= i < n ==> ip[i] == BeforeSlash(ip)[i];
    assert FirstSlash(ip, n);
  }

  lemma LoadOneMeaning(row: Target)
    ensures |LoadOne(row)| <= 1 && forall t :: t in LoadOne(row) <==> LoadsAs(row, t)
  {
    if NoneIfBlank(row.ip).Some? {
      var ip := NoneIfBlank(row.ip).value;
      BeforeSlashIsBare(ip);
      forall t | LoadsAs(row, t) ensures t.ip == NoneIfBlank(Some(BeforeSlash(ip))) {
        OneBareAddress(ip, t.ip, NoneIfBlank(Some(BeforeSlash(ip))));
      }
    }
  }

  /** The targets are those of the rows that load. */
  lemma {:induction false} LoadedIff(rows: seq<Target>, t: Target)
    ensures t in FlatMap(Loader(), rows) <==> exists row :: row in rows && LoadsAs(row, t)
  {
    if rows != [] {
      LoadedIff(rows[..|rows| - 1], t);
      LoadOneMeaning(rows[|rows| - 1]);
    }
  }

  method LoadTargets(rows: seq<Target>) returns (out: seq<Target>)
    ensures out == FlatMap(Loader(), rows)
    ensures ValidTargets(out) && forall t :: t in out ==> '/' !in t.ip.value
    ensures forall t :: t in out <==> exists row :: row in rows && LoadsAs(row, t)
  {
    out := AppendAll(Loader(), rows);
    forall t ensures t in out <==> exists row :: row in rows && LoadsAs(row, t) { LoadedIff(rows, t); }
    forall t | t in out ensures ValidTarget(t) && '/' !in t.ip.value {
      FlatMapSource(Loader(), rows, t);
      var i :| 0 <= i < |rows| && t in Loader()(rows[i]);
      LoadedIsValid(rows[i]);
    }
  }

  /** Key and address present and trimmed. */
  ghost predicate ValidTarget(t: Target) {
    t.equipmentNo.Some? && t.ip.Some? && NoneIfBlank(t.equipmentNo) == t.equipmentNo && NoneIfBlank(t.ip) == t.ip
  }

  ghost predicate ValidTargets(ts: seq<Target>) {
    forall t :: t in ts ==> ValidTarget(t)
  }

  lemma LoadedIsValid(t: Target)
    ensures forall u :: u in LoadOne(t) ==> ValidTarget(u) && '/' !in u.ip.value
  {
    NoneIfBlankIsFixed(t.equipmentNo);
    if NoneIfBlank(t.ip).Some? {
      var bare := BeforeSlash(NoneIfBlank(t.ip).value);
      NoneIfBlankIsFixed(Some(bare));
      BeforeSlashMeaning(NoneIfBlank(t.ip).value);
      var i, j := TrimMeaning(IsSpace, bare);
    }
  }
}
