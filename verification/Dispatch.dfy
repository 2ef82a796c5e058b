/** Which handler class a target gets, by equipment class, manufacturer and model, and which
    query family its answer is read as. */
module Dispatch {
  import opened Common
  import opened Text
  import opened Targets

  /** What a handler class's stats request asks the device for. The codec and matrix classes
      ask the same; the generic one asks nothing. */
  datatype Fetcher = EpsonGet | Sentry4Get | Sentry3Get | UptimeGet | NoGet

  datatype Family = ProjectorFamily | PduFamily | CodecFamily | MatrixFamily

  function UpperChar(c: char): char {
    if 'a' <= c <= 'z' then c - 'a' + 'A' else c
  }

  /** `v.strip().upper()`, or the default for a missing or empty text. */
  function Code(v: Option<string>, default: string): string {
    var s := Strip(if Truthy(v) then v.value else default);
    seq(|s|, i requires 0 <= i < |s| => UpperChar(s[i]))
  }

  /** `part in s` on texts. */
  predicate Contains(s: string, part: string) {
    part <= s || (s != "" && Contains(s[1..], part))
  }

  function WithoutPrefix(s: string, prefix: string): string {
    if prefix <= s then Strip(s[|prefix|..]) else s
  }

  function PduModel(model: Option<string>): string {
    WithoutPrefix(WithoutPrefix(WithoutPrefix(Code(model, ""), "SERVERTECH "), "GLOBALSERVERTECH "), "MFG-")
  }

  function PduFetcher(brand: string, model: Option<string>): Fetcher {
    if brand !in {"STECH", "SERVERTECH", "GLOBALSERVERTECH"} && !Contains(Code(model, ""), "SERVERTECH") then NoGet
    else if "CW" <= PduModel(model) then Sentry4Get
    else if "AA" <= PduModel(model) then Sentry3Get
    else NoGet
  }

  /** The handler a target's own attributes select. */
  function FetcherOf(t: Target): Fetcher {
    var eqClass, brand := Code(t.eqClass, "AVD"), Code(t.manufacturer, "");
    if eqClass == "AVD" then
      if brand in {"", "EPS", "EPSON"} then EpsonGet else NoGet
    else if eqClass == "AVS" then PduFetcher(brand, t.model)
    else if eqClass == "AVV" then
      if brand in {"CISCO", "CISC01", "POLC", "POLY", "POLYCOM", "RADV", "RADVISION"} then UptimeGet else NoGet
    else if eqClass in {"AVA", "AVVS"} then
      if brand in {"EXT", "EXTRON"} then UptimeGet else NoGet
    else NoGet
  }

  /** The first query spec that matches, if any; a target without one is not queried. */
  function FamilyOf(t: Target): Option<Family> {
    var eqClass, category := Code(t.eqClass, ""), Code(t.category, "");
    if "AVD" <= eqClass && Contains(category, "AV-PRO") then Some(ProjectorFamily)
    else if "AVS" <= eqClass then Some(PduFamily)
    else if "AVV" <= eqClass && !("AVVS" <= eqClass) then Some(CodecFamily)
    else if "AVA" <= eqClass || "AVVS" <= eqClass then Some(MatrixFamily)
    else None
  }

  // ---- The dispatch by its result -----------------------------------------------------

  predicate IsServertech(t: Target) {
    Code(t.manufacturer, "") in {"STECH", "SERVERTECH", "GLOBALSERVERTECH"} || Contains(Code(t.model, ""), "SERVERTECH")
  }

  /** Which targets are asked what: projectors of class AVD, also the class of targets without
      one, by Epson or nobody; Server Technology PDUs of class AVS by their model's series; codecs
      and matrices of known makes for their uptime; all others nothing. */
  lemma WhoIsAsked(t: Target)
    ensures var c, b := Code(t.eqClass, "AVD"), Code(t.manufacturer, "");
            && (FetcherOf(t).EpsonGet? <==> c == "AVD" && (b == "" || b == "EPS" || b == "EPSON"))
            && (FetcherOf(t).Sentry4Get? <==> c == "AVS" && IsServertech(t) && "CW" <= PduModel(t.model))
            && (FetcherOf(t).Sentry3Get? <==> c == "AVS" && IsServertech(t) && "AA" <= PduModel(t.model))
            && (FetcherOf(t).UptimeGet? <==>
                  || (c == "AVV" && b in {"CISCO", "CISC01", "POLC", "POLY", "POLYCOM", "RADV", "RADVISION"})
                  || ((c == "AVA" || c == "AVVS") && (b == "EXT" || b == "EXTRON")))
  {
    ClassesDiffer();
    assert "CW"[0] == 'C' && "AA"[0] == 'A';
  }

  /** A bare model name: no blanks around it, and no vendor in front. */
  ghost predicate Bare(m: string) {
    Strip(m) == m && !("SERVERTECH " <= m) && !("GLOBALSERVERTECH " <= m) && !("MFG-" <= m)
  }

  /** A vendor in front of a bare model name is dropped. */
  lemma PduModelMeaning(model: Option<string>, m: string)
    requires Bare(m)
    ensures Code(model, "") == m ==> PduModel(model) == m
    ensures Code(model, "") == "SERVERTECH " + m ==> PduModel(model) == m
    ensures Code(model, "") == "GLOBALSERVERTECH " + m ==> PduModel(model) == m
    ensures Code(model, "") == "MFG-" + m ==> PduModel(model) == m
  {
    var c := Code(model, "");
    assert "SERVERTECH "[0] == 'S' && "GLOBALSERVERTECH "[0] == 'G' && "MFG-"[0] == 'M';
    if c == "SERVERTECH " + m { assert c[|"SERVERTECH "|..] == m; }
    if c == "GLOBALSERVERTECH " + m { assert c[|"GLOBALSERVERTECH "|..] == m; }
    if c == "MFG-" + m { assert c[|"MFG-"|..] == m; }
  }

  lemma ClassesDiffer()
    ensures "AVD" != "AVS" && "AVD" != "AVV" && "AVS" != "AVV" && "AVA" !in {"AVD", "AVS", "AVV"}
    ensures "AVVS" !in {"AVD", "AVS", "AVV", "AVA"}
  {
    assert "AVD"[2] == 'D' && "AVS"[2] == 'S' && "AVV"[2] == 'V' && "AVA"[2] == 'A' && |"AVVS"| == 4;
  }

  /** The query specs exclude one another, so their order does not matter: each target is queried
      as the one family whose spec it matches. */
  lemma FamiliesExclude(t: Target)
    ensures var c, g := Code(t.eqClass, ""), Code(t.category, "");
            && (FamilyOf(t) == Some(ProjectorFamily) <==> "AVD" <= c && Contains(g, "AV-PRO"))
            && (FamilyOf(t) == Some(PduFamily) <==> "AVS" <= c)
            && (FamilyOf(t) == Some(CodecFamily) <==> "AVV" <= c && !("AVVS" <= c))
            && (FamilyOf(t) == Some(MatrixFamily) <==> "AVA" <= c || "AVVS" <= c)
  {
    var c := Code(t.eqClass, "");
    ClassesDiffer();
    PrefixesExclude(c, "AVD", "AVS");
    PrefixesExclude(c, "AVD", "AVV");
    PrefixesExclude(c, "AVD", "AVA");
    PrefixesExclude(c, "AVS", "AVV");
    PrefixesExclude(c, "AVS", "AVA");
    PrefixesExclude(c, "AVV", "AVA");
    LongerPrefix(c);
  }

  lemma PrefixesExclude(s: string, a: string, b: string)
    requires |a| == |b|
    ensures a <= s && b <= s ==> a == b
  {
    if a <= s && b <= s { assert a == s[..|a|] == b; }
  }

  lemma LongerPrefix(s: string)
    ensures "AVVS" <= s ==> "AVV" <= s
  {
    assert "AVVS"[..3] == "AVV";
    if "AVVS" <= s { assert s[..4] == "AVVS" && s[..3] == s[..4][..3]; }
  }

  ghost predicate PartAt(s: string, part: string, i: nat) {
    i + |part| <= |s| && s[i..i + |part|] == part
  }

  /** `part in s`: the part stands somewhere in the text. */
  lemma {:induction false} ContainsMeaning(s: string, part: string)
    ensures Contains(s, part) <==> exists i: nat :: PartAt(s, part, i)
  {
    PrefixAtStart(s, part);
    if s != "" {
      ContainsMeaning(s[1..], part);
      if i: nat :| PartAt(s[1..], part, i) {
        assert s[1..][i..i + |part|] == s[i + 1..i + 1 + |part|];
        assert PartAt(s, part, i + 1);
      }
      if i: nat :| PartAt(s, part, i) && i > 0 {
        assert s[1..][i - 1..i - 1 + |part|] == s[i..i + |part|];
        assert PartAt(s[1..], part, i - 1);
      }
    }
  }

  lemma PrefixAtStart(s: string, part: string)
    ensures part <= s <==> PartAt(s, part, 0)
  {
    if part <= s { assert s[..|part|] == part; }
    if PartAt(s, part, 0) { assert s[..|part|] == s[0..|part|]; }
  }

  /** A code is the text without blanks around it, upper-cased; a missing text is the default's. */
  lemma CodeMeaning(v: Option<string>, default: string, i: nat)
    ensures var s := Strip(if Truthy(v) then v.value else default);
            && |Code(v, default)| == |s|
            && (i < |s| ==> Code(v, default)[i] == if 'a' <= s[i] <= 'z' then s[i] - 'a' + 'A' else s[i])
  {
    var s := Strip(if Truthy(v) then v.value else default);
    if i < |s| { assert Code(v, default)[i] == UpperChar(s[i]); }
  }

  /** The readings a handler returns; absent ones were not asked for or not answered. */
  datatype Stats = Stats(
    lampHours: Option<real>, powerStatus: Option<real>, numbers: map<PduStat, real>, texts: map<PduInfo, string>,
    temperature: seq<Sensor>, humidity: seq<Sensor>, outlets: seq<Outlet>)

  function Uptime(s: Stats): Option<real> {
    if UptimeSeconds in s.numbers then Some(s.numbers[UptimeSeconds]) else None
  }

  function FirmwareText(s: Stats): Option<string> {
    if Firmware in s.texts then Some(s.texts[Firmware]) else None
  }

  /** The readings the encoder takes from the stats of a family. */
  function ReadAs(family: Family, s: Stats): Query {
    var uptime := Uptime(s);
    match family
    case ProjectorFamily => Projector(s.lampHours, uptime, s.powerStatus, FirmwareText(s))
    case PduFamily => Pdu(s.numbers, s.texts, s.temperature, s.humidity, s.outlets)
    case CodecFamily => Codec(uptime)
    case MatrixFamily => Matrix(uptime)
  }
}
