/** The pure parts of `ISPTracker.get_ip_info`: normalising the two
    geolocation providers' JSON into one record, and inferring the
    connection type from the ISP name. */
module GeoLocation {
  import opened Wrappers
  import opened Strings

  /** A decoded JSON object: a key that is absent is not in the map, a key
      whose value is `null` maps to `None`. */
  type Response = map<string, Option<string>>

  /** `data.get(key)` */
  function Get(data: Response, key: string): (r: Option<string>)
    ensures key in data ==> r == data[key]
    ensures key !in data ==> r.None?
  {
    if key in data then data[key] else None
  }

  /** `data.get(key, default)` */
  function GetOr(data: Response, key: string, default: string): (r: Option<string>)
    ensures key in data ==> r == data[key]
    ensures key !in data ==> r == Some(default)
  {
    if key in data then data[key] else Some(default)
  }

  datatype ConnectionType = Cellular | Cable | Fiber | Dsl | Unknown
  {
    /** The string stored in the record, the state file and the tags. */
    function Name(): string
    {
      match this
      case Cellular => "cellular"
      case Cable => "cable"
      case Fiber => "fiber"
      case Dsl => "dsl"
      case Unknown => "unknown"
    }
  }

  function Label(t: Option<ConnectionType>): (r: Option<string>)
    ensures r.None? <==> t.None?
  {
    match t
    case None => None
    case Some(c) => Some(c.Name())
  }

  lemma LabelInjective(s: Option<ConnectionType>, t: Option<ConnectionType>)
    ensures Label(s) == Label(t) <==> s == t
  {
  }

  /** The `ip_info` dictionary. */
  datatype GeoRecord = GeoRecord(
    ip: Option<string>,
    isp: Option<string>,
    asn: Option<string>,
    org: Option<string>,
    city: Option<string>,
    region: Option<string>,
    country: Option<string>,
    connectionType: Option<ConnectionType>)

  const EmptyRecord := GeoRecord(None, None, None, None, None, None, None, None)

  const CellularKeywords: seq<string> :=
    ["mobile", "cellular", "wireless", "lte", "5g", "t-mobile", "verizon wireless", "at&t mobility"]
  const CableKeywords: seq<string> := ["cable", "comcast", "xfinity", "spectrum", "cox", "charter"]
  const FiberKeywords: seq<string> := ["fiber", "fios", "att fiber", "google fiber"]
  const DslKeywords: seq<string> := ["dsl", "centurylink", "frontier"]

  /** The keyword groups tried in order on a lower-cased ISP name. */
  function Classify(lowered: string): ConnectionType
  {
    if ContainsAny(lowered, CellularKeywords) then Cellular
    else if ContainsAny(lowered, CableKeywords) then Cable
    else if ContainsAny(lowered, FiberKeywords) then Fiber
    else if ContainsAny(lowered, DslKeywords) then Dsl
    else Unknown
  }

  /** The connection type is inferred only from a truthy ISP name. */
  function InferConnectionType(isp: Option<string>): (t: Option<ConnectionType>)
    ensures t.None? <==> !Truthy(isp)
  {
    if Truthy(isp) then Some(Classify(Lower(isp.value))) else None
  }

  /** The first keyword group that mentions the lower-cased name wins;
      a name that no group mentions is `unknown`. */
  lemma {:induction false} KeywordPrecedence(isp: string)
    requires isp != ""
    ensures var t := InferConnectionType(Some(isp)); var s := Lower(isp);
      (t == Some(Cellular) <==> MentionsAny(s, CellularKeywords)) &&
      (t == Some(Cable) <==> !MentionsAny(s, CellularKeywords) && MentionsAny(s, CableKeywords)) &&
      (t == Some(Fiber) <==>
        !MentionsAny(s, CellularKeywords) && !MentionsAny(s, CableKeywords) &&
        MentionsAny(s, FiberKeywords)) &&
      (t == Some(Dsl) <==>
        !MentionsAny(s, CellularKeywords) && !MentionsAny(s, CableKeywords) &&
        !MentionsAny(s, FiberKeywords) && MentionsAny(s, DslKeywords)) &&
      (t == Some(Unknown) <==>
        !MentionsAny(s, CellularKeywords) && !MentionsAny(s, CableKeywords) &&
        !MentionsAny(s, FiberKeywords) && !MentionsAny(s, DslKeywords))
  {
    var s := Lower(isp);
    ContainsAnyMentions(s, CellularKeywords);
    ContainsAnyMentions(s, CableKeywords);
    ContainsAnyMentions(s, FiberKeywords);
    ContainsAnyMentions(s, DslKeywords);
  }

  /** A name that mentions a cellular keyword is cellular, whatever else it
      mentions (for instance "mobile" together with "cable"). */
  lemma CellularTakesPrecedence(isp: string)
    requires IsSubstring("mobile", Lower(isp))
    ensures InferConnectionType(Some(isp)) == Some(Cellular)
  {
    assert isp != "";
    assert CellularKeywords[0] == "mobile";
    KeywordPrecedence(isp);
  }

  /** The org/ASN split of the first provider's `org`, as (asn, isp): an
      org starting with "AS" gives the text before the first space as the
      ASN and the text after it as the ISP (the whole org when there is no
      space); any other org is the ISP and gives no ASN. */
  function ParseOrg(org: string): (r: (Option<string>, string))
    ensures StartsWith(org, "AS") ==> r.0.Some? && ' ' !in r.0.value
    ensures StartsWith(org, "AS") && ' ' in org ==> org == r.0.value + " " + r.1
    ensures StartsWith(org, "AS") && ' ' !in org ==> r.0 == Some(org) && r.1 == org
    ensures !StartsWith(org, "AS") ==> r == (None, org)
  {
    if StartsWith(org, "AS") then
      var (asn, rest) := SplitOnce(org);
      (Some(asn), if rest.Some? then rest.value else org)
    else
      (None, org)
  }

  /** The ASN of the second provider: the first space-delimited token of a
      truthy `as` value, otherwise none. */
  function AsnToken(asField: Option<string>): (r: Option<string>)
    ensures r.Some? <==> Truthy(asField)
    ensures r.Some? ==> ' ' !in r.value && StartsWith(asField.value, r.value)
    ensures r.Some? && |r.value| < |asField.value| ==> asField.value[|r.value|] == ' '
  {
    if Truthy(asField) then Some(FirstToken(asField.value)) else None
  }

  /** The record filled from an ipinfo.io answer. An `org` that is JSON
      null makes `org.startswith` raise after ip, org, city, region and
      country were set; the handler then leaves isp and asn unset. */
  function FromIpInfo(data: Response): (r: GeoRecord)
    ensures r.ip == Get(data, "ip") && r.org == GetOr(data, "org", "")
    ensures r.connectionType.None?
    ensures r.org.None? ==> r.isp.None? && r.asn.None?
    ensures r.org.Some? ==> (r.asn, r.isp) == (ParseOrg(r.org.value).0, Some(ParseOrg(r.org.value).1))
  {
    var org := GetOr(data, "org", "");
    var filled := GeoRecord(Get(data, "ip"), None, None, org,
                            Get(data, "city"), Get(data, "region"), Get(data, "country"), None);
    match org
    case None => filled
    case Some(o) =>
      var (asn, isp) := ParseOrg(o);
      filled.(asn := asn, isp := Some(isp))
  }

  /** The record filled from an ip-api.com answer; every field is
      overwritten, with the values ip-api.com names differently. */
  function FromIpApi(data: Response): (r: GeoRecord)
    ensures r.connectionType.None?
  {
    GeoRecord(Get(data, "query"), Get(data, "isp"), AsnToken(Get(data, "as")), Get(data, "org"),
              Get(data, "city"), Get(data, "regionName"), Get(data, "countryCode"), None)
  }

  /** The record after the first provider's step; `None` stands for an
      answer that was not 200, could not be fetched or was not JSON. */
  function FirstProvider(primary: Option<Response>): (r: GeoRecord)
    ensures primary.None? ==> r == EmptyRecord
    ensures primary.Some? ==> r.ip == Get(primary.value, "ip")
    ensures r.connectionType.None?
  {
    match primary
    case None => EmptyRecord
    case Some(data) => FromIpInfo(data)
  }

  /** What `get_ip_info` returns, given the two providers' answers. */
  function Locate(primary: Option<Response>, secondary: Option<Response>): (r: GeoRecord)
    ensures r.connectionType == InferConnectionType(r.isp)
  {
    var first := FirstProvider(primary);
    var merged := if !Truthy(first.ip) && secondary.Some? then FromIpApi(secondary.value) else first;
    merged.(connectionType := InferConnectionType(merged.isp))
  }

  /** When the first provider yields an IP, the second is never consulted. */
  lemma PrimaryIpWins(primary: Option<Response>, s1: Option<Response>, s2: Option<Response>)
    requires Truthy(FirstProvider(primary).ip)
    ensures Locate(primary, s1) == Locate(primary, s2)
    ensures Locate(primary, s1).ip == FirstProvider(primary).ip
    ensures Locate(primary, s1).isp == FirstProvider(primary).isp
    ensures Locate(primary, s1).asn == FirstProvider(primary).asn
  {
  }

  /** When the first provider yields no IP and the second answers, the
      second provider's fields replace everything the first one set. */
  lemma FallbackReplacesAll(p1: Option<Response>, p2: Option<Response>, data: Response)
    requires !Truthy(FirstProvider(p1).ip) && !Truthy(FirstProvider(p2).ip)
    ensures Locate(p1, Some(data)) == Locate(p2, Some(data))
    ensures Locate(p1, Some(data)).ip == Get(data, "query")
    ensures Locate(p1, Some(data)).isp == Get(data, "isp")
    ensures Locate(p1, Some(data)).asn == AsnToken(Get(data, "as"))
  {
  }

  /** When neither provider yields an IP, the first provider's partial
      values stay. */
  lemma NoSecondAnswerKeepsFirst(primary: Option<Response>)
    requires !Truthy(FirstProvider(primary).ip)
    ensures Locate(primary, None).(connectionType := None) == FirstProvider(primary)
  {
  }

  lemma ParseOrgWithAsn()
    ensures ParseOrg("AS7922 Comcast Cable") == (Some("AS7922"), "Comcast Cable")
  {
    var org := "AS7922 Comcast Cable";
    assert StartsWith(org, "AS");
    SplitOnceAt(org, "AS7922", "Comcast Cable");
    assert SplitOnce(org).1 == Some("Comcast Cable");
  }

  lemma ParseOrgWithoutAsn()
    ensures ParseOrg("Private Network LLC") == (None, "Private Network LLC")
  {
  }

  lemma VerizonWirelessIsCellular()
    ensures InferConnectionType(Some("Verizon Wireless")) == Some(Cellular)
  {
    var s := "verizon wireless";
    assert Lower("Verizon Wireless") == s;
    assert !ContainsFrom(s, "mobile", 6);
    assert !ContainsFrom(s, "cellular", 4);
    assert ContainsFrom(s, "wireless", 8);
    assert ContainsAny(s, CellularKeywords);
  }

  /** A name spelled with the Kelvin sign still mentions its DSL keyword. */
  lemma KelvinSignSpellsKeyword()
    ensures Contains(Lower("CENTURYLIN\U{212A}"), "centurylink")
  {
    assert Lower("CENTURYLIN\U{212A}") == "centurylink";
  }

  /** "comcast cable" mentions none of the first four cellular keywords. */
  lemma ComcastCableNotCellularWords()
    ensures !(Contains("comcast cable", "mobile") || Contains("comcast cable", "cellular") ||
              Contains("comcast cable", "wireless") || Contains("comcast cable", "lte"))
  {
    var s := "comcast cable";
    assert !ContainsFrom(s, "mobile", 4);
    assert !ContainsFrom(s, "cellular", 3);
    assert !ContainsFrom(s, "wireless", 3);
    assert !ContainsFrom(s, "lte", 6);
  }

  /** "comcast cable" mentions no cellular keyword. */
  lemma ComcastCableNotCellular()
    ensures !ContainsAny("comcast cable", CellularKeywords)
  {
    var s := "comcast cable";
    ComcastCableNotCellularWords();
    assert !ContainsFrom(s, "5g", 6) && !Contains(s, "5g");
    assert !ContainsFrom(s, "t-mobile", 3) && !Contains(s, "t-mobile");
    assert !Contains(s, "verizon wireless");
    assert !ContainsFrom(s, "at&t mobility", 0);
    assert !ContainsAnyFrom(s, CellularKeywords, 4);
  }

  lemma ComcastCableIsCable()
    ensures InferConnectionType(Some("Comcast Cable")) == Some(Cable)
  {
    var s := "comcast cable";
    assert Lower("Comcast Cable") == s;
    ComcastCableNotCellular();
    assert ContainsFrom(s, "cable", 8) && Contains(s, "cable");
    assert ContainsAny(s, CableKeywords);
  }
}
