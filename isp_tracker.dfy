/** `ISPTracker`: the last-known ISP identity, its state file, and the
    change report built each time a new observation arrives. */
module IspTracking {
  import opened Wrappers
  import opened GeoLocation

  /** The four values the tracker remembers; also the content of the state
      file (whose `updated_at` stamp is not modelled). */
  datatype ISPState = ISPState(
    ip: Option<string>,
    isp: Option<string>,
    asn: Option<string>,
    connectionType: Option<string>)

  /** Nothing observed yet: the tracker's state when no state file loads. */
  const ColdState := ISPState(None, None, None, None)

  /** The state a tracker starts from, given what its state file holds
      (`None`: the file is absent or could not be read as a state). */
  function Loaded(contents: Option<ISPState>): (s: ISPState)
    ensures contents.None? ==> s == ColdState
    ensures contents.Some? ==> s == contents.value
  {
    contents.GetOr(ColdState)
  }

  /** The part of a located record that the tracker keeps. */
  function Observed(info: GeoRecord): (s: ISPState)
    ensures s.ip == info.ip && s.isp == info.isp && s.asn == info.asn
    ensures s.connectionType == Label(info.connectionType)
  {
    ISPState(info.ip, info.isp, info.asn, Label(info.connectionType))
  }

  /** The `change_info` dictionary. */
  datatype ChangeReport = ChangeReport(
    changed: bool,
    ipChanged: bool,
    ispChanged: bool,
    asnChanged: bool,
    previousIp: Option<string>,
    previousIsp: Option<string>,
    previousAsn: Option<string>,
    previousConnectionType: Option<string>)

  /** The report for observation `current` against the remembered `last`.
      Only a remembered IP makes a comparison: before the first observation
      nothing counts as a change. */
  function ChangeOf(last: ISPState, current: ISPState): (r: ChangeReport)
    ensures last.ip.None? ==> !r.changed
    ensures r.changed <==> last.ip.Some? && (current.ip, current.isp, current.asn) != (last.ip, last.isp, last.asn)
    ensures (r.previousIp, r.previousIsp, r.previousAsn, r.previousConnectionType)
         == (last.ip, last.isp, last.asn, last.connectionType)
  {
    var compared := last.ip.Some?;
    var ipChanged := compared && current.ip != last.ip;
    var ispChanged := compared && current.isp != last.isp;
    var asnChanged := compared && current.asn != last.asn;
    ChangeReport(ipChanged || ispChanged || asnChanged, ipChanged, ispChanged, asnChanged,
                 last.ip, last.isp, last.asn, last.connectionType)
  }

  /** Cold start: with no remembered IP, no flag is set, whatever is observed. */
  lemma ColdStartReportsNoChange(last: ISPState, current: ISPState)
    requires last.ip.None?
    ensures var r := ChangeOf(last, current);
      !r.changed && !r.ipChanged && !r.ispChanged && !r.asnChanged
  {
  }

  /** With a remembered IP, each flag is set exactly when the value differs
      (`None` against a string is a difference), and `changed` is their
      disjunction. */
  lemma ChangeFlagsExact(last: ISPState, current: ISPState)
    requires last.ip.Some?
    ensures var r := ChangeOf(last, current);
      (r.ipChanged <==> current.ip != last.ip) &&
      (r.ispChanged <==> current.isp != last.isp) &&
      (r.asnChanged <==> current.asn != last.asn) &&
      (r.changed <==> current.ip != last.ip || current.isp != last.isp || current.asn != last.asn)
  {
  }

  /** The exemption is for a missing remembered IP only: losing the IP after
      having one is an IP change. */
  lemma LostIpIsChange(last: ISPState, current: ISPState)
    requires last.ip.Some? && current.ip.None?
    ensures ChangeOf(last, current).ipChanged && ChangeOf(last, current).changed
  {
  }

  /** In every case `changed` is the disjunction of the three flags, the
      connection type never raises a flag, and the previous values are the
      remembered ones. */
  lemma ReportShape(last: ISPState, current: ISPState)
    ensures var r := ChangeOf(last, current);
      r.changed == (r.ipChanged || r.ispChanged || r.asnChanged) &&
      r == ChangeOf(last, current.(connectionType := last.connectionType)) &&
      (r.previousIp, r.previousIsp, r.previousAsn, r.previousConnectionType) ==
        (last.ip, last.isp, last.asn, last.connectionType)
  {
  }

  /** An observation compared against itself reports nothing: the second of
      two calls with the same observation sees the baseline the first wrote. */
  lemma SameObservationNoChange(current: ISPState)
    ensures !ChangeOf(current, current).changed
  {
  }

  /** The state file on disk. `None`: absent, or not readable as a state. */
  class StateFile {
    var contents: Option<ISPState>

    constructor (contents: Option<ISPState>)
      ensures this.contents == contents
    {
      this.contents := contents;
    }
  }

  class ISPTracker {
    var lastIp: Option<string>
    var lastIsp: Option<string>
    var lastAsn: Option<string>
    var lastConnectionType: Option<string>
    const file: StateFile

    /** The remembered values as one state. */
    function Snapshot(): ISPState
      reads this
    {
      ISPState(lastIp, lastIsp, lastAsn, lastConnectionType)
    }

    /** `__init__`: start from nothing, then load the state file. */
    constructor (file: StateFile)
      ensures this.file == file
      ensures Snapshot() == Loaded(file.contents)
    {
      lastIp, lastIsp, lastAsn, lastConnectionType := None, None, None, None;
      this.file := file;
      new;
      LoadState();
    }

    /** `_load_state`: a readable state file replaces all four values; an
        absent or unreadable one leaves them as they are. */
    method LoadState()
      modifies this
      ensures Snapshot() == if file.contents.Some? then file.contents.value else old(Snapshot())
    {
      match file.contents {
        case Some(state) =>
          lastIp := state.ip;
          lastIsp := state.isp;
          lastAsn := state.asn;
          lastConnectionType := state.connectionType;
        case None =>
      }
    }

    /** `_save_state`: overwrite the state file with the four values. A
        failed write (`saveSucceeds` false) is reported and leaves the file
        as it was. */
    method SaveState(saveSucceeds: bool)
      modifies file
      ensures file.contents == if saveSucceeds then Some(Snapshot()) else old(file.contents)
    {
      if saveSucceeds {
        file.contents := Some(ISPState(lastIp, lastIsp, lastAsn, lastConnectionType));
      }
    }

    /** `get_ip_info`, given the two providers' answers: fill the record from
        ipinfo.io, fall back to ip-api.com when that left no IP, then infer
        the connection type from the ISP name. */
    method GetIpInfo(primary: Option<Response>, secondary: Option<Response>) returns (info: GeoRecord)
      ensures info == Locate(primary, secondary)
    {
      info := EmptyRecord;
      if primary.Some? {
        var data := primary.value;
        info := info.(ip := Get(data, "ip"), org := GetOr(data, "org", ""), city := Get(data, "city"),
                      region := Get(data, "region"), country := Get(data, "country"));
        var org := GetOr(data, "org", "");
        if org.Some? {
          var (asn, isp) := ParseOrg(org.value);
          info := info.(asn := asn, isp := Some(isp));
        }
      }
      if !Strings.Truthy(info.ip) && secondary.Some? {
        var data := secondary.value;
        info := info.(ip := Get(data, "query"));
        info := info.(isp := Get(data, "isp"));
        info := info.(asn := AsnToken(Get(data, "as")));
        info := info.(org := Get(data, "org"));
        info := info.(city := Get(data, "city"));
        info := info.(region := Get(data, "regionName"));
        info := info.(country := Get(data, "countryCode"));
      }
      if Strings.Truthy(info.isp) {
        var lowered := Strings.Lower(info.isp.value);
        if Strings.ContainsAny(lowered, CellularKeywords) {
          info := info.(connectionType := Some(Cellular));
        } else if Strings.ContainsAny(lowered, CableKeywords) {
          info := info.(connectionType := Some(Cable));
        } else if Strings.ContainsAny(lowered, FiberKeywords) {
          info := info.(connectionType := Some(Fiber));
        } else if Strings.ContainsAny(lowered, DslKeywords) {
          info := info.(connectionType := Some(Dsl));
        } else {
          info := info.(connectionType := Some(Unknown));
        }
      }
    }

    /** `check_for_change`: report against the remembered values, then
        remember the observation and save it, unconditionally. */
    method CheckForChange(current: GeoRecord, saveSucceeds: bool) returns (report: ChangeReport)
      modifies this, file
      ensures report == ChangeOf(old(Snapshot()), Observed(current))
      ensures Snapshot() == Observed(current)
      ensures file.contents == if saveSucceeds then Some(Observed(current)) else old(file.contents)
    {
      report := ChangeReport(false, false, false, false, lastIp, lastIsp, lastAsn, lastConnectionType);
      var currentIp := current.ip;
      var currentIsp := current.isp;
      var currentAsn := current.asn;
      var currentConnectionType := Label(current.connectionType);
      if lastIp.Some? {
        if currentIp != lastIp {
          report := report.(ipChanged := true, changed := true);
        }
        if currentIsp != lastIsp {
          report := report.(ispChanged := true, changed := true);
        }
        if currentAsn != lastAsn {
          report := report.(asnChanged := true, changed := true);
        }
      }
      lastIp := currentIp;
      lastIsp := currentIsp;
      lastAsn := currentAsn;
      lastConnectionType := currentConnectionType;
      SaveState(saveSucceeds);
    }
  }
}
