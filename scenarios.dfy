/** Clients of the model: whole cycles over concrete provider answers,
    established by the verifier from the contracts alone. */
module Scenarios {
  import opened Wrappers
  import opened Strings
  import opened GeoLocation
  import opened IspTracking
  import opened Metrics
  import opened TestCycle

  const AnyResult := SpeedtestResult(Some("Server"), Some("City"), Some("US"), Some("Tool ISP"),
    Some("9.9.9.9"), None, Some(250.0), Some(20.0), Some(31250000), Some(2500000), Some(12.5),
    Some(1.5), Some(11.0), Some(14.0), None, None, None)

  /** ipinfo.io's answer on a Comcast line. */
  const ComcastAnswer: Response := map["ip" := Some("1.2.3.4"), "org" := Some("AS7922 Comcast")]

  /** ip-api.com's answer on a Verizon Wireless line. */
  const VerizonAnswer: Response :=
    map["query" := Some("5.6.7.8"), "isp" := Some("Verizon Wireless"), "as" := Some("AS6167 Cellco Partnership")]

  /** "comcast" mentions no cellular keyword. */
  lemma ComcastNotCellular()
    ensures !ContainsAny("comcast", CellularKeywords)
  {
    var s := "comcast";
    assert !Contains(s, "mobile") && !Contains(s, "cellular") && !Contains(s, "wireless");
    assert !Contains(s, "lte") && !Contains(s, "5g") && !Contains(s, "t-mobile");
    assert !Contains(s, "verizon wireless") && !Contains(s, "at&t mobility");
  }

  lemma ComcastIsCable()
    ensures InferConnectionType(Some("Comcast")) == Some(Cable)
  {
    var s := "comcast";
    assert Lower("Comcast") == s;
    ComcastNotCellular();
    assert !Contains(s, "cable") && Contains(s, "comcast");
    assert ContainsAny(s, CableKeywords);
  }

  lemma ComcastFirstProvider()
    ensures FirstProvider(Some(ComcastAnswer)) ==
      GeoRecord(Some("1.2.3.4"), Some("Comcast"), Some("AS7922"), Some("AS7922 Comcast"), None, None, None, None)
  {
    var data := ComcastAnswer;
    assert data.Keys == {"ip", "org"};
    assert Get(data, "ip") == Some("1.2.3.4");
    assert GetOr(data, "org", "") == Some("AS7922 Comcast");
    assert "city" !in data && "region" !in data && "country" !in data;
    assert StartsWith("AS7922 Comcast", "AS");
    SplitOnceAt("AS7922 Comcast", "AS7922", "Comcast");
    assert ParseOrg("AS7922 Comcast") == (Some("AS7922"), "Comcast");
  }

  lemma ComcastLocated()
    ensures Locate(Some(ComcastAnswer), None) ==
      GeoRecord(Some("1.2.3.4"), Some("Comcast"), Some("AS7922"), Some("AS7922 Comcast"), None, None, None, Some(Cable))
  {
    ComcastFirstProvider();
    ComcastIsCable();
  }

  lemma VerizonAsn()
    ensures AsnToken(Some("AS6167 Cellco Partnership")) == Some("AS6167")
  {
    SplitOnceAt("AS6167 Cellco Partnership", "AS6167", "Cellco Partnership");
  }

  lemma VerizonFromIpApi()
    ensures FromIpApi(VerizonAnswer) ==
      GeoRecord(Some("5.6.7.8"), Some("Verizon Wireless"), Some("AS6167"), None, None, None, None, None)
  {
    var data := VerizonAnswer;
    assert data.Keys == {"query", "isp", "as"};
    assert Get(data, "query") == Some("5.6.7.8");
    assert Get(data, "isp") == Some("Verizon Wireless");
    assert Get(data, "as") == Some("AS6167 Cellco Partnership");
    assert "org" !in data && "city" !in data && "regionName" !in data && "countryCode" !in data;
    VerizonAsn();
  }

  lemma VerizonLocated()
    ensures Locate(None, Some(VerizonAnswer)) ==
      GeoRecord(Some("5.6.7.8"), Some("Verizon Wireless"), Some("AS6167"), None, None, None, None, Some(Cellular))
  {
    VerizonFromIpApi();
    VerizonWirelessIsCellular();
  }

  /** First run ever: no state file, a measurement succeeds. One
      `speedtest` point, no change event, and the state file now holds the
      observation. */
  method FirstRunRecordsBaseline()
  {
    var file := new StateFile(None);
    var runner := new SpeedtestRunner(file);
    ComcastLocated();
    var info, report := runner.RunTestCycle(Some(ComcastAnswer), None, true, Some(AnyResult));
    assert !report.changed;
    assert Names(runner.writer.points) == ["speedtest"];
    assert file.contents == Some(ISPState(Some("1.2.3.4"), Some("Comcast"), Some("AS7922"), Some("cable")));
  }

  /** The connection moves from Comcast to Verizon Wireless; ipinfo.io is
      unreachable, so ip-api.com supplies the record. Both points are
      written and the change is classified cellular. */
  method IspChangeIsReported()
  {
    var file := new StateFile(Some(ISPState(Some("1.2.3.4"), Some("Comcast"), None, None)));
    var runner := new SpeedtestRunner(file);
    VerizonLocated();
    var info, report := runner.RunTestCycle(None, Some(VerizonAnswer), true, Some(AnyResult));
    assert info.connectionType == Some(Cellular);
    assert report.changed && report.ipChanged && report.ispChanged && report.asnChanged;
    assert report.previousIsp == Some("Comcast");
    assert Names(runner.writer.points) == ["speedtest", "isp_change"];
  }

  /** The speedtest fails: exactly one `speedtest_error` point, and the
      tracker still records the observation. */
  method FailedSpeedtestWritesMarker()
  {
    var file := new StateFile(Some(ISPState(Some("1.2.3.4"), Some("Comcast"), Some("AS7922"), Some("cable"))));
    var runner := new SpeedtestRunner(file);
    var info, report := runner.RunTestCycle(None, None, true, None);
    assert info == EmptyRecord.(connectionType := None);
    assert report.changed && report.ipChanged;
    assert Names(runner.writer.points) == ["speedtest_error"];
    assert runner.writer.points[0].fields == map["error" := Some(IntValue(1))];
    assert file.contents == Some(ColdState);
  }

  /** Two checks in a row with the same record: the second reports no
      change, whatever the first did. */
  method SecondCheckIsQuiet(file: StateFile, info: GeoRecord, saveSucceeds: bool)
    modifies file
  {
    var tracker := new ISPTracker(file);
    var first := tracker.CheckForChange(info, saveSucceeds);
    var second := tracker.CheckForChange(info, saveSucceeds);
    assert !second.changed;
  }

  /** A saved observation survives a restart: a tracker built over the same
      file starts from it and sees no change for the same record. */
  method RestartKeepsBaseline(file: StateFile, info: GeoRecord)
    modifies file
  {
    var before := new ISPTracker(file);
    var first := before.CheckForChange(info, true);
    var after := new ISPTracker(file);
    assert after.Snapshot() == Observed(info);
    var second := after.CheckForChange(info, true);
    assert !second.changed && second.previousIp == info.ip;
  }
}
