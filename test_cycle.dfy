/** `SpeedtestRunner`: one test cycle locates the connection, checks it for
    an ISP change, and writes either the measurement (and the change event,
    if any) or an error marker. */
module TestCycle {
  import opened Wrappers
  import opened GeoLocation
  import opened IspTracking
  import opened Metrics

  /** The values of a successful speedtest that the written point reads.
      `downloadMbps`/`uploadMbps` are `None` when the dictionary lacks the
      key (the bandwidth was falsy); every other entry is always present in
      the dictionary and may hold `None`. */
  datatype SpeedtestResult = SpeedtestResult(
    serverName: Option<string>,
    serverLocation: Option<string>,
    serverCountry: Option<string>,
    isp: Option<string>,
    externalIp: Option<string>,
    resultUrl: Option<string>,
    downloadMbps: Option<real>,
    uploadMbps: Option<real>,
    downloadBandwidth: Option<int>,
    uploadBandwidth: Option<int>,
    pingLatency: Option<real>,
    pingJitter: Option<real>,
    pingLow: Option<real>,
    pingHigh: Option<real>,
    downloadLatencyIqm: Option<real>,
    uploadLatencyIqm: Option<real>,
    packetLoss: Option<real>)

  function FloatField(x: Option<real>): (f: Option<FieldValue>)
    ensures f.None? <==> x.None?
  {
    match x
    case None => None
    case Some(v) => Some(FloatValue(v))
  }

  function IntField(x: Option<int>): (f: Option<FieldValue>)
    ensures f.None? <==> x.None?
  {
    match x
    case None => None
    case Some(v) => Some(IntValue(v))
  }

  function StringField(x: Option<string>): (f: Option<FieldValue>)
    ensures f.None? <==> x.None?
  {
    match x
    case None => None
    case Some(v) => Some(StringValue(v))
  }

  /** The `speedtest` point. Its ISP, ASN, connection type and external IP
      come from the located record; the record's keys always exist, so the
      speedtest's own `isp` and `external_ip` are never used. */
  function SpeedtestPoint(result: SpeedtestResult, info: GeoRecord): (p: Point)
    ensures p.measurement == "speedtest"
  {
    Point("speedtest",
      map["server_name" := result.serverName,
          "server_location" := result.serverLocation,
          "server_country" := result.serverCountry,
          "isp" := info.isp,
          "asn" := info.asn,
          "connection_type" := Label(info.connectionType),
          "external_ip" := info.ip],
      map["download_mbps" := Some(FloatValue(result.downloadMbps.GetOr(0.0))),
          "upload_mbps" := Some(FloatValue(result.uploadMbps.GetOr(0.0))),
          "download_bandwidth" := IntField(result.downloadBandwidth),
          "upload_bandwidth" := IntField(result.uploadBandwidth),
          "ping_latency" := FloatField(result.pingLatency),
          "ping_jitter" := FloatField(result.pingJitter),
          "ping_low" := FloatField(result.pingLow),
          "ping_high" := FloatField(result.pingHigh),
          "download_latency_iqm" := FloatField(result.downloadLatencyIqm),
          "upload_latency_iqm" := FloatField(result.uploadLatencyIqm),
          "packet_loss" := Some(FloatValue(result.packetLoss.GetOr(0.0))),
          "result_url" := StringField(result.resultUrl)])
  }

  /** The `isp_change` point: previous values from the report, current ones
      from the located record, the three flags, and `event = 1`. */
  function IspChangePoint(info: GeoRecord, report: ChangeReport): (p: Point)
    ensures p.measurement == "isp_change"
  {
    Point("isp_change",
      map["previous_isp" := report.previousIsp,
          "current_isp" := info.isp,
          "previous_asn" := report.previousAsn,
          "current_asn" := info.asn,
          "previous_connection_type" := report.previousConnectionType,
          "current_connection_type" := Label(info.connectionType)],
      map["ip_changed" := Some(BoolValue(report.ipChanged)),
          "isp_changed" := Some(BoolValue(report.ispChanged)),
          "asn_changed" := Some(BoolValue(report.asnChanged)),
          "previous_ip" := StringField(report.previousIp),
          "current_ip" := StringField(info.ip),
          "event" := Some(IntValue(1))])
  }

  /** The `speedtest_error` point written when no result came back. */
  function ErrorPoint(info: GeoRecord): (p: Point)
    ensures p.measurement == "speedtest_error"
  {
    Point("speedtest_error",
      map["isp" := info.isp, "connection_type" := Label(info.connectionType)],
      map["error" := Some(IntValue(1))])
  }

  /** The points one cycle writes, in order. */
  function CyclePoints(info: GeoRecord, report: ChangeReport, measurement: Option<SpeedtestResult>): (r: seq<Point>)
    ensures |r| == if measurement.Some? && report.changed then 2 else 1
    ensures measurement.Some? ==> r[0] == SpeedtestPoint(measurement.value, info)
    ensures measurement.Some? && report.changed ==> r[1] == IspChangePoint(info, report)
    ensures measurement.None? ==> r[0] == ErrorPoint(info)
  {
    match measurement
    case Some(result) =>
      [SpeedtestPoint(result, info)] + (if report.changed then [IspChangePoint(info, report)] else [])
    case None => [ErrorPoint(info)]
  }

  /** With a result: one `speedtest` point first, then one `isp_change`
      point exactly when the report says changed. Without: one
      `speedtest_error` point and nothing else. */
  lemma CyclePointCounts(info: GeoRecord, report: ChangeReport, measurement: Option<SpeedtestResult>)
    ensures var names := Names(CyclePoints(info, report, measurement));
      Count(names, "speedtest") == (if measurement.Some? then 1 else 0) &&
      Count(names, "isp_change") == (if measurement.Some? && report.changed then 1 else 0) &&
      Count(names, "speedtest_error") == (if measurement.None? then 1 else 0) &&
      |names| == Count(names, "speedtest") + Count(names, "isp_change") + Count(names, "speedtest_error") &&
      (measurement.Some? ==> names[0] == "speedtest")
  {
    var names := Names(CyclePoints(info, report, measurement));
    if measurement.Some? && report.changed {
      assert names == ["speedtest", "isp_change"];
      CountPair("speedtest", "isp_change", "speedtest");
      CountPair("speedtest", "isp_change", "isp_change");
      CountPair("speedtest", "isp_change", "speedtest_error");
    } else if measurement.Some? {
      assert names == ["speedtest"] && names[1..] == [];
    } else {
      assert names == ["speedtest_error"] && names[1..] == [];
    }
  }

  /** The error marker carries the current ISP and connection type and the
      single field `error = 1`; a change event always carries `event = 1`. */
  lemma MarkerFields(info: GeoRecord, report: ChangeReport)
    ensures ErrorPoint(info).fields == map["error" := Some(IntValue(1))]
    ensures ErrorPoint(info).tags["isp"] == info.isp
    ensures IspChangePoint(info, report).fields["event"] == Some(IntValue(1))
  {
  }

  /** The located record, not the speedtest's self-report, decides the ISP
      and IP tags of the `speedtest` point, even when the record has none. */
  lemma GeoRecordTagsWin(result: SpeedtestResult, info: GeoRecord, isp: Option<string>, ip: Option<string>)
    ensures SpeedtestPoint(result.(isp := isp, externalIp := ip), info) == SpeedtestPoint(result, info)
    ensures SpeedtestPoint(result, info).tags["isp"] == info.isp
    ensures SpeedtestPoint(result, info).tags["external_ip"] == info.ip
  {
  }

  /** Every `isp_change` point comes right after a `speedtest` point and
      carries `event = 1`. */
  ghost predicate EventsFollowSpeedtests(points: seq<Point>)
  {
    forall k :: 0 <= k < |points| && points[k].measurement == "isp_change" ==>
      0 < k && points[k - 1].measurement == "speedtest" &&
      "event" in points[k].fields && points[k].fields["event"] == Some(IntValue(1))
  }

  /** What the writer holds after `cycles` cycles: one primary point (a
      measurement or an error marker) per cycle, and each change event
      right behind its measurement. */
  ghost predicate LogInvariant(points: seq<Point>, cycles: nat)
  {
    Count(Names(points), "speedtest") + Count(Names(points), "speedtest_error") == cycles &&
    EventsFollowSpeedtests(points)
  }

  lemma {:induction false} LogInvariantStep(points: seq<Point>, cycles: nat,
      info: GeoRecord, report: ChangeReport, measurement: Option<SpeedtestResult>)
    requires LogInvariant(points, cycles)
    ensures LogInvariant(points + CyclePoints(info, report, measurement), cycles + 1)
  {
    var step := CyclePoints(info, report, measurement);
    NamesAppend(points, step);
    CountAppend(Names(points), Names(step), "speedtest");
    CountAppend(Names(points), Names(step), "speedtest_error");
    CyclePointCounts(info, report, measurement);
    var all := points + step;
    forall k | 0 <= k < |all| && all[k].measurement == "isp_change"
      ensures 0 < k && all[k - 1].measurement == "speedtest"
      ensures "event" in all[k].fields && all[k].fields["event"] == Some(IntValue(1))
    {
      if k >= |points| {
        assert measurement.Some? && report.changed && k == |points| + 1;
        assert all[k - 1] == step[0];
      }
    }
  }

  lemma EventsFollowPrefix(points: seq<Point>, m: nat)
    requires EventsFollowSpeedtests(points) && m <= |points|
    ensures EventsFollowSpeedtests(points[..m])
  {
    var init := points[..m];
    forall k | 0 <= k < |init| && init[k].measurement == "isp_change"
      ensures 0 < k && init[k - 1].measurement == "speedtest"
      ensures "event" in init[k].fields && init[k].fields["event"] == Some(IntValue(1))
    {
      assert init[k] == points[k];
    }
  }

  /** Counting `name` over a history extended by some points. */
  lemma CountExtend(init: seq<Point>, more: seq<Point>, name: string)
    ensures Count(Names(init + more), name) == Count(Names(init), name) + Count(Names(more), name)
  {
    NamesAppend(init, more);
    CountAppend(Names(init), Names(more), name);
  }

  /** Over any history, there are never more change events than
      measurements. */
  lemma {:induction false} EventsBoundedByMeasurements(points: seq<Point>)
    requires EventsFollowSpeedtests(points)
    ensures Count(Names(points), "isp_change") <= Count(Names(points), "speedtest")
    decreases |points|
  {
    var n := |points|;
    if n > 0 {
      var last := points[n - 1];
      var m := if last.measurement == "isp_change" then n - 2 else n - 1;
      var init, tail := points[..m], points[m..];
      assert points == init + tail;
      EventsFollowPrefix(points, m);
      EventsBoundedByMeasurements(init);
      CountExtend(init, tail, "isp_change");
      CountExtend(init, tail, "speedtest");
      var names := Names(tail);
      if last.measurement == "isp_change" {
        assert names == ["speedtest", "isp_change"];
        CountPair("speedtest", "isp_change", "speedtest");
        CountPair("speedtest", "isp_change", "isp_change");
      } else {
        assert names == [last.measurement] && names[1..] == [];
      }
    }
  }

  class SpeedtestRunner {
    const tracker: ISPTracker
    const writer: MetricsWriter
    /** The number of cycles run so far. */
    ghost var cycles: nat

    ghost predicate Valid()
      reads this, writer
    {
      LogInvariant(writer.points, cycles)
    }

    /** `__init__`: a fresh writer and a tracker loaded from `file`. */
    constructor (file: StateFile)
      ensures Valid() && fresh(tracker) && fresh(writer)
      ensures tracker.file == file && tracker.Snapshot() == Loaded(file.contents)
      ensures writer.points == [] && cycles == 0
    {
      tracker := new ISPTracker(file);
      writer := new MetricsWriter();
      cycles := 0;
    }

    /** `write_speedtest_result`: the `speedtest` point, then the
        `isp_change` point when the report says changed. */
    method WriteSpeedtestResult(result: SpeedtestResult, info: GeoRecord, report: ChangeReport)
      modifies writer
      ensures writer.points == old(writer.points) + [SpeedtestPoint(result, info)] +
        (if report.changed then [IspChangePoint(info, report)] else [])
    {
      writer.Write(SpeedtestPoint(result, info));
      if report.changed {
        writer.Write(IspChangePoint(info, report));
      }
    }

    /** `run_test_cycle`, with the providers' answers, the outcome of saving
        the state file and the speedtest's result given as inputs. */
    method RunTestCycle(primary: Option<Response>, secondary: Option<Response>, saveSucceeds: bool,
                        measurement: Option<SpeedtestResult>)
      returns (info: GeoRecord, report: ChangeReport)
      requires Valid()
      modifies this, tracker, tracker.file, writer
      ensures Valid() && cycles == old(cycles) + 1
      ensures info == Locate(primary, secondary)
      ensures report == ChangeOf(old(tracker.Snapshot()), Observed(info))
      ensures tracker.Snapshot() == Observed(info)
      ensures tracker.file.contents ==
        if saveSucceeds then Some(Observed(info)) else old(tracker.file.contents)
      ensures writer.points == old(writer.points) + CyclePoints(info, report, measurement)
    {
      info := tracker.GetIpInfo(primary, secondary);
      report := tracker.CheckForChange(info, saveSucceeds);
      if measurement.Some? {
        WriteSpeedtestResult(measurement.value, info, report);
      } else {
        writer.Write(ErrorPoint(info));
      }
      assert writer.points == old(writer.points) + CyclePoints(info, report, measurement);
      LogInvariantStep(old(writer.points), cycles, info, report, measurement);
      cycles := cycles + 1;
    }
  }
}
