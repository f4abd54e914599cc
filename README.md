# NetPulse speedtest runner: ISP change detection and cycle writes

A Dafny model of the core of NetPulse's `speedtest_runner.py`, the program that runs a
speedtest periodically, stores the results in a time-series database and records an event
whenever the ISP, IP or ASN changes. The model covers:

- **Geolocation normalisation** (`GeoLocation`; the pure parts of `ISPTracker.get_ip_info`):
  - the `"AS12345 Company"` org split into ASN and ISP name;
  - the fallback to ip-api.com when ipinfo.io left no IP;
  - the ordered keyword classification of the ISP name into cellular, cable, fiber, dsl or
    unknown, or no connection type at all.
  The two HTTP answers are inputs: `None` for a failed request, otherwise the decoded JSON
  object as a map from key to an optional string (JSON `null` is `None`).
- **The ISP tracker** (`IspTracking`):
  - `ISPTracker` is a class with the four `last_*` fields;
  - `StateFile` is the state file, an object whose `contents` `_load_state` reads and
    `_save_state` overwrites;
  - `CheckForChange` builds the change report flag by flag, then overwrites the remembered
    values and saves them;
  - `GetIpInfo` fills the record step by step and is proved equal to the specification
    function `Locate`.
- **The test cycle** (`TestCycle`, `Metrics`):
  - `SpeedtestRunner.RunTestCycle` locates, checks for a change, and writes to an
    append-only `MetricsWriter`. It writes either the `speedtest` point and, when the
    report says changed, an `isp_change` point, or else a single `speedtest_error` point.
  - The runner keeps a class invariant over the writer's whole history: one primary point
    per cycle, and every change event directly after its measurement.
- **Scenarios** (`Scenarios`): whole cycles over concrete provider answers, established by
  the verifier. They cover a first run, a move from Comcast to Verizon Wireless through the
  fallback provider, a failed speedtest, two checks in a row, and a restart over a saved
  state file.

Three behaviours of the code that are easy to misread:

- The cold-start exemption depends on the *remembered* IP being `None`, not the current
  one. Losing the IP after having one is an IP change (`LostIpIsChange`).
- The located record's keys always exist, so the `.get(key, "unknown")` defaults in
  `write_speedtest_result` and `run_test_cycle` never apply. The `isp` and `external_ip`
  tags always come from the located record, even when it holds `None`. The speedtest's own
  `isp` and `external_ip` are never used (`GeoRecordTagsWin`). Tag and field values are
  therefore optional in the model.
- An `org` that is JSON `null` makes `org.startswith` raise after ip, org, city, region
  and country were already set. The ISP and ASN then stay unset (`FromIpInfo`).

## Model

| member | source | states |
|---|---|---|
| `Strings.StartsWith` | speedtest-runner/speedtest_runner.py:103 | `org.startswith("AS")`, as a character-wise comparison; its meaning is stated by `StartsWithPrefix` |
| `Strings.Contains` | speedtest-runner/speedtest_runner.py:131 | `kw in isp_lower`, as a left-to-right scan; its meaning is stated by `ContainsIsSubstring` |
| `Strings.ContainsAny` | speedtest-runner/speedtest_runner.py:131-137 | `any(kw in isp_lower for kw in group)`; its meaning is stated by `ContainsAnyMentions` |
| `Strings.SplitOnce` | speedtest-runner/speedtest_runner.py:104-106 | `org.split(" ", 1)`: the first part has no space; with no second part it is the whole string; otherwise the string is first part, one space, second part |
| `Strings.SplitOnceAt` | speedtest-runner/speedtest_runner.py:104-106 | any decomposition around a space with no space before it is the one the split returns (the split is at the first space) |
| `Strings.FirstToken` | speedtest-runner/speedtest_runner.py:120 | `s.split(" ")[0]` is a prefix of `s` without a space, followed in `s` by a space unless it is all of `s` |
| `Strings.StartsWithPrefix` | speedtest-runner/speedtest_runner.py:103 | the character-wise `startswith` holds exactly when the prefix is the string's initial slice |
| `Strings.ContainsIsSubstring` | speedtest-runner/speedtest_runner.py:131 | the left-to-right scan for `kw in isp_lower` succeeds exactly when the keyword occurs at some position |
| `Strings.ContainsAnyMentions` | speedtest-runner/speedtest_runner.py:131-137 | `any(kw in isp_lower for kw in group)` holds exactly when some keyword of the group occurs in the name |
| `Strings.Lower` | speedtest-runner/speedtest_runner.py:130 | lower-casing keeps the length, maps each ASCII capital to its small letter and the Kelvin sign to `k`, keeps every other character, and leaves no ASCII capital and no Kelvin sign |
| `GeoLocation.KelvinSignSpellsKeyword` | speedtest-runner/speedtest_runner.py:130-138 | "CENTURYLIN" followed by the Kelvin sign lower-cases to a name containing the DSL keyword "centurylink" |
| `GeoLocation.Get` | speedtest-runner/speedtest_runner.py:95-99 | `data.get(key)`: the stored value when the key is present, `None` when it is absent |
| `GeoLocation.GetOr` | speedtest-runner/speedtest_runner.py:96 | `data.get(key, default)`: the stored value (a JSON `null` included) when the key is present, the default when it is absent |
| `GeoLocation.Classify` | speedtest-runner/speedtest_runner.py:131-140 | the keyword groups tried in order on the lower-cased name; the outcome of each group is stated by `KeywordPrecedence` |
| `GeoLocation.InferConnectionType` | speedtest-runner/speedtest_runner.py:129 | a connection type is inferred exactly when the ISP name is truthy (neither `None` nor empty) |
| `GeoLocation.KeywordPrecedence` | speedtest-runner/speedtest_runner.py:129-140 | for a non-empty name: cellular iff a cellular keyword occurs; cable iff none does and a cable keyword does; then fiber, then dsl likewise; unknown iff no group matches |
| `GeoLocation.CellularTakesPrecedence` | speedtest-runner/speedtest_runner.py:131-134 | a name containing "mobile" is cellular whatever else it contains, for instance "cable" |
| `GeoLocation.VerizonWirelessIsCellular` | speedtest-runner/speedtest_runner.py:131-132 | "Verizon Wireless" classifies as cellular |
| `GeoLocation.ComcastCableIsCable` | speedtest-runner/speedtest_runner.py:131-134 | "Comcast Cable" classifies as cable: no cellular keyword occurs, a cable keyword does |
| `GeoLocation.Label` | speedtest-runner/speedtest_runner.py:132-140 | a connection type's string is present exactly when a type was inferred |
| `GeoLocation.LabelInjective` | speedtest-runner/speedtest_runner.py:132-140 | the five type strings are distinct, so types and their strings determine each other |
| `GeoLocation.ParseOrg` | speedtest-runner/speedtest_runner.py:101-108 | org starting with "AS": the ASN has no space; with a space, org is ASN, space, ISP; without, ASN and ISP are both the whole org; any other org is the ISP with no ASN |
| `GeoLocation.ParseOrgWithAsn` | speedtest-runner/speedtest_runner.py:101-106 | "AS7922 Comcast Cable" splits into ASN "AS7922" and ISP "Comcast Cable" |
| `GeoLocation.ParseOrgWithoutAsn` | speedtest-runner/speedtest_runner.py:107-108 | "Private Network LLC" has no ASN and is the ISP as a whole |
| `GeoLocation.AsnToken` | speedtest-runner/speedtest_runner.py:120 | ip-api.com's ASN is present exactly when its `as` value is truthy, and is then the first space-delimited token of it: a space-free prefix ending at the first space or at the end |
| `GeoLocation.FromIpInfo` | speedtest-runner/speedtest_runner.py:93-110 | ip and org (default "") come from the answer; a `null` org leaves ISP and ASN unset; otherwise ASN and ISP are the org split |
| `GeoLocation.FromIpApi` | speedtest-runner/speedtest_runner.py:116-124 | the ip-api.com record leaves the connection type to be inferred afterwards |
| `GeoLocation.FirstProvider` | speedtest-runner/speedtest_runner.py:91-110 | an ipinfo.io request that fails leaves the empty record; an answer gives ipinfo.io's IP; either way no connection type yet |
| `GeoLocation.Locate` | speedtest-runner/speedtest_runner.py:79-142 | the returned record's connection type is the one inferred from its own ISP name |
| `GeoLocation.PrimaryIpWins` | speedtest-runner/speedtest_runner.py:112-113 | when ipinfo.io yields a truthy IP, ip-api.com's answer makes no difference and ip, isp and asn are ipinfo.io's |
| `GeoLocation.FallbackReplacesAll` | speedtest-runner/speedtest_runner.py:113-124 | when ipinfo.io yields no IP and ip-api.com answers, the result does not depend on ipinfo.io at all; ip, isp and asn are ip-api.com's |
| `GeoLocation.NoSecondAnswerKeepsFirst` | speedtest-runner/speedtest_runner.py:113-126 | when neither provider yields an IP, ipinfo.io's partial values stay |
| `IspTracking.Loaded` | speedtest-runner/speedtest_runner.py:37-57 | no readable state file gives the all-`None` state; a readable one gives its four values |
| `IspTracking.Observed` | speedtest-runner/speedtest_runner.py:160-163 | the tracker keeps the record's ip, isp, asn and connection-type string |
| `IspTracking.ChangeOf` | speedtest-runner/speedtest_runner.py:149-177 | with no remembered IP the report says unchanged; otherwise changed exactly when ip, isp or asn differs; the previous values are the remembered four. Per-flag facts are in `ColdStartReportsNoChange`, `ChangeFlagsExact`, `ReportShape` and `SameObservationNoChange` |
| `IspTracking.StateFile.constructor` | speedtest-runner/speedtest_runner.py:33-35 | the state file at `STATE_FILE` holds the given optional state, `None` when absent or unreadable |
| `IspTracking.ColdStartReportsNoChange` | speedtest-runner/speedtest_runner.py:149-166 | with no remembered IP, `changed`, `ip_changed`, `isp_changed` and `asn_changed` are all false, whatever is observed |
| `IspTracking.ChangeFlagsExact` | speedtest-runner/speedtest_runner.py:166-177 | with a remembered IP, each flag is true exactly when the value differs (`None` against a string differs), and `changed` exactly when one of them differs |
| `IspTracking.LostIpIsChange` | speedtest-runner/speedtest_runner.py:166-169 | a remembered IP against no current IP is an IP change |
| `IspTracking.ReportShape` | speedtest-runner/speedtest_runner.py:149-158 | `changed` is the disjunction of the three flags; the connection type never raises a flag; the previous values are the remembered ones |
| `IspTracking.SameObservationNoChange` | speedtest-runner/speedtest_runner.py:166-183 | an observation checked against itself, the baseline after the first of two equal calls, reports no change |
| `IspTracking.ISPTracker.constructor` | speedtest-runner/speedtest_runner.py:36-43 | a new tracker holds the state-file values, or all `None` when none loads |
| `IspTracking.ISPTracker.LoadState` | speedtest-runner/speedtest_runner.py:45-57 | a readable state replaces all four values; otherwise they are unchanged |
| `IspTracking.ISPTracker.SaveState` | speedtest-runner/speedtest_runner.py:59-72 | the state file afterwards holds the four current values, or is unchanged when the write fails |
| `IspTracking.ISPTracker.GetIpInfo` | speedtest-runner/speedtest_runner.py:74-142 | the step-by-step record equals `Locate` of the two answers |
| `IspTracking.ISPTracker.CheckForChange` | speedtest-runner/speedtest_runner.py:144-188 | the report is `ChangeOf(old state, observation)`; afterwards the four fields equal the observation unconditionally, and so does the saved state when the write succeeds |
| `Metrics.MetricsWriter.constructor` | speedtest-runner/speedtest_runner.py:195-200 | a new write API has received no points |
| `Metrics.MetricsWriter.Write` | speedtest-runner/speedtest_runner.py:321 | a write appends exactly the point given |
| `TestCycle.SpeedtestPoint` | speedtest-runner/speedtest_runner.py:300-319 | the measurement point is named `speedtest` |
| `TestCycle.IspChangePoint` | speedtest-runner/speedtest_runner.py:325-337 | the change point is named `isp_change` |
| `TestCycle.ErrorPoint` | speedtest-runner/speedtest_runner.py:371-374 | the failure point is named `speedtest_error` |
| `TestCycle.GeoRecordTagsWin` | speedtest-runner/speedtest_runner.py:304-307 | the `speedtest` point does not depend on the speedtest's own isp and external IP; its `isp` and `external_ip` tags are the located record's |
| `TestCycle.MarkerFields` | speedtest-runner/speedtest_runner.py:337 | the error point's only field is `error = 1` and carries the current ISP; the change point's `event` field is 1 |
| `TestCycle.CyclePoints` | speedtest-runner/speedtest_runner.py:324-339 | with a result: the `speedtest` point, then the `isp_change` point exactly when changed; without: the single `speedtest_error` point of lines 366-375 |
| `TestCycle.CyclePointCounts` | speedtest-runner/speedtest_runner.py:366-375 | with a result: one `speedtest` point, first, and one `isp_change` point iff changed; without: one `speedtest_error` point and nothing else |
| `TestCycle.LogInvariantStep` | speedtest-runner/speedtest_runner.py:347-377 | a cycle keeps the history invariant: one `speedtest` or `speedtest_error` point per cycle, every `isp_change` right after a `speedtest` point |
| `TestCycle.EventsBoundedByMeasurements` | speedtest-runner/speedtest_runner.py:324-339 | in such a history there are never more `isp_change` points than `speedtest` points |
| `TestCycle.SpeedtestRunner.constructor` | speedtest-runner/speedtest_runner.py:194-202 | a new runner has an empty writer and a tracker loaded from the state file |
| `TestCycle.SpeedtestRunner.WriteSpeedtestResult` | speedtest-runner/speedtest_runner.py:296-345 | appends the `speedtest` point, then the `isp_change` point exactly when the report says changed |
| `TestCycle.SpeedtestRunner.RunTestCycle` | speedtest-runner/speedtest_runner.py:347-380 | the record is `Locate` of the answers; the report and new tracker state are those of `CheckForChange`; the writer gains exactly that cycle's points; the history invariant is kept |
| `Scenarios.ComcastLocated` | speedtest-runner/speedtest_runner.py:91-140 | an ipinfo.io answer "AS7922 Comcast" locates as ISP "Comcast", ASN "AS7922", cable |
| `Scenarios.VerizonLocated` | speedtest-runner/speedtest_runner.py:113-132 | with ipinfo.io down, ip-api.com's Verizon Wireless answer locates as ASN "AS6167", cellular |

## Left out

- The HTTP requests to ipinfo.io and ip-api.com are network I/O. Their answers are
  parameters: `None` for a non-200 status, an exception or a body that is not JSON.
  JSON values other than strings and `null` are not modelled.
- Running the `speedtest` binary, its license acceptance, and reading its JSON output are
  an external tool. The result is a parameter, `None` on failure. It holds only the
  values the written point reads.
- The Mbps conversion `bandwidth * 8 / 1_000_000` is floating point, as is the printing.
  `downloadMbps`/`uploadMbps` are given values, `None` when the bandwidth was falsy.
  Floats are exact reals.
- `InfluxDBClient`, `Point` and `write_api` are a foreign library. The writer is an
  append-only sequence of points with their tags and fields as passed in, `None` values
  included. How the library drops `None` values is not modelled.
- A write that raises inside `write_speedtest_result` or the error-marker branch is not
  modelled, because the sink accepts every point. In the source, a failure of the first
  write also skips the `isp_change` point.
- The state file's path, JSON encoding and `updated_at` timestamp (a clock reading) are
  not modelled. The file is an object holding an optional state. A failed save is a
  parameter that leaves the file unchanged.
- `wait_for_influxdb`, the `schedule` daemon loop, `argparse` and the environment
  configuration are timing, CLI and global configuration plumbing.
- Console output and the exception handlers that only print are not modelled.
- `Strings.Lower` lower-cases ASCII capitals and U+212A KELVIN SIGN (to `k`) only. Python's
  `str.lower` also maps the other non-ASCII capitals. Each becomes a non-ASCII character,
  except U+0130, which becomes `i` followed by a combining dot. The keywords are ASCII and
  none ends in `i`, so these mappings never create or break a keyword match, and the
  connection type is the same. Only the lowered name itself can differ.
