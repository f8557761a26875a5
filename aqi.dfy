/**
 * A model of one wake cycle of the MagTag air-quality display (aqi.py):
 * build the AirNow request URL, fold the returned observations into the
 * current O3 / PM2.5 readings, decide how long to deep-sleep, and choose
 * which screen to draw.  The HTTP fetch and JSON decode are an oracle
 * passed in as a function of the URL.
 */
module MagTagAqi {

  // ---------------------------------------------------------------------
  // Data model
  // ---------------------------------------------------------------------

  datatype Option<T> = None | Some(value: T)

  /** One element of the AirNow JSON array (only the fields the script reads). */
  datatype Observation = Observation(
    HourObserved: int,
    ParameterName: string,
    AQI: int,
    CategoryName: string)

  /** What the fetch-and-decode step yields: the decoded array, or an exception. */
  datatype Response = Json(records: seq<Observation>) | Raised

  /** The hour variable starts as the string "No Data" and otherwise holds HourObserved. */
  datatype Hour = NoData | Observed(hour: int)

  /** An AQI value and its category name for one pollutant. */
  datatype Level = Level(aqi: int, category: string)

  /** The 5-tuple get_current_AQI returns, grouped by pollutant. */
  datatype Reading = Reading(o3: Level, pm25: Level, hour: Hour)

  /** The (status, seconds) pair analyze_results returns. */
  datatype Decision = Decision(status: string, sleepSeconds: int)

  /** The hours and minutes go_to_sleep reports. */
  datatype Duration = Duration(hours: int, minutes: int)

  /** Which text template is put on the e-ink screen. */
  datatype Screen =
    | ErrorScreen(status: string, minutes: int)
    | ReportScreen(hour: int, minutes: int, pm25: Level, o3: Level)

  /** Everything one run decides: the sleep decision, the screen, the sleep report. */
  datatype Cycle = Cycle(decision: Decision, screen: Screen, sleep: Duration)

  const UrlPrefix: string :=
    "https://www.airnowapi.org/aq/observation/zipCode/current/?format=application/json&zipCode="
  const KeyParam: string := "&API_KEY="

  const O3: string := "O3"
  const PM25: string := "PM2.5"
  const NoDataText: string := "No Data"

  const StatusNoNetwork: string := "No Network"
  const StatusNoData: string := "No Data"
  const StatusComplete: string := "Complete"
  const StatusFetchComplete: string := "Fetch Complete"

  const RetrySeconds: int := 300
  const PoorAirSeconds: int := 1800
  const GoodAirSeconds: int := 7200
  const AqiThreshold: int := 50

  const DefaultLevel: Level := Level(0, NoDataText)
  const Initial: Reading := Reading(DefaultLevel, DefaultLevel, NoData)

  // ---------------------------------------------------------------------
  // Request URL
  // ---------------------------------------------------------------------

  /** The request URL: fixed prefix, zip code, the key parameter, then the token. */
  function Url(zipcode: string, token: string): (u: string)
    ensures |u| == |UrlPrefix| + |zipcode| + |KeyParam| + |token|
    ensures u[..|UrlPrefix|] == UrlPrefix
    ensures u[|UrlPrefix|..|UrlPrefix| + |zipcode|] == zipcode
    ensures u[|UrlPrefix| + |zipcode|..|UrlPrefix| + |zipcode| + |KeyParam|] == KeyParam
    ensures u[|UrlPrefix| + |zipcode| + |KeyParam|..] == token
  {
    UrlPrefix + zipcode + KeyParam + token
  }

  predicate NoAmpersand(s: string) {
    forall i :: 0 <= i < |s| ==> s[i] != '&'
  }

  /** The longest prefix of s that holds no '&'. */
  function UntilAmpersand(s: string): (r: string)
    ensures r <= s && NoAmpersand(r)
    ensures |r| < |s| ==> s[|r|] == '&'
  {
    if |s| == 0 || s[0] == '&' then [] else [s[0]] + UntilAmpersand(s[1..])
  }

  /** Reads the zip code and token back out of a request URL. */
  function ParseUrl(u: string): Option<(string, string)> {
    if !(UrlPrefix <= u) then None
    else
      var rest := u[|UrlPrefix|..];
      var zipcode := UntilAmpersand(rest);
      var after := rest[|zipcode|..];
      if KeyParam <= after then Some((zipcode, after[|KeyParam|..])) else None
  }

  lemma {:induction false} UntilAmpersandStops(z: string, rest: string)
    requires NoAmpersand(z)
    requires |rest| > 0 && rest[0] == '&'
    ensures UntilAmpersand(z + rest) == z
  {
    if |z| > 0 {
      assert (z + rest)[1..] == z[1..] + rest;
      UntilAmpersandStops(z[1..], rest);
    }
  }

  /** A zip code without '&' (a real one is digits) and any token are read back from the URL. */
  lemma UrlRoundTrip(zipcode: string, token: string)
    requires NoAmpersand(zipcode)
    ensures ParseUrl(Url(zipcode, token)) == Some((zipcode, token))
  {
    var u := Url(zipcode, token);
    var rest := u[|UrlPrefix|..];
    assert rest == zipcode + (KeyParam + token);
    UntilAmpersandStops(zipcode, KeyParam + token);
    assert rest[|zipcode|..] == KeyParam + token;
  }

  /**
   * Distinct settings never produce the same request.  The '&'-free zip codes
   * are needed: Url("a&API_KEY=b", "c") == Url("a", "b&API_KEY=c").
   */
  lemma UrlInjective(z1: string, t1: string, z2: string, t2: string)
    requires NoAmpersand(z1) && NoAmpersand(z2)
    requires Url(z1, t1) == Url(z2, t2)
    ensures z1 == z2 && t1 == t2
  {
    UrlRoundTrip(z1, t1);
    UrlRoundTrip(z2, t2);
  }

  // ---------------------------------------------------------------------
  // Observation reduction (get_current_AQI)
  // ---------------------------------------------------------------------

  /** One iteration of the loop: the hour always moves on; only a matching parameter updates its level. */
  function Step(r: Reading, e: Observation): Reading {
    var hour := Observed(e.HourObserved);
    if e.ParameterName == O3 then Reading(Level(e.AQI, e.CategoryName), r.pm25, hour)
    else if e.ParameterName == PM25 then Reading(r.o3, Level(e.AQI, e.CategoryName), hour)
    else Reading(r.o3, r.pm25, hour)
  }

  /** The loop as a left fold: the reading after processing all of data. */
  function Reduce(data: seq<Observation>): Reading {
    if |data| == 0 then Initial
    else Step(Reduce(data[..|data| - 1]), data[|data| - 1])
  }

  /** Index of the last record for parameter name, or -1 when there is none. */
  function LastIndexOf(data: seq<Observation>, name: string): (k: int)
    ensures -1 <= k < |data|
    ensures 0 <= k ==> data[k].ParameterName == name
    ensures forall j :: k < j < |data| ==> data[j].ParameterName != name
  {
    if |data| == 0 then -1
    else if data[|data| - 1].ParameterName == name then |data| - 1
    else LastIndexOf(data[..|data| - 1], name)
  }

  /** The level last reported for name, or the default when no record names it. */
  function LastLevel(data: seq<Observation>, name: string): Level {
    var k := LastIndexOf(data, name);
    if k < 0 then DefaultLevel else Level(data[k].AQI, data[k].CategoryName)
  }

  /** The hour of the last record of any kind, or NoData for an empty array. */
  function LastHour(data: seq<Observation>): Hour {
    if |data| == 0 then NoData else Observed(data[|data| - 1].HourObserved)
  }

  /** The level a reading holds for one of the two tracked parameters. */
  function LevelFor(r: Reading, name: string): Level
    requires name == O3 || name == PM25
  {
    if name == O3 then r.o3 else r.pm25
  }

  /** Last wins: each pollutant comes from its own last record, the hour from the last record overall. */
  lemma {:induction false} ReduceIsLastMatch(data: seq<Observation>)
    ensures Reduce(data).o3 == LastLevel(data, O3)
    ensures Reduce(data).pm25 == LastLevel(data, PM25)
    ensures Reduce(data).hour == LastHour(data)
  {
    if |data| > 0 {
      var init := data[..|data| - 1];
      ReduceIsLastMatch(init);
      assert forall j :: 0 <= j < |init| ==> init[j] == data[j];
    }
  }

  /** An empty array leaves every variable at its initial value. */
  lemma EmptyGivesDefaults()
    ensures Reduce([]) == Reading(Level(0, "No Data"), Level(0, "No Data"), NoData)
  {
  }

  /** Records that do not name a parameter never change that parameter's level. */
  lemma {:induction false} AppendOthersKeepsLevel(data: seq<Observation>, tail: seq<Observation>, name: string)
    requires name == O3 || name == PM25
    requires forall i :: 0 <= i < |tail| ==> tail[i].ParameterName != name
    ensures LevelFor(Reduce(data + tail), name) == LevelFor(Reduce(data), name)
  {
    if |tail| == 0 {
      assert data + tail == data;
    } else {
      var front := tail[..|tail| - 1];
      assert (data + tail)[..|data + tail| - 1] == data + front;
      assert (data + tail)[|data + tail| - 1] == tail[|tail| - 1];
      assert forall i :: 0 <= i < |front| ==> front[i] == tail[i];
      AppendOthersKeepsLevel(data, front, name);
    }
  }

  /**
   * get_current_AQI: build the URL, ask the oracle, and fold the records in a
   * loop over five local variables.  None stands for the exception that main
   * catches.
   */
  method GetCurrentAqi(zipcode: string, token: string, fetch: string -> Response)
    returns (r: Option<Reading>)
    ensures r.None? <==> fetch(Url(zipcode, token)).Raised?
    ensures r.Some? ==> r.value == Reduce(fetch(Url(zipcode, token)).records)
    ensures r.Some? ==>
              var data := fetch(Url(zipcode, token)).records;
              r.value.o3 == LastLevel(data, O3) && r.value.pm25 == LastLevel(data, PM25) &&
              r.value.hour == LastHour(data)
  {
    var url := Url(zipcode, token);
    var resp := fetch(url);
    if resp.Raised? {
      return None;
    }
    var data := resp.records;
    var o3Value, o3Category := 0, NoDataText;
    var pm25Value, pm25Category := 0, NoDataText;
    var currHour := NoData;
    for i := 0 to |data|
      invariant Reading(Level(o3Value, o3Category), Level(pm25Value, pm25Category), currHour)
                == Reduce(data[..i])
    {
      var element := data[i];
      assert data[..i + 1][..i] == data[..i];
      currHour := Observed(element.HourObserved);
      if element.ParameterName == O3 {
        o3Value, o3Category := element.AQI, element.CategoryName;
      } else if element.ParameterName == PM25 {
        pm25Value, pm25Category := element.AQI, element.CategoryName;
      }
    }
    assert data[..|data|] == data;
    ReduceIsLastMatch(data);
    return Some(Reading(Level(o3Value, o3Category), Level(pm25Value, pm25Category), currHour));
  }

  // ---------------------------------------------------------------------
  // Sleep-interval decision (analyze_results)
  // ---------------------------------------------------------------------

  /** Retry in five minutes without network or data; otherwise 30 minutes for poor air, two hours for good air. */
  function Analyze(o3Data: int, pm25Data: int, currHour: Hour, status: string): (d: Decision)
    ensures d.sleepSeconds in {RetrySeconds, PoorAirSeconds, GoodAirSeconds}
    ensures d.sleepSeconds == RetrySeconds <==> d.status == StatusNoNetwork || d.status == StatusNoData
    ensures status == StatusNoNetwork ==> d == Decision(StatusNoNetwork, RetrySeconds)
    ensures status != StatusNoNetwork && currHour.NoData? ==> d == Decision(StatusNoData, RetrySeconds)
    ensures status != StatusNoNetwork && currHour.Observed? ==>
              d.status == StatusComplete &&
              (d.sleepSeconds == PoorAirSeconds <==> o3Data > AqiThreshold || pm25Data > AqiThreshold) &&
              (d.sleepSeconds == GoodAirSeconds <==> o3Data <= AqiThreshold && pm25Data <= AqiThreshold)
  {
    if status == StatusNoNetwork then Decision(StatusNoNetwork, RetrySeconds)
    else if currHour == NoData then Decision(StatusNoData, RetrySeconds)
    else if o3Data > AqiThreshold || pm25Data > AqiThreshold then Decision(StatusComplete, PoorAirSeconds)
    else Decision(StatusComplete, GoodAirSeconds)
  }

  /** Worse air never lengthens the sleep. */
  lemma AnalyzeMonotone(o3: int, pm25: int, o3': int, pm25': int, currHour: Hour, status: string)
    requires o3 <= o3' && pm25 <= pm25'
    ensures Analyze(o3', pm25', currHour, status).sleepSeconds <= Analyze(o3, pm25, currHour, status).sleepSeconds
  {
  }

  // ---------------------------------------------------------------------
  // Hour/minute report (go_to_sleep)
  // ---------------------------------------------------------------------

  /** seconds // 3600 and (seconds // 60) % 60; Python's floor division agrees with Dafny's for a positive divisor. */
  function SleepSplit(seconds: int): (d: Duration)
    ensures 0 <= d.minutes < 60
    ensures d.hours * 3600 + d.minutes * 60 <= seconds < d.hours * 3600 + d.minutes * 60 + 60
    ensures seconds >= 0 ==> d.hours >= 0
  {
    Duration(seconds / 3600, (seconds / 60) % 60)
  }

  /** The split is the unique whole hours and minutes that fit in the interval. */
  lemma SleepSplitUnique(seconds: int, h: int, m: int)
    requires 0 <= m < 60
    requires h * 3600 + m * 60 <= seconds < h * 3600 + m * 60 + 60
    ensures SleepSplit(seconds) == Duration(h, m)
  {
  }

  // ---------------------------------------------------------------------
  // One wake cycle (main)
  // ---------------------------------------------------------------------

  /**
   * main: any exception inside get_current_AQI becomes status "No Network";
   * the returned status chooses the error screen or the full report, and the
   * sleep report is printed before deep sleep.
   */
  method RunCycle(zipcode: string, token: string, fetch: string -> Response) returns (c: Cycle)
    ensures fetch(Url(zipcode, token)).Raised? ==>
              c.decision == Decision(StatusNoNetwork, RetrySeconds) &&
              c.screen == ErrorScreen(StatusNoNetwork, 5)
    ensures fetch(Url(zipcode, token)).Json? ==>
              var r := Reduce(fetch(Url(zipcode, token)).records);
              c.decision == Analyze(r.o3.aqi, r.pm25.aqi, r.hour, StatusFetchComplete) &&
              c.decision.status != StatusNoNetwork &&
              (c.screen.ReportScreen? ==>
                 r.hour == Observed(c.screen.hour) && c.screen.o3 == r.o3 && c.screen.pm25 == r.pm25)
    ensures c.screen.ErrorScreen? <==> c.decision.status == StatusNoData || c.decision.status == StatusNoNetwork
    ensures c.screen.ErrorScreen? ==> c.screen == ErrorScreen(c.decision.status, c.decision.sleepSeconds / 60)
    ensures c.screen.ReportScreen? ==> c.screen.minutes == c.decision.sleepSeconds / 60 && c.screen.minutes in {30, 120}
    ensures c.sleep == SleepSplit(c.decision.sleepSeconds)
    ensures c.sleep in {Duration(0, 5), Duration(0, 30), Duration(2, 0)}
  {
    var fetched := GetCurrentAqi(zipcode, token, fetch);
    var decision: Decision;
    if fetched.None? {
      decision := Analyze(0, 0, NoData, StatusNoNetwork);
    } else {
      var r := fetched.value;
      decision := Analyze(r.o3.aqi, r.pm25.aqi, r.hour, StatusFetchComplete);
    }
    var nextUpdate := decision.sleepSeconds;
    var screen: Screen;
    if decision.status == StatusNoData || decision.status == StatusNoNetwork {
      screen := ErrorScreen(decision.status, nextUpdate / 60);
    } else {
      var r := fetched.value;
      screen := ReportScreen(r.hour.hour, nextUpdate / 60, r.pm25, r.o3);
    }
    c := Cycle(decision, screen, SleepSplit(nextUpdate));
  }
}
