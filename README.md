# MagTag air-quality display — a Dafny model of one wake cycle

The MagTag script (`aqi.py`) runs once per wake-up on a battery-powered e-ink
board. It asks the AirNow web service for the current observations at a fixed
zip code. Then it reduces the returned array to one O3 reading and one PM2.5
reading, chooses how long to deep-sleep, chooses which screen text to draw,
and goes back to sleep.

`aqi.dfy` (module `MagTagAqi`) models that decision logic:

- **Request URL.** `Url` joins the fixed AirNow prefix, the zip code,
  `&API_KEY=` and the token. `ParseUrl` reads the zip code and token back.
  `UrlRoundTrip` proves that the two are inverse whenever the zip code has no
  `&` in it. `UrlInjective` follows: two different settings never send the
  same request.
- **Observation reduction.** `GetCurrentAqi` is the imperative loop of
  `get_current_AQI`. It updates five local variables (O3 value and category,
  PM2.5 value and category, hour), starting from `0` / `"No Data"`. It is
  proved equal to the left fold `Reduce`. `ReduceIsLastMatch` then proves the
  last-wins rule against an independent reference: `LastIndexOf` finds the
  last record of a parameter. `AppendOthersKeepsLevel` proves that records
  for one parameter, or for any other name, never change the other
  parameter's fields. The 5-tuple of the source is the datatype `Reading`,
  grouped by pollutant. The hour variable, whose initial value is the string
  `"No Data"`, is the datatype `Hour = NoData | Observed(int)`.
- **Sleep decision.** `Analyze` is `analyze_results`. Its contract lists the
  whole output set: 300 s exactly for "No Network" / "No Data"; 1800 s when
  either AQI is strictly above 50; 7200 s otherwise. `AnalyzeMonotone`
  proves that worse air never lengthens the sleep.
- **Sleep report.** `SleepSplit` is the `seconds // 3600`,
  `(seconds // 60) % 60` split printed by `go_to_sleep`. Its contract states
  the bounds. `SleepSplitUnique` proves it is the only hours/minutes pair
  with those bounds. Python's `//` and `%` agree with Dafny's `/` and `%`
  for every integer when the divisor is positive, so no conversion is needed.
- **Run cycle.** `RunCycle` is the main block. Any failure of the fetch or
  the decode is caught by the bare `except` and gives status "No Network"
  and 300 s. A successful fetch goes through `Analyze` with status
  "Fetch Complete". The status then selects the error screen or the full
  report. The proof shows that the report branch is reached only after a
  successful fetch, and only with an observed hour. So the report never reads
  the variables that the `except` path leaves unbound.

The HTTP fetch together with `resp.json()` is a parameter
`fetch: string -> Response`: for each URL it either returns the decoded
array of observations or raises.

## Model

| member | source | states |
|---|---|---|
| `MagTagAqi.Url` | aqi.py:12-15 | the URL is the fixed prefix, then the zip code, then `&API_KEY=`, then the token, each at its own offset, with total length the sum of the four |
| `MagTagAqi.UrlRoundTrip` | aqi.py:12-15 | for a zip code without `&`, the zip code and token are recovered from the URL |
| `MagTagAqi.UrlInjective` | aqi.py:12-15 | two settings whose zip codes have no `&` and that produce the same URL are the same settings |
| `MagTagAqi.UntilAmpersand` | aqi.py:12-15 | the zip code is read back as the longest `&`-free prefix after the fixed prefix; the character after it is `&` |
| `MagTagAqi.Step` | aqi.py:35-41 | one pass of the loop body: the hour always takes HourObserved, an O3 record replaces the O3 value and category, a PM2.5 record the PM2.5 ones, any other name neither; it has no contract of its own and is specified by `ReduceIsLastMatch` and `AppendOthersKeepsLevel` |
| `MagTagAqi.Reduce` | aqi.py:34-41 | the whole loop as a left fold of `Step` from the initial values; it has no contract of its own and is specified by `ReduceIsLastMatch` and `AppendOthersKeepsLevel`, and `GetCurrentAqi` is proved equal to it |
| `MagTagAqi.LastIndexOf` | aqi.py:34-41 | the index of the last record whose ParameterName is the given name, and no later record has that name; -1 when none does |
| `MagTagAqi.GetCurrentAqi` | aqi.py:9-43 | a raised fetch/decode gives no result; otherwise the loop over the five variables yields the fold `Reduce` of the records: each pollutant from its last record, the hour from the last record |
| `MagTagAqi.ReduceIsLastMatch` | aqi.py:20-41 | O3 value/category equal the last O3 record's (or 0, "No Data"); the same for PM2.5; the hour is HourObserved of the last record of any name (or "No Data" when empty) |
| `MagTagAqi.EmptyGivesDefaults` | aqi.py:21-25 | an empty array yields (0, "No Data", 0, "No Data", "No Data") |
| `MagTagAqi.AppendOthersKeepsLevel` | aqi.py:36-41 | appending records that do not name O3 (resp. PM2.5) leaves the O3 (resp. PM2.5) value and category unchanged |
| `MagTagAqi.Analyze` | aqi.py:45-67 | sleep is always 300, 1800 or 7200; 300 exactly when the status is "No Network" or "No Data"; "No Network" in gives ("No Network", 300) whatever the other arguments; no hour gives ("No Data", 300); otherwise "Complete" with 1800 iff an AQI is strictly above 50, 7200 iff both are at most 50 |
| `MagTagAqi.AnalyzeMonotone` | aqi.py:62-65 | raising either AQI never lengthens the sleep interval |
| `MagTagAqi.SleepSplit` | aqi.py:69-73 | minutes lie in [0, 60); hours*3600 + minutes*60 <= seconds < hours*3600 + minutes*60 + 60; hours are non-negative for non-negative seconds |
| `MagTagAqi.SleepSplitUnique` | aqi.py:71-73 | any hours/minutes pair within those bounds is exactly the split, so it is `seconds // 3600` and `(seconds // 60) % 60` |
| `MagTagAqi.RunCycle` | aqi.py:86-150 | a raised fetch gives ("No Network", 300) and the error screen; a successful fetch is analysed with "Fetch Complete" and never reports "No Network"; the error screen is chosen exactly for "No Data"/"No Network"; the report shows the fold's hour, PM2.5 and O3 and 30 or 120 minutes; the sleep report is one of 0 h 5 min, 0 h 30 min, 2 h 0 min |

## Left out

- The `MagTag()` object, `magtag.network.fetch` and `resp.json()`: vendor network and JSON code. They are the `fetch` oracle parameter, which either returns typed records or raises.
- Records are typed (`HourObserved`, `ParameterName`, `AQI`, `CategoryName`). A record with a missing key makes the script raise `KeyError` inside the loop. The bare `except` turns that into "No Network", and the model covers it by the oracle's `Raised`. A record for another parameter that lacks `AQI` or `Category` does not raise in the script, because those keys are read only for O3 and PM2.5. The model represents it by an `Observation` with any `AQI` and `CategoryName`, since `Step` never reads those fields for other names.
- A non-integer `AQI` on an O3 or PM2.5 record (JSON `null`, say) is not modelled. In the script the comparison with 50 then raises inside `analyze_results`. That call runs in the `else:` clause, which the bare `except` does not cover, so the script stops instead of reporting "No Network".
- `Analyze`: the source's defaults for the two AQI arguments are the string "No Data". They are passed only on the "No Network" call, which returns before comparing them, so the model takes integers and passes 0 there.
- The hour is modelled as an integer, as AirNow sends it; an hour field holding the string "No Data" is not modelled.
- All display calls (`add_text`, `set_text`, positions, scales, `display.refresh`), the `time.sleep` waits, and the `{:4}` padding in the rendered text. Only the choice of template and the values it shows are modelled.
- `peripherals.battery` and its `{:.2f}` formatting: a floating-point hardware read.
- `exit_and_deep_sleep` and the `print` calls. They are a foreign power-management call and console output. The model keeps only the seconds and the hours/minutes they are given.
- `secrets.py`: a static configuration dictionary. The zip code and token are parameters of `Url`.
