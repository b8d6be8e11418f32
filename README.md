# Sensor dashboard: a Dafny model of its transforms and state slots

The dashboard is a single React component (`src/App.js`). On mount it fetches a sensor history, a vehicle
list and three live readings (door, temperature, humidity). It stores them in six state slots and renders
three line charts and a status panel. This project models that component's logic:

- `formatDate` (module `Clock`, file `clock.dfy`): epoch milliseconds rendered as `H:MM:SS`. It uses a
  fixed UTC-5 shift, an unpadded hour and minutes and seconds padded with the `("0" + n).substr(-2)`
  idiom. Timestamps the JavaScript Date cannot hold print as `NaN:aN:aN`. The integer-to-decimal rendering
  it relies on is in module `Decimal` (`decimal.dfy`).
- `millidegreeCelsiusToFahrenheit` (module `Conversion`, `conversion.dfy`), over exact reals.
- The chart projections (module `History`, `history.dfy`): the label, temperature and humidity
  sequences that every render derives from `sensorHistory` with `Array.prototype.map`, and the three
  charts built from them.
- The state slots (module `Dashboard`, `dashboard.dfy`): class `App` holds the six slots as mutable
  fields. Its methods `GetSensorHistory`, `GetVehicleData` and `FetchLiveData` update them as the three
  mount-time routines do. Each method is specified by a pure function on a `Slots` value (`AfterHistory`,
  `AfterVehicles`, `AfterLive`), and the lemmas are stated about those functions. Fetch results come in
  already decoded: `None` stands for a request or a JSON parse that threw. The door and vehicle lines of
  the status panel are functions of the slots.

`Wrappers` (`wrappers.dfy`) holds the `Option` type.

Two points where the code and its own labels or data differ:
- The comment at src/App.js:95 and the axis title at src/App.js:157 say `HH:MM:SS`. The code pads only
  minutes and seconds, so hours print without a leading zero. The model follows the code.
- `series` is read by index (src/App.js:130, 136). A point with fewer than two entries gives a missing
  chart value.

## Model

| member | source | states |
|---|---|---|
| `Decimal.ParseDecimalString` | src/App.js:110 | the decimal rendering of a number reads back to that number, so it loses nothing |
| `Decimal.DecimalStringCanonical` | src/App.js:105-110 | the rendering has no leading zero (its first digit is '0' only for 0); one digit below 10, two digits up to 99 |
| `Decimal.DecimalString` | src/App.js:110 | the printed form of a non-negative integer is a non-empty string of decimal digits |
| `Decimal.IntString` | src/App.js:172 | a year prints as its digits without leading zeros ("0" only for 0), with a leading '-' when negative, and reads back to the same number |
| `Clock.Substr` | src/App.js:110 | `substr(start)` keeps the last `-start` characters for a negative start (the whole string when shorter) and is a suffix of its input |
| `Clock.IsTimeValue` | src/App.js:98 | a Date keeps exactly the time values within 100,000,000 days of the epoch; `new Date(t)` is invalid otherwise |
| `Clock.IsFormattable` | src/App.js:98-102 | both Dates are valid, `new Date(t)` and the one `setTime` shifts by -5 hours, exactly when -8.64e15 + 18000000 <= t <= 8.64e15 |
| `Clock.UtcHours` | src/App.js:105 | `getUTCHours()` is an hour in 0..23 |
| `Clock.UtcMinutes` | src/App.js:106 | `getUTCMinutes()` is a minute in 0..59 |
| `Clock.UtcSeconds` | src/App.js:107 | `getUTCSeconds()` is a second in 0..59 |
| `Clock.Template` | src/App.js:106-110 | the output is the hour text, ':', the last two characters of `"0" + minutes`, ':', and the last two characters of `"0" + seconds` |
| `Clock.FormatDate` | src/App.js:96-112 | the output is "NaN:aN:aN" exactly when a Date is out of range; otherwise it is 7 or 8 characters with a digit hour part and ':' before the last five and the last two |
| `Clock.PaddedLastTwo` | src/App.js:106-110 | `("0" + n).substr(-2)` is exactly the two digits of n, tens first, for every n in 0..99 |
| `Clock.FormatDateShape` | src/App.js:96-112 | a formattable timestamp prints as its EST hour unpadded, then minute and second as two digits each, separated by ':'; any other prints "NaN:aN:aN" |
| `Clock.FormatDateIs` | src/App.js:96-112 | the characters printed for a timestamp whose EST clock reads h:m:s |
| `Clock.FormatDateUnpaddedHour` | src/App.js:105-110 | the output is 7 characters before 10:00 EST and 8 from then on, and starts with '0' only at hour 0 |
| `Clock.ParseClockString` | src/App.js:110 | parsing the reference rendering `H:MM:SS` gives back the hour, minute and second |
| `Clock.ParseFormatDate` | src/App.js:96-112 | every formattable timestamp's output parses back to its EST clock fields, which lie in 0..23, 0..59 and 0..59 |
| `Clock.FormatDateInvalid` | src/App.js:98-102 | the output fails to parse as a clock reading exactly when the Date or the shifted Date is out of range |
| `Clock.EstClockFromSecondOfDay` | src/App.js:101-107 | the printed fields are the hour, minute and second of the EST second of the day: `h*3600 + m*60 + s == ((t - 18000000) / 1000) % 86400` |
| `Clock.FormatDateEqualIff` | src/App.js:101-110 | two formattable timestamps print alike exactly when they fall on the same EST second of the day |
| `Clock.FormatDateDaily` | src/App.js:101-102 | the shift is a fixed UTC-5 with no daylight-saving rule: `t` and `t + 86400000` print the same |
| `Clock.FormatDateWholeSeconds` | src/App.js:98-107 | milliseconds are dropped: formattable timestamps with the same `t / 1000` print the same |
| `Clock.WholeSecondsNeedValidDates` | src/App.js:98-102 | 8640000000000000 prints "19:00:00" and 8640000000000999 prints "NaN:aN:aN", although both have the same `t / 1000` |
| `Clock.FormatDateEightUtc` | src/App.js:101-110 | 08:00:00 UTC prints "3:00:00" |
| `Clock.FormatDateEpoch` | src/App.js:101-110 | the epoch prints "19:00:00", the evening before in EST |
| `Clock.FormatDateRecent` | src/App.js:96-112 | 1700000000000 (2023-11-14T22:13:20Z) prints "17:13:20" |
| `Conversion.ConversionRoundTrip` | src/App.js:116-120 | the conversion and the inverse `(f - 32) * 5/9 * 1000` undo each other in both orders |
| `Conversion.MillidegreeCelsiusToFahrenheit` | src/App.js:116-120 | the inverse conversion recovers the reading, and the result is above 32 exactly when the reading is above 0 |
| `Conversion.ConversionStrictlyIncreasing` | src/App.js:116-120 | the conversion is strictly increasing and injective: `a < b` iff `f(a) < f(b)` |
| `Conversion.ConversionFixedPoints` | src/App.js:116-120 | f(0) = 32, f(100000) = 212, f(23000) = 73.4, f(-40000) = -40 |
| `History.Map` | src/App.js:127 | `Array.prototype.map` gives one result per element |
| `History.MapAt` | src/App.js:127 | the i-th result of the map is the callback applied to the i-th element |
| `History.MapAppend` | src/App.js:127 | mapping a concatenation concatenates the mapped parts, so nothing is dropped, added or reordered |
| `History.Labels` | src/App.js:127 | one label per history point, in the order received: `labels[i] == formatDate(history[i].timeMs)` |
| `History.SeriesAt` | src/App.js:130-136 | `series[k]` is present exactly when k is an index of `series`, and then it is that element |
| `History.Label` | src/App.js:127 | a point's label parses back to its EST clock reading, or is "NaN:aN:aN" for an invalid Date |
| `History.TemperaturePoint` | src/App.js:130 | present exactly when `series[1]` exists, and then the inverse conversion gives back `series[1]` |
| `History.HumidityPoint` | src/App.js:136 | present exactly when `series[0]` exists, and then equal to it |
| `History.TemperatureData` | src/App.js:130 | one entry per history point: the Fahrenheit conversion of `series[1]`, missing exactly when `series` has no index 1 |
| `History.HumidityData` | src/App.js:136 | one entry per history point: `series[0]` unchanged, missing exactly when `series` is empty |
| `History.ChartsAgree` | src/App.js:126-141 | the three charts share one label sequence as long as the history, each dataset lines up with it, and the combined chart's datasets are the other two charts' datasets |
| `History.CombinedChart` | src/App.js:126-141 | one label per history point, two datasets aligned with the labels: "Temperature" plots `TemperatureData` and "Humidity" plots `HumidityData`, under the labels `Labels` gives |
| `History.TemperatureChart` | src/App.js:182-191 | one label per history point and one "Temperature" dataset, aligned with them, that plots `TemperatureData` under the labels `Labels` gives |
| `History.HumidityChart` | src/App.js:222-232 | one label per history point and one "Humidity" dataset, aligned with them, that plots `HumidityData` under the labels `Labels` gives |
| `History.ChartsFollowInputOrder` | src/App.js:183-186 | labels and both datasets of a concatenated history are the concatenations of the parts |
| `History.LabelsKeepReceivedOrder` | src/App.js:223 | two points out of chronological order are labelled "3:00:00", "19:00:00" in the order received, with no sorting |
| `History.ChartPointExample` | src/App.js:227 | a point with series [50, 23000] charts as humidity 50 and temperature 73.4 |
| `Dashboard.AmbientTemperature` | src/App.js:62 | `temperatureData.sensors[0].ambientTemperature` is available exactly when the reply arrived with a non-empty `sensors`, and is that first sensor's reading |
| `Dashboard.CurrentHumidity` | src/App.js:69 | `humidityData.sensors[0].humidity` is available exactly when the reply arrived with a non-empty `sensors`, and is that first sensor's reading |
| `Dashboard.LiveProgress` | src/App.js:55-78 | fetchLiveData completes at most 4 writes and never exactly 3, since reading the clock cannot throw |
| `Dashboard.Truthy` | src/App.js:174 | a JSON value is falsy exactly when it is null, false, 0 or the empty string |
| `Dashboard.AfterHistory` | src/App.js:30-38 | only the history slot may change; it takes the reply's `results`, or keeps its value when the request failed |
| `Dashboard.AfterVehicles` | src/App.js:41-49 | only the vehicle slot may change; it takes the reply's `data`, or keeps its value when the request failed |
| `Dashboard.AfterLive` | src/App.js:52-79 | history and vehicles are untouched; a failed door request changes nothing; a later slot changes only if every earlier step succeeded, and then holds that step's value; humidity and time are both written exactly when all three replies are usable |
| `Dashboard.DoorText` | src/App.js:174 | "Closed" exactly for a truthy value, "Open" exactly for a falsy one |
| `Dashboard.FirstYear` | src/App.js:172 | `${vehicleData[0]?.year}` is "undefined" exactly when there is no first record, and otherwise the printed year |
| `Dashboard.FirstMake` | src/App.js:172 | `${vehicleData[0]?.make}` is "undefined" with no first record, and otherwise its make |
| `Dashboard.FirstModel` | src/App.js:172 | `${vehicleData[0]?.model}` is "undefined" with no first record, and otherwise its model |
| `Dashboard.AfterMount` | src/App.js:82-84 | after the three mount-time routines, each slot is what its own routine alone makes of it: history from getSensorHistory, vehicles from getVehicleData, the four live slots from fetchLiveData |
| `Dashboard.VehicleHeadingAsWritten` | src/App.js:172 | as written, the heading is never blank, and with no vehicle it reads "undefined undefined undefined" |
| `Dashboard.App.constructor` | src/App.js:21-26 | the slots start as `[]`, `[]`, `null`, `null`, `null`, `null` |
| `Dashboard.App.GetSensorHistory` | src/App.js:30-38 | the history slot takes the reply's `results`; on a failed request it and every other slot are unchanged |
| `Dashboard.App.GetVehicleData` | src/App.js:41-49 | the vehicle slot takes the reply's `data`; on a failed request it and every other slot are unchanged |
| `Dashboard.App.FetchLiveData` | src/App.js:52-79 | door, temperature (converted), humidity and time are written in turn, and the first step that throws abandons the rest; only these four slots may change |
| `Dashboard.App.Mount` | src/App.js:81-84 | the mount effect's end state is `AfterMount` of the prior slots: each slot as its own routine leaves it |
| `Dashboard.App.DoorStatusText` | src/App.js:174 | the door line reads "Closed" exactly when the door slot is truthy and "Open" exactly when it is falsy |
| `Dashboard.App.VehicleTextAsWritten` | src/App.js:172 | the vehicle line as rendered is never blank, and reads "undefined undefined undefined" while no vehicle is known, and the first vehicle's year, make and model separated by spaces once one is |
| `Dashboard.App.CorrectedVehicleText` | src/App.js:172 | the corrected vehicle line is blank exactly when no vehicle is known, and otherwise the first vehicle's year, make and model separated by spaces |
| `Dashboard.LiveWritesPrefix` | src/App.js:55-78 | with k steps completed, each of door, temperature, humidity and time holds its new value when its position is below k and its prior value otherwise; history and vehicles are untouched |
| `Dashboard.LiveProgressCases` | src/App.js:55-78 | nothing is written exactly when the door request fails; all four writes happen exactly when all three replies arrive with a non-empty `sensors` |
| `Dashboard.LiveIdempotent` | src/App.js:55-74 | applying the same live replies a second time changes nothing |
| `Dashboard.RoutinesCommute` | src/App.js:30-84 | the three routines write disjoint slots and commute pairwise, so their completion order does not change the end state |
| `Dashboard.HistoryWithoutVehicles` | src/App.js:30-49 | if history arrives and the vehicle request fails, the history slot and its chart labels are populated and the vehicle slot stays `[]` |
| `Dashboard.LiveTemperatureExample` | src/App.js:59-63 | a temperature reply of 23000 millidegrees shows 73.4 Fahrenheit; a failed humidity request then leaves humidity and time unset; a `true` door reads "Closed" |
| `Dashboard.DoorTextCases` | src/App.js:174 | "Closed" iff truthy, "Open" iff not; the initial `null` and a failed door request read "Open" |
| `Dashboard.VehicleHeading` | src/App.js:172 | the heading is blank iff there is no vehicle; otherwise it is year, make and model separated by single spaces |
| `Dashboard.VehicleHeadingBeforeData` | src/App.js:172 | as written, the heading reads "undefined undefined undefined" while the vehicle slot holds its initial `[]`; the corrected heading is blank |
| `Dashboard.VehicleHeadingWithData` | src/App.js:172 | once a vehicle is known, the written and corrected headings agree: year, make and model |

## Left out

- Network I/O and JSON decoding (`fetch`, `response.json()`, the `http://localhost:3001` endpoints): replies are parameters, already decoded into typed shapes, and `None` stands for either kind of failure.
- Replies with a missing field or a wrongly typed value: for example a `/vehicles` body without `data` would store `undefined`, and `*` coerces a temperature that is not a number (`null` reads as 0 and gives 32, `"23000"` gives 73.4; `undefined` or a non-numeric string gives NaN). The typed reply shapes cannot express these. Only the empty `sensors` array, which throws, is modelled.
- The `console.error` call in each catch block (src/App.js:36, 47, 77): it is diagnostic output with no effect on the slots. A failure is modelled only by the slots it leaves unchanged.
- The React machinery: `useState`, `useEffect`, the mount trigger and re-rendering.
- Dashboard.App.Mount: runs the three routines one after another to completion. The real routines interleave at each `await`. `RoutinesCommute` shows that the order in which whole routines complete does not matter; interleaving at the level of single writes is not modelled. The two are equivalent here because every slot is written by only one routine.
- `new Date().toLocaleTimeString()`: it depends on the system clock and locale, so the time slot receives an opaque string parameter.
- Floating-point rounding in `millidegreeCelsiusToFahrenheit`: the conversion is idealised over reals.
- Number-to-text rendering of the temperature and humidity lines (`temperature + " Fahrenheit"`, `humidity + "%"`): this is JavaScript string concatenation with floating-point number formatting. It prints "null Fahrenheit" and "null%" before data arrives.
- The time line (`At time: {currentTime}`): React renders the initial `null` as nothing, and the time text itself is an opaque parameter.
- Clock.FormatDate: takes integer timestamps only. A Date truncates a fractional timestamp, and that truncation is not modelled.
- History.TemperaturePoint: `undefined` (from a missing `series[1]`) and the NaN it converts to are both rendered as a missing value (`None`).
- Chart.js defaults and options, colours, titles and JSX layout.
- The commented-out polling interval: it is dead code.
- `src/setupProxy.js`: reverse-proxy configuration with no logic of its own.

## Findings

| source | as written | input that shows it | evidently intended | confidence | as-written member | corrected member |
|---|---|---|---|---|---|---|
| src/App.js:172 | `vehicleData` starts as `[]`, and stays an array as long as `/vehicles` answers in the `{ data: [...] }` shape. Every array is truthy, so `vehicleData ? … : ''` then always renders the template (a body without `data` would store `undefined`, and only then is the heading blank) | the initial slots, or a failed `/vehicles` request: the heading reads "undefined undefined undefined" | a blank heading until a vehicle is known | not executed; high | `Dashboard.VehicleHeadingBeforeData` (about `Dashboard.VehicleHeadingAsWritten`) | `Dashboard.VehicleHeading` (used by `Dashboard.App.CorrectedVehicleText`) |
