# Weather dashboard: data layer and session state, in Dafny

This project models the core of a browser weather dashboard. The dashboard
geolocates the user, or takes a city the user searched for. It fetches
current, hourly and daily weather and the air quality from the Open-Meteo
services. It normalises the answers into a display model and shows them in
the unit the user picked.

The model has five modules:

- `Wrappers` (wrappers.dfy): `Option`. A JSON key that is missing or `null`
  is `None`.
- `JsBuiltins` (js_builtins.dfy): the JavaScript built-ins the code relies
  on: `Math.round`, `slice(0, n)`, `trim`, `filter(Boolean)` and `join`.
  Numbers are `real`, and `Math.round(x)` is `(x + 1/2).Floor`.
- `Api` (api.dfy): src/api.js. It has the forecast normaliser
  `normalizeOpenMeteo`, the European AQI bands `aqiLevel`, and the air-quality
  extraction. It also has the query guard and result mapping of
  `searchCities`. What a request returned is a parameter, and `None` stands
  for a response whose status was not ok.
- `Display` (display.dfy): the pure helpers of src/App.js. These are
  `toUnit` and the two unit-converted copies handed to the cards, the theme
  and mascot rules, the temperature icons, the 12-hour clock label, the
  carousel step and the title of a picked city.
- `Session` (session.dfy): the `App` component's state as a class
  `Session`. Its methods are the events: a fetch pair settling, the search box
  changing, a search answering, a city being picked, a click outside the
  suggestions and the unit toggle. The search effect's `active` flag is a
  generation counter. Each effect run is a `SearchTicket`, and only the live
  run's answer reaches `suggestions`.

The search effect guards against stale answers: its cleanup sets
`active = false` (src/App.js:446-452), and `Session.ResolveSearch` models that
guard.

## Model

| member | source | states |
|---|---|---|
| JsBuiltins.Round | src/App.js:479 | `Math.round(x)` is the integer n with x - 1/2 < n <= x + 1/2, so halves round up |
| JsBuiltins.Slice | src/api.js:47 | `slice(0, n)` has min(length, n) elements and is a prefix of the input |
| JsBuiltins.Trim | src/api.js:82 | `trim()` is the piece of the input with only white space before and after it, and it neither starts nor ends with white space; it is empty exactly when the input is all white space |
| JsBuiltins.TrimUnique | src/api.js:82 | any piece of the input with only white space around it that neither starts nor ends with white space is the trimmed string, so `trim()` is fully determined |
| JsBuiltins.Compact | src/App.js:464 | `filter(Boolean)` keeps exactly the present, non-empty strings and is no longer than its input |
| JsBuiltins.CompactAppend | src/App.js:464 | filtering distributes over concatenation: the kept strings of the first list come before those of the second, so order is kept and a string occurring twice is kept twice |
| JsBuiltins.CompactCons | src/App.js:464 | the recursive definition of `filter(Boolean)`, one step unfolded: the first slot is kept when truthy, in front of the filtered rest (a proof helper) |
| JsBuiltins.Join | src/App.js:464 | `join(sep)` lays every part at its offset (the lengths of the parts before it plus one separator each), puts the separator after every part but the last, and has exactly that total length, so nothing else is in it |
| JsBuiltins.JoinCons | src/App.js:464 | the recursive definition of `join(sep)`, one step unfolded: the first part, the separator and the join of the rest (a proof helper) |
| JsBuiltins.JoinOfTwo | src/App.js:464 | two parts join as first, separator, second |
| JsBuiltins.JoinOfThree | src/App.js:464 | three parts join with the separator between each pair of neighbours |
| Api.At | src/api.js:49-50 | `a?.[i]` is slot i when the array exists and is long enough, and absent otherwise |
| Api.VisibilityKm | src/api.js:66 | visibility is absent exactly when the upstream metres are absent or 0, and otherwise times 1000 gives back the metres |
| Api.PressureMb | src/api.js:67 | pressure is `pressure_msl` when present (0 included), otherwise `surface_pressure` |
| Api.FirstTimestamp | src/api.js:74-75 | sunrise and sunset are present exactly when the first daily entry is a non-empty string, and are then that entry |
| Api.Normalize | src/api.js:42-79 | normalising is total on every payload shape; the hourly list has at most 12 entries and the daily list at most 7 |
| Api.NormalizeHourly | src/api.js:47-51 | the hourly list has min(12, n) entries for n upstream times; entry i takes the i-th time, temperature and rain chance, so order is kept |
| Api.NormalizeDaily | src/api.js:53-58 | the daily list has min(7, n) entries; entry i takes the i-th date, maximum, minimum and precipitation sum |
| Api.NormalizeMissingSections | src/api.js:43-45 | a missing `current`, `hourly` or `daily` gives all-absent current fields, an empty hourly list, or an empty daily list with an all-absent sun record |
| Api.NormalizeCurrentAndSun | src/api.js:60-78 | the current fields carry the upstream values; visibility is the metres divided by 1000 (absent for absent or 0); pressure falls back to surface pressure; sunrise and sunset are slot 0 of the daily arrays when that is a non-empty string, otherwise absent; the UV maximum is slot 0 |
| Api.AqiLevelOf | src/api.js:119-125 | every AQI falls in exactly one band: up to 20 Low, up to 40 Moderate, up to 60 High, up to 80 Very High, above that Extreme |
| Api.AqiLevelMonotone | src/api.js:119-125 | a higher AQI never gives a cleaner band |
| Api.AqiLevelBoundaries | src/api.js:119-125 | 20 is Low and 21 Moderate, 40 Moderate and 41 High, 60 High and 61 Very High, 80 Very High and 81 Extreme |
| Api.LevelNamesDistinct | src/api.js:119-125 | the five labels "Low", "Moderate", "High", "Very High" and "Extreme" are distinct, so the label tells the band |
| Api.AirQualityFrom | src/api.js:113-116 | air quality is present exactly when the response was ok and the first hourly index is a number; it then holds that number rounded and the band of the unrounded number |
| Api.AirQualityBandBeforeRounding | src/api.js:115-116 | the band is taken before rounding: a first index of 20.4 gives aqi 20 in band Moderate |
| Api.SearchName | src/api.js:82-84 | no request is made exactly when the trimmed query is shorter than 2; otherwise the trimmed query is sent |
| Api.Suggestions | src/api.js:91-101 | a failed response or missing `results` gives no suggestions; otherwise there is one suggestion per result, in order, with id `lat,lon` and the result's fields |
| Api.SearchCities | src/api.js:81-102 | a guarded query gives `[]` whatever the geocoder would answer; otherwise the result is the mapped suggestions |
| Api.ShortQueriesYieldNothing | src/api.js:82 | a query shorter than 2 characters, or made only of white space, gives no suggestions |
| Api.CommaSplit | src/api.js:95 | `a + "," + b` splits back into a and b when a holds no comma |
| Api.SuggestionIdsDistinguishCoordinates | src/api.js:95 | distinct coordinate pairs get distinct ids when each latitude prints without a comma and the printer tells these coordinates apart |
| Display.ToUnit | src/App.js:477-480 | an absent value passes through, and only an absent value gives an absent result; in 'C' the value is rounded, in 'F' the value c*9/5+32 is rounded |
| Display.ToUnitMonotone | src/App.js:477-480 | a warmer reading is never shown as a colder one, in either unit |
| Display.FahrenheitReadsBack | src/App.js:479 | converting a shown Fahrenheit value back lands within 5/18 of a degree of the stored Celsius value |
| Display.ToUnitExactValues | src/App.js:477-480 | whole Celsius degrees show unchanged; 100 C shows as 212 F and -40 C as -40 F |
| Display.CurrentCardCopy | src/App.js:555 | the current card's copy converts only the current and feels-like temperatures and each day's max and min; every other field and every list length stay as stored |
| Display.HourlyCardCopy | src/App.js:558 | the hourly card's copy converts only each hour's temperature; everything else stays as stored |
| Display.ConvertingTwiceCompounds | src/App.js:555 | converting an already converted copy would compound (0 C to 32, then to 90), which is why copies are made from the stored Celsius data |
| Display.Classify | src/App.js:519 | exactly one outlook holds: wet if humidity > 70 and rain chance > 50, else cold at or below 18, else hot at or above 34, else mild |
| Display.OutlookNamesDistinct | src/App.js:254-262 | each outlook has its own page class (line 519) and its own mascot condition, so neither name is shared by two outlooks |
| Display.ThemeOf | src/App.js:514-521 | the theme is rain exactly when humidity (0 when absent) > 70 and the first hour's rain chance (0 when absent) > 50; otherwise cold at or below 18 and hot at or above 34 on the stored temperature; with no temperature it is rain or mild |
| Display.MascotCondition | src/App.js:248-262 | with no data the mascot is cloudy; otherwise rain on the same humidity rule, else cold below 18.5 and sunny from 33.5 on the card's temperature, because that temperature is rounded first |
| Display.ShownMascot | src/App.js:248-262 | as written: with no data, or with data but no temperature and a dry reading, the mascot is cloudy; otherwise rain on the humidity rule, else cold at or below 18 and sunny at or above 34 on the temperature as shown in the chosen unit, so in 'F' Fahrenheit values meet the thresholds |
| Display.CelsiusCopyKeepsMascot | src/App.js:248-262 | in 'C' the condition computed on the card's copy equals the condition on the stored data |
| Display.CorrectedMascot | src/App.js:254-262 | the mascot with Celsius thresholds shows, in every unit, what the page shows in 'C' |
| Display.MascotAgreesWithTheme | src/App.js:514-521 | for a whole-degree or absent temperature, the corrected mascot and the page theme give the same outlook |
| Display.DailyIconOf | src/App.js:176-190 | the daily icon (and the identical cloud type) steps at inclusive lower bounds 35, 30, 25 and 20; a missing maximum gets the rain icon |
| Display.DailyIconMonotone | src/App.js:176-182 | a warmer day never gets a colder icon |
| Display.HourlyIconOf | src/App.js:297-302 | the hourly icon steps at inclusive lower bounds 30, 25 and 20 |
| Display.HourlyIconMonotone | src/App.js:297-302 | a warmer hour never gets a colder icon |
| Display.ShownHourlyIcon | src/App.js:293-307 | as written: an hour with a temperature gets the step icon of that temperature as shown in the chosen unit; an hour without one gets none here |
| Display.CorrectedHourlyIcon | src/App.js:293-307 | the hourly icon with Celsius thresholds shows, in every unit, what the card shows in 'C' |
| Display.Hour12 | src/App.js:288 | the 12-hour label of an hour 0..23 lies in 1..12 and agrees with the hour modulo 12 |
| Display.MeridiemOf | src/App.js:289 | the meridiem is am exactly when the hour is below 12 |
| Display.ClockLabelRoundTrip | src/App.js:287-289 | the label and meridiem read back as the original hour, so no two hours share a label |
| Display.NextSlide | src/App.js:346 | the next slide index stays in 0..3 and wraps from the last slide to the first |
| Display.AdvanceBy | src/App.js:346 | any number of ticks keeps the index in 0..3 |
| Display.AdvanceByCycles | src/App.js:346 | after k ticks from slide i the carousel shows (i + k) mod 4, so it visits every slide and is back after four |
| Display.PickTitle | src/App.js:464 | no contract of its own; its meaning in all eight cases is `PickTitleCases` |
| Display.PickTitleCases | src/App.js:464 | in all eight cases of name, region and country being present and non-empty or not, the title is the present ones in that order separated by ", ", and empty when none is |
| Display.CompactOfThree | src/App.js:464 | filtering name, region and country keeps each present, non-empty one, in that order |
| Session.StartCoords | src/App.js:421-444 | geolocation success fetches at the reported position; failure, denial or no support fetches at (13.0827, 80.2707) |
| Session.Session.constructor | src/App.js:381-389 | on mount nothing is loaded, loading is on, the title is "Mevalurkuppam", the unit is 'C', the theme mild, and the mount search for "" is live |
| Session.Session.Settle | src/App.js:422-441 | settling turns loading off on both paths; success stores the normalised forecast and the air quality extracted from its response and recomputes the theme; failure records the error and keeps the old data; the invariant keeps the stored lists within 12 hours and 7 days |
| Session.Session.SetQuery | src/App.js:446-452 | a changed query retires the live search run and starts a new one for the new query; an unchanged query starts nothing |
| Session.Session.ResolveSearch | src/App.js:446-452 | a search answer reaches the suggestions only when its run is still live, that is, when its query is still the current one |
| Session.Session.DismissSuggestions | src/App.js:455-458 | a click outside the search box empties the suggestions |
| Session.Session.Pick | src/App.js:463-475 | picking sets the joined title, clears the suggestions and the query, turns loading on and fetches at the city's coordinates |
| Session.Session.SetUnit | src/App.js:533-534 | the unit toggle changes only the unit; the stored data stays in Celsius |
| Session.Session.CurrentCard | src/App.js:555 | the current card gets a copy exactly when data is loaded, converted to the current unit |
| Session.Session.Mascot | src/App.js:248-262 | the mascot the page shows is the condition of the current card's unit-converted copy; in 'C' it is the corrected mascot |
| Session.StartWithoutGeolocation | src/App.js:432-443 | with geolocation denied, the fetch goes to the fallback coordinates; after it settles loading is off and the normalised forecast or the error is recorded |
| Session.ToggleUnitTwice | src/App.js:533-555 | toggling to 'F' and back shows exactly the card shown before |
| Session.StaleSearchIsIgnored | src/App.js:446-452 | an answer for "bern" that arrives after the user typed "ber" leaves the suggestions unchanged |

## Left out

- The HTTP requests, URL and query-string building and JSON parsing (src/api.js:1-40, 83-92, 104-114). Their results are parameters; `None` stands for a non-ok status.
- JavaScript's number-to-string conversion used in a suggestion id is the parameter `show`.
- `new Date(t)`, `getHours()` and locale formatting. Timestamps are opaque strings, and an hour enters as an integer in 0..23.
- Timing and interleaving: the 250 ms debounce timer, `Promise.all` and in-flight requests racing. Only the state each event leaves behind is modelled. A fetch pair's result arrives as a `Settle` call, in any order.
- React rendering, the Lottie mascot, SunPath (wall-clock time), the parallax and gyroscope effects, the summary text and the static slide content. The unused air-quality value is stored but never read.
- The hourly card's placeholders for a missing temperature or rain chance (`Math.sin`, `Math.random`). `CorrectedHourlyIcon` returns `None` for such an hour.
- Floating point: numbers are exact reals, so rounding at half-way points follows `Math.round` on exact values.
- Api.SearchName: lengths count Unicode scalar values, while JavaScript's `length` counts UTF-16 code units, so one character outside the Basic Multilingual Plane is a 2-character query in the source but a 1-character query here.
- Request parameters such as the fixed field lists, `count=8` and `timezone=auto` are part of the URL building left out above.

## Findings

| source | as written | input that shows it | evidently intended | confidence | as-written member | corrected member |
|---|---|---|---|---|---|---|
| src/App.js:248-262 | The mascot condition compares the card's temperature with 18 and 34. The card is handed the copy converted to the chosen unit (line 555), so in 'F' Fahrenheit values meet Celsius thresholds. | A dry 5 C reading: the mascot is "cold" in 'C' but "sunny" in 'F', where the card sees 41. | The thresholds apply to Celsius, as they do for the theme on the stored data (line 519). | medium, not executed | Display.ShownMascotDependsOnUnit | Display.CorrectedMascot |
| src/App.js:293-307 | The hourly icon compares the converted hourly temperature (line 558) with 30, 25 and 20. | An hour at 0 C shows the cloud icon in 'C' and the full-sun icon in 'F', where it is 32. | The thresholds apply to Celsius. | medium, not executed | Display.ShownHourlyIconDependsOnUnit | Display.CorrectedHourlyIcon |
