# AirAnalyzer e-ink weather station — a Dafny model

AirAnalyzer is an ESP32 weather station with a 1-bit e-paper panel. It wakes
every two minutes and does the following:

- it reads a BMP280 (pressure), an AHT (temperature and humidity) and an
  SCD40 (CO2) and maps out-of-range readings to the sentinel `-3`;
- about once an hour it fetches a 24-hour forecast (temperature, rain,
  snowfall, sunrise and sunset) and keeps it in RTC memory;
- it redraws the whole panel;
- it deep-sleeps until the next two-minute slot.

The panel shows the following:

- a forecast band: a temperature graph with dashed gridlines every 10 °C;
- hour marks on every even hour, solid at 00 and 12;
- rain columns under the graph;
- a row of six tiles: temperature, humidity, sunrise, sunset, CO2 and
  pressure.

The model has two halves.

- **Renderer (`src/rendering.cpp`).** The display is a `Panel.Display`
  object. Every drawing primitive appends one command (`Line`, `FillRect`,
  `Text`, `Bitmap`, `SetFont`, …) to its `log`. Every loop of the renderer is
  a `while` loop with invariants. It is proved to append exactly the
  commands of a specification function: `Dashes.DashRuns`,
  `Graph.ForecastGraph`, `Graph.RainColumns`, `Forecast.WeatherForecast`,
  `Dashboard.Screen`. The properties of the drawing are lemmas about those
  functions: which commands appear, where, and how many.
- **Wake cycle (`src/main.cpp`).** The global and RTC variables are fields
  of `Station.Station`. The sensor reads, the forecast fetch and `setup` are
  methods that update them. The sensors, Wi-Fi, HTTP, JSON, `mktime` and
  `millis()` are replaced by their results, passed as parameters.

The model follows these C and Arduino semantics:

- C integer division and remainder truncate toward zero: `CNumerics.CDiv`
  and `CNumerics.CMod`.
- `static_cast<int>` truncates: `CNumerics.Trunc`.
- `floor` and `ceil` are modelled on `real`.
- `uint32_t` arithmetic, and `unsigned long` on the ESP32 (32 bits), wraps
  modulo 2^32.
- `String::substring`, `toInt` and `toCharArray` follow the Arduino core's
  behaviour (module `Arduino`).

Two details of the renderer shape the model:

- The coordinate mapping and the rain-column height truncate with
  `static_cast<int>` (src/rendering.cpp:33, 60).
- The 0 °C gridline is one solid line across the plot; every other
  gridline is dashed (src/rendering.cpp:35-39).

## Model

| member | source | states |
|---|---|---|
| Dashes.DashRun | src/rendering.cpp:11-13 | definition: run `k` starts at `x1 + k*(on+off)` and ends `on-1` pixels later, cut at `x2` (the `min(onLen, x2-xx+1)` of the loop) |
| Dashes.DashRuns | src/rendering.cpp:11-13 | definition: the runs for every start `x1, x1+period, …` not past `x2`, none when `on` is not positive |
| Dashes.DrawDashedHLine | src/rendering.cpp:10-15 | the loop draws exactly one horizontal segment per run of `DashRuns(x1, x2, on, off)`, in order |
| Dashes.DrawDashedVLine | src/rendering.cpp:17-22 | the same runs, drawn as vertical segments in column `x` |
| Dashes.DashRunsShape | src/rendering.cpp:11-13 | run `k` starts at `x1 + k*(on+off)`, lies inside `[x1, x2]` and is 1 to `on` pixels long; no runs when `x1 > x2` |
| Dashes.DashRunsDisjoint | src/rendering.cpp:11-13 | runs are strictly increasing and pairwise disjoint |
| Dashes.DashCoverage | src/rendering.cpp:11-13 | a pixel is inked exactly when it lies in `[x1, x2]` and `(x - x1) mod (on+off) < on` (both directions) |
| Graph.PlotRange | src/rendering.cpp:27-28 | the range is always positive: `max - min` when above 0.001, else 1 |
| Graph.MapY | src/rendering.cpp:33-46 | definition: row `y + h - static_cast<int>((v - min)/range * h)` (bounds in `MapYWithin`) |
| Graph.MapYWithin | src/rendering.cpp:33 | a value inside `[min, min+range]` maps to a row inside `[y, y+h]` |
| Graph.GridFirst | src/rendering.cpp:30 | definition: the first gridline value `floor(min/10)*10`; helper fact: a multiple of 10 |
| Graph.GridValuesInRange | src/rendering.cpp:30-31 | every gridline value is a multiple of 10 between `floor(min/10)*10` and `ceil(max)` |
| Graph.GridAt | src/rendering.cpp:32-39 | definition: one loop value `t` maps to its row; nothing when the row is off the plot (skipped, not clamped), one solid line across `x+1 .. x+w-2` at 0, the dashed line over the same span otherwise |
| Graph.Gridlines | src/rendering.cpp:31-40 | definition: the gridline loop, `GridAt` for `first, first+10, …` in order |
| Graph.GridAtShape | src/rendering.cpp:32-39 | a gridline is skipped (not clamped) when its row is off the plot; otherwise it is horizontal at that row within `x+1 .. x+w-2`, solid at 0 and dashed (runs of at most 3 px) elsewhere |
| Graph.GridlinesSound | src/rendering.cpp:31-40 | every command of the gridline loop belongs to some gridline value of the loop |
| Graph.ZeroLineDrawn | src/rendering.cpp:35-36 | when 0 is a gridline value and maps onto the plot, the full-width solid line is drawn |
| Graph.GridAtDrawn | src/rendering.cpp:31-40 | every command of every value the loop visits appears in the gridlines |
| Graph.DashedGridDrawn | src/rendering.cpp:37-38 | a non-zero value whose row lies inside the plot gets every dash of its dashed line, at least the first one from `x+1` |
| Graph.SampleX | src/rendering.cpp:43-45 | definition: the x of sample `i` is `x + i*w/n` with C division |
| Graph.SampleXMonotone | src/rendering.cpp:43-45 | `x + i*w/n` is non-decreasing in `i` and stays within `[x, x+w]` |
| Graph.Strands | src/rendering.cpp:47-49 | definition: the inner loop, one segment drawn at vertical offsets −2, −1, … |
| Graph.Curve | src/rendering.cpp:42-50 | definition: the outer loop, five strands per segment from sample `i-1` to sample `i`, at the mapped rows |
| Graph.StrandsAt | src/rendering.cpp:47-49 | one segment is five lines with vertical offsets −2 .. +2 |
| Graph.CurveShape | src/rendering.cpp:42-50 | the curve is exactly `5*(n-1)` lines; line `m` joins samples `m/5` and `m/5+1` with offset `m%5 - 2` |
| Graph.ForecastGraph | src/rendering.cpp:25-51 | definition: everything `drawForecastGraph` issues, the gridlines from `floor(min/10)*10` to `ceil(max)` and then the curve |
| Graph.ForecastGraphLines | src/rendering.cpp:25-51 | the graph issues only line commands |
| Graph.GridlinesLines | src/rendering.cpp:31-40 | the gridline loop issues only line commands |
| Graph.CurveLines | src/rendering.cpp:42-50 | the curve loop issues only line commands |
| Graph.DrawForecastGraph | src/rendering.cpp:25-51 | appends exactly `ForecastGraph`: the gridlines, then the curve |
| Graph.DrawGridlines | src/rendering.cpp:30-40 | the gridline loop appends the gridlines of values `first, first+10, …` up to `ceil(max)` |
| Graph.DrawGridValue | src/rendering.cpp:32-39 | the body of the gridline loop for one value |
| Graph.DrawCurve | src/rendering.cpp:42-50 | the nested curve loops append exactly `Curve` |
| Graph.ColWidth | src/rendering.cpp:55 | definition: the column pitch `max(1, w/n)` with C division; helper fact: at least 1 |
| Graph.ColHeight | src/rendering.cpp:59-60 | definition: `static_cast<int>(v/max * h)`, raised to 1 when smaller (bounds in `ColHeightBounds`) |
| Graph.ColHeightBounds | src/rendering.cpp:59-60 | a positive sample not above `maxVal` gives a column of 1 to `h` pixels |
| Graph.ColHeightExamples | src/rendering.cpp:59-60 | worked example: 2 of 4 over 60 px is 30 px; a trace is 1 px; 1/3 of 50 px truncates to 16 |
| Graph.RainColumn | src/rendering.cpp:57-63 | definition: nothing for a sample ≤ 0, else one fill at `x + i*colWidth`, top `y`, width `colWidth-1`, height `ColHeight` |
| Graph.RainColumns | src/rendering.cpp:56-64 | definition: the column loop, `RainColumn` for samples `0 .. k-1` in order |
| Graph.RainColumnsSound | src/rendering.cpp:56-64 | every command is the fill of some positive sample `i`; no command at all iff every sample is ≤ 0 |
| Graph.RainColumnsComplete | src/rendering.cpp:56-64 | every positive sample `i` gets its fill at `x + i*colWidth`, top `y`, width `colWidth-1` |
| Graph.RainFillBounds | src/rendering.cpp:56-64 | with `maxVal` ≥ every sample, each fill is at the top edge, 1 to `h` tall and `colWidth-1` wide |
| Graph.DrawRainColumns | src/rendering.cpp:53-65 | the loop appends exactly `RainColumns` |
| Graph.DrawRainColumn | src/rendering.cpp:57-63 | the loop body: nothing for `v ≤ 0`, else one fill |
| Forecast.GraphWidth | src/rendering.cpp:76 | definition: the graph is `W - 8` wide |
| Forecast.GraphHeight | src/rendering.cpp:77 | definition: the graph is `(H*50)/100` tall, with C division |
| Forecast.LabelX | src/rendering.cpp:117 | definition: the axis and rain labels start at `graphX + graphWidth - 28` |
| Forecast.RainY | src/rendering.cpp:124 | definition: the rain band starts at `tempGraphY + graphHeight`, flush below the graph |
| Forecast.RainHeight | src/rendering.cpp:123 | definition: the rain band is `max(12, graphHeight/3)` tall; helper fact: at least 12 |
| Forecast.MinOf | src/rendering.cpp:79-85 | the running minimum is ≤ every sample and is one of them |
| Forecast.MaxOf | src/rendering.cpp:79-85 | the running maximum is ≥ every sample and is one of them |
| Forecast.MaxRain | src/rendering.cpp:80-84 | the rain maximum starts at 0: it is ≥ 0 and ≥ every sample, and it is 0 or one of them |
| Forecast.ScanForecast | src/rendering.cpp:79-85 | the scan loop computes exactly `MinOf`, `MaxOf` and `MaxRain` |
| Forecast.AxisBounds | src/rendering.cpp:86-88 | definition: floor of the minimum and ceiling of the maximum, widened by 1 each way when equal (properties in `AxisEncloses`) |
| Forecast.AxisEncloses | src/rendering.cpp:86-88 | the axis is floor/ceil of the extremes, widened by 1 each way when equal; it encloses the data and `lo < hi`, so the graph never divides by a degenerate range |
| Forecast.AxisExamples | src/rendering.cpp:86-88 | worked example: −2.3 .. 11.7 gives −3 .. 12; 5 .. 5 gives 4 .. 6 |
| Forecast.HourMark | src/rendering.cpp:98-113 | definition: nothing when `hour % 2` (C remainder) is non-zero; otherwise the centred label, then a solid line over `+1 .. +gh-1` at hours 0 and 12 or the dashed line over `+2 .. +gh-2` at the others |
| Forecast.HourMarks | src/rendering.cpp:96-114 | definition: the hour loop, `HourMark` for slots `0 .. k-1` in order |
| Forecast.HourMarkShape | src/rendering.cpp:97-113 | each command of slot `i` is its label or its vertical line, and only on an even hour |
| Forecast.HourAt | src/rendering.cpp:97 | definition: the hour of slot `i` is `(start + i) % 24` with C remainder (range in `HourOfDay`) |
| Forecast.HourX | src/rendering.cpp:99 | definition: the column of slot `i` is `graphX + i*w/n` with C division |
| Forecast.HourMarksSound | src/rendering.cpp:96-114 | every command of the hour loop belongs to an even hour `(start+i) % 24`: the centred label at `x + i*w/n`, a solid line over `+1 .. +h-1` at 0 and 12, dashed runs within `+2 .. +h-2` otherwise |
| Forecast.HourMarkDrawn | src/rendering.cpp:96-114 | every command of every slot the loop visits appears in the hour marks |
| Forecast.HourMarksComplete | src/rendering.cpp:96-114 | every even hour gets its label; hours 0 and 12 get their solid line; the other even hours get every dash of their dashed line, at least the first one from `tempGraphY+2` on a graph of 4 px or more |
| Forecast.HourOfDay | src/rendering.cpp:97 | for a start hour in 0..23 the hour of every slot is in 0..23 |
| Forecast.DrawHourMarks | src/rendering.cpp:93-114 | the hour loop appends exactly `HourMarks` |
| Forecast.DrawHourSlot | src/rendering.cpp:97-113 | one iteration of the hour loop |
| Forecast.DrawHourMark | src/rendering.cpp:98-113 | the marks for one hour |
| Forecast.RainScale | src/rendering.cpp:125 | `max(maxRain, 1)` is ≥ 1 and ≥ every rain sample, so columns stay within the band |
| Forecast.BandFills | src/rendering.cpp:123-125 | every fill in the band lies flush under the graph at `tempGraphY + graphHeight`, is 1 to `rainHeight` tall, and belongs to a positive rain hour at its column |
| Forecast.TempSection | src/rendering.cpp:91-121 | definition: the graph, the 12 pt font, the hour marks, the bold font, then the labels of `static_cast<int>` of the axis maximum and minimum |
| Forecast.RainSection | src/rendering.cpp:123-129 | definition: the rain columns scaled by `max(maxRain, 1)`, the 18 pt font and the `ceil(maxRain)` label |
| Forecast.Band | src/rendering.cpp:74-129 | definition: the temperature section on the widened axis, then the rain section |
| Forecast.WeatherForecast | src/rendering.cpp:70 | definition: nothing for an invalid forecast, else `Band` |
| Forecast.DrawWeatherForecast | src/rendering.cpp:67-130 | nothing is drawn when the forecast is not valid; otherwise exactly `WeatherForecast`: graph, hour marks, axis labels, rain columns and rain label |
| Forecast.DrawTempSection | src/rendering.cpp:90-121 | the temperature graph, hour marks and the two axis labels |
| Forecast.DrawRainSection | src/rendering.cpp:123-129 | the rain columns scaled by `max(maxRain, 1)` and the `ceil(maxRain)` label |
| Dashboard.TileCaption | src/rendering.cpp:157-164 | definition: temperature with one decimal and "C"; humidity truncated with `static_cast<int>` and "%"; the two time strings as they are; CO2 and pressure truncated |
| Dashboard.TileIcon | src/rendering.cpp:176-183 | definition: temperature, humidity, sunrise, sunset, CO2, pressure icons in tile order |
| Dashboard.Tile | src/rendering.cpp:165-182 | definition: bold font, the reading centred at `ix + 32`, regular font, the 64×64 icon at `ix` |
| Dashboard.Tiles | src/rendering.cpp:153-184 | definition: the tile loop, `Tile` for tiles `0 .. k-1` in order |
| Dashboard.TilesAt | src/rendering.cpp:153-184 | tile `i` is commands `4i .. 4i+3`; its reading is centred at `tileX(i) + 32` and its icon is drawn at `tileX(i)` |
| Dashboard.BottomH | src/rendering.cpp:145 | definition: the bottom strip is `max(64, H/5)` tall |
| Dashboard.BottomY | src/rendering.cpp:146 | definition: the strip starts at `H - bottomH - 16` |
| Dashboard.IconY | src/rendering.cpp:151 | definition: the icons start 2 px below the strip top |
| Dashboard.ValueY | src/rendering.cpp:155 | definition: the reading is centred 20 px below the icons |
| Dashboard.Gap | src/rendering.cpp:150 | definition: `(W - 6*64)/7` with C division (sign and layout in `TileLayout`) |
| Dashboard.TileX | src/rendering.cpp:154 | definition: tile `i` starts at `gap + i*(64 + gap)` |
| Dashboard.TileLayout | src/rendering.cpp:145-154 | gap `(W - 384)/7` ≥ 0 for `W ≥ 384`; tile `i` at `gap + i*(64+gap)`; tiles increase and do not overlap; the last ends at or before `W - gap` |
| Dashboard.TileExample | src/rendering.cpp:150-154 | worked example: on a 480 px panel the gap is 13 and the tiles start at 13 … 398 |
| Dashboard.Page | src/rendering.cpp:140-184 | definition: one pass, white fill, the forecast band, the regular font, the six tiles |
| Dashboard.Screen | src/rendering.cpp:137-185 | definition: the full-window refresh, then `pages` copies of `Page` |
| Dashboard.RepeatSplit | src/rendering.cpp:139-185 | `a + b` passes are `a` passes followed by `b` passes |
| Dashboard.PassIsPage | src/rendering.cpp:137-185 | every pass issues the same page, and each page begins with a white fill |
| Dashboard.UpdateDisplay | src/rendering.cpp:132-186 | one full-window refresh followed by `pages` identical passes |
| Dashboard.DrawPage | src/rendering.cpp:140-184 | one pass: white fill, forecast band, regular font, six tiles |
| Dashboard.DrawTiles | src/rendering.cpp:153-184 | the tile loop appends exactly the six tiles |
| Dashboard.DrawTile | src/rendering.cpp:165-183 | bold font, centred reading, regular font, the 64×64 icon |
| Arduino.Substring | src/main.cpp:222 | `substring(l, r)` is never longer than the string; inside it, it is exactly characters `l .. r-1`; it is empty when both bounds are at or past the end, and runs to the end when only the larger bound is past it |
| Arduino.ToInt | src/main.cpp:222 | definition: `toInt` as `atol`, skipping leading white space, one optional sign, then the longest run of decimal digits; no digits give 0 |
| Arduino.SubstringSwap | src/main.cpp:248 | the order of the two bounds does not matter |
| Arduino.ToIntTwoDigits | src/main.cpp:222 | two digits read by `toInt` give the two-digit number, 0 .. 99 |
| Arduino.HourOfTimestamp | src/main.cpp:222 | the start hour is the number formed by characters 11 and 12 of the first time string |
| Arduino.HourExample | src/main.cpp:222 | worked example: `2025-06-01T14:00` gives hour 14 |
| Arduino.SkipSpaces | src/main.cpp:222 | `toInt` skips exactly the leading white space |
| Arduino.CString | src/main.cpp:344-345 | a NUL-terminated buffer reads back as the characters before its first NUL |
| Arduino.Terminated | src/main.cpp:249 | definition: the buffer after `toCharArray(buf, size)`, the first `min(size-1, len)` characters, a NUL, then the old contents; as long as the buffer |
| Arduino.ToCharArray | src/main.cpp:249 | the copy loop leaves the buffer as `Terminated`: at most `size-1` characters, a NUL, and the rest untouched |
| Arduino.CStringOfCopy | src/main.cpp:249 | read back, the buffer gives the copied prefix of the string and nothing of the old contents |
| Station.MoonPhase | src/main.cpp:44-50 | the phase is in `[0, 1)` for every timestamp, including wrapped ones |
| Station.Elapsed | src/main.cpp:48 | definition: seconds since the reference full moon as a wrapping 32-bit subtraction |
| Station.MoonPhaseAtZero | src/main.cpp:44-50 | worked example: at timestamp 0 the subtraction wraps to 2531352978 and the numerator is 321522 |
| Station.MoonPhasePeriodic | src/main.cpp:44-50 | the phase is 0 at the reference and repeats one lunar cycle later |
| Station.SanitisedPressure | src/main.cpp:95 | pressure ends in `[300, 5000]` or at −3; in-range readings are kept and out-of-range readings become −3 |
| Station.AmbientPressure | src/main.cpp:92-93 | forwarded iff strictly between 300 and 5000, as whole hPa 300 .. 4999 |
| Station.PressureBoundaries | src/main.cpp:92-95 | 300 and 5000 are kept but not forwarded; anything forwarded is kept |
| Station.SanitisedHumidity | src/main.cpp:104 | humidity ends in `[0, 100]` or at −3; in-range readings are kept and out-of-range readings become −3 |
| Station.SanitisedAirTemp | src/main.cpp:105 | air temperature always ends in `[-40, 85]`; in-range readings are kept and out-of-range readings become −3 |
| Station.SanitiseIdempotent | src/main.cpp:95-105 | sanitising a sanitised value changes nothing |
| Station.Co2Reading | src/main.cpp:133-146 | CO2 is never above 10000: raw ppm, `-error` on a read error, −1 when not ready; a raw reading or an error code above 10000 becomes −3 |
| Station.Co2Examples | src/main.cpp:133-146 | worked example: 10001 ppm → −3, 415 → 415, error 7 → −7, not ready → −1 |
| Station.FetchDecision | src/main.cpp:331 | while the 32-bit product cannot wrap, a fetch happens iff first boot or ≥ 30 boots since the last |
| Station.ShouldFetch | src/main.cpp:331 | definition: the fetch test with its 32-bit product (properties in `FetchDecision`, `FetchWrap`, `Boot`) |
| Station.FetchWrap | src/main.cpp:331 | at 35792 boots since the last fetch, the wrapped 32-bit product fails the test, and no fetch happens |
| Station.Boot | src/main.cpp:324-334 | both counters go up by 1 (mod 2^32); a fetching boot resets the second; from below 30 it stays below 30 and fetches exactly on the first or the 30th boot |
| Station.Boots | src/main.cpp:324-334 | definition: the counters after `k` boots, `Boot` applied `k` times |
| Station.BootNoWrap | src/main.cpp:324-334 | one boot in plain arithmetic, away from the wrap-arounds |
| Station.FetchEvery30 | src/main.cpp:324-334 | after a fetch the next 29 boots do not fetch and the 30th does |
| Station.Copied | src/main.cpp:237-243 | definition: the copy loop runs for `min(24, len)` hours of the temperature array |
| Station.RainAt | src/main.cpp:239-242 | hourly precipitation is rain + 10 × snowfall; missing entries count as 0 |
| Station.NumberAt | src/main.cpp:240-241 | definition: a missing or null hourly value reads as 0, as the JSON lookup with a `0.0f` default does |
| Station.SunTimeStored | src/main.cpp:246-255 | a full time string leaves its `HH:MM` in the 6-byte buffer, read back unchanged |
| Station.SunTimeFits | src/main.cpp:248-249 | the buffer holds at most 5 characters before a NUL, whatever the string |
| Station.SleepTimeWraps | src/main.cpp:361 | as written, 121 s of work gives 4293967296 µs of sleep, and `millis() = 536990912` gives 0 µs |
| Station.SleepTimeAsWritten | src/main.cpp:361 | definition: the sleep time as the code computes it, wrapping in 32 bits (behaviour in `SleepTimeWraps`, `SleepTimeAgrees`) |
| Station.SleepTime | src/main.cpp:361 | corrected: 1000 µs to 120 s; the chip wakes at the end of the two-minute slot, or 1 ms later if that has passed |
| Station.SleepTimeAgrees | src/main.cpp:361 | up to 120 s into the cycle, the code as written computes the corrected sleep time |
| Station.Station.constructor | src/main.cpp:28-39 | power-on state: zeroed RTC memory, `--:--` time strings, pressure 1000, CO2 −1 |
| Station.Station.ReadSensorBMP | src/main.cpp:90-95 | pressure becomes the sanitised hPa reading; the value forwarded to the CO2 sensor is `AmbientPressure` |
| Station.Station.ReadSensorAHT | src/main.cpp:98-106 | temperature and humidity become their sanitised readings |
| Station.Station.ReadSensorSCD | src/main.cpp:130-146 | CO2 becomes `Co2Reading` |
| Station.Station.ReadSensors | src/main.cpp:157-163 | the three sanitised readings |
| Station.Station.FetchWeatherForecast | src/main.cpp:184-272 | nothing changes unless a 200 answer parsed; the valid flag is only ever set, never cleared |
| Station.Station.ForecastStored | src/main.cpp:219-256 | definition: the state after a parsed answer; start hour from characters 11-12 of the first time and the timestamp mod 2^32 when there is a first time, `Copied` hours overwritten and the rest kept, each sun time buffer `Terminated` with its `HH:MM` when present |
| Station.Station.StoreForecast | src/main.cpp:219-256 | start hour and timestamp from the first time string; hours `0 .. min(24, n)-1` overwritten and the rest kept; sunrise and sunset buffers take `HH:MM`; marked valid |
| Station.Station.CopyForecast | src/main.cpp:237-243 | writes exactly indices `0 .. min(24, n)-1` of both arrays, with rain + 10 × snow, and leaves the others unchanged |
| Station.Station.Setup | src/main.cpp:316-374 | one wake cycle: the `Boot` step; the sanitised readings; when the boot fetches and the answer parses, the forecast fields become `ForecastStored`, and otherwise they stay as they were; the redraw of the resulting state with 24 hours; the sleep time as the code computes it, equal to the corrected one up to 120 s; the fetch counter stays below 30 |
| Station.Station.WakeAndFetch | src/main.cpp:324-334 | counters, sensors and fetch: `Boot`, the sanitised readings, `ForecastStored` after a fetch whose answer parses, and otherwise no forecast field changes |
| Station.Station.Redraw | src/main.cpp:337-352 | `updateDisplay` gets the readings, both buffers read as C strings, and all 24 forecast hours |

## Left out

- Hardware and network I/O are not modelled: sensor drivers, I2C, Wi-Fi, HTTP, the ThingSpeak upload, display power, hibernate and deep sleep. Their results are parameters (`SensorInputs`, `Response`, `millis`).
- JSON parsing is reduced to its results (`Forecast`). A null or non-numeric entry reads as 0. A daily sunrise or sunset entry is used when present: ArduinoJson's truthiness test is modelled as presence.
- `mktime` is a C library call. Its result is the parameter `epoch`, stored modulo 2^32. The year, month and day parsing that feeds it is not modelled.
- `millis()` is the parameter `millis`. The battery-voltage average, `temperatureRead()` and the first, discarded SCD40 read are not modelled, since nothing shown depends on them.
- IEEE `float` is modelled as exact `real` arithmetic: the coordinate mapping, the moon-phase division, pressure / 100 and rain + 10 × snow. Rounding, NaN and infinities are not modelled.
- C `int` overflow in the renderer's layout arithmetic is not modelled (integers are unbounded). The 32-bit wraps in `main.cpp` are.
- Font metrics (`getTextBounds`), glyph pixels, bitmap contents and `String(float, 1)` formatting are not modelled. A text command records its anchor point and whether it is centred horizontally or in both directions. Captions are recorded as their values.
- The panel's `firstPage`/`nextPage` protocol is opaque. The number of passes is the parameter `pages` (at least 1).
- `drawWeatherForecast` takes sunrise and sunset strings but never uses them, so the model does not pass them.
- `setup` computes `getMoonPhase()` and passes it to `updateDisplay`, which declares no such parameter (src/rendering.cpp:132-136). The model computes the phase and drops it.
- Arduino.ToInt: reads digits into an unbounded integer. `atol` overflow is not modelled.
- src/rendering.h and src/PinConfig.h are not part of this model: they hold only prototypes and pin constants.

## Findings

| source | as written | input that shows it | evidently intended | confidence | as-written member | corrected member |
|---|---|---|---|---|---|---|
| src/main.cpp:361 | `max((UPDATE_INTERVAL_MS - millis()) * 1000ULL, 1000ULL)` subtracts in 32-bit `unsigned long`, which wraps once `millis()` passes 120000. The 64-bit result is then stored back into a 32-bit `unsigned long`. | `millis() = 121000` gives 4293967296 µs (about 71.6 min) instead of the 1 ms floor. `millis() = 536990912` gives 0 µs, below the 1000 µs floor. | Sleep for the rest of the two-minute interval, and at least 1000 µs. | not executed | Station.SleepTimeWraps | Station.SleepTime |
