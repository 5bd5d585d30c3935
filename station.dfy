/** The wake cycle of the station (main.cpp): every boot the RTC counters
    advance, the sensors are read and sanitised, the forecast is fetched
    about once an hour, the panel is redrawn and the chip sleeps until the
    next two-minute slot. The hardware, the network and the JSON parser
    are replaced by their results, which arrive as parameters. */
module Station {
  import opened CNumerics
  import opened Panel
  import opened Arduino
  import opened Dashboard

  const Two32 := 0x1_0000_0000

  /** `uint32_t`, and `unsigned long` on the ESP32. */
  type uint32 = x: int | 0 <= x < 0x1_0000_0000

  type uint16 = x: int | 0 <= x < 0x1_0000

  datatype Option<T> = None | Some(value: T)

  const UpdateIntervalMs := 120000
  const WeatherUpdateIntervalMs := 3600000
  const ForecastHours := 24

  // ---------------------------------------------------------------- moon phase

  const FullMoonRef: uint32 := 1763614318
  const LunarCycle: uint32 := 2551443

  /** Seconds since the reference moon, as a `uint32_t` subtraction: it
      wraps modulo 2^32 for timestamps before the reference. */
  function Elapsed(t: uint32): uint32
  {
    (t - FullMoonRef) % Two32
  }

  /** `getMoonPhase`: the position in the lunar cycle as a fraction. The
      numerator is a remainder modulo the cycle, so the fraction is in
      `[0, 1)` whatever the timestamp, wrapped or not. */
  function MoonPhase(t: uint32): (phase: real)
    ensures 0.0 <= phase < 1.0
  {
    (Elapsed(t) % LunarCycle) as real / LunarCycle as real
  }

  /** Before any forecast has been fetched the timestamp is 0, the
      subtraction wraps to 2531352978 and the phase is 321522/2551443. */
  lemma MoonPhaseAtZero()
    ensures Elapsed(0) == 2531352978
    ensures Elapsed(0) % LunarCycle == 321522
    ensures MoonPhase(0) == 321522.0 / 2551443.0
  {
  }

  /** The phase is 0 at the reference and repeats after one lunar cycle. */
  lemma MoonPhasePeriodic(t: uint32)
    requires FullMoonRef <= t && t + LunarCycle < Two32
    ensures MoonPhase(FullMoonRef) == 0.0
    ensures MoonPhase(t + LunarCycle) == MoonPhase(t)
  {
    var e := t - FullMoonRef;
    assert Elapsed(t) == e && Elapsed(t + LunarCycle) == e + LunarCycle;
    DivShift(e + LunarCycle, LunarCycle);
    assert (e + LunarCycle) % LunarCycle == e % LunarCycle;
  }

  // ---------------------------------------------------------------- sanitisers

  /** `readSensorBMP`, the tail: a pressure (hPa) above 5000 or below 300
      becomes the sentinel -3; any other reading is kept as it is. */
  function SanitisedPressure(p: real): (r: real)
    ensures 300.0 <= r <= 5000.0 || r == -3.0
    ensures 300.0 <= p <= 5000.0 ==> r == p
    ensures !(300.0 <= p <= 5000.0) ==> r == -3.0
  {
    if p > 5000.0 || p < 300.0 then -3.0 else p
  }

  /** The ambient pressure handed to the CO2 sensor, `(uint16_t)pressure`:
      only a reading strictly between 300 and 5000 is forwarded, truncated
      to whole hPa. */
  function AmbientPressure(p: real): (v: Option<uint16>)
    ensures v.Some? <==> 300.0 < p < 5000.0
    ensures v.Some? ==> 300 <= v.value <= 4999 && v.value as real <= p < v.value as real + 1.0
  {
    TruncBounds(p);
    if p < 5000.0 && p > 300.0 then Some(Trunc(p)) else None
  }

  /** The bounds 300 and 5000 themselves are kept but not forwarded, and a
      forwarded pressure is always a kept one. */
  lemma PressureBoundaries(p: real)
    ensures SanitisedPressure(300.0) == 300.0 && AmbientPressure(300.0) == None
    ensures SanitisedPressure(5000.0) == 5000.0 && AmbientPressure(5000.0) == None
    ensures AmbientPressure(p).Some? ==> SanitisedPressure(p) == p
  {
  }

  /** `readSensorAHT`: relative humidity outside `[0, 100]` becomes -3. */
  function SanitisedHumidity(h: real): (r: real)
    ensures 0.0 <= r <= 100.0 || r == -3.0
    ensures 0.0 <= h <= 100.0 ==> r == h
    ensures !(0.0 <= h <= 100.0) ==> r == -3.0
  {
    if h < 0.0 || h > 100.0 then -3.0 else h
  }

  /** `readSensorAHT`: an air temperature outside `[-40, 85]` becomes -3,
      which itself lies inside that range. */
  function SanitisedAirTemp(t: real): (r: real)
    ensures -40.0 <= r <= 85.0
    ensures -40.0 <= t <= 85.0 ==> r == t
    ensures !(-40.0 <= t <= 85.0) ==> r == -3.0
  {
    if t < -40.0 || t > 85.0 then -3.0 else t
  }

  /** Sanitising twice changes nothing: the sentinel survives its own
      sanitiser. */
  lemma SanitiseIdempotent(p: real, h: real, t: real)
    ensures SanitisedPressure(SanitisedPressure(p)) == SanitisedPressure(p)
    ensures SanitisedHumidity(SanitisedHumidity(h)) == SanitisedHumidity(h)
    ensures SanitisedAirTemp(SanitisedAirTemp(t)) == SanitisedAirTemp(t)
  {
  }

  /** `readSensorSCD`, the outcome: the raw ppm when the sensor had data and
      read without error, `-error` on a read error, -1 when no data was
      ready; anything above 10000 then becomes -3. */
  function Co2Reading(dataReady: bool, error: int, raw: uint16): (r: real)
    ensures r <= 10000.0
    ensures !dataReady ==> r == -1.0
    ensures dataReady && error == 0 && raw <= 10000 ==> r == raw as real
    ensures dataReady && error != 0 && -error <= 10000 ==> r == -error as real
    ensures dataReady && error == 0 && raw > 10000 ==> r == -3.0
    ensures dataReady && error != 0 && -error > 10000 ==> r == -3.0
    ensures r == -3.0 || r == -1.0 || (dataReady && error == 0 && r == raw as real) || (dataReady && r == -error as real)
  {
    var c := if dataReady then (if error == 0 then raw as real else -error as real) else -1.0;
    if c > 10000.0 then -3.0 else c
  }

  /** A raw reading above 10000 ppm is shown as the sentinel. */
  lemma Co2Examples()
    ensures Co2Reading(true, 0, 10001) == -3.0
    ensures Co2Reading(true, 0, 415) == 415.0
    ensures Co2Reading(true, 7, 415) == -7.0
    ensures Co2Reading(false, 0, 415) == -1.0
  {
  }

  // ---------------------------------------------------------------- boot counters

  /** The fetch condition of `setup`: the first boot, or at least an hour's
      worth of two-minute boots since the last fetch. The product is
      `unsigned long`, 32 bits wide, and wraps. */
  function ShouldFetch(bootCount: uint32, bootsFromFetch: uint32): bool
  {
    bootCount == 1 || (bootsFromFetch * UpdateIntervalMs) % Two32 >= WeatherUpdateIntervalMs
  }

  /** While the product does not wrap, the condition means "first boot or
      at least 30 boots since the last fetch". */
  lemma FetchDecision(bootCount: uint32, bootsFromFetch: uint32)
    requires bootsFromFetch < 35792
    ensures ShouldFetch(bootCount, bootsFromFetch) <==> bootCount == 1 || bootsFromFetch >= 30
  {
    MulMonotone(bootsFromFetch, 35791, UpdateIntervalMs);
    if bootsFromFetch >= 30 {
      MulMonotone(30, bootsFromFetch, UpdateIntervalMs);
    } else {
      MulMonotone(bootsFromFetch, 29, UpdateIntervalMs);
    }
  }

  /** Past 35791 boots the product wraps and the condition fails again;
      the reset on every fetch keeps the counter far below that. */
  lemma FetchWrap()
    ensures ShouldFetch(2, 30) && !ShouldFetch(2, 35792)
  {
  }

  /** The two RTC counters. */
  datatype Counters = Counters(bootCount: uint32, bootsFromFetch: uint32)

  /** The counters after a boot, and whether that boot fetches. */
  datatype BootStep = BootStep(next: Counters, fetch: bool)

  /** One boot: both counters go up by one (modulo 2^32), and a boot that
      fetches resets the second to 0 whether or not the fetch succeeds.
      From a counter below 30 it stays below 30, and a fetch happens
      exactly on the first boot or on the 30th boot since the last one. */
  function Boot(c: Counters): (r: BootStep)
    ensures r.next.bootCount == (c.bootCount + 1) % Two32
    ensures r.fetch ==> r.next.bootsFromFetch == 0
    ensures !r.fetch ==> r.next.bootsFromFetch == (c.bootsFromFetch + 1) % Two32
    ensures c.bootsFromFetch < 30 ==>
      && r.next.bootsFromFetch < 30
      && (r.fetch <==> r.next.bootCount == 1 || c.bootsFromFetch == 29)
  {
    var bootCount := (c.bootCount + 1) % Two32;
    var bootsFromFetch := (c.bootsFromFetch + 1) % Two32;
    var step := if ShouldFetch(bootCount, bootsFromFetch) then BootStep(Counters(bootCount, 0), true)
                else BootStep(Counters(bootCount, bootsFromFetch), false);
    if c.bootsFromFetch < 30 then FetchDecision(bootCount, bootsFromFetch); step else step
  }

  /** A boot below both wrap-arounds, in plain arithmetic. */
  lemma BootNoWrap(c: Counters)
    requires c.bootsFromFetch < 30 && c.bootCount + 1 < Two32
    ensures Boot(c).fetch <==> c.bootCount == 0 || c.bootsFromFetch == 29
    ensures Boot(c).next == Counters(c.bootCount + 1, if Boot(c).fetch then 0 else c.bootsFromFetch + 1)
  {
  }

  /** Boots `0 .. k-1` after a fetch (none of them the first boot ever) do
      not fetch, and the counter then reads `k`; the 30th fetches. */
  lemma {:induction false} FetchEvery30(c: Counters, k: nat)
    requires c.bootsFromFetch == 0 && 1 <= k <= 30
    requires 1 <= c.bootCount && c.bootCount + 30 < Two32
    ensures Boots(c, k - 1).bootsFromFetch == k - 1
    ensures Boots(c, k - 1).bootCount == c.bootCount + k - 1
    ensures Boot(Boots(c, k - 1)).fetch <==> k == 30
  {
    if k > 1 {
      FetchEvery30(c, k - 1);
      var prev := Boots(c, k - 2);
      assert Boots(c, k - 1) == Boot(prev).next;
      BootNoWrap(prev);
    }
    BootNoWrap(Boots(c, k - 1));
  }

  /** The counters after `k` boots. */
  function Boots(c: Counters, k: nat): Counters
  {
    if k == 0 then c else Boot(Boots(c, k - 1)).next
  }

  // ---------------------------------------------------------------- forecast fetch

  /** The fields of the open-meteo answer that are read. A number entry is
      `None` when it is JSON null or not a number; a daily entry is `None`
      when it is absent or null. */
  datatype Forecast = Forecast(time: seq<string>, temperature: seq<Option<real>>,
                               rain: seq<Option<real>>, snowfall: seq<Option<real>>,
                               sunrise: Option<string>, sunset: Option<string>)

  /** What the request produced: no Wi-Fi, or an HTTP status with the
      parsed body (`None` when the body is not valid JSON). */
  datatype Response = NoWifi | Http(status: int, body: Option<Forecast>)

  /** The forecast is used only from a 200 answer that parsed. */
  predicate Parsed(r: Response)
  {
    r.Http? && r.status == 200 && r.body.Some?
  }

  /** `array[i] | 0.0f`: the number at `i`, or 0 when it is missing. */
  function NumberAt(a: seq<Option<real>>, i: nat): real
  {
    if i < |a| && a[i].Some? then a[i].value else 0.0
  }

  /** The precipitation of hour `i`: rain in mm plus snowfall in cm taken
      as ten times as much water. */
  function RainAt(f: Forecast, i: nat): (r: real)
    ensures NumberAt(f.rain, i) >= 0.0 && NumberAt(f.snowfall, i) >= 0.0 ==> r >= NumberAt(f.rain, i)
    ensures i >= |f.snowfall| ==> r == NumberAt(f.rain, i)
    ensures i >= |f.rain| && i >= |f.snowfall| ==> r == 0.0
  {
    NumberAt(f.rain, i) + NumberAt(f.snowfall, i) * 10.0
  }

  /** How many hours are copied: the answer's length, at most 24. */
  function Copied(f: Forecast): nat
  {
    Min(ForecastHours, |f.temperature|)
  }

  /** A sunrise or sunset time such as `2025-06-01T05:12` is stored as its
      `HH:MM` part, which fits the 6-byte buffer with its NUL and reads
      back unchanged. */
  lemma SunTimeStored(s: string, buf: seq<char>)
    requires |buf| == 6 && |s| >= 16
    requires forall k :: 11 <= k < 16 ==> s[k] != '\0'
    ensures CString(Terminated(buf, Substring(s, 11, 16))) == s[11..16]
  {
    CStringOfCopy(Substring(s, 11, 16), buf);
  }

  /** Whatever the string, the buffer never holds more than five
      characters before its NUL. */
  lemma SunTimeFits(s: string, buf: seq<char>)
    requires |buf| == 6
    ensures |CString(Terminated(buf, Substring(s, 11, 16)))| <= 5
    ensures Terminated(buf, Substring(s, 11, 16))[Min(5, |Substring(s, 11, 16)|)] == '\0'
  {
    var t := Terminated(buf, Substring(s, 11, 16));
    var n := Min(5, |Substring(s, 11, 16)|);
    assert t[n] == '\0';
  }

  // ---------------------------------------------------------------- sleep time

  /** The sleep time as `setup` computes it: `UPDATE_INTERVAL_MS - millis()`
      is a 32-bit subtraction that wraps once `millis()` passes 120000, and
      the 64-bit result of `max(... * 1000, 1000)` is stored back into a
      32-bit `unsigned long`. */
  function SleepTimeAsWritten(millis: uint32): uint32
  {
    var diff := (UpdateIntervalMs - millis) % Two32;
    Max(diff * 1000, 1000) % Two32
  }

  /** Two inputs that break the intended bound: a boot that took 121 s
      sleeps for more than 71 minutes, and at `millis() == 536990912` the
      truncation leaves no sleep time at all, below the 1000 us floor. */
  lemma SleepTimeWraps()
    ensures SleepTimeAsWritten(121000) == 4293967296
    ensures SleepTimeAsWritten(121000) > UpdateIntervalMs * 1000
    ensures SleepTimeAsWritten(536990912) == 0
  {
  }

  /** The sleep time intended: the rest of the two-minute interval, and at
      least 1000 us once the interval is used up. The chip then wakes at
      the end of the interval, or 1 ms from now if that has passed. */
  function SleepTime(millis: uint32): (us: uint32)
    ensures 1000 <= us <= UpdateIntervalMs * 1000
    ensures millis < UpdateIntervalMs ==> millis * 1000 + us == UpdateIntervalMs * 1000
    ensures millis >= UpdateIntervalMs ==> us == 1000
  {
    if millis < UpdateIntervalMs then (UpdateIntervalMs - millis) * 1000 else 1000
  }

  /** Up to the end of the interval the code as written computes exactly
      the intended sleep time. */
  lemma SleepTimeAgrees(millis: uint32)
    requires millis <= UpdateIntervalMs
    ensures SleepTimeAsWritten(millis) == SleepTime(millis)
  {
    assert (UpdateIntervalMs - millis) % Two32 == UpdateIntervalMs - millis;
  }

  // ---------------------------------------------------------------- the station

  /** The sensor results one boot reads: the BMP280 pressure in Pa, the
      AHT temperature and humidity, and the SCD40's ready flag, read error
      and raw ppm. */
  datatype SensorInputs = SensorInputs(pascal: real, airTemp: real, humidity: real,
                                       co2Ready: bool, co2Error: int, co2Raw: uint16)

  /** The station's global state: the last sensor readings and the
      variables kept in RTC memory across deep sleep. */
  class Station {
    var tempAir: real
    var humidity: real
    var co2: real
    var pressure: real
    var bootCount: uint32
    var bootsFromFetch: uint32
    var fetchTimestamp: uint32
    var startHour: int
    var weatherValid: bool
    const forecastTemp: array<real>
    const forecastRain: array<real>
    const sunrise: array<char>
    const sunset: array<char>

    /** The buffers have their declared sizes and are distinct. */
    ghost predicate Buffers()
      reads this
    {
      && forecastTemp.Length == ForecastHours && forecastRain.Length == ForecastHours
      && sunrise.Length == 6 && sunset.Length == 6
      && forecastTemp != forecastRain && sunrise != sunset
    }

    /** Between boots the fetch counter stays below 30. */
    ghost predicate Valid()
      reads this
    {
      Buffers() && bootsFromFetch < 30
    }

    /** The state at power-on: RTC memory zeroed, both time strings
        `--:--`, pressure 1000 and CO2 -1. */
    constructor ()
      ensures Valid()
      ensures bootCount == 0 && bootsFromFetch == 0 && fetchTimestamp == 0
      ensures startHour == 0 && !weatherValid
      ensures tempAir == 0.0 && humidity == 0.0 && pressure == 1000.0 && co2 == -1.0
      ensures forecastTemp[..] == seq(ForecastHours, _ => 0.0) && forecastRain[..] == seq(ForecastHours, _ => 0.0)
      ensures sunrise[..] == "--:--\0" && sunset[..] == "--:--\0"
      ensures fresh(forecastTemp) && fresh(forecastRain) && fresh(sunrise) && fresh(sunset)
    {
      tempAir, humidity, co2, pressure := 0.0, 0.0, -1.0, 1000.0;
      bootCount, bootsFromFetch, fetchTimestamp := 0, 0, 0;
      startHour, weatherValid := 0, false;
      forecastTemp := new real[ForecastHours](_ => 0.0);
      forecastRain := new real[ForecastHours](_ => 0.0);
      sunrise := new char[] ['-', '-', ':', '-', '-', '\0'];
      sunset := new char[] ['-', '-', ':', '-', '-', '\0'];
    }

    /** `readSensorBMP`: the reading in Pa becomes hPa, is forwarded to the
        CO2 sensor when in range, and is sanitised. */
    method ReadSensorBMP(pascal: real) returns (ambient: Option<uint16>)
      modifies this`pressure
      ensures pressure == SanitisedPressure(pascal / 100.0)
      ensures ambient == AmbientPressure(pascal / 100.0)
    {
      pressure := pascal / 100.0;
      ambient := None;
      if pressure < 5000.0 && pressure > 300.0 {
        ambient := Some(Trunc(pressure));
      }
      if pressure > 5000.0 || pressure < 300.0 {
        pressure := -3.0;
      }
    }

    /** `readSensorAHT`. */
    method ReadSensorAHT(t: real, h: real)
      modifies this`tempAir, this`humidity
      ensures tempAir == SanitisedAirTemp(t) && humidity == SanitisedHumidity(h)
    {
      tempAir := t;
      humidity := h;
      if humidity < 0.0 || humidity > 100.0 { humidity := -3.0; }
      if tempAir < -40.0 || tempAir > 85.0 { tempAir := -3.0; }
    }

    /** `readSensorSCD`, from the second read on. */
    method ReadSensorSCD(dataReady: bool, error: int, raw: uint16)
      modifies this`co2
      ensures co2 == Co2Reading(dataReady, error, raw)
    {
      if dataReady {
        if error == 0 {
          co2 := raw as real;
        } else {
          co2 := -error as real;
        }
      } else {
        co2 := -1.0;
      }
      if co2 > 10000.0 { co2 := -3.0; }
    }

    /** `fetchWeatherForecast`: nothing changes unless a 200 answer parsed;
        then the start hour and timestamp come from the first time string,
        the first `Copied` hours of both arrays are overwritten, the
        sunrise and sunset buffers take the `HH:MM` part of their strings,
        and the forecast is marked valid. It is never marked invalid. */
    method FetchWeatherForecast(r: Response, epoch: int)
      requires Buffers()
      modifies this`startHour, this`fetchTimestamp, this`weatherValid
      modifies forecastTemp, forecastRain, sunrise, sunset
      ensures Buffers()
      ensures weatherValid == (old(weatherValid) || Parsed(r))
      ensures !Parsed(r) ==>
        && startHour == old(startHour) && fetchTimestamp == old(fetchTimestamp)
        && forecastTemp[..] == old(forecastTemp[..]) && forecastRain[..] == old(forecastRain[..])
        && sunrise[..] == old(sunrise[..]) && sunset[..] == old(sunset[..])
      ensures Parsed(r) ==> ForecastStored(r.body.value, epoch, old(startHour), old(fetchTimestamp),
                                           old(forecastTemp[..]), old(forecastRain[..]),
                                           old(sunrise[..]), old(sunset[..]))
    {
      if r.NoWifi? || r.status != 200 || r.body.None? {
        return;
      }
      StoreForecast(r.body.value, epoch);
    }

    /** The state a parsed answer `f` leaves, given the state before. */
    ghost predicate ForecastStored(f: Forecast, epoch: int, startHour0: int, fetchTimestamp0: uint32,
                                   temp0: seq<real>, rain0: seq<real>, sunrise0: seq<char>, sunset0: seq<char>)
      requires Buffers()
      reads this, forecastTemp, forecastRain, sunrise, sunset
    {
      && |temp0| == ForecastHours && |rain0| == ForecastHours && |sunrise0| == 6 && |sunset0| == 6
      && startHour == (if |f.time| > 0 then ToInt(Substring(f.time[0], 11, 13)) else startHour0)
      && fetchTimestamp == (if |f.time| > 0 then epoch % Two32 else fetchTimestamp0)
      && (forall i :: 0 <= i < ForecastHours ==>
            forecastTemp[i] == (if i < Copied(f) then NumberAt(f.temperature, i) else temp0[i]))
      && (forall i :: 0 <= i < ForecastHours ==>
            forecastRain[i] == (if i < Copied(f) then RainAt(f, i) else rain0[i]))
      && sunrise[..] == (if f.sunrise.Some? then Terminated(sunrise0, Substring(f.sunrise.value, 11, 16)) else sunrise0)
      && sunset[..] == (if f.sunset.Some? then Terminated(sunset0, Substring(f.sunset.value, 11, 16)) else sunset0)
    }

    /** The part of `fetchWeatherForecast` after a successful parse. */
    method StoreForecast(f: Forecast, epoch: int)
      requires Buffers()
      modifies this`startHour, this`fetchTimestamp, this`weatherValid
      modifies forecastTemp, forecastRain, sunrise, sunset
      ensures Buffers() && weatherValid
      ensures ForecastStored(f, epoch, old(startHour), old(fetchTimestamp), old(forecastTemp[..]),
                             old(forecastRain[..]), old(sunrise[..]), old(sunset[..]))
    {
      if |f.time| > 0 {
        var firstTime := f.time[0];
        startHour := ToInt(Substring(firstTime, 11, 13));
        fetchTimestamp := epoch % Two32;
      }
      CopyForecast(f);
      if f.sunrise.Some? {
        ToCharArray(Substring(f.sunrise.value, 11, 16), sunrise);
      }
      if f.sunset.Some? {
        ToCharArray(Substring(f.sunset.value, 11, 16), sunset);
      }
      weatherValid := true;
    }

    /** The copy loop: hour `i` for `i` below 24 and below the answer's
        length; the other hours keep their old values. */
    method CopyForecast(f: Forecast)
      requires Buffers()
      modifies forecastTemp, forecastRain
      ensures forall i :: 0 <= i < ForecastHours ==>
        forecastTemp[i] == (if i < Copied(f) then NumberAt(f.temperature, i) else old(forecastTemp[i]))
      ensures forall i :: 0 <= i < ForecastHours ==>
        forecastRain[i] == (if i < Copied(f) then RainAt(f, i) else old(forecastRain[i]))
    {
      var i := 0;
      while i < ForecastHours && i < |f.temperature|
        invariant 0 <= i <= Copied(f)
        invariant forall k :: 0 <= k < i ==> forecastTemp[k] == NumberAt(f.temperature, k)
        invariant forall k :: 0 <= k < i ==> forecastRain[k] == RainAt(f, k)
        invariant forall k :: i <= k < ForecastHours ==> forecastTemp[k] == old(forecastTemp[k])
        invariant forall k :: i <= k < ForecastHours ==> forecastRain[k] == old(forecastRain[k])
      {
        forecastTemp[i] := NumberAt(f.temperature, i);
        var rain := NumberAt(f.rain, i);
        var snow := NumberAt(f.snowfall, i);
        forecastRain[i] := rain + snow * 10.0;
        i := i + 1;
      }
    }

    /** What the dashboard shows: the sanitised readings and the two time
        buffers read as C strings. */
    ghost function Shown(): Readings
      reads this, sunrise, sunset
    {
      Readings(tempAir, humidity, co2, pressure, CString(sunrise[..]), CString(sunset[..]))
    }

    /** `setup`, one wake cycle: counters, sensors, the hourly fetch, the
        redraw with the 24 forecast hours, and the sleep time as the code
        computes it, which is the intended one within the two-minute slot
        (see `SleepTimeWraps`). `pages` is the number of page passes
        the panel asks for. */
    method Setup(d: Display, s: SensorInputs, r: Response, epoch: int, millis: uint32, pages: int)
      returns (fetched: bool, sleepUs: uint32)
      requires Valid() && pages >= 1
      modifies this, forecastTemp, forecastRain, sunrise, sunset, d
      ensures Valid()
      ensures Boot(Counters(old(bootCount), old(bootsFromFetch))) == BootStep(Counters(bootCount, bootsFromFetch), fetched)
      ensures pressure == SanitisedPressure(s.pascal / 100.0)
      ensures tempAir == SanitisedAirTemp(s.airTemp) && humidity == SanitisedHumidity(s.humidity)
      ensures co2 == Co2Reading(s.co2Ready, s.co2Error, s.co2Raw)
      ensures weatherValid == (old(weatherValid) || (fetched && Parsed(r)))
      ensures !(fetched && Parsed(r)) ==>
        && startHour == old(startHour) && fetchTimestamp == old(fetchTimestamp)
        && forecastTemp[..] == old(forecastTemp[..]) && forecastRain[..] == old(forecastRain[..])
        && sunrise[..] == old(sunrise[..]) && sunset[..] == old(sunset[..])
      ensures fetched && Parsed(r) ==>
        ForecastStored(r.body.value, epoch, old(startHour), old(fetchTimestamp), old(forecastTemp[..]),
                       old(forecastRain[..]), old(sunrise[..]), old(sunset[..]))
      ensures d.log == old(d.log) + Screen(d.width, d.height, Shown(), forecastTemp[..], forecastRain[..],
                                           ForecastHours, startHour, weatherValid, pages)
      ensures sleepUs == SleepTimeAsWritten(millis)
      ensures millis <= UpdateIntervalMs ==> sleepUs == SleepTime(millis)
    {
      fetched := WakeAndFetch(s, r, epoch);
      Redraw(d, pages);
      sleepUs := SleepTimeAsWritten(millis);
      if millis <= UpdateIntervalMs {
        SleepTimeAgrees(millis);
      }
    }

    /** The counters, the sensors and the hourly fetch. */
    method WakeAndFetch(s: SensorInputs, r: Response, epoch: int) returns (fetched: bool)
      requires Valid()
      modifies this, forecastTemp, forecastRain, sunrise, sunset
      ensures Valid()
      ensures Boot(Counters(old(bootCount), old(bootsFromFetch))) == BootStep(Counters(bootCount, bootsFromFetch), fetched)
      ensures pressure == SanitisedPressure(s.pascal / 100.0)
      ensures tempAir == SanitisedAirTemp(s.airTemp) && humidity == SanitisedHumidity(s.humidity)
      ensures co2 == Co2Reading(s.co2Ready, s.co2Error, s.co2Raw)
      ensures weatherValid == (old(weatherValid) || (fetched && Parsed(r)))
      ensures !(fetched && Parsed(r)) ==>
        && startHour == old(startHour) && fetchTimestamp == old(fetchTimestamp)
        && forecastTemp[..] == old(forecastTemp[..]) && forecastRain[..] == old(forecastRain[..])
        && sunrise[..] == old(sunrise[..]) && sunset[..] == old(sunset[..])
      ensures fetched && Parsed(r) ==>
        ForecastStored(r.body.value, epoch, old(startHour), old(fetchTimestamp), old(forecastTemp[..]),
                       old(forecastRain[..]), old(sunrise[..]), old(sunset[..]))
    {
      ghost var step := Boot(Counters(bootCount, bootsFromFetch));
      bootCount := (bootCount + 1) % Two32;
      bootsFromFetch := (bootsFromFetch + 1) % Two32;
      ReadSensors(s);
      fetched := ShouldFetch(bootCount, bootsFromFetch);
      if fetched {
        FetchWeatherForecast(r, epoch);
        bootsFromFetch := 0;
      }
      assert step == BootStep(Counters(bootCount, bootsFromFetch), fetched);
    }

    /** `readSensors`, the three sanitised readings. */
    method ReadSensors(s: SensorInputs)
      modifies this`pressure, this`tempAir, this`humidity, this`co2
      ensures pressure == SanitisedPressure(s.pascal / 100.0)
      ensures tempAir == SanitisedAirTemp(s.airTemp) && humidity == SanitisedHumidity(s.humidity)
      ensures co2 == Co2Reading(s.co2Ready, s.co2Error, s.co2Raw)
    {
      var _ := ReadSensorBMP(s.pascal);
      ReadSensorAHT(s.airTemp, s.humidity);
      ReadSensorSCD(s.co2Ready, s.co2Error, s.co2Raw);
    }

    /** The redraw: the moon phase is computed, then `updateDisplay` is
        handed the readings, the two time buffers and all 24 hours. */
    method Redraw(d: Display, pages: int)
      requires Buffers() && pages >= 1
      modifies d
      ensures d.log == old(d.log) + Screen(d.width, d.height, Shown(), forecastTemp[..], forecastRain[..],
                                           ForecastHours, startHour, weatherValid, pages)
    {
      var moonPhase := MoonPhase(fetchTimestamp);
      var shown := Readings(tempAir, humidity, co2, pressure, CString(sunrise[..]), CString(sunset[..]));
      UpdateDisplay(d, shown, forecastTemp[..], forecastRain[..], ForecastHours, startHour, weatherValid, pages);
    }
  }
}
