/** The forecast band at the top of the screen (rendering.cpp
    `drawWeatherForecast`): a temperature graph over whole-degree axis
    bounds, hour labels with vertical gridlines at even hours, the
    temperature labels, and the rain columns in a band flush below the
    graph. */
module Forecast {
  import opened CNumerics
  import opened Panel
  import opened Dashes
  import opened Graph

  const WeatherY := 8
  const GraphX := 4
  const HourY := WeatherY + 18
  const TempGraphY := WeatherY + 28

  function GraphWidth(screenW: int): int { screenW - 8 }

  /** Half the screen height, with C division. */
  function GraphHeight(screenH: int): int { CDiv(screenH * 50, 100) }

  function LabelX(screenW: int): int { GraphX + GraphWidth(screenW) - 28 }

  /** The rain band is a third of the graph height, but at least 12 pixels. */
  function RainHeight(screenH: int): (rh: int)
    ensures rh >= 12
  {
    Max(12, CDiv(GraphHeight(screenH), 3))
  }

  /** The rain band starts flush below the temperature graph. */
  function RainY(screenH: int): int { TempGraphY + GraphHeight(screenH) }

  // ---------------------------------------------------------------- min / max scan

  /** The running minimum after samples `0 .. k-1`, started from `s[0]`. */
  function MinOf(s: seq<real>, k: nat): (m: real)
    requires 1 <= |s| && k <= |s|
    ensures forall i :: 0 <= i < k ==> m <= s[i]
    ensures m == s[0] || exists i :: 0 <= i < k && m == s[i]
  {
    if k == 0 then s[0]
    else
      var m := MinOf(s, k - 1);
      if s[k - 1] < m then s[k - 1] else m
  }

  /** The running maximum after samples `0 .. k-1`, started from `s[0]`. */
  function MaxOf(s: seq<real>, k: nat): (m: real)
    requires 1 <= |s| && k <= |s|
    ensures forall i :: 0 <= i < k ==> s[i] <= m
    ensures m == s[0] || exists i :: 0 <= i < k && m == s[i]
  {
    if k == 0 then s[0]
    else
      var m := MaxOf(s, k - 1);
      if s[k - 1] > m then s[k - 1] else m
  }

  /** The running maximum after samples `0 .. k-1`, started from 0. */
  function MaxRain(s: seq<real>, k: nat): (m: real)
    requires k <= |s|
    ensures m >= 0.0
    ensures forall i :: 0 <= i < k ==> s[i] <= m
    ensures m == 0.0 || exists i :: 0 <= i < k && m == s[i]
  {
    if k == 0 then 0.0
    else
      var m := MaxRain(s, k - 1);
      if s[k - 1] > m then s[k - 1] else m
  }

  /** The scan loop over the first `n` hours. */
  method ScanForecast(temps: seq<real>, rain: seq<real>, n: int) returns (minT: real, maxT: real, maxR: real)
    requires 1 <= |temps| && 0 <= n <= |temps| && n <= |rain|
    ensures minT == MinOf(temps, n) && maxT == MaxOf(temps, n) && maxR == MaxRain(rain, n)
  {
    minT, maxT := temps[0], temps[0];
    maxR := 0.0;
    var i := 0;
    while i < n
      invariant 0 <= i <= n
      invariant minT == MinOf(temps, i) && maxT == MaxOf(temps, i) && maxR == MaxRain(rain, i)
    {
      if temps[i] < minT { minT := temps[i]; }
      if temps[i] > maxT { maxT := temps[i]; }
      if rain[i] > maxR { maxR := rain[i]; }
      i := i + 1;
    }
  }

  // ---------------------------------------------------------------- axis bounds

  datatype Axis = Axis(lo: int, hi: int)

  /** `floor(minT)` and `ceil(maxT)`, pushed one apart each way when they
      coincide. */
  function AxisBounds(minT: real, maxT: real): Axis
  {
    var lo, hi := Floor(minT), Ceil(maxT);
    if lo == hi then Axis(lo - 1, hi + 1) else Axis(lo, hi)
  }

  /** For data with `minT <= maxT` the axis is a nonempty integral span
      that encloses the data and overshoots it by at most one on each
      side; its span is at least 1, so the graph's 0.001 guard never
      replaces it. */
  lemma AxisEncloses(minT: real, maxT: real)
    requires minT <= maxT
    ensures var ax := AxisBounds(minT, maxT);
      && ax.lo < ax.hi
      && minT - 1.0 <= ax.lo as real <= minT
      && maxT <= ax.hi as real <= maxT + 1.0
      && PlotRange(ax.lo as real, ax.hi as real) == (ax.hi - ax.lo) as real
  {
    FloorCeilBounds(minT);
    FloorCeilBounds(maxT);
    var lo, hi := Floor(minT), Ceil(maxT);
    if lo == hi {
      assert minT == maxT == lo as real;
    }
  }

  /** A sample day: from -2.3 .. 11.7 the axis runs -3 .. 12; from a flat
      5.0 .. 5.0 it runs 4 .. 6. */
  lemma AxisExamples()
    ensures AxisBounds(-2.3, 11.7) == Axis(-3, 12)
    ensures AxisBounds(5.0, 5.0) == Axis(4, 6)
  {
    assert Floor(-2.3) == -3 by {
      FloorCeilBounds(-2.3);
    }
    assert Ceil(11.7) == 12 by {
      FloorCeilBounds(11.7);
    }
    assert Floor(5.0) == 5 && Ceil(5.0) == 5 by {
      FloorCeilBounds(5.0);
    }
  }

  // ---------------------------------------------------------------- hour marks

  /** The hour of forecast slot `i`: `(start + i) % 24` with C remainder. */
  function HourAt(start: int, i: int): int
  {
    CMod(start + i, 24)
  }

  /** The x coordinate of slot `i`: `graphX + i*graphWidth/n`. */
  function HourX(n: int, gw: int, i: int): int
    requires n != 0
  {
    GraphX + CDiv(i * gw, n)
  }

  /** The commands for an hour in column `xx`: nothing at an odd hour;
      otherwise the hour label centred above the graph and a vertical
      gridline, solid over `tempGraphY+1 .. tempGraphY+gh-1` at hours 0
      and 12 and dashed over `tempGraphY+2 .. tempGraphY+gh-2` at the
      others. */
  function HourMark(hour: int, xx: int, gh: int): seq<Cmd>
  {
    if CMod(hour, 2) != 0 then []
    else
      [Text(xx, HourY, CentreX, Number(hour))]
      + if hour == 0 || hour == 12 then [Line(xx, TempGraphY + 1, xx, TempGraphY + gh - 1)]
        else VLines(DashRuns(TempGraphY + 2, TempGraphY + gh - 2, 3, 3), xx)
  }

  /** The commands for slots `0 .. k-1`. */
  function HourMarks(start: int, n: int, gw: int, gh: int, k: nat): seq<Cmd>
    requires n != 0
  {
    if k == 0 then []
    else HourMarks(start, n, gw, gh, k - 1) + HourMark(HourAt(start, k - 1), HourX(n, gw, k - 1), gh)
  }

  /** What a command of slot `i` may be: its hour is even, and it is that
      hour's label or a vertical line in the slot's column, spanning
      `+1 .. gh-1` at hours 0 and 12 and a dash of at most 3 pixels
      inside `+2 .. gh-2` at other hours. */
  predicate HourMarkOf(start: int, n: int, gw: int, gh: int, i: int, c: Cmd)
    requires n != 0
  {
    var hour := HourAt(start, i);
    var xx := HourX(n, gw, i);
    && CMod(hour, 2) == 0
    && (|| c == Text(xx, HourY, CentreX, Number(hour))
        || (&& c.Line? && c.x0 == xx && c.x1 == xx
            && ((hour == 0 || hour == 12) ==> c.y0 == TempGraphY + 1 && c.y1 == TempGraphY + gh - 1)
            && (hour != 0 && hour != 12 ==>
                  TempGraphY + 2 <= c.y0 <= c.y1 <= TempGraphY + gh - 2 && c.y1 - c.y0 < 3)))
  }

  lemma HourMarkShape(start: int, n: int, gw: int, gh: int, i: int)
    requires n != 0
    ensures forall c :: c in HourMark(HourAt(start, i), HourX(n, gw, i), gh) ==> HourMarkOf(start, n, gw, gh, i, c)
  {
    var hour := HourAt(start, i);
    if CMod(hour, 2) == 0 && hour != 0 && hour != 12 {
      DashRunsShape(TempGraphY + 2, TempGraphY + gh - 2, 3, 3);
    }
  }

  /** Labels and vertical gridlines appear only at even hours, each in the
      column of its own slot: every command belongs to some slot `i < k`. */
  lemma {:induction false} HourMarksSound(start: int, n: int, gw: int, gh: int, k: nat)
    requires n != 0
    ensures forall c :: c in HourMarks(start, n, gw, gh, k) ==>
      exists i :: 0 <= i < k && HourMarkOf(start, n, gw, gh, i, c)
  {
    if k > 0 {
      HourMarksSound(start, n, gw, gh, k - 1);
      HourMarkShape(start, n, gw, gh, k - 1);
      forall c | c in HourMarks(start, n, gw, gh, k)
        ensures exists i :: 0 <= i < k && HourMarkOf(start, n, gw, gh, i, c)
      {
        if c in HourMarks(start, n, gw, gh, k - 1) {
          var i :| 0 <= i < k - 1 && HourMarkOf(start, n, gw, gh, i, c);
        } else {
          assert HourMarkOf(start, n, gw, gh, k - 1, c);
        }
      }
    }
  }

  /** Every command of slot `i < k` is drawn. */
  lemma {:induction false} HourMarkDrawn(start: int, n: int, gw: int, gh: int, k: nat, i: nat)
    requires n != 0 && i < k
    ensures forall c :: c in HourMark(HourAt(start, i), HourX(n, gw, i), gh) ==> c in HourMarks(start, n, gw, gh, k)
  {
    if i < k - 1 {
      HourMarkDrawn(start, n, gw, gh, k - 1, i);
    }
  }

  /** Every even hour among slots `0 .. k-1` gets its label, hours 0 and
      12 their solid line, and the other even hours every dash of their
      dashed line; on a graph at least 4 pixels tall there is at least the
      first dash, from `tempGraphY + 2`. */
  lemma HourMarksComplete(start: int, n: int, gw: int, gh: int, k: nat, i: nat)
    requires n != 0 && i < k && CMod(HourAt(start, i), 2) == 0
    ensures Text(HourX(n, gw, i), HourY, CentreX, Number(HourAt(start, i))) in HourMarks(start, n, gw, gh, k)
    ensures HourAt(start, i) == 0 || HourAt(start, i) == 12 ==>
      Line(HourX(n, gw, i), TempGraphY + 1, HourX(n, gw, i), TempGraphY + gh - 1) in HourMarks(start, n, gw, gh, k)
    ensures HourAt(start, i) != 0 && HourAt(start, i) != 12 ==>
      forall c :: c in VLines(DashRuns(TempGraphY + 2, TempGraphY + gh - 2, 3, 3), HourX(n, gw, i)) ==>
        c in HourMarks(start, n, gw, gh, k)
    ensures HourAt(start, i) != 0 && HourAt(start, i) != 12 && gh >= 4 ==>
      Line(HourX(n, gw, i), TempGraphY + 2, HourX(n, gw, i), Min(TempGraphY + 4, TempGraphY + gh - 2))
        in HourMarks(start, n, gw, gh, k)
  {
    var hour, xx := HourAt(start, i), HourX(n, gw, i);
    var m := HourMark(hour, xx, gh);
    var dashes := VLines(DashRuns(TempGraphY + 2, TempGraphY + gh - 2, 3, 3), xx);
    HourMarkDrawn(start, n, gw, gh, k, i);
    assert m[0] in m;
    if hour == 0 || hour == 12 {
      assert m[1] in m;
    } else {
      assert m == [m[0]] + dashes;
      if gh >= 4 {
        DashRunsShape(TempGraphY + 2, TempGraphY + gh - 2, 3, 3);
        assert dashes[0] in dashes;
      }
    }
  }

  /** With a start hour in `0 .. 23`, as the forecast's time string gives,
      the labels are hours of the day. */
  lemma HourOfDay(start: int, i: nat)
    requires 0 <= start < 24
    ensures 0 <= HourAt(start, i) < 24
  {
    CDivPositive(start + i, 24);
  }

  method DrawHourMarks(d: Display, start: int, n: int, gw: int, gh: int)
    requires n >= 1
    modifies d
    ensures d.log == old(d.log) + HourMarks(start, n, gw, gh, n)
  {
    var i := 0;
    while i < n
      invariant 0 <= i <= n
      invariant d.log == old(d.log) + HourMarks(start, n, gw, gh, i)
    {
      DrawHourSlot(d, start, n, gw, gh, i, old(d.log));
      i := i + 1;
    }
  }

  /** One turn of the hour loop: slot `i` is appended to the marks of the
      slots before it. */
  method DrawHourSlot(d: Display, start: int, n: int, gw: int, gh: int, i: nat, ghost prefix: seq<Cmd>)
    requires n >= 1 && d.log == prefix + HourMarks(start, n, gw, gh, i)
    modifies d
    ensures d.log == prefix + HourMarks(start, n, gw, gh, i + 1)
  {
    var hour := HourAt(start, i);
    var xx := HourX(n, gw, i);
    DrawHourMark(d, hour, xx, gh);
    AppendAssoc(prefix, HourMarks(start, n, gw, gh, i), HourMark(hour, xx, gh));
  }

  /** The body of the hour loop, for an hour drawn in column `xx`. */
  method DrawHourMark(d: Display, hour: int, xx: int, gh: int)
    modifies d
    ensures d.log == old(d.log) + HourMark(hour, xx, gh)
  {
    if CMod(hour, 2) == 0 {
      d.Print(xx, HourY, CentreX, Number(hour));
      if hour == 0 || hour == 12 {
        d.DrawLine(xx, TempGraphY + 1, xx, TempGraphY + gh - 1);
      } else {
        DrawDashedVLine(d, TempGraphY + 2, TempGraphY + gh - 2, xx, 3, 3);
      }
    }
  }

  // ---------------------------------------------------------------- the band

  /** The temperature graph and its plot rectangle. */
  function TempPlot(screenW: int, screenH: int): Plot
  {
    Plot(GraphX, TempGraphY, GraphWidth(screenW), GraphHeight(screenH))
  }

  function RainPlot(screenW: int, screenH: int): Plot
  {
    Plot(GraphX, RainY(screenH), GraphWidth(screenW), RainHeight(screenH))
  }

  /** The scale of the rain columns: the largest sample, but at least 1. */
  function RainScale(rain: seq<real>, n: nat): (r: real)
    requires n <= |rain|
    ensures r >= 1.0
    ensures forall i :: 0 <= i < n ==> rain[i] <= r
  {
    MaxReal(MaxRain(rain, n), 1.0)
  }

  /** The temperature part of the band: graph, hour marks and the two axis
      labels, maximum at the top and minimum at the bottom. */
  function TempSection(screenW: int, screenH: int, temps: seq<real>, n: int, start: int, ax: Axis): seq<Cmd>
    requires 1 <= n <= |temps|
  {
    var gw, gh := GraphWidth(screenW), GraphHeight(screenH);
    var labelX := LabelX(screenW);
    ForecastGraph(TempPlot(screenW, screenH), temps[..n], ax.lo as real, ax.hi as real)
    + [SetFont(Sans12)]
    + HourMarks(start, n, gw, gh, n)
    + [SetFont(SansBold18),
       Text(labelX, TempGraphY + 32, Cursor, Number(ax.hi)),
       Text(labelX, TempGraphY + gh - 14, Cursor, Number(ax.lo))]
  }

  /** The rain part of the band: the columns and the label of the
      largest sample, rounded up. */
  function RainSection(screenW: int, screenH: int, rain: seq<real>, n: int): seq<Cmd>
    requires 1 <= n <= |rain|
  {
    RainColumns(RainPlot(screenW, screenH), rain[..n], RainScale(rain, n), n)
    + [SetFont(Sans18),
       Text(LabelX(screenW), RainY(screenH) + 40, Cursor, Number(Ceil(MaxRain(rain, n))))]
  }

  /** Everything `drawWeatherForecast` draws for a valid forecast of `n`
      hours. */
  function Band(screenW: int, screenH: int, temps: seq<real>, rain: seq<real>, n: int, start: int): seq<Cmd>
    requires 1 <= n <= |temps| && n <= |rain|
  {
    TempSection(screenW, screenH, temps, n, start, AxisBounds(MinOf(temps, n), MaxOf(temps, n)))
    + RainSection(screenW, screenH, rain, n)
  }

  /** `drawWeatherForecast`: nothing at all unless the forecast is valid. */
  function WeatherForecast(screenW: int, screenH: int, temps: seq<real>, rain: seq<real>, n: int,
                           start: int, valid: bool): seq<Cmd>
    requires valid ==> 1 <= n <= |temps| && n <= |rain|
  {
    if !valid then [] else Band(screenW, screenH, temps, rain, n, start)
  }

  /** The only fills of the forecast band are the rain columns: each sits
      at the top edge of the rain band, flush below the graph, is 1 to
      `rainHeight` pixels tall, and belongs to a positive rain sample `i`
      at `graphX + i*colWidth`. */
  lemma BandFills(screenW: int, screenH: int, temps: seq<real>, rain: seq<real>, n: int, start: int)
    requires 1 <= n <= |temps| && n <= |rain|
    ensures forall c :: c in Band(screenW, screenH, temps, rain, n, start) && c.FillRect? ==>
      && c.y == RainY(screenH) && 1 <= c.h <= RainHeight(screenH)
      && exists i :: 0 <= i < n && rain[i] > 0.0 && c.x == GraphX + i * ColWidth(GraphWidth(screenW), n)
  {
    var ax := AxisBounds(MinOf(temps, n), MaxOf(temps, n));
    var gw, gh := GraphWidth(screenW), GraphHeight(screenH);
    var rp := RainPlot(screenW, screenH);
    var rs := rain[..n];
    var scale := RainScale(rain, n);
    forall c | c in Band(screenW, screenH, temps, rain, n, start) && c.FillRect?
      ensures c.y == RainY(screenH) && 1 <= c.h <= RainHeight(screenH)
      ensures exists i :: 0 <= i < n && rain[i] > 0.0 && c.x == GraphX + i * ColWidth(GraphWidth(screenW), n)
    {
      assert c in RainColumns(rp, rs, scale, n) by {
        ForecastGraphLines(TempPlot(screenW, screenH), temps[..n], ax.lo as real, ax.hi as real);
        HourMarksSound(start, n, gw, gh, n);
      }
      RainColumnsSound(rp, rs, scale, n);
      var i :| 0 <= i < n && RainFillOf(rp, rs, scale, i, c);
      assert rs[i] == rain[i];
      RainFillBounds(rp, rs, scale, c);
    }
  }

  method DrawWeatherForecast(d: Display, temps: seq<real>, rain: seq<real>, n: int, start: int, valid: bool)
    requires valid ==> 1 <= n <= |temps| && n <= |rain|
    modifies d
    ensures !valid ==> d.log == old(d.log)
    ensures d.log == old(d.log) + WeatherForecast(d.width, d.height, temps, rain, n, start, valid)
  {
    if !valid { return; }
    var minT, maxT, maxR := ScanForecast(temps, rain, n);
    var lo, hi := Floor(minT), Ceil(maxT);
    if lo == hi { lo := lo - 1; hi := hi + 1; }
    assert Axis(lo, hi) == AxisBounds(MinOf(temps, n), MaxOf(temps, n));
    ghost var log0 := d.log;
    DrawTempSection(d, temps, n, start, lo, hi);
    DrawRainSection(d, rain, n, maxR);
    AppendAssoc(log0, TempSection(d.width, d.height, temps, n, start, Axis(lo, hi)),
                RainSection(d.width, d.height, rain, n));
  }

  /** Lines 90-121 of `drawWeatherForecast`, for axis bounds `lo .. hi`. */
  method DrawTempSection(d: Display, temps: seq<real>, n: int, start: int, lo: int, hi: int)
    requires 1 <= n <= |temps|
    modifies d
    ensures d.log == old(d.log) + TempSection(d.width, d.height, temps, n, start, Axis(lo, hi))
  {
    var gw := d.width - 8;
    var gh := CDiv(d.height * 50, 100);
    ghost var log0 := d.log;
    ghost var graph := ForecastGraph(TempPlot(d.width, d.height), temps[..n], lo as real, hi as real);
    ghost var marks := HourMarks(start, n, gw, gh, n);
    DrawForecastGraph(d, GraphX, TempGraphY, gw, gh, temps[..n], n, lo as real, hi as real);
    d.SetFont(Sans12);
    AppendAssoc(log0, graph, [SetFont(Sans12)]);
    DrawHourMarks(d, start, n, gw, gh);
    AppendAssoc(log0, graph + [SetFont(Sans12)], marks);
    ghost var log2 := d.log;
    d.SetFont(SansBold18);
    var labelX := GraphX + gw - 28;
    d.Print(labelX, TempGraphY + 32, Cursor, Number(hi));
    d.Print(labelX, TempGraphY + gh - 14, Cursor, Number(lo));
    ghost var labels := [SetFont(SansBold18), Text(labelX, TempGraphY + 32, Cursor, Number(hi)),
                         Text(labelX, TempGraphY + gh - 14, Cursor, Number(lo))];
    assert d.log == log2 + labels;
    AppendAssoc(log0, graph + [SetFont(Sans12)] + marks, labels);
  }

  /** Lines 123-129 of `drawWeatherForecast`, for the largest rain sample
      `maxR`. */
  method DrawRainSection(d: Display, rain: seq<real>, n: int, maxR: real)
    requires 1 <= n <= |rain| && maxR == MaxRain(rain, n)
    modifies d
    ensures d.log == old(d.log) + RainSection(d.width, d.height, rain, n)
  {
    var gw := d.width - 8;
    var gh := CDiv(d.height * 50, 100);
    var rainHeight := Max(12, CDiv(gh, 3));
    var rainY := TempGraphY + gh;
    DrawRainColumns(d, GraphX, rainY, gw, rainHeight, rain[..n], n, MaxReal(maxR, 1.0));
    d.SetFont(Sans18);
    d.Print(GraphX + gw - 28, rainY + 40, Cursor, Number(Ceil(maxR)));
  }
}
