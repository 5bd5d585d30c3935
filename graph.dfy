/** The temperature graph and the rain columns (rendering.cpp
    `drawForecastGraph`, `drawRainColumns`). Values are mapped to pixel rows
    by a linear scale whose result is truncated toward zero, as
    `static_cast<int>` does. */
module Graph {
  import opened CNumerics
  import opened Panel
  import opened Dashes

  /** The plot rectangle in device pixels. */
  datatype Plot = Plot(x: int, y: int, w: int, h: int)

  /** The divisor of the value-to-pixel mapping: the span `maxVal - minVal`,
      replaced by 1.0 when it is 0.001 or less, so it is never zero. */
  function PlotRange(minVal: real, maxVal: real): (r: real)
    ensures r > 0.0
    ensures maxVal - minVal > 0.001 ==> r == maxVal - minVal
    ensures maxVal - minVal <= 0.001 ==> r == 1.0
  {
    if maxVal - minVal <= 0.001 then 1.0 else maxVal - minVal
  }

  /** The pixel row of value `v`: `minVal` maps to the bottom edge `y + h`
      and `minVal + range` to the top edge `y`. */
  function MapY(p: Plot, v: real, minVal: real, range: real): int
    requires range > 0.0
  {
    p.y + p.h - Trunc(((v - minVal) / range) * (p.h as real))
  }

  /** A value inside `[minVal, minVal + range]` maps to a row of the plot. */
  lemma MapYWithin(p: Plot, v: real, minVal: real, range: real)
    requires range > 0.0 && p.h >= 0 && minVal <= v <= minVal + range
    ensures p.y <= MapY(p, v, minVal, range) <= p.y + p.h
  {
    var f := (v - minVal) / range;
    assert 0.0 <= f <= 1.0 by {
      assert v - minVal <= range;
    }
    var g := f * (p.h as real);
    assert 0.0 <= g <= p.h as real by {
      assert f * (p.h as real) <= 1.0 * (p.h as real);
    }
    TruncBounds(g);
  }

  // ---------------------------------------------------------------- gridlines

  /** The first gridline value: `floor(minVal / 10) * 10`. */
  function GridFirst(minVal: real): (t: int)
    ensures t % 10 == 0
  {
    Floor(minVal / 10.0) * 10
  }

  /** How many values `first, first + 10, ...` do not exceed `last`. */
  function GridCount(first: int, last: int): nat
  {
    if first > last then 0 else (last - first) / 10 + 1
  }

  /** `t` is one of the first `k` values of the gridline loop. */
  predicate GridValue(first: int, k: nat, t: int)
  {
    first <= t < first + 10 * k && (t - first) % 10 == 0
  }

  /** The commands for gridline value `t`: nothing when its row falls
      outside `[y, y + h]`, a solid line for 0, a dashed line otherwise,
      always spanning `x + 1 .. x + w - 2`. */
  function GridAt(p: Plot, minVal: real, range: real, t: int): seq<Cmd>
    requires range > 0.0
  {
    var yy := MapY(p, t as real, minVal, range);
    if yy < p.y || yy > p.y + p.h then []
    else if t == 0 then [Line(p.x + 1, yy, p.x + p.w - 2, yy)]
    else HLines(DashRuns(p.x + 1, p.x + p.w - 2, 3, 3), yy)
  }

  /** The gridlines for the first `k` values from `first`. */
  function Gridlines(p: Plot, minVal: real, range: real, first: int, k: nat): seq<Cmd>
    requires range > 0.0
  {
    if k == 0 then [] else Gridlines(p, minVal, range, first, k - 1) + GridAt(p, minVal, range, first + 10 * (k - 1))
  }

  /** What one gridline command looks like: horizontal, on the mapped row of
      its value, inside the plot, within `x + 1 .. x + w - 2`; the full
      span for value 0 and a dash of at most 3 pixels for any other. */
  predicate GridlineOf(p: Plot, minVal: real, range: real, t: int, c: Cmd)
    requires range > 0.0
  {
    var yy := MapY(p, t as real, minVal, range);
    && c.Line? && c.y0 == yy && c.y1 == yy
    && p.y <= yy <= p.y + p.h
    && p.x + 1 <= c.x0 <= c.x1 <= p.x + p.w - 2
    && (t == 0 ==> c.x0 == p.x + 1 && c.x1 == p.x + p.w - 2)
    && (t != 0 ==> c.x1 - c.x0 < 3)
  }

  lemma GridAtShape(p: Plot, minVal: real, range: real, t: int)
    requires range > 0.0 && p.w >= 3
    ensures forall c :: c in GridAt(p, minVal, range, t) ==> GridlineOf(p, minVal, range, t, c)
  {
    var yy := MapY(p, t as real, minVal, range);
    if p.y <= yy <= p.y + p.h && t != 0 {
      DashRunsShape(p.x + 1, p.x + p.w - 2, 3, 3);
    }
  }

  /** Every gridline command belongs to a value of the loop (a multiple of
      10 from `first` on) whose row lies inside the plot: rows outside are
      skipped, never clamped. */
  lemma {:induction false} GridlinesSound(p: Plot, minVal: real, range: real, first: int, k: nat)
    requires range > 0.0 && p.w >= 3
    ensures forall c :: c in Gridlines(p, minVal, range, first, k) ==>
      exists t :: GridValue(first, k, t) && GridlineOf(p, minVal, range, t, c)
  {
    if k > 0 {
      GridlinesSound(p, minVal, range, first, k - 1);
      var t := first + 10 * (k - 1);
      GridAtShape(p, minVal, range, t);
      forall c | c in Gridlines(p, minVal, range, first, k)
        ensures exists t :: GridValue(first, k, t) && GridlineOf(p, minVal, range, t, c)
      {
        if c in Gridlines(p, minVal, range, first, k - 1) {
          var t' :| GridValue(first, k - 1, t') && GridlineOf(p, minVal, range, t', c);
          assert GridValue(first, k, t');
        } else {
          assert c in GridAt(p, minVal, range, t);
          assert GridValue(first, k, t);
        }
      }
    }
  }

  /** When 0 is among the loop's values and maps into the plot, the solid
      zero line is drawn. */
  lemma {:induction false} ZeroLineDrawn(p: Plot, minVal: real, range: real, first: int, k: nat)
    requires range > 0.0
    requires GridValue(first, k, 0)
    requires p.y <= MapY(p, 0.0, minVal, range) <= p.y + p.h
    ensures Line(p.x + 1, MapY(p, 0.0, minVal, range), p.x + p.w - 2, MapY(p, 0.0, minVal, range))
      in Gridlines(p, minVal, range, first, k)
  {
    if first + 10 * (k - 1) != 0 {
      assert GridValue(first, k - 1, 0) by {
        assert 0 != first + 10 * (k - 1);
        assert (0 - first) % 10 == 0;
        if 0 >= first + 10 * (k - 1) {
          assert 0 - first >= 10 * (k - 1);
          assert 0 - first < 10 * k;
          DivUnique(0 - first, 10, k - 1, (0 - first) - 10 * (k - 1));
          assert false;
        }
      }
      ZeroLineDrawn(p, minVal, range, first, k - 1);
    }
  }

  /** Every command of a value of the loop is drawn. */
  lemma {:induction false} GridAtDrawn(p: Plot, minVal: real, range: real, first: int, k: nat, t: int)
    requires range > 0.0 && GridValue(first, k, t)
    ensures forall c :: c in GridAt(p, minVal, range, t) ==> c in Gridlines(p, minVal, range, first, k)
  {
    if t != first + 10 * (k - 1) {
      assert GridValue(first, k - 1, t) by {
        if t >= first + 10 * (k - 1) {
          DivUnique(t - first, 10, k - 1, (t - first) - 10 * (k - 1));
          assert false;
        }
      }
      GridAtDrawn(p, minVal, range, first, k - 1, t);
    }
  }

  /** A value of the loop other than 0 whose row lies inside the plot gets
      every dash of its dashed line, and at least the first one, from
      `x + 1`, whenever the plot is at least 3 pixels wide. */
  lemma DashedGridDrawn(p: Plot, minVal: real, range: real, first: int, k: nat, t: int)
    requires range > 0.0 && p.w >= 3 && t != 0 && GridValue(first, k, t)
    requires p.y <= MapY(p, t as real, minVal, range) <= p.y + p.h
    ensures var yy := MapY(p, t as real, minVal, range);
      && (forall c :: c in HLines(DashRuns(p.x + 1, p.x + p.w - 2, 3, 3), yy) ==> c in Gridlines(p, minVal, range, first, k))
      && Line(p.x + 1, yy, Min(p.x + 3, p.x + p.w - 2), yy) in Gridlines(p, minVal, range, first, k)
  {
    var yy := MapY(p, t as real, minVal, range);
    var dashes := HLines(DashRuns(p.x + 1, p.x + p.w - 2, 3, 3), yy);
    GridAtDrawn(p, minVal, range, first, k, t);
    assert GridAt(p, minVal, range, t) == dashes;
    DashRunsShape(p.x + 1, p.x + p.w - 2, 3, 3);
    assert dashes[0] in dashes;
  }

  // ---------------------------------------------------------------- curve

  /** The x coordinate of sample `i`: `x + i*w/n` with C division. */
  function SampleX(p: Plot, n: int, i: int): int
    requires n != 0
  {
    p.x + CDiv(i * p.w, n)
  }

  /** The sample x coordinates never decrease and stay within `[x, x + w]`. */
  lemma SampleXMonotone(p: Plot, n: int, i: int, j: int)
    requires n > 0 && p.w >= 0 && 0 <= i <= j <= n
    ensures p.x <= SampleX(p, n, i) <= SampleX(p, n, j) <= p.x + p.w
  {
    MulMonotone(0, i, p.w);
    MulMonotone(i, j, p.w);
    MulMonotone(j, n, p.w);
    CDivMonotone(i * p.w, j * p.w, n);
    CDivAtMost(j * p.w, n, p.w);
  }

  /** The first `k` of the five offset copies of one segment, offsets
      `-2, -1, ...`. */
  function Strands(x1: int, y1: int, x2: int, y2: int, k: nat): seq<Cmd>
  {
    if k == 0 then [] else Strands(x1, y1, x2, y2, k - 1) + [Line(x1, y1 + k - 3, x2, y2 + k - 3)]
  }

  lemma {:induction false} StrandsAt(x1: int, y1: int, x2: int, y2: int, k: nat)
    ensures |Strands(x1, y1, x2, y2, k)| == k
    ensures forall o :: 0 <= o < k ==> Strands(x1, y1, x2, y2, k)[o] == Line(x1, y1 + o - 2, x2, y2 + o - 2)
  {
    if k > 0 {
      StrandsAt(x1, y1, x2, y2, k - 1);
    }
  }

  /** The thick polyline through samples `0 .. k-1`: segment `i` (from
      sample `i - 1` to sample `i`) drawn five times, offsets -2 .. +2. */
  function Curve(p: Plot, data: seq<real>, minVal: real, range: real, k: nat): seq<Cmd>
    requires range > 0.0 && k <= |data|
  {
    if k <= 1 then []
    else
      var n := |data|;
      Curve(p, data, minVal, range, k - 1)
      + Strands(SampleX(p, n, k - 2), MapY(p, data[k - 2], minVal, range),
                SampleX(p, n, k - 1), MapY(p, data[k - 1], minVal, range), 5)
  }

  /** The curve has exactly `5*(k - 1)` lines; line `m` is copy `m % 5`
      (offset `m % 5 - 2`) of the segment ending at sample `m / 5 + 1`. */
  lemma {:induction false} CurveShape(p: Plot, data: seq<real>, minVal: real, range: real, k: nat)
    requires range > 0.0 && 1 <= k <= |data|
    ensures |Curve(p, data, minVal, range, k)| == 5 * (k - 1)
    ensures forall m :: 0 <= m < 5 * (k - 1) ==>
      var i := m / 5 + 1;
      var o := m % 5 - 2;
      Curve(p, data, minVal, range, k)[m] ==
        Line(SampleX(p, |data|, i - 1), MapY(p, data[i - 1], minVal, range) + o,
             SampleX(p, |data|, i), MapY(p, data[i], minVal, range) + o)
  {
    if k > 1 {
      var n := |data|;
      CurveShape(p, data, minVal, range, k - 1);
      var prev := Curve(p, data, minVal, range, k - 1);
      var x1, y1 := SampleX(p, n, k - 2), MapY(p, data[k - 2], minVal, range);
      var x2, y2 := SampleX(p, n, k - 1), MapY(p, data[k - 1], minVal, range);
      StrandsAt(x1, y1, x2, y2, 5);
      forall m | 5 * (k - 2) <= m < 5 * (k - 1)
        ensures m / 5 + 1 == k - 1 && m % 5 == m - 5 * (k - 2)
      {
        DivUnique(m, 5, k - 2, m - 5 * (k - 2));
      }
    }
  }

  /** All commands `drawForecastGraph` issues: gridlines, then the curve. */
  function ForecastGraph(p: Plot, data: seq<real>, minVal: real, maxVal: real): seq<Cmd>
  {
    var range := PlotRange(minVal, maxVal);
    var first := GridFirst(minVal);
    Gridlines(p, minVal, range, first, GridCount(first, Ceil(maxVal)))
    + Curve(p, data, minVal, range, |data|)
  }

  /** The graph is drawn with lines only: no fill, text or bitmap. */
  lemma ForecastGraphLines(p: Plot, data: seq<real>, minVal: real, maxVal: real)
    ensures forall c :: c in ForecastGraph(p, data, minVal, maxVal) ==> c.Line?
  {
    var range := PlotRange(minVal, maxVal);
    var first := GridFirst(minVal);
    GridlinesLines(p, minVal, range, first, GridCount(first, Ceil(maxVal)));
    CurveLines(p, data, minVal, range, |data|);
  }

  lemma {:induction false} GridlinesLines(p: Plot, minVal: real, range: real, first: int, k: nat)
    requires range > 0.0
    ensures forall c :: c in Gridlines(p, minVal, range, first, k) ==> c.Line?
  {
    if k > 0 {
      GridlinesLines(p, minVal, range, first, k - 1);
    }
  }

  lemma {:induction false} CurveLines(p: Plot, data: seq<real>, minVal: real, range: real, k: nat)
    requires range > 0.0 && k <= |data|
    ensures forall c :: c in Curve(p, data, minVal, range, k) ==> c.Line?
  {
    if k > 1 {
      CurveLines(p, data, minVal, range, k - 1);
      var n := |data|;
      StrandsAt(SampleX(p, n, k - 2), MapY(p, data[k - 2], minVal, range),
                SampleX(p, n, k - 1), MapY(p, data[k - 1], minVal, range), 5);
    }
  }

  /** Every gridline of `ForecastGraph` belongs to a multiple of 10 between
      `floor(minVal / 10) * 10` and `ceil(maxVal)`. */
  lemma GridValuesInRange(minVal: real, maxVal: real, t: int)
    requires GridValue(GridFirst(minVal), GridCount(GridFirst(minVal), Ceil(maxVal)), t)
    ensures t % 10 == 0 && GridFirst(minVal) <= t <= Ceil(maxVal)
  {
    var first, last := GridFirst(minVal), Ceil(maxVal);
    var q := (last - first) / 10;
    assert last - first == 10 * q + (last - first) % 10;
    assert t < first + 10 * (q + 1);
    var j := (t - first) / 10;
    assert t - first == 10 * j;
    if j > q {
      MulMonotone(q + 1, j, 10);
    }
  }

  /** The gridline loop runs while `first + 10*k <= last`, which is
      `k < GridCount(first, last)`. */
  lemma GridCountGuard(first: int, last: int, k: nat)
    ensures (first + 10 * k <= last) == (k < GridCount(first, last))
  {
    if first <= last {
      var q := (last - first) / 10;
      assert last - first == 10 * q + (last - first) % 10;
      if k <= q {
        MulMonotone(k, q, 10);
      } else {
        MulMonotone(q + 1, k, 10);
      }
    }
  }

  /** `drawForecastGraph`: the range guard, the gridline loop and the
      curve loop, the two loops written as the two methods below. */
  method DrawForecastGraph(d: Display, x: int, y: int, w: int, h: int, data: seq<real>, dataSize: int,
                           minVal: real, maxVal: real)
    requires dataSize == |data|
    modifies d
    ensures d.log == old(d.log) + ForecastGraph(Plot(x, y, w, h), data, minVal, maxVal)
  {
    var p := Plot(x, y, w, h);
    var range := maxVal - minVal;
    if range <= 0.001 { range := 1.0; }
    assert range == PlotRange(minVal, maxVal);

    var firstLine := Floor(minVal / 10.0) * 10;
    DrawGridlines(d, p, minVal, range, firstLine, Ceil(maxVal));
    DrawCurve(d, p, data, dataSize, minVal, range);
  }

  lemma GridlinesStep(p: Plot, minVal: real, range: real, first: int, k: nat)
    requires range > 0.0
    ensures Gridlines(p, minVal, range, first, k + 1)
         == Gridlines(p, minVal, range, first, k) + GridAt(p, minVal, range, first + 10 * k)
  {
  }

  /** The gridline loop: values `first, first + 10, ...` up to `last`. */
  method DrawGridlines(d: Display, p: Plot, minVal: real, range: real, firstLine: int, last: int)
    requires range > 0.0
    modifies d
    ensures d.log == old(d.log) + Gridlines(p, minVal, range, firstLine, GridCount(firstLine, last))
  {
    ghost var count := GridCount(firstLine, last);
    var t := firstLine;
    ghost var k: nat := 0;
    GridCountGuard(firstLine, last, 0);
    while t <= last
      invariant t == firstLine + 10 * k && k <= count
      invariant (t <= last) == (k < count)
      invariant d.log == old(d.log) + Gridlines(p, minVal, range, firstLine, k)
      decreases last - t
    {
      ghost var before := d.log;
      DrawGridValue(d, p, minVal, range, t);
      GridlinesStep(p, minVal, range, firstLine, k);
      assert d.log == old(d.log) + Gridlines(p, minVal, range, firstLine, k + 1) by {
        assert d.log == before + GridAt(p, minVal, range, t);
      }
      t := t + 10;
      k := k + 1;
      GridCountGuard(firstLine, last, k);
    }
  }

  /** The body of the gridline loop for value `t`. */
  method DrawGridValue(d: Display, p: Plot, minVal: real, range: real, t: int)
    requires range > 0.0
    modifies d
    ensures d.log == old(d.log) + GridAt(p, minVal, range, t)
  {
    var yy := MapY(p, t as real, minVal, range);
    if yy < p.y || yy > p.y + p.h {
      // a row outside the plot is skipped, not clamped
    } else if t == 0 {
      d.DrawLine(p.x + 1, yy, p.x + p.w - 2, yy);
    } else {
      DrawDashedHLine(d, p.x + 1, p.x + p.w - 2, yy, 3, 3);
    }
  }

  /** The curve loop: segment `i` joins samples `i - 1` and `i`. */
  method DrawCurve(d: Display, p: Plot, data: seq<real>, dataSize: int, minVal: real, range: real)
    requires dataSize == |data| && range > 0.0
    modifies d
    ensures d.log == old(d.log) + Curve(p, data, minVal, range, |data|)
  {
    var i := 1;
    while i < dataSize
      invariant 1 <= i && (dataSize >= 1 ==> i <= dataSize)
      invariant d.log == old(d.log) + Curve(p, data, minVal, range, if dataSize >= 1 then i else 0)
    {
      ghost var before := d.log;
      var x1 := SampleX(p, dataSize, i - 1);
      var y1 := MapY(p, data[i - 1], minVal, range);
      var x2 := SampleX(p, dataSize, i);
      var y2 := MapY(p, data[i], minVal, range);
      var off := -2;
      while off <= 2
        invariant -2 <= off <= 3
        invariant d.log == before + Strands(x1, y1, x2, y2, off + 2)
      {
        d.DrawLine(x1, y1 + off, x2, y2 + off);
        off := off + 1;
      }
      i := i + 1;
    }
  }

  // ---------------------------------------------------------------- rain columns

  /** Column width `max(1, w / n)`. */
  function ColWidth(w: int, n: int): (cw: int)
    requires n != 0
    ensures cw >= 1
  {
    Max(1, CDiv(w, n))
  }

  /** Column height: the truncated share `v / maxVal` of `h`, at least 1. */
  function ColHeight(v: real, maxVal: real, h: int): int
    requires maxVal > 0.0
  {
    var c := Trunc((v / maxVal) * (h as real));
    if c < 1 then 1 else c
  }

  /** A positive sample not above `maxVal` gives a column of 1 to `h` pixels. */
  lemma ColHeightBounds(v: real, maxVal: real, h: int)
    requires 0.0 < v <= maxVal && h >= 1
    ensures 1 <= ColHeight(v, maxVal, h) <= h
  {
    var f := v / maxVal;
    assert 0.0 < f <= 1.0;
    assert f * (h as real) <= 1.0 * (h as real);
    TruncBounds(f * (h as real));
  }

  /** 2 mm against a scale of 4 mm fills half of a 60-pixel band; a
      trace of rain still gets one pixel, and the fraction is truncated,
      not rounded. */
  lemma ColHeightExamples()
    ensures ColHeight(2.0, 4.0, 60) == 30
    ensures ColHeight(0.01, 4.0, 60) == 1
    ensures ColHeight(1.0, 3.0, 50) == 16
  {
  }

  /** The column for sample `i`: none for a sample of 0 or less, otherwise
      a fill from the top edge, one pixel narrower than the column pitch. */
  function RainColumn(p: Plot, data: seq<real>, maxVal: real, i: nat): seq<Cmd>
    requires maxVal > 0.0 && i < |data|
  {
    if data[i] <= 0.0 then []
    else
      var cw := ColWidth(p.w, |data|);
      [FillRect(p.x + i * cw, p.y, cw - 1, ColHeight(data[i], maxVal, p.h))]
  }

  /** The columns for samples `0 .. k-1`. */
  function RainColumns(p: Plot, data: seq<real>, maxVal: real, k: nat): seq<Cmd>
    requires maxVal > 0.0 && k <= |data|
  {
    if k == 0 then [] else RainColumns(p, data, maxVal, k - 1) + RainColumn(p, data, maxVal, k - 1)
  }

  /** The fill `drawRainColumns` issues for a positive sample `i`. */
  predicate RainFillOf(p: Plot, data: seq<real>, maxVal: real, i: int, c: Cmd)
    requires maxVal > 0.0 && 0 <= i < |data|
  {
    var cw := ColWidth(p.w, |data|);
    data[i] > 0.0 && c == FillRect(p.x + i * cw, p.y, cw - 1, ColHeight(data[i], maxVal, p.h))
  }

  /** Every command is the fill of a positive sample; no command at all
      exactly when no sample is positive. */
  lemma {:induction false} RainColumnsSound(p: Plot, data: seq<real>, maxVal: real, k: nat)
    requires maxVal > 0.0 && k <= |data|
    ensures forall c :: c in RainColumns(p, data, maxVal, k) ==>
      exists i :: 0 <= i < k && RainFillOf(p, data, maxVal, i, c)
    ensures RainColumns(p, data, maxVal, k) == [] <==> forall i :: 0 <= i < k ==> data[i] <= 0.0
  {
    if k > 0 {
      RainColumnsSound(p, data, maxVal, k - 1);
      var cs := RainColumns(p, data, maxVal, k);
      forall c | c in cs ensures exists i :: 0 <= i < k && RainFillOf(p, data, maxVal, i, c) {
        if c in RainColumns(p, data, maxVal, k - 1) {
          var i :| 0 <= i < k - 1 && RainFillOf(p, data, maxVal, i, c);
        } else {
          assert RainFillOf(p, data, maxVal, k - 1, c);
        }
      }
      if data[k - 1] > 0.0 {
        assert cs[|cs| - 1] in cs;
      }
    }
  }

  /** Every positive sample gets its fill. */
  lemma {:induction false} RainColumnsComplete(p: Plot, data: seq<real>, maxVal: real, k: nat, i: nat)
    requires maxVal > 0.0 && i < k <= |data| && data[i] > 0.0
    ensures FillRect(p.x + i * ColWidth(p.w, |data|), p.y, ColWidth(p.w, |data|) - 1,
                     ColHeight(data[i], maxVal, p.h)) in RainColumns(p, data, maxVal, k)
  {
    if i < k - 1 {
      RainColumnsComplete(p, data, maxVal, k - 1, i);
    }
  }

  /** The bounded form used by the forecast band: when `maxVal` is at least
      every sample and `h >= 1`, each fill is 1 to `h` pixels tall, starts
      at the top edge `y` and is `colWidth - 1` wide. */
  lemma RainFillBounds(p: Plot, data: seq<real>, maxVal: real, c: Cmd)
    requires maxVal > 0.0 && p.h >= 1
    requires forall i :: 0 <= i < |data| ==> data[i] <= maxVal
    requires c in RainColumns(p, data, maxVal, |data|)
    ensures c.FillRect? && c.y == p.y && 1 <= c.h <= p.h && c.w == ColWidth(p.w, |data|) - 1
  {
    RainColumnsSound(p, data, maxVal, |data|);
    var i :| 0 <= i < |data| && RainFillOf(p, data, maxVal, i, c);
    ColHeightBounds(data[i], maxVal, p.h);
  }

  method DrawRainColumns(d: Display, x: int, y: int, w: int, h: int, data: seq<real>, dataSize: int, maxVal: real)
    requires dataSize == |data| && dataSize > 0 && maxVal > 0.0
    modifies d
    ensures d.log == old(d.log) + RainColumns(Plot(x, y, w, h), data, maxVal, dataSize)
  {
    ghost var p := Plot(x, y, w, h);
    var colWidth := Max(1, CDiv(w, dataSize));
    var i := 0;
    while i < dataSize
      invariant 0 <= i <= dataSize
      invariant d.log == old(d.log) + RainColumns(p, data, maxVal, i)
    {
      DrawRainColumn(d, x, y, h, data[i], i, colWidth, maxVal);
      assert colWidth == ColWidth(p.w, |data|);
      i := i + 1;
    }
  }

  /** The body of the column loop for sample `i` of value `v`. */
  method DrawRainColumn(d: Display, x: int, y: int, h: int, v: real, i: int, colWidth: int, maxVal: real)
    requires maxVal > 0.0
    modifies d
    ensures v <= 0.0 ==> d.log == old(d.log)
    ensures v > 0.0 ==> d.log == old(d.log) + [FillRect(x + i * colWidth, y, colWidth - 1, ColHeight(v, maxVal, h))]
  {
    if v > 0.0 {
      var colHeight := Trunc((v / maxVal) * (h as real));
      if colHeight < 1 { colHeight := 1; }
      d.FillRect(x + i * colWidth, y, colWidth - 1, colHeight);
    }
  }
}
