/** Dashed lines (rendering.cpp `drawDashedHLine`, `drawDashedVLine`): a
    run of `on` pixels is drawn every `on + off` pixels from the first
    coordinate, the last run cut short at the second coordinate. Both
    directions draw the same runs, so the runs are specified once, in
    closed form, and the two loops are proved against it. */
module Dashes {
  import opened CNumerics
  import opened Panel

  /** An inclusive pixel interval `lo .. hi` along the line. */
  datatype Run = Run(lo: int, hi: int)

  /** How many run starts `a, a + period, ...` do not exceed `b`. */
  function DashCount(a: int, b: int, period: int): nat
    requires period > 0
  {
    if a > b then 0 else (b - a) / period + 1
  }

  /** Run `k`: from `a + k*period`, `on` pixels long, cut at `b`. */
  function DashRun(a: int, b: int, on: int, period: int, k: int): Run
  {
    Run(a + k * period, Min(a + k * period + on - 1, b))
  }

  /** The first `k` runs of a dashed line from `a` to `b`; none at all when
      `on` is not positive, since then no run has a positive length. */
  function DashPrefix(a: int, b: int, on: int, off: int, k: nat): seq<Run>
    requires on + off > 0
  {
    if on <= 0 then [] else seq(k, j requires 0 <= j < k => DashRun(a, b, on, on + off, j))
  }

  /** All runs of a dashed line from `a` to `b` (inclusive). */
  function DashRuns(a: int, b: int, on: int, off: int): seq<Run>
    requires on + off > 0
  {
    DashPrefix(a, b, on, off, DashCount(a, b, on + off))
  }

  /** The loop runs while `a + k*period <= b`, that is while `k` is below
      the run count. */
  lemma DashGuard(a: int, b: int, period: int, k: nat)
    requires period > 0
    ensures (a + k * period <= b) == (k < DashCount(a, b, period))
  {
    if a <= b {
      var q := (b - a) / period;
      assert b - a == q * period + (b - a) % period;
      if k <= q {
        MulMonotone(k, q, period);
      } else {
        MulMonotone(q + 1, k, period);
        PeriodStep(q, period);
      }
    }
  }

  /** Run `k` starts at `a + k*(on + off)`, lies inside `[a, b]` and is
      between 1 and `on` pixels long; there are no runs when `a > b`. */
  lemma DashRunsShape(a: int, b: int, on: int, off: int)
    requires on >= 1 && on + off > 0
    ensures |DashRuns(a, b, on, off)| == DashCount(a, b, on + off)
    ensures a > b ==> DashRuns(a, b, on, off) == []
    ensures forall k :: 0 <= k < |DashRuns(a, b, on, off)| ==>
      var r := DashRuns(a, b, on, off)[k];
      r.lo == a + k * (on + off) && a <= r.lo <= r.hi <= b && r.hi - r.lo < on
  {
    var rs := DashRuns(a, b, on, off);
    forall k | 0 <= k < |rs|
      ensures a <= rs[k].lo <= rs[k].hi <= b
    {
      DashGuard(a, b, on + off, k);
      MulMonotone(0, k, on + off);
    }
  }

  /** With `off >= 0` the runs are strictly increasing and pairwise
      disjoint: each ends before the next one starts. */
  lemma DashRunsDisjoint(a: int, b: int, on: int, off: int)
    requires on >= 1 && off >= 0
    ensures forall i, j :: 0 <= i < j < |DashRuns(a, b, on, off)| ==>
      DashRuns(a, b, on, off)[i].hi < DashRuns(a, b, on, off)[j].lo
  {
    var rs := DashRuns(a, b, on, off);
    var p := on + off;
    forall i, j | 0 <= i < j < |rs| ensures rs[i].hi < rs[j].lo {
      MulMonotone(i + 1, j, p);
      PeriodStep(i, p);
    }
  }

  /** A pixel `x` is covered by some run exactly when it lies in `[a, b]`
      and falls in the "on" part of its period: `(x - a) % (on + off) < on`. */
  lemma DashCoverage(a: int, b: int, on: int, off: int, x: int)
    requires on >= 1 && off >= 0
    ensures (exists k :: 0 <= k < |DashRuns(a, b, on, off)| &&
               DashRuns(a, b, on, off)[k].lo <= x <= DashRuns(a, b, on, off)[k].hi)
            <==> a <= x <= b && (x - a) % (on + off) < on
  {
    var rs := DashRuns(a, b, on, off);
    if exists k :: 0 <= k < |rs| && rs[k].lo <= x <= rs[k].hi {
      var k :| 0 <= k < |rs| && rs[k].lo <= x <= rs[k].hi;
      CoveredByRun(a, b, on, off, k, x);
    }
    if a <= x <= b && (x - a) % (on + off) < on {
      CoveringRun(a, b, on, off, x);
    }
  }

  /** A pixel of run `k` is in `[a, b]` and at offset `x - lo < on` in its period. */
  lemma CoveredByRun(a: int, b: int, on: int, off: int, k: nat, x: int)
    requires on >= 1 && off >= 0
    requires k < |DashRuns(a, b, on, off)|
    requires DashRuns(a, b, on, off)[k].lo <= x <= DashRuns(a, b, on, off)[k].hi
    ensures a <= x <= b && (x - a) % (on + off) < on
  {
    var p := on + off;
    var r := DashRun(a, b, on, p, k);
    assert DashRuns(a, b, on, off)[k] == r;
    MulMonotone(0, k, p);
    DashGuard(a, b, p, k);
    DivUnique(x - a, p, k, x - r.lo);
    assert x - a == k * p + (x - r.lo);
  }

  /** A pixel in `[a, b]` in the "on" part of its period lies in run
      `(x - a) / (on + off)`. */
  lemma CoveringRun(a: int, b: int, on: int, off: int, x: int)
    requires on >= 1 && off >= 0
    requires a <= x <= b && (x - a) % (on + off) < on
    ensures var k := (x - a) / (on + off);
      0 <= k < |DashRuns(a, b, on, off)| &&
      DashRuns(a, b, on, off)[k].lo <= x <= DashRuns(a, b, on, off)[k].hi
  {
    var p := on + off;
    var k := (x - a) / p;
    var m := (x - a) % p;
    assert x - a == k * p + m;
    DashGuard(a, b, p, k);
    assert DashRuns(a, b, on, off)[k] == DashRun(a, b, on, p, k);
  }

  /** The horizontal segments at row `y` covering the given runs. */
  function HLines(rs: seq<Run>, y: int): seq<Cmd>
  {
    seq(|rs|, k requires 0 <= k < |rs| => Line(rs[k].lo, y, rs[k].hi, y))
  }

  /** The vertical segments in column `x` covering the given runs. */
  function VLines(rs: seq<Run>, x: int): seq<Cmd>
  {
    seq(|rs|, k requires 0 <= k < |rs| => Line(x, rs[k].lo, x, rs[k].hi))
  }

  method DrawDashedHLine(d: Display, x1: int, x2: int, y: int, on: int, off: int)
    requires on + off > 0
    modifies d
    ensures d.log == old(d.log) + HLines(DashRuns(x1, x2, on, off), y)
  {
    var xx := x1;
    ghost var k: nat := 0;
    DashGuard(x1, x2, on + off, 0);
    while xx <= x2
      invariant xx == x1 + k * (on + off) && k <= DashCount(x1, x2, on + off)
      invariant (xx <= x2) == (k < DashCount(x1, x2, on + off))
      invariant d.log == old(d.log) + HLines(DashPrefix(x1, x2, on, off, k), y)
      decreases x2 - xx
    {
      var segW := Min(on, x2 - xx + 1);
      if segW > 0 {
        d.DrawLine(xx, y, xx + segW - 1, y);
        assert DashPrefix(x1, x2, on, off, k + 1) == DashPrefix(x1, x2, on, off, k) + [Run(xx, xx + segW - 1)];
      }
      xx := xx + on + off;
      k := k + 1;
      PeriodStep(k - 1, on + off);
      DashGuard(x1, x2, on + off, k);
    }
  }

  method DrawDashedVLine(d: Display, y1: int, y2: int, x: int, on: int, off: int)
    requires on + off > 0
    modifies d
    ensures d.log == old(d.log) + VLines(DashRuns(y1, y2, on, off), x)
  {
    var yy := y1;
    ghost var k: nat := 0;
    DashGuard(y1, y2, on + off, 0);
    while yy <= y2
      invariant yy == y1 + k * (on + off) && k <= DashCount(y1, y2, on + off)
      invariant (yy <= y2) == (k < DashCount(y1, y2, on + off))
      invariant d.log == old(d.log) + VLines(DashPrefix(y1, y2, on, off, k), x)
      decreases y2 - yy
    {
      var segH := Min(on, y2 - yy + 1);
      if segH > 0 {
        d.DrawLine(x, yy, x, yy + segH - 1);
        assert DashPrefix(y1, y2, on, off, k + 1) == DashPrefix(y1, y2, on, off, k) + [Run(yy, yy + segH - 1)];
      }
      yy := yy + on + off;
      k := k + 1;
      PeriodStep(k - 1, on + off);
      DashGuard(y1, y2, on + off, k);
    }
  }
}
