/** The whole screen (rendering.cpp `updateDisplay`): one full-window
    refresh made of page passes, each of which clears to white, draws the
    forecast band and then a row of six tiles along the bottom, each tile a
    64x64 icon with its reading centred below it. */
module Dashboard {
  import opened CNumerics
  import opened Panel
  import opened Forecast

  const Icons := 6
  const IconSize := 64

  /** The bottom strip is a fifth of the screen height, at least 64. */
  function BottomH(screenH: int): int { Max(64, CDiv(screenH, 5)) }

  function BottomY(screenH: int): int { screenH - BottomH(screenH) - 16 }

  /** The top edge of the icons. */
  function IconY(screenH: int): int { BottomY(screenH) + 2 }

  /** The baseline the reading is centred on, 20 pixels below the icon. */
  function ValueY(screenH: int): int { IconY(screenH) + IconSize + 20 }

  /** The space left over by six icons, shared by seven gaps (C division). */
  function Gap(screenW: int): int { CDiv(screenW - Icons * IconSize, Icons + 1) }

  /** The left edge of tile `i`. */
  function TileX(screenW: int, i: int): int { Gap(screenW) + i * (IconSize + Gap(screenW)) }

  /** The readings the tiles show. */
  datatype Readings = Readings(tempAir: real, humidity: real, co2: real, pressure: real,
                               sunrise: string, sunset: string)

  /** The text of tile `i`: temperature with one decimal and "C", humidity
      truncated to an integer with "%", the two times as stored, and CO2 and
      pressure truncated to integers. */
  function TileCaption(r: Readings, i: int): Caption
    requires 0 <= i < Icons
  {
    match i
    case 0 => Celsius(r.tempAir)
    case 1 => Percent(Trunc(r.humidity))
    case 2 => Chars(r.sunrise)
    case 3 => Chars(r.sunset)
    case 4 => Number(Trunc(r.co2))
    case _ => Number(Trunc(r.pressure))
  }

  function TileIcon(i: int): Icon
    requires 0 <= i < Icons
  {
    match i
    case 0 => TempIcon
    case 1 => HumidityIcon
    case 2 => SunriseIcon
    case 3 => SunsetIcon
    case 4 => Co2Icon
    case _ => PressureIcon
  }

  /** The four commands of tile `i`: the bold font, the reading centred on
      the tile's middle column, the regular font back, and the icon. */
  function Tile(screenW: int, screenH: int, r: Readings, i: int): seq<Cmd>
    requires 0 <= i < Icons
  {
    var ix := TileX(screenW, i);
    [SetFont(SansBold18),
     Text(ix + IconSize / 2, ValueY(screenH), CentreXY, TileCaption(r, i)),
     SetFont(Sans18),
     Bitmap(ix + (IconSize - 64) / 2, IconY(screenH) + (IconSize - 64) / 2, TileIcon(i), 64, 64)]
  }

  /** Tiles `0 .. k-1`. */
  function Tiles(screenW: int, screenH: int, r: Readings, k: nat): seq<Cmd>
    requires k <= Icons
  {
    if k == 0 then [] else Tiles(screenW, screenH, r, k - 1) + Tile(screenW, screenH, r, k - 1)
  }

  /** Tile `i` occupies commands `4*i .. 4*i+3`, and in particular shows
      its own reading at the middle of its own column and its own icon at
      its own left edge. */
  lemma {:induction false} TilesAt(screenW: int, screenH: int, r: Readings, k: nat)
    requires k <= Icons
    ensures |Tiles(screenW, screenH, r, k)| == 4 * k
    ensures forall i :: 0 <= i < k ==>
      && Tiles(screenW, screenH, r, k)[4 * i + 1]
           == Text(TileX(screenW, i) + 32, ValueY(screenH), CentreXY, TileCaption(r, i))
      && Tiles(screenW, screenH, r, k)[4 * i + 3]
           == Bitmap(TileX(screenW, i), IconY(screenH), TileIcon(i), 64, 64)
  {
    if k > 0 {
      TilesAt(screenW, screenH, r, k - 1);
    }
  }

  /** With a screen at least as wide as the six icons, the gap is not
      negative, tiles advance by `64 + gap`, neighbouring tiles do not
      overlap, and the last tile ends at least one gap before the right
      edge. */
  lemma TileLayout(screenW: int, i: int)
    requires screenW >= Icons * IconSize && 0 <= i < Icons - 1
    ensures Gap(screenW) >= 0 && TileX(screenW, 0) == Gap(screenW)
    ensures TileX(screenW, i + 1) == TileX(screenW, i) + IconSize + Gap(screenW)
    ensures TileX(screenW, i) + IconSize <= TileX(screenW, i + 1)
    ensures TileX(screenW, Icons - 1) + IconSize <= screenW - Gap(screenW)
  {
    var g := Gap(screenW);
    CDivPositive(screenW - Icons * IconSize, Icons + 1);
    assert TileX(screenW, i + 1) == TileX(screenW, i) + IconSize + g by {
      PeriodStep(i, IconSize + g);
    }
  }

  /** A 480-pixel-wide panel: the gap is 13 and the tiles start at 13,
      90, 167, 244, 321 and 398, the last ending at 462. */
  lemma TileExample()
    ensures Gap(480) == 13
    ensures TileX(480, 0) == 13 && TileX(480, 5) == 398
  {
  }

  // ---------------------------------------------------------------- page passes

  /** One page pass: cleared to white, the forecast band, then the tiles. */
  function Page(screenW: int, screenH: int, r: Readings, temps: seq<real>, rain: seq<real>, n: int,
                start: int, valid: bool): seq<Cmd>
    requires valid ==> 1 <= n <= |temps| && n <= |rain|
  {
    [FillScreen(White)]
    + WeatherForecast(screenW, screenH, temps, rain, n, start, valid)
    + [SetFont(Sans18)]
    + Tiles(screenW, screenH, r, Icons)
  }

  /** `m` copies of `s`, one after the other. */
  function Repeat(s: seq<Cmd>, m: nat): seq<Cmd>
  {
    if m == 0 then [] else Repeat(s, m - 1) + s
  }

  /** `a + b` copies are `a` copies followed by `b` copies. */
  lemma {:induction false} RepeatSplit(s: seq<Cmd>, a: nat, b: nat)
    ensures Repeat(s, a + b) == Repeat(s, a) + Repeat(s, b)
  {
    if b > 0 {
      RepeatSplit(s, a, b - 1);
      AppendAssoc(Repeat(s, a), Repeat(s, b - 1), s);
    }
  }

  /** `updateDisplay`: a full-window refresh, then `pages` identical
      passes. */
  function Screen(screenW: int, screenH: int, r: Readings, temps: seq<real>, rain: seq<real>, n: int,
                  start: int, valid: bool, pages: nat): seq<Cmd>
    requires valid ==> 1 <= n <= |temps| && n <= |rain|
  {
    [FullWindow] + Repeat(Page(screenW, screenH, r, temps, rain, n, start, valid), pages)
  }

  /** Every pass is the same page, and each page begins by clearing the
      panel to white: for each `k < pages` the screen is the refresh, `k`
      pages, the page, and the remaining pages. */
  lemma PassIsPage(screenW: int, screenH: int, r: Readings, temps: seq<real>, rain: seq<real>, n: int,
                   start: int, valid: bool, pages: nat, k: nat)
    requires valid ==> 1 <= n <= |temps| && n <= |rain|
    requires k < pages
    ensures var page := Page(screenW, screenH, r, temps, rain, n, start, valid);
      && page[0] == FillScreen(White)
      && Screen(screenW, screenH, r, temps, rain, n, start, valid, pages)
         == [FullWindow] + Repeat(page, k) + page + Repeat(page, pages - k - 1)
  {
    var page := Page(screenW, screenH, r, temps, rain, n, start, valid);
    RepeatSplit(page, k + 1, pages - k - 1);
    assert Repeat(page, k + 1) == Repeat(page, k) + page;
    AppendAssoc([FullWindow], Repeat(page, k) + page, Repeat(page, pages - k - 1));
  }

  /** The paging loop: the pass is drawn, then the panel says whether another
      pass follows; `pages` (at least 1) is the number of passes it asks
      for. */
  method UpdateDisplay(d: Display, r: Readings, temps: seq<real>, rain: seq<real>, n: int, start: int,
                       valid: bool, pages: int)
    requires valid ==> 1 <= n <= |temps| && n <= |rain|
    requires pages >= 1
    modifies d
    ensures d.log == old(d.log) + Screen(d.width, d.height, r, temps, rain, n, start, valid, pages)
  {
    d.SetFullWindow();
    ghost var page := Page(d.width, d.height, r, temps, rain, n, start, valid);
    var done := 0;
    var more := true;
    while more
      invariant 0 <= done <= pages && more == (done < pages)
      invariant d.log == old(d.log) + [FullWindow] + Repeat(page, done)
      decreases pages - done
    {
      DrawPage(d, r, temps, rain, n, start, valid);
      AppendAssoc(old(d.log) + [FullWindow], Repeat(page, done), page);
      done := done + 1;
      more := done < pages;
    }
    AppendAssoc(old(d.log), [FullWindow], Repeat(page, pages));
  }

  /** The body of the paging loop. */
  method DrawPage(d: Display, r: Readings, temps: seq<real>, rain: seq<real>, n: int, start: int, valid: bool)
    requires valid ==> 1 <= n <= |temps| && n <= |rain|
    modifies d
    ensures d.log == old(d.log) + Page(d.width, d.height, r, temps, rain, n, start, valid)
  {
    ghost var log0 := d.log;
    ghost var band := WeatherForecast(d.width, d.height, temps, rain, n, start, valid);
    ghost var tiles := Tiles(d.width, d.height, r, Icons);
    d.FillScreen(White);
    DrawWeatherForecast(d, temps, rain, n, start, valid);
    AppendAssoc(log0, [FillScreen(White)], band);
    d.SetFont(Sans18);
    AppendAssoc(log0, [FillScreen(White)] + band, [SetFont(Sans18)]);
    DrawTiles(d, r);
    AppendAssoc(log0, [FillScreen(White)] + band + [SetFont(Sans18)], tiles);
  }

  /** The tile loop. */
  method DrawTiles(d: Display, r: Readings)
    modifies d
    ensures d.log == old(d.log) + Tiles(d.width, d.height, r, Icons)
  {
    var screenW, screenH := d.width, d.height;
    var bottomH := Max(64, CDiv(screenH, 5));
    var bottomY := screenH - bottomH - 16;
    var gap := CDiv(screenW - Icons * IconSize, Icons + 1);
    var iconY := bottomY + 2;
    var i := 0;
    while i < Icons
      invariant 0 <= i <= Icons
      invariant d.log == old(d.log) + Tiles(screenW, screenH, r, i)
    {
      var ix := gap + i * (IconSize + gap);
      var valY := iconY + IconSize + 20;
      DrawTile(d, ix, valY, iconY, TileCaption(r, i), TileIcon(i));
      assert ix == TileX(screenW, i) && valY == ValueY(screenH) && iconY == IconY(screenH);
      AppendAssoc(old(d.log), Tiles(screenW, screenH, r, i), Tile(screenW, screenH, r, i));
      i := i + 1;
    }
  }

  /** The body of the tile loop for a tile at `ix`. */
  method DrawTile(d: Display, ix: int, valY: int, iconY: int, v: Caption, icon: Icon)
    modifies d
    ensures d.log == old(d.log) + [SetFont(SansBold18), Text(ix + IconSize / 2, valY, CentreXY, v),
                                   SetFont(Sans18),
                                   Bitmap(ix + (IconSize - 64) / 2, iconY + (IconSize - 64) / 2, icon, 64, 64)]
  {
    d.SetFont(SansBold18);
    d.Print(ix + IconSize / 2, valY, CentreXY, v);
    d.SetFont(Sans18);
    d.DrawBitmap(ix + (IconSize - 64) / 2, iconY + (IconSize - 64) / 2, icon, 64, 64);
  }
}
