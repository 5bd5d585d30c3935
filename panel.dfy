/** The 1-bit e-paper panel as the renderer sees it: every drawing primitive
    the firmware calls is appended, as a command, to the panel's log, so
    that what a renderer draws is exactly the list of commands it issues.
    Glyph pixels, text metrics and bitmap contents stay with the panel
    library; the log records which primitive was called and where. */
module Panel {

  datatype Colour = Black | White

  /** The fonts the renderer selects. */
  datatype Font = Sans12 | SansBold18 | Sans18

  /** Where a string is placed relative to the recorded point:
      `Cursor` prints with the cursor at the point; `CentreX` moves the
      cursor left by half the measured text width; `CentreXY` also moves
      it down by half the measured text height. */
  datatype Anchor = Cursor | CentreX | CentreXY

  /** What a string shows: an integer, a temperature formatted with one
      decimal and a trailing "C", an integer followed by "%", or
      characters passed through as they are. */
  datatype Caption = Number(n: int) | Celsius(t: real) | Percent(n: int) | Chars(s: string)

  /** The six dashboard glyphs. */
  datatype Icon = TempIcon | HumidityIcon | SunriseIcon | SunsetIcon | Co2Icon | PressureIcon

  datatype Cmd =
    | FullWindow                                   // setFullWindow()
    | FillScreen(colour: Colour)                   // fillScreen(colour)
    | Line(x0: int, y0: int, x1: int, y1: int)     // drawLine(x0, y0, x1, y1, BLACK)
    | FillRect(x: int, y: int, w: int, h: int)     // fillRect(x, y, w, h, BLACK)
    | SetFont(font: Font)                          // setFont(font)
    | Text(x: int, y: int, anchor: Anchor, caption: Caption)
    | Bitmap(x: int, y: int, icon: Icon, w: int, h: int)

  /** A panel of a fixed width and height whose frame buffer is described
      by the commands issued to it so far. */
  class Display {
    const width: int
    const height: int
    var log: seq<Cmd>

    constructor (w: int, h: int)
      ensures width == w && height == h && log == []
    {
      width, height := w, h;
      log := [];
    }

    method SetFullWindow()
      modifies this
      ensures log == old(log) + [FullWindow]
    {
      log := log + [FullWindow];
    }

    method FillScreen(colour: Colour)
      modifies this
      ensures log == old(log) + [Cmd.FillScreen(colour)]
    {
      log := log + [Cmd.FillScreen(colour)];
    }

    method DrawLine(x0: int, y0: int, x1: int, y1: int)
      modifies this
      ensures log == old(log) + [Line(x0, y0, x1, y1)]
    {
      log := log + [Line(x0, y0, x1, y1)];
    }

    method FillRect(x: int, y: int, w: int, h: int)
      modifies this
      ensures log == old(log) + [Cmd.FillRect(x, y, w, h)]
    {
      log := log + [Cmd.FillRect(x, y, w, h)];
    }

    method SetFont(font: Font)
      modifies this
      ensures log == old(log) + [Cmd.SetFont(font)]
    {
      log := log + [Cmd.SetFont(font)];
    }

    method Print(x: int, y: int, anchor: Anchor, caption: Caption)
      modifies this
      ensures log == old(log) + [Text(x, y, anchor, caption)]
    {
      log := log + [Text(x, y, anchor, caption)];
    }

    method DrawBitmap(x: int, y: int, icon: Icon, w: int, h: int)
      modifies this
      ensures log == old(log) + [Bitmap(x, y, icon, w, h)]
    {
      log := log + [Bitmap(x, y, icon, w, h)];
    }
  }
}
