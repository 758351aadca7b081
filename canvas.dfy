/** The part of the browser's 2D canvas that the creative generator leaves a trace in.
    Drawing is modelled as a log of calls with the coordinates they were given;
    fonts, colours, filters and shadows carry no checkable meaning and are not recorded. */
module Canvas {

  /** An axis-aligned rectangle: top-left corner, width and height, in canvas pixels. */
  datatype Rect = Rect(x: real, y: real, width: real, height: real)

  /** One recorded canvas call; a picture is named by the URL it was loaded from. */
  datatype DrawCall =
    | DrawImage(src: string, at: Rect)
    | FillText(text: string, x: real, y: real)
    | RoundRect(at: Rect, radius: real)

  /** `Math.min` on exact reals. */
  function Min(a: real, b: real): (m: real)
    ensures m <= a && m <= b && (m == a || m == b)
  {
    if a <= b then a else b
  }

  /** `Math.max` on exact reals. */
  function Max(a: real, b: real): (m: real)
    ensures m >= a && m >= b && (m == a || m == b)
  {
    if a >= b then a else b
  }
}
