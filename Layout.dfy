/**
 * Layout: the pixel geometry of the bar and its label, scaled to the image
 * height and aligned to the bottom-right corner.
 *
 * Coordinates are the image's data coordinates as the source draws in them:
 * whole numbers are pixel centres, the origin is the centre of the top-left
 * pixel, y grows downwards, and an image `w` by `h` pixels spans -0.5 to
 * w - 0.5 across and -0.5 to h - 0.5 down. So a bar that ends at `w - 20`
 * ends 19.5 pixels inside the right edge. The bar length in pixels is a
 * real, as in the source, which never rounds it.
 */
module Layout {

  /** The bar's far corner is at width and height minus this, in data coordinates. */
  const Padding: int := 20
  /** The thinnest bar, in pixels. */
  const MinBarHeight: int := 2
  /**
   * The smallest label font size. The size is in points for the text, but
   * the source also subtracts half of it from a pixel coordinate.
   */
  const MinFontSize: int := 8

  /** `n` is what Python's `int()` makes of the non-negative real `x`: its truncation. */
  ghost predicate IsTruncation(n: int, x: real) {
    n as real <= x < n as real + 1.0
  }

  function Max(a: int, b: int): int {
    if a < b then b else a
  }

  /** Integer division truncates exactly as `int()` of the real quotient does. */
  lemma DivIsTruncation(n: nat, d: nat)
    requires d > 0
    ensures IsTruncation(n / d, n as real / d as real)
  {
    var q, m := n / d, n % d;
    assert n == q * d + m && 0 <= m < d;
    assert n as real == q as real * d as real + m as real;
    calc {
      n as real / d as real;
      (q as real * d as real + m as real) / d as real;
      q as real + m as real / d as real;
    }
    assert 0.0 <= m as real / d as real < 1.0;
  }

  /**
   * The bar height for an image `heightPx` pixels tall: 0.35% of the height,
   * truncated, but never below two pixels.
   */
  function BarHeight(heightPx: nat): (r: int)
    ensures r >= MinBarHeight
    ensures heightPx as real * 0.0035 >= MinBarHeight as real ==> IsTruncation(r, heightPx as real * 0.0035)
    ensures heightPx as real * 0.0035 < MinBarHeight as real ==> r == MinBarHeight
  {
    DivIsTruncation(heightPx * 35, 10000);
    assert (heightPx * 35) as real / 10000 as real == heightPx as real * 0.0035;
    Max(MinBarHeight, heightPx * 35 / 10000)
  }

  /**
   * The label font size for an image `heightPx` pixels tall: 2% of the
   * height, truncated, but never below eight points.
   */
  function FontSize(heightPx: nat): (r: int)
    ensures r >= MinFontSize
    ensures heightPx as real * 0.02 >= MinFontSize as real ==> IsTruncation(r, heightPx as real * 0.02)
    ensures heightPx as real * 0.02 < MinFontSize as real ==> r == MinFontSize
  {
    DivIsTruncation(heightPx, 50);
    assert heightPx as real / 50 as real == heightPx as real * 0.02;
    Max(MinFontSize, heightPx / 50)
  }

  /**
   * Where the bar and its label go. `barX`, `barY` is the bar's top-left
   * corner; `labelX`, `labelY` is the label's anchor, the middle of the
   * text's bottom edge.
   */
  datatype Placement = Placement(
    barX: real, barY: int, barWidth: real, barHeight: int,
    fontSize: int, labelX: real, labelY: real)

  /**
   * The placement of a bar `lengthPx` pixels long on an image `widthPx` by
   * `heightPx` pixels: the bar's right and bottom edges are at `widthPx` and
   * `heightPx` minus `Padding`, and the label's anchor is centred over the
   * bar, `fontSize / 2` pixels above its top.
   */
  function Place(widthPx: nat, heightPx: nat, lengthPx: real): (p: Placement)
    ensures p.barWidth == lengthPx
    ensures p.barHeight == BarHeight(heightPx) && p.fontSize == FontSize(heightPx)
    ensures p.barX + p.barWidth + Padding as real == widthPx as real
    ensures p.barY + p.barHeight + Padding == heightPx
    ensures p.labelX - p.barX == (p.barX + p.barWidth) - p.labelX
    ensures p.labelY + p.fontSize as real / 2.0 == p.barY as real
    ensures p.labelY <= p.barY as real - MinFontSize as real / 2.0
  {
    var barHeight := BarHeight(heightPx);
    var fontSize := FontSize(heightPx);
    var x := widthPx as real - lengthPx - Padding as real;
    var y := heightPx - barHeight - Padding;
    Placement(x, y, lengthPx, barHeight, fontSize, x + lengthPx / 2.0, y as real - fontSize as real * 0.5)
  }

  /**
   * An image at least as wide as the bar plus twice the padding puts the
   * bar's left edge at data coordinate `Padding` or beyond; one tall enough
   * puts the bar's top at `Padding` or below.
   */
  lemma BarInsideImage(widthPx: nat, heightPx: nat, lengthPx: real)
    requires 0.0 <= lengthPx
    ensures var p := Place(widthPx, heightPx, lengthPx);
      && (lengthPx + 2.0 * Padding as real <= widthPx as real ==>
            Padding as real <= p.barX && p.barX + p.barWidth <= widthPx as real)
      && (p.barHeight + 2 * Padding <= heightPx ==>
            Padding <= p.barY && p.barY + p.barHeight <= heightPx)
  {
  }
}
