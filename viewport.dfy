/** The part of the complex plane that is drawn: `calculateSquare` with the
    `windowKoef` of `getGlobal` (script.js), and the linear map from a pixel
    column or row to a coordinate inside it (`mandelbrot`). */
module Viewport {

  /** Half the extent of the drawn region along the shorter side of the
      drawing space, in plane units, at scale 1 (see `ShortSideHalfExtent`). */
  const MagicKoefBrot: real := 2.1

  /** The region handed to `mandelbrot`, as `calculateSquare` returns it. */
  datatype Square = Square(left: real, right: real, up: real, down: real)

  function Shorter(width: nat, height: nat): nat {
    if width > height then height else width
  }

  // ---------------------------------------------------------------------------
  // Arithmetic helpers. Each names a product or quotient and states only what
  // the callers need of it, so that the callers reason linearly.

  lemma CancelDiv(a: real, w: real)
    requires w != 0.0
    ensures w * (a / w) == a
    ensures (a * w) / w == a
  {
  }

  lemma PositiveProduct(x: real, y: real)
    requires 0.0 < x && 0.0 < y
    ensures 0.0 < x * y && 0.0 < x / y
  {
  }

  lemma HalveDivisor(q: real, s: real)
    requires s != 0.0
    ensures q / (2.0 * s) == (q / s) / 2.0
  {
  }

  // ---------------------------------------------------------------------------
  // `windowKoef` and `calculateSquare`.

  /** `windowKoef`: plane units per pixel of the shorter side at scale 1. */
  function WindowKoef(width: nat, height: nat): real
    requires 0 < width && 0 < height
  {
    if width > height then MagicKoefBrot / height as real else MagicKoefBrot / width as real
  }

  /** The shorter side of the drawing space spans `2.1` units per unit of
      `windowKoef`, and the factor is positive. */
  lemma WindowKoefSpansShorterSide(width: nat, height: nat)
    requires 0 < width && 0 < height
    ensures 0.0 < WindowKoef(width, height)
    ensures Shorter(width, height) as real * WindowKoef(width, height) == MagicKoefBrot
  {
    var side := Shorter(width, height) as real;
    CancelDiv(MagicKoefBrot, side);
    PositiveProduct(MagicKoefBrot, side);
  }

  /** `moveX` / `moveY`: half the extent along a side of `side` pixels. */
  function Move(side: nat, koef: real, scale: real): real
    requires scale != 0.0
  {
    side as real * koef / scale
  }

  /** `centerX` / `centerY`: the percentage 0..100 of the control panel mapped
      onto `[-2.1, 2.1]`. */
  function Center(percent: real): real {
    (percent - 50.0) / 50.0 * MagicKoefBrot
  }

  /** `calculateSquare`, with the size of the drawing space as parameters. */
  function CalculateSquare(centerXPercent: real, centerYPercent: real, scale: real,
                           spaceWidth: nat, spaceHeight: nat): Square
    requires scale != 0.0 && 0 < spaceWidth && 0 < spaceHeight
  {
    var koef := WindowKoef(spaceWidth, spaceHeight);
    var moveX := Move(spaceWidth, koef, scale);
    var moveY := Move(spaceHeight, koef, scale);
    var centerX := Center(centerXPercent);
    var centerY := Center(centerYPercent);
    Square(centerX - moveX, centerX + moveX, centerY + moveY, centerY - moveY)
  }

  lemma MovePositive(side: nat, koef: real, scale: real)
    requires 0 < side && 0.0 < koef && 0.0 < scale
    ensures 0.0 < Move(side, koef, scale)
  {
    PositiveProduct(side as real, koef);
    PositiveProduct(side as real * koef, scale);
  }

  /** With a positive scale the region is non-empty in both directions. */
  lemma SquareOrdered(cxp: real, cyp: real, scale: real, w: nat, h: nat)
    requires 0.0 < scale && 0 < w && 0 < h
    ensures CalculateSquare(cxp, cyp, scale, w, h).left < CalculateSquare(cxp, cyp, scale, w, h).right
    ensures CalculateSquare(cxp, cyp, scale, w, h).down < CalculateSquare(cxp, cyp, scale, w, h).up
  {
    WindowKoefSpansShorterSide(w, h);
    MovePositive(w, WindowKoef(w, h), scale);
    MovePositive(h, WindowKoef(w, h), scale);
  }

  /** The region is centred on the point the two percentages select:
      50% is the origin, 0% is -2.1 and 100% is 2.1. */
  lemma SquareCentred(cxp: real, cyp: real, scale: real, w: nat, h: nat)
    requires scale != 0.0 && 0 < w && 0 < h
    ensures var sq := CalculateSquare(cxp, cyp, scale, w, h);
      (sq.left + sq.right) / 2.0 == Center(cxp) && (sq.down + sq.up) / 2.0 == Center(cyp)
    ensures Center(50.0) == 0.0 && Center(0.0) == -MagicKoefBrot && Center(100.0) == MagicKoefBrot
  {
  }

  /** Along the shorter side of the drawing space the region reaches `2.1/scale`
      on either side of its centre. */
  lemma ShortSideHalfExtent(cxp: real, cyp: real, scale: real, w: nat, h: nat)
    requires scale != 0.0 && 0 < w && 0 < h
    ensures var sq := CalculateSquare(cxp, cyp, scale, w, h);
      (w <= h ==> (sq.right - sq.left) / 2.0 == MagicKoefBrot / scale) &&
      (h < w ==> (sq.up - sq.down) / 2.0 == MagicKoefBrot / scale)
  {
    WindowKoefSpansShorterSide(w, h);
    var koef := WindowKoef(w, h);
    if w <= h {
      assert w as real * koef == MagicKoefBrot;
      assert Move(w, koef, scale) == MagicKoefBrot / scale;
    } else {
      assert h as real * koef == MagicKoefBrot;
      assert Move(h, koef, scale) == MagicKoefBrot / scale;
    }
  }

  lemma MoveRatio(w: nat, h: nat, koef: real, scale: real)
    requires scale != 0.0
    ensures Move(w, koef, scale) * h as real == Move(h, koef, scale) * w as real
  {
    var q := koef / scale;
    assert w as real * koef / scale == w as real * q;
    assert h as real * koef / scale == h as real * q;
    assert (w as real * q) * h as real == (h as real * q) * w as real;
  }

  /** The region has the proportions of the drawing space, so pixels are square. */
  lemma SquareAspect(cxp: real, cyp: real, scale: real, w: nat, h: nat)
    requires scale != 0.0 && 0 < w && 0 < h
    ensures var sq := CalculateSquare(cxp, cyp, scale, w, h);
      (sq.right - sq.left) * h as real == (sq.up - sq.down) * w as real
  {
    var koef := WindowKoef(w, h);
    MoveRatio(w, h, koef, scale);
    var mx, my := Move(w, koef, scale), Move(h, koef, scale);
    assert (2.0 * mx) * h as real == 2.0 * (mx * h as real);
    assert (2.0 * my) * w as real == 2.0 * (my * w as real);
  }

  /** Doubling the scale halves both half-extents and keeps the centre. */
  lemma DoubleScaleHalves(cxp: real, cyp: real, scale: real, w: nat, h: nat)
    requires scale != 0.0 && 0 < w && 0 < h
    ensures var sq, zoomed := CalculateSquare(cxp, cyp, scale, w, h),
                              CalculateSquare(cxp, cyp, 2.0 * scale, w, h);
      zoomed.right - zoomed.left == (sq.right - sq.left) / 2.0 &&
      zoomed.up - zoomed.down == (sq.up - sq.down) / 2.0 &&
      zoomed.left + zoomed.right == sq.left + sq.right &&
      zoomed.down + zoomed.up == sq.down + sq.up
  {
    var koef := WindowKoef(w, h);
    HalveDivisor(w as real * koef, scale);
    HalveDivisor(h as real * koef, scale);
  }

  // ---------------------------------------------------------------------------
  // Pixel to plane.

  /** `xmin + (xmax - xmin) * ix / (width - 1)`: column (or row) `i` of `n`. */
  function Coordinate(lo: real, hi: real, i: nat, n: nat): real
    requires 2 <= n
  {
    lo + (hi - lo) * i as real / (n - 1) as real
  }

  /** The first column maps to `lo`, the last one to `hi`. */
  lemma CoordinateEnds(lo: real, hi: real, n: nat)
    requires 2 <= n
    ensures Coordinate(lo, hi, 0, n) == lo
    ensures Coordinate(lo, hi, n - 1, n) == hi
  {
    CancelDiv(hi - lo, (n - 1) as real);
  }

  lemma ScaleStrictlyIncreasing(d: real, i: real, j: real, n: real)
    requires 0.0 < d && i < j && 0.0 < n
    ensures d * i / n < d * j / n
  {
    PositiveProduct(d, j - i);
    assert d * j - d * i == d * (j - i);
    PositiveProduct(d * (j - i), n);
    assert d * j / n - d * i / n == d * (j - i) / n;
  }

  /** Columns further right map to larger coordinates when `lo < hi`. */
  lemma CoordinateIncreasing(lo: real, hi: real, i: nat, j: nat, n: nat)
    requires 2 <= n && lo < hi && i < j
    ensures Coordinate(lo, hi, i, n) < Coordinate(lo, hi, j, n)
  {
    ScaleStrictlyIncreasing(hi - lo, i as real, j as real, (n - 1) as real);
  }
}
