/** index.js: the first version of the renderer. The same escape-time loop
    (`Escape.MandelbrotIteration`), a pixel loop with a fixed black interior and
    a red, yellow, white ramp, and a viewport computed inline from the window
    size with scale 50 centred at 17% / 52% of the plane. */
module Index {
  import opened Escape
  import opened Hex
  import opened Color
  import opened Viewport
  import opened Raster
  import Script

  /** The colours index.js hard-codes, as a palette of script.js: black
      interior, then red, yellow and white as the band value grows. */
  const Classic: Palette :=
    Palette(center := Rgb(0, 0, 0), close := Rgb(255, 255, 255), middle := Rgb(255, 255, 0), far := Rgb(255, 0, 0))

  /** The three bands of index.js, lines 41-53. */
  function FixedRamp(t: real): Channels {
    if t < 1.0 then Channels(255.0 * t, 0.0, 0.0)
    else if t < 2.0 then Channels(255.0, 255.0 * (t - 1.0), 0.0)
    else Channels(255.0, 255.0, 255.0 * (t - 2.0))
  }

  /** index.js's ramp is script.js's ramp with the classic palette. */
  lemma FixedRampIsClassic(t: real)
    ensures FixedRamp(t) == Ramp(Classic, t)
  {
    RampBands(Classic, t);
  }

  /** The bands meet: red at 1, yellow at 2, white at 3, and no channel moves
      faster than 255 per unit of band value. */
  lemma FixedRampContinuous(s: real, t: real)
    ensures FixedRamp(1.0) == Channels(255.0, 0.0, 0.0)
    ensures FixedRamp(2.0) == Channels(255.0, 255.0, 0.0)
    ensures FixedRamp(3.0) == Channels(255.0, 255.0, 255.0)
    ensures Abs(FixedRamp(t).red - FixedRamp(s).red) <= 255.0 * Abs(t - s)
    ensures Abs(FixedRamp(t).green - FixedRamp(s).green) <= 255.0 * Abs(t - s)
    ensures Abs(FixedRamp(t).blue - FixedRamp(s).blue) <= 255.0 * Abs(t - s)
  {
    FixedRampIsClassic(s);
    FixedRampIsClassic(t);
    RampLipschitz(Classic, s, t);
  }

  /** For band values in `[0, 3]` every channel index.js writes is in 0..255. */
  lemma FixedRampInRange(t: real)
    requires 0.0 <= t <= 3.0
    ensures ChannelsInByteRange(FixedRamp(t))
  {
    FixedRampIsClassic(t);
    RampInRange(Classic, t);
  }

  /** The colour index.js gives escape time `i`. */
  function FixedShade(L: real -> real, i: nat, iterations: nat): Channels
    requires IsLogLike(L)
    requires i <= iterations ==> 3 <= i
  {
    if i > iterations then Channels(0.0, 0.0, 0.0) else FixedRamp(LogBand(L, i, iterations))
  }

  /** index.js colours every escape time as script.js does with the classic
      palette; interior points are black. */
  lemma FixedShadeIsClassic(L: real -> real, i: nat, iterations: nat)
    requires IsLogLike(L)
    requires i <= iterations ==> 3 <= i
    ensures FixedShade(L, i, iterations) == Shade(Classic, L, i, iterations)
    ensures i > iterations ==> FixedShade(L, i, iterations) == Channels(0.0, 0.0, 0.0)
  {
    if i <= iterations {
      FixedRampIsClassic(LogBand(L, i, iterations));
    }
  }

  /** A point that escapes at the very last test gets a band value above 3, so
      index.js writes a blue channel above 255 for it (the canvas clamps it). */
  lemma LastTestOverflows(L: real -> real, iterations: nat)
    requires IsLogLike(L) && 3 <= iterations
    ensures 3.0 < LogBand(L, iterations, iterations)
    ensures 255.0 < FixedShade(L, iterations, iterations).blue
  {
    LogBandRange(L, iterations, iterations);
    var t := LogBand(L, iterations, iterations);
    assert 255.0 * (t - 2.0) == 255.0 + 255.0 * (t - 3.0);
    MulNonneg(255.0, t - 3.0);
    assert 255.0 * (t - 3.0) != 0.0;
  }

  // ---------------------------------------------------------------------------
  // The pixel loop, lines 27-58.

  /** Lines 34-56, once the escape time `i` is known. */
  method PaintPixel(pixels: array<real>, pixelsPosition: nat, i: nat, iterations: nat, L: real -> real)
    requires IsLogLike(L) && (i <= iterations ==> 3 <= i)
    requires pixelsPosition + 3 < pixels.Length
    modifies pixels
    ensures var c := FixedShade(L, i, iterations);
      pixels[pixelsPosition] == c.red && pixels[pixelsPosition + 1] == c.green &&
      pixels[pixelsPosition + 2] == c.blue && pixels[pixelsPosition + 3] == 255.0
    ensures forall q :: 0 <= q < pixels.Length && !(pixelsPosition <= q < pixelsPosition + 4) ==>
      pixels[q] == old(pixels[q])
  {
    if i > iterations {
      pixels[pixelsPosition] := 0.0;
      pixels[pixelsPosition + 1] := 0.0;
      pixels[pixelsPosition + 2] := 0.0;
    } else {
      LogPositive(L, iterations as real - 1.0);
      var color := 3.0 * L(i as real) / L(iterations as real - 1.0);

      if color < 1.0 {
        pixels[pixelsPosition] := 255.0 * color;
        pixels[pixelsPosition + 1] := 0.0;
        pixels[pixelsPosition + 2] := 0.0;
      } else if color < 2.0 {
        pixels[pixelsPosition] := 255.0;
        pixels[pixelsPosition + 1] := 255.0 * (color - 1.0);
        pixels[pixelsPosition + 2] := 0.0;
      } else {
        pixels[pixelsPosition] := 255.0;
        pixels[pixelsPosition + 1] := 255.0;
        pixels[pixelsPosition + 2] := 255.0 * (color - 2.0);
      }
    }

    pixels[pixelsPosition + 3] := 255.0;
  }

  /** One pass of the inner loop, lines 29-56: the pixel gets the colour
      script.js would give it with the classic palette. */
  method DrawPoint(pixels: array<real>, width: nat, height: nat,
                   xmin: real, xmax: real, ymin: real, ymax: real,
                   iterations: nat, L: real -> real, ix: nat, iy: nat)
    requires IsLogLike(L) && 2 <= width && 2 <= height && ix < width && iy < height
    requires pixels.Length == 4 * (width * height)
    modifies pixels
    ensures var c, pos := Script.Pixel(Classic, L, Script.Frame(width, height, xmin, xmax, ymin, ymax, iterations), ix, iy),
                          Position(width, ix, iy);
      pos + 3 < pixels.Length &&
      pixels[pos] == c.red && pixels[pos + 1] == c.green && pixels[pos + 2] == c.blue && pixels[pos + 3] == 255.0
    ensures var pos := Position(width, ix, iy);
      forall q :: 0 <= q < pixels.Length && !(pos <= q < pos + 4) ==> pixels[q] == old(pixels[q])
  {
    ghost var f := Script.Frame(width, height, xmin, xmax, ymin, ymax, iterations);
    var x := xmin + (xmax - xmin) * ix as real / (width - 1) as real;
    var y := ymin + (ymax - ymin) * iy as real / (height - 1) as real;
    var i;
    ghost var bodies;
    i, bodies := MandelbrotIteration(x, y, iterations);
    Script.PixelShade(Classic, L, f, ix, iy, i);
    FixedShadeIsClassic(L, i, iterations);
    var pixelsPosition := 4 * (width * iy + ix);
    PositionInBounds(width, height, ix, iy);
    PaintPixel(pixels, pixelsPosition, i, iterations, L);
  }

  /** `mandelbrot` of index.js: the buffer ends up as the image script.js
      draws with the classic palette. */
  method Mandelbrot(pixels: array<real>, width: nat, height: nat,
                    xmin: real, xmax: real, ymin: real, ymax: real,
                    iterations: nat, L: real -> real)
    requires IsLogLike(L) && Script.Drawable(width, height)
    requires pixels.Length == 4 * (width * height)
    modifies pixels
    ensures pixels[..] ==
      Flatten(Script.Image(Classic, L, Script.Frame(width, height, xmin, xmax, ymin, ymax, iterations)))
  {
    ghost var f := Script.Frame(width, height, xmin, xmax, ymin, ymax, iterations);
    ghost var cs := Script.Image(Classic, L, f);
    ghost var target := Flatten(cs);
    for ix := 0 to width
      invariant forall q :: 0 <= q < |target| && Done(width, ix, 0, q) ==> pixels[q] == target[q]
    {
      for iy := 0 to height
        invariant forall q :: 0 <= q < |target| && Done(width, ix, iy, q) ==> pixels[q] == target[q]
      {
        ghost var before := pixels[..];
        DrawPoint(pixels, width, height, xmin, xmax, ymin, ymax, iterations, L, ix, iy);
        FlattenPixel(cs, width, height, ix, iy);
        Script.ImageAt(Classic, L, f, ix, iy);
        PaintAdvances(before, pixels[..], target, width, height, ix, iy);
      }
      ColumnAdvances(pixels[..], target, width, height, ix);
    }
    AllColumns(pixels[..], target, width, height);
  }

  /** A pixel whose point never escaped is black. */
  lemma InteriorPixelBlack(L: real -> real, f: Script.Frame, ix: nat, iy: nat)
    requires IsLogLike(L) && 2 <= f.width && 2 <= f.height
    requires forall j :: 0 <= j < f.iterations ==>
      Bounded(StateAfter(Script.PointAt(f, ix, iy).re, Script.PointAt(f, ix, iy).im, j))
    ensures Script.Pixel(Classic, L, f, ix, iy) == Channels(0.0, 0.0, 0.0)
  {
    Script.InteriorPixel(Classic, L, f, ix, iy);
  }

  /** Every pixel is in 0..255 in every channel unless its point escaped at
      the last test. */
  lemma PixelInRange(L: real -> real, f: Script.Frame, ix: nat, iy: nat)
    requires IsLogLike(L) && 2 <= f.width && 2 <= f.height
    requires EscapeTime(Script.PointAt(f, ix, iy).re, Script.PointAt(f, ix, iy).im, f.iterations) != f.iterations
    ensures ChannelsInByteRange(Script.Pixel(Classic, L, f, ix, iy))
  {
    Script.PixelInRange(Classic, L, f, ix, iy);
  }

  // ---------------------------------------------------------------------------
  // The page, lines 63-92.

  /** The constants of the page: zoom 50, centre at 17% and 52%, 2000 iterations. */
  const PageScale: real := 50.0
  const PageCenterXPercent: real := 17.0
  const PageCenterYPercent: real := 52.0
  const PageIterations: nat := 2000

  /** Lines 73-79: `windowKoef` starts at 1 and is multiplied by 2.1 over the
      shorter side of the window. */
  method PageWindowKoef(innerWidth: nat, innerHeight: nat) returns (windowKoef: real)
    requires 0 < innerWidth && 0 < innerHeight
    ensures windowKoef == MagicKoefBrot / Shorter(innerWidth, innerHeight) as real
    ensures windowKoef == WindowKoef(innerWidth, innerHeight)
  {
    var magicKoefBrot := 2.1;
    windowKoef := 1.0;
    if innerWidth > innerHeight {
      windowKoef := windowKoef * (magicKoefBrot / innerHeight as real);
    } else {
      windowKoef := windowKoef * (magicKoefBrot / innerWidth as real);
    }
  }

  /** Lines 73-90: the region drawn, which is `calculateSquare` of script.js
      at the page's constants, hence non-empty and centred on them. */
  method PageViewport(innerWidth: nat, innerHeight: nat) returns (left: real, right: real, up: real, down: real)
    requires 0 < innerWidth && 0 < innerHeight
    ensures Square(left, right, up, down) ==
      CalculateSquare(PageCenterXPercent, PageCenterYPercent, PageScale, innerWidth, innerHeight)
    ensures left < right && down < up
    ensures (left + right) / 2.0 == Center(PageCenterXPercent) && (down + up) / 2.0 == Center(PageCenterYPercent)
  {
    var windowKoef := PageWindowKoef(innerWidth, innerHeight);
    var moveX := innerWidth as real * windowKoef / PageScale;
    var moveY := innerHeight as real * windowKoef / PageScale;

    var centerX := (PageCenterXPercent - 50.0) / 50.0 * MagicKoefBrot;
    var centerY := (PageCenterYPercent - 50.0) / 50.0 * MagicKoefBrot;

    left := centerX - moveX;
    up := centerY + moveY;
    right := centerX + moveX;
    down := centerY - moveY;

    SquareOrdered(PageCenterXPercent, PageCenterYPercent, PageScale, innerWidth, innerHeight);
    SquareCentred(PageCenterXPercent, PageCenterYPercent, PageScale, innerWidth, innerHeight);
  }

  /** Lines 63-92: a canvas the size of the window, drawn over the page's
      region with 2000 iterations. `mandelbrot` is called with `down` as
      `ymin` and `up` as `ymax`. */
  method Page(pixels: array<real>, innerWidth: nat, innerHeight: nat, L: real -> real)
    requires IsLogLike(L) && 2 <= innerWidth && 2 <= innerHeight
    requires pixels.Length == 4 * (innerWidth * innerHeight)
    modifies pixels
    ensures var sq := CalculateSquare(PageCenterXPercent, PageCenterYPercent, PageScale, innerWidth, innerHeight);
      pixels[..] == Flatten(Script.Image(Classic, L,
        Script.Frame(innerWidth, innerHeight, sq.left, sq.right, sq.down, sq.up, PageIterations)))
  {
    var left, right, up, down := PageViewport(innerWidth, innerHeight);
    Mandelbrot(pixels, innerWidth, innerHeight, left, right, down, up, PageIterations, L);
  }
}
