/** `mandelbrot` of script.js without the DOM: every pixel of a `width` by
    `height` canvas is mapped into the viewport, its escape time computed, and
    its colour from the user's palette written into the RGBA buffer. */
module Script {
  import opened Escape
  import opened Hex
  import opened Color
  import opened Viewport
  import opened Raster

  /** The arguments of one drawing: canvas size, viewport and iteration cap. */
  datatype Frame = Frame(width: nat, height: nat, xmin: real, xmax: real,
                         ymin: real, ymax: real, iterations: nat)

  /** A canvas on which every pixel can be mapped: the divisions by
      `width - 1` and `height - 1` only happen when there is a pixel, and then
      need at least two columns and two rows. */
  predicate Drawable(width: nat, height: nat) {
    width == 0 || height == 0 || (2 <= width && 2 <= height)
  }

  /** The point of the plane drawn at pixel `(ix, iy)`. */
  function PointAt(f: Frame, ix: nat, iy: nat): Complex
    requires 2 <= f.width && 2 <= f.height
  {
    Complex(Coordinate(f.xmin, f.xmax, ix, f.width), Coordinate(f.ymin, f.ymax, iy, f.height))
  }

  /** The colour of pixel `(ix, iy)`. */
  function Pixel(palitra: Palette, L: real -> real, f: Frame, ix: nat, iy: nat): Channels
    requires IsLogLike(L) && 2 <= f.width && 2 <= f.height
  {
    var z := PointAt(f, ix, iy);
    EscapedAtLeastThree(z.re, z.im, f.iterations);
    Shade(palitra, L, EscapeTime(z.re, z.im, f.iterations), f.iterations)
  }

  /** The colours of all pixels, row by row. */
  function Image(palitra: Palette, L: real -> real, f: Frame): (cs: seq<Channels>)
    requires IsLogLike(L) && Drawable(f.width, f.height)
    ensures |cs| == f.width * f.height
  {
    seq(f.width * f.height, m requires 0 <= m < f.width * f.height =>
      IndexInGrid(f.width, f.height, m);
      Pixel(palitra, L, f, m % f.width, m / f.width))
  }

  lemma ImageAt(palitra: Palette, L: real -> real, f: Frame, ix: nat, iy: nat)
    requires IsLogLike(L) && Drawable(f.width, f.height)
    requires ix < f.width && iy < f.height
    ensures f.width * iy + ix < |Image(palitra, L, f)|
    ensures Image(palitra, L, f)[f.width * iy + ix] == Pixel(palitra, L, f, ix, iy)
  {
    RowColumn(f.width, ix, iy);
    IndexBelowArea(f.width, f.height, ix, iy);
  }

  /** The colour of a pixel is the colour of its escape time. */
  lemma PixelShade(palitra: Palette, L: real -> real, f: Frame, ix: nat, iy: nat, i: nat)
    requires IsLogLike(L) && 2 <= f.width && 2 <= f.height
    requires i == EscapeTime(PointAt(f, ix, iy).re, PointAt(f, ix, iy).im, f.iterations)
    ensures i <= f.iterations ==> 3 <= i
    ensures Pixel(palitra, L, f, ix, iy) == Shade(palitra, L, i, f.iterations)
  {
    var z := PointAt(f, ix, iy);
    EscapedAtLeastThree(z.re, z.im, f.iterations);
  }

  /** Lines 40-62 of the inner loop, once the escape time `i` is known: the
      three colour channels of the pixel at `pixelsPosition`, then its alpha. */
  method PaintPixel(pixels: array<real>, pixelsPosition: nat, i: nat, iterations: nat,
                    palitra: Palette, L: real -> real)
    requires IsLogLike(L) && (i <= iterations ==> 3 <= i)
    requires pixelsPosition + 3 < pixels.Length
    modifies pixels
    ensures var c := Shade(palitra, L, i, iterations);
      pixels[pixelsPosition] == c.red && pixels[pixelsPosition + 1] == c.green &&
      pixels[pixelsPosition + 2] == c.blue && pixels[pixelsPosition + 3] == 255.0
    ensures forall q :: 0 <= q < pixels.Length && !(pixelsPosition <= q < pixelsPosition + 4) ==>
      pixels[q] == old(pixels[q])
  {
    if i > iterations {
      pixels[pixelsPosition] := palitra.center.red as real;
      pixels[pixelsPosition + 1] := palitra.center.green as real;
      pixels[pixelsPosition + 2] := palitra.center.blue as real;
    } else {
      LogPositive(L, iterations as real - 1.0);
      var color := 3.0 * L(i as real) / L(iterations as real - 1.0);
      RampBands(palitra, color);

      if color < 1.0 {
        pixels[pixelsPosition] := palitra.far.red as real * color;
        pixels[pixelsPosition + 1] := palitra.far.green as real * color;
        pixels[pixelsPosition + 2] := palitra.far.blue as real * color;
      } else if color < 2.0 {
        pixels[pixelsPosition] := palitra.far.red as real + (palitra.middle.red as real - palitra.far.red as real) * (color - 1.0);
        pixels[pixelsPosition + 1] := palitra.far.green as real + (palitra.middle.green as real - palitra.far.green as real) * (color - 1.0);
        pixels[pixelsPosition + 2] := palitra.far.blue as real + (palitra.middle.blue as real - palitra.far.blue as real) * (color - 1.0);
      } else {
        pixels[pixelsPosition] := palitra.middle.red as real + (palitra.close.red as real - palitra.middle.red as real) * (color - 2.0);
        pixels[pixelsPosition + 1] := palitra.middle.green as real + (palitra.close.green as real - palitra.middle.green as real) * (color - 2.0);
        pixels[pixelsPosition + 2] := palitra.middle.blue as real + (palitra.close.blue as real - palitra.middle.blue as real) * (color - 2.0);
      }
    }

    pixels[pixelsPosition + 3] := 255.0;
  }

  /** One pass of the inner loop of `mandelbrot` (lines 34-62): the point of
      pixel `(ix, iy)`, its escape time, and its four buffer entries. */
  method DrawPoint(pixels: array<real>, width: nat, height: nat,
                   xmin: real, xmax: real, ymin: real, ymax: real,
                   iterations: nat, palitra: Palette, L: real -> real, ix: nat, iy: nat)
    requires IsLogLike(L) && 2 <= width && 2 <= height && ix < width && iy < height
    requires pixels.Length == 4 * (width * height)
    modifies pixels
    ensures var c, pos := Pixel(palitra, L, Frame(width, height, xmin, xmax, ymin, ymax, iterations), ix, iy),
                          Position(width, ix, iy);
      pos + 3 < pixels.Length &&
      pixels[pos] == c.red && pixels[pos + 1] == c.green && pixels[pos + 2] == c.blue && pixels[pos + 3] == 255.0
    ensures var pos := Position(width, ix, iy);
      forall q :: 0 <= q < pixels.Length && !(pos <= q < pos + 4) ==> pixels[q] == old(pixels[q])
  {
    ghost var f := Frame(width, height, xmin, xmax, ymin, ymax, iterations);
    var x := xmin + (xmax - xmin) * ix as real / (width - 1) as real;
    var y := ymin + (ymax - ymin) * iy as real / (height - 1) as real;
    var i;
    ghost var bodies;
    i, bodies := MandelbrotIteration(x, y, iterations);
    PixelShade(palitra, L, f, ix, iy, i);
    var pixelsPosition := 4 * (width * iy + ix);
    PositionInBounds(width, height, ix, iy);
    PaintPixel(pixels, pixelsPosition, i, iterations, palitra, L);
  }

  /** `mandelbrot`: fills `pixels`, the canvas's RGBA data, column by column. */
  method Mandelbrot(pixels: array<real>, width: nat, height: nat,
                    xmin: real, xmax: real, ymin: real, ymax: real,
                    iterations: nat, palitra: Palette, L: real -> real)
    requires IsLogLike(L) && Drawable(width, height)
    requires pixels.Length == 4 * (width * height)
    modifies pixels
    ensures pixels[..] == Flatten(Image(palitra, L, Frame(width, height, xmin, xmax, ymin, ymax, iterations)))
  {
    ghost var f := Frame(width, height, xmin, xmax, ymin, ymax, iterations);
    ghost var cs := Image(palitra, L, f);
    ghost var target := Flatten(cs);
    for ix := 0 to width
      invariant forall q :: 0 <= q < |target| && Done(width, ix, 0, q) ==> pixels[q] == target[q]
    {
      for iy := 0 to height
        invariant forall q :: 0 <= q < |target| && Done(width, ix, iy, q) ==> pixels[q] == target[q]
      {
        ghost var before := pixels[..];
        DrawPoint(pixels, width, height, xmin, xmax, ymin, ymax, iterations, palitra, L, ix, iy);
        FlattenPixel(cs, width, height, ix, iy);
        ImageAt(palitra, L, f, ix, iy);
        PaintAdvances(before, pixels[..], target, width, height, ix, iy);
      }
      ColumnAdvances(pixels[..], target, width, height, ix);
    }
    AllColumns(pixels[..], target, width, height);
  }

  // ---------------------------------------------------------------------------
  // What the finished image shows.

  /** A pixel whose point never escaped takes the centre colour. */
  lemma InteriorPixel(palitra: Palette, L: real -> real, f: Frame, ix: nat, iy: nat)
    requires IsLogLike(L) && 2 <= f.width && 2 <= f.height
    requires forall j :: 0 <= j < f.iterations ==>
      Bounded(StateAfter(PointAt(f, ix, iy).re, PointAt(f, ix, iy).im, j))
    ensures Pixel(palitra, L, f, ix, iy) == OfRgb(palitra.center)
  {
    var z := PointAt(f, ix, iy);
    InteriorIff(z.re, z.im, f.iterations);
  }

  /** The pixel drawn at the origin of the plane is always interior. */
  lemma OriginPixel(palitra: Palette, L: real -> real, f: Frame, ix: nat, iy: nat)
    requires IsLogLike(L) && 2 <= f.width && 2 <= f.height
    requires PointAt(f, ix, iy) == Complex(0.0, 0.0)
    ensures Pixel(palitra, L, f, ix, iy) == OfRgb(palitra.center)
  {
    OriginIsInterior(f.iterations);
  }

  /** With anchors from `hexToRgb`, every channel of a pixel is in 0..255 unless
      its point escaped at the very last test. */
  lemma PixelInRange(palitra: Palette, L: real -> real, f: Frame, ix: nat, iy: nat)
    requires IsLogLike(L) && IsBytePalette(palitra) && 2 <= f.width && 2 <= f.height
    requires EscapeTime(PointAt(f, ix, iy).re, PointAt(f, ix, iy).im, f.iterations) != f.iterations
    ensures ChannelsInByteRange(Pixel(palitra, L, f, ix, iy))
  {
    var z := PointAt(f, ix, iy);
    EscapedAtLeastThree(z.re, z.im, f.iterations);
    ShadeInRange(palitra, L, EscapeTime(z.re, z.im, f.iterations), f.iterations);
  }

  /** Every pixel of the finished buffer is opaque. */
  lemma ImageOpaque(palitra: Palette, L: real -> real, f: Frame, ix: nat, iy: nat)
    requires IsLogLike(L) && Drawable(f.width, f.height)
    requires ix < f.width && iy < f.height
    ensures var target := Flatten(Image(palitra, L, f));
      Position(f.width, ix, iy) + 3 < |target| && target[Position(f.width, ix, iy) + 3] == 255.0
  {
    FlattenPixel(Image(palitra, L, f), f.width, f.height, ix, iy);
  }
}
