/** The colour of one pixel: the interior colour for a point that never escaped,
    otherwise a three-band linear ramp through the palette in the band value
    `color = 3 * log(i) / log(iterations - 1)` (script.js, `mandelbrot`). */
module Color {
  import opened Hex

  /** The four anchors `getColors` reads from the colour inputs. */
  datatype Palette = Palette(center: Rgb, close: Rgb, middle: Rgb, far: Rgb)

  /** The three colour channels written for one pixel, as the code computes
      them (the canvas would round and clamp them when they are stored). */
  datatype Channels = Channels(red: real, green: real, blue: real)

  predicate IsByteRgb(c: Rgb) {
    c.red <= 255 && c.green <= 255 && c.blue <= 255
  }

  /** Every anchor is a triple `hexToRgb` can produce. */
  predicate IsBytePalette(p: Palette) {
    IsByteRgb(p.center) && IsByteRgb(p.close) && IsByteRgb(p.middle) && IsByteRgb(p.far)
  }

  function OfRgb(c: Rgb): Channels {
    Channels(c.red as real, c.green as real, c.blue as real)
  }

  predicate InByteRange(v: real) {
    0.0 <= v <= 255.0
  }

  predicate ChannelsInByteRange(c: Channels) {
    InByteRange(c.red) && InByteRange(c.green) && InByteRange(c.blue)
  }

  function Abs(x: real): real {
    if x < 0.0 then -x else x
  }

  // ---------------------------------------------------------------------------
  // One channel of the ramp.

  /** One channel of the three bands: from 0 to `far` while `t < 1`, from `far`
      to `middle` while `t < 2`, and from `middle` towards `close` after that. */
  function Band(far: real, middle: real, close: real, t: real): real {
    if t < 1.0 then far * t
    else if t < 2.0 then far + (middle - far) * (t - 1.0)
    else middle + (close - middle) * (t - 2.0)
  }

  /** The ramp of a palette, channel by channel. */
  function Ramp(p: Palette, t: real): Channels {
    Channels(Band(p.far.red as real, p.middle.red as real, p.close.red as real, t),
             Band(p.far.green as real, p.middle.green as real, p.close.green as real, t),
             Band(p.far.blue as real, p.middle.blue as real, p.close.blue as real, t))
  }

  /** The linear formula of band `k` (0, 1 or 2), valid for every `t`. */
  function Piece(far: real, middle: real, close: real, k: nat, t: real): real {
    if k == 0 then far * t
    else if k == 1 then far + (middle - far) * (t - 1.0)
    else middle + (close - middle) * (t - 2.0)
  }

  function Slope(far: real, middle: real, close: real, k: nat): real {
    if k == 0 then far else if k == 1 then middle - far else close - middle
  }

  /** The band the if-chain selects for `t`. */
  function BandOf(t: real): (k: nat)
    ensures k <= 2
  {
    if t < 1.0 then 0 else if t < 2.0 then 1 else 2
  }

  lemma BandIsPiece(f: real, m: real, c: real, t: real)
    ensures Band(f, m, c, t) == Piece(f, m, c, BandOf(t), t)
  {
  }

  lemma PieceDiff(f: real, m: real, c: real, k: nat, t: real, s: real)
    ensures Piece(f, m, c, k, t) - Piece(f, m, c, k, s) == Slope(f, m, c, k) * (t - s)
  {
    if k == 0 {
      assert f * t - f * s == f * (t - s);
    } else if k == 1 {
      assert (m - f) * (t - 1.0) - (m - f) * (s - 1.0) == (m - f) * (t - s);
    } else {
      assert (c - m) * (t - 2.0) - (c - m) * (s - 2.0) == (c - m) * (t - s);
    }
  }

  lemma MulNonneg(x: real, y: real)
    requires 0.0 <= x && 0.0 <= y
    ensures 0.0 <= x * y
  {
  }

  /** Names the product `a * d` and bounds it by `255 * |d|`. */
  lemma MulBound(a: real, d: real) returns (p: real)
    requires -255.0 <= a <= 255.0
    ensures p == a * d
    ensures Abs(p) <= 255.0 * Abs(d)
  {
    p := a * d;
    var e := Abs(d);
    MulNonneg(255.0 - a, e);
    MulNonneg(a + 255.0, e);
    assert (255.0 - a) * e == 255.0 * e - a * e;
    assert (a + 255.0) * e == a * e + 255.0 * e;
    if d < 0.0 {
      assert a * d == -(a * e);
    }
  }

  /** Within one band the value changes by at most 255 per unit of `t`. */
  lemma PieceLipschitz(f: real, m: real, c: real, k: nat, t: real, s: real)
    requires InByteRange(f) && InByteRange(m) && InByteRange(c)
    ensures Abs(Piece(f, m, c, k, t) - Piece(f, m, c, k, s)) <= 255.0 * Abs(t - s)
  {
    PieceDiff(f, m, c, k, t, s);
    var p := MulBound(Slope(f, m, c, k), t - s);
  }

  /** The bands meet: band 1 at `t = 1` is `far`, band 2 at `t = 2` is `middle`. */
  lemma PiecesMeet(f: real, m: real, c: real)
    ensures Piece(f, m, c, 0, 1.0) == Piece(f, m, c, 1, 1.0) == f
    ensures Piece(f, m, c, 1, 2.0) == Piece(f, m, c, 2, 2.0) == m
  {
  }

  lemma {:induction false} BandLipschitzOrdered(f: real, m: real, c: real, s: real, t: real)
    requires InByteRange(f) && InByteRange(m) && InByteRange(c)
    requires s <= t
    ensures Abs(Band(f, m, c, t) - Band(f, m, c, s)) <= 255.0 * (t - s)
  {
    var ks, kt := BandOf(s), BandOf(t);
    BandIsPiece(f, m, c, s);
    BandIsPiece(f, m, c, t);
    PiecesMeet(f, m, c);
    if ks == kt {
      PieceLipschitz(f, m, c, ks, t, s);
    } else if ks == 0 && kt == 1 {
      PieceLipschitz(f, m, c, 0, 1.0, s);
      PieceLipschitz(f, m, c, 1, t, 1.0);
    } else if ks == 1 && kt == 2 {
      PieceLipschitz(f, m, c, 1, 2.0, s);
      PieceLipschitz(f, m, c, 2, t, 2.0);
    } else {
      assert ks == 0 && kt == 2;
      PieceLipschitz(f, m, c, 0, 1.0, s);
      PieceLipschitz(f, m, c, 1, 2.0, 1.0);
      PieceLipschitz(f, m, c, 2, t, 2.0);
    }
  }

  /** Continuity of one channel: with anchors in 0..255 the ramp never jumps,
      and it changes by at most 255 per unit of the band value. */
  lemma BandLipschitz(f: real, m: real, c: real, s: real, t: real)
    requires InByteRange(f) && InByteRange(m) && InByteRange(c)
    ensures Abs(Band(f, m, c, t) - Band(f, m, c, s)) <= 255.0 * Abs(t - s)
  {
    if s <= t {
      BandLipschitzOrdered(f, m, c, s, t);
    } else {
      BandLipschitzOrdered(f, m, c, t, s);
    }
  }

  /** Names the product `d * u` for `u` in `[0, 1]`: it lies between 0 and `d`. */
  lemma ScaleDown(d: real, u: real) returns (p: real)
    requires 0.0 <= u <= 1.0
    ensures p == d * u
    ensures 0.0 <= d ==> 0.0 <= p <= d
    ensures d <= 0.0 ==> d <= p <= 0.0
  {
    p := d * u;
    if 0.0 <= d {
      MulNonneg(d, u);
      MulNonneg(d, 1.0 - u);
      assert d * (1.0 - u) == d - d * u;
    } else {
      MulNonneg(-d, u);
      MulNonneg(-d, 1.0 - u);
      assert (-d) * (1.0 - u) == -d + d * u;
      assert (-d) * u == -(d * u);
    }
  }

  /** `a + p` lies between `a` and `b` when `p` lies between 0 and `b - a`. */
  lemma LinearRange(a: real, b: real, p: real)
    requires InByteRange(a) && InByteRange(b)
    requires 0.0 <= b - a ==> 0.0 <= p <= b - a
    requires b - a <= 0.0 ==> b - a <= p <= 0.0
    ensures InByteRange(a + p)
  {
  }

  /** For a band value in `[0, 3]` a channel stays in 0..255 when its anchors do. */
  lemma BandInRange(f: real, m: real, c: real, t: real)
    requires InByteRange(f) && InByteRange(m) && InByteRange(c)
    requires 0.0 <= t <= 3.0
    ensures InByteRange(Band(f, m, c, t))
  {
    if t < 1.0 {
      var p := ScaleDown(f, t);
      LinearRange(0.0, f, p);
    } else if t < 2.0 {
      var p := ScaleDown(m - f, t - 1.0);
      LinearRange(f, m, p);
    } else {
      var p := ScaleDown(c - m, t - 2.0);
      LinearRange(m, c, p);
    }
  }

  // ---------------------------------------------------------------------------
  // The ramp of a palette.

  /** At the knots the ramp takes the anchors: black at 0, `far` at 1, `middle`
      at 2 and `close` at 3. */
  lemma RampKnots(p: Palette)
    ensures Ramp(p, 0.0) == Channels(0.0, 0.0, 0.0)
    ensures Ramp(p, 1.0) == OfRgb(p.far)
    ensures Ramp(p, 2.0) == OfRgb(p.middle)
    ensures Ramp(p, 3.0) == OfRgb(p.close)
  {
  }

  /** The three bands of the ramp, written channel by channel as the drawing
      loop computes them. */
  lemma RampBands(p: Palette, t: real)
    ensures t < 1.0 ==> (Ramp(p, t) ==
      Channels(p.far.red as real * t, p.far.green as real * t, p.far.blue as real * t))
    ensures 1.0 <= t < 2.0 ==> (Ramp(p, t) ==
      Channels(p.far.red as real + (p.middle.red as real - p.far.red as real) * (t - 1.0),
               p.far.green as real + (p.middle.green as real - p.far.green as real) * (t - 1.0),
               p.far.blue as real + (p.middle.blue as real - p.far.blue as real) * (t - 1.0)))
    ensures 2.0 <= t ==> (Ramp(p, t) ==
      Channels(p.middle.red as real + (p.close.red as real - p.middle.red as real) * (t - 2.0),
               p.middle.green as real + (p.close.green as real - p.middle.green as real) * (t - 2.0),
               p.middle.blue as real + (p.close.blue as real - p.middle.blue as real) * (t - 2.0)))
  {
  }

  /** Continuity of the ramp, channel by channel. */
  lemma RampLipschitz(p: Palette, s: real, t: real)
    requires IsBytePalette(p)
    ensures Abs(Ramp(p, t).red - Ramp(p, s).red) <= 255.0 * Abs(t - s)
    ensures Abs(Ramp(p, t).green - Ramp(p, s).green) <= 255.0 * Abs(t - s)
    ensures Abs(Ramp(p, t).blue - Ramp(p, s).blue) <= 255.0 * Abs(t - s)
  {
    BandLipschitz(p.far.red as real, p.middle.red as real, p.close.red as real, s, t);
    BandLipschitz(p.far.green as real, p.middle.green as real, p.close.green as real, s, t);
    BandLipschitz(p.far.blue as real, p.middle.blue as real, p.close.blue as real, s, t);
  }

  lemma RampInRange(p: Palette, t: real)
    requires IsBytePalette(p)
    requires 0.0 <= t <= 3.0
    ensures ChannelsInByteRange(Ramp(p, t))
  {
    BandInRange(p.far.red as real, p.middle.red as real, p.close.red as real, t);
    BandInRange(p.far.green as real, p.middle.green as real, p.close.green as real, t);
    BandInRange(p.far.blue as real, p.middle.blue as real, p.close.blue as real, t);
  }

  // ---------------------------------------------------------------------------
  // The band value.

  /** What the model assumes of `Math.log`: zero at 1 and strictly increasing
      on the positive reals. */
  ghost predicate IsLogLike(L: real -> real) {
    L(1.0) == 0.0 && forall a: real, b: real :: 0.0 < a < b ==> L(a) < L(b)
  }

  lemma LogPositive(L: real -> real, a: real)
    requires IsLogLike(L)
    requires 1.0 <= a
    ensures 0.0 <= L(a)
    ensures 1.0 < a ==> 0.0 < L(a)
  {
    if 1.0 < a {
      assert L(1.0) < L(a);
    }
  }

  /** `3 * Math.log(i) / Math.log(iterations - 1.0)`. The caller only evaluates
      it for an escaped point, where `3 <= i <= iterations`. */
  function LogBand(L: real -> real, i: nat, iterations: nat): real
    requires IsLogLike(L)
    requires 1 <= i && 3 <= iterations
  {
    LogPositive(L, iterations as real - 1.0);
    3.0 * L(i as real) / L(iterations as real - 1.0)
  }

  lemma DivBounds(a: real, d: real)
    requires 0.0 < d
    ensures 0.0 <= a ==> 0.0 <= 3.0 * a / d
    ensures 0.0 < a ==> 0.0 < 3.0 * a / d
    ensures 3.0 * a / d <= 3.0 <==> a <= d
  {
    var q := 3.0 * a / d;
    assert q * d == 3.0 * a;
    if a <= d {
      assert q * d <= 3.0 * d;
    }
  }

  /** The band value of an escaped pixel is positive, and it stays within the
      ramp's domain `[0, 3]` exactly when the escape time is below `iterations`:
      a point caught by the last check gets a band value above 3. */
  lemma LogBandRange(L: real -> real, i: nat, iterations: nat)
    requires IsLogLike(L)
    requires 3 <= i <= iterations
    ensures 0.0 < LogBand(L, i, iterations)
    ensures LogBand(L, i, iterations) <= 3.0 <==> i <= iterations - 1
  {
    var n1 := iterations as real - 1.0;
    LogPositive(L, n1);
    LogPositive(L, i as real);
    DivBounds(L(i as real), L(n1));
    if i <= iterations - 1 {
      if i < iterations - 1 {
        assert L(i as real) < L(n1);
      }
    } else {
      assert n1 < i as real;
      assert L(n1) < L(i as real);
    }
  }

  // ---------------------------------------------------------------------------
  // The colour of one pixel.

  /** The colour written for a pixel whose escape time is `i`: the centre anchor
      when the test `i > iterations` finds it interior, otherwise the ramp at
      the band value. An escaped point has `3 <= i`, so the logarithms are
      defined. */
  function Shade(p: Palette, L: real -> real, i: nat, iterations: nat): Channels
    requires IsLogLike(L)
    requires i <= iterations ==> 3 <= i
  {
    if i > iterations then OfRgb(p.center) else Ramp(p, LogBand(L, i, iterations))
  }

  /** Interior pixels take the centre anchor; every escaped pixel takes a colour
      of the ramp strictly past its black end. */
  lemma ShadeCases(p: Palette, L: real -> real, i: nat, iterations: nat)
    requires IsLogLike(L)
    requires i <= iterations ==> 3 <= i
    ensures i > iterations ==> Shade(p, L, i, iterations) == OfRgb(p.center)
    ensures i <= iterations ==> exists t :: 0.0 < t && Shade(p, L, i, iterations) == Ramp(p, t)
  {
    if i <= iterations {
      LogBandRange(L, i, iterations);
      var t := LogBand(L, i, iterations);
      assert Shade(p, L, i, iterations) == Ramp(p, t);
    }
  }

  /** With anchors from `hexToRgb`, every channel written stays in 0..255,
      except possibly for a point caught by the very last escape test. */
  lemma ShadeInRange(p: Palette, L: real -> real, i: nat, iterations: nat)
    requires IsLogLike(L) && IsBytePalette(p)
    requires i <= iterations ==> 3 <= i
    requires i != iterations
    ensures ChannelsInByteRange(Shade(p, L, i, iterations))
  {
    if i <= iterations {
      LogBandRange(L, i, iterations);
      RampInRange(p, LogBand(L, i, iterations));
    }
  }
}
