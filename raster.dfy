/** The RGBA pixel buffer of a canvas image: four entries per pixel, pixels
    stored row by row, `pixels_position = 4 * (width * iy + ix)`. */
module Raster {
  import opened Color

  /** Where the red entry of pixel `(ix, iy)` lives. */
  function Position(width: nat, ix: nat, iy: nat): nat {
    4 * (width * iy + ix)
  }

  // ---------------------------------------------------------------------------
  // Integer helpers for the row-major layout.

  lemma MulMonotone(w: nat, a: nat, b: nat)
    requires a <= b
    ensures w * a <= w * b
  {
  }

  /** The only multiple of a positive `w` strictly between `-w` and `w` is 0. */
  lemma SmallMultiple(w: int, k: int)
    requires 0 < w && -w < w * k < w
    ensures k == 0
  {
    if k >= 1 {
      MulMonotone(w, 1, k);
    }
  }

  /** Row and column are recovered from the index of a pixel. */
  lemma RowColumn(w: nat, ix: nat, iy: nat)
    requires ix < w
    ensures (w * iy + ix) / w == iy && (w * iy + ix) % w == ix
  {
    var m := w * iy + ix;
    var k := m / w - iy;
    assert w * (m / w) + m % w == m;
    assert w * k == w * (m / w) - w * iy;
    assert w * k == ix - m % w;
    SmallMultiple(w, k);
  }

  /** A pixel index below `w * h` lies in a column below `w` and a row below `h`. */
  lemma IndexInGrid(w: nat, h: nat, m: nat)
    requires m < w * h
    ensures 0 < w && m % w < w && m / w < h
    ensures w * (m / w) + m % w == m
  {
    if m / w >= h {
      MulMonotone(w, h, m / w);
    }
  }

  lemma IndexBelowArea(w: nat, h: nat, ix: nat, iy: nat)
    requires ix < w && iy < h
    ensures w * iy + ix < w * h
  {
    MulMonotone(w, iy, h - 1);
    assert w * (h - 1) == w * h - w;
  }

  // ---------------------------------------------------------------------------
  // Properties of the layout.

  /** All four entries of every pixel lie inside the buffer. */
  lemma PositionInBounds(width: nat, height: nat, ix: nat, iy: nat)
    requires ix < width && iy < height
    ensures Position(width, ix, iy) + 3 < 4 * (width * height)
  {
    IndexBelowArea(width, height, ix, iy);
  }

  /** Distinct pixels get distinct positions. */
  lemma PositionInjective(width: nat, ix: nat, iy: nat, jx: nat, jy: nat)
    requires ix < width && jx < width
    requires Position(width, ix, iy) == Position(width, jx, jy)
    ensures ix == jx && iy == jy
  {
    RowColumn(width, ix, iy);
    RowColumn(width, jx, jy);
  }

  /** Every entry of the buffer belongs to exactly one pixel and channel. */
  lemma PositionCovers(width: nat, height: nat, q: nat)
    requires q < 4 * (width * height)
    ensures (q / 4) % width < width && (q / 4) / width < height
    ensures Position(width, (q / 4) % width, (q / 4) / width) + q % 4 == q
  {
    assert q / 4 < width * height;
    IndexInGrid(width, height, q / 4);
  }

  // ---------------------------------------------------------------------------
  // The buffer a sequence of pixel colours produces.

  /** Entry `k` of a pixel: red, green, blue, then the alpha 255 of line 62. */
  function ChannelAt(c: Channels, k: nat): real
    requires k < 4
  {
    if k == 0 then c.red else if k == 1 then c.green else if k == 2 then c.blue else 255.0
  }

  /** The buffer holding the pixel colours `cs` in order, four entries each. */
  function Flatten(cs: seq<Channels>): (b: seq<real>)
    ensures |b| == 4 * |cs|
  {
    seq(4 * |cs|, q requires 0 <= q < 4 * |cs| => ChannelAt(cs[q / 4], q % 4))
  }

  lemma FlattenAt(cs: seq<Channels>, m: nat, k: nat)
    requires m < |cs| && k < 4
    ensures Flatten(cs)[4 * m + k] == ChannelAt(cs[m], k)
  {
    assert (4 * m + k) / 4 == m && (4 * m + k) % 4 == k;
  }

  /** The four buffer entries of pixel `(ix, iy)` of a `width` by `height` image. */
  lemma FlattenPixel(cs: seq<Channels>, width: nat, height: nat, ix: nat, iy: nat)
    requires |cs| == width * height && ix < width && iy < height
    ensures var pos, m := Position(width, ix, iy), width * iy + ix;
      var target := Flatten(cs);
      m < |cs| && pos == 4 * m && pos + 3 < |target| &&
      target[pos] == cs[m].red && target[pos + 1] == cs[m].green && target[pos + 2] == cs[m].blue &&
      target[pos + 3] == 255.0
  {
    var m := width * iy + ix;
    IndexBelowArea(width, height, ix, iy);
    FlattenAt(cs, m, 0);
    FlattenAt(cs, m, 1);
    FlattenAt(cs, m, 2);
    FlattenAt(cs, m, 3);
  }

  /** Every pixel of a flattened buffer is opaque. */
  lemma FlattenOpaque(cs: seq<Channels>, m: nat)
    requires m < |cs|
    ensures Flatten(cs)[4 * m + 3] == 255.0
  {
    FlattenAt(cs, m, 3);
  }

  /** A flattened buffer is read back pixel by pixel. */
  lemma FlattenInjective(cs: seq<Channels>, ds: seq<Channels>)
    requires Flatten(cs) == Flatten(ds)
    ensures cs == ds
  {
    assert |cs| == |ds|;
    forall m | 0 <= m < |cs|
      ensures cs[m] == ds[m]
    {
      FlattenAt(cs, m, 0);
      FlattenAt(cs, m, 1);
      FlattenAt(cs, m, 2);
      FlattenAt(ds, m, 0);
      FlattenAt(ds, m, 1);
      FlattenAt(ds, m, 2);
    }
  }

  /** Entry `q` has been written once the loops of `mandelbrot` reach column
      `ix`, row `iy`: its pixel is in an earlier column, or in column `ix`
      above row `iy`. The outer loop runs over columns, the inner over rows. */
  predicate Done(width: nat, ix: nat, iy: nat, q: nat) {
    0 < width && ((q / 4) % width < ix || ((q / 4) % width == ix && (q / 4) / width < iy))
  }

  /** One pass of the inner loop adds exactly the four entries of pixel `(ix, iy)`. */
  lemma DoneStep(width: nat, height: nat, ix: nat, iy: nat, q: nat)
    requires ix < width && iy < height && q < 4 * (width * height)
    ensures Done(width, ix, iy + 1, q) <==>
      Done(width, ix, iy, q) || Position(width, ix, iy) <= q < Position(width, ix, iy) + 4
  {
    var m := q / 4;
    IndexInGrid(width, height, m);
    RowColumn(width, ix, iy);
  }

  /** A finished column is the same as the start of the next one. */
  lemma DoneColumn(width: nat, height: nat, ix: nat, q: nat)
    requires q < 4 * (width * height)
    ensures Done(width, ix, height, q) <==> Done(width, ix + 1, 0, q)
  {
    IndexInGrid(width, height, q / 4);
  }

  /** After the last column every entry is written. */
  lemma DoneAll(width: nat, height: nat, q: nat)
    requires q < 4 * (width * height)
    ensures Done(width, width, 0, q)
  {
    IndexInGrid(width, height, q / 4);
  }

  /** Writing the four entries of pixel `(ix, iy)` as `target` has them, and
      nothing else, moves the written part one row down. */
  lemma PaintAdvances(before: seq<real>, after: seq<real>, target: seq<real>,
                      width: nat, height: nat, ix: nat, iy: nat)
    requires |before| == |target| && |after| == |target| && |target| == 4 * (width * height)
    requires ix < width && iy < height
    requires forall q :: 0 <= q < |target| && Done(width, ix, iy, q) ==> before[q] == target[q]
    requires forall q :: 0 <= q < |target| && !(Position(width, ix, iy) <= q < Position(width, ix, iy) + 4) ==>
      after[q] == before[q]
    requires var pos := Position(width, ix, iy);
      pos + 3 < |target| && after[pos] == target[pos] && after[pos + 1] == target[pos + 1] &&
      after[pos + 2] == target[pos + 2] && after[pos + 3] == target[pos + 3]
    ensures forall q :: 0 <= q < |target| && Done(width, ix, iy + 1, q) ==> after[q] == target[q]
  {
    forall q | 0 <= q < |target| && Done(width, ix, iy + 1, q)
      ensures after[q] == target[q]
    {
      DoneStep(width, height, ix, iy, q);
      var pos := Position(width, ix, iy);
      if pos <= q < pos + 4 {
        assert q == pos || q == pos + 1 || q == pos + 2 || q == pos + 3;
      }
    }
  }

  /** A buffer that agrees with `target` on a finished column agrees with it
      at the start of the next. */
  lemma ColumnAdvances(b: seq<real>, target: seq<real>, width: nat, height: nat, ix: nat)
    requires |b| == |target| && |target| == 4 * (width * height)
    requires forall q :: 0 <= q < |target| && Done(width, ix, height, q) ==> b[q] == target[q]
    ensures forall q :: 0 <= q < |target| && Done(width, ix + 1, 0, q) ==> b[q] == target[q]
  {
    forall q | 0 <= q < |target| && Done(width, ix + 1, 0, q)
      ensures b[q] == target[q]
    {
      DoneColumn(width, height, ix, q);
    }
  }

  /** Once every column is finished the buffer is `target`. */
  lemma AllColumns(b: seq<real>, target: seq<real>, width: nat, height: nat)
    requires |b| == |target| && |target| == 4 * (width * height)
    requires forall q :: 0 <= q < |target| && Done(width, width, 0, q) ==> b[q] == target[q]
    ensures b == target
  {
    forall q | 0 <= q < |target|
      ensures b[q] == target[q]
    {
      DoneAll(width, height, q);
    }
  }
}
