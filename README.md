# fractalchiki: a verified model of the escape-time renderer

fractalchiki draws the Mandelbrot set onto an HTML canvas. There are two
versions of the renderer.

- `script.js` is the interactive page. Its `mandelbrot` maps every pixel of
  the drawing space into a viewport that `calculateSquare` computes from a
  zoom and a centre given in percent. It runs `mandelbrotIteration` for the
  point, and colours the pixel from four user-chosen anchors (`center`,
  `far`, `middle`, `close`), which `hexToRgb` parses from `#rrggbb` inputs.
- `index.js` is a standalone page. It has the same `mandelbrotIteration`, a
  pixel loop with a built-in black, red, yellow and white palette, and a
  viewport computed inline from the window size with zoom 50, centred at
  17% and 52% of the plane, drawn with 2000 iterations.

The model is one Dafny module per concern:

| module | file | contents |
|---|---|---|
| `Escape` | escape.dfy | `mandelbrotIteration` as a loop over five reals, its loop states, the escape time as a function, and the facts about it |
| `Hex` | hex.dfy | `hexToRgb` as a function to `Option<Rgb>`, and a lower-case encoder used to state what it parses |
| `Color` | color.dfy | the palette, the three-band ramp, the band value `3 log i / log(iterations-1)` for an abstract logarithm, and the colour of one escape time |
| `Viewport` | viewport.dfy | `windowKoef`, `calculateSquare`, and the pixel-to-plane map |
| `Raster` | raster.dfy | the RGBA layout `4*(width*iy+ix)`, the buffer a list of pixel colours produces, and the bookkeeping of which entries the nested loops have written |
| `Script` | script.dfy | the pixel loop of script.js's `mandelbrot`, proved to fill the buffer with a specified image |
| `Index` | index.dfy | index.js: its pixel loop, proved to draw script.js's image for the classic palette, and its page-level viewport |

The pixel buffer is an `array<real>` that the loops update in place. Each
pixel-loop method is proved against `Script.Image`, a function giving the
colour of every pixel row by row. `Raster.Flatten` turns it into the buffer
contents. `Math.log` is a parameter `L` of every member that needs it. The
members only assume `IsLogLike(L)`: `L(1) = 0`, and `L` is strictly
increasing on the positive reals.

## Model

| member | source | states |
|---|---|---|
| Escape.MandelbrotIteration | script.js:3-20 | The loop returns `EscapeTime(cx, cy, maxIter)`. The body runs `r - 1 <= maxIter` times, because the post-decrement in the guard also counts the failing check. |
| Escape.StateTracksOrbit | script.js:11-17 | At every loop head `x, y` hold the k-th iterate of z -> z^2 + c. After the first body, `xx, yy, xy` hold the squares and product of the iterate one step behind. Before it they are 0. |
| Escape.BodyIsStep | script.js:12-16 | One body applies the quadratic map to `(x, y)` and keeps the squares and product of the point it started from. |
| Escape.EscapeTestLags | script.js:11 | The test `xx + yy <= 4` at check k is the radius-2 test on iterate k-1. The first check always passes. |
| Escape.EscapeTimeFirstFailure | script.js:3-20 | The result is in `[1, maxIter+1]`. Every check before check `r-1` passed. A result of at most `maxIter` means check `r-1` failed. |
| Escape.CountFromFirstFailure | script.js:11-19 | The same bounds and first-failure facts, from any check k onwards. |
| Escape.InteriorIff | index.js:1-18 | The identical function of index.js returns more than `maxIter` (the `i > iterations` test) exactly when no escape check within the budget failed. |
| Escape.EscapedAtLeastThree | script.js:6-16 | An escaped result is at least 3, because the first two checks see `xx = yy = 0`. So `Math.log(i)` is never taken of 0. |
| Escape.EscapeTimeUnique | script.js:11-19 | If checks 0..k-1 pass and check k < maxIter fails, the result is k+1. |
| Escape.OriginStaysAtZero | script.js:12-16 | With c = 0 all five loop variables stay 0. |
| Escape.OriginIsInterior | script.js:3-20 | For c = 0 the result is `maxIter + 1`. |
| Escape.CapMonotone | script.js:3-20 | A larger budget keeps an escaped result unchanged. It also keeps an interior point past the old budget. |
| Hex.HexToRgb | script.js:87-94 | The result is non-null iff the input is six hex digits, with or without a leading `#`. Its channels are then at most 255. |
| Hex.PairValue | script.js:90-92 | `parseInt(pair, 16)` of two hex digits is at most 255, with the digits' values as quotient and remainder by 16. |
| Hex.ParseEncoded | script.js:87-94 | Every triple in 0..255 comes back from its `#rrggbb` spelling, and from the six digits without the `#`. |
| Hex.ParsedDigits | script.js:88-93 | Re-encoding an accepted input gives `#` followed by the input's digits in lower case. Each channel is the base-16 value of its digit pair. |
| Hex.CaseInsensitive | script.js:88 | Lower-casing the input does not change the result (the `i` flag). |
| Color.RampKnots | script.js:47-58 | The ramp is black at band value 0, `far` at 1, `middle` at 2 and `close` at 3. |
| Color.PiecesMeet | script.js:47-58 | Adjacent band formulas agree where they meet: at 1 on `far`, at 2 on `middle`. |
| Color.BandLipschitz | script.js:47-58 | With byte anchors, one channel of the ramp moves by at most 255 per unit of band value. |
| Color.RampLipschitz | script.js:47-58 | The whole ramp is continuous, with the same bound for each of the three channels. |
| Color.BandInRange | script.js:47-58 | With anchors in 0..255 and a band value in [0, 3], a channel stays in 0..255. |
| Color.RampInRange | script.js:47-58 | For a byte palette and a band value in [0, 3], every channel of the ramp is in 0..255. |
| Color.LogBandRange | script.js:45 | For an escaped point the band value is positive. It is at most 3 exactly when `i <= iterations - 1`. |
| Color.ShadeCases | script.js:40-59 | An interior pixel gets `palitra.center`. An escaped pixel gets the ramp at a positive band value. |
| Color.ShadeInRange | script.js:40-59 | With anchors from `hexToRgb`, all channels are in 0..255 unless the point escaped at the last check. |
| Viewport.WindowKoefSpansShorterSide | script.js:126-127 | `windowKoef` is positive, and the shorter side times `windowKoef` is 2.1. |
| Viewport.SquareOrdered | script.js:200-219 | For a positive scale, `left < right` and `down < up`. |
| Viewport.SquareCentred | script.js:205-211 | The region is centred at `((cx-50)/50*2.1, (cy-50)/50*2.1)`. 50% maps to 0, 0% to -2.1 and 100% to 2.1. |
| Viewport.ShortSideHalfExtent | script.js:200-219 | Along the shorter side the region reaches `2.1/scale` on either side of its centre. |
| Viewport.SquareAspect | script.js:202-203 | Width over height of the region equals `spaceWidth / spaceHeight`. |
| Viewport.DoubleScaleHalves | script.js:202-211 | Doubling the scale halves both extents and keeps the centre. |
| Viewport.CoordinateEnds | script.js:35-36 | Column 0 maps to `xmin` and column `width-1` to `xmax`. Rows map the same way onto `ymin` and `ymax`. |
| Viewport.CoordinateIncreasing | script.js:35-36 | When `xmin < xmax`, later columns map to strictly larger coordinates. |
| Raster.PositionInBounds | script.js:38 | `4*(width*iy+ix) + 3 < 4*width*height` for every pixel of the canvas. |
| Raster.PositionInjective | script.js:38 | Distinct pixels get distinct buffer positions. |
| Raster.PositionCovers | script.js:33-38 | Every buffer entry `q` is channel `q % 4` of the canvas pixel `((q/4) % width, (q/4) / width)`. By `Raster.PositionInjective` it is the only such pixel. |
| Raster.FlattenAt | script.js:38-62 | Entry `4m + k` of the buffer is channel k of pixel m. |
| Raster.FlattenPixel | script.js:38-62 | A pixel's four entries hold its red, green and blue, and the alpha 255. |
| Raster.FlattenOpaque | script.js:62 | Every pixel of a produced buffer has alpha 255. |
| Raster.FlattenInjective | script.js:38-62 | The buffer determines the pixel colours. |
| Raster.DoneStep | script.js:33-34 | One pass of the inner loop adds exactly the four entries of the current pixel to what is written. |
| Raster.DoneColumn | script.js:33-34 | Finishing a column is the same as starting the next one. |
| Raster.DoneAll | script.js:33-34 | After the last column every entry is written. |
| Raster.PaintAdvances | script.js:34-63 | Writing the four entries of pixel `(ix, iy)` and nothing else extends the 'written and correct' region by that pixel. |
| Raster.ColumnAdvances | script.js:33-64 | Agreement on a finished column carries over to the start of the next column. |
| Raster.AllColumns | script.js:33-64 | Agreement on every written entry after the last column is equality of buffers. |
| Script.ImageAt | script.js:33-38 | Pixel `(ix, iy)` of the image is at index `width*iy + ix`. |
| Script.PixelShade | script.js:35-45 | A pixel's colour is the colour of its escape time. That time is at least 3 when the pixel escaped. |
| Script.PaintPixel | script.js:40-62 | Writes the pixel's three channels with the colour of escape time `i`, then alpha 255, and touches no other entry. |
| Script.DrawPoint | script.js:35-62 | One inner-loop pass writes the specified colour of pixel `(ix, iy)` with alpha 255, and nothing else. |
| Script.Mandelbrot | script.js:33-64 | After the nested loops the buffer is exactly the flattened image: every pixel has its specified colour and alpha 255. |
| Script.InteriorPixel | script.js:40-43 | A pixel whose point passes every check takes `palitra.center`. |
| Script.OriginPixel | script.js:40-43 | The pixel drawn at the origin of the plane takes `palitra.center`. |
| Script.PixelInRange | script.js:40-59 | With a byte palette every channel is in 0..255, except for a point caught by the last check. |
| Script.ImageOpaque | script.js:62 | Every pixel of the finished buffer has alpha 255. |
| Index.FixedRampIsClassic | index.js:41-53 | index.js's three bands are script.js's ramp for far (255,0,0), middle (255,255,0) and close (255,255,255). |
| Index.FixedRampContinuous | index.js:41-53 | The bands meet at red, yellow and white. Each channel moves by at most 255 per unit of band value. |
| Index.FixedRampInRange | index.js:41-53 | For band values in [0, 3] each channel written is in 0..255. |
| Index.FixedShadeIsClassic | index.js:34-53 | index.js colours every escape time as script.js does with the classic palette. Interior pixels are black. |
| Index.LastTestOverflows | index.js:39-53 | A point caught by the last check gets a band value above 3 and a blue channel above 255. |
| Index.PaintPixel | index.js:34-56 | Writes the fixed-palette colour of escape time `i` and alpha 255 at the pixel, and nothing else. |
| Index.DrawPoint | index.js:29-56 | One inner-loop pass writes the colour script.js gives the pixel with the classic palette. |
| Index.Mandelbrot | index.js:27-58 | The buffer ends up as the image script.js draws with the classic palette over the same viewport. |
| Index.InteriorPixelBlack | index.js:34-37 | A pixel whose point never escapes is black. |
| Index.PixelInRange | index.js:34-53 | Every channel is in 0..255 except for a point caught by the last check. |
| Index.PageWindowKoef | index.js:73-79 | `windowKoef` is `2.1 / min(innerWidth, innerHeight)`, the same as script.js's. |
| Index.PageViewport | index.js:73-90 | The inline viewport equals `calculateSquare(17, 52, 50)` over the window. It is non-empty and centred at the two percentages. |
| Index.Page | index.js:63-92 | The page draws the classic image of that viewport on a window-sized canvas with 2000 iterations, with `down` as `ymin` and `up` as `ymax`. |

## Left out

- DOM and browser I/O are not modelled. This covers `getColors`, `setPalitra`, `fillInputs`, `fillOlds`, `getCanvas`, `createCanvas`, `getControlPanel`, the element reads of `getGlobal`, `getContext`, `getImageData`, `putImageData`, the event listeners, and the asynchronous `start`/`updateCanvas`. The canvas size, drawing-space size, palette and viewport become parameters. The buffer is an array.
- The page styling after the pixel loop (script.js:68-78) is not modelled. It only sets CSS colours.
- `fetch` of the palette file, the theme buttons, `downloadCanvas` with `toDataURL` and the `Math.round` file name, and `window.open` (index.js:93) are not modelled. They are network and file output.
- `Math.log` is not modelled. It is the parameter `L`, and only `L(1) = 0` and strict monotonicity are assumed.
- JavaScript doubles are exact reals. No rounding is modelled.
- The canvas's `Uint8ClampedArray` storage is not modelled. The buffer records the values the code assigns. The rounding and clamping to 0..255 on store are foreign library behaviour; `Index.LastTestOverflows` shows where they matter.
- Iteration counts, sizes and percentages are numbers. The coercion of DOM string values is not modelled.
- Escape.MandelbrotIteration takes `maxIter` as a natural number, so non-integer and negative budgets are not modelled. With a negative or fractional `maxIter` the counter passes 0 without stopping. The guard `i--` then stays truthy, and a point that never escapes loops forever. A point that escapes at check k returns `maxIter - (maxIter - k - 1) = k + 1`, which exceeds a negative `iterations`, so the renderer paints it with the interior colour.
- Viewport.WindowKoef, Viewport.CalculateSquare and Index.PageViewport require a drawing space with positive width and height, and `CalculateSquare` requires a nonzero scale. With a zero-sized side, `2.1 / 0` makes `windowKoef` Infinity, and the zero side times it is NaN. A zero scale divides `moveX` and `moveY` by zero, giving Infinity or NaN. The viewport is then infinite or NaN, which reals cannot express.
- The palette is a value with four triples. `hexToRgb` may return `null` for a malformed input; `getColors` would then pass `null` into the loop. That case is not modelled.
- The `panel` and `symbols` colours are left out, because only the styling uses them.
- Script.Mandelbrot and Index.Mandelbrot require every grid of at least one pixel to have at least two columns and two rows. With a single column or row, the source divides 0 by 0 and maps the pixel to NaN; NaN is not modelled.
- `mandelbrotIteration` occurs twice in the source, identically (script.js:3-20, index.js:1-18). It is modelled once, as `Escape.MandelbrotIteration`.
