/** The escape-time evaluator `mandelbrotIteration`, which script.js and index.js
    contain in identical form.

    The loop keeps the real and imaginary parts `x`, `y` of the iterate together
    with `xx = x*x`, `yy = y*y` and `xy = x*y`. The body recomputes the squares from
    the CURRENT `x`, `y` and only then moves `x`, `y` on, so the escape test at a
    loop head sees the squares of the iterate from before the latest update.
    JavaScript doubles are modelled by exact reals: the loop uses only `+`, `-`, `*`
    and `<=`. */
module Escape {

  /** A point of the complex plane. */
  datatype Complex = Complex(re: real, im: real)

  /** Squared modulus. */
  function Mag2(z: Complex): real {
    z.re * z.re + z.im * z.im
  }

  /** One step of the quadratic map z -> z*z + c. */
  function Step(z: Complex, cx: real, cy: real): Complex {
    Complex(z.re * z.re - z.im * z.im + cx, 2.0 * z.re * z.im + cy)
  }

  /** The n-th iterate of the quadratic map starting at z = 0 (the mathematical orbit). */
  function Orbit(cx: real, cy: real, n: nat): Complex {
    if n == 0 then Complex(0.0, 0.0) else Step(Orbit(cx, cy, n - 1), cx, cy)
  }

  /** The squares and the product of the parts of a point. */
  datatype Products = Products(xx: real, yy: real, xy: real)

  function ProductsOf(z: Complex): Products {
    Products(z.re * z.re, z.im * z.im, z.re * z.im)
  }

  /** The five loop variables of `mandelbrotIteration` at a loop head. */
  datatype LoopState = LoopState(x: real, y: real, xx: real, yy: real, xy: real)

  /** All five variables start at zero. */
  const Start := LoopState(0.0, 0.0, 0.0, 0.0, 0.0)

  /** One execution of the loop body, statement by statement. */
  function Body(s: LoopState, cx: real, cy: real): LoopState {
    var xy := s.x * s.y;
    var xx := s.x * s.x;
    var yy := s.y * s.y;
    var x := xx - yy + cx;
    var y := xy + xy + cy;
    LoopState(x, y, xx, yy, xy)
  }

  /** The loop variables after `k` executions of the body. */
  function StateAfter(cx: real, cy: real, k: nat): LoopState {
    if k == 0 then Start else Body(StateAfter(cx, cy, k - 1), cx, cy)
  }

  /** The escape half of the loop guard, `xx + yy <= 4`. */
  predicate Bounded(s: LoopState) {
    s.xx + s.yy <= 4.0
  }

  /** What `maxIter - i` is when the loop has already passed guard checks 0 .. k-1:
      check k either finds the counter exhausted (the counter goes to -1, result
      maxIter + 1) or fails the escape test (result k + 1) or passes. */
  function CountFrom(cx: real, cy: real, maxIter: nat, k: nat): nat
    requires k <= maxIter
    decreases maxIter - k
  {
    if k == maxIter then maxIter + 1
    else if !Bounded(StateAfter(cx, cy, k)) then k + 1
    else CountFrom(cx, cy, maxIter, k + 1)
  }

  /** The value `mandelbrotIteration(cx, cy, maxIter)` returns. */
  function EscapeTime(cx: real, cy: real, maxIter: nat): nat {
    CountFrom(cx, cy, maxIter, 0)
  }

  /** `mandelbrotIteration`. The JavaScript guard `i-- && xx + yy <= 4` decrements
      the counter on every check, the failing one included; here the decrement of a
      passing check is the first statement of the body and the decrement of the
      failing check follows the loop. `bodies` counts executions of the body. */
  method MandelbrotIteration(cx: real, cy: real, maxIter: nat) returns (r: nat, ghost bodies: nat)
    ensures r == EscapeTime(cx, cy, maxIter)
    ensures bodies == r - 1 && bodies <= maxIter
  {
    var x, y := 0.0, 0.0;
    var xx, yy, xy := 0.0, 0.0, 0.0;
    var i: int := maxIter;
    bodies := 0;
    while i != 0 && xx + yy <= 4.0
      invariant 0 <= i <= maxIter && bodies == maxIter - i
      invariant LoopState(x, y, xx, yy, xy) == StateAfter(cx, cy, bodies)
      invariant EscapeTime(cx, cy, maxIter) == CountFrom(cx, cy, maxIter, bodies)
      decreases i
    {
      BodyUnfolds(x, y, cx, cy, LoopState(x, y, xx, yy, xy));
      i := i - 1;
      xy := x * y;
      xx := x * x;
      yy := y * y;
      x := xx - yy + cx;
      y := xy + xy + cy;
      bodies := bodies + 1;
    }
    i := i - 1;
    r := maxIter - i;
  }

  /** Body spelled out on the variables it reads: the squares and the product are
      taken of the current `x`, `y`. */
  lemma BodyUnfolds(x: real, y: real, cx: real, cy: real, s: LoopState)
    requires s.x == x && s.y == y
    ensures Body(s, cx, cy) == LoopState(x * x - y * y + cx, x * y + x * y + cy, x * x, y * y, x * y)
  {
  }

  /** The point a loop state holds, and the products it holds. */
  function Iterate(s: LoopState): Complex {
    Complex(s.x, s.y)
  }

  function Lagged(s: LoopState): Products {
    Products(s.xx, s.yy, s.xy)
  }

  /** One body applies the quadratic map to the point and keeps the products of
      the point it started from. */
  lemma BodyIsStep(s: LoopState, cx: real, cy: real)
    ensures Iterate(Body(s, cx, cy)) == Step(Iterate(s), cx, cy)
    ensures Lagged(Body(s, cx, cy)) == ProductsOf(Iterate(s))
  {
    BodyUnfolds(s.x, s.y, cx, cy, s);
    assert 2.0 * s.x * s.y == s.x * s.y + s.x * s.y;
  }

  /** The loop computes the orbit, with a lag in the products: `x`, `y` at a loop
      head are the k-th iterate, while after the first body `xx`, `yy`, `xy` are the
      squares and the product of the (k-1)-th one; before it they are 0. */
  lemma {:induction false} StateTracksOrbit(cx: real, cy: real, k: nat)
    ensures Iterate(StateAfter(cx, cy, k)) == Orbit(cx, cy, k)
    ensures k == 0 ==> Lagged(StateAfter(cx, cy, k)) == Products(0.0, 0.0, 0.0)
    ensures k > 0 ==> Lagged(StateAfter(cx, cy, k)) == ProductsOf(Orbit(cx, cy, k - 1))
  {
    if k > 0 {
      StateTracksOrbit(cx, cy, k - 1);
      BodyIsStep(StateAfter(cx, cy, k - 1), cx, cy);
    }
  }

  /** The squared modulus is the sum of the two squares. */
  lemma Mag2OfProducts(z: Complex, p: Products)
    requires p == ProductsOf(z)
    ensures Mag2(z) == p.xx + p.yy
  {
  }

  /** The escape test at check k is the radius-2 test on the iterate one step
      behind; the first check always passes. */
  lemma EscapeTestLags(cx: real, cy: real, k: nat)
    ensures Bounded(StateAfter(cx, cy, k)) <==> (k == 0 || Mag2(Orbit(cx, cy, k - 1)) <= 4.0)
  {
    StateTracksOrbit(cx, cy, k);
    if k > 0 {
      Mag2OfProducts(Orbit(cx, cy, k - 1), Lagged(StateAfter(cx, cy, k)));
    }
  }

  /** CountFrom is the first index at or after k whose escape test fails, plus one,
      or maxIter + 1 when there is none. */
  lemma {:induction false} CountFromFirstFailure(cx: real, cy: real, maxIter: nat, k: nat)
    requires k <= maxIter
    ensures k + 1 <= CountFrom(cx, cy, maxIter, k) <= maxIter + 1
    ensures forall j :: k <= j < CountFrom(cx, cy, maxIter, k) - 1 ==> Bounded(StateAfter(cx, cy, j))
    ensures CountFrom(cx, cy, maxIter, k) <= maxIter ==>
              !Bounded(StateAfter(cx, cy, CountFrom(cx, cy, maxIter, k) - 1))
    decreases maxIter - k
  {
    if k < maxIter && Bounded(StateAfter(cx, cy, k)) {
      CountFromFirstFailure(cx, cy, maxIter, k + 1);
    }
  }

  /** The result lies in [1, maxIter + 1]. Every check before the returned one
      passed, and a result of at most maxIter means the check at index r - 1 failed.
      These three facts determine the result. */
  lemma EscapeTimeFirstFailure(cx: real, cy: real, maxIter: nat)
    ensures 1 <= EscapeTime(cx, cy, maxIter) <= maxIter + 1
    ensures forall j :: 0 <= j < EscapeTime(cx, cy, maxIter) - 1 ==> Bounded(StateAfter(cx, cy, j))
    ensures EscapeTime(cx, cy, maxIter) <= maxIter ==>
              !Bounded(StateAfter(cx, cy, EscapeTime(cx, cy, maxIter) - 1))
  {
    CountFromFirstFailure(cx, cy, maxIter, 0);
  }

  /** The interior marker: the result is maxIter + 1, the value the renderers test
      with `i > iterations`, exactly when no escape test within the budget failed. */
  lemma InteriorIff(cx: real, cy: real, maxIter: nat)
    ensures EscapeTime(cx, cy, maxIter) > maxIter <==>
              forall j :: 0 <= j < maxIter ==> Bounded(StateAfter(cx, cy, j))
  {
    EscapeTimeFirstFailure(cx, cy, maxIter);
  }

  /** The first two checks see xx = yy = 0, so an escaped point returns at least 3.
      Hence an escaped result needs maxIter >= 3, and `Math.log(i)` is never taken
      of 0, 1 or 2. */
  lemma EscapedAtLeastThree(cx: real, cy: real, maxIter: nat)
    ensures EscapeTime(cx, cy, maxIter) <= maxIter ==> 3 <= EscapeTime(cx, cy, maxIter)
  {
    EscapeTimeFirstFailure(cx, cy, maxIter);
    assert StateAfter(cx, cy, 1) == Body(Start, cx, cy);
  }

  /** Conversely, a point whose checks 0 .. k-1 pass and whose check k (within
      the budget) fails has result k + 1. */
  lemma EscapeTimeUnique(cx: real, cy: real, maxIter: nat, k: nat)
    requires k < maxIter
    requires forall j :: 0 <= j < k ==> Bounded(StateAfter(cx, cy, j))
    requires !Bounded(StateAfter(cx, cy, k))
    ensures EscapeTime(cx, cy, maxIter) == k + 1
  {
    EscapeTimeFirstFailure(cx, cy, maxIter);
  }

  /** At the origin the loop variables never leave zero. */
  lemma {:induction false} OriginStaysAtZero(k: nat)
    ensures StateAfter(0.0, 0.0, k) == Start
  {
    if k > 0 {
      OriginStaysAtZero(k - 1);
      var s := StateAfter(0.0, 0.0, k - 1);
      assert StateAfter(0.0, 0.0, k) == Body(s, 0.0, 0.0);
      BodyUnfolds(0.0, 0.0, 0.0, 0.0, s);
    }
  }

  /** The origin is always an interior pixel. */
  lemma OriginIsInterior(maxIter: nat)
    ensures EscapeTime(0.0, 0.0, maxIter) == maxIter + 1
  {
    forall j | 0 <= j < maxIter
      ensures Bounded(StateAfter(0.0, 0.0, j))
    {
      OriginStaysAtZero(j);
    }
    InteriorIff(0.0, 0.0, maxIter);
    EscapeTimeFirstFailure(0.0, 0.0, maxIter);
  }

  /** Raising the budget does not change an escaped result, and an interior point
      under the old budget gets a result beyond the old budget. */
  lemma CapMonotone(cx: real, cy: real, maxIter: nat, larger: nat)
    requires maxIter <= larger
    ensures EscapeTime(cx, cy, maxIter) <= maxIter ==>
              EscapeTime(cx, cy, larger) == EscapeTime(cx, cy, maxIter)
    ensures EscapeTime(cx, cy, maxIter) > maxIter ==> EscapeTime(cx, cy, larger) > maxIter
  {
    EscapeTimeFirstFailure(cx, cy, maxIter);
    EscapeTimeFirstFailure(cx, cy, larger);
  }
}
