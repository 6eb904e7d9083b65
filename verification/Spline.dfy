/** Monotone cubic interpolation: the tangents and Bezier control points of a line chart.

    Tangents start as averages of the neighbouring slopes.  A single forward pass then limits
    them interval by interval, each step rewriting a tangent shared with the previous interval. */
module Spline {
  import opened Wrappers

  datatype Control = Control(x: real, y: real)

  /** The `_model` of a point: what is given, and the control points to be computed. */
  datatype Point = Point(x: real, y: real, skip: bool, previous: Option<Control>, next: Option<Control>)

  const EPSILON: real := 1.0 / 4503599627370496.0

  /** `Math.sqrt` on the numbers it is used on. */
  ghost predicate IsSqrt(sqrt: real -> real) {
    forall x: real :: x >= 0.0 ==> sqrt(x) >= 0.0 && sqrt(x) * sqrt(x) == x
  }

  function Sign(x: real): int {
    if x > 0.0 then 1 else if x == 0.0 then 0 else -1
  }

  function Abs(x: real): real {
    if x < 0.0 then -x else x
  }

  // ----- Slopes and first tangents

  /** Both ends of the interval from `i` to `i + 1` are drawn. */
  predicate Drawn(points: seq<Point>, i: int) {
    0 <= i && i + 1 < |points| && !points[i].skip && !points[i + 1].skip
  }

  function Slope(points: seq<Point>, i: int): real {
    if !Drawn(points, i) then 0.0
    else
      var dx := points[i + 1].x - points[i].x;
      if dx != 0.0 then (points[i + 1].y - points[i].y) / dx else 0.0
  }

  function FirstTangent(points: seq<Point>, i: nat): real
    requires i < |points|
  {
    if points[i].skip then 0.0
    else if !Drawn(points, i - 1) then Slope(points, i)
    else if !Drawn(points, i) then Slope(points, i - 1)
    else if Sign(Slope(points, i - 1)) != Sign(Slope(points, i)) then 0.0
    else (Slope(points, i - 1) + Slope(points, i)) / 2.0
  }

  /** `d` is the slope from point `i` to the next: none across a gap or straight up. */
  ghost predicate IsSlope(points: seq<Point>, i: nat, d: real)
    requires i < |points|
  {
    if i + 1 == |points| || points[i].skip || points[i + 1].skip || points[i].x == points[i + 1].x then d == 0.0
    else d * (points[i + 1].x - points[i].x) == points[i + 1].y - points[i].y
  }

  /** `m` is the first tangent at point `i`, given the slopes before and behind it: their mean if both
      go the same way, and level if not; next to a gap or an end, the slope on the other side. */
  ghost predicate IsFirstTangent(points: seq<Point>, i: nat, before: real, behind: real, m: real)
    requires i < |points|
  {
    if points[i].skip then m == 0.0
    else if i == 0 || points[i - 1].skip then m == behind
    else if i + 1 == |points| || points[i + 1].skip then m == before
    else if (before > 0.0 && behind > 0.0) || (before < 0.0 && behind < 0.0) then 2.0 * m == before + behind
    else m == 0.0
  }

  lemma SlopeIs(points: seq<Point>, i: nat)
    requires i < |points|
    ensures IsSlope(points, i, Slope(points, i))
  {
  }

  lemma FirstTangentIs(points: seq<Point>, i: nat)
    requires i < |points|
    ensures IsFirstTangent(points, i, Slope(points, i - 1), Slope(points, i), FirstTangent(points, i))
  {
  }

  ghost predicate AreFirstTangents(points: seq<Point>, deltaK: seq<real>, mK: seq<real>) {
    && |deltaK| == |mK| == |points|
    && (forall i | 0 <= i < |points| :: IsSlope(points, i, deltaK[i]))
    && (forall i {:trigger mK[i]} | 0 <= i < |points| ::
          IsFirstTangent(points, i, if i == 0 then 0.0 else deltaK[i - 1], deltaK[i], mK[i]))
  }

  lemma SlopesAndTangents(points: seq<Point>, deltaK: seq<real>, mK: seq<real>)
    requires |deltaK| == |mK| == |points|
    requires forall i | 0 <= i < |points| :: deltaK[i] == Slope(points, i) && mK[i] == FirstTangent(points, i)
    ensures AreFirstTangents(points, deltaK, mK)
  {
    forall i {:trigger mK[i]} | 0 <= i < |points|
      ensures IsSlope(points, i, deltaK[i])
      ensures IsFirstTangent(points, i, if i == 0 then 0.0 else deltaK[i - 1], deltaK[i], mK[i])
    {
      SlopeIs(points, i);
      FirstTangentIs(points, i);
    }
  }

  method InitTangents(points: seq<Point>, deltaK: array<real>, mK: array<real>)
    requires deltaK.Length == mK.Length == |points| && deltaK != mK
    modifies deltaK, mK
    ensures AreFirstTangents(points, deltaK[..], mK[..])
    ensures forall i | 0 <= i < |points| :: deltaK[i] == Slope(points, i) && mK[i] == FirstTangent(points, i)
  {
    for i := 0 to |points|
      invariant forall j | 0 <= j < i :: deltaK[j] == Slope(points, j) && mK[j] == FirstTangent(points, j)
    {
      deltaK[i], mK[i] := 0.0, 0.0;
      var current := points[i];
      if !current.skip {
        var before := i > 0 && !points[i - 1].skip;
        var after := i < |points| - 1 && !points[i + 1].skip;
        if after {
          var slopeDeltaX := points[i + 1].x - current.x;
          deltaK[i] := if slopeDeltaX != 0.0 then (points[i + 1].y - current.y) / slopeDeltaX else 0.0;
        }
        if !before {
          mK[i] := deltaK[i];
        } else if !after {
          mK[i] := deltaK[i - 1];
        } else if Sign(deltaK[i - 1]) != Sign(deltaK[i]) {
          mK[i] := 0.0;
        } else {
          mK[i] := (deltaK[i - 1] + deltaK[i]) / 2.0;
        }
      }
    }
    SlopesAndTangents(points, deltaK[..], mK[..]);
  }

  // ----- The forward pass

  /** alpha^2 + beta^2 for the tangents `m0` and `m1` relative to the slope. */
  function SquaredMagnitude(delta: real, m0: real, m1: real): real
    requires delta != 0.0
  {
    (m0 / delta) * (m0 / delta) + (m1 / delta) * (m1 / delta)
  }

  /** The tangent `m` brought onto the circle of radius 3. */
  function Rescaled(delta: real, m: real, root: real): real
    requires delta != 0.0 && root != 0.0
  {
    (m / delta) * (3.0 / root) * delta
  }

  lemma RootIsPositive(x: real, sqrt: real -> real)
    requires IsSqrt(sqrt) && x > 0.0
    ensures sqrt(x) > 0.0 && sqrt(x) * sqrt(x) == x
  {
    assert sqrt(x) * sqrt(x) == x;
  }

  /** The tangents at both ends of one interval after its adjustment. */
  ghost function Adjust(delta: real, m0: real, m1: real, sqrt: real -> real): (real, real)
    requires IsSqrt(sqrt)
  {
    if Abs(delta - 0.0) < EPSILON then (0.0, 0.0)
    else if SquaredMagnitude(delta, m0, m1) <= 9.0 then (m0, m1)
    else
      RootIsPositive(SquaredMagnitude(delta, m0, m1), sqrt);
      var root := sqrt(SquaredMagnitude(delta, m0, m1));
      (Rescaled(delta, m0, root), Rescaled(delta, m1, root))
  }

  /** The tangents after the intervals before `n` have been adjusted, in order. */
  ghost function Pass(points: seq<Point>, m: seq<real>, n: nat, sqrt: real -> real): (r: seq<real>)
    requires |m| == |points| && n <= |points| && IsSqrt(sqrt)
    ensures |r| == |m|
  {
    if n == 0 then m
    else
      var r := Pass(points, m, n - 1, sqrt);
      if !Drawn(points, n - 1) then r
      else
        var (m0, m1) := Adjust(Slope(points, n - 1), r[n - 1], r[n], sqrt);
        r[n - 1 := m0][n := m1]
  }

  method AdjustTangents(points: seq<Point>, deltaK: array<real>, mK: array<real>, sqrt: real -> real)
    requires deltaK.Length == mK.Length == |points| && deltaK != mK && IsSqrt(sqrt)
    requires forall i | 0 <= i < |points| :: deltaK[i] == Slope(points, i)
    modifies mK
    ensures mK[..] == Pass(points, old(mK[..]), |points|, sqrt)
  {
    var i := 0;
    while i < |points| - 1
      invariant 0 <= i && (i < |points| || i == |points| == 0)
      invariant mK[..] == Pass(points, old(mK[..]), i, sqrt)
    {
      if Drawn(points, i) {
        mK[i], mK[i + 1] := AdjustInterval(deltaK[i], mK[i], mK[i + 1], sqrt);
      }
      i := i + 1;
    }
  }

  /** One step of the pass, on the slope of the interval and the tangents at its ends. */
  method AdjustInterval(deltaK: real, mK: real, mKAfter: real, sqrt: real -> real) returns (m0: real, m1: real)
    requires IsSqrt(sqrt)
    ensures (m0, m1) == Adjust(deltaK, mK, mKAfter, sqrt)
  {
    if Abs(deltaK - 0.0) < EPSILON { return 0.0, 0.0; }
    var alphaK := mK / deltaK;
    var betaK := mKAfter / deltaK;
    var squaredMagnitude := alphaK * alphaK + betaK * betaK;
    assert squaredMagnitude == SquaredMagnitude(deltaK, mK, mKAfter);
    if squaredMagnitude <= 9.0 { return mK, mKAfter; }
    RootIsPositive(squaredMagnitude, sqrt);
    var tauK := 3.0 / sqrt(squaredMagnitude);
    m0 := alphaK * tauK * deltaK;
    m1 := betaK * tauK * deltaK;
    assert m0 == Rescaled(deltaK, mK, sqrt(squaredMagnitude));
    assert m1 == Rescaled(deltaK, mKAfter, sqrt(squaredMagnitude));
  }

  // ----- What the pass guarantees

  /** `m` is `c` times `k` for some factor between 0 and 1. */
  predicate ShrinksTo(k: real, m: real) {
    (k >= 0.0 ==> 0.0 <= m <= k) && (k <= 0.0 ==> k <= m <= 0.0)
  }

  predicate SameSign(delta: real, m: real) {
    (delta > 0.0 ==> m >= 0.0) && (delta < 0.0 ==> m <= 0.0) && (delta == 0.0 ==> m == 0.0)
  }

  /** The condition for a monotone cubic: both tangents point the way of the slope and, relative
      to it, lie in the circle of radius 3; where the slope is negligible both are zero. */
  predicate Limited(delta: real, m0: real, m1: real) {
    if Abs(delta) < EPSILON then m0 == 0.0 && m1 == 0.0
    else SameSign(delta, m0) && SameSign(delta, m1) && m0 * m0 + m1 * m1 <= 9.0 * delta * delta
  }

  lemma RatioSquares(delta: real, m0: real, m1: real)
    requires delta != 0.0
    ensures SquaredMagnitude(delta, m0, m1) * (delta * delta) == m0 * m0 + m1 * m1
  {
    var alpha, beta := m0 / delta, m1 / delta;
    assert alpha * delta == m0 && beta * delta == m1;
    calc {
      (alpha * alpha + beta * beta) * (delta * delta);
      (alpha * delta) * (alpha * delta) + (beta * delta) * (beta * delta);
    }
  }

  lemma SquareOrder(a: real, b: real)
    requires 0.0 <= a <= b
    ensures a * a <= b * b
  {
    assert a * a <= a * b <= b * b;
  }

  /** Scaling to radius 3. */
  lemma CircleScales(delta: real, m0: real, m1: real, root: real, tau: real)
    requires (root * root) * (delta * delta) == m0 * m0 + m1 * m1 && tau * root == 3.0
    ensures (tau * m0) * (tau * m0) + (tau * m1) * (tau * m1) == 9.0 * delta * delta
  {
    var p, d2 := tau * root, delta * delta;
    assert p * p == 9.0;
    calc {
      (tau * m0) * (tau * m0) + (tau * m1) * (tau * m1);
      (tau * tau) * (m0 * m0 + m1 * m1);
      (tau * tau) * ((root * root) * d2);
      (p * p) * d2;
    }
  }

  lemma RescaledShrinks(delta: real, m: real, root: real)
    requires delta != 0.0 && root > 3.0
    ensures Rescaled(delta, m, root) == (3.0 / root) * m && ShrinksTo(m, Rescaled(delta, m, root))
    ensures SameSign(delta, m) ==> SameSign(delta, Rescaled(delta, m, root))
  {
    var tau := 3.0 / root;
    assert 0.0 < tau < 1.0;
    assert (m / delta) * delta == m;
    assert (m / delta) * tau * delta == tau * ((m / delta) * delta);
    TauShrinks(m, tau);
  }

  lemma TauShrinks(m: real, tau: real)
    requires 0.0 < tau < 1.0
    ensures ShrinksTo(m, tau * m)
  {
    var rest := 1.0 - tau;
    assert tau * m + rest * m == m;
    if m >= 0.0 {
      assert rest * m >= 0.0 && tau * m >= 0.0;
    } else {
      assert rest * m <= 0.0 && tau * m <= 0.0;
    }
  }

  lemma RadiusLimits(delta: real, m0: real, m1: real, root: real)
    requires delta != 0.0 && root > 0.0 && root * root == SquaredMagnitude(delta, m0, m1) > 9.0
    ensures var n0, n1 := Rescaled(delta, m0, root), Rescaled(delta, m1, root);
      && n0 * n0 + n1 * n1 == 9.0 * delta * delta
      && ShrinksTo(m0, n0) && ShrinksTo(m1, n1)
      && (SameSign(delta, m0) ==> SameSign(delta, n0)) && (SameSign(delta, m1) ==> SameSign(delta, n1))
  {
    if root <= 3.0 { SquareOrder(root, 3.0); }
    RatioSquares(delta, m0, m1);
    RescaledShrinks(delta, m0, root);
    RescaledShrinks(delta, m1, root);
    CircleScales(delta, m0, m1, root, 3.0 / root);
  }

  lemma RatioLimits(delta: real, m0: real, m1: real)
    requires delta != 0.0 && SquaredMagnitude(delta, m0, m1) <= 9.0
    ensures m0 * m0 + m1 * m1 <= 9.0 * delta * delta
  {
    RatioSquares(delta, m0, m1);
    var sm, d2 := SquaredMagnitude(delta, m0, m1), delta * delta;
    assert d2 >= 0.0;
    assert sm * d2 <= 9.0 * d2;
  }

  /** One adjustment limits its interval, and only shrinks the two tangents. */
  lemma AdjustLimits(delta: real, m0: real, m1: real, sqrt: real -> real)
    requires IsSqrt(sqrt) && SameSign(delta, m0) && SameSign(delta, m1)
    ensures var (n0, n1) := Adjust(delta, m0, m1, sqrt);
      Limited(delta, n0, n1) && ShrinksTo(m0, n0) && ShrinksTo(m1, n1)
  {
    if Abs(delta) >= EPSILON {
      var sm := SquaredMagnitude(delta, m0, m1);
      if sm <= 9.0 {
        RatioLimits(delta, m0, m1);
      } else {
        RootIsPositive(sm, sqrt);
        RadiusLimits(delta, m0, m1, sqrt(sm));
      }
    }
  }

  lemma ShrinkSquare(k: real, m: real)
    requires ShrinksTo(k, m)
    ensures m * m <= k * k
  {
    if k >= 0.0 { SquareOrder(m, k); } else { SquareOrder(-m, -k); }
  }

  /** A limited interval stays limited when its tangents shrink further. */
  lemma LimitedShrinks(delta: real, k0: real, k1: real, m0: real, m1: real)
    requires Limited(delta, k0, k1) && ShrinksTo(k0, m0) && ShrinksTo(k1, m1)
    ensures Limited(delta, m0, m1)
  {
    ShrinkSquare(k0, m0);
    ShrinkSquare(k1, m1);
  }

  ghost function FirstTangents(points: seq<Point>): (m: seq<real>)
    ensures |m| == |points|
  {
    seq(|points|, i requires 0 <= i < |points| => FirstTangent(points, i))
  }

  /** The tangent at `i` points the way of the slopes on both of its sides. */
  ghost predicate Agrees(points: seq<Point>, m: real, i: int) {
    (Drawn(points, i - 1) ==> SameSign(Slope(points, i - 1), m)) && (Drawn(points, i) ==> SameSign(Slope(points, i), m))
  }

  lemma FirstTangentAgrees(points: seq<Point>, i: nat)
    requires i < |points|
    ensures Agrees(points, FirstTangent(points, i), i)
  {
  }

  /** The tangents of a limited curve after the first `n` adjustments. */
  ghost predicate LimitedUpTo(points: seq<Point>, m: seq<real>, n: nat)
    requires |m| == |points|
  {
    && (forall i | 0 <= i < |points| :: Agrees(points, m[i], i))
    && (forall i | 0 <= i < n && Drawn(points, i) :: Limited(Slope(points, i), m[i], m[i + 1]))
  }

  lemma SameSignShrinks(delta: real, k: real, m: real)
    requires SameSign(delta, k) && ShrinksTo(k, m)
    ensures SameSign(delta, m)
  {
  }

  lemma AgreesShrinks(points: seq<Point>, k: real, m: real, i: int)
    requires Agrees(points, k, i) && ShrinksTo(k, m)
    ensures Agrees(points, m, i)
  {
    if Drawn(points, i - 1) { SameSignShrinks(Slope(points, i - 1), k, m); }
    if Drawn(points, i) { SameSignShrinks(Slope(points, i), k, m); }
  }

  /** Adjusting interval `n` keeps the earlier intervals limited, although it rewrites the
      tangent that it shares with interval `n - 1`. */
  lemma StepLimits(points: seq<Point>, m: seq<real>, n: nat, sqrt: real -> real)
    requires |m| == |points| && IsSqrt(sqrt) && LimitedUpTo(points, m, n) && Drawn(points, n)
    ensures var (m0, m1) := Adjust(Slope(points, n), m[n], m[n + 1], sqrt);
      LimitedUpTo(points, m[n := m0][n + 1 := m1], n + 1)
  {
    var delta := Slope(points, n);
    var (m0, m1) := Adjust(delta, m[n], m[n + 1], sqrt);
    assert Agrees(points, m[n], n) && Agrees(points, m[n + 1], n + 1);
    AdjustLimits(delta, m[n], m[n + 1], sqrt);
    AgreesShrinks(points, m[n], m0, n);
    AgreesShrinks(points, m[n + 1], m1, n + 1);
    if n > 0 && Drawn(points, n - 1) {
      LimitedShrinks(Slope(points, n - 1), m[n - 1], m[n], m[n - 1], m0);
    }
  }

  lemma {:induction false} PassLimits(points: seq<Point>, n: nat, sqrt: real -> real)
    requires n <= |points| && IsSqrt(sqrt)
    ensures LimitedUpTo(points, Pass(points, FirstTangents(points), n, sqrt), n)
  {
    if n == 0 {
      forall i | 0 <= i < |points| ensures Agrees(points, FirstTangents(points)[i], i) {
        FirstTangentAgrees(points, i);
      }
    } else {
      PassLimits(points, n - 1, sqrt);
      if Drawn(points, n - 1) {
        StepLimits(points, Pass(points, FirstTangents(points), n - 1, sqrt), n - 1, sqrt);
      }
    }
  }

  /** The pass only changes what it must: it only shrinks tangents, and where every interval was
      limited from the start it changes nothing. */
  lemma {:induction false} PassShrinks(points: seq<Point>, m: seq<real>, n: nat, sqrt: real -> real)
    requires n <= |points| == |m| && IsSqrt(sqrt) && LimitedUpTo(points, m, 0)
    ensures var r := Pass(points, m, n, sqrt);
      && (forall i | 0 <= i < |points| :: ShrinksTo(m[i], r[i]))
      && (forall i | 0 <= i < |points| :: Agrees(points, r[i], i))
      && (LimitedUpTo(points, m, |points|) ==> r == m)
  {
    if n > 0 {
      PassShrinks(points, m, n - 1, sqrt);
      var r := Pass(points, m, n - 1, sqrt);
      if Drawn(points, n - 1) {
        assert Agrees(points, r[n - 1], n - 1) && Agrees(points, r[n], n);
        var (m0, m1) := Adjust(Slope(points, n - 1), r[n - 1], r[n], sqrt);
        AdjustLimits(Slope(points, n - 1), r[n - 1], r[n], sqrt);
        AgreesShrinks(points, r[n - 1], m0, n - 1);
        AgreesShrinks(points, r[n], m1, n);
        if LimitedUpTo(points, m, |points|) {
          assert Limited(Slope(points, n - 1), m[n - 1], m[n]);
          LimitedIsKept(Slope(points, n - 1), m[n - 1], m[n], sqrt);
        }
      }
    }
  }

  lemma LimitedIsKept(delta: real, m0: real, m1: real, sqrt: real -> real)
    requires IsSqrt(sqrt) && Limited(delta, m0, m1)
    ensures Adjust(delta, m0, m1, sqrt) == (m0, m1)
  {
    if Abs(delta) >= EPSILON {
      RatioSquares(delta, m0, m1);
      var sm, d2 := SquaredMagnitude(delta, m0, m1), delta * delta;
      assert d2 > 0.0;
      assert sm * d2 <= 9.0 * d2;
      assert sm <= 9.0;
    }
  }

  /** Tangents outside the circle of radius 3 are brought onto it, in the same direction. */
  lemma AdjustScales(delta: real, m0: real, m1: real, sqrt: real -> real)
    requires IsSqrt(sqrt) && Abs(delta) >= EPSILON && m0 * m0 + m1 * m1 > 9.0 * delta * delta
    ensures var (n0, n1) := Adjust(delta, m0, m1, sqrt);
      n0 * n0 + n1 * n1 == 9.0 * delta * delta && n0 * m1 == n1 * m0
  {
    OutsideCircle(delta, m0, m1);
    RootIsPositive(SquaredMagnitude(delta, m0, m1), sqrt);
    var root := sqrt(SquaredMagnitude(delta, m0, m1));
    AdjustRescales(delta, m0, m1, sqrt, root);
    RescaledOntoCircle(delta, m0, m1, root);
  }

  lemma AdjustRescales(delta: real, m0: real, m1: real, sqrt: real -> real, root: real)
    requires IsSqrt(sqrt) && Abs(delta) >= EPSILON && SquaredMagnitude(delta, m0, m1) > 9.0
    requires root > 0.0 && root == sqrt(SquaredMagnitude(delta, m0, m1))
    ensures Adjust(delta, m0, m1, sqrt) == (Rescaled(delta, m0, root), Rescaled(delta, m1, root))
  {
  }

  lemma OutsideCircle(delta: real, m0: real, m1: real)
    requires delta != 0.0 && m0 * m0 + m1 * m1 > 9.0 * delta * delta
    ensures SquaredMagnitude(delta, m0, m1) > 9.0
  {
    if SquaredMagnitude(delta, m0, m1) <= 9.0 { RatioLimits(delta, m0, m1); }
  }

  lemma RescaledOntoCircle(delta: real, m0: real, m1: real, root: real)
    requires delta != 0.0 && root > 0.0 && root * root == SquaredMagnitude(delta, m0, m1)
    ensures var n0, n1 := Rescaled(delta, m0, root), Rescaled(delta, m1, root);
      n0 * n0 + n1 * n1 == 9.0 * delta * delta && n0 * m1 == n1 * m0
  {
    var tau := 3.0 / root;
    RatioSquares(delta, m0, m1);
    RescaledIs(delta, m0, root, tau);
    RescaledIs(delta, m1, root, tau);
    CircleScales(delta, m0, m1, root, tau);
    SameDirection(tau, m0, m1);
  }

  lemma SameDirection(tau: real, m0: real, m1: real)
    ensures (tau * m0) * m1 == (tau * m1) * m0
  {
  }

  lemma RescaledIs(delta: real, m: real, root: real, tau: real)
    requires delta != 0.0 && root != 0.0 && tau == 3.0 / root
    ensures Rescaled(delta, m, root) == tau * m
  {
    var a := m / delta;
    assert a * delta == m;
    assert a * tau * delta == tau * (a * delta);
  }

  // ----- Control points

  function ControlAfter(x: real, y: real, deltaX: real, m: real): Control {
    Control(x + deltaX, y + deltaX * m)
  }

  function ControlBefore(x: real, y: real, deltaX: real, m: real): Control {
    Control(x - deltaX, y - deltaX * m)
  }

  function NextControl(points: seq<Point>, i: nat, m: real): Option<Control>
    requires i < |points|
  {
    if !Drawn(points, i) then points[i].next
    else
      var deltaX := (points[i + 1].x - points[i].x) / 3.0;
      Some(ControlAfter(points[i].x, points[i].y, deltaX, m))
  }

  function PreviousControl(points: seq<Point>, i: nat, m: real): Option<Control>
    requires i < |points|
  {
    if !Drawn(points, i - 1) then points[i].previous
    else
      var deltaX := (points[i].x - points[i - 1].x) / 3.0;
      Some(ControlBefore(points[i].x, points[i].y, deltaX, m))
  }

  /** The tangents computed for `points`. */
  ghost function Tangents(points: seq<Point>, sqrt: real -> real): (m: seq<real>)
    requires IsSqrt(sqrt)
    ensures |m| == |points|
  {
    Pass(points, FirstTangents(points), |points|, sqrt)
  }

  /** The control points of a point with the tangent `m` lie on the tangent, a third of the way to its
      neighbours; next to gaps and ends, there are the old ones. */
  ghost predicate HasControls(point: Point, points: seq<Point>, i: nat, m: real)
    requires i < |points|
  {
    var here := points[i];
    && (if here.skip || i + 1 == |points| || points[i + 1].skip then point.next == here.next
        else
          && point.next.Some?
          && 3.0 * (point.next.value.x - here.x) == points[i + 1].x - here.x
          && point.next.value.y - here.y == (point.next.value.x - here.x) * m)
    && (if here.skip || i == 0 || points[i - 1].skip then point.previous == here.previous
        else
          && point.previous.Some?
          && 3.0 * (here.x - point.previous.value.x) == here.x - points[i - 1].x
          && here.y - point.previous.value.y == (here.x - point.previous.value.x) * m)
  }

  lemma ControlsAre(point: Point, points: seq<Point>, i: nat, m: real)
    requires i < |points|
    requires point.next == NextControl(points, i, m) && point.previous == PreviousControl(points, i, m)
    ensures HasControls(point, points, i, m)
  {
  }

  /** The coordinates and flags of a curve are those of another. */
  predicate SameCurve(a: seq<Point>, b: seq<Point>) {
    |a| == |b| && forall i | 0 <= i < |a| :: a[i].x == b[i].x && a[i].y == b[i].y && a[i].skip == b[i].skip
  }

  method SplineCurveMonotone(points: array<Point>, sqrt: real -> real)
    requires IsSqrt(sqrt)
    modifies points
    ensures var curve := old(points[..]);
      && SameCurve(points[..], curve)
      && (forall i | 0 <= i < points.Length :: HasControls(points[i], curve, i, Tangents(curve, sqrt)[i]))
      && forall i | 0 <= i < points.Length ::
           && points[i].next == NextControl(curve, i, Tangents(curve, sqrt)[i])
           && points[i].previous == PreviousControl(curve, i, Tangents(curve, sqrt)[i])
  {
    var curve := points[..];
    var deltaK, mK := new real[points.Length], new real[points.Length];
    InitTangents(curve, deltaK, mK);
    assert mK[..] == FirstTangents(curve);
    AdjustTangents(curve, deltaK, mK, sqrt);
    ComputeControls(points, mK);
  }

  method ComputeControls(points: array<Point>, mK: array<real>)
    requires mK.Length == points.Length
    modifies points
    ensures SameCurve(points[..], old(points[..]))
    ensures forall i | 0 <= i < points.Length :: HasControls(points[i], old(points[..]), i, mK[i])
    ensures forall i | 0 <= i < points.Length :: points[i].next == NextControl(old(points[..]), i, mK[i])
    ensures forall i | 0 <= i < points.Length :: points[i].previous == PreviousControl(old(points[..]), i, mK[i])
  {
    ghost var curve := points[..];
    for i := 0 to points.Length
      invariant forall j | 0 <= j < points.Length ::
                  points[j].x == curve[j].x && points[j].y == curve[j].y && points[j].skip == curve[j].skip
      invariant forall j | 0 <= j < i :: points[j].next == NextControl(curve, j, mK[j])
      invariant forall j | 0 <= j < i :: points[j].previous == PreviousControl(curve, j, mK[j])
      invariant forall j | i <= j < points.Length :: points[j] == curve[j]
    {
      var current := points[i];
      if !current.skip {
        if i > 0 && !points[i - 1].skip {
          var deltaX := (current.x - points[i - 1].x) / 3.0;
          points[i] := points[i].(previous := Some(ControlBefore(current.x, current.y, deltaX, mK[i])));
        }
        if i < points.Length - 1 && !points[i + 1].skip {
          var deltaX := (points[i + 1].x - current.x) / 3.0;
          points[i] := points[i].(next := Some(ControlAfter(current.x, current.y, deltaX, mK[i])));
        }
      }
      assert points[i].previous == PreviousControl(curve, i, mK[i]);
      assert points[i].next == NextControl(curve, i, mK[i]);
    }
    forall i | 0 <= i < points.Length ensures HasControls(points[i], curve, i, mK[i]) {
      ControlsAre(points[i], curve, i, mK[i]);
    }
  }

  // ----- Main results

  predicate Between(v: real, a: real, b: real) {
    (a <= v <= b) || (b <= v <= a)
  }

  predicate InBox(c: Control, a: Point, b: Point) {
    Between(c.x, a.x, b.x) && Between(c.y, a.y, b.y)
  }

  /** A third of a limited tangent over an interval stays within the rise of the interval. */
  lemma ThirdStaysInside(dx: real, dy: real, delta: real, m: real)
    requires dx != 0.0 ==> delta * dx == dy
    requires SameSign(delta, m) && m * m <= 9.0 * delta * delta
    requires dx == 0.0 ==> m == 0.0
    ensures Between((dx / 3.0) * m, 0.0, dy)
  {
    if delta > 0.0 {
      ProductBetween(dx / 3.0, m, 3.0 * delta);
    } else if delta < 0.0 {
      ProductBetween(dx / 3.0, -m, -3.0 * delta);
    }
  }

  lemma ProductBetween(t: real, m: real, top: real)
    requires 0.0 <= m <= top
    ensures Between(t * m, 0.0, t * top) && Between(t * -m, 0.0, t * -top)
  {
    var rest := top - m;
    assert t * top == t * m + t * rest;
    if t >= 0.0 {
      assert t * m >= 0.0 && t * rest >= 0.0;
    } else {
      assert t * m <= 0.0 && t * rest <= 0.0;
    }
  }

  lemma SlopeTimesWidth(points: seq<Point>, i: nat)
    requires Drawn(points, i)
    ensures var dx := points[i + 1].x - points[i].x;
      if dx == 0.0 then Slope(points, i) == 0.0 else Slope(points, i) * dx == points[i + 1].y - points[i].y
  {
  }

  /** Every interval ends up limited: tangents of the slope's sign with alpha^2 + beta^2 <= 9, or
      both zero on a negligible slope. */
  lemma IntervalIsLimited(points: seq<Point>, i: nat, sqrt: real -> real)
    requires IsSqrt(sqrt) && Drawn(points, i)
    ensures var m := Tangents(points, sqrt); Limited(Slope(points, i), m[i], m[i + 1])
  {
    PassLimits(points, |points|, sqrt);
  }

  /** A third of the tangent `m` over the segment rises no further than the segment. */
  ghost predicate RisesInside(points: seq<Point>, i: nat, m: real)
    requires i + 1 < |points|
  {
    Between((points[i + 1].x - points[i].x) / 3.0 * m, 0.0, points[i + 1].y - points[i].y)
  }

  lemma LimitedRises(points: seq<Point>, i: nat, m0: real, m1: real)
    requires Drawn(points, i) && Limited(Slope(points, i), m0, m1)
    ensures RisesInside(points, i, m0) && RisesInside(points, i, m1)
  {
    var a, b := points[i], points[i + 1];
    SlopeTimesWidth(points, i);
    LimitedThird(b.x - a.x, b.y - a.y, Slope(points, i), m0, m1);
  }

  lemma StepsInBox(a: Point, b: Point, deltaX: real, m: real)
    requires Between(deltaX, 0.0, b.x - a.x) && Between(deltaX * m, 0.0, b.y - a.y)
    ensures InBox(ControlAfter(a.x, a.y, deltaX, m), a, b) && InBox(ControlBefore(b.x, b.y, deltaX, m), a, b)
  {
  }

  ghost predicate SegmentInBox(points: seq<Point>, i: nat, m0: real, m1: real)
    requires i + 1 < |points|
  {
    && NextControl(points, i, m0).Some? && InBox(NextControl(points, i, m0).value, points[i], points[i + 1])
    && PreviousControl(points, i + 1, m1).Some?
    && InBox(PreviousControl(points, i + 1, m1).value, points[i], points[i + 1])
  }

  lemma RisesInBox(points: seq<Point>, i: nat, m0: real, m1: real)
    requires Drawn(points, i) && RisesInside(points, i, m0) && RisesInside(points, i, m1)
    ensures SegmentInBox(points, i, m0, m1)
  {
    var a, b := points[i], points[i + 1];
    StepsInBox(a, b, (b.x - a.x) / 3.0, m0);
    StepsInBox(a, b, (b.x - a.x) / 3.0, m1);
  }

  /** The control points of every segment lie in the box spanned by its two points, in whatever
      order their x coordinates are. */
  lemma ControlsInBox(points: seq<Point>, i: nat, sqrt: real -> real)
    requires IsSqrt(sqrt) && Drawn(points, i)
    ensures var m := Tangents(points, sqrt); SegmentInBox(points, i, m[i], m[i + 1])
  {
    var m := Tangents(points, sqrt);
    IntervalIsLimited(points, i, sqrt);
    LimitedRises(points, i, m[i], m[i + 1]);
    RisesInBox(points, i, m[i], m[i + 1]);
  }

  lemma LimitedThird(dx: real, dy: real, delta: real, m0: real, m1: real)
    requires Limited(delta, m0, m1)
    requires if dx == 0.0 then delta == 0.0 else delta * dx == dy
    ensures Between((dx / 3.0) * m0, 0.0, dy) && Between((dx / 3.0) * m1, 0.0, dy)
  {
    if Abs(delta) < EPSILON {
      assert (dx / 3.0) * m0 == 0.0 && (dx / 3.0) * m1 == 0.0;
    } else {
      assert m0 * m0 >= 0.0 && m1 * m1 >= 0.0;
      ThirdStaysInside(dx, dy, delta, m0);
      ThirdStaysInside(dx, dy, delta, m1);
    }
  }
}
