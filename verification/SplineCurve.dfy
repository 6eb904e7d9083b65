/** Why the limited tangents matter: the curve drawn through the points goes up only where they go
    up, and down only where they go down. */
module SplineCurve {
  import opened Spline

  /** One coordinate of a cubic Bezier curve. */
  function Bezier(p0: real, p1: real, p2: real, p3: real, t: real): real {
    var s := 1.0 - t;
    s * s * s * p0 + 3.0 * s * s * t * p1 + 3.0 * s * t * t * p2 + t * t * t * p3
  }

  function Cubic(u: real, q: real, r: real, t: real): real {
    u * t + q * t * t + r * t * t * t
  }

  /** The derivative of `Cubic`. */
  function Rate(u: real, q: real, r: real, t: real): real {
    u + 2.0 * q * t + 3.0 * r * t * t
  }

  lemma BezierIsCubic(p: real, d: real, u: real, v: real, t: real)
    ensures Bezier(p, p + u / 3.0, p + d - v / 3.0, p + d, t)
         == p + Cubic(u, 3.0 * d - 2.0 * u - v, u + v - 2.0 * d, t)
  {
  }

  /** The derivative taken at both ends and in the middle gives the exact difference. */
  lemma DifferenceFromRates(u: real, q: real, r: real, t1: real, t2: real)
    ensures Cubic(u, q, r, t2) - Cubic(u, q, r, t1)
         == (t2 - t1) * ((Rate(u, q, r, t1) + 4.0 * Rate(u, q, r, (t1 + t2) / 2.0) + Rate(u, q, r, t2)) / 6.0)
  {
  }

  // ----- The inequality

  /** The rate of the curve relative to its rise, for relative tangents alpha and beta. */
  function Relative(alpha: real, beta: real, t: real): real {
    var s := 1.0 - t;
    s * s * alpha + 2.0 * (s * t) * (3.0 - alpha - beta) + t * t * beta
  }

  lemma Product(x: real, y: real)
    requires x >= 0.0 && y >= 0.0
    ensures x * y >= 0.0
  {
  }

  lemma PositiveProduct(x: real, y: real)
    requires x > 0.0 && y > 0.0
    ensures x * y > 0.0
  {
  }

  lemma SumIsSmall(alpha: real, beta: real)
    requires alpha >= 0.0 && beta >= 0.0 && alpha * alpha + beta * beta <= 9.0
    ensures alpha + beta <= 9.0
  {
    SquaresOrder(alpha, 4.5);
    SquaresOrder(beta, 4.5);
  }

  lemma ExcessIsSmall(alpha: real, beta: real)
    requires alpha >= 0.0 && beta >= 0.0 && alpha * alpha + beta * beta <= 9.0 && alpha + beta >= 3.0
    ensures (alpha + beta - 3.0) * (alpha + beta - 3.0) <= alpha * beta
  {
    SumIsSmall(alpha, beta);
    Product(alpha + beta - 3.0, 9.0 - (alpha + beta));
  }

  lemma SquareGrows(x: real, y: real)
    requires x > y >= 0.0
    ensures x * x > y * y
  {
    PositiveProduct(x - y, x + y);
    assert (x - y) * (x + y) == x * x - y * y;
  }

  lemma SquaresOrder(x: real, y: real)
    requires y >= 0.0 && x * x <= y * y
    ensures x <= y
  {
    if x > y { SquareGrows(x, y); }
  }

  /** Twice the geometric mean is at most the sum. */
  lemma MeansOrder(x: real, y: real, z: real)
    requires x >= 0.0 && y >= 0.0 && z * z <= x * y
    ensures 2.0 * z <= x + y
  {
    assert (x - y) * (x - y) >= 0.0;
    assert (x + y) * (x + y) == (x - y) * (x - y) + 4.0 * (x * y);
    assert (2.0 * z) * (2.0 * z) == 4.0 * (z * z);
    SquaresOrder(2.0 * z, x + y);
  }

  lemma ScaledSquare(s: real, t: real, c: real, alpha: real, beta: real)
    requires c * c <= alpha * beta
    ensures (s * t * c) * (s * t * c) <= (s * s * alpha) * (t * t * beta)
  {
    var k := (s * t) * (s * t);
    assert k >= 0.0;
    assert (s * t * c) * (s * t * c) == k * (c * c);
    assert (s * s * alpha) * (t * t * beta) == k * (alpha * beta);
    assert k * (alpha * beta - c * c) >= 0.0;
  }

  lemma OuterTerm(s: real, alpha: real)
    requires alpha >= 0.0
    ensures s * s * alpha >= 0.0
  {
    assert s * s >= 0.0;
    Product(s * s, alpha);
  }

  lemma MiddleTerm(s: real, t: real, c: real)
    requires s >= 0.0 && t >= 0.0 && c <= 0.0
    ensures s * t * c <= 0.0
  {
    Product(s, t);
    Product(s * t, -c);
    assert s * t * c == -((s * t) * -c);
  }

  lemma RelativeIs(alpha: real, beta: real, t: real, x: real, y: real, z: real)
    requires x == (1.0 - t) * (1.0 - t) * alpha && y == t * t * beta && z == (1.0 - t) * t * (alpha + beta - 3.0)
    ensures Relative(alpha, beta, t) == x + y - 2.0 * z
  {
  }

  lemma ThreeTermsSmall(s: real, t: real, c: real, alpha: real, beta: real)
    requires s >= 0.0 && t >= 0.0 && alpha >= 0.0 && beta >= 0.0 && c <= 0.0
    ensures s * s * alpha + t * t * beta - 2.0 * (s * t * c) >= 0.0
  {
    OuterTerm(s, alpha);
    OuterTerm(t, beta);
    MiddleTerm(s, t, c);
  }

  lemma ThreeTermsLarge(s: real, t: real, c: real, alpha: real, beta: real)
    requires alpha >= 0.0 && beta >= 0.0 && c * c <= alpha * beta
    ensures s * s * alpha + t * t * beta - 2.0 * (s * t * c) >= 0.0
  {
    OuterTerm(s, alpha);
    OuterTerm(t, beta);
    ScaledSquare(s, t, c, alpha, beta);
    MeansOrder(s * s * alpha, t * t * beta, s * t * c);
  }

  /** In the circle of radius 3 the curve never turns back. */
  lemma NeverTurns(alpha: real, beta: real, t: real)
    requires alpha >= 0.0 && beta >= 0.0 && alpha * alpha + beta * beta <= 9.0 && 0.0 <= t <= 1.0
    ensures Relative(alpha, beta, t) >= 0.0
  {
    var s, c := 1.0 - t, alpha + beta - 3.0;
    if c <= 0.0 {
      ThreeTermsSmall(s, t, c, alpha, beta);
    } else {
      ExcessIsSmall(alpha, beta);
      ThreeTermsLarge(s, t, c, alpha, beta);
    }
    RelativeIs(alpha, beta, t, s * s * alpha, t * t * beta, s * t * c);
  }

  // ----- The curve of a segment

  lemma RateIsRelative(d: real, alpha: real, beta: real, t: real)
    ensures var u, v := alpha * d, beta * d;
      Rate(u, 3.0 * d - 2.0 * u - v, u + v - 2.0 * d, t) == d * Relative(alpha, beta, t)
  {
  }

  /** Between two values of the parameter the curve goes the way of the rise `d`. */
  predicate Follows(d: real, y1: real, y2: real) {
    (d >= 0.0 ==> y1 <= y2) && (d <= 0.0 ==> y1 >= y2)
  }

  lemma SignedProduct(d: real, x: real)
    requires x >= 0.0
    ensures (d >= 0.0 ==> d * x >= 0.0) && (d <= 0.0 ==> d * x <= 0.0)
  {
  }

  predicate SignOf(d: real, x: real) {
    (d >= 0.0 ==> x >= 0.0) && (d <= 0.0 ==> x <= 0.0)
  }

  lemma RateSigned(d: real, alpha: real, beta: real, t: real)
    requires alpha >= 0.0 && beta >= 0.0 && alpha * alpha + beta * beta <= 9.0 && 0.0 <= t <= 1.0
    ensures var u, v := alpha * d, beta * d;
      SignOf(d, Rate(u, 3.0 * d - 2.0 * u - v, u + v - 2.0 * d, t))
  {
    NeverTurns(alpha, beta, t);
    RateIsRelative(d, alpha, beta, t);
    SignedProduct(d, Relative(alpha, beta, t));
  }

  lemma ScaledSign(d: real, h: real, x: real)
    requires h >= 0.0 && SignOf(d, x)
    ensures SignOf(d, h * x)
  {
    if x >= 0.0 {
      Product(h, x);
    } else {
      Product(h, -x);
      assert h * x == -(h * -x);
    }
  }

  lemma RatesFollow(d: real, u: real, q: real, r: real, t1: real, t2: real)
    requires t1 <= t2
    requires SignOf(d, Rate(u, q, r, t1)) && SignOf(d, Rate(u, q, r, (t1 + t2) / 2.0)) && SignOf(d, Rate(u, q, r, t2))
    ensures Follows(d, Cubic(u, q, r, t1), Cubic(u, q, r, t2))
  {
    DifferenceFromRates(u, q, r, t1, t2);
    ScaledSign(d, t2 - t1, (Rate(u, q, r, t1) + 4.0 * Rate(u, q, r, (t1 + t2) / 2.0) + Rate(u, q, r, t2)) / 6.0);
  }

  lemma CubicFollows(d: real, alpha: real, beta: real, t1: real, t2: real)
    requires alpha >= 0.0 && beta >= 0.0 && alpha * alpha + beta * beta <= 9.0 && 0.0 <= t1 <= t2 <= 1.0
    ensures var u, v := alpha * d, beta * d;
      var q, r := 3.0 * d - 2.0 * u - v, u + v - 2.0 * d;
      Follows(d, Cubic(u, q, r, t1), Cubic(u, q, r, t2))
  {
    var u, v := alpha * d, beta * d;
    RateSigned(d, alpha, beta, t1);
    RateSigned(d, alpha, beta, (t1 + t2) / 2.0);
    RateSigned(d, alpha, beta, t2);
    RatesFollow(d, u, 3.0 * d - 2.0 * u - v, u + v - 2.0 * d, t1, t2);
  }

  /** Limited tangents in relation to their slope. */
  lemma RelativeTangents(dx: real, dy: real, delta: real, m0: real, m1: real) returns (alpha: real, beta: real)
    requires Limited(delta, m0, m1) && if dx == 0.0 then delta == 0.0 else delta * dx == dy
    ensures alpha >= 0.0 && beta >= 0.0 && alpha * alpha + beta * beta <= 9.0
    ensures dx * m0 == alpha * dy && dx * m1 == beta * dy
  {
    if Abs(delta) < EPSILON {
      alpha, beta := 0.0, 0.0;
    } else {
      alpha, beta := m0 / delta, m1 / delta;
      RatioSquares(delta, m0, m1);
      ScaledTangent(dx, dy, delta, m0, alpha);
      ScaledTangent(dx, dy, delta, m1, beta);
      InCircle(delta, m0, m1, alpha, beta);
    }
  }

  lemma ScaledTangent(dx: real, dy: real, delta: real, m: real, alpha: real)
    requires delta != 0.0 && SameSign(delta, m) && alpha == m / delta && delta * dx == dy
    ensures alpha >= 0.0 && dx * m == alpha * dy
  {
    assert alpha * delta == m;
  }

  lemma InCircle(delta: real, m0: real, m1: real, alpha: real, beta: real)
    requires delta != 0.0 && alpha * delta == m0 && beta * delta == m1 && m0 * m0 + m1 * m1 <= 9.0 * delta * delta
    ensures alpha * alpha + beta * beta <= 9.0
  {
    var k, c := delta * delta, alpha * alpha + beta * beta;
    assert m0 * m0 + m1 * m1 == c * k;
    SquareGrows(Abs(delta), 0.0);
    if c > 9.0 { PositiveProduct(c - 9.0, k); }
  }

  function CurveX(a: Point, c0: Control, c1: Control, b: Point, t: real): real {
    Bezier(a.x, c0.x, c1.x, b.x, t)
  }

  function CurveY(a: Point, c0: Control, c1: Control, b: Point, t: real): real {
    Bezier(a.y, c0.y, c1.y, b.y, t)
  }

  lemma SegmentX(a: Point, b: Point, m0: real, m1: real, t: real)
    ensures var third := (b.x - a.x) / 3.0;
      CurveX(a, ControlAfter(a.x, a.y, third, m0), ControlBefore(b.x, b.y, third, m1), b, t) == a.x + t * (b.x - a.x)
  {
    BezierIsCubic(a.x, b.x - a.x, b.x - a.x, b.x - a.x, t);
  }

  lemma SegmentY(a: Point, b: Point, m0: real, m1: real, t: real)
    ensures var dx, dy := b.x - a.x, b.y - a.y;
      CurveY(a, ControlAfter(a.x, a.y, dx / 3.0, m0), ControlBefore(b.x, b.y, dx / 3.0, m1), b, t)
        == a.y + Height(dx, dy, m0, m1, t)
  {
    var dx := b.x - a.x;
    BezierIsCubic(a.y, b.y - a.y, dx * m0, dx * m1, t);
    assert dx / 3.0 * m0 == dx * m0 / 3.0 && dx / 3.0 * m1 == dx * m1 / 3.0;
  }

  ghost predicate SegmentFollows(a: Point, c0: Control, c1: Control, b: Point, t1: real, t2: real) {
    && CurveX(a, c0, c1, b, t1) == a.x + t1 * (b.x - a.x)
    && Follows(b.y - a.y, CurveY(a, c0, c1, b, t1), CurveY(a, c0, c1, b, t2))
  }

  /** `Cubic` for the control points that belong to the tangents of a segment. */
  function Height(dx: real, dy: real, m0: real, m1: real, t: real): real {
    Cubic(dx * m0, 3.0 * dy - 2.0 * (dx * m0) - dx * m1, dx * m0 + dx * m1 - 2.0 * dy, t)
  }

  lemma HeightFollows(dx: real, dy: real, delta: real, m0: real, m1: real, t1: real, t2: real)
    requires Limited(delta, m0, m1) && 0.0 <= t1 <= t2 <= 1.0
    requires if dx == 0.0 then delta == 0.0 else delta * dx == dy
    ensures Follows(dy, Height(dx, dy, m0, m1, t1), Height(dx, dy, m0, m1, t2))
  {
    var alpha, beta := RelativeTangents(dx, dy, delta, m0, m1);
    HeightIsCubic(dx, dy, m0, m1, alpha, beta, t1);
    HeightIsCubic(dx, dy, m0, m1, alpha, beta, t2);
    CubicFollows(dy, alpha, beta, t1, t2);
  }

  lemma HeightIsCubic(dx: real, dy: real, m0: real, m1: real, alpha: real, beta: real, t: real)
    requires dx * m0 == alpha * dy && dx * m1 == beta * dy
    ensures var u, v := alpha * dy, beta * dy;
      Height(dx, dy, m0, m1, t) == Cubic(u, 3.0 * dy - 2.0 * u - v, u + v - 2.0 * dy, t)
  {
  }

  lemma HeightOfSegment(a: Point, b: Point, m0: real, m1: real, t1: real, t2: real)
    requires var dx, dy := b.x - a.x, b.y - a.y;
      Follows(dy, Height(dx, dy, m0, m1, t1), Height(dx, dy, m0, m1, t2))
    ensures var third := (b.x - a.x) / 3.0;
      SegmentFollows(a, ControlAfter(a.x, a.y, third, m0), ControlBefore(b.x, b.y, third, m1), b, t1, t2)
  {
    SegmentX(a, b, m0, m1, t1);
    SegmentY(a, b, m0, m1, t1);
    SegmentY(a, b, m0, m1, t2);
  }

  lemma LimitedFollows(a: Point, b: Point, delta: real, m0: real, m1: real, t1: real, t2: real)
    requires Limited(delta, m0, m1) && 0.0 <= t1 <= t2 <= 1.0
    requires var dx := b.x - a.x; if dx == 0.0 then delta == 0.0 else delta * dx == b.y - a.y
    ensures var third := (b.x - a.x) / 3.0;
      SegmentFollows(a, ControlAfter(a.x, a.y, third, m0), ControlBefore(b.x, b.y, third, m1), b, t1, t2)
  {
    HeightFollows(b.x - a.x, b.y - a.y, delta, m0, m1, t1, t2);
    HeightOfSegment(a, b, m0, m1, t1, t2);
  }

  /** The curve preserves monotonicity: along each segment x moves evenly from one point to the
      next, and y only rises if the next point is higher, and only falls if it is lower.  So the
      curve has no extremum between the points. */
  lemma CurveIsMonotone(points: seq<Point>, i: nat, sqrt: real -> real, t1: real, t2: real)
    requires IsSqrt(sqrt) && Drawn(points, i) && 0.0 <= t1 <= t2 <= 1.0
    ensures var m := Tangents(points, sqrt);
      var next, previous := NextControl(points, i, m[i]), PreviousControl(points, i + 1, m[i + 1]);
      && next.Some? && previous.Some?
      && SegmentFollows(points[i], next.value, previous.value, points[i + 1], t1, t2)
  {
    var m := Tangents(points, sqrt);
    IntervalIsLimited(points, i, sqrt);
    SlopeTimesWidth(points, i);
    LimitedFollows(points[i], points[i + 1], Slope(points, i), m[i], m[i + 1], t1, t2);
  }
}
