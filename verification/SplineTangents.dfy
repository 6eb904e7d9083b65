/** What the first tangents of a spline are like. */
module SplineTangents {
  import opened Spline

  // ----- Read from the other end

  function Reversed(points: seq<Point>): (r: seq<Point>)
    ensures |r| == |points| && forall i | 0 <= i < |r| :: r[i] == points[|points| - 1 - i]
  {
    seq(|points|, i requires 0 <= i < |points| => points[|points| - 1 - i])
  }

  lemma Negated(x: real, y: real)
    requires y != 0.0
    ensures -x / -y == x / y
  {
  }

  lemma ReversedSlope(points: seq<Point>, i: int)
    ensures Slope(Reversed(points), |points| - 2 - i) == Slope(points, i)
  {
    if Drawn(points, i) && points[i + 1].x != points[i].x {
      Negated(points[i + 1].y - points[i].y, points[i + 1].x - points[i].x);
    }
  }

  /** It does not matter from which end a curve is read. */
  lemma ReversedTangents(points: seq<Point>, i: nat)
    requires i < |points|
    ensures FirstTangent(Reversed(points), |points| - 1 - i) == FirstTangent(points, i)
  {
    ReversedSlope(points, i - 1);
    ReversedSlope(points, i);
  }

  // ----- Samples of a parabola

  function Parabola(a: real, b: real, c: real, x: real): real {
    a * x * x + b * x + c
  }

  /** Points at equal distances on a parabola. */
  ghost predicate Samples(points: seq<Point>, a: real, b: real, c: real, h: real) {
    && h != 0.0
    && (forall i | 0 <= i < |points| :: !points[i].skip && points[i].y == Parabola(a, b, c, points[i].x))
    && (forall i | 0 < i < |points| :: points[i].x == points[i - 1].x + h)
  }

  lemma Chord(a: real, b: real, c: real, x: real, h: real)
    requires h != 0.0
    ensures (Parabola(a, b, c, x + h) - Parabola(a, b, c, x)) / h == a * (2.0 * x + h) + b
  {
    var rise, s := Parabola(a, b, c, x + h) - Parabola(a, b, c, x), a * (2.0 * x + h) + b;
    assert rise == s * h;
    Cancels(rise, s, h);
  }

  lemma Cancels(rise: real, s: real, h: real)
    requires h != 0.0 && rise == s * h
    ensures rise / h == s
  {
  }

  lemma SampledSlope(points: seq<Point>, a: real, b: real, c: real, h: real, i: nat)
    requires Samples(points, a, b, c, h) && i + 1 < |points|
    ensures Slope(points, i) == a * (2.0 * points[i].x + h) + b
  {
    assert points[i + 1].x == points[i].x + h;
    Chord(a, b, c, points[i].x, h);
  }

  /** Where the samples go on rising or falling, the first tangent is the derivative. */
  lemma ParabolaTangents(points: seq<Point>, a: real, b: real, c: real, h: real, i: nat)
    requires Samples(points, a, b, c, h) && 0 < i < |points| - 1
    requires (points[i].y - points[i - 1].y) * (points[i + 1].y - points[i].y) > 0.0
    ensures FirstTangent(points, i) == 2.0 * a * points[i].x + b
  {
    SampledSlope(points, a, b, c, h, i - 1);
    SampledSlope(points, a, b, c, h, i);
    SlopesSameWay(points, i, h);
    MeanOfChords(a, b, points[i - 1].x, points[i].x, h);
  }

  lemma SlopesSameWay(points: seq<Point>, i: nat, h: real)
    requires 0 < i < |points| - 1 && Drawn(points, i - 1) && Drawn(points, i) && h != 0.0
    requires points[i].x - points[i - 1].x == h == points[i + 1].x - points[i].x
    requires (points[i].y - points[i - 1].y) * (points[i + 1].y - points[i].y) > 0.0
    ensures Sign(Slope(points, i - 1)) == Sign(Slope(points, i))
  {
    SameWay(points[i].y - points[i - 1].y, points[i + 1].y - points[i].y, h);
  }

  lemma SameWay(before: real, behind: real, h: real)
    requires h != 0.0 && before * behind > 0.0
    ensures Sign(before / h) == Sign(behind / h)
  {
    assert (before > 0.0 && behind > 0.0) || (before < 0.0 && behind < 0.0);
    SignOfQuotient(before, h);
    SignOfQuotient(behind, h);
  }

  lemma SignOfQuotient(x: real, h: real)
    requires h != 0.0 && x != 0.0
    ensures Sign(x / h) == Sign(x) * Sign(h)
  {
    var q := x / h;
    assert q * h == x;
    assert q != 0.0;
  }

  lemma MeanOfChords(a: real, b: real, x: real, y: real, h: real)
    requires y == x + h
    ensures ((a * (2.0 * x + h) + b) + (a * (2.0 * y + h) + b)) / 2.0 == 2.0 * a * y + b
  {
  }
}
