/** Building the lookup table of a time scale from its timestamps.  In a "series" distribution
    the timestamps are spread evenly; an item that lies halfway between its neighbours, up to
    rounding, is left out of the table. */
module LookupTable {
  import opened TimeScale
  import opened Filtering

  /** `Math.round` */
  function Round(x: real): int {
    (x + 0.5).Floor
  }

  function Inside(timestamps: seq<real>, min: real, max: real): seq<real> {
    if timestamps == [] then []
    else
      var last := timestamps[|timestamps| - 1];
      Inside(timestamps[..|timestamps| - 1], min, max) + (if min < last < max then [last] else [])
  }

  /** The ends of the scale and the timestamps between them. */
  function Items(timestamps: seq<real>, min: real, max: real): (items: seq<real>)
    ensures |items| >= 2 && items[0] == min && items[|items| - 1] == max
  {
    [min] + Inside(timestamps, min, max) + [max]
  }

  /** The entry of item `i` in the complete table. */
  function Full(items: seq<real>, i: nat): Entry
    requires i < |items| && |items| >= 2
  {
    Entry(items[i], i as real / (|items| - 1) as real)
  }

  function FullTable(items: seq<real>): (table: seq<Entry>)
    requires |items| >= 2
    ensures |table| == |items|
  {
    seq(|items|, i requires 0 <= i < |items| => Full(items, i))
  }

  /** Item `i` breaks the linearity of the scale, as far as the source can tell. */
  predicate Kept(items: seq<real>, i: nat)
    requires i < |items|
  {
    i == 0 || i == |items| - 1 || Round((items[i + 1] + items[i - 1]) / 2.0) as real != items[i]
  }

  function Flags(items: seq<real>): (keep: seq<bool>)
    ensures |keep| == |items| && forall i | 0 <= i < |items| :: keep[i] == Kept(items, i)
  {
    seq(|items|, i requires 0 <= i < |items| => Kept(items, i))
  }

  /** The table of the kept items. */
  function Compressed(items: seq<real>): seq<Entry>
    requires |items| >= 2
  {
    Chosen(FullTable(items), Flags(items), |items|)
  }

  method BuildLookupTable(timestamps: seq<real>, min: real, max: real, linear: bool) returns (table: seq<Entry>)
    ensures table == if linear || timestamps == [] then [Entry(min, 0.0), Entry(max, 1.0)]
                     else Compressed(Items(timestamps, min, max))
  {
    if linear || timestamps == [] {
      return [Entry(min, 0.0), Entry(max, 1.0)];
    }
    var items := [min];
    for i := 0 to |timestamps|
      invariant items == [min] + Inside(timestamps[..i], min, max)
    {
      assert timestamps[..i + 1][..i] == timestamps[..i];
      var curr := timestamps[i];
      if curr > min && curr < max {
        items := items + [curr];
      }
    }
    assert timestamps[..|timestamps|] == timestamps;
    items := items + [max];
    table := [];
    for i := 0 to |items|
      invariant table == Chosen(FullTable(items), Flags(items), i)
    {
      var curr := items[i];
      if i == 0 || i == |items| - 1 || Round((items[i + 1] + items[i - 1]) / 2.0) as real != curr {
        table := table + [Entry(curr, i as real / (|items| - 1) as real)];
      }
    }
  }

  // ----- The complete table

  ghost predicate Rising(items: seq<real>) {
    |items| >= 2 && forall i, j | 0 <= i < j < |items| :: items[i] < items[j]
  }

  ghost predicate Sorted(xs: seq<real>) {
    forall i, j | 0 <= i < j < |xs| :: xs[i] < xs[j]
  }

  lemma SortedAppend(xs: seq<real>, x: real)
    requires Sorted(xs) && forall i | 0 <= i < |xs| :: xs[i] < x
    ensures Sorted(xs + [x])
  {
  }

  lemma {:induction false} InsideRises(timestamps: seq<real>, min: real, max: real)
    requires Sorted(timestamps)
    ensures var inside := Inside(timestamps, min, max);
      && Sorted(inside)
      && (forall i | 0 <= i < |inside| :: min < inside[i] < max && inside[i] <= timestamps[|timestamps| - 1])
      && (timestamps == [] ==> inside == [])
  {
    if timestamps != [] {
      var rest, last := timestamps[..|timestamps| - 1], timestamps[|timestamps| - 1];
      InsideRises(rest, min, max);
      var before := Inside(rest, min, max);
      if rest != [] { assert rest[|rest| - 1] < last; }
      if min < last < max { SortedAppend(before, last); }
    }
  }

  lemma ItemsRise(timestamps: seq<real>, min: real, max: real)
    requires min < max && Sorted(timestamps)
    ensures Rising(Items(timestamps, min, max))
  {
    InsideRises(timestamps, min, max);
    var inside := Inside(timestamps, min, max);
    var items := Items(timestamps, min, max);
    forall i, j | 0 <= i < j < |items| ensures items[i] < items[j] {
      if 0 < i && j < |items| - 1 {
        assert items[i] == inside[i - 1] && items[j] == inside[j - 1];
      } else if 0 < i {
        assert items[i] == inside[i - 1];
      } else if j < |items| - 1 {
        assert items[j] == inside[j - 1];
      }
    }
  }

  lemma PosOrder(i: nat, j: nat, n: nat)
    requires i < j && n > 0
    ensures i as real / n as real < j as real / n as real
  {
    RatioOrder(i as real, j as real, n as real);
  }

  lemma FullIsTable(items: seq<real>)
    requires Rising(items)
    ensures IsTable(FullTable(items))
  {
    forall i, j | 0 <= i < j < |items| ensures Full(items, i).pos < Full(items, j).pos {
      PosOrder(i, j, |items| - 1);
    }
  }

  // ----- Dropping entries

  /** `b` lies on the line through `a` and `c`. */
  predicate Collinear(a: Entry, b: Entry, c: Entry) {
    (b.pos - a.pos) * (c.time - b.time) == (c.pos - b.pos) * (b.time - a.time)
  }

  /** Entry `i` lies on the line through its neighbours. */
  predicate OnLine(table: seq<Entry>, i: nat)
    requires 0 < i < |table| - 1
  {
    Collinear(table[i - 1], table[i], table[i + 1])
  }

  lemma WithoutIsTable(table: seq<Entry>, i: nat)
    requires IsTable(table) && 0 < i < |table| - 1
    ensures IsTable(Without(table, i))
  {
  }

  /** Three entries with equal slopes lie on one line. */
  lemma LinesAgree(a: Entry, b: Entry, c: Entry, v: real)
    requires a.time < b.time < c.time && Collinear(a, b, c)
    ensures Line(a, b, Time, v, Pos) == Line(a, c, Time, v, Pos) == Line(b, c, Time, v, Pos)
  {
    var s := (b.pos - a.pos) / (b.time - a.time);
    var t1, t2 := b.time - a.time, c.time - b.time;
    assert b.pos - a.pos == s * t1;
    SlopeOf(c.pos - b.pos, t2, s, t1);
    assert c.pos - a.pos == s * (t1 + t2);
    LineBySlope(a, b, s, v);
    LineBySlope(a, c, s, v);
    LineBySlope(b, c, s, v);
  }

  lemma SlopeOf(rise: real, t2: real, s: real, t1: real)
    requires t1 > 0.0 && (s * t1) * t2 == rise * t1
    ensures rise == s * t2
  {
    assert (s * t2 - rise) * t1 == 0.0;
  }

  lemma LineBySlope(a: Entry, b: Entry, s: real, v: real)
    requires a.time < b.time && b.pos - a.pos == s * (b.time - a.time)
    ensures Line(a, b, Time, v, Pos) == a.pos + s * (v - a.time)
  {
    var span := b.time - a.time;
    var ratio := (v - a.time) / span;
    assert span * ratio == v - a.time;
    assert (s * span) * ratio == s * (span * ratio);
  }

  /** Dropping an entry on the line of its neighbours changes no interpolated position. */
  lemma DropKeeps(table: seq<Entry>, i: nat, v: real)
    requires IsTable(table) && 0 < i < |table| - 1 && OnLine(table, i)
    ensures Interpolated(Without(table, i), Time, v, Pos) == Interpolated(table, Time, v, Pos)
  {
    var rest := Without(table, i);
    WithoutIsTable(table, i);
    var j := Segment(rest, Time, v, 0);
    SegmentHolds(rest, Time, v);
    if j < i - 1 {
      SegmentIrrelevant(table, Time, v, j);
    } else if j > i - 1 {
      assert rest[j] == table[j + 1] && rest[j + 1] == table[j + 2];
      SegmentIrrelevant(table, Time, v, j + 1);
    } else {
      LinesAgree(table[i - 1], table[i], table[i + 1], v);
      assert rest[j] == table[i - 1] && rest[j + 1] == table[i + 1];
      SegmentIrrelevant(table, Time, v, if v <= table[i].time then i - 1 else i);
    }
  }

  // ----- Compression

  /** Both are tables, and interpolate alike at every time. */
  ghost predicate SameScale(a: seq<Entry>, b: seq<Entry>) {
    IsTable(a) && IsTable(b) && forall v :: Interpolated(a, Time, v, Pos) == Interpolated(b, Time, v, Pos)
  }

  /** Each entry that is left out lies on the line through the last one kept before and its
      successor. */
  ghost predicate DropsOnLine(full: seq<Entry>, keep: seq<bool>)
    requires |full| == |keep|
  {
    KeepsEnds(keep) &&
    forall k: nat | k < |full| && !keep[k] :: Collinear(full[LastChosen(keep, k)], full[k], full[k + 1])
  }

  lemma PartlyStep(full: seq<Entry>, keep: seq<bool>, k: nat)
    requires k < |full| == |keep| && DropsOnLine(full, keep) && SameScale(Partly(full, keep, k), full)
    ensures SameScale(Partly(full, keep, k + 1), full)
  {
    if keep[k] {
      PartlyKept(full, keep, k);
    } else {
      var table, c := Partly(full, keep, k), |Chosen(full, keep, k)|;
      PartlyDropped(full, keep, k);
      WithoutIsTable(table, c);
      forall v ensures Interpolated(Partly(full, keep, k + 1), Time, v, Pos) == Interpolated(full, Time, v, Pos) {
        DropKeeps(table, c, v);
      }
    }
  }

  lemma {:induction false} PartlySame(full: seq<Entry>, keep: seq<bool>, k: nat)
    requires k <= |full| == |keep| && DropsOnLine(full, keep) && IsTable(full)
    ensures SameScale(Partly(full, keep, k), full)
  {
    if k == 0 {
      assert Partly(full, keep, 0) == full;
    } else {
      PartlySame(full, keep, k - 1);
      PartlyStep(full, keep, k - 1);
    }
  }

  // ----- Items halfway between their neighbours

  predicate Midpoint(items: seq<real>, i: nat)
    requires 0 < i < |items| - 1
  {
    items[i + 1] + items[i - 1] == 2.0 * items[i]
  }

  /** Every item left out lies exactly halfway between its neighbours. */
  ghost predicate DropsOnlyMidpoints(items: seq<real>) {
    forall i: nat | 0 < i < |items| - 1 && !Kept(items, i) :: Midpoint(items, i)
  }

  ghost predicate MidpointsBetween(items: seq<real>, a: nat, i: nat)
    requires i <= |items|
  {
    forall j: nat | a < j < i :: j + 1 < |items| && Midpoint(items, j)
  }

  /** `m` equal steps of `d`. */
  function Steps(m: nat, d: real): real {
    m as real * d
  }

  lemma OneMore(m: nat, d: real)
    ensures Steps(m + 1, d) == Steps(m, d) + d
  {
    assert (m + 1) as real == m as real + 1.0;
  }

  /** Midpoints only occur in an arithmetic progression. */
  lemma {:induction false} Progression(items: seq<real>, a: nat, i: nat)
    requires a + 1 < |items| && a < i < |items| && MidpointsBetween(items, a, i)
    ensures items[i] - items[a] == Steps(i - a, items[a + 1] - items[a])
    ensures items[i] - items[i - 1] == items[a + 1] - items[a]
  {
    var d := items[a + 1] - items[a];
    if a + 1 < i {
      Progression(items, a, i - 1);
      assert Midpoint(items, i - 1);
      OneMore(i - 1 - a, d);
    } else {
      OneMore(0, d);
    }
  }

  lemma DroppedOnLine(items: seq<real>, a: nat, k: nat)
    requires Rising(items) && a < k < |items| - 1 && MidpointsBetween(items, a, k + 1)
    ensures Collinear(Full(items, a), Full(items, k), Full(items, k + 1))
  {
    var d, u := items[a + 1] - items[a], 1.0 / (|items| - 1) as real;
    Progression(items, a, k + 1);
    Progression(items, a, k);
    PosGap(a, k, |items| - 1);
    PosGap(k, k + 1, |items| - 1);
    EqualProducts((k - a) as real, u, d);
  }

  lemma EqualProducts(m: real, u: real, d: real)
    ensures (m * u) * d == (1.0 * u) * (m * d)
  {
  }

  lemma PosGap(a: nat, b: nat, n: nat)
    requires a <= b && n > 0
    ensures b as real / n as real - a as real / n as real == (b - a) as real * (1.0 / n as real)
  {
  }

  lemma FlagsKeepEnds(items: seq<real>)
    requires |items| >= 2
    ensures KeepsEnds(Flags(items))
  {
  }

  lemma MidpointsOnLine(items: seq<real>)
    requires Rising(items) && DropsOnlyMidpoints(items)
    ensures DropsOnLine(FullTable(items), Flags(items))
  {
    var full, keep := FullTable(items), Flags(items);
    FlagsKeepEnds(items);
    forall k: nat | k < |full| && !keep[k] ensures Collinear(full[LastChosen(keep, k)], full[k], full[k + 1]) {
      DroppedAreMidpoints(items, LastChosen(keep, k), k);
      DroppedOnLine(items, LastChosen(keep, k), k);
    }
  }

  lemma DroppedAreMidpoints(items: seq<real>, a: nat, k: nat)
    requires |items| >= 2 && DropsOnlyMidpoints(items) && a < k < |items|
    requires forall j: nat | a < j <= k :: !Flags(items)[j]
    ensures k < |items| - 1 && MidpointsBetween(items, a, k + 1)
  {
    FlagsKeepEnds(items);
    forall j: nat | a < j <= k ensures 0 < j < |items| - 1 && Midpoint(items, j) {
      assert !Flags(items)[j];
      assert !Kept(items, j);
    }
  }

  // ----- The converse: a dropped item that is not a midpoint shows

  lemma ChosenIsTable(full: seq<Entry>, keep: seq<bool>)
    requires |full| == |keep| && KeepsEnds(keep) && IsTable(full)
    ensures var table := Chosen(full, keep, |full|);
      IsTable(table) && table[0] == full[0] && table[|table| - 1] == full[|full| - 1]
  {
    ChosenKeepsEnds(full, keep);
    IndicesRise(keep, |full|);
    ChosenByIndex(full, keep, |full|);
  }

  /** The compressed table is a table again, whatever was dropped, and keeps both ends. */
  lemma CompressedIsTable(items: seq<real>)
    requires Rising(items)
    ensures var table := Compressed(items);
      && IsTable(table)
      && table[0] == Entry(items[0], 0.0) && table[|table| - 1] == Entry(items[|items| - 1], 1.0)
  {
    FullIsTable(items);
    FlagsKeepEnds(items);
    ChosenIsTable(FullTable(items), Flags(items));
    FullEnds(items);
  }

  lemma FullEnds(items: seq<real>)
    requires |items| >= 2
    ensures Full(items, 0) == Entry(items[0], 0.0)
    ensures Full(items, |items| - 1) == Entry(items[|items| - 1], 1.0)
  {
    var n := (|items| - 1) as real;
    assert n / n == 1.0 && 0.0 / n == 0.0;
  }

  lemma FullAtItem(items: seq<real>, i: nat)
    requires Rising(items) && i < |items|
    ensures Interpolated(FullTable(items), Time, items[i], Pos) == Full(items, i).pos
  {
    var full := FullTable(items);
    FullIsTable(items);
    var j := if i == |items| - 1 then i - 1 else i;
    SegmentIrrelevant(full, Time, items[i], j);
    LineAtEnds(full[j], full[j + 1], Time, Pos);
  }

  /** Around a dropped entry the table of the others is one straight line. */
  lemma StraightAcross(full: seq<Entry>, keep: seq<bool>, i: nat) returns (a: Entry, b: Entry)
    requires 0 < i < |full| - 1 && |full| == |keep| && KeepsEnds(keep) && !keep[i] && IsTable(full)
    ensures a.time < b.time
    ensures var table := Chosen(full, keep, |full|);
      |table| >= 2 && forall v | full[i - 1].time <= v <= full[i + 1].time ::
                        Interpolated(table, Time, v, Pos) == Line(a, b, Time, v, Pos)
  {
    var table, c := Chosen(full, keep, |full|), |Chosen(full, keep, i)|;
    ChosenIsTable(full, keep);
    ChosenAround(full, keep, i);
    a, b := table[c - 1], table[c];
    TimesAround(full, LastChosen(keep, i), i, FirstChosen(keep, i + 1));
    forall v | full[i - 1].time <= v <= full[i + 1].time
      ensures Interpolated(table, Time, v, Pos) == Line(a, b, Time, v, Pos)
    {
      SegmentIrrelevant(table, Time, v, c - 1);
    }
  }

  lemma TimesAround(full: seq<Entry>, a: nat, i: nat, b: nat)
    requires IsTable(full) && a < i < b < |full|
    ensures full[a].time <= full[i - 1].time && full[i + 1].time <= full[b].time && full[a].time < full[b].time
  {
    assert full[a].Get(Time) < full[b].Get(Time);
    if a < i - 1 { assert full[a].Get(Time) < full[i - 1].Get(Time); }
    if i + 1 < b { assert full[i + 1].Get(Time) < full[b].Get(Time); }
  }

  lemma EqualSteps(a: Entry, b: Entry, x: real, y: real, z: real)
    requires a.time < b.time && x < y < z
    requires Line(a, b, Time, y, Pos) - Line(a, b, Time, x, Pos) == Line(a, b, Time, z, Pos) - Line(a, b, Time, y, Pos)
    requires Line(a, b, Time, x, Pos) != Line(a, b, Time, y, Pos)
    ensures y - x == z - y
  {
    var s := (b.pos - a.pos) / (b.time - a.time);
    LineBySlope(a, b, s, x);
    LineBySlope(a, b, s, y);
    LineBySlope(a, b, s, z);
    assert s * (y - x) == s * (z - y);
    assert s != 0.0;
    assert s * ((y - x) - (z - y)) == 0.0;
  }

  lemma AgreementShowsMidpoint(items: seq<real>, i: nat)
    requires Rising(items) && i < |items| && !Kept(items, i) && SameScale(Compressed(items), FullTable(items))
    ensures Midpoint(items, i)
  {
    FlagsKeepEnds(items);
    var a, b := StraightAcross(FullTable(items), Flags(items), i);
    LineShowsMidpoint(items, i, a, b);
  }

  lemma LineShowsMidpoint(items: seq<real>, i: nat, a: Entry, b: Entry)
    requires Rising(items) && 0 < i < |items| - 1 && a.time < b.time
    requires forall v | items[i - 1] <= v <= items[i + 1] ::
               Interpolated(FullTable(items), Time, v, Pos) == Line(a, b, Time, v, Pos)
    ensures Midpoint(items, i)
  {
    FullAtItem(items, i - 1);
    FullAtItem(items, i);
    FullAtItem(items, i + 1);
    PosGap(i - 1, i, |items| - 1);
    PosGap(i, i + 1, |items| - 1);
    PosOrder(i - 1, i, |items| - 1);
    EqualSteps(a, b, items[i - 1], items[i], items[i + 1]);
  }

  /** The compressed table interpolates like the complete one at every time if and only if every
      item that was left out lies exactly halfway between its neighbours.  (An item is left out
      already when it equals the rounded midpoint.) */
  lemma CompressionIsExactIff(items: seq<real>)
    requires Rising(items)
    ensures SameScale(Compressed(items), FullTable(items)) <==> DropsOnlyMidpoints(items)
  {
    if DropsOnlyMidpoints(items) {
      FullIsTable(items);
      MidpointsOnLine(items);
      PartlySame(FullTable(items), Flags(items), |items|);
      assert Partly(FullTable(items), Flags(items), |items|) == Compressed(items);
    }
    if SameScale(Compressed(items), FullTable(items)) {
      forall i: nat | 0 < i < |items| - 1 && !Kept(items, i) ensures Midpoint(items, i) {
        AgreementShowsMidpoint(items, i);
      }
    }
  }

  /** Rounding can drop an item that is not a midpoint: 0, 2, 3 loses the item 2. */
  lemma RoundingLosesItem()
    ensures !DropsOnlyMidpoints([0.0, 2.0, 3.0])
  {
    var items := [0.0, 2.0, 3.0];
    assert !Kept(items, 1) && !Midpoint(items, 1);
  }

  /** For rising timestamps the table that is built rises from (min, 0) to (max, 1). */
  lemma BuiltTableIsTable(timestamps: seq<real>, min: real, max: real)
    requires min < max && Sorted(timestamps)
    ensures var table := Compressed(Items(timestamps, min, max));
      IsTable(table) && table[0] == Entry(min, 0.0) && table[|table| - 1] == Entry(max, 1.0)
  {
    ItemsRise(timestamps, min, max);
    CompressedIsTable(Items(timestamps, min, max));
  }
}
