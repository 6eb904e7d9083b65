/** What the lookup table of a "series" scale says about its timestamps: they are spread evenly. */
module LookupRanks {
  import opened TimeScale
  import opened LookupTable
  import opened Filtering

  // ----- The items

  lemma {:induction false} InsideIff(timestamps: seq<real>, min: real, max: real, x: real)
    ensures x in Inside(timestamps, min, max) <==> x in timestamps && min < x < max
  {
    if timestamps != [] {
      var rest, last := timestamps[..|timestamps| - 1], timestamps[|timestamps| - 1];
      InsideIff(rest, min, max, x);
      assert timestamps == rest + [last];
    }
  }

  /** The items are the ends of the scale and the timestamps between. */
  lemma ItemsIff(timestamps: seq<real>, min: real, max: real, x: real)
    ensures x in Items(timestamps, min, max) <==> x == min || x == max || (x in timestamps && min < x < max)
  {
    InsideIff(timestamps, min, max, x);
  }

  // ----- Ranks

  /** The timestamps inside the scale. */
  ghost function Inner(timestamps: seq<real>, min: real, max: real): set<real> {
    set t | t in timestamps && min < t < max
  }

  ghost function InnerUpTo(timestamps: seq<real>, min: real, max: real, x: real): set<real> {
    set t | t in timestamps && min < t < max && t <= x
  }

  ghost function Members(xs: seq<real>): set<real> {
    set x | x in xs
  }

  lemma {:induction false} SortedMembers(xs: seq<real>)
    requires Sorted(xs)
    ensures |Members(xs)| == |xs|
  {
    if xs != [] {
      var rest, last := xs[..|xs| - 1], xs[|xs| - 1];
      SortedMembers(rest);
      assert last !in rest;
      assert Members(xs) == Members(rest) + {last} by { assert xs == rest + [last]; }
    }
  }

  lemma InsideUpTo(timestamps: seq<real>, min: real, max: real, k: nat)
    requires min < max && Sorted(timestamps) && k < |Inside(timestamps, min, max)|
    ensures var inside := Inside(timestamps, min, max);
      InnerUpTo(timestamps, min, max, inside[k]) == Members(inside[..k + 1])
  {
    var inside := Inside(timestamps, min, max);
    InsideRises(timestamps, min, max);
    forall t ensures t in InnerUpTo(timestamps, min, max, inside[k]) <==> t in Members(inside[..k + 1]) {
      InsideIff(timestamps, min, max, t);
      if t in inside && t <= inside[k] {
        var j :| 0 <= j < |inside| && inside[j] == t;
        assert j <= k;
        assert inside[..k + 1][j] == t;
      }
      if t in inside[..k + 1] {
        var j :| 0 <= j < k + 1 && inside[..k + 1][j] == t;
        assert inside[j] == t;
      }
    }
  }

  /** The index of an inner item counts the timestamps up to it. */
  lemma ItemRank(timestamps: seq<real>, min: real, max: real, i: nat)
    requires min < max && Sorted(timestamps) && 0 < i < |Items(timestamps, min, max)| - 1
    ensures i == |InnerUpTo(timestamps, min, max, Items(timestamps, min, max)[i])|
  {
    var inside := Inside(timestamps, min, max);
    InsideRises(timestamps, min, max);
    InsideUpTo(timestamps, min, max, i - 1);
    SortedMembers(inside[..i]);
  }

  lemma ItemCount(timestamps: seq<real>, min: real, max: real)
    requires min < max && Sorted(timestamps)
    ensures |Items(timestamps, min, max)| == |Inner(timestamps, min, max)| + 2
  {
    var inside := Inside(timestamps, min, max);
    InsideRises(timestamps, min, max);
    SortedMembers(inside);
    forall t ensures t in Inner(timestamps, min, max) <==> t in Members(inside) {
      InsideIff(timestamps, min, max, t);
    }
    assert Inner(timestamps, min, max) == Members(inside);
  }

  /** Where a timestamp belongs on the scale: the share of the timestamps that it has reached. */
  ghost function Share(timestamps: seq<real>, min: real, max: real, x: real): real {
    |InnerUpTo(timestamps, min, max, x)| as real / (|Inner(timestamps, min, max)| + 1) as real
  }

  lemma FullAtRank(timestamps: seq<real>, min: real, max: real, i: nat)
    requires min < max && Sorted(timestamps) && 0 < i < |Items(timestamps, min, max)| - 1
    ensures var items := Items(timestamps, min, max);
      Full(items, i) == Entry(items[i], Share(timestamps, min, max, items[i]))
  {
    ItemRank(timestamps, min, max, i);
    ItemCount(timestamps, min, max);
  }

  /** The complete table spreads the timestamps evenly. */
  lemma FullTableSpreads(timestamps: seq<real>, min: real, max: real, x: real)
    requires min < max && Sorted(timestamps) && x in timestamps && min < x < max
    ensures Interpolated(FullTable(Items(timestamps, min, max)), Time, x, Pos) == Share(timestamps, min, max, x)
  {
    var items := Items(timestamps, min, max);
    ItemsIff(timestamps, min, max, x);
    var i :| 0 <= i < |items| && items[i] == x;
    ItemsRise(timestamps, min, max);
    FullAtItem(items, i);
    FullAtRank(timestamps, min, max, i);
  }

  /** So does the table that is built, as long as only exact midpoints are left out. */
  lemma BuiltTableSpreads(timestamps: seq<real>, min: real, max: real, x: real)
    requires min < max && Sorted(timestamps) && x in timestamps && min < x < max
    requires DropsOnlyMidpoints(Items(timestamps, min, max))
    ensures var table := Compressed(Items(timestamps, min, max));
      |table| >= 2 && Interpolated(table, Time, x, Pos) == Share(timestamps, min, max, x)
  {
    ItemsRise(timestamps, min, max);
    CompressionIsExactIff(Items(timestamps, min, max));
    FullTableSpreads(timestamps, min, max, x);
  }

  // ----- The entries of the table

  /** A whole number that the mean of its neighbours rounds to. */
  predicate RoundedMean(before: real, x: real, after: real) {
    x == x.Floor as real && x - 0.5 <= (before + after) / 2.0 < x + 0.5
  }

  lemma FloorIs(y: real, n: int)
    requires n as real <= y < n as real + 1.0
    ensures y.Floor == n
  {
  }

  lemma RoundIff(mean: real, x: real)
    ensures Round(mean) as real == x <==> x == x.Floor as real && x - 0.5 <= mean < x + 0.5
  {
    var n := (mean + 0.5).Floor;
    if x == n as real { FloorIs(x, n); }
    if x == x.Floor as real && x - 0.5 <= mean < x + 0.5 { FloorIs(mean + 0.5, x.Floor); }
  }

  lemma DroppedIff(items: seq<real>, i: nat)
    requires 0 < i < |items| - 1
    ensures !Kept(items, i) <==> RoundedMean(items[i - 1], items[i], items[i + 1])
  {
    RoundIff((items[i + 1] + items[i - 1]) / 2.0, items[i]);
  }

  /** Item `i` has its entry in the table: at an end, or where its time is no rounded mean. */
  predicate Entered(items: seq<real>, i: nat)
    requires i < |items|
  {
    i == 0 || i == |items| - 1 || !RoundedMean(items[i - 1], items[i], items[i + 1])
  }

  ghost predicate IsEntryOf(timestamps: seq<real>, min: real, max: real, i: nat, e: Entry)
    requires i < |Items(timestamps, min, max)|
  {
    var items := Items(timestamps, min, max);
    && e.time == items[i] && Entered(items, i)
    && e.pos == if i == 0 then 0.0 else if i == |items| - 1 then 1.0 else Share(timestamps, min, max, items[i])
  }

  lemma EntryAt(timestamps: seq<real>, min: real, max: real, i: nat, e: Entry)
    requires min < max && Sorted(timestamps) && i < |Items(timestamps, min, max)|
    ensures var items := Items(timestamps, min, max);
      Kept(items, i) && e == Full(items, i) <==> IsEntryOf(timestamps, min, max, i, e)
  {
    var items := Items(timestamps, min, max);
    FullEnds(items);
    if 0 < i < |items| - 1 {
      DroppedIff(items, i);
      FullAtRank(timestamps, min, max, i);
    }
  }

  /** The table that is built has exactly the entries of the items that are entered. */
  lemma BuiltTableEntries(timestamps: seq<real>, min: real, max: real, e: Entry)
    requires min < max && Sorted(timestamps)
    ensures e in Compressed(Items(timestamps, min, max)) <==>
      exists i: nat :: i < |Items(timestamps, min, max)| && IsEntryOf(timestamps, min, max, i, e)
  {
    var items := Items(timestamps, min, max);
    if i: nat :| i < |items| && IsEntryOf(timestamps, min, max, i, e) {
      EntryAt(timestamps, min, max, i, e);
      ChosenHas(FullTable(items), Flags(items), |items|, i);
    }
    if e in Compressed(items) {
      var i := ChosenFromKept(FullTable(items), Flags(items), |items|, e);
      EntryAt(timestamps, min, max, i, e);
      assert IsEntryOf(timestamps, min, max, i, e);
    }
  }
}
