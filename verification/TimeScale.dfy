/** The lookup table of a time scale: binary search, interpolation in both directions, and the
    compression of the table to the entries that break its linearity. */
module TimeScale {
  import opened Wrappers

  datatype Key = Time | Pos

  datatype Entry = Entry(time: real, pos: real) {
    function Get(key: Key): real {
      match key case Time => time case Pos => pos
    }
  }

  ghost predicate Increasing(table: seq<Entry>, key: Key) {
    forall i, j | 0 <= i < j < |table| :: table[i].Get(key) < table[j].Get(key)
  }

  /** A table as `buildLookupTable` makes them: at least two entries, rising in time and in
      position. */
  ghost predicate IsTable(table: seq<Entry>) {
    |table| >= 2 && Increasing(table, Time) && Increasing(table, Pos)
  }

  // ----- Binary search

  datatype Range = Range(lo: Option<Entry>, hi: Option<Entry>)

  /** The value belongs to the segment from entry `j` to entry `j + 1`; the first and the last
      segment extend without end. */
  predicate OnSegment(table: seq<Entry>, key: Key, j: int, value: real) {
    && 0 <= j < |table| - 1
    && (j == 0 || table[j].Get(key) <= value)
    && (j == |table| - 2 || value <= table[j + 1].Get(key))
  }

  /** The entries between which `interpolate$1` interpolates, given a search result. */
  function Ends(table: seq<Entry>, range: Range): (Entry, Entry)
    requires |table| >= 2
  {
    var n := |table|;
    (if range.lo.None? then table[0] else if range.hi.None? then table[n - 2] else range.lo.value,
     if range.lo.None? then table[1] else if range.hi.None? then table[n - 1] else range.hi.value)
  }

  method Lookup(table: seq<Entry>, key: Key, value: real) returns (range: Range, ghost j: nat)
    requires |table| >= 2 && Increasing(table, key)
    ensures OnSegment(table, key, j, value) && Ends(table, range) == (table[j], table[j + 1])
    ensures range.lo.None? || range.hi.None? || range == Range(Some(table[j]), Some(table[j + 1]))
  {
    var lo, hi := 0, |table| - 1;
    var i1 := table[0];
    while lo >= 0 && lo <= hi
      invariant 0 <= lo <= hi + 1 <= |table| && 0 <= hi
      invariant lo > 0 ==> table[lo - 1].Get(key) < value
      invariant hi < |table| - 1 ==> value < table[hi].Get(key)
      invariant lo == |table| ==> i1 == table[|table| - 1]
      decreases hi - lo
    {
      var mid := (lo + hi) / 2;
      var i0 := if mid > 0 then Some(table[mid - 1]) else None;
      i1 := table[mid];
      if i0.None? {
        // the value is before the first entry, or in a table of two entries
        assert table[0].Get(key) < table[1].Get(key);
        return Range(None, Some(i1)), 0;
      } else if i1.Get(key) < value {
        lo := mid + 1;
      } else if i0.value.Get(key) > value {
        hi := mid - 1;
      } else {
        return Range(i0, Some(i1)), mid - 1;
      }
    }
    // the value is after the last entry
    assert table[|table| - 2].Get(key) < table[|table| - 1].Get(key);
    j := |table| - 2;
    range := Range(Some(i1), None);
  }

  // ----- Interpolation

  /** The line through two entries, at `v`. */
  function Line(a: Entry, b: Entry, skey: Key, v: real, tkey: Key): real {
    var span := b.Get(skey) - a.Get(skey);
    var ratio := if span != 0.0 then (v - a.Get(skey)) / span else 0.0;
    a.Get(tkey) + (b.Get(tkey) - a.Get(tkey)) * ratio
  }

  /** The first segment whose end is not before `v`, or the last one. */
  function Segment(table: seq<Entry>, key: Key, v: real, from: nat): (j: nat)
    requires |table| >= 2 && from <= |table| - 2
    ensures from <= j <= |table| - 2
    decreases |table| - from
  {
    if from == |table| - 2 || v <= table[from + 1].Get(key) then from else Segment(table, key, v, from + 1)
  }

  /** Piecewise linear interpolation, by a linear search. */
  function Interpolated(table: seq<Entry>, skey: Key, v: real, tkey: Key): real
    requires |table| >= 2
  {
    var j := Segment(table, skey, v, 0);
    Line(table[j], table[j + 1], skey, v, tkey)
  }

  function Other(key: Key): Key {
    if key.Time? then Pos else Time
  }

  method Interpolate(table: seq<Entry>, skey: Key, v: real, tkey: Key) returns (r: real)
    requires IsTable(table) && tkey == Other(skey)
    ensures r == Interpolated(table, skey, v, tkey)
  {
    ghost var j;
    var range;
    range, j := Lookup(table, skey, v);
    var prev := if range.lo.None? then table[0] else if range.hi.None? then table[|table| - 2] else range.lo.value;
    var next := if range.lo.None? then table[1] else if range.hi.None? then table[|table| - 1] else range.hi.value;
    SegmentIrrelevant(table, skey, v, j);
    r := Along(prev, next, skey, v, tkey);
  }

  /** The arithmetic of `interpolate$1` between its two entries. */
  method Along(prev: Entry, next: Entry, skey: Key, v: real, tkey: Key) returns (r: real)
    ensures r == Line(prev, next, skey, v, tkey)
  {
    var span := next.Get(skey) - prev.Get(skey);
    var ratio := if span != 0.0 then (v - prev.Get(skey)) / span else 0.0;
    var offset := (next.Get(tkey) - prev.Get(tkey)) * ratio;
    r := prev.Get(tkey) + offset;
  }

  // ----- One line

  lemma LineAtEnds(a: Entry, b: Entry, skey: Key, tkey: Key)
    requires a.Get(skey) < b.Get(skey)
    ensures Line(a, b, skey, a.Get(skey), tkey) == a.Get(tkey)
    ensures Line(a, b, skey, b.Get(skey), tkey) == b.Get(tkey)
  {
  }

  lemma RatioOrder(v: real, w: real, span: real)
    requires v < w && span > 0.0
    ensures v / span < w / span
  {
    var rv, rw := v / span, w / span;
    assert (rw - rv) * span == w - v;
  }

  lemma LineIncreases(a: Entry, b: Entry, skey: Key, v: real, w: real, tkey: Key)
    requires a.Get(skey) < b.Get(skey) && a.Get(tkey) < b.Get(tkey) && v < w
    ensures Line(a, b, skey, v, tkey) < Line(a, b, skey, w, tkey)
  {
    var span, rise := b.Get(skey) - a.Get(skey), b.Get(tkey) - a.Get(tkey);
    RatioOrder(v - a.Get(skey), w - a.Get(skey), span);
    var gap := (w - a.Get(skey)) / span - (v - a.Get(skey)) / span;
    assert rise * gap > 0.0;
    assert Line(a, b, skey, w, tkey) - Line(a, b, skey, v, tkey) == rise * gap;
  }

  lemma LineInverts(a: Entry, b: Entry, skey: Key, v: real)
    requires a.time < b.time && a.pos < b.pos
    ensures Line(a, b, Other(skey), Line(a, b, skey, v, Other(skey)), skey) == v
  {
    var tkey := Other(skey);
    var span, rise := b.Get(skey) - a.Get(skey), b.Get(tkey) - a.Get(tkey);
    var ratio := (v - a.Get(skey)) / span;
    assert (rise * ratio) / rise == ratio;
    assert span * ratio == v - a.Get(skey);
  }

  // ----- Segments

  /** Where two segments share a value, both lines give the same result, so that it does not
      matter which of them a search returns. */
  lemma {:induction false} SegmentIrrelevant(table: seq<Entry>, skey: Key, v: real, j: nat)
    requires IsTable(table) && OnSegment(table, skey, j, v)
    ensures var tkey := Other(skey);
      Line(table[j], table[j + 1], skey, v, tkey) == Interpolated(table, skey, v, tkey)
  {
    var k := Segment(table, skey, v, 0);
    SegmentIsFirst(table, skey, v, 0);
    if k < j {
      assert table[k + 1].Get(skey) <= table[j].Get(skey);
      assert k + 1 == j;
      LineAtEnds(table[k], table[k + 1], skey, Other(skey));
      LineAtEnds(table[j], table[j + 1], skey, Other(skey));
    }
  }

  lemma {:induction false} SegmentIsFirst(table: seq<Entry>, skey: Key, v: real, from: nat)
    requires |table| >= 2 && from <= |table| - 2
    ensures var k := Segment(table, skey, v, from);
      && (k == |table| - 2 || v <= table[k + 1].Get(skey))
      && (forall i | from < i <= k :: table[i].Get(skey) < v)
    decreases |table| - from
  {
    if !(from == |table| - 2 || v <= table[from + 1].Get(skey)) {
      SegmentIsFirst(table, skey, v, from + 1);
    }
  }

  lemma SegmentHolds(table: seq<Entry>, skey: Key, v: real)
    requires IsTable(table)
    ensures OnSegment(table, skey, Segment(table, skey, v, 0), v)
  {
    SegmentIsFirst(table, skey, v, 0);
    var k := Segment(table, skey, v, 0);
  }

  // ----- Interpolation is a bijection

  lemma InterpolationIncreases(table: seq<Entry>, skey: Key, v: real, w: real)
    requires IsTable(table) && v < w
    ensures Interpolated(table, skey, v, Other(skey)) < Interpolated(table, skey, w, Other(skey))
  {
    var tkey := Other(skey);
    var j, k := Segment(table, skey, v, 0), Segment(table, skey, w, 0);
    SegmentHolds(table, skey, v);
    SegmentHolds(table, skey, w);
    SegmentIsFirst(table, skey, w, 0);
    if j == k {
      LineIncreases(table[j], table[j + 1], skey, v, w, tkey);
    } else if j < k {
      LineUpTo(table[j], table[j + 1], skey, v, tkey);
      LineIncreases(table[k], table[k + 1], skey, table[k].Get(skey), w, tkey);
      LineAtEnds(table[k], table[k + 1], skey, tkey);
    } else {
      SegmentIsFirst(table, skey, v, 0);
    }
  }

  lemma LineUpTo(a: Entry, b: Entry, skey: Key, v: real, tkey: Key)
    requires a.Get(skey) < b.Get(skey) && a.Get(tkey) < b.Get(tkey)
    ensures v <= b.Get(skey) ==> Line(a, b, skey, v, tkey) <= b.Get(tkey)
    ensures v >= a.Get(skey) ==> Line(a, b, skey, v, tkey) >= a.Get(tkey)
  {
    LineAtEnds(a, b, skey, tkey);
    if v < b.Get(skey) { LineIncreases(a, b, skey, v, b.Get(skey), tkey); }
    if v > a.Get(skey) { LineIncreases(a, b, skey, a.Get(skey), v, tkey); }
  }

  /** Going from time to position and back, or from position to time and back, is the identity,
      inside the table and beyond its ends. */
  lemma InterpolationInverts(table: seq<Entry>, skey: Key, v: real)
    requires IsTable(table)
    ensures var tkey := Other(skey);
      Interpolated(table, tkey, Interpolated(table, skey, v, tkey), skey) == v
  {
    var tkey := Other(skey);
    var j := Segment(table, skey, v, 0);
    SegmentHolds(table, skey, v);
    var p := Line(table[j], table[j + 1], skey, v, tkey);
    LineUpTo(table[j], table[j + 1], skey, v, tkey);
    assert OnSegment(table, tkey, j, p);
    SegmentIrrelevant(table, tkey, p, j);
    LineInverts(table[j], table[j + 1], skey, v);
  }
}
