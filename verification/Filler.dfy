/** The filler plugin: a dataset that fills to another, hidden dataset fills to where that one
    fills instead, and so on.  All targets are resolved in place, in the order of the datasets,
    so that later resolutions already see the results of earlier ones. */
module Filler {

  /** `false`, one of the boundary keywords, or the index of a dataset. */
  datatype Fill = Off | Boundary(keyword: string) | Index(i: int)

  /** A line dataset, or null for the others. */
  datatype Source = Source(visible: bool, fill: Fill) | NoSource

  predicate Has(sources: seq<Source>, i: int) {
    0 <= i < |sources| && sources[i].Source?
  }

  // ----- Resolution

  ghost function Indices(n: nat): (s: set<int>)
    ensures forall i :: i in s <==> 0 <= i < n
  {
    if n == 0 then {} else Indices(n - 1) + {n - 1}
  }

  /** The loop of `resolveTarget`, with the indices visited so far. */
  ghost function Chase(sources: seq<Source>, fill: Fill, visited: set<int>): Fill
    decreases Indices(|sources|) - visited
  {
    match fill
    case Off => Off
    case Boundary(_) => fill
    case Index(i) =>
      if i in visited || !Has(sources, i) then Off
      else if sources[i].visible then fill
      else
        assert i in Indices(|sources|) - visited;
        Chase(sources, sources[i].fill, visited + {i})
  }

  ghost function Resolved(sources: seq<Source>, index: nat, propagate: bool): Fill
    requires Has(sources, index)
  {
    if propagate then Chase(sources, sources[index].fill, {index}) else sources[index].fill
  }

  method ResolveTarget(sources: array<Source>, index: nat, propagate: bool) returns (r: Fill)
    requires Has(sources[..], index)
    ensures r == Resolved(sources[..], index, propagate)
    ensures !propagate ==> r == sources[index].fill
  {
    var fill := sources[index].fill;
    var visited := [index];
    if !propagate { return fill; }
    ghost var seen: set<int> := {index};
    while !fill.Off? && !(fill.Index? && fill.i in visited)
      invariant forall i :: i in visited <==> i in seen
      invariant Chase(sources[..], fill, seen) == Resolved(sources[..], index, propagate)
      decreases Indices(sources.Length) - seen
    {
      if fill.Boundary? { return fill; }
      if !(0 <= fill.i < sources.Length) || sources[fill.i].NoSource? { return Off; }
      var target := sources[fill.i];
      if target.visible { return fill; }
      assert fill.i in Indices(sources.Length) - seen;
      visited, seen := visited + [fill.i], seen + {fill.i};
      fill := target.fill;
    }
    r := Off;
  }

  // ----- Where a chain of fills ends

  /** Following `fill` through hidden sources ends after `k` of them, at `r`. */
  ghost predicate Ends(sources: seq<Source>, fill: Fill, k: nat, r: Fill)
    decreases k
  {
    match fill
    case Off => k == 0 && r == Off
    case Boundary(_) => k == 0 && r == fill
    case Index(i) =>
      if !Has(sources, i) then k == 0 && r == Off
      else if sources[i].visible then k == 0 && r == fill
      else k > 0 && Ends(sources, sources[i].fill, k - 1, r)
  }

  /** Following `fill` ends at `r` after some number of hidden sources. */
  ghost predicate EndsAt(sources: seq<Source>, fill: Fill, r: Fill) {
    exists k: nat :: Ends(sources, fill, k, r)
  }

  /** The chain from `fill` comes by source `i` within `k` steps. */
  ghost predicate ComesBy(sources: seq<Source>, fill: Fill, k: nat, i: int)
    decreases k
  {
    fill.Index? &&
    (fill.i == i ||
     (k > 0 && Has(sources, fill.i) && !sources[fill.i].visible && ComesBy(sources, sources[fill.i].fill, k - 1, i)))
  }

  lemma EndIsUnique(sources: seq<Source>, fill: Fill, k: nat, r: Fill, l: nat, q: Fill)
    requires Ends(sources, fill, k, r) && Ends(sources, fill, l, q)
    ensures k == l && r == q
    decreases k
  {
  }

  lemma EndsAfter(sources: seq<Source>, fill: Fill, k: nat, r: Fill, i: int) returns (l: nat)
    requires Ends(sources, fill, k, r) && ComesBy(sources, fill, k, i)
    ensures l <= k && Ends(sources, Index(i), l, r)
    decreases k
  {
    if fill.i == i { l := k; } else { l := EndsAfter(sources, sources[fill.i].fill, k - 1, r, i); }
  }

  lemma EndIsReached(sources: seq<Source>, fill: Fill, k: nat, i: int)
    requires Ends(sources, fill, k, Index(i))
    ensures ComesBy(sources, fill, k, i) && Has(sources, i) && sources[i].visible
    decreases k
  {
  }

  /** A chain that ends never comes by the same hidden source twice. */
  lemma NoReturn(sources: seq<Source>, i: int, k: nat, r: Fill)
    requires Has(sources, i) && !sources[i].visible && Ends(sources, sources[i].fill, k, r)
    ensures !ComesBy(sources, sources[i].fill, k, i)
  {
    if ComesBy(sources, sources[i].fill, k, i) {
      var l := EndsAfter(sources, sources[i].fill, k, r, i);
      EndIsUnique(sources, Index(i), l, r, k + 1, r);
    }
  }

  lemma {:induction false} ChaseFindsEnd(sources: seq<Source>, fill: Fill, visited: set<int>) returns (k: nat)
    requires Chase(sources, fill, visited) != Off
    ensures Ends(sources, fill, k, Chase(sources, fill, visited))
    ensures forall i | i in visited :: !ComesBy(sources, fill, k, i)
    decreases Indices(|sources|) - visited
  {
    k := 0;
    if fill.Index? && !sources[fill.i].visible {
      assert fill.i in Indices(|sources|) - visited;
      k := ChaseFindsEnd(sources, sources[fill.i].fill, visited + {fill.i});
      k := k + 1;
    }
  }

  lemma {:induction false} EndIsChased(sources: seq<Source>, fill: Fill, visited: set<int>, k: nat, r: Fill)
    requires Ends(sources, fill, k, r)
    requires forall i | i in visited :: !ComesBy(sources, fill, k, i)
    ensures Chase(sources, fill, visited) == r
    decreases k
  {
    if k > 0 {
      NoReturn(sources, fill.i, k - 1, r);
      EndIsChased(sources, sources[fill.i].fill, visited + {fill.i}, k - 1, r);
    }
  }

  /** A source resolves to a boundary or to another dataset exactly when its chain of fills
      through hidden sources ends there; in particular every cycle resolves to `false`. */
  lemma ResolvedIffEnds(sources: seq<Source>, index: nat, r: Fill)
    requires Has(sources, index) && r != Off
    ensures Resolved(sources, index, true) == r <==>
      r != Index(index) && EndsAt(sources, sources[index].fill, r)
  {
    var fill := sources[index].fill;
    if Resolved(sources, index, true) == r {
      var k := ChaseFindsEnd(sources, fill, {index});
      if r == Index(index) { EndIsReached(sources, fill, k, index); }
    }
    if r != Index(index) && EndsAt(sources, fill, r) {
      var k: nat :| Ends(sources, fill, k, r);
      if sources[index].visible {
        if ComesBy(sources, fill, k, index) {
          var l := EndsAfter(sources, fill, k, r, index);
        }
      } else {
        NoReturn(sources, index, k, r);
      }
      EndIsChased(sources, fill, {index}, k, r);
    }
  }

  /** The result is `false`, a boundary keyword, or another, visible dataset. */
  lemma ResolvedShape(sources: seq<Source>, index: nat)
    requires Has(sources, index)
    ensures match Resolved(sources, index, true)
      case Index(i) => i != index && Has(sources, i) && sources[i].visible
      case _ => true
  {
    var r := Resolved(sources, index, true);
    if r.Index? {
      ResolvedIffEnds(sources, index, r);
      var k: nat :| Ends(sources, sources[index].fill, k, r);
      EndIsReached(sources, sources[index].fill, k, r.i);
    }
  }

  // ----- Resolving in place

  /** `now` is `before` with the sources below `n` already resolved. */
  ghost predicate ResolvedBelow(before: seq<Source>, now: seq<Source>, n: nat) {
    |now| == |before| &&
    forall i | 0 <= i < |before| ::
      if i < n && before[i].Source? then now[i] == before[i].(fill := Resolved(before, i, true))
      else now[i] == before[i]
  }

  /** Resolving other sources first does not change where a chain ends. */
  lemma {:induction false} EndsKept(before: seq<Source>, now: seq<Source>, n: nat, fill: Fill, k: nat, r: Fill)
    returns (l: nat)
    requires ResolvedBelow(before, now, n) && r != Off && Ends(before, fill, k, r)
    ensures Ends(now, fill, l, r)
    decreases k
  {
    l := 0;
    if k > 0 {
      var i := fill.i;
      if i < n {
        NoReturn(before, i, k - 1, r);
        if r.Index? { EndIsReached(before, before[i].fill, k - 1, r.i); }
        ResolvedIffEnds(before, i, r);
        assert now[i].fill == r;
        assert Ends(now, r, 0, r);
        l := 1;
      } else {
        l := EndsKept(before, now, n, before[i].fill, k - 1, r);
        l := l + 1;
      }
    }
  }

  lemma {:induction false} EndsGained(before: seq<Source>, now: seq<Source>, n: nat, fill: Fill, k: nat, r: Fill)
    returns (l: nat)
    requires ResolvedBelow(before, now, n) && r != Off && Ends(now, fill, k, r)
    ensures Ends(before, fill, l, r)
    decreases k
  {
    l := 0;
    if k > 0 {
      var i := fill.i;
      if i < n {
        var q := Resolved(before, i, true);
        ResolvedShape(before, i);
        assert Ends(now, q, 0, q);
        EndIsUnique(now, q, 0, q, k - 1, r);
        ResolvedIffEnds(before, i, r);
        var m: nat :| Ends(before, before[i].fill, m, r);
        l := m + 1;
      } else {
        l := EndsGained(before, now, n, before[i].fill, k - 1, r);
        l := l + 1;
      }
    }
  }

  /** Resolving a source after others have been resolved in place gives what resolving it
      against the original fills gives. */
  lemma OrderIrrelevant(before: seq<Source>, now: seq<Source>, n: nat, index: nat)
    requires ResolvedBelow(before, now, n) && n <= index && Has(before, index)
    ensures Resolved(now, index, true) == Resolved(before, index, true)
  {
    var r, q := Resolved(before, index, true), Resolved(now, index, true);
    if r != Off {
      ResolvedIffEnds(before, index, r);
      var k: nat :| Ends(before, before[index].fill, k, r);
      var l := EndsKept(before, now, n, before[index].fill, k, r);
      ResolvedIffEnds(now, index, r);
    } else if q != Off {
      ResolvedIffEnds(now, index, q);
      var k: nat :| Ends(now, now[index].fill, k, q);
      var l := EndsGained(before, now, n, before[index].fill, k, q);
      ResolvedIffEnds(before, index, q);
    }
  }

  /** The second loop of `afterDatasetsUpdate`. */
  method ResolveAll(sources: array<Source>, propagate: bool)
    modifies sources
    ensures forall i | 0 <= i < sources.Length ::
              sources[i] == if old(sources[i]).NoSource? then NoSource
                            else old(sources[i]).(fill := Resolved(old(sources[..]), i, propagate))
    ensures !propagate ==> sources[..] == old(sources[..])
  {
    ghost var before := sources[..];
    for i := 0 to sources.Length
      invariant if propagate then ResolvedBelow(before, sources[..], i) else sources[..] == before
    {
      if sources[i].Source? {
        if propagate { OrderIrrelevant(before, sources[..], i, i); }
        var fill := ResolveTarget(sources, i, propagate);
        sources[i] := sources[i].(fill := fill);
      }
    }
  }
}
