/** Leaving elements out of a sequence. */
module Filtering {
  /** The elements to keep among the first `k`. */
  function Chosen<T>(s: seq<T>, keep: seq<bool>, k: nat): seq<T>
    requires k <= |s| == |keep|
  {
    if k == 0 then [] else Chosen(s, keep, k - 1) + (if keep[k - 1] then [s[k - 1]] else [])
  }

  /** The elements to keep from `k` on. */
  function ChosenFrom<T>(s: seq<T>, keep: seq<bool>, k: nat): seq<T>
    requires k <= |s| == |keep|
    decreases |s| - k
  {
    if k == |s| then [] else (if keep[k] then [s[k]] else []) + ChosenFrom(s, keep, k + 1)
  }

  ghost predicate KeepsEnds(keep: seq<bool>) {
    |keep| >= 2 && keep[0] && keep[|keep| - 1]
  }

  /** The last index before `k` to keep. */
  function LastChosen(keep: seq<bool>, k: nat): (a: nat)
    requires 0 < k <= |keep| && keep[0]
    ensures a < k && keep[a] && forall j | a < j < k :: !keep[j]
  {
    if keep[k - 1] then k - 1 else LastChosen(keep, k - 1)
  }

  /** The first index from `k` on to keep. */
  function FirstChosen(keep: seq<bool>, k: nat): (b: nat)
    requires k < |keep| && keep[|keep| - 1]
    ensures k <= b < |keep| && keep[b] && forall j | k <= j < b :: !keep[j]
    decreases |keep| - k
  {
    if keep[k] then k else FirstChosen(keep, k + 1)
  }

  lemma Regroup<T>(a: seq<T>, b: seq<T>, c: seq<T>)
    ensures a + b + c == a + (b + c)
  {
  }

  lemma {:induction false} ChosenSplits<T>(s: seq<T>, keep: seq<bool>, k: nat)
    requires k <= |s| == |keep|
    ensures Chosen(s, keep, |s|) == Chosen(s, keep, k) + ChosenFrom(s, keep, k)
    decreases |s| - k
  {
    if k < |s| {
      ChosenSplits(s, keep, k + 1);
      Regroup(Chosen(s, keep, k), if keep[k] then [s[k]] else [], ChosenFrom(s, keep, k + 1));
    }
  }

  lemma {:induction false} ChosenEnds<T>(s: seq<T>, keep: seq<bool>, k: nat)
    requires 0 < k <= |s| == |keep| && keep[0]
    ensures var before := Chosen(s, keep, k); before != [] && before[|before| - 1] == s[LastChosen(keep, k)]
  {
    if k > 1 { ChosenEnds(s, keep, k - 1); }
  }

  lemma {:induction false} ChosenFromStarts<T>(s: seq<T>, keep: seq<bool>, k: nat)
    requires k < |s| == |keep| && keep[|keep| - 1]
    ensures ChosenFrom(s, keep, k) != [] && ChosenFrom(s, keep, k)[0] == s[FirstChosen(keep, k)]
    decreases |s| - k
  {
    if !keep[k] { ChosenFromStarts(s, keep, k + 1); }
  }

  lemma Joint<T>(a: seq<T>, b: seq<T>)
    requires a != [] && b != []
    ensures (a + b)[|a| - 1] == a[|a| - 1] && (a + b)[|a|] == b[0]
  {
  }

  /** What stands before and after an element that is left out. */
  lemma ChosenAround<T>(s: seq<T>, keep: seq<bool>, i: nat)
    requires i < |s| == |keep| && KeepsEnds(keep) && !keep[i]
    ensures var all, c := Chosen(s, keep, |s|), |Chosen(s, keep, i)|;
      0 < c < |all| && all[c - 1] == s[LastChosen(keep, i)] && all[c] == s[FirstChosen(keep, i + 1)]
  {
    ChosenSplits(s, keep, i);
    ChosenEnds(s, keep, i);
    ChosenFromStarts(s, keep, i);
    Joint(Chosen(s, keep, i), ChosenFrom(s, keep, i));
    assert FirstChosen(keep, i) == FirstChosen(keep, i + 1);
  }

  lemma ChosenKeepsEnds<T>(s: seq<T>, keep: seq<bool>)
    requires |s| == |keep| && KeepsEnds(keep)
    ensures var all := Chosen(s, keep, |s|); |all| >= 2 && all[0] == s[0] && all[|all| - 1] == s[|s| - 1]
  {
    ChosenSplits(s, keep, 1);
    assert Chosen(s, keep, 1) == [s[0]] by { assert Chosen(s, keep, 0) == []; }
    ChosenFromStarts(s, keep, 1);
    ChosenEnds(s, keep, |s|);
  }

  /** The indices to keep below `k`. */
  function Indices(keep: seq<bool>, k: nat): seq<nat>
    requires k <= |keep|
  {
    if k == 0 then [] else Indices(keep, k - 1) + (if keep[k - 1] then [k - 1] else [])
  }

  lemma {:induction false} IndicesRise(keep: seq<bool>, k: nat)
    requires k <= |keep|
    ensures forall c | 0 <= c < |Indices(keep, k)| :: Indices(keep, k)[c] < k
    ensures forall c, d | 0 <= c < d < |Indices(keep, k)| :: Indices(keep, k)[c] < Indices(keep, k)[d]
  {
    if k > 0 { IndicesRise(keep, k - 1); }
  }

  lemma {:induction false} ChosenByIndex<T>(s: seq<T>, keep: seq<bool>, k: nat)
    requires k <= |s| == |keep|
    ensures |Chosen(s, keep, k)| == |Indices(keep, k)|
    ensures forall c | 0 <= c < |Chosen(s, keep, k)| ::
              Indices(keep, k)[c] < |s| && Chosen(s, keep, k)[c] == s[Indices(keep, k)[c]]
  {
    if k > 0 { ChosenByIndex(s, keep, k - 1); }
  }

  lemma {:induction false} ChosenHas<T>(s: seq<T>, keep: seq<bool>, k: nat, i: nat)
    requires i < k <= |s| == |keep| && keep[i]
    ensures s[i] in Chosen(s, keep, k)
  {
    if i < k - 1 { ChosenHas(s, keep, k - 1, i); }
  }

  lemma {:induction false} ChosenFromKept<T>(s: seq<T>, keep: seq<bool>, k: nat, x: T) returns (i: nat)
    requires k <= |s| == |keep| && x in Chosen(s, keep, k)
    ensures i < k && keep[i] && s[i] == x
  {
    if keep[k - 1] && s[k - 1] == x { i := k - 1; } else { i := ChosenFromKept(s, keep, k - 1, x); }
  }

  // ----- One element after the other

  /** Only the elements before `k` have been considered for leaving out. */
  function Partly<T>(s: seq<T>, keep: seq<bool>, k: nat): seq<T>
    requires k <= |s| == |keep|
  {
    Chosen(s, keep, k) + s[k..]
  }

  function Without<T>(s: seq<T>, i: nat): seq<T>
    requires i < |s|
  {
    s[..i] + s[i + 1..]
  }

  lemma WithoutMiddle<T>(before: seq<T>, after: seq<T>)
    requires after != []
    ensures Without(before + after, |before|) == before + after[1..]
  {
  }

  lemma PartlyKept<T>(s: seq<T>, keep: seq<bool>, k: nat)
    requires k < |s| == |keep| && keep[k]
    ensures Partly(s, keep, k + 1) == Partly(s, keep, k)
  {
    assert s[k..] == [s[k]] + s[k + 1..];
    Regroup(Chosen(s, keep, k), [s[k]], s[k + 1..]);
  }

  lemma PartlyDropped<T>(s: seq<T>, keep: seq<bool>, k: nat)
    requires k < |s| == |keep| && KeepsEnds(keep) && !keep[k]
    ensures var t, c := Partly(s, keep, k), |Chosen(s, keep, k)|;
      && 0 < c < |t| - 1 && Partly(s, keep, k + 1) == Without(t, c)
      && t[c - 1] == s[LastChosen(keep, k)] && t[c] == s[k] && t[c + 1] == s[k + 1]
  {
    ChosenEnds(s, keep, k);
    assert s[k..][1..] == s[k + 1..];
    WithoutMiddle(Chosen(s, keep, k), s[k..]);
    Joint(Chosen(s, keep, k), s[k..]);
  }
}
