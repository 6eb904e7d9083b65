/** `:nth-child(an+b)`: the index of an element among its element siblings, found by a search
    that resumes from the position cached on the parent by an earlier query of the same run. */
module NthChild {
  import opened Wrappers

  /** The 1-based index, among the elements, of the last of the first `k` child nodes. */
  function Rank(children: seq<bool>, k: nat): nat
    requires k <= |children|
  {
    if k == 0 then 0 else Rank(children, k - 1) + (if children[k - 1] then 1 else 0)
  }

  /** What a query leaves on the parent: the run, the position and the index of the element. */
  datatype CacheEntry = CacheEntry(dirruns: nat, nodeIndex: nat, diff: nat)

  /** A parent node: for each child node whether it is an element, and its cache. */
  class Parent {
    const children: seq<bool>
    var cache: Option<CacheEntry>

    constructor (children: seq<bool>)
      ensures this.children == children && forall run :: CacheOk(run)
    {
      this.children, cache := children, None;
    }

    /** An entry of the given run tells the index of the element at its position. */
    ghost predicate CacheOk(dirruns: nat) reads this {
      cache.Some? && cache.value.dirruns == dirruns ==>
        && cache.value.nodeIndex < |children| && children[cache.value.nodeIndex]
        && cache.value.diff == Rank(children, cache.value.nodeIndex + 1)
    }

    /** Seeks `elem` from the cached position, and once more from the first child when it is not
        found behind it. */
    method Seek(elem: nat, dirruns: nat) returns (diff: nat, ghost steps: nat)
      requires elem < |children| && children[elem] && CacheOk(dirruns)
      modifies this
      ensures CacheOk(dirruns)
      ensures diff == Rank(children, elem + 1) && cache == Some(CacheEntry(dirruns, elem, diff))
      ensures steps <= 2 * |children|
    {
      var nodeIndex: nat, node: Option<nat> := 0, None;
      diff := 0;
      if cache.Some? && cache.value.dirruns == dirruns {
        nodeIndex := cache.value.nodeIndex;
        if nodeIndex != 0 {
          diff, node := cache.value.diff, Some(nodeIndex);
        }
      }
      var start := [0];  // the first child, as long as it has not been taken
      steps := 0;
      while true
        invariant |start| <= 1 && (start != [] ==> start == [0])
        invariant node.Some? ==> node.value == nodeIndex < |children| && diff == Rank(children, nodeIndex + 1)
        invariant node.None? ==> start != []
        invariant start == [] ==> node.Some? && node.value < elem
        invariant steps <= (if start == [] then |children| else 0) + (if node.Some? then node.value + 1 else 0)
        decreases |start|, |children| - (if node.Some? then node.value else 0)
      {
        nodeIndex := nodeIndex + 1;
        if node.Some? && node.value + 1 < |children| {
          node := Some(node.value + 1);
        } else {
          diff, nodeIndex := 0, 0;
          node, start := Some(start[0]), [];
        }
        steps := steps + 1;
        if children[node.value] {
          diff := diff + 1;
          if node.value == elem {
            cache := Some(CacheEntry(dirruns, nodeIndex, diff));
            return;
          }
        }
      }
    }

    /** The matcher made for `:nth-child(an+b)`, with `first` = a and `last` = b. */
    method Matches(elem: nat, dirruns: nat, first: int, last: int) returns (b: bool)
      requires elem < |children| && children[elem] && CacheOk(dirruns)
      modifies this
      ensures CacheOk(dirruns)
      ensures b <==> InCycle(Rank(children, elem + 1), first, last)
    {
      if first == 1 && last == 0 {
        EveryElementInCycle(children, elem);
        return true;
      }
      ghost var steps;
      var diff;
      diff, steps := Seek(elem, dirruns);
      b := CycleTest(diff - last, first);
      CycleTestIff(diff, first, last);
    }
  }

  // ----- The cycle test

  /** The remainder of JavaScript, which has the sign of the dividend. */
  function Remainder(a: int, b: int): int
    requires b != 0
  {
    if a < 0 then -(Abs(a) % Abs(b)) else Abs(a) % Abs(b)
  }

  /** `diff === first || ( diff % first === 0 && diff / first >= 0 )`, where dividing by zero
      gives no number, or an infinite one. */
  predicate CycleTest(diff: int, first: int) {
    diff == first || (first != 0 && Remainder(diff, first) == 0 && (diff == 0 || (diff > 0 <==> first > 0)))
  }

  /** `index` is a*n + b for some n >= 0 (section 6.6.5.2 of Selectors Level 3). */
  ghost predicate InCycle(index: int, a: int, b: int) {
    exists n: nat :: index == Term(a, b, n)
  }

  function Term(a: int, b: int, n: nat): int {
    a * n + b
  }

  function Abs(x: int): nat {
    if x < 0 then -x else x
  }

  /** The quotient of JavaScript when there is no remainder. */
  function ExactQuotient(a: int, b: int): int
    requires b != 0
  {
    if (a < 0) == (b < 0) then Abs(a) / Abs(b) else -(Abs(a) / Abs(b))
  }

  lemma RemainderZeroDivides(a: int, b: int)
    requires b != 0 && Remainder(a, b) == 0
    ensures a == b * ExactQuotient(a, b)
  {
    DivideExactly(Abs(a), Abs(b));
    SignedQuotient(a, b, Abs(a) / Abs(b));
  }

  lemma DivideExactly(x: nat, y: nat)
    requires y != 0 && x % y == 0
    ensures x == y * (x / y)
  {
  }

  lemma SignedQuotient(a: int, b: int, q: int)
    requires Abs(a) == Abs(b) * q
    ensures a == b * (if (a < 0) == (b < 0) then q else -q)
  {
    ProductSigns(b, q);
  }

  lemma ProductSigns(b: int, q: int)
    ensures b * -q == -(b * q) && -b * q == -(b * q)
  {
  }

  lemma MultipleHasNoRemainder(b: int, n: int)
    requires b != 0
    ensures Remainder(b * n, b) == 0
  {
    ProductSigns(b, n);
    MultipleModulo(Abs(b), if (b * n < 0) == (b < 0) then n else -n);
  }

  lemma MultipleModulo(y: nat, m: int)
    requires y > 0 && y * m >= 0
    ensures y * m % y == 0
  {
    var q, r := y * m / y, y * m % y;
    assert y * m == y * q + r;
    assert y * (m - q) == r;
    ProductAtLeast(y, m - q);
  }

  lemma ProductAtLeast(y: int, k: int)
    requires y > 0
    ensures k >= 1 ==> y * k >= y
    ensures k <= -1 ==> y * k <= -y
  {
  }

  lemma CycleTestIff(index: int, a: int, b: int)
    ensures CycleTest(index - b, a) <==> InCycle(index, a, b)
  {
    var diff := index - b;
    if CycleTest(diff, a) {
      if diff == a {
        assert index == Term(a, b, 1);
      } else {
        RemainderZeroDivides(diff, a);
        assert index == Term(a, b, ExactQuotient(diff, a));
      }
    }
    if InCycle(index, a, b) {
      var n: nat :| index == Term(a, b, n);
      if a != 0 {
        MultipleHasNoRemainder(a, n);
        SignOfProduct(a, n);
      }
    }
  }

  lemma SignOfProduct(a: int, n: nat)
    requires a != 0
    ensures a * n == 0 || (a * n > 0 <==> a > 0)
  {
  }

  lemma EveryElementInCycle(children: seq<bool>, elem: nat)
    requires elem < |children|
    ensures InCycle(Rank(children, elem + 1), 1, 0)
  {
    assert Rank(children, elem + 1) == Term(1, 0, Rank(children, elem + 1));
  }
}
