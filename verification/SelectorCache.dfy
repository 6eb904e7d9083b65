/** Running compiled matchers with the cache of Sizzle's `addCombinator`.

    Every node visited by a walk to all ancestors or preceding siblings gets, in its slot for the
    direction, the one cell of that walk: so a later walk that meets the slot can stop there.
    The cell is filled in as the walk goes on, and nested walks of other combinators overwrite
    each other's slots. */
module SelectorCache {
  import opened Wrappers
  import opened Selectors

  /** The array `newCache`: the run, the combinator, and the result so far. */
  class Cell {
    const run: nat
    const doneName: nat
    var value: Option<bool>

    constructor (run: nat, doneName: nat)
      ensures this.run == run && this.doneName == doneName && value == None
    {
      this.run, this.doneName, value := run, doneName, None;
    }
  }

  datatype Slot = Slot(node: int, dir: Dir)

  // ----- Cache names

  /** The names of the caching combinators inside a matcher. */
  ghost function Names(m: Matcher): set<nat> {
    match m
    case Combined(inner, _, _, doneName) => Names(inner) + {doneName}
    case All(ms) => set i, name | 0 <= i < |ms| && name in Names(ms[i]) :: name
    case Rooted(_, one, many) => Names(one) + Names(many)
    case _ => {}
  }

  /** Each name used in `m` stands for one combinator, and none occurs inside itself. */
  ghost predicate Registered(names: map<nat, Matcher>, m: Matcher) {
    match m
    case Combined(inner, _, _, doneName) =>
      doneName in names && names[doneName] == m && doneName !in Names(inner) && Registered(names, inner)
    case All(ms) => forall i | 0 <= i < |ms| :: Registered(names, ms[i])
    case Rooted(_, one, many) => Registered(names, one) && Registered(names, many)
    case _ => true
  }

  /** The caches of a document: the counter of matching runs and the slots on the nodes. */
  class Caches {
    var dirruns: nat
    var slots: map<Slot, Cell>

    /** No cell comes from the future. */
    ghost predicate Valid() reads this, slots.Values {
      forall s | s in slots :: slots[s].run <= dirruns
    }

    /** What a cell of the current run says, unless its combinator is still walking, is the
        result of the walk that starts with its node. */
    ghost predicate Good(env: Env, names: map<nat, Matcher>, active: set<nat>)
      reads this, slots.Values
    {
      forall s | s in slots && slots[s].run == dirruns :: CellGood(env, names, active, s, slots[s])
    }

    static ghost predicate CellGood(env: Env, names: map<nat, Matcher>, active: set<nat>, s: Slot, c: Cell)
      reads c
    {
      && c.doneName in names && names[c.doneName].Combined?
      && (c.doneName !in active ==>
            && env.dom.IsNode(s.node)
            && s.dir == names[c.doneName].comb.Dir()
            && c.value == Some(WalkFrom(env, names[c.doneName], s.node)))
    }

    constructor ()
      ensures Valid() && slots == map[]
    {
      dirruns, slots := 0, map[];
    }

    /** Begins a matching run: cells of earlier runs no longer count. */
    method NewRun()
      requires Valid()
      modifies `dirruns
      ensures Valid() && dirruns == old(dirruns) + 1
      ensures forall env, names, active :: Good(env, names, active)
    {
      dirruns := dirruns + 1;
    }

    /** Slots are only changed to new cells of this run, named after combinators of `m`. */
    twostate predicate OnlyNew(names: set<nat>)
      reads this, slots.Values
    {
      && dirruns == old(dirruns)
      && forall s | s in slots ::
           if fresh(slots[s]) then slots[s].run == dirruns && slots[s].doneName in names
           else s in old(slots) && slots[s] == old(slots)[s]
    }

    method Match(env: Env, m: Matcher, n: int, ghost names: map<nat, Matcher>, ghost active: set<nat>)
      returns (b: bool)
      requires env.dom.IsNode(n)
      requires Registered(names, m) && Names(m) !! active
      requires Valid() && Good(env, names, active)
      modifies `slots
      ensures b == Accepts(env, m, n)
      ensures Valid() && Good(env, names, active) && OnlyNew(Names(m))
      decreases m
    {
      match m
      case IsContext => b := env.context.Has(n);
      case Test(id) => b := env.holds(id, n);
      case All(ms) =>
        var i := |ms|;
        while i > 0
          invariant 0 <= i <= |ms|
          invariant forall j | i <= j < |ms| :: Accepts(env, ms[j], n)
          invariant Valid() && Good(env, names, active) && OnlyNew(Names(m))
        {
          i := i - 1;
          label Before:
          var r := Match(env, ms[i], n, names, active);
          if !r { return false; }
        }
        b := true;
      case Rooted(leading, one, many) =>
        if !leading && (env.xml || !env.atOutermost) { return true; }
        b := Match(env, if env.context.One? then one else many, n, names, active);
      case Combined(inner, comb, base, doneName) =>
        if comb.First() {
          b := MatchFirst(env, m, n, names, active);
        } else if env.xml {
          b := MatchUncached(env, m, n, names, active);
        } else {
          b := MatchAll(env, m, n, names, active);
        }
    }

    method MatchFirst(env: Env, m: Matcher, n: int, ghost names: map<nat, Matcher>, ghost active: set<nat>)
      returns (b: bool)
      requires env.dom.IsNode(n) && m.Combined? && m.comb.First()
      requires Registered(names, m) && Names(m) !! active
      requires Valid() && Good(env, names, active)
      modifies `slots
      ensures b == Walk(env, m, n)
      ensures Valid() && Good(env, names, active) && OnlyNew(Names(m))
      decreases m, 0
    {
      var elem := Next(env.dom, n, m.comb.Dir());
      while elem >= 0
        invariant -1 <= elem < n
        invariant Walk(env, m, n) == (elem >= 0 && WalkFrom(env, m, elem))
        invariant Valid() && Good(env, names, active) && OnlyNew({})
      {
        if Counts(env, m, elem) {
          b := Match(env, m.inner, elem, names, active);
          return;
        }
        elem := Next(env.dom, elem, m.comb.Dir());
      }
      b := false;
    }

    /** XML nodes carry no caches. */
    method MatchUncached(env: Env, m: Matcher, n: int, ghost names: map<nat, Matcher>, ghost active: set<nat>)
      returns (b: bool)
      requires env.dom.IsNode(n) && m.Combined? && !m.comb.First()
      requires Registered(names, m) && Names(m) !! active
      requires Valid() && Good(env, names, active)
      modifies `slots
      ensures b == Walk(env, m, n)
      ensures Valid() && Good(env, names, active) && OnlyNew(Names(m))
      decreases m, 0
    {
      var elem := Next(env.dom, n, m.comb.Dir());
      while elem >= 0
        invariant -1 <= elem < n
        invariant Walk(env, m, n) == (elem >= 0 && WalkFrom(env, m, elem))
        invariant Valid() && Good(env, names, active) && OnlyNew(Names(m))
      {
        if Counts(env, m, elem) {
          b := Match(env, m.inner, elem, names, active);
          if b { return; }
        }
        elem := Next(env.dom, elem, m.comb.Dir());
      }
      b := false;
    }

    /** The state of a walk for the result `Walk(env, m, n)` before it considers `elem`: every
        slot that holds its cell belongs to a visited node, whose own walk has the same result. */
    ghost predicate Walking(env: Env, m: Matcher, n: int, elem: int, cell: Cell,
                            names: map<nat, Matcher>, active: set<nat>)
      requires env.dom.IsNode(n) && m.Combined?
      reads this, slots.Values
    {
      && Valid() && Good(env, names, active + {m.doneName})
      && (forall s | s in slots && slots[s] == cell ::
            && env.dom.IsNode(s.node) && elem < s.node && s.dir == m.comb.Dir()
            && cell.value == Some(false) && WalkFrom(env, m, s.node) == Walk(env, m, n))
      && (forall s | s in slots && slots[s] != cell && slots[s].run == dirruns ::
            CellGood(env, names, active, s, slots[s]))
    }

    method MatchAll(env: Env, m: Matcher, n: int, ghost names: map<nat, Matcher>, ghost active: set<nat>)
      returns (b: bool)
      requires env.dom.IsNode(n) && m.Combined? && !m.comb.First()
      requires Registered(names, m) && Names(m) !! active
      requires Valid() && Good(env, names, active)
      modifies `slots
      ensures b == Walk(env, m, n)
      ensures Valid() && Good(env, names, active) && OnlyNew(Names(m))
      decreases m, 1
    {
      var dir := m.comb.Dir();
      var newCache := new Cell(dirruns, m.doneName);
      var elem := Next(env.dom, n, dir);
      while elem >= 0
        invariant -1 <= elem < n
        invariant Walk(env, m, n) == (elem >= 0 && WalkFrom(env, m, elem))
        invariant Walking(env, m, n, elem, newCache, names, active) && OnlyNew(Names(m))
        invariant fresh(newCache) && newCache.run == dirruns && newCache.doneName == m.doneName
      {
        if Counts(env, m, elem) {
          var slot := Slot(elem, dir);
          if slot in slots && slots[slot].run == dirruns && slots[slot].doneName == m.doneName {
            newCache.value := slots[slot].value;
            return slots[slot].value == Some(true);
          }
          b := Visit(env, m, n, elem, newCache, names, active);
          if b { return; }
        }
        elem := Next(env.dom, elem, dir);
      }
      b := false;
    }

    /** Puts the walk's cell on a counting node and asks the inner matcher. */
    method Visit(env: Env, m: Matcher, n: int, elem: int, newCache: Cell,
                 ghost names: map<nat, Matcher>, ghost active: set<nat>)
      returns (b: bool)
      requires env.dom.IsNode(n) && 0 <= elem < n && m.Combined? && !m.comb.First() && Counts(env, m, elem)
      requires Registered(names, m) && Names(m) !! active
      requires Walking(env, m, n, elem, newCache, names, active)
      requires newCache.run == dirruns && newCache.doneName == m.doneName
      requires Walk(env, m, n) == WalkFrom(env, m, elem)
      modifies `slots, newCache
      ensures b == Accepts(env, m.inner, elem)
      ensures b ==> Valid() && Good(env, names, active)
      ensures !b ==> Walking(env, m, n, elem - 1, newCache, names, active)
      ensures dirruns == old(dirruns)
      ensures forall s | s in slots ::
                if fresh(slots[s]) then slots[s].run == dirruns && slots[s].doneName in Names(m.inner)
                else slots[s] == newCache || (s in old(slots) && slots[s] == old(slots)[s])
      decreases m, 0
    {
      slots := slots[Slot(elem, m.comb.Dir()) := newCache];
      b := Match(env, m.inner, elem, names, active + {m.doneName});
      newCache.value := Some(b);
    }

    /** The super matcher of a selector group, with element matchers only: one run over `elems`,
        collecting the elements that some matcher of the group accepts. */
    method Select(env: Env, group: seq<Matcher>, elems: seq<int>, ghost names: map<nat, Matcher>)
      returns (results: seq<int>)
      requires forall i | 0 <= i < |elems| :: env.dom.IsNode(elems[i])
      requires forall i | 0 <= i < |group| :: Registered(names, group[i])
      requires Valid()
      modifies this
      ensures Valid()
      ensures results == Selected(env, group, elems)
    {
      NewRun();
      results := [];
      var i := 0;
      while i != |elems|
        invariant 0 <= i <= |elems|
        invariant results == Selected(env, group, elems[..i])
        invariant Valid() && Good(env, names, {})
      {
        var j, matched := 0, false;
        while j < |group| && !matched
          invariant 0 <= j <= |group|
          invariant matched ==> j > 0 && Accepts(env, group[j - 1], elems[i])
          invariant !matched ==> forall k | 0 <= k < j :: !Accepts(env, group[k], elems[i])
          invariant Valid() && Good(env, names, {})
        {
          matched := Match(env, group[j], elems[i], names, {});
          j := j + 1;
        }
        assert elems[..i + 1][..i] == elems[..i];
        if matched { results := results + [elems[i]]; }
        i := i + 1;
      }
      assert elems[..i] == elems;
    }
  }

  predicate AcceptedBySome(env: Env, group: seq<Matcher>, n: int)
    requires env.dom.IsNode(n)
  {
    exists k | 0 <= k < |group| :: Accepts(env, group[k], n)
  }

  function Selected(env: Env, group: seq<Matcher>, elems: seq<int>): seq<int>
    requires forall i | 0 <= i < |elems| :: env.dom.IsNode(elems[i])
  {
    if elems == [] then []
    else
      var last := elems[|elems| - 1];
      Selected(env, group, elems[..|elems| - 1]) + (if AcceptedBySome(env, group, last) then [last] else [])
  }

  // ----- The compiler gives every combinator its own cache name

  lemma RegisteredElsewhere(names: map<nat, Matcher>, names': map<nat, Matcher>, m: Matcher)
    requires Registered(names, m)
    requires forall k | k in Names(m) && k in names :: k in names' && names'[k] == names[k]
    ensures Registered(names', m)
  {
    match m
    case Combined(inner, _, _, _) => RegisteredElsewhere(names, names', inner);
    case All(ms) =>
      forall i | 0 <= i < |ms| ensures Registered(names', ms[i]) {
        RegisteredElsewhere(names, names', ms[i]);
      }
    case Rooted(_, one, many) =>
      RegisteredElsewhere(names, names', one);
      RegisteredElsewhere(names, names', many);
    case _ =>
  }

  ghost predicate NamedBetween(names: map<nat, Matcher>, m: Matcher, lo: nat, hi: nat) {
    Registered(names, m) && forall k | k in Names(m) :: lo <= k < hi
  }

  lemma ElementMatcherNamed(names: map<nat, Matcher>, ms: seq<Matcher>, lo: nat, hi: nat)
    requires ms != [] && forall i | 0 <= i < |ms| :: NamedBetween(names, ms[i], lo, hi)
    ensures NamedBetween(names, ElementMatcher(ms), lo, hi)
  {
  }

  lemma {:induction false} CollectedNamed(tokens: seq<Token>, i: nat, done: nat) returns (names: map<nat, Matcher>)
    requires tokens != [] && Start(tokens) <= i <= |tokens|
    ensures var (ms, next) := Collected(tokens, i, done);
      && done <= next
      && (forall k | k in names :: done <= k < next)
      && (forall j | 0 <= j < |ms| :: NamedBetween(names, ms[j], done, next))
    decreases i
  {
    if i == Start(tokens) {
      var root := RootMatcher(LeadingCombinator(tokens), done);
      names := map[done := root.one, done + 1 := root.many];
      assert Names(IsContext) == {};
      assert Names(root.one) == {done} + Names(IsContext) && Names(root.many) == {done + 1} + Names(IsContext);
      assert Registered(names, root.one) && Registered(names, root.many);
    } else {
      names := CollectedNamed(tokens, i - 1, done);
      var (ms, next) := Collected(tokens, i - 1, done);
      match tokens[i - 1]
      case Filter(id) =>
      case Relative(comb) =>
        var m := Combined(ElementMatcher(ms), comb, false, next);
        ElementMatcherNamed(names, ms, done, next);
        RegisteredElsewhere(names, names[next := m], m.inner);
        names := names[next := m];
        assert NamedBetween(names, m, done, next + 1);
    }
  }

  lemma CompiledNamed(tokens: seq<Token>, done: nat) returns (names: map<nat, Matcher>)
    requires tokens != []
    ensures var (m, next) := Compiled(tokens, done);
      done <= next && NamedBetween(names, m, done, next) && forall k | k in names :: done <= k < next
  {
    names := CollectedNamed(tokens, |tokens|, done);
    var (ms, next) := Collected(tokens, |tokens|, done);
    ElementMatcherNamed(names, ms, done, next);
  }

  /** Compiles a selector group. */
  method CompileGroup(groups: seq<seq<Token>>, done: nat)
    returns (ms: seq<Matcher>, done': nat, ghost names: map<nat, Matcher>)
    requires forall i | 0 <= i < |groups| :: groups[i] != []
    ensures |ms| == |groups| && forall i | 0 <= i < |ms| :: Registered(names, ms[i])
    ensures forall env: Env, i, n | 0 <= i < |groups| && env.dom.IsNode(n) ::
              Accepts(env, ms[i], n) <==> Matches(env, groups[i], n)
  {
    ms, done', names := [], done, map[];
    for i := 0 to |groups|
      invariant |ms| == i && forall k | k in names :: k < done'
      invariant forall j | 0 <= j < i :: NamedBetween(names, ms[j], 0, done')
      invariant forall env: Env, j, n | 0 <= j < i && env.dom.IsNode(n) ::
                  Accepts(env, ms[j], n) <==> Matches(env, groups[j], n)
    {
      ghost var more := CompiledNamed(groups[i], done');
      var m, next := MatcherFromTokens(groups[i], done');
      forall j | 0 <= j < i ensures NamedBetween(names + more, ms[j], 0, next) {
        RegisteredElsewhere(names, names + more, ms[j]);
      }
      RegisteredElsewhere(more, names + more, m);
      forall env: Env, n | env.dom.IsNode(n) ensures Accepts(env, m, n) <==> Matches(env, groups[i], n) {
        CompiledAccepts(env, groups[i], done', n);
      }
      ms, done', names := ms + [m], next, names + more;
    }
  }

  /** Some selector of the group matches the node. */
  ghost predicate GroupMatches(env: Env, groups: seq<seq<Token>>, n: int) {
    exists k | 0 <= k < |groups| :: Matches(env, groups[k], n)
  }

  /** The elements of `elems`, in order, that match the group. */
  ghost function Matching(env: Env, groups: seq<seq<Token>>, elems: seq<int>): seq<int> {
    if elems == [] then []
    else
      var last := elems[|elems| - 1];
      Matching(env, groups, elems[..|elems| - 1]) + (if GroupMatches(env, groups, last) then [last] else [])
  }

  /** Compiling a group and running it with caches, over any elements in any order and whatever
      earlier runs left in the caches, keeps exactly the elements that match the group. */
  method CompileAndSelect(caches: Caches, env: Env, groups: seq<seq<Token>>, elems: seq<int>, done: nat)
    returns (results: seq<int>, done': nat)
    requires caches.Valid()
    requires forall i | 0 <= i < |elems| :: env.dom.IsNode(elems[i])
    requires forall i | 0 <= i < |groups| :: groups[i] != []
    modifies caches
    ensures caches.Valid()
    ensures results == Matching(env, groups, elems)
  {
    var ms;
    ghost var names;
    ms, done', names := CompileGroup(groups, done);
    results := caches.Select(env, ms, elems, names);
    SelectedMatches(env, ms, groups, elems);
  }

  lemma {:induction false} SelectedMatches(env: Env, ms: seq<Matcher>, groups: seq<seq<Token>>, elems: seq<int>)
    requires |ms| == |groups|
    requires forall i | 0 <= i < |elems| :: env.dom.IsNode(elems[i])
    requires forall i, n | 0 <= i < |groups| && env.dom.IsNode(n) ::
               Accepts(env, ms[i], n) <==> Matches(env, groups[i], n)
    ensures Selected(env, ms, elems) == Matching(env, groups, elems)
  {
    if elems != [] {
      var last := elems[|elems| - 1];
      SelectedMatches(env, ms, groups, elems[..|elems| - 1]);
      assert AcceptedBySome(env, ms, last) <==> GroupMatches(env, groups, last);
    }
  }
}
