/** Sizzle's selector compiler, for selectors without positional pseudos.

    A token list is compiled into nested matchers: the innermost asks whether an element is
    rooted in the context, and each further compound wraps what came before in a walk to
    ancestors or preceding siblings.  Matching an element starts at the rightmost compound. */
module Selectors {
  import opened Wrappers

  // ----- Documents

  datatype Dir = ParentNode | PreviousSibling

  /** The nodes of a document in document order, so that parents and preceding siblings have
      smaller numbers; -1 stands for none. */
  datatype RawDom = Dom(parent: seq<int>, prev: seq<int>, element: seq<bool>) {
    ghost predicate WellFormed() {
      && |parent| == |prev| == |element|
      && (forall i | 0 <= i < |parent| :: -1 <= parent[i] < i)
      && (forall i | 0 <= i < |prev| :: -1 <= prev[i] < i)
    }

    predicate IsNode(n: int) {
      0 <= n < |element|
    }
  }

  type Dom = d: RawDom | d.WellFormed() witness Dom([], [], [])

  function Next(dom: Dom, n: int, dir: Dir): (next: int)
    requires dom.IsNode(n)
    ensures -1 <= next < n
  {
    if dir.ParentNode? then dom.parent[n] else dom.prev[n]
  }

  // ----- Selectors

  datatype Combinator = Child | Descendant | Adjacent | Sibling {
    function Dir(): Dir {
      if Child? || Descendant? then ParentNode else PreviousSibling
    }

    predicate First() {
      Child? || Adjacent?
    }
  }

  /** A combinator, or a simple selector with its number. */
  datatype Token = Relative(comb: Combinator) | Filter(id: int)

  datatype Context = One(node: int) | Many(nodes: seq<int>) {
    predicate Has(n: int) {
      if One? then n == node else n in nodes
    }
  }

  /** What is fixed during one matching run: the document, which nodes each simple selector
      accepts, the context, whether it is the outermost context, and whether nodes are XML. */
  datatype Env = Env(dom: Dom, holds: (int, int) -> bool, context: Context, atOutermost: bool, xml: bool)

  /** The closures made by the compiler. */
  datatype Matcher =
    | IsContext
    | Test(id: int)
    | All(ms: seq<Matcher>)
    | Combined(inner: Matcher, comb: Combinator, base: bool, doneName: nat)
    | Rooted(leading: bool, one: Matcher, many: Matcher)

  // ----- What a matcher accepts, without caches

  predicate Counts(env: Env, m: Matcher, n: int)
    requires m.Combined? && env.dom.IsNode(n)
  {
    env.dom.element[n] || (m.base && m.comb.Dir().ParentNode?)
  }

  predicate Accepts(env: Env, m: Matcher, n: int)
    requires env.dom.IsNode(n)
    decreases m, 2 * n + 3
  {
    match m
    case IsContext => env.context.Has(n)
    case Test(id) => env.holds(id, n)
    case All(ms) => forall i | 0 <= i < |ms| :: Accepts(env, ms[i], n)
    case Combined(_, _, _, _) => Walk(env, m, n)
    case Rooted(leading, one, many) =>
      (!leading && (env.xml || !env.atOutermost)) || Accepts(env, if env.context.One? then one else many, n)
  }

  /** The walk from `n`, not counting `n` itself. */
  predicate Walk(env: Env, m: Matcher, n: int)
    requires m.Combined? && env.dom.IsNode(n)
    decreases m, 2 * n + 1
  {
    var next := Next(env.dom, n, m.comb.Dir());
    next >= 0 && WalkFrom(env, m, next)
  }

  /** The walk that starts by considering `n`. */
  predicate WalkFrom(env: Env, m: Matcher, n: int)
    requires m.Combined? && env.dom.IsNode(n)
    decreases m, 2 * n + 2
  {
    if !Counts(env, m, n) then Walk(env, m, n)
    else if m.comb.First() then Accepts(env, m.inner, n)
    else Accepts(env, m.inner, n) || Walk(env, m, n)
  }

  // ----- The compiler

  /** `elementMatcher` */
  function ElementMatcher(ms: seq<Matcher>): Matcher
    requires ms != []
  {
    if |ms| > 1 then All(ms) else ms[0]
  }

  function LeadingCombinator(tokens: seq<Token>): Option<Combinator>
    requires tokens != []
  {
    if tokens[0].Relative? then Some(tokens[0].comb) else None
  }

  /** The first matcher: the element must be reachable from the context. */
  function RootMatcher(leading: Option<Combinator>, done: nat): Matcher {
    var implicit := if leading.Some? then leading.value else Descendant;
    Rooted(leading.Some?, Combined(IsContext, implicit, true, done), Combined(IsContext, implicit, true, done + 1))
  }

  function Start(tokens: seq<Token>): nat
    requires tokens != []
  {
    if tokens[0].Relative? then 1 else 0
  }

  /** The matchers collected after `i` tokens, and the next free cache name. */
  function Collected(tokens: seq<Token>, i: nat, done: nat): (r: (seq<Matcher>, nat))
    requires tokens != [] && Start(tokens) <= i <= |tokens|
    ensures r.0 != []
  {
    if i == Start(tokens) then
      ([RootMatcher(LeadingCombinator(tokens), done)], done + 2)
    else
      var (ms, next) := Collected(tokens, i - 1, done);
      match tokens[i - 1]
      case Relative(comb) => ([Combined(ElementMatcher(ms), comb, false, next)], next + 1)
      case Filter(id) => (ms + [Test(id)], next)
  }

  function Compiled(tokens: seq<Token>, done: nat): (Matcher, nat)
    requires tokens != []
  {
    var (ms, next) := Collected(tokens, |tokens|, done);
    (ElementMatcher(ms), next)
  }

  method MatcherFromTokens(tokens: seq<Token>, done: nat) returns (m: Matcher, done': nat)
    requires tokens != []
    ensures (m, done') == Compiled(tokens, done)
  {
    var leading := LeadingCombinator(tokens);
    var matchers := [RootMatcher(leading, done)];
    done' := done + 2;
    var i := if leading.Some? then 1 else 0;
    while i < |tokens|
      invariant Start(tokens) <= i <= |tokens|
      invariant (matchers, done') == Collected(tokens, i, done)
    {
      match tokens[i] {
        case Relative(comb) =>
          matchers, done' := [Combined(ElementMatcher(matchers), comb, false, done')], done' + 1;
        case Filter(id) =>
          matchers := matchers + [Test(id)];
      }
      i := i + 1;
    }
    m := ElementMatcher(matchers);
  }

  // ----- The meaning of a selector (section 8 of Selectors Level 3)

  /** `a` is an ancestor, or a preceding sibling, of `n`. */
  predicate Before(dom: Dom, dir: Dir, a: int, n: int)
    requires dom.IsNode(n)
    decreases n
  {
    var next := Next(dom, n, dir);
    next >= 0 && (a == next || Before(dom, dir, a, next))
  }

  /** `a` stands in the stated relation to `n`: any ancestor or preceding sibling that counts,
      or the nearest such. */
  ghost predicate Related(dom: Dom, comb: Combinator, anyNode: bool, a: int, n: int)
    requires dom.IsNode(n)
  {
    && Before(dom, comb.Dir(), a, n) && dom.IsNode(a) && (anyNode || dom.element[a])
    && (comb.First() ==>
          forall b | a < b < n && Before(dom, comb.Dir(), b, n) :: !anyNode && !dom.element[b])
  }

  /** The first element of a chain is where the selector says it is relative to the context; an
      absolute selector is only tied to the context in the outermost context of HTML. */
  ghost predicate InContext(env: Env, leading: Option<Combinator>, n: int)
    requires env.dom.IsNode(n)
  {
    || (leading.None? && (env.xml || !env.atOutermost))
    || exists c | 0 <= c < n && env.context.Has(c) ::
         var comb := if leading.Some? then leading.value else Descendant;
         Related(env.dom, comb, comb.Dir().ParentNode?, c, n)
  }

  /** `chain` gives one node to each compound of the first `i` tokens: consecutive nodes are
      linked by the combinators between the compounds, each node passes the simple selectors of
      its compound, and the first one is rooted in the context. */
  ghost predicate Chain(env: Env, tokens: seq<Token>, i: nat, chain: seq<int>)
    requires tokens != [] && Start(tokens) <= i <= |tokens|
    decreases i
  {
    && chain != [] && env.dom.IsNode(Last(chain))
    && if i == Start(tokens) then |chain| == 1 && InContext(env, LeadingCombinator(tokens), chain[0])
       else
         match tokens[i - 1]
         case Filter(id) => env.holds(id, Last(chain)) && Chain(env, tokens, i - 1, chain)
         case Relative(comb) =>
           var rest := chain[..|chain| - 1];
           Chain(env, tokens, i - 1, rest) && Related(env.dom, comb, false, Last(rest), Last(chain))
  }

  function Last(chain: seq<int>): int
    requires chain != []
  {
    chain[|chain| - 1]
  }

  ghost predicate Matches(env: Env, tokens: seq<Token>, n: int) {
    tokens != [] && exists chain :: Chain(env, tokens, |tokens|, chain) && Last(chain) == n
  }

  // ----- The combinators

  predicate Ancestor(dom: Dom, a: int, n: int)
    requires dom.IsNode(n)
    decreases n
  {
    var parent := dom.parent[n];
    parent >= 0 && (a == parent || Ancestor(dom, a, parent))
  }

  predicate PrecedingSibling(dom: Dom, a: int, n: int)
    requires dom.IsNode(n)
    decreases n
  {
    var prev := dom.prev[n];
    prev >= 0 && (a == prev || PrecedingSibling(dom, a, prev))
  }

  lemma {:induction false} BeforeIs(dom: Dom, a: int, n: int)
    requires dom.IsNode(n)
    ensures Before(dom, ParentNode, a, n) <==> Ancestor(dom, a, n)
    ensures Before(dom, PreviousSibling, a, n) <==> PrecedingSibling(dom, a, n)
    decreases n
  {
    if dom.parent[n] >= 0 { BeforeIs(dom, a, dom.parent[n]); }
    if dom.prev[n] >= 0 { BeforeIs(dom, a, dom.prev[n]); }
  }

  /** The four combinators: any ancestor, the nearest one, any preceding sibling, the nearest one; only
      elements count. */
  lemma CombinatorMeanings(dom: Dom, a: int, n: int)
    requires dom.IsNode(n)
    ensures Related(dom, Descendant, false, a, n) <==> Ancestor(dom, a, n) && dom.IsNode(a) && dom.element[a]
    ensures Related(dom, Child, false, a, n) <==>
      && Ancestor(dom, a, n) && dom.IsNode(a) && dom.element[a]
      && forall b | a < b < n && Ancestor(dom, b, n) :: !dom.element[b]
    ensures Related(dom, Sibling, false, a, n) <==> PrecedingSibling(dom, a, n) && dom.IsNode(a) && dom.element[a]
    ensures Related(dom, Adjacent, false, a, n) <==>
      && PrecedingSibling(dom, a, n) && dom.IsNode(a) && dom.element[a]
      && forall b | a < b < n && PrecedingSibling(dom, b, n) :: !dom.element[b]
  {
    BeforeIs(dom, a, n);
    forall b
      ensures Before(dom, ParentNode, b, n) <==> Ancestor(dom, b, n)
      ensures Before(dom, PreviousSibling, b, n) <==> PrecedingSibling(dom, b, n)
    {
      BeforeIs(dom, b, n);
    }
  }

  /** The child combinator leads to the parent, where that is an element. */
  lemma ChildOfParent(dom: Dom, a: int, n: int)
    requires dom.IsNode(n) && dom.parent[n] >= 0 && dom.element[dom.parent[n]]
    ensures Related(dom, Child, false, a, n) <==> a == dom.parent[n]
  {
    CombinatorMeanings(dom, a, n);
    if Ancestor(dom, a, n) && a != dom.parent[n] { AncestorIsBefore(dom, a, dom.parent[n]); }
    forall b | dom.parent[n] < b < n ensures !Ancestor(dom, b, n) {
      if Ancestor(dom, b, n) { AncestorIsBefore(dom, b, dom.parent[n]); }
    }
  }

  lemma {:induction false} AncestorIsBefore(dom: Dom, a: int, n: int)
    requires dom.IsNode(n)
    ensures Ancestor(dom, a, n) ==> 0 <= a < n
    decreases n
  {
    if dom.parent[n] >= 0 { AncestorIsBefore(dom, a, dom.parent[n]); }
  }

  // ----- Compilation preserves the meaning

  lemma BeforeIsBefore(dom: Dom, dir: Dir, a: int, n: int)
    requires dom.IsNode(n) && Before(dom, dir, a, n)
    ensures 0 <= a < n
    decreases n
  {
  }

  /** How being related unfolds along the walk. */
  lemma RelatedStep(dom: Dom, comb: Combinator, any: bool, a: int, n: int)
    requires dom.IsNode(n)
    ensures var next := Next(dom, n, comb.Dir());
      Related(dom, comb, any, a, n) <==>
        next >= 0 && if a == next then any || dom.element[next]
                     else Related(dom, comb, any, a, next) && !(comb.First() && (any || dom.element[next]))
  {
    var dir := comb.Dir();
    var next := Next(dom, n, dir);
    if next >= 0 {
      forall b | Before(dom, dir, b, next) ensures 0 <= b < next { BeforeIsBefore(dom, dir, b, next); }
      assert Before(dom, dir, next, n);
      forall b ensures Before(dom, dir, b, n) <==> b == next || Before(dom, dir, b, next) { }
    }
  }

  ghost predicate Reaches(env: Env, m: Matcher, a: int, n: int)
    requires m.Combined? && env.dom.IsNode(n)
  {
    && 0 <= a < n && Accepts(env, m.inner, a)
    && Related(env.dom, m.comb, m.base && m.comb.Dir().ParentNode?, a, n)
  }

  /** The walk from `n` succeeds iff it can reach a related node that the inner matcher accepts. */
  lemma {:induction false} WalkFindsRelated(env: Env, m: Matcher, n: int)
    requires m.Combined? && env.dom.IsNode(n)
    ensures Walk(env, m, n) <==> exists a :: Reaches(env, m, a, n)
    decreases n
  {
    var any := m.base && m.comb.Dir().ParentNode?;
    var next := Next(env.dom, n, m.comb.Dir());
    if next >= 0 {
      WalkFindsRelated(env, m, next);
      if Walk(env, m, n) {
        assert WalkFrom(env, m, next);
        if Counts(env, m, next) && Accepts(env, m.inner, next) {
          RelatedStep(env.dom, m.comb, any, next, n);
          assert Reaches(env, m, next, n);
        } else {
          var a :| Reaches(env, m, a, next);
          RelatedStep(env.dom, m.comb, any, a, n);
          assert Reaches(env, m, a, n);
        }
      }
    }
    if exists a :: Reaches(env, m, a, n) {
      var a :| Reaches(env, m, a, n);
      RelatedStep(env.dom, m.comb, any, a, n);
      if a != next {
        BeforeIsBefore(env.dom, m.comb.Dir(), a, next);
        assert Reaches(env, m, a, next);
      }
    }
  }

  predicate AcceptsAll(env: Env, ms: seq<Matcher>, n: int)
    requires env.dom.IsNode(n)
  {
    forall i | 0 <= i < |ms| :: Accepts(env, ms[i], n)
  }

  lemma ElementMatcherAccepts(env: Env, ms: seq<Matcher>, n: int)
    requires ms != [] && env.dom.IsNode(n)
    ensures Accepts(env, ElementMatcher(ms), n) <==> AcceptsAll(env, ms, n)
  {
  }

  lemma RootAccepts(env: Env, leading: Option<Combinator>, done: nat, n: int)
    requires env.dom.IsNode(n)
    ensures Accepts(env, RootMatcher(leading, done), n) <==> InContext(env, leading, n)
  {
    var root := RootMatcher(leading, done);
    var m := if env.context.One? then root.one else root.many;
    WalkFindsRelated(env, m, n);
    var comb := m.comb;
    assert forall c :: Reaches(env, m, c, n) <==>
      0 <= c < n && env.context.Has(c) && Related(env.dom, comb, comb.Dir().ParentNode?, c, n);
  }

  ghost predicate Chained(env: Env, tokens: seq<Token>, i: nat, n: int)
    requires tokens != [] && Start(tokens) <= i <= |tokens|
  {
    exists chain :: Chain(env, tokens, i, chain) && Last(chain) == n
  }

  /** After `i` tokens the collected matchers accept exactly the ends of chains. */
  lemma {:induction false} CollectedAccepts(env: Env, tokens: seq<Token>, i: nat, done: nat, n: int)
    requires tokens != [] && Start(tokens) <= i <= |tokens| && env.dom.IsNode(n)
    ensures AcceptsAll(env, Collected(tokens, i, done).0, n) <==> Chained(env, tokens, i, n)
    decreases i
  {
    if i == Start(tokens) {
      RootAccepts(env, LeadingCombinator(tokens), done, n);
      assert Collected(tokens, i, done).0[0] == RootMatcher(LeadingCombinator(tokens), done);
      if InContext(env, LeadingCombinator(tokens), n) {
        assert Chain(env, tokens, i, [n]) && Last([n]) == n;
      }
    } else {
      var ms := Collected(tokens, i - 1, done).0;
      match tokens[i - 1]
      case Filter(id) =>
        CollectedAccepts(env, tokens, i - 1, done, n);
        FilterAccepts(env, ms, id, n);
        if Chained(env, tokens, i - 1, n) && env.holds(id, n) {
          var chain :| Chain(env, tokens, i - 1, chain) && Last(chain) == n;
          assert Chain(env, tokens, i, chain);
        }
      case Relative(comb) =>
        var m := Collected(tokens, i, done).0[0];
        assert Collected(tokens, i, done).0 == [m];
        WalkFindsRelated(env, m, n);
        if Walk(env, m, n) {
          var a :| Reaches(env, m, a, n);
          CollectedAccepts(env, tokens, i - 1, done, a);
          ElementMatcherAccepts(env, ms, a);
          var rest :| Chain(env, tokens, i - 1, rest) && Last(rest) == a;
          var chain := rest + [n];
          assert chain[..|chain| - 1] == rest;
          assert Chain(env, tokens, i, chain) && Last(chain) == n;
        }
        if Chained(env, tokens, i, n) {
          var chain :| Chain(env, tokens, i, chain) && Last(chain) == n;
          var rest := chain[..|chain| - 1];
          assert Chain(env, tokens, i - 1, rest);
          var a := Last(rest);
          CollectedAccepts(env, tokens, i - 1, done, a);
          ElementMatcherAccepts(env, ms, a);
          BeforeIsBefore(env.dom, comb.Dir(), a, n);
          assert Reaches(env, m, a, n);
        }
    }
  }

  lemma FilterAccepts(env: Env, ms: seq<Matcher>, id: int, n: int)
    requires env.dom.IsNode(n)
    ensures AcceptsAll(env, ms + [Test(id)], n) <==> AcceptsAll(env, ms, n) && env.holds(id, n)
  {
    var all := ms + [Test(id)];
    assert all[|ms|] == Test(id);
    assert forall i | 0 <= i < |ms| :: all[i] == ms[i];
  }

  /** A compiled selector accepts a node iff there is a chain of nodes, one for each compound,
      linked as the combinators say, rooted in the context and ending at the node. */
  lemma CompiledAccepts(env: Env, tokens: seq<Token>, done: nat, n: int)
    requires tokens != [] && env.dom.IsNode(n)
    ensures Accepts(env, Compiled(tokens, done).0, n) <==> Matches(env, tokens, n)
  {
    CollectedAccepts(env, tokens, |tokens|, done, n);
    ElementMatcherAccepts(env, Collected(tokens, |tokens|, done).0, n);
  }
}
