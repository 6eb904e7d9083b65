/** The resolution procedure behind `then` (sections 2.3.3.3.3 and 2.3.3.3.4.1 of Promises/A+).

    `promise.then(...)` makes a derived deferred.  When a handler returns a thenable, its `then`
    is called with new resolvers, one generation (`depth`) deeper, and `maxDepth` makes the older
    ones stale.  Thenables may keep every resolver they were ever given, call any of them any
    number of times, from inside or after any `then` call, and throw at the end.  A run is a
    sequence of such calls, returns and throws. */
module ThenResolution {
  import opened Wrappers

  /** What handlers return and resolvers are called with: a value without a callable `then`, a
      thenable, an object whose `then` throws when read, or the derived promise itself. */
  datatype Value =
    | Undefined | Plain(id: int) | Thenable(id: int) | BadThen(id: int)
    | Self | ThrownBy(id: int) | SelfResolution

  /** `this` and the arguments of a resolver call. */
  datatype Payload = Payload(context: int, args: seq<Value>) {
    function First(): Value {
      if args == [] then Undefined else args[0]
    }
  }

  const NO_CONTEXT := 0

  datatype Result = Returns(v: Value) | Throws(e: Value)

  /** The handler of a resolver; a user handler comes with what it does in this call. */
  datatype Handler = Identity | Thrower | UserHandler(result: Result) {
    function Apply(p: Payload): Result {
      match this
      case Identity => Returns(p.First())
      case Thrower => Throws(p.First())
      case UserHandler(result) => result
    }
  }

  datatype Outcome = Resolved(p: Payload) | Rejected(p: Payload)

  /** What one call addressed to a generation says. */
  datatype Verdict = Settle(outcome: Outcome) | Adopt

  datatype Heard = Heard(generation: nat, verdict: Verdict)

  /** `maxDepth`, the derived deferred's outcome and delivered notifications, and the depths of
      the resolvers whose `then` call has not yet returned, innermost last.  `calls` is the
      history of everything said to any generation, stale or not. */
  datatype ThenState = ThenState(maxDepth: nat, outcome: Option<Outcome>, notified: seq<Payload>,
                         frames: seq<nat>, calls: seq<Heard>)

  datatype Event =
    | Call(depth: nat, handler: Handler, payload: Payload)
    | Progress(depth: nat, handler: Handler, payload: Payload)
    | ThenReturns
    | ThenThrows(e: Value)

  const INIT := ThenState(0, None, [], [], [])

  // ----- The derived deferred

  /** `deferred.resolveWith` and `rejectWith`: only the first has an effect. */
  function Conclude(s: ThenState, o: Outcome): ThenState {
    if s.outcome.Some? then s else s.(outcome := Some(o))
  }

  // ----- `process` of a resolver

  /** The catch clause around a resolver of the given depth. */
  function Catch(s: ThenState, depth: nat, handler: Handler, p: Payload, e: Value): ThenState {
    if depth + 1 >= s.maxDepth then
      Conclude(s, Rejected(if handler.Thrower? then p else Payload(NO_CONTEXT, [e])))
    else s
  }

  function Process(s: ThenState, depth: nat, handler: Handler, p: Payload): ThenState {
    if depth < s.maxDepth then s
    else
      match handler.Apply(p)
      case Throws(e) => Catch(s, depth, handler, p, e)
      case Returns(v) =>
        if v.Self? then Catch(s, depth, handler, p, SelfResolution)
        else if v.BadThen? then Catch(s, depth, handler, p, ThrownBy(v.id))
        else if v.Thenable? then s.(maxDepth := s.maxDepth + 1, frames := s.frames + [depth])
        else Conclude(s, Resolved(if handler.Identity? then p else Payload(NO_CONTEXT, [v])))
  }

  /** A progress resolver: not caught, never deepens, notifies unless settled. */
  function Special(s: ThenState, depth: nat, handler: Handler, p: Payload): ThenState {
    if depth < s.maxDepth || s.outcome.Some? then s
    else
      match handler.Apply(p)
      case Throws(_) => s
      case Returns(v) =>
        if v.Self? || v.BadThen? || v.Thenable? then s
        else s.(notified := s.notified + [if handler.Identity? then p else Payload(NO_CONTEXT, [v])])
  }

  /** What a call says by itself, whatever the state of the promise. */
  function VerdictOf(handler: Handler, p: Payload): Verdict {
    match handler.Apply(p)
    case Throws(e) => Settle(Rejected(if handler.Thrower? then p else Payload(NO_CONTEXT, [e])))
    case Returns(v) =>
      match v
      case Thenable(_) => Adopt
      case Self => Settle(Rejected(Payload(NO_CONTEXT, [SelfResolution])))
      case BadThen(id) => Settle(Rejected(Payload(NO_CONTEXT, [ThrownBy(id)])))
      case _ => Settle(Resolved(if handler.Identity? then p else Payload(NO_CONTEXT, [v])))
  }

  // ----- Runs

  /** Resolvers exist up to the current depth, and only a pending `then` call can end. */
  predicate Enabled(s: ThenState, e: Event) {
    match e
    case Call(depth, _, _) => depth <= s.maxDepth
    case Progress(depth, _, _) => depth <= s.maxDepth
    case ThenReturns => s.frames != []
    case ThenThrows(_) => s.frames != []
  }

  function Step(s: ThenState, e: Event): ThenState
    requires Enabled(s, e)
  {
    match e
    case Call(depth, handler, p) =>
      Process(s, depth, handler, p).(calls := s.calls + [Heard(depth, VerdictOf(handler, p))])
    case Progress(depth, handler, p) => Special(s, depth, handler, p)
    case ThenReturns => s.(frames := s.frames[..|s.frames| - 1])
    case ThenThrows(x) =>
      var depth := s.frames[|s.frames| - 1];
      var s1 := s.(frames := s.frames[..|s.frames| - 1],
                   calls := s.calls + [Heard(depth + 1, Settle(Rejected(Payload(NO_CONTEXT, [x]))))]);
      Catch(s1, depth, Identity, Payload(NO_CONTEXT, []), x)
  }

  predicate IsRun(es: seq<Event>)
    decreases |es|, 0
  {
    es == [] || (IsRun(es[..|es| - 1]) && Enabled(Run(es[..|es| - 1]), es[|es| - 1]))
  }

  function Run(es: seq<Event>): ThenState
    requires IsRun(es)
    decreases |es|, 1
  {
    if es == [] then INIT else Step(Run(es[..|es| - 1]), es[|es| - 1])
  }

  // ----- The specification

  datatype Fate = Waiting(generation: nat) | Settled(outcome: Outcome)

  /** Listens to generation `g` until it is first called: what that call says is final. */
  function Follow(calls: seq<Heard>, g: nat): Fate {
    if calls == [] then Waiting(g)
    else if calls[0].generation != g then Follow(calls[1..], g)
    else
      match calls[0].verdict
      case Adopt => Follow(calls[1..], g + 1)
      case Settle(o) => Settled(o)
  }

  lemma {:induction false} FollowAppend(calls: seq<Heard>, g: nat, h: Heard)
    ensures Follow(calls + [h], g) ==
      match Follow(calls, g)
      case Settled(o) => Settled(o)
      case Waiting(w) =>
        if h.generation != w then Waiting(w)
        else if h.verdict.Adopt? then Waiting(w + 1) else Settled(h.verdict.outcome)
  {
    if calls == [] {
      assert (calls + [h])[1..] == [];
    } else {
      assert (calls + [h])[1..] == calls[1..] + [h];
      FollowAppend(calls[1..], g, h);
      FollowAppend(calls[1..], g + 1, h);
    }
  }

  /** The derived deferred stands exactly where the first calls of the generations put it. */
  ghost predicate Inv(s: ThenState) {
    && (forall i | 0 <= i < |s.frames| :: s.frames[i] < s.maxDepth)
    && (forall i | 0 <= i < |s.calls| :: s.calls[i].generation <= s.maxDepth)
    && (match s.outcome
        case None => Follow(s.calls, 0) == Waiting(s.maxDepth)
        case Some(o) => Follow(s.calls, 0) == Settled(o))
  }

  lemma StepKeepsInv(s: ThenState, e: Event)
    requires Inv(s) && Enabled(s, e)
    ensures Inv(Step(s, e))
  {
    if e.Call? {
      FollowAppend(s.calls, 0, Heard(e.depth, VerdictOf(e.handler, e.payload)));
    } else if e.ThenThrows? {
      var depth := s.frames[|s.frames| - 1];
      FollowAppend(s.calls, 0, Heard(depth + 1, Settle(Rejected(Payload(NO_CONTEXT, [e.e])))));
    }
  }

  /** In every run, the outcome of the derived deferred is what the first call of each
      generation decides, as long as those calls only adopt further thenables. */
  lemma {:induction false} OutcomeFollowsFirstCalls(es: seq<Event>)
    requires IsRun(es)
    ensures Inv(Run(es))
  {
    if es != [] {
      OutcomeFollowsFirstCalls(es[..|es| - 1]);
      StepKeepsInv(Run(es[..|es| - 1]), es[|es| - 1]);
    }
  }

  /** The first call addressed to generation `g`, if any. */
  function FirstCall(calls: seq<Heard>, g: nat): int {
    if calls == [] then -1
    else
      var k := FirstCall(calls[..|calls| - 1], g);
      if k >= 0 then k else if calls[|calls| - 1].generation == g then |calls| - 1 else -1
  }

  lemma {:induction false} FirstCallIsFirst(calls: seq<Heard>, g: nat)
    ensures var k := FirstCall(calls, g);
      if k < 0 then forall i | 0 <= i < |calls| :: calls[i].generation != g
      else k < |calls| && calls[k].generation == g && forall i | 0 <= i < k :: calls[i].generation != g
  {
    if calls != [] {
      FirstCallIsFirst(calls[..|calls| - 1], g);
    }
  }

  /** The generations `0..n` were all first called with a thenable, and generation `n` was first
      called with something final. */
  ghost predicate DecidedBy(calls: seq<Heard>, n: nat, o: Outcome) {
    && (forall g: nat | g < n :: FirstCall(calls, g) >= 0 && Says(calls, g) == Adopt)
    && FirstCall(calls, n) >= 0 && Says(calls, n) == Settle(o)
  }

  function Says(calls: seq<Heard>, g: nat): Verdict
    requires FirstCall(calls, g) >= 0
  {
    FirstCallIsFirst(calls, g);
    calls[FirstCall(calls, g)].verdict
  }

  /** Every generation below the current depth was first called with a thenable. */
  ghost predicate Deepened(s: ThenState) {
    forall g: nat | g < s.maxDepth && s.outcome.None? :: FirstCall(s.calls, g) >= 0 && Says(s.calls, g) == Adopt
  }

  ghost predicate Decided(s: ThenState) {
    s.outcome.Some? ==> exists n: nat :: DecidedBy(s.calls, n, s.outcome.value)
  }

  lemma FirstCallAppend(calls: seq<Heard>, h: Heard, g: nat)
    ensures FirstCall(calls + [h], g) ==
      if FirstCall(calls, g) >= 0 then FirstCall(calls, g) else if h.generation == g then |calls| else -1
    ensures FirstCall(calls, g) >= 0 ==> Says(calls + [h], g) == Says(calls, g)
  {
    assert (calls + [h])[..|calls|] == calls;
    FirstCallIsFirst(calls, g);
  }

  /** Conversely to `OutcomeFollowsFirstCalls`, without following anything: the outcome is what
      the very first call of some generation said, and the very first call of each earlier
      generation passed a thenable. */
  lemma {:induction false} FirstCallsDecide(es: seq<Event>)
    requires IsRun(es)
    ensures Decided(Run(es)) && Deepened(Run(es))
    ensures Run(es).outcome.None? ==> FirstCall(Run(es).calls, Run(es).maxDepth) < 0
  {
    if es != [] {
      var s, e := Run(es[..|es| - 1]), es[|es| - 1];
      FirstCallsDecide(es[..|es| - 1]);
      OutcomeFollowsFirstCalls(es[..|es| - 1]);
      if e.Call? || e.ThenThrows? {
        HeardDecides(s, Step(s, e).calls[|s.calls|], Step(s, e));
      }
    }
  }

  lemma HeardDecides(s: ThenState, h: Heard, t: ThenState)
    requires Inv(s) && Decided(s) && Deepened(s)
    requires s.outcome.None? ==> FirstCall(s.calls, s.maxDepth) < 0
    requires t.calls == s.calls + [h] && h.generation <= s.maxDepth
    requires s.outcome.Some? ==> t.outcome == s.outcome
    requires s.outcome.None? && h.generation < s.maxDepth ==> t.outcome == None && t.maxDepth == s.maxDepth
    requires s.outcome.None? && h.generation == s.maxDepth ==>
               if h.verdict.Adopt? then t.outcome == None && t.maxDepth == s.maxDepth + 1
               else t.outcome == Some(h.verdict.outcome)
    ensures Decided(t) && Deepened(t)
    ensures t.outcome.None? ==> FirstCall(t.calls, t.maxDepth) < 0
  {
    forall g: nat ensures FirstCall(t.calls, g) ==
        (if FirstCall(s.calls, g) >= 0 then FirstCall(s.calls, g) else if h.generation == g then |s.calls| else -1)
      && (FirstCall(s.calls, g) >= 0 ==> Says(t.calls, g) == Says(s.calls, g))
    {
      FirstCallAppend(s.calls, h, g);
    }
    if s.outcome.Some? {
      var n: nat :| DecidedBy(s.calls, n, s.outcome.value);
      assert DecidedBy(t.calls, n, s.outcome.value);
    } else if t.outcome.Some? {
      assert DecidedBy(t.calls, s.maxDepth, t.outcome.value);
    } else if t.maxDepth > s.maxDepth {
      FirstCallIsFirst(s.calls, t.maxDepth);
    }
  }

  // ----- What a call of the current generation does

  /** Neither the promise itself nor something with a `then` to look at. */
  predicate Final(v: Value) {
    !v.Thenable? && !v.BadThen? && !v.Self?
  }

  function FirstArgument(p: Payload): Value {
    if |p.args| > 0 then p.args[0] else Undefined
  }

  ghost predicate Settles(s: ThenState, t: ThenState, o: Outcome) {
    t == s.(outcome := Some(o), calls := t.calls)
  }

  ghost predicate Adopts(s: ThenState, t: ThenState, depth: nat) {
    t == s.(maxDepth := s.maxDepth + 1, frames := s.frames + [depth], calls := t.calls)
  }

  /** A value that reaches the current generation of a pending promise: values are passed on, errors
      of looking at them reject, and thenables make one more generation. */
  ghost predicate Receives(s: ThenState, t: ThenState, depth: nat, v: Value, passed: Payload) {
    match v
    case Thenable(_) => Adopts(s, t, depth)
    case Self => Settles(s, t, Rejected(Payload(NO_CONTEXT, [SelfResolution])))
    case BadThen(id) => Settles(s, t, Rejected(Payload(NO_CONTEXT, [ThrownBy(id)])))
    case _ => Settles(s, t, Resolved(passed))
  }

  /** A user's handler decides by what it returns or throws; without a handler, the arguments are
      passed on as they are, with their context. */
  lemma CurrentCallDecides(es: seq<Event>, handler: Handler, p: Payload)
    requires IsRun(es) && Run(es).outcome.None?
    ensures var s := Run(es);
      && IsRun(es + [Call(s.maxDepth, handler, p)])
      && var t := Run(es + [Call(s.maxDepth, handler, p)]);
         match handler
         case UserHandler(Returns(v)) => Receives(s, t, s.maxDepth, v, Payload(NO_CONTEXT, [v]))
         case UserHandler(Throws(e)) => Settles(s, t, Rejected(Payload(NO_CONTEXT, [e])))
         case Identity => Receives(s, t, s.maxDepth, FirstArgument(p), p)
         case Thrower => Settles(s, t, Rejected(p))
  {
    assert (es + [Call(Run(es).maxDepth, handler, p)])[..|es|] == es;
  }

  ghost predicate Notifies(s: ThenState, t: ThenState, p: Payload) {
    t == s.(notified := s.notified + [p])
  }

  /** A notification of the current generation passes on what the user's handler returns, or else its
      arguments; thenables, the promise itself and exceptions pass on nothing. */
  lemma CurrentProgressNotifies(es: seq<Event>, handler: Handler, p: Payload)
    requires IsRun(es) && Run(es).outcome.None?
    ensures var s := Run(es);
      && IsRun(es + [Progress(s.maxDepth, handler, p)])
      && var t := Run(es + [Progress(s.maxDepth, handler, p)]);
         match handler
         case UserHandler(Returns(v)) => if Final(v) then Notifies(s, t, Payload(NO_CONTEXT, [v])) else t == s
         case UserHandler(Throws(_)) => t == s
         case Identity => if Final(FirstArgument(p)) then Notifies(s, t, p) else t == s
         case Thrower => t == s
  {
    assert (es + [Progress(Run(es).maxDepth, handler, p)])[..|es|] == es;
  }

  /** An exception of the `then` call of the current generation, before any of its resolvers was
      called, rejects. */
  lemma CurrentExceptionRejects(es: seq<Event>, x: Value)
    requires IsRun(es) && Run(es).outcome.None? && Run(es).frames != []
    requires var frames := Run(es).frames; frames[|frames| - 1] + 1 == Run(es).maxDepth
    ensures IsRun(es + [ThenThrows(x)])
    ensures var s, t := Run(es), Run(es + [ThenThrows(x)]);
      t.outcome == Some(Rejected(Payload(NO_CONTEXT, [x]))) && t.maxDepth == s.maxDepth && t.notified == s.notified
  {
    assert (es + [ThenThrows(x)])[..|es|] == es;
  }

  // ----- What does not matter

  lemma RunConcat(es: seq<Event>, e: Event)
    requires IsRun(es + [e])
    ensures IsRun(es) && Enabled(Run(es), e) && Run(es + [e]) == Step(Run(es), e)
  {
    assert (es + [e])[..|es|] == es;
  }

  /** Once the promise is settled, whatever is called or thrown later changes nothing about it. */
  lemma {:induction false} SettledForGood(es: seq<Event>, more: seq<Event>)
    requires IsRun(es + more) && IsRun(es) && Run(es).outcome.Some?
    ensures Run(es + more).outcome == Run(es).outcome && Run(es + more).notified == Run(es).notified
  {
    if more == [] {
      assert es + more == es;
    } else {
      var before, e := more[..|more| - 1], more[|more| - 1];
      assert es + more == es + before + [e];
      RunConcat(es + before, e);
      SettledForGood(es, before);
    }
  }

  /** A call of a resolver that a newer generation has made stale, or an exception of a `then` call
      after its resolvers have adopted a newer thenable. */
  predicate Stale(s: ThenState, e: Event)
    requires Enabled(s, e)
  {
    match e
    case Call(depth, _, _) => depth < s.maxDepth
    case Progress(depth, _, _) => depth < s.maxDepth
    case ThenThrows(_) => s.frames[|s.frames| - 1] + 1 < s.maxDepth
    case ThenReturns => false
  }

  /** A run without the event: instead of throwing, the `then` call just returns. */
  function Instead(e: Event): seq<Event> {
    if e.ThenThrows? then [ThenReturns] else []
  }

  predicate SameButHistory(s: ThenState, t: ThenState) {
    s == t.(calls := s.calls)
  }

  lemma StepSame(s: ThenState, t: ThenState, e: Event)
    requires SameButHistory(s, t) && Enabled(s, e)
    ensures Enabled(t, e) && SameButHistory(Step(s, e), Step(t, e))
  {
  }

  lemma StaleStep(es: seq<Event>, e: Event)
    requires IsRun(es + [e]) && IsRun(es) && Enabled(Run(es), e) && Stale(Run(es), e)
    ensures IsRun(es + Instead(e)) && SameButHistory(Run(es + [e]), Run(es + Instead(e)))
  {
    RunConcat(es, e);
    if e.ThenThrows? {
      assert (es + [ThenReturns])[..|es|] == es;
    } else {
      assert es + Instead(e) == es;
    }
  }

  /** Stale calls, and late exceptions, can be left out of any run: whatever follows, the outcome,
      the notifications and the generations are the same. */
  lemma {:induction false} StaleChangesNothing(es: seq<Event>, e: Event, more: seq<Event>)
    requires IsRun(es + [e] + more) && IsRun(es) && Enabled(Run(es), e) && Stale(Run(es), e)
    ensures IsRun(es + Instead(e) + more)
    ensures SameButHistory(Run(es + [e] + more), Run(es + Instead(e) + more))
  {
    if more == [] {
      assert es + [e] + more == es + [e] && es + Instead(e) + more == es + Instead(e);
      StaleStep(es, e);
    } else {
      var before, last := more[..|more| - 1], more[|more| - 1];
      LastLast(es + [e], more);
      LastLast(es + Instead(e), more);
      RunConcat(es + [e] + before, last);
      StaleChangesNothing(es, e, before);
      SameStep(es + [e] + before, es + Instead(e) + before, last);
    }
  }

  lemma LastLast(es: seq<Event>, more: seq<Event>)
    requires more != []
    ensures es + more == es + more[..|more| - 1] + [more[|more| - 1]]
  {
  }

  lemma SameStep(es: seq<Event>, fs: seq<Event>, e: Event)
    requires IsRun(es) && IsRun(fs) && SameButHistory(Run(es), Run(fs)) && Enabled(Run(es), e) && IsRun(es + [e])
    ensures IsRun(fs + [e]) && SameButHistory(Run(es + [e]), Run(fs + [e]))
  {
    StepSame(Run(es), Run(fs), e);
    RunConcat(es, e);
    assert (fs + [e])[..|fs|] == fs;
  }

  // ----- The closure variables

  /** The variables shared by the resolvers of one `then` call. */
  class Resolution {
    var maxDepth: nat
    var outcome: Option<Outcome>
    var notified: seq<Payload>
    var frames: seq<nat>
    ghost var calls: seq<Heard>

    ghost function View(): ThenState reads this {
      ThenState(maxDepth, outcome, notified, frames, calls)
    }

    constructor ()
      ensures View() == INIT
    {
      maxDepth, outcome, notified, frames, calls := 0, None, [], [], [];
    }

    method Conclude(o: Outcome)
      modifies `outcome
      ensures old(outcome).Some? ==> outcome == old(outcome)
      ensures old(outcome).None? ==> outcome == Some(o)
    {
      if outcome.None? { outcome := Some(o); }
    }

    /** A call of the resolver of the given depth and handler. */
    method Call(depth: nat, handler: Handler, p: Payload)
      requires Enabled(View(), Event.Call(depth, handler, p))
      modifies this
      ensures View() == Step(old(View()), Event.Call(depth, handler, p))
    {
      calls := calls + [Heard(depth, VerdictOf(handler, p))];
      if depth < maxDepth { return; }
      var r := handler.Apply(p);
      var thrown := match r
        case Throws(e) => Some(e)
        case Returns(v) => if v.Self? then Some(SelfResolution) else if v.BadThen? then Some(ThrownBy(v.id)) else None;
      if thrown.Some? {
        if depth + 1 >= maxDepth {
          Conclude(Rejected(if handler.Thrower? then p else Payload(NO_CONTEXT, [thrown.value])));
        }
      } else if r.v.Thenable? {
        maxDepth := maxDepth + 1;
        frames := frames + [depth];  // the thenable's `then` now has control
      } else {
        Conclude(Resolved(if handler.Identity? then p else Payload(NO_CONTEXT, [r.v])));
      }
    }

    /** The innermost `then` call throws. */
    method ThenThrows(x: Value)
      requires Enabled(View(), Event.ThenThrows(x))
      modifies this
      ensures View() == Step(old(View()), Event.ThenThrows(x))
    {
      var depth := frames[|frames| - 1];
      frames := frames[..|frames| - 1];
      calls := calls + [Heard(depth + 1, Settle(Rejected(Payload(NO_CONTEXT, [x]))))];
      if depth + 1 >= maxDepth {
        Conclude(Rejected(Payload(NO_CONTEXT, [x])));
      }
    }

    /** A call of a progress resolver, whose exceptions are not caught here. */
    method Progress(depth: nat, handler: Handler, p: Payload)
      requires Enabled(View(), Event.Progress(depth, handler, p))
      modifies this
      ensures View() == Step(old(View()), Event.Progress(depth, handler, p))
    {
      if depth < maxDepth { return; }
      var r := handler.Apply(p);
      if r.Throws? || r.v.Self? || r.v.BadThen? || r.v.Thenable? { return; }
      if outcome.None? {  // a settled deferred delivers no notifications
        notified := notified + [if handler.Identity? then p else Payload(NO_CONTEXT, [r.v])];
      }
    }

    /** The innermost `then` call returns. */
    method ThenReturns()
      requires Enabled(View(), Event.ThenReturns)
      modifies `frames
      ensures View() == Step(old(View()), Event.ThenReturns)
    {
      frames := frames[..|frames| - 1];
    }
  }
}
