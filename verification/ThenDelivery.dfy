/** What the callbacks of the derived deferred receive: the resolvers of a `then` call settle it, and
    nobody else can. */
module ThenDelivery {
  import opened Wrappers
  import opened CallbacksOnce
  import opened Deferred
  import opened DeferredSettlement
  import T = ThenResolution

  type Payload = T.Payload

  /** What an event of the resolution passes to `resolveWith` or `rejectWith`, settled or not. */
  function Attempt(s: T.ThenState, e: T.Event): Option<T.Outcome>
    requires T.Enabled(s, e)
  {
    match e
    case Call(depth, handler, p) =>
      var verdict := T.VerdictOf(handler, p);
      if depth < s.maxDepth || verdict.Adopt? then None else Some(verdict.outcome)
    case ThenThrows(x) =>
      if s.frames[|s.frames| - 1] + 1 < s.maxDepth then None
      else Some(T.Rejected(T.Payload(T.NO_CONTEXT, [x])))
    case _ => None
  }

  function Attempts(es: seq<T.Event>): seq<T.Outcome>
    requires T.IsRun(es)
  {
    if es == [] then []
    else
      var before, e := es[..|es| - 1], es[|es| - 1];
      var o := Attempt(T.Run(before), e);
      Attempts(before) + if o.Some? then [o.value] else []
  }

  lemma StepConcludes(s: T.ThenState, e: T.Event)
    requires T.Enabled(s, e)
    ensures T.Step(s, e).outcome == if s.outcome.Some? then s.outcome else Attempt(s, e)
  {
  }

  lemma {:induction false} OutcomeIsFirstAttempt(es: seq<T.Event>)
    requires T.IsRun(es)
    ensures T.Run(es).outcome == if Attempts(es) == [] then None else Some(Attempts(es)[0])
  {
    if es != [] {
      OutcomeIsFirstAttempt(es[..|es| - 1]);
      StepConcludes(T.Run(es[..|es| - 1]), es[|es| - 1]);
    }
  }

  function Signal(o: T.Outcome): (Which, Payload) {
    match o case Resolved(p) => (Resolve, p) case Rejected(p) => (Reject, p)
  }

  /** All that is said to a deferred to settle it. */
  function Settlements<Args>(cs: seq<ClientEvent<Args>>): seq<(Which, Args)> {
    if cs == [] then []
    else
      var last := cs[|cs| - 1];
      Settlements(cs[..|cs| - 1]) + if Settles(last) then [(last.op.w, last.op.args)] else []
  }

  lemma {:induction false} FirstSettleIsFirst<Args>(cs: seq<ClientEvent<Args>>)
    ensures FirstSettle(cs) == if Settlements(cs) == [] then None else Some(Settlements(cs)[0])
  {
    if cs != [] { FirstSettleIsFirst(cs[..|cs| - 1]); }
  }

  /** The run `cs` of the derived deferred is settled by the resolution `es` and by nobody else; the
      other calls of its clients come in between at any time. */
  ghost predicate Feeds(es: seq<T.Event>, cs: seq<ClientEvent<Payload>>)
    requires T.IsRun(es)
  {
    |Settlements(cs)| == |Attempts(es)| &&
    forall i | 0 <= i < |Attempts(es)| :: Settlements(cs)[i] == Signal(Attempts(es)[i])
  }

  /** The derived deferred stays pending as long as no call was decisive.  Otherwise its state is what
      the decisive call said, its callbacks and handlers of that kind each receive what it passed,
      once and in order, and the others never run. */
  lemma CallbacksReceiveFirstCall(es: seq<T.Event>, cs: seq<ClientEvent<Payload>>)
    requires T.IsRun(es) && Feeds(es, cs)
    ensures var outcome, d := T.Run(es).outcome, ClientRun(cs);
      match outcome
      case None => d.state.None?
      case Some(o) =>
        var (w, p) := Signal(o);
        && (exists n: nat :: T.DecidedBy(T.Run(es).calls, n, o))
        && d.state == Some(w)
        && (!d.main.Get(w).firing ==> d.main.Get(w).log == Delivered(d.main.Get(w).registered, p))
        && d.handlers.Get(w).log == Delivered(d.handlers.Get(w).registered, p)
        && d.main.Get(Opposite(w)).log == [] && d.handlers.Get(Opposite(w)).log == []
  {
    OutcomeIsFirstAttempt(es);
    FirstSettleIsFirst(cs);
    T.FirstCallsDecide(es);
    StateFollowsFirstSettle(cs);
    if T.Run(es).outcome.Some? {
      var (w, p) := Signal(T.Run(es).outcome.value);
      SettledCallbacksRunOnce(cs, w, p);
    }
  }
}
