/** What the clients of a deferred register and issue, and what they get, over every run. */
module DeferredClients {
  import opened Wrappers
  import C = Callbacks
  import opened Callbacks
  import opened CallbacksOnce
  import opened Deferred
  import opened DeferredSettlement
  import F = CallbacksFifo
  import O = CallbacksOptions

  // ----- Definitions over the events of a run

  /** The callbacks given to `progress`, `done` or `fail`. */
  function Listened<Args>(es: seq<ClientEvent<Args>>, w: Which): seq<int> {
    if es == [] then []
    else
      var e := es[|es| - 1];
      Listened(es[..|es| - 1], w) + if e.Act? && e.op.Listen? && e.op.w == w then e.op.ids else []
  }

  /** The handlers of one kind given to `then`. */
  function Chained<Args>(es: seq<ClientEvent<Args>>, w: Which): seq<int> {
    if es == [] then []
    else
      var e := es[|es| - 1];
      Chained(es[..|es| - 1], w) +
      if e.Act? && e.op.Then? then
        [match w case Notify => e.op.onProgress case Resolve => e.op.onDone case Reject => e.op.onFail]
      else []
  }

  /** The arguments of all notifications. */
  function Notifications<Args>(es: seq<ClientEvent<Args>>): seq<Args> {
    if es == [] then []
    else
      var e := es[|es| - 1];
      Notifications(es[..|es| - 1]) + if e.Act? && e.op.Fire? && e.op.w.Notify? then [e.op.args] else []
  }

  /** The callbacks that the constructor adds to a main list. */
  function Builtin(w: Which): seq<Cb> {
    if w.Notify? then [FireHandlers] else BUILTINS
  }

  // ----- Progress lists of a pending deferred

  function ArgsOf<Args>(issues: seq<F.Issue<Args>>): (args: seq<Args>)
    ensures |args| == |issues| && forall i | 0 <= i < |args| :: args[i] == issues[i].args
  {
    seq(|issues|, i requires 0 <= i < |issues| => issues[i].args)
  }

  ghost predicate IsNotifyRun<Args>(l: CbList<Args>, es: seq<C.Event<Cb, Args>>, args: seq<Args>, min: nat) {
    && F.AddsAndFires(MEMORY, es) && l == C.Run(MEMORY, es) && ArgsOf(F.Issues(MEMORY, es)) == args
    && min <= |l.registered| && forall k | 0 <= k < |F.Issues(MEMORY, es)| :: min <= F.Issues(MEMORY, es)[k].known
  }

  /** The list is in a run of its own in which nothing but these arguments was fired, at no fewer
      callbacks than `min`. */
  ghost predicate NotifyRun<Args(!new)>(l: CbList<Args>, args: seq<Args>, min: nat) {
    exists es: seq<C.Event<Cb, Args>> :: IsNotifyRun(l, es, args, min)
  }

  lemma NotifyRunStep<Args(!new)>(l: CbList<Args>, args: seq<Args>, min: nat, e: C.Event<Cb, Args>)
    requires NotifyRun(l, args, min) && if e.Return? then !e.isFalse else e.op.Add? || e.op.FireWith?
    ensures NotifyRun(C.Step(l, e), args + if e.Do? && e.op.FireWith? then [e.op.args] else [], min)
  {
    var es :| IsNotifyRun(l, es, args, min);
    var es', more := es + [e], if e.Do? && e.op.FireWith? then [e.op.args] else [];
    assert es'[..|es'| - 1] == es;
    assert ArgsOf(F.Issues(MEMORY, es')) == args + more;
    StepRegisters(l, e);
    assert IsNotifyRun(C.Step(l, e), es', args + more, min);
  }

  lemma StepRegisters<Args>(l: CbList<Args>, e: C.Event<Cb, Args>)
    requires if e.Return? then true else e.op.Add? || e.op.FireWith?
    ensures |C.Step(l, e).registered| >= |l.registered|
  {
    if e.Do? && e.op.Add? && l.list.Live? {
      PushRegisters(l, e.op.fns);
      PushRegisters(l.(firingIndex := |l.list.regs| - 1,
                       queue := if l.memory.Some? then l.queue + [l.memory.value] else l.queue), e.op.fns);
    }
  }

  lemma {:induction false} PushRegisters<Args>(l: CbList<Args>, cbs: seq<Cb>)
    requires l.list.Live?
    ensures |Push(l, cbs).registered| >= |l.registered|
    decreases cbs
  {
    if cbs != [] {
      if !(l.opts.unique && HasFn(l.list.regs, cbs[0])) { PushRegisters(PushOne(l, cbs[0]), cbs[1..]); }
      else { PushRegisters(l, cbs[1..]); }
    }
  }

  lemma NotifyRunReturned<Args(!new)>(l: CbList<Args>, args: seq<Args>, min: nat)
    requires NotifyRun(l, args, min) && l.firing
    ensures NotifyRun(Returned(l, false), args, min)
  {
    NotifyRunStep(l, args, min, C.Return(false));
    assert args + [] == args;
  }

  lemma {:induction false} NotifyRunDrained<Args(!new)>(l: CbList<Args>, args: seq<Args>, min: nat)
    requires NotifyRun(l, args, min)
    ensures NotifyRun(Drain(l), args, min)
    decreases if l.firing then |l.queue| else 0, if l.firing then 1 + Left(l) else 0
  {
    if l.firing {
      ReturnedGoesOn(l);
      NotifyRunReturned(l, args, min);
      NotifyRunDrained(Returned(l, false), args, min);
    }
  }

  lemma NotifyRunInOrder<Args(!new)>(l: CbList<Args>, args: seq<Args>, min: nat)
    requires NotifyRun(l, args, min)
    ensures l.list == Live(F.InOrder(l.registered)) && !l.locked && l.opts == MEMORY
  {
    var es :| IsNotifyRun(l, es, args, min);
    var ends := F.RunKeepsInv(MEMORY, es);
  }

  // ----- What is registered

  lemma FireRegisters<Args>(l: CbList<Args>, op: Op<Cb, Args>)
    requires op.FireWith? || op.Lock? || op.Disable?
    ensures Apply(l, op).registered == l.registered
  {
  }

  lemma AddRegisters<Args>(l: CbList<Args>, cbs: seq<Cb>)
    requires l.list.Live? && !l.opts.unique
    ensures Apply(l, Add(cbs)).registered == l.registered + cbs
  {
    O.AllRegistered(l, cbs);
    O.AllRegistered(l.(firingIndex := |l.list.regs| - 1,
                       queue := if l.memory.Some? then l.queue + [l.memory.value] else l.queue), cbs);
  }

  lemma {:induction false} DrainRegisters<Args>(l: CbList<Args>)
    ensures Drain(l).registered == l.registered
    decreases if l.firing then |l.queue| else 0, if l.firing then 1 + Left(l) else 0
  {
    if l.firing {
      ReturnedGoesOn(l);
      DrainRegisters(Returned(l, false));
    }
  }

  ghost predicate SameRegistered<Args>(d: Deferred<Args>, d': Deferred<Args>) {
    forall w: Which ::
      d'.main.Get(w).registered == d.main.Get(w).registered
      && d'.handlers.Get(w).registered == d.handlers.Get(w).registered
  }

  lemma SetRegisters<Args>(d: Deferred<Args>, w: Which, l: CbList<Args>)
    requires l.registered == d.main.Get(w).registered
    ensures SameRegistered(d, d.(main := d.main.Set(w, l)))
  {
  }

  lemma SetHandlersRegisters<Args>(d: Deferred<Args>, w: Which, l: CbList<Args>)
    requires l.registered == d.handlers.Get(w).registered
    ensures SameRegistered(d, d.(handlers := d.handlers.Set(w, l)))
  {
  }

  lemma EffectRegisters<Args>(d: Deferred<Args>, w: Which, cb: Cb, args: Args)
    ensures SameRegistered(d, Effect(d, w, cb, args))
  {
    if cb.FireHandlers? {
      FireRegisters(d.handlers.Get(w), FireWith(args));
      DrainRegisters(Apply(d.handlers.Get(w), FireWith(args)));
      SetHandlersRegisters(d, w, Drain(Apply(d.handlers.Get(w), FireWith(args))));
    } else if !cb.User? && !w.Notify? {
      StateEffectRegisters(d, w, cb, args);
    }
  }

  lemma StateEffectRegisters<Args>(d: Deferred<Args>, w: Which, cb: Cb, args: Args)
    requires !w.Notify? && !cb.User? && !cb.FireHandlers?
    ensures SameRegistered(d, Effect(d, w, cb, args))
  {
    var opp := Opposite(w);
    FireRegisters(d.main.Get(opp), Disable);
    FireRegisters(d.handlers.Get(opp), Disable);
    FireRegisters(d.main.notify, Lock);
    FireRegisters(d.handlers.notify, Lock);
  }

  lemma {:induction false} BuiltinsRegister<Args>(d: Deferred<Args>, w: Which)
    ensures SameRegistered(d, Builtins(d, w))
    decreases if d.main.Get(w).firing then |d.main.Get(w).queue| else 0,
              if d.main.Get(w).firing then 1 + Left(d.main.Get(w)) else 0
  {
    var l := d.main.Get(w);
    if l.firing && l.log != [] && !LastCall(l).fn.User? {
      var d1 := Effect(d, w, LastCall(l).fn, LastCall(l).args);
      var d2 := d1.(main := d1.main.Set(w, Returned(l, false)));
      EffectRegisters(d, w, LastCall(l).fn, LastCall(l).args);
      ReturnRegisters(l);
      SetRegisters(d1, w, Returned(l, false));
      ReturnedGoesOn(l);
      BuiltinsRegister(d2, w);
    }
  }

  /** The lists of one kind as the clients know them, unless they have lost. */
  ghost predicate KnownLists<Args>(d: Deferred<Args>, es: seq<ClientEvent<Args>>, w: Which) {
    d.state.None? || d.state == Some(w) ==>
      && d.main.Get(w).registered == Builtin(w) + Users(Listened(es, w))
      && d.handlers.Get(w).registered == Users(Chained(es, w))
  }

  ghost predicate AsRegistered<Args>(d: Deferred<Args>, es: seq<ClientEvent<Args>>) {
    forall w: Which :: KnownLists(d, es, w)
  }

  lemma ListenedNext<Args>(es: seq<ClientEvent<Args>>, e: ClientEvent<Args>, w: Which)
    ensures Listened(es + [e], w)
         == Listened(es, w) + if e.Act? && e.op.Listen? && e.op.w == w then e.op.ids else []
    ensures !(e.Act? && e.op.Listen? && e.op.w == w) ==> Listened(es + [e], w) == Listened(es, w)
  {
    assert (es + [e])[..|es|] == es;
  }

  lemma ChainedNext<Args>(es: seq<ClientEvent<Args>>, e: ClientEvent<Args>, w: Which)
    ensures e.Act? && e.op.Then? ==>
      var id := match w case Notify => e.op.onProgress case Resolve => e.op.onDone case Reject => e.op.onFail;
      Chained(es + [e], w) == Chained(es, w) + [id]
    ensures !(e.Act? && e.op.Then?) ==> Chained(es + [e], w) == Chained(es, w)
  {
    assert (es + [e])[..|es|] == es;
  }

  lemma NotificationsNext<Args>(es: seq<ClientEvent<Args>>, e: ClientEvent<Args>)
    ensures e.Act? && e.op.Fire? && e.op.w.Notify? ==> Notifications(es + [e]) == Notifications(es) + [e.op.args]
    ensures !(e.Act? && e.op.Fire? && e.op.w.Notify?) ==> Notifications(es + [e]) == Notifications(es)
  {
    assert (es + [e])[..|es|] == es;
  }

  // ----- The handlers of progress

  /** What the progress list has passed on to the handlers. */
  function HandlerArgs<Args>(log: seq<Call<Cb, Args>>): seq<Args> {
    if log == [] then []
    else
      var last := log[|log| - 1];
      HandlerArgs(log[..|log| - 1]) + if last.fn.FireHandlers? then [last.args] else []
  }

  lemma HandlerArgsNext<Args>(log: seq<Call<Cb, Args>>, c: Call<Cb, Args>)
    ensures HandlerArgs(log + [c]) == HandlerArgs(log) + if c.fn.FireHandlers? then [c.args] else []
  {
    assert (log + [c])[..|log|] == log;
  }

  /** The calls whose effects have been made: a callback of the constructor has control first. */
  function Handled<Args>(l: CbList<Args>): seq<Call<Cb, Args>> {
    if l.firing && l.log != [] && !LastCall(l).fn.User? then l.log[..|l.log| - 1] else l.log
  }

  ghost predicate AtRest<Args>(l: CbList<Args>) {
    l.firing ==> l.log != [] && LastCall(l).fn.User?
  }

  /** The loop makes at most one more call, and only if it goes on. */
  lemma {:induction false} LoopLog<Args>(l: CbList<Args>)
    requires l.firing
    ensures GoesOnFrom(l.log, Inner(l)) && GoesOnFrom(l.log, Outer(l))
    decreases |l.queue|
  {
    if l.queue != [] {
      LoopLog(l.(memory := Some(l.queue[0]), queue := l.queue[1..]));
      LoopLog(l.(firingIndex := -1, memory := Some(l.queue[0]), queue := l.queue[1..]));
    } else {
      var l1 := l.(firingIndex := -1);
      assert Outer(l) == Finish(l) && Outer(l1) == Finish(l1);
    }
  }

  ghost predicate GoesOnFrom<Args>(log: seq<Call<Cb, Args>>, l: CbList<Args>) {
    if l.firing then l.log != [] && l.log[..|l.log| - 1] == log else l.log == log
  }

  /** Whatever the loop calls next, what has been handled stays the same. */
  lemma NothingHandled<Args>(log: seq<Call<Cb, Args>>, l: CbList<Args>)
    requires GoesOnFrom(log, l)
    ensures HandlerArgs(Handled(l)) == HandlerArgs(log)
  {
    if l.firing {
      HandlerArgsNext(log, LastCall(l));
      assert l.log == log + [LastCall(l)];
    }
  }

  ghost predicate Serving<Args(!new)>(d: Deferred<Args>) {
    NotifyRun(d.main.notify, d.issued, 1) && NotifyRun(d.handlers.notify, HandlerArgs(Handled(d.main.notify)), 0)
  }

  ghost predicate Served<Args(!new)>(d: Deferred<Args>) {
    && NotifyRun(d.main.notify, d.issued, 1) && AtRest(d.main.notify)
    && NotifyRun(d.handlers.notify, HandlerArgs(d.main.notify.log), 0)
  }

  lemma EffectServes<Args(!new)>(d: Deferred<Args>)
    requires Serving(d) && var l := d.main.notify; l.firing && l.log != [] && !LastCall(l).fn.User?
    ensures var l := d.main.notify;
      NotifyRun(Effect(d, Notify, LastCall(l).fn, LastCall(l).args).handlers.notify, HandlerArgs(l.log), 0)
  {
    var l := d.main.notify;
    var c, h, before := LastCall(l), d.handlers.notify, HandlerArgs(Handled(l));
    assert l.log == Handled(l) + [c];
    HandlerArgsNext(Handled(l), c);
    if c.fn.FireHandlers? {
      NotifyRunStep(h, before, 0, C.Do(FireWith(c.args)));
      NotifyRunDrained(Apply(h, FireWith(c.args)), before + [c.args], 0);
    } else {
      assert before + [] == before;
    }
  }

  lemma {:induction false} LoopServes<Args(!new)>(d: Deferred<Args>)
    requires Serving(d)
    ensures Served(Builtins(d, Notify)) && Builtins(d, Notify).issued == d.issued
    decreases if d.main.notify.firing then |d.main.notify.queue| else 0,
              if d.main.notify.firing then 1 + Left(d.main.notify) else 0
  {
    var l := d.main.notify;
    if l.firing && l.log != [] && !LastCall(l).fn.User? {
      var d1 := Effect(d, Notify, LastCall(l).fn, LastCall(l).args);
      var d2 := d1.(main := d1.main.Set(Notify, Returned(l, false)));
      EffectServes(d);
      NotifyRunReturned(l, d.issued, 1);
      LoopLog(l);
      NothingHandled(l.log, Returned(l, false));
      ReturnedGoesOn(l);
      LoopServes(d2);
    } else if l.firing && l.log == [] {
      FiringHasCalled(l, d.issued, 1);
    }
  }

  lemma FiringHasCalled<Args(!new)>(l: CbList<Args>, args: seq<Args>, min: nat)
    requires NotifyRun(l, args, min) && l.firing
    ensures l.log != []
  {
    var es :| IsNotifyRun(l, es, args, min);
    CalledWhileFiring(MEMORY, es);
  }

  lemma {:induction false} CalledWhileFiring<Args>(opts: Options, es: seq<C.Event<Cb, Args>>)
    ensures C.Run(opts, es).firing ==> C.Run(opts, es).log != []
  {
    if es != [] {
      var l, e := C.Run(opts, es[..|es| - 1]), es[|es| - 1];
      CalledWhileFiring(opts, es[..|es| - 1]);
      StepCalls(l, e);
    }
  }

  lemma StepCalls<Args>(l: CbList<Args>, e: C.Event<Cb, Args>)
    requires l.firing ==> l.log != []
    ensures C.Step(l, e).firing ==> C.Step(l, e).log != []
  {
    match e
    case Return(isFalse) =>
      if l.firing {
        LoopLog(l);
        LoopLog(l.(firingIndex := |l.list.Regs()|, memory := None));
      }
    case Do(Add(cbs)) =>
      if l.list.Live? {
        var t := Push(l.(firingIndex := |l.list.regs| - 1,
                         queue := if l.memory.Some? then l.queue + [l.memory.value] else l.queue), cbs);
        LoopLog(t.(locked := t.locked || t.opts.once, fired := true, firing := true));
      }
    case Do(FireWith(args)) =>
      LoopLog(l.(queue := l.queue + [args], locked := l.locked || l.opts.once, fired := true, firing := true));
    case Do(_) =>
  }

  // ----- Every step

  /** While the deferred is pending: everything issued is known, and on its way. */
  ghost predicate PendingServed<Args(!new)>(d: Deferred<Args>, es: seq<ClientEvent<Args>>) {
    d.state.None? ==> Served(d) && d.issued == Notifications(es)
  }

  /** Lists of a pending deferred, or of the outcome, can be added to. */
  lemma CanBeAddedTo<Args(!new)>(d: Deferred<Args>, w: Which)
    requires Inv(d) && (d.state.None? || d.state == Some(w)) && (d.state.None? ==> Served(d))
    ensures d.main.Get(w).list.Live? && !d.main.Get(w).opts.unique
    ensures d.handlers.Get(w).list.Live? && !d.handlers.Get(w).opts.unique
  {
    if d.state.None? {
      NotifyRunInOrder(d.main.notify, d.issued, 1);
      NotifyRunInOrder(d.handlers.notify, HandlerArgs(d.main.notify.log), 0);
    }
  }

  lemma UsersConcat(a: seq<int>, b: seq<int>)
    ensures Users(a + b) == Users(a) + Users(b)
  {
  }

  lemma UsersAfter(cbs: seq<Cb>, a: seq<int>, b: seq<int>)
    ensures cbs + Users(a) + Users(b) == cbs + Users(a + b)
  {
    UsersConcat(a, b);
  }

  lemma OnMainRegisters<Args>(d: Deferred<Args>, w: Which, op: Op<Cb, Args>)
    ensures SameRegistered(d.(main := d.main.Set(w, Apply(d.main.Get(w), op))), OnMain(d, w, op))
  {
    BuiltinsRegister(d.(main := d.main.Set(w, Apply(d.main.Get(w), op)), stack := d.stack + [w]), w);
  }

  /** A step that registers nothing leaves the lists of a kind as known. */
  lemma StaysKnown<Args>(
    d: Deferred<Args>, d': Deferred<Args>, es: seq<ClientEvent<Args>>, e: ClientEvent<Args>, w: Which)
    requires KnownLists(d, es, w) && SameRegistered(d, d')
    requires d.state == d'.state || d.state.None?
    requires !(e.Act? && e.op.Then?) && !(e.Act? && e.op.Listen? && e.op.w == w)
    ensures KnownLists(d', es + [e], w)
  {
    ListenedNext(es, e, w);
    ChainedNext(es, e, w);
  }

  lemma ListenRegisters<Args(!new)>(d: Deferred<Args>, es: seq<ClientEvent<Args>>, w: Which, ids: seq<int>)
    requires Inv(d) && AsRegistered(d, es) && (d.state.None? ==> Served(d))
    ensures AsRegistered(ClientStep(d, Act(Listen(w, ids))), es + [Act(Listen(w, ids))])
  {
    var d' := ClientStep(d, Act(Listen(w, ids)));
    var l1 := Apply(d.main.Get(w), Add(Users(ids)));
    var d1 := d.(main := d.main.Set(w, l1));
    ListenKeeps(d, w, ids);
    OnMainRegisters(d, w, Add(Users(ids)));
    forall v: Which ensures KnownLists(d', es + [Act(Listen(w, ids))], v) {
      if v == w {
        ListenerKnown(d, d', es, w, ids);
      } else {
        OtherListKnown(d, d', es, w, ids, v);
      }
    }
  }

  lemma ListenerKnown<Args(!new)>(
    d: Deferred<Args>, d': Deferred<Args>, es: seq<ClientEvent<Args>>, w: Which, ids: seq<int>)
    requires Inv(d) && KnownLists(d, es, w) && (d.state.None? ==> Served(d)) && d'.state == d.state
    requires d'.main.Get(w).registered == Apply(d.main.Get(w), Add(Users(ids))).registered
    requires d'.handlers.Get(w).registered == d.handlers.Get(w).registered
    ensures KnownLists(d', es + [Act(Listen(w, ids))], w)
  {
    ListenedNext(es, Act(Listen(w, ids)), w);
    ChainedNext(es, Act(Listen(w, ids)), w);
    if d.state.None? || d.state == Some(w) {
      CanBeAddedTo(d, w);
      AddRegisters(d.main.Get(w), Users(ids));
      UsersAfter(Builtin(w), Listened(es, w), ids);
    }
  }

  lemma OtherListKnown<Args>(d: Deferred<Args>, d': Deferred<Args>, es: seq<ClientEvent<Args>>, w: Which, ids: seq<int>,
                             v: Which)
    requires KnownLists(d, es, v) && v != w && d'.state == d.state
    requires d'.main.Get(v).registered == d.main.Get(v).registered
    requires d'.handlers.Get(v).registered == d.handlers.Get(v).registered
    ensures KnownLists(d', es + [Act(Listen(w, ids))], v)
  {
    ListenedNext(es, Act(Listen(w, ids)), v);
    ChainedNext(es, Act(Listen(w, ids)), v);
  }

  lemma FireStays<Args(!new)>(d: Deferred<Args>, es: seq<ClientEvent<Args>>, w: Which, args: Args)
    requires Inv(d) && AsRegistered(d, es)
    ensures AsRegistered(ClientStep(d, Act(Fire(w, args))), es + [Act(Fire(w, args))])
  {
    var d' := ClientStep(d, Act(Fire(w, args)));
    FireKeepsInv(d, w, args);
    FireSameRegistered(d, w, args);
    forall v: Which ensures KnownLists(d', es + [Act(Fire(w, args))], v) {
      StaysKnown(d, d', es, Act(Fire(w, args)), v);
    }
  }

  lemma FireSameRegistered<Args(!new)>(d: Deferred<Args>, w: Which, args: Args)
    ensures SameRegistered(d, ClientStep(d, Act(Fire(w, args))))
  {
    var d1 :=
      if w.Notify? then d.(issued := if d.state.None? then d.issued + [args] else d.issued)
      else d.(settledWith := if d.main.Get(w).locked then d.settledWith else Some(args));
    FireRegisters(d.main.Get(w), FireWith(args));
    OnMainRegisters(d1, w, FireWith(args));
    assert SameRegistered(d, d1.(main := d1.main.Set(w, Apply(d1.main.Get(w), FireWith(args)))));
  }

  lemma AddHandlerRegisters<Args(!new)>(d: Deferred<Args>, w: Which, id: int)
    requires Inv(d) && (d.state.None? ==> Served(d))
    ensures var d' := AddHandler(d, w, id);
      && (d.state.None? ==> Served(d'))
      && d'.main == d.main && (forall v: Which | v != w :: d'.handlers.Get(v) == d.handlers.Get(v))
      && (d.state.None? || d.state == Some(w) ==>
            d'.handlers.Get(w).registered == d.handlers.Get(w).registered + [User(id)])
  {
    var l, l1 := d.handlers.Get(w), Apply(d.handlers.Get(w), Add([User(id)]));
    DrainRegisters(l1);
    if d.state.None? || d.state == Some(w) {
      CanBeAddedTo(d, w);
      AddRegisters(l, [User(id)]);
    }
    if d.state.None? && w.Notify? {
      var args := HandlerArgs(d.main.notify.log);
      NotifyRunStep(l, args, 0, C.Do(Add([User(id)])));
      assert args + [] == args;
      NotifyRunDrained(l1, args, 0);
    }
  }

  lemma ThenAdds<Args(!new)>(d: Deferred<Args>, p: int, f: int, r: int)
    requires Inv(d) && (d.state.None? ==> Served(d))
    ensures var d' := ClientStep(d, Act(Then(p, f, r)));
      && (d.state.None? ==> Served(d')) && d' == d.(handlers := d'.handlers)
      && (d.state.None? ==> d'.handlers.notify.registered == d.handlers.notify.registered + [User(p)])
      && (d.state.None? || d.state == Some(Resolve) ==>
            d'.handlers.resolve.registered == d.handlers.resolve.registered + [User(f)])
      && (d.state.None? || d.state == Some(Reject) ==>
            d'.handlers.reject.registered == d.handlers.reject.registered + [User(r)])
  {
    var d1 := AddHandler(d, Notify, p);
    var d2 := AddHandler(d1, Resolve, f);
    AddHandlerAdds(d, Notify, p);
    AddHandlerAdds(d1, Resolve, f);
    AddHandlerAdds(d2, Reject, r);
  }

  /** A handler of one kind alone. */
  lemma AddHandlerAdds<Args(!new)>(d: Deferred<Args>, w: Which, id: int)
    requires Inv(d) && (d.state.None? ==> Served(d))
    ensures var d' := AddHandler(d, w, id);
      && Inv(d') && (d.state.None? ==> Served(d'))
      && d' == d.(handlers := d.handlers.Set(w, d'.handlers.Get(w)))
      && (d.state.None? || d.state == Some(w) ==>
            d'.handlers.Get(w).registered == d.handlers.Get(w).registered + [User(id)])
  {
    AddHandlerKeeps(d, w, id);
    AddHandlerRegisters(d, w, id);
  }

  lemma ThenRegisters<Args(!new)>(d: Deferred<Args>, es: seq<ClientEvent<Args>>, p: int, f: int, r: int)
    requires Inv(d) && AsRegistered(d, es) && PendingServed(d, es)
    ensures var e := Act(Then(p, f, r));
      AsRegistered(ClientStep(d, e), es + [e]) && PendingServed(ClientStep(d, e), es + [e])
  {
    var e := Act(Then(p, f, r));
    var d' := ClientStep(d, e);
    ThenAdds(d, p, f, r);
    NotNotify(d);
    NotificationsNext(es, e);
    ChainKnown(d, d', es, e, Notify, p);
    ChainKnown(d, d', es, e, Resolve, f);
    ChainKnown(d, d', es, e, Reject, r);
    forall w: Which ensures KnownLists(d', es + [e], w) {
      match w case Notify => case Resolve => case Reject =>
    }
  }

  lemma NotNotify<Args(!new)>(d: Deferred<Args>)
    requires Inv(d)
    ensures d.state != Some(Notify)
  {
  }

  lemma ChainKnown<Args>(
    d: Deferred<Args>, d': Deferred<Args>, es: seq<ClientEvent<Args>>, e: ClientEvent<Args>, w: Which, id: int)
    requires KnownLists(d, es, w) && d'.state == d.state && d'.main == d.main && e.Act? && e.op.Then?
    requires id == match w case Notify => e.op.onProgress case Resolve => e.op.onDone case Reject => e.op.onFail
    requires d.state.None? || d.state == Some(w) ==>
               d'.handlers.Get(w).registered == d.handlers.Get(w).registered + [User(id)]
    ensures KnownLists(d', es + [e], w)
  {
    ListenedNext(es, e, w);
    ChainedNext(es, e, w);
    UsersConcat(Chained(es, w), [id]);
    assert Users([id]) == [User(id)];
  }

  lemma ReturnStays<Args(!new)>(d: Deferred<Args>, es: seq<ClientEvent<Args>>)
    requires Inv(d) && AsRegistered(d, es)
    ensures AsRegistered(ClientStep(d, CallbackReturns), es + [CallbackReturns])
  {
    var d' := ClientStep(d, CallbackReturns);
    ReturnKeeps(d);
    ReturnSameRegistered(d);
    forall v: Which ensures KnownLists(d', es + [CallbackReturns], v) {
      StaysKnown(d, d', es, CallbackReturns, v);
    }
  }

  lemma ReturnSameRegistered<Args(!new)>(d: Deferred<Args>)
    ensures SameRegistered(d, ClientStep(d, CallbackReturns))
  {
    if d.stack != [] {
      var w := d.stack[|d.stack| - 1];
      var l := C.Step(d.main.Get(w), C.Return(false));
      ReturnRegisters(d.main.Get(w));
      SetRegisters(d, w, l);
      BuiltinsRegister(d.(main := d.main.Set(w, l)), w);
    }
  }

  lemma ReturnRegisters<Args>(l: CbList<Args>)
    ensures C.Step(l, C.Return(false)).registered == l.registered
  {
  }

  // ----- Serving while pending

  /** An operation on the progress list. */
  lemma OnNotifyServes<Args(!new)>(d: Deferred<Args>, op: Op<Cb, Args>, issued: seq<Args>)
    requires op.Add? || op.FireWith?
    requires NotifyRun(d.main.notify, issued, 1) && AtRest(d.main.notify)
    requires NotifyRun(d.handlers.notify, HandlerArgs(d.main.notify.log), 0)
    requires d.issued == issued + if op.FireWith? then [op.args] else []
    ensures Served(OnMain(d, Notify, op)) && OnMain(d, Notify, op).issued == d.issued
  {
    var l, l1 := d.main.notify, Apply(d.main.notify, op);
    NotifyRunStep(l, issued, 1, C.Do(op));
    if !l.firing {
      OperationLog(l, op);
      NothingHandled(l.log, l1);
      LoopServes(d.(main := d.main.Set(Notify, l1), stack := d.stack + [Notify]));
    } else {
      NotifyRunInOrder(l, issued, 1);
    }
  }

  lemma OperationLog<Args>(l: CbList<Args>, op: Op<Cb, Args>)
    requires !l.firing && (op.Add? || op.FireWith?)
    ensures GoesOnFrom(l.log, Apply(l, op))
  {
    match op
    case Add(cbs) =>
      if l.list.Live? && l.memory.Some? {
        var t := Push(l.(firingIndex := |l.list.regs| - 1, queue := l.queue + [l.memory.value]), cbs);
        LoopLog(t.(locked := t.locked || t.opts.once, fired := true, firing := true));
      }
    case FireWith(args) =>
      if !l.locked {
        LoopLog(l.(queue := l.queue + [args], locked := l.locked || l.opts.once, fired := true, firing := true));
      }
  }

  lemma ListenServes<Args(!new)>(d: Deferred<Args>, es: seq<ClientEvent<Args>>, w: Which, ids: seq<int>)
    requires Inv(d) && PendingServed(d, es)
    ensures PendingServed(ClientStep(d, Act(Listen(w, ids))), es + [Act(Listen(w, ids))])
  {
    NotificationsNext(es, Act(Listen(w, ids)));
    ListenKeeps(d, w, ids);
    if d.state.None? {
      if w.Notify? {
        assert d.issued + [] == d.issued;
        OnNotifyServes(d, Add(Users(ids)), d.issued);
      } else {
        AddFresh(d.main.Get(w), |BUILTINS|, ids);
      }
    }
  }

  lemma FireServes<Args(!new)>(d: Deferred<Args>, es: seq<ClientEvent<Args>>, w: Which, args: Args)
    requires Inv(d) && PendingServed(d, es)
    ensures PendingServed(ClientStep(d, Act(Fire(w, args))), es + [Act(Fire(w, args))])
  {
    NotificationsNext(es, Act(Fire(w, args)));
    FireKeepsInv(d, w, args);
    if d.state.None? && w.Notify? {
      OnNotifyServes(d.(issued := d.issued + [args]), FireWith(args), d.issued);
    }
  }

  lemma ReturnServes<Args(!new)>(d: Deferred<Args>, es: seq<ClientEvent<Args>>)
    requires Inv(d) && PendingServed(d, es)
    ensures PendingServed(ClientStep(d, CallbackReturns), es + [CallbackReturns])
  {
    NotificationsNext(es, CallbackReturns);
    ReturnKeeps(d);
    if d.state.None? && d.stack != [] {
      if d.stack[|d.stack| - 1].Notify? && d.main.notify.firing {
        NextServes(d);
      } else {
        NothingReturns(d);
      }
    }
  }

  lemma NothingReturns<Args(!new)>(d: Deferred<Args>)
    requires Inv(d) && d.state.None? && d.stack != []
    requires !(d.stack[|d.stack| - 1].Notify? && d.main.notify.firing)
    ensures ClientStep(d, CallbackReturns) == d.(stack := Pop(d.stack))
  {
    var w := d.stack[|d.stack| - 1];
    assert !d.main.Get(w).firing;
    assert d.(main := d.main.Set(w, d.main.Get(w))) == d;
  }

  lemma NextServes<Args(!new)>(d: Deferred<Args>)
    requires Served(d) && d.main.notify.firing
    ensures var d1 := d.(main := d.main.Set(Notify, Returned(d.main.notify, false)));
      Served(Builtins(d1, Notify)) && Builtins(d1, Notify).issued == d.issued
  {
    var l := d.main.notify;
    NotifyRunReturned(l, d.issued, 1);
    LoopLog(l);
    NothingHandled(l.log, Returned(l, false));
    LoopServes(d.(main := d.main.Set(Notify, Returned(l, false))));
  }

  lemma StepIsServed<Args(!new)>(d: Deferred<Args>, es: seq<ClientEvent<Args>>, e: ClientEvent<Args>)
    requires Inv(d) && AsRegistered(d, es) && PendingServed(d, es)
    ensures AsRegistered(ClientStep(d, e), es + [e]) && PendingServed(ClientStep(d, e), es + [e])
  {
    match e
    case CallbackReturns => ReturnStays(d, es); ReturnServes(d, es);
    case Act(Listen(w, ids)) => ListenRegisters(d, es, w, ids); ListenServes(d, es, w, ids);
    case Act(Fire(w, args)) => FireStays(d, es, w, args); FireServes(d, es, w, args);
    case Act(Then(p, f, r)) => ThenRegisters(d, es, p, f, r);
  }

  lemma {:induction false} RunIsServed<Args(!new)>(es: seq<ClientEvent<Args>>)
    ensures AsRegistered(ClientRun(es), es) && PendingServed(ClientRun(es), es)
  {
    if es == [] {
      NewIsServed<Args>();
    } else {
      var before, e := es[..|es| - 1], es[|es| - 1];
      RunIsServed(before);
      RunKeepsInv(before);
      StepIsServed(ClientRun(before), before, e);
      assert es == before + [e];
    }
  }

  lemma NewNotifyRun<Args(!new)>()
    ensures NotifyRun<Args>(Init(MEMORY), [], 0) && NotifyRun<Args>(NewList(Notify), [], 1)
  {
    var none: seq<C.Event<Cb, Args>> := [];
    assert ArgsOf(F.Issues(MEMORY, none)) == [];
    assert IsNotifyRun<Args>(Init(MEMORY), none, [], 0);
    AddRegisters<Args>(Init(MEMORY), [FireHandlers]);
    var es: seq<C.Event<Cb, Args>> := [C.Do(Add([FireHandlers]))];
    assert es[..0] == none && F.Issues(MEMORY, es) == F.Issues(MEMORY, none) + [];
    assert ArgsOf(F.Issues(MEMORY, es)) == [];
    assert IsNotifyRun<Args>(NewList(Notify), es, [], 1);
  }

  lemma NewIsServed<Args(!new)>()
    ensures AsRegistered(New<Args>(), []) && PendingServed(New<Args>(), [])
  {
    var l: CbList<Args> := Init(ONCE_MEMORY);
    NewNotifyRun<Args>();
    AddRegisters(l, STATE_CALLBACKS);
    AddRegisters(Apply(l, Add(STATE_CALLBACKS)), [FireHandlers]);
    AddRegisters<Args>(Init(MEMORY), [FireHandlers]);
    assert Users([]) == [];
  }

  // ----- Main results

  /** When a deferred is settled and none of its callbacks has control, all that clients gave to `done`
      (or `fail`) has been called once, in the order in which it was given, with the arguments of
      the settlement, after the callbacks of the constructor; and so have the handlers given to
      `then` for that outcome. */
  lemma ClientsAreCalled<Args(!new)>(es: seq<ClientEvent<Args>>, w: Which, args: Args)
    requires FirstSettle(es) == Some((w, args))
    ensures var d := ClientRun(es);
      && (!d.main.Get(w).firing ==> d.main.Get(w).log == Delivered(BUILTINS + Users(Listened(es, w)), args))
      && d.handlers.Get(w).log == Delivered(Users(Chained(es, w)), args)
  {
    SettlesFinally(es);
    StateFollowsFirstSettle(es);
    SettledCallbacksRunOnce(es, w, args);
    RunIsServed(es);
    assert KnownLists(ClientRun(es), es, w);
  }

  lemma {:induction false} SettlesFinally<Args>(es: seq<ClientEvent<Args>>)
    ensures FirstSettle(es).Some? ==> FirstSettle(es).value.0 != Notify
  {
    if es != [] { SettlesFinally(es[..|es| - 1]); }
  }

  /** While the deferred is pending and no progress callback has control, every notification has been
      delivered to the progress callbacks, one after the other in the order of issue, each at least
      to all callbacks there were; callbacks come in the order in which they were given. */
  lemma NotificationsAreDelivered<Args(!new)>(es: seq<ClientEvent<Args>>)
    returns (issues: seq<F.Issue<Args>>, ends: seq<nat>)
    requires ClientRun(es).state.None? && !ClientRun(es).main.notify.firing
    ensures ArgsOf(issues) == Notifications(es) && |ends| == |issues|
    ensures var cbs := [FireHandlers] + Users(Listened(es, Notify));
      && F.Within(ends, |cbs|) && F.Complete(issues, ends, |ends|)
      && ClientRun(es).main.notify.log == F.Rounds(cbs, issues, ends)
      && (issues != [] ==> ends[|ends| - 1] == |cbs|)
  {
    RunIsServed(es);
    var l := ClientRun(es).main.notify;
    assert KnownLists(ClientRun(es), es, Notify);
    issues, ends := RoundsOf(l, Notifications(es), 1);
  }

  /** The rounds of a progress list in which nothing runs. */
  lemma RoundsOf<Args(!new)>(l: CbList<Args>, args: seq<Args>, min: nat)
    returns (issues: seq<F.Issue<Args>>, ends: seq<nat>)
    requires NotifyRun(l, args, min) && !l.firing
    ensures ArgsOf(issues) == args && |ends| == |issues|
    ensures F.Within(ends, |l.registered|) && F.Complete(issues, ends, |ends|)
    ensures l.log == F.Rounds(l.registered, issues, ends)
    ensures issues != [] ==> ends[|ends| - 1] == |l.registered|
  {
    var es :| IsNotifyRun(l, es, args, min);
    issues := F.Issues(MEMORY, es);
    ends := F.FifoDelivery(MEMORY, es);
  }

  /** And so have the handlers of progress given to `then`. */
  lemma NotificationsAreHandled<Args(!new)>(es: seq<ClientEvent<Args>>)
    returns (issues: seq<F.Issue<Args>>, ends: seq<nat>)
    requires ClientRun(es).state.None? && !ClientRun(es).main.notify.firing
    ensures ArgsOf(issues) == Notifications(es) && |ends| == |issues|
    ensures var cbs := Users(Chained(es, Notify));
      && F.Within(ends, |cbs|) && F.Complete(issues, ends, |ends|)
      && ClientRun(es).handlers.notify.log == F.Rounds(cbs, issues, ends)
      && (issues != [] ==> ends[|ends| - 1] == |cbs|)
  {
    RunIsServed(es);
    RunKeepsInv(es);
    var d := ClientRun(es);
    assert KnownLists(d, es, Notify);
    AllHandedOn(d.main.notify, Notifications(es), Listened(es, Notify));
    issues, ends := RoundsOf(d.handlers.notify, HandlerArgs(d.main.notify.log), 0);
  }

  /** Every notification is handed on to the handlers, by the first callback of the list. */
  lemma AllHandedOn<Args(!new)>(l: CbList<Args>, args: seq<Args>, ids: seq<int>)
    requires NotifyRun(l, args, 1) && !l.firing && l.registered == [FireHandlers] + Users(ids)
    ensures HandlerArgs(l.log) == args
  {
    var es :| IsNotifyRun(l, es, args, 1);
    var issues := F.Issues(MEMORY, es);
    var ends := F.FifoDelivery(MEMORY, es);
    HandedOn(l.registered, issues, ends, ids);
    assert args[..|args|] == args;
  }

  lemma {:induction false} HandedOn<Args>(cbs: seq<Cb>, issues: seq<F.Issue<Args>>, ends: seq<nat>, ids: seq<int>)
    requires cbs == [FireHandlers] + Users(ids) && |ends| <= |issues| && F.Within(ends, |cbs|)
    requires forall k | 0 <= k < |ends| :: 1 <= ends[k]
    ensures HandlerArgs(F.Rounds(cbs, issues, ends)) == ArgsOf(issues)[..|ends|]
  {
    if ends != [] {
      var n := |ends| - 1;
      HandedOn(cbs, issues, ends[..n], ids);
      OneHandedOn(F.Rounds(cbs, issues, ends[..n]), cbs[..ends[n]], issues[n].args);
      assert ArgsOf(issues)[..n + 1] == ArgsOf(issues)[..n] + [issues[n].args];
    }
  }

  lemma {:induction false} OneHandedOn<Args>(log: seq<Call<Cb, Args>>, cbs: seq<Cb>, args: Args)
    requires cbs != [] && cbs[0] == FireHandlers && forall i | 0 < i < |cbs| :: cbs[i].User?
    ensures HandlerArgs(log + Delivered(cbs, args)) == HandlerArgs(log) + [args]
    decreases |cbs|
  {
    var n := |cbs| - 1;
    var before, last := Delivered(cbs[..n], args), Call(n, cbs[n], args);
    assert log + Delivered(cbs, args) == log + before + [last];
    HandlerArgsNext(log + before, last);
    if n == 0 {
      assert log + before == log;
    } else {
      OneHandedOn(log, cbs[..n], args);
    }
  }
}
