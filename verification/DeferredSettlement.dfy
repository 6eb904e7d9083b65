/** Settlement of a deferred, over every run of nested client calls. */
module DeferredSettlement {
  import opened Wrappers
  import C = Callbacks
  import opened Callbacks
  import opened CallbacksOnce
  import opened Deferred

  const BUILTINS: seq<Cb> := STATE_CALLBACKS + [FireHandlers]

  // ----- Lists that are only added to and fired

  ghost predicate OnceRun<Args(!new)>(l: CbList<Args>) {
    exists es: seq<C.Event<Cb, Args>> :: IsOnceRun(l, es)
  }

  ghost predicate IsOnceRun<Args>(l: CbList<Args>, es: seq<C.Event<Cb, Args>>) {
    NeverTakesOut(es) && l == C.Run(ONCE_MEMORY, es)
  }

  lemma OnceRunStep<Args(!new)>(l: CbList<Args>, e: C.Event<Cb, Args>)
    requires OnceRun(l)
    requires e.Do? ==> e.op.Add? || e.op.FireWith?
    ensures OnceRun(C.Step(l, e))
  {
    var es :| IsOnceRun(l, es);
    var es' := es + [e];
    assert es'[..|es'| - 1] == es;
    assert IsOnceRun(C.Step(l, e), es');
  }

  /** A list with `n` callbacks of the constructor, before any fire. */
  ghost predicate Fresh<Args>(l: CbList<Args>, n: nat) {
    && l.opts == ONCE_MEMORY
    && !l.firing && !l.fired && !l.locked && l.memory.None? && l.queue == [] && l.log == [] && l.firingIndex == -1
    && l.list.Live? && n <= |l.list.regs| && n <= |BUILTINS|
    && (forall i | 0 <= i < n :: l.list.regs[i].fn == BUILTINS[i])
    && (forall i | n <= i < |l.list.regs| :: l.list.regs[i].fn.User?)
  }

  /** A fired once memory list whose remaining callbacks all belong to the user. */
  ghost predicate WonLoop<Args>(l: CbList<Args>, args: Args) {
    && l.opts == ONCE_MEMORY
    && l.fired && l.locked && l.queue == [] && l.memory == Some(args) && l.list.Live?
    && (forall i | l.firingIndex < i < |l.list.regs| :: l.list.regs[i].fn.User?)
    && (!l.firing ==> l.firingIndex == -1)
  }

  ghost predicate Won<Args>(l: CbList<Args>, args: Args) {
    WonLoop(l, args) && (l.firing ==> l.log != [] && LastCall(l).fn.User?)
  }

  ghost predicate Lost<Args>(l: CbList<Args>) {
    l.list.Spent? && l.locked && l.queue == [] && l.memory.None? && !l.firing && l.log == []
  }

  lemma InnerWon<Args>(l: CbList<Args>, args: Args)
    requires WonLoop(l, args) && l.firing
    ensures Won(Inner(l), args)
  {
    var l1 := l.(firingIndex := -1);
    assert Outer(l1) == Finish(l1);
  }

  lemma ReturnedWon<Args(!new)>(l: CbList<Args>, args: Args)
    requires Won(l, args) && OnceRun(l) && l.firing
    ensures Won(Returned(l, false), args) && OnceRun(Returned(l, false))
  {
    InnerWon(l, args);
    OnceRunStep(l, C.Return(false));
  }

  lemma DrainWon<Args(!new)>(l: CbList<Args>, args: Args)
    requires Won(l, args) && OnceRun(l)
    ensures Won(Drain(l), args) && OnceRun(Drain(l))
    decreases if l.firing then |l.queue| else 0, if l.firing then 1 + Left(l) else 0
  {
    if l.firing {
      ReturnedGoesOn(l);
      ReturnedWon(l, args);
      DrainWon(Returned(l, false), args);
    }
  }

  lemma PushAppends<Args>(l: CbList<Args>, cbs: seq<Cb>)
    requires l.list.Live? && !l.opts.unique
    ensures var t := Push(l, cbs);
      |t.list.regs| == |l.list.regs| + |cbs| && l.list.regs <= t.list.regs
      && forall i | |l.list.regs| <= i < |t.list.regs| :: t.list.regs[i].fn == cbs[i - |l.list.regs|]
    decreases cbs
  {
    if cbs != [] {
      var l1 := PushOne(l, cbs[0]);
      PushNext(l, cbs);
      PushAppends(l1, cbs[1..]);
      assert l1.list.regs[|l.list.regs|].fn == cbs[0];
    }
  }

  lemma AddFresh<Args>(l: CbList<Args>, n: nat, ids: seq<int>)
    requires Fresh(l, n)
    ensures Fresh(Apply(l, Add(Users(ids))), n)
  {
    PushAppends(l, Users(ids));
  }

  lemma AddWon<Args>(l: CbList<Args>, args: Args, ids: seq<int>)
    requires Won(l, args) && (!l.firing ==> l.list.regs == [])
    ensures Won(Apply(l, Add(Users(ids))), args)
  {
    if l.firing {
      PushAppends(l, Users(ids));
      var t := Push(l, Users(ids));
      assert forall i | l.firingIndex < i < |t.list.regs| :: t.list.regs[i].fn.User?;
    } else {
      var l1 := l.(firingIndex := -1, queue := l.queue + [args]);
      PushAppends(l1, Users(ids));
      var l2 := Push(l1, Users(ids));
      StartFireOne(l2, args);
      InnerWon(l2.(firing := true, queue := []), args);
    }
  }

  lemma WonIdle<Args(!new)>(l: CbList<Args>, args: Args)
    requires Won(l, args) && OnceRun(l) && !l.firing
    ensures l.list.regs == []
    ensures l.log == Delivered(l.registered, args)
  {
    var es :| IsOnceRun(l, es);
    RunKeeps(ONCE_MEMORY, es);
    EverythingDelivered(ONCE_MEMORY, es);
  }

  lemma FireFresh<Args(!new)>(l: CbList<Args>, args: Args)
    requires Fresh(l, 0) && OnceRun(l)
    ensures var t := Drain(Apply(l, FireWith(args))); Won(t, args) && OnceRun(t)
  {
    var l1 := l.(queue := l.queue + [args]);
    StartFireOne(l1, args);
    InnerWon(l1.(locked := true, fired := true, firing := true, memory := Some(args), queue := []), args);
    OnceRunStep(l, C.Do(FireWith(args)));
    DrainWon(Apply(l, FireWith(args)), args);
  }

  // ----- Progress lists

  /** Everything a progress list holds or has delivered was issued before the settlement. */
  ghost predicate NotifyOk<Args>(l: CbList<Args>, issued: seq<Args>, settled: bool) {
    && l.opts == MEMORY
    && (l.memory.Some? ==> l.memory.value in issued)
    && (forall i | 0 <= i < |l.queue| :: l.queue[i] in issued)
    && (forall i | 0 <= i < |l.log| :: l.log[i].args in issued)
    && (settled ==> l.locked && l.queue == [])
  }

  lemma LoopNotify<Args>(l: CbList<Args>, issued: seq<Args>, settled: bool)
    requires NotifyOk(l, issued, settled)
    ensures NotifyOk(Inner(l), issued, settled) && NotifyOk(Outer(l), issued, settled)
    decreases |l.queue|
  {
    if l.queue != [] {
      LoopNotify(l.(memory := Some(l.queue[0]), queue := l.queue[1..]), issued, settled);
      LoopNotify(l.(firingIndex := -1, memory := Some(l.queue[0]), queue := l.queue[1..]), issued, settled);
    } else {
      assert Outer(l) == Finish(l);
      var l1 := l.(firingIndex := -1);
      assert Outer(l1) == Finish(l1);
    }
  }

  lemma DrainNotify<Args>(l: CbList<Args>, issued: seq<Args>, settled: bool)
    requires NotifyOk(l, issued, settled)
    ensures NotifyOk(Drain(l), issued, settled)
    decreases if l.firing then |l.queue| else 0, if l.firing then 1 + Left(l) else 0
  {
    if l.firing {
      ReturnedGoesOn(l);
      LoopNotify(l, issued, settled);
      DrainNotify(Returned(l, false), issued, settled);
    }
  }

  lemma AddNotify<Args>(l: CbList<Args>, issued: seq<Args>, settled: bool, cbs: seq<Cb>)
    requires NotifyOk(l, issued, settled)
    ensures NotifyOk(Apply(l, Add(cbs)), issued, settled)
  {
    if l.list.Live? && l.memory.Some? && !l.firing {
      var l1 := l.(firingIndex := |l.list.regs| - 1, queue := l.queue + [l.memory.value]);
      var l2 := Push(l1, cbs);
      var l3 := l2.(fired := true, firing := true);
      if settled {
        StartFireOne(l2, l.memory.value);
        LoopNotify(l3.(queue := []), issued, settled);
      } else {
        LoopNotify(l3, issued, settled);
      }
    }
  }

  lemma FireNotify<Args>(l: CbList<Args>, issued: seq<Args>, settled: bool, args: Args)
    requires NotifyOk(l, issued, settled) && args in issued
    ensures NotifyOk(Apply(l, FireWith(args)), issued, settled)
  {
    if !l.locked && !l.firing {
      var l1 := l.(queue := l.queue + [args]);
      LoopNotify(l1.(fired := true, firing := true), issued, settled);
    }
  }

  // ----- The invariant

  ghost predicate Inv<Args(!new)>(d: Deferred<Args>) {
    && NotifyOk(d.main.notify, d.issued, d.state.Some?)
    && NotifyOk(d.handlers.notify, d.issued, d.state.Some?) && !d.handlers.notify.firing
    && SidesOk(d.state, d.settledWith, d.main.resolve, d.handlers.resolve, d.main.reject, d.handlers.reject)
  }

  ghost predicate SidesOk<Args(!new)>(state: Option<Which>, settledWith: Option<Args>,
                                done: CbList<Args>, doneHandlers: CbList<Args>,
                                fail: CbList<Args>, failHandlers: CbList<Args>)
  {
    match state
    case None => settledWith.None? && PendingLists(done, doneHandlers) && PendingLists(fail, failHandlers)
    case Some(Resolve) =>
      settledWith.Some? && Winner(done, doneHandlers, settledWith.value) && Lost(fail) && Lost(failHandlers)
    case Some(Reject) =>
      settledWith.Some? && Winner(fail, failHandlers, settledWith.value) && Lost(done) && Lost(doneHandlers)
    case Some(Notify) => false
  }

  ghost predicate PendingLists<Args(!new)>(main: CbList<Args>, handlers: CbList<Args>) {
    Fresh(main, |BUILTINS|) && OnceRun(main) && Fresh(handlers, 0) && OnceRun(handlers)
  }

  ghost predicate Winner<Args(!new)>(main: CbList<Args>, handlers: CbList<Args>, args: Args) {
    Won(main, args) && OnceRun(main) && Won(handlers, args) && OnceRun(handlers) && !handlers.firing
  }

  /** A main list as the constructor leaves it. */
  lemma NewMainList<Args(!new)>(w: Which)
    requires w != Notify
    ensures Fresh(NewList<Args>(w), |BUILTINS|) && OnceRun(NewList<Args>(w))
  {
    var l0: CbList<Args> := Init(ONCE_MEMORY);
    var l1 := Push(l0, STATE_CALLBACKS);
    PushAppends(l0, STATE_CALLBACKS);
    PushAppends(l1, [FireHandlers]);
    NewListRun(l0);
    OnceRunStep(l0, C.Do(Add(STATE_CALLBACKS)));
    OnceRunStep(l1, C.Do(Add([FireHandlers])));
  }

  lemma NewListRun<Args(!new)>(l: CbList<Args>)
    requires l == Init(ONCE_MEMORY)
    ensures OnceRun(l)
  {
    var es: seq<C.Event<Cb, Args>> := [];
    assert IsOnceRun(l, es);
  }

  lemma NewInv<Args(!new)>()
    ensures Inv(New<Args>())
  {
    NewMainList<Args>(Resolve);
    NewMainList<Args>(Reject);
    NewListRun<Args>(Init(ONCE_MEMORY));
  }

  // ----- The first settlement

  /** The `k`-th callback of the list has just been invoked by its one firing. */
  ghost predicate Midway<Args(!new)>(l: CbList<Args>, regs: seq<Reg<Cb>>, k: nat, args: Args) {
    && l.opts == ONCE_MEMORY && l.firing && l.fired && l.locked && l.memory == Some(args) && l.queue == []
    && l.list == Live(regs) && k < |regs| && l.firingIndex == k
    && l.log != [] && LastCall(l) == Call(regs[k].id, regs[k].fn, args)
    && OnceRun(l)
  }

  ghost predicate BuiltinShape(regs: seq<Reg<Cb>>) {
    && |BUILTINS| <= |regs|
    && (forall i | 0 <= i < |BUILTINS| :: regs[i].fn == BUILTINS[i])
    && (forall i | |BUILTINS| <= i < |regs| :: regs[i].fn.User?)
  }

  lemma FirstBuiltin<Args(!new)>(l: CbList<Args>, args: Args)
    requires Fresh(l, |BUILTINS|) && OnceRun(l)
    ensures Midway(Apply(l, FireWith(args)), l.list.regs, 0, args)
  {
    StartFireOne(l.(queue := l.queue + [args]), args);
    OnceRunStep(l, C.Do(FireWith(args)));
  }

  lemma NextBuiltin<Args(!new)>(l: CbList<Args>, regs: seq<Reg<Cb>>, k: nat, args: Args)
    requires Midway(l, regs, k, args) && BuiltinShape(regs) && k < |BUILTINS|
    ensures k + 1 < |regs| ==> Midway(Returned(l, false), regs, k + 1, args)
    ensures k + 1 == |BUILTINS| ==> Won(Returned(l, false), args) && OnceRun(Returned(l, false))
  {
    OnceRunStep(l, C.Return(false));
    if k + 1 == |BUILTINS| {
      InnerWon(l, args);
    }
  }

  /** One round of `Builtins` on a list being settled. */
  lemma BuiltinRound<Args(!new)>(d: Deferred<Args>, w: Which, regs: seq<Reg<Cb>>, k: nat, args: Args)
    requires Midway(d.main.Get(w), regs, k, args) && BuiltinShape(regs) && k < |BUILTINS|
    ensures var d1 := Effect(d, w, BUILTINS[k], args);
      Builtins(d, w) == Builtins(d1.(main := d1.main.Set(w, Returned(d.main.Get(w), false))), w)
  {
    assert !BUILTINS[k].User?;
  }

  lemma AllBuiltins<Args(!new)>(d: Deferred<Args>, w: Which, regs: seq<Reg<Cb>>, args: Args) returns (l: CbList<Args>)
    requires w != Notify && Midway(d.main.Get(w), regs, 0, args) && BuiltinShape(regs)
    ensures Won(l, args) && OnceRun(l)
    ensures Builtins(d, w) == Builtins(Partly(d, w, l, args, |BUILTINS|), w)
  {
    var d' := d;
    l := d.main.Get(w);
    for k := 0 to |BUILTINS|
      invariant k < |BUILTINS| ==> Midway(l, regs, k, args)
      invariant k == |BUILTINS| ==> Won(l, args) && OnceRun(l)
      invariant d'.main.Get(w) == l && Builtins(d, w) == Builtins(d', w)
      invariant d' == Partly(d, w, l, args, k)
    {
      NextBuiltin(l, regs, k, args);
      BuiltinRound(d', w, regs, k, args);
      PartlyNext(d, w, l, Returned(l, false), args, k);
      d' := Effect(d', w, BUILTINS[k], args);
      l := Returned(l, false);
      d' := d'.(main := d'.main.Set(w, l));
    }
  }

  /** The deferred after the first `k` callbacks of the constructor. */
  function Partly<Args>(d: Deferred<Args>, w: Which, l: CbList<Args>, args: Args, k: nat): Deferred<Args>
    requires w != Notify
  {
    var opp := Opposite(w);
    d.(state := if k > 0 then Some(w) else d.state,
       main := Lists(
         if k > 3 then Apply(d.main.notify, Lock) else d.main.notify,
         if w.Resolve? then l else if k > 1 then Apply(d.main.resolve, Disable) else d.main.resolve,
         if w.Reject? then l else if k > 1 then Apply(d.main.reject, Disable) else d.main.reject),
       handlers := Lists(
         if k > 4 then Apply(d.handlers.notify, Lock) else d.handlers.notify,
         if w.Resolve? then (if k > 5 then Drain(Apply(d.handlers.resolve, FireWith(args))) else d.handlers.resolve)
         else if k > 2 then Apply(d.handlers.resolve, Disable) else d.handlers.resolve,
         if w.Reject? then (if k > 5 then Drain(Apply(d.handlers.reject, FireWith(args))) else d.handlers.reject)
         else if k > 2 then Apply(d.handlers.reject, Disable) else d.handlers.reject))
  }

  lemma PartlyNext<Args>(d: Deferred<Args>, w: Which, l: CbList<Args>, l': CbList<Args>, args: Args, k: nat)
    requires w != Notify && k < |BUILTINS|
    ensures var d1 := Effect(Partly(d, w, l, args, k), w, BUILTINS[k], args);
      d1.(main := d1.main.Set(w, l')) == Partly(d, w, l', args, k + 1)
  {
  }

  lemma LosesWhenDisabled<Args(!new)>(main: CbList<Args>, handlers: CbList<Args>)
    requires PendingLists(main, handlers)
    ensures Lost(Apply(main, Disable)) && Lost(Apply(handlers, Disable))
  {
  }

  lemma LockNotify<Args>(l: CbList<Args>, issued: seq<Args>)
    requires NotifyOk(l, issued, false)
    ensures NotifyOk(Apply(l, Lock), issued, true) && (!l.firing ==> !Apply(l, Lock).firing)
  {
  }

  lemma SettledSides<Args(!new)>(d: Deferred<Args>, w: Which, l: CbList<Args>, args: Args)
    requires Inv(d) && d.state.None? && w != Notify && Won(l, args) && OnceRun(l)
    ensures Inv(Partly(d, w, l, args, |BUILTINS|).(settledWith := Some(args)))
  {
    FireFresh(d.handlers.Get(w), args);
    LosesWhenDisabled(d.main.Get(Opposite(w)), d.handlers.Get(Opposite(w)));
    LockNotify(d.main.notify, d.issued);
    LockNotify(d.handlers.notify, d.issued);
  }

  lemma SettleKeeps<Args(!new)>(d: Deferred<Args>, w: Which, args: Args)
    requires Inv(d) && d.state.None? && w != Notify
    ensures var d' := ClientStep(d, Act(Fire(w, args)));
      Inv(d') && d'.state == Some(w) && d'.settledWith == Some(args)
  {
    var l := Apply(d.main.Get(w), FireWith(args));
    assert PendingLists(d.main.Get(w), d.handlers.Get(w));
    FirstBuiltin(d.main.Get(w), args);
    var d1 := d.(settledWith := Some(args), main := d.main.Set(w, l), stack := d.stack + [w]);
    assert ClientStep(d, Act(Fire(w, args))) == Builtins(d1, w);
    var l' := AllBuiltins(d1, w, d.main.Get(w).list.regs, args);
    SettledSides(d, w, l', args);
    var d2 := Partly(d1, w, l', args, |BUILTINS|);
    assert d2 == Partly(d, w, l', args, |BUILTINS|).(settledWith := Some(args), stack := d1.stack);
    assert Builtins(d2, w) == if l'.firing then d2 else d2.(stack := Pop(d2.stack));
  }

  // ----- Every step keeps the invariant

  lemma NotifyEffectKeeps<Args(!new)>(d: Deferred<Args>, cb: Cb, args: Args)
    requires Inv(d) && args in d.issued
    ensures var d' := Effect(d, Notify, cb, args);
      Inv(d') && d' == d.(handlers := d.handlers.Set(Notify, d'.handlers.notify))
  {
    if cb.FireHandlers? {
      FireNotify(d.handlers.notify, d.issued, d.state.Some?, args);
      DrainNotify(Apply(d.handlers.notify, FireWith(args)), d.issued, d.state.Some?);
    }
  }

  lemma NotifyReturnKeeps<Args(!new)>(d: Deferred<Args>)
    requires Inv(d)
    ensures Inv(d.(main := d.main.Set(Notify, Returned(d.main.notify, false))))
  {
    LoopNotify(d.main.notify, d.issued, d.state.Some?);
  }

  lemma NotifyLoopKeeps<Args(!new)>(d: Deferred<Args>)
    requires Inv(d)
    ensures var d' := Builtins(d, Notify);
      Inv(d') && d'.state == d.state && d'.settledWith == d.settledWith
    decreases if d.main.notify.firing then |d.main.notify.queue| else 0,
              if d.main.notify.firing then 1 + Left(d.main.notify) else 0
  {
    var l := d.main.notify;
    if l.firing && l.log != [] && !LastCall(l).fn.User? {
      var c := LastCall(l);
      NotifyEffectKeeps(d, c.fn, c.args);
      var d1 := Effect(d, Notify, c.fn, c.args);
      NotifyReturnKeeps(d1);
      ReturnedGoesOn(l);
      NotifyLoopKeeps(d1.(main := d1.main.Set(Notify, Returned(l, false))));
    }
  }

  lemma OnNotifyKeeps<Args(!new)>(d: Deferred<Args>, op: Op<Cb, Args>)
    requires Inv(d) && (op.Add? || op.FireWith?) && (op.FireWith? ==> op.args in d.issued)
    ensures var d' := OnMain(d, Notify, op);
      Inv(d') && d'.state == d.state && d'.settledWith == d.settledWith
  {
    match op {
      case Add(cbs) => AddNotify(d.main.notify, d.issued, d.state.Some?, cbs);
      case FireWith(args) => FireNotify(d.main.notify, d.issued, d.state.Some?, args);
    }
    var d1 := d.(main := d.main.Set(Notify, Apply(d.main.notify, op)));
    NotifyLoopKeeps(d1);
    NotifyLoopKeeps(d1.(stack := d.stack + [Notify]));
  }

  lemma ListenKeeps<Args(!new)>(d: Deferred<Args>, w: Which, ids: seq<int>)
    requires Inv(d)
    ensures var d' := ClientStep(d, Act(Listen(w, ids)));
      Inv(d') && d'.state == d.state && d'.settledWith == d.settledWith
  {
    var l := d.main.Get(w);
    if w.Notify? {
      OnNotifyKeeps(d, Add(Users(ids)));
    } else if d.state.None? {
      AddFresh(l, |BUILTINS|, ids);
      OnceRunStep(l, C.Do(Add(Users(ids))));
    } else if d.state.value == w {
      var args := d.settledWith.value;
      if !l.firing { WonIdle(l, args); }
      AddWon(l, args, ids);
      OnceRunStep(l, C.Do(Add(Users(ids))));
    }
  }

  lemma FireKeepsInv<Args(!new)>(d: Deferred<Args>, w: Which, args: Args)
    requires Inv(d)
    ensures var d' := ClientStep(d, Act(Fire(w, args)));
      && Inv(d')
      && d'.state == (if d.state.None? && w != Notify then Some(w) else d.state)
      && d'.settledWith == (if d.state.None? && w != Notify then Some(args) else d.settledWith)
  {
    if w != Notify {
      if d.state.None? {
        SettleKeeps(d, w, args);
      } else {
        assert d.main.Get(w).locked;
      }
    } else if d.state.None? {
      var d1 := d.(issued := d.issued + [args]);
      assert Inv(d1);
      OnNotifyKeeps(d1, FireWith(args));
    } else {
      assert d.main.notify.locked;
    }
  }

  lemma AddHandlerKeeps<Args(!new)>(d: Deferred<Args>, w: Which, id: int)
    requires Inv(d)
    ensures var d' := AddHandler(d, w, id);
      Inv(d') && d'.state == d.state && d'.settledWith == d.settledWith
  {
    var l := d.handlers.Get(w);
    var l1 := Apply(l, Add([User(id)]));
    assert Users([id]) == [User(id)];
    if w.Notify? {
      AddNotify(l, d.issued, d.state.Some?, [User(id)]);
      DrainNotify(l1, d.issued, d.state.Some?);
    } else if d.state.None? {
      AddFresh(l, 0, [id]);
      OnceRunStep(l, C.Do(Add([User(id)])));
    } else if d.state.value == w {
      var args := d.settledWith.value;
      WonIdle(l, args);
      AddWon(l, args, [id]);
      OnceRunStep(l, C.Do(Add([User(id)])));
      DrainWon(l1, args);
    }
  }

  lemma ReturnKeeps<Args(!new)>(d: Deferred<Args>)
    requires Inv(d)
    ensures var d' := ClientStep(d, CallbackReturns);
      Inv(d') && d'.state == d.state && d'.settledWith == d.settledWith
  {
    if d.stack != [] {
      var w := d.stack[|d.stack| - 1];
      var l := d.main.Get(w);
      if !l.firing {
        assert ClientStep(d, CallbackReturns) == d.(stack := Pop(d.stack));
      } else if w.Notify? {
        NotifyReturnKeeps(d);
        NotifyLoopKeeps(d.(main := d.main.Set(w, Returned(l, false))));
      } else {
        assert d.state == Some(w);
        ReturnedWon(l, d.settledWith.value);
        WonStops(d.(main := d.main.Set(w, Returned(l, false))), w);
      }
    }
  }

  /** A won list that is firing has just invoked a callback of the user. */
  lemma WonStops<Args(!new)>(d: Deferred<Args>, w: Which)
    requires Inv(d) && d.state == Some(w)
    ensures Builtins(d, w) == if d.main.Get(w).firing then d else d.(stack := Pop(d.stack))
  {
  }

  predicate Settles<Args>(e: ClientEvent<Args>) {
    e.Act? && e.op.Fire? && e.op.w != Notify
  }

  lemma ThenKeeps<Args(!new)>(d: Deferred<Args>, p: int, f: int, r: int)
    requires Inv(d)
    ensures var d' := ClientStep(d, Act(Then(p, f, r)));
      Inv(d') && d'.state == d.state && d'.settledWith == d.settledWith
  {
    AddHandlerKeeps(d, Notify, p);
    AddHandlerKeeps(AddHandler(d, Notify, p), Resolve, f);
    AddHandlerKeeps(AddHandler(AddHandler(d, Notify, p), Resolve, f), Reject, r);
  }

  /** Only the first attempt to settle changes the state. */
  lemma StepKeepsInv<Args(!new)>(d: Deferred<Args>, e: ClientEvent<Args>)
    requires Inv(d)
    ensures var d' := ClientStep(d, e);
      && Inv(d')
      && d'.state == (if d.state.None? && Settles(e) then Some(e.op.w) else d.state)
      && d'.settledWith == (if d.state.None? && Settles(e) then Some(e.op.args) else d.settledWith)
  {
    match e
    case CallbackReturns => ReturnKeeps(d);
    case Act(Listen(w, ids)) => ListenKeeps(d, w, ids);
    case Act(Fire(w, args)) => FireKeepsInv(d, w, args);
    case Act(Then(p, f, r)) => ThenKeeps(d, p, f, r);
  }

  lemma {:induction false} RunKeepsInv<Args(!new)>(es: seq<ClientEvent<Args>>)
    ensures Inv(ClientRun(es))
  {
    if es == [] {
      NewInv<Args>();
    } else {
      RunKeepsInv(es[..|es| - 1]);
      StepKeepsInv(ClientRun(es[..|es| - 1]), es[|es| - 1]);
    }
  }

  // ----- Main results

  /** The first `resolve` or `reject` of a run. */
  function FirstSettle<Args>(es: seq<ClientEvent<Args>>): Option<(Which, Args)> {
    if es == [] then None
    else
      var before, e := es[..|es| - 1], es[|es| - 1];
      if FirstSettle(before).Some? then FirstSettle(before)
      else if Settles(e) then Some((e.op.w, e.op.args))
      else None
  }

  /** The state is decided by the first `resolve` or `reject` of the run, however deeply nested,
      and never changes afterwards. */
  lemma {:induction false} StateFollowsFirstSettle<Args(!new)>(es: seq<ClientEvent<Args>>)
    ensures var d := ClientRun(es);
      match FirstSettle(es)
      case None => d.state.None? && d.settledWith.None?
      case Some((w, args)) => d.state == Some(w) && d.settledWith == Some(args)
  {
    if es != [] {
      var before, e := es[..|es| - 1], es[|es| - 1];
      StateFollowsFirstSettle(before);
      RunKeepsInv(before);
      StepKeepsInv(ClientRun(before), e);
    }
  }

  ghost predicate RanUser<Args>(l: CbList<Args>) {
    exists i | 0 <= i < |l.log| :: l.log[i].fn.User?
  }

  /** A done (or fail) callback or handler only ever runs when the state is already "resolved"
      (or "rejected"), so that done and fail callbacks never both run. */
  lemma UserCallbacksSeeState<Args(!new)>(es: seq<ClientEvent<Args>>, w: Which)
    requires w != Notify
    ensures var d := ClientRun(es);
      && (RanUser(d.main.Get(w)) || RanUser(d.handlers.Get(w)) ==> d.state == Some(w))
      && !(RanUser(d.main.Get(w)) && RanUser(d.main.Get(Opposite(w))))
      && !(RanUser(d.handlers.Get(w)) && RanUser(d.handlers.Get(Opposite(w))))
  {
    RunKeepsInv(es);
    OnlyWinnersRun(ClientRun(es), w);
    OnlyWinnersRun(ClientRun(es), Opposite(w));
  }

  lemma OnlyWinnersRun<Args(!new)>(d: Deferred<Args>, w: Which)
    requires Inv(d) && w != Notify
    ensures RanUser(d.main.Get(w)) || RanUser(d.handlers.Get(w)) ==> d.state == Some(w)
  {
  }

  ghost predicate Received<Args>(l: CbList<Args>, args: Args) {
    exists i | 0 <= i < |l.log| :: l.log[i].args == args
  }

  ghost predicate NotifiedWhilePending<Args>(es: seq<ClientEvent<Args>>, args: Args) {
    exists k | 0 <= k < |es| :: es[k] == Act(Fire(Notify, args)) && ClientRun(es[..k]).state.None?
  }

  /** The history of notifications is right. */
  lemma {:induction false} IssuedWhilePending<Args(!new)>(es: seq<ClientEvent<Args>>, args: Args)
    requires args in ClientRun(es).issued
    ensures NotifiedWhilePending(es, args)
  {
    if es != [] {
      var before, e := es[..|es| - 1], es[|es| - 1];
      if args in ClientRun(before).issued {
        IssuedWhilePending(before, args);
        var k :| 0 <= k < |before| && before[k] == Act(Fire(Notify, args)) && ClientRun(before[..k]).state.None?;
        assert es[k] == before[k] && es[..k] == before[..k];
      } else {
        IssuedByStep(ClientRun(before), e, args);
        assert es[..|es| - 1] == before;
      }
    }
  }

  lemma IssuedByStep<Args(!new)>(d: Deferred<Args>, e: ClientEvent<Args>, args: Args)
    requires args in ClientStep(d, e).issued && args !in d.issued
    ensures e == Act(Fire(Notify, args)) && d.state.None?
  {
    match e
    case CallbackReturns =>
      if d.stack != [] {
        var w := d.stack[|d.stack| - 1];
        BuiltinsIssueNothing(d.(main := d.main.Set(w, C.Step(d.main.Get(w), C.Return(false)))), w);
      }
    case Act(Listen(w, ids)) => OnMainIssuesNothing(d, w, Add(Users(ids)));
    case Act(Fire(w, x)) =>
      var d1 :=
        if w.Notify? then d.(issued := if d.state.None? then d.issued + [x] else d.issued)
        else d.(settledWith := if d.main.Get(w).locked then d.settledWith else Some(x));
      OnMainIssuesNothing(d1, w, FireWith(x));
    case Act(Then(p, f, r)) =>
  }

  lemma OnMainIssuesNothing<Args(!new)>(d: Deferred<Args>, w: Which, op: Op<Cb, Args>)
    ensures OnMain(d, w, op).issued == d.issued
  {
    BuiltinsIssueNothing(d.(main := d.main.Set(w, Apply(d.main.Get(w), op)), stack := d.stack + [w]), w);
  }

  lemma BuiltinsIssueNothing<Args(!new)>(d: Deferred<Args>, w: Which)
    ensures Builtins(d, w).issued == d.issued
    decreases if d.main.Get(w).firing then |d.main.Get(w).queue| else 0,
              if d.main.Get(w).firing then 1 + Left(d.main.Get(w)) else 0
  {
    var l := d.main.Get(w);
    if l.firing && l.log != [] && !LastCall(l).fn.User? {
      var d1 := Effect(d, w, LastCall(l).fn, LastCall(l).args);
      ReturnedGoesOn(l);
      BuiltinsIssueNothing(d1.(main := d1.main.Set(w, Returned(l, false))), w);
    }
  }

  /** What a progress callback or handler receives was issued while the deferred was pending. */
  lemma ReceivedWasPending<Args(!new)>(es: seq<ClientEvent<Args>>, args: Args)
    requires var d := ClientRun(es); Received(d.main.notify, args) || Received(d.handlers.notify, args)
    ensures NotifiedWhilePending(es, args)
  {
    RunKeepsInv(es);
    IssuedWhilePending(es, args);
  }

  /** A notification issued after the settlement, and told from all others by its arguments, is
      never delivered. */
  lemma NoLateNotifications<Args(!new)>(es: seq<ClientEvent<Args>>, k: nat, args: Args)
    requires k < |es| && es[k] == Act(Fire(Notify, args)) && ClientRun(es[..k]).state.Some?
    requires forall j | 0 <= j < |es| && j != k :: es[j] != Act(Fire(Notify, args))
    ensures var d := ClientRun(es); !Received(d.main.notify, args) && !Received(d.handlers.notify, args)
  {
    var d := ClientRun(es);
    if Received(d.main.notify, args) || Received(d.handlers.notify, args) {
      ReceivedWasPending(es, args);
    }
  }

  /** Once settled and with no callback of the winning list running, each of its callbacks ran
      exactly once, in the order of registration, with the arguments of the settlement; the
      `then` handlers of the winning kind likewise; and those of the other kind never ran. */
  lemma SettledCallbacksRunOnce<Args(!new)>(es: seq<ClientEvent<Args>>, w: Which, args: Args)
    requires FirstSettle(es) == Some((w, args))
    ensures var d := ClientRun(es);
      && (!d.main.Get(w).firing ==> d.main.Get(w).log == Delivered(d.main.Get(w).registered, args))
      && d.handlers.Get(w).log == Delivered(d.handlers.Get(w).registered, args)
      && d.main.Get(Opposite(w)).log == [] && d.handlers.Get(Opposite(w)).log == []
  {
    RunKeepsInv(es);
    StateFollowsFirstSettle(es);
    var d := ClientRun(es);
    WonIdle(d.handlers.Get(w), args);
    if !d.main.Get(w).firing {
      WonIdle(d.main.Get(w), args);
    }
  }
}
