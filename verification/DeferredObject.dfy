/** The deferred as the object it is: six callback lists that its methods and the constructor's
    callbacks update in place, each method proved to do what module Deferred says. */
module DeferredObject {
  import opened Wrappers
  import opened Callbacks
  import opened CallbackList
  import opened D = Deferred

  class DeferredObject<Args> {
    var state: Option<Which>
    var stack: seq<Which>
    ghost var issued: seq<Args>
    ghost var settledWith: Option<Args>
    const notify: CallbackList<Cb, Args>
    const resolve: CallbackList<Cb, Args>
    const reject: CallbackList<Cb, Args>
    const notifyHandlers: CallbackList<Cb, Args>
    const resolveHandlers: CallbackList<Cb, Args>
    const rejectHandlers: CallbackList<Cb, Args>

    constructor ()
      ensures Valid() && View() == New()
    {
      var progress := NewMainList(Notify);
      var done := NewMainList(Resolve);
      var fail := NewMainList(Reject);
      notify, resolve, reject := progress, done, fail;
      notifyHandlers := new CallbackList(MEMORY);
      resolveHandlers := new CallbackList(ONCE_MEMORY);
      rejectHandlers := new CallbackList(ONCE_MEMORY);
      state, stack, issued, settledWith := None, [], [], None;
      new;
      assert MainView() == New<Args>().main && HandlersView() == New<Args>().handlers;
    }

    ghost predicate Valid()
      reads notify, resolve, reject, notifyHandlers, resolveHandlers, rejectHandlers
    {
      && notify.Valid() && resolve.Valid() && reject.Valid()
      && notifyHandlers.Valid() && resolveHandlers.Valid() && rejectHandlers.Valid()
      && notify !in {resolve, reject, notifyHandlers, resolveHandlers, rejectHandlers}
      && resolve !in {reject, notifyHandlers, resolveHandlers, rejectHandlers}
      && reject !in {notifyHandlers, resolveHandlers, rejectHandlers}
      && notifyHandlers !in {resolveHandlers, rejectHandlers}
      && resolveHandlers != rejectHandlers
    }

    ghost function View(): Deferred<Args>
      requires Valid()
      reads this, notify, resolve, reject, notifyHandlers, resolveHandlers, rejectHandlers
    {
      D.Deferred(state, MainView(), HandlersView(), stack, issued, settledWith)
    }

    ghost function MainView(): Lists<Args>
      requires Valid()
      reads notify, resolve, reject, notifyHandlers, resolveHandlers, rejectHandlers
    {
      Lists(notify.View(), resolve.View(), reject.View())
    }

    ghost function HandlersView(): Lists<Args>
      requires Valid()
      reads notify, resolve, reject, notifyHandlers, resolveHandlers, rejectHandlers
    {
      Lists(notifyHandlers.View(), resolveHandlers.View(), rejectHandlers.View())
    }

    function Main(w: Which): CallbackList<Cb, Args> {
      match w case Notify => notify case Resolve => resolve case Reject => reject
    }

    function Handlers(w: Which): CallbackList<Cb, Args> {
      match w case Notify => notifyHandlers case Resolve => resolveHandlers case Reject => rejectHandlers
    }

    /** What a callback of the constructor does. */
    method Effect(w: Which, cb: Cb, args: Args)
      requires Valid()
      modifies `state, notify, resolve, reject, notifyHandlers, resolveHandlers, rejectHandlers
      ensures Valid() && View() == D.Effect(old(View()), w, cb, args)
    {
      if cb.FireHandlers? {
        RunHandlers(w, args);
      } else if cb.SetState? {
        if w != Notify { state := Some(w); }
      } else if w != Notify {
        Close(w, cb);
      }
    }

    method RunHandlers(w: Which, args: Args)
      requires Valid()
      modifies notifyHandlers, resolveHandlers, rejectHandlers
      ensures Valid()
      ensures View() ==
        var d := old(View()); d.(handlers := d.handlers.Set(w, Drain(Apply(d.handlers.Get(w), Op.FireWith(args)))))
    {
      Handlers(w).FireWith(args);
      DrainList(Handlers(w));
    }

    /** Disables or locks one of the other lists. */
    method Close(w: Which, cb: Cb)
      requires Valid() && w != Notify && !cb.FireHandlers? && !cb.SetState?
      modifies notify, resolve, reject, notifyHandlers, resolveHandlers, rejectHandlers
      ensures Valid() && forall args :: View() == D.Effect(old(View()), w, cb, args)
    {
      match cb
      case DisableOpposite => Main(Opposite(w)).Disable();
      case DisableOppositeHandlers => Handlers(Opposite(w)).Disable();
      case LockProgress => notify.Lock();
      case LockProgressHandlers => notifyHandlers.Lock();
      case User(_) =>
    }

    /** Runs the constructor's callbacks of a main list, up to a callback of the user or to the
        end of the firing. */
    method RunBuiltins(w: Which)
      requires Valid()
      modifies `state, `stack, notify, resolve, reject, notifyHandlers, resolveHandlers, rejectHandlers
      ensures Valid() && View() == Builtins(old(View()), w)
    {
      var l := Main(w);
      ghost var end := Builtins(View(), w);
      while l.firing && l.log != [] && !l.log[|l.log| - 1].fn.User?
        invariant Valid() && Builtins(View(), w) == end
        invariant stack == old(stack)
        decreases if l.firing then |l.queue| else 0, if l.firing then 1 + Left(l.View()) else 0
      {
        RunBuiltin(w);
      }
      Stop(w);
    }

    /** The user has control, or the firing is over. */
    method Stop(w: Which)
      requires Valid() && var l := Main(w); !(l.firing && l.log != [] && !l.log[|l.log| - 1].fn.User?)
      modifies `stack
      ensures View() == Builtins(old(View()), w)
    {
      BuiltinsStop(View(), w);
      if !Main(w).firing { stack := Pop(stack); }
    }

    /** Lets the callback that has control return, after what it does. */
    method RunBuiltin(w: Which)
      requires Valid() && var l := Main(w); l.firing && l.log != [] && !l.log[|l.log| - 1].fn.User?
      modifies `state, notify, resolve, reject, notifyHandlers, resolveHandlers, rejectHandlers
      ensures Valid() && Builtins(View(), w) == Builtins(old(View()), w)
      ensures var l := Main(w); l.firing ==>
        |l.queue| < |old(l.queue)| || (|l.queue| == |old(l.queue)| && Left(l.View()) < Left(old(l.View())))
    {
      var l := Main(w);
      var call := l.log[|l.log| - 1];
      BuiltinsGoOn(View(), w);
      ReturnedGoesOn(l.View());
      Effect(w, call.fn, call.args);
      l.Resume(false);
    }

    /** `progress`, `done` and `fail`. */
    method Listen(w: Which, ids: seq<int>)
      requires Valid()
      modifies `state, `stack, notify, resolve, reject, notifyHandlers, resolveHandlers, rejectHandlers
      ensures Valid() && View() == ClientStep(old(View()), Act(ClientOp.Listen(w, ids)))
    {
      OnMain(w, Op.Add(Users(ids)));
    }

    /** `notify`, `resolve` and `reject`. */
    method Fire(w: Which, args: Args)
      requires Valid()
      modifies this, notify, resolve, reject, notifyHandlers, resolveHandlers, rejectHandlers
      ensures Valid() && View() == ClientStep(old(View()), Act(ClientOp.Fire(w, args)))
    {
      if w.Notify? {
        issued := if state.None? then issued + [args] else issued;
      } else {
        settledWith := if Main(w).locked then settledWith else Some(args);
      }
      OnMain(w, Op.FireWith(args));
    }

    method OnMain(w: Which, op: Op<Cb, Args>)
      requires Valid() && (op.Add? || op.FireWith?)
      modifies `state, `stack, notify, resolve, reject, notifyHandlers, resolveHandlers, rejectHandlers
      ensures Valid() && View() == D.OnMain(old(View()), w, op)
    {
      var was := Main(w).firing;
      match op {
        case Add(cbs) => Main(w).Add(cbs);
        case FireWith(args) => Main(w).FireWith(args);
      }
      Nested(w, was);
    }

    /** A firing that has just started on a main list nests in those that are going on. */
    method Nested(w: Which, was: bool)
      requires Valid()
      modifies `state, `stack, notify, resolve, reject, notifyHandlers, resolveHandlers, rejectHandlers
      ensures Valid()
      ensures View() ==
        if !was && old(Main(w).firing) then Builtins(old(View()).(stack := old(stack) + [w]), w) else old(View())
    {
      if !was && Main(w).firing {
        stack := stack + [w];
        RunBuiltins(w);
      }
    }

    /** `then`, as far as this deferred goes: adds one handler of each kind. */
    method Then(onProgress: int, onDone: int, onFail: int)
      requires Valid()
      modifies notifyHandlers, resolveHandlers, rejectHandlers
      ensures Valid() && View() == ClientStep(old(View()), Act(ClientOp.Then(onProgress, onDone, onFail)))
    {
      AddHandler(Notify, onProgress);
      AddHandler(Resolve, onDone);
      AddHandler(Reject, onFail);
    }

    method AddHandler(w: Which, id: int)
      requires Valid()
      modifies notifyHandlers, resolveHandlers, rejectHandlers
      ensures Valid() && View() == D.AddHandler(old(View()), w, id)
    {
      Handlers(w).Add([User(id)]);
      DrainList(Handlers(w));
    }

    /** The user callback that has control returns. */
    method CallbackReturns()
      requires Valid()
      modifies `state, `stack, notify, resolve, reject, notifyHandlers, resolveHandlers, rejectHandlers
      ensures Valid() && View() == ClientStep(old(View()), ClientEvent.CallbackReturns)
    {
      if stack != [] {
        var w := stack[|stack| - 1];
        Main(w).Resume(false);
        RunBuiltins(w);
      }
    }
  }

  lemma BuiltinsStop<Args>(d: Deferred<Args>, w: Which)
    requires var l := d.main.Get(w); !(l.firing && l.log != [] && !LastCall(l).fn.User?)
    ensures Builtins(d, w) == if d.main.Get(w).firing then d else d.(stack := Pop(d.stack))
  {
  }

  lemma BuiltinsGoOn<Args>(d: Deferred<Args>, w: Which)
    requires var l := d.main.Get(w); l.firing && l.log != [] && !LastCall(l).fn.User?
    ensures var l := d.main.Get(w); var d1 := D.Effect(d, w, LastCall(l).fn, LastCall(l).args);
      Builtins(d, w) == Builtins(d1.(main := d1.main.Set(w, Returned(l, false))), w)
  {
  }

  /** A list with the callbacks that the constructor adds. */
  method NewMainList<Args>(w: Which) returns (l: CallbackList<Cb, Args>)
    ensures fresh(l) && l.Valid() && l.View() == NewList(w)
  {
    l := new CallbackList(if w.Notify? then MEMORY else ONCE_MEMORY);
    if w != Notify { l.Add(STATE_CALLBACKS); }
    l.Add([FireHandlers]);
  }

  /** Lets the callbacks of a handlers list run, none of which calls back. */
  method DrainList<Args>(l: CallbackList<Cb, Args>)
    requires l.Valid()
    modifies l
    ensures l.Valid() && l.View() == Drain(old(l.View()))
  {
    while l.firing
      invariant l.Valid() && Drain(l.View()) == Drain(old(l.View()))
      decreases if l.firing then |l.queue| else 0, if l.firing then 1 + Left(l.View()) else 0
    {
      ReturnedGoesOn(l.View());
      l.Resume(false);
    }
  }
}
