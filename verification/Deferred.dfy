/** jQuery.Deferred: six callback lists wired together.

    `resolve`, `reject` and `notify` fire the three main lists.  The first callbacks of a main
    list are put there by the constructor: they set the state, disable the opposite lists, lock
    the progress lists and fire the list of `then` handlers.  All later ones belong to the user
    and may call back into the deferred, so that firings nest: the stack holds the main lists
    that are firing, innermost last.  Handlers added by `then` only start a timer. */
module Deferred {
  import opened Wrappers
  import opened Callbacks
  import opened CallbacksOnce

  datatype Which = Notify | Resolve | Reject

  function Opposite(w: Which): Which {
    if w.Resolve? then Reject else Resolve
  }

  datatype Cb =
    | SetState
    | DisableOpposite
    | DisableOppositeHandlers
    | LockProgress
    | LockProgressHandlers
    | FireHandlers
    | User(id: int)

  const STATE_CALLBACKS: seq<Cb> :=
    [SetState, DisableOpposite, DisableOppositeHandlers, LockProgress, LockProgressHandlers]

  const ONCE_MEMORY := Options(true, true, false, false)
  const MEMORY := Options(false, true, false, false)

  type CbList<Args> = l: State<Cb, Args> | -1 <= l.firingIndex witness Init(MEMORY)

  datatype Lists<Args> = Lists(notify: CbList<Args>, resolve: CbList<Args>, reject: CbList<Args>) {
    function Get(w: Which): CbList<Args> {
      match w case Notify => notify case Resolve => resolve case Reject => reject
    }

    function Set(w: Which, l: CbList<Args>): Lists<Args> {
      match w case Notify => this.(notify := l) case Resolve => this.(resolve := l) case Reject => this.(reject := l)
    }
  }

  /** The state (`None` is "pending"), the lists, the nested firings, and two history variables:
      the notifications issued while pending, and the arguments of the accepted settlement. */
  datatype Deferred<Args> = Deferred(
    state: Option<Which>, main: Lists<Args>, handlers: Lists<Args>, stack: seq<Which>,
    issued: seq<Args>, settledWith: Option<Args>)

  /** What a client can do with a deferred. */
  datatype ClientOp<Args> =
    | Listen(w: Which, ids: seq<int>)                   // progress, done, fail
    | Fire(w: Which, args: Args)                        // notify, resolve, reject
    | Then(onProgress: int, onDone: int, onFail: int)

  datatype ClientEvent<Args> = Act(op: ClientOp<Args>) | CallbackReturns

  function Users(ids: seq<int>): (cbs: seq<Cb>)
    ensures |cbs| == |ids| && forall i | 0 <= i < |ids| :: cbs[i] == User(ids[i])
  {
    seq(|ids|, i requires 0 <= i < |ids| => User(ids[i]))
  }

  function NewList<Args>(w: Which): CbList<Args> {
    if w.Notify? then
      Apply(Init(MEMORY), Add([FireHandlers]))
    else
      Apply(Apply(Init(ONCE_MEMORY), Add(STATE_CALLBACKS)), Add([FireHandlers]))
  }

  function New<Args>(): Deferred<Args> {
    Deferred(None, Lists(NewList(Notify), NewList(Resolve), NewList(Reject)),
             Lists(Init(MEMORY), Init(ONCE_MEMORY), Init(ONCE_MEMORY)), [], [], None)
  }

  // ----- The constructor's callbacks

  /** What a callback put into list `w` by the constructor does; the state callbacks are only
      put into the lists that have a final state. */
  function Effect<Args>(d: Deferred<Args>, w: Which, cb: Cb, args: Args): (d': Deferred<Args>)
    ensures d'.main.Get(w) == d.main.Get(w) && d'.stack == d.stack
  {
    var opp := Opposite(w);
    if cb.FireHandlers? then
      d.(handlers := d.handlers.Set(w, Drain(Apply(d.handlers.Get(w), FireWith(args)))))
    else if cb.User? || w.Notify? then d
    else if cb.SetState? then d.(state := Some(w))
    else if cb.DisableOpposite? then d.(main := d.main.Set(opp, Apply(d.main.Get(opp), Disable)))
    else if cb.DisableOppositeHandlers? then d.(handlers := d.handlers.Set(opp, Apply(d.handlers.Get(opp), Disable)))
    else if cb.LockProgress? then d.(main := d.main.Set(Notify, Apply(d.main.notify, Lock)))
    else d.(handlers := d.handlers.Set(Notify, Apply(d.handlers.notify, Lock)))
  }

  function LastCall<Args>(l: CbList<Args>): Call<Cb, Args>
    requires l.log != []
  {
    l.log[|l.log| - 1]
  }

  function Pop(stack: seq<Which>): seq<Which> {
    if stack == [] then [] else stack[..|stack| - 1]
  }

  /** List `w` has invoked a callback or ended its firing: runs the constructor's callbacks until
      a user callback has control or the firing is over. */
  function Builtins<Args>(d: Deferred<Args>, w: Which): (d': Deferred<Args>)
    decreases if d.main.Get(w).firing then |d.main.Get(w).queue| else 0,
              if d.main.Get(w).firing then 1 + Left(d.main.Get(w)) else 0
  {
    var l := d.main.Get(w);
    if !l.firing then d.(stack := Pop(d.stack))
    else if l.log == [] || LastCall(l).fn.User? then d
    else
      var d1 := Effect(d, w, LastCall(l).fn, LastCall(l).args);
      ReturnedGoesOn(l);
      Builtins(d1.(main := d1.main.Set(w, Returned(l, false))), w)
  }

  // ----- Client operations

  /** An operation on a main list; it nests a new firing when the list was idle and starts. */
  function OnMain<Args>(d: Deferred<Args>, w: Which, op: Op<Cb, Args>): (d': Deferred<Args>)
  {
    var l := Apply(d.main.Get(w), op);
    var d1 := d.(main := d.main.Set(w, l));
    if !d.main.Get(w).firing && l.firing then Builtins(d1.(stack := d.stack + [w]), w) else d1
  }

  function AddHandler<Args>(d: Deferred<Args>, w: Which, id: int): (d': Deferred<Args>)
  {
    d.(handlers := d.handlers.Set(w, Drain(Apply(d.handlers.Get(w), Add([User(id)])))))
  }

  function ClientStep<Args>(d: Deferred<Args>, e: ClientEvent<Args>): (d': Deferred<Args>)
  {
    match e
    case Act(Listen(w, ids)) => OnMain(d, w, Add(Users(ids)))
    case Act(Fire(w, args)) =>
      var d1 :=
        if w.Notify? then d.(issued := if d.state.None? then d.issued + [args] else d.issued)
        else d.(settledWith := if d.main.Get(w).locked then d.settledWith else Some(args));
      OnMain(d1, w, FireWith(args))
    case Act(Then(onProgress, onDone, onFail)) =>
      AddHandler(AddHandler(AddHandler(d, Notify, onProgress), Resolve, onDone), Reject, onFail)
    case CallbackReturns =>
      if d.stack == [] then d
      else
        var w := d.stack[|d.stack| - 1];
        Builtins(d.(main := d.main.Set(w, Callbacks.Step(d.main.Get(w), Callbacks.Return(false)))), w)
  }

  function ClientRun<Args>(es: seq<ClientEvent<Args>>): (d: Deferred<Args>)
  {
    if es == [] then New() else ClientStep(ClientRun(es[..|es| - 1]), es[|es| - 1])
  }
}
