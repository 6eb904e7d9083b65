/** jQuery.Callbacks: a callback list whose callbacks may call back into the list.

    While the list fires, a running callback may add, remove, fire, lock, disable or empty the
    very list it was called from.  The source keeps this sound by a live `firingIndex` and a
    queue: a nested fire only queues its data.  The model cuts the firing loop at every callback
    invocation, so that a run is a sequence of events: an operation made by whoever has control
    (a callback, or other code when nothing fires), or the return of the running callback. */
module Callbacks {
  import opened Wrappers

  datatype Options = Options(once: bool, memory: bool, unique: bool, stopOnFalse: bool)

  /** One registration: the `id`-th callback ever pushed onto the list. */
  datatype Reg<Fn> = Reg(id: nat, fn: Fn)

  /** One invocation of a registered callback. */
  datatype Call<Fn, Args> = Call(id: nat, fn: Fn, args: Args)

  /** The list variable: an array, or the empty string of a spent list. */
  datatype List<Fn> = Live(regs: seq<Reg<Fn>>) | Spent {
    function Regs(): seq<Reg<Fn>> {
      if Live? then regs else []
    }
  }

  /** The variables of one callback list, followed by three history variables: every callback
      ever pushed, every invocation made, and the registrations taken out before being reached. */
  datatype State<Fn, Args> = State(
    opts: Options, firing: bool, memory: Option<Args>, fired: bool, locked: bool,
    list: List<Fn>, queue: seq<Args>, firingIndex: int,
    registered: seq<Fn>, log: seq<Call<Fn, Args>>, dropped: set<nat>)

  datatype Op<Fn, Args> =
    | Add(fns: seq<Fn>)
    | Remove(fns: seq<Fn>)
    | FireWith(args: Args)
    | Lock
    | Disable
    | Empty

  /** What happens next in a run: an operation, or the running callback returns. */
  datatype Event<Fn, Args> = Do(op: Op<Fn, Args>) | Return(isFalse: bool)

  function Init<Fn, Args>(opts: Options): State<Fn, Args> {
    State(opts, false, None, false, false, Live([]), [], -1, [], [], {})
  }

  // ----- The firing loop

  function Call0<Fn, Args>(s: State<Fn, Args>, k: nat, args: Args): State<Fn, Args>
    requires k < |s.list.Regs()|
  {
    var r := s.list.Regs()[k];
    s.(firingIndex := k, log := s.log + [Call(r.id, r.fn, args)])
  }

  /** Runs the firing loop from the top of the inner `while` up to the next invocation, or to
      the end of the firing. */
  function Inner<Fn, Args>(s: State<Fn, Args>): (t: State<Fn, Args>)
    requires -1 <= s.firingIndex
    ensures -1 <= t.firingIndex && t.opts == s.opts && t.registered == s.registered
    ensures t.firing ==> |t.log| == |s.log| + 1
    decreases |s.queue|, 1
  {
    var k := s.firingIndex + 1;
    if k < |s.list.Regs()| && s.memory.Some? then
      Call0(s, k, s.memory.value)
    else
      Outer(s.(firingIndex := -1))
  }

  function Outer<Fn, Args>(s: State<Fn, Args>): (t: State<Fn, Args>)
    requires -1 <= s.firingIndex
    ensures -1 <= t.firingIndex && t.opts == s.opts && t.registered == s.registered
    ensures t.firing ==> |t.log| == |s.log| + 1
    decreases |s.queue|, 0
  {
    if s.queue == [] then
      Finish(s)
    else
      Inner(s.(memory := Some(s.queue[0]), queue := s.queue[1..]))
  }

  function Finish<Fn, Args>(s: State<Fn, Args>): State<Fn, Args> {
    var memory := if s.opts.memory then s.memory else None;
    s.(memory := memory, firing := false,
       list := if s.locked then (if memory.Some? then Live([]) else Spent) else s.list)
  }

  /** The local function `fire`. */
  function StartFire<Fn, Args>(s: State<Fn, Args>): State<Fn, Args>
    requires -1 <= s.firingIndex
  {
    Outer(s.(locked := s.locked || s.opts.once, fired := true, firing := true))
  }

  // ----- The operations

  predicate HasFn<Fn(==)>(regs: seq<Reg<Fn>>, f: Fn) {
    exists i | 0 <= i < |regs| :: regs[i].fn == f
  }

  /** Pushes callbacks in order; with `unique`, only those not yet in the list. */
  function Push<Fn(==), Args>(s: State<Fn, Args>, fns: seq<Fn>): (t: State<Fn, Args>)
    requires s.list.Live?
    ensures t.list.Live? && t == s.(list := t.list, registered := t.registered)
    decreases fns
  {
    if fns == [] then s
    else if s.opts.unique && HasFn(s.list.regs, fns[0]) then Push(s, fns[1..])
    else
      Push(s.(list := Live(s.list.regs + [Reg(|s.registered|, fns[0])]),
              registered := s.registered + [fns[0]]), fns[1..])
  }

  /** The registrations of `regs` for other callbacks than `f`. */
  function Without<Fn(==)>(regs: seq<Reg<Fn>>, f: Fn): (r: seq<Reg<Fn>>) {
    if regs == [] then []
    else (if regs[0].fn == f then [] else [regs[0]]) + Without(regs[1..], f)
  }

  /** The number of registrations of `f` among the first `n`. */
  function Count<Fn(==)>(regs: seq<Reg<Fn>>, f: Fn, n: int): nat {
    if regs == [] || n <= 0 then 0
    else (if regs[0].fn == f then 1 else 0) + Count(regs[1..], f, n - 1)
  }

  /** The registrations not yet reached by the current firing (all of them when idle). */
  function Ahead<Fn, Args>(s: State<Fn, Args>): seq<Reg<Fn>> {
    var regs := s.list.Regs();
    if s.firingIndex < 0 then regs else if s.firingIndex < |regs| then regs[s.firingIndex + 1..] else []
  }

  function Ids<Fn>(regs: seq<Reg<Fn>>): set<nat> {
    set i | 0 <= i < |regs| :: regs[i].id
  }

  lemma CountBound<Fn>(regs: seq<Reg<Fn>>, f: Fn, n: int)
    ensures n >= 0 ==> Count(regs, f, n) <= n
  {
  }

  /** Removes every registration of `f`; the firing index moves back by the number of removed
      registrations at or before it. */
  function RemoveFn<Fn(==), Args>(s: State<Fn, Args>, f: Fn): (t: State<Fn, Args>)
    requires s.list.Live? && -1 <= s.firingIndex
    ensures -1 <= t.firingIndex
  {
    CountBound(s.list.regs, f, s.firingIndex + 1);
    var t := s.(list := Live(Without(s.list.regs, f)),
                firingIndex := s.firingIndex - Count(s.list.regs, f, s.firingIndex + 1));
    t.(dropped := s.dropped + (Ids(Ahead(s)) - Ids(Ahead(t))))
  }

  function RemoveAll<Fn(==), Args>(s: State<Fn, Args>, fns: seq<Fn>): (t: State<Fn, Args>)
    requires s.list.Live? && -1 <= s.firingIndex
    ensures t.list.Live? && -1 <= t.firingIndex
    ensures t == s.(list := t.list, firingIndex := t.firingIndex, dropped := t.dropped)
    decreases fns
  {
    if fns == [] then s else RemoveAll(RemoveFn(s, fns[0]), fns[1..])
  }

  function Apply<Fn(==), Args>(s: State<Fn, Args>, op: Op<Fn, Args>): (t: State<Fn, Args>)
    requires -1 <= s.firingIndex
    ensures -1 <= t.firingIndex && t.opts == s.opts
  {
    match op
    case Add(fns) =>
      if s.list.Spent? then s
      else if s.memory.Some? && !s.firing then
        StartFire(Push(s.(firingIndex := |s.list.regs| - 1, queue := s.queue + [s.memory.value]), fns))
      else
        Push(s, fns)
    case Remove(fns) =>
      if s.list.Spent? then s else RemoveAll(s, fns)
    case FireWith(args) =>
      if s.locked then s
      else if s.firing then s.(queue := s.queue + [args])
      else StartFire(s.(queue := s.queue + [args]))
    case Lock =>
      var s' := s.(locked := true, queue := []);
      if s.memory.None? && !s.firing then
        s'.(list := Spent, dropped := s.dropped + Ids(Ahead(s)))
      else s'
    case Disable =>
      s.(locked := true, queue := [], list := Spent, memory := None,
         dropped := s.dropped + Ids(Ahead(s)))
    case Empty =>
      if s.list.Spent? then s else s.(list := Live([]), dropped := s.dropped + Ids(Ahead(s)))
  }

  /** The running callback returns, possibly with `false`, and the firing loop goes on. */
  function Returned<Fn, Args>(s: State<Fn, Args>, isFalse: bool): State<Fn, Args>
    requires -1 <= s.firingIndex
  {
    if isFalse && s.opts.stopOnFalse then
      Inner(s.(firingIndex := |s.list.Regs()|, memory := None))
    else
      Inner(s)
  }

  function Step<Fn(==), Args>(s: State<Fn, Args>, e: Event<Fn, Args>): (t: State<Fn, Args>)
    requires -1 <= s.firingIndex
    ensures -1 <= t.firingIndex && t.opts == s.opts
  {
    match e
    case Do(op) => Apply(s, op)
    case Return(isFalse) => if s.firing then Returned(s, isFalse) else s
  }

  // ----- Callbacks that never call back

  /** How far a firing loop still has to go. */
  function Left<Fn, Args>(s: State<Fn, Args>): nat
    requires s.firing
  {
    var n := |s.list.Regs()| - s.firingIndex;
    if n < 0 then 0 else n
  }

  lemma ReturnedGoesOn<Fn, Args>(s: State<Fn, Args>)
    requires s.firing && -1 <= s.firingIndex
    ensures var t := Returned(s, false);
      t.firing ==> |t.queue| < |s.queue| || (|t.queue| == |s.queue| && Left(t) < Left(s))
  {
    OuterShrinks(s.(firingIndex := -1));
  }

  lemma OuterShrinks<Fn, Args>(s: State<Fn, Args>)
    requires -1 <= s.firingIndex
    ensures Outer(s).firing ==> |Outer(s).queue| < |s.queue|
    ensures Inner(s).firing ==> |Inner(s).queue| <= |s.queue|
    decreases |s.queue|
  {
    if s.queue != [] {
      OuterShrinks(s.(memory := Some(s.queue[0]), queue := s.queue[1..]));
      OuterShrinks(s.(firingIndex := -1, memory := Some(s.queue[0]), queue := s.queue[1..]));
    }
  }

  /** Lets all callbacks of the firing run and return, none of which calls back. */
  function Drain<Fn, Args>(s: State<Fn, Args>): (t: State<Fn, Args>)
    requires -1 <= s.firingIndex
    ensures !t.firing && -1 <= t.firingIndex
    decreases if s.firing then |s.queue| else 0, if s.firing then 1 + Left(s) else 0
  {
    if s.firing then
      ReturnedGoesOn(s);
      Drain(Returned(s, false))
    else s
  }

  // ----- Runs

  /** The state after a run: any sequence of events from a fresh list. */
  function Run<Fn(==), Args>(opts: Options, es: seq<Event<Fn, Args>>): (s: State<Fn, Args>)
    ensures -1 <= s.firingIndex && s.opts == opts
  {
    if es == [] then Init(opts)
    else
      Step(Run(opts, es[..|es| - 1]), es[|es| - 1])
  }
}
