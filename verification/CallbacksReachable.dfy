/** Why the firing loop can do without a test of its memory. */
module CallbacksReachable {
  import opened Wrappers
  import opened Callbacks

  /** A firing has its arguments, unless the list was disabled meanwhile. */
  ghost predicate HasArguments<Fn, Args>(s: State<Fn, Args>) {
    && (s.firing ==> s.memory.Some? || s.list.Spent?)
    && (!s.firing ==> s.queue == [])
  }

  lemma LoopHasArguments<Fn, Args>(s: State<Fn, Args>)
    requires -1 <= s.firingIndex && s.firing
    requires s.memory.Some? || s.list.Spent? || |s.list.Regs()| <= s.firingIndex + 1
    ensures HasArguments(Inner(s)) && HasArguments(Outer(s))
    decreases |s.queue|
  {
    if s.queue != [] {
      LoopHasArguments(s.(memory := Some(s.queue[0]), queue := s.queue[1..]));
      LoopHasArguments(s.(firingIndex := -1, memory := Some(s.queue[0]), queue := s.queue[1..]));
    } else {
      var s1 := s.(firingIndex := -1);
      assert Outer(s) == Finish(s) && Outer(s1) == Finish(s1);
    }
  }

  lemma StartHasArguments<Fn, Args>(s: State<Fn, Args>)
    requires -1 <= s.firingIndex && s.queue != []
    ensures HasArguments(StartFire(s))
  {
    LoopHasArguments(s.(locked := s.locked || s.opts.once, fired := true, firing := true,
                        memory := Some(s.queue[0]), queue := s.queue[1..]));
  }

  lemma StepHasArguments<Fn, Args>(s: State<Fn, Args>, e: Event<Fn, Args>)
    requires -1 <= s.firingIndex && HasArguments(s)
    ensures HasArguments(Step(s, e))
  {
    match e
    case Return(isFalse) =>
      if s.firing {
        var ended := s.(firingIndex := |s.list.Regs()|, memory := None);
        LoopHasArguments(if isFalse && s.opts.stopOnFalse then ended else s);
      }
    case Do(Add(fns)) =>
      if s.list.Live? && s.memory.Some? && !s.firing {
        StartHasArguments(Push(s.(firingIndex := |s.list.regs| - 1, queue := s.queue + [s.memory.value]), fns));
      }
    case Do(FireWith(args)) =>
      if !s.locked && !s.firing { StartHasArguments(s.(queue := s.queue + [args])); }
    case Do(_) =>
  }

  lemma {:induction false} RunHasArguments<Fn, Args>(opts: Options, es: seq<Event<Fn, Args>>)
    ensures HasArguments(Run(opts, es))
  {
    if es != [] {
      RunHasArguments(opts, es[..|es| - 1]);
      StepHasArguments(Run(opts, es[..|es| - 1]), es[|es| - 1]);
    }
  }

  /** In every run of every kind of list: when a callback returns, and the next one is there, so
      are its arguments.  (Later rounds of the firing take theirs from the queue.) */
  lemma NextHasArguments<Fn, Args>(opts: Options, es: seq<Event<Fn, Args>>, isFalse: bool)
    requires Run(opts, es).firing
    ensures var s := Run(opts, es);
      var s1 := if isFalse && s.opts.stopOnFalse then s.(firingIndex := |s.list.Regs()|, memory := None) else s;
      Returned(s, isFalse) == Inner(s1) && (s1.firingIndex + 1 < |s1.list.Regs()| ==> s1.memory.Some?)
  {
    RunHasArguments(opts, es);
  }
}
