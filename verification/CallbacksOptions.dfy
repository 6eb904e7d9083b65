/** What each option of a callback list is for, over every run. */
module CallbacksOptions {
  import opened Wrappers
  import opened Callbacks
  import opened CallbacksOnce

  ghost predicate Holds<Fn>(regs: seq<Reg<Fn>>, f: Fn) {
    exists r <- regs :: r.fn == f
  }

  ghost predicate NoDuplicates<Fn>(regs: seq<Reg<Fn>>) {
    forall i, j | 0 <= i < j < |regs| :: regs[i].fn != regs[j].fn
  }

  // ----- What is added

  lemma HoldsMore<Fn>(regs: seq<Reg<Fn>>, r: Reg<Fn>, f: Fn)
    ensures Holds(regs + [r], f) <==> Holds(regs, f) || r.fn == f
  {
    var all := regs + [r];
    assert all[|regs|] == r;
    if x :| x in regs && x.fn == f { assert x in all; }
    if x :| x in all && x.fn == f { assert x in regs || x == r; }
  }

  /** After adding, the list holds what it held and what was added, and nothing else. */
  lemma AddedIff<Fn, Args>(s: State<Fn, Args>, fns: seq<Fn>, f: Fn)
    requires s.list.Live?
    ensures Holds(Push(s, fns).list.Regs(), f) <==> Holds(s.list.regs, f) || f in fns
    decreases fns
  {
    if fns != [] {
      assert f in fns <==> f == fns[0] || f in fns[1..];
      if s.opts.unique && HasFn(s.list.regs, fns[0]) {
        AddedIff(s, fns[1..], f);
        var i :| 0 <= i < |s.list.regs| && s.list.regs[i].fn == fns[0];
        assert s.list.regs[i] in s.list.regs;
      } else {
        AddedIff(PushOne(s, fns[0]), fns[1..], f);
        HoldsMore(s.list.regs, Reg(|s.registered|, fns[0]), f);
      }
    }
  }

  /** Without `unique`, each function given is registered, as often as it is given. */
  lemma AllRegistered<Fn, Args>(s: State<Fn, Args>, fns: seq<Fn>)
    requires s.list.Live? && !s.opts.unique
    ensures Push(s, fns).registered == s.registered + fns
    decreases fns
  {
    if fns != [] {
      AllRegistered(PushOne(s, fns[0]), fns[1..]);
      assert s.registered + [fns[0]] + fns[1..] == s.registered + fns;
    }
  }

  // ----- unique

  lemma PushUnique<Fn, Args>(s: State<Fn, Args>, fns: seq<Fn>)
    requires s.list.Live? && s.opts.unique && NoDuplicates(s.list.regs)
    ensures NoDuplicates(Push(s, fns).list.Regs())
    decreases fns
  {
    if fns != [] {
      if HasFn(s.list.regs, fns[0]) {
        PushUnique(s, fns[1..]);
      } else {
        PushUnique(PushOne(s, fns[0]), fns[1..]);
      }
    }
  }

  lemma {:induction false} WithoutUnique<Fn>(regs: seq<Reg<Fn>>, f: Fn)
    requires NoDuplicates(regs)
    ensures NoDuplicates(Without(regs, f))
  {
    if regs != [] {
      WithoutUnique(regs[1..], f);
      var rest := Without(regs[1..], f);
      forall k | 0 <= k < |rest| ensures rest[k].fn != regs[0].fn {
        WithoutMembers(regs[1..], f, rest[k]);
        var j :| 0 <= j < |regs[1..]| && regs[1..][j] == rest[k];
        assert regs[j + 1] == rest[k];
      }
    }
  }

  lemma RemoveAllUnique<Fn, Args>(s: State<Fn, Args>, fns: seq<Fn>)
    requires s.list.Live? && -1 <= s.firingIndex && NoDuplicates(s.list.regs)
    ensures NoDuplicates(RemoveAll(s, fns).list.Regs())
    decreases fns
  {
    if fns != [] {
      WithoutUnique(s.list.regs, fns[0]);
      RemoveAllUnique(RemoveFn(s, fns[0]), fns[1..]);
    }
  }

  /** Firing takes no single callback out of the list. */
  lemma LoopList<Fn, Args>(s: State<Fn, Args>)
    requires -1 <= s.firingIndex
    ensures Inner(s).list == s.list || Inner(s).list.Regs() == []
    ensures Outer(s).list == s.list || Outer(s).list.Regs() == []
    decreases |s.queue|
  {
    if s.queue != [] {
      LoopList(s.(memory := Some(s.queue[0]), queue := s.queue[1..]));
      LoopList(s.(firingIndex := -1, memory := Some(s.queue[0]), queue := s.queue[1..]));
    } else {
      var s1 := s.(firingIndex := -1);
      assert Outer(s) == Finish(s) && Outer(s1) == Finish(s1);
    }
  }

  lemma StepUnique<Fn, Args>(s: State<Fn, Args>, e: Event<Fn, Args>)
    requires -1 <= s.firingIndex && s.opts.unique && NoDuplicates(s.list.Regs())
    ensures NoDuplicates(Step(s, e).list.Regs())
  {
    match e
    case Return(isFalse) =>
      LoopList(s);
      LoopList(s.(firingIndex := |s.list.Regs()|, memory := None));
    case Do(Add(fns)) =>
      if s.list.Live? {
        var s1 := s.(firingIndex := |s.list.regs| - 1,
                     queue := if s.memory.Some? then s.queue + [s.memory.value] else s.queue);
        PushUnique(s, fns);
        PushUnique(s1, fns);
        var t := Push(s1, fns);
        LoopList(t.(locked := t.locked || t.opts.once, fired := true, firing := true));
      }
    case Do(Remove(fns)) => if s.list.Live? { RemoveAllUnique(s, fns); }
    case Do(FireWith(args)) =>
      LoopList(s.(queue := s.queue + [args], locked := s.locked || s.opts.once, fired := true, firing := true));
    case Do(_) =>
  }

  /** A unique list never holds a callback twice. */
  lemma {:induction false} UniqueHoldsOnce<Fn, Args>(opts: Options, es: seq<Event<Fn, Args>>)
    requires opts.unique
    ensures NoDuplicates(Run(opts, es).list.Regs())
  {
    if es != [] {
      UniqueHoldsOnce(opts, es[..|es| - 1]);
      StepUnique(Run(opts, es[..|es| - 1]), es[|es| - 1]);
    }
  }

  // ----- stopOnFalse

  /** A callback that returns false ends the current firing: the callbacks behind it are not called,
      and the data are forgotten. */
  lemma FalseEndsFiring<Fn, Args>(s: State<Fn, Args>)
    requires -1 <= s.firingIndex && s.firing && s.opts.stopOnFalse && s.queue == []
    ensures var t := Step(s, Return(true)); !t.firing && t.log == s.log && t.memory.None?
  {
    var s1 := s.(firingIndex := -1, memory := None);
    assert Outer(s1) == Finish(s1);
  }

  /** Fires that wait are not affected. */
  lemma FalseGoesOnWithNext<Fn, Args>(s: State<Fn, Args>)
    requires -1 <= s.firingIndex && s.firing && s.opts.stopOnFalse && s.queue != [] && s.list.Regs() != []
    ensures var t, r := Step(s, Return(true)), s.list.Regs()[0];
      t.firing && t.log == s.log + [Call(r.id, r.fn, s.queue[0])] && t.queue == s.queue[1..] && t.firingIndex == 0
  {
    var s1 := s.(firingIndex := -1, memory := None);
    assert Outer(s1) == Inner(s1.(memory := Some(s.queue[0]), queue := s.queue[1..]));
  }

  /** Without the option it does not matter what callbacks return. */
  lemma FalseIsIgnored<Fn, Args>(s: State<Fn, Args>)
    requires -1 <= s.firingIndex && !s.opts.stopOnFalse
    ensures Step(s, Return(true)) == Step(s, Return(false))
  {
  }

  // ----- memory

  ghost predicate Forgets<Fn, Args>(s: State<Fn, Args>) {
    !s.opts.memory && (!s.firing ==> s.memory.None?)
  }

  lemma LoopForgets<Fn, Args>(s: State<Fn, Args>)
    requires -1 <= s.firingIndex && !s.opts.memory && s.firing
    ensures Forgets(Inner(s)) && Forgets(Outer(s))
    decreases |s.queue|
  {
    if s.queue != [] {
      LoopForgets(s.(memory := Some(s.queue[0]), queue := s.queue[1..]));
      LoopForgets(s.(firingIndex := -1, memory := Some(s.queue[0]), queue := s.queue[1..]));
    } else {
      var s1 := s.(firingIndex := -1);
      assert Outer(s) == Finish(s) && Outer(s1) == Finish(s1);
    }
  }

  lemma StepForgets<Fn, Args>(s: State<Fn, Args>, e: Event<Fn, Args>)
    requires -1 <= s.firingIndex && Forgets(s)
    ensures Forgets(Step(s, e))
  {
    match e
    case Return(isFalse) =>
      if s.firing {
        LoopForgets(s);
        LoopForgets(s.(firingIndex := |s.list.Regs()|, memory := None));
      }
    case Do(FireWith(args)) =>
      LoopForgets(s.(queue := s.queue + [args], locked := s.locked || s.opts.once, fired := true, firing := true));
    case Do(_) =>
  }

  lemma {:induction false} RunForgets<Fn, Args>(opts: Options, es: seq<Event<Fn, Args>>)
    requires !opts.memory
    ensures Forgets(Run(opts, es))
  {
    if es != [] {
      RunForgets(opts, es[..|es| - 1]);
      StepForgets(Run(opts, es[..|es| - 1]), es[|es| - 1]);
    }
  }

  /** Without memory, callbacks added between firings are not called. */
  lemma AddedWithoutMemory<Fn, Args>(opts: Options, es: seq<Event<Fn, Args>>, fns: seq<Fn>)
    requires !opts.memory && !Run(opts, es).firing
    ensures var s := Run(opts, es); var t := Step(s, Do(Add(fns))); !t.firing && t.log == s.log
  {
    RunForgets(opts, es);
  }

  // ----- once

  ghost predicate OneArguments<Fn, Args>(s: State<Fn, Args>, first: Option<Args>) {
    && s.opts.once && s.queue == []
    && (s.firing ==> first.Some?) && (s.memory.Some? ==> s.memory == first) && (first.None? ==> s.log == [])
    && forall i | 0 <= i < |s.log| :: Some(s.log[i].args) == first
  }

  lemma LoopOneArguments<Fn, Args>(s: State<Fn, Args>, first: Option<Args>)
    requires OneArguments(s, first) && first.Some? && -1 <= s.firingIndex
    ensures OneArguments(Inner(s), first)
  {
    var s1 := s.(firingIndex := -1);
    assert Outer(s1) == Finish(s1);
  }

  ghost predicate Closed<Fn, Args>(s: State<Fn, Args>, es: seq<Event<Fn, Args>>) {
    FirstFired(es).Some? || (exists i | 0 <= i < |es| :: ClosesList(es[i])) ==> s.locked
  }

  lemma LoopLocked<Fn, Args>(s: State<Fn, Args>)
    requires -1 <= s.firingIndex
    ensures Inner(s).locked == s.locked && Outer(s).locked == s.locked
    decreases |s.queue|
  {
    if s.queue != [] {
      LoopLocked(s.(memory := Some(s.queue[0]), queue := s.queue[1..]));
      LoopLocked(s.(firingIndex := -1, memory := Some(s.queue[0]), queue := s.queue[1..]));
    } else {
      var s1 := s.(firingIndex := -1);
      assert Outer(s) == Finish(s) && Outer(s1) == Finish(s1);
    }
  }

  lemma RefireOneArguments<Fn, Args>(s: State<Fn, Args>, fns: seq<Fn>, first: Option<Args>)
    requires OneArguments(s, first) && -1 <= s.firingIndex && s.list.Live? && s.memory.Some? && !s.firing
    ensures OneArguments(Apply(s, Add(fns)), first) && (s.locked ==> Apply(s, Add(fns)).locked)
  {
    var s1 := s.(firingIndex := |s.list.regs| - 1, queue := s.queue + [s.memory.value]);
    var t := Push(s1, fns);
    var u := t.(locked := t.locked || t.opts.once, fired := true, firing := true, memory := s.memory, queue := []);
    StartFireOne(t, s.memory.value);
    LoopOneArguments(u, first);
    LoopLocked(u);
  }

  lemma StepOneArguments<Fn, Args>(s: State<Fn, Args>, es: seq<Event<Fn, Args>>)
    requires es != [] && -1 <= s.firingIndex
    requires OneArguments(s, FirstFired(es[..|es| - 1])) && Closed(s, es[..|es| - 1])
    ensures OneArguments(Step(s, es[|es| - 1]), FirstFired(es)) && (s.locked ==> Step(s, es[|es| - 1]).locked)
  {
    var e := es[|es| - 1];
    if e.Do? && e.op.FireWith? {
      FireOneArguments(s, es, e.op.args);
    } else {
      OtherOneArguments(s, e, FirstFired(es[..|es| - 1]));
    }
  }

  lemma OtherOneArguments<Fn, Args>(s: State<Fn, Args>, e: Event<Fn, Args>, first: Option<Args>)
    requires OneArguments(s, first) && -1 <= s.firingIndex && !(e.Do? && e.op.FireWith?)
    ensures OneArguments(Step(s, e), first) && (s.locked ==> Step(s, e).locked)
  {
    match e
    case Return(isFalse) => ReturnOneArguments(s, isFalse, first);
    case Do(Add(fns)) => if s.list.Live? && s.memory.Some? && !s.firing { RefireOneArguments(s, fns, first); }
    case Do(_) =>
  }

  lemma ReturnOneArguments<Fn, Args>(s: State<Fn, Args>, isFalse: bool, first: Option<Args>)
    requires OneArguments(s, first) && -1 <= s.firingIndex
    ensures OneArguments(Step(s, Return(isFalse)), first) && Step(s, Return(isFalse)).locked == s.locked
  {
    var s1 := s.(firingIndex := |s.list.Regs()|, memory := None);
    if s.firing {
      LoopOneArguments(s, first);
      LoopOneArguments(s1, first);
      LoopLocked(s);
      LoopLocked(s1);
    }
  }

  lemma FireOneArguments<Fn, Args>(s: State<Fn, Args>, es: seq<Event<Fn, Args>>, args: Args)
    requires es != [] && es[|es| - 1] == Do(FireWith(args)) && -1 <= s.firingIndex
    requires OneArguments(s, FirstFired(es[..|es| - 1])) && Closed(s, es[..|es| - 1])
    ensures OneArguments(Apply(s, FireWith(args)), FirstFired(es)) && (s.locked ==> Apply(s, FireWith(args)).locked)
  {
    if !s.locked {
      FirstFireOneArguments(s, args);
      assert FirstFired(es) == Some(args);
    }
  }

  lemma FirstFireOneArguments<Fn, Args>(s: State<Fn, Args>, args: Args)
    requires OneArguments(s, None) && -1 <= s.firingIndex && !s.locked
    ensures OneArguments(Apply(s, FireWith(args)), Some(args)) && Apply(s, FireWith(args)).locked
  {
    var s1 := s.(queue := s.queue + [args]);
    var u := s1.(locked := true, fired := true, firing := true, memory := Some(args), queue := []);
    StartFireOne(s1, args);
    LoopOneArguments(u, Some(args));
    LoopLocked(u);
  }

  lemma {:induction false} RunOneArguments<Fn, Args>(opts: Options, es: seq<Event<Fn, Args>>)
    requires opts.once
    ensures OneArguments(Run(opts, es), FirstFired(es)) && Closed(Run(opts, es), es)
  {
    if es != [] {
      var before, e := es[..|es| - 1], es[|es| - 1];
      RunOneArguments(opts, before);
      StepOneArguments(Run(opts, before), es);
      StepCloses(Run(opts, before), e);
      if FirstFired(es).Some? || exists i | 0 <= i < |es| :: ClosesList(es[i]) { ClosedBefore(es); }
    }
  }

  /** Firing a once list, locking and disabling close it. */
  lemma StepCloses<Fn, Args>(s: State<Fn, Args>, e: Event<Fn, Args>)
    requires s.opts.once && -1 <= s.firingIndex && s.queue == [] && (s.firing ==> s.locked)
    ensures ClosesList(e) || (e.Do? && e.op.FireWith?) ==> Step(s, e).locked
  {
    if e.Do? && e.op.FireWith? && !s.locked {
      var s1 := s.(queue := s.queue + [e.op.args]);
      StartFireOne(s1, e.op.args);
      LoopLocked(s1.(locked := true, fired := true, firing := true, memory := Some(e.op.args), queue := []));
    }
  }

  lemma ClosedBefore<Fn, Args>(es: seq<Event<Fn, Args>>)
    requires es != [] && (FirstFired(es).Some? || exists i | 0 <= i < |es| :: ClosesList(es[i]))
    ensures var before, e := es[..|es| - 1], es[|es| - 1];
      || FirstFired(before).Some? || (exists i | 0 <= i < |before| :: ClosesList(before[i]))
      || ClosesList(e) || (e.Do? && e.op.FireWith?)
  {
    if i :| 0 <= i < |es| && ClosesList(es[i]) {
      if i < |es| - 1 { assert ClosesList(es[..|es| - 1][i]); }
    }
  }

  /** All calls of a once list, of any kind, carry the arguments of its first fire. */
  lemma OnceCallsWithFirst<Fn, Args>(opts: Options, es: seq<Event<Fn, Args>>)
    requires opts.once
    ensures forall c <- Run(opts, es).log :: Some(c.args) == FirstFired(es)
  {
    RunOneArguments(opts, es);
  }
}
