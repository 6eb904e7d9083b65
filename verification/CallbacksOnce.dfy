/** Delivery guarantees of a "once memory" callback list, over every run. */
module CallbacksOnce {
  import opened Wrappers
  import opened Callbacks

  predicate OnceMemory(opts: Options) {
    opts.once && opts.memory && !opts.stopOnFalse
  }

  // ----- Definitions over the events of a run

  ghost predicate ClosesList<Fn, Args>(e: Event<Fn, Args>) {
    e.Do? && (e.op.Lock? || e.op.Disable?)
  }

  /** The arguments of the first fire of a run, unless the list was locked or disabled before. */
  ghost function FirstFired<Fn, Args>(es: seq<Event<Fn, Args>>): Option<Args> {
    if es == [] then None
    else
      var before, e := es[..|es| - 1], es[|es| - 1];
      if FirstFired(before).Some? then FirstFired(before)
      else if e.Do? && e.op.FireWith? && (forall i | 0 <= i < |before| :: !ClosesList(before[i])) then Some(e.op.args)
      else None
  }

  /** `empty` is only used when no callback of the list has been reached by a running firing. */
  ghost predicate EmptiesSafely<Fn, Args>(opts: Options, es: seq<Event<Fn, Args>>) {
    forall i | 0 <= i < |es| && es[i] == Do(Empty) :: Run(opts, es[..i]).firingIndex == -1
  }

  ghost function CallIds<Fn, Args>(log: seq<Call<Fn, Args>>): set<nat> {
    set i | 0 <= i < |log| :: log[i].id
  }

  // ----- The invariant

  ghost predicate Increasing<Fn>(regs: seq<Reg<Fn>>, registered: seq<Fn>) {
    && (forall i | 0 <= i < |regs| :: regs[i].id < |registered| && registered[regs[i].id] == regs[i].fn)
    && (forall i, j | 0 <= i < j < |regs| :: regs[i].id < regs[j].id)
  }

  ghost predicate Logged<Fn, Args>(log: seq<Call<Fn, Args>>, registered: seq<Fn>, ahead: seq<Reg<Fn>>,
                                   first: Option<Args>)
  {
    && (forall i | 0 <= i < |log| ::
          && log[i].id < |registered|
          && log[i].fn == registered[log[i].id]
          && Some(log[i].args) == first)
    && (forall i, j | 0 <= i < j < |log| :: log[i].id < log[j].id)
    && (forall i, j | 0 <= i < |log| && 0 <= j < |ahead| :: log[i].id < ahead[j].id)
  }

  /** Every one of the first `n` registrations ran, or was taken out, or is still ahead; and
      only one of these. */
  ghost predicate Partition<Fn, Args>(n: nat, log: seq<Call<Fn, Args>>, dropped: set<nat>, ahead: seq<Reg<Fn>>) {
    && dropped !! CallIds(log)
    && dropped !! Ids(ahead)
    && (forall id: nat | id < n :: id in dropped || id in CallIds(log) || id in Ids(ahead))
    && (forall id | id in dropped :: id < n)
  }

  ghost predicate Books<Fn, Args>(s: State<Fn, Args>, first: Option<Args>) {
    && -1 <= s.firingIndex && (s.list.Live? ==> s.firingIndex < |s.list.regs|)
    && Increasing(s.list.Regs(), s.registered)
    && Logged(s.log, s.registered, Ahead(s), first)
    && Partition(|s.registered|, s.log, s.dropped, Ahead(s))
  }

  ghost predicate OnceInv<Fn, Args>(s: State<Fn, Args>, first: Option<Args>) {
    && OnceMemory(s.opts)
    && s.queue == []
    && (!s.firing ==> s.firingIndex == -1)
    && (s.firing ==> s.fired && (s.list.Live? ==> s.memory.Some?))
    && (s.fired ==> s.locked && first.Some?)
    && (!s.fired ==> s.log == [] && s.memory.None? && (s.locked ==> s.list.Spent?) && first.None?)
    && (!s.firing && s.fired && s.list.Live? ==> s.list.regs == [] && s.memory.Some?)
    && (s.memory.Some? ==> s.memory == first)
    && Books(s, first)
  }

  /** A state in which the firing loop of a once list is about to continue. */
  ghost predicate Looping<Fn, Args>(s: State<Fn, Args>, first: Option<Args>) {
    && OnceMemory(s.opts)
    && s.firing && s.fired && s.locked && s.queue == [] && first.Some?
    && (s.list.Live? ==> s.memory.Some?)
    && (s.memory.Some? ==> s.memory == first)
    && Books(s, first)
  }

  lemma CallIdsAppend<Fn, Args>(log: seq<Call<Fn, Args>>, c: Call<Fn, Args>)
    ensures CallIds(log + [c]) == CallIds(log) + {c.id}
  {
    var all := log + [c];
    assert all[|log|] == c;
    forall id | id in CallIds(log) ensures id in CallIds(all) {
      var i :| 0 <= i < |log| && log[i].id == id;
      assert all[i].id == id;
    }
  }

  lemma IdsConcat<Fn>(a: seq<Reg<Fn>>, b: seq<Reg<Fn>>)
    ensures Ids(a + b) == Ids(a) + Ids(b)
  {
    var all := a + b;
    forall id | id in Ids(a) ensures id in Ids(all) {
      var i :| 0 <= i < |a| && a[i].id == id;
      assert all[i].id == id;
    }
    forall id | id in Ids(b) ensures id in Ids(all) {
      var i :| 0 <= i < |b| && b[i].id == id;
      assert all[|a| + i].id == id;
    }
  }

  lemma InnerKeeps<Fn, Args>(s: State<Fn, Args>, first: Option<Args>)
    requires Looping(s, first)
    ensures OnceInv(Inner(s), first)
  {
    var k := s.firingIndex + 1;
    if 0 <= k < |s.list.Regs()| {
      var s' := Inner(s);
      var r := s.list.regs[k];
      assert Ahead(s)[0] == r;
      assert Ahead(s') == Ahead(s)[1..];
      assert s'.log[|s.log|].id == r.id;
      CallIdsAppend(s.log, s'.log[|s.log|]);
      assert Ahead(s) == [r] + Ahead(s');
      IdsConcat([r], Ahead(s'));
    } else {
      var s1 := s.(firingIndex := -1);
      assert Ahead(s) == [];
      assert Inner(s) == Outer(s1) == Finish(s1);
      assert Ahead(Finish(s1)) == [];
    }
  }

  // ----- Every operation keeps the invariant

  function PushOne<Fn, Args>(s: State<Fn, Args>, f: Fn): State<Fn, Args>
    requires s.list.Live?
  {
    s.(list := Live(s.list.regs + [Reg(|s.registered|, f)]), registered := s.registered + [f])
  }

  lemma LoggedAppend<Fn, Args>(log: seq<Call<Fn, Args>>, registered: seq<Fn>, ahead: seq<Reg<Fn>>,
                               first: Option<Args>, f: Fn)
    requires Logged(log, registered, ahead, first)
    ensures Logged(log, registered + [f], ahead + [Reg(|registered|, f)], first)
  {
    assert forall i | 0 <= i < |log| :: (registered + [f])[log[i].id] == registered[log[i].id];
  }

  lemma PartitionAppend<Fn, Args>(n: nat, log: seq<Call<Fn, Args>>, dropped: set<nat>, ahead: seq<Reg<Fn>>, f: Fn)
    requires Partition(n, log, dropped, ahead)
    ensures Partition(n + 1, log, dropped, ahead + [Reg(n, f)])
  {
    var r := Reg(n, f);
    IdsConcat(ahead, [r]);
    assert Ids([r]) == {n} by { assert [r][0] == r; }
  }

  lemma IncreasingAppend<Fn>(regs: seq<Reg<Fn>>, registered: seq<Fn>, f: Fn)
    requires Increasing(regs, registered)
    ensures Increasing(regs + [Reg(|registered|, f)], registered + [f])
  {
    assert forall i | 0 <= i < |regs| :: (registered + [f])[regs[i].id] == registered[regs[i].id];
  }

  lemma AheadAppend<Fn, Args>(s: State<Fn, Args>, f: Fn)
    requires s.list.Live? && -1 <= s.firingIndex < |s.list.regs|
    ensures Ahead(PushOne(s, f)) == Ahead(s) + [Reg(|s.registered|, f)]
  {
  }

  lemma PushOneKeeps<Fn, Args>(s: State<Fn, Args>, f: Fn, first: Option<Args>)
    requires s.list.Live? && Books(s, first)
    ensures Books(PushOne(s, f), first)
  {
    AheadAppend(s, f);
    IncreasingAppend(s.list.regs, s.registered, f);
    LoggedAppend(s.log, s.registered, Ahead(s), first, f);
    PartitionAppend(|s.registered|, s.log, s.dropped, Ahead(s), f);
  }

  lemma PushKeeps<Fn, Args>(s: State<Fn, Args>, fns: seq<Fn>, first: Option<Args>)
    requires s.list.Live? && Books(s, first)
    ensures Books(Push(s, fns), first)
    ensures s.list.regs <= Push(s, fns).list.Regs()
    decreases fns
  {
    if fns == [] {
    } else if s.opts.unique && HasFn(s.list.regs, fns[0]) {
      PushKeeps(s, fns[1..], first);
    } else {
      PushOneKeeps(s, fns[0], first);
      PushKeeps(PushOne(s, fns[0]), fns[1..], first);
    }
  }

  lemma StartFireOne<Fn, Args>(s: State<Fn, Args>, args: Args)
    requires s.queue == [args] && -1 <= s.firingIndex
    ensures StartFire(s) == Inner(s.(locked := s.locked || s.opts.once, fired := true, firing := true,
                                     memory := Some(args), queue := []))
  {
    assert s.queue[1..] == [];
  }

  lemma AddKeeps<Fn, Args>(s: State<Fn, Args>, fns: seq<Fn>, first: Option<Args>)
    requires OnceInv(s, first)
    ensures OnceInv(Apply(s, Add(fns)), first)
  {
    if s.list.Live? {
      if s.memory.Some? && !s.firing {
        RefireKeeps(s, fns, first);
      } else {
        PushKeeps(s, fns, first);
      }
    }
  }

  lemma RefireKeeps<Fn, Args>(s: State<Fn, Args>, fns: seq<Fn>, first: Option<Args>)
    requires OnceInv(s, first) && s.list.Live? && s.memory.Some? && !s.firing
    ensures OnceInv(Apply(s, Add(fns)), first)
  {
    var s1 := s.(firingIndex := |s.list.regs| - 1, queue := s.queue + [s.memory.value]);
    PushKeeps(s1, fns, first);
    var s2 := Push(s1, fns);
    StartFireOne(s2, first.value);
    InnerKeeps(s2.(fired := true, firing := true, locked := true, memory := first, queue := []), first);
  }

  /** `Without` keeps exactly the registrations of other callbacks. */
  lemma {:induction false} WithoutMembers<Fn>(regs: seq<Reg<Fn>>, f: Fn, r: Reg<Fn>)
    ensures r in Without(regs, f) <==> r in regs && r.fn != f
  {
    if regs != [] {
      assert regs == [regs[0]] + regs[1..];
      WithoutMembers(regs[1..], f, r);
    }
  }

  lemma IncreasingCons<Fn>(r: Reg<Fn>, rest: seq<Reg<Fn>>, registered: seq<Fn>)
    requires Increasing(rest, registered) && Increasing([r], registered)
    requires forall i | 0 <= i < |rest| :: r.id < rest[i].id
    ensures Increasing([r] + rest, registered)
  {
  }

  lemma {:induction false} WithoutIncreasing<Fn>(regs: seq<Reg<Fn>>, registered: seq<Fn>, f: Fn)
    requires Increasing(regs, registered)
    ensures Increasing(Without(regs, f), registered)
  {
    if regs != [] {
      var r, rest := regs[0], regs[1..];
      WithoutIncreasing(rest, registered, f);
      if r.fn != f {
        var kept := Without(rest, f);
        forall i | 0 <= i < |kept| ensures r.id < kept[i].id { WithoutMembers(rest, f, kept[i]); }
        IncreasingCons(r, kept, registered);
      }
    }
  }

  lemma {:induction false} WithoutSplit<Fn>(regs: seq<Reg<Fn>>, f: Fn, k: nat)
    requires k <= |regs|
    ensures 0 <= k - Count(regs, f, k) <= |Without(regs, f)|
    ensures Without(regs, f)[k - Count(regs, f, k)..] == Without(regs[k..], f)
  {
    if k > 0 {
      WithoutSplit(regs[1..], f, k - 1);
      assert regs[1..][k - 1..] == regs[k..];
      DropConcat(if regs[0].fn == f then [] else [regs[0]], Without(regs[1..], f), k - 1 - Count(regs[1..], f, k - 1));
    }
  }

  lemma DropConcat<T>(a: seq<T>, b: seq<T>, n: nat)
    requires n <= |b|
    ensures (a + b)[|a| + n..] == b[n..]
  {
  }

  /** What is ahead after a removal is what was ahead, without the removed callback. */
  lemma RemoveAhead<Fn, Args>(s: State<Fn, Args>, f: Fn)
    requires s.list.Live? && -1 <= s.firingIndex < |s.list.regs|
    ensures var t := RemoveFn(s, f);
      && -1 <= t.firingIndex < |t.list.regs|
      && Ahead(t) == Without(Ahead(s), f)
  {
    var k := s.firingIndex + 1;
    var t := RemoveFn(s, f);
    WithoutSplit(s.list.regs, f, k);
    assert Ahead(s) == s.list.regs[k..];
    assert Ahead(t) == t.list.regs[k - Count(s.list.regs, f, k)..];
  }

  lemma DropKeeps<Fn, Args>(n: nat, log: seq<Call<Fn, Args>>, dropped: set<nat>,
                            ahead: seq<Reg<Fn>>, ahead': seq<Reg<Fn>>)
    requires Partition(n, log, dropped, ahead)
    requires CallIds(log) !! Ids(ahead)
    requires forall r | r in ahead' :: r in ahead
    requires forall r | r in ahead :: r.id < n
    ensures Partition(n, log, dropped + (Ids(ahead) - Ids(ahead')), ahead')
  {
    forall id | id in Ids(ahead') ensures id in Ids(ahead) {
      var i :| 0 <= i < |ahead'| && ahead'[i].id == id;
      assert ahead'[i] in ahead;
    }
    forall id | id in Ids(ahead) ensures id < n {
      var i :| 0 <= i < |ahead| && ahead[i].id == id;
      assert ahead[i] in ahead;
    }
  }

  lemma LoggedApart<Fn, Args>(log: seq<Call<Fn, Args>>, registered: seq<Fn>, ahead: seq<Reg<Fn>>, first: Option<Args>)
    requires Logged(log, registered, ahead, first)
    ensures CallIds(log) !! Ids(ahead)
  {
  }

  /** Shrinking what is ahead keeps the books, provided the lost registrations are written off. */
  lemma ShrinkKeeps<Fn, Args>(s: State<Fn, Args>, t: State<Fn, Args>, first: Option<Args>)
    requires Books(s, first)
    requires t.registered == s.registered && t.log == s.log
    requires -1 <= t.firingIndex && (t.list.Live? ==> t.firingIndex < |t.list.regs|)
    requires Increasing(t.list.Regs(), t.registered)
    requires forall r | r in Ahead(t) :: r in Ahead(s)
    requires t.dropped == s.dropped + (Ids(Ahead(s)) - Ids(Ahead(t)))
    ensures Books(t, first)
  {
    LoggedApart(s.log, s.registered, Ahead(s), first);
    forall r | r in Ahead(s) ensures r.id < |s.registered| { assert r in s.list.Regs(); }
    DropKeeps(|s.registered|, s.log, s.dropped, Ahead(s), Ahead(t));
    forall i, j | 0 <= i < |t.log| && 0 <= j < |Ahead(t)| ensures t.log[i].id < Ahead(t)[j].id {
      assert Ahead(t)[j] in Ahead(s);
    }
  }

  lemma RemoveFnKeeps<Fn, Args>(s: State<Fn, Args>, f: Fn, first: Option<Args>)
    requires s.list.Live? && Books(s, first)
    ensures Books(RemoveFn(s, f), first)
    ensures s.firingIndex == -1 ==> RemoveFn(s, f).firingIndex == -1
    ensures s.list.regs == [] ==> RemoveFn(s, f).list.Regs() == []
  {
    var t := RemoveFn(s, f);
    RemoveAhead(s, f);
    WithoutIncreasing(s.list.regs, s.registered, f);
    forall r | r in Ahead(t) ensures r in Ahead(s) { WithoutMembers(Ahead(s), f, r); }
    ShrinkKeeps(s, t, first);
  }

  lemma RemoveKeeps<Fn, Args>(s: State<Fn, Args>, fns: seq<Fn>, first: Option<Args>)
    requires s.list.Live? && Books(s, first)
    ensures Books(RemoveAll(s, fns), first)
    ensures s.firingIndex == -1 ==> RemoveAll(s, fns).firingIndex == -1
    ensures s.list.regs == [] ==> RemoveAll(s, fns).list.Regs() == []
    decreases fns
  {
    if fns != [] {
      RemoveFnKeeps(s, fns[0], first);
      RemoveKeeps(RemoveFn(s, fns[0]), fns[1..], first);
    }
  }

  lemma FireKeeps<Fn, Args>(s: State<Fn, Args>, args: Args, first: Option<Args>)
    requires OnceInv(s, first)
    ensures OnceInv(Apply(s, FireWith(args)), if s.locked then first else Some(args))
  {
    if !s.locked {
      var s1 := s.(queue := s.queue + [args]);
      StartFireOne(s1, args);
      InnerKeeps(s1.(fired := true, firing := true, locked := true, memory := Some(args), queue := []), Some(args));
    }
  }

  lemma CloseKeeps<Fn, Args>(s: State<Fn, Args>, first: Option<Args>)
    requires OnceInv(s, first)
    ensures OnceInv(Apply(s, Lock), first)
    ensures OnceInv(Apply(s, Disable), first)
  {
    ShrinkKeeps(s, Apply(s, Disable), first);
    if s.memory.None? && !s.firing {
      ShrinkKeeps(s, Apply(s, Lock), first);
    }
  }

  lemma EmptyKeeps<Fn, Args>(s: State<Fn, Args>, first: Option<Args>)
    requires OnceInv(s, first) && s.firingIndex == -1
    ensures OnceInv(Apply(s, Empty), first)
  {
    if s.list.Live? {
      ShrinkKeeps(s, Apply(s, Empty), first);
    }
  }

  lemma StepKeeps<Fn, Args>(s: State<Fn, Args>, e: Event<Fn, Args>, first: Option<Args>)
    requires OnceInv(s, first)
    requires e == Do(Empty) ==> s.firingIndex == -1
    ensures OnceInv(Step(s, e), if e.Do? && e.op.FireWith? && !s.locked then Some(e.op.args) else first)
  {
    match e
    case Return(isFalse) => if s.firing { InnerKeeps(s, first); }
    case Do(Add(fns)) => AddKeeps(s, fns, first);
    case Do(Remove(fns)) => if s.list.Live? { RemoveKeeps(s, fns, first); }
    case Do(FireWith(args)) => FireKeeps(s, args, first);
    case Do(Lock) => CloseKeeps(s, first);
    case Do(Disable) => CloseKeeps(s, first);
    case Do(Empty) => EmptyKeeps(s, first);
  }

  lemma {:induction false} RunKeeps<Fn, Args>(opts: Options, es: seq<Event<Fn, Args>>)
    requires OnceMemory(opts) && EmptiesSafely(opts, es)
    ensures OnceInv(Run(opts, es), FirstFired(es))
    ensures Run(opts, es).locked <==> FirstFired(es).Some? || exists i | 0 <= i < |es| :: ClosesList(es[i])
  {
    if es != [] {
      var n := |es| - 1;
      var before := es[..n];
      assert EmptiesSafely(opts, before) by {
        assert forall i | 0 <= i < n :: before[..i] == es[..i];
      }
      RunKeeps(opts, before);
      RunKeepsOnce(Run(opts, before), es);
    }
  }

  lemma RunKeepsOnce<Fn, Args>(s: State<Fn, Args>, es: seq<Event<Fn, Args>>)
    requires es != []
    requires var before := es[..|es| - 1];
      && OnceInv(s, FirstFired(before))
      && (s.locked <==> FirstFired(before).Some? || exists i | 0 <= i < |before| :: ClosesList(before[i]))
    requires es[|es| - 1] == Do(Empty) ==> s.firingIndex == -1
    ensures var t := Step(s, es[|es| - 1]);
      && OnceInv(t, FirstFired(es))
      && (t.locked <==> FirstFired(es).Some? || exists i | 0 <= i < |es| :: ClosesList(es[i]))
  {
    var e := es[|es| - 1];
    StepKeeps(s, e, FirstFired(es[..|es| - 1]));
    LockedAfter(s, e);
  }

  lemma LockedAfter<Fn, Args>(s: State<Fn, Args>, e: Event<Fn, Args>)
    requires OnceMemory(s.opts) && -1 <= s.firingIndex && s.queue == []
    requires !s.locked ==> s.memory.None? && !s.firing
    ensures Step(s, e).locked <==> s.locked || ClosesList(e) || (e.Do? && e.op.FireWith?)
  {
    match e
    case Return(isFalse) =>
      var s1 := s.(firingIndex := -1);
      assert Outer(s1) == Finish(s1);
    case Do(Add(fns)) =>
      if s.list.Live? {
        if s.memory.Some? && !s.firing {
          var s1 := s.(firingIndex := |s.list.regs| - 1, queue := s.queue + [s.memory.value]);
          StartFireOne(Push(s1, fns), s.memory.value);
        }
      }
    case Do(Remove(fns)) =>
    case Do(FireWith(args)) => if !s.locked { StartFireOne(s.(queue := s.queue + [args]), args); }
    case Do(Lock) =>
    case Do(Disable) =>
    case Do(Empty) =>
  }

  // ----- Main results

  /** In every run of a once memory list: calls are made in registration order, each
      registration at most once, each with its own callback and the first fired arguments.
      Once the list has fired and nothing is running, exactly the registrations that were not
      taken out ran, whether they were added before, during or after the firing. */
  lemma ExactlyOnce<Fn, Args>(opts: Options, es: seq<Event<Fn, Args>>)
    requires OnceMemory(opts) && EmptiesSafely(opts, es)
    ensures var s := Run(opts, es);
      && (forall i, j | 0 <= i < j < |s.log| :: s.log[i].id < s.log[j].id)
      && (forall i | 0 <= i < |s.log| ::
            && s.log[i].id < |s.registered| && s.log[i].fn == s.registered[s.log[i].id]
            && FirstFired(es) == Some(s.log[i].args))
      && (s.fired && !s.firing ==>
            forall id: nat | id < |s.registered| :: id in CallIds(s.log) <==> id !in s.dropped)
  {
    RunKeeps(opts, es);
    var s := Run(opts, es);
    assert s.fired && !s.firing ==> Ahead(s) == [];
  }

  ghost predicate NeverTakesOut<Fn, Args>(es: seq<Event<Fn, Args>>) {
    forall i | 0 <= i < |es| && es[i].Do? :: es[i].op.Add? || es[i].op.FireWith? || es[i].op.Lock?
  }

  ghost function Delivered<Fn, Args>(registered: seq<Fn>, args: Args): seq<Call<Fn, Args>> {
    seq(|registered|, i requires 0 <= i < |registered| => Call(i, registered[i], args))
  }

  /** Without removals, a list that fired before it was locked delivers the first arguments to
      all its registrations, in order; locking it during or after the firing loses nothing. */
  lemma EverythingDelivered<Fn, Args>(opts: Options, es: seq<Event<Fn, Args>>)
    requires OnceMemory(opts) && NeverTakesOut(es)
    requires FirstFired(es).Some? && !Run(opts, es).firing
    ensures Run(opts, es).log == Delivered(Run(opts, es).registered, FirstFired(es).value)
  {
    var s := Run(opts, es);
    RunKeeps(opts, es);
    NothingDropped(opts, es);
    assert s.fired && Ahead(s) == [];
    IncreasingIsComplete(s.log, |s.registered|);
  }

  /** Nothing is taken out of the list as long as it is not locked before it fired. */
  ghost predicate Untouched<Fn, Args>(s: State<Fn, Args>, first: Option<Args>) {
    (first.Some? || !s.locked ==> s.dropped == {} && s.list.Live?) && (first.Some? ==> s.fired)
  }

  lemma StepUntouched<Fn, Args>(s: State<Fn, Args>, e: Event<Fn, Args>, first: Option<Args>)
    requires OnceInv(s, first) && Untouched(s, first)
    requires e.Do? ==> e.op.Add? || e.op.FireWith? || e.op.Lock?
    ensures Untouched(Step(s, e), if e.Do? && e.op.FireWith? && !s.locked then Some(e.op.args) else first)
  {
    match e
    case Return(isFalse) => if s.firing && s.list.Live? { DroppedByReturn(s, isFalse); }
    case Do(Add(fns)) => if s.list.Live? { DroppedByAdd(s, fns); }
    case Do(FireWith(args)) => if !s.locked { DroppedByFire(s, args); }
    case Do(Lock) =>
  }

  lemma {:induction false} NothingDropped<Fn, Args>(opts: Options, es: seq<Event<Fn, Args>>)
    requires OnceMemory(opts) && NeverTakesOut(es)
    ensures Untouched(Run(opts, es), FirstFired(es))
  {
    if es != [] {
      var before := es[..|es| - 1];
      RunKeeps(opts, before);
      NothingDropped(opts, before);
      StepUntouched(Run(opts, before), es[|es| - 1], FirstFired(before));
    }
  }

  lemma DroppedByReturn<Fn, Args>(s: State<Fn, Args>, isFalse: bool)
    requires s.queue == [] && s.memory.Some? && OnceMemory(s.opts) && -1 <= s.firingIndex
    ensures Inner(s).dropped == s.dropped && (s.list.Live? ==> Inner(s).list.Live?)
    ensures Inner(s).fired == s.fired
  {
    var s1 := s.(firingIndex := -1);
    assert Outer(s1) == Finish(s1);
  }

  lemma DroppedByFire<Fn, Args>(s: State<Fn, Args>, args: Args)
    requires s.queue == [] && !s.locked && !s.firing && OnceMemory(s.opts) && -1 <= s.firingIndex
    ensures var t := Apply(s, FireWith(args));
      t.dropped == s.dropped && t.fired && (s.list.Live? ==> t.list.Live?)
  {
    var s1 := s.(queue := s.queue + [args]);
    StartFireOne(s1, args);
    DroppedByReturn(s1.(fired := true, firing := true, locked := true, memory := Some(args), queue := []), false);
  }

  lemma DroppedByAdd<Fn, Args>(s: State<Fn, Args>, fns: seq<Fn>)
    requires s.queue == [] && s.list.Live? && OnceMemory(s.opts) && -1 <= s.firingIndex
    ensures var t := Apply(s, Add(fns));
      t.dropped == s.dropped && t.list.Live? && (s.fired ==> t.fired)
  {
    if s.memory.Some? && !s.firing {
      var s1 := s.(firingIndex := |s.list.regs| - 1, queue := s.queue + [s.memory.value]);
      var s2 := Push(s1, fns);
      StartFireOne(s2, s.memory.value);
      DroppedByReturn(s2.(fired := true, firing := true, locked := true, queue := []), false);
    }
  }

  /** Strictly increasing numbers that cover everything below `n` are 0, 1, 2, ... */
  lemma IncreasingIsComplete<Fn, Args>(log: seq<Call<Fn, Args>>, n: nat)
    requires forall i, j | 0 <= i < j < |log| :: log[i].id < log[j].id
    requires forall i | 0 <= i < |log| :: log[i].id < n
    requires forall id: nat | id < n :: id in CallIds(log)
    ensures |log| == n && forall i | 0 <= i < n :: log[i].id == i
  {
    if log != [] {
      var c := log[0];
      assert c.id < n;
    }
    if n > 0 {
      assert n - 1 in CallIds(log);
      var k :| 0 <= k < |log| && log[k].id == n - 1;
      var last := log[|log| - 1];
      assert last.id < n && k == |log| - 1;
      var rest := log[..k];
      forall id: nat | id < n - 1 ensures id in CallIds(rest) {
        assert id in CallIds(log);
        var i :| 0 <= i < |log| && log[i].id == id;
        assert rest[i].id == id;
      }
      IncreasingIsComplete(rest, n - 1);
    }
  }

  /** The run `es` continued from the state `s`. */
  ghost function RunFrom<Fn, Args>(s: State<Fn, Args>, es: seq<Event<Fn, Args>>): (t: State<Fn, Args>)
    requires -1 <= s.firingIndex
    ensures -1 <= t.firingIndex
  {
    if es == [] then s
    else
      Step(RunFrom(s, es[..|es| - 1]), es[|es| - 1])
  }

  /** After `disable`, at any moment of any kind of list, nothing runs again. */
  lemma {:induction false} DisabledForGood<Fn, Args>(s: State<Fn, Args>, es: seq<Event<Fn, Args>>)
    requires -1 <= s.firingIndex
    ensures var t := RunFrom(Apply(s, Disable), es);
      t.log == s.log && t.list.Spent? && t.locked && t.queue == [] && t.memory.None?
  {
    if es != [] {
      DisabledForGood(s, es[..|es| - 1]);
      var t := RunFrom(Apply(s, Disable), es[..|es| - 1]);
      NothingToRun(t);
      NothingToRun(t.(firingIndex := 0));
    }
  }

  lemma NothingToRun<Fn, Args>(s: State<Fn, Args>)
    requires s.list.Spent? && s.locked && s.queue == [] && s.memory.None? && -1 <= s.firingIndex
    ensures Inner(s) == s.(firingIndex := -1, firing := false)
  {
    var s1 := s.(firingIndex := -1);
    assert Outer(s1) == Finish(s1);
  }

  /** A list locked before it ever fired is spent: nothing runs. */
  lemma LockedBeforeFiring<Fn, Args>(opts: Options, es: seq<Event<Fn, Args>>, later: seq<Event<Fn, Args>>)
    requires OnceMemory(opts) && EmptiesSafely(opts, es) && FirstFired(es).None?
    ensures RunFrom(Apply(Run(opts, es), Lock), later).log == []
  {
    RunKeeps(opts, es);
    var s := Run(opts, es);
    assert Apply(s, Lock) == Apply(s, Disable);
    DisabledForGood(s, later);
  }

  lemma PushNext<Fn, Args>(s: State<Fn, Args>, fns: seq<Fn>)
    requires s.list.Live? && !s.opts.unique && fns != []
    ensures Push(s, fns) == Push(PushOne(s, fns[0]), fns[1..])
    ensures |fns| == 1 ==> Push(s, fns) == PushOne(s, fns[0])
  {
  }

  /** Such a run exists: two callbacks, the first of which empties the list and adds a third. */
  lemma EmptyWhileFiringLoses<Fn, Args>(f: Fn, g: Fn, h: Fn, args: Args)
    ensures var opts := Options(true, true, false, false);
      var s := Run(opts, [Do(Add([f, g])), Do(FireWith(args)), Do(Empty), Do(Add([h])), Return(false)]);
      s.fired && !s.firing && s.registered == [f, g, h] && s.log == [Call(0, f, args)] && s.dropped == {1}
  {
    var opts := Options(true, true, false, false);
    var es: seq<Event<Fn, Args>> := [Do(Add([f, g])), Do(FireWith(args)), Do(Empty), Do(Add([h])), Return(false)];
    assert es[..4][..3] == es[..3] && es[..3][..2] == es[..2];
    assert es[..2] == [Do(Add([f, g])), Do(FireWith(args))];
    var s2 := FirstCallback(opts, f, g, args);
    var s3 := Apply(s2, Empty);
    assert Run(opts, es[..3]) == s3 && s3.dropped == {1};
    var s4 := PushOne(s3, h);
    assert Run(opts, es[..4]) == Apply(s3, Add([h])) == s4 by { PushNext(s3, [h]); }
    var s5 := s4.(firingIndex := -1);
    assert Outer(s5) == Finish(s5);
    assert Run(opts, es) == Step(s4, es[4]) == Finish(s5);
  }

  lemma FirstCallback<Fn, Args>(opts: Options, f: Fn, g: Fn, args: Args) returns (s: State<Fn, Args>)
    requires opts == Options(true, true, false, false)
    ensures s == Run(opts, [Do(Add([f, g])), Do(FireWith(args))])
    ensures s.firing && s.fired && s.dropped == {} && s.memory == Some(args) && s.queue == []
    ensures s.firingIndex == 0 && s.log == [Call(0, f, args)] && s.list == Live([Reg(0, f), Reg(1, g)])
    ensures s.registered == [f, g] && Ids(Ahead(s)) == {1}
  {
    var es: seq<Event<Fn, Args>> := [Do(Add([f, g])), Do(FireWith(args))];
    assert es[..1][..0] == [];
    var s0: State<Fn, Args> := Init(opts);
    var s1 := PushOne(PushOne(s0, f), g);
    assert Run(opts, es[..1]) == Apply(s0, Add([f, g])) == s1 by {
      PushNext(s0, [f, g]);
      PushNext(PushOne(s0, f), [g]);
    }
    s := Apply(s1, FireWith(args));
    StartFireOne(s1.(queue := s1.queue + [args]), args);
    assert Ahead(s) == [Reg(1, g)];
    assert Ahead(s)[0].id == 1;
  }
}
