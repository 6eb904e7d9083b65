/** Delivery of a list that may fire many times: nested fires wait in the queue. */
module CallbacksFifo {
  import opened Wrappers
  import opened Callbacks
  import opened CallbacksOnce

  // ----- Definitions over the events of a run

  /** Callbacks are only added, and none ends a firing. */
  ghost predicate AddsAndFires<Fn, Args>(opts: Options, es: seq<Event<Fn, Args>>) {
    forall e <- es :: if e.Return? then e.isFalse ==> !opts.stopOnFalse else e.op.Add? || e.op.FireWith?
  }

  /** A call of `fireWith`, and how many callbacks there were by then. */
  datatype Issue<Args> = Issue(args: Args, known: nat)

  ghost function Issues<Fn, Args>(opts: Options, es: seq<Event<Fn, Args>>): seq<Issue<Args>> {
    if es == [] then []
    else
      var before, e := es[..|es| - 1], es[|es| - 1];
      Issues(opts, before) +
      if e.Do? && e.op.FireWith? then [Issue(e.op.args, |Run(opts, before).registered|)] else []
  }

  /** The first calls of `fireWith` delivered one after the other: the k-th goes to the first
      `ends[k]` callbacks, in the order of their registration. */
  ghost function Rounds<Fn, Args>(registered: seq<Fn>, issues: seq<Issue<Args>>, ends: seq<nat>): seq<Call<Fn, Args>>
    requires |ends| <= |issues| && Within(ends, |registered|)
  {
    if ends == [] then []
    else
      var n := |ends| - 1;
      Rounds(registered, issues, ends[..n]) + Delivered(registered[..ends[n]], issues[n].args)
  }

  ghost predicate Within(ends: seq<nat>, n: nat) {
    forall k | 0 <= k < |ends| :: ends[k] <= n
  }

  ghost function InOrder<Fn>(registered: seq<Fn>): seq<Reg<Fn>> {
    seq(|registered|, i requires 0 <= i < |registered| => Reg(i, registered[i]))
  }

  // ----- Sequences of rounds

  lemma {:induction false} RoundsGrow<Fn, Args>(registered: seq<Fn>, more: seq<Fn>, issues: seq<Issue<Args>>,
                                                later: seq<Issue<Args>>, ends: seq<nat>)
    requires |ends| <= |issues| && Within(ends, |registered|)
    ensures Within(ends, |registered + more|)
    ensures Rounds(registered + more, issues + later, ends) == Rounds(registered, issues, ends)
  {
    if ends != [] {
      var n := |ends| - 1;
      RoundsGrow(registered, more, issues, later, ends[..n]);
      assert (registered + more)[..ends[n]] == registered[..ends[n]];
    }
  }

  lemma DeliveredOneMore<Fn, Args>(registered: seq<Fn>, k: nat, args: Args)
    requires k < |registered|
    ensures Delivered(registered[..k + 1], args) == Delivered(registered[..k], args) + [Call(k, registered[k], args)]
  {
  }

  lemma LastRoundGoesOn<Fn, Args>(registered: seq<Fn>, issues: seq<Issue<Args>>, ends: seq<nat>, k: nat)
    requires 0 < |ends| <= |issues| && Within(ends, |registered|) && ends[|ends| - 1] == k < |registered|
    ensures var n := |ends| - 1;
      && Within(ends[n := k + 1], |registered|)
      && Rounds(registered, issues, ends[n := k + 1])
         == Rounds(registered, issues, ends) + [Call(k, registered[k], issues[n].args)]
  {
    var n := |ends| - 1;
    assert ends[n := k + 1][..n] == ends[..n];
    DeliveredOneMore(registered, k, issues[n].args);
  }

  lemma NewRound<Fn, Args>(registered: seq<Fn>, issues: seq<Issue<Args>>, ends: seq<nat>)
    requires |ends| < |issues| && Within(ends, |registered|)
    ensures Within(ends + [0], |registered|)
    ensures Rounds(registered, issues, ends + [0]) == Rounds(registered, issues, ends)
  {
    assert (ends + [0])[..|ends|] == ends;
  }

  // ----- The invariant

  /** What was called are the rounds; what was issued and not yet begun waits in the queue. */
  ghost predicate Books<Fn, Args>(s: State<Fn, Args>, issues: seq<Issue<Args>>, ends: seq<nat>) {
    && !s.opts.once && !s.locked && s.list == Live(InOrder(s.registered))
    && |ends| <= |issues| && Within(ends, |s.registered|)
    && (forall k | 0 <= k < |issues| :: issues[k].known <= |s.registered|)
    && s.log == Rounds(s.registered, issues, ends)
    && |ends| + |s.queue| == |issues|
    && (forall q | 0 <= q < |s.queue| :: s.queue[q] == issues[|ends| + q].args)
  }

  /** The first `n` rounds each went to all callbacks known when they were issued. */
  ghost predicate Complete<Args>(issues: seq<Issue<Args>>, ends: seq<nat>, n: int) {
    n <= |ends| <= |issues| && forall k | 0 <= k < n :: issues[k].known <= ends[k]
  }

  /** The last round has come as far as the firing index. */
  ghost predicate Firing<Fn, Args>(s: State<Fn, Args>, issues: seq<Issue<Args>>, ends: seq<nat>) {
    && Books(s, issues, ends) && s.firing && -1 <= s.firingIndex
    && 0 < |ends| && s.memory == Some(issues[|ends| - 1].args) && ends[|ends| - 1] == s.firingIndex + 1
    && Complete(issues, ends, |ends| - 1)
  }

  ghost predicate Idle<Fn, Args>(s: State<Fn, Args>, issues: seq<Issue<Args>>, ends: seq<nat>) {
    && Books(s, issues, ends) && !s.firing && s.queue == [] && s.firingIndex == -1
    && Complete(issues, ends, |ends|)
    && s.memory == (if s.opts.memory && issues != [] then Some(issues[|issues| - 1].args) else None)
    && (s.opts.memory && issues != [] ==> ends[|ends| - 1] == |s.registered|)
  }

  ghost predicate Inv<Fn, Args>(s: State<Fn, Args>, issues: seq<Issue<Args>>, ends: seq<nat>) {
    Firing(s, issues, ends) || Idle(s, issues, ends)
  }

  lemma CallKeeps<Fn, Args>(s: State<Fn, Args>, issues: seq<Issue<Args>>, ends: seq<nat>)
    requires Firing(s, issues, ends) && s.firingIndex + 1 < |s.registered|
    ensures Firing(Inner(s), issues, ends[|ends| - 1 := s.firingIndex + 2])
  {
    LastRoundGoesOn(s.registered, issues, ends, s.firingIndex + 1);
  }

  lemma RoundEnds<Fn, Args>(s: State<Fn, Args>, issues: seq<Issue<Args>>, ends: seq<nat>)
    requires Firing(s, issues, ends) && s.firingIndex + 1 == |s.registered| && s.queue == []
    ensures Idle(Inner(s), issues, ends)
  {
    var s1 := s.(firingIndex := -1);
    assert Inner(s) == Outer(s1) == Finish(s1);
  }

  lemma NextRound<Fn, Args>(s: State<Fn, Args>, issues: seq<Issue<Args>>, ends: seq<nat>)
    requires Books(s, issues, ends) && s.firing && s.queue != [] && Complete(issues, ends, |ends|)
    ensures Firing(s.(firingIndex := -1, memory := Some(s.queue[0]), queue := s.queue[1..]), issues, ends + [0])
  {
    NewRound(s.registered, issues, ends);
  }

  lemma {:induction false} LoopKeeps<Fn, Args>(s: State<Fn, Args>, issues: seq<Issue<Args>>, ends: seq<nat>)
    returns (ends': seq<nat>)
    requires Firing(s, issues, ends)
    ensures Inv(Inner(s), issues, ends')
    decreases |s.queue|
  {
    if s.firingIndex + 1 < |s.registered| {
      CallKeeps(s, issues, ends);
      ends' := ends[|ends| - 1 := s.firingIndex + 2];
    } else if s.queue == [] {
      RoundEnds(s, issues, ends);
      ends' := ends;
    } else {
      NextRound(s, issues, ends);
      ends' := LoopKeeps(s.(firingIndex := -1, memory := Some(s.queue[0]), queue := s.queue[1..]), issues, ends + [0]);
    }
  }

  // ----- Events

  lemma {:induction false} PushInOrder<Fn, Args>(s: State<Fn, Args>, fns: seq<Fn>) returns (more: seq<Fn>)
    requires s.list == Live(InOrder(s.registered))
    ensures var t := Push(s, fns); t.registered == s.registered + more && t.list == Live(InOrder(t.registered))
    decreases fns
  {
    more := [];
    if fns != [] {
      if s.opts.unique && HasFn(s.list.regs, fns[0]) {
        more := PushInOrder(s, fns[1..]);
      } else {
        assert InOrder(s.registered + [fns[0]]) == InOrder(s.registered) + [Reg(|s.registered|, fns[0])];
        more := PushInOrder(PushOne(s, fns[0]), fns[1..]);
        assert s.registered + [fns[0]] + more == s.registered + ([fns[0]] + more);
        more := [fns[0]] + more;
      }
    }
  }

  lemma PushKeepsBooks<Fn, Args>(s: State<Fn, Args>, fns: seq<Fn>, issues: seq<Issue<Args>>, ends: seq<nat>)
    requires Books(s, issues, ends)
    ensures Books(Push(s, fns), issues, ends)
  {
    var more := PushInOrder(s, fns);
    RoundsGrow(s.registered, more, issues, [], ends);
    assert issues + [] == issues;
  }

  lemma IssueKeepsBooks<Fn, Args>(s: State<Fn, Args>, args: Args, issues: seq<Issue<Args>>, ends: seq<nat>)
    requires Books(s, issues, ends)
    ensures Books(s.(queue := s.queue + [args]), issues + [Issue(args, |s.registered|)], ends)
  {
    RoundsGrow(s.registered, [], issues, [Issue(args, |s.registered|)], ends);
    assert s.registered + [] == s.registered;
  }

  lemma AddKeepsInv<Fn, Args>(s: State<Fn, Args>, fns: seq<Fn>, issues: seq<Issue<Args>>, ends: seq<nat>)
    returns (ends': seq<nat>)
    requires Inv(s, issues, ends)
    ensures Inv(Apply(s, Add(fns)), issues, ends')
  {
    ends' := ends;
    if s.memory.Some? && !s.firing {
      var t := Refired(s, fns, issues, ends);
      ends' := LoopKeeps(t, issues, ends);
    } else {
      PushKeepsBooks(s, fns, issues, ends);
    }
  }

  /** A list with memory goes on with its last round. */
  lemma Refired<Fn, Args>(s: State<Fn, Args>, fns: seq<Fn>, issues: seq<Issue<Args>>, ends: seq<nat>)
    returns (t: State<Fn, Args>)
    requires Idle(s, issues, ends) && s.memory.Some?
    ensures Firing(t, issues, ends) && Apply(s, Add(fns)) == Inner(t)
  {
    var s1 := s.(firingIndex := |s.list.regs| - 1, queue := s.queue + [s.memory.value]);
    PushKeepsBooks(s, fns, issues, ends);
    AddAsRefired(s, s1, fns);
    StartFireOne(Push(s1, fns), s.memory.value);
    t := Push(s, fns).(firingIndex := s1.firingIndex, fired := true, firing := true);
  }

  /** Pushing does not look at the firing index or the queue. */
  lemma AddAsRefired<Fn, Args>(s: State<Fn, Args>, s1: State<Fn, Args>, fns: seq<Fn>)
    requires s.list.Live? && s1 == s.(firingIndex := s1.firingIndex, queue := s1.queue)
    ensures Push(s1, fns) == Push(s, fns).(firingIndex := s1.firingIndex, queue := s1.queue)
    decreases fns
  {
    if fns != [] {
      if s.opts.unique && HasFn(s.list.regs, fns[0]) {
        AddAsRefired(s, s1, fns[1..]);
      } else {
        AddAsRefired(PushOne(s, fns[0]), PushOne(s1, fns[0]), fns[1..]);
      }
    }
  }

  lemma FireKeepsInv<Fn, Args>(s: State<Fn, Args>, args: Args, issues: seq<Issue<Args>>, ends: seq<nat>)
    returns (ends': seq<nat>)
    requires Inv(s, issues, ends)
    ensures Inv(Apply(s, FireWith(args)), issues + [Issue(args, |s.registered|)], ends')
  {
    var issues' := issues + [Issue(args, |s.registered|)];
    var s1 := s.(queue := s.queue + [args]);
    ends' := ends;
    IssueKeepsBooks(s, args, issues, ends);
    if !s.firing {
      StartFireOne(s1, args);
      var s2 := s1.(fired := true, firing := true);
      NextRound(s2, issues', ends);
      assert s2.queue[1..] == [];
      ends' := LoopKeeps(s2.(firingIndex := -1, memory := Some(args), queue := []), issues', ends + [0]);
    }
  }

  lemma ReturnKeepsInv<Fn, Args>(s: State<Fn, Args>, isFalse: bool, issues: seq<Issue<Args>>, ends: seq<nat>)
    returns (ends': seq<nat>)
    requires Inv(s, issues, ends) && (isFalse ==> !s.opts.stopOnFalse)
    ensures Inv(Step(s, Return(isFalse)), issues, ends')
  {
    ends' := ends;
    if s.firing { ends' := LoopKeeps(s, issues, ends); }
  }

  lemma {:induction false} RunKeepsInv<Fn, Args>(opts: Options, es: seq<Event<Fn, Args>>) returns (ends: seq<nat>)
    requires !opts.once && AddsAndFires(opts, es)
    ensures Inv(Run(opts, es), Issues(opts, es), ends)
  {
    ends := [];
    if es == [] {
      assert InOrder<Fn>([]) == [];
    } else {
      var before, e := es[..|es| - 1], es[|es| - 1];
      ends := RunKeepsInv(opts, before);
      var s, issues := Run(opts, before), Issues(opts, before);
      assert e in es && issues + [] == issues;
      match e
      case Return(isFalse) => ends := ReturnKeepsInv(s, isFalse, issues, ends);
      case Do(Add(fns)) => ends := AddKeepsInv(s, fns, issues, ends);
      case Do(FireWith(args)) => ends := FireKeepsInv(s, args, issues, ends);
    }
  }

  // ----- Main result

  /** Fires are delivered one after the other in the order in which they were issued, also those
      issued by callbacks; each goes, in the order of registration, to the callbacks that are
      there when their turn comes, and at least to all that were there when it was issued.  When
      nothing fires any more, every fire has been delivered; and a list with memory has
      delivered the last one to all its callbacks. */
  lemma FifoDelivery<Fn, Args>(opts: Options, es: seq<Event<Fn, Args>>) returns (ends: seq<nat>)
    requires !opts.once && AddsAndFires(opts, es)
    ensures var s, issues := Run(opts, es), Issues(opts, es);
      && |ends| <= |issues| && Within(ends, |s.registered|)
      && s.log == Rounds(s.registered, issues, ends)
      && Complete(issues, ends, if s.firing then |ends| - 1 else |ends|)
      && (!s.firing ==> |ends| == |issues|)
      && (!s.firing && opts.memory && issues != [] ==> ends[|ends| - 1] == |s.registered|)
  {
    ends := RunKeepsInv(opts, es);
  }
}
