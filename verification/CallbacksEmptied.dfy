/** What becomes of callbacks that are added after `empty` while the list fires. */
module CallbacksEmptied {
  import opened Wrappers
  import opened Callbacks
  import opened CallbacksOnce

  function Calls<Fn, Args>(regs: seq<Reg<Fn>>, args: Args): seq<Call<Fn, Args>> {
    seq(|regs|, i requires 0 <= i < |regs| => Call(regs[i].id, regs[i].fn, args))
  }

  /** What is left of a firing with an empty queue: the registrations behind the firing index. */
  function Rest<Fn, Args>(s: State<Fn, Args>): seq<Reg<Fn>>
    requires -1 <= s.firingIndex
  {
    if s.firingIndex < |s.list.Regs()| then s.list.Regs()[s.firingIndex + 1..] else []
  }

  lemma NextCalled<Fn, Args>(s: State<Fn, Args>)
    requires s.firing && s.memory.Some? && -1 <= s.firingIndex && Rest(s) != []
    ensures var t := Returned(s, false);
      && t == s.(firingIndex := s.firingIndex + 1, log := t.log) && Rest(s) == [Rest(s)[0]] + Rest(t)
      && t.log == s.log + Calls([Rest(s)[0]], s.memory.value)
  {
    var t, r := Returned(s, false), Rest(s)[0];
    assert t == Call0(s, s.firingIndex + 1, s.memory.value);
    assert Calls([r], s.memory.value) == [Call(r.id, r.fn, s.memory.value)];
  }

  lemma NoneCalled<Fn, Args>(s: State<Fn, Args>)
    requires s.firing && s.queue == [] && -1 <= s.firingIndex && Rest(s) == []
    ensures var t := Returned(s, false); !t.firing && t.log == s.log
  {
    var s1 := s.(firingIndex := -1);
    assert Outer(s1) == Finish(s1);
  }

  lemma CallsInTwo<Fn, Args>(log: seq<Call<Fn, Args>>, a: seq<Reg<Fn>>, b: seq<Reg<Fn>>, args: Args)
    ensures log + Calls(a, args) + Calls(b, args) == log + Calls(a + b, args)
  {
    assert Calls(a + b, args) == Calls(a, args) + Calls(b, args);
  }

  lemma DrainStep<Fn, Args>(s: State<Fn, Args>)
    requires s.firing && -1 <= s.firingIndex
    ensures Drain(s) == Drain(Returned(s, false))
  {
    ReturnedGoesOn(s);
  }

  lemma DrainEnds<Fn, Args>(s: State<Fn, Args>)
    requires s.firing && s.queue == [] && -1 <= s.firingIndex && Rest(s) == []
    ensures Drain(s).log == s.log
  {
    NoneCalled(s);
    DrainStep(s);
    assert Drain(Returned(s, false)) == Returned(s, false);
  }

  lemma {:induction false} DrainDelivers<Fn, Args>(s: State<Fn, Args>)
    requires s.firing && s.queue == [] && s.memory.Some? && -1 <= s.firingIndex
    ensures Drain(s).log == s.log + Calls(Rest(s), s.memory.value)
    decreases |Rest(s)|
  {
    if Rest(s) == [] {
      DrainEnds(s);
      assert Calls(Rest(s), s.memory.value) == [];
    } else {
      var t := Returned(s, false);
      NextCalled(s);
      DrainDelivers(t);
      DrainStep(s);
      CallsInTwo(s.log, [Rest(s)[0]], Rest(t), s.memory.value);
    }
  }

  ghost predicate NewOnly<Fn>(regs: seq<Reg<Fn>>, n: nat) {
    forall i | 0 <= i < |regs| :: n <= regs[i].id
  }

  /** Pushing gives new numbers, in order. */
  lemma PushNumbers<Fn, Args>(s: State<Fn, Args>, fns: seq<Fn>, n: nat)
    requires s.list.Live? && Increasing(s.list.regs, s.registered) && NewOnly(s.list.regs, n) && n <= |s.registered|
    ensures Increasing(Push(s, fns).list.regs, Push(s, fns).registered) && NewOnly(Push(s, fns).list.regs, n)
    decreases fns
  {
    if fns != [] {
      if s.opts.unique && HasFn(s.list.regs, fns[0]) {
        PushNumbers(s, fns[1..], n);
      } else {
        IncreasingAppend(s.list.regs, s.registered, fns[0]);
        PushNumbers(PushOne(s, fns[0]), fns[1..], n);
      }
    }
  }

  lemma CalledIff<Fn, Args>(log: seq<Call<Fn, Args>>, regs: seq<Reg<Fn>>, from: nat, args: Args, j: nat)
    requires j < |regs| && forall i, k | 0 <= i < k < |regs| :: regs[i].id < regs[k].id
    requires regs[j].id !in CallIds(log)
    ensures regs[j].id in CallIds(log + Calls(if from < |regs| then regs[from..] else [], args)) <==> j >= from
  {
    var rest := if from < |regs| then regs[from..] else [];
    var all := log + Calls(rest, args);
    if j >= from {
      assert all[|log| + (j - from)].id == regs[j].id;
    } else {
      forall i | 0 <= i < |all| ensures all[i].id != regs[j].id {
        if i < |log| {
          assert log[i].id in CallIds(log);
        } else {
          assert all[i].id == regs[from + (i - |log|)].id;
        }
      }
    }
  }

  lemma EmptiedThenAdded<Fn, Args>(s: State<Fn, Args>, fns: seq<Fn>, first: Option<Args>)
    requires OnceInv(s, first) && s.firing && s.list.Live?
    ensures var t := Apply(Apply(s, Empty), Add(fns));
      && t == s.(list := t.list, registered := t.registered, dropped := t.dropped) && t.list.Live?
      && Increasing(t.list.regs, t.registered) && NewOnly(t.list.regs, |s.registered|)
  {
    PushNumbers(Apply(s, Empty), fns, |s.registered|);
  }

  /** `empty` leaves the firing index alone.  So of the callbacks added next, those at places up to
      the firing index are passed over by the firing, and exactly those behind it run. */
  lemma EmptyThenAddRunsIff<Fn, Args>(s: State<Fn, Args>, fns: seq<Fn>, first: Option<Args>)
    requires OnceInv(s, first) && s.firing && s.list.Live?
    ensures var t := Apply(Apply(s, Empty), Add(fns));
      forall j | 0 <= j < |t.list.Regs()| ::
        t.list.Regs()[j].id in CallIds(Drain(t).log) <==> j > s.firingIndex
  {
    var t := Apply(Apply(s, Empty), Add(fns));
    EmptiedThenAdded(s, fns, first);
    DrainDelivers(t);
    forall j | 0 <= j < |t.list.regs| ensures t.list.regs[j].id in CallIds(Drain(t).log) <==> j > s.firingIndex {
      CalledIff(s.log, t.list.regs, s.firingIndex + 1, s.memory.value, j);
    }
  }
}
