/** The callback list as the object it is: its variables updated in place by its methods, each
    proved to do exactly what the step machine of module Callbacks says. */
module CallbackList {
  import opened Wrappers
  import opened Callbacks
  import opened CallbacksOnce

  class CallbackList<Fn(==), Args> {
    const opts: Options
    var firing: bool
    var memory: Option<Args>
    var fired: bool
    var locked: bool
    var list: List<Fn>
    var queue: seq<Args>
    var firingIndex: int
    ghost var registered: seq<Fn>
    var log: seq<Call<Fn, Args>>  // the last callback invoked has control while the list fires
    ghost var dropped: set<nat>
    var pushes: nat  // the number of callbacks ever pushed, the next registration's number

    ghost predicate Valid() reads this {
      -1 <= firingIndex && pushes == |registered|
    }

    ghost function View(): State<Fn, Args> reads this {
      State(opts, firing, memory, fired, locked, list, queue, firingIndex, registered, log, dropped)
    }

    constructor (opts: Options)
      ensures Valid() && View() == Init(opts)
    {
      this.opts := opts;
      firing, memory, fired, locked := false, None, false, false;
      list, queue, firingIndex := Live([]), [], -1;
      registered, log, dropped, pushes := [], [], {}, 0;
    }

    method Has(f: Fn) returns (b: bool)
      ensures b == HasFn(list.Regs(), f)
      ensures b <==> exists r <- list.Regs() :: r.fn == f
    {
      var i := IndexOf(f, 0);
      b := i > -1;
      assert b ==> list.Regs()[i] in list.Regs();
    }

    /** `jQuery.inArray`: the first position of `f` at or after `from`, or -1. */
    method IndexOf(f: Fn, from: nat) returns (index: int)
      requires from <= |list.Regs()|
      ensures FirstAt(list.Regs(), f, from, index)
    {
      var regs := list.Regs();
      index := from;
      while index < |regs|
        invariant from <= index <= |regs|
        invariant forall i | from <= i < index :: regs[i].fn != f
      {
        if regs[index].fn == f { return; }
        index := index + 1;
      }
      index := -1;
    }

    /** The local function `fire`, from the point `Resume` says up to the next invocation. */
    method Loop()
      requires Valid()
      modifies this
      ensures Valid() && View() == Inner(old(View()))
    {
      ghost var start := View();
      while true
        invariant Valid() && Inner(View()) == Inner(start)
        decreases |queue|
      {
        if firingIndex + 1 < |list.Regs()| && memory.Some? {
          Invoke();
          return;
        }
        firingIndex := -1;
        assert Outer(View()) == Inner(start);
        if queue == [] { break; }
        memory, queue := Some(queue[0]), queue[1..];
      }
      Finish();
    }

    /** Gives control to the next callback. */
    method Invoke()
      requires Valid() && firingIndex + 1 < |list.Regs()| && memory.Some?
      modifies `firingIndex, `log
      ensures Valid() && View() == Call0(old(View()), old(firingIndex) + 1, memory.value)
    {
      firingIndex := firingIndex + 1;
      var r := list.Regs()[firingIndex];
      log := log + [Call(r.id, r.fn, memory.value)];
    }

    /** The end of a firing. */
    method Finish()
      requires Valid()
      modifies `memory, `firing, `list
      ensures Valid() && View() == Callbacks.Finish(old(View()))
    {
      if !opts.memory { memory := None; }
      firing := false;
      if locked {
        list := if memory.Some? then Live([]) else Spent;
      }
    }

    method Fire()
      requires Valid() && queue != []
      modifies this
      ensures Valid() && View() == StartFire(old(View()))
    {
      locked := locked || opts.once;
      fired, firing := true, true;
      memory, queue := Some(queue[0]), queue[1..];
      Loop();
    }

    method Resume(isFalse: bool)
      requires Valid()
      modifies this
      ensures Valid() && View() == Step(old(View()), Return(isFalse))
    {
      if firing {
        if isFalse && opts.stopOnFalse {
          firingIndex, memory := |list.Regs()|, None;
        }
        Loop();
      }
    }

    method Add(fns: seq<Fn>)
      requires Valid()
      modifies this
      ensures Valid() && View() == Apply(old(View()), Op.Add(fns))
    {
      if list.Live? {
        if memory.Some? && !firing {
          firingIndex := |list.regs| - 1;
          queue := queue + [memory.value];
        }
        ghost var start := View();
        for i := 0 to |fns|
          invariant Valid() && list.Live? && Push(View(), fns[i..]) == Push(start, fns)
          invariant queue == start.queue && memory == start.memory && firing == start.firing
        {
          assert fns[i..][0] == fns[i] && fns[i..][1..] == fns[i + 1..];
          Append(fns[i]);
        }
        if memory.Some? && !firing {
          Fire();
        }
      }
    }

    method Append(f: Fn)
      requires Valid() && list.Live?
      modifies `list, `pushes, `registered
      ensures Valid() && list.Live?
      ensures View() ==
        if opts.unique && HasFn(old(list.regs), f) then old(View())
        else old(View()).(list := Live(old(list.regs) + [Reg(|old(registered)|, f)]),
                          registered := old(registered) + [f])
    {
      var has := Has(f);
      if !opts.unique || !has {
        list, pushes, registered := Live(list.regs + [Reg(pushes, f)]), pushes + 1, registered + [f];
      }
    }

    method Remove(fns: seq<Fn>)
      requires Valid()
      modifies this
      ensures Valid() && View() == Apply(old(View()), Op.Remove(fns))
    {
      if list.Live? {
        for i := 0 to |fns|
          invariant Valid() && list.Live? && RemoveAll(View(), fns[i..]) == RemoveAll(old(View()), fns)
        {
          assert fns[i..][0] == fns[i] && fns[i..][1..] == fns[i + 1..];
          RemoveOne(fns[i]);
        }
      }
    }

    method RemoveOne(f: Fn)
      requires Valid() && list.Live?
      modifies this
      ensures Valid() && list.Live? && View() == RemoveFn(old(View()), f)
    {
      ghost var t := RemoveFn(View(), f);
      Splice(f);
      dropped := t.dropped;
    }

    /** Searches for `f` and splices it out until the search fails. */
    method Splice(f: Fn)
      requires list.Live? && -1 <= firingIndex
      modifies `list, `firingIndex
      ensures list == Live(Without(old(list.regs), f))
      ensures firingIndex == old(firingIndex) - Count(old(list.regs), f, old(firingIndex) + 1)
    {
      ghost var all, reached := list.regs, firingIndex;
      ghost var k := 0;  // where the search resumes
      var index := IndexOf(f, 0);
      SpliceStarts(list.regs, f, firingIndex);
      while index > -1
        invariant list.Live? && Spliced(list.regs, k, f, firingIndex, all, reached)
        invariant FirstAt(list.regs, f, k, index)
        decreases |list.regs| - k
      {
        SpliceGoesOn(list.regs, k, f, firingIndex, all, reached, index);
        list := Live(list.regs[..index] + list.regs[index + 1..]);
        if index <= firingIndex {
          firingIndex := firingIndex - 1;
        }
        k := index;
        index := IndexOf(f, index);
      }
      SpliceEnds(list.regs, k, f, firingIndex, all, reached);
    }

    method FireWith(args: Args)
      requires Valid()
      modifies this
      ensures Valid() && View() == Apply(old(View()), Op.FireWith(args))
    {
      if !locked {
        queue := queue + [args];
        if !firing {
          Fire();
        }
      }
    }

    method Lock()
      requires Valid()
      modifies this
      ensures Valid() && View() == Apply(old(View()), Op.Lock)
    {
      locked, queue := true, [];
      if memory.None? && !firing {
        dropped := dropped + Ids(Ahead(View()));
        list, memory := Spent, None;
      }
    }

    method Disable()
      requires Valid()
      modifies this
      ensures Valid() && View() == Apply(old(View()), Op.Disable)
    {
      dropped := dropped + Ids(Ahead(View()));
      locked, queue := true, [];
      list, memory := Spent, None;
    }

    method Empty()
      requires Valid()
      modifies this
      ensures Valid() && View() == Apply(old(View()), Op.Empty)
    {
      if list.Live? {
        dropped := dropped + Ids(Ahead(View()));
        list := Live([]);
      }
    }
  }

  /** The first `f` of `regs` at or after `from` is at `index`, or there is none. */
  ghost predicate FirstAt<Fn>(regs: seq<Reg<Fn>>, f: Fn, from: nat, index: int) {
    if index == -1 then forall i | from <= i < |regs| :: regs[i].fn != f
    else from <= index < |regs| && regs[index].fn == f && forall i | from <= i < index :: regs[i].fn != f
  }

  /** `f` has been removed from the first `k` of `regs`, and the firing index moved accordingly. */
  ghost predicate Spliced<Fn>(regs: seq<Reg<Fn>>, k: nat, f: Fn, firingIndex: int, all: seq<Reg<Fn>>, reached: int) {
    && k <= |regs|
    && regs[..k] + Without(regs[k..], f) == Without(all, f)
    && firingIndex - Count(regs[k..], f, firingIndex + 1 - k) == reached - Count(all, f, reached + 1)
  }

  lemma SpliceGoesOn<Fn>(regs: seq<Reg<Fn>>, k: nat, f: Fn, firingIndex: int, all: seq<Reg<Fn>>, reached: int,
                         index: nat)
    requires Spliced(regs, k, f, firingIndex, all, reached) && FirstAt(regs, f, k, index)
    ensures Spliced(regs[..index] + regs[index + 1..], index, f,
                    if index <= firingIndex then firingIndex - 1 else firingIndex, all, reached)
  {
    var rest, n, after := regs[k..], index - k, regs[..index] + regs[index + 1..];
    assert forall i | 0 <= i < |rest| :: rest[i] == regs[k + i];
    SkipTo(rest, f, n, firingIndex + 1 - k);
    assert rest[n + 1..] == regs[index + 1..] == after[index..];
    assert after[..index] == regs[..k] + rest[..n];
    CountNone(after[index..], f, firingIndex + 1 - index);
  }

  lemma SpliceStarts<Fn>(regs: seq<Reg<Fn>>, f: Fn, firingIndex: int)
    ensures Spliced(regs, 0, f, firingIndex, regs, firingIndex)
  {
    assert regs[0..] == regs;
  }

  lemma SpliceEnds<Fn>(regs: seq<Reg<Fn>>, k: nat, f: Fn, firingIndex: int, all: seq<Reg<Fn>>, reached: int)
    requires Spliced(regs, k, f, firingIndex, all, reached) && FirstAt(regs, f, k, -1)
    ensures regs == Without(all, f) && firingIndex == reached - Count(all, f, reached + 1)
  {
    assert forall i | 0 <= i < |regs[k..]| :: regs[k..][i] == regs[k + i];
    WithoutNone(regs[k..], f, firingIndex + 1 - k);
  }

  lemma CountNone<Fn>(regs: seq<Reg<Fn>>, f: Fn, n: int)
    ensures n <= 0 ==> Count(regs, f, n) == 0
  {
  }

  /** Removing the first `f` of `rest`, found at `n`. */
  lemma {:induction false} SkipTo<Fn>(rest: seq<Reg<Fn>>, f: Fn, n: nat, reached: int)
    requires FirstAt(rest, f, 0, n)
    ensures Without(rest, f) == rest[..n] + Without(rest[n + 1..], f)
    ensures Count(rest, f, reached) == if n < reached then 1 + Count(rest[n + 1..], f, reached - n - 1) else 0
  {
    if n > 0 {
      SkipTo(rest[1..], f, n - 1, reached - 1);
      assert rest[1..][n..] == rest[n + 1..];
    }
  }

  lemma {:induction false} WithoutNone<Fn>(regs: seq<Reg<Fn>>, f: Fn, reached: int)
    requires FirstAt(regs, f, 0, -1)
    ensures Without(regs, f) == regs && Count(regs, f, reached) == 0
  {
    if regs != [] {
      WithoutNone(regs[1..], f, reached - 1);
    }
  }
}
