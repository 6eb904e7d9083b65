/** A dataset and the elements that are drawn for its data.  The array methods of the data are
    hooked, so that the elements follow each change of the data. */
module DataSync {
  import opened Wrappers

  /** An element, with the datum that it was made for: none if its index lay outside the data. */
  datatype Element<T> = Element(made: Option<T>)

  function Create<T>(data: seq<T>, index: int): Element<T> {
    Element(if 0 <= index < |data| then Some(data[index]) else None)
  }

  /** Each element has been made for the datum at its place. */
  ghost predicate InSync<T>(data: seq<T>, meta: seq<Element<T>>) {
    |meta| == |data| && forall k | 0 <= k < |data| :: meta[k] == Create(data, k)
  }

  // ----- Array.prototype.splice

  /** Negative starts count from the end. */
  function Clamp(start: int, length: nat): (at: nat)
    ensures at <= length
  {
    if start > length then length
    else if start >= 0 then start
    else if length + start < 0 then 0
    else length + start
  }

  function Deleted(at: nat, count: int, length: nat): (n: nat)
    requires at <= length
    ensures at + n <= length
  {
    if count < 0 then 0 else if count > length - at then length - at else count
  }

  function Spliced<A>(s: seq<A>, start: int, count: int, items: seq<A>): seq<A> {
    var at := Clamp(start, |s|);
    s[..at] + items + s[at + Deleted(at, count, |s|)..]
  }

  lemma OneSpliced<A>(s: seq<A>, t: seq<A>, start: int, item: A)
    requires |t| == |s| + 1 && t[Clamp(start, |s|)] == item
    requires forall k | 0 <= k < |s| :: t[if k < Clamp(start, |s|) then k else k + 1] == s[k]
    ensures t == Spliced(s, start, 0, [item])
  {
    var at := Clamp(start, |s|);
    forall k | 0 <= k < |t| ensures t[k] == Spliced(s, start, 0, [item])[k] {
      if k < at { assert t[k] == s[k]; } else if k > at { assert t[k] == s[k - 1]; }
    }
  }

  // ----- The listener

  /** `insertElements` with the given number of rounds to go. */
  function Inserted<T>(data: seq<T>, meta: seq<Element<T>>, start: int, count: nat): seq<Element<T>>
    decreases count
  {
    if count == 0 then meta
    else Inserted(data, Spliced(meta, start, 0, [Create(data, start)]), start + 1, count - 1)
  }

  /** A call of one of the hooked methods.  A count that the caller leaves out makes `splice`
      delete everything from `start` on. */
  datatype Call<T> =
    | Push(items: seq<T>)
    | Pop
    | Shift
    | Unshift(items: seq<T>)
    | Splice(start: int, count: Option<int>, items: seq<T>)

  /** Items can only follow an explicit count. */
  predicate Possible<T>(call: Call<T>) {
    call.Splice? && call.count.None? ==> call.items == []
  }

  function NewData<T>(data: seq<T>, call: Call<T>): seq<T> {
    match call
    case Push(items) => data + items
    case Pop => if data == [] then [] else data[..|data| - 1]
    case Shift => if data == [] then [] else data[1..]
    case Unshift(items) => items + data
    case Splice(start, count, items) => Spliced(data, start, if count.Some? then count.value else |data|, items)
  }

  /** What the listener makes of the elements, once the data has been altered. */
  function NewMeta<T>(data: seq<T>, meta: seq<Element<T>>, call: Call<T>): seq<Element<T>> {
    match call
    case Push(items) => Inserted(data, meta, |data| - |items|, |items|)
    case Pop => if meta == [] then [] else meta[..|meta| - 1]
    case Shift => if meta == [] then [] else meta[1..]
    case Unshift(items) => Inserted(data, meta, 0, |items|)
    case Splice(start, count, items) =>
      Inserted(data, Spliced(meta, start, if count.Some? then count.value else 0, []), start, |items|)
  }

  class Controller<T> {
    var data: seq<T>
    var meta: seq<Element<T>>

    /** `addElements` */
    constructor (data: seq<T>)
      ensures this.data == data && InSync(data, meta)
    {
      this.data, meta := data, [];
      new;
      for i := 0 to |data|
        invariant this.data == data && |meta| == i && forall k | 0 <= k < i :: meta[k] == Create(data, k)
      {
        meta := meta + [Create(data, i)];
      }
    }

    method InsertElements(start: int, count: int)
      modifies `meta
      ensures meta == Inserted(data, old(meta), start, if count < 0 then 0 else count)
    {
      var i := 0;
      while i < count
        invariant 0 <= i && (i <= count || i == 0)
        invariant Inserted(data, meta, start + i, if count < i then 0 else count - i)
               == Inserted(data, old(meta), start, if count < 0 then 0 else count)
      {
        ghost var before := meta;
        AddElementAndReset(start + i);
        OneSpliced(before, meta, start + i, Create(data, start + i));
        i := i + 1;
      }
    }

    /** The new element ends up at its index; behind all others if the index is too large; and, as
        far as possible, counted from the end if it is negative.  All others stay in order. */
    method AddElementAndReset(index: int)
      modifies `meta
      ensures |meta| == |old(meta)| + 1
      ensures var n := |old(meta)|;
        var at := if index > n then n else if index >= 0 then index else if n + index >= 0 then n + index else 0;
        && meta[at] == Create(data, index)
        && forall k | 0 <= k < n :: meta[if k < at then k else k + 1] == old(meta)[k]
    {
      var element := Create(data, index);
      meta := Spliced(meta, index, 0, [element]);
    }

    /** A hooked method: the array is altered first, then the listener is told. */
    method Invoke(call: Call<T>)
      requires Possible(call)
      modifies this
      ensures data == NewData(old(data), call)
      ensures meta == NewMeta(data, old(meta), call)
    {
      data := NewData(data, call);
      match call
      case Push(items) =>
        InsertElements(|data| - |items|, |items|);
      case Pop =>
        meta := if meta == [] then [] else meta[..|meta| - 1];
      case Shift =>
        meta := if meta == [] then [] else meta[1..];
      case Unshift(items) =>
        InsertElements(0, |items|);
      case Splice(start, count, items) =>
        meta := Spliced(meta, start, if count.Some? then count.value else 0, []);
        InsertElements(start, if count.Some? then |items| else -1);
    }

    /** `resyncElements`: whatever happened to the data behind the controller's back, there are
        as many elements as data again, and the new ones have been made for their data. */
    method Resync()
      modifies `meta
      ensures |meta| == |data|
      ensures forall k | 0 <= k < |data| :: meta[k] == if k < |old(meta)| then old(meta)[k] else Create(data, k)
    {
      var numMeta, numData := |meta|, |data|;
      if numData < numMeta {
        meta := Spliced(meta, numData, numMeta - numData, []);
      } else if numData > numMeta {
        ghost var before := meta;
        InsertElements(numMeta, numData - numMeta);
        InsertedInside(data, before, numMeta, numData - numMeta);
      }
    }
  }

  // ----- The array methods

  /** `after` is `before` with the `n` elements at `at` replaced by `items`. */
  ghost predicate Replaced<A>(before: seq<A>, at: nat, n: nat, items: seq<A>, after: seq<A>) {
    && at + n <= |before| && |after| == |before| - n + |items|
    && (forall k | 0 <= k < at :: after[k] == before[k])
    && (forall k | 0 <= k < |items| :: after[at + k] == items[k])
    && (forall k | at + n <= k < |before| :: after[k - n + |items|] == before[k])
  }

  lemma PartReplaced<A>(before: seq<A>, at: nat, n: nat, items: seq<A>)
    requires at + n <= |before|
    ensures Replaced(before, at, n, items, before[..at] + items + before[at + n..])
  {
  }

  /** What the array methods do: a negative start counts from the end, and neither start nor count
      reach beyond the ends; without a count, all from the start on is deleted. */
  lemma ArrayMethods<T>(data: seq<T>, call: Call<T>)
    ensures var after, length := NewData(data, call), |data|;
      match call
      case Push(items) => Replaced(data, length, 0, items, after)
      case Pop => if length == 0 then after == [] else Replaced(data, length - 1, 1, [], after)
      case Shift => if length == 0 then after == [] else Replaced(data, 0, 1, [], after)
      case Unshift(items) => Replaced(data, 0, 0, items, after)
      case Splice(start, count, items) =>
        forall at: nat, n: nat | Deletes(start, count, length, at, n) :: Replaced(data, at, n, items, after)
  {
    match call
    case Push(items) => PartReplaced(data, |data|, 0, items);
    case Pop => if data != [] { PartReplaced(data, |data| - 1, 1, []); }
    case Shift => if data != [] { PartReplaced(data, 0, 1, []); }
    case Unshift(items) => PartReplaced(data, 0, 0, items);
    case Splice(start, count, items) =>
      forall at: nat, n: nat | Deletes(start, count, |data|, at, n)
        ensures Replaced(data, at, n, items, NewData(data, call))
      {
        SpliceReplaces(data, start, count, items, at, n);
      }
  }

  /** Where `splice` starts, and how many elements it deletes. */
  ghost predicate Deletes(start: int, count: Option<int>, length: nat, at: nat, n: nat) {
    && at == (if start > length then length else if start >= 0 then start
              else if start + length > 0 then start + length else 0)
    && var rest := length - at;
       n == if count.None? || count.value > rest then rest else if count.value > 0 then count.value else 0
  }

  lemma DeletedPart(start: int, count: Option<int>, length: nat, at: nat, n: nat)
    requires Deletes(start, count, length, at, n)
    ensures at == Clamp(start, length) && n == Deleted(at, if count.Some? then count.value else length, length)
  {
  }

  lemma SpliceReplaces<T>(data: seq<T>, start: int, count: Option<int>, items: seq<T>, at: nat, n: nat)
    requires Deletes(start, count, |data|, at, n)
    ensures at + n <= |data| && Replaced(data, at, n, items, NewData(data, Splice(start, count, items)))
  {
    DeletedPart(start, count, |data|, at, n);
    PartReplaced(data, at, n, items);
  }

  // ----- Properties

  /** The elements that are made for a stretch of the data. */
  function Made<T>(data: seq<T>, start: nat, count: nat): (made: seq<Element<T>>) {
    seq(count, i requires 0 <= i < count => Create(data, start + i))
  }

  lemma {:induction false} InsertedInside<T>(data: seq<T>, meta: seq<Element<T>>, start: nat, count: nat)
    requires start <= |meta|
    ensures Inserted(data, meta, start, count) == meta[..start] + Made(data, start, count) + meta[start..]
    decreases count
  {
    if count > 0 {
      var now := Spliced(meta, start, 0, [Create(data, start)]);
      InsertedInside(data, now, start + 1, count - 1);
      assert now[..start + 1] == meta[..start] + [Create(data, start)];
      assert now[start + 1..] == meta[start..];
      assert Made(data, start, count) == [Create(data, start)] + Made(data, start + 1, count - 1);
    } else {
      assert meta == meta[..start] + meta[start..];
    }
  }

  /** No element is lost, and each one made is there. */
  lemma {:induction false} InsertedHas<T>(data: seq<T>, meta: seq<Element<T>>, start: int, count: nat)
    ensures |Inserted(data, meta, start, count)| == |meta| + count
    ensures forall e <- meta :: e in Inserted(data, meta, start, count)
    ensures forall k | start <= k < start + count :: Create(data, k) in Inserted(data, meta, start, count)
    decreases count
  {
    if count > 0 {
      var at, element := Clamp(start, |meta|), Create(data, start);
      var now := Spliced(meta, start, 0, [element]);
      assert now[at] == element;
      forall k | 0 <= k < |meta| ensures meta[k] in now {
        assert meta[k] == now[if k < at then k else k + 1];
      }
      InsertedHas(data, now, start + 1, count - 1);
      assert element in now;
    }
  }

  /** The calls that keep data and elements in step, as far as a caller can see before calling. */
  predicate Safe<T>(length: nat, call: Call<T>) {
    call.Splice? ==>
      if call.count.Some? then call.items == [] || 0 <= call.start <= length
      else call.start >= length || length == 0
  }

  /** Exactly the safe calls keep each element with its datum. */
  lemma InSyncIffSafe<T>(data: seq<T>, meta: seq<Element<T>>, call: Call<T>)
    requires InSync(data, meta) && Possible(call)
    ensures var after := NewData(data, call);
      InSync(after, NewMeta(after, meta, call)) <==> Safe(|data|, call)
  {
    var after := NewData(data, call);
    match call
    case Push(items) => InsertedInside(after, meta, |data|, |items|);
    case Pop =>
    case Shift =>
    case Unshift(items) => InsertedInside(after, meta, 0, |items|);
    case Splice(start, count, items) => SpliceInSync(data, meta, start, count, items);
  }

  lemma SpliceInSync<T>(data: seq<T>, meta: seq<Element<T>>, start: int, count: Option<int>, items: seq<T>)
    requires InSync(data, meta) && Possible(Splice(start, count, items))
    ensures var call := Splice(start, count, items); var after := NewData(data, call);
      InSync(after, NewMeta(after, meta, call)) <==> Safe(|data|, call)
  {
    if count.Some? && items != [] {
      if 0 <= start <= |data| {
        SpliceInside(data, meta, start, count.value, items);
      } else {
        SpliceOutside(data, meta, start, count.value, items);
      }
    }
  }

  lemma SpliceInside<T>(data: seq<T>, meta: seq<Element<T>>, start: nat, count: int, items: seq<T>)
    requires InSync(data, meta) && start <= |data|
    ensures var call := Splice(start, Some(count), items); var after := NewData(data, call);
      InSync(after, NewMeta(after, meta, call))
  {
    var after, kept := Spliced(data, start, count, items), Spliced(meta, start, count, []);
    InsertedInside(after, kept, start, |items|);
    var n, made := |items|, kept[..start] + Made(after, start, |items|) + kept[start..];
    forall k | 0 <= k < |after| ensures made[k] == Create(after, k) {
      if k < start {
        assert made[k] == meta[k] && after[k] == data[k];
      } else if k < start + n {
        assert made[k] == Create(after, start + (k - start));
      } else {
        var was := k - n + Deleted(start, count, |data|);
        assert made[k] == kept[k - n] == meta[was] && after[k] == data[was];
      }
    }
  }

  lemma SpliceOutside<T>(data: seq<T>, meta: seq<Element<T>>, start: int, count: int, items: seq<T>)
    requires InSync(data, meta) && (start < 0 || start > |data|) && items != []
    ensures var call := Splice(start, Some(count), items); var after := NewData(data, call);
      !InSync(after, NewMeta(after, meta, call))
  {
    var after := Spliced(data, start, count, items);
    InsertedHas(after, Spliced(meta, start, count, []), start, |items|);
    assert Create(after, if start < 0 then start else start + |items| - 1) == Element(None);
  }

  /** Even a splice that mixes up the elements keeps their number right, if it has a count. */
  lemma LengthsKept<T>(data: seq<T>, meta: seq<Element<T>>, call: Call<T>)
    requires |meta| == |data| && (call.Splice? ==> call.count.Some?)
    ensures var after := NewData(data, call); |NewMeta(after, meta, call)| == |after|
  {
    var after := NewData(data, call);
    match call
    case Push(items) => InsertedHas(after, meta, |after| - |items|, |items|);
    case Pop =>
    case Shift =>
    case Unshift(items) => InsertedHas(after, meta, 0, |items|);
    case Splice(start, count, items) => InsertedHas(after, Spliced(meta, start, count.value, []), start, |items|);
  }

  /** Runs of hooked calls. */
  function Run<T>(data: seq<T>, meta: seq<Element<T>>, calls: seq<Call<T>>): (seq<T>, seq<Element<T>>)
    decreases |calls|
  {
    if calls == [] then (data, meta)
    else
      var after := NewData(data, calls[0]);
      Run(after, NewMeta(after, meta, calls[0]), calls[1..])
  }

  ghost predicate AllSafe<T>(data: seq<T>, calls: seq<Call<T>>)
    decreases |calls|
  {
    calls == [] ||
    (Possible(calls[0]) && Safe(|data|, calls[0]) && AllSafe(NewData(data, calls[0]), calls[1..]))
  }

  lemma {:induction false} RunInSync<T>(data: seq<T>, meta: seq<Element<T>>, calls: seq<Call<T>>)
    requires InSync(data, meta) && AllSafe(data, calls)
    ensures var (data', meta') := Run(data, meta, calls); InSync(data', meta')
    decreases |calls|
  {
    if calls != [] {
      InSyncIffSafe(data, meta, calls[0]);
      var after := NewData(data, calls[0]);
      RunInSync(after, NewMeta(after, meta, calls[0]), calls[1..]);
    }
  }

  /** Adding at a place beyond the end of the data: the array method appends, but the elements are
      made for indices that hold no datum or the wrong one. */
  lemma BeyondTheEnd()
    ensures var data, meta, call := ["a"], [Element(Some("a"))], Splice(2, Some(0), ["b", "c"]);
      var after := NewData(data, call);
      && InSync(data, meta)
      && after == ["a", "b", "c"]
      && NewMeta(after, meta, call) == [Element(Some("a")), Element(Some("c")), Element(None)]
  {
    var data, meta, call := ["a"], [Element(Some("a"))], Splice(2, Some(0), ["b", "c"]);
    var after := NewData(data, call);
    assert after == ["a", "b", "c"];
    var one := Spliced(meta, 2, 0, [Create(after, 2)]);
    assert Spliced(meta, 2, 0, []) == meta;
    assert one == [Element(Some("a")), Element(Some("c"))];
    assert Spliced(one, 3, 0, [Create(after, 3)]) == one + [Element(None)];
    assert Inserted(after, meta, 2, 2) == Inserted(after, one, 3, 1) == Inserted(after, one + [Element(None)], 4, 0);
  }
}
