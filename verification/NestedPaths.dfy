/** Single steps of printing, splitting and setting, whatever the tree. */
module NestedPaths {
  import opened Wrappers
  import opened NestedNames
  import opened NestedNamesRoundTrip

  // ----- Splitting

  function Closed(keys: seq<string>): (parts: seq<string>)
    ensures |parts| == |keys| && forall i | 0 <= i < |parts| :: parts[i] == keys[i] + "]"
  {
    seq(|keys|, i requires 0 <= i < |keys| => keys[i] + "]")
  }

  lemma {:induction false} SplitParts(prefix: string, keys: seq<string>)
    requires forall i | 0 <= i < |keys| :: Bare(keys[i])
    ensures Split(Under(prefix, keys)) == Split(prefix) + Closed(keys)
    decreases |keys|
  {
    if keys == [] {
      assert Closed(keys) == [];
    } else {
      assert Bracketed(prefix, keys[0]) == prefix + "[" + (keys[0] + "]");
      SplitAppend(prefix, keys[0] + "]");
      SplitParts(Bracketed(prefix, keys[0]), keys[1..]);
      ClosedFirst(Split(prefix), keys);
    }
  }

  lemma ClosedFirst(before: seq<string>, keys: seq<string>)
    requires keys != []
    ensures before + [keys[0] + "]"] + Closed(keys[1..]) == before + Closed(keys)
  {
  }

  /** A name may start with brackets: `[foo][inn]` is the same as `foo[inn]`. */
  lemma LeadingBrackets(keys: seq<string>)
    requires keys != [] && forall i | 0 <= i < |keys| :: Bare(keys[i])
    ensures SplitInputNameIntoKeysArray(Under("", keys)) == keys
  {
    SplitParts("", keys);
    StrippedClosed(keys);
    assert ([""] + keys)[1..] == keys;
  }

  lemma StrippedClosed(keys: seq<string>)
    requires forall i | 0 <= i < |keys| :: Bare(keys[i])
    ensures Stripped([""] + Closed(keys)) == [""] + keys
  {
    forall i | 0 <= i < |keys| ensures Strip(Closed(keys)[i]) == keys[i] {
      StripBrackets(keys[i]);
    }
  }

  // ----- Printing

  /** The elements of an array, all under the same name. */
  function Repeated(prefix: string, elems: seq<Value>): seq<Pair> {
    seq(|elems|, i requires 0 <= i < |elems| => Pair(prefix, elems[i]))
  }

  lemma {:induction false} ItemsRepeated(prefix: string, obj: Value, n: nat, traditional: bool)
    requires obj.Arr? && n <= |obj.elems| && (traditional || EndsWithBrackets(prefix))
    ensures PrintedItems(prefix, obj, n, traditional) == Repeated(prefix, obj.elems[..n])
  {
    if n > 0 {
      ItemsRepeated(prefix, obj, n - 1, traditional);
      assert obj.elems[..n] == obj.elems[..n - 1] + [obj.elems[n - 1]];
    }
  }

  /** The traditional way gives each element of an array the name of the array, and an object as it
      is; and so does any way below a name that ends with empty brackets. */
  lemma TraditionalPrints(prefix: string, obj: Value)
    ensures Printed(prefix, obj, true) == if obj.Arr? then Repeated(prefix, obj.elems) else [Pair(prefix, obj)]
    ensures EndsWithBrackets(prefix) && obj.Arr? ==> Printed(prefix, obj, false) == Repeated(prefix, obj.elems)
  {
    if obj.Arr? {
      assert obj.elems[..|obj.elems|] == obj.elems;
      ItemsRepeated(prefix, obj, |obj.elems|, true);
      if EndsWithBrackets(prefix) { ItemsRepeated(prefix, obj, |obj.elems|, false); }
    }
  }

  // ----- Setting

  lemma {:induction false} FindKept(entries: seq<Entry>, e: Entry, other: string)
    requires other != e.key
    ensures Find(entries + [e], other)
         == if Find(entries, other) < |entries| then Find(entries, other) else |entries| + 1
    ensures Find(entries, e.key) < |entries| ==>
              Find(entries[Find(entries, e.key) := e], other) == Find(entries, other)
  {
    if entries != [] {
      assert (entries + [e])[1..] == entries[1..] + [e];
      if entries[0].key != e.key && Find(entries, e.key) < |entries| {
        var i := Find(entries[1..], e.key);
        assert entries[i + 1 := e][1..] == entries[1..][i := e];
      } else if entries[0].key == e.key {
        assert entries[0 := e][1..] == entries[1..];
      }
      FindKept(entries[1..], e, other);
    }
  }

  /** Setting a property leaves all others of an object as they were. */
  lemma SetKeepsOthers(o: Value, key: string, v: Value, other: string)
    requires o.Obj? && other != key && Set(o, key, v).Some?
    ensures Get(Set(o, key, v).value, other) == Get(o, other)
  {
    FindKept(o.entries, Entry(key, v), other);
  }

  /** What is found by following the keys. */
  function At(o: Value, keys: seq<string>): Value
    decreases |keys|
  {
    if keys == [] then o else At(Get(o, keys[0]), keys[1..])
  }

  /** The value below which the remaining keys are set. */
  function ChildAt(o: Value, key: string, nextKey: string, useInt: bool): Value {
    if Get(o, key).Undefined? then NewContainer(nextKey, useInt) else Get(o, key)
  }

  lemma OneKeyDeeper(o: Value, keys: seq<string>, value: Value, useInt: bool)
    requires |keys| > 1 && keys[0] != ""
    ensures DeepSet(o, keys, value, useInt) ==
      match DeepSet(ChildAt(o, keys[0], keys[1], useInt), keys[1..], value, useInt)
      case None => None
      case Some(w) => Set(o, keys[0], w)
  {
  }

  /** A value that was set under several keys is found under these keys. */
  lemma {:induction false} DeepSetThenRead(o: Value, keys: seq<string>, value: Value, useInt: bool)
    requires DeepSet(o, keys, value, useInt).Some?
    requires forall i | 0 <= i < |keys| :: keys[i] != "" && keys[i] != PROTO
    ensures At(DeepSet(o, keys, value, useInt).value, keys) == value
    decreases |keys|
  {
    if |keys| == 1 {
      ReadBack(o, keys[0], value);
      assert At(value, keys[1..]) == value;
    } else {
      OneKeyDeeper(o, keys, value, useInt);
      var child := ChildAt(o, keys[0], keys[1], useInt);
      DeepSetThenRead(child, keys[1..], value, useInt);
      ReadBack(o, keys[0], DeepSet(child, keys[1..], value, useInt).value);
    }
  }

  lemma ReadBack(o: Value, key: string, v: Value)
    requires key != "" && key != PROTO && Set(o, key, v).Some?
    ensures Get(Set(o, key, v).value, key) == v
  {
    SetIsSettable(o, key, v);
    SetThenGet(o, key, v, v);
  }

  lemma SetIsSettable(o: Value, key: string, v: Value)
    requires key != "" && key != PROTO && Set(o, key, v).Some?
    ensures Settable(o, key)
  {
  }
}
