/** Printing a tree and parsing it back. */
module NestedNamesRoundTrip {
  import opened Wrappers
  import opened NestedNames

  // ----- Which trees

  predicate PlainKey(key: string) {
    key != "" && '[' !in key && ']' !in key
  }

  ghost predicate PlainEntries(entries: seq<Entry>) {
    && entries != []
    && (forall i | 0 <= i < |entries| :: PlainKey(entries[i].key))
    && (forall i, j | 0 <= i < j < |entries| :: entries[i].key != entries[j].key)
  }

  /** String leaves, non-empty objects and arrays, distinct non-empty keys without brackets. */
  ghost predicate Plain(v: Value) {
    match v
    case Str(_) => true
    case Obj(entries) => PlainEntries(entries) && forall i | 0 <= i < |entries| :: Plain(entries[i].value)
    case Arr(elems) => elems != [] && forall i | 0 <= i < |elems| :: Plain(elems[i])
    case _ => false
  }

  /** An entry that can be set on an object that does not have it: its key is not inherited, or
      its value is a string, which then becomes the object's own (but under `__proto__` is ignored). */
  predicate Safe(e: Entry) {
    Inherited(false, e.key).Undefined? || (e.value.Str? && e.key != PROTO)
  }

  /** No entry below is lost to something inherited, and every container is recognised by its first
      key: with array indices, no object starts with a key that reads as one; and without, no
      array starts with an object or array. */
  ghost predicate Survives(v: Value, useInt: bool) {
    match v
    case Obj(entries) =>
      && (useInt && entries != [] ==> !AllDigits(entries[0].key))
      && forall i | 0 <= i < |entries| :: Safe(entries[i]) && Survives(entries[i].value, useInt)
    case Arr(elems) =>
      && (!useInt && elems != [] ==> elems[0].Str?)
      && forall i | 0 <= i < |elems| :: Survives(elems[i], useInt)
    case _ => true
  }

  // ----- Names and keys

  datatype Setting = Setting(keys: seq<string>, value: Value)

  function Prepend(key: string, settings: seq<Setting>): (r: seq<Setting>)
    ensures |r| == |settings|
    ensures forall i | 0 <= i < |r| :: r[i] == Setting([key] + settings[i].keys, settings[i].value)
  {
    seq(|settings|, i requires 0 <= i < |settings| => Setting([key] + settings[i].keys, settings[i].value))
  }

  function ItemKey(v: Value, i: nat): string {
    if v.Obj? || v.Arr? then Decimal(i) else ""
  }

  /** The keys, below `v`, under which the leaves of `v` are printed, in order. */
  function Leaves(v: Value): seq<Setting>
    decreases v, 1
  {
    if v.Obj? then LeavesOfEntries(v, |v.entries|)
    else if v.Arr? then LeavesOfItems(v, |v.elems|)
    else [Setting([], v)]
  }

  function LeavesOfEntries(v: Value, n: nat): seq<Setting>
    requires v.Obj? && n <= |v.entries|
    decreases v, 0, n
  {
    if n == 0 then []
    else LeavesOfEntries(v, n - 1) + Prepend(v.entries[n - 1].key, Leaves(v.entries[n - 1].value))
  }

  function LeavesOfItems(v: Value, n: nat): seq<Setting>
    requires v.Arr? && n <= |v.elems|
    decreases v, 0, n
  {
    if n == 0 then []
    else LeavesOfItems(v, n - 1) + Prepend(ItemKey(v.elems[n - 1], n - 1), Leaves(v.elems[n - 1]))
  }

  lemma {:induction false} SplitWhole(part: string)
    requires '[' !in part
    ensures Split(part) == [part]
  {
    if part != [] {
      SplitWhole(part[..|part| - 1]);
      assert part[..|part| - 1] + [part[|part| - 1]] == part;
    }
  }

  lemma {:induction false} SplitAppend(name: string, part: string)
    requires '[' !in part
    ensures Split(name + "[" + part) == Split(name) + [part]
  {
    var all := name + "[" + part;
    if part == [] {
      assert all[..|all| - 1] == name;
    } else {
      var rest := part[..|part| - 1];
      SplitAppend(name, rest);
      assert all[..|all| - 1] == name + "[" + rest;
      assert rest + [part[|part| - 1]] == part;
    }
  }

  predicate Bare(key: string) {
    '[' !in key && ']' !in key
  }

  lemma StripBrackets(key: string)
    requires Bare(key)
    ensures Strip(key + "]") == key && Strip(key) == key
  {
    assert (key + "]")[..|key|] == key;
  }

  lemma SplitBracketed(prefix: string, key: string)
    requires Bare(key) && Strip(Split(prefix)[0]) != ""
    ensures SplitInputNameIntoKeysArray(Bracketed(prefix, key)) == SplitInputNameIntoKeysArray(prefix) + [key]
    ensures Strip(Split(Bracketed(prefix, key))[0]) != ""
  {
    assert Bracketed(prefix, key) == prefix + "[" + (key + "]");
    SplitAppend(prefix, key + "]");
    StripBrackets(key);
    StrippedAppend(Split(prefix), key + "]");
  }

  lemma StrippedAppend(parts: seq<string>, part: string)
    requires parts != []
    ensures Stripped(parts + [part]) == Stripped(parts) + [Strip(part)]
  {
  }

  lemma SplitRoot(key: string)
    requires PlainKey(key)
    ensures SplitInputNameIntoKeysArray(key) == [key] && Strip(Split(key)[0]) != ""
    ensures !EndsWithBrackets(key)
  {
    SplitWhole(key);
    StripBrackets(key);
  }

  lemma DecimalIsBare(n: nat)
    ensures Bare(Decimal(n)) && AllDigits(Decimal(n)) && PlainKey(Decimal(n))
  {
  }

  lemma NotBrackets(prefix: string, key: string)
    requires key != ""
    ensures !EndsWithBrackets(Bracketed(prefix, key)) || key[|key| - 1] == '['
  {
  }

  ghost predicate Named(pair: Pair, keys: seq<string>, setting: Setting) {
    SplitInputNameIntoKeysArray(pair.name) == keys + setting.keys && pair.value == setting.value
  }

  /** Printed pairs are the leaves: each name splits into the prefix's keys and the leaf's keys. */
  ghost predicate Names(pairs: seq<Pair>, keys: seq<string>, settings: seq<Setting>) {
    |pairs| == |settings| &&
    forall i {:trigger Named(pairs[i], keys, settings[i])} | 0 <= i < |pairs| :: Named(pairs[i], keys, settings[i])
  }

  lemma NamesConcat(p: seq<Pair>, q: seq<Pair>, keys: seq<string>, a: seq<Setting>, b: seq<Setting>)
    requires Names(p, keys, a) && Names(q, keys, b)
    ensures Names(p + q, keys, a + b)
  {
    forall i | 0 <= i < |p + q| ensures Named((p + q)[i], keys, (a + b)[i]) {
      if i < |p| { assert Named(p[i], keys, a[i]); } else { assert Named(q[i - |p|], keys, b[i - |p|]); }
    }
  }

  lemma NamesPrepend(p: seq<Pair>, keys: seq<string>, key: string, a: seq<Setting>)
    requires Names(p, keys + [key], a)
    ensures Names(p, keys, Prepend(key, a))
  {
    forall i | 0 <= i < |p| ensures Named(p[i], keys, Prepend(key, a)[i]) {
      assert Named(p[i], keys + [key], a[i]);
      assert keys + [key] + a[i].keys == keys + ([key] + a[i].keys);
    }
  }

  /** `prefix` with brackets around each of the keys. */
  function Under(prefix: string, keys: seq<string>): string
    decreases |keys|
  {
    if keys == [] then prefix else Under(Bracketed(prefix, keys[0]), keys[1..])
  }

  function Paired(prefix: string, settings: seq<Setting>): (pairs: seq<Pair>)
    ensures |pairs| == |settings|
    ensures forall i {:trigger pairs[i]} | 0 <= i < |pairs| ::
              pairs[i] == Pair(Under(prefix, settings[i].keys), settings[i].value)
  {
    seq(|settings|, i requires 0 <= i < |settings| => Pair(Under(prefix, settings[i].keys), settings[i].value))
  }

  lemma PairedConcat(prefix: string, a: seq<Setting>, b: seq<Setting>)
    ensures Paired(prefix, a + b) == Paired(prefix, a) + Paired(prefix, b)
  {
  }

  lemma PairedPrepend(prefix: string, key: string, settings: seq<Setting>)
    ensures Paired(prefix, Prepend(key, settings)) == Paired(Bracketed(prefix, key), settings)
  {
    forall i | 0 <= i < |settings|
      ensures Under(prefix, Prepend(key, settings)[i].keys) == Under(Bracketed(prefix, key), settings[i].keys)
    {
      assert ([key] + settings[i].keys)[1..] == settings[i].keys;
    }
  }

  /** What is printed are the leaves, each with the brackets of its keys. */
  lemma {:induction false} PrintedPaired(prefix: string, v: Value)
    requires Plain(v) && (!EndsWithBrackets(prefix) || v.Str?)
    ensures Printed(prefix, v, false) == Paired(prefix, Leaves(v))
    decreases v, 1
  {
    if v.Arr? {
      PrintedItemsPaired(prefix, v, |v.elems|);
    } else if v.Obj? {
      PrintedEntriesPaired(prefix, v, |v.entries|);
    }
  }

  lemma {:induction false} PrintedItemsPaired(prefix: string, v: Value, n: nat)
    requires Plain(v) && v.Arr? && n <= |v.elems| && !EndsWithBrackets(prefix)
    ensures PrintedItems(prefix, v, n, false) == Paired(prefix, LeavesOfItems(v, n))
    decreases v, 0, n
  {
    if n > 0 {
      var item := v.elems[n - 1];
      var key := ItemKey(item, n - 1);
      PrintedItemsPaired(prefix, v, n - 1);
      if !item.Str? { NotBrackets(prefix, key); }
      PrintedPaired(Bracketed(prefix, key), item);
      PairedPrepend(prefix, key, Leaves(item));
      PairedConcat(prefix, LeavesOfItems(v, n - 1), Prepend(key, Leaves(item)));
    }
  }

  lemma {:induction false} PrintedEntriesPaired(prefix: string, v: Value, n: nat)
    requires Plain(v) && v.Obj? && n <= |v.entries|
    ensures PrintedEntries(prefix, v, n) == Paired(prefix, LeavesOfEntries(v, n))
    decreases v, 0, n
  {
    if n > 0 {
      var e := v.entries[n - 1];
      PrintedEntriesPaired(prefix, v, n - 1);
      NotBrackets(prefix, e.key);
      PrintedPaired(Bracketed(prefix, e.key), e.value);
      PairedPrepend(prefix, e.key, Leaves(e.value));
      PairedConcat(prefix, LeavesOfEntries(v, n - 1), Prepend(e.key, Leaves(e.value)));
    }
  }

  predicate AllBare(settings: seq<Setting>) {
    forall i, k | 0 <= i < |settings| && 0 <= k < |settings[i].keys| :: Bare(settings[i].keys[k])
  }

  lemma {:induction false} LeavesAreBare(v: Value)
    requires Plain(v)
    ensures AllBare(Leaves(v))
    decreases v, 1
  {
    if v.Arr? {
      ItemLeavesAreBare(v, |v.elems|);
    } else if v.Obj? {
      EntryLeavesAreBare(v, |v.entries|);
    }
  }

  lemma {:induction false} ItemLeavesAreBare(v: Value, n: nat)
    requires Plain(v) && v.Arr? && n <= |v.elems|
    ensures AllBare(LeavesOfItems(v, n))
    decreases v, 0, n
  {
    if n > 0 {
      ItemLeavesAreBare(v, n - 1);
      LeavesAreBare(v.elems[n - 1]);
      DecimalIsBare(n - 1);
    }
  }

  lemma {:induction false} EntryLeavesAreBare(v: Value, n: nat)
    requires Plain(v) && v.Obj? && n <= |v.entries|
    ensures AllBare(LeavesOfEntries(v, n))
    decreases v, 0, n
  {
    if n > 0 {
      EntryLeavesAreBare(v, n - 1);
      LeavesAreBare(v.entries[n - 1].value);
    }
  }

  /** Splitting finds all keys again. */
  lemma {:induction false} SplitUnder(prefix: string, keys: seq<string>)
    requires Strip(Split(prefix)[0]) != "" && forall k | 0 <= k < |keys| :: Bare(keys[k])
    ensures SplitInputNameIntoKeysArray(Under(prefix, keys)) == SplitInputNameIntoKeysArray(prefix) + keys
    decreases |keys|
  {
    if keys != [] {
      SplitBracketed(prefix, keys[0]);
      SplitUnder(Bracketed(prefix, keys[0]), keys[1..]);
      FirstKeyFirst(SplitInputNameIntoKeysArray(prefix), keys);
    }
  }

  lemma FirstKeyFirst(before: seq<string>, keys: seq<string>)
    requires keys != []
    ensures before + [keys[0]] + keys[1..] == before + keys
  {
  }

  /** The printed names, split again, are the key paths of the leaves. */
  lemma PrintedNames(prefix: string, v: Value)
    requires Plain(v) && Strip(Split(prefix)[0]) != "" && (!EndsWithBrackets(prefix) || v.Str?)
    ensures Names(Printed(prefix, v, false), SplitInputNameIntoKeysArray(prefix), Leaves(v))
  {
    PrintedPaired(prefix, v);
    LeavesAreBare(v);
    PairedNames(prefix, Leaves(v));
  }

  lemma PairedNames(prefix: string, settings: seq<Setting>)
    requires Strip(Split(prefix)[0]) != "" && AllBare(settings)
    ensures Names(Paired(prefix, settings), SplitInputNameIntoKeysArray(prefix), settings)
  {
    forall i | 0 <= i < |settings|
      ensures Named(Paired(prefix, settings)[i], SplitInputNameIntoKeysArray(prefix), settings[i])
    {
      SplitUnder(prefix, settings[i].keys);
    }
  }

  lemma RootNames(e: Entry)
    requires PlainKey(e.key) && Plain(e.value)
    ensures Names(Printed(e.key, e.value, false), [], Prepend(e.key, Leaves(e.value)))
  {
    SplitRoot(e.key);
    PrintedNames(e.key, e.value);
    assert [] + [e.key] == [e.key];
    NamesPrepend(Printed(e.key, e.value, false), [], e.key, Leaves(e.value));
  }

  lemma {:induction false} ParamsNames(entries: seq<Entry>)
    requires forall i | 0 <= i < |entries| :: PlainKey(entries[i].key) && Plain(entries[i].value)
    ensures Names(Params(entries, false), [], LeavesOfEntries(Obj(entries), |entries|))
  {
    if entries != [] {
      var n := |entries| - 1;
      var rest, e := entries[..n], entries[n];
      ParamsNames(rest);
      RootNames(e);
      LeavesOfPrefix(Obj(rest), Obj(entries), n);
      NamesConcat(Params(rest, false), Printed(e.key, e.value, false), [],
                  LeavesOfEntries(Obj(entries), n), Prepend(e.key, Leaves(e.value)));
    }
  }

  lemma {:induction false} LeavesOfPrefix(a: Value, b: Value, n: nat)
    requires a.Obj? && b.Obj? && n <= |a.entries| && a.entries <= b.entries
    ensures LeavesOfEntries(a, n) == LeavesOfEntries(b, n)
    decreases n
  {
    if n > 0 { LeavesOfPrefix(a, b, n - 1); }
  }

  // ----- Setting values under keys

  /** All settings made in order. */
  function SetAll(o: Value, settings: seq<Setting>, useInt: bool): Option<Value> {
    if settings == [] then Some(o)
    else
      var last := settings[|settings| - 1];
      match SetAll(o, settings[..|settings| - 1], useInt)
      case None => None
      case Some(o1) => DeepSet(o1, last.keys, last.value, useInt)
  }

  lemma {:induction false} RebuiltByKeys(o: Value, pairs: seq<Pair>, settings: seq<Setting>, useInt: bool)
    requires Names(pairs, [], settings)
    ensures Rebuilt(o, pairs, useInt) == SetAll(o, settings, useInt)
  {
    if pairs != [] {
      var n := |pairs| - 1;
      RebuiltByKeys(o, pairs[..n], settings[..n], useInt);
      assert Named(pairs[n], [], settings[n]);
      assert [] + settings[n].keys == settings[n].keys;
    }
  }

  lemma {:induction false} SetAllConcat(o: Value, a: seq<Setting>, b: seq<Setting>, useInt: bool)
    ensures SetAll(o, a + b, useInt) ==
      match SetAll(o, a, useInt) case None => None case Some(o1) => SetAll(o1, b, useInt)
  {
    if b == [] {
      assert a + b == a;
    } else {
      assert (a + b)[..|a + b| - 1] == a + b[..|b| - 1];
      SetAllConcat(o, a, b[..|b| - 1], useInt);
    }
  }

  predicate SameKind(a: Value, b: Value) {
    (a.Obj? && b.Obj?) || (a.Arr? && b.Arr?)
  }

  lemma DeepSetKind(o: Value, keys: seq<string>, value: Value, useInt: bool)
    ensures DeepSet(o, keys, value, useInt).Some? ==> SameKind(o, DeepSet(o, keys, value, useInt).value)
  {
  }

  lemma {:induction false} SetAllKind(o: Value, settings: seq<Setting>, useInt: bool)
    requires o.Obj? || o.Arr?
    ensures SetAll(o, settings, useInt).Some? ==> SameKind(o, SetAll(o, settings, useInt).value)
  {
    if settings != [] {
      var n := |settings| - 1;
      SetAllKind(o, settings[..n], useInt);
      if SetAll(o, settings[..n], useInt).Some? {
        DeepSetKind(SetAll(o, settings[..n], useInt).value, settings[n].keys, settings[n].value, useInt);
      }
    }
  }

  /** A key under which values can be set on `o`. */
  predicate Settable(o: Value, key: string) {
    key != "" &&
    ((o.Obj? && (key != PROTO || Find(o.entries, key) < |o.entries|)) || (o.Arr? && IndexOf(key).Some?))
  }

  lemma StoreTwice(elems: seq<Value>, i: nat, v: Value, w: Value)
    ensures |Store(elems, i, v)| == (if i < |elems| then |elems| else i + 1) && Store(elems, i, v)[i] == v
    ensures Store(Store(elems, i, v), i, w) == Store(elems, i, w)
    decreases i
  {
    if i > |elems| { StoreTwice(elems, i - 1, Undefined, Undefined); }
  }

  lemma {:induction false} FindAppended(entries: seq<Entry>, e: Entry)
    requires Find(entries, e.key) == |entries|
    ensures Find(entries + [e], e.key) == |entries|
  {
    if entries != [] {
      assert (entries + [e])[1..] == entries[1..] + [e];
      FindAppended(entries[1..], e);
    }
  }

  lemma {:induction false} FindUpdated(entries: seq<Entry>, e: Entry)
    requires Find(entries, e.key) < |entries|
    ensures Find(entries[Find(entries, e.key) := e], e.key) == Find(entries, e.key)
  {
    if entries[0].key != e.key {
      var i := Find(entries[1..], e.key);
      assert entries[i + 1 := e][1..] == entries[1..][i := e];
      FindUpdated(entries[1..], e);
    }
  }

  /** A value that was set can be read, and is replaced by the next value set. */
  lemma SetThenGet(o: Value, key: string, v: Value, w: Value)
    requires Settable(o, key)
    ensures Set(o, key, v).Some?
    ensures var o1 := Set(o, key, v).value;
      Settable(o1, key) && Get(o1, key) == v && Set(o1, key, w) == Set(o, key, w)
  {
    if o.Arr? {
      StoreTwice(o.elems, IndexOf(key).value, v, w);
    } else {
      var i := Find(o.entries, key);
      if i < |o.entries| {
        FindUpdated(o.entries, Entry(key, v));
        assert o.entries[i := Entry(key, v)][i := Entry(key, w)] == o.entries[i := Entry(key, w)];
      } else {
        FindAppended(o.entries, Entry(key, v));
        assert (o.entries + [Entry(key, v)])[i := Entry(key, w)] == o.entries + [Entry(key, w)];
      }
    }
  }

  ghost predicate Deep(settings: seq<Setting>) {
    settings != [] && forall i | 0 <= i < |settings| :: settings[i].keys != []
  }

  /** Settings that all go below one new key first build their value on their own. */
  lemma {:induction false} SetBelow(o: Value, key: string, settings: seq<Setting>, useInt: bool)
    requires Settable(o, key) && Get(o, key).Undefined? && Deep(settings)
    ensures SetAll(o, Prepend(key, settings), useInt) ==
      match SetAll(NewContainer(settings[0].keys[0], useInt), settings, useInt)
      case None => None
      case Some(c) => Set(o, key, c)
  {
    var n := |settings| - 1;
    var first, last := NewContainer(settings[0].keys[0], useInt), settings[n];
    var before := settings[..n];
    assert Prepend(key, settings)[..n] == Prepend(key, before);
    assert Prepend(key, settings)[n] == Setting([key] + last.keys, last.value);
    assert ([key] + last.keys)[1..] == last.keys;
    if n == 0 {
      assert SetAll(o, Prepend(key, before), useInt) == Some(o);
    } else {
      SetBelow(o, key, before, useInt);
      SetAllKind(first, before, useInt);
      if SetAll(first, before, useInt).Some? {
        var c := SetAll(first, before, useInt).value;
        var next := DeepSet(c, last.keys, last.value, useInt);
        SetThenGet(o, key, c, if next.Some? then next.value else c);
      }
    }
  }

  // ----- Rebuilding a tree

  function FirstKey(v: Value): string
    requires (v.Obj? && v.entries != []) || (v.Arr? && v.elems != [])
  {
    if v.Obj? then v.entries[0].key else ItemKey(v.elems[0], 0)
  }

  lemma {:induction false} LeavesAreDeep(v: Value)
    requires Plain(v) && !v.Str?
    ensures Deep(Leaves(v)) && Leaves(v)[0].keys[0] == FirstKey(v)
    decreases v, 1
  {
    if v.Obj? { EntryLeavesAreDeep(v, |v.entries|); } else { ItemLeavesAreDeep(v, |v.elems|); }
  }

  lemma {:induction false} EntryLeavesAreDeep(v: Value, n: nat)
    requires Plain(v) && v.Obj? && 0 < n <= |v.entries|
    ensures Deep(LeavesOfEntries(v, n)) && LeavesOfEntries(v, n)[0].keys[0] == v.entries[0].key
    decreases v, 0, n
  {
    var child := v.entries[n - 1].value;
    if !child.Str? { LeavesAreDeep(child); }
    if n > 1 { EntryLeavesAreDeep(v, n - 1); }
  }

  lemma {:induction false} ItemLeavesAreDeep(v: Value, n: nat)
    requires Plain(v) && v.Arr? && 0 < n <= |v.elems|
    ensures Deep(LeavesOfItems(v, n)) && LeavesOfItems(v, n)[0].keys[0] == ItemKey(v.elems[0], 0)
    decreases v, 0, n
  {
    var child := v.elems[n - 1];
    if !child.Str? { LeavesAreDeep(child); }
    if n > 1 { ItemLeavesAreDeep(v, n - 1); }
  }

  /** What the leaves of `v` build in the container that their first key creates. */
  function Rebuild(v: Value, useInt: bool): Option<Value> {
    if v.Obj? || v.Arr? then
      var leaves := Leaves(v);
      if leaves == [] || leaves[0].keys == [] then None
      else SetAll(NewContainer(leaves[0].keys[0], useInt), leaves, useInt)
    else Some(v)
  }

  /** Setting the leaves of one child under its key. */
  lemma ChildSet(o: Value, key: string, v: Value, useInt: bool)
    requires Plain(v) && !v.Str? && Settable(o, key) && Get(o, key).Undefined?
    ensures SetAll(o, Prepend(key, Leaves(v)), useInt) ==
      match Rebuild(v, useInt) case None => None case Some(c) => Set(o, key, c)
  {
    LeavesAreDeep(v);
    SetBelow(o, key, Leaves(v), useInt);
  }

  lemma StringSet(o: Value, key: string, v: Value, useInt: bool)
    requires v.Str? && key != ""
    ensures SetAll(o, Prepend(key, Leaves(v)), useInt) == Set(o, key, v)
  {
    var one := Prepend(key, Leaves(v));
    assert one[0].keys == [key];
    assert SetAll(o, one[..0], useInt) == Some(o);
  }

  /** Nothing can be set below something inherited. */
  lemma {:induction false} ChildLost(o: Value, key: string, settings: seq<Setting>, useInt: bool)
    requires o.Obj? && Get(o, key).Builtin? && Deep(settings)
    ensures SetAll(o, Prepend(key, settings), useInt).None?
  {
    var n := |settings| - 1;
    var before := settings[..n];
    assert Prepend(key, settings)[..n] == Prepend(key, before);
    if n == 0 {
      BelowBuiltin(o, key, settings[0].keys, settings[0].value, useInt);
      assert SetAll(o, Prepend(key, before), useInt) == Some(o);
    } else {
      ChildLost(o, key, before, useInt);
    }
  }

  lemma BelowBuiltin(o: Value, key: string, keys: seq<string>, value: Value, useInt: bool)
    requires o.Obj? && Get(o, key).Builtin? && keys != []
    ensures DeepSet(o, [key] + keys, value, useInt).None?
  {
    assert ([key] + keys)[1..] == keys;
    NothingInBuiltin(keys, value, useInt);
  }

  lemma NothingInBuiltin(keys: seq<string>, value: Value, useInt: bool)
    ensures DeepSet(Builtin, keys, value, useInt).None?
  {
  }

  /** The entries of an object with one more entry set. */
  function Added(got: seq<Entry>, e: Entry, useInt: bool): Option<seq<Entry>> {
    if Inherited(false, e.key).Builtin? && !e.value.Str? then None
    else if e.key == PROTO then Some(got)
    else match Rebuild(e.value, useInt) case None => None case Some(c) => Some(got + [Entry(e.key, c)])
  }

  /** What the leaves of the first `n` entries build. */
  function RebuiltEntries(entries: seq<Entry>, n: nat, useInt: bool): Option<seq<Entry>>
    requires n <= |entries|
  {
    if n == 0 then Some([])
    else
      match RebuiltEntries(entries, n - 1, useInt)
      case None => None
      case Some(got) => Added(got, entries[n - 1], useInt)
  }

  function AddedItem(got: seq<Value>, item: Value, useInt: bool): Option<seq<Value>> {
    match Rebuild(item, useInt) case None => None case Some(c) => Some(got + [c])
  }

  function RebuiltItems(elems: seq<Value>, n: nat, useInt: bool): Option<seq<Value>>
    requires n <= |elems|
  {
    if n == 0 then Some([])
    else
      match RebuiltItems(elems, n - 1, useInt)
      case None => None
      case Some(got) => AddedItem(got, elems[n - 1], useInt)
  }

  function AsObj(entries: Option<seq<Entry>>): Option<Value> {
    match entries case None => None case Some(es) => Some(Obj(es))
  }

  function AsArr(elems: Option<seq<Value>>): Option<Value> {
    match elems case None => None case Some(es) => Some(Arr(es))
  }

  lemma {:induction false} FindFresh(entries: seq<Entry>, key: string)
    requires forall i | 0 <= i < |entries| :: entries[i].key != key
    ensures Find(entries, key) == |entries|
  {
    if entries != [] { FindFresh(entries[1..], key); }
  }

  /** Setting the leaves of an entry with a new key. */
  lemma EntrySet(got: seq<Entry>, e: Entry, useInt: bool)
    requires Plain(e.value) && e.key != "" && forall i | 0 <= i < |got| :: got[i].key != e.key
    ensures SetAll(Obj(got), Prepend(e.key, Leaves(e.value)), useInt) == AsObj(Added(got, e, useInt))
  {
    FindFresh(got, e.key);
    ProtoIsInherited();
    if e.value.Str? {
      StringSet(Obj(got), e.key, e.value, useInt);
    } else if Inherited(false, e.key).Builtin? {
      LeavesAreDeep(e.value);
      ChildLost(Obj(got), e.key, Leaves(e.value), useInt);
    } else {
      ChildSet(Obj(got), e.key, e.value, useInt);
    }
  }

  lemma ProtoIsInherited()
    ensures Inherited(false, PROTO).Builtin?
  {
    assert OBJECT_NAMES[0] == PROTO;
  }

  /** Setting the leaves of an item that comes next in its array appends what they build. */
  lemma ItemSet(got: seq<Value>, item: Value, useInt: bool)
    requires Plain(item)
    ensures SetAll(Arr(got), Prepend(ItemKey(item, |got|), Leaves(item)), useInt) == AsArr(AddedItem(got, item, useInt))
  {
    var key := ItemKey(item, |got|);
    if item.Str? {
      var one := Prepend(key, Leaves(item));
      assert one[0].keys == [""];
      assert SetAll(Arr(got), one[..0], useInt) == Some(Arr(got));
    } else {
      DecimalValue(|got|);
      DecimalIsBare(|got|);
      ChildSet(Arr(got), key, item, useInt);
    }
  }

  lemma {:induction false} RebuiltKeys(entries: seq<Entry>, n: nat, useInt: bool)
    requires PlainEntries(entries) && n < |entries|
    ensures var r := RebuiltEntries(entries, n, useInt);
      r.Some? ==> forall i, j | 0 <= i < |r.value| && n <= j < |entries| :: r.value[i].key != entries[j].key
    decreases n
  {
    if n > 0 { RebuiltKeys(entries, n - 1, useInt); }
  }

  lemma {:induction false} ItemCount(elems: seq<Value>, n: nat, useInt: bool)
    requires n <= |elems|
    ensures var r := RebuiltItems(elems, n, useInt); r.Some? ==> |r.value| == n
  {
    if n > 0 { ItemCount(elems, n - 1, useInt); }
  }

  lemma NextEntrySet(entries: seq<Entry>, n: nat, got: seq<Entry>, useInt: bool)
    requires PlainEntries(entries) && 0 < n <= |entries| && Plain(entries[n - 1].value)
    requires RebuiltEntries(entries, n - 1, useInt) == Some(got)
    ensures SetAll(Obj(got), Prepend(entries[n - 1].key, Leaves(entries[n - 1].value)), useInt)
         == AsObj(RebuiltEntries(entries, n, useInt))
  {
    RebuiltKeys(entries, n - 1, useInt);
    EntrySet(got, entries[n - 1], useInt);
  }

  lemma NextItemSet(elems: seq<Value>, n: nat, got: seq<Value>, useInt: bool)
    requires 0 < n <= |elems| && Plain(elems[n - 1]) && RebuiltItems(elems, n - 1, useInt) == Some(got)
    ensures SetAll(Arr(got), Prepend(ItemKey(elems[n - 1], n - 1), Leaves(elems[n - 1])), useInt)
         == AsArr(RebuiltItems(elems, n, useInt))
  {
    ItemCount(elems, n - 1, useInt);
    ItemSet(got, elems[n - 1], useInt);
  }

  lemma EntriesSetNext(v: Value, n: nat, before: Option<seq<Entry>>, useInt: bool)
    requires Plain(v) && v.Obj? && 0 < n <= |v.entries| && before == RebuiltEntries(v.entries, n - 1, useInt)
    requires SetAll(Obj([]), LeavesOfEntries(v, n - 1), useInt) == AsObj(before)
    ensures SetAll(Obj([]), LeavesOfEntries(v, n), useInt) == AsObj(RebuiltEntries(v.entries, n, useInt))
  {
    var e := v.entries[n - 1];
    SetAllConcat(Obj([]), LeavesOfEntries(v, n - 1), Prepend(e.key, Leaves(e.value)), useInt);
    if before.Some? { NextEntrySet(v.entries, n, before.value, useInt); }
  }

  lemma ItemsSetNext(v: Value, n: nat, before: Option<seq<Value>>, useInt: bool)
    requires Plain(v) && v.Arr? && 0 < n <= |v.elems| && before == RebuiltItems(v.elems, n - 1, useInt)
    requires SetAll(Arr([]), LeavesOfItems(v, n - 1), useInt) == AsArr(before)
    ensures SetAll(Arr([]), LeavesOfItems(v, n), useInt) == AsArr(RebuiltItems(v.elems, n, useInt))
  {
    var item := v.elems[n - 1];
    SetAllConcat(Arr([]), LeavesOfItems(v, n - 1), Prepend(ItemKey(item, n - 1), Leaves(item)), useInt);
    if before.Some? { NextItemSet(v.elems, n, before.value, useInt); }
  }

  /** Setting the leaves of the first entries of an object builds what each of them builds, in order;
      an entry goes missing if its key is `__proto__`, and all fails with one that goes on below
      something inherited. */
  lemma {:induction false} EntriesSet(v: Value, n: nat, useInt: bool)
    requires Plain(v) && v.Obj? && n <= |v.entries|
    ensures SetAll(Obj([]), LeavesOfEntries(v, n), useInt) == AsObj(RebuiltEntries(v.entries, n, useInt))
    decreases n
  {
    if n == 0 {
      assert LeavesOfEntries(v, n) == [];
    } else {
      EntriesSet(v, n - 1, useInt);
      EntriesSetNext(v, n, RebuiltEntries(v.entries, n - 1, useInt), useInt);
    }
  }

  lemma {:induction false} ItemsSet(v: Value, n: nat, useInt: bool)
    requires Plain(v) && v.Arr? && n <= |v.elems|
    ensures SetAll(Arr([]), LeavesOfItems(v, n), useInt) == AsArr(RebuiltItems(v.elems, n, useInt))
    decreases n
  {
    if n > 0 {
      ItemsSet(v, n - 1, useInt);
      ItemsSetNext(v, n, RebuiltItems(v.elems, n - 1, useInt), useInt);
    }
  }

  /** An entry that comes back as itself. */
  predicate Kept(e: Entry, useInt: bool) {
    Safe(e) && Rebuild(e.value, useInt) == Some(e.value)
  }

  lemma AddedIff(got: seq<Entry>, e: Entry, useInt: bool)
    ensures Added(got, e, useInt) == Some(got + [e]) <==> Kept(e, useInt)
    ensures Added(got, e, useInt).Some? ==>
      var r := Added(got, e, useInt).value; r == got || (|r| == |got| + 1 && r[..|got|] == got)
  {
    ProtoIsInherited();
    if Added(got, e, useInt).Some? && e.key != PROTO {
      assert (got + [e])[|got|] == e;
      assert Added(got, e, useInt).value[|got|] == Entry(e.key, Rebuild(e.value, useInt).value);
    }
  }

  lemma {:induction false} AllKeptIff(entries: seq<Entry>, n: nat, useInt: bool)
    requires n <= |entries|
    ensures var r := RebuiltEntries(entries, n, useInt);
      && (r.Some? ==> |r.value| <= n)
      && (r == Some(entries[..n]) <==> forall i | 0 <= i < n :: Kept(entries[i], useInt))
    decreases n
  {
    if n > 0 {
      var before, e := RebuiltEntries(entries, n - 1, useInt), entries[n - 1];
      AllKeptIff(entries, n - 1, useInt);
      if before.Some? {
        AddedIff(before.value, e, useInt);
        assert entries[..n] == entries[..n - 1] + [e];
        assert entries[..n][..n - 1] == entries[..n - 1];
      }
    }
  }

  lemma {:induction false} AllItemsKeptIff(elems: seq<Value>, n: nat, useInt: bool)
    requires n <= |elems|
    ensures RebuiltItems(elems, n, useInt) == Some(elems[..n])
       <==> forall i | 0 <= i < n :: Rebuild(elems[i], useInt) == Some(elems[i])
    decreases n
  {
    if n > 0 {
      var before := RebuiltItems(elems, n - 1, useInt);
      AllItemsKeptIff(elems, n - 1, useInt);
      ItemCount(elems, n - 1, useInt);
      if before.Some? && Rebuild(elems[n - 1], useInt).Some? {
        LastItemIff(elems, n, before.value, Rebuild(elems[n - 1], useInt).value);
      }
    }
  }

  lemma LastItemIff(elems: seq<Value>, n: nat, got: seq<Value>, item: Value)
    requires 0 < n <= |elems| && |got| == n - 1
    ensures got + [item] == elems[..n] <==> got == elems[..n - 1] && item == elems[n - 1]
  {
    assert (got + [item])[..n - 1] == got && (got + [item])[n - 1] == item;
    assert elems[..n][..n - 1] == elems[..n - 1];
    assert elems[..n] == elems[..n - 1] + [elems[n - 1]];
  }

  lemma ObjRebuiltIff(v: Value, useInt: bool)
    requires Plain(v) && v.Obj?
    ensures Rebuild(v, useInt) == Some(v)
       <==> !(useInt && AllDigits(v.entries[0].key)) && forall i | 0 <= i < |v.entries| :: Kept(v.entries[i], useInt)
  {
    LeavesAreDeep(v);
    if useInt && AllDigits(v.entries[0].key) {
      SetAllKind(Arr([]), Leaves(v), useInt);
    } else {
      EntriesSet(v, |v.entries|, useInt);
      AllKeptIff(v.entries, |v.entries|, useInt);
      assert v.entries[..|v.entries|] == v.entries;
    }
  }

  lemma ArrRebuiltIff(v: Value, useInt: bool)
    requires Plain(v) && v.Arr?
    ensures Rebuild(v, useInt) == Some(v) <==>
      && (!useInt ==> v.elems[0].Str?)
      && forall i | 0 <= i < |v.elems| :: Rebuild(v.elems[i], useInt) == Some(v.elems[i])
  {
    LeavesAreDeep(v);
    DecimalIsBare(0);
    if !useInt && !v.elems[0].Str? {
      SetAllKind(Obj([]), Leaves(v), useInt);
    } else {
      ItemsSet(v, |v.elems|, useInt);
      AllItemsKeptIff(v.elems, |v.elems|, useInt);
      assert v.elems[..|v.elems|] == v.elems;
    }
  }

  /** A tree is rebuilt as itself exactly when it survives. */
  lemma {:induction false} RebuildIff(v: Value, useInt: bool)
    requires Plain(v)
    ensures Rebuild(v, useInt) == Some(v) <==> Survives(v, useInt)
    decreases v
  {
    if v.Obj? {
      ObjRebuiltIff(v, useInt);
      forall i | 0 <= i < |v.entries|
        ensures Kept(v.entries[i], useInt) <==> Safe(v.entries[i]) && Survives(v.entries[i].value, useInt)
      {
        RebuildIff(v.entries[i].value, useInt);
      }
    } else if v.Arr? {
      ArrRebuiltIff(v, useInt);
      forall i | 0 <= i < |v.elems|
        ensures Rebuild(v.elems[i], useInt) == Some(v.elems[i]) <==> Survives(v.elems[i], useInt)
      {
        RebuildIff(v.elems[i], useInt);
      }
    }
  }

  /** Printing an object and parsing the printed pairs in order gives the object back if and only
      if no entry meets something inherited and every container below the root is recognised by
      its first key. */
  lemma PrintParseRoundTrip(entries: seq<Entry>, useInt: bool)
    requires PlainEntries(entries) && forall i | 0 <= i < |entries| :: Plain(entries[i].value)
    ensures Rebuilt(Obj([]), Params(entries, false), useInt) == Some(Obj(entries))
       <==> forall i | 0 <= i < |entries| :: Safe(entries[i]) && Survives(entries[i].value, useInt)
  {
    var v := Obj(entries);
    ParamsNames(entries);
    RebuiltByKeys(Obj([]), Params(entries, false), LeavesOfEntries(v, |entries|), useInt);
    EntriesSet(v, |entries|, useInt);
    AllKeptIff(entries, |entries|, useInt);
    assert entries[..|entries|] == entries;
    forall i | 0 <= i < |entries|
      ensures Kept(entries[i], useInt) <==> Safe(entries[i]) && Survives(entries[i].value, useInt)
    {
      RebuildIff(entries[i].value, useInt);
    }
  }

  // ----- Trees that do not come back

  /** The entry's key is found on `Object.prototype`, whatever the options. */
  lemma ConstructorIsLost(useInt: bool)
    ensures var entries := [Entry("constructor", Obj([Entry("b", Str("x"))]))];
      Rebuilt(Obj([]), Params(entries, false), useInt) != Some(Obj(entries))
  {
    var entries := [Entry("constructor", Obj([Entry("b", Str("x"))]))];
    PrintParseRoundTrip(entries, useInt);
    ConstructorIsInherited();
    assert !Safe(entries[0]);
  }

  lemma ConstructorIsInherited()
    ensures Inherited(false, "constructor").Builtin?
  {
    assert OBJECT_NAMES[1..][0] == "constructor";
    assert Among(OBJECT_NAMES[1..], "constructor");
  }

  /** A string under `__proto__` is ignored. */
  lemma ProtoIsLost(useInt: bool)
    ensures var entries := [Entry(PROTO, Str("x"))];
      Rebuilt(Obj([]), Params(entries, false), useInt) != Some(Obj(entries))
  {
    var entries := [Entry(PROTO, Str("x"))];
    PrintParseRoundTrip(entries, useInt);
    ProtoIsInherited();
    assert !Safe(entries[0]);
  }

  /** With array indices, an object that starts with digits is taken for an array. */
  lemma DigitsFirstIsLost()
    ensures var entries := [Entry("a", Obj([Entry("0", Str("x"))]))];
      Rebuilt(Obj([]), Params(entries, false), true) != Some(Obj(entries))
  {
    var entries := [Entry("a", Obj([Entry("0", Str("x"))]))];
    PrintParseRoundTrip(entries, true);
    assert !Survives(entries[0].value, true);
  }

  /** Without array indices, an array that starts with an object is taken for an object. */
  lemma ArrayOfObjectsIsLost()
    ensures var entries := [Entry("a", Arr([Obj([Entry("b", Str("x"))])]))];
      Rebuilt(Obj([]), Params(entries, false), false) != Some(Obj(entries))
  {
    var entries := [Entry("a", Arr([Obj([Entry("b", Str("x"))])]))];
    PrintParseRoundTrip(entries, false);
    assert !Survives(entries[0].value, false);
  }
}
