/** `deepSet` as it works: on objects and arrays that are updated in place. */
module DeepSetInPlace {
  import opened Wrappers
  import opened NestedNames
  import opened NestedNamesRoundTrip

  /** What a property holds: a string, another object or array, or nothing. */
  datatype Ref = Text(s: string) | Child(node: Node) | Nothing

  /** An object with its properties in order, or an array. */
  class Node {
    const arr: bool
    var keys: seq<string>
    var vals: seq<Ref>
    ghost var repr: set<Node>

    constructor (arr: bool)
      ensures this.arr == arr && keys == [] && vals == [] && repr == {this} && Valid()
      ensures Tree() == if arr then Arr([]) else Obj([])
    {
      this.arr, keys, vals, repr := arr, [], [], {this};
    }

    /** Nodes form a tree. */
    ghost predicate Valid()
      reads this, repr
      decreases repr, 1
    {
      (if arr then keys == [] else |keys| == |vals|) && Sound(vals, this, repr)
    }

    ghost function Tree(): (tree: Value)
      requires Valid()
      reads this, repr
      ensures if arr then tree.Arr? else tree.Obj?
      decreases repr, 2
    {
      Shape(arr, keys, Trees(vals, this, repr))
    }

    /** `this[key] = r`, for the place of the key. */
    method Put(key: string, i: nat, r: Ref)
      requires Valid() && (r.Child? ==> r.node.Valid() && r.node.repr !! repr)
      requires Place(arr, keys, key) == Some(i) && Settles(arr, keys, key)
      modifies this
      ensures Valid() && repr == old(repr) + (if r.Child? then r.node.repr else {})
      ensures |vals| > i && vals[i] == r && Place(arr, keys, key) == Some(i)
      ensures Some(Tree()) == Set(old(Tree()), key, old(RefTree(r)))
    {
      var vals' := Extended(vals, i)[i := r];
      ghost var repr' := repr + if r.Child? then r.node.repr else {};
      SetShape(arr, keys, Trees(vals, this, repr), key, RefTree(r));
      FindKeyEnds(keys, key);
      Stored(vals, this, repr, i, r);
      if !arr && i >= |vals| { keys := keys + [key]; }
      vals, repr := vals', repr';
    }

    method Push(s: string)
      requires Valid() && arr
      modifies this
      ensures Valid() && repr == old(repr) && Tree() == Arr(old(Tree()).elems + [Str(s)])
    {
      Stored(vals, this, repr, |vals|, Text(s));
      assert Extended(vals, |vals|)[|vals| := Text(s)] == vals + [Text(s)];
      vals := vals + [Text(s)];
    }

    /** The key of the element in which a value with more keys goes, if the first key is empty. */
    method LastOrNext(nextKey: string, more: bool) returns (key: string)
      requires Valid() && arr
      ensures key == PushKey(Tree().elems, nextKey, more)
    {
      var last := if vals == [] then Nothing else vals[|vals| - 1];
      if last.Child? {
        assert Sound(vals, this, repr) && Tree().elems[|vals| - 1] == last.node.Tree();
        var at := Place(last.node.arr, last.node.keys, nextKey);
        GetShape(last.node.arr, last.node.keys, Trees(last.node.vals, last.node, last.node.repr), nextKey);
        var missing :=
          if at.Some? && at.value < |last.node.vals| then last.node.vals[at.value].Nothing?
          else Missing(last.node.arr, nextKey).Undefined?;
        if missing || more {
          return Decimal(|vals| - 1);
        }
      }
      return Decimal(|vals|);
    }
  }

  /** An array with room for an element at `i`. */
  function Extended(vals: seq<Ref>, i: nat): (r: seq<Ref>)
    ensures |r| == if i < |vals| then |vals| else i + 1
    ensures forall j | 0 <= j < |r| :: r[j] == if j < |vals| then vals[j] else Nothing
  {
    if i < |vals| then vals else vals + seq(i + 1 - |vals|, _ => Nothing)
  }

  lemma Stored(vals: seq<Ref>, owner: Node, repr: set<Node>, i: nat, r: Ref)
    requires Sound(vals, owner, repr) && (r.Child? ==> r.node.Valid() && r.node.repr !! repr)
    ensures var repr', vals' := repr + (if r.Child? then r.node.repr else {}), Extended(vals, i)[i := r];
      Sound(vals', owner, repr') && Trees(vals', owner, repr') == Store(Trees(vals, owner, repr), i, RefTree(r))
  {
    var repr', vals' := repr + (if r.Child? then r.node.repr else {}), Extended(vals, i)[i := r];
    assert Sound(vals', owner, repr');
    StoreAt(Trees(vals, owner, repr), i, RefTree(r));
  }

  /** The references of `owner` lead to separate trees of the other nodes in `repr`. */
  ghost predicate Sound(vals: seq<Ref>, owner: Node, repr: set<Node>)
    reads repr - {owner}
    decreases repr, 0
  {
    && owner in repr
    && (forall i | 0 <= i < |vals| :: vals[i].Child? ==>
          && vals[i].node in repr - {owner}
          && vals[i].node in vals[i].node.repr && vals[i].node.repr <= repr - {owner}
          && vals[i].node.Valid())
    && (forall i, j | 0 <= i < j < |vals| :: vals[i].Child? && vals[j].Child? ==>
          vals[i].node.repr !! vals[j].node.repr)
  }

  ghost function Trees(vals: seq<Ref>, owner: Node, repr: set<Node>): (trees: seq<Value>)
    requires Sound(vals, owner, repr)
    reads repr - {owner}
    ensures |trees| == |vals|
    ensures forall i | 0 <= i < |vals| :: trees[i].Undefined? <==> vals[i].Nothing?
    decreases repr, 1
  {
    seq(|vals|, i requires 0 <= i < |vals| && Sound(vals, owner, repr) reads repr - {owner} =>
      match vals[i] case Text(s) => Str(s) case Nothing => Undefined case Child(node) => node.Tree())
  }

  /** What a reference stands for. */
  ghost function RefTree(r: Ref): Value
    requires r.Child? ==> r.node.Valid()
    reads if r.Child? then {r.node} + r.node.repr else {}
  {
    match r
    case Text(s) => Str(s)
    case Child(node) => node.Tree()
    case Nothing => Undefined
  }

  function FindKey(keys: seq<string>, key: string): (i: nat)
    ensures i <= |keys|
    ensures i < |keys| ==> keys[i] == key
  {
    if keys == [] || keys[0] == key then 0 else 1 + FindKey(keys[1..], key)
  }

  /** Where a property is, or would be: on an array, only if the key is an index. */
  function Place(arr: bool, keys: seq<string>, key: string): Option<nat> {
    if arr then IndexOf(key) else Some(FindKey(keys, key))
  }

  lemma {:induction false} FindKeyEnds(keys: seq<string>, key: string)
    ensures FindKey(keys, key) == |keys| ==> FindKey(keys + [key], key) == |keys|
  {
    if keys != [] {
      FindKeyEnds(keys[1..], key);
      assert (keys + [key])[1..] == keys[1..] + [key];
    }
  }

  lemma {:induction false} StoreAt(trees: seq<Value>, i: nat, v: Value)
    ensures |Store(trees, i, v)| == if i < |trees| then |trees| else i + 1
    ensures forall j | 0 <= j < |Store(trees, i, v)| ::
              Store(trees, i, v)[j] == if j == i then v else if j < |trees| then trees[j] else Undefined
    decreases i
  {
    if i > |trees| { StoreAt(trees, i - 1, Undefined); }
  }

  lemma {:induction false} FindInShape(keys: seq<string>, trees: seq<Value>, key: string)
    requires |keys| == |trees|
    ensures Find(Shape(false, keys, trees).entries, key) == FindKey(keys, key)
  {
    if keys != [] {
      FindInShape(keys[1..], trees[1..], key);
      assert Shape(false, keys, trees).entries[1..] == Shape(false, keys[1..], trees[1..]).entries;
    }
  }

  /** What a property is that has no value of its own at its place. */
  function Missing(arr: bool, key: string): Value {
    if arr && IndexOf(key).Some? then Undefined else Inherited(arr, key)
  }

  lemma GetShape(arr: bool, keys: seq<string>, trees: seq<Value>, key: string)
    requires !arr ==> |keys| == |trees|
    ensures var at := Place(arr, keys, key);
      Get(Shape(arr, keys, trees), key) ==
      if at.Some? && at.value < |trees| then trees[at.value] else Missing(arr, key)
  {
    if !arr { FindInShape(keys, trees, key); }
  }

  /** Whether a value is set there: everywhere but on the prototype. */
  predicate Settles(arr: bool, keys: seq<string>, key: string) {
    arr || FindKey(keys, key) < |keys| || key != PROTO
  }

  lemma SetShape(arr: bool, keys: seq<string>, trees: seq<Value>, key: string, v: Value)
    requires !arr ==> |keys| == |trees|
    ensures var at := Place(arr, keys, key);
      Set(Shape(arr, keys, trees), key, v) ==
      if at.None? then None
      else if !Settles(arr, keys, key) then (if v.Str? then Some(Shape(arr, keys, trees)) else None)
      else Some(Shape(arr, if arr || at.value < |keys| then keys else keys + [key], Store(trees, at.value, v)))
  {
    if !arr {
      FindInShape(keys, trees, key);
      var i := FindKey(keys, key);
      StoreAt(trees, i, v);
      var entries := Shape(arr, keys, trees).entries;
      var after := if i < |entries| then entries[i := Entry(key, v)] else entries + [Entry(key, v)];
      assert after == Shape(arr, if i < |keys| then keys else keys + [key], Store(trees, i, v)).entries;
    }
  }

  ghost function Shape(arr: bool, keys: seq<string>, trees: seq<Value>): Value
    requires !arr ==> |keys| == |trees|
  {
    if arr then Arr(trees) else Obj(seq(|trees|, i requires 0 <= i < |trees| => Entry(keys[i], trees[i])))
  }

  /** Nothing can be set below a string. */
  lemma NothingBelowText(s: string, keys: seq<string>, value: Value, useInt: bool)
    ensures NestedNames.DeepSet(Str(s), keys, value, useInt).None?
  {
  }

  /** `deepSet`, in place. */
  method DeepSet(o: Node, keys: seq<string>, value: string, useInt: bool) returns (ok: bool)
    requires o.Valid()
    modifies o.repr
    ensures ok <==> old(NestedNames.DeepSet(o.Tree(), keys, Str(value), useInt)).Some?
    ensures ok ==> o.Valid() && fresh(o.repr - old(o.repr))
    ensures ok ==> Some(o.Tree()) == old(NestedNames.DeepSet(o.Tree(), keys, Str(value), useInt))
    decreases |keys|, 0
  {
    if keys == [] { return false; }
    if keys[0] == "" && !o.arr { return false; }
    if keys == [""] {
      o.Push(value);
      return true;
    }
    var key := keys[0];
    if key == "" {
      key := o.LastOrNext(keys[1], |keys| > 2);
      assert key != "";
    }
    if |keys| == 1 {
      ok := SetOne(o, key, value);
    } else {
      ok := SetDeep(o, key, keys[1..], value, useInt);
    }
  }

  /** `o[key] = value` */
  method SetOne(o: Node, key: string, value: string) returns (ok: bool)
    requires o.Valid() && key != ""
    modifies o
    ensures o.Valid() && o.repr == old(o.repr) && (ok <==> old(Set(o.Tree(), key, Str(value))).Some?)
    ensures ok ==> Some(o.Tree()) == old(Set(o.Tree(), key, Str(value)))
  {
    var at := Place(o.arr, o.keys, key);
    SetShape(o.arr, o.keys, Trees(o.vals, o, o.repr), key, Str(value));
    if at.None? { return false; }
    if Settles(o.arr, o.keys, key) { o.Put(key, at.value, Text(value)); }
    return true;
  }

  /** `deepSet(o[key], keys, value)`, once there is something at the key. */
  method SetDeep(o: Node, key: string, keys: seq<string>, value: string, useInt: bool) returns (ok: bool)
    requires o.Valid() && key != "" && keys != []
    modifies o.repr
    ensures ok <==> old(Deepened(o.Tree(), key, keys, value, useInt)).Some?
    ensures ok ==> o.Valid() && fresh(o.repr - old(o.repr))
    ensures ok ==> Some(o.Tree()) == old(Deepened(o.Tree(), key, keys, value, useInt))
    decreases |keys|, 3
  {
    var at := Place(o.arr, o.keys, key);
    GetShape(o.arr, o.keys, Trees(o.vals, o, o.repr), key);
    SetShape(o.arr, o.keys, Trees(o.vals, o, o.repr), key, Undefined);
    if at.None? {
      NotAnIndex(o.Tree(), key);
      return false;
    }
    if at.value < |o.vals| {
      if o.vals[at.value].Text? {
        NothingBelowText(o.vals[at.value].s, keys, Str(value), useInt);
        return false;
      }
    } else if Missing(o.arr, key).Builtin? {
      NothingInBuiltin(keys, Str(value), useInt);
      return false;  // the rest would be set on something built in
    }
    ok := SetBelow(o, key, at.value, keys, value, useInt);
  }

  /** What `deepSet` makes of `o`, given a key that is not the last. */
  ghost function Deepened(o: Value, key: string, keys: seq<string>, value: string, useInt: bool): Option<Value>
    requires keys != []
  {
    match NestedNames.DeepSet(ValueBelow(o, key, keys[0], useInt), keys, Str(value), useInt)
    case None => None
    case Some(v) => Set(o, key, v)
  }

  lemma NotAnIndex(o: Value, key: string)
    requires o.Arr? && IndexOf(key).None?
    ensures forall v :: Set(o, key, v).None?
  {
  }

  /** The place `i` of the key holds an object or array, or may get one. */
  ghost predicate Enterable(o: Node, key: string, i: nat)
    reads o
  {
    && key != "" && Place(o.arr, o.keys, key) == Some(i)
    && if i < |o.vals| then !o.vals[i].Text? else Missing(o.arr, key).Undefined?
  }

  /** Goes one key deeper. */
  method SetBelow(o: Node, key: string, i: nat, keys: seq<string>, value: string, useInt: bool) returns (ok: bool)
    requires o.Valid() && keys != [] && Enterable(o, key, i)
    modifies o.repr
    ensures ok <==> old(NestedNames.DeepSet(ValueBelow(o.Tree(), key, keys[0], useInt), keys, Str(value), useInt)).Some?
    ensures ok ==> o.Valid() && fresh(o.repr - old(o.repr))
    ensures ok ==>
      var below := old(NestedNames.DeepSet(ValueBelow(o.Tree(), key, keys[0], useInt), keys, Str(value), useInt));
      Some(o.Tree()) == Set(old(o.Tree()), key, below.value)
    decreases |keys|, 2
  {
    var node := Below(o, key, i, keys[0], useInt);
    ghost var trees := Trees(o.vals, o, o.repr);
    ok := SetInChild(o, i, keys, value, useInt);
    if ok {
      SetShape(o.arr, o.keys, trees, key, node.Tree());
    }
  }

  ghost function ValueBelow(o: Value, key: string, nextKey: string, useInt: bool): Value {
    if Get(o, key).Undefined? then NewContainer(nextKey, useInt) else Get(o, key)
  }

  /** What is left of an object when one child is set aside. */
  lemma SetAside(vals: seq<Ref>, owner: Node, repr: set<Node>, i: nat)
    requires Sound(vals, owner, repr) && i < |vals| && vals[i].Child?
    ensures Sound(vals[i := Nothing], owner, repr - vals[i].node.repr)
    ensures Trees(vals[i := Nothing], owner, repr - vals[i].node.repr) == Trees(vals, owner, repr)[i := Undefined]
  {
    var rest, repr' := vals[i := Nothing], repr - vals[i].node.repr;
    assert forall j | 0 <= j < |rest| :: rest[j] == if j == i then Nothing else vals[j];
    assert Sound(rest, owner, repr');
  }

  /** Updates one child in place; the others are not touched. */
  method SetInChild(o: Node, i: nat, keys: seq<string>, value: string, useInt: bool) returns (ok: bool)
    requires o.Valid() && i < |o.vals| && o.vals[i].Child? && o.vals[i].node.Valid()
    modifies o.repr
    ensures ok <==> old(NestedNames.DeepSet(o.vals[i].node.Tree(), keys, Str(value), useInt)).Some?
    ensures ok ==> o.Valid() && fresh(o.repr - old(o.repr)) && o.vals == old(o.vals) && o.keys == old(o.keys)
    ensures ok ==> var node := old(o.vals[i].node);
      && node.Valid() && Some(node.Tree()) == old(NestedNames.DeepSet(node.Tree(), keys, Str(value), useInt))
      && Trees(o.vals, o, o.repr) == old(Trees(o.vals, o, o.repr))[i := node.Tree()]
    decreases |keys|, 1
  {
    var node := o.vals[i].node;
    ghost var rest, repr := o.vals[i := Nothing], o.repr - node.repr;
    SetAside(o.vals, o, o.repr, i);
    ok := DeepSet(node, keys, value, useInt);
    if ok {
      Stored(rest, o, repr, i, Child(node));
      assert Extended(rest, i)[i := Child(node)] == o.vals;
      o.repr := repr + node.repr;
    }
  }

  lemma FindInTree(o: Node, key: string)
    requires o.Valid() && !o.arr
    ensures Find(o.Tree().entries, key) == FindKey(o.keys, key) && |o.Tree().entries| == |o.keys|
  {
    FindInShape(o.keys, Trees(o.vals, o, o.repr), key);
  }

  /** The object or array at the key, which is made if there is nothing yet. */
  method Below(o: Node, key: string, i: nat, nextKey: string, useInt: bool) returns (node: Node)
    requires o.Valid() && Enterable(o, key, i)
    modifies o
    ensures o.Valid() && fresh(o.repr - old(o.repr)) && Place(o.arr, o.keys, key) == Some(i)
    ensures i < |o.vals| && o.vals[i] == Child(node) && node.Valid()
    ensures node.Tree() == old(ValueBelow(o.Tree(), key, nextKey, useInt))
    ensures forall v :: Set(o.Tree(), key, v) == old(Set(o.Tree(), key, v))
  {
    GetShape(o.arr, o.keys, Trees(o.vals, o, o.repr), key);
    if i < |o.vals| && o.vals[i].Child? {
      node := o.vals[i].node;
    } else {
      node := new Node(NewContainer(nextKey, useInt).Arr?);
      ghost var before := o.Tree();
      ProtoIsInherited();
      if !o.arr { FindInTree(o, key); }
      o.Put(key, i, Child(node));
      forall v ensures Set(o.Tree(), key, v) == Set(before, key, v) {
        SetThenGet(before, key, node.Tree(), v);
      }
    }
  }

  /** `serializeJSON`: sets all pairs in order. */
  method SerializeJSON(pairs: seq<Pair>, useInt: bool) returns (ok: bool, o: Node)
    requires forall p <- pairs :: p.value.Str?
    ensures ok <==> Rebuilt(Obj([]), pairs, useInt).Some?
    ensures ok ==> o.Valid() && Some(o.Tree()) == Rebuilt(Obj([]), pairs, useInt)
  {
    o := new Node(false);
    ok := true;
    ghost var built := Some(Obj([]));
    for i := 0 to |pairs|
      invariant built == Rebuilt(Obj([]), pairs[..i], useInt) && (ok <==> built.Some?)
      invariant fresh(o)
      invariant ok ==> fresh(o.repr) && o.Valid() && Some(o.Tree()) == built
    {
      RebuiltNext(Obj([]), pairs, i, useInt);
      built := Rebuilt(Obj([]), pairs[..i + 1], useInt);
      if ok {
        ok := DeepSet(o, SplitInputNameIntoKeysArray(pairs[i].name), pairs[i].value.s, useInt);
      }
    }
    assert pairs[..|pairs|] == pairs;
  }

  lemma RebuiltNext(o: Value, pairs: seq<Pair>, i: nat, useInt: bool)
    requires i < |pairs|
    ensures Rebuilt(o, pairs[..i + 1], useInt) ==
      match Rebuilt(o, pairs[..i], useInt)
      case None => None
      case Some(o1) => NestedNames.DeepSet(o1, SplitInputNameIntoKeysArray(pairs[i].name), pairs[i].value, useInt)
  {
    assert pairs[..i + 1][..i] == pairs[..i];
  }
}
