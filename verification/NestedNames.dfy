/** Nested form names: jQuery prints a tree of objects and arrays as `a[b][0][]` names, and
    serializeJSON sets values under such names to rebuild a tree. */
module NestedNames {
  import opened Wrappers

  /** A JavaScript value: a string, an object with its entries in order, an array, nothing, or
      something built in, whose own properties do not belong to any tree. */
  datatype Value =
    | Str(s: string)
    | Obj(entries: seq<Entry>)
    | Arr(elems: seq<Value>)
    | Undefined
    | Builtin

  datatype Entry = Entry(key: string, value: Value)

  /** One name and value of a form. */
  datatype Pair = Pair(name: string, value: Value)

  // ----- Decimal numbers

  function Digit(d: nat): char
    requires d < 10
  {
    '0' + d as char
  }

  predicate IsDigit(c: char) {
    '0' <= c <= '9'
  }

  function Decimal(n: nat): (s: string)
    ensures s != [] && forall i | 0 <= i < |s| :: IsDigit(s[i])
  {
    if n < 10 then [Digit(n)] else Decimal(n / 10) + [Digit(n % 10)]
  }

  /** `isValidArrayIndex` */
  predicate AllDigits(s: string) {
    s != [] && forall i | 0 <= i < |s| :: IsDigit(s[i])
  }

  function DigitValue(c: char): nat
    requires IsDigit(c)
  {
    c as int - '0' as int
  }

  function ValueOf(s: string): nat
    requires forall i | 0 <= i < |s| :: IsDigit(s[i])
  {
    if s == [] then 0 else 10 * ValueOf(s[..|s| - 1]) + DigitValue(s[|s| - 1])
  }

  /** The array index that a property name stands for, if it is one in canonical form. */
  function IndexOf(key: string): Option<nat> {
    if AllDigits(key) && Decimal(ValueOf(key)) == key then Some(ValueOf(key)) else None
  }

  lemma {:induction false} DecimalValue(n: nat)
    ensures ValueOf(Decimal(n)) == n
  {
    if n >= 10 {
      DecimalValue(n / 10);
      assert Decimal(n)[..|Decimal(n)| - 1] == Decimal(n / 10);
    }
  }

  // ----- Printing: jQuery's buildParams

  predicate EndsWithBrackets(s: string) {
    |s| >= 2 && s[|s| - 2] == '[' && s[|s| - 1] == ']'
  }

  function Bracketed(prefix: string, key: string): string {
    prefix + "[" + key + "]"
  }

  /** The pairs that `buildParams` adds for `obj` under the name `prefix`. */
  function Printed(prefix: string, obj: Value, traditional: bool): seq<Pair>
    decreases obj, 1
  {
    if obj.Arr? then PrintedItems(prefix, obj, |obj.elems|, traditional)
    else if obj.Obj? && !traditional then PrintedEntries(prefix, obj, |obj.entries|)
    else [Pair(prefix, obj)]
  }

  function PrintedItems(prefix: string, obj: Value, n: nat, traditional: bool): seq<Pair>
    requires obj.Arr? && n <= |obj.elems|
    decreases obj, 0, n
  {
    if n == 0 then []
    else
      var i, v := n - 1, obj.elems[n - 1];
      PrintedItems(prefix, obj, i, traditional) +
      if traditional || EndsWithBrackets(prefix) then [Pair(prefix, v)]
      else Printed(Bracketed(prefix, if v.Obj? || v.Arr? then Decimal(i) else ""), v, traditional)
  }

  function PrintedEntries(prefix: string, obj: Value, n: nat): seq<Pair>
    requires obj.Obj? && n <= |obj.entries|
    decreases obj, 0, n
  {
    if n == 0 then []
    else
      var e := obj.entries[n - 1];
      PrintedEntries(prefix, obj, n - 1) + Printed(Bracketed(prefix, e.key), e.value, false)
  }

  /** The pairs of `jQuery.param` for an object. */
  function Params(entries: seq<Entry>, traditional: bool): seq<Pair> {
    if entries == [] then []
    else
      var e := entries[|entries| - 1];
      Params(entries[..|entries| - 1], traditional) + Printed(e.key, e.value, traditional)
  }

  /** The accumulator of `jQuery.param`. */
  class Serializer {
    var s: seq<Pair>

    constructor ()
      ensures s == []
    {
      s := [];
    }

    method Add(key: string, value: Value)
      modifies this
      ensures s == old(s) + [Pair(key, value)]
    {
      s := s + [Pair(key, value)];
    }

    method BuildParams(prefix: string, obj: Value, traditional: bool)
      modifies this
      ensures s == old(s) + Printed(prefix, obj, traditional)
      decreases obj
    {
      if obj.Arr? {
        for i := 0 to |obj.elems|
          invariant s == old(s) + PrintedItems(prefix, obj, i, traditional)
        {
          var v := obj.elems[i];
          if traditional || EndsWithBrackets(prefix) {
            Add(prefix, v);
          } else {
            BuildParams(Bracketed(prefix, if v.Obj? || v.Arr? then Decimal(i) else ""), v, traditional);
          }
        }
      } else if !traditional && obj.Obj? {
        for i := 0 to |obj.entries|
          invariant s == old(s) + PrintedEntries(prefix, obj, i)
        {
          BuildParams(Bracketed(prefix, obj.entries[i].key), obj.entries[i].value, traditional);
        }
      } else {
        Add(prefix, obj);
      }
    }

    method Param(entries: seq<Entry>, traditional: bool)
      modifies this
      ensures s == old(s) + Params(entries, traditional)
    {
      for i := 0 to |entries|
        invariant s == old(s) + Params(entries[..i], traditional)
      {
        assert entries[..i + 1][..i] == entries[..i];
        BuildParams(entries[i].key, entries[i].value, traditional);
      }
      assert entries[..|entries|] == entries;
    }
  }

  // ----- Parsing names: splitInputNameIntoKeysArray

  /** `name.split('[')` */
  function Split(name: string): (parts: seq<string>)
    ensures parts != []
  {
    if name == [] then [""]
    else
      var parts, c := Split(name[..|name| - 1]), name[|name| - 1];
      if c == '[' then parts + [""] else parts[|parts| - 1 := parts[|parts| - 1] + [c]]
  }

  function Strip(part: string): string {
    if part != [] && part[|part| - 1] == ']' then part[..|part| - 1] else part
  }

  function Stripped(parts: seq<string>): (keys: seq<string>)
    ensures |keys| == |parts| && forall i | 0 <= i < |parts| :: keys[i] == Strip(parts[i])
  {
    seq(|parts|, i requires 0 <= i < |parts| => Strip(parts[i]))
  }

  function SplitInputNameIntoKeysArray(name: string): seq<string> {
    var keys := Stripped(Split(name));
    if keys[0] == "" then keys[1..] else keys
  }

  // ----- Setting values: deepSet

  function Find(entries: seq<Entry>, key: string): (i: nat)
    ensures i <= |entries|
    ensures i < |entries| ==> entries[i].key == key
    ensures forall j | 0 <= j < i :: entries[j].key != key
  {
    if entries == [] then 0 else if entries[0].key == key then 0 else 1 + Find(entries[1..], key)
  }

  /** The property that sets the prototype of an object, and that ignores strings. */
  const PROTO := "__proto__"

  /** The properties that every object inherits from `Object.prototype`. */
  const OBJECT_NAMES: seq<string> := [
    PROTO, "constructor", "toString", "valueOf", "hasOwnProperty", "isPrototypeOf", "propertyIsEnumerable",
    "toLocaleString", "__defineGetter__", "__defineSetter__", "__lookupGetter__", "__lookupSetter__"]

  /** The properties, other than elements, that every array has besides. */
  const ARRAY_NAMES: seq<string> := [
    "length", "concat", "copyWithin", "entries", "every", "fill", "filter", "find", "findIndex", "forEach",
    "includes", "indexOf", "join", "keys", "lastIndexOf", "map", "pop", "push", "reduce", "reduceRight",
    "reverse", "shift", "slice", "some", "sort", "splice", "unshift", "values"]

  predicate Among(names: seq<string>, key: string) {
    names != [] && (names[0] == key || Among(names[1..], key))
  }

  /** What an object or array that has no property of its own under the key gives for it. */
  function Inherited(arr: bool, key: string): Value {
    if Among(OBJECT_NAMES, key) || (arr && Among(ARRAY_NAMES, key)) then Builtin else Undefined
  }

  /** `o[key]` */
  function Get(o: Value, key: string): Value {
    match o
    case Obj(entries) =>
      var i := Find(entries, key);
      if i < |entries| then entries[i].value else Inherited(false, key)
    case Arr(elems) =>
      var i := IndexOf(key);
      if i.None? then Inherited(true, key) else if i.value < |elems| then elems[i.value] else Undefined
    case _ => Undefined
  }

  /** `elems[i] = v`, with undefined elements up to a new one. */
  function Store(elems: seq<Value>, i: nat, v: Value): seq<Value>
    decreases i
  {
    if i < |elems| then elems[i := v]
    else if i == |elems| then elems + [v]
    else Store(elems, i - 1, Undefined) + [v]
  }

  /** `o[key] = v`, on objects and on indices of arrays. */
  function Set(o: Value, key: string, v: Value): Option<Value> {
    match o
    case Obj(entries) =>
      var i := Find(entries, key);
      if i < |entries| then Some(Obj(entries[i := Entry(key, v)]))
      else if key != PROTO then Some(Obj(entries + [Entry(key, v)]))
      else if v.Str? then Some(o)
      else None
    case Arr(elems) =>
      var i := IndexOf(key);
      if i.Some? then Some(Arr(Store(elems, i.value, v))) else None
    case _ => None
  }

  /** Where a value with more keys goes when the first key is empty: into the last element, if
      that is an object without the next key or one to go deeper into, or into a new element. */
  function PushKey(elems: seq<Value>, nextKey: string, more: bool): string {
    var last := if elems == [] then Undefined else elems[|elems| - 1];
    if (last.Obj? || last.Arr?) && (Get(last, nextKey).Undefined? || more) then Decimal(|elems| - 1)
    else Decimal(|elems|)
  }

  function NewContainer(nextKey: string, useIntKeysAsArrayIndex: bool): Value {
    if nextKey == "" || (useIntKeysAsArrayIndex && AllDigits(nextKey)) then Arr([]) else Obj([])
  }

  /** The object `o` after `deepSet(o, keys, value)`.  `None` where the source throws, sets a property
      that is no index on an array, or one with an empty key on an object; and where it goes on below
      something built in, which changes that or throws, but never reaches the tree. */
  function DeepSet(o: Value, keys: seq<string>, value: Value, useInt: bool): Option<Value>
    decreases |keys|
  {
    if keys == [] then None
    else if |keys| == 1 then
      if keys[0] == "" then (if o.Arr? then Some(Arr(o.elems + [value])) else None) else Set(o, keys[0], value)
    else if keys[0] == "" && !o.Arr? then None
    else
      var key := if keys[0] == "" then PushKey(o.elems, keys[1], |keys| > 2) else keys[0];
      var child := if Get(o, key).Undefined? then NewContainer(keys[1], useInt) else Get(o, key);
      match DeepSet(child, keys[1..], value, useInt)
      case None => None
      case Some(v) => Set(o, key, v)
  }

  /** All pairs set in order, as `serializeJSON` does. */
  function Rebuilt(o: Value, pairs: seq<Pair>, useInt: bool): Option<Value> {
    if pairs == [] then Some(o)
    else
      var last := pairs[|pairs| - 1];
      match Rebuilt(o, pairs[..|pairs| - 1], useInt)
      case None => None
      case Some(o1) => DeepSet(o1, SplitInputNameIntoKeysArray(last.name), last.value, useInt)
  }
}
