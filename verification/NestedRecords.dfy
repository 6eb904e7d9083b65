/** Arrays of records: names with an empty key that is not the last, such as `a[][k]`. */
module NestedRecords {
  import opened Wrappers
  import opened NestedNames
  import opened NestedNamesRoundTrip

  // ----- Where values below an empty key go

  predicate Container(v: Value) {
    v.Obj? || v.Arr?
  }

  /** The last element takes values with more keys: it is an object or array, and lacks the next key
      unless there are even more. */
  predicate LastTakes(elems: seq<Value>, keys: seq<string>)
    requires keys != []
  {
    elems != [] && Container(elems[|elems| - 1]) &&
    (|keys| > 1 || Get(elems[|elems| - 1], keys[0]).Undefined?)
  }

  lemma LastElementSet(elems: seq<Value>, keys: seq<string>, value: Value, useInt: bool)
    requires keys != [] && LastTakes(elems, keys)
    ensures DeepSet(Arr(elems), [""] + keys, value, useInt) ==
      match DeepSet(elems[|elems| - 1], keys, value, useInt)
      case None => None
      case Some(w) => Some(Arr(elems[..|elems| - 1] + [w]))
  {
    var all, n := [""] + keys, |elems|;
    assert all[1..] == keys;
    DecimalIsIndex(n - 1);
    assert PushKey(elems, keys[0], |all| > 2) == Decimal(n - 1);
    assert forall w: Value :: elems[n - 1 := w] == elems[..n - 1] + [w];
  }

  lemma NewElementSet(elems: seq<Value>, keys: seq<string>, value: Value, useInt: bool)
    requires keys != [] && !LastTakes(elems, keys)
    ensures DeepSet(Arr(elems), [""] + keys, value, useInt) ==
      match DeepSet(NewContainer(keys[0], useInt), keys, value, useInt)
      case None => None
      case Some(w) => Some(Arr(elems + [w]))
  {
    var all := [""] + keys;
    assert all[1..] == keys;
    DecimalIsIndex(|elems|);
    assert PushKey(elems, keys[0], |all| > 2) == Decimal(|elems|);
  }

  /** Below an empty key, a value goes into the last element if that takes it, and into a new element
      otherwise; all other elements stay. */
  lemma EmptyKeySets(elems: seq<Value>, keys: seq<string>, value: Value, useInt: bool)
    requires keys != []
    ensures DeepSet(Arr(elems), [""] + keys, value, useInt) ==
      if LastTakes(elems, keys) then
        match DeepSet(elems[|elems| - 1], keys, value, useInt)
        case None => None
        case Some(w) => Some(Arr(elems[..|elems| - 1] + [w]))
      else
        match DeepSet(NewContainer(keys[0], useInt), keys, value, useInt)
        case None => None
        case Some(w) => Some(Arr(elems + [w]))
  {
    if LastTakes(elems, keys) {
      LastElementSet(elems, keys, value, useInt);
    } else {
      NewElementSet(elems, keys, value, useInt);
    }
  }

  lemma DecimalIsIndex(n: nat)
    ensures IndexOf(Decimal(n)) == Some(n)
  {
    DecimalValue(n);
    DecimalIsBare(n);
  }

  lemma OneKeySets(es: seq<Entry>, key: string, value: Value, useInt: bool)
    requires key != "" && key != PROTO && forall i | 0 <= i < |es| :: es[i].key != key
    ensures DeepSet(Obj(es), [key], value, useInt) == Some(Obj(es + [Entry(key, value)]))
  {
    FindFresh(es, key);
  }

  /** A record that lacks the key gets it. */
  lemma LastRecordGetsKey(before: seq<Value>, es: seq<Entry>, key: string, value: Value, useInt: bool)
    requires key != "" && Inherited(false, key).Undefined? && forall i | 0 <= i < |es| :: es[i].key != key
    ensures DeepSet(Arr(before + [Obj(es)]), ["", key], value, useInt)
         == Some(Arr(before + [Obj(es + [Entry(key, value)])]))
  {
    ProtoIsInherited();
    FindFresh(es, key);
    OneKeySets(es, key, value, useInt);
    EmptyKeySets(before + [Obj(es)], [key], value, useInt);
    assert [""] + [key] == ["", key] && (before + [Obj(es)])[..|before|] == before;
  }

  /** If there is no last element that is an object or array without the key, a new record is made. */
  lemma NewRecordGetsKey(elems: seq<Value>, key: string, value: Value, useInt: bool)
    requires key != "" && key != PROTO && !(useInt && AllDigits(key)) && !LastTakes(elems, [key])
    ensures DeepSet(Arr(elems), ["", key], value, useInt) == Some(Arr(elems + [Obj([Entry(key, value)])]))
  {
    OneKeySets([], key, value, useInt);
    EmptyKeySets(elems, [key], value, useInt);
    assert [""] + [key] == ["", key] && [] + [Entry(key, value)] == [Entry(key, value)];
  }

  // ----- Records printed as a[][k]

  type Record = seq<Entry>

  /** A field of a form. */
  predicate IsField(e: Entry) {
    PlainKey(e.key) && e.value.Str?
  }

  predicate Fields(fields: seq<Entry>) {
    forall i | 0 <= i < |fields| :: IsField(fields[i])
  }

  predicate IsRecord(record: Record) {
    record != [] && Fields(record) && forall i, j | 0 <= i < j < |record| :: record[i].key != record[j].key
  }

  ghost predicate AreRecords(records: seq<Record>) {
    forall i | 0 <= i < |records| :: IsRecord(records[i])
  }

  predicate HasKey(record: Record, key: string) {
    exists i | 0 <= i < |record| :: record[i].key == key
  }

  function Objects(records: seq<Record>): (r: seq<Value>)
    ensures |r| == |records| && forall i | 0 <= i < |r| :: r[i] == Obj(records[i])
  {
    seq(|records|, i requires 0 <= i < |records| => Obj(records[i]))
  }

  /** The elements of an array after one more field. */
  function AddField(elems: seq<Value>, e: Entry, useInt: bool): Option<seq<Value>> {
    match DeepSet(Arr(elems), ["", e.key], e.value, useInt)
    case Some(Arr(more)) => Some(more)
    case _ => None
  }

  function AddFields(elems: seq<Value>, fields: seq<Entry>, useInt: bool): Option<seq<Value>> {
    if fields == [] then Some(elems)
    else
      match AddFields(elems, fields[..|fields| - 1], useInt)
      case None => None
      case Some(more) => AddField(more, fields[|fields| - 1], useInt)
  }

  // ----- One field

  /** What settings of fields make: none leaves an entry under `__proto__`. */
  ghost predicate Made(v: Value) {
    v.Obj? ==> Fields(v.entries) && !HasKey(v.entries, PROTO)
  }

  ghost predicate AllMade(elems: seq<Value>) {
    forall i | 0 <= i < |elems| :: Made(elems[i])
  }

  /** The last element gets the field. */
  ghost predicate Enters(elems: seq<Value>, e: Entry, more: seq<Value>) {
    var n := |elems|;
    && n > 0 && |more| == n && more[..n - 1] == elems[..n - 1] && Container(elems[n - 1])
    && if elems[n - 1].Obj? then more[n - 1] == Obj(elems[n - 1].entries + [e]) else more[n - 1].Arr?
  }

  /** A new element gets it, which is an array if the key is an index. */
  ghost predicate Starts(elems: seq<Value>, e: Entry, more: seq<Value>, useInt: bool) {
    var n := |elems|;
    && |more| == n + 1 && more[..n] == elems
    && if useInt && AllDigits(e.key) then more[n].Arr?
       else more[n] == Obj(if e.key == PROTO then [] else [e])
  }

  /** The last element is an object or array that lacks the key. */
  predicate Lacks(elems: seq<Value>, key: string) {
    LastTakes(elems, [key])
  }

  lemma OnNewContainer(e: Entry, useInt: bool)
    requires IsField(e)
    ensures var r := DeepSet(NewContainer(e.key, useInt), [e.key], e.value, useInt);
      if useInt && AllDigits(e.key) then r.None? || r.value.Arr?
      else r == Some(Obj(if e.key == PROTO then [] else [e]))
  {
    assert [] + [e] == [e];
  }

  lemma OnLast(last: Value, e: Entry, useInt: bool)
    requires IsField(e) && Made(last) && Container(last) && Get(last, e.key).Undefined?
    ensures last.Obj? ==> DeepSet(last, [e.key], e.value, useInt) == Some(Obj(last.entries + [e]))
    ensures var r := DeepSet(last, [e.key], e.value, useInt); last.Arr? ==> r.None? || r.value.Arr?
  {
    ProtoIsInherited();
  }

  lemma OneFieldAdds(elems: seq<Value>, e: Entry, useInt: bool)
    requires IsField(e) && AllMade(elems)
    ensures var r := AddField(elems, e, useInt);
      if Lacks(elems, e.key) then
        (elems[|elems| - 1].Obj? ==> r.Some?) && (r.None? || Enters(elems, e, r.value))
      else
        (!(useInt && AllDigits(e.key)) ==> r.Some?) && (r.None? || Starts(elems, e, r.value, useInt))
  {
    assert [""] + [e.key] == ["", e.key];
    EmptyKeySets(elems, [e.key], e.value, useInt);
    if Lacks(elems, e.key) {
      OnLast(elems[|elems| - 1], e, useInt);
    } else {
      OnNewContainer(e, useInt);
    }
  }

  lemma StaysMade(elems: seq<Value>, e: Entry, useInt: bool)
    requires IsField(e) && AllMade(elems) && AddField(elems, e, useInt).Some?
    ensures AllMade(AddField(elems, e, useInt).value)
  {
    var more, n := AddField(elems, e, useInt).value, |elems|;
    OneFieldAdds(elems, e, useInt);
    ProtoIsInherited();
    forall i | 0 <= i < |more| ensures Made(more[i]) {
      if i < n - 1 {
        assert more[i] == more[..n - 1][i];
        assert more[i] == elems[i];
      } else if i == n - 1 && !Lacks(elems, e.key) {
        assert more[i] == more[..n][i];
      } else if i == n - 1 && elems[i].Obj? {
        FieldMade(elems[i].entries, e);
      } else if i == n && more[i].Obj? {
        FieldMade([], e);
      }
    }
  }

  lemma FieldMade(es: seq<Entry>, e: Entry)
    requires IsField(e) && Made(Obj(es))
    ensures e.key != PROTO ==> Made(Obj(es + [e]))
    ensures es == [] ==> es + [e] == [e]
  {
  }

  // ----- Elements that cannot become their record any more

  /** Element `j` is not the record, and never will be: it is not the last one, which alone can
      still get fields, or what it has is no beginning of the record. */
  ghost predicate Wrong(elems: seq<Value>, j: nat, record: Record)
    requires j < |elems|
  {
    if j + 1 < |elems| then elems[j] != Obj(record) else !(elems[j].Obj? && elems[j].entries <= record)
  }

  ghost predicate Lost(elems: seq<Value>, records: seq<Record>) {
    exists j: nat :: j < |elems| && j < |records| && Wrong(elems, j, records[j])
  }

  ghost predicate IsLost(r: Option<seq<Value>>, records: seq<Record>) {
    r.Some? ==> Lost(r.value, records)
  }

  lemma OneFieldStaysLost(elems: seq<Value>, e: Entry, records: seq<Record>, useInt: bool)
    requires IsField(e) && AllMade(elems) && Lost(elems, records)
    ensures IsLost(AddField(elems, e, useInt), records)
  {
    var r := AddField(elems, e, useInt);
    OneFieldAdds(elems, e, useInt);
    if r.Some? {
      var j: nat :| j < |elems| && j < |records| && Wrong(elems, j, records[j]);
      StaysWrong(elems, e, r.value, j, records[j], useInt);
    }
  }

  lemma StaysWrong(elems: seq<Value>, e: Entry, more: seq<Value>, j: nat, record: Record, useInt: bool)
    requires Enters(elems, e, more) || Starts(elems, e, more, useInt)
    requires j < |elems| && Wrong(elems, j, record)
    ensures j < |more| && Wrong(more, j, record)
  {
    var n := |elems|;
    if Enters(elems, e, more) {
      if j < n - 1 {
        assert more[..n - 1][j] == elems[..n - 1][j];
      } else if elems[j].Obj? {
        BeginningOfMore(elems[j].entries, e, record);
      }
    } else {
      assert more[..n][j] == elems[j];
    }
  }

  lemma BeginningOfMore(a: seq<Entry>, e: Entry, record: Record)
    ensures a + [e] <= record ==> a <= record
  {
  }

  lemma {:induction false} FieldsStayLost(elems: seq<Value>, fields: seq<Entry>, records: seq<Record>, useInt: bool)
    requires Fields(fields) && AllMade(elems)
    ensures AddFields(elems, fields, useInt).Some? ==> AllMade(AddFields(elems, fields, useInt).value)
    ensures Lost(elems, records) ==> IsLost(AddFields(elems, fields, useInt), records)
  {
    if fields != [] {
      var n := |fields| - 1;
      FieldsStayLost(elems, fields[..n], records, useInt);
      var r := AddFields(elems, fields[..n], useInt);
      if r.Some? && AddField(r.value, fields[n], useInt).Some? {
        StaysMade(r.value, fields[n], useInt);
        if Lost(elems, records) { OneFieldStaysLost(r.value, fields[n], records, useInt); }
      }
    }
  }

  lemma LostAmongMore(elems: seq<Value>, records: seq<Record>, n: nat)
    requires n <= |records| && Lost(elems, records[..n])
    ensures Lost(elems, records)
  {
    var j: nat :| j < |elems| && j < n && Wrong(elems, j, records[..n][j]);
    assert Wrong(elems, j, records[j]);
  }

  // ----- One record

  /** The first field of a record starts a new element. */
  predicate Begins(before: seq<Record>, key: string, useInt: bool) {
    && key != PROTO && !(useInt && AllDigits(key))
    && (before == [] || HasKey(before[|before| - 1], key) || !Inherited(false, key).Undefined?)
  }

  /** The fields after the first one, up to place `k`, enter the same element. */
  predicate GoesOn(record: Record, k: nat)
    requires k <= |record|
  {
    forall i | 1 <= i < k :: Inherited(false, record[i].key).Undefined?
  }

  lemma LacksIff(record: Record, key: string, elems: seq<Value>)
    requires Fields(record)
    ensures Lacks(elems + [Obj(record)], key) <==> !HasKey(record, key) && Inherited(false, key).Undefined?
  {
    if HasKey(record, key) {
      var i :| 0 <= i < |record| && record[i].key == key;
      assert Find(record, key) <= i;
    } else {
      assert Find(record, key) == |record|;
    }
  }

  lemma FirstLacks(before: seq<Record>, key: string)
    requires AreRecords(before)
    ensures Lacks(Objects(before), key) <==>
      before != [] && !HasKey(before[|before| - 1], key) && Inherited(false, key).Undefined?
  {
    var elems, n := Objects(before), |before|;
    if n > 0 {
      assert elems == elems[..n - 1] + [Obj(before[n - 1])];
      LacksIff(before[n - 1], key, elems[..n - 1]);
    }
  }

  lemma OneRecordMore(before: seq<Record>, record: Record, more: seq<Value>)
    requires record != [] && |more| == |before| + 1
    requires more[..|before|] == Objects(before) && more[|before|] == Obj([record[0]])
    ensures more == Objects(before + [record[..1]])
  {
    assert record[..1] == [record[0]];
    assert more == Objects(before) + [Obj([record[0]])];
  }

  lemma FirstFieldBegins(before: seq<Record>, record: Record, useInt: bool)
    requires AreRecords(before) && AllMade(Objects(before)) && IsRecord(record)
    requires Begins(before, record[0].key, useInt)
    ensures AddField(Objects(before), record[0], useInt) == Some(Objects(before + [record[..1]]))
  {
    var elems, e := Objects(before), record[0];
    FirstLacks(before, e.key);
    OneFieldAdds(elems, e, useInt);
    OneRecordMore(before, record, AddField(elems, e, useInt).value);
  }

  lemma FirstFieldLost(before: seq<Record>, record: Record, useInt: bool)
    requires AreRecords(before) && AllMade(Objects(before)) && IsRecord(record) && record[0].key != PROTO
    requires !Begins(before, record[0].key, useInt)
    ensures IsLost(AddField(Objects(before), record[0], useInt), before + [record])
  {
    var elems, e, n := Objects(before), record[0], |before|;
    var r := AddField(elems, e, useInt);
    FirstLacks(before, e.key);
    OneFieldAdds(elems, e, useInt);
    if r.Some? {
      var j := if Lacks(elems, e.key) then n - 1 else n;
      assert Wrong(r.value, j, (before + [record])[j]);
    }
  }

  lemma RecordOnArray(before: seq<Record>, record: Record, k: nat, useInt: bool)
    requires AreRecords(before) && AllMade(Objects(before)) && IsRecord(record) && record[0].key != PROTO
    requires 0 < k < |record| && GoesOn(record, k)
    ensures var r := AddField(Objects(before + [record[..k]]), record[k], useInt);
      if Inherited(false, record[k].key).Undefined? then r == Some(Objects(before + [record[..k + 1]]))
      else IsLost(r, before + [record])
  {
    var e, n, was := record[k], |before|, record[..k];
    var elems := Objects(before + [was]);
    assert elems == Objects(before) + [Obj(was)];
    NoneInherited(record, k);
    assert AllMade(elems);
    LacksIff(was, e.key, Objects(before));
    OneFieldAdds(elems, e, useInt);
    var r := AddField(elems, e, useInt);
    if Inherited(false, e.key).Undefined? {
      assert record[..k + 1] == was + [e];
      assert elems[..n] == Objects(before) && r.value[..n] == Objects(before);
      assert r.value == Objects(before) + [Obj(was + [e])];
      assert Objects(before + [record[..k + 1]]) == Objects(before) + [Obj(was + [e])];
    } else if r.Some? {
      assert r.value[..n + 1][n] == Obj(was);
      assert Wrong(r.value, n, (before + [record])[n]);
    }
  }

  lemma NoneInherited(record: Record, k: nat)
    requires k <= |record| && GoesOn(record, k) && (k > 0 ==> record[0].key != PROTO)
    ensures !HasKey(record[..k], PROTO)
  {
    ProtoIsInherited();
    forall i | 0 <= i < k ensures record[..k][i].key != PROTO {
      if i > 0 { assert Inherited(false, record[i].key).Undefined?; }
    }
  }

  lemma {:induction false} RecordAdded(before: seq<Record>, record: Record, k: nat, useInt: bool)
    requires AreRecords(before) && AllMade(Objects(before)) && IsRecord(record) && record[0].key != PROTO
    requires 0 < k <= |record|
    ensures var r := AddFields(Objects(before), record[..k], useInt);
      if Begins(before, record[0].key, useInt) && GoesOn(record, k) then r == Some(Objects(before + [record[..k]]))
      else IsLost(r, before + [record])
  {
    var elems := Objects(before);
    assert record[..k][..k - 1] == record[..k - 1];
    if k == 1 {
      assert AddFields(elems, record[..1][..0], useInt) == Some(elems);
      if Begins(before, record[0].key, useInt) {
        FirstFieldBegins(before, record, useInt);
      } else {
        FirstFieldLost(before, record, useInt);
      }
    } else {
      RecordAdded(before, record, k - 1, useInt);
      if Begins(before, record[0].key, useInt) && GoesOn(record, k - 1) {
        RecordOnArray(before, record, k - 1, useInt);
        assert GoesOn(record, k) <==> Inherited(false, record[k - 1].key).Undefined?;
      } else {
        FieldsStayLost(elems, record[..k - 1], [], useInt);
        var r := AddFields(elems, record[..k - 1], useInt);
        if r.Some? { OneFieldStaysLost(r.value, record[k - 1], before + [record], useInt); }
      }
    }
  }

  // ----- All records

  function Flatten(records: seq<Record>): seq<Entry> {
    if records == [] then [] else Flatten(records[..|records| - 1]) + records[|records| - 1]
  }

  lemma {:induction false} AddFieldsConcat(elems: seq<Value>, a: seq<Entry>, b: seq<Entry>, useInt: bool)
    ensures AddFields(elems, a + b, useInt) ==
      match AddFields(elems, a, useInt) case None => None case Some(more) => AddFields(more, b, useInt)
  {
    if b == [] {
      assert a + b == a;
    } else {
      assert (a + b)[..|a + b| - 1] == a + b[..|b| - 1];
      AddFieldsConcat(elems, a, b[..|b| - 1], useInt);
    }
  }

  /** Record `i` comes as an element of its own. */
  predicate Apart(records: seq<Record>, i: nat, useInt: bool)
    requires i < |records|
  {
    var record := records[i];
    record != [] && Begins(records[..i], record[0].key, useInt) && GoesOn(record, |record|)
  }

  ghost predicate AllApart(records: seq<Record>, useInt: bool) {
    forall i | 0 <= i < |records| :: Apart(records, i, useInt)
  }

  ghost predicate NoProto(records: seq<Record>) {
    forall i | 0 <= i < |records| :: records[i] != [] && records[i][0].key != PROTO
  }

  lemma ApartBefore(records: seq<Record>, n: nat, useInt: bool)
    requires n + 1 == |records|
    ensures AllApart(records, useInt) <==> AllApart(records[..n], useInt) && Apart(records, n, useInt)
  {
    forall i | 0 <= i < n ensures Apart(records[..n], i, useInt) <==> Apart(records, i, useInt) {
      assert records[..n][..i] == records[..i];
    }
    if AllApart(records, useInt) {
      forall i | 0 <= i < n ensures Apart(records[..n], i, useInt) {
        assert Apart(records, i, useInt);
      }
    }
    if AllApart(records[..n], useInt) && Apart(records, n, useInt) {
      forall i | 0 <= i <= n ensures Apart(records, i, useInt) {
        if i < n { assert Apart(records[..n], i, useInt); }
      }
    }
  }

  lemma ApartMade(records: seq<Record>, useInt: bool)
    requires AreRecords(records) && AllApart(records, useInt)
    ensures AllMade(Objects(records))
  {
    forall i | 0 <= i < |records| ensures Made(Obj(records[i])) {
      assert Apart(records, i, useInt);
      NoneInherited(records[i], |records[i]|);
      assert records[i][..|records[i]|] == records[i];
    }
  }

  lemma {:induction false} FlattenedFields(records: seq<Record>)
    requires AreRecords(records)
    ensures Fields(Flatten(records))
  {
    if records != [] { FlattenedFields(records[..|records| - 1]); }
  }

  lemma {:induction false} RecordsBuild(records: seq<Record>, useInt: bool)
    requires AreRecords(records) && NoProto(records)
    ensures var r := AddFields([], Flatten(records), useInt);
      if AllApart(records, useInt) then r == Some(Objects(records)) else IsLost(r, records)
  {
    if records != [] {
      var n := |records| - 1;
      var before, last := records[..n], records[n];
      assert before + [last] == records && last[..|last|] == last;
      RecordsBuild(before, useInt);
      AddFieldsConcat([], Flatten(before), last, useInt);
      ApartBefore(records, n, useInt);
      var r := AddFields([], Flatten(before), useInt);
      if AllApart(before, useInt) {
        ApartMade(before, useInt);
        RecordAdded(before, last, |last|, useInt);
      } else if r.Some? {
        FlattenedFields(before);
        FieldsStayLost([], Flatten(before), [], useInt);
        LostAmongMore(r.value, records, n);
        FieldsStayLost(r.value, last, records, useInt);
      }
    }
  }

  lemma LostIsOther(elems: seq<Value>, records: seq<Record>)
    requires Lost(elems, records)
    ensures elems != Objects(records)
  {
    var j: nat :| j < |elems| && j < |records| && Wrong(elems, j, records[j]);
    assert Objects(records)[j] == Obj(records[j]);
  }

  lemma BuildsIff(records: seq<Record>, useInt: bool)
    requires AreRecords(records)
    ensures AddFields([], Flatten(records), useInt) == Some(Objects(records)) <==> AllApart(records, useInt)
  {
    var r := AddFields([], Flatten(records), useInt);
    if NoProto(records) {
      RecordsBuild(records, useInt);
      if r.Some? && Lost(r.value, records) { LostIsOther(r.value, records); }
    } else {
      var i :| 0 <= i < |records| && records[i][0].key == PROTO;
      assert !Apart(records, i, useInt);
      FlattenedFields(records);
      FieldsStayLost([], Flatten(records), [], useInt);
      if r == Some(Objects(records)) {
        assert r.value[i] == Obj(records[i]);
        assert HasKey(records[i], PROTO);
      }
    }
  }

  // ----- The printed names

  /** The pairs of a form with the fields `name[][key]`. */
  function FieldPairs(name: string, fields: seq<Entry>): (pairs: seq<Pair>)
    ensures |pairs| == |fields|
    ensures forall i | 0 <= i < |pairs| ::
              pairs[i] == Pair(Bracketed(Bracketed(name, ""), fields[i].key), fields[i].value)
  {
    seq(|fields|, i requires 0 <= i < |fields| => Pair(Bracketed(Bracketed(name, ""), fields[i].key), fields[i].value))
  }

  lemma FieldName(name: string, key: string)
    requires PlainKey(name) && PlainKey(key)
    ensures SplitInputNameIntoKeysArray(Bracketed(Bracketed(name, ""), key)) == [name, "", key]
  {
    var keys := ["", key];
    SplitRoot(name);
    SplitUnder(name, keys);
    assert keys[1..] == [key] && [key][1..] == [];
    assert Under(Bracketed(name, ""), [key]) == Under(Bracketed(Bracketed(name, ""), key), []);
    assert [name] + keys == [name, "", key];
  }

  /** An object with an array under one name, if it has elements. */
  function UnderName(name: string, elems: seq<Value>): Value {
    if elems == [] then Obj([]) else Obj([Entry(name, Arr(elems))])
  }

  lemma NamedFieldSet(name: string, elems: seq<Value>, e: Entry, useInt: bool)
    requires PlainKey(name) && Inherited(false, name).Undefined? && IsField(e) && AllMade(elems)
    ensures DeepSet(UnderName(name, elems), [name, "", e.key], e.value, useInt) ==
      match AddField(elems, e, useInt) case None => None case Some(more) => Some(UnderName(name, more))
  {
    var keys := [name, "", e.key];
    assert keys[1..] == ["", e.key];
    ProtoIsInherited();
    OneFieldAdds(elems, e, useInt);
    ArrayStays(elems, e, useInt);
    var r := AddField(elems, e, useInt);
    if elems == [] {
      assert NewContainer("", useInt) == Arr([]);
      if r.Some? { assert [] + [Entry(name, Arr(r.value))] == [Entry(name, Arr(r.value))]; }
    } else {
      var was := Entry(name, Arr(elems));
      assert Find([was], name) == 0;
      if r.Some? {
        var now := Entry(name, Arr(r.value));
        assert [was][0 := now] == [now];
      }
    }
  }

  lemma ArrayStays(elems: seq<Value>, e: Entry, useInt: bool)
    ensures var r := DeepSet(Arr(elems), ["", e.key], e.value, useInt); r.Some? ==> r.value.Arr?
  {
    assert [""] + [e.key] == ["", e.key];
    EmptyKeySets(elems, [e.key], e.value, useInt);
  }

  lemma OnePairMore(o: Value, pairs: seq<Pair>, p: Pair, useInt: bool)
    ensures Rebuilt(o, pairs + [p], useInt) ==
      match Rebuilt(o, pairs, useInt)
      case None => None
      case Some(o1) => DeepSet(o1, SplitInputNameIntoKeysArray(p.name), p.value, useInt)
  {
    assert (pairs + [p])[..|pairs|] == pairs;
  }

  lemma LastPair(name: string, fields: seq<Entry>, e: Entry, useInt: bool)
    requires PlainKey(name) && IsField(e)
    ensures Rebuilt(Obj([]), FieldPairs(name, fields + [e]), useInt) ==
      match Rebuilt(Obj([]), FieldPairs(name, fields), useInt)
      case None => None
      case Some(o) => DeepSet(o, [name, "", e.key], e.value, useInt)
  {
    var p := Pair(Bracketed(Bracketed(name, ""), e.key), e.value);
    assert FieldPairs(name, fields + [e]) == FieldPairs(name, fields) + [p];
    FieldName(name, e.key);
    OnePairMore(Obj([]), FieldPairs(name, fields), p, useInt);
  }

  lemma {:induction false} FormBuilds(name: string, fields: seq<Entry>, useInt: bool)
    requires PlainKey(name) && Inherited(false, name).Undefined? && Fields(fields)
    ensures Rebuilt(Obj([]), FieldPairs(name, fields), useInt) ==
      match AddFields([], fields, useInt) case None => None case Some(elems) => Some(UnderName(name, elems))
  {
    if fields != [] {
      var n := |fields| - 1;
      var before, e := fields[..n], fields[n];
      assert fields == before + [e];
      FormBuilds(name, before, useInt);
      LastPair(name, before, e, useInt);
      FieldsStayLost([], before, [], useInt);
      if AddFields([], before, useInt).Some? {
        NamedFieldSet(name, AddFields([], before, useInt).value, e, useInt);
      }
    }
  }

  lemma BelowInherited(name: string, key: string, value: Value, useInt: bool)
    requires !Inherited(false, name).Undefined? && name != ""
    ensures DeepSet(Obj([]), [name, "", key], value, useInt).None?
  {
    var keys := [name, "", key];
    assert keys[1..] == ["", key];
    assert DeepSet(Builtin, ["", key], value, useInt).None?;
  }

  /** Nothing is built under an inherited name. */
  lemma {:induction false} InheritedNameBuildsNothing(name: string, fields: seq<Entry>, useInt: bool)
    requires PlainKey(name) && !Inherited(false, name).Undefined? && fields != [] && Fields(fields)
    ensures Rebuilt(Obj([]), FieldPairs(name, fields), useInt).None?
  {
    var n := |fields| - 1;
    var before, e := fields[..n], fields[n];
    assert fields == before + [e];
    LastPair(name, before, e, useInt);
    if n == 0 {
      assert Rebuilt(Obj([]), FieldPairs(name, before), useInt) == Some(Obj([]));
      BelowInherited(name, e.key, e.value, useInt);
    } else {
      InheritedNameBuildsNothing(name, before, useInt);
    }
  }

  /** The fields of several records, sent as `name[][key]` in order, come back as these records if and
      only if the name is not inherited, and every record starts with a key that the record before has
      or that is inherited, and with no index if those are for arrays, and goes on with keys that are
      not inherited. */
  lemma RecordsComeBackIff(name: string, records: seq<Record>, useInt: bool)
    requires PlainKey(name) && records != [] && AreRecords(records)
    ensures Rebuilt(Obj([]), FieldPairs(name, Flatten(records)), useInt)
              == Some(Obj([Entry(name, Arr(Objects(records)))]))
       <==> Inherited(false, name).Undefined? && AllApart(records, useInt)
  {
    FlattenedFields(records);
    if Inherited(false, name).Undefined? {
      FormBuilds(name, Flatten(records), useInt);
      BuildsIff(records, useInt);
    } else {
      InheritedNameBuildsNothing(name, Flatten(records), useInt);
    }
  }
}
