/**
 Coercing logged values to JSON-native ones.

 `str` is Python's str(): any function that leaves a string as it is. A dictionary is the
 sequence of its entries in insertion order; a set is its elements in iteration order.
 */
module Jsonable {
  import opened Runs

  datatype Value =
    | NoneValue
    | Str(s: string)
    | Int(i: int)
    | Float(r: real)
    | Bool(b: bool)
    | Dict(entries: seq<Entry>)
    | ListOf(elements: seq<Value>)
    | TupleOf(elements: seq<Value>)
    | SetOf(elements: seq<Value>)      // set or frozenset
    | Other(id: int)                   // bytes, exceptions, datetimes, any other object

  datatype Entry = Entry(key: Value, value: Value)

  ghost predicate LeavesStrings(str: Value -> string) {
    forall s: string :: str(Str(s)) == s
  }

  function Init<A>(s: seq<A>): seq<A>
    requires s != []
  {
    s[..|s| - 1]
  }

  function Last<A>(s: seq<A>): A
    requires s != []
  {
    s[|s| - 1]
  }

  // ---------------------------------------------------------------- the coercion

  /** d[key] = value: in place if the key is there, else at the end. */
  function Insert(entries: seq<Entry>, key: Value, value: Value): seq<Entry> {
    if entries == [] then [Entry(key, value)]
    else if Last(entries).key == key then Init(entries) + [Entry(key, value)]
    else if Lookup(Init(entries), key).None? then entries + [Entry(key, value)]
    else Insert(Init(entries), key, value) + [Last(entries)]
  }

  /** d.get(key) */
  function Lookup(entries: seq<Entry>, key: Value): Option<Value> {
    if entries == [] then None
    else if Last(entries).key == key then Some(Last(entries).value)
    else Lookup(Init(entries), key)
  }

  /** _to_jsonable */
  function ToJsonable(str: Value -> string, v: Value): Value
    decreases v, 0
  {
    match v
    case NoneValue => v
    case Str(_) => v
    case Int(_) => v
    case Float(_) => v
    case Bool(_) => v
    case Dict(entries) => Dict(ToEntries(str, entries))
    case ListOf(elements) => ListOf(ToElements(str, elements))
    case TupleOf(elements) => ListOf(ToElements(str, elements))
    case SetOf(elements) => ListOf(ToElements(str, elements))
    case Other(_) => Str(str(v))
  }

  function ToElements(str: Value -> string, elements: seq<Value>): seq<Value>
    decreases elements, 1
  {
    if elements == [] then []
    else
      assert Last(elements) in elements;
      ToElements(str, Init(elements)) + [ToJsonable(str, Last(elements))]
  }

  /** The dictionary comprehension: a later key that reads the same replaces the value. */
  function ToEntries(str: Value -> string, entries: seq<Entry>): seq<Entry>
    decreases entries, 1
  {
    if entries == [] then []
    else
      var e := CoerceEntry(str, Last(entries));
      Insert(ToEntries(str, Init(entries)), e.key, e.value)
  }

  function CoerceEntry(str: Value -> string, e: Entry): Entry
    decreases e, 0
  {
    Entry(Str(str(e.key)), ToJsonable(str, e.value))
  }

  // ---------------------------------------------------------------- only JSON-native values

  predicate Native(v: Value)
    decreases v, 0
  {
    match v
    case Dict(entries) => NativeEntries(entries)
    case ListOf(elements) => NativeElements(elements)
    case TupleOf(_) => false
    case SetOf(_) => false
    case Other(_) => false
    case _ => true
  }

  predicate NativeElements(elements: seq<Value>)
    decreases elements, 1
  {
    elements != [] ==>
      assert Last(elements) in elements;
      NativeElements(Init(elements)) && Native(Last(elements))
  }

  /** String keys, no key twice, native values. */
  predicate NativeEntries(entries: seq<Entry>)
    decreases entries, 1
  {
    entries != [] ==>
      && NativeEntries(Init(entries))
      && NativeEntry(Last(entries))
      && Lookup(Init(entries), Last(entries).key).None?
  }

  predicate NativeEntry(e: Entry)
    decreases e, 0
  {
    e.key.Str? && Native(e.value)
  }

  lemma {:induction false} InsertLookup(entries: seq<Entry>, key: Value, value: Value, other: Value)
    ensures Insert(entries, key, value) != []
    ensures Lookup(Insert(entries, key, value), other) == if other == key then Some(value) else Lookup(entries, other)
  {
    var inserted := Insert(entries, key, value);
    if entries == [] {
      assert Init(inserted) == [];
    } else if Last(entries).key == key {
      assert Init(inserted) == Init(entries);
    } else if Lookup(Init(entries), key).None? {
      assert Init(inserted) == entries;
    } else {
      assert Init(inserted) == Insert(Init(entries), key, value);
      InsertLookup(Init(entries), key, value, other);
    }
  }

  lemma {:induction false} InsertNative(entries: seq<Entry>, s: string, value: Value)
    requires NativeEntries(entries) && Native(value)
    ensures NativeEntries(Insert(entries, Str(s), value))
  {
    var inserted := Insert(entries, Str(s), value);
    if entries == [] {
      assert Init(inserted) == [];
    } else if Last(entries).key == Str(s) {
      assert Init(inserted) == Init(entries);
    } else if Lookup(Init(entries), Str(s)).None? {
      assert Init(inserted) == entries;
    } else {
      assert Init(inserted) == Insert(Init(entries), Str(s), value);
      InsertNative(Init(entries), s, value);
      InsertLookup(Init(entries), Str(s), value, Last(entries).key);
    }
  }

  /** Whatever was logged, the coerced value has only JSON-native parts. */
  lemma {:induction false} ToJsonableIsNative(str: Value -> string, v: Value)
    ensures Native(ToJsonable(str, v))
    decreases v, 0
  {
    match v
    case Dict(entries) => ToEntriesNative(str, entries);
    case ListOf(elements) => ToElementsNative(str, elements);
    case TupleOf(elements) => ToElementsNative(str, elements);
    case SetOf(elements) => ToElementsNative(str, elements);
    case _ =>
  }

  lemma {:induction false} ToElementsNative(str: Value -> string, elements: seq<Value>)
    ensures NativeElements(ToElements(str, elements))
    decreases elements, 1
  {
    if elements != [] {
      assert Last(elements) in elements;
      ToElementsNative(str, Init(elements));
      ToJsonableIsNative(str, Last(elements));
      var all := ToElements(str, elements);
      assert Init(all) == ToElements(str, Init(elements));
    }
  }

  lemma {:induction false} ToEntriesNative(str: Value -> string, entries: seq<Entry>)
    ensures NativeEntries(ToEntries(str, entries))
    decreases entries, 1
  {
    if entries != [] {
      var e := CoerceEntry(str, Last(entries));
      ToEntriesNative(str, Init(entries));
      CoerceEntryNative(str, Last(entries));
      InsertNative(ToEntries(str, Init(entries)), e.key.s, e.value);
    }
  }

  lemma {:induction false} CoerceEntryNative(str: Value -> string, e: Entry)
    ensures NativeEntry(CoerceEntry(str, e))
    decreases e, 0
  {
    ToJsonableIsNative(str, e.value);
  }

  // ---------------------------------------------------------------- nothing more to do the second time

  lemma {:induction false} NativeUnchanged(str: Value -> string, v: Value)
    requires LeavesStrings(str) && Native(v)
    ensures ToJsonable(str, v) == v
    decreases v, 0
  {
    match v
    case Dict(entries) => NativeEntriesUnchanged(str, entries);
    case ListOf(elements) => NativeElementsUnchanged(str, elements);
    case _ =>
  }

  lemma {:induction false} NativeElementsUnchanged(str: Value -> string, elements: seq<Value>)
    requires LeavesStrings(str) && NativeElements(elements)
    ensures ToElements(str, elements) == elements
    decreases elements, 1
  {
    if elements != [] {
      assert Last(elements) in elements;
      NativeElementsUnchanged(str, Init(elements));
      NativeUnchanged(str, Last(elements));
    }
  }

  lemma {:induction false} NativeEntriesUnchanged(str: Value -> string, entries: seq<Entry>)
    requires LeavesStrings(str) && NativeEntries(entries)
    ensures ToEntries(str, entries) == entries
    decreases entries, 1
  {
    if entries != [] {
      NativeEntriesUnchanged(str, Init(entries));
      NativeEntryUnchanged(str, Last(entries));
      InsertFresh(Init(entries), Last(entries).key, Last(entries).value);
    }
  }

  lemma {:induction false} NativeEntryUnchanged(str: Value -> string, e: Entry)
    requires LeavesStrings(str) && NativeEntry(e)
    ensures CoerceEntry(str, e) == e
    decreases e, 0
  {
    NativeUnchanged(str, e.value);
  }

  lemma InsertFresh(entries: seq<Entry>, key: Value, value: Value)
    requires Lookup(entries, key).None?
    ensures Insert(entries, key, value) == entries + [Entry(key, value)]
  {
  }

  /** A value is left as it is exactly when it is native already; so coercing twice is coercing once. */
  lemma UnchangedExactlyWhenNative(str: Value -> string, v: Value)
    requires LeavesStrings(str)
    ensures ToJsonable(str, v) == v <==> Native(v)
    ensures ToJsonable(str, ToJsonable(str, v)) == ToJsonable(str, v)
  {
    ToJsonableIsNative(str, v);
    NativeUnchanged(str, ToJsonable(str, v));
    if Native(v) {
      NativeUnchanged(str, v);
    }
  }

  // ---------------------------------------------------------------- what is kept

  /** The value of the last entry whose key reads as `s`. */
  function LastReadingAs(str: Value -> string, entries: seq<Entry>, s: string): Option<Value> {
    if entries == [] then None
    else if str(Last(entries).key) == s then Some(Last(entries).value)
    else LastReadingAs(str, Init(entries), s)
  }

  /** Looking a key up after the coercion finds the coerced value of the last key that reads like it. */
  lemma {:induction false} CoercedLookup(str: Value -> string, entries: seq<Entry>, s: string)
    ensures Lookup(ToEntries(str, entries), Str(s)) ==
            match LastReadingAs(str, entries, s) { case None => None case Some(v) => Some(ToJsonable(str, v)) }
  {
    if entries != [] {
      var last := Last(entries);
      CoercedLookup(str, Init(entries), s);
      InsertLookup(ToEntries(str, Init(entries)), Str(str(last.key)), ToJsonable(str, last.value), Str(s));
    }
  }

  /** A list, tuple or set becomes the list of its coerced elements, in order. */
  lemma {:induction false} CoercedElements(str: Value -> string, elements: seq<Value>)
    ensures |ToElements(str, elements)| == |elements|
    ensures forall k :: 0 <= k < |elements| ==> ToElements(str, elements)[k] == ToJsonable(str, elements[k])
  {
    if elements != [] {
      CoercedElements(str, Init(elements));
    }
  }

  /** Under the key `s` the coerced entries have the coerced value of the last key that reads like it, if any. */
  ghost predicate KeepsKey(str: Value -> string, entries: seq<Entry>, coerced: seq<Entry>, s: string) {
    match LastReadingAs(str, entries, s)
    case None => Lookup(coerced, Str(s)).None?
    case Some(v) => Lookup(coerced, Str(s)) == Some(ToJsonable(str, v))
  }

  /** What each kind of value becomes. */
  lemma CoercedByKind(str: Value -> string, v: Value)
    ensures v.NoneValue? || v.Str? || v.Int? || v.Float? || v.Bool? ==> ToJsonable(str, v) == v
    ensures v.Other? ==> ToJsonable(str, v) == Str(str(v))
    ensures v.Dict? ==> ToJsonable(str, v).Dict?
    ensures v.Dict? ==> forall s: string :: KeepsKey(str, v.entries, ToJsonable(str, v).entries, s)
    ensures v.ListOf? || v.TupleOf? || v.SetOf? ==>
              && ToJsonable(str, v).ListOf? && |ToJsonable(str, v).elements| == |v.elements|
              && (forall k :: 0 <= k < |v.elements| ==>
                    ToJsonable(str, v).elements[k] == ToJsonable(str, v.elements[k]))
  {
    match v
    case Dict(entries) =>
      forall s: string
        ensures KeepsKey(str, entries, ToEntries(str, entries), s)
      {
        CoercedLookup(str, entries, s);
      }
    case ListOf(elements) => CoercedElements(str, elements);
    case TupleOf(elements) => CoercedElements(str, elements);
    case SetOf(elements) => CoercedElements(str, elements);
    case _ =>
  }
}
