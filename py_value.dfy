/** The dynamically typed values the core handles: request parameters, filter
    values and document metadata, as they arrive from JSON. A dict keeps its
    entries in insertion order, as Python's `dict` does. */
module PyValue {
  import opened Wrappers

  datatype Value =
    | Null
    | Bool(b: bool)
    | Int(i: int)
    | Str(s: string)
    | List(items: seq<Value>)
    | Dict(entries: seq<Entry>)

  /** One key of a dict with its value. */
  datatype Entry = Entry(key: string, value: Value)

  /** Python truthiness, `bool(v)`. */
  predicate Truthy(v: Value)
  {
    match v
    case Null => false
    case Bool(b) => b
    case Int(i) => i != 0
    case Str(s) => s != ""
    case List(items) => items != []
    case Dict(entries) => entries != []
  }

  /** The keys of a dict, in insertion order. */
  function Keys(d: seq<Entry>): (ks: seq<string>)
    ensures |ks| == |d|
    ensures forall k :: 0 <= k < |d| ==> ks[k] == d[k].key
  {
    if d == [] then [] else [d[0].key] + Keys(d[1..])
  }

  /** A dict never holds the same key twice. */
  predicate UniqueKeys(d: seq<Entry>)
  {
    forall i, j :: 0 <= i < j < |d| ==> d[i].key != d[j].key
  }

  /** `d.get(key)`: the value stored under `key`, if any. */
  function Get(d: seq<Entry>, key: string): (r: Option<Value>)
    ensures r.Some? <==> key in Keys(d)
    ensures r.Some? ==> exists k :: 0 <= k < |d| && d[k] == Entry(key, r.value)
  {
    if d == [] then None
    else if d[0].key == key then Some(d[0].value)
    else
      var r := Get(d[1..], key);
      assert Keys(d) == [d[0].key] + Keys(d[1..]);
      r
  }

  /** `d[key] = value`: an existing key keeps its position and gets the new value,
      a new key is appended at the end. */
  function Set(d: seq<Entry>, key: string, value: Value): (r: seq<Entry>)
  {
    if d == [] then [Entry(key, value)]
    else if d[0].key == key then [Entry(key, value)] + d[1..]
    else [d[0]] + Set(d[1..], key, value)
  }

  /** After `d[key] = value`, `d[key]` is `value`. */
  lemma {:induction false} SetThenGet(d: seq<Entry>, key: string, value: Value)
    ensures Get(Set(d, key, value), key) == Some(value)
  {
    if d != [] && d[0].key != key {
      SetThenGet(d[1..], key, value);
    }
  }

  /** `d[key] = value` leaves every other key as it was. */
  lemma {:induction false} SetKeepsOthers(d: seq<Entry>, key: string, value: Value, other: string)
    requires other != key
    ensures Get(Set(d, key, value), other) == Get(d, other)
  {
    if d != [] && d[0].key != key {
      SetKeepsOthers(d[1..], key, value, other);
    }
  }

  /** `d[key] = value` keeps the key order and appends a key only when it is new. */
  lemma {:induction false} SetKeys(d: seq<Entry>, key: string, value: Value)
    ensures Keys(Set(d, key, value)) == if key in Keys(d) then Keys(d) else Keys(d) + [key]
  {
    if d != [] {
      assert Keys(d) == [d[0].key] + Keys(d[1..]);
      if d[0].key != key {
        SetKeys(d[1..], key, value);
        assert Keys(Set(d, key, value)) == [d[0].key] + Keys(Set(d[1..], key, value));
      } else {
        assert Keys(Set(d, key, value)) == [key] + Keys(d[1..]);
      }
    }
  }

  /** Assigning the same value to the same key twice is the same as once. */
  lemma {:induction false} SetIdempotent(d: seq<Entry>, key: string, value: Value)
    ensures Set(Set(d, key, value), key, value) == Set(d, key, value)
  {
    if d != [] && d[0].key != key {
      SetIdempotent(d[1..], key, value);
    }
  }

  /** Looking a key up in a dict with one more entry at its end. */
  lemma {:induction false} GetAppendOne(d: seq<Entry>, x: Entry, key: string)
    ensures Get(d + [x], key) ==
      if key in Keys(d) then Get(d, key) else if x.key == key then Some(x.value) else None
  {
    if d != [] {
      assert Keys(d) == [d[0].key] + Keys(d[1..]);
      if d[0].key != key {
        assert (d + [x])[1..] == d[1..] + [x];
        GetAppendOne(d[1..], x, key);
      }
    }
  }
}
