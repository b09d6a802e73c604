/**
 * The Python values the backend passes around: database cells, parsed tool
 * arguments, tool results and chart payloads. A Python `dict` is an ordered
 * list of (key, value) entries, so that insertion order, which `dict`
 * preserves and `json.dumps` follows, is part of the value.
 */
module Values {
  import opened Wrappers

  datatype Value =
    | Null                                      // None
    | Bool(b: bool)
    | Int(i: int)
    | Float(r: real)                            // a float, by its exact value
    | Str(s: string)
    | Decimal(coefficient: int, exponent: int)  // decimal.Decimal: coefficient * 10^exponent
    | Opaque(typeName: string)                  // any other object (datetime, bytes, ...)
    | List(items: seq<Value>)
    | Dict(entries: seq<(string, Value)>)

  /** `type(v).__name__` */
  function TypeName(v: Value): string {
    match v
    case Null => "NoneType"
    case Bool(_) => "bool"
    case Int(_) => "int"
    case Float(_) => "float"
    case Str(_) => "str"
    case Decimal(_, _) => "Decimal"
    case Opaque(n) => n
    case List(_) => "list"
    case Dict(_) => "dict"
  }

  /** `bool(v)`; objects of other types are taken to be true, as `datetime` is. */
  predicate Truthy(v: Value) {
    match v
    case Null => false
    case Bool(b) => b
    case Int(i) => i != 0
    case Float(r) => r != 0.0
    case Str(s) => s != ""
    case Decimal(c, _) => c != 0
    case Opaque(_) => true
    case List(items) => items != []
    case Dict(entries) => entries != []
  }

  function Pow10(e: int): (r: real)
    ensures r > 0.0
    decreases if e < 0 then -e else e
  {
    if e == 0 then 1.0
    else if e > 0 then 10.0 * Pow10(e - 1)
    else Pow10(e + 1) / 10.0
  }

  /** `float(Decimal(...))`, taken exactly: rounding to binary64 is not modelled. */
  function DecimalToFloat(coefficient: int, exponent: int): (r: real)
    ensures (r == 0.0) <==> (coefficient == 0)
  {
    coefficient as real * Pow10(exponent)
  }

  // ---------------------------------------------------------------------------
  // Dictionaries as ordered entry lists

  type Entries = seq<(string, Value)>

  function Keys(entries: Entries): (ks: seq<string>)
    ensures |ks| == |entries|
    ensures forall i :: 0 <= i < |entries| ==> ks[i] == entries[i].0
  {
    if entries == [] then [] else [entries[0].0] + Keys(entries[1..])
  }

  predicate DistinctKeys(entries: Entries) {
    forall i, j :: 0 <= i < j < |entries| ==> entries[i].0 != entries[j].0
  }

  /** `d.get(key)` */
  function Get(entries: Entries, key: string): (r: Option<Value>)
    ensures r.None? <==> key !in Keys(entries)
    ensures r.Some? ==> exists i :: 0 <= i < |entries| && entries[i] == (key, r.value)
  {
    if entries == [] then None
    else if entries[0].0 == key then Some(entries[0].1)
    else Get(entries[1..], key)
  }

  /** `d[key] = value`: an existing key keeps its position, a new key goes last. */
  function Put(entries: Entries, key: string, value: Value): Entries
  {
    if entries == [] then [(key, value)]
    else if entries[0].0 == key then [(key, value)] + entries[1..]
    else [entries[0]] + Put(entries[1..], key, value)
  }

  /** After `d[key] = value`, `d.get(key)` is `value`. */
  lemma {:induction false} PutGet(entries: Entries, key: string, value: Value)
    ensures Get(Put(entries, key, value), key) == Some(value)
  {
    if entries != [] && entries[0].0 != key {
      PutGet(entries[1..], key, value);
    }
  }

  /** Storing one key leaves the lookup of every other key as it was. */
  lemma {:induction false} PutOther(entries: Entries, key: string, value: Value, other: string)
    requires other != key
    ensures Get(Put(entries, key, value), other) == Get(entries, other)
  {
    if entries != [] && entries[0].0 != key {
      PutOther(entries[1..], key, value, other);
    }
  }

  lemma {:induction false} PutKeys(entries: Entries, key: string, value: Value)
    ensures key in Keys(entries) ==> Keys(Put(entries, key, value)) == Keys(entries)
    ensures key !in Keys(entries) ==> Keys(Put(entries, key, value)) == Keys(entries) + [key]
  {
    if entries != [] && entries[0].0 != key {
      PutKeys(entries[1..], key, value);
      assert Keys(entries) == [entries[0].0] + Keys(entries[1..]);
    }
  }

  /** Storing a key the dict does not have appends it. */
  lemma {:induction false} PutNew(entries: Entries, key: string, value: Value)
    requires key !in Keys(entries)
    ensures Put(entries, key, value) == entries + [(key, value)]
  {
    if entries != [] {
      assert Keys(entries) == [entries[0].0] + Keys(entries[1..]);
      PutNew(entries[1..], key, value);
      assert entries == [entries[0]] + entries[1..];
    }
  }

  // ---------------------------------------------------------------------------
  // JSON serialisation

  function FirstSome(xs: seq<Option<string>>): (r: Option<string>)
    ensures r.None? <==> forall i :: 0 <= i < |xs| ==> xs[i].None?
  {
    if xs == [] then None else if xs[0].Some? then xs[0] else FirstSome(xs[1..])
  }

  /**
   * The message of the TypeError `json.dumps(v)` raises, or None when `v` is
   * serialisable. Decimal and objects of other types are refused; the first
   * one met in document order is named. The JSON text itself is not
   * modelled: a serialisable value stands for its own dump.
   */
  function DumpsError(v: Value): (r: Option<string>)
    decreases v
  {
    match v
    case Decimal(_, _) => Some("Object of type Decimal is not JSON serializable")
    case Opaque(n) => Some("Object of type " + n + " is not JSON serializable")
    case List(items) =>
      FirstSome(seq(|items|, i requires 0 <= i < |items| => DumpsError(items[i])))
    case Dict(entries) =>
      FirstSome(seq(|entries|, i requires 0 <= i < |entries| => DumpsError(entries[i].1)))
    case _ => None
  }
}
