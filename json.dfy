/**
 * The dynamically typed values that the Python handlers receive, build and
 * return: what `json.loads` produces, plus `Decimal` (what the DynamoDB writer
 * needs instead of `float`).  A Python `dict` is an ordered list of fields,
 * in insertion order, as CPython keeps it.
 */
module Json {
  import opened Wrappers

  datatype Value =
    | Null
    | Bool(b: bool)
    | Int(i: int)
    | Float(f: real)      // a Python float, taken as the real it denotes
    | Decimal(d: real)    // a decimal.Decimal
    | Str(s: string)
    | List(items: seq<Value>)
    | Object(fields: seq<Field>)

  datatype Field = Field(key: string, value: Value)

  /** The keys of a dict, in order. */
  function Keys(fields: seq<Field>): (ks: seq<string>)
    ensures |ks| == |fields|
    ensures forall i :: 0 <= i < |fields| ==> ks[i] == fields[i].key
  {
    if fields == [] then [] else [fields[0].key] + Keys(fields[1..])
  }

  /** `d.get(key)`: the value stored under `key`, if any. */
  function Get(fields: seq<Field>, key: string): (r: Option<Value>)
    ensures r.None? <==> key !in Keys(fields)
  {
    if fields == [] then None
    else if fields[0].key == key then Some(fields[0].value)
    else Get(fields[1..], key)
  }

  /** Looking up a key in a dict with a first field. */
  lemma GetCons(f: Field, rest: seq<Field>, key: string)
    ensures Get([f] + rest, key) == if f.key == key then Some(f.value) else Get(rest, key)
    ensures Keys([f] + rest) == [f.key] + Keys(rest)
  {
    assert ([f] + rest)[1..] == rest;
  }

  /** `key in d` */
  predicate Has(fields: seq<Field>, key: string)
  {
    key in Keys(fields)
  }

  /** `d.get(key, default)` */
  function GetOr(fields: seq<Field>, key: string, default: Value): Value
  {
    Get(fields, key).GetOr(default)
  }

  /**
   * `d[key] = v`: an existing key keeps its position and gets the new value,
   * a new key is added at the end.
   */
  function Set(fields: seq<Field>, key: string, v: Value): (r: seq<Field>)
    ensures |r| == |fields| || |r| == |fields| + 1
  {
    if fields == [] then [Field(key, v)]
    else if fields[0].key == key then [Field(key, v)] + fields[1..]
    else [fields[0]] + Set(fields[1..], key, v)
  }

  /** After `d[key] = v`, `key` holds `v` and every other key holds what it held. */
  lemma {:induction false} SetGet(fields: seq<Field>, key: string, v: Value, k: string)
    ensures Get(Set(fields, key, v), k) == if k == key then Some(v) else Get(fields, k)
  {
    if fields != [] {
      var r := Set(fields, key, v);
      if fields[0].key == key {
        assert r[1..] == fields[1..];
      } else {
        assert r[1..] == Set(fields[1..], key, v);
        SetGet(fields[1..], key, v, k);
      }
    }
  }

  /** `d[key] = v` keeps the key order; a new key goes last. */
  lemma {:induction false} SetKeys(fields: seq<Field>, key: string, v: Value)
    ensures Has(fields, key) ==> Keys(Set(fields, key, v)) == Keys(fields)
    ensures !Has(fields, key) ==> Keys(Set(fields, key, v)) == Keys(fields) + [key]
  {
    if fields != [] {
      var r := Set(fields, key, v);
      assert Keys(fields) == [fields[0].key] + Keys(fields[1..]);
      assert Keys(r) == [r[0].key] + Keys(r[1..]);
      if fields[0].key == key {
        assert r[1..] == fields[1..];
      } else {
        assert r[1..] == Set(fields[1..], key, v);
        SetKeys(fields[1..], key, v);
      }
    }
  }

  /** The exceptions a handler raises on a malformed value. */
  datatype PyError = AttributeError | KeyError | TypeError

  /** `data.get("state", {})` on a request body: a body that is not a dict has no `.get`. */
  function StateOf(data: Value): (r: Result<Value, PyError>)
    ensures !data.Object? <==> r == Err(AttributeError)
    ensures data.Object? && !Has(data.fields, "state") ==> r == Ok(Object([]))
    ensures data.Object? && Has(data.fields, "state") ==> r == Ok(Get(data.fields, "state").value)
  {
    if data.Object? then Ok(GetOr(data.fields, "state", Object([]))) else Err(AttributeError)
  }

  /** Python truthiness of a JSON value. */
  predicate Truthy(v: Value)
  {
    match v
    case Null => false
    case Bool(b) => b
    case Int(i) => i != 0
    case Float(f) => f != 0.0
    case Decimal(d) => d != 0.0
    case Str(s) => s != ""
    case List(xs) => xs != []
    case Object(fs) => fs != []
  }
}
