/**
 * A decoded JSON document as Python's `json.loads` hands it to the receive loop
 * (dict, list, str, int or float, bool, None), together with the parts of
 * Python's semantics the loop relies on: `d.get(k)`, `d[k]`, `x[i]`, and
 * arithmetic on a value, each with the exception it raises when it fails.
 */
module Json {
  import opened Wrappers

  datatype Value =
    | Null
    | Bool(b: bool)
    | Number(n: real)          // a JSON int or float
    | Str(s: string)
    | Array(items: seq<Value>)
    | Object(fields: map<string, Value>)

  /** The Python exceptions that a datagram can make the loop body raise. */
  datatype PyError =
    | AttributeError           // `.get` on something that is not a dict
    | KeyError                 // a missing dict key
    | IndexError               // a list or str index past the end
    | TypeError                // subscripting a scalar, arithmetic on a non-number
    | ValueError               // bytes that are not UTF-8 text or not JSON

  /** `fields.get(key)`: `None` when the key is absent. */
  function Get(fields: map<string, Value>, key: string): (v: Value)
    ensures key in fields ==> v == fields[key]
    ensures key !in fields ==> v == Null
  {
    if key in fields then fields[key] else Null
  }

  /** `fields[key]` on a dict. */
  function Lookup(fields: map<string, Value>, key: string): (r: Result<Value, PyError>)
    ensures r.Success? <==> key in fields
    ensures r.Success? ==> r.value == fields[key]
    ensures r.Failure? ==> r.error == KeyError
  {
    if key in fields then Success(fields[key]) else Failure(KeyError)
  }

  /**
   * `v[i]` for a non-negative literal index: a list yields its element, a str
   * yields a one-character str, a dict has no integer keys, and a number, a
   * bool or None cannot be subscripted.
   */
  function Subscript(v: Value, i: nat): (r: Result<Value, PyError>)
    ensures r.Success? <==> (v.Array? && i < |v.items|) || (v.Str? && i < |v.s|)
    ensures r.Success? && v.Array? ==> r.value == v.items[i]
    ensures r.Success? && v.Str? ==> r.value == Str([v.s[i]])
    ensures r.Failure? ==>
      r.error == (if v.Array? || v.Str? then IndexError else if v.Object? then KeyError else TypeError)
  {
    match v
    case Array(items) => if i < |items| then Success(items[i]) else Failure(IndexError)
    case Str(s) => if i < |s| then Success(Str([s[i]])) else Failure(IndexError)
    case Object(_) => Failure(KeyError)
    case _ => Failure(TypeError)
  }

  /** Values Python arithmetic accepts here: int, float, and bool (True is 1). */
  predicate IsNumber(v: Value) {
    v.Number? || v.Bool?
  }

  function AsReal(v: Value): real
    requires IsNumber(v)
  {
    if v.Number? then v.n else if v.b then 1.0 else 0.0
  }

  /** Using `v` in arithmetic: a TypeError unless it is a number. */
  function Numeric(v: Value): (r: Result<real, PyError>)
    ensures r.Success? <==> IsNumber(v)
    ensures r.Success? ==> r.value == AsReal(v)
    ensures r.Failure? ==> r.error == TypeError
  {
    if IsNumber(v) then Success(AsReal(v)) else Failure(TypeError)
  }
}
