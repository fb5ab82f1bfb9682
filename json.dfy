/**
 * Already-decoded JSON values and the few pieces of Python semantics the bots
 * rely on: truthiness, `dict.get`, and the value-returning `or`.
 */
module Json {
  import opened Options

  /** A decoded JSON value. Floating-point numbers are not modelled. */
  datatype Value =
    | VNone
    | VBool(b: bool)
    | VInt(n: int)
    | VStr(s: string)
    | VList(items: seq<Value>)
    | VDict(fields: map<string, Value>)

  /** Python truthiness: `None`, `False`, `0`, `""`, `[]` and `{}` are false. */
  predicate Truthy(v: Value)
  {
    match v
    case VNone => false
    case VBool(b) => b
    case VInt(n) => n != 0
    case VStr(s) => s != ""
    case VList(items) => |items| > 0
    case VDict(fields) => |fields| > 0
  }

  /** `d.get(key)`: the value under `key`, or `None` when the key is absent. */
  function Get(d: map<string, Value>, key: string): (v: Value)
    ensures key in d ==> v == d[key]
    ensures key !in d ==> v == VNone
  {
    GetOr(d, key, VNone)
  }

  /** `d.get(key, default)`. */
  function GetOr(d: map<string, Value>, key: string, default: Value): Value
  {
    if key in d then d[key] else default
  }

  /** Python's `a or b`: `a` when `a` is truthy, otherwise `b`. */
  function Or(a: Value, b: Value): (v: Value)
    ensures Truthy(v) <==> Truthy(a) || Truthy(b)
    ensures Truthy(a) ==> v == a
  {
    if Truthy(a) then a else b
  }

  /**
   * The elements of a JSON list as objects, or `None` when some element is not
   * an object (a loop that calls `.get` on every element raises on it).
   */
  function Objects(items: seq<Value>): (r: Option<seq<map<string, Value>>>)
    ensures r.Some? <==> forall i :: 0 <= i < |items| ==> items[i].VDict?
    ensures r.Some? ==> |r.value| == |items|
    ensures r.Some? ==> forall i :: 0 <= i < |items| ==> items[i] == VDict(r.value[i])
  {
    if items == [] then Some([])
    else
      match (items[0], Objects(items[1..]))
      case (VDict(m), Some(rest)) => Some([m] + rest)
      case _ => None
  }
}
