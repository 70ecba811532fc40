/**
 * JSON values as the modelled code sees them after decoding, with the Python
 * semantics it applies to them: truthiness, `isinstance(v, (int, float))`,
 * `int(v)`, `float(v)`, `==` and `in`.
 */
module Json {
  import opened Wrappers
  import PyStr

  /** A decoded JSON value; an object keeps its keys in insertion order, as a Python dict does. */
  datatype Json =
    | Null
    | Bool(bval: bool)
    | Int(ival: int)
    | Real(rval: real)
    | Str(str: string)
    | Arr(items: seq<Json>)
    | Obj(fields: seq<(string, Json)>)

  /** Python truthiness: `None`, `False`, `0`, `0.0`, `""`, `[]` and `{}` are false. */
  predicate Truthy(v: Json) {
    match v
    case Null => false
    case Bool(b) => b
    case Int(i) => i != 0
    case Real(r) => r != 0.0
    case Str(s) => s != ""
    case Arr(a) => a != []
    case Obj(f) => f != []
  }

  /** `isinstance(v, (int, float))`; a Python `bool` is an `int`. */
  predicate IsNumber(v: Json) {
    v.Bool? || v.Int? || v.Real?
  }

  function NumberValue(v: Json): real
    requires IsNumber(v)
  {
    match v
    case Bool(b) => if b then 1.0 else 0.0
    case Int(i) => i as real
    case Real(r) => r
  }

  /** `int(r)` for a float: truncation toward zero. */
  function Trunc(r: real): int {
    if r >= 0.0 then r.Floor else -((-r).Floor)
  }

  /** `int(v)`. */
  function PyInt(v: Json): Result<int> {
    match v
    case Bool(b) => Ok(if b then 1 else 0)
    case Int(i) => Ok(i)
    case Real(r) => Ok(Trunc(r))
    case Str(s) => (match PyStr.ParseInt(s) case Some(n) => Ok(n) case None => Raised(ValueError))
    case _ => Raised(TypeError)
  }

  /** `float(v)`. */
  function PyFloat(v: Json): Result<real> {
    if IsNumber(v) then Ok(NumberValue(v))
    else match v
      case Str(s) => (match PyStr.ParseFloat(s) case Some(x) => Ok(x) case None => Raised(ValueError))
      case _ => Raised(TypeError)
  }

  /** The first value stored under `key` in an object's fields. */
  function Get(fields: seq<(string, Json)>, key: string): Option<Json> {
    if fields == [] then None
    else if fields[0].0 == key then Some(fields[0].1)
    else Get(fields[1..], key)
  }

  /** `d.get(key, default)` on a dict. */
  function GetOr(fields: seq<(string, Json)>, key: string, default: Json): Json {
    Get(fields, key).GetOr(default)
  }

  /** Python `a == b`: numbers compare by value across bool, int and float. */
  predicate PyEq(a: Json, b: Json)
    decreases a
  {
    if IsNumber(a) && IsNumber(b) then NumberValue(a) == NumberValue(b)
    else match a
      case Null => b.Null?
      case Str(x) => b.Str? && x == b.str
      case Arr(xs) =>
        b.Arr? && |xs| == |b.items| && forall i :: 0 <= i < |xs| ==> PyEq(xs[i], b.items[i])
      case Obj(xf) =>
        b.Obj?
        && (forall i :: 0 <= i < |xf| ==> match Get(b.fields, xf[i].0)
                                          case Some(w) => PyEq(xf[i].1, w)
                                          case None => false)
        && (forall j :: 0 <= j < |b.fields| ==> Get(xf, b.fields[j].0).Some?)
      case _ => false
  }

  predicate Hashable(v: Json) {
    !v.Arr? && !v.Obj?
  }

  /** Python `x in container`, with the TypeError it raises on a number, a bool or `None`. */
  function PyIn(x: Json, container: Json): Result<bool> {
    match container
    case Str(hay) => if x.Str? then Ok(PyStr.Contains(hay, x.str)) else Raised(TypeError)
    case Arr(items) => Ok(exists i :: 0 <= i < |items| && PyEq(x, items[i]))
    case Obj(fields) =>
      if Hashable(x) then Ok(x.Str? && Get(fields, x.str).Some?) else Raised(TypeError)
    case _ => Raised(TypeError)
  }
}
