/** JSON-like values as the firmware sees them after `json.load`: configuration
    documents, sensor readings and control payloads. Python's truthiness and
    Python's `==` are written out, because the code branches on both. */
module JsonValue {

  datatype Option<+T> = None | Some(value: T)

  datatype Json =
    | Null
    | Bool(b: bool)
    | Int(i: int)
    | Str(s: string)
    | Arr(items: seq<Json>)
    | Obj(fields: map<string, Json>)

  /** Python truthiness: `None`, `False`, `0`, `""`, `[]` and `{}` are false. */
  predicate Truthy(j: Json) {
    match j
    case Null => false
    case Bool(b) => b
    case Int(i) => i != 0
    case Str(s) => s != ""
    case Arr(items) => items != []
    case Obj(fields) => fields != map[]
  }

  /** `bool` is a subclass of `int` in Python, so both take part in arithmetic. */
  predicate IsNumber(j: Json) {
    j.Bool? || j.Int?
  }

  function NumberValue(j: Json): int
    requires IsNumber(j)
  {
    if j.Bool? then (if j.b then 1 else 0) else j.i
  }

  /** Python's `==` on decoded JSON: numbers compare by value (so `1 == True`),
      lists element-wise, dicts key-wise; values of different kinds differ. */
  predicate PyEq(x: Json, y: Json)
    decreases x
  {
    if IsNumber(x) && IsNumber(y) then NumberValue(x) == NumberValue(y)
    else match x
      case Null => y.Null?
      case Str(s) => y.Str? && y.s == s
      case Arr(xs) =>
        y.Arr? && |xs| == |y.items| && forall i :: 0 <= i < |xs| ==> PyEq(xs[i], y.items[i])
      case Obj(xm) =>
        y.Obj? && xm.Keys == y.fields.Keys && forall k :: k in xm ==> PyEq(xm[k], y.fields[k])
      case _ => false
  }

  lemma {:induction false} PyEqReflexive(x: Json)
    ensures PyEq(x, x)
    decreases x
  {
    match x
    case Arr(xs) =>
      forall i | 0 <= i < |xs| ensures PyEq(xs[i], xs[i]) {
        PyEqReflexive(xs[i]);
      }
    case Obj(xm) =>
      forall k | k in xm ensures PyEq(xm[k], xm[k]) {
        PyEqReflexive(xm[k]);
      }
    case _ =>
  }

  /** `d.get(key, default)` on a dict. */
  function GetOr(d: map<string, Json>, key: string, default: Json): (r: Json)
    ensures key in d ==> r == d[key]
    ensures key !in d ==> r == default
  {
    if key in d then d[key] else default
  }
}
