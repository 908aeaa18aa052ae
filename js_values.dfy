/** JavaScript values as the client and the server pass them around (`any`
    objects, parsed JSON bodies), with JavaScript's truthiness and the `||`
    operator that the source uses for defaults. */
module JsValues {

  /** A JavaScript value. `Undefined` is what reading a missing property
      yields; `Num` is an IEEE double, modelled as a real (NaN and the
      infinities cannot arrive through JSON and are not modelled). */
  datatype Json =
    | Undefined
    | Null
    | Bool(b: bool)
    | Num(n: real)
    | Str(s: string)
    | Arr(items: seq<Json>)
    | Obj(fields: map<string, Json>)

  /** JavaScript truthiness: `undefined`, `null`, `false`, `0` and `""` are
      falsy; every array and every object, even an empty one, is truthy. */
  predicate Truthy(v: Json) {
    match v
    case Undefined => false
    case Null => false
    case Bool(b) => b
    case Num(n) => n != 0.0
    case Str(s) => s != ""
    case Arr(_) => true
    case Obj(_) => true
  }

  /** `a || b`: the left operand when it is truthy, otherwise the right one. */
  function Or(a: Json, b: Json): (r: Json)
    ensures Truthy(r) <==> Truthy(a) || Truthy(b)
    ensures r == a || r == b
  {
    if Truthy(a) then a else b
  }

  /** Property read `o[key]` on a plain object: a missing key reads as `undefined`. */
  function Get(o: map<string, Json>, key: string): (v: Json)
    ensures key !in o ==> v == Undefined
  {
    if key in o then o[key] else Undefined
  }
}
