/**
 * The JavaScript values the protocol client sees after `JSON.parse`, and the
 * two pieces of JavaScript semantics the client relies on: truthiness and
 * property access. Numbers are integers here (see README, "Left out").
 */
module JsValues {
  datatype JsValue =
    | Undefined
    | Null
    | Bool(b: bool)
    | Num(n: int)
    | Str(s: string)
    | Arr(items: seq<JsValue>)
    | Obj(fields: map<string, JsValue>)

  /** JavaScript truthiness: `undefined`, `null`, `false`, `0` and `""` are falsy. */
  predicate Truthy(v: JsValue)
    ensures Truthy(v) <==> v !in {Undefined, Null, Bool(false), Num(0), Str("")}
  {
    match v
    case Undefined => false
    case Null => false
    case Bool(b) => b
    case Num(n) => n != 0
    case Str(s) => s != ""
    case Arr(_) => true
    case Obj(_) => true
  }

  /**
   * `v[key]` for a value that is not `null` or `undefined` (those throw), for
   * the one key the client reads this way, `pingInterval`: only an object can
   * carry it as an own property. (For keys such as `length` or inherited
   * names JavaScript gives other values; the model does not read them.)
   */
  function Prop(v: JsValue, key: string): (r: JsValue)
    requires !v.Null? && !v.Undefined?
    ensures !v.Obj? ==> r == Undefined
    ensures v.Obj? ==> (r != Undefined <==> key in v.fields && v.fields[key] != Undefined)
    ensures v.Obj? && key in v.fields ==> r == v.fields[key]
  {
    match v
    case Obj(fields) => if key in fields then fields[key] else Undefined
    case _ => Undefined
  }
}
