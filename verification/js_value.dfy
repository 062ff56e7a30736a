/**
 * JSON-shaped JavaScript values as they arrive in a parsed request body,
 * and JavaScript's notion of truthiness on them.
 */
module JsValue {

  /**
   * A value a request body field can hold. `DateOf(source)` is the result of
   * `new Date(source)`: the instant obtained by parsing `source`, which this
   * model leaves uninterpreted. The model tells dates apart by their source,
   * which is finer than JavaScript: two different strings naming the same
   * instant give equal dates there but different `DateOf` values here.
   */
  datatype Value =
    | Null
    | Bool(b: bool)
    | Num(n: real)
    | Str(s: string)
    | Arr(items: seq<Value>)
    | Obj(fields: map<string, Value>)
    | DateOf(source: Value)

  /** A plain JavaScript object: a field absent from the map reads as `undefined`. */
  type Record = map<string, Value>

  /**
   * JavaScript truthiness: `null`, `false`, `0` and `""` are falsy; arrays,
   * objects and dates are truthy whatever they hold. (NaN cannot occur in
   * a parsed JSON body; an overflowing literal becomes `Infinity`, which is
   * truthy like any non-zero number.)
   */
  predicate Truthy(v: Value) {
    match v
    case Null => false
    case Bool(b) => b
    case Num(n) => n != 0.0
    case Str(s) => s != ""
    case _ => true
  }

  /**
   * Whether `new Date(v)` throws a `TypeError`. The constructor converts
   * `v` to a primitive by calling its `valueOf` and `toString` methods. A
   * parsed object with its own `toString` field has no callable
   * `toString`, and its inherited `valueOf` returns the object itself, so
   * the conversion fails. An array converts by joining its items, so it
   * fails exactly when one of its items does. Every other parsed value
   * converts.
   */
  predicate DateConstructorThrows(v: Value) {
    match v
    case Obj(fields) => "toString" in fields
    case Arr(items) => exists i :: 0 <= i < |items| && DateConstructorThrows(items[i])
    case _ => false
  }

  /** `!!record[key]`, where an absent field is `undefined` and so falsy. */
  predicate HasTruthy(r: Record, key: string) {
    key in r && Truthy(r[key])
  }
}
