/**
 * The JavaScript values the handler reads: what JSON.parse produces, plus
 * `undefined` for a property that is absent.
 */
module JsValues {
  import opened Wrappers

  /**
   * A value as JSON.parse builds it. A number is a real: JSON text has no NaN,
   * and although an overlong literal such as `1e400` parses to `Infinity`, the
   * handler only tests a number for truthiness (`Infinity` is truthy like any
   * non-zero real) or converts it to a string, which never throws for a number.
   */
  datatype Json =
    | JNull
    | JBool(b: bool)
    | JNum(n: real)
    | JStr(s: string)
    | JArr(items: seq<Json>)
    | JObj(fields: map<string, Json>)

  /** A value read out of parsed data: a JSON value, or `undefined`. */
  datatype JsVal = Undefined | Val(json: Json)

  /** `null` and `undefined`: reading a property of either throws a TypeError. */
  predicate Nullish(v: JsVal) {
    v == Undefined || v == Val(JNull)
  }

  /** JavaScript truthiness: `undefined`, `null`, `false`, `0` and `""` are falsy, everything else is truthy. */
  predicate Truthy(v: JsVal) {
    match v
    case Undefined => false
    case Val(j) =>
      match j
      case JNull => false
      case JBool(b) => b
      case JNum(n) => n != 0.0
      case JStr(s) => s != ""
      case JArr(_) => true
      case JObj(_) => true
  }

  /**
   * The property names the handler uses. None of them is an array index,
   * `length`, or a name inherited from a built-in prototype, so on anything
   * but a parsed object they read as `undefined`.
   */
  predicate PlainKey(key: string) {
    key in {"event", "type", "token", "challenge", "text", "channel", "user", "bot_id", "id", "X-Slack-Retry-Num"}
  }

  /** The property read `v[key]` on a value that is not nullish. */
  function Get(v: JsVal, key: string): (r: JsVal)
    requires !Nullish(v) && PlainKey(key)
  {
    match v.json
    case JObj(m) => if key in m then Val(m[key]) else Undefined
    case _ => Undefined
  }

  /**
   * The `in` operator, `key in v`. It needs an object on its right: on a
   * primitive, `null` or `undefined` it throws a TypeError, written None.
   */
  function HasProperty(key: string, v: JsVal): (r: Option<bool>)
    requires PlainKey(key)
  {
    match v
    case Undefined => None
    case Val(j) =>
      match j
      case JObj(m) => Some(key in m)
      case JArr(_) => Some(false)
      case _ => None
  }

  /**
   * Whether converting `v` to a string (`'...' + v`) throws a TypeError.
   * Primitives always convert. A parsed object converts through the
   * inherited `valueOf` and `toString` unless it has an own `toString` key:
   * that value is never callable, and the inherited `valueOf` gives no
   * primitive, so the conversion throws. An array converts by joining its
   * elements, so it throws when one of its elements does.
   */
  predicate ToStringThrows(v: JsVal) {
    v.Val? && JsonToStringThrows(v.json)
  }

  predicate JsonToStringThrows(j: Json) {
    match j
    case JObj(m) => "toString" in m
    case JArr(items) => exists i :: 0 <= i < |items| && JsonToStringThrows(items[i])
    case _ => false
  }
}
