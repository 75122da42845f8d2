/**
 The small fragment of JavaScript values and operators that the tokenization
 handler relies on: the JSON-like values a caller can send over the frame bus,
 truthiness, `a || b`, and reading the `vault` option.
 */
module JsValues {

  /** A value carried over the bus. Numbers are integers here: NaN and
      fractional numbers are not modelled. */
  datatype JsValue =
    | JUndefined
    | JNull
    | JBool(b: bool)
    | JNumber(n: int)
    | JString(s: string)
    | JArray(elements: seq<JsValue>)
    | JObject(fields: map<string, JsValue>)

  /** ECMAScript ToBoolean restricted to the values above. */
  predicate Truthy(v: JsValue) {
    match v
    case JUndefined => false
    case JNull => false
    case JBool(b) => b
    case JNumber(n) => n != 0
    case JString(s) => s != ""
    case JArray(_) => true
    case JObject(_) => true
  }

  /** `a || b`: the left operand when it is truthy, otherwise the right one. */
  function Or(a: JsValue, b: JsValue): JsValue {
    if Truthy(a) then a else b
  }

  /** The property read `v.vault` on a value that is neither `undefined` nor
      `null` (reading a property of those throws). Neither primitives, arrays
      nor plain objects inherit a property called `vault`, so only an object's
      own field can answer, and a missing one reads as `undefined`. */
  function Vault(v: JsValue): JsValue
    requires v != JUndefined && v != JNull
  {
    match v
    case JObject(fields) => if "vault" in fields then fields["vault"] else JUndefined
    case _ => JUndefined
  }
}
