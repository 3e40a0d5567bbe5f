/**
 * The JavaScript values the create handler and the clock inspect: numbers
 * (IEEE doubles, abstracted to a real value or one of the three special
 * values), the JSON values `request.json()` can produce, and the tests
 * `typeof`, `Number.isInteger`, `Number.isNaN`, `<` and `>` on them.
 */
module JsValues {

  /** A JavaScript number. `-0` is `Finite(0.0)`; rounding to a double is not modelled. */
  datatype JsNumber = Finite(value: real) | NaN | PositiveInfinity | NegativeInfinity

  /**
   * A value produced by `JSON.parse`. A number too large for a double parses to an
   * infinity. Strings hold Unicode scalar values, so a lone surrogate is not representable.
   */
  datatype Json =
    | JString(text: string)
    | JNumber(number: JsNumber)
    | JBool(flag: bool)
    | JNull
    | JArray(items: seq<Json>)
    | JObject(properties: map<string, Json>)

  /** What `typeof` answers for a JSON value (`null`, arrays and objects are all "object"). */
  function TypeOf(j: Json): (t: string)
    ensures t == "string" <==> j.JString?
    ensures t == "number" <==> j.JNumber?
  {
    match j
    case JString(_) => "string"
    case JNumber(_) => "number"
    case JBool(_) => "boolean"
    case JNull => "object"
    case JArray(_) => "object"
    case JObject(_) => "object"
  }

  /** A real with no fractional part. */
  predicate IsIntegral(x: real) {
    x.Floor as real == x
  }

  /** `Number.isInteger(n)`: finite and without a fractional part. */
  predicate IsInteger(n: JsNumber) {
    n.Finite? && IsIntegral(n.value)
  }

  /** `Number.isNaN(n)`. */
  predicate IsNaN(n: JsNumber) {
    n.NaN?
  }

  /** `n < k` for a finite bound `k`: false whenever `n` is NaN. */
  predicate LessThan(n: JsNumber, k: real) {
    match n
    case Finite(x) => x < k
    case NaN => false
    case PositiveInfinity => false
    case NegativeInfinity => true
  }

  /** `n > k` for a finite bound `k`: false whenever `n` is NaN. */
  predicate GreaterThan(n: JsNumber, k: real) {
    match n
    case Finite(x) => x > k
    case NaN => false
    case PositiveInfinity => true
    case NegativeInfinity => false
  }

  /** The JavaScript number that holds the integer `n`. */
  function FromInt(n: int): (r: JsNumber)
    ensures IsInteger(r)
    ensures r.value.Floor == n
  {
    Finite(n as real)
  }

  /** The integer an integral JavaScript number holds. */
  function ToInt(n: JsNumber): (i: int)
    requires IsInteger(n)
    ensures FromInt(i) == n
  {
    n.value.Floor
  }

  /** `FromInt` and `ToInt` are inverse: integer-valued numbers and integers correspond one to one. */
  lemma IntRoundTrip(i: int)
    ensures ToInt(FromInt(i)) == i
  {
  }

  /** An integral number is at least one exactly when `n < 1` is false. */
  lemma IntegerNotBelowOne(n: JsNumber)
    requires IsInteger(n)
    ensures !LessThan(n, 1.0) <==> ToInt(n) >= 1
  {
  }
}
