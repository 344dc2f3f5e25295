/** JavaScript values as the page sees them after `response.json()` has parsed a
    body, plus `undefined` for a property that is absent. The page's component
    state (settings, client records, task id, feed entries) is made of these. */
module JsValues {

  datatype Option<+T> = None | Some(value: T)

  /** Numbers are integers here: the page only compares and truth-tests them. */
  datatype JsValue =
    | JsUndefined
    | JsNull
    | JsBool(b: bool)
    | JsNumber(n: int)
    | JsString(s: string)
    | JsArray(items: seq<JsValue>)
    | JsObject(fields: map<string, JsValue>)

  /** Reading a property of one of these throws a TypeError. */
  predicate IsNullish(v: JsValue) {
    v.JsUndefined? || v.JsNull?
  }

  /** ToBoolean: undefined, null, false, 0 and "" are the falsy values. */
  predicate Truthy(v: JsValue) {
    match v
    case JsUndefined => false
    case JsNull => false
    case JsBool(b) => b
    case JsNumber(n) => n != 0
    case JsString(s) => s != ""
    case JsArray(_) => true
    case JsObject(_) => true
  }

  /** The property read `v.key`. Only plain data keys are read by the page, and
      no primitive, array or object has those from its prototype, so a key an
      object does not own reads as undefined. */
  function Get(v: JsValue, key: string): JsValue
    requires !IsNullish(v)
  {
    if v.JsObject? && key in v.fields then v.fields[key] else JsUndefined
  }

  /** `a === b`. Primitives compare by value. Arrays and objects compare by
      reference, and two of them taken from different parsed bodies are never
      the same reference, so they never compare equal here. */
  predicate StrictEquals(a: JsValue, b: JsValue) {
    !a.JsArray? && !a.JsObject? && a == b
  }

  /** `a || b` */
  function Or(a: JsValue, b: JsValue): JsValue {
    if Truthy(a) then a else b
  }

  /** `parts.join(sep)` */
  function JoinWith(parts: seq<string>, sep: string): string
  {
    if |parts| == 0 then ""
    else if |parts| == 1 then parts[0]
    else parts[0] + sep + JoinWith(parts[1..], sep)
  }

  /** Joining two non-empty lists puts one separator between the two joins. */
  lemma {:induction false} JoinWithConcat(xs: seq<string>, ys: seq<string>, sep: string)
    requires xs != [] && ys != []
    ensures JoinWith(xs + ys, sep) == JoinWith(xs, sep) + sep + JoinWith(ys, sep)
  {
    if |xs| == 1 {
      assert (xs + ys)[1..] == ys;
    } else {
      assert (xs + ys)[1..] == xs[1..] + ys;
      JoinWithConcat(xs[1..], ys, sep);
    }
  }

  /** A join starts with its first part, so it is empty only when that part is. */
  lemma {:induction false} JoinWithStartsWithFirst(parts: seq<string>, sep: string)
    requires parts != []
    ensures parts[0] <= JoinWith(parts, sep)
  {
  }

  function Digit(d: nat): char
    requires d < 10
  {
    "0123456789"[d]
  }

  function NatToDecimal(n: nat): string
  {
    if n < 10 then [Digit(n)] else NatToDecimal(n / 10) + [Digit(n % 10)]
  }

  /** `String(v)`, as `new Error(v)` applies it to its message argument. An
      array converts as its elements joined by commas, with null and undefined
      elements as empty strings. */
  function ToJsString(v: JsValue): string
  {
    match v
    case JsUndefined => "undefined"
    case JsNull => "null"
    case JsBool(b) => if b then "true" else "false"
    case JsNumber(n) => if n < 0 then "-" + NatToDecimal(-n) else NatToDecimal(n)
    case JsString(s) => s
    case JsArray(items) =>
      JoinWith(seq(|items|, i requires 0 <= i < |items| =>
                 if IsNullish(items[i]) then "" else ToJsString(items[i])), ",")
    case JsObject(_) => "[object Object]"
  }

  /** The message of the TypeError V8 throws for `v.key` when `v` is nullish. */
  function ReadOfNullishMessage(v: JsValue, key: string): string
    requires IsNullish(v)
  {
    "Cannot read properties of " + (if v.JsNull? then "null" else "undefined")
    + " (reading '" + key + "')"
  }
}
