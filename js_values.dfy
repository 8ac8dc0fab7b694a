/**
 * JSON values as the application reads them out of identity-provider
 * metadata and request payloads, with the JavaScript conversions applied to
 * them: truthiness, `Number(...)` and the nullish fallback `??`.
 */
module JsValues {
  import opened JsStrings

  datatype Option<+T> = None | Some(value: T) {
    function GetOr(default: T): T {
      match this
      case Some(v) => v
      case None => default
    }
  }

  datatype Result<+T, +E> = Ok(value: T) | Err(error: E)

  /** A JSON value; JSON has no `undefined`, `NaN` or infinities. */
  datatype Json =
    | JNull
    | JBool(b: bool)
    | JNum(n: real)
    | JStr(s: string)
    | JArr(items: seq<Json>)
    | JObj(fields: map<string, Json>)

  /** A metadata object: the keys present and their values. A missing key reads as `undefined`. */
  type Metadata = map<string, Json>

  function Get(m: Metadata, key: string): Option<Json> {
    if key in m then Some(m[key]) else None
  }

  /** A subset is no larger than its superset. */
  lemma SubsetCard<T>(a: set<T>, b: set<T>)
    requires a <= b
    ensures |a| <= |b|
  {
    assert b == a + (b - a);
  }

  /** Truthiness of a nullable string: `null`, `undefined` and `""` are falsy. */
  predicate Present(s: Option<string>) {
    s.Some? && s.value != ""
  }

  /** A JavaScript number. */
  datatype JsNumber = Finite(value: real) | NaN | PosInfinity | NegInfinity

  /** JavaScript truthiness of a JSON value. */
  predicate Truthy(v: Json) {
    match v
    case JNull => false
    case JBool(b) => b
    case JNum(n) => n != 0.0
    case JStr(s) => s != ""
    case JArr(_) => true
    case JObj(_) => true
  }

  /** Truthiness of a property read: a missing key is `undefined`, which is falsy. */
  predicate TruthyKey(m: Metadata, key: string) {
    key in m && Truthy(m[key])
  }

  /** `v ?? fallback` on a property read: only a missing key or `null` falls back. */
  function Coalesce(v: Option<Json>, fallback: Json): (r: Json)
    ensures v.Some? && !v.value.JNull? ==> r == v.value
    ensures v.None? || v.value.JNull? ==> r == fallback
  {
    match v
    case Some(x) => if x.JNull? then fallback else x
    case None => fallback
  }

  /** `Number(s)` for a string: surrounding white space is ignored, the empty
      string is 0, an optionally signed run of decimal digits is its value, and
      anything else is `NaN`. */
  function StringToNumber(s: string): (r: JsNumber)
    ensures r.Finite? || r.NaN?
    ensures AllDigits(s) && s != [] ==> r == Finite(DigitsValue(s) as real)
  {
    var t := Trim(s);
    if t == [] then Finite(0.0)
    else if AllDigits(t) then Finite(DigitsValue(t) as real)
    else if |t| > 1 && t[0] == '-' && AllDigits(t[1..]) then Finite(-(DigitsValue(t[1..]) as real))
    else if |t| > 1 && t[0] == '+' && AllDigits(t[1..]) then Finite(DigitsValue(t[1..]) as real)
    else NaN
  }

  /** `Number(v)` for a JSON value. An array converts through its string form,
      so `[]` and `[null]` are 0, `[x]` is `Number(String(x))`, and an array of
      two or more elements (whose string form holds a comma) is `NaN`. */
  function ToNumber(v: Json): (r: JsNumber)
    ensures r.Finite? || r.NaN?
    ensures v.JNum? ==> r == Finite(v.n)
    ensures v.JNull? ==> r == Finite(0.0)
  {
    match v
    case JNull => Finite(0.0)
    case JBool(b) => Finite(if b then 1.0 else 0.0)
    case JNum(n) => Finite(n)
    case JStr(s) => StringToNumber(s)
    case JObj(_) => NaN
    case JArr(items) =>
      if |items| == 0 then Finite(0.0)
      else if |items| > 1 then NaN
      else
        match items[0]
        case JNull => Finite(0.0)
        case JBool(_) => NaN
        case JNum(n) => Finite(n)
        case JStr(s) => StringToNumber(s)
        case JObj(_) => NaN
        case JArr(inner) => ToNumber(JArr(inner))
  }

  /** `Number(x) || 0`: `NaN` and 0 both become 0. */
  function NumberOrZero(n: JsNumber): (r: real)
    ensures n.Finite? ==> r == n.value
    ensures n.NaN? ==> r == 0.0
  {
    if n.Finite? then n.value else 0.0
  }

  /** JavaScript `Math.floor` on a finite number. */
  function Floor(r: real): int {
    r.Floor
  }
}
