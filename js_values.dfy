/**
 * The JavaScript values the server sees: request bodies decoded by express.json()
 * and model replies decoded by JSON.parse, together with the language's
 * truthiness rule and property access.
 */
module JsValues {

  /**
   * A JavaScript value as JSON.parse produces it. A finite Number is written
   * as the shortest decimal that rounds back to it, significand * 10^exponent,
   * which is the decimal Number::toString prints (the double nearest 1e23 is
   * Num(1, 23), not its exact binary value). A literal too large for a double
   * (1e400) parses to NumInfinity, one too small (1e-400) to zero. JSON never
   * yields NaN.
   */
  datatype JsValue =
    | Undefined
    | Null
    | Bool(b: bool)
    | Num(significand: int, exponent: int)
    | NumInfinity(negative: bool)
    | Str(s: string)
    | Arr(elems: seq<JsValue>)
    | Obj(props: map<string, JsValue>)

  /** ToBoolean, section 7.1.2 of ECMA-262: what `!v` negates. */
  predicate ToBoolean(v: JsValue) {
    match v
    case Undefined => false
    case Null => false
    case Bool(b) => b
    case Num(m, _) => m != 0
    case NumInfinity(_) => true
    case Str(s) => s != []
    case Arr(_) => true
    case Obj(_) => true
  }

  /** The values whose property access throws a TypeError. */
  predicate IsNullish(v: JsValue) {
    v.Undefined? || v.Null?
  }

  /**
   * `v.key` for a value that is not null or undefined. Only own properties of
   * objects are found: the keys read by the server ("text", "name", "rollno",
   * "address") are not inherited by any value JSON can produce.
   */
  function Prop(v: JsValue, key: string): JsValue
    requires !IsNullish(v)
  {
    if v.Obj? && key in v.props then v.props[key] else Undefined
  }

  /** `v || {}`: a falsy value is replaced by an empty object. */
  function OrEmpty(v: JsValue): (r: JsValue)
    ensures !IsNullish(r)
    ensures ToBoolean(v) ==> r == v
    ensures !ToBoolean(v) ==> forall k :: Prop(r, k) == Undefined
  {
    if ToBoolean(v) then v else Obj(map[])
  }

  /**
   * The falsy values are undefined, null, false, the empty string and the
   * Numbers equal to zero; every other value, each array and object included, is truthy.
   */
  lemma FalsyValues(v: JsValue)
    ensures !ToBoolean(v) <==> v in {Undefined, Null, Bool(false), Str("")} || (v.Num? && v.significand == 0)
  {
  }

  /** WhiteSpace and LineTerminator code points (sections 12.2 and 12.3 of ECMA-262). */
  predicate IsWhiteSpace(c: char) {
    || c == '\t' || c == '\n' || c == '\U{000B}' || c == '\U{000C}' || c == '\r'
    || c == ' ' || c == '\U{00A0}' || c == '\U{1680}'
    || ('\U{2000}' <= c <= '\U{200A}')
    || c == '\U{2028}' || c == '\U{2029}' || c == '\U{202F}' || c == '\U{205F}'
    || c == '\U{3000}' || c == '\U{FEFF}'
  }

  /** An ASCII decimal digit, the class `\d` of a regular expression without the `u` flag. */
  predicate IsDigit(c: char) {
    '0' <= c <= '9'
  }

  predicate AllDigits(s: string) {
    forall i :: 0 <= i < |s| ==> IsDigit(s[i])
  }

  predicate AllWhiteSpace(s: string) {
    forall i :: 0 <= i < |s| ==> IsWhiteSpace(s[i])
  }
}
