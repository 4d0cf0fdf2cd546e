/** The slice of JavaScript's value semantics that the user model relies on:
    the values its callers pass in, truthiness (`if (!x)`), property access
    on plain objects and the string conversion done by `+` on a string. */
module JsValues {

  /** The integers a JavaScript number holds exactly, from -(2^53) to 2^53.
      Within this range `String(n)` is the plain decimal numeral of `n`. */
  type SafeInteger = n: int | -0x20_0000_0000_0000 <= n <= 0x20_0000_0000_0000

  /** A JavaScript value. Numbers are restricted to the safe integers; an
      `Error` instance is kept apart from plain objects because it is what
      the model rejects with and it converts to a string differently. */
  datatype JsValue =
    | Undefined
    | Null
    | Bool(b: bool)
    | Num(n: SafeInteger)
    | Str(s: string)
    | ErrorObj(message: string)
    | Obj(fields: map<string, JsValue>)

  /** A plain object used as a record of named fields. */
  type JsObject = map<string, JsValue>

  /** JavaScript's ToBoolean: what `if (x)` tests. */
  predicate Truthy(v: JsValue)
  {
    match v
    case Undefined => false
    case Null => false
    case Bool(b) => b
    case Num(n) => n != 0
    case Str(s) => s != ""
    case ErrorObj(_) => true
    case Obj(_) => true
  }

  /** `o[key]`: a missing property reads as `undefined`. */
  function Get(o: JsObject, key: string): JsValue
  {
    if key in o then o[key] else Undefined
  }

  /** JavaScript's ToString, as used by `'text' + v` and by `o[v]` to turn
      `v` into a property key. */
  function ToJsString(v: JsValue): string
  {
    match v
    case Undefined => "undefined"
    case Null => "null"
    case Bool(b) => if b then "true" else "false"
    case Num(n) => if n < 0 then "-" + Digits(-n) else Digits(n)
    case Str(s) => s
    case ErrorObj(m) => if m == "" then "Error" else "Error: " + m
    case Obj(_) => "[object Object]"
  }

  function DigitChar(d: nat): char
    requires d < 10
  {
    "0123456789"[d]
  }

  function DigitValue(c: char): nat
  {
    if '0' <= c <= '9' then (c as int - '0' as int) as nat else 0
  }

  /** The decimal numeral of `n`, most significant digit first. */
  function Digits(n: nat): (s: string)
    ensures |s| > 0
    decreases n
  {
    if n < 10 then [DigitChar(n)] else Digits(n / 10) + [DigitChar(n % 10)]
  }

  /** Reads a decimal numeral back into the number it denotes. */
  function ParseDigits(s: string): nat
    decreases |s|
  {
    if s == [] then 0 else ParseDigits(s[..|s| - 1]) * 10 + DigitValue(s[|s| - 1])
  }

  lemma DigitRoundTrip(d: nat)
    requires d < 10
    ensures DigitValue(DigitChar(d)) == d
  {
  }

  /** The numeral of a number denotes that number, so converting a numeric
      identifier into message text loses nothing. */
  lemma {:induction false} DigitsRoundTrip(n: nat)
    ensures ParseDigits(Digits(n)) == n
    decreases n
  {
    DigitRoundTrip(n % 10);
    if n >= 10 {
      var hi := Digits(n / 10);
      var s := hi + [DigitChar(n % 10)];
      assert s[..|s| - 1] == hi;
      DigitsRoundTrip(n / 10);
    }
  }
}
