/**
  The slice of JavaScript's value model that the image API client relies on:
  dynamically typed values, truthiness (`!x`, `a || b`), string conversion
  inside template literals, `Array.prototype.join`, `String.prototype.toUpperCase`
  on ASCII text, and the errors the client throws.
 */
module JsValues {

  datatype Option<+T> = None | Some(value: T)

  /** A call that either returns a value or throws. */
  datatype Result<+T, +E> = Success(value: T) | Failure(error: E)

  /**
    A JavaScript value as far as the client inspects it. Numbers are modelled
    by their integer value (NaN and fractions are not modelled); every object
    (including arrays and functions) is `Object`.
   */
  datatype JsValue =
    | Undefined
    | Null
    | Bool(b: bool)
    | Number(n: int)
    | Str(s: string)
    | Object

  /** JavaScript truthiness: the falsy values are undefined, null, false, 0 and "". */
  predicate Truthy(v: JsValue) {
    match v
    case Undefined => false
    case Null => false
    case Bool(b) => b
    case Number(n) => n != 0
    case Str(s) => s != ""
    case Object => true
  }

  /** The value of `a || b`. */
  function Or(a: JsValue, b: JsValue): JsValue {
    if Truthy(a) then a else b
  }

  /** The value a parameter with default `d` takes when the caller passes `v`. */
  function ArgOrDefault(v: JsValue, d: JsValue): JsValue {
    if v == Undefined then d else v
  }

  predicate IsDigit(c: char) {
    '0' <= c <= '9'
  }

  /** The value of a decimal digit. */
  function DigitValue(c: char): int {
    c as int - '0' as int
  }

  function DigitChar(d: nat): (c: char)
    requires d < 10
    ensures IsDigit(c) && DigitValue(c) == d
  {
    ('0' as int + d) as char
  }

  /** The number a string of decimal digits denotes, most significant digit first. */
  function DecimalValue(s: string): int
    decreases |s|
  {
    if s == [] then 0 else 10 * DecimalValue(s[..|s| - 1]) + DigitValue(s[|s| - 1])
  }

  /** Decimal notation of a natural number, most significant digit first. */
  function NatToString(n: nat): (s: string)
    ensures |s| > 0
    ensures forall i :: 0 <= i < |s| ==> IsDigit(s[i])
    ensures DecimalValue(s) == n
    decreases n
  {
    if n < 10 then [DigitChar(n)] else NatToString(n / 10) + [DigitChar(n % 10)]
  }

  /** `String(v)`, as a template literal applies it. */
  function ToString(v: JsValue): string {
    match v
    case Undefined => "undefined"
    case Null => "null"
    case Bool(b) => if b then "true" else "false"
    case Number(n) => if n < 0 then "-" + NatToString(-n) else NatToString(n)
    case Str(s) => s
    case Object => "[object Object]"
  }

  /**
    `s.length`: JavaScript strings are sequences of UTF-16 code units, so a
    character above U+FFFF (a surrogate pair) counts twice.
   */
  function Utf16Length(s: string): (n: nat)
    ensures |s| <= n <= 2 * |s|
    decreases |s|
  {
    if s == [] then 0 else (if s[0] as int > 0xFFFF then 2 else 1) + Utf16Length(s[1..])
  }

  /** `parts.join(sep)`. */
  function Join(parts: seq<string>, sep: string): string
    decreases |parts|
  {
    if |parts| == 0 then ""
    else if |parts| == 1 then parts[0]
    else parts[0] + sep + Join(parts[1..], sep)
  }

  function UpperChar(c: char): char {
    if 'a' <= c <= 'z' then (c as int - 32) as char else c
  }

  /** `s.toUpperCase()` restricted to ASCII letters. */
  function ToUpperAscii(s: string): (r: string)
    ensures |r| == |s|
    ensures forall i :: 0 <= i < |s| ==> r[i] == UpperChar(s[i])
    decreases |s|
  {
    if s == [] then [] else [UpperChar(s[0])] + ToUpperAscii(s[1..])
  }

  /** The `response` an HTTP client attaches to an error thrown for an HTTP status. */
  datatype ErrorResponse = ErrorResponse(
    status: int,
    /** the value of `response.data.message` (Undefined when the body or field is absent) */
    message: JsValue)

  /**
    A thrown JavaScript error: an `Error` (possibly carrying an HTTP response),
    or a `TypeError` raised by the engine when a property of a missing value is
    read or a missing value is spread.
   */
  datatype JsError =
    | Error(message: string, response: Option<ErrorResponse>)
    | TypeError(message: string)

  function CannotRead(property: string): string {
    "Cannot read properties of undefined (reading '" + property + "')"
  }

  function NotIterable(expression: string): string {
    expression + " is not iterable"
  }
}
