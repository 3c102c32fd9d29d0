/**
 * The Python values the SDK manipulates: None/missing, results carrying an
 * exception, JSON-like values, the scalars accepted by `str()`, and the
 * truthiness rules the source relies on (`if not hosts`, `if indexes`, ...).
 */
module PyValues {

  datatype Option<+T> = None | Some(value: T)

  datatype Result<+T, +E> = Ok(value: T) | Err(error: E)

  /** The exceptions the modelled code raises. */
  datatype PyError =
    | MonitoringException(message: string)  // raised by the SDK itself
    | AssertionError(message: string)       // a failed `assert`
    | KeyError(key: string)                 // a missing `os.environ` entry

  /** A JSON-like Python value; lists and tuples are both `VList`. */
  datatype Value =
    | VNone
    | VBool(b: bool)
    | VInt(i: int)
    | VStr(s: string)
    | VList(items: seq<Value>)
    | VDict(entries: map<string, Value>)

  /** Python truthiness of a value: None, False, 0 and empty containers are false. */
  predicate Truthy(v: Value) {
    match v
    case VNone => false
    case VBool(b) => b
    case VInt(i) => i != 0
    case VStr(s) => s != []
    case VList(items) => items != []
    case VDict(entries) => entries != map[]
  }

  /** A scalar argument handed to `str()`: the SDK passes strings and integers. */
  datatype Scalar = Text(s: string) | Number(n: int)

  predicate ScalarTruthy(x: Scalar) {
    match x
    case Text(s) => s != []
    case Number(n) => n != 0
  }

  predicate IsDigit(c: char) { '0' <= c <= '9' }

  /** `str(n)` for a natural number: its decimal digits, no leading zero. */
  function NatToDecimal(n: nat): (r: string)
    ensures |r| >= 1
    ensures forall i :: 0 <= i < |r| ==> IsDigit(r[i])
    ensures n > 0 ==> r[0] != '0'
    ensures n < 10 <==> |r| == 1
    decreases n
  {
    var last := ['0' + (n % 10) as char];
    if n < 10 then last else NatToDecimal(n / 10) + last
  }

  /** The value a string of decimal digits denotes. */
  function DecimalValue(s: string): nat
    requires forall i :: 0 <= i < |s| ==> IsDigit(s[i])
  {
    if s == [] then 0
    else DecimalValue(s[..|s| - 1]) * 10 + DigitValue(s[|s| - 1])
  }

  function DigitValue(c: char): (d: nat)
    requires IsDigit(c)
    ensures d < 10
  {
    c as int - '0' as int
  }

  /** Reading back what `str()` printed gives the number again. */
  lemma {:induction false} NatToDecimalRoundTrip(n: nat)
    ensures DecimalValue(NatToDecimal(n)) == n
    decreases n
  {
    var r := NatToDecimal(n);
    if n >= 10 {
      NatToDecimalRoundTrip(n / 10);
      assert r[..|r| - 1] == NatToDecimal(n / 10);
    }
  }

  /** Python's `str()` of a scalar. */
  function Str(x: Scalar): (r: string)
    ensures x.Text? ==> r == x.s
    ensures x.Number? ==> r != [] && (r[0] == '-' <==> x.n < 0)
    ensures x.Number? ==> forall i :: 0 < i < |r| ==> IsDigit(r[i])
  {
    match x
    case Text(s) => s
    case Number(n) => if n < 0 then "-" + NatToDecimal(-n) else NatToDecimal(n)
  }
}
