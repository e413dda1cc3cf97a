/** Values shared by every part of the engine: an optional value and the JSON
    values that arrive in a request body, together with the few ways Python
    renders them inside exception messages. */
module Base {

  /** Python's `None`-or-value, made explicit. */
  datatype Option<+T> = None | Some(value: T)

  /** A parsed JSON value. Numbers are integers only. */
  datatype Json =
    | JNull
    | JBool(b: bool)
    | JNum(n: int)
    | JStr(s: string)
    | JArr(items: seq<Json>)
    | JObj(fields: map<string, Json>)

  /** The empty JSON object `{}` (Python's `dict()`). */
  const EmptyObject: Json := JObj(map[])

  /** The name of the Python type a parsed JSON value has. */
  function PyTypeName(j: Json): (r: string)
    ensures r != ""
    ensures r == "list" <==> j.JArr?
    ensures r == "dict" <==> j.JObj?
  {
    match j
    case JNull => "NoneType"
    case JBool(_) => "bool"
    case JNum(_) => "int"
    case JStr(_) => "str"
    case JArr(_) => "list"
    case JObj(_) => "dict"
  }

  /** Whether Python can use the value as a dictionary key: lists and dicts
      are unhashable. */
  predicate Hashable(j: Json) {
    !j.JArr? && !j.JObj?
  }

  function DigitChar(d: nat): (c: char)
    requires d < 10
    ensures '0' <= c <= '9'
    ensures c as int - '0' as int == d
  {
    "0123456789"[d]
  }

  predicate AllDigits(s: string) {
    forall i :: 0 <= i < |s| ==> '0' <= s[i] <= '9'
  }

  /** Python's `str(n)` for a natural number: its decimal digits. */
  function Decimal(n: nat): (s: string)
    ensures |s| >= 1 && AllDigits(s)
    ensures s[0] == '0' ==> n == 0
    decreases n
  {
    if n < 10 then [DigitChar(n)] else Decimal(n / 10) + [DigitChar(n % 10)]
  }

  /** The value a string of decimal digits denotes; the inverse of Decimal. */
  function ParseDecimal(s: string): nat
    requires AllDigits(s)
    decreases |s|
  {
    if s == [] then 0
    else ParseDecimal(s[..|s| - 1]) * 10 + (s[|s| - 1] as int - '0' as int)
  }

  lemma {:induction false} DecimalRoundTrip(n: nat)
    ensures ParseDecimal(Decimal(n)) == n
    decreases n
  {
    if n >= 10 {
      var s := Decimal(n);
      assert s[..|s| - 1] == Decimal(n / 10);
      DecimalRoundTrip(n / 10);
    }
  }

  /** Python's `str(n)` for any integer. */
  function IntStr(n: int): (s: string)
    ensures |s| >= 1
    ensures n < 0 <==> s[0] == '-'
  {
    if n < 0 then "-" + Decimal(-n) else Decimal(n)
  }

  /** Python's `str(x)` for a hashable (scalar) JSON value. */
  function PyStr(j: Json): string
    requires Hashable(j)
  {
    match j
    case JNull => "None"
    case JBool(b) => if b then "True" else "False"
    case JNum(n) => IntStr(n)
    case JStr(s) => s
  }
}
