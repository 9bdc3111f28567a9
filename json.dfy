/**
 * JSON-like values: what `json.load` yields for the settings file and what a
 * provider's HTTP reply decodes to, with the two Python conversions the core
 * applies to them: truth testing (`not x`, `x or y`, `bool(x)`) and `str(x)`
 * inside an f-string.
 */
module JsonValue {

  /**
   * A JSON number. Integers are exact; a float is kept as `mantissa * 10^exponent`
   * and is only ever passed through or truth-tested, never computed with.
   */
  datatype Number = Int(i: int) | Float(mantissa: int, exponent: int)

  datatype Json =
    | JNull
    | JBool(b: bool)
    | JNum(n: Number)
    | JStr(s: string)
    | JArr(items: seq<Json>)
    | JObj(fields: map<string, Json>)

  /** Python truth testing: None, False, 0, 0.0, "", [] and {} are false. */
  predicate Truthy(j: Json) {
    match j
    case JNull => false
    case JBool(b) => b
    case JNum(Int(i)) => i != 0
    case JNum(Float(m, _)) => m != 0
    case JStr(s) => s != ""
    case JArr(items) => items != []
    case JObj(fields) => fields != map[]
  }

  /** `a or b` in Python: `a` when it is truthy, otherwise `b`. */
  function Or(a: Json, b: Json): (r: Json)
    ensures r == a || r == b
    ensures Truthy(r) <==> Truthy(a) || Truthy(b)
    ensures Truthy(a) ==> r == a
    ensures !Truthy(a) ==> r == b
  {
    if Truthy(a) then a else b
  }

  /** A non-empty run of decimal digits. */
  predicate Digits(s: string) {
    s != [] && forall k :: 0 <= k < |s| ==> '0' <= s[k] <= '9'
  }

  /** The number a run of decimal digits denotes, read most significant first. */
  function DigitsValue(s: string): nat
    requires forall k :: 0 <= k < |s| ==> '0' <= s[k] <= '9'
  {
    if s == [] then 0 else DigitsValue(s[..|s| - 1]) * 10 + (s[|s| - 1] as int - '0' as int)
  }

  /** An optional minus sign followed by digits. */
  predicate Decimal(s: string) {
    Digits(s) || (|s| >= 2 && s[0] == '-' && Digits(s[1..]))
  }

  /**
   * The form Python writes: no leading zero, and no sign on zero, so that
   * every integer has exactly one text.
   */
  predicate Canonical(s: string)
    requires Decimal(s)
  {
    var d := if Digits(s) then s else s[1..];
    d[0] == '0' ==> s == "0"
  }

  /** The integer a decimal text denotes. */
  function DecimalValue(s: string): int
    requires Decimal(s)
  {
    if Digits(s) then DigitsValue(s) else -(DigitsValue(s[1..]) as int)
  }

  /**
   * Decimal digits of a natural number, most significant first, as Python's
   * `str(n)`: they denote `n`, with no leading zero unless `n` is zero.
   */
  function NatText(n: nat): (s: string)
    ensures Digits(s) && DigitsValue(s) == n
    ensures s[0] == '0' <==> n == 0
    ensures Canonical(s)
    decreases n
  {
    var digit := ['0' + (n % 10) as char];
    if n < 10 then digit
    else
      var high := NatText(n / 10);
      assert (high + digit)[..|high + digit| - 1] == high;
      high + digit
  }

  /** Python's `str(i)` for an integer: the decimal text of `i`, signed exactly when `i` is negative. */
  function IntText(i: int): (s: string)
    ensures Decimal(s) && DecimalValue(s) == i && Canonical(s)
    ensures s[0] == '-' <==> i < 0
    ensures '\n' !in s
  {
    if i < 0 then
      var digits := NatText(-i);
      assert ("-" + digits)[1..] == digits && ("-" + digits)[0] == '-';
      "-" + digits
    else NatText(i)
  }

  /**
   * Python's `str(j)` as an f-string applies it to a setting: exact for strings,
   * None, booleans and integers. Floats, lists and dicts are rendered as the
   * empty string (their Python rendering is not modelled).
   */
  function Text(j: Json): (s: string)
    ensures j.JNum? && j.n.Int? ==> Decimal(s) && DecimalValue(s) == j.n.i && Canonical(s)
    ensures j.JBool? ==> (s == "True" <==> j.b)
    ensures j.JStr? ==> s == j.s
  {
    match j
    case JStr(s) => s
    case JNull => "None"
    case JBool(b) => if b then "True" else "False"
    case JNum(Int(i)) => IntText(i)
    case _ => ""
  }
}
