/**
 * The Python values the script reads out of `config.json` and out of the
 * catalog's JSON responses, with the two Python operations the script applies
 * to them: truthiness (`not x`) and `str(x)`.
 */
module Json {
  import opened Wrappers

  datatype Json =
    | Null
    | Bool(b: bool)
    | Int(i: int)
    | Str(s: string)
    | List(items: seq<Json>)
    | Object(fields: map<string, Json>)

  /** Python truthiness: None, False, 0 and empty strings, lists and dicts are false. */
  predicate Truthy(j: Json) {
    match j
    case Null => false
    case Bool(b) => b
    case Int(i) => i != 0
    case Str(s) => s != ""
    case List(items) => items != []
    case Object(fields) => fields != map[]
  }

  predicate IsDigit(c: char) {
    '0' <= c <= '9'
  }

  function DigitChar(d: nat): (c: char)
    requires d < 10
    ensures IsDigit(c)
  {
    ('0' as int + d) as char
  }

  function DigitValue(c: char): (d: nat)
    requires IsDigit(c)
    ensures d < 10 && DigitChar(d) == c
  {
    c as int - '0' as int
  }

  /** Decimal digits of a natural number, most significant first, without leading zeros. */
  function NatToDigits(n: nat): (s: string)
    ensures |s| > 0
    ensures forall k :: 0 <= k < |s| ==> IsDigit(s[k])
    ensures |s| > 1 ==> s[0] != '0'
  {
    if n < 10 then [DigitChar(n)] else NatToDigits(n / 10) + [DigitChar(n % 10)]
  }

  /** Reads a non-empty string of decimal digits; the inverse of NatToDigits. */
  function DigitsToNat(s: string): nat
    requires forall k :: 0 <= k < |s| ==> IsDigit(s[k])
  {
    if s == [] then 0 else DigitsToNat(s[..|s| - 1]) * 10 + DigitValue(s[|s| - 1])
  }

  /** Python's `str(n)` for an int: an optional minus sign and the decimal digits. */
  function IntToString(n: int): (s: string)
    ensures |s| > 0
    ensures s[0] == '-' <==> n < 0
  {
    if n < 0 then "-" + NatToDigits(-n) else NatToDigits(n)
  }

  /** Python's `int(s)` restricted to the strings `str` produces for ints. */
  function ParseInt(s: string): (r: Option<int>)
  {
    if |s| > 0 && s[0] == '-' then
      if |s| > 1 && forall k :: 1 <= k < |s| ==> IsDigit(s[k]) then Some(0 - DigitsToNat(s[1..]) as int) else None
    else if |s| > 0 && forall k :: 0 <= k < |s| ==> IsDigit(s[k]) then Some(DigitsToNat(s))
    else None
  }

  lemma {:induction false} DigitsRoundTrip(n: nat)
    ensures DigitsToNat(NatToDigits(n)) == n
  {
    if n >= 10 {
      var s := NatToDigits(n);
      assert s[..|s| - 1] == NatToDigits(n / 10);
      DigitsRoundTrip(n / 10);
    }
  }

  /** `int(str(n)) == n`: distinct numeric ids never collapse to the same string. */
  lemma IntToStringRoundTrip(n: int)
    ensures ParseInt(IntToString(n)) == Some(n)
  {
    if n < 0 {
      var s := IntToString(n);
      assert s[1..] == NatToDigits(-n);
      DigitsRoundTrip(-n);
    } else {
      DigitsRoundTrip(n);
    }
  }

  lemma IntToStringInjective(m: int, n: int)
    ensures IntToString(m) == IntToString(n) <==> m == n
  {
    IntToStringRoundTrip(m);
    IntToStringRoundTrip(n);
  }

  /**
   * Python's `str(x)` for the scalar values; None for lists and dicts, whose
   * `str` depends on Python's dict ordering and is not modelled.
   */
  function PyStr(j: Json): (r: Option<string>)
    ensures r.None? <==> j.List? || j.Object?
    ensures j.Int? ==> r == Some(IntToString(j.i))
    ensures j.Str? ==> r == Some(j.s)
  {
    match j
    case Null => Some("None")
    case Bool(b) => Some(if b then "True" else "False")
    case Int(i) => Some(IntToString(i))
    case Str(s) => Some(s)
    case List(_) => None
    case Object(_) => None
  }
}
