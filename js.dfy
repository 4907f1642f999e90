/** Optional values, standing for a JavaScript field that may be absent. */
module Wrappers {
  datatype Option<+T> = None | Some(value: T)
}

/**
 * The small part of JavaScript's value semantics the relay depends on:
 * strict equality between numbers, NaN and `undefined`, and the decimal
 * rendering of the client library's big-integer ids by `toString()`.
 */
module Js {
  import opened Wrappers

  /** A JavaScript number as the relay sees it, or `undefined`. */
  datatype JsValue = Num(n: int) | NaN | Undefined

  /** What `Number.parseInt` can return: a number or NaN, never `undefined`. */
  type Parsed = v: JsValue | !v.Undefined? witness NaN

  /** `x?.toJSNumber()` on an optional big-integer id: `undefined` when absent. */
  function ToJsNumber(x: Option<int>): (v: JsValue)
    ensures v.Undefined? <==> x.None?
    ensures x.Some? ==> v == Num(x.value)
  {
    match x
    case None => Undefined
    case Some(n) => Num(n)
  }

  /** `a === b` for numbers and `undefined`: NaN equals nothing, not even itself. */
  predicate StrictEquals(a: JsValue, b: JsValue)
  {
    match (a, b)
    case (Num(x), Num(y)) => x == y
    case (Undefined, Undefined) => true
    case _ => false
  }

  predicate IsDigit(c: char) { '0' <= c <= '9' }

  predicate IsDigits(s: string) { forall i :: 0 <= i < |s| ==> IsDigit(s[i]) }

  function DigitChar(d: nat): (c: char)
    requires d < 10
    ensures IsDigit(c) && c as int - '0' as int == d
  {
    (d + '0' as int) as char
  }

  /** Canonical decimal digits of a natural number: no sign, no leading zero. */
  function NatToDecimal(n: nat): (s: string)
    ensures |s| > 0 && IsDigits(s)
    ensures s[0] == '0' ==> n == 0
    decreases n
  {
    if n < 10 then [DigitChar(n)] else NatToDecimal(n / 10) + [DigitChar(n % 10)]
  }

  /** The big-integer id's `toString()`: a leading '-' for negatives, then the decimal digits. */
  function BigIntToString(n: int): (s: string)
    ensures |s| > 0
    ensures s[0] == '-' <==> n < 0
    ensures IsDigits(if n < 0 then s[1..] else s)
  {
    if n < 0 then "-" + NatToDecimal(-n) else NatToDecimal(n)
  }

  /** The value of a string of decimal digits, most significant first. */
  function DigitsValue(s: string): nat
    requires IsDigits(s)
  {
    if |s| == 0 then 0
    else DigitsValue(s[..|s| - 1]) * 10 + (s[|s| - 1] as int - '0' as int)
  }

  /** Reads back what `BigIntToString` writes; None for anything else. */
  function DecimalToInt(s: string): (r: Option<int>)
  {
    if |s| > 1 && s[0] == '-' && IsDigits(s[1..]) then Some(0 - DigitsValue(s[1..]) as int)
    else if |s| > 0 && IsDigits(s) then Some(DigitsValue(s))
    else None
  }

  lemma {:induction false} NatToDecimalValue(n: nat)
    ensures DigitsValue(NatToDecimal(n)) == n
    decreases n
  {
    var s := NatToDecimal(n);
    if n >= 10 {
      NatToDecimalValue(n / 10);
      assert s[..|s| - 1] == NatToDecimal(n / 10);
    }
  }

  /** The decimal rendering of an id can be read back: it loses nothing. */
  lemma BigIntToStringRoundTrip(n: int)
    ensures DecimalToInt(BigIntToString(n)) == Some(n)
  {
    var s := BigIntToString(n);
    if n < 0 {
      NatToDecimalValue(-n);
      assert s[1..] == NatToDecimal(-n);
    } else {
      NatToDecimalValue(n);
    }
  }
}
