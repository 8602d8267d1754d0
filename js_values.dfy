/** JavaScript value conventions that the engine and the host both rely on. */
module JsValues {

  /** A value that may be missing. As a `parseFloat` result, None stands for NaN;
      as an object field, None stands for `undefined` or `null`. */
  datatype Option<+T> = None | Some(value: T) {
    /** `x` when present, otherwise `default`: the `!isNaN(x) ? x : default` idiom. */
    function GetOr(default: T): T {
      if Some? then value else default
    }
  }

  /** JavaScript's `%` on integers: it truncates toward zero, so the remainder
      takes the sign of the dividend (Dafny's own `%` never goes negative). */
  function JsRem(a: int, b: int): (r: int)
    requires b > 0
    ensures a >= 0 ==> 0 <= r < b
    ensures a < 0 ==> -b < r <= 0
    ensures a >= 0 ==> r == a % b
    ensures a < 0 ==> r == -((-a) % b)
  {
    if a >= 0 then a % b else -((-a) % b)
  }

  /** The decimal digit character for `d`. */
  function DigitChar(d: int): (c: char)
    requires 0 <= d < 10
    ensures '0' <= c <= '9'
    ensures c as int - '0' as int == d
  {
    (d + '0' as int) as char
  }

  /** The digits of a natural number, most significant first, as JavaScript prints it. */
  function Digits(n: nat): (s: string)
    ensures |s| >= 1
    ensures forall i :: 0 <= i < |s| ==> '0' <= s[i] <= '9'
    ensures n < 10 <==> |s| == 1
    ensures s[0] == '0' <==> n == 0
  {
    if n < 10 then [DigitChar(n)] else Digits(n / 10) + [DigitChar(n % 10)]
  }

  /** The number a string of decimal digits denotes (the inverse of Digits). */
  function DigitsValue(s: string): int
  {
    if s == [] then 0 else DigitsValue(s[..|s| - 1]) * 10 + (s[|s| - 1] as int - '0' as int)
  }

  /** Printing a natural number and reading its digits back gives the number. */
  lemma {:induction false} DigitsRoundTrip(n: nat)
    ensures DigitsValue(Digits(n)) == n
  {
    if n >= 10 {
      DigitsRoundTrip(n / 10);
      var s := Digits(n / 10) + [DigitChar(n % 10)];
      assert s[..|s| - 1] == Digits(n / 10);
    }
  }

  /** An integer as a JavaScript template literal renders it: a minus sign, then the digits. */
  function Decimal(n: int): (s: string)
    ensures n >= 0 ==> s == Digits(n)
    ensures n < 0 ==> s == "-" + Digits(-n)
  {
    if n < 0 then "-" + Digits(-n) else Digits(n)
  }

  /** `toUpperCase` on one character, for the ASCII letters. */
  function UpperChar(c: char): (u: char)
    ensures !('a' <= u <= 'z')
    ensures 'a' <= c <= 'z' ==> u as int == c as int - 32
    ensures !('a' <= c <= 'z') ==> u == c
  {
    if 'a' <= c <= 'z' then (c as int - 32) as char else c
  }

  /** `toUpperCase` on a string, character by character. */
  function UpperCase(s: string): (r: string)
    ensures |r| == |s|
    ensures forall i :: 0 <= i < |s| ==> r[i] == UpperChar(s[i])
  {
    if s == [] then [] else [UpperChar(s[0])] + UpperCase(s[1..])
  }
}
