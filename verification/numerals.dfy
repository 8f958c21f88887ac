/**
 * Decimal numerals: how JavaScript template literals and Python's `str` print an
 * integer, and how JavaScript's `parseInt(text)` reads one back.
 */
module Numerals {
  import opened Common

  predicate IsDigit(c: char) {
    '0' <= c <= '9'
  }

  function DigitChar(d: nat): (c: char)
    requires d < 10
    ensures IsDigit(c)
  {
    ['0', '1', '2', '3', '4', '5', '6', '7', '8', '9'][d]
  }

  function DigitValue(c: char): (d: nat)
    requires IsDigit(c)
    ensures d < 10
  {
    (c as int - '0' as int) as nat
  }

  /** The decimal numeral of `n`, without leading zeros. */
  function NatString(n: nat): (s: string)
    ensures |s| > 0
    ensures forall i :: 0 <= i < |s| ==> IsDigit(s[i])
    decreases n
  {
    if n < 10 then [DigitChar(n)] else NatString(n / 10) + [DigitChar(n % 10)]
  }

  /** `${i}` / `str(i)`: a minus sign before the numeral of a negative integer. */
  function IntString(i: int): string {
    if i < 0 then "-" + NatString(-i) else NatString(i)
  }

  /** The value of a run of digits, most significant first. */
  function DigitsValue(ds: string): nat
    requires forall i :: 0 <= i < |ds| ==> IsDigit(ds[i])
    decreases |ds|
  {
    if |ds| == 0 then 0
    else DigitsValue(ds[..|ds| - 1]) * 10 + DigitValue(ds[|ds| - 1])
  }

  /** The length of the run of digits that `s` starts with. */
  function DigitRun(s: string): (k: nat)
    ensures k <= |s|
    ensures forall i :: 0 <= i < k ==> IsDigit(s[i])
    ensures k < |s| ==> !IsDigit(s[k])
    decreases |s|
  {
    if |s| > 0 && IsDigit(s[0]) then 1 + DigitRun(s[1..]) else 0
  }

  /** The white space `parseInt` skips before the number (a subset of ECMAScript's StrWhiteSpaceChar). */
  predicate IsSpace(c: char) {
    c == ' ' || c == '\t' || c == '\n' || c == '\r' || c == '\U{000B}' || c == '\U{000C}' || c == '\U{00A0}' || c == '\U{FEFF}'
  }

  function SkipSpace(s: string): (t: string)
    ensures |t| <= |s|
    ensures |t| > 0 ==> !IsSpace(t[0])
    decreases |s|
  {
    if |s| > 0 && IsSpace(s[0]) then SkipSpace(s[1..]) else s
  }

  /** A sign-free run of digits, or `None` when it starts with no digit. */
  function ParseDigits(t: string): Option<nat> {
    var k := DigitRun(t);
    if k == 0 then None else Some(DigitsValue(t[..k]))
  }

  /**
   * `parseInt(s)` in base 10: skip leading white space, read an optional sign
   * and then the longest run of digits; `None` stands for `NaN` (no digits).
   */
  function ParseInt(s: string): (r: Option<int>)
    ensures var t := SkipSpace(s);
      var u := if |t| > 0 && (t[0] == '-' || t[0] == '+') then t[1..] else t;
      r.Some? <==> |u| > 0 && IsDigit(u[0])
    ensures r.Some? && r.value < 0 ==> |SkipSpace(s)| > 0 && SkipSpace(s)[0] == '-'
  {
    var t := SkipSpace(s);
    if |t| > 0 && t[0] == '-' then
      match ParseDigits(t[1..])
      case Some(n) => Some(-(n as int))
      case None => None
    else if |t| > 0 && t[0] == '+' then
      match ParseDigits(t[1..])
      case Some(n) => Some(n)
      case None => None
    else
      match ParseDigits(t)
      case Some(n) => Some(n)
      case None => None
  }

  /** `parseInt(s) || 0`: `NaN` (and zero) become 0, anything else is kept. */
  function ParseIntOrZero(s: string): (r: int)
    ensures r == 0 <==> ParseInt(s).None? || ParseInt(s) == Some(0)
    ensures ParseInt(s).Some? ==> r == ParseInt(s).value
  {
    ParseInt(s).GetOr(0)
  }

  lemma {:induction false} DigitsValueOfNatString(n: nat)
    ensures DigitsValue(NatString(n)) == n
    decreases n
  {
    var s := NatString(n);
    if n >= 10 {
      assert s[..|s| - 1] == NatString(n / 10);
      DigitsValueOfNatString(n / 10);
    }
  }

  /** Every character of a numeral is a digit, so the whole numeral is one run. */
  lemma {:induction false} DigitRunOfDigits(s: string)
    requires forall i :: 0 <= i < |s| ==> IsDigit(s[i])
    ensures DigitRun(s) == |s|
    decreases |s|
  {
    if |s| > 0 {
      DigitRunOfDigits(s[1..]);
    }
  }

  /** Reading back a printed integer gives that integer. */
  lemma ParseIntOfIntString(i: int)
    ensures ParseInt(IntString(i)) == Some(i)
    ensures ParseIntOrZero(IntString(i)) == i
  {
    var n: nat := if i < 0 then -i else i;
    var digits := NatString(n);
    DigitRunOfDigits(digits);
    DigitsValueOfNatString(n);
    assert digits[..|digits|] == digits;
    assert ParseDigits(digits) == Some(n);
    if i < 0 {
      assert IntString(i) == "-" + digits;
      assert SkipSpace(IntString(i)) == IntString(i);
      assert IntString(i)[1..] == digits;
    } else {
      assert SkipSpace(digits) == digits;
    }
  }

  /** Two integers print differently. */
  lemma IntStringInjective(i: int, j: int)
    requires IntString(i) == IntString(j)
    ensures i == j
  {
    ParseIntOfIntString(i);
    ParseIntOfIntString(j);
  }

  /** Two naturals print differently. */
  lemma NatStringInjective(m: nat, n: nat)
    requires NatString(m) == NatString(n)
    ensures m == n
  {
    DigitsValueOfNatString(m);
    DigitsValueOfNatString(n);
  }

  /** Text that holds no digit after its white space and sign reads as `NaN`, which `|| 0` turns into 0. */
  lemma NoDigitsReadsAsZero(s: string)
    requires forall i :: 0 <= i < |s| ==> !IsDigit(s[i])
    ensures ParseInt(s) == None
    ensures ParseIntOrZero(s) == 0
  {
    var t := SkipSpace(s);
    SkipSpaceIsSuffix(s);
    if |t| > 1 {
      assert !IsDigit(t[1..][0]);
    }
    if |t| > 0 {
      assert !IsDigit(t[0]);
    }
  }

  lemma {:induction false} SkipSpaceIsSuffix(s: string)
    ensures SkipSpace(s) == s[|s| - |SkipSpace(s)|..]
    decreases |s|
  {
    if |s| > 0 && IsSpace(s[0]) {
      SkipSpaceIsSuffix(s[1..]);
    }
  }
}
