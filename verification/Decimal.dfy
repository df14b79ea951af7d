/** strconv's base-10 printing and parsing of int64 values. */
module Decimal {
  import opened Wrappers

  const INT64_MAX := 0x7fff_ffff_ffff_ffff
  const INT64_MIN := -0x8000_0000_0000_0000

  predicate IsDigit(c: char) {
    '0' <= c <= '9'
  }

  predicate AllDigits(s: string) {
    forall i :: 0 <= i < |s| ==> IsDigit(s[i])
  }

  function DigitChar(d: nat): (c: char)
    requires d < 10
    ensures IsDigit(c) && c as int == '0' as int + d
  {
    ('0' as int + d) as char
  }

  function NatValue(s: string): nat
    requires AllDigits(s)
  {
    if |s| == 0 then 0
    else 10 * NatValue(s[..|s| - 1]) + (s[|s| - 1] as int - '0' as int)
  }

  function FormatNat(n: nat): (s: string)
    ensures |s| > 0 && AllDigits(s) && NatValue(s) == n
  {
    if n < 10 then [DigitChar(n)]
    else
      var front := FormatNat(n / 10);
      var s := front + [DigitChar(n % 10)];
      assert s[..|s| - 1] == front;
      s
  }

  /** `strconv.FormatInt(n, 10)`. */
  function FormatInt(n: int): string {
    if n < 0 then ['-'] + FormatNat(-n) else FormatNat(n)
  }

  /** `strconv.ParseInt(s, 10, 64)`: an optional sign, at least one digit, int64 range. */
  function ParseInt(s: string): Option<int> {
    var negative := |s| > 0 && s[0] == '-';
    var digits := if |s| > 0 && s[0] in {'-', '+'} then s[1..] else s;
    if |digits| == 0 || !AllDigits(digits) then None
    else
      var magnitude: int := NatValue(digits);
      var v := if negative then -magnitude else magnitude;
      if INT64_MIN <= v <= INT64_MAX then Some(v) else None
  }

  lemma ParseFormat(n: int)
    requires INT64_MIN <= n <= INT64_MAX
    ensures ParseInt(FormatInt(n)) == Some(n)
  {
    if n < 0 {
      assert FormatInt(n)[1..] == FormatNat(-n);
    } else {
      assert IsDigit(FormatNat(n)[0]);
    }
  }

  /** An optional sign and digits within int64 are a number, and nothing else is. */
  lemma ParseIntExactly(d: string)
    requires d != "" && AllDigits(d)
    ensures ParseInt(d) == ParseInt("+" + d) == if NatValue(d) <= INT64_MAX then Some(NatValue(d) as int) else None
    ensures ParseInt("-" + d) == if NatValue(d) <= INT64_MAX + 1 then Some(-(NatValue(d) as int)) else None
  {
    assert IsDigit(d[0]);
    assert ("+" + d)[1..] == d && ("-" + d)[1..] == d;
  }

  lemma NothingElseParses(s: string)
    requires ParseInt(s).Some?
    ensures s != "" && (AllDigits(s) || (s[0] in {'+', '-'} && s[1..] != "" && AllDigits(s[1..])))
  {
  }

  lemma FormatIntInjective(a: int, b: int)
    requires FormatInt(a) == FormatInt(b)
    ensures a == b
  {
    if a < 0 { assert FormatInt(a)[1..] == FormatNat(-a); } else { assert IsDigit(FormatNat(a)[0]); }
    if b < 0 { assert FormatInt(b)[1..] == FormatNat(-b); } else { assert IsDigit(FormatNat(b)[0]); }
  }

  lemma FormatIntAlphabet(n: int, c: char)
    requires !IsDigit(c) && c != '-'
    ensures c !in FormatInt(n)
  {
    var digits := FormatNat(if n < 0 then -n else n);
    assert forall i :: 0 <= i < |digits| ==> IsDigit(digits[i]);
  }

  function Pow10(k: nat): (p: nat)
    ensures p >= 1
  {
    if k == 0 then 1 else 10 * Pow10(k - 1)
  }

  /** A number below 10^k prints in at most k digits. */
  lemma {:induction false} FormatNatLength(n: nat, k: nat)
    requires 1 <= k && n < Pow10(k)
    ensures |FormatNat(n)| <= k
  {
    if n >= 10 {
      FormatNatLength(n / 10, k - 1);
    }
  }
}
