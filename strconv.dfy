/** Decimal (`strconv.Itoa`, `%d`) and lower-case hexadecimal (`%x`) rendering of integers,
    with the parsers that invert them. */
module Strconv {

  predicate IsHexDigit(c: char) {
    '0' <= c <= '9' || 'a' <= c <= 'f'
  }

  /** The characters `strconv.Itoa` can produce. */
  predicate IsDecimalChar(c: char) {
    '0' <= c <= '9' || c == '-'
  }

  function DigitChar(d: nat): (c: char)
    requires d < 16
    ensures IsHexDigit(c) && DigitValue(c) == d
  {
    if d < 10 then ('0' as int + d) as char else ('a' as int + d - 10) as char
  }

  function DigitValue(c: char): (d: nat) {
    if '0' <= c <= '9' then c as int - '0' as int
    else if 'a' <= c <= 'f' then c as int - 'a' as int + 10
    else 16
  }

  /** The digits of `n` in `base`, most significant first, with no leading zero. */
  function Digits(n: nat, base: nat): (s: string)
    requires 2 <= base <= 16
    ensures |s| > 0
    ensures forall i :: 0 <= i < |s| ==> IsHexDigit(s[i]) && DigitValue(s[i]) < base
    ensures |s| > 1 ==> s[0] != '0'
    decreases n
  {
    if n < base then [DigitChar(n)]
    else
      DivMod(n, base);
      Digits(n / base, base) + [DigitChar(n % base)]
  }

  lemma DivMod(n: nat, base: nat)
    requires 2 <= base <= 16 && base <= n
    ensures 0 < n / base < n
    ensures n % base < base
    ensures n == (n / base) * base + n % base
  {
  }

  /** The value of a string of digits in `base`. */
  function ParseDigits(s: string, base: nat): (n: nat) {
    if s == [] then 0 else ParseDigits(s[..|s| - 1], base) * base + DigitValue(s[|s| - 1])
  }

  lemma {:induction false} DigitsRoundTrip(n: nat, base: nat)
    requires 2 <= base <= 16
    ensures ParseDigits(Digits(n, base), base) == n
  {
    var s := Digits(n, base);
    if n < base {
      assert s[..0] == [];
    } else {
      DivMod(n, base);
      var q, d := n / base, n % base;
      assert s[..|s| - 1] == Digits(q, base);
      assert DigitValue(s[|s| - 1]) == d;
      DigitsRoundTrip(q, base);
      assert ParseDigits(s, base) == q * base + d;
    }
  }

  /** `strconv.Itoa(n)`: decimal, with a leading '-' for negative numbers. */
  function Itoa(n: int): (s: string)
    ensures 0 < |s|
    ensures forall i :: 0 <= i < |s| ==> IsDecimalChar(s[i])
    ensures (s[0] == '-') <==> n < 0
    ensures forall i :: 0 < i < |s| ==> s[i] != '-'
  {
    var d := Digits(if n < 0 then -n else n, 10);
    assert forall i :: 0 <= i < |d| ==> '0' <= d[i] <= '9';
    if n < 0 then "-" + d else d
  }

  /** `%x` of a non-negative value: lower-case hexadecimal without prefix. */
  function Hex(n: nat): (s: string)
    ensures 0 < |s|
    ensures forall i :: 0 <= i < |s| ==> IsHexDigit(s[i])
    ensures ParseDigits(s, 16) == n
  {
    DigitsRoundTrip(n, 16);
    Digits(n, 16)
  }

  function ParseInt(s: string): (n: int) {
    if 0 < |s| && s[0] == '-' then -(ParseDigits(s[1..], 10) as int) else ParseDigits(s, 10)
  }

  lemma ItoaRoundTrip(n: int)
    ensures ParseInt(Itoa(n)) == n
  {
    var m := if n < 0 then -n else n;
    var d := Digits(m, 10);
    DigitsRoundTrip(m, 10);
    if n < 0 {
      assert ("-" + d)[1..] == d;
    } else {
      assert d[0] != '-';
    }
  }
}
