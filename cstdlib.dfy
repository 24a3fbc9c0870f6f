/** The parts of the C library the parser calls besides strtok: `atoi` and
    `atof`, modelled as decimal-prefix parsers.  `atoi` yields an unbounded
    integer and `atof` an exact real number: neither the 16-bit `int` nor the
    rounding of a 32-bit `float` is modelled. */
module CStdlib {

  predicate IsDigit(c: char)
  {
    '0' <= c <= '9'
  }

  /** `isspace` in the C locale: blank, tab, newline, vertical tab, form feed, carriage return. */
  predicate IsSpace(c: char)
  {
    c == ' ' || c == '\t' || c == '\n' || c == '\U{000B}' || c == '\U{000C}' || c == '\r'
  }

  predicate AllDigits(d: string)
  {
    forall k :: 0 <= k < |d| ==> IsDigit(d[k])
  }

  function DigitValue(c: char): (v: nat)
    requires IsDigit(c)
    ensures v < 10
  {
    c as int - '0' as int
  }

  function Pow10Nat(n: nat): (p: nat)
    ensures p >= 1
  {
    if n == 0 then 1 else 10 * Pow10Nat(n - 1)
  }

  /** `x` times 10 to the power `e`, one decimal shift at a time. */
  function Shift10(x: real, e: int): (r: real)
    ensures x == 0.0 ==> r == 0.0
    ensures x > 0.0 ==> r > 0.0
    decreases if e >= 0 then e else -e
  {
    if e == 0 then x
    else if e > 0 then Shift10(x, e - 1) * 10.0
    else Shift10(x, e + 1) / 10.0
  }

  /** Shifting down by `n` places divides by 10^n. */
  lemma {:induction false} Shift10Down(x: real, n: nat)
    ensures Shift10(x, -(n as int)) * (Pow10Nat(n) as real) == x
  {
    if n > 0 {
      Shift10Down(x, n - 1);
      var r := Shift10(x, -(n - 1));
      var p := Pow10Nat(n - 1) as real;
      assert Shift10(x, -(n as int)) == r / 10.0;
      assert Pow10Nat(n) as real == 10.0 * p;
      calc {
        Shift10(x, -(n as int)) * (Pow10Nat(n) as real);
        (r / 10.0) * (10.0 * p);
        r * p;
      }
    }
  }

  /** First position at or after `i` that is not white space. */
  function SkipSpaces(s: string, i: nat): (j: nat)
    requires i <= |s|
    ensures i <= j <= |s|
    ensures forall k :: i <= k < j ==> IsSpace(s[k])
    ensures j < |s| ==> !IsSpace(s[j])
    decreases |s| - i
  {
    if i < |s| && IsSpace(s[i]) then SkipSpaces(s, i + 1) else i
  }

  /** End of the maximal run of decimal digits starting at `i`. */
  function DigitsEnd(s: string, i: nat): (j: nat)
    requires i <= |s|
    ensures i <= j <= |s|
    ensures AllDigits(s[i..j])
    ensures j < |s| ==> !IsDigit(s[j])
    decreases |s| - i
  {
    if i < |s| && IsDigit(s[i]) then DigitsEnd(s, i + 1) else i
  }

  /** The value of a string of decimal digits, most significant first.  It is
      below 10^|d|, and it is zero exactly when every digit is '0'. */
  function DecimalValue(d: string): (v: nat)
    requires AllDigits(d)
    ensures v < Pow10Nat(|d|)
    ensures v == 0 <==> forall k :: 0 <= k < |d| ==> d[k] == '0'
  {
    if |d| == 0 then 0
    else
      var init := d[..|d| - 1];
      assert forall k :: 0 <= k < |init| ==> init[k] == d[k];
      DecimalValue(init) * 10 + DigitValue(d[|d| - 1])
  }

  /** Position after an optional '+' or '-' at `i`. */
  function SkipSign(s: string, i: nat): (j: nat)
    requires i <= |s|
    ensures j == i || (i < |s| && j == i + 1 && (s[i] == '+' || s[i] == '-'))
  {
    if i < |s| && (s[i] == '+' || s[i] == '-') then i + 1 else i
  }

  predicate NegativeAt(s: string, i: nat)
  {
    i < |s| && s[i] == '-'
  }

  /** `atoi`: optional white space, optional sign, then the longest run of
      digits; 0 when there are no digits. */
  function Atoi(s: string): (n: int)
    ensures (forall k :: 0 <= k < |s| ==> !IsDigit(s[k])) ==> n == 0
  {
    var i := SkipSpaces(s, 0);
    var j := SkipSign(s, i);
    var e := DigitsEnd(s, j);
    var m := DecimalValue(s[j..e]);
    assert e > j ==> IsDigit(s[j]);
    if NegativeAt(s, i) then -(m as int) else m
  }

  /** The exponent of a float literal whose mantissa ends at `i`: 'e' or 'E',
      an optional sign and at least one digit; otherwise nothing is consumed
      and the exponent is 0. */
  function Exponent(s: string, i: nat): int
    requires i <= |s|
  {
    if i < |s| && (s[i] == 'e' || s[i] == 'E') then
      var j := SkipSign(s, i + 1);
      var e := DigitsEnd(s, j);
      if e == j then 0
      else if NegativeAt(s, i + 1) then -(DecimalValue(s[j..e]) as int)
      else DecimalValue(s[j..e])
    else 0
  }

  /** The digits of the mantissa of the float literal that starts at `j`
      (after white space and sign): the integer digits, then the fraction
      digits if a '.' follows.  Also returns where the mantissa ends and how
      many fraction digits it had. */
  datatype Mantissa = Mantissa(digits: string, fracLen: nat, end: nat)

  function ScanMantissa(s: string, j: nat): (m: Mantissa)
    requires j <= |s|
    ensures j <= m.end <= |s|
    ensures AllDigits(m.digits) && m.fracLen <= |m.digits|
    ensures OnlyZeroDigits(s[j..m.end]) ==> OnlyZeroDigits(m.digits)
  {
    var e1 := DigitsEnd(s, j);
    if e1 < |s| && s[e1] == '.' then
      var e2 := DigitsEnd(s, e1 + 1);
      var ds := s[j..e1] + s[e1 + 1..e2];
      assert OnlyZeroDigits(s[j..e2]) ==> OnlyZeroDigits(ds) by {
        if OnlyZeroDigits(s[j..e2]) {
          forall k | 0 <= k < |ds| && IsDigit(ds[k]) ensures ds[k] == '0' {
            if k < e1 - j {
              assert ds[k] == s[j..e2][k];
            } else {
              assert ds[k] == s[j..e2][k + 1];
            }
          }
        }
      }
      Mantissa(ds, e2 - e1 - 1, e2)
    else
      Mantissa(s[j..e1], 0, e1)
  }

  /** No digit other than '0' occurs in `s`. */
  predicate OnlyZeroDigits(s: string)
  {
    forall k :: 0 <= k < |s| && IsDigit(s[k]) ==> s[k] == '0'
  }

  /** `atof`: optional white space, optional sign, digits with an optional
      decimal point, then an optional exponent; 0 when the mantissa has no
      digit at all.  A literal in which no digit other than '0' occurs
      converts to exactly zero, whatever its exponent. */
  function Atof(s: string): (x: real)
    ensures OnlyZeroDigits(s) ==> x == 0.0
  {
    var i := SkipSpaces(s, 0);
    var j := SkipSign(s, i);
    var m := ScanMantissa(s, j);
    if |m.digits| == 0 then 0.0
    else
      var v := DecimalValue(m.digits);
      assert OnlyZeroDigits(s) ==> v == 0 by {
        if OnlyZeroDigits(s) {
          assert forall k :: 0 <= k < m.end - j ==> s[j..m.end][k] == s[j + k];
        }
      }
      var mag := Shift10(v as real, Exponent(s, m.end) - m.fracLen);
      if NegativeAt(s, i) then -mag else mag
  }

  /** The decimal digit for `v`. */
  function DigitChar(v: nat): (c: char)
    requires v < 10
    ensures IsDigit(c) && DigitValue(c) == v
  {
    ('0' as int + v) as char
  }

  /** The shortest decimal numeral of `n`, as `printf("%d")` writes it. */
  function Numeral(n: nat): (d: string)
    ensures |d| > 0 && AllDigits(d)
  {
    if n < 10 then [DigitChar(n)] else Numeral(n / 10) + [DigitChar(n % 10)]
  }

  /** An integer as `printf("%d")` writes it: a '-' for negatives, then the numeral. */
  function Format(n: int): (s: string)
    ensures |s| > 0
  {
    if n < 0 then "-" + Numeral(-n) else Numeral(n)
  }

  lemma {:induction false} NumeralValue(n: nat)
    ensures DecimalValue(Numeral(n)) == n
  {
    if n >= 10 {
      var d := Numeral(n);
      NumeralValue(n / 10);
      assert d[..|d| - 1] == Numeral(n / 10);
    }
  }

  /** Scanning digits from `i` in a buffer whose tail is all digits reaches the end. */
  lemma {:induction false} DigitsEndAll(s: string, i: nat)
    requires i <= |s|
    requires forall k :: i <= k < |s| ==> IsDigit(s[k])
    ensures DigitsEnd(s, i) == |s|
    decreases |s| - i
  {
    if i < |s| {
      DigitsEndAll(s, i + 1);
    }
  }

  /** `atoi` reads back every integer that `printf("%d")` writes. */
  lemma AtoiFormat(n: int)
    ensures Atoi(Format(n)) == n
  {
    var s := Format(n);
    var j := if n < 0 then 1 else 0;
    assert s[j..] == Numeral(if n < 0 then -n else n);
    assert SkipSpaces(s, 0) == 0;
    assert SkipSign(s, 0) == j;
    DigitsEndAll(s, j);
    NumeralValue(if n < 0 then -n else n);
    assert s[j..|s|] == s[j..];
    assert NegativeAt(s, 0) <==> n < 0;
  }

  /** `atof` agrees with `atoi` on every integer numeral. */
  lemma AtofFormat(n: int)
    ensures Atof(Format(n)) == n as real
  {
    var s := Format(n);
    var j := if n < 0 then 1 else 0;
    assert s[j..] == Numeral(if n < 0 then -n else n);
    assert SkipSpaces(s, 0) == 0;
    assert SkipSign(s, 0) == j;
    DigitsEndAll(s, j);
    NumeralValue(if n < 0 then -n else n);
    assert ScanMantissa(s, j) == Mantissa(s[j..], 0, |s|);
    assert Exponent(s, |s|) == 0;
  }
}
