/** The C library number conversions the desktop shell relies on: `isspace`
    in the "C" locale, `strtol(s, &end, 10)`, `atoi`, C's truncating integer
    `/`, and the truncating conversion of a floating value to `int`.
    Integers are unbounded here: overflow of `long` and `int` is not modelled. */
module CNum {

  /** `isspace` in the "C" locale. */
  predicate IsSpace(c: char) {
    c == ' ' || c == '\t' || c == '\n' || c == '\U{000B}' || c == '\U{000C}' || c == '\r'
  }

  predicate IsDigit(c: char) {
    '0' <= c <= '9'
  }

  function DigitValue(c: char): (d: nat)
    requires IsDigit(c)
    ensures d < 10
  {
    (c as int) - ('0' as int)
  }

  predicate AllDigits(ds: string) {
    forall k :: 0 <= k < |ds| ==> IsDigit(ds[k])
  }

  function Pow10(n: nat): (p: nat)
    ensures p >= 1
  {
    if n == 0 then 1 else 10 * Pow10(n - 1)
  }

  /** The number written by the decimal digits `ds`, most significant first;
      it has no more than `|ds|` digits. */
  function DecimalValue(ds: string): (v: nat)
    requires AllDigits(ds)
    ensures v < Pow10(|ds|)
  {
    if ds == [] then 0 else DecimalValue(ds[..|ds| - 1]) * 10 + DigitValue(ds[|ds| - 1])
  }

  /** Digits that do not start with '0' write a positive number. */
  lemma {:induction false} LeadingNonZeroIsPositive(ds: string)
    requires ds != [] && AllDigits(ds) && ds[0] != '0'
    ensures DecimalValue(ds) > 0
  {
    if |ds| > 1 {
      LeadingNonZeroIsPositive(ds[..|ds| - 1]);
    }
  }

  /** The index of the first character at or after `i` that is not a space. */
  function SkipSpaces(s: string, i: nat): (j: nat)
    requires i <= |s|
    ensures i <= j <= |s|
    ensures forall k :: i <= k < j ==> IsSpace(s[k])
    ensures j == |s| || !IsSpace(s[j])
    decreases |s| - i
  {
    if i < |s| && IsSpace(s[i]) then SkipSpaces(s, i + 1) else i
  }

  /** The end of the maximal run of decimal digits that starts at `i`. */
  function DigitRunEnd(s: string, i: nat): (j: nat)
    requires i <= |s|
    ensures i <= j <= |s|
    ensures forall k :: i <= k < j ==> IsDigit(s[k])
    ensures j == |s| || !IsDigit(s[j])
    decreases |s| - i
  {
    if i < |s| && IsDigit(s[i]) then DigitRunEnd(s, i + 1) else i
  }

  /** What `strtol(s, &end, 10)` stores: the converted value and the offset
      of `end` in `s`. */
  datatype Conversion = Conversion(value: int, end: nat)

  /** `strtol(s, &end, 10)`: optional spaces, an optional sign, then the
      maximal run of decimal digits. With no digit the value is 0 and `end`
      is the start of `s`, not the position after the spaces and sign. */
  function Strtol(s: string): (r: Conversion)
    ensures r.end <= |s|
    ensures r.end == 0 ==> r.value == 0
    ensures r.end > 0 ==> IsDigit(s[r.end - 1]) && (r.end == |s| || !IsDigit(s[r.end]))
  {
    var i := SkipSpaces(s, 0);
    var j := if i < |s| && (s[i] == '+' || s[i] == '-') then i + 1 else i;
    var k := DigitRunEnd(s, j);
    if k == j then Conversion(0, 0)
    else
      var magnitude: int := DecimalValue(s[j..k]);
      Conversion(if j > i && s[i] == '-' then -magnitude else magnitude, k)
  }

  /** The digit character for `d`. */
  function DigitChar(d: nat): (c: char)
    requires d < 10
    ensures IsDigit(c) && DigitValue(c) == d
  {
    (('0' as int) + d) as char
  }

  /** A non-negative number written in decimal, as `printf("%d")` writes it. */
  function DecimalString(n: nat): (s: string)
    ensures s != [] && AllDigits(s)
  {
    if n < 10 then [DigitChar(n)] else DecimalString(n / 10) + [DigitChar(n % 10)]
  }

  /** Reading back a number written in decimal gives the number. */
  lemma {:induction false} DecimalRoundTrip(n: nat)
    ensures DecimalValue(DecimalString(n)) == n
  {
    var s := DecimalString(n);
    if n >= 10 {
      DecimalRoundTrip(n / 10);
      assert s[..|s| - 1] == DecimalString(n / 10);
    }
  }

  /** An `int` as `printf("%d")` writes it: a minus sign before the digits
      of a negative number. */
  function IntString(n: int): string {
    if n < 0 then "-" + DecimalString(-n) else DecimalString(n)
  }

  /** `atoi(s)`, which is `(int) strtol(s, NULL, 10)`. */
  function Atoi(s: string): int {
    Strtol(s).value
  }

  lemma {:induction false} DigitRunEndAt(s: string, i: nat, j: nat)
    requires i <= j <= |s|
    requires forall k :: i <= k < j ==> IsDigit(s[k])
    requires j == |s| || !IsDigit(s[j])
    ensures DigitRunEnd(s, i) == j
    decreases j - i
  {
    if i < j {
      DigitRunEndAt(s, i + 1, j);
    }
  }

  /** A string that starts with digits converts to exactly those digits, and
      `end` points just past them. */
  lemma StrtolOfDigits(ds: string, rest: string)
    requires ds != [] && AllDigits(ds)
    requires rest == [] || !IsDigit(rest[0])
    ensures Strtol(ds + rest) == Conversion(DecimalValue(ds), |ds|)
  {
    var s := ds + rest;
    assert !IsSpace(s[0]) && s[0] != '+' && s[0] != '-';
    assert SkipSpaces(s, 0) == 0;
    DigitRunEndAt(s, 0, |ds|);
    assert s[0..|ds|] == ds;
  }

  /** `strtol` reads back every number `printf("%d")` writes, and stops at
      the end of the text. */
  lemma IntStringRoundTrip(n: int)
    ensures Strtol(IntString(n)) == Conversion(n, |IntString(n)|)
  {
    if n >= 0 {
      DecimalRoundTrip(n);
      StrtolOfDigits(DecimalString(n), []);
      assert DecimalString(n) + [] == DecimalString(n);
    } else {
      var ds := DecimalString(-n);
      var s := IntString(n);
      DecimalRoundTrip(-n);
      assert SkipSpaces(s, 0) == 0;
      DigitRunEndAt(s, 1, |s|);
      assert s[1..|s|] == ds;
    }
  }

  /** `atoi` of text that does not start with a space, a sign or a digit is 0. */
  lemma AtoiNonNumeric(s: string)
    requires s == [] || (!IsSpace(s[0]) && !IsDigit(s[0]) && s[0] != '+' && s[0] != '-')
    ensures Atoi(s) == 0
  {
  }

  /** C's `a / b` for `b > 0`: the quotient truncated toward zero. */
  function CDiv(a: int, b: int): (q: int)
    requires b > 0
    ensures a >= 0 ==> q * b <= a < q * b + b
    ensures a < 0 ==> q * b - b < a <= q * b
  {
    if a >= 0 then a / b else -((-a) / b)
  }

  /** The conversion of a floating value to `int`: truncation toward zero. */
  function Trunc(r: real): (n: int)
    ensures 0.0 <= r ==> 0 <= n && (n as real) <= r < (n as real) + 1.0
    ensures r < 0.0 ==> n <= 0 && (n as real) - 1.0 < r <= (n as real)
  {
    if r >= 0.0 then r.Floor else -((-r).Floor)
  }
}
