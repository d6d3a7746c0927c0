/** Decimal text of integers: the canonical printer behind fmt's %d and strconv.Itoa, and
    strconv.Atoi on 64-bit integers. */
module Decimal {
  import opened Text

  const MIN_INT64: int := -0x8000_0000_0000_0000
  const MAX_INT64: int := 0x7FFF_FFFF_FFFF_FFFF

  predicate IsInt64(i: int) { MIN_INT64 <= i <= MAX_INT64 }

  /** Two's complement wrap-around of an integer to 64 bits. */
  function Wrap64(x: int): (r: int)
    ensures IsInt64(r)
    ensures IsInt64(x) ==> r == x
  {
    (x - MIN_INT64) % 0x1_0000_0000_0000_0000 + MIN_INT64
  }

  predicate IsDigit(c: char) { '0' <= c <= '9' }

  predicate AllDigits(s: string) { forall i :: 0 <= i < |s| ==> IsDigit(s[i]) }

  function Digit(d: nat): (c: char)
    requires d < 10
    ensures IsDigit(c) && DigitValue(c) == d
  {
    ('0' as int + d) as char
  }

  function DigitValue(c: char): nat
    requires IsDigit(c)
  {
    c as int - '0' as int
  }

  /** Decimal digits of a natural number, most significant first. */
  function Dec(n: nat): (s: string)
    ensures |s| >= 1 && AllDigits(s)
  {
    if n < 10 then [Digit(n)] else Dec(n / 10) + [Digit(n % 10)]
  }

  function DecValue(s: string): nat
    requires AllDigits(s)
  {
    if s == "" then 0 else 10 * DecValue(s[..|s| - 1]) + DigitValue(s[|s| - 1])
  }

  lemma {:induction false} DecRoundTrip(n: nat)
    ensures DecValue(Dec(n)) == n
  {
    if n >= 10 {
      DecRoundTrip(n / 10);
      assert Dec(n)[..|Dec(n)| - 1] == Dec(n / 10);
    } else {
      assert Dec(n)[..0] == "";
    }
  }

  /** The text that %d prints. */
  function SignedDec(i: int): (s: string)
    ensures |s| >= 1
  {
    if i < 0 then "-" + Dec(-i) else Dec(i)
  }

  /** Characters of printed numbers; neither '.' nor ':' nor '/' is one. */
  lemma SignedDecChars(i: int)
    ensures forall k :: 0 <= k < |SignedDec(i)| ==> IsDigit(SignedDec(i)[k]) || SignedDec(i)[k] == '-'
    ensures '.' !in SignedDec(i) && ':' !in SignedDec(i) && '/' !in SignedDec(i) && '\n' !in SignedDec(i)
    ensures IsDigit(SignedDec(i)[0]) || SignedDec(i)[0] == '-'
    ensures IsDigit(SignedDec(i)[|SignedDec(i)| - 1])
  {
  }

  lemma SignedDecInjective(i: int, j: int)
    requires SignedDec(i) == SignedDec(j)
    ensures i == j
  {
    if i < 0 {
      assert SignedDec(i)[1..] == Dec(-i);
      assert !IsDigit(SignedDec(i)[0]);
      assert j < 0;
      assert SignedDec(j)[1..] == Dec(-j);
      DecRoundTrip(-i);
      DecRoundTrip(-j);
    } else {
      assert IsDigit(SignedDec(i)[0]);
      assert j >= 0;
      DecRoundTrip(i);
      DecRoundTrip(j);
    }
  }

  predicate Signed(s: string) { s != "" && (s[0] == '-' || s[0] == '+') }

  function Magnitude(s: string): string { if Signed(s) then s[1..] else s }

  /** strconv.Atoi: an optional sign, at least one digit, nothing else, within 64 bits. */
  function Atoi(s: string): (r: Option<int>)
    ensures r.Some? ==> IsInt64(r.value)
  {
    var digits := Magnitude(s);
    if digits == "" || !AllDigits(digits) then None
    else
      var n: int := DecValue(digits);
      var v := if s[0] == '-' then -n else n;
      if IsInt64(v) then Some(v) else None
  }

  function LeadingDigits(s: string): (d: string)
    ensures AllDigits(d) && d <= s
  {
    if s != "" && IsDigit(s[0]) then [s[0]] + LeadingDigits(s[1..]) else ""
  }

  /** The value strconv.Atoi returns when its error is ignored: zero for a syntax error, the nearest
      bound once the digits read so far no longer fit. */
  function AtoiLenient(s: string): int {
    match Atoi(s)
    case Some(v) => v
    case None =>
      var digits := Magnitude(s);
      var run := LeadingDigits(digits);
      if run != "" && (run == digits || DecValue(run) > 2 * MAX_INT64 + 1)
      then if s[0] == '-' then MIN_INT64 else MAX_INT64
      else 0
  }

  /** Every 64-bit integer is read back from its canonical text. */
  lemma AtoiSignedDec(i: int)
    requires IsInt64(i)
    ensures Atoi(SignedDec(i)) == Some(i)
  {
    SignedDecChars(i);
    if i < 0 {
      assert SignedDec(i)[1..] == Dec(-i);
      DecRoundTrip(-i);
    } else {
      assert IsDigit(SignedDec(i)[0]);
      DecRoundTrip(i);
    }
  }
}
