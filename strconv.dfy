/** Go's `strconv.Atoi` on a 64-bit platform, as far as the amount parser relies
    on it: an optional sign followed by one or more ASCII decimal digits, whose
    value must fit in an `int64`. The parse itself follows `ParseInt` and
    `ParseUint` (base 10): sign first, then left-to-right accumulation that
    gives up as soon as the value passes the unsigned 64-bit range. */
module Strconv {

  import opened Wrappers
  import opened ValueObject

  const MaxInt64: int := 0x7fff_ffff_ffff_ffff
  const MinInt64: int := -0x8000_0000_0000_0000
  const MaxUint64: int := 0xffff_ffff_ffff_ffff

  predicate IsDigit(c: char) { '0' <= c <= '9' }

  function DigitValue(c: char): (d: nat)
    requires IsDigit(c)
    ensures d < 10
  {
    (c as int) - ('0' as int)
  }

  function DigitChar(d: nat): (c: char)
    requires d < 10
    ensures IsDigit(c) && DigitValue(c) == d
  {
    (('0' as int) + d) as char
  }

  predicate AllDigits(s: string) { forall i :: 0 <= i < |s| ==> IsDigit(s[i]) }

  function Pow10(n: nat): (p: nat)
    ensures p >= 1
  {
    if n == 0 then 1 else 10 * Pow10(n - 1)
  }

  /** The positional value of a digit string: the first digit weighs
      `10^(|s|-1)`. This is the reference meaning of a decimal numeral. */
  function DecimalValue(s: string): nat
    requires AllDigits(s)
  {
    if s == [] then 0 else DigitValue(s[0]) * Pow10(|s| - 1) + DecimalValue(s[1..])
  }

  /** The grammar `Atoi` accepts: an optional `+` or `-`, then at least one digit. */
  predicate IsDecimalInteger(s: string)
  {
    |s| > 0 &&
    var body := if s[0] == '+' || s[0] == '-' then s[1..] else s;
    |body| > 0 && AllDigits(body)
  }

  /** The signed value a text of that grammar denotes. */
  function SignedDecimalValue(s: string): int
    requires IsDecimalInteger(s)
  {
    if s[0] == '-' then -(DecimalValue(s[1..]) as int)
    else if s[0] == '+' then DecimalValue(s[1..])
    else DecimalValue(s)
  }

  /** `ParseUint(s, 10, 64)` after its empty-string check: multiply-and-add
      from the left, failing on the first non-digit or once the value no
      longer fits in 64 unsigned bits. */
  function AccumulateDecimal(s: string, acc: nat): Option<nat>
    decreases |s|
  {
    if s == [] then Some(acc)
    else if !IsDigit(s[0]) then None
    else
      var n := acc * 10 + DigitValue(s[0]);
      if n > MaxUint64 then None else AccumulateDecimal(s[1..], n)
  }

  /** The accumulation agrees with the positional value: it succeeds exactly
      on digit strings whose value (continuing `acc`) fits in 64 unsigned bits. */
  lemma {:induction false} AccumulateDecimalMeaning(s: string, acc: nat)
    requires acc <= MaxUint64
    ensures AccumulateDecimal(s, acc).Some? <==>
              AllDigits(s) && acc * Pow10(|s|) + DecimalValue(s) <= MaxUint64
    ensures AccumulateDecimal(s, acc).Some? ==>
              AccumulateDecimal(s, acc).value == acc * Pow10(|s|) + DecimalValue(s)
  {
    if s != [] && IsDigit(s[0]) {
      var n := acc * 10 + DigitValue(s[0]);
      assert AllDigits(s) <==> AllDigits(s[1..]);
      if AllDigits(s) {
        LeadingDigit(s, acc);
      }
      if n <= MaxUint64 {
        AccumulateDecimalMeaning(s[1..], n);
      } else if AllDigits(s) {
        MulAtLeast(n, Pow10(|s| - 1));
      }
    }
  }

  /** Peeling the leading digit into the accumulator keeps the total. */
  lemma LeadingDigit(s: string, acc: nat)
    requires |s| > 0 && AllDigits(s)
    ensures acc * Pow10(|s|) + DecimalValue(s) ==
            (acc * 10 + DigitValue(s[0])) * Pow10(|s| - 1) + DecimalValue(s[1..])
  {
    var p := Pow10(|s| - 1);
    var d := DigitValue(s[0]);
    assert Pow10(|s|) == 10 * p;
    MulAssoc(acc, 10, p);
    MulDistrib(acc * 10, d, p);
  }

  lemma MulAssoc(a: int, b: int, c: int)
    ensures a * (b * c) == (a * b) * c
  {
  }

  lemma MulDistrib(a: int, b: int, c: int)
    ensures (a + b) * c == a * c + b * c
  {
  }

  lemma MulAtLeast(n: nat, p: nat)
    requires p >= 1
    ensures n * p >= n
  {
    assert n * p == n * (p - 1) + n;
  }

  /** `strconv.Atoi(s)` (via `ParseInt(s, 10, 0)`): on failure the value is 0
      and the error is reported. The syntax and range errors of Go are one
      error here, since the amount parser treats them alike. */
  function Atoi(s: string): (r: Fallible<int>)
    ensures r.Ok() <==> IsDecimalInteger(s) && MinInt64 <= SignedDecimalValue(s) <= MaxInt64
    ensures r.Ok() ==> r.value == SignedDecimalValue(s)
    ensures !r.Ok() ==> r.value == 0 && r.err == Some(InvalidNumber)
  {
    if s == [] then Fallible(0, Some(InvalidNumber))
    else
      var neg := s[0] == '-';
      var digits := if s[0] == '+' || s[0] == '-' then s[1..] else s;
      if digits == [] then Fallible(0, Some(InvalidNumber))
      else
        AccumulateDecimalMeaning(digits, 0);
        match AccumulateDecimal(digits, 0)
        case None => Fallible(0, Some(InvalidNumber))
        case Some(u) =>
          if !neg && u > MaxInt64 then Fallible(0, Some(InvalidNumber))
          else if neg && u > -MinInt64 then Fallible(0, Some(InvalidNumber))
          else Fallible(if neg then -(u as int) else u as int, None)
  }

  /** The decimal numeral of a non-negative number, most significant digit
      first, without leading zeros (Go's `strconv.Itoa` on such a number). */
  function FormatDecimal(n: nat): (s: string)
    ensures |s| > 0 && AllDigits(s)
  {
    if n < 10 then [DigitChar(n)] else FormatDecimal(n / 10) + [DigitChar(n % 10)]
  }

  /** Appending a digit multiplies the value by ten and adds the digit. */
  lemma {:induction false} DecimalValueSnoc(s: string, c: char)
    requires AllDigits(s) && IsDigit(c)
    ensures AllDigits(s + [c])
    ensures DecimalValue(s + [c]) == DecimalValue(s) * 10 + DigitValue(c)
  {
    if s == [] {
    } else {
      assert (s + [c])[1..] == s[1..] + [c];
      DecimalValueSnoc(s[1..], c);
      var k := |s| - 1;
      var d := DigitValue(s[0]);
      var p := Pow10(k);
      assert Pow10(k + 1) == 10 * p;
      assert DecimalValue(s + [c]) == d * (10 * p) + (DecimalValue(s[1..]) * 10 + DigitValue(c));
      MulAssoc(d, 10, p);
      MulDistrib(d * p, DecimalValue(s[1..]), 10);
      assert d * (10 * p) == (d * p) * 10;
    }
  }

  /** The numeral `FormatDecimal` writes denotes the number. */
  lemma {:induction false} FormatDecimalValue(n: nat)
    ensures DecimalValue(FormatDecimal(n)) == n
  {
    if n >= 10 {
      FormatDecimalValue(n / 10);
      DecimalValueSnoc(FormatDecimal(n / 10), DigitChar(n % 10));
    }
  }

  /** Formatting then reading back gives the number: `Atoi(Itoa(n)) == n`
      for every non-negative `int64`, also with a `+` or `-` in front. */
  lemma AtoiFormatDecimal(n: nat)
    requires n <= MaxInt64
    ensures Atoi(FormatDecimal(n)) == Fallible(n, None)
    ensures Atoi("+" + FormatDecimal(n)) == Fallible(n, None)
    ensures Atoi("-" + FormatDecimal(n)) == Fallible(-(n as int), None)
  {
    FormatDecimalValue(n);
    var s := FormatDecimal(n);
    assert ("+" + s)[1..] == s;
    assert ("-" + s)[1..] == s;
  }
}
