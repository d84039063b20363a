/** The amount conversion shared by the Slack handlers: `parseYen` in
    internal/infrastructure/handler/converter.go, whose three steps are also
    written inline in the command and event handlers. */
module Handler {

  import opened Wrappers
  import opened ValueObject
  import opened Strconv

  /** `strings.ReplaceAll(text, ",", "")`: every comma goes, every other
      character stays, in order. */
  function RemoveCommas(text: string): (r: string)
    ensures ',' !in r
  {
    if text == [] then []
    else (if text[0] == ',' then [] else [text[0]]) + RemoveCommas(text[1..])
  }

  /** Only commas are dropped: every other character keeps its count, and the
      length shrinks by the number of commas. */
  lemma {:induction false} RemoveCommasKeepsOthers(text: string)
    ensures |RemoveCommas(text)| == |text| - multiset(text)[',']
    ensures forall c :: c != ',' ==> multiset(RemoveCommas(text))[c] == multiset(text)[c]
  {
    if text != [] {
      assert text == [text[0]] + text[1..];
      RemoveCommasKeepsOthers(text[1..]);
    }
  }

  /** `parseYen`: drop the commas, read the rest with `strconv.Atoi`, then
      build the amount with `NewYen`. Every failure returns `Yen(0)`. */
  function ParseYen(text: string): (r: Fallible<Yen>)
    ensures !r.Ok() ==> r.value == Yen(0)
    ensures var raw := RemoveCommas(text);
            r.Ok() <==> IsDecimalInteger(raw) && 0 <= SignedDecimalValue(raw) <= MaxInt64
    ensures var raw := RemoveCommas(text);
            r.Ok() ==> r.value.Int64() == SignedDecimalValue(raw) && r.value.Int64() >= 0
    ensures var raw := RemoveCommas(text);
            r.err == Some(NegativeAmount) <==>
              IsDecimalInteger(raw) && MinInt64 <= SignedDecimalValue(raw) < 0
    ensures var raw := RemoveCommas(text);
            r.err == Some(InvalidNumber) <==>
              !(IsDecimalInteger(raw) && MinInt64 <= SignedDecimalValue(raw) <= MaxInt64)
  {
    var rawYen := RemoveCommas(text);
    var amount := Atoi(rawYen);
    if !amount.Ok() then Fallible(Yen(0), Some(InvalidNumber))
    else
      var yen := NewYen(amount.value);
      if !yen.Ok() then Fallible(Yen(0), yen.err)
      else Fallible(yen.value, None)
  }

  /** Removing commas commutes with concatenation. */
  lemma {:induction false} RemoveCommasAppend(a: string, b: string)
    ensures RemoveCommas(a + b) == RemoveCommas(a) + RemoveCommas(b)
  {
    if a == [] {
      assert a + b == b;
    } else {
      assert (a + b)[0] == a[0] && (a + b)[1..] == a[1..] + b;
      RemoveCommasAppend(a[1..], b);
    }
  }

  /** A comma anywhere in the text changes nothing: "1,000", "1000" and
      "1,0,00" are the same amount. */
  lemma CommaAnywhere(a: string, b: string)
    ensures ParseYen(a + "," + b) == ParseYen(a + b)
  {
    assert RemoveCommas(",") == [];
    calc {
      RemoveCommas(a + "," + b);
      { RemoveCommasAppend(a + ",", b); }
      RemoveCommas(a + ",") + RemoveCommas(b);
      { RemoveCommasAppend(a, ","); }
      RemoveCommas(a) + RemoveCommas(b);
      { RemoveCommasAppend(a, b); }
      RemoveCommas(a + b);
    }
    var raw := RemoveCommas(a + b);
    assert ParseYen(a + "," + b) == ParseYen(a + b) by {
      assert RemoveCommas(a + "," + b) == raw;
    }
  }

  /** Comma-free text is left as it is. */
  lemma {:induction false} RemoveCommasNoComma(text: string)
    requires ',' !in text
    ensures RemoveCommas(text) == text
  {
    if text != [] {
      assert text[0] != ',';
      assert ',' !in text[1..];
      RemoveCommasNoComma(text[1..]);
    }
  }

  /** Every amount an `int64` can hold, written out in decimal (with or
      without a `+`), reads back as itself. */
  lemma ParseYenRoundTrip(n: nat)
    requires n <= MaxInt64
    ensures ParseYen(FormatDecimal(n)) == Fallible(Yen(n), None)
    ensures ParseYen("+" + FormatDecimal(n)) == Fallible(Yen(n), None)
  {
    var s := FormatDecimal(n);
    AtoiFormatDecimal(n);
    assert forall i :: 0 <= i < |s| ==> IsDigit(s[i]);
    assert ',' !in s;
    RemoveCommasNoComma(s);
    assert ',' !in "+" + s;
    RemoveCommasNoComma("+" + s);
  }

  /** A negative amount is refused by `NewYen`, zero with a minus sign is not. */
  lemma ParseYenSign(n: nat)
    requires 0 < n <= MaxInt64
    ensures ParseYen("-" + FormatDecimal(n)) == Fallible(Yen(0), Some(NegativeAmount))
    ensures ParseYen("-0") == Fallible(Yen(0), None)
  {
    var s := FormatDecimal(n);
    AtoiFormatDecimal(n);
    assert ',' !in "-" + s;
    RemoveCommasNoComma("-" + s);
    AtoiFormatDecimal(0);
    assert FormatDecimal(0) == "0";
    assert ',' !in "-0";
    RemoveCommasNoComma("-0");
  }

  /** Values past the `int64` range fail to parse, whatever their sign. */
  lemma ParseYenOutOfRange(n: nat)
    requires n > MaxInt64
    ensures ParseYen(FormatDecimal(n)) == Fallible(Yen(0), Some(InvalidNumber))
    ensures ParseYen("+" + FormatDecimal(n)) == Fallible(Yen(0), Some(InvalidNumber))
    ensures n > -MinInt64 ==> ParseYen("-" + FormatDecimal(n)) == Fallible(Yen(0), Some(InvalidNumber))
  {
    var s := FormatDecimal(n);
    FormatDecimalValue(n);
    assert ',' !in s;
    RemoveCommasNoComma(s);
    assert ',' !in "+" + s;
    RemoveCommasNoComma("+" + s);
    assert ("+" + s)[1..] == s;
    assert ',' !in "-" + s;
    RemoveCommasNoComma("-" + s);
    assert ("-" + s)[1..] == s;
  }

  /** Empty text, a lone comma and a lone sign fail to parse. */
  lemma ParseYenRejectsEmpty()
    ensures ParseYen("") == Fallible(Yen(0), Some(InvalidNumber))
    ensures ParseYen(",") == Fallible(Yen(0), Some(InvalidNumber))
    ensures ParseYen("+") == Fallible(Yen(0), Some(InvalidNumber))
  {
    assert RemoveCommas(",") == "";
    RemoveCommasNoComma("+");
  }

  // Worked examples.

  lemma ParseYenPlain()
    ensures ParseYen("1000") == Fallible(Yen(1000), None)
  {
    var s := FormatDecimal(1000);
    assert s == "1000";
    ParseYenRoundTrip(1000);
  }

  lemma ParseYenThousandsSeparator()
    ensures ParseYen("1,000") == ParseYen("1000")
  {
    assert "1" + "," + "000" == "1,000" && "1" + "000" == "1000";
    CommaAnywhere("1", "000");
  }

  lemma ParseYenScatteredCommas()
    ensures ParseYen("1,0,00") == ParseYen("1,000")
  {
    assert "1,0" + "," + "00" == "1,0,00" && "1,0" + "00" == "1,000";
    CommaAnywhere("1,0", "00");
  }

  lemma ParseYenSignExamples()
    ensures ParseYen("+12") == Fallible(Yen(12), None)
    ensures ParseYen("-5") == Fallible(Yen(0), Some(NegativeAmount))
  {
    assert FormatDecimal(12) == "12";
    ParseYenRoundTrip(12);
    assert FormatDecimal(5) == "5";
    ParseYenSign(5);
  }

  lemma ParseYenRejectsLetters()
    ensures ParseYen("12a") == Fallible(Yen(0), Some(InvalidNumber))
  {
    var t := "12a";
    RemoveCommasNoComma(t);
    assert !AllDigits(t) by { assert !IsDigit(t[2]); }
    assert !IsDecimalInteger(t);
  }
}
