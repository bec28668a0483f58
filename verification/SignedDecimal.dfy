/** What the parser of UI amounts makes of a plus sign. Rust's number parser takes one in front of
    the digits, and the digits are the whole part and the fraction run together. */
module SignedDecimal {
  import opened Prelude
  import opened Decimal

  /** The sign opens the whole part. */
  predicate SignedWhole(text: string, whole: string, fraction: string) {
    && AllDigits(whole) && AllDigits(fraction)
    && (text == "+" + whole + "." + fraction || (fraction == "" && text == "+" + whole))
  }

  /** There is no whole part and the sign opens the fraction. */
  predicate SignedFraction(text: string, fraction: string) {
    AllDigits(fraction) && text == ".+" + fraction
  }

  /** In front of the whole part the sign does not count, and with at least one decimal it even
      makes nothing at all, or a lone fraction of zeroes, a number: zero. */
  ghost predicate ReadsWhole(text: string, decimals: u8, v: nat, whole: string, fraction: string) {
    && SignedWhole(text, whole, fraction)
    && (whole != "" || Significant(fraction) || decimals > 0)
    && Equals(v, decimals, whole, fraction)
  }

  /** In front of the fraction it takes the place of a digit: the value is read with one decimal
      less. */
  ghost predicate ReadsFraction(text: string, decimals: u8, v: nat, fraction: string) {
    && SignedFraction(text, fraction)
    && decimals > 0 && (Significant(fraction) || decimals > 1)
    && Equals(v, decimals - 1, "", fraction)
  }

  /** On text with a plus sign: the parser yields `v` in these two cases and no other, so never
      with two signs, nor with a sign behind a digit. */
  lemma ParsedWithSign(text: string, decimals: u8, v: u64)
    requires '+' in text
    ensures Parsed(text, decimals) == Ok(v)
       <==> || (exists whole, fraction :: ReadsWhole(text, decimals, v, whole, fraction))
            || (exists fraction :: ReadsFraction(text, decimals, v, fraction))
  {
    hide *;
    if Parsed(text, decimals) == Ok(v) {
      var whole, fraction, kept := ParsedParts(text, decimals, v);
      SignIsFirst(text, decimals, v, whole, fraction, kept);
      if whole != "" {
        WholeIsRead(text, decimals, v, whole, fraction, kept);
      } else {
        FractionIsRead(text, decimals, v, fraction, kept);
      }
    }
    if whole, fraction :| ReadsWhole(text, decimals, v, whole, fraction) {
      WholeParses(text, decimals, v, whole, fraction);
    }
    if fraction :| ReadsFraction(text, decimals, v, fraction) {
      FractionParses(text, decimals, v, fraction);
    }
  }

  lemma SignIsFirst(text: string, decimals: u8, v: u64, whole: string, fraction: string, kept: string)
    requires '+' in text
    requires text == whole + "." + fraction || (text == whole && fraction == "")
    requires kept <= fraction && |kept| <= decimals && fraction == kept + Zeros(|fraction| - |kept|)
    requires ParseU64(whole + kept + Zeros(decimals - |kept|)) == Ok(v)
    ensures var digits := whole + kept + Zeros(decimals - |kept|);
            && |digits| > 1 && digits[0] == '+' && AllDigits(digits[1..]) && ToNat(digits[1..]) == v
  {
    hide ToNat;
    var digits := whole + kept + Zeros(decimals - |kept|);
    if AllDigits(digits) {
      forall i | 0 <= i < |text| ensures text[i] != '+' {
        if i < |whole| {
          assert text[i] == digits[i];
        } else if i > |whole| {
          var j := i - |whole| - 1;
          assert text[i] == fraction[j];
          assert j < |kept| ==> fraction[j] == kept[j] == digits[|whole| + j];
        }
      }
      assert false;
    }
  }

  lemma WholeIsRead(text: string, decimals: u8, v: u64, whole: string, fraction: string, kept: string)
    requires text == whole + "." + fraction || (text == whole && fraction == "")
    requires kept <= fraction && (kept == "" || kept[|kept| - 1] != '0') && |kept| <= decimals
    requires fraction == kept + Zeros(|fraction| - |kept|) && whole != ""
    requires var digits := whole + kept + Zeros(decimals - |kept|);
             |digits| > 1 && digits[0] == '+' && AllDigits(digits[1..]) && ToNat(digits[1..]) == v
    ensures ReadsWhole(text, decimals, v, whole[1..], fraction)
  {
    hide ToNat, Pow10, AllDigits, Zeros;
    var rest := whole[1..];
    var zeros := decimals - |kept|;
    assert (whole + kept + Zeros(zeros))[1..] == rest + kept + Zeros(zeros) && whole == "+" + rest;
    DigitPieces(rest, kept, Zeros(zeros));
    PaddingScales(rest, kept, |fraction| - |kept|, zeros);
    assert |kept| + (|fraction| - |kept|) == |fraction|;
    FractionDigits(fraction, kept);
    assert "+" + rest + "." + fraction == whole + "." + fraction;
    ZerosLength(zeros);
  }

  lemma FractionIsRead(text: string, decimals: u8, v: u64, fraction: string, kept: string)
    requires text == "" + "." + fraction || (text == "" && fraction == "")
    requires kept <= fraction && kept != "" && kept[|kept| - 1] != '0' && |kept| <= decimals
    requires fraction == kept + Zeros(|fraction| - |kept|)
    requires var digits := "" + kept + Zeros(decimals - |kept|);
             |digits| > 1 && digits[0] == '+' && AllDigits(digits[1..]) && ToNat(digits[1..]) == v
    ensures ReadsFraction(text, decimals, v, fraction[1..])
  {
    hide ToNat, Pow10, AllDigits, Zeros;
    var rest, more := kept[1..], fraction[1..];
    var zeros, dropped := decimals - |kept|, |fraction| - |kept|;
    assert ("" + kept + Zeros(zeros))[1..] == "" + rest + Zeros(zeros);
    assert more == rest + Zeros(dropped) && rest <= more;
    DigitPieces("", rest, Zeros(zeros));
    PaddingScales("", rest, dropped, zeros);
    assert |rest| + dropped == |more| && |rest| + zeros == decimals - 1;
    assert "" + (rest + Zeros(dropped)) == "" + more;
    FractionDigits(more, rest);
    assert text == ".+" + more;
    ZerosLength(zeros);
  }

  lemma ZerosLength(n: nat)
    ensures |Zeros(n)| == n && AllDigits(Zeros(n))
  {
  }

  lemma DigitPieces(a: string, b: string, c: string)
    requires AllDigits(a + b + c)
    ensures AllDigits(a) && AllDigits(b)
  {
    var s := a + b + c;
    assert forall i :: 0 <= i < |a| ==> a[i] == s[i];
    assert forall i :: 0 <= i < |b| ==> b[i] == s[|a| + i];
  }

  lemma FractionDigits(fraction: string, kept: string)
    requires AllDigits(kept) && kept <= fraction && fraction == kept + Zeros(|fraction| - |kept|)
    ensures AllDigits(fraction)
    ensures kept != "" && kept[|kept| - 1] != '0' ==> Significant(fraction)
  {
    assert forall i :: 0 <= i < |fraction| ==> fraction[i] == if i < |kept| then kept[i] else '0';
  }

  lemma WholeParses(text: string, decimals: u8, v: u64, whole: string, fraction: string)
    requires ReadsWhole(text, decimals, v, whole, fraction)
    ensures Parsed(text, decimals) == Ok(v)
  {
    hide ToNat, Pow10, Split, TrimEnd;
    var kept := TrimEnd(fraction, '0');
    var dropped := |fraction| - |kept|;
    SplitSigned(text, whole, fraction);
    TrimmedZeros(fraction);
    FractionFits(v, decimals, whole, kept, dropped);
    var added := decimals - |kept|;
    PaddingScales(whole, kept, dropped, added);
    var digits := whole + kept + Zeros(added);
    Cancel(v, ToNat(digits), Pow10(|fraction|));
    assert kept == "" ==> !Significant(fraction);
    assert digits != "";
    assert "+" + whole + kept + Zeros(added) == "+" + digits;
    PlusIgnored(digits);
  }

  lemma FractionParses(text: string, decimals: u8, v: u64, fraction: string)
    requires ReadsFraction(text, decimals, v, fraction)
    ensures Parsed(text, decimals) == Ok(v)
  {
    hide ToNat, Pow10, Split, TrimEnd;
    var kept := TrimEnd(fraction, '0');
    var dropped := |fraction| - |kept|;
    SplitAtPoint("", "+" + fraction);
    assert text == "" + "." + ("+" + fraction);
    TrimSigned(fraction);
    TrimmedZeros(fraction);
    FractionFits(v, decimals - 1, "", kept, dropped);
    var added := decimals - 1 - |kept|;
    PaddingScales("", kept, dropped, added);
    var digits := "" + kept + Zeros(added);
    assert "" + fraction == "" + (kept + Zeros(dropped));
    Cancel(v, ToNat(digits), Pow10(|fraction|));
    assert kept == "" ==> !Significant(fraction);
    assert "" + ("+" + kept) + Zeros(added) == "+" + digits;
    PlusIgnored(digits);
  }

  lemma SplitSigned(text: string, whole: string, fraction: string)
    requires SignedWhole(text, whole, fraction)
    ensures var parts := Split(text, '.');
            && parts[0] == "+" + whole && |parts| <= 2
            && fraction == if |parts| > 1 then parts[1] else ""
  {
    if text == "+" + whole + "." + fraction {
      SplitAtPoint("+" + whole, fraction);
    } else {
      assert '.' !in text;
    }
  }

  lemma PlusIgnored(digits: string)
    requires AllDigits(digits) && digits != "" && ToNat(digits) <= U64_MAX
    ensures ParseU64("+" + digits) == Ok(ToNat(digits))
  {
    assert ("+" + digits)[1..] == digits;
  }

  lemma {:induction false} TrimSigned(s: string)
    ensures TrimEnd("+" + s, '0') == "+" + TrimEnd(s, '0')
  {
    var t := "+" + s;
    if s != "" {
      assert t[|t| - 1] == s[|s| - 1];
      assert t[..|t| - 1] == "+" + s[..|s| - 1];
      TrimSigned(s[..|s| - 1]);
    }
  }

  // ------------------------------------------------------------ the text without its sign

  ghost predicate Numeral(text: string) {
    exists whole, fraction :: Spells(text, whole, fraction)
  }

  /** The text with the sign taken out that the parser looks at. */
  function WithoutSign(text: string): string
    requires '+' in text
  {
    if text[0] == '+' then text[1..] else if |text| > 1 then [text[0]] + text[2..] else text
  }

  /** A value read with a sign is the value of the text without it exactly when the sign stands in
      front of a numeral. */
  lemma SignIsHarmlessExactly(text: string, decimals: u8, v: u64)
    requires '+' in text && Parsed(text, decimals) == Ok(v)
    ensures Parsed(WithoutSign(text), decimals) == Ok(v) <==> text[0] == '+' && Numeral(text[1..])
  {
    hide Parsed, Equals;
    ParsedWithSign(text, decimals, v);
    if whole, fraction :| ReadsWhole(text, decimals, v, whole, fraction) {
      WholeWithoutSign(text, decimals, v, whole, fraction);
    } else {
      var fraction :| ReadsFraction(text, decimals, v, fraction);
      FractionWithoutSign(decimals, v, fraction);
      assert WithoutSign(text) == "." + fraction;
    }
  }

  lemma WholeWithoutSign(text: string, decimals: u8, v: u64, whole: string, fraction: string)
    requires ReadsWhole(text, decimals, v, whole, fraction)
    ensures text != "" && text[0] == '+'
    ensures Parsed(text[1..], decimals) == Ok(v) <==> Numeral(text[1..])
  {
    hide Parsed, Equals;
    var rest := text[1..];
    assert rest == whole + "." + fraction || (fraction == "" && rest == whole);
    assert '+' !in rest;
    ParseExact(rest, decimals, v);
    if w, f :| Spells(rest, w, f) {
      SameParts(rest, whole, fraction, w, f);
      assert Spells(rest, whole, fraction);
    }
  }

  lemma SameParts(text: string, whole: string, fraction: string, w: string, f: string)
    requires AllDigits(whole) && AllDigits(fraction)
    requires text == whole + "." + fraction || (fraction == "" && text == whole)
    requires Spells(text, w, f)
    ensures whole == w && fraction == f
  {
    SplitNumeral(text, w, f);
    if text == whole + "." + fraction {
      SplitAtPoint(whole, fraction);
    } else {
      assert '.' !in text;
    }
  }

  lemma FractionWithoutSign(decimals: u8, v: u64, fraction: string)
    requires AllDigits(fraction) && decimals > 0 && Equals(v, decimals - 1, "", fraction)
    ensures Parsed("." + fraction, decimals) != Ok(v)
  {
    hide Parsed, ToNat, Spells, Pow10;
    if Parsed("." + fraction, decimals) == Ok(v) {
      ParseExactFraction(decimals, v, fraction);
      SignificantIsPositive(fraction);
      assert "" + fraction == fraction;
      PowStep(decimals);
      TenfoldDiffers(v * Pow10(|fraction|), ToNat(fraction), Pow10(decimals - 1));
    }
  }

  lemma PowStep(n: nat)
    requires n > 0
    ensures Pow10(n) == 10 * Pow10(n - 1)
  {
  }

  lemma TenfoldDiffers(x: nat, n: nat, p: nat)
    requires n >= 1 && p >= 1 && x == n * p
    ensures x != n * (10 * p)
  {
    assert n * (10 * p) == 10 * (n * p);
    assert n * p >= 1;
  }

  lemma ParseExactFraction(decimals: u8, v: u64, fraction: string)
    requires AllDigits(fraction) && Parsed("." + fraction, decimals) == Ok(v)
    ensures Significant(fraction) && Equals(v, decimals, "", fraction)
  {
    ParseExact("." + fraction, decimals, v);
    var w, f :| Spells("." + fraction, w, f) && Equals(v, decimals, w, f);
    assert "." + fraction == "" + "." + fraction;
    SameParts("." + fraction, "", fraction, w, f);
  }

  lemma {:induction false} SignificantIsPositive(s: string)
    requires AllDigits(s) && Significant(s)
    ensures ToNat(s) >= 1
  {
    var front := s[..|s| - 1];
    if s[|s| - 1] == '0' {
      var i :| 0 <= i < |s| && s[i] != '0';
      assert front[i] != '0';
      SignificantIsPositive(front);
    }
  }

  /** Nothing but zeroes behind a point, or nothing at all. */
  predicate LoneZeros(text: string) {
    text == "" || (text[0] == '.' && forall i :: 0 < i < |text| ==> text[i] == '0')
  }

  /** Putting a sign in front of text without one changes the answer exactly when there is no digit
      to stand on and at least one decimal to fill up: then zero is read where an error was. */
  lemma LeadingPlus(text: string, decimals: u8)
    requires '+' !in text
    ensures Parsed("+" + text, decimals) == Parsed(text, decimals) <==> !(LoneZeros(text) && decimals > 0)
    ensures LoneZeros(text) ==> Parsed(text, decimals) == Err(InvalidArgument)
    ensures LoneZeros(text) && decimals > 0 ==> Parsed("+" + text, decimals) == Ok(0)
  {
    hide Parsed, Equals, LoneZeros;
    OnlyOneError(text, decimals);
    OnlyOneError("+" + text, decimals);
    var signed := "+" + text;
    assert signed[1..] == text && signed[0] == '+';
    if LoneZeros(text) {
      LoneZerosSpellNothing(text);
      NoNumeralNoValue(text, decimals);
      if decimals > 0 {
        ZeroIsRead(text, decimals);
      }
    }
    if Numeral(text) {
      SignedNumeral(text, decimals);
    } else {
      NoNumeralNoValue(text, decimals);
      if Parsed(signed, decimals).Ok? {
        NoNumeralNoDigits(text, decimals, Parsed(signed, decimals).value);
      }
    }
  }

  /** In front of a numeral a sign changes nothing. */
  lemma SignedNumeral(text: string, decimals: u8)
    requires '+' !in text && Numeral(text)
    ensures Parsed("+" + text, decimals) == Parsed(text, decimals)
  {
    hide Parsed, Equals;
    var signed := "+" + text;
    assert signed[1..] == text && signed[0] == '+';
    OnlyOneError(text, decimals);
    OnlyOneError(signed, decimals);
    if Parsed(signed, decimals).Ok? {
      SignIsHarmlessExactly(signed, decimals, Parsed(signed, decimals).value);
    } else if Parsed(text, decimals).Ok? {
      var v := Parsed(text, decimals).value;
      ParseExact(text, decimals, v);
      var whole, fraction :| Spells(text, whole, fraction) && Equals(v, decimals, whole, fraction);
      assert signed == "+" + whole + "." + fraction || signed == "+" + whole;
      WholeParses(signed, decimals, v, whole, fraction);
    }
  }

  lemma OnlyOneError(text: string, decimals: u8)
    ensures Parsed(text, decimals).Err? ==> Parsed(text, decimals).error == InvalidArgument
  {
  }

  lemma LoneZerosSpellNothing(text: string)
    requires LoneZeros(text)
    ensures '+' !in text && !Numeral(text)
  {
    if whole, fraction :| Spells(text, whole, fraction) {
      assert whole == "";
      assert forall i :: 0 <= i < |fraction| ==> fraction[i] == text[i + 1];
    }
  }

  lemma NoNumeralNoValue(text: string, decimals: u8)
    requires '+' !in text && !Numeral(text)
    ensures Parsed(text, decimals).Err?
  {
    if Parsed(text, decimals).Ok? {
      ParseExact(text, decimals, Parsed(text, decimals).value);
    }
  }

  /** A value read only because of the sign rests on no digit. */
  lemma NoNumeralNoDigits(text: string, decimals: u8, v: u64)
    requires '+' !in text && !Numeral(text) && Parsed("+" + text, decimals) == Ok(v)
    ensures LoneZeros(text) && decimals > 0
  {
    ParsedWithSign("+" + text, decimals, v);
    hide Parsed, Equals, ToNat, Pow10;
    var whole, fraction :| ReadsWhole("+" + text, decimals, v, whole, fraction);
    DropFirst(text, whole, fraction);
    assert !Spells(text, whole, fraction);
    if text != "" {
      assert text == "" + "." + fraction;
      assert forall i :: 0 < i < |text| ==> text[i] == fraction[i - 1];
    }
  }

  lemma DropFirst(text: string, whole: string, fraction: string)
    requires "+" + text == "+" + whole + "." + fraction || (fraction == "" && "+" + text == "+" + whole)
    ensures text == whole + "." + fraction || (fraction == "" && text == whole)
  {
    assert ("+" + text)[1..] == text;
    assert ("+" + whole)[1..] == whole;
    assert ("+" + whole + "." + fraction)[1..] == whole + "." + fraction;
  }

  lemma ZeroIsRead(text: string, decimals: u8)
    requires LoneZeros(text) && decimals > 0
    ensures Parsed("+" + text, decimals) == Ok(0)
  {
    var fraction := if text == "" then "" else text[1..];
    assert forall i :: 0 <= i < |fraction| ==> fraction[i] == text[i + 1];
    assert text != "" ==> "+" + text == "+" + "" + "." + fraction;
    assert "" + fraction == Zeros(|fraction|);
    ToNatZeros("", |fraction|);
    assert "" + Zeros(|fraction|) == Zeros(|fraction|);
    assert ReadsWhole("+" + text, decimals, 0, "", fraction);
    WholeParses("+" + text, decimals, 0, "", fraction);
  }

  /** Behind the point the sign costs a place, */
  lemma PlusBehindPoint()
    ensures Parsed(".+5", 2) == Ok(5)
    ensures Parsed(".5", 2) == Ok(50)
  {
    hide ToNat, Pow10, AllDigits, Parsed;
    FiveIsFive();
    assert "" + "5" == "5" && ".+" + "5" == ".+5" && "" + "." + "5" == ".5" && |"5"| == 1;
    assert ReadsFraction(".+5", 2, 5, "5");
    FractionParses(".+5", 2, 5, "5");
    assert Spells(".5", "", "5") && Equals(50, 2, "", "5");
    RightIsParsed(".5", 2, 50, "", "5");
  }

  lemma FiveIsFive()
    ensures AllDigits("") && AllDigits("5") && Significant("5") && ToNat("5") == 5
    ensures Pow10(1) == 10 && Pow10(2) == 100
  {
    assert "5"[..0] == "" && "5"[0] != '0';
    PowStep(1);
    PowStep(2);
  }

  /** and a sign alone is the number zero, where the empty text is none. */
  lemma LonePlus(decimals: u8)
    ensures Parsed("", decimals) == Err(InvalidArgument)
    ensures Parsed("+", decimals) == if decimals > 0 then Ok(0) else Err(InvalidArgument)
  {
    LeadingPlus("", decimals);
    assert "+" + "" == "+";
  }
}
