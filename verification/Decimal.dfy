/** Fixed-point text for token amounts: the printer, the trimmer and the parser of `lib.rs`. */
module Decimal {
  import opened Prelude

  function Pow10(n: nat): (r: nat)
    ensures r >= 1
  {
    if n == 0 then 1 else 10 * Pow10(n - 1)
  }

  predicate IsDigit(c: char) {
    '0' <= c <= '9'
  }

  predicate AllDigits(s: string) {
    forall i :: 0 <= i < |s| ==> IsDigit(s[i])
  }

  function DigitOf(n: nat): (c: char)
    requires n < 10
    ensures IsDigit(c) && c as int - '0' as int == n
  {
    '0' + n as char
  }

  /** The number a string of decimal digits spells. */
  function ToNat(s: string): nat
    requires AllDigits(s)
  {
    if s == "" then 0
    else ToNat(s[..|s| - 1]) * 10 + (s[|s| - 1] as int - '0' as int)
  }

  /** How Rust prints an unsigned integer. */
  function Digits(n: nat): (s: string)
    ensures AllDigits(s) && ToNat(s) == n
    ensures s == "0" || (s != "" && s[0] != '0')
  {
    if n < 10 then [DigitOf(n)] else Digits(n / 10) + [DigitOf(n % 10)]
  }

  /** The number without its last `places` decimal digits. */
  function Shift(n: nat, places: nat): nat {
    if places == 0 then n else Shift(n / 10, places - 1)
  }

  /** Its last `places` decimal digits, leading zeroes included. */
  function Low(n: nat, places: nat): (s: string)
    ensures |s| == places && AllDigits(s)
  {
    if places == 0 then "" else Low(n / 10, places - 1) + [DigitOf(n % 10)]
  }

  function Zeros(n: nat): string {
    seq(n, _ => '0')
  }

  /** `str::trim_end_matches` with a single character. */
  function TrimEnd(s: string, c: char): (t: string)
    ensures t <= s
    ensures t == "" || t[|t| - 1] != c
    ensures forall i :: |t| <= i < |s| ==> s[i] == c
  {
    if s != "" && s[|s| - 1] == c then TrimEnd(s[..|s| - 1], c) else s
  }

  /** `str::split` with a single character. */
  function Split(s: string, c: char): (parts: seq<string>)
    ensures |parts| >= 1
    ensures |parts| == 1 <==> c !in s
    ensures |parts| == 1 ==> parts[0] == s
    ensures c !in parts[0] && parts[0] <= s
    ensures |parts| == 2 ==> s == parts[0] + [c] + parts[1] && c !in parts[1]
  {
    if s == "" then [""]
    else
      var rest := Split(s[1..], c);
      if s[0] == c then [""] + rest else [[s[0]] + rest[0]] + rest[1..]
  }

  /** `str::parse::<u64>`: one leading plus sign is allowed. */
  function ParseU64(s: string): Result<u64> {
    var digits := if |s| > 1 && s[0] == '+' then s[1..] else s;
    if digits != "" && AllDigits(digits) && ToNat(digits) <= U64_MAX
    then Ok(ToNat(digits))
    else Err(InvalidArgument)
  }

  /** The amount over 10^decimals, written with all its decimals. */
  function Printed(amount: u64, decimals: u8): string {
    if decimals == 0 then Digits(amount)
    else Digits(Shift(amount, decimals)) + "." + Low(amount, decimals)
  }

  method AmountToUiAmountString(amount: u64, decimals: u8) returns (s: string)
    ensures s == Printed(amount, decimals) && WellPrinted(s, amount, decimals)
  {
    s := Digits(amount);
    if decimals > 0 {
      if |s| < decimals + 1 {
        LeadingZeros(s, decimals + 1 - |s|);
        s := Zeros(decimals + 1 - |s|) + s;
      }
      var point := |s| - decimals;
      SplitDigits(s, point, decimals);
      DigitsUnique(s[..point]);
      s := s[..point] + "." + s[point..];
    }
    PrintedHasShape(s, amount, decimals);
  }

  function Trimmed(text: string, decimals: u8): string {
    if decimals > 0 then TrimEnd(TrimEnd(text, '0'), '.') else text
  }

  method AmountToUiAmountStringTrimmed(amount: u64, decimals: u8) returns (s: string)
    ensures s == Trimmed(Printed(amount, decimals), decimals)
    ensures WellTrimmed(s, Printed(amount, decimals), decimals)
  {
    s := AmountToUiAmountString(amount, decimals);
    if decimals > 0 {
      s := TrimEnd(s, '0');
      s := TrimEnd(s, '.');
    }
    TrimmedHasShape(amount, decimals);
  }

  function Parsed(text: string, decimals: u8): Result<u64> {
    var parts := Split(text, '.');
    var fraction := TrimEnd(if |parts| > 1 then parts[1] else "", '0');
    if (parts[0] == "" && fraction == "") || |parts| > 2 || |fraction| > decimals
    then Err(InvalidArgument)
    else ParseU64(parts[0] + fraction + Zeros(decimals - |fraction|))
  }

  lemma MoreZeros(whole: string, k: nat)
    ensures whole + Zeros(k) + "0" == whole + Zeros(k + 1)
  {
  }

  method TryUiAmountIntoAmount(text: string, decimals: u8) returns (r: Result<u64>)
    ensures r == Parsed(text, decimals)
  {
    hide Split, TrimEnd, ParseU64, ToNat, AllDigits;
    var parts := Split(text, '.');
    var digits := parts[0];
    var afterDecimal := if |parts| > 1 then parts[1] else "";
    afterDecimal := TrimEnd(afterDecimal, '0');
    if (digits == "" && afterDecimal == "") || |parts| > 2 || |afterDecimal| > decimals {
      return Err(InvalidArgument);
    }
    digits := digits + afterDecimal;
    ghost var whole := digits;
    assert whole + Zeros(0) == whole;
    for k := 0 to decimals - |afterDecimal|
      invariant digits == whole + Zeros(k)
    {
      MoreZeros(whole, k);
      digits := digits + "0";
    }
    return ParseU64(digits);
  }

  // Digit strings

  lemma {:induction false} ToNatAppend(a: string, b: string)
    requires AllDigits(a) && AllDigits(b)
    ensures AllDigits(a + b)
    ensures ToNat(a + b) == ToNat(a) * Pow10(|b|) + ToNat(b)
  {
    if b == "" {
      assert a + b == a;
    } else {
      var front := b[..|b| - 1];
      ToNatAppend(a, front);
      assert (a + b)[..|a + b| - 1] == a + front;
      assert ToNat(a) * Pow10(|b|) == ToNat(a) * Pow10(|front|) * 10;
    }
  }

  /** Padding on the left leaves the value alone. */
  lemma {:induction false} LeadingZeros(s: string, n: nat)
    requires AllDigits(s)
    ensures AllDigits(Zeros(n) + s)
    ensures ToNat(Zeros(n) + s) == ToNat(s)
    decreases |s|, n
  {
    var t := Zeros(n) + s;
    if s != "" {
      LeadingZeros(s[..|s| - 1], n);
      assert t[..|t| - 1] == Zeros(n) + s[..|s| - 1];
    } else if n > 0 {
      LeadingZeros("", n - 1);
      assert t[..|t| - 1] == Zeros(n - 1) + "";
    }
  }

  lemma {:induction false} PowAdd(a: nat, b: nat)
    ensures Pow10(a + b) == Pow10(a) * Pow10(b)
  {
    if a > 0 {
      PowAdd(a - 1, b);
      assert Pow10(a) * Pow10(b) == 10 * (Pow10(a - 1) * Pow10(b));
    }
  }

  lemma Div10(n: nat, quotient: nat, digit: nat)
    requires n == quotient * 10 + digit && digit < 10
    ensures n / 10 == quotient && n % 10 == digit
  {
  }

  lemma ToNatSnoc(s: string, c: char)
    requires AllDigits(s) && IsDigit(c)
    ensures AllDigits(s + [c]) && ToNat(s + [c]) == ToNat(s) * 10 + (c as int - '0' as int)
  {
    assert (s + [c])[..|s + [c]| - 1] == s;
  }

  /** Dividing by ten takes off the last digit. */
  lemma LastDigitOf(s: string)
    requires AllDigits(s) && s != ""
    ensures AllDigits(s[..|s| - 1])
    ensures ToNat(s) / 10 == ToNat(s[..|s| - 1]) && DigitOf(ToNat(s) % 10) == s[|s| - 1]
  {
    Div10(ToNat(s), ToNat(s[..|s| - 1]), s[|s| - 1] as int - '0' as int);
  }

  lemma DigitsStep(n: nat)
    requires n / 10 >= 1
    ensures Digits(n) == Digits(n / 10) + [DigitOf(n % 10)]
  {
  }

  lemma PlacesStep(n: nat, places: nat)
    requires places > 0
    ensures Shift(n, places) == Shift(n / 10, places - 1)
    ensures Low(n, places) == Low(n / 10, places - 1) + [DigitOf(n % 10)]
  {
  }

  lemma OneDigit(s: string)
    requires AllDigits(s) && |s| == 1
    ensures s == Digits(ToNat(s))
  {
    assert s[..0] == "";
    assert ToNat(s) == s[0] as int - '0' as int;
    assert DigitOf(ToNat(s)) == s[0];
  }

  /** Without a superfluous leading zero a digit string is the printed form of its value. */
  lemma {:induction false} DigitsUnique(s: string)
    requires AllDigits(s) && s != ""
    requires s == "0" || s[0] != '0'
    ensures s == Digits(ToNat(s))
  {
    hide Digits, ToNat;
    if |s| == 1 {
      OneDigit(s);
    } else {
      var front := s[..|s| - 1];
      LastDigitOf(s);
      LeadingDigit(front);
      DigitsUnique(front);
      DigitsStep(ToNat(s));
      assert s == front + [s[|s| - 1]];
    }
  }

  lemma {:induction false} LeadingDigit(s: string)
    requires AllDigits(s) && s != "" && s[0] != '0'
    ensures ToNat(s) >= 1
  {
    if |s| > 1 {
      LeadingDigit(s[..|s| - 1]);
    }
  }

  /** Taking characters off the end of a digit string takes digits off its value. */
  lemma {:induction false} SplitDigits(s: string, point: nat, places: nat)
    requires AllDigits(s) && |s| == point + places
    ensures ToNat(s[..point]) == Shift(ToNat(s), places)
    ensures s[point..] == Low(ToNat(s), places)
  {
    if places == 0 {
      assert s[..point] == s;
    } else {
      var front := s[..|s| - 1];
      LastDigitOf(s);
      SplitDigits(front, point, places - 1);
      PlacesStep(ToNat(s), places);
      hide Shift, Low, ToNat;
      assert front[..point] == s[..point];
      assert front[point..] + [s[|s| - 1]] == s[point..];
    }
  }

  /** The printed parts together are the amount. */
  lemma {:induction false} ShiftAndLow(n: nat, places: nat)
    ensures ToNat(Digits(Shift(n, places)) + Low(n, places)) == n
  {
    var whole := Digits(Shift(n, places));
    if places == 0 {
      assert whole + "" == whole;
    } else {
      ShiftAndLow(n / 10, places - 1);
      PlacesStep(n, places);
      hide Digits, Shift, Low, ToNat;
      var low, last := Low(n / 10, places - 1), DigitOf(n % 10);
      assert whole + (low + [last]) == whole + low + [last];
      ToNatSnoc(whole + low, last);
    }
  }

  /** The part before the point is the quotient by 10^places, the part behind it the remainder. */
  lemma {:induction false} ShiftIsQuotient(n: nat, places: nat)
    ensures n == Shift(n, places) * Pow10(places) + ToNat(Low(n, places))
    ensures ToNat(Low(n, places)) < Pow10(places)
  {
    if places > 0 {
      ShiftIsQuotient(n / 10, places - 1);
      PlacesStep(n, places);
      ToNatSnoc(Low(n / 10, places - 1), DigitOf(n % 10));
      var q, p, r := Shift(n, places), Pow10(places - 1), ToNat(Low(n / 10, places - 1));
      assert Pow10(places) == 10 * p;
      hide Shift, Low, ToNat, Pow10;
      TenTimes(n, q, p, r);
    }
  }

  lemma TenTimes(n: nat, q: nat, p: nat, r: nat)
    requires n / 10 == q * p + r && r < p
    ensures n == q * (10 * p) + (r * 10 + n % 10) && r * 10 + n % 10 < 10 * p
  {
    var product := q * p;
    assert q * (10 * p) == 10 * product;
  }

  // The parser

  /** `text` is the numeral `whole`.`fraction`. The point may be missing when the fraction is
      empty; a lone fraction needs a digit other than zero. */
  ghost predicate Spells(text: string, whole: string, fraction: string) {
    && AllDigits(whole) && AllDigits(fraction)
    && (text == whole + "." + fraction || (fraction == "" && text == whole))
    && (whole != "" || Significant(fraction))
  }

  predicate Significant(fraction: string) {
    exists i :: 0 <= i < |fraction| && fraction[i] != '0'
  }

  /** `v / 10^decimals` equals the numeral `whole`.`fraction`. */
  ghost predicate Equals(v: nat, decimals: nat, whole: string, fraction: string)
    requires AllDigits(whole) && AllDigits(fraction)
  {
    v * Pow10(|fraction|) == ToNat(whole + fraction) * Pow10(decimals)
  }

  /** On text without a plus sign the parser answers exactly: it yields `v` when the text is a
      numeral worth `v / 10^decimals` and `v` fits 64 bits, and refuses everything else. */
  lemma ParseExact(text: string, decimals: u8, v: u64)
    requires '+' !in text
    ensures Parsed(text, decimals) == Ok(v)
       <==> exists whole, fraction ::
              Spells(text, whole, fraction) && Equals(v, decimals, whole, fraction)
  {
    if Parsed(text, decimals) == Ok(v) {
      var whole, fraction := ParsedIsRight(text, decimals, v);
    }
    if whole, fraction :| Spells(text, whole, fraction) && Equals(v, decimals, whole, fraction) {
      RightIsParsed(text, decimals, v, whole, fraction);
    }
  }

  lemma ParsedIsRight(text: string, decimals: u8, v: u64) returns (whole: string, fraction: string)
    requires '+' !in text
    requires Parsed(text, decimals) == Ok(v)
    ensures Spells(text, whole, fraction) && Equals(v, decimals, whole, fraction)
  {
    hide AllDigits, ToNat, Pow10, Zeros, Parsed, ParseU64, Spells;
    var kept;
    whole, fraction, kept := ParsedParts(text, decimals, v);
    NoPlus(text, whole, fraction, kept);
    DigitParts(whole, kept, decimals - |kept|);
    PaddingScales(whole, kept, |fraction| - |kept|, decimals - |kept|);
    assert |kept| + (|fraction| - |kept|) == |fraction|;
    SpelledParts(text, whole, fraction, kept);
  }

  lemma ParsedParts(text: string, decimals: u8, v: u64)
    returns (whole: string, fraction: string, kept: string)
    requires Parsed(text, decimals) == Ok(v)
    ensures text == whole + "." + fraction || (text == whole && fraction == "")
    ensures kept <= fraction && (kept == "" || kept[|kept| - 1] != '0') && |kept| <= decimals
    ensures fraction == kept + Zeros(|fraction| - |kept|)
    ensures whole != "" || kept != ""
    ensures ParseU64(whole + kept + Zeros(decimals - |kept|)) == Ok(v)
  {
    hide ToNat, ParseU64, Split, TrimEnd, Zeros;
    var parts := Split(text, '.');
    whole := parts[0];
    fraction := if |parts| > 1 then parts[1] else "";
    kept := TrimEnd(fraction, '0');
    TrimmedZeros(fraction);
  }

  lemma SpelledParts(text: string, whole: string, fraction: string, kept: string)
    requires text == whole + "." + fraction || (text == whole && fraction == "")
    requires kept <= fraction && (kept == "" || kept[|kept| - 1] != '0')
    requires fraction == kept + Zeros(|fraction| - |kept|)
    requires AllDigits(whole) && AllDigits(kept) && (whole != "" || kept != "")
    ensures Spells(text, whole, fraction)
  {
    forall i | 0 <= i < |fraction| ensures IsDigit(fraction[i]) {
      if i < |kept| {
        assert fraction[i] == kept[i];
      }
    }
    if whole == "" {
      assert fraction[|kept| - 1] == kept[|kept| - 1];
    }
  }

  lemma NoPlus(text: string, whole: string, fraction: string, kept: string)
    requires '+' !in text && kept <= fraction
    requires text == whole + "." + fraction || (text == whole && fraction == "")
    ensures '+' !in whole && '+' !in kept
  {
    assert forall i :: 0 <= i < |whole| ==> whole[i] == text[i];
    assert forall i :: 0 <= i < |kept| ==> kept[i] == fraction[i] == text[|whole| + 1 + i];
  }

  lemma DigitParts(whole: string, kept: string, zeros: nat)
    requires '+' !in whole && '+' !in kept && (whole != "" || kept != "")
    requires ParseU64(whole + kept + Zeros(zeros)).Ok?
    ensures AllDigits(whole) && AllDigits(kept) && AllDigits(whole + kept + Zeros(zeros))
    ensures ParseU64(whole + kept + Zeros(zeros)) == Ok(ToNat(whole + kept + Zeros(zeros)))
  {
    hide ToNat;
    var padded := whole + kept + Zeros(zeros);
    assert padded[0] == if whole != "" then whole[0] else kept[0];
    assert forall i :: 0 <= i < |whole| ==> whole[i] == padded[i];
    assert forall i :: 0 <= i < |kept| ==> kept[i] == padded[|whole| + i];
  }

  lemma RightIsParsed(text: string, decimals: u8, v: u64, whole: string, fraction: string)
    requires Spells(text, whole, fraction) && Equals(v, decimals, whole, fraction)
    ensures Parsed(text, decimals) == Ok(v)
  {
    hide ToNat, Pow10, Split, TrimEnd;
    SplitNumeral(text, whole, fraction);
    var kept := TrimEnd(fraction, '0');
    var dropped := |fraction| - |kept|;
    TrimmedZeros(fraction);
    FractionFits(v, decimals, whole, kept, dropped);
    var added := decimals - |kept|;
    PaddingScales(whole, kept, dropped, added);
    var padded := whole + kept + Zeros(added);
    Cancel(v, ToNat(padded), Pow10(|fraction|));
    assert padded != "" && IsDigit(padded[0]);
  }

  lemma SplitNumeral(text: string, whole: string, fraction: string)
    requires Spells(text, whole, fraction)
    ensures var parts := Split(text, '.');
            && parts[0] == whole && |parts| <= 2
            && fraction == if |parts| > 1 then parts[1] else ""
  {
    if text == whole + "." + fraction {
      SplitAtPoint(whole, fraction);
    } else {
      assert text == whole;
    }
  }

  lemma {:induction false} SplitAtPoint(whole: string, rest: string)
    requires '.' !in whole && '.' !in rest
    ensures Split(whole + "." + rest, '.') == [whole, rest]
  {
    var s := whole + "." + rest;
    if whole == "" {
      assert s[1..] == rest;
    } else {
      assert s[1..] == whole[1..] + "." + rest;
      SplitAtPoint(whole[1..], rest);
      assert [whole[0]] + whole[1..] == whole;
    }
  }

  lemma TrimmedZeros(s: string)
    ensures s == TrimEnd(s, '0') + Zeros(|s| - |TrimEnd(s, '0')|)
  {
  }

  /** Appending zeroes multiplies by a power of ten. */
  lemma {:induction false} ToNatZeros(s: string, n: nat)
    requires AllDigits(s)
    ensures AllDigits(s + Zeros(n))
    ensures ToNat(s + Zeros(n)) == ToNat(s) * Pow10(n)
  {
    var t := s + Zeros(n);
    if n == 0 {
      assert t == s;
    } else {
      ToNatZeros(s, n - 1);
      assert t[..|t| - 1] == s + Zeros(n - 1);
    }
  }

  lemma ScaleBothWays(digits: nat, kept: nat, dropped: nat, added: nat)
    ensures digits * Pow10(added) * Pow10(kept + dropped) == digits * Pow10(dropped) * Pow10(kept + added)
  {
    hide Pow10;
    PowAdd(kept, dropped);
    PowAdd(kept, added);
    var k, d, a := Pow10(kept), Pow10(dropped), Pow10(added);
    assert digits * a * (k * d) == digits * d * (k * a);
  }

  /** Dropping the fraction's trailing zeroes and filling up with others keeps the value. */
  lemma PaddingScales(whole: string, kept: string, dropped: nat, added: nat)
    requires AllDigits(whole) && AllDigits(kept)
    ensures AllDigits(whole + (kept + Zeros(dropped))) && AllDigits(whole + kept + Zeros(added))
    ensures ToNat(whole + kept + Zeros(added)) * Pow10(|kept| + dropped)
         == ToNat(whole + (kept + Zeros(dropped))) * Pow10(|kept| + added)
  {
    hide ToNat, Pow10;
    var digits := whole + kept;
    ToNatZeros(digits, added);
    ToNatZeros(digits, dropped);
    assert digits + Zeros(dropped) == whole + (kept + Zeros(dropped));
    ScaleBothWays(ToNat(digits), |kept|, dropped, added);
  }

  lemma Cancel(a: nat, b: nat, factor: nat)
    requires factor > 0 && a * factor == b * factor
    ensures a == b
  {
    assert (a - b) * factor == 0;
  }

  /** A value that is a multiple of 10^-decimals needs no more than `decimals` digits. */
  lemma FractionFits(v: nat, decimals: nat, whole: string, kept: string, dropped: nat)
    requires AllDigits(whole) && AllDigits(kept)
    requires kept == "" || kept[|kept| - 1] != '0'
    requires AllDigits(whole + (kept + Zeros(dropped)))
    requires v * Pow10(|kept| + dropped) == ToNat(whole + (kept + Zeros(dropped))) * Pow10(decimals)
    ensures |kept| <= decimals
  {
    if |kept| > decimals {
      var s := whole + kept;
      LastDigit(whole, kept);
      hide ToNat, Pow10;
      assert s + Zeros(dropped) == whole + (kept + Zeros(dropped));
      ToNatZeros(s, dropped);
      MultipleOfTen(v, ToNat(s), |kept|, dropped, decimals);
      assert false;
    }
  }

  lemma LastDigit(whole: string, kept: string)
    requires AllDigits(whole) && AllDigits(kept) && kept != "" && kept[|kept| - 1] != '0'
    ensures AllDigits(whole + kept) && ToNat(whole + kept) % 10 != 0
  {
    var s := whole + kept;
    assert s[|s| - 1] == kept[|kept| - 1];
  }

  lemma MultipleOfTen(v: nat, digits: nat, kept: nat, dropped: nat, decimals: nat)
    requires kept > decimals
    requires v * Pow10(kept + dropped) == digits * Pow10(dropped) * Pow10(decimals)
    ensures digits % 10 == 0
  {
    var extra := kept - decimals - 1;
    var e, rest := Pow10(extra), Pow10(dropped) * Pow10(decimals);
    PowAdd(extra + 1, dropped + decimals);
    PowAdd(dropped, decimals);
    hide Pow10;
    assert extra + 1 + (dropped + decimals) == kept + dropped;
    Regroup(v, digits, e, Pow10(dropped), Pow10(decimals));
    Cancel(10 * (v * e), digits, rest);
  }

  lemma Regroup(v: nat, digits: nat, e: nat, d: nat, k: nat)
    requires d > 0 && k > 0
    ensures v * (10 * e * (d * k)) == 10 * (v * e) * (d * k)
    ensures digits * d * k == digits * (d * k)
    ensures d * k > 0
  {
  }

  // The round trip

  /** What trimming leaves of a printed amount. */
  lemma TrimmedForm(whole: string, fraction: string, decimals: u8)
    requires decimals > 0 && whole != "" && AllDigits(whole) && AllDigits(fraction)
    ensures var kept := TrimEnd(fraction, '0');
            && AllDigits(kept)
            && Trimmed(whole + "." + fraction, decimals) == if kept == "" then whole else whole + "." + kept
  {
    var kept := TrimEnd(fraction, '0');
    assert forall i :: 0 <= i < |kept| ==> kept[i] == fraction[i];
    TrimmedZeros(fraction);
    var text, zeros := whole + "." + kept, |fraction| - |kept|;
    assert whole + "." + fraction == text + Zeros(zeros);
    assert text[|text| - 1] == if kept == "" then '.' else kept[|kept| - 1];
    TrimAfter(text, '0', '0', zeros);
    assert TrimEnd(whole + "." + fraction, '0') == text;
    if kept == "" {
      assert IsDigit(whole[|whole| - 1]);
      assert text == whole + seq(1, _ => '.');
      TrimAfter(whole, '.', '.', 1);
    }
  }

  /** Trimming removes an appended run and stops before it. */
  lemma {:induction false} TrimAfter(s: string, c: char, filler: char, n: nat)
    requires filler == c && s != "" && s[|s| - 1] != c
    ensures TrimEnd(s + seq(n, _ => filler), c) == s
  {
    var t := s + seq(n, _ => filler);
    if n == 0 {
      assert t == s;
    } else {
      TrimAfter(s, c, filler, n - 1);
      assert t[..|t| - 1] == s + seq(n - 1, _ => filler);
    }
  }

  /** Both forms of a printed amount are numerals worth `amount / 10^decimals`. */
  lemma PrintedIsExact(amount: u64, decimals: u8)
    ensures Parsed(Printed(amount, decimals), decimals) == Ok(amount)
    ensures Parsed(Trimmed(Printed(amount, decimals), decimals), decimals) == Ok(amount)
  {
    hide Digits, Low, Shift, ToNat, Pow10, Parsed, Trimmed, TrimEnd;
    var text := Printed(amount, decimals);
    if decimals == 0 {
      assert text + "" == text;
      assert Pow10(|""|) == Pow10(0);
      assert Trimmed(text, 0) == text by {
        TrimNothing(text);
      }
      RightIsParsed(text, 0, amount, text, "");
    } else {
      var whole, fraction := Digits(Shift(amount, decimals)), Low(amount, decimals);
      var kept := TrimEnd(fraction, '0');
      var dropped := |fraction| - |kept|;
      ShiftAndLow(amount, decimals);
      RightIsParsed(text, decimals, amount, whole, fraction);
      TrimmedForm(whole, fraction, decimals);
      TrimmedZeros(fraction);
      PaddingScales(whole, kept, 0, dropped);
      assert kept + Zeros(0) == kept;
      assert whole + kept + Zeros(dropped) == whole + fraction;
      RightIsParsed(Trimmed(text, decimals), decimals, amount, whole, kept);
    }
  }

  lemma TrimNothing(text: string)
    ensures Trimmed(text, 0) == text
  {
  }

  /** For one `decimals`, distinct amounts print differently, trimmed or not. */
  lemma PrintingIsInjective(a: u64, b: u64, decimals: u8)
    requires || Printed(a, decimals) == Printed(b, decimals)
             || Trimmed(Printed(a, decimals), decimals) == Trimmed(Printed(b, decimals), decimals)
    ensures a == b
  {
    PrintedIsExact(a, decimals);
    PrintedIsExact(b, decimals);
  }

  // The shape of printed text

  /** The text of an amount: without decimals its digits; else one point with exactly so many digits
      behind it and one or more before it; no leading zero but a lone one; and the digits spell the
      amount. */
  ghost predicate WellPrinted(s: string, amount: nat, decimals: nat) {
    if decimals == 0 then
      AllDigits(s) && s != "" && (s[0] == '0' ==> |s| == 1) && ToNat(s) == amount
    else
      && |s| >= decimals + 2
      && var whole, fraction := s[..|s| - decimals - 1], s[|s| - decimals..];
         && s[|s| - decimals - 1] == '.' && AllDigits(whole) && AllDigits(fraction)
         && (whole[0] == '0' ==> |whole| == 1)
         && AllDigits(whole + fraction) && ToNat(whole + fraction) == amount
  }

  lemma PrintedParts(amount: u64, decimals: u8)
    requires decimals > 0
    ensures Printed(amount, decimals) == Digits(Shift(amount, decimals)) + "." + Low(amount, decimals)
  {
  }

  lemma ShapeOfParts(whole: string, fraction: string, amount: nat)
    requires whole != "" && fraction != "" && AllDigits(whole) && AllDigits(fraction)
    requires (whole[0] == '0' ==> |whole| == 1) && AllDigits(whole + fraction) && ToNat(whole + fraction) == amount
    ensures WellPrinted(whole + "." + fraction, amount, |fraction|)
  {
    hide ToNat;
    var s := whole + "." + fraction;
    assert s[..|s| - |fraction| - 1] == whole && s[|s| - |fraction|..] == fraction;
  }

  lemma PrintedIsWell(amount: u64, decimals: u8)
    ensures WellPrinted(Printed(amount, decimals), amount, decimals)
  {
    hide Shift, Low, ToNat;
    if decimals > 0 {
      ShiftAndLow(amount, decimals);
      PrintedParts(amount, decimals);
      hide WellPrinted, Printed;
      ShapeOfParts(Digits(Shift(amount, decimals)), Low(amount, decimals), amount);
    }
  }

  /** The printer gives the one text of that shape. */
  lemma PrintedHasShape(s: string, amount: u64, decimals: u8)
    ensures s == Printed(amount, decimals) <==> WellPrinted(s, amount, decimals)
  {
    PrintedIsWell(amount, decimals);
    hide Digits, Shift, Low, ToNat;
    if WellPrinted(s, amount, decimals) {
      if decimals == 0 {
        DigitsUnique(s);
      } else {
        var whole, fraction := s[..|s| - decimals - 1], s[|s| - decimals..];
        var digits := whole + fraction;
        SplitDigits(digits, |whole|, decimals);
        DigitsUnique(whole);
        assert digits[..|whole|] == whole && digits[|whole|..] == fraction;
        assert s == whole + "." + fraction;
      }
    }
  }

  /** The trimmed text: the printed one less zeroes at its end, and less the point if nothing is left
      behind it; the digits before the point all stay. */
  predicate WellTrimmed(t: string, s: string, decimals: nat) {
    if decimals == 0 then t == s
    else
      && t <= s && |s| - decimals - 1 <= |t| && t != ""
      && (forall i :: |t| <= i < |s| ==> s[i] == '0' || s[i] == '.')
      && t[|t| - 1] != '.' && ('.' in t ==> t[|t| - 1] != '0')
  }

  lemma KeptHasShape(whole: string, fraction: string, kept: string, zeros: nat)
    requires whole != "" && AllDigits(whole) && fraction != "" && AllDigits(kept) && fraction == kept + Zeros(zeros)
    requires kept == "" || kept[|kept| - 1] != '0'
    ensures WellTrimmed(if kept == "" then whole else whole + "." + kept, whole + "." + fraction, |fraction|)
  {
    var s := whole + "." + fraction;
    if kept == "" {
      assert whole <= s;
      assert IsDigit(whole[|whole| - 1]);
      assert '.' !in whole;
    } else {
      var t := whole + "." + kept;
      assert s == t + Zeros(zeros);
      assert t[|t| - 1] == kept[|kept| - 1];
    }
  }

  lemma TrimmedParts(whole: string, fraction: string, decimals: u8)
    requires decimals > 0 && |fraction| == decimals
    requires whole != "" && AllDigits(whole) && AllDigits(fraction)
    ensures WellTrimmed(Trimmed(whole + "." + fraction, decimals), whole + "." + fraction, decimals)
  {
    TrimmedForm(whole, fraction, decimals);
    TrimmedZeros(fraction);
    hide Trimmed, WellTrimmed;
    KeptHasShape(whole, fraction, TrimEnd(fraction, '0'), |fraction| - |TrimEnd(fraction, '0')|);
  }

  lemma TrimmedHasShape(amount: u64, decimals: u8)
    ensures WellTrimmed(Trimmed(Printed(amount, decimals), decimals), Printed(amount, decimals), decimals)
  {
    if decimals == 0 {
      TrimNothing(Printed(amount, decimals));
    } else {
      PrintedParts(amount, decimals);
      hide Trimmed, WellTrimmed, Printed, Digits, Shift, Low;
      TrimmedParts(Digits(Shift(amount, decimals)), Low(amount, decimals), decimals);
    }
  }
}
