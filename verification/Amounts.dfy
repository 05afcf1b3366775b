/** Two converters from a human-readable amount to base units: the arithmetic one of the server
    and the string-padding one of the intents layer. */
module Amounts {
  import opened Text

  datatype AmountError =
    | Empty
    | InvalidFormat(text: string)
    | TooManyDecimals(given: nat, max: nat)
    | ZeroOrNegative
    | Overflow

  datatype UnitsError = EmptyAmount | BadFormat | TooPrecise

  type U128 = n: nat | n < TWO_128

  // ---------- Meaning ----------

  /** `s` is decimal text with integer digits `i` and fraction digits `f`; either may be missing. */
  ghost predicate Reads(s: string, i: string, f: string) {
    AllDigits(i) && AllDigits(f) && (s == i + "." + f || (s == i && f == ""))
  }

  /** The exact number of base units that integer digits `i` and fraction digits `f` denote. */
  ghost function Units(i: string, f: string, decimals: nat): nat
    requires AllDigits(i) && AllDigits(f) && |f| <= decimals
  {
    Value(i) * Pow10(decimals) + Value(f) * Pow10(decimals - |f|)
  }

  // ---------- The arithmetic converter ----------

  function ParseU128(s: string): Option<U128>
    requires AllDigits(s)
  {
    if Value(s) < TWO_128 then Some(Value(s)) else None
  }

  function CheckedMul(a: U128, b: U128): Option<U128> {
    if a * b < TWO_128 then Some(a * b) else None
  }

  function CheckedAdd(a: U128, b: U128): Option<U128> {
    if a + b < TWO_128 then Some(a + b) else None
  }

  function SplitOnce(s: string): (string, string) {
    var k := FirstIndex(s, '.');
    if k < |s| then (s[..k], s[k + 1..]) else (s, "")
  }

  /** The checked 128-bit product and sum at the end of the conversion. */
  function BaseUnits(intVal: U128, fracVal: U128, fracLen: nat, decimals: nat): Result<string, AmountError>
    requires fracLen <= decimals <= 38
  {
    Pow10Fits(decimals);
    Pow10Fits(decimals - fracLen);
    var scale: U128 := Pow10(decimals);
    var fracScale: U128 := Pow10(decimals - fracLen);
    match (CheckedMul(intVal, scale), CheckedMul(fracVal, fracScale))
    case (Some(whole), Some(part)) =>
      (match CheckedAdd(whole, part)
       case Some(baseUnits) => if baseUnits == 0 then Err(ZeroOrNegative) else Ok(ToDecimal(baseUnits))
       case None => Err(Overflow))
    case _ => Err(Overflow)
  }

  function ParseDollarAmount(text: string, decimals: nat): Result<string, AmountError> {
    var amount := Trim(text);
    if amount == "" then Err(Empty)
    else if amount[0] == '-' then Err(ZeroOrNegative)
    else
      var (integerPart, fracPart) := SplitOnce(amount);
      if integerPart == "" && fracPart == "" then Err(InvalidFormat(amount))
      else if !AllDigits(integerPart) || !AllDigits(fracPart) then Err(InvalidFormat(amount))
      else
        var fracLen := Utf8Length(fracPart);
        if fracLen > decimals then Err(TooManyDecimals(fracLen, decimals))
        else
          match (ParseU128(integerPart), ParseU128(fracPart))
          case (Some(intVal), Some(fracVal)) =>
            if decimals > 38 then Err(Overflow) else BaseUnits(intVal, fracVal, fracLen, decimals)
          case _ => Err(InvalidFormat(amount))
  }

  lemma {:induction false} Pow10Grows(a: nat, b: nat)
    requires a <= b
    ensures Pow10(a) <= Pow10(b)
  {
    if a < b {
      Pow10Grows(a, b - 1);
    }
  }

  /** Every power of ten the converter computes fits the 128-bit word. */
  lemma Pow10Fits(n: nat)
    requires n <= 38
    ensures Pow10(n) < TWO_128
  {
    Pow10Grows(n, 38);
    assert Pow10(10) == 10_000_000_000;
    Pow10Adds(10, 9);
    assert Pow10(19) == 10_000_000_000_000_000_000;
    Pow10Adds(19, 19);
  }

  lemma NoDot(s: string)
    requires AllDigits(s)
    ensures '.' !in s
  {
  }

  lemma FirstDot(s: string, i: string, f: string)
    requires Reads(s, i, f)
    ensures FirstIndex(s, '.') == |i|
  {
    NoDot(i);
    assert s[..|i|] == i;
    FirstIndexAt(s, '.', |i|);
  }

  lemma SplitOnceReads(s: string, i: string, f: string)
    requires Reads(s, i, f)
    ensures SplitOnce(s) == (i, f)
  {
    FirstDot(s, i, f);
    if s == i + "." + f {
      assert s[..|i|] == i && s[|i| + 1..] == f;
    }
  }

  lemma ReadsOfSplit(s: string)
    requires AllDigits(SplitOnce(s).0) && AllDigits(SplitOnce(s).1)
    ensures Reads(s, SplitOnce(s).0, SplitOnce(s).1)
  {
    var k := FirstIndex(s, '.');
    if k < |s| {
      assert s == s[..k] + "." + s[k + 1..];
    }
  }

  lemma DigitsWidth(s: string)
    requires AllDigits(s)
    ensures Utf8Length(s) == |s|
  {
    forall i | 0 <= i < |s| ensures s[i] < '\U{80}' {
      assert IsDigit(s[i]);
    }
    Utf8LengthAscii(s);
  }

  /** The fraction product is below 10^decimals, so it never overflows. */
  lemma FractionFits(f: string, decimals: nat)
    requires AllDigits(f) && |f| <= decimals <= 38
    ensures Value(f) * Pow10(decimals - |f|) < Pow10(decimals) < TWO_128
  {
    ValueBound(f);
    Pow10Adds(|f|, decimals - |f|);
    Pow10Fits(decimals);
    MulLess(Value(f), Pow10(|f|), Pow10(decimals - |f|));
  }

  lemma MulLess(a: nat, b: nat, p: nat)
    requires a < b && p >= 1
    ensures a * p < b * p
  {
  }

  lemma ProductAtLeast(v: nat, p: nat)
    requires p >= 1
    ensures v <= v * p
  {
  }

  lemma BaseUnitsExact(i: string, f: string, decimals: nat)
    requires AllDigits(i) && AllDigits(f) && |f| <= decimals <= 38
    requires Value(i) < TWO_128 && Value(f) < TWO_128
    ensures BaseUnits(Value(i), Value(f), |f|, decimals) ==
            var units := Units(i, f, decimals);
            if units == 0 then Err(ZeroOrNegative)
            else if units < TWO_128 then Ok(ToDecimal(units)) else Err(Overflow)
  {
    FractionFits(f, decimals);
  }

  lemma UnitsAtLeast(i: string, f: string, decimals: nat)
    requires AllDigits(i) && AllDigits(f) && |f| <= decimals
    ensures Value(i) <= Units(i, f, decimals)
  {
    ProductAtLeast(Value(i), Pow10(decimals));
  }

  lemma FractionWord(f: string, decimals: nat)
    requires AllDigits(f) && |f| <= decimals <= 38
    ensures Value(f) < TWO_128
  {
    FractionFits(f, decimals);
    ProductAtLeast(Value(f), Pow10(decimals - |f|));
  }

  lemma NotSigned(s: string, i: string, f: string)
    requires Reads(s, i, f) && i + f != ""
    ensures s != "" && s[0] != '-'
  {
    assert s[0] == if i == "" then '.' else i[0];
  }

  lemma DollarSteps(text: string, decimals: nat, i: string, f: string)
    requires Reads(Trim(text), i, f) && i + f != ""
    ensures ParseDollarAmount(text, decimals) ==
            if |f| > decimals then Err(TooManyDecimals(|f|, decimals))
            else if Value(i) >= TWO_128 || Value(f) >= TWO_128 then Err(InvalidFormat(Trim(text)))
            else if decimals > 38 then Err(Overflow)
            else BaseUnits(Value(i), Value(f), |f|, decimals)
  {
    var t := Trim(text);
    SplitOnceReads(t, i, f);
    DigitsWidth(f);
    NotSigned(t, i, f);
  }

  /** What the converter answers on decimal text. */
  lemma DollarOnDecimalText(text: string, decimals: nat, i: string, f: string)
    requires Reads(Trim(text), i, f) && i + f != "" && |f| <= decimals
    ensures var units := Units(i, f, decimals);
            var r := ParseDollarAmount(text, decimals);
            && (decimals <= 38 && 1 <= units < TWO_128 ==> r == Ok(ToDecimal(units)))
            && (decimals <= 38 && units == 0 ==> r == Err(ZeroOrNegative))
            && (decimals > 38 || units >= TWO_128 ==> r == Err(Overflow) || r == Err(InvalidFormat(Trim(text))))
  {
    DollarSteps(text, decimals, i, f);
    if decimals <= 38 {
      FractionWord(f, decimals);
      UnitsAtLeast(i, f, decimals);
      if Value(i) < TWO_128 {
        BaseUnitsExact(i, f, decimals);
      }
    }
  }

  /** The remaining refusals: nothing but a dot or white space, and too many fraction digits. */
  lemma DollarRefusals(text: string, decimals: nat, i: string, f: string)
    requires Reads(Trim(text), i, f)
    ensures i + f == "" ==>
              ParseDollarAmount(text, decimals) == Err(if Trim(text) == "" then Empty else InvalidFormat("."))
    ensures |f| > decimals ==>
              ParseDollarAmount(text, decimals) == Err(TooManyDecimals(|f|, decimals))
  {
    var t := Trim(text);
    if i + f == "" {
      SplitOnceReads(t, i, f);
      assert t == "." || t == "";
    } else {
      DollarSteps(text, decimals, i, f);
    }
  }

  ghost predicate Exactly(text: string, decimals: nat, result: string, i: string, f: string) {
    && Reads(Trim(text), i, f)
    && |f| <= decimals <= 38
    && 1 <= Units(i, f, decimals) < TWO_128
    && result == ToDecimal(Units(i, f, decimals))
  }

  lemma DollarOkIsExact(text: string, decimals: nat, result: string)
    ensures ParseDollarAmount(text, decimals) == Ok(result) ==> exists i, f :: Exactly(text, decimals, result, i, f)
  {
    if ParseDollarAmount(text, decimals) == Ok(result) {
      var (i, f) := SplitOnce(Trim(text));
      ReadsOfSplit(Trim(text));
      DollarRefusals(text, decimals, i, f);
      DollarOnDecimalText(text, decimals, i, f);
      assert Exactly(text, decimals, result, i, f);
    }
  }

  /** Dollar parsing is exact: it succeeds precisely on decimal text whose number of base units is
      whole, positive and below 2^128, and returns the canonical text of that number. */
  lemma DollarExact(text: string, decimals: nat, result: string)
    ensures ParseDollarAmount(text, decimals) == Ok(result)
            <==>
            exists i, f :: Exactly(text, decimals, result, i, f)
  {
    if i, f :| Exactly(text, decimals, result, i, f) {
      assert i != "" || f != "";
      DollarOnDecimalText(text, decimals, i, f);
    } else {
      DollarOkIsExact(text, decimals, result);
    }
  }

  // ---------- The padding converter ----------

  function SplitAll(s: string): (parts: seq<string>)
    ensures |parts| >= 1
  {
    var k := FirstIndex(s, '.');
    if k == |s| then [s] else [s[..k]] + SplitAll(s[k + 1..])
  }

  function PadRight(s: string, width: nat): string {
    if |s| < width then s + Zeros(width - |s|) else s
  }

  function ParseUnits(amount: string, decimals: nat): Result<string, UnitsError> {
    if amount == "" then Err(EmptyAmount)
    else
      var parts := SplitAll(amount);
      if |parts| > 2 then Err(BadFormat)
      else
        var integerPart := parts[0];
        var fractionPart := if |parts| == 2 then parts[1] else "";
        if Utf8Length(fractionPart) > decimals then Err(TooPrecise)
        else
          var result := TrimLeadingZeros(integerPart + PadRight(fractionPart, decimals));
          Ok(if result == "" then "0" else result)
  }

  lemma SplitAllReads(s: string, i: string, f: string)
    requires Reads(s, i, f)
    ensures SplitAll(s) == if s == i && f == "" then [i] else [i, f]
  {
    FirstDot(s, i, f);
    if s == i + "." + f {
      assert s[..|i|] == i && s[|i| + 1..] == f;
      FirstDot(f, f, "");
    }
  }

  lemma PaddedValue(i: string, f: string, decimals: nat)
    requires AllDigits(i) && AllDigits(f) && |f| <= decimals
    ensures AllDigits(i + PadRight(f, decimals))
    ensures Value(i + PadRight(f, decimals)) == Units(i, f, decimals)
  {
    var z := Zeros(decimals - |f|);
    assert PadRight(f, decimals) == f + z;
    ValueZeros(decimals - |f|);
    ValueAppend(f, z);
    ValueAppend(i, f + z);
  }

  /** On decimal text the padding converter computes the same number of base units. */
  lemma UnitsOnDecimalText(amount: string, decimals: nat, i: string, f: string)
    requires amount != "" && Reads(amount, i, f)
    ensures ParseUnits(amount, decimals) ==
            if |f| <= decimals then Ok(ToDecimal(Units(i, f, decimals))) else Err(TooPrecise)
  {
    SplitAllReads(amount, i, f);
    DigitsWidth(f);
    if |f| <= decimals {
      PaddedValue(i, f, decimals);
      var combined := i + PadRight(f, decimals);
      TrimLeadingZerosValue(combined);
      var r := TrimLeadingZeros(combined);
      if r == "" {
        assert Units(i, f, decimals) == 0;
        assert ToDecimal(0) == [DigitChar(0)];
      } else {
        CanonicalDecimal(r);
      }
    }
  }

  ghost predicate Payable(r: Result<string, UnitsError>, result: string) {
    r == Ok(result) && AllDigits(result) && 1 <= Value(result) < TWO_128
  }

  lemma AgreeOnUnits(amount: string, decimals: nat, i: string, f: string, result: string)
    requires Trimmed(amount) && Reads(amount, i, f) && i + f != "" && |f| <= decimals
    ensures ParseDollarAmount(amount, decimals) == Ok(result)
            <==> decimals <= 38 && Payable(ParseUnits(amount, decimals), result)
  {
    hide ParseDollarAmount, ParseUnits, Trim, Trimmed;
    TrimKeeps(amount);
    UnitsOnDecimalText(amount, decimals, i, f);
    DollarOnDecimalText(amount, decimals, i, f);
  }

  lemma NothingToPay(amount: string, decimals: nat, result: string)
    requires Trimmed(amount) && Reads(amount, "", "")
    ensures ParseDollarAmount(amount, decimals).Err?
    ensures !Payable(ParseUnits(amount, decimals), result)
  {
    hide ParseDollarAmount, Trim, Trimmed, SplitAll, TrimLeadingZeros;
    TrimKeeps(amount);
    DollarRefusals(amount, decimals, "", "");
    if amount != "" {
      UnitsOnDecimalText(amount, decimals, "", "");
      assert Units("", "", decimals) == 0;
    }
  }

  lemma TooPreciseForBoth(amount: string, decimals: nat, i: string, f: string)
    requires Trimmed(amount) && Reads(amount, i, f) && |f| > decimals
    ensures ParseDollarAmount(amount, decimals).Err? && ParseUnits(amount, decimals).Err?
  {
    TrimKeeps(amount);
    DollarRefusals(amount, decimals, i, f);
    UnitsOnDecimalText(amount, decimals, i, f);
  }

  lemma AgreeOnDecimalText(amount: string, decimals: nat, i: string, f: string, result: string)
    requires Trimmed(amount) && Reads(amount, i, f)
    ensures ParseDollarAmount(amount, decimals) == Ok(result)
            <==> decimals <= 38 && Payable(ParseUnits(amount, decimals), result)
  {
    if i == "" && f == "" {
      NothingToPay(amount, decimals, result);
    } else if |f| > decimals {
      TooPreciseForBoth(amount, decimals, i, f);
    } else {
      AgreeOnUnits(amount, decimals, i, f, result);
    }
  }

  /** The two converters agree: on text without surrounding white space, whatever the arithmetic
      one returns the padding one returns too; and on decimal text the arithmetic one returns
      exactly those answers of the padding one that are non-zero and fit 128 bits. */
  lemma ConvertersAgree(amount: string, decimals: nat, result: string)
    requires Trimmed(amount)
    ensures ParseDollarAmount(amount, decimals) == Ok(result) ==> ParseUnits(amount, decimals) == Ok(result)
    ensures (exists i, f :: Reads(amount, i, f)) ==>
              (ParseDollarAmount(amount, decimals) == Ok(result)
               <==> decimals <= 38 && Payable(ParseUnits(amount, decimals), result))
  {
    TrimKeeps(amount);
    if i, f :| Reads(amount, i, f) {
      AgreeOnDecimalText(amount, decimals, i, f, result);
    } else {
      DollarExact(amount, decimals, result);
    }
  }

  /** Text that is no decimal numeral is refused as such, negative or not. */
  lemma DollarOnOtherText(text: string, decimals: nat)
    requires Trim(text) != ""
    ensures Trim(text)[0] == '-' ==> ParseDollarAmount(text, decimals) == Err(ZeroOrNegative)
    ensures Trim(text)[0] != '-' && !(exists i, f :: Reads(Trim(text), i, f)) ==>
              ParseDollarAmount(text, decimals) == Err(InvalidFormat(Trim(text)))
  {
    hide Trim;
    var (i, f) := SplitOnce(Trim(text));
    if AllDigits(i) && AllDigits(f) {
      ReadsOfSplit(Trim(text));
    }
  }

  /** Without its leading zeros, or a single one. */
  function Stripped(s: string): (r: string)
    ensures r == "0" || (|r| <= |s| && s[|s| - |r|..] == r && r != "" && r[0] != '0')
    ensures forall k | 0 <= k < |s| - |r| :: s[k] == '0'
  {
    var t := TrimLeadingZeros(s);
    if t == "" then "0" else t
  }

  lemma DotFree(s: string)
    requires '.' !in s
    ensures SplitAll(s) == [s]
  {
    assert s[..|s|] == s;
    FirstIndexAt(s, '.', |s|);
  }

  lemma DotSplits(i: string, rest: string)
    requires '.' !in i
    ensures SplitAll(i + "." + rest) == [i] + SplitAll(rest)
  {
    var s := i + "." + rest;
    assert s[..|i|] == i && s[|i| + 1..] == rest;
    FirstIndexAt(s, '.', |i|);
  }

  lemma Padded(f: string, decimals: nat)
    requires |f| <= decimals
    ensures PadRight(f, decimals) == f + Zeros(decimals - |f|)
  {
    assert |f| == decimals ==> f + Zeros(0) == f;
  }

  lemma UnitsOfParts(amount: string, decimals: nat)
    requires amount != ""
    ensures var parts := SplitAll(amount);
            && (|parts| > 2 ==> ParseUnits(amount, decimals) == Err(BadFormat))
            && (|parts| <= 2 ==>
                  var f := if |parts| == 2 then parts[1] else "";
                  ParseUnits(amount, decimals) ==
                  if Utf8Length(f) > decimals then Err(TooPrecise) else Ok(Stripped(parts[0] + PadRight(f, decimals))))
  {
    hide SplitAll, PadRight, TrimLeadingZeros, Utf8Length;
  }

  lemma UnitsWithoutDot(i: string, decimals: nat)
    requires i != "" && '.' !in i
    ensures ParseUnits(i, decimals) == Ok(Stripped(i + Zeros(decimals)))
  {
    hide SplitAll, PadRight, ParseUnits, Utf8Length, Stripped;
    UnitsOfParts(i, decimals);
    DotFree(i);
    NoWidth();
    Padded("", decimals);
    assert "" + Zeros(decimals) == Zeros(decimals);
  }

  lemma UnitsWithDot(i: string, f: string, decimals: nat)
    requires '.' !in i && '.' !in f
    ensures ParseUnits(i + "." + f, decimals) ==
            if Utf8Length(f) > decimals then Err(TooPrecise) else Ok(Stripped(i + (f + Zeros(decimals - |f|))))
  {
    hide SplitAll, PadRight, ParseUnits, Utf8Length, Stripped;
    UnitsOfParts(i + "." + f, decimals);
    DotSplits(i, f);
    DotFree(f);
    if Utf8Length(f) <= decimals {
      Padded(f, decimals);
    }
  }

  lemma UnitsWithDots(i: string, f: string, rest: string, decimals: nat)
    requires '.' !in i && '.' !in f
    ensures ParseUnits(i + "." + (f + "." + rest), decimals) == Err(BadFormat)
  {
    hide SplitAll, PadRight, ParseUnits, Utf8Length, Stripped;
    UnitsOfParts(i + "." + (f + "." + rest), decimals);
    DotSplits(i, f + "." + rest);
    DotSplits(f, rest);
  }

  /** What the padding converter answers on any text: nothing, no dot, one dot, and two or more. */
  lemma UnitsOnAnyText(i: string, f: string, rest: string, decimals: nat)
    requires '.' !in i && '.' !in f
    ensures ParseUnits("", decimals) == Err(EmptyAmount)
    ensures i != "" ==> ParseUnits(i, decimals) == Ok(Stripped(i + Zeros(decimals)))
    ensures ParseUnits(i + "." + f, decimals) ==
            if Utf8Length(f) > decimals then Err(TooPrecise) else Ok(Stripped(i + (f + Zeros(decimals - |f|))))
    ensures ParseUnits(i + "." + (f + "." + rest), decimals) == Err(BadFormat)
  {
    assert ParseUnits("", decimals) == Err(EmptyAmount);
    hide ParseUnits, Stripped, Utf8Length;
    if i != "" {
      UnitsWithoutDot(i, decimals);
    }
    UnitsWithDot(i, f, decimals);
    UnitsWithDots(i, f, rest, decimals);
  }

  lemma NoWidth()
    ensures Utf8Length("") == 0
  {
  }

  lemma TrimWithin(s: string, c: char)
    requires c in Trim(s)
    ensures c in s
  {
    var t := TrimStart(s);
    assert t == s[|s| - |t|..] && Trim(s) == t[..|Trim(s)|];
  }

  /** Off decimal text they part: without a dot the padding converter takes any text, whatever its
      characters, and the arithmetic one only digits. */
  lemma PaddingAcceptsLetters(amount: string, decimals: nat)
    requires amount != "" && '.' !in amount
    ensures ParseUnits(amount, decimals).Ok?
    ensures ParseDollarAmount(amount, decimals).Ok? ==> AllDigits(Trim(amount))
  {
    hide ParseDollarAmount, Trim;
    assert amount[..|amount|] == amount;
    FirstIndexAt(amount, '.', |amount|);
    if ParseDollarAmount(amount, decimals).Ok? {
      DollarOkIsExact(amount, decimals, ParseDollarAmount(amount, decimals).value);
      var i, f :| Exactly(amount, decimals, ParseDollarAmount(amount, decimals).value, i, f);
      if Trim(amount) == i + "." + f {
        assert Trim(amount)[|i|] == '.';
        TrimWithin(amount, '.');
      }
    }
  }
}
