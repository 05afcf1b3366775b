/** Text shared by every other module: outcomes, decimal and hexadecimal numerals, white space.

    Characters are Unicode scalar values, as in the original's `char`. */
module Text {

  datatype Option<+T> = None | Some(value: T)

  datatype Result<+T, +E> = Ok(value: T) | Err(error: E)

  const TWO_64: nat := 0x1_0000_0000_0000_0000
  const TWO_128: nat := 0x1_0000_0000_0000_0000_0000_0000_0000_0000

  /** A machine word: every operation that could leave the range is a proof obligation. */
  type U64 = n: nat | n < TWO_64

  type Byte = n: nat | n < 256
  type Bytes = seq<Byte>

  lemma Regroup<T>(before: seq<T>, group: seq<T>, after: seq<T>)
    ensures (before + group) + after == before + (group + after)
  {
  }

  /** Cutting a suffix is cutting the whole. */
  lemma Cut<T>(s: seq<T>, a: nat, b: nat)
    requires a <= b <= |s|
    ensures s[a..][..b - a] == s[a..b] && s[a..][b - a..] == s[b..]
  {
  }

  // ---------- White space and lengths ----------

  /** Unicode White_Space, which is what the Rust `char::is_whitespace` tests. */
  predicate IsWhitespace(c: char) {
    || '\U{9}' <= c <= '\U{D}' || c == ' ' || c == '\U{85}' || c == '\U{A0}' || c == '\U{1680}'
    || '\U{2000}' <= c <= '\U{200A}' || c == '\U{2028}' || c == '\U{2029}' || c == '\U{202F}'
    || c == '\U{205F}' || c == '\U{3000}'
  }

  function TrimStart(s: string): (r: string)
    ensures |r| <= |s| && s[|s| - |r|..] == r
    ensures forall k | 0 <= k < |s| - |r| :: IsWhitespace(s[k])
    ensures r != "" ==> !IsWhitespace(r[0])
    ensures s != "" && !IsWhitespace(s[0]) ==> r == s
  {
    if s != "" && IsWhitespace(s[0]) then
      var r := TrimStart(s[1..]);
      assert forall k | 1 <= k < |s| - |r| :: s[k] == s[1..][k - 1];
      r
    else s
  }

  function TrimEnd(s: string): (r: string)
    ensures |r| <= |s| && s[..|r|] == r
    ensures forall k | |r| <= k < |s| :: IsWhitespace(s[k])
    ensures r != "" ==> !IsWhitespace(r[|r| - 1])
    ensures s != "" && !IsWhitespace(s[|s| - 1]) ==> r == s
  {
    if s != "" && IsWhitespace(s[|s| - 1]) then TrimEnd(s[..|s| - 1]) else s
  }

  function Trim(s: string): string {
    TrimEnd(TrimStart(s))
  }

  /** Nothing to trim: no white space at either end. */
  predicate Trimmed(s: string) {
    s == "" || (!IsWhitespace(s[0]) && !IsWhitespace(s[|s| - 1]))
  }

  lemma TrimKeeps(s: string)
    ensures Trim(s) == s <==> Trimmed(s)
  {
  }

  /** Bytes of one character in UTF-8: Rust string lengths count these. */
  function Utf8Width(c: char): nat {
    if c < '\U{80}' then 1 else if c < '\U{800}' then 2 else if c < '\U{10000}' then 3 else 4
  }

  function Utf8Length(s: string): (n: nat)
    ensures |s| <= n
  {
    if s == "" then 0 else Utf8Width(s[0]) + Utf8Length(s[1..])
  }

  lemma {:induction false} Utf8LengthAscii(s: string)
    requires forall i | 0 <= i < |s| :: s[i] < '\U{80}'
    ensures Utf8Length(s) == |s|
  {
    if s == "" {
    } else {
      Utf8LengthAscii(s[1..]);
    }
  }

  /** Position of the first `c` in `s`, or |s|. */
  function FirstIndex(s: string, c: char): (i: nat)
    ensures i <= |s| && c !in s[..i]
    ensures i < |s| ==> s[i] == c
  {
    if s == "" || s[0] == c then 0
    else
      var k := FirstIndex(s[1..], c);
      assert s[..1 + k] == [s[0]] + s[1..][..k];
      1 + k
  }

  lemma {:induction false} FirstIndexAt(s: string, c: char, k: nat)
    requires k <= |s| && c !in s[..k] && (k < |s| ==> s[k] == c)
    ensures FirstIndex(s, c) == k
  {
    if k == 0 {
    } else {
      assert s[0] == s[..k][0];
      assert forall x :: x in s[1..][..k - 1] ==> x in s[..k];
      FirstIndexAt(s[1..], c, k - 1);
    }
  }

  function LowerChar(c: char): char {
    if 'A' <= c <= 'Z' then (c as int - 'A' as int + 'a' as int) as char else c
  }

  /** ASCII letters in lower case, everything else as it is. */
  function Lower(s: string): (r: string)
    ensures |r| == |s|
  {
    seq(|s|, i requires 0 <= i < |s| => LowerChar(s[i]))
  }

  predicate IsLowerLetter(c: char) {
    'a' <= c <= 'z'
  }

  // ---------- Decimal numerals ----------

  predicate IsDigit(c: char) {
    '0' <= c <= '9'
  }

  predicate AllDigits(s: string) {
    forall i | 0 <= i < |s| :: IsDigit(s[i])
  }

  function DigitOf(c: char): nat
    requires IsDigit(c)
  {
    c as int - '0' as int
  }

  function DigitChar(d: nat): (c: char)
    requires d < 10
    ensures IsDigit(c) && DigitOf(c) == d
  {
    ('0' as int + d) as char
  }

  function Pow10(n: nat): (p: nat)
    ensures p >= 1
  {
    if n == 0 then 1 else 10 * Pow10(n - 1)
  }

  /** The number a string of digits denotes; the empty string denotes zero. */
  function Value(s: string): nat
    requires AllDigits(s)
  {
    if s == "" then 0 else Value(s[..|s| - 1]) * 10 + DigitOf(s[|s| - 1])
  }

  /** The decimal text of a number, without leading zeros. */
  function ToDecimal(n: nat): (s: string)
    ensures s != "" && AllDigits(s) && Value(s) == n
    ensures s[0] == '0' ==> n == 0 && s == "0"
  {
    if n < 10 then
      var s := [DigitChar(n)];
      assert s[..0] == "";
      s
    else
      var front := ToDecimal(n / 10);
      var s := front + [DigitChar(n % 10)];
      assert s[..|s| - 1] == front;
      s
  }

  lemma {:induction false} Pow10Adds(a: nat, b: nat)
    ensures Pow10(a + b) == Pow10(a) * Pow10(b)
  {
    if b == 0 {
    } else {
      Pow10Adds(a, b - 1);
      calc {
        Pow10(a + b);
        10 * Pow10(a + b - 1);
        10 * (Pow10(a) * Pow10(b - 1));
        Pow10(a) * (10 * Pow10(b - 1));
      }
    }
  }

  lemma {:induction false} ValueAppend(a: string, b: string)
    requires AllDigits(a) && AllDigits(b)
    ensures AllDigits(a + b) && Value(a + b) == Value(a) * Pow10(|b|) + Value(b)
  {
    if b == "" {
      assert a + b == a;
    } else {
      var front, d := b[..|b| - 1], DigitOf(b[|b| - 1]);
      ValueAppend(a, front);
      assert (a + b)[..|a + b| - 1] == a + front;
      ShiftDigit(Value(a), Pow10(|front|), Value(front), d);
    }
  }

  lemma ShiftDigit(x: nat, p: nat, y: nat, d: nat)
    ensures (x * p + y) * 10 + d == x * (10 * p) + (y * 10 + d)
  {
  }

  lemma {:induction false} ValueBound(s: string)
    requires AllDigits(s)
    ensures Value(s) < Pow10(|s|)
  {
    if s == "" {
    } else {
      ValueBound(s[..|s| - 1]);
      assert Pow10(|s|) == 10 * Pow10(|s| - 1);
    }
  }

  function Zeros(n: nat): (s: string)
    ensures |s| == n && AllDigits(s) && forall i | 0 <= i < n :: s[i] == '0'
  {
    seq(n, _ => '0')
  }

  lemma {:induction false} ValueZeros(n: nat)
    ensures Value(Zeros(n)) == 0
  {
    if n == 0 {
    } else {
      ValueZeros(n - 1);
      assert Zeros(n)[..n - 1] == Zeros(n - 1);
    }
  }

  function TrimLeadingZeros(s: string): (r: string)
    ensures |r| <= |s| && s[|s| - |r|..] == r
    ensures forall k | 0 <= k < |s| - |r| :: s[k] == '0'
    ensures r != "" ==> r[0] != '0'
  {
    if s != "" && s[0] == '0' then
      var r := TrimLeadingZeros(s[1..]);
      assert forall k | 1 <= k < |s| - |r| :: s[k] == s[1..][k - 1];
      r
    else s
  }

  lemma {:induction false} TrimLeadingZerosValue(s: string)
    requires AllDigits(s)
    ensures AllDigits(TrimLeadingZeros(s)) && Value(TrimLeadingZeros(s)) == Value(s)
  {
    if s != "" && s[0] == '0' {
      assert s == "0" + s[1..];
      assert "0"[..0] == "";
      assert Value("0") == 0;
      ValueAppend("0", s[1..]);
      TrimLeadingZerosValue(s[1..]);
    }
  }

  /** A digit string without a leading zero is the canonical text of its value. */
  lemma {:induction false} CanonicalDecimal(s: string)
    requires s != "" && AllDigits(s) && (s[0] == '0' ==> s == "0")
    ensures s == ToDecimal(Value(s))
  {
    var front, last := s[..|s| - 1], s[|s| - 1];
    if front == "" {
      assert Value(s) == DigitOf(last);
      assert s == [DigitChar(DigitOf(last))];
    } else {
      CanonicalDecimal(front);
      assert Value(s) / 10 == Value(front) && Value(s) % 10 == DigitOf(last);
      assert s == front + [last];
    }
  }

  /** The Rust `str::parse::<u64>`: an optional plus sign, then at least one digit, in range. */
  function ParseU64(s: string): Option<U64> {
    var t := if s != "" && s[0] == '+' then s[1..] else s;
    if t != "" && AllDigits(t) && Value(t) < TWO_64 then Some(Value(t)) else None
  }

  lemma ParseU64OfDecimal(n: U64)
    ensures ParseU64(ToDecimal(n)) == Some(n)
  {
    assert IsDigit(ToDecimal(n)[0]);
  }

  /** One plus sign may stand before the digits, leading zeros count for nothing, and a number too large
      for the word is refused like any other text. */
  lemma ParseU64Means(s: string, digits: string)
    requires (s == digits && (digits != "" ==> digits[0] != '+')) || s == "+" + digits
    ensures ParseU64(s) ==
            if digits != "" && AllDigits(digits) && Value(digits) < TWO_64 then Some(Value(digits)) else None
  {
    assert s == "+" + digits ==> s[1..] == digits;
  }

  // ---------- Hexadecimal ----------

  function HexDigit(c: char): (r: Option<nat>)
    ensures r.Some? ==> r.value < 16
  {
    if '0' <= c <= '9' then Some(c as int - '0' as int)
    else if 'a' <= c <= 'f' then Some(c as int - 'a' as int + 10)
    else if 'A' <= c <= 'F' then Some(c as int - 'A' as int + 10)
    else None
  }

  function HexChar(d: nat): char
    requires d < 16
  {
    if d < 10 then ('0' as int + d) as char else ('a' as int + d - 10) as char
  }

  function EncodeHex(b: Bytes): (s: string)
    ensures |s| == 2 * |b|
  {
    if b == [] then "" else [HexChar(b[0] / 16), HexChar(b[0] % 16)] + EncodeHex(b[1..])
  }

  function DecodeHex(s: string): Option<Bytes> {
    if s == "" then Some([])
    else if |s| == 1 then None
    else
      match (HexDigit(s[0]), HexDigit(s[1]), DecodeHex(s[2..]))
      case (Some(h), Some(l), Some(rest)) =>
        Some([16 * h + l] + rest)
      case _ => None
  }

  /** `hex::decode` after an optional `0x` prefix. */
  function ParseHexBytes(s: string): Option<Bytes> {
    DecodeHex(if "0x" <= s then s[2..] else s)
  }

  function PrintHexBytes(b: Bytes): string {
    "0x" + EncodeHex(b)
  }

  lemma {:induction false} DecodeHexOfEncode(b: Bytes)
    ensures DecodeHex(EncodeHex(b)) == Some(b)
  {
    if b == [] {
    } else {
      DecodeHexOfEncode(b[1..]);
      var s := EncodeHex(b);
      assert s[2..] == EncodeHex(b[1..]);
      assert HexDigit(s[0]) == Some(b[0] / 16) && HexDigit(s[1]) == Some(b[0] % 16);
      assert [b[0]] + b[1..] == b;
    }
  }

  /** Reading back printed bytes gives the bytes. */
  lemma ParseHexOfPrint(b: Bytes)
    ensures ParseHexBytes(PrintHexBytes(b)) == Some(b)
  {
    assert PrintHexBytes(b)[..2] == "0x";
    assert PrintHexBytes(b)[2..] == EncodeHex(b);
    DecodeHexOfEncode(b);
  }

  lemma ReadsFirst(s: string, b: Bytes)
    requires |s| >= 2 && b != []
    ensures DecodeHex(s) == Some(b) <==>
            && HexDigit(s[0]) == Some(b[0] / 16) && HexDigit(s[1]) == Some(b[0] % 16)
            && DecodeHex(s[2..]) == Some(b[1..])
  {
    hide HexDigit;
    assert b == [b[0]] + b[1..];
  }

  lemma PrintsFirst(s: string, b: Bytes)
    requires |s| >= 2 && b != []
    ensures Lower(s) == EncodeHex(b) <==>
            && LowerChar(s[0]) == HexChar(b[0] / 16) && LowerChar(s[1]) == HexChar(b[0] % 16)
            && Lower(s[2..]) == EncodeHex(b[1..])
  {
    hide HexChar, LowerChar;
    assert Lower(s) == [LowerChar(s[0]), LowerChar(s[1])] + Lower(s[2..]);
    assert EncodeHex(b)[2..] == EncodeHex(b[1..]) && Lower(s)[2..] == Lower(s[2..]);
  }

  /** Text reads as bytes exactly when its lower case is how they print: either case of a digit reads. */
  lemma {:induction false} DecodeHexExactly(s: string, b: Bytes)
    ensures DecodeHex(s) == Some(b) <==> Lower(s) == EncodeHex(b)
    decreases |s| + |b|
  {
    hide HexDigit, HexChar, LowerChar;
    if s == "" || b == [] || |s| == 1 {
    } else {
      hide DecodeHex, EncodeHex, Lower;
      ReadsFirst(s, b);
      PrintsFirst(s, b);
      DecodeHexExactly(s[2..], b[1..]);
      HexDigitExactly(s[0], b[0] / 16);
      HexDigitExactly(s[1], b[0] % 16);
    }
  }

  lemma HexDigitExactly(c: char, d: nat)
    requires d < 16
    ensures HexDigit(c) == Some(d) <==> LowerChar(c) == HexChar(d)
  {
  }

  /** The prefix may be left out. */
  lemma PrefixOptional(text: string, b: Bytes)
    requires Lower(text) == EncodeHex(b)
    ensures ParseHexBytes(text) == ParseHexBytes("0x" + text) == Some(b)
  {
    DecodeHexExactly(text, b);
    assert ("0x" + text)[..2] == "0x" && ("0x" + text)[2..] == text;
    assert |text| >= 2 ==> HexDigit(text[1]).Some?;
  }
}
