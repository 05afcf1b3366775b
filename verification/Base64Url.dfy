/** Base64url without padding (section 5 of RFC 4648), as the TypeScript client codes it.

    A character stands for one UTF-16 code unit. */
module Base64Url {
  import opened Text

  type Octets = seq<bv8>

  const UPPER := "ABCDEFGHIJKLMNOPQRSTUVWXYZ"
  const LOWER := "abcdefghijklmnopqrstuvwxyz"
  const DIGITS_AND_MARKS := "0123456789-_"
  const CHARS := UPPER + LOWER + DIGITS_AND_MARKS

  // ---------- The alphabet ----------

  /** Where a character of the alphabet stands in it, by range. */
  function Rank(c: char): (r: nat)
    ensures r <= 64
  {
    if 'A' <= c <= 'Z' then c as int - 'A' as int
    else if 'a' <= c <= 'z' then c as int - 'a' as int + 26
    else if '0' <= c <= '9' then c as int - '0' as int + 52
    else if c == '-' then 62 else if c == '_' then 63 else 64
  }

  lemma RankUpper(i: nat)
    requires i < 26
    ensures Rank(UPPER[i]) == i
  {
  }

  lemma RankLower(i: nat)
    requires i < 26
    ensures Rank(LOWER[i]) == i + 26
  {
  }

  lemma RankRest(i: nat)
    requires i < 12
    ensures Rank(DIGITS_AND_MARKS[i]) == i + 52
  {
  }

  lemma RankedIsAscii(c: char)
    requires Rank(c) < 64
    ensures c < '\U{80}'
  {
  }

  lemma CharsParts(i: nat)
    requires i < 64
    ensures |CHARS| == 64
    ensures i < 26 ==> CHARS[i] == UPPER[i]
    ensures 26 <= i < 52 ==> CHARS[i] == LOWER[i - 26]
    ensures 52 <= i ==> CHARS[i] == DIGITS_AND_MARKS[i - 52]
  {
  }

  lemma CharsRank(i: nat)
    requires i < 64
    ensures |CHARS| == 64 && Rank(CHARS[i]) == i && CHARS[i] < '\U{80}'
  {
    hide Rank;
    CharsParts(i);
    if i < 26 { RankUpper(i); } else if i < 52 { RankLower(i - 26); } else { RankRest(i - 52); }
    RankedIsAscii(CHARS[i]);
  }

  predicate InAlphabet(c: char) {
    Rank(c) < 64
  }

  function CharOf(v: bv8): (c: char)
    requires v < 64
    ensures InAlphabet(c)
  {
    CharsRank(v as int);
    CHARS[v as int]
  }

  /** The lookup table's entry: zero for everything outside the alphabet. */
  function Sextet(c: char): bv8 {
    if InAlphabet(c) then Rank(c) as bv8 else 0
  }

  lemma SextetOfChar(v: bv8)
    requires v < 64
    ensures Sextet(CharOf(v)) == v
  {
    CharsRank(v as int);
  }

  lemma RankInjective(c: char, d: char)
    requires InAlphabet(c) && Rank(c) == Rank(d)
    ensures c == d
  {
  }

  // ---------- Encoding ----------

  function Bits0(b0: bv8): (v: bv8)
    ensures v < 64
  {
    (b0 >> 2) & 0x3f
  }

  function Bits1(b0: bv8, b1: bv8): (v: bv8)
    ensures v < 64
  {
    ((b0 << 4) | (b1 >> 4)) & 0x3f
  }

  function Bits2(b1: bv8, b2: bv8): (v: bv8)
    ensures v < 64
  {
    ((b1 << 2) | (b2 >> 6)) & 0x3f
  }

  function Bits3(b2: bv8): (v: bv8)
    ensures v < 64
  {
    b2 & 0x3f
  }

  /** The four characters of three octets. */
  function Quad(b0: bv8, b1: bv8, b2: bv8): (q: string)
    ensures |q| == 4 && forall k | 0 <= k < 4 :: InAlphabet(q[k])
  {
    [CharOf(Bits0(b0)), CharOf(Bits1(b0, b1)), CharOf(Bits2(b1, b2)), CharOf(Bits3(b2))]
  }

  function Least(a: nat, b: nat): nat { if a < b then a else b }

  function OctetAt(data: Octets, i: nat): bv8 { if i < |data| then data[i] else 0 }

  function Encode(data: Octets): string {
    if data == [] then ""
    else
      Quad(data[0], OctetAt(data, 1), OctetAt(data, 2))[..Least(|data| + 1, 4)] + Encode(data[Least(3, |data|)..])
  }

  method AppendQuad(before: string, b0: bv8, b1: bv8, b2: bv8, present: nat) returns (result: string)
    requires 1 <= present
    ensures result == before + Quad(b0, b1, b2)[..Least(present + 1, 4)]
  {
    ghost var q := Quad(b0, b1, b2);
    result := before + [CharOf(Bits0(b0))];
    result := result + [CharOf(Bits1(b0, b1))];
    assert result == before + q[..2];
    if 1 < present {
      result := result + [CharOf(Bits2(b1, b2))];
      assert result == before + q[..3];
    }
    if 2 < present {
      result := result + [CharOf(Bits3(b2))];
      assert result == before + q[..4];
    }
  }

  method EncodeLoop(data: array<bv8>) returns (result: string)
    ensures result == Encode(data[..])
  {
    result := "";
    var len := data.Length;
    var i := 0;
    assert data[0..] == data[..];
    while i < len
      invariant 0 <= i
      invariant result + Encode(data[Least(i, len)..]) == Encode(data[..])
    {
      var b0 := data[i];
      var b1 := if i + 1 < len then data[i + 1] else 0;
      var b2 := if i + 2 < len then data[i + 2] else 0;
      ghost var before, rest := result, data[i..];
      result := AppendQuad(result, b0, b1, b2, len - i);
      assert b1 == OctetAt(rest, 1) && b2 == OctetAt(rest, 2);
      ghost var after := data[Least(i + 3, len)..];
      assert after == rest[Least(3, |rest|)..];
      Regroup(before, Quad(b0, b1, b2)[..Least(|rest| + 1, 4)], Encode(after));
      i := i + 3;
    }
  }

  // ---------- Decoding ----------

  function StripPadding(s: string): (r: string)
    ensures |r| <= |s| && s[..|r|] == r
    ensures r != "" ==> r[|r| - 1] != '='
    ensures forall k | |r| <= k < |s| :: s[k] == '='
  {
    if s != "" && s[|s| - 1] == '=' then StripPadding(s[..|s| - 1]) else s
  }

  function Octet0(c0: bv8, c1: bv8): bv8 { (c0 << 2) | (c1 >> 4) }

  function Octet1(c1: bv8, c2: bv8): bv8 { (c1 << 4) | (c2 >> 2) }

  function Octet2(c2: bv8, c3: bv8): bv8 { (c2 << 6) | c3 }

  function Triple(c0: bv8, c1: bv8, c2: bv8, c3: bv8): Octets {
    [Octet0(c0, c1), Octet1(c1, c2), Octet2(c2, c3)]
  }

  function SextetAt(s: string, i: nat): bv8 { if i < |s| then Sextet(s[i]) else 0 }

  /** The octets of unpadded text; a lone character left over yields none. */
  function Octetize(s: string): Octets {
    if |s| < 2 then []
    else
      Triple(SextetAt(s, 0), SextetAt(s, 1), SextetAt(s, 2), SextetAt(s, 3))[..Least(|s|, 4) - 1]
      + Octetize(s[Least(|s|, 4)..])
  }

  function Decode(input: string): Octets {
    Octetize(StripPadding(input))
  }

  /** How many times the decoder advances its write index on `n` characters. */
  function Writes(n: nat): nat {
    3 * (n / 4) + (if n % 4 == 3 then 2 else if n % 4 > 0 then 1 else 0)
  }

  /** The writes stay inside the preallocated buffer exactly when no single character is left over. */
  lemma WritesFit(n: nat)
    ensures Writes(n) <= n * 3 / 4 <==> n % 4 != 1
  {
  }

  /** `lookup[code]` of the original, for any code: out-of-range reads count as zero. */
  function Read(lookup: array<bv8>, str: string, i: nat): bv8
    requires lookup.Length == 128
    reads lookup
  {
    if i < |str| && str[i] as int < 128 then lookup[str[i] as int] else 0
  }

  ghost predicate IsLookup(lookup: array<bv8>)
    reads lookup
  {
    lookup.Length == 128 && forall c: char | c < '\U{80}' :: lookup[c as int] == Sextet(c)
  }

  method BuildLookup() returns (lookup: array<bv8>)
    ensures fresh(lookup) && IsLookup(lookup)
  {
    lookup := new bv8[128](_ => 0);
    CharsRank(0);
    var i := 0;
    while i < |CHARS|
      invariant 0 <= i <= 64
      invariant forall c: char | c < '\U{80}' :: lookup[c as int] == if Rank(c) < i then Sextet(c) else 0
    {
      CharsRank(i);
      forall c: char | Rank(c) == i ensures c == CHARS[i] { RankInjective(c, CHARS[i]); }
      lookup[CHARS[i] as int] := i as bv8;
      i := i + 1;
    }
  }

  /** Stores one group at `j`. The store for a lone left-over character falls past the end of the
      array, where a typed array drops it. */
  method StoreGroup(out: array<bv8>, j: nat, c0: bv8, c1: bv8, c2: bv8, c3: bv8, present: nat) returns (next: nat)
    requires 1 <= present && j <= out.Length
    requires if present == 1 then j == out.Length else j + (if present < 4 then present - 1 else 3) <= out.Length
    modifies out
    ensures next == j + (if present < 3 then 1 else if present == 3 then 2 else 3)
    ensures out[..j] == old(out[..j])
    ensures present >= 2 ==> next <= out.Length && out[j..next] == Triple(c0, c1, c2, c3)[..next - j]
  {
    next := j;
    if next < out.Length { out[next] := Octet0(c0, c1); }
    next := next + 1;
    if 2 < present {
      out[next] := Octet1(c1, c2);
      next := next + 1;
    }
    if 3 < present {
      out[next] := Octet2(c2, c3);
      next := next + 1;
    }
  }

  method ReadGroup(lookup: array<bv8>, str: string, i: nat) returns (c0: bv8, c1: bv8, c2: bv8, c3: bv8)
    requires IsLookup(lookup) && i < |str|
    ensures c0 == SextetAt(str, i) && c1 == SextetAt(str, i + 1)
    ensures c2 == SextetAt(str, i + 2) && c3 == SextetAt(str, i + 3)
  {
    c0 := Read(lookup, str, i);
    c1 := Read(lookup, str, i + 1);
    c2 := if i + 2 < |str| then Read(lookup, str, i + 2) else 0;
    c3 := if i + 3 < |str| then Read(lookup, str, i + 3) else 0;
  }

  /** Group `g` of `n` characters goes to octet 3g; only a lone last character does not fit. */
  lemma GroupFits(g: nat, n: nat)
    requires 4 * g < n
    ensures if n - 4 * g == 1 then 3 * g == n * 3 / 4 && Writes(n) == 3 * g + 1
            else if n - 4 * g < 4 then Writes(n) == 3 * g + (n - 4 * g - 1) == n * 3 / 4
            else 3 * g + 3 <= n * 3 / 4 && (n - 4 * g == 4 ==> Writes(n) == 3 * g + 3)
  {
  }

  /** One round of the decoding loop: group `g` of `str`, stored from index `j` on. */
  method DecodeGroup(lookup: array<bv8>, str: string, out: array<bv8>, g: nat, j: nat) returns (next: nat)
    requires lookup != out && IsLookup(lookup)
    requires 4 * g < |str| && j == 3 * g && out.Length == |str| * 3 / 4
    modifies out
    ensures next == if 4 * g + 4 < |str| then 3 * g + 3 else Writes(|str|)
    ensures j <= out.Length && out[..Least(next, out.Length)] + Octetize(str[Least(4 * g + 4, |str|)..])
            == old(out[..j]) + Octetize(str[4 * g..])
  {
    var i := 4 * g;
    GroupFits(g, |str|);
    ghost var s := str[i..];
    ghost var start := out[..j];
    var c0, c1, c2, c3 := ReadGroup(lookup, str, i);
    next := StoreGroup(out, j, c0, c1, c2, c3, |str| - i);
    GroupDone(start, s, out[..Least(next, out.Length)], str[Least(i + 4, |str|)..]);
  }

  lemma GroupDone(start: Octets, s: string, stored: Octets, rest: string)
    requires s != "" && rest == s[Least(|s|, 4)..]
    requires stored == start + (if |s| == 1 then [] else
               Triple(SextetAt(s, 0), SextetAt(s, 1), SextetAt(s, 2), SextetAt(s, 3))[..Least(|s|, 4) - 1])
    ensures stored + Octetize(rest) == start + Octetize(s)
  {
    if |s| > 1 {
      Regroup(start, Triple(SextetAt(s, 0), SextetAt(s, 1), SextetAt(s, 2), SextetAt(s, 3))[..Least(|s|, 4) - 1],
              Octetize(rest));
    }
  }

  /** The decoder's loop; a write past the end of the buffer is lost. */
  method DecodeLoop(input: string) returns (octets: Octets, written: nat)
    ensures octets == Decode(input)
    ensures written == Writes(|StripPadding(input)|)
  {
    var lookup := BuildLookup();
    var str := StripPadding(input);
    var n := |str|;
    var out := new bv8[n * 3 / 4](_ => 0);
    var j, i, g := 0, 0, 0;
    while i < n
      invariant i == 4 * g
      invariant j == if i < n then 3 * g else Writes(n)
      invariant out[..Least(j, out.Length)] + Octetize(str[Least(i, n)..]) == Octetize(str)
      invariant IsLookup(lookup)
    {
      j := DecodeGroup(lookup, str, out, g, j);
      i, g := i + 4, g + 1;
    }
    octets := out[..Least(j, out.Length)];
    written := j;
  }

  // ---------- Round trip ----------

  lemma GroupBits(b0: bv8, b1: bv8, b2: bv8)
    ensures Octet0(Bits0(b0), Bits1(b0, b1)) == b0
    ensures Octet1(Bits1(b0, b1), Bits2(b1, b2)) == b1
    ensures Octet2(Bits2(b1, b2), Bits3(b2)) == b2
  {
  }

  /** A group reads back, however many of its octets are present. */
  lemma TripleOfQuad(b0: bv8, b1: bv8, b2: bv8, present: nat)
    requires 1 <= present <= 3 && (present < 3 ==> b2 == 0) && (present < 2 ==> b1 == 0)
    ensures var q := Quad(b0, b1, b2)[..present + 1];
            Triple(SextetAt(q, 0), SextetAt(q, 1), SextetAt(q, 2), SextetAt(q, 3))[..present] == [b0, b1, b2][..present]
  {
    GroupBits(b0, b1, b2);
    SextetOfChar(Bits0(b0));
    SextetOfChar(Bits1(b0, b1));
    SextetOfChar(Bits2(b1, b2));
    SextetOfChar(Bits3(b2));
  }

  lemma OctetizeGroup(q: string, rest: string)
    requires 2 <= |q| <= 4 && (|q| < 4 ==> rest == "")
    ensures Octetize(q + rest) ==
            Triple(SextetAt(q, 0), SextetAt(q, 1), SextetAt(q, 2), SextetAt(q, 3))[..|q| - 1] + Octetize(rest)
  {
    var s := q + rest;
    assert s[Least(|s|, 4)..] == rest;
    assert SextetAt(s, 0) == SextetAt(q, 0) && SextetAt(s, 1) == SextetAt(q, 1);
    assert SextetAt(s, 2) == SextetAt(q, 2) && SextetAt(s, 3) == SextetAt(q, 3);
  }

  lemma SplitFront(data: Octets)
    requires data != []
    ensures [data[0], OctetAt(data, 1), OctetAt(data, 2)][..Least(3, |data|)] + data[Least(3, |data|)..] == data
  {
  }

  lemma {:induction false} OctetizeEncode(data: Octets)
    ensures Octetize(Encode(data)) == data
  {
    if data == [] {
    } else {
      var present := Least(3, |data|);
      var b0, b1, b2 := data[0], OctetAt(data, 1), OctetAt(data, 2);
      var q, rest := Quad(b0, b1, b2)[..present + 1], data[present..];
      TripleOfQuad(b0, b1, b2, present);
      OctetizeGroup(q, Encode(rest));
      OctetizeEncode(rest);
      SplitFront(data);
      assert Encode(data) == q + Encode(rest);
    }
  }

  /** The output is made of the 64 URL-safe characters and is ceil(4n/3) long. */
  lemma {:induction false} EncodeShape(data: Octets)
    ensures |Encode(data)| == (4 * |data| + 2) / 3
    ensures forall k | 0 <= k < |Encode(data)| :: InAlphabet(Encode(data)[k])
  {
    if data == [] {
    } else {
      EncodeShape(data[Least(3, |data|)..]);
    }
  }

  lemma NothingToStrip(s: string)
    requires forall k | 0 <= k < |s| :: InAlphabet(s[k])
    ensures StripPadding(s) == s
  {
    assert s == "" || InAlphabet(s[|s| - 1]);
  }

  /** Decoding undoes encoding, and on encoder output every write is inside the buffer. */
  lemma DecodeEncode(data: Octets)
    ensures Decode(Encode(data)) == data
    ensures Writes(|StripPadding(Encode(data))|) == |data| == |Encode(data)| * 3 / 4
  {
    EncodeShape(data);
    NothingToStrip(Encode(data));
    OctetizeEncode(data);
    LengthBack(|data|);
  }

  /** A foreign character decodes like the first of the alphabet. */
  function AsA(c: char): char {
    if InAlphabet(c) then c else 'A'
  }

  lemma {:induction false} ForeignIsA(s: string)
    ensures Octetize(s) == Octetize(seq(|s|, i requires 0 <= i < |s| => AsA(s[i])))
  {
    var t := seq(|s|, i requires 0 <= i < |s| => AsA(s[i]));
    forall i: nat ensures SextetAt(s, i) == SextetAt(t, i) {
      assert InAlphabet('A') && Rank('A') == 0;
    }
    if |s| < 2 {
    } else {
      var n := Least(|s|, 4);
      ForeignIsA(s[n..]);
      assert t[n..] == seq(|s[n..]|, i requires 0 <= i < |s[n..]| => AsA(s[n..][i]));
    }
  }

  function Equals(n: nat): (s: string)
    ensures |s| == n
  {
    seq(n, _ => '=')
  }

  lemma {:induction false} PaddingStripped(s: string, n: nat)
    requires s == "" || s[|s| - 1] != '='
    ensures StripPadding(s + Equals(n)) == s
  {
    if n == 0 {
      assert s + Equals(0) == s;
    } else {
      assert (s + Equals(n))[..|s| + n - 1] == s + Equals(n - 1);
      PaddingStripped(s, n - 1);
    }
  }

  /** Padding, however much, changes nothing. */
  lemma DecodePadded(data: Octets, n: nat)
    ensures Decode(Encode(data) + Equals(n)) == data
  {
    hide Encode, Octetize, StripPadding, InAlphabet;
    EncodeShape(data);
    if Encode(data) != "" {
      EqualsIsForeign();
      assert InAlphabet(Encode(data)[|Encode(data)| - 1]);
    }
    PaddingStripped(Encode(data), n);
    OctetizeEncode(data);
  }

  lemma EqualsIsForeign()
    ensures !InAlphabet('=')
  {
  }

  lemma LengthBack(n: nat)
    ensures Writes((4 * n + 2) / 3) == n == (4 * n + 2) / 3 * 3 / 4
  {
    var q, r := n / 3, n % 3;
    assert (4 * n + 2) / 3 == 4 * q + (4 * r + 2) / 3;
  }

  // ---------- The strict decoder of the server ----------

  /** The bits of the last character that belong to no octet are zero. */
  predicate NoSpareBits(s: string) {
    && (|s| % 4 == 2 ==> Sextet(s[|s| - 1]) & 0x0f == 0)
    && (|s| % 4 == 3 ==> Sextet(s[|s| - 1]) & 0x03 == 0)
  }

  /** The server's decoder takes no lone character, no character outside the alphabet (padding
      included) and no spare bits. */
  predicate Strict(s: string) {
    |s| % 4 != 1 && (forall k | 0 <= k < |s| :: InAlphabet(s[k])) && NoSpareBits(s)
  }

  function DecodeStrict(s: string): Option<Octets> {
    if Strict(s) then Some(Octetize(s)) else None
  }

  lemma WordOfRank(n: nat)
    requires n < 64
    ensures n as bv8 < 64 && (n as bv8) as int == n
  {
  }

  lemma CharOfSextet(c: char)
    requires InAlphabet(c)
    ensures Sextet(c) < 64 && CharOf(Sextet(c)) == c
  {
    hide Rank;
    WordOfRank(Rank(c));
    CharsRank(Rank(c));
    RankInjective(c, CHARS[Rank(c)]);
  }

  lemma BitsOfTriple(c0: bv8, c1: bv8, c2: bv8, c3: bv8)
    requires c0 < 64 && c1 < 64 && c2 < 64 && c3 < 64
    ensures Bits0(Octet0(c0, c1)) == c0
    ensures Bits1(Octet0(c0, c1), Octet1(c1, c2)) == c1
    ensures Bits2(Octet1(c1, c2), Octet2(c2, c3)) == c2
    ensures Bits3(Octet2(c2, c3)) == c3
    ensures c1 & 0x0f == 0 ==> Bits1(Octet0(c0, c1), 0) == c1
    ensures c2 & 0x03 == 0 ==> Bits2(Octet1(c1, c2), 0) == c2
  {
  }

  /** A strict group encodes back to its characters. */
  lemma EncodeGroup(q: string, rest: Octets)
    requires 2 <= |q| <= 4 && (|q| < 4 ==> rest == [])
    requires (forall k | 0 <= k < |q| :: InAlphabet(q[k])) && NoSpareBits(q)
    ensures Encode(Triple(SextetAt(q, 0), SextetAt(q, 1), SextetAt(q, 2), SextetAt(q, 3))[..|q| - 1] + rest)
            == q + Encode(rest)
  {
    hide Bits0, Bits1, Bits2, Bits3, Octet0, Octet1, Octet2, CharOf, Sextet, InAlphabet;
    forall k | 0 <= k < |q| ensures Sextet(q[k]) < 64 && CharOf(Sextet(q[k])) == q[k] {
      CharOfSextet(q[k]);
    }
    var c0, c1, c2, c3 := SextetAt(q, 0), SextetAt(q, 1), SextetAt(q, 2), SextetAt(q, 3);
    BitsOfTriple(c0, c1, c2, c3);
    var front := Triple(c0, c1, c2, c3)[..|q| - 1];
    var data := front + rest;
    assert data[Least(3, |data|)..] == rest;
    var encoded := Quad(data[0], OctetAt(data, 1), OctetAt(data, 2));
    assert encoded[0] == q[0] && encoded[1] == q[1];
    assert |q| > 2 ==> encoded[2] == q[2];
    assert |q| > 3 ==> encoded[3] == q[3];
    assert encoded[..|q|] == q;
  }

  lemma {:induction false} EncodeOctetize(s: string)
    requires Strict(s)
    ensures Encode(Octetize(s)) == s
  {
    hide Sextet, InAlphabet;
    if s == "" {
    } else {
      var n := Least(|s|, 4);
      var q, rest := s[..n], s[n..];
      assert s == q + rest;
      EncodeOctetize(rest);
      OctetizeGroup(q, rest);
      EncodeGroup(q, Octetize(rest));
    }
  }

  lemma SpareBitsOfQuad(b0: bv8, b1: bv8)
    ensures Sextet(CharOf(Bits1(b0, 0))) & 0x0f == 0 && Sextet(CharOf(Bits2(b1, 0))) & 0x03 == 0
  {
    SextetOfChar(Bits1(b0, 0));
    SextetOfChar(Bits2(b1, 0));
  }

  lemma SpareBitsOfTail(data: Octets)
    requires 1 <= |data| <= 3
    ensures NoSpareBits(Encode(data)) && |Encode(data)| == |data| + 1
  {
    hide Bits0, Bits1, Bits2, Bits3, CharOf, Sextet;
    SpareBitsOfQuad(data[0], OctetAt(data, 1));
    assert Encode(data[|data|..]) == "";
  }

  /** No lone character and no spare bits in the encoder's output. */
  lemma {:induction false} EncodeIsStrict(data: Octets)
    ensures |Encode(data)| % 4 != 1 && NoSpareBits(Encode(data))
    ensures data != [] ==> Encode(data) != ""
  {
    hide Quad, Sextet, OctetAt;
    if |data| == 0 {
    } else if |data| <= 3 {
      SpareBitsOfTail(data);
    } else {
      var rest := Encode(data[3..]);
      EncodeIsStrict(data[3..]);
      assert |Encode(data)| == 4 + |rest| && Encode(data)[4..] == rest;
    }
  }

  /** The strict tests accept exactly the encoder's output. */
  lemma DecodeStrictExact(s: string, data: Octets)
    ensures DecodeStrict(s) == Some(data) <==> s == Encode(data)
  {
    hide Encode, Octetize, NoSpareBits, InAlphabet;
    if DecodeStrict(s) == Some(data) {
      EncodeOctetize(s);
    } else if s == Encode(data) {
      EncodedInAlphabet(data);
      EncodeIsStrict(data);
      OctetizeEncode(data);
    }
  }

  lemma EncodedInAlphabet(data: Octets)
    ensures forall k | 0 <= k < |Encode(data)| :: InAlphabet(Encode(data)[k])
  {
    hide Encode, InAlphabet;
    EncodeShape(data);
  }
}
