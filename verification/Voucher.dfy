/** The signed voucher: BCS bytes of (channel id, cumulative amount), in the Rust encoder, in the
    TypeScript encoder, and the signature check over them. */
module Voucher {
  import opened Text

  // ---------- ULEB128 ----------

  /** ULEB128: seven bits a byte, least significant first, the top bit set on all but the last. */
  function Uleb(value: nat): (b: Bytes)
    ensures b != []
  {
    if value < 128 then [value] else [value % 128 + 128] + Uleb(value / 128)
  }

  /** Reads one ULEB128 number off the front and returns what follows it. */
  function ReadUleb(b: Bytes): (r: Option<(nat, Bytes)>)
    ensures r.Some? ==> |r.value.1| < |b|
  {
    if b == [] then None
    else if b[0] < 128 then Some((b[0], b[1..]))
    else
      match ReadUleb(b[1..])
      case Some((high, rest)) => Some((high * 128 + (b[0] - 128), rest))
      case None => None
  }

  /** The prefix reads back, whatever follows it: ULEB128 is prefix-free. */
  lemma {:induction false} ReadUlebOfUleb(value: nat, rest: Bytes)
    ensures ReadUleb(Uleb(value) + rest) == Some((value, rest))
  {
    var b := Uleb(value) + rest;
    if value < 128 {
      assert b[1..] == rest;
    } else {
      assert b[1..] == Uleb(value / 128) + rest;
      ReadUlebOfUleb(value / 128, rest);
    }
  }

  /** `& 0x7F` is the remainder by 128, `>>= 7` the quotient, and `|= 0x80` adds 128 to a
      seven-bit byte. */
  method SerializeUleb128(buffer: Bytes, value: U64) returns (out: Bytes)
    ensures out == buffer + Uleb(value)
  {
    out := buffer;
    var v: U64 := value;
    var done := false;
    while !done
      invariant !done ==> out + Uleb(v) == buffer + Uleb(value)
      invariant done ==> out == buffer + Uleb(value)
      decreases !done, v
    {
      ghost var before, v0 := out, v;
      var byte: Byte := v % 128;
      v := v / 128;
      if v != 0 {
        byte := byte + 128;
      }
      out := out + [byte];
      assert v != 0 ==> before + ([byte] + Uleb(v)) == out + Uleb(v);
      assert v == 0 ==> Uleb(v0) == [byte];
      done := v == 0;
    }
  }

  // ---------- BCS voucher ----------

  function LittleEndian(n: nat, width: nat): (b: Bytes)
    ensures |b| == width
  {
    if width == 0 then [] else [n % 256] + LittleEndian(n / 256, width - 1)
  }

  function ReadLittleEndian(b: Bytes): nat {
    if b == [] then 0 else b[0] + 256 * ReadLittleEndian(b[1..])
  }

  function Pow256(n: nat): (p: nat)
    ensures p >= 1
  {
    if n == 0 then 1 else 256 * Pow256(n - 1)
  }

  lemma {:induction false} ReadLittleEndianOf(n: nat, width: nat)
    requires n < Pow256(width)
    ensures ReadLittleEndian(LittleEndian(n, width)) == n
  {
    if width == 0 {
    } else {
      assert n / 256 < Pow256(width - 1);
      ReadLittleEndianOf(n / 256, width - 1);
      assert LittleEndian(n, width)[1..] == LittleEndian(n / 256, width - 1);
    }
  }

  /** What follows the length prefix. */
  function Body(channelId: Bytes, amount: nat): Bytes {
    channelId + LittleEndian(amount, 8)
  }

  /** struct Voucher { channel_id: vector<u8>, cumulative_amount: u64 } in BCS. */
  function VoucherBytes(channelId: Bytes, amount: nat): Bytes {
    Uleb(|channelId|) + Body(channelId, amount)
  }

  method SerializeVoucher(channelId: Bytes, amount: U64) returns (buffer: Bytes)
    requires |channelId| < TWO_64
    ensures buffer == VoucherBytes(channelId, amount)
  {
    buffer := SerializeUleb128([], |channelId|);
    buffer := buffer + channelId;
    buffer := buffer + LittleEndian(amount, 8);
  }

  /** The on-chain reader of the same struct: the whole input must be consumed. */
  function ReadVoucher(b: Bytes): Option<(Bytes, nat)> {
    match ReadUleb(b)
    case Some((n, rest)) =>
      if |rest| == n + 8 then Some((rest[..n], ReadLittleEndian(rest[n..]))) else None
    case None => None
  }

  /** A voucher reads back exactly. */
  lemma VoucherRoundTrip(channelId: Bytes, amount: U64)
    ensures ReadVoucher(VoucherBytes(channelId, amount)) == Some((channelId, amount))
  {
    var tail := Body(channelId, amount);
    ReadUlebOfUleb(|channelId|, tail);
    assert tail[..|channelId|] == channelId && tail[|channelId|..] == LittleEndian(amount, 8);
    assert Pow256(8) == TWO_64;
    ReadLittleEndianOf(amount, 8);
  }

  /** Different vouchers are different messages, so a signature binds the channel and the amount. */
  lemma VoucherInjective(id1: Bytes, amount1: U64, id2: Bytes, amount2: U64)
    requires VoucherBytes(id1, amount1) == VoucherBytes(id2, amount2)
    ensures id1 == id2 && amount1 == amount2
  {
    VoucherRoundTrip(id1, amount1);
    VoucherRoundTrip(id2, amount2);
  }

  // ---------- The TypeScript encoder ----------

  /** ECMAScript ToInt32, applied to the operands of `&` and `>>=`. */
  function ToInt32(v: int): (r: int)
    ensures -0x8000_0000 <= r < 0x8000_0000
    ensures 0 <= v < 0x8000_0000 ==> r == v
  {
    var m := v % 0x1_0000_0000;
    if m < 0x8000_0000 then m else m - 0x1_0000_0000
  }

  /** The value of the loop variable after `k` arithmetic right shifts by seven. */
  function Shifted(v: int, k: nat): int {
    if k == 0 then v else ToInt32(Shifted(v, k - 1)) / 128
  }

  /** The loop runs in 32-bit signed arithmetic; it ends when the value is non-negative there. */
  method UlebTs(value: nat) returns (bytes: Bytes)
    requires ToInt32(value) >= 0
    ensures bytes == Uleb(ToInt32(value))
  {
    bytes := [];
    var v: int := value;
    var first := true;
    while first || v != 0
      invariant first ==> v == value && bytes == []
      invariant !first ==> 0 <= v < 0x8000_0000 / 128
      invariant !first && v != 0 ==> bytes + Uleb(v) == Uleb(ToInt32(value))
      invariant !first && v == 0 ==> bytes == Uleb(ToInt32(value))
      decreases first, if first then 0 else v
    {
      ghost var before, v0 := bytes, ToInt32(v);
      var byte: Byte := ToInt32(v) % 128;
      v := ToInt32(v) / 128;
      if v != 0 {
        byte := byte + 128;
      }
      bytes := bytes + [byte];
      assert v != 0 ==> before + ([byte] + Uleb(v)) == bytes + Uleb(v);
      assert v == 0 ==> Uleb(v0) == [byte];
      first := false;
    }
  }

  /** On a value that is negative in 32 bits the exit test is never met. */
  lemma {:induction false} UlebTsNeverEnds(value: nat, k: nat)
    requires ToInt32(value) < 0
    ensures k > 0 ==> -0x8000_0000 <= Shifted(value, k) < 0
  {
    if k > 1 {
      UlebTsNeverEnds(value, k - 1);
    }
  }

  /** Copies `source` into `target` at `offset`: the typed-array `set`. */
  method Set(target: array<Byte>, source: Bytes, offset: nat)
    requires offset + |source| <= target.Length
    modifies target
    ensures target[..offset + |source|] == old(target[..offset]) + source
  {
    forall k | 0 <= k < |source| {
      target[offset + k] := source[k];
    }
  }

  function VoucherBytesTs(channelId: Bytes, amount: nat): Bytes
    requires ToInt32(|channelId|) >= 0
  {
    Uleb(ToInt32(|channelId|)) + Body(channelId, amount % TWO_64)
  }

  /** Both encoders yield the same message for every u64 amount exactly when the channel id is
      shorter than 2^31 bytes. */
  lemma EncodersAgree(channelId: Bytes, amount: U64)
    ensures (ToInt32(|channelId|) >= 0 && VoucherBytesTs(channelId, amount) == VoucherBytes(channelId, amount))
            <==> |channelId| < 0x8000_0000
  {
    var n := |channelId|;
    if ToInt32(n) >= 0 && VoucherBytesTs(channelId, amount) == VoucherBytes(channelId, amount) {
      ReadUlebOfUleb(ToInt32(n), Body(channelId, amount));
      ReadUlebOfUleb(n, Body(channelId, amount));
    }
  }

  /** `setBigUint64` keeps the amount modulo 2^64. */
  method SerializeVoucherTs(channelId: Bytes, amount: nat) returns (result: array<Byte>)
    requires ToInt32(|channelId|) >= 0
    ensures fresh(result)
    ensures result[..] == VoucherBytesTs(channelId, amount)
  {
    hide Uleb, LittleEndian, ToInt32;
    var lenBytes := UlebTs(|channelId|);
    var amountBytes := LittleEndian(amount % TWO_64, 8);
    result := new Byte[|lenBytes| + |channelId| + 8](_ => 0);
    var offset := 0;
    assert result[..0] == [];
    Set(result, lenBytes, offset);
    offset := offset + |lenBytes|;
    Set(result, channelId, offset);
    offset := offset + |channelId|;
    Set(result, amountBytes, offset);
    Regroup(lenBytes, channelId, amountBytes);
    assert result[..] == result[..offset + 8];
  }

  // ---------- Signatures ----------

  /** Ed25519, abstractly: which (public key, message, signature) triples verify. A key that does
      not decode verifies nothing. */
  datatype Ed25519 = Ed25519(verifies: (Bytes, Bytes, Bytes) -> bool)

  predicate VerifyVoucher(c: Ed25519, channelId: Bytes, amount: U64, signature: Bytes,
                          publicKey: Bytes, authorized: Bytes)
  {
    (authorized == [] || publicKey == authorized) && c.verifies(publicKey, VoucherBytes(channelId, amount), signature)
  }

  /** A signature of one message only is good for one channel and one amount, and only under the key the
      channel authorizes, if it authorizes one. */
  lemma SignatureBinds(c: Ed25519, id: Bytes, amount: U64, id': Bytes, amount': U64, signature: Bytes,
                       publicKey: Bytes, authorized: Bytes)
    requires forall m, m' :: c.verifies(publicKey, m, signature) && c.verifies(publicKey, m', signature) ==> m == m'
    requires VerifyVoucher(c, id, amount, signature, publicKey, authorized)
    ensures VerifyVoucher(c, id', amount', signature, publicKey, authorized) <==> id' == id && amount' == amount
    ensures authorized != [] ==> publicKey == authorized
  {
    hide VoucherBytes;
    if VerifyVoucher(c, id', amount', signature, publicKey, authorized) {
      VoucherInjective(id, amount, id', amount');
    }
  }
}
