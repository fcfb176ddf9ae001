/**
 * The off-chain permit encoder: byte loops over arrays, in two identical
 * TypeScript copies. A bigint has no width, `v & 0xffn` is `v % 256` and
 * `v >>= 8n` is `v / 256`, rounding down, also for negative numbers.
 */
module PermitEncoder {
  import opened Prelude
  import opened Arithmetic
  import opened Permit

  method BigIntToBeBytes(n: int, byteLen: nat) returns (out: array<Byte>)
    ensures fresh(out) && out[..] == ToBeBytes(n, byteLen)
  {
    out := new Byte[byteLen](_ => 0);
    var v := n;
    var i := byteLen - 1;
    while 0 <= i
      invariant -1 <= i < byteLen
      invariant BigEndian(n, byteLen) == BigEndian(v, i + 1) + out[i + 1..]
    {
      out[i] := v % 256;
      assert out[i..] == [v % 256] + out[i + 1..];
      v := v / 256;
      i := i - 1;
    }
    ShiftedBytesAreTwosComplement(n, byteLen);
    assert out[..] == out[0..];
  }

  /** `DataView.setUint32(0, n, false)`, which keeps the low 32 bits. */
  method SetUint32(out: array<Byte>, n: int)
    requires 4 <= out.Length
    modifies out
    ensures out[..] == ToBeBytes(n, 4) + old(out[4..])
  {
    var bytes := ToBeBytes(n, 4);
    out[0], out[1], out[2], out[3] := bytes[0], bytes[1], bytes[2], bytes[3];
  }

  method Uint32ToBeBytes(n: int) returns (out: array<Byte>)
    ensures fresh(out) && out[..] == ToBeBytes(n, 4)
  {
    out := new Byte[4](_ => 0);
    SetUint32(out, n);
  }

  /** `out.set(bytes, offset)`. */
  method CopyInto(out: array<Byte>, bytes: Bytes, offset: nat)
    requires offset + |bytes| <= out.Length
    modifies out
    ensures out[..] == old(out[..offset]) + bytes + old(out[offset + |bytes|..])
  {
    forall i | 0 <= i < |bytes| {
      out[offset + i] := bytes[i];
    }
  }

  /** `TextEncoder.encode` on ASCII text, or a one-byte `Uint8Array`. */
  method EncodeText(text: Bytes) returns (out: array<Byte>)
    ensures fresh(out) && out[..] == text
  {
    out := new Byte[|text|](i requires 0 <= i < |text| => text[i]);
  }

  /** `TextEncoder.encode` on the tag, a text of ASCII characters. */
  method EncodeTag(text: string) returns (out: array<Byte>)
    requires forall i | 0 <= i < |text| :: text[i] < 128 as char
    ensures fresh(out) && Spells(out[..], text)
  {
    out := new Byte[|text|](i requires 0 <= i < |text| => text[i] as int);
  }

  method EncodeLenPrefixedStr(text: Address) returns (out: array<Byte>)
    ensures fresh(out) && out[..] == LenPrefixed(text)
  {
    var encoded := EncodeText(text);
    var bytes := encoded[..];
    out := new Byte[4 + |bytes|](_ => 0);
    SetUint32(out, |bytes|);
    CopyInto(out, bytes, 4);
  }

  ghost function Joined(parts: seq<array<Byte>>): Bytes
    reads parts
  {
    if parts == [] then [] else Joined(parts[..|parts| - 1]) + parts[|parts| - 1][..]
  }

  lemma {:induction false} JoinedPrefix(parts: seq<array<Byte>>, k: nat)
    requires k <= |parts|
    ensures |Joined(parts[..k])| <= |Joined(parts)|
    decreases |parts|
  {
    if k < |parts| {
      assert parts[..|parts| - 1][..k] == parts[..k];
      JoinedPrefix(parts[..|parts| - 1], k);
    } else {
      assert parts[..k] == parts;
    }
  }

  method TotalLength(parts: seq<array<Byte>>) returns (total: nat)
    ensures total == |Joined(parts)|
  {
    total := 0;
    for i := 0 to |parts|
      invariant total == |Joined(parts[..i])|
    {
      assert parts[..i + 1][..i] == parts[..i];
      total := total + parts[i].Length;
    }
    assert parts[..|parts|] == parts;
  }

  method Concat(parts: seq<array<Byte>>) returns (out: array<Byte>)
    ensures fresh(out) && out[..] == Joined(parts)
  {
    var total := TotalLength(parts);
    out := new Byte[total](_ => 0);
    var off := 0;
    for i := 0 to |parts|
      invariant off == |Joined(parts[..i])| <= total
      invariant out[..off] == Joined(parts[..i])
    {
      assert parts[..i + 1][..i] == parts[..i];
      JoinedPrefix(parts, i + 1);
      CopyInto(out, parts[i][..], off);
      off := off + parts[i].Length;
    }
    assert parts[..|parts|] == parts;
    assert out[..off] == out[..];
  }

  /** The permit a message stands for when its numbers are cut to their widths. */
  function Truncated(contract: Address, action: Byte, account: Address, amount: int, nonce: int,
      deadline: int)
    : Permit
  {
    Permit(contract, action, account,
           FromTwosComplement(amount % 0x1_0000_0000_0000_0000_0000_0000_0000_0000),
           nonce % 0x1_0000_0000_0000_0000, deadline % 0x1_0000_0000)
  }

  lemma {:induction false} UnsignedTruncated(n: int, len: nat)
    ensures ToBeBytes(n % Pow256(len), len) == ToBeBytes(n, len)
  {
    ModUnique(n % Pow256(len), Pow256(len), 0, n % Pow256(len));
  }

  lemma {:induction false} SignedTruncated(n: int)
    ensures ToBeBytes(FromTwosComplement(n % 0x1_0000_0000_0000_0000_0000_0000_0000_0000), 16) == ToBeBytes(n, 16)
  {
    Powers();
    TwosComplementResidue(n % 0x1_0000_0000_0000_0000_0000_0000_0000_0000);
  }

  lemma {:induction false} TailOfTruncated(contract: Address, action: Byte, account: Address, amount: int,
      nonce: int, deadline: int)
    ensures ToBeBytes(amount, 16) + ToBeBytes(nonce, 8) + ToBeBytes(deadline, 4)
         == Tail(Truncated(contract, action, account, amount, nonce, deadline))
  {
    Powers();
    SignedTruncated(amount);
    UnsignedTruncated(nonce, 8);
    UnsignedTruncated(deadline, 4);
  }

  lemma TruncatedInRange(contract: Address, action: Byte, account: Address, amount: Int128, nonce: UInt64,
      deadline: UInt32)
    ensures Truncated(contract, action, account, amount, nonce, deadline)
        == Permit(contract, action, account, amount, nonce, deadline)
  {
  }

  /**
   * The off-chain message is the on-chain one: for any integers it is the
   * encoding of the truncated permit, so in range it is the permit's own.
   */
  method BuildPermitMessage(contractAddress: Address, action: Byte, accountAddress: Address, amount: int, nonce: int,
      deadline: int)
    returns (out: array<Byte>)
    ensures fresh(out)
    ensures out[..] == Encode(Truncated(contractAddress, action, accountAddress, amount, nonce, deadline))
    ensures Fits(amount) && 0 <= nonce < 0x1_0000_0000_0000_0000 && 0 <= deadline < 0x1_0000_0000 ==>
              out[..] == Encode(Permit(contractAddress, action, accountAddress, amount, nonce, deadline))
  {
    DomainText();
    var tag := EncodeTag("SEP57_PERMIT_V1");
    assert tag[..] == DOMAIN;
    var kind := EncodeText([action]);
    var contract := EncodeLenPrefixedStr(contractAddress);
    var account := EncodeLenPrefixedStr(accountAddress);
    var value := BigIntToBeBytes(amount, 16);
    var once := BigIntToBeBytes(nonce, 8);
    var until := Uint32ToBeBytes(deadline);
    out := Concat([tag, kind, contract, account] + [value, once, until]);
    JoinSeven(tag, kind, contract, account, value, once, until);
    TailOfTruncated(contractAddress, action, accountAddress, amount, nonce, deadline);
    if Fits(amount) && 0 <= nonce < 0x1_0000_0000_0000_0000 && 0 <= deadline < 0x1_0000_0000 {
      TruncatedInRange(contractAddress, action, accountAddress, amount, nonce, deadline);
    }
  }

  lemma {:induction false} JoinedAppend(parts: seq<array<Byte>>, more: seq<array<Byte>>)
    ensures Joined(parts + more) == Joined(parts) + Joined(more)
    decreases |more|
  {
    if more == [] {
      assert parts + more == parts;
    } else {
      var front := more[..|more| - 1];
      assert (parts + more)[..|parts + more| - 1] == parts + front;
      JoinedAppend(parts, front);
    }
  }

  lemma {:induction false} JoinTwo(a: array<Byte>, b: array<Byte>)
    ensures Joined([a]) == a[..] && Joined([a, b]) == a[..] + b[..]
  {
    assert [a][..0] == [] && [a, b][..1] == [a];
  }

  lemma {:induction false} JoinFour(a: array<Byte>, b: array<Byte>, c: array<Byte>, d: array<Byte>)
    ensures Joined([a, b, c, d]) == a[..] + b[..] + (c[..] + d[..])
  {
    JoinTwo(a, b);
    JoinTwo(c, d);
    JoinedAppend([a, b], [c, d]);
    assert [a, b] + [c, d] == [a, b, c, d];
  }

  lemma {:induction false} JoinThree(a: array<Byte>, b: array<Byte>, c: array<Byte>)
    ensures Joined([a, b, c]) == a[..] + b[..] + c[..]
  {
    JoinTwo(a, b);
    JoinTwo(c, c);
    JoinedAppend([a, b], [c]);
    assert [a, b] + [c] == [a, b, c];
  }

  lemma {:induction false} JoinSeven(a: array<Byte>, b: array<Byte>, c: array<Byte>, d: array<Byte>, e: array<Byte>,
      f: array<Byte>, g: array<Byte>)
    ensures Joined([a, b, c, d] + [e, f, g]) == a[..] + b[..] + c[..] + d[..] + (e[..] + f[..] + g[..])
  {
    JoinedAppend([a, b, c, d], [e, f, g]);
    JoinFour(a, b, c, d);
    JoinThree(e, f, g);
  }

  lemma {:induction false} NonceRoundTrip(bytes: Bytes)
    requires |bytes| == 8
    ensures FromBigEndian(bytes) < 0x1_0000_0000_0000_0000 && ToBeBytes(FromBigEndian(bytes), 8) == bytes
  {
    BigEndianOfValue(bytes);
    Powers();
    UnsignedCanonical(bytes);
  }

  /** The random nonce, accumulated from 8 bytes: encoding it gives the bytes back. */
  method NextNonce(bytes: Bytes) returns (n: int)
    ensures |bytes| == 8 ==> 0 <= n < 0x1_0000_0000_0000_0000 && ToBeBytes(n, 8) == bytes
  {
    n := 0;
    for i := 0 to |bytes|
      invariant n == FromBigEndian(bytes[..i])
    {
      assert bytes[..i + 1][..i] == bytes[..i];
      n := n * 256 + bytes[i];
    }
    assert bytes[..|bytes|] == bytes;
    if |bytes| == 8 {
      NonceRoundTrip(bytes);
    }
    n := n % 0x1_0000_0000_0000_0000;
  }
}
