/**
 * The signed permit of a sep57 mint or burn: the byte format both sides must
 * build, and a decoder that shows nothing is lost or shared in it.
 */
module Permit {
  import opened Prelude
  import opened Arithmetic

  datatype Permit = Permit(contract: Address, action: Byte, account: Address,
                           amount: Int128, nonce: UInt64, deadline: UInt32)

  const MINT: Byte := 1
  const BURN: Byte := 2

  /** The domain tag "SEP57_PERMIT_V1". */
  const DOMAIN: Bytes := [0x53, 0x45, 0x50, 0x35, 0x37, 0x5F, 0x50, 0x45, 0x52, 0x4D, 0x49, 0x54, 0x5F, 0x56, 0x31]

  /** The bytes are those of a text of one-byte characters. */
  predicate Spells(bs: Bytes, text: string) {
    |bs| == |text| && forall i | 0 <= i < |bs| :: bs[i] == text[i] as int
  }

  function Pow256(n: nat): (p: nat)
    ensures p > 0
  {
    if n == 0 then 1 else 256 * Pow256(n - 1)
  }

  /** The low `len` bytes of an integer of any sign, most significant first. */
  function BigEndian(n: int, len: nat): (bs: Bytes)
    ensures |bs| == len
    decreases len, n
  {
    if len == 0 then [] else BigEndian(n / 256, len - 1) + [n % 256]
  }

  /** Rust's `to_be_bytes` on a `len`-byte integer: the two's complement representative. */
  function ToBeBytes(n: int, len: nat): (bs: Bytes)
    ensures |bs| == len
  {
    BigEndian(n % Pow256(len), len)
  }

  function FromBigEndian(bs: Bytes): nat {
    if bs == [] then 0 else FromBigEndian(bs[..|bs| - 1]) * 256 + bs[|bs| - 1]
  }

  function LenPrefixed(a: Address): Bytes {
    ToBeBytes(|a|, 4) + a
  }

  function Tail(p: Permit): Bytes {
    ToBeBytes(p.amount, 16) + ToBeBytes(p.nonce, 8) + ToBeBytes(p.deadline, 4)
  }

  /** The message the contract verifies. */
  function Encode(p: Permit): Bytes {
    DOMAIN + [p.action] + LenPrefixed(p.contract) + LenPrefixed(p.account) + Tail(p)
  }

  function TakeLenPrefixed(m: Bytes): Option<(Address, Bytes)> {
    if |m| < 4 then None
    else
      var len := FromBigEndian(m[..4]);
      if len < 0x1_0000_0000 && len <= |m| - 4 then Some((m[4..4 + len], m[4 + len..])) else None
  }

  /** Two's complement reading of 16 bytes. */
  function FromTwosComplement(n: int): int {
    if n < 0x8000_0000_0000_0000_0000_0000_0000_0000 then n
    else n - 0x1_0000_0000_0000_0000_0000_0000_0000_0000
  }

  function DecodeTail(contract: Address, action: Byte, account: Address, m: Bytes): Option<Permit> {
    if |m| != 28 then None
    else
      var amount := FromTwosComplement(FromBigEndian(m[..16]));
      var nonce := FromBigEndian(m[16..24]);
      var deadline := FromBigEndian(m[24..]);
      if Fits(amount) && nonce < 0x1_0000_0000_0000_0000 && deadline < 0x1_0000_0000
      then Some(Permit(contract, action, account, amount, nonce, deadline))
      else None
  }

  function Decode(m: Bytes): Option<Permit> {
    if |m| < 16 || m[..15] != DOMAIN then None
    else
      match TakeLenPrefixed(m[16..])
      case None => None
      case Some((contract, rest)) =>
        match TakeLenPrefixed(rest)
        case None => None
        case Some((account, tail)) => DecodeTail(contract, m[15], account, tail)
  }

  // ---------- big-endian integers ----------

  lemma {:induction false} ModStep(n: int, p: int)
    requires p > 0
    ensures n % (256 * p) == (n / 256 % p) * 256 + n % 256
  {
    var q, r := n / 256, n % 256;
    var k, t := q / p, q % p;
    assert n == (256 * p) * k + (256 * t + r) by {
      assert n == 256 * q + r && q == p * k + t;
      assert 256 * (p * k) == (256 * p) * k;
    }
    assert 0 <= 256 * t + r < 256 * p;
    ModUnique(n, 256 * p, k, 256 * t + r);
  }

  /** Reading back a big-endian integer gives its residue, for negative numbers too. */
  lemma {:induction false} BigEndianValue(n: int, len: nat)
    ensures FromBigEndian(BigEndian(n, len)) == n % Pow256(len)
    decreases len
  {
    if len > 0 {
      BigEndianValue(n / 256, len - 1);
      assert BigEndian(n, len)[..len - 1] == BigEndian(n / 256, len - 1);
      ModStep(n, Pow256(len - 1));
    }
  }

  /** Bytes are recovered from their value: big-endian writing is onto, hence canonical. */
  lemma {:induction false} BigEndianOfValue(bs: Bytes)
    ensures BigEndian(FromBigEndian(bs), |bs|) == bs
    ensures FromBigEndian(bs) < Pow256(|bs|)
  {
    if bs != [] {
      BigEndianOfValue(bs[..|bs| - 1]);
    }
  }

  /** Writing low bytes by repeated arithmetic shift is Rust's `to_be_bytes`. */
  lemma {:induction false} ShiftedBytesAreTwosComplement(n: int, len: nat)
    ensures BigEndian(n, len) == ToBeBytes(n, len)
  {
    BigEndianValue(n, len);
    BigEndianOfValue(BigEndian(n, len));
  }

  lemma Powers()
    ensures Pow256(4) == 0x1_0000_0000
    ensures Pow256(8) == 0x1_0000_0000_0000_0000
    ensures Pow256(16) == 0x1_0000_0000_0000_0000_0000_0000_0000_0000
  {
    assert Pow256(4) == 0x1_0000_0000;
    assert Pow256(8) == Pow256(4) * 0x1_0000_0000;
    assert Pow256(12) == Pow256(8) * 0x1_0000_0000;
    assert Pow256(16) == Pow256(12) * 0x1_0000_0000;
  }

  /** The i-th byte, whatever the sign: shifted down by the bytes after it, and cut to eight bits. */
  lemma {:induction false} ByteAt(n: int, len: nat, i: nat)
    requires i < len
    ensures ToBeBytes(n, len)[i] == n / Pow256(len - 1 - i) % 256
  {
    ShiftedBytesAreTwosComplement(n, len);
    ShiftedByteAt(n, len, i);
  }

  lemma {:induction false} ShiftedByteAt(n: int, len: nat, i: nat)
    requires i < len
    ensures BigEndian(n, len)[i] == n / Pow256(len - 1 - i) % 256
    decreases len
  {
    if i < len - 1 {
      ShiftedByteAt(n / 256, len - 1, i);
      DivByByte(n, Pow256(len - 2 - i));
    }
  }

  /** What an i128 can hold is what sixteen bytes of two's complement can. */
  lemma FitsExactly(x: int)
    ensures Fits(x) <==> 0 <= x + Pow256(16) / 2 < Pow256(16)
  {
    Powers();
  }

  lemma {:induction false} ToBeBytesValue(n: int, len: nat)
    ensures FromBigEndian(ToBeBytes(n, len)) == n % Pow256(len)
  {
    BigEndianValue(n, len);
    ShiftedBytesAreTwosComplement(n, len);
  }

  // ---------- round trip ----------

  lemma {:induction false} TakeWritten(a: Address, rest: Bytes)
    ensures TakeLenPrefixed(LenPrefixed(a) + rest) == Some((a, rest))
  {
    var m := LenPrefixed(a) + rest;
    assert m[..4] == ToBeBytes(|a|, 4);
    ToBeBytesValue(|a|, 4);
    Powers();
    assert m[4..4 + |a|] == a && m[4 + |a|..] == rest;
  }

  lemma {:induction false} TakenWasWritten(m: Bytes)
    requires TakeLenPrefixed(m).Some?
    ensures m == LenPrefixed(TakeLenPrefixed(m).value.0) + TakeLenPrefixed(m).value.1
  {
    var len := FromBigEndian(m[..4]);
    BigEndianOfValue(m[..4]);
    ShiftedBytesAreTwosComplement(len, 4);
    assert m == m[..4] + (m[4..4 + len] + m[4 + len..]);
  }

  lemma {:induction false} FieldRoundTrip(amount: Int128, nonce: UInt64, deadline: UInt32)
    ensures FromTwosComplement(FromBigEndian(ToBeBytes(amount, 16))) == amount
    ensures FromBigEndian(ToBeBytes(nonce, 8)) == nonce
    ensures FromBigEndian(ToBeBytes(deadline, 4)) == deadline
  {
    ToBeBytesValue(amount, 16);
    ToBeBytesValue(nonce, 8);
    ToBeBytesValue(deadline, 4);
    Powers();
  }

  lemma TwosComplementResidue(u: int)
    requires 0 <= u < 0x1_0000_0000_0000_0000_0000_0000_0000_0000
    ensures FromTwosComplement(u) % 0x1_0000_0000_0000_0000_0000_0000_0000_0000 == u
  {
    var d := 0x1_0000_0000_0000_0000_0000_0000_0000_0000;
    ModUnique(FromTwosComplement(u), d, if FromTwosComplement(u) < 0 then -1 else 0, u);
  }

  /** A value congruent to the one read from `bs` is written back as `bs`. */
  lemma {:induction false} WrittenBack(bs: Bytes, v: int)
    requires v % Pow256(|bs|) == FromBigEndian(bs)
    ensures ToBeBytes(v, |bs|) == bs
  {
    BigEndianOfValue(bs);
  }

  lemma {:induction false} UnsignedCanonical(bs: Bytes)
    ensures ToBeBytes(FromBigEndian(bs), |bs|) == bs
  {
    BigEndianOfValue(bs);
    ModUnique(FromBigEndian(bs), Pow256(|bs|), 0, FromBigEndian(bs));
    WrittenBack(bs, FromBigEndian(bs));
  }

  lemma {:induction false} SignedCanonical(bs: Bytes)
    requires |bs| == 16
    ensures ToBeBytes(FromTwosComplement(FromBigEndian(bs)), |bs|) == bs
  {
    BigEndianOfValue(bs);
    Powers();
    TwosComplementResidue(FromBigEndian(bs));
    WrittenBack(bs, FromTwosComplement(FromBigEndian(bs)));
  }

  lemma {:induction false} TailRoundTrip(p: Permit)
    ensures DecodeTail(p.contract, p.action, p.account, Tail(p)) == Some(p)
  {
    var a, n, d := ToBeBytes(p.amount, 16), ToBeBytes(p.nonce, 8), ToBeBytes(p.deadline, 4);
    var m := a + n + d;
    assert m[..16] == a && m[16..24] == n && m[24..] == d;
    FieldRoundTrip(p.amount, p.nonce, p.deadline);
  }

  lemma {:induction false} TailCanonical(contract: Address, action: Byte, account: Address, m: Bytes)
    requires DecodeTail(contract, action, account, m).Some?
    ensures Tail(DecodeTail(contract, action, account, m).value) == m
  {
    SignedCanonical(m[..16]);
    UnsignedCanonical(m[16..24]);
    UnsignedCanonical(m[24..]);
    assert m == m[..16] + m[16..24] + m[24..];
  }

  /** Appending the three numbers one by one appends the tail. */
  lemma {:induction false} TailAppended(head: Bytes, p: Permit)
    ensures head + ToBeBytes(p.amount, 16) + ToBeBytes(p.nonce, 8) + ToBeBytes(p.deadline, 4) == head + Tail(p)
  {
  }

  /** The fixed head of a message, and what follows it. */
  lemma {:induction false} Head(p: Permit)
    ensures var m := Encode(p);
      && |m| >= 16 && m[..15] == DOMAIN && m[15] == p.action
      && m[16..] == LenPrefixed(p.contract) + (LenPrefixed(p.account) + Tail(p))
  {
    assert Encode(p) == DOMAIN + ([p.action] + (LenPrefixed(p.contract) + (LenPrefixed(p.account) + Tail(p))));
  }

  /** The domain tag is its text. */
  lemma DomainText()
    ensures Spells(DOMAIN, "SEP57_PERMIT_V1")
  {
  }

  lemma {:induction false} TailFields(p: Permit, m: Bytes, at: nat)
    requires at <= |m| && m[at..] == Tail(p)
    ensures |m| == at + 28 && m[at..at + 16] == ToBeBytes(p.amount, 16)
    ensures m[at + 16..at + 24] == ToBeBytes(p.nonce, 8) && m[at + 24..] == ToBeBytes(p.deadline, 4)
  {
    assert Tail(p) == ToBeBytes(p.amount, 16) + (ToBeBytes(p.nonce, 8) + ToBeBytes(p.deadline, 4));
    Part(m, at, ToBeBytes(p.amount, 16), ToBeBytes(p.nonce, 8) + ToBeBytes(p.deadline, 4));
    Part(m, at + 16, ToBeBytes(p.nonce, 8), ToBeBytes(p.deadline, 4));
  }

  lemma {:induction false} AddressFields(m: Bytes, at: nat, a: Address, rest: Bytes)
    requires at <= |m| && m[at..] == LenPrefixed(a) + rest
    ensures |m| == at + 4 + |a| + |rest| && m[at..at + 4] == ToBeBytes(|a|, 4)
    ensures m[at + 4..at + 4 + |a|] == a && m[at + 4 + |a|..] == rest
  {
    assert m[at..] == ToBeBytes(|a|, 4) + (a + rest);
    Part(m, at, ToBeBytes(|a|, 4), a + rest);
    Part(m, at + 4, a, rest);
  }

  /** The message, field by field: every field at its place, and nothing else. */
  lemma {:induction false} Layout(p: Permit)
    ensures var (m, c, a) := (Encode(p), |p.contract|, |p.account|);
      && |m| == 15 + 1 + (4 + c) + (4 + a) + 16 + 8 + 4
      && Spells(m[..15], "SEP57_PERMIT_V1") && m[15] == p.action
      && m[16..20] == ToBeBytes(c, 4) && m[20..20 + c] == p.contract
      && m[20 + c..24 + c] == ToBeBytes(a, 4) && m[24 + c..24 + c + a] == p.account
      && m[24 + c + a..40 + c + a] == ToBeBytes(p.amount, 16)
      && m[40 + c + a..48 + c + a] == ToBeBytes(p.nonce, 8)
      && m[48 + c + a..] == ToBeBytes(p.deadline, 4)
  {
    DomainText();
    Head(p);
    var m, c, a := Encode(p), |p.contract|, |p.account|;
    AddressFields(m, 16, p.contract, LenPrefixed(p.account) + Tail(p));
    AddressFields(m, 20 + c, p.account, Tail(p));
    TailFields(p, m, 24 + c + a);
  }

  /** The first part of what follows a position, and what follows that part. */
  lemma {:induction false} Part(m: Bytes, at: nat, first: Bytes, rest: Bytes)
    requires at <= |m| && m[at..] == first + rest
    ensures |m| == at + |first| + |rest| && m[at..at + |first|] == first && m[at + |first|..] == rest
  {
    assert m[at..at + |first|] == m[at..][..|first|];
    assert m[at + |first|..] == m[at..][|first|..];
  }

  /** Every permit is recovered from its message. */
  lemma {:induction false} RoundTrip(p: Permit)
    ensures Decode(Encode(p)) == Some(p)
  {
    Head(p);
    TakeWritten(p.contract, LenPrefixed(p.account) + Tail(p));
    TakeWritten(p.account, Tail(p));
    TailRoundTrip(p);
  }

  /** A message is determined by its head and what follows it. */
  lemma {:induction false} SameMessage(m: Bytes, n: Bytes)
    requires 16 <= |m| && 16 <= |n| && m[..15] == n[..15] && m[15] == n[15] && m[16..] == n[16..]
    ensures m == n
  {
    assert m == m[..15] + [m[15]] + m[16..];
    assert n == n[..15] + [n[15]] + n[16..];
  }

  /** Every message the decoder accepts is the encoding of what it returns. */
  lemma {:induction false} Canonical(m: Bytes)
    requires Decode(m).Some?
    ensures Encode(Decode(m).value) == m
  {
    TakenWasWritten(m[16..]);
    var (contract, rest) := TakeLenPrefixed(m[16..]).value;
    TakenWasWritten(rest);
    var (account, tail) := TakeLenPrefixed(rest).value;
    TailCanonical(contract, m[15], account, tail);
    Head(Decode(m).value);
    SameMessage(Encode(Decode(m).value), m);
  }

  /** Two permits share a message only if they agree on every field. */
  lemma {:induction false} Injective(p: Permit, q: Permit)
    requires Encode(p) == Encode(q)
    ensures p == q
  {
    RoundTrip(p);
    RoundTrip(q);
  }
}
