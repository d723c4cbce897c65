/**
  The check of an ML-KEM-1024 encapsulation key, against the modulus check of FIPS 203
  (section 7.2) written with that standard's own conversions.
*/
module Kem {
  import opened Results
  import opened Numbers
  import opened Protocol

  const Q: nat := 3329

  // ---------------------------------------------------------------- Bits and values

  /** The k low bits, the least significant first. */
  function Bits(n: nat, k: nat): (b: seq<bool>)
    ensures |b| == k
  {
    if k == 0 then [] else [n % 2 == 1] + Bits(n / 2, k - 1)
  }

  function Value(bits: seq<bool>): nat {
    if |bits| == 0 then 0 else (if bits[0] then 1 else 0) + 2 * Value(bits[1..])
  }

  lemma {:induction false} ValueOfBits(n: nat, k: nat)
    requires n < Pow2(k)
    ensures Value(Bits(n, k)) == n
    decreases k
  {
    if k > 0 {
      ValueOfBits(n / 2, k - 1);
      assert Bits(n, k)[1..] == Bits(n / 2, k - 1);
    }
  }

  lemma {:induction false} BitsOfValue(bits: seq<bool>)
    ensures Value(bits) < Pow2(|bits|) && Bits(Value(bits), |bits|) == bits
  {
    if |bits| > 0 {
      BitsOfValue(bits[1..]);
      assert Value(bits) % 2 == (if bits[0] then 1 else 0) && Value(bits) / 2 == Value(bits[1..]);
    }
  }

  lemma {:induction false} ValueJoins(a: seq<bool>, b: seq<bool>)
    ensures Value(a + b) == Value(a) + Pow2(|a|) * Value(b)
  {
    if |a| == 0 {
      assert a + b == b;
    } else {
      ValueJoins(a[1..], b);
      assert (a + b)[1..] == a[1..] + b;
      Doubling(Pow2(|a| - 1), Value(b));
    }
  }

  lemma Doubling(p: nat, v: nat)
    ensures 2 * (p * v) == (2 * p) * v
  {
  }

  lemma PowersOfTwo()
    ensures Pow2(4) == 16 && Pow2(8) == 256 && Pow2(12) == 4096
  {
    assert Pow2(2) == 4 && Pow2(3) == 8 && Pow2(5) == 32 && Pow2(6) == 64 && Pow2(7) == 128;
    assert Pow2(9) == 512 && Pow2(10) == 1024 && Pow2(11) == 2048;
  }

  // ---------------------------------------------------------------- Conversions of FIPS 203

  function ByteBits(b: Byte): (r: seq<bool>)
    ensures |r| == 8
  {
    Bits(b, 8)
  }

  function GroupBits(f: nat): (r: seq<bool>)
    ensures |r| == 12
  {
    Bits(f, 12)
  }

  function BytesToBits(b: seq<Byte>): (r: seq<bool>)
    ensures |r| == 8 * |b|
  {
    if |b| == 0 then [] else ByteBits(b[0]) + BytesToBits(b[1..])
  }

  function BitsToBytes(bits: seq<bool>): seq<nat> {
    if |bits| < 8 then [] else [Value(bits[..8])] + BitsToBytes(bits[8..])
  }

  /** Groups of twelve bits, each taken modulo q. */
  function DecodeBits(bits: seq<bool>): seq<nat> {
    if |bits| < 12 then [] else [Value(bits[..12]) % Q] + DecodeBits(bits[12..])
  }

  function EncodeBits(f: seq<nat>): seq<bool> {
    if |f| == 0 then [] else GroupBits(f[0]) + EncodeBits(f[1..])
  }

  /** ByteDecode with d = 12, and ByteEncode with d = 12. */
  function ByteDecode12(b: seq<Byte>): seq<nat> {
    DecodeBits(BytesToBits(b))
  }

  function ByteEncode12(f: seq<nat>): seq<nat> {
    BitsToBytes(EncodeBits(f))
  }

  lemma ByteBitsOfValue(b: Byte)
    ensures Value(ByteBits(b)) == b
  {
    PowersOfTwo();
    ValueOfBits(b, 8);
  }

  lemma GroupBitsOfValue(f: nat)
    requires f < 4096
    ensures Value(GroupBits(f)) == f
  {
    PowersOfTwo();
    ValueOfBits(f, 12);
  }

  lemma ValueOfGroup(head: seq<bool>)
    requires |head| == 12
    ensures Value(head) < 4096 && GroupBits(Value(head)) == head
  {
    PowersOfTwo();
    BitsOfValue(head);
  }

  // ---------------------------------------------------------------- Groups of twelve bits

  /** Every group stands for a number below q. */
  predicate Reduced(bits: seq<bool>) {
    |bits| < 12 || (Value(bits[..12]) < Q && Reduced(bits[12..]))
  }

  lemma FirstGroup(bits: seq<bool>)
    requires |bits| >= 12
    ensures DecodeBits(bits) == [Value(bits[..12]) % Q] + DecodeBits(bits[12..])
    ensures Reduced(bits) <==> Value(bits[..12]) < Q && Reduced(bits[12..])
  {
    hide Value;
  }

  lemma FirstCoefficient(f: nat, rest: seq<nat>)
    ensures EncodeBits([f] + rest) == GroupBits(f) + EncodeBits(rest)
  {
    hide GroupBits;
    assert ([f] + rest)[1..] == rest;
  }

  /** Twelve bits come back from the reduction exactly when their value was below q. */
  lemma GroupSurvives(head: seq<bool>)
    requires |head| == 12
    ensures GroupBits(Value(head) % Q) == head <==> Value(head) < Q
  {
    hide Value, GroupBits;
    ValueOfGroup(head);
    GroupBitsOfValue(Value(head) % Q);
  }

  lemma SplitEquals(head: seq<bool>, rest: seq<bool>, bits: seq<bool>)
    requires |head| == 12 && |bits| >= 12
    ensures head + rest == bits <==> head == bits[..12] && rest == bits[12..]
  {
    assert (head + rest)[..12] == head && (head + rest)[12..] == rest;
    assert bits == bits[..12] + bits[12..];
  }

  /** Encoding undoes decoding exactly when no group was changed by the reduction. */
  lemma {:induction false} ReencodedExactlyWhenReduced(bits: seq<bool>)
    requires |bits| % 12 == 0
    ensures |EncodeBits(DecodeBits(bits))| == |bits|
    ensures EncodeBits(DecodeBits(bits)) == bits <==> Reduced(bits)
    decreases |bits|
  {
    hide Value, GroupBits;
    if |bits| >= 12 {
      var head, rest := bits[..12], bits[12..];
      FirstGroup(bits);
      FirstCoefficient(Value(head) % Q, DecodeBits(rest));
      hide DecodeBits, EncodeBits, Reduced;
      ReencodedExactlyWhenReduced(rest);
      GroupSurvives(head);
      SplitEquals(GroupBits(Value(head) % Q), EncodeBits(DecodeBits(rest)), bits);
    }
  }

  // ---------------------------------------------------------------- Bytes

  lemma {:induction false} BytesOfBits(b: seq<Byte>)
    ensures BitsToBytes(BytesToBits(b)) == b
  {
    hide Value, ByteBits;
    if |b| > 0 {
      BytesOfBits(b[1..]);
      ByteBitsOfValue(b[0]);
      var bits := BytesToBits(b);
      assert bits[..8] == ByteBits(b[0]) && bits[8..] == BytesToBits(b[1..]);
    }
  }

  lemma SameByte(a: seq<bool>, b: seq<bool>)
    requires |a| == 8 && |b| == 8 && Value(a) == Value(b)
    ensures a == b
  {
    BitsOfValue(a);
    BitsOfValue(b);
    hide Bits, Value;
  }

  lemma {:induction false} BitsToBytesInjective(a: seq<bool>, b: seq<bool>)
    requires |a| == |b| && |a| % 8 == 0 && BitsToBytes(a) == BitsToBytes(b)
    ensures a == b
    decreases |a|
  {
    hide Value;
    if |a| >= 8 {
      assert BitsToBytes(a)[0] == Value(a[..8]) && BitsToBytes(b)[0] == Value(b[..8]);
      assert BitsToBytes(a)[1..] == BitsToBytes(a[8..]) && BitsToBytes(b)[1..] == BitsToBytes(b[8..]);
      SameByte(a[..8], b[..8]);
      BitsToBytesInjective(a[8..], b[8..]);
      assert a == a[..8] + a[8..] && b == b[..8] + b[8..];
    }
  }

  /** The key's bytes survive decoding and encoding exactly when every coefficient is below q. */
  lemma SurvivesExactlyWhenReduced(b: seq<Byte>)
    requires |b| % 3 == 0
    ensures ByteEncode12(ByteDecode12(b)) == b <==> Reduced(BytesToBits(b))
  {
    hide Reduced, DecodeBits, EncodeBits, BitsToBytes, BytesToBits;
    var bits := BytesToBits(b);
    ReencodedExactlyWhenReduced(bits);
    BytesOfBits(b);
    if ByteEncode12(ByteDecode12(b)) == b {
      BitsToBytesInjective(EncodeBits(DecodeBits(bits)), bits);
    }
  }

  // ---------------------------------------------------------------- Three bytes at a time

  /** The low and the high half of a byte. */
  lemma Halves(b: Byte)
    ensures Value(ByteBits(b)[..4]) == b % 16 && Value(ByteBits(b)[4..]) == b / 16
  {
    hide ByteBits, Bits, Value;
    var low, high := ByteBits(b)[..4], ByteBits(b)[4..];
    ByteBitsOfValue(b);
    BitsOfValue(low);
    PowersOfTwo();
    ValueJoins(low, high);
    assert low + high == ByteBits(b);
    assert b == Value(low) + 16 * Value(high) && Value(low) < 16;
  }

  function First(b0: int, b1: int): int {
    b0 + 256 * (b1 % 16)
  }

  function Second(b1: int, b2: int): int {
    b1 / 16 + 16 * b2
  }

  /** Three bytes are two groups of twelve bits. */
  lemma TwoGroups(b0: Byte, b1: Byte, b2: Byte)
    ensures var bits := ByteBits(b0) + (ByteBits(b1) + ByteBits(b2));
            |bits| == 24 && Value(bits[..12]) == First(b0, b1) && Value(bits[12..]) == Second(b1, b2)
  {
    hide ByteBits, Value;
    var x, y, z := ByteBits(b0), ByteBits(b1), ByteBits(b2);
    var bits := x + (y + z);
    assert bits[..12] == x + y[..4];
    assert bits[12..] == y[4..] + z;
    PowersOfTwo();
    ByteBitsOfValue(b0);
    ByteBitsOfValue(b2);
    Halves(b1);
    ValueJoins(x, y[..4]);
    ValueJoins(y[4..], z);
  }

  predicate ChunkOk(b: seq<Byte>, k: nat)
    requires 3 * k + 3 <= |b|
  {
    First(b[3 * k], b[3 * k + 1]) < Q && Second(b[3 * k + 1], b[3 * k + 2]) < Q
  }

  lemma FirstByte(b: seq<Byte>)
    requires |b| >= 1
    ensures BytesToBits(b) == ByteBits(b[0]) + BytesToBits(b[1..])
  {
    hide ByteBits;
  }

  lemma ThreeBytes(b: seq<Byte>)
    requires |b| >= 3
    ensures BytesToBits(b) == (ByteBits(b[0]) + (ByteBits(b[1]) + ByteBits(b[2]))) + BytesToBits(b[3..])
  {
    hide BytesToBits, ByteBits;
    FirstByte(b);
    FirstByte(b[1..]);
    FirstByte(b[2..]);
    assert b[1..][1..] == b[2..] && b[2..][1..] == b[3..];
    Regroup(ByteBits(b[0]), ByteBits(b[1]), ByteBits(b[2]), BytesToBits(b[3..]));
  }

  lemma Regroup(x: seq<bool>, y: seq<bool>, z: seq<bool>, rest: seq<bool>)
    ensures x + (y + (z + rest)) == (x + (y + z)) + rest
  {
  }

  lemma FirstChunk(b: seq<Byte>)
    requires |b| >= 3
    ensures Reduced(BytesToBits(b)) <==> ChunkOk(b, 0) && Reduced(BytesToBits(b[3..]))
  {
    hide Reduced, BytesToBits, ByteBits, Value, DecodeBits;
    var rest := BytesToBits(b[3..]);
    var head := ByteBits(b[0]) + (ByteBits(b[1]) + ByteBits(b[2]));
    ThreeBytes(b);
    TwoGroups(b[0], b[1], b[2]);
    var bits := head + rest;
    assert bits[..12] == head[..12];
    assert bits[12..] == head[12..] + rest;
    assert bits[12..][..12] == head[12..];
    assert bits[12..][12..] == rest;
    FirstGroup(bits);
    FirstGroup(bits[12..]);
  }

  lemma {:induction false} ReducedByChunks(b: seq<Byte>)
    requires |b| % 3 == 0
    ensures Reduced(BytesToBits(b)) <==> forall k :: 0 <= k < |b| / 3 ==> ChunkOk(b, k)
    decreases |b|
  {
    hide ByteBits, Value, First, Second;
    if |b| > 0 {
      var rest := b[3..];
      ReducedByChunks(rest);
      FirstChunk(b);
      hide Reduced, BytesToBits;
      forall k | 0 <= k < |rest| / 3
        ensures ChunkOk(rest, k) == ChunkOk(b, k + 1)
      {
      }
      if Reduced(BytesToBits(b)) {
        forall k | 0 <= k < |b| / 3
          ensures ChunkOk(b, k)
        {
          if k > 0 { assert ChunkOk(rest, k - 1); }
        }
      }
    }
  }

  // ---------------------------------------------------------------- The check as it runs

  /**
    Scans the packed coefficients three bytes at a time and stops at the first that is
    out of range: exactly the keys whose first 1536 bytes survive ByteEncode12 of
    ByteDecode12 pass.
  */
  method ValidateKem(key: B1568) returns (result: Checked<Unit>)
    ensures result.Ok? <==> ByteEncode12(ByteDecode12(key[..1536])) == key[..1536]
    ensures result.Err? ==> result.error == Invalid
  {
    hide Reduced, BytesToBits, ByteEncode12, ByteDecode12;
    var packed := key[..1536];
    SurvivesExactlyWhenReduced(packed);
    ReducedByChunks(packed);
    for i := 0 to 512
      invariant forall k :: 0 <= k < i ==> ChunkOk(packed, k)
    {
      var b0: int, b1: int, b2: int := packed[3 * i], packed[3 * i + 1], packed[3 * i + 2];
      if b0 + 256 * (b1 % 16) >= Q || b1 / 16 + 16 * b2 >= Q {
        assert !ChunkOk(packed, i);
        return Err(Invalid);
      }
    }
    return Ok(Unit);
  }
}
