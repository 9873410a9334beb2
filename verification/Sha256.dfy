/** SHA-256 as sections 4.1.2, 5.1.1, 5.3.3 and 6.2 of FIPS 180-4 define it. */
module Sha256Spec {
  import opened Prelude
  import opened Padding

  datatype Hash = Hash(a: bv32, b: bv32, c: bv32, d: bv32, e: bv32, f: bv32, g: bv32, h: bv32)

  /** Eight of the round constants. */
  function KRow(r: nat): (s: seq<bv32>)
    requires r < 8
    ensures |s| == 8
  {
    match r
    case 0 => [0x428a2f98, 0x71374491, 0xb5c0fbcf, 0xe9b5dba5, 0x3956c25b, 0x59f111f1, 0x923f82a4, 0xab1c5ed5]
    case 1 => [0xd807aa98, 0x12835b01, 0x243185be, 0x550c7dc3, 0x72be5d74, 0x80deb1fe, 0x9bdc06a7, 0xc19bf174]
    case 2 => [0xe49b69c1, 0xefbe4786, 0x0fc19dc6, 0x240ca1cc, 0x2de92c6f, 0x4a7484aa, 0x5cb0a9dc, 0x76f988da]
    case 3 => [0x983e5152, 0xa831c66d, 0xb00327c8, 0xbf597fc7, 0xc6e00bf3, 0xd5a79147, 0x06ca6351, 0x14292967]
    case 4 => [0x27b70a85, 0x2e1b2138, 0x4d2c6dfc, 0x53380d13, 0x650a7354, 0x766a0abb, 0x81c2c92e, 0x92722c85]
    case 5 => [0xa2bfe8a1, 0xa81a664b, 0xc24b8b70, 0xc76c51a3, 0xd192e819, 0xd6990624, 0xf40e3585, 0x106aa070]
    case 6 => [0x19a4c116, 0x1e376c08, 0x2748774c, 0x34b0bcb5, 0x391c0cb3, 0x4ed8aa4a, 0x5b9cca4f, 0x682e6ff3]
    case 7 => [0x748f82ee, 0x78a5636f, 0x84c87814, 0x8cc70208, 0x90befffa, 0xa4506ceb, 0xbef9a3f7, 0xc67178f2]
  }

  function K(): (r: seq<bv32>)
    ensures |r| == 64
  {
    KRow(0) + KRow(1) + KRow(2) + KRow(3) + KRow(4) + KRow(5) + KRow(6) + KRow(7)
  }

  function Initial(): Hash {
    Hash(0x6a09e667, 0xbb67ae85, 0x3c6ef372, 0xa54ff53a, 0x510e527f, 0x9b05688c, 0x1f83d9ab, 0x5be0cd19)
  }

  function RotR(x: bv32, n: nat): bv32
    requires n <= 32
  {
    (x >> n) | (x << (32 - n))
  }

  /** Addition modulo 2^32. */
  function Add(x: bv32, y: bv32): bv32 { x + y }

  function Ch(x: bv32, y: bv32, z: bv32): bv32 { (x & y) ^ (!x & z) }
  function Maj(x: bv32, y: bv32, z: bv32): bv32 { (x & y) ^ (x & z) ^ (y & z) }
  function BigSigma0(x: bv32): bv32 { RotR(x, 2) ^ RotR(x, 13) ^ RotR(x, 22) }
  function BigSigma1(x: bv32): bv32 { RotR(x, 6) ^ RotR(x, 11) ^ RotR(x, 25) }
  function SmallSigma0(x: bv32): bv32 { RotR(x, 7) ^ RotR(x, 18) ^ (x >> 3) }
  function SmallSigma1(x: bv32): bv32 { RotR(x, 17) ^ RotR(x, 19) ^ (x >> 10) }

  function Bits(b: Byte): bv32 { b as bv32 }
  function Append(word: bv32, byte: bv32): bv32 { (word << 8) | byte }

  /** A big-endian word. */
  function Join(bytes: Bytes): bv32 {
    if bytes == [] then 0 else Append(Join(bytes[..|bytes| - 1]), Bits(bytes[|bytes| - 1]))
  }

  /** The message schedule. */
  function W(block: Bytes, t: nat): bv32
    requires |block| == 64 && t < 64
  {
    if t < 16 then Join(block[4 * t..4 * t + 4])
    else Add(Add(Add(SmallSigma1(W(block, t - 2)), W(block, t - 7)), SmallSigma0(W(block, t - 15))), W(block, t - 16))
  }

  function Round(v: Hash, k: bv32, w: bv32): Hash {
    var t1 := Add(Add(Add(Add(v.h, BigSigma1(v.e)), Ch(v.e, v.f, v.g)), k), w);
    var t2 := Add(BigSigma0(v.a), Maj(v.a, v.b, v.c));
    Hash(Add(t1, t2), v.a, v.b, v.c, Add(v.d, t1), v.e, v.f, v.g)
  }

  function Rounds(v: Hash, block: Bytes, t: nat): Hash
    requires |block| == 64 && t <= 64
  {
    if t == 0 then v else Round(Rounds(v, block, t - 1), K()[t - 1], W(block, t - 1))
  }

  function Plus(x: Hash, y: Hash): Hash {
    Hash(Add(x.a, y.a), Add(x.b, y.b), Add(x.c, y.c), Add(x.d, y.d), Add(x.e, y.e), Add(x.f, y.f), Add(x.g, y.g),
         Add(x.h, y.h))
  }

  function Compress(v: Hash, block: Bytes): Hash
    requires |block| == 64
  {
    Plus(Rounds(v, block, |K()|), v)
  }

  /** Block after block. */
  function Fold(v: Hash, m: Bytes): Hash
    requires |m| % 64 == 0
    decreases |m|
  {
    if m == [] then v else Compress(Fold(v, m[..|m| - 64]), m[|m| - 64..])
  }

  function Length(bits: nat): (r: Bytes)
    ensures |r| == 8
  {
    BigEndian(bits, 8)
  }

  /** The digest with a given bit count in the length field. */
  function DigestAs(m: Bytes, bits: nat): Hash {
    PaddedIsWhole(m, bits);
    Fold(Initial(), m + Pad(|m|, 64, Length(bits)))
  }

  lemma PaddedIsWhole(m: Bytes, bits: nat)
    ensures |m + Pad(|m|, 64, Length(bits))| % 64 == 0
  {
    hide Length, ZeroCount;
    ZeroCountIsLeast(|m|, 64, 8, 0);
  }

  /** SHA-256 of a message below 2^64 bits. */
  function Digest(m: Bytes): Hash
    requires 8 * |m| < WORD
  {
    DigestAs(m, 8 * |m|)
  }

  lemma FoldStep(v: Hash, m: Bytes, block: Bytes)
    requires |m| % 64 == 0 && |block| == 64
    ensures |m + block| % 64 == 0 && Fold(v, m + block) == Compress(Fold(v, m), block)
  {
    hide Compress;
    assert (m + block)[..|m + block| - 64] == m && (m + block)[|m + block| - 64..] == block;
  }

  lemma JoinStep(bytes: Bytes, i: nat)
    requires i < |bytes|
    ensures Join(bytes[..i + 1]) == Append(Join(bytes[..i]), Bits(bytes[i]))
  {
    hide Append, Bits;
    assert bytes[..i + 1][..i] == bytes[..i];
  }

  lemma FourBytes(b: Bytes)
    requires |b| == 4
    ensures Join(b) == Packed(Bits(b[0]), Bits(b[1]), Bits(b[2]), Bits(b[3]))
  {
    hide Append, Bits, Join, Packed;
    JoinStep(b, 0);
    JoinStep(b, 1);
    JoinStep(b, 2);
    JoinStep(b, 3);
    JoinNothing();
    assert b[..0] == [] && b[..4] == b;
    AppendIsPacked(Bits(b[0]), Bits(b[1]), Bits(b[2]), Bits(b[3]));
  }

  lemma JoinNothing()
    ensures Join([]) == 0
  {
  }

  /** The source's way to read a word. */
  function Packed(a: bv32, b: bv32, c: bv32, d: bv32): bv32 { (a << 24) | (b << 16) | (c << 8) | d }

  lemma AppendIsPacked(a: bv32, b: bv32, c: bv32, d: bv32)
    ensures Append(Append(Append(Append(0, a), b), c), d) == Packed(a, b, c, d)
  {
    hide Append, Packed;
    AppendFour(a, b, c, d);
    PackedRaw(a, b, c, d);
  }

  lemma PackedRaw(a: bv32, b: bv32, c: bv32, d: bv32)
    ensures Packed(a, b, c, d) == (a << 24) | (b << 16) | (c << 8) | d
  {
  }

  lemma AppendFour(a: bv32, b: bv32, c: bv32, d: bv32)
    ensures Append(Append(Append(Append(0, a), b), c), d) == (a << 24) | (b << 16) | (c << 8) | d
  {
  }

  /** The source adds the schedule terms in another order. */
  lemma Reorder(a: bv32, b: bv32, c: bv32, d: bv32)
    ensures Add(Add(Add(a, b), c), d) == Add(Add(Add(d, c), b), a)
  {
    hide Add;
    AddIsAbelian(Add(a, b), c, d);
    AddIsAbelian(Add(d, c), b, a);
    AddIsAbelian(Add(a, b), Add(c, d), a);
  }

  lemma AddIsAbelian(a: bv32, b: bv32, c: bv32)
    ensures Add(Add(a, b), c) == Add(a, Add(b, c)) && Add(a, b) == Add(b, a) && Add(b, c) == Add(c, b)
  {
  }

  lemma PlusCommutes(x: Hash, y: Hash)
    ensures Plus(x, y) == Plus(y, x)
  {
  }
}
