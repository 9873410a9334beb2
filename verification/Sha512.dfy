/** SHA-512 as sections 4.1.3, 5.1.2, 5.3.5 and 6.4 of FIPS 180-4 define it. */
module Sha512Spec {
  import opened Prelude
  import opened Padding

  datatype Hash = Hash(a: bv64, b: bv64, c: bv64, d: bv64, e: bv64, f: bv64, g: bv64, h: bv64)

  /** Eight of the round constants. */
  function KRow(r: nat): (s: seq<bv64>)
    requires r < 10
    ensures |s| == 8
  {
    match r
    case 0 => [0x428a2f98d728ae22, 0x7137449123ef65cd, 0xb5c0fbcfec4d3b2f, 0xe9b5dba58189dbbc,
               0x3956c25bf348b538, 0x59f111f1b605d019, 0x923f82a4af194f9b, 0xab1c5ed5da6d8118]
    case 1 => [0xd807aa98a3030242, 0x12835b0145706fbe, 0x243185be4ee4b28c, 0x550c7dc3d5ffb4e2,
               0x72be5d74f27b896f, 0x80deb1fe3b1696b1, 0x9bdc06a725c71235, 0xc19bf174cf692694]
    case 2 => [0xe49b69c19ef14ad2, 0xefbe4786384f25e3, 0x0fc19dc68b8cd5b5, 0x240ca1cc77ac9c65,
               0x2de92c6f592b0275, 0x4a7484aa6ea6e483, 0x5cb0a9dcbd41fbd4, 0x76f988da831153b5]
    case 3 => [0x983e5152ee66dfab, 0xa831c66d2db43210, 0xb00327c898fb213f, 0xbf597fc7beef0ee4,
               0xc6e00bf33da88fc2, 0xd5a79147930aa725, 0x06ca6351e003826f, 0x142929670a0e6e70]
    case 4 => [0x27b70a8546d22ffc, 0x2e1b21385c26c926, 0x4d2c6dfc5ac42aed, 0x53380d139d95b3df,
               0x650a73548baf63de, 0x766a0abb3c77b2a8, 0x81c2c92e47edaee6, 0x92722c851482353b]
    case 5 => [0xa2bfe8a14cf10364, 0xa81a664bbc423001, 0xc24b8b70d0f89791, 0xc76c51a30654be30,
               0xd192e819d6ef5218, 0xd69906245565a910, 0xf40e35855771202a, 0x106aa07032bbd1b8]
    case 6 => [0x19a4c116b8d2d0c8, 0x1e376c085141ab53, 0x2748774cdf8eeb99, 0x34b0bcb5e19b48a8,
               0x391c0cb3c5c95a63, 0x4ed8aa4ae3418acb, 0x5b9cca4f7763e373, 0x682e6ff3d6b2b8a3]
    case 7 => [0x748f82ee5defb2fc, 0x78a5636f43172f60, 0x84c87814a1f0ab72, 0x8cc702081a6439ec,
               0x90befffa23631e28, 0xa4506cebde82bde9, 0xbef9a3f7b2c67915, 0xc67178f2e372532b]
    case 8 => [0xca273eceea26619c, 0xd186b8c721c0c207, 0xeada7dd6cde0eb1e, 0xf57d4f7fee6ed178,
               0x06f067aa72176fba, 0x0a637dc5a2c898a6, 0x113f9804bef90dae, 0x1b710b35131c471b]
    case 9 => [0x28db77f523047d84, 0x32caab7b40c72493, 0x3c9ebe0a15c9bebc, 0x431d67c49c100d4c,
               0x4cc5d4becb3e42b6, 0x597f299cfc657e2a, 0x5fcb6fab3ad6faec, 0x6c44198c4a475817]
  }

  function K(): (r: seq<bv64>)
    ensures |r| == 80
  {
    KRow(0) + KRow(1) + KRow(2) + KRow(3) + KRow(4) + KRow(5) + KRow(6) + KRow(7) + KRow(8) + KRow(9)
  }

  function Initial(): Hash {
    Hash(0x6a09e667f3bcc908, 0xbb67ae8584caa73b, 0x3c6ef372fe94f82b, 0xa54ff53a5f1d36f1, 0x510e527fade682d1,
         0x9b05688c2b3e6c1f, 0x1f83d9abfb41bd6b, 0x5be0cd19137e2179)
  }

  function RotR(x: bv64, n: nat): bv64
    requires n <= 64
  {
    (x >> n) | (x << (64 - n))
  }

  /** Addition modulo 2^64. */
  function Add(x: bv64, y: bv64): bv64 { x + y }

  function Ch(x: bv64, y: bv64, z: bv64): bv64 { (x & y) ^ (!x & z) }
  function Maj(x: bv64, y: bv64, z: bv64): bv64 { (x & y) ^ (x & z) ^ (y & z) }
  function BigSigma0(x: bv64): bv64 { RotR(x, 28) ^ RotR(x, 34) ^ RotR(x, 39) }
  function BigSigma1(x: bv64): bv64 { RotR(x, 14) ^ RotR(x, 18) ^ RotR(x, 41) }
  function SmallSigma0(x: bv64): bv64 { RotR(x, 1) ^ RotR(x, 8) ^ (x >> 7) }
  function SmallSigma1(x: bv64): bv64 { RotR(x, 19) ^ RotR(x, 61) ^ (x >> 6) }

  function Bits(b: Byte): bv64 { b as bv64 }
  function Append(word: bv64, byte: bv64): bv64 { (word << 8) | byte }

  /** A big-endian word. */
  function Join(bytes: Bytes): bv64 {
    if bytes == [] then 0 else Append(Join(bytes[..|bytes| - 1]), Bits(bytes[|bytes| - 1]))
  }

  /** The message schedule. */
  function W(block: Bytes, t: nat): bv64
    requires |block| == 128 && t < 80
  {
    if t < 16 then Join(block[8 * t..8 * t + 8])
    else Add(Add(Add(SmallSigma1(W(block, t - 2)), W(block, t - 7)), SmallSigma0(W(block, t - 15))), W(block, t - 16))
  }

  function Round(v: Hash, k: bv64, w: bv64): Hash {
    var t1 := Add(Add(Add(Add(v.h, BigSigma1(v.e)), Ch(v.e, v.f, v.g)), k), w);
    var t2 := Add(BigSigma0(v.a), Maj(v.a, v.b, v.c));
    Hash(Add(t1, t2), v.a, v.b, v.c, Add(v.d, t1), v.e, v.f, v.g)
  }

  function Rounds(v: Hash, block: Bytes, t: nat): Hash
    requires |block| == 128 && t <= 80
  {
    if t == 0 then v else Round(Rounds(v, block, t - 1), K()[t - 1], W(block, t - 1))
  }

  function Plus(x: Hash, y: Hash): Hash {
    Hash(Add(x.a, y.a), Add(x.b, y.b), Add(x.c, y.c), Add(x.d, y.d), Add(x.e, y.e), Add(x.f, y.f), Add(x.g, y.g),
         Add(x.h, y.h))
  }

  function Compress(v: Hash, block: Bytes): Hash
    requires |block| == 128
  {
    Plus(Rounds(v, block, |K()|), v)
  }

  /** Block after block. */
  function Fold(v: Hash, m: Bytes): Hash
    requires |m| % 128 == 0
    decreases |m|
  {
    if m == [] then v else Compress(Fold(v, m[..|m| - 128]), m[|m| - 128..])
  }

  function Length(bits: nat): (r: Bytes)
    ensures |r| == 16
  {
    BigEndian(bits, 16)
  }

  /** The digest with a given bit count in the length field. */
  function DigestAs(m: Bytes, bits: nat): Hash {
    PaddedIsWhole(m, bits);
    Fold(Initial(), m + Pad(|m|, 128, Length(bits)))
  }

  lemma PaddedIsWhole(m: Bytes, bits: nat)
    ensures |m + Pad(|m|, 128, Length(bits))| % 128 == 0
  {
    hide Length, ZeroCount;
    ZeroCountIsLeast(|m|, 128, 16, 0);
  }

  /** SHA-512 of a message below 2^128 bits. */
  function Digest(m: Bytes): Hash
    requires 8 * |m| < QUAD
  {
    DigestAs(m, 8 * |m|)
  }

  lemma FoldStep(v: Hash, m: Bytes, block: Bytes)
    requires |m| % 128 == 0 && |block| == 128
    ensures |m + block| % 128 == 0 && Fold(v, m + block) == Compress(Fold(v, m), block)
  {
    hide Compress;
    assert (m + block)[..|m + block| - 128] == m && (m + block)[|m + block| - 128..] == block;
  }

  lemma JoinStep(bytes: Bytes, i: nat)
    requires i < |bytes|
    ensures Join(bytes[..i + 1]) == Append(Join(bytes[..i]), Bits(bytes[i]))
  {
    hide Append, Bits;
    assert bytes[..i + 1][..i] == bytes[..i];
  }

  lemma JoinNothing()
    ensures Join([]) == 0
  {
  }

  /** The source adds the schedule terms in another order. */
  lemma Reorder(a: bv64, b: bv64, c: bv64, d: bv64)
    ensures Add(Add(Add(a, b), c), d) == Add(Add(Add(d, c), b), a)
  {
    hide Add;
    AddIsAbelian(Add(a, b), c, d);
    AddIsAbelian(Add(d, c), b, a);
    AddIsAbelian(Add(a, b), Add(c, d), a);
  }

  lemma AddIsAbelian(a: bv64, b: bv64, c: bv64)
    ensures Add(Add(a, b), c) == Add(a, Add(b, c)) && Add(a, b) == Add(b, a) && Add(b, c) == Add(c, b)
  {
  }

  lemma PlusCommutes(x: Hash, y: Hash)
    ensures Plus(x, y) == Plus(y, x)
  {
  }
}
