/** Where the constants of SHA-2 come from, and what its bitwise functions do: sections 4.1, 4.2
    and 5.3 of FIPS 180-4. */
module RootFractions {

  /** The first eighty primes, eight at a time. */
  function PrimeRow(r: nat): (s: seq<nat>)
    requires r < 10
    ensures |s| == 8
  {
    match r
    case 0 => [2, 3, 5, 7, 11, 13, 17, 19]
    case 1 => [23, 29, 31, 37, 41, 43, 47, 53]
    case 2 => [59, 61, 67, 71, 73, 79, 83, 89]
    case 3 => [97, 101, 103, 107, 109, 113, 127, 131]
    case 4 => [137, 139, 149, 151, 157, 163, 167, 173]
    case 5 => [179, 181, 191, 193, 197, 199, 211, 223]
    case 6 => [227, 229, 233, 239, 241, 251, 257, 263]
    case 7 => [269, 271, 277, 281, 283, 293, 307, 311]
    case 8 => [313, 317, 331, 337, 347, 349, 353, 359]
    case 9 => [367, 373, 379, 383, 389, 397, 401, 409]
  }

  /** `fraction` is what the cube root of `n` has after the point, in units of 1 / `unit`, rounded down. */
  ghost predicate IsCubeRoot(n: nat, whole: nat, fraction: nat, unit: nat) {
    var x := whole * unit + fraction;
    fraction < unit && x * x * x <= n * unit * unit * unit < (x + 1) * (x + 1) * (x + 1)
  }

  ghost predicate IsSquareRoot(n: nat, whole: nat, fraction: nat, unit: nat) {
    var x := whole * unit + fraction;
    fraction < unit && x * x <= n * unit * unit < (x + 1) * (x + 1)
  }

  /** The whole part of the cube root of a number below 512. */
  function Whole(n: nat): nat {
    if n < 8 then 1 else if n < 27 then 2 else if n < 64 then 3 else if n < 125 then 4 else if n < 216 then 5
    else if n < 343 then 6 else 7
  }
}

module Sha256Constants {
  import opened RootFractions
  import opened Sha256Spec

  const UNIT := 0x1_0000_0000

  /** Constant `c` of row `r` is the fraction of the cube root of the prime in the same place. */
  ghost predicate Derived(r: nat, c: nat)
    requires r < 8 && c < 8
  {
    IsCubeRoot(PrimeRow(r)[c], Whole(PrimeRow(r)[c]), KRow(r)[c] as nat, UNIT)
  }

  lemma Row0(c: nat)
    requires c < 8
    ensures Derived(0, c)
  {
    assert IsCubeRoot(2, 1, 0x428a2f98, UNIT) && IsCubeRoot(3, 1, 0x71374491, UNIT)
        && IsCubeRoot(5, 1, 0xb5c0fbcf, UNIT) && IsCubeRoot(7, 1, 0xe9b5dba5, UNIT)
        && IsCubeRoot(11, 2, 0x3956c25b, UNIT) && IsCubeRoot(13, 2, 0x59f111f1, UNIT)
        && IsCubeRoot(17, 2, 0x923f82a4, UNIT) && IsCubeRoot(19, 2, 0xab1c5ed5, UNIT);
  }

  lemma Row1(c: nat)
    requires c < 8
    ensures Derived(1, c)
  {
    assert IsCubeRoot(23, 2, 0xd807aa98, UNIT) && IsCubeRoot(29, 3, 0x12835b01, UNIT)
        && IsCubeRoot(31, 3, 0x243185be, UNIT) && IsCubeRoot(37, 3, 0x550c7dc3, UNIT)
        && IsCubeRoot(41, 3, 0x72be5d74, UNIT) && IsCubeRoot(43, 3, 0x80deb1fe, UNIT)
        && IsCubeRoot(47, 3, 0x9bdc06a7, UNIT) && IsCubeRoot(53, 3, 0xc19bf174, UNIT);
  }

  lemma Row2(c: nat)
    requires c < 8
    ensures Derived(2, c)
  {
    assert IsCubeRoot(59, 3, 0xe49b69c1, UNIT) && IsCubeRoot(61, 3, 0xefbe4786, UNIT)
        && IsCubeRoot(67, 4, 0x0fc19dc6, UNIT) && IsCubeRoot(71, 4, 0x240ca1cc, UNIT)
        && IsCubeRoot(73, 4, 0x2de92c6f, UNIT) && IsCubeRoot(79, 4, 0x4a7484aa, UNIT)
        && IsCubeRoot(83, 4, 0x5cb0a9dc, UNIT) && IsCubeRoot(89, 4, 0x76f988da, UNIT);
  }

  lemma Row3(c: nat)
    requires c < 8
    ensures Derived(3, c)
  {
    assert IsCubeRoot(97, 4, 0x983e5152, UNIT) && IsCubeRoot(101, 4, 0xa831c66d, UNIT)
        && IsCubeRoot(103, 4, 0xb00327c8, UNIT) && IsCubeRoot(107, 4, 0xbf597fc7, UNIT)
        && IsCubeRoot(109, 4, 0xc6e00bf3, UNIT) && IsCubeRoot(113, 4, 0xd5a79147, UNIT)
        && IsCubeRoot(127, 5, 0x06ca6351, UNIT) && IsCubeRoot(131, 5, 0x14292967, UNIT);
  }

  lemma Row4(c: nat)
    requires c < 8
    ensures Derived(4, c)
  {
    assert IsCubeRoot(137, 5, 0x27b70a85, UNIT) && IsCubeRoot(139, 5, 0x2e1b2138, UNIT)
        && IsCubeRoot(149, 5, 0x4d2c6dfc, UNIT) && IsCubeRoot(151, 5, 0x53380d13, UNIT)
        && IsCubeRoot(157, 5, 0x650a7354, UNIT) && IsCubeRoot(163, 5, 0x766a0abb, UNIT)
        && IsCubeRoot(167, 5, 0x81c2c92e, UNIT) && IsCubeRoot(173, 5, 0x92722c85, UNIT);
  }

  lemma Row5(c: nat)
    requires c < 8
    ensures Derived(5, c)
  {
    assert IsCubeRoot(179, 5, 0xa2bfe8a1, UNIT) && IsCubeRoot(181, 5, 0xa81a664b, UNIT)
        && IsCubeRoot(191, 5, 0xc24b8b70, UNIT) && IsCubeRoot(193, 5, 0xc76c51a3, UNIT)
        && IsCubeRoot(197, 5, 0xd192e819, UNIT) && IsCubeRoot(199, 5, 0xd6990624, UNIT)
        && IsCubeRoot(211, 5, 0xf40e3585, UNIT) && IsCubeRoot(223, 6, 0x106aa070, UNIT);
  }

  lemma Row6(c: nat)
    requires c < 8
    ensures Derived(6, c)
  {
    assert IsCubeRoot(227, 6, 0x19a4c116, UNIT) && IsCubeRoot(229, 6, 0x1e376c08, UNIT)
        && IsCubeRoot(233, 6, 0x2748774c, UNIT) && IsCubeRoot(239, 6, 0x34b0bcb5, UNIT)
        && IsCubeRoot(241, 6, 0x391c0cb3, UNIT) && IsCubeRoot(251, 6, 0x4ed8aa4a, UNIT)
        && IsCubeRoot(257, 6, 0x5b9cca4f, UNIT) && IsCubeRoot(263, 6, 0x682e6ff3, UNIT);
  }

  lemma Row7(c: nat)
    requires c < 8
    ensures Derived(7, c)
  {
    assert IsCubeRoot(269, 6, 0x748f82ee, UNIT) && IsCubeRoot(271, 6, 0x78a5636f, UNIT)
        && IsCubeRoot(277, 6, 0x84c87814, UNIT) && IsCubeRoot(281, 6, 0x8cc70208, UNIT)
        && IsCubeRoot(283, 6, 0x90befffa, UNIT) && IsCubeRoot(293, 6, 0xa4506ceb, UNIT)
        && IsCubeRoot(307, 6, 0xbef9a3f7, UNIT) && IsCubeRoot(311, 6, 0xc67178f2, UNIT);
  }

  /** Every round constant is the leading 32 bits of the fraction of the cube root of its prime. */
  lemma RoundConstants(r: nat, c: nat)
    requires r < 8 && c < 8
    ensures IsCubeRoot(PrimeRow(r)[c], Whole(PrimeRow(r)[c]), K()[8 * r + c] as nat, UNIT)
  {
    hide KRow, PrimeRow, IsCubeRoot, Whole, K;
    InRow(r, c);
    EveryRow(r, c);
  }

  lemma InRow(r: nat, c: nat)
    requires r < 8 && c < 8
    ensures K()[8 * r + c] == KRow(r)[c]
  {
    hide KRow;
  }

  lemma EveryRow(r: nat, c: nat)
    requires r < 8 && c < 8
    ensures Derived(r, c)
  {
    hide Derived;
    if r == 0 { Row0(c); }
    else if r == 1 { Row1(c); }
    else if r == 2 { Row2(c); }
    else if r == 3 { Row3(c); }
    else if r == 4 { Row4(c); }
    else if r == 5 { Row5(c); }
    else if r == 6 { Row6(c); }
    else { Row7(c); }
  }

  /** The initial words are those of the square roots of the first eight primes. */
  lemma InitialWords()
    ensures IsSquareRoot(2, 1, Initial().a as nat, UNIT)
            && IsSquareRoot(3, 1, Initial().b as nat, UNIT)
            && IsSquareRoot(5, 2, Initial().c as nat, UNIT)
            && IsSquareRoot(7, 2, Initial().d as nat, UNIT)
            && IsSquareRoot(11, 3, Initial().e as nat, UNIT)
            && IsSquareRoot(13, 3, Initial().f as nat, UNIT)
            && IsSquareRoot(17, 4, Initial().g as nat, UNIT)
            && IsSquareRoot(19, 4, Initial().h as nat, UNIT)
  {
    assert IsSquareRoot(2, 1, 0x6a09e667, UNIT)
        && IsSquareRoot(3, 1, 0xbb67ae85, UNIT)
        && IsSquareRoot(5, 2, 0x3c6ef372, UNIT)
        && IsSquareRoot(7, 2, 0xa54ff53a, UNIT)
        && IsSquareRoot(11, 3, 0x510e527f, UNIT)
        && IsSquareRoot(13, 3, 0x9b05688c, UNIT)
        && IsSquareRoot(17, 4, 0x1f83d9ab, UNIT)
        && IsSquareRoot(19, 4, 0x5be0cd19, UNIT);
  }

  // ---- Bit by bit --------------------------------------------------------------------------------------------------

  /** On bits that are all set, or all clear, in its first argument, `Ch` is its second, or its third. */
  lemma Chooses(x: bv32, y: bv32, z: bv32, bits: bv32)
    ensures x & bits == bits ==> Ch(x, y, z) & bits == y & bits
    ensures x & bits == 0 ==> Ch(x, y, z) & bits == z & bits
  {
  }

  /** `Maj` works on each bit by itself, and is what two of its arguments agree on. */
  lemma TakesTheMajority(x: bv32, y: bv32)
    ensures Maj(x, x, y) == x && Maj(x, y, x) == x && Maj(y, x, x) == x
  {
  }

  lemma BitsApart(x: bv32, y: bv32, z: bv32, bits: bv32)
    ensures Maj(x, y, z) & bits == Maj(x & bits, y & bits, z & bits)
  {
  }
}

module Sha512Constants {
  import opened RootFractions
  import opened Sha512Spec

  const UNIT := 0x1_0000_0000_0000_0000

  /** Constant `c` of row `r` is the fraction of the cube root of the prime in the same place. */
  ghost predicate Derived(r: nat, c: nat)
    requires r < 10 && c < 8
  {
    IsCubeRoot(PrimeRow(r)[c], Whole(PrimeRow(r)[c]), KRow(r)[c] as nat, UNIT)
  }

  lemma Row0(c: nat)
    requires c < 8
    ensures Derived(0, c)
  {
    assert IsCubeRoot(2, 1, 0x428a2f98d728ae22, UNIT) && IsCubeRoot(3, 1, 0x7137449123ef65cd, UNIT)
        && IsCubeRoot(5, 1, 0xb5c0fbcfec4d3b2f, UNIT) && IsCubeRoot(7, 1, 0xe9b5dba58189dbbc, UNIT)
        && IsCubeRoot(11, 2, 0x3956c25bf348b538, UNIT) && IsCubeRoot(13, 2, 0x59f111f1b605d019, UNIT)
        && IsCubeRoot(17, 2, 0x923f82a4af194f9b, UNIT) && IsCubeRoot(19, 2, 0xab1c5ed5da6d8118, UNIT);
  }

  lemma Row1(c: nat)
    requires c < 8
    ensures Derived(1, c)
  {
    assert IsCubeRoot(23, 2, 0xd807aa98a3030242, UNIT) && IsCubeRoot(29, 3, 0x12835b0145706fbe, UNIT)
        && IsCubeRoot(31, 3, 0x243185be4ee4b28c, UNIT) && IsCubeRoot(37, 3, 0x550c7dc3d5ffb4e2, UNIT)
        && IsCubeRoot(41, 3, 0x72be5d74f27b896f, UNIT) && IsCubeRoot(43, 3, 0x80deb1fe3b1696b1, UNIT)
        && IsCubeRoot(47, 3, 0x9bdc06a725c71235, UNIT) && IsCubeRoot(53, 3, 0xc19bf174cf692694, UNIT);
  }

  lemma Row2(c: nat)
    requires c < 8
    ensures Derived(2, c)
  {
    assert IsCubeRoot(59, 3, 0xe49b69c19ef14ad2, UNIT) && IsCubeRoot(61, 3, 0xefbe4786384f25e3, UNIT)
        && IsCubeRoot(67, 4, 0x0fc19dc68b8cd5b5, UNIT) && IsCubeRoot(71, 4, 0x240ca1cc77ac9c65, UNIT)
        && IsCubeRoot(73, 4, 0x2de92c6f592b0275, UNIT) && IsCubeRoot(79, 4, 0x4a7484aa6ea6e483, UNIT)
        && IsCubeRoot(83, 4, 0x5cb0a9dcbd41fbd4, UNIT) && IsCubeRoot(89, 4, 0x76f988da831153b5, UNIT);
  }

  lemma Row3(c: nat)
    requires c < 8
    ensures Derived(3, c)
  {
    assert IsCubeRoot(97, 4, 0x983e5152ee66dfab, UNIT) && IsCubeRoot(101, 4, 0xa831c66d2db43210, UNIT)
        && IsCubeRoot(103, 4, 0xb00327c898fb213f, UNIT) && IsCubeRoot(107, 4, 0xbf597fc7beef0ee4, UNIT)
        && IsCubeRoot(109, 4, 0xc6e00bf33da88fc2, UNIT) && IsCubeRoot(113, 4, 0xd5a79147930aa725, UNIT)
        && IsCubeRoot(127, 5, 0x06ca6351e003826f, UNIT) && IsCubeRoot(131, 5, 0x142929670a0e6e70, UNIT);
  }

  lemma Row4(c: nat)
    requires c < 8
    ensures Derived(4, c)
  {
    assert IsCubeRoot(137, 5, 0x27b70a8546d22ffc, UNIT) && IsCubeRoot(139, 5, 0x2e1b21385c26c926, UNIT)
        && IsCubeRoot(149, 5, 0x4d2c6dfc5ac42aed, UNIT) && IsCubeRoot(151, 5, 0x53380d139d95b3df, UNIT)
        && IsCubeRoot(157, 5, 0x650a73548baf63de, UNIT) && IsCubeRoot(163, 5, 0x766a0abb3c77b2a8, UNIT)
        && IsCubeRoot(167, 5, 0x81c2c92e47edaee6, UNIT) && IsCubeRoot(173, 5, 0x92722c851482353b, UNIT);
  }

  lemma Row5(c: nat)
    requires c < 8
    ensures Derived(5, c)
  {
    assert IsCubeRoot(179, 5, 0xa2bfe8a14cf10364, UNIT) && IsCubeRoot(181, 5, 0xa81a664bbc423001, UNIT)
        && IsCubeRoot(191, 5, 0xc24b8b70d0f89791, UNIT) && IsCubeRoot(193, 5, 0xc76c51a30654be30, UNIT)
        && IsCubeRoot(197, 5, 0xd192e819d6ef5218, UNIT) && IsCubeRoot(199, 5, 0xd69906245565a910, UNIT)
        && IsCubeRoot(211, 5, 0xf40e35855771202a, UNIT) && IsCubeRoot(223, 6, 0x106aa07032bbd1b8, UNIT);
  }

  lemma Row6(c: nat)
    requires c < 8
    ensures Derived(6, c)
  {
    assert IsCubeRoot(227, 6, 0x19a4c116b8d2d0c8, UNIT) && IsCubeRoot(229, 6, 0x1e376c085141ab53, UNIT)
        && IsCubeRoot(233, 6, 0x2748774cdf8eeb99, UNIT) && IsCubeRoot(239, 6, 0x34b0bcb5e19b48a8, UNIT)
        && IsCubeRoot(241, 6, 0x391c0cb3c5c95a63, UNIT) && IsCubeRoot(251, 6, 0x4ed8aa4ae3418acb, UNIT)
        && IsCubeRoot(257, 6, 0x5b9cca4f7763e373, UNIT) && IsCubeRoot(263, 6, 0x682e6ff3d6b2b8a3, UNIT);
  }

  lemma Row7(c: nat)
    requires c < 8
    ensures Derived(7, c)
  {
    assert IsCubeRoot(269, 6, 0x748f82ee5defb2fc, UNIT) && IsCubeRoot(271, 6, 0x78a5636f43172f60, UNIT)
        && IsCubeRoot(277, 6, 0x84c87814a1f0ab72, UNIT) && IsCubeRoot(281, 6, 0x8cc702081a6439ec, UNIT)
        && IsCubeRoot(283, 6, 0x90befffa23631e28, UNIT) && IsCubeRoot(293, 6, 0xa4506cebde82bde9, UNIT)
        && IsCubeRoot(307, 6, 0xbef9a3f7b2c67915, UNIT) && IsCubeRoot(311, 6, 0xc67178f2e372532b, UNIT);
  }

  lemma Row8(c: nat)
    requires c < 8
    ensures Derived(8, c)
  {
    assert IsCubeRoot(313, 6, 0xca273eceea26619c, UNIT) && IsCubeRoot(317, 6, 0xd186b8c721c0c207, UNIT)
        && IsCubeRoot(331, 6, 0xeada7dd6cde0eb1e, UNIT) && IsCubeRoot(337, 6, 0xf57d4f7fee6ed178, UNIT)
        && IsCubeRoot(347, 7, 0x06f067aa72176fba, UNIT) && IsCubeRoot(349, 7, 0x0a637dc5a2c898a6, UNIT)
        && IsCubeRoot(353, 7, 0x113f9804bef90dae, UNIT) && IsCubeRoot(359, 7, 0x1b710b35131c471b, UNIT);
  }

  lemma Row9(c: nat)
    requires c < 8
    ensures Derived(9, c)
  {
    assert IsCubeRoot(367, 7, 0x28db77f523047d84, UNIT) && IsCubeRoot(373, 7, 0x32caab7b40c72493, UNIT)
        && IsCubeRoot(379, 7, 0x3c9ebe0a15c9bebc, UNIT) && IsCubeRoot(383, 7, 0x431d67c49c100d4c, UNIT)
        && IsCubeRoot(389, 7, 0x4cc5d4becb3e42b6, UNIT) && IsCubeRoot(397, 7, 0x597f299cfc657e2a, UNIT)
        && IsCubeRoot(401, 7, 0x5fcb6fab3ad6faec, UNIT) && IsCubeRoot(409, 7, 0x6c44198c4a475817, UNIT);
  }

  /** Every round constant is the leading 64 bits of the fraction of the cube root of its prime. */
  lemma RoundConstants(r: nat, c: nat)
    requires r < 10 && c < 8
    ensures IsCubeRoot(PrimeRow(r)[c], Whole(PrimeRow(r)[c]), K()[8 * r + c] as nat, UNIT)
  {
    hide KRow, PrimeRow, IsCubeRoot, Whole, K;
    InRow(r, c);
    EveryRow(r, c);
  }

  lemma InRow(r: nat, c: nat)
    requires r < 10 && c < 8
    ensures K()[8 * r + c] == KRow(r)[c]
  {
    hide KRow;
  }

  lemma EveryRow(r: nat, c: nat)
    requires r < 10 && c < 8
    ensures Derived(r, c)
  {
    hide Derived;
    if r == 0 { Row0(c); }
    else if r == 1 { Row1(c); }
    else if r == 2 { Row2(c); }
    else if r == 3 { Row3(c); }
    else if r == 4 { Row4(c); }
    else if r == 5 { Row5(c); }
    else if r == 6 { Row6(c); }
    else if r == 7 { Row7(c); }
    else if r == 8 { Row8(c); }
    else { Row9(c); }
  }

  /** The initial words are those of the square roots of the first eight primes. */
  lemma InitialWords()
    ensures IsSquareRoot(2, 1, Initial().a as nat, UNIT)
            && IsSquareRoot(3, 1, Initial().b as nat, UNIT)
            && IsSquareRoot(5, 2, Initial().c as nat, UNIT)
            && IsSquareRoot(7, 2, Initial().d as nat, UNIT)
            && IsSquareRoot(11, 3, Initial().e as nat, UNIT)
            && IsSquareRoot(13, 3, Initial().f as nat, UNIT)
            && IsSquareRoot(17, 4, Initial().g as nat, UNIT)
            && IsSquareRoot(19, 4, Initial().h as nat, UNIT)
  {
    assert IsSquareRoot(2, 1, 0x6a09e667f3bcc908, UNIT)
        && IsSquareRoot(3, 1, 0xbb67ae8584caa73b, UNIT)
        && IsSquareRoot(5, 2, 0x3c6ef372fe94f82b, UNIT)
        && IsSquareRoot(7, 2, 0xa54ff53a5f1d36f1, UNIT)
        && IsSquareRoot(11, 3, 0x510e527fade682d1, UNIT)
        && IsSquareRoot(13, 3, 0x9b05688c2b3e6c1f, UNIT)
        && IsSquareRoot(17, 4, 0x1f83d9abfb41bd6b, UNIT)
        && IsSquareRoot(19, 4, 0x5be0cd19137e2179, UNIT);
  }

  // ---- Bit by bit --------------------------------------------------------------------------------------------------

  /** On bits that are all set, or all clear, in its first argument, `Ch` is its second, or its third. */
  lemma Chooses(x: bv64, y: bv64, z: bv64, bits: bv64)
    ensures x & bits == bits ==> Ch(x, y, z) & bits == y & bits
    ensures x & bits == 0 ==> Ch(x, y, z) & bits == z & bits
  {
  }

  /** `Maj` works on each bit by itself, and is what two of its arguments agree on. */
  lemma TakesTheMajority(x: bv64, y: bv64)
    ensures Maj(x, x, y) == x && Maj(x, y, x) == x && Maj(y, x, x) == x
  {
  }

  lemma BitsApart(x: bv64, y: bv64, z: bv64, bits: bv64)
    ensures Maj(x, y, z) & bits == Maj(x & bits, y & bits, z & bits)
  {
  }
}
