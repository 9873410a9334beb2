/** Big-endian lengths and the message padding of section 5.1 of FIPS 180-4. */
module Padding {
  import opened Prelude

  const WORD := 0x1_0000_0000_0000_0000
  const QUAD := 0x1_0000_0000_0000_0000_0000_0000_0000_0000

  function Pow256(k: nat): (r: nat)
    ensures r > 0
  {
    if k == 0 then 1 else 256 * Pow256(k - 1)
  }

  function ByteAt(n: nat, k: nat): Byte { ((n / Pow256(k)) % 256) as Byte }

  /** The low `count` bytes of `n`, most significant first. */
  function BigEndian(n: nat, count: nat): (r: Bytes)
    ensures |r| == count
  {
    if count == 0 then [] else [ByteAt(n, count - 1)] + BigEndian(n, count - 1)
  }

  lemma {:induction false} BigEndianAt(n: nat, count: nat, i: nat)
    requires i < count
    ensures BigEndian(n, count)[i] == ByteAt(n, count - 1 - i)
  {
    hide ByteAt;
    if i > 0 { BigEndianAt(n, count - 1, i - 1); }
  }

  function Value(b: Bytes): nat {
    if b == [] then 0 else b[0] as nat * Pow256(|b| - 1) + Value(b[1..])
  }

  lemma DivMod(n: nat, d: nat)
    requires d > 0
    ensures n / d % 256 * d + n % d == n % (256 * d)
  {
    Compose(n / d / 256, n / d % 256, 256, n % d, d);
    ModUnique(n, 256 * d, n / d / 256, n / d % 256 * d + n % d);
  }

  /** Two-digit numbers: `a`, `b < m`, `r < d` as digits of radix `m` over `d`. */
  lemma Compose(a: nat, b: nat, m: nat, r: nat, d: nat)
    requires b < m && r < d
    ensures (a * m + b) * d + r == a * (m * d) + (b * d + r)
    ensures b * d + r < m * d
  {
    assert (a * m + b) * d == (a * m) * d + b * d == a * (m * d) + b * d;
    AtLeast(m - b, d);
    assert (m - b) * d == m * d - b * d;
  }

  lemma ModUnique(n: nat, m: nat, q: nat, r: nat)
    requires n == q * m + r && r < m
    ensures n % m == r && n / m == q
  {
    QuotientUnique(m, n / m, n % m, q, r);
  }

  lemma ModPlus(x: nat, y: nat, m: nat)
    requires m > 0
    ensures (x % m + y) % m == (x + y) % m
  {
    var q, z := x / m, x % m + y;
    assert (q + z / m) * m == q * m + (z / m) * m;
    ModUnique(x + y, m, q + z / m, z % m);
  }

  lemma QuotientUnique(m: nat, q: nat, r: nat, q': nat, r': nat)
    requires q * m + r == q' * m + r' && r < m && r' < m
    ensures q == q' && r == r'
  {
    assert (q' - q) * m == q' * m - q * m && (q - q') * m == q * m - q' * m;
    if q < q' { AtLeast(q' - q, m); }
    if q' < q { AtLeast(q - q', m); }
  }

  lemma AtLeast(k: nat, m: nat)
    requires k >= 1
    ensures k * m >= m
  {
    assert k * m == (k - 1) * m + m;
  }

  /** The bytes spell the number, modulo what fits. */
  lemma {:induction false} BigEndianValue(n: nat, count: nat)
    ensures Value(BigEndian(n, count)) == n % Pow256(count)
  {
    if count > 0 {
      BigEndianValue(n, count - 1);
      DivMod(n, Pow256(count - 1));
      assert BigEndian(n, count)[1..] == BigEndian(n, count - 1);
    }
  }

  /** The least number of zero bytes that completes a block. */
  function ZeroCount(n: nat, block: nat, lengthBytes: nat): nat
    requires block > 0
  {
    var r := (n + 1 + lengthBytes) % block;
    if r == 0 then 0 else block - r
  }

  /** A one bit, zeros and the length. */
  function Pad(n: nat, block: nat, lengthField: Bytes): Bytes
    requires block > 0
  {
    [0x80] + Zeros(ZeroCount(n, block, |lengthField|)) + lengthField
  }

  /** Only the least count below a block fills the block exactly. */
  lemma ZeroCountIsLeast(n: nat, block: nat, lengthBytes: nat, k: nat)
    requires block > 0
    ensures ZeroCount(n, block, lengthBytes) < block
    ensures (n + 1 + ZeroCount(n, block, lengthBytes) + lengthBytes) % block == 0
    ensures k < block && (n + 1 + k + lengthBytes) % block == 0 ==> k == ZeroCount(n, block, lengthBytes)
  {
    var x := n + 1 + lengthBytes;
    var z := ZeroCount(n, block, lengthBytes);
    var q, r := x / block, x % block;
    assert x == q * block + r;
    Reduce(x, block, q, r, z);
    if k < block { Reduce(x, block, q, r, k); }
  }

  lemma Reduce(x: nat, block: nat, q: nat, r: nat, k: nat)
    requires x == q * block + r && r < block && k < block
    ensures (x + k) % block == if r + k < block then r + k else r + k - block
  {
    if r + k < block {
      ModUnique(x + k, block, q, r + k);
    } else {
      assert (q + 1) * block == q * block + block;
      ModUnique(x + k, block, q + 1, r + k - block);
    }
  }

  // ---- The one-word bit counter of SHA-256 -----------------------------------------------------------------

  /** The counter after `n` more bytes, and when the checked hasher lets it grow. */
  lemma CountBits(total: nat, n: nat)
    ensures (8 * total % WORD + n * 8 % WORD) % WORD == 8 * (total + n) % WORD
    ensures 8 * total < WORD ==> (n > (WORD - 1 - 8 * total % WORD) / 8 <==> 8 * (total + n) >= WORD)
  {
  }

  // ---- The two-word bit counter of SHA-512 -----------------------------------------------------------------

  /** `low` and `high` after adding the bits of `n` more bytes. */
  function Count(high: nat, low: nat, n: nat): (nat, nat) {
    var low' := (low + (n * 8) % WORD) % WORD;
    ((high + n / 0x2000_0000_0000_0000 + (if low' < low then 1 else 0)) % WORD, low')
  }

  /** The pair counts bits modulo 2^128. */
  lemma CountIsExact(high: nat, low: nat, n: nat)
    requires high < WORD && low < WORD && n < WORD
    ensures var (high', low') := Count(high, low, n);
            && high' < WORD && low' < WORD
            && high' * WORD + low' == (high * WORD + low + 8 * n) % QUAD
  {
    var (high', low') := Count(high, low, n);
    var h := high + n / 0x2000_0000_0000_0000 + if low' < low then 1 else 0;
    assert high * WORD + low + 8 * n == h * WORD + low';
    assert WORD * WORD == QUAD;
    Compose(h / WORD, h % WORD, WORD, low', WORD);
    ModUnique(h * WORD + low', QUAD, h / WORD, h % WORD * WORD + low');
  }

  ghost predicate Joins(n: nat, high: nat, low: nat) { n == high * WORD + low && low < WORD }

  /** The low `w` = 8 bytes of the pair come from `low`, the others from `high`. */
  lemma {:induction false} BigEndianSplit(n: nat, high: nat, low: nat, count: nat, w: nat)
    requires Joins(n, high, low) && w == 8
    ensures BigEndian(n, w + count) == BigEndian(high, count) + BigEndian(low, w)
  {
    hide ByteAt, Joins;
    if count == 0 {
      LowBytes(n, high, low, w);
    } else {
      BigEndianSplit(n, high, low, count - 1, w);
      TopByte(n, high, low, count);
    }
  }

  lemma TopByte(n: nat, high: nat, low: nat, count: nat)
    requires count > 0 && Joins(n, high, low)
    ensures ByteAt(n, 8 + count - 1) == ByteAt(high, count - 1)
  {
    var p := Pow256(count - 1);
    PowWord();
    PowSum(8, count - 1);
    DivTwice(high, low, p);
  }

  lemma PowWord()
    ensures Pow256(8) == WORD
  {
    assert Pow256(8) == 256 * (256 * (256 * (256 * (256 * (256 * (256 * (256 * Pow256(0))))))));
  }

  lemma {:induction false} PowSum(a: nat, b: nat)
    ensures Pow256(a + b) == Pow256(a) * Pow256(b)
  {
    if b > 0 { PowSum(a, b - 1); assert Pow256(a + b) == 256 * Pow256(a + (b - 1)); }
  }

  lemma DivTwice(high: nat, low: nat, p: nat)
    requires low < WORD && p > 0
    ensures (high * WORD + low) / (WORD * p) == high / p
  {
    Compose(high / p, high % p, p, low, WORD);
    assert p * WORD == WORD * p;
    ModUnique(high * WORD + low, WORD * p, high / p, high % p * WORD + low);
  }

  /** Whole words above do not touch the low bytes. */
  lemma {:induction false} LowBytes(n: nat, high: nat, low: nat, count: nat)
    requires count <= 8 && Joins(n, high, low)
    ensures BigEndian(n, count) == BigEndian(low, count)
  {
    if count > 0 {
      LowBytes(n, high, low, count - 1);
      var d, e := Pow256(count - 1), Pow256(8 - count);
      assert high * WORD == (256 * (high * e)) * d by {
        PowSum(count - 1, 8 - (count - 1));
        PowWord();
        Regroup(high, d, e);
      }
      LowByte(high * e, low, d);
    }
  }

  lemma LowByte(k: nat, low: nat, d: nat)
    requires d > 0
    ensures ((256 * k) * d + low) / d % 256 == low / d % 256
  {
    var q, r := low / d, low % d;
    var p := 256 * k;
    assert (p + q) * d == p * d + q * d;
    ModUnique(p * d + low, d, p + q, r);
  }

  lemma Regroup(high: nat, d: nat, e: nat)
    ensures high * (d * (256 * e)) == (256 * (high * e)) * d
  {
    assert (256 * (high * e)) * d == (high * (256 * e)) * d == high * ((256 * e) * d);
  }
}
