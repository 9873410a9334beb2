/** The streaming SHA-512 class, whose bit count is a pair of words. */
module Sha512Object {
  import opened Prelude
  import opened Padding
  import opened Sha512Spec

  datatype Outcome = Done | LogicError

  /** `Transform`: the schedule and the rounds of one block. */
  method Transform(state: Hash, block: array<Byte>) returns (r: Hash)
    requires block.Length == 128
    ensures r == Compress(state, block[..])
  {
    hide Plus, Join, SmallSigma0, SmallSigma1, K, Round, W;
    var words := Expand(block);
    ghost var m := block[..];
    var v := state;
    var k := K();
    for i := 0 to 80
      invariant block[..] == m && words.Length == 80 && forall t :: 0 <= t < 80 ==> words[t] == W(m, t)
      invariant v == Rounds(state, m, i)
    {
      v := Step(v, k[i], words[i]);
    }
    PlusCommutes(state, v);
    r := Plus(state, v);
  }

  method Expand(block: array<Byte>) returns (words: array<bv64>)
    requires block.Length == 128
    ensures fresh(words) && words.Length == 80 && forall t :: 0 <= t < 80 ==> words[t] == W(block[..], t)
  {
    hide W, SmallSigma0, SmallSigma1, Add;
    words := new bv64[80];
    ghost var m := block[..];
    for i := 0 to 16
      invariant block[..] == m && forall t :: 0 <= t < i ==> words[t] == W(m, t)
    {
      var word := ReadWord(block, i);
      words[i] := word;
    }
    for i := 16 to 80
      invariant block[..] == m && forall t :: 0 <= t < i ==> words[t] == W(m, t)
    {
      LaterWord(m, i);
      var s0, s1 := SmallSigma0(words[i - 15]), SmallSigma1(words[i - 2]);
      words[i] := Add(Add(Add(words[i - 16], s0), words[i - 7]), s1);
    }
  }

  method ReadWord(block: array<Byte>, i: nat) returns (word: bv64)
    requires block.Length == 128 && i < 16
    ensures word == W(block[..], i)
  {
    hide Append, Join, Bits;
    ghost var bytes := block[8 * i..8 * i + 8];
    JoinNothing();
    word := 0;
    assert bytes[..0] == [];
    for j := 0 to 8
      invariant word == Join(bytes[..j])
    {
      JoinStep(bytes, j);
      word := Append(word, Bits(block[i * 8 + j]));
    }
    assert bytes[..8] == bytes == block[..][8 * i..8 * i + 8];
  }

  lemma LaterWord(m: Bytes, i: nat)
    requires |m| == 128 && 16 <= i < 80
    ensures W(m, i) == Add(Add(Add(W(m, i - 16), SmallSigma0(W(m, i - 15))), W(m, i - 7)), SmallSigma1(W(m, i - 2)))
  {
    hide Join, SmallSigma0, SmallSigma1, Add;
    Reorder(SmallSigma1(W(m, i - 2)), W(m, i - 7), SmallSigma0(W(m, i - 15)), W(m, i - 16));
  }

  /** One round, register by register. */
  method Step(v: Hash, k: bv64, w: bv64) returns (r: Hash)
    ensures r == Round(v, k, w)
  {
    hide BigSigma0, BigSigma1, Ch, Maj, Add;
    var Hash(a, b, c, d, e, f, g, h) := v;
    var temp1 := Add(Add(Add(Add(h, BigSigma1(e)), Ch(e, f, g)), k), w);
    var temp2 := Add(BigSigma0(a), Maj(a, b, c));
    h := g;
    g := f;
    f := e;
    e := Add(d, temp1);
    d := c;
    c := b;
    b := a;
    a := Add(temp1, temp2);
    r := Hash(a, b, c, d, e, f, g, h);
  }

  class Sha512Hasher {
    const buffer: array<Byte>
    var state: Hash
    var size: nat
    var low: nat
    var high: nat
    var finished: bool
    ghost var message: Bytes

    /** The blocks of `absorbed` are in `state`, its rest is in the buffer. */
    ghost predicate Holds(absorbed: Bytes)
      reads this`state, this`size, buffer
    {
      && buffer.Length == 128 && size <= 128 && size <= |absorbed| && (|absorbed| - size) % 128 == 0
      && state == Fold(Initial(), absorbed[..|absorbed| - size])
      && buffer[..size] == absorbed[|absorbed| - size..]
    }

    ghost predicate Valid()
      reads this, buffer
    {
      && buffer.Length == 128
      && (!finished ==> Holds(message) && size < 128 && Counts(high, low, |message|))
    }

    constructor ()
      ensures Valid() && fresh(buffer) && !finished && message == []
    {
      buffer := new Byte[128];
      state, size, low, high, finished, message := Initial(), 0, 0, 0, false, [];
    }

    method Put(b: Byte, ghost absorbed: Bytes)
      requires Holds(absorbed) && size < 128
      modifies this`size, buffer
      ensures Holds(absorbed + [b]) && size == old(size) + 1
    {
      hide Fold;
      buffer[size] := b;
      size := size + 1;
      ghost var more := absorbed + [b];
      assert more[..|more| - size] == absorbed[..|absorbed| - old(size)];
      assert more[|more| - size..] == absorbed[|absorbed| - old(size)..] + [b];
    }

    method Flush(ghost absorbed: Bytes)
      requires Holds(absorbed) && size == 128
      modifies this`state, this`size
      ensures Holds(absorbed) && size == 0
    {
      hide Fold, Compress;
      state := Transform(state, buffer);
      size := 0;
      ghost var n := |absorbed| - 128;
      FoldStep(Initial(), absorbed[..n], buffer[..]);
      assert buffer[..128] == buffer[..];
      assert absorbed[..n] + absorbed[n..] == absorbed && absorbed[..|absorbed|] == absorbed;
    }

    /** Appends to the message; refuses and changes nothing after `Finish`. */
    method Update(bytes: Bytes) returns (r: Outcome)
      requires Valid() && |bytes| < WORD
      modifies this`state, this`size, this`low, this`high, this`message, buffer
      ensures Valid()
      ensures r == if finished then LogicError else Done
      ensures message == old(message) + if r.Done? then bytes else []
    {
      hide Holds, Count, Counts;
      if finished {
        return LogicError;
      }
      ghost var before := message;
      CountsMore(high, low, |message|, |bytes|);
      var (high', low') := Count(high, low, |bytes|);
      high, low := high', low';
      message := message + bytes;
      Absorb(bytes, before);
      r := Done;
    }

    method Absorb(bytes: Bytes, ghost before: Bytes)
      requires Holds(before) && size < 128
      modifies this`state, this`size, buffer
      ensures Holds(before + bytes) && size < 128
    {
      hide Holds;
      assert before + bytes[..0] == before;
      for i := 0 to |bytes|
        invariant Holds(before + bytes[..i]) && size < 128
      {
        ghost var now, next := before + bytes[..i], before + bytes[..i + 1];
        assert next == now + [bytes[i]];
        Put(bytes[i], now);
        HeldSize(next);
        if size == 128 {
          Flush(next);
        }
      }
      assert bytes[..|bytes|] == bytes;
    }

    lemma HeldSize(absorbed: Bytes)
      requires Holds(absorbed)
      ensures size <= 128 && size <= |absorbed| && buffer.Length == 128
      ensures (|absorbed| - size) % 128 == 0
    {
    }

    /** Zero bytes up to `limit`. */
    method Fill(limit: nat, ghost absorbed: Bytes) returns (ghost k: nat)
      requires Holds(absorbed) && size <= limit <= 128
      modifies this`size, buffer
      ensures Holds(absorbed + Zeros(k)) && size == limit && k == limit - old(size)
    {
      hide Holds;
      k := 0;
      assert absorbed + Zeros(0) == absorbed;
      while size < limit
        invariant Holds(absorbed + Zeros(k)) && size <= limit && k == size - old(size)
      {
        assert absorbed + Zeros(k + 1) == (absorbed + Zeros(k)) + [0];
        Put(0, absorbed + Zeros(k));
        k := k + 1;
      }
    }

    method PutWord(word: nat, ghost absorbed: Bytes)
      requires Holds(absorbed) && size <= 120
      modifies this`size, buffer
      ensures Holds(absorbed + BigEndian(word, 8)) && size == old(size) + 8
    {
      hide Holds, ByteAt, BigEndian;
      ghost var field := BigEndian(word, 8);
      assert absorbed + field[..0] == absorbed;
      for i := 0 to 8
        invariant Holds(absorbed + field[..i]) && size == old(size) + i
      {
        assert absorbed + field[..i + 1] == (absorbed + field[..i]) + [field[i]];
        BigEndianAt(word, 8, i);
        Put(ByteAt(word, 7 - i), absorbed + field[..i]);
      }
      assert field[..8] == field;
    }

    method PutLength(ghost absorbed: Bytes)
      requires Holds(absorbed) && size == 112 && Counts(high, low, |message|)
      modifies this`size, buffer
      ensures Holds(absorbed + Length(8 * |message| % QUAD)) && size == 128
    {
      hide Holds, BigEndian, Counts;
      PutWord(high, absorbed);
      PutWord(low, absorbed + BigEndian(high, 8));
      CountedLength(high, low, |message|);
      assert (absorbed + BigEndian(high, 8)) + BigEndian(low, 8) == absorbed + (BigEndian(high, 8) + BigEndian(low, 8));
    }

    /** The one bit and the zeros that leave room for the length. */
    method PutPadding()
      requires Holds(message) && size < 128
      modifies this`state, this`size, buffer
      ensures Holds((message + [0x80]) + Zeros(ZeroCount(|message|, 128, 16))) && size == 112
    {
      hide Holds, ZeroCount, Fold;
      ghost var m := message + [0x80];
      ghost var k := 0;
      Put(0x80, message);
      ghost var held := size;
      HeldSize(m);
      assert m + Zeros(0) == m;
      if size > 112 {
        k := Fill(128, m);
        Flush(m + Zeros(k));
      }
      ghost var more := Fill(112, m + Zeros(k));
      assert (m + Zeros(k)) + Zeros(more) == m + Zeros(k + more);
      ZerosFit(|message|, held, k + more);
    }

    /** Pads, hashes the rest and returns the digest. */
    method Finish() returns (r: Option<Hash>)
      requires Valid()
      modifies this`state, this`size, this`finished, buffer
      ensures Valid() && finished
      ensures r.None? <==> old(finished)
      ensures r.Some? ==> r.value == DigestAs(message, 8 * |message| % QUAD)
      ensures r.Some? && 8 * |message| < QUAD ==> r.value == Digest(message)
    {
      hide Holds, Fold, Length, ZeroCount, Counts;
      if finished {
        return None;
      }
      finished := true;
      PutPadding();
      ghost var m := (message + [0x80]) + Zeros(ZeroCount(|message|, 128, 16));
      PutLength(m);
      ghost var bits := 8 * |message| % QUAD;
      Flush(m + Length(bits));
      HeldAll(m + Length(bits));
      assert m + Length(bits) == message + Pad(|message|, 128, Length(bits));
      r := Some(state);
    }

    lemma HeldAll(absorbed: Bytes)
      requires Holds(absorbed) && size == 0
      ensures |absorbed| % 128 == 0 && state == Fold(Initial(), absorbed)
    {
      hide Fold;
      assert absorbed[..|absorbed|] == absorbed;
    }
  }

  /** The zeros that bring a block with `held` bytes, or the one after it, to 112. */
  lemma ZerosFit(n: nat, held: nat, k: nat)
    requires held <= 128 && held <= n + 1 && (n + 1 - held) % 128 == 0 && k == (if held > 112 then 240 - held else 112 - held)
    ensures k == ZeroCount(n, 128, 16)
  {
    hide ZeroCount;
    ZeroCountIsLeast(n, 128, 16, k);
  }

  /** The counter pair holds the bit count modulo 2^128. */
  ghost predicate Counts(high: nat, low: nat, bytes: nat) {
    high < WORD && low < WORD && high * WORD + low == 8 * bytes % QUAD
  }

  lemma CountsMore(high: nat, low: nat, bytes: nat, n: nat)
    requires Counts(high, low, bytes) && n < WORD
    ensures var (high', low') := Count(high, low, n); Counts(high', low', bytes + n)
  {
    hide Count;
    CountIsExact(high, low, n);
    ModPlus(8 * bytes, 8 * n, QUAD);
  }

  lemma CountedLength(high: nat, low: nat, bytes: nat)
    requires Counts(high, low, bytes)
    ensures BigEndian(high, 8) + BigEndian(low, 8) == Length(8 * bytes % QUAD)
  {
    hide BigEndian;
    BigEndianSplit(8 * bytes % QUAD, high, low, 8, 8);
  }

  /** The one-shot wrapper. */
  method Sha512(bytes: Bytes) returns (r: Hash)
    requires |bytes| < WORD
    ensures 8 * |bytes| < QUAD && r == Digest(bytes)
  {
    hide Fold, DigestAs, Counts;
    assert 8 * |bytes| < QUAD;
    var hasher := new Sha512Hasher();
    var outcome := hasher.Update(bytes);
    assert [] + bytes == bytes;
    var digest := hasher.Finish();
    r := digest.value;
  }
}
