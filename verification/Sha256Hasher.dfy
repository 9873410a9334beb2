/** The streaming SHA-256 classes: the checked hasher of the shared library and the unchecked copy
    inside the observation service. */
module Sha256Object {
  import opened Prelude
  import opened Padding
  import opened Sha256Spec

  datatype Outcome = Done | LogicError | OverflowError

  /** `Transform`: the schedule and the rounds of one block. */
  method Transform(state: Hash, block: array<Byte>) returns (r: Hash)
    requires block.Length == 64
    ensures r == Compress(state, block[..])
  {
    hide Plus, Join, SmallSigma0, SmallSigma1, K, Round, W;
    var words := Expand(block);
    ghost var m := block[..];
    var v := state;
    var k := K();
    for i := 0 to 64
      invariant block[..] == m && words.Length == 64 && forall t :: 0 <= t < 64 ==> words[t] == W(m, t)
      invariant v == Rounds(state, m, i)
    {
      v := Step(v, k[i], words[i]);
    }
    PlusCommutes(state, v);
    r := Plus(state, v);
  }

  method Expand(block: array<Byte>) returns (words: array<bv32>)
    requires block.Length == 64
    ensures fresh(words) && words.Length == 64 && forall t :: 0 <= t < 64 ==> words[t] == W(block[..], t)
  {
    hide W, SmallSigma0, SmallSigma1, Bits, Packed, Add;
    words := new bv32[64];
    ghost var m := block[..];
    for i := 0 to 16
      invariant block[..] == m && forall t :: 0 <= t < i ==> words[t] == W(m, t)
    {
      FirstWord(m, i);
      words[i] := Packed(Bits(block[i * 4]), Bits(block[i * 4 + 1]), Bits(block[i * 4 + 2]), Bits(block[i * 4 + 3]));
    }
    for i := 16 to 64
      invariant block[..] == m && forall t :: 0 <= t < i ==> words[t] == W(m, t)
    {
      LaterWord(m, i);
      var s0, s1 := SmallSigma0(words[i - 15]), SmallSigma1(words[i - 2]);
      words[i] := Add(Add(Add(words[i - 16], s0), words[i - 7]), s1);
    }
  }

  lemma FirstWord(m: Bytes, i: nat)
    requires |m| == 64 && i < 16
    ensures W(m, i) == Packed(Bits(m[i * 4]), Bits(m[i * 4 + 1]), Bits(m[i * 4 + 2]), Bits(m[i * 4 + 3]))
  {
    hide Join, Bits, Packed;
    FourBytes(m[4 * i..4 * i + 4]);
  }

  lemma LaterWord(m: Bytes, i: nat)
    requires |m| == 64 && 16 <= i < 64
    ensures W(m, i) == Add(Add(Add(W(m, i - 16), SmallSigma0(W(m, i - 15))), W(m, i - 7)), SmallSigma1(W(m, i - 2)))
  {
    hide Join, SmallSigma0, SmallSigma1, Add;
    Reorder(SmallSigma1(W(m, i - 2)), W(m, i - 7), SmallSigma0(W(m, i - 15)), W(m, i - 16));
  }

  /** One round, register by register. */
  method Step(v: Hash, k: bv32, w: bv32) returns (r: Hash)
    ensures r == Round(v, k, w)
  {
    hide BigSigma0, BigSigma1, Ch, Maj, Add;
    var Hash(a, b, c, d, e, f, g, h) := v;
    var temp1 := Add(Add(Add(Add(h, BigSigma1(e)), Ch(e, f, g)), k), w);
    var temp2 := Add(BigSigma0(a), Maj(a, b, c));
    h := g;
    g := f;
    f := e;
    e := Add(d, temp1);
    d := c;
    c := b;
    b := a;
    a := Add(temp1, temp2);
    r := Hash(a, b, c, d, e, f, g, h);
  }

  class Sha256Hasher {
    const checked: bool
    const buffer: array<Byte>
    var state: Hash
    var size: nat
    var bitCount: nat
    var finished: bool
    ghost var message: Bytes

    /** The blocks of `absorbed` are in `state`, its rest is in the buffer. */
    ghost predicate Holds(absorbed: Bytes)
      reads this`state, this`size, buffer
    {
      && buffer.Length == 64 && size <= 64 && size <= |absorbed| && (|absorbed| - size) % 64 == 0
      && state == Fold(Initial(), absorbed[..|absorbed| - size])
      && buffer[..size] == absorbed[|absorbed| - size..]
    }

    ghost predicate Valid()
      reads this, buffer
    {
      && buffer.Length == 64
      && (!finished ==> Holds(message) && size < 64 && bitCount == 8 * |message| % WORD)
      && (checked ==> 8 * |message| < WORD)
    }

    constructor (checked: bool)
      ensures Valid() && fresh(buffer) && !finished && message == [] && this.checked == checked
    {
      this.checked := checked;
      buffer := new Byte[64];
      state, size, bitCount, finished, message := Initial(), 0, 0, false, [];
    }

    method Put(b: Byte, ghost absorbed: Bytes)
      requires Holds(absorbed) && size < 64
      modifies this`size, buffer
      ensures Holds(absorbed + [b]) && size == old(size) + 1
    {
      hide Fold;
      buffer[size] := b;
      size := size + 1;
      ghost var more := absorbed + [b];
      assert more[..|more| - size] == absorbed[..|absorbed| - old(size)];
      assert more[|more| - size..] == absorbed[|absorbed| - old(size)..] + [b];
    }

    method Flush(ghost absorbed: Bytes)
      requires Holds(absorbed) && size == 64
      modifies this`state, this`size
      ensures Holds(absorbed) && size == 0
    {
      hide Fold, Compress;
      state := Transform(state, buffer);
      size := 0;
      ghost var n := |absorbed| - 64;
      FoldStep(Initial(), absorbed[..n], buffer[..]);
      assert buffer[..64] == buffer[..];
      assert absorbed[..n] + absorbed[n..] == absorbed && absorbed[..|absorbed|] == absorbed;
    }

    /** Appends to the message, or refuses and changes nothing: after `Finish`, and when the bit
        count would leave 64 bits. The unchecked copy refuses neither and lets the count wrap. */
    method Update(bytes: Bytes) returns (r: Outcome)
      requires Valid() && (checked || !finished)
      modifies this`state, this`size, this`bitCount, this`message, buffer
      ensures Valid()
      ensures r == if checked && finished then LogicError
                   else if checked && 8 * (|old(message)| + |bytes|) >= WORD then OverflowError else Done
      ensures message == old(message) + if r.Done? then bytes else []
    {
      hide Holds;
      CountBits(|message|, |bytes|);
      if checked && finished {
        return LogicError;
      }
      if checked && |bytes| > (WORD - 1 - bitCount) / 8 {
        return OverflowError;
      }
      ghost var before := message;
      bitCount := (bitCount + |bytes| * 8 % WORD) % WORD;
      message := message + bytes;
      Absorb(bytes, before);
      r := Done;
    }

    method Absorb(bytes: Bytes, ghost before: Bytes)
      requires Holds(before) && size < 64
      modifies this`state, this`size, buffer
      ensures Holds(before + bytes) && size < 64
    {
      hide Holds;
      assert before + bytes[..0] == before;
      for i := 0 to |bytes|
        invariant Holds(before + bytes[..i]) && size < 64
      {
        ghost var now, next := before + bytes[..i], before + bytes[..i + 1];
        assert next == now + [bytes[i]];
        Put(bytes[i], now);
        HeldSize(next);
        if size == 64 {
          Flush(next);
        }
      }
      assert bytes[..|bytes|] == bytes;
    }

    lemma HeldSize(absorbed: Bytes)
      requires Holds(absorbed)
      ensures size <= 64 && size <= |absorbed| && buffer.Length == 64
      ensures (|absorbed| - size) % 64 == 0
    {
    }

    /** Zero bytes up to `limit`. */
    method Fill(limit: nat, ghost absorbed: Bytes) returns (ghost k: nat)
      requires Holds(absorbed) && size <= limit <= 64
      modifies this`size, buffer
      ensures Holds(absorbed + Zeros(k)) && size == limit && k == limit - old(size)
    {
      hide Holds;
      k := 0;
      assert absorbed + Zeros(0) == absorbed;
      while size < limit
        invariant Holds(absorbed + Zeros(k)) && size <= limit && k == size - old(size)
      {
        assert absorbed + Zeros(k + 1) == (absorbed + Zeros(k)) + [0];
        Put(0, absorbed + Zeros(k));
        k := k + 1;
      }
    }

    method PutLength(bits: nat, ghost absorbed: Bytes)
      requires Holds(absorbed) && size == 56
      modifies this`size, buffer
      ensures Holds(absorbed + Length(bits)) && size == 64
    {
      hide Holds, ByteAt;
      ghost var field := Length(bits);
      assert absorbed + field[..0] == absorbed;
      for i := 0 to 8
        invariant Holds(absorbed + field[..i]) && size == 56 + i
      {
        assert absorbed + field[..i + 1] == (absorbed + field[..i]) + [field[i]];
        LengthByte(bits, i);
        Put(ByteAt(bits, 7 - i), absorbed + field[..i]);
      }
      assert field[..8] == field;
    }

    /** The one bit and the zeros that leave room for the length. */
    method PutPadding()
      requires Holds(message) && size < 64
      modifies this`state, this`size, buffer
      ensures Holds((message + [0x80]) + Zeros(ZeroCount(|message|, 64, 8))) && size == 56
    {
      hide Holds, ZeroCount, Fold;
      ghost var m := message + [0x80];
      ghost var k := 0;
      Put(0x80, message);
      assert m + Zeros(0) == m;
      if size > 56 {
        k := Fill(64, m);
        Flush(m + Zeros(k));
      }
      ghost var more := Fill(56, m + Zeros(k));
      assert (m + Zeros(k)) + Zeros(more) == m + Zeros(k + more);
      HeldSize(m + Zeros(k + more));
      ZeroCountIsLeast(|message|, 64, 8, k + more);
    }

    /** Pads, hashes the rest and returns the digest. */
    method Finish() returns (r: Option<Hash>)
      requires Valid() && (checked || !finished)
      modifies this`state, this`size, this`finished, buffer
      ensures Valid() && finished
      ensures r.None? <==> old(finished)
      ensures r.Some? ==> r.value == DigestAs(message, 8 * |message| % WORD)
      ensures r.Some? && 8 * |message| < WORD ==> r.value == Digest(message)
    {
      hide Holds, Fold, Length, ZeroCount;
      if checked && finished {
        return None;
      }
      finished := true;
      PutPadding();
      ghost var m := (message + [0x80]) + Zeros(ZeroCount(|message|, 64, 8));
      PutLength(bitCount, m);
      Flush(m + Length(bitCount));
      HeldAll(m + Length(bitCount));
      assert m + Length(bitCount) == message + Pad(|message|, 64, Length(bitCount));
      r := Some(state);
    }

    lemma HeldAll(absorbed: Bytes)
      requires Holds(absorbed) && size == 0
      ensures |absorbed| % 64 == 0 && state == Fold(Initial(), absorbed)
    {
      hide Fold;
      assert absorbed[..|absorbed|] == absorbed;
    }
  }

  lemma LengthByte(bits: nat, i: nat)
    requires i < 8
    ensures Length(bits)[i] == ByteAt(bits, 7 - i)
  {
    BigEndianAt(bits, 8, i);
  }

  /** The one-shot wrapper. */
  method Sha256(bytes: Bytes) returns (r: Option<Hash>)
    ensures r.Some? <==> 8 * |bytes| < WORD
    ensures r.Some? ==> r.value == Digest(bytes)
  {
    hide Fold, DigestAs;
    var hasher := new Sha256Hasher(true);
    var outcome := hasher.Update(bytes);
    if outcome != Done {
      return None;
    }
    assert [] + bytes == bytes;
    r := hasher.Finish();
  }

  /** The observation service's copy: the same digest below 2^64 bits, and above them the digest of
      the same bytes under a wrapped length. */
  method LocalSha256(bytes: Bytes) returns (r: Hash)
    ensures r == DigestAs(bytes, 8 * |bytes| % WORD)
    ensures 8 * |bytes| < WORD ==> r == Digest(bytes)
  {
    hide Fold, DigestAs;
    var hasher := new Sha256Hasher(false);
    var outcome := hasher.Update(bytes);
    assert [] + bytes == bytes;
    var digest := hasher.Finish();
    r := digest.value;
  }
}
