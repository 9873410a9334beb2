/** Hashing a file in bounded reads, as the bundle service does for every artifact and recording. */
module FileHash {
  import opened Prelude
  import Padding
  import S256 = Sha256Spec
  import S512 = Sha512Spec
  import H256 = Sha256Object
  import H512 = Sha512Object

  const CHUNK := 256 * 1024

  datatype FileDigests = FileDigests(bytes: nat, sha256: S256.Hash, sha512: S512.Hash)

  /** How much one `read` returns: at least one byte, at most a chunk, at most what is left. */
  function Amount(wish: nat, left: nat): (r: nat)
    requires left > 0
    ensures 0 < r <= left && r <= CHUNK
  {
    var want := if wish == 0 then 1 else if wish > CHUNK then CHUNK else wish;
    if want < left then want else left
  }

  /** What the system does in one round: whether the operation may go on, and what `read` returns:
      up to `wish` bytes, an interruption to retry, or an error. */
  datatype Read = Got(wish: nat) | Interrupted | Broken
  datatype Round = Round(goesOn: bool, read: Read)

  /** The rounds that are scripted, and undisturbed full reads after them. */
  function At(script: seq<Round>, step: nat): Round { if step < |script| then script[step] else Round(true, Got(CHUNK)) }

  predicate Undisturbed(script: seq<Round>) { forall r <- script :: r.goesOn && !r.read.Broken? }

  datatype Outcome = Hashed(digests: FileDigests) | OperationInterrupted | ReadFailed | TooLong

  /** However the reads cut the file, the digests are the digests of its content. A file beyond
      `maximum`, or too long for SHA-256, is refused; an operation that may not go on, or a failing
      read, ends without digests. Every caller's limit is at least one chunk, so the source's
      unsigned subtraction does not wrap. */
  method HashFd(file: Bytes, maximum: nat, script: seq<Round>) returns (r: Outcome)
    requires CHUNK <= maximum && |file| < Padding.WORD
    ensures r.Hashed? ==> |file| <= maximum && 8 * |file| < Padding.WORD
    ensures r.Hashed? ==> r.digests == FileDigests(|file|, S256.Digest(file), S512.Digest(file))
    ensures r.TooLong? ==> |file| > maximum || 8 * |file| >= Padding.WORD
    ensures r.OperationInterrupted? ==> exists x <- script :: !x.goesOn
    ensures r.ReadFailed? ==> exists x <- script :: x.read.Broken?
    ensures Undisturbed(script) ==> r == if |file| <= maximum && 8 * |file| < Padding.WORD
                                         then Hashed(FileDigests(|file|, S256.Digest(file), S512.Digest(file))) else TooLong
  {
    hide S256.Digest, S512.Digest, Fed, Amount;
    var sha256, sha512 := Start();
    var total: nat, step: nat := 0, 0;
    assert file[..0] == [];
    var more := true;
    while more
      invariant total <= |file| && total <= maximum && 8 * total < Padding.WORD && step <= |script|
      invariant fresh(sha256) && fresh(sha512) && fresh(sha256.buffer) && fresh(sha512.buffer)
      invariant Fed(sha256, sha512, file[..total]) && (!more ==> total == |file|)
      decreases more, |file| - total, |script| - step
    {
      var round := At(script, step);
      assert step < |script| ==> script[step] in script;
      if !round.goesOn {
        return OperationInterrupted;
      }
      if round.read == Broken {
        return ReadFailed;
      }
      step := if step < |script| then step + 1 else step;
      if round.read == Interrupted {
        continue;
      }
      if total == |file| {
        more := false;
        continue;
      }
      var amount := Amount(round.read.wish, |file| - total);
      if total > maximum - amount {
        return TooLong;
      }
      ghost var now, next := file[..total], file[..total + amount];
      var bytes := file[total..total + amount];
      assert next == now + bytes;
      var ok := Feed(sha256, sha512, bytes, now);
      if !ok {
        return TooLong;
      }
      total := total + amount;
    }
    assert file[..total] == file;
    var digests := Conclude(sha256, sha512, total, file);
    r := Hashed(digests);
  }

  ghost predicate Fed(h: H256.Sha256Hasher, g: H512.Sha512Hasher, m: Bytes)
    reads h, h.buffer, g, g.buffer
  {
    Fed256(h, m) && Fed512(g, m) && h.buffer != g.buffer
  }

  method Start() returns (h: H256.Sha256Hasher, g: H512.Sha512Hasher)
    ensures fresh(h) && fresh(h.buffer) && fresh(g) && fresh(g.buffer) && Fed(h, g, [])
  {
    hide Fed256, Fed512;
    h := Start256();
    g := Start512();
  }

  method Feed(h: H256.Sha256Hasher, g: H512.Sha512Hasher, bytes: Bytes, ghost m: Bytes) returns (ok: bool)
    requires Fed(h, g, m) && |bytes| < Padding.WORD
    modifies h`state, h`size, h`bitCount, h`message, h.buffer
    modifies g`state, g`size, g`low, g`high, g`message, g.buffer
    ensures ok <==> 8 * (|m| + |bytes|) < Padding.WORD
    ensures ok ==> Fed(h, g, m + bytes)
  {
    hide Fed256, Fed512;
    ok := Feed256(h, bytes, m);
    if ok {
      Feed512(g, bytes, m);
    }
  }

  method Conclude(h: H256.Sha256Hasher, g: H512.Sha512Hasher, total: nat, ghost m: Bytes) returns (r: FileDigests)
    requires Fed(h, g, m) && 8 * |m| < Padding.WORD && total == |m|
    modifies h`state, h`size, h`finished, h.buffer
    modifies g`state, g`size, g`finished, g.buffer
    ensures r == FileDigests(total, S256.Digest(m), S512.Digest(m))
  {
    hide Fed256, Fed512, S256.Digest, S512.Digest;
    var a := Finish256(h, m);
    var b := Finish512(g, m);
    r := FileDigests(total, a, b);
  }

  ghost predicate Fed256(h: H256.Sha256Hasher, m: Bytes)
    reads h, h.buffer
  {
    h.Valid() && !h.finished && h.checked && h.message == m
  }

  ghost predicate Fed512(h: H512.Sha512Hasher, m: Bytes)
    reads h, h.buffer
  {
    h.Valid() && !h.finished && h.message == m
  }

  method Start256() returns (h: H256.Sha256Hasher)
    ensures fresh(h) && fresh(h.buffer) && Fed256(h, [])
  {
    h := new H256.Sha256Hasher(true);
  }

  method Start512() returns (h: H512.Sha512Hasher)
    ensures fresh(h) && fresh(h.buffer) && Fed512(h, [])
  {
    h := new H512.Sha512Hasher();
  }

  method Feed256(h: H256.Sha256Hasher, bytes: Bytes, ghost m: Bytes) returns (ok: bool)
    requires Fed256(h, m)
    modifies h`state, h`size, h`bitCount, h`message, h.buffer
    ensures ok <==> 8 * (|m| + |bytes|) < Padding.WORD
    ensures ok ==> Fed256(h, m + bytes)
  {
    hide S256.Fold;
    var outcome := h.Update(bytes);
    ok := outcome == H256.Done;
  }

  method Feed512(h: H512.Sha512Hasher, bytes: Bytes, ghost m: Bytes)
    requires Fed512(h, m) && |bytes| < Padding.WORD
    modifies h`state, h`size, h`low, h`high, h`message, h.buffer
    ensures Fed512(h, m + bytes)
  {
    hide S512.Fold;
    var outcome := h.Update(bytes);
  }

  method Finish256(h: H256.Sha256Hasher, ghost m: Bytes) returns (r: S256.Hash)
    requires Fed256(h, m) && 8 * |m| < Padding.WORD
    modifies h`state, h`size, h`finished, h.buffer
    ensures r == S256.Digest(m)
  {
    hide S256.Fold, S256.DigestAs;
    var digest := h.Finish();
    r := digest.value;
  }

  method Finish512(h: H512.Sha512Hasher, ghost m: Bytes) returns (r: S512.Hash)
    requires Fed512(h, m) && 8 * |m| < Padding.QUAD
    modifies h`state, h`size, h`finished, h.buffer
    ensures r == S512.Digest(m)
  {
    hide S512.Fold, S512.DigestAs;
    var digest := h.Finish();
    r := digest.value;
  }
}
