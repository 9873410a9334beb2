/** What session operations do to single bytes. */
module AccelBytes {
  import opened Prelude
  import opened Accel

  /** The buffer behind an identifier, host or device. */
  predicate Holds(s: Store, id: Id, buffer: Bytes) { Find(s, id) == Some(buffer) }

  /** A transfer is accepted if and only if its handles are owned, its queue and buffers are live, and
      a nonempty window lies inside both buffers. */
  lemma TransferIsAcceptedIff(s: Cpu, source: Handle, target: Handle, queue: Handle, q: Request, c: Id)
    ensures CpuEnqueue(s, source, target, queue, q, c).Some? <==>
            && (forall h <- [source, target, queue] :: h.session == s.store.session && h.id !in s.store.released)
            && queue.id in s.store.queues && q.size > 0
            && (exists from :: Holds(s.store, source.id, from) && q.sourceOffset + q.size <= |from|)
            && (exists to :: Holds(s.store, target.id, to) && q.destinationOffset + q.size <= |to|)
  {
    hide Splice, Slice, Replaced, Find;
    assert forall h <- [source, target, queue] :: h == source || h == target || h == queue;
    if Find(s.store, source.id).Some? { assert Holds(s.store, source.id, Find(s.store, source.id).value); }
    if Find(s.store, target.id).Some? { assert Holds(s.store, target.id, Find(s.store, target.id).value); }
    assert [source, target, queue][0] == source && [source, target, queue][1] == target && [source, target, queue][2] == queue;
  }

  lemma ReplacedIsFound(s: Store, id: Id, buffer: Bytes)
    requires Find(s, id).Some?
    ensures var t := Replaced(s, id, buffer);
            && Find(t, id) == Some(buffer) && (forall x :: x != id ==> Find(t, x) == Find(s, x))
            && t.queues == s.queues && t.released == s.released
  {
  }

  /** `after` is `before` with the window of the request filled from `from`. */
  ghost predicate WindowMoved(from: Bytes, before: Bytes, after: Bytes, q: Request) {
    && |after| == |before| && q.sourceOffset + q.size <= |from|
    && forall i :: 0 <= i < |after| ==>
         after[i] == if q.destinationOffset <= i < q.destinationOffset + q.size
                     then from[q.sourceOffset + (i - q.destinationOffset)] else before[i]
  }

  lemma SplicedSlice(from: Bytes, before: Bytes, q: Request)
    requires InBounds(from, q.sourceOffset, q.size) && InBounds(before, q.destinationOffset, q.size)
    ensures WindowMoved(from, before, Splice(before, q.destinationOffset, Slice(from, q.sourceOffset, q.size)), q)
  {
    hide Splice, Slice;
  }

  /** Then the window of the target holds the source's bytes, every other byte of the target stays, and
      no other buffer changes. */
  lemma TransferMovesTheWindow(s: Cpu, source: Handle, target: Handle, queue: Handle, q: Request, c: Id)
    requires CpuEnqueue(s, source, target, queue, q, c).Some?
    ensures var t := CpuEnqueue(s, source, target, queue, q, c).value;
            && t.completions == s.completions + {c}
            && t.store.queues == s.store.queues && t.store.released == s.store.released
            && (forall id :: id != target.id ==> Find(t.store, id) == Find(s.store, id))
            && Find(s.store, source.id).Some? && Find(s.store, target.id).Some? && Find(t.store, target.id).Some?
            && WindowMoved(Find(s.store, source.id).value, Find(s.store, target.id).value, Find(t.store, target.id).value, q)
  {
    hide Splice, Slice, Replaced, WindowMoved;
    var from, to := Find(s.store, source.id).value, Find(s.store, target.id).value;
    SplicedSlice(from, to, q);
    hide Find;
    ReplacedIsFound(s.store, target.id, Splice(to, q.destinationOffset, Slice(from, q.sourceOffset, q.size)));
  }

  /** What was written is read back, bytes outside the written window read as before, and so does
      every other allocation. */
  lemma WriteThenRead(s: Store, h: Handle, offset: nat, bytes: Bytes, other: Handle, at: nat, size: nat)
    requires Written(s, h, offset, bytes).Some?
    ensures var t := Written(s, h, offset, bytes).value;
            && ReadOut(t, h, offset, |bytes|) == Some(bytes)
            && (other.id != h.id || at + size <= offset || offset + |bytes| <= at ==>
                  ReadOut(t, other, at, size) == ReadOut(s, other, at, size))
  {
    hide Splice, Slice;
    var t := Written(s, h, offset, bytes).value;
    assert ReadOut(t, h, offset, |bytes|).value == bytes;
    if ReadOut(s, other, at, size).Some? && other.id == h.id && (at + size <= offset || offset + |bytes| <= at) {
      assert ReadOut(t, other, at, size).value == ReadOut(s, other, at, size).value;
    }
  }

  /** A new allocation reads as zeros and leaves the others alone. */
  lemma AllocationIsZeroed(s: Store, kind: Kind, id: Id, size: nat)
    requires Allocated(s, kind, id, size).Some? && (kind.HostKind? || kind.DeviceKind?)
    requires id !in s.host && id !in s.device
    ensures var t := Allocated(s, kind, id, size).value;
            && Find(t, id).Some? && |Find(t, id).value| == size && (forall i :: 0 <= i < size ==> Find(t, id).value[i] == 0)
            && (forall x :: x != id ==> Find(t, x) == Find(s, x))
  {
  }

  /** After a release every operation refuses the handle, and only its own resource is gone. */
  lemma ReleasedIsRefused(s: Store, h: Handle, allow: bool, offset: nat, bytes: Bytes, size: nat)
    requires Freed(s, h, allow).Some?
    ensures var (t, reported) := Freed(s, h, allow).value;
            && (reported <==> h.id in s.host || h.id in s.device || h.id in s.queues)
            && Written(t, h, offset, bytes).None? && ReadOut(t, h, offset, size).None? && Find(t, h.id).None?
            && h.id !in t.queues && Freed(t, h, false).None?
            && (forall x :: x != h.id ==> Find(t, x) == Find(s, x) && (x in t.queues <==> x in s.queues)
                                          && (x in t.released <==> x in s.released))
  {
  }
}
