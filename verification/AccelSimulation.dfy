/** Under the nodes' discipline the Metal session behaves like the CPU session. */
module AccelSimulation {
  import opened Prelude
  import opened Accel

  datatype Event =
    | Allocate(kind: Kind, id: Id, size: nat)
    | Write(handle: Handle, offset: nat, bytes: Bytes)
    | Read(handle: Handle, offset: nat, size: nat)
    | Enqueue(direction: Direction, source: Handle, target: Handle, queue: Handle, request: Request, c: Id)
    | Wait(completion: Handle)
    | Retire(completion: Handle, allow: bool)
    | Free(handle: Handle, allow: bool)
    | Run(c: Id)

  datatype Answer = Refused | Done | Content(bytes: Bytes) | Released(removed: bool)

  function CpuNext(s: Cpu, e: Event): (Cpu, Answer) {
    match e
    case Allocate(kind, id, size) =>
      var t := Allocated(s.store, kind, id, size); if t.None? then (s, Refused) else (s.(store := t.value), Done)
    case Write(h, offset, bytes) =>
      var t := Written(s.store, h, offset, bytes); if t.None? then (s, Refused) else (s.(store := t.value), Done)
    case Read(h, offset, size) =>
      var b := ReadOut(s.store, h, offset, size); (s, if b.None? then Refused else Content(b.value))
    case Enqueue(d, source, target, queue, q, c) =>
      var t := CpuEnqueue(s, source, target, queue, q, c); if t.None? then (s, Refused) else (t.value, Done)
    case Wait(c) => (s, if CpuWaits(s, c) then Done else Refused)
    case Retire(c, allow) => var t := CpuRetire(s, c, allow); if t.None? then (s, Refused) else (t.value, Released(true))
    case Free(h, allow) =>
      var t := Freed(s.store, h, allow);
      if t.None? then (s, Refused) else (s.(store := t.value.0), Released(t.value.1))
    case Run(c) => (s, Done)
  }

  function MetalNext(m: Metal, e: Event): (Metal, Answer)
    requires AllFit(m)
  {
    match e
    case Allocate(kind, id, size) =>
      var t := Allocated(m.store, kind, id, size); if t.None? then (m, Refused) else (m.(store := t.value), Done)
    case Write(h, offset, bytes) =>
      var t := Written(m.store, h, offset, bytes); if t.None? then (m, Refused) else (m.(store := t.value), Done)
    case Read(h, offset, size) =>
      var b := ReadOut(m.store, h, offset, size); (m, if b.None? then Refused else Content(b.value))
    case Enqueue(d, source, target, queue, q, c) =>
      var t := MetalEnqueue(m, d, source, target, queue, q, c); if t.None? then (m, Refused) else (t.value, Done)
    case Wait(c) => var (ok, n) := Waited(m, c); (n, if ok then Done else Refused)
    case Retire(c, allow) =>
      var t := MetalRetire(m, c, allow); if t.None? then (m, Refused) else (t.value, Released(c.id in m.pending))
    case Free(h, allow) =>
      var t := Freed(m.store, h, allow);
      if t.None? then (m, Refused) else (m.(store := t.value.0), Released(t.value.1))
    case Run(c) => (if c in m.pending then Ran(m, c) else m, Done)
  }

  // ---- What callers may rely on, with or without discipline ------------------------------------------------

  /** New identifiers are new, and handles have the kind of the argument they are passed for. */
  ghost predicate Proper(s: Store, e: Event) {
    match e
    case Allocate(kind, id, size) => id !in s.issued && kind != CompletionKind
    case Write(h, offset, bytes) => OfKind(s, h, HostKind)
    case Read(h, offset, size) => OfKind(s, h, HostKind)
    case Enqueue(d, source, target, queue, q, c) =>
      && c !in s.issued && OfKind(s, queue, QueueKind)
      && OfKind(s, source, if d.ToDevice? then HostKind else DeviceKind)
      && OfKind(s, target, if d.ToDevice? then DeviceKind else HostKind)
    case Wait(c) => OfKind(s, c, CompletionKind)
    case Retire(c, allow) => OfKind(s, c, CompletionKind)
    case Free(h, allow) => h.session == s.session ==> h.id in s.issued && s.issued[h.id] != CompletionKind
    case Run(c) => true
  }

  /** Identifiers keep their kind, and buffers that stay keep their length. */
  ghost predicate Grows(s: Store, t: Store) {
    && (forall i <- s.issued :: i in t.issued && t.issued[i] == s.issued[i])
    && (forall i <- t.host :: if i in s.host then |t.host[i]| == |s.host[i]| else i !in s.issued)
    && (forall i <- t.device :: if i in s.device then |t.device[i]| == |s.device[i]| else i !in s.issued)
  }

  lemma FitsStays(s: Store, t: Store, p: Pending)
    requires Grows(s, t) && Fits(s, p)
    ensures Fits(t, p)
  {
  }

  lemma AllFitStays(m: Metal, t: Store)
    requires AllFit(m) && Grows(m.store, t) && WellTyped(t)
    ensures AllFit(m.(store := t))
  {
    hide Fits, Grows, WellTyped;
    forall c <- m.pending ensures Fits(t, m.pending[c]) { FitsStays(m.store, t, m.pending[c]); }
  }

  lemma AllocatedGrows(s: Store, kind: Kind, id: Id, size: nat)
    requires WellTyped(s) && id !in s.issued
    ensures var t := Allocated(s, kind, id, size); t.Some? ==> WellTyped(t.value) && Grows(s, t.value)
  {
  }

  lemma WrittenGrows(s: Store, h: Handle, offset: nat, bytes: Bytes)
    requires WellTyped(s)
    ensures var t := Written(s, h, offset, bytes); t.Some? ==> WellTyped(t.value) && Grows(s, t.value)
  {
  }

  lemma FreedGrows(s: Store, h: Handle, allow: bool)
    requires WellTyped(s)
    ensures var t := Freed(s, h, allow); t.Some? ==> WellTyped(t.value.0) && Grows(s, t.value.0)
  {
  }

  /** One entry of the table changes and the store grows. */
  lemma OneEntry(m: Metal, c: Id, p: Pending, t: Store)
    requires AllFit(m) && Grows(m.store, t) && WellTyped(t) && Fits(t, p)
    ensures AllFit(Metal(t, m.pending[c := p]))
  {
    hide Fits, Grows, WellTyped;
    AllFitStays(m, t);
  }

  lemma RanFits(m: Metal, c: Id)
    requires AllFit(m) && c in m.pending
    ensures AllFit(Ran(m, c)) && Grows(m.store, Ran(m, c).store)
  {
    hide AllFit, Grows;
    var n := Ran(m, c);
    assert WellTyped(m.store) && Fits(m.store, m.pending[c]) by { FitOf(m, c); }
    assert Grows(m.store, n.store) by { RanGrows(m, c); }
    if n != m {
      FitsStays(m.store, n.store, m.pending[c]);
      OneEntry(m, c, n.pending[c], n.store);
    }
  }

  lemma FitOf(m: Metal, c: Id)
    requires AllFit(m) && c in m.pending
    ensures WellTyped(m.store) && Fits(m.store, m.pending[c])
  {
  }

  lemma RanGrows(m: Metal, c: Id)
    requires AllFit(m) && c in m.pending
    ensures Grows(m.store, Ran(m, c).store) && WellTyped(Ran(m, c).store)
  {
    assert Fits(m.store, m.pending[c]);
  }

  lemma WaitedFits(m: Metal, c: Handle)
    requires AllFit(m)
    ensures AllFit(Waited(m, c).1)
  {
    hide AllFit, Grows, Ran;
    if Owned(m.store, c) && c.id in m.pending {
      RanFits(m, c.id);
      var n := Ran(m, c.id);
      var w := Waited(m, c).1;
      RanKeepsKeys(m, c.id);
      FitOf(n, c.id);
      if w != n {
        assert Grows(n.store, w.store) by { HostCopyGrows(n.store, w.store, n.pending[c.id]); }
        FitsStays(n.store, w.store, n.pending[c.id]);
        OneEntry(n, c.id, w.pending[c.id], w.store);
      }
    }
  }

  lemma RanKeepsKeys(m: Metal, c: Id)
    requires AllFit(m) && c in m.pending
    ensures Ran(m, c).pending.Keys == m.pending.Keys
  {
  }

  lemma HostCopyGrows(s: Store, t: Store, p: Pending)
    requires Fits(s, p) && p.host in s.host
    requires t == s.(host := s.host[p.host := Splice(s.host[p.host], p.hostOffset, p.staging)])
    ensures Grows(s, t)
  {
  }

  lemma EnqueuedFits(m: Metal, d: Direction, source: Handle, target: Handle, queue: Handle, q: Request, c: Id)
    requires AllFit(m) && Proper(m.store, Enqueue(d, source, target, queue, q, c))
    ensures var n := MetalEnqueue(m, d, source, target, queue, q, c); n.Some? ==> AllFit(n.value)
  {
    hide AllFit;
    var n := MetalEnqueue(m, d, source, target, queue, q, c);
    if n.Some? {
      var t := n.value.store;
      assert WellTyped(m.store) by { TypedStore(m); }
      assert WellTyped(t) && Grows(m.store, t);
      OneEntry(m, c, n.value.pending[c], t);
    }
  }

  lemma TypedStore(m: Metal)
    requires AllFit(m)
    ensures WellTyped(m.store)
  {
  }

  lemma RetiredFits(m: Metal, c: Handle, allow: bool)
    requires AllFit(m)
    ensures var n := MetalRetire(m, c, allow); n.Some? ==> AllFit(n.value)
  {
    var n := MetalRetire(m, c, allow);
    if n.Some? { forall x <- n.value.pending ensures Fits(n.value.store, n.value.pending[x]) { FitsStays(m.store, n.value.store, m.pending[x]); } }
  }

  /** Every pending copy stays in bounds, through every operation in any order. */
  lemma CopiesStayInBounds(m: Metal, e: Event)
    requires AllFit(m) && Proper(m.store, e)
    ensures AllFit(MetalNext(m, e).0)
  {
    hide AllFit, Grows, WellTyped, Waited, Ran, MetalEnqueue, MetalRetire, Freed, Written, Allocated;
    TypedStore(m);
    match e
    case Allocate(kind, id, size) =>
      AllocatedGrows(m.store, kind, id, size);
      var t := Allocated(m.store, kind, id, size);
      if t.Some? { AllFitStays(m, t.value); }
    case Write(h, offset, bytes) =>
      WrittenGrows(m.store, h, offset, bytes);
      var t := Written(m.store, h, offset, bytes);
      if t.Some? { AllFitStays(m, t.value); }
    case Read(h, offset, size) =>
    case Enqueue(d, source, target, queue, q, c) => EnqueuedFits(m, d, source, target, queue, q, c);
    case Wait(c) => WaitedFits(m, c);
    case Retire(c, allow) => RetiredFits(m, c, allow);
    case Free(h, allow) =>
      FreedGrows(m.store, h, allow);
      var t := Freed(m.store, h, allow);
      if t.Some? { AllFitStays(m, t.value.0); }
    case Run(c) => if c in m.pending { RanFits(m, c); }
  }
}
