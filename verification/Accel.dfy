/** Accelerator sessions: allocations, handles and byte transfers, on the synchronous CPU session
    and on the asynchronous Metal session. */
module Accel {
  import opened Prelude

  type Id = nat

  datatype Kind = HostKind | DeviceKind | QueueKind | CompletionKind

  /** A handle names a resource of one session. */
  datatype Handle = Handle(session: nat, id: Id)

  /** The resources of a session. `issued` remembers what every identifier was created for;
      `released` collects the handles whose flag is set. */
  datatype Store = Store(session: nat, host: map<Id, Bytes>, device: map<Id, Bytes>, queues: set<Id>,
                         released: set<Id>, issued: map<Id, Kind>)

  datatype Direction = ToDevice | ToHost

  datatype Request = Request(size: nat, sourceOffset: nat, destinationOffset: nat)

  ghost predicate WellTyped(s: Store) {
    && (forall i <- s.host :: i in s.issued && s.issued[i] == HostKind)
    && (forall i <- s.device :: i in s.issued && s.issued[i] == DeviceKind)
    && (forall i <- s.queues :: i in s.issued && s.issued[i] == QueueKind)
  }

  /** A host handle of this session was issued for a host allocation, and so on. */
  predicate OfKind(s: Store, h: Handle, kind: Kind) {
    h.session == s.session ==> h.id in s.issued && s.issued[h.id] == kind
  }

  // ---- Operations that both sessions share ---------------------------------------------------------------

  predicate Owned(s: Store, h: Handle) { h.session == s.session && h.id !in s.released }

  predicate InBounds(buffer: Bytes, offset: nat, size: nat) { offset <= |buffer| && size <= |buffer| - offset }

  function Splice(buffer: Bytes, offset: nat, bytes: Bytes): (r: Bytes)
    requires InBounds(buffer, offset, |bytes|)
    ensures |r| == |buffer| && r[offset..offset + |bytes|] == bytes
    ensures forall i :: 0 <= i < |r| ==>
              r[i] == if offset <= i < offset + |bytes| then bytes[i - offset] else buffer[i]
  {
    buffer[..offset] + bytes + buffer[offset + |bytes|..]
  }

  function Slice(buffer: Bytes, offset: nat, size: nat): (r: Bytes)
    requires InBounds(buffer, offset, size)
    ensures |r| == size && forall i :: 0 <= i < size ==> r[i] == buffer[offset + i]
  {
    buffer[offset..offset + size]
  }

  function Allocated(s: Store, kind: Kind, id: Id, size: nat): Option<Store> {
    var t := s.(issued := s.issued[id := kind]);
    match kind
    case HostKind => if size == 0 then None else Some(t.(host := s.host[id := Zeros(size)]))
    case DeviceKind => if size == 0 then None else Some(t.(device := s.device[id := Zeros(size)]))
    case QueueKind => Some(t.(queues := s.queues + {id}))
    case CompletionKind => Some(t)
  }

  function Written(s: Store, h: Handle, offset: nat, bytes: Bytes): Option<Store> {
    if !Owned(s, h) || bytes == [] || h.id !in s.host || !InBounds(s.host[h.id], offset, |bytes|) then None
    else Some(s.(host := s.host[h.id := Splice(s.host[h.id], offset, bytes)]))
  }

  function ReadOut(s: Store, h: Handle, offset: nat, size: nat): Option<Bytes> {
    if !Owned(s, h) || size == 0 || h.id !in s.host || !InBounds(s.host[h.id], offset, size) then None
    else Some(Slice(s.host[h.id], offset, size))
  }

  function Erased(s: Store, id: Id): Store {
    s.(host := s.host - {id}, device := s.device - {id}, queues := s.queues - {id})
  }

  predicate Live(s: Store, id: Id) { id in s.host || id in s.device || id in s.queues }

  /** `ReleaseSetCommon`, run without interruption: the new store and what it reports. */
  function Freed(s: Store, h: Handle, allow: bool): Option<(Store, bool)> {
    if h.session != s.session || (!allow && h.id in s.released) || (!allow && !Live(s, h.id)) then None
    else Some((Erased(s, h.id).(released := s.released + {h.id}), Live(s, h.id)))
  }

  // ---- The CPU session ---------------------------------------------------------------------------------------

  datatype Cpu = Cpu(store: Store, completions: set<Id>)

  function Find(s: Store, id: Id): Option<Bytes> {
    if id in s.host then Some(s.host[id]) else if id in s.device then Some(s.device[id]) else None
  }

  function Replaced(s: Store, id: Id, buffer: Bytes): Store {
    if id in s.host then s.(host := s.host[id := buffer]) else s.(device := s.device[id := buffer])
  }

  /** The copy happens at once. */
  function Copied(s: Store, source: Handle, target: Handle, queue: Handle, q: Request): Option<Store> {
    if !Owned(s, source) || !Owned(s, target) || !Owned(s, queue) || q.size == 0
       || queue.id !in s.queues || Find(s, source.id).None? || Find(s, target.id).None?
    then None
    else
      var from, to := Find(s, source.id).value, Find(s, target.id).value;
      if !InBounds(from, q.sourceOffset, q.size) || !InBounds(to, q.destinationOffset, q.size) then None
      else Some(Replaced(s, target.id, Splice(to, q.destinationOffset, Slice(from, q.sourceOffset, q.size))))
  }

  function CpuEnqueue(s: Cpu, source: Handle, target: Handle, queue: Handle, q: Request, c: Id): Option<Cpu> {
    var t := Copied(s.store, source, target, queue, q);
    if t.None? then None
    else Some(Cpu(t.value.(issued := t.value.issued[c := CompletionKind]), s.completions + {c}))
  }

  predicate CpuWaits(s: Cpu, c: Handle) { Owned(s.store, c) && c.id in s.completions }

  /** Retiring a completion; the CPU session reports `released` whenever it does not refuse. */
  function CpuRetire(s: Cpu, c: Handle, allow: bool): Option<Cpu> {
    if c.session != s.store.session || (!allow && c.id in s.store.released) then None
    else Some(Cpu(s.store.(released := s.store.released + {c.id}), s.completions - {c.id}))
  }

  // ---- The Metal session -------------------------------------------------------------------------------------

  /** A committed command buffer with its staging buffer: `ran` once the device has executed it,
      `copied` once a `Wait` has moved the bytes to the host. */
  datatype Pending = Pending(direction: Direction, host: Id, device: Id, hostOffset: nat, deviceOffset: nat,
                             size: nat, staging: Bytes, ran: bool, copied: bool)

  datatype Metal = Metal(store: Store, pending: map<Id, Pending>)

  function MetalEnqueue(m: Metal, d: Direction, source: Handle, target: Handle, queue: Handle, q: Request, c: Id)
    : Option<Metal>
  {
    var s := m.store;
    var host, device := if d.ToDevice? then source.id else target.id, if d.ToDevice? then target.id else source.id;
    var hostOffset := if d.ToDevice? then q.sourceOffset else q.destinationOffset;
    var deviceOffset := if d.ToDevice? then q.destinationOffset else q.sourceOffset;
    if !Owned(s, source) || !Owned(s, target) || !Owned(s, queue) || q.size == 0 || queue.id !in s.queues
       || host !in s.host || device !in s.device
       || !InBounds(s.host[host], hostOffset, q.size) || !InBounds(s.device[device], deviceOffset, q.size)
    then None
    else
      var staging := if d.ToDevice? then Slice(s.host[host], hostOffset, q.size) else Zeros(q.size);
      var p := Pending(d, host, device, hostOffset, deviceOffset, q.size, staging, false, false);
      Some(Metal(s.(issued := s.issued[c := CompletionKind]), m.pending[c := p]))
  }

  /** Where a pending copy's buffers still exist, it stays inside them. */
  ghost predicate Fits(s: Store, p: Pending) {
    && |p.staging| == p.size
    && p.host in s.issued && s.issued[p.host] == HostKind && p.device in s.issued && s.issued[p.device] == DeviceKind
    && (p.host in s.host ==> InBounds(s.host[p.host], p.hostOffset, p.size))
    && (p.device in s.device ==> InBounds(s.device[p.device], p.deviceOffset, p.size))
  }

  ghost predicate AllFit(m: Metal) {
    WellTyped(m.store) && forall c <- m.pending :: Fits(m.store, m.pending[c])
  }

  /** The device executes one committed command buffer, once. */
  function Ran(m: Metal, c: Id): Metal
    requires AllFit(m) && c in m.pending
  {
    var s, p := m.store, m.pending[c];
    if p.ran then m
    else if p.device !in s.device then m.(pending := m.pending[c := p.(ran := true)])
    else if p.direction.ToDevice? then
      Metal(s.(device := s.device[p.device := Splice(s.device[p.device], p.deviceOffset, p.staging)]),
            m.pending[c := p.(ran := true)])
    else m.(pending := m.pending[c := p.(ran := true, staging := Slice(s.device[p.device], p.deviceOffset, p.size))])
  }

  /** `Wait`: let the command buffer complete, then make the deferred host copy, once. */
  function Waited(m: Metal, c: Handle): (bool, Metal)
    requires AllFit(m)
  {
    if !Owned(m.store, c) || c.id !in m.pending then (false, m)
    else
      var n := Ran(m, c.id);
      var s, p := n.store, n.pending[c.id];
      if p.direction.ToDevice? || p.copied then (true, n)
      else if p.host !in s.host then (false, n)
      else
        (true, Metal(s.(host := s.host[p.host := Splice(s.host[p.host], p.hostOffset, p.staging)]),
                     n.pending[c.id := p.(copied := true)]))
  }

  /** Here the report says whether the completion was still pending. */
  function MetalRetire(m: Metal, c: Handle, allow: bool): Option<Metal> {
    if c.session != m.store.session || (!allow && c.id in m.store.released) || (!allow && c.id !in m.pending) then None
    else Some(Metal(m.store.(released := m.store.released + {c.id}), m.pending - {c.id}))
  }
}
