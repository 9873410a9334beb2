/** The asynchronous session refines the synchronous one while every transfer is waited for before
    its buffers are touched again. */
module AccelRefinement {
  import opened Prelude
  import opened Accel
  import opened AccelSimulation

  ghost predicate SameShape(a: Store, b: Store) {
    && a.session == b.session && a.queues == b.queues && a.released == b.released && a.issued == b.issued
    && a.host.Keys == b.host.Keys && a.device.Keys == b.device.Keys
  }

  /** Open transfers have been enqueued and not yet waited for. */
  ghost predicate IsBusy(m: Metal, open: set<Id>, i: Id) {
    exists c :: c in open && c in m.pending && (m.pending[c].host == i || m.pending[c].device == i)
  }

  ghost predicate HostTarget(m: Metal, open: set<Id>, i: Id) {
    exists c :: c in open && c in m.pending && m.pending[c].direction.ToHost? && m.pending[c].host == i
  }

  ghost predicate DeviceTarget(m: Metal, open: set<Id>, i: Id) {
    exists c :: c in open && c in m.pending && m.pending[c].direction.ToDevice? && !m.pending[c].ran && m.pending[c].device == i
  }

  ghost predicate HostOk(a: Store, m: Metal, open: set<Id>, i: Id) {
    i in a.host && i in m.store.host && (HostTarget(m, open, i) || a.host[i] == m.store.host[i])
  }

  ghost predicate DeviceOk(a: Store, m: Metal, open: set<Id>, i: Id) {
    i in a.device && i in m.store.device && (DeviceTarget(m, open, i) || a.device[i] == m.store.device[i])
  }

  ghost predicate Reachable(s: Store, p: Pending) { Fits(s, p) && p.host in s.host && p.device in s.device }

  /** What a copy to the host will deliver. */
  ghost function Outcome(s: Store, p: Pending): Bytes
    requires Reachable(s, p)
  {
    if p.ran then p.staging else Slice(s.device[p.device], p.deviceOffset, p.size)
  }

  /** An open transfer: the CPU side already shows its effect. */
  ghost predicate OpenOk(a: Store, s: Store, p: Pending) {
    && Reachable(s, p) && !p.copied && p.host in a.host && p.device in a.device
    && (p.direction.ToHost? ==> a.host[p.host] == Splice(s.host[p.host], p.hostOffset, Outcome(s, p)))
    && (p.direction.ToDevice? && !p.ran ==> a.device[p.device] == Splice(s.device[p.device], p.deviceOffset, p.staging))
  }

  ghost predicate ClosedOk(p: Pending) { p.ran && (p.direction.ToHost? ==> p.copied) }

  ghost predicate Apart(p: Pending, q: Pending) { p.host != q.host && p.device != q.device }

  ghost predicate TransfersOk(a: Store, m: Metal, open: set<Id>) {
    && open <= m.pending.Keys
    && (forall c <- m.pending :: if c in open then OpenOk(a, m.store, m.pending[c]) else ClosedOk(m.pending[c]))
    && (forall c, d :: c in open && d in open && c != d ==> Apart(m.pending[c], m.pending[d]))
  }

  ghost predicate CompletionsOk(m: Metal) {
    && (forall i <- m.store.released :: i in m.store.issued)
    && (forall c <- m.pending :: c in m.store.issued && m.store.issued[c] == CompletionKind && c !in m.store.released)
    && (forall c <- m.store.issued :: m.store.issued[c] == CompletionKind ==> c in m.pending || c in m.store.released)
  }

  ghost predicate Agrees(s: Cpu, m: Metal, open: set<Id>) {
    && AllFit(m) && SameShape(s.store, m.store) && s.completions == m.pending.Keys && CompletionsOk(m)
    && TransfersOk(s.store, m, open)
    && (forall i <- m.store.host :: HostOk(s.store, m, open, i))
    && (forall i <- m.store.device :: DeviceOk(s.store, m, open, i))
  }

  /** The nodes' discipline: nothing else touches the buffers of an open transfer, and a completion
      is retired only after its wait. */
  ghost predicate Disciplined(m: Metal, open: set<Id>, e: Event) {
    && Proper(m.store, e)
    && match e
       case Write(h, _, _) => !IsBusy(m, open, h.id)
       case Read(h, _, _) => !IsBusy(m, open, h.id)
       case Enqueue(_, source, target, _, _, _) => !IsBusy(m, open, source.id) && !IsBusy(m, open, target.id)
       case Retire(c, _) => c.id !in open
       case Free(h, _) => !IsBusy(m, open, h.id)
       case _ => true
  }

  ghost function Opened(open: set<Id>, e: Event, answer: Answer): set<Id> {
    if e.Enqueue? && answer.Done? then open + {e.c}
    else if e.Wait? && answer.Done? then open - {e.completion.id}
    else open
  }

  // ---- Steps that leave the transfers alone ------------------------------------------------------------------

  ghost predicate Untouched(s: Store, t: Store, p: Pending) {
    && p.host in s.host && p.host in t.host && t.host[p.host] == s.host[p.host]
    && p.device in s.device && p.device in t.device && t.device[p.device] == s.device[p.device]
  }

  lemma OpenStays(a: Store, a': Store, s: Store, s': Store, p: Pending)
    requires OpenOk(a, s, p) && Untouched(a, a', p) && Untouched(s, s', p) && Grows(s, s')
    ensures OpenOk(a', s', p)
  {
    FitsStays(s, s', p);
  }

  /** Both stores change away from the open transfers and keep agreeing elsewhere. */
  lemma StoreStep(s: Cpu, m: Metal, open: set<Id>, a': Store, s': Store)
    requires Agrees(s, m, open) && SameShape(a', s') && Grows(m.store, s') && WellTyped(s')
    requires CompletionsOk(m.(store := s'))
    requires forall c <- open :: c in m.pending && Untouched(s.store, a', m.pending[c]) && Untouched(m.store, s', m.pending[c])
    requires forall i <- s'.host :: HostOk(a', m.(store := s'), open, i)
    requires forall i <- s'.device :: DeviceOk(a', m.(store := s'), open, i)
    ensures Agrees(s.(store := a'), m.(store := s'), open)
  {
    hide HostOk, DeviceOk, SameShape, CompletionsOk, Untouched, OpenOk, ClosedOk, Apart, Grows, WellTyped, AllFit;
    AllFitStays(m, s');
    forall c <- m.pending ensures if c in open then OpenOk(a', s', m.pending[c]) else ClosedOk(m.pending[c]) {
      if c in open { OpenStays(s.store, a', m.store, s', m.pending[c]); }
    }
  }

  /** Targets depend on the pending table only. */
  lemma SameTargets(m: Metal, s': Store, open: set<Id>, i: Id)
    ensures HostTarget(m.(store := s'), open, i) == HostTarget(m, open, i)
    ensures DeviceTarget(m.(store := s'), open, i) == DeviceTarget(m, open, i)
  {
  }

  lemma BusyApart(m: Metal, open: set<Id>, i: Id, c: Id)
    requires !IsBusy(m, open, i) && c in open && c in m.pending
    ensures m.pending[c].host != i && m.pending[c].device != i
  {
  }

  /** Away from open transfers both sides hold the same bytes. */
  lemma IdleSame(s: Cpu, m: Metal, open: set<Id>, i: Id)
    requires Agrees(s, m, open) && !IsBusy(m, open, i)
    ensures i in m.store.host ==> i in s.store.host && s.store.host[i] == m.store.host[i]
    ensures i in m.store.device ==> i in s.store.device && s.store.device[i] == m.store.device[i]
    ensures i in s.store.host <==> i in m.store.host
    ensures i in s.store.device <==> i in m.store.device
  {
    hide AllFit, TransfersOk, CompletionsOk;
    assert i in m.store.host ==> HostOk(s.store, m, open, i);
    assert i in m.store.device ==> DeviceOk(s.store, m, open, i);
  }

  lemma OpenLives(s: Cpu, m: Metal, open: set<Id>, c: Id)
    requires Agrees(s, m, open) && c in open
    ensures c in m.pending && OpenOk(s.store, m.store, m.pending[c])
    ensures Untouched(s.store, s.store, m.pending[c]) && Untouched(m.store, m.store, m.pending[c])
  {
    hide AllFit, CompletionsOk, Fits;
  }

  lemma AgreesShape(s: Cpu, m: Metal, open: set<Id>)
    requires Agrees(s, m, open)
    ensures SameShape(s.store, m.store) && WellTyped(m.store) && CompletionsOk(m) && s.completions == m.pending.Keys
    ensures AllFit(m) && open <= m.pending.Keys
  {
  }

  lemma AgreesAt(s: Cpu, m: Metal, open: set<Id>, i: Id)
    requires Agrees(s, m, open)
    ensures i in m.store.host ==> HostOk(s.store, m, open, i)
    ensures i in m.store.device ==> DeviceOk(s.store, m, open, i)
  {
  }

  /** Only the buffer `i` differs between `s` and `t`. */
  ghost predicate OnlyAt(s: Store, t: Store, i: Id) {
    && (forall x :: x != i ==> (x in t.host <==> x in s.host) && (x in s.host ==> t.host[x] == s.host[x]))
    && (forall x :: x != i ==> (x in t.device <==> x in s.device) && (x in s.device ==> t.device[x] == s.device[x]))
  }

  ghost predicate SameAt(a: Store, s: Store, i: Id) {
    && (i in s.host ==> i in a.host && a.host[i] == s.host[i])
    && (i in s.device ==> i in a.device && a.device[i] == s.device[i])
  }

  /** Both sides change one idle buffer, or create or drop it, in the same way. */
  lemma OneBuffer(s: Cpu, m: Metal, open: set<Id>, i: Id, a': Store, s': Store)
    requires Agrees(s, m, open) && !IsBusy(m, open, i) && SameShape(a', s') && Grows(m.store, s') && WellTyped(s')
    requires CompletionsOk(m.(store := s'))
    requires OnlyAt(s.store, a', i) && OnlyAt(m.store, s', i) && SameAt(a', s', i)
    ensures Agrees(s.(store := a'), m.(store := s'), open)
  {
    hide Agrees, CompletionsOk, Grows, WellTyped;
    forall c <- open ensures c in m.pending && Untouched(s.store, a', m.pending[c]) && Untouched(m.store, s', m.pending[c]) {
      OpenLives(s, m, open, c);
      BusyApart(m, open, i, c);
    }
    forall x <- s'.host ensures HostOk(a', m.(store := s'), open, x) {
      SameTargets(m, s', open, x);
      AgreesAt(s, m, open, x);
    }
    forall x <- s'.device ensures DeviceOk(a', m.(store := s'), open, x) {
      SameTargets(m, s', open, x);
      AgreesAt(s, m, open, x);
    }
    StoreStep(s, m, open, a', s');
  }

  lemma WriteAgrees(s: Cpu, m: Metal, open: set<Id>, h: Handle, offset: nat, bytes: Bytes)
    requires Agrees(s, m, open) && !IsBusy(m, open, h.id)
    ensures var a, b := Written(s.store, h, offset, bytes), Written(m.store, h, offset, bytes);
            && a.Some? == b.Some?
            && (a.Some? ==> Agrees(s.(store := a.value), m.(store := b.value), open))
  {
    hide Agrees, Splice, IsBusy, Grows, WellTyped, AllFit;
    IdleSame(s, m, open, h.id);
    AgreesShape(s, m, open);
    var a, b := Written(s.store, h, offset, bytes), Written(m.store, h, offset, bytes);
    if a.Some? {
      WrittenGrows(m.store, h, offset, bytes);
      OneBuffer(s, m, open, h.id, a.value, b.value);
    }
  }

  lemma AllocateAgrees(s: Cpu, m: Metal, open: set<Id>, kind: Kind, id: Id, size: nat)
    requires Agrees(s, m, open) && id !in m.store.issued && kind != CompletionKind
    ensures var a, b := Allocated(s.store, kind, id, size), Allocated(m.store, kind, id, size);
            && a.Some? == b.Some?
            && (a.Some? ==> Agrees(s.(store := a.value), m.(store := b.value), open))
  {
    hide Agrees, IsBusy, Grows, AllFit, Allocated, OnlyAt, SameAt, SameShape, CompletionsOk, WellTyped;
    AgreesShape(s, m, open);
    NewIsIdle(s, m, open, id);
    var a, b := Allocated(s.store, kind, id, size), Allocated(m.store, kind, id, size);
    AllocatedAlike(s.store, m, kind, id, size);
    if a.Some? {
      AllocatedGrows(m.store, kind, id, size);
      OneBuffer(s, m, open, id, a.value, b.value);
    }
  }

  lemma AllocatedAlike(a: Store, m: Metal, kind: Kind, id: Id, size: nat)
    requires SameShape(a, m.store) && WellTyped(m.store) && CompletionsOk(m)
    requires id !in m.store.issued && kind != CompletionKind
    ensures var a', s' := Allocated(a, kind, id, size), Allocated(m.store, kind, id, size);
            && a'.Some? == s'.Some?
            && (a'.Some? ==> SameShape(a'.value, s'.value) && OnlyAt(a, a'.value, id) && OnlyAt(m.store, s'.value, id)
                             && SameAt(a'.value, s'.value, id) && CompletionsOk(m.(store := s'.value)))
  {
    hide CompletionsOk, OnlyAt, SameAt, SameShape;
    AllocatedCompletions(m, kind, id, size);
    AllocatedShape(a, m.store, kind, id, size);
    AllocatedOnly(a, kind, id, size);
    AllocatedOnly(m.store, kind, id, size);
  }

  lemma AllocatedOnly(s: Store, kind: Kind, id: Id, size: nat)
    ensures var t := Allocated(s, kind, id, size); t.Some? ==> OnlyAt(s, t.value, id)
  {
  }

  lemma AllocatedShape(a: Store, s: Store, kind: Kind, id: Id, size: nat)
    requires SameShape(a, s) && WellTyped(s) && id !in s.issued
    ensures var a', s' := Allocated(a, kind, id, size), Allocated(s, kind, id, size);
            a'.Some? == s'.Some? && (a'.Some? ==> SameShape(a'.value, s'.value) && SameAt(a'.value, s'.value, id))
  {
    hide Zeros;
    assert id !in s.host && id !in s.device;
  }

  lemma AllocatedCompletions(m: Metal, kind: Kind, id: Id, size: nat)
    requires CompletionsOk(m) && id !in m.store.issued && kind != CompletionKind
    ensures var t := Allocated(m.store, kind, id, size); t.Some? ==> CompletionsOk(m.(store := t.value))
  {
  }

  lemma NewIsIdle(s: Cpu, m: Metal, open: set<Id>, id: Id)
    requires Agrees(s, m, open) && id !in m.store.issued
    ensures !IsBusy(m, open, id)
  {
    hide CompletionsOk;
    forall c <- m.pending ensures m.pending[c].host != id && m.pending[c].device != id { assert Fits(m.store, m.pending[c]); }
  }

  lemma FreeAgrees(s: Cpu, m: Metal, open: set<Id>, h: Handle, allow: bool)
    requires Agrees(s, m, open) && Proper(m.store, Free(h, allow)) && !IsBusy(m, open, h.id)
    ensures var a, b := Freed(s.store, h, allow), Freed(m.store, h, allow);
            && a.Some? == b.Some?
            && (a.Some? ==> a.value.1 == b.value.1 && Agrees(s.(store := a.value.0), m.(store := b.value.0), open))
  {
    hide Agrees, IsBusy, Grows, AllFit, Freed, OnlyAt, SameAt, SameShape, CompletionsOk, WellTyped;
    AgreesShape(s, m, open);
    var a, b := Freed(s.store, h, allow), Freed(m.store, h, allow);
    FreedAlike(s.store, m, h, allow);
    if a.Some? {
      FreedGrows(m.store, h, allow);
      OneBuffer(s, m, open, h.id, a.value.0, b.value.0);
    }
  }

  lemma FreedAlike(a: Store, m: Metal, h: Handle, allow: bool)
    requires SameShape(a, m.store) && CompletionsOk(m) && Proper(m.store, Free(h, allow))
    ensures var a', s' := Freed(a, h, allow), Freed(m.store, h, allow);
            && a'.Some? == s'.Some?
            && (a'.Some? ==> && a'.value.1 == s'.value.1 && SameShape(a'.value.0, s'.value.0)
                             && OnlyAt(a, a'.value.0, h.id) && OnlyAt(m.store, s'.value.0, h.id)
                             && SameAt(a'.value.0, s'.value.0, h.id) && CompletionsOk(m.(store := s'.value.0)))
  {
  }
}
