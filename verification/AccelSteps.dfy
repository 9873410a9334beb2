/** The steps that start, execute and finish transfers, and the refinement over whole runs. */
module AccelSteps {
  import opened Prelude
  import opened Accel
  import opened AccelSimulation
  import opened AccelRefinement

  /** How the bookkeeping of one transfer may change: the table at `c`, and one buffer of that
      transfer in the store. */
  ghost predicate Advances(m: Metal, n: Metal, c: Id) {
    && c in m.pending && c in n.pending && n.pending == m.pending[c := n.pending[c]]
    && n.pending[c] == m.pending[c].(ran := n.pending[c].ran, copied := n.pending[c].copied, staging := n.pending[c].staging)
    && n.store == m.store.(host := n.store.host, device := n.store.device)
    && (forall i :: i != m.pending[c].host ==> (i in n.store.host <==> i in m.store.host) && (i in m.store.host ==> n.store.host[i] == m.store.host[i]))
    && (forall i :: i != m.pending[c].device ==> (i in n.store.device <==> i in m.store.device) && (i in m.store.device ==> n.store.device[i] == m.store.device[i]))
    && (m.pending[c].host in n.store.host && m.pending[c].device in n.store.device)
  }

  lemma OtherHostOk(s: Cpu, m: Metal, n: Metal, open: set<Id>, open': set<Id>, c: Id, i: Id)
    requires Agrees(s, m, open) && Advances(m, n, c) && open <= open' + {c} && i in n.store.host && i != m.pending[c].host
    ensures HostOk(s.store, n, open', i)
  {
    hide Agrees;
    AgreesAt(s, m, open, i);
    OtherHostTarget(m, n, open, open', c, i);
  }

  lemma OtherDeviceOk(s: Cpu, m: Metal, n: Metal, open: set<Id>, open': set<Id>, c: Id, i: Id)
    requires Agrees(s, m, open) && Advances(m, n, c) && open <= open' + {c} && i in n.store.device && i != m.pending[c].device
    ensures DeviceOk(s.store, n, open', i)
  {
    hide Agrees;
    AgreesAt(s, m, open, i);
    OtherDeviceTarget(m, n, open, open', c, i);
  }

  /** Advancing one open transfer keeps the agreement if its own buffers still agree. */
  lemma AdvanceAgrees(s: Cpu, m: Metal, n: Metal, open: set<Id>, open': set<Id>, c: Id)
    requires Agrees(s, m, open) && c in open && open' <= open && open <= open' + {c}
    requires Advances(m, n, c) && AllFit(n) && Grows(m.store, n.store)
    requires if c in open' then OpenOk(s.store, n.store, n.pending[c]) else ClosedOk(n.pending[c])
    requires HostOk(s.store, n, open', m.pending[c].host) && DeviceOk(s.store, n, open', m.pending[c].device)
    ensures Agrees(s, n, open')
  {
    hide AllFit, Grows, OpenOk, ClosedOk, Agrees, HostOk, DeviceOk;
    AgreesShape(s, m, open);
    forall d <- n.pending ensures if d in open' then OpenOk(s.store, n.store, n.pending[d]) else ClosedOk(n.pending[d]) {
      OthersStay(s, m, n, open, c, d);
    }
    forall i <- n.store.host ensures HostOk(s.store, n, open', i) {
      if i != m.pending[c].host { OtherHostOk(s, m, n, open, open', c, i); }
    }
    forall i <- n.store.device ensures DeviceOk(s.store, n, open', i) {
      if i != m.pending[c].device { OtherDeviceOk(s, m, n, open, open', c, i); }
    }
    SameKeys(s, m, n, open, c);
    ApartStays(s, m, n, open, open', c);
    assert TransfersOk(s.store, n, open');
    AgreesFrom(s, n, open');
  }

  lemma AgreesFrom(s: Cpu, n: Metal, open: set<Id>)
    requires AllFit(n) && SameShape(s.store, n.store) && s.completions == n.pending.Keys && CompletionsOk(n)
    requires TransfersOk(s.store, n, open)
    requires forall i <- n.store.host :: HostOk(s.store, n, open, i)
    requires forall i <- n.store.device :: DeviceOk(s.store, n, open, i)
    ensures Agrees(s, n, open)
  {
  }

  lemma SameKeys(s: Cpu, m: Metal, n: Metal, open: set<Id>, c: Id)
    requires Agrees(s, m, open) && c in open && Advances(m, n, c)
    ensures SameShape(s.store, n.store) && s.completions == n.pending.Keys && CompletionsOk(n)
  {
    hide AllFit, HostOk, DeviceOk, ClosedOk;
    var p := m.pending[c];
    assert OpenOk(s.store, m.store, p);
    assert n.store.host.Keys == m.store.host.Keys && n.store.device.Keys == m.store.device.Keys;
  }

  lemma ApartStays(s: Cpu, m: Metal, n: Metal, open: set<Id>, open': set<Id>, c: Id)
    requires Agrees(s, m, open) && Advances(m, n, c) && open' <= open
    ensures open' <= n.pending.Keys
    ensures forall x, y :: x in open' && y in open' && x != y ==> Apart(n.pending[x], n.pending[y])
  {
    hide AllFit, HostOk, DeviceOk, ClosedOk, OpenOk, CompletionsOk;
    forall x, y | x in open' && y in open' && x != y ensures Apart(n.pending[x], n.pending[y]) {
      assert Apart(m.pending[x], m.pending[y]);
    }
  }

  lemma OthersStay(s: Cpu, m: Metal, n: Metal, open: set<Id>, c: Id, d: Id)
    requires Agrees(s, m, open) && c in open && Advances(m, n, c) && Grows(m.store, n.store)
    ensures d in m.pending && d != c ==>
      d in n.pending && if d in open then OpenOk(s.store, n.store, n.pending[d]) else ClosedOk(n.pending[d])
  {
    hide AllFit, HostOk, DeviceOk, ClosedOk, CompletionsOk, Grows, OpenOk;
    if d in m.pending && d != c && d in open {
      OpenLives(s, m, open, d);
      assert Apart(m.pending[c], m.pending[d]);
      OpenStays(s.store, s.store, m.store, n.store, m.pending[d]);
    }
  }

  lemma OtherHostTarget(m: Metal, n: Metal, open: set<Id>, open': set<Id>, c: Id, i: Id)
    requires Advances(m, n, c) && open <= open' + {c} && i != m.pending[c].host
    ensures HostTarget(m, open, i) ==> HostTarget(n, open', i)
  {
    if HostTarget(m, open, i) {
      var d :| d in open && d in m.pending && m.pending[d].direction.ToHost? && m.pending[d].host == i;
      assert d in n.pending && n.pending[d] == m.pending[d];
    }
  }

  lemma OtherDeviceTarget(m: Metal, n: Metal, open: set<Id>, open': set<Id>, c: Id, i: Id)
    requires Advances(m, n, c) && open <= open' + {c} && i != m.pending[c].device
    ensures DeviceTarget(m, open, i) ==> DeviceTarget(n, open', i)
  {
    if DeviceTarget(m, open, i) {
      var d :| d in open && d in m.pending && m.pending[d].direction.ToDevice? && !m.pending[d].ran && m.pending[d].device == i;
      assert d in n.pending && n.pending[d] == m.pending[d];
    }
  }

  /** The device executes an open transfer: the CPU session sees nothing. */
  lemma RunAgrees(s: Cpu, m: Metal, open: set<Id>, c: Id)
    requires Agrees(s, m, open) && c in m.pending
    ensures AllFit(m) && Agrees(s, Ran(m, c), open)
  {
    hide Agrees, AllFit, Grows, HostTarget, DeviceTarget, Fits;
    AgreesShape(s, m, open);
    var n, p := Ran(m, c), m.pending[c];
    if !p.ran {
      assert c in open by { NotRanIsOpen(s, m, open, c); }
      RanFits(m, c);
      OpenLives(s, m, open, c);
      AgreesAt(s, m, open, p.host);
      AgreesAt(s, m, open, p.device);
      FitOf(n, c);
      TargetsAfterRun(m, open, c);
      AdvanceAgrees(s, m, n, open, open, c);
    }
  }

  lemma NotRanIsOpen(s: Cpu, m: Metal, open: set<Id>, c: Id)
    requires Agrees(s, m, open) && c in m.pending && !m.pending[c].ran
    ensures c in open
  {
    hide AllFit, HostOk, DeviceOk, CompletionsOk, OpenOk;
    assert if c in open then OpenOk(s.store, m.store, m.pending[c]) else ClosedOk(m.pending[c]);
  }

  lemma TargetsAfterRun(m: Metal, open: set<Id>, c: Id)
    requires AllFit(m) && c in m.pending && c in open
    ensures HostTarget(m, open, m.pending[c].host) ==> HostTarget(Ran(m, c), open, m.pending[c].host)
    ensures m.pending[c].direction.ToHost? && DeviceTarget(m, open, m.pending[c].device) ==>
            DeviceTarget(Ran(m, c), open, m.pending[c].device)
  {
    hide AllFit, Fits;
    var n, p := Ran(m, c), m.pending[c];
    if HostTarget(m, open, p.host) {
      var d :| d in open && d in m.pending && m.pending[d].direction.ToHost? && m.pending[d].host == p.host;
      assert d in n.pending && n.pending[d].direction.ToHost? && n.pending[d].host == p.host;
    }
    if p.direction.ToHost? && DeviceTarget(m, open, p.device) {
      var d :| d in open && d in m.pending && m.pending[d].direction.ToDevice? && !m.pending[d].ran && m.pending[d].device == p.device;
      assert d in n.pending && n.pending[d] == m.pending[d];
    }
  }

  /** Closing a transfer whose command buffer has run; a copy to the host is made now. */
  lemma CloseAgrees(s: Cpu, m: Metal, n: Metal, open: set<Id>, c: Id)
    requires Agrees(s, m, open) && c in open && m.pending[c].ran && AllFit(n)
    requires var p := m.pending[c];
             if p.direction.ToDevice? then n == m
             else p.host in m.store.host && InBounds(m.store.host[p.host], p.hostOffset, |p.staging|)
                  && n == Metal(m.store.(host := m.store.host[p.host := Splice(m.store.host[p.host], p.hostOffset, p.staging)]),
                                m.pending[c := p.(copied := true)])
    ensures Agrees(s, n, open - {c})
  {
    hide Agrees, AllFit, Grows, HostTarget, DeviceTarget, Fits, Splice, Apart;
    OpenLives(s, m, open, c);
    AgreesShape(s, m, open);
    var p := m.pending[c];
    AgreesAt(s, m, open, p.host);
    AgreesAt(s, m, open, p.device);
    FitOf(m, c);
    assert Grows(m.store, n.store) by { CloseGrows(m, n, c); }
    OwnTargets(s, m, n, open, c);
    AdvanceAgrees(s, m, n, open, open - {c}, c);
  }

  lemma CloseGrows(m: Metal, n: Metal, c: Id)
    requires c in m.pending && Fits(m.store, m.pending[c])
    requires var p := m.pending[c];
             n == m || (p.host in m.store.host
                        && n.store == m.store.(host := m.store.host[p.host := Splice(m.store.host[p.host], p.hostOffset, p.staging)]))
    ensures Grows(m.store, n.store)
  {
  }

  /** No other open transfer aims at the buffers of `c`. */
  lemma OwnTargets(s: Cpu, m: Metal, n: Metal, open: set<Id>, c: Id)
    requires Agrees(s, m, open) && c in open && m.pending[c].ran
    ensures m.pending[c].direction.ToDevice? ==> !HostTarget(m, open, m.pending[c].host)
    ensures !DeviceTarget(m, open, m.pending[c].device)
  {
    hide AllFit, HostOk, DeviceOk, CompletionsOk, OpenOk, ClosedOk;
    var p := m.pending[c];
    forall d | d in open && d in m.pending && d != c ensures m.pending[d].host != p.host && m.pending[d].device != p.device {
      assert Apart(m.pending[c], m.pending[d]);
    }
  }

  lemma WaitAgrees(s: Cpu, m: Metal, open: set<Id>, c: Handle)
    requires Agrees(s, m, open)
    ensures AllFit(m) && CpuWaits(s, c) == Waited(m, c).0
    ensures Agrees(s, Waited(m, c).1, if CpuWaits(s, c) then open - {c.id} else open)
  {
    hide Agrees, AllFit, Ran, Fits;
    AgreesShape(s, m, open);
    if CpuWaits(s, c) {
      RunAgrees(s, m, open, c.id);
      RanFits(m, c.id);
      RanKeepsKeys(m, c.id);
      WaitedFits(m, c);
      RanIsRan(m, c.id);
      var n := Ran(m, c.id);
      if c.id in open {
        OpenLives(s, n, open, c.id);
        FitOf(n, c.id);
        CloseAgrees(s, n, Waited(m, c).1, open, c.id);
      } else {
        ClosedIsClosed(s, n, open, c.id);
        assert open - {c.id} == open;
      }
    }
  }

  lemma RanIsRan(m: Metal, c: Id)
    requires AllFit(m) && c in m.pending
    ensures c in Ran(m, c).pending && Ran(m, c).pending[c].ran && Ran(m, c).store.released == m.store.released
  {
  }

  lemma ClosedIsClosed(s: Cpu, m: Metal, open: set<Id>, c: Id)
    requires Agrees(s, m, open) && c in m.pending && c !in open
    ensures ClosedOk(m.pending[c])
  {
    hide AllFit, HostOk, DeviceOk, CompletionsOk, OpenOk;
  }

  /** A wait that is not the first changes nothing at all. */
  lemma SecondWaitChangesNothing(s: Cpu, m: Metal, open: set<Id>, c: Handle)
    requires Agrees(s, m, open) && c.id !in open
    ensures AllFit(m) && Waited(m, c).1 == m
  {
    hide Agrees, AllFit, Fits;
    AgreesShape(s, m, open);
    if c.id in m.pending { ClosedIsClosed(s, m, open, c.id); }
  }

  lemma RetireAgrees(s: Cpu, m: Metal, open: set<Id>, c: Handle, allow: bool)
    requires Agrees(s, m, open) && Proper(m.store, Retire(c, allow)) && c.id !in open
    ensures var a, b := CpuRetire(s, c, allow), MetalRetire(m, c, allow);
            a.Some? == b.Some? && (a.Some? ==> Agrees(a.value, b.value, open))
    ensures c.session == m.store.session ==> (c.id in m.pending <==> c.id !in m.store.released)
  {
    hide Agrees;
    AgreesShape(s, m, open);
    var a, b := CpuRetire(s, c, allow), MetalRetire(m, c, allow);
    if a.Some? {
      RetiredFits(m, c, allow);
      hide AllFit, Fits;
      RetiredTransfers(s, m, open, c.id, a.value, b.value);
    }
  }

  lemma RetiredTransfers(s: Cpu, m: Metal, open: set<Id>, c: Id, a: Cpu, b: Metal)
    requires Agrees(s, m, open) && c !in open && AllFit(b)
    requires c in m.store.issued && m.store.issued[c] == CompletionKind
    requires a == Cpu(s.store.(released := s.store.released + {c}), s.completions - {c})
    requires b == Metal(m.store.(released := m.store.released + {c}), m.pending - {c})
    ensures Agrees(a, b, open)
  {
    hide Agrees, AllFit, HostTarget, DeviceTarget, OpenOk, ClosedOk, Apart;
    AgreesShape(s, m, open);
    forall i <- b.store.host ensures HostOk(a.store, b, open, i) { AgreesAt(s, m, open, i); RetiredTargets(m, b, open, c, i); }
    forall i <- b.store.device ensures DeviceOk(a.store, b, open, i) { AgreesAt(s, m, open, i); RetiredTargets(m, b, open, c, i); }
    forall d <- b.pending ensures if d in open then OpenOk(a.store, b.store, b.pending[d]) else ClosedOk(b.pending[d]) {
      if d in open {
        OpenLives(s, m, open, d);
        OpenStays(s.store, a.store, m.store, b.store, m.pending[d]);
      } else {
        ClosedIsClosed(s, m, open, d);
      }
    }
    assert forall x, y :: x in open && y in open && x != y ==> Apart(b.pending[x], b.pending[y]) by { AllApart(s, m, open); }
    AgreesFrom(a, b, open);
  }

  lemma AllApart(s: Cpu, m: Metal, open: set<Id>)
    requires Agrees(s, m, open)
    ensures open <= m.pending.Keys
    ensures forall x, y :: x in open && y in open && x != y ==> Apart(m.pending[x], m.pending[y])
  {
  }

  lemma RetiredTargets(m: Metal, b: Metal, open: set<Id>, c: Id, i: Id)
    requires c !in open && b.pending == m.pending - {c}
    ensures HostTarget(m, open, i) ==> HostTarget(b, open, i)
    ensures DeviceTarget(m, open, i) ==> DeviceTarget(b, open, i)
  {
    if HostTarget(m, open, i) {
      var d :| d in open && d in m.pending && m.pending[d].direction.ToHost? && m.pending[d].host == i;
      assert d in b.pending && b.pending[d] == m.pending[d];
    }
    if DeviceTarget(m, open, i) {
      var d :| d in open && d in m.pending && m.pending[d].direction.ToDevice? && !m.pending[d].ran && m.pending[d].device == i;
      assert d in b.pending && b.pending[d] == m.pending[d];
    }
  }

  // ---- Enqueue -------------------------------------------------------------------------------------------------

  /** Both sessions accept the same requests. */
  lemma SameDecision(s: Cpu, m: Metal, open: set<Id>, e: Event)
    requires Agrees(s, m, open) && e.Enqueue? && Disciplined(m, open, e)
    ensures CpuEnqueue(s, e.source, e.target, e.queue, e.request, e.c).Some?
            <==> MetalEnqueue(m, e.direction, e.source, e.target, e.queue, e.request, e.c).Some?
  {
    hide Agrees, IsBusy, AllFit, CompletionsOk, Splice, Slice;
    AgreesShape(s, m, open);
    IdleSame(s, m, open, e.source.id);
    IdleSame(s, m, open, e.target.id);
  }

  lemma EnqueueAgrees(s: Cpu, m: Metal, open: set<Id>, e: Event)
    requires Agrees(s, m, open) && e.Enqueue? && Disciplined(m, open, e)
    ensures var a := CpuEnqueue(s, e.source, e.target, e.queue, e.request, e.c);
            var b := MetalEnqueue(m, e.direction, e.source, e.target, e.queue, e.request, e.c);
            a.Some? == b.Some? && (a.Some? ==> Agrees(a.value, b.value, open + {e.c}))
  {
    hide Agrees, AllFit, CpuEnqueue, MetalEnqueue, IsBusy;
    SameDecision(s, m, open, e);
    AgreesShape(s, m, open);
    var a := CpuEnqueue(s, e.source, e.target, e.queue, e.request, e.c);
    var b := MetalEnqueue(m, e.direction, e.source, e.target, e.queue, e.request, e.c);
    if a.Some? {
      EnqueuedFits(m, e.direction, e.source, e.target, e.queue, e.request, e.c);
      EnqueuedOpen(s, m, open, e);
      EnqueuedRest(s, m, open, e);
      AgreesFrom(a.value, b.value, open + {e.c});
    }
  }

  /** The new transfer is open and consistent; nothing but its target changed. */
  lemma EnqueuedOpen(s: Cpu, m: Metal, open: set<Id>, e: Event)
    requires Agrees(s, m, open) && e.Enqueue? && Disciplined(m, open, e)
    requires MetalEnqueue(m, e.direction, e.source, e.target, e.queue, e.request, e.c).Some?
    ensures var a := CpuEnqueue(s, e.source, e.target, e.queue, e.request, e.c);
            var n := MetalEnqueue(m, e.direction, e.source, e.target, e.queue, e.request, e.c).value;
            && a.Some? && n.pending == m.pending[e.c := n.pending[e.c]] && e.c !in m.pending
            && a.value.completions == s.completions + {e.c}
            && OpenOk(a.value.store, n.store, n.pending[e.c]) && !n.pending[e.c].ran
            && n.store == m.store.(issued := m.store.issued[e.c := CompletionKind])
            && a.value.store == s.store.(issued := m.store.issued[e.c := CompletionKind], host := a.value.store.host, device := a.value.store.device)
            && (if e.direction.ToHost?
                then n.pending[e.c].host == e.target.id && n.pending[e.c].device == e.source.id
                     && OnlyAt(s.store, a.value.store, e.target.id) && a.value.store.device == s.store.device
                else n.pending[e.c].device == e.target.id && n.pending[e.c].host == e.source.id
                     && OnlyAt(s.store, a.value.store, e.target.id) && a.value.store.host == s.store.host)
            && n.pending[e.c].direction == e.direction
            && a.value.store.host.Keys == s.store.host.Keys && a.value.store.device.Keys == s.store.device.Keys
  {
    hide Agrees, IsBusy, AllFit, Splice, Slice;
    AgreesShape(s, m, open);
    SameDecision(s, m, open, e);
    IdleSame(s, m, open, e.source.id);
    IdleSame(s, m, open, e.target.id);
    assert e.c !in m.pending by { assert CompletionsOk(m); }
  }

  lemma EnqueuedRest(s: Cpu, m: Metal, open: set<Id>, e: Event)
    requires Agrees(s, m, open) && e.Enqueue? && Disciplined(m, open, e)
    requires MetalEnqueue(m, e.direction, e.source, e.target, e.queue, e.request, e.c).Some?
    ensures var a := CpuEnqueue(s, e.source, e.target, e.queue, e.request, e.c);
            var n := MetalEnqueue(m, e.direction, e.source, e.target, e.queue, e.request, e.c).value;
            && a.Some? && SameShape(a.value.store, n.store) && a.value.completions == n.pending.Keys && CompletionsOk(n)
            && TransfersOk(a.value.store, n, open + {e.c})
            && (forall i <- n.store.host :: HostOk(a.value.store, n, open + {e.c}, i))
            && (forall i <- n.store.device :: DeviceOk(a.value.store, n, open + {e.c}, i))
  {
    hide Agrees, IsBusy, AllFit, CpuEnqueue, MetalEnqueue, OpenOk, ClosedOk, HostTarget, DeviceTarget;
    EnqueuedOpen(s, m, open, e);
    AgreesShape(s, m, open);
    var a := CpuEnqueue(s, e.source, e.target, e.queue, e.request, e.c).value;
    var n := MetalEnqueue(m, e.direction, e.source, e.target, e.queue, e.request, e.c).value;
    var more := open + {e.c};
    EnqueuedKeys(s.store, a.store, m.store, n.store, e);
    forall d <- n.pending ensures if d in more then OpenOk(a.store, n.store, n.pending[d]) else ClosedOk(n.pending[d]) {
      if d in open { OlderOpen(s, m, open, e, a.store, n.store, d); }
      else if d != e.c { ClosedIsClosed(s, m, open, d); }
    }
    forall x, y | x in more && y in more && x != y ensures Apart(n.pending[x], n.pending[y]) {
      AllApart(s, m, open);
      if x != e.c { BusyApart(m, open, e.source.id, x); BusyApart(m, open, e.target.id, x); }
      if y != e.c { BusyApart(m, open, e.source.id, y); BusyApart(m, open, e.target.id, y); }
    }
    forall i <- n.store.host ensures HostOk(a.store, n, more, i) {
      AgreesAt(s, m, open, i);
      MoreTargets(m, n, open, e.c, i);
    }
    forall i <- n.store.device ensures DeviceOk(a.store, n, more, i) {
      AgreesAt(s, m, open, i);
      MoreTargets(m, n, open, e.c, i);
    }
  }

  lemma EnqueuedKeys(a: Store, a': Store, s: Store, s': Store, e: Event)
    requires SameShape(a, s) && e.Enqueue?
    requires s' == s.(issued := s.issued[e.c := CompletionKind])
    requires a' == a.(issued := s.issued[e.c := CompletionKind], host := a'.host, device := a'.device)
    requires a'.host.Keys == a.host.Keys && a'.device.Keys == a.device.Keys
    ensures SameShape(a', s')
  {
  }

  lemma OlderOpen(s: Cpu, m: Metal, open: set<Id>, e: Event, a': Store, s': Store, d: Id)
    requires Agrees(s, m, open) && e.Enqueue? && !IsBusy(m, open, e.target.id) && d in open
    requires OnlyAt(s.store, a', e.target.id) && s' == m.store.(issued := m.store.issued[e.c := CompletionKind])
    requires e.c !in m.store.issued
    ensures d in m.pending && OpenOk(a', s', m.pending[d])
  {
    hide Agrees, IsBusy, AllFit, OpenOk;
    OpenLives(s, m, open, d);
    BusyApart(m, open, e.target.id, d);
    OpenStays(s.store, a', m.store, s', m.pending[d]);
  }

  lemma MoreTargets(m: Metal, n: Metal, open: set<Id>, c: Id, i: Id)
    requires c in n.pending && n.pending == m.pending[c := n.pending[c]] && c !in m.pending && open <= m.pending.Keys
    ensures HostTarget(m, open, i) ==> HostTarget(n, open + {c}, i)
    ensures DeviceTarget(m, open, i) ==> DeviceTarget(n, open + {c}, i)
    ensures n.pending[c].direction.ToHost? ==> HostTarget(n, open + {c}, n.pending[c].host)
    ensures n.pending[c].direction.ToDevice? && !n.pending[c].ran ==> DeviceTarget(n, open + {c}, n.pending[c].device)
  {
    if HostTarget(m, open, i) {
      var d :| d in open && d in m.pending && m.pending[d].direction.ToHost? && m.pending[d].host == i;
      assert d in open + {c} && n.pending[d] == m.pending[d];
    }
    if DeviceTarget(m, open, i) {
      var d :| d in open && d in m.pending && m.pending[d].direction.ToDevice? && !m.pending[d].ran && m.pending[d].device == i;
      assert d in open + {c} && n.pending[d] == m.pending[d];
    }
    assert c in open + {c};
  }

  // ---- The refinement -----------------------------------------------------------------------------------------

  /** A completion of this session is released a second time, with permission to do so. */
  predicate RetiresAgain(s: Store, e: Event) {
    e.Retire? && e.allow && e.completion.session == s.session && e.completion.id in s.released
  }

  /** One disciplined step: the agreement continues, and the answers are the same unless a
      completion is retired again, when the CPU session reports `released` and Metal does not. */
  lemma StepAgrees(s: Cpu, m: Metal, open: set<Id>, e: Event)
    requires Agrees(s, m, open) && Disciplined(m, open, e)
    ensures AllFit(m) && (CpuNext(s, e).1 == MetalNext(m, e).1 <==> !RetiresAgain(m.store, e))
    ensures Agrees(CpuNext(s, e).0, MetalNext(m, e).0, Opened(open, e, CpuNext(s, e).1))
  {
    hide Agrees, AllFit, IsBusy, Waited, Ran, MetalEnqueue, CpuEnqueue, Freed, Written, Allocated, CompletionsOk, WellTyped;
    AgreesShape(s, m, open);
    match e
    case Allocate(kind, id, size) => AllocateAgrees(s, m, open, kind, id, size);
    case Write(h, offset, bytes) => WriteAgrees(s, m, open, h, offset, bytes);
    case Read(h, offset, size) => IdleSame(s, m, open, h.id);
    case Enqueue(d, source, target, queue, q, c) => EnqueueAgrees(s, m, open, e);
    case Wait(c) => WaitAgrees(s, m, open, c);
    case Retire(c, allow) => RetireAgrees(s, m, open, c, allow);
    case Free(h, allow) => FreeAgrees(s, m, open, h, allow);
    case Run(c) => if c in m.pending { RunAgrees(s, m, open, c); }
  }

  datatype Pair = Pair(cpu: Cpu, metal: Metal, open: set<Id>)

  /** Both sessions driven by the same disciplined events from the same idle store. */
  ghost predicate IsRun(run: seq<Pair>, events: seq<Event>) {
    && |run| == |events| + 1 && IsFirst(run[0])
    && forall i :: 0 <= i < |events| ==> IsStep(run[i], events[i], run[i + 1])
  }

  ghost predicate IsStep(p: Pair, e: Event, q: Pair) {
    && AllFit(p.metal) && Disciplined(p.metal, p.open, e)
    && q == Pair(CpuNext(p.cpu, e).0, MetalNext(p.metal, e).0, Opened(p.open, e, MetalNext(p.metal, e).1))
  }

  ghost predicate IsFirst(p: Pair) {
    && p.open == {} && p.cpu.completions == {} && p.metal.pending == map[]
    && p.cpu.store == p.metal.store && WellTyped(p.cpu.store)
    && (forall i <- p.cpu.store.released :: i in p.cpu.store.issued)
    && (forall i <- p.cpu.store.issued :: p.cpu.store.issued[i] != CompletionKind)
  }

  lemma FirstAgrees(p: Pair)
    requires IsFirst(p)
    ensures Agrees(p.cpu, p.metal, p.open)
  {
  }

  lemma NextAgrees(p: Pair, e: Event, q: Pair)
    requires Agrees(p.cpu, p.metal, p.open) && IsStep(p, e, q)
    ensures Agrees(q.cpu, q.metal, q.open)
  {
    hide Agrees, Disciplined, CpuNext, MetalNext, AllFit;
    StepAgrees(p.cpu, p.metal, p.open, e);
  }

  lemma {:induction false} RunAgreesAt(run: seq<Pair>, events: seq<Event>, i: nat)
    requires IsRun(run, events) && i < |run|
    ensures Agrees(run[i].cpu, run[i].metal, run[i].open)
  {
    hide Agrees, IsStep, IsFirst;
    if i == 0 {
      FirstAgrees(run[0]);
    } else {
      RunAgreesAt(run, events, i - 1);
      NextAgrees(run[i - 1], events[i - 1], run[i]);
    }
  }

  /** Over every disciplined run the two sessions answer alike exactly as long as no completion is
      retired again, and whenever no transfer is open they hold the same bytes everywhere. */
  lemma MetalRefinesCpu(run: seq<Pair>, events: seq<Event>, i: nat)
    requires IsRun(run, events) && i < |run|
    ensures i < |events| ==>
      && AllFit(run[i].metal)
      && (CpuNext(run[i].cpu, events[i]).1 == MetalNext(run[i].metal, events[i]).1 <==> !RetiresAgain(run[i].metal.store, events[i]))
    ensures run[i].open == {} ==> run[i].cpu.store == run[i].metal.store
  {
    RunAgreesAt(run, events, i);
    hide IsRun, CpuNext, MetalNext, AllFit, Disciplined;
    if run[i].open == {} { ClosedAgreement(run[i].cpu, run[i].metal); }
    if i < |events| {
      assert IsStep(run[i], events[i], run[i + 1]) by { RunStep(run, events, i); }
      StepAgrees(run[i].cpu, run[i].metal, run[i].open, events[i]);
    }
  }

  lemma RunStep(run: seq<Pair>, events: seq<Event>, i: nat)
    requires IsRun(run, events) && i < |events|
    ensures IsStep(run[i], events[i], run[i + 1])
  {
    hide IsStep, IsFirst;
  }

  lemma ClosedAgreement(s: Cpu, m: Metal)
    requires Agrees(s, m, {})
    ensures s.store == m.store
  {
    hide AllFit, TransfersOk, CompletionsOk;
    assert forall i <- m.store.host :: HostOk(s.store, m, {}, i);
    assert forall i <- m.store.device :: DeviceOk(s.store, m, {}, i);
    assert s.store.host == m.store.host && s.store.device == m.store.device;
  }

  // ---- A run on which the answers differ -------------------------------------------------------------------------

  ghost predicate Reaches(p: Pair) {
    exists run: seq<Pair>, events: seq<Event> :: IsRun(run, events) && run[|run| - 1] == p
  }

  lemma ReachesNext(p: Pair, e: Event, q: Pair)
    requires Reaches(p) && IsStep(p, e, q)
    ensures Reaches(q)
  {
    hide IsStep;
    var run: seq<Pair>, events: seq<Event> :| IsRun(run, events) && run[|run| - 1] == p;
    var run', events' := run + [q], events + [e];
    forall i | 0 <= i < |events'| ensures IsStep(run'[i], events'[i], run'[i + 1]) {
      if i < |events| { assert IsStep(run[i], events[i], run[i + 1]); }
    }
    assert IsRun(run', events') && run'[|run'| - 1] == q;
  }

  /** One host buffer, one device buffer of one byte each, and a queue. */
  function Bench(): Store {
    Store(0, map[1 := [0]], map[2 := [0]], {3}, {}, map[1 := HostKind, 2 := DeviceKind, 3 := QueueKind])
  }

  function Retired(released: set<Id>): Store { Bench().(released := released, issued := Bench().issued[4 := CompletionKind]) }

  function Transfer(ran: bool): Pending { Pending(ToDevice, 1, 2, 0, 0, 1, [0], ran, false) }

  lemma BenchReached()
    ensures Reaches(Pair(Cpu(Bench(), {}), Metal(Bench(), map[]), {}))
  {
    var p := Pair(Cpu(Bench(), {}), Metal(Bench(), map[]), {});
    assert IsRun([p], []);
  }

  lemma SentReached()
    ensures Reaches(Pair(Cpu(Retired({}), {4}), Metal(Retired({}), map[4 := Transfer(false)]), {4}))
  {
    hide Reaches;
    BenchReached();
    var e := Enqueue(ToDevice, Handle(0, 1), Handle(0, 2), Handle(0, 3), Request(1, 0, 0), 4);
    var p := Pair(Cpu(Bench(), {}), Metal(Bench(), map[]), {});
    var q := Pair(Cpu(Retired({}), {4}), Metal(Retired({}), map[4 := Transfer(false)]), {4});
    var byte: Bytes := [0];
    assert Slice(byte, 0, 1) == byte && Splice(byte, 0, byte) == byte;
    assert Find(Bench(), 1) == Some(byte) && Find(Bench(), 2) == Some(byte);
    assert Bench().device[2 := byte] == Bench().device;
    assert Replaced(Bench(), 2, byte) == Bench();
    assert Copied(Bench(), Handle(0, 1), Handle(0, 2), Handle(0, 3), Request(1, 0, 0)) == Some(Bench());
    assert p.cpu.completions + {4} == {4};
    assert CpuNext(p.cpu, e) == (q.cpu, Done);
    assert MetalNext(p.metal, e) == (q.metal, Done);
    ReachesNext(p, e, q);
  }

  lemma WaitedReached()
    ensures Reaches(Pair(Cpu(Retired({}), {4}), Metal(Retired({}), map[4 := Transfer(true)]), {}))
  {
    hide Reaches;
    SentReached();
    var e := Wait(Handle(0, 4));
    var p := Pair(Cpu(Retired({}), {4}), Metal(Retired({}), map[4 := Transfer(false)]), {4});
    var q := Pair(Cpu(Retired({}), {4}), Metal(Retired({}), map[4 := Transfer(true)]), {});
    var byte: Bytes := [0];
    assert Splice(byte, 0, byte) == byte && Retired({}).device[2 := byte] == Retired({}).device;
    assert AllFit(p.metal);
    assert map[4 := Transfer(false)][4 := Transfer(true)] == map[4 := Transfer(true)];
    assert Ran(p.metal, 4) == q.metal;
    assert Waited(p.metal, Handle(0, 4)) == (true, q.metal);
    ReachesNext(p, e, q);
  }

  /** After a transfer, its wait and its release, a second release is reported differently. */
  lemma SecondRetireIsReportedDifferently()
    ensures exists p: Pair :: Reaches(p) && AllFit(p.metal) && Disciplined(p.metal, p.open, Retire(Handle(0, 4), true))
              && CpuNext(p.cpu, Retire(Handle(0, 4), true)).1 == Released(true)
              && MetalNext(p.metal, Retire(Handle(0, 4), true)).1 == Released(false)
  {
    hide Reaches;
    WaitedReached();
    var e := Retire(Handle(0, 4), false);
    var p := Pair(Cpu(Retired({}), {4}), Metal(Retired({}), map[4 := Transfer(true)]), {});
    var q := Pair(Cpu(Retired({4}), {}), Metal(Retired({4}), map[]), {});
    assert p.metal.pending - {4} == map[];
    ReachesNext(p, e, q);
    assert Reaches(q) && AllFit(q.metal);
  }
}
