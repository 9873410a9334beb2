/** The transfer nodes as objects: lease vectors that grow with every execution and empty on stop. */
module TransferNodesObject {
  import opened Prelude
  import opened Accel
  import opened AccelCpu
  import opened AccelNodes
  import Nodes = AccelNodes

  ghost predicate Typed(session: nat, issued: map<Id, Kind>, leases: seq<Handle>, kind: Kind) {
    forall h <- leases :: h.session == session ==> h.id in issued && issued[h.id] == kind
  }

  ghost predicate Known(next: Id, leases: seq<Completion>) {
    forall c <- leases :: c.event < next && c.handle.id < next
  }

  /** Every lease has the kind of the list it is on. */
  ghost predicate LeasesKnown(session: nat, issued: map<Id, Kind>, next: Id, l: Leases) {
    && Typed(session, issued, l.ingress, HostKind) && Typed(session, issued, l.host, HostKind)
    && Typed(session, issued, l.device, DeviceKind) && Typed(session, issued, l.queues, QueueKind)
    && Known(next, l.sent) && Known(next, l.returned)
  }

  ghost predicate Extends(issued: map<Id, Kind>, issued': map<Id, Kind>) {
    forall i <- issued :: i in issued' && issued'[i] == issued[i]
  }

  /** Leases stay known while the session issues more identifiers. */
  lemma StaysKnown(session: nat, issued: map<Id, Kind>, issued': map<Id, Kind>, next: Id, next': Id, l: Leases)
    requires LeasesKnown(session, issued, next, l) && next <= next'
    requires Extends(issued, issued')
    ensures LeasesKnown(session, issued', next', l)
  {
  }

  ghost predicate IsKind(issued: map<Id, Kind>, h: Handle, kind: Kind) { h.id in issued && issued[h.id] == kind }

  lemma KnownIngress(session: nat, issued: map<Id, Kind>, next: Id, l: Leases, h: Handle)
    requires LeasesKnown(session, issued, next, l) && IsKind(issued, h, HostKind)
    ensures LeasesKnown(session, issued, next, l.(ingress := l.ingress + [h]))
  {
  }

  lemma KnownSent(session: nat, issued: map<Id, Kind>, next: Id, l: Leases, d: Handle, q: Handle, c: Completion)
    requires LeasesKnown(session, issued, next, l) && IsKind(issued, d, DeviceKind) && IsKind(issued, q, QueueKind)
    requires c.event < next && c.handle.id < next
    ensures LeasesKnown(session, issued, next, l.(device := l.device + [d], queues := l.queues + [q], sent := l.sent + [c]))
  {
  }

  lemma KnownReturned(session: nat, issued: map<Id, Kind>, next: Id, l: Leases, h: Handle, c: Completion)
    requires LeasesKnown(session, issued, next, l) && IsKind(issued, h, HostKind) && c.event < next && c.handle.id < next
    ensures LeasesKnown(session, issued, next, l.(host := l.host + [h], returned := l.returned + [c]))
  {
  }

  class TransferNodes {
    const session: CpuSession
    var ingress: seq<Handle>
    var device: seq<Handle>
    var queues: seq<Handle>
    var sent: seq<Completion>
    var host: seq<Handle>
    var returned: seq<Completion>

    ghost function View(): Sys
      reads this, session
    {
      Sys(session.View(), session.events, session.next, Leases(ingress, device, queues, sent, host, returned))
    }

    ghost predicate Valid()
      reads this, session
    {
      session.Valid() && LeasesKnown(session.session, session.issued, session.next, View().leases)
    }

    constructor (s: CpuSession)
      requires s.Valid()
      ensures Valid() && session == s && View() == Sys(s.View(), s.events, s.next, Leases([], [], [], [], [], []))
    {
      session := s;
      ingress, device, queues, sent, host, returned := [], [], [], [], [], [];
    }

    /** `HostIngressNode::Execute`. */
    method ExecuteIngress(bytes: Bytes) returns (r: Option<HostToken>)
      requires Valid()
      modifies this`ingress, session`next, session`issued, session`host
      ensures Valid() && (View(), r) == Nodes.Ingress(old(View()), bytes)
    {
      hide Written, WellTyped, LeasesKnown, Allocated;
      AllocatesUnless(session.View().store, HostKind, session.next, |bytes|);
      var allocation := session.AllocateHost(|bytes|);
      if allocation.None? {
        return None;
      }
      StaysKnown(session.session, old(session.issued), session.issued, old(session.next), session.next, View().leases);
      var h := allocation.value;
      var written := session.WriteHost(h, 0, bytes);
      if !written {
        return None;
      }
      KnownIngress(session.session, session.issued, session.next, View().leases, h);
      ingress := ingress + [h];
      r := Some(HostToken(h, |bytes|));
    }

    method TakeDevice(size: nat) returns (r: Option<Handle>)
      requires Valid()
      modifies session`next, session`issued, session`device
      ensures Valid() && (View(), r) == Take(old(View()), DeviceKind, size)
      ensures r.Some? ==> IsKind(session.issued, r.value, DeviceKind)
      ensures Extends(old(session.issued), session.issued)
    {
      hide LeasesKnown, Allocated, WellTyped;
      AllocatesUnless(session.View().store, DeviceKind, session.next, size);
      r := session.AllocateDevice(size);
      StaysKnown(session.session, old(session.issued), session.issued, old(session.next), session.next, View().leases);
    }

    method TakeHost(size: nat) returns (r: Option<Handle>)
      requires Valid()
      modifies session`next, session`issued, session`host
      ensures Valid() && (View(), r) == Take(old(View()), HostKind, size)
      ensures r.Some? ==> IsKind(session.issued, r.value, HostKind)
      ensures Extends(old(session.issued), session.issued)
    {
      hide LeasesKnown, Allocated, WellTyped;
      AllocatesUnless(session.View().store, HostKind, session.next, size);
      r := session.AllocateHost(size);
      StaysKnown(session.session, old(session.issued), session.issued, old(session.next), session.next, View().leases);
    }

    method TakeQueue() returns (r: Option<Handle>)
      requires Valid()
      modifies session`next, session`issued, session`queues
      ensures Valid() && (View(), r) == Take(old(View()), QueueKind, 0)
      ensures r.Some? ==> IsKind(session.issued, r.value, QueueKind)
      ensures Extends(old(session.issued), session.issued)
    {
      hide LeasesKnown, Allocated, WellTyped;
      AllocatesUnless(session.View().store, QueueKind, session.next, 0);
      var h := session.AcquireQueue();
      StaysKnown(session.session, old(session.issued), session.issued, old(session.next), session.next, View().leases);
      r := Some(h);
    }

    method SendBytes(source: Handle, target: Handle, queue: Handle, size: nat) returns (r: Option<Completion>)
      requires Valid()
      modifies session`next, session`issued, session`host, session`device, session`events, session`completions
      ensures Valid() && (View(), r) == Send(old(View()), source, target, queue, size)
      ensures r.Some? ==> r.value.event < session.next && r.value.handle.id < session.next
      ensures Extends(old(session.issued), session.issued)
    {
      hide LeasesKnown, CpuEnqueue, WellTyped;
      r := session.EnqueueTransfer(source, target, queue, Request(size, 0, 0));
      StaysKnown(session.session, old(session.issued), session.issued, old(session.next), session.next, View().leases);
    }

    /** `HostToDeviceNode::Execute`. */
    method ExecuteToDevice(token: HostToken) returns (r: Option<OnDevice>)
      requires Valid()
      modifies this`device, this`queues, this`sent
      modifies session`next, session`issued, session`host, session`device, session`queues, session`events, session`completions
      ensures Valid() && (View(), r) == Nodes.ToDevice(old(View()), token)
    {
      hide LeasesKnown, Take, Send, WellTyped;
      if token.size == 0 {
        return None;
      }
      var allocation := TakeDevice(token.size);
      if allocation.None? {
        return None;
      }
      var queue := TakeQueue();
      if queue.None? {
        return None;
      }
      var transfer := SendBytes(token.handle, allocation.value, queue.value, token.size);
      if transfer.None? {
        return None;
      }
      var waited := session.Wait(transfer.value);
      if !waited {
        return None;
      }
      KnownSent(session.session, session.issued, session.next, View().leases, allocation.value, queue.value, transfer.value);
      device, queues, sent := device + [allocation.value], queues + [queue.value], sent + [transfer.value];
      r := Some(OnDevice(allocation.value, token.size, queue.value));
    }

    /** `DeviceToHostNode::Execute`. */
    method ExecuteToHost(input: OnDevice) returns (r: Option<HostToken>)
      requires Valid()
      modifies this`host, this`returned
      modifies session`next, session`issued, session`host, session`device, session`events, session`completions
      ensures Valid() && (View(), r) == Nodes.ToHost(old(View()), input)
    {
      hide LeasesKnown, Take, Send, WellTyped;
      if input.size == 0 {
        return None;
      }
      var allocation := TakeHost(input.size);
      if allocation.None? {
        return None;
      }
      var transfer := SendBytes(input.buffer, allocation.value, input.queue, input.size);
      if transfer.None? {
        return None;
      }
      var waited := session.Wait(transfer.value);
      if !waited {
        return None;
      }
      KnownReturned(session.session, session.issued, session.next, View().leases, allocation.value, transfer.value);
      host, returned := host + [allocation.value], returned + [transfer.value];
      r := Some(HostToken(allocation.value, input.size));
    }

    /** `HostEgressNode::Execute`. */
    method ExecuteEgress(token: HostToken) returns (r: Option<Bytes>)
      requires Valid()
      ensures r == Nodes.Egress(View(), token)
    {
      if token.size == 0 {
        return None;
      }
      r := session.ReadHost(token.handle, 0, token.size);
    }

    /** The graph ingress, host to device, device to host, egress. */
    method Transport(bytes: Bytes) returns (r: Option<Bytes>)
      requires Valid() && Good(View())
      modifies this, session
      ensures Valid()
      ensures r == if bytes == [] then None else Some(bytes)
    {
      hide Nodes.Ingress, Nodes.ToDevice, Nodes.ToHost, Valid, Good, Egress;
      if bytes == [] {
        return None;
      }
      RoundTrip(View(), bytes);
      var token := ExecuteIngress(bytes);
      var moved := ExecuteToDevice(token.value);
      var back := ExecuteToHost(moved.value);
      r := ExecuteEgress(back.value);
    }

    method ReleaseAll(leases: seq<Handle>, kind: Kind)
      requires session.Valid() && Typed(session.session, session.issued, leases, kind) && !kind.CompletionKind?
      modifies session`host, session`device, session`queues, session`released
      ensures session.Valid() && View() == FreeAll(old(View()), leases)
    {
      hide WellTyped, Freed;
      ghost var x := View();
      for i := 0 to |leases|
        invariant session.Valid() && View() == FreeAll(x, leases[..i])
      {
        assert leases[..i + 1][..i] == leases[..i] && leases[i] in leases;
        var r;
        match kind {
          case HostKind => r := session.ReleaseHost(leases[i], true);
          case DeviceKind => r := session.ReleaseDevice(leases[i], true);
          case QueueKind => r := session.ReleaseQueue(leases[i], true);
        }
      }
      assert leases[..|leases|] == leases;
    }

    method RetireLeases(leases: seq<Completion>)
      requires session.Valid() && Known(session.next, leases)
      modifies session`completions, session`events, session`released
      ensures session.Valid() && View() == RetireAll(old(View()), leases)
    {
      hide WellTyped;
      ghost var x := View();
      for i := 0 to |leases|
        invariant session.Valid() && View() == RetireAll(x, leases[..i])
      {
        assert leases[..i + 1][..i] == leases[..i] && leases[i] in leases;
        var ok := session.ReleaseCompletion(leases[i], true);
      }
      assert leases[..|leases|] == leases;
    }

    /** `Stop` on every node. */
    method StopAll()
      requires Valid()
      modifies this, session`host, session`device, session`queues, session`events, session`completions, session`released
      ensures Valid() && View() == Nodes.Stop(old(View()))
    {
      hide FreeAll, RetireAll, WellTyped, Typed, Known;
      NothingKnown(session.session, session.issued, session.next);
      ReleaseAll(ingress, HostKind);
      RetireLeases(sent);
      ReleaseAll(queues, QueueKind);
      ReleaseAll(device, DeviceKind);
      RetireLeases(returned);
      ReleaseAll(host, HostKind);
      ingress, device, queues, sent, host, returned := [], [], [], [], [], [];
    }
  }

  lemma NothingKnown(session: nat, issued: map<Id, Kind>, next: Id)
    ensures LeasesKnown(session, issued, next, Leases([], [], [], [], [], []))
  {
  }

  lemma AllocatesUnless(s: Store, kind: Kind, id: Id, size: nat)
    ensures Allocated(s, kind, id, size).None? <==> size == 0 && (kind.HostKind? || kind.DeviceKind?)
  {
  }
}
