/** The CPU session object. */
module AccelCpu {
  import opened Prelude
  import opened Accel

  /** A completion names its event too. */
  datatype Completion = Completion(handle: Handle, event: Id)

  class CpuSession {
    const session: nat
    var host: map<Id, Bytes>
    var device: map<Id, Bytes>
    var queues: set<Id>
    var events: set<Id>
    var completions: set<Id>
    var released: set<Id>
    var issued: map<Id, Kind>
    var next: Id

    ghost function View(): Cpu
      reads this
    {
      Cpu(Store(session, host, device, queues, released, issued), completions)
    }

    ghost predicate Valid()
      reads this
    {
      && WellTyped(View().store)
      && (forall i <- issued :: i < next) && (forall i <- events :: i < next) && (forall i <- completions :: i < next)
      && (forall i <- released :: i < next)
    }

    constructor (session: nat, start: Id)
      ensures Valid() && View() == Cpu(Store(session, map[], map[], {}, {}, map[]), {}) && events == {} && next == start
    {
      this.session := session;
      host, device, queues, events, completions, released, issued := map[], map[], {}, {}, {}, {}, map[];
      next := start;
    }

    method NextId(kind: Kind) returns (id: Id)
      requires Valid()
      modifies this`next, this`issued
      ensures Valid() && id == old(next) && next == id + 1 && issued == old(issued)[id := kind] && id !in old(issued)
    {
      id := next;
      issued := issued[id := kind];
      next := next + 1;
    }

    method AllocateHost(size: nat) returns (r: Option<Handle>)
      requires Valid()
      modifies this`next, this`issued, this`host
      ensures Valid() && next == (if size == 0 then old(next) else old(next) + 1)
      ensures r == if size == 0 then None else Some(Handle(session, old(next)))
      ensures issued == if size == 0 then old(issued) else old(issued)[old(next) := HostKind]
      ensures View() == if r.None? then old(View()) else old(View()).(store := Allocated(old(View()).store, HostKind, old(next), size).value)
    {
      if size == 0 {
        return None;
      }
      var id := NextId(HostKind);
      host := host[id := Zeros(size)];
      r := Some(Handle(session, id));
    }

    method AllocateDevice(size: nat) returns (r: Option<Handle>)
      requires Valid()
      modifies this`next, this`issued, this`device
      ensures Valid() && next == (if size == 0 then old(next) else old(next) + 1)
      ensures r == if size == 0 then None else Some(Handle(session, old(next)))
      ensures issued == if size == 0 then old(issued) else old(issued)[old(next) := DeviceKind]
      ensures View() == if r.None? then old(View()) else old(View()).(store := Allocated(old(View()).store, DeviceKind, old(next), size).value)
    {
      if size == 0 {
        return None;
      }
      var id := NextId(DeviceKind);
      device := device[id := Zeros(size)];
      r := Some(Handle(session, id));
    }

    method AcquireQueue() returns (h: Handle)
      requires Valid()
      modifies this`next, this`issued, this`queues
      ensures Valid() && next == old(next) + 1 && h == Handle(session, old(next))
      ensures issued == old(issued)[old(next) := QueueKind]
      ensures View() == old(View()).(store := Allocated(old(View()).store, QueueKind, old(next), 0).value)
    {
      var id := NextId(QueueKind);
      queues := queues + {id};
      h := Handle(session, id);
    }

    method WriteHost(h: Handle, offset: nat, bytes: Bytes) returns (ok: bool)
      requires Valid()
      modifies this`host
      ensures Valid()
      ensures var t := Written(old(View()).store, h, offset, bytes);
              ok == t.Some? && View() == if ok then old(View()).(store := t.value) else old(View())
    {
      if h.session != session || h.id in released || bytes == [] || h.id !in host || offset > |host[h.id]|
         || |bytes| > |host[h.id]| - offset {
        return false;
      }
      host := host[h.id := Splice(host[h.id], offset, bytes)];
      ok := true;
    }

    method ReadHost(h: Handle, offset: nat, size: nat) returns (r: Option<Bytes>)
      requires Valid()
      ensures r == ReadOut(View().store, h, offset, size)
    {
      if h.session != session || h.id in released || size == 0 || h.id !in host || offset > |host[h.id]|
         || size > |host[h.id]| - offset {
        return None;
      }
      r := Some(host[h.id][offset..offset + size]);
    }

    method FindBuffer(id: Id) returns (r: Option<Bytes>)
      ensures r == Find(View().store, id)
    {
      if id in host {
        return Some(host[id]);
      }
      if id in device {
        return Some(device[id]);
      }
      r := None;
    }

    /** The checks and the copy, under the lock. */
    method CopyBytes(source: Handle, target: Handle, queue: Handle, q: Request) returns (ok: bool)
      requires Valid()
      modifies this`host, this`device
      ensures Valid()
      ensures var t := Copied(old(View()).store, source, target, queue, q);
              ok == t.Some? && View().store == if ok then t.value else old(View()).store
    {
      hide Splice;
      if source.session != session || source.id in released || target.session != session || target.id in released
         || queue.session != session || queue.id in released || q.size == 0 || queue.id !in queues {
        return false;
      }
      var from := FindBuffer(source.id);
      var to := FindBuffer(target.id);
      if from.None? || to.None? || q.sourceOffset > |from.value| || q.destinationOffset > |to.value|
         || q.size > |from.value| - q.sourceOffset || q.size > |to.value| - q.destinationOffset {
        return false;
      }
      var copied := Splice(to.value, q.destinationOffset, from.value[q.sourceOffset..q.sourceOffset + q.size]);
      if target.id in host {
        host := host[target.id := copied];
      } else {
        device := device[target.id := copied];
      }
      ok := true;
    }

    method EnqueueTransfer(source: Handle, target: Handle, queue: Handle, q: Request) returns (r: Option<Completion>)
      requires Valid()
      modifies this`next, this`issued, this`host, this`device, this`events, this`completions
      ensures Valid() && next == old(next) + (if r.None? then 0 else 2)
      ensures issued == if r.None? then old(issued) else old(issued)[old(next) + 1 := CompletionKind]
      ensures var t := CpuEnqueue(old(View()), source, target, queue, q, old(next) + 1);
              && r == (if t.None? then None else Some(Completion(Handle(session, old(next) + 1), old(next))))
              && View() == (if t.None? then old(View()) else t.value)
              && events == (if t.None? then old(events) else old(events) + {old(next)})
    {
      hide Copied, WellTyped;
      var ok := CopyBytes(source, target, queue, q);
      if !ok {
        return None;
      }
      var event := next;
      next := next + 1;
      var id := NextId(CompletionKind);
      events, completions := events + {event}, completions + {id};
      r := Some(Completion(Handle(session, id), event));
    }

    method Wait(c: Completion) returns (ok: bool)
      ensures ok == CpuWaits(View(), c.handle)
    {
      ok := c.handle.session == session && c.handle.id !in released && c.handle.id in completions;
    }

    method ReleaseHost(h: Handle, allow: bool) returns (r: Option<bool>)
      requires Valid() && OfKind(View().store, h, HostKind)
      modifies this`host, this`released
      ensures Valid()
      ensures var t := Freed(old(View()).store, h, allow);
              && r == (if t.None? then None else Some(t.value.1))
              && View() == (if t.None? then old(View()) else old(View()).(store := t.value.0))
    {
      if h.session != session || (!allow && h.id in released) {
        return None;
      }
      var removed := h.id in host;
      host := host - {h.id};
      if !removed && !allow {
        assert host == old(host);
        return None;
      }
      released := released + {h.id};
      assert h.id !in device && h.id !in queues;
      assert device - {h.id} == device && queues - {h.id} == queues;
      r := Some(removed);
    }

    method ReleaseDevice(h: Handle, allow: bool) returns (r: Option<bool>)
      requires Valid() && OfKind(View().store, h, DeviceKind)
      modifies this`device, this`released
      ensures Valid()
      ensures var t := Freed(old(View()).store, h, allow);
              && r == (if t.None? then None else Some(t.value.1))
              && View() == (if t.None? then old(View()) else old(View()).(store := t.value.0))
    {
      if h.session != session || (!allow && h.id in released) {
        return None;
      }
      var removed := h.id in device;
      device := device - {h.id};
      if !removed && !allow {
        assert device == old(device);
        return None;
      }
      released := released + {h.id};
      assert h.id !in host && h.id !in queues;
      assert host - {h.id} == host && queues - {h.id} == queues;
      r := Some(removed);
    }

    method ReleaseQueue(h: Handle, allow: bool) returns (r: Option<bool>)
      requires Valid() && OfKind(View().store, h, QueueKind)
      modifies this`queues, this`released
      ensures Valid()
      ensures var t := Freed(old(View()).store, h, allow);
              && r == (if t.None? then None else Some(t.value.1))
              && View() == (if t.None? then old(View()) else old(View()).(store := t.value.0))
    {
      if h.session != session || (!allow && h.id in released) {
        return None;
      }
      var removed := h.id in queues;
      queues := queues - {h.id};
      if !removed && !allow {
        assert queues == old(queues);
        return None;
      }
      released := released + {h.id};
      assert h.id !in host && h.id !in device;
      assert host - {h.id} == host && device - {h.id} == device;
      r := Some(removed);
    }

    method ReleaseCompletion(c: Completion, allow: bool) returns (r: Option<bool>)
      requires Valid() && c.event < next && (c.handle.session == session ==> c.handle.id < next)
      modifies this`completions, this`events, this`released
      ensures Valid()
      ensures var t := CpuRetire(old(View()), c.handle, allow);
              && r == (if t.Some? then Some(true) else None)
              && (t.Some? ==> && completions == old(completions) - {c.handle.id} && events == old(events) - {c.event}
                              && View().store == old(View()).store.(released := old(released) + {c.event, c.handle.id}))
              && (t.None? ==> View() == old(View()) && events == old(events))
    {
      if c.handle.session != session || (!allow && c.handle.id in released) {
        return None;
      }
      completions, events := completions - {c.handle.id}, events - {c.event};
      released := released + {c.event, c.handle.id};
      r := Some(true);
    }
  }
}
