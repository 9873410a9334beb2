/** The Metal session object: transfers through staging buffers, finished by `Wait`. */
module MetalSessionObject {
  import opened Prelude
  import opened Accel
  import opened AccelSimulation

  class MetalSession {
    const session: nat
    var host: map<Id, Bytes>
    var device: map<Id, Bytes>
    var queues: set<Id>
    var released: set<Id>
    var issued: map<Id, Kind>
    var pending: map<Id, Pending>

    ghost function View(): Metal
      reads this
    {
      Metal(Store(session, host, device, queues, released, issued), pending)
    }

    /** Every pending copy fits the buffers it names. */
    ghost predicate Valid()
      reads this
    {
      AllFit(View())
    }

    constructor (session: nat)
      ensures Valid() && View() == Metal(Store(session, map[], map[], {}, {}, map[]), map[])
    {
      this.session := session;
      host, device, queues, released, issued, pending := map[], map[], {}, {}, map[], map[];
    }

    /** Checks, snapshot of the source, and the committed command buffer under completion `c`. The
        staging buffer, the command buffer with its encoder, or the event may fail to be created. */
    method EnqueueTransfer(d: Direction, source: Handle, target: Handle, queue: Handle, q: Request, c: Id, creates: bool)
      returns (ok: bool)
      requires Valid() && Proper(View().store, Enqueue(d, source, target, queue, q, c))
      modifies this`issued, this`pending
      ensures Valid()
      ensures var t := MetalEnqueue(old(View()), d, source, target, queue, q, c);
              ok == (t.Some? && creates) && View() == if ok then t.value else old(View())
    {
      hide AllFit;
      EnqueuedFits(View(), d, source, target, queue, q, c);
      if source.session != session || source.id in released || target.session != session || target.id in released
         || queue.session != session || queue.id in released || q.size == 0 || queue.id !in queues {
        return false;
      }
      var staging, p;
      if d == ToDevice {
        if source.id !in host || q.sourceOffset > |host[source.id]| || q.size > |host[source.id]| - q.sourceOffset
           || target.id !in device || q.destinationOffset > |device[target.id]|
           || q.size > |device[target.id]| - q.destinationOffset {
          return false;
        }
        staging := host[source.id][q.sourceOffset..q.sourceOffset + q.size];
        p := Pending(ToDevice, source.id, target.id, q.sourceOffset, q.destinationOffset, q.size, staging, false, false);
      } else {
        if source.id !in device || q.sourceOffset > |device[source.id]| || q.size > |device[source.id]| - q.sourceOffset
           || target.id !in host || q.destinationOffset > |host[target.id]|
           || q.size > |host[target.id]| - q.destinationOffset {
          return false;
        }
        staging := Zeros(q.size);
        p := Pending(ToHost, target.id, source.id, q.destinationOffset, q.sourceOffset, q.size, staging, false, false);
      }
      if !creates {
        return false;
      }
      issued := issued[c := CompletionKind];
      pending := pending[c := p];
      ok := true;
    }

    /** The command buffer of `c` runs on the device, at some moment before a wait returns. */
    method Execute(c: Id)
      requires Valid() && c in pending
      modifies this`device, this`pending
      ensures Valid() && View() == Ran(old(View()), c)
    {
      hide AllFit;
      RanFits(View(), c);
      FitOf(View(), c);
      var p := pending[c];
      if p.ran {
        return;
      }
      if p.device in device {
        if p.direction == ToDevice {
          device := device[p.device := Splice(device[p.device], p.deviceOffset, p.staging)];
        } else {
          p := p.(staging := device[p.device][p.deviceOffset..p.deviceOffset + p.size]);
        }
      }
      pending := pending[c := p.(ran := true)];
    }

    /** Waits for the command buffer, then copies to the host unless an earlier wait did. */
    method Wait(c: Handle) returns (ok: bool)
      requires Valid()
      modifies this`device, this`pending, this`host
      ensures Valid() && (ok, View()) == Waited(old(View()), c)
    {
      hide AllFit, Ran;
      WaitedFits(View(), c);
      if c.session != session || c.id in released || c.id !in pending {
        return false;
      }
      RanKeepsKeys(View(), c.id);
      RanKeepsReleased(View(), c.id);
      Execute(c.id);
      FitOf(View(), c.id);
      var p := pending[c.id];
      if p.direction == ToHost && !p.copied {
        if p.host !in host {
          return false;
        }
        host := host[p.host := Splice(host[p.host], p.hostOffset, p.staging)];
        pending := pending[c.id := p.(copied := true)];
      }
      ok := true;
    }

    method ReleaseCompletion(c: Handle, allow: bool) returns (r: Option<bool>)
      requires Valid()
      modifies this`pending, this`released
      ensures Valid()
      ensures var t := MetalRetire(old(View()), c, allow);
              && r == (if t.None? then None else Some(c.id in old(pending)))
              && View() == (if t.None? then old(View()) else t.value)
    {
      hide AllFit;
      RetiredFits(View(), c, allow);
      if c.session != session || (!allow && c.id in released) {
        return None;
      }
      var found := c.id in pending;
      if !found && !allow {
        return None;
      }
      pending := pending - {c.id};
      released := released + {c.id};
      r := Some(found);
    }
  }

  lemma RanKeepsReleased(m: Metal, c: Id)
    requires AllFit(m) && c in m.pending
    ensures Ran(m, c).store.released == m.store.released
  {
  }
}
