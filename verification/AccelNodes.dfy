/** The transfer nodes over one CPU session: what goes in comes out, and `Stop` gives back every
    resource the nodes took. */
module AccelNodes {
  import opened Prelude
  import opened Accel
  import opened AccelCpu

  datatype HostToken = HostToken(handle: Handle, size: nat)
  datatype OnDevice = OnDevice(buffer: Handle, size: nat, queue: Handle)
  datatype Token = HostLease(h: Handle) | DeviceLease(d: Handle) | QueueLease(q: Handle) | CompletionLease(c: Completion)

  /** The lease lists of the ingress, host-to-device and device-to-host nodes. */
  datatype Leases = Leases(ingress: seq<Handle>, device: seq<Handle>, queues: seq<Handle>, sent: seq<Completion>,
                           host: seq<Handle>, returned: seq<Completion>)

  /** A session together with the nodes that lease from it. */
  datatype Sys = Sys(cpu: Cpu, events: set<Id>, next: Id, leases: Leases)

  /** Everything the session holds, by kind. */
  datatype Live = Live(host: set<Id>, device: set<Id>, queues: set<Id>, events: set<Id>, completions: set<Id>)

  function LiveNow(x: Sys): Live {
    Live(x.cpu.store.host.Keys, x.cpu.store.device.Keys, x.cpu.store.queues, x.events, x.cpu.completions)
  }

  // ---- What the nodes do ---------------------------------------------------------------------------------------

  function Take(x: Sys, kind: Kind, size: nat): (Sys, Option<Handle>) {
    var t := Allocated(x.cpu.store, kind, x.next, size);
    if t.None? then (x, None)
    else (x.(cpu := x.cpu.(store := t.value), next := x.next + 1), Some(Handle(x.cpu.store.session, x.next)))
  }

  function Send(x: Sys, source: Handle, target: Handle, queue: Handle, size: nat): (Sys, Option<Completion>) {
    var t := CpuEnqueue(x.cpu, source, target, queue, Request(size, 0, 0), x.next + 1);
    if t.None? then (x, None)
    else
      (x.(cpu := t.value, events := x.events + {x.next}, next := x.next + 2),
       Some(Completion(Handle(x.cpu.store.session, x.next + 1), x.next)))
  }

  function Ingress(x: Sys, bytes: Bytes): (Sys, Option<HostToken>) {
    var (y, h) := Take(x, HostKind, |bytes|);
    if h.None? then (y, None)
    else
      var t := Written(y.cpu.store, h.value, 0, bytes);
      if t.None? then (y, None)
      else
        (y.(cpu := y.cpu.(store := t.value), leases := y.leases.(ingress := y.leases.ingress + [h.value])),
         Some(HostToken(h.value, |bytes|)))
  }

  function ToDevice(x: Sys, token: HostToken): (Sys, Option<OnDevice>) {
    if token.size == 0 then (x, None)
    else
      var (y, d) := Take(x, DeviceKind, token.size);
      if d.None? then (y, None)
      else
        var (z, q) := Take(y, QueueKind, 0);
        if q.None? then (z, None)
        else
          var (w, c) := Send(z, token.handle, d.value, q.value, token.size);
          if c.None? || !CpuWaits(w.cpu, c.value.handle) then (w, None)
          else
            (w.(leases := w.leases.(device := w.leases.device + [d.value], queues := w.leases.queues + [q.value],
                                    sent := w.leases.sent + [c.value])),
             Some(OnDevice(d.value, token.size, q.value)))
  }

  function ToHost(x: Sys, input: OnDevice): (Sys, Option<HostToken>) {
    if input.size == 0 then (x, None)
    else
      var (y, h) := Take(x, HostKind, input.size);
      if h.None? then (y, None)
      else
        var (z, c) := Send(y, input.buffer, h.value, input.queue, input.size);
        if c.None? || !CpuWaits(z.cpu, c.value.handle) then (z, None)
        else
          (z.(leases := z.leases.(host := z.leases.host + [h.value], returned := z.leases.returned + [c.value])),
           Some(HostToken(h.value, input.size)))
  }

  function Egress(x: Sys, token: HostToken): Option<Bytes> {
    if token.size == 0 then None else ReadOut(x.cpu.store, token.handle, 0, token.size)
  }

  function FreeOne(x: Sys, h: Handle, allow: bool): Sys {
    var t := Freed(x.cpu.store, h, allow);
    if t.None? then x else x.(cpu := x.cpu.(store := t.value.0))
  }

  function RetireOne(x: Sys, c: Completion, allow: bool): Sys {
    if c.handle.session != x.cpu.store.session || (!allow && c.handle.id in x.cpu.store.released) then x
    else
      x.(cpu := Cpu(x.cpu.store.(released := x.cpu.store.released + {c.event, c.handle.id}),
                    x.cpu.completions - {c.handle.id}),
         events := x.events - {c.event})
  }

  /** `ReleaseLeaseNode::Execute`. */
  function ReleaseToken(x: Sys, token: Token, allow: bool): Sys {
    match token
    case HostLease(h) => FreeOne(x, h, allow)
    case DeviceLease(d) => FreeOne(x, d, allow)
    case QueueLease(q) => FreeOne(x, q, allow)
    case CompletionLease(c) => RetireOne(x, c, allow)
  }

  function FreeAll(x: Sys, leases: seq<Handle>): Sys {
    if leases == [] then x else FreeOne(FreeAll(x, leases[..|leases| - 1]), leases[|leases| - 1], true)
  }

  function RetireAll(x: Sys, leases: seq<Completion>): Sys {
    if leases == [] then x else RetireOne(RetireAll(x, leases[..|leases| - 1]), leases[|leases| - 1], true)
  }

  /** `Stop` on every node. */
  function Stop(x: Sys): Sys {
    var a := FreeAll(x, x.leases.ingress);
    var b := FreeAll(FreeAll(RetireAll(a, x.leases.sent), x.leases.queues), x.leases.device);
    FreeAll(RetireAll(b, x.leases.returned), x.leases.host).(leases := Leases([], [], [], [], [], []))
  }

  // ---- The round trip --------------------------------------------------------------------------------------------

  /** A session whose identifiers below `next` are all that it ever issued. */
  ghost predicate Good(x: Sys) {
    && WellTyped(x.cpu.store) && (forall i <- x.cpu.store.issued :: i < x.next)
    && (forall i <- x.cpu.store.released :: i < x.next)
  }

  lemma TakeFacts(x: Sys, kind: Kind, size: nat)
    requires Good(x) && (kind.QueueKind? || (size > 0 && !kind.CompletionKind?))
    ensures var (y, h) := Take(x, kind, size);
            && Good(y) && y.next == x.next + 1 && h == Some(Handle(x.cpu.store.session, x.next))
            && Owned(y.cpu.store, h.value) && y.leases == x.leases && y.events == x.events
            && y.cpu.completions == x.cpu.completions && y.cpu.store.released == x.cpu.store.released
            && y.cpu.store.issued == x.cpu.store.issued[x.next := kind] && y.cpu.store.session == x.cpu.store.session
            && y.cpu.store.host == (if kind.HostKind? then x.cpu.store.host[x.next := Zeros(size)] else x.cpu.store.host)
            && y.cpu.store.device == (if kind.DeviceKind? then x.cpu.store.device[x.next := Zeros(size)] else x.cpu.store.device)
            && y.cpu.store.queues == (if kind.QueueKind? then x.cpu.store.queues + {x.next} else x.cpu.store.queues)
  {
  }

  /** A whole-buffer transfer onto a buffer of the same size copies it. */
  lemma SendFacts(x: Sys, source: Handle, target: Handle, queue: Handle, size: nat)
    requires Good(x) && size > 0 && Owned(x.cpu.store, source) && Owned(x.cpu.store, target) && Owned(x.cpu.store, queue)
    requires queue.id in x.cpu.store.queues
    requires Find(x.cpu.store, source.id).Some? && Find(x.cpu.store, target.id).Some?
    requires |Find(x.cpu.store, source.id).value| == size && |Find(x.cpu.store, target.id).value| == size
    ensures var (y, c) := Send(x, source, target, queue, size);
            && Good(y) && c == Some(Completion(Handle(x.cpu.store.session, x.next + 1), x.next)) && y.next == x.next + 2
            && CpuWaits(y.cpu, c.value.handle) && y.leases == x.leases && y.events == x.events + {x.next}
            && y.cpu.completions == x.cpu.completions + {x.next + 1}
            && y.cpu.store == Replaced(x.cpu.store, target.id, Find(x.cpu.store, source.id).value)
                                .(issued := x.cpu.store.issued[x.next + 1 := CompletionKind])
  {
    var from, to := Find(x.cpu.store, source.id).value, Find(x.cpu.store, target.id).value;
    assert Slice(from, 0, size) == from && Splice(to, 0, from) == from;
  }

  lemma IngressFacts(x: Sys, bytes: Bytes)
    requires Good(x) && bytes != []
    ensures var (y, t) := Ingress(x, bytes);
            && Good(y) && t == Some(HostToken(Handle(x.cpu.store.session, x.next), |bytes|)) && y.next == x.next + 1
            && y.events == x.events && y.cpu.completions == x.cpu.completions
            && y.cpu.store == x.cpu.store.(host := x.cpu.store.host[x.next := bytes], issued := x.cpu.store.issued[x.next := HostKind])
            && y.leases == x.leases.(ingress := x.leases.ingress + [t.value.handle])
  {
    hide Take;
    TakeFacts(x, HostKind, |bytes|);
    assert Splice(Zeros(|bytes|), 0, bytes) == bytes;
    var y := Take(x, HostKind, |bytes|).0;
    assert y.cpu.store == x.cpu.store.(host := x.cpu.store.host[x.next := Zeros(|bytes|)], issued := x.cpu.store.issued[x.next := HostKind]);
    assert x.cpu.store.host[x.next := Zeros(|bytes|)][x.next := bytes] == x.cpu.store.host[x.next := bytes];
  }

  lemma ToDeviceFacts(x: Sys, token: HostToken)
    requires Good(x) && token.size > 0 && Owned(x.cpu.store, token.handle)
    requires token.handle.id in x.cpu.store.host && |x.cpu.store.host[token.handle.id]| == token.size
    ensures var (y, r) := ToDevice(x, token);
            && Good(y) && r.Some? && r.value.size == token.size
            && Owned(y.cpu.store, r.value.buffer) && Owned(y.cpu.store, r.value.queue)
            && r.value.queue.id in y.cpu.store.queues && r.value.buffer.id in y.cpu.store.device
            && y.cpu.store.device[r.value.buffer.id] == x.cpu.store.host[token.handle.id]
  {
    hide Take, Send;
    TakeFacts(x, DeviceKind, token.size);
    var (y, d) := Take(x, DeviceKind, token.size);
    TakeFacts(y, QueueKind, 0);
    var (z, q) := Take(y, QueueKind, 0);
    SendFacts(z, token.handle, d.value, q.value, token.size);
  }

  lemma ToHostFacts(x: Sys, input: OnDevice)
    requires Good(x) && input.size > 0 && Owned(x.cpu.store, input.buffer) && Owned(x.cpu.store, input.queue)
    requires input.queue.id in x.cpu.store.queues
    requires input.buffer.id in x.cpu.store.device && |x.cpu.store.device[input.buffer.id]| == input.size
    ensures var (y, r) := ToHost(x, input);
            && Good(y) && r.Some? && r.value.size == input.size && Owned(y.cpu.store, r.value.handle)
            && r.value.handle.id in y.cpu.store.host
            && y.cpu.store.host[r.value.handle.id] == x.cpu.store.device[input.buffer.id]
  {
    hide Take, Send;
    TakeFacts(x, HostKind, input.size);
    var (y, h) := Take(x, HostKind, input.size);
    SendFacts(y, input.buffer, h.value, input.queue, input.size);
  }

  /** Ingress, host to device, device to host, egress: every nonempty byte string comes back. */
  lemma RoundTrip(x: Sys, bytes: Bytes)
    requires Good(x) && bytes != []
    ensures var (a, token) := Ingress(x, bytes);
            && token.Some?
            && (var (b, moved) := ToDevice(a, token.value);
                && moved.Some?
                && (var (c, back) := ToHost(b, moved.value);
                    back.Some? && Egress(c, back.value) == Some(bytes)))
  {
    hide Ingress, ToDevice, ToHost;
    IngressFacts(x, bytes);
    var (a, token) := Ingress(x, bytes);
    ToDeviceFacts(a, token.value);
    var (b, moved) := ToDevice(a, token.value);
    ToHostFacts(b, moved.value);
    assert bytes[0..0 + |bytes|] == bytes;
  }

  // ---- Stop gives everything back ------------------------------------------------------------------------------

  function Ids(leases: seq<Handle>): set<Id> { set h <- leases :: h.id }
  function CompletionIds(leases: seq<Completion>): set<Id> { set c <- leases :: c.handle.id }
  function EventIds(leases: seq<Completion>): set<Id> { set c <- leases :: c.event }

  lemma IdsGrow(leases: seq<Handle>, h: Handle)
    ensures Ids(leases + [h]) == Ids(leases) + {h.id}
  {
    assert forall x :: x in leases + [h] <==> x in leases || x == h;
  }

  lemma CompletionIdsGrow(leases: seq<Completion>, c: Completion)
    ensures CompletionIds(leases + [c]) == CompletionIds(leases) + {c.handle.id}
    ensures EventIds(leases + [c]) == EventIds(leases) + {c.event}
  {
    assert forall x :: x in leases + [c] <==> x in leases || x == c;
  }

  function AllIds(l: Leases): set<Id> { Ids(l.ingress) + Ids(l.host) + Ids(l.device) + Ids(l.queues) }

  /** Live resources are the kept ones, all of them, and leased ones. */
  ghost predicate Between(kept: set<Id>, now: set<Id>, leased: set<Id>) { kept <= now <= kept + leased }

  /** `kept` is what no lease list covers: resources from before the nodes started, and leaks. */
  ghost predicate Covered(kept: Live, x: Sys) {
    && Between(kept.host, x.cpu.store.host.Keys, Ids(x.leases.ingress) + Ids(x.leases.host))
    && Between(kept.device, x.cpu.store.device.Keys, Ids(x.leases.device))
    && Between(kept.queues, x.cpu.store.queues, Ids(x.leases.queues))
    && Between(kept.events, x.events, EventIds(x.leases.sent) + EventIds(x.leases.returned))
    && Between(kept.completions, x.cpu.completions, CompletionIds(x.leases.sent) + CompletionIds(x.leases.returned))
  }

  function AllEvents(l: Leases): set<Id> { EventIds(l.sent) + EventIds(l.returned) }
  function AllCompletions(l: Leases): set<Id> { CompletionIds(l.sent) + CompletionIds(l.returned) }
  function KeptIds(kept: Live): set<Id> { kept.host + kept.device + kept.queues }

  /** Kept and leased identifiers are different and older than `n`. */
  ghost predicate Apart(kept: set<Id>, leased: set<Id>, n: Id) {
    kept !! leased && (forall i <- kept :: i < n) && (forall i <- leased :: i < n)
  }

  ghost predicate Separate(kept: Live, x: Sys) {
    && Apart(KeptIds(kept), AllIds(x.leases), x.next) && Apart(kept.events, AllEvents(x.leases), x.next)
    && Apart(kept.completions, AllCompletions(x.leases), x.next)
  }

  /** New identifiers go to one side. */
  lemma ApartGrows(kept: set<Id>, leased: set<Id>, n: Id, n': Id, new_: set<Id>)
    requires Apart(kept, leased, n) && n <= n' && forall i <- new_ :: n <= i < n'
    ensures Apart(kept, leased + new_, n') && Apart(kept + new_, leased, n') && Apart(kept, leased, n')
  {
  }

  ghost predicate OwnLeases(x: Sys) {
    && (forall h <- x.leases.ingress + x.leases.host + x.leases.device + x.leases.queues :: h.session == x.cpu.store.session)
    && (forall c <- x.leases.sent + x.leases.returned :: c.handle.session == x.cpu.store.session)
  }

  lemma {:induction false} FreeAllFacts(x: Sys, leases: seq<Handle>)
    requires forall h <- leases :: h.session == x.cpu.store.session
    ensures var y := FreeAll(x, leases);
            && y.cpu.store.session == x.cpu.store.session && y.events == x.events && y.leases == x.leases
            && y.cpu.completions == x.cpu.completions && y.cpu.store.host.Keys == x.cpu.store.host.Keys - Ids(leases)
            && y.cpu.store.device.Keys == x.cpu.store.device.Keys - Ids(leases)
            && y.cpu.store.queues == x.cpu.store.queues - Ids(leases)
  {
    if leases != [] {
      var front, h := leases[..|leases| - 1], leases[|leases| - 1];
      FreeAllFacts(x, front);
      hide FreeAll;
      IdsGrow(front, h);
      assert leases == front + [h];
      assert FreeAll(x, leases) == FreeOne(FreeAll(x, front), h, true) by { FreeAllLast(x, leases); }
    }
  }

  lemma FreeAllLast(x: Sys, leases: seq<Handle>)
    requires leases != []
    ensures FreeAll(x, leases) == FreeOne(FreeAll(x, leases[..|leases| - 1]), leases[|leases| - 1], true)
  {
  }

  lemma {:induction false} RetireAllFacts(x: Sys, leases: seq<Completion>)
    requires forall c <- leases :: c.handle.session == x.cpu.store.session
    ensures var y := RetireAll(x, leases);
            && y.cpu.store == x.cpu.store.(released := y.cpu.store.released) && y.leases == x.leases
            && y.cpu.completions == x.cpu.completions - CompletionIds(leases) && y.events == x.events - EventIds(leases)
  {
    if leases != [] {
      var front, c := leases[..|leases| - 1], leases[|leases| - 1];
      RetireAllFacts(x, front);
      CompletionIdsGrow(front, c);
      assert leases == front + [c];
    }
  }

  /** `Stop` gives back everything on the lists and nothing else. */
  lemma StopKeeps(kept: Live, x: Sys)
    requires Covered(kept, x) && Separate(kept, x) && OwnLeases(x)
    ensures LiveNow(Stop(x)) == kept
  {
    hide FreeAll, RetireAll;
    var l := x.leases;
    var a := FreeAll(x, l.ingress);
    FreeAllFacts(x, l.ingress);
    var b := RetireAll(a, l.sent);
    RetireAllFacts(a, l.sent);
    var c := FreeAll(b, l.queues);
    FreeAllFacts(b, l.queues);
    var d := FreeAll(c, l.device);
    FreeAllFacts(c, l.device);
    var e := RetireAll(d, l.returned);
    RetireAllFacts(d, l.returned);
    FreeAllFacts(e, l.host);
    var gone := AllIds(l);
    var y := Stop(x);
    assert y.cpu.store.host.Keys == x.cpu.store.host.Keys - gone == kept.host;
    assert y.cpu.store.device.Keys == x.cpu.store.device.Keys - gone == kept.device;
    assert y.cpu.store.queues == x.cpu.store.queues - gone == kept.queues;
  }

  lemma IngressNeedsBytes(x: Sys, bytes: Bytes)
    requires Good(x)
    ensures Ingress(x, bytes).1.Some? <==> bytes != []
    ensures bytes == [] ==> Ingress(x, bytes).0 == x
  {
    if bytes != [] { IngressFacts(x, bytes); }
  }

  lemma SendKeys(x: Sys, source: Handle, target: Handle, queue: Handle, size: nat)
    requires Good(x) && Send(x, source, target, queue, size).1.Some?
    ensures var (y, c) := Send(x, source, target, queue, size);
            && Good(y) && y.next == x.next + 2 && y.leases == x.leases && c.value.event == x.next
            && c.value.handle == Handle(x.cpu.store.session, x.next + 1) && y.cpu.store.session == x.cpu.store.session
            && y.events == x.events + {x.next} && y.cpu.completions == x.cpu.completions + {x.next + 1}
            && y.cpu.store.host.Keys == x.cpu.store.host.Keys && y.cpu.store.device.Keys == x.cpu.store.device.Keys
            && y.cpu.store.queues == x.cpu.store.queues
  {
    hide Splice, Slice;
    var t := Copied(x.cpu.store, source, target, queue, Request(size, 0, 0)).value;
    assert t.host.Keys == x.cpu.store.host.Keys && t.device.Keys == x.cpu.store.device.Keys;
  }

  lemma ToDeviceKeys(x: Sys, token: HostToken)
    requires Good(x) && ToDevice(x, token).1.Some?
    ensures var y := ToDevice(x, token).0; var session := x.cpu.store.session;
            && Good(y) && y.next == x.next + 4 && y.cpu.store.session == session
            && LiveNow(y) == LiveNow(x).(device := LiveNow(x).device + {x.next}, queues := LiveNow(x).queues + {x.next + 1},
                                         events := x.events + {x.next + 2}, completions := x.cpu.completions + {x.next + 3})
            && y.leases == x.leases.(device := x.leases.device + [Handle(session, x.next)],
                                     queues := x.leases.queues + [Handle(session, x.next + 1)],
                                     sent := x.leases.sent + [Completion(Handle(session, x.next + 3), x.next + 2)])
  {
    hide Take, Send, Good;
    TakeFacts(x, DeviceKind, token.size);
    var (y, d) := Take(x, DeviceKind, token.size);
    TakeFacts(y, QueueKind, 0);
    var (z, q) := Take(y, QueueKind, 0);
    SendKeys(z, token.handle, d.value, q.value, token.size);
    GoodLeases(Send(z, token.handle, d.value, q.value, token.size).0, ToDevice(x, token).0);
  }

  /** The lease lists are no part of the session. */
  lemma GoodLeases(x: Sys, y: Sys)
    requires Good(x) && y == x.(leases := y.leases)
    ensures Good(y)
  {
  }

  lemma ToHostKeys(x: Sys, input: OnDevice)
    requires Good(x) && ToHost(x, input).1.Some?
    ensures var y := ToHost(x, input).0; var session := x.cpu.store.session;
            && Good(y) && y.next == x.next + 3 && y.cpu.store.session == session
            && LiveNow(y) == LiveNow(x).(host := LiveNow(x).host + {x.next}, events := x.events + {x.next + 1},
                                         completions := x.cpu.completions + {x.next + 2})
            && y.leases == x.leases.(host := x.leases.host + [Handle(session, x.next)],
                                     returned := x.leases.returned + [Completion(Handle(session, x.next + 2), x.next + 1)])
  {
    hide Take, Send, Good;
    TakeFacts(x, HostKind, input.size);
    var (y, h) := Take(x, HostKind, input.size);
    SendKeys(y, input.buffer, h.value, input.queue, input.size);
    GoodLeases(Send(y, input.buffer, h.value, input.queue, input.size).0, ToHost(x, input).0);
  }

  // ---- When a step fails, and what it then leaves behind ---------------------------------------------------------

  /** Handles come from sessions: one of this session carries an identifier it has issued. */
  predicate Issued(x: Sys, h: Handle) { h.session == x.cpu.store.session ==> h.id < x.next }

  ghost predicate Readable(x: Sys, h: Handle, size: nat) {
    Owned(x.cpu.store, h) && Find(x.cpu.store, h.id).Some? && size <= |Find(x.cpu.store, h.id).value|
  }

  /** A move succeeds if and only if its source is owned, live and long enough. */
  lemma ToDeviceSucceedsIff(x: Sys, token: HostToken)
    requires Good(x) && Issued(x, token.handle)
    ensures ToDevice(x, token).1.Some? <==> token.size > 0 && Readable(x, token.handle, token.size)
  {
    hide Take, Splice, Slice;
    if token.size > 0 {
      TakeFacts(x, DeviceKind, token.size);
      var (y, d) := Take(x, DeviceKind, token.size);
      TakeFacts(y, QueueKind, 0);
    }
  }

  /** A return also needs its queue. */
  lemma ToHostSucceedsIff(x: Sys, input: OnDevice)
    requires Good(x) && Issued(x, input.buffer) && Issued(x, input.queue)
    ensures ToHost(x, input).1.Some? <==>
            && input.size > 0 && Readable(x, input.buffer, input.size)
            && Owned(x.cpu.store, input.queue) && input.queue.id in x.cpu.store.queues
  {
    hide Take, Splice, Slice;
    if input.size > 0 { TakeFacts(x, HostKind, input.size); }
  }

  /** A failed move keeps the device buffer and the queue it took, on no list. */
  lemma ToDeviceFails(x: Sys, token: HostToken)
    requires Good(x) && ToDevice(x, token).1.None?
    ensures var y := ToDevice(x, token).0; var now := LiveNow(x);
            && Good(y) && y.leases == x.leases && x.next <= y.next && y.cpu.store.session == x.cpu.store.session
            && (token.size == 0 ==> y == x)
            && (token.size > 0 ==>
                  y.next == x.next + 2 && LiveNow(y) == now.(device := now.device + {x.next}, queues := now.queues + {x.next + 1}))
  {
    hide Take, CpuEnqueue, Good;
    if token.size > 0 {
      TakeFacts(x, DeviceKind, token.size);
      var (y, d) := Take(x, DeviceKind, token.size);
      TakeFacts(y, QueueKind, 0);
      var (z, q) := Take(y, QueueKind, 0);
      SendWaits(z, token.handle, d.value, q.value, token.size);
    }
  }

  /** A failed return keeps the host buffer it took. */
  lemma ToHostFails(x: Sys, input: OnDevice)
    requires Good(x) && ToHost(x, input).1.None?
    ensures var y := ToHost(x, input).0; var now := LiveNow(x);
            && Good(y) && y.leases == x.leases && x.next <= y.next && y.cpu.store.session == x.cpu.store.session
            && (input.size == 0 ==> y == x)
            && (input.size > 0 ==> y.next == x.next + 1 && LiveNow(y) == now.(host := now.host + {x.next}))
  {
    hide Take, CpuEnqueue, Good;
    if input.size > 0 {
      TakeFacts(x, HostKind, input.size);
      var (y, h) := Take(x, HostKind, input.size);
      SendWaits(y, input.buffer, h.value, input.queue, input.size);
    }
  }

  /** An accepted transfer can be waited for. */
  lemma SendWaits(x: Sys, source: Handle, target: Handle, queue: Handle, size: nat)
    requires Good(x)
    ensures var (y, c) := Send(x, source, target, queue, size); if c.Some? then CpuWaits(y.cpu, c.value.handle) else y == x
  {
    hide Splice, Slice;
  }

  // ---- Whole runs ------------------------------------------------------------------------------------------------

  datatype NodeEvent = Feed(bytes: Bytes) | Move(token: HostToken) | Return(input: OnDevice) | Release(lease: Token, allow: bool)

  function NodeNext(x: Sys, e: NodeEvent): Sys {
    match e
    case Feed(bytes) => Ingress(x, bytes).0
    case Move(token) => ToDevice(x, token).0
    case Return(input) => ToHost(x, input).0
    case Release(lease, allow) => ReleaseToken(x, lease, allow)
  }

  /** The token was handed out by one of the nodes. */
  predicate Leased(l: Leases, token: Token) {
    match token
    case HostLease(h) => h in l.ingress + l.host
    case DeviceLease(d) => d in l.device
    case QueueLease(q) => q in l.queues
    case CompletionLease(c) => c in l.sent + l.returned
  }

  ghost predicate IsNodeRun(run: seq<Sys>, events: seq<NodeEvent>) {
    && |run| == |events| + 1 && Good(run[0]) && run[0].leases == Leases([], [], [], [], [], [])
    && (forall i <- run[0].events :: i < run[0].next) && (forall i <- run[0].cpu.completions :: i < run[0].next)
    && forall i :: 0 <= i < |events| ==>
         (events[i].Release? ==> Leased(run[i].leases, events[i].lease)) && run[i + 1] == NodeNext(run[i], events[i])
  }

  /** A move or return of a positive size that is refused. */
  predicate Fails(x: Sys, e: NodeEvent) {
    || (e.Move? && e.token.size > 0 && ToDevice(x, e.token).1.None?)
    || (e.Return? && e.input.size > 0 && ToHost(x, e.input).1.None?)
  }

  function Leak(kept: Live, x: Sys, e: NodeEvent): Live {
    if !Fails(x, e) then kept
    else if e.Move? then kept.(device := kept.device + {x.next}, queues := kept.queues + {x.next + 1})
    else kept.(host := kept.host + {x.next})
  }

  /** What was there at the start, and every leak since. */
  ghost function Kept(run: seq<Sys>, events: seq<NodeEvent>, i: nat): Live
    requires |run| == |events| + 1 && i < |run|
  {
    if i == 0 then LiveNow(run[0]) else Leak(Kept(run, events, i - 1), run[i - 1], events[i - 1])
  }

  ghost predicate Sound(kept: Live, x: Sys) { Good(x) && Covered(kept, x) && Separate(kept, x) && OwnLeases(x) }

  lemma StartSound(x: Sys)
    requires Good(x) && x.leases == Leases([], [], [], [], [], [])
    requires (forall i <- x.events :: i < x.next) && (forall i <- x.cpu.completions :: i < x.next)
    ensures Sound(LiveNow(x), x)
  {
    assert Ids([]) == {} && CompletionIds([]) == {} && EventIds([]) == {};
  }

  lemma FeedSound(kept: Live, x: Sys, bytes: Bytes)
    requires Sound(kept, x)
    ensures Sound(kept, Ingress(x, bytes).0)
  {
    hide Ingress, Apart, OwnLeases, Ids, Good, Between, CompletionIds, EventIds;
    IngressNeedsBytes(x, bytes);
    if bytes != [] {
      IngressFacts(x, bytes);
      var y, h, n, l := Ingress(x, bytes).0, Handle(x.cpu.store.session, x.next), x.next, x.leases;
      IdsGrow(l.ingress, h);
      BetweenGrows(kept.host, LiveNow(x).host, Ids(l.ingress) + Ids(l.host), n);
      assert Ids(l.ingress) + Ids(l.host) + {n} == Ids(y.leases.ingress) + Ids(l.host);
      assert LiveNow(y).host == LiveNow(x).host + {n} && AllIds(y.leases) == AllIds(l) + {n};
      ApartGrows(KeptIds(kept), AllIds(l), n, n + 1, {n});
      ApartGrows(kept.events, AllEvents(l), n, n + 1, {});
      ApartGrows(kept.completions, AllCompletions(l), n, n + 1, {});
      OwnLeasesGrow(x, y);
    }
  }

  lemma BetweenGrows(kept: set<Id>, now: set<Id>, leased: set<Id>, i: Id)
    requires Between(kept, now, leased)
    ensures Between(kept, now + {i}, leased + {i}) && Between(kept + {i}, now + {i}, leased)
  {
  }

  /** `x` with one more lease on a list and one more resource. */
  lemma OwnLeasesGrow(x: Sys, y: Sys)
    requires OwnLeases(x) && y.cpu.store.session == x.cpu.store.session
    requires forall h <- y.leases.ingress + y.leases.host + y.leases.device + y.leases.queues ::
               h in x.leases.ingress + x.leases.host + x.leases.device + x.leases.queues || h.session == x.cpu.store.session
    requires forall c <- y.leases.sent + y.leases.returned ::
               c in x.leases.sent + x.leases.returned || c.handle.session == x.cpu.store.session
    ensures OwnLeases(y)
  {
  }

  lemma MoveSound(kept: Live, x: Sys, token: HostToken)
    requires Sound(kept, x) && ToDevice(x, token).1.Some?
    ensures Sound(kept, ToDevice(x, token).0)
  {
    hide ToDevice, Good, Between, Apart, Ids, CompletionIds, EventIds, OwnLeases;
    ToDeviceKeys(x, token);
    var y, l, n, now := ToDevice(x, token).0, x.leases, x.next, LiveNow(x);
    var session := x.cpu.store.session;
    var c := Completion(Handle(session, n + 3), n + 2);
    IdsGrow(l.device, Handle(session, n));
    IdsGrow(l.queues, Handle(session, n + 1));
    CompletionIdsGrow(l.sent, c);
    BetweenGrows(kept.device, now.device, Ids(l.device), n);
    BetweenGrows(kept.queues, now.queues, Ids(l.queues), n + 1);
    BetweenGrows(kept.events, now.events, EventIds(l.sent) + EventIds(l.returned), n + 2);
    BetweenGrows(kept.completions, now.completions, CompletionIds(l.sent) + CompletionIds(l.returned), n + 3);
    assert EventIds(l.sent) + EventIds(l.returned) + {n + 2} == EventIds(y.leases.sent) + EventIds(y.leases.returned);
    assert CompletionIds(l.sent) + CompletionIds(l.returned) + {n + 3} == CompletionIds(y.leases.sent) + CompletionIds(y.leases.returned);
    assert LiveNow(y).host == now.host;
    assert AllIds(y.leases) == AllIds(l) + {n, n + 1};
    ApartGrows(KeptIds(kept), AllIds(l), n, n + 4, {n, n + 1});
    ApartGrows(kept.events, AllEvents(l), n, n + 4, {n + 2});
    ApartGrows(kept.completions, AllCompletions(l), n, n + 4, {n + 3});
    OwnLeasesGrow(x, y);
  }

  lemma ReturnSound(kept: Live, x: Sys, input: OnDevice)
    requires Sound(kept, x) && ToHost(x, input).1.Some?
    ensures Sound(kept, ToHost(x, input).0)
  {
    hide ToHost, Good, Between, Apart, Ids, CompletionIds, EventIds, OwnLeases;
    ToHostKeys(x, input);
    var y, l, n, now := ToHost(x, input).0, x.leases, x.next, LiveNow(x);
    var session := x.cpu.store.session;
    var c := Completion(Handle(session, n + 2), n + 1);
    IdsGrow(l.host, Handle(session, n));
    CompletionIdsGrow(l.returned, c);
    BetweenGrows(kept.host, now.host, Ids(l.ingress) + Ids(l.host), n);
    BetweenGrows(kept.events, now.events, EventIds(l.sent) + EventIds(l.returned), n + 1);
    BetweenGrows(kept.completions, now.completions, CompletionIds(l.sent) + CompletionIds(l.returned), n + 2);
    assert Ids(l.ingress) + Ids(l.host) + {n} == Ids(l.ingress) + Ids(y.leases.host);
    assert EventIds(l.sent) + EventIds(l.returned) + {n + 1} == EventIds(l.sent) + EventIds(y.leases.returned);
    assert CompletionIds(l.sent) + CompletionIds(l.returned) + {n + 2} == CompletionIds(l.sent) + CompletionIds(y.leases.returned);
    assert LiveNow(y).device == now.device && LiveNow(y).queues == now.queues;
    assert AllIds(y.leases) == AllIds(l) + {n};
    ApartGrows(KeptIds(kept), AllIds(l), n, n + 3, {n});
    ApartGrows(kept.events, AllEvents(l), n, n + 3, {n + 1});
    ApartGrows(kept.completions, AllCompletions(l), n, n + 3, {n + 2});
    OwnLeasesGrow(x, y);
  }

  /** A refused step only adds to what is kept. */
  lemma FailureSound(kept: Live, x: Sys, e: NodeEvent)
    requires Sound(kept, x) && ((e.Move? && ToDevice(x, e.token).1.None?) || (e.Return? && ToHost(x, e.input).1.None?))
    ensures Sound(Leak(kept, x, e), NodeNext(x, e))
  {
    hide ToDevice, ToHost, Ids, CompletionIds, EventIds, Good, Apart, Between, OwnLeases;
    if e.Move? { ToDeviceFails(x, e.token); } else { ToHostFails(x, e.input); }
    var y, more, n, l, now := NodeNext(x, e), Leak(kept, x, e), x.next, x.leases, LiveNow(x);
    var new_ := if !Fails(x, e) then {} else if e.Move? then {n, n + 1} else {n};
    assert KeptIds(more) == KeptIds(kept) + new_;
    ApartGrows(KeptIds(kept), AllIds(l), n, y.next, new_);
    ApartGrows(kept.events, AllEvents(l), n, y.next, {});
    ApartGrows(kept.completions, AllCompletions(l), n, y.next, {});
    BetweenGrows(kept.host, now.host, Ids(l.ingress) + Ids(l.host), n);
    BetweenGrows(kept.device, now.device, Ids(l.device), n);
    BetweenGrows(kept.queues, now.queues, Ids(l.queues), n + 1);
    assert LiveNow(y).events == now.events && LiveNow(y).completions == now.completions;
    OwnLeasesGrow(x, y);
  }

  lemma LeasedIsOld(kept: Live, x: Sys, token: Token)
    requires Separate(kept, x) && Leased(x.leases, token)
    ensures match token
            case HostLease(h) => h.id in AllIds(x.leases) && h.id < x.next
            case DeviceLease(d) => d.id in AllIds(x.leases) && d.id < x.next
            case QueueLease(q) => q.id in AllIds(x.leases) && q.id < x.next
            case CompletionLease(c) => && c.handle.id in AllCompletions(x.leases) && c.event in AllEvents(x.leases)
                                       && c.handle.id < x.next && c.event < x.next
  {
  }

  lemma BetweenShrinks(kept: set<Id>, now: set<Id>, leased: set<Id>, now': set<Id>, i: Id)
    requires Between(kept, now, leased) && i !in kept && now - {i} <= now' <= now
    ensures Between(kept, now', leased)
  {
  }

  lemma ReleaseSound(kept: Live, x: Sys, token: Token, allow: bool)
    requires Sound(kept, x) && Leased(x.leases, token)
    ensures Sound(kept, ReleaseToken(x, token, allow))
  {
    hide Good, Ids, CompletionIds, EventIds, OwnLeases, FreeOne, RetireOne;
    LeasedIsOld(kept, x, token);
    match token
    case HostLease(h) => FreeSound(kept, x, h, allow);
    case DeviceLease(d) => FreeSound(kept, x, d, allow);
    case QueueLease(q) => FreeSound(kept, x, q, allow);
    case CompletionLease(c) => RetireSound(kept, x, c, allow);
  }

  lemma FreeSound(kept: Live, x: Sys, h: Handle, allow: bool)
    requires Sound(kept, x) && h.id in AllIds(x.leases) && h.id < x.next
    ensures Sound(kept, FreeOne(x, h, allow))
  {
    hide Good, Ids, CompletionIds, EventIds, OwnLeases, FreeOne, Between;
    FreeShrinks(x, h, allow);
    var y, now, l, i := FreeOne(x, h, allow), LiveNow(x), x.leases, h.id;
    assert i !in KeptIds(kept);
    BetweenShrinks(kept.host, now.host, Ids(l.ingress) + Ids(l.host), LiveNow(y).host, i);
    BetweenShrinks(kept.device, now.device, Ids(l.device), LiveNow(y).device, i);
    BetweenShrinks(kept.queues, now.queues, Ids(l.queues), LiveNow(y).queues, i);
    OwnLeasesGrow(x, y);
  }

  lemma RetireSound(kept: Live, x: Sys, c: Completion, allow: bool)
    requires Sound(kept, x) && c.handle.id in AllCompletions(x.leases) && c.event in AllEvents(x.leases)
    requires c.handle.id < x.next && c.event < x.next
    ensures Sound(kept, RetireOne(x, c, allow))
  {
    hide Good, Ids, CompletionIds, EventIds, OwnLeases, RetireOne, Between;
    RetireShrinks(x, c, allow);
    var y, l := RetireOne(x, c, allow), x.leases;
    BetweenShrinks(kept.events, x.events, EventIds(l.sent) + EventIds(l.returned), y.events, c.event);
    BetweenShrinks(kept.completions, x.cpu.completions, CompletionIds(l.sent) + CompletionIds(l.returned), y.cpu.completions, c.handle.id);
    OwnLeasesGrow(x, y);
  }

  lemma FreeShrinks(x: Sys, h: Handle, allow: bool)
    requires Good(x) && h.id < x.next
    ensures var y := FreeOne(x, h, allow);
            && Good(y) && y.next == x.next && y.events == x.events && y.cpu.completions == x.cpu.completions && y.leases == x.leases
            && y.cpu.store.session == x.cpu.store.session
            && x.cpu.store.host.Keys - {h.id} <= y.cpu.store.host.Keys <= x.cpu.store.host.Keys
            && x.cpu.store.device.Keys - {h.id} <= y.cpu.store.device.Keys <= x.cpu.store.device.Keys
            && x.cpu.store.queues - {h.id} <= y.cpu.store.queues <= x.cpu.store.queues
  {
  }

  lemma RetireShrinks(x: Sys, c: Completion, allow: bool)
    requires Good(x) && c.handle.id < x.next && c.event < x.next
    ensures var y := RetireOne(x, c, allow);
            && Good(y) && y.next == x.next && y.leases == x.leases && y.cpu.store == x.cpu.store.(released := y.cpu.store.released)
            && x.cpu.completions - {c.handle.id} <= y.cpu.completions <= x.cpu.completions
            && x.events - {c.event} <= y.events <= x.events
  {
  }

  lemma {:induction false} RunSound(run: seq<Sys>, events: seq<NodeEvent>, i: nat)
    requires IsNodeRun(run, events) && i < |run|
    ensures Sound(Kept(run, events, i), run[i])
  {
    hide Sound, Good;
    if i == 0 {
      StartSound(run[0]);
    } else {
      hide Ingress, ToDevice, ToHost, ReleaseToken, Leased;
      RunSound(run, events, i - 1);
      var kept, x, e := Kept(run, events, i - 1), run[i - 1], events[i - 1];
      assert run[i] == NodeNext(x, e);
      match e
      case Feed(bytes) => FeedSound(kept, x, bytes);
      case Move(token) => if ToDevice(x, token).1.Some? { MoveSound(kept, x, token); } else { FailureSound(kept, x, e); }
      case Return(input) => if ToHost(x, input).1.Some? { ReturnSound(kept, x, input); } else { FailureSound(kept, x, e); }
      case Release(lease, allow) => ReleaseSound(kept, x, lease, allow);
    }
  }

  /** Leaks are never undone and never coincide with older resources. */
  lemma {:induction false} KeptGrows(run: seq<Sys>, events: seq<NodeEvent>, i: nat)
    requires IsNodeRun(run, events) && i < |run|
    ensures LiveNow(run[0]).host <= Kept(run, events, i).host && LiveNow(run[0]).device <= Kept(run, events, i).device
    ensures Kept(run, events, i) == LiveNow(run[0]) <==> forall k :: 0 <= k < i ==> !Fails(run[k], events[k])
  {
    if i > 0 {
      hide Fails, Leak, Sound;
      KeptGrows(run, events, i - 1);
      RunSound(run, events, i - 1);
      LeakIsNew(LiveNow(run[0]), Kept(run, events, i - 1), run[i - 1], events[i - 1]);
    }
  }

  lemma LeakIsNew(base: Live, kept: Live, x: Sys, e: NodeEvent)
    requires Sound(kept, x) && base.host <= kept.host && base.device <= kept.device
    ensures base.host <= Leak(kept, x, e).host && base.device <= Leak(kept, x, e).device
    ensures Leak(kept, x, e) == base <==> kept == base && !Fails(x, e)
  {
    hide Fails, Good, Covered, OwnLeases;
    assert x.next !in KeptIds(kept);
  }

  /** Whatever was moved and released early, `Stop` leaves exactly what was there before and what
      failed steps leaked; so it restores the session if and only if no move or return of a
      positive size failed. */
  lemma StopRestoresIffNothingFailed(run: seq<Sys>, events: seq<NodeEvent>)
    requires IsNodeRun(run, events)
    ensures LiveNow(Stop(run[|run| - 1])) == Kept(run, events, |events|)
    ensures LiveNow(Stop(run[|run| - 1])) == LiveNow(run[0]) <==> forall k :: 0 <= k < |events| ==> !Fails(run[k], events[k])
  {
    hide Good, Covered, Separate, OwnLeases, Stop, Fails, Leak;
    RunSound(run, events, |events|);
    StopKeeps(Kept(run, events, |events|), run[|events|]);
    KeptGrows(run, events, |events|);
  }

  /** Such a failure is real: release the ingress lease, then move its token. */
  lemma MoveAfterReleaseLeaks(x: Sys, bytes: Bytes)
    requires Good(x) && x.leases == Leases([], [], [], [], [], []) && bytes != []
    requires (forall i <- x.events :: i < x.next) && (forall i <- x.cpu.completions :: i < x.next)
    ensures var a := Ingress(x, bytes).0; var token := HostToken(Handle(x.cpu.store.session, x.next), |bytes|);
            var b := ReleaseToken(a, HostLease(token.handle), false); var c := ToDevice(b, token).0;
            && IsNodeRun([x, a, b, c], [Feed(bytes), Release(HostLease(token.handle), false), Move(token)])
            && LiveNow(Stop(c)) != LiveNow(x)
  {
    hide ToDevice, Good, Ingress, Stop;
    IngressFacts(x, bytes);
    var a, token := Ingress(x, bytes).0, HostToken(Handle(x.cpu.store.session, x.next), |bytes|);
    var b := ReleaseToken(a, HostLease(token.handle), false);
    FreeShrinks(a, token.handle, false);
    assert x.next !in x.cpu.store.released by { NextIsNew(x); }
    assert token.handle.id in b.cpu.store.released by { ReleasedIsReleased(a, token.handle); }
    ToDeviceSucceedsIff(b, token);
    var run, events := [x, a, b, ToDevice(b, token).0], [Feed(bytes), Release(HostLease(token.handle), false), Move(token)];
    assert token.handle in a.leases.ingress;
    assert IsNodeRun(run, events);
    StopRestoresIffNothingFailed(run, events);
    assert Fails(run[2], events[2]);
  }

  lemma NextIsNew(x: Sys)
    requires Good(x)
    ensures x.next !in x.cpu.store.released
  {
  }

  lemma ReleasedIsReleased(x: Sys, h: Handle)
    requires h.session == x.cpu.store.session && h.id !in x.cpu.store.released && h.id in x.cpu.store.host
    ensures h.id in FreeOne(x, h, false).cpu.store.released
  {
  }
}
