/** Concurrent `Release` calls: validation, locked erase and flag store are three separate steps. */
module AccelRelease {
  import opened Prelude
  import opened Accel

  type CallId = nat

  datatype Phase = Validated | Erased(removed: bool) | Returned(result: Option<bool>)

  datatype Call = Call(id: Id, allow: bool, phase: Phase)

  /** `storage` holds the live identifiers of all three maps; identifiers come from one counter. */
  datatype Session = Session(session: nat, storage: set<Id>, issued: map<Id, Kind>, released: set<Id>, next: Id,
                             calls: map<CallId, Call>)

  datatype Event =
    | Allocate(kind: Kind)
    | Begin(call: CallId, handle: Handle, allow: bool)
    | Erase(call: CallId)
    | StoreFlag(call: CallId)

  function Next(s: Session, e: Event): Session {
    match e
    case Allocate(kind) =>
      s.(storage := s.storage + {s.next}, issued := s.issued[s.next := kind], next := s.next + 1)
    case Begin(call, handle, allow) =>
      if call in s.calls then s
      else
        var refused := handle.session != s.session || (!allow && handle.id in s.released);
        s.(calls := s.calls[call := Call(handle.id, allow, if refused then Returned(None) else Validated)])
    case Erase(call) =>
      if call !in s.calls || !s.calls[call].phase.Validated? then s
      else
        var c := s.calls[call];
        var removed := c.id in s.storage;
        var phase := if !removed && !c.allow then Returned(None) else Erased(removed);
        s.(storage := s.storage - {c.id}, calls := s.calls[call := c.(phase := phase)])
    case StoreFlag(call) =>
      if call !in s.calls || !s.calls[call].phase.Erased? then s
      else
        var c := s.calls[call];
        s.(released := s.released + {c.id}, calls := s.calls[call := c.(phase := Returned(Some(c.phase.removed)))])
  }

  /** Handles of this session were issued by it. Completions have a release of their own, which
      always reports `released`, and are no part of this protocol. */
  ghost predicate Proper(s: Session, e: Event) {
    && (e.Begin? && e.handle.session == s.session ==> e.handle.id in s.issued)
    && (e.Allocate? ==> !e.kind.CompletionKind?)
  }

  ghost predicate Init(s: Session) {
    s.storage == {} && s.issued == map[] && s.released == {} && s.calls == map[]
  }

  ghost predicate IsRun(run: seq<Session>, events: seq<Event>) {
    && |run| == |events| + 1 && Init(run[0])
    && forall i :: 0 <= i < |events| ==> Proper(run[i], events[i]) && run[i + 1] == Next(run[i], events[i])
  }

  /** The call took the resource out of the map. */
  predicate Wins(c: Call) { c.phase == Erased(true) || c.phase == Returned(Some(true)) }

  ghost predicate CallOk(s: Session, x: CallId)
    requires x in s.calls
  {
    var c := s.calls[x];
    && (!c.phase.Returned? || c.phase.result.Some? ==> c.id in s.issued)
    && (Wins(c) ==> c.id !in s.storage)
    && (c.phase.Erased? ==> c.id !in s.storage)
    && (c.phase.Returned? && c.phase.result.Some? ==> c.id in s.released)
  }

  ghost predicate Taken(s: Session, id: Id) { exists x :: x in s.calls && s.calls[x].id == id && Wins(s.calls[x]) }

  ghost predicate CallsOk(s: Session) { forall x <- s.calls :: CallOk(s, x) }

  ghost predicate OneWinner(s: Session) {
    forall x, y :: x in s.calls && y in s.calls && x != y && s.calls[x].id == s.calls[y].id ==>
      !(Wins(s.calls[x]) && Wins(s.calls[y]))
  }

  ghost predicate StorageOk(s: Session) {
    && s.storage <= s.issued.Keys
    && (forall i <- s.issued :: i < s.next && (i in s.storage || Taken(s, i)))
    && (forall i <- s.released :: i in s.issued && i !in s.storage)
  }

  ghost predicate Inv(s: Session) { CallsOk(s) && OneWinner(s) && StorageOk(s) }

  lemma TakenStays(s: Session, t: Session, i: Id)
    requires Taken(s, i)
    requires forall x <- s.calls :: x in t.calls && t.calls[x].id == s.calls[x].id && (Wins(s.calls[x]) ==> Wins(t.calls[x]))
    ensures Taken(t, i)
  {
    var x :| x in s.calls && s.calls[x].id == i && Wins(s.calls[x]);
    assert x in t.calls && Wins(t.calls[x]);
  }

  lemma StorageKeeps(s: Session, e: Event)
    requires Inv(s) && Proper(s, e)
    ensures StorageOk(Next(s, e))
  {
    hide OneWinner;
    var t := Next(s, e);
    forall i <- t.issued ensures i < t.next && (i in t.storage || Taken(t, i)) {
      if i in s.issued && Taken(s, i) {
        TakenStays(s, t, i);
      } else if e.Erase? && i !in t.storage && i in s.storage {
        assert t.calls[e.call].id == i && Wins(t.calls[e.call]);
      }
    }
    hide Taken;
    if e.StoreFlag? && e.call in s.calls { assert CallOk(s, e.call); }
  }

  lemma CallsKeep(s: Session, e: Event)
    requires Inv(s) && Proper(s, e)
    ensures CallsOk(Next(s, e))
  {
    hide OneWinner, Taken;
    var t := Next(s, e);
    forall x <- t.calls ensures CallOk(t, x) { if x in s.calls { assert CallOk(s, x); } }
  }

  /** Only the erase of a live identifier makes a winner, and no winner's identifier is live. */
  lemma WinnerKeeps(s: Session, e: Event)
    requires Inv(s) && Proper(s, e)
    ensures OneWinner(Next(s, e))
  {
    hide StorageOk;
    var t := Next(s, e);
    forall x, y | x in t.calls && y in t.calls && x != y && t.calls[x].id == t.calls[y].id
      ensures !(Wins(t.calls[x]) && Wins(t.calls[y]))
    {
      if x in s.calls { assert CallOk(s, x); }
      if y in s.calls { assert CallOk(s, y); }
    }
  }

  lemma NextKeeps(s: Session, e: Event)
    requires Inv(s) && Proper(s, e)
    ensures Inv(Next(s, e))
  {
    hide CallsOk, OneWinner, StorageOk, Next, Proper;
    StorageKeeps(s, e);
    CallsKeep(s, e);
    WinnerKeeps(s, e);
  }

  lemma {:induction false} RunInvariant(run: seq<Session>, events: seq<Event>, i: nat)
    requires IsRun(run, events) && i < |run|
    ensures Inv(run[i])
  {
    if i > 0 {
      hide Inv, Next;
      RunInvariant(run, events, i - 1);
      assert run[i] == Next(run[i - 1], events[i - 1]);
      NextKeeps(run[i - 1], events[i - 1]);
    }
  }

  /** However the steps interleave, at most one release of a resource reports `released`. */
  lemma ReleasedAtMostOnce(run: seq<Session>, events: seq<Event>, i: nat, x: CallId, y: CallId)
    requires IsRun(run, events) && i < |run| && x in run[i].calls && y in run[i].calls && x != y
    requires run[i].calls[x].id == run[i].calls[y].id
    ensures !(run[i].calls[x].phase == Returned(Some(true)) && run[i].calls[y].phase == Returned(Some(true)))
  {
    RunInvariant(run, events, i);
  }

  ghost predicate Quiet(s: Session) { forall x <- s.calls :: s.calls[x].phase.Returned? }

  /** With no call in flight, a resource is in its map if and only if its handle is not released,
      and a released one was reported released by exactly one call. */
  lemma QuietMeansConsistent(run: seq<Session>, events: seq<Event>, i: nat, id: Id)
    requires IsRun(run, events) && i < |run| && Quiet(run[i]) && id in run[i].issued
    ensures id in run[i].storage <==> id !in run[i].released
    ensures id in run[i].released ==>
      exists x :: x in run[i].calls && run[i].calls[x].id == id && run[i].calls[x].phase == Returned(Some(true))
  {
    RunInvariant(run, events, i);
    var s := run[i];
    if id !in s.storage {
      var x :| x in s.calls && s.calls[x].id == id && Wins(s.calls[x]);
      assert CallOk(s, x) && s.calls[x].phase == Returned(Some(true));
    }
  }

  /** Identifiers never repeat, so no identifier is both a host and a device resource. */
  lemma {:induction false} KindsNeverChange(run: seq<Session>, events: seq<Event>, i: nat, k: nat, id: Id)
    requires IsRun(run, events) && i <= k < |run| && id in run[i].issued
    ensures id in run[k].issued && run[k].issued[id] == run[i].issued[id]
    decreases k
  {
    if i < k {
      KindsNeverChange(run, events, i, k - 1, id);
      RunInvariant(run, events, k - 1);
      assert run[k] == Next(run[k - 1], events[k - 1]);
    }
  }

  /** A handle of another session is refused at once and changes no resource. */
  lemma ForeignHandleIsRefused(s: Session, call: CallId, handle: Handle, allow: bool, later: Event)
    requires handle.session != s.session && call !in s.calls
    ensures var t := Next(s, Begin(call, handle, allow));
            && t == s.(calls := t.calls) && t.calls[call].phase == Returned(None)
            && ((later.Erase? || later.StoreFlag?) && later.call == call ==> Next(t, later) == t)
  {
  }
}
