/** The investigation bundle service as the object its callers and its worker share. Every public
    method is one critical section; it takes the step of the same name and extends the object's own
    run, to which the theorems about runs apply. */
module BundleServiceObject {
  import opened Prelude
  import opened BundleModel
  import BundleRuns
  import BundleHistory

  class BundleService {
    const staging: Staging
    var ops: map<OpId, Op>
    var listed: seq<OpId>
    var keys: map<Key, Record>
    var queue: seq<OpId>
    var worker: Worker
    var root: map<Name, OpId>
    var leaked: set<OpId>
    var nextSequence: OpId
    var shuttingDown: bool
    var stopRequested: bool
    ghost var run: seq<State>
    ghost var events: seq<BundleRuns.Event>

    ghost function View(): State
      reads this
    {
      State(ops, History(listed, keys), queue, worker, root, leaked, nextSequence, shuttingDown, stopRequested)
    }

    /** What the private steps need. */
    ghost predicate Shaped()
      reads this
    {
      BundleRuns.WellFormed(View()) && forall o <- listed :: o in ops
    }

    /** The object is the last state of the run that its calls have made. */
    ghost predicate Valid()
      reads this
    {
      BundleRuns.WellFormed(View()) && BundleRuns.IsRun(staging, run, events) && run[|run| - 1] == View()
    }

    lemma Holds()
      requires Valid()
      ensures BundleRuns.Inv(staging, View()) && BundleHistory.HistoryOk(View()) && Shaped()
    {
      BundleRuns.RunInvariant(staging, run, events, |run| - 1);
      BundleHistory.RunHistory(staging, run, events, |run| - 1);
    }

    /** Records the step that a call has just taken. */
    ghost method Note(e: BundleRuns.Event, before: State)
      requires BundleRuns.IsRun(staging, run, events) && run[|run| - 1] == before && BundleRuns.WellFormed(before)
      requires View() == BundleRuns.Next(staging, before, e)
      modifies this`run, this`events
      ensures Valid() && View() == old(View()) && events == old(events) + [e] && run == old(run) + [View()]
    {
      hide BundleRuns.Next;
      BundleRuns.RunGrows(staging, run, events, e);
      run, events := run + [View()], events + [e];
      assert BundleRuns.WellFormed(View()) by { BundleRuns.RunInvariant(staging, run, events, |run| - 1); }
    }

    constructor (staging: Staging, earlier: set<Name>)
      ensures Valid() && events == [] && this.staging == staging && root.Keys == earlier
    {
      this.staging := staging;
      ops, listed, keys, queue, worker, leaked, nextSequence := map[], [], map[], [], Idle, {}, 1;
      root := map n <- earlier :: 0;
      shuttingDown, stopRequested := false, false;
      events := [];
      new;
      run := [View()];
    }

    method Transition(o: OpId, to: OpState)
      requires o in ops
      modifies this`ops
      ensures ops == old(ops)[o := Transitioned(old(ops)[o], to)]
    {
      if ops[o].cancelRequested && to != Cancelled {
        ops := ops[o := ops[o].(state := Cancelling)];
      } else {
        ops := ops[o := ops[o].(state := to)];
      }
    }

    method Terminal(o: OpId, to: OpState)
      requires o in ops
      modifies this`ops
      ensures ops == old(ops)[o := Ended(old(ops)[o], to)]
    {
      var state := to;
      if AtRest(ops[o].state) {
        return;
      }
      if ops[o].cancelRequested && state != Cancelled {
        state := Cancelled;
      }
      ops := ops[o := ops[o].(state := state)];
    }

    // ---- Requests ---------------------------------------------------------------------------------------

    /** The first listed operation at rest, or the length of the list. */
    method FindRested() returns (i: nat)
      requires Shaped()
      ensures i <= |listed|
      ensures WithoutFirstRested(ops, listed) == if i < |listed| then listed[..i] + listed[i + 1..] else listed
      ensures i < |listed| ==> AtRest(ops[listed[i]].state)
    {
      i := 0;
      while i < |listed| && !AtRest(ops[listed[i]].state)
        invariant 0 <= i <= |listed|
        invariant WithoutFirstRested(ops, listed) == listed[..i] + WithoutFirstRested(ops, listed[i..])
      {
        RestedSplit(ops, listed, i);
        i := i + 1;
      }
      if i < |listed| { RestedSplit(ops, listed, i); }
    }

    method PurgeUnlocked()
      requires Shaped() && Increasing(listed)
      modifies this`listed, this`keys
      ensures Shaped() && History(listed, keys) == Purged(ops, History(old(listed), old(keys)))
    {
      ghost var whole, entries := listed, keys;
      ForgetNothing(entries, ops, whole);
      var more := true;
      while more && |listed| >= MAX_OPERATIONS
        invariant Shaped() && Increasing(listed) && (forall o <- listed :: o in whole)
        invariant Trimmed(ops, listed) == Trimmed(ops, whole)
        invariant keys == Forgetting(entries, ops, whole, listed)
        invariant !more ==> WithoutFirstRested(ops, listed) == listed
        decreases more, |listed|
      {
        hide Forgetting, Increasing;
        var i := FindRested();
        if i == |listed| {
          more := false;
        } else {
          ForgetOne(entries, ops, whole, listed, i);
          keys := keys - {ops[listed[i]].key};
          listed := listed[..i] + listed[i + 1..];
        }
      }
    }

    method Submit(key: Key, request: Request) returns (reply: Reply)
      requires Valid()
      modifies this`ops, this`listed, this`keys, this`queue, this`nextSequence, this`run, this`events
      ensures Valid() && events == old(events) + [BundleRuns.Submit(key, request)]
      ensures (View(), reply) == SubmitStep(old(View()), key, request)
    {
      hide BundleRuns.IsRun, BundleRuns.Inv, BundleRuns.WellFormed, SubmitStep;
      Holds();
      ghost var before := View();
      reply := SubmitLocked(key, request);
      Note(BundleRuns.Submit(key, request), before);
    }

    method SubmitLocked(key: Key, request: Request) returns (reply: Reply)
      requires Shaped() && Increasing(listed)
      modifies this`ops, this`listed, this`keys, this`queue, this`nextSequence
      ensures (View(), reply) == SubmitStep(old(View()), key, request)
    {
      hide Purged, Increasing;
      if shuttingDown {
        return Unavailable;
      }
      if key in keys {
        if keys[key].request != request {
          return KeyReused;
        }
        if keys[key].op in listed || (worker.Busy? && worker.op == keys[key].op) {
          return Reused(keys[key].op);
        }
      }
      PurgeUnlocked();
      if |listed| >= MAX_OPERATIONS {
        return HistoryFull;
      }
      var o := nextSequence;
      nextSequence := nextSequence + 1;
      ops := ops[o := NewOp(key, request)];
      listed, queue := listed + [o], queue + [o];
      keys := keys[key := Record(request, o)];
      reply := Accepted(o);
    }

    method Cancel(o: OpId) returns (reply: Reply)
      requires Valid()
      modifies this`ops, this`queue, this`run, this`events
      ensures Valid() && events == old(events) + [BundleRuns.Cancel(o)]
      ensures (View(), reply) == CancelStep(old(View()), o)
    {
      hide BundleRuns.IsRun, BundleRuns.Inv, BundleRuns.WellFormed, CancelStep;
      Holds();
      ghost var before := View();
      reply := CancelLocked(o);
      Note(BundleRuns.Cancel(o), before);
    }

    method CancelLocked(o: OpId) returns (reply: Reply)
      requires Shaped()
      modifies this`ops, this`queue
      ensures (View(), reply) == CancelStep(old(View()), o)
    {
      if o !in listed {
        return NotFound;
      }
      if AtRest(ops[o].state) || ops[o].committed {
        return Unchanged;
      }
      ops := ops[o := ops[o].(cancelRequested := true)];
      if ops[o].state == Queued {
        queue := Erase(queue, o);
        ops := ops[o := ops[o].(state := Cancelled)];
      } else {
        ops := ops[o := ops[o].(state := Cancelling)];
      }
      assert ops == old(ops)[o := ops[o]];
      reply := Accepted(o);
    }

    method Shutdown()
      requires Valid()
      modifies this`ops, this`queue, this`shuttingDown, this`run, this`events
      ensures Valid() && events == old(events) + [BundleRuns.Shutdown]
      ensures View() == ShutdownStep(old(View()))
    {
      hide BundleRuns.IsRun, BundleRuns.Inv, ShutdownStep;
      Holds();
      ghost var before := View();
      ShutdownLocked();
      Note(BundleRuns.Shutdown, before);
    }

    method ShutdownLocked()
      requires Shaped()
      modifies this`ops, this`queue, this`shuttingDown
      ensures View() == ShutdownStep(old(View()))
    {
      if shuttingDown {
        return;
      }
      shuttingDown := true;
      CancelQueue();
      queue := [];
      if worker.Busy? && !ops[worker.op].committed {
        ops := ops[worker.op := ops[worker.op].(cancelRequested := true)];
      }
      assert ops == ShutdownStep(old(View())).ops;
    }

    method CancelQueue()
      requires Shaped()
      modifies this`ops
      ensures ops == map o <- old(ops) ::
        if o in queue then old(ops)[o].(cancelRequested := true, state := Cancelled) else old(ops)[o]
    {
      for i := 0 to |queue|
        invariant ops.Keys == old(ops).Keys
        invariant forall o <- ops ::
          ops[o] == if o in queue[..i] then old(ops)[o].(cancelRequested := true, state := Cancelled) else old(ops)[o]
      {
        var o := queue[i];
        assert queue[..i + 1] == queue[..i] + [o];
        ops := ops[o := ops[o].(cancelRequested := true, state := Cancelled)];
      }
      assert queue[..|queue|] == queue;
    }

    method RequestStop()
      requires Valid()
      modifies this`stopRequested, this`run, this`events
      ensures Valid() && events == old(events) + [BundleRuns.RequestStop]
      ensures View() == StopStep(old(View()))
    {
      hide BundleRuns.IsRun, BundleRuns.Inv;
      Holds();
      ghost var before := View();
      if shuttingDown {
        stopRequested := true;
      }
      Note(BundleRuns.RequestStop, before);
    }

    // ---- Worker -------------------------------------------------------------------------------------------

    method PopNext()
      requires Valid()
      modifies this`worker, this`queue, this`run, this`events
      ensures Valid() && events == old(events) + [BundleRuns.Pop]
      ensures View() == PopStep(old(View()))
    {
      hide BundleRuns.IsRun, BundleRuns.Inv;
      Holds();
      ghost var before := View();
      if worker.Idle? && !shuttingDown && !stopRequested && queue != [] {
        worker, queue := Busy(queue[0], Check), queue[1..];
      }
      Note(BundleRuns.Pop, before);
    }

    /** The catch block of `Export`, before the rename. */
    method Unwind(o: OpId, c: Choice, fault: Fault)
      modifies this`root, this`leaked, this`worker
      ensures View() == Cleaned(staging, old(View()), o, c, fault)
    {
      if c.cleans {
        root := root - {staging(o)};
      } else {
        leaked := leaked + {o};
      }
      worker := Busy(o, Handle(fault));
    }

    method EnterStaging(o: OpId, c: Choice)
      requires o in ops
      modifies this`root, this`worker
      ensures View() == StagingStep(staging, old(View()), o, c)
    {
      var op := ops[o];
      if c.fault.Some? {
        worker := Busy(o, Handle(c.fault.value));
      } else if !op.kind.Export? || op.kind.bundle in root || staging(o) in root {
        worker := Busy(o, Handle(OtherError));
      } else {
        root := root[staging(o) := o];
        worker := Busy(o, Stage);
      }
    }

    /** The critical section around the rename: check, rename and marker under one lock. */
    method Rename(o: OpId, c: Choice)
      requires o in ops
      modifies this`root, this`leaked, this`worker, this`ops
      ensures View() == PublishStep(staging, old(View()), o, c)
      ensures ops[o].committed ==> old(ops)[o].committed || !old(ops)[o].cancelRequested
    {
      var op := ops[o];
      if op.cancelRequested || stopRequested || c.expired {
        Unwind(o, c, Interrupted);
      } else if c.fault.Some? {
        Unwind(o, c, c.fault.value);
      } else if !op.kind.Export? || op.kind.bundle in root {
        Unwind(o, c, OtherError);
      } else {
        root := (root - {staging(o)})[op.kind.bundle := o];
        ops := ops[o := op.(state := Completed, committed := true)];
        worker := Busy(o, Sync);
      }
    }

    method Enters(o: OpId, to: OpState, next: Pc)
      requires o in ops
      modifies this`ops, this`worker
      ensures ops == old(ops)[o := Transitioned(old(ops)[o], to)] && worker == Busy(o, next)
    {
      Transition(o, to);
      worker := Busy(o, next);
    }

    method Ends(o: OpId, to: OpState)
      requires o in ops
      modifies this`ops, this`worker
      ensures ops == old(ops)[o := Ended(old(ops)[o], to)] && worker == Busy(o, Exit)
    {
      Terminal(o, to);
      worker := Busy(o, Exit);
    }

    method Goes(o: OpId, c: Choice, next: Pc)
      requires o in ops
      modifies this`worker
      ensures worker == Busy(o, if c.fault.Some? then Handle(c.fault.value) else next) && ops[o := ops[o]] == ops
    {
      worker := Busy(o, if c.fault.Some? then Handle(c.fault.value) else next);
    }

    /** The straight-line parts of `Process`, `Export`, `ValidateBundle` and `Replay`. */
    method Proceed(o: OpId, pc: Pc, c: Choice)
      requires o in ops && IsPlain(pc, c)
      modifies this`ops, this`worker
      ensures var (op, next) := PlainStep(old(ops)[o], pc, stopRequested, c);
              ops == old(ops)[o := op] && worker == Busy(o, next)
    {
      hide Transitioned, Ended;
      assert ops[o := ops[o]] == ops;
      var op := ops[o];
      match pc
      case Check => if op.cancelRequested { Ends(o, Cancelled); } else { worker := Busy(o, Enter); }
      case Enter => if op.kind.Export? { Enters(o, ValidatingSource, Source); } else { Enters(o, Validating, Inspect); }
      case Source =>
        if c.fault.Some? { worker := Busy(o, Handle(c.fault.value)); } else { Enters(o, Hashing, Hash); }
      case Hash => Goes(o, c, MakeStaging);
      case Stage => worker := Busy(o, if op.kind.Export? && op.kind.copy then ToCopying else ToPublishing);
      case ToCopying => Enters(o, Copying, Copy);
      case Copy => worker := Busy(o, ToPublishing);
      case ToPublishing => Enters(o, Publishing, Seal);
      case Seal => worker := Busy(o, Publish);
      case Sync => Goes(o, c, Exit);
      case Inspect => Goes(o, c, if op.kind.Replay? then ToRebuild else Conclude);
      case ToRebuild =>
        if Stopping(op, stopRequested, c) { worker := Busy(o, Handle(Interrupted)); }
        else { Enters(o, RebuildingReceiver, ToRunning); }
      case ToRunning =>
        if c.fault.Some? { worker := Busy(o, Handle(c.fault.value)); } else { Enters(o, RunningReceiver, Receiver); }
      case Receiver =>
        if Stopping(op, stopRequested, c) { worker := Busy(o, Handle(Interrupted)); }
        else if c.finished { Goes(o, c, Conclude); }
        else { worker := Busy(o, Receiver); }
      case Conclude => Ends(o, Completed);
      case Handle(fault) => Catch(o, fault, c);
      case Judge(verdict) => Ends(o, verdict);
    }

    /** The handlers of `Process`: the verdict is read under one lock and written under the next. */
    method Catch(o: OpId, fault: Fault, c: Choice)
      requires o in ops
      modifies this`ops, this`worker
      ensures var (op, next) := PlainStep(old(ops)[o], Handle(fault), stopRequested, c);
              ops == old(ops)[o := op] && worker == Busy(o, next)
    {
      if fault == SystemError || fault == LengthError {
        Ends(o, Failed);
        return;
      }
      var interrupted := fault == Interrupted;
      var cancelled := ops[o].cancelRequested || stopRequested;
      var timedOut := c.expired;
      var verdict := if interrupted && cancelled then Cancelled else if interrupted && timedOut then TimedOut else Failed;
      worker := Busy(o, Judge(verdict));
      assert ops[o := ops[o]] == ops;
    }

    method Process(c: Choice)
      requires Valid()
      modifies this`ops, this`root, this`leaked, this`worker, this`run, this`events
      ensures Valid() && events == old(events) + [BundleRuns.Work(c)]
      ensures View() == WorkStep(staging, old(View()), c)
    {
      hide BundleRuns.IsRun, BundleRuns.Inv, WorkStep;
      Holds();
      ghost var before := View();
      ProcessStep(c);
      Note(BundleRuns.Work(c), before);
    }

    method ProcessStep(c: Choice)
      requires Shaped()
      modifies this`ops, this`root, this`leaked, this`worker
      ensures View() == WorkStep(staging, old(View()), c)
    {
      hide PlainStep, StagingStep, PublishStep, Cleaned;
      if worker.Idle? {
        return;
      }
      var o, pc := worker.op, worker.pc;
      if pc.Exit? {
        worker := Idle;
      } else if pc.MakeStaging? {
        EnterStaging(o, c);
      } else if pc.Publish? {
        Rename(o, c);
      } else if (pc.Stage? || pc.Copy? || pc.Seal?) && c.fault.Some? {
        Unwind(o, c, c.fault.value);
      } else {
        Proceed(o, pc, c);
      }
    }
  }

  // ---- Sequence facts ----------------------------------------------------------------------------------------

  lemma RestedSplit(ops: map<OpId, Op>, listed: seq<OpId>, i: nat)
    requires i < |listed|
    ensures listed[..i] + WithoutFirstRested(ops, listed[i..]) ==
            if listed[i] in ops && AtRest(ops[listed[i]].state) then listed[..i] + listed[i + 1..]
            else listed[..i + 1] + WithoutFirstRested(ops, listed[i + 1..])
  {
    var tail := listed[i..];
    var rest := WithoutFirstRested(ops, listed[i + 1..]);
    assert tail[0] == listed[i] && tail[1..] == listed[i + 1..];
    assert listed[..i] + ([listed[i]] + rest) == listed[..i + 1] + rest;
  }

  lemma ForgetNothing(keys: map<Key, Record>, ops: map<OpId, Op>, listed: seq<OpId>)
    ensures Forgetting(keys, ops, listed, listed) == keys
  {
  }

  lemma ForgetOne(keys: map<Key, Record>, ops: map<OpId, Op>, whole: seq<OpId>, part: seq<OpId>, i: nat)
    requires i < |part| && part[i] in ops && Increasing(part) && forall o <- part :: o in whole
    ensures var less := part[..i] + part[i + 1..];
            && Forgetting(keys, ops, whole, less) == Forgetting(keys, ops, whole, part) - {ops[part[i]].key}
            && Increasing(less) && (forall o <- less :: o in part) && |less| < |part|
  {
    var less, x := part[..i] + part[i + 1..], part[i];
    assert part == part[..i] + [x] + part[i + 1..];
    assert x !in part[..i] && x !in part[i + 1..];
    assert forall o :: o in part <==> o in less || o == x;
    forall a, b | 0 <= a < b < |less| ensures less[a] < less[b] {
      assert less[a] == part[if a < i then a else a + 1] && less[b] == part[if b < i then b else b + 1];
    }
  }
}
