/** What requests to the bundle service achieve: every operation was submitted, is taken in its turn, and
    ends `cancelled` exactly if it was withdrawn in time. */
module BundleRequests {
  import opened Prelude
  import opened BundleModel
  import opened BundleRuns
  import opened BundleOutcomes
  import BundleHistory

  // ---- Submission ------------------------------------------------------------------------------------------------

  /** Step `k` submitted operation `o`. */
  ghost predicate SubmittedAt(run: seq<State>, events: seq<Event>, k: nat, o: OpId)
    requires |run| == |events| + 1
  {
    k < |events| && events[k].Submit? && !run[k].shuttingDown && o == run[k].nextSequence && o !in run[k].ops
  }

  lemma SubmittedRecord(staging: Staging, s: State, e: Event, o: OpId)
    requires Inv(staging, s) && WellFormed(s) && o !in s.ops && o in Next(staging, s, e).ops
    ensures e.Submit? && !s.shuttingDown && o == s.nextSequence
    ensures var op := Next(staging, s, e).ops[o];
            op.kind == e.request.kind && op.key == e.key && op.request == e.request && op.state == Queued
            && !op.cancelRequested && !op.committed
  {
    NewIsQueued(staging, s, e, o);
    hide Inv, Purged;
  }

  /** Every operation of a run was submitted while the service was up, and is of the kind, for the key
      and for the request of that submit. */
  lemma {:induction false} EveryOperationWasSubmitted(staging: Staging, run: seq<State>, events: seq<Event>, i: nat, o: OpId)
    requires IsRun(staging, run, events) && i < |run| && o in run[i].ops
    ensures |run| == |events| + 1
    ensures exists k: nat :: k < i && SubmittedAt(run, events, k, o) && var op, e := run[i].ops[o], events[k];
              op.kind == e.request.kind && op.key == e.key && op.request == e.request
  {
    hide Inv, Next, WellFormed;
    assert i > 0;
    RunStep(staging, run, events, i - 1);
    if o in run[i - 1].ops {
      EveryOperationWasSubmitted(staging, run, events, i - 1, o);
      RunEvolves(staging, run, events, i - 1, i);
    } else {
      SubmittedRecord(staging, run[i - 1], events[i - 1], o);
      assert SubmittedAt(run, events, i - 1, o);
    }
  }

  // ---- First in, first out ----------------------------------------------------------------------------------------

  ghost predicate Takes(run: seq<State>, events: seq<Event>, k: nat, o: OpId)
    requires |run| == |events| + 1
  {
    k < |events| && run[k].worker.Idle? && IsActive(run[k + 1], o)
  }

  ghost predicate Precedes(o: OpId, queue: seq<OpId>) { forall x <- queue :: o < x }

  lemma TakenIsFirst(staging: Staging, s: State, e: Event)
    requires WellFormed(s) && s.worker.Idle? && Next(staging, s, e).worker.Busy?
    ensures s.queue != [] && Next(staging, s, e).worker.op == s.queue[0] && Next(staging, s, e).queue == s.queue[1..]
  {
    hide Purged;
  }

  lemma QueueInOrder(staging: Staging, s: State)
    requires Inv(staging, s)
    ensures Increasing(s.queue) && (forall o <- s.ops :: o < s.nextSequence)
    ensures s.worker.Idle? ==> forall o <- s.ops :: !AtRest(s.ops[o].state) ==> o in s.queue
  {
    forall o <- s.ops ensures o < s.nextSequence && (s.worker.Idle? && !AtRest(s.ops[o].state) ==> o in s.queue) { assert OpInv(s, o); }
  }

  /** The worker always takes the oldest operation that is not at rest. */
  lemma TakesTheOldest(staging: Staging, run: seq<State>, events: seq<Event>, k: nat, o: OpId)
    requires IsRun(staging, run, events) && |run| == |events| + 1 && Takes(run, events, k, o)
    ensures o in run[k].ops && (forall x <- run[k].ops :: !AtRest(run[k].ops[x].state) ==> o <= x)
    ensures Precedes(o, run[k + 1].queue)
  {
    hide Inv, Next, WellFormed;
    RunStep(staging, run, events, k);
    TakenIsFirst(staging, run[k], events[k]);
    QueueInOrder(staging, run[k]);
    IncreasingTail(run[k].queue);
    assert run[k].queue[0] in run[k].queue;
    QueuedExists(staging, run[k], o);
  }

  lemma QueuedExists(staging: Staging, s: State, o: OpId)
    requires Inv(staging, s) && o in s.queue
    ensures o in s.ops
  {
    hide OpInv, DirInv;
  }

  lemma {:induction false} TakenIsOlder(staging: Staging, run: seq<State>, events: seq<Event>, k: nat, i: nat, o: OpId)
    requires IsRun(staging, run, events) && |run| == |events| + 1 && Takes(run, events, k, o) && k < i < |run|
    ensures Precedes(o, run[i].queue)
  {
    hide Inv, Next, WellFormed, Takes;
    TakesTheOldest(staging, run, events, k, o);
    if k + 1 < i {
      TakenIsOlder(staging, run, events, k, i - 1, o);
      RunStep(staging, run, events, i - 1);
      RunEvolves(staging, run, events, k, i - 1);
      QueueInOrder(staging, run[i - 1]);
      forall x <- run[i].queue ensures o < x { QueueComesFrom(staging, run[i - 1], events[i - 1], x); }
    }
  }

  /** Operations are begun in the order in which they were accepted. */
  lemma FirstInFirstOut(staging: Staging, run: seq<State>, events: seq<Event>, k: nat, i: nat, o: OpId, x: OpId)
    requires IsRun(staging, run, events) && |run| == |events| + 1 && k < i && Takes(run, events, k, o) && Takes(run, events, i, x)
    ensures o < x
  {
    hide Inv, Next, WellFormed;
    TakenIsOlder(staging, run, events, k, i, o);
    RunStep(staging, run, events, i);
    TakenIsFirst(staging, run[i], events[i]);
    assert run[i].queue[0] in run[i].queue;
  }

  // ---- Cancellation -----------------------------------------------------------------------------------------------

  /** The event withdraws the operation: an accepted cancel, or the shutdown before its rename. */
  predicate Withdraws(s: State, e: Event, o: OpId) {
    && o in s.ops && !s.ops[o].committed
    && ((e == Cancel(o) && o in s.history.listed && !AtRest(s.ops[o].state))
        || (e.Shutdown? && !s.shuttingDown && (o in s.queue || IsActive(s, o))))
  }

  /** A cancelled state comes with the flag, and after the shutdown so does whatever is still open. */
  ghost predicate FlagsOk(s: State) {
    && (s.stopRequested ==> s.shuttingDown)
    && (s.shuttingDown ==> s.queue == [])
    && (forall o <- s.ops :: s.ops[o].state.Cancelled? || s.ops[o].state.Cancelling? ==> s.ops[o].cancelRequested)
    && (s.worker.Busy? && s.worker.op in s.ops ==> WorkerFlagged(s.ops[s.worker.op], s.worker.pc, s.shuttingDown))
  }

  ghost predicate WorkerFlagged(op: Op, pc: Pc, down: bool) {
    (down || pc == Judge(Cancelled)) && !op.committed ==> op.cancelRequested
  }

  lemma PlainFlags(op: Op, pc: Pc, stop: bool, down: bool, c: Choice)
    requires IsPlain(pc, c) && WorkerFlagged(op, pc, down) && (stop ==> down) && AtPc(op, pc)
    requires op.state.Cancelled? || op.state.Cancelling? ==> op.cancelRequested
    ensures var (op', pc') := PlainStep(op, pc, stop, c);
            && op'.cancelRequested == op.cancelRequested && op'.committed == op.committed && WorkerFlagged(op', pc', down)
            && (op'.state.Cancelled? || op'.state.Cancelling? ==> op'.cancelRequested)
  {
  }

  /** One record and the worker change; the flag of the record does not. */
  lemma OneRecordFlags(s: State, s': State, o: OpId)
    requires FlagsOk(s) && o in s.ops && o in s'.ops && s'.ops == s.ops[o := s'.ops[o]] && s'.ops[o].cancelRequested == s.ops[o].cancelRequested
    requires s'.queue == s.queue && s'.shuttingDown == s.shuttingDown && s'.stopRequested == s.stopRequested
    requires s'.ops[o].state.Cancelled? || s'.ops[o].state.Cancelling? ==> s'.ops[o].cancelRequested
    requires s'.worker.Busy? ==> s'.worker.op == o && WorkerFlagged(s'.ops[o], s'.worker.pc, s.shuttingDown)
    ensures FlagsOk(s') && forall x <- s.ops :: x in s'.ops && s'.ops[x].cancelRequested == s.ops[x].cancelRequested
  {
    hide WorkerFlagged;
  }

  /** What the steps around the directories do to the record: nothing, or the publication. */
  lemma UnplainFrame(staging: Staging, s: State, c: Choice)
    requires s.worker.Busy? && s.worker.op in s.ops && IsUnplain(s.worker.pc, c)
    ensures var s', o := WorkStep(staging, s, c), s.worker.op;
            && s' == s.(ops := s'.ops, worker := s'.worker, root := s'.root, leaked := s'.leaked)
            && s'.worker.Busy? && s'.worker.op == o && !s'.worker.pc.Judge?
            && (s'.ops == s.ops
                || (!s.ops[o].cancelRequested && s'.ops == s.ops[o := s.ops[o].(state := Completed, committed := true)]))
  {
    hide PlainStep;
  }

  lemma UnplainFlags(staging: Staging, s: State, c: Choice)
    requires s.worker.Busy? && s.worker.op in s.ops && IsUnplain(s.worker.pc, c) && FlagsOk(s)
    ensures var s', o := WorkStep(staging, s, c), s.worker.op;
            && o in s'.ops && s'.ops == s.ops[o := s'.ops[o]] && s'.ops[o].cancelRequested == s.ops[o].cancelRequested
            && s'.queue == s.queue && s'.shuttingDown == s.shuttingDown && s'.stopRequested == s.stopRequested
            && (s'.ops[o].state.Cancelled? || s'.ops[o].state.Cancelling? ==> s'.ops[o].cancelRequested)
            && s'.worker.Busy? && s'.worker.op == o && WorkerFlagged(s'.ops[o], s'.worker.pc, s.shuttingDown)
  {
    hide WorkStep;
    UnplainFrame(staging, s, c);
  }

  lemma PlainFrame(staging: Staging, s: State, c: Choice)
    requires s.worker.Busy? && s.worker.op in s.ops && !s.worker.pc.Exit? && IsPlain(s.worker.pc, c)
    ensures var s', (op, pc) := WorkStep(staging, s, c), PlainStep(s.ops[s.worker.op], s.worker.pc, s.stopRequested, c);
            s' == s.(ops := s.ops[s.worker.op := op], worker := Busy(s.worker.op, pc))
  {
    hide PlainStep;
  }

  /** A worker step leaves the flag alone, and its record in order. */
  lemma WorkFlags(staging: Staging, s: State, c: Choice)
    requires Inv(staging, s) && FlagsOk(s)
    ensures FlagsOk(WorkStep(staging, s, c))
    ensures forall o <- s.ops :: o in WorkStep(staging, s, c).ops && WorkStep(staging, s, c).ops[o].cancelRequested == s.ops[o].cancelRequested
  {
    if s.worker.Busy? {
      var o := s.worker.op;
      assert o in s.ops && AtPc(s.ops[o], s.worker.pc);
      hide Inv, AtPc, PlainStep;
      if !s.worker.pc.Exit? {
        assert WorkerFlagged(s.ops[o], s.worker.pc, s.shuttingDown);
        hide WorkStep, WorkerFlagged;
        if IsPlain(s.worker.pc, c) {
          PlainFrame(staging, s, c);
          PlainFlags(s.ops[o], s.worker.pc, s.stopRequested, s.shuttingDown, c);
        } else {
          UnplainFlags(staging, s, c);
        }
        OneRecordFlags(s, WorkStep(staging, s, c), o);
      }
    }
  }

  lemma CancelFlags(s: State, x: OpId)
    requires FlagsOk(s)
    ensures var s' := CancelStep(s, x).0;
            && FlagsOk(s')
            && forall o <- s.ops :: o in s'.ops && s'.ops[o].cancelRequested == (s.ops[o].cancelRequested || Withdraws(s, Cancel(x), o))
  {
    RemovedFacts(s.queue, x);
  }

  lemma ShutdownWithdraws(s: State)
    requires FlagsOk(s)
    requires forall o <- s.ops :: o in s.queue ==> !s.ops[o].committed
    ensures var s' := ShutdownStep(s);
            && FlagsOk(s')
            && forall o <- s.ops :: o in s'.ops && s'.ops[o].cancelRequested == (s.ops[o].cancelRequested || Withdraws(s, Shutdown, o))
  {
  }

  lemma SubmitFlags(s: State, key: Key, request: Request)
    requires FlagsOk(s) && (s.worker.Busy? ==> s.worker.op in s.ops) && forall o <- s.ops :: o < s.nextSequence
    ensures var s' := SubmitStep(s, key, request).0;
            FlagsOk(s') && forall o <- s.ops :: o in s'.ops && s'.ops[o] == s.ops[o]
  {
    hide Purged, WorkerFlagged;
  }

  lemma PopFlags(s: State)
    requires FlagsOk(s) && forall o <- s.queue :: o in s.ops && !s.ops[o].cancelRequested
    ensures FlagsOk(PopStep(s)) && PopStep(s).ops == s.ops && FlagsOk(StopStep(s)) && StopStep(s).ops == s.ops
  {
  }

  lemma OtherFlags(staging: Staging, s: State, e: Event)
    requires Inv(staging, s) && WellFormed(s) && FlagsOk(s) && !e.Work?
    ensures FlagsOk(Next(staging, s, e))
    ensures forall o <- s.ops :: o in Next(staging, s, e).ops
              && Next(staging, s, e).ops[o].cancelRequested == (s.ops[o].cancelRequested || Withdraws(s, e, o))
  {
    forall o <- s.ops ensures o < s.nextSequence && (o in s.queue ==> !s.ops[o].committed && !s.ops[o].cancelRequested) {
      assert OpInv(s, o);
    }
    hide Inv, SubmitStep, CancelStep, ShutdownStep, PopStep, StopStep, FlagsOk;
    match e
    case Submit(key, request) => SubmitFlags(s, key, request);
    case Cancel(x) => CancelFlags(s, x);
    case Shutdown => ShutdownWithdraws(s);
    case _ => PopFlags(s);
  }

  lemma {:induction false} RunFlags(staging: Staging, run: seq<State>, events: seq<Event>, i: nat)
    requires IsRun(staging, run, events) && i < |run|
    ensures FlagsOk(run[i])
  {
    hide Inv, Next, WellFormed;
    if i > 0 {
      hide FlagsOk;
      RunFlags(staging, run, events, i - 1);
      RunStep(staging, run, events, i - 1);
      FlagStep(staging, run[i - 1], events[i - 1]);
    }
  }

  lemma FlagStep(staging: Staging, s: State, e: Event)
    requires Inv(staging, s) && WellFormed(s) && FlagsOk(s)
    ensures FlagsOk(Next(staging, s, e))
    ensures forall o <- s.ops :: o in Next(staging, s, e).ops
              && Next(staging, s, e).ops[o].cancelRequested == (s.ops[o].cancelRequested || Withdraws(s, e, o))
  {
    hide Inv, FlagsOk, Next;
    if e.Work? {
      NextIsWork(staging, s, e);
      WorkFlags(staging, s, e.choice);
    } else {
      OtherFlags(staging, s, e);
    }
  }

  ghost predicate WithdrawnAt(run: seq<State>, events: seq<Event>, k: nat, o: OpId)
    requires |run| == |events| + 1
  {
    k < |events| && Withdraws(run[k], events[k], o) && !Otherwise(run[k].ops[o].state)
  }

  lemma {:induction false} FlagWasSet(staging: Staging, run: seq<State>, events: seq<Event>, i: nat, o: OpId)
    requires IsRun(staging, run, events) && i < |run| && o in run[i].ops && run[i].ops[o].cancelRequested
    ensures |run| == |events| + 1 && exists k: nat :: k < i && Withdraws(run[k], events[k], o)
  {
    hide Inv, Next, WellFormed, FlagsOk, Withdraws;
    assert i > 0;
    RunStep(staging, run, events, i - 1);
    RunFlags(staging, run, events, i - 1);
    if o !in run[i - 1].ops {
      SubmittedRecord(staging, run[i - 1], events[i - 1], o);
    } else {
      FlagStep(staging, run[i - 1], events[i - 1]);
      if run[i - 1].ops[o].cancelRequested { FlagWasSet(staging, run, events, i - 1, o); }
    }
  }

  /** An operation that is over is `cancelled` if and only if an accepted cancel or the shutdown withdrew
      it before it had ended otherwise. */
  lemma CancelledIff(staging: Staging, run: seq<State>, events: seq<Event>, i: nat, o: OpId)
    requires IsRun(staging, run, events) && i < |run| && o in run[i].ops && Resting(run[i], o)
    ensures |run| == |events| + 1
    ensures run[i].ops[o].state == Cancelled <==> exists k: nat :: k < i && WithdrawnAt(run, events, k, o)
  {
    hide Inv, Next, WellFormed, Withdraws;
    if run[i].ops[o].state == Cancelled {
      RunFlags(staging, run, events, i);
      hide FlagsOk;
      FlagWasSet(staging, run, events, i, o);
      var k: nat :| k < i && Withdraws(run[k], events[k], o);
      WithdrawsKnown(run[k], events[k], o);
      RunEvolves(staging, run, events, k, i);
      assert WithdrawnAt(run, events, k, o);
    }
    hide FlagsOk;
    if k: nat :| k < i && WithdrawnAt(run, events, k, o) {
      WithdrawsKnown(run[k], events[k], o);
      WithdrawnIsFlagged(staging, run, events, k, o);
      FlaggedComesToRestCancelledIff(staging, run, events, k + 1, i, o);
    }
  }

  lemma WithdrawsKnown(s: State, e: Event, o: OpId)
    requires Withdraws(s, e, o)
    ensures o in s.ops && !e.Work?
  {
  }

  lemma WithdrawnIsFlagged(staging: Staging, run: seq<State>, events: seq<Event>, k: nat, o: OpId)
    requires IsRun(staging, run, events) && |run| == |events| + 1 && WithdrawnAt(run, events, k, o)
    ensures o in run[k + 1].ops && run[k + 1].ops[o].cancelRequested && !Otherwise(run[k + 1].ops[o].state)
  {
    hide Inv, Next, WellFormed, FlagsOk, Withdraws;
    RunStep(staging, run, events, k);
    RunFlags(staging, run, events, k);
    FlagStep(staging, run[k], events[k]);
    WithdrawsKnown(run[k], events[k], o);
    OthersEndNothing(staging, run[k], events[k], o);
  }

  /** After an accepted cancel the operation never completes, fails or times out, and is never
      published. */
  lemma AcceptedCancelWins(staging: Staging, run: seq<State>, events: seq<Event>, k: nat, i: nat, o: OpId)
    requires IsRun(staging, run, events) && |run| == |events| + 1 && k < i < |run| && events[k] == Cancel(o)
    requires o in run[k].history.listed && o in run[k].ops && !AtRest(run[k].ops[o].state) && !run[k].ops[o].committed
    ensures o in run[i].ops && run[i].ops[o].cancelRequested && !run[i].ops[o].committed && !Otherwise(run[i].ops[o].state)
  {
    hide Inv, Next, WellFormed;
    WithdrawnIsFlagged(staging, run, events, k, o);
    RunEvolves(staging, run, events, k + 1, i);
    FlaggedIsNeverPublished(staging, run, events, k + 1, i, o);
  }

  /** A cancel is answered `not found` for an operation that is not listed, is without effect on one that
      is at rest or published, and flags every other. */
  lemma CancelIsAnswered(staging: Staging, run: seq<State>, events: seq<Event>, i: nat, o: OpId)
    requires IsRun(staging, run, events) && i < |run|
    ensures var s := run[i]; var (s', reply) := CancelStep(s, o);
            && (reply == NotFound <==> o !in s.history.listed)
            && (reply == Unchanged <==> o in s.history.listed && o in s.ops && (AtRest(s.ops[o].state) || s.ops[o].committed))
            && (reply == Accepted(o) <==> o in s.history.listed && o in s.ops && !AtRest(s.ops[o].state) && !s.ops[o].committed)
            && (!reply.Accepted? ==> s' == s)
            && (reply.Accepted? ==> o in s'.ops && s'.ops == s.ops[o := s'.ops[o]] && s'.ops[o].cancelRequested
                                    && s'.ops[o].state == if s.ops[o].state == Queued then Cancelled else Cancelling)
  {
    BundleHistory.RunHistory(staging, run, events, i);
    hide IsRun;
  }
}
