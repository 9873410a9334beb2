/** How a bundle operation ends: which steps make it complete, fail or time out, over every run. */
module BundleOutcomes {
  import opened Prelude
  import opened BundleModel
  import opened BundleRuns

  // ---- Causes, one worker step at a time ---------------------------------------------------------------------

  /** The step throws what the environment decided, after its own checks. */
  predicate Throws(op: Op, pc: Pc, stop: bool, c: Choice) {
    && c.fault.Some?
    && (pc.Source? || pc.Hash? || pc.MakeStaging? || pc.Stage? || pc.Copy? || pc.Seal? || pc.Sync? || pc.Inspect? || pc.ToRunning?
        || ((pc.Publish? || (pc.Receiver? && c.finished)) && !Stopping(op, stop, c)))
  }

  /** The step notices a cancel, the stop or the deadline. */
  predicate IsInterrupted(op: Op, pc: Pc, stop: bool, c: Choice) {
    (pc.Publish? || pc.ToRebuild? || pc.Receiver?) && Stopping(op, stop, c)
  }

  /** The step finds a directory in its way. */
  predicate Collides(staging: Staging, s: State, o: OpId, pc: Pc, c: Choice)
    requires o in s.ops
  {
    var op := s.ops[o];
    && c.fault.None?
    && ((pc.MakeStaging? && (!op.kind.Export? || op.kind.bundle in s.root || staging(o) in s.root))
        || (pc.Publish? && !Stopping(op, s.stopRequested, c) && (!op.kind.Export? || op.kind.bundle in s.root)))
  }

  predicate Meets(staging: Staging, s: State, o: OpId, pc: Pc, c: Choice, fault: Fault)
    requires o in s.ops
  {
    || (Throws(s.ops[o], pc, s.stopRequested, c) && c.fault == Some(fault))
    || (IsInterrupted(s.ops[o], pc, s.stopRequested, c) && fault == Interrupted)
    || (Collides(staging, s, o, pc, c) && fault == OtherError)
  }

  /** The last piece of a validation or a replay went well. */
  predicate Succeeds(op: Op, pc: Pc, stop: bool, c: Choice) {
    && c.fault.None?
    && ((pc.Inspect? && !op.kind.Replay?) || (pc.Receiver? && c.finished && !Stopping(op, stop, c)))
  }

  predicate Publishes(s: State, o: OpId, pc: Pc, c: Choice)
    requires o in s.ops
  {
    pc.Publish? && c.fault.None? && !Stopping(s.ops[o], s.stopRequested, c)
    && s.ops[o].kind.Export? && s.ops[o].kind.bundle !in s.root
  }

  predicate IsIoFault(f: Fault) { f == SystemError || f == LengthError }

  lemma PlainLeads(op: Op, pc: Pc, stop: bool, c: Choice, f: Fault)
    requires IsPlain(pc, c)
    ensures PlainStep(op, pc, stop, c).1 == Handle(f) <==>
            (Throws(op, pc, stop, c) && c.fault == Some(f)) || (IsInterrupted(op, pc, stop, c) && f == Interrupted)
  {
  }

  lemma PlainSucceeds(op: Op, pc: Pc, stop: bool, c: Choice)
    requires IsPlain(pc, c)
    ensures PlainStep(op, pc, stop, c).1.Conclude? <==> Succeeds(op, pc, stop, c)
  {
  }

  lemma PlainJudges(op: Op, pc: Pc, stop: bool, c: Choice)
    requires IsPlain(pc, c)
    ensures var pc' := PlainStep(op, pc, stop, c).1;
            && (pc'.Judge? <==> pc.Handle? && !IsIoFault(pc.fault)) && pc' != Judge(Completed)
            && (pc' == Judge(TimedOut) <==> pc == Handle(Interrupted) && !op.cancelRequested && !stop && c.expired)
            && (pc' == Judge(Failed) <==>
                  pc.Handle? && !IsIoFault(pc.fault) && !(pc.fault == Interrupted && (op.cancelRequested || stop || c.expired)))
  {
  }

  /** A trouble sends the worker to the handlers, and nothing else does. */
  lemma StepMeets(staging: Staging, s: State, c: Choice, f: Fault)
    requires s.worker.Busy? && s.worker.op in s.ops && !s.worker.pc.Exit?
    ensures WorkStep(staging, s, c).worker == Busy(s.worker.op, Handle(f)) <==> Meets(staging, s, s.worker.op, s.worker.pc, c, f)
  {
    hide PlainStep, Stopping;
    if IsPlain(s.worker.pc, c) { PlainLeads(s.ops[s.worker.op], s.worker.pc, s.stopRequested, c, f); }
  }

  predicate IsUnplain(pc: Pc, c: Choice) { !IsPlain(pc, c) && !pc.Exit? }

  lemma UnplainLeads(staging: Staging, s: State, c: Choice)
    requires s.worker.Busy? && s.worker.op in s.ops && IsUnplain(s.worker.pc, c)
    ensures var w := WorkStep(staging, s, c).worker; w.Busy? && w.op == s.worker.op && (w.pc.Handle? || w.pc.Stage? || w.pc.Sync?)
    ensures !Succeeds(s.ops[s.worker.op], s.worker.pc, s.stopRequested, c)
  {
    hide PlainStep, Stopping;
  }

  /** Where a step of the worker leads. */
  lemma StepLeads(staging: Staging, s: State, c: Choice)
    requires s.worker.Busy? && s.worker.op in s.ops && !s.worker.pc.Exit?
    ensures var o, pc, w' := s.worker.op, s.worker.pc, WorkStep(staging, s, c).worker;
            && w'.Busy? && w'.op == o && w'.pc != Judge(Completed)
            && (w'.pc.Conclude? <==> Succeeds(s.ops[o], pc, s.stopRequested, c))
            && (w'.pc.Judge? <==> pc.Handle? && !IsIoFault(pc.fault))
            && (w'.pc == Judge(TimedOut) <==>
                  pc == Handle(Interrupted) && !s.ops[o].cancelRequested && !s.stopRequested && c.expired)
            && (w'.pc == Judge(Failed) <==>
                  && pc.Handle? && !IsIoFault(pc.fault)
                  && !(pc.fault == Interrupted && (s.ops[o].cancelRequested || s.stopRequested || c.expired)))
  {
    var op, pc := s.ops[s.worker.op], s.worker.pc;
    if IsPlain(pc, c) {
      assert WorkStep(staging, s, c).worker == Busy(s.worker.op, PlainStep(op, pc, s.stopRequested, c).1) by { hide PlainStep; }
      hide PlainStep, WorkStep, Succeeds;
      PlainSucceeds(op, pc, s.stopRequested, c);
      PlainJudges(op, pc, s.stopRequested, c);
    } else {
      assert !pc.Handle?;
      hide WorkStep, Succeeds;
      UnplainLeads(staging, s, c);
    }
  }

  // ---- How records end -----------------------------------------------------------------------------------------------

  /** The point and the flag decide how the step ends the operation. */
  predicate EndsBy(s: State, o: OpId, pc: Pc, c: Choice, state: OpState)
    requires o in s.ops
  {
    || (state == Completed && Publishes(s, o, pc, c))
    || (!s.ops[o].cancelRequested
        && ((state == Completed && pc.Conclude?) || (state == Failed && pc.Handle? && IsIoFault(pc.fault))
            || (pc.Judge? && pc.verdict == state)))
  }

  lemma PlainEnds(op: Op, pc: Pc, stop: bool, c: Choice, state: OpState)
    requires IsPlain(pc, c) && AtPc(op, pc) && !Otherwise(op.state) && Otherwise(state)
    ensures PlainStep(op, pc, stop, c).0.state == state <==>
            !op.cancelRequested && ((state == Completed && pc.Conclude?) || (state == Failed && pc.Handle? && IsIoFault(pc.fault))
                                    || (pc.Judge? && pc.verdict == state))
  {
  }

  lemma UnplainEnds(staging: Staging, s: State, c: Choice, state: OpState)
    requires s.worker.Busy? && s.worker.op in s.ops && IsUnplain(s.worker.pc, c)
    requires !Otherwise(s.ops[s.worker.op].state) && Otherwise(state)
    ensures var o := s.worker.op; var s' := WorkStep(staging, s, c);
            o in s'.ops && (s'.ops[o].state == state <==> state == Completed && Publishes(s, o, s.worker.pc, c))
  {
    hide PlainStep, Stopping;
  }

  lemma WorkEnds(staging: Staging, s: State, c: Choice, o: OpId, state: OpState)
    requires Inv(staging, s) && o in s.ops && !Otherwise(s.ops[o].state) && Otherwise(state)
    ensures o in WorkStep(staging, s, c).ops
    ensures WorkStep(staging, s, c).ops[o].state == state <==> IsActive(s, o) && EndsBy(s, o, s.worker.pc, c, state)
  {
    hide WorkStep, PlainStep, Stopping, AtPc, OpInv, DirInv;
    if IsActive(s, o) && !s.worker.pc.Exit? {
      var op, pc := s.ops[o], s.worker.pc;
      if IsPlain(pc, c) {
        PlainIsRecorded(staging, s, c);
        PlainEnds(op, pc, s.stopRequested, c, state);
      } else {
        UnplainEnds(staging, s, c, state);
      }
    } else {
      OthersStay(staging, s, c, o);
    }
  }

  lemma PlainIsRecorded(staging: Staging, s: State, c: Choice)
    requires s.worker.Busy? && s.worker.op in s.ops && !s.worker.pc.Exit? && IsPlain(s.worker.pc, c)
    ensures WorkStep(staging, s, c).ops
            == s.ops[s.worker.op := PlainStep(s.ops[s.worker.op], s.worker.pc, s.stopRequested, c).0]
    ensures !Publishes(s, s.worker.op, s.worker.pc, c)
  {
    hide PlainStep;
  }

  lemma OthersStay(staging: Staging, s: State, c: Choice, o: OpId)
    requires (s.worker.Busy? ==> s.worker.op in s.ops) && o in s.ops && (!IsActive(s, o) || s.worker.pc.Exit?)
    ensures o in WorkStep(staging, s, c).ops && WorkStep(staging, s, c).ops[o] == s.ops[o]
  {
    hide PlainStep, Stopping;
  }

  lemma OthersEndNothing(staging: Staging, s: State, e: Event, o: OpId)
    requires Inv(staging, s) && WellFormed(s) && o in s.ops && !Otherwise(s.ops[o].state) && !e.Work?
    ensures o in Next(staging, s, e).ops && !Otherwise(Next(staging, s, e).ops[o].state)
  {
    hide OpInv, DirInv, AtPc, Increasing, Purged;
    if e.Submit? { assert o < s.nextSequence by { assert OpInv(s, o); IsOlder(s, o); } }
  }

  lemma IsOlder(s: State, o: OpId)
    requires o in s.ops && OpInv(s, o)
    ensures o < s.nextSequence
  {
  }

  // ---- Runs ------------------------------------------------------------------------------------------------------------

  /** Step `k` is a worker step on operation `o`. */
  ghost predicate Works(run: seq<State>, events: seq<Event>, k: nat, o: OpId)
    requires |run| == |events| + 1
  {
    k < |events| && events[k].Work? && IsActive(run[k], o) && o in run[k].ops
  }

  /** The worker's next step after `m` is `h`. */
  ghost predicate Follows(run: seq<State>, events: seq<Event>, m: nat, h: nat, o: OpId)
    requires |run| == |events| + 1
  {
    m < h && Works(run, events, m, o) && Works(run, events, h, o) && forall x :: m < x < h ==> !events[x].Work?
  }

  lemma RunStep(staging: Staging, run: seq<State>, events: seq<Event>, i: nat)
    requires IsRun(staging, run, events) && i < |events|
    ensures |run| == |events| + 1 && WellFormed(run[i]) && run[i + 1] == Next(staging, run[i], events[i]) && Inv(staging, run[i])
  {
    hide Next, Inv;
    RunInvariant(staging, run, events, i);
  }

  lemma WorkerWaits(staging: Staging, s: State, e: Event)
    requires WellFormed(s) && !e.Work? && s.worker.Busy?
    ensures Next(staging, s, e).worker == s.worker
  {
    hide Purged;
  }

  lemma IdleChecks(staging: Staging, s: State, e: Event)
    requires WellFormed(s) && s.worker.Idle?
    ensures Next(staging, s, e).worker.Idle? || Next(staging, s, e).worker.pc.Check?
  {
    hide Purged;
  }

  /** A point other than the first was reached by a step of the worker, which nobody else moves. */
  lemma {:induction false} PreviousStep(staging: Staging, run: seq<State>, events: seq<Event>, i: nat) returns (m: nat)
    requires IsRun(staging, run, events) && i < |run| && run[i].worker.Busy? && !run[i].worker.pc.Check?
    ensures |run| == |events| + 1 && m < i && Works(run, events, m, run[i].worker.op) && run[m + 1].worker == run[i].worker
    ensures forall x :: m < x < i ==> !events[x].Work?
  {
    hide Inv, Next, WellFormed;
    assert i > 0;
    RunStep(staging, run, events, i - 1);
    var s, e := run[i - 1], events[i - 1];
    if s.worker.Idle? {
      IdleChecks(staging, s, e);
    } else if !e.Work? {
      WorkerWaits(staging, s, e);
      m := PreviousStep(staging, run, events, i - 1);
    } else {
      WorkerStays(staging, s, e.choice);
      m := i - 1;
    }
  }

  lemma WorkerStays(staging: Staging, s: State, c: Choice)
    requires Inv(staging, s) && WellFormed(s) && s.worker.Busy?
    ensures s.worker.op in s.ops
    ensures var w := Next(staging, s, Work(c)).worker; w.Idle? || w.op == s.worker.op
  {
    hide PlainStep, Stopping;
  }

  lemma {:induction false} PointIsKept(staging: Staging, run: seq<State>, events: seq<Event>, m: nat, i: nat)
    requires IsRun(staging, run, events) && m <= i < |run| && run[m].worker.Busy? && forall x :: m <= x < i ==> !events[x].Work?
    ensures run[i].worker == run[m].worker
    decreases i
  {
    hide Inv, Next, WellFormed;
    if m < i {
      PointIsKept(staging, run, events, m, i - 1);
      RunStep(staging, run, events, i - 1);
      WorkerWaits(staging, run[i - 1], events[i - 1]);
    }
  }

  ghost predicate EndsAt(run: seq<State>, events: seq<Event>, k: nat, o: OpId, state: OpState)
    requires |run| == |events| + 1
  {
    Works(run, events, k, o) && !Otherwise(run[k].ops[o].state) && EndsBy(run[k], o, run[k].worker.pc, events[k].choice, state)
  }

  lemma {:induction false} EndWasReached(staging: Staging, run: seq<State>, events: seq<Event>, i: nat, o: OpId)
    requires IsRun(staging, run, events) && i < |run| && o in run[i].ops && Otherwise(run[i].ops[o].state)
    ensures |run| == |events| + 1 && exists k: nat :: k < i && EndsAt(run, events, k, o, run[i].ops[o].state)
  {
    hide Inv, Next, WellFormed, EndsBy;
    assert i > 0;
    RunStep(staging, run, events, i - 1);
    var s, e := run[i - 1], events[i - 1];
    if o !in s.ops {
      NewIsQueued(staging, s, e, o);
    } else if Otherwise(s.ops[o].state) {
      RunEvolves(staging, run, events, i - 1, i);
      EndWasReached(staging, run, events, i - 1, o);
    } else if e.Work? {
      NextIsWork(staging, s, e);
      WorkEnds(staging, s, e.choice, o, run[i].ops[o].state);
      assert EndsAt(run, events, i - 1, o, run[i].ops[o].state);
    } else {
      OthersEndNothing(staging, s, e, o);
    }
  }

  lemma NextIsWork(staging: Staging, s: State, e: Event)
    requires WellFormed(s) && e.Work?
    ensures Next(staging, s, e) == WorkStep(staging, s, e.choice)
  {
  }

  lemma NewIsQueued(staging: Staging, s: State, e: Event, o: OpId)
    requires Inv(staging, s) && WellFormed(s) && o !in s.ops && o in Next(staging, s, e).ops
    ensures e.Submit? && o == s.nextSequence && Next(staging, s, e).ops[o].state == Queued
  {
    hide Inv, WorkStep, Purged;
    if e.Work? { WorkAddsNothing(staging, s, e.choice); }
  }

  lemma WorkAddsNothing(staging: Staging, s: State, c: Choice)
    requires s.worker.Busy? ==> s.worker.op in s.ops
    ensures WorkStep(staging, s, c).ops.Keys == s.ops.Keys
  {
    hide PlainStep, Stopping;
  }

  /** An operation is completed, failed or timed out if and only if a step of it ended it so. */
  lemma EndsIff(staging: Staging, run: seq<State>, events: seq<Event>, i: nat, o: OpId, state: OpState)
    requires IsRun(staging, run, events) && i < |run| && o in run[i].ops && Otherwise(state)
    ensures |run| == |events| + 1
    ensures run[i].ops[o].state == state <==> exists k: nat :: k < i && EndsAt(run, events, k, o, state)
  {
    hide Inv, Next, WellFormed, EndsBy;
    if run[i].ops[o].state == state { EndWasReached(staging, run, events, i, o); }
    if k: nat :| k < i && EndsAt(run, events, k, o, state) {
      RunStep(staging, run, events, k);
      NextIsWork(staging, run[k], events[k]);
      WorkEnds(staging, run[k], events[k].choice, o, state);
      RunEvolves(staging, run, events, k + 1, i);
    }
  }

  // ---- The three ends, traced to their causes ---------------------------------------------------------------------------

  /** Step `m` of an operation that is not published meets this trouble, and step `h` handles it. */
  ghost predicate Handles(staging: Staging, run: seq<State>, events: seq<Event>, m: nat, h: nat, o: OpId, fault: Fault)
    requires |run| == |events| + 1
  {
    && Follows(run, events, m, h, o) && !run[m].worker.pc.Sync? && !run[m].worker.pc.Exit?
    && Meets(staging, run[m], o, run[m].worker.pc, events[m].choice, fault)
  }

  lemma HandlePoint(staging: Staging, run: seq<State>, events: seq<Event>, m: nat, h: nat, o: OpId, fault: Fault)
    requires IsRun(staging, run, events) && |run| == |events| + 1 && Handles(staging, run, events, m, h, o, fault)
    ensures run[h].worker == Busy(o, Handle(fault))
  {
    hide Inv, Next, WellFormed, Meets;
    RunStep(staging, run, events, m);
    NextIsWork(staging, run[m], events[m]);
    StepMeets(staging, run[m], events[m].choice, fault);
    PointIsKept(staging, run, events, m + 1, h);
  }

  /** The handler of an unpublished operation was reached from a trouble. */
  lemma HandledTrouble(staging: Staging, run: seq<State>, events: seq<Event>, h: nat, o: OpId) returns (m: nat)
    requires IsRun(staging, run, events) && |run| == |events| + 1 && Works(run, events, h, o) && run[h].worker.pc.Handle?
    requires !Otherwise(run[h].ops[o].state)
    ensures Handles(staging, run, events, m, h, o, run[h].worker.pc.fault)
  {
    hide Inv, Next, WellFormed, Meets;
    m := PreviousStep(staging, run, events, h);
    RunStep(staging, run, events, m);
    NextIsWork(staging, run[m], events[m]);
    StepMeets(staging, run[m], events[m].choice, run[h].worker.pc.fault);
    if run[m].worker.pc.Sync? {
      SyncedIsCompleted(staging, run[m], o);
      RunEvolves(staging, run, events, m, h);
    }
  }

  lemma ExitFrees(staging: Staging, s: State, c: Choice)
    requires s.worker.Busy? && s.worker.op in s.ops && s.worker.pc.Exit?
    ensures WorkStep(staging, s, c).worker.Idle?
  {
  }

  lemma SyncedIsCompleted(staging: Staging, s: State, o: OpId)
    requires Inv(staging, s) && IsActive(s, o) && s.worker.pc.Sync?
    ensures o in s.ops && s.ops[o].state == Completed
  {
    hide OpInv, DirInv;
  }

  /** Step `m` did the last piece of work well, and step `k` concludes. */
  ghost predicate ConcludesAfter(run: seq<State>, events: seq<Event>, m: nat, k: nat, o: OpId)
    requires |run| == |events| + 1
  {
    && Follows(run, events, m, k, o) && Succeeds(run[m].ops[o], run[m].worker.pc, run[m].stopRequested, events[m].choice)
    && !run[k].ops[o].cancelRequested
  }

  ghost predicate PublishesAt(run: seq<State>, events: seq<Event>, k: nat, o: OpId)
    requires |run| == |events| + 1
  {
    Works(run, events, k, o) && Publishes(run[k], o, run[k].worker.pc, events[k].choice)
  }

  lemma NotYetEnded(staging: Staging, s: State, o: OpId)
    requires Inv(staging, s) && IsActive(s, o) && (s.worker.pc.Conclude? || s.worker.pc.Publish?)
    ensures o in s.ops && !Otherwise(s.ops[o].state)
  {
    hide OpInv, DirInv;
  }

  /** An operation completes if and only if it publishes its bundle, or its last piece of work went
      well and no cancel came before the conclusion. */
  lemma CompletedIff(staging: Staging, run: seq<State>, events: seq<Event>, i: nat, o: OpId)
    requires IsRun(staging, run, events) && i < |run| && o in run[i].ops
    ensures |run| == |events| + 1
    ensures run[i].ops[o].state == Completed <==>
            || (exists k: nat :: k < i && PublishesAt(run, events, k, o))
            || (exists m: nat, k: nat :: k < i && ConcludesAfter(run, events, m, k, o))
  {
    hide Inv, Next, WellFormed, Publishes, Succeeds;
    EndsIff(staging, run, events, i, o, Completed);
    if run[i].ops[o].state == Completed {
      var k: nat :| k < i && EndsAt(run, events, k, o, Completed);
      if !PublishesAt(run, events, k, o) {
        var m := PreviousStep(staging, run, events, k);
        LedFrom(staging, run, events, m);
        assert ConcludesAfter(run, events, m, k, o);
      }
    }
    if k: nat :| k < i && PublishesAt(run, events, k, o) {
      RunStep(staging, run, events, k);
      PublishPoint(run[k], o, events[k].choice);
      NotYetEnded(staging, run[k], o);
      assert EndsAt(run, events, k, o, Completed);
    }
    if m: nat, k: nat :| k < i && ConcludesAfter(run, events, m, k, o) {
      LedFrom(staging, run, events, m);
      PointIsKept(staging, run, events, m + 1, k);
      RunStep(staging, run, events, k);
      NotYetEnded(staging, run[k], o);
      assert EndsAt(run, events, k, o, Completed);
    }
  }

  lemma PublishPoint(s: State, o: OpId, c: Choice)
    requires o in s.ops && s.worker.Busy? && Publishes(s, o, s.worker.pc, c)
    ensures s.worker.pc.Publish?
  {
  }

  /** The worker's point after its step `m`. */
  lemma LedFrom(staging: Staging, run: seq<State>, events: seq<Event>, m: nat)
    requires IsRun(staging, run, events) && |run| == |events| + 1 && m < |events| && events[m].Work? && run[m].worker.Busy?
    ensures var o, pc, c, w' := run[m].worker.op, run[m].worker.pc, events[m].choice, run[m + 1].worker;
            && o in run[m].ops && (pc.Exit? ==> w'.Idle? && !Succeeds(run[m].ops[o], pc, run[m].stopRequested, c))
            && (!pc.Exit? ==>
                 && w'.Busy? && w'.op == o && w'.pc != Judge(Completed)
                 && (w'.pc.Conclude? <==> Succeeds(run[m].ops[o], pc, run[m].stopRequested, c))
                 && (w'.pc.Judge? <==> pc.Handle? && !IsIoFault(pc.fault))
                 && (w'.pc == Judge(TimedOut) <==>
                       pc == Handle(Interrupted) && !run[m].ops[o].cancelRequested && !run[m].stopRequested && c.expired)
                 && (w'.pc == Judge(Failed) <==>
                       && pc.Handle? && !IsIoFault(pc.fault)
                       && !(pc.fault == Interrupted && (run[m].ops[o].cancelRequested || run[m].stopRequested || c.expired))))
  {
    hide Inv, Next, WellFormed;
    RunStep(staging, run, events, m);
    NextIsWork(staging, run[m], events[m]);
    InvWellFormed(staging, run[m]);
    assert run[m].worker.op in run[m].ops by { ActiveIsKnown(run[m]); }
    if run[m].worker.pc.Exit? { ExitFrees(staging, run[m], events[m].choice); }
    else {
      hide Succeeds;
      StepLeads(staging, run[m], events[m].choice);
    }
  }

  lemma ActiveIsKnown(s: State)
    requires WellFormed(s) && s.worker.Busy?
    ensures s.worker.op in s.ops
  {
  }

  /** Step `h` gives up on an operation that met this trouble, and step `k` ends it before any cancel. */
  ghost predicate GivesUp(staging: Staging, run: seq<State>, events: seq<Event>, m: nat, h: nat, k: nat, o: OpId, fault: Fault)
    requires |run| == |events| + 1
  {
    Handles(staging, run, events, m, h, o, fault) && !IsIoFault(fault) && Follows(run, events, h, k, o) && !run[k].ops[o].cancelRequested
  }

  lemma JudgePoint(staging: Staging, run: seq<State>, events: seq<Event>, m: nat, h: nat, k: nat, o: OpId, fault: Fault)
    requires IsRun(staging, run, events) && |run| == |events| + 1 && GivesUp(staging, run, events, m, h, k, o, fault)
    ensures run[h].worker == Busy(o, Handle(fault)) && run[k].worker == run[h + 1].worker && run[k].worker.pc.Judge?
    ensures !Otherwise(run[k].ops[o].state)
  {
    hide Inv, Next, WellFormed, Meets, Succeeds;
    HandlePoint(staging, run, events, m, h, o, fault);
    LedFrom(staging, run, events, h);
    PointIsKept(staging, run, events, h + 1, k);
    Uncommitted(staging, run, events, m, h, o, fault);
    RunEvolves(staging, run, events, m, k);
    RunStep(staging, run, events, k);
    JudgedIsOpen(staging, run[k], o);
    StaysUncommitted(staging, run, events, h, k, o);
  }

  /** Between a trouble and its end the operation is neither published nor at rest. */
  lemma Uncommitted(staging: Staging, run: seq<State>, events: seq<Event>, m: nat, h: nat, o: OpId, fault: Fault)
    requires IsRun(staging, run, events) && |run| == |events| + 1 && Handles(staging, run, events, m, h, o, fault)
    ensures run[h].worker == Busy(o, Handle(fault)) && !run[h].ops[o].committed
  {
    hide Inv, Next, WellFormed;
    HandlePoint(staging, run, events, m, h, o, fault);
    RunStep(staging, run, events, m);
    NextIsWork(staging, run[m], events[m]);
    TroubleLeavesRecord(staging, run[m], events[m].choice, fault);
    TroublePoint(staging, run[m], o, events[m].choice, fault);
    StaysUncommitted(staging, run, events, m + 1, h, o);
  }

  lemma TroublePoint(staging: Staging, s: State, o: OpId, c: Choice, fault: Fault)
    requires Inv(staging, s) && IsActive(s, o) && o in s.ops && !s.worker.pc.Sync? && Meets(staging, s, o, s.worker.pc, c, fault)
    ensures !s.ops[o].committed
  {
    hide OpInv, DirInv;
  }

  lemma TroubleLeavesRecord(staging: Staging, s: State, c: Choice, fault: Fault)
    requires s.worker.Busy? && s.worker.op in s.ops && !s.worker.pc.Exit? && Meets(staging, s, s.worker.op, s.worker.pc, c, fault)
    ensures s.worker.op in WorkStep(staging, s, c).ops && WorkStep(staging, s, c).ops[s.worker.op] == s.ops[s.worker.op]
  {
    hide Stopping;
  }

  /** Nobody but the worker publishes. */
  lemma {:induction false} StaysUncommitted(staging: Staging, run: seq<State>, events: seq<Event>, m: nat, i: nat, o: OpId)
    requires IsRun(staging, run, events) && |run| == |events| + 1 && m <= i < |run| && o in run[m].ops && !run[m].ops[o].committed
    requires forall x :: m <= x < i ==> !(events[x].Work? && run[x].worker.Busy? && run[x].worker.pc.Publish?)
    ensures o in run[i].ops && !run[i].ops[o].committed
    decreases i
  {
    hide Inv, Next, WellFormed;
    if m < i {
      StaysUncommitted(staging, run, events, m, i - 1, o);
      RunStep(staging, run, events, i - 1);
      StepUncommitted(staging, run[i - 1], events[i - 1], o);
    }
  }

  lemma StepUncommitted(staging: Staging, s: State, e: Event, o: OpId)
    requires Inv(staging, s) && WellFormed(s) && o in s.ops && !s.ops[o].committed
    requires !(e.Work? && s.worker.Busy? && s.worker.pc.Publish?)
    ensures o in Next(staging, s, e).ops && !Next(staging, s, e).ops[o].committed
  {
    assert o < s.nextSequence by { assert OpInv(s, o); IsOlder(s, o); }
    hide Inv, Purged, PlainStep, Stopping;
    if e.Work? && s.worker.Busy? && s.worker.op == o && !s.worker.pc.Exit? && IsPlain(s.worker.pc, e.choice) {
      PlainKeepsCommitted(s.ops[o], s.worker.pc, s.stopRequested, e.choice);
    }
  }

  lemma PlainKeepsCommitted(op: Op, pc: Pc, stop: bool, c: Choice)
    requires IsPlain(pc, c)
    ensures PlainStep(op, pc, stop, c).0.committed == op.committed
  {
  }

  lemma JudgedIsOpen(staging: Staging, s: State, o: OpId)
    requires Inv(staging, s) && IsActive(s, o) && (s.worker.pc.Judge? || s.worker.pc.Handle?)
    ensures o in s.ops && (!s.ops[o].committed ==> !AtRest(s.ops[o].state))
  {
    hide OpInv, DirInv;
  }

  /** It times out if and only if an interruption was handled when nothing had been cancelled or
      stopped and the deadline had passed, and no cancel came before its end. */
  lemma TimedOutIff(staging: Staging, run: seq<State>, events: seq<Event>, i: nat, o: OpId)
    requires IsRun(staging, run, events) && i < |run| && o in run[i].ops
    ensures |run| == |events| + 1
    ensures run[i].ops[o].state == TimedOut <==>
            exists m: nat, h: nat, k: nat ::
              && k < i && GivesUp(staging, run, events, m, h, k, o, Interrupted)
              && events[h].choice.expired && !run[h].ops[o].cancelRequested && !run[h].stopRequested
  {
    hide Inv, Next, WellFormed, Handles, Succeeds;
    EndsIff(staging, run, events, i, o, TimedOut);
    if run[i].ops[o].state == TimedOut {
      var k: nat :| k < i && EndsAt(run, events, k, o, TimedOut);
      var m, h := JudgedBefore(staging, run, events, k, o);
      LedFrom(staging, run, events, h);
      assert GivesUp(staging, run, events, m, h, k, o, Interrupted);
    }
    if m: nat, h: nat, k: nat :|
        && k < i && GivesUp(staging, run, events, m, h, k, o, Interrupted)
        && events[h].choice.expired && !run[h].ops[o].cancelRequested && !run[h].stopRequested {
      JudgePoint(staging, run, events, m, h, k, o, Interrupted);
      LedFrom(staging, run, events, h);
      assert EndsAt(run, events, k, o, TimedOut);
    }
  }

  /** A verdict on an open operation was reached from a trouble through its handler. */
  lemma JudgedBefore(staging: Staging, run: seq<State>, events: seq<Event>, k: nat, o: OpId) returns (m: nat, h: nat)
    requires IsRun(staging, run, events) && |run| == |events| + 1 && Works(run, events, k, o) && run[k].worker.pc.Judge?
    requires !Otherwise(run[k].ops[o].state)
    ensures Follows(run, events, h, k, o) && run[h + 1].worker == run[k].worker && run[h].worker.pc.Handle? && !IsIoFault(run[h].worker.pc.fault)
    ensures Handles(staging, run, events, m, h, o, run[h].worker.pc.fault)
  {
    hide Inv, Next, WellFormed, Handles, Succeeds;
    h := PreviousStep(staging, run, events, k);
    LedFrom(staging, run, events, h);
    RunEvolves(staging, run, events, h, k);
    m := HandledTrouble(staging, run, events, h, o);
  }

  /** It fails if and only if an input-output trouble was handled before any cancel, or another trouble
      was, other than an interruption by a cancel, a stop or the deadline. */
  lemma FailedIff(staging: Staging, run: seq<State>, events: seq<Event>, i: nat, o: OpId)
    requires IsRun(staging, run, events) && i < |run| && o in run[i].ops
    ensures |run| == |events| + 1
    ensures run[i].ops[o].state == Failed <==>
            || (exists m: nat, h: nat, fault: Fault ::
                  h < i && Handles(staging, run, events, m, h, o, fault) && IsIoFault(fault) && !run[h].ops[o].cancelRequested)
            || (exists m: nat, h: nat, k: nat, fault: Fault ::
                  && k < i && GivesUp(staging, run, events, m, h, k, o, fault)
                  && !(fault == Interrupted && (run[h].ops[o].cancelRequested || run[h].stopRequested || events[h].choice.expired)))
  {
    hide Inv, Next, WellFormed, Succeeds, Meets;
    EndsIff(staging, run, events, i, o, Failed);
    if run[i].ops[o].state == Failed { FailedFrom(staging, run, events, i, o); }
    if m: nat, h: nat, fault: Fault :|
        h < i && Handles(staging, run, events, m, h, o, fault) && IsIoFault(fault) && !run[h].ops[o].cancelRequested {
      Uncommitted(staging, run, events, m, h, o, fault);
      RunStep(staging, run, events, h);
      JudgedIsOpen(staging, run[h], o);
      assert EndsAt(run, events, h, o, Failed);
    }
    if m: nat, h: nat, k: nat, fault: Fault :|
        && k < i && GivesUp(staging, run, events, m, h, k, o, fault)
        && !(fault == Interrupted && (run[h].ops[o].cancelRequested || run[h].stopRequested || events[h].choice.expired)) {
      JudgePoint(staging, run, events, m, h, k, o, fault);
      LedFrom(staging, run, events, h);
      assert EndsAt(run, events, k, o, Failed);
    }
  }

  lemma FailedFrom(staging: Staging, run: seq<State>, events: seq<Event>, i: nat, o: OpId)
    requires IsRun(staging, run, events) && |run| == |events| + 1 && i < |run| && o in run[i].ops && run[i].ops[o].state == Failed
    ensures || (exists m: nat, h: nat, fault: Fault ::
                  h < i && Handles(staging, run, events, m, h, o, fault) && IsIoFault(fault) && !run[h].ops[o].cancelRequested)
            || (exists m: nat, h: nat, k: nat, fault: Fault ::
                  && k < i && GivesUp(staging, run, events, m, h, k, o, fault)
                  && !(fault == Interrupted && (run[h].ops[o].cancelRequested || run[h].stopRequested || events[h].choice.expired)))
  {
    hide Inv, Next, WellFormed, Succeeds, Handles;
    EndsIff(staging, run, events, i, o, Failed);
    var k: nat :| k < i && EndsAt(run, events, k, o, Failed);
    if run[k].worker.pc.Handle? {
      var m := HandledTrouble(staging, run, events, k, o);
    } else {
      var m, h := JudgedBefore(staging, run, events, k, o);
      LedFrom(staging, run, events, h);
      assert GivesUp(staging, run, events, m, h, k, o, run[h].worker.pc.fault);
    }
  }

  // ---- Completed means untroubled ---------------------------------------------------------------------------------------

  /** No step of the operation before `i` met a trouble. */
  ghost predicate Untroubled(staging: Staging, run: seq<State>, events: seq<Event>, i: nat, o: OpId)
    requires |run| == |events| + 1
  {
    forall m: nat, f: Fault :: m < i && Works(run, events, m, o) ==> !Meets(staging, run[m], o, run[m].worker.pc, events[m].choice, f)
  }

  predicate Handling(pc: Pc) { pc.Handle? || pc.Judge? || pc.Exit? }

  lemma QueueComesFrom(staging: Staging, s: State, e: Event, o: OpId)
    requires Inv(staging, s) && WellFormed(s) && o in Next(staging, s, e).queue
    ensures o in s.queue || (o == s.nextSequence && o !in s.ops)
  {
    forall x <- s.ops ensures x < s.nextSequence { assert OpInv(s, x); }
    hide Inv, Purged, WorkStep;
    if e.Work? { WorkKeepsQueue(staging, s, e.choice); }
    if e.Cancel? { RemovedFacts(s.queue, e.op); }
  }

  lemma WorkKeepsQueue(staging: Staging, s: State, c: Choice)
    requires s.worker.Busy? ==> s.worker.op in s.ops
    ensures WorkStep(staging, s, c).queue == s.queue
  {
    hide PlainStep, Stopping;
  }

  /** An operation that waits was never in the worker's hands. */
  lemma {:induction false} WaitingIsFresh(staging: Staging, run: seq<State>, events: seq<Event>, m: nat, i: nat, o: OpId)
    requires IsRun(staging, run, events) && |run| == |events| + 1 && m <= i < |run| && o in run[i].queue
    ensures !IsActive(run[m], o)
    decreases i
  {
    hide Next, WellFormed, Inv;
    RunInvariant(staging, run, events, i);
    WaitsOnly(staging, run[i], o);
    if m < i {
      RunStep(staging, run, events, i - 1);
      QueueComesFrom(staging, run[i - 1], events[i - 1], o);
      if o in run[i - 1].queue { WaitingIsFresh(staging, run, events, m, i - 1, o); }
      else if IsActive(run[m], o) {
        RunInvariant(staging, run, events, m);
        ActiveIsKnownBy(staging, run[m], o);
        RunEvolves(staging, run, events, m, i - 1);
      }
    }
  }

  lemma WaitsOnly(staging: Staging, s: State, o: OpId)
    requires Inv(staging, s) && o in s.queue
    ensures !IsActive(s, o)
  {
    assert OpInv(s, o);
  }

  lemma ActiveIsKnownBy(staging: Staging, s: State, o: OpId)
    requires Inv(staging, s) && IsActive(s, o)
    ensures o in s.ops
  {
    hide OpInv, DirInv, AtPc;
  }

  lemma TakenWasWaiting(staging: Staging, s: State, e: Event)
    requires WellFormed(s) && s.worker.Idle? && Next(staging, s, e).worker.Busy?
    ensures Next(staging, s, e).worker.op in s.queue
  {
    hide Purged;
  }

  lemma HandlersEnd(staging: Staging, s: State, c: Choice)
    requires s.worker.Busy? && s.worker.op in s.ops && Handling(s.worker.pc)
    ensures var w := WorkStep(staging, s, c).worker; w.Idle? || Handling(w.pc)
  {
  }

  lemma {:induction false} CalmSoFar(staging: Staging, run: seq<State>, events: seq<Event>, i: nat)
    requires IsRun(staging, run, events) && |run| == |events| + 1 && i < |run| && run[i].worker.Busy? && !Handling(run[i].worker.pc)
    ensures Untroubled(staging, run, events, i, run[i].worker.op)
  {
    hide Next, WellFormed, Inv, Meets, Handling;
    assert i > 0;
    RunStep(staging, run, events, i - 1);
    var s, e, o := run[i - 1], events[i - 1], run[i].worker.op;
    if s.worker.Idle? {
      TakenWasWaiting(staging, s, e);
      forall m: nat | m < i && Works(run, events, m, o) ensures false { WaitingIsFresh(staging, run, events, m, i - 1, o); }
    } else if !e.Work? {
      WorkerWaits(staging, s, e);
      CalmSoFar(staging, run, events, i - 1);
    } else {
      NextIsWork(staging, s, e);
      WorkerStays(staging, s, e.choice);
      if Handling(s.worker.pc) { HandlersEnd(staging, s, e.choice); }
      CalmSoFar(staging, run, events, i - 1);
      forall f: Fault ensures !Meets(staging, s, o, s.worker.pc, e.choice, f) {
        NotHandling(s.worker.pc, run[i].worker.pc, f);
        StepMeets(staging, s, e.choice, f);
      }
    }
  }

  lemma NotHandling(pc: Pc, pc': Pc, f: Fault)
    requires !Handling(pc) && !Handling(pc')
    ensures !pc.Exit? && pc' != Handle(f)
  {
  }

  /** A completed operation met no trouble on its way: every fault, collision or interruption of an
      earlier step would have ended it otherwise. */
  lemma CompletedMetNoTrouble(staging: Staging, run: seq<State>, events: seq<Event>, i: nat, o: OpId)
    requires IsRun(staging, run, events) && i < |run| && o in run[i].ops && run[i].ops[o].state == Completed
    ensures |run| == |events| + 1
    ensures exists k: nat :: k < i && EndsAt(run, events, k, o, Completed) && Untroubled(staging, run, events, k, o)
  {
    hide Next, WellFormed, Inv, Untroubled, Succeeds, Publishes;
    EndsIff(staging, run, events, i, o, Completed);
    var k: nat :| k < i && EndsAt(run, events, k, o, Completed);
    assert !Handling(run[k].worker.pc) by {
      if Handling(run[k].worker.pc) { NeverPublishing(run[k], o, events[k].choice); }
      if run[k].worker.pc.Judge? {
        var h := PreviousStep(staging, run, events, k);
        LedFrom(staging, run, events, h);
      }
    }
    CalmSoFar(staging, run, events, k);
  }

  lemma NeverPublishing(s: State, o: OpId, c: Choice)
    requires o in s.ops && s.worker.Busy? && Handling(s.worker.pc)
    ensures !Publishes(s, o, s.worker.pc, c)
  {
  }

  // ---- The state shows the progress ------------------------------------------------------------------------------------

  /** The points that belong to each kind of operation. */
  predicate Belongs(kind: Kind, pc: Pc) {
    match pc
    case Source => kind.Export? case Hash => kind.Export? case MakeStaging => kind.Export? case Stage => kind.Export?
    case ToCopying => kind.Export? && kind.copy case Copy => kind.Export? && kind.copy
    case ToPublishing => kind.Export? case Seal => kind.Export? case Publish => kind.Export? case Sync => kind.Export?
    case Inspect => !kind.Export? case Conclude => !kind.Export?
    case ToRebuild => kind.Replay? case ToRunning => kind.Replay? case Receiver => kind.Replay?
    case _ => true
  }

  /** What an operation that nobody cancelled reports at each point. */
  function Shown(kind: Kind, pc: Pc): OpState {
    match pc
    case Check => Queued case Enter => Queued
    case Source => ValidatingSource
    case Hash => Hashing case MakeStaging => Hashing case Stage => Hashing case ToCopying => Hashing
    case Copy => Copying
    case ToPublishing => if kind.Export? && kind.copy then Copying else Hashing
    case Seal => Publishing case Publish => Publishing
    case Inspect => Validating case ToRebuild => Validating
    case ToRunning => RebuildingReceiver
    case Receiver => RunningReceiver
    case Conclude => if kind.Replay? then RunningReceiver else Validating
    case _ => Completed
  }

  ghost predicate Shows(op: Op, pc: Pc) {
    !Handling(pc) ==> Belongs(op.kind, pc) && (!op.cancelRequested ==> op.state == Shown(op.kind, pc))
  }

  lemma PlainShows(op: Op, pc: Pc, stop: bool, c: Choice)
    requires IsPlain(pc, c) && Shows(op, pc)
    ensures var (op', pc') := PlainStep(op, pc, stop, c); Shows(op', pc') && op'.kind == op.kind
  {
  }

  lemma WorkShows(staging: Staging, s: State, c: Choice)
    requires s.worker.Busy? && s.worker.op in s.ops && !s.worker.pc.Exit? && Shows(s.ops[s.worker.op], s.worker.pc)
    ensures var s' := WorkStep(staging, s, c);
            s'.worker.Busy? && s'.worker.op == s.worker.op && s'.worker.op in s'.ops && Shows(s'.ops[s'.worker.op], s'.worker.pc)
  {
    hide PlainStep, Stopping;
    if IsPlain(s.worker.pc, c) { PlainShows(s.ops[s.worker.op], s.worker.pc, s.stopRequested, c); }
  }

  lemma OthersShow(staging: Staging, s: State, e: Event)
    requires Inv(staging, s) && WellFormed(s) && !e.Work? && s.worker.Busy? && Shows(s.ops[s.worker.op], s.worker.pc)
    ensures var s' := Next(staging, s, e); s'.worker == s.worker && s.worker.op in s'.ops && Shows(s'.ops[s.worker.op], s.worker.pc)
  {
    assert s.worker.op < s.nextSequence && s.worker.op !in s.queue by { assert OpInv(s, s.worker.op); }
    hide Inv, Purged, Belongs, Shown, Handling;
    WorkerWaits(staging, s, e);
  }

  lemma TakenShows(staging: Staging, s: State, e: Event)
    requires Inv(staging, s) && WellFormed(s) && s.worker.Idle? && Next(staging, s, e).worker.Busy?
    ensures var s' := Next(staging, s, e); s'.worker.op in s'.ops && Shows(s'.ops[s'.worker.op], s'.worker.pc)
  {
    TakenWasWaiting(staging, s, e);
    assert OpInv(s, Next(staging, s, e).worker.op);
    hide Inv, Purged;
  }

  /** At every point of a run, the active operation is one that the point belongs to, and reports the
      state of that point unless it has been cancelled. */
  lemma {:induction false} StateShowsProgress(staging: Staging, run: seq<State>, events: seq<Event>, i: nat)
    requires IsRun(staging, run, events) && i < |run| && run[i].worker.Busy?
    ensures run[i].worker.op in run[i].ops && Shows(run[i].ops[run[i].worker.op], run[i].worker.pc)
  {
    hide Inv, Next, WellFormed, Shows;
    assert i > 0;
    RunStep(staging, run, events, i - 1);
    var s, e := run[i - 1], events[i - 1];
    if s.worker.Idle? {
      TakenShows(staging, s, e);
    } else {
      StateShowsProgress(staging, run, events, i - 1);
      if !e.Work? { OthersShow(staging, s, e); }
      else {
        NextIsWork(staging, s, e);
        if s.worker.pc.Exit? { ExitFrees(staging, s, e.choice); } else { WorkShows(staging, s, e.choice); }
      }
    }
  }
}
