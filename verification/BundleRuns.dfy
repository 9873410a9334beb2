/** Every interleaving of the bundle service: the rename is the commit point, an accepted cancel
    excludes it, and no failed export leaves its staging directory behind. */
module BundleRuns {
  import opened Prelude
  import opened BundleModel

  datatype Event =
    | Submit(key: Key, request: Request) | Cancel(op: OpId) | Shutdown | RequestStop | Pop | Work(choice: Choice)

  ghost predicate WellFormed(s: State) {
    && (forall o <- s.queue :: o in s.ops)
    && (s.worker.Busy? ==> s.worker.op in s.ops)
  }

  function Next(staging: Staging, s: State, e: Event): State
    requires s.worker.Busy? ==> s.worker.op in s.ops
  {
    match e
    case Submit(key, request) => SubmitStep(s, key, request).0
    case Cancel(o) => CancelStep(s, o).0
    case Shutdown => ShutdownStep(s)
    case RequestStop => StopStep(s)
    case Pop => PopStep(s)
    case Work(c) => WorkStep(staging, s, c)
  }

  /** A fresh service over whatever bundles earlier processes left; those directories belong to
      operation 0, which this process never runs. */
  ghost predicate Init(s: State) {
    && s.ops == map[] && s.history == History([], map[]) && s.queue == [] && s.worker == Idle && s.leaked == {}
    && s.nextSequence == 1
    && (forall n <- s.root :: s.root[n] == 0) && !s.shuttingDown && !s.stopRequested
  }

  ghost predicate IsRun(staging: Staging, run: seq<State>, events: seq<Event>) {
    && |run| == |events| + 1 && Init(run[0])
    && forall i :: 0 <= i < |events| ==> WellFormed(run[i]) && run[i + 1] == Next(staging, run[i], events[i])
  }

  predicate IsActive(s: State, o: OpId) { s.worker.Busy? && s.worker.op == o }

  // ---- The invariant ----------------------------------------------------------------------------------

  ghost predicate OpInv(s: State, o: OpId)
    requires o in s.ops
  {
    var op := s.ops[o];
    && 0 < o < s.nextSequence
    && (op.committed ==> op.state == Completed && !op.cancelRequested && op.kind.Export?
                         && op.kind.bundle in s.root && s.root[op.kind.bundle] == o)
    && (o in s.queue ==> op.state == Queued && !op.cancelRequested && !op.committed && !IsActive(s, o))
    && (o !in s.queue && !IsActive(s, o) ==> AtRest(op.state))
  }

  /** Every directory was there before, is a published bundle, is the staging directory of the
      running export, or was leaked. */
  ghost predicate DirInv(staging: Staging, s: State, n: Name)
    requires n in s.root
  {
    var o := s.root[n];
    || o == 0
    || (o in s.ops && s.ops[o].committed && s.ops[o].kind.Export? && s.ops[o].kind.bundle == n)
    || (IsActive(s, o) && IsStaged(s.worker.pc) && n == staging(o))
    || o in s.leaked
  }

  /** The record of the active operation at each point of `Process`. */
  ghost predicate AtPc(op: Op, pc: Pc) {
    && (op.committed ==> pc.Sync? || pc.Handle? || pc.Judge? || pc.Exit?)
    && (op.committed ==> op.state == Completed && !op.cancelRequested)
    && (pc.Sync? ==> op.committed)
    && (pc.Exit? ==> AtRest(op.state))
    && (pc.Judge? ==> AtRest(pc.verdict))
    && (AtRest(op.state) && !op.committed ==>
          pc.Exit? || ((pc.Check? || pc.Enter?) && op.state == Cancelled && op.cancelRequested))
    && (op.state == Queued ==> pc.Check? || pc.Enter?)
  }

  ghost predicate WorkerInv(staging: Staging, s: State)
    requires s.worker.Busy? && s.worker.op in s.ops
  {
    && AtPc(s.ops[s.worker.op], s.worker.pc)
    && (IsStaged(s.worker.pc) ==> staging(s.worker.op) in s.root && s.root[staging(s.worker.op)] == s.worker.op)
  }

  ghost predicate Inv(staging: Staging, s: State) {
    && WellFormed(s)
    && (forall o <- s.ops :: OpInv(s, o))
    && (forall n <- s.root :: DirInv(staging, s, n))
    && (forall o <- s.leaked :: o < s.nextSequence)
    && (s.worker.Busy? ==> WorkerInv(staging, s))
    && Increasing(s.queue) && 0 < s.nextSequence
  }

  predicate Otherwise(s: OpState) { s.Completed? || s.Failed? || s.TimedOut? }

  /** What no step undoes, for one operation. */
  ghost predicate OpEvolves(a: Op, b: Op) {
    && a.kind == b.kind && a.key == b.key && a.request == b.request
    && (a.cancelRequested ==> b.cancelRequested)
    && (a.committed ==> b == a)
    && (a.cancelRequested && !a.committed ==> !b.committed)
    && (a.cancelRequested && !Otherwise(a.state) ==> !Otherwise(b.state))
    && (Otherwise(a.state) ==> b.state == a.state)
  }

  ghost predicate Evolves(s: State, s': State) {
    (forall o <- s.ops :: o in s'.ops && OpEvolves(s.ops[o], s'.ops[o])) && s.leaked <= s'.leaked
  }

  // ---- Each step ----------------------------------------------------------------------------------------

  lemma SubmitKeeps(staging: Staging, s: State, key: Key, request: Request)
    requires Inv(staging, s)
    ensures Inv(staging, SubmitStep(s, key, request).0) && Evolves(s, SubmitStep(s, key, request).0)
  {
    hide Increasing, AtPc, Purged;
    var s' := SubmitStep(s, key, request).0;
    assert forall o <- s.queue :: OpInv(s, o);
    IncreasingAppend(s.queue, s.nextSequence);
    forall o <- s'.ops ensures OpInv(s', o) { if o in s.ops { assert OpInv(s, o); } }
    forall n <- s'.root ensures DirInv(staging, s', n) { assert DirInv(staging, s, n); }
  }

  /** `s'` is `s` with one record rewritten, that operation out of the queue, and the worker at most
      moved. */
  ghost predicate Rewrites(s: State, s': State, o: OpId) {
    && o in s.ops && o in s'.ops && s'.ops == s.ops[o := s'.ops[o]]
    && s' == s.(ops := s'.ops, queue := s'.queue, worker := s'.worker)
    && Increasing(s'.queue) && (forall x :: x in s'.queue <==> x in s.queue && x != o)
    && s'.worker.Busy? == s.worker.Busy? && (s.worker.Busy? ==> s'.worker.op == s.worker.op)
  }

  lemma OneOpChanges(staging: Staging, s: State, s': State, o: OpId)
    requires Inv(staging, s) && Rewrites(s, s', o) && OpEvolves(s.ops[o], s'.ops[o])
    requires s'.ops[o].committed == s.ops[o].committed
    requires if IsActive(s, o) then IsStaged(s'.worker.pc) == IsStaged(s.worker.pc) && AtPc(s'.ops[o], s'.worker.pc)
             else s'.worker == s.worker && AtRest(s'.ops[o].state)
    ensures Inv(staging, s') && Evolves(s, s')
  {
    hide Increasing, AtPc;
    forall x <- s.ops ensures OpEvolves(s.ops[x], s'.ops[x]) { if x != o { SelfEvolves(s.ops[x]); } }
    hide OpEvolves;
    assert OpInv(s, o);
    forall x <- s'.ops ensures OpInv(s', x) { assert OpInv(s, x); CommittedEvolves(s.ops[o], s'.ops[o]); }
    forall n <- s'.root ensures DirInv(staging, s', n) { assert DirInv(staging, s, n); CommittedEvolves(s.ops[o], s'.ops[o]); }
  }

  lemma SelfEvolves(op: Op)
    ensures OpEvolves(op, op)
  {
  }

  lemma CommittedEvolves(a: Op, b: Op)
    requires OpEvolves(a, b)
    ensures a.kind == b.kind && (a.committed ==> a == b)
  {
  }

  /** The effect of an accepted `Cancel` on the record. */
  function Flagged(op: Op): Op {
    op.(cancelRequested := true, state := if op.state == Queued then Cancelled else Cancelling)
  }

  lemma FlaggedEvolves(op: Op, pc: Pc)
    requires !AtRest(op.state) && !op.committed
    ensures OpEvolves(op, Flagged(op)) && (AtPc(op, pc) ==> AtPc(Flagged(op), pc))
  {
  }

  lemma CancelKeeps(staging: Staging, s: State, o: OpId)
    requires Inv(staging, s)
    ensures Inv(staging, CancelStep(s, o).0) && Evolves(s, CancelStep(s, o).0)
  {
    hide Increasing, DirInv, OpEvolves, AtPc, Evolves;
    var s' := CancelStep(s, o).0;
    SameEvolves(s);
    if s' != s {
      RemovedFacts(s.queue, o);
      assert OpInv(s, o);
      assert s'.ops == s.ops[o := Flagged(s.ops[o])];
      FlaggedEvolves(s.ops[o], if s.worker.Busy? then s.worker.pc else Exit);
      OneOpChanges(staging, s, s', o);
    }
  }

  lemma SameEvolves(s: State)
    ensures Evolves(s, s)
  {
  }

  lemma ShutdownKeeps(staging: Staging, s: State)
    requires Inv(staging, s)
    ensures Inv(staging, ShutdownStep(s)) && Evolves(s, ShutdownStep(s))
  {
    var s' := ShutdownStep(s);
    forall x <- s'.ops ensures OpInv(s', x) { assert OpInv(s, x); }
    forall x <- s.ops ensures x in s'.ops && OpEvolves(s.ops[x], s'.ops[x]) { assert OpInv(s, x); }
    forall n <- s'.root ensures DirInv(staging, s', n) { assert DirInv(staging, s, n); }
    if s.worker.Busy? { assert OpInv(s, s.worker.op); }
  }

  lemma PopKeeps(staging: Staging, s: State)
    requires Inv(staging, s)
    ensures Inv(staging, PopStep(s)) && Evolves(s, PopStep(s))
  {
    var s' := PopStep(s);
    if s'.worker != s.worker {
      assert OpInv(s, s.queue[0]);
      IncreasingTail(s.queue);
    }
    forall x <- s'.ops ensures OpInv(s', x) { assert OpInv(s, x); }
    forall n <- s'.root ensures DirInv(staging, s', n) { assert DirInv(staging, s, n); }
  }

  lemma RetireKeeps(staging: Staging, s: State)
    requires Inv(staging, s) && s.worker.Busy? && s.worker.pc.Exit?
    ensures Inv(staging, s.(worker := Idle)) && Evolves(s, s.(worker := Idle))
  {
    var s' := s.(worker := Idle);
    forall x <- s'.ops ensures OpInv(s', x) { assert OpInv(s, x); }
    forall n <- s'.root ensures DirInv(staging, s', n) { assert DirInv(staging, s, n); }
  }

  /** Unwinding out of the staged part of `Export`. */
  lemma CleanedKeeps(staging: Staging, s: State, c: Choice, fault: Fault)
    requires Inv(staging, s) && s.worker.Busy? && IsStaged(s.worker.pc)
    ensures var s' := Cleaned(staging, s, s.worker.op, c, fault); Inv(staging, s') && Evolves(s, s')
  {
    hide Increasing;
    var o := s.worker.op;
    var s' := Cleaned(staging, s, o, c, fault);
    SameEvolves(s);
    assert OpInv(s, o);
    forall x <- s'.ops ensures OpInv(s', x) { assert OpInv(s, x); }
    forall n <- s'.root ensures DirInv(staging, s', n) { assert DirInv(staging, s, n); }
  }

  lemma PublishKeeps(staging: Staging, s: State, c: Choice)
    requires Inv(staging, s) && s.worker.Busy? && s.worker.pc.Publish?
    ensures var s' := PublishStep(staging, s, s.worker.op, c); Inv(staging, s') && Evolves(s, s')
  {
    var o := s.worker.op;
    var op := s.ops[o];
    var s' := PublishStep(staging, s, o, c);
    assert OpInv(s, o);
    if Stopping(op, s.stopRequested, c) {
      CleanedKeeps(staging, s, c, Interrupted);
    } else if c.fault.Some? {
      CleanedKeeps(staging, s, c, c.fault.value);
    } else if !op.kind.Export? || op.kind.bundle in s.root {
      CleanedKeeps(staging, s, c, OtherError);
    } else {
      forall x <- s'.ops ensures OpInv(s', x) { assert OpInv(s, x); }
      forall n <- s'.root ensures DirInv(staging, s', n) { if n in s.root { assert DirInv(staging, s, n); } }
    }
  }

  lemma StagingKeeps(staging: Staging, s: State, c: Choice)
    requires Inv(staging, s) && s.worker.Busy? && s.worker.pc.MakeStaging?
    ensures var s' := StagingStep(staging, s, s.worker.op, c); Inv(staging, s') && Evolves(s, s')
  {
    hide Increasing, OpEvolves, AtPc, DirInv, Evolves;
    var o := s.worker.op;
    var s' := StagingStep(staging, s, o, c);
    assert OpInv(s, o);
    StagingAtPc(s.ops[o], s'.worker.pc);
    if s'.worker.pc.Stage? {
      StagedKeeps(staging, s, s');
    } else {
      assert s.ops[o := s.ops[o]] == s.ops;
      SelfEvolves(s.ops[o]);
      OneOpChanges(staging, s, s', o);
    }
  }

  lemma StagedKeeps(staging: Staging, s: State, s': State)
    requires Inv(staging, s) && s.worker.Busy? && s.worker.pc.MakeStaging? && staging(s.worker.op) !in s.root
    requires s' == At(s.(root := s.root[staging(s.worker.op) := s.worker.op]), s.worker.op, Stage)
    requires AtPc(s.ops[s.worker.op], Stage)
    ensures Inv(staging, s') && Evolves(s, s')
  {
    hide Increasing, OpEvolves, AtPc;
    SameEvolves(s);
    assert OpInv(s, s.worker.op);
    forall x <- s'.ops ensures OpInv(s', x) { assert OpInv(s, x); }
    forall n <- s'.root ensures DirInv(staging, s', n) { if n in s.root { assert DirInv(staging, s, n); } }
  }

  lemma StagingAtPc(op: Op, pc: Pc)
    requires AtPc(op, MakeStaging) && (pc.Stage? || pc.Handle?)
    ensures AtPc(op, pc)
  {
  }

  lemma PlainKeeps(op: Op, pc: Pc, stop: bool, c: Choice)
    requires IsPlain(pc, c) && AtPc(op, pc)
    ensures var (op', pc') := PlainStep(op, pc, stop, c);
            && OpEvolves(op, op') && op'.committed == op.committed && AtPc(op', pc') && IsStaged(pc') == IsStaged(pc)
  {
    PlainKeepsRecord(op, pc, stop, c);
    hide OpEvolves;
  }

  lemma PlainKeepsRecord(op: Op, pc: Pc, stop: bool, c: Choice)
    requires IsPlain(pc, c) && AtPc(op, pc)
    ensures var op' := PlainStep(op, pc, stop, c).0; OpEvolves(op, op') && op'.committed == op.committed
  {
  }

  lemma WorkKeeps(staging: Staging, s: State, c: Choice)
    requires Inv(staging, s)
    ensures Inv(staging, WorkStep(staging, s, c)) && Evolves(s, WorkStep(staging, s, c))
  {
    hide OpEvolves, DirInv, PublishStep, StagingStep, Cleaned, PlainStep, AtPc, Increasing;
    SameEvolves(s);
    if s.worker.Busy? {
      var pc := s.worker.pc;
      if pc.Exit? {
        RetireKeeps(staging, s);
      } else if pc.MakeStaging? {
        StagingKeeps(staging, s, c);
      } else if pc.Publish? {
        PublishKeeps(staging, s, c);
      } else if IsPlain(pc, c) {
        PlainKeeps(s.ops[s.worker.op], pc, s.stopRequested, c);
        assert OpInv(s, s.worker.op);
        OneOpChanges(staging, s, WorkStep(staging, s, c), s.worker.op);
      } else {
        CleanedKeeps(staging, s, c, c.fault.value);
      }
    }
  }

  lemma NextKeeps(staging: Staging, s: State, e: Event)
    requires Inv(staging, s)
    ensures Inv(staging, Next(staging, s, e)) && Evolves(s, Next(staging, s, e))
  {
    hide WorkStep, ShutdownStep, CancelStep, SubmitStep, PopStep;
    match e
    case Submit(key, request) => SubmitKeeps(staging, s, key, request);
    case Cancel(o) => CancelKeeps(staging, s, o);
    case Shutdown => ShutdownKeeps(staging, s);
    case RequestStop => StopKeeps(staging, s);
    case Pop => PopKeeps(staging, s);
    case Work(c) => WorkKeeps(staging, s, c);
  }

  lemma StopKeeps(staging: Staging, s: State)
    requires Inv(staging, s)
    ensures Inv(staging, StopStep(s)) && Evolves(s, StopStep(s))
  {
    var s' := StopStep(s);
    forall x <- s'.ops ensures OpInv(s', x) { assert OpInv(s, x); }
    forall n <- s'.root ensures DirInv(staging, s', n) { assert DirInv(staging, s, n); }
  }

  // ---- Whole runs ------------------------------------------------------------------------------------------

  lemma {:induction false} RunInvariant(staging: Staging, run: seq<State>, events: seq<Event>, i: nat)
    requires IsRun(staging, run, events) && i < |run|
    ensures Inv(staging, run[i])
  {
    if i > 0 {
      hide Inv;
      RunInvariant(staging, run, events, i - 1);
      assert run[i] == Next(staging, run[i - 1], events[i - 1]);
      NextKeeps(staging, run[i - 1], events[i - 1]);
    }
  }

  lemma {:induction false} RunEvolves(staging: Staging, run: seq<State>, events: seq<Event>, i: nat, k: nat)
    requires IsRun(staging, run, events) && i <= k < |run|
    ensures Evolves(run[i], run[k])
    decreases k
  {
    hide Inv;
    if i < k {
      RunEvolves(staging, run, events, i, k - 1);
      RunInvariant(staging, run, events, k - 1);
      assert run[k] == Next(staging, run[k - 1], events[k - 1]);
      NextKeeps(staging, run[k - 1], events[k - 1]);
      hide Next;
    }
  }

  /** Once flagged before its rename, an export is never published. */
  lemma FlaggedIsNeverPublished(staging: Staging, run: seq<State>, events: seq<Event>, i: nat, k: nat, o: OpId)
    requires IsRun(staging, run, events) && i <= k < |run| && o in run[i].ops
    requires run[i].ops[o].cancelRequested
    ensures o in run[k].ops && !run[k].ops[o].committed
  {
    RunInvariant(staging, run, events, i);
    assert OpInv(run[i], o);
    hide Inv, Next;
    RunEvolves(staging, run, events, i, k);
  }

  predicate Resting(s: State, o: OpId) { o !in s.queue && !IsActive(s, o) }

  /** A flagged operation comes to rest `cancelled` if and only if it had not already ended in
      another way when it carried the flag: `Cancel` never flags an operation at rest, but
      `Shutdown` flags an active one that has just failed or completed. */
  lemma FlaggedComesToRestCancelledIff(staging: Staging, run: seq<State>, events: seq<Event>, i: nat, k: nat, o: OpId)
    requires IsRun(staging, run, events) && i <= k < |run| && o in run[i].ops
    requires run[i].ops[o].cancelRequested && Resting(run[k], o)
    ensures o in run[k].ops
    ensures run[k].ops[o].state == Cancelled <==> !Otherwise(run[i].ops[o].state)
    ensures Otherwise(run[i].ops[o].state) ==> run[k].ops[o].state == run[i].ops[o].state
  {
    hide Next;
    RunEvolves(staging, run, events, i, k);
    RunInvariant(staging, run, events, k);
    assert OpInv(run[k], o);
  }

  function Checking(state: OpState, flagged: bool): Op { Op(Validate, "key", Request(Validate, ""), state, flagged, false) }

  /** Operation 1 alone, in the hands of the worker. */
  function Working(op: Op, pc: Pc): State {
    State(map[1 := op], History([1], map["key" := Record(Request(Validate, ""), 1)]), [], Busy(1, pc), map[], {}, 2, false, false)
  }

  ghost predicate Reaches(staging: Staging, s: State) {
    exists run: seq<State>, events: seq<Event> :: IsRun(staging, run, events) && run[|run| - 1] == s
  }

  /** Both readings of the flag occur: after `Shutdown` during a failing validation the operation
      is flagged and stays `failed`. */
  lemma ShutdownCanFlagAFailedOperation(staging: Staging)
    ensures Reaches(staging, ShutdownStep(Working(Checking(Failed, false), Exit)))
    ensures ShutdownStep(Working(Checking(Failed, false), Exit)).ops[1] == Checking(Failed, true)
  {
    hide Reaches, WorkStep, PlainStep, Working;
    var quiet := Choice(None, false, true, false);
    var broken := Choice(Some(OtherError), false, true, false);
    var op := Checking(Queued, false);
    ValidationSteps(quiet, broken);
    StartsWorking(staging);
    OneStep(staging, op, Check, quiet);
    OneStep(staging, op, Enter, quiet);
    OneStep(staging, op.(state := Validating), Inspect, broken);
    OneStep(staging, op.(state := Validating), Handle(OtherError), broken);
    OneStep(staging, op.(state := Validating), Judge(Failed), broken);
    ReachesNext(staging, Working(op.(state := Failed), Exit), Shutdown);
    ShutdownFlags(op.(state := Failed), Exit);
  }

  lemma ShutdownFlags(op: Op, pc: Pc)
    ensures !op.committed ==> ShutdownStep(Working(op, pc)).ops == map[1 := op.(cancelRequested := true)]
  {
  }

  lemma StartsWorking(staging: Staging)
    ensures Reaches(staging, Working(Checking(Queued, false), Check))
  {
    hide Reaches, IsRun;
    var s := State(map[], History([], map[]), [], Idle, map[], {}, 1, false, false);
    EmptyRun(staging, s);
    ReachesNext(staging, s, Submit("key", Request(Validate, "")));
    var t := SubmitStep(s, "key", Request(Validate, "")).0;
    ReachesNext(staging, t, Pop);
    assert t.queue == [1] && [1][1..] == [];
    assert PopStep(t) == Working(Checking(Queued, false), Check);
  }

  lemma ValidationSteps(quiet: Choice, broken: Choice)
    requires quiet.fault.None? && broken.fault == Some(OtherError)
    ensures var op := Checking(Queued, false); var busy := op.(state := Validating);
            && PlainStep(op, Check, false, quiet) == (op, Enter)
            && PlainStep(op, Enter, false, quiet) == (busy, Inspect)
            && PlainStep(busy, Inspect, false, broken) == (busy, Handle(OtherError))
            && PlainStep(busy, Handle(OtherError), false, broken) == (busy, Judge(Failed))
            && PlainStep(busy, Judge(Failed), false, broken) == (op.(state := Failed), Exit)
  {
  }

  lemma EmptyRun(staging: Staging, s: State)
    requires Init(s)
    ensures Reaches(staging, s)
  {
    assert IsRun(staging, [s], []);
  }

  lemma ReachesNext(staging: Staging, s: State, e: Event)
    requires Reaches(staging, s)
    ensures WellFormed(s) && Reaches(staging, Next(staging, s, e))
  {
    hide Next, Inv;
    var run: seq<State>, events: seq<Event> :| IsRun(staging, run, events) && run[|run| - 1] == s;
    RunGrows(staging, run, events, e);
    var run' := run + [Next(staging, s, e)];
    assert IsRun(staging, run', events + [e]) && run'[|run'| - 1] == Next(staging, s, e);
  }

  lemma RunGrows(staging: Staging, run: seq<State>, events: seq<Event>, e: Event)
    requires IsRun(staging, run, events)
    ensures WellFormed(run[|run| - 1]) && IsRun(staging, run + [Next(staging, run[|run| - 1], e)], events + [e])
  {
    hide Next, Inv;
    var s := run[|run| - 1];
    RunInvariant(staging, run, events, |run| - 1);
    assert WellFormed(s) by { InvWellFormed(staging, s); }
    var run', events' := run + [Next(staging, s, e)], events + [e];
    forall i | 0 <= i < |events'| ensures WellFormed(run'[i]) && run'[i + 1] == Next(staging, run'[i], events'[i]) {
      if i < |events| { assert run'[i] == run[i] && run'[i + 1] == run[i + 1] && events'[i] == events[i]; }
    }
  }

  lemma InvWellFormed(staging: Staging, s: State)
    requires Inv(staging, s)
    ensures WellFormed(s)
  {
  }

  lemma OneStep(staging: Staging, op: Op, pc: Pc, c: Choice)
    requires Reaches(staging, Working(op, pc)) && IsPlain(pc, c)
    ensures var (op', pc') := PlainStep(op, pc, false, c); Reaches(staging, Working(op', pc'))
  {
    hide Reaches, PlainStep;
    ReachesNext(staging, Working(op, pc), Work(c));
    var (op', pc') := PlainStep(op, pc, false, c);
    assert WorkStep(staging, Working(op, pc), c) == Working(op', pc');
  }

  /** After the rename the operation stays `completed` and its bundle stays in place, whatever
      else is cancelled, exported or shut down. */
  lemma PublishedIsPermanent(staging: Staging, run: seq<State>, events: seq<Event>, i: nat, k: nat, o: OpId)
    requires IsRun(staging, run, events) && i <= k < |run| && o in run[i].ops && run[i].ops[o].committed
    ensures o in run[k].ops && run[k].ops[o] == run[i].ops[o] && run[k].ops[o].state == Completed
    ensures run[k].ops[o].kind.Export? && run[k].ops[o].kind.bundle in run[k].root
    ensures run[k].root[run[k].ops[o].kind.bundle] == o
  {
    hide Next;
    RunEvolves(staging, run, events, i, k);
    RunInvariant(staging, run, events, k);
    assert OpInv(run[k], o);
  }

  /** Bundles that were there before the service started are never touched either. */
  lemma {:induction false} EarlierBundlesStay(staging: Staging, run: seq<State>, events: seq<Event>, k: nat, n: Name)
    requires IsRun(staging, run, events) && k < |run| && n in run[0].root
    ensures n in run[k].root && run[k].root[n] == 0
  {
    if k > 0 {
      EarlierBundlesStay(staging, run, events, k - 1, n);
      RunInvariant(staging, run, events, k - 1);
      assert run[k] == Next(staging, run[k - 1], events[k - 1]);
      ForeignDirectoryStays(staging, run[k - 1], events[k - 1], n);
    }
  }

  lemma ForeignDirectoryStays(staging: Staging, s: State, e: Event, n: Name)
    requires Inv(staging, s) && n in s.root && s.root[n] == 0
    ensures n in Next(staging, s, e).root && Next(staging, s, e).root[n] == 0
  {
    hide PlainStep, Increasing;
    if s.worker.Busy? { assert OpInv(s, s.worker.op); }
  }

  /** When an export that was not published is over, no directory of it is left unless removing
      the staging directory failed. */
  lemma FailedExportLeavesNothing(staging: Staging, run: seq<State>, events: seq<Event>, k: nat, o: OpId, n: Name)
    requires IsRun(staging, run, events) && k < |run| && o in run[k].ops && Resting(run[k], o)
    requires !run[k].ops[o].committed && o !in run[k].leaked
    ensures !(n in run[k].root && run[k].root[n] == o)
  {
    RunInvariant(staging, run, events, k);
    hide Next;
    assert OpInv(run[k], o);
    assert n in run[k].root ==> DirInv(staging, run[k], n);
  }
}
