/** What a job's record tells: when it was cancelled, what it stored, what it says of its generation,
    and that the worker gets on with it. */
module JobRecords {
  import opened Prelude
  import opened JobModel
  import opened JobRuns
  import opened JobSafety
  import opened JobTheorems
  import opened JobReceiver
  import opened JobOutcomes
  import JobAdmission

  // ---- Cancellation ----------------------------------------------------------------------------------------------

  /** Step `k` withdraws the live job `j`: a cancel of it, or the shutdown. */
  ghost predicate Withdrawn(run: seq<State>, events: seq<Event>, k: nat, j: JobId)
    requires |run| == |events| + 1
  {
    && k < |events| && IsLive(run[k].table, j)
    && (events[k] == Cancel(j) || (events[k].Shutdown? && !run[k].shuttingDown))
  }

  lemma WorkKeepsFlag(env: Env, job: Job, pc: Pc, stop: bool, c: Choice)
    ensures WorkJob(env, job, pc, stop, c).0.cancelRequested == job.cancelRequested
  {
    forall x: Job, to: JobState, code: Code ensures Terminated(x, to, code).cancelRequested == x.cancelRequested {}
    hide Terminated;
    forall x: Job, to: JobState ensures Moved(x, to).Some? ==> Moved(x, to).value.cancelRequested == x.cancelRequested {}
    forall x: Job, out: Output, code: Code
      ensures Unwound(env, x, out, code).cancelRequested == x.cancelRequested
      ensures CancelledAfterWithholding(env, x, out, code).cancelRequested == x.cancelRequested {}
    hide Moved, AllFiles, Digests, Unwound, CancelledAfterWithholding;
  }

  /** Nothing but a cancel of the job or the shutdown sets its flag. */
  lemma FlagStep(env: Env, s: State, e: Event, s': State, j: JobId)
    requires Inv(env, s) && WellFormed(s) && Next(env, s, e, s') && IsLive(s.table, j) && !s.table[j].cancelRequested
    requires j in s'.table && s'.table[j].cancelRequested
    ensures e == Cancel(j) || (e.Shutdown? && !s.shuttingDown)
  {
    hide Inv, SubmitStep, ShutdownStep, WorkStep, ResetStep, PopStep, StopStep, WorkJob, WellFormed;
    match e
    case Cancel(x) => if x != j { CancelTouchesOne(s, x, j); }
    case Shutdown => if s.shuttingDown { ShutdownOnce(env, s); }
    case Work(c) =>
      if IsActive(s, j) {
        if s.worker.pc.Exit? { ExitIsAtRest(env, s); } else {
          WorkerStep(env, s, c);
          WorkKeepsFlag(env, s.table[j], s.worker.pc, s.stopRequested, c);
        }
      } else {
        OthersUntouched(env, s, c, j);
      }
    case _ => OtherEnds(env, s, e, s', j);
  }

  lemma CancelTouchesOne(s: State, x: JobId, j: JobId)
    requires x != j && j in s.table
    ensures j in CancelStep(s, x).0.table && CancelStep(s, x).0.table[j] == s.table[j]
  {
    hide Moved, Terminated;
  }

  lemma {:induction false} FlagWasSet(env: Env, run: seq<State>, events: seq<Event>, i: nat, j: JobId)
    requires IsRun(env, run, events) && i < |run| && IsLive(run[i].table, j) && run[i].table[j].cancelRequested
    ensures |run| == |events| + 1 && exists k: nat :: k < i && Withdrawn(run, events, k, j)
  {
    hide Inv, Next, WellFormed;
    RunLength(env, run, events);
    assert i > 0;
    hide IsRun;
    TakesStep(env, run, events, i - 1);
    RunInvariant(env, run, events, i - 1);
    var s := run[i - 1];
    if j !in s.table {
      JobAdmission.NewRecord(env, s, events[i - 1], run[i], j);
    } else {
      if IsTerminal(s.table[j].state) { TerminalIsForever(env, run, events, i - 1, i, j); }
      if s.table[j].cancelRequested {
        FlagWasSet(env, run, events, i - 1, j);
      } else {
        FlagStep(env, s, events[i - 1], run[i], j);
        assert Withdrawn(run, events, i - 1, j);
      }
    }
  }

  /** A rested job is `cancelled` if and only if it was cancelled or caught by the shutdown while it
      was live. */
  lemma CancelledIff(env: Env, run: seq<State>, events: seq<Event>, i: nat, j: JobId)
    requires IsRun(env, run, events) && i < |run| && j in run[i].table && IsTerminal(run[i].table[j].state)
    ensures |run| == |events| + 1
    ensures run[i].table[j].state == Cancelled <==> exists k: nat :: k < i && Withdrawn(run, events, k, j)
  {
    hide IsRun, EndsAt;
    RunLength(env, run, events);
    if run[i].table[j].state == Cancelled {
      RestedHasACode(env, run, events, i, j);
      var code := run[i].table[j].code.value;
      RestWasCaused(env, run, events, i, j, Cancelled, code);
      var k: nat :| k < i && EndsAt(run, events, k, j, Cancelled, code);
      CancelledBy(env, run, events, k, j, code);
    }
    if k: nat :| k < i && Withdrawn(run, events, k, j) { WithdrawnEndsCancelled(env, run, events, k, i, j); }
  }

  lemma CancelledBy(env: Env, run: seq<State>, events: seq<Event>, k: nat, j: JobId, code: Code)
    requires IsRun(env, run, events) && |run| == |events| + 1 && EndsAt(run, events, k, j, Cancelled, code)
    ensures exists m: nat :: m <= k && Withdrawn(run, events, m, j)
  {
    hide IsRun, Observes, Withdraws;
    if events[k].Work? {
      assert run[k].table[j].cancelRequested by { FreeIsNeverCancelled(run, events, k, j, code); }
      FlagWasSet(env, run, events, k, j);
    } else {
      assert Withdrawn(run, events, k, j);
    }
  }

  lemma FreeIsNeverCancelled(run: seq<State>, events: seq<Event>, k: nat, j: JobId, code: Code)
    requires |run| == |events| + 1 && EndsAt(run, events, k, j, Cancelled, code) && events[k].Work?
    ensures run[k].table[j].cancelRequested
  {
    hide Observes;
  }

  lemma WithdrawnEndsCancelled(env: Env, run: seq<State>, events: seq<Event>, k: nat, i: nat, j: JobId)
    requires IsRun(env, run, events) && |run| == |events| + 1 && k < i < |run| && Withdrawn(run, events, k, j)
    requires j in run[i].table && IsTerminal(run[i].table[j].state)
    ensures run[i].table[j].state == Cancelled
  {
    hide IsRun, Inv, RestsAs;
    RunInvariant(env, run, events, k);
    if events[k] == Cancel(j) {
      LiveIsListed(env, run[k], j);
      AcceptedCancelWins(env, run, events, k, i, j);
    } else if IsActive(run[k], j) {
      FlaggedByShutdownEndsCancelledIff(env, run, events, k, i, j);
    } else {
      LiveIsListed(env, run[k], j);
      hide Evolves;
      StepEndsJob(env, run, events, k, j, Cancelled, ApplicationShutdown);
      RestsInState(run[k + 1].table[j], Cancelled, ApplicationShutdown);
      TerminalIsForever(env, run, events, k + 1, i, j);
    }
  }

  lemma RestsInState(job: Job, state: JobState, code: Code)
    requires RestsAs(job, state, code)
    ensures job.state == state && IsTerminal(state)
  {
  }

  lemma LiveIsListed(env: Env, s: State, j: JobId)
    requires Inv(env, s) && IsLive(s.table, j)
    ensures j in s.jobs && (!IsActive(s, j) ==> j in s.queue)
  {
    hide Sound, WorkerInv, Pristine, Budget, EntriesResolve, Tiled;
  }

  // ---- What a job stores -------------------------------------------------------------------------------------------

  /** The five files of an output, by name. */
  ghost predicate Stores(env: Env, files: map<FileName, Bytes>, out: Output) {
    && files.Keys == {Iq, Truth, SigMf, ReceiverConfig, Manifest}
    && files[Iq] == out.iq && files[Truth] == env.render(out.truth) && files[SigMf] == env.render(out.sigmf)
    && files[ReceiverConfig] == env.render(out.receiver) && files[Manifest] == env.render(out.manifest)
  }

  lemma AllFilesStore(env: Env, out: Output)
    ensures Stores(env, AllFiles(env, out), out)
  {
  }

  lemma TerminatedKeepsFiles(job: Job, to: JobState, code: Code)
    ensures var r := Terminated(job, to, code); r.files == job.files && r.artifacts == job.artifacts
  {
  }

  lemma MovedKeepsFiles(job: Job, to: JobState)
    ensures Moved(job, to).Some? ==> Moved(job, to).value.files == job.files && Moved(job, to).value.artifacts == job.artifacts
  {
  }

  /** Every way to end a job whose truth is withheld brings the truth back. */
  lemma EndingsRestore(env: Env, job: Job, out: Output, to: JobState, code: Code)
    requires job.files == AllFiles(env, out) - {Truth}
    ensures Terminated(Restored(env, job, out), to, code).files == AllFiles(env, out)
    ensures Unwound(env, job, out, code).files == AllFiles(env, out)
    ensures CancelledAfterWithholding(env, job, out, code).files == AllFiles(env, out)
  {
    hide Terminated, Moved;
    var back := Restored(env, job, out);
    assert back.files == AllFiles(env, out);
    TerminatedKeepsFiles(back, to, code);
    TerminatedKeepsFiles(back, Failed, code);
    TerminatedKeepsFiles(back, Failed, IllegalTransitionThrown);
    MovedKeepsFiles(job, Cancelling);
    if Moved(job, Cancelling).Some? {
      var moved := Restored(env, Moved(job, Cancelling).value, out);
      assert moved.files == AllFiles(env, out);
      TerminatedKeepsFiles(moved, Cancelled, code);
    }
  }

  /** With the truth withheld, a step that exits has stored all five files. */
  lemma LateStores(env: Env, job: Job, pc: Pc, stop: bool, c: Choice)
    requires pc.Rebuild? || pc.StartReceiver? || pc.AbandonStart? || pc.Poll? || pc.Polled? || pc.Observe? || pc.Conclude?
    requires job.files == AllFiles(env, pc.out) - {Truth} && WorkJob(env, job, pc, stop, c).1.Exit?
    ensures WorkJob(env, job, pc, stop, c).0.files == AllFiles(env, pc.out)
  {
    forall x: Job, to: JobState, code: Code | x.files == AllFiles(env, pc.out) - {Truth}
      ensures Terminated(Restored(env, x, pc.out), to, code).files == AllFiles(env, pc.out)
      ensures Unwound(env, x, pc.out, code).files == AllFiles(env, pc.out)
      ensures CancelledAfterWithholding(env, x, pc.out, code).files == AllFiles(env, pc.out)
    {
      EndingsRestore(env, x, pc.out, to, code);
    }
    hide Terminated, Unwound, CancelledAfterWithholding, Restored, AllFiles, Moved;
  }

  lemma FaultStores(env: Env, job: Job, out: Output, c: Choice)
    requires job.artifacts.None? && c.fault.Some? && FaultInCommit(env, job, out, c).artifacts.Some?
    ensures FaultInCommit(env, job, out, c).files == AllFiles(env, out)
  {
    hide Terminated, AllFiles, Digests;
    var code, held := Thrown(c.fault.value), Withheld(env, job, out).(artifacts := Some(Digests(env, out) - {Manifest}));
    TerminatedKeepsFiles(job, Failed, code);
    TerminatedKeepsFiles(job.(files := AllFiles(env, out)), Failed, code);
    TerminatedKeepsFiles(Restored(env, job.(files := AllFiles(env, out) - {Truth}), out), Failed, code);
    EndingsRestore(env, held, out, Failed, code);
  }

  lemma CommitStores(env: Env, job: Job, out: Output, stop: bool, c: Choice)
    requires job.artifacts.None? && WorkJob(env, job, Commit(out), stop, c).1.Exit?
    requires WorkJob(env, job, Commit(out), stop, c).0.artifacts.Some?
    ensures WorkJob(env, job, Commit(out), stop, c).0.files == AllFiles(env, out)
  {
    hide Terminated, Moved, AllFiles, Digests, FaultInCommit, Unwound, CancelledAfterWithholding;
    if c.fault.Some? {
      FaultStores(env, job, out, c);
    } else {
      var held := Withheld(env, job, out);
      var ready := held.(generation := Succeeded);
      EndingsRestore(env, held, out, TimedOut, JobTimeout);
      EndingsRestore(env, held, out, Cancelled, CancelledBeforeReplay);
      EndingsRestore(env, ready, out, Failed, IllegalTransitionThrown);
      MovedKeepsFiles(ready, Generated);
      if Moved(ready, Generated).Some? { EndingsRestore(env, Moved(ready, Generated).value, out, Failed, IllegalTransitionThrown); }
    }
  }

  lemma EarlyStoresNothing(env: Env, job: Job, pc: Pc, stop: bool, c: Choice)
    requires (pc.Begin? || pc.Generate? || pc.Write?) && job.artifacts.None?
    ensures WorkJob(env, job, pc, stop, c).0.artifacts.None?
  {
  }

  /** A worker step that ends a job with recorded digests leaves all five files. */
  lemma WorkStores(env: Env, job: Job, pc: Pc, stop: bool, down: bool, c: Choice)
    requires WorkerInv(env, job, pc, down) && (stop ==> down) && !IsTerminal(job.state)
    requires var r := WorkJob(env, job, pc, stop, c).0; IsTerminal(r.state) && r.artifacts.Some?
    ensures OutOf(pc).Some? && WorkJob(env, job, pc, stop, c).0.files == AllFiles(env, OutOf(pc).value)
  {
    hide WorkJob, Sound, CancelVisible, AllFiles, Digests;
    WorkKeepsJob(env, job, pc, stop, down, c);
    NeverBeginsAgain(env, job, pc, stop, c);
    OnlyExitRests(env, WorkJob(env, job, pc, stop, c).0, WorkJob(env, job, pc, stop, c).1, down);
    assert !pc.Exit?;
    if pc.Begin? || pc.Generate? || pc.Write? { EarlyStoresNothing(env, job, pc, stop, c); }
    else if pc.Commit? { CommitStores(env, job, pc.out, stop, c); }
    else { LateStores(env, job, pc, stop, c); }
  }

  lemma OnlyExitRests(env: Env, job: Job, pc: Pc, down: bool)
    requires WorkerInv(env, job, pc, down) && IsTerminal(job.state) && !pc.Begin?
    ensures pc.Exit?
  {
    hide Sound, IsWithheld;
  }

  lemma NeverBeginsAgain(env: Env, job: Job, pc: Pc, stop: bool, c: Choice)
    ensures !WorkJob(env, job, pc, stop, c).1.Begin?
  {
    hide Moved, Terminated;
  }

  /** A step that brings a job with recorded digests to rest is the worker's, with an output in hand. */
  lemma EndedRecord(env: Env, s: State, e: Event, s': State, j: JobId)
    requires Inv(env, s) && WellFormed(s) && Next(env, s, e, s') && IsLive(s.table, j)
    requires j in s'.table && IsTerminal(s'.table[j].state) && s'.table[j].artifacts.Some?
    ensures e.Work? && IsActive(s, j) && OutOf(s.worker.pc).Some? && s'.table[j].files == AllFiles(env, OutOf(s.worker.pc).value)
  {
    hide Inv, SubmitStep, CancelStep, ShutdownStep, WorkStep, ResetStep, PopStep, StopStep, WorkJob, WellFormed, AllFiles, WorkerInv;
    match e
    case Cancel(x) => CancelStoresNothing(env, s, x, j);
    case Shutdown => ShutdownStoresNothing(env, s, j);
    case Work(c) =>
      if IsActive(s, j) {
        if s.worker.pc.Exit? { ExitIsAtRest(env, s); } else {
          WorkerStep(env, s, c);
          WorkStores(env, s.table[j], s.worker.pc, s.stopRequested, s.shuttingDown, c);
        }
      } else {
        OthersUntouched(env, s, c, j);
      }
    case _ => OtherEnds(env, s, e, s', j);
  }

  lemma QueuedStoresNothing(env: Env, s: State, j: JobId)
    requires Inv(env, s) && j in s.table && s.table[j].state == Queued
    ensures s.table[j].artifacts.None?
  {
    hide Sound, Budget, EntriesResolve, Tiled;
    if j in s.queue { assert Pristine(s.table[j]); }
  }

  lemma CancelStoresNothing(env: Env, s: State, x: JobId, j: JobId)
    requires Inv(env, s) && IsLive(s.table, j)
    ensures var s' := CancelStep(s, x).0; j in s'.table && (IsTerminal(s'.table[j].state) ==> s'.table[j].artifacts.None?)
  {
    hide Inv, Terminated;
    CancelEnds(env, s, x, j);
    if x == j && j in s.jobs && s.table[j].state == Queued {
      QueuedStoresNothing(env, s, j);
      TerminatedKeepsFiles(s.table[j].(cancelRequested := true), Cancelled, CancelledBeforeGeneration);
    }
  }

  lemma ShutdownStoresNothing(env: Env, s: State, j: JobId)
    requires Inv(env, s) && IsLive(s.table, j)
    ensures var s' := ShutdownStep(s).0; j in s'.table && (IsTerminal(s'.table[j].state) ==> s'.table[j].artifacts.None?)
  {
    hide Inv, Terminated, ShutdownStep;
    ShutdownEnds(env, s, j);
    if !s.shuttingDown && j in s.queue {
      QueuedState(env, s, j);
      QueuedStoresNothing(env, s, j);
      ShutdownRecord(env, s, j);
      TerminatedKeepsFiles(s.table[j].(cancelRequested := true), Cancelled, ApplicationShutdown);
    }
  }

  /** A job at rest with recorded digests, and so every completed job, holds exactly the recording and
      the four documents that the generator returned to it, each under its own name. */
  lemma {:induction false} RestedStoresWhatWasGenerated(env: Env, run: seq<State>, events: seq<Event>, i: nat, j: JobId)
    requires IsRun(env, run, events) && i < |run| && j in run[i].table
    requires IsTerminal(run[i].table[j].state) && run[i].table[j].artifacts.Some?
    ensures |run| == |events| + 1
    ensures exists g: nat, out: Output :: g < i && Generates(run, events, g, j, out) && Stores(env, run[i].table[j].files, out)
  {
    hide Inv, Next, WellFormed, Generates, Stores;
    RunLength(env, run, events);
    assert i > 0;
    hide IsRun;
    TakesStep(env, run, events, i - 1);
    RunInvariant(env, run, events, i - 1);
    var s := run[i - 1];
    if j !in s.table {
      JobAdmission.NewRecord(env, s, events[i - 1], run[i], j);
    } else if IsTerminal(s.table[j].state) {
      TerminalIsForever(env, run, events, i - 1, i, j);
      RestedStoresWhatWasGenerated(env, run, events, i - 1, j);
    } else {
      EndedRecord(env, s, events[i - 1], run[i], j);
      OutputWasGenerated(env, run, events, i - 1);
      AllFilesStore(env, OutOf(s.worker.pc).value);
    }
  }

  // ---- Progress ------------------------------------------------------------------------------------------------------

  function Ahead(pc: Pc): nat {
    match pc
    case Begin => 11 case Generate => 10 case Write(_) => 9 case Commit(_) => 8 case Rebuild(_) => 7
    case StartReceiver(_) => 6 case AbandonStart(_) => 5 case Poll(_) => 5 case Polled(_, _) => 4 case Observe(_) => 3
    case Conclude(_, _, _) => 2 case Exit => 1
  }

  /** The receiver has neither finished nor been cancelled, and the deadline has not passed. */
  predicate KeepsPolling(pc: Pc, c: Choice) { pc.Polled? && c.fault.None? && !pc.sawCancel && !c.expired && !c.finished }

  /** Every worker step brings the job nearer to its end, except a round of polling; after the end the
      worker is free. */
  lemma WorkerGetsOn(env: Env, run: seq<State>, events: seq<Event>, i: nat)
    requires IsRun(env, run, events) && i < |events| && events[i].Work? && run[i].worker.Busy?
    ensures |run| == |events| + 1
    ensures var w, w' := run[i].worker, run[i + 1].worker;
            if w.pc.Exit? then w'.Idle?
            else && w'.Busy? && w'.job == w.job
                 && if KeepsPolling(w.pc, events[i].choice) then w'.pc == Poll(w.pc.out) else Ahead(w'.pc) < Ahead(w.pc)
  {
    hide Inv, IsRun, WorkJob, WellFormed, Ahead;
    RunLength(env, run, events);
    StepOfRun(env, run, events, i);
    if !run[i].worker.pc.Exit? {
      WorkerStep(env, run[i], events[i].choice);
      PcGetsOn(env, run[i].table[run[i].worker.job], run[i].worker.pc, run[i].stopRequested, events[i].choice);
    }
  }

  lemma PcGetsOn(env: Env, job: Job, pc: Pc, stop: bool, c: Choice)
    requires !pc.Exit?
    ensures var pc' := WorkJob(env, job, pc, stop, c).1;
            if KeepsPolling(pc, c) then pc' == Poll(pc.out) else Ahead(pc') < Ahead(pc)
  {
    hide Moved, Terminated;
  }
}
