/** The generation report of a job follows from the states it went through. */
module JobReports {
  import opened Prelude
  import opened JobModel
  import opened JobRuns
  import opened JobSafety
  import opened JobTheorems
  import opened JobReceiver
  import opened JobOutcomes
  import JobAdmission

  /** The generator was called if the job was ever `generating`; its success is reported if the job was
      ever `generated`; otherwise a rested job reports its own end, or that there was no generation. */
  ghost predicate Told(job: Job) {
    && (job.generatorInvoked <==> Generating in job.history)
    && (IsTerminal(job.state) ==> job.code.Some?)
    && job.generation ==
       if Generated in job.history then Succeeded
       else if !IsTerminal(job.state) then Pending
       else if Generating in job.history then Reported(job.state, job.code.value)
       else Unavailable(job.code.value)
  }

  lemma TerminatedTells(job: Job, to: JobState, code: Code)
    requires Told(job) && IsTerminal(to)
    requires !IsTerminal(job.state) ==> IsLegalTransition(job.state, if job.cancelRequested then Cancelled else to)
    ensures Told(Terminated(job, to, code))
  {
    var r := Terminated(job, to, code);
    if !IsTerminal(job.state) {
      assert r.history == job.history + [r.state];
      assert forall x :: x in r.history <==> x in job.history || x == r.state;
    }
  }

  lemma MovedTells(job: Job, to: JobState)
    requires Told(job) && Moved(job, to).Some? && !IsTerminal(to) && !IsTerminal(job.state) && to != Generating && to != Generated
    ensures Told(Moved(job, to).value)
  {
    assert forall x :: x in job.history + [to] <==> x in job.history || x == to;
  }

  lemma BeginTells(job: Job)
    requires Told(job) && job.state == Queued
    ensures Moved(job, Generating).Some? && Told(Moved(job, Generating).value.(generatorInvoked := true))
  {
    assert forall x :: x in job.history + [Generating] <==> x in job.history || x == Generating;
  }

  lemma GeneratedTells(job: Job)
    requires Told(job) && job.state == Generating
    ensures Moved(job.(generation := Succeeded), Generated).Some? && Told(Moved(job.(generation := Succeeded), Generated).value)
  {
    assert forall x :: x in job.history + [Generated] <==> x in job.history || x == Generated;
  }

  /** Files and flags play no part. */
  lemma DiskDoesNotMatter(job: Job, other: Job)
    requires Told(job) && other == job.(files := other.files, artifacts := other.artifacts, cancelRequested := other.cancelRequested,
                                        replayInvoked := other.replayInvoked)
    ensures Told(other)
  {
  }

  lemma EarlyTells(env: Env, job: Job, pc: Pc, stop: bool, down: bool, c: Choice)
    requires WorkerInv(env, job, pc, down) && (stop ==> down) && (pc.Begin? || pc.Generate? || pc.Write?) && Told(job)
    ensures Told(WorkJob(env, job, pc, stop, c).0)
  {
    hide Sound, Terminated, Told;
    if pc.Begin? {
      if job.cancelRequested { TerminatedTells(job, Cancelled, CancelledBeforeGeneration); } else { BeginTells(job); }
    } else if c.fault.Some? {
      TerminatedTells(job, Failed, Thrown(c.fault.value));
    } else if job.cancelRequested || stop {
      TerminatedTells(job, Cancelled, if pc.Generate? then CancelledDuringGeneration else CancelledDuringArtifactWrite);
    } else if c.expired {
      TerminatedTells(job, TimedOut, JobTimeout);
    }
  }

  lemma CommitTells(env: Env, job: Job, out: Output, stop: bool, down: bool, c: Choice)
    requires WorkerInv(env, job, Commit(out), down) && (stop ==> down) && Told(job)
    ensures Told(WorkJob(env, job, Commit(out), stop, c).0)
  {
    hide Sound, Terminated, Told, AllFiles, Digests;
    var held := Withheld(env, job, out);
    DiskDoesNotMatter(job, held);
    if c.fault.Some? {
      var thrown, all := Thrown(c.fault.value), AllFiles(env, out);
      var recorded := Restored(env, held.(artifacts := Some(Digests(env, out) - {Manifest})), out);
      var back := Restored(env, job.(files := all - {Truth}), out);
      DiskDoesNotMatter(job, job.(files := all));
      DiskDoesNotMatter(job, back);
      DiskDoesNotMatter(job, recorded);
      TerminatedTells(job, Failed, thrown);
      TerminatedTells(job.(files := all), Failed, thrown);
      TerminatedTells(back, Failed, thrown);
      TerminatedTells(recorded, Failed, thrown);
    } else if job.cancelRequested || stop {
      MovedTells(held, Cancelling);
      var moved := Moved(held, Cancelling).value;
      DiskDoesNotMatter(moved, Restored(env, moved, out));
      TerminatedTells(Restored(env, moved, out), Cancelled, CancelledBeforeReplay);
    } else if c.expired {
      DiskDoesNotMatter(held, Restored(env, held, out));
      TerminatedTells(Restored(env, held, out), TimedOut, JobTimeout);
    } else {
      GeneratedTells(held);
      MovedTells(Moved(held.(generation := Succeeded), Generated).value, ReplayPending);
    }
  }

  lemma StartTells(env: Env, job: Job, pc: Pc, stop: bool, down: bool, c: Choice)
    requires WorkerInv(env, job, pc, down) && (stop ==> down) && Told(job)
    requires pc.Rebuild? || pc.StartReceiver? || pc.AbandonStart?
    ensures Told(WorkJob(env, job, pc, stop, c).0)
  {
    hide Sound, Terminated, IsWithheld, Told;
    var back := Restored(env, job, pc.out);
    DiskDoesNotMatter(job, back);
    if c.fault.Some? {
      TerminatedTells(back, Failed, Thrown(c.fault.value));
    } else if pc.AbandonStart? {
      TerminatedTells(back, Cancelled, CancelledDuringReceiverStart);
    } else if c.refused {
      TerminatedTells(back, Failed, if pc.Rebuild? then ReceiverBuildFailed else ReceiverStartFailed);
    } else if pc.Rebuild? && (job.cancelRequested || stop) {
      MovedTells(job, Cancelling);
      var moved := Moved(job, Cancelling).value;
      DiskDoesNotMatter(moved, Restored(env, moved, pc.out));
      TerminatedTells(Restored(env, moved, pc.out), Cancelled, CancelledBeforeReceiverStart);
    } else if pc.Rebuild? && c.expired {
      TerminatedTells(back, TimedOut, JobTimeout);
    } else if pc.StartReceiver? {
      DiskDoesNotMatter(job, job.(replayInvoked := true));
      MovedTells(job.(replayInvoked := true), if job.cancelRequested || stop then Cancelling else Running);
    }
  }

  lemma ReplayTells(env: Env, job: Job, pc: Pc, stop: bool, down: bool, c: Choice)
    requires WorkerInv(env, job, pc, down) && (stop ==> down) && Told(job)
    requires pc.Poll? || pc.Polled? || pc.Observe? || pc.Conclude?
    ensures Told(WorkJob(env, job, pc, stop, c).0)
  {
    hide Sound, Terminated, IsWithheld, Told;
    var back := Restored(env, job, pc.out);
    DiskDoesNotMatter(job, back);
    if pc.Poll? {
    } else if c.fault.Some? {
      TerminatedTells(back, Failed, Thrown(c.fault.value));
    } else if pc.Polled? && pc.sawCancel {
      TerminatedTells(back, Cancelled, CancelledDuringReplay);
    } else if pc.Polled? && c.expired {
      TerminatedTells(back, TimedOut, JobTimeout);
    } else if pc.Conclude? {
      TerminatedTells(back, Failed, ReceiverExecutionFailed);
      TerminatedTells(back, Failed, MissingReceiverMessage);
      TerminatedTells(back, Completed, JobCompleted);
    }
  }

  lemma WorkTells(env: Env, job: Job, pc: Pc, stop: bool, down: bool, c: Choice)
    requires WorkerInv(env, job, pc, down) && (stop ==> down) && Told(job) && !pc.Exit?
    ensures Told(WorkJob(env, job, pc, stop, c).0)
  {
    hide WorkerInv, WorkJob, Told;
    if pc.Begin? || pc.Generate? || pc.Write? { EarlyTells(env, job, pc, stop, down, c); }
    else if pc.Commit? { CommitTells(env, job, pc.out, stop, down, c); }
    else if pc.Rebuild? || pc.StartReceiver? || pc.AbandonStart? { StartTells(env, job, pc, stop, down, c); }
    else { ReplayTells(env, job, pc, stop, down, c); }
  }

  lemma CancelTells(env: Env, s: State, x: JobId, j: JobId)
    requires Inv(env, s) && j in s.table && Told(s.table[j])
    ensures var s' := CancelStep(s, x).0; j in s'.table && Told(s'.table[j])
  {
    hide Inv, Told, Terminated, Moved;
    if x == j && j in s.jobs && IsLive(s.table, j) {
      var flagged := s.table[j].(cancelRequested := true);
      if s.table[j].state != Queued { CanBeCancelled(env, s, j); }
      DiskDoesNotMatter(s.table[j], flagged);
      if flagged.state == Queued { TerminatedTells(flagged, Cancelled, CancelledBeforeGeneration); }
      else { MovedTells(flagged, Cancelling); }
    }
  }

  lemma CanBeCancelled(env: Env, s: State, j: JobId)
    requires Inv(env, s) && j in s.jobs && IsLive(s.table, j) && s.table[j].state != Queued
    ensures Moved(s.table[j].(cancelRequested := true), Cancelling).Some?
  {
    hide Inv, Evolves, Sound;
    CancelKeepsJob(env, s, j);
  }

  lemma ShutdownTells(env: Env, s: State, j: JobId)
    requires Inv(env, s) && j in s.table && Told(s.table[j])
    ensures var s' := ShutdownStep(s).0; j in s'.table && Told(s'.table[j])
  {
    hide Inv, Told, Terminated, ShutdownStep, Moved;
    if s.shuttingDown {
      ShutdownOnce(env, s);
    } else {
      if j in s.queue { QueuedState(env, s, j); }
      ShutdownRecord(env, s, j);
      var flagged := s.table[j].(cancelRequested := true);
      DiskDoesNotMatter(s.table[j], flagged);
      if j in s.queue { TerminatedTells(flagged, Cancelled, ApplicationShutdown); }
      else if IsActive(s, j) && !IsTerminal(flagged.state) && Moved(flagged, Cancelling).Some? { MovedTells(flagged, Cancelling); }
    }
  }

  lemma EventTells(env: Env, s: State, e: Event, s': State, j: JobId)
    requires Inv(env, s) && WellFormed(s) && Next(env, s, e, s') && j in s'.table && (j in s.table ==> Told(s.table[j]))
    ensures Told(s'.table[j])
  {
    hide Inv, SubmitStep, CancelStep, ShutdownStep, WorkStep, ResetStep, PopStep, StopStep, WorkJob, WellFormed, Told, WorkerInv;
    if j !in s.table {
      JobAdmission.NewRecord(env, s, e, s', j);
      NewIsTold(e.key, e.request, s.cursor, e.now);
    } else {
      match e
      case Cancel(x) => CancelTells(env, s, x, j);
      case Shutdown => ShutdownTells(env, s, j);
      case Work(c) =>
        if IsActive(s, j) && !s.worker.pc.Exit? {
          WorkerStep(env, s, c);
          WorkTells(env, s.table[j], s.worker.pc, s.stopRequested, s.shuttingDown, c);
        } else {
          OthersOrExit(env, s, c, j);
        }
      case Submit(key, request, scenario, cutoff, now) =>
        var reply: Reply :| SubmitStep(s, key, request, scenario, cutoff, now, s', reply);
        SubmitLeavesRecords(env, s, key, request, scenario, cutoff, now, s', reply, j);
      case _ => RestLeaves(s, e);
    }
  }

  lemma RestLeaves(s: State, e: Event)
    ensures ResetStep(s).0.table == s.table && StopStep(s).table == s.table && PopStep(s).table == s.table
  {
  }

  lemma OthersOrExit(env: Env, s: State, c: Choice, j: JobId)
    requires WellFormed(s) && j in s.table && (!IsActive(s, j) || s.worker.pc.Exit?)
    ensures j in WorkStep(env, s, c).table && WorkStep(env, s, c).table[j] == s.table[j]
  {
    hide WorkJob;
  }

  lemma NewIsTold(key: Key, request: Request, cursor: nat, now: int)
    ensures Told(NewJob(key, request, cursor, now))
  {
  }

  /** Over every run, each record's report is the one its history calls for. */
  lemma {:induction false} ReportFollowsHistory(env: Env, run: seq<State>, events: seq<Event>, i: nat, j: JobId)
    requires IsRun(env, run, events) && i < |run| && j in run[i].table
    ensures Told(run[i].table[j])
  {
    hide Inv, Next, WellFormed, Told;
    RunLength(env, run, events);
    assert i > 0;
    hide IsRun;
    TakesStep(env, run, events, i - 1);
    RunInvariant(env, run, events, i - 1);
    if j in run[i - 1].table { ReportFollowsHistory(env, run, events, i - 1, j); }
    EventTells(env, run[i - 1], events[i - 1], run[i], j);
  }
}
