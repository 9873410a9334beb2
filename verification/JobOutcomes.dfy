/** How a job ends: which state and code each cause gives it, over every run. */
module JobOutcomes {
  import opened Prelude
  import opened JobModel
  import opened JobRuns
  import opened JobSafety
  import opened JobTheorems
  import opened JobReceiver
  import JobAdmission

  // ---- Causes, one worker step at a time -------------------------------------------------------------------

  /** The step can throw, and did. */
  predicate Throws(pc: Pc, c: Choice, fault: Fault) { c.fault == Some(fault) && !pc.Begin? && !pc.Poll? && !pc.Exit? }

  predicate Refuses(pc: Pc, c: Choice) { c.fault.None? && (pc.Rebuild? || pc.StartReceiver?) && c.refused }

  /** The deadline is checked here and has passed. */
  predicate IsLate(pc: Pc, c: Choice) {
    c.fault.None? && c.expired && (pc.Generate? || pc.Write? || pc.Commit? || (pc.Rebuild? && !c.refused) || pc.Polled?)
  }

  predicate Concludes(pc: Pc, c: Choice) { pc.Conclude? && c.fault.None? }

  /** The end that cancellation brings at this point. */
  predicate Withdraws(pc: Pc, c: Choice, code: Code) {
    match code
    case CancelledBeforeGeneration => pc.Begin?
    case CancelledDuringGeneration => pc.Generate? && c.fault.None?
    case CancelledDuringArtifactWrite => pc.Write? && c.fault.None?
    case CancelledBeforeReplay => pc.Commit? && c.fault.None?
    case CancelledBeforeReceiverStart => pc.Rebuild? && c.fault.None? && !c.refused
    case CancelledDuringReceiverStart => pc.AbandonStart? && c.fault.None?
    case CancelledDuringReplay => pc.Polled? && c.fault.None? && pc.sawCancel
    case TerminalPrecedence =>
      (exists f :: Throws(pc, c, f)) || Refuses(pc, c) || (pc.Polled? && IsLate(pc, c) && !pc.sawCancel) || Concludes(pc, c)
    case _ => false
  }

  /** The end of an uncancelled job at this point, given what the receiver reported. */
  predicate Settles(pc: Pc, c: Choice, completed: bool, accepted: bool, state: JobState, code: Code) {
    match code
    case JobCompleted => state == Completed && Concludes(pc, c) && completed && accepted
    case ReceiverExecutionFailed => state == Failed && Concludes(pc, c) && !completed
    case MissingReceiverMessage => state == Failed && Concludes(pc, c) && completed && !accepted
    case ReceiverBuildFailed => state == Failed && Refuses(pc, c) && pc.Rebuild?
    case ReceiverStartFailed => state == Failed && Refuses(pc, c) && pc.StartReceiver?
    case JobTimeout => state == TimedOut && IsLate(pc, c)
    case Thrown(f) => state == Failed && Throws(pc, c, f)
    case _ => false
  }

  predicate RestsAs(job: Job, state: JobState, code: Code) { IsTerminal(job.state) && job.state == state && job.code == Some(code) }

  predicate StepEnds(job: Job, pc: Pc, c: Choice, completed: bool, accepted: bool, state: JobState, code: Code) {
    if job.cancelRequested then state == Cancelled && Withdraws(pc, c, code)
    else Settles(pc, c, completed, accepted, state, code)
  }

  // ---- One worker step, computed ----------------------------------------------------------------------------------

  type End = (JobState, Code)

  /** What ends the job at this point; nothing if it goes on. */
  function Due(pc: Pc, c: Choice): Option<End> {
    if pc.Begin? || pc.Poll? || pc.Exit? then None
    else if c.fault.Some? then Some((Failed, Thrown(c.fault.value)))
    else if Refuses(pc, c) then Some((Failed, if pc.Rebuild? then ReceiverBuildFailed else ReceiverStartFailed))
    else if IsLate(pc, c) then Some((TimedOut, JobTimeout))
    else if pc.Conclude? then Some(if !pc.completed then (Failed, ReceiverExecutionFailed)
                                   else if !pc.accepted then (Failed, MissingReceiverMessage) else (Completed, JobCompleted))
    else None
  }

  /** The point's own answer to a cancel it sees. */
  function Answer(pc: Pc): Option<Code> {
    match pc
    case Begin => Some(CancelledBeforeGeneration)
    case Generate => Some(CancelledDuringGeneration)
    case Write(_) => Some(CancelledDuringArtifactWrite)
    case Commit(_) => Some(CancelledBeforeReplay)
    case Rebuild(_) => Some(CancelledBeforeReceiverStart)
    case AbandonStart(_) => Some(CancelledDuringReceiverStart)
    case Polled(_, saw) => if saw then Some(CancelledDuringReplay) else None
    case _ => None
  }

  function EndOf(flagged: bool, pc: Pc, c: Choice): Option<End> {
    if !flagged then Due(pc, c)
    else if Answer(pc).Some? && (pc.Begin? || (c.fault.None? && !Refuses(pc, c))) then Some((Cancelled, Answer(pc).value))
    else if Due(pc, c).Some? then Some((Cancelled, TerminalPrecedence))
    else None
  }

  lemma DueIsSettled(pc: Pc, c: Choice, state: JobState, code: Code)
    ensures Due(pc, c) == Some((state, code)) <==>
            Settles(pc, c, pc.Conclude? && pc.completed, pc.Conclude? && pc.accepted, state, code)
  {
  }

  lemma CancelIsAnswered(pc: Pc, c: Choice, code: Code)
    ensures EndOf(true, pc, c) == Some((Cancelled, code)) <==> Withdraws(pc, c, code)
  {
    if c.fault.Some? && !pc.Begin? && !pc.Poll? && !pc.Exit? { assert Throws(pc, c, c.fault.value); }
  }

  /** `Terminal` on a live job, with cancellation precedence. */
  lemma TerminatedAs(job: Job, to: JobState, why: Code)
    requires !IsTerminal(job.state) && IsTerminal(to) && IsLegalTransition(job.state, if job.cancelRequested then Cancelled else to)
    ensures var r := Terminated(job, to, why);
            && r.state == (if job.cancelRequested then Cancelled else to)
            && r.code == Some(if job.cancelRequested && to != Cancelled then TerminalPrecedence else why)
  {
  }

  predicate EndsSo(job: Job, end: Option<End>) {
    match end
    case None => !IsTerminal(job.state)
    case Some((state, code)) => IsTerminal(state) && RestsAs(job, state, code)
  }

  lemma EarlyEnds(env: Env, job: Job, pc: Pc, stop: bool, down: bool, c: Choice)
    requires WorkerInv(env, job, pc, down) && (stop ==> down) && !IsTerminal(job.state) && (pc.Begin? || pc.Generate? || pc.Write?)
    ensures EndsSo(WorkJob(env, job, pc, stop, c).0, EndOf(job.cancelRequested, pc, c))
  {
    hide Sound, Terminated;
    if pc.Begin? {
      if job.cancelRequested { TerminatedAs(job, Cancelled, CancelledBeforeGeneration); }
    } else if c.fault.Some? {
      TerminatedAs(job, Failed, Thrown(c.fault.value));
    } else if job.cancelRequested || stop {
      TerminatedAs(job, Cancelled, if pc.Generate? then CancelledDuringGeneration else CancelledDuringArtifactWrite);
    } else if c.expired {
      TerminatedAs(job, TimedOut, JobTimeout);
    }
  }

  lemma CommitEnds(env: Env, job: Job, out: Output, stop: bool, down: bool, c: Choice)
    requires WorkerInv(env, job, Commit(out), down) && (stop ==> down) && !IsTerminal(job.state)
    ensures EndsSo(WorkJob(env, job, Commit(out), stop, c).0, EndOf(job.cancelRequested, Commit(out), c))
  {
    hide Sound, Terminated, AllFiles, Digests;
    var held := Withheld(env, job, out);
    if c.fault.Some? {
      var thrown, all := Thrown(c.fault.value), AllFiles(env, out);
      TerminatedAs(job, Failed, thrown);
      TerminatedAs(job.(files := all), Failed, thrown);
      TerminatedAs(Restored(env, job.(files := all - {Truth}), out), Failed, thrown);
      TerminatedAs(Restored(env, held.(artifacts := Some(Digests(env, out) - {Manifest})), out), Failed, thrown);
    } else if job.cancelRequested || stop {
      TerminatedAs(Restored(env, Moved(held, Cancelling).value, out), Cancelled, CancelledBeforeReplay);
    } else if c.expired {
      TerminatedAs(Restored(env, held, out), TimedOut, JobTimeout);
    }
  }

  lemma StartEnds(env: Env, job: Job, pc: Pc, stop: bool, down: bool, c: Choice)
    requires WorkerInv(env, job, pc, down) && (stop ==> down) && !IsTerminal(job.state)
    requires pc.Rebuild? || pc.StartReceiver? || pc.AbandonStart?
    ensures EndsSo(WorkJob(env, job, pc, stop, c).0, EndOf(job.cancelRequested, pc, c))
  {
    hide Sound, Terminated, IsWithheld;
    var back := Restored(env, job, pc.out);
    if c.fault.Some? {
      TerminatedAs(back, Failed, Thrown(c.fault.value));
    } else if pc.AbandonStart? {
      TerminatedAs(back, Cancelled, CancelledDuringReceiverStart);
    } else if c.refused {
      TerminatedAs(back, Failed, if pc.Rebuild? then ReceiverBuildFailed else ReceiverStartFailed);
    } else if pc.Rebuild? && (job.cancelRequested || stop) {
      TerminatedAs(Restored(env, Moved(job, Cancelling).value, pc.out), Cancelled, CancelledBeforeReceiverStart);
    } else if pc.Rebuild? && c.expired {
      TerminatedAs(back, TimedOut, JobTimeout);
    }
  }

  lemma ReplayEnds(env: Env, job: Job, pc: Pc, stop: bool, down: bool, c: Choice)
    requires WorkerInv(env, job, pc, down) && (stop ==> down) && !IsTerminal(job.state)
    requires pc.Poll? || pc.Polled? || pc.Observe? || pc.Conclude?
    ensures EndsSo(WorkJob(env, job, pc, stop, c).0, EndOf(job.cancelRequested, pc, c))
  {
    hide Sound, Terminated, IsWithheld;
    var back := Restored(env, job, pc.out);
    if pc.Poll? {
    } else if c.fault.Some? {
      TerminatedAs(back, Failed, Thrown(c.fault.value));
    } else if pc.Polled? && pc.sawCancel {
      TerminatedAs(back, Cancelled, CancelledDuringReplay);
    } else if pc.Polled? && c.expired {
      TerminatedAs(back, TimedOut, JobTimeout);
    } else if pc.Conclude? {
      TerminatedAs(back, Failed, ReceiverExecutionFailed);
      TerminatedAs(back, Failed, MissingReceiverMessage);
      TerminatedAs(back, Completed, JobCompleted);
    }
  }

  /** A worker step on a live job ends it exactly by these causes. */
  lemma WorkEnds(env: Env, job: Job, pc: Pc, stop: bool, down: bool, c: Choice, state: JobState, code: Code)
    requires WorkerInv(env, job, pc, down) && (stop ==> down) && !IsTerminal(job.state)
    ensures RestsAs(WorkJob(env, job, pc, stop, c).0, state, code) <==>
            StepEnds(job, pc, c, pc.Conclude? && pc.completed, pc.Conclude? && pc.accepted, state, code)
  {
    hide WorkerInv, WorkJob, EndOf, Withdraws, Settles, EndsSo, RestsAs, IsTerminal;
    WorkEndsSo(env, job, pc, stop, down, c);
    ThatEnd(WorkJob(env, job, pc, stop, c).0, EndOf(job.cancelRequested, pc, c), state, code);
    EndIsCaused(job.cancelRequested, pc, c, state, code);
  }

  lemma ThatEnd(job: Job, end: Option<End>, state: JobState, code: Code)
    requires EndsSo(job, end)
    ensures RestsAs(job, state, code) <==> end == Some((state, code))
  {
  }

  lemma WorkEndsSo(env: Env, job: Job, pc: Pc, stop: bool, down: bool, c: Choice)
    requires WorkerInv(env, job, pc, down) && (stop ==> down) && !IsTerminal(job.state)
    ensures EndsSo(WorkJob(env, job, pc, stop, c).0, EndOf(job.cancelRequested, pc, c))
  {
    assert !pc.Exit?;
    hide WorkerInv, WorkJob, EndOf, EndsSo;
    if pc.Begin? || pc.Generate? || pc.Write? { EarlyEnds(env, job, pc, stop, down, c); }
    else if pc.Commit? { CommitEnds(env, job, pc.out, stop, down, c); }
    else if pc.Rebuild? || pc.StartReceiver? || pc.AbandonStart? { StartEnds(env, job, pc, stop, down, c); }
    else { ReplayEnds(env, job, pc, stop, down, c); }
  }

  lemma EndIsCaused(flagged: bool, pc: Pc, c: Choice, state: JobState, code: Code)
    ensures EndOf(flagged, pc, c) == Some((state, code)) <==>
            if flagged then state == Cancelled && Withdraws(pc, c, code)
            else Settles(pc, c, pc.Conclude? && pc.completed, pc.Conclude? && pc.accepted, state, code)
  {
    hide Withdraws, Settles, Due;
    DueIsSettled(pc, c, state, code);
    CancelIsAnswered(pc, c, code);
  }

  // ---- Where the worker's knowledge comes from --------------------------------------------------------------------

  /** Step `k` is a worker step on the live job `j`. */
  ghost predicate Works(run: seq<State>, events: seq<Event>, k: nat, j: JobId)
    requires |run| == |events| + 1
  {
    k < |events| && events[k].Work? && IsActive(run[k], j) && IsLive(run[k].table, j)
  }

  /** Step `o` read the receiver's result. */
  ghost predicate Observes(run: seq<State>, events: seq<Event>, o: nat, j: JobId, completed: bool, accepted: bool)
    requires |run| == |events| + 1
  {
    && Works(run, events, o, j) && run[o].worker.pc.Observe? && events[o].choice.fault.None?
    && events[o].choice.completed == completed && events[o].choice.accepted == accepted
  }

  /** Step `g` took the generator's output. */
  ghost predicate Generates(run: seq<State>, events: seq<Event>, g: nat, j: JobId, out: Output)
    requires |run| == |events| + 1
  {
    Works(run, events, g, j) && run[g].worker.pc.Generate? && events[g].choice.fault.None? && events[g].choice.out == out
  }

  function OutOf(pc: Pc): Option<Output> { if pc.Begin? || pc.Generate? || pc.Exit? then None else Some(pc.out) }

  lemma PcStep(env: Env, job: Job, pc: Pc, stop: bool, c: Choice)
    ensures var pc' := WorkJob(env, job, pc, stop, c).1;
            && (pc'.Conclude? ==> pc.Observe? && c.fault.None?)
            && (pc.Observe? && c.fault.None? ==> pc' == Conclude(pc.out, c.completed, c.accepted))
            && (OutOf(pc').Some? ==>
                  if pc.Generate? then c.fault.None? && OutOf(pc') == Some(c.out) else OutOf(pc) == OutOf(pc'))
  {
    hide Moved, Terminated;
  }

  lemma IdleBegins(env: Env, s: State, e: Event, s': State)
    requires WellFormed(s) && Next(env, s, e, s') && s.worker.Idle?
    ensures s'.worker.Idle? || s'.worker.pc.Begin?
  {
    hide WorkJob, Moved, Terminated, ShutdownJob, Unaged, TrimArtifacts, TrimJobs, IdempotencyTrimmed, Admission;
  }

  /** The worker's point after a step, traced to the step. */
  lemma PcOfStep(env: Env, run: seq<State>, events: seq<Event>, i: nat)
    requires IsRun(env, run, events) && i < |events| && run[i + 1].worker.Busy? && !run[i + 1].worker.pc.Begin?
    ensures var s, s' := run[i], run[i + 1];
            && s.worker.Busy? && s.worker.job == s'.worker.job
            && (!events[i].Work? ==> s'.worker == s.worker)
            && (events[i].Work? ==>
                  && !s.worker.pc.Exit? && s.worker.job in s.table
                  && s'.worker.pc == WorkJob(env, s.table[s.worker.job], s.worker.pc, s.stopRequested, events[i].choice).1)
  {
    hide Inv, WorkJob, Next;
    StepOfRun(env, run, events, i);
    assert Next(env, run[i], events[i], run[i + 1]);
    if run[i].worker.Idle? { IdleBegins(env, run[i], events[i], run[i + 1]); }
    if events[i].Work? && run[i].worker.Busy? && !run[i].worker.pc.Exit? { WorkerStep(env, run[i], events[i].choice); }
  }

  lemma LiveAt(env: Env, s: State)
    requires Inv(env, s) && s.worker.Busy? && !s.worker.pc.Begin? && !s.worker.pc.Exit?
    ensures s.worker.job in s.table && !IsTerminal(s.table[s.worker.job].state)
  {
    hide Sound, IsWithheld, Budget, EntriesResolve, Tiled;
  }

  /** What the worker concludes from was observed. */
  lemma {:induction false} ConclusionWasObserved(env: Env, run: seq<State>, events: seq<Event>, i: nat)
    requires IsRun(env, run, events) && i < |run| && run[i].worker.Busy? && run[i].worker.pc.Conclude?
    ensures exists o: nat :: o < i && Observes(run, events, o, run[i].worker.job, run[i].worker.pc.completed, run[i].worker.pc.accepted)
  {
    hide Inv, WorkJob, Next, Works;
    PcOfStep(env, run, events, i - 1);
    var s := run[i - 1];
    if !events[i - 1].Work? {
      ConclusionWasObserved(env, run, events, i - 1);
    } else {
      PcStep(env, s.table[s.worker.job], s.worker.pc, s.stopRequested, events[i - 1].choice);
      RunInvariant(env, run, events, i - 1);
      LiveAt(env, s);
      IsWorking(run, events, i - 1, s.worker.job);
      assert Observes(run, events, i - 1, run[i].worker.job, run[i].worker.pc.completed, run[i].worker.pc.accepted);
    }
  }

  lemma IsWorking(run: seq<State>, events: seq<Event>, k: nat, j: JobId)
    requires |run| == |events| + 1 && k < |events| && events[k].Work? && IsActive(run[k], j) && IsLive(run[k].table, j)
    ensures Works(run, events, k, j)
  {
  }

  /** The output the worker holds was generated. */
  lemma {:induction false} OutputWasGenerated(env: Env, run: seq<State>, events: seq<Event>, i: nat)
    requires IsRun(env, run, events) && i < |run| && run[i].worker.Busy? && OutOf(run[i].worker.pc).Some?
    ensures exists g: nat :: g < i && Generates(run, events, g, run[i].worker.job, OutOf(run[i].worker.pc).value)
  {
    hide Inv, WorkJob, Next, Works;
    PcOfStep(env, run, events, i - 1);
    var s := run[i - 1];
    if events[i - 1].Work? {
      PcStep(env, s.table[s.worker.job], s.worker.pc, s.stopRequested, events[i - 1].choice);
      RunInvariant(env, run, events, i - 1);
      if s.worker.pc.Generate? {
        LiveAt(env, s);
        IsWorking(run, events, i - 1, s.worker.job);
        assert Generates(run, events, i - 1, run[i].worker.job, OutOf(run[i].worker.pc).value);
      }
    }
    if !(events[i - 1].Work? && s.worker.pc.Generate?) { OutputWasGenerated(env, run, events, i - 1); }
  }

  lemma RunLength(env: Env, run: seq<State>, events: seq<Event>)
    requires IsRun(env, run, events)
    ensures |run| == |events| + 1
  {
    hide Next;
  }

  /** The job is at rest, or the worker holds this result of its receiver. */
  ghost predicate HoldsResult(s: State, j: JobId, completed: bool, accepted: bool) {
    && j in s.table
    && (IsTerminal(s.table[j].state)
        || (IsActive(s, j) && s.worker.pc.Conclude? && s.worker.pc.completed == completed && s.worker.pc.accepted == accepted))
  }

  lemma ResultIsTaken(env: Env, run: seq<State>, events: seq<Event>, o: nat, j: JobId, completed: bool, accepted: bool)
    requires IsRun(env, run, events) && o < |events| && Observes(run, events, o, j, completed, accepted)
    ensures HoldsResult(run[o + 1], j, completed, accepted)
  {
    hide Inv, WorkJob, WorkStep, WorkerInv;
    var s := run[o];
    StepOfRun(env, run, events, o);
    hide IsRun, WellFormed;
    WorkerStep(env, s, events[o].choice);
    PcStep(env, s.table[j], s.worker.pc, s.stopRequested, events[o].choice);
  }

  lemma ResultIsKept(env: Env, run: seq<State>, events: seq<Event>, i: nat, j: JobId, completed: bool, accepted: bool)
    requires IsRun(env, run, events) && i < |events| && HoldsResult(run[i], j, completed, accepted)
    ensures i + 1 < |run| && HoldsResult(run[i + 1], j, completed, accepted)
  {
    hide IsRun, Inv, WorkJob, WorkStep, WorkerInv, WellFormed;
    RunLength(env, run, events);
    var s := run[i];
    StepOfRun(env, run, events, i);
    if IsTerminal(s.table[j].state) {
      TerminalIsForever(env, run, events, i, i + 1, j);
    } else if events[i].Work? {
      WorkerStep(env, s, events[i].choice);
      ConcludingEnds(env, s.table[j], s.worker.pc, s.stopRequested, s.shuttingDown, events[i].choice);
    } else {
      hide Evolves;
      RunEvolves(env, run, events, i, i + 1);
    }
  }

  /** And nothing else can be concluded after it: until the job rests, the worker holds that result. */
  lemma {:induction false} ObservedStays(env: Env, run: seq<State>, events: seq<Event>, o: nat, i: nat, j: JobId,
                                         completed: bool, accepted: bool)
    requires IsRun(env, run, events) && o < i < |run| && Observes(run, events, o, j, completed, accepted)
    ensures HoldsResult(run[i], j, completed, accepted)
  {
    hide IsRun, HoldsResult, Observes;
    RunLength(env, run, events);
    if o == i - 1 {
      ResultIsTaken(env, run, events, o, j, completed, accepted);
    } else {
      ObservedStays(env, run, events, o, i - 1, j, completed, accepted);
      ResultIsKept(env, run, events, i - 1, j, completed, accepted);
    }
  }

  lemma ConcludingEnds(env: Env, job: Job, pc: Pc, stop: bool, down: bool, c: Choice)
    requires WorkerInv(env, job, pc, down) && (stop ==> down) && pc.Conclude?
    ensures IsTerminal(WorkJob(env, job, pc, stop, c).0.state)
  {
    hide Terminated, WorkJob;
    WorkKeepsJob(env, job, pc, stop, down, c);
    assert WorkJob(env, job, pc, stop, c).1.Exit? by { ConcludingExits(env, job, pc, stop, c); }
  }

  lemma ConcludingExits(env: Env, job: Job, pc: Pc, stop: bool, c: Choice)
    requires pc.Conclude?
    ensures WorkJob(env, job, pc, stop, c).1.Exit?
  {
    hide Terminated;
  }

  // ---- How jobs end -------------------------------------------------------------------------------------------------

  /** Step `k` ends the live job `j` in this state with this code: a cancel or a shutdown while it
      waits, or a worker step with one of the causes above; what counts as the receiver's result is
      what an earlier step of the job observed. */
  ghost predicate EndsAt(run: seq<State>, events: seq<Event>, k: nat, j: JobId, state: JobState, code: Code)
    requires |run| == |events| + 1
  {
    && k < |events| && IsLive(run[k].table, j)
    && match events[k]
       case Cancel(x) =>
         x == j && j in run[k].jobs && run[k].table[j].state == Queued && (state, code) == (Cancelled, CancelledBeforeGeneration)
       case Shutdown => !run[k].shuttingDown && j in run[k].queue && (state, code) == (Cancelled, ApplicationShutdown)
       case Work(c) => IsActive(run[k], j) && WorkEndsAt(run, events, k, j, c, state, code)
       case _ => false
  }

  ghost predicate WorkEndsAt(run: seq<State>, events: seq<Event>, k: nat, j: JobId, c: Choice, state: JobState, code: Code)
    requires |run| == |events| + 1 && k < |events| && IsLive(run[k].table, j) && IsActive(run[k], j)
  {
    var pc := run[k].worker.pc;
    if run[k].table[j].cancelRequested then state == Cancelled && Withdraws(pc, c, code)
    else if Concludes(pc, c) then SettlesObserved(run, events, k, j, pc, c, state, code)
    else Settles(pc, c, false, false, state, code)
  }

  ghost predicate SettlesObserved(run: seq<State>, events: seq<Event>, k: nat, j: JobId, pc: Pc, c: Choice, state: JobState, code: Code)
    requires |run| == |events| + 1
  {
    exists o: nat, completed: bool, accepted: bool ::
      o < k && Observes(run, events, o, j, completed, accepted) && Settles(pc, c, completed, accepted, state, code)
  }

  lemma OneReport(env: Env, run: seq<State>, events: seq<Event>, o: nat, k: nat, j: JobId, completed: bool, accepted: bool)
    requires IsRun(env, run, events) && o < k < |run| && IsLive(run[k].table, j) && Observes(run, events, o, j, completed, accepted)
    ensures run[k].worker.Busy? && run[k].worker.pc.Conclude?
    ensures completed == run[k].worker.pc.completed && accepted == run[k].worker.pc.accepted
  {
    hide IsRun, Observes;
    ObservedStays(env, run, events, o, k, j, completed, accepted);
  }

  lemma ConclusionIsKnown(env: Env, run: seq<State>, events: seq<Event>, k: nat, j: JobId, c: Choice, state: JobState, code: Code)
    requires IsRun(env, run, events) && k < |run| && IsLive(run[k].table, j) && IsActive(run[k], j) && run[k].worker.pc.Conclude?
    ensures |run| == |events| + 1
    ensures var pc := run[k].worker.pc;
            SettlesObserved(run, events, k, j, pc, c, state, code) <==> Settles(pc, c, pc.completed, pc.accepted, state, code)
  {
    hide IsRun, Observes, Settles;
    RunLength(env, run, events);
    var pc := run[k].worker.pc;
    ConclusionWasObserved(env, run, events, k);
    forall o: nat, completed: bool, accepted: bool | o < k && Observes(run, events, o, j, completed, accepted)
      ensures completed == pc.completed && accepted == pc.accepted
    {
      OneReport(env, run, events, o, k, j, completed, accepted);
    }
  }

  lemma ReportIsKnown(env: Env, run: seq<State>, events: seq<Event>, k: nat, j: JobId, c: Choice, state: JobState, code: Code)
    requires IsRun(env, run, events) && k < |events| && IsLive(run[k].table, j) && IsActive(run[k], j)
    ensures |run| == |events| + 1
    ensures WorkEndsAt(run, events, k, j, c, state, code) <==>
            EndOf(run[k].table[j].cancelRequested, run[k].worker.pc, c) == Some((state, code))
  {
    hide IsRun, Withdraws, Settles, SettlesObserved, EndOf;
    RunLength(env, run, events);
    var pc := run[k].worker.pc;
    EndIsCaused(run[k].table[j].cancelRequested, pc, c, state, code);
    if Concludes(pc, c) { ConclusionIsKnown(env, run, events, k, j, c, state, code); }
    else { ReportDoesNotMatter(pc, c, pc.Conclude? && pc.completed, pc.Conclude? && pc.accepted, state, code); }
  }

  lemma ReportDoesNotMatter(pc: Pc, c: Choice, completed: bool, accepted: bool, state: JobState, code: Code)
    requires !Concludes(pc, c)
    ensures Settles(pc, c, completed, accepted, state, code) <==> Settles(pc, c, false, false, state, code)
  {
  }

  // ---- Steps that are not the worker's ------------------------------------------------------------------------------

  lemma CancelEnds(env: Env, s: State, x: JobId, j: JobId)
    requires Inv(env, s) && IsLive(s.table, j)
    ensures var s' := CancelStep(s, x).0;
            && j in s'.table
            && EndsSo(s'.table[j], if x == j && j in s.jobs && s.table[j].state == Queued
                                   then Some((Cancelled, CancelledBeforeGeneration)) else None)
  {
    hide Terminated, Inv;
    if x == j && j in s.jobs {
      if s.table[j].state == Queued {
        TerminatedAs(s.table[j].(cancelRequested := true), Cancelled, CancelledBeforeGeneration);
      } else {
        CancelKeepsJob(env, s, j);
      }
    }
  }

  lemma ShutdownEnds(env: Env, s: State, j: JobId)
    requires Inv(env, s) && IsLive(s.table, j)
    ensures var s' := ShutdownStep(s).0;
            && j in s'.table
            && EndsSo(s'.table[j], if !s.shuttingDown && j in s.queue then Some((Cancelled, ApplicationShutdown)) else None)
  {
    hide ShutdownStep, Inv, Terminated, AfterShutdown, EndsSo;
    if s.shuttingDown {
      ShutdownOnce(env, s);
      LiveGoesOn(s.table[j]);
    } else {
      if j in s.queue { QueuedState(env, s, j); }
      ShutdownRecord(env, s, j);
      ShutdownRecordEnds(s.table[j], j in s.queue, IsActive(s, j));
    }
  }

  lemma ShutdownOnce(env: Env, s: State)
    requires Inv(env, s) && s.shuttingDown
    ensures ShutdownStep(s).0 == s
  {
  }

  lemma ShutdownRecordEnds(job: Job, queued: bool, active: bool)
    requires !IsTerminal(job.state) && (queued ==> job.state == Queued)
    ensures EndsSo(AfterShutdown(job, queued, active), if queued then Some((Cancelled, ApplicationShutdown)) else None)
  {
    hide Terminated;
    if queued { TerminatedAs(job.(cancelRequested := true), Cancelled, ApplicationShutdown); }
  }

  lemma QueuedState(env: Env, s: State, j: JobId)
    requires Inv(env, s) && j in s.queue
    ensures s.table[j].state == Queued
  {
    hide Sound, WorkerInv, Budget, EntriesResolve, Tiled;
    assert Pristine(s.table[j]);
  }

  lemma OtherEnds(env: Env, s: State, e: Event, s': State, j: JobId)
    requires Inv(env, s) && Next(env, s, e, s') && IsLive(s.table, j) && !e.Cancel? && !e.Shutdown? && !e.Work?
    ensures j in s'.table && s'.table[j] == s.table[j]
  {
    hide Inv, SubmitStep;
    if e.Submit? {
      var reply: Reply :| SubmitStep(s, e.key, e.request, e.scenario, e.cutoff, e.now, s', reply);
      SubmitLeavesRecords(env, s, e.key, e.request, e.scenario, e.cutoff, e.now, s', reply, j);
    }
  }

  lemma WorkedEnds(env: Env, s: State, c: Choice, j: JobId)
    requires Inv(env, s) && WellFormed(s) && IsLive(s.table, j)
    ensures var s' := WorkStep(env, s, c);
            && j in s'.table
            && EndsSo(s'.table[j], if IsActive(s, j) then EndOf(s.table[j].cancelRequested, s.worker.pc, c) else None)
  {
    hide Inv, WorkJob, WorkStep, WorkerInv, WellFormed, EndOf;
    if IsActive(s, j) {
      if s.worker.pc.Exit? {
        ExitIsAtRest(env, s);
      } else {
        WorkerStep(env, s, c);
        WorkEndsSo(env, s.table[j], s.worker.pc, s.stopRequested, s.shuttingDown, c);
      }
    } else {
      OthersUntouched(env, s, c, j);
    }
  }

  lemma ExitIsAtRest(env: Env, s: State)
    requires Inv(env, s) && s.worker.Busy? && s.worker.pc.Exit?
    ensures s.worker.job in s.table && IsTerminal(s.table[s.worker.job].state)
  {
    hide Sound, Budget, EntriesResolve, Tiled;
  }

  lemma OthersUntouched(env: Env, s: State, c: Choice, j: JobId)
    requires WellFormed(s) && j in s.table && !IsActive(s, j)
    ensures j in WorkStep(env, s, c).table && WorkStep(env, s, c).table[j] == s.table[j]
  {
    hide WorkJob;
  }

  /** How an event ends a live job; nothing if it goes on. */
  ghost function EventEnd(s: State, e: Event, j: JobId): Option<End>
    requires j in s.table
  {
    match e
    case Cancel(x) =>
      if x == j && j in s.jobs && s.table[j].state == Queued then Some((Cancelled, CancelledBeforeGeneration)) else None
    case Shutdown => if !s.shuttingDown && j in s.queue then Some((Cancelled, ApplicationShutdown)) else None
    case Work(c) => if IsActive(s, j) then EndOf(s.table[j].cancelRequested, s.worker.pc, c) else None
    case _ => None
  }

  lemma EventEnds(env: Env, s: State, e: Event, s': State, j: JobId)
    requires Inv(env, s) && WellFormed(s) && Next(env, s, e, s') && IsLive(s.table, j)
    ensures j in s'.table && EndsSo(s'.table[j], EventEnd(s, e, j))
  {
    hide Inv, EndsSo, EndOf, SubmitStep, CancelStep, ShutdownStep, WorkStep, ResetStep, PopStep, StopStep, WellFormed;
    match e
    case Cancel(x) => CancelEnds(env, s, x, j);
    case Shutdown => ShutdownEnds(env, s, j);
    case Work(c) => WorkedEnds(env, s, c, j);
    case _ =>
      OtherEnds(env, s, e, s', j);
      LiveGoesOn(s.table[j]);
  }

  lemma EventEndIsCaused(env: Env, run: seq<State>, events: seq<Event>, k: nat, j: JobId, state: JobState, code: Code)
    requires IsRun(env, run, events) && k < |events| && IsLive(run[k].table, j)
    ensures |run| == |events| + 1
    ensures EventEnd(run[k], events[k], j) == Some((state, code)) <==> EndsAt(run, events, k, j, state, code)
  {
    hide IsRun, EndOf, WorkEndsAt;
    RunLength(env, run, events);
    if events[k].Work? && IsActive(run[k], j) { ReportIsKnown(env, run, events, k, j, events[k].choice, state, code); }
  }

  /** One step of a run ends a live job exactly as `EndsAt` says. */
  lemma StepEndsJob(env: Env, run: seq<State>, events: seq<Event>, k: nat, j: JobId, state: JobState, code: Code)
    requires IsRun(env, run, events) && k < |events| && IsLive(run[k].table, j)
    ensures |run| == |events| + 1 && j in run[k + 1].table
    ensures RestsAs(run[k + 1].table[j], state, code) <==> EndsAt(run, events, k, j, state, code)
  {
    hide Inv, IsRun, Next, RestsAs, EndsSo, EventEnd, EndsAt, WellFormed;
    TakesStep(env, run, events, k);
    RunInvariant(env, run, events, k);
    EventEnds(env, run[k], events[k], run[k + 1], j);
    EventEndIsCaused(env, run, events, k, j, state, code);
    ThatEnd(run[k + 1].table[j], EventEnd(run[k], events[k], j), state, code);
  }

  lemma TakesStep(env: Env, run: seq<State>, events: seq<Event>, k: nat)
    requires IsRun(env, run, events) && k < |events|
    ensures |run| == |events| + 1 && WellFormed(run[k]) && Next(env, run[k], events[k], run[k + 1])
  {
    hide Next, WellFormed;
  }

  lemma LiveGoesOn(job: Job)
    requires !IsTerminal(job.state)
    ensures EndsSo(job, None)
  {
  }

  // ---- Over whole runs ---------------------------------------------------------------------------------------------

  lemma {:induction false} RestWasCaused(env: Env, run: seq<State>, events: seq<Event>, i: nat, j: JobId, state: JobState, code: Code)
    requires IsRun(env, run, events) && i < |run| && j in run[i].table && RestsAs(run[i].table[j], state, code)
    ensures |run| == |events| + 1 && exists k: nat :: k < i && EndsAt(run, events, k, j, state, code)
  {
    hide Inv, Next, WellFormed, EndsAt;
    RunLength(env, run, events);
    assert i > 0;
    hide IsRun;
    var s := run[i - 1];
    if j !in s.table {
      TakesStep(env, run, events, i - 1);
      RunInvariant(env, run, events, i - 1);
      JobAdmission.NewRecord(env, s, events[i - 1], run[i], j);
    } else if IsTerminal(s.table[j].state) {
      TerminalIsForever(env, run, events, i - 1, i, j);
      RestWasCaused(env, run, events, i - 1, j, state, code);
    } else {
      StepEndsJob(env, run, events, i - 1, j, state, code);
    }
  }

  /** A job rests in a state with a code if and only if some step of the run ended it so. */
  lemma RestsIffEnded(env: Env, run: seq<State>, events: seq<Event>, i: nat, j: JobId, state: JobState, code: Code)
    requires IsRun(env, run, events) && i < |run| && j in run[i].table
    ensures |run| == |events| + 1
    ensures RestsAs(run[i].table[j], state, code) <==> exists k: nat :: k < i && EndsAt(run, events, k, j, state, code)
  {
    hide IsRun, EndsAt;
    RunLength(env, run, events);
    if RestsAs(run[i].table[j], state, code) { RestWasCaused(env, run, events, i, j, state, code); }
    if k: nat :| k < i && EndsAt(run, events, k, j, state, code) {
      assert IsLive(run[k].table, j) by { EndsTheLiving(run, events, k, j, state, code); }
      StepEndsJob(env, run, events, k, j, state, code);
      TerminalIsForever(env, run, events, k + 1, i, j);
    }
  }

  lemma EndsTheLiving(run: seq<State>, events: seq<Event>, k: nat, j: JobId, state: JobState, code: Code)
    requires |run| == |events| + 1 && EndsAt(run, events, k, j, state, code)
    ensures k < |events| && IsLive(run[k].table, j)
  {
    hide WorkEndsAt;
  }

  /** Step `k` concludes the uncancelled job `j`, and step `o` before it had observed this result. */
  ghost predicate ConcludesOn(run: seq<State>, events: seq<Event>, o: nat, k: nat, j: JobId, completed: bool, accepted: bool)
    requires |run| == |events| + 1
  {
    && o < k && Observes(run, events, o, j, completed, accepted)
    && Works(run, events, k, j) && run[k].worker.pc.Conclude? && events[k].choice.fault.None?
    && !run[k].table[j].cancelRequested
  }

  /** These codes come from a conclusion only. */
  lemma NotWithdrawn(run: seq<State>, events: seq<Event>, k: nat, j: JobId, state: JobState, code: Code)
    requires |run| == |events| + 1 && code in {JobCompleted, ReceiverExecutionFailed, MissingReceiverMessage}
    requires EndsAt(run, events, k, j, state, code)
    ensures Works(run, events, k, j) && !run[k].table[j].cancelRequested && Concludes(run[k].worker.pc, events[k].choice)
  {
    hide Observes, SettlesObserved;
  }

  lemma ConclusionEnds(run: seq<State>, events: seq<Event>, k: nat, j: JobId, state: JobState, code: Code)
    requires |run| == |events| + 1 && code in {JobCompleted, ReceiverExecutionFailed, MissingReceiverMessage}
    ensures EndsAt(run, events, k, j, state, code) <==>
            exists o: nat, completed: bool, accepted: bool ::
              && ConcludesOn(run, events, o, k, j, completed, accepted)
              && (state, code) == if !completed then (Failed, ReceiverExecutionFailed)
                                  else if !accepted then (Failed, MissingReceiverMessage) else (Completed, JobCompleted)
  {
    hide Observes, Withdraws, IsTerminal;
    if EndsAt(run, events, k, j, state, code) {
      NotWithdrawn(run, events, k, j, state, code);
      var o: nat, completed: bool, accepted: bool :| o < k && Observes(run, events, o, j, completed, accepted)
        && Settles(run[k].worker.pc, events[k].choice, completed, accepted, state, code);
      assert ConcludesOn(run, events, o, k, j, completed, accepted);
    }
  }

  /** Step `k` works on the live job `j`, which nobody has cancelled. */
  ghost predicate WorksFreely(run: seq<State>, events: seq<Event>, k: nat, j: JobId)
    requires |run| == |events| + 1
  {
    Works(run, events, k, j) && !run[k].table[j].cancelRequested
  }

  lemma FreeEnds(run: seq<State>, events: seq<Event>, k: nat, j: JobId, state: JobState, code: Code)
    requires |run| == |events| + 1
    requires code == JobTimeout || code == ReceiverBuildFailed || code == ReceiverStartFailed || code.Thrown?
    ensures EndsAt(run, events, k, j, state, code) <==>
            WorksFreely(run, events, k, j) && Settles(run[k].worker.pc, events[k].choice, false, false, state, code)
  {
    hide Observes;
  }

  lemma RestedHasACode(env: Env, run: seq<State>, events: seq<Event>, i: nat, j: JobId)
    requires IsRun(env, run, events) && i < |run| && j in run[i].table && IsTerminal(run[i].table[j].state)
    ensures run[i].table[j].code.Some? && RestsAs(run[i].table[j], run[i].table[j].state, run[i].table[j].code.value)
  {
    hide IsRun;
    RunInvariant(env, run, events, i);
    hide WorkerInv, Budget, EntriesResolve, Tiled;
  }

  lemma CodeOfEnd(run: seq<State>, events: seq<Event>, k: nat, j: JobId, state: JobState, code: Code)
    requires |run| == |events| + 1 && EndsAt(run, events, k, j, state, code)
    ensures state == Completed ==> code == JobCompleted
    ensures state == TimedOut ==> code == JobTimeout
    ensures state == Failed ==> code in {ReceiverExecutionFailed, MissingReceiverMessage, ReceiverBuildFailed, ReceiverStartFailed} || code.Thrown?
    ensures state == Completed || state == TimedOut || state == Failed || state == Cancelled
  {
    hide Observes;
  }

  /** The code of a rested job goes with its state. */
  lemma CodeOfRest(env: Env, run: seq<State>, events: seq<Event>, i: nat, j: JobId)
    requires IsRun(env, run, events) && i < |run| && j in run[i].table && IsTerminal(run[i].table[j].state)
    ensures var job := run[i].table[j];
            && job.code.Some?
            && (job.state == Completed ==> job.code == Some(JobCompleted)) && (job.state == TimedOut ==> job.code == Some(JobTimeout))
  {
    hide IsRun, EndsAt;
    RunLength(env, run, events);
    RestedHasACode(env, run, events, i, j);
    var job := run[i].table[j];
    RestWasCaused(env, run, events, i, j, job.state, job.code.value);
    var k: nat :| k < i && EndsAt(run, events, k, j, job.state, job.code.value);
    CodeOfEnd(run, events, k, j, job.state, job.code.value);
  }

  /** A job completes if and only if a step of it observed a completed and accepted replay and a later
      step of it concluded without an exception and without a cancel. */
  lemma CompletedIff(env: Env, run: seq<State>, events: seq<Event>, i: nat, j: JobId)
    requires IsRun(env, run, events) && i < |run| && j in run[i].table
    ensures |run| == |events| + 1
    ensures run[i].table[j].state == Completed <==>
            exists o: nat, k: nat :: k < i && ConcludesOn(run, events, o, k, j, true, true)
  {
    hide IsRun, EndsAt, ConcludesOn;
    RunLength(env, run, events);
    RestsIffEnded(env, run, events, i, j, Completed, JobCompleted);
    if run[i].table[j].state == Completed {
      CodeOfRest(env, run, events, i, j);
      var k: nat :| k < i && EndsAt(run, events, k, j, Completed, JobCompleted);
      ConclusionEnds(run, events, k, j, Completed, JobCompleted);
    }
    if o: nat, k: nat :| k < i && ConcludesOn(run, events, o, k, j, true, true) {
      ConclusionEnds(run, events, k, j, Completed, JobCompleted);
    }
  }

  /** It fails with these codes if and only if the observed replay had not completed, or had decoded
      no message. */
  lemma ReceiverFailureIff(env: Env, run: seq<State>, events: seq<Event>, i: nat, j: JobId)
    requires IsRun(env, run, events) && i < |run| && j in run[i].table
    ensures |run| == |events| + 1
    ensures RestsAs(run[i].table[j], Failed, ReceiverExecutionFailed) <==>
            exists o: nat, k: nat, accepted: bool :: k < i && ConcludesOn(run, events, o, k, j, false, accepted)
    ensures RestsAs(run[i].table[j], Failed, MissingReceiverMessage) <==>
            exists o: nat, k: nat :: k < i && ConcludesOn(run, events, o, k, j, true, false)
  {
    hide IsRun, EndsAt, ConcludesOn, RestsAs;
    RunLength(env, run, events);
    RestsIffEnded(env, run, events, i, j, Failed, ReceiverExecutionFailed);
    RestsIffEnded(env, run, events, i, j, Failed, MissingReceiverMessage);
    if k: nat :| k < i && EndsAt(run, events, k, j, Failed, ReceiverExecutionFailed) {
      ConclusionEnds(run, events, k, j, Failed, ReceiverExecutionFailed);
    }
    if k: nat :| k < i && EndsAt(run, events, k, j, Failed, MissingReceiverMessage) {
      ConclusionEnds(run, events, k, j, Failed, MissingReceiverMessage);
    }
    if o: nat, k: nat, accepted: bool :| k < i && ConcludesOn(run, events, o, k, j, false, accepted) {
      ConclusionEnds(run, events, k, j, Failed, ReceiverExecutionFailed);
    }
    if o: nat, k: nat :| k < i && ConcludesOn(run, events, o, k, j, true, false) {
      ConclusionEnds(run, events, k, j, Failed, MissingReceiverMessage);
    }
  }

  /** It times out if and only if a step of it found the deadline passed, without an exception, a
      refusal or a cancel. */
  lemma TimedOutIff(env: Env, run: seq<State>, events: seq<Event>, i: nat, j: JobId)
    requires IsRun(env, run, events) && i < |run| && j in run[i].table
    ensures |run| == |events| + 1
    ensures run[i].table[j].state == TimedOut <==>
            exists k: nat :: k < i && WorksFreely(run, events, k, j) && IsLate(run[k].worker.pc, events[k].choice)
  {
    hide IsRun, EndsAt, IsLate;
    RunLength(env, run, events);
    RestsIffEnded(env, run, events, i, j, TimedOut, JobTimeout);
    if run[i].table[j].state == TimedOut {
      CodeOfRest(env, run, events, i, j);
      var k: nat :| k < i && EndsAt(run, events, k, j, TimedOut, JobTimeout);
      FreeEnds(run, events, k, j, TimedOut, JobTimeout);
    }
    if k: nat :| k < i && WorksFreely(run, events, k, j) && IsLate(run[k].worker.pc, events[k].choice) {
      FreeEnds(run, events, k, j, TimedOut, JobTimeout);
    }
  }

  /** It fails with an exception's code if and only if a step of it threw that exception before any
      cancel, and with a refusal's code if and only if the receiver's rebuild or start was refused. */
  lemma ThrownOrRefusedIff(env: Env, run: seq<State>, events: seq<Event>, i: nat, j: JobId, fault: Fault)
    requires IsRun(env, run, events) && i < |run| && j in run[i].table
    ensures |run| == |events| + 1
    ensures RestsAs(run[i].table[j], Failed, Thrown(fault)) <==>
            exists k: nat :: k < i && WorksFreely(run, events, k, j) && Throws(run[k].worker.pc, events[k].choice, fault)
    ensures RestsAs(run[i].table[j], Failed, ReceiverBuildFailed) <==>
            exists k: nat :: k < i && WorksFreely(run, events, k, j) && run[k].worker.pc.Rebuild? && Refuses(run[k].worker.pc, events[k].choice)
    ensures RestsAs(run[i].table[j], Failed, ReceiverStartFailed) <==>
            exists k: nat :: k < i && WorksFreely(run, events, k, j) && run[k].worker.pc.StartReceiver? && Refuses(run[k].worker.pc, events[k].choice)
  {
    hide IsRun, EndsAt, RestsAs, Throws, Refuses;
    RunLength(env, run, events);
    RestsIffEnded(env, run, events, i, j, Failed, Thrown(fault));
    RestsIffEnded(env, run, events, i, j, Failed, ReceiverBuildFailed);
    RestsIffEnded(env, run, events, i, j, Failed, ReceiverStartFailed);
    forall k: nat | k < i
      ensures EndsAt(run, events, k, j, Failed, Thrown(fault)) <==>
              WorksFreely(run, events, k, j) && Throws(run[k].worker.pc, events[k].choice, fault)
      ensures EndsAt(run, events, k, j, Failed, ReceiverBuildFailed) <==>
              WorksFreely(run, events, k, j) && run[k].worker.pc.Rebuild? && Refuses(run[k].worker.pc, events[k].choice)
      ensures EndsAt(run, events, k, j, Failed, ReceiverStartFailed) <==>
              WorksFreely(run, events, k, j) && run[k].worker.pc.StartReceiver? && Refuses(run[k].worker.pc, events[k].choice)
    {
      FreeEnds(run, events, k, j, Failed, Thrown(fault));
      FreeEnds(run, events, k, j, Failed, ReceiverBuildFailed);
      FreeEnds(run, events, k, j, Failed, ReceiverStartFailed);
    }
  }
}
