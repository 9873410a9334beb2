/** Every interleaving of the job controller: the invariant each step keeps, and what follows
    for whole runs. */
module JobRuns {
  import opened Prelude
  import opened JobModel

  datatype Event =
    | Submit(key: Key, request: Request, scenario: Scenario, cutoff: int, now: int)
    | Cancel(job: JobId)
    | Reset
    | Shutdown
    | RequestStop
    | Pop
    | Work(choice: Choice)

  ghost predicate Next(env: Env, s: State, e: Event, s': State)
    requires WellFormed(s)
  {
    match e
    case Submit(key, request, scenario, cutoff, now) =>
      exists reply: Reply :: SubmitStep(s, key, request, scenario, cutoff, now, s', reply)
    case Cancel(j) => s' == CancelStep(s, j).0
    case Reset => s' == ResetStep(s).0
    case Shutdown => s' == ShutdownStep(s).0
    case RequestStop => s' == StopStep(s)
    case Pop => s' == PopStep(s)
    case Work(c) => s' == WorkStep(env, s, c)
  }

  /** The state the constructor leaves behind: only artifacts of earlier runs, within quota. */
  ghost predicate Init(s: State) {
    && s.table == map[] && s.jobs == [] && s.queue == [] && s.idempotency == map[] && s.ledger == []
    && s.cursor == 0 && s.worker == Idle && !s.shuttingDown && !s.stopRequested
    && s.retainedBytes == SumBytes(s.retained) <= RETENTION_QUOTA && |s.retained| <= MAX_JOBS
  }

  ghost predicate IsRun(env: Env, run: seq<State>, events: seq<Event>) {
    && |run| == |events| + 1
    && Init(run[0])
    && forall i :: 0 <= i < |events| ==> WellFormed(run[i]) && Next(env, run[i], events[i], run[i + 1])
  }

  // ---- One job ----------------------------------------------------------------------------------

  ghost predicate LegalPath(h: seq<JobState>) {
    && h != [] && h[0] == Queued
    && forall i :: 0 <= i < |h| - 1 ==> IsLegalTransition(h[i], h[i + 1])
  }

  /** Every recorded digest is the digest of the file on disk. */
  ghost predicate FilesMatchRecord(env: Env, job: Job) {
    job.artifacts.Some? ==>
      forall f <- job.artifacts.value :: f in job.files && env.hash(job.files[f]) == job.artifacts.value[f]
  }

  ghost predicate Sound(env: Env, job: Job) {
    && LegalPath(job.history) && job.history[|job.history| - 1] == job.state
    && (job.code.Some? <==> IsTerminal(job.state))
    && job.code != Some(IllegalStateTransition) && job.code != Some(IllegalTransitionThrown)
    && (job.replayInvoked ==> job.generatorInvoked)
    && (IsTerminal(job.state) ==> FilesMatchRecord(env, job))
    && (job.state == Completed ==> job.artifacts.Some? && job.artifacts.value.Keys == ALL_NAMES && job.replayInvoked)
  }

  ghost predicate Pristine(job: Job) {
    job == NewJob(job.digest, job.request, job.cursor, job.created)
  }

  /** The truth file is absent and everything else is on disk as recorded. */
  ghost predicate IsWithheld(env: Env, job: Job, out: Output) {
    job.files == AllFiles(env, out) - {Truth} && job.artifacts == Some(Digests(env, out))
  }

  /** A job whose cancel is pending is `cancelling`; the one exception is a job popped but not yet
      begun when `Shutdown` flags it. */
  ghost predicate CancelVisible(job: Job, pc: Pc, down: bool) {
    job.cancelRequested && !IsTerminal(job.state) ==>
      job.state == Cancelling || (pc.Begin? && job.state == Queued && down)
  }

  ghost predicate AtPc(env: Env, job: Job, pc: Pc) {
    match pc
    case Begin => Pristine(job.(cancelRequested := false)) ||
                  (IsTerminal(job.state) && job.cancelRequested && !job.generatorInvoked)
    case Generate => job.generatorInvoked && InPhase(job, Generating) && job.artifacts.None? && !job.replayInvoked
    case Write(_) => job.generatorInvoked && InPhase(job, Generating) && job.artifacts.None? && !job.replayInvoked
    case Commit(_) => job.generatorInvoked && InPhase(job, Generating) && job.artifacts.None? && !job.replayInvoked
    case Rebuild(out) => job.generatorInvoked && InPhase(job, ReplayPending) && IsWithheld(env, job, out)
    case StartReceiver(out) => job.generatorInvoked && InPhase(job, ReplayPending) && IsWithheld(env, job, out)
    case AbandonStart(out) => job.replayInvoked && job.cancelRequested && job.state == Cancelling && IsWithheld(env, job, out)
    case Poll(out) => job.replayInvoked && InPhase(job, Running) && IsWithheld(env, job, out)
    case Polled(out, saw) => job.replayInvoked && InPhase(job, Running) && IsWithheld(env, job, out) &&
                             (saw ==> job.cancelRequested)
    case Observe(out) => job.replayInvoked && InPhase(job, Running) && IsWithheld(env, job, out)
    case Conclude(out, _, _) => job.replayInvoked && InPhase(job, Running) && IsWithheld(env, job, out)
    case Exit => IsTerminal(job.state)
  }

  ghost predicate InPhase(job: Job, phase: JobState) {
    job.state == phase || (job.state == Cancelling && job.cancelRequested)
  }

  ghost predicate WorkerInv(env: Env, job: Job, pc: Pc, down: bool) {
    && Sound(env, job) && AtPc(env, job, pc) && CancelVisible(job, pc, down) && (down ==> job.cancelRequested)
  }

  /** What no step of anyone undoes, for one job. */
  ghost predicate Evolves(a: Job, b: Job) {
    && a.history <= b.history
    && (a.cancelRequested ==> b.cancelRequested)
    && (IsTerminal(a.state) ==> b == a.(cancelRequested := b.cancelRequested))
    && (a.cancelRequested && IsTerminal(b.state) && !IsTerminal(a.state) ==> b.state == Cancelled)
    && (b.state == Queued ==> a.state == Queued)
    && (b.generatorInvoked && !a.generatorInvoked ==> a.state == Queued && !a.cancelRequested)
    && (a.digest, a.request, a.cursor, a.created) == (b.digest, b.request, b.cursor, b.created)
  }

  lemma TerminatedKeepsSound(env: Env, job: Job, to: JobState, code: Code)
    requires Sound(env, job) && IsTerminal(to) && to != AbandonedOnRestart
    requires code != IllegalStateTransition && code != IllegalTransitionThrown
    requires IsTerminal(job.state) ||
             IsLegalTransition(job.state, if job.cancelRequested then Cancelled else to)
    requires !IsTerminal(job.state) ==> FilesMatchRecord(env, job)
    requires to == Completed && !IsTerminal(job.state) && !job.cancelRequested ==>
               job.artifacts.Some? && job.artifacts.value.Keys == ALL_NAMES && job.replayInvoked
    ensures var r := Terminated(job, to, code);
            Sound(env, r) && IsTerminal(r.state) && Evolves(job, r)
  {
    var r := Terminated(job, to, code);
    if !IsTerminal(job.state) {
      PathExtends(job.history, r.state);
    }
  }

  lemma PathExtends(h: seq<JobState>, to: JobState)
    requires LegalPath(h) && IsLegalTransition(h[|h| - 1], to)
    ensures LegalPath(h + [to])
  {
    var g := h + [to];
    forall i | 0 <= i < |g| - 1 ensures IsLegalTransition(g[i], g[i + 1]) {
      if i < |h| - 1 { assert g[i] == h[i] && g[i + 1] == h[i + 1]; }
    }
  }

  lemma RestoredMatches(env: Env, job: Job, out: Output)
    requires job.files == AllFiles(env, out) - {Truth}
    requires job.artifacts.Some? ==> job.artifacts.value.Keys <= ALL_NAMES
    requires job.artifacts.Some? ==> forall f <- job.artifacts.value :: job.artifacts.value[f] == Digests(env, out)[f]
    ensures FilesMatchRecord(env, Restored(env, job, out))
    ensures Restored(env, job, out).files == AllFiles(env, out)
  {
  }

  lemma MovedKeepsSound(env: Env, job: Job, to: JobState)
    requires Sound(env, job) && !IsTerminal(to) && !IsTerminal(job.state)
    requires job.state == to || IsLegalTransition(job.state, to)
    ensures Moved(job, to).Some? && Sound(env, Moved(job, to).value) && Evolves(job, Moved(job, to).value)
  {
    if job.state != to { PathExtends(job.history, to); }
  }

  /** One worker step keeps the worker invariant, whatever the environment chooses. */
  lemma WorkKeepsJob(env: Env, job: Job, pc: Pc, stop: bool, down: bool, c: Choice)
    requires WorkerInv(env, job, pc, down) && (stop ==> down)
    ensures var (job', pc') := WorkJob(env, job, pc, stop, c);
            WorkerInv(env, job', pc', down) && Evolves(job, job')
  {
    match pc
    case Begin => BeginKeeps(env, job, stop, down, c);
    case Generate => EarlyKeeps(env, job, pc, stop, down, c);
    case Write(_) => EarlyKeeps(env, job, pc, stop, down, c);
    case Commit(out) => CommitKeeps(env, job, out, stop, down, c);
    case Rebuild(out) => RebuildKeeps(env, job, out, stop, down, c);
    case StartReceiver(out) => StartKeeps(env, job, out, stop, down, c);
    case AbandonStart(out) => AbandonKeeps(env, job, out, stop, down, c);
    case Poll(out) =>
    case Polled(out, saw) => PolledKeeps(env, job, out, saw, stop, down, c);
    case Observe(out) => ObserveKeeps(env, job, out, stop, down, c);
    case Conclude(out, completed, accepted) => ConcludeKeeps(env, job, out, completed, accepted, stop, down, c);
    case Exit =>
  }

  lemma BeginKeeps(env: Env, job: Job, stop: bool, down: bool, c: Choice)
    requires WorkerInv(env, job, Begin, down) && (stop ==> down)
    ensures var (job', pc') := WorkJob(env, job, Begin, stop, c);
            WorkerInv(env, job', pc', down) && Evolves(job, job')
  {
    if job.cancelRequested {
      TerminatedKeepsSound(env, job, Cancelled, CancelledBeforeGeneration);
    } else {
      MovedKeepsSound(env, job, Generating);
    }
  }

  lemma EarlyKeeps(env: Env, job: Job, pc: Pc, stop: bool, down: bool, c: Choice)
    requires (pc.Generate? || pc.Write?) && WorkerInv(env, job, pc, down) && (stop ==> down)
    ensures var (job', pc') := WorkJob(env, job, pc, stop, c);
            WorkerInv(env, job', pc', down) && Evolves(job, job')
  {
    if c.fault.Some? {
      TerminatedKeepsSound(env, job, Failed, Thrown(c.fault.value));
    } else if job.cancelRequested || stop {
      TerminatedKeepsSound(env, job, Cancelled,
        if pc.Generate? then CancelledDuringGeneration else CancelledDuringArtifactWrite);
    } else if c.expired {
      TerminatedKeepsSound(env, job, TimedOut, JobTimeout);
    }
  }

  /** Restoring the truth file and ending the job. */
  lemma EndsRestored(env: Env, job: Job, out: Output, to: JobState, code: Code, down: bool)
    requires Sound(env, job) && job.files == AllFiles(env, out) - {Truth} && !IsTerminal(job.state)
    requires job.artifacts.Some? ==> job.artifacts.value.Keys <= ALL_NAMES
    requires job.artifacts.Some? ==> forall f <- job.artifacts.value :: job.artifacts.value[f] == Digests(env, out)[f]
    requires IsTerminal(to) && to != AbandonedOnRestart && (down ==> job.cancelRequested)
    requires code != IllegalStateTransition && code != IllegalTransitionThrown
    requires IsLegalTransition(job.state, if job.cancelRequested then Cancelled else to)
    requires to == Completed && !job.cancelRequested ==>
               job.artifacts.Some? && job.artifacts.value.Keys == ALL_NAMES && job.replayInvoked
    ensures var r := Terminated(Restored(env, job, out), to, code);
            WorkerInv(env, r, Exit, down) && Evolves(job, r) && r.files == AllFiles(env, out)
  {
    RestoredMatches(env, job, out);
    TerminatedKeepsSound(env, Restored(env, job, out), to, code);
  }

  lemma CommitKeeps(env: Env, job: Job, out: Output, stop: bool, down: bool, c: Choice)
    requires WorkerInv(env, job, Commit(out), down) && (stop ==> down)
    ensures var (job', pc') := WorkJob(env, job, Commit(out), stop, c);
            WorkerInv(env, job', pc', down) && Evolves(job, job')
  {
    if c.fault.Some? {
      FaultInCommitKeeps(env, job, out, down, c);
    } else {
      AfterCommitKeeps(env, job, out, stop, down, c);
    }
  }

  /** What is on disk matters only once a job is at rest. */
  lemma SoundWhateverIsOnDisk(env: Env, job: Job, files: map<FileName, Bytes>, artifacts: Option<map<FileName, Digest>>)
    requires Sound(env, job) && !IsTerminal(job.state)
    ensures Sound(env, job.(files := files, artifacts := artifacts))
  {
  }

  lemma FaultInCommitKeeps(env: Env, job: Job, out: Output, down: bool, c: Choice)
    requires c.fault.Some? && WorkerInv(env, job, Commit(out), down)
    ensures WorkerInv(env, FaultInCommit(env, job, out, c), Exit, down)
    ensures Evolves(job, FaultInCommit(env, job, out, c))
  {
    hide Sound, Content, Terminated;
    var code := Thrown(c.fault.value);
    var all := AllFiles(env, out);
    match c.point
    case BeforeCommit => TerminatedKeepsSound(env, job, Failed, code);
    case AfterCommit =>
      SoundWhateverIsOnDisk(env, job, all, None);
      TerminatedKeepsSound(env, job.(files := all), Failed, code);
    case AfterWithholding =>
      SoundWhateverIsOnDisk(env, job, all - {Truth}, None);
      EndsRestored(env, job.(files := all - {Truth}), out, Failed, code, down);
    case AfterRecording =>
      SoundWhateverIsOnDisk(env, job, all - {Truth}, Some(Digests(env, out) - {Manifest}));
      EndsRestored(env, Withheld(env, job, out).(artifacts := Some(Digests(env, out) - {Manifest})), out, Failed, code, down);
  }

  lemma SoundWhenGenerated(env: Env, job: Job)
    requires Sound(env, job)
    ensures Sound(env, job.(generation := Succeeded))
  {
  }

  lemma AfterCommitKeeps(env: Env, job: Job, out: Output, stop: bool, down: bool, c: Choice)
    requires WorkerInv(env, job, Commit(out), down) && (stop ==> down)
    ensures var (job', pc') := AfterCommitStep(env, job, out, stop, c);
            WorkerInv(env, job', pc', down) && Evolves(job, job')
  {
    hide Sound, Content, Terminated;
    var held := Withheld(env, job, out);
    SoundWhateverIsOnDisk(env, job, held.files, held.artifacts);
    if job.cancelRequested || stop {
      EndsRestored(env, held, out, Cancelled, CancelledBeforeReplay, down);
    } else if c.expired {
      EndsRestored(env, held, out, TimedOut, JobTimeout, down);
    } else {
      var ready := held.(generation := Succeeded);
      SoundWhenGenerated(env, held);
      MovedKeepsSound(env, ready, Generated);
      MovedKeepsSound(env, Moved(ready, Generated).value, ReplayPending);
    }
  }

  /** Before the receiver runs, with the guard alive. */
  lemma RebuildKeeps(env: Env, job: Job, out: Output, stop: bool, down: bool, c: Choice)
    requires WorkerInv(env, job, Rebuild(out), down) && (stop ==> down)
    ensures var (job', pc') := WorkJob(env, job, Rebuild(out), stop, c);
            WorkerInv(env, job', pc', down) && Evolves(job, job')
  {
    hide LegalPath, Content;
    if c.fault.Some? {
      EndsRestored(env, job, out, Failed, Thrown(c.fault.value), down);
    } else if c.refused {
      EndsRestored(env, job, out, Failed, ReceiverBuildFailed, down);
    } else if job.cancelRequested || stop {
      EndsRestored(env, job, out, Cancelled, CancelledBeforeReceiverStart, down);
    } else if c.expired {
      EndsRestored(env, job, out, TimedOut, JobTimeout, down);
    }
  }

  lemma StartKeeps(env: Env, job: Job, out: Output, stop: bool, down: bool, c: Choice)
    requires WorkerInv(env, job, StartReceiver(out), down) && (stop ==> down)
    ensures var (job', pc') := WorkJob(env, job, StartReceiver(out), stop, c);
            WorkerInv(env, job', pc', down) && Evolves(job, job')
  {
    hide LegalPath, Content;
    if c.fault.Some? {
      EndsRestored(env, job, out, Failed, Thrown(c.fault.value), down);
    } else if c.refused {
      EndsRestored(env, job, out, Failed, ReceiverStartFailed, down);
    } else {
      MovedKeepsSound(env, job.(replayInvoked := true), if job.cancelRequested || stop then Cancelling else Running);
    }
  }

  /** Once the receiver was started. */
  lemma AbandonKeeps(env: Env, job: Job, out: Output, stop: bool, down: bool, c: Choice)
    requires WorkerInv(env, job, AbandonStart(out), down) && (stop ==> down)
    ensures var (job', pc') := WorkJob(env, job, AbandonStart(out), stop, c);
            WorkerInv(env, job', pc', down) && Evolves(job, job')
  {
    hide LegalPath, Content;
    if c.fault.Some? {
      EndsRestored(env, job, out, Failed, Thrown(c.fault.value), down);
    } else {
      EndsRestored(env, job, out, Cancelled, CancelledDuringReceiverStart, down);
    }
  }

  lemma PolledKeeps(env: Env, job: Job, out: Output, saw: bool, stop: bool, down: bool, c: Choice)
    requires WorkerInv(env, job, Polled(out, saw), down) && (stop ==> down)
    ensures var (job', pc') := WorkJob(env, job, Polled(out, saw), stop, c);
            WorkerInv(env, job', pc', down) && Evolves(job, job')
  {
    hide LegalPath, Content;
    if c.fault.Some? {
      EndsRestored(env, job, out, Failed, Thrown(c.fault.value), down);
    } else if saw {
      EndsRestored(env, job, out, Cancelled, CancelledDuringReplay, down);
    } else if c.expired {
      EndsRestored(env, job, out, TimedOut, JobTimeout, down);
    }
  }

  lemma ObserveKeeps(env: Env, job: Job, out: Output, stop: bool, down: bool, c: Choice)
    requires WorkerInv(env, job, Observe(out), down) && (stop ==> down)
    ensures var (job', pc') := WorkJob(env, job, Observe(out), stop, c);
            WorkerInv(env, job', pc', down) && Evolves(job, job')
  {
    hide LegalPath, Content;
    if c.fault.Some? { EndsRestored(env, job, out, Failed, Thrown(c.fault.value), down); }
  }

  lemma ConcludeKeeps(env: Env, job: Job, out: Output, completed: bool, accepted: bool, stop: bool, down: bool, c: Choice)
    requires WorkerInv(env, job, Conclude(out, completed, accepted), down) && (stop ==> down)
    ensures var (job', pc') := WorkJob(env, job, Conclude(out, completed, accepted), stop, c);
            WorkerInv(env, job', pc', down) && Evolves(job, job')
  {
    hide LegalPath, Content;
    if c.fault.Some? {
      EndsRestored(env, job, out, Failed, Thrown(c.fault.value), down);
    } else {
      var (to, code) := ConcludedCode(completed, accepted);
      EndsRestored(env, job, out, to, code, down);
    }
  }
}
