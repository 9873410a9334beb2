/** The truth file and the receiver: how long the one stays away while the other executes. */
module JobReceiver {
  import opened Prelude
  import opened JobModel
  import opened JobRuns
  import opened JobSafety
  import opened JobTheorems

  /** What only the receiver's runtime decides in one step: whether a start that then threw had
      launched the receiver, whether a requested stop returned in time, and whether the receiver
      ended by itself before the step. */
  datatype Fate = Fate(launched: bool, stopped: bool, ended: bool)

  /** The points of `Process` between a successful start and the end of the polling loop. */
  predicate Watching(pc: Pc) { pc.AbandonStart? || pc.Poll? || pc.Polled? }

  predicate Launches(pc: Pc, c: Choice, f: Fate) {
    pc.StartReceiver? && if c.fault.Some? then f.launched else !c.refused
  }

  /** The step asks the receiver to stop. */
  predicate AsksToStop(pc: Pc, c: Choice) {
    c.fault.None? && (pc.AbandonStart? || (pc.Polled? && (pc.sawCancel || c.expired)))
  }

  predicate SeesEnd(pc: Pc, c: Choice) { pc.Polled? && c.fault.None? && !pc.sawCancel && !c.expired && c.finished }

  /** The step ends the job although it leaves a receiver that may still execute: an exception after
      the start, or a stop that timed out. */
  predicate Leaves(pc: Pc, c: Choice, f: Fate) {
    || (Launches(pc, c, f) && c.fault.Some?)
    || ((pc.AbandonStart? || pc.Polled?) && c.fault.Some?)
    || (AsksToStop(pc, c) && !f.stopped)
  }

  /** The job whose receiver executes after a step. */
  function After(before: Option<JobId>, s: State, e: Event, f: Fate): Option<JobId> {
    var now := if f.ended then None else before;
    if !e.Work? || s.worker.Idle? then now
    else if Launches(s.worker.pc, e.choice, f) then Some(s.worker.job)
    else if now == Some(s.worker.job) && (SeesEnd(s.worker.pc, e.choice) || (AsksToStop(s.worker.pc, e.choice) && f.stopped))
    then None
    else now
  }

  function Executing(run: seq<State>, events: seq<Event>, fates: seq<Fate>, i: nat): Option<JobId>
    requires |run| == |events| + 1 && |fates| == |events| && i < |run|
  {
    if i == 0 then None else After(Executing(run, events, fates, i - 1), run[i - 1], events[i - 1], fates[i - 1])
  }

  /** A run of the controller beside a runtime that never executes two receivers at once. */
  ghost predicate IsReceiverRun(env: Env, run: seq<State>, events: seq<Event>, fates: seq<Fate>) {
    && IsRun(env, run, events) && |run| == |events| + 1 && |fates| == |events|
    && forall i :: 0 <= i < |events| ==> OneAtATime(Executing(run, events, fates, i), run[i], events[i], fates[i])
  }

  predicate OneAtATime(before: Option<JobId>, s: State, e: Event, f: Fate) {
    e.Work? && s.worker.Busy? && Launches(s.worker.pc, e.choice, f) ==> before.None? || f.ended
  }

  /** Step `k` ended job `j` and left its receiver executing. */
  ghost predicate LeftBehind(run: seq<State>, events: seq<Event>, fates: seq<Fate>, k: nat, j: JobId)
    requires |run| == |events| + 1 && |fates| == |events| && k < |events|
  {
    && events[k].Work? && run[k].worker.Busy? && run[k].worker.job == j
    && Leaves(run[k].worker.pc, events[k].choice, fates[k]) && Executing(run, events, fates, k + 1) == Some(j)
  }

  // ---- One worker step -------------------------------------------------------------------------------------------

  lemma LeavesRestores(env: Env, job: Job, pc: Pc, stop: bool, down: bool, c: Choice, f: Fate)
    requires WorkerInv(env, job, pc, down) && Leaves(pc, c, f)
    ensures var (job', pc') := WorkJob(env, job, pc, stop, c); pc' == Exit && IsTerminal(job'.state) && Truth in job'.files
  {
    hide Sound, CancelVisible;
  }

  lemma WatchesOn(env: Env, job: Job, pc: Pc, stop: bool, down: bool, c: Choice, f: Fate)
    requires WorkerInv(env, job, pc, down) && (stop ==> down)
    requires (Watching(pc) && !Leaves(pc, c, f) && !SeesEnd(pc, c) && !AsksToStop(pc, c))
             || (Launches(pc, c, f) && !Leaves(pc, c, f))
    ensures Watching(WorkJob(env, job, pc, stop, c).1)
  {
    hide Sound;
  }

  lemma WithheldWhileWatching(env: Env, s: State)
    requires Inv(env, s) && s.worker.Busy? && (Watching(s.worker.pc) || s.worker.pc.StartReceiver?)
    ensures s.worker.job in s.table && Truth !in s.table[s.worker.job].files && !IsTerminal(s.table[s.worker.job].state)
  {
    hide Sound, Budget, EntriesResolve, Tiled;
  }

  // ---- Whole runs ------------------------------------------------------------------------------------------------

  predicate WatchedAt(s: State, j: JobId) { s.worker.Busy? && s.worker.job == j && Watching(s.worker.pc) }

  ghost predicate Abandoned(run: seq<State>, events: seq<Event>, fates: seq<Fate>, i: nat, j: JobId)
    requires |run| == |events| + 1 && |fates| == |events| && i < |run|
  {
    exists k :: 0 <= k < i && LeftBehind(run, events, fates, k, j)
  }

  /** Where the job of an executing receiver stands: watched by the worker, or left behind. */
  ghost predicate Placed(run: seq<State>, events: seq<Event>, fates: seq<Fate>, i: nat, j: JobId)
    requires |run| == |events| + 1 && |fates| == |events| && i < |run|
  {
    && j in run[i].table
    && if WatchedAt(run[i], j) then !Abandoned(run, events, fates, i, j)
       else IsTerminal(run[i].table[j].state) && Truth in run[i].table[j].files && Abandoned(run, events, fates, i, j)
  }

  lemma StepOfRun(env: Env, run: seq<State>, events: seq<Event>, i: nat)
    requires IsRun(env, run, events) && i < |events|
    ensures |run| == |events| + 1 && Inv(env, run[i]) && Inv(env, run[i + 1]) && WellFormed(run[i])
    ensures events[i].Work? ==> run[i + 1] == WorkStep(env, run[i], events[i].choice)
    ensures !events[i].Work? && run[i].worker.Busy? ==> run[i + 1].worker == run[i].worker
  {
    hide Inv;
    RunInvariant(env, run, events, i);
    RunInvariant(env, run, events, i + 1);
    assert Next(env, run[i], events[i], run[i + 1]);
    hide IsRun;
    OthersKeepWorker(env, run[i], events[i], run[i + 1]);
  }

  lemma OthersKeepWorker(env: Env, s: State, e: Event, s': State)
    requires WellFormed(s) && Next(env, s, e, s')
    ensures !e.Work? && s.worker.Busy? ==> s'.worker == s.worker
  {
    hide WorkStep, Moved, Terminated, ShutdownJob, Unaged, TrimArtifacts, TrimJobs, IdempotencyTrimmed, Admission;
  }

  /** The step of the worker, on its own job. */
  lemma WorkerStep(env: Env, s: State, c: Choice)
    requires Inv(env, s) && s.worker.Busy? && !s.worker.pc.Exit?
    ensures WellFormed(s) && s.worker.job in s.table
    ensures WorkerInv(env, s.table[s.worker.job], s.worker.pc, s.shuttingDown) && (s.stopRequested ==> s.shuttingDown)
    ensures var (job, pc) := WorkJob(env, s.table[s.worker.job], s.worker.pc, s.stopRequested, c);
            var s' := WorkStep(env, s, c);
            s'.worker == Busy(s.worker.job, pc) && s.worker.job in s'.table && s'.table[s.worker.job] == job
  {
    WorkerOf(env, s);
    hide WorkJob, WorkerInv, Roles, Budget, EntriesResolve, Tiled;
  }

  /** A job that was left behind is at rest from then on. */
  lemma LeftBehindRests(env: Env, run: seq<State>, events: seq<Event>, fates: seq<Fate>, k: nat, i: nat, j: JobId)
    requires IsReceiverRun(env, run, events, fates) && k < i < |run| && LeftBehind(run, events, fates, k, j)
    ensures j in run[i].table && IsTerminal(run[i].table[j].state) && Truth in run[i].table[j].files
  {
    hide Inv, WorkJob, Executing, WorkStep, WorkerInv;
    StepOfRun(env, run, events, k);
    WorkerStep(env, run[k], events[k].choice);
    LeavesRestores(env, run[k].table[j], run[k].worker.pc, run[k].stopRequested, run[k].shuttingDown, events[k].choice, fates[k]);
    TerminalIsForever(env, run, events, k + 1, i, j);
  }

  /** A worker step on the executing receiver's own job, from its start on. */
  lemma WorkedPlaced(env: Env, run: seq<State>, events: seq<Event>, fates: seq<Fate>, i: nat, j: JobId)
    requires IsReceiverRun(env, run, events, fates) && 0 < i < |run| && Executing(run, events, fates, i) == Some(j)
    requires var s := run[i - 1]; var e := events[i - 1];
             && e.Work? && s.worker.Busy? && s.worker.job == j
             && (Launches(s.worker.pc, e.choice, fates[i - 1]) || Watching(s.worker.pc))
    ensures Placed(run, events, fates, i, j)
  {
    hide Inv, WorkJob, WorkStep, WorkerInv, IsRun;
    var s, e, f := run[i - 1], events[i - 1], fates[i - 1];
    StepOfRun(env, run, events, i - 1);
    WorkerStep(env, s, e.choice);
    WithheldWhileWatching(env, s);
    if Leaves(s.worker.pc, e.choice, f) {
      assert LeftBehind(run, events, fates, i - 1, j);
      LeavesRestores(env, s.table[j], s.worker.pc, s.stopRequested, s.shuttingDown, e.choice, f);
    } else {
      WatchesOn(env, s.table[j], s.worker.pc, s.stopRequested, s.shuttingDown, e.choice, f);
      NotYetAbandoned(env, run, events, fates, i, j);
    }
  }

  /** Any other step. */
  lemma UnworkedPlaced(env: Env, run: seq<State>, events: seq<Event>, fates: seq<Fate>, i: nat, j: JobId)
    requires IsReceiverRun(env, run, events, fates) && 0 < i < |run| && Placed(run, events, fates, i - 1, j)
    requires var s := run[i - 1]; var e := events[i - 1];
             !(e.Work? && s.worker.Busy? && s.worker.job == j && (Launches(s.worker.pc, e.choice, fates[i - 1]) || Watching(s.worker.pc)))
    ensures Placed(run, events, fates, i, j)
  {
    hide Inv, WorkStep, IsRun, Executing;
    StepOfRun(env, run, events, i - 1);
    if WatchedAt(run[i - 1], j) {
      WithheldWhileWatching(env, run[i - 1]);
      NotYetAbandoned(env, run, events, fates, i, j);
      RunEvolves(env, run, events, i - 1, i);
    } else {
      var k :| 0 <= k < i - 1 && LeftBehind(run, events, fates, k, j);
      LeftBehindRests(env, run, events, fates, k, i, j);
      if WatchedAt(run[i], j) { WithheldWhileWatching(env, run[i]); }
    }
  }

  lemma {:induction false} ReceiverPlaced(env: Env, run: seq<State>, events: seq<Event>, fates: seq<Fate>, i: nat, j: JobId)
    requires IsReceiverRun(env, run, events, fates) && i < |run| && Executing(run, events, fates, i) == Some(j)
    ensures Placed(run, events, fates, i, j)
  {
    hide IsRun, Placed;
    var s, e := run[i - 1], events[i - 1];
    if e.Work? && s.worker.Busy? && s.worker.job == j && (Launches(s.worker.pc, e.choice, fates[i - 1]) || Watching(s.worker.pc)) {
      WorkedPlaced(env, run, events, fates, i, j);
    } else {
      ReceiverPlaced(env, run, events, fates, i - 1, j);
      UnworkedPlaced(env, run, events, fates, i, j);
    }
  }

  /** A live job has not been left behind, nor has this step left it. */
  lemma NotYetAbandoned(env: Env, run: seq<State>, events: seq<Event>, fates: seq<Fate>, i: nat, j: JobId)
    requires IsReceiverRun(env, run, events, fates) && 0 < i < |run|
    requires j in run[i - 1].table && !IsTerminal(run[i - 1].table[j].state) && !LeftBehind(run, events, fates, i - 1, j)
    ensures !Abandoned(run, events, fates, i, j)
  {
    hide IsRun, LeftBehind;
    forall k | 0 <= k < i ensures !LeftBehind(run, events, fates, k, j) {
      if k < i - 1 && LeftBehind(run, events, fates, k, j) { LeftBehindRests(env, run, events, fates, k, i - 1, j); }
    }
  }

  /** While a receiver executes, its truth file is absent if and only if no step has ended the job
      and left the receiver executing: by an exception after the start, or by a stop that timed
      out. */
  lemma TruthIsAbsentWhileExecutingIff(env: Env, run: seq<State>, events: seq<Event>, fates: seq<Fate>, i: nat, j: JobId)
    requires IsReceiverRun(env, run, events, fates) && i < |run| && Executing(run, events, fates, i) == Some(j)
    ensures j in run[i].table
    ensures Truth !in run[i].table[j].files <==> forall k :: 0 <= k < i ==> !LeftBehind(run, events, fates, k, j)
  {
    hide Inv, IsRun, LeftBehind, Executing;
    ReceiverPlaced(env, run, events, fates, i, j);
    if WatchedAt(run[i], j) {
      RunInvariant(env, run, events, i);
      WithheldWhileWatching(env, run[i]);
    }
  }

  /** Every worker step that calls `Start` does so with the truth file absent, whether the start is
      refused, succeeds or throws; it stays absent unless the job ends in that step. */
  lemma ReceiverStartsWithoutTruth(env: Env, run: seq<State>, events: seq<Event>, i: nat)
    requires IsRun(env, run, events) && i < |events| && events[i].Work? && run[i].worker.Busy? && run[i].worker.pc.StartReceiver?
    ensures var j := run[i].worker.job;
            && j in run[i].table && Truth !in run[i].table[j].files
            && run[i + 1].worker.Busy? && run[i + 1].worker.job == j && j in run[i + 1].table
            && (run[i + 1].worker.pc.Exit? <==> IsTerminal(run[i + 1].table[j].state))
            && (!run[i + 1].worker.pc.Exit? ==> Truth !in run[i + 1].table[j].files)
  {
    hide Inv, IsRun, WorkStep, WorkerInv;
    StepOfRun(env, run, events, i);
    WithheldWhileWatching(env, run[i]);
    WorkerStep(env, run[i], events[i].choice);
    var s, c := run[i], events[i].choice;
    var quiet := Fate(false, false, false);
    if Launches(s.worker.pc, c, quiet) && c.fault.None? {
      WatchesOn(env, s.table[s.worker.job], s.worker.pc, s.stopRequested, s.shuttingDown, c, quiet);
      WithheldWhileWatching(env, run[i + 1]);
    } else {
      StartEndsJob(env, s.table[s.worker.job], s.worker.pc, s.stopRequested, s.shuttingDown, c);
    }
  }

  lemma StartEndsJob(env: Env, job: Job, pc: Pc, stop: bool, down: bool, c: Choice)
    requires WorkerInv(env, job, pc, down) && pc.StartReceiver? && (c.fault.Some? || c.refused)
    ensures WorkJob(env, job, pc, stop, c).1 == Exit && IsTerminal(WorkJob(env, job, pc, stop, c).0.state)
  {
    hide Sound;
  }
}
