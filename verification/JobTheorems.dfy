/** What the job controller guarantees over every run. */
module JobTheorems {
  import opened Prelude
  import opened JobModel
  import opened JobRuns
  import opened JobRetention
  import opened JobSafety

  lemma {:induction false} RunInvariant(env: Env, run: seq<State>, events: seq<Event>, i: nat)
    requires IsRun(env, run, events) && i < |run|
    ensures Inv(env, run[i])
  {
    hide Next, Inv;
    if i == 0 {
      InitHolds(env, run[0]);
    } else {
      RunInvariant(env, run, events, i - 1);
      assert Next(env, run[i - 1], events[i - 1], run[i]);
      NextKeeps(env, run[i - 1], events[i - 1], run[i]);
    }
  }

  lemma InitHolds(env: Env, s: State)
    requires Init(s)
    ensures Inv(env, s)
  {
  }

  lemma RunGrows(env: Env, run: seq<State>, events: seq<Event>, e: Event, s: State)
    requires IsRun(env, run, events) && WellFormed(run[|run| - 1]) && Next(env, run[|run| - 1], e, s)
    ensures IsRun(env, run + [s], events + [e])
  {
    hide Next, WellFormed, Init;
    var run', events' := run + [s], events + [e];
    forall i | 0 <= i < |events'| ensures WellFormed(run'[i]) && Next(env, run'[i], events'[i], run'[i + 1]) {
      if i < |events| { assert run'[i] == run[i] && run'[i + 1] == run[i + 1] && events'[i] == events[i]; }
    }
  }

  lemma EvolvesTransitive(a: Job, b: Job, c: Job)
    requires Evolves(a, b) && Evolves(b, c)
    ensures Evolves(a, c)
  {
  }

  lemma {:induction false} RunEvolves(env: Env, run: seq<State>, events: seq<Event>, i: nat, k: nat)
    requires IsRun(env, run, events) && i <= k < |run|
    ensures TableEvolves(run[i], run[k])
    decreases k
  {
    hide Evolves, Inv, Next;
    if i == k {
      EvolvesReflexive(run[i]);
    } else {
      RunEvolves(env, run, events, i, k - 1);
      RunInvariant(env, run, events, k - 1);
      assert Next(env, run[k - 1], events[k - 1], run[k]);
      NextKeeps(env, run[k - 1], events[k - 1], run[k]);
      forall j <- run[i].table ensures j in run[k].table && Evolves(run[i].table[j], run[k].table[j]) {
        EvolvesTransitive(run[i].table[j], run[k - 1].table[j], run[k].table[j]);
      }
    }
  }

  // ---- Lifecycle -----------------------------------------------------------------------------------

  /** Every state ever written to a job, in order, is a path of the transition table starting at
      `queued`, later runs only extend it, and neither the fallback of `Terminal` nor a throwing
      `Transition` in the worker ever ends a job. */
  lemma EveryStateChangeIsLegal(env: Env, run: seq<State>, events: seq<Event>, i: nat, k: nat, j: JobId)
    requires IsRun(env, run, events) && i <= k < |run| && j in run[i].table
    ensures j in run[k].table
    ensures LegalPath(run[k].table[j].history)
    ensures run[k].table[j].history[|run[k].table[j].history| - 1] == run[k].table[j].state
    ensures run[i].table[j].history <= run[k].table[j].history
    ensures run[k].table[j].code != Some(IllegalStateTransition)
    ensures run[k].table[j].code != Some(IllegalTransitionThrown)
  {
    hide Next;
    RunInvariant(env, run, events, k);
    RunEvolves(env, run, events, i, k);
  }

  lemma TerminalIsForever(env: Env, run: seq<State>, events: seq<Event>, i: nat, k: nat, j: JobId)
    requires IsRun(env, run, events) && i <= k < |run|
    requires j in run[i].table && IsTerminal(run[i].table[j].state)
    ensures j in run[k].table
    ensures run[k].table[j] == run[i].table[j].(cancelRequested := run[k].table[j].cancelRequested)
  {
    hide Next;
    RunEvolves(env, run, events, i, k);
  }

  /** After an accepted cancel the job is only ever `cancelling` or `cancelled`. */
  lemma AcceptedCancelWins(env: Env, run: seq<State>, events: seq<Event>, i: nat, k: nat, j: JobId)
    requires IsRun(env, run, events) && i < k < |run|
    requires events[i] == Cancel(j) && j in run[i].jobs && IsLive(run[i].table, j)
    ensures j in run[k].table && run[k].table[j].state in {Cancelling, Cancelled}
    ensures IsTerminal(run[k].table[j].state) ==> run[k].table[j].state == Cancelled
  {
    hide WorkStep, SubmitStep, ShutdownStep, Inv;
    RunInvariant(env, run, events, i);
    assert run[i + 1] == CancelStep(run[i], j).0 by { assert Next(env, run[i], events[i], run[i + 1]); }
    CancelKeepsJob(env, run[i], j);
    hide Next, CancelStep;
    RunInvariant(env, run, events, i + 1);
    RunEvolves(env, run, events, i + 1, k);
    RunInvariant(env, run, events, k);
    FlaggedStaysFlagged(env, run[k], run[i + 1].table[j], j);
  }

  /** In a reachable state, a record grown from a flagged one that had left `queued`. */
  lemma FlaggedStaysFlagged(env: Env, s: State, before: Job, j: JobId)
    requires Inv(env, s) && j in s.table && Evolves(before, s.table[j])
    requires before.cancelRequested && before.state in {Cancelling, Cancelled}
    ensures s.table[j].state in {Cancelling, Cancelled}
  {
    hide Budget, EntriesResolve, Tiled, Sound, AtPc;
    var job := s.table[j];
    if !IsTerminal(job.state) && IsActive(s, j) {
      assert CancelVisible(job, s.worker.pc, s.shuttingDown);
    }
  }

  /** A job cancelled while queued does no work, ever. */
  lemma CancelledWhileQueuedNeverRuns(env: Env, run: seq<State>, events: seq<Event>, i: nat, k: nat, j: JobId)
    requires IsRun(env, run, events) && i < k < |run|
    requires events[i] == Cancel(j) && j in run[i].jobs && j in run[i].table && run[i].table[j].state == Queued
    ensures j in run[k].table && run[k].table[j].state == Cancelled
    ensures !run[k].table[j].generatorInvoked && !run[k].table[j].replayInvoked
    ensures run[k].table[j].code == Some(CancelledBeforeGeneration)
  {
    hide WorkStep, SubmitStep, ShutdownStep, Inv;
    RunInvariant(env, run, events, i);
    assert run[i + 1] == CancelStep(run[i], j).0 by { assert Next(env, run[i], events[i], run[i + 1]); }
    hide Next;
    QueuedHasDoneNothing(env, run[i], j);
    RunEvolves(env, run, events, i + 1, k);
  }

  lemma QueuedHasDoneNothing(env: Env, s: State, j: JobId)
    requires Inv(env, s) && j in s.table && s.table[j].state == Queued
    ensures !s.table[j].generatorInvoked && !s.table[j].replayInvoked
  {
    hide Budget, EntriesResolve, Tiled;
    if j in s.queue { assert Pristine(s.table[j]); }
  }

  // ---- Shutdown ------------------------------------------------------------------------------------

  /** `Shutdown` throws exactly when the worker has popped a job it has not begun. */
  lemma ShutdownThrowsIffBetweenPopAndBegin(env: Env, s: State)
    requires Inv(env, s)
    ensures ShutdownStep(s).1 <==>
            !s.shuttingDown && s.worker.Busy? && s.table[s.worker.job].state == Queued
    ensures ShutdownStep(s).1 ==> s.worker.pc.Begin?
  {
    hide Budget, EntriesResolve, Tiled, Sound, ShutdownJob;
    if s.worker.Busy? && !s.shuttingDown { ShutdownRecordState(env, s); }
  }

  lemma ShutdownRecordState(env: Env, s: State)
    requires Inv(env, s) && s.worker.Busy?
    ensures s.worker.job !in s.queue && s.worker.job in s.table
    ensures s.table[s.worker.job].state == Queued ==> s.worker.pc.Begin?
  {
    hide Budget, EntriesResolve, Tiled, Sound;
  }

  /** Even then the job ends `cancelled` without any work at its next step. */
  lemma ThrowingShutdownStillCancels(env: Env, s: State, s1: State, c: Choice)
    requires Inv(env, s) && ShutdownStep(s) == (s1, true)
    ensures s1.worker == s.worker && s.worker.Busy? && s.worker.job in s1.table
    ensures var (job, pc) := WorkJob(env, s1.table[s.worker.job], s1.worker.pc, s1.stopRequested, c);
            job.state == Cancelled && !job.generatorInvoked && pc == Exit
  {
    hide Inv;
    ShutdownThrowsIffBetweenPopAndBegin(env, s);
    ShutdownRecordState(env, s);
    QueuedHasDoneNothing(env, s, s.worker.job);
    ShutdownRecord(env, s, s.worker.job);
  }

  /** `Shutdown` flags the active job even when it is already at rest, so the flag alone does not
      mean `cancelled`: the flagged job comes to rest `cancelled` if and only if it was not at
      rest in some other state when it was flagged. */
  lemma FlaggedByShutdownEndsCancelledIff(env: Env, run: seq<State>, events: seq<Event>, i: nat, k: nat, j: JobId)
    requires IsRun(env, run, events) && i < k < |run|
    requires events[i] == Shutdown && !run[i].shuttingDown && IsActive(run[i], j)
    requires j in run[k].table && IsTerminal(run[k].table[j].state)
    ensures run[k].table[j].cancelRequested && j in run[i].table
    ensures run[k].table[j].state == Cancelled <==>
            (!IsTerminal(run[i].table[j].state) || run[i].table[j].state == Cancelled)
  {
    hide WorkStep, SubmitStep, CancelStep, Inv, Evolves;
    RunInvariant(env, run, events, i);
    assert run[i + 1] == ShutdownStep(run[i]).0 by { assert Next(env, run[i], events[i], run[i + 1]); }
    hide Next, ShutdownStep;
    ShutdownRecordState(env, run[i]);
    WorkerOf(env, run[i]);
    ShutdownRecord(env, run[i], j);
    RunEvolves(env, run, events, i + 1, k);
    RestAfterShutdown(run[i].table[j], run[k].table[j]);
  }

  lemma RestAfterShutdown(job: Job, later: Job)
    requires Evolves(AfterShutdown(job, false, true), later) && IsTerminal(later.state)
    ensures later.cancelRequested
    ensures later.state == Cancelled <==> (!IsTerminal(job.state) || job.state == Cancelled)
  {
  }

  // ---- Retention -----------------------------------------------------------------------------------

  /** The byte counter is exact and the two budgets hold together, so eight jobs at most. */
  lemma RetentionHolds(env: Env, run: seq<State>, events: seq<Event>, i: nat)
    requires IsRun(env, run, events) && i < |run|
    ensures run[i].retainedBytes == SumBytes(run[i].retained)
    ensures run[i].retainedBytes + |run[i].jobs| * 0x400_0000 <= 0x2000_0000 && |run[i].retained| + |run[i].jobs| <= 32
    ensures |run[i].jobs| <= 8
  {
    hide Next;
    RunInvariant(env, run, events, i);
  }

  /** A new request is turned away for lack of room exactly when eight live jobs are held. */
  lemma HistoryFullIffEightLiveJobs(env: Env, s: State, key: Key, request: Request, scenario: Scenario,
                                    cutoff: int, now: int, s': State, reply: Reply)
    requires Inv(env, s) && EarlyReply(s, key, request).None?
    requires SubmitStep(s, key, request, scenario, cutoff, now, s', reply)
    ensures reply == Refused(HistoryFull) <==> |Live(s.table, s.jobs)| == 8
  {
    hide Roles, EntriesResolve, Tiled, Purged, Increasing;
    var s0 := s.(idempotency := s.idempotency - {key});
    var p: State :| PurgeStep(s0, cutoff, p) && (s', reply) == Admitted(p, key, request, scenario, now);
    SubmitPurge(env, s, key, cutoff, p);
    PurgeMakesRoom(s0, cutoff);
    LiveIsPart(s.table, p.jobs);
    hide PurgeStep, Live, WellFormed;
    if IsFull(p.retained, |p.jobs|) {
      assert SumBytes(p.retained) == 0;
    } else {
      assert |p.jobs| < 8;
    }
  }

  /** Whatever happens, a job that leaves the retained list is at rest. */
  lemma OnlyTerminalJobsAreEvicted(env: Env, s: State, e: Event, s': State, j: JobId)
    requires Inv(env, s) && Next(env, s, e, s') && j in s.jobs
    ensures j !in s'.jobs ==> e.Submit? && j in s.table && IsTerminal(s.table[j].state)
  {
    hide Inv, SubmitStep, ShutdownStep, CancelStep, ResetStep, WorkStep, PopStep, StopStep;
    if e.Submit? {
      var reply: Reply :| SubmitStep(s, e.key, e.request, e.scenario, e.cutoff, e.now, s', reply);
      SubmitEvictsTerminal(env, s, e.key, e.request, e.scenario, e.cutoff, e.now, s', reply, j);
    } else {
      OthersKeepJobs(env, s, e, s');
    }
  }

  lemma OthersKeepJobs(env: Env, s: State, e: Event, s': State)
    requires Inv(env, s) && Next(env, s, e, s') && !e.Submit?
    ensures s'.jobs == s.jobs
  {
    assert WellFormed(s);
    hide Inv, WorkStep, CancelStep, ShutdownStep, SubmitStep;
    if e.Work? { WorkKeepsList(env, s, e.choice); }
    if e.Cancel? { CancelKeepsList(s, e.job); }
    if e.Shutdown? { ShutdownKeepsList(s); }
  }

  lemma WorkKeepsList(env: Env, s: State, c: Choice)
    requires WellFormed(s)
    ensures WorkStep(env, s, c).jobs == s.jobs
  {
    hide WorkJob;
  }

  lemma CancelKeepsList(s: State, j: JobId)
    ensures CancelStep(s, j).0.jobs == s.jobs
  {
    hide Moved, Terminated;
  }

  lemma ShutdownKeepsList(s: State)
    requires WellFormed(s)
    ensures ShutdownStep(s).0.jobs == s.jobs
  {
    hide ShutdownJob, Moved, Terminated;
    if !s.shuttingDown { ShutdownFrame(s); }
  }

  lemma SubmitEvictsTerminal(env: Env, s: State, key: Key, request: Request, scenario: Scenario, cutoff: int, now: int,
                             s': State, reply: Reply, j: JobId)
    requires Inv(env, s) && SubmitStep(s, key, request, scenario, cutoff, now, s', reply) && j in s.jobs
    ensures j in s.table && (j !in s'.jobs ==> IsTerminal(s.table[j].state))
  {
    assert j in s.table;
    hide Inv, Purged, PurgeStep, Live;
    if EarlyReply(s, key, request).None? {
      var s0 := s.(idempotency := s.idempotency - {key});
      var p: State :| PurgeStep(s0, cutoff, p) && (s', reply) == Admitted(p, key, request, scenario, now);
      SubmitPurge(env, s, key, cutoff, p);
      PurgeMakesRoom(s0, cutoff);
      MembersOfAppend(p.jobs, p.nextSequence);
    }
  }

  // ---- Idempotency, cursor, reset --------------------------------------------------------------------

  /** A known key with the same request answers with the retained job that carries that key and
      request, and changes nothing; with another request it is refused. */
  lemma KnownKeyIsIdempotent(env: Env, s: State, key: Key, request: Request, scenario: Scenario,
                             cutoff: int, now: int, s': State, reply: Reply)
    requires Inv(env, s) && !s.shuttingDown && key in s.idempotency
    requires SubmitStep(s, key, request, scenario, cutoff, now, s', reply)
    ensures s' == s
    ensures reply == if s.idempotency[key].request == request then Reused(s.idempotency[key].job) else Refused(KeyReused)
    ensures var j := s.idempotency[key].job;
            j in s.jobs && s.table[j].digest == key && s.table[j].request == s.idempotency[key].request
  {
    hide Roles, Tiled, Budget, PurgeStep, Admitted;
  }

  /** The last eviction loop never runs. */
  lemma IdempotencyTableStaysSmall(env: Env, run: seq<State>, events: seq<Event>, i: nat)
    requires IsRun(env, run, events) && i < |run|
    ensures |run[i].idempotency| <= 8 < MAX_IDEMPOTENCY_ENTRIES
  {
    hide Next, Inv;
    RunInvariant(env, run, events, i);
    FewEntries(env, run[i]);
  }

  ghost predicate Covers(s: State, j: JobId, message: nat) {
    j in s.table && s.table[j].cursor <= message < End(s.table[j])
  }

  ghost predicate IsCovered(s: State, message: nat) {
    exists j <- s.ledger :: Covers(s, j, message)
  }

  /** Between resets the accepted jobs tile the messages below the cursor: the intervals of two
      of them never meet, and every position below the cursor belongs to one. */
  lemma AcceptedIntervalsTile(env: Env, run: seq<State>, events: seq<Event>, i: nat)
    requires IsRun(env, run, events) && i < |run|
    ensures forall j <- run[i].ledger :: j in run[i].table
    ensures var s := run[i];
            && (forall a, b :: 0 <= a < b < |s.ledger| ==> End(s.table[s.ledger[a]]) <= s.table[s.ledger[b]].cursor)
            && (forall m :: 0 <= m < s.cursor ==> IsCovered(s, m))
            && (forall a :: 0 <= a < |s.ledger| ==> End(s.table[s.ledger[a]]) <= s.cursor)
  {
    hide Next;
    RunInvariant(env, run, events, i);
    var s := run[i];
    hide Roles, Budget, EntriesResolve;
    forall a, b | 0 <= a < b < |s.ledger| ensures End(s.table[s.ledger[a]]) <= s.table[s.ledger[b]].cursor {
      TilesOrdered(s.table, s.ledger, s.cursor, a, b);
    }
    forall a | 0 <= a < |s.ledger| ensures End(s.table[s.ledger[a]]) <= s.cursor {
      if a < |s.ledger| - 1 { TilesOrdered(s.table, s.ledger, s.cursor, a, |s.ledger| - 1); }
    }
    forall m | 0 <= m < s.cursor ensures IsCovered(s, m) {
      var a := TileOf(s.table, s.ledger, s.cursor, m, 0);
      assert Covers(s, s.ledger[a], m);
    }
  }

  lemma {:induction false} TilesOrdered(table: map<JobId, Job>, ledger: seq<JobId>, cursor: nat, a: nat, b: nat)
    requires Tiled(table, ledger, cursor) && a < b < |ledger|
    ensures End(table[ledger[a]]) <= table[ledger[b]].cursor
    decreases b
  {
    assert ledger[b - 1] in ledger && ledger[b] in ledger;
    if a < b - 1 { TilesOrdered(table, ledger, cursor, a, b - 1); }
    assert End(table[ledger[b - 1]]) == table[ledger[b - 1 + 1]].cursor;
  }

  lemma {:induction false} TileOf(table: map<JobId, Job>, ledger: seq<JobId>, cursor: nat, m: nat, from: nat) returns (a: nat)
    requires Tiled(table, ledger, cursor) && m < cursor && from < |ledger|
    requires table[ledger[from]].cursor <= m
    ensures a < |ledger| && table[ledger[a]].cursor <= m < End(table[ledger[a]])
    decreases |ledger| - from
  {
    if m < End(table[ledger[from]]) {
      a := from;
    } else {
      assert End(table[ledger[from]]) == table[ledger[from + 1]].cursor;
      a := TileOf(table, ledger, cursor, m, from + 1);
    }
  }

  /** A reset that succeeds finds every job at rest. */
  lemma ResetMeansQuiet(env: Env, s: State)
    requires Inv(env, s)
    ensures ResetStep(s).1 == Done <==> forall j <- s.table :: IsTerminal(s.table[j].state)
  {
    hide Budget, EntriesResolve, Tiled, Sound;
    if forall j <- s.table :: IsTerminal(s.table[j].state) {
      assert forall j <- s.queue :: Pristine(s.table[j]);
    }
  }

  // ---- Truth withholding -------------------------------------------------------------------------------

  /** A job is marked as replayed only by a worker step that starts the receiver, with the truth
      file off the disk before and after. */
  lemma ReplayIsMarkedWithoutTruth(env: Env, run: seq<State>, events: seq<Event>, i: nat, j: JobId)
    requires IsRun(env, run, events) && i < |events|
    requires j in run[i].table && j in run[i + 1].table
    requires run[i + 1].table[j].replayInvoked && !run[i].table[j].replayInvoked
    ensures Truth !in run[i].table[j].files && Truth !in run[i + 1].table[j].files
    ensures events[i].Work? && run[i].worker.Busy? && run[i].worker.job == j && run[i].worker.pc.StartReceiver?
  {
    hide SubmitStep, Inv;
    RunInvariant(env, run, events, i);
    assert Next(env, run[i], events[i], run[i + 1]);
    StartIsWithheld(env, run[i], events[i], run[i + 1], j);
  }

  lemma StartIsWithheld(env: Env, s: State, e: Event, s': State, j: JobId)
    requires Inv(env, s) && Next(env, s, e, s')
    requires j in s.table && j in s'.table && s'.table[j].replayInvoked && !s.table[j].replayInvoked
    ensures Truth !in s.table[j].files && Truth !in s'.table[j].files
    ensures e.Work? && s.worker.Busy? && s.worker.job == j && s.worker.pc.StartReceiver?
  {
    hide Inv, WorkJob, Evolves, Sound, WorkerInv, CancelStep, ShutdownStep, SubmitStep;
    match e
    case Submit(key, request, scenario, cutoff, now) =>
      var reply: Reply :| SubmitStep(s, key, request, scenario, cutoff, now, s', reply);
      SubmitLeavesRecords(env, s, key, request, scenario, cutoff, now, s', reply, j);
      assert false;
    case Work(c) =>
      WorkerOf(env, s);
      WorkStartsWithheld(env, s.table[j], s.worker.pc, s.stopRequested, s.shuttingDown, c);
    case Cancel(x) => CancelStartsNothing(s, x, j);
    case Shutdown => ShutdownStartsNothing(env, s, j);
    case _ =>
  }

  lemma CancelStartsNothing(s: State, x: JobId, j: JobId)
    requires j in s.table
    ensures j in CancelStep(s, x).0.table && CancelStep(s, x).0.table[j].replayInvoked == s.table[j].replayInvoked
  {
  }

  lemma ShutdownStartsNothing(env: Env, s: State, j: JobId)
    requires Inv(env, s) && j in s.table
    ensures j in ShutdownStep(s).0.table && ShutdownStep(s).0.table[j].replayInvoked == s.table[j].replayInvoked
  {
    if !s.shuttingDown {
      ShutdownRecord(env, s, j);
      hide Inv, ShutdownStep;
    }
  }

  lemma WorkerOf(env: Env, s: State)
    requires Inv(env, s)
    ensures s.worker.Busy? ==> s.worker.job in s.table && WorkerInv(env, s.table[s.worker.job], s.worker.pc, s.shuttingDown)
    ensures s.stopRequested ==> s.shuttingDown
  {
    hide WorkerInv, Sound, Budget, EntriesResolve, Tiled;
  }

  lemma WorkStartsWithheld(env: Env, job: Job, pc: Pc, stop: bool, down: bool, c: Choice)
    requires WorkerInv(env, job, pc, down) && (stop ==> down) && !job.replayInvoked
    requires WorkJob(env, job, pc, stop, c).0.replayInvoked
    ensures pc.StartReceiver? && Truth !in job.files && Truth !in WorkJob(env, job, pc, stop, c).0.files
  {
    hide Sound;
  }

  lemma SubmitLeavesRecords(env: Env, s: State, key: Key, request: Request, scenario: Scenario, cutoff: int, now: int,
                            s': State, reply: Reply, j: JobId)
    requires Inv(env, s) && SubmitStep(s, key, request, scenario, cutoff, now, s', reply) && j in s.table
    ensures j in s'.table && s'.table[j] == s.table[j]
  {
    hide Inv, Purged, PurgeStep;
    if EarlyReply(s, key, request).None? {
      var p: State :| PurgeStep(s.(idempotency := s.idempotency - {key}), cutoff, p)
                      && (s', reply) == Admitted(p, key, request, scenario, now);
      SubmitPurge(env, s, key, cutoff, p);
      FreshSequence(env, s, j);
    }
  }

  lemma FreshSequence(env: Env, s: State, j: JobId)
    requires Inv(env, s) && j in s.table
    ensures j < s.nextSequence
  {
  }

  /** A job at rest has every recorded file on disk with the recorded digest; the truth file that
      was withheld is back. */
  lemma RestedJobsMatchTheirManifest(env: Env, run: seq<State>, events: seq<Event>, i: nat, j: JobId)
    requires IsRun(env, run, events) && i < |run| && j in run[i].table && IsTerminal(run[i].table[j].state)
    ensures FilesMatchRecord(env, run[i].table[j])
    ensures run[i].table[j].state == Completed ==>
              run[i].table[j].artifacts.Some? && run[i].table[j].artifacts.value.Keys == ALL_NAMES
  {
    hide Next;
    RunInvariant(env, run, events, i);
  }

  /** The digest comparison `Export` makes for each committed source file. */
  ghost predicate SourceAccepted(env: Env, job: Job) {
    && job.state == Completed && job.artifacts.Some?
    && forall f <- {Iq, Truth, SigMf, ReceiverConfig} ::
         f in job.artifacts.value && f in job.files && env.hash(job.files[f]) == job.artifacts.value[f]
  }

  lemma ExportAcceptsCompletedJobs(env: Env, run: seq<State>, events: seq<Event>, i: nat, j: JobId)
    requires IsRun(env, run, events) && i < |run| && j in run[i].table && run[i].table[j].state == Completed
    ensures SourceAccepted(env, run[i].table[j])
  {
    hide Next;
    RestedJobsMatchTheirManifest(env, run, events, i, j);
  }
}
