/** The invariant of the whole job controller, and the theorems about its runs. */
module JobSafety {
  import opened Prelude
  import opened JobModel
  import opened JobRuns
  import opened JobRetention

  predicate IsActive(s: State, j: JobId) { s.worker.Busy? && s.worker.job == j }

  ghost predicate Roles(env: Env, s: State)
    requires WellFormed(s)
  {
    && (forall j <- s.table :: j < s.nextSequence && Sound(env, s.table[j]))
    && (forall j <- s.table :: IsLive(s.table, j) ==> j in s.jobs)
    && (forall j <- s.table :: j !in s.queue && !IsActive(s, j) ==> !IsLive(s.table, j))
    && (forall j <- s.queue :: j in s.jobs && Pristine(s.table[j]) && !IsActive(s, j))
    && (s.worker.Busy? ==> WorkerInv(env, s.table[s.worker.job], s.worker.pc, s.shuttingDown))
    && (s.stopRequested ==> s.shuttingDown)
    && (s.shuttingDown ==> s.queue == [])
  }

  ghost predicate Budget(s: State) {
    && s.retainedBytes + |s.jobs| * IQ_QUOTA <= RETENTION_QUOTA
    && |s.retained| + |s.jobs| <= MAX_JOBS
    && Increasing(s.jobs) && Increasing(s.queue)
  }

  /** Every idempotency entry names a retained job carrying that key and that request. */
  ghost predicate EntriesResolve(s: State)
    requires WellFormed(s)
  {
    forall k <- s.idempotency ::
      var r := s.idempotency[k];
      r.job in s.jobs && s.table[r.job].digest == k && s.table[r.job].request == r.request
  }

  function End(job: Job): nat { job.cursor + job.request.count }

  /** The jobs accepted since the last reset cover [0, cursor) without gap or overlap. */
  ghost predicate Tiled(table: map<JobId, Job>, ledger: seq<JobId>, cursor: nat) {
    && (forall j <- ledger :: j in table)
    && (if ledger == [] then cursor == 0
        else table[ledger[0]].cursor == 0 && End(table[ledger[|ledger| - 1]]) == cursor)
    && (forall i :: 0 <= i < |ledger| - 1 ==> End(table[ledger[i]]) == table[ledger[i + 1]].cursor)
  }

  ghost predicate Inv(env: Env, s: State) {
    WellFormed(s) && Roles(env, s) && Budget(s) && EntriesResolve(s) && Tiled(s.table, s.ledger, s.cursor)
  }

  ghost predicate TableEvolves(s: State, s': State) {
    forall j <- s.table :: j in s'.table && Evolves(s.table[j], s'.table[j])
  }

  // ---- Each step ---------------------------------------------------------------------------------

  lemma TilesSurvive(s: State, s': State)
    requires Tiled(s.table, s.ledger, s.cursor) && TableEvolves(s, s')
    ensures Tiled(s'.table, s.ledger, s.cursor)
  {
    forall j <- s.ledger ensures j in s'.table && End(s'.table[j]) == End(s.table[j]) && s'.table[j].cursor == s.table[j].cursor {
      assert j in s.table && Evolves(s.table[j], s'.table[j]);
    }
  }

  lemma EvolvesReflexive(s: State)
    ensures TableEvolves(s, s)
  {
  }

  /** `s'` is `s` with record `j` rewritten and `j` gone from the queue. */
  ghost predicate Rewrites(s: State, s': State, j: JobId) {
    && j in s.table && j in s'.table && s'.table == s.table[j := s'.table[j]]
    && s' == s.(table := s'.table, queue := s'.queue, worker := s'.worker)
    && Increasing(s'.queue) && (forall x :: x in s'.queue <==> x in s.queue && x != j)
    && s'.worker.Busy? == s.worker.Busy? && (s.worker.Busy? ==> s'.worker.job == s.worker.job)
  }

  lemma RewriteWellFormed(s: State, s': State, j: JobId)
    requires WellFormed(s) && Rewrites(s, s', j)
    ensures WellFormed(s')
  {
    hide Increasing, SumBytes;
  }

  lemma RewriteRoles(env: Env, s: State, s': State, j: JobId)
    requires WellFormed(s) && WellFormed(s') && Roles(env, s) && Rewrites(s, s', j) && Sound(env, s'.table[j])
    requires IsLive(s'.table, j) ==> IsLive(s.table, j)
    requires IsActive(s, j) ==> WorkerInv(env, s'.table[j], s'.worker.pc, s.shuttingDown)
    requires !IsActive(s, j) ==> s'.worker == s.worker && IsTerminal(s'.table[j].state)
    ensures Roles(env, s')
  {
    hide Sound, WorkerInv, Pristine, Increasing, SumBytes;
    FirstIsMember(s'.queue);
  }

  lemma RewriteEntries(s: State, s': State, j: JobId)
    requires WellFormed(s) && WellFormed(s') && EntriesResolve(s) && Rewrites(s, s', j)
    requires s.table[j].digest == s'.table[j].digest && s.table[j].request == s'.table[j].request
    ensures EntriesResolve(s')
  {
    hide Increasing, SumBytes;
  }

  /** A step that rewrites one job record keeps the invariant if the new record fits the role
      its job then has. */
  lemma OneJobChanges(env: Env, s: State, s': State, j: JobId)
    requires Inv(env, s) && Rewrites(s, s', j)
    requires Evolves(s.table[j], s'.table[j]) && Sound(env, s'.table[j])
    requires IsActive(s, j) ==> WorkerInv(env, s'.table[j], s'.worker.pc, s.shuttingDown)
    requires !IsActive(s, j) ==> s'.worker == s.worker && IsTerminal(s'.table[j].state)
    ensures Inv(env, s') && TableEvolves(s, s')
  {
    hide Sound, WorkerInv, Evolves, Tiled, Roles, EntriesResolve, WellFormed, Increasing;
    EvolvesReflexive(s);
    TilesSurvive(s, s');
    WhatEvolvingKeeps(s.table[j], s'.table[j]);
    RewriteWellFormed(s, s', j);
    RewriteRoles(env, s, s', j);
    RewriteEntries(s, s', j);
  }

  lemma WhatEvolvingKeeps(a: Job, b: Job)
    requires Evolves(a, b)
    ensures a.digest == b.digest && a.request == b.request && a.cursor == b.cursor && a.created == b.created
    ensures IsTerminal(a.state) ==> b.state == a.state && b.code == a.code
  {
  }

  lemma WorkKeeps(env: Env, s: State, c: Choice)
    requires Inv(env, s)
    ensures Inv(env, WorkStep(env, s, c)) && TableEvolves(s, WorkStep(env, s, c))
  {
    hide Sound, Evolves, WorkJob, Tiled, WorkerInv, EntriesResolve, Budget;
    EvolvesReflexive(s);
    if s.worker.Busy? {
      if s.worker.pc.Exit? {
        RetireKeeps(env, s);
      } else {
        WorkingKeeps(env, s, c);
      }
    }
  }

  lemma RetireKeeps(env: Env, s: State)
    requires Inv(env, s) && s.worker.Busy? && s.worker.pc.Exit?
    ensures Inv(env, s.(worker := Idle))
  {
    hide Sound, Tiled, Increasing, Pristine;
    assert IsTerminal(s.table[s.worker.job].state);
  }

  lemma WorkingKeeps(env: Env, s: State, c: Choice)
    requires Inv(env, s) && s.worker.Busy? && !s.worker.pc.Exit?
    ensures Inv(env, WorkStep(env, s, c)) && TableEvolves(s, WorkStep(env, s, c))
  {
    hide Sound, Evolves, WorkJob, Tiled, EntriesResolve, Pristine, SumBytes;
    var s' := WorkStep(env, s, c);
    var j := s.worker.job;
    assert j !in s.queue;
    WorkKeepsJob(env, s.table[j], s.worker.pc, s.stopRequested, s.shuttingDown, c);
    hide Roles, Increasing;
    OneJobChanges(env, s, s', j);
  }

  lemma CancelKeeps(env: Env, s: State, j: JobId)
    requires Inv(env, s)
    ensures Inv(env, CancelStep(s, j).0) && TableEvolves(s, CancelStep(s, j).0)
  {
    hide Sound, Evolves, WorkerInv, Moved, Terminated, Tiled;
    var s' := CancelStep(s, j).0;
    EvolvesReflexive(s);
    if j in s.jobs && IsLive(s.table, j) {
      CancelKeepsJob(env, s, j);
      RemovedFacts(s.queue, j);
      OneJobChanges(env, s, s', j);
    }
  }

  /** The cancelled job itself. */
  lemma CancelKeepsJob(env: Env, s: State, j: JobId)
    requires Inv(env, s) && j in s.jobs && IsLive(s.table, j)
    ensures var s' := CancelStep(s, j).0;
            && Sound(env, s'.table[j]) && Evolves(s.table[j], s'.table[j]) && s'.table[j].cancelRequested
            && s'.table[j].state == (if s.table[j].state == Queued then Cancelled else Cancelling)
            && (s.table[j].state != Queued ==> j !in s.queue && IsActive(s, j))
            && (IsActive(s, j) ==> WorkerInv(env, s'.table[j], s.worker.pc, s.shuttingDown))
  {
    hide Tiled, EntriesResolve, Budget, WellFormed;
    assert j in s.queue ==> Pristine(s.table[j]);
    CancelledRecord(env, s.table[j], j in s.queue, if IsActive(s, j) then s.worker.pc else Exit, s.shuttingDown);
  }

  /** A live record under `Cancel`. */
  lemma CancelledRecord(env: Env, job: Job, queued: bool, pc: Pc, down: bool)
    requires Sound(env, job) && !IsTerminal(job.state)
    requires if queued then Pristine(job) else WorkerInv(env, job, pc, down)
    ensures var flagged := job.(cancelRequested := true);
            var r := if job.state == Queued then Terminated(flagged, Cancelled, CancelledBeforeGeneration)
                     else match Moved(flagged, Cancelling) case Some(moved) => moved case None => flagged;
            && Sound(env, r) && Evolves(job, r) && r.cancelRequested
            && r.state == (if job.state == Queued then Cancelled else Cancelling)
            && (!queued ==> WorkerInv(env, r, pc, down))
  {
    hide LegalPath;
    FlaggedJob(env, job, CancelledBeforeGeneration);
  }

  /** Flagging a live job: a queued one ends `cancelled`, any other becomes `cancelling`. */
  lemma FlaggedJob(env: Env, job: Job, code: Code)
    requires Sound(env, job) && !IsTerminal(job.state)
    requires code != IllegalStateTransition && code != IllegalTransitionThrown
    requires job.state == Queued ==> FilesMatchRecord(env, job)
    ensures var flagged := job.(cancelRequested := true);
            if job.state == Queued
            then var r := Terminated(flagged, Cancelled, code); Sound(env, r) && r.state == Cancelled && Evolves(job, r)
            else var r := Moved(flagged, Cancelling); r.Some? && Sound(env, r.value) && r.value.state == Cancelling && Evolves(job, r.value)
  {
    var flagged := job.(cancelRequested := true);
    if job.state == Queued {
      TerminatedKeepsSound(env, flagged, Cancelled, code);
    } else {
      MovedKeepsSound(env, flagged, Cancelling);
    }
  }

  lemma ShutdownKeeps(env: Env, s: State)
    requires Inv(env, s)
    ensures Inv(env, ShutdownStep(s).0) && TableEvolves(s, ShutdownStep(s).0)
  {
    hide Sound, Evolves, Roles, EntriesResolve, Tiled, ShutdownJob, Moved, Increasing;
    EvolvesReflexive(s);
    if !s.shuttingDown {
      var s' := ShutdownStep(s).0;
      hide ShutdownStep;
      ShutdownFrame(s);
      forall j <- s.table ensures Evolves(s.table[j], s'.table[j]) { ShutdownKeepsJob(env, s, j); }
      TilesSurvive(s, s');
      ShutdownRoles(env, s, s');
      EntriesEvolve(s, s');
      assert Increasing([]) by { IncreasingEmpty(); }
    }
  }

  lemma IncreasingEmpty()
    ensures Increasing([])
  {
  }

  lemma ShutdownRoles(env: Env, s: State, s': State)
    requires Inv(env, s) && !s.shuttingDown && s' == ShutdownStep(s).0
    ensures WellFormed(s') && Roles(env, s')
  {
    hide Sound, Evolves, WorkerInv, Pristine, Tiled, EntriesResolve, Budget, ShutdownStep, SumBytes;
    ShutdownFrame(s);
    forall j <- s.table
      ensures Sound(env, s'.table[j])
      ensures (!IsActive(s, j) ==> !IsLive(s'.table, j)) && (IsLive(s'.table, j) ==> IsLive(s.table, j))
    {
      ShutdownKeepsJob(env, s, j);
      WhatEvolvingKeeps(s.table[j], s'.table[j]);
    }
    if s.worker.Busy? { ShutdownKeepsJob(env, s, s.worker.job); }
  }

  lemma EntriesEvolve(s: State, s': State)
    requires WellFormed(s) && WellFormed(s') && EntriesResolve(s) && TableEvolves(s, s')
    requires s'.idempotency == s.idempotency && s'.jobs == s.jobs
    ensures EntriesResolve(s')
  {
    hide Evolves, SumBytes;
    forall k <- s.idempotency ensures s'.table[s.idempotency[k].job].digest == k
                                && s'.table[s.idempotency[k].job].request == s.idempotency[k].request {
      WhatEvolvingKeeps(s.table[s.idempotency[k].job], s'.table[s.idempotency[k].job]);
    }
  }

  /** What `Shutdown` leaves alone. */
  lemma ShutdownFrame(s: State)
    requires WellFormed(s) && !s.shuttingDown
    ensures var s' := ShutdownStep(s).0;
            && s' == s.(table := s'.table, queue := [], shuttingDown := true)
            && s'.table.Keys == s.table.Keys
  {
    hide ShutdownJob, Moved;
  }

  /** A record after `Shutdown`, by the role its job had. */
  function AfterShutdown(job: Job, queued: bool, active: bool): Job {
    if queued then ShutdownJob(job)
    else if !active then job
    else
      var flagged := job.(cancelRequested := true);
      if IsTerminal(job.state) then flagged
      else match Moved(flagged, Cancelling) case None => flagged case Some(moved) => moved
  }

  lemma ShutdownRecord(env: Env, s: State, j: JobId)
    requires Inv(env, s) && !s.shuttingDown && j in s.table
    ensures j in ShutdownStep(s).0.table
    ensures ShutdownStep(s).0.table[j] == AfterShutdown(s.table[j], j in s.queue, IsActive(s, j))
  {
    hide Sound, WorkerInv, ShutdownJob, Moved, Pristine, Tiled, EntriesResolve, Budget;
    assert j in s.queue ==> !IsActive(s, j);
  }

  lemma ShutdownKeepsJob(env: Env, s: State, j: JobId)
    requires Inv(env, s) && !s.shuttingDown && j in s.table
    ensures var s' := ShutdownStep(s).0;
            && j in s'.table && Sound(env, s'.table[j]) && Evolves(s.table[j], s'.table[j])
            && (!IsActive(s, j) ==> IsTerminal(s'.table[j].state))
            && (IsActive(s, j) ==> WorkerInv(env, s'.table[j], s.worker.pc, true))
  {
    hide ShutdownStep, Tiled, EntriesResolve, Budget;
    ShutdownRecord(env, s, j);
    RecordAfterShutdown(env, s.table[j], j in s.queue, IsActive(s, j), if IsActive(s, j) then s.worker.pc else Exit);
  }

  lemma RecordAfterShutdown(env: Env, job: Job, queued: bool, active: bool, pc: Pc)
    requires Sound(env, job) && (queued ==> Pristine(job) && !active)
    requires active ==> WorkerInv(env, job, pc, false)
    requires !queued && !active ==> IsTerminal(job.state)
    ensures var r := AfterShutdown(job, queued, active);
            && Sound(env, r) && Evolves(job, r)
            && (!active ==> IsTerminal(r.state)) && (active ==> WorkerInv(env, r, pc, true))
  {
    hide LegalPath;
    if queued {
      FlaggedJob(env, job, ApplicationShutdown);
    } else if active {
      ActiveAfterShutdown(env, job, pc);
    }
  }

  lemma ActiveAfterShutdown(env: Env, job: Job, pc: Pc)
    requires WorkerInv(env, job, pc, false)
    ensures Evolves(job, AfterShutdown(job, false, true)) && WorkerInv(env, AfterShutdown(job, false, true), pc, true)
  {
    hide LegalPath, Terminated, ShutdownJob;
    if !IsTerminal(job.state) && job.state != Queued { FlaggedJob(env, job, ApplicationShutdown); }
  }

  lemma PopKeeps(env: Env, s: State)
    requires Inv(env, s)
    ensures Inv(env, PopStep(s)) && TableEvolves(s, PopStep(s))
  {
    hide Evolves, Tiled, Sound, EntriesResolve, WorkerInv, Increasing;
    EvolvesReflexive(s);
    if s.worker.Idle? && !s.shuttingDown && !s.stopRequested && s.queue != [] {
      assert forall j :: j in s.queue <==> j == s.queue[0] || j in s.queue[1..];
      IncreasingTail(s.queue);
      PoppedFits(env, s.table[s.queue[0]]);
      assert EntriesResolve(PopStep(s)) by { EvolvesReflexive(s); EntriesEvolve(s, PopStep(s)); }
    }
  }

  lemma PoppedFits(env: Env, job: Job)
    requires Sound(env, job) && Pristine(job)
    ensures WorkerInv(env, job, Begin, false)
  {
  }

  lemma PurgedKeeps(env: Env, s: State, cutoff: int)
    requires Inv(env, s)
    ensures Inv(env, Purged(s, cutoff))
    ensures Purged(s, cutoff).table == s.table && Purged(s, cutoff).nextSequence == s.nextSequence
  {
    hide Roles, EntriesResolve, Tiled, TrimArtifacts, TrimJobs, Unaged, Increasing, Live;
    PurgeMakesRoom(s, cutoff);
    PurgedRoles(env, s, Purged(s, cutoff));
    PurgedEntries(s, Purged(s, cutoff), cutoff);
  }

  lemma PurgedRoles(env: Env, s: State, p: State)
    requires WellFormed(s) && Roles(env, s) && DropsOnlyTerminal(s.table, s.jobs, p.jobs)
    requires p == s.(jobs := p.jobs, retained := p.retained, retainedBytes := p.retainedBytes, idempotency := p.idempotency)
    requires WellFormed(p)
    ensures Roles(env, p)
  {
    hide Sound, WorkerInv, SumBytes, Increasing, Live;
    forall j <- s.queue ensures IsLive(s.table, j) { assert Pristine(s.table[j]); }
    hide Pristine;
  }

  lemma PurgedEntries(s: State, p: State, cutoff: int)
    requires WellFormed(s) && EntriesResolve(s) && p == Purged(s, cutoff) && WellFormed(p)
    ensures EntriesResolve(p)
  {
    hide SumBytes, TrimArtifacts, TrimJobs, Unaged;
    forall k <- s.idempotency | s.idempotency[k].job !in p.jobs
      ensures k in DigestsOf(s.table, Elements(s.jobs) - Elements(p.jobs))
    {
      assert s.idempotency[k].job in Elements(s.jobs) - Elements(p.jobs);
    }
  }

  /** The last purge loop never has anything to do: there are at most eight entries. */
  lemma FewEntries(env: Env, s: State)
    requires Inv(env, s)
    ensures |s.idempotency| <= |s.jobs| <= 8
  {
    assert s.idempotency.Keys <= DigestsOf(s.table, Elements(s.jobs));
    DigestCount(s.table, s.jobs);
    SubsetSize(s.idempotency.Keys, DigestsOf(s.table, Elements(s.jobs)));
  }

  lemma SubmitPurge(env: Env, s: State, key: Key, cutoff: int, p: State)
    requires Inv(env, s) && PurgeStep(s.(idempotency := s.idempotency - {key}), cutoff, p)
    ensures p == Purged(s.(idempotency := s.idempotency - {key}), cutoff) && Inv(env, p)
    ensures p.table == s.table && p.nextSequence == s.nextSequence
  {
    hide Inv, Purged;
    var s0 := s.(idempotency := s.idempotency - {key});
    WithoutKey(env, s, key);
    PurgedKeeps(env, s0, cutoff);
    FewEntries(env, Purged(s0, cutoff));
  }

  lemma WithoutKey(env: Env, s: State, key: Key)
    requires Inv(env, s)
    ensures Inv(env, s.(idempotency := s.idempotency - {key}))
  {
    hide Sound, WorkerInv, Pristine, Tiled, Increasing, SumBytes, IsLive;
  }

  lemma EnrolKeeps(env: Env, p: State, key: Key, request: Request, now: int)
    requires Inv(env, p) && !IsFull(p.retained, |p.jobs|) && !p.shuttingDown
    ensures Inv(env, Enrolled(p, key, request, now)) && TableEvolves(p, Enrolled(p, key, request, now))
  {
    hide Evolves, Roles, EntriesResolve, Tiled, Increasing;
    var s' := Enrolled(p, key, request, now);
    var j := p.nextSequence;
    EnrolRoles(env, p, key, request, now);
    EnrolEntries(env, p, key, request, now);
    EnrolTiles(env, p, key, request, now);
    hide WellFormed;
    EvolvesReflexive(p);
    EnrolOrder(env, p);
  }

  lemma EnrolOrder(env: Env, p: State)
    requires Inv(env, p)
    ensures Increasing(p.jobs + [p.nextSequence]) && Increasing(p.queue + [p.nextSequence])
  {
    hide Sound, WorkerInv, Pristine, Tiled, EntriesResolve, Increasing, SumBytes;
    IncreasingAppend(p.jobs, p.nextSequence);
    IncreasingAppend(p.queue, p.nextSequence);
  }

  lemma EnrolRoles(env: Env, p: State, key: Key, request: Request, now: int)
    requires WellFormed(p) && Roles(env, p) && !p.shuttingDown
    ensures WellFormed(Enrolled(p, key, request, now)) && Roles(env, Enrolled(p, key, request, now))
    ensures p.nextSequence !in p.table
  {
    hide WorkerInv, SumBytes, Sound, NewJob;
    var s' := Enrolled(p, key, request, now);
    var j := p.nextSequence;
    NewJobFits(env, key, request, p.cursor, now);
    hide Pristine;
    MembersOfAppend(p.jobs, j);
    MembersOfAppend(p.queue, j);
  }

  lemma NewJobFits(env: Env, key: Key, request: Request, cursor: nat, now: int)
    ensures var job := NewJob(key, request, cursor, now); Sound(env, job) && Pristine(job) && !IsTerminal(job.state)
  {
    assert LegalPath([Queued]);
  }

  lemma MembersOfAppend(s: seq<JobId>, x: JobId)
    ensures forall y :: y in s + [x] <==> y in s || y == x
  {
  }

  lemma EnrolEntries(env: Env, p: State, key: Key, request: Request, now: int)
    requires WellFormed(p) && EntriesResolve(p) && p.nextSequence !in p.table
    requires WellFormed(Enrolled(p, key, request, now))
    ensures EntriesResolve(Enrolled(p, key, request, now))
  {
    hide SumBytes;
    var s' := Enrolled(p, key, request, now);
    assert forall x :: x in s'.jobs <==> x in p.jobs || x == p.nextSequence;
  }

  lemma EnrolTiles(env: Env, p: State, key: Key, request: Request, now: int)
    requires p.nextSequence !in p.table && Tiled(p.table, p.ledger, p.cursor)
    ensures var s' := Enrolled(p, key, request, now); Tiled(s'.table, s'.ledger, s'.cursor)
  {
    var s' := Enrolled(p, key, request, now);
    forall i | 0 <= i < |s'.ledger| - 1
      ensures End(s'.table[s'.ledger[i]]) == s'.table[s'.ledger[i + 1]].cursor
    {
      assert s'.ledger[i] == p.ledger[i] && p.ledger[i] in p.ledger;
      if i < |p.ledger| - 1 { assert s'.ledger[i + 1] == p.ledger[i + 1] && p.ledger[i + 1] in p.ledger; }
    }
  }

  lemma SubmitKeeps(env: Env, s: State, key: Key, request: Request, scenario: Scenario, cutoff: int, now: int,
                    s': State, reply: Reply)
    requires Inv(env, s) && SubmitStep(s, key, request, scenario, cutoff, now, s', reply)
    ensures Inv(env, s') && TableEvolves(s, s')
  {
    EvolvesReflexive(s);
    if EarlyReply(s, key, request).None? {
      var p: State :| PurgeStep(s.(idempotency := s.idempotency - {key}), cutoff, p)
                      && (s', reply) == Admitted(p, key, request, scenario, now);
      SubmitPurge(env, s, key, cutoff, p);
      if Admission(p, request, scenario).None? { EnrolKeeps(env, p, key, request, now); }
    }
  }

  lemma ResetKeeps(env: Env, s: State)
    requires Inv(env, s)
    ensures Inv(env, ResetStep(s).0) && TableEvolves(s, ResetStep(s).0)
  {
    hide Sound, Evolves, WorkerInv, Pristine, Increasing, SumBytes;
    EvolvesReflexive(s);
  }

  lemma StopKeeps(env: Env, s: State)
    requires Inv(env, s)
    ensures Inv(env, StopStep(s)) && TableEvolves(s, StopStep(s))
  {
    hide Sound, Evolves, WorkerInv, Pristine, Increasing, SumBytes, Tiled;
    EvolvesReflexive(s);
  }

  lemma NextKeeps(env: Env, s: State, e: Event, s': State)
    requires Inv(env, s) && Next(env, s, e, s')
    ensures Inv(env, s') && TableEvolves(s, s')
  {
    hide Inv, TableEvolves, SubmitStep, CancelStep, ResetStep, ShutdownStep, WorkStep, PopStep, StopStep;
    EvolvesReflexive(s);
    match e
    case Submit(key, request, scenario, cutoff, now) =>
      var reply: Reply :| SubmitStep(s, key, request, scenario, cutoff, now, s', reply);
      SubmitKeeps(env, s, key, request, scenario, cutoff, now, s', reply);
    case Cancel(j) => CancelKeeps(env, s, j);
    case Reset => ResetKeeps(env, s);
    case Shutdown => ShutdownKeeps(env, s);
    case RequestStop => StopKeeps(env, s);
    case Pop => PopKeeps(env, s);
    case Work(c) => WorkKeeps(env, s, c);
  }
}
