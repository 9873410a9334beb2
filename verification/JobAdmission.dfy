/** Which requests become jobs, in which order the worker takes them, and what leaves to make room. */
module JobAdmission {
  import opened Prelude
  import opened JobModel
  import opened JobRuns
  import opened JobRetention
  import opened JobSafety
  import opened JobTheorems

  // ---- Admission ------------------------------------------------------------------------------------------------

  /** The pulses of the messages that a request would take. */
  function Wanted(s: State, request: Request, scenario: Scenario): seq<nat>
    requires s.cursor + request.count <= |scenario.pulses|
  {
    scenario.pulses[s.cursor..s.cursor + request.count]
  }

  lemma {:induction false} SumSays(a: seq<nat>, b: seq<nat>, x: nat)
    ensures Sum([]) == 0 && Sum([x]) == x && Sum(a + b) == Sum(a) + Sum(b)
    decreases |a|
  {
    if a == [] {
      assert a + b == b;
    } else {
      SumSays(a[1..], b, x);
      assert (a + b)[1..] == a[1..] + b;
    }
  }

  /** The schedule still has this many messages after the cursor. */
  predicate InSchedule(s: State, request: Request, scenario: Scenario) { s.cursor + request.count <= |scenario.pulses| }

  /** The answer to a request that is neither known nor late, given whether there is room. */
  ghost predicate AnswersSo(s: State, request: Request, scenario: Scenario, room: bool, reply: Reply) {
    var usable := room && scenario.consistent && scenario.pulses != [];
    && (reply == Refused(HistoryFull) <==> !room)
    && (reply == Refused(ConfigurationChanged) <==> room && !scenario.consistent)
    && (reply == Refused(NoMessages) <==> room && scenario.consistent && scenario.pulses == [])
    && (reply == Refused(CursorExhausted) <==> usable && !InSchedule(s, request, scenario))
    && (reply == Refused(PulseQuota) <==>
          usable && InSchedule(s, request, scenario) && Sum(Wanted(s, request, scenario)) > 512)
    && (reply == Refused(NoIqMap) <==>
          usable && InSchedule(s, request, scenario) && Sum(Wanted(s, request, scenario)) <= 512 && !scenario.hasIqOffsets)
    && (reply == Accepted(s.nextSequence) <==>
          usable && InSchedule(s, request, scenario) && Sum(Wanted(s, request, scenario)) <= 512 && scenario.hasIqOffsets)
  }

  lemma AdmittedAnswers(p: State, key: Key, request: Request, scenario: Scenario, now: int)
    ensures AnswersSo(p, request, scenario, !IsFull(p.retained, |p.jobs|), Admitted(p, key, request, scenario, now).1)
  {
    hide IsFull, Sum, Enrolled;
  }

  lemma AdmittedEffect(p: State, key: Key, request: Request, scenario: Scenario, now: int)
    ensures var (s', reply) := Admitted(p, key, request, scenario, now);
            && reply != Refused(ShuttingDown) && (reply == Refused(HistoryFull) <==> IsFull(p.retained, |p.jobs|))
            && (!reply.Accepted? ==> s' == p) && (reply.Accepted? ==> s' == Enrolled(p, key, request, now))
  {
    hide IsFull, Sum, Enrolled;
  }

  /** A request that is neither known nor late is answered by its first obstacle: no room, a changed
      or empty configuration, a schedule that ends too early, more than 512 pulses, no channel map.
      Without one it becomes the next job, at the cursor; otherwise no job changes. */
  lemma NewRequestIsAnswered(env: Env, s: State, key: Key, request: Request, scenario: Scenario, cutoff: int, now: int,
                             s': State, reply: Reply)
    requires Inv(env, s) && EarlyReply(s, key, request).None?
    requires SubmitStep(s, key, request, scenario, cutoff, now, s', reply)
    ensures AnswersSo(s, request, scenario, |Live(s.table, s.jobs)| < 8, reply)
    ensures !reply.Accepted? ==> s'.table == s.table && s'.queue == s.queue && s'.cursor == s.cursor
    ensures reply.Accepted? ==>
              && reply.job == s.nextSequence && s'.table == s.table[s.nextSequence := NewJob(key, request, s.cursor, now)]
              && s'.queue == s.queue + [s.nextSequence] && s'.cursor == s.cursor + request.count
              && key in s'.idempotency && s'.idempotency[key] == Record(request, s.nextSequence)
  {
    HistoryFullIffEightLiveJobs(env, s, key, request, scenario, cutoff, now, s', reply);
    FewLive(env, s);
    hide Inv, Purged, PurgeStep, Live, IsFull, Admitted, Sum, AnswersSo;
    var p: State :| PurgeStep(s.(idempotency := s.idempotency - {key}), cutoff, p)
                    && (s', reply) == Admitted(p, key, request, scenario, now);
    PurgeKeepsRest(env, s, key, cutoff, p);
    AdmittedAnswers(p, key, request, scenario, now);
    AdmittedEffect(p, key, request, scenario, now);
    SameAnswer(s, p, request, scenario, !IsFull(p.retained, |p.jobs|), reply);
    AcceptedIsNext(p, key, request, scenario, now);
  }

  lemma AcceptedIsNext(p: State, key: Key, request: Request, scenario: Scenario, now: int)
    ensures var reply := Admitted(p, key, request, scenario, now).1; reply.Accepted? ==> reply.job == p.nextSequence
  {
    hide Enrolled, Admission;
  }

  lemma SameAnswer(s: State, p: State, request: Request, scenario: Scenario, room: bool, reply: Reply)
    requires p.cursor == s.cursor && p.nextSequence == s.nextSequence && AnswersSo(p, request, scenario, room, reply)
    ensures AnswersSo(s, request, scenario, room, reply)
  {
    hide Sum;
  }

  lemma FewLive(env: Env, s: State)
    requires Inv(env, s)
    ensures |Live(s.table, s.jobs)| <= 8
  {
    hide Roles, EntriesResolve, Tiled, Live, SumBytes;
    LiveIsPart(s.table, s.jobs);
  }

  lemma PurgeKeepsRest(env: Env, s: State, key: Key, cutoff: int, p: State)
    requires Inv(env, s) && PurgeStep(s.(idempotency := s.idempotency - {key}), cutoff, p)
    ensures p.table == s.table && p.queue == s.queue && p.cursor == s.cursor && p.nextSequence == s.nextSequence
  {
    hide Inv, TrimArtifacts, TrimJobs, Unaged, IdempotencyTrimmed;
  }

  /** Step `k` admitted job `j`: a submit that found the schedule long enough, the pulses within the
      limit and room for one more job. */
  ghost predicate AdmittedAt(run: seq<State>, events: seq<Event>, k: nat, j: JobId)
    requires |run| == |events| + 1
  {
    && k < |events| && events[k].Submit? && !run[k].shuttingDown && j == run[k].nextSequence && j !in run[k].table
    && events[k].scenario.consistent && events[k].scenario.hasIqOffsets && InSchedule(run[k], events[k].request, events[k].scenario)
    && Sum(Wanted(run[k], events[k].request, events[k].scenario)) <= 512 && |Live(run[k].table, run[k].jobs)| < 8
  }

  lemma NewRecord(env: Env, s: State, e: Event, s': State, j: JobId)
    requires Inv(env, s) && WellFormed(s) && Next(env, s, e, s') && j !in s.table && j in s'.table
    ensures e.Submit? && !s.shuttingDown && j == s.nextSequence && s'.table[j] == NewJob(e.key, e.request, s.cursor, e.now)
    ensures e.scenario.consistent && e.scenario.hasIqOffsets && InSchedule(s, e.request, e.scenario)
    ensures Sum(Wanted(s, e.request, e.scenario)) <= 512 && |Live(s.table, s.jobs)| < 8
  {
    hide Inv, SubmitStep, Live, Sum, WellFormed;
    if e.Submit? {
      var reply: Reply :| SubmitStep(s, e.key, e.request, e.scenario, e.cutoff, e.now, s', reply);
      if EarlyReply(s, e.key, e.request).Some? {
        EarlyChangesNothing(s, e.key, e.request, e.scenario, e.cutoff, e.now, s', reply);
      } else {
        NewRequestIsAnswered(env, s, e.key, e.request, e.scenario, e.cutoff, e.now, s', reply);
      }
    } else {
      SameJobs(env, s, e, s');
    }
  }

  lemma EarlyChangesNothing(s: State, key: Key, request: Request, scenario: Scenario, cutoff: int, now: int, s': State, reply: Reply)
    requires EarlyReply(s, key, request).Some? && SubmitStep(s, key, request, scenario, cutoff, now, s', reply)
    ensures s' == s && !reply.Accepted?
  {
  }

  lemma SameJobs(env: Env, s: State, e: Event, s': State)
    requires WellFormed(s) && Next(env, s, e, s') && !e.Submit?
    ensures s'.table.Keys == s.table.Keys && (forall q <- s'.queue :: q in s.queue)
    ensures s'.nextSequence == s.nextSequence
  {
    hide CancelStep, ShutdownStep, WorkStep, WellFormed, SubmitStep;
    if e.Cancel? { CancelFrame(s, e.job); }
    if e.Work? { WorkFrame(env, s, e.choice); }
    if e.Shutdown? && s.shuttingDown { ShutdownTwice(s); }
    if e.Shutdown? && !s.shuttingDown { ShutdownFrame(s); }
  }

  lemma CancelFrame(s: State, x: JobId)
    ensures var s' := CancelStep(s, x).0;
            s'.table.Keys == s.table.Keys && s'.nextSequence == s.nextSequence && forall q <- s'.queue :: q in s.queue
  {
    hide Moved, Terminated;
    RemovedFacts(s.queue, x);
  }

  lemma WorkFrame(env: Env, s: State, c: Choice)
    requires WellFormed(s)
    ensures var s' := WorkStep(env, s, c); s'.table.Keys == s.table.Keys && s'.nextSequence == s.nextSequence && s'.queue == s.queue
  {
    hide WorkJob;
  }

  lemma ShutdownTwice(s: State)
    requires WellFormed(s) && s.shuttingDown
    ensures ShutdownStep(s).0 == s
  {
  }

  lemma TakesStep(env: Env, run: seq<State>, events: seq<Event>, k: nat)
    requires IsRun(env, run, events) && k < |events|
    ensures |run| == |events| + 1 && WellFormed(run[k]) && Next(env, run[k], events[k], run[k + 1])
  {
    hide Next, WellFormed;
  }

  /** Every job of a run was admitted by a submit, and is for exactly what that submit asked, at the
      cursor it found. */
  lemma {:induction false} EveryJobWasAdmitted(env: Env, run: seq<State>, events: seq<Event>, i: nat, j: JobId)
    requires IsRun(env, run, events) && i < |run| && j in run[i].table
    ensures |run| == |events| + 1
    ensures exists k: nat :: k < i && AdmittedAt(run, events, k, j) && var job, e := run[i].table[j], events[k];
              (job.digest, job.request, job.cursor, job.created) == (e.key, e.request, run[k].cursor, e.now)
  {
    hide Next, Inv, WellFormed, Live, Sum, Evolves;
    if i > 0 {
      TakesStep(env, run, events, i - 1);
      hide IsRun;
      if j in run[i - 1].table {
        EveryJobWasAdmitted(env, run, events, i - 1, j);
        RunEvolves(env, run, events, i - 1, i);
        WhatEvolvingKeeps(run[i - 1].table[j], run[i].table[j]);
      } else {
        RunInvariant(env, run, events, i - 1);
        NewRecord(env, run[i - 1], events[i - 1], run[i], j);
        assert AdmittedAt(run, events, i - 1, j);
      }
    }
  }

  // ---- First in, first out -----------------------------------------------------------------------------------------

  /** Step `k` gives job `j` to the idle worker. */
  ghost predicate Takes(run: seq<State>, events: seq<Event>, k: nat, j: JobId)
    requires |run| == |events| + 1
  {
    k < |events| && run[k].worker.Idle? && IsActive(run[k + 1], j)
  }

  ghost predicate Precedes(j: JobId, queue: seq<JobId>) { forall x <- queue :: j < x }

  lemma TakenFromQueue(env: Env, s: State, e: Event, s': State)
    requires Inv(env, s) && WellFormed(s) && Next(env, s, e, s') && s.worker.Idle? && s'.worker.Busy?
    ensures e.Pop? && s.queue != [] && s'.worker == Busy(s.queue[0], Begin) && s'.queue == s.queue[1..] && s'.table == s.table
  {
    hide Inv, WorkJob, Moved, Terminated, ShutdownJob, Unaged, TrimArtifacts, TrimJobs, IdempotencyTrimmed, Admission;
  }

  /** The worker always takes the oldest live job. */
  lemma TakesTheOldest(env: Env, run: seq<State>, events: seq<Event>, k: nat, j: JobId)
    requires IsRun(env, run, events) && |run| == |events| + 1 && Takes(run, events, k, j)
    ensures events[k].Pop? && run[k + 1].worker.pc.Begin? && IsLive(run[k].table, j)
    ensures forall x :: IsLive(run[k].table, x) ==> j <= x
    ensures Precedes(j, run[k + 1].queue)
  {
    hide Next, Inv, WellFormed;
    TakesStep(env, run, events, k);
    hide IsRun;
    RunInvariant(env, run, events, k);
    TakenFromQueue(env, run[k], events[k], run[k + 1]);
    QueueIsLive(env, run[k]);
    IncreasingTail(run[k].queue);
  }

  lemma QueueIsLive(env: Env, s: State)
    requires Inv(env, s)
    ensures Increasing(s.queue) && (forall q <- s.queue :: IsLive(s.table, q) && q < s.nextSequence)
    ensures s.worker.Idle? ==> forall x :: IsLive(s.table, x) ==> x in s.queue
    ensures forall x <- s.table :: x < s.nextSequence
  {
    hide Sound, WorkerInv, EntriesResolve, Tiled, SumBytes;
    assert forall q <- s.queue :: Pristine(s.table[q]);
  }

  lemma QueueGrowsAtTheEnd(env: Env, s: State, e: Event, s': State)
    requires Inv(env, s) && WellFormed(s) && Next(env, s, e, s')
    ensures forall q <- s'.queue :: q in s.queue || q == s.nextSequence
  {
    hide Inv, SubmitStep, WellFormed;
    if e.Submit? {
      var reply: Reply :| SubmitStep(s, e.key, e.request, e.scenario, e.cutoff, e.now, s', reply);
      if EarlyReply(s, e.key, e.request).Some? {
        EarlyChangesNothing(s, e.key, e.request, e.scenario, e.cutoff, e.now, s', reply);
      } else {
        NewRequestIsAnswered(env, s, e.key, e.request, e.scenario, e.cutoff, e.now, s', reply);
      }
    } else {
      SameJobs(env, s, e, s');
    }
  }

  /** Once taken, a job is older than everything that still waits. */
  lemma {:induction false} TakenIsOlder(env: Env, run: seq<State>, events: seq<Event>, k: nat, i: nat, j: JobId)
    requires IsRun(env, run, events) && |run| == |events| + 1 && Takes(run, events, k, j) && k < i < |run|
    ensures Precedes(j, run[i].queue)
  {
    hide Next, Inv, WellFormed, IsRun, Takes;
    if i == k + 1 {
      TakesTheOldest(env, run, events, k, j);
    } else {
      TakenIsOlder(env, run, events, k, i - 1, j);
      TakesStep(env, run, events, i - 1);
      RunInvariant(env, run, events, i - 1);
      QueueGrowsAtTheEnd(env, run[i - 1], events[i - 1], run[i]);
      TakenExists(env, run, events, k, i - 1, j);
      QueueIsLive(env, run[i - 1]);
    }
  }

  lemma TakenExists(env: Env, run: seq<State>, events: seq<Event>, k: nat, i: nat, j: JobId)
    requires IsRun(env, run, events) && |run| == |events| + 1 && Takes(run, events, k, j) && k < i < |run|
    ensures j in run[i].table
  {
    hide Next, Inv, WellFormed, IsRun, Evolves;
    TakesTheOldest(env, run, events, k, j);
    RunEvolves(env, run, events, k, i);
  }

  /** Jobs are begun in the order in which they were accepted. */
  lemma FirstInFirstOut(env: Env, run: seq<State>, events: seq<Event>, k: nat, i: nat, j: JobId, x: JobId)
    requires IsRun(env, run, events) && |run| == |events| + 1 && k < i && Takes(run, events, k, j) && Takes(run, events, i, x)
    ensures j < x
  {
    hide Next, Inv, WellFormed, IsRun;
    TakenIsOlder(env, run, events, k, i, j);
    TakesStep(env, run, events, i);
    RunInvariant(env, run, events, i);
    TakenFromQueue(env, run[i], events[i], run[i + 1]);
    assert run[i].queue[0] in run[i].queue;
  }

  // ---- What leaves -------------------------------------------------------------------------------------------------

  /** At rest, and created before the cutoff. */
  predicate IsOld(s: State, j: JobId, cutoff: int) { j in s.table && IsTerminal(s.table[j].state) && s.table[j].created < cutoff }

  predicate IsRested(s: State, j: JobId) { j in s.table && IsTerminal(s.table[j].state) }

  lemma {:induction false} UnagedSays(table: map<JobId, Job>, jobs: seq<JobId>, cutoff: int, j: JobId)
    ensures j in Unaged(table, jobs, cutoff) <==> j in jobs && !IsAged(table, j, cutoff)
  {
    if jobs != [] {
      UnagedSays(table, jobs[1..], cutoff, j);
      assert j in jobs <==> j == jobs[0] || j in jobs[1..];
    }
  }

  lemma {:induction false} FirstTerminalGoesFirst(table: map<JobId, Job>, jobs: seq<JobId>, a: JobId, b: JobId)
    requires Increasing(jobs) && a in jobs && b in jobs && a < b && !IsLive(table, a)
    ensures var r := WithoutFirstTerminal(table, jobs); b in r && Increasing(r) && (forall x <- r :: x in jobs)
  {
    WithoutFirstTerminalDrops(table, jobs);
    IncreasingTail(jobs);
    if IsLive(table, jobs[0]) && jobs[0] != b { FirstTerminalGoesFirst(table, jobs[1..], a, b); }
  }

  lemma {:induction false} TrimmedInOrder(table: map<JobId, Job>, jobs: seq<JobId>, retained: seq<Artifact>, a: JobId, b: JobId)
    requires Increasing(jobs) && a in jobs && b in jobs && a < b && !IsLive(table, a)
    ensures a in TrimJobs(table, jobs, retained) ==> b in TrimJobs(table, jobs, retained)
    decreases |jobs|
  {
    hide IsFull;
    var fewer := WithoutFirstTerminal(table, jobs);
    FirstTerminalGoesFirst(table, jobs, a, b);
    if IsFull(retained, |jobs|) && fewer != jobs {
      TrimJobsStops(table, fewer, retained);
      if a in fewer { TrimmedInOrder(table, fewer, retained, a, b); }
    }
  }

  /** A request that is neither known nor late sends away every job at rest that is older than the
      cutoff, and takes younger ones oldest first: one that stays keeps every younger one. */
  lemma OldJobsLeaveFirst(env: Env, s: State, key: Key, request: Request, scenario: Scenario, cutoff: int, now: int,
                          s': State, reply: Reply, a: JobId, b: JobId)
    requires Inv(env, s) && EarlyReply(s, key, request).None? && SubmitStep(s, key, request, scenario, cutoff, now, s', reply)
    requires a in s.jobs
    ensures IsOld(s, a, cutoff) ==> a !in s'.jobs
    ensures IsRested(s, a) && b in s.jobs && a < b && !IsOld(s, b, cutoff) && a in s'.jobs ==> b in s'.jobs
  {
    assert Increasing(s.jobs) && a < s.nextSequence by { ListedIsOld(env, s, a); }
    hide Inv, PurgeStep, Live, IsFull, Unaged, TrimArtifacts, TrimJobs, Increasing, Forgetting;
    var s0 := s.(idempotency := s.idempotency - {key});
    var p: State :| PurgeStep(s0, cutoff, p) && (s', reply) == Admitted(p, key, request, scenario, now);
    SubmitPurge(env, s, key, cutoff, p);
    MembersOfAppend(p.jobs, p.nextSequence);
    var young := Unaged(s.table, s.jobs, cutoff);
    var retained := TrimArtifacts(s.retained, |young|);
    assert p.jobs == TrimJobs(s.table, young, retained);
    hide Purged, Admission;
    UnagedSays(s.table, s.jobs, cutoff, a);
    UnagedSays(s.table, s.jobs, cutoff, b);
    UnagedDropsOnlyTerminal(s.table, s.jobs, cutoff);
    TrimJobsStops(s.table, young, retained);
    if a in young && b in young && a < b && IsRested(s, a) { TrimmedInOrder(s.table, young, retained, a, b); }
  }

  lemma ListedIsOld(env: Env, s: State, a: JobId)
    requires Inv(env, s) && a in s.jobs
    ensures Increasing(s.jobs) && a < s.nextSequence
  {
    hide Sound, WorkerInv, EntriesResolve, Tiled, SumBytes;
  }

  /** With room for every job that is not old, nothing else leaves. */
  lemma NothingLeavesWithoutNeed(env: Env, s: State, key: Key, request: Request, scenario: Scenario, cutoff: int, now: int,
                                 s': State, reply: Reply, j: JobId)
    requires Inv(env, s) && EarlyReply(s, key, request).None? && SubmitStep(s, key, request, scenario, cutoff, now, s', reply)
    requires j in s.jobs && !IsOld(s, j, cutoff)
    requires var young := |set x | x in s.jobs && !IsOld(s, x, cutoff)|;
             |s.retained| + young < 32 && SumBytes(s.retained) + (young + 1) * 0x400_0000 <= 0x2000_0000
    ensures j in s'.jobs && s'.retained == s.retained
  {
    ListedIsOld(env, s, j);
    YoungCount(s, s.jobs, cutoff);
    hide Inv, PurgeStep, Live, Unaged, Increasing, Purged, SumBytes;
    var s0 := s.(idempotency := s.idempotency - {key});
    PurgedWithRoom(s0, cutoff);
    hide IsFull, Admission;
    var p: State :| PurgeStep(s0, cutoff, p) && (s', reply) == Admitted(p, key, request, scenario, now);
    SubmitPurge(env, s, key, cutoff, p);
    MembersOfAppend(p.jobs, p.nextSequence);
    UnagedSays(s.table, s.jobs, cutoff, j);
    OldIsAged(s, j, cutoff);
  }

  lemma PurgedWithRoom(s: State, cutoff: int)
    requires !IsFull(s.retained, |Unaged(s.table, s.jobs, cutoff)|)
    ensures Purged(s, cutoff).jobs == Unaged(s.table, s.jobs, cutoff) && Purged(s, cutoff).retained == s.retained
  {
    hide IsFull, Unaged;
  }

  lemma OldIsAged(s: State, j: JobId, cutoff: int)
    ensures IsOld(s, j, cutoff) <==> IsAged(s.table, j, cutoff)
  {
  }

  lemma {:induction false} YoungCount(s: State, jobs: seq<JobId>, cutoff: int)
    requires Increasing(jobs)
    ensures |set x | x in jobs && !IsOld(s, x, cutoff)| == |Unaged(s.table, jobs, cutoff)|
  {
    hide Increasing, IsAged, IsOld;
    if jobs == [] {
      assert (set x | x in jobs && !IsOld(s, x, cutoff)) == {};
    } else {
      IncreasingTail(jobs);
      YoungCount(s, jobs[1..], cutoff);
      OldIsAged(s, jobs[0], cutoff);
      var rest := set x | x in jobs[1..] && !IsOld(s, x, cutoff);
      var here := if IsOld(s, jobs[0], cutoff) then {} else {jobs[0]};
      assert (set x | x in jobs && !IsOld(s, x, cutoff)) == rest + here;
    }
  }

  // ---- Reset -------------------------------------------------------------------------------------------------------

  /** After a reset every key is free again and the next job takes messages from the first on; jobs and
      files stay. The epoch counts the resets that found something to forget. */
  lemma ResetStartsOver(env: Env, s: State, key: Key, request: Request, scenario: Scenario, cutoff: int, now: int,
                        s': State, reply: Reply)
    requires Inv(env, s) && ResetStep(s).1 == Done && !s.shuttingDown
    requires SubmitStep(ResetStep(s).0, key, request, scenario, cutoff, now, s', reply)
    ensures var r := ResetStep(s).0;
            && r.table == s.table && r.jobs == s.jobs && r.retained == s.retained && r.queue == s.queue
            && (r.epoch > s.epoch <==> s.cursor != 0 || s.idempotency != map[])
            && !reply.Reused? && reply != Refused(KeyReused)
            && (reply.Accepted? ==> s'.table == s.table[s.nextSequence := NewJob(key, request, 0, now)])
  {
    hide Inv, SubmitStep;
    ResetKeeps(env, s);
    NewRequestIsAnswered(env, ResetStep(s).0, key, request, scenario, cutoff, now, s', reply);
  }

  /** A cancel is answered `not found` for a job that is not held, is without effect on one at rest, and is
      carried out on every live job; only the cancelled job's record and place in the queue change. */
  lemma CancelIsAnswered(env: Env, s: State, j: JobId)
    requires Inv(env, s)
    ensures var (s', reply) := CancelStep(s, j);
            && (reply == Refused(NotFound) <==> j !in s.jobs) && (reply == Done <==> IsLive(s.table, j))
            && (reply == Unchanged <==> j in s.jobs && !IsLive(s.table, j)) && (reply != Done ==> s' == s)
            && (reply == Done ==> && j in s'.table && s'.table == s.table[j := s'.table[j]] && s'.table[j].cancelRequested
                                  && s' == s.(table := s'.table, queue := s'.queue)
                                  && (forall x :: x in s'.queue <==> x in s.queue && !(x == j && s.table[j].state == Queued)))
  {
    assert IsLive(s.table, j) ==> j in s.jobs by { ListedOrRested(env, s, j); }
    assert forall x <- s.jobs :: x in s.table;
    if IsLive(s.table, j) { CancelKeepsJob(env, s, j); }
    hide Inv, Moved, Terminated, Sound, Evolves, WorkerInv;
    RemovedFacts(s.queue, j);
  }

  lemma ListedOrRested(env: Env, s: State, j: JobId)
    requires Inv(env, s)
    ensures IsLive(s.table, j) ==> j in s.jobs
  {
    hide Sound, WorkerInv, Pristine, Budget, EntriesResolve, Tiled;
  }

  /** A reset is refused for the active job if that is live, otherwise for any live job that waits. */
  lemma ResetIsAnswered(env: Env, s: State)
    requires Inv(env, s)
    ensures var (s', reply) := ResetStep(s); var active := s.worker.Busy? && IsLive(s.table, s.worker.job);
            && (reply == Refused(ActiveJob) <==> active)
            && (reply == Refused(QueuedJobs) <==> !active && exists j :: IsLive(s.table, j))
            && (reply != Done ==> s' == s)
  {
    QueueIsLive(env, s);
    LiveSomewhere(env, s);
    hide Inv, Increasing;
  }

  lemma LiveSomewhere(env: Env, s: State)
    requires Inv(env, s)
    ensures forall j :: IsLive(s.table, j) ==> j in s.queue || IsActive(s, j)
  {
    hide Sound, WorkerInv, Pristine, Budget, EntriesResolve, Tiled;
  }
}
