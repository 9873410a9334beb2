/** The FHSS job controller as the object its callers and its worker thread share. Every public
    method is one critical section; it takes the step of the same name in `JobModel` and extends the
    object's own run, to which the theorems about runs apply. */
module JobControllerObject {
  import opened Prelude
  import opened JobModel
  import opened JobRetention
  import JobRuns
  import JobSafety
  import JobTheorems

  class JobController {
    const env: Env
    var table: map<JobId, Job>
    var jobs: seq<JobId>
    var queue: seq<JobId>
    var idempotency: map<Key, Record>
    var retained: seq<Artifact>
    var retainedBytes: nat
    var cursor: nat
    var epoch: nat
    var nextSequence: JobId
    var worker: Worker
    var shuttingDown: bool
    var stopRequested: bool
    ghost var ledger: seq<JobId>
    ghost var run: seq<State>
    ghost var events: seq<JobRuns.Event>

    ghost function View(): State
      reads this
    {
      State(table, jobs, queue, idempotency, retained, retainedBytes, cursor, epoch, nextSequence,
            worker, shuttingDown, stopRequested, ledger)
    }

    /** What the private steps need. */
    ghost predicate Shaped()
      reads this
    {
      WellFormed(View()) && Increasing(jobs)
    }

    /** The object is the last state of the run that its calls have made. */
    ghost predicate Valid()
      reads this
    {
      WellFormed(View()) && JobRuns.IsRun(env, run, events) && run[|run| - 1] == View()
    }

    lemma Holds()
      requires Valid()
      ensures JobSafety.Inv(env, View()) && Shaped()
      ensures (forall j <- table :: j < nextSequence) && (worker.Busy? ==> worker.job !in queue)
    {
      JobTheorems.RunInvariant(env, run, events, |run| - 1);
    }

    /** Records the step that a call has just taken. */
    ghost method Note(e: JobRuns.Event, before: State)
      requires JobRuns.IsRun(env, run, events) && run[|run| - 1] == before && WellFormed(before)
      requires JobRuns.Next(env, before, e, View())
      modifies this`run, this`events
      ensures Valid() && View() == old(View()) && events == old(events) + [e] && run == old(run) + [View()]
    {
      hide JobRuns.Next;
      JobTheorems.RunGrows(env, run, events, e, View());
      run, events := run + [View()], events + [e];
      assert WellFormed(View()) by { JobTheorems.RunInvariant(env, run, events, |run| - 1); }
    }

    /** A controller over the artifacts that earlier runs left. */
    constructor (env: Env, startEpoch: nat, candidates: seq<Artifact>, cutoff: int)
      ensures Valid() && events == [] && this.env == env && epoch == startEpoch
      ensures Reconciled(candidates, cutoff, retained)
    {
      this.env := env;
      table, jobs, queue, idempotency, ledger := map[], [], [], map[], [];
      cursor, epoch, nextSequence := 0, startEpoch, 1;
      worker, shuttingDown, stopRequested := Idle, false, false;
      retained, retainedBytes := [], 0;
      events := [];
      new;
      ReconcileArtifactsAtStartup(candidates, cutoff);
      run := [View()];
    }

    /** Startup reconciliation: artifacts of earlier runs, oldest first, minus the aged ones and
        then minus the oldest until both limits hold. */
    method ReconcileArtifactsAtStartup(candidates: seq<Artifact>, cutoff: int)
      modifies this`retained, this`retainedBytes
      ensures Reconciled(candidates, cutoff, retained) && retainedBytes == SumBytes(retained)
    {
      hide Ordered, TotalPreorder;
      assert TotalPreorder(Older) by { OlderIsTotal(); }
      var sorted := Sort(candidates, Older);
      var total := TotalBytes(sorted);
      retained, retainedBytes := sorted, total;
      ghost var a := DropOld(cutoff);
      ghost var b := DropExcess();
      LongestSuffix(sorted, cutoff, a, b);
      assert IsLongest(sorted, cutoff, retained);
    }

    method DropOld(cutoff: int) returns (ghost k: nat)
      requires retainedBytes == SumBytes(retained)
      modifies this`retained, this`retainedBytes
      ensures retainedBytes == SumBytes(retained) && k <= |old(retained)| && retained == old(retained)[k..]
      ensures forall i :: 0 <= i < k ==> old(retained)[i].modified < cutoff
      ensures retained != [] ==> retained[0].modified >= cutoff
    {
      k := 0;
      while retained != [] && retained[0].modified < cutoff
        invariant k <= |old(retained)| && retained == old(retained)[k..] && retainedBytes == SumBytes(retained)
        invariant forall i :: 0 <= i < k ==> old(retained)[i].modified < cutoff
        decreases |retained|
      {
        RemoveOldestRetained();
        k := k + 1;
      }
    }

    method DropExcess() returns (ghost k: nat)
      requires retainedBytes == SumBytes(retained)
      modifies this`retained, this`retainedBytes
      ensures retainedBytes == SumBytes(retained) && k <= |old(retained)| && retained == old(retained)[k..]
      ensures WithinLimits(retained) && forall i :: 0 <= i < k ==> !WithinLimits(old(retained)[i..])
    {
      k := 0;
      while |retained| > MAX_JOBS || retainedBytes > RETENTION_QUOTA
        invariant k <= |old(retained)| && retained == old(retained)[k..] && retainedBytes == SumBytes(retained)
        invariant forall i :: 0 <= i < k ==> !WithinLimits(old(retained)[i..])
        decreases |retained|
      {
        RemoveOldestRetained();
        k := k + 1;
      }
    }

    method RemoveOldestRetained()
      requires retainedBytes == SumBytes(retained)
      modifies this`retained, this`retainedBytes
      ensures retained == if old(retained) == [] then [] else old(retained)[1..]
      ensures retainedBytes == SumBytes(retained)
    {
      if retained != [] {
        var artifact := retained[0];
        retained := retained[1..];
        retainedBytes := retainedBytes - artifact.bytes;
      }
    }

    // ---- Retention -------------------------------------------------------------------------------

    /** Erases the job at `i` and its key. */
    method EraseJob(i: nat, ghost whole: seq<JobId>, ghost entries: map<Key, Record>)
      requires Shaped() && i < |jobs| && Elements(jobs) <= Elements(whole)
      requires idempotency == Forgetting(entries, table, whole, jobs)
      modifies this`jobs, this`idempotency
      ensures jobs == old(jobs)[..i] + old(jobs)[i + 1..] && Elements(jobs) <= Elements(whole)
      ensures Shaped() && idempotency == Forgetting(entries, table, whole, jobs)
    {
      ForgetOne(entries, table, whole, jobs, i);
      idempotency := idempotency - {table[jobs[i]].digest};
      jobs := jobs[..i] + jobs[i + 1..];
    }

    method DropAged(cutoff: int)
      requires Shaped()
      modifies this`jobs, this`idempotency
      ensures Shaped() && jobs == Unaged(table, old(jobs), cutoff)
      ensures idempotency == Forgetting(old(idempotency), table, old(jobs), jobs)
    {
      ForgetNothing(idempotency, table, jobs);
      var i := 0;
      while i < |jobs|
        invariant 0 <= i <= |jobs| && Elements(jobs) <= Elements(old(jobs))
        invariant jobs[..i] + Unaged(table, jobs[i..], cutoff) == Unaged(table, old(jobs), cutoff)
        invariant Shaped() && idempotency == Forgetting(old(idempotency), table, old(jobs), jobs)
        decreases |jobs| - i
      {
        hide WellFormed, Forgetting, Elements, Increasing;
        UnagedSplit(table, jobs, i, cutoff);
        if IsAged(table, jobs[i], cutoff) {
          EraseJob(i, old(jobs), old(idempotency));
        } else {
          i := i + 1;
        }
      }
    }

    method TrimRetained()
      requires Shaped()
      modifies this`retained, this`retainedBytes
      ensures Shaped() && retained == TrimArtifacts(old(retained), |jobs|)
    {
      while |retained| + |jobs| >= MAX_JOBS && retained != []
        invariant retainedBytes == SumBytes(retained)
        invariant TrimArtifacts(retained, |jobs|) == TrimArtifacts(old(retained), |jobs|)
        decreases |retained|
      {
        RemoveOldestRetained();
      }
      while retainedBytes + (|jobs| + 1) * IQ_QUOTA > RETENTION_QUOTA && retained != []
        invariant retainedBytes == SumBytes(retained)
        invariant |retained| + |jobs| < MAX_JOBS || retained == []
        invariant TrimArtifacts(retained, |jobs|) == TrimArtifacts(old(retained), |jobs|)
        decreases |retained|
      {
        RemoveOldestRetained();
      }
    }

    /** The first retained job at rest, or the length of the deque. */
    method FindTerminal() returns (i: nat)
      requires Shaped()
      ensures i <= |jobs|
      ensures WithoutFirstTerminal(table, jobs) == if i < |jobs| then jobs[..i] + jobs[i + 1..] else jobs
      ensures i < |jobs| ==> IsTerminal(table[jobs[i]].state)
    {
      i := 0;
      while i < |jobs| && !IsTerminal(table[jobs[i]].state)
        invariant 0 <= i <= |jobs|
        invariant WithoutFirstTerminal(table, jobs) == jobs[..i] + WithoutFirstTerminal(table, jobs[i..])
      {
        TerminalSplit(table, jobs, i);
        i := i + 1;
      }
      if i < |jobs| { TerminalSplit(table, jobs, i); }
    }

    method TrimTerminal()
      requires Shaped()
      modifies this`jobs, this`idempotency
      ensures Shaped() && jobs == TrimJobs(table, old(jobs), retained)
      ensures Elements(jobs) <= Elements(old(jobs))
      ensures idempotency == Forgetting(old(idempotency), table, old(jobs), jobs)
    {
      ForgetNothing(idempotency, table, jobs);
      var more := true;
      while more && (|retained| + |jobs| >= MAX_JOBS || retainedBytes + (|jobs| + 1) * IQ_QUOTA > RETENTION_QUOTA)
        invariant Shaped() && Elements(jobs) <= Elements(old(jobs))
        invariant TrimJobs(table, jobs, retained) == TrimJobs(table, old(jobs), retained)
        invariant !more ==> WithoutFirstTerminal(table, jobs) == jobs
        invariant idempotency == Forgetting(old(idempotency), table, old(jobs), jobs)
        decreases more, |jobs|
      {
        hide Forgetting, Elements, Increasing;
        var i := FindTerminal();
        if i == |jobs| {
          more := false;
        } else {
          EraseJob(i, old(jobs), old(idempotency));
        }
      }
    }

    /** Some job-less or rested entry; which one is up to the hash table. */
    method TrimIdempotency()
      requires Shaped()
      modifies this`idempotency
      ensures Shaped() && IdempotencyTrimmed(old(View()), old(idempotency), idempotency)
    {
      var searching := true;
      while searching && |idempotency| >= MAX_IDEMPOTENCY_ENTRIES
        invariant idempotency.Keys <= old(idempotency).Keys
        invariant forall k <- idempotency :: idempotency[k] == old(idempotency)[k]
        invariant forall k <- old(idempotency) ::
                    k !in idempotency ==> IsDroppable(table, jobs, worker, old(idempotency)[k])
        invariant |old(idempotency)| < MAX_IDEMPOTENCY_ENTRIES ==> idempotency == old(idempotency)
        invariant !searching ==> forall k <- idempotency :: !IsDroppable(table, jobs, worker, idempotency[k])
        decreases searching, |idempotency|
      {
        var droppable := set k | k in idempotency && IsDroppable(table, jobs, worker, idempotency[k]);
        if droppable == {} {
          assert forall k <- idempotency :: k !in droppable;
          searching := false;
        } else {
          var k :| k in droppable;
          SmallerMap(idempotency, k);
          idempotency := idempotency - {k};
        }
      }
    }

    method PurgeUnlocked(cutoff: int)
      requires Shaped()
      modifies this`jobs, this`retained, this`retainedBytes, this`idempotency
      ensures Shaped() && PurgeStep(old(View()), cutoff, View())
    {
      ghost var young := Unaged(table, jobs, cutoff);
      UnagedDropsOnlyTerminal(table, jobs, cutoff);
      hide WellFormed, Unaged, TrimArtifacts, TrimJobs, IsDroppable, Increasing, SumBytes, Forgetting;
      DropAged(cutoff);
      TrimRetained();
      ghost var entries := idempotency;
      TrimTerminal();
      ForgetTwice(old(idempotency), table, old(jobs), young, jobs);
      assert retainedBytes == SumBytes(retained) by { SumOf(View()); }
      TrimIdempotency();
    }

    // ---- Job state ------------------------------------------------------------------------------------

    method Transition(j: JobId, to: JobState) returns (threw: bool)
      requires j in table
      modifies this`table
      ensures threw == Moved(old(table)[j], to).None?
      ensures table == if threw then old(table) else old(table)[j := Moved(old(table)[j], to).value]
    {
      var job := table[j];
      if job.state == to {
        assert table[j := job] == table;
        return false;
      }
      if !IsLegalTransition(job.state, to) {
        return true;
      }
      table := table[j := job.(state := to, history := job.history + [to])];
      return false;
    }

    method Terminal(j: JobId, state: JobState, code: Code)
      requires j in table
      modifies this`table
      ensures table == old(table)[j := Terminated(old(table)[j], state, code)]
    {
      var job := table[j];
      if IsTerminal(job.state) {
        assert table[j := job] == table;
        return;
      }
      var to, why := state, code;
      if job.cancelRequested && to != Cancelled {
        to, why := Cancelled, TerminalPrecedence;
      }
      if job.generation == Pending {
        job := job.(generation := if !job.generatorInvoked then Unavailable(why) else Reported(to, why));
      }
      if !IsLegalTransition(job.state, to) {
        if job.state == Cancelling && to == Cancelled {
          // legal by the table
        } else {
          to, why := Failed, IllegalStateTransition;
        }
      }
      job := job.(state := to, history := job.history + [to], code := Some(why));
      assert job == Terminated(table[j], state, code);
      table := table[j := job];
    }

    // ---- Requests -------------------------------------------------------------------------------------

    method Admit(key: Key, request: Request, scenario: Scenario, now: int) returns (reply: Reply)
      requires Shaped()
      requires forall j <- table :: j < nextSequence
      modifies this`table, this`jobs, this`queue, this`idempotency, this`retained, this`retainedBytes
      modifies this`cursor, this`nextSequence, this`ledger
      ensures Shaped() && (View(), reply) == Admitted(old(View()), key, request, scenario, now)
    {
      if |retained| + |jobs| >= MAX_JOBS || retainedBytes + (|jobs| + 1) * IQ_QUOTA > RETENTION_QUOTA {
        return Refused(HistoryFull);
      }
      if !scenario.consistent {
        return Refused(ConfigurationChanged);
      }
      if scenario.pulses == [] {
        return Refused(NoMessages);
      }
      if cursor + request.count > |scenario.pulses| {
        return Refused(CursorExhausted);
      }
      var pulses := Total(scenario.pulses[cursor..cursor + request.count]);
      if pulses > MAX_PULSES {
        return Refused(PulseQuota);
      }
      if !scenario.hasIqOffsets {
        return Refused(NoIqMap);
      }
      reply := Enrol(key, request, now);
    }

    method Enrol(key: Key, request: Request, now: int) returns (reply: Reply)
      requires Shaped()
      requires forall j <- table :: j < nextSequence
      modifies this`table, this`jobs, this`queue, this`idempotency, this`retained, this`retainedBytes
      modifies this`cursor, this`nextSequence, this`ledger
      ensures Shaped() && View() == Enrolled(old(View()), key, request, now) && reply == Accepted(old(nextSequence))
    {
      hide Increasing, NewJob, WellFormed;
      EnrolledValid(View(), key, request, now);
      var j := nextSequence;
      nextSequence := nextSequence + 1;
      table := table[j := NewJob(key, request, cursor, now)];
      cursor := cursor + request.count;
      jobs := jobs + [j];
      queue := queue + [j];
      ledger := ledger + [j];
      idempotency := idempotency[key := Record(request, j)];
      return Accepted(j);
    }

    /** A request under a key that resolves to no job. */
    method SubmitNew(key: Key, request: Request, scenario: Scenario, cutoff: int, now: int)
      returns (reply: Reply, ghost purged: State)
      requires Shaped()
      requires forall j <- table :: j < nextSequence
      modifies this`table, this`jobs, this`queue, this`idempotency, this`retained, this`retainedBytes
      modifies this`cursor, this`nextSequence, this`ledger
      ensures Shaped() && PurgeStep(old(View()).(idempotency := old(idempotency) - {key}), cutoff, purged)
      ensures (View(), reply) == Admitted(purged, key, request, scenario, now)
    {
      hide PurgeStep, Increasing, SumBytes, Admitted;
      idempotency := idempotency - {key};
      assert View() == old(View()).(idempotency := old(idempotency) - {key});
      PurgeUnlocked(cutoff);
      purged := View();
      reply := Admit(key, request, scenario, now);
    }

    method Submit(key: Key, request: Request, scenario: Scenario, cutoff: int, now: int) returns (reply: Reply)
      requires Valid()
      modifies this
      ensures Valid() && events == old(events) + [JobRuns.Submit(key, request, scenario, cutoff, now)]
      ensures SubmitStep(old(View()), key, request, scenario, cutoff, now, View(), reply)
    {
      hide JobRuns.IsRun, JobSafety.Inv, SubmitStep, WellFormed;
      Holds();
      ghost var before := View();
      reply := SubmitLocked(key, request, scenario, cutoff, now);
      Note(JobRuns.Submit(key, request, scenario, cutoff, now), before);
    }

    method SubmitLocked(key: Key, request: Request, scenario: Scenario, cutoff: int, now: int) returns (reply: Reply)
      requires Shaped()
      requires forall j <- table :: j < nextSequence
      modifies this`table, this`jobs, this`queue, this`idempotency, this`retained, this`retainedBytes
      modifies this`cursor, this`nextSequence, this`ledger
      ensures Shaped()
      ensures SubmitStep(old(View()), key, request, scenario, cutoff, now, View(), reply)
    {
      hide PurgeStep, Increasing, Admitted, WellFormed;
      if shuttingDown {
        return Refused(ShuttingDown);
      }
      if key in idempotency && idempotency[key].request != request {
        return Refused(KeyReused);
      }
      if key in idempotency && IsAlive(jobs, worker, idempotency[key].job) {
        return Reused(idempotency[key].job);
      }
      ghost var purged;
      reply, purged := SubmitNew(key, request, scenario, cutoff, now);
    }

    method Cancel(j: JobId) returns (reply: Reply)
      requires Valid()
      modifies this`table, this`queue, this`run, this`events
      ensures Valid() && events == old(events) + [JobRuns.Cancel(j)]
      ensures (View(), reply) == CancelStep(old(View()), j)
    {
      hide JobRuns.IsRun, JobSafety.Inv, CancelStep, WellFormed;
      Holds();
      ghost var before := View();
      reply := CancelLocked(j);
      Note(JobRuns.Cancel(j), before);
    }

    method CancelLocked(j: JobId) returns (reply: Reply)
      requires Shaped()
      modifies this`table, this`queue
      ensures (View(), reply) == CancelStep(old(View()), j)
    {
      if j !in jobs {
        return Refused(NotFound);
      }
      if IsTerminal(table[j].state) {
        return Unchanged;
      }
      var state := table[j].state;
      table := table[j := table[j].(cancelRequested := true)];
      if state == Queued {
        queue := Erase(queue, j);
        Terminal(j, Cancelled, CancelledBeforeGeneration);
      } else if state != Cancelling {
        var threw := Transition(j, Cancelling);
      }
      assert table == old(table)[j := table[j]];
      return Done;
    }

    method Reset() returns (reply: Reply)
      requires Valid()
      modifies this`cursor, this`idempotency, this`epoch, this`ledger, this`run, this`events
      ensures Valid() && events == old(events) + [JobRuns.Reset]
      ensures (View(), reply) == ResetStep(old(View()))
    {
      hide JobRuns.IsRun, JobSafety.Inv, ResetStep, WellFormed;
      Holds();
      ghost var before := View();
      reply := ResetLocked();
      Note(JobRuns.Reset, before);
    }

    method ResetLocked() returns (reply: Reply)
      requires Shaped()
      modifies this`cursor, this`idempotency, this`epoch, this`ledger
      ensures (View(), reply) == ResetStep(old(View()))
    {
      if worker.Busy? && !IsTerminal(table[worker.job].state) {
        return Refused(ActiveJob);
      }
      if exists j <- queue :: !IsTerminal(table[j].state) {
        return Refused(QueuedJobs);
      }
      var already := cursor == 0 && idempotency == map[];
      if !already {
        epoch := epoch + 1;
      }
      cursor, idempotency, ledger := 0, map[], [];
      return Done;
    }

    /** The locked part of `Shutdown`; `threw` is an illegal `Transition` escaping it. */
    method Shutdown() returns (threw: bool)
      requires Valid()
      modifies this`table, this`queue, this`shuttingDown, this`run, this`events
      ensures Valid() && events == old(events) + [JobRuns.Shutdown]
      ensures (View(), threw) == ShutdownStep(old(View()))
    {
      hide JobRuns.IsRun, JobSafety.Inv, ShutdownStep, WellFormed;
      Holds();
      ghost var before := View();
      threw := ShutdownLocked();
      Note(JobRuns.Shutdown, before);
    }

    method ShutdownLocked() returns (threw: bool)
      requires Shaped() && (worker.Busy? ==> worker.job !in queue)
      modifies this`table, this`queue, this`shuttingDown
      ensures (View(), threw) == ShutdownStep(old(View()))
    {
      threw := false;
      if shuttingDown {
        return;
      }
      shuttingDown := true;
      CancelQueue();
      queue := [];
      if worker.Busy? {
        threw := FlagActive();
      }
    }

    method CancelQueue()
      requires Shaped()
      modifies this`table
      ensures table == map j <- old(table) :: if j in queue then ShutdownJob(old(table)[j]) else old(table)[j]
    {
      for i := 0 to |queue|
        invariant table.Keys == old(table).Keys
        invariant forall j <- table :: table[j] == if j in queue[..i] then ShutdownJob(old(table)[j]) else old(table)[j]
      {
        var j := queue[i];
        assert queue[..i + 1] == queue[..i] + [j];
        ShutdownTwice(old(table)[j]);
        if !IsTerminal(table[j].state) {
          table := table[j := table[j].(cancelRequested := true)];
          Terminal(j, Cancelled, ApplicationShutdown);
        }
      }
      assert queue[..|queue|] == queue;
    }

    method FlagActive() returns (threw: bool)
      requires worker.Busy? && worker.job in table
      modifies this`table
      ensures var flagged := old(table)[worker.job].(cancelRequested := true);
              && threw == (!IsTerminal(flagged.state) && Moved(flagged, Cancelling).None?)
              && table == old(table)[worker.job := if IsTerminal(flagged.state) || threw then flagged
                                                   else Moved(flagged, Cancelling).value]
    {
      var j := worker.job;
      table := table[j := table[j].(cancelRequested := true)];
      threw := false;
      if !IsTerminal(table[j].state) && table[j].state != Cancelling {
        threw := Transition(j, Cancelling);
      }
    }

    method RequestStop()
      requires Valid()
      modifies this`stopRequested, this`run, this`events
      ensures Valid() && events == old(events) + [JobRuns.RequestStop]
      ensures View() == StopStep(old(View()))
    {
      hide JobRuns.IsRun, JobSafety.Inv, WellFormed;
      Holds();
      ghost var before := View();
      if shuttingDown {
        stopRequested := true;
      }
      Note(JobRuns.RequestStop, before);
    }

    // ---- Worker -----------------------------------------------------------------------------------------

    method PopNext()
      requires Valid()
      modifies this`worker, this`queue, this`run, this`events
      ensures Valid() && events == old(events) + [JobRuns.Pop]
      ensures View() == PopStep(old(View()))
    {
      hide JobRuns.IsRun, JobSafety.Inv, WellFormed;
      Holds();
      ghost var before := View();
      if worker.Idle? && !shuttingDown && !stopRequested && queue != [] {
        worker := Busy(queue[0], Begin);
        queue := queue[1..];
      }
      Note(JobRuns.Pop, before);
    }

    /** `Terminal` followed by the return from `Process`. */
    method Finish(j: JobId, state: JobState, code: Code)
      requires j in table
      modifies this`table, this`worker
      ensures table == old(table)[j := Terminated(old(table)[j], state, code)] && worker == Busy(j, Exit)
    {
      Terminal(j, state, code);
      worker := Busy(j, Exit);
    }

    /** The guard writes the truth file back before the job ends. */
    method RestoreAndFinish(env: Env, j: JobId, out: Output, state: JobState, code: Code)
      requires j in table
      modifies this`table, this`worker
      ensures table == old(table)[j := Terminated(Restored(env, old(table)[j], out), state, code)]
      ensures worker == Busy(j, Exit)
    {
      table := table[j := Restored(env, table[j], out)];
      Finish(j, state, code);
    }

    method BeginGeneration(env: Env, j: JobId, c: Choice)
      requires worker == Busy(j, Begin) && j in table
      modifies this`table, this`worker
      ensures var (job, pc) := WorkJob(env, old(table)[j], Begin, stopRequested, c);
              table == old(table)[j := job] && worker == Busy(j, pc)
    {
      if table[j].cancelRequested {
        Finish(j, Cancelled, CancelledBeforeGeneration);
        return;
      }
      var threw := Transition(j, Generating);
      if threw {
        Finish(j, Failed, IllegalTransitionThrown);
      } else {
        table := table[j := table[j].(generatorInvoked := true)];
        worker := Busy(j, Generate);
      }
    }

    method FinishGeneration(env: Env, j: JobId, c: Choice)
      requires worker == Busy(j, Generate) && j in table
      modifies this`table, this`worker
      ensures var (job, pc) := WorkJob(env, old(table)[j], Generate, stopRequested, c);
              table == old(table)[j := job] && worker == Busy(j, pc)
    {
      if c.fault.Some? {
        Finish(j, Failed, Thrown(c.fault.value));
      } else if table[j].cancelRequested || stopRequested {
        Finish(j, Cancelled, CancelledDuringGeneration);
      } else if c.expired {
        Finish(j, TimedOut, JobTimeout);
      } else {
        worker := Busy(j, Write(c.out));
      }
    }

    method FinishWriting(env: Env, j: JobId, out: Output, c: Choice)
      requires worker == Busy(j, Write(out)) && j in table
      modifies this`table, this`worker
      ensures var (job, pc) := WorkJob(env, old(table)[j], Write(out), stopRequested, c);
              table == old(table)[j := job] && worker == Busy(j, pc)
    {
      if c.fault.Some? {
        Finish(j, Failed, Thrown(c.fault.value));
      } else if table[j].cancelRequested || stopRequested {
        Finish(j, Cancelled, CancelledDuringArtifactWrite);
      } else if c.expired {
        Finish(j, TimedOut, JobTimeout);
      } else {
        worker := Busy(j, Commit(out));
      }
    }

    /** With the guard alive and a cancel pending. */
    method CancelWithheld(env: Env, j: JobId, out: Output, code: Code)
      requires j in table
      modifies this`table, this`worker
      ensures table == old(table)[j := CancelledAfterWithholding(env, old(table)[j], out, code)]
      ensures worker == Busy(j, Exit)
    {
      var threw := Transition(j, Cancelling);
      if threw {
        RestoreAndFinish(env, j, out, Failed, IllegalTransitionThrown);
      } else {
        RestoreAndFinish(env, j, out, Cancelled, code);
      }
    }

    method FinishCommit(env: Env, j: JobId, out: Output, c: Choice)
      requires worker == Busy(j, Commit(out)) && j in table
      modifies this`table, this`worker
      ensures var (job, pc) := WorkJob(env, old(table)[j], Commit(out), stopRequested, c);
              table == old(table)[j := job] && worker == Busy(j, pc)
    {
      hide Terminated, Restored, Moved, IsLegalTransition, Unwound, FaultInCommit;
      if c.fault.Some? {
        FailCommit(env, j, out, c);
        return;
      }
      // files committed, truth removed, artifacts recorded
      table := table[j := Withheld(env, table[j], out)];
      if table[j].cancelRequested || stopRequested {
        CancelWithheld(env, j, out, CancelledBeforeReplay);
      } else if c.expired {
        RestoreAndFinish(env, j, out, TimedOut, JobTimeout);
      } else {
        AnnounceGenerated(env, j, out);
      }
    }

    method FailCommit(env: Env, j: JobId, out: Output, c: Choice)
      requires c.fault.Some? && j in table
      modifies this`table, this`worker
      ensures table == old(table)[j := FaultInCommit(env, old(table)[j], out, c)] && worker == Busy(j, Exit)
    {
      match c.point {
        case BeforeCommit =>
          Finish(j, Failed, Thrown(c.fault.value));
        case AfterCommit =>
          table := table[j := table[j].(files := AllFiles(env, out))];
          Finish(j, Failed, Thrown(c.fault.value));
        case AfterWithholding =>
          table := table[j := table[j].(files := AllFiles(env, out) - {Truth})];
          RestoreAndFinish(env, j, out, Failed, Thrown(c.fault.value));
        case AfterRecording =>
          table := table[j := Withheld(env, table[j], out).(artifacts := Some(Digests(env, out) - {Manifest}))];
          RestoreAndFinish(env, j, out, Failed, Thrown(c.fault.value));
      }
    }

    method AnnounceGenerated(env: Env, j: JobId, out: Output)
      requires j in table
      modifies this`table, this`worker
      ensures var held := old(table)[j];
              var generated := Moved(held.(generation := Succeeded), Generated);
              if generated.None? then
                table == old(table)[j := Unwound(env, held.(generation := Succeeded), out, IllegalTransitionThrown)] && worker == Busy(j, Exit)
              else if Moved(generated.value, ReplayPending).None? then
                table == old(table)[j := Unwound(env, generated.value, out, IllegalTransitionThrown)] && worker == Busy(j, Exit)
              else
                table == old(table)[j := Moved(generated.value, ReplayPending).value] && worker == Busy(j, Rebuild(out))
    {
      table := table[j := table[j].(generation := Succeeded)];
      var threw := Transition(j, Generated);
      if !threw {
        threw := Transition(j, ReplayPending);
      }
      if threw {
        RestoreAndFinish(env, j, out, Failed, IllegalTransitionThrown);
      } else {
        worker := Busy(j, Rebuild(out));
      }
    }

    method FinishRebuild(env: Env, j: JobId, out: Output, c: Choice)
      requires worker == Busy(j, Rebuild(out)) && j in table
      modifies this`table, this`worker
      ensures var (job, pc) := WorkJob(env, old(table)[j], Rebuild(out), stopRequested, c);
              table == old(table)[j := job] && worker == Busy(j, pc)
    {
      if c.fault.Some? {
        RestoreAndFinish(env, j, out, Failed, Thrown(c.fault.value));
      } else if c.refused {
        RestoreAndFinish(env, j, out, Failed, ReceiverBuildFailed);
      } else if table[j].cancelRequested || stopRequested {
        CancelWithheld(env, j, out, CancelledBeforeReceiverStart);
      } else if c.expired {
        RestoreAndFinish(env, j, out, TimedOut, JobTimeout);
      } else {
        worker := Busy(j, StartReceiver(out));
      }
    }

    method FinishStart(env: Env, j: JobId, out: Output, c: Choice)
      requires worker == Busy(j, StartReceiver(out)) && j in table
      modifies this`table, this`worker
      ensures var (job, pc) := WorkJob(env, old(table)[j], StartReceiver(out), stopRequested, c);
              table == old(table)[j := job] && worker == Busy(j, pc)
    {
      if c.fault.Some? {
        RestoreAndFinish(env, j, out, Failed, Thrown(c.fault.value));
        return;
      }
      if c.refused {
        RestoreAndFinish(env, j, out, Failed, ReceiverStartFailed);
        return;
      }
      table := table[j := table[j].(replayInvoked := true)];
      var cancelled := table[j].cancelRequested || stopRequested;
      var threw := Transition(j, if cancelled then Cancelling else Running);
      if threw {
        RestoreAndFinish(env, j, out, Failed, IllegalTransitionThrown);
      } else {
        worker := Busy(j, if cancelled then AbandonStart(out) else Poll(out));
      }
    }

    method AfterPoll(env: Env, j: JobId, out: Output, sawCancel: bool, c: Choice)
      requires worker == Busy(j, Polled(out, sawCancel)) && j in table
      modifies this`table, this`worker
      ensures var (job, pc) := WorkJob(env, old(table)[j], Polled(out, sawCancel), stopRequested, c);
              table == old(table)[j := job] && worker == Busy(j, pc)
    {
      if c.fault.Some? {
        RestoreAndFinish(env, j, out, Failed, Thrown(c.fault.value));
      } else if sawCancel {
        RestoreAndFinish(env, j, out, Cancelled, CancelledDuringReplay);
      } else if c.expired {
        RestoreAndFinish(env, j, out, TimedOut, JobTimeout);
      } else if c.finished {
        worker := Busy(j, Observe(out));
      } else {
        worker := Busy(j, Poll(out));
      }
    }

    /** The replay ends as given unless an exception unwinds it first. */
    method EndReplay(env: Env, j: JobId, out: Output, c: Choice, state: JobState, code: Code)
      requires j in table
      modifies this`table, this`worker
      ensures table == old(table)[j := if c.fault.Some? then Unwound(env, old(table)[j], out, Thrown(c.fault.value))
                                       else Terminated(Restored(env, old(table)[j], out), state, code)]
      ensures worker == Busy(j, Exit)
    {
      if c.fault.Some? {
        RestoreAndFinish(env, j, out, Failed, Thrown(c.fault.value));
      } else {
        RestoreAndFinish(env, j, out, state, code);
      }
    }

    /** One critical section of `Process`, with the private work before it; at the end of
        `Process` the worker lets go of the job. */
    method Process(c: Choice)
      requires Valid()
      modifies this`table, this`worker, this`run, this`events
      ensures Valid() && events == old(events) + [JobRuns.Work(c)]
      ensures View() == WorkStep(env, old(View()), c)
    {
      hide JobRuns.IsRun, JobSafety.Inv, WorkStep, WellFormed;
      Holds();
      ghost var before := View();
      ProcessStep(c);
      Note(JobRuns.Work(c), before);
    }

    method ProcessStep(c: Choice)
      requires Shaped()
      modifies this`table, this`worker
      ensures View() == WorkStep(env, old(View()), c)
    {
      hide Terminated, Restored, AfterCommitStep, AfterStartStep, FaultInCommit, CancelledAfterWithholding, Moved;
      if worker.Idle? {
        return;
      }
      var j := worker.job;
      match worker.pc
      case Exit => worker := Idle;
      case Begin => BeginGeneration(env, j, c);
      case Generate => FinishGeneration(env, j, c);
      case Write(out) => FinishWriting(env, j, out, c);
      case Commit(out) => FinishCommit(env, j, out, c);
      case Rebuild(out) => FinishRebuild(env, j, out, c);
      case StartReceiver(out) => FinishStart(env, j, out, c);
      case AbandonStart(out) => EndReplay(env, j, out, c, Cancelled, CancelledDuringReceiverStart);
      case Poll(out) => worker := Busy(j, Polled(out, table[j].cancelRequested || stopRequested));
      case Polled(out, sawCancel) => AfterPoll(env, j, out, sawCancel, c);
      case Observe(out) =>
        if c.fault.Some? {
          EndReplay(env, j, out, c, Failed, Thrown(c.fault.value));
        } else {
          worker := Busy(j, Conclude(out, c.completed, c.accepted));
        }
      case Conclude(out, completed, accepted) =>
        if !completed {
          EndReplay(env, j, out, c, Failed, ReceiverExecutionFailed);
        } else if !accepted {
          EndReplay(env, j, out, c, Failed, MissingReceiverMessage);
        } else {
          EndReplay(env, j, out, c, Completed, JobCompleted);
        }
    }
  }

  // ---- Sequence facts ------------------------------------------------------------------------------

  method TotalBytes(a: seq<Artifact>) returns (total: nat)
    ensures total == SumBytes(a)
  {
    total := 0;
    for i := 0 to |a|
      invariant total == SumBytes(a[..i])
    {
      SumAppend(a[..i], a[i]);
      assert a[..i] + [a[i]] == a[..i + 1];
      total := total + a[i].bytes;
    }
    assert a[..|a|] == a;
  }

  lemma {:induction false} SumAppend(a: seq<Artifact>, x: Artifact)
    ensures SumBytes(a + [x]) == SumBytes(a) + x.bytes
  {
    if a == [] {
      assert a + [x] == [x];
    } else {
      SumAppend(a[1..], x);
      assert (a + [x])[1..] == a[1..] + [x];
    }
  }

  predicate Older(a: Artifact, b: Artifact) { a.modified <= b.modified }

  lemma OlderIsTotal()
    ensures TotalPreorder(Older)
  {
  }

  predicate WithinLimits(a: seq<Artifact>) { |a| <= MAX_JOBS && SumBytes(a) <= RETENTION_QUOTA }

  ghost predicate Keepable(a: seq<Artifact>, cutoff: int) {
    WithinLimits(a) && forall x <- a :: x.modified >= cutoff
  }

  /** `kept` is the longest keepable suffix of `sorted`. */
  ghost predicate IsLongest(sorted: seq<Artifact>, cutoff: int, kept: seq<Artifact>) {
    exists k :: 0 <= k <= |sorted| && kept == sorted[k..] && Keepable(sorted[k..], cutoff)
                && forall i :: 0 <= i < k ==> !Keepable(sorted[i..], cutoff)
  }

  /** What is kept at startup: the longest suffix of the candidates, oldest first, that holds no
      aged artifact and fits both limits. */
  ghost predicate Reconciled(candidates: seq<Artifact>, cutoff: int, kept: seq<Artifact>) {
    exists sorted :: multiset(sorted) == multiset(candidates) && Ordered(Older, sorted) && IsLongest(sorted, cutoff, kept)
  }

  lemma LongestSuffix(sorted: seq<Artifact>, cutoff: int, a: nat, b: nat)
    requires Ordered(Older, sorted) && a <= |sorted| && b <= |sorted[a..]|
    requires forall i :: 0 <= i < a ==> sorted[i].modified < cutoff
    requires a < |sorted| ==> sorted[a].modified >= cutoff
    requires WithinLimits(sorted[a..][b..]) && forall i :: 0 <= i < b ==> !WithinLimits(sorted[a..][i..])
    ensures IsLongest(sorted, cutoff, sorted[a..][b..])
  {
    var k := a + b;
    assert sorted[a..][b..] == sorted[k..];
    forall x <- sorted[k..] ensures x.modified >= cutoff {
      var i :| 0 <= i < |sorted[k..]| && sorted[k..][i] == x;
      assert sorted[k + i] == x && (k + i > a ==> Older(sorted[a], sorted[k + i]));
    }
    forall i | 0 <= i < k ensures !Keepable(sorted[i..], cutoff) {
      if i < a { assert sorted[i..][0] == sorted[i] && sorted[i] in sorted[i..]; } else { assert sorted[a..][i - a..] == sorted[i..]; }
    }
  }

  method Total(s: seq<nat>) returns (total: nat)
    ensures total == Sum(s)
  {
    total := 0;
    for i := 0 to |s|
      invariant total == Sum(s[..i])
    {
      SumPlus(s[..i], s[i]);
      assert s[..i] + [s[i]] == s[..i + 1];
      total := total + s[i];
    }
    assert s[..|s|] == s;
  }

  lemma {:induction false} SumPlus(s: seq<nat>, x: nat)
    ensures Sum(s + [x]) == Sum(s) + x
  {
    if s == [] {
      assert s + [x] == [x];
    } else {
      SumPlus(s[1..], x);
      assert (s + [x])[1..] == s[1..] + [x];
    }
  }

  lemma EnrolledValid(s: State, key: Key, request: Request, now: int)
    requires WellFormed(s) && Increasing(s.jobs) && forall j <- s.table :: j < s.nextSequence
    ensures WellFormed(Enrolled(s, key, request, now)) && Increasing(Enrolled(s, key, request, now).jobs)
  {
    hide Increasing, SumBytes, NewJob;
    IncreasingAppend(s.jobs, s.nextSequence);
  }

  lemma TerminalSplit(table: map<JobId, Job>, jobs: seq<JobId>, i: nat)
    requires i < |jobs|
    ensures jobs[..i] + WithoutFirstTerminal(table, jobs[i..]) ==
            if IsLive(table, jobs[i]) then jobs[..i + 1] + WithoutFirstTerminal(table, jobs[i + 1..])
            else jobs[..i] + jobs[i + 1..]
  {
    var tail := jobs[i..];
    var rest := WithoutFirstTerminal(table, jobs[i + 1..]);
    assert tail[0] == jobs[i] && tail[1..] == jobs[i + 1..];
    assert WithoutFirstTerminal(table, tail) == if IsLive(table, jobs[i]) then [jobs[i]] + rest else jobs[i + 1..];
    assert jobs[..i] + ([jobs[i]] + rest) == jobs[..i + 1] + rest;
  }

  /** A second visit to a cancelled job changes nothing. */
  lemma ShutdownTwice(job: Job)
    ensures ShutdownJob(ShutdownJob(job)) == ShutdownJob(job)
  {
  }

  lemma SmallerMap(m: map<Key, Record>, k: Key)
    requires k in m
    ensures |m - {k}| < |m|
  {
    assert (m - {k}).Keys == m.Keys - {k};
  }

  lemma SumOf(s: State)
    requires WellFormed(s)
    ensures s.retainedBytes == SumBytes(s.retained)
  {
  }

  lemma ForgetTwice(entries: map<Key, Record>, table: map<JobId, Job>, whole: seq<JobId>, mid: seq<JobId>, part: seq<JobId>)
    requires Elements(part) <= Elements(mid) <= Elements(whole)
    ensures Forgetting(Forgetting(entries, table, whole, mid), table, mid, part) == Forgetting(entries, table, whole, part)
  {
    assert Elements(whole) - Elements(part) == (Elements(whole) - Elements(mid)) + (Elements(mid) - Elements(part));
    assert DigestsOf(table, Elements(whole) - Elements(part)) ==
           DigestsOf(table, Elements(whole) - Elements(mid)) + DigestsOf(table, Elements(mid) - Elements(part));
  }

  lemma ForgetNothing(entries: map<Key, Record>, table: map<JobId, Job>, jobs: seq<JobId>)
    ensures Forgetting(entries, table, jobs, jobs) == entries
  {
    assert DigestsOf(table, Elements(jobs) - Elements(jobs)) == {};
  }

  lemma ForgetOne(entries: map<Key, Record>, table: map<JobId, Job>, whole: seq<JobId>, part: seq<JobId>, i: nat)
    requires Increasing(part) && i < |part| && Elements(part) <= Elements(whole) && part[i] in table
    ensures var r := part[..i] + part[i + 1..];
            && Increasing(r) && Elements(r) == Elements(part) - {part[i]}
            && Forgetting(entries, table, whole, part) - {table[part[i]].digest} == Forgetting(entries, table, whole, r)
  {
    var r := part[..i] + part[i + 1..];
    RemoveAt(part, i);
    assert Elements(whole) - Elements(r) == (Elements(whole) - Elements(part)) + {part[i]};
    assert DigestsOf(table, Elements(whole) - Elements(r)) ==
           DigestsOf(table, Elements(whole) - Elements(part)) + {table[part[i]].digest};
  }

  /** The head of the unvisited part is either skipped over or cut out. */
  lemma UnagedSplit(table: map<JobId, Job>, jobs: seq<JobId>, i: nat, cutoff: int)
    requires i < |jobs|
    ensures var cut := jobs[..i] + jobs[i + 1..];
            if IsAged(table, jobs[i], cutoff)
            then cut[..i] + Unaged(table, cut[i..], cutoff) == jobs[..i] + Unaged(table, jobs[i..], cutoff)
            else jobs[..i + 1] + Unaged(table, jobs[i + 1..], cutoff) == jobs[..i] + Unaged(table, jobs[i..], cutoff)
  {
    var cut := jobs[..i] + jobs[i + 1..];
    assert jobs[i..][1..] == jobs[i + 1..] && cut[i..] == jobs[i + 1..] && cut[..i] == jobs[..i];
    assert jobs[..i + 1] == jobs[..i] + [jobs[i]];
  }

  /** Taking one element out of an increasing sequence. */
  lemma RemoveAt(s: seq<JobId>, i: nat)
    requires Increasing(s) && i < |s|
    ensures var r := s[..i] + s[i + 1..];
            Increasing(r) && Elements(r) == Elements(s) - {s[i]} && r[i..] == s[i + 1..] && r[..i] == s[..i]
  {
    var r := s[..i] + s[i + 1..];
    forall x ensures x in r <==> x in s && x != s[i] {
      if x in s && x != s[i] {
        var k :| 0 <= k < |s| && s[k] == x;
        if k < i { assert r[k] == x; } else { assert r[k - 1] == x; }
      }
    }
  }
}
