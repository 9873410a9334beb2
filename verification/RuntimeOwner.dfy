/** The receiver runtime owner: one executor, one execution thread at a time. */
module RuntimeOwner {
  import opened Prelude

  type ExecutorId = nat
  type ThreadId = nat

  /** `Launched` covers the preflight; `Flagged` threads have published `execution_finished_` and may
      still be delivering the completion callback. */
  datatype Phase = Launched | Running | Ran | Flagged | Exited

  datatype Thread = Thread(executor: ExecutorId, generation: nat, phase: Phase)

  /** One call of `Execute`. */
  datatype Execution = Execution(executor: ExecutorId, generation: nat)

  datatype State = State(executor: Option<ExecutorId>, used: bool, generation: nat, finished: bool,
                         current: Option<ThreadId>, threads: map<ThreadId, Thread>, nextExecutor: ExecutorId,
                         nextThread: ThreadId, executions: seq<Execution>)

  /** How a start that gets as far as launching its thread ends: preparing the attempt or creating
      the thread may throw. */
  datatype Launch = Runs | PrepareThrows | ThreadThrows

  datatype Event =
    | Rebuild(generation: nat, builds: bool)
    | Start(generation: nat, builds: bool, launch: Launch)
    | Stop(generation: nat)
    | Shutdown
    | Preflighted(thread: ThreadId, passes: bool)
    | Executed(thread: ThreadId)
    | Publish(thread: ThreadId)
    | Leave(thread: ThreadId)

  // ---- The owner's operations, under its operation lock ------------------------------------------------------

  /** `join` returns when the thread has left. */
  function Joined(s: State): State
    requires s.current.Some? ==> s.current.value in s.threads
  {
    if s.current.None? then s
    else
      var t := s.current.value;
      s.(current := None, threads := s.threads[t := s.threads[t].(phase := Exited)])
  }

  function RebuildStep(s: State, generation: nat, builds: bool): State
    requires s.current.Some? ==> s.current.value in s.threads
  {
    if s.current.Some? && !s.finished then s
    else
      var j := Joined(s);
      if !builds then j
      else j.(executor := Some(s.nextExecutor), nextExecutor := s.nextExecutor + 1, used := false, generation := generation)
  }

  /** A used executor is replaced before the run; a failed replacement leaves the old one in place. */
  function StartStep(s: State, generation: nat, builds: bool, launch: Launch): State
    requires s.current.Some? ==> s.current.value in s.threads
  {
    if generation != s.generation || s.executor.None? || (s.current.Some? && !s.finished) then s
    else
      var j := Joined(s);
      if s.used && !builds then j
      else
        Launching(if s.used then j.(executor := Some(s.nextExecutor), nextExecutor := s.nextExecutor + 1) else j, generation, launch)
  }

  /** The end of a start: the attempt is prepared, then the thread is created. */
  function Launching(r: State, generation: nat, launch: Launch): State
    requires r.executor.Some?
  {
    match launch
    case PrepareThrows => r.(finished := false)
    case ThreadThrows => r.(finished := false, used := true)
    case Runs =>
      r.(finished := false, used := true, current := Some(r.nextThread), nextThread := r.nextThread + 1,
         threads := r.threads[r.nextThread := Thread(r.executor.value, generation, Launched)])
  }

  /** The wait either sees the flag and joins, or times out and changes nothing. */
  function StopStep(s: State): State
    requires s.current.Some? ==> s.current.value in s.threads
  {
    if s.current.Some? && s.finished then Joined(s) else s
  }

  // ---- The execution thread -----------------------------------------------------------------------------------

  function Advance(s: State, t: ThreadId, from: Phase, to: Phase): State {
    if t in s.threads && s.threads[t].phase == from then s.(threads := s.threads[t := s.threads[t].(phase := to)]) else s
  }

  function ThreadStep(s: State, e: Event): State {
    match e
    case Preflighted(t, passes) =>
      if t !in s.threads || !s.threads[t].phase.Launched? then s
      else if !passes then Advance(s, t, Launched, Ran)
      else
        Advance(s, t, Launched, Running).(executions := s.executions + [Execution(s.threads[t].executor, s.threads[t].generation)])
    case Executed(t) => Advance(s, t, Running, Ran)
    case Publish(t) => if t in s.threads && s.threads[t].phase.Ran? then Advance(s, t, Ran, Flagged).(finished := true) else s
    case Leave(t) => Advance(s, t, Flagged, Exited)
    case _ => s
  }

  function Next(s: State, e: Event): State
    requires s.current.Some? ==> s.current.value in s.threads
  {
    match e
    case Rebuild(generation, builds) => RebuildStep(s, generation, builds)
    case Start(generation, builds, launch) => StartStep(s, generation, builds, launch)
    case Stop(generation) => if generation != s.generation || s.executor.None? then s else StopStep(s)
    case Shutdown => StopStep(s)
    case _ => ThreadStep(s, e)
  }

  ghost predicate Init(s: State) {
    s.executor.None? && s.finished && s.current.None? && s.threads == map[] && s.executions == [] && !s.used
  }

  ghost predicate IsRun(run: seq<State>, events: seq<Event>) {
    && |run| == |events| + 1 && Init(run[0])
    && forall i :: 0 <= i < |events| ==>
         (run[i].current.Some? ==> run[i].current.value in run[i].threads) && run[i + 1] == Next(run[i], events[i])
  }

  // ---- The invariant ---------------------------------------------------------------------------------------------

  predicate Active(p: Phase) { p.Launched? || p.Running? || p.Ran? }

  predicate HasRun(p: Phase) { !p.Launched? }

  ghost predicate ThreadOk(s: State, t: ThreadId)
    requires t in s.threads
  {
    var th := s.threads[t];
    && t < s.nextThread && th.executor < s.nextExecutor
    && (s.current != Some(t) ==> th.phase.Exited?)
    && (s.current == Some(t) ==> s.finished == !Active(th.phase) && s.executor.Some?)
    && (Active(th.phase) ==> th.generation == s.generation && s.executor == Some(th.executor) && s.used)
    && (s.executor == Some(th.executor) ==> s.used)
  }

  /** Some thread got past its preflight with this executor. */
  ghost predicate Explained(threads: map<ThreadId, Thread>, x: ExecutorId) {
    exists t :: t in threads && threads[t].executor == x && HasRun(threads[t].phase)
  }

  ghost predicate ExecutionsOk(s: State) {
    && (forall i :: 0 <= i < |s.executions| ==> Explained(s.threads, s.executions[i].executor))
    && (forall i, j :: 0 <= i < j < |s.executions| ==> s.executions[i].executor != s.executions[j].executor)
  }

  ghost predicate Inv(s: State) {
    && (s.current.Some? ==> s.current.value in s.threads)
    && (forall t <- s.threads :: ThreadOk(s, t))
    && (forall t, u :: t in s.threads && u in s.threads && t != u ==> s.threads[t].executor != s.threads[u].executor)
    && (s.executor.Some? ==> s.executor.value < s.nextExecutor)
    && ExecutionsOk(s)
  }

  /** Executions stay explained while threads only move forward. */
  lemma ExecutionsStay(s: State, n: State)
    requires ExecutionsOk(s) && n.executions == s.executions
    requires forall t <- s.threads ::
      t in n.threads && n.threads[t].executor == s.threads[t].executor && (HasRun(s.threads[t].phase) ==> HasRun(n.threads[t].phase))
    ensures ExecutionsOk(n)
  {
    forall i | 0 <= i < |n.executions| ensures Explained(n.threads, n.executions[i].executor) {
      assert Explained(s.threads, s.executions[i].executor);
      var t :| t in s.threads && s.threads[t].executor == s.executions[i].executor && HasRun(s.threads[t].phase);
      assert t in n.threads && HasRun(n.threads[t].phase);
    }
  }

  lemma JoinedKeeps(s: State)
    requires Inv(s) && (s.current.Some? ==> s.finished)
    ensures Inv(Joined(s)) && Joined(s).current.None?
  {
    hide ExecutionsOk;
    var n := Joined(s);
    ExecutionsStay(s, n);
    forall t <- n.threads ensures ThreadOk(n, t) { assert ThreadOk(s, t); }
  }

  lemma RebuildKeeps(s: State, generation: nat, builds: bool)
    requires Inv(s)
    ensures Inv(RebuildStep(s, generation, builds))
  {
    hide ExecutionsOk;
    var n := RebuildStep(s, generation, builds);
    if !(s.current.Some? && !s.finished) {
      JoinedKeeps(s);
      var j := Joined(s);
      ExecutionsStay(j, n);
      forall t <- n.threads ensures ThreadOk(n, t) { assert ThreadOk(j, t); }
    }
  }

  /** No thread has the current executor. */
  ghost predicate Unclaimed(s: State) { s.executor.Some? && forall t <- s.threads :: s.threads[t].executor != s.executor.value }

  lemma RenewedKeeps(j: State)
    requires Inv(j) && j.current.None?
    ensures var n := j.(executor := Some(j.nextExecutor), nextExecutor := j.nextExecutor + 1); Inv(n) && Unclaimed(n)
  {
    hide ExecutionsOk;
    var n := j.(executor := Some(j.nextExecutor), nextExecutor := j.nextExecutor + 1);
    ExecutionsStay(j, n);
    forall t <- n.threads ensures ThreadOk(n, t) && n.threads[t].executor < j.nextExecutor { assert ThreadOk(j, t); }
  }

  lemma LaunchKeeps(r: State, generation: nat, launch: Launch)
    requires Inv(r) && r.current.None? && Unclaimed(r) && generation == r.generation
    ensures Inv(Launching(r, generation, launch))
  {
    hide ExecutionsOk;
    var n := Launching(r, generation, launch);
    forall t <- r.threads ensures t < r.nextThread { assert ThreadOk(r, t); }
    ExecutionsStay(r, n);
    forall t <- n.threads ensures ThreadOk(n, t) { if t in r.threads { assert ThreadOk(r, t); } }
  }

  lemma UnusedIsUnclaimed(j: State)
    requires Inv(j) && j.executor.Some? && !j.used
    ensures Unclaimed(j)
  {
    forall t <- j.threads ensures j.threads[t].executor != j.executor.value { assert ThreadOk(j, t); }
  }

  lemma StartKeeps(s: State, generation: nat, builds: bool, launch: Launch)
    requires Inv(s)
    ensures Inv(StartStep(s, generation, builds, launch))
  {
    if !(generation != s.generation || s.executor.None? || (s.current.Some? && !s.finished)) {
      JoinedKeeps(s);
      hide Inv, Launching, Unclaimed;
      var j := Joined(s);
      if s.used && builds {
        RenewedKeeps(j);
        LaunchKeeps(j.(executor := Some(j.nextExecutor), nextExecutor := j.nextExecutor + 1), generation, launch);
      } else if !s.used {
        UnusedIsUnclaimed(j);
        LaunchKeeps(j, generation, launch);
      }
    }
  }

  lemma NewExecution(s: State, n: State, t: ThreadId)
    requires Inv(s) && t in s.threads && s.threads[t].phase.Launched?
    requires n.threads == s.threads[t := s.threads[t].(phase := Running)]
    requires n.executions == s.executions + [Execution(s.threads[t].executor, s.threads[t].generation)]
    ensures ExecutionsOk(n)
  {
    ExecutionsStay(s, n.(executions := s.executions));
    forall i | 0 <= i < |n.executions| ensures Explained(n.threads, n.executions[i].executor) {
      if i == |s.executions| { assert n.threads[t].executor == n.executions[i].executor && HasRun(n.threads[t].phase); }
    }
    forall i | 0 <= i < |s.executions| ensures s.executions[i].executor != s.threads[t].executor {
      assert Explained(s.threads, s.executions[i].executor);
      var u :| u in s.threads && s.threads[u].executor == s.executions[i].executor && HasRun(s.threads[u].phase);
      assert u != t;
    }
  }

  lemma ThreadKeeps(s: State, e: Event)
    requires Inv(s)
    ensures Inv(ThreadStep(s, e))
  {
    var n := ThreadStep(s, e);
    if n != s {
      if e.Preflighted? && e.passes { NewExecution(s, n, e.thread); } else { ExecutionsStay(s, n); }
      hide ExecutionsOk;
      forall t <- n.threads ensures ThreadOk(n, t) { assert ThreadOk(s, t) && ThreadOk(s, e.thread); }
    }
  }

  lemma {:induction false} RunInvariant(run: seq<State>, events: seq<Event>, i: nat)
    requires IsRun(run, events) && i < |run|
    ensures Inv(run[i])
  {
    if i > 0 {
      hide Inv, RebuildStep, StartStep, ThreadStep, Joined;
      RunInvariant(run, events, i - 1);
      var s, e := run[i - 1], events[i - 1];
      assert run[i] == Next(s, e);
      match e
      case Rebuild(generation, builds) => RebuildKeeps(s, generation, builds);
      case Start(generation, builds, launch) => StartKeeps(s, generation, builds, launch);
      case Stop(_) => if s.current.Some? && s.finished { JoinedKeeps(s); }
      case Shutdown => if s.current.Some? && s.finished { JoinedKeeps(s); }
      case _ => ThreadKeeps(s, e);
    }
  }

  // ---- Theorems --------------------------------------------------------------------------------------------------

  /** No two receiver executions overlap, not even across a stop that timed out. */
  lemma ExecutionsNeverOverlap(run: seq<State>, events: seq<Event>, i: nat, t: ThreadId, u: ThreadId)
    requires IsRun(run, events) && i < |run| && t in run[i].threads && u in run[i].threads
    requires Active(run[i].threads[t].phase) && Active(run[i].threads[u].phase)
    ensures t == u
  {
    RunInvariant(run, events, i);
    assert ThreadOk(run[i], t) && ThreadOk(run[i], u);
  }

  /** Every executor instance is executed at most once. */
  lemma ExecutedAtMostOnce(run: seq<State>, events: seq<Event>, i: nat, a: nat, b: nat)
    requires IsRun(run, events) && i < |run| && a < b < |run[i].executions|
    ensures run[i].executions[a].executor != run[i].executions[b].executor
  {
    RunInvariant(run, events, i);
  }

  /** An execution begins only with the executor and generation that are current at that moment. */
  lemma ExecutesCurrentGeneration(run: seq<State>, events: seq<Event>, i: nat)
    requires IsRun(run, events) && i < |events| && run[i + 1].executions != run[i].executions
    ensures exists x :: run[i + 1].executions == run[i].executions + [x] && x.generation == run[i].generation
                        && run[i].executor == Some(x.executor)
  {
    RunInvariant(run, events, i);
    var e := events[i];
    assert run[i + 1] == Next(run[i], e);
    if e.Preflighted? && e.thread in run[i].threads {
      assert ThreadOk(run[i], e.thread);
      var x := Execution(run[i].threads[e.thread].executor, run[i].threads[e.thread].generation);
      assert run[i + 1].executions == run[i].executions + [x];
    }
  }

  /** While an execution is active its generation stays the owner's generation. */
  lemma GenerationIsStableWhileActive(run: seq<State>, events: seq<Event>, i: nat, t: ThreadId)
    requires IsRun(run, events) && i < |run| && t in run[i].threads && Active(run[i].threads[t].phase)
    ensures run[i].threads[t].generation == run[i].generation && run[i].executor == Some(run[i].threads[t].executor)
  {
    RunInvariant(run, events, i);
    assert ThreadOk(run[i], t);
  }

  // ---- Where executors come from ---------------------------------------------------------------------------------

  predicate Idle(s: State) { s.current.None? || s.finished }

  /** The event builds a new generation, on an owner that is not executing. */
  predicate Builds(s: State, e: Event) { e.Rebuild? && e.builds && Idle(s) }

  /** The event starts the current generation, whose executor has been used, and builds another. */
  predicate Renews(s: State, e: Event) {
    e.Start? && e.builds && s.executor.Some? && s.used && e.generation == s.generation && Idle(s)
  }

  /** Step `r` built the generation that is current at `i`. */
  ghost predicate LastBuild(run: seq<State>, events: seq<Event>, r: nat, i: nat)
    requires |run| == |events| + 1 && i < |run|
  {
    r < i && Builds(run[r], events[r]) && forall k :: r < k < i ==> !Builds(run[k], events[k])
  }

  /** Step `c` created the executor that is current at `i`, for the generation built at `r`. */
  ghost predicate Origin(run: seq<State>, events: seq<Event>, r: nat, c: nat, i: nat)
    requires |run| == |events| + 1 && i < |run|
  {
    && r <= c < i && (c == r || Renews(run[c], events[c])) && run[i].executor == Some(run[c].nextExecutor)
    && forall k :: c < k < i ==> !Renews(run[k], events[k])
  }

  /** What each event does to executor and generation. */
  lemma StepOrigin(s: State, e: Event)
    requires s.current.Some? ==> s.current.value in s.threads
    ensures var n := Next(s, e);
            && (Builds(s, e) ==> n.executor == Some(s.nextExecutor) && n.generation == e.generation && !n.used)
            && (Renews(s, e) ==> n.executor == Some(s.nextExecutor) && n.generation == s.generation)
            && (!Builds(s, e) && !Renews(s, e) ==> n.executor == s.executor && n.generation == s.generation)
            && (e.Rebuild? && !Builds(s, e) ==> n.used == s.used && n.nextExecutor == s.nextExecutor)
  {
  }

  /** The owner's generation is the one of the last rebuild that succeeded, and its executor was
      created by that rebuild or by a start that replaced a used one since; there is none before. */
  lemma {:induction false} OwnerHoldsItsLastBuild(run: seq<State>, events: seq<Event>, i: nat)
    requires IsRun(run, events) && i < |run|
    ensures run[i].executor.None? <==> forall k :: 0 <= k < i ==> !Builds(run[k], events[k])
    ensures run[i].executor.Some? ==>
      exists r: nat, c: nat :: LastBuild(run, events, r, i) && Origin(run, events, r, c, i)
                               && run[i].generation == events[r].generation
  {
    hide Next;
    if i > 0 {
      var s, e := run[i - 1], events[i - 1];
      OwnerHoldsItsLastBuild(run, events, i - 1);
      assert run[i] == Next(s, e) by { StepOfRun(run, events, i - 1); }
      StepOrigin(s, e);
      hide IsRun, Builds, Renews;
      if Builds(s, e) {
        assert LastBuild(run, events, i - 1, i) && Origin(run, events, i - 1, i - 1, i) by { NeverBoth(s, e); }
      } else if s.executor.Some? {
        var r: nat, c: nat :| LastBuild(run, events, r, i - 1) && Origin(run, events, r, c, i - 1)
                              && s.generation == events[r].generation;
        assert LastBuild(run, events, r, i);
        if Renews(s, e) { assert Origin(run, events, r, i - 1, i); } else { assert Origin(run, events, r, c, i); }
      } else {
        NothingToRenew(s, e);
      }
    }
  }

  lemma StepOfRun(run: seq<State>, events: seq<Event>, i: nat)
    requires IsRun(run, events) && i < |events|
    ensures run[i].current.Some? ==> run[i].current.value in run[i].threads
    ensures run[i + 1] == Next(run[i], events[i])
  {
  }

  lemma NeverBoth(s: State, e: Event)
    ensures !(Builds(s, e) && Renews(s, e))
  {
  }

  lemma NothingToRenew(s: State, e: Event)
    requires s.executor.None?
    ensures !Renews(s, e)
  {
  }

  /** Every execution runs an executor of its own generation: one made by the last successful
      rebuild, which asked for exactly that generation, or by a start that replaced it since. */
  lemma ExecutesItsOwnBuild(run: seq<State>, events: seq<Event>, i: nat)
    requires IsRun(run, events) && i < |events| && run[i + 1].executions != run[i].executions
    ensures exists x: Execution, r: nat, c: nat ::
              && run[i + 1].executions == run[i].executions + [x]
              && LastBuild(run, events, r, i) && Origin(run, events, r, c, i)
              && x.generation == events[r].generation && x.executor == run[c].nextExecutor
  {
    hide Next, Inv;
    ExecutesCurrentGeneration(run, events, i);
    OwnerHoldsItsLastBuild(run, events, i);
    var x :| run[i + 1].executions == run[i].executions + [x] && x.generation == run[i].generation
             && run[i].executor == Some(x.executor);
    var r: nat, c: nat :| LastBuild(run, events, r, i) && Origin(run, events, r, c, i)
                          && run[i].generation == events[r].generation;
    assert x.executor == run[c].nextExecutor;
  }

  // ---- The preflight ---------------------------------------------------------------------------------------------

  datatype Snapshot = Snapshot(single: bool, bytes: nat, first: nat, count: nat, limit: nat)

  datatype Refusal = NotRegular | LengthUnavailable | PathChanged | Misaligned | FirstBeyondEnd | SelectionTooLong

  /** How many samples a run would read; `count` zero means all that follow `first`. */
  function Selected(input: Snapshot, total: nat): nat
    requires input.first <= total
  {
    var available := total - input.first;
    if input.count == 0 || available < input.count then available else input.count
  }

  /** It is the most that the file holds after `first` and the request allows. */
  lemma SelectedIsGreatest(input: Snapshot, total: nat, n: nat)
    requires input.first <= total
    ensures n <= Selected(input, total) <==> input.first + n <= total && (input.count == 0 || n <= input.count)
  {
  }

  /** Passes exactly when the selection is a whole number of samples inside the unchanged file and
      within the read limit. */
  method ValidateReceiverInputAttempt(input: Snapshot, regular: bool, size: Option<nat>) returns (r: Option<Refusal>)
    ensures var stride := if input.single then 8 else 16;
            r.None? <==> && regular && size == Some(input.bytes) && input.bytes % stride == 0
                         && input.first * stride <= input.bytes
                         && Selected(input, input.bytes / stride) <= input.limit
    ensures r.None? ==>
      var stride := if input.single then 8 else 16;
      (input.first + Selected(input, input.bytes / stride)) * stride <= input.bytes
  {
    if !regular {
      return Some(NotRegular);
    }
    if size.None? {
      return Some(LengthUnavailable);
    }
    if size.value != input.bytes {
      return Some(PathChanged);
    }
    var stride := if input.single then 8 else 16;
    if size.value % stride != 0 {
      return Some(Misaligned);
    }
    var total := size.value / stride;
    if input.first > total {
      return Some(FirstBeyondEnd);
    }
    var available := total - input.first;
    var selected := if input.count == 0 || available < input.count then available else input.count;
    if selected > input.limit {
      return Some(SelectionTooLong);
    }
    r := None;
  }

  // ---- The owner object --------------------------------------------------------------------------------------------

  datatype Reply = Ok | Accepted | GenerationMismatch | ExecutionActive | ConstructionFailed | TimedOut | Threw

  class Owner {
    var executor: Option<ExecutorId>
    var used: bool
    var generation: nat
    var finished: bool
    var current: Option<ThreadId>
    var threads: map<ThreadId, Thread>
    var nextExecutor: ExecutorId
    var nextThread: ThreadId
    ghost var executions: seq<Execution>

    ghost function View(): State
      reads this
    {
      State(executor, used, generation, finished, current, threads, nextExecutor, nextThread, executions)
    }

    ghost predicate Valid()
      reads this
    {
      Inv(View())
    }

    constructor ()
      ensures Init(View()) && Valid()
    {
      executor, used, generation, finished, current, threads := None, false, 0, true, None, map[];
      nextExecutor, nextThread, executions := 0, 0, [];
    }

    method Join()
      requires Valid() && (current.Some? ==> finished)
      modifies this`current, this`threads
      ensures Valid() && View() == Joined(old(View()))
    {
      JoinedKeeps(View());
      if current.Some? {
        threads := threads[current.value := threads[current.value].(phase := Exited)];
        current := None;
      }
    }

    method Rebuild(requested: nat, builds: bool) returns (reply: Reply)
      requires Valid()
      modifies this`executor, this`used, this`generation, this`current, this`threads, this`nextExecutor
      ensures Valid() && View() == RebuildStep(old(View()), requested, builds)
      ensures reply == ExecutionActive <==> old(current).Some? && !old(finished)
      ensures reply == Ok <==> (old(current).Some? ==> old(finished)) && builds
      ensures reply == Ok ==> executor == Some(old(nextExecutor)) && generation == requested && !used
      ensures reply != Ok ==> executor == old(executor) && generation == old(generation) && used == old(used)
    {
      hide Inv;
      RebuildKeeps(View(), requested, builds);
      if current.Some? {
        if !finished {
          return ExecutionActive;
        }
        Join();
      }
      if !builds {
        return ConstructionFailed;
      }
      executor, nextExecutor, used, generation := Some(nextExecutor), nextExecutor + 1, false, requested;
      reply := Ok;
    }

    method Start(requested: nat, builds: bool, launch: Launch) returns (reply: Reply)
      requires Valid()
      modifies this`executor, this`used, this`finished, this`current, this`threads, this`nextExecutor, this`nextThread
      ensures Valid() && View() == StartStep(old(View()), requested, builds, launch)
      ensures reply == GenerationMismatch <==> requested != old(generation) || old(executor).None?
      ensures reply == ExecutionActive <==> requested == old(generation) && old(executor).Some? && old(current).Some? && !old(finished)
      ensures reply == Accepted <==> && requested == old(generation) && old(executor).Some? && (old(current).Some? ==> old(finished))
                                     && (old(used) ==> builds) && launch == Runs
      ensures reply == Accepted ==> && current == Some(old(nextThread)) && generation == requested && used && !finished
                                    && current.value in threads && executor.Some?
                                    && threads[current.value] == Thread(executor.value, requested, Launched)
      ensures executor == if old(used) && builds && reply in {Accepted, Threw} then Some(old(nextExecutor)) else old(executor)
    {
      hide Inv;
      StartKeeps(View(), requested, builds, launch);
      if requested != generation || executor.None? {
        return GenerationMismatch;
      }
      if current.Some? {
        if !finished {
          return ExecutionActive;
        }
        Join();
      }
      if used {
        if !builds {
          return ConstructionFailed;
        }
        executor, nextExecutor := Some(nextExecutor), nextExecutor + 1;
      }
      finished := false;
      if launch == PrepareThrows {
        return Threw;
      }
      used := true;
      if launch == ThreadThrows {
        return Threw;
      }
      threads := threads[nextThread := Thread(executor.value, requested, Launched)];
      current, nextThread := Some(nextThread), nextThread + 1;
      reply := Accepted;
    }

    /** `Stop` and `Shutdown` at the end of their bounded wait. */
    method Stop(requested: Option<nat>) returns (reply: Reply)
      requires Valid()
      modifies this`current, this`threads
      ensures Valid()
      ensures View() == if requested.None? then Next(old(View()), Event.Shutdown) else Next(old(View()), Event.Stop(requested.value))
      ensures reply == GenerationMismatch <==> requested.Some? && (requested.value != old(generation) || old(executor).None?)
      ensures reply == TimedOut <==> reply != GenerationMismatch && old(current).Some? && !old(finished)
      ensures reply == TimedOut ==> View() == old(View())
      ensures reply == Ok ==> current == None
    {
      if requested.Some? && (requested.value != generation || executor.None?) {
        return GenerationMismatch;
      }
      if current.Some? {
        if !finished {
          return TimedOut;
        }
        Join();
      }
      reply := Ok;
    }
  }
}
