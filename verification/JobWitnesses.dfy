/** Concrete runs of the job controller on which the stronger readings of its promises fail. */
module JobWitnesses {
  import opened Prelude
  import opened JobModel
  import opened JobRuns
  import opened JobSafety
  import opened JobTheorems
  import opened JobReceiver

  /** Some run ends in `s` with the receiver of `executing` executing. */
  ghost predicate Reaches(env: Env, s: State, executing: Option<JobId>) {
    exists run: seq<State>, events: seq<Event>, fates: seq<Fate> ::
      IsReceiverRun(env, run, events, fates) && run[|run| - 1] == s && Executing(run, events, fates, |events|) == executing
  }

  lemma {:induction false} SameBefore(run: seq<State>, events: seq<Event>, fates: seq<Fate>, s: State, e: Event, f: Fate, i: nat)
    requires |run| == |events| + 1 && |fates| == |events| && i < |run|
    ensures Executing(run + [s], events + [e], fates + [f], i) == Executing(run, events, fates, i)
  {
    if i > 0 { SameBefore(run, events, fates, s, e, f, i - 1); }
  }

  lemma ReachesNext(env: Env, s: State, executing: Option<JobId>, e: Event, f: Fate, s': State)
    requires Reaches(env, s, executing) && OneAtATime(executing, s, e, f)
    requires WellFormed(s) && Next(env, s, e, s')
    ensures Reaches(env, s', After(executing, s, e, f))
  {
    hide Next, OneAtATime, After, IsRun, WellFormed;
    var run: seq<State>, events: seq<Event>, fates: seq<Fate> :|
      IsReceiverRun(env, run, events, fates) && run[|run| - 1] == s && Executing(run, events, fates, |events|) == executing;
    var run', events', fates' := run + [s'], events + [e], fates + [f];
    RunGrows(env, run, events, e, s');
    forall i | 0 <= i < |events'| ensures OneAtATime(Executing(run', events', fates', i), run'[i], events'[i], fates'[i]) {
      SameBefore(run, events, fates, s', e, f, i);
    }
    SameBefore(run, events, fates, s', e, f, |events|);
    assert IsReceiverRun(env, run', events', fates') && Executing(run', events', fates', |events'|) == After(executing, s, e, f);
  }

  const KEY: Key := "key"
  const REQUEST: Request := Request("", 1)

  /** Job 1 alone in the hands of the worker. */
  function Solo(job: Job, pc: Pc): State {
    State(map[1 := job], [1], [], map[KEY := Record(REQUEST, 1)], [], 0, 1, 0, 2, Busy(1, pc), false, false, [1])
  }

  function Fresh(): Job { NewJob(KEY, REQUEST, 0, 0) }

  function Empty(): State { State(map[], [], [], map[], [], 0, 0, 0, 1, Idle, false, false, []) }

  function Waiting(): State {
    State(map[1 := Fresh()], [1], [1], map[KEY := Record(REQUEST, 1)], [], 0, 1, 0, 2, Idle, false, false, [1])
  }

  const CALM: Fate := Fate(false, false, false)

  lemma EmptyIsReached(env: Env)
    ensures Reaches(env, Empty(), None)
  {
    assert IsReceiverRun(env, [Empty()], [], []) && Executing([Empty()], [], [], 0) == None;
  }

  lemma SubmitIsTaken()
    ensures SubmitStep(Empty(), KEY, REQUEST, Scenario(true, [16], true), 0, 0, Waiting(), Accepted(1))
  {
    var s, scenario := Empty(), Scenario(true, [16], true);
    var s0 := s.(idempotency := s.idempotency - {KEY});
    assert s0 == s;
    assert Purged(s, 0) == s by { assert Forgetting(s.idempotency, s.table, s.jobs, s.jobs) == s.idempotency; }
    assert PurgeStep(s0, 0, s);
    assert scenario.pulses[0..1] == [16] && Sum([16]) == 16 by { assert [16][1..] == []; }
    assert Admission(s, REQUEST, scenario).None?;
    var none: seq<JobId> := [];
    assert none + [1] == [1];
    assert Enrolled(s, KEY, REQUEST, 0) == Waiting();
  }

  lemma PoppedIsReached(env: Env)
    ensures Reaches(env, Solo(Fresh(), Begin), None)
  {
    hide Reaches, SubmitStep;
    EmptyIsReached(env);
    SubmitIsTaken();
    var submit := Submit(KEY, REQUEST, Scenario(true, [16], true), 0, 0);
    assert Next(env, Empty(), submit, Waiting());
    ReachesNext(env, Empty(), None, submit, CALM, Waiting());
    assert Waiting().queue[1..] == [] && PopStep(Waiting()) == Solo(Fresh(), Begin);
    ReachesNext(env, Waiting(), None, Pop, CALM, Solo(Fresh(), Begin));
  }

  lemma SoloWorks(env: Env, job: Job, pc: Pc, executing: Option<JobId>, c: Choice, f: Fate)
    requires Reaches(env, Solo(job, pc), executing) && !pc.Exit? && (Launches(pc, c, f) ==> executing.None?)
    ensures var (job', pc') := WorkJob(env, job, pc, false, c);
            Reaches(env, Solo(job', pc'), After(executing, Solo(job, pc), Work(c), f))
  {
    hide Reaches, WorkJob, After;
    var s := Solo(job, pc);
    var (job', pc') := WorkJob(env, job, pc, false, c);
    assert map[1 := job][1 := job'] == map[1 := job'];
    assert WorkStep(env, s, c) == Solo(job', pc');
    ReachesNext(env, s, executing, Work(c), f, Solo(job', pc'));
  }

  /** `Shutdown` can throw: it meets a job between the pop and the first lock of `Process`. */
  lemma ShutdownCanThrow(env: Env)
    ensures exists s :: Reaches(env, s, None) && WellFormed(s) && ShutdownStep(s).1
  {
    hide Reaches;
    PoppedIsReached(env);
    var s := Solo(Fresh(), Begin);
    assert Reaches(env, s, None) && WellFormed(s) && ShutdownStep(s).1;
  }

  /** `Shutdown` can flag a job that has just failed and stays failed. */
  lemma ShutdownCanFlagAFailedJob(env: Env, out: Output)
    ensures exists s, s' :: Reaches(env, s, None) && WellFormed(s) && s' == ShutdownStep(s).0 && 1 in s'.table
                            && s'.table[1].cancelRequested && s'.table[1].state == Failed && Reaches(env, s', None)
  {
    hide Reaches;
    PoppedIsReached(env);
    var broken := Choice(Some(OtherError), BeforeCommit, false, false, false, false, false, out);
    SoloWorks(env, Fresh(), Begin, None, broken, CALM);
    var j1 := WorkJob(env, Fresh(), Begin, false, broken).0;
    assert WorkJob(env, Fresh(), Begin, false, broken).1 == Generate && j1.state == Generating;
    SoloWorks(env, j1, Generate, None, broken, CALM);
    var j2 := WorkJob(env, j1, Generate, false, broken).0;
    assert WorkJob(env, j1, Generate, false, broken).1 == Exit && j2.state == Failed;
    var s := Solo(j2, Exit);
    var s' := ShutdownStep(s).0;
    ReachesNext(env, s, None, Shutdown, CALM, s');
    assert s'.table[1].cancelRequested && s'.table[1].state == Failed;
  }

  /** A replay that goes well up to the start of the receiver. */
  function Smooth(out: Output): Choice { Choice(None, BeforeCommit, false, false, false, false, false, out) }

  lemma RebuildIsReached(env: Env, out: Output)
    ensures exists job :: Reaches(env, Solo(job, Rebuild(out)), None) && job.state == ReplayPending && !job.cancelRequested
  {
    hide Reaches, AllFiles, Digests;
    PoppedIsReached(env);
    var c := Smooth(out);
    var j0 := Fresh();
    SoloWorks(env, j0, Begin, None, c, CALM);
    var j1 := j0.(state := Generating, history := [Queued] + [Generating], generatorInvoked := true);
    assert WorkJob(env, j0, Begin, false, c) == (j1, Generate);
    SoloWorks(env, j1, Generate, None, c, CALM);
    SoloWorks(env, j1, Write(out), None, c, CALM);
    SoloWorks(env, j1, Commit(out), None, c, CALM);
    var j2 := WorkJob(env, j1, Commit(out), false, c).0;
    assert WorkJob(env, j1, Commit(out), false, c).1 == Rebuild(out);
    assert j2.state == ReplayPending && !j2.cancelRequested;
  }

  lemma RunningIsReached(env: Env, out: Output)
    ensures exists job :: Reaches(env, Solo(job, Poll(out)), Some(1)) && job.state == Running && !job.cancelRequested
  {
    hide Reaches;
    RebuildIsReached(env, out);
    var c := Smooth(out);
    var job :| Reaches(env, Solo(job, Rebuild(out)), None) && job.state == ReplayPending && !job.cancelRequested;
    SoloWorks(env, job, Rebuild(out), None, c, CALM);
    SoloWorks(env, job, StartReceiver(out), None, c, CALM);
    var j' := WorkJob(env, job, StartReceiver(out), false, c).0;
    assert WorkJob(env, job, StartReceiver(out), false, c).1 == Poll(out) && j'.state == Running;
  }

  /** A stop that times out puts the truth file back under an executing receiver. */
  lemma TruthCanReturnTooEarly(env: Env, out: Output)
    ensures exists s :: Reaches(env, s, Some(1)) && 1 in s.table && Truth in s.table[1].files
  {
    hide Reaches;
    RunningIsReached(env, out);
    var job :| Reaches(env, Solo(job, Poll(out)), Some(1)) && job.state == Running && !job.cancelRequested;
    var late := Smooth(out).(expired := true);
    SoloWorks(env, job, Poll(out), Some(1), late, CALM);
    assert WorkJob(env, job, Poll(out), false, late) == (job, Polled(out, false));
    SoloWorks(env, job, Polled(out, false), Some(1), late, CALM);
    var j' := WorkJob(env, job, Polled(out, false), false, late).0;
    assert WorkJob(env, job, Polled(out, false), false, late).1 == Exit && Truth in j'.files;
    assert After(Some(1), Solo(job, Polled(out, false)), Work(late), CALM) == Some(1);
  }
}
