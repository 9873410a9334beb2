/** The FHSS job controller's data and the effect of each of its critical sections. */
module JobModel {
  import opened Prelude

  type JobId = nat
  type Key = string
  type Digest = string

  const MAX_JOBS := 32
  const MAX_IDEMPOTENCY_ENTRIES := 64
  const MAX_PULSES := 512
  const IQ_QUOTA := 67108864
  const RETENTION_QUOTA := 536870912

  datatype JobState =
    | Queued | Generating | Generated | ReplayPending | Running | Cancelling
    | Completed | Cancelled | TimedOut | Failed | AbandonedOnRestart

  predicate IsTerminal(s: JobState) {
    s.Completed? || s.Cancelled? || s.TimedOut? || s.Failed? || s.AbandonedOnRestart?
  }

  predicate IsLegalTransition(from: JobState, to: JobState) {
    match from
    case Queued => to in {Generating, Cancelled, Failed}
    case Generating => to in {Generated, Cancelling, Cancelled, TimedOut, Failed}
    case Generated => to in {ReplayPending, Cancelling, Cancelled, TimedOut, Failed}
    case ReplayPending => to in {Running, Cancelling, Cancelled, TimedOut, Failed}
    case Running => to in {Completed, Cancelling, TimedOut, Failed}
    case Cancelling => to in {Cancelled, Failed}
    case _ => false
  }

  /** Why `Process` unwound: one value for each handler at the end of it. */
  datatype Fault = InvalidArgument | LengthError | OtherError

  datatype Code =
    | CancelledBeforeGeneration | CancelledDuringGeneration | CancelledDuringArtifactWrite
    | CancelledBeforeReplay | CancelledBeforeReceiverStart | CancelledDuringReceiverStart
    | CancelledDuringReplay | ApplicationShutdown | TerminalPrecedence
    | JobTimeout | ReceiverBuildFailed | ReceiverStartFailed | ReceiverExecutionFailed
    | MissingReceiverMessage | Thrown(fault: Fault) | JobCompleted
    | IllegalTransitionThrown  // the logic error of `Transition`, caught by the last handler
    | IllegalStateTransition   // the fallback of `Terminal`

  datatype Generation = Pending | Unavailable(reason: Code) | Reported(status: JobState, code: Code) | Succeeded

  /** What the generator hands back; JSON documents are opaque and become bytes by rendering. */
  type Doc = string
  datatype Output = Output(iq: Bytes, truth: Doc, sigmf: Doc, receiver: Doc, manifest: Doc)

  datatype FileName = Iq | Truth | SigMf | ReceiverConfig | Manifest

  /** The indented JSON rendering shared by the file writer and the document hash, and SHA-256. */
  datatype Env = Env(render: Doc -> Bytes, hash: Bytes -> Digest)

  datatype Request = Request(canonical: string, count: nat)

  datatype Job = Job(
    digest: Key, request: Request, cursor: nat, created: int,
    state: JobState, history: seq<JobState>, code: Option<Code>, generation: Generation,
    cancelRequested: bool, generatorInvoked: bool, replayInvoked: bool,
    files: map<FileName, Bytes>, artifacts: Option<map<FileName, Digest>>)

  function NewJob(key: Key, request: Request, cursor: nat, now: int): Job {
    Job(key, request, cursor, now, Queued, [Queued], None, Pending, false, false, false, map[], None)
  }

  // ---- Transition and Terminal -------------------------------------------------------------

  /** `Transition`: `None` is the thrown logic error. The history records every state written. */
  function Moved(job: Job, to: JobState): Option<Job> {
    if job.state == to then Some(job)
    else if !IsLegalTransition(job.state, to) then None
    else Some(job.(state := to, history := job.history + [to]))
  }

  /** `Terminal`: nothing once terminal, cancellation precedence, then the fallback. */
  function Terminated(job: Job, to: JobState, code: Code): Job {
    if IsTerminal(job.state) then job
    else
      var overridden := job.cancelRequested && to != Cancelled;
      var to1 := if overridden then Cancelled else to;
      var code1 := if overridden then TerminalPrecedence else code;
      var generation :=
        if job.generation != Pending then job.generation
        else if !job.generatorInvoked then Unavailable(code1)
        else Reported(to1, code1);
      var refused := !IsLegalTransition(job.state, to1) && !(job.state == Cancelling && to1 == Cancelled);
      var to2 := if refused then Failed else to1;
      var code2 := if refused then IllegalStateTransition else code1;
      job.(state := to2, history := job.history + [to2], code := Some(code2), generation := generation)
  }

  // ---- The worker ---------------------------------------------------------------------------

  /** Where the worker is inside `Process`. Each point is the start of the next critical section
      together with the private work that precedes it. */
  datatype Pc =
    | Begin
    | Generate
    | Write(out: Output)
    | Commit(out: Output)
    | Rebuild(out: Output)
    | StartReceiver(out: Output)
    | AbandonStart(out: Output)
    | Poll(out: Output)
    | Polled(out: Output, sawCancel: bool)
    | Observe(out: Output)
    | Conclude(out: Output, completed: bool, accepted: bool)
    | Exit

  datatype FaultPoint = BeforeCommit | AfterCommit | AfterWithholding | AfterRecording

  /** Everything the environment decides for one worker step. */
  datatype Choice = Choice(
    fault: Option<Fault>, point: FaultPoint, expired: bool, refused: bool, finished: bool,
    completed: bool, accepted: bool, out: Output)

  const ALL_NAMES: set<FileName> := {Iq, Truth, SigMf, ReceiverConfig, Manifest}

  function Content(env: Env, out: Output, f: FileName): Bytes {
    match f
    case Iq => out.iq
    case Truth => env.render(out.truth)
    case SigMf => env.render(out.sigmf)
    case ReceiverConfig => env.render(out.receiver)
    case Manifest => env.render(out.manifest)
  }

  function AllFiles(env: Env, out: Output): map<FileName, Bytes> {
    map f | f in ALL_NAMES :: Content(env, out, f)
  }

  /** The digests the manifest and the job record carry for each file. */
  function Digests(env: Env, out: Output): map<FileName, Digest> {
    map f | f in ALL_NAMES :: env.hash(Content(env, out, f))
  }

  /** The withholding guard writes the truth document back. */
  function Restored(env: Env, job: Job, out: Output): Job {
    job.(files := job.files[Truth := env.render(out.truth)])
  }

  /** Stack unwinding with the guard alive: restore first, then the handler's `Terminal`. */
  function Unwound(env: Env, job: Job, out: Output, code: Code): Job {
    Terminated(Restored(env, job, out), Failed, code)
  }

  function Withheld(env: Env, job: Job, out: Output): Job {
    job.(files := AllFiles(env, out) - {Truth}, artifacts := Some(Digests(env, out)))
  }

  /** Cancellation found with the guard alive: `cancelling` if not already, restore, `cancelled`. */
  function CancelledAfterWithholding(env: Env, job: Job, out: Output, code: Code): Job {
    match Moved(job, Cancelling)
    case None => Unwound(env, job, out, IllegalTransitionThrown)
    case Some(moved) => Terminated(Restored(env, moved, out), Cancelled, code)
  }

  function AfterCommitStep(env: Env, job: Job, out: Output, stop: bool, c: Choice): (Job, Pc) {
    var held := Withheld(env, job, out);
    if job.cancelRequested || stop then
      (CancelledAfterWithholding(env, held, out, CancelledBeforeReplay), Exit)
    else if c.expired then
      (Terminated(Restored(env, held, out), TimedOut, JobTimeout), Exit)
    else
      match Moved(held.(generation := Succeeded), Generated)
      case None => (Unwound(env, held.(generation := Succeeded), out, IllegalTransitionThrown), Exit)
      case Some(generated) =>
        match Moved(generated, ReplayPending)
        case None => (Unwound(env, generated, out, IllegalTransitionThrown), Exit)
        case Some(pending) => (pending, Rebuild(out))
  }

  function FaultInCommit(env: Env, job: Job, out: Output, c: Choice): Job
    requires c.fault.Some?
  {
    match c.point
    case BeforeCommit => Terminated(job, Failed, Thrown(c.fault.value))
    case AfterCommit => Terminated(job.(files := AllFiles(env, out)), Failed, Thrown(c.fault.value))
    case AfterWithholding =>
      Unwound(env, job.(files := AllFiles(env, out) - {Truth}), out, Thrown(c.fault.value))
    case AfterRecording =>
      Unwound(env, Withheld(env, job, out).(artifacts := Some(Digests(env, out) - {Manifest})), out, Thrown(c.fault.value))
  }

  function AfterStartStep(env: Env, job: Job, out: Output, stop: bool): (Job, Pc) {
    var started := job.(replayInvoked := true);
    var target := if job.cancelRequested || stop then Cancelling else Running;
    match Moved(started, target)
    case None => (Unwound(env, started, out, IllegalTransitionThrown), Exit)
    case Some(moved) => (moved, if target == Running then Poll(out) else AbandonStart(out))
  }

  function ConcludedCode(completed: bool, accepted: bool): (JobState, Code) {
    if !completed then (Failed, ReceiverExecutionFailed)
    else if !accepted then (Failed, MissingReceiverMessage)
    else (Completed, JobCompleted)
  }

  /** One worker step. `stop` is the thread's stop token. */
  function WorkJob(env: Env, job: Job, pc: Pc, stop: bool, c: Choice): (Job, Pc) {
    match pc
    case Begin =>
      if job.cancelRequested then (Terminated(job, Cancelled, CancelledBeforeGeneration), Exit)
      else (
        match Moved(job, Generating)
        case None => (Terminated(job, Failed, IllegalTransitionThrown), Exit)
        case Some(moved) => (moved.(generatorInvoked := true), Generate))
    case Generate =>
      if c.fault.Some? then (Terminated(job, Failed, Thrown(c.fault.value)), Exit)
      else if job.cancelRequested || stop then (Terminated(job, Cancelled, CancelledDuringGeneration), Exit)
      else if c.expired then (Terminated(job, TimedOut, JobTimeout), Exit)
      else (job, Write(c.out))
    case Write(out) =>
      if c.fault.Some? then (Terminated(job, Failed, Thrown(c.fault.value)), Exit)
      else if job.cancelRequested || stop then (Terminated(job, Cancelled, CancelledDuringArtifactWrite), Exit)
      else if c.expired then (Terminated(job, TimedOut, JobTimeout), Exit)
      else (job, Commit(out))
    case Commit(out) =>
      if c.fault.Some? then (FaultInCommit(env, job, out, c), Exit)
      else AfterCommitStep(env, job, out, stop, c)
    case Rebuild(out) =>
      if c.fault.Some? then (Unwound(env, job, out, Thrown(c.fault.value)), Exit)
      else if c.refused then (Terminated(Restored(env, job, out), Failed, ReceiverBuildFailed), Exit)
      else if job.cancelRequested || stop then
        (CancelledAfterWithholding(env, job, out, CancelledBeforeReceiverStart), Exit)
      else if c.expired then (Terminated(Restored(env, job, out), TimedOut, JobTimeout), Exit)
      else (job, StartReceiver(out))
    case StartReceiver(out) =>
      if c.fault.Some? then (Unwound(env, job, out, Thrown(c.fault.value)), Exit)
      else if c.refused then (Terminated(Restored(env, job, out), Failed, ReceiverStartFailed), Exit)
      else AfterStartStep(env, job, out, stop)
    case AbandonStart(out) =>
      if c.fault.Some? then (Unwound(env, job, out, Thrown(c.fault.value)), Exit)
      else (Terminated(Restored(env, job, out), Cancelled, CancelledDuringReceiverStart), Exit)
    case Poll(out) => (job, Polled(out, job.cancelRequested || stop))
    case Polled(out, sawCancel) =>
      if c.fault.Some? then (Unwound(env, job, out, Thrown(c.fault.value)), Exit)
      else if sawCancel then (Terminated(Restored(env, job, out), Cancelled, CancelledDuringReplay), Exit)
      else if c.expired then (Terminated(Restored(env, job, out), TimedOut, JobTimeout), Exit)
      else if c.finished then (job, Observe(out))
      else (job, Poll(out))
    case Observe(out) =>
      if c.fault.Some? then (Unwound(env, job, out, Thrown(c.fault.value)), Exit)
      else (job, Conclude(out, c.completed, c.accepted))
    case Conclude(out, completed, accepted) =>
      if c.fault.Some? then (Unwound(env, job, out, Thrown(c.fault.value)), Exit)
      else
        var (to, code) := ConcludedCode(completed, accepted);
        (Terminated(Restored(env, job, out), to, code), Exit)
    case Exit => (job, Exit)
  }

  // ---- The controller -----------------------------------------------------------------------

  datatype Record = Record(request: Request, job: JobId)

  datatype Artifact = Artifact(bytes: nat, modified: int)

  datatype Worker = Idle | Busy(job: JobId, pc: Pc)

  /** `table` holds every job record; `jobs` is the retained deque and `ledger` lists the jobs
      accepted since the last reset. `worker` plays both the thread and `active_job_`. */
  datatype State = State(
    table: map<JobId, Job>, jobs: seq<JobId>, queue: seq<JobId>, idempotency: map<Key, Record>,
    retained: seq<Artifact>, retainedBytes: nat, cursor: nat, epoch: nat, nextSequence: JobId,
    worker: Worker, shuttingDown: bool, stopRequested: bool, ledger: seq<JobId>)

  function SumBytes(a: seq<Artifact>): (r: nat) {
    if a == [] then 0 else a[0].bytes + SumBytes(a[1..])
  }

  ghost predicate WellFormed(s: State) {
    && (forall j <- s.jobs :: j in s.table)
    && (forall j <- s.queue :: j in s.table)
    && (forall k <- s.idempotency :: s.idempotency[k].job in s.table)
    && (s.worker.Busy? ==> s.worker.job in s.table)
    && s.retainedBytes == SumBytes(s.retained)
  }

  predicate IsLive(table: map<JobId, Job>, j: JobId) {
    j in table && !IsTerminal(table[j].state)
  }

  /** The retained jobs that are not terminal, in order. */
  function Live(table: map<JobId, Job>, jobs: seq<JobId>): seq<JobId> {
    if jobs == [] then []
    else (if IsLive(table, jobs[0]) then [jobs[0]] else []) + Live(table, jobs[1..])
  }

  // ---- Retention ------------------------------------------------------------------------------

  predicate IsFull(retained: seq<Artifact>, jobCount: nat) {
    |retained| + jobCount >= MAX_JOBS || SumBytes(retained) + (jobCount + 1) * IQ_QUOTA > RETENTION_QUOTA
  }

  predicate IsAged(table: map<JobId, Job>, j: JobId, cutoff: int) {
    j in table && IsTerminal(table[j].state) && table[j].created < cutoff
  }

  function Unaged(table: map<JobId, Job>, jobs: seq<JobId>, cutoff: int): seq<JobId> {
    if jobs == [] then []
    else (if IsAged(table, jobs[0], cutoff) then [] else [jobs[0]]) + Unaged(table, jobs[1..], cutoff)
  }

  /** Oldest artifacts from earlier runs go first while there is no room for one more job. */
  function TrimArtifacts(retained: seq<Artifact>, jobCount: nat): seq<Artifact> {
    if retained != [] && IsFull(retained, jobCount) then TrimArtifacts(retained[1..], jobCount) else retained
  }

  function WithoutFirstTerminal(table: map<JobId, Job>, jobs: seq<JobId>): (r: seq<JobId>)
    ensures |r| <= |jobs|
    ensures r != jobs ==> |r| < |jobs|
  {
    if jobs == [] then []
    else if !IsLive(table, jobs[0]) then jobs[1..]
    else [jobs[0]] + WithoutFirstTerminal(table, jobs[1..])
  }

  /** Then the oldest terminal jobs. */
  function TrimJobs(table: map<JobId, Job>, jobs: seq<JobId>, retained: seq<Artifact>): seq<JobId>
    decreases |jobs|
  {
    var fewer := WithoutFirstTerminal(table, jobs);
    if IsFull(retained, |jobs|) && fewer != jobs then TrimJobs(table, fewer, retained) else jobs
  }

  function DigestsOf(table: map<JobId, Job>, gone: set<JobId>): set<Key> {
    set j | j in gone && j in table :: table[j].digest
  }

  function Elements<T>(s: seq<T>): set<T> { set x | x in s }

  /** The table without the keys of the jobs that are in `whole` but no longer in `part`. */
  function Forgetting(idempotency: map<Key, Record>, table: map<JobId, Job>, whole: seq<JobId>, part: seq<JobId>): map<Key, Record> {
    idempotency - DigestsOf(table, Elements(whole) - Elements(part))
  }

  /** `PurgeUnlocked` up to its last loop. */
  function Purged(s: State, cutoff: int): State {
    var young := Unaged(s.table, s.jobs, cutoff);
    var retained := TrimArtifacts(s.retained, |young|);
    var jobs := TrimJobs(s.table, young, retained);
    s.(jobs := jobs, retained := retained, retainedBytes := SumBytes(retained),
       idempotency := Forgetting(s.idempotency, s.table, s.jobs, jobs))
  }

  predicate IsDroppable(table: map<JobId, Job>, jobs: seq<JobId>, worker: Worker, r: Record) {
    !IsAlive(jobs, worker, r.job) || !IsLive(table, r.job)
  }

  /** The last loop drops entries in an order the hash table chooses. */
  ghost predicate IdempotencyTrimmed(s: State, before: map<Key, Record>, after: map<Key, Record>) {
    && after.Keys <= before.Keys
    && (forall k <- after :: after[k] == before[k])
    && (forall k <- before :: k !in after ==> IsDroppable(s.table, s.jobs, s.worker, before[k]))
    && (|before| < MAX_IDEMPOTENCY_ENTRIES ==> after == before)
    && (|after| >= MAX_IDEMPOTENCY_ENTRIES ==> forall k <- after :: !IsDroppable(s.table, s.jobs, s.worker, after[k]))
  }

  ghost predicate PurgeStep(s: State, cutoff: int, s': State) {
    var p := Purged(s, cutoff);
    s' == p.(idempotency := s'.idempotency) && IdempotencyTrimmed(p, p.idempotency, s'.idempotency)
  }

  // ---- Submit, Cancel, Reset, Shutdown ---------------------------------------------------------

  /** The captured configuration: whether both snapshots agreed, the pulse count of each
      scheduled message, and whether the receiver graph carries the channel IQ offsets. */
  datatype Scenario = Scenario(consistent: bool, pulses: seq<nat>, hasIqOffsets: bool)

  datatype Refusal =
    | ShuttingDown | KeyReused | HistoryFull | ConfigurationChanged | NoMessages
    | CursorExhausted | PulseQuota | NoIqMap | NotFound | ActiveJob | QueuedJobs

  datatype Reply = Refused(why: Refusal) | Reused(job: JobId) | Accepted(job: JobId) | Done | Unchanged

  function Sum(s: seq<nat>): nat { if s == [] then 0 else s[0] + Sum(s[1..]) }

  /** A weak reference to a job resolves while the job is retained or being processed. */
  predicate IsAlive(jobs: seq<JobId>, worker: Worker, j: JobId) {
    j in jobs || (worker.Busy? && worker.job == j)
  }

  function Admission(s: State, request: Request, scenario: Scenario): Option<Refusal> {
    if IsFull(s.retained, |s.jobs|) then Some(HistoryFull)
    else if !scenario.consistent then Some(ConfigurationChanged)
    else if scenario.pulses == [] then Some(NoMessages)
    else if s.cursor + request.count > |scenario.pulses| then Some(CursorExhausted)
    else if Sum(scenario.pulses[s.cursor..s.cursor + request.count]) > MAX_PULSES then Some(PulseQuota)
    else if !scenario.hasIqOffsets then Some(NoIqMap)
    else None
  }

  function Enrolled(s: State, key: Key, request: Request, now: int): State {
    var j := s.nextSequence;
    s.(table := s.table[j := NewJob(key, request, s.cursor, now)], jobs := s.jobs + [j],
       queue := s.queue + [j], idempotency := s.idempotency[key := Record(request, j)],
       cursor := s.cursor + request.count, nextSequence := j + 1, ledger := s.ledger + [j])
  }

  function Admitted(s: State, key: Key, request: Request, scenario: Scenario, now: int): (State, Reply) {
    match Admission(s, request, scenario)
    case Some(why) => (s, Refused(why))
    case None => (Enrolled(s, key, request, now), Accepted(s.nextSequence))
  }

  /** Set when the request is settled before any purge: shutdown, or a known idempotency key. */
  function EarlyReply(s: State, key: Key, request: Request): Option<Reply> {
    if s.shuttingDown then Some(Refused(ShuttingDown))
    else if key in s.idempotency && s.idempotency[key].request != request then Some(Refused(KeyReused))
    else if key in s.idempotency && IsAlive(s.jobs, s.worker, s.idempotency[key].job) then Some(Reused(s.idempotency[key].job))
    else None
  }

  ghost predicate SubmitStep(s: State, key: Key, request: Request, scenario: Scenario, cutoff: int, now: int,
                             s': State, reply: Reply)
  {
    match EarlyReply(s, key, request)
    case Some(r) => s' == s && reply == r
    case None =>
      exists p: State :: PurgeStep(s.(idempotency := s.idempotency - {key}), cutoff, p)
                         && (s', reply) == Admitted(p, key, request, scenario, now)
  }

  function CancelStep(s: State, j: JobId): (State, Reply)
  {
    if j !in s.jobs || j !in s.table then (s, Refused(NotFound))
    else
      var job := s.table[j];
      if IsTerminal(job.state) then (s, Unchanged)
      else
        var flagged := job.(cancelRequested := true);
        if job.state == Queued then
          (s.(queue := Removed(s.queue, j),
              table := s.table[j := Terminated(flagged, Cancelled, CancelledBeforeGeneration)]), Done)
        else
          (s.(table := s.table[j := Moved(flagged, Cancelling).value]), Done)
  }

  function ResetStep(s: State): (State, Reply) {
    if s.worker.Busy? && IsLive(s.table, s.worker.job) then (s, Refused(ActiveJob))
    else if exists j <- s.queue :: IsLive(s.table, j) then (s, Refused(QueuedJobs))
    else
      var already := s.cursor == 0 && s.idempotency == map[];
      (s.(cursor := 0, idempotency := map[], ledger := [], epoch := if already then s.epoch else s.epoch + 1), Done)
  }

  function ShutdownJob(job: Job): Job {
    if IsTerminal(job.state) then job
    else Terminated(job.(cancelRequested := true), Cancelled, ApplicationShutdown)
  }

  /** The queue is cancelled; then the active job is flagged and, unless at rest, sent to
      `cancelling`. The second result says that this last `Transition` threw. */
  function ShutdownStep(s: State): (State, bool)
    requires WellFormed(s)
  {
    if s.shuttingDown then (s, false)
    else
      var table := map j <- s.table :: if j in s.queue then ShutdownJob(s.table[j]) else s.table[j];
      var s1 := s.(shuttingDown := true, queue := [], table := table);
      if s.worker.Idle? then (s1, false)
      else
        var j := s.worker.job;
        var flagged := table[j].(cancelRequested := true);
        if IsTerminal(flagged.state) then (s1.(table := table[j := flagged]), false)
        else
          match Moved(flagged, Cancelling)
          case None => (s1.(table := table[j := flagged]), true)
          case Some(moved) => (s1.(table := table[j := moved]), false)
  }

  function PopStep(s: State): State {
    if s.worker.Idle? && !s.shuttingDown && !s.stopRequested && s.queue != []
    then s.(worker := Busy(s.queue[0], Begin), queue := s.queue[1..])
    else s
  }

  function WorkStep(env: Env, s: State, c: Choice): State
    requires WellFormed(s)
  {
    if s.worker.Idle? then s
    else if s.worker.pc.Exit? then s.(worker := Idle)
    else
      var j := s.worker.job;
      var (job, pc) := WorkJob(env, s.table[j], s.worker.pc, s.stopRequested, c);
      s.(table := s.table[j := job], worker := Busy(j, pc))
  }

  /** `request_stop` follows the locked part of `Shutdown`. */
  function StopStep(s: State): State {
    if s.shuttingDown then s.(stopRequested := true) else s
  }
}
