/** The investigation bundle service: operations, the bundle directory, and the effect of each
    critical section. */
module BundleModel {
  import opened Prelude

  type OpId = nat
  type Name = string
  type Key = string

  const MAX_OPERATIONS := 32

  datatype OpState =
    | Queued | ValidatingSource | Hashing | Copying | Publishing | Validating
    | RebuildingReceiver | RunningReceiver | Cancelling
    | Completed | Cancelled | Failed | TimedOut

  predicate AtRest(s: OpState) { s.Completed? || s.Cancelled? || s.Failed? || s.TimedOut? }

  datatype Kind = Export(bundle: Name, copy: bool) | Validate | Replay

  /** The canonical request: its kind, and the text that identifies the rest of it. */
  datatype Request = Request(kind: Kind, text: string)

  /** `committed` is the marker written together with the atomic rename. */
  datatype Op = Op(kind: Kind, key: Key, request: Request, state: OpState, cancelRequested: bool, committed: bool)

  /** An idempotency entry. */
  datatype Record = Record(request: Request, op: OpId)

  /** Exceptions, by the handler of `Process` that catches them. */
  datatype Fault = SystemError | LengthError | Interrupted | OtherError

  datatype Pc =
    | Check | Enter | Source | Hash | MakeStaging | Stage | ToCopying | Copy | ToPublishing | Seal | Publish | Sync
    | Inspect | ToRebuild | ToRunning | Receiver | Conclude
    | Handle(fault: Fault) | Judge(verdict: OpState) | Exit

  /** What the environment decides for one step: an exception, the deadline, whether removing the
      staging directory works, and whether the receiver has finished. */
  datatype Choice = Choice(fault: Option<Fault>, expired: bool, cleans: bool, finished: bool)

  datatype Worker = Idle | Busy(op: OpId, pc: Pc)

  /** The bounded list of operations and the idempotency table. */
  datatype History = History(listed: seq<OpId>, keys: map<Key, Record>)

  /** `ops` holds every record. `root` maps each directory under the bundle root to the operation that created it; `leaked`
      lists operations whose staging directory could not be removed. */
  datatype State = State(ops: map<OpId, Op>, history: History, queue: seq<OpId>, worker: Worker, root: map<Name, OpId>,
                         leaked: set<OpId>, nextSequence: OpId, shuttingDown: bool, stopRequested: bool)

  /** The private staging name of an operation. */
  type Staging = OpId -> Name

  predicate IsStaged(pc: Pc) {
    pc.Stage? || pc.ToCopying? || pc.Copy? || pc.ToPublishing? || pc.Seal? || pc.Publish?
  }

  // ---- Transition and Terminal --------------------------------------------------------------------

  function Transitioned(op: Op, to: OpState): Op {
    op.(state := if op.cancelRequested && to != Cancelled then Cancelling else to)
  }

  function Ended(op: Op, to: OpState): Op {
    if AtRest(op.state) then op
    else op.(state := if op.cancelRequested then Cancelled else to)
  }

  // ---- Requests -------------------------------------------------------------------------------------

  datatype Reply = Accepted(op: OpId) | Reused(op: OpId) | Unchanged | NotFound | Unavailable | KeyReused | HistoryFull

  function NewOp(key: Key, request: Request): Op { Op(request.kind, key, request, Queued, false, false) }

  /** The history without its oldest operation at rest. */
  function WithoutFirstRested(ops: map<OpId, Op>, listed: seq<OpId>): (r: seq<OpId>)
    ensures |r| <= |listed| && (r != listed ==> |r| < |listed|)
  {
    if listed == [] then []
    else if listed[0] in ops && AtRest(ops[listed[0]].state) then listed[1..]
    else [listed[0]] + WithoutFirstRested(ops, listed[1..])
  }

  /** Operations at rest leave, oldest first, while the history is full. */
  function Trimmed(ops: map<OpId, Op>, listed: seq<OpId>): seq<OpId>
    decreases |listed|
  {
    var fewer := WithoutFirstRested(ops, listed);
    if |listed| >= MAX_OPERATIONS && fewer != listed then Trimmed(ops, fewer) else listed
  }

  /** The table without the keys of operations that are in `whole` and not in `part`. */
  function Forgetting(keys: map<Key, Record>, ops: map<OpId, Op>, whole: seq<OpId>, part: seq<OpId>): map<Key, Record> {
    keys - (set o | o in whole && o !in part && o in ops :: ops[o].key)
  }

  function Purged(ops: map<OpId, Op>, h: History): History {
    var listed := Trimmed(ops, h.listed);
    History(listed, Forgetting(h.keys, ops, h.listed, listed))
  }

  /** A weak reference resolves while the operation is listed or in the worker's hands. */
  predicate IsAlive(s: State, o: OpId) { o in s.history.listed || (s.worker.Busy? && s.worker.op == o) }

  function Enrolled(s: State, h: History, key: Key, request: Request): State {
    var o := s.nextSequence;
    s.(ops := s.ops[o := NewOp(key, request)], history := History(h.listed + [o], h.keys[key := Record(request, o)]),
       queue := s.queue + [o], nextSequence := o + 1)
  }

  function SubmitStep(s: State, key: Key, request: Request): (State, Reply) {
    if s.shuttingDown then (s, Unavailable)
    else if key in s.history.keys && s.history.keys[key].request != request then (s, KeyReused)
    else if key in s.history.keys && IsAlive(s, s.history.keys[key].op) then (s, Reused(s.history.keys[key].op))
    else
      var h := Purged(s.ops, s.history);
      if |h.listed| >= MAX_OPERATIONS then (s.(history := h), HistoryFull)
      else (Enrolled(s, h, key, request), Accepted(s.nextSequence))
  }

  function CancelStep(s: State, o: OpId): (State, Reply) {
    if o !in s.history.listed || o !in s.ops then (s, NotFound)
    else if AtRest(s.ops[o].state) || s.ops[o].committed then (s, Unchanged)
    else
      var op := s.ops[o].(cancelRequested := true);
      if op.state == Queued
      then (s.(ops := s.ops[o := op.(state := Cancelled)], queue := Removed(s.queue, o)), Accepted(o))
      else (s.(ops := s.ops[o := op.(state := Cancelling)]), Accepted(o))
  }

  /** Queued operations end; the active one is only flagged, and only before its rename. */
  function ShutdownStep(s: State): State {
    if s.shuttingDown then s
    else
      s.(shuttingDown := true, queue := [],
         ops := map o <- s.ops ::
           var op := s.ops[o];
           if o in s.queue then op.(cancelRequested := true, state := Cancelled)
           else if s.worker.Busy? && s.worker.op == o && !op.committed then op.(cancelRequested := true)
           else op)
  }

  function StopStep(s: State): State {
    if s.shuttingDown then s.(stopRequested := true) else s
  }

  function PopStep(s: State): State {
    if s.worker.Idle? && !s.shuttingDown && !s.stopRequested && s.queue != []
    then s.(worker := Busy(s.queue[0], Check), queue := s.queue[1..])
    else s
  }

  // ---- The worker -----------------------------------------------------------------------------------

  function At(s: State, o: OpId, pc: Pc): State { s.(worker := Busy(o, pc)) }

  function With(s: State, o: OpId, op: Op, pc: Pc): State { s.(ops := s.ops[o := op], worker := Busy(o, pc)) }

  /** The catch block of `Export`: remove the staging directory, rethrow. */
  function Cleaned(staging: Staging, s: State, o: OpId, c: Choice, fault: Fault): State {
    At(if c.cleans then s.(root := s.root - {staging(o)}) else s.(leaked := s.leaked + {o}), o, Handle(fault))
  }

  predicate Stopping(op: Op, stop: bool, c: Choice) { op.cancelRequested || stop || c.expired }

  function PublishStep(staging: Staging, s: State, o: OpId, c: Choice): State
    requires o in s.ops
  {
    var op := s.ops[o];
    if Stopping(op, s.stopRequested, c) then Cleaned(staging, s, o, c, Interrupted)
    else if c.fault.Some? then Cleaned(staging, s, o, c, c.fault.value)
    else if !op.kind.Export? || op.kind.bundle in s.root then Cleaned(staging, s, o, c, OtherError)
    else
      With(s.(root := (s.root - {staging(o)})[op.kind.bundle := o]), o,
           op.(state := Completed, committed := true), Sync)
  }

  function StagingStep(staging: Staging, s: State, o: OpId, c: Choice): State
    requires o in s.ops
  {
    var op := s.ops[o];
    if c.fault.Some? then At(s, o, Handle(c.fault.value))
    else if !op.kind.Export? || op.kind.bundle in s.root || staging(o) in s.root then At(s, o, Handle(OtherError))
    else At(s.(root := s.root[staging(o) := o]), o, Stage)
  }

  function Verdict(op: Op, stop: bool, c: Choice, fault: Fault): OpState {
    if fault == Interrupted && (op.cancelRequested || stop) then Cancelled
    else if fault == Interrupted && c.expired then TimedOut
    else Failed
  }

  /** Steps that touch only the operation's record. */
  predicate IsPlain(pc: Pc, c: Choice) {
    !pc.Exit? && !pc.MakeStaging? && !pc.Publish? && !((pc.Stage? || pc.Copy? || pc.Seal?) && c.fault.Some?)
  }

  function PlainStep(op: Op, pc: Pc, stop: bool, c: Choice): (Op, Pc)
    requires IsPlain(pc, c)
  {
    match pc
    case Check => if op.cancelRequested then (Ended(op, Cancelled), Exit) else (op, Enter)
    case Enter =>
      if op.kind.Export? then (Transitioned(op, ValidatingSource), Source) else (Transitioned(op, Validating), Inspect)
    case Source => if c.fault.Some? then (op, Handle(c.fault.value)) else (Transitioned(op, Hashing), Hash)
    case Hash => (op, if c.fault.Some? then Handle(c.fault.value) else MakeStaging)
    case Stage => (op, if op.kind.Export? && op.kind.copy then ToCopying else ToPublishing)
    case ToCopying => (Transitioned(op, Copying), Copy)
    case Copy => (op, ToPublishing)
    case ToPublishing => (Transitioned(op, Publishing), Seal)
    case Seal => (op, Publish)
    case Sync => (op, if c.fault.Some? then Handle(c.fault.value) else Exit)
    case Inspect =>
      (op, if c.fault.Some? then Handle(c.fault.value) else if op.kind.Replay? then ToRebuild else Conclude)
    case ToRebuild =>
      if Stopping(op, stop, c) then (op, Handle(Interrupted)) else (Transitioned(op, RebuildingReceiver), ToRunning)
    case ToRunning =>
      if c.fault.Some? then (op, Handle(c.fault.value)) else (Transitioned(op, RunningReceiver), Receiver)
    case Receiver =>
      (op, if Stopping(op, stop, c) then Handle(Interrupted)
           else if !c.finished then Receiver
           else if c.fault.Some? then Handle(c.fault.value) else Conclude)
    case Conclude => (Ended(op, Completed), Exit)
    case Handle(fault) =>
      if fault == SystemError || fault == LengthError then (Ended(op, Failed), Exit)
      else (op, Judge(Verdict(op, stop, c, fault)))
    case Judge(verdict) => (Ended(op, verdict), Exit)
  }

  function WorkStep(staging: Staging, s: State, c: Choice): State
    requires s.worker.Busy? ==> s.worker.op in s.ops
  {
    if s.worker.Idle? then s
    else
      var o := s.worker.op;
      var pc := s.worker.pc;
      if pc.Exit? then s.(worker := Idle)
      else if pc.MakeStaging? then StagingStep(staging, s, o, c)
      else if pc.Publish? then PublishStep(staging, s, o, c)
      else if !IsPlain(pc, c) then Cleaned(staging, s, o, c, c.fault.value)
      else var (op, next) := PlainStep(s.ops[o], pc, s.stopRequested, c); With(s, o, op, next)
  }
}
