/** The bounded history and the idempotency table of the bundle service. */
module BundleHistory {
  import opened Prelude
  import opened BundleModel
  import opened BundleRuns

  /** `part` is what is left of `whole` after dropping only operations at rest. */
  ghost predicate DropsRested(ops: map<OpId, Op>, whole: seq<OpId>, part: seq<OpId>) {
    && (forall o <- part :: o in whole)
    && (forall o <- whole :: o !in part ==> o in ops && AtRest(ops[o].state))
    && (Increasing(whole) ==> Increasing(part))
  }

  lemma {:induction false} FirstRestedGoes(ops: map<OpId, Op>, listed: seq<OpId>)
    ensures DropsRested(ops, listed, WithoutFirstRested(ops, listed))
    ensures WithoutFirstRested(ops, listed) == listed <==> forall o <- listed :: o in ops ==> !AtRest(ops[o].state)
  {
    if listed != [] {
      var head, tail := listed[0], listed[1..];
      assert listed == [head] + tail;
      FirstRestedGoes(ops, tail);
      var rest := WithoutFirstRested(ops, tail);
      assert forall o :: o in [head] + rest <==> o == head || o in rest;
      if Increasing(listed) {
        IncreasingTail(listed);
        IncreasingCons(head, rest);
      }
      if head in ops && AtRest(ops[head].state) {
        assert |tail| < |listed|;
      } else {
        assert [head] + rest == listed <==> rest == tail by { assert ([head] + rest)[1..] == rest; }
      }
    }
  }

  /** A purge drops only operations at rest; a full history is left only when none is at rest. */
  lemma {:induction false} TrimmedFacts(ops: map<OpId, Op>, listed: seq<OpId>)
    ensures DropsRested(ops, listed, Trimmed(ops, listed))
    ensures |Trimmed(ops, listed)| >= MAX_OPERATIONS ==> forall o <- Trimmed(ops, listed) :: o in ops ==> !AtRest(ops[o].state)
    ensures (forall o <- listed :: o in ops ==> !AtRest(ops[o].state)) ==> Trimmed(ops, listed) == listed
    decreases |listed|
  {
    hide WithoutFirstRested, Increasing;
    FirstRestedGoes(ops, listed);
    var fewer := WithoutFirstRested(ops, listed);
    if |listed| >= MAX_OPERATIONS && fewer != listed { TrimmedFacts(ops, fewer); }
  }

  ghost predicate EntriesOk(ops: map<OpId, Op>, h: History) {
    && (forall k <- h.keys :: var r := h.keys[k];
          r.op in h.listed && r.op in ops && ops[r.op].key == k && ops[r.op].request == r.request)
    && (forall o <- h.listed :: o in ops && ops[o].key in h.keys && h.keys[ops[o].key].op == o)
  }

  ghost predicate HistoryOk(s: State) {
    && Increasing(s.history.listed) && |s.history.listed| <= 32
    && (forall o <- s.history.listed :: o < s.nextSequence)
    && EntriesOk(s.ops, s.history)
    && (forall o <- s.queue :: o in s.history.listed)
  }

  lemma PurgedEntries(ops: map<OpId, Op>, h: History, listed: seq<OpId>)
    requires EntriesOk(ops, h) && DropsRested(ops, h.listed, listed)
    ensures EntriesOk(ops, History(listed, Forgetting(h.keys, ops, h.listed, listed)))
  {
  }

  lemma EnrolledEntries(s: State, h: History, key: Key, request: Request)
    requires EntriesOk(s.ops, h) && key !in h.keys && s.nextSequence !in s.ops && s.nextSequence !in h.listed
    ensures EntriesOk(Enrolled(s, h, key, request).ops, Enrolled(s, h, key, request).history)
  {
    var o := s.nextSequence;
    assert forall x :: x in h.listed + [o] <==> x in h.listed || x == o;
  }

  lemma PurgeHistory(staging: Staging, s: State)
    requires Inv(staging, s) && HistoryOk(s)
    ensures HistoryOk(s.(history := Purged(s.ops, s.history)))
  {
    hide DirInv, AtPc, EntriesOk, Trimmed, Forgetting, Increasing, WorkerInv;
    var listed := Trimmed(s.ops, s.history.listed);
    TrimmedFacts(s.ops, s.history.listed);
    SameSize(s.ops, s.history.listed);
    PurgedEntries(s.ops, s.history, listed);
    forall o <- s.queue ensures o in listed { assert OpInv(s, o); }
  }

  lemma EnrolHistory(staging: Staging, s: State, h: History, key: Key, request: Request)
    requires Inv(staging, s) && HistoryOk(s.(history := h)) && |h.listed| < MAX_OPERATIONS && key !in h.keys
    ensures HistoryOk(Enrolled(s, h, key, request))
  {
    hide DirInv, AtPc, EntriesOk, Increasing, WorkerInv;
    assert s.nextSequence !in s.ops by { assert forall o <- s.ops :: OpInv(s, o); }
    EnrolledEntries(s, h, key, request);
    IncreasingAppend(h.listed, s.nextSequence);
    assert forall x :: x in s.queue + [s.nextSequence] <==> x in s.queue || x == s.nextSequence;
  }

  lemma SubmitHistory(staging: Staging, s: State, key: Key, request: Request)
    requires Inv(staging, s) && HistoryOk(s)
    ensures HistoryOk(SubmitStep(s, key, request).0)
  {
    EntryAlive(s, key);
    hide Inv, Trimmed, Forgetting, Enrolled, HistoryOk;
    PurgeHistory(staging, s);
    var h := Purged(s.ops, s.history);
    ForgetsOnly(s.history.keys, s.ops, s.history.listed, h.listed, key);
    if |h.listed| < MAX_OPERATIONS && key !in h.keys { EnrolHistory(staging, s, h, key, request); }
  }

  lemma ForgetsOnly(keys: map<Key, Record>, ops: map<OpId, Op>, whole: seq<OpId>, part: seq<OpId>, key: Key)
    ensures key in Forgetting(keys, ops, whole, part) ==> key in keys
  {
  }

  lemma EntryAlive(s: State, key: Key)
    requires EntriesOk(s.ops, s.history)
    ensures key in s.history.keys ==> IsAlive(s, s.history.keys[key].op)
  {
  }

  /** Steps that leave the history alone keep every record's key and request. */
  lemma OtherHistory(s: State, s': State)
    requires HistoryOk(s) && s'.history == s.history && s'.nextSequence == s.nextSequence && Evolves(s, s')
    requires forall o <- s'.queue :: o in s.queue
    ensures HistoryOk(s')
  {
    hide Increasing;
  }

  lemma OtherFrame(staging: Staging, s: State, e: Event)
    requires WellFormed(s) && !e.Submit?
    ensures var s' := Next(staging, s, e);
            && s'.history == s.history && s'.nextSequence == s.nextSequence && forall o <- s'.queue :: o in s.queue
  {
    hide PlainStep, Removed;
    if e.Cancel? { RemovedFacts(s.queue, e.op); }
  }

  lemma {:induction false} RunHistory(staging: Staging, run: seq<State>, events: seq<Event>, i: nat)
    requires IsRun(staging, run, events) && i < |run|
    ensures HistoryOk(run[i])
  {
    if i > 0 {
      hide Inv, HistoryOk, Evolves, SubmitStep, CancelStep, ShutdownStep, WorkStep, PopStep, StopStep;
      RunHistory(staging, run, events, i - 1);
      RunInvariant(staging, run, events, i - 1);
      var s, e := run[i - 1], events[i - 1];
      assert run[i] == Next(staging, s, e) && WellFormed(s);
      if e.Submit? {
        SubmitHistory(staging, s, e.key, e.request);
      } else {
        NextKeeps(staging, s, e);
        OtherFrame(staging, s, e);
        OtherHistory(s, run[i]);
      }
    }
  }

  /** A known key changes nothing: the same request gets the listed operation that carries it, any
      other request is refused. */
  lemma KnownKeyIsIdempotent(staging: Staging, run: seq<State>, events: seq<Event>, i: nat, key: Key, request: Request)
    requires IsRun(staging, run, events) && i < |run| && !run[i].shuttingDown && key in run[i].history.keys
    ensures var s := run[i]; var r := s.history.keys[key];
            && SubmitStep(s, key, request) == (s, if r.request == request then Reused(r.op) else KeyReused)
            && r.op in s.history.listed && r.op in s.ops && s.ops[r.op].key == key && s.ops[r.op].request == r.request
  {
    RunHistory(staging, run, events, i);
  }

  /** A new request is turned away if and only if thirty-two operations are listed and none is at
      rest; and what a submit drops from the history was at rest. */
  lemma HistoryFullIffAllLive(staging: Staging, run: seq<State>, events: seq<Event>, i: nat, key: Key, request: Request)
    requires IsRun(staging, run, events) && i < |run| && !run[i].shuttingDown && key !in run[i].history.keys
    ensures var s := run[i]; var (s', reply) := SubmitStep(s, key, request);
            && (reply == HistoryFull <==>
                  |s.history.listed| == 32 && forall o <- s.history.listed :: o in s.ops && !AtRest(s.ops[o].state))
            && (forall o <- s.history.listed :: o !in s'.history.listed ==> o in s.ops && AtRest(s.ops[o].state))
  {
    hide Trimmed, Forgetting, Increasing;
    RunHistory(staging, run, events, i);
    var s := run[i];
    TrimmedFacts(s.ops, s.history.listed);
    var listed := Trimmed(s.ops, s.history.listed);
    if |listed| >= MAX_OPERATIONS { SameSize(s.ops, s.history.listed); }
    assert forall x :: x in listed ==> x in listed + [s.nextSequence];
  }

  /** A purge that leaves the history full has dropped nothing. */
  lemma {:induction false} SameSize(ops: map<OpId, Op>, listed: seq<OpId>)
    ensures |Trimmed(ops, listed)| <= |listed| && (|Trimmed(ops, listed)| == |listed| ==> Trimmed(ops, listed) == listed)
    decreases |listed|
  {
    hide WithoutFirstRested;
    var fewer := WithoutFirstRested(ops, listed);
    if |listed| >= MAX_OPERATIONS && fewer != listed { SameSize(ops, fewer); }
  }
}
