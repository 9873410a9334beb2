/** What the two-tier retention of the job controller keeps and drops. */
module JobRetention {
  import opened Prelude
  import opened JobModel

  /** `part` is what is left of `whole` after dropping only jobs at rest. */
  ghost predicate DropsOnlyTerminal(table: map<JobId, Job>, whole: seq<JobId>, part: seq<JobId>) {
    && |part| <= |whole|
    && (forall j <- part :: j in whole)
    && (forall j <- whole :: j !in part ==> !IsLive(table, j))
    && Live(table, part) == Live(table, whole)
    && (Increasing(whole) ==> Increasing(part))
  }

  /** Keeping or dropping the head on top of what happens to the tail. */
  lemma HeadDecided(table: map<JobId, Job>, whole: seq<JobId>, part: seq<JobId>)
    requires whole != [] && DropsOnlyTerminal(table, whole[1..], part)
    ensures DropsOnlyTerminal(table, whole, [whole[0]] + part)
    ensures !IsLive(table, whole[0]) ==> DropsOnlyTerminal(table, whole, part)
  {
    assert whole == [whole[0]] + whole[1..];
    assert ([whole[0]] + part)[1..] == part;
    if Increasing(whole) { IncreasingTail(whole); IncreasingCons(whole[0], part); }
  }

  lemma {:induction false} UnagedDropsOnlyTerminal(table: map<JobId, Job>, jobs: seq<JobId>, cutoff: int)
    ensures DropsOnlyTerminal(table, jobs, Unaged(table, jobs, cutoff))
  {
    if jobs != [] {
      UnagedDropsOnlyTerminal(table, jobs[1..], cutoff);
      var rest := Unaged(table, jobs[1..], cutoff);
      HeadDecided(table, jobs, rest);
      assert Unaged(table, jobs, cutoff) == if IsAged(table, jobs[0], cutoff) then rest else [jobs[0]] + rest;
    }
  }

  lemma {:induction false} WithoutFirstTerminalDrops(table: map<JobId, Job>, jobs: seq<JobId>)
    ensures DropsOnlyTerminal(table, jobs, WithoutFirstTerminal(table, jobs))
    ensures WithoutFirstTerminal(table, jobs) == jobs <==> Live(table, jobs) == jobs
  {
    if jobs != [] {
      WithoutFirstTerminalDrops(table, jobs[1..]);
      HeadDecided(table, jobs, WithoutFirstTerminal(table, jobs[1..]));
      DropsReflexive(table, jobs[1..]);
      HeadDecided(table, jobs, jobs[1..]);
      LiveIsPart(table, jobs[1..]);
      assert jobs == [jobs[0]] + jobs[1..];
      if IsLive(table, jobs[0]) {
        assert Live(table, jobs)[1..] == Live(table, jobs[1..]);
      }
    }
  }

  lemma DropsReflexive(table: map<JobId, Job>, jobs: seq<JobId>)
    ensures DropsOnlyTerminal(table, jobs, jobs)
  {
  }

  lemma {:induction false} LiveIsPart(table: map<JobId, Job>, jobs: seq<JobId>)
    ensures |Live(table, jobs)| <= |jobs|
    ensures forall j :: j in Live(table, jobs) <==> j in jobs && IsLive(table, j)
  {
    if jobs != [] { LiveIsPart(table, jobs[1..]); }
  }

  lemma {:induction false} TrimJobsStops(table: map<JobId, Job>, jobs: seq<JobId>, retained: seq<Artifact>)
    ensures var r := TrimJobs(table, jobs, retained);
            DropsOnlyTerminal(table, jobs, r) && (IsFull(retained, |r|) ==> Live(table, r) == r)
    decreases |jobs|
  {
    var fewer := WithoutFirstTerminal(table, jobs);
    WithoutFirstTerminalDrops(table, jobs);
    if IsFull(retained, |jobs|) && fewer != jobs { TrimJobsStops(table, fewer, retained); }
  }

  ghost predicate IsSuffix<T>(part: seq<T>, whole: seq<T>) {
    |part| <= |whole| && part == whole[|whole| - |part|..]
  }

  lemma {:induction false} TrimArtifactsStops(retained: seq<Artifact>, jobCount: nat)
    ensures var r := TrimArtifacts(retained, jobCount);
            IsSuffix(r, retained) && SumBytes(r) <= SumBytes(retained) && (IsFull(r, jobCount) ==> r == [])
  {
    if retained != [] && IsFull(retained, jobCount) { TrimArtifactsStops(retained[1..], jobCount); }
  }

  /** What one purge does: room for one more job unless every retained job is live and nothing
      else is left to drop. */
  lemma PurgeMakesRoom(s: State, cutoff: int)
    ensures var p := Purged(s, cutoff);
            && DropsOnlyTerminal(s.table, s.jobs, p.jobs)
            && IsSuffix(p.retained, s.retained)
            && p.retainedBytes == SumBytes(p.retained) <= SumBytes(s.retained)
            && (IsFull(p.retained, |p.jobs|) ==> p.retained == [] && Live(s.table, s.jobs) == p.jobs)
  {
    var young := Unaged(s.table, s.jobs, cutoff);
    UnagedDropsOnlyTerminal(s.table, s.jobs, cutoff);
    var retained := TrimArtifacts(s.retained, |young|);
    TrimArtifactsStops(s.retained, |young|);
    TrimJobsStops(s.table, young, retained);
    var jobs := TrimJobs(s.table, young, retained);
    if IsFull(retained, |jobs|) {
      assert IsFull(retained, |young|);
    }
  }

  lemma {:induction false} DigestCount(table: map<JobId, Job>, jobs: seq<JobId>)
    ensures |DigestsOf(table, Elements(jobs))| <= |jobs|
  {
    if jobs == [] {
      assert DigestsOf(table, Elements(jobs)) == {};
    } else {
      DigestCount(table, jobs[1..]);
      var rest := DigestsOf(table, Elements(jobs[1..]));
      var d := if jobs[0] in table then {table[jobs[0]].digest} else {};
      assert DigestsOf(table, Elements(jobs)) == rest + d;
    }
  }
}
