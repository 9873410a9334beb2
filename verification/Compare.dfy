/** Expected-versus-observed pulse comparison: the greedy one-to-one matcher. */
module Compare {
  import opened Prelude
  import opened Schedule

  const TOLERANCE := 64

  datatype Observed = Observed(start: nat, channel: nat, decoded: nat)

  datatype Match = Match(expected: nat, observed: nat, delta: int, agrees: bool)
  datatype Tie = Tie(observed: nat, candidates: seq<nat>)

  /** The four lists of the comparison document. */
  datatype Report = Report(matches: seq<Match>, unexpected: seq<nat>, ambiguous: seq<Tie>, missed: seq<nat>)

  function Distance(e: Expected, o: Observed): nat {
    if e.start > o.start then e.start - o.start else o.start - e.start
  }

  predicate Compatible(e: Expected, o: Observed) { e.channel == o.channel && Distance(e, o) <= TOLERANCE }

  // ---- What each observation gets, said without the algorithm -------------------------------------------

  /** `best` beats every other free compatible pulse; `tied` shares the first place. */
  datatype Verdict = Matched(best: nat) | Unexpected | Ambiguous(tied: seq<nat>)

  ghost predicate Eligible(expected: seq<Expected>, o: Observed, taken: set<nat>, e: nat) {
    e < |expected| && e !in taken && Compatible(expected[e], o)
  }

  ghost predicate Best(expected: seq<Expected>, o: Observed, taken: set<nat>, e: nat) {
    && Eligible(expected, o, taken, e)
    && forall x: nat :: Eligible(expected, o, taken, x) ==> Distance(expected[e], o) <= Distance(expected[x], o)
  }

  ghost predicate Judges(expected: seq<Expected>, o: Observed, taken: set<nat>, v: Verdict) {
    match v
    case Unexpected => forall e: nat :: !Eligible(expected, o, taken, e)
    case Matched(e) => Best(expected, o, taken, e) && forall x: nat :: Best(expected, o, taken, x) ==> x == e
    case Ambiguous(tied) => |tied| > 1 && Increasing(tied) && forall x :: x in tied <==> Best(expected, o, taken, x)
  }

  /** The expected pulses that verdicts have taken. */
  function Assigned(vs: seq<Verdict>): set<nat> { set i | 0 <= i < |vs| && vs[i].Matched? :: vs[i].best }

  /** Observations are judged in order, each against what the earlier ones left free. */
  ghost predicate Explains(expected: seq<Expected>, observed: seq<Observed>, vs: seq<Verdict>) {
    |vs| <= |observed| && forall i :: 0 <= i < |vs| ==> Judges(expected, observed[i], Assigned(vs[..i]), vs[i])
  }

  // ---- The report of a list of verdicts --------------------------------------------------------------------

  function MatchOf(expected: seq<Expected>, observed: seq<Observed>, e: nat, i: nat): Match
    requires e < |expected| && i < |observed|
  {
    Match(e, i, observed[i].start - expected[e].start, expected[e].word == observed[i].decoded)
  }

  ghost predicate InRangeVerdicts(expected: seq<Expected>, vs: seq<Verdict>) {
    forall v <- vs :: v.Matched? ==> v.best < |expected|
  }

  function Matches(expected: seq<Expected>, observed: seq<Observed>, vs: seq<Verdict>): seq<Match>
    requires |vs| <= |observed| && InRangeVerdicts(expected, vs)
  {
    if vs == [] then []
    else
      var n := |vs| - 1;
      Matches(expected, observed, vs[..n]) +
      if vs[n].Matched? then [MatchOf(expected, observed, vs[n].best, n)] else []
  }

  function UnexpectedOnes(vs: seq<Verdict>): seq<nat> {
    if vs == [] then []
    else UnexpectedOnes(vs[..|vs| - 1]) + if vs[|vs| - 1].Unexpected? then [|vs| - 1] else []
  }

  function Ties(vs: seq<Verdict>): seq<Tie> {
    if vs == [] then []
    else Ties(vs[..|vs| - 1]) + if vs[|vs| - 1].Ambiguous? then [Tie(|vs| - 1, vs[|vs| - 1].tied)] else []
  }

  function Missed(n: nat, taken: set<nat>): seq<nat> {
    if n == 0 then [] else Missed(n - 1, taken) + if n - 1 in taken then [] else [n - 1]
  }

  ghost function ReportOf(expected: seq<Expected>, observed: seq<Observed>, vs: seq<Verdict>): Report
    requires |vs| <= |observed| && InRangeVerdicts(expected, vs)
  {
    Report(Matches(expected, observed, vs), UnexpectedOnes(vs), Ties(vs), Missed(|expected|, Assigned(vs)))
  }

  /** The report that some verdicts explaining every observation give. */
  ghost predicate IsReport(expected: seq<Expected>, observed: seq<Observed>, r: Report) {
    exists vs: seq<Verdict> ::
      && |vs| == |observed| && InRangeVerdicts(expected, vs) && Explains(expected, observed, vs)
      && r == ReportOf(expected, observed, vs)
  }

  // ---- The matcher -------------------------------------------------------------------------------------------

  type Candidate = (nat, nat)

  predicate Nearer(a: Candidate, b: Candidate) { a.0 < b.0 || (a.0 == b.0 && a.1 <= b.1) }

  lemma NearerIsTotal()
    ensures TotalPreorder(Nearer)
  {
  }

  method FindCandidates(expected: seq<Expected>, o: Observed, taken: set<nat>) returns (r: seq<Candidate>)
    ensures forall i, j :: 0 <= i < j < |r| ==> r[i].1 < r[j].1
    ensures forall c <- r :: Eligible(expected, o, taken, c.1) && c.0 == Distance(expected[c.1], o)
    ensures forall e: nat :: Eligible(expected, o, taken, e) ==> (Distance(expected[e], o), e) in r
  {
    r := [];
    for ei := 0 to |expected|
      invariant forall i, j :: 0 <= i < j < |r| ==> r[i].1 < r[j].1
      invariant forall c <- r :: c.1 < ei && Eligible(expected, o, taken, c.1) && c.0 == Distance(expected[c.1], o)
      invariant forall e: nat :: Eligible(expected, o, taken, e) && e < ei ==> (Distance(expected[e], o), e) in r
    {
      if ei in taken || expected[ei].channel != o.channel {
        continue;
      }
      var delta := Distance(expected[ei], o);
      if delta <= TOLERANCE {
        r := r + [(delta, ei)];
      }
    }
  }

  /** One pass of the outer loop, up to the recording of its outcome. */
  method Judge(expected: seq<Expected>, o: Observed, taken: set<nat>) returns (v: Verdict)
    ensures Judges(expected, o, taken, v)
  {
    var found := FindCandidates(expected, o, taken);
    NearerIsTotal();
    var candidates := Sort(found, Nearer);
    SortedCandidates(expected, o, taken, found, candidates);
    if candidates == [] {
      return Unexpected;
    }
    if |candidates| > 1 && candidates[0].0 == candidates[1].0 {
      var equalBest: seq<nat> := [];
      var i := 0;
      while i < |candidates| && candidates[i].0 == candidates[0].0
        invariant 0 <= i <= |candidates| && |equalBest| == i
        invariant forall k :: 0 <= k < i ==> equalBest[k] == candidates[k].1 && candidates[k].0 == candidates[0].0
      {
        equalBest := equalBest + [candidates[i].1];
        i := i + 1;
      }
      TiedAreBest(expected, o, taken, candidates, equalBest);
      return Ambiguous(equalBest);
    }
    v := Matched(candidates[0].1);
    FrontIsBest(expected, o, taken, candidates);
  }

  /** The candidates, sorted by distance and then by index, each once. */
  ghost predicate Ranked(expected: seq<Expected>, o: Observed, taken: set<nat>, cs: seq<Candidate>) {
    && (forall i, j :: 0 <= i < j < |cs| ==> Nearer(cs[i], cs[j]) && cs[i] != cs[j])
    && (forall c <- cs :: Eligible(expected, o, taken, c.1) && c.0 == Distance(expected[c.1], o))
    && (forall e: nat :: Eligible(expected, o, taken, e) ==> (Distance(expected[e], o), e) in cs)
  }

  lemma SortedCandidates(expected: seq<Expected>, o: Observed, taken: set<nat>, found: seq<Candidate>, cs: seq<Candidate>)
    requires forall i, j :: 0 <= i < j < |found| ==> found[i].1 < found[j].1
    requires forall c <- found :: Eligible(expected, o, taken, c.1) && c.0 == Distance(expected[c.1], o)
    requires forall e: nat :: Eligible(expected, o, taken, e) ==> (Distance(expected[e], o), e) in found
    requires Ordered(Nearer, cs) && multiset(cs) == multiset(found)
    ensures Ranked(expected, o, taken, cs)
  {
    hide Eligible;
    Rearranged(found, cs);
  }

  /** Being best is standing at the front distance. */
  lemma BestIsFront(expected: seq<Expected>, o: Observed, taken: set<nat>, cs: seq<Candidate>, e: nat)
    requires Ranked(expected, o, taken, cs) && cs != []
    ensures Best(expected, o, taken, e) <==> (cs[0].0, e) in cs
  {
    hide Eligible;
    assert cs[0] in cs;
    forall c <- cs ensures cs[0].0 <= c.0 { var i :| 0 <= i < |cs| && cs[i] == c; }
  }

  lemma FrontIsBest(expected: seq<Expected>, o: Observed, taken: set<nat>, cs: seq<Candidate>)
    requires Ranked(expected, o, taken, cs) && cs != [] && (|cs| > 1 ==> cs[0].0 != cs[1].0)
    ensures Judges(expected, o, taken, Matched(cs[0].1))
  {
    hide Best, Eligible;
    BestIsFront(expected, o, taken, cs, cs[0].1);
    assert cs[0] in cs;
    forall x | Best(expected, o, taken, x) ensures x == cs[0].1 {
      BestIsFront(expected, o, taken, cs, x);
      var i :| 0 <= i < |cs| && cs[i] == (cs[0].0, x);
      assert i > 0 ==> Nearer(cs[0], cs[1]) && (i > 1 ==> Nearer(cs[1], cs[i]));
    }
  }

  lemma TiedAreBest(expected: seq<Expected>, o: Observed, taken: set<nat>, cs: seq<Candidate>, tied: seq<nat>)
    requires Ranked(expected, o, taken, cs) && 1 < |tied| <= |cs|
    requires forall k :: 0 <= k < |tied| ==> tied[k] == cs[k].1 && cs[k].0 == cs[0].0
    requires |tied| < |cs| ==> cs[|tied|].0 != cs[0].0
    ensures Judges(expected, o, taken, Ambiguous(tied))
  {
    hide Best, Eligible;
    forall i, j | 0 <= i < j < |tied| ensures tied[i] < tied[j] { assert Nearer(cs[i], cs[j]) && cs[i] != cs[j]; }
    forall x ensures x in tied <==> Best(expected, o, taken, x) {
      BestIsFront(expected, o, taken, cs, x);
      if x in tied {
        var k :| 0 <= k < |tied| && tied[k] == x;
        assert cs[k] in cs && cs[k] == (cs[0].0, x);
      }
      if (cs[0].0, x) in cs {
        var i :| 0 <= i < |cs| && cs[i] == (cs[0].0, x);
        assert |tied| < |cs| ==> Nearer(cs[0], cs[|tied|]);
        assert i < |tied| && tied[i] == x;
      }
    }
  }

  /** The comparison: its lists are the report of the verdicts that explain the observations. */
  method CompareDocuments(expected: seq<Expected>, observed: seq<Observed>) returns (r: Report)
    ensures IsReport(expected, observed, r)
  {
    hide Explains, Assigned, Judges, InRangeVerdicts, Matches, UnexpectedOnes, Ties;
    ghost var vs: seq<Verdict> := [];
    NoVerdicts(expected, observed);
    var taken: set<nat> := {};
    var matches, unexpected, ambiguous := [], [], [];
    for oi := 0 to |observed|
      invariant |vs| == oi && taken == Assigned(vs) && InRangeVerdicts(expected, vs) && Explains(expected, observed, vs)
      invariant matches == Matches(expected, observed, vs)
      invariant unexpected == UnexpectedOnes(vs) && ambiguous == Ties(vs)
    {
      var v := Judge(expected, observed[oi], taken);
      OneMore(expected, observed, vs, v);
      match v {
        case Unexpected => unexpected := unexpected + [oi];
        case Ambiguous(tied) => ambiguous := ambiguous + [Tie(oi, tied)];
        case Matched(ei) =>
          taken := taken + {ei};
          var e, o := expected[ei], observed[oi];
          var delta: int := Distance(e, o);
          matches := matches + [Match(ei, oi, if o.start >= e.start then delta else -delta, e.word == o.decoded)];
      }
      vs := vs + [v];
    }
    var missed: seq<nat> := [];
    for ei := 0 to |expected|
      invariant missed == Missed(ei, taken)
    {
      if ei !in taken {
        missed := missed + [ei];
      }
    }
    r := Report(matches, unexpected, ambiguous, missed);
    assert r == ReportOf(expected, observed, vs);
  }

  lemma NoVerdicts(expected: seq<Expected>, observed: seq<Observed>)
    ensures Explains(expected, observed, []) && InRangeVerdicts(expected, []) && Assigned([]) == {}
    ensures Matches(expected, observed, []) == [] && UnexpectedOnes([]) == [] && Ties([]) == []
  {
  }

  lemma OneMore(expected: seq<Expected>, observed: seq<Observed>, vs: seq<Verdict>, v: Verdict)
    requires |vs| < |observed| && Explains(expected, observed, vs) && InRangeVerdicts(expected, vs)
    requires Judges(expected, observed[|vs|], Assigned(vs), v)
    ensures v.Matched? ==> v.best < |expected|
    ensures Explains(expected, observed, vs + [v]) && InRangeVerdicts(expected, vs + [v])
    ensures Assigned(vs + [v]) == Assigned(vs) + if v.Matched? then {v.best} else {}
    ensures Matches(expected, observed, vs + [v]) ==
            Matches(expected, observed, vs) + if v.Matched? then [MatchOf(expected, observed, v.best, |vs|)] else []
    ensures UnexpectedOnes(vs + [v]) == UnexpectedOnes(vs) + if v.Unexpected? then [|vs|] else []
    ensures Ties(vs + [v]) == Ties(vs) + if v.Ambiguous? then [Tie(|vs|, v.tied)] else []
  {
    hide Judges, Assigned, Explains;
    VerdictInRange(expected, observed[|vs|], Assigned(vs), v);
    AssignedGrows(vs, v);
    ExplainsMore(expected, observed, vs, v);
    assert (vs + [v])[..|vs|] == vs;
  }

  lemma ExplainsMore(expected: seq<Expected>, observed: seq<Observed>, vs: seq<Verdict>, v: Verdict)
    requires |vs| < |observed| && Explains(expected, observed, vs)
    ensures Explains(expected, observed, vs + [v]) <==> Judges(expected, observed[|vs|], Assigned(vs), v)
  {
    hide Judges, Assigned;
    var more := vs + [v];
    forall i | 0 <= i < |vs| ensures more[..i] == vs[..i] && more[i] == vs[i] {}
    assert more[..|vs|] == vs && more[|vs|] == v;
  }

  lemma VerdictInRange(expected: seq<Expected>, o: Observed, taken: set<nat>, v: Verdict)
    requires Judges(expected, o, taken, v)
    ensures v.Matched? ==> v.best < |expected| && v.best !in taken
  {
  }

  lemma AssignedGrows(vs: seq<Verdict>, v: Verdict)
    ensures Assigned(vs + [v]) == Assigned(vs) + if v.Matched? then {v.best} else {}
  {
    var all := vs + [v];
    assert all[|vs|] == v && forall i :: 0 <= i < |vs| ==> all[i] == vs[i];
  }
}
