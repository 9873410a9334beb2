/** What a comparison report means, for every pair of documents and for validated schedules. */
module CompareTheorems {
  import opened Prelude
  import opened Schedule
  import opened Compare

  // ---- The report is determined by the documents ------------------------------------------------------------

  lemma {:induction false} SameMembersSameOrder(a: seq<nat>, b: seq<nat>)
    requires Increasing(a) && Increasing(b) && forall x :: x in a <==> x in b
    ensures a == b
    decreases |a|
  {
    FirstIsMember(a);
    FirstIsMember(b);
    if a != [] && b != [] {
      IncreasingTail(a);
      IncreasingTail(b);
      assert a[0] == b[0];
      SameMembersSameOrder(a[1..], b[1..]);
      assert a == [a[0]] + a[1..] && b == [b[0]] + b[1..];
    }
  }

  lemma OneVerdict(expected: seq<Expected>, o: Observed, taken: set<nat>, v: Verdict, w: Verdict)
    requires Judges(expected, o, taken, v) && Judges(expected, o, taken, w)
    ensures v == w
  {
    hide Increasing, Eligible;
    if v.Ambiguous? { assert Best(expected, o, taken, v.tied[0]) && Best(expected, o, taken, v.tied[1]); }
    if w.Ambiguous? { assert Best(expected, o, taken, w.tied[0]) && Best(expected, o, taken, w.tied[1]); }
    if v.Ambiguous? && w.Ambiguous? { SameMembersSameOrder(v.tied, w.tied); }
    if v.Ambiguous? && w.Matched? { TwoApart(v.tied); }
    if w.Ambiguous? && v.Matched? { TwoApart(w.tied); }
  }

  lemma TwoApart(tied: seq<nat>)
    requires Increasing(tied) && |tied| > 1
    ensures tied[0] != tied[1]
  {
  }

  /** Two explanations of the same documents are the same, so the matcher's contract leaves it no
      choice. */
  lemma {:induction false} ExplanationIsUnique(expected: seq<Expected>, observed: seq<Observed>, vs: seq<Verdict>, ws: seq<Verdict>)
    requires |vs| == |ws| && Explains(expected, observed, vs) && Explains(expected, observed, ws)
    ensures vs == ws
    decreases |vs|
  {
    hide Judges, Assigned;
    if vs != [] {
      var n := |vs| - 1;
      var v, w := vs[..n], ws[..n];
      assert forall i :: 0 <= i < n ==> v[..i] == vs[..i] && w[..i] == ws[..i];
      ExplanationIsUnique(expected, observed, v, w);
      OneVerdict(expected, observed[n], Assigned(v), vs[n], ws[n]);
      assert vs == v + [vs[n]] && ws == w + [ws[n]];
    }
  }

  /** So two documents have one report. */
  lemma ReportIsUnique(expected: seq<Expected>, observed: seq<Observed>, r: Report, r': Report)
    requires IsReport(expected, observed, r) && IsReport(expected, observed, r')
    ensures r == r'
  {
    hide Explains, InRangeVerdicts, ReportOf;
    var vs: seq<Verdict> :| && |vs| == |observed| && InRangeVerdicts(expected, vs) && Explains(expected, observed, vs)
                            && r == ReportOf(expected, observed, vs);
    var ws: seq<Verdict> :| && |ws| == |observed| && InRangeVerdicts(expected, ws) && Explains(expected, observed, ws)
                            && r' == ReportOf(expected, observed, ws);
    ExplanationIsUnique(expected, observed, vs, ws);
  }

  // ---- Partition ------------------------------------------------------------------------------------------------

  function MatchedObserved(ms: seq<Match>): set<nat> { set m <- ms :: m.observed }
  function MatchedExpected(ms: seq<Match>): set<nat> { set m <- ms :: m.expected }
  function TiedObserved(ts: seq<Tie>): set<nat> { set t <- ts :: t.observed }
  function UpTo(n: nat): set<nat> {
    if n == 0 then {} else UpTo(n - 1) + {n - 1}
  }

  lemma {:induction false} UpToMembers(n: nat, i: nat)
    ensures i in UpTo(n) <==> i < n
  {
    if n > 0 { UpToMembers(n - 1, i); }
  }

  function Members(s: seq<nat>): set<nat> { set i <- s }

  ghost predicate Partition(a: set<nat>, b: set<nat>, c: set<nat>, whole: set<nat>) {
    a + b + c == whole && a !! b && a !! c && b !! c
  }

  lemma MatchSets(ms: seq<Match>, m: Match)
    ensures MatchedObserved(ms + [m]) == MatchedObserved(ms) + {m.observed}
    ensures MatchedExpected(ms + [m]) == MatchedExpected(ms) + {m.expected}
  {
    assert forall x :: x in ms + [m] <==> x in ms || x == m;
  }

  lemma TieSets(ts: seq<Tie>, t: Tie)
    ensures TiedObserved(ts + [t]) == TiedObserved(ts) + {t.observed}
  {
    assert forall x :: x in ts + [t] <==> x in ts || x == t;
  }

  lemma PartitionGrows(a: set<nat>, b: set<nat>, c: set<nat>, n: nat)
    requires Partition(a, b, c, UpTo(n))
    ensures Partition(a + {n}, b, c, UpTo(n + 1)) && Partition(a, b + {n}, c, UpTo(n + 1)) && Partition(a, b, c + {n}, UpTo(n + 1))
  {
    UpToMembers(n, n);
    assert n !in a && n !in b && n !in c;
    assert (a + {n}) + b + c == a + (b + {n}) + c == a + b + (c + {n}) == UpTo(n + 1);
  }

  lemma MemberSets(s: seq<nat>, n: nat)
    ensures Members(s + [n]) == Members(s) + {n}
  {
    assert forall x :: x in s + [n] <==> x in s || x == n;
  }

  /** Every observation is in exactly one list, once. */
  lemma {:induction false} VerdictsPartition(expected: seq<Expected>, observed: seq<Observed>, vs: seq<Verdict>)
    requires Explains(expected, observed, vs) && InRangeVerdicts(expected, vs)
    ensures var r := ReportOf(expected, observed, vs);
            && Partition(MatchedObserved(r.matches), Members(r.unexpected), TiedObserved(r.ambiguous), UpTo(|vs|))
            && |r.matches| + |r.unexpected| + |r.ambiguous| == |vs|
  {
    hide Judges, Assigned, Missed, Explains, UpTo, Partition;
    if vs == [] {
      EmptyPartition();
    } else {
      hide MatchedObserved, TiedObserved, Members, Matches, UnexpectedOnes, Ties, MatchOf;
      PrefixExplains(expected, observed, vs);
      var n := |vs| - 1;
      var front, v := vs[..n], vs[n];
      VerdictsPartition(expected, observed, front);
      OneMore(expected, observed, front, v);
      assert vs == front + [v];
      var r := ReportOf(expected, observed, front);
      match v
      case Matched(e) => ListsGrow(r.matches, r.unexpected, r.ambiguous, [MatchOf(expected, observed, e, n)], [], [], n);
      case Ambiguous(tied) => ListsGrow(r.matches, r.unexpected, r.ambiguous, [], [], [Tie(n, tied)], n);
      case Unexpected => ListsGrow(r.matches, r.unexpected, r.ambiguous, [], [n], [], n);
    }
  }

  /** One entry for index `n`, in one of the three lists. */
  lemma ListsGrow(ms: seq<Match>, us: seq<nat>, ts: seq<Tie>, m: seq<Match>, u: seq<nat>, t: seq<Tie>, n: nat)
    requires Partition(MatchedObserved(ms), Members(us), TiedObserved(ts), UpTo(n)) && |m| + |u| + |t| == 1
    requires (forall x <- m :: x.observed == n) && (forall x <- u :: x == n) && (forall x <- t :: x.observed == n)
    ensures Partition(MatchedObserved(ms + m), Members(us + u), TiedObserved(ts + t), UpTo(n + 1))
  {
    hide Partition, UpTo, MatchedObserved, TiedObserved, Members;
    PartitionGrows(MatchedObserved(ms), Members(us), TiedObserved(ts), n);
    assert m == [] ==> ms + m == ms;
    assert u == [] ==> us + u == us;
    assert t == [] ==> ts + t == ts;
    if |m| == 1 { assert m == [m[0]] && m[0] in m; MatchSets(ms, m[0]); }
    else if |u| == 1 { assert u == [u[0]] && u[0] in u; MemberSets(us, n); }
    else { assert t == [t[0]] && t[0] in t; TieSets(ts, t[0]); }
  }

  lemma EmptyPartition()
    ensures Partition({}, {}, {}, UpTo(0)) && MatchedObserved([]) == {} && Members([]) == {} && TiedObserved([]) == {}
  {
  }

  /** The matches' expected pulses are the assigned ones, each matched once. */
  lemma {:induction false} MatchesTakeOnce(expected: seq<Expected>, observed: seq<Observed>, vs: seq<Verdict>)
    requires Explains(expected, observed, vs) && InRangeVerdicts(expected, vs)
    ensures MatchedExpected(Matches(expected, observed, vs)) == Assigned(vs)
    ensures |Matches(expected, observed, vs)| == |Assigned(vs)|
    ensures Assigned(vs) <= UpTo(|expected|)
  {
    hide Judges, Explains, UpTo, MatchedExpected, Assigned, Matches;
    if vs == [] {
      NoVerdicts(expected, observed);
      NoMatches();
    } else {
      PrefixExplains(expected, observed, vs);
      var n := |vs| - 1;
      var front, v := vs[..n], vs[n];
      MatchesTakeOnce(expected, observed, front);
      VerdictInRange(expected, observed[n], Assigned(front), v);
      OneMore(expected, observed, front, v);
      assert vs == front + [v];
      var ms, taken := Matches(expected, observed, front), Assigned(front);
      if v.Matched? {
        UpToMembers(|expected|, v.best);
        MatchSets(ms, MatchOf(expected, observed, v.best, n));
        GrowsByOne(taken, v.best);
      } else {
        assert Matches(expected, observed, vs) == ms && Assigned(vs) == taken;
      }
    }
  }

  lemma NoMatches()
    ensures MatchedExpected([]) == {}
  {
  }

  lemma PrefixExplains(expected: seq<Expected>, observed: seq<Observed>, vs: seq<Verdict>)
    requires vs != [] && Explains(expected, observed, vs)
    ensures |vs| <= |observed|
    ensures var n := |vs| - 1; Explains(expected, observed, vs[..n]) && Judges(expected, observed[n], Assigned(vs[..n]), vs[n])
  {
    hide Judges, Assigned;
    assert forall i :: 0 <= i < |vs| - 1 ==> vs[..|vs| - 1][..i] == vs[..i];
  }

  /** The indices below `n` that are not taken, one step at a time. */
  lemma RestGrows(n: nat, taken: set<nat>)
    ensures n !in UpTo(n) && UpTo(n + 1) - taken == if n in taken then UpTo(n) - taken else UpTo(n) - taken + {n}
  {
    UpToMembers(n, n);
  }

  lemma GrowsByOne(s: set<nat>, x: nat)
    ensures x !in s ==> |s + {x}| == |s| + 1
  {
  }

  lemma {:induction false} MissedAreTheRest(n: nat, taken: set<nat>)
    ensures Members(Missed(n, taken)) == UpTo(n) - taken && |Missed(n, taken)| == |UpTo(n) - taken|
  {
    hide Members, UpTo;
    if n == 0 {
      NothingMissed(taken);
    } else {
      MissedAreTheRest(n - 1, taken);
      OneMoreIndex(n - 1, taken);
    }
  }

  lemma NothingMissed(taken: set<nat>)
    ensures Members([]) == {} && UpTo(0) - taken == {}
  {
  }

  lemma OneMoreIndex(x: nat, taken: set<nat>)
    requires Members(Missed(x, taken)) == UpTo(x) - taken && |Missed(x, taken)| == |UpTo(x) - taken|
    ensures Members(Missed(x + 1, taken)) == UpTo(x + 1) - taken && |Missed(x + 1, taken)| == |UpTo(x + 1) - taken|
  {
    hide Members, UpTo;
    var list, rest := Missed(x, taken), UpTo(x) - taken;
    RestGrows(x, taken);
    if x in taken {
      assert Missed(x + 1, taken) == list;
    } else {
      MemberSets(list, x);
      GrowsByOne(rest, x);
    }
  }

  lemma {:induction false} CountUpTo(n: nat)
    ensures |UpTo(n)| == n
  {
    if n > 0 { CountUpTo(n - 1); UpToMembers(n - 1, n - 1); }
  }

  /** Every expected pulse is matched or missed, once. */
  lemma VerdictsCoverExpected(expected: seq<Expected>, observed: seq<Observed>, vs: seq<Verdict>)
    requires Explains(expected, observed, vs) && InRangeVerdicts(expected, vs)
    ensures var r := ReportOf(expected, observed, vs);
            && Partition(MatchedExpected(r.matches), Members(r.missed), {}, UpTo(|expected|))
            && |r.matches| + |r.missed| == |expected|
  {
    hide Judges, Explains, InRangeVerdicts, Matches, Missed, Members, UpTo, Assigned, MatchedExpected;
    MatchesTakeOnce(expected, observed, vs);
    MissedAreTheRest(|expected|, Assigned(vs));
    CountUpTo(|expected|);
    Complement(Assigned(vs), UpTo(|expected|));
  }

  lemma Complement(a: set<nat>, whole: set<nat>)
    requires a <= whole
    ensures Partition(a, whole - a, {}, whole) && |a| + |whole - a| == |whole|
  {
    assert a + (whole - a) == whole;
  }

  // ---- What the entries say ------------------------------------------------------------------------------------

  lemma {:induction false} MatchesAre(expected: seq<Expected>, observed: seq<Observed>, vs: seq<Verdict>, m: Match)
    requires |vs| <= |observed| && InRangeVerdicts(expected, vs)
    ensures m in Matches(expected, observed, vs) <==>
            m.observed < |vs| && vs[m.observed].Matched? && vs[m.observed].best < |expected|
            && m == MatchOf(expected, observed, vs[m.observed].best, m.observed)
  {
    if vs != [] {
      var n := |vs| - 1;
      MatchesAre(expected, observed, vs[..n], m);
      if vs[n].Matched? { assert vs[n] in vs; }
    }
  }

  lemma {:induction false} UnexpectedAre(vs: seq<Verdict>, i: nat)
    ensures i in UnexpectedOnes(vs) <==> i < |vs| && vs[i].Unexpected?
  {
    if vs != [] { UnexpectedAre(vs[..|vs| - 1], i); }
  }

  /** Every match joins pulses of one channel at most 64 samples apart and reports the signed
      distance and the word agreement. */
  lemma VerdictMatchIsSound(expected: seq<Expected>, observed: seq<Observed>, vs: seq<Verdict>, m: Match)
    requires Explains(expected, observed, vs) && InRangeVerdicts(expected, vs)
    requires m in Matches(expected, observed, vs)
    ensures m.expected < |expected| && m.observed < |observed|
    ensures expected[m.expected].channel == observed[m.observed].channel
    ensures m.delta == observed[m.observed].start - expected[m.expected].start && -64 <= m.delta <= 64
    ensures m.agrees <==> expected[m.expected].word == observed[m.observed].decoded
  {
    hide Matches;
    MatchesAre(expected, observed, vs, m);
    assert Judges(expected, observed[m.observed], Assigned(vs[..m.observed]), vs[m.observed]);
  }

  lemma MissedIsNeverTaken(expected: seq<Expected>, vs: seq<Verdict>, e: nat, i: nat)
    requires e in Missed(|expected|, Assigned(vs)) && i <= |vs|
    ensures e < |expected| && e !in Assigned(vs) && e !in Assigned(vs[..i])
  {
    hide Missed;
    MissedAreTheRest(|expected|, Assigned(vs));
    assert e in Members(Missed(|expected|, Assigned(vs)));
    UpToMembers(|expected|, e);
    EarlierAssigned(vs, i);
  }

  lemma EarlierAssigned(vs: seq<Verdict>, i: nat)
    requires i <= |vs|
    ensures Assigned(vs[..i]) <= Assigned(vs)
  {
    forall e <- Assigned(vs[..i]) ensures e in Assigned(vs) {
      var k :| 0 <= k < i && vs[..i][k] == Matched(e);
      assert vs[k] == Matched(e);
    }
  }

  /** A missed pulse lost every comparison: it is strictly farther from each matched observation of
      its channel than that observation's partner. */
  lemma VerdictMissIsFarther(expected: seq<Expected>, observed: seq<Observed>, vs: seq<Verdict>, e: nat, m: Match)
    requires Explains(expected, observed, vs) && InRangeVerdicts(expected, vs)
    requires e in Missed(|expected|, Assigned(vs)) && m in Matches(expected, observed, vs)
    ensures e < |expected| && m.observed < |observed| && m.expected < |expected|
    ensures expected[e].channel == observed[m.observed].channel ==>
              Distance(expected[e], observed[m.observed]) > Distance(expected[m.expected], observed[m.observed])
  {
    hide Missed, Matches, Judges, Assigned, InRangeVerdicts;
    MatchesAre(expected, observed, vs, m);
    var i := m.observed;
    MissedIsNeverTaken(expected, vs, e, i);
    MissedIsNeverTaken(expected, vs, e, i + 1);
    LastIsAssigned(vs, i);
    LosersAreFarther(expected, observed[i], Assigned(vs[..i]), m.expected, e);
  }

  lemma LastIsAssigned(vs: seq<Verdict>, i: nat)
    requires i < |vs| && vs[i].Matched?
    ensures vs[i].best in Assigned(vs[..i + 1])
  {
    assert vs[..i + 1][i] == vs[i];
  }

  /** And it is out of tolerance of each unexpected observation of its channel. */
  lemma VerdictMissIsBeyond(expected: seq<Expected>, observed: seq<Observed>, vs: seq<Verdict>, e: nat, i: nat)
    requires Explains(expected, observed, vs) && InRangeVerdicts(expected, vs)
    requires e in Missed(|expected|, Assigned(vs)) && i in UnexpectedOnes(vs)
    ensures e < |expected| && i < |observed|
    ensures expected[e].channel == observed[i].channel ==> Distance(expected[e], observed[i]) > 64
  {
    hide Missed, UnexpectedOnes, Assigned;
    UnexpectedAre(vs, i);
    assert Judges(expected, observed[i], Assigned(vs[..i]), vs[i]);
    MissedIsNeverTaken(expected, vs, e, i);
    assert !Eligible(expected, observed[i], Assigned(vs[..i]), e);
  }

  lemma LosersAreFarther(expected: seq<Expected>, o: Observed, taken: set<nat>, best: nat, e: nat)
    requires Judges(expected, o, taken, Matched(best)) && e < |expected| && e !in taken && e != best
    ensures best < |expected|
    ensures expected[e].channel == o.channel ==> Distance(expected[e], o) > Distance(expected[best], o)
  {
    if Eligible(expected, o, taken, e) && Distance(expected[e], o) <= Distance(expected[best], o) {
      assert Best(expected, o, taken, e);
    }
  }

  // ---- Spaced schedules ------------------------------------------------------------------------------------------

  /** With all starts a period apart, one observation is compatible with one pulse at most. */
  lemma OneCompatible(expected: seq<Expected>, o: Observed, a: nat, b: nat)
    requires Spaced(expected) && a < |expected| && b < |expected|
    requires Compatible(expected[a], o) && Compatible(expected[b], o)
    ensures a == b
  {
    SpacedPair(expected, a, b);
  }

  lemma SpacedPair(expected: seq<Expected>, a: nat, b: nat)
    requires Spaced(expected) && a < |expected| && b < |expected|
    ensures a == b || Clear(expected[a], expected[b])
  {
    assert a < b ==> Clear(expected[a], expected[b]);
    assert b < a ==> Clear(expected[b], expected[a]);
  }

  lemma SpacedVerdict(expected: seq<Expected>, o: Observed, taken: set<nat>, v: Verdict)
    requires Spaced(expected) && Judges(expected, o, taken, v)
    ensures !v.Ambiguous?
    ensures forall e: nat :: Eligible(expected, o, taken, e) ==> v == Matched(e)
  {
    hide Spaced, Increasing;
    if v.Ambiguous? {
      assert Best(expected, o, taken, v.tied[0]) && Best(expected, o, taken, v.tied[1]);
      OneCompatible(expected, o, v.tied[0], v.tied[1]);
      TwoApart(v.tied);
    }
    forall e: nat | Eligible(expected, o, taken, e) ensures v == Matched(e) {
      if v.Matched? { OneCompatible(expected, o, e, v.best); }
    }
  }

  lemma {:induction false} NoTies(expected: seq<Expected>, observed: seq<Observed>, vs: seq<Verdict>)
    requires Spaced(expected) && Explains(expected, observed, vs)
    ensures Ties(vs) == []
  {
    hide Spaced, Judges, Explains;
    if vs != [] {
      PrefixExplains(expected, observed, vs);
      var n := |vs| - 1;
      NoTies(expected, observed, vs[..n]);
      SpacedVerdict(expected, observed[n], Assigned(vs[..n]), vs[n]);
    }
  }

  /** A pulse with any compatible observation ends up matched. */
  lemma CompatibleIsAssigned(expected: seq<Expected>, observed: seq<Observed>, vs: seq<Verdict>, e: nat, i: nat)
    requires Spaced(expected) && Explains(expected, observed, vs)
    requires e < |expected| && i < |vs| && Compatible(expected[e], observed[i])
    ensures e in Assigned(vs)
  {
    hide Spaced;
    var taken := Assigned(vs[..i]);
    assert Judges(expected, observed[i], taken, vs[i]);
    EarlierAssigned(vs, i);
    if e !in taken {
      assert Eligible(expected, observed[i], taken, e);
      SpacedVerdict(expected, observed[i], taken, vs[i]);
    }
  }

  type Pairing = set<(nat, nat)>

  /** A one-to-one pairing of expected with observed pulses of one channel within tolerance. */
  ghost predicate IsMatching(expected: seq<Expected>, observed: seq<Observed>, pairs: Pairing) {
    && (forall p <- pairs :: p.0 < |expected| && p.1 < |observed| && Compatible(expected[p.0], observed[p.1]))
    && (forall p, q :: p in pairs && q in pairs && (p.0 == q.0 || p.1 == q.1) ==> p == q)
  }

  function Firsts(pairs: Pairing): set<nat> { set p <- pairs :: p.0 }

  lemma {:induction false} OnePairEach(pairs: Pairing)
    requires forall p, q :: p in pairs && q in pairs && p.0 == q.0 ==> p == q
    ensures |Firsts(pairs)| == |pairs|
    decreases |pairs|
  {
    if pairs != {} {
      var p :| p in pairs;
      OnePairEach(pairs - {p});
      assert Firsts(pairs) == Firsts(pairs - {p}) + {p.0};
      assert p.0 !in Firsts(pairs - {p});
    }
  }

  /** On spaced schedules greed is optimal: no pairing has more pairs than the report. */
  lemma VerdictsAreMaximum(expected: seq<Expected>, observed: seq<Observed>, vs: seq<Verdict>, pairs: Pairing)
    requires Spaced(expected) && |vs| == |observed| && Explains(expected, observed, vs) && InRangeVerdicts(expected, vs)
    requires IsMatching(expected, observed, pairs)
    ensures |pairs| <= |Matches(expected, observed, vs)|
  {
    hide Spaced, Explains, Assigned, Matches;
    OnePairEach(pairs);
    forall e <- Firsts(pairs) ensures e in Assigned(vs) {
      var p :| p in pairs && p.0 == e;
      CompatibleIsAssigned(expected, observed, vs, e, p.1);
    }
    SubsetSize(Firsts(pairs), Assigned(vs));
    MatchesTakeOnce(expected, observed, vs);
  }

  function PairsOf(ms: seq<Match>): Pairing { set m <- ms :: (m.expected, m.observed) }

  /** The report itself is such a pairing. */
  lemma VerdictsAreAMatching(expected: seq<Expected>, observed: seq<Observed>, vs: seq<Verdict>)
    requires |vs| == |observed| && Explains(expected, observed, vs) && InRangeVerdicts(expected, vs)
    ensures IsMatching(expected, observed, PairsOf(Matches(expected, observed, vs)))
  {
    hide Matches, Explains, InRangeVerdicts;
    var ms := Matches(expected, observed, vs);
    forall m <- ms
      ensures m.expected < |expected| && m.observed < |observed| && Compatible(expected[m.expected], observed[m.observed])
    {
      VerdictMatchIsSound(expected, observed, vs, m);
    }
    forall m, w | m in ms && w in ms && (m.expected == w.expected || m.observed == w.observed) ensures m == w {
      MatchesAre(expected, observed, vs, m);
      MatchesAre(expected, observed, vs, w);
      if m.observed < w.observed { TakenBefore(expected, observed, vs, m.observed, w.observed); }
      if w.observed < m.observed { TakenBefore(expected, observed, vs, w.observed, m.observed); }
    }
  }

  lemma TakenBefore(expected: seq<Expected>, observed: seq<Observed>, vs: seq<Verdict>, i: nat, j: nat)
    requires Explains(expected, observed, vs) && i < j < |vs| && vs[i].Matched? && vs[j].Matched?
    ensures vs[i].best != vs[j].best
  {
    assert Judges(expected, observed[j], Assigned(vs[..j]), vs[j]);
    VerdictInRange(expected, observed[j], Assigned(vs[..j]), vs[j]);
    assert vs[..j][i] == vs[i];
  }

  // ---- What every report says ------------------------------------------------------------------------------------

  lemma VerdictsOf(expected: seq<Expected>, observed: seq<Observed>, r: Report) returns (vs: seq<Verdict>)
    requires IsReport(expected, observed, r)
    ensures |vs| == |observed| && InRangeVerdicts(expected, vs) && Explains(expected, observed, vs)
    ensures r == ReportOf(expected, observed, vs)
  {
    vs :| |vs| == |observed| && InRangeVerdicts(expected, vs) && Explains(expected, observed, vs) && r == ReportOf(expected, observed, vs);
  }

  /** Matched, unexpected and ambiguous partition the observations, each listed once. */
  lemma ObservationsPartition(expected: seq<Expected>, observed: seq<Observed>, r: Report)
    requires IsReport(expected, observed, r)
    ensures Partition(MatchedObserved(r.matches), Members(r.unexpected), TiedObserved(r.ambiguous), UpTo(|observed|))
    ensures |r.matches| + |r.unexpected| + |r.ambiguous| == |observed|
  {
    hide Explains, InRangeVerdicts;
    var vs := VerdictsOf(expected, observed, r);
    VerdictsPartition(expected, observed, vs);
  }

  /** Matched and missed partition the expected pulses, each listed once. */
  lemma ExpectedPartition(expected: seq<Expected>, observed: seq<Observed>, r: Report)
    requires IsReport(expected, observed, r)
    ensures Partition(MatchedExpected(r.matches), Members(r.missed), {}, UpTo(|expected|))
    ensures |r.matches| + |r.missed| == |expected|
  {
    hide Explains, InRangeVerdicts;
    var vs := VerdictsOf(expected, observed, r);
    VerdictsCoverExpected(expected, observed, vs);
  }

  /** Every match joins pulses of one channel at most 64 samples apart and reports the signed
      distance and the word agreement. */
  lemma MatchesAreSound(expected: seq<Expected>, observed: seq<Observed>, r: Report, m: Match)
    requires IsReport(expected, observed, r) && m in r.matches
    ensures m.expected < |expected| && m.observed < |observed|
    ensures expected[m.expected].channel == observed[m.observed].channel
    ensures m.delta == observed[m.observed].start - expected[m.expected].start && -64 <= m.delta <= 64
    ensures m.agrees <==> expected[m.expected].word == observed[m.observed].decoded
  {
    hide Explains, InRangeVerdicts, Matches;
    var vs := VerdictsOf(expected, observed, r);
    VerdictMatchIsSound(expected, observed, vs, m);
  }

  /** A missed pulse is strictly farther from each matched observation of its channel than that
      observation's partner. */
  lemma MissedIsFarther(expected: seq<Expected>, observed: seq<Observed>, r: Report, e: nat, m: Match)
    requires IsReport(expected, observed, r) && e in r.missed && m in r.matches
    ensures e < |expected| && m.observed < |observed| && m.expected < |expected|
    ensures expected[e].channel == observed[m.observed].channel ==>
              Distance(expected[e], observed[m.observed]) > Distance(expected[m.expected], observed[m.observed])
  {
    hide Explains, InRangeVerdicts, Matches, Missed;
    var vs := VerdictsOf(expected, observed, r);
    VerdictMissIsFarther(expected, observed, vs, e, m);
  }

  /** And out of tolerance of each unexpected observation of its channel. */
  lemma MissedIsBeyondUnexpected(expected: seq<Expected>, observed: seq<Observed>, r: Report, e: nat, i: nat)
    requires IsReport(expected, observed, r) && e in r.missed && i in r.unexpected
    ensures e < |expected| && i < |observed|
    ensures expected[e].channel == observed[i].channel ==> Distance(expected[e], observed[i]) > 64
  {
    hide Explains, InRangeVerdicts, UnexpectedOnes, Missed;
    var vs := VerdictsOf(expected, observed, r);
    VerdictMissIsBeyond(expected, observed, vs, e, i);
  }

  /** The matches are one-to-one. */
  lemma MatchesAreAMatching(expected: seq<Expected>, observed: seq<Observed>, r: Report)
    requires IsReport(expected, observed, r)
    ensures IsMatching(expected, observed, PairsOf(r.matches))
  {
    hide Explains, InRangeVerdicts, IsMatching;
    var vs := VerdictsOf(expected, observed, r);
    VerdictsAreAMatching(expected, observed, vs);
  }

  /** On spaced schedules greed is optimal: nothing is ambiguous and no pairing has more pairs. */
  lemma SpacedReportIsMaximum(expected: seq<Expected>, observed: seq<Observed>, r: Report, pairs: Pairing)
    requires Spaced(expected) && IsReport(expected, observed, r)
    ensures r.ambiguous == []
    ensures IsMatching(expected, observed, pairs) ==> |pairs| <= |r.matches|
  {
    hide Explains, InRangeVerdicts, IsMatching, Matches, Ties;
    var vs := VerdictsOf(expected, observed, r);
    NoTies(expected, observed, vs);
    if IsMatching(expected, observed, pairs) { VerdictsAreMaximum(expected, observed, vs, pairs); }
  }

  // ---- What a good receiver gets -----------------------------------------------------------------------------

  /** Each observation is its own pulse, within tolerance. */
  ghost predicate Receives(expected: seq<Expected>, observed: seq<Observed>, sent: seq<nat>) {
    && |sent| == |observed| && NoRepeats(sent)
    && forall i :: 0 <= i < |sent| ==>
         && sent[i] < |expected| && expected[sent[i]].channel == observed[i].channel
         && -64 <= observed[i].start - expected[sent[i]].start <= 64
  }

  lemma ReceptionExplains(expected: seq<Expected>, observed: seq<Observed>, sent: seq<nat>, vs: seq<Verdict>)
    requires Spaced(expected) && Receives(expected, observed, sent)
    requires |vs| == |sent| && forall i :: 0 <= i < |vs| ==> vs[i] == Matched(sent[i])
    ensures InRangeVerdicts(expected, vs) && Explains(expected, observed, vs)
  {
    hide Spaced;
    forall i | 0 <= i < |vs| ensures Judges(expected, observed[i], Assigned(vs[..i]), vs[i]) {
      var taken := Assigned(vs[..i]);
      forall x: nat | Eligible(expected, observed[i], taken, x) ensures x == sent[i] {
        OneCompatible(expected, observed[i], x, sent[i]);
      }
      assert sent[i] !in taken;
    }
  }

  lemma {:induction false} AllMatched(expected: seq<Expected>, observed: seq<Observed>, vs: seq<Verdict>)
    requires |vs| <= |observed| && InRangeVerdicts(expected, vs) && forall v <- vs :: v.Matched?
    ensures |Matches(expected, observed, vs)| == |vs| && UnexpectedOnes(vs) == [] && Ties(vs) == []
    ensures forall i :: 0 <= i < |vs| ==>
              vs[i].best < |expected| && Matches(expected, observed, vs)[i] == MatchOf(expected, observed, vs[i].best, i)
  {
    if vs != [] { AllMatched(expected, observed, vs[..|vs| - 1]); }
  }

  /** Pulses of a spaced schedule that are received in any order, each at most 64 samples off on its
      own channel, are all matched to themselves with their own offsets; exactly the pulses that
      were not received are missed. */
  lemma ReceptionIsMatched(expected: seq<Expected>, observed: seq<Observed>, sent: seq<nat>, r: Report)
    requires Spaced(expected) && Receives(expected, observed, sent) && IsReport(expected, observed, r)
    ensures r.unexpected == [] && r.ambiguous == [] && |r.matches| == |observed|
    ensures forall i :: 0 <= i < |observed| ==>
              r.matches[i] == Match(sent[i], i, observed[i].start - expected[sent[i]].start,
                                    expected[sent[i]].word == observed[i].decoded)
    ensures forall e :: e in r.missed <==> 0 <= e < |expected| && e !in sent
  {
    hide Spaced, Explains, Missed, Matches, UnexpectedOnes, Ties, UpTo;
    var vs: seq<Verdict> := seq(|sent|, i requires 0 <= i < |sent| => Matched(sent[i]));
    ReceptionExplains(expected, observed, sent, vs);
    ReportIsUnique(expected, observed, r, ReportOf(expected, observed, vs));
    AllMatched(expected, observed, vs);
    MissedAreTheRest(|expected|, Assigned(vs));
    forall e ensures e in r.missed <==> 0 <= e < |expected| && e !in sent {
      assert e in Assigned(vs) <==> e in sent by { AssignedAre(vs, sent, e); }
      assert e in r.missed <==> e in Members(r.missed);
      if e >= 0 { UpToMembers(|expected|, e); }
    }
  }

  lemma AssignedAre(vs: seq<Verdict>, sent: seq<nat>, e: int)
    requires |vs| == |sent| && forall i :: 0 <= i < |vs| ==> vs[i] == Matched(sent[i])
    ensures e in Assigned(vs) <==> e in sent
  {
    if e in sent {
      var i :| 0 <= i < |sent| && sent[i] == e;
      assert vs[i].best == e;
    }
  }

  /** The chain: a schedule that `Validate` accepts without overlap expands to spaced pulses, so
      its comparison reports no ambiguity and a maximum-cardinality matching. */
  lemma ValidScheduleComparesCleanly(s: Scenario, expected: seq<Expected>, observed: seq<Observed>, r: Report, pairs: Pairing)
    requires Valid(s) && !s.allowOverlap && IsExpansion(s.messages, expected) && IsReport(expected, observed, r)
    ensures !Overflows(s.messages) && Spaced(expected) && r.ambiguous == []
    ensures IsMatching(expected, observed, PairsOf(r.matches))
    ensures IsMatching(expected, observed, pairs) ==> |pairs| <= |r.matches|
  {
    hide IsReport, IsMatching, IsExpansion, Overflows;
    ValidExpansion(s, expected);
    SpacedReportIsMaximum(expected, observed, r, pairs);
    MatchesAreAMatching(expected, observed, r);
  }

  lemma ValidExpansion(s: Scenario, expected: seq<Expected>)
    requires Valid(s) && !s.allowOverlap && IsExpansion(s.messages, expected)
    ensures !Overflows(s.messages) && Spaced(expected)
  {
    hide AllPulses, IsExpansion, Overflows;
    AllPulsesExpand(s.messages);
    ExpansionIsUnique(s.messages, expected, AtMost(AllPulses(s.messages), MAX_OBSERVED));
    ApartMeansSpaced(s.messages);
    ValidNeverOverflows(s.messages);
    OverflowsIffOutOfRange(s.messages, expected);
  }

  lemma ExpansionIsUnique(ms: seq<Message>, a: seq<Expected>, b: seq<Expected>)
    requires IsExpansion(ms, a) && IsExpansion(ms, b)
    ensures a == b
  {
    hide PulsesBefore;
    forall k | 0 <= k < |a| ensures a[k] == b[k] {
      var mi, pi := PulseOfPosition(ms, k, |ms|);
      assert Listed(ms, mi, pi);
    }
  }

  /** Observing exactly the expected pulses of a validated schedule matches every one of them with
      no offset and the right word, and nothing is left over. */
  lemma PerfectReception(s: Scenario, expected: seq<Expected>, observed: seq<Observed>, r: Report)
    requires Valid(s) && !s.allowOverlap && IsExpansion(s.messages, expected) && IsReport(expected, observed, r)
    requires |observed| == |expected|
    requires forall i :: 0 <= i < |expected| ==>
               observed[i] == Observed(expected[i].start, expected[i].channel, expected[i].word)
    ensures r.unexpected == [] && r.ambiguous == [] && r.missed == [] && |r.matches| == |expected|
    ensures forall i :: 0 <= i < |expected| ==> r.matches[i] == Match(i, i, 0, true)
  {
    hide IsReport, IsExpansion, Valid, Spaced, Overflows;
    ValidExpansion(s, expected);
    var sent: seq<nat> := seq(|expected|, i => i);
    ReceptionIsMatched(expected, observed, sent, r);
    forall e | 0 <= e < |expected| ensures e in sent { assert sent[e] == e; }
    FirstIsMember(r.missed);
  }
}
