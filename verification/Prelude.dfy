/** Small shared vocabulary: optional values, byte strings and a generic sort. */
module Prelude {

  datatype Option<+T> = None | Some(value: T)

  newtype Byte = x: int | 0 <= x < 256

  type Bytes = seq<Byte>

  /** Every two elements are comparable and the comparison is transitive. */
  ghost predicate TotalPreorder<T(!new)>(below: (T, T) -> bool) {
    && (forall x, y :: below(x, y) || below(y, x))
    && (forall x, y, z :: below(x, y) && below(y, z) ==> below(x, z))
  }

  ghost predicate Ordered<T>(below: (T, T) -> bool, s: seq<T>) {
    forall i, j :: 0 <= i < j < |s| ==> below(s[i], s[j])
  }

  /** Stands for `std::sort`: some ordered rearrangement of the input. */
  method Sort<T(!new)>(s: seq<T>, below: (T, T) -> bool) returns (r: seq<T>)
    requires TotalPreorder(below)
    ensures Ordered(below, r)
    ensures multiset(r) == multiset(s)
    ensures |r| == |s|
  {
    r := [];
    for k := 0 to |s|
      invariant Ordered(below, r)
      invariant multiset(r) == multiset(s[..k])
      invariant |r| == k
    {
      var i := 0;
      while i < |r| && below(r[i], s[k])
        invariant 0 <= i <= |r|
        invariant forall j :: 0 <= j < i ==> below(r[j], s[k])
      {
        i := i + 1;
      }
      assert s[..k + 1] == s[..k] + [s[k]];
      InsertOne(r, i, s[k], below);
      r := r[..i] + [s[k]] + r[i..];
    }
    assert s[..|s|] == s;
  }

  /** Inserting where everything before is below and the next element is not. */
  lemma InsertOne<T(!new)>(r: seq<T>, i: nat, x: T, below: (T, T) -> bool)
    requires TotalPreorder(below) && Ordered(below, r) && i <= |r|
    requires (forall j :: 0 <= j < i ==> below(r[j], x)) && (i < |r| ==> !below(r[i], x))
    ensures Ordered(below, r[..i] + [x] + r[i..])
    ensures multiset(r[..i] + [x] + r[i..]) == multiset(r) + multiset{x}
  {
    assert r == r[..i] + r[i..];
    var t := r[..i] + [x] + r[i..];
    forall j, k | 0 <= j < k < |t| ensures below(t[j], t[k]) {
      InsertedPair(r, i, x, below, j, k);
    }
  }

  lemma InsertedPair<T(!new)>(r: seq<T>, i: nat, x: T, below: (T, T) -> bool, j: nat, k: nat)
    requires TotalPreorder(below) && Ordered(below, r) && i <= |r| && j < k <= |r|
    requires (forall j :: 0 <= j < i ==> below(r[j], x)) && (i < |r| ==> !below(r[i], x))
    ensures var t := r[..i] + [x] + r[i..]; below(t[j], t[k])
  {
    var t := r[..i] + [x] + r[i..];
    if k < i {
      assert t[j] == r[j] && t[k] == r[k];
    } else if j < i < k {
      assert t[j] == r[j] && t[k] == r[k - 1];
      assert j < k - 1;
    } else if i < j {
      assert t[j] == r[j - 1] && t[k] == r[k - 1];
    } else if k == i {
      assert t[j] == r[j] && t[k] == x;
    } else {
      assert t[j] == x && t[k] == r[k - 1] && below(x, r[i]);
      if i < k - 1 { assert below(r[i], r[k - 1]); }
    }
  }

  ghost predicate NoRepeats<T>(s: seq<T>) { forall i, j :: 0 <= i < j < |s| ==> s[i] != s[j] }

  lemma CountsOnce<T>(s: seq<T>, x: T)
    requires NoRepeats(s)
    ensures multiset(s)[x] <= 1
  {
    if x in s {
      var i :| 0 <= i < |s| && s[i] == x;
      assert s == s[..i] + [x] + s[i + 1..];
      assert x !in s[..i] && x !in s[i + 1..];
    }
  }

  /** A rearrangement has the same members and repeats none of them. */
  lemma Rearranged<T(!new)>(s: seq<T>, r: seq<T>)
    requires multiset(r) == multiset(s) && NoRepeats(s)
    ensures NoRepeats(r) && forall x :: x in r <==> x in s
  {
    assert forall x :: x in s <==> x in multiset(s);
    assert forall x :: x in r <==> x in multiset(r);
    forall i, j | 0 <= i < j < |r| ensures r[i] != r[j] {
      CountsOnce(s, r[i]);
      assert r == r[..j] + r[j..] && r[..j][i] == r[i] && r[j..][0] == r[j];
    }
  }

  lemma FirstIsMember<T>(s: seq<T>)
    ensures s != [] ==> s[0] in s
  {
  }

  lemma SubsetSize<T>(a: set<T>, b: set<T>)
    requires a <= b
    ensures |a| <= |b|
  {
    assert b == a + (b - a);
  }

  function Zeros(k: nat): (r: Bytes)
    ensures |r| == k && forall i :: 0 <= i < k ==> r[i] == 0
  {
    seq(k, _ => 0)
  }

  // ---- Increasing sequences of identifiers ---------------------------------------------------------

  ghost predicate Increasing(s: seq<nat>) {
    forall i, j :: 0 <= i < j < |s| ==> s[i] < s[j]
  }

  lemma IncreasingTail(s: seq<nat>)
    requires Increasing(s) && s != []
    ensures Increasing(s[1..]) && s[0] !in s[1..]
    ensures forall x <- s[1..] :: s[0] < x
    ensures forall x :: x in s <==> x == s[0] || x in s[1..]
  {
    assert s == [s[0]] + s[1..];
    forall x <- s[1..] ensures s[0] < x {
      var i :| 0 <= i < |s[1..]| && s[1..][i] == x;
      assert s[0] < s[i + 1];
    }
  }

  lemma IncreasingCons(x: nat, s: seq<nat>)
    requires Increasing(s) && forall y <- s :: x < y
    ensures Increasing([x] + s)
  {
    var t := [x] + s;
    forall i, j | 0 <= i < j < |t| ensures t[i] < t[j] {
      assert t[j] == s[j - 1] && s[j - 1] in s && (i > 0 ==> t[i] == s[i - 1]);
    }
  }

  lemma IncreasingAppend(s: seq<nat>, x: nat)
    requires Increasing(s) && forall y <- s :: y < x
    ensures Increasing(s + [x])
    ensures forall y :: y in s + [x] <==> y in s || y == x
  {
    var t := s + [x];
    forall i, j | 0 <= i < j < |t| ensures t[i] < t[j] {
      assert t[i] == s[i] && s[i] in s && (j < |s| ==> t[j] == s[j]);
    }
  }

  function Removed(q: seq<nat>, x: nat): seq<nat> {
    if q == [] then [] else (if q[0] == x then [] else [q[0]]) + Removed(q[1..], x)
  }

  lemma {:induction false} RemovedFacts(q: seq<nat>, x: nat)
    ensures forall y :: y in Removed(q, x) <==> y in q && y != x
    ensures Increasing(q) ==> Increasing(Removed(q, x))
  {
    if q != [] {
      RemovedFacts(q[1..], x);
      if Increasing(q) { IncreasingTail(q); IncreasingCons(q[0], Removed(q[1..], x)); }
      assert Removed(q, x) == if q[0] == x then Removed(q[1..], x) else [q[0]] + Removed(q[1..], x);
      assert forall y :: y in q <==> y == q[0] || y in q[1..];
    }
  }

  /** `std::erase` on a queue. */
  method Erase(q: seq<nat>, x: nat) returns (r: seq<nat>)
    ensures r == Removed(q, x)
  {
    r := [];
    var i := |q|;
    while i > 0
      invariant 0 <= i <= |q| && r == Removed(q[i..], x)
    {
      i := i - 1;
      assert q[i..][1..] == q[i + 1..];
      if q[i] != x { r := [q[i]] + r; }
    }
    assert q[0..] == q;
  }
}
