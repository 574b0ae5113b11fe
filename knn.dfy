/**
 * `sortWithKNN`: every stored record is scored by how many of six
 * attributes equal the query's (the fraction `knn`), and the scored list is
 * sorted by `knn`, highest first, with the engine's stable sort.
 */
module KnnSort {

  import opened Records

  /** The six comparisons, in the order the source makes them. */
  function Agreements(d: Record, q: Query): seq<bool>
  {
    [d.age == q.age, d.gender == q.gender, d.salary == q.salary,
     d.job == q.job, d.married == q.married, d.numChildren == q.numChildren]
  }

  function Bit(b: bool): nat
  {
    if b then 1 else 0
  }

  /** Number of `true` entries of `s`. */
  function Count(s: seq<bool>): (n: nat)
    ensures n <= |s|
  {
    if s == [] then 0 else Bit(s[0]) + Count(s[1..])
  }

  /** `caseMatch`: how many of the six attributes agree. */
  function Matches(d: Record, q: Query): nat
  {
    Count(Agreements(d, q))
  }

  /** `knn = caseMatch / 6`. */
  function Knn(d: Record, q: Query): real
  {
    Matches(d, q) as real / 6.0
  }

  predicate SameOnAll(d: Record, q: Query)
  {
    && d.age == q.age && d.gender == q.gender && d.salary == q.salary
    && d.job == q.job && d.married == q.married && d.numChildren == q.numChildren
  }

  predicate SameOnNone(d: Record, q: Query)
  {
    && d.age != q.age && d.gender != q.gender && d.salary != q.salary
    && d.job != q.job && d.married != q.married && d.numChildren != q.numChildren
  }

  lemma {:induction false} CountFull(s: seq<bool>)
    ensures Count(s) == |s| <==> forall i :: 0 <= i < |s| ==> s[i]
  {
    if s != [] {
      CountFull(s[1..]);
      assert forall i :: 1 <= i < |s| ==> s[i] == s[1..][i - 1];
    }
  }

  lemma {:induction false} CountEmpty(s: seq<bool>)
    ensures Count(s) == 0 <==> forall i :: 0 <= i < |s| ==> !s[i]
  {
    if s != [] {
      CountEmpty(s[1..]);
      assert forall i :: 1 <= i < |s| ==> s[i] == s[1..][i - 1];
    }
  }

  /**
   * The match fraction lies in [0, 1]; it is 1 exactly when all six
   * attributes agree and 0 exactly when none does.
   */
  lemma KnnBounds(d: Record, q: Query)
    ensures 0.0 <= Knn(d, q) <= 1.0
    ensures Knn(d, q) == 1.0 <==> SameOnAll(d, q)
    ensures Knn(d, q) == 0.0 <==> SameOnNone(d, q)
  {
    var a := Agreements(d, q);
    CountFull(a);
    CountEmpty(a);
    assert a[0] == (d.age == q.age) && a[1] == (d.gender == q.gender);
    assert a[2] == (d.salary == q.salary) && a[3] == (d.job == q.job);
    assert a[4] == (d.married == q.married) && a[5] == (d.numChildren == q.numChildren);
  }

  lemma CountSix(a: seq<bool>)
    requires |a| == 6
    ensures Count(a) == Bit(a[0]) + Bit(a[1]) + Bit(a[2]) + Bit(a[3]) + Bit(a[4]) + Bit(a[5])
  {
    assert a[1..][1..] == a[2..] && a[2..][1..] == a[3..] && a[3..][1..] == a[4..];
    assert a[4..][1..] == a[5..] && a[5..][1..] == [];
    assert Count(a[5..]) == Bit(a[5]);
    assert Count(a[4..]) == Bit(a[4]) + Count(a[5..]);
    assert Count(a[3..]) == Bit(a[3]) + Count(a[4..]);
    assert Count(a[2..]) == Bit(a[2]) + Count(a[3..]);
    assert Count(a[1..]) == Bit(a[1]) + Count(a[2..]);
  }

  lemma MatchesSum(d: Record, q: Query)
    ensures Matches(d, q) == Bit(d.age == q.age) + Bit(d.gender == q.gender) + Bit(d.salary == q.salary)
                           + Bit(d.job == q.job) + Bit(d.married == q.married) + Bit(d.numChildren == q.numChildren)
  {
    var a := Agreements(d, q);
    CountSix(a);
    assert a[0] == (d.age == q.age) && a[1] == (d.gender == q.gender) && a[2] == (d.salary == q.salary);
  }

  /** The callback of `data.map`: a counter bumped by six `if`s. */
  method CountMatches(d: Record, q: Query) returns (caseMatch: nat)
    ensures caseMatch == Matches(d, q)
  {
    caseMatch := 0;
    if d.age == q.age { caseMatch := caseMatch + 1; }
    if d.gender == q.gender { caseMatch := caseMatch + 1; }
    if d.salary == q.salary { caseMatch := caseMatch + 1; }
    if d.job == q.job { caseMatch := caseMatch + 1; }
    if d.married == q.married { caseMatch := caseMatch + 1; }
    if d.numChildren == q.numChildren { caseMatch := caseMatch + 1; }
    MatchesSum(d, q);
  }

  /** `data.map(...)`: each record, unchanged, with its own `knn`. */
  function ScoreAll(data: seq<Record>, q: Query): seq<Scored>
  {
    seq(|data|, i requires 0 <= i < |data| => Scored(data[i], Knn(data[i], q)))
  }

  /** The records of a scored list, in order. */
  function Recs(s: seq<Scored>): seq<Record>
  {
    seq(|s|, i requires 0 <= i < |s| => s[i].rec)
  }

  /** Highest `knn` first. */
  predicate NonIncreasing(s: seq<Scored>)
  {
    forall i, j :: 0 <= i < j < |s| ==> s[i].knn >= s[j].knn
  }

  /**
   * Inserts `x` after every element whose `knn` is at least `x.knn`,
   * scanning from the right as an insertion sort does.
   */
  function Insert(s: seq<Scored>, x: Scored): seq<Scored>
  {
    if s == [] || s[|s| - 1].knn >= x.knn then s + [x]
    else Insert(s[..|s| - 1], x) + [s[|s| - 1]]
  }

  /** Where `Insert` places `x`. */
  function InsertPos(s: seq<Scored>, x: Scored): (p: nat)
    ensures p <= |s|
  {
    if s == [] || s[|s| - 1].knn >= x.knn then |s| else InsertPos(s[..|s| - 1], x)
  }

  /**
   * The order `sort((a, b) => b.knn - a.knn)` produces: a stable sort,
   * highest `knn` first.
   */
  function SortDesc(s: seq<Scored>): seq<Scored>
  {
    if s == [] then [] else Insert(SortDesc(s[..|s| - 1]), s[|s| - 1])
  }

  /** `Insert` puts `x` between the elements it does not pass and those it does. */
  lemma {:induction false} InsertSplit(s: seq<Scored>, x: Scored)
    ensures Insert(s, x) == s[..InsertPos(s, x)] + [x] + s[InsertPos(s, x)..]
    ensures InsertPos(s, x) > 0 ==> s[InsertPos(s, x) - 1].knn >= x.knn
    ensures forall i :: InsertPos(s, x) <= i < |s| ==> s[i].knn < x.knn
  {
    if s == [] || s[|s| - 1].knn >= x.knn {
    } else {
      var init := s[..|s| - 1];
      var p := InsertPos(init, x);
      InsertSplit(init, x);
      assert init[..p] == s[..p];
      assert init[p..] + [s[|s| - 1]] == s[p..];
    }
  }

  /** Placing `x` where it passes only smaller entries keeps the order. */
  lemma PlaceKeepsOrder(s: seq<Scored>, p: nat, x: Scored)
    requires NonIncreasing(s) && p <= |s|
    requires p > 0 ==> s[p - 1].knn >= x.knn
    requires forall i :: p <= i < |s| ==> s[i].knn < x.knn
    ensures NonIncreasing(s[..p] + [x] + s[p..])
  {
    var r := s[..p] + [x] + s[p..];
    forall i, j | 0 <= i < j < |r|
      ensures r[i].knn >= r[j].knn
    {
      if j < p {
        assert r[i] == s[i] && r[j] == s[j];
      } else if j == p {
        assert r[i] == s[i];
      } else if i < p {
        assert r[i] == s[i] && r[j] == s[j - 1];
      } else if i == p {
        assert r[j] == s[j - 1];
      } else {
        assert r[i] == s[i - 1] && r[j] == s[j - 1];
      }
    }
  }

  lemma InsertKeepsOrder(s: seq<Scored>, x: Scored)
    requires NonIncreasing(s)
    ensures NonIncreasing(Insert(s, x))
  {
    InsertSplit(s, x);
    PlaceKeepsOrder(s, InsertPos(s, x), x);
  }

  /** The result is ordered by `knn`, highest first. */
  lemma {:induction false} SortDescOrdered(s: seq<Scored>)
    ensures NonIncreasing(SortDesc(s))
  {
    if s != [] {
      SortDescOrdered(s[..|s| - 1]);
      InsertKeepsOrder(SortDesc(s[..|s| - 1]), s[|s| - 1]);
    }
  }

  lemma PlacePermutes(lo: seq<Scored>, x: Scored, hi: seq<Scored>)
    ensures multiset(lo + [x] + hi) == multiset(lo + hi) + multiset{x}
  {
    calc {
      multiset(lo + [x] + hi);
      multiset(lo + [x]) + multiset(hi);
      multiset(lo) + multiset{x} + multiset(hi);
      multiset(lo + hi) + multiset{x};
    }
  }

  lemma InsertPermutes(s: seq<Scored>, x: Scored)
    ensures multiset(Insert(s, x)) == multiset(s) + multiset{x}
  {
    InsertSplit(s, x);
    var p := InsertPos(s, x);
    assert s == s[..p] + s[p..];
    PlacePermutes(s[..p], x, s[p..]);
  }

  /** The result holds the same scored entries as the input, as often. */
  lemma {:induction false} SortDescPermutes(s: seq<Scored>)
    ensures multiset(SortDesc(s)) == multiset(s)
  {
    if s != [] {
      var init, x := s[..|s| - 1], s[|s| - 1];
      SortDescPermutes(init);
      InsertPermutes(SortDesc(init), x);
      assert s == init + [x];
    }
  }

  lemma RecsAppend(a: seq<Scored>, b: seq<Scored>)
    ensures Recs(a + b) == Recs(a) + Recs(b)
  {
  }

  lemma PlaceRecords(lo: seq<Scored>, x: Scored, hi: seq<Scored>)
    ensures multiset(Recs(lo + [x] + hi)) == multiset(Recs(lo + hi)) + multiset{x.rec}
  {
    RecsAppend(lo + [x], hi);
    RecsAppend(lo, [x]);
    RecsAppend(lo, hi);
    assert Recs([x]) == [x.rec];
  }

  lemma InsertRecords(s: seq<Scored>, x: Scored)
    ensures multiset(Recs(Insert(s, x))) == multiset(Recs(s)) + multiset{x.rec}
  {
    InsertSplit(s, x);
    var p := InsertPos(s, x);
    assert s == s[..p] + s[p..];
    PlaceRecords(s[..p], x, s[p..]);
  }

  /** The records of the result are a permutation of the input's records. */
  lemma {:induction false} SortDescPermutesRecords(s: seq<Scored>)
    ensures multiset(Recs(SortDesc(s))) == multiset(Recs(s))
  {
    if s != [] {
      var init, x := s[..|s| - 1], s[|s| - 1];
      SortDescPermutesRecords(init);
      InsertRecords(SortDesc(init), x);
      RecsAppend(init, [x]);
      assert s == init + [x];
      assert Recs([x]) == [x.rec];
    }
  }

  /** The entries of `s` whose `knn` is `v`, in order. */
  function WithKnn(s: seq<Scored>, v: real): seq<Scored>
  {
    if s == [] then []
    else WithKnn(s[..|s| - 1], v) + (if s[|s| - 1].knn == v then [s[|s| - 1]] else [])
  }

  lemma {:induction false} WithKnnAppend(a: seq<Scored>, b: seq<Scored>, v: real)
    ensures WithKnn(a + b, v) == WithKnn(a, v) + WithKnn(b, v)
  {
    if b == [] {
      assert a + b == a;
    } else {
      WithKnnAppend(a, b[..|b| - 1], v);
      assert (a + b)[..|a + b| - 1] == a + b[..|b| - 1];
    }
  }

  lemma {:induction false} WithKnnBelow(s: seq<Scored>, v: real)
    requires forall i :: 0 <= i < |s| ==> s[i].knn < v
    ensures WithKnn(s, v) == []
  {
    if s != [] {
      WithKnnBelow(s[..|s| - 1], v);
    }
  }

  lemma WithKnnSingle(x: Scored, v: real)
    ensures WithKnn([x], v) == (if x.knn == v then [x] else [])
  {
    assert [x][..0] == [];
  }

  lemma PlaceStable(lo: seq<Scored>, x: Scored, hi: seq<Scored>, v: real)
    requires forall i :: 0 <= i < |hi| ==> hi[i].knn < x.knn
    ensures WithKnn(lo + [x] + hi, v) == WithKnn(lo + hi, v) + (if x.knn == v then [x] else [])
  {
    WithKnnAppend(lo + [x], hi, v);
    WithKnnAppend(lo, [x], v);
    WithKnnAppend(lo, hi, v);
    WithKnnSingle(x, v);
    if x.knn == v {
      WithKnnBelow(hi, v);
    }
  }

  lemma InsertStable(s: seq<Scored>, x: Scored, v: real)
    ensures WithKnn(Insert(s, x), v) == WithKnn(s, v) + (if x.knn == v then [x] else [])
  {
    InsertSplit(s, x);
    var p := InsertPos(s, x);
    assert s == s[..p] + s[p..];
    PlaceStable(s[..p], x, s[p..], v);
  }

  /**
   * Stability: for every value `v`, the entries scored `v` keep their
   * input order.
   */
  lemma {:induction false} SortDescStable(s: seq<Scored>, v: real)
    ensures WithKnn(SortDesc(s), v) == WithKnn(s, v)
  {
    if s != [] {
      SortDescStable(s[..|s| - 1], v);
      InsertStable(SortDesc(s[..|s| - 1]), s[|s| - 1], v);
    }
  }

  /**
   * `Insert` puts `x` at the gap `j` when every entry after the gap is below
   * `x` and the entry before it is not.
   */
  lemma {:induction false} InsertAtGap(s: seq<Scored>, j: nat, x: Scored)
    requires j <= |s| && (j == 0 || s[j - 1].knn >= x.knn)
    requires forall k :: j <= k < |s| ==> s[k].knn < x.knn
    ensures Insert(s, x) == s[..j] + [x] + s[j..]
    decreases |s|
  {
    if j < |s| {
      var init := s[..|s| - 1];
      InsertAtGap(init, j, x);
      assert init[..j] == s[..j];
      assert init[j..] + [s[|s| - 1]] == s[j..];
    }
  }

  /**
   * One step of the insertion sort: `a[..i]` is sorted; shift the entries
   * that `a[i]` passes one place right and drop `a[i]` into the gap.
   */
  method InsertAt(a: array<Scored>, i: nat)
    requires i < a.Length
    modifies a
    ensures a[..i + 1] == Insert(old(a[..i]), old(a[i]))
    ensures a[i + 1..] == old(a[i + 1..])
  {
    ghost var sorted := a[..i];
    var x := a[i];
    var j := i;
    while j > 0 && a[j - 1].knn < x.knn
      invariant 0 <= j <= i
      invariant forall k :: 0 <= k < j ==> a[k] == sorted[k]
      invariant forall k :: j < k <= i ==> a[k] == sorted[k - 1]
      invariant forall k :: i < k < a.Length ==> a[k] == old(a[k])
      invariant forall k :: j <= k < i ==> sorted[k].knn < x.knn
    {
      a[j] := a[j - 1];
      j := j - 1;
    }
    a[j] := x;
    InsertAtGap(sorted, j, x);
    assert a[..i + 1] == sorted[..j] + [x] + sorted[j..];
  }

  /** The in-place `sort` with comparator `b.knn - a.knn`: an insertion sort. */
  method SortInPlace(a: array<Scored>)
    modifies a
    ensures a[..] == SortDesc(old(a[..]))
  {
    ghost var input := a[..];
    var i := 0;
    while i < a.Length
      invariant 0 <= i <= a.Length
      invariant a[..i] == SortDesc(input[..i])
      invariant a[i..] == input[i..]
    {
      assert input[..i + 1][..i] == input[..i];
      InsertAt(a, i);
      i := i + 1;
    }
    assert input[..a.Length] == input;
  }

  /** `sortWithKNN`: score every record, then sort in place. */
  method SortWithKnn(data: seq<Record>, q: Query) returns (ranked: array<Scored>)
    ensures fresh(ranked)
    ensures ranked[..] == SortDesc(ScoreAll(data, q))
  {
    ranked := new Scored[|data|];
    var i := 0;
    while i < |data|
      invariant 0 <= i <= |data|
      invariant ranked[..i] == ScoreAll(data, q)[..i]
    {
      var caseMatch := CountMatches(data[i], q);
      ranked[i] := Scored(data[i], caseMatch as real / 6.0);
      i := i + 1;
    }
    assert ranked[..] == ScoreAll(data, q);
    SortInPlace(ranked);
  }

}
