/**
 * `sortWithNeyman`: the KNN ranking with each entry's Neyman similarity
 * `1 - (knn - 1)^2 / knn` added, and the properties of the whole ranking.
 */
module Neyman {

  import opened Wrappers
  import opened Records
  import opened KnnSort

  /**
   * The Neyman similarity of a match fraction. At `knn = 0` the formula
   * divides by zero; the model gives no value there.
   */
  function Neyman(knn: real): Option<real>
  {
    if knn == 0.0 then None else Some(1.0 - (knn - 1.0) * (knn - 1.0) / knn)
  }

  /** The similarity at each of the six nonzero match fractions. */
  lemma NeymanAt(m: int)
    requires 1 <= m <= 6
    ensures Neyman(m as real / 6.0) ==
      Some([-19.0 / 6.0, -1.0 / 3.0, 1.0 / 2.0, 5.0 / 6.0, 29.0 / 30.0, 1.0][m - 1])
  {
    if m == 1 { assert m as real / 6.0 == 1.0 / 6.0; }
    else if m == 2 { assert m as real / 6.0 == 2.0 / 6.0; }
    else if m == 3 { assert m as real / 6.0 == 3.0 / 6.0; }
    else if m == 4 { assert m as real / 6.0 == 4.0 / 6.0; }
    else if m == 5 { assert m as real / 6.0 == 5.0 / 6.0; }
  }

  /**
   * For every match fraction `m/6` with at least one match, the similarity
   * is defined, at most 1, and 1 exactly when all six attributes match.
   */
  lemma NeymanAtMostOne(m: int)
    requires 1 <= m <= 6
    ensures Neyman(m as real / 6.0).Some?
    ensures Neyman(m as real / 6.0).value <= 1.0
    ensures Neyman(m as real / 6.0).value == 1.0 <==> m == 6
  {
    NeymanAt(m);
  }

  /** With no match the formula divides by zero and gives no value. */
  lemma NeymanUndefinedAtZero(m: int)
    requires 0 <= m <= 6
    ensures Neyman(m as real / 6.0).None? <==> m == 0
  {
    if m > 0 {
      NeymanAt(m);
    }
  }

  /** More matches never give a lower similarity. */
  lemma NeymanMonotone(m: int, n: int)
    requires 1 <= m <= n <= 6
    ensures Neyman(m as real / 6.0).Some? && Neyman(n as real / 6.0).Some?
    ensures Neyman(m as real / 6.0).value <= Neyman(n as real / 6.0).value
  {
    NeymanAt(m);
    NeymanAt(n);
  }

  /** Drops the Neyman similarity again. */
  function Strip(r: seq<Ranked>): seq<Scored>
  {
    seq(|r|, i requires 0 <= i < |r| => Scored(r[i].rec, r[i].knn))
  }

  /**
   * `dataWithKNN.map(...)`: each entry keeps its record and `knn`, in
   * order, and gains only its Neyman similarity.
   */
  function AddNeyman(s: seq<Scored>): (r: seq<Ranked>)
    ensures Strip(r) == s
    ensures forall i :: 0 <= i < |r| ==> r[i].neyman == Neyman(r[i].knn)
  {
    seq(|s|, i requires 0 <= i < |s| => Ranked(s[i].rec, s[i].knn, Neyman(s[i].knn)))
  }

  /** What `sortWithNeyman(q)` returns over the record list `data`. */
  function Ranking(data: seq<Record>, q: Query): seq<Ranked>
  {
    AddNeyman(SortDesc(ScoreAll(data, q)))
  }

  /** `sortWithNeyman`: the KNN ranking, then the Neyman map. */
  method SortWithNeyman(data: seq<Record>, q: Query) returns (ranked: seq<Ranked>)
    ensures ranked == Ranking(data, q)
  {
    var withKnn := SortWithKnn(data, q);
    ranked := AddNeyman(withKnn[..]);
  }

  lemma StripLength(r: seq<Ranked>)
    ensures |Strip(r)| == |r|
  {
  }

  /**
   * One entry per stored record: the ranked records are a permutation of
   * `data`.
   */
  lemma RankingPermutes(data: seq<Record>, q: Query)
    ensures |Ranking(data, q)| == |data|
    ensures multiset(Recs(Strip(Ranking(data, q)))) == multiset(data)
  {
    var s := ScoreAll(data, q);
    SortDescPermutes(s);
    SortDescPermutesRecords(s);
    assert |SortDesc(s)| == |s| by {
      assert |multiset(SortDesc(s))| == |multiset(s)|;
    }
    assert Recs(s) == data;
  }

  /**
   * Every entry carries the match fraction of its own record against the
   * query, in [0, 1], and the Neyman similarity of that fraction.
   */
  lemma RankingScores(data: seq<Record>, q: Query)
    ensures forall i :: 0 <= i < |Ranking(data, q)| ==>
      var e := Ranking(data, q)[i];
      && e.rec in data
      && e.knn == Knn(e.rec, q)
      && 0.0 <= e.knn <= 1.0
      && e.neyman == Neyman(e.knn)
  {
    var s := ScoreAll(data, q);
    var r := Ranking(data, q);
    SortDescPermutes(s);
    forall i | 0 <= i < |r|
      ensures r[i].rec in data && r[i].knn == Knn(r[i].rec, q) && 0.0 <= r[i].knn <= 1.0
    {
      assert Strip(r)[i] in multiset(s);
      var k :| 0 <= k < |s| && s[k] == Strip(r)[i];
      KnnBounds(data[k], q);
    }
  }

  /** The ranking is ordered by match fraction, highest first. */
  lemma RankingOrdered(data: seq<Record>, q: Query)
    ensures forall i, j :: 0 <= i < j < |Ranking(data, q)| ==>
      Ranking(data, q)[i].knn >= Ranking(data, q)[j].knn
  {
    var s := SortDesc(ScoreAll(data, q));
    SortDescOrdered(ScoreAll(data, q));
    assert Strip(Ranking(data, q)) == s;
  }

  /**
   * The sort is stable: for every match fraction `v`, the records scored
   * `v` appear in the ranking in their order in `data`.
   */
  lemma RankingStable(data: seq<Record>, q: Query, v: real)
    ensures WithKnn(Strip(Ranking(data, q)), v) == WithKnn(ScoreAll(data, q), v)
  {
    SortDescStable(ScoreAll(data, q), v);
  }

  /**
   * The ranking is also ordered by Neyman similarity: entries with a value
   * come first, highest first, then the entries without one.
   */
  lemma RankingNeymanOrdered(data: seq<Record>, q: Query)
    ensures forall i, j :: 0 <= i < j < |Ranking(data, q)| && Ranking(data, q)[j].neyman.Some? ==>
      && Ranking(data, q)[i].neyman.Some?
      && Ranking(data, q)[i].neyman.value >= Ranking(data, q)[j].neyman.value
  {
    var r := Ranking(data, q);
    RankingScores(data, q);
    RankingOrdered(data, q);
    forall i, j | 0 <= i < j < |r| && r[j].neyman.Some?
      ensures r[i].neyman.Some? && r[i].neyman.value >= r[j].neyman.value
    {
      var mi, mj := Matches(r[i].rec, q), Matches(r[j].rec, q);
      KnnBounds(r[i].rec, q);
      KnnBounds(r[j].rec, q);
      NeymanUndefinedAtZero(mj);
      NeymanMonotone(mj, mi);
    }
  }

  /**
   * The first entry is a best match: no stored record agrees with the query
   * on more attributes.
   */
  lemma TopIsBestMatch(data: seq<Record>, q: Query)
    requires data != []
    ensures Ranking(data, q) != []
    ensures Ranking(data, q)[0].rec in data
    ensures forall d :: d in data ==> Knn(d, q) <= Ranking(data, q)[0].knn
  {
    var r := Ranking(data, q);
    RankingPermutes(data, q);
    RankingScores(data, q);
    RankingOrdered(data, q);
    forall d | d in data
      ensures Knn(d, q) <= r[0].knn
    {
      assert d in multiset(Recs(Strip(r)));
      var k :| 0 <= k < |r| && Recs(Strip(r))[k] == d;
      assert r[k].rec == d;
    }
  }

}
