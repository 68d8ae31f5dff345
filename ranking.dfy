/** Ranking of scored chunks as find_relevant_chunks does it:
    `list.sort(key=score, reverse=True)` followed by the slice `[:top_k]`.
    Python's sort is stable also with reverse=True, so equal scores keep
    their original order; the sort is specified here as a stable insertion sort. */
module Ranking {

  /** An item with its relevance score (the `{**chunk, 'relevance_score': score}` record). */
  datatype Scored<T> = Scored(item: T, score: real)

  predicate SortedDesc<T>(s: seq<Scored<T>>) {
    forall i, j :: 0 <= i < j < |s| ==> s[i].score >= s[j].score
  }

  /** The entries of s whose score is v, in order. */
  function WithScore<T>(s: seq<Scored<T>>, v: real): seq<Scored<T>> {
    if s == [] then []
    else (if s[0].score == v then [s[0]] else []) + WithScore(s[1..], v)
  }

  lemma SortedCons<T>(a: Scored<T>, s: seq<Scored<T>>)
    requires SortedDesc(s)
    requires s == [] || a.score >= s[0].score
    ensures SortedDesc([a] + s)
  {
    var r := [a] + s;
    forall i, j | 0 <= i < j < |r| ensures r[i].score >= r[j].score {
      if i == 0 && j > 1 {
        assert r[j] == s[j - 1] && s[0].score >= s[j - 1].score;
      }
    }
  }

  /** Inserts x before the first entry that does not score strictly higher. */
  function InsertDesc<T>(x: Scored<T>, s: seq<Scored<T>>): seq<Scored<T>> {
    if s == [] || s[0].score <= x.score then [x] + s
    else [s[0]] + InsertDesc(x, s[1..])
  }

  /** The stable descending sort by score. */
  function SortDesc<T>(s: seq<Scored<T>>): seq<Scored<T>> {
    if s == [] then [] else InsertDesc(s[0], SortDesc(s[1..]))
  }

  /** Inserting into a sorted sequence keeps it sorted; the new head is x
      unless the old head scores strictly higher. */
  lemma {:induction false} InsertDescSorted<T>(x: Scored<T>, s: seq<Scored<T>>)
    requires SortedDesc(s)
    ensures var r := InsertDesc(x, s);
      && |r| == |s| + 1
      && r[0] == (if s == [] || s[0].score <= x.score then x else s[0])
      && SortedDesc(r)
  {
    if s == [] || s[0].score <= x.score {
      SortedCons(x, s);
    } else {
      var t := InsertDesc(x, s[1..]);
      InsertDescSorted(x, s[1..]);
      assert s[0].score >= t[0].score by {
        if |s| > 1 { assert s[0].score >= s[1].score; }
      }
      SortedCons(s[0], t);
    }
  }

  /** Inserting adds exactly x. */
  lemma {:induction false} InsertDescPermutes<T>(x: Scored<T>, s: seq<Scored<T>>)
    ensures multiset(InsertDesc(x, s)) == multiset(s) + multiset{x}
  {
    if s != [] && s[0].score > x.score {
      InsertDescPermutes(x, s[1..]);
      assert s == [s[0]] + s[1..];
    }
  }

  /** The sort yields a non-increasing sequence. */
  lemma {:induction false} SortDescSorted<T>(s: seq<Scored<T>>)
    ensures SortedDesc(SortDesc(s))
  {
    if s != [] {
      SortDescSorted(s[1..]);
      InsertDescSorted(s[0], SortDesc(s[1..]));
    }
  }

  /** The sort is a permutation of its input. */
  lemma {:induction false} SortDescPermutes<T>(s: seq<Scored<T>>)
    ensures multiset(SortDesc(s)) == multiset(s)
  {
    if s != [] {
      SortDescPermutes(s[1..]);
      InsertDescPermutes(s[0], SortDesc(s[1..]));
      assert s == [s[0]] + s[1..];
    }
  }

  lemma WithScoreCons<T>(a: Scored<T>, t: seq<Scored<T>>, v: real)
    ensures WithScore([a] + t, v) == (if a.score == v then [a] else []) + WithScore(t, v)
  {
    assert ([a] + t)[1..] == t;
  }

  /** Insertion keeps the order among the entries of any one score, with x
      first among its equals. */
  lemma {:induction false} InsertDescStable<T>(x: Scored<T>, s: seq<Scored<T>>, v: real)
    ensures WithScore(InsertDesc(x, s), v) == WithScore([x] + s, v)
  {
    if s == [] || s[0].score <= x.score {
    } else {
      var t := s[1..];
      var inserted := InsertDesc(x, t);
      assert s == [s[0]] + t;
      InsertDescStable(x, t, v);
      WithScoreCons(s[0], inserted, v);
      WithScoreCons(x, t, v);
      WithScoreCons(x, s, v);
      WithScoreCons(s[0], t, v);
      if s[0].score == v {
        assert x.score != v;
        assert WithScore(InsertDesc(x, s), v) == [s[0]] + WithScore(t, v);
      } else {
        var head := if x.score == v then [x] else [];
        assert WithScore(InsertDesc(x, s), v) == head + WithScore(t, v);
      }
    }
  }

  /** Stability: among entries of equal score the sort keeps the input order. */
  lemma {:induction false} SortDescStable<T>(s: seq<Scored<T>>, v: real)
    ensures WithScore(SortDesc(s), v) == WithScore(s, v)
  {
    if s != [] {
      InsertDescStable(s[0], SortDesc(s[1..]), v);
      SortDescStable(s[1..], v);
      assert ([s[0]] + SortDesc(s[1..]))[1..] == SortDesc(s[1..]);
    }
  }

  /** s[:k] with Python's slice semantics for any int k. */
  function SliceTo<X>(s: seq<X>, k: int): seq<X> {
    if k >= 0 then (if k <= |s| then s[..k] else s)
    else if -k <= |s| then s[..|s| + k]
    else []
  }

  lemma SliceToIsPrefix<X>(s: seq<X>, k: int)
    ensures var r := SliceTo(s, k);
      |r| <= |s| && r == s[..|r|] && (k >= 0 ==> |r| == if k <= |s| then k else |s|)
  {
  }

  /** The top-k selection: sort descending, stably, and slice. */
  function Select<T(==)>(s: seq<Scored<T>>, topK: int): seq<Scored<T>> {
    SliceTo(SortDesc(s), topK)
  }

  lemma {:induction false} WithScorePrefix<T>(s: seq<Scored<T>>, m: nat, v: real)
    requires m <= |s|
    ensures var p := WithScore(s[..m], v); |p| <= |WithScore(s, v)| && p == WithScore(s, v)[..|p|]
  {
    if m > 0 {
      assert s[..m][1..] == s[1..][..m - 1];
      WithScorePrefix(s[1..], m - 1, v);
    }
  }

  /** The selection is a prefix of the sorted input; the rest of the sorted
      input holds exactly the entries left out. */
  lemma SelectSplitsSort<T>(s: seq<Scored<T>>, topK: int)
    ensures var sorted := SortDesc(s); var r := Select(s, topK);
      && r == sorted[..|r|]
      && multiset(s) == multiset(r) + multiset(sorted[|r|..])
  {
    var sorted := SortDesc(s);
    var r := Select(s, topK);
    SortDescPermutes(s);
    SliceToIsPrefix(sorted, topK);
    assert sorted == r + sorted[|r|..];
  }

  /** At most top_k entries (all of them when fewer), drawn from the input,
      in non-increasing score order. */
  lemma SelectShape<T>(s: seq<Scored<T>>, topK: int)
    ensures var r := Select(s, topK);
      && (topK >= 0 ==> |r| == if topK <= |s| then topK else |s|)
      && multiset(r) <= multiset(s)
      && SortedDesc(r)
  {
    var sorted := SortDesc(s);
    SortDescSorted(s);
    SortDescPermutes(s);
    SliceToIsPrefix(sorted, topK);
    SelectSplitsSort(s, topK);
  }

  /** No entry left out scores higher than any entry returned. */
  lemma SelectLeftOutNoHigher<T>(s: seq<Scored<T>>, topK: int, x: Scored<T>, y: Scored<T>)
    requires x in multiset(s) - multiset(Select(s, topK))
    requires y in Select(s, topK)
    ensures x.score <= y.score
  {
    var sorted := SortDesc(s);
    var r := Select(s, topK);
    var m := |r|;
    SelectSplitsSort(s, topK);
    var rest := sorted[m..];
    assert x in multiset(rest);
    var i :| 0 <= i < |rest| && rest[i] == x;
    var j :| 0 <= j < m && r[j] == y;
    SortDescSorted(s);
    SortedAt(sorted, j, m + i);
  }

  /** The first entry returned is an entry of the input and scores at least
      as high as every entry of the input. */
  lemma SelectHead<T>(s: seq<Scored<T>>, topK: int)
    requires Select(s, topK) != []
    ensures Select(s, topK)[0] in s
    ensures forall x :: x in s ==> Select(s, topK)[0].score >= x.score
  {
    var sorted := SortDesc(s);
    var r := Select(s, topK);
    SelectSplitsSort(s, topK);
    assert r[0] == sorted[0];
    assert sorted[0] in multiset(s) by {
      assert sorted[0] in multiset(r);
    }
    forall x | x in s ensures sorted[0].score >= x.score {
      assert x in multiset(sorted) by {
        SortDescPermutes(s);
      }
      var j :| 0 <= j < |sorted| && sorted[j] == x;
      if j > 0 {
        SortDescSorted(s);
        SortedAt(sorted, 0, j);
      }
    }
  }

  lemma SortedAt<T>(s: seq<Scored<T>>, i: nat, j: nat)
    requires SortedDesc(s) && i < j < |s|
    ensures s[i].score >= s[j].score
  {
  }

  /** Ties keep the input order: the returned entries of any one score are a
      prefix of the input's entries of that score. */
  lemma SelectStable<T>(s: seq<Scored<T>>, topK: int, v: real)
    ensures var e := WithScore(Select(s, topK), v);
      |e| <= |WithScore(s, v)| && e == WithScore(s, v)[..|e|]
  {
    var sorted := SortDesc(s);
    SliceToIsPrefix(sorted, topK);
    WithScorePrefix(sorted, |Select(s, topK)|, v);
    SortDescStable(s, v);
  }
}
