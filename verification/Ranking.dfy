/** Scored lists: a stable descending sort over exact scores. */
module Ranking {
  import opened Sorting

  datatype Scored = Scored(id: string, score: real)

  ghost predicate Descending(s: seq<Scored>) { forall i, k :: 0 <= i < k < |s| ==> s[i].score >= s[k].score }

  ghost predicate DistinctIds(s: seq<Scored>) { forall i, k :: 0 <= i < k < |s| ==> s[i].id != s[k].id }

  function ScoreOf(x: Scored): real { x.score }

  /** `sorted(items, key=score, reverse=True)`. */
  function Sort(s: seq<Scored>): seq<Scored> { SortBy(s, ScoreOf) }

  lemma SortLaws(s: seq<Scored>)
    ensures Descending(Sort(s)) && multiset(Sort(s)) == multiset(s) && |Sort(s)| == |s|
  {
    SortOrders(s, ScoreOf);
    forall i, k | 0 <= i < k < |Sort(s)| ensures Sort(s)[i].score >= Sort(s)[k].score {
      assert ScoreOf(Sort(s)[i]) >= ScoreOf(Sort(s)[k]);
    }
  }

  lemma SameMembers(a: seq<Scored>, b: seq<Scored>)
    requires multiset(a) == multiset(b)
    ensures forall x :: x in a <==> x in b
  {
    forall x ensures x in a <==> x in b {
      assert x in a <==> x in multiset(a);
      assert x in b <==> x in multiset(b);
    }
  }

  lemma {:induction false} DistinctMeansOnce(s: seq<Scored>, x: Scored)
    requires DistinctIds(s)
    ensures multiset(s)[x] <= 1
  {
    if s != [] {
      var n := |s| - 1;
      DistinctMeansOnce(s[..n], x);
      assert s == s[..n] + [s[n]];
      if x == s[n] {
        assert x !in s[..n];
      }
    }
  }

  lemma TwiceMeansTwo(t: seq<Scored>, i: nat, k: nat)
    requires i < k < |t| && t[i] == t[k]
    ensures multiset(t)[t[i]] >= 2
  {
    assert t == t[..k] + [t[k]] + t[k + 1..];
    assert t[i] in t[..k];
  }

  /** A sort of entries with distinct ids has distinct ids. */
  lemma SortKeepsDistinct(s: seq<Scored>)
    requires DistinctIds(s)
    ensures DistinctIds(Sort(s))
  {
    SortLaws(s);
    var t := Sort(s);
    SameMembers(t, s);
    forall i, k | 0 <= i < k < |t| ensures t[i].id != t[k].id {
      assert t[i] in s && t[k] in s;
      if t[i].id == t[k].id {
        assert t[i] == t[k];
        DistinctMeansOnce(s, t[i]);
        TwiceMeansTwo(t, i, k);
      }
    }
  }
}
