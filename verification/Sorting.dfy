/** `sorted(items, key=key, reverse=True)`: a stable descending sort. */
module Sorting {
  import opened Sequences

  /** After every element of at least its key: later equals stay behind earlier ones. */
  function InsertBy<T>(sorted: seq<T>, x: T, key: T -> real): seq<T> {
    if sorted != [] && key(sorted[|sorted| - 1]) < key(x)
    then InsertBy(sorted[..|sorted| - 1], x, key) + [sorted[|sorted| - 1]]
    else sorted + [x]
  }

  function SortBy<T>(s: seq<T>, key: T -> real): seq<T> {
    if s == [] then [] else InsertBy(SortBy(s[..|s| - 1], key), s[|s| - 1], key)
  }

  ghost predicate DescendingBy<T>(s: seq<T>, key: T -> real) {
    forall i, k :: 0 <= i < k < |s| ==> key(s[i]) >= key(s[k])
  }

  function KeyIs<T>(key: T -> real, v: real): T -> bool { (x: T) => key(x) == v }

  lemma {:induction false} InsertOrdered<T>(sorted: seq<T>, x: T, key: T -> real)
    requires DescendingBy(sorted, key)
    ensures DescendingBy(InsertBy(sorted, x, key), key)
    ensures forall i :: 0 <= i < |InsertBy(sorted, x, key)| ==>
      InsertBy(sorted, x, key)[i] in sorted || InsertBy(sorted, x, key)[i] == x
  {
    if sorted != [] && key(sorted[|sorted| - 1]) < key(x) {
      var n := |sorted| - 1;
      InsertOrdered(sorted[..n], x, key);
      var rest := InsertBy(sorted[..n], x, key);
      forall i | 0 <= i < |rest| ensures key(rest[i]) >= key(sorted[n]) {
        if rest[i] != x {
          assert rest[i] in sorted[..n];
        }
      }
    }
  }

  lemma {:induction false} InsertKeepsAll<T>(sorted: seq<T>, x: T, key: T -> real)
    ensures multiset(InsertBy(sorted, x, key)) == multiset(sorted) + multiset{x}
    ensures |InsertBy(sorted, x, key)| == |sorted| + 1
  {
    if sorted != [] && key(sorted[|sorted| - 1]) < key(x) {
      InsertKeepsAll(sorted[..|sorted| - 1], x, key);
      assert sorted == sorted[..|sorted| - 1] + [sorted[|sorted| - 1]];
    }
  }

  lemma {:induction false} InsertStable<T(!new)>(sorted: seq<T>, x: T, key: T -> real, v: real)
    ensures Filter(InsertBy(sorted, x, key), KeyIs(key, v)) == Filter(sorted + [x], KeyIs(key, v))
  {
    assert (sorted + [x])[..|sorted|] == sorted;
    if sorted != [] && key(sorted[|sorted| - 1]) < key(x) {
      var n := |sorted| - 1;
      InsertStable(sorted[..n], x, key, v);
      assert (sorted[..n] + [x])[..n] == sorted[..n];
      assert InsertBy(sorted, x, key)[..|InsertBy(sorted, x, key)| - 1] == InsertBy(sorted[..n], x, key);
    }
  }

  lemma {:induction false} SortOrders<T>(s: seq<T>, key: T -> real)
    ensures DescendingBy(SortBy(s, key), key) && multiset(SortBy(s, key)) == multiset(s) && |SortBy(s, key)| == |s|
  {
    if s != [] {
      var n := |s| - 1;
      SortOrders(s[..n], key);
      assert s == s[..n] + [s[n]];
      InsertOrdered(SortBy(s[..n], key), s[n], key);
      InsertKeepsAll(SortBy(s[..n], key), s[n], key);
    }
  }

  /** Elements of equal key keep their order. */
  lemma {:induction false} SortStable<T(!new)>(s: seq<T>, key: T -> real, v: real)
    ensures Filter(SortBy(s, key), KeyIs(key, v)) == Filter(s, KeyIs(key, v))
  {
    if s != [] {
      var n := |s| - 1;
      SortStable(s[..n], key, v);
      InsertStable(SortBy(s[..n], key), s[n], key, v);
      var t := SortBy(s[..n], key) + [s[n]];
      assert t[..|t| - 1] == SortBy(s[..n], key);
    }
  }

  // ---------------------------------------------------------------- the order of equals

  /** Elements of equal key stand by their rank. */
  ghost predicate TiesBy<T>(s: seq<T>, key: T -> real, rank: T -> int) {
    forall i, k :: 0 <= i < k < |s| && key(s[i]) == key(s[k]) ==> rank(s[i]) < rank(s[k])
  }

  lemma {:induction false} InsertKeepsTies<T>(sorted: seq<T>, x: T, key: T -> real, rank: T -> int)
    requires TiesBy(sorted, key, rank) && forall i :: 0 <= i < |sorted| ==> rank(sorted[i]) < rank(x)
    ensures TiesBy(InsertBy(sorted, x, key), key, rank)
    ensures forall y :: y in InsertBy(sorted, x, key) ==> y in sorted || y == x
  {
    if sorted != [] && key(sorted[|sorted| - 1]) < key(x) {
      var n := |sorted| - 1;
      InsertKeepsTies(sorted[..n], x, key, rank);
      var rest := InsertBy(sorted[..n], x, key);
      forall i | 0 <= i < |rest| && key(rest[i]) == key(sorted[n]) ensures rank(rest[i]) < rank(sorted[n]) {
        assert rest[i] in rest;
        assert rest[i] in sorted[..n];
      }
    }
  }

  /** Sorting a list that stands by rank leaves equals standing by rank. */
  lemma {:induction false} SortKeepsTies<T>(s: seq<T>, key: T -> real, rank: T -> int)
    requires forall i, k :: 0 <= i < k < |s| ==> rank(s[i]) < rank(s[k])
    ensures TiesBy(SortBy(s, key), key, rank) && forall y :: y in SortBy(s, key) ==> y in s
  {
    if s != [] {
      var n := |s| - 1;
      SortKeepsTies(s[..n], key, rank);
      var sorted := SortBy(s[..n], key);
      forall i | 0 <= i < |sorted| ensures rank(sorted[i]) < rank(s[n]) {
        assert sorted[i] in sorted;
      }
      InsertKeepsTies(sorted, s[n], key, rank);
    }
  }
}
