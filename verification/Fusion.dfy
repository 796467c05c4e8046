/** Reciprocal-rank fusion of two rankings and the domain boost applied after it, over exact scores. */
module Fusion {
  import opened Arithmetic
  import opened Ranking
  import opened Sorting
  import opened Text

  /** What one hit at `rank` (from 1) is worth. */
  function Share(k: nat, rank: nat): real
    requires rank >= 1
  {
    1.0 / (k + rank) as real
  }

  /** What all the hits of `id` in one ranking are worth. */
  function RankSum(k: nat, hits: seq<string>, id: string): real {
    if hits == [] then 0.0
    else RankSum(k, hits[..|hits| - 1], id) + if hits[|hits| - 1] == id then Share(k, |hits|) else 0.0
  }

  function FusedScore(k: nat, bm25: seq<string>, vector: seq<string>, id: string): real {
    RankSum(k, bm25, id) + RankSum(k, vector, id)
  }

  ghost predicate HasScore(scores: seq<Scored>, id: string) { exists i :: 0 <= i < |scores| && scores[i].id == id }

  /** `out` is `scores` with `share` more for `id`: at its place, or at the end if it is new. */
  ghost predicate Added(scores: seq<Scored>, id: string, share: real, out: seq<Scored>) {
    && DistinctIds(out) && |scores| <= |out| <= |scores| + 1
    && (forall i :: 0 <= i < |scores| ==>
          out[i] == if scores[i].id == id then Scored(id, scores[i].score + share) else scores[i])
    && (|out| == |scores| <==> HasScore(scores, id))
    && (|out| > |scores| ==> out[|scores|] == Scored(id, share))
  }

  /** `scores[id] = scores.get(id, 0.0) + share`, in an insertion-ordered dictionary. */
  method AddScore(scores: seq<Scored>, id: string, share: real) returns (out: seq<Scored>)
    requires DistinctIds(scores)
    ensures Added(scores, id, share, out)
  {
    var i := 0;
    while i < |scores| && scores[i].id != id
      invariant i <= |scores| && forall j :: 0 <= j < i ==> scores[j].id != id
    {
      i := i + 1;
    }
    out := if i < |scores| then scores[i := Scored(id, scores[i].score + share)] else scores + [Scored(id, share)];
  }

  /** The dictionary holds exactly the ids seen, each with what it is worth so far. */
  ghost predicate Tallied(scores: seq<Scored>, k: nat, bm25: seq<string>, vector: seq<string>) {
    && DistinctIds(scores)
    && (forall i :: 0 <= i < |scores| ==> scores[i].score == FusedScore(k, bm25, vector, scores[i].id)
                                          && (scores[i].id in bm25 || scores[i].id in vector))
    && (forall id :: id in bm25 || id in vector ==> HasScore(scores, id))
  }

  lemma {:induction false} AbsentIsWorthNothing(k: nat, hits: seq<string>, id: string)
    requires id !in hits
    ensures RankSum(k, hits, id) == 0.0
  {
    if hits != [] {
      AbsentIsWorthNothing(k, hits[..|hits| - 1], id);
    }
  }

  lemma RankSumGrows(k: nat, hits: seq<string>, n: nat, id: string)
    requires n < |hits|
    ensures RankSum(k, hits[..n + 1], id) == RankSum(k, hits[..n], id) + if hits[n] == id then Share(k, n + 1) else 0.0
  {
    assert hits[..n + 1][..n] == hits[..n];
  }

  lemma TallyStep(before: seq<Scored>, after: seq<Scored>, k: nat, a: seq<string>, b: seq<string>, a': seq<string>,
                  b': seq<string>, id: string, share: real)
    requires Tallied(before, k, a, b) && Added(before, id, share, after)
    requires forall x :: FusedScore(k, a', b', x) == FusedScore(k, a, b, x) + if x == id then share else 0.0
    requires forall x :: x in a' || x in b' <==> x in a || x in b || x == id
    ensures Tallied(after, k, a', b')
  {
    if !HasScore(before, id) {
      AbsentIsWorthNothing(k, a, id);
      AbsentIsWorthNothing(k, b, id);
    }
    forall x | x in a' || x in b' ensures HasScore(after, x) {
      if x == id && !HasScore(before, id) {
        assert after[|before|].id == x;
      } else {
        var i :| 0 <= i < |before| && before[i].id == x;
        assert after[i].id == x;
      }
    }
  }

  // ---------------------------------------------------------------- the order of equals

  /** Where an id stands in a ranking, from 0; past the end when it is absent. */
  function Place(hits: seq<string>, id: string): (i: nat)
    ensures i <= |hits| && (i < |hits| <==> id in hits)
    ensures i < |hits| ==> hits[i] == id
    ensures forall j :: 0 <= j < i ==> hits[j] != id
  {
    if hits == [] || hits[0] == id then 0 else 1 + Place(hits[1..], id)
  }

  lemma {:induction false} PlaceStays(hits: seq<string>, more: seq<string>, id: string)
    requires id in hits
    ensures Place(hits + more, id) == Place(hits, id)
  {
    if hits[0] != id {
      assert (hits + more)[1..] == hits[1..] + more;
      PlaceStays(hits[1..], more, id);
    }
  }

  /** The ids in the order in which they were first seen. */
  ghost predicate InOrder(scores: seq<Scored>, seen: seq<string>) {
    && (forall i :: 0 <= i < |scores| ==> scores[i].id in seen)
    && (forall i, j :: 0 <= i < j < |scores| ==> Place(seen, scores[i].id) < Place(seen, scores[j].id))
  }

  /** Of two equal scores that of the id seen first comes first. */
  ghost predicate TiesInOrder(scores: seq<Scored>, seen: seq<string>) {
    forall i, j :: 0 <= i < j < |scores| && scores[i].score == scores[j].score ==>
      Place(seen, scores[i].id) < Place(seen, scores[j].id)
  }

  lemma OrderStep(before: seq<Scored>, after: seq<Scored>, seen: seq<string>, id: string)
    requires InOrder(before, seen) && |before| <= |after| <= |before| + 1
    requires forall i :: 0 <= i < |before| ==> after[i].id == before[i].id
    requires |after| > |before| ==> after[|before|].id == id && id !in seen
    ensures InOrder(after, seen + [id])
  {
    forall i | 0 <= i < |before| ensures Place(seen + [id], after[i].id) == Place(seen, before[i].id) < |seen| {
      PlaceStays(seen, [id], before[i].id);
    }
    if |after| > |before| {
      assert Place(seen + [id], id) >= |seen|;
    }
  }

  lemma SortedInOrder(scores: seq<Scored>, seen: seq<string>)
    requires InOrder(scores, seen)
    ensures TiesInOrder(Sort(scores), seen)
  {
    var rank := (x: Scored) => Place(seen, x.id);
    SortKeepsTies(scores, ScoreOf, rank);
    assert forall i, j :: 0 <= i < j < |Sort(scores)| && ScoreOf(Sort(scores)[i]) == ScoreOf(Sort(scores)[j]) ==>
      rank(Sort(scores)[i]) < rank(Sort(scores)[j]);
  }

  predicate Precedes(x: Scored, y: Scored, seen: seq<string>) {
    x.score > y.score || (x.score == y.score && Place(seen, x.id) < Place(seen, y.id))
  }

  lemma HeadIsMember(s: seq<Scored>)
    ensures s == [] || s[0] in s
  {
  }

  lemma HeadsAgree(a: seq<Scored>, b: seq<Scored>, seen: seq<string>)
    requires forall i, j :: 0 <= i < j < |a| ==> Precedes(a[i], a[j], seen)
    requires forall i, j :: 0 <= i < j < |b| ==> Precedes(b[i], b[j], seen)
    requires a != [] && b != [] && a[0] in b && b[0] in a
    ensures a[0] == b[0]
  {
    var i :| 0 <= i < |a| && a[i] == b[0];
    var j :| 0 <= j < |b| && b[j] == a[0];
    assert i > 0 ==> Precedes(a[0], b[0], seen);
    assert j > 0 ==> Precedes(b[0], a[0], seen);
  }

  lemma {:induction false} OrderedListsAgree(a: seq<Scored>, b: seq<Scored>, seen: seq<string>)
    requires forall i, j :: 0 <= i < j < |a| ==> Precedes(a[i], a[j], seen)
    requires forall i, j :: 0 <= i < j < |b| ==> Precedes(b[i], b[j], seen)
    requires forall x :: x in a <==> x in b
    ensures a == b
    decreases |a|
  {
    HeadIsMember(a);
    HeadIsMember(b);
    if a != [] {
      HeadsAgree(a, b, seen);
      assert a == [a[0]] + a[1..] && b == [b[0]] + b[1..];
      forall x ensures x in a[1..] <==> x in b[1..] {
        assert x in a[1..] ==> Precedes(a[0], x, seen);
        assert x in b[1..] ==> Precedes(b[0], x, seen);
        assert x in a <==> x == a[0] || x in a[1..];
        assert x in b <==> x == b[0] || x in b[1..];
      }
      OrderedListsAgree(a[1..], b[1..], seen);
    }
  }

  /** The contract of fusion leaves one result: the scores, best first, equals in the order first seen. */
  lemma FusedIsDetermined(k: nat, bm25: seq<string>, vector: seq<string>, a: seq<Scored>, b: seq<Scored>)
    requires Descending(a) && Tallied(a, k, bm25, vector) && TiesInOrder(a, bm25 + vector)
    requires Descending(b) && Tallied(b, k, bm25, vector) && TiesInOrder(b, bm25 + vector)
    ensures a == b
  {
    SameScores(k, bm25, vector, a, b);
    SameScores(k, bm25, vector, b, a);
    OrderedListsAgree(a, b, bm25 + vector);
  }

  lemma SameScores(k: nat, bm25: seq<string>, vector: seq<string>, a: seq<Scored>, b: seq<Scored>)
    requires Tallied(a, k, bm25, vector) && Tallied(b, k, bm25, vector)
    ensures forall x :: x in a ==> x in b
  {
    forall x | x in a ensures x in b {
      var i :| 0 <= i < |a| && a[i] == x;
      assert HasScore(b, x.id);
      var j :| 0 <= j < |b| && b[j].id == x.id;
      assert b[j] == x;
    }
  }

  /** One turn of the loop over the keyword hits. */
  lemma CountFirst(scores: seq<Scored>, next: seq<Scored>, k: nat, bm25: seq<string>, i: nat)
    requires i < |bm25| && Tallied(scores, k, bm25[..i], []) && InOrder(scores, bm25[..i])
    requires Added(scores, bm25[i], Share(k, i + 1), next)
    ensures Tallied(next, k, bm25[..i + 1], []) && InOrder(next, bm25[..i + 1])
  {
    forall x
      ensures FusedScore(k, bm25[..i + 1], [], x)
           == FusedScore(k, bm25[..i], [], x) + if x == bm25[i] then Share(k, i + 1) else 0.0
    {
      RankSumGrows(k, bm25, i, x);
    }
    assert bm25[..i + 1] == bm25[..i] + [bm25[i]];
    TallyStep(scores, next, k, bm25[..i], [], bm25[..i + 1], [], bm25[i], Share(k, i + 1));
    OrderStep(scores, next, bm25[..i], bm25[i]);
  }

  /** One turn of the loop over the vector hits. */
  lemma CountSecond(scores: seq<Scored>, next: seq<Scored>, k: nat, bm25: seq<string>, vector: seq<string>, i: nat)
    requires i < |vector| && Tallied(scores, k, bm25, vector[..i]) && InOrder(scores, bm25 + vector[..i])
    requires Added(scores, vector[i], Share(k, i + 1), next)
    ensures Tallied(next, k, bm25, vector[..i + 1]) && InOrder(next, bm25 + vector[..i + 1])
  {
    forall x
      ensures FusedScore(k, bm25, vector[..i + 1], x)
           == FusedScore(k, bm25, vector[..i], x) + if x == vector[i] then Share(k, i + 1) else 0.0
    {
      RankSumGrows(k, vector, i, x);
    }
    assert vector[..i + 1] == vector[..i] + [vector[i]];
    TallyStep(scores, next, k, bm25, vector[..i], bm25, vector[..i + 1], vector[i], Share(k, i + 1));
    OrderStep(scores, next, bm25 + vector[..i], vector[i]);
    assert bm25 + vector[..i + 1] == bm25 + vector[..i] + [vector[i]];
  }

  /** The fused ranking. */
  method Fuse(k: nat, bm25: seq<string>, vector: seq<string>) returns (fused: seq<Scored>)
    ensures Descending(fused) && Tallied(fused, k, bm25, vector) && TiesInOrder(fused, bm25 + vector)
  {
    var scores: seq<Scored> := [];
    for i := 0 to |bm25|
      invariant Tallied(scores, k, bm25[..i], []) && InOrder(scores, bm25[..i])
    {
      var next := AddScore(scores, bm25[i], Share(k, i + 1));
      CountFirst(scores, next, k, bm25, i);
      scores := next;
    }
    assert bm25[..|bm25|] == bm25 == bm25 + vector[..0] && vector[..0] == [];
    for i := 0 to |vector|
      invariant Tallied(scores, k, bm25, vector[..i]) && InOrder(scores, bm25 + vector[..i])
    {
      var next := AddScore(scores, vector[i], Share(k, i + 1));
      CountSecond(scores, next, k, bm25, vector, i);
      scores := next;
    }
    assert vector[..|vector|] == vector;
    SortLaws(scores);
    SortKeepsDistinct(scores);
    SameMembers(Sort(scores), scores);
    fused := Sort(scores);
    SortedTallied(scores, k, bm25, vector);
    SortedInOrder(scores, bm25 + vector);
  }

  lemma SortedTallied(scores: seq<Scored>, k: nat, bm25: seq<string>, vector: seq<string>)
    requires Tallied(scores, k, bm25, vector)
    ensures Tallied(Sort(scores), k, bm25, vector)
  {
    SortLaws(scores);
    SortKeepsDistinct(scores);
    var t := Sort(scores);
    SameMembers(t, scores);
    forall i | 0 <= i < |t|
      ensures t[i].score == FusedScore(k, bm25, vector, t[i].id) && (t[i].id in bm25 || t[i].id in vector)
    {
      assert t[i] in t;
      var j :| 0 <= j < |scores| && scores[j] == t[i];
    }
    forall id | id in bm25 || id in vector ensures HasScore(t, id) {
      var j :| 0 <= j < |scores| && scores[j].id == id;
      assert scores[j] in t;
    }
  }

  // ---------------------------------------------------------------- the hits themselves

  datatype RankedHit = RankedHit(chunkId: string, documentId: string, text: string)

  datatype FusedHit = FusedHit(hit: RankedHit, rrfScore: real, combinedRank: nat)

  function Ids(hits: seq<RankedHit>): (ids: seq<string>)
    ensures |ids| == |hits|
  {
    seq(|hits|, i requires 0 <= i < |hits| => hits[i].chunkId)
  }

  function Scores(fused: seq<FusedHit>): (s: seq<Scored>)
    ensures |s| == |fused|
  {
    seq(|fused|, i requires 0 <= i < |fused| => Scored(fused[i].hit.chunkId, fused[i].rrfScore))
  }

  /** `h` is the first of the hits with its chunk id. */
  predicate IsFirst(hits: seq<RankedHit>, h: RankedHit) {
    exists i :: 0 <= i < |hits| && hits[i] == h && forall j :: 0 <= j < i ==> hits[j].chunkId != h.chunkId
  }

  ghost predicate Remembers(lookup: map<string, RankedHit>, hits: seq<RankedHit>) {
    && (forall i :: 0 <= i < |hits| ==> hits[i].chunkId in lookup)
    && (forall id :: id in lookup ==> lookup[id].chunkId == id && IsFirst(hits, lookup[id]))
  }

  lemma RemembersMore(lookup: map<string, RankedHit>, hits: seq<RankedHit>, h: RankedHit)
    requires Remembers(lookup, hits)
    ensures Remembers(if h.chunkId in lookup then lookup else lookup[h.chunkId := h], hits + [h])
  {
    var next := if h.chunkId in lookup then lookup else lookup[h.chunkId := h];
    var more := hits + [h];
    forall id | id in next ensures IsFirst(more, next[id]) {
      if id in lookup {
        var i :| 0 <= i < |hits| && hits[i] == lookup[id] && forall j :: 0 <= j < i ==>
          hits[j].chunkId != lookup[id].chunkId;
        assert more[i] == next[id] && forall j :: 0 <= j < i ==> more[j] == hits[j];
      } else {
        assert more[|hits|] == h && forall j :: 0 <= j < |hits| ==> more[j].chunkId in lookup;
      }
    }
  }

  /** The chunk lookup: the first hit seen with each id. */
  method Remember(hits: seq<RankedHit>) returns (lookup: map<string, RankedHit>)
    ensures Remembers(lookup, hits)
  {
    lookup := map[];
    for i := 0 to |hits|
      invariant Remembers(lookup, hits[..i])
    {
      RemembersMore(lookup, hits[..i], hits[i]);
      assert hits[..i + 1] == hits[..i] + [hits[i]];
      if hits[i].chunkId !in lookup {
        lookup := lookup[hits[i].chunkId := hits[i]];
      }
    }
    assert hits[..|hits|] == hits;
  }

  /** The fused ranking carries, for each chunk, what the first hit on it carries, keyword hits first, and its place. */
  method FuseHits(k: nat, bm25: seq<RankedHit>, vector: seq<RankedHit>) returns (fused: seq<FusedHit>)
    ensures Descending(Scores(fused)) && Tallied(Scores(fused), k, Ids(bm25), Ids(vector))
    ensures TiesInOrder(Scores(fused), Ids(bm25) + Ids(vector))
    ensures forall i :: 0 <= i < |fused| ==> fused[i].combinedRank == i + 1 && IsFirst(bm25 + vector, fused[i].hit)
  {
    var ranked := Fuse(k, Ids(bm25), Ids(vector));
    var lookup := Remember(bm25 + vector);
    fused := [];
    for i := 0 to |ranked|
      invariant Scores(fused) == ranked[..i]
      invariant forall j :: 0 <= j < |fused| ==> fused[j].combinedRank == j + 1 && IsFirst(bm25 + vector, fused[j].hit)
    {
      KnownId(bm25, vector, ranked[i].id);
      fused := fused + [FusedHit(lookup[ranked[i].id], ranked[i].score, i + 1)];
    }
    assert ranked[..|ranked|] == ranked;
  }

  lemma KnownId(bm25: seq<RankedHit>, vector: seq<RankedHit>, id: string)
    requires id in Ids(bm25) || id in Ids(vector)
    ensures exists i :: 0 <= i < |bm25 + vector| && (bm25 + vector)[i].chunkId == id
  {
    if id in Ids(bm25) {
      var i :| 0 <= i < |bm25| && Ids(bm25)[i] == id;
      assert (bm25 + vector)[i].chunkId == id;
    } else {
      var i :| 0 <= i < |vector| && Ids(vector)[i] == id;
      assert (bm25 + vector)[|bm25| + i].chunkId == id;
    }
  }

  // ---------------------------------------------------------------- both lists beat one

  ghost predicate NoRepeats(hits: seq<string>) { forall i, j :: 0 <= i < j < |hits| ==> hits[i] != hits[j] }

  lemma {:induction false} OneShare(k: nat, hits: seq<string>, i: nat)
    requires NoRepeats(hits) && i < |hits|
    ensures RankSum(k, hits, hits[i]) == Share(k, i + 1)
  {
    var n := |hits| - 1;
    if i == n {
      AbsentIsWorthNothing(k, hits[..n], hits[n]);
    } else {
      OneShare(k, hits[..n], i);
    }
  }

  lemma ReciprocalOrder(a: nat, b: nat)
    requires 0 < a <= b
    ensures 0.0 < 1.0 / b as real <= 1.0 / a as real
  {
    CrossMultiply(1.0, b as real, 1.0, a as real);
    CrossMultiply(1.0, b as real, 0.0, 1.0);
  }

  /** A list without repeats is worth at most its first place, and at least its last to a member. */
  lemma RankSumBounds(k: nat, hits: seq<string>, id: string)
    requires NoRepeats(hits)
    ensures 0.0 <= RankSum(k, hits, id) <= 1.0 / (k + 1) as real
    ensures id in hits ==> RankSum(k, hits, id) >= 1.0 / (k + |hits|) as real
  {
    if id in hits {
      var i :| 0 <= i < |hits| && hits[i] == id;
      OneShare(k, hits, i);
      ReciprocalOrder(k + 1, k + i + 1);
      ReciprocalOrder(k + i + 1, k + |hits|);
    } else {
      AbsentIsWorthNothing(k, hits, id);
      ReciprocalOrder(k + 1, k + 1);
    }
  }

  // ---------------------------------------------------------------- a better place is worth more

  /** In a ranking without repeats the id at place `i` is worth exactly 1 / (k + i + 1), and an absent one nothing. */
  lemma WorthOfPlace(k: nat, hits: seq<string>, id: string)
    requires NoRepeats(hits)
    ensures RankSum(k, hits, id) == if id in hits then 1.0 / (k + Place(hits, id) + 1) as real else 0.0
  {
    if id in hits {
      OneShare(k, hits, Place(hits, id));
    } else {
      AbsentIsWorthNothing(k, hits, id);
    }
  }

  lemma ReciprocalsCompare(a: nat, b: nat)
    requires 0 < a && 0 < b
    ensures 1.0 / a as real > 1.0 / b as real <==> a < b
    ensures 1.0 / a as real > 0.0 && 1.0 / b as real > 0.0
  {
    CrossMultiply(1.0, a as real, 1.0, b as real);
    ReciprocalOrder(a, a);
    ReciprocalOrder(b, b);
  }

  /** The earlier of two places is worth more, and the worth says which it is. */
  lemma PlacesCompare(k: nat, hits: seq<string>, x: string, y: string)
    requires NoRepeats(hits)
    ensures RankSum(k, hits, x) > RankSum(k, hits, y) <==> Place(hits, x) < Place(hits, y)
  {
    var i, j := Place(hits, x), Place(hits, y);
    WorthOfPlace(k, hits, x);
    WorthOfPlace(k, hits, y);
    ReciprocalsCompare(k + i + 1, k + j + 1);
  }

  /** An id placed no worse in either ranking and better in one comes first in the fused ranking. */
  lemma BetterPlacedComesFirst(k: nat, bm25: seq<string>, vector: seq<string>, fused: seq<Scored>, i: nat, j: nat)
    requires NoRepeats(bm25) && NoRepeats(vector) && Descending(fused) && Tallied(fused, k, bm25, vector)
    requires i < |fused| && j < |fused|
    requires Place(bm25, fused[i].id) <= Place(bm25, fused[j].id)
    requires Place(vector, fused[i].id) <= Place(vector, fused[j].id)
    requires || Place(bm25, fused[i].id) < Place(bm25, fused[j].id)
             || Place(vector, fused[i].id) < Place(vector, fused[j].id)
    ensures i < j && fused[i].score > fused[j].score
  {
    var x, y := fused[i].id, fused[j].id;
    PlacesCompare(k, bm25, x, y);
    PlacesCompare(k, bm25, y, x);
    PlacesCompare(k, vector, x, y);
    PlacesCompare(k, vector, y, x);
  }

  /** Within one ranking the fused order is the order of the ranking, each id with its exact share. */
  lemma OneRankingStays(k: nat, hits: seq<string>, i: nat, j: nat)
    requires NoRepeats(hits) && i < j < |hits|
    ensures FusedScore(k, hits, [], hits[i]) == 1.0 / (k + i + 1) as real
    ensures FusedScore(k, hits, [], hits[i]) > FusedScore(k, hits, [], hits[j])
    ensures FusedScore(k, [], hits, hits[i]) == FusedScore(k, hits, [], hits[i])
  {
    assert Place(hits, hits[i]) == i && Place(hits, hits[j]) == j;
    WorthOfPlace(k, hits, hits[i]);
    PlacesCompare(k, hits, hits[i], hits[j]);
  }

  /** Twice the last share beats the first exactly when a list is no longer than k + 1. */
  lemma TwoLastBeatOneFirst(k: nat, n: nat)
    requires n >= 1
    ensures 2.0 / (k + n) as real > 1.0 / (k + 1) as real <==> n <= k + 1
  {
    CrossMultiply(2.0, (k + n) as real, 1.0, (k + 1) as real);
  }

  /** With rankings that repeat nothing and are no longer than k + 1, a chunk in both outranks every chunk in one. */
  lemma BothOutranksOne(k: nat, bm25: seq<string>, vector: seq<string>, both: string, one: string)
    requires NoRepeats(bm25) && NoRepeats(vector) && |bm25| <= k + 1 && |vector| <= k + 1
    requires both in bm25 && both in vector && !(one in bm25 && one in vector)
    ensures FusedScore(k, bm25, vector, both) > FusedScore(k, bm25, vector, one)
  {
    RankSumBounds(k, bm25, both);
    RankSumBounds(k, vector, both);
    RankSumBounds(k, bm25, one);
    RankSumBounds(k, vector, one);
    if one !in bm25 { AbsentIsWorthNothing(k, bm25, one); }
    if one !in vector { AbsentIsWorthNothing(k, vector, one); }
    ReciprocalOrder(k + |bm25|, k + k + 1);
    ReciprocalOrder(k + |vector|, k + k + 1);
    TwoLastBeatOneFirst(k, k + 1);
    var r := (k + k + 1) as real;
    assert 2.0 / r == 1.0 / r + 1.0 / r;
  }

  // ---------------------------------------------------------------- the boost

  const BOOST := 0.05

  predicate IsDomain(id: string) { Contains(id, "arima") || Contains(id, "backtest") }

  function Boosted(h: Scored): Scored { if IsDomain(h.id) then Scored(h.id, h.score + BOOST) else h }

  function BoostedHit(h: FusedHit): FusedHit {
    if IsDomain(h.hit.chunkId) then h.(rrfScore := h.rrfScore + BOOST) else h
  }

  function BoostedHits(hits: seq<FusedHit>): (out: seq<FusedHit>)
    ensures |out| == |hits|
  {
    seq(|hits|, i requires 0 <= i < |hits| => BoostedHit(hits[i]))
  }

  function HitScore(h: FusedHit): real { h.rrfScore }

  /** The domain hits get their boost in place, then all are sorted again. */
  method Rerank(hits: seq<FusedHit>) returns (out: seq<FusedHit>)
    ensures out == SortBy(BoostedHits(hits), HitScore)
  {
    var boosted := hits;
    for i := 0 to |hits|
      invariant |boosted| == |hits|
      invariant forall j :: 0 <= j < |hits| ==> boosted[j] == if j < i then BoostedHit(hits[j]) else hits[j]
    {
      if IsDomain(hits[i].hit.chunkId) {
        boosted := boosted[i := hits[i].(rrfScore := hits[i].rrfScore + BOOST)];
      }
    }
    assert boosted == BoostedHits(hits);
    out := SortBy(boosted, HitScore);
  }

  lemma {:induction false} ScoresOfInserted(sorted: seq<FusedHit>, h: FusedHit)
    ensures Scores(InsertBy(sorted, h, HitScore))
      == InsertBy(Scores(sorted), Scored(h.hit.chunkId, h.rrfScore), ScoreOf)
  {
    if sorted != [] && HitScore(sorted[|sorted| - 1]) < HitScore(h) {
      var n := |sorted| - 1;
      ScoresOfInserted(sorted[..n], h);
      assert Scores(sorted)[..n] == Scores(sorted[..n]);
    }
  }

  /** Sorting the hits sorts their scores. */
  lemma {:induction false} ScoresOfSorted(hits: seq<FusedHit>)
    ensures Scores(SortBy(hits, HitScore)) == Sort(Scores(hits))
  {
    if hits != [] {
      var n := |hits| - 1;
      ScoresOfSorted(hits[..n]);
      ScoresOfInserted(SortBy(hits[..n], HitScore), hits[n]);
      assert Scores(hits)[..n] == Scores(hits[..n]);
    }
  }

  /** The boost is larger than any fused score exactly from k = 40 on. */
  lemma BoostDominates(k: nat)
    ensures 2.0 / (k + 1) as real < BOOST <==> k >= 40
  {
    CrossMultiply(BOOST, 1.0, 2.0, (k + 1) as real);
  }

  lemma FusedScoreBound(k: nat, bm25: seq<string>, vector: seq<string>, id: string)
    requires k >= 40 && NoRepeats(bm25) && NoRepeats(vector)
    ensures 0.0 <= FusedScore(k, bm25, vector, id) < BOOST
  {
    RankSumBounds(k, bm25, id);
    RankSumBounds(k, vector, id);
    BoostDominates(k);
    var c := (k + 1) as real;
    assert 2.0 / c == 1.0 / c + 1.0 / c;
  }

  function BoostedAll(fused: seq<Scored>): seq<Scored> {
    seq(|fused|, n requires 0 <= n < |fused| => Boosted(fused[n]))
  }

  lemma BoostedRange(k: nat, bm25: seq<string>, vector: seq<string>, fused: seq<Scored>, x: Scored)
    requires k >= 40 && NoRepeats(bm25) && NoRepeats(vector) && Tallied(fused, k, bm25, vector)
    requires x in BoostedAll(fused)
    ensures if IsDomain(x.id) then x.score >= BOOST else x.score < BOOST
  {
    var a :| 0 <= a < |fused| && BoostedAll(fused)[a] == x;
    FusedScoreBound(k, bm25, vector, fused[a].id);
  }

  /** After fusing two rankings without repeats and boosting, every domain chunk precedes every other chunk. */
  lemma DomainChunksFirst(k: nat, bm25: seq<string>, vector: seq<string>, fused: seq<Scored>, i: nat, j: nat)
    requires k >= 40 && NoRepeats(bm25) && NoRepeats(vector) && Tallied(fused, k, bm25, vector)
    requires i < |Sort(BoostedAll(fused))| && j < |Sort(BoostedAll(fused))|
    requires IsDomain(Sort(BoostedAll(fused))[i].id) && !IsDomain(Sort(BoostedAll(fused))[j].id)
    ensures i < j
  {
    var out := Sort(BoostedAll(fused));
    SortLaws(BoostedAll(fused));
    SameMembers(out, BoostedAll(fused));
    assert out[i] in out && out[j] in out;
    BoostedRange(k, bm25, vector, fused, out[i]);
    BoostedRange(k, bm25, vector, fused, out[j]);
  }

  /** The same of the hits themselves: after the boost the chunks on arima or backtests precede all others. */
  lemma DomainHitsFirst(k: nat, bm25: seq<string>, vector: seq<string>, fused: seq<FusedHit>, i: nat, j: nat)
    requires k >= 40 && NoRepeats(bm25) && NoRepeats(vector) && Tallied(Scores(fused), k, bm25, vector)
    requires i < |SortBy(BoostedHits(fused), HitScore)| && j < |SortBy(BoostedHits(fused), HitScore)|
    requires var id := SortBy(BoostedHits(fused), HitScore)[i].hit.chunkId;
      Contains(id, "arima") || Contains(id, "backtest")
    requires var id := SortBy(BoostedHits(fused), HitScore)[j].hit.chunkId;
      !Contains(id, "arima") && !Contains(id, "backtest")
    ensures i < j
  {
    var out := SortBy(BoostedHits(fused), HitScore);
    ScoresOfSorted(BoostedHits(fused));
    assert Scores(BoostedHits(fused)) == BoostedAll(Scores(fused));
    assert Scores(out)[i].id == out[i].hit.chunkId && Scores(out)[j].id == out[j].hit.chunkId;
    DomainChunksFirst(k, bm25, vector, Scores(fused), i, j);
  }
}
