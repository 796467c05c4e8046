/** Counting labels with a dictionary. */
module Tallies {
  import opened Sequences

  type Tally = map<string, nat>

  /** One entry for each label that occurs, holding how often. */
  ghost predicate IsTally(tally: Tally, labels: seq<string>) {
    && (forall l :: l in tally <==> l in labels)
    && (forall l :: l in tally ==> tally[l] == Count(labels, l))
  }

  /** `tally[l] = tally.get(l, 0) + 1`. */
  function Bump(tally: Tally, l: string): Tally { tally[l := (if l in tally then tally[l] else 0) + 1] }

  lemma TallyGrows(tally: Tally, labels: seq<string>, l: string)
    requires IsTally(tally, labels)
    ensures IsTally(Bump(tally, l), labels + [l])
  {
    assert (labels + [l])[..|labels|] == labels;
    forall x ensures Count(labels + [l], x) == Count(labels, x) + if x == l then 1 else 0 {}
    CountMembers(labels, l);
  }

  // ---------------------------------------------------------------- the sum of a tally

  lemma Inhabited(s: set<string>)
    ensures s != {} ==> exists x :: x in s
  {
    if !exists x :: x in s {
      assert s == {};
    }
  }

  /** The sum of all entries. */
  ghost function Total(tally: Tally): nat {
    if tally == map[] then 0
    else
      Inhabited(tally.Keys);
      var l :| l in tally.Keys;
      tally[l] + Total(tally - {l})
  }

  /** Whichever entry is set apart. */
  lemma {:induction false} TotalWithout(tally: Tally, l: string)
    requires l in tally
    ensures Total(tally) == tally[l] + Total(tally - {l})
    decreases |tally|
  {
    var k :| k in tally && Total(tally) == tally[k] + Total(tally - {k});
    if k != l {
      TotalWithout(tally - {k}, l);
      TotalWithout(tally - {l}, k);
      assert tally - {k} - {l} == tally - {l} - {k};
    }
  }

  lemma TotalUpdate(tally: Tally, l: string, n: nat)
    ensures Total(tally[l := n]) + (if l in tally then tally[l] else 0) == Total(tally) + n
  {
    TotalWithout(tally[l := n], l);
    if l in tally {
      TotalWithout(tally, l);
      assert tally[l := n] - {l} == tally - {l};
    } else {
      assert tally[l := n] - {l} == tally;
    }
  }

  /** A tally of a list sums to its length. */
  lemma {:induction false} TallySums(tally: Tally, labels: seq<string>)
    requires IsTally(tally, labels)
    ensures Total(tally) == |labels|
    decreases |labels|
  {
    if labels == [] {
      assert tally == map[];
    } else {
      var n := |labels| - 1;
      var l := labels[n];
      assert labels == labels[..n] + [l];
      CountMembers(labels[..n], l);
      var before := if l in labels[..n] then tally[l := tally[l] - 1] else tally - {l};
      TallySums(before, labels[..n]);
      TotalUpdate(before, l, tally[l]);
      assert before[l := tally[l]] == tally;
    }
  }
}
