/** Which items survive pruning, the token budget and the final ordering. */
module Selection {
  import opened Sequences
  import opened Context
  import opened Assembler

  function AtLeast(v: int): Item -> bool { (x: Item) => x.priority >= v }

  // ---------------------------------------------------------------- pruning cuts from below

  /** The first rule drops exactly the items older than ten steps with a priority below sixty. */
  lemma FreshExactly(items: seq<Item>, x: Item)
    ensures x in Fresh(items) <==> x in items && (x.age <= 10 || x.priority >= 60)
  {
    FilterMembers(items, (i: Item) => !IsStale(i));
  }

  lemma {:induction false} FilterWithin(s: seq<Item>, p: Item -> bool, q: Item -> bool)
    requires forall i :: 0 <= i < |s| && q(s[i]) ==> p(s[i])
    ensures Filter(Filter(s, p), q) == Filter(s, q)
  {
    if s != [] {
      var n := |s| - 1;
      FilterWithin(s[..n], p, q);
      if p(s[n]) {
        FilterSnoc(Filter(s[..n], p), s[n], q);
      }
    }
  }

  lemma FilterSnoc(s: seq<Item>, x: Item, q: Item -> bool)
    ensures Filter(s + [x], q) == if q(x) then Filter(s, q) + [x] else Filter(s, q)
  {
    assert (s + [x])[..|s|] == s;
  }

  lemma {:induction false} FilterDescends(s: seq<Item>, p: Item -> bool)
    requires Descending(s)
    ensures Descending(Filter(s, p))
  {
    if s != [] {
      var n := |s| - 1;
      FilterDescends(s[..n], p);
      FilterMembers(s[..n], p);
      var before := Filter(s[..n], p);
      forall i | 0 <= i < |before| ensures before[i].priority >= s[n].priority {
        assert before[i] in s[..n];
      }
    }
  }

  lemma SomeIn(s: seq<Item>, v: int) returns (k: nat)
    requires Filter(s, AtPriority(v)) != []
    ensures k < |s| && s[k].priority == v
  {
    FilterMembers(s, AtPriority(v));
    var x := Filter(s, AtPriority(v))[0];
    assert x in s && x.priority == v;
    k :| 0 <= k < |s| && s[k] == x;
  }

  /** Of a descending list, a prefix keeps the first of each priority, and cuts none before a lower one. */
  lemma PrefixKeepsBest(kept: seq<Item>, cut: seq<Item>, v: int)
    requires Descending(kept + cut)
    ensures Filter(kept + cut, AtPriority(v)) == Filter(kept, AtPriority(v)) + Filter(cut, AtPriority(v))
    ensures Filter(cut, AtPriority(v)) != [] ==> forall i :: 0 <= i < |kept| ==> kept[i].priority >= v
  {
    FilterConcat(kept, cut, AtPriority(v));
    if Filter(cut, AtPriority(v)) != [] {
      var k := SomeIn(cut, v);
      assert (kept + cut)[|kept| + k] == cut[k];
      assert forall i :: 0 <= i < |kept| ==> (kept + cut)[i] == kept[i];
    }
  }

  lemma OthersAtPriority(sorted: seq<Item>, v: int)
    requires v < SYSTEM_PRIORITY
    ensures Filter(Others(sorted), AtPriority(v)) == Filter(sorted, AtPriority(v))
    ensures Filter(Musts(sorted), AtPriority(v)) == []
  {
    FilterWithin(sorted, (i: Item) => !IsSystem(i), AtPriority(v));
    FilterMembers(sorted, IsSystem);
    forall i | 0 <= i < |Musts(sorted)| ensures !AtPriority(v)(Musts(sorted)[i]) {
      assert Musts(sorted)[i] in Musts(sorted);
    }
    FilterNone(Musts(sorted), AtPriority(v));
  }

  lemma SelectionSplits(sorted: seq<Item>) returns (kept: seq<Item>, cut: seq<Item>)
    requires |sorted| > MAX_ITEMS
    ensures Others(sorted) == kept + cut && CutSelection(sorted) == Musts(sorted) + kept
    ensures cut != [] ==> |CutSelection(sorted)| == MAX_ITEMS
  {
    var room, rest := MAX_ITEMS - |Musts(sorted)|, Others(sorted);
    var n := if 0 < room <= |rest| then room else |rest|;
    CutSelectionLaws(sorted);
    kept, cut := rest[..n], rest[n..];
  }

  lemma MustsReach(sorted: seq<Item>, v: int)
    requires v < SYSTEM_PRIORITY
    ensures forall i :: 0 <= i < |Musts(sorted)| ==> Musts(sorted)[i].priority >= v
  {
    FilterMembers(sorted, IsSystem);
    forall i | 0 <= i < |Musts(sorted)| ensures Musts(sorted)[i].priority >= v {
      assert Musts(sorted)[i] in Musts(sorted);
    }
  }

  lemma SelectionKeepsBest(sorted: seq<Item>, v: int)
    requires Descending(sorted) && |sorted| > MAX_ITEMS && v < SYSTEM_PRIORITY
    ensures var kept := CutSelection(sorted);
      && Filter(kept, AtPriority(v)) <= Filter(sorted, AtPriority(v))
      && (Filter(kept, AtPriority(v)) != Filter(sorted, AtPriority(v)) ==>
            |kept| == MAX_ITEMS && forall y :: y in kept ==> y.priority >= v)
  {
    var kept, cut := SelectionSplits(sorted);
    OthersAtPriority(sorted, v);
    FilterDescends(sorted, (i: Item) => !IsSystem(i));
    FilterConcat(Musts(sorted), kept, AtPriority(v));
    PrefixKeepsBest(kept, cut, v);
    MustsReach(sorted, v);
    assert Filter(kept, AtPriority(v)) + [] == Filter(kept, AtPriority(v));
    assert [] + Filter(kept, AtPriority(v)) == Filter(kept, AtPriority(v));
    assert cut == [] ==> Filter(cut, AtPriority(v)) == [];
  }

  /**
   * What the cut to twenty items takes: at each priority below a system item's it keeps the first ones, and
   * if it takes one away then twenty items are left and none of them has a lower priority.
   */
  lemma PruneKeepsBest(items: seq<Item>, v: int)
    requires v < SYSTEM_PRIORITY
    ensures Filter(Prune(items), AtPriority(v)) <= Filter(Fresh(items), AtPriority(v))
    ensures Filter(Prune(items), AtPriority(v)) != Filter(Fresh(items), AtPriority(v)) ==>
      |Prune(items)| == 20 && forall y :: y in Prune(items) ==> y.priority >= v
  {
    var left := Fresh(items);
    if |left| > MAX_ITEMS {
      var sorted := SortDesc(left);
      SortLaws(left);
      SelectionKeepsBest(sorted, v);
      SortLaws(CutSelection(sorted));
      forall y | y in Prune(items) ensures y in CutSelection(sorted) {
        assert y in multiset(Prune(items));
      }
    }
  }

  /** Without system items the cut is the first twenty of the descending list. */
  lemma WithoutSystemItems(sorted: seq<Item>)
    requires |sorted| > 20 && forall i :: 0 <= i < |sorted| ==> sorted[i].priority < 100
    ensures CutSelection(sorted) == sorted[..20]
  {
    FilterNone(sorted, IsSystem);
    FilterAll(sorted, (i: Item) => !IsSystem(i));
  }

  lemma SubmultisetOfSameSize(a: seq<Item>, b: seq<Item>)
    requires multiset(a) <= multiset(b) && |b| <= |a|
    ensures multiset(a) == multiset(b)
  {
    assert multiset(b) == multiset(a) + (multiset(b) - multiset(a));
    assert |multiset(b) - multiset(a)| == 0;
  }

  lemma PruneIsPart(items: seq<Item>)
    ensures multiset(Prune(items)) <= multiset(Fresh(items))
  {
    CutLaws(Fresh(items));
  }

  lemma FilterPart(a: seq<Item>, b: seq<Item>, p: Item -> bool)
    requires multiset(a) <= multiset(b)
    ensures multiset(Filter(a, p)) <= multiset(Filter(b, p)) && |Filter(a, p)| <= |Filter(b, p)|
  {
    forall x ensures multiset(Filter(a, p))[x] <= multiset(Filter(b, p))[x] {
      FilterCount(a, p, x);
      FilterCount(b, p, x);
    }
    PartIsShorter(Filter(a, p), Filter(b, p));
  }

  lemma PartIsShorter(a: seq<Item>, b: seq<Item>)
    requires multiset(a) <= multiset(b)
    ensures |a| <= |b|
  {
    assert multiset(b) == multiset(a) + (multiset(b) - multiset(a));
    assert |multiset(b)| == |multiset(a)| + |multiset(b) - multiset(a)|;
  }

  /** If at most twenty items reach priority `v`, the cut takes none of them. */
  lemma HighEnoughIsKept(items: seq<Item>, v: int, x: Item)
    requires v <= SYSTEM_PRIORITY && |Filter(Fresh(items), AtLeast(v))| <= MAX_ITEMS
    requires x in Fresh(items) && x.priority >= v
    ensures x in Prune(items)
  {
    var left, kept := Fresh(items), Prune(items);
    FilterMembers(items, (i: Item) => !IsStale(i));
    PruneCap(items);
    if !IsSystem(x) {
      var u := x.priority;
      PruneKeepsBest(items, u);
      FilterMembers(left, AtPriority(u));
      FilterMembers(kept, AtPriority(u));
      if Filter(kept, AtPriority(u)) != Filter(left, AtPriority(u)) {
        PruneIsPart(items);
        FilterPart(kept, left, AtLeast(v));
        forall i | 0 <= i < |kept| ensures AtLeast(v)(kept[i]) {
          assert kept[i] in kept;
        }
        FilterAll(kept, AtLeast(v));
        SubmultisetOfSameSize(kept, Filter(left, AtLeast(v)));
        FilterMembers(left, AtLeast(v));
        assert x in multiset(kept);
      }
    }
  }

  // ---------------------------------------------------------------- the budget drops only what is larger

  /** Item `i` of the list, in its turn, is kept. */
  predicate Keeps(items: seq<Item>, maxTokens: int, i: nat)
    requires i < |items|
  {
    |Fit(items[..i + 1], maxTokens).retained| > |Fit(items[..i], maxTokens).retained|
  }

  lemma KeepsExactly(items: seq<Item>, maxTokens: int, i: nat)
    requires i < |items|
    ensures Keeps(items, maxTokens, i) <==>
      Fit(items[..i], maxTokens).tokens + EstimateTokens(items[i].content) <= maxTokens || IsSystem(items[i])
  {
    assert items[..i + 1][..i] == items[..i];
  }

  lemma {:induction false} TokensGrow(items: seq<Item>, maxTokens: int, i: nat, j: nat)
    requires i <= j <= |items|
    ensures Fit(items[..i], maxTokens).tokens <= Fit(items[..j], maxTokens).tokens
  {
    if i < j {
      TokensGrow(items, maxTokens, i, j - 1);
      assert items[..j][..j - 1] == items[..j - 1];
    }
  }

  /** An item dropped although a later one that is no system item was kept is larger than that one. */
  lemma FitSkipsOnlyLarger(items: seq<Item>, maxTokens: int, i: nat, j: nat)
    requires i < j < |items| && !Keeps(items, maxTokens, i) && Keeps(items, maxTokens, j) && !IsSystem(items[j])
    ensures EstimateTokens(items[i].content) > EstimateTokens(items[j].content)
  {
    KeepsExactly(items, maxTokens, i);
    KeepsExactly(items, maxTokens, j);
    TokensGrow(items, maxTokens, i, j);
  }

  lemma {:induction false} AllFit(items: seq<Item>, maxTokens: int)
    requires Tokens(items) <= maxTokens
    ensures Fit(items, maxTokens).retained == items && Fit(items, maxTokens).tokens == Tokens(items)
  {
    if items != [] {
      AllFit(items[..|items| - 1], maxTokens);
    }
  }

  /** If the items that reach priority `v` fit together, all of them are kept. */
  lemma {:induction false} TopFits(sorted: seq<Item>, maxTokens: int, v: int, x: Item)
    requires Descending(sorted) && Tokens(Filter(sorted, AtLeast(v))) <= maxTokens
    requires x in sorted && x.priority >= v
    ensures x in Fit(sorted, maxTokens).retained
  {
    var n := |sorted| - 1;
    var k :| 0 <= k <= n && sorted[k] == x;
    if sorted[n].priority >= v {
      FilterAll(sorted, AtLeast(v));
      AllFit(sorted, maxTokens);
    } else {
      assert sorted[..n][k] == x;
      TopFits(sorted[..n], maxTokens, v, x);
    }
  }

  lemma {:induction false} TokensOfPart(a: seq<Item>, b: seq<Item>)
    requires multiset(a) <= multiset(b)
    ensures Tokens(a) <= Tokens(b)
    decreases |a|
  {
    if a != [] {
      var n := |a| - 1;
      assert a[n] in multiset(b);
      var k :| 0 <= k < |b| && b[k] == a[n];
      RemoveOne(a, n);
      RemoveOne(b, k);
      assert a[..n] + a[n + 1..] == a[..n];
      TokensOfPart(a[..n], b[..k] + b[k + 1..]);
      TokensOfRemoval(b, k);
    }
  }

  // ---------------------------------------------------------------- the whole assembly

  lemma FreshIsPart(raw: seq<Item>)
    ensures multiset(Fresh(Dedup(raw))) <= multiset(raw)
  {
    DedupSound(raw);
    forall x ensures multiset(Fresh(Dedup(raw)))[x] <= multiset(raw)[x] {
      FilterCount(Dedup(raw), (i: Item) => !IsStale(i), x);
    }
  }

  lemma RetainedIsShown(raw: seq<Item>, maxTokens: int, x: Item)
    requires x in Fitted(raw, maxTokens).retained
    ensures x in AssembledBundle(raw, maxTokens).items
  {
    var retained := Fitted(raw, maxTokens).retained;
    if |retained| > POSITIONAL_LIMIT {
      ReorderedLaws(retained);
      assert x in multiset(Reordered(retained));
    }
  }

  lemma ShownIsRetained(retained: seq<Item>, x: Item)
    requires x in Final(retained)
    ensures x in retained
  {
    if |retained| > POSITIONAL_LIMIT {
      ReorderedLaws(retained);
      FilterMembers(retained, IsBoth);
      assert x in multiset(Reordered(retained));
    }
  }

  lemma RetainedIsKept(sorted: seq<Item>, maxTokens: int, x: Item)
    requires x in Fit(sorted, maxTokens).retained
    ensures x in sorted
  {
    FitLaws(sorted, maxTokens);
    assert x in multiset(Fit(sorted, maxTokens).retained);
    assert x in multiset(sorted);
  }

  lemma PartHas(a: seq<Item>, b: seq<Item>, x: Item)
    requires multiset(a) <= multiset(b) && x in a
    ensures x in b
  {
    assert x in multiset(a);
    assert x in multiset(b);
  }

  /** The assembly invents nothing. */
  lemma ShownIsSubmitted(raw: seq<Item>, maxTokens: int, x: Item)
    requires x in AssembledBundle(raw, maxTokens).items
    ensures x in raw
  {
    var kept := Prune(Dedup(raw));
    ShownIsRetained(Fitted(raw, maxTokens).retained, x);
    RetainedIsKept(SortDesc(kept), maxTokens, x);
    SortLaws(kept);
    PartHas(SortDesc(kept), kept, x);
    PruneIsPart(Dedup(raw));
    PartHas(kept, Fresh(Dedup(raw)), x);
    FreshIsPart(raw);
    PartHas(Fresh(Dedup(raw)), raw, x);
  }

  /**
   * What reaches priority `v` comes through the whole assembly: if at most twenty items do and together they
   * fit the budget, each of them that is not stale and first of its content is in the bundle.
   */
  lemma TopIsShown(raw: seq<Item>, maxTokens: int, v: int, n: nat)
    requires v <= SYSTEM_PRIORITY && n < |raw| && raw[n].priority >= v && !SeenBefore(raw, n) && !IsStale(raw[n])
    requires |Filter(raw, AtLeast(v))| <= MAX_ITEMS && Tokens(Filter(raw, AtLeast(v))) <= maxTokens
    ensures raw[n] in AssembledBundle(raw, maxTokens).items
  {
    var x, d := raw[n], Dedup(raw);
    var kept := Prune(d);
    FirstOccurrenceKept(raw, n);
    FreshIsPart(raw);
    FreshExactly(d, x);
    FilterPart(Fresh(d), raw, AtLeast(v));
    HighEnoughIsKept(d, v, x);
    PruneIsPart(d);
    SortLaws(kept);
    FilterPart(SortDesc(kept), raw, AtLeast(v));
    TokensOfPart(Filter(SortDesc(kept), AtLeast(v)), Filter(raw, AtLeast(v)));
    assert x in multiset(SortDesc(kept));
    TopFits(SortDesc(kept), maxTokens, v, x);
    RetainedIsShown(raw, maxTokens, x);
  }

  lemma TokensOfTwo(x: Item, y: Item)
    ensures Tokens([x] + [y]) == EstimateTokens(x.content) + EstimateTokens(y.content)
  {
    assert ([x] + [y])[..1] == [x] && [x][..0] == [];
    assert Tokens([x]) == Tokens([]) + EstimateTokens(x.content);
  }

  /** The second of two top items that fit the budget together. */
  lemma SecondIsShown(raw: seq<Item>, maxTokens: int, v: int, first: Item, second: Item, n: nat)
    requires v <= SYSTEM_PRIORITY && Filter(raw, AtLeast(v)) == [first] + [second]
    requires EstimateTokens(first.content) + EstimateTokens(second.content) <= maxTokens
    requires n < |raw| && raw[n] == second && second.priority >= v && second.age == 0 && !SeenBefore(raw, n)
    ensures second in AssembledBundle(raw, maxTokens).items
  {
    TokensOfTwo(first, second);
    TopIsShown(raw, maxTokens, v, n);
  }

  // ---------------------------------------------------------------- places after reordering

  lemma {:induction false} EvensAt<T>(s: seq<T>, k: nat)
    requires k < |Evens(s)|
    ensures 2 * k < |s| && Evens(s)[k] == s[2 * k]
  {
    var n := |s| - 1;
    if k < |Evens(s[..n])| {
      EvensAt(s[..n], k);
    }
  }

  lemma {:induction false} OddsAt<T>(s: seq<T>, k: nat)
    requires k < |Odds(s)|
    ensures 2 * k + 1 < |s| && Odds(s)[k] == s[2 * k + 1]
  {
    var n := |s| - 1;
    if k < |Odds(s[..n])| {
      OddsAt(s[..n], k);
    }
  }

  function Rest(items: seq<Item>): seq<Item> { Filter(items, IsRest) }

  /** Where each of the other items stands after the reordering. */
  function PlaceOf(front: nat, rest: nat, k: nat): nat
    requires k < rest
  {
    if k % 2 == 0 then front + k / 2 else front + (rest + 1) / 2 + k / 2
  }

  /** The `k`-th of the other items stands `k / 2` places into the first or into the second half of them. */
  lemma ReorderedPlaces(items: seq<Item>, k: nat)
    requires |items| > 2 && k < |Rest(items)|
    ensures var front := |Musts(items)| + |Users(items)|;
      var at := PlaceOf(front, |Rest(items)|, k);
      at < |Reordered(items)| && Reordered(items)[at] == Rest(items)[k]
  {
    var rest := Rest(items);
    if k % 2 == 0 {
      EvensAt(rest, k / 2);
    } else {
      OddsAt(rest, k / 2);
    }
  }

  /**
   * The reordering is meant to put important items at both ends, but the second most important of the other
   * items comes last if and only if there are two or three of them; with more, the end of the bundle is one
   * of the two least important.
   */
  lemma SecondComesLastExactly(items: seq<Item>)
    requires |items| > 2 && |Rest(items)| >= 2
    ensures var front, n := |Musts(items)| + |Users(items)|, |Rest(items)|;
      var end := |Reordered(items)| - 1;
      && (PlaceOf(front, n, 1) == end <==> n <= 3)
      && Reordered(items)[end] == Rest(items)[if n % 2 == 0 then n - 1 else n - 2]
  {
    var n := |Rest(items)|;
    ReorderedPlaces(items, 1);
    ReorderedPlaces(items, if n % 2 == 0 then n - 1 else n - 2);
  }

  /** Up to eight items stay in the order of their priorities. */
  lemma EightStayInOrder(retained: seq<Item>)
    requires |retained| <= 8
    ensures Final(retained) == retained
  {
  }
}
