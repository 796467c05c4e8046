/** Context assembly: deduplicate, prune, sort, fit the token budget, reorder, report. */
module Context {
  import opened Sequences
  import opened Sorting

  datatype Item = Item(id: string, kind: string, content: string, priority: int, trust: string, age: int)

  const MAX_AGE := 10
  const STALE_PRIORITY := 60
  const MAX_ITEMS := 20
  const SYSTEM_PRIORITY := 100

  predicate IsSystem(i: Item) { i.priority >= SYSTEM_PRIORITY }
  predicate IsUser(i: Item) { i.kind == "user_message" }

  /** Roughly four characters a token, at least one. */
  function EstimateTokens(content: string): (n: nat)
    ensures n >= 1
  {
    if |content| / 4 > 1 then |content| / 4 else 1
  }

  lemma TokensCount(content: string)
    ensures |content| < 8 ==> EstimateTokens(content) == 1
    ensures |content| >= 4 ==> 4 * EstimateTokens(content) <= |content| < 4 * EstimateTokens(content) + 4
  {
  }

  // ---------------------------------------------------------------- strip

  predicate IsSpace(c: char) {
    || '\t' <= c <= '\r' || '\U{1c}' <= c <= ' ' || c == '\U{85}' || c == '\U{a0}' || c == '\U{1680}'
    || '\U{2000}' <= c <= '\U{200a}' || c == '\U{2028}' || c == '\U{2029}' || c == '\U{202f}' || c == '\U{205f}'
        || c == '\U{3000}'
  }

  /** White space by code point: control characters, the space, and the wide and narrow spaces of Unicode. */
  lemma SpacesAre(c: char)
    ensures IsSpace(c) <==> c as int in {0x9, 0xa, 0xb, 0xc, 0xd, 0x1c, 0x1d, 0x1e, 0x1f, 0x20, 0x85, 0xa0, 0x1680,
      0x2000, 0x2001, 0x2002, 0x2003, 0x2004, 0x2005, 0x2006, 0x2007, 0x2008, 0x2009, 0x200a, 0x2028, 0x2029, 0x202f,
      0x205f, 0x3000}
  {
  }

  function StripRight(s: string): string {
    if s != "" && IsSpace(s[|s| - 1]) then StripRight(s[..|s| - 1]) else s
  }

  function Strip(s: string): string {
    if s != "" && IsSpace(s[0]) then Strip(s[1..]) else StripRight(s)
  }

  predicate AllSpace(s: string) { forall i :: 0 <= i < |s| ==> IsSpace(s[i]) }

  lemma {:induction false} StripRightLaws(s: string) returns (after: string)
    ensures s == StripRight(s) + after && AllSpace(after)
    ensures StripRight(s) != "" ==> !IsSpace(StripRight(s)[|StripRight(s)| - 1])
  {
    if s != "" && IsSpace(s[|s| - 1]) {
      after := StripRightLaws(s[..|s| - 1]);
      after := after + [s[|s| - 1]];
    } else {
      after := "";
    }
  }

  /** Stripping removes white space on both sides, all of it, and nothing else. */
  lemma {:induction false} StripLaws(s: string) returns (before: string, after: string)
    ensures s == before + Strip(s) + after && AllSpace(before) && AllSpace(after)
    ensures Strip(s) != "" ==> !IsSpace(Strip(s)[0]) && !IsSpace(Strip(s)[|Strip(s)| - 1])
  {
    if s != "" && IsSpace(s[0]) {
      before, after := StripLaws(s[1..]);
      before := [s[0]] + before;
    } else {
      before := "";
      after := StripRightLaws(s);
      if s != "" { StripRightKeepsHead(s); }
    }
  }

  lemma {:induction false} StripRightKeepsHead(s: string)
    requires s != "" && !IsSpace(s[0])
    ensures StripRight(s) != "" && StripRight(s)[0] == s[0]
  {
    if IsSpace(s[|s| - 1]) {
      StripRightKeepsHead(s[..|s| - 1]);
    }
  }

  // ---------------------------------------------------------------- deduplication

  predicate SeenBefore(items: seq<Item>, n: nat)
    requires n < |items|
  {
    exists k :: 0 <= k < n && Strip(items[k].content) == Strip(items[n].content)
  }

  /** The items whose stripped content appears nowhere before them. */
  function Dedup(items: seq<Item>): seq<Item> {
    if items == [] then []
    else
      var n := |items| - 1;
      if SeenBefore(items, n) then Dedup(items[..n]) else Dedup(items[..n]) + [items[n]]
  }

  /** The stripped contents of the first `n` items. */
  ghost function SeenUpTo(items: seq<Item>, n: nat): set<string>
    requires n <= |items|
  {
    set k | 0 <= k < n :: Strip(items[k].content)
  }

  lemma SeenStep(items: seq<Item>, n: nat)
    requires n < |items|
    ensures SeenBefore(items, n) <==> Strip(items[n].content) in SeenUpTo(items, n)
    ensures SeenUpTo(items, n + 1) == SeenUpTo(items, n) + {Strip(items[n].content)}
    ensures SeenBefore(items, n) ==> SeenUpTo(items, n + 1) == SeenUpTo(items, n)
  {
  }

  lemma DedupStep(items: seq<Item>, i: nat)
    requires i < |items|
    ensures Dedup(items[..i + 1]) == if SeenBefore(items, i) then Dedup(items[..i]) else Dedup(items[..i]) + [items[i]]
  {
    assert items[..i + 1][..i] == items[..i];
    SeenInPrefix(items, i + 1, i);
  }

  method Deduplicate(items: seq<Item>) returns (unique: seq<Item>)
    ensures unique == Dedup(items)
  {
    var seen: set<string> := {};
    unique := [];
    for i := 0 to |items|
      invariant seen == SeenUpTo(items, i)
      invariant unique == Dedup(items[..i])
    {
      DedupStep(items, i);
      SeenStep(items, i);
      if Strip(items[i].content) !in seen {
        seen := seen + {Strip(items[i].content)};
        unique := unique + [items[i]];
      }
    }
    assert items[..|items|] == items;
  }

  lemma {:induction false} DedupCount(items: seq<Item>, x: Item)
    ensures Count(Dedup(items), x) <= Count(items, x)
  {
    if items != [] {
      var n := |items| - 1;
      DedupCount(items[..n], x);
      CountSnoc(Dedup(items[..n]), items[n], x);
    }
  }

  lemma DedupSound(items: seq<Item>)
    ensures multiset(Dedup(items)) <= multiset(items)
  {
    forall x ensures multiset(Dedup(items))[x] <= multiset(items)[x] {
      DedupCount(items, x);
      CountIsMultiplicity(Dedup(items), x);
      CountIsMultiplicity(items, x);
    }
  }

  predicate Represented(kept: seq<Item>, x: Item) {
    exists k :: 0 <= k < |kept| && Strip(kept[k].content) == Strip(x.content)
  }

  lemma {:induction false} DedupCovers(items: seq<Item>)
    ensures forall i :: 0 <= i < |items| ==> Represented(Dedup(items), items[i])
  {
    if items != [] {
      var n := |items| - 1;
      var before, d := Dedup(items[..n]), Dedup(items);
      DedupCovers(items[..n]);
      forall i | 0 <= i < |items| ensures Represented(d, items[i]) {
        if i == n && !SeenBefore(items, n) {
          assert d[|before|] == items[n];
        } else {
          var j :| 0 <= j < n && Strip(items[j].content) == Strip(items[i].content);
          assert Represented(before, items[..n][j]);
          var k :| 0 <= k < |before| && Strip(before[k].content) == Strip(items[j].content);
          assert d[k] == before[k];
        }
      }
    }
  }

  /** Where a kept item comes from. */
  lemma {:induction false} DedupPlace(items: seq<Item>, i: nat) returns (m: nat)
    requires i < |Dedup(items)|
    ensures m < |items| && items[m] == Dedup(items)[i]
  {
    var n := |items| - 1;
    if i < |Dedup(items[..n])| {
      m := DedupPlace(items[..n], i);
    } else {
      m := n;
    }
  }

  lemma {:induction false} DedupDistinct(items: seq<Item>)
    ensures forall i, k :: 0 <= i < k < |Dedup(items)| ==>
      Strip(Dedup(items)[i].content) != Strip(Dedup(items)[k].content)
  {
    if items != [] {
      var n := |items| - 1;
      var before := Dedup(items[..n]);
      DedupDistinct(items[..n]);
      if !SeenBefore(items, n) {
        forall i | 0 <= i < |before| ensures Strip(before[i].content) != Strip(items[n].content) {
          var m := DedupPlace(items[..n], i);
          assert items[m] == before[i];
        }
      }
    }
  }

  /** Nothing is invented, no content is kept twice, every content stays represented. */
  lemma DedupLaws(items: seq<Item>)
    ensures multiset(Dedup(items)) <= multiset(items)
    ensures forall i, k :: 0 <= i < k < |Dedup(items)| ==>
      Strip(Dedup(items)[i].content) != Strip(Dedup(items)[k].content)
    ensures forall i :: 0 <= i < |items| ==> Represented(Dedup(items), items[i])
  {
    DedupSound(items);
    DedupDistinct(items);
    DedupCovers(items);
  }

  /** The first item with its content is always kept. */
  lemma {:induction false} FirstOccurrenceKept(items: seq<Item>, n: nat)
    requires n < |items| && !SeenBefore(items, n)
    ensures items[n] in Dedup(items)
    decreases |items|
  {
    if n < |items| - 1 {
      assert !SeenBefore(items[..|items| - 1], n);
      FirstOccurrenceKept(items[..|items| - 1], n);
    }
  }

  // ---------------------------------------------------------------- sorting

  function PriorityOf(x: Item): real { x.priority as real }

  /** `sorted(items, key=priority, reverse=True)`. */
  function SortDesc(items: seq<Item>): seq<Item> { SortBy(items, PriorityOf) }

  ghost predicate Descending(items: seq<Item>) {
    forall i, k :: 0 <= i < k < |items| ==> items[i].priority >= items[k].priority
  }

  function AtPriority(p: int): Item -> bool { (x: Item) => x.priority == p }

  /** A stable descending sort: ordered, a permutation, and equals keep their order. */
  lemma SortLaws(items: seq<Item>)
    ensures Descending(SortDesc(items)) && multiset(SortDesc(items)) == multiset(items) && |SortDesc(items)| == |items|
    ensures forall p :: Filter(SortDesc(items), AtPriority(p)) == Filter(items, AtPriority(p))
  {
    SortOrders(items, PriorityOf);
    forall i, k | 0 <= i < k < |items| ensures SortDesc(items)[i].priority >= SortDesc(items)[k].priority {
      assert PriorityOf(SortDesc(items)[i]) >= PriorityOf(SortDesc(items)[k]);
    }
    forall p ensures Filter(SortDesc(items), AtPriority(p)) == Filter(items, AtPriority(p)) {
      SortStable(items, PriorityOf, p as real);
      FilterSame(items, AtPriority(p), KeyIs(PriorityOf, p as real));
      FilterSame(SortDesc(items), AtPriority(p), KeyIs(PriorityOf, p as real));
    }
  }

  // ---------------------------------------------------------------- pruning

  predicate IsStale(i: Item) { i.age > MAX_AGE && i.priority < STALE_PRIORITY }

  function Fresh(items: seq<Item>): seq<Item> { Filter(items, (i: Item) => !IsStale(i)) }

  function Musts(items: seq<Item>): seq<Item> { Filter(items, IsSystem) }

  function Others(items: seq<Item>): seq<Item> { Filter(items, (i: Item) => !IsSystem(i)) }

  /** The second rule: past twenty items keep the system items and as many others as fit, if any fit. */
  function Cut(items: seq<Item>): seq<Item> {
    if |items| <= MAX_ITEMS then items
    else
      var sorted := SortDesc(items);
      SortDesc(CutSelection(sorted))
  }

  function Prune(items: seq<Item>): seq<Item> { Cut(Fresh(items)) }

  method PruneItems(items: seq<Item>) returns (retained: seq<Item>, prunedCount: int)
    ensures retained == Prune(items) && prunedCount == |items| - |retained|
  {
    prunedCount := 0;
    retained := [];
    for k := 0 to |items|
      invariant retained == Fresh(items[..k]) && prunedCount == k - |retained|
    {
      assert items[..k + 1][..k] == items[..k];
      if items[k].age > MAX_AGE && items[k].priority < STALE_PRIORITY {
        prunedCount := prunedCount + 1;
        continue;
      }
      retained := retained + [items[k]];
    }
    assert items[..|items|] == items;
    if |retained| > MAX_ITEMS {
      retained := SortDesc(retained);
      var mustKeep := Filter(retained, IsSystem);
      var rest := Filter(retained, (i: Item) => !IsSystem(i));
      var extraCut := MAX_ITEMS - |mustKeep|;
      if extraCut > 0 {
        rest := Take(rest, extraCut);
      }
      SortLaws(Fresh(items));
      SortLaws(mustKeep + rest);
      prunedCount := prunedCount + |retained| - |mustKeep| - |rest|;
      retained := SortDesc(mustKeep + rest);
    }
  }

  /** What the second rule keeps, before it is sorted again. */
  function CutSelection(sorted: seq<Item>): seq<Item> {
    var room := MAX_ITEMS - |Musts(sorted)|;
    Musts(sorted) + if room > 0 then Take(Others(sorted), room) else Others(sorted)
  }

  lemma TakePart<T>(s: seq<T>, n: nat)
    ensures multiset(Take(s, n)) <= multiset(s) && |Take(s, n)| == if n <= |s| then n else |s|
  {
    assert s == Take(s, n) + s[|Take(s, n)|..];
  }

  lemma JoinPart<T>(a: seq<T>, b: seq<T>, part: seq<T>, s: seq<T>)
    requires multiset(a) + multiset(b) == multiset(s) && multiset(part) <= multiset(b)
    ensures multiset(a + part) <= multiset(s) && |a| + |b| == |s|
  {
    assert |multiset(a) + multiset(b)| == |multiset(s)|;
  }

  lemma CutSelectionLaws(sorted: seq<Item>)
    requires |sorted| > MAX_ITEMS
    ensures multiset(CutSelection(sorted)) <= multiset(sorted)
    ensures forall x :: x in sorted && IsSystem(x) ==> x in CutSelection(sorted)
    ensures |CutSelection(sorted)| <= MAX_ITEMS <==> |Musts(sorted)| < MAX_ITEMS
    ensures |Musts(sorted)| < MAX_ITEMS ==> |CutSelection(sorted)| == MAX_ITEMS
    ensures |Musts(sorted)| >= MAX_ITEMS ==> |CutSelection(sorted)| == |sorted|
  {
    FilterSplits(sorted, IsSystem, (i: Item) => !IsSystem(i));
    FilterMembers(sorted, IsSystem);
    var must, rest := Musts(sorted), Others(sorted);
    var room := MAX_ITEMS - |must|;
    var kept := Take(rest, if room > 0 then room else |rest|);
    TakePart(rest, if room > 0 then room else |rest|);
    JoinPart(must, rest, kept, sorted);
    assert CutSelection(sorted) == must + kept;
  }

  lemma CutLaws(items: seq<Item>)
    ensures multiset(Cut(items)) <= multiset(items)
    ensures forall x :: x in items && IsSystem(x) ==> x in Cut(items)
    ensures |Cut(items)| <= MAX_ITEMS <==> |items| <= MAX_ITEMS || |Musts(items)| < MAX_ITEMS
  {
    if |items| > MAX_ITEMS {
      var sorted := SortDesc(items);
      SortLaws(items);
      CutSelectionLaws(sorted);
      SortLaws(CutSelection(sorted));
      MustsOfSorted(items);
      forall x | x in items && IsSystem(x) ensures x in Cut(items) {
        assert x in multiset(items);
        assert x in multiset(sorted);
        assert x in multiset(CutSelection(sorted));
        assert x in multiset(Cut(items));
      }
    }
  }

  lemma MustsOfSorted(items: seq<Item>)
    ensures multiset(Musts(SortDesc(items))) == multiset(Musts(items)) && |Musts(SortDesc(items))| == |Musts(items)|
  {
    SortLaws(items);
    MustsOfPermutation(SortDesc(items), items);
  }

  lemma MustsOfPermutation(a: seq<Item>, b: seq<Item>)
    requires multiset(a) == multiset(b)
    ensures multiset(Musts(a)) == multiset(Musts(b)) && |Musts(a)| == |Musts(b)|
  {
    forall x ensures multiset(Musts(a))[x] == multiset(Musts(b))[x] {
      FilterCount(a, IsSystem, x);
      FilterCount(b, IsSystem, x);
    }
    assert multiset(Musts(a)) == multiset(Musts(b));
    assert |multiset(Musts(a))| == |Musts(a)| && |multiset(Musts(b))| == |Musts(b)|;
  }

  /**
   * The cap of twenty holds exactly when the items that are not stale are at most twenty, or fewer than
   * twenty of them are system items: with twenty or more the other items are not cut at all.
   */
  lemma PruneCap(items: seq<Item>)
    ensures |Prune(items)| <= MAX_ITEMS <==> |Fresh(items)| <= MAX_ITEMS || |Musts(items)| < MAX_ITEMS
    ensures multiset(Prune(items)) <= multiset(items)
    ensures forall x :: x in items && IsSystem(x) ==> x in Prune(items)
  {
    CutLaws(Fresh(items));
    FilterSplits(items, (i: Item) => !IsStale(i), IsStale);
    MustsOfFresh(items);
    FilterMembers(items, (i: Item) => !IsStale(i));
    forall x | x in items && IsSystem(x) ensures x in Prune(items) {
      assert x in Fresh(items);
    }
  }

  /** Pruning keeps every copy of a system item. */
  lemma SystemCopiesKept(items: seq<Item>, x: Item)
    requires IsSystem(x)
    ensures multiset(Prune(items))[x] == multiset(items)[x]
  {
    FilterCount(items, (i: Item) => !IsStale(i), x);
    var left := Fresh(items);
    if |left| > MAX_ITEMS {
      var sorted := SortDesc(left);
      SortLaws(left);
      SelectionKeeps(sorted, x);
      SortLaws(CutSelection(sorted));
    }
  }

  lemma SelectionKeeps(sorted: seq<Item>, x: Item)
    requires IsSystem(x)
    ensures multiset(CutSelection(sorted))[x] == multiset(sorted)[x]
  {
    FilterCount(sorted, IsSystem, x);
    FilterCount(sorted, (i: Item) => !IsSystem(i), x);
    var room := MAX_ITEMS - |Musts(sorted)|;
    if room > 0 {
      TakeCount(Others(sorted), room, x);
    }
  }

  lemma MustsOfPruned(items: seq<Item>)
    ensures multiset(Musts(SortDesc(Prune(items)))) == multiset(Musts(items))
  {
    MustsOfSorted(Prune(items));
    forall x ensures multiset(Musts(Prune(items)))[x] == multiset(Musts(items))[x] {
      FilterCount(Prune(items), IsSystem, x);
      FilterCount(items, IsSystem, x);
      if IsSystem(x) { SystemCopiesKept(items, x); }
    }
  }

  lemma {:induction false} MustsOfFresh(items: seq<Item>)
    ensures Musts(Fresh(items)) == Musts(items)
  {
    if items != [] {
      var n := |items| - 1;
      MustsOfFresh(items[..n]);
      FilterConcat(Fresh(items[..n]), if IsStale(items[n]) then [] else [items[n]], IsSystem);
      var one := [items[n]];
      assert one[..0] == [] && Filter(one, IsSystem) == if IsSystem(items[n]) then one else [];
    }
  }

  /** Twenty system items and one other. */
  function TwentyAndOne(): seq<Item> {
    seq(20, _ => Item("s", "system_instruction", "s", 100, "system_trusted", 0))
      + [Item("x", "tool_result", "x", 40, "system_trusted", 0)]
  }

  lemma MustsOfTwentyAndOne()
    ensures |Musts(TwentyAndOne())| == 20
  {
    var items := TwentyAndOne();
    FilterAll(items[..20], IsSystem);
    FilterConcat(items[..20], items[20..], IsSystem);
    assert items == items[..20] + items[20..];
  }

  /** The cap can fail: of twenty system items and one other, none is cut. */
  lemma PruneCapCanFail()
    ensures |Prune(TwentyAndOne())| > MAX_ITEMS
  {
    var items := TwentyAndOne();
    FilterAll(items, (i: Item) => !IsStale(i));
    MustsOfTwentyAndOne();
    PruneCap(items);
  }

  lemma SeenInPrefix(items: seq<Item>, n: nat, k: nat)
    requires k < n <= |items|
    ensures SeenBefore(items[..n], k) <==> SeenBefore(items, k)
  {
  }

  /** Items of pairwise different stripped contents are all kept. */
  lemma {:induction false} DedupOfDistinct(items: seq<Item>)
    requires forall n :: 0 <= n < |items| ==> !SeenBefore(items, n)
    ensures Dedup(items) == items
  {
    if items != [] {
      var n := |items| - 1;
      forall k | 0 <= k < n ensures !SeenBefore(items[..n], k) {
        SeenInPrefix(items, n, k);
      }
      DedupOfDistinct(items[..n]);
      assert items == items[..n] + [items[n]];
    }
  }
}
