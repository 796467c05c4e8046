/** The assembler proper: greedy token budget, positional reordering, and the report. */
module Assembler {
  import opened Arithmetic
  import opened Sequences
  import opened Tallies
  import opened Context

  // ---------------------------------------------------------------- token budget

  datatype Budget = Budget(retained: seq<Item>, dropped: seq<Item>, tokens: nat)

  function Tokens(items: seq<Item>): nat {
    if items == [] then 0 else Tokens(items[..|items| - 1]) + EstimateTokens(items[|items| - 1].content)
  }

  /** Each item in turn: kept if it fits, kept anyway if it is a system item, dropped otherwise. */
  function Fit(items: seq<Item>, maxTokens: int): Budget {
    if items == [] then Budget([], [], 0)
    else
      var b, x := Fit(items[..|items| - 1], maxTokens), items[|items| - 1];
      if b.tokens + EstimateTokens(x.content) > maxTokens && !IsSystem(x) then b.(dropped := b.dropped + [x])
      else b.(retained := b.retained + [x], tokens := b.tokens + EstimateTokens(x.content))
  }

  /** The total is exact, nothing is lost, and no dropped item would have fitted. */
  lemma {:induction false} FitLaws(items: seq<Item>, maxTokens: int)
    ensures var b := Fit(items, maxTokens);
      && b.tokens == Tokens(b.retained)
      && multiset(b.retained) + multiset(b.dropped) == multiset(items)
      && |b.retained| + |b.dropped| == |items|
      && forall i :: 0 <= i < |b.dropped| ==>
          !IsSystem(b.dropped[i]) && b.tokens + EstimateTokens(b.dropped[i].content) > maxTokens
  {
    FitCounts(items, maxTokens);
    FitPartitions(items, maxTokens);
  }

  lemma {:induction false} FitCounts(items: seq<Item>, maxTokens: int)
    ensures var b := Fit(items, maxTokens);
      && b.tokens == Tokens(b.retained)
      && |b.retained| + |b.dropped| == |items|
      && forall i :: 0 <= i < |b.dropped| ==>
          !IsSystem(b.dropped[i]) && b.tokens + EstimateTokens(b.dropped[i].content) > maxTokens
  {
    if items != [] {
      var n := |items| - 1;
      var b := Fit(items[..n], maxTokens);
      FitCounts(items[..n], maxTokens);
      assert (b.retained + [items[n]])[..|b.retained|] == b.retained;
    }
  }

  lemma {:induction false} FitCount(items: seq<Item>, maxTokens: int, x: Item)
    ensures var b := Fit(items, maxTokens); Count(b.retained, x) + Count(b.dropped, x) == Count(items, x)
  {
    if items != [] {
      var n := |items| - 1;
      var b := Fit(items[..n], maxTokens);
      FitCount(items[..n], maxTokens, x);
      CountSnoc(b.retained, items[n], x);
      CountSnoc(b.dropped, items[n], x);
    }
  }

  lemma FitPartitions(items: seq<Item>, maxTokens: int)
    ensures multiset(Fit(items, maxTokens).retained) + multiset(Fit(items, maxTokens).dropped) == multiset(items)
  {
    var b := Fit(items, maxTokens);
    forall x ensures Count(b.retained, x) + Count(b.dropped, x) == Count(items, x) {
      FitCount(items, maxTokens, x);
    }
    CountsAdd(b.retained, b.dropped, items);
  }

  lemma CountsAdd(a: seq<Item>, b: seq<Item>, s: seq<Item>)
    requires forall x :: Count(a, x) + Count(b, x) == Count(s, x)
    ensures multiset(a) + multiset(b) == multiset(s)
  {
    forall x ensures (multiset(a) + multiset(b))[x] == multiset(s)[x] {
      CountIsMultiplicity(a, x);
      CountIsMultiplicity(b, x);
      CountIsMultiplicity(s, x);
    }
  }

  lemma {:induction false} FitKeepsOrder(items: seq<Item>, maxTokens: int)
    requires Descending(items)
    ensures Descending(Fit(items, maxTokens).retained)
    ensures forall x :: x in Fit(items, maxTokens).retained ==> x in items
  {
    if items != [] {
      var n := |items| - 1;
      FitKeepsOrder(items[..n], maxTokens);
      forall x | x in items[..n] ensures x.priority >= items[n].priority {
        var k :| 0 <= k < n && items[..n][k] == x;
        assert items[k] == x;
      }
    }
  }

  lemma {:induction false} AllSystemFits(items: seq<Item>, maxTokens: int)
    requires forall i :: 0 <= i < |items| ==> IsSystem(items[i])
    ensures Fit(items, maxTokens).retained == items && Fit(items, maxTokens).tokens == Tokens(items)
    ensures Musts(items) == items
  {
    if items != [] {
      AllSystemFits(items[..|items| - 1], maxTokens);
    }
  }

  /**
   * System items come first, so the total exceeds the budget only if they alone do, and then nothing
   * else is kept.
   */
  lemma {:induction false} FitWithinBudget(items: seq<Item>, maxTokens: int)
    requires Descending(items)
    ensures Fit(items, maxTokens).tokens <= maxTokens || Fit(items, maxTokens).tokens == Tokens(Musts(items))
    ensures Tokens(Musts(items)) > maxTokens ==> Fit(items, maxTokens).retained == Musts(items)
    ensures Fit(items, maxTokens).tokens >= Tokens(Musts(items))
  {
    if items != [] {
      var n := |items| - 1;
      if IsSystem(items[n]) {
        AllSystemFits(items, maxTokens);
      } else {
        FitWithinBudget(items[..n], maxTokens);
        FilterLast(items, IsSystem);
      }
    }
  }

  // ---------------------------------------------------------------- reordering

  function Evens<T>(s: seq<T>): (r: seq<T>)
    ensures |r| == (|s| + 1) / 2
  {
    if s == [] then []
    else if |s| % 2 == 1 then Evens(s[..|s| - 1]) + [s[|s| - 1]]
    else Evens(s[..|s| - 1])
  }

  function Odds<T>(s: seq<T>): (r: seq<T>)
    ensures |r| == |s| / 2
  {
    if s == [] then []
    else if |s| % 2 == 0 then Odds(s[..|s| - 1]) + [s[|s| - 1]]
    else Odds(s[..|s| - 1])
  }

  function Users(items: seq<Item>): seq<Item> { Filter(items, IsUser) }

  predicate IsRest(i: Item) { !IsSystem(i) && !IsUser(i) }

  predicate IsBoth(i: Item) { IsSystem(i) && IsUser(i) }

  /** System items, user messages, then the rest at even places before the rest at odd places. */
  function Reordered(items: seq<Item>): seq<Item> {
    if |items| <= 2 then items
    else Musts(items) + Users(items) + Evens(Filter(items, IsRest)) + Odds(Filter(items, IsRest))
  }

  /** The loop's list after `idx` elements of the rest. */
  function Placed(front: seq<Item>, rest: seq<Item>, idx: nat): seq<Item>
    requires idx <= |rest|
  {
    front + Evens(rest[..idx]) + Odds(rest[..idx])
  }

  method ReorderForPositionalBias(items: seq<Item>) returns (result: seq<Item>)
    ensures result == Reordered(items)
  {
    if |items| <= 2 {
      return items;
    }
    var system := Filter(items, IsSystem);
    var user := Filter(items, IsUser);
    var rest := Filter(items, (i: Item) => i !in system && i !in user);
    RestByMembership(items, system, user);
    result := system + user;
    ghost var front := result;
    PlacedEnds(front, rest);
    for idx := 0 to |rest|
      invariant result == Placed(front, rest, idx)
    {
      PlaceNext(front, rest, idx);
      if idx % 2 == 0 {
        var at := |system| + |user| + idx / 2;
        result := result[..at] + [rest[idx]] + result[at..];
      } else {
        result := result + [rest[idx]];
      }
    }
  }

  lemma PlacedEnds(front: seq<Item>, rest: seq<Item>)
    ensures Placed(front, rest, 0) == front && Placed(front, rest, |rest|) == front + Evens(rest) + Odds(rest)
  {
    assert rest[..|rest|] == rest;
  }

  lemma InsertBetween(front: seq<Item>, x: Item, back: seq<Item>)
    ensures (front + back)[..|front|] + [x] + (front + back)[|front|..] == front + [x] + back
  {
  }

  lemma AppendBetween(front: seq<Item>, x: Item, back: seq<Item>)
    ensures front + (back + [x]) == front + back + [x]
  {
  }

  /** Where the next element of the rest goes. */
  lemma PlaceNext(front: seq<Item>, rest: seq<Item>, idx: nat)
    requires idx < |rest|
    ensures |front| + idx / 2 <= |Placed(front, rest, idx)|
    ensures var before, at := Placed(front, rest, idx), |front| + idx / 2;
      Placed(front, rest, idx + 1)
      == if idx % 2 == 0 then before[..at] + [rest[idx]] + before[at..] else before + [rest[idx]]
  {
    var evens, odds := Evens(rest[..idx]), Odds(rest[..idx]);
    EvensOddsStep(rest, idx);
    if idx % 2 == 0 {
      assert |front + evens| == |front| + idx / 2;
      InsertBetween(front + evens, rest[idx], odds);
      AppendBetween(front, rest[idx], evens);
    } else {
      AppendBetween(front + evens, rest[idx], odds);
    }
  }

  lemma RestByMembership(items: seq<Item>, system: seq<Item>, user: seq<Item>)
    requires system == Musts(items) && user == Users(items)
    ensures Filter(items, (i: Item) => i !in system && i !in user) == Filter(items, IsRest)
  {
    FilterMembers(items, IsSystem);
    FilterMembers(items, IsUser);
    FilterSame(items, (i: Item) => i !in system && i !in user, IsRest);
  }

  /** One more element goes to the evens or to the odds. */
  lemma EvensOddsStep<T>(s: seq<T>, n: nat)
    requires n < |s|
    ensures Evens(s[..n + 1]) == if n % 2 == 0 then Evens(s[..n]) + [s[n]] else Evens(s[..n])
    ensures Odds(s[..n + 1]) == if n % 2 == 0 then Odds(s[..n]) else Odds(s[..n]) + [s[n]]
  {
    assert s[..n + 1][..n] == s[..n];
  }

  lemma {:induction false} EvensOddsCount<T>(s: seq<T>, x: T)
    ensures Count(Evens(s), x) + Count(Odds(s), x) == Count(s, x)
  {
    if s != [] {
      var n := |s| - 1;
      EvensOddsCount(s[..n], x);
      CountSnoc(Evens(s[..n]), s[n], x);
      CountSnoc(Odds(s[..n]), s[n], x);
    }
  }

  lemma EvensOddsSplit(s: seq<Item>)
    ensures multiset(Evens(s)) + multiset(Odds(s)) == multiset(s)
  {
    forall x ensures Count(Evens(s), x) + Count(Odds(s), x) == Count(s, x) {
      EvensOddsCount(s, x);
    }
    CountsAdd(Evens(s), Odds(s), s);
  }

  /** Counting each class: an item that is both system and user is counted twice. */
  lemma ClassesCover(s: seq<Item>)
    ensures multiset(Musts(s)) + multiset(Users(s)) + multiset(Filter(s, IsRest))
      == multiset(s) + multiset(Filter(s, IsBoth))
  {
    forall x ensures (multiset(Musts(s)) + multiset(Users(s)) + multiset(Filter(s, IsRest)))[x]
                     == (multiset(s) + multiset(Filter(s, IsBoth)))[x]
    {
      FilterCount(s, IsSystem, x);
      FilterCount(s, IsUser, x);
      FilterCount(s, IsRest, x);
      FilterCount(s, IsBoth, x);
    }
  }

  lemma ClassSizes(s: seq<Item>)
    ensures |Musts(s)| + |Users(s)| + |Filter(s, IsRest)| == |s| + |Filter(s, IsBoth)|
  {
    ClassesCover(s);
    assert |multiset(Musts(s)) + multiset(Users(s)) + multiset(Filter(s, IsRest))|
        == |multiset(s) + multiset(Filter(s, IsBoth))|;
  }

  lemma JoinLaws(system: seq<Item>, user: seq<Item>, rest: seq<Item>)
    ensures var r := system + user + Evens(rest) + Odds(rest);
      && multiset(r) == multiset(system) + multiset(user) + multiset(rest)
      && |r| == |system| + |user| + |rest|
      && system <= r
  {
    EvensOddsSplit(rest);
  }

  /** Reordering adds one more copy of every item that is both system and user, and is otherwise a permutation. */
  lemma ReorderedLaws(items: seq<Item>)
    requires |items| > 2
    ensures multiset(Reordered(items)) == multiset(items) + multiset(Filter(items, IsBoth))
    ensures |Reordered(items)| == |items| + |Filter(items, IsBoth)|
    ensures Musts(items) <= Reordered(items)
  {
    var rest := Filter(items, IsRest);
    ClassesCover(items);
    ClassSizes(items);
    JoinLaws(Musts(items), Users(items), rest);
  }

  // ---------------------------------------------------------------- assembly

  datatype Bundle = Bundle(items: seq<Item>, tokens: nat, maxTokens: int, dropped: seq<Item>)

  datatype Report = Report(
    submitted: nat, afterDedup: nat, pruned: int, droppedByBudget: nat, retained: nat, tokensUsed: nat, maxTokens: int,
    utilization: real, lostInMiddleWarning: bool, trustDistribution: map<string, nat>,
    kindDistribution: map<string, nat>)

  const POSITIONAL_LIMIT := 8

  function Final(retained: seq<Item>): seq<Item> {
    if |retained| > POSITIONAL_LIMIT then Reordered(retained) else retained
  }

  function Fitted(raw: seq<Item>, maxTokens: int): Budget { Fit(SortDesc(Prune(Dedup(raw))), maxTokens) }

  function AssembledBundle(raw: seq<Item>, maxTokens: int): Bundle {
    var b := Fitted(raw, maxTokens);
    Bundle(Final(b.retained), b.tokens, maxTokens, b.dropped)
  }

  function Trusts(items: seq<Item>): seq<string> { seq(|items|, i requires 0 <= i < |items| => items[i].trust) }
  function Kinds(items: seq<Item>): seq<string> { seq(|items|, i requires 0 <= i < |items| => items[i].kind) }

  method TruncateToBudget(sorted: seq<Item>, maxTokens: int)
    returns (retained: seq<Item>, dropped: seq<Item>, tokens: nat)
    ensures Budget(retained, dropped, tokens) == Fit(sorted, maxTokens)
  {
    retained, dropped, tokens := [], [], 0;
    for i := 0 to |sorted|
      invariant Budget(retained, dropped, tokens) == Fit(sorted[..i], maxTokens)
    {
      assert sorted[..i + 1][..i] == sorted[..i];
      var itemTokens := EstimateTokens(sorted[i].content);
      if tokens + itemTokens > maxTokens {
        if sorted[i].priority >= SYSTEM_PRIORITY {
          retained := retained + [sorted[i]];
          tokens := tokens + itemTokens;
        } else {
          dropped := dropped + [sorted[i]];
        }
      } else {
        retained := retained + [sorted[i]];
        tokens := tokens + itemTokens;
      }
    }
    assert sorted[..|sorted|] == sorted;
  }

  lemma TrustsGrow(m: map<string, nat>, items: seq<Item>, i: nat)
    requires i < |items| && IsTally(m, Trusts(items[..i]))
    ensures IsTally(Bump(m, items[i].trust), Trusts(items[..i + 1]))
  {
    TallyGrows(m, Trusts(items[..i]), items[i].trust);
    assert Trusts(items[..i + 1]) == Trusts(items[..i]) + [items[i].trust];
  }

  lemma KindsGrow(m: map<string, nat>, items: seq<Item>, i: nat)
    requires i < |items| && IsTally(m, Kinds(items[..i]))
    ensures IsTally(Bump(m, items[i].kind), Kinds(items[..i + 1]))
  {
    TallyGrows(m, Kinds(items[..i]), items[i].kind);
    assert Kinds(items[..i + 1]) == Kinds(items[..i]) + [items[i].kind];
  }

  method Distributions(items: seq<Item>) returns (trusts: map<string, nat>, kinds: map<string, nat>)
    ensures IsTally(trusts, Trusts(items)) && IsTally(kinds, Kinds(items))
  {
    trusts, kinds := map[], map[];
    for i := 0 to |items|
      invariant IsTally(trusts, Trusts(items[..i])) && IsTally(kinds, Kinds(items[..i]))
    {
      TrustsGrow(trusts, items, i);
      KindsGrow(kinds, items, i);
      trusts := Bump(trusts, items[i].trust);
      kinds := Bump(kinds, items[i].kind);
    }
    assert items[..|items|] == items;
  }

  lemma OverNinetyPercent(tokens: nat, capacity: nat)
    requires capacity > 0
    ensures tokens as real / capacity as real > 0.9 <==> 10 * tokens > 9 * capacity
  {
    CrossMultiply(tokens as real, capacity as real, 9.0, 10.0);
  }

  /** `max(max_tokens, 1)`. */
  function Capacity(maxTokens: int): (c: nat)
    ensures c >= 1
  {
    if maxTokens > 1 then maxTokens else 1
  }

  /** More than nine tenths of the budget used, by enough items to be reordered. */
  predicate Warns(raw: seq<Item>, maxTokens: int) {
    var b := Fitted(raw, maxTokens);
    10 * b.tokens > 9 * Capacity(maxTokens) && |b.retained| > POSITIONAL_LIMIT
  }

  method Assemble(raw: seq<Item>, maxTokens: int) returns (bundle: Bundle, report: Report)
    ensures bundle == AssembledBundle(raw, maxTokens)
    ensures report.submitted == |raw| && report.afterDedup == |Dedup(raw)|
    ensures report.pruned == |Dedup(raw)| - |Prune(Dedup(raw))|
    ensures report.droppedByBudget == |bundle.dropped| && report.retained == |bundle.items|
    ensures report.tokensUsed == bundle.tokens && report.maxTokens == maxTokens
    ensures report.utilization == bundle.tokens as real / (if maxTokens > 1 then maxTokens else 1) as real
    ensures IsTally(report.trustDistribution, Trusts(bundle.items))
    ensures IsTally(report.kindDistribution, Kinds(bundle.items))
    ensures Total(report.trustDistribution) == report.retained == Total(report.kindDistribution)
    ensures report.lostInMiddleWarning <==> Warns(raw, maxTokens)
    ensures Warns(raw, maxTokens) <==> report.utilization > 0.9 && |Fitted(raw, maxTokens).retained| > 8
  {
    var deduped := Deduplicate(raw);
    var pruned, prunedCount := PruneItems(deduped);
    var sorted := SortDesc(pruned);
    var retained, dropped, tokens := TruncateToBudget(sorted, maxTokens);
    var lostInMiddle := |retained| > POSITIONAL_LIMIT;
    if lostInMiddle {
      retained := ReorderForPositionalBias(retained);
    }
    var trusts, kinds := Distributions(retained);
    TallySums(trusts, Trusts(retained));
    TallySums(kinds, Kinds(retained));
    var capacity := Capacity(maxTokens);
    var utilization := tokens as real / capacity as real;
    OverNinetyPercent(tokens, capacity);
    bundle := Bundle(retained, tokens, maxTokens, dropped);
    report := Report(|raw|, |deduped|, prunedCount, |dropped|, |retained|, tokens, maxTokens,
                     utilization, utilization > 0.9 && lostInMiddle, trusts, kinds);
  }

  // ---------------------------------------------------------------- guarantees

  /**
   * The budget guarantee: within the larger of the budget and what the first-seen system items need; if
   * they alone exceed the budget only they are kept; whatever was dropped would not have fitted beside
   * what was kept.
   */
  lemma BudgetGuarantee(raw: seq<Item>, maxTokens: int)
    ensures var b := Fitted(raw, maxTokens);
      var system := Musts(Dedup(raw));
      && AssembledBundle(raw, maxTokens).tokens == b.tokens == Tokens(b.retained)
      && Tokens(system) <= b.tokens <= (if Tokens(system) > maxTokens then Tokens(system) else maxTokens)
      && (Tokens(system) > maxTokens ==> multiset(b.retained) == multiset(system))
      && (forall i :: 0 <= i < |b.dropped| ==>
          !IsSystem(b.dropped[i]) && b.tokens + EstimateTokens(b.dropped[i].content) > maxTokens)
      && (forall n :: 0 <= n < |raw| && IsSystem(raw[n]) && !SeenBefore(raw, n) ==> raw[n] in b.retained)
  {
    var kept := Prune(Dedup(raw));
    SortLaws(kept);
    var sorted := SortDesc(kept);
    FitWithinBudget(sorted, maxTokens);
    FitLaws(sorted, maxTokens);
    MustsOfPruned(Dedup(raw));
    TokensOfPermutation(Musts(sorted), Musts(Dedup(raw)));
    var b := Fitted(raw, maxTokens);
    forall n | 0 <= n < |raw| && IsSystem(raw[n]) && !SeenBefore(raw, n) ensures raw[n] in b.retained {
      FirstOccurrenceKept(raw, n);
      PruneCap(Dedup(raw));
      assert raw[n] in multiset(kept);
      assert raw[n] in multiset(sorted);
      assert raw[n] in multiset(b.retained) + multiset(b.dropped);
    }
  }

  /** No retained item is both a system item and a user message. */
  predicate NoneIsBoth(retained: seq<Item>) { forall i :: 0 <= i < |retained| ==> !IsBoth(retained[i]) }

  lemma NoneIsBothFilter(retained: seq<Item>)
    ensures NoneIsBoth(retained) <==> Filter(retained, IsBoth) == []
  {
    FilterMembers(retained, IsBoth);
    if NoneIsBoth(retained) {
      FilterNone(retained, IsBoth);
    } else {
      var i :| 0 <= i < |retained| && IsBoth(retained[i]);
      assert retained[i] in Filter(retained, IsBoth);
    }
  }

  /** Final ordering loses and adds nothing exactly when it does not reorder or nothing is both. */
  lemma FinalLaws(retained: seq<Item>)
    ensures var exact := |retained| <= POSITIONAL_LIMIT || NoneIsBoth(retained);
      && (|Final(retained)| == |retained| <==> exact)
      && |Final(retained)| >= |retained|
      && (exact ==> multiset(Final(retained)) == multiset(retained))
      && (Tokens(Final(retained)) == Tokens(retained) <==> exact)
  {
    if |retained| > POSITIONAL_LIMIT {
      ReorderedLaws(retained);
      NoneIsBothFilter(retained);
      var both := Filter(retained, IsBoth);
      TokensOfPermutation(Reordered(retained), retained + both);
      TokensOfConcat(retained, both);
      TokensPositive(both);
      if both == [] {
        assert multiset(both) == multiset{};
      }
    }
  }

  /**
   * The report accounts for every item, in number and as a multiset, and the reported total is the
   * total of the bundle, exactly when no reordering took place or no item that is first of its content is
   * both a system item and a user message.
   */
  lemma Conservation(raw: seq<Item>, maxTokens: int)
    ensures var d := Dedup(raw);
      var b := Fitted(raw, maxTokens);
      var bundle := AssembledBundle(raw, maxTokens);
      var exact := |b.retained| <= POSITIONAL_LIMIT || NoneIsBoth(d);
      && (|d| == (|d| - |Prune(d)|) + |bundle.dropped| + |bundle.items| <==> exact)
      && (multiset(Prune(d)) == multiset(bundle.items) + multiset(bundle.dropped) <==> exact)
      && (Tokens(bundle.items) == bundle.tokens <==> exact)
      && multiset(Prune(d)) <= multiset(d) && multiset(d) <= multiset(raw)
  {
    var d := Dedup(raw);
    DedupSound(raw);
    PruneCap(d);
    SortLaws(Prune(d));
    FitLaws(SortDesc(Prune(d)), maxTokens);
    BothAreRetained(raw, maxTokens);
    FinalLaws(Fitted(raw, maxTokens).retained);
    var bundle := AssembledBundle(raw, maxTokens);
    assert |multiset(bundle.items) + multiset(bundle.dropped)| == |bundle.items| + |bundle.dropped|;
    assert |multiset(Prune(d))| == |Prune(d)|;
  }

  /** Items that are both are system items, and every first-seen system item is retained. */
  lemma BothAreRetained(raw: seq<Item>, maxTokens: int)
    ensures NoneIsBoth(Fitted(raw, maxTokens).retained) <==> NoneIsBoth(Dedup(raw))
  {
    var d, b := Dedup(raw), Fitted(raw, maxTokens);
    RetainedAreFirst(raw, maxTokens);
    if i :| 0 <= i < |d| && IsBoth(d[i]) {
      SystemIsRetained(raw, maxTokens, d[i]);
      var k :| 0 <= k < |b.retained| && b.retained[k] == d[i];
    }
    if k :| 0 <= k < |b.retained| && IsBoth(b.retained[k]) {
      assert b.retained[k] in d;
    }
  }

  lemma RetainedAreFirst(raw: seq<Item>, maxTokens: int)
    ensures forall x :: x in Fitted(raw, maxTokens).retained ==> x in Dedup(raw)
  {
    var d := Dedup(raw);
    PruneCap(d);
    SortLaws(Prune(d));
    FitPartitions(SortDesc(Prune(d)), maxTokens);
    MembersCarryThrough(Fitted(raw, maxTokens).retained, SortDesc(Prune(d)));
    MembersCarryThrough(SortDesc(Prune(d)), d);
  }

  lemma SystemIsRetained(raw: seq<Item>, maxTokens: int, x: Item)
    requires x in Dedup(raw) && IsSystem(x)
    ensures x in Fitted(raw, maxTokens).retained
  {
    var kept := Prune(Dedup(raw));
    PruneCap(Dedup(raw));
    SortLaws(kept);
    FitLaws(SortDesc(kept), maxTokens);
    MembersCarryThrough(kept, SortDesc(kept));
    var b := Fitted(raw, maxTokens);
    assert x in multiset(SortDesc(kept));
    assert x in multiset(b.retained) + multiset(b.dropped);
  }

  lemma {:induction false} TokensOfConcat(a: seq<Item>, b: seq<Item>)
    ensures Tokens(a + b) == Tokens(a) + Tokens(b)
  {
    if b == [] {
      assert a + b == a;
    } else {
      var n := |b| - 1;
      assert (a + b)[..|a| + n] == a + b[..n];
      TokensOfConcat(a, b[..n]);
    }
  }

  lemma TokensPositive(items: seq<Item>)
    ensures Tokens(items) == 0 <==> items == []
  {
  }

  lemma {:induction false} TokensOfRemoval(s: seq<Item>, k: nat)
    requires k < |s|
    ensures Tokens(s) == Tokens(s[..k] + s[k + 1..]) + EstimateTokens(s[k].content)
  {
    var n := |s| - 1;
    if k < n {
      TokensOfRemoval(s[..n], k);
      var t := s[..k] + s[k + 1..];
      assert t[..|t| - 1] == s[..n][..k] + s[..n][k + 1..];
    } else {
      assert s[..k] + s[k + 1..] == s[..n];
    }
  }

  lemma RemoveOne(s: seq<Item>, k: nat)
    requires k < |s|
    ensures multiset(s[..k] + s[k + 1..]) == multiset(s) - multiset{s[k]}
  {
    assert s == s[..k] + [s[k]] + s[k + 1..];
  }

  lemma {:induction false} TokensOfPermutation(a: seq<Item>, b: seq<Item>)
    requires multiset(a) == multiset(b)
    ensures Tokens(a) == Tokens(b)
    decreases |a|
  {
    if a == [] {
      assert |multiset(b)| == 0;
    } else {
      var n := |a| - 1;
      assert a[n] in multiset(b);
      var k :| 0 <= k < |b| && b[k] == a[n];
      RemoveOne(a, n);
      RemoveOne(b, k);
      assert a[..n] + a[n + 1..] == a[..n];
      TokensOfPermutation(a[..n], b[..k] + b[k + 1..]);
      TokensOfRemoval(b, k);
    }
  }

  /** Nine system items of different contents, the first of them a user message. */
  function NineWithOneBoth(): seq<Item> {
    seq(9, i requires 0 <= i < 9 =>
      var kind := if i == 0 then "user_message" else "system_instruction";
      Item("m", kind, [('a' as int + i) as char], 100, "system_trusted", 0))
  }

  lemma NineSurvive()
    ensures Dedup(NineWithOneBoth()) == NineWithOneBoth() && Prune(NineWithOneBoth()) == NineWithOneBoth()
  {
    var raw := NineWithOneBoth();
    forall n | 0 <= n < 9 ensures Strip(raw[n].content) == raw[n].content {
      assert !IsSpace(raw[n].content[0]);
    }
    forall k, n | 0 <= k < n < 9 ensures raw[k].content != raw[n].content {
      assert raw[k].content[0] != raw[n].content[0];
    }
    DedupOfDistinct(raw);
    FilterAll(raw, (i: Item) => !IsStale(i));
  }

  /** System items alone are all retained, in the order of the sort. */
  lemma SystemAloneRetained(raw: seq<Item>, maxTokens: int)
    requires Dedup(raw) == raw && Prune(raw) == raw && forall i :: 0 <= i < |raw| ==> IsSystem(raw[i])
    ensures Fitted(raw, maxTokens).retained == SortDesc(raw) && Fitted(raw, maxTokens).dropped == []
    ensures |SortDesc(raw)| == |raw| && forall x :: x in raw ==> x in SortDesc(raw)
  {
    SortLaws(raw);
    MembersCarryThrough(SortDesc(raw), raw);
    MembersCarryThrough(raw, SortDesc(raw));
    forall i | 0 <= i < |raw| ensures IsSystem(SortDesc(raw)[i]) { assert SortDesc(raw)[i] in SortDesc(raw); }
    AllSystemFits(SortDesc(raw), maxTokens);
    FitLaws(SortDesc(raw), maxTokens);
  }

  /** Conservation can fail: nine items go in, none is dropped, and more than nine come out. */
  lemma ConservationCanFail(maxTokens: int)
    ensures var bundle := AssembledBundle(NineWithOneBoth(), maxTokens);
      |Dedup(NineWithOneBoth())| == 9 && bundle.dropped == [] && |bundle.items| > 9
        && Tokens(bundle.items) != bundle.tokens
  {
    var raw := NineWithOneBoth();
    NineSurvive();
    SystemAloneRetained(raw, maxTokens);
    var b := Fitted(raw, maxTokens);
    assert raw[0] in b.retained && IsBoth(raw[0]);
    FitCounts(SortDesc(raw), maxTokens);
    FinalLaws(b.retained);
  }

  // ---------------------------------------------------------------- one system item

  lemma {:induction false} AtMostOneMust(items: seq<Item>, core: Item)
    requires forall i :: 0 <= i < |items| && IsSystem(items[i]) ==> items[i] == core
    requires forall i, k :: 0 <= i < k < |items| ==> items[i] != items[k]
    ensures |Musts(items)| <= 1
  {
    if items != [] {
      var n := |items| - 1;
      AtMostOneMust(items[..n], core);
      if IsSystem(items[n]) {
        forall i | 0 <= i < n ensures !IsSystem(items[..n][i]) {
          assert items[i] != items[n];
        }
        FilterNone(items[..n], IsSystem);
      }
    }
  }

  /** A descending list holding one system item starts with it, and so does its final ordering. */
  lemma LeaderLeads(retained: seq<Item>, core: Item)
    requires Descending(retained) && core in retained && IsSystem(core)
    requires forall x :: x in retained && IsSystem(x) ==> x == core
    ensures Final(retained) != [] && Final(retained)[0] == core
  {
    var k :| 0 <= k < |retained| && retained[k] == core;
    assert retained[0].priority >= core.priority;
    assert retained[0] in retained;
    if |retained| > POSITIONAL_LIMIT {
      ReorderedLaws(retained);
      FilterMembers(retained, IsSystem);
      assert core in Musts(retained);
      assert Musts(retained)[0] in Musts(retained);
    }
  }

  lemma MembersCarryThrough(a: seq<Item>, b: seq<Item>)
    requires multiset(a) <= multiset(b)
    ensures forall x :: x in a ==> x in b
  {
    forall x | x in a ensures x in b {
      assert x in multiset(a);
      assert x in multiset(b);
    }
  }

  /**
   * If exactly one kind of item is a system item, is not a user message and is the first with its
   * content, every bundle starts with it and holds at most twenty items.
   */
  lemma SoleSystemItemLeads(raw: seq<Item>, n: nat, maxTokens: int)
    requires n < |raw| && IsSystem(raw[n]) && !IsUser(raw[n]) && !SeenBefore(raw, n)
    requires forall i :: 0 <= i < |raw| && IsSystem(raw[i]) ==> raw[i] == raw[n]
    ensures var items := AssembledBundle(raw, maxTokens).items;
      0 < |items| <= MAX_ITEMS && items[0] == raw[n]
  {
    var d := Dedup(raw);
    var kept := Prune(d);
    var b := Fitted(raw, maxTokens);
    BudgetGuarantee(raw, maxTokens);
    DedupLaws(raw);
    MembersCarryThrough(d, raw);
    forall i | 0 <= i < |d| && IsSystem(d[i]) ensures d[i] == raw[n] { assert d[i] in d; }
    AtMostOneMust(d, raw[n]);
    PruneCap(d);
    SortLaws(kept);
    MembersCarryThrough(kept, d);
    MembersCarryThrough(SortDesc(kept), kept);
    FitKeepsOrder(SortDesc(kept), maxTokens);
    FitLaws(SortDesc(kept), maxTokens);
    forall x | x in b.retained && IsSystem(x) ensures x == raw[n] { assert x in raw; }
    LeaderLeads(b.retained, raw[n]);
    assert NoneIsBoth(b.retained) by {
      forall i | 0 <= i < |b.retained| ensures !IsBoth(b.retained[i]) { assert b.retained[i] in b.retained; }
    }
    FinalLaws(b.retained);
  }
}
