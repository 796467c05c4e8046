/** The BM25 inverted index and its search, against scoring every chunk by brute force. */
module Bm25 {
  import opened Sequences
  import opened Ranking
  import opened Chunker
  import opened Tallies

  /** Parameters, and the two library functions the scores depend on. */
  datatype Model = Model(k1: real, b: real, tokenize: string -> seq<string>, ln: real -> real)

  ghost predicate Sound(m: Model) { m.k1 >= 0.0 && 0.0 <= m.b <= 1.0 && forall x :: x > 1.0 ==> m.ln(x) > 0.0 }

  // ---------------------------------------------------------------- brute force

  function Tf(m: Model, c: Chunk, t: string): nat { Count(m.tokenize(c.text), t) }

  function CorpusLength(m: Model, cs: seq<Chunk>): nat {
    if cs == [] then 0 else CorpusLength(m, cs[..|cs| - 1]) + |m.tokenize(cs[|cs| - 1].text)|
  }

  function Div(x: real, y: real): real { if y == 0.0 then 0.0 else x / y }

  function AvgLength(m: Model, cs: seq<Chunk>): real { Div(CorpusLength(m, cs) as real, |cs| as real) }

  function Holders(m: Model, cs: seq<Chunk>, t: string): set<string> {
    set i | 0 <= i < |cs| && Tf(m, cs[i], t) > 0 :: cs[i].chunkId
  }

  function IdfArgument(n: nat, holders: nat): real {
    Div(n as real - holders as real + 0.5, holders as real + 0.5) + 1.0
  }

  function Idf(m: Model, cs: seq<Chunk>, t: string): real { m.ln(IdfArgument(|cs|, |Holders(m, cs, t)|)) }

  /** A chunk's length against the average, damped by `b`. */
  function Damped(b: real, ratio: real): real { 1.0 - b + b * ratio }

  function Denominator(m: Model, tf: nat, docLen: nat, avg: real): real {
    tf as real + m.k1 * Damped(m.b, Div(docLen as real, avg))
  }

  function Summand(m: Model, tf: nat, docLen: nat, avg: real, weight: real): real {
    if tf == 0 then 0.0 else weight * Div(tf as real * (m.k1 + 1.0), Denominator(m, tf, docLen, avg))
  }

  /** What one query token is worth to a chunk. */
  function Gain(m: Model, cs: seq<Chunk>, c: Chunk, t: string): real {
    Summand(m, Tf(m, c, t), |m.tokenize(c.text)|, AvgLength(m, cs), Idf(m, cs, t))
  }

  /** The sum over all query tokens, repeated tokens included. */
  function Score(m: Model, cs: seq<Chunk>, c: Chunk, query: seq<string>): real {
    if query == [] then 0.0 else Score(m, cs, c, query[..|query| - 1]) + Gain(m, cs, c, query[|query| - 1])
  }

  predicate Matches(m: Model, c: Chunk, query: seq<string>) { exists q :: 0 <= q < |query| && Tf(m, c, query[q]) > 0 }

  ghost predicate DistinctChunks(cs: seq<Chunk>) { forall i, k :: 0 <= i < k < |cs| ==> cs[i].chunkId != cs[k].chunkId }

  // ---------------------------------------------------------------- facts about the brute force

  lemma {:induction false} LengthCovers(m: Model, cs: seq<Chunk>, i: nat)
    requires i < |cs|
    ensures |m.tokenize(cs[i].text)| <= CorpusLength(m, cs)
  {
    if i < |cs| - 1 {
      LengthCovers(m, cs[..|cs| - 1], i);
    }
  }

  lemma DivPositive(x: real, y: real)
    requires y > 0.0
    ensures x > 0.0 ==> Div(x, y) > 0.0
    ensures x >= 0.0 ==> Div(x, y) >= 0.0
  {
    var q := x / y;
    assert q * y == x;
    if q < 0.0 { assert q * y < 0.0; }
  }

  lemma MulNonNegative(x: real, y: real)
    requires x >= 0.0 && y >= 0.0
    ensures x * y >= 0.0
  {
  }

  lemma MulPositive(x: real, y: real)
    requires x > 0.0 && y > 0.0
    ensures x * y > 0.0
  {
  }

  lemma DenominatorCovers(m: Model, tf: nat, docLen: nat, avg: real)
    requires m.k1 >= 0.0 && 0.0 <= m.b <= 1.0 && avg > 0.0
    ensures Denominator(m, tf, docLen, avg) >= tf as real
  {
    var ratio := Div(docLen as real, avg);
    DivPositive(docLen as real, avg);
    MulNonNegative(m.b, ratio);
    MulNonNegative(m.k1, Damped(m.b, ratio));
  }

  lemma SummandPositive(m: Model, tf: nat, docLen: nat, avg: real, weight: real)
    requires m.k1 >= 0.0 && 0.0 <= m.b <= 1.0 && avg > 0.0 && tf > 0 && weight > 0.0
    ensures Summand(m, tf, docLen, avg, weight) > 0.0
  {
    var top := tf as real * (m.k1 + 1.0);
    DenominatorCovers(m, tf, docLen, avg);
    MulPositive(tf as real, m.k1 + 1.0);
    DivPositive(top, Denominator(m, tf, docLen, avg));
    MulPositive(weight, Div(top, Denominator(m, tf, docLen, avg)));
  }

  lemma AveragePositive(m: Model, cs: seq<Chunk>, i: nat, t: string)
    requires i < |cs| && Tf(m, cs[i], t) > 0
    ensures AvgLength(m, cs) > 0.0
  {
    CountMembers(m.tokenize(cs[i].text), t);
    LengthCovers(m, cs, i);
    DivPositive(CorpusLength(m, cs) as real, |cs| as real);
  }

  /** A chunk holding a token: nothing is divided by zero. */
  lemma NoDivisionByZero(m: Model, cs: seq<Chunk>, i: nat, t: string)
    requires Sound(m) && i < |cs| && Tf(m, cs[i], t) > 0
    ensures AvgLength(m, cs) > 0.0
    ensures Denominator(m, Tf(m, cs[i], t), |m.tokenize(cs[i].text)|, AvgLength(m, cs)) >= Tf(m, cs[i], t) as real > 0.0
  {
    AveragePositive(m, cs, i, t);
    DenominatorCovers(m, Tf(m, cs[i], t), |m.tokenize(cs[i].text)|, AvgLength(m, cs));
  }

  lemma {:induction false} HoldersBounded(m: Model, cs: seq<Chunk>, t: string)
    ensures |Holders(m, cs, t)| <= |cs|
  {
    if cs == [] {
      assert Holders(m, cs, t) == {};
    } else {
      var n := |cs| - 1;
      HoldersBounded(m, cs[..n], t);
      HoldersStep(m, cs, t);
    }
  }

  /** Every indexed token has a positive weight. */
  lemma IdfPositive(m: Model, cs: seq<Chunk>, t: string)
    requires Sound(m)
    ensures Idf(m, cs, t) > 0.0
  {
    HoldersBounded(m, cs, t);
    var h := |Holders(m, cs, t)|;
    DivPositive(|cs| as real - h as real + 0.5, h as real + 0.5);
  }

  lemma GainPositive(m: Model, cs: seq<Chunk>, i: nat, t: string)
    requires Sound(m) && i < |cs|
    ensures Gain(m, cs, cs[i], t) >= 0.0
    ensures Gain(m, cs, cs[i], t) > 0.0 <==> Tf(m, cs[i], t) > 0
  {
    if Tf(m, cs[i], t) > 0 {
      AveragePositive(m, cs, i, t);
      IdfPositive(m, cs, t);
      SummandPositive(m, Tf(m, cs[i], t), |m.tokenize(cs[i].text)|, AvgLength(m, cs), Idf(m, cs, t));
    }
  }

  /** A chunk scores above zero exactly when it holds a query token. */
  lemma {:induction false} ScorePositive(m: Model, cs: seq<Chunk>, i: nat, query: seq<string>)
    requires Sound(m) && i < |cs|
    ensures Score(m, cs, cs[i], query) >= 0.0
    ensures Score(m, cs, cs[i], query) > 0.0 <==> Matches(m, cs[i], query)
  {
    if query != [] {
      var n := |query| - 1;
      ScorePositive(m, cs, i, query[..n]);
      GainPositive(m, cs, i, query[n]);
      if Matches(m, cs[i], query[..n]) {
        var q :| 0 <= q < n && Tf(m, cs[i], query[..n][q]) > 0;
        assert Tf(m, cs[i], query[q]) > 0;
      }
      if Matches(m, cs[i], query) && Tf(m, cs[i], query[n]) == 0 {
        var q :| 0 <= q < |query| && Tf(m, cs[i], query[q]) > 0;
        assert Tf(m, cs[i], query[..n][q]) > 0;
      }
    }
  }

  /** `{c.chunk_id: c for c in chunks}`. */
  function ById(cs: seq<Chunk>): map<string, Chunk> {
    if cs == [] then map[] else ById(cs[..|cs| - 1])[cs[|cs| - 1].chunkId := cs[|cs| - 1]]
  }

  lemma {:induction false} ByIdFinds(cs: seq<Chunk>)
    requires DistinctChunks(cs)
    ensures forall i :: 0 <= i < |cs| ==> cs[i].chunkId in ById(cs) && ById(cs)[cs[i].chunkId] == cs[i]
  {
    if cs != [] {
      var n := |cs| - 1;
      ByIdFinds(cs[..n]);
      forall i | 0 <= i < n ensures cs[i].chunkId in ById(cs) && ById(cs)[cs[i].chunkId] == cs[i] {
        assert cs[..n][i] == cs[i] && cs[i].chunkId != cs[n].chunkId;
      }
    }
  }

  // ---------------------------------------------------------------- what the index must hold

  /** The chunk/token pairs seen. */
  function Postings(m: Model, cs: seq<Chunk>): set<(string, string)> {
    if cs == [] then {}
    else Postings(m, cs[..|cs| - 1]) + TokenPostings(cs[|cs| - 1].chunkId, m.tokenize(cs[|cs| - 1].text))
  }

  function TokenPostings(id: string, tokens: seq<string>): set<(string, string)> { set t | t in tokens :: (id, t) }

  ghost predicate IsInverted(inverted: map<string, set<string>>, postings: set<(string, string)>) {
    && (forall p :: p in postings ==> p.1 in inverted && p.0 in inverted[p.1])
    && (forall t :: t in inverted ==> inverted[t] != {} && forall id :: id in inverted[t] ==> (id, t) in postings)
  }

  lemma {:induction false} PostingsAreHoldings(m: Model, cs: seq<Chunk>, id: string, t: string)
    ensures (id, t) in Postings(m, cs) <==> id in Holders(m, cs, t)
  {
    if cs != [] {
      var n := |cs| - 1;
      PostingsAreHoldings(m, cs[..n], id, t);
      CountMembers(m.tokenize(cs[n].text), t);
      HoldersStep(m, cs, t);
    }
  }

  function WithPosting(inverted: map<string, set<string>>, id: string, t: string): map<string, set<string>> {
    inverted[t := (if t in inverted then inverted[t] else {}) + {id}]
  }

  lemma PostingsGrow(id: string, before: seq<string>, token: string, seen: set<(string, string)>)
    ensures seen + TokenPostings(id, before + [token]) == seen + TokenPostings(id, before) + {(id, token)}
  {
  }

  lemma PostingsOfNext(m: Model, cs: seq<Chunk>, i: nat, seen: set<(string, string)>)
    requires i < |cs|
    ensures seen + Postings(m, cs[..i + 1])
         == seen + Postings(m, cs[..i]) + TokenPostings(cs[i].chunkId, m.tokenize(cs[i].text))
  {
    assert cs[..i + 1][..i] == cs[..i];
  }

  lemma PostingStep(inverted: map<string, set<string>>, seen: set<(string, string)>, id: string, t: string)
    requires IsInverted(inverted, seen)
    ensures IsInverted(WithPosting(inverted, id, t), seen + {(id, t)})
  {
  }

  lemma EntryIsHolders(m: Model, inverted: map<string, set<string>>, cs: seq<Chunk>, t: string)
    requires IsInverted(inverted, Postings(m, cs)) && t in inverted
    ensures inverted[t] == Holders(m, cs, t)
  {
    forall id ensures id in inverted[t] <==> id in Holders(m, cs, t) {
      PostingsAreHoldings(m, cs, id, t);
    }
  }

  lemma HeldIsIndexed(m: Model, inverted: map<string, set<string>>, cs: seq<Chunk>, t: string)
    requires IsInverted(inverted, Postings(m, cs))
    ensures Holders(m, cs, t) != {} ==> t in inverted
  {
    if Holders(m, cs, t) != {} {
      Inhabited(Holders(m, cs, t));
      var id :| id in Holders(m, cs, t);
      PostingsAreHoldings(m, cs, id, t);
      assert (id, t) in Postings(m, cs);
    }
  }

  ghost predicate IsLast(cs: seq<Chunk>, i: nat)
    requires i < |cs|
  {
    forall k :: i < k < |cs| ==> cs[k].chunkId != cs[i].chunkId
  }

  ghost predicate IsMeasuredAt(m: Model, tf: map<string, Tally>, lengths: map<string, nat>, c: Chunk) {
    && c.chunkId in tf && IsTally(tf[c.chunkId], m.tokenize(c.text))
    && c.chunkId in lengths && lengths[c.chunkId] == |m.tokenize(c.text)|
  }

  /** Frequencies and lengths are those of the last chunk of each id. */
  ghost predicate IsMeasured(m: Model, tf: map<string, Tally>, lengths: map<string, nat>, cs: seq<Chunk>) {
    forall i :: 0 <= i < |cs| && IsLast(cs, i) ==> IsMeasuredAt(m, tf, lengths, cs[i])
  }

  lemma MeasureStep(m: Model, tf: map<string, Tally>, lengths: map<string, nat>,
                    tf': map<string, Tally>, lengths': map<string, nat>, cs: seq<Chunk>, i: nat)
    requires i < |cs| && IsMeasured(m, tf, lengths, cs[..i])
    requires forall k :: k in tf && k != cs[i].chunkId ==> k in tf' && tf'[k] == tf[k]
    requires forall k :: k in lengths && k != cs[i].chunkId ==> k in lengths' && lengths'[k] == lengths[k]
    requires IsMeasuredAt(m, tf', lengths', cs[i])
    ensures IsMeasured(m, tf', lengths', cs[..i + 1])
  {
    forall k | 0 <= k < i && IsLast(cs[..i + 1], k) ensures IsMeasuredAt(m, tf', lengths', cs[k]) {
      assert cs[..i + 1][i].chunkId != cs[k].chunkId;
      assert IsLast(cs[..i], k) by {
        assert forall j :: k < j < i ==> cs[..i][j] == cs[..i + 1][j];
      }
      assert cs[..i][k] == cs[k];
    }
  }

  /** The chunk/token pairs an index holds. */
  ghost function Pairs(inverted: map<string, set<string>>): set<(string, string)> {
    set t, id | t in inverted && id in inverted[t] :: (id, t)
  }

  /** An index is that of exactly one set of postings: the pairs it holds. */
  lemma InvertedIsPairs(inverted: map<string, set<string>>, seen: set<(string, string)>)
    requires IsInverted(inverted, seen)
    ensures seen == Pairs(inverted)
  {
    assert forall p :: p in seen ==> p == (p.0, p.1);
  }

  /** The weights of every indexed token, over `n` chunks. */
  ghost predicate AreWeights(m: Model, idf: map<string, real>, inverted: map<string, set<string>>, n: nat) {
    idf.Keys == inverted.Keys && forall t :: t in idf ==> idf[t] == m.ln(IdfArgument(n, |inverted[t]|))
  }

  // ---------------------------------------------------------------- the retriever

  class BM25Retriever {
    const m: Model
    var chunks: map<string, Chunk>
    var invertedIndex: map<string, set<string>>
    var chunkTf: map<string, Tally>
    var chunkLengths: map<string, nat>
    var avgdl: real
    var idf: map<string, real>

    constructor (m: Model)
      ensures this.m == m && Valid() && Pairs(invertedIndex) == {}
    {
      this.m := m;
      chunks := map[];
      invertedIndex := map[];
      chunkTf := map[];
      chunkLengths := map[];
      avgdl := 0.0;
      idf := map[];
    }

    ghost predicate Valid()
      reads this
    {
      idf.Keys == invertedIndex.Keys && forall t :: t in invertedIndex ==> invertedIndex[t] != {}
    }

    /** After `fit` of an object that held `seen`: old postings stay, and everything else is that of the corpus. */
    ghost predicate Refitted(cs: seq<Chunk>, seen: set<(string, string)>)
      reads this
    {
      && IsInverted(invertedIndex, seen + Postings(m, cs)) && IsMeasured(m, chunkTf, chunkLengths, cs)
      && avgdl == AvgLength(m, cs) && AreWeights(m, idf, invertedIndex, |cs|) && chunks == ById(cs)
    }

    /** The index holds exactly the first chunks. */
    ghost predicate Indexed(cs: seq<Chunk>)
      reads this
    {
      IsInverted(invertedIndex, Postings(m, cs)) && IsMeasured(m, chunkTf, chunkLengths, cs)
    }

    /** After `fit`: postings, weights, lengths and average are those of the corpus. */
    ghost predicate Fitted(cs: seq<Chunk>)
      reads this
    {
      && DistinctChunks(cs) && Indexed(cs)
      && avgdl == AvgLength(m, cs)
      && (forall t :: t in idf <==> t in invertedIndex)
      && (forall t :: t in idf ==> idf[t] == Idf(m, cs, t))
      && chunks == ById(cs)
    }

    /** The index is that of the corpus exactly when every pair held before the fit is one of the corpus. */
    lemma StalePostingsExactly(cs: seq<Chunk>, seen: set<(string, string)>)
      requires Refitted(cs, seen) && DistinctChunks(cs)
      ensures Fitted(cs) <==> seen <= Postings(m, cs)
    {
      InvertedIsPairs(invertedIndex, seen + Postings(m, cs));
      if Fitted(cs) {
        InvertedIsPairs(invertedIndex, Postings(m, cs));
      }
      if seen <= Postings(m, cs) {
        assert seen + Postings(m, cs) == Postings(m, cs);
        forall t | t in idf ensures idf[t] == Idf(m, cs, t) {
          EntryIsHolders(m, invertedIndex, cs, t);
        }
      }
    }

    /** The inverted index holds, for each token, exactly the chunks it occurs in. */
    lemma InvertedAgreesWithScan(cs: seq<Chunk>, t: string)
      requires Fitted(cs)
      ensures t in invertedIndex <==> exists i :: 0 <= i < |cs| && Tf(m, cs[i], t) > 0
      ensures t in invertedIndex ==> invertedIndex[t] == Holders(m, cs, t)
    {
      NoHolders(m, cs, t);
      HeldIsIndexed(m, invertedIndex, cs, t);
      if t in invertedIndex {
        EntryIsHolders(m, invertedIndex, cs, t);
      }
    }

    method AddPosting(id: string, token: string, ghost seen: set<(string, string)>)
      requires IsInverted(invertedIndex, seen)
      modifies this`invertedIndex
      ensures IsInverted(invertedIndex, seen + {(id, token)}) && old(invertedIndex).Keys <= invertedIndex.Keys
    {
      PostingStep(invertedIndex, seen, id, token);
      if token !in invertedIndex {
        invertedIndex := invertedIndex[token := {}];
      }
      invertedIndex := invertedIndex[token := invertedIndex[token] + {id}];
      assert invertedIndex == WithPosting(old(invertedIndex), id, token);
    }

    method IndexTokens(id: string, tokens: seq<string>, ghost seen: set<(string, string)>)
      requires IsInverted(invertedIndex, seen)
      modifies this`invertedIndex, this`chunkTf
      ensures IsInverted(invertedIndex, seen + TokenPostings(id, tokens))
      ensures old(invertedIndex).Keys <= invertedIndex.Keys
      ensures id in chunkTf && IsTally(chunkTf[id], tokens)
      ensures forall k :: k in old(chunkTf) && k != id ==> k in chunkTf && chunkTf[k] == old(chunkTf)[k]
    {
      chunkTf := chunkTf[id := map[]];
      for j := 0 to |tokens|
        invariant id in chunkTf && IsTally(chunkTf[id], tokens[..j])
        invariant IsInverted(invertedIndex, seen + TokenPostings(id, tokens[..j]))
        invariant old(invertedIndex).Keys <= invertedIndex.Keys
        invariant forall k :: k in old(chunkTf) && k != id ==> k in chunkTf && chunkTf[k] == old(chunkTf)[k]
      {
        IndexToken(id, tokens[j], tokens[..j], seen);
        assert tokens[..j + 1] == tokens[..j] + [tokens[j]];
      }
      assert tokens[..|tokens|] == tokens;
    }

    method IndexToken(id: string, token: string, ghost before: seq<string>, ghost seen: set<(string, string)>)
      requires id in chunkTf && IsTally(chunkTf[id], before)
      requires IsInverted(invertedIndex, seen + TokenPostings(id, before))
      modifies this`invertedIndex, this`chunkTf
      ensures chunkTf.Keys == old(chunkTf).Keys && forall k :: k in chunkTf && k != id ==> chunkTf[k] == old(chunkTf)[k]
      ensures id in chunkTf && IsTally(chunkTf[id], before + [token])
      ensures IsInverted(invertedIndex, seen + TokenPostings(id, before + [token]))
      ensures old(invertedIndex).Keys <= invertedIndex.Keys
    {
      TallyGrows(chunkTf[id], before, token);
      chunkTf := chunkTf[id := Bump(chunkTf[id], token)];
      PostingsGrow(id, before, token, seen);
      AddPosting(id, token, seen + TokenPostings(id, before));
    }

    method Fit(cs: seq<Chunk>)
      requires Valid()
      modifies this
      ensures Valid() && Refitted(cs, old(Pairs(invertedIndex)))
      ensures old(Pairs(invertedIndex)) == {} && DistinctChunks(cs) ==> Fitted(cs)
    {
      ghost var seen := Pairs(invertedIndex);
      chunks := ById(cs);
      var total := IndexChunks(cs, seen);
      avgdl := if |cs| > 0 then total as real / |cs| as real else 0.0;
      ComputeIdf(|cs|);
      if DistinctChunks(cs) {
        StalePostingsExactly(cs, seen);
      }
    }

    method IndexChunks(cs: seq<Chunk>, ghost seen: set<(string, string)>) returns (total: nat)
      requires IsInverted(invertedIndex, seen)
      modifies this`invertedIndex, this`chunkTf, this`chunkLengths
      ensures IsInverted(invertedIndex, seen + Postings(m, cs)) && IsMeasured(m, chunkTf, chunkLengths, cs)
      ensures total == CorpusLength(m, cs) && old(invertedIndex).Keys <= invertedIndex.Keys
    {
      total := 0;
      assert seen + Postings(m, cs[..0]) == seen;
      for i := 0 to |cs|
        invariant IsInverted(invertedIndex, seen + Postings(m, cs[..i]))
        invariant IsMeasured(m, chunkTf, chunkLengths, cs[..i])
        invariant total == CorpusLength(m, cs[..i]) && old(invertedIndex).Keys <= invertedIndex.Keys
      {
        ghost var tf, lengths := chunkTf, chunkLengths;
        assert cs[..i + 1][..i] == cs[..i];
        var length := IndexChunk(cs[i], seen + Postings(m, cs[..i]));
        total := total + length;
        PostingsOfNext(m, cs, i, seen);
        MeasureStep(m, tf, lengths, chunkTf, chunkLengths, cs, i);
      }
      assert cs[..|cs|] == cs;
    }

    method IndexChunk(c: Chunk, ghost seen: set<(string, string)>) returns (length: nat)
      requires IsInverted(invertedIndex, seen)
      modifies this`invertedIndex, this`chunkTf, this`chunkLengths
      ensures length == |m.tokenize(c.text)|
      ensures IsInverted(invertedIndex, seen + TokenPostings(c.chunkId, m.tokenize(c.text)))
      ensures IsMeasuredAt(m, chunkTf, chunkLengths, c) && old(invertedIndex).Keys <= invertedIndex.Keys
      ensures forall k :: k in old(chunkTf) && k != c.chunkId ==> k in chunkTf && chunkTf[k] == old(chunkTf)[k]
      ensures chunkLengths == old(chunkLengths)[c.chunkId := length]
    {
      var tokens := m.tokenize(c.text);
      length := |tokens|;
      chunkLengths := chunkLengths[c.chunkId := length];
      IndexTokens(c.chunkId, tokens, seen);
    }

    method Weigh(numDocs: nat, containing: nat) returns (weight: real)
      ensures weight == m.ln(IdfArgument(numDocs, containing))
    {
      weight := m.ln((numDocs as real - containing as real + 0.5) / (containing as real + 0.5) + 1.0);
    }

    method ComputeIdf(numDocs: nat)
      requires idf.Keys <= invertedIndex.Keys
      modifies this`idf
      ensures AreWeights(m, idf, invertedIndex, numDocs)
    {
      var todo := invertedIndex.Keys;
      while todo != {}
        invariant todo <= invertedIndex.Keys && invertedIndex.Keys - todo <= idf.Keys <= invertedIndex.Keys
        invariant forall t :: t in invertedIndex.Keys - todo ==>
          idf[t] == m.ln(IdfArgument(numDocs, |invertedIndex[t]|))
        decreases |todo|
      {
        Inhabited(todo);
        var token :| token in todo;
        var weight := Weigh(numDocs, |invertedIndex[token]|);
        todo := todo - {token};
        idf := idf[token := weight];
      }
    }

    /** What the index says of one chunk and one token it holds. */
    lemma ReadIndex(cs: seq<Chunk>, i: nat, token: string)
      requires Fitted(cs) && i < |cs| && Tf(m, cs[i], token) > 0
      ensures cs[i].chunkId in chunkTf && cs[i].chunkId in chunkLengths
      ensures token in chunkTf[cs[i].chunkId] && chunkTf[cs[i].chunkId][token] == Tf(m, cs[i], token)
      ensures chunkLengths[cs[i].chunkId] == |m.tokenize(cs[i].text)|
      ensures token in idf && idf[token] == Idf(m, cs, token)
    {
      CountMembers(m.tokenize(cs[i].text), token);
      InvertedAgreesWithScan(cs, token);
    }

    /** The index can price every one of these chunks for a token it holds, and never divides by zero. */
    ghost predicate Prices(token: string, gains: map<string, real>)
      reads this
    {
      token in idf && forall id {:trigger Priced(id, token, gains[id])} :: id in gains ==> Priced(id, token, gains[id])
    }

    ghost predicate Priced(id: string, token: string, gain: real)
      reads this
    {
      && token in idf && id in chunkTf && id in chunkLengths && token in chunkTf[id]
      && chunkTf[id][token] > 0 && avgdl > 0.0 && Denominator(m, chunkTf[id][token], chunkLengths[id], avgdl) > 0.0
      && gain == Summand(m, chunkTf[id][token], chunkLengths[id], avgdl, idf[token])
    }

    /** What the index computes for a chunk is the gain of the definition. */
    lemma PricedAt(cs: seq<Chunk>, i: nat, token: string)
      requires Sound(m) && Fitted(cs) && i < |cs| && Tf(m, cs[i], token) > 0
      ensures Priced(cs[i].chunkId, token, Gain(m, cs, cs[i], token))
    {
      NoDivisionByZero(m, cs, i, token);
      ReadIndex(cs, i, token);
    }

    lemma IndexPrices(cs: seq<Chunk>, token: string) returns (gains: map<string, real>)
      requires Sound(m) && Fitted(cs) && token in idf
      ensures gains == GainMap(m, cs, token, |cs|) && AreGains(m, cs, token, gains) && Prices(token, gains)
    {
      gains := GainMap(m, cs, token, |cs|);
      GainMapIsGains(m, cs, token);
      forall id | id in gains ensures Priced(id, token, gains[id]) {
        var i := HolderIndex(m, cs, token, id);
        PricedAt(cs, i, token);
      }
    }

    method Price(id: string, token: string, ghost gains: map<string, real>) returns (worth: real)
      requires Prices(token, gains) && id in gains
      ensures worth == gains[id]
    {
      assert Priced(id, token, gains[id]);
      var tf := if token in chunkTf[id] then chunkTf[id][token] else 0;
      var docLen := chunkLengths[id];
      var numerator := tf as real * (m.k1 + 1.0);
      var ratio := docLen as real / avgdl;
      var denominator := tf as real + m.k1 * (1.0 - m.b + m.b * ratio);
      worth := idf[token] * (numerator / denominator);
    }

    /** Add one query token's gains to the chunks that hold it. */
    method AddToken(scores: map<string, real>, token: string, ghost cs: seq<Chunk>) returns (out: map<string, real>)
      requires Sound(m) && Fitted(cs)
      ensures out == Plus(scores, GainMap(m, cs, token, |cs|))
    {
      InvertedAgreesWithScan(cs, token);
      GainMapIsGains(m, cs, token);
      if token !in idf {
        NoHolders(m, cs, token);
        PlusNoGains(scores, GainMap(m, cs, token, |cs|));
        return scores;
      }
      ghost var gains := IndexPrices(cs, token);
      out := AddGains(scores, token, invertedIndex[token], gains);
    }

    method AddGains(scores: map<string, real>, token: string, targets: set<string>, ghost gains: map<string, real>)
      returns (out: map<string, real>)
      requires Prices(token, gains) && targets == gains.Keys
      ensures out == Plus(scores, gains)
    {
      out := scores;
      var todo := targets;
      SumOfNone(scores, gains);
      while todo != {}
        invariant todo <= targets
        invariant IsSumWithout(out, scores, gains, todo)
        decreases |todo|
      {
        Inhabited(todo);
        var id :| id in todo;
        var worth := Price(id, token, gains);
        SumStep(out, scores, gains, todo, id);
        out := out[id := At(out, id) + worth];
        todo := todo - {id};
      }
      SumOfAll(out, scores, gains);
    }

    /** Score through the index, rank, keep the best, and look each one up. */
    method Search(query: string, topK: nat, ghost cs: seq<Chunk>) returns (hits: seq<Hit>)
      requires Sound(m) && Fitted(cs)
      ensures AreBest(m, cs, m.tokenize(query), topK, Scores(hits))
      ensures AreRanked(cs, hits)
    {
      var tokens := m.tokenize(query);
      if tokens == [] || chunks == map[] {
        NothingToFind(m, cs, tokens, topK);
        return [];
      }
      var scores := ScoreAll(tokens, cs);
      var items := Items(scores);
      var ranked := Sort(items);
      var best := if topK < |ranked| then ranked[..topK] else ranked;
      BestOfSorted(m, cs, tokens, scores, items, topK);
      BestAreStored(m, cs, tokens, topK, best);
      hits := LookUp(best, cs);
    }

    method ScoreAll(tokens: seq<string>, ghost cs: seq<Chunk>) returns (scores: map<string, real>)
      requires Sound(m) && Fitted(cs)
      ensures ScoresFor(m, cs, tokens, scores)
    {
      scores := map[];
      for q := 0 to |tokens|
        invariant ScoresFor(m, cs, tokens[..q], scores)
      {
        assert tokens[..q + 1][..q] == tokens[..q];
        ghost var before := scores;
        GainMapIsGains(m, cs, tokens[q]);
        scores := AddToken(scores, tokens[q], cs);
        TokenStep(m, cs, before, GainMap(m, cs, tokens[q], |cs|), tokens[..q + 1]);
      }
      assert tokens[..|tokens|] == tokens;
    }

    /** No best id is missing from the stored chunks. */
    method LookUp(best: seq<Scored>, ghost cs: seq<Chunk>) returns (hits: seq<Hit>)
      requires DistinctChunks(cs) && chunks == ById(cs) && forall k :: 0 <= k < |best| ==> IsChunk(cs, best[k].id)
      ensures Scores(hits) == best && AreRanked(cs, hits)
    {
      hits := [];
      ByIdFinds(cs);
      for k := 0 to |best|
        invariant Scores(hits) == best[..k] && AreRanked(cs, hits)
      {
        hits := hits + [Hit(chunks[best[k].id], best[k].score, k + 1)];
      }
      assert best[..|best|] == best;
    }
  }

  // ---------------------------------------------------------------- hits

  datatype Hit = Hit(chunk: Chunk, score: real, rank: nat)

  ghost function Scores(hits: seq<Hit>): (s: seq<Scored>)
    ensures |s| == |hits|
  {
    seq(|hits|, k requires 0 <= k < |hits| => Scored(hits[k].chunk.chunkId, hits[k].score))
  }

  /** Every hit is a chunk of the corpus, numbered from one. */
  ghost predicate AreRanked(cs: seq<Chunk>, hits: seq<Hit>) {
    forall k :: 0 <= k < |hits| ==> hits[k].rank == k + 1 && hits[k].chunk in cs
  }

  // ---------------------------------------------------------------- scores as a dictionary

  /** The dictionary after the query so far: the matching chunks, each with its brute-force score. */
  ghost predicate ScoresFor(m: Model, cs: seq<Chunk>, query: seq<string>, scores: map<string, real>) {
    && (forall i :: 0 <= i < |cs| ==> (cs[i].chunkId in scores <==> Matches(m, cs[i], query)))
    && (forall i :: 0 <= i < |cs| && cs[i].chunkId in scores ==> scores[cs[i].chunkId] == Score(m, cs, cs[i], query))
    && (forall id :: id in scores ==> IsChunk(cs, id))
  }

  ghost predicate IsChunk(cs: seq<Chunk>, id: string) { exists i :: 0 <= i < |cs| && cs[i].chunkId == id }

  function At(scores: map<string, real>, id: string): real { if id in scores then scores[id] else 0.0 }

  /** The sum of two dictionaries, a missing entry counting as zero. */
  function Plus(scores: map<string, real>, gains: map<string, real>): map<string, real> {
    map id | id in scores.Keys + gains.Keys :: At(scores, id) + At(gains, id)
  }

  lemma PlusNoGains(scores: map<string, real>, gains: map<string, real>)
    requires gains.Keys == {}
    ensures Plus(scores, gains) == scores
  {
  }

  /** The sum while the gains of `todo` are still to be added. */
  ghost predicate IsSumWithout(out: map<string, real>, scores: map<string, real>, gains: map<string, real>,
                               todo: set<string>)
  {
    out.Keys == scores.Keys + (gains.Keys - todo)
    && forall id :: id in out ==> out[id] == At(scores, id) + if id in todo then 0.0 else At(gains, id)
  }

  lemma SumOfNone(scores: map<string, real>, gains: map<string, real>)
    ensures IsSumWithout(scores, scores, gains, gains.Keys)
  {
  }

  lemma SumOfAll(out: map<string, real>, scores: map<string, real>, gains: map<string, real>)
    requires IsSumWithout(out, scores, gains, {})
    ensures out == Plus(scores, gains)
  {
  }

  lemma SumStep(out: map<string, real>, scores: map<string, real>, gains: map<string, real>, todo: set<string>,
                id: string)
    requires id in todo && id in gains && IsSumWithout(out, scores, gains, todo)
    ensures IsSumWithout(out[id := At(out, id) + gains[id]], scores, gains, todo - {id})
  {
  }

  /** The gains of a token: one entry for each chunk that holds it. */
  ghost predicate AreGains(m: Model, cs: seq<Chunk>, t: string, gains: map<string, real>) {
    && gains.Keys == Holders(m, cs, t)
    && forall i :: 0 <= i < |cs| && Tf(m, cs[i], t) > 0 ==>
        cs[i].chunkId in gains && gains[cs[i].chunkId] == Gain(m, cs, cs[i], t)
  }

  ghost function GainMap(m: Model, cs: seq<Chunk>, t: string, n: nat): map<string, real>
    requires n <= |cs|
  {
    if n == 0 then map[]
    else if Tf(m, cs[n - 1], t) > 0 then GainMap(m, cs, t, n - 1)[cs[n - 1].chunkId := Gain(m, cs, cs[n - 1], t)]
    else GainMap(m, cs, t, n - 1)
  }

  lemma {:induction false} GainMapKeys(m: Model, cs: seq<Chunk>, t: string, n: nat)
    requires n <= |cs|
    ensures GainMap(m, cs, t, n).Keys == Holders(m, cs[..n], t)
  {
    if n > 0 {
      GainMapKeys(m, cs, t, n - 1);
      HoldersStep(m, cs[..n], t);
      assert cs[..n][..n - 1] == cs[..n - 1];
    }
  }

  lemma {:induction false} GainMapAt(m: Model, cs: seq<Chunk>, t: string, n: nat, i: nat)
    requires DistinctChunks(cs) && i < n <= |cs| && Tf(m, cs[i], t) > 0
    ensures cs[i].chunkId in GainMap(m, cs, t, n) && GainMap(m, cs, t, n)[cs[i].chunkId] == Gain(m, cs, cs[i], t)
  {
    if i < n - 1 {
      GainMapAt(m, cs, t, n - 1, i);
      assert cs[i].chunkId != cs[n - 1].chunkId;
    }
  }

  lemma GainMapIsGains(m: Model, cs: seq<Chunk>, t: string)
    requires DistinctChunks(cs)
    ensures AreGains(m, cs, t, GainMap(m, cs, t, |cs|))
  {
    assert cs[..|cs|] == cs;
    GainMapKeys(m, cs, t, |cs|);
    forall i | 0 <= i < |cs| && Tf(m, cs[i], t) > 0
      ensures cs[i].chunkId in GainMap(m, cs, t, |cs|)
      ensures GainMap(m, cs, t, |cs|)[cs[i].chunkId] == Gain(m, cs, cs[i], t)
    {
      GainMapAt(m, cs, t, |cs|, i);
    }
  }

  lemma HoldersStep(m: Model, cs: seq<Chunk>, t: string)
    requires cs != []
    ensures var n := |cs| - 1; var before := Holders(m, cs[..n], t);
      Holders(m, cs, t) == if Tf(m, cs[n], t) > 0 then before + {cs[n].chunkId} else before
  {
    var n := |cs| - 1;
    assert forall i :: 0 <= i < n ==> cs[..n][i] == cs[i];
  }

  lemma HolderIndex(m: Model, cs: seq<Chunk>, t: string, id: string) returns (i: nat)
    requires id in Holders(m, cs, t)
    ensures i < |cs| && cs[i].chunkId == id && Tf(m, cs[i], t) > 0
  {
    i :| 0 <= i < |cs| && Tf(m, cs[i], t) > 0 && cs[i].chunkId == id;
  }

  lemma NoHolders(m: Model, cs: seq<Chunk>, t: string)
    ensures Holders(m, cs, t) != {} <==> exists i :: 0 <= i < |cs| && Tf(m, cs[i], t) > 0
  {
    if i :| 0 <= i < |cs| && Tf(m, cs[i], t) > 0 {
      assert cs[i].chunkId in Holders(m, cs, t);
    }
  }

  lemma ScoreAt(m: Model, cs: seq<Chunk>, scores: map<string, real>, query: seq<string>, i: nat)
    requires ScoresFor(m, cs, query, scores) && i < |cs|
    ensures At(scores, cs[i].chunkId) == Score(m, cs, cs[i], query)
  {
    if cs[i].chunkId !in scores {
      UnmatchedIsZero(m, cs, cs[i], query);
    }
  }

  lemma GainAt(m: Model, cs: seq<Chunk>, gains: map<string, real>, t: string, i: nat)
    requires DistinctChunks(cs) && AreGains(m, cs, t, gains) && i < |cs|
    ensures cs[i].chunkId in gains <==> Tf(m, cs[i], t) > 0
    ensures At(gains, cs[i].chunkId) == Gain(m, cs, cs[i], t)
  {
    HoldsIffCounts(m, cs, i, t);
  }

  lemma TokenStepAt(m: Model, cs: seq<Chunk>, scores: map<string, real>, gains: map<string, real>,
                    query: seq<string>, i: nat)
    requires DistinctChunks(cs) && query != [] && i < |cs|
    requires ScoresFor(m, cs, query[..|query| - 1], scores) && AreGains(m, cs, query[|query| - 1], gains)
    ensures cs[i].chunkId in Plus(scores, gains) <==> Matches(m, cs[i], query)
    ensures cs[i].chunkId in Plus(scores, gains) ==> Plus(scores, gains)[cs[i].chunkId] == Score(m, cs, cs[i], query)
  {
    var n := |query| - 1;
    MatchesStep(m, cs[i], query);
    ScoreAt(m, cs, scores, query[..n], i);
    GainAt(m, cs, gains, query[n], i);
  }

  lemma TokenStep(m: Model, cs: seq<Chunk>, scores: map<string, real>, gains: map<string, real>, query: seq<string>)
    requires DistinctChunks(cs) && query != []
    requires ScoresFor(m, cs, query[..|query| - 1], scores) && AreGains(m, cs, query[|query| - 1], gains)
    ensures ScoresFor(m, cs, query, Plus(scores, gains))
  {
    forall i | 0 <= i < |cs|
      ensures cs[i].chunkId in Plus(scores, gains) <==> Matches(m, cs[i], query)
      ensures cs[i].chunkId in Plus(scores, gains) ==> Plus(scores, gains)[cs[i].chunkId] == Score(m, cs, cs[i], query)
    {
      TokenStepAt(m, cs, scores, gains, query, i);
    }
    forall id | id in Plus(scores, gains) ensures IsChunk(cs, id) {
      if id !in scores {
        var i := HolderIndex(m, cs, query[|query| - 1], id);
      }
    }
  }

  lemma HoldsIffCounts(m: Model, cs: seq<Chunk>, i: nat, t: string)
    requires DistinctChunks(cs) && i < |cs|
    ensures cs[i].chunkId in Holders(m, cs, t) <==> Tf(m, cs[i], t) > 0
  {
  }

  lemma MatchesStep(m: Model, c: Chunk, query: seq<string>)
    requires query != []
    ensures Matches(m, c, query) <==> Matches(m, c, query[..|query| - 1]) || Tf(m, c, query[|query| - 1]) > 0
  {
    var n := |query| - 1;
    assert forall q :: 0 <= q < n ==> query[..n][q] == query[q];
  }

  lemma {:induction false} UnmatchedIsZero(m: Model, cs: seq<Chunk>, c: Chunk, query: seq<string>)
    requires !Matches(m, c, query)
    ensures Score(m, cs, c, query) == 0.0
  {
    if query != [] {
      MatchesStep(m, c, query);
      UnmatchedIsZero(m, cs, c, query[..|query| - 1]);
    }
  }

  // ---------------------------------------------------------------- the best hits

  /**
   * The hits are chunks of the corpus, each with its brute-force score, above zero, best first; and a
   * chunk left out scores no more than any of them, or zero if there was room.
   */
  ghost predicate AreBest(m: Model, cs: seq<Chunk>, query: seq<string>, topK: nat, hits: seq<Scored>) {
    && |hits| <= topK && Ranking.Descending(hits) && Ranking.DistinctIds(hits)
    && (forall h :: h in hits ==> IsScoredChunk(m, cs, query, h))
    && (forall i :: 0 <= i < |cs| ==> NotBeaten(m, cs, query, topK, hits, cs[i]))
  }

  ghost predicate NotBeaten(m: Model, cs: seq<Chunk>, query: seq<string>, topK: nat, hits: seq<Scored>, c: Chunk) {
    || Listed(hits, c.chunkId)
    || Score(m, cs, c, query) <= 0.0
    || (|hits| == topK && forall h :: h in hits ==> Score(m, cs, c, query) <= h.score)
  }

  ghost predicate IsScoredChunk(m: Model, cs: seq<Chunk>, query: seq<string>, h: Scored) {
    h.score > 0.0 && exists i :: 0 <= i < |cs| && cs[i].chunkId == h.id && h.score == Score(m, cs, cs[i], query)
  }

  ghost predicate Listed(hits: seq<Scored>, id: string) { exists k :: 0 <= k < |hits| && hits[k].id == id }

  /** The entries of a dictionary, in some order. */
  ghost predicate AreItems(items: seq<Scored>, scores: map<string, real>) {
    && Ranking.DistinctIds(items)
    && (forall x :: x in items ==> x.id in scores && x.score == scores[x.id])
    && (forall id :: id in scores ==> Scored(id, scores[id]) in items)
  }

  method Items(scores: map<string, real>) returns (items: seq<Scored>)
    ensures AreItems(items, scores)
  {
    items := [];
    var todo := scores.Keys;
    while todo != {}
      invariant todo <= scores.Keys
      invariant Ranking.DistinctIds(items)
      invariant forall x :: x in items ==> x.id in scores && x.id !in todo && x.score == scores[x.id]
      invariant forall id :: id in scores && id !in todo ==> Scored(id, scores[id]) in items
      decreases |todo|
    {
      Inhabited(todo);
      var id :| id in todo;
      todo := todo - {id};
      items := items + [Scored(id, scores[id])];
    }
  }

  /** With no query token, or no chunk, there is nothing to find. */
  lemma NothingToFind(m: Model, cs: seq<Chunk>, query: seq<string>, topK: nat)
    requires DistinctChunks(cs) && (query == [] || ById(cs) == map[])
    ensures AreBest(m, cs, query, topK, [])
  {
    ByIdFinds(cs);
    forall i | 0 <= i < |cs| ensures Score(m, cs, cs[i], query) <= 0.0 {
      assert cs[i].chunkId in ById(cs);
    }
  }

  lemma BestAreStored(m: Model, cs: seq<Chunk>, query: seq<string>, topK: nat, best: seq<Scored>)
    requires AreBest(m, cs, query, topK, best)
    ensures forall k :: 0 <= k < |best| ==> IsChunk(cs, best[k].id)
  {
    forall k | 0 <= k < |best| ensures IsChunk(cs, best[k].id) {
      assert IsScoredChunk(m, cs, query, best[k]);
    }
  }

  lemma ItemIsScoredChunk(m: Model, cs: seq<Chunk>, query: seq<string>, scores: map<string, real>, id: string)
    requires Sound(m) && ScoresFor(m, cs, query, scores) && id in scores
    ensures IsScoredChunk(m, cs, query, Scored(id, scores[id]))
  {
    assert IsChunk(cs, id);
    var i :| 0 <= i < |cs| && cs[i].chunkId == id;
    ScorePositive(m, cs, i, query);
  }

  /** A matching chunk is somewhere in the full ranking. */
  lemma MatchIsRanked(m: Model, cs: seq<Chunk>, query: seq<string>, scores: map<string, real>, items: seq<Scored>,
                      i: nat)
    returns (k: nat)
    requires Sound(m) && ScoresFor(m, cs, query, scores) && AreItems(items, scores) && i < |cs|
    requires Score(m, cs, cs[i], query) > 0.0
    ensures k < |Sort(items)| && Sort(items)[k] == Scored(cs[i].chunkId, Score(m, cs, cs[i], query))
  {
    ScorePositive(m, cs, i, query);
    var x := Scored(cs[i].chunkId, scores[cs[i].chunkId]);
    SortLaws(items);
    SameMembers(Sort(items), items);
    assert x in items && x in Sort(items);
    k :| 0 <= k < |Sort(items)| && Sort(items)[k] == x;
  }

  lemma BestOfSorted(m: Model, cs: seq<Chunk>, query: seq<string>, scores: map<string, real>, items: seq<Scored>,
                     topK: nat)
    requires Sound(m) && ScoresFor(m, cs, query, scores) && AreItems(items, scores)
    ensures var ranked := Sort(items);
      AreBest(m, cs, query, topK, if topK < |ranked| then ranked[..topK] else ranked)
  {
    var ranked := Sort(items);
    var hits := if topK < |ranked| then ranked[..topK] else ranked;
    TopIsOrdered(items, hits);
    TopAreScored(m, cs, query, scores, items, hits);
    forall i | 0 <= i < |cs| ensures NotBeaten(m, cs, query, topK, hits, cs[i]) {
      NotBeatenAt(m, cs, query, scores, items, topK, i);
    }
  }

  lemma TopIsOrdered(items: seq<Scored>, hits: seq<Scored>)
    requires Ranking.DistinctIds(items) && hits <= Sort(items)
    ensures Ranking.Descending(hits) && Ranking.DistinctIds(hits)
  {
    SortLaws(items);
    SortKeepsDistinct(items);
    assert forall k :: 0 <= k < |hits| ==> hits[k] == Sort(items)[k];
  }

  lemma TopAreScored(m: Model, cs: seq<Chunk>, query: seq<string>, scores: map<string, real>, items: seq<Scored>,
                     hits: seq<Scored>)
    requires Sound(m) && ScoresFor(m, cs, query, scores) && AreItems(items, scores) && hits <= Sort(items)
    ensures forall h :: h in hits ==> IsScoredChunk(m, cs, query, h)
  {
    SortLaws(items);
    SameMembers(Sort(items), items);
    forall h | h in hits ensures IsScoredChunk(m, cs, query, h) {
      assert h in Sort(items);
      ItemIsScoredChunk(m, cs, query, scores, h.id);
    }
  }

  lemma NotBeatenAt(m: Model, cs: seq<Chunk>, query: seq<string>, scores: map<string, real>, items: seq<Scored>,
                    topK: nat, i: nat)
    requires Sound(m) && ScoresFor(m, cs, query, scores) && AreItems(items, scores) && i < |cs|
    ensures var ranked := Sort(items);
      NotBeaten(m, cs, query, topK, if topK < |ranked| then ranked[..topK] else ranked, cs[i])
  {
    var ranked := Sort(items);
    var hits := if topK < |ranked| then ranked[..topK] else ranked;
    if Score(m, cs, cs[i], query) > 0.0 && !Listed(hits, cs[i].chunkId) {
      var k := MatchIsRanked(m, cs, query, scores, items, i);
      SortLaws(items);
      RankedAfter(ranked, hits, k);
    }
  }

  /** What is cut off is no better than what is kept. */
  lemma RankedAfter(ranked: seq<Scored>, hits: seq<Scored>, k: nat)
    requires Ranking.Descending(ranked) && hits <= ranked && k < |ranked| && !Listed(hits, ranked[k].id)
    ensures |hits| <= k && forall h :: h in hits ==> ranked[k].score <= h.score
  {
    assert forall j :: 0 <= j < |hits| ==> hits[j] == ranked[j];
  }
}
