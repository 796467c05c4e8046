/** What a BM25 score rewards: rare tokens, frequent tokens and short chunks. */
module Relevance {
  import opened Arithmetic
  import opened Ranking
  import opened Chunker
  import opened Bm25

  /** As of a logarithm: larger arguments give larger values. */
  ghost predicate Increasing(m: Model) { forall x, y :: 0.0 < x < y ==> m.ln(x) < m.ln(y) }

  // ---------------------------------------------------------------- rarity

  /** The smoothed ratio in closed form. */
  lemma ArgumentIs(n: nat, holders: nat)
    requires holders <= n
    ensures IdfArgument(n, holders) == (n as real + 1.0) / (holders as real + 0.5) > 1.0
  {
    var d := holders as real + 0.5;
    var q := (n as real - holders as real + 0.5) / d;
    assert q * d == n as real - holders as real + 0.5;
    assert (q + 1.0) * d == q * d + d;
    CrossMultiply(n as real + 1.0, d, 1.0, 1.0);
  }

  /** The fewer chunks hold a token, the larger its argument. */
  lemma RarerIsLarger(n: nat, few: nat, many: nat)
    requires few <= n && many <= n
    ensures IdfArgument(n, few) > IdfArgument(n, many) <==> few < many
  {
    ArgumentIs(n, few);
    ArgumentIs(n, many);
    var top, a, b := n as real + 1.0, few as real + 0.5, many as real + 0.5;
    CrossMultiply(top, a, top, b);
    MultiplyKeepsOrder(top, b, a);
  }

  lemma MultiplyKeepsOrder(c: real, x: real, y: real)
    requires c > 0.0
    ensures c * x > c * y <==> x > y
  {
    SameSign(x - y, c);
    assert (x - y) * c == c * x - c * y;
  }

  /** Of two tokens the rarer weighs more, and equally rare ones weigh the same. */
  lemma RarerWeighsMore(m: Model, cs: seq<Chunk>, s: string, t: string)
    requires Increasing(m)
    ensures Idf(m, cs, s) > Idf(m, cs, t) <==> |Holders(m, cs, s)| < |Holders(m, cs, t)|
  {
    HoldersBounded(m, cs, s);
    HoldersBounded(m, cs, t);
    var x, y := IdfArgument(|cs|, |Holders(m, cs, s)|), IdfArgument(|cs|, |Holders(m, cs, t)|);
    RarerIsLarger(|cs|, |Holders(m, cs, s)|, |Holders(m, cs, t)|);
    RarerIsLarger(|cs|, |Holders(m, cs, t)|, |Holders(m, cs, s)|);
    ArgumentIs(|cs|, |Holders(m, cs, s)|);
    ArgumentIs(|cs|, |Holders(m, cs, t)|);
    assert x == y || m.ln(x) < m.ln(y) || m.ln(y) < m.ln(x);
  }

  // ---------------------------------------------------------------- frequency and length

  /** What length adds to the denominator. */
  function Penalty(m: Model, docLen: nat, avg: real): real { m.k1 * Damped(m.b, Div(docLen as real, avg)) }

  lemma PenaltyNonNegative(m: Model, docLen: nat, avg: real)
    requires m.k1 >= 0.0 && 0.0 <= m.b <= 1.0 && avg > 0.0
    ensures Penalty(m, docLen, avg) >= 0.0
  {
    var ratio := Div(docLen as real, avg);
    DivPositive(docLen as real, avg);
    MulNonNegative(m.b, ratio);
    MulNonNegative(m.k1, Damped(m.b, ratio));
  }

  /** The part of a gain that frequency and length decide. */
  function Saturation(m: Model, f: nat, p: real): real
    requires f as real + p > 0.0
  {
    (f as real * (m.k1 + 1.0)) / (f as real + p)
  }

  lemma SaturationPositive(m: Model, f: nat, p: real)
    requires m.k1 >= 0.0 && f > 0 && p >= 0.0
    ensures Saturation(m, f, p) > 0.0
  {
    MulPositive(f as real, m.k1 + 1.0);
    CrossMultiply(f as real * (m.k1 + 1.0), f as real + p, 0.0, 1.0);
  }

  lemma SummandIs(m: Model, f: nat, docLen: nat, avg: real, weight: real)
    requires m.k1 >= 0.0 && 0.0 <= m.b <= 1.0 && avg > 0.0 && f > 0
    ensures Penalty(m, docLen, avg) >= 0.0
    ensures Summand(m, f, docLen, avg, weight) == weight * Saturation(m, f, Penalty(m, docLen, avg))
  {
    PenaltyNonNegative(m, docLen, avg);
  }

  /** At average length the first occurrence of a token is worth exactly its weight. */
  lemma FirstOccurrenceIsWorthTheWeight(m: Model, docLen: nat, weight: real)
    requires m.k1 >= 0.0 && docLen > 0
    ensures Summand(m, 1, docLen, docLen as real, weight) == weight
  {
    assert Div(docLen as real, docLen as real) == 1.0;
    var d := 1.0 + m.k1;
    assert Damped(m.b, 1.0) == 1.0;
    assert Denominator(m, 1, docLen, docLen as real) == d;
    assert d / d == 1.0;
  }

  lemma {:induction false} LengthsAddUp(m: Model, cs: seq<Chunk>, ds: seq<Chunk>)
    ensures CorpusLength(m, cs + ds) == CorpusLength(m, cs) + CorpusLength(m, ds)
  {
    if ds == [] {
      assert cs + ds == cs;
    } else {
      var n := |ds| - 1;
      assert (cs + ds)[..|cs| + n] == cs + ds[..n];
      LengthsAddUp(m, cs, ds[..n]);
    }
  }

  /** The average is the total length over the number of chunks, and the total counts every chunk once. */
  lemma AverageIs(m: Model, cs: seq<Chunk>, c: Chunk, ds: seq<Chunk>)
    ensures CorpusLength(m, cs + [c] + ds) == CorpusLength(m, cs) + |m.tokenize(c.text)| + CorpusLength(m, ds)
    ensures cs != [] ==> AvgLength(m, cs) * |cs| as real == CorpusLength(m, cs) as real
  {
    LengthsAddUp(m, cs + [c], ds);
    LengthsAddUp(m, cs, [c]);
    assert [c][..0] == [];
  }

  lemma CrossDifference(c: real, f: real, g: real, p: real)
    ensures (g * c) * (f + p) - (f * c) * (g + p) == (c * (g - f)) * p
  {
  }

  lemma FractionGrows(c: real, f: real, g: real, p: real)
    requires c > 0.0 && 0.0 < f < g && p >= 0.0
    ensures (g * c) / (g + p) > (f * c) / (f + p) <==> p > 0.0
    ensures (g * c) / (g + p) >= (f * c) / (f + p)
  {
    CrossMultiply(g * c, g + p, f * c, f + p);
    CrossMultiply(f * c, f + p, g * c, g + p);
    CrossDifference(c, f, g, p);
    MulPositive(c, g - f);
    MultiplyKeepsOrder(c * (g - f), p, 0.0);
  }

  lemma SaturationGrows(m: Model, f: nat, g: nat, p: real)
    requires m.k1 >= 0.0 && 0 < f < g && p >= 0.0
    ensures Saturation(m, g, p) > Saturation(m, f, p) <==> p > 0.0
    ensures Saturation(m, g, p) >= Saturation(m, f, p)
  {
    FractionGrows(m.k1 + 1.0, f as real, g as real, p);
  }

  lemma SaturationShrinks(m: Model, f: nat, p: real, q: real)
    requires m.k1 >= 0.0 && f > 0 && 0.0 <= p <= q
    ensures Saturation(m, f, p) > Saturation(m, f, q) <==> p < q
    ensures Saturation(m, f, p) >= Saturation(m, f, q)
  {
    MulPositive(f as real, m.k1 + 1.0);
    LargerDivisor(f as real * (m.k1 + 1.0), f as real + p, f as real + q);
  }

  lemma LargerDivisor(top: real, a: real, b: real)
    requires top > 0.0 && 0.0 < a <= b
    ensures top / a > top / b <==> a < b
    ensures top / a >= top / b
  {
    CrossMultiply(top, a, top, b);
    CrossMultiply(top, b, top, a);
    MultiplyKeepsOrder(top, b, a);
    MultiplyKeepsOrder(top, a, b);
  }

  /** One more occurrence is worth more, exactly when length counts for something. */
  lemma FrequentIsWorthMore(m: Model, f: nat, g: nat, docLen: nat, avg: real, weight: real)
    requires m.k1 >= 0.0 && 0.0 <= m.b <= 1.0 && avg > 0.0 && weight > 0.0 && 0 < f < g
    ensures Summand(m, g, docLen, avg, weight) > Summand(m, f, docLen, avg, weight) <==> Penalty(m, docLen, avg) > 0.0
    ensures Summand(m, g, docLen, avg, weight) >= Summand(m, f, docLen, avg, weight)
  {
    var p := Penalty(m, docLen, avg);
    SummandIs(m, f, docLen, avg, weight);
    SummandIs(m, g, docLen, avg, weight);
    SaturationGrows(m, f, g, p);
    MultiplyKeepsOrder(weight, Saturation(m, g, p), Saturation(m, f, p));
    MultiplyKeepsOrder(weight, Saturation(m, f, p), Saturation(m, g, p));
  }

  /** The same frequency in a longer chunk is worth less, exactly when length is damped at all. */
  lemma LongerIsWorthLess(m: Model, f: nat, short: nat, long: nat, avg: real, weight: real)
    requires m.k1 >= 0.0 && 0.0 <= m.b <= 1.0 && avg > 0.0 && weight > 0.0 && f > 0 && short < long
    ensures Summand(m, f, short, avg, weight) > Summand(m, f, long, avg, weight) <==> m.k1 > 0.0 && m.b > 0.0
    ensures Summand(m, f, short, avg, weight) >= Summand(m, f, long, avg, weight)
  {
    var p, q := Penalty(m, short, avg), Penalty(m, long, avg);
    SummandIs(m, f, short, avg, weight);
    SummandIs(m, f, long, avg, weight);
    PenaltyGrows(m, short, long, avg);
    SaturationShrinks(m, f, p, q);
    MultiplyKeepsOrder(weight, Saturation(m, f, p), Saturation(m, f, q));
    MultiplyKeepsOrder(weight, Saturation(m, f, q), Saturation(m, f, p));
  }

  lemma ScaleOrder(k: real, x: real, y: real)
    requires k >= 0.0 && x <= y
    ensures k * x <= k * y && (k * x < k * y <==> k > 0.0 && x < y)
  {
    if k > 0.0 {
      MultiplyKeepsOrder(k, y, x);
      MultiplyKeepsOrder(k, x, y);
    }
  }

  lemma PenaltyGrows(m: Model, short: nat, long: nat, avg: real)
    requires m.k1 >= 0.0 && 0.0 <= m.b <= 1.0 && avg > 0.0 && short < long
    ensures Penalty(m, short, avg) < Penalty(m, long, avg) <==> m.k1 > 0.0 && m.b > 0.0
    ensures Penalty(m, short, avg) <= Penalty(m, long, avg)
  {
    var r, s := Div(short as real, avg), Div(long as real, avg);
    CrossMultiply(long as real, avg, short as real, avg);
    MultiplyKeepsOrder(avg, long as real, short as real);
    ScaleOrder(m.b, r, s);
    ScaleOrder(m.k1, Damped(m.b, r), Damped(m.b, s));
  }

  /** However often a token occurs, it is worth at most k1 + 1 times its weight. */
  lemma Saturates(m: Model, f: nat, docLen: nat, avg: real, weight: real)
    requires m.k1 >= 0.0 && 0.0 <= m.b <= 1.0 && avg > 0.0 && weight > 0.0 && f > 0
    ensures Summand(m, f, docLen, avg, weight) <= weight * (m.k1 + 1.0)
  {
    var p, c := Penalty(m, docLen, avg), m.k1 + 1.0;
    SummandIs(m, f, docLen, avg, weight);
    CrossMultiply(f as real * c, f as real + p, c, 1.0);
    MulNonNegative(c, p);
    assert c * (f as real + p) == f as real * c + c * p;
    MultiplyKeepsOrder(weight, Saturation(m, f, p), c);
  }

  // ---------------------------------------------------------------- scores

  /** A chunk that gains no less from any token of the query, and more from one, scores more. */
  lemma {:induction false} GainsAddUp(m: Model, cs: seq<Chunk>, c: Chunk, d: Chunk, query: seq<string>)
    requires forall q :: 0 <= q < |query| ==> Gain(m, cs, c, query[q]) >= Gain(m, cs, d, query[q])
    ensures Score(m, cs, c, query) >= Score(m, cs, d, query)
    ensures (exists q :: 0 <= q < |query| && Gain(m, cs, c, query[q]) > Gain(m, cs, d, query[q])) ==>
      Score(m, cs, c, query) > Score(m, cs, d, query)
  {
    if query != [] {
      var n := |query| - 1;
      assert forall q :: 0 <= q < n ==> query[..n][q] == query[q];
      GainsAddUp(m, cs, c, d, query[..n]);
      if q :| 0 <= q < n && Gain(m, cs, c, query[q]) > Gain(m, cs, d, query[q]) {
        assert Gain(m, cs, c, query[..n][q]) > Gain(m, cs, d, query[..n][q]);
      }
    }
  }

  /** Chunks of a corpus and what they hold of a token. */
  predicate HoldsMore(m: Model, c: Chunk, d: Chunk, t: string) { Tf(m, c, t) > Tf(m, d, t) }

  function Length(m: Model, c: Chunk): nat { |m.tokenize(c.text)| }

  lemma GainGrows(m: Model, cs: seq<Chunk>, i: nat, j: nat, t: string)
    requires Sound(m) && m.k1 > 0.0 && m.b < 1.0 && i < |cs| && j < |cs|
    requires Length(m, cs[i]) <= Length(m, cs[j]) && Tf(m, cs[i], t) >= Tf(m, cs[j], t)
    ensures Gain(m, cs, cs[i], t) >= Gain(m, cs, cs[j], t)
    ensures HoldsMore(m, cs[i], cs[j], t) ==> Gain(m, cs, cs[i], t) > Gain(m, cs, cs[j], t)
    ensures m.b > 0.0 && Length(m, cs[i]) < Length(m, cs[j]) && Tf(m, cs[j], t) > 0 ==>
      Gain(m, cs, cs[i], t) > Gain(m, cs, cs[j], t)
  {
    var f, g, avg, weight := Tf(m, cs[j], t), Tf(m, cs[i], t), AvgLength(m, cs), Idf(m, cs, t);
    GainPositive(m, cs, i, t);
    GainPositive(m, cs, j, t);
    if f > 0 {
      AveragePositive(m, cs, j, t);
      IdfPositive(m, cs, t);
      PenaltyPositive(m, Length(m, cs[i]), avg);
      if f < g {
        FrequentIsWorthMore(m, f, g, Length(m, cs[i]), avg, weight);
      }
      if Length(m, cs[i]) < Length(m, cs[j]) {
        LongerIsWorthLess(m, f, Length(m, cs[i]), Length(m, cs[j]), avg, weight);
      }
    }
  }

  lemma PenaltyPositive(m: Model, docLen: nat, avg: real)
    requires m.k1 > 0.0 && 0.0 <= m.b < 1.0 && avg > 0.0
    ensures Penalty(m, docLen, avg) > 0.0
  {
    var ratio := Div(docLen as real, avg);
    DivPositive(docLen as real, avg);
    MulNonNegative(m.b, ratio);
    MulPositive(m.k1, Damped(m.b, ratio));
  }

  /**
   * Of two chunks, the one that is no longer and holds every query token at least as often scores no less;
   * it scores more if it holds one of them more often, or is shorter and the other holds one at all.
   */
  lemma BetterChunkScoresMore(m: Model, cs: seq<Chunk>, i: nat, j: nat, query: seq<string>)
    requires Sound(m) && m.k1 > 0.0 && 0.0 < m.b < 1.0 && i < |cs| && j < |cs|
    requires Length(m, cs[i]) <= Length(m, cs[j])
    requires forall q :: 0 <= q < |query| ==> Tf(m, cs[i], query[q]) >= Tf(m, cs[j], query[q])
    ensures Score(m, cs, cs[i], query) >= Score(m, cs, cs[j], query)
    ensures (exists q :: 0 <= q < |query| && HoldsMore(m, cs[i], cs[j], query[q])) ==>
      Score(m, cs, cs[i], query) > Score(m, cs, cs[j], query)
    ensures Length(m, cs[i]) < Length(m, cs[j]) && Matches(m, cs[j], query) ==>
      Score(m, cs, cs[i], query) > Score(m, cs, cs[j], query)
  {
    forall q | 0 <= q < |query|
      ensures Gain(m, cs, cs[i], query[q]) >= Gain(m, cs, cs[j], query[q])
      ensures HoldsMore(m, cs[i], cs[j], query[q]) ==> Gain(m, cs, cs[i], query[q]) > Gain(m, cs, cs[j], query[q])
      ensures Length(m, cs[i]) < Length(m, cs[j]) && Tf(m, cs[j], query[q]) > 0 ==>
        Gain(m, cs, cs[i], query[q]) > Gain(m, cs, cs[j], query[q])
    {
      GainGrows(m, cs, i, j, query[q]);
    }
    GainsAddUp(m, cs, cs[i], cs[j], query);
  }

  /** Of two chunks of one length, each holding one of two tokens equally often, that with the rarer scores more. */
  lemma RarerTokenScoresMore(m: Model, cs: seq<Chunk>, i: nat, j: nat, rare: string, common: string)
    requires Sound(m) && Increasing(m) && i < |cs| && j < |cs| && Length(m, cs[i]) == Length(m, cs[j])
    requires Tf(m, cs[i], rare) == Tf(m, cs[j], common) > 0 && Tf(m, cs[i], common) == Tf(m, cs[j], rare) == 0
    requires |Holders(m, cs, rare)| < |Holders(m, cs, common)|
    ensures Score(m, cs, cs[i], [rare, common]) > Score(m, cs, cs[j], [rare, common])
    ensures Score(m, cs, cs[i], [common, rare]) > Score(m, cs, cs[j], [common, rare])
  {
    RarerGainsMore(m, cs, i, j, rare, common);
    TwoGains(m, cs, cs[i], rare, common);
    TwoGains(m, cs, cs[j], rare, common);
    TwoGains(m, cs, cs[i], common, rare);
    TwoGains(m, cs, cs[j], common, rare);
  }

  lemma TwoGains(m: Model, cs: seq<Chunk>, c: Chunk, s: string, t: string)
    ensures Score(m, cs, c, [s, t]) == Gain(m, cs, c, s) + Gain(m, cs, c, t)
  {
    assert [s, t][..1] == [s] && [s][..0] == [];
    assert Score(m, cs, c, [s]) == Score(m, cs, c, []) + Gain(m, cs, c, s);
  }

  lemma RarerGainsMore(m: Model, cs: seq<Chunk>, i: nat, j: nat, rare: string, common: string)
    requires Sound(m) && Increasing(m) && i < |cs| && j < |cs| && Length(m, cs[i]) == Length(m, cs[j])
    requires Tf(m, cs[i], rare) == Tf(m, cs[j], common) > 0
    requires |Holders(m, cs, rare)| < |Holders(m, cs, common)|
    ensures Gain(m, cs, cs[i], rare) > Gain(m, cs, cs[j], common)
  {
    var f, avg := Tf(m, cs[i], rare), AvgLength(m, cs);
    AveragePositive(m, cs, i, rare);
    RarerWeighsMore(m, cs, rare, common);
    SummandIs(m, f, Length(m, cs[i]), avg, Idf(m, cs, rare));
    SummandIs(m, f, Length(m, cs[j]), avg, Idf(m, cs, common));
    var p := Penalty(m, Length(m, cs[i]), avg);
    SaturationPositive(m, f, p);
    MultiplyKeepsOrder(Saturation(m, f, p), Idf(m, cs, rare), Idf(m, cs, common));
  }

  // ---------------------------------------------------------------- ranks

  lemma HitHasScore(m: Model, cs: seq<Chunk>, query: seq<string>, h: Scored, i: nat)
    requires DistinctChunks(cs) && IsScoredChunk(m, cs, query, h) && i < |cs| && h.id == cs[i].chunkId
    ensures h.score == Score(m, cs, cs[i], query) > 0.0
  {
    var k :| 0 <= k < |cs| && cs[k].chunkId == h.id && h.score == Score(m, cs, cs[k], query);
    assert k == i;
  }

  /** In the result of a search a chunk that scores more comes before one that scores less. */
  lemma HigherScoreComesFirst(m: Model, cs: seq<Chunk>, query: seq<string>, topK: nat, hits: seq<Scored>, i: nat,
                              j: nat, b: nat)
    returns (a: nat)
    requires DistinctChunks(cs) && AreBest(m, cs, query, topK, hits) && i < |cs| && j < |cs| && b < |hits|
    requires hits[b].id == cs[j].chunkId && Score(m, cs, cs[i], query) > Score(m, cs, cs[j], query)
    ensures a < b && hits[a].id == cs[i].chunkId
  {
    assert hits[b] in hits;
    HitHasScore(m, cs, query, hits[b], j);
    assert NotBeaten(m, cs, query, topK, hits, cs[i]);
    a :| 0 <= a < |hits| && hits[a].id == cs[i].chunkId;
    assert hits[a] in hits;
    HitHasScore(m, cs, query, hits[a], i);
  }
}
