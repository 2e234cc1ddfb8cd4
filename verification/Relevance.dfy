/** Text scores told by counting: how many documents hold a term, how often, and how long they are (src/fts.rs). */
module Relevance {
  import opened Schemas
  import opened Sums
  import opened Sorting
  import opened Fts

  ghost function DocsWith(docs: seq<seq<string>>, term: string): set<nat> {
    set o: nat | o < |docs| && term in docs[o]
  }

  ghost function OccurrencesIn(doc: seq<string>, term: string): set<nat> {
    set i: nat | i < |doc| && doc[i] == term
  }

  lemma {:induction false} CountOccurrences(doc: seq<string>, term: string)
    ensures |Positions(doc, term)| == |OccurrencesIn(doc, term)|
    decreases |doc|
  {
    if doc != [] {
      var n := |doc| - 1;
      CountOccurrences(doc[..n], term);
      assert OccurrencesIn(doc, term) == OccurrencesIn(doc[..n], term) + if doc[n] == term then {n} else {};
    }
  }

  lemma {:induction false} CountDocs(docs: seq<seq<string>>, term: string)
    ensures |Postings(docs, term)| == |DocsWith(docs, term)|
    decreases |docs|
  {
    if docs != [] {
      var n := |docs| - 1;
      CountDocs(docs[..n], term);
      assert DocsWith(docs, term) == DocsWith(docs[..n], term) + if term in docs[n] then {n} else {};
    }
  }

  lemma {:induction false} CountTokens(docs: seq<seq<string>>, lengths: seq<nat>)
    requires |lengths| == |docs| && forall o | 0 <= o < |docs| :: lengths[o] == |docs[o]|
    ensures Total(lengths) == |Flatten(docs)|
    decreases |docs|
  {
    if docs != [] {
      var n := |docs| - 1;
      CountTokens(docs[..n], lengths[..n]);
      FlattenOne(docs[..n], docs[n]);
      assert docs == docs[..n] + [docs[n]];
    }
  }

  /** How many documents there are, at least one; and a document's length beside the average, one if no document
      has a token. */
  ghost function Corpus(docs: seq<seq<string>>): real { if docs == [] then 1.0 else |docs| as real }

  ghost function RelativeLength(docs: seq<seq<string>>, doc: seq<string>): real {
    if Flatten(docs) == [] then 1.0 else |doc| as real / (|Flatten(docs)| as real / Corpus(docs))
  }

  lemma RelativeIsNorm(x: Index, docs: seq<seq<string>>, config: FtsConfig, doc: seq<string>)
    requires Indexes(x, docs, config)
    ensures x.avgdl >= 0.0 && Norm(x, |doc|, 1.0) == RelativeLength(docs, doc)
  {
    CountTokens(docs, x.lengths);
    if docs == [] {
      assert Flatten(docs) == [];
    } else if Flatten(docs) == [] {
      assert x.avgdl == 0.0;
    } else {
      PositiveQuotient(|Flatten(docs)| as real, |docs| as real);
    }
  }

  /** What saturates a term's count: k1 by the length. */
  ghost function Damping(s: Scale, docs: seq<seq<string>>, doc: seq<string>): real {
    s.k1 * (1.0 - s.b + s.b * RelativeLength(docs, doc))
  }

  /** The formula of BM25, without its division: `w` is the weight of a term that `df` of `n` documents hold and
      that occurs `tf` times in a text of relative length `norm`. */
  ghost predicate Bm25(s: Scale, n: real, df: real, tf: real, norm: real, w: real)
    requires df >= 0.0
  {
    w * (tf + s.k1 * (1.0 - s.b + s.b * norm)) == s.ln(1.0 + (n - df + 0.5) / (df + 0.5)) * (tf * (s.k1 + 1.0))
  }

  lemma QuotientTimes(x: real, y: real)
    requires y > 0.0
    ensures x / y * y == x
  {
  }

  /** The score of any text for one term, from the documents alone: zero without the term; otherwise its count,
      saturated by k1 and the text's length, times the logarithm of how rare the term is. */
  lemma OneTermScore(s: Scale, x: Index, docs: seq<seq<string>>, config: FtsConfig, doc: seq<string>, term: string)
    requires Sound(s) && Indexes(x, docs, config)
    ensures x.avgdl >= 0.0
    ensures term !in doc ==> ScoreTokens(s, x, doc, [term]) == 0.0
    ensures term in doc ==> Bm25(s, Corpus(docs), |DocsWith(docs, term)| as real, |OccurrencesIn(doc, term)| as real,
        RelativeLength(docs, doc), ScoreTokens(s, x, doc, [term]))
  {
    RelativeIsNorm(x, docs, config, doc);
    CountOccurrences(doc, term);
    CountDocs(docs, term);
    OccurrenceCounts(doc, term);
    OneTermIs(s, x, doc, term);
    FrequencyIs(x, docs, config, term);
    hide ScoreTokens, Indexes, Bm25, TermScore;
    if term in doc {
      TermIs(s, x, doc, term);
    }
  }

  lemma TermIs(s: Scale, x: Index, doc: seq<string>, term: string)
    requires Sound(s) && x.avgdl >= 0.0 && |Positions(doc, term)| > 0
    ensures var n, df := Larger(|x.lengths|, 1) as real, Frequency(x, term) as real;
      var tf, norm := |Positions(doc, term)| as real, Norm(x, |doc|, 1.0);
      Bm25(s, n, df, tf, norm, TermScore(s, x, doc, term))
  {
    hide Frequency, Norm, Positions, Larger, Bm25;
    var tf, df := |Positions(doc, term)| as real, Frequency(x, term) as real;
    var n, norm := Larger(|x.lengths|, 1) as real, Norm(x, |doc|, 1.0);
    WeightIs(s, n, df, tf, norm);
  }

  lemma WeightIs(s: Scale, n: real, df: real, tf: real, norm: real)
    requires Sound(s) && df >= 0.0 && tf > 0.0 && norm >= 0.0
    ensures Bm25(s, n, df, tf, norm, Weight(s, n, df, tf, norm))
  {
    Saturation(s, tf, norm);
    QuotientTimes(Idf(s, n, df) * (tf * (s.k1 + 1.0)), tf + s.k1 * (1.0 - s.b + s.b * norm));
  }

  lemma OneTermIs(s: Scale, x: Index, doc: seq<string>, term: string)
    requires Sound(s) && x.avgdl >= 0.0
    ensures ScoreTokens(s, x, doc, [term]) == if doc == [] then 0.0 else TermScore(s, x, doc, term)
  {
    hide TermScore;
    var one := [term];
    assert one[1..] == [] && Unique(one) == one + Unique([]) == one;
    assert one[..0] == [] && SumTerms(s, x, doc, []) == 0.0;
    assert SumTerms(s, x, doc, one) == SumTerms(s, x, doc, one[..0]) + TermScore(s, x, doc, one[0]);
  }

  lemma FrequencyIs(x: Index, docs: seq<seq<string>>, config: FtsConfig, term: string)
    requires Indexes(x, docs, config)
    ensures Frequency(x, term) == |Postings(docs, term)|
  {
    CountDocs(docs, term);
    if term !in x.terms {
      assert DocsWith(docs, term) == {};
    }
  }

  ghost function OwnScore(s: Scale, x: Index, doc: seq<string>): string -> real
    requires Sound(s) && x.avgdl >= 0.0
  {
    t => ScoreTokens(s, x, doc, [t])
  }

  lemma {:induction false} SumOfTerms(s: Scale, x: Index, doc: seq<string>, terms: seq<string>)
    requires Sound(s) && x.avgdl >= 0.0 && doc != []
    requires forall i, j | 0 <= i < j < |terms| :: terms[i] != terms[j]
    ensures SumTerms(s, x, doc, terms) == SumOver(Members(terms), OwnScore(s, x, doc))
    decreases |terms|
  {
    hide TermScore, ScoreTokens;
    var all := Members(terms);
    if terms == [] {
      assert all == {};
    } else {
      var n := |terms| - 1;
      SumOfTerms(s, x, doc, terms[..n]);
      assert all == Members(terms[..n]) + {terms[n]};
      SumAdd(Members(terms[..n]), OwnScore(s, x, doc), terms[n]);
      OneTermIs(s, x, doc, terms[n]);
    }
  }

  /** A query scores the sum of its distinct terms, each once however often it is typed. */
  lemma ScoreIsSum(s: Scale, x: Index, doc: seq<string>, query: seq<string>)
    requires Sound(s) && x.avgdl >= 0.0
    ensures ScoreTokens(s, x, doc, query) == SumOver(Members(query), OwnScore(s, x, doc))
  {
    UniqueIs(query);
    var all := Members(query);
    if doc == [] {
      SumIgnoresZeros(all, {}, OwnScore(s, x, doc));
    } else {
      SumOfTerms(s, x, doc, Unique(query));
      assert all == Members(Unique(query));
    }
  }

  // ------------------------------------------------------------ what makes a term weigh more

  ghost predicate Increasing(ln: real -> real) {
    forall x: real, y: real :: 0.0 < x < y ==> ln(x) < ln(y)
  }

  /** What a term's rarity is the logarithm of. */
  ghost function Rarity(n: real, df: real): real
    requires df >= 0.0
  {
    1.0 + (n - df + 0.5) / (df + 0.5)
  }

  /** The same formula, its two parts named. */
  lemma OneTermDamped(s: Scale, x: Index, docs: seq<seq<string>>, config: FtsConfig, doc: seq<string>, term: string)
    requires Sound(s) && Indexes(x, docs, config) && term in doc
    ensures x.avgdl >= 0.0
    ensures var tf := |OccurrencesIn(doc, term)| as real;
      ScoreTokens(s, x, doc, [term]) * (tf + Damping(s, docs, doc)) ==
        s.ln(Rarity(Corpus(docs), |DocsWith(docs, term)| as real)) * (tf * (s.k1 + 1.0))
  {
    hide ScoreTokens, Indexes, DocsWith, OccurrencesIn, RelativeLength, Corpus;
    OneTermScore(s, x, docs, config, doc, term);
  }

  lemma SameDamping(s: Scale, docs: seq<seq<string>>, doc: seq<string>, other: seq<string>)
    requires |doc| == |other|
    ensures Damping(s, docs, doc) == Damping(s, docs, other)
  {
  }

  lemma RarityFalls(n: real, df: real, other: real)
    requires 0.0 <= df < other <= n
    ensures 0.0 < Rarity(n, other) < Rarity(n, df)
  {
    var x, y := (n - df + 0.5) / (df + 0.5), (n - other + 0.5) / (other + 0.5);
    QuotientTimes(n - df + 0.5, df + 0.5);
    QuotientTimes(n - other + 0.5, other + 0.5);
    PositiveQuotient(n - df + 0.5, df + 0.5);
    PositiveQuotient(n - other + 0.5, other + 0.5);
    if x <= y {
      Scaled(x, y, df + 0.5);
      Scaled(df + 0.5, other + 0.5, y);
      assert false;
    }
  }

  lemma Scaled(x: real, y: real, z: real)
    requires x <= y && z >= 0.0
    ensures x * z <= y * z
  {
  }

  lemma StrictlyScaled(x: real, y: real, z: real)
    requires x < y && z > 0.0
    ensures x * z < y * z
  {
  }

  lemma CountsBounded(docs: seq<seq<string>>, term: string)
    ensures |DocsWith(docs, term)| as real <= Corpus(docs)
  {
    CountDocs(docs, term);
    PostingCount(docs, term);
  }

  lemma DampingNonnegative(s: Scale, docs: seq<seq<string>>, doc: seq<string>)
    requires Sound(s)
    ensures Damping(s, docs, doc) >= 0.0
  {
    var r := RelativeLength(docs, doc);
    assert r >= 0.0 by {
      if Flatten(docs) != [] {
        PositiveQuotient(|Flatten(docs)| as real, Corpus(docs));
        if doc != [] {
          PositiveQuotient(|doc| as real, |Flatten(docs)| as real / Corpus(docs));
        }
      }
    }
    Nonnegative(s.b, r);
    Nonnegative(s.k1, 1.0 - s.b + s.b * r);
  }

  /** Of two terms that occur equally often in equally long texts, the rarer one scores higher. */
  lemma RarerScoresHigher(s: Scale, x: Index, docs: seq<seq<string>>, config: FtsConfig,
                          doc: seq<string>, term: string, other: seq<string>, common: string)
    requires Sound(s) && Increasing(s.ln) && Indexes(x, docs, config)
    requires term in doc && common in other && |doc| == |other|
    requires |OccurrencesIn(doc, term)| == |OccurrencesIn(other, common)|
    requires |DocsWith(docs, term)| < |DocsWith(docs, common)|
    ensures x.avgdl >= 0.0 && ScoreTokens(s, x, doc, [term]) > ScoreTokens(s, x, other, [common])
  {
    hide ScoreTokens, Indexes, Damping, Rarity, Corpus, Bm25;
    OneTermDamped(s, x, docs, config, doc, term);
    OneTermDamped(s, x, docs, config, other, common);
    SameDamping(s, docs, doc, other);
    CountsBounded(docs, common);
    DampingNonnegative(s, docs, doc);
    var n, tf := Corpus(docs), |OccurrencesIn(doc, term)| as real;
    assert tf > 0.0 by {
      CountOccurrences(doc, term);
      OccurrenceCounts(doc, term);
    }
    RarityFalls(n, |DocsWith(docs, term)| as real, |DocsWith(docs, common)| as real);
    var high, low := s.ln(Rarity(n, |DocsWith(docs, term)| as real)), s.ln(Rarity(n, |DocsWith(docs, common)| as real));
    PositiveProduct(tf, s.k1 + 1.0);
    StrictlyScaled(low, high, tf * (s.k1 + 1.0));
    var bottom := tf + Damping(s, docs, doc);
    if ScoreTokens(s, x, doc, [term]) <= ScoreTokens(s, x, other, [common]) {
      Scaled(ScoreTokens(s, x, doc, [term]), ScoreTokens(s, x, other, [common]), bottom);
      assert false;
    }
  }

  lemma Saturates(a: real, b: real, d: real, c: real, x: real, y: real)
    requires a > b > 0.0 && d > 0.0 && c > 0.0
    requires x * (a + d) == c * a && y * (b + d) == c * b
    ensures x > y
  {
    PositiveProduct(c, b);
    assert y > 0.0 by {
      if y <= 0.0 {
        NonpositiveProduct(y, b + d);
      }
    }
    var p, q := (a + d) * b, (b + d) * a;
    PositiveProduct(a + d, b);
    StrictlyScaled(b, a, d);
    assert q == p + (a * d - b * d);
    assert x * p == c * a * b && y * q == c * b * a;
    StrictlyScaled(p, q, y);
    if x <= y {
      Scaled(x, y, p);
    }
  }

  /** Of two equally long texts, the one with more occurrences of a term scores higher, unless k1 is zero. */
  lemma MoreScoresHigher(s: Scale, x: Index, docs: seq<seq<string>>, config: FtsConfig,
                         doc: seq<string>, other: seq<string>, term: string)
    requires s.Valid() && Sound(s) && s.k1 > 0.0 && Indexes(x, docs, config)
    requires |doc| == |other| && |OccurrencesIn(doc, term)| > |OccurrencesIn(other, term)|
    ensures x.avgdl >= 0.0 && ScoreTokens(s, x, doc, [term]) > ScoreTokens(s, x, other, [term])
  {
    hide ScoreTokens, Indexes, Damping, Rarity, Corpus, Bm25;
    OccurrencesTell(doc, term);
    OneTermDamped(s, x, docs, config, doc, term);
    ScorePositive(s, x, docs, config, doc, [term]);
    var a, b := |OccurrencesIn(doc, term)| as real, |OccurrencesIn(other, term)| as real;
    OccurrencesTell(other, term);
    if term in other {
      OneTermDamped(s, x, docs, config, other, term);
      SameDamping(s, docs, doc, other);
      var ln := s.ln(Rarity(Corpus(docs), |DocsWith(docs, term)| as real));
      RarityAboveOne(docs, term);
      PositiveProduct(ln, s.k1 + 1.0);
      DampingPositive(s, docs, doc);
      assert ln * (a * (s.k1 + 1.0)) == ln * (s.k1 + 1.0) * a && ln * (b * (s.k1 + 1.0)) == ln * (s.k1 + 1.0) * b;
      Saturates(a, b, Damping(s, docs, doc), ln * (s.k1 + 1.0),
          ScoreTokens(s, x, doc, [term]), ScoreTokens(s, x, other, [term]));
    } else {
      OneTermScore(s, x, docs, config, other, term);
    }
  }

  lemma RarityAboveOne(docs: seq<seq<string>>, term: string)
    ensures Rarity(Corpus(docs), |DocsWith(docs, term)| as real) > 1.0
  {
    CountsBounded(docs, term);
    var n, df := Corpus(docs), |DocsWith(docs, term)| as real;
    PositiveQuotient(n - df + 0.5, df + 0.5);
  }

  lemma OccurrencesTell(doc: seq<string>, term: string)
    ensures |OccurrencesIn(doc, term)| > 0 <==> term in doc
  {
    CountOccurrences(doc, term);
    OccurrenceCounts(doc, term);
  }

  lemma DampingPositive(s: Scale, docs: seq<seq<string>>, doc: seq<string>)
    requires Sound(s) && s.k1 > 0.0 && doc != []
    ensures Damping(s, docs, doc) > 0.0
  {
    var r := RelativeLength(docs, doc);
    assert r > 0.0 by {
      if Flatten(docs) != [] {
        PositiveQuotient(|Flatten(docs)| as real, Corpus(docs));
        PositiveQuotient(|doc| as real, |Flatten(docs)| as real / Corpus(docs));
      }
    }
    if s.b > 0.0 {
      PositiveProduct(s.b, r);
    } else {
      assert s.b * r == 0.0 * r == 0.0;
    }
    var y := 1.0 - s.b + s.b * r;
    PositiveProduct(s.k1, y);
    assert Damping(s, docs, doc) == s.k1 * y;
  }
}
