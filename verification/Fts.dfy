/** The positional inverted index and what is computed from it (src/fts.rs). */
module Fts {
  import opened Wrappers
  import opened Values
  import opened Schemas
  import opened Filters
  import Levenshtein

  /** `positions` ascend; their number is the term frequency. */
  datatype Posting = Posting(ordinal: nat, positions: seq<nat>)

  datatype Index = Index(terms: map<string, seq<Posting>>, lengths: seq<nat>, avgdl: real, config: FtsConfig)

  // ------------------------------------------------------------ what an index holds

  function Tokens(h: Host, config: FtsConfig, text: Option<string>): seq<string> {
    if text.Some? then h.tokenize(config.tokenizer, text.value) else []
  }

  /** The token list of every document; a document without the attribute has none. */
  function TokenLists(h: Host, config: FtsConfig, texts: seq<Option<string>>): (r: seq<seq<string>>)
    ensures |r| == |texts|
  {
    seq(|texts|, o requires 0 <= o < |texts| => Tokens(h, config, texts[o]))
  }

  function Positions(doc: seq<string>, term: string): seq<nat>
    decreases |doc|
  {
    if doc == [] then []
    else Positions(doc[..|doc| - 1], term) + if doc[|doc| - 1] == term then [|doc| - 1] else []
  }

  function Postings(docs: seq<seq<string>>, term: string): seq<Posting>
    decreases |docs|
  {
    if docs == [] then []
    else
      var doc := docs[|docs| - 1];
      Postings(docs[..|docs| - 1], term) + if term in doc then [Posting(|docs| - 1, Positions(doc, term))] else []
  }

  predicate Occurs(docs: seq<seq<string>>, term: string) {
    exists o | 0 <= o < |docs| :: term in docs[o]
  }

  function Total(lengths: seq<nat>): nat
    decreases |lengths|
  {
    if lengths == [] then 0 else Total(lengths[..|lengths| - 1]) + lengths[|lengths| - 1]
  }

  function Average(lengths: seq<nat>): (r: real)
    ensures r >= 0.0
  {
    if lengths == [] then 0.0 else Total(lengths) as real / |lengths| as real
  }

  ghost predicate Indexes(x: Index, docs: seq<seq<string>>, config: FtsConfig) {
    && (forall t :: t in x.terms <==> Occurs(docs, t))
    && (forall t | t in x.terms :: x.terms[t] == Postings(docs, t))
    && |x.lengths| == |docs| && (forall o | 0 <= o < |docs| :: x.lengths[o] == |docs[o]|)
    && x.avgdl == Average(x.lengths) && x.config == config
  }

  lemma {:induction false} PositionsAre(doc: seq<string>, term: string)
    ensures forall i :: i in Positions(doc, term) <==> 0 <= i < |doc| && doc[i] == term
    ensures forall i, j | 0 <= i < j < |Positions(doc, term)| :: Positions(doc, term)[i] < Positions(doc, term)[j]
    decreases |doc|
  {
    if doc != [] {
      PositionsAre(doc[..|doc| - 1], term);
      var front := Positions(doc[..|doc| - 1], term);
      forall i | 0 <= i < |front| ensures front[i] < |doc| - 1 {
        assert front[i] in front;
      }
    }
  }

  predicate PostingIs(docs: seq<seq<string>>, term: string, p: Posting) {
    p.ordinal < |docs| && term in docs[p.ordinal] && p.positions == Positions(docs[p.ordinal], term)
  }

  /** Ordinal `o` has its posting among the first `i`. */
  predicate Passed(list: seq<Posting>, i: nat, o: nat)
    requires i <= |list|
  {
    exists j :: 0 <= j < i && list[j].ordinal == o
  }

  lemma PostingsNext(docs: seq<seq<string>>, doc: seq<string>, term: string)
    ensures Postings(docs + [doc], term) ==
            Postings(docs, term) + if term in doc then [Posting(|docs|, Positions(doc, term))] else []
  {
    assert (docs + [doc])[..|docs|] == docs;
  }

  lemma {:induction false} PostingsAre(docs: seq<seq<string>>, term: string)
    ensures var list := Postings(docs, term);
      && (forall i | 0 <= i < |list| :: PostingIs(docs, term, list[i]))
      && (forall i, j | 0 <= i < j < |list| :: list[i].ordinal < list[j].ordinal)
      && (forall o: nat | o < |docs| :: term in docs[o] <==> Passed(list, |list|, o))
    decreases |docs|
  {
    hide Positions;
    if docs != [] {
      var front, doc := docs[..|docs| - 1], docs[|docs| - 1];
      assert docs == front + [doc];
      PostingsAre(front, term);
      PostingsNext(front, doc, term);
      hide Postings;
      var before, all := Postings(front, term), Postings(docs, term);
      forall i | 0 <= i < |all|
        ensures PostingIs(docs, term, all[i]) && (i < |before| ==> all[i] == before[i] && all[i].ordinal < |front|)
      {
        if i < |before| {
          assert PostingIs(front, term, before[i]);
        }
      }
      forall o: nat | o < |docs| ensures term in docs[o] <==> Passed(all, |all|, o) {
        if o < |front| && term in docs[o] {
          assert term in front[o];
          var j :| 0 <= j < |before| && before[j].ordinal == o;
          assert all[j].ordinal == o;
        } else if term in docs[o] {
          assert all[|before|].ordinal == o;
        }
      }
    }
  }

  // ------------------------------------------------------------ building

  /** The positions of every token of one document. */
  method FileDocument(doc: seq<string>) returns (perDoc: map<string, seq<nat>>)
    ensures forall t :: t in perDoc <==> t in doc
    ensures forall t | t in perDoc :: perDoc[t] == Positions(doc, t)
  {
    perDoc := map[];
    for pos := 0 to |doc|
      invariant forall t :: t in perDoc <==> t in doc[..pos]
      invariant forall t :: Positions(doc[..pos], t) == if t in perDoc then perDoc[t] else []
    {
      var token := doc[pos];
      assert doc[..pos + 1][..pos] == doc[..pos];
      assert doc[..pos + 1] == doc[..pos] + [token];
      perDoc := perDoc[token := (if token in perDoc then perDoc[token] else []) + [pos]];
    }
    assert doc[..|doc|] == doc;
  }

  /** Append one document's postings, term by term in whatever order its map yields them. */
  method AppendDocument(terms: map<string, seq<Posting>>, ordinal: nat, doc: seq<string>, ghost docs: seq<seq<string>>)
    returns (r: map<string, seq<Posting>>)
    requires ordinal == |docs| && forall t :: t in terms <==> Occurs(docs, t)
    requires forall t | t in terms :: terms[t] == Postings(docs, t)
    ensures forall t :: t in r <==> Occurs(docs + [doc], t)
    ensures forall t | t in r :: r[t] == Postings(docs + [doc], t)
  {
    hide Postings, Positions, Occurs;
    var perDoc := FileDocument(doc);
    var todo := perDoc.Keys;
    r := terms;
    while todo != {}
      invariant todo <= perDoc.Keys
      invariant forall t :: t in r <==> t in terms || t in perDoc.Keys - todo
      invariant forall t | t in r ::
        r[t] == (if t in terms then terms[t] else []) +
            (if t in perDoc.Keys - todo then [Posting(ordinal, perDoc[t])] else [])
    {
      var t :| t in todo;
      todo := todo - {t};
      r := r[t := (if t in r then r[t] else []) + [Posting(ordinal, perDoc[t])]];
    }
    forall t ensures t in r <==> Occurs(docs + [doc], t) {
      OccursNext(docs, doc, t);
    }
    forall t | t in r ensures r[t] == Postings(docs + [doc], t) {
      PostingsNext(docs, doc, t);
      if t !in terms {
        NoPostings(docs, t);
      }
    }
  }

  lemma OccursNext(docs: seq<seq<string>>, doc: seq<string>, t: string)
    ensures Occurs(docs + [doc], t) <==> Occurs(docs, t) || t in doc
  {
    if Occurs(docs, t) {
      var o :| 0 <= o < |docs| && t in docs[o];
      assert (docs + [doc])[o] == docs[o];
    }
    if t in doc {
      assert (docs + [doc])[|docs|] == doc;
    }
  }

  lemma {:induction false} NoPostings(docs: seq<seq<string>>, t: string)
    requires !Occurs(docs, t)
    ensures Postings(docs, t) == []
    decreases |docs|
  {
    if docs != [] {
      var front := docs[..|docs| - 1];
      forall o | 0 <= o < |front| ensures t !in front[o] {
        assert front[o] == docs[o];
      }
      NoPostings(front, t);
    }
  }

  method Build(h: Host, texts: seq<Option<string>>, config: FtsConfig) returns (x: Index)
    ensures Indexes(x, TokenLists(h, config, texts), config)
  {
    hide Total, Postings, Occurs;
    var terms: map<string, seq<Posting>> := map[];
    var lengths: seq<nat>, total := [], 0;
    NothingOccurs();
    ghost var docs := TokenLists(h, config, texts);
    for o := 0 to |texts|
      invariant forall t :: t in terms <==> Occurs(docs[..o], t)
      invariant forall t | t in terms :: terms[t] == Postings(docs[..o], t)
      invariant |lengths| == o && (forall i | 0 <= i < o :: lengths[i] == |docs[i]|) && total == Total(lengths)
    {
      var tokens := Tokens(h, config, texts[o]);
      assert docs[..o + 1] == docs[..o] + [tokens];
      terms := AppendDocument(terms, o, tokens, docs[..o]);
      TotalNext(lengths, |tokens|);
      lengths, total := lengths + [|tokens|], total + |tokens|;
    }
    assert docs[..|texts|] == docs;
    var avgdl := if lengths == [] then 0.0 else total as real / |lengths| as real;
    x := Index(terms, lengths, avgdl, config);
  }

  lemma NothingOccurs()
    ensures Total([]) == 0 && forall t :: !Occurs([], t)
  {
  }

  lemma TotalNext(lengths: seq<nat>, n: nat)
    ensures Total(lengths + [n]) == Total(lengths) + n
  {
    assert (lengths + [n])[..|lengths|] == lengths;
  }

  // ------------------------------------------------------------ scoring

  function Unique(terms: seq<string>): seq<string> {
    if terms == [] then []
    else if terms[0] in terms[1..] then Unique(terms[1..])
    else [terms[0]] + Unique(terms[1..])
  }

  lemma {:induction false} UniqueIs(terms: seq<string>)
    ensures forall t :: t in Unique(terms) <==> t in terms
    ensures forall i, j | 0 <= i < j < |Unique(terms)| :: Unique(terms)[i] != Unique(terms)[j]
    decreases |terms|
  {
    if terms != [] {
      UniqueIs(terms[1..]);
      assert [terms[0]] + terms[1..] == terms;
    }
  }

  /** The parameters of BM25: exact arithmetic, with a logarithm that is positive above one. */
  datatype Scale = Scale(ln: real -> real, k1: real, b: real) {
    ghost predicate Valid() {
      k1 >= 0.0 && 0.0 <= b <= 1.0 && forall x: real :: x > 1.0 ==> ln(x) > 0.0
    }
  }

  function Idf(s: Scale, n: real, df: real): real
    requires df >= 0.0
  {
    s.ln(1.0 + (n - df + 0.5) / (df + 0.5))
  }

  predicate Sound(s: Scale) { s.k1 >= 0.0 && 0.0 <= s.b <= 1.0 }

  lemma Saturation(s: Scale, tf: real, norm: real)
    requires Sound(s) && tf > 0.0 && norm >= 0.0
    ensures tf + s.k1 * (1.0 - s.b + s.b * norm) > 0.0
  {
    assert s.b * norm >= 0.0;
    Nonnegative(s.k1, 1.0 - s.b + s.b * norm);
  }

  lemma Nonnegative(x: real, y: real)
    requires x >= 0.0 && y >= 0.0
    ensures x * y >= 0.0
  {
  }

  function Weight(s: Scale, n: real, df: real, tf: real, norm: real): real
    requires Sound(s) && df >= 0.0 && tf > 0.0 && norm >= 0.0
  {
    Saturation(s, tf, norm);
    Idf(s, n, df) * (tf * (s.k1 + 1.0)) / (tf + s.k1 * (1.0 - s.b + s.b * norm))
  }

  lemma WeightIsPositive(s: Scale, n: real, df: real, tf: real, norm: real)
    requires s.Valid() && 0.0 <= df <= n && tf > 0.0 && norm >= 0.0
    ensures Weight(s, n, df, tf, norm) > 0.0
  {
    Saturation(s, tf, norm);
    PositiveQuotient(n - df + 0.5, df + 0.5);
    assert Idf(s, n, df) > 0.0;
    PositiveProduct(tf, s.k1 + 1.0);
    PositiveProduct(Idf(s, n, df), tf * (s.k1 + 1.0));
    PositiveQuotient(Idf(s, n, df) * (tf * (s.k1 + 1.0)), tf + s.k1 * (1.0 - s.b + s.b * norm));
  }

  lemma PositiveProduct(x: real, y: real)
    requires x > 0.0 && y > 0.0
    ensures x * y > 0.0
  {
  }

  lemma PositiveQuotient(x: real, y: real)
    requires x > 0.0 && y > 0.0
    ensures x / y > 0.0
  {
    if x / y <= 0.0 {
      assert x == (x / y) * y;
      NonpositiveProduct(x / y, y);
    }
  }

  lemma NonpositiveProduct(x: real, y: real)
    requires x <= 0.0 && y > 0.0
    ensures x * y <= 0.0
  {
  }

  function Frequency(x: Index, term: string): nat {
    if term in x.terms then |x.terms[term]| else 0
  }

  /** Length relative to the average; the two callers disagree on what it is when nothing has tokens. */
  function Norm(x: Index, length: nat, unknown: real): real
    requires x.avgdl >= 0.0 && unknown >= 0.0
    ensures Norm(x, length, unknown) >= 0.0
  {
    if x.avgdl > 0.0 then length as real / x.avgdl else unknown
  }

  /** What one query term adds to the score of any token list. */
  function TermScore(s: Scale, x: Index, doc: seq<string>, term: string): real
    requires Sound(s) && x.avgdl >= 0.0
  {
    var tf := |Positions(doc, term)|;
    if tf == 0 then 0.0
    else Weight(s, Larger(|x.lengths|, 1) as real, Frequency(x, term) as real, tf as real, Norm(x, |doc|, 1.0))
  }

  function Larger(a: nat, b: nat): nat { if a >= b then a else b }

  function SumTerms(s: Scale, x: Index, doc: seq<string>, terms: seq<string>): real
    requires Sound(s) && x.avgdl >= 0.0
    decreases |terms|
  {
    if terms == [] then 0.0
    else SumTerms(s, x, doc, terms[..|terms| - 1]) + TermScore(s, x, doc, terms[|terms| - 1])
  }

  /** Direct scoring of a token list against the index's statistics. */
  function ScoreTokens(s: Scale, x: Index, doc: seq<string>, query: seq<string>): real
    requires Sound(s) && x.avgdl >= 0.0
  {
    if query == [] || doc == [] then 0.0 else SumTerms(s, x, doc, Unique(query))
  }

  predicate Shares(doc: seq<string>, query: seq<string>) {
    exists t | t in query :: t in doc
  }

  lemma {:induction false} PostingCount(docs: seq<seq<string>>, term: string)
    ensures |Postings(docs, term)| <= |docs|
    decreases |docs|
  {
    if docs != [] {
      PostingCount(docs[..|docs| - 1], term);
    }
  }

  lemma AverageIsKept(x: Index, docs: seq<seq<string>>)
    requires Indexes(x, docs, x.config)
    ensures x.avgdl >= 0.0
  {
  }

  lemma {:induction false} TotalCovers(lengths: seq<nat>, o: nat)
    requires o < |lengths|
    ensures Total(lengths) >= lengths[o]
    decreases |lengths|
  {
    if o < |lengths| - 1 {
      TotalCovers(lengths[..|lengths| - 1], o);
    }
  }

  /** A document with tokens makes the average length positive. */
  lemma AveragePositive(x: Index, docs: seq<seq<string>>, config: FtsConfig, o: nat)
    requires Indexes(x, docs, config) && o < |docs| && docs[o] != []
    ensures x.avgdl > 0.0
  {
    TotalCovers(x.lengths, o);
    PositiveQuotient(Total(x.lengths) as real, |x.lengths| as real);
  }

  lemma OccurrenceCounts(doc: seq<string>, term: string)
    ensures |Positions(doc, term)| > 0 <==> term in doc
  {
    PositionsAre(doc, term);
    if term in doc {
      var i :| 0 <= i < |doc| && doc[i] == term;
      assert i in Positions(doc, term);
    }
    if |Positions(doc, term)| > 0 {
      assert Positions(doc, term)[0] in Positions(doc, term);
    }
  }

  lemma TermScorePositive(s: Scale, x: Index, docs: seq<seq<string>>, config: FtsConfig, doc: seq<string>, term: string)
    requires s.Valid() && Indexes(x, docs, config)
    ensures TermScore(s, x, doc, term) >= 0.0 && (TermScore(s, x, doc, term) > 0.0 <==> term in doc)
  {
    OccurrenceCounts(doc, term);
    PostingCount(docs, term);
    if term in doc {
      WeightIsPositive(s, Larger(|x.lengths|, 1) as real, Frequency(x, term) as real, |Positions(doc, term)| as real,
          Norm(x, |doc|, 1.0));
    }
  }

  lemma {:induction false} SumPositive(s: Scale, x: Index, docs: seq<seq<string>>, config: FtsConfig, doc: seq<string>,
                                       terms: seq<string>)
    requires s.Valid() && Indexes(x, docs, config)
    ensures SumTerms(s, x, doc, terms) >= 0.0 && (SumTerms(s, x, doc, terms) > 0.0 <==> Shares(doc, terms))
    decreases |terms|
  {
    hide TermScore, Indexes;
    if terms != [] {
      SumPositive(s, x, docs, config, doc, terms[..|terms| - 1]);
      TermScorePositive(s, x, docs, config, doc, terms[|terms| - 1]);
      assert terms == terms[..|terms| - 1] + [terms[|terms| - 1]];
    }
  }

  /** Direct scores are positive exactly for documents that share a query term. */
  lemma ScorePositive(s: Scale, x: Index, docs: seq<seq<string>>, config: FtsConfig, doc: seq<string>,
                      query: seq<string>)
    requires s.Valid() && Indexes(x, docs, config)
    ensures ScoreTokens(s, x, doc, query) >= 0.0 && (ScoreTokens(s, x, doc, query) > 0.0 <==> Shares(doc, query))
  {
    SumPositive(s, x, docs, config, doc, Unique(query));
    UniqueIs(query);
  }

  /** What a posting adds to its document is what the term adds to the document's text. */
  lemma PostingIsTermScore(s: Scale, x: Index, docs: seq<seq<string>>, config: FtsConfig, term: string, i: nat)
    requires Sound(s) && Indexes(x, docs, config) && term in x.terms && i < |x.terms[term]|
    ensures var p := x.terms[term][i];
      && p.ordinal < |docs| && |p.positions| > 0
      && Weight(s, |x.lengths| as real, |x.terms[term]| as real, |p.positions| as real,
          Norm(x, x.lengths[p.ordinal], 0.0))
         == TermScore(s, x, docs[p.ordinal], term)
  {
    PostingsAre(docs, term);
    var p := x.terms[term][i];
    OccurrenceCounts(docs[p.ordinal], term);
    AveragePositive(x, docs, config, p.ordinal);
  }

  function Held(acc: map<nat, real>, o: nat): real {
    if o in acc then acc[o] else 0.0
  }

  /** Add one term's postings to the accumulator. */
  method AddTerm(s: Scale, x: Index, term: string, acc: map<nat, real>, ghost docs: seq<seq<string>>)
    returns (r: map<nat, real>)
    requires Sound(s) && Indexes(x, docs, x.config) && forall o: nat | o in acc :: o < |docs|
    ensures forall o: nat :: o in r <==> o in acc || (o < |docs| && term in docs[o])
    ensures forall o: nat | o in r :: o < |docs| && r[o] == Held(acc, o) + TermScore(s, x, docs[o], term)
  {
    hide Weight, TermScore, Indexes, Sound, Norm;
    AverageIsKept(x, docs);
    r := acc;
    forall o: nat | o < |docs| && term !in docs[o] ensures TermScore(s, x, docs[o], term) == 0.0 {
      NoTermNoScore(s, x, docs[o], term);
    }
    if term !in x.terms {
      TermAbsent(x, docs, term);
      return;
    }
    var list := x.terms[term];
    ListIs(x, docs, term);
    for i := 0 to |list|
      invariant forall o: nat :: o in r <==> o in acc || Passed(list, i, o)
      invariant forall o: nat | o in r && o < |docs| ::
        r[o] == Held(acc, o) + if Passed(list, i, o) then TermScore(s, x, docs[o], term) else 0.0
    {
      PostingIsTermScore(s, x, docs, x.config, term, i);
      var p := list[i];
      var w := Weight(s, |x.lengths| as real, |list| as real, |p.positions| as real,
          Norm(x, x.lengths[p.ordinal], 0.0));
      assert forall o: nat :: Passed(list, i + 1, o) <==> Passed(list, i, o) || o == p.ordinal;
      assert !Passed(list, i, p.ordinal);
      r := r[p.ordinal := Held(r, p.ordinal) + w];
    }
  }

  lemma NoTermNoScore(s: Scale, x: Index, doc: seq<string>, term: string)
    requires Sound(s) && x.avgdl >= 0.0 && term !in doc
    ensures TermScore(s, x, doc, term) == 0.0
  {
    OccurrenceCounts(doc, term);
  }

  lemma TermAbsent(x: Index, docs: seq<seq<string>>, term: string)
    requires Indexes(x, docs, x.config) && term !in x.terms
    ensures forall o | 0 <= o < |docs| :: term !in docs[o]
  {
  }

  lemma ListIs(x: Index, docs: seq<seq<string>>, term: string)
    requires Indexes(x, docs, x.config) && term in x.terms
    ensures var list := x.terms[term];
      && |x.lengths| == |docs|
      && (forall i | 0 <= i < |list| :: list[i].ordinal < |docs|)
      && (forall i, j | 0 <= i < j < |list| :: list[i].ordinal != list[j].ordinal)
      && (forall o: nat | o < |docs| :: term in docs[o] <==> Passed(list, |list|, o))
  {
    PostingsAre(docs, term);
  }

  lemma SharesNext(doc: seq<string>, terms: seq<string>, t: string)
    ensures Shares(doc, terms + [t]) <==> Shares(doc, terms) || t in doc
  {
    assert forall u :: u in terms + [t] <==> u in terms || u == t;
  }

  lemma {:induction false} SumOfNone(s: Scale, x: Index, doc: seq<string>, terms: seq<string>)
    requires Sound(s) && x.avgdl >= 0.0 && !Shares(doc, terms)
    ensures SumTerms(s, x, doc, terms) == 0.0
    decreases |terms|
  {
    if terms != [] {
      assert terms == terms[..|terms| - 1] + [terms[|terms| - 1]];
      OccurrenceCounts(doc, terms[|terms| - 1]);
      SumOfNone(s, x, doc, terms[..|terms| - 1]);
    }
  }

  method Accumulate(s: Scale, x: Index, terms: seq<string>, ghost docs: seq<seq<string>>) returns (acc: map<nat, real>)
    requires Sound(s) && Indexes(x, docs, x.config)
    ensures forall o: nat :: o in acc <==> o < |docs| && Shares(docs[o], terms)
    ensures forall o: nat | o in acc :: acc[o] == SumTerms(s, x, docs[o], terms)
  {
    hide TermScore, Indexes;
    AverageIsKept(x, docs);
    acc := map[];
    for i := 0 to |terms|
      invariant forall o: nat :: o in acc <==> o < |docs| && Shares(docs[o], terms[..i])
      invariant forall o: nat | o in acc :: acc[o] == SumTerms(s, x, docs[o], terms[..i])
    {
      var before := acc;
      acc := AddTerm(s, x, terms[i], acc, docs);
      assert terms[..i + 1] == terms[..i] + [terms[i]] && terms[..i + 1][..i] == terms[..i];
      forall o | 0 <= o < |docs|
        ensures Shares(docs[o], terms[..i + 1]) <==> Shares(docs[o], terms[..i]) || terms[i] in docs[o]
      {
        SharesNext(docs[o], terms[..i], terms[i]);
      }
      forall o: nat | o in acc && o !in before ensures SumTerms(s, x, docs[o], terms[..i]) == 0.0 {
        SumOfNone(s, x, docs[o], terms[..i]);
      }
    }
    assert terms[..|terms|] == terms;
  }

  /** Scores accumulated over posting lists: exactly the documents that share a query term, each once,
      each with the positive score its own text gets by direct scoring. */
  method Score(s: Scale, x: Index, query: seq<string>, ghost docs: seq<seq<string>>) returns (out: seq<(nat, real)>)
    requires s.Valid() && Indexes(x, docs, x.config)
    ensures forall i | 0 <= i < |out| :: out[i].0 < |docs| && out[i].1 == ScoreTokens(s, x, docs[out[i].0], query) > 0.0
    ensures forall i, j | 0 <= i < j < |out| :: out[i].0 != out[j].0
    ensures forall o | 0 <= o < |docs| :: Shares(docs[o], query) <==> exists i :: 0 <= i < |out| && out[i].0 == o
  {
    hide Indexes, SumTerms;
    AverageIsKept(x, docs);
    out := [];
    if query == [] || |x.lengths| == 0 {
      assert |docs| == |x.lengths| by {
        LengthsAlign(x, docs);
      }
      return;
    }
    var acc := Accumulate(s, x, Unique(query), docs);
    UniqueIs(query);
    forall o | 0 <= o < |docs|
      ensures Shares(docs[o], Unique(query)) <==> Shares(docs[o], query)
      ensures docs[o] != [] && o in acc ==> acc[o] == ScoreTokens(s, x, docs[o], query)
      ensures Shares(docs[o], query) <==> ScoreTokens(s, x, docs[o], query) > 0.0
    {
      ScorePositive(s, x, docs, x.config, docs[o], query);
    }
    var todo := acc.Keys;
    while todo != {}
      invariant todo <= acc.Keys
      invariant forall i | 0 <= i < |out| :: out[i].0 in acc.Keys - todo && out[i].1 == acc[out[i].0]
      invariant forall i, j | 0 <= i < j < |out| :: out[i].0 != out[j].0
      invariant forall o: nat | o in acc.Keys - todo :: exists i :: 0 <= i < |out| && out[i].0 == o
    {
      var o :| o in todo;
      ghost var done := acc.Keys - todo;
      todo := todo - {o};
      assert docs[o] != [];
      if acc[o] > 0.0 {
        var longer := out + [(o, acc[o])];
        forall q: nat | q in acc.Keys - todo ensures exists i :: 0 <= i < |longer| && longer[i].0 == q {
          if q == o {
            assert longer[|out|].0 == q;
          } else {
            assert q in done;
            var i :| 0 <= i < |out| && out[i].0 == q;
            assert longer[i].0 == q;
          }
        }
        out := longer;
      }
    }
    assert acc.Keys - {} == acc.Keys;
  }

  lemma LengthsAlign(x: Index, docs: seq<seq<string>>)
    requires Indexes(x, docs, x.config)
    ensures |x.lengths| == |docs|
  {
  }

  // ------------------------------------------------------------ token filters

  function OrdinalsOf(list: seq<Posting>): set<nat> {
    set i | 0 <= i < |list| :: list[i].ordinal
  }

  lemma OrdinalsAre(x: Index, docs: seq<seq<string>>, term: string, o: nat)
    requires Indexes(x, docs, x.config)
    ensures o in (if term in x.terms then OrdinalsOf(x.terms[term]) else {}) <==> o < |docs| && term in docs[o]
  {
    PostingsAre(docs, term);
  }

  /** Intersect the posting lists of the query's tokens. */
  method AllTokens(x: Index, tokens: seq<string>, ghost docs: seq<seq<string>>) returns (r: set<nat>)
    requires Indexes(x, docs, x.config)
    ensures forall o: nat :: o in r <==> o < |docs| && tokens != [] && HasAll(docs[o], tokens)
  {
    hide Indexes;
    r := {};
    if tokens == [] {
      return;
    }
    for i := 0 to |tokens|
      invariant i > 0 ==> forall o: nat :: o in r <==> o < |docs| && HasAll(docs[o], tokens[..i])
    {
      var here := if tokens[i] in x.terms then OrdinalsOf(x.terms[tokens[i]]) else {};
      forall o: nat ensures o in here <==> o < |docs| && tokens[i] in docs[o] {
        OrdinalsAre(x, docs, tokens[i], o);
      }
      r := if i == 0 then here else r * here;
      assert tokens[..i + 1] == tokens[..i] + [tokens[i]];
      if r == {} {
        forall o | 0 <= o < |docs| ensures !HasAll(docs[o], tokens) {
          assert o !in r;
          assert tokens[..i + 1] <= tokens;
        }
        return;
      }
    }
    assert tokens[..|tokens|] == tokens;
  }

  /** The starts that survive the first `n` tokens of the query. */
  predicate StartsAt(doc: seq<string>, tokens: seq<string>, n: nat, start: nat)
    requires n <= |tokens|
  {
    start + n <= |doc| && doc[start..start + n] == tokens[..n]
  }

  function Retained(starts: seq<nat>, wanted: seq<nat>, offset: nat): seq<nat> {
    if starts == [] then []
    else (if starts[0] + offset in wanted then [starts[0]] else []) + Retained(starts[1..], wanted, offset)
  }

  lemma {:induction false} RetainedIs(starts: seq<nat>, wanted: seq<nat>, offset: nat, s: nat)
    ensures s in Retained(starts, wanted, offset) <==> s in starts && s + offset in wanted
    decreases |starts|
  {
    if starts != [] {
      RetainedIs(starts[1..], wanted, offset, s);
      assert [starts[0]] + starts[1..] == starts;
    }
  }

  lemma NextStart(doc: seq<string>, tokens: seq<string>, n: nat, start: nat)
    requires n < |tokens|
    ensures StartsAt(doc, tokens, n + 1, start) <==>
      StartsAt(doc, tokens, n, start) && start + n < |doc| && doc[start + n] == tokens[n]
  {
    assert tokens[..n + 1] == tokens[..n] + [tokens[n]];
    if start + n < |doc| {
      assert doc[start..start + n + 1] == doc[start..start + n] + [doc[start + n]];
    }
  }

  lemma SomeStart(doc: seq<string>, tokens: seq<string>)
    ensures HasWindow(doc, tokens) <==> exists s: nat :: StartsAt(doc, tokens, |tokens|, s)
  {
    assert tokens[..|tokens|] == tokens;
    if HasWindow(doc, tokens) {
      var i :| 0 <= i <= |doc| && WindowAt(doc, tokens, i);
      assert StartsAt(doc, tokens, |tokens|, i);
    }
    if s: nat :| StartsAt(doc, tokens, |tokens|, s) {
      assert WindowAt(doc, tokens, s);
    }
  }

  predicate AllStarts(starts: seq<nat>, doc: seq<string>, tokens: seq<string>, n: nat)
    requires n <= |tokens|
  {
    && (forall s | s in starts :: StartsAt(doc, tokens, n, s))
    && (forall s | 0 <= s <= |doc| && StartsAt(doc, tokens, n, s) :: s in starts)
  }

  lemma FirstStarts(doc: seq<string>, tokens: seq<string>)
    requires tokens != []
    ensures AllStarts(Positions(doc, tokens[0]), doc, tokens, 1)
  {
    PositionsAre(doc, tokens[0]);
    forall s: nat ensures StartsAt(doc, tokens, 1, s) <==> s < |doc| && doc[s] == tokens[0] {
      NextStart(doc, tokens, 0, s);
    }
  }

  lemma NextStarts(starts: seq<nat>, doc: seq<string>, tokens: seq<string>, n: nat)
    requires n < |tokens| && AllStarts(starts, doc, tokens, n)
    ensures AllStarts(Retained(starts, Positions(doc, tokens[n]), n), doc, tokens, n + 1)
  {
    var wanted := Positions(doc, tokens[n]);
    PositionsAre(doc, tokens[n]);
    forall s: nat ensures s in Retained(starts, wanted, n) <==> s in starts && s + n in wanted {
      RetainedIs(starts, wanted, n, s);
    }
    forall s: nat
      ensures StartsAt(doc, tokens, n + 1, s) <==>
        StartsAt(doc, tokens, n, s) && s + n < |doc| && doc[s + n] == tokens[n]
    {
      NextStart(doc, tokens, n, s);
    }
  }

  lemma StartsDecide(starts: seq<nat>, doc: seq<string>, tokens: seq<string>)
    requires AllStarts(starts, doc, tokens, |tokens|)
    ensures HasWindow(doc, tokens) <==> starts != []
  {
    SomeStart(doc, tokens);
    if starts != [] {
      assert starts[0] in starts;
    }
  }

  lemma NoStartsNoWindow(doc: seq<string>, tokens: seq<string>, n: nat)
    requires n <= |tokens| && AllStarts([], doc, tokens, n)
    ensures !HasWindow(doc, tokens)
  {
    SomeStart(doc, tokens);
    NoStartsLater(doc, tokens, n);
  }

  /** Where in one document the phrase starts, token after token. */
  method PhraseStarts(x: Index, tokens: seq<string>, p: Posting, ghost docs: seq<seq<string>>) returns (found: bool)
    requires Indexes(x, docs, x.config) && |tokens| >= 2
    requires p.ordinal < |docs| && p.positions == Positions(docs[p.ordinal], tokens[0])
    ensures found <==> HasWindow(docs[p.ordinal], tokens)
  {
    hide Indexes, HasWindow, Positions, Retained, AllStarts;
    ghost var doc := docs[p.ordinal];
    var starts := p.positions;
    FirstStarts(doc, tokens);
    for offset := 1 to |tokens|
      invariant AllStarts(starts, doc, tokens, offset)
    {
      var term := tokens[offset];
      OrdinalsAre(x, docs, term, p.ordinal);
      if term !in x.terms || p.ordinal !in OrdinalsOf(x.terms[term]) {
        LostForGood(doc, tokens, offset);
        SomeStart(doc, tokens);
        return false;
      }
      var i :| 0 <= i < |x.terms[term]| && x.terms[term][i].ordinal == p.ordinal;
      PostingAt(x, docs, term, i);
      NextStarts(starts, doc, tokens, offset);
      starts := Retained(starts, x.terms[term][i].positions, offset);
      if starts == [] {
        NoStartsNoWindow(doc, tokens, offset + 1);
        return false;
      }
    }
    StartsDecide(starts, doc, tokens);
    return starts != [];
  }

  lemma PostingAt(x: Index, docs: seq<seq<string>>, term: string, i: nat)
    requires Indexes(x, docs, x.config) && term in x.terms && i < |x.terms[term]|
    ensures var p := x.terms[term][i]; p.ordinal < |docs| && p.positions == Positions(docs[p.ordinal], term)
  {
    PostingsAre(docs, term);
  }

  lemma LostForGood(doc: seq<string>, tokens: seq<string>, offset: nat)
    requires offset < |tokens| && tokens[offset] !in doc
    ensures forall s: nat :: !StartsAt(doc, tokens, |tokens|, s)
  {
    forall s: nat | s + |tokens| <= |doc| ensures !StartsAt(doc, tokens, |tokens|, s) {
      assert doc[s..s + |tokens|][offset] == doc[s + offset];
      assert tokens[..|tokens|][offset] == tokens[offset];
    }
  }

  lemma StartsEarlier(doc: seq<string>, tokens: seq<string>, n: nat, s: nat)
    requires n <= |tokens| && StartsAt(doc, tokens, |tokens|, s)
    ensures StartsAt(doc, tokens, n, s)
  {
    assert doc[s..s + n] == doc[s..s + |tokens|][..n] == tokens[..n];
  }

  lemma NoStartsLater(doc: seq<string>, tokens: seq<string>, n: nat)
    requires n <= |tokens| && AllStarts([], doc, tokens, n)
    ensures forall s: nat :: !StartsAt(doc, tokens, |tokens|, s)
  {
    forall s: nat ensures !StartsAt(doc, tokens, |tokens|, s) {
      if StartsAt(doc, tokens, |tokens|, s) {
        StartsEarlier(doc, tokens, n, s);
        assert false;
      }
    }
  }

  /** Phrase search. A one-token phrase goes through `AllTokens` with that token tokenized again. */
  method TokenSequence(h: Host, x: Index, query: string, ghost docs: seq<seq<string>>) returns (r: set<nat>)
    requires Indexes(x, docs, x.config)
    ensures var tokens := h.tokenize(x.config.tokenizer, query);
      forall o: nat :: o in r <==>
        o < |docs| && tokens != [] &&
        (if |tokens| == 1 then Retokenized(h, x.config, tokens[0], docs[o]) else HasWindow(docs[o], tokens))
  {
    hide Indexes, HasWindow;
    var tokens := h.tokenize(x.config.tokenizer, query);
    if tokens == [] {
      return {};
    }
    if |tokens| == 1 {
      r := AllTokens(x, h.tokenize(x.config.tokenizer, tokens[0]), docs);
      return;
    }
    r := {};
    if tokens[0] !in x.terms {
      forall o | 0 <= o < |docs| ensures !HasWindow(docs[o], tokens) {
        OrdinalsAre(x, docs, tokens[0], o);
        LostForGood(docs[o], tokens, 0);
        SomeStart(docs[o], tokens);
      }
      return;
    }
    var first := x.terms[tokens[0]];
    for i := 0 to |first|
      invariant forall o: nat :: o in r <==>
        o < |docs| && HasWindow(docs[o], tokens) && exists j :: 0 <= j < i && first[j].ordinal == o
    {
      PostingAt(x, docs, tokens[0], i);
      var found := PhraseStarts(x, tokens, first[i], docs);
      if found {
        r := r + {first[i].ordinal};
      }
    }
    forall o | 0 <= o < |docs| && HasWindow(docs[o], tokens)
      ensures exists j :: 0 <= j < |first| && first[j].ordinal == o
    {
      OrdinalsAre(x, docs, tokens[0], o);
      if tokens[0] !in docs[o] {
        LostForGood(docs[o], tokens, 0);
        SomeStart(docs[o], tokens);
      }
    }
  }

  /** What the index decides for a one-token phrase. */
  predicate Retokenized(h: Host, config: FtsConfig, token: string, doc: seq<string>) {
    var again := h.tokenize(config.tokenizer, token);
    again != [] && HasAll(doc, again)
  }

  /** A one-token phrase agrees with the phrase filter on every text exactly when its token, tokenized
      again, is that token and nothing else. */
  lemma OneTokenPhrase(h: Host, config: FtsConfig, query: string, token: string)
    requires h.tokenize(config.tokenizer, query) == [token]
    ensures (forall text: string :: var doc := h.tokenize(config.tokenizer, text);
               Retokenized(h, config, token, doc) <==> HasWindow(doc, [token]))
            <==> (var again := h.tokenize(config.tokenizer, token); again != [] && forall t | t in again :: t == token)
  {
    hide HasWindow;
    var again := h.tokenize(config.tokenizer, token);
    forall doc: seq<string> ensures HasWindow(doc, [token]) <==> token in doc {
      WindowOfOne(doc, token);
    }
    if again != [] && forall t | t in again :: t == token {
      assert again[0] in again && again[0] == token;
    } else {
      assert token in [token];
      var own := h.tokenize(config.tokenizer, query);
      assert own == [token];
      if again != [] {
        var t :| t in again && t != token;
        assert t !in own;
      }
      assert !Retokenized(h, config, token, own);
      assert HasWindow(h.tokenize(config.tokenizer, query), [token]);
    }
  }

  lemma WindowOfOne(doc: seq<string>, token: string)
    ensures HasWindow(doc, [token]) <==> token in doc
  {
    if token in doc {
      var i :| 0 <= i < |doc| && doc[i] == token;
      assert doc[i..i + 1] == [token];
      assert WindowAt(doc, [token], i);
    }
    if HasWindow(doc, [token]) {
      var i :| 0 <= i <= |doc| && WindowAt(doc, [token], i);
      assert doc[i..i + 1][0] == doc[i];
    }
  }

  // ------------------------------------------------------------ fuzzy search

  predicate NearSome(doc: seq<string>, tokens: seq<string>, budget: nat) {
    exists t | t in tokens :: HasNear(doc, t, budget)
  }

  /** The filter asks for all tokens, and never matches a query without tokens. */
  predicate NearAll(doc: seq<string>, tokens: seq<string>, budget: nat -> nat) {
    tokens != [] && forall t | t in tokens :: HasNear(doc, t, budget(|t|))
  }

  /** The index's fuzzy search: any token of the query will do. */
  method Fuzzy(x: Index, tokens: seq<string>, budget: nat, ghost docs: seq<seq<string>>) returns (r: set<nat>)
    requires Indexes(x, docs, x.config)
    ensures forall o: nat :: o in r <==> o < |docs| && NearSome(docs[o], tokens, budget)
  {
    hide Indexes, HasNear;
    r := {};
    for i := 0 to |tokens|
      invariant forall o: nat :: o in r <==> o < |docs| && NearSome(docs[o], tokens[..i], budget)
    {
      var more := FuzzyToken(x, tokens[i], budget, docs);
      assert tokens[..i + 1] == tokens[..i] + [tokens[i]];
      forall o: nat | o < |docs|
        ensures NearSome(docs[o], tokens[..i + 1], budget) <==>
          NearSome(docs[o], tokens[..i], budget) || HasNear(docs[o], tokens[i], budget)
      {
        NearNext(docs[o], tokens[..i], tokens[i], budget);
      }
      r := r + more;
    }
    assert tokens[..|tokens|] == tokens;
  }

  lemma NearNext(doc: seq<string>, tokens: seq<string>, t: string, budget: nat)
    ensures NearSome(doc, tokens + [t], budget) <==> NearSome(doc, tokens, budget) || HasNear(doc, t, budget)
  {
    assert forall u :: u in tokens + [t] <==> u in tokens || u == t;
  }

  method FuzzyToken(x: Index, token: string, budget: nat, ghost docs: seq<seq<string>>) returns (r: set<nat>)
    requires Indexes(x, docs, x.config)
    ensures forall o: nat :: o in r <==> o < |docs| && HasNear(docs[o], token, budget)
  {
    hide Indexes;
    r := {};
    TermsAre(x, docs);
    var todo := x.terms.Keys;
    while todo != {}
      invariant todo <= x.terms.Keys
      invariant forall o: nat :: o in r <==>
        o < |docs| && exists d | d in docs[o] :: d !in todo && Levenshtein.Distance(d, token) <= budget
    {
      var term :| term in todo;
      todo := todo - {term};
      var near := Levenshtein.LevenshteinWithin(term, token, budget);
      forall o: nat ensures o in OrdinalsOf(x.terms[term]) <==> o < |docs| && term in docs[o] {
        OrdinalsAre(x, docs, term, o);
      }
      if near {
        r := r + OrdinalsOf(x.terms[term]);
      }
    }
  }

  lemma TermsAre(x: Index, docs: seq<seq<string>>)
    requires Indexes(x, docs, x.config)
    ensures forall o, t | 0 <= o < |docs| && t in docs[o] :: t in x.terms
  {
  }

  // ------------------------------------------------------------ any token against all tokens

  predicate AllSame(tokens: seq<string>) {
    forall t, u | t in tokens && u in tokens :: t == u
  }

  /** The index and the filter accept the same documents, whatever they are. */
  ghost predicate FuzzyAgree(tokens: seq<string>, budget: nat, filter: nat -> nat) {
    forall doc: seq<string> :: NearSome(doc, tokens, budget) <==> NearAll(doc, tokens, filter)
  }

  lemma NearOne(d: string, t: string, budget: nat)
    ensures HasNear([d], t, budget) <==> Levenshtein.Distance(d, t) <= budget
  {
    assert d in [d];
  }

  /** Of two distinct tokens the longer one, padded by the index's budget, is near itself and not near the
      other: so the filter's budget for the other must be larger. */
  lemma DistinctNeedsMore(tokens: seq<string>, budget: nat, filter: nat -> nat, t: string, u: string)
    requires FuzzyAgree(tokens, budget, filter) && t in tokens && u in tokens && t != u && |t| >= |u|
    ensures filter(|u|) > budget
  {
    var d := Levenshtein.Padded(t, Levenshtein.NotLast(u), budget);
    Levenshtein.PaddedIsFarther(t, u, budget);
    NearOne(d, t, budget);
    NearOne(d, u, filter(|u|));
    assert NearSome([d], tokens, budget);
    assert NearAll([d], tokens, filter);
  }

  lemma SameTokens(doc: seq<string>, tokens: seq<string>, budget: nat, filter: nat -> nat)
    requires tokens != [] && AllSame(tokens)
    ensures NearSome(doc, tokens, budget) <==> HasNear(doc, tokens[0], budget)
    ensures NearAll(doc, tokens, filter) <==> HasNear(doc, tokens[0], filter(|tokens[0]|))
  {
    assert tokens[0] in tokens;
  }

  lemma WiderSeesMore(t: string, small: nat, large: nat)
    requires small < large
    ensures !HasNear([Levenshtein.Padded(t, 'a', large)], t, small) &&
      HasNear([Levenshtein.Padded(t, 'a', large)], t, large)
  {
    Levenshtein.PaddedDistance(t, 'a', large);
    NearOne(Levenshtein.Padded(t, 'a', large), t, small);
    NearOne(Levenshtein.Padded(t, 'a', large), t, large);
  }

  /** The index asks for any token, the filter for all: given one budget they agree on every document exactly
      when the query's tokens are all the same. */
  lemma FuzzyAgreement(tokens: seq<string>, budget: nat)
    ensures FuzzyAgree(tokens, budget, _ => budget) <==> AllSame(tokens)
  {
    hide HasNear;
    var same: nat -> nat := _ => budget;
    if AllSame(tokens) && tokens != [] {
      forall doc: seq<string> ensures NearSome(doc, tokens, budget) <==> NearAll(doc, tokens, same) {
        SameTokens(doc, tokens, budget, same);
      }
    }
    if FuzzyAgree(tokens, budget, same) && !AllSame(tokens) {
      var t, u :| t in tokens && u in tokens && t != u;
      DistinctNeedsMore(tokens, budget, same, if |t| >= |u| then t else u, if |t| >= |u| then u else t);
      assert false;
    }
  }

  /** The document that tells any two distinct tokens apart: the longer one, padded by the budget. */
  lemma FuzzyDisagreesOn(tokens: seq<string>, budget: nat, t: string, u: string)
    requires t in tokens && u in tokens && t != u && |t| >= |u|
    ensures var doc := [Levenshtein.Padded(t, Levenshtein.NotLast(u), budget)];
      NearSome(doc, tokens, budget) && !NearAll(doc, tokens, _ => budget)
  {
    var d := Levenshtein.Padded(t, Levenshtein.NotLast(u), budget);
    Levenshtein.PaddedIsFarther(t, u, budget);
    NearOne(d, t, budget);
    NearOne(d, u, budget);
  }

  // ------------------------------------------------------------ the filter's own budgets

  const BUDGETS: nat -> nat := n => EditBudget(n)

  /** A word within one edit of `t` that is too long or too short to be one of the tokens. */
  function Neighbour(t: string, longest: nat): string
    requires t != []
  {
    if |t| == longest then Levenshtein.Padded(t, 'a', 1) else Levenshtein.Init(t)
  }

  lemma NeighbourIsNear(t: string, longest: nat)
    requires t != [] && |t| <= longest
    ensures Levenshtein.Distance(Neighbour(t, longest), t) <= 1
    ensures |Neighbour(t, longest)| == if |t| == longest then longest + 1 else |t| - 1
  {
    if |t| == longest {
      Levenshtein.PaddedDistance(t, 'a', 1);
      Levenshtein.PaddedInit(t, 'a', 1);
    } else {
      Levenshtein.DistanceSelf(Levenshtein.Init(t));
      ShorterByOne(t);
    }
  }

  lemma ShorterByOne(t: string)
    requires t != []
    ensures Levenshtein.Distance(Levenshtein.Init(t), t) <= 1
  {
    Levenshtein.DistanceSelf(Levenshtein.Init(t));
    if |t| > 1 {
      assert Levenshtein.Distance(Levenshtein.Init(t), t) <= Levenshtein.Distance(Levenshtein.Init(t),
          Levenshtein.Init(t)) + 1;
    }
  }

  function Longest(tokens: seq<string>): (r: nat)
    ensures forall t | t in tokens :: |t| <= r
    ensures tokens != [] ==> exists t | t in tokens :: |t| == r
  {
    if tokens == [] then 0
    else
      var rest := Longest(tokens[1..]);
      assert tokens[0] in tokens && forall t | t in tokens[1..] :: t in tokens;
      if tokens[1..] == [] || |tokens[0]| >= rest then |tokens[0]| else rest
  }

  /** With the filter's budgets, two distinct tokens must be long, one edit apart, and searched exactly. */
  lemma DistinctTokensAreClose(tokens: seq<string>, budget: nat, t: string, u: string)
    requires FuzzyAgree(tokens, budget, BUDGETS) && t in tokens && u in tokens && t != u
    ensures budget == 0 && |t| >= 6 && |u| >= 6 && Levenshtein.Distance(t, u) <= 1
    ensures -1 <= |t| - |u| <= 1
  {
    if |t| >= |u| {
      DistinctNeedsMore(tokens, budget, BUDGETS, t, u);
    } else {
      DistinctNeedsMore(tokens, budget, BUDGETS, u, t);
    }
    Levenshtein.DistanceSelf(t);
    NearOne(t, t, budget);
    NearOne(t, u, EditBudget(|u|));
    assert NearSome([t], tokens, budget);
    assert NearAll([t], tokens, BUDGETS);
    assert HasNear([t], u, BUDGETS(|u|));
    Levenshtein.LengthGap(t, u);
  }

  /** A document of near misses, one for each token: the filter accepts it and an exact search does not. */
  lemma NearMisses(tokens: seq<string>, longest: nat) returns (doc: seq<string>)
    requires tokens != [] && (forall t | t in tokens :: 6 <= |t| && longest - 1 <= |t| <= longest)
    ensures NearAll(doc, tokens, BUDGETS) && !NearSome(doc, tokens, 0)
  {
    hide Neighbour;
    doc := seq(|tokens|, i requires 0 <= i < |tokens| => Neighbour(tokens[i], longest));
    forall t | t in tokens ensures HasNear(doc, t, BUDGETS(|t|)) {
      var i :| 0 <= i < |tokens| && tokens[i] == t;
      NeighbourIsNear(t, longest);
      assert doc[i] in doc && Levenshtein.Distance(doc[i], t) <= BUDGETS(|t|);
    }
    forall t | t in tokens ensures !HasNear(doc, t, 0) {
      forall i | 0 <= i < |doc| ensures Levenshtein.Distance(doc[i], t) > 0 {
        NeighbourIsNear(tokens[i], longest);
        Levenshtein.ZeroIsSame(doc[i], t);
      }
    }
  }

  lemma DistinctTokensDisagree(tokens: seq<string>, budget: nat)
    requires !AllSame(tokens)
    ensures !FuzzyAgree(tokens, budget, BUDGETS)
  {
    if FuzzyAgree(tokens, budget, BUDGETS) {
      var longest := Longest(tokens);
      var w :| w in tokens && |w| == longest;
      forall t | t in tokens ensures 6 <= |t| && longest - 1 <= |t| <= longest {
        if t != w {
          DistinctTokensAreClose(tokens, budget, t, w);
        } else {
          var u :| u in tokens && u != w;
          DistinctTokensAreClose(tokens, budget, w, u);
        }
      }
      var a, b :| a in tokens && b in tokens && a != b;
      DistinctTokensAreClose(tokens, budget, a, b);
      var doc := NearMisses(tokens, longest);
      assert false;
    }
  }

  /** The filter's budget follows each token's length, the index is given one: they agree on every document
      exactly when the tokens are all the same and the index is given that token's budget. */
  lemma FilterAgreement(tokens: seq<string>, budget: nat)
    ensures FuzzyAgree(tokens, budget, BUDGETS) <==>
            AllSame(tokens) && (tokens != [] ==> budget == EditBudget(|tokens[0]|))
  {
    hide HasNear;
    if !AllSame(tokens) {
      DistinctTokensDisagree(tokens, budget);
    } else if tokens != [] {
      var own := EditBudget(|tokens[0]|);
      if budget == own {
        forall doc: seq<string> ensures NearSome(doc, tokens, budget) <==> NearAll(doc, tokens, BUDGETS) {
          SameTokens(doc, tokens, budget, BUDGETS);
        }
      } else {
        var wider := if budget < own then own else budget;
        var doc := [Levenshtein.Padded(tokens[0], 'a', wider)];
        WiderSeesMore(tokens[0], if budget < own then budget else own, wider);
        SameTokens(doc, tokens, budget, BUDGETS);
        assert !(NearSome(doc, tokens, budget) <==> NearAll(doc, tokens, BUDGETS));
      }
    }
  }
}
