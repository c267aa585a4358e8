/**
 * The in-process BM25 leg of retrieval (backend/app/services/keyword_search.py).
 *
 * The tokeniser and the natural logarithm are parameters. Of the logarithm only `ln(x) > 0` for
 * `x > 1` is used.
 */
module KeywordSearch {
  import opened Wrappers
  import opened Store
  import opened Ranking
  import opened Sequences

  const K1: real := 1.5
  const B: real := 0.75

  /** The logarithm and the tokeniser. */
  datatype Lexicon = Lexicon(ln: real -> real, tokens: string -> seq<string>, isBlank: string -> bool)

  ghost predicate LogLaw(lex: Lexicon) {
    forall x: real :: x > 1.0 ==> lex.ln(x) > 0.0
  }

  type Docs = seq<seq<string>>

  /** `[_tokenize(...) for c in chunks]`. */
  function TokensOf(lex: Lexicon, chunks: seq<ChunkRow>): (docs: Docs)
    ensures |docs| == |chunks|
    ensures forall i | 0 <= i < |chunks| :: docs[i] == lex.tokens(chunks[i].text)
  {
    seq(|chunks|, i requires 0 <= i < |chunks| => lex.tokens(chunks[i].text))
  }

  function Terms(toks: seq<string>): set<string> {
    set t | t in toks
  }

  /** `Counter(toks)[term]`. */
  function Freq(toks: seq<string>, term: string): nat {
    multiset(toks)[term]
  }

  function TotalLength(docs: Docs): nat {
    if docs == [] then 0 else TotalLength(docs[..|docs| - 1]) + |docs[|docs| - 1]|
  }

  /** `(sum(doc_lens) / len(doc_lens)) or 1.0`. */
  function AvgLength(docs: Docs): (avg: real)
    requires docs != []
    ensures avg > 0.0
  {
    var mean := TotalLength(docs) as real / |docs| as real;
    if mean == 0.0 then 1.0 else mean
  }

  /** How many documents contain the term. */
  function DocFreq(docs: Docs, term: string): (n: nat)
    ensures n <= |docs|
    ensures (exists i | 0 <= i < |docs| :: term in docs[i]) ==> n >= 1
  {
    if docs == [] then 0
    else DocFreq(docs[..|docs| - 1], term) + if term in docs[|docs| - 1] then 1 else 0
  }

  /** `math.log(1 + (n_docs - df + 0.5) / (df + 0.5))`. */
  function Idf(lex: Lexicon, nDocs: nat, df: nat): real {
    lex.ln(1.0 + (nDocs as real - df as real + 0.5) / (df as real + 0.5))
  }

  /** `_K1 * (1 - _B + _B * dl / avgdl)`, the length part of the denominator. */
  function LengthNorm(dl: nat, avgdl: real): (norm: real)
    requires avgdl > 0.0
    ensures norm > 0.0
  {
    var share := B * dl as real / avgdl;
    assert share >= 0.0;
    K1 * (1.0 - B + share)
  }

  /** `idf * (freq * (_K1 + 1)) / denom`. */
  function Contribution(idf: real, freq: nat, norm: real): real
    requires norm > 0.0
  {
    idf * (freq as real * (K1 + 1.0)) / (freq as real + norm)
  }

  /** What one matched term adds to a chunk's score. */
  function TermScore(lex: Lexicon, docs: Docs, toks: seq<string>, term: string): real
    requires docs != []
  {
    Contribution(Idf(lex, |docs|, DocFreq(docs, term)), Freq(toks, term), LengthNorm(|toks|, AvgLength(docs)))
  }

  /** The sum over a set of terms, in any order. */
  ghost function SumTerms(lex: Lexicon, docs: Docs, toks: seq<string>, terms: set<string>): real
    requires docs != []
  {
    if terms == {} then 0.0
    else
      var t :| t in terms;
      TermScore(lex, docs, toks, t) + SumTerms(lex, docs, toks, terms - {t})
  }

  /** The BM25 score of a chunk: the sum over the query terms it contains. */
  ghost function Score(lex: Lexicon, docs: Docs, toks: seq<string>, query: set<string>): real
    requires docs != []
  {
    SumTerms(lex, docs, toks, query * Terms(toks))
  }

  /** The chunks with a positive score, in row order. */
  ghost function Kept(lex: Lexicon, docs: Docs, chunks: seq<ChunkRow>, query: set<string>): seq<Ranked<ChunkRow>>
    requires docs != [] && |chunks| <= |docs|
  {
    if chunks == [] then []
    else
      var last := |chunks| - 1;
      var score := Score(lex, docs, docs[last], query);
      Kept(lex, docs, chunks[..last], query) + if score > 0.0 then [Ranked(chunks[last], score)] else []
  }

  /** `_search_python` as a function of the visible chunks. */
  ghost function Hits(lex: Lexicon, chunks: seq<ChunkRow>, query: string, limit: nat): seq<Ranked<ChunkRow>> {
    if chunks == [] then []
    else Take(Sort(Kept(lex, TokensOf(lex, chunks), chunks, Terms(lex.tokens(query)))), limit)
  }

  // ---------- The loops ----------

  /** The document-frequency loop: one count per distinct term of each document. */
  method CountDocuments(docs: Docs) returns (df: map<string, nat>)
    ensures forall t :: (t in df <==> DocFreq(docs, t) > 0) && (t in df ==> df[t] == DocFreq(docs, t))
  {
    df := map[];
    for i := 0 to |docs|
      invariant forall t :: (t in df <==> DocFreq(docs[..i], t) > 0) && (t in df ==> df[t] == DocFreq(docs[..i], t))
    {
      ghost var before := df;
      var terms := Terms(docs[i]);
      var rest := terms;
      while rest != {}
        invariant rest <= terms
        invariant forall t :: t in df <==> t in before || t in terms - rest
        invariant forall t | t in df ::
            df[t] == (if t in before then before[t] else 0) + if t in terms - rest then 1 else 0
      {
        var t :| t in rest;
        df := df[t := (if t in df then df[t] else 0) + 1];
        rest := rest - {t};
      }
      assert docs[..i + 1][..i] == docs[..i];
    }
    assert docs[..|docs|] == docs;
  }

  /** The inner scoring loop: the query terms are visited in no particular order. */
  method ScoreChunk(lex: Lexicon, docs: Docs, df: map<string, nat>, toks: seq<string>, query: set<string>)
    returns (score: real)
    requires docs != [] && toks in docs
    requires forall t :: (t in df <==> DocFreq(docs, t) > 0) && (t in df ==> df[t] == DocFreq(docs, t))
    ensures score == Score(lex, docs, toks, query)
  {
    score := 0.0;
    var present := Terms(toks);
    var avgdl := AvgLength(docs);
    var rest := query;
    while rest != {}
      invariant rest <= query
      invariant score == SumTerms(lex, docs, toks, (query - rest) * present)
    {
      var term :| term in rest;
      ghost var done := (query - rest) * present;
      rest := rest - {term};
      if term in present {
        assert (query - rest) * present == done + {term};
        SumTermsAdd(lex, docs, toks, done, term);
        assert DocFreq(docs, term) > 0;
        var idf := Idf(lex, |docs|, df[term]);
        score := score + Contribution(idf, Freq(toks, term), LengthNorm(|toks|, avgdl));
      } else {
        assert (query - rest) * present == done;
      }
    }
    assert query - {} == query;
  }

  /** The outer scoring loop: chunks with a positive score are appended in row order. */
  method ScoreChunks(lex: Lexicon, docs: Docs, df: map<string, nat>, chunks: seq<ChunkRow>, query: set<string>)
    returns (scored: seq<Ranked<ChunkRow>>)
    requires docs != [] && |docs| == |chunks|
    requires forall t :: (t in df <==> DocFreq(docs, t) > 0) && (t in df ==> df[t] == DocFreq(docs, t))
    ensures scored == Kept(lex, docs, chunks, query)
  {
    scored := [];
    for i := 0 to |chunks|
      invariant scored == Kept(lex, docs, chunks[..i], query)
    {
      var score := ScoreChunk(lex, docs, df, docs[i], query);
      assert chunks[..i + 1][..i] == chunks[..i];
      if score > 0.0 {
        scored := scored + [Ranked(chunks[i], score)];
      }
    }
    assert chunks[..|chunks|] == chunks;
  }

  /** `_search_python`. */
  method SearchPython(lex: Lexicon, rows: seq<ChunkRow>, tenant: Uuid, allowed: Access, query: string, limit: nat)
    returns (hits: seq<Ranked<ChunkRow>>)
    ensures hits == Hits(lex, Visible(rows, tenant, allowed), query, limit)
  {
    var chunks := Visible(rows, tenant, allowed);
    if chunks == [] {
      return [];
    }
    var docs := TokensOf(lex, chunks);
    var df := CountDocuments(docs);
    var scored := ScoreChunks(lex, docs, df, chunks, Terms(lex.tokens(query)));
    return Take(Sort(scored), limit);
  }

  /** The guards of `search`: a blank query and deny-all find nothing. */
  ghost function Search(lex: Lexicon, rows: seq<ChunkRow>, tenant: Uuid, allowed: Access, query: string, limit: nat)
    : seq<Ranked<ChunkRow>>
  {
    if lex.isBlank(query) || DeniesAll(allowed) then []
    else Hits(lex, Visible(rows, tenant, allowed), query, limit)
  }

  /** `search` off PostgreSQL. */
  method SearchChunks(lex: Lexicon, rows: seq<ChunkRow>, tenant: Uuid, allowed: Access, query: string, limit: nat)
    returns (hits: seq<Ranked<ChunkRow>>)
    ensures hits == Search(lex, rows, tenant, allowed, query, limit)
  {
    if lex.isBlank(query) {
      return [];
    }
    if DeniesAll(allowed) {
      return [];
    }
    hits := SearchPython(lex, rows, tenant, allowed, query, limit);
  }

  // ---------- Sums over sets ----------

  lemma {:induction false} SumTermsRemove(lex: Lexicon, docs: Docs, toks: seq<string>, terms: set<string>, t: string)
    requires docs != [] && t in terms
    ensures SumTerms(lex, docs, toks, terms) == TermScore(lex, docs, toks, t) + SumTerms(lex, docs, toks, terms - {t})
    decreases terms
  {
    var u :| u in terms && SumTerms(lex, docs, toks, terms)
                        == TermScore(lex, docs, toks, u) + SumTerms(lex, docs, toks, terms - {u});
    if u != t {
      SumTermsRemove(lex, docs, toks, terms - {u}, t);
      SumTermsRemove(lex, docs, toks, terms - {t}, u);
      assert terms - {u} - {t} == terms - {t} - {u};
    }
  }

  lemma {:induction false} SumTermsAdd(lex: Lexicon, docs: Docs, toks: seq<string>, terms: set<string>, t: string)
    requires docs != [] && t !in terms
    ensures SumTerms(lex, docs, toks, terms + {t}) == SumTerms(lex, docs, toks, terms) + TermScore(lex, docs, toks, t)
  {
    SumTermsRemove(lex, docs, toks, terms + {t}, t);
    assert terms + {t} - {t} == terms;
  }

  // ---------- What BM25 keeps ----------

  /** The chunk shares a term with the query. */
  predicate Matches(toks: seq<string>, query: set<string>) {
    query * Terms(toks) != {}
  }

  /** A term of some document has an inverse document frequency above zero. */
  lemma {:induction false} IdfPositive(lex: Lexicon, docs: Docs, toks: seq<string>, term: string)
    requires LogLaw(lex) && toks in docs && term in toks
    ensures 1 <= DocFreq(docs, term) <= |docs|
    ensures Idf(lex, |docs|, DocFreq(docs, term)) > 0.0
  {
    var i :| 0 <= i < |docs| && docs[i] == toks;
    var n, df := |docs| as real, DocFreq(docs, term) as real;
    PositiveRatio(n - df + 0.5, df + 0.5);
  }

  lemma {:induction false} PositiveRatio(a: real, b: real)
    requires a > 0.0 && b > 0.0
    ensures a / b > 0.0
  {
  }

  lemma {:induction false} ContributionBounds(idf: real, freq: nat, norm: real)
    requires idf > 0.0 && freq > 0 && norm > 0.0
    ensures 0.0 < Contribution(idf, freq, norm) < (K1 + 1.0) * idf
  {
    var f := freq as real;
    var share := f / (f + norm);
    ShareBounds(f, norm);
    var top := idf * (K1 + 1.0);
    assert idf * (f * (K1 + 1.0)) == top * f;
    DivideProduct(top, f, f + norm);
    assert Contribution(idf, freq, norm) == top * share;
    ScaleLess(top, 0.0, share);
    ScaleLess(top, share, 1.0);
    assert top * 1.0 == top == (K1 + 1.0) * idf;
  }

  lemma {:induction false} ShareBounds(f: real, norm: real)
    requires f > 0.0 && norm > 0.0
    ensures 0.0 < f / (f + norm) < 1.0
  {
    PositiveRatio(f, f + norm);
    PositiveRatio(norm, f + norm);
    assert f / (f + norm) + norm / (f + norm) == (f + norm) / (f + norm) == 1.0;
  }

  lemma {:induction false} DivideProduct(a: real, b: real, c: real)
    requires c > 0.0
    ensures (a * b) / c == a * (b / c)
  {
  }

  lemma {:induction false} ScaleLess(c: real, x: real, y: real)
    requires c > 0.0 && x < y
    ensures c * x < c * y
  {
  }

  /** The inverse document frequencies of a set of terms, summed. */
  ghost function SumIdf(lex: Lexicon, docs: Docs, terms: set<string>): real {
    if terms == {} then 0.0
    else
      var t :| t in terms;
      Idf(lex, |docs|, DocFreq(docs, t)) + SumIdf(lex, docs, terms - {t})
  }

  lemma {:induction false} SumIdfRemove(lex: Lexicon, docs: Docs, terms: set<string>, t: string)
    requires t in terms
    ensures SumIdf(lex, docs, terms) == Idf(lex, |docs|, DocFreq(docs, t)) + SumIdf(lex, docs, terms - {t})
    decreases terms
  {
    var u :| u in terms
        && SumIdf(lex, docs, terms) == Idf(lex, |docs|, DocFreq(docs, u)) + SumIdf(lex, docs, terms - {u});
    if u != t {
      SumIdfRemove(lex, docs, terms - {u}, t);
      SumIdfRemove(lex, docs, terms - {t}, u);
      assert terms - {u} - {t} == terms - {t} - {u};
    }
  }

  lemma {:induction false} SumBounds(lex: Lexicon, docs: Docs, toks: seq<string>, terms: set<string>)
    requires LogLaw(lex) && toks in docs && terms <= Terms(toks) && terms != {}
    ensures 0.0 < SumTerms(lex, docs, toks, terms) < (K1 + 1.0) * SumIdf(lex, docs, terms)
    decreases terms
  {
    var t :| t in terms;
    SumTermsRemove(lex, docs, toks, terms, t);
    SumIdfRemove(lex, docs, terms, t);
    IdfPositive(lex, docs, toks, t);
    ContributionBounds(Idf(lex, |docs|, DocFreq(docs, t)), Freq(toks, t), LengthNorm(|toks|, AvgLength(docs)));
    if terms - {t} != {} {
      SumBounds(lex, docs, toks, terms - {t});
    }
  }

  /**
   * Every matching chunk scores above zero and below `k1 + 1` times the sum of its matched terms'
   * inverse document frequencies; every other chunk scores zero.
   */
  lemma {:induction false} ScoreBounds(lex: Lexicon, docs: Docs, toks: seq<string>, query: set<string>)
    requires LogLaw(lex) && toks in docs
    ensures Score(lex, docs, toks, query) > 0.0 <==> Matches(toks, query)
    ensures Matches(toks, query) ==> Score(lex, docs, toks, query) < (K1 + 1.0) * SumIdf(lex, docs, query * Terms(toks))
  {
    if Matches(toks, query) {
      SumBounds(lex, docs, toks, query * Terms(toks));
    }
  }

  /** The chunks that share a query term, each with its score, in row order. */
  ghost function Matching(lex: Lexicon, docs: Docs, chunks: seq<ChunkRow>, query: set<string>): seq<Ranked<ChunkRow>>
    requires docs != [] && |chunks| <= |docs|
  {
    if chunks == [] then []
    else
      var last := |chunks| - 1;
      Matching(lex, docs, chunks[..last], query)
        + if Matches(docs[last], query) then [Ranked(chunks[last], Score(lex, docs, docs[last], query))] else []
  }

  lemma {:induction false} KeptIsMatching(lex: Lexicon, docs: Docs, chunks: seq<ChunkRow>, query: set<string>)
    requires LogLaw(lex) && docs != [] && |chunks| <= |docs|
    ensures Kept(lex, docs, chunks, query) == Matching(lex, docs, chunks, query)
  {
    if chunks != [] {
      KeptIsMatching(lex, docs, chunks[..|chunks| - 1], query);
      ScoreBounds(lex, docs, docs[|chunks| - 1], query);
    }
  }

  /**
   * BM25 keeps exactly the visible chunks that share a query term, then returns the stable top
   * `limit` of them.
   */
  lemma {:induction false} HitsAreTopMatches(lex: Lexicon, chunks: seq<ChunkRow>, query: string, limit: nat)
    requires LogLaw(lex) && chunks != []
    ensures var kept := Matching(lex, TokensOf(lex, chunks), chunks, Terms(lex.tokens(query)));
            && Hits(lex, chunks, query, limit) == Take(Sort(kept), limit)
            && Descending(Sort(kept)) && multiset(Sort(kept)) == multiset(kept)
            && (forall v :: AtScore(Sort(kept), v) == AtScore(kept, v))
  {
    var kept := Matching(lex, TokensOf(lex, chunks), chunks, Terms(lex.tokens(query)));
    KeptIsMatching(lex, TokensOf(lex, chunks), chunks, Terms(lex.tokens(query)));
    SortOrders(kept);
    forall v ensures AtScore(Sort(kept), v) == AtScore(kept, v) {
      SortIsStable(kept, v);
    }
  }

  /** Kept rows are visible rows, each at most once. */
  lemma {:induction false} KeptMembers(lex: Lexicon, docs: Docs, chunks: seq<ChunkRow>, query: set<string>)
    requires docs != [] && |chunks| <= |docs| && UniqueIds(chunks)
    ensures forall h <- Kept(lex, docs, chunks, query) :: h.item in chunks && h.score > 0.0
    ensures DistinctItems(Kept(lex, docs, chunks, query))
  {
    if chunks != [] {
      KeptMembers(lex, docs, chunks[..|chunks| - 1], query);
    }
  }

  /** No chunk id occurs twice in a ranked list. */
  predicate DistinctItems(s: seq<Ranked<ChunkRow>>) {
    forall i, j | 0 <= i < j < |s| :: s[i].item.id != s[j].item.id
  }
}
