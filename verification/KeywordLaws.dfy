/**
 * How BM25 weighs (backend/app/services/keyword_search.py): the value of a matched term, how terms add up,
 * and which of two chunks comes first.
 */
module KeywordLaws {
  import opened Wrappers
  import opened Store
  import opened Ranking
  import opened Sequences
  import opened KeywordSearch

  /** The logarithm is strictly increasing. */
  ghost predicate Increasing(lex: Lexicon) {
    forall x: real, y: real :: 0.0 < x < y ==> lex.ln(x) < lex.ln(y)
  }

  // ---------- The value of one matched term ----------

  /** The documents that contain a term. */
  ghost function Containing(docs: Docs, term: string): set<int> {
    set i | 0 <= i < |docs| && term in docs[i]
  }

  lemma {:induction false} DocFreqCounts(docs: Docs, term: string)
    ensures DocFreq(docs, term) == |Containing(docs, term)|
  {
    if docs != [] {
      var n := |docs| - 1;
      DocFreqCounts(docs[..n], term);
      var before, all := Containing(docs[..n], term), Containing(docs, term);
      assert all == before + if term in docs[n] then {n} else {};
    }
  }

  lemma {:induction false} TotalIsLength(docs: Docs)
    ensures TotalLength(docs) == |Concat(docs)|
  {
    if docs != [] {
      TotalIsLength(docs[..|docs| - 1]);
    }
  }

  lemma {:induction false} PartOfConcat(docs: Docs, toks: seq<string>)
    requires toks in docs
    ensures |toks| <= |Concat(docs)|
  {
    var front, last := docs[..|docs| - 1], docs[|docs| - 1];
    if toks != last {
      assert docs == front + [last];
      PartOfConcat(front, toks);
    }
  }

  /**
   * The BM25 formula: what a term contributes that occurs `f` times in a document of `dl` tokens and in `df`
   * of `n` documents, whose average length is `avg`.
   */
  function Formula(lex: Lexicon, n: int, df: int, f: int, dl: int, avg: real): real
    requires df >= 0 && f > 0 && dl >= 0 && avg > 0.0
  {
    assert dl as real / avg >= 0.0;
    var share := 0.75 * (dl as real / avg);
    lex.ln(1.0 + (n as real - df as real + 0.5) / (df as real + 0.5)) * (f as real * 2.5)
      / (f as real + 1.5 * (0.25 + share))
  }

  /** The average number of tokens. */
  function Average(docs: Docs): real
    requires docs != []
  {
    |Concat(docs)| as real / |docs| as real
  }

  lemma {:induction false} AverageIsPositive(docs: Docs, toks: seq<string>, term: string)
    requires toks in docs && term in toks
    ensures Average(docs) > 0.0 && AvgLength(docs) == Average(docs)
  {
    TotalIsLength(docs);
    PartOfConcat(docs, toks);
    PositiveRatio(|Concat(docs)| as real, |docs| as real);
  }

  /** What the query term adds to the score of a document that contains it. */
  lemma {:induction false} TermValue(lex: Lexicon, docs: Docs, toks: seq<string>, term: string)
    requires toks in docs && term in toks
    ensures Average(docs) > 0.0 && multiset(toks)[term] > 0
    ensures TermScore(lex, docs, toks, term)
         == Formula(lex, |docs|, |Containing(docs, term)|, multiset(toks)[term], |toks|, Average(docs))
  {
    AverageIsPositive(docs, toks, term);
    DocFreqCounts(docs, term);
    SameShare(|toks| as real, Average(docs));
  }

  lemma {:induction false} SameShare(dl: real, avg: real)
    requires avg > 0.0
    ensures B * dl / avg == 0.75 * (dl / avg)
  {
  }

  /** A query that matches in one term scores what the formula says. */
  lemma {:induction false} OneTermScore(lex: Lexicon, docs: Docs, toks: seq<string>, query: set<string>, term: string)
    requires toks in docs && query * Terms(toks) == {term}
    ensures term in toks && Average(docs) > 0.0 && multiset(toks)[term] > 0
    ensures Score(lex, docs, toks, query)
         == Formula(lex, |docs|, |Containing(docs, term)|, multiset(toks)[term], |toks|, Average(docs))
  {
    assert term in query * Terms(toks);
    SumTermsRemove(lex, docs, toks, {term}, term);
    assert {term} - {term} == {};
    TermValue(lex, docs, toks, term);
  }

  /** Scores of disjoint queries add up, and a query without a matching term scores nothing. */
  lemma {:induction false} ScoresAdd(lex: Lexicon, docs: Docs, toks: seq<string>, a: set<string>, b: set<string>)
    requires docs != [] && a !! b
    ensures Score(lex, docs, toks, a + b) == Score(lex, docs, toks, a) + Score(lex, docs, toks, b)
    ensures a * Terms(toks) == {} ==> Score(lex, docs, toks, a) == 0.0
  {
    var present := Terms(toks);
    assert (a + b) * present == a * present + b * present;
    SumOfUnion(lex, docs, toks, a * present, b * present);
  }

  lemma {:induction false} SumOfUnion(lex: Lexicon, docs: Docs, toks: seq<string>, a: set<string>, b: set<string>)
    requires docs != [] && a !! b
    ensures SumTerms(lex, docs, toks, a + b) == SumTerms(lex, docs, toks, a) + SumTerms(lex, docs, toks, b)
    decreases b
  {
    if b == {} {
      assert a + b == a;
    } else {
      var t :| t in b;
      SumTermsRemove(lex, docs, toks, a + b, t);
      SumTermsRemove(lex, docs, toks, b, t);
      assert a + b - {t} == a + (b - {t});
      SumOfUnion(lex, docs, toks, a, b - {t});
    }
  }

  // ---------- Which of two chunks comes first ----------

  lemma {:induction false} RarerWeighsMore(lex: Lexicon, n: int, few: int, many: int)
    requires Increasing(lex) && 0 <= few < many <= n
    ensures lex.ln(1.0 + (n as real - few as real + 0.5) / (few as real + 0.5))
          > lex.ln(1.0 + (n as real - many as real + 0.5) / (many as real + 0.5))
  {
    var a, b := few as real, many as real;
    Smaller(n as real - b + 0.5, b + 0.5, n as real - a + 0.5, a + 0.5);
    PositiveRatio(n as real - b + 0.5, b + 0.5);
  }

  /** A smaller dividend over a larger divisor. */
  lemma {:induction false} Smaller(x: real, d: real, y: real, e: real)
    requires 0.0 < x < y && 0.0 < e < d
    ensures x / d < y / e
  {
    var p, q := x / d, y / e;
    assert p * d == x && q * e == y;
    PositiveRatio(x, d);
    ScaleLess(p, e, d);
    if q <= p {
      ScaleAtMost(e, q, p);
    }
  }

  lemma {:induction false} ScaleAtMost(c: real, x: real, y: real)
    requires c > 0.0 && x <= y
    ensures x * c <= y * c
  {
  }

  lemma {:induction false} Product(w: real, x: real, d: real)
    requires d > 0.0
    ensures w * x / d == w * (x / d)
  {
  }

  /** How rare a term is. */
  function Weight(lex: Lexicon, n: int, df: int): real
    requires df >= 0
  {
    lex.ln(1.0 + (n as real - df as real + 0.5) / (df as real + 0.5))
  }

  function Damping(dl: int, avg: real): real
    requires avg > 0.0
  {
    1.5 * (0.25 + 0.75 * (dl as real / avg))
  }

  lemma {:induction false} FormulaFactors(lex: Lexicon, n: int, df: int, f: int, dl: int, avg: real)
    requires df >= 0 && f > 0 && dl >= 0 && avg > 0.0
    ensures Damping(dl, avg) > 0.0
    ensures Formula(lex, n, df, f, dl, avg) == Weight(lex, n, df) * (f as real * 2.5 / (f as real + Damping(dl, avg)))
  {
    DampingOrder(dl, dl, avg);
    Product(Weight(lex, n, df), f as real * 2.5, f as real + Damping(dl, avg));
  }

  lemma {:induction false} WeightOrder(lex: Lexicon, n: int, df: int, df2: int)
    requires Increasing(lex) && LogLaw(lex) && 0 <= df <= df2 <= n
    ensures 0.0 < Weight(lex, n, df2) <= Weight(lex, n, df)
    ensures df < df2 ==> Weight(lex, n, df2) < Weight(lex, n, df)
  {
    PositiveRatio(n as real - df2 as real + 0.5, df2 as real + 0.5);
    if df < df2 {
      RarerWeighsMore(lex, n, df, df2);
    }
  }

  /**
   * For the same frequency and length the rarer term scores higher; for the same term and length the higher
   * frequency does; for the same term and frequency the shorter document does.
   */
  lemma {:induction false} FormulaOrder(lex: Lexicon, n: int, df: int, f: int, dl: int, avg: real, df2: int, f2: int,
                                        dl2: int)
    requires Increasing(lex) && LogLaw(lex) && avg > 0.0
    requires 0 <= df <= df2 <= n && 0 < f2 <= f && 0 <= dl <= dl2
    ensures Formula(lex, n, df, f, dl, avg) >= Formula(lex, n, df2, f2, dl2, avg)
    ensures df < df2 || f2 < f || dl < dl2 ==> Formula(lex, n, df, f, dl, avg) > Formula(lex, n, df2, f2, dl2, avg)
  {
    var c, c2 := Damping(dl, avg), Damping(dl2, avg);
    WeightOrder(lex, n, df, df2);
    DampingOrder(dl, dl2, avg);
    Saturation(f as real, c, f2 as real, c2);
    FormulaFactors(lex, n, df, f, dl, avg);
    FormulaFactors(lex, n, df2, f2, dl2, avg);
    Products(Weight(lex, n, df), f as real * 2.5 / (f as real + c), Weight(lex, n, df2),
             f2 as real * 2.5 / (f2 as real + c2));
  }

  lemma {:induction false} DampingOrder(dl: int, dl2: int, avg: real)
    requires avg > 0.0 && 0 <= dl <= dl2
    ensures 0.0 < Damping(dl, avg) <= Damping(dl2, avg)
    ensures dl < dl2 ==> Damping(dl, avg) < Damping(dl2, avg)
  {
    var x, y := dl as real / avg, dl2 as real / avg;
    assert x * avg == dl as real && y * avg == dl2 as real;
    if y < x {
      ScaleLess(avg, y, x);
    } else if y == x {
      assert dl == dl2;
    }
    if x < 0.0 {
      ScaleLess(avg, x, 0.0);
    }
  }

  /** More occurrences and less damping saturate more. */
  lemma {:induction false} Saturation(f: real, c: real, f2: real, c2: real)
    requires 0.0 < f2 <= f && 0.0 < c <= c2
    ensures f * 2.5 / (f + c) >= f2 * 2.5 / (f2 + c2) > 0.0
    ensures f2 < f || c < c2 ==> f * 2.5 / (f + c) > f2 * 2.5 / (f2 + c2)
  {
    PositiveRatio(f2 * 2.5, f2 + c2);
    var p, q := f2 * 2.5 / (f2 + c2), f * 2.5 / (f + c);
    assert p * (f2 + c2) == f2 * 2.5 && q * (f + c) == f * 2.5;
    Complement(f, c);
    Complement(f2, c2);
    RatioOrder(c, f, c2, f2);
    assert q == 2.5 - 2.5 * (c / (f + c)) && p == 2.5 - 2.5 * (c2 / (f2 + c2));
  }

  lemma {:induction false} Complement(f: real, c: real)
    requires f > 0.0 && c > 0.0
    ensures f * 2.5 / (f + c) == 2.5 - 2.5 * (c / (f + c))
  {
    var d := f + c;
    var x := c / d;
    assert x * d == c;
    assert (2.5 - 2.5 * x) * d == f * 2.5;
    DivideBack(2.5 - 2.5 * x, d, f * 2.5);
  }

  lemma {:induction false} DivideBack(x: real, d: real, y: real)
    requires d > 0.0 && x * d == y
    ensures y / d == x
  {
  }

  lemma {:induction false} RatioOrder(c: real, f: real, c2: real, f2: real)
    requires 0.0 < f2 <= f && 0.0 < c <= c2
    ensures c / (f + c) <= c2 / (f2 + c2)
    ensures f2 < f || c < c2 ==> c / (f + c) < c2 / (f2 + c2)
  {
    var x, y := c / (f + c), c2 / (f2 + c2);
    assert x * (f + c) == c && y * (f2 + c2) == c2;
    PositiveRatio(c, f + c);
    CrossProducts(c, f2, c2, f);
    assert c * (f2 + c2) - c2 * (f + c) == c * f2 - c2 * f;
    Cross(c, f + c, c2, f2 + c2);
  }

  lemma {:induction false} CrossProducts(c: real, f2: real, c2: real, f: real)
    requires 0.0 < f2 <= f && 0.0 < c <= c2
    ensures c * f2 <= c2 * f
    ensures f2 < f || c < c2 ==> c * f2 < c2 * f
  {
    Products(c2, f, c, f2);
  }

  /** Quotients compare as cross products do. */
  lemma {:induction false} Cross(x: real, d: real, y: real, e: real)
    requires d > 0.0 && e > 0.0
    ensures x * e <= y * d ==> x / d <= y / e
    ensures x * e < y * d ==> x / d < y / e
  {
    var p, q := x / d, y / e;
    assert p * d == x && q * e == y;
    assert p * (d * e) == x * e && q * (d * e) == y * d;
    PositiveProduct(d, e);
    if q <= p {
      ScaleAtMost(d * e, q, p);
      if q < p {
        ScaleLess(d * e, q, p);
      }
    }
  }

  lemma {:induction false} PositiveProduct(d: real, e: real)
    requires d > 0.0 && e > 0.0
    ensures d * e > 0.0
  {
  }

  lemma {:induction false} Products(w: real, s: real, w2: real, s2: real)
    requires 0.0 < w2 <= w && 0.0 < s2 <= s
    ensures w * s >= w2 * s2
    ensures w2 < w || s2 < s ==> w * s > w2 * s2
  {
    ScaleAtMost(s2, w2, w);
    ScaleAtMost(w, s2, s);
    if w2 < w {
      ScaleLess(s2, w2, w);
    }
    if s2 < s {
      ScaleLess(w, s2, s);
    }
  }

  /**
   * Of two chunks that each match the query in one term, the one whose term is in no more documents, occurs
   * no less often and stands in no longer a chunk never scores lower, and higher if any of the three is strict.
   */
  lemma {:induction false} BetterMatchScoresHigher(lex: Lexicon, docs: Docs, query: set<string>, a: seq<string>,
                                                   s: string, b: seq<string>, t: string)
    requires Increasing(lex) && LogLaw(lex) && a in docs && b in docs
    requires query * Terms(a) == {s} && query * Terms(b) == {t}
    requires |Containing(docs, s)| <= |Containing(docs, t)|
    requires multiset(a)[s] >= multiset(b)[t] && |a| <= |b|
    ensures (|Containing(docs, s)| < |Containing(docs, t)| || multiset(a)[s] > multiset(b)[t] || |a| < |b|) ==>
              Score(lex, docs, a, query) > Score(lex, docs, b, query)
    ensures Score(lex, docs, a, query) >= Score(lex, docs, b, query)
  {
    OneTermScore(lex, docs, a, query, s);
    OneTermScore(lex, docs, b, query, t);
    DocFreqCounts(docs, t);
    FormulaOrder(lex, |docs|, |Containing(docs, s)|, multiset(a)[s], |a|, Average(docs),
                 |Containing(docs, t)|, multiset(b)[t], |b|);
  }

  /**
   * The search as it runs, with the tokens of the visible chunks' texts as its documents: nothing for a blank query
   * or deny-all, else the stable top of the matching rows.
   */
  lemma {:induction false} SearchFindsMatches(lex: Lexicon, rows: seq<ChunkRow>, tenant: Uuid, allowed: Access,
                                              query: string, limit: nat, docs: Docs)
    requires LogLaw(lex) && |docs| == |Visible(rows, tenant, allowed)|
    requires forall i | 0 <= i < |docs| :: docs[i] == lex.tokens(Visible(rows, tenant, allowed)[i].text)
    ensures var r := Search(lex, rows, tenant, allowed, query, limit);
            && (lex.isBlank(query) || allowed == Some({}) || docs == [] ==> r == [])
            && (!lex.isBlank(query) && allowed != Some({}) && docs != [] ==>
                  var wanted := set t | t in lex.tokens(query);
                  r == Take(Sort(Matching(lex, docs, Visible(rows, tenant, allowed), wanted)), limit))
  {
    var seen := Visible(rows, tenant, allowed);
    assert docs == TokensOf(lex, seen);
    if seen != [] {
      HitsAreTopMatches(lex, seen, query, limit);
    }
  }
}
