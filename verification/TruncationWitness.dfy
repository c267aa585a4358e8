/**
 * Three passages and three sub-queries for which early truncation returns another chunk: the shipped
 * rerank weight and candidate count, a dense leg only, and a final cut of one.
 */
module TruncationWitness {
  import opened Wrappers
  import opened Store
  import opened Ranking
  import opened Retrieval
  import opened Retriever
  import opened Sequences

  const ROW_X := ChunkRow(1, 7, 11, 0, "x", [])
  const ROW_Y := ChunkRow(2, 7, 11, 1, "yy", [])
  const ROW_Z := ChunkRow(3, 7, 11, 2, "zzz", [])
  const ROWS := [ROW_X, ROW_Y, ROW_Z]

  /** Three sub-queries, of one, two and three letters. */
  predicate Queries(queries: seq<string>) {
    |queries| == 3 && forall i | 0 <= i < 3 :: |queries[i]| == i + 1
  }

  /** How relevant the reranker finds a passage, here by length. */
  function Relevance(query: string, text: string): real {
    if |query| == 1 then (if |text| == 1 then 5.0 else if |text| == 2 then 3.0 else 1.0)
    else if |query| == 2 then (if |text| == 3 then 9.0 else 1.0)
    else if |text| == 2 then 9.0
    else 1.0
  }

  function Rerank(query: string, passages: seq<string>): (r: seq<real>)
    ensures |r| == |passages|
  {
    seq(|passages|, i requires 0 <= i < |passages| => Relevance(query, passages[i]))
  }

  function TieEngine(lex: KeywordSearch.Lexicon): Engine {
    Engine(lex, (_, _) => 0.0, Rerank, 20, 20, 1, 1.0, false)
  }

  function Dense(row: ChunkRow, score: real): Ranked<Hit> {
    Ranked(Hit(row, ["vector"]), score)
  }

  /** Cutting to one before the merge returns chunk 3; merging the full rankings returns chunk 2. */
  lemma {:induction false} TiesCanChangeChunks(lex: KeywordSearch.Lexicon, embed: string -> seq<real>,
                                               queries: seq<string>)
    requires Queries(queries)
    ensures var e, db := TieEngine(lex), Db(ROWS, map[]);
            && ScoresAll(e) && UniqueIds(ROWS)
            && IdsOf(TopMerge(FullSearches(e, embed, db, 7, None, queries), 1)) == [2]
            && IdsOf(TopMerge(Searches(e, embed, db, 7, None, queries), 1)) == [3]
  {
    TieScoresAll(lex);
    TieSearches(lex, embed, queries);
    SearchesAreCut(TieEngine(lex), embed, Db(ROWS, map[]), 7, None, queries);
    Winners(FullSearches(TieEngine(lex), embed, Db(ROWS, map[]), 7, None, queries));
  }

  lemma {:induction false} Winners(full: seq<Hits>)
    requires full == FullLists()
    ensures IdsOf(TopMerge(full, 1)) == [2] && IdsOf(TopMerge(CutAll(full, 1), 1)) == [3]
  {
    FullWinner();
    CutWinner();
    CutTied();
  }

  lemma {:induction false} CutTied()
    ensures CutAll(FullLists(), 1) == CutLists()
  {
    assert forall j | 0 <= j < 3 :: Take(FullLists()[j], 1) == [FullLists()[j][0]];
  }

  lemma {:induction false} TieScoresAll(lex: KeywordSearch.Lexicon)
    ensures ScoresAll(TieEngine(lex))
  {
    forall q, passages ensures |TieEngine(lex).rerank(q, passages)| == |passages| {
      assert TieEngine(lex).rerank(q, passages) == Rerank(q, passages);
    }
  }

  function FirstFull(): Hits { [Dense(ROW_X, 5.0), Dense(ROW_Y, 3.0), Dense(ROW_Z, 1.0)] }

  function SecondFull(): Hits { [Dense(ROW_Z, 9.0), Dense(ROW_X, 1.0), Dense(ROW_Y, 1.0)] }

  function ThirdFull(): Hits { [Dense(ROW_Y, 9.0), Dense(ROW_X, 1.0), Dense(ROW_Z, 1.0)] }

  function FullLists(): seq<Hits> { [FirstFull(), SecondFull(), ThirdFull()] }

  function CutLists(): seq<Hits> {
    [[Dense(ROW_X, 5.0)], [Dense(ROW_Z, 9.0)], [Dense(ROW_Y, 9.0)]]
  }

  // ---------- The three searches ----------

  lemma {:induction false} TieSearches(lex: KeywordSearch.Lexicon, embed: string -> seq<real>, queries: seq<string>)
    requires ScoresAll(TieEngine(lex)) && Queries(queries)
    ensures FullSearches(TieEngine(lex), embed, Db(ROWS, map[]), 7, None, queries) == FullLists()
  {
    var full := FullSearches(TieEngine(lex), embed, Db(ROWS, map[]), 7, None, queries);
    TieSearch(lex, embed, queries, 0);
    TieSearch(lex, embed, queries, 1);
    TieSearch(lex, embed, queries, 2);
    AsThree(full);
  }

  lemma {:induction false} TieSearch(lex: KeywordSearch.Lexicon, embed: string -> seq<real>, queries: seq<string>,
                                     i: nat)
    requires ScoresAll(TieEngine(lex)) && Queries(queries) && i < 3
    ensures FullSearches(TieEngine(lex), embed, Db(ROWS, map[]), 7, None, queries)[i] == FullLists()[i]
  {
    OneRanking(lex, queries[i], embed(queries[i]));
  }

  lemma {:induction false} OneRanking(lex: KeywordSearch.Lexicon, q: string, embedding: seq<real>)
    requires ScoresAll(TieEngine(lex)) && 1 <= |q| <= 3
    ensures FullRanking(TieEngine(lex), ROWS, 7, None, q, embedding) == FullLists()[|q| - 1]
  {
    TieRanking(lex, q, embedding);
    SortedScores(q);
  }

  lemma {:induction false} SortedScores(q: string)
    requires 1 <= |q| <= 3
    ensures Sort(TieScores(q)) == FullLists()[|q| - 1]
  {
    if |q| == 1 {
      SortSorted(FirstFull());
      assert TieScores(q) == FirstFull();
    } else if |q| == 2 {
      LastFirst(Dense(ROW_X, 1.0), Dense(ROW_Y, 1.0), Dense(ROW_Z, 9.0));
    } else {
      MiddleFirst(Dense(ROW_X, 1.0), Dense(ROW_Y, 9.0), Dense(ROW_Z, 1.0));
    }
  }

  lemma {:induction false} TieRanking(lex: KeywordSearch.Lexicon, q: string, embedding: seq<real>)
    requires ScoresAll(TieEngine(lex))
    ensures FullRanking(TieEngine(lex), ROWS, 7, None, q, embedding)
         == Sort(TieScores(q))
  {
    var e := TieEngine(lex);
    TieDense(lex, embedding);
    TieBlended(lex, q);
    assert Sparse(e, ROWS, 7, None, q, 20) == [];
  }

  /** The three rows with their relevance, in table order. */
  function TieScores(q: string): Hits {
    [Dense(ROW_X, Relevance(q, "x")), Dense(ROW_Y, Relevance(q, "yy")), Dense(ROW_Z, Relevance(q, "zzz"))]
  }

  /** The dense leg: all three rows, equally close, in table order. */
  function DenseLeg(): seq<Ranked<ChunkRow>> {
    [Ranked(ROW_X, 0.0), Ranked(ROW_Y, 0.0), Ranked(ROW_Z, 0.0)]
  }

  lemma {:induction false} TieDense(lex: KeywordSearch.Lexicon, embedding: seq<real>)
    ensures VectorSearch(TieEngine(lex), ROWS, 7, None, embedding, 20) == DenseLeg()
  {
    AllVisible(ROWS);
    assert WithCosine(TieEngine(lex), ROWS, embedding) == DenseLeg();
    SortSorted(DenseLeg());
  }

  lemma {:induction false} AllVisible(rows: seq<ChunkRow>)
    requires forall i | 0 <= i < |rows| :: rows[i].tenant == 7
    ensures Visible(rows, 7, None) == rows
  {
    if rows != [] {
      AllVisible(rows[1..]);
      assert rows == [rows[0]] + rows[1..];
    }
  }

  lemma {:induction false} TieBlended(lex: KeywordSearch.Lexicon, q: string)
    requires ScoresAll(TieEngine(lex))
    ensures Blended(TieEngine(lex), q, DenseLeg(), [])
         == TieScores(q)
  {
    TieEntry(lex, q, 0);
    TieEntry(lex, q, 1);
    TieEntry(lex, q, 2);
    ThreeEntries(Blended(TieEngine(lex), q, DenseLeg(), []), TieScores(q));
  }

  lemma {:induction false} ThreeEntries(a: Hits, b: Hits)
    requires |a| == |b| == 3 && a[0] == b[0] && a[1] == b[1] && a[2] == b[2]
    ensures a == b
  {
  }

  lemma {:induction false} TieEntry(lex: KeywordSearch.Lexicon, q: string, i: nat)
    requires ScoresAll(TieEngine(lex)) && i < 3
    ensures Blended(TieEngine(lex), q, DenseLeg(), [])[i] == TieScores(q)[i]
  {
    DenseEntry(TieEngine(lex), q, DenseLeg(), i);
    var texts := Texts(Union(DenseLeg(), []));
    assert TieEngine(lex).rerank(q, texts) == Rerank(q, texts);
    assert texts[i] == ROWS[i].text;
  }

  /** With one leg and the full rerank weight a candidate keeps its raw rerank score. */
  lemma {:induction false} DenseEntry(e: Engine, q: string, dense: seq<Ranked<ChunkRow>>, i: nat)
    requires ScoresAll(e) && e.rerankWeight == 1.0 && i < |dense|
    ensures |Union(dense, [])| == |dense| && Union(dense, [])[i] == dense[i].item
    ensures Blended(e, q, dense, [])[i] == Dense(dense[i].item, e.rerank(q, Texts(Union(dense, [])))[i])
  {
    var id := dense[i].item.id;
    assert RankOf(dense, id).Some? && RankOf([], id).None?;
    assert MethodSet(dense, [], id) == {"vector"};
    assert SortedMethods({"vector"}) == ["vector"];
  }

  // ---------- Small sorts ----------

  lemma {:induction false} SortSorted<T>(s: seq<Ranked<T>>)
    requires Descending(s)
    ensures Sort(s) == s
  {
    SortIsTheStableOrder(s, s);
  }

  lemma {:induction false} AtScoreThree<T>(a: Ranked<T>, b: Ranked<T>, c: Ranked<T>, v: real)
    ensures AtScore([a, b, c], v) ==
      (if a.score == v then [a] else []) + (if b.score == v then [b] else []) + (if c.score == v then [c] else [])
  {
    assert [a, b, c][1..] == [b, c] && [b, c][1..] == [c] && [c][1..] == [];
    assert AtScore([c], v) == if c.score == v then [c] else [];
    assert AtScore([b, c], v) == (if b.score == v then [b] else []) + AtScore([c], v);
  }

  lemma {:induction false} LastFirst<T>(a: Ranked<T>, b: Ranked<T>, c: Ranked<T>)
    requires c.score > a.score >= b.score
    ensures Sort([a, b, c]) == [c, a, b]
  {
    forall v ensures AtScore([c, a, b], v) == AtScore([a, b, c], v) {
      AtScoreThree(a, b, c, v);
      AtScoreThree(c, a, b, v);
    }
    SortIsTheStableOrder([a, b, c], [c, a, b]);
  }

  lemma {:induction false} MiddleFirst<T>(a: Ranked<T>, b: Ranked<T>, c: Ranked<T>)
    requires b.score > a.score >= c.score
    ensures Sort([a, b, c]) == [b, a, c]
  {
    forall v ensures AtScore([b, a, c], v) == AtScore([a, b, c], v) {
      AtScoreThree(a, b, c, v);
      AtScoreThree(b, a, c, v);
    }
    SortIsTheStableOrder([a, b, c], [b, a, c]);
  }

  lemma {:induction false} FirstLast<T>(low: Ranked<T>, first: Ranked<T>, second: Ranked<T>)
    requires low.score < first.score == second.score
    ensures Sort([low, first, second]) == [first, second, low]
  {
    forall v ensures AtScore([first, second, low], v) == AtScore([low, first, second], v) {
      AtScoreThree(first, second, low, v);
      AtScoreThree(low, first, second, v);
    }
    SortIsTheStableOrder([low, first, second], [first, second, low]);
  }

  // ---------- The two merges ----------

  lemma {:induction false} MergeThree(a: Hits, b: Hits, c: Hits)
    ensures Merge([a, b, c]) == PutAll(PutAll(PutAll([], a), b), c)
  {
    MergeAppend([], a);
    MergeAppend([a], b);
    MergeAppend([a, b], c);
    assert [] + [a] == [a] && [a] + [b] == [a, b] && [a, b] + [c] == [a, b, c];
  }

  lemma {:induction false} PutThree(m: Hits, a: Ranked<Hit>, b: Ranked<Hit>, c: Ranked<Hit>)
    ensures PutAll(m, [a, b, c]) == Put(Put(Put(m, a), b), c)
  {
    assert [a, b, c][1..] == [b, c] && [b, c][1..] == [c] && [c][1..] == [];
    PutOne(Put(Put(m, a), b), c);
    assert PutAll(Put(m, a), [b, c]) == PutAll(Put(Put(m, a), b), [c]);
  }

  lemma {:induction false} PutOne(m: Hits, x: Ranked<Hit>)
    ensures PutAll(m, [x]) == Put(m, x)
  {
  }

  lemma {:induction false} FindIn(a: Ranked<Hit>, b: Ranked<Hit>, c: Ranked<Hit>, id: Uuid)
    ensures Find([a, b, c], id) ==
      if IdOf(a) == id then Some(0) else if IdOf(b) == id then Some(1) else if IdOf(c) == id then Some(2) else None
  {
    FindInTwo(b, c, id);
    assert [a, b, c][1..] == [b, c];
  }

  lemma {:induction false} FindInTwo(b: Ranked<Hit>, c: Ranked<Hit>, id: Uuid)
    ensures Find([b, c], id) == if IdOf(b) == id then Some(0) else if IdOf(c) == id then Some(1) else None
  {
    assert [b, c][1..] == [c] && [c][1..] == [];
    assert Find([c], id) == if IdOf(c) == id then Some(0) else None;
  }

  lemma {:induction false} PutNew(a: Ranked<Hit>, b: Ranked<Hit>, c: Ranked<Hit>)
    requires IdOf(a) != IdOf(b) && IdOf(a) != IdOf(c) && IdOf(b) != IdOf(c)
    ensures Put(Put(Put([], a), b), c) == [a, b, c]
  {
    assert Put([], a) == [a];
    assert Put([a], b) == [a, b];
    FindInTwo(a, b, IdOf(c));
    assert Put([a, b], c) == [a, b, c];
  }

  lemma {:induction false} FullWinner()
    ensures IdsOf(TopMerge(FullLists(), 1)) == [2]
  {
    FullMerge(FirstFull(), SecondFull(), ThirdFull());
    FirstLast(Dense(ROW_X, 5.0), Dense(ROW_Y, 9.0), Dense(ROW_Z, 9.0));
  }

  /** Three rankings of the same three chunks; the second and the third each raise one of them. */
  lemma {:induction false} FullMerge(r: Hits, s: Hits, t: Hits)
    requires |r| == |s| == |t| == 3
    requires IdOf(r[0]) != IdOf(r[1]) && IdOf(r[0]) != IdOf(r[2]) && IdOf(r[1]) != IdOf(r[2])
    requires IdOf(s[0]) == IdOf(r[2]) && s[0].score > r[2].score
    requires IdOf(s[1]) == IdOf(r[0]) && s[1].score <= r[0].score
    requires IdOf(s[2]) == IdOf(r[1]) && s[2].score <= r[1].score
    requires IdOf(t[0]) == IdOf(r[1]) && t[0].score > r[1].score
    requires IdOf(t[1]) == IdOf(r[0]) && t[1].score <= r[0].score
    requires IdOf(t[2]) == IdOf(r[2]) && t[2].score <= s[0].score
    ensures Merge([r, s, t]) == [r[0], t[0], s[0]]
  {
    MergeThree(r, s, t);
    AsThree(r);
    AsThree(s);
    AsThree(t);
    PutThree([], r[0], r[1], r[2]);
    PutNew(r[0], r[1], r[2]);
    PutThree(r, s[0], s[1], s[2]);
    SecondList(r[0], r[1], r[2], s[0], s[1], s[2]);
    PutThree([r[0], r[1], s[0]], t[0], t[1], t[2]);
    ThirdList(r[0], r[1], s[0], t[0], t[1], t[2]);
  }

  lemma {:induction false} AsThree<T>(s: seq<T>)
    requires |s| == 3
    ensures s == [s[0], s[1], s[2]]
  {
  }

  lemma {:induction false} SecondList(a: Ranked<Hit>, b: Ranked<Hit>, c: Ranked<Hit>, better: Ranked<Hit>,
                                      lowA: Ranked<Hit>, lowB: Ranked<Hit>)
    requires IdOf(a) != IdOf(b) && IdOf(a) != IdOf(c) && IdOf(b) != IdOf(c)
    requires IdOf(better) == IdOf(c) && better.score > c.score
    requires IdOf(lowA) == IdOf(a) && lowA.score <= a.score && IdOf(lowB) == IdOf(b) && lowB.score <= b.score
    ensures Put(Put(Put([a, b, c], better), lowA), lowB) == [a, b, better]
  {
    FindIn(a, b, c, IdOf(c));
    assert [a, b, c][2 := better] == [a, b, better];
    FindIn(a, b, better, IdOf(a));
    FindIn(a, b, better, IdOf(b));
  }

  lemma {:induction false} ThirdList(a: Ranked<Hit>, b: Ranked<Hit>, c: Ranked<Hit>, better: Ranked<Hit>,
                                     lowA: Ranked<Hit>, lowC: Ranked<Hit>)
    requires IdOf(a) != IdOf(b) && IdOf(a) != IdOf(c) && IdOf(b) != IdOf(c)
    requires IdOf(better) == IdOf(b) && better.score > b.score
    requires IdOf(lowA) == IdOf(a) && lowA.score <= a.score && IdOf(lowC) == IdOf(c) && lowC.score <= c.score
    ensures Put(Put(Put([a, b, c], better), lowA), lowC) == [a, better, c]
  {
    FindIn(a, b, c, IdOf(b));
    assert [a, b, c][1 := better] == [a, better, c];
    FindIn(a, better, c, IdOf(a));
    FindIn(a, better, c, IdOf(c));
  }

  lemma {:induction false} CutWinner()
    ensures IdsOf(TopMerge(CutLists(), 1)) == [3]
  {
    var x5, z9, y9 := Dense(ROW_X, 5.0), Dense(ROW_Z, 9.0), Dense(ROW_Y, 9.0);
    MergeThree([x5], [z9], [y9]);
    PutOne([], x5);
    PutOne(Put([], x5), z9);
    PutOne(Put(Put([], x5), z9), y9);
    PutNew(x5, z9, y9);
    FirstLast(x5, z9, y9);
  }
}
