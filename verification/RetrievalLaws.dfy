/**
 * What a hybrid search finds (backend/app/services/retrieval.py): the dense leg returns the closest visible
 * rows, both legs reach the reranker, and the answer is the best of the candidates by the blended score.
 */
module RetrievalLaws {
  import opened Wrappers
  import opened Store
  import opened Ranking
  import opened Sequences
  import opened KeywordSearch
  import opened Retrieval

  // ---------- The dense leg ----------

  /** The row is in the leg. */
  ghost predicate Ranks(leg: seq<Ranked<ChunkRow>>, row: ChunkRow) {
    exists x <- leg :: x.item == row
  }

  /** No row of the leg is farther from the query than this one. */
  ghost predicate NoneFarther(e: Engine, leg: seq<Ranked<ChunkRow>>, query: seq<real>, row: ChunkRow) {
    forall x <- leg :: e.cosine(query, row.embedding) <= x.score
  }

  /**
   * The dense leg holds `k` visible rows, or all if there are fewer, each scored with its own cosine, the
   * closest first; no visible row it leaves out is closer than one it holds.
   */
  lemma {:induction false} DenseLegIsClosest(e: Engine, rows: seq<ChunkRow>, tenant: Uuid, allowed: Access,
                                             query: seq<real>, k: nat)
    requires UniqueIds(rows)
    ensures var leg, seen := VectorSearch(e, rows, tenant, allowed, query, k), Visible(rows, tenant, allowed);
            && Descending(leg) && DistinctItems(leg)
            && |leg| == (if k < |seen| then k else |seen|)
            && (forall x <- leg :: x.item in seen && x.score == e.cosine(query, x.item.embedding))
            && (forall row <- seen :: Ranks(leg, row) || (|leg| == k && NoneFarther(e, leg, query, row)))
  {
    var seen := Visible(rows, tenant, allowed);
    var s := WithCosine(e, seen, query);
    VisibleKeepsUniqueIds(rows, tenant, allowed);
    TopOfDistinct(s, seen, k);
    TopMeaning(s, k);
    if allowed == Some({}) {
      NothingVisible(rows, tenant);
    } else {
      DenialIsEmpty(allowed);
      forall row | row in seen
        ensures Ranks(Take(Sort(s), k), row)
             || (|Take(Sort(s), k)| == k && NoneFarther(e, Take(Sort(s), k), query, row))
      {
        var i :| 0 <= i < |seen| && seen[i] == row;
        assert s[i] in s;
      }
    }
  }

  lemma {:induction false} NothingVisible(rows: seq<ChunkRow>, tenant: Uuid)
    ensures Visible(rows, tenant, Some({})) == []
  {
    if rows != [] {
      NothingVisible(rows[1..], tenant);
    }
  }

  /** The other visible rows at least as close to the query as this one. */
  ghost function AtLeastAsClose(e: Engine, seen: seq<ChunkRow>, query: seq<real>, row: ChunkRow): set<ChunkRow> {
    set s | s in seen && s.id != row.id && e.cosine(query, s.embedding) >= e.cosine(query, row.embedding)
  }

  /** Distinct elements of a list, as a set. */
  lemma {:induction false} ItemsAsSet(leg: seq<Ranked<ChunkRow>>)
    requires DistinctItems(leg)
    ensures |set x | x in leg :: x.item| == |leg|
  {
    if leg != [] {
      var front, last := leg[..|leg| - 1], leg[|leg| - 1];
      ItemsAsSet(front);
      assert leg == front + [last];
      ItemsAppend(front, last);
      forall x | x in front ensures x.item != last.item {
        var i :| 0 <= i < |front| && front[i] == x;
        assert leg[i].item.id != leg[|front|].item.id;
      }
    }
  }

  lemma {:induction false} ItemsAppend(front: seq<Ranked<ChunkRow>>, last: Ranked<ChunkRow>)
    ensures (set x | x in front + [last] :: x.item) == (set x | x in front :: x.item) + {last.item}
  {
    assert forall x :: x in front + [last] <==> x in front || x == last;
  }

  lemma {:induction false} SubsetSize<T>(a: set<T>, b: set<T>)
    requires a <= b
    ensures |a| <= |b|
  {
    assert b == a + (b - a);
  }

  /** A visible row with fewer than the candidate count of rows at least as close is reranked. */
  lemma {:induction false} CloseRowsAreCandidates(e: Engine, rows: seq<ChunkRow>, tenant: Uuid, allowed: Access,
                                                  query: string, embedding: seq<real>, row: ChunkRow)
    requires UniqueIds(rows) && row in Visible(rows, tenant, allowed)
    requires |AtLeastAsClose(e, Visible(rows, tenant, allowed), embedding, row)| < e.vectorCandidates
    ensures row in Union(VectorSearch(e, rows, tenant, allowed, embedding, e.vectorCandidates),
                         Sparse(e, rows, tenant, allowed, query, e.bm25Candidates))
  {
    DenseLegHolds(e, rows, tenant, allowed, embedding, row);
    LegsOfSearch(e, rows, tenant, allowed, query, embedding);
    InUnion(VectorSearch(e, rows, tenant, allowed, embedding, e.vectorCandidates),
            Sparse(e, rows, tenant, allowed, query, e.bm25Candidates), row);
  }

  lemma {:induction false} DenseLegHolds(e: Engine, rows: seq<ChunkRow>, tenant: Uuid, allowed: Access,
                                         embedding: seq<real>, row: ChunkRow)
    requires UniqueIds(rows) && row in Visible(rows, tenant, allowed)
    requires |AtLeastAsClose(e, Visible(rows, tenant, allowed), embedding, row)| < e.vectorCandidates
    ensures Ranks(VectorSearch(e, rows, tenant, allowed, embedding, e.vectorCandidates), row)
  {
    DenseLegIsClosest(e, rows, tenant, allowed, embedding, e.vectorCandidates);
    VisibleKeepsUniqueIds(rows, tenant, allowed);
    LegHoldsCloseRow(e, Visible(rows, tenant, allowed),
                     VectorSearch(e, rows, tenant, allowed, embedding, e.vectorCandidates), embedding, row);
  }

  lemma {:induction false} InUnion(dense: seq<Ranked<ChunkRow>>, sparse: seq<Ranked<ChunkRow>>, row: ChunkRow)
    requires Legs(dense, sparse) && Ranks(dense, row)
    ensures row in Union(dense, sparse)
  {
    UnionMembers(dense, sparse);
  }

  lemma {:induction false} LegHoldsCloseRow(e: Engine, seen: seq<ChunkRow>, leg: seq<Ranked<ChunkRow>>,
                                            query: seq<real>, row: ChunkRow)
    requires row in seen && DistinctItems(leg) && UniqueIds(seen)
    requires forall x <- leg :: x.item in seen && x.score == e.cosine(query, x.item.embedding)
    requires Ranks(leg, row) || (|leg| > |AtLeastAsClose(e, seen, query, row)| && NoneFarther(e, leg, query, row))
    ensures Ranks(leg, row)
  {
    var items := set x | x in leg :: x.item;
    ItemsAsSet(leg);
    SameIdSameRow(seen, row);
    if items <= AtLeastAsClose(e, seen, query, row) {
      SubsetSize(items, AtLeastAsClose(e, seen, query, row));
    } else {
      var item :| item in items && item !in AtLeastAsClose(e, seen, query, row);
      var x :| x in leg && x.item == item;
      assert Ranks(leg, row) || item == row;
    }
  }

  lemma {:induction false} SameIdSameRow(seen: seq<ChunkRow>, row: ChunkRow)
    requires UniqueIds(seen) && row in seen
    ensures forall s <- seen :: s.id == row.id ==> s == row
  {
  }

  // ---------- The blended score ----------

  /** `v` is the `i`-th value after min-max normalisation: 1 if all are equal, else linear from 0 to 1. */
  ghost predicate IsNormal(values: seq<real>, i: int, v: real)
    requires 0 <= i < |values|
  {
    exists lo, hi :: AreBounds(values, lo, hi) && IsScaled(values[i], lo, hi, v)
  }

  predicate IsScaled(value: real, lo: real, hi: real, v: real) {
    if hi - lo < 0.000000000001 then v == 1.0 else v * (hi - lo) == value - lo
  }

  /** The least and the greatest value. */
  predicate AreBounds(values: seq<real>, lo: real, hi: real) {
    lo in values && hi in values && forall x <- values :: lo <= x <= hi
  }

  lemma {:induction false} MinMaxIsNormal(values: seq<real>, i: int)
    requires 0 <= i < |values|
    ensures IsNormal(values, i, MinMax(values)[i])
  {
    var lo, hi := MinOf(values), MaxOf(values);
    assert AreBounds(values, lo, hi);
    MinMaxAt(values, i);
    RatioIsScaled(values[i], lo, hi);
    assert IsScaled(values[i], lo, hi, MinMax(values)[i]);
  }

  lemma {:induction false} MinMaxAt(values: seq<real>, i: int)
    requires 0 <= i < |values|
    ensures var lo, hi := MinOf(values), MaxOf(values);
            MinMax(values)[i] == if hi - lo < EPSILON then 1.0 else Ratio(values[i], lo, hi)
  {
  }

  lemma {:induction false} RatioIsScaled(value: real, lo: real, hi: real)
    ensures IsScaled(value, lo, hi, if hi - lo < EPSILON then 1.0 else Ratio(value, lo, hi))
  {
    if hi - lo >= EPSILON {
      var d := hi - lo;
      assert (value - lo) / d * d == value - lo;
    }
  }

  /** `v` is the reciprocal-rank share of a chunk in one leg: 1 / (60 + position), or 0 if it is not there. */
  ghost predicate IsShare(leg: seq<Ranked<ChunkRow>>, id: Uuid, v: real) {
    if exists x <- leg :: x.item.id == id then
      exists r: nat :: r < |leg| && leg[r].item.id == id && v == 1.0 / (60 + r) as real
    else v == 0.0
  }

  /** The raw fusion scores: one share per leg. */
  ghost predicate AreShares(dense: seq<Ranked<ChunkRow>>, sparse: seq<Ranked<ChunkRow>>, f: seq<real>) {
    && |f| == |Union(dense, sparse)|
    && forall i | 0 <= i < |f| ::
         IsFused(dense, sparse, Union(dense, sparse)[i].id, f[i])
  }

  ghost predicate IsFused(dense: seq<Ranked<ChunkRow>>, sparse: seq<Ranked<ChunkRow>>, id: Uuid, v: real) {
    exists a, b :: IsShare(dense, id, a) && IsShare(sparse, id, b) && v == a + b
  }

  lemma {:induction false} ReciprocalIsShare(leg: seq<Ranked<ChunkRow>>, id: Uuid)
    ensures IsShare(leg, id, Reciprocal(leg, id))
  {
    match RankOf(leg, id)
    case None =>
    case Some(r) => assert leg[r] in leg && leg[r].item.id == id;
  }

  lemma {:induction false} FusionIsShares(dense: seq<Ranked<ChunkRow>>, sparse: seq<Ranked<ChunkRow>>)
    ensures AreShares(dense, sparse, RawFusion(dense, sparse))
  {
    var u := Union(dense, sparse);
    forall i | 0 <= i < |u|
      ensures IsFused(dense, sparse, u[i].id, RawFusion(dense, sparse)[i])
    {
      ReciprocalIsShare(dense, u[i].id);
      ReciprocalIsShare(sparse, u[i].id);
    }
  }

  /** The final score of the `i`-th candidate, from the rerank scores and the raw fusion scores. */
  ghost predicate IsFinal(w: real, reranked: seq<real>, fusion: seq<real>, i: int, v: real)
    requires 0 <= i < |reranked| == |fusion|
  {
    if w < 1.0 then exists m, n :: IsNormal(reranked, i, m) && IsNormal(fusion, i, n) && IsMix(w, m, n, v)
    else v == reranked[i]
  }

  predicate IsMix(w: real, m: real, n: real, v: real) {
    v == w * m + (1.0 - w) * n
  }

  /** The entry of a candidate in the answer. */
  ghost predicate Scores(x: Ranked<Hit>, e: Engine, u: seq<ChunkRow>, reranked: seq<real>, fusion: seq<real>, i: int)
    requires 0 <= i < |u| == |reranked| == |fusion|
  {
    x.item.chunk == u[i] && IsFinal(e.rerankWeight, reranked, fusion, i, x.score)
  }

  lemma {:induction false} BlendedScores(e: Engine, query: string, dense: seq<Ranked<ChunkRow>>,
                                         sparse: seq<Ranked<ChunkRow>>, i: int)
    requires ScoresAll(e) && 0 <= i < |Union(dense, sparse)|
    ensures Scores(Blended(e, query, dense, sparse)[i], e, Union(dense, sparse),
                   e.rerank(query, Texts(Union(dense, sparse))), RawFusion(dense, sparse), i)
  {
    var reranked, fusion := e.rerank(query, Texts(Union(dense, sparse))), RawFusion(dense, sparse);
    BlendIsFinal(e.rerankWeight, reranked, fusion, i);
    var x := Blended(e, query, dense, sparse)[i];
    assert x.score == Blend(e.rerankWeight, MinMax(reranked)[i], MinMax(fusion)[i], reranked[i]);
  }

  lemma {:induction false} BlendIsFinal(w: real, reranked: seq<real>, fusion: seq<real>, i: int)
    requires 0 <= i < |reranked| == |fusion|
    ensures IsFinal(w, reranked, fusion, i, Blend(w, MinMax(reranked)[i], MinMax(fusion)[i], reranked[i]))
  {
    MinMaxIsNormal(reranked, i);
    MinMaxIsNormal(fusion, i);
    assert w < 1.0 ==> IsMix(w, MinMax(reranked)[i], MinMax(fusion)[i],
                             Blend(w, MinMax(reranked)[i], MinMax(fusion)[i], reranked[i]));
  }

  /** `k or default` in words. */
  function FinalK(e: Engine, finalK: Option<nat>): nat {
    if finalK == None || finalK == Some(0) then e.finalTopK else finalK.value
  }

  /**
   * The answer of a search against its candidates `u`, their rerank scores and their raw fusion scores: the best
   * `final_k` candidates, each with its final score, the best first.
   */
  ghost predicate IsBestOf(r: seq<Ranked<Hit>>, e: Engine, finalK: Option<nat>, u: seq<ChunkRow>, reranked: seq<real>,
                           fusion: seq<real>)
    requires |u| == |reranked| == |fusion|
  {
    && Descending(r)
    && |r| == (if FinalK(e, finalK) < |u| then FinalK(e, finalK) else |u|)
    && (forall x <- r :: exists i | 0 <= i < |u| :: Scores(x, e, u, reranked, fusion, i))
    && (forall i | 0 <= i < |u| :: HasPlace(r, e, u, reranked, fusion, i))
  }

  /** The candidate is in the answer, or nothing in the answer scores less. */
  ghost predicate HasPlace(r: seq<Ranked<Hit>>, e: Engine, u: seq<ChunkRow>, reranked: seq<real>, fusion: seq<real>,
                           i: int)
    requires 0 <= i < |u| == |reranked| == |fusion|
  {
    exists x :: Scores(x, e, u, reranked, fusion, i) && (x in r || forall y <- r :: x.score <= y.score)
  }

  lemma {:induction false} BlendedBest(e: Engine, query: string, finalK: Option<nat>, dense: seq<Ranked<ChunkRow>>,
                                       sparse: seq<Ranked<ChunkRow>>)
    requires ScoresAll(e)
    ensures IsBestOf(Take(Sort(Blended(e, query, dense, sparse)), OrDefault(finalK, e.finalTopK)), e, finalK,
                     Union(dense, sparse), e.rerank(query, Texts(Union(dense, sparse))), RawFusion(dense, sparse))
  {
    var b, k := Blended(e, query, dense, sparse), OrDefault(finalK, e.finalTopK);
    var u, s, f := Union(dense, sparse), e.rerank(query, Texts(Union(dense, sparse))), RawFusion(dense, sparse);
    TopMeaning(b, k);
    forall x | x in Take(Sort(b), k) ensures exists i | 0 <= i < |u| :: Scores(x, e, u, s, f, i) {
      var i :| 0 <= i < |b| && b[i] == x;
      BlendedScores(e, query, dense, sparse, i);
    }
    forall i | 0 <= i < |u| ensures HasPlace(Take(Sort(b), k), e, u, s, f, i) {
      BlendedScores(e, query, dense, sparse, i);
      assert b[i] in b;
    }
  }

  /**
   * A search returns the best of its candidates. With the full rerank weight that is the reranker's own
   * order; below it the score blends the normalised rerank score with the normalised reciprocal ranks.
   */
  lemma {:induction false} SearchReturnsBest(e: Engine, rows: seq<ChunkRow>, tenant: Uuid, allowed: Access,
                                             query: string, embedding: seq<real>, finalK: Option<nat>)
    requires UniqueIds(rows) && ScoresAll(e)
    ensures var dense := VectorSearch(e, rows, tenant, allowed, embedding, e.vectorCandidates);
            var sparse := Sparse(e, rows, tenant, allowed, query, e.bm25Candidates);
            var u := Union(dense, sparse);
            AreShares(dense, sparse, RawFusion(dense, sparse))
            && IsBestOf(Hybrid(e, rows, tenant, allowed, query, embedding, finalK), e, finalK, u,
                        e.rerank(query, Texts(u)), RawFusion(dense, sparse))
  {
    var dense := VectorSearch(e, rows, tenant, allowed, embedding, e.vectorCandidates);
    var sparse := Sparse(e, rows, tenant, allowed, query, e.bm25Candidates);
    FusionIsShares(dense, sparse);
    BlendedBest(e, query, finalK, dense, sparse);
    if DeniesAll(allowed) {
      assert dense == [] && sparse == [] && Union(dense, sparse) == [];
    }
  }

  /** With BM25 on, every row it finds is a candidate too; with BM25 off the candidates are the dense leg. */
  lemma {:induction false} BothLegsAreCandidates(e: Engine, rows: seq<ChunkRow>, tenant: Uuid, allowed: Access,
                                                 query: string, embedding: seq<real>, row: ChunkRow)
    requires UniqueIds(rows) && row in Visible(rows, tenant, allowed)
    ensures var dense := VectorSearch(e, rows, tenant, allowed, embedding, e.vectorCandidates);
            var sparse := Search(e.lex, rows, tenant, allowed, query, e.bm25Candidates);
            var u := Union(dense, Sparse(e, rows, tenant, allowed, query, e.bm25Candidates));
            row in u <==> Ranks(dense, row) || (e.enableBm25 && Ranks(sparse, row))
  {
    var dense := VectorSearch(e, rows, tenant, allowed, embedding, e.vectorCandidates);
    var sparse := Sparse(e, rows, tenant, allowed, query, e.bm25Candidates);
    LegsOfSearch(e, rows, tenant, allowed, query, embedding);
    VisibleKeepsUniqueIds(rows, tenant, allowed);
    InUnionIff(dense, sparse, Visible(rows, tenant, allowed), row);
  }

  lemma {:induction false} InUnionIff(dense: seq<Ranked<ChunkRow>>, sparse: seq<Ranked<ChunkRow>>,
                                      seen: seq<ChunkRow>, row: ChunkRow)
    requires Legs(dense, sparse) && UniqueIds(seen) && row in seen
    requires (forall x <- dense :: x.item in seen) && (forall x <- sparse :: x.item in seen)
    ensures row in Union(dense, sparse) <==> Ranks(dense, row) || Ranks(sparse, row)
  {
    UnionMembers(dense, sparse);
    if row in Union(dense, sparse) {
      UnionSources(dense, sparse, row);
    }
    if Ranks(sparse, row) {
      var c :| c in Union(dense, sparse) && c.id == row.id;
      UnionSources(dense, sparse, c);
      SameIdSameRow(seen, row);
    }
  }
}
