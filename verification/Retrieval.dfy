/**
 * Hybrid retrieval (backend/app/services/retrieval.py): dense and BM25 candidates joined by chunk
 * id, rescored by a cross-encoder, blended with a normalised reciprocal-rank score, sorted, cut.
 *
 * Embedder, reranker and cosine similarity are parameters. Scores are reals, so rounding is absent.
 */
module Retrieval {
  import opened Wrappers
  import opened Store
  import opened Ranking
  import opened Sequences
  import opened KeywordSearch

  /** The services and settings a search runs with. */
  datatype Engine = Engine(
    lex: Lexicon,
    cosine: (seq<real>, seq<real>) -> real,
    rerank: (string, seq<string>) -> seq<real>,
    vectorCandidates: nat,
    bm25Candidates: nat,
    finalTopK: nat,
    rerankWeight: real,
    enableBm25: bool)

  /** A reranker scores every passage it is given. */
  ghost predicate ScoresAll(e: Engine) {
    forall q, passages :: |e.rerank(q, passages)| == |passages|
  }

  /** A retrieved chunk with the names of the legs that found it. */
  datatype Hit = Hit(chunk: ChunkRow, methods: seq<string>)

  // ---------- Dense leg ----------

  function WithCosine(e: Engine, chunks: seq<ChunkRow>, query: seq<real>): (r: seq<Ranked<ChunkRow>>)
    ensures |r| == |chunks|
    ensures forall i | 0 <= i < |r| :: r[i].item == chunks[i]
  {
    seq(|chunks|, i requires 0 <= i < |chunks| => Ranked(chunks[i], e.cosine(query, chunks[i].embedding)))
  }

  /** `vector_search` off PostgreSQL: the guard, then `_vector_python`. */
  function VectorSearch(e: Engine, rows: seq<ChunkRow>, tenant: Uuid, allowed: Access, query: seq<real>, k: nat)
    : seq<Ranked<ChunkRow>>
  {
    if DeniesAll(allowed) then [] else Take(Sort(WithCosine(e, Visible(rows, tenant, allowed), query)), k)
  }

  // ---------- Joining the two legs ----------

  datatype Candidate = Candidate(chunk: ChunkRow, methods: set<string>, vectorScore: Option<real>,
      bm25Score: Option<real>)

  /** Position of a chunk in a ranked list. */
  function RankOf(list: seq<Ranked<ChunkRow>>, id: Uuid): (r: Option<nat>)
    ensures r.Some? ==> r.value < |list| && list[r.value].item.id == id
    ensures r.None? ==> forall i | 0 <= i < |list| :: list[i].item.id != id
  {
    if list == [] then None
    else
      var before := RankOf(list[..|list| - 1], id);
      if before.Some? then before
      else if list[|list| - 1].item.id == id then Some(|list| - 1)
      else None
  }

  /** The chunks of both legs: the dense ones, then the sparse ones not among them. */
  function Union(dense: seq<Ranked<ChunkRow>>, sparse: seq<Ranked<ChunkRow>>): seq<ChunkRow> {
    if sparse == [] then seq(|dense|, i requires 0 <= i < |dense| => dense[i].item)
    else
      var before := Union(dense, sparse[..|sparse| - 1]);
      var last := sparse[|sparse| - 1].item;
      if RankOf(dense, last.id).Some? then before else before + [last]
  }

  function MethodSet(dense: seq<Ranked<ChunkRow>>, sparse: seq<Ranked<ChunkRow>>, id: Uuid): set<string> {
    (if RankOf(dense, id).Some? then {"vector"} else {}) + if RankOf(sparse, id).Some? then {"bm25"} else {}
  }

  function ScoreIn(list: seq<Ranked<ChunkRow>>, id: Uuid): Option<real> {
    match RankOf(list, id)
    case None => None
    case Some(r) => Some(list[r].score)
  }

  /** The candidate record of a chunk once both legs are in. */
  function Joined(dense: seq<Ranked<ChunkRow>>, sparse: seq<Ranked<ChunkRow>>, chunk: ChunkRow): Candidate {
    Candidate(chunk, MethodSet(dense, sparse, chunk.id), ScoreIn(dense, chunk.id), ScoreIn(sparse, chunk.id))
  }

  /** Two legs of one search: no id twice in a leg, and one id means one row. */
  predicate Legs(dense: seq<Ranked<ChunkRow>>, sparse: seq<Ranked<ChunkRow>>) {
    && DistinctItems(dense) && DistinctItems(sparse)
    && forall i, j | 0 <= i < |dense| && 0 <= j < |sparse| ::
         dense[i].item.id == sparse[j].item.id ==> dense[i].item == sparse[j].item
  }

  /** `tuple(sorted(cand.methods))`. */
  function SortedMethods(methods: set<string>): seq<string> {
    (if "bm25" in methods then ["bm25"] else []) + if "vector" in methods then ["vector"] else []
  }

  // ---------- Normalisation and fusion ----------

  function MinOf(values: seq<real>): (m: real)
    requires values != []
    ensures m in values && forall v <- values :: m <= v
  {
    if |values| == 1 then values[0]
    else
      var m := MinOf(values[..|values| - 1]);
      var v := values[|values| - 1];
      assert values == values[..|values| - 1] + [v];
      if v < m then v else m
  }

  function MaxOf(values: seq<real>): (m: real)
    requires values != []
    ensures m in values && forall v <- values :: v <= m
  {
    if |values| == 1 then values[0]
    else
      var m := MaxOf(values[..|values| - 1]);
      var v := values[|values| - 1];
      assert values == values[..|values| - 1] + [v];
      if v > m then v else m
  }

  const EPSILON: real := 0.000000000001

  /** Where a value lies between two bounds. */
  function Ratio(v: real, lo: real, hi: real): real
    requires lo < hi
  {
    (v - lo) / (hi - lo)
  }

  /** `_minmax`. */
  function MinMax(values: seq<real>): (r: seq<real>)
    ensures |r| == |values|
    ensures forall i | 0 <= i < |r| :: 0.0 <= r[i] <= 1.0
    ensures forall i, j | 0 <= i < |r| && 0 <= j < |r| && values[i] <= values[j] :: r[i] <= r[j]
  {
    if values == [] then []
    else
      var lo, hi := MinOf(values), MaxOf(values);
      if hi - lo < EPSILON then seq(|values|, i => 1.0)
      else
        var scaled := seq(|values|, i requires 0 <= i < |values| => Ratio(values[i], lo, hi));
        ScaledBounds(values, lo, hi);
        scaled
  }

  const RRF_K: nat := 60

  /** A list's share of the reciprocal-rank sum. */
  function Reciprocal(list: seq<Ranked<ChunkRow>>, id: Uuid): real {
    match RankOf(list, id)
    case None => 0.0
    case Some(r) => 1.0 / (RRF_K + r) as real
  }

  function RawFusion(dense: seq<Ranked<ChunkRow>>, sparse: seq<Ranked<ChunkRow>>): (r: seq<real>)
    ensures |r| == |Union(dense, sparse)|
  {
    var u := Union(dense, sparse);
    seq(|u|, i requires 0 <= i < |u| => Reciprocal(dense, u[i].id) + Reciprocal(sparse, u[i].id))
  }

  /** The normalised fusion score of each chunk of the union. */
  function Fusion(dense: seq<Ranked<ChunkRow>>, sparse: seq<Ranked<ChunkRow>>): (r: seq<real>)
    ensures |r| == |Union(dense, sparse)|
  {
    MinMax(RawFusion(dense, sparse))
  }

  function Texts(chunks: seq<ChunkRow>): (r: seq<string>)
    ensures |r| == |chunks|
  {
    seq(|chunks|, i requires 0 <= i < |chunks| => chunks[i].text)
  }

  /** The final score of one candidate. */
  function Blend(w: real, norm: real, fusion: real, raw: real): real {
    if w < 1.0 then w * norm + (1.0 - w) * fusion else raw
  }

  /** The `i`-th candidate of the union with its provenance and final score. */
  function BlendedEntry(w: real, u: seq<ChunkRow>, dense: seq<Ranked<ChunkRow>>, sparse: seq<Ranked<ChunkRow>>,
                        fusion: seq<real>, reranked: seq<real>, norm: seq<real>, i: nat): Ranked<Hit>
    requires i < |u| == |fusion| == |reranked| == |norm|
  {
    Ranked(Hit(u[i], SortedMethods(MethodSet(dense, sparse, u[i].id))), Blend(w, norm[i], fusion[i], reranked[i]))
  }

  /** Every chunk of the union with its provenance and final score, before sorting. */
  function Blended(e: Engine, query: string, dense: seq<Ranked<ChunkRow>>, sparse: seq<Ranked<ChunkRow>>)
    : (r: seq<Ranked<Hit>>)
    requires |e.rerank(query, Texts(Union(dense, sparse)))| == |Union(dense, sparse)|
    ensures |r| == |Union(dense, sparse)|
    ensures var u := Union(dense, sparse);
            var reranked := e.rerank(query, Texts(u));
            forall i | 0 <= i < |r| ::
              r[i] == BlendedEntry(e.rerankWeight, u, dense, sparse, Fusion(dense, sparse), reranked,
                                   MinMax(reranked), i)
  {
    var u := Union(dense, sparse);
    var reranked := e.rerank(query, Texts(u));
    var fusion, norm := Fusion(dense, sparse), MinMax(reranked);
    seq(|u|, i requires 0 <= i < |u| => BlendedEntry(e.rerankWeight, u, dense, sparse, fusion, reranked, norm, i))
  }

  /** `k or default`. */
  function OrDefault(k: Option<nat>, default: nat): nat {
    match k
    case None => default
    case Some(n) => if n == 0 then default else n
  }

  ghost function Sparse(e: Engine, rows: seq<ChunkRow>, tenant: Uuid, allowed: Access, query: string, k: nat)
    : seq<Ranked<ChunkRow>>
  {
    if e.enableBm25 then Search(e.lex, rows, tenant, allowed, query, k) else []
  }

  /** `hybrid_search` as a function of the database, with the default candidate counts. */
  ghost function Hybrid(e: Engine, rows: seq<ChunkRow>, tenant: Uuid, allowed: Access, query: string,
                        embedding: seq<real>, finalK: Option<nat>): seq<Ranked<Hit>>
    requires ScoresAll(e)
  {
    if DeniesAll(allowed) then []
    else
      var dense := VectorSearch(e, rows, tenant, allowed, embedding, e.vectorCandidates);
      var sparse := Sparse(e, rows, tenant, allowed, query, e.bm25Candidates);
      Take(Sort(Blended(e, query, dense, sparse)), OrDefault(finalK, e.finalTopK))
  }

  lemma {:induction false} ScaledBounds(values: seq<real>, lo: real, hi: real)
    requires lo < hi && forall v <- values :: lo <= v <= hi
    ensures forall i | 0 <= i < |values| :: 0.0 <= Ratio(values[i], lo, hi) <= 1.0
    ensures forall i, j | 0 <= i < |values| && 0 <= j < |values| && values[i] <= values[j] ::
              Ratio(values[i], lo, hi) <= Ratio(values[j], lo, hi)
  {
    forall i | 0 <= i < |values| ensures 0.0 <= Ratio(values[i], lo, hi) <= 1.0 {
      assert values[i] in values;
      DivideMonotone(0.0, values[i] - lo, hi - lo);
      DivideMonotone(values[i] - lo, hi - lo, hi - lo);
      DivideSelf(hi - lo);
    }
    forall i, j | 0 <= i < |values| && 0 <= j < |values| && values[i] <= values[j]
      ensures Ratio(values[i], lo, hi) <= Ratio(values[j], lo, hi)
    {
      DivideMonotone(values[i] - lo, values[j] - lo, hi - lo);
    }
  }

  lemma {:induction false} DivideSelf(d: real)
    requires d > 0.0
    ensures 0.0 / d == 0.0 && d / d == 1.0
  {
  }

  lemma {:induction false} DivideMonotone(x: real, y: real, d: real)
    requires d > 0.0 && x <= y
    ensures x / d <= y / d
  {
  }

  // ---------- The loops of hybrid_search ----------

  /** An insertion-ordered dictionary: its keys in order, and its table. */
  ghost predicate Ordered<V>(keys: seq<Uuid>, table: map<Uuid, V>) {
    && (forall i, j | 0 <= i < j < |keys| :: keys[i] != keys[j])
    && (forall k :: k in table <==> k in keys)
  }

  /** The candidate dictionary holds exactly the joined records of the union, in union order. */
  ghost predicate HoldsUnion(keys: seq<Uuid>, table: map<Uuid, Candidate>,
                             dense: seq<Ranked<ChunkRow>>, sparse: seq<Ranked<ChunkRow>>) {
    var u := Union(dense, sparse);
    && Ordered(keys, table) && |keys| == |u|
    && forall i | 0 <= i < |u| :: keys[i] == u[i].id && table[keys[i]] == Joined(dense, sparse, u[i])
  }

  lemma {:induction false} RankIsUnique(list: seq<Ranked<ChunkRow>>, i: nat)
    requires DistinctItems(list) && i < |list|
    ensures RankOf(list, list[i].item.id) == Some(i)
  {
  }

  lemma {:induction false} RankAppend(list: seq<Ranked<ChunkRow>>, x: Ranked<ChunkRow>, id: Uuid)
    ensures RankOf(list + [x], id) ==
            if RankOf(list, id).Some? then RankOf(list, id) else if x.item.id == id then Some(|list|) else None
  {
    assert (list + [x])[..|list|] == list;
  }

  lemma {:induction false} JoinedAppend(dense: seq<Ranked<ChunkRow>>, sparse: seq<Ranked<ChunkRow>>,
                                       x: Ranked<ChunkRow>, chunk: ChunkRow)
    requires DistinctItems(sparse + [x])
    ensures chunk.id != x.item.id ==> Joined(dense, sparse + [x], chunk) == Joined(dense, sparse, chunk)
    ensures chunk.id == x.item.id ==>
      Joined(dense, sparse + [x], chunk)
        == Joined(dense, sparse, chunk).(methods := MethodSet(dense, sparse, chunk.id) + {"bm25"},
            bm25Score := Some(x.score))
    ensures chunk.id == x.item.id ==> ScoreIn(sparse, chunk.id).None?
  {
    RankAppend(sparse, x, chunk.id);
    assert (sparse + [x])[|sparse|] == x;
    assert forall i | 0 <= i < |sparse| :: (sparse + [x])[i] == sparse[i];
  }

  lemma {:induction false} UnionAppend(dense: seq<Ranked<ChunkRow>>, sparse: seq<Ranked<ChunkRow>>, x: Ranked<ChunkRow>)
    ensures Union(dense, sparse + [x]) ==
            if RankOf(dense, x.item.id).Some? then Union(dense, sparse) else Union(dense, sparse) + [x.item]
  {
    assert (sparse + [x])[..|sparse|] == sparse;
  }

  /** The first loop of step 2: one candidate per dense hit. */
  method StartCandidates(dense: seq<Ranked<ChunkRow>>) returns (keys: seq<Uuid>, table: map<Uuid, Candidate>)
    requires DistinctItems(dense)
    ensures HoldsUnion(keys, table, dense, [])
  {
    keys, table := [], map[];
    for i := 0 to |dense|
      invariant |keys| == i && Ordered(keys, table)
      invariant forall j | 0 <= j < i :: keys[j] == dense[j].item.id
      invariant forall j | 0 <= j < i ::
          table[keys[j]] == Candidate(dense[j].item, {"vector"}, Some(dense[j].score), None)
    {
      var sc := dense[i];
      table := table[sc.item.id := Candidate(sc.item, {"vector"}, Some(sc.score), None)];
      keys := keys + [sc.item.id];
    }
    forall i | 0 <= i < |dense| ensures table[keys[i]] == Joined(dense, [], dense[i].item) {
      RankIsUnique(dense, i);
    }
  }

  /** The union after one more sparse hit. */
  lemma {:induction false} UnionStep(dense: seq<Ranked<ChunkRow>>, sparse: seq<Ranked<ChunkRow>>)
    requires Legs(dense, sparse) && sparse != []
    ensures var front, last := sparse[..|sparse| - 1], sparse[|sparse| - 1];
            && Legs(dense, front) && sparse == front + [last]
            && Union(dense, sparse)
                 == Union(dense, front) + (if RankOf(dense, last.item.id).Some? then [] else [last.item])
            && RankOf(front, last.item.id).None? && RankOf(sparse, last.item.id).Some?
  {
    var front, last := sparse[..|sparse| - 1], sparse[|sparse| - 1];
    RankAppend(front, last, last.item.id);
  }

  /** Chunks of the union have distinct ids, each found by one of the legs. */
  lemma {:induction false} UnionUnique(dense: seq<Ranked<ChunkRow>>, sparse: seq<Ranked<ChunkRow>>)
    requires Legs(dense, sparse)
    ensures UniqueIds(Union(dense, sparse))
    ensures forall c <- Union(dense, sparse) :: RankOf(dense, c.id).Some? || RankOf(sparse, c.id).Some?
  {
    if sparse == [] {
      var u := Union(dense, sparse);
      forall i | 0 <= i < |u| ensures RankOf(dense, u[i].id).Some? {
        RankIsUnique(dense, i);
      }
    } else {
      var front, last := sparse[..|sparse| - 1], sparse[|sparse| - 1];
      UnionStep(dense, sparse);
      UnionUnique(dense, front);
      forall id: Uuid ensures RankOf(front, id).Some? ==> RankOf(sparse, id).Some? {
        RankAppend(front, last, id);
      }
    }
  }

  /** Each chunk of the union is a hit of one of the legs. */
  lemma {:induction false} UnionSources(dense: seq<Ranked<ChunkRow>>, sparse: seq<Ranked<ChunkRow>>, c: ChunkRow)
    requires Legs(dense, sparse) && c in Union(dense, sparse)
    ensures (exists x <- dense :: x.item == c) || (exists x <- sparse :: x.item == c)
  {
    if sparse == [] {
      var i :| 0 <= i < |Union(dense, sparse)| && Union(dense, sparse)[i] == c;
      assert dense[i] in dense;
    } else {
      UnionStep(dense, sparse);
      if c in Union(dense, sparse[..|sparse| - 1]) {
        UnionSources(dense, sparse[..|sparse| - 1], c);
      } else {
        assert sparse[|sparse| - 1] in sparse;
      }
    }
  }

  /** Each hit of a leg is in the union, a sparse one possibly through the dense hit of the same id. */
  lemma {:induction false} UnionCovers(dense: seq<Ranked<ChunkRow>>, sparse: seq<Ranked<ChunkRow>>)
    requires Legs(dense, sparse)
    ensures forall x <- dense :: x.item in Union(dense, sparse)
    ensures forall x <- sparse :: exists c <- Union(dense, sparse) :: c.id == x.item.id
  {
    if sparse == [] {
      forall i | 0 <= i < |dense| ensures dense[i].item in Union(dense, sparse) {
        assert Union(dense, sparse)[i] == dense[i].item;
      }
    } else {
      var front, last := sparse[..|sparse| - 1], sparse[|sparse| - 1];
      UnionStep(dense, sparse);
      UnionCovers(dense, front);
      if RankOf(dense, last.item.id).Some? {
        var d := dense[RankOf(dense, last.item.id).value];
        assert d in dense && d.item in Union(dense, sparse);
      } else {
        assert last.item in Union(dense, sparse);
      }
    }
  }

  /** The union: distinct ids, nothing but hits of the legs, and all of them. */
  lemma {:induction false} UnionMembers(dense: seq<Ranked<ChunkRow>>, sparse: seq<Ranked<ChunkRow>>)
    requires Legs(dense, sparse)
    ensures UniqueIds(Union(dense, sparse))
    ensures forall c <- Union(dense, sparse) :: RankOf(dense, c.id).Some? || RankOf(sparse, c.id).Some?
    ensures forall x <- dense :: x.item in Union(dense, sparse)
    ensures forall x <- sparse :: exists c <- Union(dense, sparse) :: c.id == x.item.id
  {
    UnionUnique(dense, sparse);
    UnionCovers(dense, sparse);
  }

  /** A sparse hit already found by the dense leg completes that candidate. */
  lemma {:induction false} CompleteCandidate(keys: seq<Uuid>, table: map<Uuid, Candidate>, dense: seq<Ranked<ChunkRow>>,
                                             sparse: seq<Ranked<ChunkRow>>, x: Ranked<ChunkRow>)
    requires DistinctItems(sparse + [x]) && HoldsUnion(keys, table, dense, sparse)
    requires RankOf(dense, x.item.id).Some? && x.item.id in table
    ensures var c := table[x.item.id];
            HoldsUnion(keys, table[x.item.id := c.(methods := c.methods + {"bm25"}, bm25Score := Some(x.score))],
                       dense, sparse + [x])
  {
    var u := Union(dense, sparse);
    UnionAppend(dense, sparse, x);
    forall i | 0 <= i < |u|
      ensures u[i].id != x.item.id ==> Joined(dense, sparse + [x], u[i]) == Joined(dense, sparse, u[i])
      ensures u[i].id == x.item.id ==>
        Joined(dense, sparse + [x], u[i])
          == Joined(dense, sparse, u[i]).(methods := MethodSet(dense, sparse, u[i].id) + {"bm25"},
              bm25Score := Some(x.score))
    {
      JoinedAppend(dense, sparse, x, u[i]);
    }
  }

  /** Any other sparse hit becomes a new candidate at the end. */
  lemma {:induction false} AddCandidate(keys: seq<Uuid>, table: map<Uuid, Candidate>, dense: seq<Ranked<ChunkRow>>,
                                        sparse: seq<Ranked<ChunkRow>>, x: Ranked<ChunkRow>)
    requires DistinctItems(sparse + [x]) && HoldsUnion(keys, table, dense, sparse)
    requires RankOf(dense, x.item.id).None? && x.item.id !in table
    ensures HoldsUnion(keys + [x.item.id], table[x.item.id := Candidate(x.item, {"bm25"}, None, Some(x.score))],
                       dense, sparse + [x])
  {
    UnionAppend(dense, sparse, x);
    JoinedUnchanged(keys, table, dense, sparse, x);
    JoinedAppend(dense, sparse, x, x.item);
    assert Joined(dense, sparse + [x], x.item) == Candidate(x.item, {"bm25"}, None, Some(x.score));
  }

  lemma {:induction false} JoinedUnchanged(keys: seq<Uuid>, table: map<Uuid, Candidate>, dense: seq<Ranked<ChunkRow>>,
                                           sparse: seq<Ranked<ChunkRow>>, x: Ranked<ChunkRow>)
    requires DistinctItems(sparse + [x]) && HoldsUnion(keys, table, dense, sparse) && x.item.id !in table
    ensures forall i | 0 <= i < |keys| ::
              keys[i] in table && keys[i] != x.item.id
              && Joined(dense, sparse + [x], Union(dense, sparse)[i]) == Joined(dense, sparse, Union(dense, sparse)[i])
  {
    forall i | 0 <= i < |keys|
      ensures keys[i] in table && keys[i] != x.item.id
      ensures Joined(dense, sparse + [x], Union(dense, sparse)[i]) == Joined(dense, sparse, Union(dense, sparse)[i])
    {
      assert keys[i] in keys;
      JoinedAppend(dense, sparse, x, Union(dense, sparse)[i]);
    }
  }

  /** The dictionary has a chunk already exactly when the dense leg found it. */
  lemma {:induction false} KnownIffDense(keys: seq<Uuid>, table: map<Uuid, Candidate>, dense: seq<Ranked<ChunkRow>>,
                                         sparse: seq<Ranked<ChunkRow>>, x: Ranked<ChunkRow>)
    requires Legs(dense, sparse) && DistinctItems(sparse + [x]) && HoldsUnion(keys, table, dense, sparse)
    ensures x.item.id in table <==> RankOf(dense, x.item.id).Some?
  {
    var u, id := Union(dense, sparse), x.item.id;
    UnionMembers(dense, sparse);
    JoinedAppend(dense, sparse, x, x.item);
    if id in table {
      var i :| 0 <= i < |keys| && keys[i] == id;
      assert u[i] in u;
    }
    if RankOf(dense, id).Some? {
      var c := dense[RankOf(dense, id).value].item;
      assert c in u;
      var i :| 0 <= i < |u| && u[i] == c;
      assert keys[i] in keys;
    }
  }

  /** Step 2 of `hybrid_search`: the union of both legs, deduplicated by chunk id. */
  method GatherCandidates(dense: seq<Ranked<ChunkRow>>, sparse: seq<Ranked<ChunkRow>>) returns (merged: seq<Candidate>)
    requires Legs(dense, sparse)
    ensures |merged| == |Union(dense, sparse)|
    ensures forall i | 0 <= i < |merged| :: merged[i] == Joined(dense, sparse, Union(dense, sparse)[i])
  {
    var keys: seq<Uuid>, candidates: map<Uuid, Candidate> := StartCandidates(dense);
    assert sparse[..0] == [];
    for i := 0 to |sparse|
      invariant HoldsUnion(keys, candidates, dense, sparse[..i])
    {
      var chunk, score := sparse[i].item, sparse[i].score;
      assert sparse[..i + 1] == sparse[..i] + [sparse[i]];
      KnownIffDense(keys, candidates, dense, sparse[..i], sparse[i]);
      if chunk.id !in candidates {
        AddCandidate(keys, candidates, dense, sparse[..i], sparse[i]);
        candidates := candidates[chunk.id := Candidate(chunk, {"bm25"}, None, Some(score))];
        keys := keys + [chunk.id];
      } else {
        CompleteCandidate(keys, candidates, dense, sparse[..i], sparse[i]);
        var cand := candidates[chunk.id];
        candidates := candidates[chunk.id := cand.(methods := cand.methods + {"bm25"}, bm25Score := Some(score))];
      }
    }
    assert sparse[..|sparse|] == sparse;
    merged := seq(|keys|, i requires 0 <= i < |keys| => assert keys[i] in keys; candidates[keys[i]]);
  }

  /** The score dictionary of `_fusion_scores`, in union order. */
  ghost predicate HoldsScores(keys: seq<Uuid>, scores: map<Uuid, real>,
                              dense: seq<Ranked<ChunkRow>>, sparse: seq<Ranked<ChunkRow>>) {
    var u, raw := Union(dense, sparse), RawFusion(dense, sparse);
    && Ordered(keys, scores) && |keys| == |u|
    && forall i | 0 <= i < |u| :: keys[i] == u[i].id && scores[keys[i]] == raw[i]
  }

  /** `scores.get(id, 0.0)`. */
  function At(scores: map<Uuid, real>, id: Uuid): real {
    if id in scores then scores[id] else 0.0
  }

  /** Raw scores when one more sparse hit arrives: only that hit's chunk moves. */
  lemma {:induction false} RawStep(dense: seq<Ranked<ChunkRow>>, sparse: seq<Ranked<ChunkRow>>, x: Ranked<ChunkRow>)
    requires DistinctItems(sparse + [x])
    ensures var u := Union(dense, sparse);
            var share := 1.0 / (RRF_K + |sparse|) as real;
            && (forall i | 0 <= i < |u| ::
                 Union(dense, sparse + [x])[i] == u[i]
                 && RawFusion(dense, sparse + [x])[i]
                      == RawFusion(dense, sparse)[i] + if u[i].id == x.item.id then share else 0.0)
            && (RankOf(dense, x.item.id).None? ==> RawFusion(dense, sparse + [x])[|u|] == share)
  {
    var u := Union(dense, sparse);
    UnionAppend(dense, sparse, x);
    forall i | 0 <= i < |u|
      ensures Reciprocal(sparse + [x], u[i].id)
           == Reciprocal(sparse, u[i].id) + if u[i].id == x.item.id then 1.0 / (RRF_K + |sparse|) as real else 0.0
    {
      ReciprocalAppend(sparse, x, u[i].id);
    }
    ReciprocalAppend(sparse, x, x.item.id);
    NewIsUnranked(sparse, x);
  }

  lemma {:induction false} NewIsUnranked(sparse: seq<Ranked<ChunkRow>>, x: Ranked<ChunkRow>)
    requires DistinctItems(sparse + [x])
    ensures RankOf(sparse, x.item.id).None?
  {
    assert (sparse + [x])[|sparse|] == x;
    assert forall i | 0 <= i < |sparse| :: (sparse + [x])[i] == sparse[i];
  }

  lemma {:induction false} ReciprocalAppend(sparse: seq<Ranked<ChunkRow>>, x: Ranked<ChunkRow>, id: Uuid)
    requires DistinctItems(sparse + [x])
    ensures Reciprocal(sparse + [x], id) == Reciprocal(sparse, id) + if id == x.item.id
        then 1.0 / (RRF_K + |sparse|) as real else 0.0
  {
    NewIsUnranked(sparse, x);
    RankAppend(sparse, x, id);
  }

  lemma {:induction false} RaiseScore(keys: seq<Uuid>, scores: map<Uuid, real>, dense: seq<Ranked<ChunkRow>>,
                                      sparse: seq<Ranked<ChunkRow>>, x: Ranked<ChunkRow>)
    requires DistinctItems(sparse + [x]) && HoldsScores(keys, scores, dense, sparse)
    requires RankOf(dense, x.item.id).Some? && x.item.id in scores
    ensures var id := x.item.id;
            HoldsScores(keys, scores[id := At(scores, id) + 1.0 / (RRF_K + |sparse|) as real], dense, sparse + [x])
  {
    UnionAppend(dense, sparse, x);
    RawStep(dense, sparse, x);
  }

  lemma {:induction false} AddScore(keys: seq<Uuid>, scores: map<Uuid, real>, dense: seq<Ranked<ChunkRow>>,
                                    sparse: seq<Ranked<ChunkRow>>, x: Ranked<ChunkRow>)
    requires DistinctItems(sparse + [x]) && HoldsScores(keys, scores, dense, sparse)
    requires RankOf(dense, x.item.id).None? && x.item.id !in scores
    ensures var id := x.item.id;
            HoldsScores(keys + [id], scores[id := At(scores, id) + 1.0 / (RRF_K + |sparse|) as real], dense,
                sparse + [x])
  {
    UnionAppend(dense, sparse, x);
    RawStep(dense, sparse, x);
    assert forall i | 0 <= i < |keys| :: keys[i] in keys;
  }

  lemma {:induction false} ScoredIffDense(keys: seq<Uuid>, scores: map<Uuid, real>, dense: seq<Ranked<ChunkRow>>,
                                          sparse: seq<Ranked<ChunkRow>>, x: Ranked<ChunkRow>)
    requires Legs(dense, sparse) && DistinctItems(sparse + [x]) && HoldsScores(keys, scores, dense, sparse)
    ensures x.item.id in scores <==> RankOf(dense, x.item.id).Some?
  {
    var u, id := Union(dense, sparse), x.item.id;
    UnionMembers(dense, sparse);
    JoinedAppend(dense, sparse, x, x.item);
    if id in scores {
      var i :| 0 <= i < |keys| && keys[i] == id;
      assert u[i] in u;
    }
    if RankOf(dense, id).Some? {
      var c := dense[RankOf(dense, id).value].item;
      assert c in u;
      var i :| 0 <= i < |u| && u[i] == c;
      assert keys[i] in keys;
    }
  }

  /** The dense loop of `_fusion_scores`. */
  method StartScores(dense: seq<Ranked<ChunkRow>>) returns (keys: seq<Uuid>, scores: map<Uuid, real>)
    requires DistinctItems(dense)
    ensures HoldsScores(keys, scores, dense, [])
  {
    keys, scores := [], map[];
    for rank := 0 to |dense|
      invariant |keys| == rank && Ordered(keys, scores)
      invariant forall j | 0 <= j < rank :: keys[j] == dense[j].item.id && scores[keys[j]] == 1.0 / (RRF_K + j) as real
    {
      var id := dense[rank].item.id;
      scores := scores[id := At(scores, id) + 1.0 / (RRF_K + rank) as real];
      keys := keys + [id];
    }
    forall i | 0 <= i < |dense| ensures RawFusion(dense, [])[i] == scores[keys[i]] {
      RankIsUnique(dense, i);
    }
  }

  /** `_fusion_scores`: reciprocal ranks of both lists, summed per chunk and min-max normalised. */
  method FusionScores(dense: seq<Ranked<ChunkRow>>, sparse: seq<Ranked<ChunkRow>>) returns (fusion: map<Uuid, real>)
    requires Legs(dense, sparse)
    ensures forall i | 0 <= i < |Union(dense, sparse)| ::
              var id := Union(dense, sparse)[i].id;
              id in fusion && fusion[id] == Fusion(dense, sparse)[i]
  {
    var keys: seq<Uuid>, scores: map<Uuid, real> := StartScores(dense);
    assert sparse[..0] == [];
    for rank := 0 to |sparse|
      invariant HoldsScores(keys, scores, dense, sparse[..rank])
    {
      var id := sparse[rank].item.id;
      assert sparse[..rank + 1] == sparse[..rank] + [sparse[rank]];
      ScoredIffDense(keys, scores, dense, sparse[..rank], sparse[rank]);
      if id !in scores {
        AddScore(keys, scores, dense, sparse[..rank], sparse[rank]);
        keys := keys + [id];
      } else {
        RaiseScore(keys, scores, dense, sparse[..rank], sparse[rank]);
      }
      scores := scores[id := At(scores, id) + 1.0 / (RRF_K + rank) as real];
    }
    assert sparse[..|sparse|] == sparse;
    fusion := Normalized(keys, scores, dense, sparse);
  }

  /** The min-max step of `_fusion_scores`. */
  method Normalized(keys: seq<Uuid>, scores: map<Uuid, real>, ghost dense: seq<Ranked<ChunkRow>>,
                    ghost sparse: seq<Ranked<ChunkRow>>)
    returns (fusion: map<Uuid, real>)
    requires Legs(dense, sparse) && HoldsScores(keys, scores, dense, sparse)
    ensures forall i | 0 <= i < |Union(dense, sparse)| ::
              var id := Union(dense, sparse)[i].id;
              id in fusion && fusion[id] == Fusion(dense, sparse)[i]
  {
    forall i | 0 <= i < |keys| ensures keys[i] in scores {
      assert keys[i] in keys;
    }
    var values := seq(|keys|, i requires 0 <= i < |keys| => scores[keys[i]]);
    assert values == RawFusion(dense, sparse);
    var norm := MinMax(values);
    fusion := map i | 0 <= i < |keys| :: keys[i] := norm[i];
  }

  /** The two legs of one search meet the conditions of the join. */
  lemma {:induction false} LegsOfSearch(e: Engine, rows: seq<ChunkRow>, tenant: Uuid, allowed: Access, query: string,
                                        embedding: seq<real>)
    requires UniqueIds(rows)
    ensures var dense := VectorSearch(e, rows, tenant, allowed, embedding, e.vectorCandidates);
            var sparse := Sparse(e, rows, tenant, allowed, query, e.bm25Candidates);
            && Legs(dense, sparse)
            && (forall x <- dense :: x.item in Visible(rows, tenant, allowed))
            && (forall x <- sparse :: x.item in Visible(rows, tenant, allowed))
  {
    VisibleKeepsUniqueIds(rows, tenant, allowed);
    DenseMembers(e, rows, tenant, allowed, embedding);
    SparseMembers(e, rows, tenant, allowed, query);
    LegsFrom(VectorSearch(e, rows, tenant, allowed, embedding, e.vectorCandidates),
             Sparse(e, rows, tenant, allowed, query, e.bm25Candidates), Visible(rows, tenant, allowed));
  }

  lemma {:induction false} LegsFrom(dense: seq<Ranked<ChunkRow>>, sparse: seq<Ranked<ChunkRow>>, chunks: seq<ChunkRow>)
    requires DistinctItems(dense) && DistinctItems(sparse) && UniqueIds(chunks)
    requires (forall x <- dense :: x.item in chunks) && (forall x <- sparse :: x.item in chunks)
    ensures Legs(dense, sparse)
  {
    assert forall i | 0 <= i < |dense| :: dense[i] in dense;
    assert forall j | 0 <= j < |sparse| :: sparse[j] in sparse;
  }

  lemma {:induction false} DenseMembers(e: Engine, rows: seq<ChunkRow>, tenant: Uuid, allowed: Access,
                                        embedding: seq<real>)
    requires UniqueIds(Visible(rows, tenant, allowed))
    ensures var dense := VectorSearch(e, rows, tenant, allowed, embedding, e.vectorCandidates);
            DistinctItems(dense) && forall x <- dense :: x.item in Visible(rows, tenant, allowed)
  {
    TopOfDistinct(WithCosine(e, Visible(rows, tenant, allowed), embedding), Visible(rows, tenant, allowed),
        e.vectorCandidates);
  }

  lemma {:induction false} SparseMembers(e: Engine, rows: seq<ChunkRow>, tenant: Uuid, allowed: Access, query: string)
    requires UniqueIds(Visible(rows, tenant, allowed))
    ensures var sparse := Sparse(e, rows, tenant, allowed, query, e.bm25Candidates);
            DistinctItems(sparse) && forall x <- sparse :: x.item in Visible(rows, tenant, allowed)
  {
    var chunks := Visible(rows, tenant, allowed);
    if chunks != [] {
      var docs, terms := TokensOf(e.lex, chunks), Terms(e.lex.tokens(query));
      KeptMembers(e.lex, docs, chunks, terms);
      TopOfDistinct(Kept(e.lex, docs, chunks, terms), chunks, e.bm25Candidates);
    }
  }

  /** Sorting and cutting keeps rows distinct and within the chunks they came from. */
  lemma {:induction false} TopOfDistinct(s: seq<Ranked<ChunkRow>>, chunks: seq<ChunkRow>, k: nat)
    requires DistinctItems(s) && UniqueIds(chunks) && forall x <- s :: x.item in chunks
    ensures DistinctItems(Take(Sort(s), k)) && forall x <- Take(Sort(s), k) :: x.item in chunks
  {
    SortOrders(s);
    var t := Sort(s);
    forall x | x in t ensures x.item in chunks {
      SortMembers(s, x);
    }
    DistinctByCount(s, t);
  }

  /** Distinct ids are a property of the multiset of elements. */
  lemma {:induction false} DistinctByCount(s: seq<Ranked<ChunkRow>>, t: seq<Ranked<ChunkRow>>)
    requires DistinctItems(s) && multiset(t) == multiset(s)
    ensures DistinctItems(t)
  {
    NoRepeatsByCount(s, t);
    forall i, j | 0 <= i < j < |t| ensures t[i].item.id != t[j].item.id {
      assert t[i] in multiset(s) && t[j] in multiset(s);
    }
  }

  /** The blending loop of step 4. */
  method BlendLoop(w: real, merged: seq<Candidate>, fusion: map<Uuid, real>, rerankScores: seq<real>,
                   ghost u: seq<ChunkRow>, ghost dense: seq<Ranked<ChunkRow>>, ghost sparse: seq<Ranked<ChunkRow>>,
                   ghost fused: seq<real>) returns (results: seq<Ranked<Hit>>)
    requires |merged| == |u| == |fused| == |rerankScores|
    requires forall i | 0 <= i < |u| :: merged[i] == Joined(dense, sparse, u[i])
    requires w < 1.0 ==> forall i | 0 <= i < |u| :: At(fusion, u[i].id) == fused[i]
    ensures |results| == |u|
    ensures forall i | 0 <= i < |u| ::
              results[i] == BlendedEntry(w, u, dense, sparse, fused, rerankScores, MinMax(rerankScores), i)
  {
    var rrNorm := MinMax(rerankScores);
    results := [];
    for i := 0 to |merged|
      invariant |results| == i
      invariant forall j | 0 <= j < i :: results[j] == BlendedEntry(w, u, dense, sparse, fused, rerankScores, rrNorm, j)
    {
      var cand := merged[i];
      var score := Blend(w, rrNorm[i], At(fusion, cand.chunk.id), rerankScores[i]);
      results := results + [Ranked(Hit(cand.chunk, SortedMethods(cand.methods)), score)];
    }
  }

  /** Steps 3 and 4 of `hybrid_search`: rescore the candidates and blend the two scores. */
  method ScoreCandidates(e: Engine, query: string, merged: seq<Candidate>,
                         dense: seq<Ranked<ChunkRow>>, sparse: seq<Ranked<ChunkRow>>)
                             returns (results: seq<Ranked<Hit>>)
    requires ScoresAll(e) && Legs(dense, sparse) && |merged| == |Union(dense, sparse)|
    requires forall i | 0 <= i < |merged| :: merged[i] == Joined(dense, sparse, Union(dense, sparse)[i])
    ensures results == Blended(e, query, dense, sparse)
  {
    var passages := seq(|merged|, i requires 0 <= i < |merged| => merged[i].chunk.text);
    assert passages == Texts(Union(dense, sparse));
    var rerankScores := e.rerank(query, passages);
    var fusion: map<Uuid, real> := map[];
    if e.rerankWeight < 1.0 {
      fusion := FusionScores(dense, sparse);
    }
    results := BlendLoop(e.rerankWeight, merged, fusion, rerankScores,
                         Union(dense, sparse), dense, sparse, Fusion(dense, sparse));
  }

  /** `hybrid_search`. */
  method HybridSearch(e: Engine, rows: seq<ChunkRow>, tenant: Uuid, allowed: Access, query: string,
                      embedding: seq<real>, finalK: Option<nat>) returns (results: seq<Ranked<Hit>>)
    requires UniqueIds(rows) && ScoresAll(e)
    ensures results == Hybrid(e, rows, tenant, allowed, query, embedding, finalK)
  {
    if DeniesAll(allowed) {
      return [];
    }
    var dense := VectorSearch(e, rows, tenant, allowed, embedding, e.vectorCandidates);
    var sparse: seq<Ranked<ChunkRow>> := [];
    if e.enableBm25 {
      sparse := SearchChunks(e.lex, rows, tenant, allowed, query, e.bm25Candidates);
    }
    LegsOfSearch(e, rows, tenant, allowed, query, embedding);
    var merged := GatherCandidates(dense, sparse);
    if merged == [] {
      return [];
    }
    results := ScoreCandidates(e, query, merged, dense, sparse);
    results := Take(Sort(results), OrDefault(finalK, e.finalTopK));
  }

  // ---------- What a search returns ----------

  function Ids(list: seq<Ranked<ChunkRow>>): set<Uuid> {
    set i | 0 <= i < |list| :: list[i].item.id
  }

  predicate DistinctHits(r: seq<Ranked<Hit>>) {
    forall i, j | 0 <= i < j < |r| :: r[i].item.chunk.id != r[j].item.chunk.id
  }

  /** A hit names exactly the legs that found its chunk. */
  predicate NamesItsLegs(h: Hit, dense: seq<Ranked<ChunkRow>>, sparse: seq<Ranked<ChunkRow>>) {
    && ("vector" in h.methods <==> h.chunk.id in Ids(dense))
    && ("bm25" in h.methods <==> h.chunk.id in Ids(sparse))
    && (forall m <- h.methods :: m == "vector" || m == "bm25")
    && (forall i, j | 0 <= i < j < |h.methods| :: h.methods[i] != h.methods[j])
  }

  lemma {:induction false} RankIffId(list: seq<Ranked<ChunkRow>>, id: Uuid)
    ensures RankOf(list, id).Some? <==> id in Ids(list)
  {
  }

  /** A union without repeated ids has one chunk per id. */
  lemma {:induction false} CountById(chunks: seq<ChunkRow>, ids: set<Uuid>)
    requires UniqueIds(chunks) && forall id :: id in ids <==> exists c <- chunks :: c.id == id
    ensures |chunks| == |ids|
  {
    if chunks != [] {
      var front, last := chunks[..|chunks| - 1], chunks[|chunks| - 1];
      assert chunks == front + [last];
      forall id ensures id in ids - {last.id} <==> exists c <- front :: c.id == id {
        if id in ids - {last.id} {
          var c :| c in chunks && c.id == id;
        }
        if exists c <- front :: c.id == id {
          var c :| c in front && c.id == id;
          assert c in chunks;
        }
      }
      CountById(front, ids - {last.id});
      assert last in chunks;
    } else {
      assert ids == {};
    }
  }

  /** Best first, at most one entry per chunk id, each a visible row naming the legs that found it. */
  ghost predicate WellShaped(r: seq<Ranked<Hit>>, dense: seq<Ranked<ChunkRow>>, sparse: seq<Ranked<ChunkRow>>,
                             visible: seq<ChunkRow>) {
    && Descending(r) && DistinctHits(r)
    && (forall x <- r :: x.item.chunk in visible)
    && (forall x <- r :: NamesItsLegs(x.item, dense, sparse))
  }

  /**
   * The shape of every search result. Exactly `final_k` entries come back, unless both legs
   * together found fewer chunks.
   */
  lemma {:induction false} HybridShape(e: Engine, rows: seq<ChunkRow>, tenant: Uuid, allowed: Access, query: string,
                                       embedding: seq<real>, finalK: Option<nat>)
    requires UniqueIds(rows) && ScoresAll(e)
    ensures var r := Hybrid(e, rows, tenant, allowed, query, embedding, finalK);
            var dense := VectorSearch(e, rows, tenant, allowed, embedding, e.vectorCandidates);
            var sparse := Sparse(e, rows, tenant, allowed, query, e.bm25Candidates);
            var k, found := OrDefault(finalK, e.finalTopK), |Ids(dense) + Ids(sparse)|;
            && WellShaped(r, dense, sparse, Visible(rows, tenant, allowed))
            && |r| == if k < found then k else found
  {
    var dense := VectorSearch(e, rows, tenant, allowed, embedding, e.vectorCandidates);
    var sparse := Sparse(e, rows, tenant, allowed, query, e.bm25Candidates);
    LegsOfSearch(e, rows, tenant, allowed, query, embedding);
    UnionCount(dense, sparse);
    SortedShape(e, query, dense, sparse, Visible(rows, tenant, allowed));
    TopKeepsShape(Sort(Blended(e, query, dense, sparse)), OrDefault(finalK, e.finalTopK), dense, sparse,
        Visible(rows, tenant, allowed));
    if DeniesAll(allowed) {
      DeniedFindsNothing(e, rows, tenant, allowed, query, embedding);
    }
  }

  lemma {:induction false} TopKeepsShape(r: seq<Ranked<Hit>>, k: nat, dense: seq<Ranked<ChunkRow>>,
                                         sparse: seq<Ranked<ChunkRow>>, visible: seq<ChunkRow>)
    requires WellShaped(r, dense, sparse, visible)
    ensures WellShaped(Take(r, k), dense, sparse, visible)
  {
  }

  lemma {:induction false} DeniedFindsNothing(e: Engine, rows: seq<ChunkRow>, tenant: Uuid, allowed: Access,
                                              query: string, embedding: seq<real>)
    requires DeniesAll(allowed)
    ensures Ids(VectorSearch(e, rows, tenant, allowed, embedding, e.vectorCandidates))
              + Ids(Sparse(e, rows, tenant, allowed, query, e.bm25Candidates)) == {}
  {
  }

  lemma {:induction false} SortedShape(e: Engine, query: string, dense: seq<Ranked<ChunkRow>>,
                                       sparse: seq<Ranked<ChunkRow>>, visible: seq<ChunkRow>)
    requires ScoresAll(e) && Legs(dense, sparse)
    requires (forall y <- dense :: y.item in visible) && (forall y <- sparse :: y.item in visible)
    ensures WellShaped(Sort(Blended(e, query, dense, sparse)), dense, sparse, visible)
  {
    var b := Blended(e, query, dense, sparse);
    SortOrders(b);
    UnionUnique(dense, sparse);
    DistinctBlended(b, Sort(b), Union(dense, sparse));
    forall x | x in Sort(b) ensures x.item.chunk in visible && NamesItsLegs(x.item, dense, sparse) {
      SortMembers(b, x);
      EntryFacts(e, query, dense, sparse, visible, x);
    }
  }

  lemma {:induction false} UnionCount(dense: seq<Ranked<ChunkRow>>, sparse: seq<Ranked<ChunkRow>>)
    requires Legs(dense, sparse)
    ensures |Union(dense, sparse)| == |Ids(dense) + Ids(sparse)|
  {
    var u, ids := Union(dense, sparse), Ids(dense) + Ids(sparse);
    UnionMembers(dense, sparse);
    forall id: Uuid ensures id in ids <==> exists c <- u :: c.id == id {
      RankIffId(dense, id);
      RankIffId(sparse, id);
      if id in Ids(dense) {
        assert dense[RankOf(dense, id).value] in dense;
        assert dense[RankOf(dense, id).value].item in u;
      } else if id in Ids(sparse) {
        assert sparse[RankOf(sparse, id).value] in sparse;
      }
    }
    CountById(u, ids);
  }

  lemma {:induction false} EntryFacts(e: Engine, query: string, dense: seq<Ranked<ChunkRow>>,
                                      sparse: seq<Ranked<ChunkRow>>, visible: seq<ChunkRow>, x: Ranked<Hit>)
    requires ScoresAll(e) && Legs(dense, sparse) && x in Blended(e, query, dense, sparse)
    requires (forall y <- dense :: y.item in visible) && (forall y <- sparse :: y.item in visible)
    ensures x.item.chunk in visible && NamesItsLegs(x.item, dense, sparse)
  {
    var c := x.item.chunk;
    assert c in Union(dense, sparse);
    UnionSources(dense, sparse, c);
    UnionUnique(dense, sparse);
    RankIffId(dense, c.id);
    RankIffId(sparse, c.id);
  }

  /** A permutation of the blended list has one entry per chunk too. */
  lemma {:induction false} DistinctBlended(b: seq<Ranked<Hit>>, t: seq<Ranked<Hit>>, u: seq<ChunkRow>)
    requires |b| == |u| && UniqueIds(u) && forall i | 0 <= i < |b| :: b[i].item.chunk == u[i]
    requires multiset(t) == multiset(b)
    ensures DistinctHits(t)
  {
    NoRepeatsByCount(b, t);
    forall i, j | 0 <= i < j < |t| ensures t[i].item.chunk.id != t[j].item.chunk.id {
      assert t[i] in multiset(b) && t[j] in multiset(b);
    }
  }

  /** With a reranker weight in `[0, 1)`, every final score lies in `[0, 1]`. */
  lemma {:induction false} BlendedInUnit(e: Engine, rows: seq<ChunkRow>, tenant: Uuid, allowed: Access, query: string,
                                         embedding: seq<real>, finalK: Option<nat>)
    requires ScoresAll(e) && 0.0 <= e.rerankWeight < 1.0
    ensures forall x <- Hybrid(e, rows, tenant, allowed, query, embedding, finalK) :: 0.0 <= x.score <= 1.0
  {
    var dense := VectorSearch(e, rows, tenant, allowed, embedding, e.vectorCandidates);
    var sparse := Sparse(e, rows, tenant, allowed, query, e.bm25Candidates);
    forall x | x in Sort(Blended(e, query, dense, sparse)) ensures 0.0 <= x.score <= 1.0 {
      SortMembers(Blended(e, query, dense, sparse), x);
      EntryInUnit(e, query, dense, sparse, x);
    }
  }

  lemma {:induction false} EntryInUnit(e: Engine, query: string, dense: seq<Ranked<ChunkRow>>,
                                       sparse: seq<Ranked<ChunkRow>>, x: Ranked<Hit>)
    requires ScoresAll(e) && 0.0 <= e.rerankWeight < 1.0 && x in Blended(e, query, dense, sparse)
    ensures 0.0 <= x.score <= 1.0
  {
    var b := Blended(e, query, dense, sparse);
    var i :| 0 <= i < |b| && b[i] == x;
    var reranked := e.rerank(query, Texts(Union(dense, sparse)));
    ConvexInUnit(e.rerankWeight, MinMax(reranked)[i], Fusion(dense, sparse)[i], reranked[i]);
  }

  lemma {:induction false} ConvexInUnit(w: real, x: real, y: real, raw: real)
    requires 0.0 <= w < 1.0 && 0.0 <= x <= 1.0 && 0.0 <= y <= 1.0
    ensures 0.0 <= Blend(w, x, y, raw) <= 1.0
  {
    ConvexSum(w, 1.0 - w, x, y);
  }

  lemma {:induction false} ConvexSum(w: real, v: real, x: real, y: real)
    requires 0.0 <= w && 0.0 <= v && 0.0 <= x <= 1.0 && 0.0 <= y <= 1.0
    ensures 0.0 <= w * x + v * y <= w + v
  {
    var p, q := w * x, v * y;
    assert 0.0 <= p <= w by {
      ShareInUnit(w, x);
    }
    assert 0.0 <= q <= v by {
      ShareInUnit(v, y);
    }
    assert p + q <= w + v;
  }

  lemma {:induction false} ShareInUnit(c: real, x: real)
    requires c >= 0.0 && 0.0 <= x <= 1.0
    ensures 0.0 <= c * x <= c
  {
    ScaleAtMost(c, 0.0, x);
    ScaleAtMost(c, x, 1.0);
  }

  lemma {:induction false} ScaleAtMost(c: real, x: real, y: real)
    requires c >= 0.0 && x <= y
    ensures c * x <= c * y
  {
  }

  /** Chunk `a` stands no lower than chunk `b` in a list: wherever `b` is ranked, `a` is ranked no worse. */
  predicate NoWorse(list: seq<Ranked<ChunkRow>>, a: Uuid, b: Uuid) {
    RankOf(list, b).Some? ==> RankOf(list, a).Some? && RankOf(list, a).value <= RankOf(list, b).value
  }

  lemma {:induction false} ReciprocalMonotone(list: seq<Ranked<ChunkRow>>, a: Uuid, b: Uuid)
    requires NoWorse(list, a, b)
    ensures Reciprocal(list, a) >= Reciprocal(list, b)
  {
    if RankOf(list, b).Some? {
      InverseMonotone((RRF_K + RankOf(list, a).value) as real, (RRF_K + RankOf(list, b).value) as real);
    } else if RankOf(list, a).Some? {
      InversePositive((RRF_K + RankOf(list, a).value) as real);
    }
  }

  lemma {:induction false} InversePositive(x: real)
    requires x > 0.0
    ensures 1.0 / x > 0.0
  {
  }

  lemma {:induction false} InverseMonotone(x: real, y: real)
    requires 0.0 < x <= y
    ensures 1.0 / x >= 1.0 / y
  {
    var a, b := 1.0 / x, 1.0 / y;
    InversePositive(y);
    ScaleAtMost(b, x, y);
    assert a * x == 1.0 && b * y == 1.0;
    FactorNonNegative(a - b, x);
  }

  lemma {:induction false} FactorNonNegative(d: real, x: real)
    requires x > 0.0 && d * x >= 0.0
    ensures d >= 0.0
  {
  }

  /** Fusion respects ranks: standing no worse in both legs never lowers the fusion score. */
  lemma {:induction false} FusionRespectsRanks(dense: seq<Ranked<ChunkRow>>, sparse: seq<Ranked<ChunkRow>>, i: nat,
                                               j: nat)
    requires i < |Union(dense, sparse)| && j < |Union(dense, sparse)|
    requires NoWorse(dense, Union(dense, sparse)[i].id, Union(dense, sparse)[j].id)
    requires NoWorse(sparse, Union(dense, sparse)[i].id, Union(dense, sparse)[j].id)
    ensures 0.0 <= Fusion(dense, sparse)[j] <= Fusion(dense, sparse)[i] <= 1.0
  {
    ReciprocalMonotone(dense, Union(dense, sparse)[i].id, Union(dense, sparse)[j].id);
    ReciprocalMonotone(sparse, Union(dense, sparse)[i].id, Union(dense, sparse)[j].id);
  }
}
