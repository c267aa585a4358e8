/**
 * The retriever node (backend/app/agents/nodes.py): one hybrid search per sub-query, merged by best
 * score, sorted, cut, and turned into the chunks the model reads.
 */
module Retriever {
  import opened Wrappers
  import opened Store
  import opened Ranking
  import opened Retrieval
  import opened Sequences

  type Hits = seq<Ranked<Hit>>

  // ---------- Merging by best score ----------

  function IdOf(x: Ranked<Hit>): Uuid { x.item.chunk.id }

  /** Position of a chunk id in an insertion-ordered dictionary. */
  function Find(m: Hits, id: Uuid): (r: Option<nat>)
    ensures r.Some? ==> r.value < |m| && IdOf(m[r.value]) == id
    ensures r.None? ==> forall x <- m :: IdOf(x) != id
  {
    if m == [] then None
    else if IdOf(m[0]) == id then Some(0)
    else
      match Find(m[1..], id)
      case None => None
      case Some(i) => Some(i + 1)
  }

  /** A new id goes to the end; a known id keeps its place and takes the hit only if it scores higher. */
  function Put(m: Hits, x: Ranked<Hit>): Hits {
    match Find(m, IdOf(x))
    case None => m + [x]
    case Some(i) => if x.score > m[i].score then m[i := x] else m
  }

  function PutAll(m: Hits, s: Hits): Hits
    decreases |s|
  {
    if s == [] then m else PutAll(Put(m, s[0]), s[1..])
  }

  /** The dictionary after all result lists were merged. */
  function Merge(lists: seq<Hits>): Hits {
    if lists == [] then [] else PutAll(Merge(lists[..|lists| - 1]), lists[|lists| - 1])
  }

  function TopMerge(lists: seq<Hits>, k: nat): Hits {
    Take(Sort(Merge(lists)), k)
  }

  /** Some entry of `m` has the id of `y` and scores at least as much. */
  ghost predicate Covers(m: Hits, y: Ranked<Hit>) {
    exists i :: 0 <= i < |m| && IdOf(m[i]) == IdOf(y) && m[i].score >= y.score
  }

  /** `m` holds, for each id of the hits seen, the best-scoring hit among them. */
  ghost predicate IsBest(m: Hits, seen: set<Ranked<Hit>>) {
    && DistinctHits(m)
    && (forall x <- m :: x in seen)
    && (forall y <- seen :: Covers(m, y))
  }

  ghost function Elements(s: Hits): set<Ranked<Hit>> {
    set x | x in s
  }

  ghost function Seen(lists: seq<Hits>): set<Ranked<Hit>> {
    if lists == [] then {} else Seen(lists[..|lists| - 1]) + Elements(lists[|lists| - 1])
  }

  lemma {:induction false} SeenIsAnyList(lists: seq<Hits>, x: Ranked<Hit>)
    ensures x in Seen(lists) <==> exists j | 0 <= j < |lists| :: x in lists[j]
  {
    if lists != [] {
      var front := lists[..|lists| - 1];
      SeenIsAnyList(front, x);
      if x in Seen(front) {
        var j :| 0 <= j < |front| && x in front[j];
        assert x in lists[j];
      }
      if j :| 0 <= j < |lists| && x in lists[j] && j < |front| {
        assert x in front[j];
      }
    }
  }

  lemma {:induction false} PutCovers(m: Hits, x: Ranked<Hit>, y: Ranked<Hit>)
    requires Covers(m, y) || y == x
    ensures Covers(Put(m, x), y)
  {
    var r := Put(m, x);
    if y == x {
      var i := match Find(m, IdOf(x)) case None => |m| case Some(i) => i;
      assert IdOf(r[i]) == IdOf(y) && r[i].score >= y.score;
    } else {
      var i :| 0 <= i < |m| && IdOf(m[i]) == IdOf(y) && m[i].score >= y.score;
      assert IdOf(r[i]) == IdOf(y) && r[i].score >= y.score;
    }
  }

  lemma {:induction false} PutKeepsBest(m: Hits, x: Ranked<Hit>, seen: set<Ranked<Hit>>)
    requires IsBest(m, seen)
    ensures IsBest(Put(m, x), seen + {x})
  {
    forall y | y in seen + {x} ensures Covers(Put(m, x), y) {
      PutCovers(m, x, y);
    }
    PutDistinct(m, x);
    PutElements(m, x);
  }

  lemma {:induction false} PutDistinct(m: Hits, x: Ranked<Hit>)
    requires DistinctHits(m)
    ensures DistinctHits(Put(m, x))
  {
    assert forall i | 0 <= i < |m| :: m[i] in m;
  }

  lemma {:induction false} PutElements(m: Hits, x: Ranked<Hit>)
    ensures forall y <- Put(m, x) :: y in m || y == x
  {
  }

  lemma {:induction false} PutAllKeepsBest(m: Hits, s: Hits, seen: set<Ranked<Hit>>)
    requires IsBest(m, seen)
    ensures IsBest(PutAll(m, s), seen + Elements(s))
    decreases |s|
  {
    if s == [] {
      assert seen + Elements(s) == seen;
    } else {
      PutKeepsBest(m, s[0], seen);
      PutAllKeepsBest(Put(m, s[0]), s[1..], seen + {s[0]});
      ElementsSplit(s, seen);
    }
  }

  lemma {:induction false} ElementsSplit(s: Hits, seen: set<Ranked<Hit>>)
    requires s != []
    ensures seen + {s[0]} + Elements(s[1..]) == seen + Elements(s)
  {
    assert s == [s[0]] + s[1..];
  }

  /** The merged dictionary has every retrieved chunk once, with its best score. */
  lemma {:induction false} MergeIsBest(lists: seq<Hits>)
    ensures IsBest(Merge(lists), Seen(lists))
  {
    if lists != [] {
      var front, last := lists[..|lists| - 1], lists[|lists| - 1];
      MergeIsBest(front);
      PutAllKeepsBest(Merge(front), last, Seen(front));
    }
  }

  // ---------- Counting above a threshold ----------

  ghost function AtLeast(s: Hits, v: real): set<Uuid> {
    set x | x in s && x.score >= v :: IdOf(x)
  }

  lemma {:induction false} AtLeastAppend(s: Hits, x: Ranked<Hit>, v: real)
    ensures AtLeast(s + [x], v) == AtLeast(s, v) + if x.score >= v then {IdOf(x)} else {}
  {
  }

  /** In a descending list without repeated ids, position `i` scores at least `v` iff more than `i` ids do. */
  lemma {:induction false} CountTop(s: Hits, v: real, i: nat)
    requires Descending(s) && DistinctHits(s)
    ensures |AtLeast(s, v)| > i <==> |s| > i && s[i].score >= v
    ensures |AtLeast(s, v)| <= |s|
  {
    if s != [] {
      var front, last := s[..|s| - 1], s[|s| - 1];
      assert s == front + [last];
      AtLeastAppend(front, last, v);
      CountTop(front, v, i);
      if front != [] {
        CountTop(front, v, |front| - 1);
      }
      NewId(front, last, v);
    }
  }

  lemma {:induction false} NewId(front: Hits, last: Ranked<Hit>, v: real)
    requires DistinctHits(front + [last])
    ensures IdOf(last) !in AtLeast(front, v)
  {
    forall i | 0 <= i < |front| ensures IdOf(front[i]) != IdOf(last) {
      assert (front + [last])[i] == front[i] && (front + [last])[|front|] == last;
    }
  }

  lemma {:induction false} AtLeastPermuted(s: Hits, v: real)
    ensures AtLeast(Sort(s), v) == AtLeast(s, v)
  {
    forall x ensures x in Sort(s) <==> x in s {
      SortMembers(s, x);
    }
  }

  // ---------- Early truncation ----------

  function CutAll(lists: seq<Hits>, k: nat): (r: seq<Hits>)
    ensures |r| == |lists|
    ensures forall j | 0 <= j < |lists| :: r[j] == Take(lists[j], k)
  {
    seq(|lists|, j requires 0 <= j < |lists| => Take(lists[j], k))
  }

  /** Result lists as `hybrid_search` returns them: best first, no chunk twice. */
  predicate Rankings(lists: seq<Hits>) {
    forall j | 0 <= j < |lists| :: Descending(lists[j]) && DistinctHits(lists[j])
  }

  function ScoresOf(s: Hits): (r: seq<real>)
    ensures |r| == |s|
  {
    seq(|s|, i requires 0 <= i < |s| => s[i].score)
  }

  function IdsOf(s: Hits): (r: seq<Uuid>)
    ensures |r| == |s|
  {
    seq(|s|, i requires 0 <= i < |s| => IdOf(s[i]))
  }

  function AtMost(n: nat, k: nat): nat {
    if n < k then n else k
  }

  lemma {:induction false} SubsetCount(a: set<Uuid>, b: set<Uuid>)
    requires a <= b
    ensures |a| <= |b|
  {
    if a != {} {
      var x :| x in a;
      SubsetCount(a - {x}, b - {x});
    }
  }

  lemma {:induction false} CutSeen(lists: seq<Hits>, k: nat, x: Ranked<Hit>)
    requires x in Seen(CutAll(lists, k))
    ensures x in Seen(lists)
  {
    SeenIsAnyList(CutAll(lists, k), x);
    var j :| 0 <= j < |lists| && x in CutAll(lists, k)[j];
    assert x in lists[j];
    SeenIsAnyList(lists, x);
  }

  /** Cutting only removes ids above a threshold, never adds them. */
  lemma {:induction false} CutLowers(lists: seq<Hits>, k: nat, v: real)
    ensures AtLeast(Merge(CutAll(lists, k)), v) <= AtLeast(Merge(lists), v)
  {
    var cut, full := Merge(CutAll(lists, k)), Merge(lists);
    MergeIsBest(lists);
    MergeIsBest(CutAll(lists, k));
    forall id | id in AtLeast(cut, v) ensures id in AtLeast(full, v) {
      var x :| x in cut && x.score >= v && IdOf(x) == id;
      CutSeen(lists, k, x);
      assert Covers(full, x);
    }
  }

  /** An id lost above a threshold was pushed out of its list by `k` others above that threshold. */
  lemma {:induction false} LostMeansFull(lists: seq<Hits>, k: nat, v: real, id: Uuid)
    requires Rankings(lists)
    requires id in AtLeast(Merge(lists), v) && id !in AtLeast(Merge(CutAll(lists, k)), v)
    ensures |AtLeast(Merge(CutAll(lists, k)), v)| >= k
  {
    var cut, full := CutAll(lists, k), Merge(lists);
    MergeIsBest(lists);
    MergeIsBest(cut);
    var x :| x in full && x.score >= v && IdOf(x) == id;
    SeenIsAnyList(lists, x);
    var j :| 0 <= j < |lists| && x in lists[j];
    var p :| 0 <= p < |lists[j]| && lists[j][p] == x;
    if p < k {
      assert cut[j][p] == x;
      CutIsCovered(cut, j, x, v);
    }
    FullListCounts(lists, k, v, j, p);
  }

  /** A list with an entry beyond position `k` above the threshold has `k` ids above it that survive the cut. */
  lemma {:induction false} FullListCounts(lists: seq<Hits>, k: nat, v: real, j: nat, p: nat)
    requires Rankings(lists) && j < |lists| && k <= p < |lists[j]| && lists[j][p].score >= v
    requires IsBest(Merge(CutAll(lists, k)), Seen(CutAll(lists, k)))
    ensures |AtLeast(Merge(CutAll(lists, k)), v)| >= k
  {
    var cut, top := CutAll(lists, k), lists[j][..k];
    assert cut[j] == top;
    assert Descending(top) && DistinctHits(top);
    TopIsAbove(top, v, k);
    forall y | y in AtLeast(top, v) ensures y in AtLeast(Merge(cut), v) {
      var h :| h in top && h.score >= v && IdOf(h) == y;
      CutIsCovered(cut, j, h, v);
    }
    SubsetCount(AtLeast(top, v), AtLeast(Merge(cut), v));
  }

  lemma {:induction false} CutIsCovered(lists: seq<Hits>, j: nat, x: Ranked<Hit>, v: real)
    requires j < |lists| && x in lists[j] && x.score >= v
    ensures IdOf(x) in AtLeast(Merge(lists), v)
  {
    MergeIsBest(lists);
    SeenIsAnyList(lists, x);
    assert Covers(Merge(lists), x);
  }

  lemma {:induction false} TopIsAbove(top: Hits, v: real, k: nat)
    requires |top| == k && DistinctHits(top) && forall h <- top :: h.score >= v
    ensures |AtLeast(top, v)| == k
  {
    if top != [] {
      var front, last := top[..k - 1], top[k - 1];
      assert top == front + [last];
      AtLeastAppend(front, last, v);
      TopIsAbove(front, v, k - 1);
    }
  }

  /** Up to `k`, cutting each list first changes no count. */
  lemma {:induction false} CutKeepsCounts(lists: seq<Hits>, k: nat, v: real)
    requires Rankings(lists)
    ensures AtMost(|AtLeast(Merge(CutAll(lists, k)), v)|, k) == AtMost(|AtLeast(Merge(lists), v)|, k)
  {
    var some, all := AtLeast(Merge(CutAll(lists, k)), v), AtLeast(Merge(lists), v);
    CutLowers(lists, k, v);
    SubsetCount(some, all);
    if some != all {
      var id :| id in all && id !in some;
      LostMeansFull(lists, k, v, id);
    }
  }

  /** Two rankings with the same counts up to `k` have the same first `k` scores. */
  lemma {:induction false} CountsFixScores(a: Hits, b: Hits, k: nat)
    requires Descending(a) && DistinctHits(a) && Descending(b) && DistinctHits(b)
    requires forall v :: AtMost(|AtLeast(a, v)|, k) == AtMost(|AtLeast(b, v)|, k)
    ensures |Take(b, k)| <= |Take(a, k)|
    ensures forall i | 0 <= i < |Take(b, k)| :: b[i].score <= a[i].score
  {
    forall i | 0 <= i < |Take(b, k)| ensures i < |a| && b[i].score <= a[i].score {
      CountTop(b, b[i].score, i);
      assert AtMost(|AtLeast(a, b[i].score)|, k) == AtMost(|AtLeast(b, b[i].score)|, k);
      CountTop(a, b[i].score, i);
    }
    var n := |Take(b, k)|;
    if n > 0 {
      assert b[n - 1].score <= a[n - 1].score;
    }
  }

  /**
   * Early truncation loses nothing: cutting every sub-query's ranking to `k` before the merge gives
   * the same top `k` scores as merging the full rankings.
   */
  lemma {:induction false} TruncationKeepsScores(lists: seq<Hits>, k: nat)
    requires Rankings(lists)
    ensures ScoresOf(TopMerge(CutAll(lists, k), k)) == ScoresOf(TopMerge(lists, k))
  {
    var a, b := Merge(CutAll(lists, k)), Merge(lists);
    MergedShape(lists);
    MergedShape(CutAll(lists, k));
    forall v ensures AtMost(|AtLeast(Sort(a), v)|, k) == AtMost(|AtLeast(Sort(b), v)|, k) {
      CutKeepsCounts(lists, k, v);
      AtLeastPermuted(a, v);
      AtLeastPermuted(b, v);
    }
    SameCountsSameScores(Sort(a), Sort(b), k);
  }

  lemma {:induction false} SameCountsSameScores(a: Hits, b: Hits, k: nat)
    requires Descending(a) && DistinctHits(a) && Descending(b) && DistinctHits(b)
    requires forall v :: AtMost(|AtLeast(a, v)|, k) == AtMost(|AtLeast(b, v)|, k)
    ensures ScoresOf(Take(a, k)) == ScoresOf(Take(b, k))
  {
    CountsFixScores(a, b, k);
    CountsFixScores(b, a, k);
  }

  /** A sorted merge is a ranking. */
  lemma {:induction false} MergedShape(lists: seq<Hits>)
    ensures Descending(Sort(Merge(lists))) && DistinctHits(Sort(Merge(lists)))
  {
    var m := Merge(lists);
    MergeIsBest(lists);
    SortOrders(m);
    DistinctPermuted(m, Sort(m));
  }

  lemma {:induction false} DistinctPermuted(m: Hits, t: Hits)
    requires DistinctHits(m) && multiset(t) == multiset(m)
    ensures DistinctHits(t)
  {
    NoRepeatsByCount(m, t);
    forall i, j | 0 <= i < j < |t| ensures IdOf(t[i]) != IdOf(t[j]) {
      assert t[i] in multiset(m) && t[j] in multiset(m);
    }
  }

  lemma {:induction false} MergeAppend(lists: seq<Hits>, last: Hits)
    ensures Merge(lists + [last]) == PutAll(Merge(lists), last)
  {
    assert (lists + [last])[..|lists|] == lists;
  }

  // ---------- The node ----------

  /** What the model reads of a chunk. */
  datatype RetrievedChunk = RetrievedChunk(chunkId: Uuid, documentId: Uuid, chunkIndex: nat, text: string, score: real,
      filename: string)

  /** The two tables the node reads: chunk rows and document file names. */
  datatype Db = Db(chunks: seq<ChunkRow>, filenames: map<Uuid, string>)

  function FilenameOf(db: Db, document: Uuid): string {
    if document in db.filenames then db.filenames[document] else ""
  }

  function Retrieve1(db: Db, x: Ranked<Hit>): RetrievedChunk {
    var ch := x.item.chunk;
    RetrievedChunk(ch.id, ch.document, ch.index, ch.text, x.score, FilenameOf(db, ch.document))
  }

  function Present(db: Db, top: Hits): (r: seq<RetrievedChunk>)
    ensures |r| == |top|
    ensures forall i | 0 <= i < |r| :: r[i] == Retrieve1(db, top[i])
  {
    seq(|top|, i requires 0 <= i < |top| => Retrieve1(db, top[i]))
  }

  /** The result list of each sub-query. */
  ghost function Searches(e: Engine, embed: string -> seq<real>, db: Db, tenant: Uuid, allowed: Access,
                          subqueries: seq<string>)
    : (r: seq<Hits>)
    requires ScoresAll(e)
    ensures |r| == |subqueries|
    ensures forall i | 0 <= i < |r| ::
              r[i] == Hybrid(e, db.chunks, tenant, allowed, subqueries[i], embed(subqueries[i]), Some(e.finalTopK))
  {
    seq(|subqueries|, i requires 0 <= i < |subqueries| =>
      Hybrid(e, db.chunks, tenant, allowed, subqueries[i], embed(subqueries[i]), Some(e.finalTopK)))
  }

  /** `retriever` as a function of the database. */
  ghost function Retrieved(e: Engine, embed: string -> seq<real>, db: Db, tenant: Uuid, allowed: Access,
                           subqueries: seq<string>): (r: seq<RetrievedChunk>)
    requires ScoresAll(e)
  {
    Present(db, TopMerge(Searches(e, embed, db, tenant, allowed, subqueries), e.finalTopK))
  }

  /** The merge dictionary, with its keys in insertion order, against its abstract value. */
  ghost predicate Holds(keys: seq<Uuid>, table: map<Uuid, Ranked<Hit>>, m: Hits) {
    && Ordered(keys, table) && |keys| == |m| && DistinctHits(m)
    && forall i | 0 <= i < |m| :: keys[i] == IdOf(m[i]) && table[keys[i]] == m[i]
  }

  lemma {:induction false} HoldsFind(keys: seq<Uuid>, table: map<Uuid, Ranked<Hit>>, m: Hits, id: Uuid)
    requires Holds(keys, table, m)
    ensures id in table <==> Find(m, id).Some?
    ensures id in table ==> table[id] == m[Find(m, id).value]
  {
    if id in table {
      var i :| 0 <= i < |keys| && keys[i] == id;
      assert IdOf(m[i]) == id && m[i] in m;
    }
    if Find(m, id).Some? {
      assert keys[Find(m, id).value] in keys;
    }
  }

  /** One assignment of the inner loop is one step of the merge. */
  lemma {:induction false} HoldsPut(keys: seq<Uuid>, table: map<Uuid, Ranked<Hit>>, m: Hits, sc: Ranked<Hit>)
    requires Holds(keys, table, m)
    ensures IdOf(sc) !in table ==> Holds(keys + [IdOf(sc)], table[IdOf(sc) := sc], Put(m, sc))
    ensures IdOf(sc) in table && sc.score > table[IdOf(sc)].score ==> Holds(keys, table[IdOf(sc) := sc], Put(m, sc))
    ensures IdOf(sc) in table && sc.score <= table[IdOf(sc)].score ==> Put(m, sc) == m
  {
    HoldsFind(keys, table, m, IdOf(sc));
    if IdOf(sc) !in table {
      HoldsNew(keys, table, m, sc);
    } else if sc.score > table[IdOf(sc)].score {
      HoldsBetter(keys, table, m, sc);
    }
  }

  lemma {:induction false} HoldsNew(keys: seq<Uuid>, table: map<Uuid, Ranked<Hit>>, m: Hits, sc: Ranked<Hit>)
    requires Holds(keys, table, m) && IdOf(sc) !in table && Find(m, IdOf(sc)).None?
    ensures Holds(keys + [IdOf(sc)], table[IdOf(sc) := sc], m + [sc])
  {
    assert forall i | 0 <= i < |keys| :: keys[i] in keys;
  }

  lemma {:induction false} HoldsBetter(keys: seq<Uuid>, table: map<Uuid, Ranked<Hit>>, m: Hits, sc: Ranked<Hit>)
    requires Holds(keys, table, m) && Find(m, IdOf(sc)).Some?
    ensures Holds(keys, table[IdOf(sc) := sc], m[Find(m, IdOf(sc)).value := sc])
  {
    var j := Find(m, IdOf(sc)).value;
    assert forall i | 0 <= i < |m| && i != j :: IdOf(m[i]) != IdOf(sc);
  }

  /** The inner loop: one sub-query's results enter the dictionary. */
  method MergeResults(keys0: seq<Uuid>, table0: map<Uuid, Ranked<Hit>>, results: Hits, ghost m: Hits)
    returns (keys: seq<Uuid>, merged: map<Uuid, Ranked<Hit>>)
    requires Holds(keys0, table0, m)
    ensures Holds(keys, merged, PutAll(m, results))
  {
    keys, merged := keys0, table0;
    ghost var now := m;
    for i := 0 to |results|
      invariant Holds(keys, merged, now) && PutAll(now, results[i..]) == PutAll(m, results)
    {
      var sc := results[i];
      var id := sc.item.chunk.id;
      HoldsPut(keys, merged, now, sc);
      assert results[i..][0] == sc && results[i..][1..] == results[i + 1..];
      if id !in merged {
        keys := keys + [id];
        merged := merged[id := sc];
      } else if sc.score > merged[id].score {
        merged := merged[id := sc];
      }
      now := Put(now, sc);
    }
  }

  lemma {:induction false} SearchesAppend(e: Engine, embed: string -> seq<real>, db: Db, tenant: Uuid, allowed: Access,
                                          subqueries: seq<string>, i: nat)
    requires ScoresAll(e) && i < |subqueries|
    ensures Searches(e, embed, db, tenant, allowed, subqueries[..i + 1])
         == Searches(e, embed, db, tenant, allowed, subqueries[..i])
              + [Hybrid(e, db.chunks, tenant, allowed, subqueries[i], embed(subqueries[i]), Some(e.finalTopK))]
  {
    var short := Searches(e, embed, db, tenant, allowed, subqueries[..i]);
    var last := Hybrid(e, db.chunks, tenant, allowed, subqueries[i], embed(subqueries[i]), Some(e.finalTopK));
    var long := Searches(e, embed, db, tenant, allowed, subqueries[..i + 1]);
    forall j | 0 <= j < i ensures long[j] == short[j] {
      assert subqueries[..i + 1][j] == subqueries[..i][j];
    }
    assert long[i] == last;
    Appended(long, short, last);
  }

  lemma {:induction false} Appended(long: seq<Hits>, short: seq<Hits>, last: Hits)
    requires |long| == |short| + 1 && long[|short|] == last && forall j | 0 <= j < |short| :: long[j] == short[j]
    ensures long == short + [last]
  {
  }

  /** The outer loop: every sub-query's results enter the dictionary. */
  method MergeSubqueries(e: Engine, embed: string -> seq<real>, db: Db, tenant: Uuid, allowed: Access,
                         subqueries: seq<string>)
    returns (keys: seq<Uuid>, merged: map<Uuid, Ranked<Hit>>)
    requires ScoresAll(e) && UniqueIds(db.chunks)
    ensures Holds(keys, merged, Merge(Searches(e, embed, db, tenant, allowed, subqueries)))
  {
    keys, merged := [], map[];
    for i := 0 to |subqueries|
      invariant Holds(keys, merged, Merge(Searches(e, embed, db, tenant, allowed, subqueries[..i])))
    {
      var sq := subqueries[i];
      var results := HybridSearch(e, db.chunks, tenant, allowed, sq, embed(sq), Some(e.finalTopK));
      ghost var before := Searches(e, embed, db, tenant, allowed, subqueries[..i]);
      SearchesAppend(e, embed, db, tenant, allowed, subqueries, i);
      MergeAppend(before, results);
      keys, merged := MergeResults(keys, merged, results, Merge(before));
    }
    assert subqueries[..|subqueries|] == subqueries;
  }

  /** `retriever`, after the caller's access set was computed. */
  method RunRetriever(e: Engine, embed: string -> seq<real>, db: Db, tenant: Uuid, allowed: Access,
                      subqueries: seq<string>)
    returns (chunks: seq<RetrievedChunk>)
    requires ScoresAll(e) && UniqueIds(db.chunks)
    ensures chunks == Retrieved(e, embed, db, tenant, allowed, subqueries)
  {
    var keys: seq<Uuid>, merged: map<Uuid, Ranked<Hit>> := MergeSubqueries(e, embed, db, tenant, allowed, subqueries);
    var values := seq(|keys|, i requires 0 <= i < |keys| => assert keys[i] in keys; merged[keys[i]]);
    assert values == Merge(Searches(e, embed, db, tenant, allowed, subqueries));
    var scored := Take(Sort(values), e.finalTopK);
    chunks := Decorate(db, scored);
  }

  /** The last loop of `retriever`: file names are looked up once per document. */
  method Decorate(db: Db, scored: Hits) returns (chunks: seq<RetrievedChunk>)
    ensures chunks == Present(db, scored)
  {
    var filenameCache: map<Uuid, string> := map[];
    chunks := [];
    for i := 0 to |scored|
      invariant |chunks| == i && forall j | 0 <= j < i :: chunks[j] == Retrieve1(db, scored[j])
      invariant forall d | d in filenameCache :: filenameCache[d] == FilenameOf(db, d)
    {
      var ch := scored[i].item.chunk;
      if ch.document !in filenameCache {
        filenameCache := filenameCache[ch.document := FilenameOf(db, ch.document)];
      }
      chunks := chunks + [RetrievedChunk(ch.id, ch.document, ch.index, ch.text, scored[i].score,
          filenameCache[ch.document])];
    }
  }

  // ---------- What the node returns ----------

  /**
   * For the retriever as it runs: its chunks score as the top of the full, uncut rankings of all
   * sub-queries would.
   */
  lemma {:induction false} RetrieverLosesNothing(e: Engine, embed: string -> seq<real>, db: Db, tenant: Uuid,
                                                 allowed: Access, subqueries: seq<string>)
    requires ScoresAll(e) && UniqueIds(db.chunks)
    ensures var full := FullSearches(e, embed, db, tenant, allowed, subqueries);
            && Searches(e, embed, db, tenant, allowed, subqueries) == CutAll(full, e.finalTopK)
            && ScoresOf(TopMerge(Searches(e, embed, db, tenant, allowed, subqueries), e.finalTopK))
                 == ScoresOf(TopMerge(full, e.finalTopK))
  {
    SearchesAreCut(e, embed, db, tenant, allowed, subqueries);
    TruncationKeepsScores(FullSearches(e, embed, db, tenant, allowed, subqueries), e.finalTopK);
  }

  /** The rankings `hybrid_search` would return without its final cut. */
  ghost function FullRanking(e: Engine, rows: seq<ChunkRow>, tenant: Uuid, allowed: Access, query: string,
                             embedding: seq<real>): Hits
    requires ScoresAll(e)
  {
    if DeniesAll(allowed) then []
    else Sort(Blended(e, query, VectorSearch(e, rows, tenant, allowed, embedding, e.vectorCandidates),
                      Sparse(e, rows, tenant, allowed, query, e.bm25Candidates)))
  }

  ghost function FullSearches(e: Engine, embed: string -> seq<real>, db: Db, tenant: Uuid, allowed: Access,
                              subqueries: seq<string>): (r: seq<Hits>)
    requires ScoresAll(e)
    ensures |r| == |subqueries|
    ensures forall i | 0 <= i < |r| ::
              r[i] == FullRanking(e, db.chunks, tenant, allowed, subqueries[i], embed(subqueries[i]))
  {
    seq(|subqueries|, i requires 0 <= i < |subqueries| =>
      FullRanking(e, db.chunks, tenant, allowed, subqueries[i], embed(subqueries[i])))
  }

  lemma {:induction false} SearchesAreCut(e: Engine, embed: string -> seq<real>, db: Db, tenant: Uuid, allowed: Access,
                                          subqueries: seq<string>)
    requires ScoresAll(e) && UniqueIds(db.chunks)
    ensures var full := FullSearches(e, embed, db, tenant, allowed, subqueries);
            Rankings(full) && Searches(e, embed, db, tenant, allowed, subqueries) == CutAll(full, e.finalTopK)
  {
    forall i | 0 <= i < |subqueries| ensures
      && Descending(FullSearches(e, embed, db, tenant, allowed, subqueries)[i])
      && DistinctHits(FullSearches(e, embed, db, tenant, allowed, subqueries)[i])
      && Searches(e, embed, db, tenant, allowed, subqueries)[i]
           == Take(FullSearches(e, embed, db, tenant, allowed, subqueries)[i], e.finalTopK)
    {
      FullRankingShape(e, db.chunks, tenant, allowed, subqueries[i], embed(subqueries[i]));
    }
  }

  lemma {:induction false} FullRankingShape(e: Engine, rows: seq<ChunkRow>, tenant: Uuid, allowed: Access,
                                            query: string, embedding: seq<real>)
    requires ScoresAll(e) && UniqueIds(rows)
    ensures var full := FullRanking(e, rows, tenant, allowed, query, embedding);
            && Descending(full) && DistinctHits(full)
            && (forall x <- full :: x.item.chunk in Visible(rows, tenant, allowed))
            && Hybrid(e, rows, tenant, allowed, query, embedding, Some(e.finalTopK)) == Take(full, e.finalTopK)
  {
    if !DeniesAll(allowed) {
      LegsOfSearch(e, rows, tenant, allowed, query, embedding);
      SortedShape(e, query, VectorSearch(e, rows, tenant, allowed, embedding, e.vectorCandidates),
                  Sparse(e, rows, tenant, allowed, query, e.bm25Candidates), Visible(rows, tenant, allowed));
    }
  }

  /** Every merged hit is a row of the caller's tenant in an allowed document. */
  lemma {:induction false} SeenAreVisible(e: Engine, embed: string -> seq<real>, db: Db, tenant: Uuid, allowed: Access,
                                          subqueries: seq<string>, x: Ranked<Hit>)
    requires ScoresAll(e) && UniqueIds(db.chunks)
    requires x in Seen(Searches(e, embed, db, tenant, allowed, subqueries))
    ensures x.item.chunk in Visible(db.chunks, tenant, allowed)
  {
    SeenIsAnyList(Searches(e, embed, db, tenant, allowed, subqueries), x);
    var j :| 0 <= j < |subqueries| && x in Searches(e, embed, db, tenant, allowed, subqueries)[j];
    FullRankingShape(e, db.chunks, tenant, allowed, subqueries[j], embed(subqueries[j]));
  }

  /** Nothing is retrieved from another tenant or from a document outside the access set. */
  lemma {:induction false} RetrievedAreAllowed(e: Engine, embed: string -> seq<real>, db: Db, tenant: Uuid,
                                               allowed: Access, subqueries: seq<string>)
    requires ScoresAll(e) && UniqueIds(db.chunks)
    ensures forall c <- Retrieved(e, embed, db, tenant, allowed, subqueries) ::
              && (exists row <- db.chunks :: row.id == c.chunkId && row.document == c.documentId && row.text == c.text
                                             && CanSee(row, tenant, allowed))
              && (allowed.Some? ==> c.documentId in allowed.value)
  {
    var lists := Searches(e, embed, db, tenant, allowed, subqueries);
    var top := TopMerge(lists, e.finalTopK);
    MergeIsBest(lists);
    forall i | 0 <= i < |top| ensures top[i].item.chunk in db.chunks && CanSee(top[i].item.chunk, tenant, allowed) {
      SortMembers(Merge(lists), top[i]);
      SeenAreVisible(e, embed, db, tenant, allowed, subqueries, top[i]);
      VisibleMembers(db.chunks, tenant, allowed, top[i].item.chunk);
    }
  }

  /** The caller cannot tell the two databases apart: same visible rows, same names of their documents. */
  ghost predicate AgreeForCaller(a: Db, b: Db, tenant: Uuid, allowed: Access) {
    && Visible(a.chunks, tenant, allowed) == Visible(b.chunks, tenant, allowed)
    && forall row <- Visible(a.chunks, tenant, allowed) :: FilenameOf(a, row.document) == FilenameOf(b, row.document)
  }

  /** Hidden rows are unobservable: databases that agree for the caller give identical results. */
  lemma {:induction false} HiddenRowsAreUnobservable(e: Engine, embed: string -> seq<real>, a: Db, b: Db, tenant: Uuid,
                                                     allowed: Access, subqueries: seq<string>)
    requires ScoresAll(e) && UniqueIds(a.chunks) && AgreeForCaller(a, b, tenant, allowed)
    ensures Retrieved(e, embed, a, tenant, allowed, subqueries) == Retrieved(e, embed, b, tenant, allowed, subqueries)
  {
    SearchesAgree(e, embed, a, b, tenant, allowed, subqueries);
    var lists := Searches(e, embed, a, tenant, allowed, subqueries);
    var top := TopMerge(lists, e.finalTopK);
    MergeIsBest(lists);
    forall i | 0 <= i < |top| ensures Retrieve1(a, top[i]) == Retrieve1(b, top[i]) {
      SortMembers(Merge(lists), top[i]);
      SeenAreVisible(e, embed, a, tenant, allowed, subqueries, top[i]);
    }
  }

  lemma {:induction false} SearchesAgree(e: Engine, embed: string -> seq<real>, a: Db, b: Db, tenant: Uuid,
                                         allowed: Access, subqueries: seq<string>)
    requires ScoresAll(e) && Visible(a.chunks, tenant, allowed) == Visible(b.chunks, tenant, allowed)
    ensures Searches(e, embed, a, tenant, allowed, subqueries) == Searches(e, embed, b, tenant, allowed, subqueries)
  {
    forall i | 0 <= i < |subqueries|
      ensures Searches(e, embed, a, tenant, allowed, subqueries)[i]
           == Searches(e, embed, b, tenant, allowed, subqueries)[i]
    {
    }
  }

  /** In particular, rows the caller cannot see may be added anywhere in the table. */
  lemma {:induction false} AddingHiddenRows(e: Engine, embed: string -> seq<real>, db: Db, front: seq<ChunkRow>,
                                            hidden: seq<ChunkRow>, back: seq<ChunkRow>, tenant: Uuid, allowed: Access,
                                            subqueries: seq<string>)
    requires ScoresAll(e) && db.chunks == front + back && UniqueIds(db.chunks)
    requires forall row <- hidden :: !CanSee(row, tenant, allowed)
    ensures Retrieved(e, embed, db.(chunks := front + hidden + back), tenant, allowed, subqueries)
         == Retrieved(e, embed, db, tenant, allowed, subqueries)
  {
    NoneVisible(hidden, tenant, allowed);
    VisibleAppend(front, back, tenant, allowed);
    VisibleAppend(front, hidden, tenant, allowed);
    VisibleAppend(front + hidden, back, tenant, allowed);
    HiddenRowsAreUnobservable(e, embed, db, db.(chunks := front + hidden + back), tenant, allowed, subqueries);
  }

  lemma {:induction false} NoneVisible(hidden: seq<ChunkRow>, tenant: Uuid, allowed: Access)
    requires forall row <- hidden :: !CanSee(row, tenant, allowed)
    ensures Visible(hidden, tenant, allowed) == []
  {
    if hidden != [] {
      NoneVisible(hidden[1..], tenant, allowed);
    }
  }
}
