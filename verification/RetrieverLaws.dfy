/**
 * What the retriever node answers (backend/app/agents/nodes.py): the best chunks of all sub-queries, each told
 * with its own text, place and file name.
 */
module RetrieverLaws {
  import opened Wrappers
  import opened Store
  import opened Ranking
  import opened Retrieval
  import opened Retriever

  /** A result of one of the sub-queries. */
  ghost predicate Found(e: Engine, embed: string -> seq<real>, db: Db, tenant: Uuid, allowed: Access,
                        subqueries: seq<string>, x: Ranked<Hit>)
    requires ScoresAll(e)
  {
    exists j | 0 <= j < |subqueries| ::
      x in Hybrid(e, db.chunks, tenant, allowed, subqueries[j], embed(subqueries[j]), Some(e.finalTopK))
  }

  /** The chunk handed on tells the row of a result, its score and the name of its document's file. */
  predicate Tells(db: Db, c: RetrievedChunk, x: Ranked<Hit>) {
    var row := x.item.chunk;
    && c.chunkId == row.id && c.documentId == row.document && c.chunkIndex == row.index && c.text == row.text
    && c.score == x.score
    && (if row.document in db.filenames then c.filename == db.filenames[row.document] else c.filename == "")
  }

  lemma {:induction false} FoundIsSeen(e: Engine, embed: string -> seq<real>, db: Db, tenant: Uuid, allowed: Access,
                                       subqueries: seq<string>, x: Ranked<Hit>)
    requires ScoresAll(e)
    ensures Found(e, embed, db, tenant, allowed, subqueries, x)
       <==> x in Seen(Searches(e, embed, db, tenant, allowed, subqueries))
  {
    SeenIsAnyList(Searches(e, embed, db, tenant, allowed, subqueries), x);
    if x in Seen(Searches(e, embed, db, tenant, allowed, subqueries)) {
      var j :| 0 <= j < |subqueries| && x in Searches(e, embed, db, tenant, allowed, subqueries)[j];
      assert x in Hybrid(e, db.chunks, tenant, allowed, subqueries[j], embed(subqueries[j]), Some(e.finalTopK));
    }
    if Found(e, embed, db, tenant, allowed, subqueries, x) {
      var j :| 0 <= j < |subqueries|
          && x in Hybrid(e, db.chunks, tenant, allowed, subqueries[j], embed(subqueries[j]), Some(e.finalTopK));
      assert x in Searches(e, embed, db, tenant, allowed, subqueries)[j];
    }
  }

  /** The top of the merge: a best result for every chunk it holds, and none better is left out. */
  lemma {:induction false} TopOfMerge(lists: seq<Hits>, k: nat, y: Ranked<Hit>)
    ensures var top := TopMerge(lists, k);
            && Descending(top) && DistinctHits(top) && |top| <= k && (forall x <- top :: x in Seen(lists))
            && (y in Seen(lists) ==> Beaten(top, k, y))
  {
    var m := Merge(lists);
    MergeIsBest(lists);
    MergedShape(lists);
    TopMeaning(m, k);
    if y in Seen(lists) {
      assert Covers(m, y);
      var i :| 0 <= i < |m| && IdOf(m[i]) == IdOf(y) && m[i].score >= y.score;
      assert m[i] in m;
    }
  }

  /** The list has the chunk of `y` at no lower score, or is full of results at least as good. */
  ghost predicate Beaten(top: Hits, k: nat, y: Ranked<Hit>) {
    || (exists x <- top :: IdOf(x) == IdOf(y) && x.score >= y.score)
    || (|top| == k && forall x <- top :: x.score >= y.score)
  }

  /**
   * The node returns at most FINAL_TOP_K chunks, best first and none twice. Each is a result of some
   * sub-query, told truthfully, and every result of every sub-query is there at its best score or no better
   * than all that is.
   */
  lemma {:induction false} RetrievedAreBest(e: Engine, embed: string -> seq<real>, db: Db, tenant: Uuid,
                                            allowed: Access, subqueries: seq<string>, y: Ranked<Hit>)
    requires ScoresAll(e)
    ensures var r := Retrieved(e, embed, db, tenant, allowed, subqueries);
            && |r| <= e.finalTopK
            && (forall i, j | 0 <= i < j < |r| :: r[i].score >= r[j].score && r[i].chunkId != r[j].chunkId)
            && (forall c <- r :: exists x :: Found(e, embed, db, tenant, allowed, subqueries, x) && Tells(db, c, x))
            && (Found(e, embed, db, tenant, allowed, subqueries, y) ==>
                  || (exists c <- r :: c.chunkId == IdOf(y) && c.score >= y.score)
                  || (|r| == e.finalTopK && forall c <- r :: c.score >= y.score))
  {
    var lists := Searches(e, embed, db, tenant, allowed, subqueries);
    var top, r := TopMerge(lists, e.finalTopK), Retrieved(e, embed, db, tenant, allowed, subqueries);
    TopOfMerge(lists, e.finalTopK, y);
    forall i | 0 <= i < |r|
      ensures Found(e, embed, db, tenant, allowed, subqueries, top[i]) && Tells(db, r[i], top[i])
    {
      FoundIsSeen(e, embed, db, tenant, allowed, subqueries, top[i]);
    }
    FoundIsSeen(e, embed, db, tenant, allowed, subqueries, y);
    if Found(e, embed, db, tenant, allowed, subqueries, y) {
      PresentedBeaten(db, top, e.finalTopK, y);
    }
  }

  lemma {:induction false} PresentedBeaten(db: Db, top: Hits, k: nat, y: Ranked<Hit>)
    requires Beaten(top, k, y)
    ensures || (exists c <- Present(db, top) :: c.chunkId == IdOf(y) && c.score >= y.score)
            || (|Present(db, top)| == k && forall c <- Present(db, top) :: c.score >= y.score)
  {
    if x :| x in top && IdOf(x) == IdOf(y) && x.score >= y.score {
      var i :| 0 <= i < |top| && top[i] == x;
      assert Present(db, top)[i] in Present(db, top);
    }
  }
}
