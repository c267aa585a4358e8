/**
 * The search endpoint (backend/app/api/v1/search.py): access set, segment scope, hybrid retrieval,
 * and the result rows, over the tables any document lifecycle leaves behind.
 */
module Search {
  import opened Wrappers
  import opened Store
  import opened Ranking
  import opened Retrieval
  import opened Retriever
  import RetrievalLaws
  import opened Authz
  import opened Billing
  import Lifecycle
  import LifecycleRuns

  const SNIPPET_CHARS := 400

  datatype SearchRequest = SearchRequest(query: string, topK: nat, segment: Option<Uuid>)
  datatype SearchResult = SearchResult(documentId: Uuid, chunkId: Uuid, chunkIndex: nat, score: real,
                                       methods: seq<string>, snippet: string, filename: string)

  function ResultRow(db: Db, x: Ranked<Hit>): SearchResult {
    var ch := x.item.chunk;
    var snippet := if |ch.text| <= SNIPPET_CHARS then ch.text else ch.text[..SNIPPET_CHARS];
    SearchResult(ch.document, ch.id, ch.index, x.score, x.item.methods, snippet, FilenameOf(db, ch.document))
  }

  /** The access set the endpoint hands to retrieval. */
  function SearchScope(d: Directory, caller: Caller, segment: Option<Uuid>): Access {
    Scoped(d, caller.tenant, Accessible(d, caller.tenant, caller.user, caller.role, Query), segment)
  }

  /** The hits the endpoint shows. */
  ghost function SearchHits(e: Engine, embed: string -> seq<real>, d: Directory, db: Db, caller: Caller,
                            body: SearchRequest)
    : seq<Ranked<Hit>>
    requires ScoresAll(e)
  {
    Hybrid(e, db.chunks, caller.tenant, SearchScope(d, caller, body.segment), body.query, embed(body.query),
        Some(body.topK))
  }

  /** `search`. */
  method Search(e: Engine, embed: string -> seq<real>, d: Directory, db: Db, caller: Caller, body: SearchRequest)
    returns (results: seq<SearchResult>)
    requires ScoresAll(e) && UniqueIds(db.chunks)
    ensures var hits := SearchHits(e, embed, d, db, caller, body);
            && |results| == |hits|
            && forall i | 0 <= i < |hits| :: results[i] == ResultRow(db, hits[i])
  {
    var allowed := AccessibleDocumentIds(d, caller.tenant, caller.user, caller.role, Query);
    if body.segment.Some? {
      var ids := SegmentIds(d, caller.tenant, body.segment.value);
      allowed := Some(if allowed.None? then ids else allowed.value * ids);
    }
    var scored := HybridSearch(e, db.chunks, caller.tenant, allowed, body.query, embed(body.query), Some(body.topK));
    results := ResultRows(db, scored);
  }

  /** The result loop, with its file name cache. */
  method ResultRows(db: Db, scored: seq<Ranked<Hit>>) returns (results: seq<SearchResult>)
    ensures |results| == |scored|
    ensures forall i | 0 <= i < |scored| :: results[i] == ResultRow(db, scored[i])
  {
    var filenameCache: map<Uuid, string> := map[];
    results := [];
    for i := 0 to |scored|
      invariant |results| == i && forall j | 0 <= j < i :: results[j] == ResultRow(db, scored[j])
      invariant forall id | id in filenameCache :: filenameCache[id] == FilenameOf(db, id)
    {
      var sc := scored[i];
      var ch := sc.item.chunk;
      if ch.document !in filenameCache {
        filenameCache := filenameCache[ch.document := FilenameOf(db, ch.document)];
      }
      var snippet := if |ch.text| <= SNIPPET_CHARS then ch.text else ch.text[..SNIPPET_CHARS];
      results := results + [SearchResult(ch.document, ch.id, ch.index, sc.score, sc.item.methods, snippet,
          filenameCache[ch.document])];
    }
  }

  // ---------- What a caller can be shown ----------

  /** The document may be shown to the caller by this search. */
  ghost predicate MayShow(d: Directory, caller: Caller, segment: Option<Uuid>, document: Uuid) {
    && IsLive(d.documents, caller.tenant, document)
    && CanAccess(d, caller.tenant, caller.user, caller.role, document, Query)
    && (segment.Some? ==> Tag(caller.tenant, document, segment.value) in d.tags)
  }

  /** Every hit is a stored row of the caller's tenant that the search scope lets through. */
  lemma {:induction false} HitsAreInScope(e: Engine, embed: string -> seq<real>, d: Directory, db: Db, caller: Caller,
                                          body: SearchRequest)
    requires ScoresAll(e) && UniqueIds(db.chunks)
    ensures forall x <- SearchHits(e, embed, d, db, caller, body) ::
              && x.item.chunk in db.chunks && x.item.chunk.tenant == caller.tenant
              && Permits(SearchScope(d, caller, body.segment), x.item.chunk.document)
  {
    var scope := SearchScope(d, caller, body.segment);
    HybridShape(e, db.chunks, caller.tenant, scope, body.query, embed(body.query), Some(body.topK));
    forall x <- SearchHits(e, embed, d, db, caller, body)
      ensures x.item.chunk in db.chunks && CanSee(x.item.chunk, caller.tenant, scope)
    {
      VisibleMembers(db.chunks, caller.tenant, scope, x.item.chunk);
    }
  }

  /** The endpoint shows as many hits as were asked for, or all candidates, and the best of them. */
  lemma {:induction false} SearchShowsBest(e: Engine, embed: string -> seq<real>, d: Directory, db: Db, caller: Caller,
                                           body: SearchRequest)
    requires ScoresAll(e) && UniqueIds(db.chunks) && body.topK > 0
    ensures var hits, scope := SearchHits(e, embed, d, db, caller, body), SearchScope(d, caller, body.segment);
            var dense := VectorSearch(e, db.chunks, caller.tenant, scope, embed(body.query), e.vectorCandidates);
            var sparse := Sparse(e, db.chunks, caller.tenant, scope, body.query, e.bm25Candidates);
            var u, fusion := Union(dense, sparse), RawFusion(dense, sparse);
            && |hits| == (if body.topK < |u| then body.topK else |u|)
            && RetrievalLaws.IsBestOf(hits, e, Some(body.topK), u, e.rerank(body.query, Texts(u)), fusion)
  {
    var scope := SearchScope(d, caller, body.segment);
    RetrievalLaws.SearchReturnsBest(e, db.chunks, caller.tenant, scope, body.query, embed(body.query), Some(body.topK));
  }

  /**
   * When chunk rows belong to live documents only, each result satisfies the point permission check
   * for QUERY on a live document of the tenant and carries the requested segment tag: the bulk set
   * that scopes retrieval never shows more than the check that guards a single document.
   */
  lemma {:induction false} ResultsPassPointCheck(e: Engine, embed: string -> seq<real>, d: Directory, db: Db,
                                                 caller: Caller, body: SearchRequest)
    requires ScoresAll(e) && UniqueIds(db.chunks)
    requires forall row <- db.chunks :: IsLive(d.documents, row.tenant, row.document)
    ensures forall x <- SearchHits(e, embed, d, db, caller, body) ::
              MayShow(d, caller, body.segment, x.item.chunk.document)
  {
    HitsAreInScope(e, embed, d, db, caller, body);
    ScopingNarrows(d, caller.tenant, Accessible(d, caller.tenant, caller.user, caller.role, Query), body.segment);
    forall x <- SearchHits(e, embed, d, db, caller, body)
      ensures MayShow(d, caller, body.segment, x.item.chunk.document)
    {
      LiveDocumentsAgree(d, caller.tenant, caller.user, caller.role, Query, x.item.chunk.document);
    }
  }

  /**
   * End to end: after any run of uploads, ingestions and deletions in which no deleted document's
   * surviving blob was ingested, a search shows only live documents the caller may query.
   */
  lemma {:induction false} SearchAfterAnyRun(e: Engine, embed: string -> seq<real>, c: Lifecycle.Corpus,
                                             billing: BillingSettings, steps: seq<LifecycleRuns.Step>, d: Directory,
                                             db: Db, caller: Caller, body: SearchRequest)
    requires ScoresAll(e)
    requires Lifecycle.Ok(c) && Lifecycle.OnlyLiveChunks(c) && LifecycleRuns.IsRun(c, billing, steps)
        && LifecycleRuns.NeverResurfaces(c, billing, steps)
    requires var last := LifecycleRuns.Final(c, billing, steps);
             d.documents == last.documents && db.chunks == last.chunks
    ensures forall x <- SearchHits(e, embed, d, db, caller, body) ::
              MayShow(d, caller, body.segment, x.item.chunk.document)
  {
    LifecycleRuns.ChunksTrackDocuments(c, billing, steps);
    LifecycleRuns.DeletedContentStaysGone(c, billing, steps);
    ResultsPassPointCheck(e, embed, d, db, caller, body);
  }

  /** A segment none of whose documents the caller may query answers nothing. */
  lemma {:induction false} ForeignSegmentShowsNothing(e: Engine, embed: string -> seq<real>, d: Directory, db: Db,
                                                      caller: Caller, body: SearchRequest)
    requires ScoresAll(e) && UniqueIds(db.chunks) && body.segment.Some?
    requires forall id :: Tag(caller.tenant, id, body.segment.value) in d.tags ==>
               !Permits(Accessible(d, caller.tenant, caller.user, caller.role, Query), id)
    ensures SearchHits(e, embed, d, db, caller, body) == []
  {
    HitsAreInScope(e, embed, d, db, caller, body);
    ScopingNarrows(d, caller.tenant, Accessible(d, caller.tenant, caller.user, caller.role, Query), body.segment);
  }

  // ---------- The rules of the scope and of a result ----------

  /** Over a live document the search scope is the rule for QUERY and the asked tag, nothing more and nothing less. */
  lemma {:induction false} ScopeFollowsRules(d: Directory, caller: Caller, segment: Option<Uuid>, document: Uuid)
    requires document in d.documents && d.documents[document].tenant == caller.tenant && !d.documents[document].deleted
    ensures var scope := SearchScope(d, caller, segment);
            var may := Allowed(d, caller.tenant, caller.user, caller.role, document, Query)
                       && (segment.None? || Tag(caller.tenant, document, segment.value) in d.tags);
            (scope.None? || document in scope.value) <==> may
  {
    AccessFollowsRules(d, caller.tenant, caller.user, caller.role, document, Query);
    ScopingNarrows(d, caller.tenant, Accessible(d, caller.tenant, caller.user, caller.role, Query), segment);
  }

  /** A result row tells the hit: its chunk and document, its score and legs, and at most 400 characters of text. */
  lemma {:induction false} ResultTells(db: Db, x: Ranked<Hit>)
    ensures var r, chunk := ResultRow(db, x), x.item.chunk;
            && r.documentId == chunk.document && r.chunkId == chunk.id && r.chunkIndex == chunk.index
            && r.score == x.score && r.methods == x.item.methods
            && r.snippet == (if |chunk.text| <= 400 then chunk.text else chunk.text[..400])
            && r.filename == if chunk.document in db.filenames then db.filenames[chunk.document] else ""
  {
  }

  /** What the model reads for an answer: with live chunk rows, only documents the asker may query. */
  lemma {:induction false} AnswersUseQueryable(e: Engine, embed: string -> seq<real>, d: Directory, db: Db,
                                               caller: Caller, subqueries: seq<string>)
    requires ScoresAll(e) && UniqueIds(db.chunks)
    requires forall row <- db.chunks :: IsLive(d.documents, row.tenant, row.document)
    ensures var allowed := Accessible(d, caller.tenant, caller.user, caller.role, Query);
            forall c <- Retrieved(e, embed, db, caller.tenant, allowed, subqueries) ::
              && c.documentId in d.documents && d.documents[c.documentId].tenant == caller.tenant
              && !d.documents[c.documentId].deleted
              && Allowed(d, caller.tenant, caller.user, caller.role, c.documentId, Query)
  {
    var allowed := Accessible(d, caller.tenant, caller.user, caller.role, Query);
    RetrievedAreAllowed(e, embed, db, caller.tenant, allowed, subqueries);
    forall c | c in Retrieved(e, embed, db, caller.tenant, allowed, subqueries)
      ensures IsLive(d.documents, caller.tenant, c.documentId)
           && Allowed(d, caller.tenant, caller.user, caller.role, c.documentId, Query)
    {
      var row :| row in db.chunks && row.document == c.documentId && CanSee(row, caller.tenant, allowed);
      AccessFollowsRules(d, caller.tenant, caller.user, caller.role, c.documentId, Query);
    }
  }
}
