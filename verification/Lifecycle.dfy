/**
 * Documents and their chunks over time: intake (backend/app/services/ingestion_intake.py),
 * ingestion (backend/app/services/ingestion.py) and deletion (backend/app/api/v1/documents.py).
 *
 * Requests and background tasks run one after another. Extraction, chunking and embedding are an
 * outcome handed to ingestion; whether the storage service removes a blob is an outcome of deletion.
 */
module Lifecycle {
  import opened Sequences
  import opened Wrappers
  import opened Store
  import opened Billing
  import Authz

  /** The tables, the blob store, the task queue, and the plan key of each subscription. */
  datatype Corpus = Corpus(
    documents: map<Uuid, DocumentRow>,
    chunks: seq<ChunkRow>,
    blobs: set<Uuid>,
    queue: set<Uuid>,
    nextChunk: Uuid,
    plans: Subscriptions)

  const EMPTY_CORPUS := Corpus(map[], [], {}, {}, 0, map[])

  // ---------- Counting and selecting ----------

  /** Live documents of a tenant, the resource the document quota counts. */
  function LiveIds(documents: map<Uuid, DocumentRow>, tenant: Uuid): set<Uuid> {
    set id | id in documents && IsLive(documents, tenant, id)
  }

  /** The document limit in force for a tenant. */
  function DocumentLimit(c: Corpus, billing: BillingSettings, tenant: Uuid): Option<nat> {
    LimitOf(billing, c.plans, tenant, Documents)
  }

  /** `enforce_quota` lets the tenant have one more document. */
  predicate AllowsDocument(c: Corpus, billing: BillingSettings, tenant: Uuid) {
    QuotaAllows(DocumentLimit(c, billing, tenant), |LiveIds(c.documents, tenant)|)
  }

  /** The chunk rows of a document, in table order. */
  function RowsOf(chunks: seq<ChunkRow>, document: Uuid): seq<ChunkRow> {
    if chunks == [] then []
    else (if chunks[0].document == document then [chunks[0]] else []) + RowsOf(chunks[1..], document)
  }

  /** The table after `delete(DocumentChunk)` for one document of one tenant. */
  function Purged(chunks: seq<ChunkRow>, tenant: Uuid, document: Uuid): seq<ChunkRow> {
    if chunks == [] then []
    else (if chunks[0].tenant == tenant && chunks[0].document == document then [] else [chunks[0]])
         + Purged(chunks[1..], tenant, document)
  }

  // ---------- The three steps ----------

  datatype IntakeError = EmptyFile | Malware | PlanLimit

  /** `intake_document`: validate, check the quota, store the blob, add the row, queue the task. */
  function Intake(c: Corpus, id: Uuid, tenant: Uuid, owner: Uuid, visibility: Visibility, size: nat, clean: bool,
                  billing: BillingSettings): Result<Corpus, IntakeError> {
    if size == 0 then Failure(EmptyFile)
    else if !clean then Failure(Malware)
    else if !AllowsDocument(c, billing, tenant) then Failure(PlanLimit)
    else
      var row := DocumentRow(tenant, owner, visibility, Pending, 0, None, false);
      Success(c.(documents := c.documents[id := row], blobs := c.blobs + {id}, queue := c.queue + {id}))
  }

  /** One chunk ready to store: its text and its embedding. */
  datatype Piece = Piece(text: string, embedding: seq<real>)

  /** What extraction, chunking and embedding make of a blob. */
  datatype Pipeline = Pieces(pieces: seq<Piece>) | PipelineError(message: string)

  /** The rows ingestion adds, numbered from zero. */
  function NewRows(pieces: seq<Piece>, tenant: Uuid, document: Uuid, firstId: Uuid): (rows: seq<ChunkRow>)
    ensures |rows| == |pieces|
    ensures forall i | 0 <= i < |rows| ::
              rows[i] == ChunkRow(firstId + i, tenant, document, i, pieces[i].text, pieces[i].embedding)
  {
    seq(|pieces|, i requires 0 <= i < |pieces| =>
      ChunkRow(firstId + i, tenant, document, i, pieces[i].text, pieces[i].embedding))
  }

  /** `_mark_failed`, after the rollback. */
  function MarkFailed(row: DocumentRow, message: string): DocumentRow {
    row.(status := Failed, errorMessage := Some(if |message| <= 2000 then message else message[..2000]))
  }

  /** The message of a failing run, if it fails: no blob, a pipeline error, or no chunks. */
  function FailureOf(c: Corpus, id: Uuid, run: Pipeline): Option<string> {
    if id !in c.blobs then Some("blob not found")
    else
      match run
      case PipelineError(message) => Some(message)
      case Pieces(pieces) => if pieces == [] then Some("No chunks produced from document text.") else None
  }

  /** `process_document`: mark in progress, run the pipeline, then store all chunks or none. */
  function Process(c: Corpus, id: Uuid, run: Pipeline): Corpus {
    var taken := c.(queue := c.queue - {id});
    if id !in c.documents then taken
    else
      var row := c.documents[id].(status := InProgress);
      var failure := FailureOf(c, id, run);
      if failure.Some? then taken.(documents := c.documents[id := MarkFailed(row, failure.value)])
      else
        var rows := NewRows(run.pieces, row.tenant, id, c.nextChunk);
        taken.(documents := c.documents[id := row.(status := Completed, errorMessage := None, chunkCount := |rows|)],
               chunks := c.chunks + rows, nextChunk := c.nextChunk + |rows|)
  }

  /** Deletion, once it is authorised: soft-delete the row, purge its chunks, drop the blob. */
  function Remove(c: Corpus, tenant: Uuid, id: Uuid, blobRemoved: bool): Result<Corpus, ()> {
    if !IsLive(c.documents, tenant, id) then Failure(())
    else
      Success(c.(documents := c.documents[id := c.documents[id].(deleted := true, chunkCount := 0)],
                 chunks := Purged(c.chunks, tenant, id),
                 blobs := if blobRemoved then c.blobs - {id} else c.blobs))
  }

  /** Who shares what with whom. */
  datatype Sharing = Sharing(grants: seq<Authz.Grant>, memberships: set<Authz.Membership>)

  /** `can_access_document` on the current tables. */
  predicate May(documents: map<Uuid, DocumentRow>, acl: Sharing, caller: Authz.Caller, id: Uuid, p: Authz.Permission) {
    var d := Authz.Directory(documents, acl.grants, acl.memberships, {});
    Authz.CanAccess(d, caller.tenant, caller.user, caller.role, id, p)
  }

  datatype DeleteError = NotFound | Forbidden

  /** `delete_document`: a caller who may not view the document is told that it does not exist. */
  function Delete(c: Corpus, acl: Sharing, caller: Authz.Caller, id: Uuid, blobRemoved: bool)
    : Result<Corpus, DeleteError>
  {
    if !IsLive(c.documents, caller.tenant, id) || !May(c.documents, acl, caller, id, Authz.View) then Failure(NotFound)
    else if !May(c.documents, acl, caller, id, Authz.Delete) then Failure(Forbidden)
    else Success(Remove(c, caller.tenant, id, blobRemoved).value)
  }

  /** A grant gives the caller the permission. */
  ghost predicate Shared(c: Corpus, acl: Sharing, caller: Authz.Caller, id: Uuid, p: Authz.Permission) {
    Authz.HasGrant(Authz.Directory(c.documents, acl.grants, acl.memberships, {}), caller.tenant, caller.user, id, p)
  }

  /** The document is live in the caller's tenant and shows itself to the caller. */
  ghost predicate CanFind(c: Corpus, acl: Sharing, caller: Authz.Caller, id: Uuid) {
    && IsLive(c.documents, caller.tenant, id)
    && (|| caller.role == Authz.Owner || caller.role == Authz.Admin || c.documents[id].owner == caller.user
        || c.documents[id].visibility == RepVisible
        || Shared(c, acl, caller, id, Authz.View))
  }

  ghost predicate MayDelete(c: Corpus, acl: Sharing, caller: Authz.Caller, id: Uuid)
    requires id in c.documents
  {
    || caller.role == Authz.Owner || caller.role == Authz.Admin || c.documents[id].owner == caller.user
    || Shared(c, acl, caller, id, Authz.Delete)
  }

  /**
   * Deletion succeeds exactly for a document the caller can find and either owns, administers or was
   * granted DELETE on; whoever cannot find it gets the answer a missing document gives.
   */
  lemma {:induction false} DeletionNeedsBothPermissions(c: Corpus, acl: Sharing, caller: Authz.Caller, id: Uuid,
                                                        blobRemoved: bool)
    ensures var r := Delete(c, acl, caller, id, blobRemoved);
            && (r == Failure(NotFound) <==> !CanFind(c, acl, caller, id))
            && (r.Success? <==> CanFind(c, acl, caller, id) && MayDelete(c, acl, caller, id))
            && (r.Success? ==> Remove(c, caller.tenant, id, blobRemoved) == Success(r.value))
  {
    var d := Authz.Directory(c.documents, acl.grants, acl.memberships, {});
    Authz.AccessFollowsRules(d, caller.tenant, caller.user, caller.role, id, Authz.View);
    Authz.AccessFollowsRules(d, caller.tenant, caller.user, caller.role, id, Authz.Delete);
  }

  // ---------- The invariant ----------

  /** Rows are numbered from zero in order. */
  predicate Numbered(rows: seq<ChunkRow>) {
    forall i | 0 <= i < |rows| :: rows[i].index == i
  }

  /** A failed document carries a message of at most 2000 characters, any other one none. */
  predicate ExplainsFailure(row: DocumentRow) {
    && (row.status == Failed <==> row.errorMessage.Some?)
    && (row.errorMessage.Some? ==> |row.errorMessage.value| <= 2000)
  }

  /** What the tables say about one document. */
  ghost predicate DocumentOk(c: Corpus, id: Uuid)
    requires id in c.documents
  {
    var row, rows := c.documents[id], RowsOf(c.chunks, id);
    && Numbered(rows) && |rows| == row.chunkCount
    && (id in c.queue ==> row.status == Pending)
    && (id !in c.queue ==> row.status == Completed || row.status == Failed)
    && (row.status == Completed && !row.deleted ==> rows != [])
    && (row.status != Completed ==> rows == [])
    && (row.deleted && rows != [] ==> id in c.blobs)
    && ExplainsFailure(row)
  }

  ghost predicate Ok(c: Corpus) {
    && (forall id | id in c.documents :: DocumentOk(c, id))
    && (forall id | id in c.queue :: id in c.documents)
    && UniqueIds(c.chunks)
    && (forall row <- c.chunks :: row.id < c.nextChunk && row.document in c.documents
                                  && row.tenant == c.documents[row.document].tenant)
  }

  /** Chunk rows belong to live documents only, so even unrestricted retrieval returns live content. */
  ghost predicate OnlyLiveChunks(c: Corpus) {
    forall row <- c.chunks :: IsLive(c.documents, row.tenant, row.document)
  }

  lemma {:induction false} RowsAppend(a: seq<ChunkRow>, b: seq<ChunkRow>, id: Uuid)
    ensures RowsOf(a + b, id) == RowsOf(a, id) + RowsOf(b, id)
  {
    if a == [] {
      assert a + b == b;
    } else {
      HeadOfSum(a, b);
      RowsAppend(a[1..], b, id);
      Associate(if a[0].document == id then [a[0]] else [], RowsOf(a[1..], id), RowsOf(b, id));
    }
  }

  lemma {:induction false} RowsMembers(chunks: seq<ChunkRow>, id: Uuid, row: ChunkRow)
    ensures row in RowsOf(chunks, id) <==> row in chunks && row.document == id
  {
    if chunks != [] {
      RowsMembers(chunks[1..], id, row);
      assert chunks == [chunks[0]] + chunks[1..];
    }
  }

  lemma {:induction false} RowsOfOne(rows: seq<ChunkRow>, document: Uuid, id: Uuid)
    requires forall i | 0 <= i < |rows| :: rows[i].document == document
    ensures RowsOf(rows, id) == if id == document then rows else []
  {
    if rows != [] {
      RowsOfOne(rows[1..], document, id);
      assert rows == [rows[0]] + rows[1..];
    }
  }

  lemma {:induction false} PurgedRows(chunks: seq<ChunkRow>, tenant: Uuid, document: Uuid, id: Uuid)
    requires forall row <- chunks :: row.document == document ==> row.tenant == tenant
    ensures RowsOf(Purged(chunks, tenant, document), id) == if id == document then [] else RowsOf(chunks, id)
  {
    if chunks != [] {
      assert chunks == [chunks[0]] + chunks[1..];
      PurgedRows(chunks[1..], tenant, document, id);
      var head := if chunks[0].tenant == tenant && chunks[0].document == document then [] else [chunks[0]];
      RowsAppend(head, Purged(chunks[1..], tenant, document), id);
      assert head + Purged(chunks[1..], tenant, document) == Purged(chunks, tenant, document);
    }
  }

  lemma {:induction false} PurgedMembers(chunks: seq<ChunkRow>, tenant: Uuid, document: Uuid)
    requires UniqueIds(chunks)
    ensures UniqueIds(Purged(chunks, tenant, document))
    ensures forall row <- Purged(chunks, tenant, document) ::
              row in chunks && !(row.tenant == tenant && row.document == document)
  {
    if chunks != [] {
      assert chunks == [chunks[0]] + chunks[1..];
      PurgedMembers(chunks[1..], tenant, document);
    }
  }

  lemma {:induction false} PurgedStep(rows: seq<ChunkRow>, tenant: Uuid, document: Uuid, i: nat, kept: seq<ChunkRow>)
    requires i < |rows|
    ensures kept + Purged(rows[i..], tenant, document)
         == (if rows[i].tenant == tenant && rows[i].document == document then kept else kept + [rows[i]])
              + Purged(rows[i + 1..], tenant, document)
  {
    assert rows[i..][1..] == rows[i + 1..];
    if !(rows[i].tenant == tenant && rows[i].document == document) {
      Associate(kept, [rows[i]], Purged(rows[i + 1..], tenant, document));
    }
  }

  /** Intake keeps the invariant, for every fresh document id. */
  lemma {:induction false} IntakeKeepsOk(c: Corpus, id: Uuid, tenant: Uuid, owner: Uuid, visibility: Visibility,
                                         size: nat, clean: bool, billing: BillingSettings)
    requires Ok(c) && id !in c.documents
    ensures var r := Intake(c, id, tenant, owner, visibility, size, clean, billing);
            r.Success? ==> Ok(r.value)
  {
    var r := Intake(c, id, tenant, owner, visibility, size, clean, billing);
    if r.Success? {
      NoRowsYet(c.chunks, c.documents, id);
      forall other | other in c.documents ensures DocumentOk(r.value, other) {
        assert DocumentOk(c, other);
      }
    }
  }

  lemma {:induction false} NoRowsYet(chunks: seq<ChunkRow>, documents: map<Uuid, DocumentRow>, id: Uuid)
    requires id !in documents && forall row <- chunks :: row.document in documents
    ensures RowsOf(chunks, id) == []
  {
    if chunks != [] {
      assert chunks == [chunks[0]] + chunks[1..];
      NoRowsYet(chunks[1..], documents, id);
    }
  }

  /** Ingesting a queued document keeps the invariant, whatever the pipeline does. */
  lemma {:induction false} ProcessKeepsOk(c: Corpus, id: Uuid, run: Pipeline)
    requires Ok(c) && id in c.queue
    ensures Ok(Process(c, id, run))
  {
    forall other | other in c.documents ensures DocumentOk(Process(c, id, run), other) {
      ProcessedDocument(c, id, run, other);
    }
    ProcessedRows(c, id, run);
  }

  /** The rows ingestion adds: none when it fails. */
  function AddedRows(c: Corpus, id: Uuid, run: Pipeline): seq<ChunkRow>
    requires id in c.documents
  {
    if FailureOf(c, id, run).Some? then [] else NewRows(run.pieces, c.documents[id].tenant, id, c.nextChunk)
  }

  lemma {:induction false} ProcessedDocument(c: Corpus, id: Uuid, run: Pipeline, other: Uuid)
    requires Ok(c) && id in c.queue && other in c.documents
    ensures DocumentOk(Process(c, id, run), other)
  {
    assert DocumentOk(c, id) && DocumentOk(c, other);
    ProcessedRowsOf(c, id, run, other);
  }

  /** The rows of the ingested document are the added ones; the others keep theirs. */
  lemma {:induction false} ProcessedRowsOf(c: Corpus, id: Uuid, run: Pipeline, other: Uuid)
    requires id in c.documents && RowsOf(c.chunks, id) == []
    ensures RowsOf(Process(c, id, run).chunks, other)
         == if other == id then AddedRows(c, id, run) else RowsOf(c.chunks, other)
  {
    var rows := AddedRows(c, id, run);
    RowsAppend(c.chunks, rows, other);
    RowsOfOne(rows, id, other);
    assert Process(c, id, run).chunks == c.chunks + rows;
  }

  lemma {:induction false} ProcessedRows(c: Corpus, id: Uuid, run: Pipeline)
    requires Ok(c) && id in c.queue
    ensures var after := Process(c, id, run);
            && UniqueIds(after.chunks)
            && forall row <- after.chunks :: row.id < after.nextChunk && row.document in after.documents
                                             && row.tenant == after.documents[row.document].tenant
  {
    var after, rows := Process(c, id, run), AddedRows(c, id, run);
    assert after.chunks == c.chunks + rows;
    forall i, j | 0 <= i < j < |after.chunks| ensures after.chunks[i].id != after.chunks[j].id {
      if i < |c.chunks| <= j {
        assert c.chunks[i] in c.chunks;
      }
    }
  }

  /** Deletion keeps the invariant, whether or not the blob goes. */
  lemma {:induction false} RemoveKeepsOk(c: Corpus, tenant: Uuid, id: Uuid, blobRemoved: bool)
    requires Ok(c)
    ensures var r := Remove(c, tenant, id, blobRemoved);
            r.Success? ==> Ok(r.value) && RowsOf(r.value.chunks, id) == []
  {
    var r := Remove(c, tenant, id, blobRemoved);
    if r.Success? {
      assert DocumentOk(c, id);
      PurgedMembers(c.chunks, tenant, id);
      forall other | other in c.documents
        ensures RowsOf(r.value.chunks, other) == if other == id then [] else RowsOf(c.chunks, other)
      {
        PurgedRows(c.chunks, tenant, id, other);
      }
      forall other | other in c.documents ensures DocumentOk(r.value, other) {
        assert DocumentOk(c, other);
      }
    }
  }

  // ---------- The services that change the tables ----------

  /** The tables, the blob store and the task queue, changed in place. */
  class DocumentService {
    var documents: map<Uuid, DocumentRow>
    var chunks: seq<ChunkRow>
    var blobs: set<Uuid>
    var queue: set<Uuid>
    var nextChunk: Uuid
    var plans: Subscriptions

    function State(): Corpus
      reads this
    {
      Corpus(documents, chunks, blobs, queue, nextChunk, plans)
    }

    constructor ()
      ensures State() == EMPTY_CORPUS
    {
      documents, chunks, blobs, queue, nextChunk, plans := map[], [], {}, {}, 0, map[];
    }

    /** `intake_document`; the id is the fresh one it draws. */
    method IntakeDocument(id: Uuid, tenant: Uuid, owner: Uuid, visibility: Visibility, size: nat, clean: bool,
                          billing: BillingSettings)
      returns (r: Result<Uuid, IntakeError>)
      requires id !in documents
      modifies this
      ensures var after := Intake(old(State()), id, tenant, owner, visibility, size, clean, billing);
              if after.Success? then r == Success(id) && State() == after.value
              else r == Failure(after.error) && State() == old(State())
    {
      if size == 0 {
        return Failure(EmptyFile);
      }
      if !clean {
        return Failure(Malware);
      }
      if !AllowsDocument(State(), billing, tenant) {
        return Failure(PlanLimit);
      }
      blobs := blobs + {id};
      documents := documents[id := DocumentRow(tenant, owner, visibility, Pending, 0, None, false)];
      queue := queue + {id};
      return Success(id);
    }

    /** `process_document` with `_run_pipeline` inside: all chunks are stored, or none. */
    method ProcessDocument(id: Uuid, run: Pipeline)
      modifies this
      ensures State() == Process(old(State()), id, run)
    {
      queue := queue - {id};
      if id !in documents {
        return;
      }
      documents := documents[id := documents[id].(status := InProgress)];
      var failure := FailureOf(State(), id, run);
      if failure.Some? {
        documents := documents[id := MarkFailed(documents[id], failure.value)];
        return;
      }
      var n := StoreChunks(id, documents[id].tenant, run.pieces);
      documents := documents[id := documents[id].(status := Completed, errorMessage := None, chunkCount := n)];
      assert documents == Process(old(State()), id, run).documents;
    }

    /** The loop over the chunks and their embeddings. */
    method StoreChunks(id: Uuid, tenant: Uuid, pieces: seq<Piece>) returns (n: nat)
      modifies `chunks, `nextChunk
      ensures n == |pieces| && nextChunk == old(nextChunk) + n
      ensures chunks == old(chunks) + NewRows(pieces, tenant, id, old(nextChunk))
    {
      ghost var rows := NewRows(pieces, tenant, id, nextChunk);
      n := 0;
      while n < |pieces|
        invariant n <= |pieces| && nextChunk == old(nextChunk) + n
        invariant chunks == old(chunks) + rows[..n]
      {
        chunks := chunks + [ChunkRow(nextChunk, tenant, id, n, pieces[n].text, pieces[n].embedding)];
        nextChunk, n := nextChunk + 1, n + 1;
        assert rows[..n] == rows[..n - 1] + [rows[n - 1]];
      }
      assert rows[..n] == rows;
    }

    /** `delete_document`: the row stays, its chunks and its blob go. */
    method DeleteDocument(acl: Sharing, caller: Authz.Caller, id: Uuid, blobRemoved: bool)
      returns (r: Result<(), DeleteError>)
      modifies this
      ensures var after := Delete(old(State()), acl, caller, id, blobRemoved);
              if after.Success? then r == Success(()) && State() == after.value
              else r == Failure(after.error) && State() == old(State())
    {
      if !IsLive(documents, caller.tenant, id) {
        return Failure(NotFound);
      }
      if !May(documents, acl, caller, id, Authz.View) {
        return Failure(NotFound);
      }
      if !May(documents, acl, caller, id, Authz.Delete) {
        return Failure(Forbidden);
      }
      documents := documents[id := documents[id].(deleted := true)];
      PurgeChunks(caller.tenant, id);
      documents := documents[id := documents[id].(chunkCount := 0)];
      if blobRemoved {
        blobs := blobs - {id};
      }
      assert documents == Remove(old(State()), caller.tenant, id, blobRemoved).value.documents;
      return Success(());
    }

    /** `delete(DocumentChunk)` with its `where` clause. */
    method PurgeChunks(tenant: Uuid, id: Uuid)
      modifies `chunks
      ensures chunks == Purged(old(chunks), tenant, id)
    {
      var before := chunks;
      chunks := [];
      for i := 0 to |before|
        invariant chunks + Purged(before[i..], tenant, id) == Purged(before, tenant, id)
      {
        PurgedStep(before, tenant, id, i, chunks);
        if !(before[i].tenant == tenant && before[i].document == id) {
          chunks := chunks + [before[i]];
        }
      }
    }
  }
}
