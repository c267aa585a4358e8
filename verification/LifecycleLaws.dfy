/**
 * The rules of the document lifecycle (backend/app/services/ingestion_intake.py, backend/app/services/ingestion.py,
 * backend/app/api/v1/documents.py): when each step succeeds, what it writes, and that an uploaded text is what the
 * tenant's readers retrieve until it is deleted.
 */
module LifecycleLaws {
  import opened Wrappers
  import opened Store
  import opened Select
  import opened Billing
  import opened Lifecycle
  import Authz

  /** The tenant's documents that are not deleted. */
  ghost function LiveDocuments(c: Corpus, tenant: Uuid): set<Uuid> {
    set id | id in c.documents && c.documents[id].tenant == tenant && !c.documents[id].deleted
  }

  ghost predicate DocumentsGone(c: Corpus, billing: BillingSettings, tenant: Uuid) {
    var limit := LimitOf(billing, c.plans, tenant, Documents);
    limit.Some? && |LiveDocuments(c, tenant)| >= limit.value
  }

  /** Intake refuses empty and infected files and full plans, in this order; else row, blob and task appear. */
  lemma {:induction false} IntakeRules(c: Corpus, id: Uuid, tenant: Uuid, owner: Uuid, visibility: Visibility,
                                       size: nat, clean: bool, billing: BillingSettings)
    ensures var r := Intake(c, id, tenant, owner, visibility, size, clean, billing);
            if size == 0 then r == Failure(EmptyFile)
            else if !clean then r == Failure(Malware)
            else if DocumentsGone(c, billing, tenant) then r == Failure(PlanLimit)
            else
              var row := DocumentRow(tenant, owner, visibility, Pending, 0, None, false);
              r == Success(Corpus(c.documents[id := row], c.chunks, c.blobs + {id}, c.queue + {id}, c.nextChunk,
                                  c.plans))
  {
    assert LiveIds(c.documents, tenant) == LiveDocuments(c, tenant);
  }

  /** What ingestion of a blob comes to: an error message, or the pieces to store. */
  ghost predicate Fails(c: Corpus, id: Uuid, run: Pipeline, message: string) {
    if id !in c.blobs then message == "blob not found"
    else if run.PipelineError? then message == run.message
    else run.pieces == [] && message == "No chunks produced from document text."
  }

  /** A failing ingestion keeps all rows and marks the document with the start of the message. */
  lemma {:induction false} FailingRules(c: Corpus, id: Uuid, run: Pipeline, message: string)
    requires id in c.documents && Fails(c, id, run, message)
    ensures var d := c.documents[id];
            var short := if |message| <= 2000 then message else message[..2000];
            var row := DocumentRow(d.tenant, d.owner, d.visibility, Failed, d.chunkCount, Some(short), d.deleted);
            Process(c, id, run)
              == Corpus(c.documents[id := row], c.chunks, c.blobs, c.queue - {id}, c.nextChunk, c.plans)
  {
  }

  /** A succeeding ingestion appends one row per piece, in order, and completes the document with their count. */
  lemma {:induction false} CompletingRules(c: Corpus, id: Uuid, pieces: seq<Piece>)
    requires id in c.documents && id in c.blobs && pieces != []
    ensures var d, after := c.documents[id], Process(c, id, Pieces(pieces));
            var row := DocumentRow(d.tenant, d.owner, d.visibility, Completed, |pieces|, None, d.deleted);
            && after.documents == c.documents[id := row] && after.blobs == c.blobs && after.queue == c.queue - {id}
            && after.plans == c.plans && after.nextChunk == c.nextChunk + |pieces|
            && |after.chunks| == |c.chunks| + |pieces| && after.chunks[..|c.chunks|] == c.chunks
            && forall i | 0 <= i < |pieces| ::
                 after.chunks[|c.chunks| + i]
                   == ChunkRow(c.nextChunk + i, d.tenant, id, i, pieces[i].text, pieces[i].embedding)
  {
    var rows := NewRows(pieces, c.documents[id].tenant, id, c.nextChunk);
    assert Process(c, id, Pieces(pieces)).chunks == c.chunks + rows;
  }

  function NotOf(tenant: Uuid, id: Uuid): ChunkRow -> bool {
    (row: ChunkRow) => !(row.tenant == tenant && row.document == id)
  }

  lemma {:induction false} PurgedIsWhere(chunks: seq<ChunkRow>, tenant: Uuid, id: Uuid)
    ensures Purged(chunks, tenant, id) == Where(chunks, NotOf(tenant, id))
  {
    if chunks != [] {
      PurgedIsWhere(chunks[1..], tenant, id);
      WhereHead(chunks, NotOf(tenant, id));
    }
  }

  /** A deletion keeps the row, marked and emptied, drops its chunks and no others, and its blob if it can. */
  lemma {:induction false} DeletingRules(c: Corpus, tenant: Uuid, id: Uuid, blobRemoved: bool)
    ensures var r := Remove(c, tenant, id, blobRemoved);
            if id in LiveDocuments(c, tenant) then
              var d := c.documents[id];
              var row := DocumentRow(d.tenant, d.owner, d.visibility, d.status, 0, d.errorMessage, true);
              r == Success(Corpus(c.documents[id := row], Where(c.chunks, NotOf(tenant, id)),
                                  if blobRemoved then c.blobs - {id} else c.blobs, c.queue, c.nextChunk, c.plans))
            else r == Failure(())
  {
    PurgedIsWhere(c.chunks, tenant, id);
  }

  // ---------- From upload to retrieval ----------

  /** Somebody of this tenant with this access set retrieves this piece of the document. */
  ghost predicate Retrieves(c: Corpus, tenant: Uuid, allowed: Access, id: Uuid, i: int, piece: Piece) {
    exists row <- Visible(c.chunks, tenant, allowed) ::
      row.document == id && row.index == i && row.text == piece.text && row.embedding == piece.embedding
  }

  /** The tables after an accepted upload and its ingestion. */
  function Uploaded(c: Corpus, id: Uuid, tenant: Uuid, owner: Uuid, visibility: Visibility, pieces: seq<Piece>): Corpus
  {
    var row := DocumentRow(tenant, owner, visibility, Pending, 0, None, false);
    Process(c.(documents := c.documents[id := row], blobs := c.blobs + {id}, queue := c.queue + {id}), id,
            Pieces(pieces))
  }

  /**
   * Every piece of an uploaded document is retrieved by whoever may query it, in its tenant only: its owner,
   * managers, everybody if it is rep-visible, and those it is shared with.
   */
  lemma {:induction false} UploadIsRetrievable(c: Corpus, id: Uuid, tenant: Uuid, owner: Uuid, visibility: Visibility,
                                               pieces: seq<Piece>, acl: Sharing, caller: Authz.Caller, i: int)
    requires Ok(c) && id !in c.documents && 0 <= i < |pieces|
    ensures var after := Uploaded(c, id, tenant, owner, visibility, pieces);
            var d := Authz.Directory(after.documents, acl.grants, acl.memberships, {});
            var allowed := Authz.Accessible(d, caller.tenant, caller.user, caller.role, Authz.Query);
            caller.tenant == tenant ==>
              (Retrieves(after, caller.tenant, allowed, id, i, pieces[i]) <==>
                 || caller.role == Authz.Owner || caller.role == Authz.Admin || caller.user == owner
                 || visibility == RepVisible || Authz.HasGrant(d, tenant, caller.user, id, Authz.Query))
    ensures caller.tenant != tenant ==>
              !Retrieves(Uploaded(c, id, tenant, owner, visibility, pieces), caller.tenant, None, id, i, pieces[i])
  {
    var row := DocumentRow(tenant, owner, visibility, Pending, 0, None, false);
    var taken := c.(documents := c.documents[id := row], blobs := c.blobs + {id}, queue := c.queue + {id});
    var after := Process(taken, id, Pieces(pieces));
    CompletingRules(taken, id, pieces);
    OnlyOfTenant(c, after, id, tenant, pieces);
    var d := Authz.Directory(after.documents, acl.grants, acl.memberships, {});
    var allowed := Authz.Accessible(d, caller.tenant, caller.user, caller.role, Authz.Query);
    Authz.AccessFollowsRules(d, caller.tenant, caller.user, caller.role, id, Authz.Query);
    RetrievesIff(after, tenant, caller.tenant, allowed, id, i, pieces[i], |c.chunks| + i);
    RetrievesIff(after, tenant, caller.tenant, None, id, i, pieces[i], |c.chunks| + i);
  }

  /** All rows of the document belong to its tenant. */
  lemma {:induction false} OnlyOfTenant(c: Corpus, after: Corpus, id: Uuid, tenant: Uuid, pieces: seq<Piece>)
    requires Ok(c) && id !in c.documents
    requires |after.chunks| == |c.chunks| + |pieces| && after.chunks[..|c.chunks|] == c.chunks
    requires forall i | 0 <= i < |pieces| ::
               after.chunks[|c.chunks| + i]
                 == ChunkRow(c.nextChunk + i, tenant, id, i, pieces[i].text, pieces[i].embedding)
    ensures forall row <- after.chunks :: row.document == id ==> row.tenant == tenant
  {
    forall k | 0 <= k < |after.chunks| ensures after.chunks[k].document == id ==> after.chunks[k].tenant == tenant {
      if k < |c.chunks| {
        assert after.chunks[k] == c.chunks[k] && c.chunks[k] in c.chunks;
      } else {
        var i := k - |c.chunks|;
        assert after.chunks[|c.chunks| + i]
            == ChunkRow(c.nextChunk + i, tenant, id, i, pieces[i].text, pieces[i].embedding);
      }
    }
  }

  lemma {:induction false} RetrievesIff(c: Corpus, owner: Uuid, tenant: Uuid, allowed: Access, id: Uuid, i: int,
                                        piece: Piece, k: int)
    requires 0 <= k < |c.chunks| && c.chunks[k].document == id && c.chunks[k].index == i
    requires c.chunks[k].text == piece.text && c.chunks[k].embedding == piece.embedding
    requires forall row <- c.chunks :: row.document == id ==> row.tenant == owner
    ensures Retrieves(c, tenant, allowed, id, i, piece)
       <==> tenant == owner && (allowed.None? || id in allowed.value)
  {
    VisibleRows(c.chunks, tenant, allowed, c.chunks[k]);
    assert c.chunks[k] in c.chunks;
    if Retrieves(c, tenant, allowed, id, i, piece) {
      var row :| row in Visible(c.chunks, tenant, allowed) && row.document == id;
      VisibleRows(c.chunks, tenant, allowed, row);
    }
  }

  /** Nobody retrieves anything of a deleted document. */
  lemma {:induction false} DeletedIsGone(c: Corpus, tenant: Uuid, id: Uuid, blobRemoved: bool, reader: Uuid,
                                         allowed: Access, i: int, piece: Piece)
    requires Ok(c) && Remove(c, tenant, id, blobRemoved).Success?
    ensures !Retrieves(Remove(c, tenant, id, blobRemoved).value, reader, allowed, id, i, piece)
  {
    var after := Remove(c, tenant, id, blobRemoved).value;
    RemoveKeepsOk(c, tenant, id, blobRemoved);
    if Retrieves(after, reader, allowed, id, i, piece) {
      var row :| row in Visible(after.chunks, reader, allowed) && row.document == id;
      VisibleRows(after.chunks, reader, allowed, row);
      RowsMembers(after.chunks, id, row);
    }
  }
}
