/**
 * Whole runs of the document lifecycle: any sequence of uploads, ingestions of queued documents,
 * deletions and plan changes, started from any tables that satisfy the invariant.
 */
module LifecycleRuns {
  import opened Wrappers
  import opened Store
  import opened Billing
  import opened Lifecycle

  datatype Step =
    | Upload(id: Uuid, tenant: Uuid, owner: Uuid, visibility: Visibility, size: nat, clean: bool)
    | Ingest(id: Uuid, run: Pipeline)
    | Delete(acl: Sharing, caller: Authz.Caller, id: Uuid, blobRemoved: bool)
    | ChangePlan(tenant: Uuid, planKey: string)

  /** Document ids are fresh; a background task runs for a document that was queued. */
  predicate Enabled(c: Corpus, s: Step) {
    match s
    case Upload(id, _, _, _, _, _) => id !in c.documents
    case Ingest(id, _) => id in c.queue
    case _ => true
  }

  /** A step that is refused leaves the tables as they were. */
  function Apply(c: Corpus, billing: BillingSettings, s: Step): Corpus {
    match s
    case Upload(id, tenant, owner, visibility, size, clean) =>
      Or(Intake(c, id, tenant, owner, visibility, size, clean, billing), c)
    case Ingest(id, run) => Process(c, id, run)
    case Delete(acl, caller, id, blobRemoved) => Or(Lifecycle.Delete(c, acl, caller, id, blobRemoved), c)
    case ChangePlan(tenant, planKey) => c.(plans := c.plans[tenant := planKey])
  }

  function Or<E>(r: Result<Corpus, E>, otherwise: Corpus): Corpus {
    match r
    case Success(after) => after
    case Failure(_) => otherwise
  }

  predicate IsRun(c: Corpus, billing: BillingSettings, steps: seq<Step>)
    decreases |steps|
  {
    steps == [] || (Enabled(c, steps[0]) && IsRun(Apply(c, billing, steps[0]), billing, steps[1..]))
  }

  function Final(c: Corpus, billing: BillingSettings, steps: seq<Step>): Corpus
    decreases |steps|
  {
    if steps == [] then c else Final(Apply(c, billing, steps[0]), billing, steps[1..])
  }

  lemma {:induction false} StepKeepsOk(c: Corpus, billing: BillingSettings, s: Step)
    requires Ok(c) && Enabled(c, s)
    ensures Ok(Apply(c, billing, s))
  {
    match s
    case Upload(id, tenant, owner, visibility, size, clean) =>
      IntakeKeepsOk(c, id, tenant, owner, visibility, size, clean, billing);
    case Ingest(id, run) => ProcessKeepsOk(c, id, run);
    case Delete(acl, caller, id, blobRemoved) => RemoveKeepsOk(c, caller.tenant, id, blobRemoved);
    case ChangePlan(_, _) => PlanKeepsOk(c, Apply(c, billing, s));
  }

  /** The invariant does not speak of plans. */
  lemma {:induction false} PlanKeepsOk(c: Corpus, after: Corpus)
    requires Ok(c) && after == c.(plans := after.plans)
    ensures Ok(after)
  {
    forall id | id in after.documents ensures DocumentOk(after, id) {
      assert DocumentOk(c, id);
    }
  }

  // ---------- Chunks track document state ----------

  /** What a reader of the tables may rely on for one document. */
  ghost predicate Tracks(c: Corpus, id: Uuid)
    requires id in c.documents
  {
    var row, rows := c.documents[id], RowsOf(c.chunks, id);
    && |rows| == row.chunkCount
    && (row.status == Completed && !row.deleted ==> rows != [])
    && (row.status != Completed ==> rows == [])
    && (forall i | 0 <= i < |rows| :: rows[i].index == i)
    && row.status != InProgress && ExplainsFailure(row)
    && (id !in c.queue ==> row.status == Completed || row.status == Failed)
  }

  /**
   * After every run: every document has exactly `chunk_count` rows, numbered from zero; a completed
   * live one has some, a failed or waiting one none; and none stays in progress once its task has ended.
   */
  lemma {:induction false} ChunksTrackDocuments(c: Corpus, billing: BillingSettings, steps: seq<Step>)
    requires Ok(c) && IsRun(c, billing, steps)
    ensures Ok(Final(c, billing, steps))
    ensures forall id | id in Final(c, billing, steps).documents :: Tracks(Final(c, billing, steps), id)
    decreases |steps|
  {
    if steps == [] {
      forall id | id in c.documents ensures Tracks(c, id) {
        assert DocumentOk(c, id);
      }
    } else {
      StepKeepsOk(c, billing, steps[0]);
      ChunksTrackDocuments(Apply(c, billing, steps[0]), billing, steps[1..]);
    }
  }

  // ---------- Deleted content cannot resurface, and when it can ----------

  /** The step ingests a soft-deleted document whose blob is still there, and the pipeline succeeds. */
  predicate Resurfaces(c: Corpus, s: Step) {
    s.Ingest? && s.id in c.documents && c.documents[s.id].deleted && FailureOf(c, s.id, s.run).None?
  }

  predicate NeverResurfaces(c: Corpus, billing: BillingSettings, steps: seq<Step>)
    decreases |steps|
  {
    steps == [] || (!Resurfaces(c, steps[0]) && NeverResurfaces(Apply(c, billing, steps[0]), billing, steps[1..]))
  }

  lemma {:induction false} StepAndLiveness(c: Corpus, billing: BillingSettings, s: Step)
    requires Ok(c) && Enabled(c, s)
    ensures OnlyLiveChunks(Apply(c, billing, s)) <==> OnlyLiveChunks(c) && !Resurfaces(c, s)
  {
    match s
    case Upload(_, _, _, _, _, _) => UploadAndLiveness(c, billing, s);
    case Ingest(id, run) => IngestAndLiveness(c, id, run);
    case Delete(acl, caller, id, blobRemoved) => DeleteAndLiveness(c, billing, s);
    case ChangePlan(_, _) =>
  }

  lemma {:induction false} UploadAndLiveness(c: Corpus, billing: BillingSettings, s: Step)
    requires Ok(c) && Enabled(c, s) && s.Upload?
    ensures OnlyLiveChunks(Apply(c, billing, s)) <==> OnlyLiveChunks(c)
  {
    var after := Apply(c, billing, s);
    assert after.chunks == c.chunks;
    forall row <- c.chunks
      ensures IsLive(after.documents, row.tenant, row.document) <==> IsLive(c.documents, row.tenant, row.document)
    {
    }
  }

  lemma {:induction false} IngestAndLiveness(c: Corpus, id: Uuid, run: Pipeline)
    requires Ok(c) && id in c.queue
    ensures OnlyLiveChunks(Process(c, id, run)) <==> OnlyLiveChunks(c) && !Resurfaces(c, Ingest(id, run))
  {
    var after := Process(c, id, run);
    assert forall row: ChunkRow ::
        IsLive(after.documents, row.tenant, row.document) <==> IsLive(c.documents, row.tenant, row.document);
    if FailureOf(c, id, run).None? {
      var rows := NewRows(run.pieces, c.documents[id].tenant, id, c.nextChunk);
      assert after.chunks == c.chunks + rows;
      assert rows[0] in after.chunks;
      assert forall row :: row in after.chunks <==> row in c.chunks || row in rows;
    }
  }

  lemma {:induction false} DeleteAndLiveness(c: Corpus, billing: BillingSettings, s: Step)
    requires Ok(c) && s.Delete?
    ensures OnlyLiveChunks(Apply(c, billing, s)) <==> OnlyLiveChunks(c)
  {
    if Lifecycle.Delete(c, s.acl, s.caller, s.id, s.blobRemoved).Success? {
      var after := Apply(c, billing, s);
      PurgedMembers(c.chunks, s.caller.tenant, s.id);
      forall row <- c.chunks ensures row in after.chunks <==> row.document != s.id {
        PurgedKeeps(c.chunks, s.caller.tenant, s.id, row);
      }
      if OnlyLiveChunks(after) {
        forall row <- c.chunks ensures IsLive(c.documents, row.tenant, row.document) {
          if row.document != s.id {
            assert row in after.chunks;
          }
        }
      }
    }
  }

  lemma {:induction false} PurgedKeeps(chunks: seq<ChunkRow>, tenant: Uuid, id: Uuid, row: ChunkRow)
    ensures row in Purged(chunks, tenant, id) <==> row in chunks && !(row.tenant == tenant && row.document == id)
  {
    if chunks != [] {
      assert chunks == [chunks[0]] + chunks[1..];
      PurgedKeeps(chunks[1..], tenant, id, row);
    }
  }

  /**
   * Over every run, chunk rows belong to live documents only exactly when no ingestion task ever
   * succeeded on a document that was deleted while it waited in the queue and whose blob survived.
   */
  lemma {:induction false} DeletedContentStaysGone(c: Corpus, billing: BillingSettings, steps: seq<Step>)
    requires Ok(c) && IsRun(c, billing, steps)
    ensures OnlyLiveChunks(Final(c, billing, steps)) <==> OnlyLiveChunks(c) && NeverResurfaces(c, billing, steps)
    decreases |steps|
  {
    if steps != [] {
      StepAndLiveness(c, billing, steps[0]);
      StepKeepsOk(c, billing, steps[0]);
      DeletedContentStaysGone(Apply(c, billing, steps[0]), billing, steps[1..]);
    }
  }

  /** No soft-deleted document still has its blob. */
  predicate NoOrphanBlob(c: Corpus) {
    forall id | id in c.documents && c.documents[id].deleted :: id !in c.blobs
  }

  /** When the storage service removes every deleted document's blob, deleted content never resurfaces. */
  lemma {:induction false} ReliableStorageKeepsDeletedGone(c: Corpus, billing: BillingSettings, steps: seq<Step>)
    requires Ok(c) && IsRun(c, billing, steps) && OnlyLiveChunks(c) && NoOrphanBlob(c)
    requires forall i | 0 <= i < |steps| && steps[i].Delete? :: steps[i].blobRemoved
    ensures OnlyLiveChunks(Final(c, billing, steps)) && NoOrphanBlob(Final(c, billing, steps))
    decreases |steps|
  {
    if steps != [] {
      StepAndLiveness(c, billing, steps[0]);
      StepKeepsOk(c, billing, steps[0]);
      ReliableStorageKeepsDeletedGone(Apply(c, billing, steps[0]), billing, steps[1..]);
    }
  }

  /** A run that shows the condition is needed: upload, delete with the blob left behind, ingest. */
  lemma {:induction false} SurvivingBlobResurfaces(piece: Piece)
    ensures var steps := ResurfacingRun(piece);
            && IsRun(EMPTY_CORPUS, NO_BILLING, steps)
            && var last := Final(EMPTY_CORPUS, NO_BILLING, steps);
               && 1 in last.documents && last.documents[1].deleted
               && last.chunks == [ChunkRow(0, 7, 1, 0, piece.text, piece.embedding)]
  {
    var steps := ResurfacingRun(piece);
    var s0, s1, s2 := steps[0], steps[1], steps[2];
    assert steps[1..] == [s1, s2] && [s1, s2][1..] == [s2] && [s2][1..] == [];
    var c1 := Apply(EMPTY_CORPUS, NO_BILLING, s0);
    var c2 := Apply(c1, NO_BILLING, s1);
    var c3 := Apply(c2, NO_BILLING, s2);
    assert IsRun(c3, NO_BILLING, []) && Final(c3, NO_BILLING, []) == c3;
    assert IsRun(c2, NO_BILLING, [s2]) && Final(c2, NO_BILLING, [s2]) == c3;
    assert IsRun(c1, NO_BILLING, [s1, s2]) && Final(c1, NO_BILLING, [s1, s2]) == c3;
    assert Final(EMPTY_CORPUS, NO_BILLING, steps) == c3;
  }

  const NO_BILLING := BillingSettings(false, "trial")

  function ResurfacingRun(piece: Piece): seq<Step> {
    [Upload(1, 7, 8, RepVisible, 1, true), Delete(Sharing([], {}), Authz.Caller(7, 8, Authz.Owner), 1, false),
     Ingest(1, Pieces([piece]))]
  }

  // ---------- The document quota ----------

  /** Live documents are within the limit of the plan in force. */
  ghost predicate WithinQuota(c: Corpus, billing: BillingSettings, tenant: Uuid) {
    Within(DocumentLimit(c, billing, tenant), |LiveIds(c.documents, tenant)|)
  }

  /** A change to a plan with fewer documents than are live. */
  ghost predicate Downgrades(c: Corpus, billing: BillingSettings, s: Step, tenant: Uuid) {
    && s.ChangePlan? && s.tenant == tenant
    && !Within(LimitInForce(billing, Some(s.planKey), Documents), |LiveIds(c.documents, tenant)|)
  }

  ghost predicate NeverDowngrades(c: Corpus, billing: BillingSettings, steps: seq<Step>, tenant: Uuid)
    decreases |steps|
  {
    steps == [] || (!Downgrades(c, billing, steps[0], tenant)
                    && NeverDowngrades(Apply(c, billing, steps[0]), billing, steps[1..], tenant))
  }

  /** The bound holds in every state of the run. */
  ghost predicate AlwaysWithinQuota(c: Corpus, billing: BillingSettings, steps: seq<Step>, tenant: Uuid)
    decreases |steps|
  {
    && WithinQuota(c, billing, tenant)
    && (steps == [] || AlwaysWithinQuota(Apply(c, billing, steps[0]), billing, steps[1..], tenant))
  }

  /** Only a plan change moves a document limit. */
  lemma {:induction false} LimitStays(c: Corpus, billing: BillingSettings, s: Step, tenant: Uuid)
    requires !(s.ChangePlan? && s.tenant == tenant)
    ensures DocumentLimit(Apply(c, billing, s), billing, tenant) == DocumentLimit(c, billing, tenant)
  {
  }

  lemma {:induction false} UploadAndQuota(c: Corpus, billing: BillingSettings, s: Step, tenant: Uuid)
    requires s.Upload? && Enabled(c, s) && WithinQuota(c, billing, tenant)
    ensures WithinQuota(Apply(c, billing, s), billing, tenant)
  {
    LimitStays(c, billing, s, tenant);
    var before, after := LiveIds(c.documents, tenant), LiveIds(Apply(c, billing, s).documents, tenant);
    if s.tenant == tenant && Apply(c, billing, s) != c {
      assert after == before + {s.id};
    } else {
      assert after == before;
    }
  }

  lemma {:induction false} OtherStepsAddNone(c: Corpus, billing: BillingSettings, s: Step, tenant: Uuid)
    requires !s.Upload?
    ensures LiveIds(Apply(c, billing, s).documents, tenant) <= LiveIds(c.documents, tenant)
  {
  }

  /** A step leaves the bound exactly when it changes to a plan that is too small. */
  lemma {:induction false} StepAndQuota(c: Corpus, billing: BillingSettings, s: Step, tenant: Uuid)
    requires Enabled(c, s) && WithinQuota(c, billing, tenant)
    ensures WithinQuota(Apply(c, billing, s), billing, tenant) <==> !Downgrades(c, billing, s, tenant)
  {
    if s.Upload? {
      UploadAndQuota(c, billing, s, tenant);
    } else if s.ChangePlan? && s.tenant == tenant {
      assert Apply(c, billing, s).documents == c.documents;
    } else {
      LimitStays(c, billing, s, tenant);
      OtherStepsAddNone(c, billing, s, tenant);
      Smaller(LiveIds(Apply(c, billing, s).documents, tenant), LiveIds(c.documents, tenant));
    }
  }

  lemma {:induction false} Smaller(a: set<Uuid>, b: set<Uuid>)
    requires a <= b
    ensures |a| <= |b|
  {
    assert b == a + (b - a);
  }

  /**
   * Over every run the live documents of a tenant stay within the limit of the plan in force, in every
   * state, exactly when no plan change leaves a limit below the live documents.
   */
  lemma {:induction false} DocumentQuotaHolds(c: Corpus, billing: BillingSettings, steps: seq<Step>, tenant: Uuid)
    requires IsRun(c, billing, steps) && WithinQuota(c, billing, tenant)
    ensures AlwaysWithinQuota(c, billing, steps, tenant) <==> NeverDowngrades(c, billing, steps, tenant)
    decreases |steps|
  {
    if steps != [] {
      StepAndQuota(c, billing, steps[0], tenant);
      if !Downgrades(c, billing, steps[0], tenant) {
        DocumentQuotaHolds(Apply(c, billing, steps[0]), billing, steps[1..], tenant);
      } else {
        assert !AlwaysWithinQuota(Apply(c, billing, steps[0]), billing, steps[1..], tenant);
      }
    }
  }
}
