/** The rows retrieval reads, and the filter every leg applies to them. */
module Store {
  import opened Sequences
  import opened Wrappers

  /** One `document_chunks` row, with its text already decrypted. */
  datatype ChunkRow = ChunkRow(id: Uuid, tenant: Uuid, document: Uuid, index: nat, text: string, embedding: seq<real>)

  datatype Visibility = RepVisible | ManagerOnly
  datatype IngestionStatus = Pending | InProgress | Completed | Failed

  /** One `documents` row: the fields that ingestion and permissions read or write. */
  datatype DocumentRow = DocumentRow(tenant: Uuid, owner: Uuid, visibility: Visibility, status: IngestionStatus,
                                     chunkCount: nat, errorMessage: Option<string>, deleted: bool)

  /** The document exists, belongs to the tenant and is not soft-deleted. */
  predicate IsLive(documents: map<Uuid, DocumentRow>, tenant: Uuid, id: Uuid) {
    id in documents && documents[id].tenant == tenant && !documents[id].deleted
  }

  /** `None` is unrestricted; `Some({})` is deny-all. */
  type Access = Option<set<Uuid>>

  /** `_denies_all`. */
  predicate DeniesAll(allowed: Access) {
    allowed.Some? && |allowed.value| == 0
  }

  predicate CanSee(row: ChunkRow, tenant: Uuid, allowed: Access) {
    row.tenant == tenant && (allowed.Some? ==> row.document in allowed.value)
  }

  /** The `where` clause both retrieval legs share. */
  function Visible(rows: seq<ChunkRow>, tenant: Uuid, allowed: Access): seq<ChunkRow> {
    if rows == [] then []
    else (if CanSee(rows[0], tenant, allowed) then [rows[0]] else []) + Visible(rows[1..], tenant, allowed)
  }

  /** Chunk ids are a primary key. */
  predicate UniqueIds(rows: seq<ChunkRow>) {
    forall i, j | 0 <= i < j < |rows| :: rows[i].id != rows[j].id
  }

  lemma {:induction false} DenialIsEmpty(allowed: Access)
    ensures DeniesAll(allowed) <==> allowed == Some({})
  {
  }

  /** The rows of the tenant whose document the access set names; all of them when it is unrestricted. */
  lemma {:induction false} VisibleRows(rows: seq<ChunkRow>, tenant: Uuid, allowed: Access, row: ChunkRow)
    ensures row in Visible(rows, tenant, allowed)
       <==> row in rows && row.tenant == tenant && (allowed == None || row.document in allowed.value)
  {
    VisibleMembers(rows, tenant, allowed, row);
  }

  lemma {:induction false} VisibleMembers(rows: seq<ChunkRow>, tenant: Uuid, allowed: Access, row: ChunkRow)
    ensures row in Visible(rows, tenant, allowed) <==> row in rows && CanSee(row, tenant, allowed)
  {
    if rows != [] {
      VisibleMembers(rows[1..], tenant, allowed, row);
      assert rows == [rows[0]] + rows[1..];
    }
  }

  lemma {:induction false} VisibleKeepsUniqueIds(rows: seq<ChunkRow>, tenant: Uuid, allowed: Access)
    requires UniqueIds(rows)
    ensures UniqueIds(Visible(rows, tenant, allowed))
  {
    if rows != [] {
      var rest := Visible(rows[1..], tenant, allowed);
      VisibleKeepsUniqueIds(rows[1..], tenant, allowed);
      forall i | 0 <= i < |rest| ensures rest[i].id != rows[0].id {
        VisibleMembers(rows[1..], tenant, allowed, rest[i]);
      }
    }
  }

  lemma {:induction false} VisibleAppend(a: seq<ChunkRow>, b: seq<ChunkRow>, tenant: Uuid, allowed: Access)
    ensures Visible(a + b, tenant, allowed) == Visible(a, tenant, allowed) + Visible(b, tenant, allowed)
  {
    if a == [] {
      assert a + b == b;
    } else {
      HeadOfSum(a, b);
      VisibleAppend(a[1..], b, tenant, allowed);
      Associate(if CanSee(a[0], tenant, allowed) then [a[0]] else [], Visible(a[1..], tenant, allowed),
          Visible(b, tenant, allowed));
    }
  }
}
