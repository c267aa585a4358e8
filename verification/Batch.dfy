/**
 * Uploading several files in one request (backend/app/api/v1/documents.py): a bad file is reported
 * and skipped, the good ones share one transaction, and a plan limit reached on the way ends it all.
 */
module Batch {
  import opened Billing
  import opened Lifecycle
  import opened Select
  import opened Sequences
  import opened Store
  import opened Wrappers

  /** An uploaded file: its lower-cased extension, its length and the verdict of the malware scan. */
  datatype File = File(name: string, extension: string, size: nat, clean: bool)

  datatype UploadSettings = UploadSettings(extensions: set<string>, maxBytes: nat)

  datatype ItemResult = Accepted(name: string, id: Uuid) | Rejected(name: string, reason: string)

  /** Why a file is rejected on its own, in the order of the checks; nothing for a good file. */
  function Flaw(u: UploadSettings, f: File): Option<string> {
    if f.extension !in u.extensions then Some("unsupported_type")
    else if f.size > u.maxBytes then Some("too_large")
    else if f.size == 0 then Some("empty")
    else if !f.clean then Some("malware")
    else None
  }

  function IsGood(u: UploadSettings): File -> bool {
    (f: File) => Flaw(u, f).None?
  }

  function ReasonText(e: IntakeError): string {
    match e
    case EmptyFile => "empty"
    case Malware => "malware"
    case PlanLimit => "plan_limit"
  }

  /** Fresh ids, one for each file of the batch. */
  predicate FreshIds(c: Corpus, ids: seq<Uuid>) {
    NoRepeats(ids) && forall i | 0 <= i < |ids| :: ids[i] !in c.documents
  }

  /** The ids of the good files. */
  function GoodIds(u: UploadSettings, files: seq<File>, ids: seq<Uuid>): (r: set<Uuid>)
    requires |files| <= |ids|
  {
    set i | 0 <= i < |files| && Flaw(u, files[i]).None? :: ids[i]
  }

  /** What the response says about each file. */
  predicate Answers(u: UploadSettings, files: seq<File>, ids: seq<Uuid>, results: seq<ItemResult>)
    requires |files| <= |ids|
  {
    && |results| == |files|
    && forall i | 0 <= i < |files| ::
         results[i] == match Flaw(u, files[i])
                       case None => Accepted(files[i].name, ids[i])
                       case Some(reason) => Rejected(files[i].name, reason)
  }

  /** The tables after the good files were taken in, given the tables before. */
  ghost predicate TookIn(c: Corpus, after: Corpus, tenant: Uuid, good: set<Uuid>) {
    && LiveIds(after.documents, tenant) == LiveIds(c.documents, tenant) + good
    && after.documents.Keys == c.documents.Keys + good
    && (forall id | id in c.documents :: after.documents[id] == c.documents[id])
    && after.queue == c.queue + good && after.blobs == c.blobs + good && after.chunks == c.chunks
    && after.nextChunk == c.nextChunk && after.plans == c.plans
  }

  lemma {:induction false} OneMoreGood(u: UploadSettings, files: seq<File>, ids: seq<Uuid>, i: nat)
    requires i < |files| <= |ids|
    ensures GoodIds(u, files[..i + 1], ids) == GoodIds(u, files[..i], ids) + if Flaw(u, files[i]).None? then {ids[i]}
        else {}
    ensures Count(files[..i + 1], IsGood(u)) == Count(files[..i], IsGood(u)) + if Flaw(u, files[i]).None? then 1 else 0
  {
    assert files[..i + 1] == files[..i] + [files[i]];
    CountAppend(files[..i], files[i], IsGood(u));
    var before, after := GoodIds(u, files[..i], ids), GoodIds(u, files[..i + 1], ids);
    forall id | id in before ensures id in after {
      var j :| 0 <= j < i && Flaw(u, files[..i][j]).None? && ids[j] == id;
      assert files[..i + 1][j] == files[j];
    }
    if Flaw(u, files[i]).None? {
      assert files[..i + 1][i] == files[i];
      assert ids[i] in after;
    }
  }

  /** Good files take one place each. */
  lemma {:induction false} GoodIdsCount(u: UploadSettings, files: seq<File>, ids: seq<Uuid>, i: nat)
    requires i <= |files| <= |ids| && NoRepeats(ids)
    ensures |GoodIds(u, files[..i], ids)| == Count(files[..i], IsGood(u))
    ensures forall id <- GoodIds(u, files[..i], ids) :: exists j :: 0 <= j < i && ids[j] == id
  {
    if i > 0 {
      GoodIdsCount(u, files, ids, i - 1);
      OneMoreGood(u, files, ids, i - 1);
    }
  }

  lemma {:induction false} TookInOne(c: Corpus, now: Corpus, tenant: Uuid, owner: Uuid, visibility: Visibility,
                                     good: set<Uuid>, id: Uuid)
    requires TookIn(c, now, tenant, good) && id !in now.documents
    ensures var row := DocumentRow(tenant, owner, visibility, Pending, 0, None, false);
            TookIn(c, now.(documents := now.documents[id := row], blobs := now.blobs + {id}, queue := now.queue + {id}),
                   tenant, good + {id})
  {
    var row := DocumentRow(tenant, owner, visibility, Pending, 0, None, false);
    var next := now.documents[id := row];
    forall other ensures other in LiveIds(next, tenant) <==> other in LiveIds(now.documents, tenant) || other == id {
    }
  }

  /** Intake of one file of the batch. */
  function IntakeOf(c: Corpus, id: Uuid, tenant: Uuid, owner: Uuid, visibility: Visibility, f: File,
                    billing: BillingSettings): Result<Corpus, IntakeError> {
    Intake(c, id, tenant, owner, visibility, f.size, f.clean, billing)
  }

  /** There is room for so many more documents. */
  predicate HasRoom(c: Corpus, billing: BillingSettings, tenant: Uuid, more: nat) {
    var limit := DocumentLimit(c, billing, tenant);
    limit.None? || |LiveIds(c.documents, tenant)| + more <= limit.value
  }

  /**
   * `upload_documents_batch`. On the exception of the plan limit the transaction is rolled back and
   * nothing is queued, but the blobs already stored stay.
   */
  method UploadBatch(c: Corpus, u: UploadSettings, files: seq<File>, ids: seq<Uuid>, tenant: Uuid, owner: Uuid,
                     visibility: Visibility, billing: BillingSettings)
    returns (r: Result<seq<ItemResult>, IntakeError>, after: Corpus)
    requires |files| <= |ids| && FreshIds(c, ids)
    ensures r.Success? <==> Count(files, IsGood(u)) == 0
                            || HasRoom(c, billing, tenant, Count(files, IsGood(u)))
    ensures r.Success? ==> Answers(u, files, ids, r.value) && TookIn(c, after, tenant, GoodIds(u, files, ids))
    ensures r.Failure? ==> r.error == PlanLimit && after == c.(blobs := after.blobs)
                           && c.blobs <= after.blobs <= c.blobs + GoodIds(u, files, ids)
    ensures Ok(c) ==> Ok(after)
  {
    var results, now := [], c;
    for i := 0 to |files|
      invariant Progress(c, u, files, ids, tenant, billing, i, results, now)
    {
      BeforeFile(c, u, files, ids, tenant, billing, i, results, now);
      var item, next := UploadOne(now, u, files[i], ids[i], tenant, owner, visibility, billing);
      if item.Failure? {
        BatchFails(c, u, files, ids, tenant, billing, i, results, now);
        return Failure(item.error), c.(blobs := now.blobs);
      }
      AfterFile(c, u, files, ids, tenant, owner, visibility, billing, i, results, now, item.value, next);
      results, now := results + [item.value], next;
    }
    assert files[..|files|] == files;
    return Success(results), now;
  }

  /** The loop invariant after `i` files. */
  ghost predicate Progress(c: Corpus, u: UploadSettings, files: seq<File>, ids: seq<Uuid>, tenant: Uuid,
                           billing: BillingSettings, i: nat, results: seq<ItemResult>, now: Corpus)
    requires i <= |files| <= |ids|
  {
    && Answers(u, files[..i], ids, results) && TookIn(c, now, tenant, GoodIds(u, files[..i], ids))
    && (Count(files[..i], IsGood(u)) == 0 || HasRoom(c, billing, tenant, Count(files[..i], IsGood(u))))
    && (Ok(c) ==> Ok(now))
  }

  lemma {:induction false} BeforeFile(c: Corpus, u: UploadSettings, files: seq<File>, ids: seq<Uuid>, tenant: Uuid,
                                      billing: BillingSettings, i: nat, results: seq<ItemResult>, now: Corpus)
    requires FreshIds(c, ids) && i < |files| <= |ids| && Progress(c, u, files, ids, tenant, billing, i, results, now)
    ensures ids[i] !in now.documents
    ensures |LiveIds(now.documents, tenant)| == |LiveIds(c.documents, tenant)| + Count(files[..i], IsGood(u))
    ensures now.plans == c.plans
  {
    GoodIdsCount(u, files, ids, i);
    RoomFor(c, now, tenant, GoodIds(u, files[..i], ids), ids, i);
  }

  /** The quota refuses a good file: the batch has more good files than there is room for. */
  lemma {:induction false} BatchFails(c: Corpus, u: UploadSettings, files: seq<File>, ids: seq<Uuid>, tenant: Uuid,
                                      billing: BillingSettings, i: nat, results: seq<ItemResult>, now: Corpus)
    requires FreshIds(c, ids) && i < |files| <= |ids| && Progress(c, u, files, ids, tenant, billing, i, results, now)
    requires Flaw(u, files[i]).None? && !AllowsDocument(now, billing, tenant)
    ensures Count(files, IsGood(u)) > 0 && !HasRoom(c, billing, tenant, Count(files, IsGood(u)))
    ensures c.blobs <= now.blobs <= c.blobs + GoodIds(u, files, ids)
    ensures Ok(c) ==> Ok(c.(blobs := now.blobs))
  {
    BeforeFile(c, u, files, ids, tenant, billing, i, results, now);
    NoRoomLater(u, files, i);
    NoRoomForMore(c, now, tenant, billing, Count(files[..i], IsGood(u)), Count(files, IsGood(u)));
    KeepsGood(u, files, ids, i);
    GrowBlobs(c, now.blobs);
  }

  lemma {:induction false} AfterFile(c: Corpus, u: UploadSettings, files: seq<File>, ids: seq<Uuid>, tenant: Uuid,
                                     owner: Uuid, visibility: Visibility, billing: BillingSettings, i: nat,
                                     results: seq<ItemResult>, now: Corpus, item: ItemResult, next: Corpus)
    requires FreshIds(c, ids) && i < |files| <= |ids| && Progress(c, u, files, ids, tenant, billing, i, results, now)
    requires if Flaw(u, files[i]).None? then
               && item == Accepted(files[i].name, ids[i])
               && IntakeOf(now, ids[i], tenant, owner, visibility, files[i], billing) == Success(next)
             else item == Rejected(files[i].name, Flaw(u, files[i]).value) && next == now
    ensures Progress(c, u, files, ids, tenant, billing, i + 1, results + [item], next)
  {
    AnswersStep(u, files, ids, i, results, item);
    if Flaw(u, files[i]).None? {
      AfterGoodFile(c, u, files, ids, tenant, owner, visibility, billing, i, results, now, next);
    } else {
      OneMoreGood(u, files, ids, i);
      assert GoodIds(u, files[..i + 1], ids) == GoodIds(u, files[..i], ids);
    }
  }

  lemma {:induction false} AfterGoodFile(c: Corpus, u: UploadSettings, files: seq<File>, ids: seq<Uuid>, tenant: Uuid,
                                         owner: Uuid, visibility: Visibility, billing: BillingSettings, i: nat,
                                         results: seq<ItemResult>, now: Corpus, next: Corpus)
    requires FreshIds(c, ids) && i < |files| <= |ids| && Progress(c, u, files, ids, tenant, billing, i, results, now)
    requires Flaw(u, files[i]).None?
    requires IntakeOf(now, ids[i], tenant, owner, visibility, files[i], billing) == Success(next)
    ensures TookIn(c, next, tenant, GoodIds(u, files[..i + 1], ids)) && (Ok(c) ==> Ok(next))
    ensures HasRoom(c, billing, tenant, Count(files[..i + 1], IsGood(u)))
  {
    BeforeFile(c, u, files, ids, tenant, billing, i, results, now);
    OneMoreGood(u, files, ids, i);
    GoodFileTaken(c, now, next, tenant, owner, visibility, GoodIds(u, files[..i], ids), ids[i], files[i], billing);
    RoomForOneMore(c, now, tenant, billing, Count(files[..i], IsGood(u)));
  }

  lemma {:induction false} NoRoomForMore(c: Corpus, now: Corpus, tenant: Uuid, billing: BillingSettings, n: nat,
                                         more: nat)
    requires |LiveIds(now.documents, tenant)| == |LiveIds(c.documents, tenant)| + n && now.plans == c.plans
    requires !AllowsDocument(now, billing, tenant) && n < more
    ensures !HasRoom(c, billing, tenant, more)
  {
  }

  lemma {:induction false} RoomForOneMore(c: Corpus, now: Corpus, tenant: Uuid, billing: BillingSettings, n: nat)
    requires |LiveIds(now.documents, tenant)| == |LiveIds(c.documents, tenant)| + n && now.plans == c.plans
    requires AllowsDocument(now, billing, tenant)
    ensures HasRoom(c, billing, tenant, n + 1)
  {
  }

  lemma {:induction false} GoodFileTaken(c: Corpus, now: Corpus, next: Corpus, tenant: Uuid, owner: Uuid,
                                         visibility: Visibility, good: set<Uuid>, id: Uuid, f: File,
                                         billing: BillingSettings)
    requires TookIn(c, now, tenant, good) && id !in now.documents && (Ok(c) ==> Ok(now))
    requires IntakeOf(now, id, tenant, owner, visibility, f, billing) == Success(next)
    ensures TookIn(c, next, tenant, good + {id}) && (Ok(c) ==> Ok(next))
    ensures AllowsDocument(now, billing, tenant)
  {
    TookInOne(c, now, tenant, owner, visibility, good, id);
    if Ok(now) {
      IntakeKeepsOk(now, id, tenant, owner, visibility, f.size, f.clean, billing);
    }
  }

  /** The body of the loop: an intake error becomes a rejected item, the plan limit ends the request. */
  method UploadOne(now: Corpus, u: UploadSettings, f: File, id: Uuid, tenant: Uuid, owner: Uuid, visibility: Visibility,
                   billing: BillingSettings) returns (item: Result<ItemResult, IntakeError>, next: Corpus)
    ensures item.Failure? <==> Flaw(u, f).None? && !AllowsDocument(now, billing, tenant)
    ensures item.Failure? ==> item.error == PlanLimit
    ensures item.Success? ==>
      if Flaw(u, f).None? then
        && item.value == Accepted(f.name, id)
        && IntakeOf(now, id, tenant, owner, visibility, f, billing) == Success(next)
      else item.value == Rejected(f.name, Flaw(u, f).value) && next == now
  {
    next := now;
    if f.extension !in u.extensions {
      return Success(Rejected(f.name, "unsupported_type")), next;
    }
    if f.size > u.maxBytes {
      return Success(Rejected(f.name, "too_large")), next;
    }
    match IntakeOf(now, id, tenant, owner, visibility, f, billing)
    case Success(taken) => return Success(Accepted(f.name, id)), taken;
    case Failure(e) =>
      if e == PlanLimit {
        return Failure(e), next;
      }
      return Success(Rejected(f.name, ReasonText(e))), next;
  }

  /** The quota check inside the loop sees the documents already taken in. */
  lemma {:induction false} RoomFor(c: Corpus, now: Corpus, tenant: Uuid, good: set<Uuid>, ids: seq<Uuid>, i: nat)
    requires FreshIds(c, ids) && i < |ids| && TookIn(c, now, tenant, good)
    requires forall id <- good :: exists j :: 0 <= j < i && ids[j] == id
    ensures ids[i] !in now.documents
    ensures |LiveIds(now.documents, tenant)| == |LiveIds(c.documents, tenant)| + |good|
  {
    assert ids[i] !in good;
    assert LiveIds(c.documents, tenant) !! good;
  }

  /** Counting more files never makes room. */
  lemma {:induction false} NoRoomLater(u: UploadSettings, files: seq<File>, i: nat)
    requires i <= |files|
    ensures Count(files[..i], IsGood(u)) <= Count(files, IsGood(u))
    ensures i < |files| && Flaw(u, files[i]).None? ==> Count(files[..i], IsGood(u)) < Count(files, IsGood(u))
    decreases |files| - i
  {
    if i < |files| {
      assert files[..i + 1] == files[..i] + [files[i]];
      CountAppend(files[..i], files[i], IsGood(u));
      NoRoomLater(u, files, i + 1);
    } else {
      assert files[..i] == files;
    }
  }

  lemma {:induction false} KeepsGood(u: UploadSettings, files: seq<File>, ids: seq<Uuid>, i: nat)
    requires i <= |files| <= |ids|
    ensures GoodIds(u, files[..i], ids) <= GoodIds(u, files, ids)
  {
    forall id | id in GoodIds(u, files[..i], ids) ensures id in GoodIds(u, files, ids) {
      var j :| 0 <= j < i && Flaw(u, files[..i][j]).None? && ids[j] == id;
      assert files[j] == files[..i][j];
    }
  }

  lemma {:induction false} AnswersStep(u: UploadSettings, files: seq<File>, ids: seq<Uuid>, i: nat,
                                       results: seq<ItemResult>, item: ItemResult)
    requires i < |files| <= |ids| && Answers(u, files[..i], ids, results)
    requires item == match Flaw(u, files[i])
                     case None => Accepted(files[i].name, ids[i])
                     case Some(reason) => Rejected(files[i].name, reason)
    ensures Answers(u, files[..i + 1], ids, results + [item])
  {
    assert forall j | 0 <= j < i :: files[..i + 1][j] == files[..i][j];
  }

  /** Blobs without a row do no harm to the invariant. */
  lemma {:induction false} GrowBlobs(c: Corpus, blobs: set<Uuid>)
    requires c.blobs <= blobs
    ensures Ok(c) ==> Ok(c.(blobs := blobs))
  {
    if Ok(c) {
      forall id | id in c.documents ensures DocumentOk(c.(blobs := blobs), id) {
        assert DocumentOk(c, id);
      }
    }
  }

  /** The reasons for which a file is rejected, in order. */
  lemma {:induction false} FlawsInOrder(u: UploadSettings, f: File)
    ensures var unsupported, large := f.extension !in u.extensions, f.size > u.maxBytes;
            && (Flaw(u, f) == Some("unsupported_type") <==> unsupported)
            && (Flaw(u, f) == Some("too_large") <==> !unsupported && large)
            && (Flaw(u, f) == Some("empty") <==> !unsupported && !large && f.size == 0)
            && (Flaw(u, f) == Some("malware") <==> !unsupported && !large && f.size > 0 && !f.clean)
            && (Flaw(u, f) == None <==> f.extension in u.extensions && 1 <= f.size <= u.maxBytes && f.clean)
  {
  }
}
