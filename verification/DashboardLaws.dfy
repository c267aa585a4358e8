/**
 * What the numbers of the dashboard count (backend/app/services/analytics_service.py), stated over the whole query
 * table of all tenants.
 */
module DashboardLaws {
  import opened Analytics
  import opened Dashboard
  import opened Queries
  import opened Select
  import opened Sequences
  import opened Uploads
  import opened Wrappers

  /** The start of the window: between one and 365 days before now, in microseconds. */
  function Start(days: int, now: int): int {
    now - (if days < 1 then 1 else if days > 365 then 365 else days) * 86_400_000_000
  }

  /** The tenant asked it since the start of the window. */
  function Asked(tenant: Uuid, since: int): QueryRow -> bool {
    (q: QueryRow) => q.tenant == tenant && q.createdAt >= since
  }

  /** The window of the dashboard is a filter of the query table. */
  lemma {:induction false} WindowIsWhere(queries: seq<QueryRow>, tenant: Uuid, since: int)
    ensures InWindow(queries, tenant, since) == Where(queries, Asked(tenant, since))
  {
    if queries != [] {
      WindowIsWhere(queries[..|queries| - 1], tenant, since);
    }
  }

  lemma {:induction false} CountInWindow(queries: seq<QueryRow>, tenant: Uuid, since: int, where: QueryRow -> bool,
                                         both: QueryRow -> bool)
    requires forall q :: both(q) <==> q.tenant == tenant && q.createdAt >= since && where(q)
    ensures Count(InWindow(queries, tenant, since), where) == Count(queries, both)
  {
    WindowIsWhere(queries, tenant, since);
    CountWhere(queries, Asked(tenant, since), where, both);
  }

  lemma {:induction false} TotalIsSum(rows: seq<QueryRow>, where: QueryRow -> bool, amount: QueryRow -> real)
    requires forall q :: amount(q) == if where(q) && q.confidence.Some? then q.confidence.value else 0.0
    ensures TotalConfidence(rows, where) == SumOf(rows, amount)
  {
    if rows != [] {
      TotalIsSum(rows[..|rows| - 1], where, amount);
    }
  }

  lemma {:induction false} SumInWindow(queries: seq<QueryRow>, tenant: Uuid, since: int, where: QueryRow -> bool,
                                       amount: QueryRow -> real)
    requires forall q :: amount(q) == if q.tenant == tenant && q.createdAt >= since && where(q) && q.confidence.Some?
                                      then q.confidence.value else 0.0
    ensures TotalConfidence(InWindow(queries, tenant, since), where) == SumOf(queries, amount)
  {
    var here := (q: QueryRow) => if where(q) && q.confidence.Some? then q.confidence.value else 0.0;
    WindowIsWhere(queries, tenant, since);
    TotalIsSum(InWindow(queries, tenant, since), where, here);
    SumWhere(queries, Asked(tenant, since), here, amount);
  }

  /** An average, if there is anything to average. */
  predicate IsAverage(average: Option<real>, sum: real, n: nat) {
    if n == 0 then average == None else average.Some? && average.value * n as real == sum
  }

  lemma {:induction false} AveragesRight(sum: real, n: nat)
    ensures IsAverage(AverageOf(sum, n), sum, n)
  {
    if n > 0 {
      var d := n as real;
      assert sum / d * d == sum;
    }
  }

  /** The window that the dashboard opens. */
  lemma {:induction false} WindowOpens(days: int, now: int)
    ensures now - ClampDays(days) * DAY == Start(days, now)
  {
  }

  // ---------- Answer quality ----------

  function AskedUnder(tenant: Uuid, since: int, threshold: real): QueryRow -> bool {
    (q: QueryRow) =>
      q.tenant == tenant && q.createdAt >= since && q.confidence.Some? && q.confidence.value < threshold
  }

  function AskedWith(tenant: Uuid, since: int, status: QueryStatus): QueryRow -> bool {
    (q: QueryRow) => q.tenant == tenant && q.createdAt >= since && q.status == status
  }

  function AskedCiting(tenant: Uuid, since: int): QueryRow -> bool {
    (q: QueryRow) => q.tenant == tenant && q.createdAt >= since && q.citations != []
  }

  function AskedScored(tenant: Uuid, since: int): QueryRow -> bool {
    (q: QueryRow) => q.tenant == tenant && q.createdAt >= since && q.confidence.Some?
  }

  function ConfidenceIn(tenant: Uuid, since: int): QueryRow -> real {
    (q: QueryRow) =>
      if q.tenant == tenant && q.createdAt >= since && q.confidence.Some? then q.confidence.value else 0.0
  }

  lemma {:induction false} AllOfWindow(queries: seq<QueryRow>, tenant: Uuid, since: int)
    ensures |InWindow(queries, tenant, since)| == Count(queries, Asked(tenant, since))
  {
    WindowIsWhere(queries, tenant, since);
    WhereCount(queries, Asked(tenant, since));
  }

  /**
   * The quality figures count all queries of the tenant since the start of the window, whatever their status,
   * then those below the threshold, held, rejected and citing.
   */
  lemma {:induction false} QualityCounts(queries: seq<QueryRow>, tenant: Uuid, threshold: real, since: int)
    ensures var c := AnswerQualityOf(QualityOf(InWindow(queries, tenant, since), threshold)).counts;
            && c.total == Count(queries, Asked(tenant, since))
            && c.lowConfidence == Count(queries, AskedUnder(tenant, since, threshold))
            && c.pendingApproval == Count(queries, AskedWith(tenant, since, PendingApproval))
            && c.rejected == Count(queries, AskedWith(tenant, since, Rejected))
            && c.withCitations == Count(queries, AskedCiting(tenant, since))
  {
    AllOfWindow(queries, tenant, since);
    CountInWindow(queries, tenant, since, IsLow(threshold), AskedUnder(tenant, since, threshold));
    CountInWindow(queries, tenant, since, StatusIs(PendingApproval), AskedWith(tenant, since, PendingApproval));
    CountInWindow(queries, tenant, since, StatusIs(Rejected), AskedWith(tenant, since, Rejected));
    CountInWindow(queries, tenant, since, HasCitations(), AskedCiting(tenant, since));
  }

  /** The average confidence is over all scored queries of the window; coverage is the share of citing ones. */
  lemma {:induction false} QualityAverages(queries: seq<QueryRow>, tenant: Uuid, threshold: real, since: int)
    ensures var a := AnswerQualityOf(QualityOf(InWindow(queries, tenant, since), threshold));
            && IsAverage(a.avgConfidence, SumOf(queries, ConfidenceIn(tenant, since)),
                         Count(queries, AskedScored(tenant, since)))
            && IsPercent(a.coveragePct, Count(queries, AskedCiting(tenant, since)),
                         Count(queries, Asked(tenant, since)))
  {
    QualityCounts(queries, tenant, threshold, since);
    CountInWindow(queries, tenant, since, HasConfidence(), AskedScored(tenant, since));
    SumInWindow(queries, tenant, since, HasConfidence(), ConfidenceIn(tenant, since));
    AveragesOf(QualityOf(InWindow(queries, tenant, since), threshold));
  }

  /** The two derived figures, from the sums. */
  lemma {:induction false} AveragesOf(q: Quality)
    ensures IsAverage(AnswerQualityOf(q).avgConfidence, q.confSum, q.confN)
    ensures IsPercent(AnswerQualityOf(q).coveragePct, q.withCitations, q.total)
  {
    AveragesRight(q.confSum, q.confN);
    PercentRight(q.withCitations, q.total);
  }

  predicate IsPercent(percent: real, part: nat, whole: nat) {
    if whole == 0 then percent == 0.0 else percent * whole as real == part as real * 100.0
  }

  lemma {:induction false} PercentRight(part: nat, whole: nat)
    ensures whole > 0 ==> part as real / whole as real * 100.0 * whole as real == part as real * 100.0
  {
    if whole > 0 {
      assert part as real / whole as real * whole as real == part as real;
    }
  }

  // ---------- Reps and days ----------

  function AskedBy(tenant: Uuid, since: int, user: Uuid): QueryRow -> bool {
    (q: QueryRow) => q.tenant == tenant && q.createdAt >= since && q.user == user
  }

  function AnsweredTo(tenant: Uuid, since: int, user: Uuid): QueryRow -> bool {
    (q: QueryRow) => q.tenant == tenant && q.createdAt >= since && q.user == user && q.status == Completed
  }

  function ScoredFor(tenant: Uuid, since: int, user: Uuid): QueryRow -> bool {
    (q: QueryRow) => q.tenant == tenant && q.createdAt >= since && q.user == user && q.confidence.Some?
  }

  function ConfidenceFor(tenant: Uuid, since: int, user: Uuid): QueryRow -> real {
    (q: QueryRow) =>
      if q.tenant == tenant && q.createdAt >= since && q.user == user && q.confidence.Some? then q.confidence.value
      else 0.0
  }

  /** The latest instant at which some such query was asked. */
  ghost predicate IsLatest(queries: seq<QueryRow>, where: QueryRow -> bool, last: Option<int>) {
    match last
    case None => forall i | 0 <= i < |queries| :: !where(queries[i])
    case Some(t) =>
      && (exists i :: 0 <= i < |queries| && where(queries[i]) && queries[i].createdAt == t)
      && (forall i | 0 <= i < |queries| && where(queries[i]) :: queries[i].createdAt <= t)
  }

  lemma {:induction false} WhereMembers<T>(rows: seq<T>, keep: T -> bool, x: T)
    ensures x in Where(rows, keep) <==> x in rows && keep(x)
  {
    if rows != [] {
      WhereMembers(rows[..|rows| - 1], keep, x);
      assert rows == rows[..|rows| - 1] + [rows[|rows| - 1]];
    }
  }

  lemma {:induction false} LastIsLatestAsked(queries: seq<QueryRow>, tenant: Uuid, since: int, user: Uuid)
    ensures IsLatest(queries, AskedBy(tenant, since, user), LastOf(InWindow(queries, tenant, since), user))
  {
    var rows, where := InWindow(queries, tenant, since), AskedBy(tenant, since, user);
    WindowIsWhere(queries, tenant, since);
    LastMeaning(rows, user);
    forall i | 0 <= i < |queries| && where(queries[i])
      ensures exists k :: 0 <= k < |rows| && rows[k] == queries[i] && rows[k].user == user
    {
      WhereMembers(queries, Asked(tenant, since), queries[i]);
    }
    if LastOf(rows, user).Some? {
      var k :| 0 <= k < |rows| && rows[k].user == user && rows[k].createdAt == LastOf(rows, user).value;
      WhereMembers(queries, Asked(tenant, since), rows[k]);
      var i :| 0 <= i < |queries| && queries[i] == rows[k];
      assert where(queries[i]);
    }
  }

  /** The row of a rep: the user, and what the user asked, got answered, averaged and asked last. */
  lemma {:induction false} RepCounts(queries: seq<QueryRow>, tenant: Uuid, since: int, u: UserRow)
    ensures var r := RepOf(InWindow(queries, tenant, since), u);
            && r.user == u.id && r.email == u.email && r.role == u.role
            && r.queryCount == Count(queries, AskedBy(tenant, since, u.id))
            && r.answeredCount == Count(queries, AnsweredTo(tenant, since, u.id))
            && IsAverage(r.avgConfidence, SumOf(queries, ConfidenceFor(tenant, since, u.id)),
                         Count(queries, ScoredFor(tenant, since, u.id)))
            && IsLatest(queries, AskedBy(tenant, since, u.id), r.lastActive)
            && (r.active <==> r.queryCount > 0)
  {
    CountInWindow(queries, tenant, since, KeyIs(UserOf(), u.id), AskedBy(tenant, since, u.id));
    CountInWindow(queries, tenant, since, AnsweredBy(u.id), AnsweredTo(tenant, since, u.id));
    CountInWindow(queries, tenant, since, ScoredBy(u.id), ScoredFor(tenant, since, u.id));
    SumInWindow(queries, tenant, since, KeyIs(UserOf(), u.id), ConfidenceFor(tenant, since, u.id));
    AveragesRight(SumOf(queries, ConfidenceFor(tenant, since, u.id)), Count(queries, ScoredFor(tenant, since, u.id)));
    LastIsLatestAsked(queries, tenant, since, u.id);
  }

  function AskedOn(tenant: Uuid, since: int, day: int): QueryRow -> bool {
    (q: QueryRow) => q.tenant == tenant && q.createdAt >= since && q.createdAt / 86_400_000_000 == day
  }

  /** Each point of the trend counts the queries of its UTC day. */
  lemma {:induction false} TrendCounts(queries: seq<QueryRow>, tenant: Uuid, since: int, days: seq<int>)
    ensures var trend := TrendOf(InWindow(queries, tenant, since), days);
            && |trend| == |days|
            && forall i | 0 <= i < |days| ::
                 trend[i].day == days[i] && trend[i].count == Count(queries, AskedOn(tenant, since, days[i]))
  {
    forall i | 0 <= i < |days|
      ensures Count(InWindow(queries, tenant, since), KeyIs(DayOf(), days[i]))
           == Count(queries, AskedOn(tenant, since, days[i]))
    {
      CountInWindow(queries, tenant, since, KeyIs(DayOf(), days[i]), AskedOn(tenant, since, days[i]));
    }
  }

  // ---------- Cited documents ----------

  /** The citations of the selected rows, in table order. */
  function CitationsIn(queries: seq<QueryRow>, where: QueryRow -> bool): seq<CitationRef> {
    if queries == [] then []
    else
      var last := queries[|queries| - 1];
      CitationsIn(queries[..|queries| - 1], where) + if where(last) then last.citations else []
  }

  function Names(id: string): CitationRef -> bool {
    (c: CitationRef) => c.documentId == id
  }

  lemma {:induction false} WindowCitations(queries: seq<QueryRow>, tenant: Uuid, since: int)
    ensures AllCitations(InWindow(queries, tenant, since)) == CitationsIn(queries, Asked(tenant, since))
  {
    if queries != [] {
      var front, last := queries[..|queries| - 1], queries[|queries| - 1];
      WindowCitations(front, tenant, since);
      var before := InWindow(front, tenant, since);
      if last.tenant == tenant && last.createdAt >= since {
        assert (before + [last])[..|before|] == before;
      } else {
        assert InWindow(queries, tenant, since) == before;
      }
    }
  }

  /** The file name of the first citation that names the document; the document id where it has none. */
  ghost predicate IsFirstName(cites: seq<CitationRef>, id: string, name: string) {
    && (forall i | 0 <= i < |cites| && cites[i].documentId == id
            && (forall j | 0 <= j < i :: cites[j].documentId != id) ::
          name == if cites[i].filename == None || cites[i].filename == Some("") then id else cites[i].filename.value)
    && ((forall i | 0 <= i < |cites| :: cites[i].documentId != id) ==> name == id)
  }

  /**
   * Each listed document is cited in the window, with the number of its citations there and the file name of
   * the first; a cited document that is not listed has no more than any of ten listed ones.
   */
  lemma {:induction false} CitedCounts(queries: seq<QueryRow>, tenant: Uuid, since: int, id: string)
    ensures var cites := CitationsIn(queries, Asked(tenant, since));
            var top := MostCitedOf(AllCitations(InWindow(queries, tenant, since)));
            && |top| <= 10
            && (forall i | 0 <= i < |top| ::
                  top[i].count == Count(cites, Names(top[i].documentId)) > 0
                  && IsFirstName(cites, top[i].documentId, top[i].filename))
            && (Count(cites, Names(id)) > 0 && (forall i | 0 <= i < |top| :: top[i].documentId != id) ==>
                  |top| == 10 && forall i | 0 <= i < |top| :: top[i].count >= Count(cites, Names(id)))
  {
    var cites := CitationsIn(queries, Asked(tenant, since));
    WindowCitations(queries, tenant, since);
    MostCitedIsTop(cites, id);
    MentionsAreNamed(cites, id);
    var top := MostCitedOf(cites);
    forall i | 0 <= i < |top|
      ensures top[i].count == Count(cites, Names(top[i].documentId)) > 0
      ensures IsFirstName(cites, top[i].documentId, top[i].filename)
    {
      MentionsAreNamed(cites, top[i].documentId);
    }
  }

  lemma {:induction false} MentionsAreNamed(cites: seq<CitationRef>, id: string)
    ensures Mentions(cites, id) == Count(cites, Names(id))
    ensures IsFirstName(cites, id, FirstName(cites, id))
  {
    CountImplies(cites, KeyIs(DocumentOf(), id), Names(id));
    var first := Find(cites, KeyIs(DocumentOf(), id));
    assert forall i | 0 <= i < |cites| :: KeyIs(DocumentOf(), id)(cites[i]) <==> cites[i].documentId == id;
  }

  /** The uncited list: live documents without a citation in the window, at most fifty, each with name and type. */
  lemma {:induction false} UncitedTells(documents: seq<LibraryDocument>, queries: seq<QueryRow>, tenant: Uuid,
                                        since: int, d: LibraryDocument)
    ensures var cites := CitationsIn(queries, Asked(tenant, since));
            var listed := Described(Take(Uncited(documents, AllCitations(InWindow(queries, tenant, since))),
                                         UNCITED_LIMIT));
            var entry := UncitedDocument(d.id, d.filename, d.contentType);
            && |listed| <= 50
            && (forall x <- listed :: exists e <- documents ::
                  x == UncitedDocument(e.id, e.filename, e.contentType) && Count(cites, Names(e.id)) == 0)
            && (d in documents && Count(cites, Names(d.id)) == 0 ==> entry in listed || |listed| == 50)
  {
    var cites := CitationsIn(queries, Asked(tenant, since));
    WindowCitations(queries, tenant, since);
    var kept := Take(Uncited(documents, cites), UNCITED_LIMIT);
    forall i | 0 <= i < |kept|
      ensures kept[i] in documents && Count(cites, Names(kept[i].id)) == 0
    {
      UncitedMembers(documents, cites, kept[i]);
      MentionsAreNamed(cites, kept[i].id);
    }
    UncitedIsDisjoint(documents, cites, d);
    MentionsAreNamed(cites, d.id);
    if d in kept {
      var i :| 0 <= i < |kept| && kept[i] == d;
      assert Described(kept)[i] == UncitedDocument(d.id, d.filename, d.contentType);
    }
  }

  // ---------- Uploads ----------

  function UploadedAs(since: int, contentType: string): LibraryDocument -> bool {
    (d: LibraryDocument) => d.createdAt >= since && d.contentType == contentType
  }

  function Uploaded(since: int): LibraryDocument -> bool {
    (d: LibraryDocument) => d.createdAt >= since
  }

  /** The upload list counts the library's documents of the window by content type, and leaves none out. */
  lemma {:induction false} UploadCounts(documents: seq<LibraryDocument>, since: int, contentType: string)
    ensures var list := UploadsOf(documents, since);
            && (forall i | 0 <= i < |list| :: list[i].count == Count(documents, UploadedAs(since, list[i].contentType)))
            && (contentType in Listed(list) <==> Count(documents, UploadedAs(since, contentType)) > 0)
            && SumUploads(list) == Count(documents, Uploaded(since))
  {
    var recent, list := Where(documents, UploadedSince(since)), UploadsOf(documents, since);
    UploadsConserve(documents, since);
    forall i | 0 <= i < |list|
      ensures list[i].count == Count(documents, UploadedAs(since, list[i].contentType))
    {
      CountWhere(documents, UploadedSince(since), KeyIs(TypeOf(), list[i].contentType),
                 UploadedAs(since, list[i].contentType));
    }
    CountWhere(documents, UploadedSince(since), KeyIs(TypeOf(), contentType), UploadedAs(since, contentType));
    TypesAreCounted(recent, contentType);
    DedupMembers(Types(recent));
    CountImplies(documents, UploadedSince(since), Uploaded(since));
  }
}
