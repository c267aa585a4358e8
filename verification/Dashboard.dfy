/**
 * The dashboard built from the pass (backend/app/services/analytics_service.py): trend, rep activity,
 * answer quality and content insights, with the conservation laws between them.
 */
module Dashboard {
  import opened Analytics
  import opened Leaderboard
  import opened Queries
  import opened Select
  import opened Sequences
  import opened Uploads
  import opened Wrappers

  datatype TrendPoint = TrendPoint(day: int, count: nat)
  datatype RepActivity = RepActivity(user: Uuid, email: string, role: string, queryCount: nat, answeredCount: nat,
                                     avgConfidence: Option<real>, lastActive: Option<int>, active: bool)
  datatype CitedDocument = CitedDocument(documentId: string, filename: string, count: nat)
  datatype AnswerQuality = AnswerQuality(counts: Quality, avgConfidence: Option<real>, coveragePct: real)
  datatype UncitedDocument = UncitedDocument(documentId: string, filename: string, contentType: string)
  datatype Overview = Overview(days: int, since: int, total: nat, activeReps: nat, reps: seq<RepActivity>,
                               trend: seq<TrendPoint>, quality: AnswerQuality, mostCited: seq<CitedDocument>,
                               uncited: seq<UncitedDocument>, uploads: seq<UploadsByType>)

  /** `clamp_days`. */
  function ClampDays(days: int): int {
    if days < 1 then 1 else if days > 365 then 365 else days
  }

  /** The tenant's queries since the start of the window. */
  function InWindow(queries: seq<QueryRow>, tenant: Uuid, since: int): seq<QueryRow> {
    if queries == [] then []
    else
      var last := queries[|queries| - 1];
      InWindow(queries[..|queries| - 1], tenant, since)
        + if last.tenant == tenant && last.createdAt >= since then [last] else []
  }

  // ---------- The lists, from the rows ----------

  function AverageOf(sum: real, n: nat): Option<real> {
    if n == 0 then None else Some(sum / n as real)
  }

  /** The activity row of a user, zero when the user asked nothing. */
  function RepOf(rows: seq<QueryRow>, u: UserRow): RepActivity {
    var s := StatsOf(rows, u.id);
    RepActivity(u.id, u.email, u.role, s.count, s.answered, AverageOf(s.confSum, s.confN), s.last, s.count > 0)
  }

  function RepEntries(rows: seq<QueryRow>, users: seq<UserRow>): (r: seq<Entry<RepActivity>>)
    ensures |r| == |users|
    ensures forall i | 0 <= i < |r| ::
              r[i] == Entry(RepOf(rows, users[i]).queryCount, users[i].email, RepOf(rows, users[i]))
  {
    seq(|users|, i requires 0 <= i < |users| =>
      Entry(RepOf(rows, users[i]).queryCount, users[i].email, RepOf(rows, users[i])))
  }

  /** The consecutive days of the window. */
  function Days(start: int, end: int): (r: seq<int>)
    ensures |r| == (if start <= end then end - start + 1 else 0)
    ensures forall i | 0 <= i < |r| :: r[i] == start + i
  {
    seq(if start <= end then end - start + 1 else 0, i => start + i)
  }

  function TrendOf(rows: seq<QueryRow>, days: seq<int>): (r: seq<TrendPoint>)
    ensures |r| == |days|
    ensures forall i | 0 <= i < |r| :: r[i] == TrendPoint(days[i], Count(rows, KeyIs(DayOf(), days[i])))
  {
    seq(|days|, i requires 0 <= i < |days| => TrendPoint(days[i], Count(rows, KeyIs(DayOf(), days[i]))))
  }

  /** How often a document is cited. */
  function Mentions(cites: seq<CitationRef>, id: string): nat {
    Count(cites, KeyIs(DocumentOf(), id))
  }

  function CitedEntries(cites: seq<CitationRef>): (r: seq<Entry<string>>)
    ensures |r| == |Dedup(DocumentIds(cites))|
    ensures forall i | 0 <= i < |r| ::
              var id := Dedup(DocumentIds(cites))[i];
              r[i] == Entry(Mentions(cites, id), id, id)
  {
    var ids := Dedup(DocumentIds(cites));
    seq(|ids|, i requires 0 <= i < |ids| => Entry(Mentions(cites, ids[i]), ids[i], ids[i]))
  }

  /** The file name of the first citation of a document. */
  function FirstName(cites: seq<CitationRef>, id: string): string {
    match Find(cites, KeyIs(DocumentOf(), id))
    case None => id
    case Some(i) => CitedName(cites[i])
  }

  function MostCitedOf(cites: seq<CitationRef>): (r: seq<CitedDocument>)
    ensures var top := Take(Sorted(CitedEntries(cites)), MOST_CITED_LIMIT);
            && |r| == |top|
            && forall i | 0 <= i < |r| ::
                 r[i] == CitedDocument(top[i].item, FirstName(cites, top[i].item), top[i].count)
  {
    var top := Take(Sorted(CitedEntries(cites)), MOST_CITED_LIMIT);
    seq(|top|, i requires 0 <= i < |top| => CitedDocument(top[i].item, FirstName(cites, top[i].item), top[i].count))
  }

  /** Live documents nobody cited, in table order. */
  function Uncited(documents: seq<LibraryDocument>, cites: seq<CitationRef>): seq<LibraryDocument> {
    if documents == [] then []
    else
      var last := documents[|documents| - 1];
      Uncited(documents[..|documents| - 1], cites) + if Mentions(cites, last.id) == 0 then [last] else []
  }

  /** What the response shows of uncited documents. */
  function Described(documents: seq<LibraryDocument>): (r: seq<UncitedDocument>)
    ensures |r| == |documents|
    ensures forall i | 0 <= i < |r| ::
              r[i] == UncitedDocument(documents[i].id, documents[i].filename, documents[i].contentType)
  {
    seq(|documents|, i requires 0 <= i < |documents| =>
      UncitedDocument(documents[i].id, documents[i].filename, documents[i].contentType))
  }

  function AnswerQualityOf(q: Quality): AnswerQuality {
    AnswerQuality(q, AverageOf(q.confSum, q.confN),
                  if q.total == 0 then 0.0 else q.withCitations as real / q.total as real * 100.0)
  }

  function Askers(rows: seq<QueryRow>): set<Uuid> {
    set i | 0 <= i < |rows| :: rows[i].user
  }

  // ---------- Building them from the pass ----------

  /** The loop over the live users. */
  method RepList(users: seq<UserRow>, agg: map<Uuid, Stats>, ghost rows: seq<QueryRow>) returns (reps: seq<RepActivity>)
    requires StatsBy(agg, rows)
    ensures reps == Items(Sorted(RepEntries(rows, users)))
  {
    var entries: seq<Entry<RepActivity>> := [];
    for i := 0 to |users|
      invariant entries == RepEntries(rows, users)[..i]
    {
      var u := users[i];
      if u.id !in agg {
        EmptyStats(rows, u.id);
      }
      var stats := if u.id in agg then Some(agg[u.id]) else None;
      var rep := RepActivity(u.id, u.email, u.role,
                             if stats.Some? then stats.value.count else 0,
                             if stats.Some? then stats.value.answered else 0,
                             if stats.Some? && stats.value.confN > 0
                                 then Some(stats.value.confSum / stats.value.confN as real) else None,
                             if stats.Some? then stats.value.last else None,
                             u.id in agg);
      entries := entries + [Entry(rep.queryCount, u.email, rep)];
    }
    assert RepEntries(rows, users)[..|users|] == RepEntries(rows, users);
    reps := Items(Sorted(entries));
  }

  /** The date cursor loop. */
  method Trend(perDay: map<int, nat>, start: int, end: int, ghost rows: seq<QueryRow>) returns (trend: seq<TrendPoint>)
    requires CountsBy(perDay, rows, DayOf())
    ensures trend == TrendOf(rows, Days(start, end))
  {
    trend := [];
    var cursor := start;
    while cursor <= end
      invariant cursor == start + |trend|
      invariant |trend| <= |Days(start, end)| && trend == TrendOf(rows, Days(start, end))[..|trend|]
    {
      trend := trend + [TrendPoint(cursor, if cursor in perDay then perDay[cursor] else 0)];
      cursor := cursor + 1;
    }
  }

  /** The most cited documents. */
  method MostCited(counts: map<string, nat>, keys: seq<string>, names: map<string, string>,
                   ghost cites: seq<CitationRef>)
    returns (r: seq<CitedDocument>)
    requires CitesBy(counts, keys, names, cites)
    ensures r == MostCitedOf(cites)
  {
    var items := CiteItems(counts, keys, names, cites);
    var top := Take(Sorted(items), MOST_CITED_LIMIT);
    r := [];
    for i := 0 to |top|
      invariant r == MostCitedOf(cites)[..i]
    {
      var id := top[i].item;
      r := r + [CitedDocument(id, if id in names then names[id] else id, top[i].count)];
    }
  }

  /** `cite_counts.items()`. */
  method CiteItems(counts: map<string, nat>, keys: seq<string>, ghost names: map<string, string>,
                   ghost cites: seq<CitationRef>)
    returns (items: seq<Entry<string>>)
    requires CitesBy(counts, keys, names, cites)
    ensures items == CitedEntries(cites)
  {
    forall i | 0 <= i < |keys| ensures keys[i] in counts {
      KeysAreCounted(cites, keys[i]);
      assert keys[i] in keys;
    }
    items := seq(|keys|, i requires 0 <= i < |keys| => Entry(counts[keys[i]], keys[i], keys[i]));
  }

  /** The documents that no citation names. */
  method UncitedList(documents: seq<LibraryDocument>, counts: map<string, nat>, ghost cites: seq<CitationRef>)
    returns (r: seq<LibraryDocument>)
    requires CountsBy(counts, cites, DocumentOf())
    ensures r == Take(Uncited(documents, cites), UNCITED_LIMIT)
  {
    r := [];
    for i := 0 to |documents|
      invariant r == Uncited(documents[..i], cites)
    {
      assert documents[..i + 1][..i] == documents[..i];
      if documents[i].id !in counts {
        r := r + [documents[i]];
      }
    }
    assert documents[..|documents|] == documents;
    r := Take(r, UNCITED_LIMIT);
  }

  /** `overview` over the tenant's tables; `now` is read once. */
  method BuildOverview(queries: seq<QueryRow>, tenant: Uuid, users: seq<UserRow>, documents: seq<LibraryDocument>,
                       threshold: real, days: int, now: int)
    returns (o: Overview)
    ensures var rows := InWindow(queries, tenant, now - ClampDays(days) * DAY);
            && o.days == ClampDays(days) && 1 <= o.days <= 365 && o.since == now - o.days * DAY
            && o.total == |rows|
            && o.activeReps == |Askers(rows)|
            && o.reps == Items(Sorted(RepEntries(rows, users)))
            && o.trend == TrendOf(rows, Days((now - ClampDays(days) * DAY) / DAY, now / DAY))
            && o.quality == AnswerQualityOf(QualityOf(rows, threshold))
            && o.mostCited == MostCitedOf(AllCitations(rows))
            && o.uncited == Described(Take(Uncited(documents, AllCitations(rows)), UNCITED_LIMIT))
            && o.uploads == UploadsOf(documents, o.since)
  {
    var since := now - ClampDays(days) * DAY;
    var rows := InWindow(queries, tenant, since);
    var t := Pass(rows, threshold);
    ActiveAreAskers(t.agg, rows);
    var reps := RepList(users, t.agg, rows);
    var trend := Trend(t.perDay, since / DAY, now / DAY, rows);
    var mostCited := MostCited(t.citeCounts, t.citeKeys, t.citeNames, AllCitations(rows));
    var uncited := UncitedList(documents, t.citeCounts, AllCitations(rows));
    var uploads := CountUploads(documents, since);
    o := Overview(ClampDays(days), since, t.quality.total, |t.agg.Keys|, reps, trend, AnswerQualityOf(t.quality),
                  mostCited, Described(uncited), uploads);
  }

  lemma {:induction false} ActiveAreAskers(agg: map<Uuid, Stats>, rows: seq<QueryRow>)
    requires StatsBy(agg, rows)
    ensures agg.Keys == Askers(rows)
  {
    forall u ensures u in agg <==> u in Askers(rows) {
      CountAll(rows, KeyIs(UserOf(), u));
      if u in Askers(rows) {
        var i :| 0 <= i < |rows| && rows[i].user == u;
        assert KeyIs(UserOf(), u)(rows[i]);
      }
    }
  }

  // ---------- Conservation ----------

  function SumTrend(trend: seq<TrendPoint>): nat {
    if trend == [] then 0 else SumTrend(trend[..|trend| - 1]) + trend[|trend| - 1].count
  }

  lemma {:induction false} TrendIsSum(rows: seq<QueryRow>, days: seq<int>)
    ensures SumTrend(TrendOf(rows, days)) == SumCounts(rows, DayOf(), days)
  {
    if days != [] {
      var front := days[..|days| - 1];
      TrendIsSum(rows, front);
      assert TrendOf(rows, days)[..|days| - 1] == TrendOf(rows, front);
    }
  }

  /**
   * The trend has one point for each consecutive day of the window. Its counts never exceed the total,
   * and add up to it exactly when every row falls on one of those days.
   */
  lemma {:induction false} TrendConserves(rows: seq<QueryRow>, start: int, end: int)
    ensures var trend := TrendOf(rows, Days(start, end));
            && (forall i | 0 <= i < |trend| :: trend[i].day == start + i)
            && SumTrend(trend) <= |rows|
            && (SumTrend(trend) == |rows| <==> forall i | 0 <= i < |rows| :: start <= rows[i].createdAt / DAY <= end)
  {
    var days := Days(start, end);
    TrendIsSum(rows, days);
    PartitionByKey(rows, DayOf(), days);
    forall i | 0 <= i < |rows| ensures DayOf()(rows[i]) in days <==> start <= rows[i].createdAt / DAY <= end {
      var d := rows[i].createdAt / DAY;
      if start <= d <= end {
        assert days[d - start] == d;
      }
    }
  }

  lemma {:induction false} WindowMembers(queries: seq<QueryRow>, tenant: Uuid, since: int)
    ensures forall q <- InWindow(queries, tenant, since) :: q in queries && q.tenant == tenant && q.createdAt >= since
  {
    if queries != [] {
      WindowMembers(queries[..|queries| - 1], tenant, since);
    }
  }

  lemma {:induction false} QuotientMonotone(a: int, b: int)
    requires a <= b
    ensures a / DAY <= b / DAY
  {
  }

  lemma {:induction false} WindowStart(now: int, days: int)
    ensures (now - days * DAY) / DAY == now / DAY - days
  {
    var q, r := now / DAY, now % DAY;
    assert now - days * DAY == (q - days) * DAY + r;
  }

  /**
   * For the dashboard: the trend of a `days`-day window has `days + 1` points ending today, and sums
   * to the total exactly when no query of the window is dated after today.
   */
  lemma {:induction false} TrendOfWindow(queries: seq<QueryRow>, tenant: Uuid, days: int, now: int)
    ensures var rows := InWindow(queries, tenant, now - ClampDays(days) * DAY);
            var trend := TrendOf(rows, Days((now - ClampDays(days) * DAY) / DAY, now / DAY));
            && |trend| == ClampDays(days) + 1
            && trend[|trend| - 1].day == now / DAY
            && (SumTrend(trend) == |rows| <==> forall i | 0 <= i < |rows| :: rows[i].createdAt / DAY <= now / DAY)
  {
    var since := now - ClampDays(days) * DAY;
    var rows := InWindow(queries, tenant, since);
    WindowStart(now, ClampDays(days));
    TrendConserves(rows, since / DAY, now / DAY);
    WindowMembers(queries, tenant, since);
    forall i | 0 <= i < |rows| ensures since / DAY <= rows[i].createdAt / DAY {
      assert rows[i] in rows;
      QuotientMonotone(since, rows[i].createdAt);
    }
  }

  function SumQueries(reps: seq<RepActivity>): nat {
    if reps == [] then 0 else SumQueries(reps[..|reps| - 1]) + reps[|reps| - 1].queryCount
  }

  function Ids(users: seq<UserRow>): (r: seq<Uuid>)
    ensures |r| == |users| && forall i | 0 <= i < |r| :: r[i] == users[i].id
  {
    seq(|users|, i requires 0 <= i < |users| => users[i].id)
  }

  /** The same counts in any order of the list. */
  function SumEntries<T>(s: seq<Entry<T>>): nat {
    if s == [] then 0 else s[0].count + SumEntries(s[1..])
  }

  lemma {:induction false} SumInsert<T>(x: Entry<T>, s: seq<Entry<T>>)
    ensures SumEntries(Insert(x, s)) == x.count + SumEntries(s)
  {
    if s != [] && !Precedes(x, s[0]) {
      SumInsert(x, s[1..]);
      assert ([s[0]] + Insert(x, s[1..]))[1..] == Insert(x, s[1..]);
    } else {
      assert ([x] + s)[1..] == s;
    }
  }

  lemma {:induction false} SumSorted<T>(s: seq<Entry<T>>)
    ensures SumEntries(Sorted(s)) == SumEntries(s)
  {
    if s != [] {
      SumSorted(s[1..]);
      SumInsert(s[0], Sorted(s[1..]));
    }
  }

  lemma {:induction false} SumEntriesAppend<T>(s: seq<Entry<T>>, x: Entry<T>)
    ensures SumEntries(s + [x]) == SumEntries(s) + x.count
  {
    if s == [] {
      assert [] + [x] == [x];
    } else {
      assert (s + [x])[1..] == s[1..] + [x];
      SumEntriesAppend(s[1..], x);
    }
  }

  lemma {:induction false} RepSum(rows: seq<QueryRow>, users: seq<UserRow>)
    ensures SumEntries(RepEntries(rows, users)) == SumCounts(rows, UserOf(), Ids(users))
  {
    if users != [] {
      var front, last := users[..|users| - 1], users[|users| - 1];
      RepSum(rows, front);
      OneMoreRep(rows, front, last);
      assert users == front + [last];
      SumEntriesAppend(RepEntries(rows, front), Entry(RepOf(rows, last).queryCount, last.email, RepOf(rows, last)));
    }
  }

  lemma {:induction false} OneMoreRep(rows: seq<QueryRow>, front: seq<UserRow>, last: UserRow)
    ensures RepEntries(rows, front + [last])
         == RepEntries(rows, front) + [Entry(RepOf(rows, last).queryCount, last.email, RepOf(rows, last))]
    ensures Ids(front + [last])[..|front|] == Ids(front) && Ids(front + [last])[|front|] == last.id
  {
  }

  lemma {:induction false} SumOfItems(s: seq<Entry<RepActivity>>)
    requires forall i | 0 <= i < |s| :: s[i].count == s[i].item.queryCount
    ensures SumQueries(Items(s)) == SumEntries(s)
  {
    if s != [] {
      var front, last := s[..|s| - 1], s[|s| - 1];
      SumOfItems(front);
      assert s == front + [last] && Items(s)[..|s| - 1] == Items(front);
      SumEntriesAppend(front, last);
    }
  }

  /**
   * The query counts of the listed (live) users never exceed the total, and add up to it exactly when
   * every query of the window was asked by a listed user; over all askers, deleted ones included, they
   * always add up.
   */
  lemma {:induction false} RepActivityConserves(rows: seq<QueryRow>, users: seq<UserRow>, everyone: seq<Uuid>)
    requires NoRepeats(Ids(users))
    requires NoRepeats(everyone) && forall i | 0 <= i < |rows| :: rows[i].user in everyone
    ensures var reps := Items(Sorted(RepEntries(rows, users)));
            && SumQueries(reps) <= |rows|
            && (SumQueries(reps) == |rows| <==> forall i | 0 <= i < |rows| :: rows[i].user in Ids(users))
    ensures SumCounts(rows, UserOf(), everyone) == |rows|
  {
    var entries := RepEntries(rows, users);
    RepSum(rows, users);
    SumSorted(entries);
    SortedMeaning(entries);
    forall i | 0 <= i < |Sorted(entries)| ensures Sorted(entries)[i].count == Sorted(entries)[i].item.queryCount {
      assert Sorted(entries)[i] in multiset(Sorted(entries));
      assert Sorted(entries)[i] in entries;
    }
    SumOfItems(Sorted(entries));
    PartitionByKey(rows, UserOf(), Ids(users));
    PartitionByKey(rows, UserOf(), everyone);
  }

  // ---------- Bounds ----------

  lemma {:induction false} TotalWithin(rows: seq<QueryRow>, where: QueryRow -> bool, scored: QueryRow -> bool)
    requires forall i | 0 <= i < |rows| && rows[i].confidence.Some? :: 0.0 <= rows[i].confidence.value <= 1.0
    requires forall i | 0 <= i < |rows| :: scored(rows[i]) <==> where(rows[i]) && rows[i].confidence.Some?
    ensures 0.0 <= TotalConfidence(rows, where) <= Count(rows, scored) as real
  {
    if rows != [] {
      assert forall i | 0 <= i < |rows| - 1 :: rows[..|rows| - 1][i] == rows[i];
      TotalWithin(rows[..|rows| - 1], where, scored);
    }
  }

  lemma {:induction false} AverageWithin(sum: real, n: nat)
    requires 0.0 <= sum <= n as real
    ensures AverageOf(sum, n).Some? ==> 0.0 <= AverageOf(sum, n).value <= 1.0
  {
    if n > 0 {
      var x := sum / n as real;
      assert x * n as real == sum;
    }
  }

  /** Per user: answered never exceeds asked, asked never exceeds the total, and averages stay in [0, 1]. */
  lemma {:induction false} RepBounds(rows: seq<QueryRow>, u: UserRow)
    requires forall i | 0 <= i < |rows| && rows[i].confidence.Some? :: 0.0 <= rows[i].confidence.value <= 1.0
    ensures var r := RepOf(rows, u);
            && r.answeredCount <= r.queryCount <= |rows|
            && (r.avgConfidence.Some? ==> 0.0 <= r.avgConfidence.value <= 1.0)
            && (r.active <==> u.id in Askers(rows)) && (r.active <==> r.lastActive.Some?)
  {
    CountImplies(rows, AnsweredBy(u.id), KeyIs(UserOf(), u.id));
    TotalWithin(rows, KeyIs(UserOf(), u.id), ScoredBy(u.id));
    AverageWithin(StatsOf(rows, u.id).confSum, StatsOf(rows, u.id).confN);
    LastMeaning(rows, u.id);
    CountAll(rows, KeyIs(UserOf(), u.id));
    if u.id in Askers(rows) {
      var i :| 0 <= i < |rows| && rows[i].user == u.id;
      assert KeyIs(UserOf(), u.id)(rows[i]);
    }
  }

  /** For the window: the parts never exceed the wholes, averages stay in [0, 1] and coverage in [0, 100]. */
  lemma {:induction false} QualityBounds(rows: seq<QueryRow>, threshold: real)
    requires forall i | 0 <= i < |rows| && rows[i].confidence.Some? :: 0.0 <= rows[i].confidence.value <= 1.0
    ensures var a := AnswerQualityOf(QualityOf(rows, threshold));
            && a.counts.lowConfidence <= a.counts.confN <= a.counts.total
            && a.counts.pendingApproval + a.counts.rejected <= a.counts.total
            && a.counts.withCitations <= a.counts.total
            && (a.avgConfidence.Some? ==> 0.0 <= a.avgConfidence.value <= 1.0)
            && 0.0 <= a.coveragePct <= 100.0
            && (a.coveragePct == 100.0 <==> rows != [] && forall i | 0 <= i < |rows| :: rows[i].citations != [])
  {
    var q := QualityOf(rows, threshold);
    CountImplies(rows, IsLow(threshold), HasConfidence());
    CountAll(rows, HasConfidence());
    var held := (r: QueryRow) => r.status == PendingApproval || r.status == Rejected;
    CountSplit(rows, StatusIs(PendingApproval), StatusIs(Rejected), held);
    CountAll(rows, held);
    CountAll(rows, HasCitations());
    assert forall i | 0 <= i < |rows| :: HasCitations()(rows[i]) <==> rows[i].citations != [];
    TotalWithin(rows, HasConfidence(), HasConfidence());
    AverageWithin(q.confSum, q.confN);
    CoverageBounds(q.withCitations, q.total);
  }

  lemma {:induction false} CoverageBounds(part: nat, whole: nat)
    requires part <= whole
    ensures whole > 0 ==> 0.0 <= part as real / whole as real * 100.0 <= 100.0
    ensures whole > 0 ==> (part as real / whole as real * 100.0 == 100.0 <==> part == whole)
  {
    if whole > 0 {
      var x := part as real / whole as real;
      assert x * whole as real == part as real;
    }
  }

  // ---------- Cited and uncited documents ----------

  lemma {:induction false} EntryOf(cites: seq<CitationRef>, id: string)
    ensures Entry(Mentions(cites, id), id, id) in CitedEntries(cites) <==> Mentions(cites, id) > 0
  {
    KeysAreCounted(cites, id);
    var ids := Dedup(DocumentIds(cites));
    if id in ids {
      var i :| 0 <= i < |ids| && ids[i] == id;
      assert CitedEntries(cites)[i] == Entry(Mentions(cites, id), id, id);
    }
  }

  /**
   * The most cited list is the top ten by citation count, then by id: each entry states the true count
   * of a cited document, and a cited document that is left out comes after all of ten listed ones.
   */
  lemma {:induction false} MostCitedIsTop(cites: seq<CitationRef>, id: string)
    ensures var top := MostCitedOf(cites);
            && |top| <= MOST_CITED_LIMIT
            && (forall i, j | 0 <= i < j < |top| ::
                  top[i].count > top[j].count
                  || (top[i].count == top[j].count && LexLeq(top[i].documentId, top[j].documentId)))
            && (forall i | 0 <= i < |top| :: top[i].count == Mentions(cites, top[i].documentId) > 0)
            && (Mentions(cites, id) > 0 && (forall i | 0 <= i < |top| :: top[i].documentId != id) ==>
                  |top| == MOST_CITED_LIMIT
                  && forall i | 0 <= i < |top| :: top[i].count > Mentions(cites, id)
                                                  || (top[i].count == Mentions(cites, id)
                                                      && LexLeq(top[i].documentId, id)))
  {
    var entries := CitedEntries(cites);
    var kept, top := Take(Sorted(entries), MOST_CITED_LIMIT), MostCitedOf(cites);
    TopMeaning(entries, MOST_CITED_LIMIT);
    forall i | 0 <= i < |kept|
      ensures kept[i].name == kept[i].item && kept[i].count == Mentions(cites, kept[i].item) > 0
    {
      assert kept[i] in entries;
      var k :| 0 <= k < |entries| && entries[k] == kept[i];
      assert Dedup(DocumentIds(cites))[k] in Dedup(DocumentIds(cites));
      KeysAreCounted(cites, kept[i].item);
    }
    EntryOf(cites, id);
    var x := Entry(Mentions(cites, id), id, id);
    if x in kept {
      var i :| 0 <= i < |kept| && kept[i] == x;
      assert top[i].documentId == id;
    } else if Mentions(cites, id) > 0 {
      assert forall i | 0 <= i < |kept| :: kept[i] in kept;
    }
  }

  lemma {:induction false} UncitedMembers(documents: seq<LibraryDocument>, cites: seq<CitationRef>, d: LibraryDocument)
    ensures d in Uncited(documents, cites) <==> d in documents && Mentions(cites, d.id) == 0
  {
    if documents != [] {
      UncitedMembers(documents[..|documents| - 1], cites, d);
      assert documents == documents[..|documents| - 1] + [documents[|documents| - 1]];
    }
  }

  /**
   * The cited and the uncited list are disjoint, and a live document that is not cited is listed as
   * uncited unless fifty others are.
   */
  lemma {:induction false} UncitedIsDisjoint(documents: seq<LibraryDocument>, cites: seq<CitationRef>,
                                             d: LibraryDocument)
    ensures var listed := Take(Uncited(documents, cites), UNCITED_LIMIT);
            && |listed| <= UNCITED_LIMIT
            && (d in listed ==> d in documents && Mentions(cites, d.id) == 0
                                && forall i | 0 <= i < |MostCitedOf(cites)| :: MostCitedOf(cites)[i].documentId != d.id)
            && (d in documents && Mentions(cites, d.id) == 0 ==> d in listed || |listed| == UNCITED_LIMIT)
  {
    UncitedMembers(documents, cites, d);
    MostCitedIsTop(cites, d.id);
  }

  /** Reps are listed by query count, the busiest first, then by email; every live user once. */
  lemma {:induction false} RepsAreOrdered(rows: seq<QueryRow>, users: seq<UserRow>)
    ensures var reps := Items(Sorted(RepEntries(rows, users)));
            && |reps| == |users|
            && (forall i, j | 0 <= i < j < |reps| ::
                  reps[i].queryCount > reps[j].queryCount
                  || (reps[i].queryCount == reps[j].queryCount && LexLeq(reps[i].email, reps[j].email)))
            && (forall u <- users :: RepOf(rows, u) in reps)
  {
    var entries := RepEntries(rows, users);
    var sorted := Sorted(entries);
    SortedMeaning(entries);
    forall i | 0 <= i < |sorted|
      ensures sorted[i].count == sorted[i].item.queryCount && sorted[i].name == sorted[i].item.email
    {
      assert sorted[i] in multiset(sorted);
      assert sorted[i] in entries;
    }
    forall u <- users ensures RepOf(rows, u) in Items(sorted) {
      var k :| 0 <= k < |users| && users[k] == u;
      assert entries[k] in multiset(entries);
      assert entries[k] in sorted;
      var i :| 0 <= i < |sorted| && sorted[i] == entries[k];
      assert Items(sorted)[i] == RepOf(rows, u);
    }
  }
}
