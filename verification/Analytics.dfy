/**
 * The manager dashboard (backend/app/services/analytics_service.py): one pass over the queries of a
 * window, then the trend, the reps and the cited documents.
 *
 * Instants are microseconds since the epoch, so a UTC day is a quotient. Averages are reals, not
 * rounded.
 */
module Analytics {
  import opened Queries
  import opened Select
  import opened Wrappers

  const MOST_CITED_LIMIT := 10
  const UNCITED_LIMIT := 50
  const DAY := 86_400_000_000

  datatype CitationRef = CitationRef(documentId: string, filename: Option<string>)
  datatype QueryRow = QueryRow(tenant: Uuid, user: Uuid, status: QueryStatus, confidence: Option<real>,
                               citations: seq<CitationRef>, createdAt: int)
  datatype UserRow = UserRow(id: Uuid, email: string, role: string)
  datatype LibraryDocument = LibraryDocument(id: string, filename: string, contentType: string, createdAt: int)

  // ---------- Clauses ----------

  function DayOf(): QueryRow -> int {
    (q: QueryRow) => q.createdAt / DAY
  }

  function UserOf(): QueryRow -> Uuid {
    (q: QueryRow) => q.user
  }

  function DocumentOf(): CitationRef -> string {
    (c: CitationRef) => c.documentId
  }

  function HasConfidence(): QueryRow -> bool {
    (q: QueryRow) => q.confidence.Some?
  }

  function IsLow(threshold: real): QueryRow -> bool {
    (q: QueryRow) => q.confidence.Some? && q.confidence.value < threshold
  }

  function StatusIs(s: QueryStatus): QueryRow -> bool {
    (q: QueryRow) => q.status == s
  }

  function HasCitations(): QueryRow -> bool {
    (q: QueryRow) => q.citations != []
  }

  function AnsweredBy(user: Uuid): QueryRow -> bool {
    (q: QueryRow) => q.user == user && q.status == Completed
  }

  function ScoredBy(user: Uuid): QueryRow -> bool {
    (q: QueryRow) => q.user == user && q.confidence.Some?
  }

  /** The confidences of the selected rows, added up. */
  function TotalConfidence(rows: seq<QueryRow>, where: QueryRow -> bool): real {
    if rows == [] then 0.0
    else
      var last := rows[|rows| - 1];
      TotalConfidence(rows[..|rows| - 1], where)
        + if where(last) && last.confidence.Some? then last.confidence.value else 0.0
  }

  /** The latest instant at which the user asked. */
  function LastOf(rows: seq<QueryRow>, user: Uuid): Option<int> {
    if rows == [] then None
    else
      var before, last := LastOf(rows[..|rows| - 1], user), rows[|rows| - 1];
      if last.user == user && (before.None? || last.createdAt > before.value) then Some(last.createdAt) else before
  }

  lemma {:induction false} LastNoneIff(rows: seq<QueryRow>, user: Uuid)
    ensures LastOf(rows, user).None? <==> forall i | 0 <= i < |rows| :: rows[i].user != user
  {
    if rows != [] {
      LastNoneIff(rows[..|rows| - 1], user);
      assert forall i | 0 <= i < |rows| - 1 :: rows[..|rows| - 1][i] == rows[i];
    }
  }

  lemma {:induction false} LastIsAttained(rows: seq<QueryRow>, user: Uuid) returns (k: nat)
    requires LastOf(rows, user).Some?
    ensures k < |rows| && rows[k].user == user && rows[k].createdAt == LastOf(rows, user).value
  {
    var front, last := rows[..|rows| - 1], rows[|rows| - 1];
    if LastOf(rows, user) == LastOf(front, user) {
      k := LastIsAttained(front, user);
    } else {
      k := |rows| - 1;
    }
  }

  lemma {:induction false} LastIsLatest(rows: seq<QueryRow>, user: Uuid, i: nat)
    requires i < |rows| && rows[i].user == user
    ensures LastOf(rows, user).Some? && rows[i].createdAt <= LastOf(rows, user).value
  {
    var front := rows[..|rows| - 1];
    if i < |front| {
      LastIsLatest(front, user, i);
    }
  }

  /** It is the maximum over the user's rows, and missing exactly when there are none. */
  lemma {:induction false} LastMeaning(rows: seq<QueryRow>, user: Uuid)
    ensures var r := LastOf(rows, user);
            && (r.None? <==> forall i | 0 <= i < |rows| :: rows[i].user != user)
            && (r.Some? ==> exists i :: 0 <= i < |rows| && rows[i].user == user && rows[i].createdAt == r.value)
            && (r.Some? ==> forall i | 0 <= i < |rows| && rows[i].user == user :: rows[i].createdAt <= r.value)
  {
    LastNoneIff(rows, user);
    if LastOf(rows, user).Some? {
      var k := LastIsAttained(rows, user);
      forall i | 0 <= i < |rows| && rows[i].user == user ensures rows[i].createdAt <= LastOf(rows, user).value {
        LastIsLatest(rows, user, i);
      }
    }
  }

  // ---------- What the pass is to find ----------

  /** The numbers kept per user. */
  datatype Stats = Stats(count: nat, answered: nat, confSum: real, confN: nat, last: Option<int>)

  function StatsOf(rows: seq<QueryRow>, user: Uuid): Stats {
    Stats(Count(rows, KeyIs(UserOf(), user)), Count(rows, AnsweredBy(user)),
        TotalConfidence(rows, KeyIs(UserOf(), user)),
          Count(rows, ScoredBy(user)), LastOf(rows, user))
  }

  /** The numbers kept for the whole window. */
  datatype Quality = Quality(total: nat, lowConfidence: nat, pendingApproval: nat, rejected: nat, withCitations: nat,
                             confSum: real, confN: nat)

  function QualityOf(rows: seq<QueryRow>, threshold: real): Quality {
    Quality(|rows|, Count(rows, IsLow(threshold)), Count(rows, StatusIs(PendingApproval)),
        Count(rows, StatusIs(Rejected)),
            Count(rows, HasCitations()), TotalConfidence(rows, HasConfidence()), Count(rows, HasConfidence()))
  }

  /** All citations of the window, in order. */
  function AllCitations(rows: seq<QueryRow>): seq<CitationRef> {
    if rows == [] then [] else AllCitations(rows[..|rows| - 1]) + rows[|rows| - 1].citations
  }

  function DocumentIds(cites: seq<CitationRef>): (r: seq<string>)
    ensures |r| == |cites| && forall i | 0 <= i < |r| :: r[i] == cites[i].documentId
  {
    seq(|cites|, i requires 0 <= i < |cites| => cites[i].documentId)
  }

  /** `c.get("filename") or doc_id`. */
  function CitedName(c: CitationRef): string {
    if c.filename.Some? && c.filename.value != "" then c.filename.value else c.documentId
  }

  /** A counting dictionary agrees with the counts of its keys. */
  ghost predicate CountsBy<T, K(!new)>(counts: map<K, nat>, rows: seq<T>, key: T -> K) {
    forall k ::
      && (k in counts <==> Count(rows, KeyIs(key, k)) > 0)
      && (k in counts ==> counts[k] == Count(rows, KeyIs(key, k)))
  }

  ghost predicate StatsBy(agg: map<Uuid, Stats>, rows: seq<QueryRow>) {
    forall u :: (u in agg <==> Count(rows, KeyIs(UserOf(), u)) > 0) && (u in agg ==> agg[u] == StatsOf(rows, u))
  }

  /** The name kept for a document is that of its first citation. */
  ghost predicate NamesBy(names: map<string, string>, cites: seq<CitationRef>) {
    forall id :: (id in names <==> Find(cites, KeyIs(DocumentOf(), id)).Some?)
                 && (id in names ==> names[id] == CitedName(cites[Find(cites, KeyIs(DocumentOf(), id)).value]))
  }

  /** `d[k] += 1` on a `defaultdict(int)`. */
  function Bump<K>(counts: map<K, nat>, k: K): map<K, nat> {
    counts[k := (if k in counts then counts[k] else 0) + 1]
  }

  lemma {:induction false} BumpCounts<T, K(!new)>(counts: map<K, nat>, rows: seq<T>, key: T -> K, row: T)
    requires CountsBy(counts, rows, key)
    ensures CountsBy(Bump(counts, key(row)), rows + [row], key)
  {
    forall k ensures Count(rows + [row], KeyIs(key, k)) == Count(rows, KeyIs(key, k)) + if key(row) == k then 1 else 0 {
      CountAppend(rows, row, KeyIs(key, k));
    }
  }

  lemma {:induction false} TotalAppend(rows: seq<QueryRow>, row: QueryRow, where: QueryRow -> bool)
    ensures TotalConfidence(rows + [row], where)
         == TotalConfidence(rows, where) + if where(row) && row.confidence.Some? then row.confidence.value else 0.0
  {
    assert (rows + [row])[..|rows|] == rows;
  }

  lemma {:induction false} LastAppend(rows: seq<QueryRow>, row: QueryRow, user: Uuid)
    ensures LastOf(rows + [row], user)
         == if row.user == user && (LastOf(rows, user).None? || row.createdAt > LastOf(rows, user).value) then
              Some(row.createdAt)
            else LastOf(rows, user)
  {
    assert (rows + [row])[..|rows|] == rows;
  }

  /** What one more row does to the numbers of a user. */
  lemma {:induction false} StatsAppend(rows: seq<QueryRow>, row: QueryRow, user: Uuid)
    ensures StatsOf(rows + [row], user)
         == if row.user == user then AddToStats(StatsOf(rows, user), row) else StatsOf(rows, user)
  {
    CountsAppend(rows, row, user);
    TotalAppend(rows, row, KeyIs(UserOf(), user));
    LastAppend(rows, row, user);
  }

  lemma {:induction false} CountsAppend(rows: seq<QueryRow>, row: QueryRow, user: Uuid)
    ensures Count(rows + [row], KeyIs(UserOf(), user))
         == Count(rows, KeyIs(UserOf(), user)) + if row.user == user then 1 else 0
    ensures Count(rows + [row], AnsweredBy(user))
         == Count(rows, AnsweredBy(user)) + if row.user == user && row.status == Completed then 1 else 0
    ensures Count(rows + [row], ScoredBy(user))
         == Count(rows, ScoredBy(user)) + if row.user == user && row.confidence.Some? then 1 else 0
  {
    CountAppend(rows, row, KeyIs(UserOf(), user));
    CountAppend(rows, row, AnsweredBy(user));
    CountAppend(rows, row, ScoredBy(user));
  }

  function AddToStats(a: Stats, row: QueryRow): Stats {
    Stats(a.count + 1,
          a.answered + (if row.status == Completed then 1 else 0),
          a.confSum + (if row.confidence.Some? then row.confidence.value else 0.0),
          a.confN + (if row.confidence.Some? then 1 else 0),
          if a.last.None? || row.createdAt > a.last.value then Some(row.createdAt) else a.last)
  }

  /** What one more row does to the numbers of the window. */
  function AddToQuality(q: Quality, row: QueryRow, threshold: real): Quality {
    Quality(q.total + 1,
            q.lowConfidence + (if row.confidence.Some? && row.confidence.value < threshold then 1 else 0),
            q.pendingApproval + (if row.status == PendingApproval then 1 else 0),
            q.rejected + (if row.status == Rejected then 1 else 0),
            q.withCitations + (if row.citations != [] then 1 else 0),
            q.confSum + (if row.confidence.Some? then row.confidence.value else 0.0),
            q.confN + (if row.confidence.Some? then 1 else 0))
  }

  lemma {:induction false} QualityAppend(rows: seq<QueryRow>, row: QueryRow, threshold: real)
    ensures QualityOf(rows + [row], threshold) == AddToQuality(QualityOf(rows, threshold), row, threshold)
  {
    CountAppend(rows, row, IsLow(threshold));
    CountAppend(rows, row, StatusIs(PendingApproval));
    CountAppend(rows, row, StatusIs(Rejected));
    CountAppend(rows, row, HasCitations());
    CountAppend(rows, row, HasConfidence());
    TotalAppend(rows, row, HasConfidence());
  }

  lemma {:induction false} EmptyStats(rows: seq<QueryRow>, user: Uuid)
    requires Count(rows, KeyIs(UserOf(), user)) == 0
    ensures StatsOf(rows, user) == Stats(0, 0, 0.0, 0, None)
  {
    CountAll(rows, KeyIs(UserOf(), user));
    forall i | 0 <= i < |rows| ensures rows[i].user != user {
      assert !KeyIs(UserOf(), user)(rows[i]);
    }
    LastMeaning(rows, user);
    CountNone(rows, AnsweredBy(user));
    CountNone(rows, ScoredBy(user));
    NoConfidence(rows, KeyIs(UserOf(), user));
  }

  lemma {:induction false} NoConfidence(rows: seq<QueryRow>, where: QueryRow -> bool)
    requires forall i | 0 <= i < |rows| :: !where(rows[i])
    ensures TotalConfidence(rows, where) == 0.0
  {
    if rows != [] {
      assert forall i | 0 <= i < |rows| - 1 :: rows[..|rows| - 1][i] == rows[i];
      NoConfidence(rows[..|rows| - 1], where);
    }
  }

  // ---------- The single pass ----------

  /** One row enters the per-user dictionary. */
  method AddToRep(agg0: map<Uuid, Stats>, row: QueryRow, ghost rows: seq<QueryRow>) returns (agg: map<Uuid, Stats>)
    requires StatsBy(agg0, rows)
    ensures StatsBy(agg, rows + [row])
  {
    var a := if row.user in agg0 then agg0[row.user] else Stats(0, 0, 0.0, 0, None);
    ghost var before := a;
    if row.user !in agg0 {
      EmptyStats(rows, row.user);
    }
    a := a.(count := a.count + 1);
    if row.status == Completed {
      a := a.(answered := a.answered + 1);
    }
    if a.last.None? || row.createdAt > a.last.value {
      a := a.(last := Some(row.createdAt));
    }
    if row.confidence.Some? {
      a := a.(confSum := a.confSum + row.confidence.value, confN := a.confN + 1);
    }
    assert a == AddToStats(before, row);
    agg := agg0[row.user := a];
    StatsByAppend(agg0, rows, row);
  }

  lemma {:induction false} StatsByAppend(agg: map<Uuid, Stats>, rows: seq<QueryRow>, row: QueryRow)
    requires StatsBy(agg, rows)
    ensures StatsBy(agg[row.user := AddToStats(StatsOf(rows, row.user), row)], rows + [row])
  {
    forall u
      ensures StatsOf(rows + [row], u)
           == if row.user == u then AddToStats(StatsOf(rows, u), row) else StatsOf(rows, u)
    {
      StatsAppend(rows, row, u);
    }
    forall u
      ensures Count(rows + [row], KeyIs(UserOf(), u))
           == Count(rows, KeyIs(UserOf(), u)) + if row.user == u then 1 else 0
    {
      CountAppend(rows, row, KeyIs(UserOf(), u));
    }
  }

  /** The citation dictionaries, with their keys in insertion order, against the citations seen. */
  ghost predicate CitesBy(counts: map<string, nat>, keys: seq<string>, names: map<string, string>,
                          cites: seq<CitationRef>) {
    CountsBy(counts, cites, DocumentOf()) && keys == Dedup(DocumentIds(cites)) && NamesBy(names, cites)
  }

  lemma {:induction false} KeysAppend(cites: seq<CitationRef>, c: CitationRef)
    ensures Dedup(DocumentIds(cites + [c]))
         == if c.documentId in Dedup(DocumentIds(cites)) then Dedup(DocumentIds(cites))
             else Dedup(DocumentIds(cites)) + [c.documentId]
  {
    assert DocumentIds(cites + [c])[..|cites|] == DocumentIds(cites);
  }

  lemma {:induction false} KeysAreCounted(cites: seq<CitationRef>, id: string)
    ensures id in Dedup(DocumentIds(cites)) <==> Count(cites, KeyIs(DocumentOf(), id)) > 0
  {
    DedupMembers(DocumentIds(cites));
    CountAll(cites, KeyIs(DocumentOf(), id));
    if id in DocumentIds(cites) {
      var i :| 0 <= i < |cites| && DocumentIds(cites)[i] == id;
      assert KeyIs(DocumentOf(), id)(cites[i]);
    }
    if i :| 0 <= i < |cites| && KeyIs(DocumentOf(), id)(cites[i]) {
      assert DocumentIds(cites)[i] == id;
    }
  }

  /** `setdefault` keeps the first name. */
  lemma {:induction false} NamesAppend(names: map<string, string>, cites: seq<CitationRef>, c: CitationRef)
    requires NamesBy(names, cites)
    ensures NamesBy(if c.documentId in names then names else names[c.documentId := CitedName(c)], cites + [c])
  {
    forall id ensures Find(cites + [c], KeyIs(DocumentOf(), id))
                   == if Find(cites, KeyIs(DocumentOf(), id)).Some? then Find(cites, KeyIs(DocumentOf(), id))
                      else if c.documentId == id then Some(|cites|) else None {
      assert (cites + [c])[..|cites|] == cites;
    }
  }

  /** One citation. */
  method AddCitation(counts0: map<string, nat>, keys0: seq<string>, names0: map<string, string>, c: CitationRef,
                     ghost cites: seq<CitationRef>)
    returns (counts: map<string, nat>, keys: seq<string>, names: map<string, string>)
    requires CitesBy(counts0, keys0, names0, cites)
    ensures CitesBy(counts, keys, names, cites + [c])
  {
    BumpCounts(counts0, cites, DocumentOf(), c);
    KeysAppend(cites, c);
    KeysAreCounted(cites, c.documentId);
    NamesAppend(names0, cites, c);
    keys := if c.documentId in counts0 then keys0 else keys0 + [c.documentId];
    counts := Bump(counts0, c.documentId);
    names := if c.documentId in names0 then names0 else names0[c.documentId := CitedName(c)];
  }

  lemma {:induction false} OneMoreCitation(cites: seq<CitationRef>, citations: seq<CitationRef>, i: nat)
    requires i < |citations|
    ensures cites + citations[..i + 1] == cites + citations[..i] + [citations[i]]
  {
  }

  /** The inner loop over the citations of one row. */
  method AddCitations(counts0: map<string, nat>, keys0: seq<string>, names0: map<string, string>,
                      citations: seq<CitationRef>, ghost cites: seq<CitationRef>)
    returns (counts: map<string, nat>, keys: seq<string>, names: map<string, string>)
    requires CitesBy(counts0, keys0, names0, cites)
    ensures CitesBy(counts, keys, names, cites + citations)
  {
    counts, keys, names := counts0, keys0, names0;
    assert cites + citations[..0] == cites;
    for i := 0 to |citations|
      invariant CitesBy(counts, keys, names, cites + citations[..i])
    {
      OneMoreCitation(cites, citations, i);
      counts, keys, names := AddCitation(counts, keys, names, citations[i], cites + citations[..i]);
    }
    assert citations[..|citations|] == citations;
  }

  /** Everything the pass collects. */
  datatype Tally = Tally(perDay: map<int, nat>, agg: map<Uuid, Stats>, quality: Quality, citeCounts: map<string, nat>,
                         citeKeys: seq<string>, citeNames: map<string, string>)

  /** The collected numbers are the counts, sums and latest instants of the rows. */
  ghost predicate Tallies(t: Tally, rows: seq<QueryRow>, threshold: real) {
    && CountsBy(t.perDay, rows, DayOf())
    && StatsBy(t.agg, rows)
    && t.quality == QualityOf(rows, threshold)
    && CitesBy(t.citeCounts, t.citeKeys, t.citeNames, AllCitations(rows))
  }

  /** The counters of the whole window, for one row. */
  method CountRow(q0: Quality, row: QueryRow, threshold: real) returns (q: Quality)
    ensures q == AddToQuality(q0, row, threshold)
  {
    var total, low, pending, rejected, withCites, confSum, confN :=
      q0.total + 1, q0.lowConfidence, q0.pendingApproval, q0.rejected, q0.withCitations, q0.confSum, q0.confN;
    if row.confidence.Some? {
      confSum, confN := confSum + row.confidence.value, confN + 1;
      if row.confidence.value < threshold {
        low := low + 1;
      }
    }
    if row.status == PendingApproval {
      pending := pending + 1;
    }
    if row.status == Rejected {
      rejected := rejected + 1;
    }
    if row.citations != [] {
      withCites := withCites + 1;
    }
    q := Quality(total, low, pending, rejected, withCites, confSum, confN);
  }

  /** The loop over the rows. */
  method Pass(rows: seq<QueryRow>, threshold: real) returns (t: Tally)
    ensures Tallies(t, rows, threshold)
  {
    t := Tally(map[], map[], Quality(0, 0, 0, 0, 0, 0.0, 0), map[], [], map[]);
    for i := 0 to |rows|
      invariant Tallies(t, rows[..i], threshold)
    {
      t := AddRow(t, rows[i], threshold, rows[..i]);
      assert rows[..i + 1] == rows[..i] + [rows[i]];
    }
    assert rows[..|rows|] == rows;
  }

  /** The body of the loop. */
  method AddRow(t0: Tally, row: QueryRow, threshold: real, ghost rows: seq<QueryRow>) returns (t: Tally)
    requires Tallies(t0, rows, threshold)
    ensures Tallies(t, rows + [row], threshold)
  {
    BumpCounts(t0.perDay, rows, DayOf(), row);
    var perDay := Bump(t0.perDay, DayOf()(row));
    var agg := AddToRep(t0.agg, row, rows);
    var quality := CountRow(t0.quality, row, threshold);
    QualityAppend(rows, row, threshold);
    var counts: map<string, nat>, keys: seq<string>, names: map<string, string> :=
      AddCitations(t0.citeCounts, t0.citeKeys, t0.citeNames, row.citations, AllCitations(rows));
    assert (rows + [row])[..|rows|] == rows;
    t := Tally(perDay, agg, quality, counts, keys, names);
  }
}
