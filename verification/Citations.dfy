/**
 * `build_citations` (backend/app/agents/nodes.py): the `[n]` markers of an answer mapped to the
 * chunks they number.
 */
module Citations {
  import opened Wrappers
  import opened Store
  import opened Retrieval
  import opened Retriever
  import Json

  datatype Citation = Citation(marker: nat, documentId: Uuid, chunkId: Uuid, filename: string, snippet: string)

  // ---------- Markers ----------


  predicate AllDigits(s: string) {
    forall i | 0 <= i < |s| :: Json.IsDigit(s[i])
  }

  /** `int(s)`. */
  function IntOf(s: string): nat
    requires AllDigits(s)
  {
    if s == "" then 0 else IntOf(s[..|s| - 1]) * 10 + (s[|s| - 1] as int - '0' as int)
  }

  function DigitSpan(s: string): (n: nat)
    ensures n <= |s| && AllDigits(s[..n])
    ensures n < |s| ==> !Json.IsDigit(s[n])
  {
    if s != "" && Json.IsDigit(s[0]) then
      var n := DigitSpan(s[1..]);
      assert forall i | 1 <= i < n + 1 :: s[i] == s[1..][..n][i - 1];
      n + 1
    else 0
  }

  /** The number of a marker that starts at the first character, if one does. */
  function MarkerHere(s: string): Option<nat> {
    if s == "" || s[0] != '[' then None
    else
      var n := DigitSpan(s[1..]);
      if n > 0 && n + 1 < |s| && s[n + 1] == ']' then Some(IntOf(s[1..][..n])) else None
  }

  /** `text` is `[n]`: a bracket, a digit or more reading as `n`, a bracket. */
  predicate IsMarker(text: string, n: nat) {
    && |text| >= 3 && text[0] == '[' && text[|text| - 1] == ']'
    && AllDigits(text[1..|text| - 1]) && IntOf(text[1..|text| - 1]) == n
  }

  /** The answer contains a marker for `n`. */
  ghost predicate Cites(answer: string, n: nat) {
    exists i, j :: 0 <= i <= j <= |answer| && IsMarker(answer[i..j], n)
  }

  predicate StrictlyAscending(s: seq<nat>) {
    forall i, j | 0 <= i < j < |s| :: s[i] < s[j]
  }

  function Insert(s: seq<nat>, n: nat): seq<nat> {
    if s == [] || n < s[0] then [n] + s
    else if n == s[0] then s
    else [s[0]] + Insert(s[1..], n)
  }

  /** `sorted({int(m) for m in _MARKER_RE.findall(answer)})`. */
  function Markers(answer: string): seq<nat> {
    if answer == "" then []
    else
      var later := Markers(answer[1..]);
      match MarkerHere(answer)
      case None => later
      case Some(n) => Insert(later, n)
  }

  lemma {:induction false} InsertSorted(s: seq<nat>, n: nat)
    requires StrictlyAscending(s)
    ensures StrictlyAscending(Insert(s, n))
    ensures forall k :: k in Insert(s, n) <==> k in s || k == n
  {
    if s != [] && n > s[0] {
      InsertSorted(s[1..], n);
      var r := Insert(s[1..], n);
      assert s == [s[0]] + s[1..];
      forall i | 0 <= i < |r| ensures s[0] < r[i] {
        assert r[i] in r;
      }
    }
  }

  lemma {:induction false} SliceShift(s: string, k: nat)
    requires k + 1 <= |s|
    ensures s[1..k + 1] == s[1..][..k]
  {
    assert forall i | 0 <= i < k :: s[1..k + 1][i] == s[1 + i] == s[1..][i];
  }

  lemma {:induction false} MarkerHereIff(s: string, n: nat)
    ensures MarkerHere(s) == Some(n) <==> exists j :: 0 <= j <= |s| && IsMarker(s[..j], n)
  {
    if MarkerHere(s) == Some(n) {
      var k := DigitSpan(s[1..]);
      SliceShift(s, k);
      assert s[..k + 2][1..k + 1] == s[1..k + 1];
      assert s[..k + 2][k + 1] == s[k + 1];
      assert IsMarker(s[..k + 2], n);
    }
    if j :| 0 <= j <= |s| && IsMarker(s[..j], n) {
      var k := DigitSpan(s[1..]);
      var digits := s[..j][1..j - 1];
      assert s[..j][j - 1] == s[j - 1];
      assert forall i | 0 <= i < j - 2 :: Json.IsDigit(digits[i]) && s[i + 1] == digits[i] && s[1..][i] == digits[i];
      assert forall i | 0 <= i < k :: Json.IsDigit(s[1..][..k][i]) && s[1..][i] == s[1..][..k][i];
      assert k < |s[1..]| ==> !Json.IsDigit(s[1..][k]);
      assert !Json.IsDigit(s[1..][j - 2]);
      assert s[1..][..k] == digits;
    }
  }

  /** The markers found are exactly those in the answer, ascending, each once. */
  lemma {:induction false} MarkersAreCited(answer: string)
    ensures StrictlyAscending(Markers(answer))
    ensures forall n :: n in Markers(answer) <==> Cites(answer, n)
  {
    if answer != "" {
      var rest := answer[1..];
      MarkersAreCited(rest);
      if MarkerHere(answer).Some? {
        InsertSorted(Markers(rest), MarkerHere(answer).value);
      }
      forall n ensures n in Markers(answer) <==> Cites(answer, n) {
        CitesHereOrLater(answer, n);
      }
    }
  }

  lemma {:induction false} CitesHereOrLater(answer: string, n: nat)
    requires answer != ""
    ensures Cites(answer, n) <==> MarkerHere(answer) == Some(n) || Cites(answer[1..], n)
  {
    var rest := answer[1..];
    MarkerHereIff(answer, n);
    if MarkerHere(answer) == Some(n) {
      var j :| 0 <= j <= |answer| && IsMarker(answer[..j], n);
      assert answer[0..j] == answer[..j];
    }
    if Cites(rest, n) {
      var i, j :| 0 <= i <= j <= |rest| && IsMarker(rest[i..j], n);
      assert answer[i + 1..j + 1] == rest[i..j];
    }
    if Cites(answer, n) {
      var i, j :| 0 <= i <= j <= |answer| && IsMarker(answer[i..j], n);
      if i == 0 {
        assert answer[0..j] == answer[..j];
      } else {
        assert rest[i - 1..j - 1] == answer[i..j];
      }
    }
  }

  // ---------- Citations ----------

  function Snippet(text: string): string {
    if |text| <= 300 then text else text[..300]
  }

  function CitationOf(m: nat, chunks: seq<RetrievedChunk>): Citation
    requires 1 <= m <= |chunks|
  {
    var c := chunks[m - 1];
    Citation(m, c.documentId, c.chunkId, c.filename, Snippet(c.text))
  }

  function CiteAll(markers: seq<nat>, chunks: seq<RetrievedChunk>): seq<Citation> {
    if markers == [] then []
    else
      var last := markers[|markers| - 1];
      CiteAll(markers[..|markers| - 1], chunks) + if 1 <= last <= |chunks| then [CitationOf(last, chunks)] else []
  }

  /** `build_citations` as a function. */
  function CitationsOf(answer: string, chunks: seq<RetrievedChunk>): seq<Citation> {
    CiteAll(Markers(answer), chunks)
  }

  method BuildCitations(answer: string, chunks: seq<RetrievedChunk>) returns (citations: seq<Citation>)
    ensures citations == CitationsOf(answer, chunks)
  {
    var markers := Markers(answer);
    citations := [];
    for i := 0 to |markers|
      invariant citations == CiteAll(markers[..i], chunks)
    {
      var marker := markers[i];
      if 1 <= marker <= |chunks| {
        var c := chunks[marker - 1];
        citations := citations + [Citation(marker, c.documentId, c.chunkId, c.filename, Snippet(c.text))];
      }
      assert markers[..i + 1][..i] == markers[..i];
    }
    assert markers[..|markers|] == markers;
  }

  lemma {:induction false} CiteAllMeaning(markers: seq<nat>, chunks: seq<RetrievedChunk>)
    requires StrictlyAscending(markers)
    ensures var r := CiteAll(markers, chunks);
            && (forall i, j | 0 <= i < j < |r| :: r[i].marker < r[j].marker)
            && (forall c <- r :: c.marker in markers && 1 <= c.marker <= |chunks| && c == CitationOf(c.marker, chunks))
            && (forall m <- markers :: 1 <= m <= |chunks| ==> CitationOf(m, chunks) in r)
  {
    if markers != [] {
      var front, last := markers[..|markers| - 1], markers[|markers| - 1];
      assert markers == front + [last];
      CiteAllMeaning(front, chunks);
      var before := CiteAll(front, chunks);
      forall i | 0 <= i < |before| ensures before[i].marker < last {
        assert before[i] in before;
      }
    }
  }

  /**
   * The citations of an answer: ascending by marker without repetition, one for exactly those
   * markers in the answer that number a chunk, each describing that chunk.
   */
  lemma {:induction false} CitationsMatchMarkers(answer: string, chunks: seq<RetrievedChunk>)
    ensures var r := CitationsOf(answer, chunks);
            && (forall i, j | 0 <= i < j < |r| :: r[i].marker < r[j].marker)
            && (forall c <- r ::
                  1 <= c.marker <= |chunks| && Cites(answer, c.marker) && c == CitationOf(c.marker, chunks))
            && (forall m | 1 <= m <= |chunks| && Cites(answer, m) :: CitationOf(m, chunks) in r)
  {
    MarkersAreCited(answer);
    CiteAllMeaning(Markers(answer), chunks);
  }

  /** A number as it is written. */
  function Decimal(n: nat): string {
    if n < 10 then [('0' as int + n) as char] else Decimal(n / 10) + [('0' as int + n % 10) as char]
  }

  lemma {:induction false} DecimalReads(n: nat)
    ensures Decimal(n) != "" && AllDigits(Decimal(n)) && IntOf(Decimal(n)) == n
  {
    if n < 10 {
      assert Decimal(n)[..0] == "";
    } else {
      DecimalReads(n / 10);
      var s := Decimal(n);
      assert s[..|s| - 1] == Decimal(n / 10);
    }
  }

  /** A marker written anywhere in the answer cites the chunk of that number. */
  lemma {:induction false} WrittenMarkersAreCited(before: string, n: nat, after: string, chunks: seq<RetrievedChunk>)
    requires 1 <= n <= |chunks|
    ensures CitationOf(n, chunks) in CitationsOf(before + ("[" + Decimal(n) + "]") + after, chunks)
  {
    var marker := "[" + Decimal(n) + "]";
    var answer := before + marker + after;
    DecimalReads(n);
    assert marker[1..|marker| - 1] == Decimal(n);
    assert answer[|before|..|before| + |marker|] == marker;
    assert Cites(answer, n);
    CitationsMatchMarkers(answer, chunks);
  }

  /** Every cited document is one the caller may see, whatever the answer says. */
  lemma {:induction false} CitedAreAllowed(e: Engine, embed: string -> seq<real>, db: Db, tenant: Uuid, allowed: Access,
                                           subqueries: seq<string>, answer: string)
    requires ScoresAll(e) && UniqueIds(db.chunks)
    ensures forall c <- CitationsOf(answer, Retrieved(e, embed, db, tenant, allowed, subqueries)) ::
              && (exists row <- db.chunks :: row.id == c.chunkId && row.document == c.documentId
                                             && CanSee(row, tenant, allowed) && c.snippet == Snippet(row.text))
              && (allowed.Some? ==> c.documentId in allowed.value)
  {
    var chunks := Retrieved(e, embed, db, tenant, allowed, subqueries);
    RetrievedAreAllowed(e, embed, db, tenant, allowed, subqueries);
    CitationsMatchMarkers(answer, chunks);
    forall c | c in CitationsOf(answer, chunks)
      ensures exists row <- db.chunks :: row.id == c.chunkId && row.document == c.documentId
                                         && CanSee(row, tenant, allowed) && c.snippet == Snippet(row.text)
      ensures allowed.Some? ==> c.documentId in allowed.value
    {
      assert chunks[c.marker - 1] in chunks;
    }
  }
}
