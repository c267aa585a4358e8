/**
 * How a question ends (backend/app/agents/nodes.py, backend/app/api/v1/query.py), read off the model replies, the
 * retrieved chunks and the settings: what is held, what is answered, which calls are made and what is streamed.
 */
module AnswerLaws {
  import opened Queries
  import opened Select
  import opened Sequences
  import opened Wrappers
  import opened ModelRouter
  import opened Retriever
  import opened Citations
  import opened Workflow
  import EventStream
  import Json

  // ---------- The sub-queries ----------

  function IsFilled(w: World): string -> bool {
    (s: string) => w.strip(s) != ""
  }

  /** The proposals that are not blank, stripped. */
  function Filled(w: World, plan: seq<string>): (r: seq<string>)
    ensures |r| == |Where(plan, IsFilled(w))|
    ensures forall i | 0 <= i < |r| :: r[i] == w.strip(Where(plan, IsFilled(w))[i])
  {
    var good := Where(plan, IsFilled(w));
    seq(|good|, i requires 0 <= i < |good| => w.strip(good[i]))
  }

  /** The planner settles on the first filled proposals, and on the question when it has none or fails. */
  ghost predicate SettlesOn(w: World, route: Route, question: string, history: History, subs: seq<string>) {
    match w.plan(route, question, history)
    case Raised(_) => subs == [question]
    case Reply(plan) =>
      if Filled(w, plan) == [] || w.maxSubqueries == 0 then subs == [question]
      else subs == if w.maxSubqueries < |Filled(w, plan)| then Filled(w, plan)[..w.maxSubqueries] else Filled(w, plan)
  }

  lemma {:induction false} StrippedIsFilled(w: World, plan: seq<string>)
    ensures StripAll(w, plan) == Filled(w, plan)
  {
    if plan != [] {
      StrippedIsFilled(w, plan[1..]);
      WhereHead(plan, IsFilled(w));
    }
  }

  lemma {:induction false} PlannerSettles(w: World, route: Route, question: string, history: History)
    ensures SettlesOn(w, route, question, history, Subqueries(w, route, question, history))
  {
    match w.plan(route, question, history)
    case Raised(_) =>
    case Reply(plan) => StrippedIsFilled(w, plan);
  }

  // ---------- The decision ----------

  /** The confidence and the concern that retrieval and verification lead to. */
  ghost predicate Judged(w: World, question: string, chunks: seq<RetrievedChunk>, confidence: real, concern: bool) {
    if chunks == [] then confidence == 0.0 && !concern
    else
      RouteFor(w, Verifier).Success?
      && match w.verify(RouteFor(w, Verifier).value, question, chunks)
         case Raised(_) => confidence == 0.0 && !concern
         case Reply(v) => confidence == v.confidence && concern == v.confidentialityConcern
  }

  /** Planning got through, asked these sub-queries and retrieved these chunks. */
  ghost predicate Gathered(w: World, question: string, history: History, chunks: seq<RetrievedChunk>) {
    && RouteFor(w, Planner).Success?
    && exists subs :: SettlesOn(w, RouteFor(w, Planner).value, question, history, subs) && chunks == w.retrieve(subs)
  }

  lemma {:induction false} OneSettlement(w: World, route: Route, question: string, history: History, a: seq<string>,
                                         b: seq<string>)
    requires SettlesOn(w, route, question, history, a) && SettlesOn(w, route, question, history, b)
    ensures a == b
  {
  }

  lemma {:induction false} EvidenceIsJudged(w: World, question: string, history: History, chunks: seq<RetrievedChunk>,
                                            confidence: real, concern: bool)
    requires Gathered(w, question, history, chunks) && Judged(w, question, chunks, confidence, concern)
    ensures var ev := EvidenceFor(w, question, history);
            && ev.Evidence? && ev.chunks == chunks
            && ev.verification.confidence == confidence && ev.verification.confidentialityConcern == concern
  {
    var route := RouteFor(w, Planner).value;
    var subs :| SettlesOn(w, route, question, history, subs) && chunks == w.retrieve(subs);
    PlannerSettles(w, route, question, history);
    OneSettlement(w, route, question, history, subs, Subqueries(w, route, question, history));
  }

  /** The review branch: the gate is on, and the verifier is concerned or not confident enough. */
  predicate IsHeld(w: World, confidence: real, concern: bool) {
    w.enableHumanReview && (concern || confidence < w.confidenceThreshold)
  }

  /** A held question is stored without an answer by both handlers, with the confidence that held it. */
  lemma {:induction false} DoubtIsHeld(w: World, question: string, history: History, chunks: seq<RetrievedChunk>,
                                       confidence: real, concern: bool)
    requires Gathered(w, question, history, chunks) && Judged(w, question, chunks, confidence, concern)
    requires IsHeld(w, confidence, concern)
    ensures GraphEnding(w, question, history) == Stored(QueryRecord(PendingApproval, None, [], Some(confidence)))
    ensures StreamEnding(w, question, history) == Stored(QueryRecord(PendingApproval, None, [], Some(confidence)))
  {
    EvidenceIsJudged(w, question, history, chunks, confidence, concern);
    TrailEnds(w, question, history);
  }

  /**
   * The gate fails closed: with review on and a threshold above zero, a verifier that raises on the retrieved
   * chunks, or a retrieval that finds none, holds the question at confidence zero.
   */
  lemma {:induction false} FailureIsHeld(w: World, question: string, history: History, chunks: seq<RetrievedChunk>)
    requires Gathered(w, question, history, chunks) && w.enableHumanReview && w.confidenceThreshold > 0.0
    requires chunks != [] ==>
      RouteFor(w, Verifier).Success? && w.verify(RouteFor(w, Verifier).value, question, chunks).Raised?
    ensures GraphEnding(w, question, history) == Stored(QueryRecord(PendingApproval, None, [], Some(0.0)))
    ensures StreamEnding(w, question, history) == Stored(QueryRecord(PendingApproval, None, [], Some(0.0)))
  {
    DoubtIsHeld(w, question, history, chunks, 0.0, false);
  }

  /** The row a completed answer is stored as. */
  ghost predicate IsAnswer(record: QueryRecord, answer: string, chunks: seq<RetrievedChunk>, confidence: real) {
    && record.status == Completed && record.confidence == Some(confidence)
    && record.answer == (if answer == "" then None else Some(answer))
    && (forall m :: (exists c <- record.citations :: c.marker == m) <==> 1 <= m <= |chunks| && Cites(answer, m))
    && (forall c <- record.citations :: Describes(c, chunks))
    && (forall i, j | 0 <= i < j < |record.citations| :: record.citations[i].marker < record.citations[j].marker)
  }

  /** A citation tells the document, chunk, file and the first 300 characters of the chunk its marker numbers. */
  predicate Describes(c: Citation, chunks: seq<RetrievedChunk>) {
    && 1 <= c.marker <= |chunks|
    && var chunk := chunks[c.marker - 1];
       && c.documentId == chunk.documentId && c.chunkId == chunk.chunkId && c.filename == chunk.filename
       && c.snippet == if |chunk.text| <= 300 then chunk.text else chunk.text[..300]
  }

  lemma {:induction false} AnsweredIsAnswer(ev: Evidence, answer: string)
    requires ev.Evidence?
    ensures IsAnswer(AnsweredRecord(ev, answer), answer, ev.chunks, ev.verification.confidence)
  {
    var r := CitationsOf(answer, ev.chunks);
    CitationsMatchMarkers(answer, ev.chunks);
    forall m ensures (exists c <- r :: c.marker == m) <==> 1 <= m <= |ev.chunks| && Cites(answer, m) {
      if 1 <= m <= |ev.chunks| && Cites(answer, m) {
        assert CitationOf(m, ev.chunks) in r;
      }
    }
  }

  /**
   * A question that is not held is answered: the graph stores the completion or a failure, the stream stores
   * what its pieces join to or breaks off, in both cases with the verifier's confidence.
   */
  lemma {:induction false} TrustIsAnswered(w: World, question: string, history: History, chunks: seq<RetrievedChunk>,
                                           confidence: real, concern: bool)
    requires Gathered(w, question, history, chunks) && Judged(w, question, chunks, confidence, concern)
    requires !IsHeld(w, confidence, concern) && RouteFor(w, Synthesizer).Success?
    ensures var route, end := RouteFor(w, Synthesizer).value, GraphEnding(w, question, history);
            match w.complete(route, question, chunks)
            case Raised(_) => end == Stored(QueryRecord(Failed, None, [], Some(confidence)))
            case Reply(answer) => end.Stored? && IsAnswer(end.record, answer, chunks, confidence)
    ensures var route, end := RouteFor(w, Synthesizer).value, StreamEnding(w, question, history);
            var run := w.stream(route, question, chunks);
            match run.failure
            case Some(message) => end == Crashed(message)
            case None => end.Stored? && IsAnswer(end.record, Concat(run.pieces), chunks, confidence)
  {
    EvidenceIsJudged(w, question, history, chunks, confidence, concern);
    TrailEnds(w, question, history);
    var ev, route := EvidenceFor(w, question, history), RouteFor(w, Synthesizer).value;
    if w.complete(route, question, chunks).Reply? {
      AnsweredIsAnswer(ev, w.complete(route, question, chunks).value);
    }
    AnsweredIsAnswer(ev, Concat(w.stream(route, question, chunks).pieces));
  }

  // ---------- Routing and calls ----------

  /** The self-hosted profile is required by the deployment or by the tenant, and there is none. */
  predicate Homeless(w: World) {
    && w.router.ModelRouter? && w.router.selfHosted.None?
    && (w.mode == "private_cloud" || w.mode == "air_gapped" || w.tenant.requireSelfHostedLlm)
  }

  /** Which client and model answer a node, from the deployment, the tenant's switch and the model table. */
  ghost predicate Routes(w: World, node: Node, route: Route) {
    var cloudModel := if node == Planner then w.models.planner
                      else if node == Verifier then w.models.verifier
                      else w.models.synthesizer;
    match w.router
    case SingleClientRouter(client) => route == Route(client, cloudModel, Cloud)
    case ModelRouter(cloud, selfHosted) =>
      if w.mode == "private_cloud" || w.mode == "air_gapped" || w.tenant.requireSelfHostedLlm then
        selfHosted.Some? && route == Route(selfHosted.value, w.models.selfHosted, SelfHosted)
      else route == Route(cloud, cloudModel, Cloud)
  }

  lemma {:induction false} RoutesAsSet(w: World, node: Node)
    ensures RouteFor(w, node).Failure? <==> Homeless(w)
    ensures RouteFor(w, node).Success? ==> Routes(w, node, RouteFor(w, node).value)
  {
  }

  /** Both handlers refuse a question exactly when no model may answer it. */
  lemma {:induction false} RefusedIffHomeless(w: World, question: string, history: History)
    ensures GraphEnding(w, question, history) == Refused <==> Homeless(w)
    ensures StreamEnding(w, question, history) == Refused <==> Homeless(w)
  {
    RoutesAsSet(w, Planner);
    RoutesAsSet(w, Verifier);
    RoutesAsSet(w, Synthesizer);
    TrailEnds(w, question, history);
  }

  /** A question costs one planner call, one verifier call if anything was retrieved, one synthesis unless held. */
  lemma {:induction false} CallsMade(w: World, question: string, history: History, chunks: seq<RetrievedChunk>,
                                     confidence: real, concern: bool)
    requires Gathered(w, question, history, chunks) && Judged(w, question, chunks, confidence, concern)
    ensures RouteFor(w, Synthesizer).Success?
    ensures var planner, synthesizer := RouteFor(w, Planner).value.client, RouteFor(w, Synthesizer).value.client;
            CallsOf(w, question, history)
              == [Call(Planner, planner)]
                   + (if chunks == [] then [] else [Call(Verifier, RouteFor(w, Verifier).value.client)])
                   + if IsHeld(w, confidence, concern) then [] else [Call(Synthesizer, synthesizer)]
  {
    EvidenceIsJudged(w, question, history, chunks, confidence, concern);
    RoutesAsSet(w, Planner);
    RoutesAsSet(w, Synthesizer);
    var first := [Call(Planner, RouteFor(w, Planner).value.client)];
    assert first + [] == first;
  }

  // ---------- What is streamed ----------

  /** `payload[name]`, as a client reads it. */
  function Get(j: Json.Json, name: string): Option<Json.Json> {
    if j.Object? then GetMember(j.members, name) else None
  }

  function GetMember(members: seq<Json.Member>, name: string): Option<Json.Json> {
    if members == [] then None
    else if members[0].name == name then Some(members[0].value)
    else GetMember(members[1..], name)
  }

  lemma {:induction false} TwoMembers(a: string, x: Json.Json, b: string, y: Json.Json)
    requires a != b
    ensures var j := Json.Object([Json.Member(a, x), Json.Member(b, y)]);
            Get(j, a) == Some(x) && Get(j, b) == Some(y)
  {
    var m, n := Json.Member(a, x), Json.Member(b, y);
    assert [m, n][1..] == [n] && GetMember([n], b) == Some(y);
  }

  lemma {:induction false} ThreeMembers(a: string, x: Json.Json, b: string, y: Json.Json, c: string, z: Json.Json)
    requires a != b && a != c && b != c
    ensures var j := Json.Object([Json.Member(a, x), Json.Member(b, y), Json.Member(c, z)]);
            Get(j, a) == Some(x) && Get(j, b) == Some(y) && Get(j, c) == Some(z)
  {
    var m, n, o := Json.Member(a, x), Json.Member(b, y), Json.Member(c, z);
    TwoMembers(b, y, c, z);
    assert [m, n, o][1..] == [n, o];
  }

  lemma {:induction false} FourMembers(a: string, x: Json.Json, b: string, y: Json.Json, c: string, z: Json.Json,
                                       d: string, u: Json.Json)
    requires a != b && a != c && a != d && b != c && b != d && c != d
    ensures var j := Json.Object([Json.Member(a, x), Json.Member(b, y), Json.Member(c, z), Json.Member(d, u)]);
            Get(j, a) == Some(x) && Get(j, b) == Some(y) && Get(j, c) == Some(z) && Get(j, d) == Some(u)
  {
    var m, n, o, q := Json.Member(a, x), Json.Member(b, y), Json.Member(c, z), Json.Member(d, u);
    ThreeMembers(b, y, c, z, d, u);
    assert [m, n, o, q][1..] == [n, o, q];
  }

  /** The tokens of a stream are its pieces, in order. */
  lemma {:induction false} TokensArePieces(pieces: seq<string>, i: nat)
    requires i < |pieces|
    ensures |TokenEvents(pieces)| == |pieces| && TokenEvents(pieces)[i].name == "token"
    ensures Get(TokenEvents(pieces)[i].data, "text") == Some(Json.Text(pieces[i]))
  {
    var last := |pieces| - 1;
    if i < last {
      TokensArePieces(pieces[..last], i);
    } else {
      TokenCount(pieces[..last]);
    }
  }

  lemma {:induction false} TokenCount(pieces: seq<string>)
    ensures |TokenEvents(pieces)| == |pieces|
  {
    if pieces != [] {
      TokenCount(pieces[..|pieces| - 1]);
    }
  }

  /** What a client reads of a citation. */
  ghost predicate ReadsCitation(p: Printer, j: Json.Json, c: Citation) {
    && Get(j, "marker") == Some(Json.Number(p.integer(c.marker)))
    && Get(j, "document_id") == Some(Json.Text(p.integer(c.documentId)))
    && Get(j, "chunk_id") == Some(Json.Text(p.integer(c.chunkId)))
    && Get(j, "filename") == Some(Json.Text(c.filename))
    && Get(j, "snippet") == Some(Json.Text(c.snippet))
  }

  lemma {:induction false} CitationIsRead(p: Printer, c: Citation)
    ensures ReadsCitation(p, CitationJson(p, c), c)
  {
    var m := CitationJson(p, c).members;
    FourMembers("document_id", m[1].value, "chunk_id", m[2].value, "filename", m[3].value, "snippet", m[4].value);
    assert m[1..] == [m[1], m[2], m[3], m[4]];
  }

  /** What a client reads at the end of a stream whose answer was stored. */
  ghost predicate ReadsDone(p: Printer, e: EventStream.Event, record: QueryRecord) {
    && e.name == "done" && Get(e.data, "query_id") == Some(Json.Text(p.queryId))
    && Get(e.data, "confidence")
         == Some(if record.confidence.Some? then Json.Number(p.number(record.confidence.value)) else Json.Null)
    && Get(e.data, "conversation_id")
         == Some(if p.conversationId.Some? then Json.Text(p.conversationId.value) else Json.Null)
    && exists items :: Get(e.data, "citations") == Some(Json.Array(items)) && |items| == |record.citations|
                       && forall i | 0 <= i < |items| :: ReadsCitation(p, items[i], record.citations[i])
  }

  lemma {:induction false} DoneIsRead(p: Printer, record: QueryRecord)
    ensures ReadsDone(p, DoneEvent(p, record), record)
  {
    var m := DoneEvent(p, record).data.members;
    FourMembers("query_id", m[0].value, "citations", m[1].value, "confidence", m[2].value, "conversation_id",
                m[3].value);
    assert m == [m[0], m[1], m[2], m[3]];
    var items := m[1].value.items;
    forall i | 0 <= i < |items| ensures ReadsCitation(p, items[i], record.citations[i]) {
      CitationIsRead(p, record.citations[i]);
    }
    assert Get(DoneEvent(p, record).data, "citations") == Some(Json.Array(items));
  }

  /**
   * A stream prints its tokens, then one event for how it ended: the stored row with its citations, the row
   * that waits for approval, or the refusal; a stream that breaks off prints no more.
   */
  lemma {:induction false} StreamTellsEnding(w: World, p: Printer, question: string, history: History)
    ensures var tokens := TokenEvents(PiecesOf(w, question, history));
            var events := StreamEvents(w, p, question, history);
            tokens <= events && EndsStream(p, StreamEnding(w, question, history), events[|tokens|..])
  {
    var ending := StreamEnding(w, question, history);
    if ending.Stored? {
      DoneIsRead(p, ending.record);
    }
    PendingIsRead(p);
  }

  ghost predicate EndsStream(p: Printer, ending: Ending, last: seq<EventStream.Event>) {
    match ending
    case Crashed(_) => last == []
    case Refused =>
      && |last| == 1 && last[0].name == "error"
      && Get(last[0].data, "status") == Some(Json.Number(p.integer(503)))
      && Get(last[0].data, "detail") == Some(Json.Text(ROUTING_MESSAGE))
    case Stored(record) =>
      && |last| == 1
      && (if record.status == PendingApproval then ReadsPending(p, last[0]) else ReadsDone(p, last[0], record))
  }

  ghost predicate ReadsPending(p: Printer, e: EventStream.Event) {
    && e.name == "pending" && Get(e.data, "query_id") == Some(Json.Text(p.queryId))
    && Get(e.data, "status") == Some(Json.Text("pending_approval"))
    && Get(e.data, "conversation_id")
         == Some(if p.conversationId.Some? then Json.Text(p.conversationId.value) else Json.Null)
  }

  lemma {:induction false} PendingIsRead(p: Printer)
    ensures ReadsPending(p, PendingEvent(p))
    ensures Get(ErrorEvent(p).data, "status") == Some(Json.Number(p.integer(503)))
    ensures Get(ErrorEvent(p).data, "detail") == Some(Json.Text(ROUTING_MESSAGE))
  {
    var m := PendingEvent(p).data.members;
    ThreeMembers("query_id", m[0].value, "status", m[1].value, "conversation_id", m[2].value);
    assert m == [m[0], m[1], m[2]];
    TwoMembers("detail", Json.Text(ROUTING_MESSAGE), "status", Json.Number(p.integer(503)));
  }

  predicate IsPlainText(s: string) {
    forall i | 0 <= i < |s| :: ' ' <= s[i] <= '~' && s[i] != '"' && s[i] != '\\'
  }

  /** A printable text without quotes and backslashes is printed as it is. */
  lemma {:induction false} PlainIsItself(s: string)
    requires IsPlainText(s)
    ensures Json.Escape(s) == s
  {
    if s != "" {
      PlainIsItself(s[1..]);
      assert Json.EscapeChar(s[0]) == [s[0]];
      assert s == [s[0]] + s[1..];
    }
  }

  lemma {:induction false} PlainQuote(s: string)
    requires IsPlainText(s)
    ensures Json.Quote(s) == "\"" + s + "\""
  {
    PlainIsItself(s);
  }

  /** A token with a plain text, on the wire. */
  lemma {:induction false} TokenOnTheWire(s: string)
    requires IsPlainText(s)
    ensures EventStream.Sse(TokenEvent(s)) == "event: token\ndata: {\"text\": \"" + s + "\"}\n\n"
  {
    PlainQuote("text");
    PlainQuote(s);
    var quoted := Json.Quote(s);
    assert Json.Dumps(TokenEvent(s).data) == "{" + (Json.Quote("text") + (": " + (quoted + "}")));
    Assemble(quoted, s, Json.Quote("text"));
  }

  lemma {:induction false} Assemble(quoted: string, s: string, name: string)
    requires quoted == "\"" + s + "\"" && name == "\"text\""
    ensures "event: " + "token" + "\n" + "data: " + ("{" + (name + (": " + (quoted + "}")))) + "\n\n"
         == "event: token\ndata: {\"text\": \"" + s + "\"}\n\n"
  {
  }

  /** Two members with plain texts, on the wire. */
  lemma {:induction false} PairOnTheWire(a: string, x: string, b: string, y: string)
    requires IsPlainText(a) && IsPlainText(x) && IsPlainText(b) && IsPlainText(y)
    ensures Json.Dumps(Json.Object([JsonText(a, x), JsonText(b, y)]))
         == "{\"" + a + "\": \"" + x + "\", \"" + b + "\": \"" + y + "\"}"
  {
    PlainQuote(a);
    PlainQuote(x);
    PlainQuote(b);
    PlainQuote(y);
    PairDumped(a, x, b, y);
    AssemblePair(a, x, b, y, Json.Quote(a), Json.Quote(x), Json.Quote(b), Json.Quote(y));
  }

  lemma {:induction false} PairDumped(a: string, x: string, b: string, y: string)
    ensures Json.Dumps(Json.Object([JsonText(a, x), JsonText(b, y)]))
         == "{" + (Json.Quote(a) + (": " + (Json.Quote(x) + (", " + (Json.Quote(b) + (": " + (Json.Quote(y) + "}")))))))
  {
    var members := [JsonText(a, x), JsonText(b, y)];
    assert members[1..] == [JsonText(b, y)];
    LastDumped(b, y);
    FirstDumped(members);
  }

  lemma {:induction false} LastDumped(b: string, y: string)
    ensures Json.DumpMembers([JsonText(b, y)]) == Json.Quote(b) + (": " + (Json.Quote(y) + "}"))
  {
  }

  lemma {:induction false} FirstDumped(members: seq<Json.Member>)
    requires |members| > 1 && members[0].value.Text?
    ensures Json.DumpMembers(members)
         == Json.Quote(members[0].name)
              + (": " + (Json.Quote(members[0].value.s) + (", " + Json.DumpMembers(members[1..]))))
  {
  }

  lemma {:induction false} AssemblePair(a: string, x: string, b: string, y: string, p: string, q: string, r: string,
                                        s: string)
    requires p == "\"" + a + "\"" && q == "\"" + x + "\"" && r == "\"" + b + "\"" && s == "\"" + y + "\""
    ensures "{" + (p + (": " + (q + (", " + (r + (": " + (s + "}")))))))
         == "{\"" + a + "\": \"" + x + "\", \"" + b + "\": \"" + y + "\"}"
  {
  }
}
