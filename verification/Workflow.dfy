/**
 * The multi-agent workflow: its nodes (backend/app/agents/nodes.py), the graph that runs them
 * (backend/app/agents/workflow.py), and the three request handlers that drive them
 * (backend/app/api/v1/query.py).
 *
 * Model replies are outcomes of the `World`: any reply, or a raised error. Retrieval is any function
 * from sub-queries to chunks. Every model call is logged with the client that answered it.
 */
module Workflow {
  import opened Queries
  import opened Sequences
  import opened Wrappers
  import opened ModelRouter
  import opened Retriever
  import opened Citations
  import EventStream

  // ---------- The world a request runs in ----------

  datatype Outcome<+T> = Reply(value: T) | Raised(message: string)

  /** A token stream: the pieces it yields, and the error it ends with, if any. */
  datatype TokenStream = TokenStream(pieces: seq<string>, failure: Option<string>)

  datatype Verification = Verification(confidence: real, isGrounded: bool, confidentialityConcern: bool,
      issues: seq<string>)

  type History = seq<(string, string)>

  datatype World = World(
    router: Router, models: Models, tenant: TenantSettings, mode: string,
    maxSubqueries: nat, enableHumanReview: bool, confidenceThreshold: real,
    strip: string -> string,
    plan: (Route, string, History) -> Outcome<seq<string>>,
    retrieve: seq<string> -> seq<RetrievedChunk>,
    verify: (Route, string, seq<RetrievedChunk>) -> Outcome<Verification>,
    complete: (Route, string, seq<RetrievedChunk>) -> Outcome<string>,
    stream: (Route, string, seq<RetrievedChunk>) -> TokenStream)

  datatype Call = Call(node: Node, client: string)

  // ---------- The state dictionary ----------

  /** The fields nodes write; an absent key is `None`. */
  datatype Fields = Fields(
    subqueries: Option<seq<string>>, chunks: Option<seq<RetrievedChunk>>, verification: Option<Verification>,
    requiresApproval: Option<bool>, answer: Option<string>, citations: Option<seq<Citation>>,
    status: Option<QueryStatus>, error: Option<string>)

  const NO_FIELDS: Fields := Fields(None, None, None, None, None, None, None, None)

  datatype State = State(question: string, history: History, fields: Fields)

  function Or<T>(a: Option<T>, b: Option<T>): Option<T> {
    if b.Some? then b else a
  }

  /** `state.update(partial)`. */
  function Update(s: State, p: Fields): State {
    var f := s.fields;
    s.(fields := Fields(Or(f.subqueries, p.subqueries), Or(f.chunks, p.chunks), Or(f.verification, p.verification),
                        Or(f.requiresApproval, p.requiresApproval), Or(f.answer, p.answer),
                        Or(f.citations, p.citations), Or(f.status, p.status), Or(f.error, p.error)))
  }

  function ChunksIn(s: State): seq<RetrievedChunk> {
    if s.fields.chunks.Some? then s.fields.chunks.value else []
  }

  // ---------- Nodes ----------

  /** A node's partial state and the model calls it made, or a routing denial. */
  datatype NodeResult = Wrote(fields: Fields, calls: seq<Call>) | Denied

  function RouteFor(w: World, node: Node): Result<Route, RoutingError> {
    Resolve(w.router, w.models, node, None, w.tenant, w.mode)
  }

  function StripAll(w: World, subs: seq<string>): seq<string> {
    if subs == [] then []
    else (if w.strip(subs[0]) != "" then [w.strip(subs[0])] else []) + StripAll(w, subs[1..])
  }

  /** The sub-queries the planner settles on; the question itself when the model gave none. */
  function Subqueries(w: World, route: Route, question: string, history: History): seq<string> {
    var subs := match w.plan(route, question, history)
                case Reply(plan) => Take(StripAll(w, plan), w.maxSubqueries)
                case Raised(_) => [];
    if subs == [] then [question] else subs
  }

  function PlannerNode(w: World, s: State): NodeResult {
    match RouteFor(w, Planner)
    case Failure(_) => Denied
    case Success(route) =>
      Wrote(NO_FIELDS.(subqueries := Some(Subqueries(w, route, s.question, s.history)), status := Some(Processing)),
            [Call(Planner, route.client)])
  }

  function RetrieverNode(w: World, s: State): NodeResult {
    var subs := if s.fields.subqueries.Some? then s.fields.subqueries.value else [];
    Wrote(NO_FIELDS.(chunks := Some(w.retrieve(subs))), [])
  }

  /** The verdict on the retrieved chunks; a failing verifier counts as no confidence. */
  function Verdict(w: World, route: Route, question: string, chunks: seq<RetrievedChunk>): Verification {
    match w.verify(route, question, chunks)
    case Reply(v) => v
    case Raised(message) => Verification(0.0, false, false, ["verifier error: " + message])
  }

  const NO_SOURCES: Verification := Verification(0.0, false, false, ["no sources retrieved"])

  function VerifierNode(w: World, s: State): NodeResult {
    if ChunksIn(s) == [] then Wrote(NO_FIELDS.(verification := Some(NO_SOURCES)), [])
    else
      match RouteFor(w, Verifier)
      case Failure(_) => Denied
      case Success(route) =>
        Wrote(NO_FIELDS.(verification := Some(Verdict(w, route, s.question, ChunksIn(s)))),
            [Call(Verifier, route.client)])
  }

  function HumanReviewNode(): NodeResult {
    Wrote(NO_FIELDS.(requiresApproval := Some(true), status := Some(PendingApproval)), [])
  }

  function SynthesizerNode(w: World, s: State): NodeResult {
    match RouteFor(w, Synthesizer)
    case Failure(_) => Denied
    case Success(route) =>
      match w.complete(route, s.question, ChunksIn(s))
      case Reply(answer) => Wrote(NO_FIELDS.(answer := Some(answer)), [Call(Synthesizer, route.client)])
      case Raised(message) =>
        Wrote(NO_FIELDS.(status := Some(Failed), error := Some("synthesis failed: " + message)),
            [Call(Synthesizer, route.client)])
  }

  function SourceAttributorNode(s: State): NodeResult {
    if s.fields.status == Some(Failed) then Wrote(NO_FIELDS, [])
    else
      var answer := if s.fields.answer.Some? then s.fields.answer.value else "";
      Wrote(NO_FIELDS.(citations := Some(CitationsOf(answer, ChunksIn(s))), status := Some(Completed)), [])
  }

  /** The condition of the human review branch. */
  predicate NeedsReview(w: World, s: State) {
    && w.enableHumanReview
    && (s.fields.verification.None?
        || s.fields.verification.value.confidentialityConcern
        || s.fields.verification.value.confidence < w.confidenceThreshold)
  }

  /** `route_after_verify`. */
  function RouteAfterVerify(w: World, s: State): string {
    if NeedsReview(w, s) then "human_review" else "synthesizer"
  }

  // ---------- The graph ----------

  datatype Vertex = Start | PlannerV | RetrieverV | VerifierV | HumanReviewV | SynthesizerV | SourceAttributorV | End

  function RunVertex(w: World, v: Vertex, s: State): NodeResult {
    match v
    case PlannerV => PlannerNode(w, s)
    case RetrieverV => RetrieverNode(w, s)
    case VerifierV => VerifierNode(w, s)
    case HumanReviewV => HumanReviewNode()
    case SynthesizerV => SynthesizerNode(w, s)
    case SourceAttributorV => SourceAttributorNode(s)
    case _ => Wrote(NO_FIELDS, [])
  }

  /** A conditional edge: the function that names a path, and the vertex each path leads to. */
  datatype Branch = Branch(router: (World, State) -> string, paths: map<string, Vertex>)

  /** A graph under construction: its nodes, plain edges and conditional edges. */
  class StateGraph {
    var nodes: set<Vertex>
    var edges: map<Vertex, Vertex>
    var branches: map<Vertex, Branch>

    constructor ()
      ensures nodes == {} && edges == map[] && branches == map[]
    {
      nodes, edges, branches := {}, map[], map[];
    }

    method AddNode(v: Vertex)
      modifies this
      ensures nodes == old(nodes) + {v} && edges == old(edges) && branches == old(branches)
    {
      nodes := nodes + {v};
    }

    method AddEdge(from: Vertex, to: Vertex)
      modifies this
      ensures nodes == old(nodes) && edges == old(edges)[from := to] && branches == old(branches)
    {
      edges := edges[from := to];
    }

    method AddConditionalEdges(from: Vertex, router: (World, State) -> string, paths: map<string, Vertex>)
      modifies this
      ensures nodes == old(nodes) && edges == old(edges) && branches == old(branches)[from := Branch(router, paths)]
    {
      branches := branches[from := Branch(router, paths)];
    }
  }

  const WORKFLOW_EDGES: map<Vertex, Vertex> :=
    map[Start := PlannerV, PlannerV := RetrieverV, RetrieverV := VerifierV,
        SynthesizerV := SourceAttributorV, SourceAttributorV := End, HumanReviewV := End]

  const REVIEW_PATHS: map<string, Vertex> := map["human_review" := HumanReviewV, "synthesizer" := SynthesizerV]

  /** The edges of the workflow, plain and conditional. */
  ghost predicate IsWorkflow(graph: StateGraph)
    reads graph
  {
    && graph.edges == WORKFLOW_EDGES
    && graph.branches.Keys == {VerifierV} && graph.branches[VerifierV].paths == REVIEW_PATHS
    && forall w, s :: graph.branches[VerifierV].router(w, s) == RouteAfterVerify(w, s)
  }

  /** `build_workflow`. */
  method BuildWorkflow() returns (graph: StateGraph)
    ensures fresh(graph) && IsWorkflow(graph)
    ensures graph.nodes == {PlannerV, RetrieverV, VerifierV, HumanReviewV, SynthesizerV, SourceAttributorV}
  {
    graph := new StateGraph();
    graph.AddNode(PlannerV);
    graph.AddNode(RetrieverV);
    graph.AddNode(VerifierV);
    graph.AddNode(HumanReviewV);
    graph.AddNode(SynthesizerV);
    graph.AddNode(SourceAttributorV);
    graph.AddEdge(Start, PlannerV);
    graph.AddEdge(PlannerV, RetrieverV);
    graph.AddEdge(RetrieverV, VerifierV);
    graph.AddConditionalEdges(VerifierV, RouteAfterVerify, REVIEW_PATHS);
    graph.AddEdge(SynthesizerV, SourceAttributorV);
    graph.AddEdge(SourceAttributorV, End);
    graph.AddEdge(HumanReviewV, End);
  }

  // ---------- What a run comes to ----------

  /** The persisted `queries` row, decrypted. */
  datatype QueryRecord = QueryRecord(status: QueryStatus, answer: Option<string>, citations: seq<Citation>,
      confidence: Option<real>)

  /** How a request ends: a stored row, a routing denial, or an unhandled error. */
  datatype Ending = Stored(record: QueryRecord) | Refused | Crashed(message: string)

  /** `_persist`. */
  function Persist(s: State): QueryRecord {
    var f := s.fields;
    QueryRecord(if f.status.Some? then f.status.value else Failed,
                if f.answer.Some? && f.answer.value != "" then f.answer else None,
                if f.citations.Some? then f.citations.value else [],
                if f.verification.Some? then Some(f.verification.value.confidence) else None)
  }

  /** What a run knows when it decides between review and synthesis. */
  datatype Evidence = Evidence(chunks: seq<RetrievedChunk>, verification: Verification) | NoRoute

  /** Planning, retrieval and verification of a question, in one expression. */
  function EvidenceFor(w: World, question: string, history: History): Evidence {
    match RouteFor(w, Planner)
    case Failure(_) => NoRoute
    case Success(route) =>
      var chunks := w.retrieve(Subqueries(w, route, question, history));
      if chunks == [] then Evidence([], NO_SOURCES)
      else
        match RouteFor(w, Verifier)
        case Failure(_) => NoRoute
        case Success(vr) => Evidence(chunks, Verdict(w, vr, question, chunks))
  }

  predicate Held(w: World, v: Verification) {
    w.enableHumanReview && (v.confidentialityConcern || v.confidence < w.confidenceThreshold)
  }

  /** A held query has no answer and no citations. */
  function HeldRecord(ev: Evidence): QueryRecord
    requires ev.Evidence?
  {
    QueryRecord(PendingApproval, None, [], Some(ev.verification.confidence))
  }

  function AnsweredRecord(ev: Evidence, answer: string): QueryRecord
    requires ev.Evidence?
  {
    QueryRecord(Completed, if answer != "" then Some(answer) else None, CitationsOf(answer, ev.chunks),
                Some(ev.verification.confidence))
  }

  /** What `POST /query` comes to, read off the evidence and the completion. */
  function AskEnding(w: World, question: string, history: History): Ending {
    var ev := EvidenceFor(w, question, history);
    if ev.NoRoute? then Refused
    else if Held(w, ev.verification) then Stored(HeldRecord(ev))
    else
      match RouteFor(w, Synthesizer)
      case Failure(_) => Refused
      case Success(route) =>
        match w.complete(route, question, ev.chunks)
        case Reply(answer) => Stored(AnsweredRecord(ev, answer))
        case Raised(_) => Stored(QueryRecord(Failed, None, [], Some(ev.verification.confidence)))
  }

  /** What `POST /query/stream` comes to, read off the evidence and the token stream. */
  function StreamEnding(w: World, question: string, history: History): Ending {
    var ev := EvidenceFor(w, question, history);
    if ev.NoRoute? then Refused
    else if Held(w, ev.verification) then Stored(HeldRecord(ev))
    else
      match RouteFor(w, Synthesizer)
      case Failure(_) => Refused
      case Success(route) =>
        var run := w.stream(route, question, ev.chunks);
        if run.failure.Some? then Crashed(run.failure.value) else Stored(AnsweredRecord(ev, Concat(run.pieces)))
  }

  /** The model calls of a request that ends up at its synthesis unless it is held or refused. */
  function CallsOf(w: World, question: string, history: History): seq<Call> {
    match RouteFor(w, Planner)
    case Failure(_) => []
    case Success(route) =>
      var chunks := w.retrieve(Subqueries(w, route, question, history));
      var planned := [Call(Planner, route.client)];
      if chunks == [] then planned + LastCall(w, NO_SOURCES)
      else
        match RouteFor(w, Verifier)
        case Failure(_) => planned
        case Success(vr) => planned + [Call(Verifier, vr.client)] + LastCall(w, Verdict(w, vr, question, chunks))
  }

  function LastCall(w: World, v: Verification): seq<Call> {
    if Held(w, v) then []
    else
      match RouteFor(w, Synthesizer)
      case Failure(_) => []
      case Success(route) => [Call(Synthesizer, route.client)]
  }

  /** No model call left the premises although it had to stay. */
  ghost predicate CallsStayHome(w: World, calls: seq<Call>) {
    w.router.ModelRouter? && MustStayHome(None, w.tenant, w.mode) ==>
      forall c <- calls :: w.router.selfHosted == Some(c.client)
  }

  // ---------- Running the graph ----------

  /** Steps left to the end of the graph. */
  function Distance(v: Vertex): nat {
    match v
    case Start => 6
    case PlannerV => 5
    case RetrieverV => 4
    case VerifierV => 3
    case SynthesizerV => 2
    case SourceAttributorV => 1
    case HumanReviewV => 1
    case End => 0
  }

  function Successor(w: World, v: Vertex, s: State): (next: Vertex)
    requires v != End
    ensures Distance(next) < Distance(v)
  {
    match v
    case Start => PlannerV
    case PlannerV => RetrieverV
    case RetrieverV => VerifierV
    case VerifierV => if NeedsReview(w, s) then HumanReviewV else SynthesizerV
    case SynthesizerV => SourceAttributorV
    case SourceAttributorV => End
    case HumanReviewV => End
  }

  /** The final state and the calls of a run from a vertex on; no state if routing was denied. */
  ghost function Trail(w: World, v: Vertex, s: State): (Option<State>, seq<Call>)
    decreases Distance(v)
  {
    if v == End then (Some(s), [])
    else
      match RunVertex(w, v, s)
      case Denied => (None, [])
      case Wrote(fields, calls) =>
        var next := Update(s, fields);
        var (final, later) := Trail(w, Successor(w, v, next), next);
        (final, calls + later)
  }

  /** `graph.ainvoke`: follow the edges from the start, merging each node's partial state. */
  method Invoke(w: World, graph: StateGraph, initial: State) returns (final: Option<State>, calls: seq<Call>)
    requires IsWorkflow(graph)
    ensures (final, calls) == Trail(w, Start, initial)
  {
    var current, state := Start, initial;
    ghost var whole := Trail(w, Start, initial);
    calls := [];
    while current != End
      invariant whole.0 == Trail(w, current, state).0
      invariant whole.1 == calls + Trail(w, current, state).1
      decreases Distance(current)
    {
      var result := RunVertex(w, current, state);
      TrailStep(w, current, state);
      if result.Denied? {
        assert calls + [] == calls;
        return None, calls;
      }
      state := Update(state, result.fields);
      Associate(calls, result.calls, Trail(w, Successor(w, current, state), state).1);
      calls := calls + result.calls;
      current := NextVertex(w, graph, current, state);
    }
    assert calls + [] == calls;
    return Some(state), calls;
  }

  /** The vertex an edge or a branch of the graph leads to. */
  method NextVertex(w: World, graph: StateGraph, current: Vertex, state: State) returns (next: Vertex)
    requires IsWorkflow(graph) && current != End
    ensures next == Successor(w, current, state)
  {
    if current in graph.branches {
      var branch := graph.branches[current];
      next := branch.paths[branch.router(w, state)];
    } else {
      next := graph.edges[current];
    }
  }

  /** The state `ask` starts the graph with. */
  function AskState(question: string, history: History): State {
    State(question, history, NO_FIELDS.(status := Some(Processing)))
  }

  /** `ask`: run the graph, then persist. */
  method Ask(w: World, question: string, history: History)
    returns (ending: Ending, requiresApproval: bool, calls: seq<Call>)
    ensures ending == AskEnding(w, question, history)
    ensures requiresApproval <==> ending.Stored? && ending.record.status == PendingApproval
    ensures calls == CallsOf(w, question, history) && CallsStayHome(w, calls)
  {
    var graph := BuildWorkflow();
    var state;
    state, calls := Invoke(w, graph, AskState(question, history));
    TrailEnds(w, question, history);
    TrailCalls(w, question, history);
    TrailStaysHome(w, Start, AskState(question, history));
    match state {
      case None =>
        return Refused, false, calls;
      case Some(s) =>
        return Stored(Persist(s)), s.fields.requiresApproval == Some(true), calls;
    }
  }

  /** The state after planning and retrieval. */
  function RetrievedState(w: World, route: Route, s: State): State {
    var subs := Subqueries(w, route, s.question, s.history);
    s.(fields := s.fields.(subqueries := Some(subs), status := Some(Processing), chunks := Some(w.retrieve(subs))))
  }

  /** The state at the decision between review and synthesis, for a request with the given evidence. */
  ghost predicate AtDecision(s: State, question: string, ev: Evidence) {
    && ev.Evidence? && s.question == question
    && s.fields.chunks == Some(ev.chunks) && s.fields.verification == Some(ev.verification)
    && s.fields.status == Some(Processing)
    && s.fields.answer.None? && s.fields.citations.None? && s.fields.requiresApproval.None?
  }

  /** From a fresh state, the first three nodes gather exactly the evidence, or are denied. */
  lemma {:induction false} TrailToDecision(w: World, s: State) returns (d: State)
    requires s.fields == NO_FIELDS || s.fields == NO_FIELDS.(status := Some(Processing))
    ensures var ev := EvidenceFor(w, s.question, s.history);
            && (ev.NoRoute? ==> Trail(w, Start, s).0.None?)
            && (ev.Evidence? ==> AtDecision(d, s.question, ev))
            && (ev.Evidence? ==>
                  Trail(w, Start, s).0 == Trail(w, if NeedsReview(w, d) then HumanReviewV else SynthesizerV, d).0)
  {
    d := s;
    match RouteFor(w, Planner)
    case Failure(_) =>
      TrailStep(w, Start, s);
      TrailStep(w, PlannerV, s);
    case Success(route) =>
      var r := RetrievedState(w, route, s);
      TrailToRetrieved(w, route, s);
      TrailStep(w, VerifierV, r);
      if VerifierNode(w, r).Wrote? {
        d := Update(r, VerifierNode(w, r).fields);
      }
  }

  lemma {:induction false} TrailStep(w: World, v: Vertex, s: State)
    requires v != End
    ensures RunVertex(w, v, s).Denied? ==> Trail(w, v, s) == (None, [])
    ensures RunVertex(w, v, s).Wrote? ==>
      var next := Update(s, RunVertex(w, v, s).fields);
      var rest := Trail(w, Successor(w, v, next), next);
      Trail(w, v, s) == (rest.0, RunVertex(w, v, s).calls + rest.1)
  {
  }

  lemma {:induction false} TrailToRetrieved(w: World, route: Route, s: State)
    requires RouteFor(w, Planner) == Success(route)
    ensures Trail(w, Start, s).0 == Trail(w, VerifierV, RetrievedState(w, route, s)).0
  {
    var subs := Subqueries(w, route, s.question, s.history);
    var planned := s.(fields := s.fields.(subqueries := Some(subs), status := Some(Processing)));
    TrailStep(w, Start, s);
    assert Update(s, NO_FIELDS) == s;
    TrailStep(w, PlannerV, s);
    TrailStep(w, RetrieverV, planned);
  }

  /** The end of a run agrees with the summary. */
  ghost predicate EndsAs(w: World, end: Option<State>, question: string, history: History) {
    && AskEnding(w, question, history) == (if end.None? then Refused else Stored(Persist(end.value)))
    && (end.Some? ==>
          (end.value.fields.requiresApproval == Some(true) <==> Persist(end.value).status == PendingApproval))
  }

  lemma {:induction false} HeldTrailEnds(w: World, question: string, history: History, d: State)
    requires EvidenceFor(w, question, history).Evidence? && AtDecision(d, question, EvidenceFor(w, question, history))
    requires NeedsReview(w, d)
    ensures EndsAs(w, Trail(w, HumanReviewV, d).0, question, history)
  {
    TrailStep(w, HumanReviewV, d);
  }

  lemma {:induction false} AnsweredTrailEnds(w: World, question: string, history: History, d: State)
    requires EvidenceFor(w, question, history).Evidence? && AtDecision(d, question, EvidenceFor(w, question, history))
    requires !NeedsReview(w, d)
    ensures EndsAs(w, Trail(w, SynthesizerV, d).0, question, history)
  {
    TrailStep(w, SynthesizerV, d);
    if SynthesizerNode(w, d).Wrote? {
      TrailStep(w, SourceAttributorV, Update(d, SynthesizerNode(w, d).fields));
    }
  }

  /** The graph ends as the summary says. */
  lemma {:induction false} TrailEnds(w: World, question: string, history: History)
    ensures EndsAs(w, Trail(w, Start, AskState(question, history)).0, question, history)
  {
    var d := TrailToDecision(w, AskState(question, history));
    if EvidenceFor(w, question, history).Evidence? {
      if NeedsReview(w, d) {
        HeldTrailEnds(w, question, history, d);
      } else {
        AnsweredTrailEnds(w, question, history, d);
      }
    }
  }

  /** The graph makes exactly these calls. */
  lemma {:induction false} TrailCalls(w: World, question: string, history: History)
    ensures Trail(w, Start, AskState(question, history)).1 == CallsOf(w, question, history)
  {
    var s := AskState(question, history);
    TrailStep(w, Start, s);
    assert Update(s, NO_FIELDS) == s;
    TrailStep(w, PlannerV, s);
    match RouteFor(w, Planner)
    case Failure(_) =>
    case Success(route) =>
      var r := RetrievedState(w, route, s);
      var subs := Subqueries(w, route, s.question, s.history);
      var planned := s.(fields := s.fields.(subqueries := Some(subs), status := Some(Processing)));
      TrailStep(w, RetrieverV, planned);
      VerifiedCalls(w, r, question);
      NoneFirst(Trail(w, RetrieverV, planned).1);
      NoneFirst(Trail(w, PlannerV, s).1);
      Regroup(Call(Planner, route.client), Trail(w, VerifierV, r).1);
  }

  lemma {:induction false} NoneFirst(calls: seq<Call>)
    ensures [] + calls == calls
  {
  }

  lemma {:induction false} Regroup(first: Call, rest: seq<Call>)
    ensures forall a, b | rest == [a] + b :: [first] + rest == [first] + [a] + b
  {
  }

  /** The calls from the verifier on. */
  lemma {:induction false} VerifiedCalls(w: World, r: State, question: string)
    requires r.question == question && r.fields.chunks.Some?
    ensures var calls := Trail(w, VerifierV, r).1;
            if r.fields.chunks.value == [] then calls == LastCall(w, NO_SOURCES)
            else
              match RouteFor(w, Verifier)
              case Failure(_) => calls == []
              case Success(vr) =>
                calls == [Call(Verifier, vr.client)] + LastCall(w, Verdict(w, vr, question, r.fields.chunks.value))
  {
    TrailStep(w, VerifierV, r);
    if VerifierNode(w, r).Wrote? {
      var d := Update(r, VerifierNode(w, r).fields);
      DecidedCalls(w, d);
      NoneFirst(Trail(w, Successor(w, VerifierV, d), d).1);
    }
  }

  /** The calls after the decision. */
  lemma {:induction false} DecidedCalls(w: World, d: State)
    requires d.fields.verification.Some?
    ensures Trail(w, Successor(w, VerifierV, d), d).1 == LastCall(w, d.fields.verification.value)
  {
    var next := Successor(w, VerifierV, d);
    TrailStep(w, next, d);
    if next == SynthesizerV && SynthesizerNode(w, d).Wrote? {
      var after := Update(d, SynthesizerNode(w, d).fields);
      TrailStep(w, SourceAttributorV, after);
    }
  }

  /** A routing decision does not depend on the node, and stays home when it must. */
  lemma {:induction false} TrailStaysHome(w: World, v: Vertex, s: State)
    ensures CallsStayHome(w, Trail(w, v, s).1)
    decreases Distance(v)
  {
    if v != End && RunVertex(w, v, s).Wrote? {
      var next := Update(s, RunVertex(w, v, s).fields);
      TrailStaysHome(w, Successor(w, v, next), next);
    }
  }

  // ---------- The streaming handler ----------

  /** How numbers are printed, and the ids of the stored row and its thread. */
  datatype Printer = Printer(integer: nat -> string, number: real -> string, queryId: string,
      conversationId: Option<string>)

  ghost predicate PrintsNumbers(p: Printer) {
    (forall n :: Json.IsNumber(p.integer(n))) && (forall x :: Json.IsNumber(p.number(x)))
  }

  function JsonText(name: string, text: string): Json.Member {
    Json.Member(name, Json.Text(text))
  }

  function ConversationJson(p: Printer): Json.Json {
    match p.conversationId
    case None => Json.Null
    case Some(id) => Json.Text(id)
  }

  function CitationJson(p: Printer, c: Citation): Json.Json {
    Json.Object([Json.Member("marker", Json.Number(p.integer(c.marker))),
                 JsonText("document_id", p.integer(c.documentId)),
                 JsonText("chunk_id", p.integer(c.chunkId)), JsonText("filename", c.filename),
                 JsonText("snippet", c.snippet)])
  }

  function TokenEvent(text: string): EventStream.Event {
    EventStream.Event("token", Json.Object([JsonText("text", text)]))
  }

  function PendingEvent(p: Printer): EventStream.Event {
    EventStream.Event("pending", Json.Object([JsonText("query_id", p.queryId), JsonText("status", "pending_approval"),
                                              Json.Member("conversation_id", ConversationJson(p))]))
  }

  function DoneEvent(p: Printer, record: QueryRecord): EventStream.Event {
    var citations :=
      seq(|record.citations|, i requires 0 <= i < |record.citations| => CitationJson(p, record.citations[i]));
    var confidence := match record.confidence case None => Json.Null case Some(x) => Json.Number(p.number(x));
    EventStream.Event("done", Json.Object([JsonText("query_id", p.queryId),
                                           Json.Member("citations", Json.Array(citations)),
                                           Json.Member("confidence", confidence),
                                           Json.Member("conversation_id", ConversationJson(p))]))
  }

  const ROUTING_MESSAGE: string :=
    "Policy requires a self-hosted model for this content, but no self-hosted LLM endpoint "
    + "(LLM_BASE_URL) is configured."

  function ErrorEvent(p: Printer): EventStream.Event {
    EventStream.Event("error", Json.Object([JsonText("detail", ROUTING_MESSAGE),
                                            Json.Member("status", Json.Number(p.integer(503)))]))
  }

  function TokenEvents(pieces: seq<string>): seq<EventStream.Event> {
    if pieces == [] then [] else TokenEvents(pieces[..|pieces| - 1]) + [TokenEvent(pieces[|pieces| - 1])]
  }

  /** The pieces the synthesizer yields in a run, if it is reached. */
  function PiecesOf(w: World, question: string, history: History): seq<string> {
    var ev := EvidenceFor(w, question, history);
    if ev.NoRoute? || Held(w, ev.verification) then []
    else
      match RouteFor(w, Synthesizer)
      case Failure(_) => []
      case Success(route) => w.stream(route, question, ev.chunks).pieces
  }

  /** The events a streaming request prints: its tokens, then one event that tells how it ended. */
  function StreamEvents(w: World, p: Printer, question: string, history: History): seq<EventStream.Event> {
    TokenEvents(PiecesOf(w, question, history)) + LastEvent(w, p, question, history)
  }

  /** The event that ends a stream; a stream that breaks has none. */
  function LastEvent(w: World, p: Printer, question: string, history: History): seq<EventStream.Event> {
    match StreamEnding(w, question, history)
    case Refused => [ErrorEvent(p)]
    case Crashed(_) => []
    case Stored(record) => if record.status == PendingApproval then [PendingEvent(p)] else [DoneEvent(p, record)]
  }

  /** The planner, retriever and verifier calls at the head of a hand-written driver. */
  method GatherEvidence(w: World, s: State) returns (state: Option<State>, calls: seq<Call>)
    requires s.fields == NO_FIELDS
    ensures var ev := EvidenceFor(w, s.question, s.history);
            && (state.None? <==> ev.NoRoute?)
            && (state.Some? ==> AtDecision(state.value, s.question, ev))
    ensures CallsStayHome(w, calls)
    ensures var ev := EvidenceFor(w, s.question, s.history);
            CallsOf(w, s.question, s.history) == calls + if ev.NoRoute? then [] else LastCall(w, ev.verification)
    ensures w.router.ModelRouter? && MustStayHome(None, w.tenant, w.mode) && w.router.selfHosted.None? ==>
              calls == [] && state.None?
  {
    calls := [];
    var planned := PlannerNode(w, s);
    if planned.Denied? {
      return None, calls;
    }
    var st := Update(s, planned.fields);
    calls := calls + planned.calls;
    st := Update(st, RetrieverNode(w, st).fields);
    var verified := VerifierNode(w, st);
    if verified.Denied? {
      return None, calls;
    }
    calls := calls + verified.calls;
    return Some(Update(st, verified.fields)), calls;
  }

  /** `ask_stream`: the same nodes by hand up to the decision, then tokens as they come. */
  method AskStream(w: World, p: Printer, question: string, history: History)
    returns (ending: Ending, events: seq<EventStream.Event>, calls: seq<Call>)
    ensures ending == StreamEnding(w, question, history)
    ensures events == StreamEvents(w, p, question, history)
    ensures calls == CallsOf(w, question, history) && CallsStayHome(w, calls)
    ensures w.router.ModelRouter? && MustStayHome(None, w.tenant, w.mode) && w.router.selfHosted.None? ==>
              calls == [] && ending == Refused
  {
    var gathered;
    gathered, calls := GatherEvidence(w, State(question, history, NO_FIELDS));
    events := [];
    if gathered.None? {
      return Refused, [ErrorEvent(p)], calls;
    }
    var state := gathered.value;
    if NeedsReview(w, state) {
      state := Update(state, HumanReviewNode().fields);
      return Stored(Persist(state)), [PendingEvent(p)], calls;
    }
    var route := RouteFor(w, Synthesizer);
    if route.Failure? {
      return Refused, [ErrorEvent(p)], calls;
    }
    calls := calls + [Call(Synthesizer, route.value.client)];
    var run := w.stream(route.value, question, ChunksIn(state));
    var pieces := [];
    for i := 0 to |run.pieces|
      invariant pieces == run.pieces[..i] && events == TokenEvents(run.pieces[..i])
    {
      var token := run.pieces[i];
      pieces := pieces + [token];
      events := events + [TokenEvent(token)];
      assert run.pieces[..i + 1][..i] == run.pieces[..i];
    }
    assert run.pieces[..|run.pieces|] == run.pieces;
    if run.failure.Some? {
      return Crashed(run.failure.value), events, calls;
    }
    state := state.(fields := state.fields.(answer := Some(Concat(pieces))));
    state := Update(state, SourceAttributorNode(state).fields);
    ending := Stored(Persist(state));
    events := events + [DoneEvent(p, Persist(state))];
  }

  // ---------- What routing ignores ----------

  /** The same world with another sensitivity threshold in the tenant's policy. */
  function WithThreshold(w: World, level: Level): World {
    w.(tenant := w.tenant.(sensitiveClassification := level))
  }

  lemma {:induction false} StripIgnoresThreshold(w: World, level: Level, subs: seq<string>)
    ensures StripAll(WithThreshold(w, level), subs) == StripAll(w, subs)
  {
    if subs != [] {
      StripIgnoresThreshold(w, level, subs[1..]);
    }
  }

  lemma {:induction false} PlanIgnoresThreshold(w: World, level: Level, question: string, history: History)
    ensures forall route ::
              Subqueries(WithThreshold(w, level), route, question, history) == Subqueries(w, route, question, history)
  {
    forall route
      ensures Subqueries(WithThreshold(w, level), route, question, history) == Subqueries(w, route, question, history)
    {
      match w.plan(route, question, history)
      case Reply(plan) => StripIgnoresThreshold(w, level, plan);
      case Raised(_) =>
    }
  }

  lemma {:induction false} VertexIgnoresThreshold(w: World, level: Level, v: Vertex, s: State)
    ensures RunVertex(WithThreshold(w, level), v, s) == RunVertex(w, v, s)
  {
    PlanIgnoresThreshold(w, level, s.question, s.history);
    assert forall node :: RouteFor(WithThreshold(w, level), node) == RouteFor(w, node);
  }

  lemma {:induction false} TrailIgnoresThreshold(w: World, level: Level, v: Vertex, s: State)
    ensures Trail(WithThreshold(w, level), v, s) == Trail(w, v, s)
    decreases Distance(v)
  {
    if v != End {
      VertexIgnoresThreshold(w, level, v, s);
      if RunVertex(w, v, s).Wrote? {
        var next := Update(s, RunVertex(w, v, s).fields);
        TrailIgnoresThreshold(w, level, Successor(w, v, next), next);
      }
    }
  }

  lemma {:induction false} EvidenceIgnoresThreshold(w: World, level: Level, question: string, history: History)
    ensures forall node :: RouteFor(WithThreshold(w, level), node) == RouteFor(w, node)
    ensures EvidenceFor(WithThreshold(w, level), question, history) == EvidenceFor(w, question, history)
  {
    PlanIgnoresThreshold(w, level, question, history);
    assert forall node :: RouteFor(WithThreshold(w, level), node) == RouteFor(w, node);
  }

  lemma {:induction false} StreamIgnoresThreshold(w: World, level: Level, question: string, history: History)
    ensures StreamEnding(WithThreshold(w, level), question, history) == StreamEnding(w, question, history)
    ensures PiecesOf(WithThreshold(w, level), question, history) == PiecesOf(w, question, history)
  {
    EvidenceIgnoresThreshold(w, level, question, history);
  }

  /**
   * The tenant's `sensitive_classification` changes nothing: every run of the graph makes the same calls
   * to the same clients and ends in the same state, and every stream prints the same events, whatever
   * threshold is set. No node passes the classification of what it handles to the router.
   */
  lemma {:induction false} SensitivityNeverRoutes(w: World, level: Level, p: Printer, question: string,
                                                  history: History)
    ensures Trail(WithThreshold(w, level), Start, AskState(question, history))
         == Trail(w, Start, AskState(question, history))
    ensures AskEnding(WithThreshold(w, level), question, history) == AskEnding(w, question, history)
    ensures StreamEnding(WithThreshold(w, level), question, history) == StreamEnding(w, question, history)
    ensures StreamEvents(WithThreshold(w, level), p, question, history) == StreamEvents(w, p, question, history)
  {
    TrailIgnoresThreshold(w, level, Start, AskState(question, history));
    EvidenceIgnoresThreshold(w, level, question, history);
    StreamIgnoresThreshold(w, level, question, history);
  }

  // ---------- Streaming refines the graph ----------

  /** The row the graph's last state is stored as, or the refusal. */
  ghost function GraphEnding(w: World, question: string, history: History): Ending {
    var end := Trail(w, Start, AskState(question, history)).0;
    if end.None? then Refused else Stored(Persist(end.value))
  }

  /** What the two handlers ask of the model at the end: do they get the same answer without error? */
  ghost predicate SameSynthesis(w: World, question: string, history: History) {
    var ev := EvidenceFor(w, question, history);
    ev.Evidence? && !Held(w, ev.verification) && RouteFor(w, Synthesizer).Success? ==>
      var route := RouteFor(w, Synthesizer).value;
      var run := w.stream(route, question, ev.chunks);
      run.failure.None? && w.complete(route, question, ev.chunks) == Reply(Concat(run.pieces))
  }

  /**
   * The streaming handler and the graph persist the same row, or are denied alike, exactly when the
   * synthesis is not reached or succeeds in both with the pieces joining to the completion.
   */
  lemma {:induction false} StreamingRefinesGraph(w: World, question: string, history: History)
    ensures GraphEnding(w, question, history) == StreamEnding(w, question, history)
        <==> SameSynthesis(w, question, history)
  {
    TrailEnds(w, question, history);
  }

  /** An answer is stored only for a query that was not held; a held query shows nothing. */
  lemma {:induction false} AnswersOnlyAfterRouting(w: World, question: string, history: History, ending: Ending)
    requires ending == GraphEnding(w, question, history) || ending == StreamEnding(w, question, history)
    requires ending.Stored?
    ensures var ev, r := EvidenceFor(w, question, history), ending.record;
            && ev.Evidence? && r.confidence == Some(ev.verification.confidence)
            && (r.answer.Some? ==> !Held(w, ev.verification) && r.status == Completed && r.answer.value != "")
            && (r.citations != [] ==> !Held(w, ev.verification) && r.status == Completed)
            && (Held(w, ev.verification) <==> r.status == PendingApproval)
            && (r.status == PendingApproval ==> r.answer.None? && r.citations == [])
            && (r.status == Completed ==>
                  r.citations == CitationsOf(if r.answer.Some? then r.answer.value else "", ev.chunks))
  {
    TrailEnds(w, question, history);
  }

  /** Without a self-hosted client, a run that must stay home ends at the planner: nothing is stored. */
  lemma {:induction false} NoHomeNoRun(w: World, question: string, history: History)
    requires w.router.ModelRouter? && MustStayHome(None, w.tenant, w.mode) && w.router.selfHosted.None?
    ensures AskEnding(w, question, history) == Refused && StreamEnding(w, question, history) == Refused
    ensures Trail(w, Start, AskState(question, history)) == (None, [])
  {
    var s := AskState(question, history);
    assert RunVertex(w, PlannerV, s).Denied?;
    assert Update(s, NO_FIELDS) == s;
    assert [] + Trail(w, PlannerV, s).1 == Trail(w, PlannerV, s).1;
    TrailStep(w, Start, s);
    TrailStep(w, PlannerV, s);
  }

  // ---------- From the server to the browser ----------

  /** The text the browser shows: the `text` of each token event, in order. */
  function ShownText(events: seq<EventStream.Event>): string {
    if events == [] then ""
    else
      var last := events[|events| - 1];
      ShownText(events[..|events| - 1]) + if last.name == "token" then TextField(last.data) else ""
  }

  function TextField(j: Json.Json): string {
    if j.Object? && |j.members| == 1 && j.members[0].name == "text" && j.members[0].value.Text? then
      j.members[0].value.s
    else ""
  }

  lemma {:induction false} ShownTokens(pieces: seq<string>)
    ensures ShownText(TokenEvents(pieces)) == Concat(pieces)
  {
    if pieces != [] {
      var front := pieces[..|pieces| - 1];
      ShownTokens(front);
      assert TokenEvents(pieces)[..|TokenEvents(pieces)| - 1] == TokenEvents(front);
    }
  }

  lemma {:induction false} TokenIsPrinted(text: string)
    ensures EventStream.Printed(TokenEvent(text))
  {
    assert Json.Valid(Json.Text(text));
  }

  lemma {:induction false} TokensArePrinted(pieces: seq<string>)
    ensures AllPrinted(TokenEvents(pieces))
  {
    if pieces != [] {
      TokensArePrinted(pieces[..|pieces| - 1]);
      TokenIsPrinted(pieces[|pieces| - 1]);
      AllPrintedConcat(TokenEvents(pieces[..|pieces| - 1]), [TokenEvent(pieces[|pieces| - 1])]);
    }
  }

  predicate AllPrinted(events: seq<EventStream.Event>) {
    forall i | 0 <= i < |events| :: EventStream.Printed(events[i])
  }

  lemma {:induction false} AllPrintedConcat(a: seq<EventStream.Event>, b: seq<EventStream.Event>)
    requires AllPrinted(a) && AllPrinted(b)
    ensures AllPrinted(a + b)
  {
  }

  lemma {:induction false} CitationIsValid(p: Printer, c: Citation)
    requires PrintsNumbers(p)
    ensures Json.Valid(CitationJson(p, c))
  {
  }

  lemma {:induction false} DoneIsPrinted(p: Printer, record: QueryRecord)
    requires PrintsNumbers(p)
    ensures EventStream.Printed(DoneEvent(p, record))
  {
    forall i | 0 <= i < |record.citations| ensures Json.Valid(CitationJson(p, record.citations[i])) {
      CitationIsValid(p, record.citations[i]);
    }
  }

  lemma {:induction false} OthersArePrinted(p: Printer)
    requires PrintsNumbers(p)
    ensures EventStream.Printed(PendingEvent(p)) && EventStream.Printed(ErrorEvent(p))
  {
  }

  lemma {:induction false} EventsArePrinted(w: World, p: Printer, question: string, history: History)
    requires PrintsNumbers(p)
    ensures AllPrinted(StreamEvents(w, p, question, history))
  {
    TokensArePrinted(PiecesOf(w, question, history));
    OthersArePrinted(p);
    if StreamEnding(w, question, history).Stored? {
      DoneIsPrinted(p, StreamEnding(w, question, history).record);
    }
    AllPrintedConcat(TokenEvents(PiecesOf(w, question, history)), LastEvent(w, p, question, history));
  }

  lemma {:induction false} ShownBeforeLast(tokens: seq<EventStream.Event>, last: seq<EventStream.Event>)
    requires |last| <= 1 && (last != [] ==> last[0].name != "token")
    ensures ShownText(tokens + last) == ShownText(tokens)
  {
    if last == [] {
      assert tokens + last == tokens;
    } else {
      assert (tokens + last)[..|tokens|] == tokens;
    }
  }

  /** Whatever a run stores as its answer is what its pieces join to. */
  lemma {:induction false} StoredAnswerIsJoined(w: World, question: string, history: History)
    ensures var ending := StreamEnding(w, question, history);
            ending.Stored? ==>
              Concat(PiecesOf(w, question, history))
                == if ending.record.answer.Some? then ending.record.answer.value else ""
  {
  }

  /**
   * End to end: however the printed stream is cut on its way, the browser receives exactly the
   * server's events, and for a stored row the text it shows is the stored answer.
   */
  lemma {:induction false} BrowserShowsStoredAnswer(w: World, p: Printer, question: string, history: History,
                                                    chunks: seq<string>)
    requires PrintsNumbers(p)
    requires Concat(chunks) == EventStream.SseAll(StreamEvents(w, p, question, history))
    ensures EventStream.Drain(Concat(chunks)) == (StreamEvents(w, p, question, history), "")
    ensures var ending := StreamEnding(w, question, history);
            var shown := ShownText(EventStream.Drain(Concat(chunks)).0);
            ending.Stored? ==> shown == if ending.record.answer.Some? then ending.record.answer.value else ""
  {
    EventsArePrinted(w, p, question, history);
    EventStream.DrainSseAll(StreamEvents(w, p, question, history));
    ShownTokens(PiecesOf(w, question, history));
    ShownBeforeLast(TokenEvents(PiecesOf(w, question, history)), LastEvent(w, p, question, history));
    StoredAnswerIsJoined(w, question, history);
  }

  // ---------- Approving a held query ----------

  /**
   * `approve_query`: deferred synthesis with unrestricted retrieval. The row changes only if every
   * step succeeds; its confidence never does. The handler does not look at the row's status.
   */
  method Approve(w: World, question: string, record: QueryRecord)
    returns (after: QueryRecord, ending: Ending, calls: seq<Call>)
    ensures !ending.Stored? ==> after == record
    ensures ending.Refused? <==> RouteFor(w, Planner).Failure? || RouteFor(w, Synthesizer).Failure?
    ensures ending.Stored? ==>
      var route := RouteFor(w, Planner);
      route.Success? && RouteFor(w, Synthesizer).Success? &&
      var chunks := w.retrieve(Subqueries(w, route.value, question, []));
      var reply := w.complete(RouteFor(w, Synthesizer).value, question, chunks);
      reply.Reply? && ending == Stored(after)
      && after == QueryRecord(Completed, Some(reply.value), CitationsOf(reply.value, chunks), record.confidence)
    ensures ending.Crashed? ==>
      && RouteFor(w, Planner).Success? && RouteFor(w, Synthesizer).Success?
      && w.complete(RouteFor(w, Synthesizer).value, question,
                    w.retrieve(Subqueries(w, RouteFor(w, Planner).value, question, []))).Raised?
    ensures calls == match (RouteFor(w, Planner), RouteFor(w, Synthesizer))
                     case (Failure(_), _) => []
                     case (Success(pr), Failure(_)) => [Call(Planner, pr.client)]
                     case (Success(pr), Success(sr)) => [Call(Planner, pr.client), Call(Synthesizer, sr.client)]
    ensures CallsStayHome(w, calls)
  {
    calls := [];
    var state := State(question, [], NO_FIELDS);
    var planned := PlannerNode(w, state);
    if planned.Denied? {
      return record, Refused, calls;
    }
    state := Update(state, planned.fields);
    calls := calls + planned.calls;
    state := Update(state, RetrieverNode(w, state).fields);
    var written := SynthesizerNode(w, state);
    if written.Denied? {
      return record, Refused, calls;
    }
    calls := calls + written.calls;
    state := Update(state, written.fields);
    state := Update(state, SourceAttributorNode(state).fields);
    if state.fields.answer.None? {
      return record, Crashed("KeyError: 'answer'"), calls;
    }
    after := QueryRecord(Completed, state.fields.answer,
                         if state.fields.citations.Some? then state.fields.citations.value else [], record.confidence);
    ending := Stored(after);
  }
}
