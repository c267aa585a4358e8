# A verified model of the sales-enablement RAG backend

This Dafny project models the decision-making code of a multi-tenant retrieval-augmented answering
service and proves what that code promises. `dafny verify dfyconfig.toml` checks all of it.

The service answers sales questions from uploaded documents. A question is split into sub-queries,
each sub-query is searched densely and by BM25, the results are fused, merged and cut, a verifier
scores them, and an answer with citations is written, streamed and stored, or the query is held for
review. Around that core stand permissions, document ingestion and deletion, seats and invitations,
a rate limit, starter templates, an evaluation gate and a dashboard.

The form of each module follows the code. Objects whose methods change fields are classes, loops are
loops, dictionaries with an insertion order are a list of keys beside a map. Each such method is proved
equal to a specification function or relation, and the theorems are about those and about whole runs. The
modules ending in `Laws` say what those functions mean without naming them: the rules, in numbers and rows.

| module | what it models |
|---|---|
| `JsonExtraction` | the brace scanner for objects in free-form replies |
| `Json`, `NumberGrammar`, `JsonReading`, `EventStream` | `json.dumps`, `JSON.parse` and the texts it reads, the server-sent event printer and the browser's buffering parser |
| `RateLimiter` | the sliding admission log per client |
| `Store`, `Ranking`, `KeywordSearch`, `KeywordLaws`, `Retrieval`, `RetrievalLaws` | visible rows, stable ranking, BM25 and how it weighs, hybrid search and what it finds |
| `Retriever`, `RetrieverLaws`, `Truncation`, `TruncationWitness` | the multi-query merge of the retriever node, and what cutting early can change |
| `Citations` | citation markers |
| `ModelRouter`, `Workflow`, `AnswerLaws` | routing, the graph, the two drivers of its nodes, approval; how each question ends |
| `Authz`, `Search` | permission resolution and the search endpoint |
| `Lifecycle`, `LifecycleLaws`, `LifecycleRuns`, `Batch` | intake, ingestion, deletion, batch upload |
| `Billing`, `InviteKeys`, `Team`, `TeamLaws`, `TeamRuns` | plans and quotas, keys, users, invitations, erasure, seats |
| `Evaluation` | average precision, the scorer, the gate |
| `Segments`, `Templates`, `TemplateLaws`, `TemplatesData` | tagging, idempotent seeding, the templates that ship |
| `Analytics`, `Leaderboard`, `Uploads`, `Dashboard`, `DashboardLaws` | the single pass and what the dashboard shows |
| `Wrappers`, `Sequences`, `Select`, `Queries` | shared result types, sequence functions, selecting and counting rows, query status |

The services the code calls are parameters: the embedder, the reranker, cosine similarity, the
tokeniser, the logarithm (assumed positive above one), the language model, password hashing (assumed to
verify exactly the hashed password), lower- and upper-casing, the clock, fresh ids and random keys.
Scores are reals. Tables are sequences or maps of rows, and a request is one atomic step.

## Where the code differs from what is said about it

- The rate limiter's class comment speaks of a fixed window. The code keeps a sliding log; the proofs
  are about the log.
- The batch upload's comment says one bad file never fails the batch. A file that is good in itself does
  when the plan is full, because the plan-limit error is not an intake error: the request fails and is
  rolled back, and the blobs stored so far stay. `Batch.UploadBatch` states exactly when.
- `update_user` can reactivate a user when every seat is taken, and a plan change can leave fewer seats
  than are taken. The seat bound holds over a run exactly when neither happens
  (`TeamRuns.SeatBoundOverRuns`, with a run that breaks it in `TeamRuns.ReactivationOverfills`).
- `accept_invitation` looks for live users only, while the uniqueness constraint covers soft-deleted ones.
  An invitation for a removed user's email is issued (`TeamRuns.RemovedEmailIsInvited`), and accepting it
  fails on the constraint until an erasure moves the removed row off the email
  (`TeamRuns.RemovedEmailBlockedUntilErased`, `TeamRuns.ErasureAdmits`).
- The comment of `accept_invitation` says every failure raises the same error. A taken email raises another
  one, but only towards somebody who holds the right key (`TeamRuns.GenericErrorWithoutKey`).
- An expired invitation stays pending: it keeps its seat and blocks its email until it is revoked, and a
  regenerated key does not extend it (`TeamRuns.ExpiredInvitationBlocks`).
- The bulk permission set contains soft-deleted documents reached through a grant; the point check refuses
  them (`Authz.BulkMatchesPoint`). Searches still show none, because deletion purges chunks, unless a
  blob that outlived its document is ingested afterwards (`LifecycleRuns.DeletedContentStaysGone`,
  `Search.SearchAfterAnyRun`).
- Re-applying a template never duplicates anything, as its comment says. A first application would if the
  template itself repeated a topic title or an objection label that the tenant lacks
  (`TemplateLaws.TopicsStayUniqueIff`). That case is hypothetical: neither template that ships does
  (`TemplatesData.ShippedKeepUnique`).
- Early truncation of each sub-query preserves the merged scores always, and the merged chunks unless two
  of them tie across the last place of the answer (`Truncation.TruncationKeepsSet`). With such a tie it
  preserves them exactly when both merge dictionaries start the tie alike (`Truncation.SetKeptIff`, and
  `Truncation.ChunksKeptIff` for the order), and `TruncationWitness.TiesCanChangeChunks` shows that it can
  fail.
- The model router's description promises that sensitive documents are answered by the self-hosted profile.
  No node passes a classification to it, so the tenant's threshold changes nothing
  (`Workflow.SensitivityNeverRoutes`); only the deployment mode and the tenant's own switch keep a call home.
- `approve_query` does not look at the status of the row it approves; `Workflow.Approve` has no such
  precondition.

## Model

| member | source | states |
|---|---|---|
| `JsonExtraction.ExtractJson` | backend/app/services/llm.py:179-206 | the returned span is the only balanced brace pair starting at the first `{`, and nothing is returned exactly when no such pair exists |
| `JsonExtraction.ScanLoop` | backend/app/services/llm.py:189-206 | the one-pass loop with its depth counter and two string flags computes the scan of the text after the first `{` |
| `JsonExtraction.ScanFindsPair` | backend/app/services/llm.py:189-206 | scanner and grammar of balanced pairs agree, both ways, on every text that starts with `{` |
| `JsonExtraction.ScanCrossesBody` | backend/app/services/llm.py:191-205 | quoted strings, escapes and nested braces are crossed without losing depth, at any depth |
| `JsonExtraction.BodyFromScan` | backend/app/services/llm.py:191-205 | whenever the scanner stops, what it read is a well-formed body and its closing brace |
| `JsonExtraction.ExtractionRecoversObject` | backend/app/services/llm.py:179-206 | for every object text of RFC 8259, every prefix without `{` and any suffix, exactly the object text comes back |
| `Json.ParseInvertsDumps` | backend/app/api/v1/query.py:220-221 | `JSON.parse` inverts `json.dumps` on every JSON value with valid number literals |
| `Json.DumpsPrintable` | backend/app/api/v1/query.py:220-221 | a printed value is printable ASCII, so it holds no raw line break |
| `EventStream.ParseSseEvent` | frontend/lib/api.ts:136-149 | the line loop computes the event name and the parsed, newline-joined data, or nothing without data |
| `EventStream.DrainBuffer` | frontend/lib/api.ts:181-191 | the inner loop dispatches every complete event of the buffer in order and keeps the incomplete rest |
| `EventStream.StreamAnswer` | frontend/lib/api.ts:155-193 | whatever the chunks, the calls and the final buffer are those of draining their concatenation at once |
| `NumberGrammar.NumbersAreSpelled` | frontend/lib/api.ts:145 | the number automaton accepts exactly the number grammar of RFC 8259 |
| `JsonReading.ReadsExactlyTheGrammar` | frontend/lib/api.ts:145 | the reader reads a text as a value exactly when the text, in any spelling of RFC 8259, spells that value |
| `JsonReading.RepliesAreUnderstood` | backend/app/services/llm.py:156-160 | an object text with prose around it is extracted as it stands and read as the object it spells |
| `EventStream.NamelessIsIgnored` | frontend/lib/api.ts:137-183 | an event that no line names reaches no handler |
| `EventStream.DrainAppend` | frontend/lib/api.ts:173-192 | draining early and going on with the rest equals draining everything at once |
| `EventStream.EventOfPrinted` | backend/app/api/v1/query.py:220-221 | one printed event is read back as itself |
| `EventStream.DrainSseAll` | backend/app/api/v1/query.py:220-221 | reading undoes printing for every sequence of events, with an empty buffer at the end |
| `EventStream.SseIsAscii` | backend/app/api/v1/query.py:220-221 | printed events are ASCII, so cutting bytes cuts between characters |
| `EventStream.StreamRoundTrip` | frontend/lib/api.ts:173-192 | for every cutting of the printed stream the browser makes exactly the printed calls, in order |
| `RateLimiter.RateLimitMiddleware.Dispatch` | backend/app/core/middleware.py:74-87 | the pruned log decides each request as the full admission history would; other clients keep their lists |
| `RateLimiter.Serve` | backend/app/core/middleware.py:74-87 | over a whole run every decision is the one the full history prescribes |
| `RateLimiter.PrunedLogSuffices` | backend/app/core/middleware.py:79-86 | what was stored at the last visit has the same recent part as the full admission history |
| `RateLimiter.StoredAfter` | backend/app/core/middleware.py:79-86 | each dispatch leaves every client with its history filtered to the window at its last visit |
| `RateLimiter.MinuteBound` | backend/app/core/middleware.py:79-87 | over every run and for every client, each half-open 60-second window admits at most the limit |
| `RateLimiter.RecentBound` | backend/app/core/middleware.py:79-87 | the trailing window never holds more than the limit |
| `RateLimiter.RefusedAfterLimit` | backend/app/core/middleware.py:79-86 | a request is refused exactly when its client was admitted limit times in the 60 seconds before it, and only an admitted one enters the history |
| `RateLimiter.ClientsAreIndependent` | backend/app/core/middleware.py:78-86 | the admissions of a client depend on its own requests only |
| `Ranking.SortOrders` | backend/app/services/retrieval.py:194 | the sort is descending and a permutation |
| `Ranking.SortIsTheStableOrder` | backend/app/services/keyword_search.py:121 | the stable descending order is unique, and the sort computes it |
| `KeywordSearch.CountDocuments` | backend/app/services/keyword_search.py:100-104 | the counter maps each term to the number of documents containing it |
| `KeywordSearch.ScoreChunk` | backend/app/services/keyword_search.py:109-117 | the accumulated score is the BM25 sum over the query terms the chunk contains, in any term order |
| `KeywordSearch.SearchPython` | backend/app/services/keyword_search.py:80-122 | the in-process search returns the top `limit` of the scored visible chunks |
| `KeywordSearch.SearchChunks` | backend/app/services/keyword_search.py:37-53 | the guards on an empty access set and an empty query come first |
| `KeywordSearch.IdfPositive` | backend/app/services/keyword_search.py:114 | document frequencies of occurring terms lie in 1..n, so each inverse document frequency is positive |
| `KeywordSearch.ScoreBounds` | backend/app/services/keyword_search.py:110-118 | a score is positive exactly when the chunk shares a query term, and is below (k1+1) times the matched idf sum |
| `KeywordSearch.KeptIsMatching` | backend/app/services/keyword_search.py:107-119 | before the limit, exactly the chunks sharing a query term are kept, in row order |
| `KeywordSearch.HitsAreTopMatches` | backend/app/services/keyword_search.py:121-122 | the output is the stable top `limit` of the matching chunks |
| `KeywordLaws.OneTermScore` | backend/app/services/keyword_search.py:109-118 | a query matching one term scores ln(1+(n-df+0.5)/(df+0.5)) * 2.5 f / (f+1.5(0.25+0.75 dl/avg)), with df the number of chunks containing the term |
| `KeywordLaws.ScoresAdd` | backend/app/services/keyword_search.py:110-118 | scores of disjoint queries add up, and an unmatched term adds nothing |
| `KeywordLaws.BetterMatchScoresHigher` | backend/app/services/keyword_search.py:109-118 | a rarer term, a higher frequency or a shorter chunk scores higher, all else no worse |
| `KeywordLaws.SearchFindsMatches` | backend/app/services/keyword_search.py:37-122 | blank queries and deny-all find nothing; else the stable top of the matching visible chunks comes back |
| `Retrieval.GatherCandidates` | backend/app/services/retrieval.py:156-173 | the dictionary of candidates is the union of both legs in order, with the legs and scores of each chunk |
| `Retrieval.FusionScores` | backend/app/services/retrieval.py:198-211 | the dictionary of reciprocal ranks, summed and normalised, equals the fusion score of each chunk |
| `Retrieval.MinMax` | backend/app/services/retrieval.py:214-220 | normalised values lie in [0, 1] and keep the order |
| `Retrieval.ScoreCandidates` | backend/app/services/retrieval.py:175-192 | rerank scores are normalised and blended with the fusion scores by the configured weight |
| `Retrieval.HybridSearch` | backend/app/services/retrieval.py:118-195 | the whole search computes its specification: guard, both legs, join, rescore, sort, cut |
| `Retrieval.UnionCount` | backend/app/services/retrieval.py:156-173 | the join has one candidate per distinct chunk id of the two legs |
| `Retrieval.HybridShape` | backend/app/services/retrieval.py:134-195 | results are sorted, duplicate-free, visible, min(final_k, union size) many, and name exactly the legs containing them |
| `Retrieval.BlendedInUnit` | backend/app/services/retrieval.py:179-195 | with a weight in [0, 1) every final score lies in [0, 1] |
| `Retrieval.FusionRespectsRanks` | backend/app/services/retrieval.py:198-220 | a chunk ranked no worse wherever another appears gets no lower fusion score |
| `RetrievalLaws.DenseLegIsClosest` | backend/app/services/retrieval.py:85-106 | the dense leg holds k visible rows or all, each with its own cosine, closest first; a row left out is no closer than any kept |
| `RetrievalLaws.CloseRowsAreCandidates` | backend/app/services/retrieval.py:138-154 | a visible row with fewer than the candidate count of rows at least as close is reranked |
| `RetrievalLaws.BothLegsAreCandidates` | backend/app/services/retrieval.py:138-168 | a visible row is a candidate exactly when the dense leg or, with BM25 on, the keyword leg has it |
| `RetrievalLaws.SearchReturnsBest` | backend/app/services/retrieval.py:175-220 | the answer is the best final_k candidates by the raw rerank score or, below weight 1, by the blend of min-max rerank scores with min-max sums of 1/(60+rank) |
| `Retriever.MergeResults` | backend/app/agents/nodes.py:165-180 | the inner loop keeps for each chunk the best hit, in first-seen order |
| `Retriever.MergeSubqueries` | backend/app/agents/nodes.py:165-180 | the outer loop merges the result lists of all sub-queries |
| `Retriever.RunRetriever` | backend/app/agents/nodes.py:154-202 | the node returns the top of the merge with file names |
| `Retriever.MergeIsBest` | backend/app/agents/nodes.py:165-180 | the merge holds every retrieved chunk once, with its best score |
| `Retriever.LostMeansFull` | backend/app/agents/nodes.py:165-183 | a chunk lost to an early cut was pushed out by k others at least as good |
| `Retriever.TruncationKeepsScores` | backend/app/agents/nodes.py:165-183 | cutting each ranking to k before the merge gives the top-k score sequence of merging the full rankings |
| `Truncation.SmallGroupsSurvive` | backend/app/agents/nodes.py:165-183 | when at most k chunks score v or more, the cut loses none of them |
| `Truncation.TruncationKeepsSet` | backend/app/agents/nodes.py:165-183 | unless two chunks tie across the k-th place, the cut returns the same chunks with the same scores, whatever ties there are elsewhere |
| `Truncation.SetKeptIff` | backend/app/agents/nodes.py:165-183 | with such a tie it returns the same set exactly when both merge dictionaries start the last tie group with the same chunks |
| `Truncation.ChunksKeptIff` | backend/app/agents/nodes.py:165-183 | it returns the same sequence exactly when both dictionaries start every tie group alike, as far as the answer reaches into it |
| `Truncation.TruncationKeepsChunks` | backend/app/agents/nodes.py:165-183 | in particular without a tie across the k-th place and without equal returned scores |
| `Truncation.MergeOrder` | backend/app/agents/nodes.py:165-180 | the merge dictionary lists chunks by first appearance in the result lists |
| `Truncation.RetrieverKeepsChunksIff` | backend/app/agents/nodes.py:154-202 | for the node as it runs: its output equals that of uncut rankings exactly under that condition |
| `TruncationWitness.TiesCanChangeChunks` | backend/app/agents/nodes.py:165-183 | three rows, three sub-queries and an engine with the shipped rerank weight for which the node returns another chunk than uncut rankings would |
| `Retriever.RetrieverLosesNothing` | backend/app/agents/nodes.py:154-202 | for the node as it runs, its scores are those of the uncut rankings of `hybrid_search` |
| `RetrieverLaws.RetrievedAreBest` | backend/app/agents/nodes.py:154-202 | each returned chunk is a result of some sub-query, told with its own text, place, score and file name; every result is there at its best score or no better than all that is |
| `Retriever.RetrievedAreAllowed` | backend/app/agents/nodes.py:158-201 | every retrieved chunk is a row of the tenant in an allowed document |
| `Retriever.HiddenRowsAreUnobservable` | backend/app/services/retrieval.py:92-105 | databases that agree on the rows visible to the caller give identical chunks, scores and order |
| `Retriever.AddingHiddenRows` | backend/app/services/keyword_search.py:88-105 | hidden rows may be added anywhere in the table without any effect |
| `Citations.BuildCitations` | backend/app/agents/nodes.py:286-302 | the loop over the sorted markers builds the citation list |
| `Citations.MarkersAreCited` | backend/app/agents/nodes.py:288 | the markers found are exactly those written in the answer, ascending, each once |
| `Citations.WrittenMarkersAreCited` | backend/app/agents/nodes.py:286-302 | a bracketed decimal number anywhere in the answer cites the chunk of that number |
| `Citations.CitationsMatchMarkers` | backend/app/agents/nodes.py:286-302 | there is one citation for each marker in the answer that numbers a chunk, and no other |
| `Citations.CitedAreAllowed` | backend/app/agents/nodes.py:286-302 | every cited document is one the caller may see, whatever the answer says |
| `ModelRouter.SensitivityIsMonotone` | backend/app/services/model_router.py:75-100 | a higher classification never relaxes a route, for callers that pass one |
| `Workflow.BuildWorkflow` | backend/app/agents/workflow.py:21-44 | the builder calls yield exactly the nodes, the plain edges and the one conditional edge, with its router function and its path map |
| `Workflow.Invoke` | backend/app/agents/workflow.py:29-44 | following the built graph from its start is the specified run |
| `Workflow.Ask` | backend/app/api/v1/query.py:149-190 | the graph handler stores the summarised row, reports approval exactly for a held one, and keeps calls home |
| `Workflow.TrailEnds` | backend/app/agents/nodes.py:123-283 | the state the graph ends in is persisted as the summary of planning, retrieval, verification and synthesis says |
| `AnswerLaws.PlannerSettles` | backend/app/agents/nodes.py:137-150 | the sub-queries are the first stripped, non-blank proposals, and the question itself without any or after an error |
| `AnswerLaws.FailureIsHeld` | backend/app/agents/nodes.py:205-232 | with review on and a threshold above zero, a raising verifier or an empty retrieval stores a held row without answer at confidence zero, in both handlers |
| `AnswerLaws.DoubtIsHeld` | backend/app/agents/nodes.py:305-319 | a concern, or a confidence below the threshold, holds the question in both handlers and stores that confidence |
| `AnswerLaws.TrustIsAnswered` | backend/app/agents/nodes.py:240-302 | otherwise the completion, or what the pieces join to, is stored with its citations and the verifier confidence; errors store a failed row or break the stream |
| `AnswerLaws.RefusedIffHomeless` | backend/app/agents/nodes.py:97-133 | both handlers refuse exactly when the self-hosted profile is required and missing |
| `AnswerLaws.CallsMade` | backend/app/agents/nodes.py:121-260 | one planner call, one verifier call if anything was retrieved, one synthesis unless held, each to the routed client |
| `AnswerLaws.StreamTellsEnding` | backend/app/api/v1/query.py:278-327 | a stream prints its tokens and then one event a client reads as the stored row with its citations, the held row, or the refusal |
| `AnswerLaws.TokenOnTheWire` | backend/app/api/v1/query.py:220-221 | the bytes of a printed token |
| `Workflow.GatherEvidence` | backend/app/api/v1/query.py:257-263 | the first three nodes called by hand reach the same decision state |
| `Workflow.AskStream` | backend/app/api/v1/query.py:225-329 | the hand-written driver stores the summarised row and prints the specified events |
| `Workflow.StreamingRefinesGraph` | backend/app/api/v1/query.py:257-327 | graph and streaming handler store the same row, or are refused alike, exactly when synthesis is not reached or gives both the same text without error |
| `Workflow.AnswersOnlyAfterRouting` | backend/app/agents/nodes.py:305-319 | an answer is stored only when the decision chose the synthesizer; a held query has no answer and no citations |
| `Workflow.TrailStaysHome` | backend/app/agents/nodes.py:97-106 | in every run each model call that must stay home uses the self-hosted client |
| `Workflow.NoHomeNoRun` | backend/app/agents/nodes.py:123-133 | without that client such a run ends at the planner: no call, nothing stored |
| `Workflow.SensitivityNeverRoutes` | backend/app/agents/nodes.py:97-106 | the tenant's sensitivity threshold changes no call, no final state and no streamed event |
| `Workflow.EventsArePrinted` | backend/app/api/v1/query.py:278-327 | every event of a stream is one the printer handles |
| `Workflow.BrowserShowsStoredAnswer` | backend/app/api/v1/query.py:290-322 | for every cutting of the stream the token texts shown by the browser join to the stored answer |
| `Workflow.Approve` | backend/app/api/v1/query.py:421-479 | approval stores a fresh answer whatever the status was, keeps the confidence, and leaves the row alone on any failure |
| `Authz.AccessibleDocumentIds` | backend/app/services/authz.py:82-127 | the loop computes owned, visible and granted documents, or no restriction for privileged roles |
| `Authz.AccessFollowsRules` | backend/app/services/authz.py:48-184 | on a live document both checks allow exactly privileged roles, the owner, rep-visibility for VIEW and QUERY, and grants to the user or a group; on any other the set follows grants and the point check refuses |
| `Authz.BulkMatchesPoint` | backend/app/services/authz.py:82-184 | the bulk set and the point check agree except on documents that are not live and named by a grant |
| `Authz.LiveDocumentsAgree` | backend/app/services/authz.py:82-184 | on live documents of the tenant they agree, for every role and permission |
| `Authz.DeletedDocumentStaysInBulk` | backend/app/services/authz.py:121-127 | a soft-deleted document with a grant is in the bulk set and refused by the point check |
| `Authz.GrantAddsItsDocument` | backend/app/services/authz.py:68-79 | a new grant adds exactly its own document, to exactly the principals it names |
| `Authz.MembershipNeverShrinks` | backend/app/services/authz.py:55-65 | a new membership never takes access away |
| `Authz.ScopingNarrows` | backend/app/api/v1/search.py:43-47 | a segment scope intersects, keeps the unrestricted and deny-all meanings, and never widens |
| `Search.Search` | backend/app/api/v1/search.py:25-80 | the endpoint returns the rows of the scoped hybrid search |
| `Search.SearchShowsBest` | backend/app/api/v1/search.py:48-57 | the endpoint shows top_k hits, or all candidates, and the best of them |
| `Search.HitsAreInScope` | backend/app/api/v1/search.py:34-56 | every hit is a row of the tenant that the scope permits |
| `Search.ResultsPassPointCheck` | backend/app/api/v1/search.py:34-80 | when chunks belong to live documents, every result passes the point check for QUERY and carries the asked tag |
| `Search.SearchAfterAnyRun` | backend/app/api/v1/search.py:25-80 | after any lifecycle run in which no deleted blob was ingested, a search shows only live documents the caller may query |
| `Search.ForeignSegmentShowsNothing` | backend/app/api/v1/search.py:43-47 | a segment without a document the caller may query answers nothing |
| `Search.ScopeFollowsRules` | backend/app/api/v1/search.py:34-47 | over live documents the search scope is exactly the QUERY rule and the asked tag |
| `Search.ResultTells` | backend/app/api/v1/search.py:58-80 | a result row tells its chunk, document, score, legs, file name and 400 characters of text |
| `Search.AnswersUseQueryable` | backend/app/agents/nodes.py:154-183 | with live chunk rows the model reads only documents the asker may query |
| `Lifecycle.DocumentService.IntakeDocument` | backend/app/services/ingestion_intake.py:59-117 | checks in order, then blob, row and queued task; on failure nothing changes |
| `Lifecycle.DocumentService.ProcessDocument` | backend/app/services/ingestion.py:33-63 | all chunks are stored, numbered from zero, or none and the row is failed |
| `Lifecycle.DocumentService.StoreChunks` | backend/app/services/ingestion.py:91-109 | the loop adds one row per piece, in order |
| `Lifecycle.DocumentService.DeleteDocument` | backend/app/api/v1/documents.py:369-418 | not found, no VIEW and no DELETE are refused in that order; else soft delete, chunk purge, count reset, best-effort blob removal |
| `Lifecycle.DeletionNeedsBothPermissions` | backend/app/api/v1/documents.py:376-397 | deletion succeeds exactly for a live document the caller can find and administers, owns or was granted DELETE on; one it cannot find answers like a missing one |
| `Lifecycle.IntakeKeepsOk` | backend/app/services/ingestion_intake.py:59-117 | intake keeps the table invariant |
| `Lifecycle.ProcessKeepsOk` | backend/app/services/ingestion.py:33-131 | ingestion keeps it, whatever the pipeline does |
| `Lifecycle.RemoveKeepsOk` | backend/app/api/v1/documents.py:399-418 | deletion keeps it and leaves no row of the document |
| `LifecycleLaws.IntakeRules` | backend/app/services/ingestion_intake.py:59-117 | empty, infected and over-quota files are refused in this order; else exactly the row, blob and task appear |
| `LifecycleLaws.CompletingRules` | backend/app/services/ingestion.py:91-109 | success appends one row per piece with its text, embedding and number, and completes the document |
| `LifecycleLaws.FailingRules` | backend/app/services/ingestion.py:48-131 | failure keeps all rows and stores the first 2000 characters of the message |
| `LifecycleLaws.DeletingRules` | backend/app/api/v1/documents.py:399-418 | deletion marks and empties the row and drops its chunks and no others |
| `LifecycleLaws.UploadIsRetrievable` | backend/app/services/ingestion.py:33-131 | each piece of an ingested upload is visible to retrieval for exactly the members of its tenant who may query it |
| `LifecycleRuns.ChunksTrackDocuments` | backend/app/services/ingestion.py:33-131 | after every run: each document has exactly chunk_count rows numbered from zero, completed live ones some, failed ones none, and none stays in progress |
| `LifecycleRuns.StepAndLiveness` | backend/app/api/v1/documents.py:399-416 | one step keeps chunk rows on live documents exactly unless it ingests a deleted document whose blob survived |
| `LifecycleRuns.DeletedContentStaysGone` | backend/app/api/v1/documents.py:399-416 | over every run chunk rows belong to live documents exactly when no such ingestion happened |
| `LifecycleRuns.ReliableStorageKeepsDeletedGone` | backend/app/api/v1/documents.py:413-416 | if every deletion removes its blob, deleted content never resurfaces |
| `LifecycleRuns.SurvivingBlobResurfaces` | backend/app/api/v1/documents.py:413-416 | upload, delete with the blob left behind, ingest: a deleted document with a chunk row |
| `LifecycleRuns.DocumentQuotaHolds` | backend/app/services/billing_service.py:101-115 | over every run the live documents of a tenant stay within the limit of the plan in force, in every state, exactly when no plan change leaves a lower limit |
| `Batch.UploadBatch` | backend/app/api/v1/documents.py:164-199 | a batch succeeds exactly when its good files fit the plan; then each file is answered in order; otherwise only blobs remain |
| `Batch.UploadOne` | backend/app/api/v1/documents.py:166-197 | a bad file is rejected with its reason; only the plan limit ends the request |
| `Batch.BatchFails` | backend/app/services/ingestion_intake.py:65-68 | the quota refusal on the way means more good files than room |
| `Batch.FlawsInOrder` | backend/app/api/v1/documents.py:166-197 | type, size, emptiness and malware are checked in this order and named so |
| `Team.TeamService.Create` | backend/app/services/invitation_service.py:66-111 | quota and both duplicate checks in order, then one pending row and the display key |
| `Team.TeamService.Accept` | backend/app/services/invitation_service.py:114-171 | every failure leaves the tables alone; success adds the user and closes the invitation |
| `Team.TeamService.Regenerate` | backend/app/services/invitation_service.py:186-202 | only the hash of a pending invitation changes |
| `Team.TeamService.RevokeInvitation` | backend/app/services/invitation_service.py:205-211 | the status becomes revoked, whatever it was |
| `Team.TeamService.AddUser` | backend/app/api/v1/admin.py:107-125 | duplicate check over all rows, then the quota, then one active user |
| `Team.TeamService.Update` | backend/app/api/v1/admin.py:156-163 | role and activity change, without a quota check |
| `Team.TeamService.Deactivate` | backend/app/api/v1/admin.py:185-190 | a soft delete of another live user of the tenant |
| `Team.TeamService.Erase` | backend/app/services/compliance_service.py:75-158 | the subject is found by id or email among all rows, deactivated, soft-deleted and moved to a placeholder email |
| `Team.TeamService.ChangePlan` | backend/app/services/billing_service.py:275-282 | the subscription takes the plan key of the event |
| `Team.InvitingTakesASeat` | backend/app/services/billing_service.py:101-115 | an invitation takes one seat, and none is issued when the plan in force has none free |
| `Team.AcceptingConservesSeats` | backend/app/services/invitation_service.py:150-160 | accepting moves one seat from pending to active: the sum is unchanged for every tenant |
| `Team.RegeneratingConservesSeats` | backend/app/services/invitation_service.py:186-202 | regenerating moves no seat |
| `Team.RevokingFreesPendingSeats` | backend/app/services/invitation_service.py:205-211 | revoking frees a seat exactly when the invitation was pending |
| `Team.CreatingTakesASeat` | backend/app/api/v1/admin.py:115-125 | a created user takes one seat, and none is created when the plan in force has none free |
| `Team.UpdatingMovesSeats` | backend/app/api/v1/admin.py:161-162 | an update moves one seat exactly when it flips the activity |
| `Team.DeactivatingFreesActiveSeats` | backend/app/api/v1/admin.py:188-190 | deactivating frees a seat exactly when the user was active |
| `Team.ErasingFreesActiveSeats` | backend/app/services/compliance_service.py:156-158 | an erasure frees a seat exactly when the user was active |
| `Billing.LimitsAsSold` | backend/app/services/plans_data.py:36-58 | the limits in force, in numbers, by subscription, default plan and billing switch |
| `TeamLaws.InvitingRules` | backend/app/services/invitation_service.py:66-111 | when an invitation is issued, with which error it is refused, and the row it writes |
| `TeamLaws.AcceptingRules` | backend/app/services/invitation_service.py:114-171 | the errors of a join in order, the user it adds and how it closes the invitation |
| `TeamLaws.RegeneratingRules` | backend/app/services/invitation_service.py:186-202 | a new key replaces only the hash of a pending invitation of the tenant |
| `TeamLaws.RevokingRules` | backend/app/services/invitation_service.py:205-211 | revoking replaces only the status |
| `TeamLaws.AddingRules` | backend/app/api/v1/admin.py:107-125 | a user is added without any row of that email and with a free seat |
| `TeamLaws.UpdatingRules` | backend/app/api/v1/admin.py:146-163 | an update writes the given role and activity and nothing else; nobody deactivates themselves |
| `TeamLaws.RemovingRules` | backend/app/api/v1/admin.py:178-190 | a removal marks another live user deleted and inactive, and keeps the email |
| `TeamLaws.ErasingRules` | backend/app/services/compliance_service.py:75-158 | an erasure finds its subject among all rows and leaves it deleted under a placeholder email of its own |
| `TeamRuns.StepAndBound` | backend/app/services/billing_service.py:72-115 | from within the seats of the plan in force, one step exceeds them exactly when it reactivates a user with all seats taken or changes to a plan with fewer seats than are taken |
| `TeamRuns.SeatBoundOverRuns` | backend/app/services/billing_service.py:72-115 | over every run, plan changes included, active users plus pending invitations stay within the seats in force in every state exactly when no such step occurs |
| `TeamRuns.BillingOffNeverBinds` | backend/app/services/billing_service.py:101-115 | while billing is off every run is within its limit |
| `TeamRuns.ReactivationOverfills` | backend/app/api/v1/admin.py:161-162 | a run from an owner on the trial plan that ends with four active users on three seats |
| `TeamRuns.RunKeepsSound` | backend/app/services/invitation_service.py:86-94 | over every run users are unique and each tenant and email has at most one pending invitation |
| `TeamRuns.AdmitsAtMostOne` | backend/app/services/invitation_service.py:125-160 | over every run an invitation admits at most one user, and none once accepted or revoked |
| `TeamRuns.OnlyLatestKeyAdmits` | backend/app/services/invitation_service.py:125-160 | after every run a join succeeds exactly for the latest key of a pending, unexpired invitation whose email no user row has, and adds one user with the invited email and role |
| `TeamRuns.GenericErrorWithoutKey` | backend/app/services/invitation_service.py:117-148 | the generic error answers exactly the requests without the latest key of a pending, unexpired invitation |
| `TeamRuns.TypedCopyAdmits` | backend/app/services/invitation_service.py:46-48 | any copy of the displayed key, in either case and with stray characters, admits the invited teammate |
| `TeamRuns.ExpiredInvitationBlocks` | backend/app/services/invitation_service.py:86-94 | an expired invitation that nobody revokes stays pending over every run, admits nobody and blocks new invitations for its email |
| `TeamRuns.RemovedEmailBlockedUntilErased` | backend/app/services/invitation_service.py:140-160 | over every run the email of a removed user stays blocked exactly as long as its row is not erased, and until then nobody joins with it |
| `TeamRuns.RemovedEmailIsInvited` | backend/app/services/invitation_service.py:76-94 | an invitation for such an email is issued exactly when a seat is free and none is pending |
| `TeamRuns.ErasureFreesEmail` | backend/app/services/compliance_service.py:156-158 | the erasure of the row leaves no row with the email |
| `TeamRuns.ErasureAdmits` | backend/app/services/invitation_service.py:140-160 | the holder of the right key for such an email is refused by the constraint, and admitted once the row is erased |
| `InviteKeys.NormalizeRecoversKey` | backend/app/services/invitation_service.py:46-48 | for ASCII input normalisation yields the raw key exactly for copies of its grouped display; copies with any other stray characters work too |
| `InviteKeys.DisplayForm` | backend/app/services/invitation_service.py:51-56 | the display is four groups of five joined by dashes |
| `InviteKeys.KeysAreUnambiguous` | backend/app/services/invitation_service.py:39-56 | a key is twenty letters or digits without I, O, 0 and 1 |
| `Evaluation.AveragePrecisionOf` | backend/app/services/evaluation.py:47-59 | the loop computes the mean precision at the relevant positions |
| `Evaluation.AveragePrecisionBounds` | backend/app/services/evaluation.py:47-59 | the score lies in [0, 1] and is 1 exactly when something is relevant and everything relevant comes first |
| `Evaluation.BetterOrderScoresHigher` | backend/app/services/evaluation.py:47-59 | moving a relevant context ahead of an adjacent irrelevant one strictly raises the score |
| `Evaluation.ScoreMeaning` | backend/app/services/evaluation.py:135-153 | all metrics lie in [0, 1]; faithfulness is 1 exactly for grounded answers and 0 exactly for unrelated ones |
| `Evaluation.ScoreCompares` | backend/app/services/evaluation.py:135-153 | which sets the three metrics compare |
| `Evaluation.ShareCounts` | backend/app/services/evaluation.py:135-153 | a share is the number of common terms over the number of terms |
| `Evaluation.AveragePrecisionGrows` | backend/app/services/evaluation.py:47-59 | entry by entry, the value of average precision |
| `Evaluation.MeansOfMetrics` | backend/app/services/evaluation.py:98-105 | a run has the mean of each of the three metrics |
| `Evaluation.GateFollowsItems` | backend/app/services/evaluation.py:99-109 | a run passes exactly when its items add up to every threshold, an empty run or unknown metric counting as zero; all items reaching suffices, all missing one fails |
| `Segments.ValidationMeaning` | backend/app/services/segment_service.py:23-37 | validation succeeds exactly when every id is the tenant's; else it names exactly the foreign ones |
| `Segments.ReplaceObjectionSegments` | backend/app/services/segment_service.py:61-79 | the objection has exactly the given tags, no other tag changes, and foreign ids change nothing |
| `Templates.TemplateService.ApplyTemplate` | backend/app/services/template_service.py:47-115 | the three loops leave the specified tables and report |
| `Templates.TemplateService.CreateSegments` | backend/app/services/template_service.py:55-72 | missing segments are created once and enter the name dictionary |
| `Templates.TemplateService.CreateTopics` | backend/app/services/template_service.py:74-89 | topics whose title did not exist before the pass are created |
| `Templates.TemplateService.CreateObjections` | backend/app/services/template_service.py:91-113 | objections whose label did not exist before the pass are created and tagged |
| `Templates.ResolvedAreTenants` | backend/app/services/template_service.py:108-112 | resolved segment ids belong to the tenant, so tagging is never refused |
| `TemplateLaws.ApplyTwiceIsOnce` | backend/app/services/template_service.py:47-115 | a second application changes nothing and skips every entry, for every template |
| `TemplateLaws.ApplyCovers` | backend/app/services/template_service.py:47-115 | after one application everything the template names exists |
| `TemplateLaws.SegmentsStayUnique` | backend/app/services/template_service.py:64-72 | segment names stay unique whatever the template repeats |
| `TemplateLaws.TopicsStayUniqueIff` | backend/app/services/template_service.py:74-89 | topics stay unique exactly when no missing title repeats in the template |
| `TemplateLaws.ObjectionsStayUniqueIff` | backend/app/services/template_service.py:91-113 | the same for objection labels |
| `TemplatesData.ShippedKeepUnique` | backend/app/services/templates_data.py:36-101 | both shipped templates keep segments, topics and objections unique on every tenant that has them unique |
| `TemplateLaws.RepeatedTitleIsCreatedTwice` | backend/app/services/template_service.py:74-89 | a hypothetical template that repeated a missing title would create two topics |
| `TemplateLaws.TagsFollowTemplate` | backend/app/services/template_service.py:99-113 | each created objection carries exactly the segments its definition names |
| `TemplateLaws.OtherTagsStay` | backend/app/services/template_service.py:108-112 | tags of earlier objections are untouched |
| `TemplateLaws.OtherTenantsUnchanged` | backend/app/services/template_service.py:47-115 | the rows and tags of every other tenant are equal before and after |
| `TemplateLaws.TopicRows` | backend/app/services/template_service.py:74-89 | the topic rows added are those of the missing titles, with question and position |
| `TemplateLaws.ObjectionRows` | backend/app/services/template_service.py:91-113 | the objection rows added are those of the missing labels, with prompt and position |
| `TemplateLaws.SegmentRows` | backend/app/services/template_service.py:64-72 | a missing segment is added once, at its first position in the list |
| `TemplateLaws.SiftPartitions` | backend/app/services/template_service.py:80-113 | each topic or objection is reported once, created if missing, skipped if present |
| `TemplateLaws.SegmentCreatedIff` | backend/app/services/template_service.py:64-72 | a segment is reported created exactly when listed and missing |
| `TemplateLaws.SegmentCreatedOnce` | backend/app/services/template_service.py:64-72 | and once, however often it is listed |
| `TemplateLaws.SegmentsReported` | backend/app/services/template_service.py:64-72 | each listed segment is reported exactly once |
| `Analytics.Pass` | backend/app/services/analytics_service.py:90-128 | the single pass collects exactly the counts, sums, latest instants and first names of the rows |
| `Analytics.LastMeaning` | backend/app/services/analytics_service.py:110-111 | the last activity is the maximum over the rows of the user |
| `Dashboard.BuildOverview` | backend/app/services/analytics_service.py:58-207 | every list of the dashboard is the specified function of the rows in the window |
| `DashboardLaws.WindowIsWhere` | backend/app/services/analytics_service.py:63-69 | the window is the filter of the query table by tenant and start, whatever the status |
| `DashboardLaws.QualityCounts` | backend/app/services/analytics_service.py:90-128 | total, low, held, rejected and citing are counts over the whole query table |
| `DashboardLaws.QualityAverages` | backend/app/services/analytics_service.py:162-170 | the average confidence and the coverage, over the whole query table |
| `DashboardLaws.RepCounts` | backend/app/services/analytics_service.py:130-149 | a rep row tells the user and counts, averages and dates that user's queries of the window |
| `DashboardLaws.TrendCounts` | backend/app/services/analytics_service.py:153-160 | each trend point counts the queries of its UTC day |
| `DashboardLaws.CitedCounts` | backend/app/services/analytics_service.py:172-192 | at most ten documents, each with its number of citations in the window and the file name of the first |
| `DashboardLaws.UncitedTells` | backend/app/services/analytics_service.py:174-181 | at most fifty live documents without a citation in the window, with name and type |
| `DashboardLaws.UploadCounts` | backend/app/services/analytics_service.py:182-195 | the upload list counts the library documents of the window by type |
| `Dashboard.TrendConserves` | backend/app/services/analytics_service.py:153-160 | the trend has consecutive days, never exceeds the total, and sums to it exactly when all rows fall on them |
| `Dashboard.TrendOfWindow` | backend/app/services/analytics_service.py:153-160 | a window of n days has n+1 points ending today and sums to the total exactly without future rows |
| `Dashboard.RepActivityConserves` | backend/app/services/analytics_service.py:102-149 | counts of listed users sum to the total exactly when all askers are listed; over all askers they always do |
| `Dashboard.RepBounds` | backend/app/services/analytics_service.py:106-149 | answered is at most asked is at most total; averages of scores in [0, 1] stay there |
| `Dashboard.RepsAreOrdered` | backend/app/services/analytics_service.py:150 | every live user once, by count then email |
| `Dashboard.QualityBounds` | backend/app/services/analytics_service.py:162-170 | parts never exceed wholes, averages and coverage stay in range |
| `Dashboard.MostCitedIsTop` | backend/app/services/analytics_service.py:173 | the ten listed documents are the top by count, then id, with their true counts |
| `Dashboard.UncitedIsDisjoint` | backend/app/services/analytics_service.py:174-181 | cited and uncited lists are disjoint, and an uncited live document is listed unless fifty others are |
| `Uploads.CountUploads` | backend/app/services/analytics_service.py:182-195 | the loop over the documents gives the sorted counts by content type |
| `Uploads.UploadsConserve` | backend/app/services/analytics_service.py:182-195 | the list names exactly the types uploaded in the window, once each and in order, with true counts that add up to all uploads |

## Left out

- The PostgreSQL paths of both search legs, pgvector and full-text ranking: their meaning lives in the database.
- Network clients (model, embedding, reranker, payment, mail, Notion, object storage): functions or outcomes here.
- Encryption, password hashing and token issuing: chunk texts are plain, hashing is ideal.
- Text extraction and the sentence splitter: any list of pieces, or a failure, is taken as given.
- Floating-point rounding, including the rounded scores and averages in responses.
- Unicode digits in citation markers: `\d` is modelled on ASCII digits.
- Lone UTF-16 surrogates and duplicate object keys in JSON texts, and a `null` payload reaching a stream handler.
- The last, incomplete event of a stream that breaks off: it stays in the buffer, as in the client.
- How the rate limiter derives a client key from headers.
- The state graph library beyond following edges and merging partial states.
- Loading of conversation history (it is an input of the workflow), conversation timestamps and saved flags.
- Rejecting a held query: a handler that only sets two fields.
- Question and prompt texts of the shipped templates: they are parameters.
- Audit events, logging, tracing and health checks.
- Sign-up, sessions, API keys, groups administration, ramp, objection and conversation routers: single-row edits.
- Of a subscription webhook, everything but the plan key: status, period and payment ids bind no quota.
- The erasure of a data subject's queries, and the request record around it: the users table is modelled.
- The monthly query counter: a single date-bounded count.
- Extension parsing, segment tags and the notifications of an upload; a batch whose segment ids are foreign.
- The tagging of documents, which repeats that of objections.
- The low-confidence list of the dashboard: a filter and a sort.
- Concurrency between requests, and an ingestion that overlaps a deletion.
- The React pages and components, apart from the stream reader.
