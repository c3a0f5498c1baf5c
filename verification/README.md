# Ticket triage: cache coherence and worker pipeline

This project models two services that share one Postgres database and one Redis.

- The **API** creates tickets, stores embeddings and routing decisions, and answers five reads (status,
  latest routing decision, latest draft, audit trail, similar tickets) through a cache-aside layer.
- The **worker** polls pending tickets and runs each through embed, classify, retrieve and suggest,
  against a provider that may raise anything, or return anything the schema can store, at any call.

The layers, bottom up:

| files | content |
|---|---|
| `Common`, `Json`, `CacheKeys`, `TextPreparation` | canonical JSON, cache keys, text normalisation |
| `Domain`, `Postgres` | table rows, the changes repositories make, a session with its transaction |
| `CacheModel`, `SimilarityKeys`, `CacheStore`, `TicketQueryService` | cached values and what they stand for, which similarity requests share a key, the fail-open Redis wrapper with its metrics, the cached reads |
| `ApiWriters` | the three writing services of the API |
| `Provider`, `ClassificationPolicy`, `EmbeddingService`, `ClassificationService`, `RetrievalService`, `SuggestionService`, `AiWorkflowService` | the stages of a worker run, each a method proved equal to a function of the old state and the provider's outcomes |
| `WorkflowTheorems`, `RunOutcomes` | what every run does, for all provider behaviours; the second over the raw outcomes themselves |
| `PollLoop`, `PollFairness`, `PollPlays` | the poll loop, how long a ticket waits, and that the bound is exact |
| `SerialCoherence` | all serial runs: the cache agrees with the database |
| `Interleaving` | readers and writers step by step: bounded staleness with provenance |

Where the state of a service changes in place the model is a class whose methods state their whole new
state; `Pipeline`, `Embed`, `Loop` and the other functions they are proved equal to are what the lemmas of
`WorkflowTheorems` and the two cache models speak about. `Interleaving.UninterruptedMissIsReadStep` and its
two neighbours show that calls which nobody interrupts are exactly the steps of `SerialCoherence`, and the
read methods of `TicketQueryService` are proved against the same relation `ReadStep`.

## Modelling decisions

- **Keys.** Redis is keyed by the datatype `CacheKey`; `CacheKeys.TextInjective` justifies it: distinct keys
  have distinct texts. UUIDs and SHA-256 digests are strings without colons. SHA-256 is a function
  parameter: the similarity theorems end in "or these two payloads collide", with the payloads named.
- **Order.** `ORDER BY ... LIMIT` is the predicate `OrderedLimit`; rows that tie may come in any order. The
  rows of one transaction carry one `created_at`, so "latest" means "some row of greatest `created_at`".
- **Provider.** Three streams of outcomes, each a function from the call number. Every theorem about a run
  quantifies over all of them. What a provider returns is confined by type to what the schema stores: vectors of
  1536 numbers, dimensions not negative, confidences between 0 and 1.
- **Redis faults.** A call is served, refused, or served with the reply lost. Cached payloads are the
  encoding of a value or text that no validator accepts.
- **Numbers.** Times, confidences, distances and vectors are reals.

## Where the code and its documentation differ

- `docs/ARCHITECTURE.md` line 41 says keys are deleted after durable Postgres writes. The code deletes them
  before the commit (`ai-worker/worker/services/ai_workflow_service.py:158-159` runs inside the transaction
  that `ai-worker/worker/main.py:46` commits; the API commits in `api-service/app/deps.py:30`). The model
  follows the code. `DeleteBeforeCommitMayLeaveStale` gives the run in which a reader then caches a value
  that is already outdated, and `StaleHitOverlapsWriter` shows that an overlap with such a window is the only
  way to a stale hit, apart from deletes that Redis lost.
- A similarity key is built from the default model and dimension where the request omits them, while the
  query then filters by neither. `KeyDecidesAnswers` says exactly for which requests a key determines the answers.
- A pending ticket with `k` others ahead of it is served within `k / batch + 1` polls when only younger tickets
  arrive. But a ticket is dated when its request stores it (`api-service/app/repositories/ticket_repository.py:27`)
  and polls see it once that request has committed, so tickets dated alike, or earlier, may still arrive later.
  `WaitIsExact` counts them: over a fixed schedule of arrivals every play of the loop serves the ticket exactly
  when at some poll `j`, counted from 0, `k` and the arrivals so far that are dated no later come to less than
  `(j + 1) * batch`. `TiesMayStarve` keeps a ticket waiting for any number of polls with arrivals of its very date.
- The cached event summary holds at most 50 items. Through a store, enabled or not, the audit trail of a ticket
  with `n` events cannot be read (`InvalidSummary`) exactly when `n > 50` and `cache_events_max_items` is above 50,
  or negative with `n + cache_events_max_items > 50`, since a negative bound counts from the end. So the safe
  settings are just 0 to 50 (`OtherLimitsOverflow`).

## Model

| member | source | states |
|---|---|---|
| `Json.EscapedCut` | shared-contracts/shared_contracts/cache_keys.py:23-24 | whatever follows a quoted string, the text shows where the string ends and which Unicode scalar values it held (RFC 8259, section 7) |
| `Json.DecimalInjective` | shared-contracts/shared_contracts/cache_keys.py:23-24 | integers of any sign and size print differently |
| `Json.ObjectInjective` | shared-contracts/shared_contracts/cache_keys.py:23-24 | flat canonical objects with one text have the same members, whatever their keys and values |
| `Json.ArrayInjective` | shared-contracts/shared_contracts/cache_keys.py:27-30 | arrays with one text are equal, for any elements and any injective printer without commas and brackets |
| `CacheKeys.Round8` | shared-contracts/shared_contracts/cache_keys.py:27-30 | rounding to eight decimals moves a number by at most half a unit of the last one, and goes to the even one from halfway |
| `CacheKeys.FilterMembersSorted` | shared-contracts/shared_contracts/cache_keys.py:23-43 | the payload's members stand in code point order, as key sorting puts them |
| `CacheKeys.FiltersJsonInjective` | shared-contracts/shared_contracts/cache_keys.py:33-43 | the filters are recovered from the text that is hashed |
| `CacheKeys.SearchKeyDecides` | shared-contracts/shared_contracts/cache_keys.py:27-56 | keys with one text name the same model and dimension; their filters are equal and their query vectors equal to eight decimals, or the two payloads collide under SHA-256 |
| `CacheKeys.TextInjective` | shared-contracts/shared_contracts/cache_keys.py:46-72 | all keys of all kinds have distinct texts, even when a model name contains colons |
| `CacheKeys.KeyFamilyOfText` | api-service/app/cache/redis_cache_store.py:166-174 | the family logged for a built key is its kind, independent of id, model and hashes |
| `TextPreparation.NormalizeIsJoin` | ai-worker/worker/services/text_preparation.py:26-28 | normalising joins the words of a text with single spaces, for any notion of whitespace |
| `TextPreparation.NormalizeSeesWordsOnly` | ai-worker/worker/services/text_preparation.py:26-28 | normalising is idempotent, and texts normalise alike exactly when they have the same words |
| `TextPreparation.TruncateFits` | ai-worker/worker/services/text_preparation.py:36-39 | a shortened text fits its bound exactly when the bound is at least 3 or nothing was cut; shortening is then idempotent |
| `TextPreparation.TruncateKeeps` | ai-worker/worker/services/text_preparation.py:36-39 | a text that is cut ends in an ellipsis, and between what is kept and the cut there are only blanks |
| `TextPreparation.PreparedTextBounded` | ai-worker/worker/services/text_preparation.py:42-60 | prepared text and excerpts are bounded for every masking function, and depend on the words of subject and body only |
| `TextPreparation.PreparedTextSays` | ai-worker/worker/services/text_preparation.py:42-60 | prepared text is, masked, the words of subject and body on a line each, or on one line if the other has none; it is cut only if longer than the bound |
| `TextPreparation.LinesSeparate` | ai-worker/worker/services/text_preparation.py:44-46 | where both parts have words that text determines the words of each |
| `Common.OrderByLimit` | ai-worker/worker/repositories/ticket_repository.py:27-33 | a list of the least rows in order, none left out less than one returned |
| `Postgres.Session.LatestRoutingOf` | api-service/app/repositories/routing_decision_repository.py:38-45 | a routing row of greatest creation time, or none exactly when the ticket has none |
| `Postgres.Session.LatestDraftOf` | api-service/app/repositories/draft_suggestion_repository.py:42-49 | a draft of greatest creation time, or none exactly when the ticket has none |
| `Postgres.Session.ListEvents` | api-service/app/repositories/ticket_event_repository.py:31-37 | all events of the ticket, oldest first |
| `Postgres.Session.SearchSimilar` | ai-worker/worker/repositories/ticket_embedding_repository.py:108-157 | the nearest eligible embeddings, at most the limit |
| `Domain.SearchMeans` | ai-worker/worker/repositories/ticket_embedding_repository.py:108-157 | a search shows active embeddings of known tickets that meet each of its conditions, with the fields of their tickets, nearest first, and leaves one out only of a full list with none farther |
| `Postgres.Session.ListByStatus` | ai-worker/worker/repositories/ticket_repository.py:20-34 | the oldest tickets in the status, at most the limit |
| `CacheModel.FreshMeans` | api-service/app/services/ticket_query_service.py:70-172 | what the uncached reads of a ticket answer, written out over the rows: a row of greatest creation time, or none where there is none, and every event once, oldest first |
| `CacheModel.LoadedValueDecodes` | api-service/app/services/ticket_query_service.py:233-319 | decoding a value loaded from any database state gives the row it was made from, or for events the first items of the listing without payloads |
| `CacheModel.ErasedMeans` | api-service/app/services/ticket_query_service.py:158-165 | a shortened listing is the first events in order with all fields but the payload, as many as configured |
| `CacheModel.RoutingFlag` | api-service/app/services/ticket_query_service.py:233-244 | a cached decision says that a human must look exactly when its reason does |
| `CacheModel.ListingHasNoForm` | shared-contracts/shared_contracts/cache_dtos.py:115-117 | the exact settings and lengths for which a listing has no cached form |
| `SimilarityKeys.ExplicitSearchesShareKeys` | api-service/app/services/ticket_query_service.py:184-200 | searches that name model and dimension and share a key ask for the same rows of the same query to eight decimals, or SHA-256 collides |
| `SimilarityKeys.KeyDecidesAnswers` | api-service/app/services/ticket_query_service.py:184-214 | requests of one key get the same answers from every database exactly when they can have none, or name a model and a dimension other than the defaults |
| `SimilarityKeys.OmittedModelSharesKey` | api-service/app/services/ticket_query_service.py:184-214 | a request omitting the model shares its key with one naming the default, and is answered alike by every database exactly when nothing can be found |
| `CacheStore.CacheMetrics.Book` | api-service/app/cache/redis_cache_store.py:47-65 | the counters after a call are those its outcome calls for |
| `CacheStore.RedisCacheStore.GetModel` | api-service/app/cache/redis_cache_store.py:95-132 | the outcome of a read in each of the five cases, what it leaves in Redis, and that counters and last result stay those of the whole history |
| `CacheStore.RedisCacheStore.SetModel` | api-service/app/cache/redis_cache_store.py:134-148 | what a write leaves in Redis under every fault, and nothing at all when disabled |
| `CacheStore.RedisCacheStore.Delete` | ai-worker/worker/cache/redis_cache_store.py:117-130 | removes just the given keys, whether or not the store is enabled |
| `CacheStore.TallyBalances` | api-service/app/cache/redis_cache_store.py:95-163 | in every call history each counter is the number of calls it stands for: each miss has one cause, each successful read and write is counted once, and invalidations are the keys deleted |
| `CacheStore.ReadsAreHitsOrMisses` | api-service/app/cache/redis_cache_store.py:61-72 | reads are hits plus misses, successful reads are reads minus errors; the hit rate lies between 0 and 1, and times the reads it is the hits |
| `CacheStore.LastResultIsLatest` | api-service/app/cache/redis_cache_store.py:27-44 | a result is recorded exactly when a read reached Redis, and it is that of the latest such read |
| `CacheStore.TicketCacheInvalidator.InvalidateStatus` | ai-worker/worker/cache/ticket_cache_invalidator.py:21-22 | removes the status entry of the ticket and no other |
| `CacheStore.TicketCacheInvalidator.InvalidateRouting` | ai-worker/worker/cache/ticket_cache_invalidator.py:24-25 | removes the routing entry and no other |
| `CacheStore.TicketCacheInvalidator.InvalidateDraft` | ai-worker/worker/cache/ticket_cache_invalidator.py:27-28 | removes the draft entry and no other |
| `CacheStore.TicketCacheInvalidator.InvalidateEvents` | ai-worker/worker/cache/ticket_cache_invalidator.py:30-31 | removes the events entry and no other |
| `CacheStore.TicketCacheInvalidator.InvalidateTicketReadModels` | ai-worker/worker/cache/ticket_cache_invalidator.py:33-39 | removes the four entries of the ticket and no other |
| `TicketQueryService.TicketQueryService.GetTicketStatus` | api-service/app/services/ticket_query_service.py:70-87 | one step of the read relation: through an enabled store a live value answers, otherwise a fresh answer is given and kept; without one, or with it disabled, the database answers and Redis is left alone; unknown tickets are never kept |
| `TicketQueryService.TicketQueryService.GetLatestRoutingDecision` | api-service/app/services/ticket_query_service.py:103-122 | the same, after an existence check that precedes the cache |
| `TicketQueryService.TicketQueryService.GetLatestDraftSuggestion` | api-service/app/services/ticket_query_service.py:124-143 | the same for drafts |
| `TicketQueryService.TicketQueryService.GetAuditTrail` | api-service/app/services/ticket_query_service.py:145-172 | the same for events, with the error of a summary that is too long |
| `TicketQueryService.TicketQueryService.SearchSimilarTickets` | api-service/app/services/ticket_query_service.py:174-230 | the same for similarity searches |
| `TicketQueryService.MissExpires` | api-service/app/services/ticket_query_service.py:81-229 | for each of the five reads, a miss through a store that cannot fail leaves the cached form of the rows it found, expiring after just the time set for that read |
| `TicketQueryService.UnknownTicketIsMissing` | api-service/app/services/ticket_query_service.py:106-147 | routing, draft and events of an unknown ticket are not found whatever is cached, and Redis is left alone |
| `ApiWriters.ApiWriteServices.CreateTicket` | api-service/app/services/ticket_intake_service.py:21-47 | the new database state and the keys deleted |
| `ApiWriters.ApiWriteServices.StoreTicketEmbedding` | api-service/app/services/embedding_persistence_service.py:28-61 | the new state and the keys deleted; nothing changes for an unknown ticket |
| `ApiWriters.ApiWriteServices.StoreRoutingDecision` | api-service/app/services/routing_persistence_service.py:28-63 | the new state and the keys deleted; nothing changes for an unknown ticket |
| `ApiWriters.CreateCovers` | api-service/app/services/ticket_intake_service.py:45-46 | creating a ticket spoils no cached value beyond the key it deletes, and touches no other ticket |
| `ApiWriters.StoreEmbeddingCovers` | api-service/app/services/embedding_persistence_service.py:58-60 | the keys deleted include every ticket read the call may spoil |
| `ApiWriters.StoreRoutingCovers` | api-service/app/services/routing_persistence_service.py:59-62 | the keys deleted include every ticket read the call may spoil |
| `ApiWriters.CreateDeletesNoMore` | api-service/app/services/ticket_intake_service.py:45-46 | and the key deleted is that of a read the call changes |
| `ApiWriters.StoreEmbeddingDeletesNoMore` | api-service/app/services/embedding_persistence_service.py:58-60 | every key deleted is that of a read the call changes, save a status that was the new one before |
| `ApiWriters.StoreRoutingDeletesNoMore` | api-service/app/services/routing_persistence_service.py:59-62 | every key deleted is that of a read the call changes, save a status that was the new one before |
| `ApiWriters.CreateStores` | api-service/app/services/ticket_intake_service.py:31-44 | source, subject and body of the new ticket are those of the request; it is dated now, pending, and announced as received with its status |
| `ApiWriters.StoreEmbeddingStores` | api-service/app/services/embedding_persistence_service.py:40-57 | the ticket is embedded; the event names the row now active, with its model and dimension; decisions and drafts stay |
| `ApiWriters.StoreRoutingStores` | api-service/app/services/routing_persistence_service.py:41-58 | one routing row more, named in the event with its target and type; embeddings and drafts stay |
| `ApiWriters.StoreEmbeddingActivates` | api-service/app/services/embedding_persistence_service.py:40-47 | the stored embedding is the only active one of its ticket |
| `ApiWriters.StoreRoutingIsLatest` | api-service/app/services/routing_persistence_service.py:41-49 | a decision stored by hand becomes the latest of its ticket, which is then routed |
| `Provider.WithRetries` | ai-worker/worker/services/embedding_service.py:24-33 | returns or raises the outcome of the last of the calls the limit allows, up to the first success |
| `Provider.RetryIsFirstSuccess` | ai-worker/worker/services/embedding_service.py:24-33 | all calls but the last failed; an error is raised exactly when every allowed call fails |
| `ClassificationPolicy.ApplyClassificationPolicy` | ai-worker/worker/services/classification_policy.py:22-61 | the branches compute the tiers of the policy, decision by decision |
| `ClassificationPolicy.PolicyTiers` | ai-worker/worker/services/classification_policy.py:22-85 | the decision of every raw result, field by field and exactly: labels are kept from the medium bar on, the team also needs the routing bar, escalation and confidences carry over, and the reason names the first bar missed; labels are malformed exactly when outside the taxonomy |
| `ClassificationPolicy.PolicyIsSound` | ai-worker/worker/services/classification_policy.py:22-85 | labels of the taxonomy stay in it; a reason is recorded exactly when a human must look |
| `ClassificationPolicy.FallbackIsSound` | ai-worker/worker/services/classification_policy.py:64-74 | fallbacks are sound too |
| `ClassificationPolicy.ReviewIsAntitone` | ai-worker/worker/services/classification_policy.py:38-50 | more confidence never adds a review, a fallback or a reset of the labels |
| `ClassificationPolicy.UnreviewedIsVerbatim` | ai-worker/worker/services/classification_policy.py:38-50 | no review exactly when both confidences reach their bars, and then the labels pass unchanged; otherwise low confidence means triage |
| `EmbeddingService.EnsureEmbedding` | ai-worker/worker/services/embedding_service.py:54-114 | result, new state, calls made and keys deleted, in every case of reuse, renewal and failure |
| `EmbeddingService.EmbedActivates` | ai-worker/worker/services/embedding_service.py:62-93 | one active embedding at most; a run that goes on has exactly the one it was given, made from the prepared text; a failed renewal leaves none |
| `EmbeddingService.EmbedSays` | ai-worker/worker/services/embedding_service.py:62-93 | reuse asks for nothing and changes nothing; else the stage goes on exactly when some allowed call succeeds, and what that call returned, with the configured model and dimension where it named none, is the active embedding |
| `EmbeddingService.SameWordsReuse` | ai-worker/worker/services/embedding_service.py:58-71 | with the hash of the prepared text, changing only whitespace in a ticket never costs a new embedding |
| `EmbeddingService.ReuseMeansSameWords` | ai-worker/worker/services/embedding_service.py:58-71 | of texts with nothing to mask or cut and words in both parts, only those of the same words share an embedding, or two different texts have one SHA-256 digest |
| `ClassificationService.AskForClassification` | ai-worker/worker/services/classification_service.py:48-89 | the loop ends as the function `Loop` of the outcome stream says, with that many calls |
| `ClassificationService.LoopIsClosedForm` | ai-worker/worker/services/classification_service.py:48-89 | the result of the loop is the one result satisfying a closed form of the stream: which call decides, and how many malformed outputs and errors came before |
| `ClassificationService.ClassifySettles` | ai-worker/worker/services/classification_service.py:48-89 | over the raw outcomes: the calls stop at the first usable result, the second malformed one or the limit; the result is the tiers of that raw result, or a fallback whose reason tells which of these happened |
| `ClassificationService.SettlesOnce` | ai-worker/worker/services/classification_service.py:48-89 | the outcomes leave just one such number of calls and one such classification |
| `ClassificationService.LoopIsSound` | ai-worker/worker/services/classification_service.py:66-97 | whatever the provider returns, what is persisted is sound |
| `ClassificationService.DecisionRows` | ai-worker/worker/services/classification_service.py:95-114 | one row per decision, consecutive ids, same reason and time, nothing else touched |
| `ClassificationService.ClassifyAndPersist` | ai-worker/worker/services/classification_service.py:44-135 | result, new state, calls made and keys deleted |
| `RetrievalService.FindUsableMatches` | ai-worker/worker/services/retrieval_service.py:27-67 | the matches are the nearest embeddings that may match; usable are those near enough, then come the weak ones; the event counts both |
| `RetrievalService.MatchesPartition` | ai-worker/worker/services/retrieval_service.py:45-53 | usable and weak matches partition the answer in order, usable first, and the distance at their head is the least of all and that of a match |
| `RetrievalService.SearchFinds` | ai-worker/worker/services/retrieval_service.py:37-53 | each match is an active embedding of another ticket, of the given model and dimension, created at most the configured days ago, at its distance from the vector, nearest first; one that may match is missing only from a full list with none farther |
| `SuggestionService.MaybeCreateSuggestion` | ai-worker/worker/services/suggestion_service.py:36-98 | result, new state, calls made and keys deleted, in every case |
| `SuggestionService.OneDraftAtATime` | ai-worker/worker/services/suggestion_service.py:41-82 | a draft is added only for usable matches and where none awaits review, and holds what the provider returned |
| `SuggestionService.SuggestSays` | ai-worker/worker/services/suggestion_service.py:41-82 | without usable matches, or with a draft awaiting review, nothing is asked; else a draft is added exactly when some allowed call succeeds, holding what it returned, and if none does the stage fails after all of them |
| `AiWorkflowService.AiWorkflowService.ProcessTicket` | ai-worker/worker/services/ai_workflow_service.py:89-176 | the new state, the provider's new state and the keys deleted are those of `Pipeline`, in every ending |
| `AiWorkflowService.AiWorkflowService.Conclude` | ai-worker/worker/services/ai_workflow_service.py:121-159 | a failed suggestion fails the ticket, otherwise it is routed |
| `AiWorkflowService.AiWorkflowService.Fail` | ai-worker/worker/services/ai_workflow_service.py:162-174 | the failure exit keeps what the run stored so far |
| `WorkflowTheorems.RunTouchesOnly` | ai-worker/worker/services/ai_workflow_service.py:89-174 | an open ticket ends routed or failed; only its rows change and none is removed; a run does nothing and asks nothing exactly when the ticket is unknown, routed or failed |
| `WorkflowTheorems.RunTellsTale` | ai-worker/worker/services/ai_workflow_service.py:99-171 | the kinds of events of a run, in order, for each ending |
| `WorkflowTheorems.RunReportsTruthfully` | ai-worker/worker/services/ai_workflow_service.py:131-157 | the completion event agrees with the database it closes: active embedding, matches, draft, classification |
| `WorkflowTheorems.RunReportsFailure` | ai-worker/worker/services/ai_workflow_service.py:162-171 | the failure event names the exception of the last call made, with the first 200 characters of its message |
| `WorkflowTheorems.RunDecides` | ai-worker/worker/services/classification_service.py:95-114 | no routing row exactly when the ticket was closed or the embedding failed; otherwise four, one per decision type, all with the reason of the classification, labels sound |
| `WorkflowTheorems.RunKeepsUnique` | ai-worker/worker/services/suggestion_service.py:41-44 | no run adds a second active embedding or a second pending draft |
| `WorkflowTheorems.RunDraftsForReview` | ai-worker/worker/services/suggestion_service.py:41-82 | every draft awaits a human, rests on a non-empty list of usable matches, and holds what the last suggestion call returned |
| `WorkflowTheorems.OwnRowsDoNotMatter` | ai-worker/worker/services/retrieval_service.py:37-44 | what a run does to its own ticket does not change what its search can find |
| `WorkflowTheorems.RunUsesItsEmbedding` | ai-worker/worker/services/ai_workflow_service.py:108-119 | a run that gets to retrieve leaves exactly one active embedding, made from the ticket's text; its vector, model and dimension are the ones searched with |
| `WorkflowTheorems.RunBoundsCalls` | ai-worker/worker/services/embedding_service.py:62-80 | at most one more call of each kind than its retry limit; no embedding call when the active one can be reused |
| `WorkflowTheorems.RunCovers` | ai-worker/worker/services/ai_workflow_service.py:158-174 | in every ending the keys deleted include every ticket read the run may have spoiled |
| `RunOutcomes.RunEnds` | ai-worker/worker/services/ai_workflow_service.py:89-174 | the ending of every run read off the database, the settings and the provider's outcomes, as four equivalences |
| `RunOutcomes.RunStoresEmbedding` | ai-worker/worker/services/embedding_service.py:58-114 | over the embedding calls of a run: none where an active embedding of the text can be reused and regeneration is not forced; else the run breaks exactly when no allowed call succeeds, and otherwise the one active row is new and holds what the last call returned |
| `RunOutcomes.RunDraftsExactly` | ai-worker/worker/services/suggestion_service.py:41-82 | over the suggestion calls: a run that retrieved adds exactly one draft if a match is near enough, none awaits review and some allowed call succeeds, and fails after limit + 1 calls if none does; in every other case it makes no such call and adds no draft |
| `RunOutcomes.RunPersists` | ai-worker/worker/services/classification_service.py:91-114 | the four routing rows, each field written out over the raw result of the deciding call, or the fallback with the reason for it |
| `RunOutcomes.RunSettlesOn` | ai-worker/worker/services/classification_service.py:53-89 | the number of classification calls of a run and the classification on its rows are the ones its outcomes settle on |
| `RunOutcomes.RunMatches` | ai-worker/worker/services/retrieval_service.py:37-44 | the matches of a run are the nearest of what may match the embedding it leaves active |
| `RunOutcomes.RunPayloads` | ai-worker/worker/services/ai_workflow_service.py:99-157 | every event a run adds agrees with the provider's outcomes, the matches and the rows the run leaves |
| `RunOutcomes.RunNumbers` | ai-worker/worker/services/ai_workflow_service.py:89-174 | row ids grow along each table and are never used twice |
| `RunOutcomes.RunDeletesNoMore` | ai-worker/worker/services/ai_workflow_service.py:158-174 | every key a run deletes is that of a read it changes, save the drafts of a run that completes without adding one |
| `PollLoop.PollOnce` | ai-worker/worker/main.py:35-53 | one round: the oldest pending tickets are worked one after another, each committed; the cache stays coherent if no delete is lost |
| `PollLoop.PollSettles` | ai-worker/worker/main.py:42-46 | every ticket listed ends routed or failed, no other ticket changes, embeddings and drafts stay unique |
| `PollFairness.LeftBehind` | ai-worker/worker/repositories/ticket_repository.py:27-33 | a ticket a poll leaves waiting was preceded by a full batch no younger than it |
| `PollFairness.WaitIsBounded` | ai-worker/worker/main.py:35-53 | whatever arrives, a ticket is served by the first poll at which those ahead of it, and arrivals so far dated no later, do not fill the batches |
| `PollFairness.NoTicketWaitsForever` | ai-worker/worker/main.py:35-53 | so within k / batch + 1 polls if only younger tickets arrive |
| `PollFairness.PollShortensQueue` | ai-worker/worker/main.py:38-41 | with no arrivals each poll takes its batch, or everything, off the queue |
| `PollFairness.WritesArrive` | api-service/app/services/ticket_intake_service.py:31-39 | every write of either service is an arrival in this sense: only creating a ticket makes one pending |
| `PollFairness.ArrivalsCompose` | ai-worker/worker/main.py:53 | so is any sequence of writes between two polls |
| `PollPlays.WaitIsExact` | ai-worker/worker/repositories/ticket_repository.py:27-33 | over runs of the worker with tickets created between polls, that bound is exact: where it gives no poll, some way of breaking ties leaves the ticket waiting to the end |
| `PollPlays.TiesMayStarve` | ai-worker/worker/repositories/ticket_repository.py:30-31 | from any state with a full batch ahead, finitely many arrivals of the very date of a ticket keep it waiting for any given number of polls |
| `SerialCoherence.WriteKeepsCoherent` | ai-worker/worker/services/ai_workflow_service.py:158-174 | deleting the spoiled keys keeps a coherent cache coherent over the change |
| `SerialCoherence.ReadKeepsCoherent` | api-service/app/services/ticket_query_service.py:70-172 | a read over a coherent cache keeps it coherent and answers like the uncached service, save that it fails exactly when it overflows |
| `SerialCoherence.OtherLimitsOverflow` | shared-contracts/shared_contracts/cache_dtos.py:115-117 | some audit trail overflows exactly when the configured number of items is not between 0 and 50 |
| `SerialCoherence.DisabledReadsPlainly` | api-service/app/cache/redis_cache_store.py:95-97 | with its cache disabled the service answers from the database and leaves Redis alone, and fails only on overflow |
| `SerialCoherence.SerialRunsAreCoherent` | api-service/app/services/ticket_query_service.py:70-172 | in every serial run, at every moment, each ticket entry that decodes is one the current database would produce, embeddings and drafts stay unique, row ids distinct, and every ticket read fails exactly on overflow and refines the uncached one otherwise; with 0 to 50 items always |
| `SerialCoherence.NothingMissingIsCached` | api-service/app/services/ticket_query_service.py:77-87 | neither an unknown ticket nor a missing row is ever cached |
| `Interleaving.EverythingIsTraced` | api-service/app/cache/redis_cache_store.py:95-148 | in every interleaving, every cached value, held value and remembered delete goes back to the step it came from |
| `Interleaving.HitHasProvenance` | api-service/app/services/ticket_query_service.py:70-230 | every hit was loaded from the state committed at its reader's SELECT and stored less than the time set for that kind of request ago, with no delete of the key since; nothing uncommitted is ever cached |
| `Interleaving.StaleHitOverlapsWriter` | api-service/app/deps.py:25-33 | with disciplined writers a stale hit means that its loader, from SELECT to SET, overlapped some transaction, from its delete of that key to the commit of that same transaction |
| `Interleaving.UndisturbedHitIsFresh` | api-service/app/services/ticket_query_service.py:70-172 | a hit whose loader met no such transaction answers like the uncached service |
| `Interleaving.HitsConverge` | api-service/app/services/ticket_query_service.py:70-172 | once writers are quiet, readers that selected before the last commit are done, and the time set for that kind of request has passed, every hit on a ticket key is current, even if every delete was lost |
| `Interleaving.ServiceCallsAreDisciplined` | ai-worker/worker/services/ai_workflow_service.py:158-174 | a transaction made of one call of either service, its deletes served, is disciplined |
| `Interleaving.UninterruptedMissIsReadStep` | api-service/app/services/ticket_query_service.py:70-230 | a miss nobody interrupts is one serial read |
| `Interleaving.UninterruptedHitIsReadStep` | api-service/app/services/ticket_query_service.py:70-230 | a hit nobody interrupts is one serial read |
| `Interleaving.UninterruptedWriteIsSerialStep` | api-service/app/deps.py:25-33 | a transaction nobody interrupts is one serial write |
| `Interleaving.DeleteBeforeCommitMayLeaveStale` | ai-worker/worker/main.py:45-46 | for every call of either service that changes the status of a ticket, a run with disciplined writers that ends in a stale hit |

## Left out

- PollLoop.PollOnce: one round of the endless loop; database faults, and the rollback that follows them at `ai-worker/worker/main.py:47-52`, are not modelled.
- Interleaving.HitHasProvenance: bounds the time since the SET, not since the SELECT, because nothing in the code bounds how long a reader may pause in between.
- Interleaving.StaleHitOverlapsWriter: a transaction's effect on a read is judged against the state its call started from; where two transactions change the same rows at once the merged result is left open.
- Postgres.Session.SearchSimilar: no body excerpts, and the age cutoff is taken at the transaction's start, where the source reads its clock at the query.
- Postgres.Session.ListByStatus: no offset, which no caller in the model uses.
- Provider results the schema refuses: vectors of another length, a dimension below 1, confidences outside 0 to 1, text with NUL characters. Storing one aborts the transaction like any database fault; in the source the ticket then stays pending.
- Query vectors are real numbers: a NaN, an infinity or a negative zero in a request is not modelled, though the array theorem covers printers of them.
- Repositories are functions from one value of type `Db` to the next, not classes; identity maps and flushes of the ORM are not captured.
- The HNSW index is approximate; the model orders exactly.
- Rounding of floats and of confidences to four decimals.
- The e-mail and phone patterns, which are an arbitrary masking function.
- Encoding cached values as JSON text: a payload is either the encoding of one value or undecodable, and its `cached_at` and `schema_version` are dropped.
- Strings with lone surrogates, which the JSON theorems exclude because a Dafny character is a Unicode scalar value.
- Ticket columns `external_id`, `customer_email`, `priority` and `updated_at`, body excerpts in similarity rows, prompt versions in event payloads, and latencies.
- Reads that are not cached: the full ticket, lists by status, whether a ticket is searchable.
- Metrics objects shared by several stores.
- Two workers on one ticket; their safety rests on partial unique indexes in Postgres.
- Provider bodies, prompts, HTTP routes, logging, settings and readiness checks.
