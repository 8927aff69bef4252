# QuickSpin AI assistant — a verified Dafny model

QuickSpin AI is the conversational assistant of a managed-services platform:
developers ask in plain language to provision, troubleshoot or cut the cost
of their Redis, RabbitMQ, PostgreSQL, MongoDB, MySQL and Elasticsearch
instances. This project models, in Dafny, the deterministic logic around the
language-model calls and proves what it promises:

- the keyword intent rules and the per-turn pipeline of the AI engine
  (`ai_engine.dfy`);
- the conversation repository as a store class with a conversation table, a
  message log and a clock (`conversation_repo.dfy`);
- the provisioning, cost-optimisation and diagnosis workflows
  (`provision.dfy`, `optimize.dfy`, `diagnose.dfy`);
- the knowledge-lookup mapping over the vector index (`vector_store.dfy`);
- the authentication decisions (`security.dfy`);
- the chat endpoints' access decisions (`chat_router.dfy`);
- the data models: enumerations, field bounds and defaults
  (`service_model.dfy`, `conversation_model.dfy`, `recommendation_model.dfy`,
  `actions.dfy`).

Shared pieces:

- `common.dfy`: `Option`, `Result`, metadata values and the HTTP error.
- `text.dfy`: ASCII lower-casing and Python's substring test.
- `seqs.dfy`: Mongo's skip/limit and Python's `s[-n:]` and `reversed`.
- `sorting.dfy`: Python's stable `sorted(..., reverse=True)`.

Every collaborator whose behaviour is not modelled is a parameter:

| Collaborator | How it is modelled |
|---|---|
| Text generator | `Llm.TextGenerator`: a function from a structured prompt to text or an error. |
| Nearest-neighbour search | `VectorStore.IndexSearch`. |
| Platform API | `Platform.PlatformClient`, a record of functions. |
| Local JWT decoding | `Security.LocalDecoder`. |
| Authentication service | `Security.RemoteVerifier`. |
| Rendering of a provisioning proposal as reply text | The `renderProposal` field of `AiEngine.Collaborators`. |

Money, CPU counts and utilisation ratios are Dafny `real`s, so sums and the
0.5 savings factor are exact.

Modelling choices:

- **Identifiers and timestamps.** Conversation ids are natural numbers, and the store hands them out without reuse; this stands for ObjectId uniqueness. Timestamps are ticks of the store's clock, which ticks once per reading (per `utcnow()` call), so `create_conversation`'s two readings give a creation time one tick before the update time, and every timestamp the store hands out is distinct.
- **Mongo cursors.** `limit(0)` means "no limit", and skip is applied before limit.
- **Relevance is not clamped.** The knowledge relevance is `1 - distance`, with no clamping. The code does this, so the model follows the code; a reading that clamps relevance to [0, 1] is not what `app/services/vector_store.py:46` does, and `VectorStore.RelevanceNotClamped` states the difference.
- **Escalation matches substrings.** The escalation keyword `"ha"` is matched as a substring, exactly as in the code. `Provision.LettersHaEscalate` states the consequence, `Provision.AnyCaseHaEscalates` extends it to "HA", "Ha" and "hA", and `Provision.OrdinaryWordsEscalate` is a worked example of it: any message containing the letters "ha" (for example "what" or "chat") is priced at the pro tier.

## Model

| member | source | states |
|---|---|---|
| Text.Lower | app/services/ai_engine.py:108 | the lowered message has the same length and each character is lowered individually |
| Text.FirstContained | app/services/ai_engine.py:115-118 | the first word of the list found in the text: found, and no earlier word is found; none only when no word is found |
| Text.LoweredKeepsLowerCaseWord | app/services/ai_engine.py:108-111 | a lower-case occurrence of a keyword survives lowering the message |
| Text.AnySpellingMatches | app/services/ai_engine.py:108-111 | any spelling of a keyword in upper, lower or mixed case that occurs in the message makes the keyword occur in the lowered message, so the keyword tests ignore case |
| Seqs.Page | app/repositories/conversation_repo.py:95-96 | skip-then-limit returns at most `limit` elements (for a positive limit), element `i` being input element `skip + i` |
| Seqs.RecentIsTail | app/repositories/conversation_repo.py:242-254 | reading newest first with a limit and reversing yields the last `n` of the oldest-first list |
| Seqs.LastNOfLastN | app/services/ai_engine.py:180 | the last `m` of the last `n` are the last `m` when `0 < m <= n` |
| Seqs.ReverseReverse | app/repositories/conversation_repo.py:254 | reversing twice gives the list back |
| Sorting.SortDescSorted | app/workflows/optimize.py:129-133 | the descending sort is in non-increasing key order and is a permutation of its input |
| Sorting.SortDescStable | app/workflows/optimize.py:129-133 | for every key value, the elements with that key keep their input order (Python's sort is stable, also with `reverse=True`) |
| Sorting.SortDescPrefixDominates | app/workflows/optimize.py:129-141 | every input element is among the first `n` of the ranking or costs no more than the `n`-th |
| ServiceModel.ParseServiceType | app/models/service.py:10-18 | parsing returns the type with exactly that value, and fails only for strings no type has |
| ServiceModel.ParseTier | app/models/service.py:21-26 | parsing returns the tier with exactly that value, and fails only for strings no tier has |
| ServiceModel.ParseStatus | app/models/service.py:29-37 | parsing returns the status with exactly that value, and fails only for strings no status has |
| ServiceModel.EnumerationsAreClosed | app/models/service.py:10-37 | six service types including mysql, three tiers and six statuses, each listed once with distinct values |
| ServiceModel.DefaultConfig | app/models/service.py:43-54 | a configuration given only its type has tier starter, 256 MB, 0.5 cores, 1 GB, one replica, no backup or HA, empty custom config, and is within the field bounds |
| ServiceModel.NewService | app/models/service.py:86-94 | a service given only its required fields has empty connection info and metrics and an hourly cost of 0.0 |
| ConversationModel.ParseRole | app/models/conversation.py:10-15 | the roles are exactly user, assistant and system |
| ConversationModel.NewConversation | app/models/conversation.py:46-56 | a new conversation has the given id, owner and organisation, title "New Conversation", message count 0 and empty metadata; its two times are two clock readings, creation first |
| ConversationModel.NewChatRequest | app/models/conversation.py:78-86 | a request given only its message has no conversation id and empty context, and is valid iff the message has 1..4000 characters |
| ConversationModel.NewChatResponse | app/models/conversation.py:105-113 | a response given only its required fields has no intent, no actions and empty metadata |
| RecommendationModel.RecommendationEnumerationsAreClosed | app/models/recommendation.py:9-25 | five recommendation types and four priorities, each listed once with distinct values |
| RecommendationModel.NewRecommendation | app/models/recommendation.py:36-52 | a recommendation given only its required fields has no service id, 0.0 savings, no actions and empty metadata |
| RecommendationModel.NewCostAnalysis | app/models/recommendation.py:80-92 | a cost analysis given only total and breakdown has no top services and 0.0 potential |
| RecommendationModel.EmptyRecommendationResponse | app/models/recommendation.py:117-128 | the default response has no recommendations, no cost analysis and 0.0 savings |
| VectorStore.CategoryFilter | app/services/vector_store.py:36 | a filter is set exactly when the category is present and non-empty, and then it is that category |
| VectorStore.CombineHits | app/services/vector_store.py:40-50 | one item per document in document order, item `i` pairing document `i`, metadata `i` and relevance `1 - distance i`; an `IndexError` when a parallel list is shorter |
| VectorStore.SearchKnowledge | app/services/vector_store.py:19-50 | the index is asked once with the category filter; its failure propagates and its result is combined as above |
| VectorStore.RelevanceNotClamped | app/services/vector_store.py:40-50 | for every hit, the relevance is negative exactly when the distance exceeds 1, and above 1 exactly when the distance is negative: no clamping |
| VectorStore.Contents | app/services/ai_engine.py:176 | the contents of the items, one per item, in order |
| VectorStore.KnowledgeBase.AddKnowledge | app/services/vector_store.py:52-64 | the documents and metadatas are appended unchanged |
| VectorStore.KnowledgeBase.InitializeKnowledgeBase | app/services/vector_store.py:66-70 | the seed documents are added only when the index is empty; otherwise nothing changes |
| ConversationRepo.MessagesOfAppend | app/repositories/conversation_repo.py:214 | selecting a conversation's messages distributes over concatenation of logs |
| ConversationRepo.MessagesOfMembers | app/repositories/conversation_repo.py:214 | the selected messages are messages of the log with that conversation id |
| ConversationRepo.MessagesOfChronological | app/repositories/conversation_repo.py:214-215 | a selection of a timestamp-ordered log is timestamp-ordered |
| ConversationRepo.MessagesNotOfKeepsOthers | app/repositories/conversation_repo.py:148 | deleting one conversation's messages leaves every other conversation's messages as they were |
| ConversationRepo.MessagesNotOfChronological | app/repositories/conversation_repo.py:148 | the messages left by the cascade delete stay in timestamp order |
| ConversationRepo.DeleteAbsentKeepsValid | app/repositories/conversation_repo.py:147-148 | deleting the messages of an id with no conversation keeps the store consistent |
| ConversationRepo.LogAfterDelete | app/repositories/conversation_repo.py:147-148 | after the cascade no message of the conversation remains and the log stays consistent |
| ConversationRepo.CreateKeepsValid | app/repositories/conversation_repo.py:44-57 | inserting a fresh conversation keeps ids unique and message counts equal to message numbers, and makes it findable |
| ConversationRepo.SaveKeepsValid | app/repositories/conversation_repo.py:174-192 | appending a message and incrementing its conversation's count keeps every count equal to that conversation's number of messages |
| ConversationRepo.UpdateKeepsValid | app/repositories/conversation_repo.py:123-135 | an update of time, title or metadata keeps the store consistent |
| ConversationRepo.DeleteKeepsValid | app/repositories/conversation_repo.py:147-153 | removing a conversation and its messages keeps the store consistent and removes exactly that conversation |
| ConversationRepo.ConversationStore.GetConversation | app/repositories/conversation_repo.py:59-73 | the conversation with that id if one exists, otherwise none |
| ConversationRepo.ConversationStore.CreateConversation | app/repositories/conversation_repo.py:25-57 | a new conversation with a fresh id, count 0, the given or default title, the given metadata or `{}`, created one tick before it is updated, appended to the table; with the defaults it is the model's `NewConversation`; no other lookup and not the log changes |
| ConversationRepo.ConversationStore.SaveMessage | app/repositories/conversation_repo.py:155-194 | exactly one message with the given conversation, role, content and metadata (default `{}`) is appended; its conversation's count goes up by one and its update time is refreshed; no other conversation changes |
| ConversationRepo.SavedRowsKeepOthers | app/repositories/conversation_repo.py:185-192 | the count increment touches only its own conversation: every other lookup is unchanged |
| ConversationRepo.ConversationStore.UpdateConversation | app/repositories/conversation_repo.py:106-135 | the update time always changes; title and metadata change only when given; true iff the conversation exists |
| ConversationRepo.ConversationStore.DeleteConversation | app/repositories/conversation_repo.py:137-153 | every message of the id is deleted even if the conversation is absent; the conversation is removed; the result is true iff it existed; other lookups are unchanged |
| ConversationRepo.ConversationStore.GetMessages | app/repositories/conversation_repo.py:196-225 | the conversation's messages only, in ascending timestamp order, skip then limit |
| ConversationRepo.ConversationStore.GetRecentMessages | app/repositories/conversation_repo.py:227-254 | the last `count` messages of the conversation (all for 0), in chronological order: a suffix of the `get_messages` order |
| ConversationRepo.ConversationStore.ListConversations | app/repositories/conversation_repo.py:75-104 | a page of the user's own conversations, most recently updated first |
| ConversationRepo.ListingIsOwnedAndRecentFirst | app/repositories/conversation_repo.py:92-97 | every listed conversation belongs to the user, and update times do not increase along the page |
| Provision.Requirements | app/workflows/provision.py:45-109 | documentation-lookup failure and an unknown type fail; otherwise the type (default redis), tier pro iff the message escalates, memory 256/512 quadrupled on escalation, cpu 0.5 or 1.0, storage 1, within all bounds |
| Provision.ExtractRequirements | app/workflows/provision.py:88-109 | the step-by-step locals compute exactly the specified configuration |
| Provision.EstimateHourlyCost | app/workflows/provision.py:111-128 | starter 0.01, pro 0.04, enterprise 0.15, always positive |
| Provision.HourlyCostIncreasesWithTier | app/workflows/provision.py:122-126 | a tier later in the enumeration's order (starter, pro, enterprise) costs strictly more per hour, and conversely |
| Provision.EscalationQuadruplesMemoryAndPrice | app/workflows/provision.py:98-101 | an escalated request has four times the base memory and four times the starter price |
| Provision.LettersHaEscalate | app/workflows/provision.py:98 | any message containing the lower-case letters "ha" escalates |
| Provision.AnyCaseHaEscalates | app/workflows/provision.py:97-98 | a message containing "ha" in any case ("HA", "Ha", "hA") escalates |
| Provision.OrdinaryWordsEscalate | app/workflows/provision.py:98 | worked example of `LettersHaEscalate`: "what is a chat queue" escalates to the pro tier |
| Provision.ServiceName | app/workflows/provision.py:155-156 | `{type}-{tier}`, whose length always passes the 3..50 rule |
| Provision.Execute | app/workflows/provision.py:130-184 | exactly one pending `provision_service` action with the name, the extracted config and its hourly cost; monthly cost = 720 × hourly; the config and name are valid; extraction errors propagate |
| Provision.ProvisionService | app/workflows/provision.py:186-225 | success with the platform's service iff the request validates and the call succeeds; every failure is returned as data |
| Provision.InvalidNameNeverReachesPlatform | app/workflows/provision.py:203-204 | a name outside 3..50 fails the same way whatever the platform would answer |
| Provision.ProposalIsProvisionable | app/workflows/provision.py:154-205 | confirming a proposed action fails exactly when the platform call fails |
| Optimize.AnalyzeUsage | app/workflows/optimize.py:45-97 | the loop builds exactly the specified recommendations, in service order |
| Optimize.RecommendationShape | app/workflows/optimize.py:76-94 | every recommendation is a medium-priority rightsizing with one downgrade of its own service to starter |
| Optimize.RecommendationsAppend | app/workflows/optimize.py:58-97 | recommendations of concatenated listings are the concatenation: one per service at most, in order |
| Optimize.RecommendedExactlyTheUnderutilized | app/workflows/optimize.py:66-71 | each running service using under 30% of positive memory is recommended, and every recommendation belongs to such a service |
| Optimize.ThresholdIsStrict | app/workflows/optimize.py:71 | exactly 30% use gets no recommendation |
| Optimize.RightsizingFigures | app/workflows/optimize.py:72-93 | savings = 0.5 × 720 × hourly, the service id, one downgrade to starter, the current utilisation |
| Optimize.Breakdown | app/workflows/optimize.py:121-126 | the loop yields one key per type present, each mapped to that type's monthly cost |
| Optimize.BreakdownKeys | app/workflows/optimize.py:122-126 | the breakdown has a key exactly for the types some service has |
| Optimize.BreakdownStep | app/workflows/optimize.py:126 | one more service adds its monthly cost under its own type |
| Optimize.BreakdownSumsToTotal | app/workflows/optimize.py:117-126 | the breakdown's values add up to the total monthly cost |
| Optimize.TopExpensive | app/workflows/optimize.py:134-142 | min(5, n) entries |
| Optimize.ByCostIsStableRanking | app/workflows/optimize.py:129-133 | the ranking is non-increasing in hourly cost, a permutation, and keeps listing order among equal costs |
| Optimize.TopExpensiveOrdered | app/workflows/optimize.py:134-142 | the entries are in non-increasing monthly cost, entry `i` being the `i`-th ranked service at 720 × hourly |
| Optimize.TopExpensiveDominates | app/workflows/optimize.py:129-142 | every service left out of the top entries costs no more than the last entry |
| Optimize.PotentialIsHalfOfUnderusedCost | app/workflows/optimize.py:72-148 | the potential is half the monthly cost of the under-used services |
| Optimize.UnderusedCostAtMostTotal | app/workflows/optimize.py:117-119 | with no negative price, the under-used services cost at most the total |
| Optimize.PotentialAtMostHalfOfTotal | app/workflows/optimize.py:148 | with no negative price, the potential is at most half the total monthly cost |
| Optimize.Report | app/workflows/optimize.py:150-161 | the cost analysis is present and the total potential savings equal its optimisation potential and the sum of the savings |
| Optimize.Execute | app/workflows/optimize.py:99-161 | the listing is called once; its failure propagates; otherwise the report on the listed services |
| Diagnose.GatherDiagnostics | app/workflows/diagnose.py:48-83 | service, then metrics, then 50 log lines; success iff all three succeed, the first failure returned alone |
| Diagnose.AnalysisPrompt | app/workflows/diagnose.py:107-118 | the prompt carries the service type and status, metrics and at most the last 10 log lines |
| Diagnose.AnalyzeIssue | app/workflows/diagnose.py:85-157 | the similar-issue search uses "common_issues" with 2 results; failures propagate; the analysis has the diagnosed service's type |
| Diagnose.AnalysisSeesOnlyLogTail | app/workflows/diagnose.py:117 | two gatherings whose last 10 log lines agree are analysed alike |
| Diagnose.FollowUpActions | app/workflows/diagnose.py:209-213 | three actions: show_logs, restart_service, scale_service, each for the given service |
| Diagnose.Execute | app/workflows/diagnose.py:159-215 | a gathering failure becomes "Failed to gather diagnostics: …"; otherwise the diagnosis with the three actions |
| Diagnose.GatherFailureSkipsAnalysis | app/workflows/diagnose.py:179-183 | on a gathering failure the outcome does not depend on the search or the generator, and its status is "error" |
| Security.HasRole | app/core/security.py:33-35 | true iff the role is among the user's roles |
| Security.IsAdmin | app/core/security.py:37-39 | true iff the user has role "admin" or "owner" |
| Security.DecodeJwtToken | app/core/security.py:80-109 | the decoded payload, or 401 "Could not validate credentials" |
| Security.VerifyTokenWithAuthService | app/core/security.py:42-77 | the body on status 200; 401 on any other status; 503 on a request error |
| Security.UserFromPayload | app/core/security.py:139-157 | 401 "Invalid token payload" iff `sub` is missing; otherwise the claims with defaults "", "", "starter" and ["member"] |
| Security.GetCurrentUser | app/core/security.py:112-157 | local decoding first; the service only when that fails; then the payload mapping |
| Security.LocalDecodeShortCircuits | app/core/security.py:131-136 | a locally decodable token gives the same user whatever the service would answer |
| Security.AuthenticationFailures | app/core/security.py:131-157 | failures are 401 or 503, 503 exactly when both decoding and the request fail, and the local decoding error never reaches the caller |
| Security.DefaultUserIsMember | app/core/security.py:144 | a token without roles gives a member who is not an administrator |
| AiEngine.Classify | app/services/ai_engine.py:104-129 | confidence 0.85; never get_service_info; entities only for provision_service |
| AiEngine.ServiceTypeEntities | app/services/ai_engine.py:113-118 | empty iff no scanned type is mentioned; otherwise only `service_type`, one of the five scanned types |
| AiEngine.ClassifyIsFirstMatchingRule | app/services/ai_engine.py:108-127 | the intent is that of the first keyword group matched, in priority order, else general_question |
| AiEngine.EntityIsFirstTypeMentioned | app/services/ai_engine.py:115-118 | the entity is the first type in scan order that the message mentions |
| AiEngine.ChatNeverProvisionsMysql | app/workflows/provision.py:88-90 | a provisioning request from chat never yields a mysql configuration |
| AiEngine.ProvisionWordsOutrankTrouble | app/services/ai_engine.py:109-124 | worked example of `ClassifyIsFirstMatchingRule`: "I need help with an error" is a provisioning request |
| AiEngine.DetectIntent | app/services/ai_engine.py:98-129 | the generator's failure propagates; its text is ignored and the keyword classification returned |
| AiEngine.GeneratedClassificationIgnored | app/services/ai_engine.py:99-129 | any two answering generators give the same classification |
| AiEngine.KnowledgeCategory | app/services/ai_engine.py:143-149 | setup, common_issues, best_practices for the three mapped intents, no filter otherwise |
| AiEngine.HistoryLines | app/services/ai_engine.py:267-269 | one role/content line per message, in order |
| AiEngine.ReplyPrompt | app/services/ai_engine.py:176-181 | the prompt carries the message and at most five history lines |
| AiEngine.HistoryWindow | app/services/ai_engine.py:176-181 | the last 5 of the 10 most recent are the last 5, and the message just saved is the last line |
| AiEngine.OpenConversation | app/services/ai_engine.py:231-245 | the requested conversation when given and found (with no owner check), and then nothing is written; otherwise exactly one conversation is appended, owned by the caller and their organisation, with the default title, no messages and empty metadata, and every other lookup is unchanged |
| AiEngine.Respond | app/services/ai_engine.py:255-289 | success exactly when every collaborator answers (classification, retrieval, then the requirement lookup or the reply generation); a failure carries the first failing collaborator's error; a success is the reply that fits: intent by the keyword rules, provisioning text and actions from the provision plan, otherwise generated text and no actions |
| AiEngine.AnsweredReply | app/services/ai_engine.py:255-289 | when every collaborator answers, the reply built from their answers fits the turn |
| AiEngine.ReplyFitsExactlyWhenTurnAnswers | app/services/ai_engine.py:255-289 | some reply fits exactly when every collaborator answers, and then only one reply fits |
| AiEngine.RecordUserMessage | app/services/ai_engine.py:231-253 | the user's message is appended to the turn's conversation before anything can fail; a new conversation is the one row appended, with count 1; no other conversation changes |
| AiEngine.AnswerTurn | app/services/ai_engine.py:255-297 | success exactly when every collaborator answers, failures carrying the first failing collaborator's error; on success one assistant message with the reply and `{"intent": …}` is appended; on failure nothing is written |
| AiEngine.ProcessMessage | app/services/ai_engine.py:214-305 | the turn completes exactly when every collaborator answers on the history including the user message, and otherwise fails with the first failing collaborator's error; a failed turn leaves exactly the user message; a completed turn appends two messages and answers with the intent and confidence 0.85; no other conversation changes |
| ChatRouter.Access | app/routers/chat.py:142-147 | 404 iff absent; 403 iff present and owned by someone else; otherwise the conversation |
| ChatRouter.GetConversationEndpoint | app/routers/chat.py:119-149 | 404 iff no conversation has the id; success iff the caller owns it; only 404 and 403 are raised |
| ChatRouter.NotFoundForEveryone | app/routers/chat.py:142-143 | a missing conversation gets the same answer whoever asks |
| ChatRouter.DeleteConversationEndpoint | app/routers/chat.py:152-187 | the same refusals as reading it, with the store untouched; otherwise the conversation and its messages are deleted and the result is `{"status": "deleted", "conversation_id": id}` |
| ChatRouter.ChatEndpoint | app/routers/chat.py:55-88 | 422 exactly when the message is not 1..4000 characters; a valid request succeeds exactly when every collaborator answers and otherwise gets 500 with "Failed to process message: " followed by the first failing collaborator's error |
| ChatRouter.ListConversationsEndpoint | app/routers/chat.py:91-116 | a page of the caller's own conversations, most recent first, limit 50 and skip 0 by default |

## Left out

- Language-model calls (intent prompt, reply prompt, provisioning prompt, diagnosis prompt): the generator is a parameter. Its text is never inspected. `.strip()` on its output is not modelled.
- Reply formatting: Markdown/f-string texts, `.title()` and number formatting (`:.3f`, `:.2f`, `:.1f`) are not modelled. The provisioning reply is produced by a rendering parameter from the structured proposal, and the diagnosis and optimisation replies are structured values.
- The recommendation title and description are structured (`RecommendationModel.UtilizationNote`); the percentage string is not built.
- Dispatch from the AI engine to the diagnose and optimize workflows: the engine's code only dispatches provisioning, so those workflows are modelled as stand-alone operations.
- The HTTP layer of the platform client (`app/services/quickspin_client.py`), the cluster client (`app/services/kubernetes_client.py`) and the vector index (`app/repositories/knowledge_repo.py`). These are I/O; their results are parameters.
- JWT cryptography, token creation and expiry (`create_access_token`): library calls plus wall-clock time.
- NewConversation, CreateConversation: the clock ticks once per reading, so the two `utcnow()` readings give a creation time strictly before the update time; a real clock may return the same instant twice (the source promises only creation <= update) or go backwards, which is not modelled.
- ConversationRepo.ConversationStore.GetMessages, ConversationRepo.ConversationStore.ListConversations: every timestamp and update time the store hands out is distinct, so the model never meets the ties on which Mongo's order (`sort("timestamp")`, `sort("updated_at", -1)`) is unspecified; the stable sort's choice for ties is the model's, not Mongo's.
- Concurrency: `save_message` inserts and increments in two separate calls that are not atomic. Only sequential execution is modelled. `ChatRouter.DeleteConversationEndpoint` states that its 500 branch is unreachable; that holds only because there is no concurrent writer.
- Mongo details:
  - an invalid ObjectId string (which raises);
  - the string form of ids;
  - dictionary key order;
  - an empty-string `conversation_id` in a chat request (Python treats it as absent; the model's id is `Option<nat>`, so such a request is the `None` case).
- `str.lower()` beyond ASCII letters, and JSON decoding failures of the authentication service's answer.
- ChatRouter.ListConversationsEndpoint: `limit` and `skip` are natural numbers; negative query values are not modelled.
- Validation: FastAPI's body of the 422 error is abstracted to a fixed detail.
- Pydantic's name-validation message: the model uses `Provision.InvalidNameError`.
- Provision.Execute: the caller's token is not a parameter, because `execute` never uses it.
- Provision.Requirements: the documentation lookup's items are unused; only its failure matters. The `base_costs.get(..., 0.01)` fallback is unreachable because every tier has a price.
- VectorStore.KnowledgeBase.AddKnowledge: requires parallel document and metadata lists, which the index itself demands. Its unconditional append does not capture ids: `add_documents` (`app/repositories/knowledge_repo.py:44-45`) names every call's documents `doc_0`…`doc_{n-1}`, so a second call reuses the first call's ids, and what the index then does with them is not modelled; the append is faithful only for a call on an empty index. Embeddings are not modelled either.
- Application wiring, configuration, health probes, the recommendations router and the CLI: framework and terminal I/O.
