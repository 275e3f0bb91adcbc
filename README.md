# LLM router: a Dafny model

This project models the core of an LLM request router. The router is a web service that receives chat messages from WhatsApp, from a WhatsApp "agent" endpoint and from Slack. It classifies each prompt, picks one of four language-model backends (gpt, deepseek, mistral, gemini) and calls it. It prices the call, records the exchange and keeps several conversation stores.

The model covers these parts:

- **Classifiers.** `classifier_agent` uses keyword and indicator scoring to choose a backend with a confidence. `prompt_classifier` uses heuristic flags and a normalised score table. `indicators` computes word-share indicators.
- **Router.** `route_prompt` dispatches to the chosen backend and handles errors.
- **Cost analyzer.** It looks up prices, counts tokens and reports the cost in US dollars and in reais.
- **Stores.**
  - the response cache (`cache_manager`);
  - the database manager with its cache, message queue and conversation contexts (`database`);
  - the in-memory conversation memory (`conversation_memory`);
  - the message history (`history_manager`).
- **Agent service.** It handles handoff to a human, product and plan lookup, and message processing.
- **Retrieval helpers.** `rag` covers cosine ranking, indexing and context formatting.
- **Webhooks.** The three webhooks parse their payloads and answer. For Slack, that includes signature verification.
- **Analytics row.** `supabase.save_llm_data` builds the row written to the `llm_router` table.

Python values are modelled by a small JSON-like datatype (`Py.Json`), and Python exceptions are modelled as values (`Py.PyError`). Python dictionaries are association lists that keep insertion order. Everything outside the process is a parameter of the model: backends, tokenizer, embedding service, square root, HMAC, clock and database reachability.

The model follows the code as written, including where the code contradicts itself. Examples: the router reads a key the classifiers never produce, and the stores keep conversation messages as a JSON string. The discrepancies the model can exhibit are listed under Findings.

## Model

| member | source | states |
|---|---|---|
| Backends.FromName | api/llm_router/router.py:36-43 | a backend is found exactly for the four names "gpt", "deepseek", "mistral", "gemini", and its name is the one looked up |
| Ranking.ArgMax | api/llm_router/classifier_agent.py:365 | `max` with a key: the first position holding the largest value |
| ClassifierAgent.AnalyzeComplexity | api/llm_router/classifier_agent.py:219-243 | "high" exactly when two complexity phrases occur, or one occurs and the prompt has several aspects (an "e" token or a comma); "low" exactly when no phrase occurs and there are not several aspects; "medium" otherwise |
| ClassifierAgent.AnalyzeComplexityOfLowered | api/llm_router/classifier_agent.py:264 | lower-casing the prompt before the analysis changes nothing |
| ClassifierAgent.TaskScores | api/llm_router/classifier_agent.py:250-255 | one score per task type, positive exactly when one of its keywords occurs |
| ClassifierAgent.KeepPositive | api/llm_router/classifier_agent.py:258 | keeps exactly the positions with a positive score |
| ClassifierAgent.KeepPositiveRanked | api/llm_router/classifier_agent.py:258 | dropping positions keeps a ranking by score ranked |
| ClassifierAgent.TaskOrder | api/llm_router/classifier_agent.py:250-258 | ranked by descending score (stable), and holds exactly the task types with some keyword present |
| ClassifierAgent.IdentifyTaskType | api/llm_router/classifier_agent.py:245-258 | a task type is listed exactly when one of its keywords occurs in the lower-cased prompt, in the order of its score |
| ClassifierAgent.TaskCount | api/llm_router/classifier_agent.py:268-271 | positive exactly when a keyword of the type occurs |
| ClassifierAgent.TaskCounts | api/llm_router/classifier_agent.py:268-271 | one non-negative count per task type, positive exactly when its keyword occurs |
| ClassifierAgent.MainTask | api/llm_router/classifier_agent.py:274 | "general" exactly when no keyword occurs; otherwise the first task type with the largest count |
| ClassifierAgent.BestTask | api/llm_router/classifier_agent.py:274 | the chosen position has a count no smaller than any other, and strictly larger than every earlier one |
| ClassifierAgent.Clamp | api/llm_router/classifier_agent.py:373 | the result lies in [0.3, 0.9] and is the input when the input is already inside |
| ClassifierAgent.Confidence | api/llm_router/classifier_agent.py:369-373 | always in [0.3, 0.9] |
| ClassifierAgent.ConfidenceTie | api/llm_router/classifier_agent.py:369-373 | a tie for the best score gives confidence 0.3 |
| ClassifierAgent.ConfidenceGap | api/llm_router/classifier_agent.py:369-373 | a sole best score gives the clamped gap to the runner-up over max(best, 1) |
| ClassifierAgent.ScoreModels | api/llm_router/classifier_agent.py:277-362 | the scores are exactly the tier points plus the four indicator bonuses (`ModelPoints`), accumulated per backend as the source adds them |
| ClassifierAgent.ModelPoints | api/llm_router/classifier_agent.py:284-362 | four non-negative scores in the order gpt, deepseek, mistral, gemini, one of them at least 3 |
| ClassifierAgent.TierScoresDecide | api/llm_router/classifier_agent.py:285-296 | with no bonus, the tier alone decides: high gives gpt, medium gemini, low mistral, with confidence 0.3, 1/3 and 1/3 |
| ClassifierAgent.HighTierGoesToGpt | api/llm_router/classifier_agent.py:285-288 | a "high" prompt below every bonus threshold scores [4, 3, 0, 2] and goes to gpt with confidence 0.3 |
| ClassifierAgent.MediumTierGoesToGemini | api/llm_router/classifier_agent.py:289-292 | a "medium" prompt below every bonus threshold scores [0, 2, 2, 3] and goes to gemini with confidence 1/3 |
| ClassifierAgent.LowTierGoesToMistral | api/llm_router/classifier_agent.py:293-296 | a "low" prompt below every bonus threshold scores [1, 0, 3, 2] and goes to mistral with confidence 1/3 |
| ClassifierAgent.TechnicalTieGoesToGpt | api/llm_router/classifier_agent.py:324-327 | a "low" prompt with three technical phrases scores [4, 4, 3, 2]: gpt wins the tie with deepseek by order, at confidence 0.3 |
| ClassifierAgent.DeepseekOvertakes | api/llm_router/classifier_agent.py:307-331 | on a "high" technical prompt, one complexity phrase lets deepseek win [9, 10, 0, 3], and two give the choice back to gpt [11, 10, 0, 2] |
| ClassifierAgent.SoleBest | api/llm_router/classifier_agent.py:365-373 | a sole best backend is recommended, with the clamped gap to the runner-up over max(best, 1) as confidence |
| ClassifierAgent.RecommendedAt | api/llm_router/classifier_agent.py:365 | `max` picks a position holding the largest score that is strictly above every earlier one |
| ClassifierAgent.Recommended | api/llm_router/classifier_agent.py:365 | a backend with the largest score, and the first such one in the order gpt, deepseek, mistral, gemini |
| ClassifierAgent.ClassifyPrompt | api/llm_router/classifier_agent.py:260-388 | the result reads the lower-cased text: its complexity, task counts and task type; each indicator score is twice its phrase count; the chosen backend has the best score, and its confidence is the clamped gap |
| ClassifierAgent.Classify | api/llm_router/classifier_agent.py:284-373 | carries the given analysis through and chooses the backend as `ClassifyPrompt` promises |
| PromptClassifier.CountTrueTwo | api/llm_router/prompt_classifier.py:87-101 | at least two flags hold exactly when two different positions hold |
| PromptClassifier.AtLeastTwo | api/llm_router/prompt_classifier.py:87-101 | `is_complex`'s `sum(...) >= 2` as "two different signs hold" |
| PromptClassifier.CountTrueThree | api/llm_router/prompt_classifier.py:149-161 | at least three flags hold exactly when three different positions hold |
| PromptClassifier.AtLeastThree | api/llm_router/prompt_classifier.py:149-161 | `is_simple`'s `sum(...) >= 3` as "three different signs hold" |
| PromptClassifier.Mentions | api/llm_router/prompt_classifier.py:103-176 | true exactly when some term is a substring of the lower-cased prompt |
| PromptClassifier.BringsGpt | api/llm_router/prompt_classifier.py:33-36 | true exactly when one of the five audio words occurs; implies `is_audio_related` |
| PromptClassifier.ScoreTable | api/llm_router/prompt_classifier.py:22-67 | the table the statements build is exactly the closed-form table `Tenths` |
| PromptClassifier.Tenths | api/llm_router/prompt_classifier.py:22-67 | scores in tenths: gemini, mistral and deepseek in that order, then gpt exactly when its key is set or an audio word occurs; every score positive |
| PromptClassifier.AudioWordBoostsTwice | api/llm_router/prompt_classifier.py:33-36 | an audio word brings gpt in at 1 (with a key) or 0 (without), plus 0.4 for the word and 0.4 again as audio related, plus the complex and analytical boosts |
| PromptClassifier.StrictBestChosen | api/llm_router/prompt_classifier.py:69-76 | a strictly largest score is the backend chosen after normalisation |
| PromptClassifier.SimplePromptGoesToGemini | api/llm_router/prompt_classifier.py:62-64 | a simple prompt that is not technical, complex or analytical goes to gemini |
| PromptClassifier.TechnicalPromptGoesToMistral | api/llm_router/prompt_classifier.py:53-55 | a technical prompt that is not simple, complex or analytical goes to mistral |
| PromptClassifier.ComplexTechnicalPromptGoesToDeepseek | api/llm_router/prompt_classifier.py:48-60 | a complex technical prompt that is not simple goes to deepseek |
| PromptClassifier.AudioIndicatorsGoToGpt | api/llm_router/prompt_classifier.py:32-67 | with an audio word and audio relatedness, and none of the complex, technical, analytical flags, gpt is chosen |
| PromptClassifier.AudioPromptGoesToGpt | api/llm_router/prompt_classifier.py:32-67 | a prompt naming one of the five audio words, and neither complex, technical nor analytical, goes to gpt, with or without the key |
| PromptClassifier.IsComplex | api/llm_router/prompt_classifier.py:87-101 | a prompt over 300 characters that holds a complexity term is complex (two of the four signs hold) |
| PromptClassifier.IsTechnical | api/llm_router/prompt_classifier.py:103-133 | some technical term occurs in the lower-cased prompt |
| PromptClassifier.IsAnalytical | api/llm_router/prompt_classifier.py:135-147 | some analytical term occurs in the lower-cased prompt |
| PromptClassifier.IsSimple | api/llm_router/prompt_classifier.py:149-161 | the first three signs alone (under 100 characters, under 20 words, at most one sentence mark) make a prompt simple, whatever its terms |
| PromptClassifier.IsAudioRelated | api/llm_router/prompt_classifier.py:163-176 | some audio term occurs in the lower-cased prompt |
| PromptClassifier.Normalise | api/llm_router/prompt_classifier.py:70-71 | each score divided by the total, backends unchanged |
| PromptClassifier.SumNormalise | api/llm_router/prompt_classifier.py:70-71 | the normalised scores add up to the sum over the total |
| PromptClassifier.Normalised | api/llm_router/prompt_classifier.py:69-71 | every share lies in (0, 1] and the shares add up to 1 |
| PromptClassifier.SharesInRange | api/llm_router/prompt_classifier.py:69-71 | shares of positive scores lie in (0, 1] |
| PromptClassifier.SharesSumToOne | api/llm_router/prompt_classifier.py:69-71 | shares of a non-empty table add up to 1 |
| PromptClassifier.Choose | api/llm_router/prompt_classifier.py:74-76 | the first backend with the best normalised score, and its share as the confidence |
| PromptClassifier.ClassifyPrompt | api/llm_router/prompt_classifier.py:7-85 | the prompt's indicators, the three backends plus gpt exactly when brought in, shares adding up to 1, and the best backend chosen |
| PromptClassifier.ClassifyIndicators | api/llm_router/prompt_classifier.py:48-85 | the same, for given indicators |
| Indicators.WordSetSize | api/llm_router/indicators.py:67 | the set of words is no larger than the list, and non-empty when the list is non-empty |
| Indicators.Share | api/llm_router/indicators.py:58-62 | a share in [0, 1]: 0 exactly when no category word occurs, 1 exactly when all do |
| Indicators.CommonSize | api/llm_router/indicators.py:58-62 | the common words number at most the category, with none exactly when disjoint and all exactly when the category is covered |
| Indicators.ComplexityScore | api/llm_router/indicators.py:64-70 | `ZeroDivisionError` exactly when the text is all whitespace; otherwise the average sentence length over 20 times the distinct-word share, capped at 1, hence in [0, 1] |
| Indicators.AverageSentenceLength | api/llm_router/indicators.py:65-66 | the words per piece of a split at '.' never average below 0 |
| Indicators.UniqueRatio | api/llm_router/indicators.py:67 | the share of distinct words lies in (0, 1] |
| Indicators.Weighted | api/llm_router/indicators.py:70 | the capped product lies in [0, 1], and stays below 1 while the average sentence is under 20 words |
| Indicators.GetIndicators | api/llm_router/indicators.py:5-72 | over the words of the stripped lower-cased text: each category score is exactly that category's `Share`, and the complexity is `ComplexityScore`; fails exactly as the complexity score does |
| Indicators.SomeSharesStayBelowOne | api/llm_router/indicators.py:24-62 | the technical and conversational shares never reach 1, since those lists hold entries that can never be a word |
| Indicators.MultiWordEntryNeverMatches | api/llm_router/indicators.py:24-56 | a category entry containing whitespace can never be among the words |
| Indicators.SharesIgnoreMultiWordEntries | api/llm_router/indicators.py:24-62 | the shares count only the single-word entries of a category |
| Router.GivenClassification | api/llm_router/router.py:22-32 | a named model gets confidence 1.0, a score of 1.0 for that name, and the plain indicators |
| Router.Dispatch | api/llm_router/router.py:35-45 | a known name calls its own backend; any other value calls gpt |
| Router.Failed | api/llm_router/router.py:61-75 | the error record: not successful, model "error", confidence 0, no scores, plain indicators, and text "Erro ao processar prompt: " followed by the exception's message |
| Router.Route | api/llm_router/router.py:12-75 | a failure is the error record; a named model is routed with the given classification, and the reply's text is the backend's answer made a string |
| Router.RoutePrompt | api/llm_router/router.py:12-75 | `route_prompt` as written: reads the classifier's choice under "recommended_model" |
| Router.UnknownNameFallsBackToGpt | api/llm_router/router.py:44-45 | an unknown model name is answered by gpt and reported under the given name |
| Router.MissingKeyAlwaysFails | api/llm_router/router.py:16-18 | without a model name, a classification lacking "recommended_model" always ends in the error record |
| Router.NoClassifierHasTheKey | api/llm_router/router.py:18 | neither classifier's result has a "recommended_model" key |
| Router.ClassifiedPromptAlwaysFails | api/llm_router/router.py:16-18 | as written, every prompt routed without a model name fails with `KeyError('recommended_model')` |
| Router.RoutePromptByModel | api/llm_router/router.py:12-75 | the corrected router, which reads the choice under "model"; a failure is the error record |
| Router.ClassifiedPromptReachesChosenBackend | api/llm_router/prompt_classifier.py:80-85 | with the corrected router, a `prompt_classifier` result is answered by the backend it chose, with its confidence |
| Router.PromptDictEntries | api/llm_router/prompt_classifier.py:80-85 | a `prompt_classifier` result has "model", "model_scores", "indicators" and its confidence |
| Router.AgentResultFailsAtScores | api/llm_router/router.py:20 | a `classifier_agent` result has no top-level "model_scores", so even the corrected router fails with that `KeyError` |
| CostAnalyzer.GetModelInfo | api/llm_router/cost_analyzer.py:50-81 | an unknown id gets the gpt entry; every price is positive, input no dearer than output, and none dearer than gpt's |
| CostAnalyzer.CountTokens | api/llm_router/cost_analyzer.py:39-48 | the tokenizer's count, or twice the word count when the tokenizer fails; `None` text fails |
| CostAnalyzer.Trunc | api/llm_router/cost_analyzer.py:104-105 | `int(x)` truncates toward zero |
| CostAnalyzer.UsdCost | api/llm_router/cost_analyzer.py:98-100 | non-negative for non-negative prices |
| CostAnalyzer.ZeroReport | api/llm_router/cost_analyzer.py:137-168 | the error report: the model as asked for, a model entry named "unknown" with zero prices and no documentation link, zero tokens, zero money, zero prices per 1k |
| CostAnalyzer.AnalyzeCost | api/llm_router/cost_analyzer.py:83-136 | the report names the model as asked for; a missing prompt or response gives the zero report; otherwise the token counts and their total, the prices of the model, and the US dollar and real costs (at 5.0 reais to the dollar) truncated to cents and to whole units |
| CostAnalyzer.CentsWithinUnits | api/llm_router/cost_analyzer.py:103-105 | truncated cents lie within a hundred above a hundred times the truncated units |
| CostAnalyzer.ReportCentsAgree | api/llm_router/cost_analyzer.py:115-131 | every report's cents agree with its whole units |
| CostAnalyzer.CostGrowsWithPrices | api/llm_router/cost_analyzer.py:98-100 | a model with higher prices never makes the same call cheaper |
| CacheManager.Lookup | api/utils/cache_manager.py:29-61 | a hit exactly when the prompt has a row whose expiry lies in the future; the hit reports one more read |
| CacheManager.Touched | api/utils/cache_manager.py:41-49 | on a live hit, the row gets hit count plus one and the access time now, all else kept; on a miss or an expired row, the table is unchanged |
| CacheManager.HitReportsStoredCount | api/utils/cache_manager.py:44-57 | the hit count returned is the one stored, and a second read before expiry sees two more than the original count |
| CacheManager.Stored | api/utils/cache_manager.py:76-96 | the upsert leaves every other prompt alone and writes a row with one read, the model and an expiry of `ttl_hours` from now |
| CacheManager.Swept | api/utils/cache_manager.py:106-112 | the sweep removes exactly the rows already expired and leaves the rest unchanged |
| CacheManager.ResponseCache.constructor | api/utils/cache_manager.py:18-27 | the table starts empty |
| CacheManager.ResponseCache.GetCachedResponse | api/utils/cache_manager.py:29-65 | the lookup and its touch; `None` and nothing changed when the database fails |
| CacheManager.ResponseCache.CacheResponse | api/utils/cache_manager.py:68-103 | the upsert, or no change and `False` on failure |
| CacheManager.ResponseCache.CleanupExpiredCache | api/utils/cache_manager.py:106-120 | removes exactly the expired rows and returns their number; 0 on failure |
| CacheManager.StoreThenLookup | api/utils/cache_manager.py:29-99 | a stored response is read back before its time to live runs out |
| CacheManager.StoreLeavesOtherPrompts | api/utils/cache_manager.py:32-76 | storing one prompt changes no lookup of another |
| CacheManager.ExpiredRowIsNotRead | api/utils/cache_manager.py:40-41 | an expired row is never returned and not touched |
| CacheManager.BoundaryRowSurvivesSweep | api/utils/cache_manager.py:110-112 | a row expiring exactly now survives the sweep though it can no longer be read |
| CacheManager.SweepKeepsLiveRows | api/utils/cache_manager.py:106-112 | the sweep changes no lookup |
| Database.CacheSaved | api/utils/database.py:66-97 | an empty prompt, falsy response or empty model changes nothing; otherwise the formatted response is stored under the prompt for a day |
| Database.CacheHit | api/utils/database.py:48-64 | a hit exactly when the prompt has a row that has not expired |
| Database.QueuePayload | api/utils/database.py:122-126 | the payload holds the prompt and the response exactly when each is truthy |
| Database.NewQueueRow | api/utils/database.py:128-136 | status "completed" with a processing time exactly when a response is given, else "pending" |
| Database.Pending | api/utils/database.py:151-152 | exactly the pending rows, in queue order |
| Database.InsertByCreation | api/utils/database.py:153 | one row placed into rows sorted by `created_at`: still sorted, and the same rows plus that one |
| Database.SortByCreation | api/utils/database.py:153 | the rows in ascending `created_at` order, a permutation of the input |
| Database.SortKeepsOrdered | api/utils/database.py:153 | rows already in `created_at` order are left as they are |
| Database.PendingOldestFirst | api/utils/database.py:148-156 | exactly the pending rows, oldest first |
| Database.StatusUpdated | api/utils/database.py:182-188 | the new status; a processing time exactly when "completed"; the metadata when truthy; identity kept |
| Database.ContextOf | api/utils/database.py:262-280 | an empty log for a missing or expired row |
| Database.Stamped | api/utils/database.py:220-222 | a dict message gets a truthy timestamp; any other value fails |
| Database.StampedAll | api/utils/database.py:220-223 | succeeds exactly when every message is a dict, with one stamped message for each |
| Database.StampedStep | api/utils/database.py:220-223 | one more message stamped extends the stamped prefix |
| Database.StampedAppend | api/utils/database.py:220-223 | stamping a list with one more message appends its stamped form |
| Database.StampMessages | api/utils/database.py:220-223 | the loop stamps every message, or fails exactly when one is not a dict |
| Database.SimilarIsFirstPair | api/utils/database.py:299-304 | a found answer directly follows a user message whose content equals the prompt once both are lower-cased, and it is the first such pair |
| Database.FirstPairIsSimilar | api/utils/database.py:299-304 | conversely, the first such pair, reached without an unreadable message on the way, is the answer found |
| Database.SimilarFrom | api/utils/database.py:299-306 | no answer from a position with no message after it |
| Database.Similar | api/utils/database.py:295-306 | a log stored as a JSON string, or with fewer than two messages, yields no answer |
| Database.ConversationUpdated | api/utils/database.py:317-359 | an empty argument changes nothing; otherwise the row holds the last ten messages with the exchange appended |
| Database.ExchangeIsLast | api/utils/database.py:343-347 | after an update the log ends with the user message then the reply, and holds at most ten |
| Database.SupabaseManager.constructor | api/utils/database.py:10-16 | all tables start empty |
| Database.SupabaseManager.GetFromCache | api/utils/database.py:48-64 | the cache hit, or `None` on failure |
| Database.SupabaseManager.SaveToCache | api/utils/database.py:66-103 | the cache after the save; nothing else changes, and nothing on failure |
| Database.SupabaseManager.AddToQueue | api/utils/database.py:105-146 | the new row is appended with the next id; a failure is re-raised and leaves the queue |
| Database.SupabaseManager.GetPendingMessages | api/utils/database.py:148-166 | the `limit` oldest pending rows, in ascending `created_at` order; empty on failure |
| Database.SupabaseManager.UpdateQueueStatus | api/utils/database.py:168-199 | only the row with the id changes, as `StatusUpdated` says |
| Database.SupabaseManager.GetContext | api/utils/database.py:254-280 | the stored log, or empty |
| Database.SupabaseManager.SaveContext | api/utils/database.py:201-252 | succeeds exactly when `ContextUpsert` does and leaves the table as it says; only the context table can change, and a failure leaves it |
| Database.ContextUpsert | api/utils/database.py:201-252 | fails exactly when the database is unreachable, the stored log is a JSON string or a new message is not a dictionary; otherwise the unexpired log with the new messages stamped and appended is saved |
| Database.ContextSaved | api/utils/database.py:224-245 | the sender's row holds the last fifty messages (all of them when they fit), their count, a day-long expiry and the metadata as the upsert leaves it; every other row is kept |
| Database.MetadataAfter | api/utils/database.py:239-243 | the upsert writes the metadata column only for truthy metadata; otherwise the row keeps its own value, and a new row has none |
| Database.SupabaseManager.FindSimilarResponse | api/utils/database.py:282-310 | the search over the stored log, the first matching pair winning |
| Database.SupabaseManager.UpdateConversationContext | api/utils/database.py:312-364 | the row after the update; other tables unchanged |
| Database.SupabaseManager.ClearConversationContext | api/utils/database.py:366-380 | the sender's row emptied; nothing for an empty sender |
| Database.SupabaseManager.CleanupExpired | api/utils/database.py:382-400 | cache and context rows expiring now or earlier go; the queue stays |
| Database.SupabaseManager.ClearExpiredContexts | api/utils/database.py:498-511 | only context rows already past their expiry go |
| Database.SavedResponseIsRead | api/utils/database.py:48-97 | a saved response is read back unchanged for a day |
| Database.SweepsDisagreeAtExpiry | api/utils/database.py:388-395 | a context row expiring exactly now is removed by `cleanup_expired` but kept by `clear_expired_contexts` |
| Database.StoredConversationIsNeverSearched | api/utils/database.py:352-359 | as written, a conversation stored by the update is never found by the search |
| Database.ConversationKept | api/utils/database.py:317-359 | the corrected update, which keeps the messages as a list |
| Database.KeptConversationIsSearched | api/utils/database.py:299-304 | with the corrected update, asking the same question again finds the stored reply, for any stored conversation in which no earlier user message asks that question |
| Database.KeptLogIsSearched | api/utils/database.py:299-304 | the last 50 messages of a log without an earlier matching question, followed by the new exchange, answer that question with the new reply |
| Database.KeptHasNoAsk | api/utils/database.py:299-303 | the kept tail of a log without the question holds no matching pair, and every message in it can be read |
| Database.ExchangeIsPair | api/utils/database.py:300-303 | a user message followed by an assistant reply in the log forms a matching pair |
| ConversationMemory.WithRecord | api/utils/conversation_memory.py:13-34 | the sender gets an empty record if missing; nothing else changes |
| ConversationMemory.Appended | api/utils/conversation_memory.py:65-72 | the message appended and only the last hundred kept |
| ConversationMemory.WithMessage | api/utils/conversation_memory.py:52-83 | only the sender's record changes: the message appended and the update time stamped |
| ConversationMemory.SavedMessageIsNewest | api/utils/conversation_memory.py:65-72 | the saved message is the last of the sender's log |
| ConversationMemory.AppendedKeepsNewest | api/utils/conversation_memory.py:65-72 | the message is last, the log holds at most a hundred, and the earlier messages keep their order |
| ConversationMemory.AppendedTwice | api/utils/conversation_memory.py:65-72 | two appends end the log with both, in order |
| ConversationMemory.SavedTwice | api/utils/conversation_memory.py:52-83 | two saves for one sender end the log with both, in order |
| ConversationMemory.Entry | api/utils/conversation_memory.py:100-103 | a user line "Usuário: …"; any other role "Assistente: …" with a line break |
| ConversationMemory.Entries | api/utils/conversation_memory.py:98-103 | one entry per message, in order |
| ConversationMemory.TruncatedKeepsLastWords | api/utils/conversation_memory.py:106-109 | an over-long context keeps exactly its last `max_tokens` words |
| ConversationMemory.Truncated | api/utils/conversation_memory.py:106-109 | a context within the word budget is kept as it is |
| ConversationMemory.ZeroBudgetKeepsAllWords | api/utils/conversation_memory.py:106-109 | a budget of zero keeps every word, since `words[-0:]` is the whole list |
| ConversationMemory.ConversationManager.constructor | api/utils/conversation_memory.py:9-11 | the store starts empty |
| ConversationMemory.ConversationManager.GetOrCreateMemory | api/utils/conversation_memory.py:13-38 | the sender's record, created if missing; a failure is re-raised |
| ConversationMemory.ConversationManager.AddMessage | api/utils/conversation_memory.py:40-89 | the message saved as `WithMessage` says; nothing when saving is off or fails |
| ConversationMemory.ConversationManager.FormatConversationForLlm | api/utils/conversation_memory.py:91-115 | the formatted log within the word budget; "" on failure |
| ConversationMemory.ConversationManager.CleanupOldMemories | api/utils/conversation_memory.py:117-130 | removes exactly the records updated before the cut-off |
| ConversationMemory.CleanupKeepsRecent | api/utils/conversation_memory.py:120-125 | a record survives exactly when it was updated at or after the cut-off |
| ConversationMemory.Stale | api/utils/conversation_memory.py:117-125 | only stored records are deleted; a record never updated, or updated at or after the cut-off, is kept |
| HistoryManager.History.constructor | api/utils/history_manager.py:7-8 | no rows |
| HistoryManager.History.SaveMessage | api/utils/history_manager.py:10-95 | a new sender gets a row with the message; an existing row gets it appended; `None` and no change on failure |
| HistoryManager.History.GetMessageHistory | api/utils/history_manager.py:97-137 | the total count and the slice `[offset:offset+limit]`; an empty page for an unknown sender or a failure |
| HistoryManager.PageIsWindow | api/utils/history_manager.py:128 | a page is the contiguous run of the log at `offset`, at most `limit` long |
| HistoryManager.ConsecutivePages | api/utils/history_manager.py:128 | two consecutive pages join into the double-length page |
| HistoryManager.SavedMessageIsLast | api/utils/history_manager.py:65-72 | a saved message is read back last, and the total grows by one |
| AgentService.CategoryMatchesExactly | api/utils/agent_service.py:80-88 | a category yields exactly its matching plans, tagged with it |
| AgentService.CatalogMatchesExactly | api/utils/agent_service.py:78-88 | the catalogue yields exactly the matching plans of its categories |
| AgentService.CategoryMatches | api/utils/agent_service.py:80-88 | at most one entry per plan, each a matching plan tagged with the category |
| AgentService.CatalogMatches | api/utils/agent_service.py:78-88 | every entry is a matching plan |
| AgentService.Triggered | api/utils/agent_service.py:52-62 | an agent without triggers never hands off; an empty trigger hands off every message, since the empty string occurs in any text |
| AgentService.RouteWithSenderPhone | api/utils/agent_service.py:125-128 | calling `route_prompt` with `sender_phone` always raises `TypeError` |
| AgentService.RoutedReply | api/utils/agent_service.py:130-135 | the router's text and success, no handoff, and the agent's id and name |
| AgentService.Service.constructor | api/utils/agent_service.py:11-15 | the G4 Telecom agent under "g4-telecom" |
| AgentService.Service.RegisterAgent | api/utils/agent_service.py:17-20 | the agent is stored under its id, replacing any earlier one; others stay |
| AgentService.Service.GetAgent | api/utils/agent_service.py:22-24 | the agent under the id, if any |
| AgentService.Service.ProcessMessage | api/utils/agent_service.py:91-145 | as written: an unknown agent and a handoff get their fixed replies; every other message gets the failure reply with a handoff |
| AgentService.Service.ProcessMessageRouted | api/utils/agent_service.py:91-145 | the corrected service: every other message gets the routed reply, as `Answer` gives it over the memory before the call |
| AgentService.Answer | api/utils/agent_service.py:91-145 | the not-found and handoff replies exactly when the agent is unknown or a trigger occurs; otherwise the router's record, with the reply's text taken from it and the agent's id and name |
| AgentService.ShouldHandoffToHuman | api/utils/agent_service.py:52-62 | true exactly when some trigger occurs in the lower-cased message |
| AgentService.GetProductInfo | api/utils/agent_service.py:64-72 | the first product whose name occurs in the query; `None` exactly when none does |
| AgentService.GetPlanInfo | api/utils/agent_service.py:74-89 | every matching plan of every category, in catalogue order |
| AgentService.RoutedReplyFollowsBackend | api/utils/agent_service.py:125-135 | with the corrected router, the reply is the chosen backend's answer |
| Rag.SumSquares | api/utils/rag.py:23-24 | never negative |
| Rag.SumSquaresOfZero | api/utils/rag.py:23-24 | zero for the zero vector |
| Rag.Cosine | api/utils/rag.py:17-27 | 0 for empty, mismatched or zero-norm vectors; otherwise the dot product over the product of the norms |
| Rag.ZeroVectorScoresZero | api/utils/rag.py:23-26 | a zero vector scores 0 against any vector |
| Rag.SortByScore | api/utils/rag.py:82 | the same elements, each once, and in stable descending score order when each element carries its own position |
| Rag.ScoreAll | api/utils/rag.py:76-80 | one score per candidate, each at its own position |
| Rag.ScoreCandidates | api/utils/rag.py:76-80 | the loop computes each candidate's cosine score |
| Rag.HitOf | api/utils/rag.py:85-93 | the hit holds the score and the content of the candidate |
| Rag.Ranking | api/utils/rag.py:76-82 | every scored candidate, once each, in stable descending score order |
| Rag.SearchSimilar | api/utils/rag.py:72-93 | at most `top_k` hits, in descending score, each the candidate ranked there |
| Rag.TopBeatsTheRest | api/utils/rag.py:82-83 | no candidate left out of the top `n` scores more than one kept |
| Rag.NamespaceOf | api/utils/rag.py:47 | a non-empty namespace argument wins over the document's own |
| Rag.IndexDocuments | api/utils/rag.py:36-57 | one row per document with its content, metadata, namespace and embedding, and their count; a failure leaves nothing |
| Rag.Title | api/utils/rag.py:99-100 | the title, else the source, else "Doc N" |
| Rag.Entries | api/utils/rag.py:98-103 | one entry per chunk, numbered from 1 |
| Rag.Admitted | api/utils/rag.py:104-106 | the entries admitted before the character budget is reached |
| Rag.FormatChunksAsContext | api/utils/rag.py:96-110 | the header, then exactly the admitted entries joined by blank lines |
| Rag.ContextStartsWithHeader | api/utils/rag.py:107-110 | the context always opens with the header |
| Whatsapp.BeforeAt | api/routers/whatsapp.py:127 | succeeds exactly on a string; the result is its prefix before the first '@' (the whole string when there is none) |
| Whatsapp.ExtractText | api/routers/whatsapp.py:108-114 | the text of `extendedTextMessage`, else `conversation`, else `text.message`, in that order |
| Whatsapp.StripCountry | api/routers/whatsapp.py:128-130 | one leading "55" removed |
| Whatsapp.InboundPhone | api/routers/whatsapp.py:127-137 | the phone is the `remoteJid` before '@' with one leading "55" stripped, and the id is `key.get("id", "")` |
| Whatsapp.Parse | api/routers/whatsapp.py:95-145 | a non-dict payload, a missing message and an empty text each get their response; a text error ends with its message; otherwise a message exactly when the phone can be read and the fields pass `WhatsAppMessage` validation, and "invalid_message_format" when not |
| Whatsapp.MessageText | api/routers/whatsapp.py:105-114 | the text of a `message` object as `ExtractText` reads it, and nothing from any other value |
| Whatsapp.NonNumericTimestampRefused | api/routers/whatsapp.py:132-146 | a payload whose `messageTimestamp` is "abc" fails validation and is answered "invalid_message_format" |
| Whatsapp.TextErrorStops | api/routers/whatsapp.py:209-211 | an exception while reading the text ends the request with its message |
| Whatsapp.StringTextFieldFails | api/routers/whatsapp.py:113-114 | a plain-string `text` field raises `AttributeError` |
| Whatsapp.SendPhone | api/routers/whatsapp.py:38-39 | the number dialled always starts with "55", which is added when missing |
| Whatsapp.Recipient | api/routers/whatsapp.py:48 | the `to` field is the dialled number at the WhatsApp host |
| Whatsapp.InboundOfJid | api/routers/whatsapp.py:127-130 | a sender "55X@…" is read as X |
| Whatsapp.ReplyReachesSender | api/routers/whatsapp.py:38-39 | a reply to "55X@…" reaches "55X" when X does not start with "55" |
| Whatsapp.AreaCode55LosesCountryCode | api/routers/whatsapp.py:38-39 | as written, a reply to "5555X@…" is dialled at "55X" |
| Whatsapp.ReplyPhone | api/routers/whatsapp.py:38-39 | the corrected recipient: always the country code followed by the inbound number |
| Whatsapp.ReplyPhoneRoundTrip | api/routers/whatsapp.py:127-130 | every sender "55X@…" is answered at "55X" |
| AgentWhatsapp.StrOf | api/routers/agent_whatsapp.py:138 | `str` of a string is the string |
| AgentWhatsapp.PrimaryText | api/routers/agent_whatsapp.py:62-83 | for a `message` object: `extendedTextMessage.text`, else `conversation`, else `text` (its `message` when a dict), else `body`, else `None`; otherwise the top-level `text`, else `body`, else `None`; only `AttributeError` can fail |
| AgentWhatsapp.MessageText | api/routers/agent_whatsapp.py:61-93 | the primary text when truthy or failing; otherwise the first top-level string of 1 to 499 characters, else the falsy primary value |
| AgentWhatsapp.FirstShort | api/routers/agent_whatsapp.py:86-93 | the first top-level string of 1 to 499 characters |
| AgentWhatsapp.FindFallbackText | api/routers/agent_whatsapp.py:88-93 | the scan returns the first short string, or keeps the primary text |
| AgentWhatsapp.FirstShortIsFirst | api/routers/agent_whatsapp.py:89-93 | the first short string is the one found |
| AgentWhatsapp.JidPhone | api/routers/agent_whatsapp.py:109-112 | `None` without a `key` or a `remoteJid`; a string `remoteJid` gives its part before '@', or `None` when it has no '@' |
| AgentWhatsapp.FromPhone | api/routers/agent_whatsapp.py:115-119 | read only when no phone was found: a falsy `from` is kept, a string `from` is cut before '@' when it holds one |
| AgentWhatsapp.FirstStringField | api/routers/agent_whatsapp.py:126-131 | the value of the first key, in list order, the payload holds as a string; `None` exactly when no key does |
| AgentWhatsapp.ExtractPhone | api/routers/agent_whatsapp.py:106-131 | the JID phone, then `from`, then a truthy `sender`, then the first string among "phone", "sender_id", "customer", "number"; a failure propagates |
| AgentWhatsapp.JidOrFrom | api/routers/agent_whatsapp.py:109-119 | the JID phone handed to the `from` step, a JID failure propagating |
| AgentWhatsapp.JidWins | api/routers/agent_whatsapp.py:109-119 | a `remoteJid` with a non-empty part before '@' decides the phone, whatever `from` and `sender` hold |
| AgentWhatsapp.FromWhenNoKey | api/routers/agent_whatsapp.py:109-119 | without a `key`, a `from` with a non-empty part before '@' gives that part |
| AgentWhatsapp.Normalize | api/routers/agent_whatsapp.py:137-141 | no '+' left; "55" dropped only from a number longer than ten |
| AgentWhatsapp.Parse | api/routers/agent_whatsapp.py:46-164 | the responses for a non-dict payload, an acknowledgement, a missing message, a text error and an empty text; then "invalid_message_format" when the phone cannot be read, "no_phone_number" when it is falsy, and a message with the normalised phone exactly when the fields pass `WhatsAppMessage` validation |
| AgentWhatsapp.ParsePayload | api/routers/agent_whatsapp.py:46-150 | the parse, with the fallback scan as a loop |
| AgentWhatsapp.ParsedFromParts | api/routers/agent_whatsapp.py:104-150 | a valid text, phone and id give the message with the normalised phone |
| AgentWhatsapp.FromOnlyPayload | api/routers/agent_whatsapp.py:68-150 | a payload with the text under `conversation` and the sender only in `from` "5511987654321@c.us" is read as phone "11987654321" |
| AgentWhatsapp.NormalizeBrazilian | api/routers/agent_whatsapp.py:137-141 | "5511987654321" loses its country code |
| AgentWhatsapp.ModelUsed | api/routers/agent_whatsapp.py:187 | a model name is stored exactly when the model is a string |
| AgentWhatsapp.WithUserMessage | api/routers/agent_whatsapp.py:156-160 | the user message is saved when the store is reachable |
| AgentWhatsapp.ExchangeStored | api/routers/agent_whatsapp.py:156-188 | the user message, then the assistant entry holding the reply text and the model, end the sender's log |
| AgentWhatsapp.WithExchange | api/routers/agent_whatsapp.py:156-188 | the memory after both saves: unchanged when unreachable, otherwise the message then the reply at the end of the sender's log |
| AgentWhatsapp.AgentWebhook | api/routers/agent_whatsapp.py:46-237 | as written: a parse stop is answered; a refused message ends in the `KeyError('model')` error; a routed message is delivered with the router's model, and the memory holds the message followed by the agent's reply text |
| AgentWhatsapp.HandleMessage | api/routers/agent_whatsapp.py:155-227 | the same, after the parse: the delivered model is the router's, and the stored reply is the agent's answer over the memory once the message is saved |
| AgentWhatsapp.RunAgent | api/routers/agent_whatsapp.py:174-178 | the reply is the agent service's `Answer`: routed exactly when the agent does not refuse, needing a human exactly when it does, with the router's text and record |
| AgentWhatsapp.Respond | api/routers/agent_whatsapp.py:183-227 | a reply without a model ends in the `KeyError`; a routed one is stored and delivered |
| AgentWhatsapp.ReplyModel | api/routers/agent_whatsapp.py:224-225 | `.get("model")` of a refused reply is `None` |
| AgentWhatsapp.ReplyAgentName | api/routers/agent_whatsapp.py:224-225 | `.get("agent_name")` of a refused reply is `None` |
| AgentWhatsapp.AgentWebhookByGet | api/routers/agent_whatsapp.py:216-226 | the corrected webhook: a refused message is delivered with handoff "required" and no model; the delivered model is the reply's, and the memory holds the message followed by the agent's reply text |
| AgentWhatsapp.HandleMessageByGet | api/routers/agent_whatsapp.py:216-226 | every message is delivered with the agent's name, model and handoff status; the stored exchange holds the agent's reply text |
| Slack.ParseInt | api/routers/slack.py:22 | `int(s)`: a parsed value follows the sign of the stripped text |
| Slack.VerifySignature | api/routers/slack.py:17-29 | every request passes without a secret; with one, exactly requests within five minutes whose signature equals "v0=" plus the HMAC |
| Slack.RunOfNatToString | api/routers/slack.py:22 | the digits of a number read back as that number |
| Slack.StripOfTrimmed | api/routers/slack.py:22 | a string without surrounding whitespace is its own strip |
| Slack.ParseIntOfNatToString | api/routers/slack.py:22 | a decimal timestamp parses to itself |
| Slack.SignedFreshRequestAccepted | api/routers/slack.py:24-27 | a request signed with the secret within five minutes is accepted |
| Slack.StaleRequestRejected | api/routers/slack.py:22-23 | a request more than five minutes off is rejected whatever its signature |
| Slack.UnversionedSignatureRejected | api/routers/slack.py:26-27 | a signature without "v0=" is rejected |
| Slack.ExpectedIsVersioned | api/routers/slack.py:25-26 | the expected signature carries "v0=" |
| Slack.Screen | api/routers/slack.py:38-58 | the challenge answered; an invalid signature gets 401; a dict event that is not a "message" or has a truthy `bot_id` is acknowledged; a message passes only when signed, a "message" event without a truthy `bot_id`, and as its stripped text; conversely every such signed event with a string text passes as that text stripped |
| Slack.SlackEvents | api/routers/slack.py:32-69 | as written: every message passing the screen ends in HTTP 500 |
| Slack.SlackEventsRouted | api/routers/slack.py:32-69 | the corrected endpoint: a message passing the screen is answered by the router |
| Slack.MessageEventAlwaysFails | api/routers/slack.py:60-68 | a signed user message never gets an answer |
| Slack.MessageEventAnswered | api/routers/slack.py:60-62 | with the router called on the prompt alone, the same message is answered |
| Slack.MessageEventScreened | api/routers/slack.py:52-56 | a signed user message passes the screen with its stripped text |
| Slack.BotMessageIgnored | api/routers/slack.py:53-54 | bot messages are acknowledged without routing |
| Supabase.FloatOf | api/utils/supabase.py:70-72 | `float` of a number is the number; it fails on null, lists and dicts |
| Supabase.IntOf | api/utils/supabase.py:73-75 | `int` of a number truncates it; it fails on null, lists and dicts |
| Supabase.GetOf | api/utils/supabase.py:44-47 | `.get` succeeds exactly on a dict |
| Supabase.PartsOf | api/utils/supabase.py:44-47 | the cost sub-dicts come only from a dict |
| Supabase.IntField | api/utils/supabase.py:73-75 | read only from a dict |
| Supabase.FloatField | api/utils/supabase.py:70-72 | read only from a dict |
| Supabase.TokenColumns | api/utils/supabase.py:73-75 | read only from a dict |
| Supabase.CostColumns | api/utils/supabase.py:70-75 | the cost columns as written |
| Supabase.CostColumnsByCents | api/utils/supabase.py:70-72 | the cost columns with the totals from the cents |
| Supabase.Confidence | api/utils/supabase.py:54 | a falsy confidence becomes 0.0 |
| Supabase.RowWith | api/utils/supabase.py:49-76 | a row exactly when the costs, scores and indicators are readable, holding the request's fields; each of the four scores read with default 0.0 and each of the eight flags with default False, under its own key |
| Supabase.BuildRow | api/utils/supabase.py:49-76 | the row as written |
| Supabase.BuildRowByCents | api/utils/supabase.py:49-76 | the corrected row |
| Supabase.Analytics.constructor | api/utils/supabase.py:19-26 | the table starts empty |
| Supabase.Analytics.SaveLlmData | api/utils/supabase.py:28-83 | exactly one row is inserted, or none on failure |
| Supabase.PartsOfReport | api/utils/supabase.py:44-47 | the sub-dicts of a cost report are found |
| Supabase.ReportEntries | api/utils/supabase.py:44-47 | a report's tokens and costs are found under their keys |
| Supabase.TokenColumnsOfReport | api/utils/supabase.py:73-75 | the token columns are the report's counts |
| Supabase.MoneyFields | api/utils/supabase.py:70-75 | the fields of a sum of money read back as stored |
| Supabase.DollarColumnsOfMoney | api/utils/supabase.py:70-75 | the columns as written take the totals from the whole units |
| Supabase.CentColumnsOfMoney | api/utils/supabase.py:70-75 | the corrected columns take the totals from the cents |
| Supabase.WholeOfCents | api/utils/supabase.py:70-72 | cents over a hundred |
| Supabase.CostColumnsOfReport | api/utils/supabase.py:70-75 | fed a report, the columns as written hold its whole units |
| Supabase.CostColumnsByCentsOfReport | api/utils/supabase.py:70-75 | fed a report, the corrected columns hold its cents over a hundred |
| Supabase.GptThousandReport | api/llm_router/cost_analyzer.py:98-105 | a gpt call of 1000 plus 1000 tokens costs 4 cents, 0 whole dollars |
| Supabase.SubDollarCostRecordedAsZero | api/utils/supabase.py:70-71 | as written, that call is recorded at 0.0 dollars |
| Supabase.ByCentsWithinACent | api/utils/supabase.py:70-72 | totals from the cents lie less than a cent below the cost |
| Supabase.CentsTotalsWithinACent | api/utils/supabase.py:70-72 | with the corrected columns, every recorded total lies less than a cent below the real cost |
| Supabase.ReportCentsOfCost | api/llm_router/cost_analyzer.py:98-105 | a report's cents truncate its cost in cents |

## Left out

- Hashing: `cache.py` is not part of this model. The database cache is keyed by the prompt itself.
- Floating point: amounts and scores are exact reals, with no rounding.
- Database.SortByCreation: pending rows created at the same instant keep their queue order; the database does not promise any order among them.
- `prompt_classifier` scores are counted in tenths, as integers.
- Fixed-point display (`.2f`, `.6f`) is a `Formatter` parameter.
- The tokenizer, the embedding service, the square root and HMAC-SHA256 (RFC 2104) are parameters.
- The backends (`call_gpt` and the others) are a `Call` parameter from a backend and prompt to a reply or exception.
- Clocks are parameters given in whole seconds. ISO timestamps and time zones are left out.
- Database I/O, network failures and `uuid` are left out. A `reachable` flag chooses between the success and failure paths.
- Concurrency, `async` scheduling and logging are left out.
- Lower-casing covers only ASCII and Latin-1 letters.
- Python's `str()` of non-string values is a `Show` parameter.
- `_format_agent_prompt` (api/utils/agent_service.py:26-50) is a `PromptFormatter` parameter. Its template text is not modelled.
- `SupabaseManager.execute`, `fetch_one`, `fetch_all`, `get_stats` and the `_get_*_stats` helpers are not modelled. They are thin wrappers over database queries.
- `SupabaseManager.save_llm_data` (api/utils/database.py:458-496) is not modelled. The row it writes is the one modelled in `Supabase`.
- `fetch_candidate_documents` and `embed_texts` (rag.py) are not modelled: the candidates and embeddings are parameters.
- The network calls are not modelled: `send_whatsapp_message`'s HTTP post, `send_to_make`, and `whatsapp_status`/`list_agents`.
- In the WhatsApp webhook, the steps after the parse are not composed into one member: routing, `analyze_cost`, `save_llm_data` and the send (api/routers/whatsapp.py:147-207). Each step is modelled on its own.
- In the agent webhook, the cost analysis, the analytics row, `send_to_make` and the WhatsApp sends are not modelled. The model's `Delivered` answer assumes they all succeed. In the code, a failure in any of them ends the request in the handler at api/routers/agent_whatsapp.py:229-237 with `{"status": "error", "reason": str(e)}`. One example is `send_whatsapp_message` raising `HTTPException` on a non-200 answer.
- The agent webhook module imports `send_to_make` and `cleanup_sessions` from `whatsapp.py` at api/routers/agent_whatsapp.py:14, and `whatsapp.py` defines neither. As the repository stands, importing the module raises `ImportError`, so the agent webhook is never served. The model describes the webhook as if the import succeeded.
- Whatsapp.ValidMessage approximates pydantic's lax-mode validation of `WhatsAppMessage` (api/routers/whatsapp.py:24-30). A `str` field accepts only strings. The `int` timestamp accepts booleans, whole numbers, and strings of digits with an optional sign and surrounding whitespace. Underscores in digit strings, and strings such as "1.0", are treated as invalid.
- Supabase.FloatOf: `float()` of a numeric string, such as "1.5", is not parsed. It is treated as raising, so the model records no row where the code would. Supabase.IntOf has the same gap for `int()`. The analyzer always hands numbers to these columns.
- The webhooks' JSON decoding of the request body is not modelled: the payload is given as a value.
- The message history (`HistoryManager.History`) and the conversation memory (`ConversationMemory.ConversationManager`) are separate stores in the model. In the code, both classes use the `conversation_memory` table (api/utils/history_manager.py:8, api/utils/conversation_memory.py:10). The model does not capture how a write through one shows up in a read through the other.
- The two response caches are separate in the model: `CacheManager.ResponseCache` and the `cache` table of `Database.SupabaseManager`. In the code, both use the `response_cache` table (api/utils/cache_manager.py:35,88,110 and api/utils/database.py:51,95,388). The model does not capture two effects. `cleanup_expired` also deletes `CacheManager`'s rows whose expiry is at or before now. `get_from_cache` can return a row that `CacheManager` wrote, with its response as a JSON string.
- Slack.ParseInt accepts only ASCII digits. Python's `int()` also accepts the other Unicode decimal digits, such as Arabic-Indic ones. A timestamp written with those is rejected by the model and read by the code.
- The `response` argument of `save_message` is not modelled, because the code never reads it.
- Router.RoutePromptByModel: its own contract states only the shape of the error record. The routing it performs is stated by `Route` and `ClassifiedPromptReachesChosenBackend`.
- AgentWhatsapp.AgentWebhook: it runs over the corrected agent service (`ProcessMessageRouted`), so that its finding is independent of the `sender_phone` one. Over the service as written, every message would end in the `KeyError`.

## Findings

| source | as written | input that shows it | evidently intended | confidence | as-written member | corrected member |
|---|---|---|---|---|---|---|
| api/llm_router/router.py:16-18 | without a model name, the router reads the classification's "recommended_model", but both classifiers return the choice under "model". Reading "model" is enough for `prompt_classifier`; a `classifier_agent` result still fails at api/llm_router/router.py:20, which reads a top-level "model_scores" it lacks (Router.AgentResultFailsAtScores) | any prompt routed with `model=None` | read the classifier's choice under "model" | not executed | Router.ClassifiedPromptAlwaysFails | Router.ClassifiedPromptReachesChosenBackend |
| api/utils/database.py:352-359 | the conversation's messages are stored as a `json.dumps` string, which `find_similar_response` iterates character by character | update with ("oi", "olá"), then search for "oi" | store the list itself, so the exchange can be found | not executed | Database.StoredConversationIsNeverSearched | Database.KeptConversationIsSearched |
| api/utils/agent_service.py:125-128 | `route_prompt` is called with a `sender_phone` keyword it does not accept, so every routed message gets the failure reply | any known agent and a message without a handoff trigger | call the router with the prompt alone | not executed | AgentService.Service.ProcessMessage | AgentService.RoutedReplyFollowsBackend |
| api/routers/agent_whatsapp.py:187 | `result["model"]` raises `KeyError` for the unknown-agent and handoff replies, so a handoff is never reported as "required" | a message containing a handoff trigger | read the model with `.get` | not executed | AgentWhatsapp.AgentWebhook | AgentWhatsapp.AgentWebhookByGet |
| api/routers/whatsapp.py:128-130 | the inbound number has "55" stripped, and the reply re-adds it only when missing, so a number with area code 55 is answered without its country code | sender "5555912345678@s.whatsapp.net" | always restore the country code that was stripped | not executed | Whatsapp.AreaCode55LosesCountryCode | Whatsapp.ReplyPhoneRoundTrip |
| api/routers/slack.py:60 | `route_prompt` is called with a `sender_phone` keyword it does not accept, so every user message is answered with HTTP 500 | a signed message event from a user | call the router with the prompt alone | not executed | Slack.MessageEventAlwaysFails | Slack.MessageEventAnswered |
| api/utils/supabase.py:70-71 | the cost totals are the whole-dollar figures, so any call under a dollar is recorded at 0.0 | gpt with 1000 prompt and 1000 completion tokens, which costs 4 cents | record the totals from the cents figures | not executed | Supabase.SubDollarCostRecordedAsZero | Supabase.CentsTotalsWithinACent |
