# Ukido assistant core, modelled in Dafny

The Ukido assistant is a Telegram and web chat bot for a children's soft-skills school. It answers
parents' questions from a vector knowledge base. Around the calls to its external services sits a
body of deterministic logic, and this project models that logic and proves properties of it:

- **Index profiler** (`IndexProfiler`). It counts metadata keys over a sample of index records, with
  their type names and up to three example values each. It tallies records per source and per chunk
  type, computes content length statistics, and lays out the text report.
- **Chunkers** (`EnhancedChunker`, `SimplifiedChunker`, `UkidoChunker`, `NewChunker`, `UpdateFacts`,
  `ImprovedChunker`). These are the section, paragraph and sentence packers that cut knowledge files
  into pieces for the index, together with the vector identifiers and record numbering that go with
  them. The enhanced chunker also has a retry policy and a relevance-filter routing rule.
- **Keyword classifiers and the dialogue funnel** (`Conversation`, `IntelligentAnalyzer`,
  `RagFilters`, `App`). These are first-match keyword cascades, the four-state lead funnel, the
  philosophical-loop detector, the canned fast answers, the lesson-link action token and the humour
  gate.
- **Caches and the circuit breaker** (`RagSystem`, `IntelligentAnalyzer`, `Conversation`). The circuit
  breaker has CLOSED, OPEN and HALF_OPEN states. The retrieval cache has a TTL and first-in-first-out
  eviction. There is a three-map TTL analysis cache with hit and miss counters, and a bounded
  in-process conversation history.
- **Metadata extractors** (`ExtractMetadata`, `CustomMetadata`). Keyword tables map to labels without
  repeats; numbers are filtered by range; the first matching category names the content.
- **Configuration** (`Config`). The required-variable validation and the two URL builders.

`Text` holds the Python string operations used everywhere: containment, `find`, `split`, `join`,
`replace`, `strip`, `lower()`, slicing and integer rendering. It comes with the lemmas that relate
them, such as a split joined again giving back the text. `Transliteration` is the Cyrillic-to-Latin
table shared by the two identifier builders.

Operations that change things step by step are methods with loops. Each such method is proved
equal to a specification function, and lemmas state what the source promises about that function.
The state-holding objects of the source are classes whose methods keep an invariant: the circuit
breaker, the retrieval and analysis caches, the conversation manager, the retry handler and the
metadata extractor.

In these places the model follows the code:

- a metadata key is counted even when its value is null (analyze_pinecone_index.py:80-81);
- a key's type is the set of type names seen, not one inferred type (analyze_pinecone_index.py:82);
- an empty or missing content field contributes no length (analyze_pinecone_index.py:113-115);
- chunk types are reported in first-seen order and are not ranked or capped; only sources go
  through `most_common(10)` (analyze_pinecone_index.py:131-132).

## Model

| member | source | states |
|---|---|---|
| Config.GetRequiredEnv | config.py:57-65 | a required variable yields its value exactly when it is set and non-empty, and otherwise an error naming it |
| Config.RequiredValues | config.py:29-34 | reading the six required variables in order either gives every value or fails with the name of the first missing one |
| Config.FirstBadKey | config.py:99-101 | the key loop stops at the first key that is empty or shorter than 10 characters once stripped, and finds none exactly when all are acceptable |
| Config.ValidateConfiguration | config.py:83-111 | validation passes exactly when all six critical keys are acceptable, the port is in 1..65535 and the memory size is at least 1 |
| Config.ShortKeyRejected | config.py:99-101 | a critical key of fewer than 10 non-padding characters makes validation fail |
| Config.TelegramWebhookUrl | config.py:117-122 | the webhook URL is the base URL followed by a single `/` |
| Config.LessonUrl | config.py:124-128 | the lesson link starts with the base URL and `/lesson?user_id=` and ends with the user id |
| Config.LessonUrlInjective | config.py:124-128 | two users get the same lesson link exactly when their ids are equal |
| RagFilters.AnalyzeQueryIntent | rag_filters.py:11-34 | a query needs specific handling exactly when its category is not `general` |
| RagFilters.IntentMatchesTable | rag_filters.py:13-34 | the if-cascade equals a first-hit lookup over the five keyword groups in order, with teachers refined by an experience word |
| RagFilters.PricingFirst | rag_filters.py:16-17 | a pricing word gives `pricing` whatever else the query contains |
| RagFilters.TeacherCategories | rag_filters.py:19-23 | without a pricing word, a teacher word gives `teacher_experience` with an experience word and `teachers` without |
| RagFilters.ExperienceNeedsTeacher | rag_filters.py:19-23 | an experience word without a teacher word never gives `teacher_experience` |
| RagFilters.GeneralIffNoHit | rag_filters.py:34 | the category is `general` exactly when no keyword group has a hit |
| RagFilters.GetMetadataFilters | rag_filters.py:36-45 | no metadata filter is ever produced |
| App.GetFastResponse | app.py:109-113 | a message of more than three words (after lower-casing and stripping) never gets a canned answer |
| App.LookupFastChoice | app.py:115-121 | the dictionary loop returns the answer of the first key, in insertion order, that the text contains |
| App.FastResponseChoice | app.py:96-121 | a message of at most three words gets the first matching key's answer, with the chat's lesson link for `пробный`, `записаться` and `урок` |
| App.NoFastResponse | app.py:109-122 | there is no canned answer exactly when the message is longer than three words or contains none of the keys |
| App.LookupFastNone | app.py:115-122 | the loop finds nothing exactly when no key occurs in the text |
| App.LinkAnswerEndsWithLesson | app.py:119-120 | a booking answer ends with the lesson link of the chat that asked |
| App.ProcessActionTokens | app.py:212-216 | a response without `[ACTION:SEND_LESSON_LINK]` is returned unchanged |
| App.ActionTokenGivesLink | app.py:212-216 | a response with the token comes back containing the link intro, the base URL and the lesson path |
| App.ShouldUseHumor | app.py:133-140 | a message containing a sensitive keyword never gets humour |
| App.HumorCascade | app.py:133-167 | a humour pattern forces humour once the blacklist is clear; a factual keyword then forbids it; a failed classifier call means humour only through a pattern |
| App.DivorcePatternNeverJokes | app.py:30-145 | the trigger `развод.*деньги` can never fire, because every text it matches contains the blacklisted `развод` |
| RagSystem.CallStep | rag_system.py:55-106 | a call that does not invoke the function leaves the breaker unchanged and never returns the function's value; no call leaves the breaker HALF_OPEN |
| RagSystem.ClosedSuccess | rag_system.py:89-94 | in CLOSED a successful call resets the failure count to 0 and returns the result |
| RagSystem.ClosedFailure | rag_system.py:96-106 | in CLOSED a failing call adds one failure and re-raises; the breaker opens, stamped with the current time, exactly when the count reaches the threshold |
| RagSystem.OpenBlocks | rag_system.py:63-70 | an OPEN breaker inside its timeout returns None without invoking the function and without changing state |
| RagSystem.OpenTrial | rag_system.py:64-86 | after the timeout one trial call is made: success closes the breaker with count 0 and returns the result; failure reopens it with a fresh timestamp and returns None instead of raising |
| RagSystem.RunConsistent | rag_system.py:55-106 | every call keeps the breaker invariant: never HALF_OPEN between calls, CLOSED below the threshold, OPEN with a failure time |
| RagSystem.FreshBreakerConsistent | rag_system.py:43-106 | a breaker built by the constructor satisfies the invariant after any sequence of calls, so the missing-failure-time path is unreachable |
| RagSystem.FailuresKeepOpen | rag_system.py:63-86 | once OPEN, a run of failing calls keeps the breaker OPEN |
| RagSystem.ConsecutiveFailuresOpen | rag_system.py:96-104 | enough consecutive failures open a CLOSED breaker |
| RagSystem.CircuitBreaker.constructor | rag_system.py:43-50 | a new breaker is CLOSED with no failures and no failure time |
| RagSystem.CircuitBreaker.Call | rag_system.py:55-106 | the method updates the fields and returns exactly as the call step says |
| RagSystem.RelevantChunks | rag_system.py:358-361 | the filter never yields more chunks than matches |
| RagSystem.RelevantChunksAreFiltered | rag_system.py:358-361 | the chunks are the texts of exactly the matches scoring above 0.3, in match order, with an empty text when a match has none |
| RagSystem.MaxScore | rag_system.py:368 | the maximum score is one of the scores and bounds them all, and is 0 with no matches |
| RagSystem.ContextHoldsChunks | rag_system.py:363 | the context contains every kept chunk, and its length is theirs plus two characters per separator |
| RagSystem.FilterMatches | rag_system.py:358-361 | the loop computes the relevant chunks |
| RagSystem.Without | rag_system.py:262 | deleting a key removes exactly that key from the insertion order and keeps it duplicate-free |
| RagSystem.LookupProperties | rag_system.py:248-266 | a lookup returns the entry only when it is younger than the TTL; an expired entry is deleted; a miss leaves the key absent; other keys are untouched |
| RagSystem.EvictValid | rag_system.py:274-278 | evicting the n oldest keys keeps the dictionary well formed and removes n keys |
| RagSystem.EvictDropsOldest | rag_system.py:276-278 | eviction removes exactly the keys at the first n positions of the insertion order |
| RagSystem.StoreProperties | rag_system.py:268-284 | storing records the entry, keeps the cache within `MAX_CACHE_SIZE` when that is at least 4, and drops exactly the oldest quarter when the cache was full |
| RagSystem.GetEmbedding | rag_system.py:209-239 | the embedding request goes through the embedding breaker; a blocked call counts a block and an embedding error, a raised one an embedding error, and only a returned call gives an embedding |
| RagSystem.GetIndex | rag_system.py:165-207 | a remembered answer is returned with no call; otherwise the initializer runs through the index breaker, success creates the index and sets the availability flag, a block clears it and counts a block, an exception clears it and counts an index error, and the answer is remembered |
| RagSystem.IndexRemembered | rag_system.py:165-166 | after the first lookup every later one gives the same answer, a missing index included, and changes neither breaker nor counters |
| RagSystem.BlockedIndexStaysMissing | rag_system.py:194-201 | a first lookup while the index breaker is inside its timeout counts a block and leaves the index missing for good |
| RagSystem.EmbeddingFailuresOpen | rag_system.py:141-145 | five failed embedding requests in a row open a fresh embedding breaker |
| RagSystem.SearchAfterMissOutcomes | rag_system.py:306-395 | a search reaches the index exactly when the embedding, the index and the index breaker let it through; only then is it cached and counted successful; every fallback reports no chunks, keeps the cache and counts one failed query; a blocked query also counts a block; hit and miss counters are untouched |
| RagSystem.SearchUsesEmbeddingBreaker | rag_system.py:226-239 | a failed embedding falls back, adds one failure to a CLOSED embedding breaker, opens it at the fifth, counts an embedding error and leaves the index side and the cache alone |
| RagSystem.RagSystem.constructor | rag_system.py:121-162 | a new retrieval object has an empty cache, zero counters, no index yet and two fresh breakers with the index (3, 120 s) and embedding (5, 60 s) settings |
| RagSystem.RagSystem.GetCachedResult | rag_system.py:248-266 | the method performs the lookup and counts exactly one hit or one miss, leaving the other counters alone |
| RagSystem.RagSystem.CacheResult | rag_system.py:268-284 | the method performs the store, changes no counter, and keeps the cache holding only results of searches that reached the index |
| RagSystem.RagSystem.GetQueryEmbedding | rag_system.py:209-239 | the method calls the embedding breaker and sets the breaker and counters as the embedding step gives |
| RagSystem.RagSystem.GetPineconeIndex | rag_system.py:165-207 | the method returns the remembered answer or runs the initializer through the index breaker, and sets the slot, breaker and counters as the index step gives |
| RagSystem.RagSystem.SearchKnowledgeBase | rag_system.py:286-395 | a cache hit returns the cached result and only counts a hit; a miss counts a miss, drops an expired entry, and then leaves the result, cache, counters, index slot and both breakers as the search after a miss gives |
| RagSystem.RagSystem.SearchIndex | rag_system.py:306-395 | the result, cache, counters, index slot and both breakers are those the search after a miss gives, and only index results are cached |
| RagSystem.RagSystem.QueryIndex | rag_system.py:336-380 | the query through the index breaker leaves result, cache, counters and breaker as the query step gives |
| RagSystem.RagSystem.BuildAndCache | rag_system.py:357-380 | a successful search yields the joined relevant chunks (or the placeholder), their count and the maximum score, is cached, and counts one successful query |
| IntelligentAnalyzer.CleanupExpired | intelligent_analyzer.py:58-67 | the cleanup deletes exactly the entries older than the TTL and keeps every other entry unchanged |
| IntelligentAnalyzer.CleanupKeepsLiveEntries | intelligent_analyzer.py:58-79 | an entry younger than the TTL survives the cleanup unchanged, and every survivor is at most the TTL old |
| IntelligentAnalyzer.Cleaned | intelligent_analyzer.py:58-67 | the map the cleanup leaves holds exactly the entries at most the TTL old, each unchanged |
| IntelligentAnalyzer.CleanedUnique | intelligent_analyzer.py:58-67 | whatever order the expired keys are deleted in, the cleanup ends with that one map |
| IntelligentAnalyzer.AdvancedCache.constructor | intelligent_analyzer.py:27-44 | a new cache has three empty maps and zero counters |
| IntelligentAnalyzer.AdvancedCache.GetCategoryCache | intelligent_analyzer.py:72-87 | after the cleanup, the stored category is returned only while younger than 24 hours; a hit adds to the category hits and the saved calls, a miss to the misses; the other maps and counters are untouched |
| IntelligentAnalyzer.AdvancedCache.SetCategoryCache | intelligent_analyzer.py:89-95 | the category map records the value with the current time |
| IntelligentAnalyzer.AdvancedCache.GetStateCache | intelligent_analyzer.py:97-112 | the same for the state map with a 4-hour TTL, hits also adding to the saved calls |
| IntelligentAnalyzer.AdvancedCache.SetStateCache | intelligent_analyzer.py:114-120 | the state map records the value with the current time |
| IntelligentAnalyzer.AdvancedCache.GetPhilosophyCache | intelligent_analyzer.py:122-136 | the same for the philosophy map with a 2-hour TTL, but a hit does not add to the saved calls |
| IntelligentAnalyzer.AdvancedCache.SetPhilosophyCache | intelligent_analyzer.py:138-144 | the philosophy map records the value with the current time |
| IntelligentAnalyzer.AdvancedCache.GetCacheStats | intelligent_analyzer.py:161-183 | the total request count is the sum of hits and misses over the three maps; the saved calls are the category plus the state hits |
| IntelligentAnalyzer.DropStopWords | intelligent_analyzer.py:283-284 | the kept words are words of the input and none of them is a stop word |
| IntelligentAnalyzer.NormalizeForCaching | intelligent_analyzer.py:277-286 | the normalised text has no upper-case Latin or Cyrillic letter, so the cache key does not depend on the letter case of the message (its words are stated by NormalizeProperties) |
| IntelligentAnalyzer.NormalizeMatchesSource | intelligent_analyzer.py:277-286 | the single split used by the model gives the same string as the source's split, join and split again |
| IntelligentAnalyzer.NormalizeProperties | intelligent_analyzer.py:277-286 | the normalised text is lower-case, its words are the input's lower-cased words minus the stop words in order, and normalising it again changes nothing |
| IntelligentAnalyzer.DropStopWordsIdempotent | intelligent_analyzer.py:284 | dropping stop words from words that hold none changes nothing |
| IntelligentAnalyzer.WordsOfNormalized | intelligent_analyzer.py:284-286 | splitting the joined kept words gives the kept words back |
| IntelligentAnalyzer.LoweredWords | intelligent_analyzer.py:280-284 | every kept word of a lower-cased text is lower-case |
| IntelligentAnalyzer.ShouldUseHumorTaboo | intelligent_analyzer.py:483-491 | true exactly when one of the taboo keywords occurs at some position of the lower-cased message |
| IntelligentAnalyzer.ContainsAnyOccurs | intelligent_analyzer.py:491 | `any(k in s for k in ks)` holds exactly when some keyword of the list occurs at some position of the text |
| IntelligentAnalyzer.TabooIgnoresCase | intelligent_analyzer.py:489-491 | a message and its lower-cased form get the same taboo answer |
| IntelligentAnalyzer.ValidatedCategory | intelligent_analyzer.py:337-357 | the model's stripped, lower-cased reply is used when it names a category, otherwise `factual`, also when the call fails |
| IntelligentAnalyzer.CategoryDecision | intelligent_analyzer.py:306-357 | the uncached decision is always `sensitive` or one of the three categories |
| IntelligentAnalyzer.CategoryCascade | intelligent_analyzer.py:308-357 | a taboo word gives `sensitive` before any keyword; otherwise the first keyword group with a hit decides; only then is the model consulted |
| IntelligentAnalyzer.FactualFirst | intelligent_analyzer.py:204-320 | without a taboo word, a factual keyword wins over the philosophical and problem keywords |
| IntelligentAnalyzer.ValidatedState | intelligent_analyzer.py:418-435 | the model's reply is used when it names a state, otherwise the current state is kept, also when the call fails |
| IntelligentAnalyzer.LeadStateDecision | intelligent_analyzer.py:376-435 | a known current state always gives a known state, and the state changes only to a known one, and only through a lesson request, a state keyword, or the model's valid answer to a message of at least five words |
| IntelligentAnalyzer.LeadStateCascade | intelligent_analyzer.py:376-435 | a direct lesson request gives `closing` first; without a keyword, a message under five words or a wrong or failed model answer keeps the current state; nothing else comes out |
| IntelligentAnalyzer.PhilosophicalRun | intelligent_analyzer.py:462-470 | the run is never longer than the lines examined |
| IntelligentAnalyzer.PhilosophicalRunIsSuffix | intelligent_analyzer.py:462-470 | the run is the maximal trailing block of lines the classifier calls philosophical |
| IntelligentAnalyzer.RecentUserLines | intelligent_analyzer.py:458-459 | at most the last ten user lines are examined |
| IntelligentAnalyzer.CountPhilosophical | intelligent_analyzer.py:462-470 | the reversed loop with its `break` counts exactly the trailing philosophical run |
| IntelligentAnalyzer.Analyzer.constructor | intelligent_analyzer.py:197-201 | a new analyzer starts with a fresh, valid cache |
| IntelligentAnalyzer.Analyzer.AnalyzeQuestionCategory | intelligent_analyzer.py:288-357 | a live non-empty cached category is returned; otherwise the decision is computed and stored with the current time; the result is always a valid category; the category map is the cleaned map, plus the new entry on a recomputation; a live entry counts a category hit and a saved call, any other lookup a miss; the state and philosophy maps and their counters are untouched |
| IntelligentAnalyzer.Analyzer.DecideCategory | intelligent_analyzer.py:306-357 | on a cache miss the uncached decision is returned and stored under the key with the current time, and nothing else in the cache changes |
| IntelligentAnalyzer.Analyzer.AnalyzeLeadState | intelligent_analyzer.py:359-435 | a live non-empty cached state is returned; otherwise the decision is computed and stored with the current time; the state map is the cleaned map, plus the new entry on a recomputation; a live entry counts a state hit and a saved call, any other lookup a miss; the category and philosophy maps and their counters are untouched |
| IntelligentAnalyzer.Analyzer.AnalyzePhilosophicalLoop | intelligent_analyzer.py:437-481 | an empty history gives (False, 0); a cached verdict is returned; otherwise the count is the trailing philosophical run of the last ten user lines, at most 10, the bridge flag is set exactly when the count is at least 3, and the verdict is cached; the philosophy map is the cleaned map, plus the new verdict on a recomputation; one philosophy hit or miss is counted, no saved call, and the state cache is untouched |
| Conversation.InferStateFromHistory | conversation.py:131-155 | the inferred state is always one of the four dialogue states, and an empty history is a greeting |
| Conversation.KeywordInRecentLineDecides | conversation.py:140-147 | a state keyword in any one of the last four user lines decides the state, unless an earlier state group also has a keyword there |
| Conversation.KeywordInLineHits | conversation.py:141-147 | a keyword inside one joined, lower-cased line makes its group the first hit when no earlier group hits |
| Conversation.InferStateWithoutKeywords | conversation.py:149-155 | without keywords, greeting holds exactly below 4 lines, fact finding exactly from 4 to 7, problem solving exactly from 8 |
| Conversation.StateTransition | conversation.py:288-325 | a known current state always moves to a known state |
| Conversation.TransitionCascade | conversation.py:298-325 | an empty message keeps the state; a lesson request closes first; a keyword state wins over the length rules; a message under five words keeps the state; the length rules only move greeting to fact finding and, over ten words, fact finding to problem solving |
| Conversation.AppendTurnShape | conversation.py:262-271 | the new history is the newest older lines, then the user line and the assistant line, and it is never longer than twice the memory size |
| Conversation.AlternatingSnoc | conversation.py:265-266 | appending a user line and then an assistant line keeps the lines alternating |
| Conversation.AlternatingLast | conversation.py:269-271 | keeping an even number of the newest lines keeps them alternating |
| Conversation.AppendTurnKeepsTurns | conversation.py:262-271 | a history of whole exchanges stays one after an exchange is appended and the history is cut |
| Conversation.CleanupDropsOlderHalf | conversation.py:281-285 | past the user limit, the cleanup keeps exactly the chats from position len/2 on in insertion order |
| Conversation.CleanupWellFormed | conversation.py:276-285 | the cleanup keeps the dictionary well formed, changes nothing within the limit and otherwise drops exactly the older half |
| Conversation.CleanupKeysInOrder | conversation.py:283-285 | after the cleanup, the kept order and the kept keys are the same chats |
| Conversation.PutWellFormed | conversation.py:262-263 | assigning a chat's history keeps the keys distinct and in step with the insertion order |
| Conversation.PutNewThenCleanup | conversation.py:262-285 | a new chat arriving at the user limit survives with its history, the other survivors are unchanged, and exactly the older half of the old chats is dropped |
| Conversation.PutThenCleanup | conversation.py:262-285 | an assignment followed by the cleanup stays well formed and within the limit, holds the new history, keeps the other survivors unchanged, loses nobody unless a new chat crosses the limit, and then loses exactly the older half |
| Conversation.UpdateProperties | conversation.py:256-285 | one exchange keeps the memory valid, stores exactly the appended and cut history for the chat, leaves every other surviving history as it was, and drops chats only as the cleanup says |
| Conversation.UpdateKeepsValid | conversation.py:256-285 | every chat's history stays a sequence of whole exchanges of at most twice the memory size, for at most the maximum number of chats |
| Conversation.NormalizeChatId | conversation.py:96-100 | a missing chat id becomes the empty string, any other is kept |
| Conversation.CleanResponseWithoutToken | conversation.py:221 | an answer without the action token is stored as it is |
| Conversation.StateWrite | conversation.py:157-175 | a state is written exactly when the chat id is not empty and the state is known, under the key `state:` plus the chat id |
| Conversation.ConversationManager.constructor | conversation.py:47-63 | a new manager has an empty fallback memory |
| Conversation.ConversationManager.CleanupFallbackMemory | conversation.py:276-286 | the one-at-a-time deletion loop leaves exactly the result of dropping the older half |
| Conversation.ConversationManager.UpdateFallbackMemory | conversation.py:256-274 | the in-place updates produce exactly the new memory of one exchange and keep the memory valid |
| Conversation.ConversationManager.UpdateConversationHistory | conversation.py:207-254 | an empty chat id or message changes nothing; otherwise the exchange is stored with the action token replaced |
| Conversation.ConversationManager.GetConversationHistory | conversation.py:177-205 | an empty chat id gives an empty history; otherwise the stored history, empty for an unknown chat |
| Conversation.ConversationManager.GetDialogueState | conversation.py:102-129 | an empty chat id is a greeting; otherwise the state inferred from the stored history, always a known state |
| Conversation.StoredExchangeIsRead | conversation.py:217-271 | after an exchange is stored, reading the chat's history gives the newest older lines followed by the user line and the cleaned answer |
| CustomMetadata.FirstGroup | custom_metadata_extractor.py:123-136 | the group found has a pattern in the text and no earlier group has one; no group is found exactly when none has a pattern there |
| CustomMetadata.SearchAny | custom_metadata_extractor.py:144-148 | the pattern loop answers true exactly when some pattern is found, ignoring case |
| CustomMetadata.Node.constructor | custom_metadata_extractor.py:256-271 | a node holds the text and the metadata dictionary that the extraction reads and updates |
| CustomMetadata.CustomMetadataExtractor.constructor | custom_metadata_extractor.py:30-119 | the extractor holds the school's course, content-type, pricing, teacher and FAQ tables |
| CustomMetadata.CustomMetadataExtractor.DetermineContentType | custom_metadata_extractor.py:123-136 | the nested loops return the first content type in table order with a pattern in the lower-cased text, else `general` |
| CustomMetadata.CustomMetadataExtractor.HasPricingInfo | custom_metadata_extractor.py:138-148 | true exactly when a pricing pattern is in the lower-cased text |
| CustomMetadata.CustomMetadataExtractor.FindMentionedCourses | custom_metadata_extractor.py:150-179 | the loop lists the courses with a variant in the text, in table order, each once |
| CustomMetadata.CustomMetadataExtractor.IsTeacherInfo | custom_metadata_extractor.py:181-195 | true exactly when a teacher pattern or a teacher's name is in the text, ignoring case |
| CustomMetadata.CustomMetadataExtractor.IsFaq | custom_metadata_extractor.py:197-205 | true exactly when an FAQ pattern is in the text, ignoring case |
| CustomMetadata.CustomMetadataExtractor.ExtractMetadataFromText | custom_metadata_extractor.py:207-232 | the dictionary built key by key is the seven-key metadata of the text |
| CustomMetadata.CustomMetadataExtractor.Extract | custom_metadata_extractor.py:234-289 | one report per node in order, empty for a node without text; every node with text ends with its own metadata overwritten by the extracted keys, and no text changes |
| CustomMetadata.CustomMetadataExtractor.ExtractNode | custom_metadata_extractor.py:256-275 | for one node: an empty text reports nothing and leaves the node alone; otherwise the report is the extracted metadata and the node's metadata is its own overwritten by it |
| CustomMetadata.FirstGroupIs | custom_metadata_extractor.py:127-134 | a group with a hit after groups without one is the group found |
| CustomMetadata.CiContainsAnyLowered | custom_metadata_extractor.py:125-134 | lower-casing the text before an ignore-case search does not change the answer |
| CustomMetadata.ContentTypeFirst | custom_metadata_extractor.py:123-136 | the content type is the first type with a pattern in the text itself, ignoring case, and `general` when no type has one |
| CustomMetadata.CoursesAmongShape | custom_metadata_extractor.py:150-179 | the courses found among the first n have no duplicates, appear in table order, all have a variant in the text, and every such course is listed |
| CustomMetadata.CourseAdded | custom_metadata_extractor.py:170-176 | adding a newly found course keeps the list distinct, in order and complete |
| CustomMetadata.CourseSkipped | custom_metadata_extractor.py:170-176 | skipping a course that is not found or already listed keeps the list in order and complete |
| CustomMetadata.MentionedCoursesShape | custom_metadata_extractor.py:150-179 | the mentioned courses have no duplicates and are exactly the courses with a variant in the text |
| CustomMetadata.ExtractedMetadataShape | custom_metadata_extractor.py:207-232 | the metadata has exactly the seven keys; `has_courses` says whether a course was mentioned and `text_length` is the text's length |
| CustomMetadata.MergedIdempotent | custom_metadata_extractor.py:264-271 | merging the extracted metadata twice is merging it once |
| CustomMetadata.SubTableHit | custom_metadata_extractor.py:35-119 | a pattern of a leading part of a table that is found is a found pattern of the table |
| CustomMetadata.PricingIsPricingType | custom_metadata_extractor.py:35-148 | with the school's tables, a text with pricing is of type `pricing` and its metadata says so |
| CustomMetadata.TeacherPatternsType | custom_metadata_extractor.py:35-195 | with the school's tables, a text matched by the teacher patterns is of type `pricing` or `teachers` |
| CustomMetadata.FaqType | custom_metadata_extractor.py:35-205 | with the school's tables, an FAQ text is of type `pricing`, `teachers` or `faq` |
| EnhancedChunker.SanitizeChar | enhanced_zhvanetsky_chunker.py:724-731 | one character contributes only ASCII letters, digits, `-` and `_` |
| EnhancedChunker.Sanitized | enhanced_zhvanetsky_chunker.py:724-731 | the sanitised name holds only ASCII letters, digits, `-` and `_` |
| EnhancedChunker.GenerateSafeVectorId | enhanced_zhvanetsky_chunker.py:675-760 | the transliteration loop, the sanitising loop, the `while '--'` loop, the strip, the cut to 50 and the ASCII fallback to an MD5 prefix compute exactly the identifier the five steps define |
| EnhancedChunker.TransliterateName | enhanced_zhvanetsky_chunker.py:711-720 | the loop replaces each Russian letter by its Latin spelling and keeps every other character |
| EnhancedChunker.SanitizeName | enhanced_zhvanetsky_chunker.py:724-731 | the loop keeps safe characters, turns spaces, dots and brackets into hyphens and drops the rest |
| EnhancedChunker.SanitizedConcat | enhanced_zhvanetsky_chunker.py:726-731 | sanitising works character by character: the sanitised concatenation is the concatenation of the sanitised parts |
| EnhancedChunker.SanitizedSafe | enhanced_zhvanetsky_chunker.py:726-731 | sanitising a name that is already safe changes nothing |
| EnhancedChunker.SanitizedTransliteration | enhanced_zhvanetsky_chunker.py:696-731 | after both loops each Russian letter stands as its Latin spelling, separators as hyphens and other safe characters as themselves, all else dropped |
| EnhancedChunker.StrippedSafe | enhanced_zhvanetsky_chunker.py:737 | stripping hyphens from a safe name without doubled hyphens leaves one that neither starts nor ends with a hyphen |
| EnhancedChunker.ShortenedSafe | enhanced_zhvanetsky_chunker.py:741-743 | the cut to 50 characters and the right strip keep the name safe, without doubled hyphens, hyphen-free at both ends and at most 50 long |
| EnhancedChunker.StrippedShape | enhanced_zhvanetsky_chunker.py:737-743 | stripping and then shortening give a safe name of at most 50 characters with no hyphen at either end and none doubled |
| EnhancedChunker.NormalizedNameShape | enhanced_zhvanetsky_chunker.py:711-743 | the name part holds only ASCII letters, digits, `-` and `_`, has no doubled hyphen, does not start or end with a hyphen and is at most 50 long |
| EnhancedChunker.AsciiId | enhanced_zhvanetsky_chunker.py:746-752 | an ASCII index name, a safe name and a decimal number make an ASCII identifier |
| EnhancedChunker.SafeVectorIdFormat | enhanced_zhvanetsky_chunker.py:746-760 | for an ASCII index name the hash fallback is never taken and the identifier is `{index}-{name}-{chunk}` |
| EnhancedChunker.GroupsOkAppend | enhanced_zhvanetsky_chunker.py:826-841 | closing a good group keeps every closed group good |
| EnhancedChunker.PendingGroupOk | enhanced_zhvanetsky_chunker.py:853-866 | a non-empty pending group without a standalone paragraph is a good group |
| EnhancedChunker.NoStandaloneAppend | enhanced_zhvanetsky_chunker.py:859 | adding a plain paragraph to the pending group keeps it free of standalone paragraphs |
| EnhancedChunker.CloseTwo | enhanced_zhvanetsky_chunker.py:825-841 | closing the pending group and then a standalone paragraph keeps the groups good and holds the same paragraphs plus the new one |
| EnhancedChunker.PackStepKeeps | enhanced_zhvanetsky_chunker.py:821-863 | one turn of the packing loop keeps the pending size, the good groups and the pending group's purity, and adds exactly the paragraph |
| EnhancedChunker.StandaloneStepKeeps | enhanced_zhvanetsky_chunker.py:824-843 | the same for the aphorism and dialogue branches |
| EnhancedChunker.PlainStepKeeps | enhanced_zhvanetsky_chunker.py:845-863 | the same for the size branch |
| EnhancedChunker.PackWellPacked | enhanced_zhvanetsky_chunker.py:817-863 | after the loop the state is well packed and holds exactly the input paragraphs, as a multiset |
| EnhancedChunker.StyleGroupsCover | enhanced_zhvanetsky_chunker.py:815-866 | before post-processing every paragraph lands in exactly one chunk, no chunk is empty, and every aphorism, and every dialogue of at most 1500 characters, is a chunk of its own |
| EnhancedChunker.PendingSize | enhanced_zhvanetsky_chunker.py:845-863 | the running size is the length of the pending paragraphs joined by blank lines |
| EnhancedChunker.TidiedEach | enhanced_zhvanetsky_chunker.py:879-893 | each chunk stripped and tidied, one for one |
| EnhancedChunker.TidiedEachStep | enhanced_zhvanetsky_chunker.py:878-895 | tidying a longer list tidies its last chunk after the others |
| EnhancedChunker.PostStepShape | enhanced_zhvanetsky_chunker.py:878-895 | one turn of the post-processing loop adds at most one chunk, keeps at least one, and every chunk is a tidied input or at most 1500 long |
| EnhancedChunker.PostProcessedShape | enhanced_zhvanetsky_chunker.py:874-897 | post-processing never adds chunks, keeps at least one for a non-empty input, and every output chunk is an input chunk stripped and tidied or at most 1500 characters long |
| EnhancedChunker.PostProcessedNoMerge | enhanced_zhvanetsky_chunker.py:882-895 | when no stripped chunk is both short and not an aphorism, post-processing only strips and tidies each chunk |
| EnhancedChunker.PostProcessStyleChunks | enhanced_zhvanetsky_chunker.py:874-897 | the loop that rewrites the last processed chunk in place computes exactly the post-processed list |
| EnhancedChunker.CreateStyleAwareChunks | enhanced_zhvanetsky_chunker.py:810-872 | the chunks are the packed paragraph groups joined by blank lines, then post-processed |
| EnhancedChunker.PackParagraphs | enhanced_zhvanetsky_chunker.py:815-866 | the packing loop and the final flush give the packed groups joined by blank lines |
| EnhancedChunker.PackTurn | enhanced_zhvanetsky_chunker.py:822-863 | one turn on the concrete chunks, pending list and size does what the packing step says |
| EnhancedChunker.FilterChunkIfNeeded | enhanced_zhvanetsky_chunker.py:899-917 | a chunk is accepted without the filter unless the file is a PDF and filtering is on, in which case the filter's verdict is returned |
| EnhancedChunker.TextFilesAccepted | enhanced_zhvanetsky_chunker.py:905-909 | a `.txt` file in any letter case is accepted with the text-file reason and never sent to the filter |
| EnhancedChunker.DisabledAccepts | enhanced_zhvanetsky_chunker.py:912-917 | with filtering off every chunk is accepted |
| EnhancedChunker.RetryFromCalls | enhanced_zhvanetsky_chunker.py:190-264 | from any attempt on, the call is made at most `max_retries` times in all and at most one failed operation is counted |
| EnhancedChunker.RetryCallCalls | enhanced_zhvanetsky_chunker.py:190-264 | the wrapped function is called at most `max_retries` times, at least once when `max_retries` is positive, and at most one failed operation is counted |
| EnhancedChunker.FatalReraisedFrom | enhanced_zhvanetsky_chunker.py:241-259 | a non-recoverable error after recoverable ones is re-raised at once, with no failed operation counted |
| EnhancedChunker.SuccessReturnedFrom | enhanced_zhvanetsky_chunker.py:190-253 | a success after recoverable failures is returned after exactly that many calls, each earlier failure counting one retry |
| EnhancedChunker.ExhaustedFrom | enhanced_zhvanetsky_chunker.py:208-264 | when every attempt fails recoverably, all calls are made, the last error is re-raised and one failed operation is counted |
| EnhancedChunker.FatalReraised | enhanced_zhvanetsky_chunker.py:203-259 | from the first attempt: a non-recoverable error on attempt k after recoverable ones only is re-raised after k calls, with no failed operation counted |
| EnhancedChunker.SuccessReturned | enhanced_zhvanetsky_chunker.py:190-201 | from the first attempt: a success on attempt k after recoverable failures only is returned after k calls |
| EnhancedChunker.ExhaustedReraisesLast | enhanced_zhvanetsky_chunker.py:208-264 | from the first attempt: all `max_retries` recoverable failures re-raise the last error, count `max_retries - 1` retries and one failed operation |
| EnhancedChunker.SmartRetryHandler.constructor | enhanced_zhvanetsky_chunker.py:69-83 | a new handler keeps its attempt limit and starts with all four counters at zero |
| EnhancedChunker.SmartRetryHandler.RetryApiCall | enhanced_zhvanetsky_chunker.py:163-264 | the attempt loop returns, re-raises or gives up exactly as the retry policy says and leaves exactly its counters |
| EnhancedChunker.Digits | enhanced_zhvanetsky_chunker.py:107 | the greedy `(\d+)`: a non-empty run of digits followed by a non-digit or the end, found exactly when the text starts with a digit |
| EnhancedChunker.Search | enhanced_zhvanetsky_chunker.py:105-124 | `re.search` finds a match exactly when one exists, and returns the capture at the leftmost position that matches |
| EnhancedChunker.FirstPhraseDelay | enhanced_zhvanetsky_chunker.py:114-124 | no delay is read exactly when none of the fallback phrases is found |
| EnhancedChunker.ExtractRetryDelay | enhanced_zhvanetsky_chunker.py:90-126 | a structured `retry_delay` field, when present, decides the delay before any fallback phrase |
| EnhancedChunker.NoRetryDelay | enhanced_zhvanetsky_chunker.py:105-126 | no delay is recommended exactly when neither the structured field nor any fallback phrase of the lower-cased message occurs |
| EnhancedChunker.DelayFieldRead | enhanced_zhvanetsky_chunker.py:105-111 | a message that starts `retry_delay { seconds: N` yields the delay N |
| EnhancedChunker.DigitRunPrefix | enhanced_zhvanetsky_chunker.py:107 | the digit run of digits followed by a non-digit is exactly those digits |
| EnhancedChunker.BreaksFrom | enhanced_zhvanetsky_chunker.py:636-649 | the breaks from a position on are increasing, are all natural breaks, and include every natural break from there |
| EnhancedChunker.FindNaturalBreaks | enhanced_zhvanetsky_chunker.py:636-649 | the result is sorted without duplicates and holds exactly the starts of blank-line runs and the positions after `.`, `!` or `?` followed by whitespace and a capital Russian letter |
| ImprovedChunker.BreakLength | improved_chunker.py:183 | a match of the sentence separator is never empty and never runs past the text |
| ImprovedChunker.FirstBreak | improved_chunker.py:183 | the position found starts a match of the separator |
| ImprovedChunker.FirstBreakLeftmost | improved_chunker.py:183 | no match starts before the one found, and no match exists anywhere when none is found |
| ImprovedChunker.BreakEnd | improved_chunker.py:183 | the match ends after it starts and within the text |
| ImprovedChunker.SentencePieces | improved_chunker.py:183 | the split always yields at least one piece |
| ImprovedChunker.InterleaveCons | improved_chunker.py:183 | putting pieces and separators back together works one piece at a time |
| ImprovedChunker.SplitRoundTrip | improved_chunker.py:183 | there is one more piece than separator, and the pieces with the separators between them give back the text |
| ImprovedChunker.ThreeSlices | improved_chunker.py:183 | the text before a match, the match and the rest make up the text |
| ImprovedChunker.BreaksAreRuns | improved_chunker.py:183 | every separator removed is a run of `.`, `!` or `?` ended by one whitespace character or by the end of the text |
| ImprovedChunker.BreakIsRun | improved_chunker.py:183 | the one match found is such a run |
| ImprovedChunker.RunsCons | improved_chunker.py:183 | a run in front of runs gives runs |
| ImprovedChunker.SplitIntoSentences | improved_chunker.py:180-192 | the loop keeps, in order, the stripped pieces over 25 characters that are not all digits |
| ImprovedChunker.FilteredMembers | improved_chunker.py:186-190 | a string survives the filter exactly when it is an accepted cleaned piece |
| ImprovedChunker.CleanSentencesMembers | improved_chunker.py:186-190 | a sentence is kept exactly when it is a piece, stripped, over 25 characters and not all digits |
| ImprovedChunker.CleanSentencesShape | improved_chunker.py:186-190 | every kept sentence is over 25 characters and neither starts nor ends with whitespace |
| ImprovedChunker.StripEnds | improved_chunker.py:187 | a stripped non-empty string neither starts nor ends with whitespace |
| ImprovedChunker.CreateSemanticChunks | improved_chunker.py:254-318 | with fewer than two sentences the text is one chunk when over 800 characters and none otherwise; else the sentence loop and the final flush give exactly the semantic chunks |
| ImprovedChunker.FoldSentences | improved_chunker.py:272-308 | the sentence loop leaves exactly the chunks, buffer and size of the fold |
| ImprovedChunker.FlushChunks | improved_chunker.py:311-314 | the final buffer adds its chunk only when the joined text reaches 800 characters |
| ImprovedChunker.ChunkStep | improved_chunker.py:275-308 | one sentence is buffered, and the buffer is closed at 2200 characters, at 1400 with a similarity under 0.72, or at 800 with a similarity under 0.45, its text kept only when at least 800 long |
| ImprovedChunker.JoinStripped | improved_chunker.py:302 | sentences that neither start nor end with whitespace join by `. ` into a text that does neither |
| ImprovedChunker.StripUnpadded | improved_chunker.py:302 | such a text strips to itself |
| ImprovedChunker.ChunkTextJoinsClean | improved_chunker.py:302-312 | the chunk text of clean sentences is exactly their join by `. ` |
| ImprovedChunker.JoinAtLeast | improved_chunker.py:277-302 | a join is at least as long as the sum of its parts, so a buffer of 800 characters gives a text of 800 characters |
| ImprovedChunker.FoldPartition | improved_chunker.py:272-308 | the loop loses nothing: the sentences are the closed groups followed by the buffer, every closed group is long enough, and the chunks are the closed groups joined |
| ImprovedChunker.PartitionStep | improved_chunker.py:275-308 | one sentence more keeps that partition |
| ImprovedChunker.CloseStep | improved_chunker.py:301-308 | closing a buffer of at least 800 characters adds it as a kept group |
| ImprovedChunker.LongGroupsAppend | improved_chunker.py:303-304 | adding a long group keeps every group long |
| ImprovedChunker.ClosedJoins | improved_chunker.py:302-304 | keeping a closed buffer's text keeps the chunks the joined groups |
| ImprovedChunker.SemanticChunksCover | improved_chunker.py:266-318 | with two or more sentences, the chunks are consecutive groups of the sentences joined by `. `, each at least 800 characters, and the sentences left over are the last ones and join to fewer than 800 |
| ImprovedChunker.FlushPartition | improved_chunker.py:311-314 | the final flush keeps that cover |
| ImprovedChunker.ChunksLongEnough | improved_chunker.py:254-318 | every chunk, on either path, has at least 800 characters |
| IndexProfiler.Keys | analyze_pinecone_index.py:170 | the key list of a metadata dictionary has one entry per field, in insertion order |
| IndexProfiler.Get | analyze_pinecone_index.py:113 | a lookup yields the default exactly when the key is absent, and otherwise a value stored under that key |
| IndexProfiler.CountPair | analyze_pinecone_index.py:80-86 | counting one field and value extends the running count, type and sample accumulators to cover that pair |
| IndexProfiler.CountRecord | analyze_pinecone_index.py:79-86 | counting one vector's metadata extends the accumulators to cover all of its pairs |
| IndexProfiler.AnalyzeMetadataStructure | analyze_pinecone_index.py:68-99 | the analysis counts all vectors, its field counts, types and samples are those of every metadata pair, every counted field was seen, each count equals the number of vectors carrying that field, and at most three samples are kept per field |
| IndexProfiler.MetadataFacts | analyze_pinecone_index.py:72-95 | the count map and the field list have the same keys, each count lies between one and the number of vectors and equals the vectors holding that key, and no field keeps more than three samples |
| IndexProfiler.MetadataMapsAgree | analyze_pinecone_index.py:72-95 | counts, types and samples are kept for exactly the fields seen, the field list has no repeats, and every counted field was seen at least once |
| IndexProfiler.FieldOrderOccurs | analyze_pinecone_index.py:80-81 | a field is listed exactly when some metadata pair carries it |
| IndexProfiler.FieldOrderDistinct | analyze_pinecone_index.py:81 | no field is listed twice |
| IndexProfiler.CountConcat | analyze_pinecone_index.py:81 | the count of a field over two runs of pairs is the sum of the counts over each |
| IndexProfiler.CountInDictionary | analyze_pinecone_index.py:80-81 | within one dictionary a field is counted once when present and not at all when absent |
| IndexProfiler.CountIsRecordsWithKey | analyze_pinecone_index.py:76-81 | a field's count over all vectors is the number of vectors whose metadata has that key, so it never exceeds the number of vectors |
| IndexProfiler.SamplesAreFirstThree | analyze_pinecone_index.py:85-86 | the samples of a field are the first three of its printed values, each cut to at most 100 characters |
| IndexProfiler.TypesAreObserved | analyze_pinecone_index.py:82-89 | the type list of a field holds exactly the type names of the values seen under it, without repeats |
| IndexProfiler.HeterogeneousField | analyze_pinecone_index.py:82-89 | a field has more than one type listed if and only if two of its values have different types |
| IndexProfiler.KeyIndex | analyze_pinecone_index.py:117-121 | a counter lookup finds an entry with that key, or states that no entry has it |
| IndexProfiler.TalliedCounts | analyze_pinecone_index.py:106-121 | a counter built from a list of keys totals its length, counts each key as often as it occurs, and holds each key once |
| IndexProfiler.BumpCounts | analyze_pinecone_index.py:117 | incrementing a key raises the total by one and that key's count by one, leaves every other count unchanged and keeps keys distinct |
| IndexProfiler.FieldValues | analyze_pinecone_index.py:116-120 | one looked-up value is produced per vector |
| IndexProfiler.MinOf | analyze_pinecone_index.py:127 | the minimum is one of the lengths and no length is smaller |
| IndexProfiler.MaxOf | analyze_pinecone_index.py:128 | the maximum is one of the lengths and no length is larger |
| IndexProfiler.SumBounds | analyze_pinecone_index.py:129 | a sum of lengths lies between their count times the lower bound and their count times the upper bound |
| IndexProfiler.StatsOrdered | analyze_pinecone_index.py:126-130 | the reported average lies between the reported minimum and maximum, including the empty case where all three are zero |
| IndexProfiler.InsertPermutes | analyze_pinecone_index.py:131 | inserting an entry into the ordered list adds exactly that entry |
| IndexProfiler.InsertKeepsOrder | analyze_pinecone_index.py:131 | inserting into a list ordered by decreasing count keeps it ordered |
| IndexProfiler.InsertWithCount | analyze_pinecone_index.py:131 | insertion places an entry after every entry of equal count, so ties keep first-seen order |
| IndexProfiler.SortByCountProperties | analyze_pinecone_index.py:131 | ordering by count yields a non-increasing permutation of the counter with the same total, and entries of equal count stay in first-seen order |
| IndexProfiler.CountPatterns | analyze_pinecone_index.py:105-121 | the loop gathers the non-empty content lengths and counts the sources and chunk types of all vectors |
| IndexProfiler.AnalyzeContentPatterns | analyze_pinecone_index.py:101-135 | the analysis holds the length statistics, the ten most common sources and the chunk type counter; chunk types total the number of vectors, and the top sources are at most ten, ordered by count, and total the number of vectors when there are at most ten sources |
| IndexProfiler.TopTenShape | analyze_pinecone_index.py:131 | the most common ten are at most ten entries in non-increasing count, and all of them when there are at most ten |
| IndexProfiler.NoSourceKeys | analyze_pinecone_index.py:113-121 | vectors without content, source or chunk type are all counted under Unknown and give zero length statistics |
| IndexProfiler.TalliedConstant | analyze_pinecone_index.py:117-121 | a counter over one repeated key holds that key with the number of repetitions |
| IndexProfiler.SampleVectors | analyze_pinecone_index.py:166-172 | the first five vectors at most are summarised, each with its id, its score or zero, and its metadata keys in order |
| IndexProfiler.Repeat | analyze_pinecone_index.py:185 | a rule line has exactly the requested number of characters |
| IndexProfiler.WriteNamespaces | analyze_pinecone_index.py:203-206 | the loop writes one line per namespace as the report specifies |
| IndexProfiler.WriteFields | analyze_pinecone_index.py:216-225 | the loop writes every counted field with its count, its types and up to two samples, as the report specifies |
| IndexProfiler.WriteTally | analyze_pinecone_index.py:240-249 | the loop writes one line per counter entry in order |
| IndexProfiler.WriteExamples | analyze_pinecone_index.py:251-257 | the loop writes the numbered sample vectors as the report specifies |
| IndexProfiler.WriteStats | analyze_pinecone_index.py:193-207 | the statistics block writes the totals, or N/A for missing values, and the namespaces |
| IndexProfiler.SaveReport | analyze_pinecone_index.py:179-266 | the report is the specified sequence of lines, and its section headings appear in the order title, statistics, metadata, content, sources, chunk types, examples, closing line |
| IndexProfiler.ReportSectionOrder | analyze_pinecone_index.py:185-261 | every report, whatever the analysis, lists its section headings in that fixed order |
| IndexProfiler.ExamplesNumbered | analyze_pinecone_index.py:254-257 | each sample vector takes three lines and the i-th one is headed by its number, counting from one, and its id |
| IndexProfiler.PrintedSamples | analyze_pinecone_index.py:222-224 | the two printed samples of a field are its first two printed values |
| ExtractMetadata.DedupShape | extract_metadata.py:129-131 | keeping each value once holds no repeats, loses no value and keeps the order of first occurrence |
| ExtractMetadata.DedupEmpty | extract_metadata.py:133-134 | the list without repeats is empty exactly when no value was found |
| ExtractMetadata.DistinctInOrder | extract_metadata.py:426-428 | the loop that appends unseen values yields each value once in first-seen order |
| ExtractMetadata.FirstIndex | extract_metadata.py:129-131 | the position found holds the value and no earlier position does |
| ExtractMetadata.KeptMembers | extract_metadata.py:359-366 | a value is collected exactly when some accepted match produces it |
| ExtractMetadata.HitsMembers | extract_metadata.py:153-156 | a label is produced exactly when a keyword of its entry occurs in the lowered text |
| ExtractMetadata.LabelsShape | extract_metadata.py:153-156 | the labels of a keyword table hold no repeats, hold exactly the labels whose keyword occurs, and are empty exactly when no keyword occurs |
| ExtractMetadata.CollectLabels | extract_metadata.py:221-225 | the loop over a keyword table collects its labels, and the flag it sets is raised exactly when a label was collected |
| ExtractMetadata.SameLabels | extract_metadata.py:538-542 | a list of keywords that are their own labels yields exactly the keywords found in the text |
| ExtractMetadata.FlagIsAnyKeyword | extract_metadata.py:221-225 | the flag is raised exactly when some keyword of the table occurs |
| ExtractMetadata.CleanPrice | extract_metadata.py:129 | removing commas and whitespace keeps only characters of the match that are neither, and empties only a match made of them |
| ExtractMetadata.PriceIsNumber | extract_metadata.py:125-129 | a price match cleans to a number of at least two digits |
| ExtractMetadata.PricingShape | extract_metadata.py:118-187 | pricing is flagged exactly when a price was found, prices are listed once each, they are exactly the cleaned matches, and well-formed matches give digit strings of length two or more |
| ExtractMetadata.ExtractPricingInfo | extract_metadata.py:109-187 | the steps compute the pricing section the definition gives |
| ExtractMetadata.SpecialNeedsFlag | extract_metadata.py:190-265 | special-needs information is flagged exactly when a condition or an adaptation was found, learning styles not counting |
| ExtractMetadata.ExtractSpecialNeeds | extract_metadata.py:190-265 | the steps compute the special-needs section the definition gives |
| ExtractMetadata.ExtractSkills | extract_metadata.py:268-334 | the steps compute the skills section the definition gives |
| ExtractMetadata.SeqMin | extract_metadata.py:376 | the minimum is one of the ages and no age is smaller |
| ExtractMetadata.SeqMax | extract_metadata.py:377 | the maximum is one of the ages and no age is larger |
| ExtractMetadata.RangeAgesMembers | extract_metadata.py:358-366 | an age comes from the ranges exactly when it is an end of a range whose ends are both at most 18 |
| ExtractMetadata.SingleAgesMembers | extract_metadata.py:368-373 | a single age is kept exactly when it lies between 6 and 18 |
| ExtractMetadata.AgeBounds | extract_metadata.py:351-377 | the ages found are the ends of kept ranges and the single ages from 6 to 18; minimum and maximum are set exactly when some age was found, are among the ages found, bound all of them, and do not exceed 18 |
| ExtractMetadata.AgeGroupsRecorded | extract_metadata.py:358-364 | the age groups are the labels of the kept ranges, each once |
| ExtractMetadata.ReadRanges | extract_metadata.py:358-366 | the loop over range matches records each kept range label once and collects both ends of every kept range |
| ExtractMetadata.ReadSingleAges | extract_metadata.py:368-373 | the loop appends every single age from 6 to 18 |
| ExtractMetadata.ReadCourseAges | extract_metadata.py:379-387 | the loop maps the age range of every named course found in the text to its title |
| ExtractMetadata.ExtractAgeGroups | extract_metadata.py:337-389 | the steps compute the age section the definition gives |
| ExtractMetadata.FirstUsable | extract_metadata.py:406-413 | the pattern chosen is the first whose first match is a lesson length from 15 to 180 minutes, and none is chosen when no pattern qualifies |
| ExtractMetadata.LessonDurationIsFirst | extract_metadata.py:406-413 | a lesson duration is reported only when it lies from 15 to 180, is the first match of a pattern no earlier pattern could supply, and is missing exactly when no pattern qualifies |
| ExtractMetadata.FirstLessonDuration | extract_metadata.py:406-413 | the loop with its early exit returns that duration |
| ExtractMetadata.ConcatMembers | extract_metadata.py:432-437 | a value occurs in all patterns' matches exactly when it occurs in one of them |
| ExtractMetadata.CourseMonthsShape | extract_metadata.py:431-437 | the course durations hold each month count from 1 to 12 found by any pattern, once each |
| ExtractMetadata.AddMonths | extract_metadata.py:433-437 | adding one pattern's matches extends the accepted distinct months by those matches |
| ExtractMetadata.CollectMonths | extract_metadata.py:431-437 | the nested loop collects the course durations the definition gives |
| ExtractMetadata.MonthStrings | extract_metadata.py:69 | each month count is written as its decimal string |
| ExtractMetadata.MonthStringsDistinct | extract_metadata.py:69 | distinct month counts stay distinct once written out |
| ExtractMetadata.FirstNonEmpty | extract_metadata.py:441-446 | the pattern chosen is the first with a match, and none is chosen when no pattern matches |
| ExtractMetadata.FirstHomework | extract_metadata.py:441-446 | the loop with its early exit returns the first homework match with the minutes suffix, or nothing |
| ExtractMetadata.ExtractTimeParameters | extract_metadata.py:392-456 | the steps compute the time section the definition gives |
| ExtractMetadata.VariantsFound | extract_metadata.py:465-471 | finding a course name in quotes, single quotes, guillemets or bare comes to finding the bare name |
| ExtractMetadata.CoursesShape | extract_metadata.py:459-506 | the courses offered hold each canonical name once, exactly when its name occurs in the lowered text |
| ExtractMetadata.SearchPatterns | extract_metadata.py:497-502 | the pattern search with its early exit succeeds exactly when some pattern occurs |
| ExtractMetadata.ExtractCourses | extract_metadata.py:495-506 | the loop over the course table computes the courses the definition gives |
| ExtractMetadata.ContentCategoryIsFirst | extract_metadata.py:509-526 | a category is chosen exactly when one of its keywords occurs and no earlier category's does, and the general category exactly when no keyword occurs |
| ExtractMetadata.DetermineCategory | extract_metadata.py:522-526 | the loop with its early return computes that category |
| ExtractMetadata.TechFlag | extract_metadata.py:529-558 | technical requirements are flagged exactly when a platform, a speed or a device was found, and the platforms are exactly those named in the text |
| ExtractMetadata.TechOverFlag | extract_metadata.py:538-556 | the flag is raised exactly when one of the three searches found something |
| ExtractMetadata.ReadTech | extract_metadata.py:538-556 | the three searches compute the technical section the definition gives |
| ExtractMetadata.ExtractTechRequirements | extract_metadata.py:529-558 | the steps compute the technical section for the fixed platform and device lists |
| ExtractMetadata.SafetyFlag | extract_metadata.py:561-594 | safety information is flagged exactly when a measure or a data protection was found |
| ExtractMetadata.ExtractSafetyInfo | extract_metadata.py:561-594 | the steps compute the safety section the definition gives |
| ExtractMetadata.KeptAllLength | extract_metadata.py:609-613 | rewriting every match keeps one item per match |
| ExtractMetadata.AchievementsFlag | extract_metadata.py:597-625 | statistics are flagged exactly when a success rate or a student number was found |
| ExtractMetadata.CollectRewritten | extract_metadata.py:609-613 | the loop keeps each rewritten match once and raises its flag exactly when something was kept |
| ExtractMetadata.ExtractAchievements | extract_metadata.py:597-625 | the steps compute the achievements section the definition gives |
| ExtractMetadata.ExtractSections | extract_metadata.py:23-104 | all ten sections are extracted from the same text and matches |
| ExtractMetadata.PricingWrites | extract_metadata.py:28-35 | the pricing update writes exactly the five pricing keys, each with its pricing field |
| ExtractMetadata.NeedsWrites | extract_metadata.py:38-44 | the special-needs update writes exactly the four special-needs keys, each with its field |
| ExtractMetadata.SkillsWrites | extract_metadata.py:47-52 | the skills update writes exactly the three skills keys, the course list under skills_courses_offered |
| ExtractMetadata.AgeWrites | extract_metadata.py:55-60 | the age update writes min_age and max_age as decimal strings or the empty string, and the age groups |
| ExtractMetadata.CourseAgeWrites | extract_metadata.py:62-63 | the age-range loop writes course_for_age_ for exactly the ranges of courses_by_age, each with its course |
| ExtractMetadata.TimeWrites | extract_metadata.py:66-74 | the time update writes exactly the six time keys, numbers as strings or empty, month counts as strings |
| ExtractMetadata.CoursesWrites | extract_metadata.py:77 | the courses assignment writes only courses_offered, with the course list |
| ExtractMetadata.CategoryWrites | extract_metadata.py:80 | the category assignment writes only content_category, with the category |
| ExtractMetadata.TechWrites | extract_metadata.py:83-89 | the technical update writes exactly the four technical keys, a missing speed as the empty string |
| ExtractMetadata.SafetyWrites | extract_metadata.py:92-97 | the safety update writes exactly the three safety keys, each with its field |
| ExtractMetadata.AchievementWrites | extract_metadata.py:100-105 | the statistics update writes exactly the three statistics keys, each with its field |
| ExtractMetadata.UpdateWrites | extract_metadata.py:26-105 | update number i writes a key exactly when the key belongs to update i and has a value, and stores that value |
| ExtractMetadata.UpdatesDisjoint | extract_metadata.py:26-105 | no key is written by two different updates, so no update overwrites another |
| ExtractMetadata.MergedKeys | extract_metadata.py:26-105 | after a run of dict updates a key is present exactly when some update wrote it |
| ExtractMetadata.MergedLookup | extract_metadata.py:26-105 | after a run of dict updates a key holds the value of the last update that wrote it |
| ExtractMetadata.FieldsAgree | extract_metadata.py:5-106 | the returned dictionary holds a key exactly when its section gives it a value, and holds that value |
| ExtractMetadata.FieldsKeys | extract_metadata.py:26-105 | the keys are all fixed keys plus course_for_age_ for exactly the ranges of courses_by_age |
| ExtractMetadata.FieldsFlat | extract_metadata.py:5-8 | the dictionary is flat: the has_ keys hold flags, the number, optional-text, category and course keys hold strings, the rest hold string lists |
| ExtractMetadata.UpdateFields | extract_metadata.py:25-105 | applying the eleven updates in call order to an empty dictionary yields the merged dictionary |
| ExtractMetadata.ExtractMetadata | extract_metadata.py:5-106 | the steps return the merged dictionary of the sections of the lower-cased text |
| NewChunker.Sections | new_chunker.py:49 | splitting on the section separator always yields at least one section |
| NewChunker.QuotedTitle | new_chunker.py:55 | a title read after the course mark is non-empty, free of double quotes, and appears in quotes in the section |
| NewChunker.MarkedTitleFrom | new_chunker.py:55 | a search from any position finds only a non-empty quoted title that occurs in the section |
| NewChunker.CourseTitle | new_chunker.py:55-57 | the course title found is non-empty, free of double quotes and appears quoted in the section |
| NewChunker.CourseChunksOf | new_chunker.py:50-66 | one course chunk is made per kept section, in order |
| NewChunker.ChunkCourses | new_chunker.py:44-67 | the loop over sections builds the course chunks the definition gives |
| NewChunker.ReplacedCharShape | new_chunker.py:57 | replacing spaces by underscores keeps the length and leaves no space |
| NewChunker.CourseChunksShape | new_chunker.py:50-66 | a text is a course chunk exactly when it is a stripped section of at least 50 characters, and every course chunk has the course_detail type and its course key |
| NewChunker.CourseKeyShape | new_chunker.py:56-60 | the key is unknown_course when no title is found, and otherwise has the title's length and no space |
| NewChunker.NameAtEnd | new_chunker.py:83 | a name is found only after a number sign followed to the end of the section by whitespace and capital Cyrillic letters alone |
| NewChunker.YearsFrom | new_chunker.py:97 | the years found are a non-empty run of digits occurring in the section |
| NewChunker.Years | new_chunker.py:97-99 | the years found are a non-empty run of digits occurring in the section |
| NewChunker.ChunkTeachers | new_chunker.py:69-106 | the loop over sections builds the teacher chunks the definition gives, with teacher names read line by line as corrected under Findings |
| NewChunker.ChunkTeacherSection | new_chunker.py:84-104 | one section yields its overview and, when it mentions experience with years, its experience chunk, with teacher names read line by line as corrected under Findings |
| NewChunker.TeacherSectionShape | new_chunker.py:84-104 | a section yields no chunk exactly when no name is found, at most two chunks, the overview first with the teacher key, and a second experience chunk with the same key exactly when the section states experience in years, with teacher names read line by line as corrected under Findings |
| NewChunker.AsWrittenMissesHeading | new_chunker.py:83 | with the pattern as written, a section whose heading is followed by any text that is not capitals or whitespace yields no name, whatever the heading |
| NewChunker.LineByLineFindsHeading | new_chunker.py:83 | read line by line, a heading of two capital Cyrillic words is found and yields those words |
| NewChunker.HeadingNamed | new_chunker.py:83 | a heading line of two capital words yields exactly its name |
| NewChunker.NameAfterHash | new_chunker.py:83 | a number sign followed by two or three capital words yields those words without the surrounding whitespace |
| NewChunker.TeacherChunksKinds | new_chunker.py:89-104 | every teacher chunk is an overview or an experience chunk with a single teacher field |
| NewChunker.DocKindPlain | new_chunker.py:118 | a filename without either extension is its own chunk type |
| NewChunker.ChunkStandardFile | new_chunker.py:108-120 | the loop builds one standard chunk per section |
| NewChunker.StandardChunksCover | new_chunker.py:112-120 | there is exactly one chunk per section and at least one, the sections joined by the separator give back the content and contain no separator, and each chunk is its stripped section typed by the filename without extension |
| NewChunker.NumberedRecords | new_chunker.py:150-160 | each chunk becomes one record numbered from the counter on, keeping its file, text, type and extra fields |
| NewChunker.NumberedRecordsConcat | new_chunker.py:150-160 | numbering two runs of chunks continues the count from the first run into the second |
| NewChunker.ProcessFiles | new_chunker.py:122-163 | the loop over the listing builds the numbered records the definition gives, with teacher names read line by line as corrected under Findings |
| NewChunker.ProcessEntry | new_chunker.py:133-160 | one listing entry appends its numbered records and advances the counter by their number, with teacher names read line by line as corrected under Findings |
| NewChunker.ChunkFile | new_chunker.py:140-147 | a file is routed to the course chunker when its name contains courses, else to the teacher chunker when it contains teachers, else to the standard chunker, with teacher names read line by line as corrected under Findings |
| NewChunker.NumberFileChunks | new_chunker.py:150-160 | numbering one file's chunks appends one record per chunk and advances the counter by their number |
| NewChunker.ListingChunksFrom | new_chunker.py:130-147 | every chunk comes from a listed file ending in .md or .txt and from that file's routed chunks |
| NewChunker.RecordsShape | new_chunker.py:127-160 | record ids run ukido-1, ukido-2 and on without gaps, are pairwise distinct, and every record's source is a listed file |
| NewChunker.RoutedKinds | new_chunker.py:140-147 | course files give course_detail chunks, teacher files teacher chunks, and other files chunks typed by the filename without extra fields |
| SimplifiedChunker.MarkerCount | simplified_zhvanetsky_chunker.py:85-92 | at most four dialogue markers can match |
| SimplifiedChunker.IsDialogue | simplified_zhvanetsky_chunker.py:83-93 | a text counted as dialogue always has a dash before a capital or a speaker's name |
| SimplifiedChunker.DirectorIsSpeaker | simplified_zhvanetsky_chunker.py:87-88 | the name `Директор:` also matches the speaker-name marker |
| SimplifiedChunker.SpeakerAt | simplified_zhvanetsky_chunker.py:87 | a capitalised Cyrillic name followed by lower-case letters and a colon anywhere in the text is a speaker marker |
| SimplifiedChunker.DirectorMakesDialogue | simplified_zhvanetsky_chunker.py:87-93 | a text naming the speaker Director matches two markers and so counts as dialogue |
| SimplifiedChunker.DialogueStepKeeps | simplified_zhvanetsky_chunker.py:111-119 | a short dialogue paragraph flushes the pending chunk and becomes a chunk of its own, keeping the packing invariant |
| SimplifiedChunker.PlainStepKeeps | simplified_zhvanetsky_chunker.py:122-132 | an ordinary paragraph either closes the pending chunk, when it would pass the ideal size and the pending size has reached the minimum, or joins it, keeping the packing invariant |
| SimplifiedChunker.PackWellPacked | simplified_zhvanetsky_chunker.py:107-132 | after any paragraphs the tracked size matches the pending text, short dialogues stand alone, the pending chunk holds no short dialogue, and every chunk closed by size had reached the minimum and would have passed the ideal size with the next paragraph |
| SimplifiedChunker.PackOrder | simplified_zhvanetsky_chunker.py:107-132 | the closed chunks followed by the pending one hold the paragraphs in their original order |
| SimplifiedChunker.GroupsShape | simplified_zhvanetsky_chunker.py:103-136 | the chunks before merging hold every paragraph in order, none is empty, short dialogues stand alone and size closes a chunk only under the rule |
| SimplifiedChunker.MergeStepBound | simplified_zhvanetsky_chunker.py:141-147 | merging one chunk adds at most one element, keeps every element non-empty, and every element either was an input chunk or is within the maximum size |
| SimplifiedChunker.MergeStepJoin | simplified_zhvanetsky_chunker.py:141-147 | merging one chunk keeps the joined text and extends the first chunk at most |
| SimplifiedChunker.MergedShape | simplified_zhvanetsky_chunker.py:138-147 | merging short chunks keeps the joined text, never adds chunks, leaves none empty, only extends the first chunk, and every merged chunk is within the maximum size |
| SimplifiedChunker.CreateChunksRoundTrip | simplified_zhvanetsky_chunker.py:100-150 | the chunks joined by blank lines give back the stripped non-blank paragraphs joined by blank lines, and no chunk is empty |
| SimplifiedChunker.CreateChunks | simplified_zhvanetsky_chunker.py:95-150 | the two loops compute the chunks the definition gives |
| SimplifiedChunker.MergeShortChunks | simplified_zhvanetsky_chunker.py:139-147 | the post-processing loop computes the merged chunks |
| SimplifiedChunker.PackTurn | simplified_zhvanetsky_chunker.py:108-132 | one loop turn updates the chunks, the pending paragraphs and the pending size by one packing step |
| SimplifiedChunker.GenerateSafeId | simplified_zhvanetsky_chunker.py:152-184 | the loop computes the identifier from the index name, the normalised file name and the chunk index |
| SimplifiedChunker.AppendIdPiece | simplified_zhvanetsky_chunker.py:174-179 | one character is transliterated, kept, turned into a hyphen or dropped |
| SimplifiedChunker.TakeNoDouble | simplified_zhvanetsky_chunker.py:182 | cutting to 50 characters keeps a name free of double hyphens and of a leading hyphen |
| SimplifiedChunker.NormalizedNameShape | simplified_zhvanetsky_chunker.py:181-182 | the normalised name has no run of hyphens, does not start with a hyphen and has at most 50 characters |
| Text.JoinSplit | new_chunker.py:49 | joining the pieces of a split by the same separator gives back the text |
| Text.SplitPiecesFree | new_chunker.py:49 | no piece of a split contains the separator |
| Text.Paragraphs | simplified_zhvanetsky_chunker.py:100 | the stripped non-blank paragraphs are all non-empty |
| Text.StrippedNonBlank | simplified_zhvanetsky_chunker.py:100 | filtering stripped pieces never adds pieces and keeps only non-empty ones |
| Text.SplitExt | simplified_zhvanetsky_chunker.py:169 | the stem and the extension of a file name concatenate to the name |
| Text.SqueezedNoDouble | simplified_zhvanetsky_chunker.py:182 | collapsing runs of hyphens leaves no two hyphens in a row |
| Text.ParseNatToString | new_chunker.py:153 | the decimal string of a number reads back as that number |
| Text.NatToStringInjective | new_chunker.py:153 | distinct numbers have distinct decimal strings |
| Text.NumberedDistinct | new_chunker.py:153 | identifiers made of one prefix and distinct numbers are distinct |
| Text.LowerIdempotent | extract_metadata.py:23 | lowering an already lowered text changes nothing |
| Transliteration.Latin | simplified_zhvanetsky_chunker.py:155-166 | exactly the Russian Cyrillic letters have a transliteration, and it is made of ASCII letters only |
| Transliteration.LatinExamples | simplified_zhvanetsky_chunker.py:155-166 | shch, Zh, the empty string for the soft sign and yo are the transliterations of those letters, and Latin and Ukrainian letters have none |
| UkidoChunker.Sections | ukido_intelligent_chunker.py:212 | splitting on the section separator always yields at least one section |
| UkidoChunker.SpanEndFirst | ukido_intelligent_chunker.py:115 | the lazy match ends at the first position where a stop heading begins or the end anchor holds, and at no earlier one |
| UkidoChunker.HeadedSpan | ukido_intelligent_chunker.py:114-118 | a span is found exactly when the heading occurs, and it starts at the heading's first occurrence |
| UkidoChunker.SpanAtShape | ukido_intelligent_chunker.py:115-118 | the stripped span lies within the content and contains its heading |
| UkidoChunker.HeadedSpanPresent | ukido_intelligent_chunker.py:114-116 | a course span is found if and only if the content contains the heading |
| UkidoChunker.PresentThree | ukido_intelligent_chunker.py:114-139 | the present keys are the keys of the headings found, in the listed order |
| UkidoChunker.SpanChunkShape | ukido_intelligent_chunker.py:114-121 | a heading yields its one course chunk exactly when it occurs, and that chunk is a course_detail piece of the content containing the heading |
| UkidoChunker.CourseChunkShape | ukido_intelligent_chunker.py:114-139 | each course yields its key exactly when its heading occurs, as a course_detail chunk holding the heading |
| UkidoChunker.CoursesDetailedShape | ukido_intelligent_chunker.py:107-141 | at most three course chunks, one per heading present, in orator, compass, captain order, each a course_detail piece of the content |
| UkidoChunker.LinkChunkShape | ukido_intelligent_chunker.py:150-165 | a teacher yields a link chunk exactly when the name occurs, typed teacher_course_link with the linked course, opening with the course banner and containing the name |
| UkidoChunker.TeacherChunkShape | ukido_intelligent_chunker.py:149-201 | each of the three teachers yields the key exactly when the name occurs, linked to that teacher's course |
| UkidoChunker.TeachersTeamShape | ukido_intelligent_chunker.py:143-203 | at most three link chunks, one per teacher named, in the listed order |
| UkidoChunker.KeptSectionsMembers | ukido_intelligent_chunker.py:214-218 | a text is kept exactly when it is a stripped section at least as long as the minimum |
| UkidoChunker.Classify | ukido_intelligent_chunker.py:220-234 | a section takes the type of the first heading it contains, and the fallback when it contains none |
| UkidoChunker.Classified | ukido_intelligent_chunker.py:214-234 | each kept section becomes one chunk with its classified type and no extra fields |
| UkidoChunker.ChunkSections | ukido_intelligent_chunker.py:245-267 | the loop over sections builds the classified chunks the definition gives |
| UkidoChunker.ChunkFaqDetailed | ukido_intelligent_chunker.py:205-236 | the loop builds the FAQ chunks with the 200-character minimum |
| UkidoChunker.ChunkMethodologyApproach | ukido_intelligent_chunker.py:238-267 | the loop builds the methodology chunks with the 300-character minimum |
| UkidoChunker.ClassifiedSectionsShape | ukido_intelligent_chunker.py:214-267 | there are at most as many chunks as sections, a text is a chunk exactly when it is a long-enough stripped section, and a chunk has the fallback type exactly when it contains no listed heading |
| UkidoChunker.FaqChunksShape | ukido_intelligent_chunker.py:205-236 | FAQ chunks are exactly the stripped sections of at least 200 characters, and faq_other exactly marks those without a listed heading |
| UkidoChunker.MethodologyChunksShape | ukido_intelligent_chunker.py:238-267 | methodology chunks are exactly the stripped sections of at least 300 characters, and methodology_other exactly marks those without a listed heading |
| UkidoChunker.PackSectionShape | ukido_intelligent_chunker.py:285-295 | every packed piece is non-empty and either within 1000 characters or a single paragraph, and so is the pending piece |
| UkidoChunker.LongSectionPiecesShape | ukido_intelligent_chunker.py:283-298 | every piece of a long section is non-empty and either within 1000 characters or a single paragraph |
| UkidoChunker.PackSectionJoin | ukido_intelligent_chunker.py:288-295 | the packed pieces and the pending one joined by blank lines give back the paragraphs joined the same way |
| UkidoChunker.LongSectionRoundTrip | ukido_intelligent_chunker.py:283-298 | for a section with no empty paragraph, the pieces joined by blank lines give back the section |
| UkidoChunker.StrippedChunks | ukido_intelligent_chunker.py:292-298 | each piece becomes one chunk of its stripped text and the document type |
| UkidoChunker.SectionChunksShape | ukido_intelligent_chunker.py:278-300 | a section under 400 characters yields nothing, one of 400 to 1200 characters yields itself whole, a longer one yields pieces each within 1000 characters or a stripped single paragraph, and every chunk has the document type |
| UkidoChunker.StandardSectionsKind | ukido_intelligent_chunker.py:292-300 | every standard chunk has the document type and no extra fields |
| UkidoChunker.ChunkStandardDocument | ukido_intelligent_chunker.py:269-302 | the loop over sections builds the standard chunks the definition gives |
| UkidoChunker.PackLongSection | ukido_intelligent_chunker.py:285-298 | the paragraph loop builds the stripped pieces of the long section |
| UkidoChunker.StrategicRecords | ukido_intelligent_chunker.py:317-328 | the strategic chunks become records numbered from zero in order |
| UkidoChunker.FileRecords | ukido_intelligent_chunker.py:359-370 | file chunks become records numbered on from the counter, one per chunk |
| UkidoChunker.FileRecordsConcat | ukido_intelligent_chunker.py:359-370 | numbering two runs of chunks continues the count from the first into the second |
| UkidoChunker.ProcessAllDocuments | ukido_intelligent_chunker.py:304-375 | the loops build the records the definition gives, strategic ones first |
| UkidoChunker.NumberStrategic | ukido_intelligent_chunker.py:317-328 | the strategic loop numbers the strategic chunks and leaves the counter at their number |
| UkidoChunker.ProcessEntry | ukido_intelligent_chunker.py:342-372 | one listed file appends its numbered records and advances the counter by their number |
| UkidoChunker.NumberChunks | ukido_intelligent_chunker.py:359-370 | numbering one file's chunks appends one record per chunk and advances the counter |
| UkidoChunker.ChunkDocument | ukido_intelligent_chunker.py:333-356 | a file with a special rule uses that rule, any other the standard chunker with its name as type |
| UkidoChunker.RecordsShape | ukido_intelligent_chunker.py:311-370 | there are two strategic records and one per file chunk, every record stores its own text length, strategic ids and file ids follow the shared counter, and file records keep their file, text and extra fields |
| UkidoChunker.RecordIdsDistinct | ukido_intelligent_chunker.py:319-361 | no two records share an id |
| UkidoChunker.StrategicNotFile | ukido_intelligent_chunker.py:319-361 | a strategic id never equals a file id |
| UkidoChunker.FileChunksSources | ukido_intelligent_chunker.py:340-349 | every file chunk comes from a listed file ending in .txt whose stripped content is not empty |
| UpdateFacts.CreateIntelligentChunks | update_facts_database.py:85-161 | the section loop builds the chunks the definition gives, with the analyser's replies left out since they never change the chunk list |
| UpdateFacts.PackLongSection | update_facts_database.py:119-158 | the paragraph loop over a long section builds the packed pieces, skipping blank paragraphs |
| UpdateFacts.PackStep | update_facts_database.py:128-146 | one paragraph either closes the pending chunk, when joining it would pass 1000 characters, or joins it |
| UpdateFacts.PackBlankStep | update_facts_database.py:122-125 | a blank paragraph leaves the packing unchanged and any other is packed stripped |
| UpdateFacts.SectionPiecesShape | update_facts_database.py:99-158 | an empty or short section under 100 characters yields nothing, one of up to 1200 characters yields itself whole, and a longer one yields pieces that joined by blank lines give back its non-blank paragraphs, each non-empty and within 1000 characters or a single paragraph |
| UpdateFacts.LongPiecesShape | update_facts_database.py:119-158 | the pieces of a long section joined by blank lines give back its stripped non-blank paragraphs, and each piece is non-empty and within 1000 characters or a single paragraph |
| UpdateFacts.StatusPartIff | update_facts_database.py:112 | the status part after the mark exists exactly when the reply contains the mark |
| UpdateFacts.AsWrittenFailsWithoutStatus | update_facts_database.py:107-113 | as written, one section of 100 to 1200 characters whose reply lacks the status mark makes the whole run fail |
| UpdateFacts.AsWrittenIgnoresReplies | update_facts_database.py:107-158 | as written, the run either fails or yields exactly the chunks computed without the replies |
| UpdateFacts.AsWrittenWithStatus | update_facts_database.py:107-158 | as written, when every reply holds the status mark the run yields those chunks |
| UpdateFacts.Numbered | update_facts_database.py:211-227 | each uploaded chunk becomes one vector whose id carries the counter, numbered on in order |
| UpdateFacts.NumberedConcat | update_facts_database.py:211-227 | numbering two runs of uploads continues the count from the first into the second |
| UpdateFacts.ProcessAndUpload | update_facts_database.py:163-235 | the loops build the vectors the definition gives and leave the counter at their number |
| UpdateFacts.UploadEntry | update_facts_database.py:180-197 | one listed file appends its numbered vectors and advances the counter by their number |
| UpdateFacts.UploadChunks | update_facts_database.py:195-235 | the chunk loop appends one vector per chunk that is kept and uploaded, advancing the counter by as many |
| UpdateFacts.UploadOne | update_facts_database.py:196-227 | a chunk adds a vector and advances the counter exactly when it is long enough and its upload succeeds |
| UpdateFacts.FileUploadsFrom | update_facts_database.py:195-227 | every upload is a chunk of that file at its own index that is long enough and whose upload succeeded |
| UpdateFacts.FileUploadsOrdered | update_facts_database.py:195 | uploads keep the chunk order |
| UpdateFacts.FileUploadsComplete | update_facts_database.py:195-227 | every long-enough chunk whose upload succeeds is uploaded |
| UpdateFacts.VectorsShape | update_facts_database.py:173-227 | vector ids run from index-0 on without gaps over successful uploads only, are pairwise distinct, and each vector records its text length and the chunking method |
| UpdateFacts.ListingUploadsFrom | update_facts_database.py:177-197 | every upload comes from a listed .txt file, from its chunks at that index, long enough and successfully uploaded |

## Left out

- External services: Pinecone, Gemini, OpenRouter, HubSpot, Telegram and HTTP calls are not modelled. The values they return enter as parameters: index statistics and samples, query matches, embedding and upload success as an `uploads` predicate, and analyser replies as a function.
- The Redis store: conversation histories and dialogue states follow the branch taken when Redis is unavailable, where they live in the in-process dictionary.
- Locks, worker threads and the executor: the model is single-threaded.
- The clock: `time.time()` and `datetime.now()` are `real` or `string` parameters.
- Sleeps, jittered backoff, `calculate_exponential_backoff`, the countdown display and the pauses between uploads: they only wait and print.
- Logging and `print`: messages are not part of any result.
- File, PDF and log I/O: a directory listing is a sequence of (file name, content) pairs in listing order. Reading the files, writing the report file and JSON backups are left out. The report is produced as a sequence of lines.
- The random query vector of the profiler: the sample of records is an input.
- Regular expressions of the metadata extractor: what `re.findall` and `re.search` return for each numeric pattern is an input (`Matches`). Keyword tests are literal containment.
- Character classes: `lower()` is modelled on ASCII and Russian Cyrillic letters; `\s` is the ASCII whitespace set; `\d` and `isdigit` are ASCII digits. `isalnum` is a parameter of the simplified identifier builder and MD5 a parameter of the enhanced one. Other Unicode characters are not classified.
- Language-model verdicts: they are inputs of the analyser, the relevance filter, the completeness analysis and the last humour step. This includes the analyser's AI branches.
- The aphorism and dialogue detectors of the enhanced chunker: they are parameters of its packing loop.
- The fixed texts of the two strategic overview chunks: their bodies are parameters; their types and priorities are modelled.
- The MD5 cache keys of the analyser: the key string itself stands for its digest; distinct strings are taken to give distinct keys.
- Floating-point formatting: the `.1f` and `.4f` renderings in the report are parameters; averages are exact `real` division.
- The hit-rate percentages of `get_cache_stats`: they are rounded floating-point values derived from the counters, which are modelled.
- `get_conversation_stats`: a diagnostic summary with no effect on the dialogue.
- `calculate_semantic_breaks` of the improved chunker: the embeddings, cosine similarities and memory monitoring. The similarities between neighbouring sentences are an input sequence of reals.
- The second `__init__` and `evaluate_chunk_relevance` of the enhanced chunker override the retry-aware ones, so filtering with the filter on would raise an AttributeError. That path is not modelled: the relevance verdict is a parameter.
- The iteration order of the profiler's type sets: a set's order in a Python report is unspecified; the model lists type names in first-seen order.
- `getattr(node, 'text', '')` and the `hasattr` test in `extract`: a node always has a text and a metadata dictionary; an empty text gives an empty result as in the source.
- `aextract`: it only calls `extract`.
- The content-type statistics that `extract` computes only to log them.
- The exception handler around one node in `extract`: nothing in the modelled extraction raises.
- Dictionary keys of the metadata extractor are the `Key` datatype; `KeyName` gives each key's spelling, including `course_for_age_` keys. That distinct keys have distinct spellings is not proved.
- The metadata extractor computes all ten sections before the first update, where the source interleaves each extraction with its update. The extractors are pure, so the order does not change the result.
- `course_name.title()` in the course-age table: the three titles are written out in the table.
- `vectorize_and_upload` of the new chunker and of the Ukido intelligent chunker, and `vectorize_style_chunk` of the enhanced chunker: they send chunks to the embedding service and the index. Only the identifiers and metadata they are given are modelled.
- PDF extraction and `_clean_pdf_text`, `analyze_text_structure`, `detect_logical_chain`, the `RateLimiter`, `get_retry_statistics` and the directory driver `process_style_directory` of the enhanced chunker: they read files or report. Only the chunking, identifier, filtering, delay and retry steps they drive are modelled.
- The demonstration blocks run under `__main__` and the `main` functions of the scripts.
- UkidoChunker.LongSectionRoundTrip: stated only for sections without an empty paragraph. An empty paragraph that closes a piece loses its separators from the join, so the round trip does not hold for such sections.
- IndexProfiler.CountPatterns: the content length is taken only from a non-empty string. In the source a non-zero integer or `True` content makes `len` raise TypeError and ends the analysis, and a non-empty list or dictionary counts its elements. The model instead skips every non-string content.
- IndexProfiler.AnalyzeContentPatterns: Python's `Counter` merges keys that compare equal, so `1` and `True`, and `0` and `False`, count as one source or chunk type. The model keeps `Int` and `Bool` values as distinct keys. It also inherits the content-length gap of `IndexProfiler.CountPatterns`.
- IntelligentAnalyzer.Analyzer.AnalyzePhilosophicalLoop: each user line is classified by the parameter `classify`, which stands for `analyze_question_category(text, [])`. The model leaves out what those calls do to the cache: category lookups and stores, cleanup of expired entries, hit and miss counts. It also leaves out a cached category that differs from `classify`. The contract states only the philosophy entry, the philosophy counters and the unchanged state cache.
- IntelligentAnalyzer.Analyzer.AnalyzeQuestionCategory: on a live cached category the source also calls `track_popular_pattern` (intelligent_analyzer.py:303, 146-152). That call counts the first 50 characters of the normalised message and, whenever the counts sum to a multiple of 100, logs the ten most frequent. It feeds only logging, so the pattern counter is not part of the cache state here.
- NewChunker.ChunkTeachers, NewChunker.ChunkTeacherSection, NewChunker.TeacherSectionShape, NewChunker.ProcessFiles, NewChunker.ProcessEntry and NewChunker.ChunkFile follow the corrected line-by-line reading of the teacher heading from Findings, not the pattern as written. `NewChunker.AsWrittenMissesHeading` models the pattern as written.
- `lru_cache(maxsize=1)` on `_get_pinecone_index` is one slot per retrieval object. In Python the slot is shared by all instances, so a second instance would evict the first one's answer. The assistant creates one instance.

## Findings

| source | as written | input that shows it | evidently intended | confidence | as-written member | corrected member |
|---|---|---|---|---|---|---|
| new_chunker.py:83 | The teacher-name pattern ends in `\s*$` without `re.MULTILINE`, so the heading must be the last thing in the section: a name is found only in a section that ends right after its heading. | A section of at least 100 characters such as `# АННА КОВАЛЕНКО` followed by a newline and `Опыт 10 лет...`: no name is found and the section gives no teacher chunk. | The heading line `# Имя Фамилия` found on a line of its own, whatever body text follows it. | not executed | NewChunker.AsWrittenMissesHeading | NewChunker.LineByLineFindsHeading |
| update_facts_database.py:112 | The log line takes `analysis.split('СТАТУС:')[1]`, which raises IndexError when the analyser's reply has no status mark. The per-chunk try block only starts at line 201, so the error leaves the upload loop and ends the whole update, after the index has been cleared. | A section of 100 to 1200 characters once stripped, and an analyser reply to it without `СТАТУС:`: the file's chunking fails and no later file is uploaded. | A default status when the mark is missing, as the long-section branch does at lines 138-140. Chunking then goes on and the reply is only logged. | not executed | UpdateFacts.AsWrittenFailsWithoutStatus | UpdateFacts.CreateIntelligentChunks |
