# Hacker News ingestion core, modelled in Dafny

This project models the ingestion side of a Hacker News insight backend.
The backend is a Django application. It pulls the current top story ids from
the Hacker News API, fetches each story's details, and classifies each title
against a fixed taxonomy of AI keywords. It upserts the stories, their keyword
mentions and per-domain counters in one database transaction, then
invalidates the cached read views. A Kafka consumer command runs the same
ingestion once for every message it receives on the `fetch_stories` topic.

Modules:

- `KeywordDetector`: `KeywordDetector.find_ai_keywords` and `is_ai_related`.
  - A direct whole-word search, case-insensitive, for each canonical keyword.
  - Three alias rules: `llm`/`llms` ⇒ `llm` and `large language model`; `ml` ⇒ `machine learning`; `dall-e` ⇒ `dall-e` and `dalle`.
  - The result is the sorted, duplicate-free list of labels found.
  - The regular expressions are modelled by `BoundaryAt`/`MatchesAt`, over ASCII word characters.
  - `FindAiKeywords` is the loop implementation, proved equal to the specification function `KeywordsOf`.
- `StringOrder`: Python's string order, and `sorted(list(s))` on a set of strings.
- `KeywordExamples`: two concrete titles worked out through the model.
- `HackerNews`: `HackerNewsClient.get_top_stories` and `get_story_details`.
  - The HTTP response is a parameter: either the request failed or the body was decoded.
  - `urlparse(...).netloc` is a parameter function `netloc`.
- `Models`: the `Story`, `KeywordMention` and `DomainStats` tables.
  - The functional `Store` value and its validity invariant (keys agree with ids; every mention refers to a stored story).
  - A `Database` class whose methods are the ORM calls the ingestion makes.
- `CacheBackend`: the Django cache.
  - Set, delete, and pattern delete (a trailing `*` glob is modelled as a key prefix).
  - The `story_<id>` key, proved injective in the id.
- `IngestionSpec`: the specification of one run of `fetch_top_stories_logic`.
  - Fetch and classify, stage the rows and the cache entries, then commit or roll back the transaction.
  - Invalidate the cache, and report the result.
  - Store faults come from an oracle that names the store call that raises.
- `Tasks`: the imperative run, statement by statement, proved equal to `IngestionSpec.Run`.
- `TasksExamples`: the re-ingestion scenario of the backend's task test, proved on the model for any two titles; the test's keyword detector is a stub, so the model states story 1's flag and mentions in terms of `KeywordsOf` of its title.
- `Consumer`: `Command.handle` of `consume_hn_stories`.
  - The configuration check and consumer construction.
  - The poll loop over a finite script of poll outcomes.
  - The exception handlers, and the `finally` that closes the consumer.

Where the code does something other than what its own branches and
comments show was intended, the model follows the code:

- `Story.objects.update_or_create` returns a `(story, created)` pair. The code tests the pair itself, which is always truthy.
  - Every persisted story is therefore counted as new.
  - `updated` is always 0 (`IngestionSpec.Run`, `Tasks.PersistBatch`).
  - The domain counter is incremented for every persisted story with a non-empty domain, re-ingested ones included.
  - Replaying a batch counts its domains twice (`IngestionSpec.ReplayCountsTwice`).
  - The `if created:` branch (`backend/tasks.py:194-206`) and its comment "Handle domain count for newly created stories" (line 196) show the intended split: `new` counts inserts, `updated` counts overwrites, and only new stories raise a domain count.
- With a pattern-capable cache, invalidation deletes `stories_list_*`, `story_*`, `ai_keywords` and `top_domains_limit_*`. It leaves the unparameterised `stories_list` and `top_domains` keys in place (`IngestionSpec.PatternKeepsPlainKeys`).
- The `story_<id>` cache entries are written before the transaction. They stay in the cache when the transaction rolls back (`IngestionSpec.RunRollsBack`).
- A Kafka message whose value is null or not UTF-8 ends the consumer. Its `except` handlers decode the value again to log it, which raises from inside the handler (`Consumer.Stops`).

## Model

| member | source | states |
|---|---|---|
| StringOrder.Less | backend/services/keyword_detector.py:66 | definition: Python's string order, comparing code points left to right with a proper prefix first (stated by LessTotal, LessTransitive and LessIrreflexive) |
| StringOrder.StrictlySorted | backend/services/keyword_detector.py:66 | definition: each element precedes every later one, as `sorted` of a duplicate-free list gives (stated by AdjacentLessSorted and SortedListingUnique) |
| StringOrder.LessTotal | backend/services/keyword_detector.py:66 | two distinct strings are ordered one way or the other, so a sorted listing is well defined |
| StringOrder.LessTransitive | backend/services/keyword_detector.py:66 | string order is transitive |
| StringOrder.LessIrreflexive | backend/services/keyword_detector.py:66 | no string precedes itself |
| StringOrder.AdjacentLessSorted | backend/services/keyword_detector.py:66 | a list whose neighbours are in order is strictly sorted |
| StringOrder.SortedListingUnique | backend/services/keyword_detector.py:66 | two strictly sorted lists with the same members are equal: `sorted(list(set))` has one answer |
| StringOrder.MinOf | backend/services/keyword_detector.py:66 | returns a member of a non-empty set that precedes every other member |
| StringOrder.SortedList | backend/services/keyword_detector.py:66 | returns a strictly sorted list holding exactly the set's members |
| KeywordDetector.KeepIn | backend/services/keyword_detector.py:62-66 | filtering a list keeps exactly the members in the kept set, and keeps a sorted list sorted |
| KeywordDetector.SortedVocabulary | backend/services/keyword_detector.py:11-16 | the sorted vocabulary is strictly sorted and has exactly the canonical keywords |
| KeywordDetector.SortedVocabularyMembers | backend/services/keyword_detector.py:11-16 | the sorted vocabulary holds exactly the canonical keywords |
| KeywordDetector.SortedVocabularyLow | backend/services/keyword_detector.py:66 | the first ten sorted keywords are each before the next |
| KeywordDetector.SortedVocabularyHigh | backend/services/keyword_detector.py:66 | the remaining sorted keywords are each before the next |
| KeywordDetector.SortedLabels | backend/services/keyword_detector.py:62-66 | the listing of a found set is strictly sorted and holds exactly its canonical members |
| KeywordDetector.IsWordChar | backend/services/keyword_detector.py:49-50 | definition: `\w` over ASCII letters, digits and `_` (stated by LowerKeepsWordness) |
| KeywordDetector.Lower | backend/services/keyword_detector.py:49-50 | definition: `IGNORECASE` as ASCII lower-casing (stated by LowerKeepsWordness) |
| KeywordDetector.BoundaryAt | backend/services/keyword_detector.py:49-50 | definition: `\b` holds between a word and a non-word character, or at either end of the text next to a word character (stated by MatchIffWholeWord) |
| KeywordDetector.MatchesAt | backend/services/keyword_detector.py:49-50 | definition: the literal occurs at that position, compared case-insensitively, with `\b` on both sides |
| KeywordDetector.Search | backend/services/keyword_detector.py:50 | definition: `re.search` of the boundary-delimited pattern succeeds at some position (stated by MatchIffWholeWord) |
| KeywordDetector.RuleMatches | backend/services/keyword_detector.py:60 | definition: `re.search` of a variant pattern succeeds for one of its alternatives (stated by VariantKeywordsMember and OnlyLlmRuleMatchesLlms) |
| KeywordDetector.OccursAsWord | backend/services/keyword_detector.py:46-50 | definition: the independent whole-word reference, a case-insensitive occurrence with no word character next to it (stated by MatchIffWholeWord, DirectKeywordIff and WholeWordIsFound) |
| KeywordDetector.DirectKeywords | backend/services/keyword_detector.py:43-54 | definition: the canonical keywords whose pattern the text matches (stated by DirectPass and DirectKeywordIff) |
| KeywordDetector.RuleAdds | backend/services/keyword_detector.py:60-64 | definition: a rule that matches adds its labels that are in the canonical list, and adds nothing otherwise (stated by AddRuleLabels) |
| KeywordDetector.VariantKeywords | backend/services/keyword_detector.py:58-64 | definition: the union of what each alias rule adds, over the rules in order (stated by VariantKeywordsMember) |
| KeywordDetector.FoundKeywords | backend/services/keyword_detector.py:41-64 | definition: the direct matches together with the alias additions (stated by FoundAreCanonical and SomeKeywordFound) |
| KeywordDetector.VariantKeywordsMember | backend/services/keyword_detector.py:58-64 | a label comes from the alias pass iff some alias rule matches the text and lists that label, and the label is canonical |
| KeywordDetector.FoundAreCanonical | backend/services/keyword_detector.py:44-64 | every label found, direct or by alias, is one of the canonical keywords |
| KeywordDetector.KeywordsOf | backend/services/keyword_detector.py:32-66 | the result is strictly sorted and canonical, and holds a label iff the text is present, non-empty and the label is found; None or "" give [] |
| KeywordDetector.DirectUpToStep | backend/services/keyword_detector.py:44-51 | the direct pass over one more keyword adds that keyword exactly when its whole-word pattern matches |
| KeywordDetector.AddRuleLabels | backend/services/keyword_detector.py:61-64 | an alias rule adds exactly its labels that are in the canonical list |
| KeywordDetector.DirectPass | backend/services/keyword_detector.py:44-54 | the direct loop collects exactly the keywords whose whole-word pattern matches |
| KeywordDetector.AliasPass | backend/services/keyword_detector.py:58-64 | the alias loop adds exactly the canonical labels of the matching rules |
| KeywordDetector.FindAiKeywords | backend/services/keyword_detector.py:32-66 | the loop implementation returns exactly `KeywordsOf(text)` |
| KeywordDetector.AliasAdds | backend/services/keyword_detector.py:58-64 | every label of a matching alias rule is canonical and is found |
| KeywordDetector.NothingInEmptyText | backend/services/keyword_detector.py:38-39 | nothing is found in the empty text |
| KeywordDetector.SomeKeywordFound | backend/services/keyword_detector.py:69-71 | the keyword list is non-empty iff some keyword matches directly or some alias rule matches |
| KeywordDetector.IsAiRelated | backend/services/keyword_detector.py:69-71 | true iff the text is present and a keyword matches directly or an alias rule matches |
| KeywordDetector.LowerKeepsWordness | backend/services/keyword_detector.py:49-50 | lower-casing a character does not change whether it is a word character |
| KeywordDetector.MatchIffWholeWord | backend/services/keyword_detector.py:49-50 | for a literal that starts and ends with word characters, a boundary-delimited case-insensitive match is exactly a whole-word occurrence |
| KeywordDetector.VocabularyIsWordDelimited | backend/services/keyword_detector.py:11-25 | every keyword and every alias alternative starts and ends with a word character |
| KeywordDetector.DirectKeywordIff | backend/services/keyword_detector.py:44-66 | a keyword no alias rule adds is reported iff it occurs in the title as a whole word, in any case |
| KeywordDetector.WholeWordIsFound | backend/services/keyword_detector.py:44-51 | any canonical keyword occurring as a whole word is reported |
| KeywordDetector.LlmAlias | backend/services/keyword_detector.py:23 | a whole-word `llm` or `llms` yields both `llm` and `large language model` |
| KeywordDetector.MlAlias | backend/services/keyword_detector.py:24 | a whole-word `ml` yields `machine learning` |
| KeywordDetector.DallEAlias | backend/services/keyword_detector.py:25 | a whole-word `dall-e` yields both `dall-e` and `dalle` |
| KeywordExamples.NoKeywordInLlms | backend/services/keyword_detector.py:44-51 | no canonical keyword matches `LLMs` directly |
| KeywordExamples.OnlyLlmRuleMatchesLlms | backend/services/keyword_detector.py:23-25 | of the alias rules only the `llms?` rule matches `LLMs` |
| KeywordExamples.ThreeRules | backend/services/keyword_detector.py:58-64 | over three rules the alias pass is the union of what each rule adds |
| KeywordExamples.LlmsAliases | backend/services/keyword_detector.py:23 | the alias pass over `LLMs` yields exactly `llm` and `large language model` |
| KeywordExamples.LlmsExample | backend/services/keyword_detector.py:23 | `LLMs` has no whole-word `llm`, yet is classified as `["large language model", "llm"]` |
| KeywordExamples.NoKeywordInHtml | backend/services/keyword_detector.py:44-51 | no canonical keyword matches `HTML`: `ml` inside a word is not a match |
| KeywordExamples.NoAliasInHtml | backend/services/keyword_detector.py:24 | the `\bml\b` rule does not match `HTML` |
| KeywordExamples.HtmlExample | backend/services/keyword_detector.py:44-66 | `HTML` is classified as `[]` |
| HackerNews.SliceEnd | backend/services/hacker_news.py:23 | definition: where `story_ids[:limit]` ends, at most the list length (stated by GetTopStories and TopStoriesDefault) |
| HackerNews.GetTopStories | backend/services/hacker_news.py:16-26 | a failed request gives []; otherwise a prefix of the body, of length min(limit, n) for a non-negative limit |
| HackerNews.TopStoriesDefault | backend/tests/services/test_hacker_news_client.py:8-15 | with the default limit at most 50 ids are kept: all of them when there are at most 50, exactly 50 otherwise |
| HackerNews.DomainOf | backend/services/hacker_news.py:40-44 | the domain is present iff the url is present and non-empty, and is then the url's netloc |
| HackerNews.GetStoryDetails | backend/services/hacker_news.py:29-58 | None iff the request failed, the body is null or the title is missing; otherwise each field maps over with its default |
| HackerNews.RawOf | backend/services/hacker_news.py:46-55 | the raw item built from a record carries its id and title |
| HackerNews.NormaliseRoundTrip | backend/services/hacker_news.py:46-55 | normalising the raw item of a domain-consistent record gives the record back |
| HackerNews.DetailsAreConsistent | backend/services/hacker_news.py:40-55 | every normalised record is domain-consistent |
| HackerNews.NoUrlNoDomain | backend/tests/services/test_hacker_news_client.py:60-79 | an item without a url normalises to url "" and no domain |
| Models.Valid | backend/core/models.py:4-35 | definition: each story sits under its `id` primary key and every mention's foreign key names a stored story; `unique_together` and the unique domain are the set and map types (stated by EmptyStore, UpsertStory, AddMention, DeleteStory and the `*Valid` lemmas) |
| Models.EmptyStore | backend/core/models.py:4-36 | the empty store is valid and holds no rows |
| Models.Upserted | backend/core/models.py:14-15 | an upserted row takes the new fields and `updated_at = now`, and keeps `fetched_at` when the row existed |
| Models.UpsertStory | backend/core/models.py:4-16 | the upsert adds or replaces exactly the one row, changes nothing else, and keeps the store valid |
| Models.EnsureDomain | backend/tasks.py:199-202 | get-or-create adds the domain row if missing, changes no count, and keeps the store valid |
| Models.IncrementDomain | backend/tasks.py:204 | the update raises an existing domain's count by one; no count changes when the row is absent |
| Models.AddMention | backend/core/models.py:21-27 | get-or-create of a (keyword, story) pair adds that pair once; validity is kept when the story exists |
| Models.DeleteStory | backend/core/models.py:24 | deleting a story removes it and cascades to exactly its mentions |
| Models.Database.constructor | backend/core/models.py:4-36 | a database over the given tables |
| Models.Database.UpdateOrCreate | backend/core/models.py:4-16 | the upsert reports whether the row was absent, and the tables become `UpsertStory` of the old ones |
| Models.Database.DomainGetOrCreate | backend/tasks.py:199-202 | the tables become `EnsureDomain` of the old ones |
| Models.Database.DomainIncrement | backend/tasks.py:204 | the tables become `IncrementDomain` of the old ones |
| Models.Database.MentionGetOrCreate | backend/core/models.py:21-27 | the tables become `AddMention` of the old ones |
| Models.Database.Restore | backend/tasks.py:186 | a rolled-back transaction leaves the tables as they were when it began |
| CacheBackend.WithoutPrefix | backend/tasks.py:236-239 | a pattern delete keeps exactly the keys the pattern does not match, with their values |
| CacheBackend.Cache.constructor | backend/tasks.py:8 | a cache with the given entries and pattern support |
| CacheBackend.Cache.Set | backend/tasks.py:178 | `set` binds the key to the value and changes nothing else |
| CacheBackend.Cache.Delete | backend/tasks.py:238 | `delete` removes the key and changes nothing else |
| CacheBackend.Cache.DeletePattern | backend/tasks.py:234-237 | `delete_pattern` exists only when supported, and removes exactly the matching keys |
| CacheBackend.DigitChar | backend/tasks.py:178 | a digit renders as a decimal digit character |
| CacheBackend.NatString | backend/tasks.py:178 | a natural renders as decimal digits, one digit exactly below 10 |
| CacheBackend.IntString | backend/tasks.py:178 | an int's rendering starts with `-` iff it is negative |
| CacheBackend.DigitCharInjective | backend/tasks.py:178 | distinct digits render differently |
| CacheBackend.NatStringInjective | backend/tasks.py:178 | distinct naturals render differently |
| CacheBackend.IntStringInjective | backend/tasks.py:178 | distinct ints render differently |
| CacheBackend.StoryKeyHasPrefix | backend/tasks.py:178 | every story key starts with `story_` |
| CacheBackend.StoryKeyInjective | backend/tasks.py:178 | equal story keys come from equal ids |
| CacheBackend.StoryKey | backend/tasks.py:178 | definition: `f"story_{story_id}"`, the prefix followed by the decimal id (stated by StoryKeyHasPrefix and StoryKeyInjective) |
| CacheBackend.StoryKeysDiffer | backend/tasks.py:178 | different stories get different cache keys |
| IngestionSpec.PrepareStory | backend/tasks.py:84-115 | fails iff the client gave nothing; otherwise the row carries the record's fields and the title's keywords, and is AI-related iff some keyword was found |
| IngestionSpec.Fetched | backend/tasks.py:143-156 | definition: a worker that raised or whose client call gave nothing yields no record; otherwise it yields the prepared record (stated by ScenarioFetched) |
| IngestionSpec.Successes | backend/tasks.py:136-148 | definition: the records of the workers that succeeded, collected in id order (stated by SuccessesFromIds and SuccessesComplete) |
| IngestionSpec.Failures | backend/tasks.py:149-156 | definition: the number of workers that raised or yielded nothing (stated by FetchAccounting) |
| IngestionSpec.FetchAccounting | backend/tasks.py:142-156 | successes plus failed fetches equal the number of ids |
| IngestionSpec.SuccessesFromIds | backend/tasks.py:138-148 | every prepared record comes from one of the requested ids |
| IngestionSpec.SuccessesComplete | backend/tasks.py:142-156 | a failed fetch does not stop the others: the record of every id whose fetch succeeded is collected |
| IngestionSpec.RowsOf | backend/tasks.py:161-170 | definition: `stories_to_update_or_create`, one row per record in collection order (stated by StagingStep) |
| IngestionSpec.MentionsFor | backend/tasks.py:173-175 | definition: the mentions one record adds, each of its keywords with its id (stated by MentionsForMembers) |
| IngestionSpec.MentionsOf | backend/tasks.py:162-175 | definition: `keyword_mentions_to_create`, record by record (stated by MentionsOfMembers and StagingStep) |
| IngestionSpec.MentionsForMembers | backend/tasks.py:174-175 | a story's mentions are exactly its found keywords paired with its id |
| IngestionSpec.MentionsOfMembers | backend/tasks.py:164-175 | a mention is staged iff some prepared story found that keyword |
| IngestionSpec.StagingStep | backend/tasks.py:164-178 | staging one more record appends its row and mentions, and caches it under its key |
| IngestionSpec.StagedCache | backend/tasks.py:164-178 | definition: `story_<id>` set to each record's cache data, in collection order (stated by StagedCacheKeys, StagedCacheOthers and StagedCacheLatest) |
| IngestionSpec.StagedCacheKeys | backend/tasks.py:178 | after staging, the cache keys are the old ones plus one `story_` key per prepared record |
| IngestionSpec.StagedCacheOthers | backend/tasks.py:178 | staging leaves every key without the `story_` prefix as it was |
| IngestionSpec.LatestUnder | backend/tasks.py:178 | for any key function, the entry under the key of a record no later record shares is that record |
| IngestionSpec.StagedUnderStoryKey | backend/tasks.py:178 | staging under the `story_<id>` key function is the staged cache |
| IngestionSpec.StagedCacheLatest | backend/tasks.py:178 | the entry for a story is the last prepared record with its id |
| IngestionSpec.StagedCacheStep | backend/tasks.py:178 | the last record staged does not change another key |
| IngestionSpec.RowsCallsPrefix | backend/tasks.py:189-204 | a prefix of the rows makes no more store calls than all of them |
| IngestionSpec.HasDomain | backend/tasks.py:197-198 | definition: the `if domain:` test, a domain that is present and not empty (stated by ApplyRowsDomains) |
| IngestionSpec.DomainHits | backend/tasks.py:197-204 | definition: the number of rows whose domain is the given one, each raising its count once (stated by ApplyRowsDomains and ReplayCountsTwice) |
| IngestionSpec.ApplyRow | backend/tasks.py:189-207 | definition: one upsert, then, for a story with a non-empty domain, get-or-create at 0 and increment that domain (stated by ApplyRowsDomains) |
| IngestionSpec.ApplyRows | backend/tasks.py:186-211 | definition: the upsert loop over the rows in order (stated by ApplyRowsKeys, ApplyRowsTimes and ApplyRowsFields) |
| IngestionSpec.ApplyMentions | backend/tasks.py:216-223 | definition: get-or-create of each staged mention in order (stated by ApplyMentionsSet) |
| IngestionSpec.Ingested | backend/tasks.py:184-223 | definition: the committed transaction, stories first and mentions after (stated by IngestedValid and IngestedRecord) |
| IngestionSpec.RowCalls | backend/tasks.py:192-204 | definition: a row makes one store call, or three when its domain is non-empty |
| IngestionSpec.RowsCalls | backend/tasks.py:189-204 | definition: the store calls of the upsert loop (stated by RowsCallsPrefix) |
| IngestionSpec.StoreCalls | backend/tasks.py:189-223 | definition: every store call of the transaction, the mention calls after the row calls |
| IngestionSpec.Strikes | backend/tasks.py:226-229 | definition: the fault raises in one of the calls the transaction makes, so the `except` branch is taken (stated by RunRollsBack) |
| IngestionSpec.ApplyRowsKeys | backend/tasks.py:189-192 | committing the rows stores exactly the old ids plus the batch ids, and leaves other stories and the mentions alone |
| IngestionSpec.ApplyRowsTimes | backend/tasks.py:192 | a committed story keeps its first-fetch time if it existed, else gets `now`, and every batch story's update time is `now` |
| IngestionSpec.ApplyRowsFields | backend/tasks.py:189-192 | a story's fields are those of its last row in the batch |
| IngestionSpec.ApplyRowsDomains | backend/tasks.py:194-204 | each non-empty domain's count rises by the batch's rows with that domain; a domain row exists iff it did or the batch has it; the empty domain is untouched |
| IngestionSpec.ApplyMentionsSet | backend/tasks.py:217-223 | the mentions become the old ones plus the staged ones, each once; stories and counts are unchanged |
| IngestionSpec.ApplyRowsValid | backend/tasks.py:189-207 | committing the rows keeps the store valid |
| IngestionSpec.ApplyMentionsValid | backend/tasks.py:217-223 | adding mentions of stored stories keeps the store valid |
| IngestionSpec.MentionsReferToRows | backend/tasks.py:164-175 | every staged mention names a story of the batch |
| IngestionSpec.IngestedValid | backend/tasks.py:184-223 | the committed transaction keeps the store valid |
| IngestionSpec.IngestedRecord | backend/tasks.py:184-223 | a committed record whose id no other record shares is stored with its column values, and its mentions become the earlier ones plus its keywords |
| IngestionSpec.Invalidated | backend/tasks.py:233-244 | definition: the pattern branch deletes three prefixes and `ai_keywords`; the plain branch deletes three fixed keys (stated by InvalidatedKeys) |
| IngestionSpec.InvalidatedKeys | backend/tasks.py:233-244 | invalidation removes exactly the listed keys and patterns for each kind of cache, and changes no kept value |
| IngestionSpec.PatternKeepsPlainKeys | backend/tasks.py:234-239 | with pattern support, `stories_list` and `top_domains` survive invalidation |
| IngestionSpec.Run | backend/tasks.py:117-252 | a failure leaves the store unchanged; a success reports new = processed, updated = 0, and processed + failed = number of ids |
| IngestionSpec.RunCommits | backend/tasks.py:184-244 | a successful run commits the staged rows and mentions and invalidates the staged cache |
| IngestionSpec.RunWithoutIds | backend/tasks.py:122-125 | with no ids the run fails with "No story IDs retrieved" and touches neither store nor cache |
| IngestionSpec.RunRollsBack | backend/tasks.py:178-229 | a failed run leaves the store as it was, names its reason, and keeps the `story_` entries written before the transaction |
| IngestionSpec.RunValid | backend/tasks.py:184-229 | every run keeps the store valid |
| IngestionSpec.RunEffects | backend/tasks.py:194-244 | after a success each found (keyword, story) pair is stored once, each domain count rose by the batch's stories with that domain, and the cache is the staged cache invalidated |
| IngestionSpec.RunStoresFetched | backend/tasks.py:142-223 | after a success, every id whose fetch yielded a record has that record's story stored and each of its keywords mentioned |
| IngestionSpec.RunStoresRecord | backend/tasks.py:164-223 | after a success, a record whose id no other record shares is stored with its values, and its story's mentions are the earlier ones plus its keywords |
| IngestionSpec.ReplayCountsTwice | backend/tasks.py:194-223 | committing the same batch twice stores the same mentions as once, but counts each domain twice |
| Tasks.FetchAll | backend/tasks.py:136-156 | the fetch loop collects exactly the successes and counts exactly the failures |
| Tasks.RaisesAt | backend/tasks.py:184-229 | definition: the store call of the transaction that raises and sends control to the `except` branch (stated by PersistRows, PersistMentions and PersistBatch) |
| Tasks.AppendMentions | backend/tasks.py:174-175 | the keyword loop appends the story's mentions |
| Tasks.StageBatch | backend/tasks.py:164-178 | the staging loop returns the rows and mentions of the batch and leaves the staged cache |
| Tasks.Abort | backend/tasks.py:226-229 | a raising store call rolls the tables back and reports "Database transaction failed: " and the message |
| Tasks.PersistRows | backend/tasks.py:189-207 | when a story-loop call raises, the tables are restored; otherwise they are the committed rows, with every row counted new and none updated |
| Tasks.PersistMentions | backend/tasks.py:217-223 | when a mention call raises, the tables are restored; otherwise every mention has been added |
| Tasks.PersistBatch | backend/tasks.py:184-229 | when a store call raises, the tables are unchanged and the failure is reported; otherwise the tables are the committed batch and new = processed = number of rows, updated = 0 |
| Tasks.InvalidateCache | backend/tasks.py:233-244 | the cache becomes the invalidated cache |
| Tasks.FetchTopStoriesLogic | backend/tasks.py:117-252 | the result, the tables and the cache are exactly those of `IngestionSpec.Run` |
| TasksExamples.ScenarioFetched | backend/tests/core/test_tasks.py:85-111 | stories 1 and 2 are prepared with their titles and story 3 fails |
| TasksExamples.ScenarioFetches | backend/tests/core/test_tasks.py:85-111 | fetching ids 1, 2, 3 gives the two stories in order and one failure |
| TasksExamples.ReingestScenario | backend/tests/core/test_tasks.py:85-108 | with story 1 stored, the run reports 2 processed, 2 new, 0 updated, 1 failed; story 1 takes the new title and keeps its first-fetch time |
| TasksExamples.ReingestMentions | backend/tests/core/test_tasks.py:106-111 | in the same scenario story 1 is AI-related iff its new title has a keyword, and its mentions are the earlier ones plus one per keyword of that title, so a story stored without mentions ends with exactly those |
| Consumer.Configured | backend/core/management/commands/consume_hn_stories.py:18-22 | definition: the bootstrap servers are set, not empty and not the placeholder |
| Consumer.FetchStoriesTopic | backend/tasks.py:18 | definition: the topic prefix followed by `fetch_stories` |
| Consumer.GroupId | backend/core/management/commands/consume_hn_stories.py:27 | definition: the topic prefix followed by `fetch_stories_consumer_group` (stated by GroupIdExtendsTopic) |
| Consumer.Stops | backend/core/management/commands/consume_hn_stories.py:54-89 | definition: a Kafka exception, an interrupt, another exception, or a message value that is null or not UTF-8 ends the loop |
| Consumer.Step | backend/core/management/commands/consume_hn_stories.py:37-80 | definition: one poll: nothing after a stop, a stop for a stopping poll, one run for a JSON message, nothing otherwise (stated by LoopDispatch and QuietPolls) |
| Consumer.Loop | backend/core/management/commands/consume_hn_stories.py:37-89 | definition: the poll steps in order (stated by LoopSnoc, LoopDispatch and StoppedStays) |
| Consumer.SettingText | backend/core/management/commands/consume_hn_stories.py:27 | definition: a setting as an f-string renders it, `None` as "None" (stated by GroupIdExtendsTopic) |
| Consumer.StopReason | backend/core/management/commands/consume_hn_stories.py:82-89 | definition: which `except` clause ends the loop: a Kafka exception, an interrupt, or any other exception |
| Consumer.Quiet | backend/core/management/commands/consume_hn_stories.py:40-51 | definition: no message, a partition end, a broker error, or a payload that is not JSON (stated by QuietPolls) |
| Consumer.GroupIdExtendsTopic | backend/core/management/commands/consume_hn_stories.py:27 | the consumer group id is the topic name followed by `_consumer_group` |
| Consumer.KafkaConsumer.constructor | backend/core/management/commands/consume_hn_stories.py:25-33 | a new consumer has the group id, no subscription and has not been closed |
| Consumer.KafkaConsumer.Subscribe | backend/core/management/commands/consume_hn_stories.py:34 | subscribing sets the topic list |
| Consumer.KafkaConsumer.Close | backend/core/management/commands/consume_hn_stories.py:91-92 | closing counts one close and keeps the subscription |
| Consumer.Handled | backend/core/management/commands/consume_hn_stories.py:37-89 | the handled polls are the longest prefix with no poll that ends the loop |
| Consumer.LoopDispatch | backend/core/management/commands/consume_hn_stories.py:37-80 | before a stop each JSON message triggers exactly one run and no other poll does; the loop stops iff some poll ends it |
| Consumer.HandledPrefix | backend/core/management/commands/consume_hn_stories.py:37-89 | extending the polls by one extends the handled prefix only if nothing has stopped it |
| Consumer.QuietPolls | backend/core/management/commands/consume_hn_stories.py:40-51 | empty polls, partition ends, broker errors and undecodable JSON change nothing |
| Consumer.LoopValid | backend/core/management/commands/consume_hn_stories.py:37-80 | the loop keeps the store valid |
| Consumer.StoppedStays | backend/core/management/commands/consume_hn_stories.py:82-89 | once the loop has stopped, later polls change nothing |
| Consumer.LoopSnoc | backend/core/management/commands/consume_hn_stories.py:37-80 | the loop after one more poll is one more step |
| Consumer.PollLoop | backend/core/management/commands/consume_hn_stories.py:37-89 | the poll loop leaves the tables, the cache, the results and the exit reason that the loop specification gives |
| Consumer.Handle | backend/core/management/commands/consume_hn_stories.py:15-92 | it exits at once when unconfigured or when construction raises; otherwise the consumer has the right group and is closed exactly once, and after subscribing the state and results are those of the poll loop |

## Left out

- HTTP, JSON decoding, `urlparse` and `datetime.fromtimestamp` are parameters (`Response`, `netloc`) or integers. A `fromtimestamp` range error, or any other exception raised in a fetch worker, is the `Raised` fetch outcome.
- HackerNews.GetStoryDetails: a key that is present with a JSON `null` value is modelled as absent. Items without an `id` and bodies that are not JSON objects are not modelled.
- Tasks.FetchAll: the thread pool of ten workers is a sequential loop in id order. The source's completion order is not captured; it only affects the order of rows and of the cache writes for a repeated id.
- KeywordDetector.KeywordsOf: `\b` and `IGNORECASE` are modelled on ASCII letters, digits and `_`; Unicode word characters and case folding are not modelled.
- The `re.error` handler in the direct keyword loop is not modelled: no escaped keyword can fail to compile.
- Cache timeouts (a one-day TTL) and key expiry are not modelled.
- `DomainStats.last_updated`, the `CharField` length limits and the field defaults of the tables are not modelled: the upsert always supplies every field.
- The Kafka producer, `send_kafka_message`, `schedule_hn_fetch` and `fetch_hn_stories` are not part of this model: they only send a message or call the run.
- Logging, stdout/stderr output and `time.sleep` after a broker error are left out.
- Consumer.Handle: the poll loop is a finite script of poll outcomes. The command's unbounded `while True` ends in the model when the script runs out (`ScriptEnd`).
- Consumer.Handle: a `KeyboardInterrupt` is only modelled at a poll boundary.
- Consumer.Handle: the message payload is only logged by the source, so it is not modelled. The ingestion run's own exceptions outside its transaction (for example a cache server error) are not modelled.
- `story_ids_processed_db` and the count of created keyword mentions are not modelled: they are never read or are only logged.
- One run reads the clock once (`RunInputs.now`): every save in a run uses that value, so a new story gets `fetched_at == updated_at`. Django's `auto_now_add` and `auto_now` (`backend/core/models.py:14-15`) read `timezone.now()` on each save.
- Faults come only from the store calls of the transaction. An exception raised by `transaction.atomic()` itself, when the transaction begins or commits, is not modelled. So a batch with no record always succeeds as `Success(0, 0, 0, n)`.
- The read API, serializers, settings, migrations, app configuration and the frontend are not part of this model.
