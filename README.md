# InfraGenius performance core and fine-tuning data preparation, in Dafny

This project models the request-optimisation layer of InfraGenius's MCP server and the dataset
preparation step of its fine-tuning tool, and proves properties of that model.

- **LRU cache** (`lru_cache.dfy`, module `Caching`). This is the TTL-bounded LRU cache behind every
  cache in the system.
  - The class `LRUCache` keeps the source's separate fields: the dictionary, the timestamps, the
    access-order deque and the four counters.
  - Each method is proved against a pure step function on a `CacheState` value: `AfterGet`,
    `AfterPut` and `AfterClear`.
  - The size bound (`Tidy`) holds as long as no entry expires. The model keeps the source's
    behaviour on expiry as written: an expired key stays in the access order, and a later eviction
    can pop that stale key and overflow the cache. `StaleHeadReachable` and `ExpiryOverflow` show
    this.
- **Prompt optimizer** (`prompt_optimizer.dfy`, module `Prompting`). It removes redundant phrases,
  removes filler words, simplifies verbose patterns, appends the domain hints, collapses whitespace
  and caches the result under the md5 of `prompt:domain`.
- **Context compressor** (`context_compressor.dfy`, module `Compression`). It extracts key phrases
  and structured information, builds the digest and falls back to the aggressive line filter. The
  result is cached under `compressionDigest(context, target)`, which stands for the md5 of
  `context:target`.
- **Performance monitor** (`monitoring.dfy`, module `Monitoring`). It keeps a bounded metric
  history, raises threshold alerts and builds the windowed summary: rates, mean, minimum, maximum,
  the 95th and 99th percentiles and the per-operation breakdown.
- **Request pipeline** (`pipeline.dfy`, module `Pipeline`). `CursorAIOptimizer` optimises the
  prompt, compresses long contexts, looks up the global response cache, records one metric per
  request and falls back to the original request when a stage raises. It also covers
  `cache_response`, the statistics report and the cleanup.
- **Analysis parser** (`analysis_parser.dfy`, module `Analysis`). `parse_analysis_result` chooses
  between JSON and text. `parse_text_result` scans the lines for section headers and bulleted
  items.
- **Fine-tuning dataset** (`dataset.dfy`, module `FineTuning`). It covers:
  - the defaults filled in by `FineTuningConfig.__post_init__`;
  - per-line loading and validation;
  - domain balancing with the truncating `int()` target sizes;
  - the train/validation split;
  - the conversion to the Ollama prompt/response format.
- **Support modules.**
  - `Text`: the Python `str` operations the source uses (`lower`, `split`, `strip`, `replace`,
    `join`, whitespace collapsing).
  - `Sequences`: generic filter and map helpers.
  - `Measures`: the `1 - new/original` reduction ratio.
  - `Wrappers`: `Option` and `Outcome`, where `Outcome` stands for a Python exception as
    `Raised(message)`.

Several inputs are passed in as parameters:
- Clock readings (`now`) and measured durations (`elapsed`).
- md5 hashing. The prompt optimizer and the pipeline use `md5: string -> string`, applied to the joined key text. The compressor uses a second function, `compressionDigest: (string, real) -> string`; it stands for the md5 of `f"{context}:{target}"` and is applied to the pair. Neither is assumed injective.
- The order in which Python iterates a `set`, as an `arrange` function.
- `json.loads`, as a decoder.
- `random.shuffle`, as a function on sequences. The properties assume it permutes.

## Model

| member | source | states |
|---|---|---|
| Measures.Reduction | mcp_server/performance_optimizer.py:194 | the ratio times the original length is the number of characters removed; it lies in [0, 1] when the text did not grow and is negative when it grew |
| Caching.RemoveFirst | mcp_server/performance_optimizer.py:61 | `deque.remove`: drops exactly one occurrence of a present key and leaves the rest unchanged, as a multiset |
| Caching.AfterGet | mcp_server/performance_optimizer.py:52-71 | a get returns a value exactly when the key is present and younger than the TTL, and that value is the stored one |
| Caching.AfterPut | mcp_server/performance_optimizer.py:73-89 | a put keeps the cache consistent; it raises only when a new key meets an empty cache of non-positive capacity (`popleft` on an empty deque) |
| Caching.AfterClear | mcp_server/performance_optimizer.py:97-102 | clearing empties the entries and the access order and keeps the counters |
| Caching.GetCounts | mcp_server/performance_optimizer.py:52-71 | each get adds one to hits or misses; an expired key is counted, removed and left in the access order; a hit moves the key to the back |
| Caching.PutStores | mcp_server/performance_optimizer.py:73-89 | after a put the key maps to the value with the current timestamp at the back of the order; evictions grow only when a new key meets a full cache; other entries survive unless evicted |
| Caching.Stats | mcp_server/performance_optimizer.py:104-115 | total requests are hits plus misses; the hit rate is hits/total in [0, 1], or 0 with no requests; the size is the number of entries |
| Caching.GetNeverAdds | mcp_server/performance_optimizer.py:52-71 | a get never adds an entry or changes a stored value |
| Caching.PutThenGet | mcp_server/performance_optimizer.py:52-89 | a value put and then read back is returned exactly when the read comes within the TTL |
| Caching.LRUCache.constructor | mcp_server/performance_optimizer.py:38-50 | a new cache is empty with zeroed counters and the given capacity and TTL |
| Caching.LRUCache.Get | mcp_server/performance_optimizer.py:52-71 | the fields change as `AfterGet` says, and the result is its result |
| Caching.LRUCache.Put | mcp_server/performance_optimizer.py:73-89 | the fields change as `AfterPut` says; on the error path nothing changes and the deque error is returned |
| Caching.LRUCache.RemoveKey | mcp_server/performance_optimizer.py:91-95 | drops the key from the entries and timestamps only |
| Caching.LRUCache.Clear | mcp_server/performance_optimizer.py:97-102 | the fields change as `AfterClear` says |
| Caching.LRUCache.GetStats | mcp_server/performance_optimizer.py:104-115 | the statistics of the current state |
| Caching.RemoveFirstDistinct | mcp_server/performance_optimizer.py:61 | removing a key from a duplicate-free order keeps it duplicate-free and removes exactly that key |
| Caching.TidySize | mcp_server/performance_optimizer.py:81-85 | in a tidy state the entries and the order have the same length, at most the capacity |
| Caching.TidyAfterPut | mcp_server/performance_optimizer.py:73-89 | with capacity at least 1, a put never raises and keeps the state tidy |
| Caching.TidyAfterInsert | mcp_server/performance_optimizer.py:87-89 | inserting a new key below capacity keeps the state tidy |
| Caching.PutInsertShape | mcp_server/performance_optimizer.py:87-89 | a new key below capacity is added with its timestamp at the back of the order |
| Caching.TidyAfterOverwrite | mcp_server/performance_optimizer.py:78-80 | overwriting a key keeps the state tidy |
| Caching.PutOverwriteShape | mcp_server/performance_optimizer.py:78-89 | overwriting moves the key to the back and replaces its value and timestamp |
| Caching.TidyAfterEviction | mcp_server/performance_optimizer.py:81-85 | evicting for a new key at capacity keeps the state tidy |
| Caching.EvictionOrder | mcp_server/performance_optimizer.py:83-89 | popping the front and appending a new key keeps the order duplicate-free and of the same length |
| Caching.PutEvictShape | mcp_server/performance_optimizer.py:81-89 | at capacity the front of the order is popped and removed, one eviction is counted and the new key is appended |
| Caching.EvictsHead | mcp_server/performance_optimizer.py:81-89 | at capacity in a tidy state exactly the least recently used key leaves, the size stays at capacity and all other entries keep their values |
| Caching.TidyAfterGet | mcp_server/performance_optimizer.py:52-71 | a get that does not expire its key keeps the state tidy |
| Caching.Run | mcp_server/performance_optimizer.py:52-102 | any sequence of gets, puts and clears keeps the cache consistent |
| Caching.TidyRun | mcp_server/performance_optimizer.py:52-102 | a sequence of operations with no expiry keeps the size within capacity |
| Caching.StaleHeadOverflows | mcp_server/performance_optimizer.py:66-68 | when the front of the order is an already expired key, a put at capacity pops it, removes nothing and grows the cache past its capacity while counting an eviction |
| Caching.FirstPut | mcp_server/performance_optimizer.py:87-89 | the first put into an empty cache stores exactly one entry |
| Caching.ExpiredRead | mcp_server/performance_optimizer.py:65-70 | reading an expired key removes the entry, keeps it in the order and counts one miss and one expiry |
| Caching.StaleHeadReachable | mcp_server/performance_optimizer.py:52-89 | a concrete sequence (put, expire, put) leaves a stale key at the front of the order |
| Caching.ExpiryOverflow | mcp_server/performance_optimizer.py:81-85 | from that state a further put leaves two entries in a cache of capacity 1 |
| Caching.HitIsNotEvictedNext | mcp_server/performance_optimizer.py:60-62 | after a hit on a cache of two or more, the key is at the back and not at the front of the order |
| Caching.PutRefreshesTtl | mcp_server/performance_optimizer.py:78-88 | re-putting a key refreshes its timestamp, evicts nothing and keeps it readable past the first TTL |
| Monitoring.Appended | mcp_server/performance_optimizer.py:505-517 | a bounded deque append keeps the newest `maxlen` metrics in order |
| Monitoring.Alerts | mcp_server/performance_optimizer.py:581-593 | one alert per threshold crossed: response time above 5 s, memory above 1e9, and failure; no other alerts |
| Monitoring.Min | mcp_server/performance_optimizer.py:547 | a lower bound of every duration |
| Monitoring.Max | mcp_server/performance_optimizer.py:548 | an upper bound of every duration |
| Monitoring.MinMaxAreElements | mcp_server/performance_optimizer.py:547-548 | the minimum and maximum are durations of the window |
| Monitoring.MeanWithin | mcp_server/performance_optimizer.py:546 | the mean lies between any bounds of the durations |
| Monitoring.FractionWithin | mcp_server/performance_optimizer.py:544-545 | a count over the total lies in [0, 1] |
| Monitoring.Insert | mcp_server/performance_optimizer.py:559 | insertion adds exactly one element to the multiset |
| Monitoring.InsertSorted | mcp_server/performance_optimizer.py:559 | insertion into a sorted list keeps it sorted |
| Monitoring.Sort | mcp_server/performance_optimizer.py:559 | `sorted` is a permutation of its input |
| Monitoring.SortSorted | mcp_server/performance_optimizer.py:559 | `sorted` is ordered |
| Monitoring.PercentileIsElement | mcp_server/performance_optimizer.py:554-561 | the percentile of a non-empty list is one of its elements, between the minimum and the maximum |
| Monitoring.PercentileMonotone | mcp_server/performance_optimizer.py:554-561 | a higher percentile is never smaller, so p95 <= p99 |
| Monitoring.PercentileExtremes | mcp_server/performance_optimizer.py:554-561 | the 0th percentile is the minimum and the 100th is the maximum (the index is clamped) |
| Monitoring.Recent | mcp_server/performance_optimizer.py:522-529 | the window holds exactly the recorded metrics stamped at or after the cutoff |
| Monitoring.Durations | mcp_server/performance_optimizer.py:535 | one duration per metric, in order |
| Monitoring.CountSuccess | mcp_server/performance_optimizer.py:538 | the successful count never exceeds the total |
| Monitoring.CountHits | mcp_server/performance_optimizer.py:536 | the hit count never exceeds the total |
| Monitoring.Of | mcp_server/performance_optimizer.py:567-568 | the group of one operation is no longer than the window; its membership is stated by OfMembers and its order by OfSnoc |
| Monitoring.OfMembers | mcp_server/performance_optimizer.py:567-568 | the group of one operation holds exactly the window's metrics of that operation |
| Monitoring.OpNames | mcp_server/performance_optimizer.py:565-571 | the keys of the breakdown are distinct; which names occur is stated by OpNamesOccur and their first-seen order by OpNamesSnoc |
| Monitoring.OpNamesOccur | mcp_server/performance_optimizer.py:565-571 | the keys are exactly the operations that occur in the window |
| Monitoring.OfEmptyIff | mcp_server/performance_optimizer.py:565-571 | an operation has metrics exactly when it is among the names |
| Monitoring.BreakdownOf | mcp_server/performance_optimizer.py:570-577 | one breakdown entry per name, in order |
| Monitoring.BreakdownOfSnoc | mcp_server/performance_optimizer.py:571-577 | adding a name adds its statistics at the end |
| Monitoring.OpCountsCoverAll | mcp_server/performance_optimizer.py:565-568 | every metric is counted under exactly one operation |
| Monitoring.TotalCountOf | mcp_server/performance_optimizer.py:570-577 | the breakdown's counts add up to the per-operation counts |
| Monitoring.BreakdownCoversAll | mcp_server/performance_optimizer.py:563-579 | one entry per operation whose count is that operation's metric count; the counts sum to the window size |
| Monitoring.BreakdownEntries | mcp_server/performance_optimizer.py:573-576 | each entry's count is the number of metrics of its operation |
| Monitoring.SummaryBounds | mcp_server/performance_optimizer.py:531-552 | the error report is returned exactly when the window is empty; otherwise rates are in [0, 1], min <= avg <= max, min <= p95 <= p99 <= max, and the breakdown counts every request |
| Monitoring.PerformanceMonitor.constructor | mcp_server/performance_optimizer.py:504-512 | a new monitor has an empty history |
| Monitoring.PerformanceMonitor.RecordMetric | mcp_server/performance_optimizer.py:514-518 | the history becomes the bounded append and the alerts are those of the metric |
| Monitoring.PerformanceMonitor.GetPerformanceSummary | mcp_server/performance_optimizer.py:520-552 | the summary of the metrics inside the time window |
| Monitoring.OfSnoc | mcp_server/performance_optimizer.py:567-568 | appending a metric extends its operation's group only |
| Monitoring.OpNamesSnoc | mcp_server/performance_optimizer.py:565-568 | a new operation name is appended and a known one changes nothing |
| Monitoring.GroupByOperation | mcp_server/performance_optimizer.py:565-568 | the grouping loop yields each operation's metrics, keyed by exactly the names seen |
| Monitoring.OperationBreakdown | mcp_server/performance_optimizer.py:563-579 | the breakdown loop computes the breakdown specified above |
| Prompting.RulesShrink | mcp_server/performance_optimizer.py:123-139 | each removal and simplification rule replaces a pattern with something no longer |
| Prompting.ResumeStep | mcp_server/performance_optimizer.py:157-173 | applying the rules from index i is one rule step followed by the rest |
| Prompting.RemoveRedundant | mcp_server/performance_optimizer.py:156-160 | the redundant-phrase loop computes the rule pass over those phrases |
| Prompting.RemoveFiller | mcp_server/performance_optimizer.py:162-167 | the filler loop computes the rule pass over ` word ` patterns |
| Prompting.SimplifyVerbose | mcp_server/performance_optimizer.py:169-173 | the verbose-pattern loop computes the rule pass over those pairs |
| Prompting.Rewrite | mcp_server/performance_optimizer.py:153-190 | the rewrite computes the specified text and tag list |
| Prompting.ApplyNotLonger | mcp_server/performance_optimizer.py:157-173 | a pass of shrinking rules never lengthens the text |
| Prompting.ApplyTagsFrom | mcp_server/performance_optimizer.py:157-173 | every tag recorded by a pass belongs to one of its rules |
| Prompting.RewriteWellSpaced | mcp_server/performance_optimizer.py:190 | the result has no leading, trailing or doubled whitespace |
| Prompting.PassesNotLonger | mcp_server/performance_optimizer.py:156-173 | the three passes never lengthen the prompt |
| Prompting.RewriteNotLonger | mcp_server/performance_optimizer.py:175-190 | for a domain without hints the optimised prompt is never longer than the original |
| Prompting.HintsAppend | mcp_server/performance_optimizer.py:225-271 | the domain hints only append to the text |
| Prompting.TagsAvoidApplied | mcp_server/performance_optimizer.py:160-173 | pass tags never start with `applied_` |
| Prompting.RedundantTags | mcp_server/performance_optimizer.py:160 | the redundant-phrase tags never start with `applied_` |
| Prompting.FillerTags | mcp_server/performance_optimizer.py:167 | the filler tags never start with `applied_` |
| Prompting.VerboseTags | mcp_server/performance_optimizer.py:173 | the simplification tags never start with `applied_` |
| Prompting.PassTags | mcp_server/performance_optimizer.py:156-173 | no tag of the three passes starts with `applied_` |
| Prompting.EndsWithDomainTag | mcp_server/performance_optimizer.py:175-187 | the tag list ends with an `applied_` tag exactly for the four known domains, and that tag names the domain |
| Prompting.RewriteTags | mcp_server/performance_optimizer.py:153-187 | the same for the full rewrite's tag list |
| Prompting.CapitalisedPhrasesNeverFire | mcp_server/performance_optimizer.py:124-160 | `I need you to` and `I would like` are searched for in lowercased text, so they never fire |
| Prompting.DetectedButNotReplaced | mcp_server/performance_optimizer.py:157-160 | a pattern found only case-insensitively is tagged but nothing is replaced |
| Prompting.DevopsCascade | mcp_server/performance_optimizer.py:225-235 | an `analyze` prompt without `json` gets both devops hints, because the first hint itself mentions `recommend` |
| Prompting.MentionedAfter | mcp_server/performance_optimizer.py:229-232 | a lowercase word at the start of a suffix is mentioned by the whole text |
| Prompting.Measured | mcp_server/performance_optimizer.py:192-203 | the metrics record both lengths and the applied tags, and the ratio times the original length is the number of characters removed, in [0, 1] when the text did not grow |
| Prompting.MissResult | mcp_server/performance_optimizer.py:150-209 | on a miss the optimised prompt has single spaces and no surrounding whitespace; the ratio times the original length is the number of characters removed, in [0, 1] for a domain without hints; the applied tags end with an `applied_` tag naming the domain exactly for the four known domains |
| Prompting.PromptOptimizer.constructor | mcp_server/performance_optimizer.py:120-139 | a new optimizer has an empty cache, an empty history and the source's pattern tables |
| Prompting.PromptOptimizer.OptimizePrompt | mcp_server/performance_optimizer.py:141-223 | the cache, the history and the result change as the optimisation step says, keyed by the md5 of `prompt:domain` |
| Prompting.MissStores | mcp_server/performance_optimizer.py:146-221 | a miss on a non-empty prompt caches the result under the key and records one `prompt_optimization` metric |
| Prompting.EmptyPromptRaises | mcp_server/performance_optimizer.py:194 | an empty prompt that misses the cache raises division by zero and records no metric |
| Prompting.RepeatIsCached | mcp_server/performance_optimizer.py:143-148 | repeating a request within the TTL returns the same result and records nothing |
| Compression.ExtractKeyPhrases | mcp_server/performance_optimizer.py:422-441 | the loop computes the key phrases |
| Compression.KeepPhrases | mcp_server/performance_optimizer.py:435-439 | the sentence loop keeps exactly the key phrases, in order |
| Compression.PhrasesExactly | mcp_server/performance_optimizer.py:435-439 | a phrase is kept if and only if it is a stripped sentence that mentions an indicator and is under 200 characters |
| Compression.PhrasesShape | mcp_server/performance_optimizer.py:441 | at most 15 phrases are returned, all of them key phrases; when there are no more than 15, none is lost |
| Compression.GatheredAppend | mcp_server/performance_optimizer.py:453-475 | one line adds its services, and the line itself to each category whose words it mentions |
| Compression.CollectServices | mcp_server/performance_optimizer.py:459-463 | the word loop appends the words containing `service` that are longer than 7 characters |
| Compression.GatherLines | mcp_server/performance_optimizer.py:452-475 | the line loop gathers the findings of the non-blank stripped lines |
| Compression.ExtractStructuredInfo | mcp_server/performance_optimizer.py:443-481 | the method computes the structured information |
| Compression.NonBlankExactly | mcp_server/performance_optimizer.py:453-456 | the lines considered are exactly the non-empty stripped lines |
| Compression.GatheredExactly | mcp_server/performance_optimizer.py:458-475 | each category holds exactly the lines, or words, that meet its test |
| Compression.DeduplicatedShape | mcp_server/performance_optimizer.py:478-479 | deduplication keeps at most 5 distinct items, all from the input, and all of them when at most 5 are distinct |
| Compression.ListEntries | mcp_server/performance_optimizer.py:383-385 | one `- category: items` line per non-empty category |
| Compression.Assemble | mcp_server/performance_optimizer.py:378-392 | the digest is the header, the category lines and the phrase lines joined by newlines |
| Compression.EntryLineShape | mcp_server/performance_optimizer.py:383-385 | a category line lists at most the first three items of its category |
| Compression.DigestLayout | mcp_server/performance_optimizer.py:378-392 | the digest starts with the header and has at most 16 lines; the details part is empty exactly when there are no phrases, and otherwise is the details header followed by one bullet for each of the first ten phrases, in order |
| Compression.AggressiveCompress | mcp_server/performance_optimizer.py:483-499 | the loop computes the aggressive line filter |
| Compression.ShortenedNotLonger | mcp_server/performance_optimizer.py:491-493 | the three replacements never lengthen a line |
| Compression.SurvivorsNotLonger | mcp_server/performance_optimizer.py:489-499 | the kept lines rejoined are no longer than the input |
| Compression.AggressiveNotLonger | mcp_server/performance_optimizer.py:483-499 | aggressive compression never lengthens the text |
| Compression.ShortenedFree | mcp_server/performance_optimizer.py:491-493 | replacements introduce no newline |
| Compression.AggressiveLines | mcp_server/performance_optimizer.py:496-499 | the output's lines are exactly the surviving lines, each with more than 10 non-space characters |
| Compression.Summarize | mcp_server/performance_optimizer.py:392-417 | the method computes the compressed text and the metrics |
| Compression.ContextCompressor.constructor | mcp_server/performance_optimizer.py:359-360 | a new compressor has an empty cache and the source's word lists |
| Compression.ContextCompressor.CompressContext | mcp_server/performance_optimizer.py:362-420 | the cache and the result change as the compression step says, keyed by `compressionDigest(context, target)`, the md5 of `f"{context}:{target}"` |
| Compression.ContextCompressor.CompressMiss | mcp_server/performance_optimizer.py:370-417 | a miss computes the compression |
| Compression.CompressionMetricsShape | mcp_server/performance_optimizer.py:394-412 | the metrics report the lengths, at most 15 phrases, 4 categories and the actual reduction; the digest is kept when it meets the target, and the output is never longer than the digest |
| Compression.CompactedShape | mcp_server/performance_optimizer.py:394-398 | the aggressive fallback runs only below the target and never lengthens the digest |
| Compression.HeaderUntouched | mcp_server/performance_optimizer.py:489-497 | the aggressive filter keeps the header line unchanged |
| Compression.FixedHead | mcp_server/performance_optimizer.py:489-497 | a line the filter keeps unchanged stays first |
| Compression.HeadedDigest | mcp_server/performance_optimizer.py:381-398 | a digest that starts with such a line still starts with it after the fallback |
| Compression.HeadedCompacted | mcp_server/performance_optimizer.py:392-398 | the final text starts with the header |
| Compression.StartsWithHeader | mcp_server/performance_optimizer.py:381-398 | every compression result starts with `Key Information:` (the structured dictionary is never empty) |
| Compression.ShortContextGrows | mcp_server/performance_optimizer.py:402 | a context shorter than the header gets a negative reduction ratio |
| Compression.EmptyContextRaises | mcp_server/performance_optimizer.py:395 | an empty context that misses the cache raises division by zero |
| Compression.CompressionIsCached | mcp_server/performance_optimizer.py:362-420 | a miss stores the result, and the same request within 30 minutes returns it again |
| Pipeline.PrepareShape | mcp_server/performance_optimizer.py:623-634 | the preparation stages touch neither the global cache nor the metrics; they raise only for an empty prompt; compression runs exactly when enabled and the context has more than 5000 characters, and otherwise the context is passed through |
| Pipeline.RecordsOneMetric | mcp_server/performance_optimizer.py:644-709 | every request records exactly one `optimize_request` metric, successful unless it fell back and a cache hit exactly when served |
| Pipeline.LookupNeverAdds | mcp_server/performance_optimizer.py:636-640 | the lookup never adds to or changes the global cache |
| Pipeline.NeverStoresResponses | mcp_server/performance_optimizer.py:608-722 | a request never adds to or changes the global cache; only `cache_response` stores |
| Pipeline.ServedExactly | mcp_server/performance_optimizer.py:636-694 | a request is served from cache if and only if the key's entry is live and non-empty; a served response is that entry with `cache_hit` recorded; otherwise the prepared request carries the key, the optimised prompt and the final context |
| Pipeline.EmptyPromptFallsBack | mcp_server/performance_optimizer.py:696-722 | an empty prompt that misses the optimizer cache returns the original request with no key and the division-by-zero error |
| Pipeline.StoreResponseShape | mcp_server/performance_optimizer.py:724-727 | an absent or empty key stores nothing; any other key maps to the response |
| Pipeline.StoredResponseServed | mcp_server/performance_optimizer.py:636-727 | a non-empty response cached under a prepared request's key is served when the same request comes back within the TTL |
| Pipeline.PrepareIgnoresGlobal | mcp_server/performance_optimizer.py:624-634 | preparation does not depend on the global cache |
| Pipeline.CleanupForgets | mcp_server/performance_optimizer.py:750-762 | cleanup empties the three caches, keeps counters and histories, and the next request is not served from cache |
| Pipeline.RequestCounted | mcp_server/performance_optimizer.py:729-748 | after a request the report's summary is non-empty, the metric count is at least one and the cache-object count is the global cache size |
| Pipeline.CursorAIOptimizer.constructor | mcp_server/performance_optimizer.py:600-606 | a new optimizer has empty caches, histories and metrics, with the source's tables and word lists |
| Pipeline.CursorAIOptimizer.OptimizeRequest | mcp_server/performance_optimizer.py:608-722 | the components' state and the result change as the request step says |
| Pipeline.CursorAIOptimizer.PrepareRequest | mcp_server/performance_optimizer.py:624-634 | prompt optimisation and then compression, as the preparation step says |
| Pipeline.CursorAIOptimizer.CompactContext | mcp_server/performance_optimizer.py:629-634 | compression of a long context when enabled; only the compressor cache changes |
| Pipeline.CursorAIOptimizer.LookupRequest | mcp_server/performance_optimizer.py:636-694 | the global-cache lookup and the metric, as the lookup step says |
| Pipeline.CursorAIOptimizer.CacheResponse | mcp_server/performance_optimizer.py:724-727 | only the global cache changes, as `StoreResponse` says |
| Pipeline.CursorAIOptimizer.GetPerformanceStats | mcp_server/performance_optimizer.py:729-748 | the report of the three caches' statistics, the one-hour summary and the memory counts |
| Pipeline.CursorAIOptimizer.CleanupResources | mcp_server/performance_optimizer.py:750-758 | the three caches are cleared and nothing else changes |
| Analysis.CollectItems | mcp_server/server.py:459-475 | the line loop collects the findings and recommendations that the scan specifies |
| Analysis.ScanAppend | mcp_server/server.py:463-475 | scanning one more line is one step of the section state machine |
| Analysis.ParseTextResult | mcp_server/server.py:457-488 | the method computes the text result |
| Analysis.HeaderBeatsBullet | mcp_server/server.py:468-471 | a line that mentions `finding` or `issue` is a findings header even when it is bulleted, and it only switches the section |
| Analysis.BulletedIssueIsHeader | mcp_server/server.py:468-471 | `- Fix the issue` is read as a header, not as an item |
| Analysis.ItemInside | mcp_server/server.py:472-475 | an item's text occurs in its line |
| Analysis.ItemsFromItems | mcp_server/server.py:472-475 | every collected finding or recommendation is the text of some item line |
| Analysis.ItemsFromLines | mcp_server/server.py:459-475 | every collected finding or recommendation occurs in some line of the response |
| Analysis.ScanExtends | mcp_server/server.py:463-475 | the lists only grow as lines are read |
| Analysis.NoHeaderNoItems | mcp_server/server.py:470-475 | without any header line nothing is collected |
| Analysis.ItemsPerLine | mcp_server/server.py:463-475 | at most one item is collected per line |
| Analysis.FinishShape | mcp_server/server.py:477-488 | findings and recommendations are never empty: an empty list is replaced by the first 200 characters plus `...` or by `See detailed analysis above`; severity `medium`, confidence 0.8 and the response length are fixed |
| Analysis.ParseDispatch | mcp_server/server.py:433-455 | a response that starts with `{` and decodes takes the JSON path; anything else, decode failures included, takes the text path |
| Analysis.JsonDefaults | mcp_server/server.py:438-447 | missing JSON keys default to `medium`, 0.8 and empty lists and map |
| FineTuning.PostInitShape | mcp_server/fine_tuning/fine_tune.py:37-44 | weights given are kept; missing weights become devops 0.3, sre 0.25, cloud 0.25, platform 0.2, which sum to 1; the hook is idempotent and changes nothing else |
| FineTuning.FirstMissing | mcp_server/fine_tuning/fine_tune.py:104-107 | it names the first required field missing from the entry, or none when all are present |
| FineTuning.CheckExactly | mcp_server/fine_tuning/fine_tune.py:100-135 | an entry is rejected if and only if it fails a check: missing field, non-string text, unknown domain, instruction under 10 or output under 50 characters |
| FineTuning.MissingFieldFirst | mcp_server/fine_tuning/fine_tune.py:102-107 | a missing-field rejection names the first missing field in the order instruction, input, output, domain |
| FineTuning.IntText | mcp_server/fine_tuning/fine_tune.py:106 | the decimal text of a line number is never empty |
| FineTuning.Digits | mcp_server/fine_tuning/fine_tune.py:106 | decimal digits only |
| FineTuning.ValidationErrors | mcp_server/fine_tuning/fine_tune.py:100-135 | validation adds at most one error, and none exactly when the entry is accepted |
| FineTuning.ValidationMessage | mcp_server/fine_tuning/fine_tune.py:104-133 | a rejected entry adds the `Line N: ...` message of its first failing check |
| FineTuning.ScaledIsProduct | mcp_server/fine_tuning/fine_tune.py:153 | the repeated sum is the product `len * weight` |
| FineTuning.ScaledFraction | mcp_server/fine_tuning/fine_tune.py:92 | a fraction of a length lies between 0 and the length |
| FineTuning.SliceEnd | mcp_server/fine_tuning/fine_tune.py:159-163 | Python slice bounds: an in-range end is kept and every end is clamped to the length |
| FineTuning.Repeat | mcp_server/fine_tuning/fine_tune.py:162 | list repetition has `m` times the length |
| FineTuning.RepeatMembers | mcp_server/fine_tuning/fine_tune.py:162 | a repeated list holds only elements of the original |
| FineTuning.RepeatPeriodic | mcp_server/fine_tuning/fine_tune.py:162-163 | a repeated list starts with the original and repeats with its period |
| FineTuning.CycleShape | mcp_server/fine_tuning/fine_tune.py:160-163 | a domain with too few examples contributes exactly the target size, cycling through its examples in order |
| FineTuning.SelectionShape | mcp_server/fine_tuning/fine_tune.py:155-163 | a domain contributes exactly `int(total * weight)` of its own examples in either branch |
| FineTuning.ContributionShape | mcp_server/fine_tuning/fine_tune.py:150-165 | an absent domain contributes nothing; a present one contributes the target size, all from the dataset and of that domain |
| FineTuning.BalancePermutes | mcp_server/fine_tuning/fine_tune.py:168-172 | the final shuffle only reorders the domains' contributions |
| FineTuning.SelectionsStep | mcp_server/fine_tuning/fine_tune.py:150-165 | each weight appends its domain's contribution |
| FineTuning.LoadedStep | mcp_server/fine_tuning/fine_tune.py:75-81 | each line adds an accepted entry, its validation error or its JSON error |
| FineTuning.LoadedAccepted | mcp_server/fine_tuning/fine_tune.py:73-81 | every loaded entry passed validation, and each line yields exactly one entry or one error |
| FineTuning.SplitShape | mcp_server/fine_tuning/fine_tune.py:91-94 | training and validation partition the balanced dataset, with `int(len * (1 - split))` training examples |
| FineTuning.ConvertRecovers | mcp_server/fine_tuning/fine_tune.py:193-202 | the prompt is the instruction, a blank line and the input; response and domain are the output and the domain |
| FineTuning.DatasetProcessor.constructor | mcp_server/fine_tuning/fine_tune.py:61-63 | a processor keeps the configuration's weights and split and has no errors |
| FineTuning.DatasetProcessor.ValidateEntry | mcp_server/fine_tuning/fine_tune.py:100-135 | the result is acceptance and the error list grows by that entry's messages |
| FineTuning.DatasetProcessor.BalanceByDomain | mcp_server/fine_tuning/fine_tune.py:137-172 | the method computes the balanced dataset |
| FineTuning.DatasetProcessor.GroupByDomain | mcp_server/fine_tuning/fine_tune.py:139-144 | the grouping loop maps exactly the domains present to their entries, in order |
| FineTuning.DatasetProcessor.LoadAndValidate | mcp_server/fine_tuning/fine_tune.py:68-98 | the errors grow by the loading errors, and the result is the split of the balanced accepted entries |
| FineTuning.DatasetProcessor.LoadEntries | mcp_server/fine_tuning/fine_tune.py:73-81 | the loading loop keeps exactly the accepted entries and appends one error per rejected line |
| Text.Lower | mcp_server/performance_optimizer.py:158 | lowercasing keeps the length |
| Text.LowerShape | mcp_server/performance_optimizer.py:158 | lowercased text has no upper-case letters, and text without them is unchanged |
| Text.UpperNeverInLower | mcp_server/performance_optimizer.py:158 | a pattern with an upper-case letter never occurs in lowercased text |
| Text.ReplaceAllNotLonger | mcp_server/performance_optimizer.py:491-493 | replacing a pattern with something no longer never lengthens the text |
| Text.JoinSplit | mcp_server/performance_optimizer.py:486-499 | joining the pieces of a split with the separator restores the text |
| Text.SplitJoin | mcp_server/performance_optimizer.py:486-499 | splitting a join of separator-free pieces restores the pieces |
| Text.StripShape | mcp_server/server.py:464 | the stripped line occurs in the line and has no surrounding whitespace |
| Text.CollapseWellSpaced | mcp_server/performance_optimizer.py:190 | `' '.join(s.split())` has single spaces and no surrounding whitespace |

## Left out

- Locks and thread safety (`threading.RLock` and `Lock`): each operation is modelled as atomic.
- `ResponseStreamer`, `ParallelProcessor`, the `performance_decorator` and the module-level singleton: these are outside the modelled core.
- `_check_alerts` logging: the alerts are returned instead of logged, and `gc.collect()` has no effect in the model.
- Floating point: all durations, weights and ratios are exact `real` numbers. Format strings such as `{duration:.2f}` are kept as data in the alert values, not rendered.
- `str.lower` is modelled on ASCII letters only.
- md5 is an uninterpreted function, so distinct texts may share a key. The properties never assume it is injective.
- Pipeline.StoredResponseServed: it assumes the prepared key is non-empty, which an md5 hex digest always is.
- Python `set` iteration order in `_extract_structured_info` is a parameter `arrange`; its properties assume it enumerates the set.
- `time.time()` is the parameter `now`, one reading per request, and measured durations are parameters.
- `enable_streaming` is unused by the source and is not a parameter.
- `_aggressive_compress` ignores its target, as in the source.
- Compression failing inside `optimize_request` is unreachable: a context longer than 5000 characters is never empty, so that branch is not modelled.
- `json.loads` is a decoder parameter. JSON `null` values and the exact exception texts are not modelled.
- In `parse_analysis_result`, a decoded document that is not an object, or a field of the wrong type, is not modelled.
- `uuid4()` and `datetime.now()` are the parameters `id` and `stamp`.
- The bullet marker `â€¢` in `parse_text_result` is kept as written: the three characters of a mis-decoded `•`.
- File I/O: opening the dataset, the missing-file error, `create_ollama_dataset` writing temporary files and the logging. `load_and_validate_dataset` receives the file's lines.
- FineTuning.DatasetProcessor.LoadAndValidate: a decoded JSON value that is not an object, or a `domain` value that is not hashable, would raise in the source; the decoder is assumed to return objects.
- `random.shuffle` is a function on sequences: the same list is always shuffled the same way. The balancing properties assume the function permutes.
- `ModelFineTuner` and `FineTuningOrchestrator` (running Ollama, model files, prerequisites) are outside the modelled core.
