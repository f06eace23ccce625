/** `CursorAIOptimizer` (performance_optimizer.py): the request pipeline that
    optimizes the prompt, compresses a long context, looks the prepared
    request up in a global response cache, and records one metric per
    request; plus storing a response, the statistics report and the cleanup
    of the caches.

    The state of the whole pipeline is the value `PipelineState`; each
    operation is a transition function on it (RequestStep, StoreResponse,
    CleanedUp), and the class's methods are proved to make exactly those
    transitions on the objects they own. Clock readings are the fields of a
    `Clock` argument: one reading `now` for the whole request, and the
    durations the source measures with `time.time()`. */
module Pipeline {
  import opened Wrappers
  import opened Caching
  import opened Prompting
  import opened Compression
  import Monitoring

  const GlobalCacheSize: int := 2000
  const GlobalCacheTtl: int := 7200
  /** A context is compressed when it is longer than this many characters. */
  const CompressionThreshold: nat := 5000
  /** The default `target_reduction` of `compress_context`. */
  const DefaultTarget: real := 0.3
  /** The default `time_window` of `get_performance_summary`, in seconds. */
  const StatsWindow: int := 3600
  const RequestOperation: string := "optimize_request"

  /** What the source reads from `time.time()` during one request. */
  datatype Clock = Clock(now: real, promptTime: real, compressionTime: real, total: real)

  /** The fixed parts of the pipeline: the optimizer's tables, the
      compressor's vocabulary and set order, and the two digests. */
  datatype Env = Env(
    tables: Tables,
    vocabulary: Vocabulary,
    arrange: set<string> -> seq<string>,
    md5: string -> string,
    compressionDigest: (string, real) -> string)

  /** Everything a request can change: the three caches and the two metric
      histories. */
  datatype PipelineState = PipelineState(
    promptCache: CacheState<PromptResult>,
    promptHistory: seq<Monitoring.Metric>,
    compressionCache: CacheState<Compressed>,
    globalCache: CacheState<string>,
    metrics: seq<Monitoring.Metric>)

  ghost predicate Coherent(st: PipelineState)
  {
    Consistent(st.promptCache) && Consistent(st.compressionCache) && Consistent(st.globalCache)
  }

  /** `optimized_request`. */
  datatype OptimizedRequest = OptimizedRequest(prompt: string, context: string, domain: string, cacheKey: Option<string>)

  /** `optimization_results` on the two successful paths. */
  datatype Report = Report(
    originalPromptLength: nat,
    originalContextLength: nat,
    applied: seq<string>,
    promptOptimization: PromptMetrics,
    contextCompression: Option<CompressionMetrics>,
    cacheHit: bool)

  /** The three dictionaries `optimize_request` can return. */
  datatype RequestOutcome =
    | Served(response: string, results: Report, processingTime: real)
    | Prepared(request: OptimizedRequest, results: Report, finalPromptLength: nat, finalContextLength: nat,
               optimizationTime: real)
    | Fallback(request: OptimizedRequest, error: string, processingTime: real)

  /** The prompt after optimization, the context after the optional
      compression, and the compression metrics when it ran. */
  datatype Staged = Staged(result: PromptResult, context: string, compression: Option<CompressionMetrics>)

  /** `enable_compression and len(context) > 5000`. */
  predicate Compresses(enable: bool, context: string)
  {
    enable && |context| > CompressionThreshold
  }

  /** The text whose digest is the global cache key. */
  function RequestKeyText(optimized: string, context: string, domain: string): string
  {
    optimized + ":" + context + ":" + domain
  }

  function Key(env: Env, s: Staged, domain: string): string
  {
    env.md5(RequestKeyText(s.result.optimizedPrompt, s.context, domain))
  }

  /** The metric `optimize_request` records. */
  function RequestMetric(c: Clock, hit: bool, error: Option<string>): Monitoring.Metric
  {
    Monitoring.Metric(RequestOperation, c.total, 0, 0.0, hit, c.now, error.None?, error)
  }

  /** Steps 1 and 2: optimize the prompt, then compress the context when
      enabled and long. Only the prompt step can raise: a context long
      enough to be compressed is not empty. */
  function Prepare(env: Env, st: PipelineState, prompt: string, context: string, domain: string,
                   enable: bool, c: Clock): (PipelineState, Outcome<Staged>)
    requires Usable(env.tables) && Coherent(st)
  {
    var (pc, ph, po) := OptimizeStep(env.tables, st.promptCache, st.promptHistory,
                                     env.md5(CacheKeyText(prompt, domain)), prompt, domain, c.now, c.promptTime);
    var st1 := st.(promptCache := pc, promptHistory := ph);
    if po.Raised? then (st1, Raised(po.message))
    else
      var (cc, text, compression) := Compacting(env, st.compressionCache, context, enable, c);
      (st1.(compressionCache := cc), Ok(Staged(po.value, text, compression)))
  }

  /** Step 2: the compression cache, the context to send and the
      compression metrics, when compression ran. */
  function Compacting(env: Env, cc: CacheState<Compressed>, context: string, enable: bool, c: Clock)
    : (CacheState<Compressed>, string, Option<CompressionMetrics>)
    requires Consistent(cc)
  {
    if Compresses(enable, context) then
      var (cc1, co) := CompressStep(env.vocabulary, env.arrange, cc, env.compressionDigest(context, DefaultTarget),
                                    context, DefaultTarget, c.now, c.compressionTime);
      (cc1, co.value.0, Some(co.value.1))
    else (cc, context, None)
  }

  /** The names `optimizations_applied` lists before the cache check. */
  function Applied(s: Staged): seq<string>
  {
    ["prompt_optimization"] + (if s.compression.Some? then ["context_compression"] else [])
  }

  /** Steps 3 and 4: the global cache check, and the hit or the prepared
      request, each with its metric. */
  function Lookup(env: Env, st: PipelineState, s: Staged, prompt: string, context: string, domain: string,
                  c: Clock): (PipelineState, RequestOutcome)
    requires Coherent(st)
  {
    var key := Key(env, s, domain);
    var (gc, cached) := AfterGet(st.globalCache, key, c.now, GlobalCacheTtl);
    var st1 := st.(globalCache := gc);
    if cached.Some? && cached.value != [] then
      (st1.(metrics := Monitoring.Appended(st.metrics, RequestMetric(c, true, None), Monitoring.MaxHistory)),
       Served(cached.value,
              Report(|prompt|, |context|, Applied(s) + ["cache_hit"], s.result.metrics, s.compression, true),
              c.total))
    else
      (st1.(metrics := Monitoring.Appended(st.metrics, RequestMetric(c, false, None), Monitoring.MaxHistory)),
       Prepared(OptimizedRequest(s.result.optimizedPrompt, s.context, domain, Some(key)),
                Report(|prompt|, |context|, Applied(s), s.result.metrics, s.compression, false),
                |s.result.optimizedPrompt|, |s.context|, c.total))
  }

  /** The `except` branch: an error metric and the original request. */
  function Failed(st: PipelineState, prompt: string, context: string, domain: string, message: string,
                  c: Clock): (PipelineState, RequestOutcome)
  {
    (st.(metrics := Monitoring.Appended(st.metrics, RequestMetric(c, false, Some(message)), Monitoring.MaxHistory)),
     Fallback(OptimizedRequest(prompt, context, domain, None), message, c.total))
  }

  /** One `optimize_request` call. */
  function RequestStep(env: Env, st: PipelineState, prompt: string, context: string, domain: string,
                       enable: bool, c: Clock): (PipelineState, RequestOutcome)
    requires Usable(env.tables) && Coherent(st)
  {
    var (st1, p) := Prepare(env, st, prompt, context, domain, enable, c);
    if p.Raised? then Failed(st1, prompt, context, domain, p.message, c)
    else Lookup(env, st1, p.value, prompt, context, domain, c)
  }

  /** `cache_response(cache_key, response)`: an empty or missing key stores
      nothing. */
  function StoreResponse(s: CacheState<string>, key: Option<string>, response: string, now: real): CacheState<string>
    requires Consistent(s)
  {
    if key.None? || key.value == [] then s
    else AfterPut(s, key.value, response, now, GlobalCacheSize).value
  }

  /** `cleanup_resources()`: the three caches are emptied. */
  function CleanedUp(st: PipelineState): PipelineState
  {
    st.(promptCache := AfterClear(st.promptCache), compressionCache := AfterClear(st.compressionCache),
        globalCache := AfterClear(st.globalCache))
  }

  /** `_get_memory_usage()`. */
  datatype MemoryUsage = MemoryUsage(cacheObjects: nat, optimizationHistory: nat, performanceMetrics: nat)

  /** `get_performance_stats()`. */
  datatype PerformanceStats = PerformanceStats(
    promptOptimizerCache: CacheStats,
    contextCompressorCache: CacheStats,
    globalCache: CacheStats,
    performanceSummary: Monitoring.PerformanceSummary,
    memoryUsage: MemoryUsage)

  function StatsReport(st: PipelineState, now: real): PerformanceStats
  {
    PerformanceStats(
      Stats(st.promptCache), Stats(st.compressionCache), Stats(st.globalCache),
      Monitoring.Summarize(Monitoring.Recent(st.metrics, now - StatsWindow as real), StatsWindow),
      MemoryUsage(|st.globalCache.cache|, |st.promptHistory|, |st.metrics|))
  }

  // ---------------------------------------------------------------------
  // Properties of a request

  /** The preparation leaves the global cache and the metrics alone; it
      fails only on an empty prompt, with ZeroDivisionError; and the context
      is compressed exactly when compression is enabled and the context is
      longer than the threshold, and otherwise passed through unchanged. */
  lemma PrepareShape(env: Env, st: PipelineState, prompt: string, context: string, domain: string,
                     enable: bool, c: Clock)
    requires Usable(env.tables) && Coherent(st)
    ensures var (st1, p) := Prepare(env, st, prompt, context, domain, enable, c);
      && Coherent(st1) && st1.globalCache == st.globalCache && st1.metrics == st.metrics
      && (p.Raised? ==> prompt == [] && p.message == DivisionByZero && st1.compressionCache == st.compressionCache)
      && (p.Ok? ==> (p.value.compression.Some? <==> Compresses(enable, context)))
      && (p.Ok? && !Compresses(enable, context) ==> p.value.context == context)
  {
  }

  /** Every request appends exactly one `optimize_request` metric: it
      succeeded unless the request fell back, it was a cache hit exactly when
      the response was served, and it carries the error of a fallback. */
  lemma RecordsOneMetric(env: Env, st: PipelineState, prompt: string, context: string, domain: string,
                         enable: bool, c: Clock)
    requires Usable(env.tables) && Coherent(st)
    ensures var (st1, r) := RequestStep(env, st, prompt, context, domain, enable, c);
      var m := RequestMetric(c, r.Served?, if r.Fallback? then Some(r.error) else None);
      && st1.metrics == Monitoring.Appended(st.metrics, m, Monitoring.MaxHistory)
      && m.operation == RequestOperation && (m.success <==> !r.Fallback?) && (m.cacheHit <==> r.Served?)
  {
    PrepareShape(env, st, prompt, context, domain, enable, c);
  }

  /** Every entry of `t` is an entry of `s`. */
  ghost predicate Within<V>(t: CacheState<V>, s: CacheState<V>)
  {
    t.cache.Keys <= s.cache.Keys && forall k :: k in t.cache ==> t.cache[k] == s.cache[k]
  }

  lemma LookupNeverAdds(env: Env, st: PipelineState, s: Staged, prompt: string, context: string, domain: string,
                        c: Clock)
    requires Coherent(st)
    ensures Within(Lookup(env, st, s, prompt, context, domain, c).0.globalCache, st.globalCache)
  {
    GetNeverAdds(st.globalCache, Key(env, s, domain), c.now, GlobalCacheTtl);
  }

  /** A request only reads the global cache: it never adds a response to it
      or changes one (an expired entry it meets is dropped). */
  lemma NeverStoresResponses(env: Env, st: PipelineState, prompt: string, context: string, domain: string,
                             enable: bool, c: Clock)
    requires Usable(env.tables) && Coherent(st)
    ensures Within(RequestStep(env, st, prompt, context, domain, enable, c).0.globalCache, st.globalCache)
  {
    var (st1, p) := Prepare(env, st, prompt, context, domain, enable, c);
    PrepareShape(env, st, prompt, context, domain, enable, c);
    if p.Ok? {
      LookupNeverAdds(env, st1, p.value, prompt, context, domain, c);
    }
  }

  /** A prepared request is served from the global cache exactly when a
      live, non-empty response is stored under its key; otherwise the
      request comes back prepared, carrying that key for `cache_response`. */
  lemma ServedExactly(env: Env, st: PipelineState, prompt: string, context: string, domain: string,
                      enable: bool, c: Clock)
    requires Usable(env.tables) && Coherent(st)
    requires Prepare(env, st, prompt, context, domain, enable, c).1.Ok?
    ensures var s := Prepare(env, st, prompt, context, domain, enable, c).1.value;
      var key := Key(env, s, domain);
      var r := RequestStep(env, st, prompt, context, domain, enable, c).1;
      && (r.Served? <==> Live(st.globalCache, key, c.now, GlobalCacheTtl) && st.globalCache.cache[key] != [])
      && (r.Served? ==> r.response == st.globalCache.cache[key] && r.results.cacheHit
                        && r.results.applied == Applied(s) + ["cache_hit"])
      && (r.Prepared? ==> r.request.cacheKey == Some(key) && r.request.prompt == s.result.optimizedPrompt
                          && r.request.context == s.context && !r.results.cacheHit)
  {
    PrepareShape(env, st, prompt, context, domain, enable, c);
  }

  /** An empty prompt that is not cached falls back to the original request
      with the ZeroDivisionError message. */
  lemma EmptyPromptFallsBack(env: Env, st: PipelineState, context: string, domain: string, enable: bool, c: Clock)
    requires Usable(env.tables) && Coherent(st)
    requires !Live(st.promptCache, env.md5(CacheKeyText([], domain)), c.now, OptimizationCacheTtl)
    ensures RequestStep(env, st, [], context, domain, enable, c).1
            == Fallback(OptimizedRequest([], context, domain, None), DivisionByZero, c.total)
  {
  }

  /** `cache_response` stores a response under a non-empty key and ignores a
      missing or empty one. */
  lemma StoreResponseShape(s: CacheState<string>, key: Option<string>, response: string, now: real)
    requires Consistent(s)
    ensures var t := StoreResponse(s, key, response, now);
      && Consistent(t)
      && (key.None? || key.value == [] ==> t == s)
      && (key.Some? && key.value != [] ==> key.value in t.cache && t.cache[key.value] == response
                                           && t.timestamps[key.value] == now)
  {
    if key.Some? && key.value != [] {
      PutStores(s, key.value, response, now, GlobalCacheSize);
    }
  }

  /** The round trip of the global cache: a non-empty response stored with
      `cache_response` under the key a prepared request carries is served
      to the same request while it is younger than the TTL. */
  lemma StoredResponseServed(env: Env, st: PipelineState, prompt: string, context: string, domain: string,
                             enable: bool, c: Clock, response: string, stored: real)
    requires Usable(env.tables) && Coherent(st)
    requires RequestStep(env, st, prompt, context, domain, enable, c).1.Prepared?
    // An md5 hex digest is never empty.
    requires RequestStep(env, st, prompt, context, domain, enable, c).1.request.cacheKey != Some([])
    requires response != [] && c.now - stored < GlobalCacheTtl as real
    ensures var key := RequestStep(env, st, prompt, context, domain, enable, c).1.request.cacheKey;
      var st2 := st.(globalCache := StoreResponse(st.globalCache, key, response, stored));
      var r := RequestStep(env, st2, prompt, context, domain, enable, c).1;
      r.Served? && r.response == response
  {
    var p := Prepare(env, st, prompt, context, domain, enable, c).1;
    PrepareShape(env, st, prompt, context, domain, enable, c);
    ServedExactly(env, st, prompt, context, domain, enable, c);
    var key := Key(env, p.value, domain);
    var g := StoreResponse(st.globalCache, Some(key), response, stored);
    var st2 := st.(globalCache := g);
    PrepareIgnoresGlobal(env, st, g, prompt, context, domain, enable, c);
    StoreResponseShape(st.globalCache, Some(key), response, stored);
    ServedExactly(env, st2, prompt, context, domain, enable, c);
  }

  /** The preparation neither reads nor writes the global cache. */
  lemma PrepareIgnoresGlobal(env: Env, st: PipelineState, g: CacheState<string>, prompt: string, context: string,
                             domain: string, enable: bool, c: Clock)
    requires Usable(env.tables) && Coherent(st) && Consistent(g)
    ensures var (st1, p) := Prepare(env, st, prompt, context, domain, enable, c);
      Prepare(env, st.(globalCache := g), prompt, context, domain, enable, c) == (st1.(globalCache := g), p)
  {
  }

  /** After `cleanup_resources` the caches are empty, their counters are
      kept, the histories are untouched, and no request is served from the
      global cache until a response is stored again. */
  lemma CleanupForgets(env: Env, st: PipelineState, prompt: string, context: string, domain: string,
                       enable: bool, c: Clock)
    requires Usable(env.tables) && Coherent(st)
    ensures var t := CleanedUp(st);
      && Coherent(t) && t.promptCache.cache == map[] && t.compressionCache.cache == map[] && t.globalCache.cache == map[]
      && t.promptCache.counters == st.promptCache.counters && t.globalCache.counters == st.globalCache.counters
      && t.compressionCache.counters == st.compressionCache.counters
      && t.promptHistory == st.promptHistory && t.metrics == st.metrics
      && !RequestStep(env, t, prompt, context, domain, enable, c).1.Served?
  {
    var t := CleanedUp(st);
    PrepareShape(env, t, prompt, context, domain, enable, c);
    if Prepare(env, t, prompt, context, domain, enable, c).1.Ok? {
      ServedExactly(env, t, prompt, context, domain, enable, c);
    }
  }

  /** A request is counted by the statistics read at the time it was made. */
  lemma RequestCounted(env: Env, st: PipelineState, prompt: string, context: string, domain: string,
                       enable: bool, c: Clock)
    requires Usable(env.tables) && Coherent(st)
    ensures var st1 := RequestStep(env, st, prompt, context, domain, enable, c).0;
      var report := StatsReport(st1, c.now);
      && report.performanceSummary.Summary? && report.performanceSummary.totalRequests >= 1
      && report.memoryUsage.performanceMetrics >= 1
      && report.memoryUsage.cacheObjects == report.globalCache.cacheSize
  {
    var (st1, r) := RequestStep(env, st, prompt, context, domain, enable, c);
    RecordsOneMetric(env, st, prompt, context, domain, enable, c);
    var m := RequestMetric(c, r.Served?, if r.Fallback? then Some(r.error) else None);
    var h := st1.metrics;
    assert h[|h| - 1] == m;
    assert m in Monitoring.Recent(h, c.now - StatsWindow as real);
  }

  // ---------------------------------------------------------------------
  // The pipeline object

  class CursorAIOptimizer {
    const promptOptimizer: PromptOptimizer
    const compressor: ContextCompressor
    const monitor: Monitoring.PerformanceMonitor
    const globalCache: LRUCache<string>

    function Environment(): Env
    {
      Env(promptOptimizer.patterns, compressor.vocabulary, compressor.arrange, promptOptimizer.digest,
          compressor.digest)
    }

    function State(): PipelineState
      reads promptOptimizer, promptOptimizer.cache, compressor.cache, globalCache, monitor
    {
      PipelineState(promptOptimizer.cache.State(), promptOptimizer.history, compressor.cache.State(),
                    globalCache.State(), monitor.history)
    }

    ghost predicate Valid()
      reads promptOptimizer, promptOptimizer.cache, compressor, compressor.cache, globalCache, monitor
    {
      promptOptimizer.Valid() && compressor.Valid() && monitor.Valid() && globalCache.Valid()
      && globalCache.maxsize == GlobalCacheSize && globalCache.ttl == GlobalCacheTtl
      && promptOptimizer.cache as object != globalCache as object
      && compressor.cache as object != globalCache as object
      && promptOptimizer.cache as object != compressor.cache as object
    }

    constructor(md5: string -> string, compressionDigest: (string, real) -> string,
                arrange: set<string> -> seq<string>)
      ensures Valid() && State() == PipelineState(Empty(), [], Empty(), Empty(), [])
      ensures Environment() == Env(DefaultTables, DefaultVocabulary(), arrange, md5, compressionDigest)
      ensures fresh(promptOptimizer) && fresh(promptOptimizer.cache) && fresh(compressor.cache)
      ensures fresh(globalCache) && fresh(monitor)
    {
      promptOptimizer := new PromptOptimizer(md5);
      compressor := new ContextCompressor(compressionDigest, arrange);
      monitor := new Monitoring.PerformanceMonitor();
      globalCache := new LRUCache(GlobalCacheSize, GlobalCacheTtl);
    }

    method OptimizeRequest(prompt: string, context: string, domain: string, enableCompression: bool, clock: Clock)
      returns (r: RequestOutcome)
      requires Valid()
      modifies promptOptimizer, promptOptimizer.cache, compressor.cache, globalCache, monitor
      ensures Valid()
      ensures (State(), r) == RequestStep(Environment(), old(State()), prompt, context, domain, enableCompression, clock)
    {
      ghost var st0 := State();
      var staged := PrepareRequest(prompt, context, domain, enableCompression, clock);
      ghost var prepared := Prepare(Environment(), st0, prompt, context, domain, enableCompression, clock);
      assert prepared == (State(), staged);
      if staged.Raised? {
        r := Fallback(OptimizedRequest(prompt, context, domain, None), staged.message, clock.total);
        var _ := monitor.RecordMetric(RequestMetric(clock, false, Some(staged.message)));
        return;
      }
      r := LookupRequest(staged.value, prompt, context, domain, clock);
    }

    /** Steps 1 and 2 of `optimize_request`. */
    method PrepareRequest(prompt: string, context: string, domain: string, enableCompression: bool, clock: Clock)
      returns (r: Outcome<Staged>)
      requires Valid()
      modifies promptOptimizer, promptOptimizer.cache, compressor.cache
      ensures Valid()
      ensures (State(), r) == Prepare(Environment(), old(State()), prompt, context, domain, enableCompression, clock)
    {
      ghost var st0 := State();
      ghost var env := Environment();
      var optimized := promptOptimizer.OptimizePrompt(prompt, domain, clock.now, clock.promptTime);
      ghost var step := OptimizeStep(env.tables, st0.promptCache, st0.promptHistory,
                                     env.md5(CacheKeyText(prompt, domain)), prompt, domain, clock.now, clock.promptTime);
      ghost var st1 := st0.(promptCache := step.0, promptHistory := step.1);
      assert State() == st1 && optimized == step.2;
      if optimized.Raised? {
        return Raised(optimized.message);
      }
      var text, compression := CompactContext(context, enableCompression, clock);
      r := Ok(Staged(optimized.value, text, compression));
    }

    /** Step 2 of `optimize_request`. */
    method CompactContext(context: string, enableCompression: bool, clock: Clock)
      returns (text: string, compression: Option<CompressionMetrics>)
      requires Valid()
      modifies compressor.cache
      ensures Valid()
      ensures State() == old(State()).(compressionCache := compressor.cache.State())
      ensures (compressor.cache.State(), text, compression)
              == Compacting(Environment(), old(compressor.cache.State()), context, enableCompression, clock)
    {
      if enableCompression && |context| > CompressionThreshold {
        // A context this long is never empty, so compression cannot raise.
        var compressed := compressor.CompressContext(context, DefaultTarget, clock.now, clock.compressionTime);
        text, compression := compressed.value.0, Some(compressed.value.1);
      } else {
        text, compression := context, None;
      }
    }

    /** Steps 3 and 4 of `optimize_request`. */
    method LookupRequest(s: Staged, prompt: string, context: string, domain: string, clock: Clock)
      returns (r: RequestOutcome)
      requires Valid()
      modifies globalCache, monitor
      ensures Valid()
      ensures (State(), r) == Lookup(Environment(), old(State()), s, prompt, context, domain, clock)
    {
      var key := promptOptimizer.digest(RequestKeyText(s.result.optimizedPrompt, s.context, domain));
      ghost var st0 := State();
      var cached := globalCache.Get(key, clock.now);
      ghost var st1 := st0.(globalCache := globalCache.State());
      assert (globalCache.State(), cached) == AfterGet(st0.globalCache, key, clock.now, GlobalCacheTtl);
      assert State() == st1;
      var applied := ["prompt_optimization"];
      if s.compression.Some? {
        applied := applied + ["context_compression"];
      }
      assert applied == Applied(s);
      if cached.Some? && cached.value != [] {
        applied := applied + ["cache_hit"];
        var _ := monitor.RecordMetric(RequestMetric(clock, true, None));
        assert State() == st1.(metrics := monitor.history);
        return Served(cached.value,
                      Report(|prompt|, |context|, applied, s.result.metrics, s.compression, true),
                      clock.total);
      }
      var _ := monitor.RecordMetric(RequestMetric(clock, false, None));
      r := Prepared(OptimizedRequest(s.result.optimizedPrompt, s.context, domain, Some(key)),
                    Report(|prompt|, |context|, applied, s.result.metrics, s.compression, false),
                    |s.result.optimizedPrompt|, |s.context|, clock.total);
    }

    method CacheResponse(key: Option<string>, response: string, now: real)
      requires Valid()
      modifies globalCache
      ensures Valid()
      ensures State() == old(State()).(globalCache := StoreResponse(old(globalCache.State()), key, response, now))
    {
      if key.Some? && key.value != [] {
        var _ := globalCache.Put(key.value, response, now);
      }
    }

    method GetPerformanceStats(now: real) returns (r: PerformanceStats)
      requires Valid()
      ensures r == StatsReport(State(), now)
    {
      var summary := monitor.GetPerformanceSummary(now, StatsWindow);
      r := PerformanceStats(promptOptimizer.cache.GetStats(), compressor.cache.GetStats(), globalCache.GetStats(),
                            summary,
                            MemoryUsage(|globalCache.cache|, |promptOptimizer.history|, |monitor.history|));
    }

    method CleanupResources()
      requires Valid()
      modifies promptOptimizer.cache, compressor.cache, globalCache
      ensures Valid()
      ensures State() == CleanedUp(old(State()))
    {
      globalCache.Clear();
      promptOptimizer.cache.Clear();
      compressor.cache.Clear();
    }
  }
}
