/** `ContextCompressor` (performance_optimizer.py): shrinks a long context
    to a digest of key information (service names, metric lines, error
    lines, recommendations) and key sentences, compresses it further when
    the digest misses the target reduction, and caches the outcome.

    Each extraction loop of the source is a method proved equal to a list
    comprehension (`Filter`, `Map`, `Concat`) over what it has read; the
    lemmas about those comprehensions say what the extracted lists hold. */
module Compression {
  import opened Wrappers
  import opened Text
  import opened Sequences
  import opened Caching
  import opened Measures

  /** The word lists the compressor looks for. */
  datatype Vocabulary = Vocabulary(
    indicators: seq<string>,
    metricWords: seq<string>,
    errorWords: seq<string>)

  /** `important_indicators` of `_extract_key_phrases` and the metric and
      error words of `_extract_structured_info`. */
  function DefaultVocabulary(): Vocabulary
  {
    Vocabulary(
      ["error", "critical", "high", "urgent", "failed", "down",
       "performance", "latency", "throughput", "availability",
       "security", "vulnerability", "breach", "compliance",
       "cost", "optimization", "scaling", "capacity"],
      ["cpu", "memory", "disk", "network", "latency"],
      ["error", "failed", "exception", "timeout"])
  }

  /** `any(word in text.lower() for word in words)`. */
  predicate MentionsAny(text: string, words: seq<string>)
  {
    exists k :: 0 <= k < |words| && Mentions(text, words[k])
  }

  // ---------------------------------------------------------------------
  // _extract_key_phrases

  const MaxKeyPhrases: nat := 15
  const MaxPhraseLength: nat := 200

  /** Whether `_extract_key_phrases` keeps a stripped sentence. */
  predicate KeyPhrase(v: Vocabulary, sentence: string)
  {
    MentionsAny(sentence, v.indicators) && |sentence| < MaxPhraseLength
  }

  function IsKeyPhrase(v: Vocabulary): string -> bool
  {
    sentence => KeyPhrase(v, sentence)
  }

  /** The stripped sentences kept from `sentences`, in order. */
  function Phrases(v: Vocabulary, sentences: seq<string>): seq<string>
  {
    Filter(Map(sentences, Strip), IsKeyPhrase(v))
  }

  /** What `_extract_key_phrases(text)` returns. */
  function KeyPhrases(v: Vocabulary, text: string): seq<string>
  {
    Take(Phrases(v, Split(text, '.')), MaxKeyPhrases)
  }

  method ExtractKeyPhrases(v: Vocabulary, text: string) returns (phrases: seq<string>)
    ensures phrases == KeyPhrases(v, text)
  {
    var kept := KeepPhrases(v, Split(text, '.'));
    phrases := Take(kept, MaxKeyPhrases);
  }

  /** The loop of `_extract_key_phrases` over the sentences. */
  method KeepPhrases(v: Vocabulary, sentences: seq<string>) returns (kept: seq<string>)
    ensures kept == Phrases(v, sentences)
  {
    kept := [];
    for i := 0 to |sentences|
      invariant kept == Phrases(v, sentences[..i])
    {
      FilterMapStep(sentences, i, Strip, IsKeyPhrase(v));
      var sentence := Strip(sentences[i]);
      if MentionsAny(sentence, v.indicators) {
        if |sentence| < MaxPhraseLength {
          kept := kept + [sentence];
        }
      }
    }
    assert sentences[..|sentences|] == sentences;
  }

  /** A phrase is kept exactly when it is a stripped sentence that mentions
      an indicator and is shorter than 200 characters. */
  lemma PhrasesExactly(v: Vocabulary, sentences: seq<string>, x: string)
    ensures x in Phrases(v, sentences)
            <==> KeyPhrase(v, x) && exists k :: 0 <= k < |sentences| && x == Strip(sentences[k])
  {
    FilterExactly(Map(sentences, Strip), IsKeyPhrase(v), x);
    MapMember(sentences, Strip, x);
  }

  /** At most 15 phrases, each a qualifying sentence; when no more than 15
      sentences qualify, every one of them is returned. */
  lemma PhrasesShape(v: Vocabulary, sentences: seq<string>)
    ensures |Take(Phrases(v, sentences), MaxKeyPhrases)| <= MaxKeyPhrases
    ensures forall x :: x in Take(Phrases(v, sentences), MaxKeyPhrases) ==>
              KeyPhrase(v, x) && exists k :: 0 <= k < |sentences| && x == Strip(sentences[k])
    ensures |Phrases(v, sentences)| <= MaxKeyPhrases ==>
              forall k :: 0 <= k < |sentences| && KeyPhrase(v, Strip(sentences[k])) ==>
                Strip(sentences[k]) in Take(Phrases(v, sentences), MaxKeyPhrases)
  {
    forall x | x in Take(Phrases(v, sentences), MaxKeyPhrases)
      ensures KeyPhrase(v, x) && exists k :: 0 <= k < |sentences| && x == Strip(sentences[k])
    {
      PhrasesExactly(v, sentences, x);
    }
    if |Phrases(v, sentences)| <= MaxKeyPhrases {
      forall k | 0 <= k < |sentences| && KeyPhrase(v, Strip(sentences[k]))
        ensures Strip(sentences[k]) in Take(Phrases(v, sentences), MaxKeyPhrases)
      {
        PhrasesExactly(v, sentences, Strip(sentences[k]));
      }
    }
  }

  // ---------------------------------------------------------------------
  // _extract_structured_info

  /** The four lists of `_extract_structured_info`, in the order of the
      dictionary's keys. */
  datatype Findings = Findings(
    services: seq<string>,
    metrics: seq<string>,
    errors: seq<string>,
    recommendations: seq<string>)

  const MaxPerCategory: nat := 5

  predicate Filled(line: string)
  {
    line != []
  }

  /** The stripped, non-empty ones among `pieces`. */
  function NonBlank(pieces: seq<string>): seq<string>
  {
    Filter(Map(pieces, Strip), Filled)
  }

  /** The stripped, non-empty lines of `text`: those the loop looks at. */
  function Lines(text: string): seq<string>
  {
    NonBlank(Split(text, '\n'))
  }

  /** A word taken for a service name. */
  predicate ServiceName(word: string)
  {
    Mentions(word, "service") && |word| > 7
  }

  /** The service names a line contributes. */
  function LineServices(line: string): seq<string>
  {
    if Mentions(line, "service") then Filter(Words(line), ServiceName) else []
  }

  function IsMetricLine(v: Vocabulary): string -> bool
  {
    line => MentionsAny(line, v.metricWords)
  }

  function IsErrorLine(v: Vocabulary): string -> bool
  {
    line => MentionsAny(line, v.errorWords)
  }

  predicate IsRecommendation(line: string)
  {
    StartsWith(line, "-") || StartsWith(line, "*") || Mentions(line, "recommend")
  }

  /** The four lists after reading `lines`, before deduplication. */
  function Gathered(v: Vocabulary, lines: seq<string>): Findings
  {
    Findings(Concat(Map(lines, LineServices)), Filter(lines, IsMetricLine(v)),
             Filter(lines, IsErrorLine(v)), Filter(lines, IsRecommendation))
  }

  /** `l` lists the elements of `s`, each once. */
  ghost predicate Enumerates(l: seq<string>, s: set<string>)
  {
    |l| == |s| && (forall x :: x in l ==> x in s) && (forall x :: x in s ==> x in l)
    && forall i, j :: 0 <= i < j < |l| ==> l[i] != l[j]
  }

  /** `arrange(s)` is `list(s)`: CPython's set iteration order, which
      depends on string hashes, so the model only knows it lists `s`. */
  ghost predicate Arranges(arrange: set<string> -> seq<string>)
  {
    forall s :: Enumerates(arrange(s), s)
  }

  /** `list(set(xs))[:5]`. */
  function Deduplicated(arrange: set<string> -> seq<string>, xs: seq<string>): seq<string>
  {
    Take(arrange(set x | x in xs), MaxPerCategory)
  }

  /** What `_extract_structured_info(text)` returns. */
  function StructuredInfo(v: Vocabulary, arrange: set<string> -> seq<string>, text: string): Findings
  {
    var f := Gathered(v, Lines(text));
    Findings(Deduplicated(arrange, f.services), Deduplicated(arrange, f.metrics),
             Deduplicated(arrange, f.errors), Deduplicated(arrange, f.recommendations))
  }

  /** The lists after one more stripped, non-empty line. */
  lemma GatheredAppend(v: Vocabulary, seen: seq<string>, line: string)
    ensures Gathered(v, seen + [line]) == Findings(
      Gathered(v, seen).services + LineServices(line),
      Gathered(v, seen).metrics + (if MentionsAny(line, v.metricWords) then [line] else []),
      Gathered(v, seen).errors + (if MentionsAny(line, v.errorWords) then [line] else []),
      Gathered(v, seen).recommendations + (if IsRecommendation(line) then [line] else []))
  {
    MapAppend(seen, line, LineServices);
    ConcatAppend(Map(seen, LineServices), LineServices(line));
    FilterAppend(seen, line, IsMetricLine(v));
    FilterAppend(seen, line, IsErrorLine(v));
    FilterAppend(seen, line, IsRecommendation);
  }

  /** The service names of one line, read word by word. */
  method CollectServices(line: string, services: seq<string>) returns (r: seq<string>)
    ensures r == services + LineServices(line)
  {
    r := services;
    if Mentions(line, "service") {
      var words := Words(line);
      for j := 0 to |words|
        invariant r == services + Filter(words[..j], ServiceName)
      {
        assert words[..j + 1] == words[..j] + [words[j]];
        FilterAppend(words[..j], words[j], ServiceName);
        var word := words[j];
        if Mentions(word, "service") && |word| > 7 {
          r := r + [word];
        }
      }
      assert words[..|words|] == words;
    } else {
      assert r == services + [];
    }
  }

  /** The loop of `_extract_structured_info` over the lines `pieces`. */
  method GatherLines(v: Vocabulary, pieces: seq<string>) returns (f: Findings)
    ensures f == Gathered(v, NonBlank(pieces))
  {
    var services, metrics, errors, recommendations := [], [], [], [];
    for i := 0 to |pieces|
      invariant Findings(services, metrics, errors, recommendations) == Gathered(v, NonBlank(pieces[..i]))
    {
      FilterMapStep(pieces, i, Strip, Filled);
      var line := Strip(pieces[i]);
      if line == [] {
        assert NonBlank(pieces[..i + 1]) == NonBlank(pieces[..i]);
        continue;
      }
      assert NonBlank(pieces[..i + 1]) == NonBlank(pieces[..i]) + [line];
      ghost var before := Gathered(v, NonBlank(pieces[..i]));
      GatheredAppend(v, NonBlank(pieces[..i]), line);
      services := CollectServices(line, services);
      if MentionsAny(line, v.metricWords) {
        metrics := metrics + [line];
      }
      if MentionsAny(line, v.errorWords) {
        errors := errors + [line];
      }
      if IsRecommendation(line) {
        recommendations := recommendations + [line];
      }
      assert services == before.services + LineServices(line);
      assert metrics == before.metrics + (if MentionsAny(line, v.metricWords) then [line] else []);
      assert errors == before.errors + (if MentionsAny(line, v.errorWords) then [line] else []);
      assert recommendations == before.recommendations + (if IsRecommendation(line) then [line] else []);
    }
    assert pieces[..|pieces|] == pieces;
    f := Findings(services, metrics, errors, recommendations);
  }

  method ExtractStructuredInfo(v: Vocabulary, arrange: set<string> -> seq<string>, text: string)
    returns (info: Findings)
    ensures info == StructuredInfo(v, arrange, text)
  {
    var f := GatherLines(v, Split(text, '\n'));
    // the loop over the dictionary's four keys
    var services := Take(arrange(set x | x in f.services), MaxPerCategory);
    var metrics := Take(arrange(set x | x in f.metrics), MaxPerCategory);
    var errors := Take(arrange(set x | x in f.errors), MaxPerCategory);
    var recommendations := Take(arrange(set x | x in f.recommendations), MaxPerCategory);
    info := Findings(services, metrics, errors, recommendations);
  }

  /** The non-blank pieces are exactly the stripped pieces that are not
      empty. */
  lemma NonBlankExactly(pieces: seq<string>, x: string)
    ensures x in NonBlank(pieces) <==> x != [] && exists k :: 0 <= k < |pieces| && x == Strip(pieces[k])
  {
    FilterExactly(Map(pieces, Strip), Filled, x);
    MapMember(pieces, Strip, x);
  }

  /** Before deduplication: the metric lines are exactly the lines that
      mention a metric word, the error lines those that mention an error
      word, the recommendations those that start with '-' or '*' or mention
      "recommend", and the service names exactly the words longer than
      seven characters that mention "service". */
  lemma GatheredExactly(v: Vocabulary, lines: seq<string>, x: string)
    ensures x in Gathered(v, lines).metrics <==> x in lines && MentionsAny(x, v.metricWords)
    ensures x in Gathered(v, lines).errors <==> x in lines && MentionsAny(x, v.errorWords)
    ensures x in Gathered(v, lines).recommendations <==> x in lines && IsRecommendation(x)
    ensures x in Gathered(v, lines).services
            <==> ServiceName(x) && exists k :: 0 <= k < |lines| && x in Words(lines[k])
  {
    FilterExactly(lines, IsMetricLine(v), x);
    FilterExactly(lines, IsErrorLine(v), x);
    FilterExactly(lines, IsRecommendation, x);
    var perLine := Map(lines, LineServices);
    ConcatMember(perLine, x);
    forall k | 0 <= k < |lines|
      ensures x in perLine[k] <==> ServiceName(x) && x in Words(lines[k])
    {
      MapIndex(lines, LineServices, k);
      FilterExactly(Words(lines[k]), ServiceName, x);
      if ServiceName(x) && x in Words(lines[k]) {
        WordsInside(lines[k], x);
        MentionsInside(lines[k], x, "service");
      }
    }
  }

  /** `list(set(xs))[:5]` holds distinct elements of `xs`, at most five,
      and all of them when `xs` has at most five distinct elements. */
  lemma DeduplicatedShape(arrange: set<string> -> seq<string>, xs: seq<string>)
    requires Arranges(arrange)
    ensures var r := Deduplicated(arrange, xs);
      && |r| <= MaxPerCategory
      && (forall i, j :: 0 <= i < j < |r| ==> r[i] != r[j])
      && (forall x :: x in r ==> x in xs)
      && (|set x | x in xs| <= MaxPerCategory ==> forall x :: x in xs ==> x in r)
  {
    var s := set x | x in xs;
    var l := arrange(s);
    assert Enumerates(l, s);
    forall x | x in Deduplicated(arrange, xs) ensures x in xs {
      assert x in l;
      assert x in s;
    }
    if |s| <= MaxPerCategory {
      assert Deduplicated(arrange, xs) == l;
      forall x | x in xs ensures x in l {
        assert x in s;
      }
    }
  }

  // ---------------------------------------------------------------------
  // compress_context: building the digest

  const Header: string := "Key Information:"
  const DetailsHeader: string := "\nImportant Details:"
  const MaxListed: nat := 3
  const MaxDetails: nat := 10

  /** `structured_info.items()`: the dictionary always holds its four keys,
      so `if structured_info:` always holds and the heading is always
      written. */
  function Entries(f: Findings): seq<(string, seq<string>)>
  {
    [("services", f.services), ("metrics", f.metrics), ("errors", f.errors),
     ("recommendations", f.recommendations)]
  }

  predicate HasItems(entry: (string, seq<string>))
  {
    entry.1 != []
  }

  /** `f"- {category}: {', '.join(items[:3])}"`. */
  function EntryLine(entry: (string, seq<string>)): string
  {
    "- " + entry.0 + ": " + Join(Take(entry.1, MaxListed), ", ")
  }

  function Bullet(phrase: string): string
  {
    "- " + phrase
  }

  function DetailLines(phrases: seq<string>): seq<string>
  {
    if phrases == [] then [] else [DetailsHeader] + Map(Take(phrases, MaxDetails), Bullet)
  }

  /** `compressed_parts` before the join. */
  function Parts(info: Findings, phrases: seq<string>): seq<string>
  {
    [Header] + Map(Filter(Entries(info), HasItems), EntryLine) + DetailLines(phrases)
  }

  /** The loop over `structured_info.items()`. */
  method ListEntries(entries: seq<(string, seq<string>)>) returns (lines: seq<string>)
    ensures lines == Map(Filter(entries, HasItems), EntryLine)
  {
    lines := [];
    for i := 0 to |entries|
      invariant lines == Map(Filter(entries[..i], HasItems), EntryLine)
    {
      assert entries[..i + 1] == entries[..i] + [entries[i]];
      FilterAppend(entries[..i], entries[i], HasItems);
      MapAppend(Filter(entries[..i], HasItems), entries[i], EntryLine);
      var (category, items) := entries[i];
      if items != [] {
        assert HasItems(entries[i]);
        lines := lines + ["- " + category + ": " + Join(Take(items, MaxListed), ", ")];
        assert lines == Map(Filter(entries[..i], HasItems), EntryLine) + [EntryLine(entries[i])];
        assert Filter(entries[..i + 1], HasItems) == Filter(entries[..i], HasItems) + [entries[i]];
        assert lines == Map(Filter(entries[..i + 1], HasItems), EntryLine);
      } else {
        assert !HasItems(entries[i]);
        assert Filter(entries[..i + 1], HasItems) == Filter(entries[..i], HasItems);
      }
    }
    assert entries[..|entries|] == entries;
  }

  method Assemble(info: Findings, phrases: seq<string>) returns (compressed: string)
    ensures compressed == Join(Parts(info, phrases), "\n")
  {
    var listed := ListEntries(Entries(info));
    var parts := [Header] + listed;
    if phrases != [] {
      parts := parts + [DetailsHeader];
      parts := parts + Map(Take(phrases, MaxDetails), Bullet);
      assert parts == [Header] + listed + ([DetailsHeader] + Map(Take(phrases, MaxDetails), Bullet));
    } else {
      assert parts == [Header] + listed + [];
    }
    compressed := Join(parts, "\n");
  }

  /** A category line lists the first three items at most. */
  lemma EntryLineShape(entry: (string, seq<string>))
    ensures var n := if |entry.1| < MaxListed then |entry.1| else MaxListed;
      n <= 3 && EntryLine(entry) == "- " + entry.0 + ": " + Join(entry.1[..n], ", ")
  {
  }

  /** The digest: the header, one line per non-empty category (at most
      four), then, when there are phrases, the details header and a bullet
      for each of the first ten phrases. */
  lemma DigestLayout(info: Findings, phrases: seq<string>)
    ensures Parts(info, phrases)[0] == Header
    ensures |Parts(info, phrases)| <= 1 + 4 + 1 + MaxDetails
    ensures phrases == [] <==> DetailLines(phrases) == []
    ensures |DetailLines(phrases)| == if phrases == [] then 0 else 1 + |Take(phrases, MaxDetails)|
    ensures |DetailLines(phrases)| <= 11
    ensures phrases != [] ==> DetailLines(phrases)[0] == DetailsHeader
    ensures forall k :: 1 <= k < |DetailLines(phrases)| ==> DetailLines(phrases)[k] == Bullet(phrases[k - 1])
  {
    if phrases != [] {
      forall k | 1 <= k < |DetailLines(phrases)|
        ensures DetailLines(phrases)[k] == Bullet(phrases[k - 1])
      {
        MapIndex(Take(phrases, MaxDetails), Bullet, k - 1);
      }
    }
  }

  // ---------------------------------------------------------------------
  // _aggressive_compress

  /** The three `replace` calls of `_aggressive_compress`. */
  function Shortened(line: string): string
  {
    var a := ReplaceAll(line, "in order to", "to");
    var b := ReplaceAll(a, "due to the fact that", "because");
    ReplaceAll(b, "at this point in time", "now")
  }

  /** A line survives when more than ten characters remain after strip. */
  predicate Survives(line: string)
  {
    |Strip(line)| > 10
  }

  /** The shortened lines kept from `lines`, in order. */
  function Survivors(lines: seq<string>): seq<string>
  {
    Filter(Map(lines, Shortened), Survives)
  }

  /** What `_aggressive_compress(text, target_reduction)` returns; the target
      is not used. */
  function Aggressive(text: string): string
  {
    Join(Survivors(Split(text, '\n')), "\n")
  }

  method AggressiveCompress(text: string) returns (r: string)
    ensures r == Aggressive(text)
  {
    var lines := Split(text, '\n');
    var kept: seq<string> := [];
    for i := 0 to |lines|
      invariant kept == Survivors(lines[..i])
    {
      var line := lines[i];
      line := ReplaceAll(line, "in order to", "to");
      line := ReplaceAll(line, "due to the fact that", "because");
      line := ReplaceAll(line, "at this point in time", "now");
      assert line == Shortened(lines[i]);
      FilterMapStep(lines, i, Shortened, Survives);
      if |Strip(line)| > 10 {
        kept := kept + [line];
      }
    }
    assert lines[..|lines|] == lines;
    r := Join(kept, "\n");
  }

  lemma ShortenedNotLonger(line: string)
    ensures |Shortened(line)| <= |line|
  {
    var a := ReplaceAll(line, "in order to", "to");
    var b := ReplaceAll(a, "due to the fact that", "because");
    ReplaceAllNotLonger(line, "in order to", "to");
    ReplaceAllNotLonger(a, "due to the fact that", "because");
    ReplaceAllNotLonger(b, "at this point in time", "now");
  }

  /** Keeping some of a list of lines, each no longer than its original,
      never lengthens their join. */
  lemma {:induction false} KeptNotLonger(xs: seq<string>, ys: seq<string>, keep: string -> bool)
    requires |xs| == |ys| && forall i :: 0 <= i < |xs| ==> |xs[i]| <= |ys[i]|
    ensures |Join(Filter(xs, keep), "\n")| <= |Join(ys, "\n")|
    decreases |xs|
  {
    if xs != [] {
      var n := |xs| - 1;
      KeptNotLonger(xs[..n], ys[..n], keep);
      var kept := Filter(xs[..n], keep);
      assert ys == ys[..n] + [ys[n]];
      // the join of all of ys is at least as long as the join of its prefix and as its last line
      if n > 0 {
        JoinAppend(ys[..n], ys[n], "\n");
        assert |Join(ys, "\n")| == |Join(ys[..n], "\n")| + 1 + |ys[n]|;
      } else {
        assert ys == [ys[n]];
        assert |Join(ys, "\n")| == |ys[n]|;
      }
      if keep(xs[n]) {
        assert Filter(xs, keep) == kept + [xs[n]];
        if kept != [] {
          JoinAppend(kept, xs[n], "\n");
        } else {
          assert Filter(xs, keep) == [xs[n]];
        }
      } else {
        assert Filter(xs, keep) == kept;
      }
    }
  }


  /** The survivors, joined, are no longer than the lines joined. */
  lemma SurvivorsNotLonger(lines: seq<string>)
    ensures |Join(Survivors(lines), "\n")| <= |Join(lines, "\n")|
  {
    forall i | 0 <= i < |lines| ensures |Map(lines, Shortened)[i]| <= |lines[i]| {
      MapIndex(lines, Shortened, i);
      ShortenedNotLonger(lines[i]);
    }
    KeptNotLonger(Map(lines, Shortened), lines, Survives);
  }

  /** Aggressive compression never lengthens the text. */
  lemma AggressiveNotLonger(text: string)
    ensures |Aggressive(text)| <= |text|
  {
    SurvivorsNotLonger(Split(text, '\n'));
    JoinSplit(text, '\n');
  }

  /** Shortening inserts no line break. */
  lemma ShortenedFree(line: string)
    requires Free(line, '\n')
    ensures Free(Shortened(line), '\n')
  {
    var a := ReplaceAll(line, "in order to", "to");
    var b := ReplaceAll(a, "due to the fact that", "because");
    ReplaceAllFree(line, "in order to", "to", '\n');
    ReplaceAllFree(a, "due to the fact that", "because", '\n');
    ReplaceAllFree(b, "at this point in time", "now", '\n');
  }

  /** The lines of the aggressive output are exactly the survivors, and each
      keeps more than ten characters once stripped. */
  lemma AggressiveLines(text: string)
    requires Survivors(Split(text, '\n')) != []
    ensures Split(Aggressive(text), '\n') == Survivors(Split(text, '\n'))
    ensures forall k :: 0 <= k < |Split(Aggressive(text), '\n')| ==> Survives(Split(Aggressive(text), '\n')[k])
  {
    var lines := Split(text, '\n');
    var kept := Survivors(lines);
    SplitPiecesFree(text, '\n');
    forall k | 0 <= k < |kept| ensures Survives(kept[k]) && Free(kept[k], '\n') {
      FilterExactly(Map(lines, Shortened), Survives, kept[k]);
      MapMember(lines, Shortened, kept[k]);
      var j :| 0 <= j < |lines| && kept[k] == Shortened(lines[j]);
      assert Free(lines[j], '\n');
      ShortenedFree(lines[j]);
    }
    SplitJoin(kept, '\n');
  }

  // ---------------------------------------------------------------------
  // compress_context

  datatype CompressionMetrics = CompressionMetrics(
    originalLength: nat,
    compressedLength: nat,
    reductionRatio: real,
    targetReduction: real,
    compressionTime: real,
    keyPhrasesCount: nat,
    structuredInfoCategories: nat)

  /** The cached dictionary. */
  datatype Compressed = Compressed(compressed: string, metrics: CompressionMetrics)

  const CompressionCacheSize: int := 200
  const CompressionCacheTtl: int := 1800

  /** The digest, compressed further when it misses the target. */
  function Compacted(context: string, digestText: string, target: real): string
    requires context != []
  {
    if Reduction(|context|, |digestText|) < target then Aggressive(digestText) else digestText
  }

  /** What `compress_context` computes on a cache miss; an empty context
      raises ZeroDivisionError at the first reduction. */
  function Compress(v: Vocabulary, arrange: set<string> -> seq<string>, context: string,
                    target: real, elapsed: real): Outcome<Compressed>
  {
    if context == [] then Raised(DivisionByZero)
    else Ok(Summary(context, KeyPhrases(v, context), StructuredInfo(v, arrange, context), target, elapsed))
  }

  /** The digest of the extracted phrases and findings, compacted, with its
      metrics. */
  function Summary(context: string, phrases: seq<string>, info: Findings, target: real, elapsed: real): Compressed
    requires context != []
  {
    var compressed := Compacted(context, Join(Parts(info, phrases), "\n"), target);
    Compressed(compressed, CompressionMetrics(|context|, |compressed|, Reduction(|context|, |compressed|),
                                              target, elapsed, |phrases|, |Entries(info)|))
  }

  /** One `compress_context` call on cache state `s`. */
  function CompressStep(v: Vocabulary, arrange: set<string> -> seq<string>, s: CacheState<Compressed>,
                        key: string, context: string, target: real, now: real, elapsed: real)
    : (CacheState<Compressed>, Outcome<(string, CompressionMetrics)>)
    requires Consistent(s)
  {
    var got := AfterGet(s, key, now, CompressionCacheTtl);
    if got.1.Some? then (got.0, Ok((got.1.value.compressed, got.1.value.metrics)))
    else
      var c := Compress(v, arrange, context, target, elapsed);
      if c.Raised? then (got.0, Raised(c.message))
      else (AfterPut(got.0, key, c.value, now, CompressionCacheSize).value, Ok((c.value.compressed, c.value.metrics)))
  }

  /** The rest of `compress_context`: the digest, its compaction and the
      metrics. */
  method Summarize(context: string, phrases: seq<string>, info: Findings, target: real, elapsed: real)
    returns (r: Compressed)
    requires context != []
    ensures r == Summary(context, phrases, info, target, elapsed)
  {
    var originalLength := |context|;
    var compressed := Assemble(info, phrases);
    var currentReduction := 1.0 - |compressed| as real / originalLength as real;
    assert currentReduction == Reduction(originalLength, |compressed|);
    if currentReduction < target {
      compressed := AggressiveCompress(compressed);
    }
    var finalLength := |compressed|;
    var actualReduction := 1.0 - finalLength as real / originalLength as real;
    assert actualReduction == Reduction(originalLength, finalLength);
    var metrics := CompressionMetrics(originalLength, finalLength, actualReduction, target, elapsed,
                                      |phrases|, |Entries(info)|);
    r := Compressed(compressed, metrics);
  }
  class ContextCompressor {
    const cache: LRUCache<Compressed>
    const vocabulary: Vocabulary
    /** `hashlib.md5(f"{context}:{target_reduction}".encode()).hexdigest()`. */
    const digest: (string, real) -> string
    const arrange: set<string> -> seq<string>

    ghost predicate Valid()
      reads this, cache
    {
      cache.Valid() && cache.maxsize == CompressionCacheSize && cache.ttl == CompressionCacheTtl
    }

    constructor(digest: (string, real) -> string, arrange: set<string> -> seq<string>)
      ensures Valid() && fresh(cache) && cache.State() == Empty()
      ensures vocabulary == DefaultVocabulary() && this.digest == digest && this.arrange == arrange
    {
      cache := new LRUCache(CompressionCacheSize, CompressionCacheTtl);
      vocabulary := DefaultVocabulary();
      this.digest := digest;
      this.arrange := arrange;
    }

    method CompressContext(context: string, target: real, now: real, elapsed: real)
      returns (r: Outcome<(string, CompressionMetrics)>)
      requires Valid()
      modifies cache
      ensures Valid()
      ensures (cache.State(), r)
              == CompressStep(vocabulary, arrange, old(cache.State()), digest(context, target), context, target, now, elapsed)
    {
      ghost var s0 := cache.State();
      var key := digest(context, target);
      var cached := cache.Get(key, now);
      if cached.Some? {
        return Ok((cached.value.compressed, cached.value.metrics));
      }
      var c := CompressMiss(context, target, elapsed);
      if c.Raised? {
        return Raised(c.message);
      }
      ghost var expected := CompressStep(vocabulary, arrange, s0, key, context, target, now, elapsed);
      assert expected == (AfterPut(cache.State(), key, c.value, now, CompressionCacheSize).value,
                          Ok((c.value.compressed, c.value.metrics)));
      var _ := cache.Put(key, c.value, now);
      r := Ok((c.value.compressed, c.value.metrics));
    }

    /** The body of `compress_context` after a cache miss, up to the store. */
    method CompressMiss(context: string, target: real, elapsed: real) returns (c: Outcome<Compressed>)
      ensures c == Compress(vocabulary, arrange, context, target, elapsed)
    {
      var phrases := ExtractKeyPhrases(vocabulary, context);
      var info := ExtractStructuredInfo(vocabulary, arrange, context);
      if |context| == 0 {
        return Raised(DivisionByZero);
      }
      var summary := Summarize(context, phrases, info, target, elapsed);
      c := Ok(summary);
    }
  }

  // ---------------------------------------------------------------------
  // Properties of a call

  /** The reported ratio is `1 - compressed/original`, at most 15 key
      phrases are counted, all four categories are counted, and the digest
      is compressed further only when it misses the target, which never
      lengthens it. */
  lemma CompressionMetricsShape(v: Vocabulary, arrange: set<string> -> seq<string>, context: string,
                                target: real, elapsed: real)
    requires context != []
    ensures var c := Compress(v, arrange, context, target, elapsed);
      var digestText := Join(Parts(StructuredInfo(v, arrange, context), KeyPhrases(v, context)), "\n");
      && c.Ok?
      && c.value.metrics.reductionRatio == Reduction(|context|, |c.value.compressed|)
      && c.value.metrics.originalLength == |context|
      && c.value.metrics.compressedLength == |c.value.compressed|
      && c.value.metrics.keyPhrasesCount <= MaxKeyPhrases
      && c.value.metrics.structuredInfoCategories == 4
      && (Reduction(|context|, |digestText|) >= target ==> c.value.compressed == digestText)
      && |c.value.compressed| <= |digestText|
  {
    CompactedShape(context, Join(Parts(StructuredInfo(v, arrange, context), KeyPhrases(v, context)), "\n"), target);
  }

  /** The digest is kept as it is when it meets the target, and is never
      lengthened. */
  lemma CompactedShape(context: string, digestText: string, target: real)
    requires context != []
    ensures Reduction(|context|, |digestText|) >= target ==> Compacted(context, digestText, target) == digestText
    ensures |Compacted(context, digestText, target)| <= |digestText|
  {
    AggressiveNotLonger(digestText);
  }

  lemma HeaderLacks()
    ensures 'd' !in Header && 'h' !in Header && '\n' !in Header
  {
  }

  lemma HeaderStripped()
    ensures LStrip(Header) == Header && RStrip(Header) == Header
  {
    assert Header[0] == 'K' && Header[|Header| - 1] == ':';
  }

  /** The heading has no line break, is long enough to survive and holds
      none of the three phrases `_aggressive_compress` replaces. */
  lemma HeaderUntouched()
    ensures Free(Header, '\n') && Shortened(Header) == Header && Survives(Header)
  {
    HeaderLacks();
    HeaderNotShortened();
    HeaderStripped();
  }

  lemma HeaderNotShortened()
    ensures Shortened(Header) == Header
  {
    HeaderLacks();
    Lacking(Header, "in order to", 'd');
    ReplaceAllAbsent(Header, "in order to", "to");
    Lacking(Header, "due to the fact that", 'd');
    ReplaceAllAbsent(Header, "due to the fact that", "because");
    Lacking(Header, "at this point in time", 'h');
    ReplaceAllAbsent(Header, "at this point in time", "now");
  }

  /** A first line that shortening leaves alone and that survives stays
      the first line. */
  lemma {:induction false} FixedHead(h: string, tail: seq<string>)
    requires Shortened(h) == h && Survives(h)
    ensures Survivors([h] + tail) == [h] + Survivors(tail)
  {
    MapConcat([h], tail, Shortened);
    assert Map([h], Shortened) == [h] by {
      assert [h][..0] == [];
    }
    FilterConcat([h], Map(tail, Shortened), Survives);
    assert Filter([h], Survives) == [h] by {
      assert [h][..0] == [];
    }
  }

  /** A digest whose first part is such a line begins with it, and still
      does after aggressive compression. */
  lemma HeadedDigest(h: string, parts: seq<string>)
    requires parts != [] && parts[0] == h
    requires Free(h, '\n') && Shortened(h) == h && Survives(h)
    ensures StartsWith(Join(parts, "\n"), h)
    ensures StartsWith(Aggressive(Join(parts, "\n")), h)
  {
    var digestText := Join(parts, "\n");
    JoinStartsWith(parts, "\n");
    var rest := parts[1..];
    assert parts == [h] + rest;
    var lines := Split(digestText, '\n');
    if rest == [] {
      assert digestText == h;
      SplitFree(h, '\n');
      assert lines == [h] + [];
    } else {
      assert digestText == h + "\n" + Join(rest, "\n");
      SplitAfter(h, Join(rest, "\n"), '\n');
      assert lines == [h] + Split(Join(rest, "\n"), '\n');
    }
    FixedHead(h, lines[1..]);
    assert lines == [h] + lines[1..];
    JoinStartsWith(Survivors(lines), "\n");
  }

  /** The text `compress_context` returns begins with the heading, on both
      paths. */
  lemma HeadedCompacted(context: string, parts: seq<string>, target: real)
    requires context != [] && parts != [] && parts[0] == Header
    ensures StartsWith(Compacted(context, Join(parts, "\n"), target), Header)
  {
    HeaderUntouched();
    HeadedDigest(Header, parts);
  }

  /** Whatever the context, the compressed text begins with
      "Key Information:", on both paths. */
  lemma StartsWithHeader(v: Vocabulary, arrange: set<string> -> seq<string>, context: string,
                         target: real, elapsed: real)
    requires context != []
    ensures StartsWith(Compress(v, arrange, context, target, elapsed).value.compressed, Header)
  {
    HeadedCompacted(context, Parts(StructuredInfo(v, arrange, context), KeyPhrases(v, context)), target);
  }

  /** A context shorter than the heading always comes back longer, so the
      reported reduction is negative whatever the target: compression does
      not guarantee a reduction. */
  lemma ShortContextGrows(v: Vocabulary, arrange: set<string> -> seq<string>, context: string,
                          target: real, elapsed: real)
    requires context != [] && |context| < |Header|
    ensures Compress(v, arrange, context, target, elapsed).value.metrics.reductionRatio < 0.0
  {
    StartsWithHeader(v, arrange, context, target, elapsed);
  }

  /** An empty context that misses the cache raises ZeroDivisionError and
      stores nothing. */
  lemma EmptyContextRaises(v: Vocabulary, arrange: set<string> -> seq<string>, s: CacheState<Compressed>,
                           key: string, target: real, now: real, elapsed: real)
    requires Consistent(s) && !Live(s, key, now, CompressionCacheTtl)
    ensures CompressStep(v, arrange, s, key, [], target, now, elapsed)
            == (AfterGet(s, key, now, CompressionCacheTtl).0, Raised(DivisionByZero))
  {
  }

  /** A miss on a non-empty context stores the outcome under the key, and
      asking again within the TTL returns the same outcome. */
  lemma CompressionIsCached(v: Vocabulary, arrange: set<string> -> seq<string>, s: CacheState<Compressed>,
                            key: string, context: string, target: real, now: real, later: real,
                            elapsed: real, elapsed2: real)
    requires Consistent(s) && !Live(s, key, now, CompressionCacheTtl) && context != []
    requires later - now < CompressionCacheTtl as real
    ensures var (t, r) := CompressStep(v, arrange, s, key, context, target, now, elapsed);
      && r.Ok?
      && key in t.cache && t.cache[key] == Compress(v, arrange, context, target, elapsed).value
      && CompressStep(v, arrange, t, key, context, target, later, elapsed2).1 == r
  {
    var s1 := AfterGet(s, key, now, CompressionCacheTtl).0;
    var c := Compress(v, arrange, context, target, elapsed).value;
    PutStores(s1, key, c, now, CompressionCacheSize);
    PutThenGet(s1, key, c, now, later, CompressionCacheSize, CompressionCacheTtl);
  }
}
