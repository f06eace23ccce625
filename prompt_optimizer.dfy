/** `PromptOptimizer` (performance_optimizer.py): rewrites a prompt by
    dropping redundant phrases and filler words, shortening verbose
    phrases, appending domain-specific hints and collapsing whitespace,
    and caches the rewritten prompt with its metrics.

    The three rewriting passes share one shape: when the pattern occurs in
    the lower-cased text, every occurrence of it in the text as written is
    replaced and a tag is recorded. That shape is `Rule`/`Step`/`Apply`;
    `RewrittenText` and `RewrittenTags` are the whole rewrite as functions
    of the pattern tables,
    and the method `Rewrite` keeps the source's three loops and is proved
    equal to it. */
module Prompting {
  import opened Wrappers
  import opened Text
  import opened Caching
  import Monitoring
  import opened Measures

  /** The texts the `_optimize_<domain>_prompt` methods append. */
  datatype HintTexts = HintTexts(
    devopsJson: string, devopsAction: string,
    sreSlo: string, sreMetrics: string,
    cloudCost: string, cloudSecurity: string,
    platformExperience: string, platformSelfService: string)

  /** The optimizer's fixed data: `optimization_patterns`, read by the three
      passes, and the hint texts. */
  datatype Tables = Tables(
    redundantPhrases: seq<string>,
    fillerWords: seq<string>,
    verbosePatterns: seq<(string, string)>,
    hints: HintTexts)

  /** The JSON hint of `_optimize_devops_prompt`, written in two pieces so
      that its second half can be named in a proof. */
  const DevopsJsonHint: string := JsonHintOpening + JsonHintClosing
  const JsonHintOpening: string := "\n\nProvide response in structured JSON format with clear sections for analysis, "
  const JsonHintClosing: string := "recommendations, and implementation steps."

  /** The tables `PromptOptimizer.__init__` installs. */
  const DefaultTables: Tables := Tables(
    ["please", "could you", "would you mind", "if possible",
     "I need you to", "can you help me", "I would like"],
    ["actually", "basically", "essentially", "literally",
     "obviously", "definitely", "certainly"],
    [("in order to", "to"),
     ("due to the fact that", "because"),
     ("at this point in time", "now"),
     ("in the event that", "if"),
     ("for the purpose of", "for")],
    HintTexts(
      DevopsJsonHint,
      "\n\nFocus on actionable, production-ready solutions with specific commands and configurations.",
      "\n\nInclude SLO impact analysis and error budget implications in your response.",
      "\n\nProvide quantitative metrics and measurable targets in your analysis.",
      "\n\nInclude cost implications and optimization opportunities in your recommendations.",
      "\n\nAddress security, compliance, and governance considerations.",
      "\n\nPrioritize developer experience and productivity in your recommendations.",
      "\n\nFocus on self-service capabilities and automation opportunities."))

  /** Tables every pass can run on: no empty phrase to replace, and no
      verbose phrase with a longer replacement. */
  predicate Usable(t: Tables)
  {
    && (forall k :: 0 <= k < |t.redundantPhrases| ==> t.redundantPhrases[k] != [])
    && (forall k :: 0 <= k < |t.verbosePatterns| ==>
          t.verbosePatterns[k].0 != [] && |t.verbosePatterns[k].1| <= |t.verbosePatterns[k].0|)
  }

  /** One rewriting rule: a pattern, what replaces it, and the tag recorded. */
  datatype Rule = Rule(pattern: string, replacement: string, tag: string)

  function RedundantRule(phrase: string): Rule
  {
    Rule(phrase, "", "removed_redundant: " + phrase)
  }

  /** A filler word is only removed between two spaces, leaving one. */
  function FillerRule(word: string): Rule
  {
    Rule(" " + word + " ", " ", "removed_filler: " + word)
  }

  function VerboseRule(verbose: string, concise: string): Rule
  {
    Rule(verbose, concise, "simplified: " + verbose + " -> " + concise)
  }

  function RedundantRules(t: Tables): seq<Rule>
  {
    seq(|t.redundantPhrases|, i requires 0 <= i < |t.redundantPhrases| => RedundantRule(t.redundantPhrases[i]))
  }

  function FillerRules(t: Tables): seq<Rule>
  {
    seq(|t.fillerWords|, i requires 0 <= i < |t.fillerWords| => FillerRule(t.fillerWords[i]))
  }

  function VerboseRules(t: Tables): seq<Rule>
  {
    seq(|t.verbosePatterns|, i requires 0 <= i < |t.verbosePatterns| =>
      VerboseRule(t.verbosePatterns[i].0, t.verbosePatterns[i].1))
  }

  /** Every pattern can be handed to `str.replace`. */
  predicate Patterns(rules: seq<Rule>)
  {
    forall k :: 0 <= k < |rules| ==> rules[k].pattern != []
  }

  /** No replacement is longer than its pattern. */
  predicate Shrinking(rules: seq<Rule>)
  {
    Patterns(rules) && forall k :: 0 <= k < |rules| ==> |rules[k].replacement| <= |rules[k].pattern|
  }

  lemma RulesShrink(t: Tables)
    requires Usable(t)
    ensures Shrinking(RedundantRules(t)) && Shrinking(FillerRules(t)) && Shrinking(VerboseRules(t))
  {
  }

  lemma DefaultTablesUsable()
    ensures Usable(DefaultTables)
  {
    var t := DefaultTables;
    forall k | 0 <= k < |t.redundantPhrases| ensures t.redundantPhrases[k] != [] {
    }
    forall k | 0 <= k < |t.verbosePatterns|
      ensures t.verbosePatterns[k].0 != [] && |t.verbosePatterns[k].1| <= |t.verbosePatterns[k].0|
    {
    }
  }

  /** One rule: detection is on the lower-cased text, replacement is not. */
  function Step(text: string, rule: Rule): (string, seq<string>)
    requires rule.pattern != []
  {
    if Mentions(text, rule.pattern) then (ReplaceAll(text, rule.pattern, rule.replacement), [rule.tag])
    else (text, [])
  }

  /** The rules in order: the final text and the tags, oldest first. */
  function Apply(text: string, rules: seq<Rule>): (string, seq<string>)
    requires Patterns(rules)
    decreases |rules|
  {
    if rules == [] then (text, [])
    else
      var (t, tags) := Step(text, rules[0]);
      var (u, more) := Apply(t, rules[1..]);
      (u, tags + more)
  }

  /** Applying `rules` to `text` when `tags` were recorded before. */
  function Resume(text: string, tags: seq<string>, rules: seq<Rule>): (string, seq<string>)
    requires Patterns(rules)
  {
    var (u, more) := Apply(text, rules);
    (u, tags + more)
  }

  /** `_optimize_devops_prompt`: the second test sees the first hint. */
  function OptimizeDevops(h: HintTexts, prompt: string): string
  {
    var p := if Mentions(prompt, "analyze") && !Mentions(prompt, "json") then prompt + h.devopsJson else prompt;
    if Mentions(p, "recommend") then p + h.devopsAction else p
  }

  /** `_optimize_sre_prompt`. */
  function OptimizeSre(h: HintTexts, prompt: string): string
  {
    var p := if Mentions(prompt, "incident") || Mentions(prompt, "outage") then prompt + h.sreSlo else prompt;
    if Mentions(p, "performance") then p + h.sreMetrics else p
  }

  /** `_optimize_cloud_prompt`. */
  function OptimizeCloud(h: HintTexts, prompt: string): string
  {
    var p := if Mentions(prompt, "architecture") || Mentions(prompt, "design") then prompt + h.cloudCost else prompt;
    if Mentions(p, "migration") || Mentions(p, "deployment") then p + h.cloudSecurity else p
  }

  /** `_optimize_platform_prompt`. */
  function OptimizePlatform(h: HintTexts, prompt: string): string
  {
    var p := if Mentions(prompt, "platform") || Mentions(prompt, "developer") then prompt + h.platformExperience else prompt;
    if Mentions(p, "tool") || Mentions(p, "service") then p + h.platformSelfService else p
  }

  const KnownDomains: set<string> := {"devops", "sre", "cloud", "platform"}

  /** The tag recorded for a domain's hints. */
  function DomainTag(domain: string): string
  {
    "applied_" + domain + "_optimizations"
  }

  /** The domain dispatch of `optimize_prompt`; other domains get no hint. */
  function WithHints(h: HintTexts, text: string, domain: string): string
  {
    if domain == "devops" then OptimizeDevops(h, text)
    else if domain == "sre" then OptimizeSre(h, text)
    else if domain == "cloud" then OptimizeCloud(h, text)
    else if domain == "platform" then OptimizePlatform(h, text)
    else text
  }

  /** The tag the domain dispatch records. */
  function DomainTags(domain: string): seq<string>
  {
    if domain in KnownDomains then [DomainTag(domain)] else []
  }

  /** The three pattern passes: the text and the tags they record. */
  function Passes(t: Tables, prompt: string): (string, seq<string>)
    requires Usable(t)
  {
    RulesShrink(t);
    var a := Apply(prompt, RedundantRules(t));
    var b := Apply(a.0, FillerRules(t));
    var c := Apply(b.0, VerboseRules(t));
    (c.0, a.1 + b.1 + c.1)
  }

  /** The prompt `optimize_prompt` produces on a cache miss. */
  function RewrittenText(t: Tables, prompt: string, domain: string): string
    requires Usable(t)
  {
    Collapse(WithHints(t.hints, Passes(t, prompt).0, domain))
  }

  /** `optimizations_applied` on a cache miss. */
  function RewrittenTags(t: Tables, prompt: string, domain: string): seq<string>
    requires Usable(t)
  {
    Passes(t, prompt).1 + DomainTags(domain)
  }

  lemma ResumeStep(text: string, tags: seq<string>, rules: seq<Rule>, i: nat)
    requires Patterns(rules) && i < |rules|
    ensures var st := Step(text, rules[i]);
            Resume(text, tags, rules[i..]) == Resume(st.0, tags + st.1, rules[i + 1..])
  {
    var r := rules[i..];
    assert r[0] == rules[i] && r[1..] == rules[i + 1..];
    var st := Step(text, rules[i]);
    var rest := Apply(st.0, rules[i + 1..]);
    assert Apply(text, r) == (rest.0, st.1 + rest.1);
    assert tags + (st.1 + rest.1) == (tags + st.1) + rest.1;
  }

  /** The loop over `redundant_phrases`. */
  method RemoveRedundant(t: Tables, text: string) returns (optimized: string, applied: seq<string>)
    requires Usable(t)
    ensures (optimized, applied) == Apply(text, RedundantRules(t))
  {
    var rules := RedundantRules(t);
    RulesShrink(t);
    optimized, applied := text, [];
    assert rules[0..] == rules && [] + Apply(text, rules).1 == Apply(text, rules).1;
    for i := 0 to |t.redundantPhrases|
      invariant Resume(optimized, applied, rules[i..]) == Apply(text, rules)
    {
      var phrase := t.redundantPhrases[i];
      assert rules[i] == RedundantRule(phrase);
      ResumeStep(optimized, applied, rules, i);
      ghost var step, before := Step(optimized, rules[i]), applied;
      if Mentions(optimized, phrase) {
        optimized := ReplaceAll(optimized, phrase, "");
        applied := applied + ["removed_redundant: " + phrase];
      } else {
        assert before + [] == before;
      }
      assert (optimized, applied) == (step.0, before + step.1);
    }
    assert rules[|rules|..] == [] && applied + [] == applied;
  }

  /** The loop over `filler_words`. */
  method RemoveFiller(t: Tables, text: string) returns (optimized: string, applied: seq<string>)
    requires Usable(t)
    ensures (optimized, applied) == Apply(text, FillerRules(t))
  {
    var rules := FillerRules(t);
    RulesShrink(t);
    optimized, applied := text, [];
    assert rules[0..] == rules && [] + Apply(text, rules).1 == Apply(text, rules).1;
    for i := 0 to |t.fillerWords|
      invariant Resume(optimized, applied, rules[i..]) == Apply(text, rules)
    {
      var word := t.fillerWords[i];
      var pattern := " " + word + " ";
      assert rules[i] == FillerRule(word);
      ResumeStep(optimized, applied, rules, i);
      ghost var step, before := Step(optimized, rules[i]), applied;
      if Mentions(optimized, pattern) {
        optimized := ReplaceAll(optimized, pattern, " ");
        applied := applied + ["removed_filler: " + word];
      } else {
        assert before + [] == before;
      }
      assert (optimized, applied) == (step.0, before + step.1);
    }
    assert rules[|rules|..] == [] && applied + [] == applied;
  }

  /** The loop over `verbose_patterns`. */
  method SimplifyVerbose(t: Tables, text: string) returns (optimized: string, applied: seq<string>)
    requires Usable(t)
    ensures (optimized, applied) == Apply(text, VerboseRules(t))
  {
    var rules := VerboseRules(t);
    RulesShrink(t);
    optimized, applied := text, [];
    assert rules[0..] == rules && [] + Apply(text, rules).1 == Apply(text, rules).1;
    for i := 0 to |t.verbosePatterns|
      invariant Resume(optimized, applied, rules[i..]) == Apply(text, rules)
    {
      var (verbose, concise) := t.verbosePatterns[i];
      assert rules[i] == VerboseRule(verbose, concise);
      ResumeStep(optimized, applied, rules, i);
      ghost var step, before := Step(optimized, rules[i]), applied;
      if Mentions(optimized, verbose) {
        optimized := ReplaceAll(optimized, verbose, concise);
        applied := applied + ["simplified: " + verbose + " -> " + concise];
      } else {
        assert before + [] == before;
      }
      assert (optimized, applied) == (step.0, before + step.1);
    }
    assert rules[|rules|..] == [] && applied + [] == applied;
  }

  lemma DevopsTagName()
    ensures DomainTag("devops") == "applied_devops_optimizations"
  {
  }

  lemma SreTagName()
    ensures DomainTag("sre") == "applied_sre_optimizations"
  {
  }

  lemma CloudTagName()
    ensures DomainTag("cloud") == "applied_cloud_optimizations"
  {
  }

  lemma PlatformTagName()
    ensures DomainTag("platform") == "applied_platform_optimizations"
  {
  }

  /** The body of `optimize_prompt` between the cache lookup and the
      metrics: the three pattern loops, the domain hints, and
      `' '.join(optimized.split())`. */
  method Rewrite(t: Tables, prompt: string, domain: string) returns (optimized: string, applied: seq<string>)
    requires Usable(t)
    ensures optimized == RewrittenText(t, prompt, domain) && applied == RewrittenTags(t, prompt, domain)
  {
    var t1, t2, t3;
    optimized, t1 := RemoveRedundant(t, prompt);
    optimized, t2 := RemoveFiller(t, optimized);
    optimized, t3 := SimplifyVerbose(t, optimized);
    applied := t1 + t2 + t3;
    assert (optimized, applied) == Passes(t, prompt);
    ghost var c, tags := optimized, applied;
    if domain == "devops" {
      optimized := OptimizeDevops(t.hints, optimized);
      applied := applied + ["applied_devops_optimizations"];
      DevopsTagName();
    } else if domain == "sre" {
      optimized := OptimizeSre(t.hints, optimized);
      applied := applied + ["applied_sre_optimizations"];
      SreTagName();
    } else if domain == "cloud" {
      optimized := OptimizeCloud(t.hints, optimized);
      applied := applied + ["applied_cloud_optimizations"];
      CloudTagName();
    } else if domain == "platform" {
      optimized := OptimizePlatform(t.hints, optimized);
      applied := applied + ["applied_platform_optimizations"];
      PlatformTagName();
    } else {
      assert applied == tags + [];
    }
    assert optimized == WithHints(t.hints, c, domain) && applied == tags + DomainTags(domain);
    optimized := Collapse(optimized);
  }

  // ---------------------------------------------------------------------
  // Properties of the rewrite

  lemma {:induction false} ApplyNotLonger(text: string, rules: seq<Rule>)
    requires Shrinking(rules)
    ensures |Apply(text, rules).0| <= |text|
    decreases |rules|
  {
    if rules != [] {
      ReplaceAllNotLonger(text, rules[0].pattern, rules[0].replacement);
      assert Shrinking(rules[1..]) by {
        forall k | 0 <= k < |rules[1..]|
          ensures rules[1..][k].pattern != [] && |rules[1..][k].replacement| <= |rules[1..][k].pattern|
        {
          assert rules[1..][k] == rules[k + 1];
        }
      }
      ApplyNotLonger(Step(text, rules[0]).0, rules[1..]);
    }
  }

  /** Every tag the rules record is the tag of one of the rules. */
  lemma {:induction false} ApplyTagsFrom(text: string, rules: seq<Rule>)
    requires Patterns(rules)
    ensures forall t :: t in Apply(text, rules).1 ==> exists k :: 0 <= k < |rules| && rules[k].tag == t
    decreases |rules|
  {
    if rules != [] {
      assert Patterns(rules[1..]) by {
        forall k | 0 <= k < |rules[1..]| ensures rules[1..][k].pattern != [] {
          assert rules[1..][k] == rules[k + 1];
        }
      }
      var (t, tags) := Step(text, rules[0]);
      ApplyTagsFrom(t, rules[1..]);
      forall u | u in Apply(text, rules).1 ensures exists k :: 0 <= k < |rules| && rules[k].tag == u {
        if u !in tags {
          var k :| 0 <= k < |rules[1..]| && rules[1..][k].tag == u;
          assert rules[k + 1].tag == u;
        }
      }
    }
  }

  /** The rewritten prompt has no leading, trailing or doubled whitespace. */
  lemma RewriteWellSpaced(t: Tables, prompt: string, domain: string)
    requires Usable(t)
    ensures WellSpaced(RewrittenText(t, prompt, domain))
  {
    CollapseWellSpaced(WithHints(t.hints, Passes(t, prompt).0, domain));
  }

  /** The pattern passes never lengthen the text. */
  lemma PassesNotLonger(t: Tables, prompt: string)
    requires Usable(t)
    ensures |Passes(t, prompt).0| <= |prompt|
  {
    RulesShrink(t);
    var a := Apply(prompt, RedundantRules(t));
    var b := Apply(a.0, FillerRules(t));
    ApplyNotLonger(prompt, RedundantRules(t));
    ApplyNotLonger(a.0, FillerRules(t));
    ApplyNotLonger(b.0, VerboseRules(t));
  }

  /** Outside the four known domains nothing is appended, so the rewrite
      never lengthens the prompt. */
  lemma RewriteNotLonger(t: Tables, prompt: string, domain: string)
    requires Usable(t)
    ensures domain !in KnownDomains ==> |RewrittenText(t, prompt, domain)| <= |prompt|
  {
    PassesNotLonger(t, prompt);
    CollapseNotLonger(Passes(t, prompt).0);
  }

  /** Domain hints only ever append to the text. */
  lemma HintsAppend(h: HintTexts, text: string, domain: string)
    ensures StartsWith(WithHints(h, text, domain), text)
  {
  }

  /** Rules none of whose tags is a domain tag record no domain tag. */
  lemma TagsAvoidApplied(text: string, rules: seq<Rule>)
    requires Patterns(rules)
    requires forall k :: 0 <= k < |rules| ==> !StartsWith(rules[k].tag, "applied_")
    ensures forall u :: u in Apply(text, rules).1 ==> !StartsWith(u, "applied_")
  {
    ApplyTagsFrom(text, rules);
  }

  /** The redundant-phrase pass records only "removed_redundant: ..." tags. */
  lemma RedundantTags(t: Tables, text: string)
    requires Usable(t)
    ensures forall u :: u in Apply(text, RedundantRules(t)).1 ==> !StartsWith(u, "applied_")
  {
    var rules := RedundantRules(t);
    forall k | 0 <= k < |rules| ensures !StartsWith(rules[k].tag, "applied_") {
      assert rules[k].tag[0] == 'r';
    }
    TagsAvoidApplied(text, rules);
  }

  /** The filler-word pass records only "removed_filler: ..." tags. */
  lemma FillerTags(t: Tables, text: string)
    requires Usable(t)
    ensures forall u :: u in Apply(text, FillerRules(t)).1 ==> !StartsWith(u, "applied_")
  {
    var rules := FillerRules(t);
    forall k | 0 <= k < |rules| ensures !StartsWith(rules[k].tag, "applied_") {
      assert rules[k].tag[0] == 'r';
    }
    TagsAvoidApplied(text, rules);
  }

  /** The verbose-phrase pass records only "simplified: ..." tags. */
  lemma VerboseTags(t: Tables, text: string)
    requires Usable(t)
    ensures forall u :: u in Apply(text, VerboseRules(t)).1 ==> !StartsWith(u, "applied_")
  {
    var rules := VerboseRules(t);
    RulesShrink(t);
    forall k | 0 <= k < |rules| ensures !StartsWith(rules[k].tag, "applied_") {
      assert rules[k].tag[0] == 's';
    }
    TagsAvoidApplied(text, rules);
  }

  /** The pattern passes record only "removed_..." and "simplified: ..."
      tags. */
  lemma PassTags(t: Tables, prompt: string)
    requires Usable(t)
    ensures forall j :: 0 <= j < |Passes(t, prompt).1| ==> !StartsWith(Passes(t, prompt).1[j], "applied_")
  {
    RulesShrink(t);
    var a := Apply(prompt, RedundantRules(t));
    var b := Apply(a.0, FillerRules(t));
    var c := Apply(b.0, VerboseRules(t));
    RedundantTags(t, prompt);
    FillerTags(t, a.0);
    VerboseTags(t, b.0);
    var tags := a.1 + b.1 + c.1;
    assert tags == Passes(t, prompt).1;
    forall j | 0 <= j < |tags| ensures !StartsWith(tags[j], "applied_") {
      assert tags[j] in a.1 || tags[j] in b.1 || tags[j] in c.1;
    }
  }

  /** Tags free of domain tags, followed by the dispatch's tag. */
  lemma EndsWithDomainTag(passTags: seq<string>, domain: string)
    requires forall j :: 0 <= j < |passTags| ==> !StartsWith(passTags[j], "applied_")
    ensures var tags := passTags + DomainTags(domain);
      && (domain in KnownDomains <==> tags != [] && StartsWith(tags[|tags| - 1], "applied_"))
      && (domain in KnownDomains ==> tags[|tags| - 1] == DomainTag(domain))
      && forall j :: 0 <= j < |tags| - |DomainTags(domain)| ==> !StartsWith(tags[j], "applied_")
  {
    var tags := passTags + DomainTags(domain);
    forall j | 0 <= j < |passTags| ensures tags[j] == passTags[j] {
    }
    if domain !in KnownDomains && tags != [] {
      assert tags[|tags| - 1] == passTags[|passTags| - 1];
    }
  }

  /** `optimizations_applied` ends with exactly one domain tag when, and only
      when, the domain is one of the four known ones. */
  lemma RewriteTags(t: Tables, prompt: string, domain: string)
    requires Usable(t)
    ensures var tags := RewrittenTags(t, prompt, domain);
      && (domain in KnownDomains <==> tags != [] && StartsWith(tags[|tags| - 1], "applied_"))
      && (domain in KnownDomains ==> tags[|tags| - 1] == DomainTag(domain))
      && forall j :: 0 <= j < |tags| - |DomainTags(domain)| ==> !StartsWith(tags[j], "applied_")
  {
    PassTags(t, prompt);
    EndsWithDomainTag(Passes(t, prompt).1, domain);
  }

  /** "I need you to" and "I would like" hold a capital letter, so they never
      occur in the lower-cased text and these two rules never fire. */
  lemma CapitalisedPhrasesNeverFire(text: string)
    ensures Step(text, RedundantRule("I need you to")) == (text, [])
    ensures Step(text, RedundantRule("I would like")) == (text, [])
  {
    assert IsUpper("I need you to"[0]) && IsUpper("I would like"[0]);
    UpperNeverInLower(text, "I need you to");
    UpperNeverInLower(text, "I would like");
  }

  /** A pattern found only in another letter case is reported as applied
      although the text is left as it was. */
  lemma DetectedButNotReplaced(text: string, rule: Rule)
    requires rule.pattern != [] && Mentions(text, rule.pattern) && !Contains(text, rule.pattern)
    ensures Step(text, rule) == (text, [rule.tag])
  {
    ReplaceAllAbsent(text, rule.pattern, rule.replacement);
  }

  /** A devops prompt that asks to "analyze" without "json" always gets
      both hints: the first hint itself mentions "recommendations". */
  lemma DevopsCascade(h: HintTexts, prompt: string)
    requires Mentions(h.devopsJson, "recommend")
    requires Mentions(prompt, "analyze") && !Mentions(prompt, "json")
    ensures OptimizeDevops(h, prompt) == prompt + h.devopsJson + h.devopsAction
  {
    LowerConcat(prompt, h.devopsJson);
    ContainsInConcat(Lower(prompt), Lower(h.devopsJson), "recommend");
  }

  /** The source's JSON hint itself mentions "recommendations". */
  lemma JsonHintMentionsRecommend()
    ensures Mentions(DevopsJsonHint, "recommend")
  {
    ClosingStartsWithRecommend();
    MentionedAfter(DevopsJsonHint, JsonHintOpening, JsonHintClosing, "recommend");
  }

  lemma ClosingStartsWithRecommend()
    ensures |JsonHintClosing| >= 9 && JsonHintClosing[..9] == "recommend"
  {
    var c := JsonHintClosing;
    assert |c| == 42;
    assert c[..9] == [c[0], c[1], c[2], c[3], c[4], c[5], c[6], c[7], c[8]];
    assert c[0] == 'r' && c[1] == 'e' && c[2] == 'c' && c[3] == 'o' && c[4] == 'm';
    assert c[5] == 'm' && c[6] == 'e' && c[7] == 'n' && c[8] == 'd';
  }

  /** A lower-case word that begins the second part of a text is mentioned
      in it. */
  lemma MentionedAfter(s: string, opening: string, closing: string, w: string)
    requires s == opening + closing && |w| <= |closing| && closing[..|w|] == w && NoUpper(w)
    ensures Mentions(s, w)
  {
    assert s[|opening|..|opening| + |w|] == closing[..|w|];
    ContainsAt(s, w, |opening|);
    ContainsLower(s, w);
  }

  // ---------------------------------------------------------------------
  // The optimizer with its cache and history

  datatype PromptMetrics = PromptMetrics(
    originalLength: nat,
    optimizedLength: nat,
    compressionRatio: real,
    optimizationTime: real,
    optimizationsApplied: seq<string>,
    domain: string)

  /** The cached dictionary: the optimized prompt and its metrics. */
  datatype PromptResult = PromptResult(optimizedPrompt: string, metrics: PromptMetrics)

  const OptimizationCacheSize: int := 500
  const OptimizationCacheTtl: int := 7200
  const HistoryLength: nat := 1000

  /** The text whose digest is the cache key. */
  function CacheKeyText(prompt: string, domain: string): string
  {
    prompt + ":" + domain
  }

  /** The metric recorded for a miss. */
  function OptimizationMetric(now: real, elapsed: real): Monitoring.Metric
  {
    Monitoring.Metric("prompt_optimization", elapsed, 0, 0.0, false, now, true, None)
  }

  /** One `optimize_prompt` call on cache state `s` and history `h`: the new
      state, the new history and the outcome. An empty prompt that misses
      the cache raises ZeroDivisionError before anything is stored. */
  function OptimizeStep(patterns: Tables, s: CacheState<PromptResult>, h: seq<Monitoring.Metric>,
                        key: string, prompt: string, domain: string, now: real, elapsed: real)
    : (CacheState<PromptResult>, seq<Monitoring.Metric>, Outcome<PromptResult>)
    requires Usable(patterns) && Consistent(s)
  {
    var (s1, hit) := AfterGet(s, key, now, OptimizationCacheTtl);
    if hit.Some? then (s1, h, Ok(hit.value))
    else if prompt == [] then (s1, h, Raised(DivisionByZero))
    else
      var result := MissResult(patterns, prompt, domain, elapsed);
      (AfterPut(s1, key, result, now, OptimizationCacheSize).value,
       Monitoring.Appended(h, OptimizationMetric(now, elapsed), HistoryLength),
       Ok(result))
  }

  /** The metrics dictionary for a prompt optimised to `optimized`. */
  function Measured(prompt: string, optimized: string, elapsed: real, applied: seq<string>, domain: string)
    : (m: PromptMetrics)
    requires prompt != []
    ensures m.originalLength == |prompt| && m.optimizedLength == |optimized|
    ensures Removed(m.compressionRatio, |prompt|, |optimized|)
    ensures |optimized| <= |prompt| ==> 0.0 <= m.compressionRatio <= 1.0
    ensures m.optimizationsApplied == applied
  {
    PromptMetrics(|prompt|, |optimized|, Reduction(|prompt|, |optimized|), elapsed, applied, domain)
  }

  /** What a miss on a non-empty prompt returns and caches. */
  function MissResult(patterns: Tables, prompt: string, domain: string, elapsed: real): (r: PromptResult)
    requires Usable(patterns) && prompt != []
    ensures WellSpaced(r.optimizedPrompt)
    ensures r.metrics.originalLength == |prompt| && r.metrics.optimizedLength == |r.optimizedPrompt|
    ensures Removed(r.metrics.compressionRatio, |prompt|, |r.optimizedPrompt|)
    ensures domain !in KnownDomains ==> 0.0 <= r.metrics.compressionRatio <= 1.0
    ensures var tags := r.metrics.optimizationsApplied;
      && (domain in KnownDomains <==> tags != [] && StartsWith(tags[|tags| - 1], "applied_"))
      && (domain in KnownDomains ==> tags[|tags| - 1] == DomainTag(domain))
  {
    RewriteWellSpaced(patterns, prompt, domain);
    RewriteNotLonger(patterns, prompt, domain);
    RewriteTags(patterns, prompt, domain);
    var optimized := RewrittenText(patterns, prompt, domain);
    PromptResult(optimized, Measured(prompt, optimized, elapsed, RewrittenTags(patterns, prompt, domain), domain))
  }

  class PromptOptimizer {
    const cache: LRUCache<PromptResult>
    const patterns: Tables
    /** `hashlib.md5(...).hexdigest()`. */
    const digest: string -> string
    var history: seq<Monitoring.Metric>

    ghost predicate Valid()
      reads this, cache
    {
      cache.Valid() && cache.maxsize == OptimizationCacheSize && cache.ttl == OptimizationCacheTtl
      && Usable(patterns) && |history| <= HistoryLength
    }

    constructor(digest: string -> string)
      ensures Valid() && fresh(cache) && cache.State() == Empty() && history == []
      ensures patterns == DefaultTables && this.digest == digest
    {
      cache := new LRUCache(OptimizationCacheSize, OptimizationCacheTtl);
      patterns := DefaultTables;
      this.digest := digest;
      history := [];
      DefaultTablesUsable();
    }

    method OptimizePrompt(prompt: string, domain: string, now: real, elapsed: real) returns (r: Outcome<PromptResult>)
      requires Valid()
      modifies this, cache
      ensures Valid()
      ensures (cache.State(), history, r)
              == OptimizeStep(patterns, old(cache.State()), old(history), digest(CacheKeyText(prompt, domain)),
                              prompt, domain, now, elapsed)
    {
      ghost var s0 := cache.State();
      var key := digest(CacheKeyText(prompt, domain));
      var cached := cache.Get(key, now);
      ghost var s1 := cache.State();
      if cached.Some? {
        return Ok(cached.value);
      }
      var optimized, applied := Rewrite(patterns, prompt, domain);
      if |prompt| == 0 {
        return Raised(DivisionByZero);
      }
      var ratio := 1.0 - |optimized| as real / |prompt| as real;
      assert ratio == Reduction(|prompt|, |optimized|);
      var result := PromptResult(optimized, PromptMetrics(|prompt|, |optimized|, ratio, elapsed, applied, domain));
      assert result == MissResult(patterns, prompt, domain, elapsed);
      ghost var expected := OptimizeStep(patterns, s0, history, key, prompt, domain, now, elapsed);
      assert expected == (AfterPut(s1, key, result, now, OptimizationCacheSize).value,
                          Monitoring.Appended(history, OptimizationMetric(now, elapsed), HistoryLength), Ok(result));
      var _ := cache.Put(key, result, now);
      history := Monitoring.Appended(history, OptimizationMetric(now, elapsed), HistoryLength);
      r := Ok(result);
    }
  }

  // ---------------------------------------------------------------------
  // Properties of a call

  /** A miss on a non-empty prompt returns the rewrite with its metrics,
      records one metric and stores the result under the key. */
  lemma MissStores(patterns: Tables, s: CacheState<PromptResult>, h: seq<Monitoring.Metric>,
                   key: string, prompt: string, domain: string, now: real, elapsed: real)
    requires Usable(patterns) && Consistent(s) && !Live(s, key, now, OptimizationCacheTtl) && prompt != []
    ensures var (t, h1, r) := OptimizeStep(patterns, s, h, key, prompt, domain, now, elapsed);
      && r == Ok(MissResult(patterns, prompt, domain, elapsed))
      && h1 != [] && h1[|h1| - 1] == OptimizationMetric(now, elapsed)
      && key in t.cache && t.cache[key] == r.value
  {
    var s1 := AfterGet(s, key, now, OptimizationCacheTtl).0;
    PutStores(s1, key, MissResult(patterns, prompt, domain, elapsed), now, OptimizationCacheSize);
  }

  /** An empty prompt that misses the cache raises ZeroDivisionError, stores
      nothing and records no metric. */
  lemma EmptyPromptRaises(patterns: Tables, s: CacheState<PromptResult>, h: seq<Monitoring.Metric>,
                          key: string, domain: string, now: real, elapsed: real)
    requires Usable(patterns) && Consistent(s) && !Live(s, key, now, OptimizationCacheTtl)
    ensures var (t, h1, r) := OptimizeStep(patterns, s, h, key, [], domain, now, elapsed);
      r == Raised(DivisionByZero) && h1 == h && t == AfterGet(s, key, now, OptimizationCacheTtl).0
  {
  }

  /** Asking again within the TTL returns the stored result without
      rewriting and without recording a metric. */
  lemma RepeatIsCached(patterns: Tables, s: CacheState<PromptResult>, h: seq<Monitoring.Metric>,
                       key: string, prompt: string, domain: string,
                       now: real, later: real, elapsed: real, elapsed2: real)
    requires Usable(patterns) && Consistent(s) && !Live(s, key, now, OptimizationCacheTtl) && prompt != []
    requires later - now < OptimizationCacheTtl as real
    ensures var (t, h1, r) := OptimizeStep(patterns, s, h, key, prompt, domain, now, elapsed);
      var (t2, h2, r2) := OptimizeStep(patterns, t, h1, key, prompt, domain, later, elapsed2);
      r2 == r && h2 == h1
  {
    var s1 := AfterGet(s, key, now, OptimizationCacheTtl).0;
    var result := MissResult(patterns, prompt, domain, elapsed);
    PutThenGet(s1, key, result, now, later, OptimizationCacheSize, OptimizationCacheTtl);
  }
}
