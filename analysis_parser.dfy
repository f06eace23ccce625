/** The analysis parser of the MCP server (server.py): `parse_text_result`
    reads a model's free-text answer line by line, switching between a
    findings section and a recommendations section on header lines and
    collecting bullet lines into the current section; `parse_analysis_result`
    first tries to read the answer as a JSON object.

    The JSON decoder, the fresh analysis id and the timestamp are parameters. */
module Analysis {
  import opened Wrappers
  import opened Text
  import opened Sequences

  const DefaultSeverity: string := "medium"
  const DefaultConfidence: real := 0.8
  /** How much of the answer stands in for the findings when none is found. */
  const ExcerptLength: nat := 200
  const NoRecommendations: string := "See detailed analysis above"
  const ResponseLengthKey: string := "response_length"
  /** The third bullet marker as the source spells it: the three characters
      that the UTF-8 bytes of a bullet sign read as Windows-1252 give. */
  const MisencodedBullet: string := "\U{E2}\U{20AC}\U{A2}"

  /** `AnalysisResult`. */
  datatype AnalysisResult = AnalysisResult(
    analysisId: string,
    timestamp: string,
    category: string,
    severity: string,
    confidence: real,
    findings: seq<string>,
    recommendations: seq<string>,
    metrics: map<string, int>)

  // ---------------------------------------------------------------------
  // parse_text_result

  datatype Section = Unsectioned | FindingsSection | RecommendationsSection

  /** How one stripped line is read. */
  datatype Line = Blank | FindingsHeader | RecommendationsHeader | Item(text: string) | Prose

  predicate IsBullet(line: string)
  {
    StartsWith(line, "-") || StartsWith(line, "*") || StartsWith(line, MisencodedBullet)
  }

  /** The tests in the source's order: a header test wins over the bullet
      test, and an item drops exactly one character, whatever the marker. */
  function Classify(line: string): Line
  {
    if line == [] then Blank
    else if Mentions(line, "finding") || Mentions(line, "issue") then FindingsHeader
    else if Mentions(line, "recommend") || Mentions(line, "solution") then RecommendationsHeader
    else if IsBullet(line) then Item(Strip(line[1..]))
    else Prose
  }

  /** The loop's variables: `current_section`, `findings`, `recommendations`. */
  datatype Scanned = Scanned(section: Section, findings: seq<string>, recommendations: seq<string>)

  const Start: Scanned := Scanned(Unsectioned, [], [])

  /** How the loop reads one unstripped line. */
  function Reading(line: string): Line
  {
    Classify(Strip(line))
  }

  /** One iteration of the loop, on the line as classified. */
  function Step(st: Scanned, l: Line): Scanned
  {
    match l
    case FindingsHeader => st.(section := FindingsSection)
    case RecommendationsHeader => st.(section := RecommendationsSection)
    case Item(text) =>
      if st.section == FindingsSection then st.(findings := st.findings + [text])
      else if st.section == RecommendationsSection then st.(recommendations := st.recommendations + [text])
      else st
    case _ => st
  }

  /** The section machine over a sequence of classified lines. */
  function Scan(ls: seq<Line>): Scanned
    decreases |ls|
  {
    if ls == [] then Start else Step(Scan(ls[..|ls| - 1]), ls[|ls| - 1])
  }

  /** The whole loop, over the lines in order. */
  function ScanLines(lines: seq<string>): Scanned
  {
    Scan(Map(lines, Reading))
  }

  /** The loop of `parse_text_result`. */
  method CollectItems(lines: seq<string>) returns (findings: seq<string>, recommendations: seq<string>)
    ensures findings == ScanLines(lines).findings && recommendations == ScanLines(lines).recommendations
  {
    var section := Unsectioned;
    findings, recommendations := [], [];
    for i := 0 to |lines|
      invariant Scanned(section, findings, recommendations) == ScanLines(lines[..i])
    {
      MapStep(lines, i, Reading);
      ScanAppend(Map(lines[..i], Reading), Reading(lines[i]));
      ghost var before := Scanned(section, findings, recommendations);
      ghost var kind := Reading(lines[i]);
      var line := Strip(lines[i]);
      if line == [] {
        assert kind == Blank;
      } else if Mentions(line, "finding") || Mentions(line, "issue") {
        assert kind == FindingsHeader;
        section := FindingsSection;
        assert Scanned(section, findings, recommendations) == Step(before, kind);
      } else if Mentions(line, "recommend") || Mentions(line, "solution") {
        assert kind == RecommendationsHeader;
        section := RecommendationsSection;
        assert Scanned(section, findings, recommendations) == Step(before, kind);
      } else if IsBullet(line) {
        assert kind == Item(Strip(line[1..]));
        if section == FindingsSection {
          findings := findings + [Strip(line[1..])];
        } else if section == RecommendationsSection {
          recommendations := recommendations + [Strip(line[1..])];
        }
        assert Scanned(section, findings, recommendations) == Step(before, kind);
      } else {
        assert kind == Prose;
      }
      assert Scanned(section, findings, recommendations) == Step(before, kind);
    }
    assert lines[..|lines|] == lines;
  }

  /** `result[:200] + "..."`. */
  function Excerpt(result: string): string
  {
    Take(result, ExcerptLength) + "..."
  }

  lemma ScanAppend(ls: seq<Line>, l: Line)
    ensures Scan(ls + [l]) == Step(Scan(ls), l)
  {
    assert (ls + [l])[..|ls|] == ls;
  }

  /** The result built from what the loop collected. */
  function Finish(result: string, s: Scanned, category: string, id: string, stamp: string): AnalysisResult
  {
    AnalysisResult(id, stamp, category, DefaultSeverity, DefaultConfidence,
                   if s.findings == [] then [Excerpt(result)] else s.findings,
                   if s.recommendations == [] then [NoRecommendations] else s.recommendations,
                   map[ResponseLengthKey := |result|])
  }

  function TextResult(result: string, category: string, id: string, stamp: string): AnalysisResult
  {
    Finish(result, ScanLines(Split(result, '\n')), category, id, stamp)
  }

  method ParseTextResult(result: string, category: string, id: string, stamp: string) returns (r: AnalysisResult)
    ensures r == TextResult(result, category, id, stamp)
  {
    var findings, recommendations := CollectItems(Split(result, '\n'));
    if findings == [] {
      findings := [Take(result, ExcerptLength) + "..."];
    }
    if recommendations == [] {
      recommendations := [NoRecommendations];
    }
    r := AnalysisResult(id, stamp, category, DefaultSeverity, DefaultConfidence, findings, recommendations,
                        map[ResponseLengthKey := |result|]);
  }

  // ---------------------------------------------------------------------
  // parse_analysis_result

  /** What the decoder finds under the keys the parser reads; `None` for a
      missing key. */
  datatype Decoded = Decoded(
    severity: Option<string>,
    confidence: Option<real>,
    findings: Option<seq<string>>,
    recommendations: Option<seq<string>>,
    metrics: Option<map<string, int>>)

  function Or<T>(o: Option<T>, default: T): T
  {
    if o.Some? then o.value else default
  }

  function JsonResult(d: Decoded, category: string, id: string, stamp: string): AnalysisResult
  {
    AnalysisResult(id, stamp, category, Or(d.severity, DefaultSeverity), Or(d.confidence, DefaultConfidence),
                   Or(d.findings, []), Or(d.recommendations, []), Or(d.metrics, map[]))
  }

  /** `decode` stands for `json.loads`: `None` is a JSONDecodeError. */
  function ParseAnalysis(decode: string -> Option<Decoded>, result: string, category: string, id: string,
                         stamp: string): AnalysisResult
  {
    if StartsWith(Strip(result), "{") then
      match decode(result)
      case Some(d) => JsonResult(d, category, id, stamp)
      case None => TextResult(result, category, id, stamp)
    else TextResult(result, category, id, stamp)
  }

  // ---------------------------------------------------------------------
  // Properties

  /** A header test comes before the bullet test: a line mentioning
      "finding" or "issue" opens the findings, even when it starts with a
      bullet. */
  lemma HeaderBeatsBullet(line: string)
    requires line != [] && (Mentions(line, "finding") || Mentions(line, "issue"))
    ensures Classify(line) == FindingsHeader
    ensures forall st :: Step(st, Classify(line)) == st.(section := FindingsSection)
  {
  }

  lemma BulletedIssueIsHeader()
    ensures Classify("- Fix the issue") == FindingsHeader
  {
    var line := "- Fix the issue";
    assert Lower(line)[10..15] == "issue";
    ContainsAt(Lower(line), "issue", 10);
  }

  /** An item is a piece of its line. */
  lemma ItemInside(line: string)
    requires Reading(line).Item?
    ensures Contains(line, Reading(line).text)
  {
    var s := Strip(line);
    assert Reading(line).text == Strip(s[1..]);
    TailInside(s);
    StripShape(line);
    ContainsTransitive(line, s, Strip(s[1..]));
  }

  lemma TailInside(s: string)
    requires s != []
    ensures Contains(s, Strip(s[1..]))
  {
    StripShape(s[1..]);
    ContainsInSuffix(s, 1, Strip(s[1..]));
  }

  /** Every recorded item is the text of an item line. */
  lemma {:induction false} ItemsFromItems(ls: seq<Line>, x: string)
    requires x in Scan(ls).findings || x in Scan(ls).recommendations
    ensures exists k :: 0 <= k < |ls| && ls[k] == Item(x)
    decreases |ls|
  {
    var n := |ls| - 1;
    var before := Scan(ls[..n]);
    if x in before.findings || x in before.recommendations {
      ItemsFromItems(ls[..n], x);
      var k :| 0 <= k < n && ls[..n][k] == Item(x);
      assert ls[k] == ls[..n][k];
    }
  }

  /** Every recorded finding and recommendation is a piece of one of the
      lines. */
  lemma ItemsFromLines(lines: seq<string>, x: string)
    requires x in ScanLines(lines).findings || x in ScanLines(lines).recommendations
    ensures exists k :: 0 <= k < |lines| && Contains(lines[k], x)
  {
    ItemsFromItems(Map(lines, Reading), x);
    var k :| 0 <= k < |lines| && Map(lines, Reading)[k] == Item(x);
    MapIndex(lines, Reading, k);
    ItemInside(lines[k]);
  }

  /** The machine only appends: what is recorded after the first `i` lines
      is the start of what is recorded after all of them, so items keep the
      order of their lines. */
  lemma {:induction false} ScanExtends(ls: seq<Line>, i: nat)
    requires i <= |ls|
    ensures Scan(ls[..i]).findings <= Scan(ls).findings
    ensures Scan(ls[..i]).recommendations <= Scan(ls).recommendations
    decreases |ls| - i
  {
    if i < |ls| {
      var n := |ls| - 1;
      assert ls[..n][..i] == ls[..i];
      ScanExtends(ls[..n], i);
    } else {
      assert ls[..i] == ls;
    }
  }

  /** Bullets before the first header are discarded: with no header line,
      nothing is recorded. */
  lemma {:induction false} NoHeaderNoItems(ls: seq<Line>)
    requires forall k :: 0 <= k < |ls| ==> !ls[k].FindingsHeader? && !ls[k].RecommendationsHeader?
    ensures Scan(ls) == Start
    decreases |ls|
  {
    if ls != [] {
      var n := |ls| - 1;
      assert forall k :: 0 <= k < n ==> ls[..n][k] == ls[k];
      NoHeaderNoItems(ls[..n]);
    }
  }

  /** At most one item per line. */
  lemma {:induction false} ItemsPerLine(ls: seq<Line>)
    ensures |Scan(ls).findings| + |Scan(ls).recommendations| <= |ls|
    decreases |ls|
  {
    if ls != [] {
      ItemsPerLine(ls[..|ls| - 1]);
    }
  }

  /** The text-parsed result: both lists are non-empty, the excerpt or the
      stock recommendation stand in exactly when nothing was recorded, and
      the other fields are fixed. */
  lemma FinishShape(result: string, s: Scanned, category: string, id: string, stamp: string)
    ensures var r := Finish(result, s, category, id, stamp);
      && r.findings != [] && r.recommendations != []
      && (r.findings == [Excerpt(result)] <==> s.findings == [] || s.findings == [Excerpt(result)])
      && (s.findings != [] ==> r.findings == s.findings)
      && (s.recommendations != [] ==> r.recommendations == s.recommendations)
      && (s.recommendations == [] ==> r.recommendations == [NoRecommendations])
      && r.severity == DefaultSeverity && r.confidence == DefaultConfidence && r.category == category
      && r.metrics == map[ResponseLengthKey := |result|]
      && |Excerpt(result)| == (if |result| < ExcerptLength then |result| else ExcerptLength) + 3
      && StartsWith(result, Excerpt(result)[..|Excerpt(result)| - 3])
  {
  }

  /** The JSON branch is taken exactly when the stripped answer starts with
      a brace and decodes; otherwise the answer is parsed as text. */
  lemma ParseDispatch(decode: string -> Option<Decoded>, result: string, category: string, id: string, stamp: string)
    ensures var r := ParseAnalysis(decode, result, category, id, stamp);
      && (StartsWith(Strip(result), "{") && decode(result).Some? ==> r == JsonResult(decode(result).value, category, id, stamp))
      && (!StartsWith(Strip(result), "{") || decode(result).None? ==> r == TextResult(result, category, id, stamp))
      && r.category == category && r.analysisId == id && r.timestamp == stamp
  {
  }

  /** Missing keys of a decoded object take the defaults. */
  lemma JsonDefaults(category: string, id: string, stamp: string)
    ensures JsonResult(Decoded(None, None, None, None, None), category, id, stamp)
            == AnalysisResult(id, stamp, category, DefaultSeverity, DefaultConfidence, [], [], map[])
  {
  }
}
