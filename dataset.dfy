/** The dataset side of fine-tuning (fine_tuning/fine_tune.py): the
    configuration's default domain weights, the validation of one JSON
    entry, the balancing of the dataset by domain weight, the split into
    training and validation data, and the conversion of an entry to the
    prompt/response form.

    A decoded JSON entry is a map from keys to values; a value is either a
    string or some other JSON value, known by the text `str()` gives for it.
    File reading and JSON decoding are parameters, and `random.shuffle` is a
    function parameter that the properties assume to permute. */
module FineTuning {
  import opened Wrappers
  import opened Sequences

  datatype Field = Text(s: string) | Other(repr: string)

  type Entry = map<string, Field>

  /** `domain_weights`, in the dictionary's order. */
  type Weights = seq<(string, real)>

  /** `str(value)`. */
  function Str(f: Field): string
  {
    if f.Text? then f.s else f.repr
  }

  // ---------------------------------------------------------------------
  // FineTuningConfig

  const DefaultWeights: Weights := [("devops", 0.3), ("sre", 0.25), ("cloud", 0.25), ("platform", 0.2)]

  datatype FineTuningConfig = FineTuningConfig(
    baseModel: string,
    outputModel: string,
    datasetPath: string,
    validationSplit: real,
    epochs: int,
    learningRate: real,
    batchSize: int,
    maxSeqLength: int,
    temperature: real,
    domainWeights: Option<Weights>)

  /** The dataclass defaults, before `__post_init__`. */
  const DefaultConfig: FineTuningConfig :=
    FineTuningConfig("gpt-oss:latest", "gpt-oss-devops:latest", "./devops_dataset.jsonl", 0.2, 10, 0.0001, 8, 4096,
                     0.1, None)

  /** `__post_init__`: missing weights become the defaults. */
  function PostInit(c: FineTuningConfig): FineTuningConfig
  {
    if c.domainWeights.None? then c.(domainWeights := Some(DefaultWeights)) else c
  }

  function WeightSum(w: Weights): real
  {
    if w == [] then 0.0 else w[0].1 + WeightSum(w[1..])
  }

  predicate Listed(w: Weights, d: string)
  {
    exists k :: 0 <= k < |w| && w[k].0 == d
  }

  /** After `__post_init__` the weights are present; given weights are kept
      and nothing else changes; the defaults name the four domains, once
      each, with weights summing to one. */
  lemma PostInitShape(c: FineTuningConfig)
    ensures PostInit(c).domainWeights.Some?
    ensures c.domainWeights.Some? ==> PostInit(c) == c
    ensures PostInit(c).(domainWeights := c.domainWeights) == c
    ensures PostInit(PostInit(c)) == PostInit(c)
    ensures c.domainWeights.None? ==> PostInit(c).domainWeights.value == DefaultWeights
    ensures WeightSum(DefaultWeights) == 1.0
    ensures forall d :: Listed(DefaultWeights, d) <==> d in {"devops", "sre", "cloud", "platform"}
    ensures forall i, j :: 0 <= i < j < |DefaultWeights| ==> DefaultWeights[i].0 != DefaultWeights[j].0
  {
    assert DefaultWeights[1..][1..][1..][1..] == [];
    forall d | d in {"devops", "sre", "cloud", "platform"} ensures Listed(DefaultWeights, d) {
      if d == "devops" { assert DefaultWeights[0].0 == d; }
      else if d == "sre" { assert DefaultWeights[1].0 == d; }
      else if d == "cloud" { assert DefaultWeights[2].0 == d; }
      else { assert DefaultWeights[3].0 == d; }
    }
  }

  // ---------------------------------------------------------------------
  // _validate_entry

  const RequiredFields: seq<string> := ["instruction", "input", "output", "domain"]
  const MinInstructionLength: nat := 10
  const MinOutputLength: nat := 50

  /** `entry['domain'] in domain_weights`: only a string can equal a key. */
  predicate Known(w: Weights, f: Field)
  {
    f.Text? && Listed(w, f.s)
  }

  datatype Rejection =
    | MissingField(name: string)
    | NotText(name: string)
    | UnknownDomain(domain: Field)
    | InstructionTooShort
    | OutputTooShort

  /** The first of `fields` the entry lacks. */
  function FirstMissing(entry: Entry, fields: seq<string>): (r: Option<string>)
    ensures r.None? <==> forall k :: 0 <= k < |fields| ==> fields[k] in entry
    ensures r.Some? ==> exists i :: 0 <= i < |fields| && fields[i] == r.value && r.value !in entry
                                    && forall j :: 0 <= j < i ==> fields[j] in entry
    decreases |fields|
  {
    if fields == [] then None
    else if fields[0] !in entry then Some(fields[0])
    else
      var r := FirstMissing(entry, fields[1..]);
      assert forall k :: 0 < k < |fields| ==> fields[k] == fields[1..][k - 1];
      if r.Some? then
        var i :| 0 <= i < |fields[1..]| && fields[1..][i] == r.value && r.value !in entry
                 && forall j :: 0 <= j < i ==> fields[1..][j] in entry;
        assert fields[i + 1] == r.value;
        r
      else r
  }

  /** The first check the entry fails, in the source's order. */
  function Check(entry: Entry, w: Weights): Option<Rejection>
  {
    match FirstMissing(entry, RequiredFields)
    case Some(name) => Some(MissingField(name))
    case None =>
      if !entry["instruction"].Text? then Some(NotText("instruction"))
      else if !entry["input"].Text? then Some(NotText("input"))
      else if !entry["output"].Text? then Some(NotText("output"))
      else if !Known(w, entry["domain"]) then Some(UnknownDomain(entry["domain"]))
      else if |entry["instruction"].s| < MinInstructionLength then Some(InstructionTooShort)
      else if |entry["output"].s| < MinOutputLength then Some(OutputTooShort)
      else None
  }

  /** What makes an entry acceptable, stated independently of the order of
      the checks. */
  predicate Accepted(entry: Entry, w: Weights)
  {
    && (forall f :: f in RequiredFields ==> f in entry)
    && entry["instruction"].Text? && entry["input"].Text? && entry["output"].Text?
    && Known(w, entry["domain"])
    && |entry["instruction"].s| >= MinInstructionLength && |entry["output"].s| >= MinOutputLength
  }

  lemma CheckExactly(entry: Entry, w: Weights)
    ensures Check(entry, w).None? <==> Accepted(entry, w)
  {
    if FirstMissing(entry, RequiredFields).None? {
      assert forall f :: f in RequiredFields ==> f in entry by {
        forall f | f in RequiredFields ensures f in entry {
          var k :| 0 <= k < |RequiredFields| && RequiredFields[k] == f;
        }
      }
    } else {
      var i :| 0 <= i < |RequiredFields| && RequiredFields[i] == FirstMissing(entry, RequiredFields).value
               && RequiredFields[i] !in entry;
      assert RequiredFields[i] in RequiredFields;
    }
  }

  /** The missing field reported is the first one in the order
      instruction, input, output, domain. */
  lemma MissingFieldFirst(entry: Entry, w: Weights)
    requires Check(entry, w).Some? && Check(entry, w).value.MissingField?
    ensures exists i :: 0 <= i < 4 && RequiredFields[i] == Check(entry, w).value.name
                        && RequiredFields[i] !in entry && forall j :: 0 <= j < i ==> RequiredFields[j] in entry
  {
  }

  /** `str(n)`. */
  function IntText(n: int): (r: string)
    ensures r != []
  {
    if n < 0 then "-" + Digits(-n) else Digits(n)
  }

  function Digits(n: nat): (r: string)
    ensures r != [] && forall k :: 0 <= k < |r| ==> '0' <= r[k] <= '9'
  {
    if n < 10 then [('0' as int + n) as char] else Digits(n / 10) + [('0' as int + n % 10) as char]
  }

  function Reason(r: Rejection): string
  {
    match r
    case MissingField(name) => "Missing required field '" + name + "'"
    case NotText(name) => "'" + name + "' must be a string"
    case UnknownDomain(d) => "Unknown domain '" + Str(d) + "'"
    case InstructionTooShort => "Instruction too short"
    case OutputTooShort => "Output too short"
  }

  function LinePrefix(lineNum: int): string
  {
    "Line " + IntText(lineNum) + ": "
  }

  function Message(lineNum: int, r: Rejection): string
  {
    LinePrefix(lineNum) + Reason(r)
  }

  /** The errors `_validate_entry` appends: one for a rejected entry, none
      for an accepted one. */
  function ValidationErrors(entry: Entry, w: Weights, lineNum: int): (r: seq<string>)
    ensures |r| <= 1
    ensures r == [] <==> Accepted(entry, w)
  {
    CheckExactly(entry, w);
    if Check(entry, w).Some? then [Message(lineNum, Check(entry, w).value)] else []
  }

  // ---------------------------------------------------------------------
  // _balance_dataset_by_domain

  /** Python's `int(x)` on a float: truncation toward zero. */
  function Trunc(x: real): int
  {
    if x >= 0.0 then x.Floor else -((-x).Floor)
  }

  /** `n * x`, written as a sum of `n` copies of `x`. */
  function Scaled(n: nat, x: real): real
  {
    if n == 0 then 0.0 else Scaled(n - 1, x) + x
  }

  lemma {:induction false} ScaledIsProduct(n: nat, x: real)
    ensures Scaled(n, x) == n as real * x
  {
    if n > 0 {
      ScaledIsProduct(n - 1, x);
    }
  }

  /** A fraction of `n` lies between 0 and `n`. */
  lemma {:induction false} ScaledFraction(n: nat, f: real)
    requires 0.0 <= f <= 1.0
    ensures 0.0 <= Scaled(n, f) <= n as real
  {
    if n > 0 {
      ScaledFraction(n - 1, f);
    }
  }

  /** `xs[:t]` and `xs[t:]`, negative `t` counting from the end. */
  function SliceEnd<T>(xs: seq<T>, t: int): (n: nat)
    ensures n <= |xs|
    ensures 0 <= t <= |xs| ==> n == t
  {
    if t >= 0 then (if t <= |xs| then t else |xs|) else if |xs| + t >= 0 then |xs| + t else 0
  }

  function PyTake<T>(xs: seq<T>, t: int): seq<T>
  {
    xs[..SliceEnd(xs, t)]
  }

  function PyDrop<T>(xs: seq<T>, t: int): seq<T>
  {
    xs[SliceEnd(xs, t)..]
  }

  /** `xs * m`. */
  function Repeat<T>(xs: seq<T>, m: nat): (r: seq<T>)
    ensures |r| == m * |xs|
  {
    if m == 0 then [] else xs + Repeat(xs, m - 1)
  }

  function SameDomain(f: Field): Entry -> bool
  {
    e => "domain" in e && e["domain"] == f
  }

  /** `domain_data[domain]`: the entries of one domain, in dataset order. */
  function Group(dataset: seq<Entry>, f: Field): seq<Entry>
  {
    Filter(dataset, SameDomain(f))
  }

  /** What one domain contributes before the final shuffle. */
  function Selection(examples: seq<Entry>, target: int, shuffle: seq<Entry> -> seq<Entry>): seq<Entry>
    requires examples != []
  {
    if |examples| > target then PyTake(shuffle(examples), target)
    else PyTake(Repeat(examples, target / |examples| + 1), target)
  }

  function Contribution(dataset: seq<Entry>, dw: (string, real), total: nat, shuffle: seq<Entry> -> seq<Entry>)
    : seq<Entry>
  {
    var examples := Group(dataset, Text(dw.0));
    if examples == [] then [] else Selection(examples, Trunc(Scaled(total, dw.1)), shuffle)
  }

  /** The contributions of the weighted domains, in the weights' order. */
  function Selections(dataset: seq<Entry>, w: Weights, total: nat, shuffle: seq<Entry> -> seq<Entry>): seq<Entry>
    decreases |w|
  {
    if w == [] then []
    else Selections(dataset, w[..|w| - 1], total, shuffle) + Contribution(dataset, w[|w| - 1], total, shuffle)
  }

  function Balance(dataset: seq<Entry>, w: Weights, shuffle: seq<Entry> -> seq<Entry>): seq<Entry>
  {
    shuffle(Selections(dataset, w, |dataset|, shuffle))
  }

  /** `random.shuffle` rearranges its list. */
  ghost predicate Permutes(shuffle: seq<Entry> -> seq<Entry>)
  {
    forall xs :: multiset(shuffle(xs)) == multiset(xs)
  }

  // ---------------------------------------------------------------------
  // The split and the conversion

  /** `balanced[:split_index]`, `balanced[split_index:]`. */
  function SplitData(balanced: seq<Entry>, validationSplit: real): (seq<Entry>, seq<Entry>)
  {
    var index := Trunc(Scaled(|balanced|, 1.0 - validationSplit));
    (PyTake(balanced, index), PyDrop(balanced, index))
  }

  datatype OllamaEntry = OllamaEntry(prompt: string, response: Field, domain: Field)

  predicate Convertible(entry: Entry)
  {
    "instruction" in entry && "input" in entry && "output" in entry && "domain" in entry
  }

  /** `_convert_to_ollama_format`. */
  function Convert(entry: Entry): OllamaEntry
    requires Convertible(entry)
  {
    OllamaEntry(Str(entry["instruction"]) + "\n\n" + Str(entry["input"]), entry["output"], entry["domain"])
  }

  // ---------------------------------------------------------------------
  // Loading

  const InvalidJson: string := "Invalid JSON - "

  /** The entries kept and the errors reported for the lines of the file,
      line numbers starting at 1; `decode` stands for `json.loads` of the
      stripped line. */
  function Loaded(lines: seq<string>, decode: string -> Outcome<Entry>, w: Weights): (seq<Entry>, seq<string>)
    decreases |lines|
  {
    if lines == [] then ([], [])
    else
      var n := |lines| - 1;
      LoadLine(Loaded(lines[..n], decode, w), decode(lines[n]), w, n + 1)
  }

  /** One line of the file: an undecodable line reports an error, a decoded
      entry is kept when it validates. */
  function LoadLine(sofar: (seq<Entry>, seq<string>), decoded: Outcome<Entry>, w: Weights, lineNum: int)
    : (seq<Entry>, seq<string>)
  {
    match decoded
    case Raised(message) => (sofar.0, sofar.1 + [LinePrefix(lineNum) + InvalidJson + message])
    case Ok(entry) =>
      (sofar.0 + (if Accepted(entry, w) then [entry] else []), sofar.1 + ValidationErrors(entry, w, lineNum))
  }

  // ---------------------------------------------------------------------
  // DatasetProcessor

  class DatasetProcessor {
    const weights: Weights
    const validationSplit: real
    const shuffle: seq<Entry> -> seq<Entry>
    var validationErrors: seq<string>

    constructor(config: FineTuningConfig, shuffle: seq<Entry> -> seq<Entry>)
      requires config.domainWeights.Some?
      ensures weights == config.domainWeights.value && validationSplit == config.validationSplit
      ensures this.shuffle == shuffle && validationErrors == []
    {
      weights := config.domainWeights.value;
      validationSplit := config.validationSplit;
      this.shuffle := shuffle;
      validationErrors := [];
    }

    method ValidateEntry(entry: Entry, lineNum: int) returns (ok: bool)
      modifies this
      ensures ok <==> Accepted(entry, weights)
      ensures validationErrors == old(validationErrors) + ValidationErrors(entry, weights, lineNum)
    {
      for i := 0 to |RequiredFields|
        invariant FirstMissing(entry, RequiredFields) == FirstMissing(entry, RequiredFields[i..])
        invariant validationErrors == old(validationErrors)
      {
        assert RequiredFields[i..][1..] == RequiredFields[i + 1..];
        if RequiredFields[i] !in entry {
          assert RequiredFields[i..][0] == RequiredFields[i];
          assert Check(entry, weights) == Some(MissingField(RequiredFields[i]));
          CheckExactly(entry, weights);
          validationErrors := validationErrors + [Message(lineNum, MissingField(RequiredFields[i]))];
          return false;
        }
      }
      if !entry["instruction"].Text? {
        validationErrors := validationErrors + [Message(lineNum, NotText("instruction"))];
        return false;
      }
      if !entry["input"].Text? {
        validationErrors := validationErrors + [Message(lineNum, NotText("input"))];
        return false;
      }
      if !entry["output"].Text? {
        validationErrors := validationErrors + [Message(lineNum, NotText("output"))];
        return false;
      }
      if !Known(weights, entry["domain"]) {
        validationErrors := validationErrors + [Message(lineNum, UnknownDomain(entry["domain"]))];
        return false;
      }
      if |entry["instruction"].s| < MinInstructionLength {
        validationErrors := validationErrors + [Message(lineNum, InstructionTooShort)];
        return false;
      }
      if |entry["output"].s| < MinOutputLength {
        validationErrors := validationErrors + [Message(lineNum, OutputTooShort)];
        return false;
      }
      CheckExactly(entry, weights);
      ok := true;
    }

    method BalanceByDomain(dataset: seq<Entry>) returns (balanced: seq<Entry>)
      requires forall e :: e in dataset ==> "domain" in e
      ensures balanced == Balance(dataset, weights, shuffle)
    {
      var groups := GroupByDomain(dataset);
      var total := |dataset|;
      balanced := [];
      for i := 0 to |weights|
        invariant balanced == Selections(dataset, weights[..i], total, shuffle)
      {
        SelectionsStep(dataset, weights, total, shuffle, i);
        var (domain, weight) := weights[i];
        if Text(domain) in groups {
          assert groups[Text(domain)] == Group(dataset, Text(domain)) != [];
          var examples := groups[Text(domain)];
          var selected := Selection(examples, Trunc(Scaled(total, weight)), shuffle);
          assert selected == Contribution(dataset, weights[i], total, shuffle);
          balanced := balanced + selected;
        } else {
          assert Contribution(dataset, weights[i], total, shuffle) == [];
        }
      }
      assert weights[..|weights|] == weights;
      balanced := shuffle(balanced);
    }

    /** The first loop of `_balance_dataset_by_domain`. */
    method GroupByDomain(dataset: seq<Entry>) returns (groups: map<Field, seq<Entry>>)
      requires forall e :: e in dataset ==> "domain" in e
      ensures forall f :: f in groups <==> Group(dataset, f) != []
      ensures forall f :: f in groups ==> groups[f] == Group(dataset, f)
    {
      groups := map[];
      for i := 0 to |dataset|
        invariant forall f :: f in groups <==> Group(dataset[..i], f) != []
        invariant forall f :: f in groups ==> groups[f] == Group(dataset[..i], f)
      {
        var entry := dataset[i];
        var domain := entry["domain"];
        forall f ensures Group(dataset[..i + 1], f) == Group(dataset[..i], f) + (if entry["domain"] == f then [entry] else []) {
          assert dataset[..i + 1] == dataset[..i] + [entry];
          FilterAppend(dataset[..i], entry, SameDomain(f));
        }
        if domain !in groups {
          groups := groups[domain := []];
        }
        groups := groups[domain := groups[domain] + [entry]];
      }
      assert dataset[..|dataset|] == dataset;
    }

    method LoadAndValidate(lines: seq<string>, decode: string -> Outcome<Entry>)
      returns (train: seq<Entry>, validation: seq<Entry>)
      modifies this
      ensures validationErrors == old(validationErrors) + Loaded(lines, decode, weights).1
      ensures (train, validation) == SplitData(Balance(Loaded(lines, decode, weights).0, weights, shuffle), validationSplit)
    {
      var dataset := LoadEntries(lines, decode);
      LoadedAccepted(lines, decode, weights);
      var balanced := BalanceByDomain(dataset);
      var index := Trunc(Scaled(|balanced|, 1.0 - validationSplit));
      train, validation := PyTake(balanced, index), PyDrop(balanced, index);
    }

    /** The reading loop of `load_and_validate_dataset`. */
    method LoadEntries(lines: seq<string>, decode: string -> Outcome<Entry>) returns (dataset: seq<Entry>)
      modifies this
      ensures dataset == Loaded(lines, decode, weights).0
      ensures validationErrors == old(validationErrors) + Loaded(lines, decode, weights).1
    {
      dataset := [];
      ghost var errors0 := validationErrors;
      assert lines[..0] == [];
      for i := 0 to |lines|
        invariant dataset == Loaded(lines[..i], decode, weights).0
        invariant validationErrors == errors0 + Loaded(lines[..i], decode, weights).1
      {
        LoadedStep(lines, decode, weights, i);
        ghost var sofar := Loaded(lines[..i], decode, weights);
        match decode(lines[i]) {
          case Raised(message) =>
            validationErrors := validationErrors + [LinePrefix(i + 1) + InvalidJson + message];
            assert validationErrors == errors0 + (sofar.1 + [LinePrefix(i + 1) + InvalidJson + message]);
          case Ok(entry) =>
            var ok := ValidateEntry(entry, i + 1);
            if ok {
              dataset := dataset + [entry];
            }
            assert validationErrors == errors0 + (sofar.1 + ValidationErrors(entry, weights, i + 1));
            assert dataset == sofar.0 + (if Accepted(entry, weights) then [entry] else []);
        }
      }
      assert lines[..|lines|] == lines;
    }
  }

  // ---------------------------------------------------------------------
  // Properties

  /** Every kept entry is acceptable, and every line of the file either
      keeps an entry or reports exactly one error. */
  lemma {:induction false} LoadedAccepted(lines: seq<string>, decode: string -> Outcome<Entry>, w: Weights)
    ensures forall e :: e in Loaded(lines, decode, w).0 ==> Accepted(e, w)
    ensures |Loaded(lines, decode, w).0| + |Loaded(lines, decode, w).1| == |lines|
    decreases |lines|
  {
    if lines != [] {
      LoadedAccepted(lines[..|lines| - 1], decode, w);
    }
  }

  /** `_validate_entry` appends exactly one message, naming the first failed
      check, for a rejected entry and none for an accepted one. */
  lemma ValidationMessage(entry: Entry, w: Weights, lineNum: int)
    ensures Accepted(entry, w) ==> ValidationErrors(entry, w, lineNum) == []
    ensures !Accepted(entry, w) ==> Check(entry, w).Some?
                                    && ValidationErrors(entry, w, lineNum) == [Message(lineNum, Check(entry, w).value)]
  {
    CheckExactly(entry, w);
  }

  lemma {:induction false} RepeatMembers<T>(xs: seq<T>, m: nat, x: T)
    requires x in Repeat(xs, m)
    ensures x in xs
  {
    if m > 0 {
      if x !in xs {
        RepeatMembers(xs, m - 1, x);
      }
    }
  }

  /** `xs * m` starts with `xs` and repeats with period `|xs|`. */
  lemma {:induction false} RepeatPeriodic<T>(xs: seq<T>, m: nat)
    ensures m >= 1 ==> Repeat(xs, m)[..|xs|] == xs
    ensures forall k :: 0 <= k && k + |xs| < m * |xs| ==> Repeat(xs, m)[k + |xs|] == Repeat(xs, m)[k]
  {
    if m > 1 {
      RepeatPeriodic(xs, m - 1);
      var r := Repeat(xs, m);
      var rest := Repeat(xs, m - 1);
      forall k | 0 <= k && k + |xs| < m * |xs| ensures r[k + |xs|] == r[k] {
        if k < |xs| {
          assert rest[..|xs|][k] == rest[k];
        } else {
          assert r[k] == rest[k - |xs|];
        }
      }
    }
  }

  /** A domain with fewer examples than its target contributes exactly the
      target, its examples repeated cyclically in order. */
  lemma CycleShape(examples: seq<Entry>, target: int, shuffle: seq<Entry> -> seq<Entry>)
    requires examples != [] && |examples| <= target
    ensures var s := Selection(examples, target, shuffle);
      && |s| == target && s[..|examples|] == examples
      && (forall k :: 0 <= k && k + |examples| < target ==> s[k + |examples|] == s[k])
      && (forall e :: e in s ==> e in examples)
  {
    var n := |examples|;
    var m := target / n + 1;
    var r := Repeat(examples, m);
    assert target < m * n by {
      assert target == (target / n) * n + target % n;
    }
    RepeatPeriodic(examples, m);
    var s := Selection(examples, target, shuffle);
    assert s == r[..target];
    forall e | e in s ensures e in examples {
      RepeatMembers(examples, m, e);
    }
  }

  /** A domain's selection has exactly the target size when the target is
      not negative, and holds only the domain's examples. */
  lemma SelectionShape(examples: seq<Entry>, target: int, shuffle: seq<Entry> -> seq<Entry>)
    requires Permutes(shuffle) && examples != []
    ensures target >= 0 ==> |Selection(examples, target, shuffle)| == target
    ensures forall e :: e in Selection(examples, target, shuffle) ==> e in examples
  {
    if |examples| > target {
      var sh := shuffle(examples);
      assert multiset(sh) == multiset(examples);
      assert |sh| == |examples| by {
        assert |multiset(sh)| == |multiset(examples)|;
      }
      forall e | e in Selection(examples, target, shuffle) ensures e in examples {
        assert e in sh;
        assert e in multiset(sh);
      }
    } else {
      CycleShape(examples, target, shuffle);
    }
  }

  /** Each weighted domain present in the dataset contributes exactly
      `int(total * weight)` entries when that is not negative, all of them
      entries of that domain; an absent domain contributes nothing. */
  lemma ContributionShape(dataset: seq<Entry>, dw: (string, real), total: nat, shuffle: seq<Entry> -> seq<Entry>)
    requires Permutes(shuffle)
    ensures var c := Contribution(dataset, dw, total, shuffle);
      var target := Trunc(Scaled(total, dw.1));
      && (Group(dataset, Text(dw.0)) == [] ==> c == [])
      && (Group(dataset, Text(dw.0)) != [] && target >= 0 ==> |c| == target)
      && (forall e :: e in c ==> e in dataset && "domain" in e && e["domain"] == Text(dw.0))
  {
    var examples := Group(dataset, Text(dw.0));
    if examples != [] {
      var target := Trunc(Scaled(total, dw.1));
      SelectionShape(examples, target, shuffle);
      forall e | e in examples ensures e in dataset && "domain" in e && e["domain"] == Text(dw.0) {
        FilterExactly(dataset, SameDomain(Text(dw.0)), e);
      }
    }
  }

  /** The balanced dataset is a rearrangement of the contributions, taken
      in the weights' order. */
  lemma BalancePermutes(dataset: seq<Entry>, w: Weights, shuffle: seq<Entry> -> seq<Entry>)
    requires Permutes(shuffle)
    ensures multiset(Balance(dataset, w, shuffle)) == multiset(Selections(dataset, w, |dataset|, shuffle))
    ensures |Balance(dataset, w, shuffle)| == |Selections(dataset, w, |dataset|, shuffle)|
  {
    var s := Selections(dataset, w, |dataset|, shuffle);
    assert multiset(shuffle(s)) == multiset(s);
    assert |multiset(shuffle(s))| == |multiset(s)|;
  }

  /** One more weight read by the balancing loop. */
  lemma SelectionsStep(dataset: seq<Entry>, w: Weights, total: nat, shuffle: seq<Entry> -> seq<Entry>, i: nat)
    requires i < |w|
    ensures Selections(dataset, w[..i + 1], total, shuffle)
            == Selections(dataset, w[..i], total, shuffle) + Contribution(dataset, w[i], total, shuffle)
  {
    assert w[..i + 1][..i] == w[..i];
  }

  /** One more line read by the loading loop. */
  lemma LoadedStep(lines: seq<string>, decode: string -> Outcome<Entry>, w: Weights, i: nat)
    requires i < |lines|
    ensures Loaded(lines[..i + 1], decode, w) == LoadLine(Loaded(lines[..i], decode, w), decode(lines[i]), w, i + 1)
  {
    assert lines[..i + 1][..i] == lines[..i];
  }

  /** The split cuts the balanced data in two without losing or reordering
      anything; for a split fraction in [0, 1] the training part holds
      `int(n * (1 - validation_split))` entries. */
  lemma SplitShape(balanced: seq<Entry>, validationSplit: real)
    ensures SplitData(balanced, validationSplit).0 + SplitData(balanced, validationSplit).1 == balanced
    ensures 0.0 <= validationSplit <= 1.0 ==>
              |SplitData(balanced, validationSplit).0| == Trunc(Scaled(|balanced|, 1.0 - validationSplit))
  {
    if 0.0 <= validationSplit <= 1.0 {
      ScaledFraction(|balanced|, 1.0 - validationSplit);
    }
  }

  /** The prompt holds the instruction, a blank line and the input, so both
      can be read back from it. */
  lemma ConvertRecovers(entry: Entry)
    requires Convertible(entry)
    ensures var r := Convert(entry); var i := Str(entry["instruction"]);
      && r.prompt[..|i|] == i && r.prompt[|i|..|i| + 2] == "\n\n" && r.prompt[|i| + 2..] == Str(entry["input"])
      && r.response == entry["output"] && r.domain == entry["domain"]
  {
  }
}
