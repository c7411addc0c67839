// Rule-based dataset risk scoring (backend/routers/search/utils/dataset_risk.py).
// A dataset description is a JSON dictionary; each rule raises one flag,
// the flags add up to a score, and the score decides the risk level.
// Python's keyword sets become sequences (only membership matters) and
// regular-expression word boundaries are matched by hand over ASCII.

module DatasetRisk {
  import opened Wrappers
  import opened Json
  import opened Strings
  import opened Collections

  const SyntheticKeywords: seq<string> := ["synthetic", "generated", "model-generated"]
  const EnglishKeywords: seq<string> := ["english", "en", "uk", "us", "american"]
  const HighRiskDatasets: seq<string> := ["pile", "redpajama"]

  datatype Level = High | Medium | Low

  /** The dictionary `_dataset_risk` returns. */
  datatype Assessment = Assessment(name: Value, level: Level, indicators: seq<string>, urlPresent: bool)

  // ------------------------------------------------------------ the rules

  /** `_normalize`: "" for a falsy value, else `text.lower()`; None when `.lower()` does not exist. */
  function Normalize(v: Value): Option<string>
  {
    if !Truthy(v) then Some("") else if v.Str? then Some(Lower(v.s)) else None
  }

  /** `_flag_synthetic`: some keyword occurs anywhere in the text. */
  predicate SyntheticFlag(text: string)
  {
    exists k | 0 <= k < |SyntheticKeywords| :: Contains(text, SyntheticKeywords[k])
  }

  /** `\b w \b` matches at `i`, for a word `w` made of word characters. */
  predicate WordAt(text: string, w: string, i: int)
  {
    && OccursAt(text, w, i)
    && (i == 0 || !IsWordChar(text[i - 1]))
    && (i + |w| == |text| || !IsWordChar(text[i + |w|]))
  }

  predicate HasWord(text: string, w: string)
  {
    exists i | 0 <= i <= |text| - |w| :: WordAt(text, w, i)
  }

  /** `_flag_english_bias`: some keyword occurs as a whole word. */
  predicate EnglishFlag(text: string)
  {
    exists k | 0 <= k < |EnglishKeywords| :: HasWord(text, EnglishKeywords[k])
  }

  /** A whole-word match is in particular a substring match. */
  lemma HasWordContains(text: string, w: string)
    requires HasWord(text, w)
    ensures Contains(text, w)
  {
    var i :| 0 <= i <= |text| - |w| && WordAt(text, w, i);
    assert OccursAt(text, w, i);
  }

  /** A keyword glued to further letters is not a whole word: "en" does not match in "often". */
  lemma EnglishNeedsWholeWord()
    ensures !EnglishFlag("often")
    ensures EnglishFlag("c4-en")
  {
    assert EnglishKeywords[1] == "en";
    assert WordAt("c4-en", "en", 3);
    forall k | 0 <= k < |EnglishKeywords|
      ensures !HasWord("often", EnglishKeywords[k])
    {
      var w := EnglishKeywords[k];
      forall i | 0 <= i <= |"often"| - |w|
        ensures !WordAt("often", w, i)
      {
        if OccursAt("often", w, i) {
          assert "often"[i] == w[0] by { assert "often"[i..i + |w|][0] == w[0]; }
          assert "often"[i + 1] == w[1] by { assert "often"[i..i + |w|][1] == w[1]; }
        }
      }
    }
  }

  /** The four flags one dataset can raise. */
  datatype Flags = Flags(synthetic: bool, english: bool, unverified: bool, largeCrawl: bool)

  /**
   * The flags of a dataset dictionary, or None when normalising its name or
   * description raises (a truthy value that is not a string).
   */
  function FlagsOf(d: Record): Option<Flags>
  {
    var name := Normalize(Get(d, "name", Str("unknown")));
    var desc := Normalize(Get(d, "description", Null));
    if name.None? || desc.None? then None
    else Some(Flags(
      SyntheticFlag(name.value + " " + desc.value),
      EnglishFlag(name.value) || EnglishFlag(desc.value),
      !Truthy(Get(d, "url", Null)),
      name.value in HighRiskDatasets))
  }

  /** Synthetic weighs two, every other flag one. */
  function Score(f: Flags): (s: nat)
    ensures s <= 5
    ensures s == 0 <==> !f.synthetic && !f.english && !f.unverified && !f.largeCrawl
    ensures f.synthetic ==> s >= 2
  {
    (if f.synthetic then 2 else 0) + (if f.english then 1 else 0)
    + (if f.unverified then 1 else 0) + (if f.largeCrawl then 1 else 0)
  }

  /** The indicator names of the raised flags, in rule order. */
  function Raised(f: Flags): seq<string>
  {
    (if f.synthetic then ["synthetic_source"] else [])
    + (if f.english then ["english_centric"] else [])
    + (if f.unverified then ["no_verified_source"] else [])
    + (if f.largeCrawl then ["known_large_crawl"] else [])
  }

  /**
   * The indicator list names exactly the raised flags, is empty exactly when
   * the score is zero, and never holds the "no_specific_flags" placeholder.
   */
  lemma RaisedMeaning(f: Flags)
    ensures Raised(f) == [] <==> Score(f) == 0
    ensures "synthetic_source" in Raised(f) <==> f.synthetic
    ensures "english_centric" in Raised(f) <==> f.english
    ensures "no_verified_source" in Raised(f) <==> f.unverified
    ensures "known_large_crawl" in Raised(f) <==> f.largeCrawl
    ensures "no_specific_flags" !in Raised(f)
  {
    var a: seq<string> := if f.synthetic then ["synthetic_source"] else [];
    var b: seq<string> := if f.english then ["english_centric"] else [];
    var c: seq<string> := if f.unverified then ["no_verified_source"] else [];
    var d: seq<string> := if f.largeCrawl then ["known_large_crawl"] else [];
    assert Raised(f) == a + b + c + d;
    assert |Raised(f)| == |a| + |b| + |c| + |d|;
    assert "synthetic_source"[0] == 's' && "english_centric"[0] == 'e';
    assert "no_verified_source"[3] == 'v' && "known_large_crawl"[0] == 'k';
    assert "no_specific_flags"[3] == 's';
  }

  function LevelOf(score: nat): Level
  {
    if score >= 3 then High else if score >= 1 then Medium else Low
  }

  /**
   * `_dataset_risk` as a value: None when the entry is not a dictionary or
   * normalisation raises.
   */
  function Assess(d: Value): (r: Option<Assessment>)
    ensures r.Some? <==> d.Dict? && FlagsOf(d.fields).Some?
  {
    if !d.Dict? then None
    else
      var f := FlagsOf(d.fields);
      if f.None? then None
      else
        var raised := Raised(f.value);
        Some(Assessment(
          Get(d.fields, "name", Str("unknown")),
          LevelOf(Score(f.value)),
          if raised == [] then ["no_specific_flags"] else raised,
          Truthy(Get(d.fields, "url", Null))))
  }

  /**
   * What an assessment says: the name defaults to "unknown", the url flag is
   * the url's truthiness, the level follows the score's thresholds, and the
   * indicators are the raised flags in rule order, or "no_specific_flags"
   * exactly when the level is low.
   */
  lemma AssessMeaning(d: Value)
    requires Assess(d).Some?
    ensures var r := Assess(d).value; var f := FlagsOf(d.fields).value;
      && r.name == Get(d.fields, "name", Str("unknown"))
      && r.urlPresent == Truthy(Get(d.fields, "url", Null))
      && r.urlPresent == !f.unverified
      && (r.level == High <==> Score(f) >= 3)
      && (r.level == Medium <==> 1 <= Score(f) <= 2)
      && (r.level == Low <==> Score(f) == 0)
      && (r.level == Low <==> r.indicators == ["no_specific_flags"])
      && (Score(f) > 0 ==> r.indicators == Raised(f))
  {
    RaisedMeaning(FlagsOf(d.fields).value);
  }

  /** `_dataset_risk`: the flags accumulated into indicators and a score, which sets the level. */
  method DatasetRiskOf(d: Value) returns (r: Option<Assessment>)
    ensures r == Assess(d)
  {
    if !d.Dict? {
      return None;
    }
    var flags := FlagsOf(d.fields);
    if flags.None? {
      return None;
    }
    var indicators, score := Accumulate(flags.value);
    if indicators == [] {
      indicators := ["no_specific_flags"];
    }
    var level := Low;
    if score >= 3 {
      level := High;
    } else if score >= 1 {
      level := Medium;
    }
    r := Some(Assessment(Get(d.fields, "name", Str("unknown")), level, indicators,
      Truthy(Get(d.fields, "url", Null))));
  }

  /** The rules applied one after another, each appending its indicator and adding its weight. */
  method Accumulate(f: Flags) returns (indicators: seq<string>, score: nat)
    ensures indicators == Raised(f) && score == Score(f)
  {
    indicators, score := [], 0;
    if f.synthetic {
      indicators := indicators + ["synthetic_source"];
      score := score + 2;
    }
    assert indicators == (if f.synthetic then ["synthetic_source"] else []);
    if f.english {
      indicators := indicators + ["english_centric"];
      score := score + 1;
    }
    if f.unverified {
      indicators := indicators + ["no_verified_source"];
      score := score + 1;
    }
    if f.largeCrawl {
      indicators := indicators + ["known_large_crawl"];
      score := score + 1;
    }
  }

  // ---------------------------------------------------------- the context

  datatype ModelEntry = ModelEntry(modelId: string, arxivUrl: Value, datasets: seq<Assessment>)

  /** The returned context: the listed models and `global_counts`. */
  datatype Context = Context(models: seq<ModelEntry>, high: nat, medium: nat, low: nat, unknownModels: nat)

  const EmptyContext := Context([], 0, 0, 0, 0)

  /** How many assessments have level `l`. */
  function CountLevel(xs: seq<Assessment>, l: Level): (n: nat)
    ensures n <= |xs|
  {
    if xs == [] then 0
    else CountLevel(xs[..|xs| - 1], l) + (if xs[|xs| - 1].level == l then 1 else 0)
  }

  lemma {:induction false} CountLevelsSum(xs: seq<Assessment>)
    ensures CountLevel(xs, High) + CountLevel(xs, Medium) + CountLevel(xs, Low) == |xs|
  {
    if xs != [] {
      CountLevelsSum(xs[..|xs| - 1]);
    }
  }

  /** The number of datasets assessed across the listed models. */
  function Assessed(models: seq<ModelEntry>): nat
  {
    if models == [] then 0 else Assessed(models[..|models| - 1]) + |models[|models| - 1].datasets|
  }

  function LevelTotal(models: seq<ModelEntry>, l: Level): nat
  {
    if models == [] then 0
    else LevelTotal(models[..|models| - 1], l) + CountLevel(models[|models| - 1].datasets, l)
  }

  /**
   * The assessments of a model's datasets, in order; None when one of them
   * raises.
   */
  function AssessAll(ds: seq<Value>): Option<seq<Assessment>>
  {
    AllSome(ds, Assess)
  }

  /**
   * `info.get("datasets") or []`: None when `info` is not a dictionary or
   * the value is truthy but not a list (iterating it raises).
   */
  function DatasetsOf(info: Value): Option<seq<Value>>
  {
    if !info.Dict? then None
    else
      var ds := Get(info.fields, "datasets", Null);
      if !Truthy(ds) then Some([]) else if ds.List? then Some(ds.items) else None
  }

  /**
   * One turn of the outer loop: a model without datasets is counted as
   * unknown, any other is listed with its assessments and their levels
   * counted; None when something raises.
   */
  function Step(c: Context, item: (string, Value)): Option<Context>
  {
    var ds := DatasetsOf(item.1);
    if ds.None? then None
    else if ds.value == [] then Some(c.(unknownModels := c.unknownModels + 1))
    else
      var assessed := AssessAll(ds.value);
      if assessed.None? then None
      else
        var a := assessed.value;
        Some(Context(c.models + [ModelEntry(item.0, Get(item.1.fields, "arxiv_url", Null), a)],
          c.high + CountLevel(a, High), c.medium + CountLevel(a, Medium),
          c.low + CountLevel(a, Low), c.unknownModels))
  }

  /** The context after the model items `entries` (a dictionary's items in order); None when one raises. */
  function RiskContext(entries: seq<(string, Value)>): Option<Context>
  {
    if entries == [] then Some(EmptyContext)
    else
      var prev := RiskContext(entries[..|entries| - 1]);
      if prev.None? then None else Step(prev.value, entries[|entries| - 1])
  }

  /**
   * Every model is either listed or counted as unknown, every listed model
   * has datasets, and the three level counts add up to the number of
   * datasets assessed.
   */
  lemma {:induction false} RiskContextBalanced(entries: seq<(string, Value)>)
    requires RiskContext(entries).Some?
    ensures var c := RiskContext(entries).value;
      && |c.models| + c.unknownModels == |entries|
      && (forall m :: m in c.models ==> m.datasets != [])
      && c.high == LevelTotal(c.models, High)
      && c.medium == LevelTotal(c.models, Medium)
      && c.low == LevelTotal(c.models, Low)
      && c.high + c.medium + c.low == Assessed(c.models)
  {
    if entries != [] {
      var init := entries[..|entries| - 1];
      RiskContextBalanced(init);
      var c := RiskContext(entries).value;
      var p := RiskContext(init).value;
      if c.models != p.models {
        var m := c.models[|c.models| - 1];
        assert c.models == p.models + [m];
        assert c.models[..|c.models| - 1] == p.models;
        CountLevelsSum(m.datasets);
        AllSomeSpec(DatasetsOf(entries[|entries| - 1].1).value, Assess);
      }
    }
  }

  /** The inner loop: assess each dataset in turn and count the levels. */
  method AssessDatasets(ds: seq<Value>) returns (r: Option<seq<Assessment>>, high: nat, medium: nat, low: nat)
    ensures r == AssessAll(ds)
    ensures r.Some? ==> (high == CountLevel(r.value, High) && medium == CountLevel(r.value, Medium)
      && low == CountLevel(r.value, Low))
  {
    var out: seq<Assessment> := [];
    high, medium, low := 0, 0, 0;
    for i := 0 to |ds|
      invariant AssessAll(ds[..i]) == Some(out)
      invariant high == CountLevel(out, High) && medium == CountLevel(out, Medium) && low == CountLevel(out, Low)
    {
      var a := DatasetRiskOf(ds[i]);
      AllSomeStep(ds, i, Assess, out);
      if a.None? {
        return None, 0, 0, 0;
      }
      assert (out + [a.value])[..|out|] == out;
      out := out + [a.value];
      match a.value.level {
        case High => high := high + 1;
        case Medium => medium := medium + 1;
        case Low => low := low + 1;
      }
    }
    assert ds[..|ds|] == ds;
    r := Some(out);
  }

  /**
   * `build_dataset_risk_context`: a non-dictionary input gives the empty
   * context; otherwise the models in order, each either listed with its
   * assessments or counted as unknown.
   */
  method BuildDatasetRiskContext(input: Option<seq<(string, Value)>>) returns (ctx: Option<Context>)
    ensures input.None? ==> ctx == Some(EmptyContext)
    ensures input.Some? ==> ctx == RiskContext(input.value)
  {
    if input.None? {
      return Some(EmptyContext);
    }
    var entries := input.value;
    var context := EmptyContext;
    for i := 0 to |entries|
      invariant RiskContext(entries[..i]) == Some(context)
    {
      assert entries[..i + 1][..i] == entries[..i];
      var next := AddModel(context, entries[i]);
      if next.None? {
        RiskContextPrefix(entries, i + 1);
        return None;
      }
      context := next.value;
    }
    assert entries[..|entries|] == entries;
    ctx := Some(context);
  }

  /** The body of the outer loop for one `(model_id, info)` item. */
  method AddModel(context: Context, item: (string, Value)) returns (next: Option<Context>)
    ensures next == Step(context, item)
  {
    var (modelId, info) := item;
    var datasets := DatasetsOf(info);
    if datasets.None? {
      return None;
    }
    if datasets.value == [] {
      return Some(context.(unknownModels := context.unknownModels + 1));
    }
    var assessed, high, medium, low := AssessDatasets(datasets.value);
    if assessed.None? {
      return None;
    }
    var entry := ModelEntry(modelId, Get(info.fields, "arxiv_url", Null), assessed.value);
    next := Some(Context(context.models + [entry], context.high + high, context.medium + medium,
      context.low + low, context.unknownModels));
  }

  /** A failure raises out of the whole loop. */
  lemma {:induction false} RiskContextPrefix(entries: seq<(string, Value)>, n: nat)
    requires n <= |entries| && RiskContext(entries[..n]).None?
    ensures RiskContext(entries).None?
    decreases |entries| - n
  {
    if n < |entries| {
      assert entries[..n + 1][..n] == entries[..n];
      RiskContextPrefix(entries, n + 1);
    } else {
      assert entries[..n] == entries;
    }
  }
}
