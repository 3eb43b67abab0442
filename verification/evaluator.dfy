/** How the iterative executor turns whatever the evaluator agent returned
    into one `StructuredFeedback` (`_parse_evaluator_output`,
    `_dict_to_structured_feedback`, `_parse_text_feedback` in
    `core/iterative_executor.py`). */
module Evaluator {
  import opened Common
  import opened Text
  import opened Dicts
  import opened Feedback

  /** The value stored under `quality_metrics`: a mapping read with `.get`,
      or something else, on which `.get` raises. */
  datatype MetricsEntry = MetricsMapping(d: Dict<real>) | NotAMapping

  /** The three shapes the parser distinguishes. `ScoreDict` is a dict
      holding `quality_score` (absent optional keys are `None`);
      `FeedbackObject` is a `StructuredFeedback` instance; `OtherOutput`
      is anything else, given by its `str()` rendering, which includes a
      dict without `quality_score`. */
  datatype EvaluatorOutput =
    | ScoreDict(qualityScore: real, qualityMetrics: Option<MetricsEntry>,
                suggestions: Option<seq<string>>, positiveAspects: Option<seq<string>>)
    | FeedbackObject(fb: StructuredFeedback)
    | OtherOutput(text: string)

  /** The feedback returned when parsing raises: a neutral 50 everywhere
      except test coverage, and one explanatory suggestion. */
  function ParseFallback(iteration: int, evaluator: string): StructuredFeedback {
    StructuredFeedback(50.0, QualityMetrics(50.0, 50.0, 50.0, 0.0, 50.0, 50.0), [],
      ["Unable to parse detailed feedback"], [], iteration, evaluator)
  }

  /** `QualityMetrics(...)` read from a metrics mapping with the parser's
      defaults: 50 for every score, 0 for test coverage. */
  function MetricsFromDict(d: Dict<real>): (m: QualityMetrics)
    ensures m.complexity == GetOr(d, "complexity_score", 50.0)
    ensures m.maintainability == GetOr(d, "maintainability_score", 50.0)
    ensures m.readability == GetOr(d, "readability_score", 50.0)
    ensures m.testCoverage == GetOr(d, "test_coverage", 0.0)
    ensures m.performance == GetOr(d, "performance_score", 50.0)
    ensures m.security == GetOr(d, "security_score", 50.0)
  {
    QualityMetrics(
      GetOr(d, "complexity_score", 50.0), GetOr(d, "maintainability_score", 50.0),
      GetOr(d, "readability_score", 50.0), GetOr(d, "test_coverage", 0.0),
      GetOr(d, "performance_score", 50.0), GetOr(d, "security_score", 50.0))
  }

  /** `_dict_to_structured_feedback`, or the fallback when `.get` raises
      on a `quality_metrics` value that is not a mapping. */
  function DictToFeedback(
    score: real, metrics: Option<MetricsEntry>, suggestions: Option<seq<string>>,
    positives: Option<seq<string>>, iteration: int, evaluator: string): StructuredFeedback
  {
    match metrics
    case Some(NotAMapping) => ParseFallback(iteration, evaluator)
    case Some(MetricsMapping(d)) =>
      StructuredFeedback(score, MetricsFromDict(d), [], suggestions.GetOr([]), positives.GetOr([]), iteration, evaluator)
    case None =>
      StructuredFeedback(score, DefaultMetrics, [], suggestions.GetOr([]), positives.GetOr([]), iteration, evaluator)
  }

  const PositiveKeywords: seq<string> := ["good", "excellent", "well", "clear", "efficient", "secure"]
  const NegativeKeywords: seq<string> := ["bad", "poor", "unclear", "inefficient", "insecure", "complex"]
  const SuggestionWords: seq<string> := ["suggest", "recommend", "should", "could", "improve"]

  /** `sum(1 for k in keys if k in text)`: how many of the keys occur. */
  function CountPresent(text: string, keys: seq<string>): (r: nat)
    ensures r <= |keys|
    ensures r == 0 <==> !ContainsAny(text, keys)
    ensures r == |keys| <==> forall i :: 0 <= i < |keys| ==> Contains(text, keys[i])
    decreases |keys|
  {
    if |keys| == 0 then 0
    else
      var rest := CountPresent(text, keys[1..]);
      assert ContainsAny(text, keys) <==> Contains(text, keys[0]) || ContainsAny(text, keys[1..]) by {
        if ContainsAny(text, keys[1..]) {
          var i :| 0 <= i < |keys[1..]| && Contains(text, keys[1..][i]);
          assert Contains(text, keys[i + 1]);
        }
      }
      assert (forall i :: 0 <= i < |keys| ==> Contains(text, keys[i]))
         <==> Contains(text, keys[0]) && (forall i :: 0 <= i < |keys[1..]| ==> Contains(text, keys[1..][i])) by {
        if Contains(text, keys[0]) && forall i :: 0 <= i < |keys[1..]| ==> Contains(text, keys[1..][i]) {
          forall i | 0 <= i < |keys| ensures Contains(text, keys[i]) {
            if i > 0 {
              assert keys[i] == keys[1..][i - 1];
            }
          }
        }
      }
      (if Contains(text, keys[0]) then 1 else 0) + rest
  }

  /** More keywords present never means a smaller count. */
  lemma {:induction false} CountPresentMonotone(a: string, b: string, keys: seq<string>)
    requires forall i :: 0 <= i < |keys| && Contains(a, keys[i]) ==> Contains(b, keys[i])
    ensures CountPresent(a, keys) <= CountPresent(b, keys)
    decreases |keys|
  {
    if |keys| > 0 {
      assert forall i :: 0 <= i < |keys[1..]| && Contains(a, keys[1..][i]) ==> Contains(b, keys[1..][i]) by {
        forall i | 0 <= i < |keys[1..]| && Contains(a, keys[1..][i]) ensures Contains(b, keys[1..][i]) {
          assert keys[1..][i] == keys[i + 1];
        }
      }
      CountPresentMonotone(a, b, keys[1..]);
    }
  }

  /** The text heuristic's score: 70, plus 5 per positive keyword, minus 10
      per negative keyword, clamped to [0, 100]. */
  function TextScore(lowered: string): (r: real)
    ensures 0.0 <= r <= 100.0
  {
    var p := CountPresent(lowered, PositiveKeywords);
    var n := CountPresent(lowered, NegativeKeywords);
    Clamp(70.0 + 5.0 * (p as real) - 10.0 * (n as real), 0.0, 100.0)
  }

  /** With six keywords on each side the unclamped score already lies in
      [10, 100], so the clamp never bites. */
  lemma TextScoreUnclamped(lowered: string)
    ensures TextScore(lowered)
            == 70.0 + 5.0 * (CountPresent(lowered, PositiveKeywords) as real)
               - 10.0 * (CountPresent(lowered, NegativeKeywords) as real)
    ensures 10.0 <= TextScore(lowered)
  {
    var p := CountPresent(lowered, PositiveKeywords);
    var n := CountPresent(lowered, NegativeKeywords);
    assert p <= 6 && n <= 6;
  }

  /** Text without any keyword scores the default 70. */
  lemma TextScoreNeutral(lowered: string)
    requires !ContainsAny(lowered, PositiveKeywords) && !ContainsAny(lowered, NegativeKeywords)
    ensures TextScore(lowered) == 70.0
  {
  }

  /** A line the text heuristic keeps as a suggestion. */
  predicate IsSuggestionLine(line: string) {
    ContainsAny(Lower(line), SuggestionWords)
  }

  /** `[f(x) for x in xs if keep(x)]`. */
  function MapWhere(lines: seq<string>, keep: string -> bool, f: string -> string): (r: seq<string>)
    ensures |r| <= |lines|
    decreases |lines|
  {
    if |lines| == 0 then []
    else
      var rest := MapWhere(lines[1..], keep, f);
      if keep(lines[0]) then [f(lines[0])] + rest else rest
  }

  /** `s` is `f` of one of the `lines` that `keep` accepts. */
  predicate FromKeptLine(lines: seq<string>, keep: string -> bool, f: string -> string, s: string) {
    exists i :: 0 <= i < |lines| && keep(lines[i]) && s == f(lines[i])
  }

  /** Every accepted line contributes its image. */
  lemma {:induction false} MapWhereComplete(lines: seq<string>, keep: string -> bool, f: string -> string)
    ensures forall i :: 0 <= i < |lines| && keep(lines[i]) ==> f(lines[i]) in MapWhere(lines, keep, f)
    decreases |lines|
  {
    if |lines| > 0 {
      MapWhereComplete(lines[1..], keep, f);
      forall i | 0 <= i < |lines| && keep(lines[i])
        ensures f(lines[i]) in MapWhere(lines, keep, f)
      {
        if i > 0 {
          assert lines[1..][i - 1] == lines[i];
        }
      }
    }
  }

  /** Every element comes from an accepted line. */
  lemma {:induction false} MapWhereSound(lines: seq<string>, keep: string -> bool, f: string -> string)
    ensures forall j :: 0 <= j < |MapWhere(lines, keep, f)| ==> FromKeptLine(lines, keep, f, MapWhere(lines, keep, f)[j])
    decreases |lines|
  {
    if |lines| > 0 {
      var rest := MapWhere(lines[1..], keep, f);
      MapWhereSound(lines[1..], keep, f);
      forall j | 0 <= j < |MapWhere(lines, keep, f)|
        ensures FromKeptLine(lines, keep, f, MapWhere(lines, keep, f)[j])
      {
        var k := if keep(lines[0]) then j - 1 else j;
        if k >= 0 {
          assert MapWhere(lines, keep, f)[j] == rest[k];
          assert FromKeptLine(lines[1..], keep, f, rest[k]);
          var i :| 0 <= i < |lines[1..]| && keep(lines[1..][i]) && rest[k] == f(lines[1..][i]);
          assert lines[1..][i] == lines[i + 1];
          assert keep(lines[i + 1]) && MapWhere(lines, keep, f)[j] == f(lines[i + 1]);
        } else {
          assert keep(lines[0]) && MapWhere(lines, keep, f)[j] == f(lines[0]);
        }
      }
    }
  }

  /** The suggestion lines of a text, stripped, in order. */
  function SuggestionLines(lines: seq<string>): seq<string> {
    MapWhere(lines, IsSuggestionLine, Strip)
  }

  /** `xs[:5]`: a prefix of `xs`, five long unless `xs` is shorter. */
  function AtMostFive(xs: seq<string>): (r: seq<string>)
    ensures |r| <= 5 && |r| <= |xs| && r == xs[..|r|]
    ensures |r| == 5 || r == xs
  {
    if |xs| <= 5 then xs else xs[..5]
  }

  function TextMetrics(score: real): (m: QualityMetrics)
    requires 0.0 <= score <= 100.0
    ensures m.complexity == m.maintainability == m.readability == m.performance == m.security == score
    ensures m.testCoverage == Max(0.0, score - 20.0)
    ensures 0.0 <= m.testCoverage <= m.complexity
  {
    QualityMetrics(score, score, score, Max(0.0, score - 20.0), score, score)
  }

  /** `_parse_text_feedback`: keyword scoring on the lower-cased text, the
      first five suggestion lines, no issues. */
  function ParseText(text: string, iteration: int, evaluator: string): (r: StructuredFeedback)
    ensures r.qualityScore == TextScore(Lower(text))
    ensures 10.0 <= r.qualityScore <= 100.0
    ensures r.metrics == TextMetrics(r.qualityScore)
    ensures r.suggestions == AtMostFive(SuggestionLines(Split(text, '\n')))
    ensures r.issues == [] && r.positiveAspects == []
    ensures r.iterationNumber == iteration && r.reviewerAgent == evaluator
  {
    var score := TextScore(Lower(text));
    TextScoreUnclamped(Lower(text));
    StructuredFeedback(score, TextMetrics(score), [], AtMostFive(SuggestionLines(Split(text, '\n'))), [], iteration, evaluator)
  }

  /** Each suggestion the text heuristic keeps is a stripped line of the
      evaluator's text that mentions a suggestion word; when at most five
      lines do, every one of them is kept. */
  lemma ParseTextSuggestions(text: string, iteration: int, evaluator: string)
    ensures forall j :: 0 <= j < |ParseText(text, iteration, evaluator).suggestions| ==>
              FromKeptLine(Split(text, '\n'), IsSuggestionLine, Strip, ParseText(text, iteration, evaluator).suggestions[j])
    ensures |SuggestionLines(Split(text, '\n'))| <= 5 ==>
              forall i :: 0 <= i < |Split(text, '\n')| && IsSuggestionLine(Split(text, '\n')[i]) ==>
                Strip(Split(text, '\n')[i]) in ParseText(text, iteration, evaluator).suggestions
  {
    var lines := Split(text, '\n');
    MapWhereSound(lines, IsSuggestionLine, Strip);
    MapWhereComplete(lines, IsSuggestionLine, Strip);
    var all := SuggestionLines(lines);
    var r := ParseText(text, iteration, evaluator);
    assert forall j :: 0 <= j < |r.suggestions| ==> r.suggestions[j] == all[j];
  }

  /** `_parse_evaluator_output`: the result always carries this iteration's
      number and the evaluator's name. */
  function ParseEvaluatorOutput(out: EvaluatorOutput, iteration: int, evaluator: string): (r: StructuredFeedback)
    ensures r.iterationNumber == iteration && r.reviewerAgent == evaluator
    ensures out.FeedbackObject? ==> r == out.fb.(iterationNumber := iteration, reviewerAgent := evaluator)
    ensures out.ScoreDict? && out.qualityMetrics == Some(NotAMapping) ==> r == ParseFallback(iteration, evaluator)
    ensures out.ScoreDict? && out.qualityMetrics != Some(NotAMapping) ==>
              && r.qualityScore == out.qualityScore
              && r.issues == []
              && r.suggestions == out.suggestions.GetOr([])
              && r.positiveAspects == out.positiveAspects.GetOr([])
              && (out.qualityMetrics.None? ==> r.metrics == DefaultMetrics)
              && (out.qualityMetrics.Some? ==> r.metrics == MetricsFromDict(out.qualityMetrics.value.d))
    ensures out.OtherOutput? ==> r == ParseText(out.text, iteration, evaluator)
  {
    match out
    case ScoreDict(score, metrics, sugg, pos) => DictToFeedback(score, metrics, sugg, pos, iteration, evaluator)
    case FeedbackObject(fb) => fb.(iterationNumber := iteration, reviewerAgent := evaluator)
    case OtherOutput(text) => ParseText(text, iteration, evaluator)
  }

  /** `QualityMetrics.to_dict`: the six metrics and their mean. */
  function MetricsToDict(m: QualityMetrics): Dict<real> {
    [("complexity_score", m.complexity), ("maintainability_score", m.maintainability),
     ("readability_score", m.readability), ("test_coverage", m.testCoverage),
     ("performance_score", m.performance), ("security_score", m.security),
     ("overall_score", OverallScore(m))]
  }

  /** `StructuredFeedback.to_dict()` as the parser sees it. */
  function FeedbackToDict(fb: StructuredFeedback): EvaluatorOutput {
    ScoreDict(fb.qualityScore, Some(MetricsMapping(MetricsToDict(fb.metrics))),
      Some(fb.suggestions), Some(fb.positiveAspects))
  }

  /** Serialising feedback with `to_dict` and parsing the dict back keeps
      the score, the metrics, the suggestions and the positive aspects; the
      issues are dropped and the stamp is replaced. */
  lemma FeedbackDictRoundTrip(fb: StructuredFeedback, iteration: int, evaluator: string)
    ensures ParseEvaluatorOutput(FeedbackToDict(fb), iteration, evaluator)
            == fb.(issues := [], iterationNumber := iteration, reviewerAgent := evaluator)
  {
    var d := MetricsToDict(fb.metrics);
    GetFirst(d, "complexity_score", 0);
    GetFirst(d, "maintainability_score", 1);
    GetFirst(d, "readability_score", 2);
    GetFirst(d, "test_coverage", 3);
    GetFirst(d, "performance_score", 4);
    GetFirst(d, "security_score", 5);
  }
}
