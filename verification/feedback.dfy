/** The feedback records exchanged between a producing agent and its
    critic (`models/feedback.py`): six quality metrics, structured
    feedback with issues and suggestions, the record of one loop iteration
    and of a whole loop, their dict projections, and aggregation. */
module Feedback {
  import opened Common
  import opened Text
  import opened Values

  datatype FeedbackType = CodeQuality | Functionality | Performance | Security | Maintainability | Style

  datatype Severity = Critical | High | Medium | Low | Info

  datatype Issue = Issue(
    kind: FeedbackType,
    severity: Severity,
    message: string,
    lineNumber: Option<int>,
    codeSnippet: Option<string>,
    suggestion: Option<string>)

  /** An issue built the way the reviewer builds them: no line, no snippet. */
  function MkIssue(kind: FeedbackType, severity: Severity, message: string, suggestion: Option<string>): Issue {
    Issue(kind, severity, message, None, None, suggestion)
  }

  datatype QualityMetrics = QualityMetrics(
    complexity: real,
    maintainability: real,
    readability: real,
    testCoverage: real,
    performance: real,
    security: real)

  /** `QualityMetrics()`: every field defaults to 0.0. */
  const DefaultMetrics := QualityMetrics(0.0, 0.0, 0.0, 0.0, 0.0, 0.0)

  function MinMetric(m: QualityMetrics): real {
    Min(Min(Min(m.complexity, m.maintainability), Min(m.readability, m.testCoverage)), Min(m.performance, m.security))
  }

  function MaxMetric(m: QualityMetrics): real {
    Max(Max(Max(m.complexity, m.maintainability), Max(m.readability, m.testCoverage)), Max(m.performance, m.security))
  }

  /** `overall_score`: the arithmetic mean of the six metrics, so it lies
      between the smallest and the largest of them and equals their common
      value when they agree. */
  function OverallScore(m: QualityMetrics): (r: real)
    ensures 6.0 * r == m.complexity + m.maintainability + m.readability + m.testCoverage + m.performance + m.security
    ensures MinMetric(m) <= r <= MaxMetric(m)
    ensures m.complexity == m.maintainability == m.readability == m.testCoverage == m.performance == m.security
            ==> r == m.complexity
  {
    var sum := m.complexity + m.maintainability + m.readability + m.testCoverage + m.performance + m.security;
    var lo, hi := MinMetric(m), MaxMetric(m);
    assert 6.0 * lo <= sum <= 6.0 * hi;
    sum / 6.0
  }

  /** The source's timestamps are wall-clock readings and are left out. */
  datatype StructuredFeedback = StructuredFeedback(
    qualityScore: real,
    metrics: QualityMetrics,
    issues: seq<Issue>,
    suggestions: seq<string>,
    positiveAspects: seq<string>,
    iterationNumber: int,
    reviewerAgent: string)

  /** `StructuredFeedback(quality_score=s, quality_metrics=m)` with every
      other field at its declared default. */
  function BareFeedback(score: real, m: QualityMetrics): StructuredFeedback {
    StructuredFeedback(score, m, [], [], [], 1, "")
  }

  /** `meets_threshold`. */
  predicate MeetsThreshold(f: StructuredFeedback, threshold: real) {
    f.qualityScore >= threshold
  }

  predicate IsSevere(s: Severity) {
    s == Critical || s == High
  }

  /** `get_critical_issues`: exactly the CRITICAL and HIGH issues. */
  function CriticalIssues(issues: seq<Issue>): (r: seq<Issue>)
    ensures forall x :: x in r <==> x in issues && IsSevere(x.severity)
    ensures |r| <= |issues|
    decreases |issues|
  {
    if |issues| == 0 then []
    else
      var rest := CriticalIssues(issues[1..]);
      if IsSevere(issues[0].severity) then [issues[0]] + rest else rest
  }

  /** The filter keeps the original order: filtering a concatenation is
      the concatenation of the filtered parts. */
  lemma {:induction false} CriticalIssuesConcat(a: seq<Issue>, b: seq<Issue>)
    ensures CriticalIssues(a + b) == CriticalIssues(a) + CriticalIssues(b)
    decreases |a|
  {
    if |a| > 0 {
      assert (a + b)[1..] == a[1..] + b;
      CriticalIssuesConcat(a[1..], b);
    } else {
      assert a + b == b;
    }
  }

  // ---------------------------------------------------------------------
  // Iteration and loop records
  // ---------------------------------------------------------------------

  /** `IterationResult`; `output_data` is `VNone` where the source stores
      `None`. Execution times are wall-clock and left out. */
  datatype IterationResult = IterationResult(
    iterationNumber: int,
    agentType: string,
    inputData: Value,
    outputData: Value,
    feedback: Option<StructuredFeedback>,
    success: bool,
    errorMessage: Option<string>)

  /** `IterativeLoopResult`; the total elapsed time is left out. */
  datatype LoopResult = LoopResult(
    loopName: string,
    totalIterations: int,
    finalQualityScore: real,
    qualityThreshold: real,
    thresholdMet: bool,
    iterations: seq<IterationResult>,
    finalOutput: Value,
    improvementTrend: seq<real>)

  /** `get_quality_improvement`: last minus first score of the trend. */
  function QualityImprovement(trend: seq<real>): real {
    if |trend| < 2 then 0.0 else trend[|trend| - 1] - trend[0]
  }

  /** Sum of the step-to-step changes of a trend. */
  function SumOfSteps(trend: seq<real>): real
    decreases |trend|
  {
    if |trend| < 2 then 0.0 else (trend[1] - trend[0]) + SumOfSteps(trend[1..])
  }

  /** The first-to-last improvement is the sum of the per-iteration changes;
      in particular a trend that never drops improves by at least zero. */
  lemma {:induction false} QualityImprovementTelescopes(trend: seq<real>)
    ensures QualityImprovement(trend) == SumOfSteps(trend)
    ensures (forall i :: 0 < i < |trend| ==> trend[i - 1] <= trend[i]) ==> QualityImprovement(trend) >= 0.0
    decreases |trend|
  {
    if |trend| >= 2 {
      QualityImprovementTelescopes(trend[1..]);
    }
  }

  // ---------------------------------------------------------------------
  // Dict projections (`to_dict`)
  // ---------------------------------------------------------------------

  /** `t` is `s` cut to `n` characters with `"..."` appended, or `s` itself
      when it is short enough. */
  predicate CutAt(s: string, t: string, n: nat) {
    if |s| > n then t == s[..n] + "..." else t == s
  }

  /** `str(x)[:n] + "..." if len(str(x)) > n else str(x)`. */
  function Truncate(s: string, n: nat): (r: string)
    ensures CutAt(s, r, n)
    ensures |r| <= n + 3
    ensures |s| <= n ==> r == s
    ensures |r| <= n ==> r == s
  {
    if |s| > n then s[..n] + "..." else s
  }

  /** Cutting twice at the same length cuts once. */
  lemma TruncateIdempotent(s: string, n: nat)
    ensures Truncate(Truncate(s, n), n) == Truncate(s, n)
  {
    if |s| > n {
      var t := s[..n] + "...";
      assert t[..n] == s[..n];
    }
  }

  datatype IterationView = IterationView(
    iterationNumber: int,
    agentType: string,
    inputData: string,
    outputData: string,
    feedback: Option<StructuredFeedback>,
    success: bool,
    errorMessage: Option<string>)

  const IterationDataLimit: nat := 500
  const FinalOutputLimit: nat := 1000

  /** `IterationResult.to_dict`: both data fields rendered and cut at 500
      characters, everything else carried over. */
  function IterationToDict(r: IterationResult, render: Renderer): (v: IterationView)
    ensures CutAt(render(r.inputData), v.inputData, IterationDataLimit)
    ensures CutAt(render(r.outputData), v.outputData, IterationDataLimit)
    ensures |v.inputData| <= 503 && |v.outputData| <= 503
    ensures v.iterationNumber == r.iterationNumber && v.success == r.success
    ensures v.errorMessage == r.errorMessage && v.feedback == r.feedback
  {
    IterationView(
      r.iterationNumber, r.agentType,
      Truncate(render(r.inputData), IterationDataLimit),
      Truncate(render(r.outputData), IterationDataLimit),
      r.feedback, r.success, r.errorMessage)
  }

  datatype LoopView = LoopView(
    loopName: string,
    totalIterations: int,
    finalQualityScore: real,
    qualityThreshold: real,
    thresholdMet: bool,
    iterations: seq<IterationView>,
    finalOutput: string,
    improvementTrend: seq<real>,
    qualityImprovement: real)

  /** `IterativeLoopResult.to_dict`: the final output cut at 1000
      characters, one view per iteration in order, and the improvement. */
  function LoopToDict(l: LoopResult, render: Renderer): (v: LoopView)
    ensures CutAt(render(l.finalOutput), v.finalOutput, FinalOutputLimit)
    ensures |v.finalOutput| <= 1003
    ensures |v.iterations| == |l.iterations|
    ensures forall i :: 0 <= i < |l.iterations| ==> v.iterations[i] == IterationToDict(l.iterations[i], render)
    ensures v.improvementTrend == l.improvementTrend
    ensures |l.improvementTrend| >= 2 ==> v.qualityImprovement == l.improvementTrend[|l.improvementTrend| - 1] - l.improvementTrend[0]
    ensures |l.improvementTrend| < 2 ==> v.qualityImprovement == 0.0
  {
    LoopView(
      l.loopName, l.totalIterations, l.finalQualityScore, l.qualityThreshold, l.thresholdMet,
      seq(|l.iterations|, i requires 0 <= i < |l.iterations| => IterationToDict(l.iterations[i], render)),
      Truncate(render(l.finalOutput), FinalOutputLimit),
      l.improvementTrend,
      QualityImprovement(l.improvementTrend))
  }

  // The same projections as Python values, for callers that nest them in
  // their own results. Execution times and timestamps are left out.

  function OptStr(o: Option<string>): Value {
    if o.Some? then VStr(o.value) else VNone
  }

  function KindName(t: FeedbackType): string {
    match t
    case CodeQuality => "code_quality"
    case Functionality => "functionality"
    case Performance => "performance"
    case Security => "security"
    case Maintainability => "maintainability"
    case Style => "style"
  }

  function SeverityName(s: Severity): string {
    match s
    case Critical => "critical"
    case High => "high"
    case Medium => "medium"
    case Low => "low"
    case Info => "info"
  }

  /** `FeedbackIssue.to_dict`. */
  function IssueValue(i: Issue): Value {
    VDict([("type", VStr(KindName(i.kind))), ("severity", VStr(SeverityName(i.severity))),
           ("message", VStr(i.message)),
           ("line_number", if i.lineNumber.Some? then VInt(i.lineNumber.value) else VNone),
           ("code_snippet", OptStr(i.codeSnippet)), ("suggestion", OptStr(i.suggestion))])
  }

  /** `QualityMetrics.to_dict`, with the overall score. */
  function MetricsValue(m: QualityMetrics): Value {
    VDict([("complexity_score", VReal(m.complexity)), ("maintainability_score", VReal(m.maintainability)),
           ("readability_score", VReal(m.readability)), ("test_coverage", VReal(m.testCoverage)),
           ("performance_score", VReal(m.performance)), ("security_score", VReal(m.security)),
           ("overall_score", VReal(OverallScore(m)))])
  }

  function StringsValue(xs: seq<string>): Value {
    VList(seq(|xs|, i requires 0 <= i < |xs| => VStr(xs[i])))
  }

  /** `StructuredFeedback.to_dict`. */
  function FeedbackValue(f: StructuredFeedback): Value {
    VDict([("quality_score", VReal(f.qualityScore)), ("quality_metrics", MetricsValue(f.metrics)),
           ("issues", VList(seq(|f.issues|, i requires 0 <= i < |f.issues| => IssueValue(f.issues[i])))),
           ("suggestions", StringsValue(f.suggestions)), ("positive_aspects", StringsValue(f.positiveAspects)),
           ("iteration_number", VInt(f.iterationNumber)), ("reviewer_agent", VStr(f.reviewerAgent))])
  }

  function IterationViewValue(v: IterationView): Value {
    VDict([("iteration_number", VInt(v.iterationNumber)), ("agent_type", VStr(v.agentType)),
           ("input_data", VStr(v.inputData)), ("output_data", VStr(v.outputData)),
           ("feedback", if v.feedback.Some? then FeedbackValue(v.feedback.value) else VNone),
           ("success", VBool(v.success)), ("error_message", OptStr(v.errorMessage))])
  }

  function RealsValue(xs: seq<real>): Value {
    VList(seq(|xs|, i requires 0 <= i < |xs| => VReal(xs[i])))
  }

  /** `IterativeLoopResult.to_dict()` as a Python value. */
  function LoopValue(l: LoopResult, render: Renderer): Value {
    var v := LoopToDict(l, render);
    VDict([("loop_name", VStr(v.loopName)), ("total_iterations", VInt(v.totalIterations)),
           ("final_quality_score", VReal(v.finalQualityScore)), ("quality_threshold", VReal(v.qualityThreshold)),
           ("threshold_met", VBool(v.thresholdMet)),
           ("iterations", VList(seq(|v.iterations|, i requires 0 <= i < |v.iterations| => IterationViewValue(v.iterations[i])))),
           ("final_output", VStr(v.finalOutput)), ("improvement_trend", RealsValue(v.improvementTrend)),
           ("quality_improvement", VReal(v.qualityImprovement))])
  }

  // ---------------------------------------------------------------------
  // Aggregation
  // ---------------------------------------------------------------------

  function Sum(xs: seq<real>): real
    decreases |xs|
  {
    if |xs| == 0 then 0.0 else xs[0] + Sum(xs[1..])
  }

  function Mean(xs: seq<real>): (m: real)
    requires |xs| > 0
    ensures m * (|xs| as real) == Sum(xs)
  {
    Sum(xs) / (|xs| as real)
  }

  lemma {:induction false} SumBounds(xs: seq<real>, lo: real, hi: real)
    requires forall i :: 0 <= i < |xs| ==> lo <= xs[i] <= hi
    ensures (|xs| as real) * lo <= Sum(xs) <= (|xs| as real) * hi
    decreases |xs|
  {
    if |xs| > 0 {
      SumBounds(xs[1..], lo, hi);
    }
  }

  /** A mean lies within any bounds all its values respect. */
  lemma MeanBounds(xs: seq<real>, lo: real, hi: real)
    requires |xs| > 0
    requires forall i :: 0 <= i < |xs| ==> lo <= xs[i] <= hi
    ensures lo <= Mean(xs) <= hi
  {
    SumBounds(xs, lo, hi);
    var n := |xs| as real;
    assert n * lo <= Sum(xs) <= n * hi;
    assert Mean(xs) * n == Sum(xs);
  }

  function ScoreOf(f: StructuredFeedback): real { f.qualityScore }
  function ComplexityOf(f: StructuredFeedback): real { f.metrics.complexity }
  function MaintainabilityOf(f: StructuredFeedback): real { f.metrics.maintainability }
  function ReadabilityOf(f: StructuredFeedback): real { f.metrics.readability }
  function TestCoverageOf(f: StructuredFeedback): real { f.metrics.testCoverage }
  function PerformanceOf(f: StructuredFeedback): real { f.metrics.performance }
  function SecurityOf(f: StructuredFeedback): real { f.metrics.security }

  function Column(fs: seq<StructuredFeedback>, field: StructuredFeedback -> real): (c: seq<real>)
    ensures |c| == |fs| && forall i :: 0 <= i < |fs| ==> c[i] == field(fs[i])
  {
    seq(|fs|, i requires 0 <= i < |fs| => field(fs[i]))
  }

  function AllIssues(fs: seq<StructuredFeedback>): seq<Issue>
    decreases |fs|
  {
    if |fs| == 0 then [] else fs[0].issues + AllIssues(fs[1..])
  }

  function AllSuggestions(fs: seq<StructuredFeedback>): seq<string>
    decreases |fs|
  {
    if |fs| == 0 then [] else fs[0].suggestions + AllSuggestions(fs[1..])
  }

  function AllPositives(fs: seq<StructuredFeedback>): seq<string>
    decreases |fs|
  {
    if |fs| == 0 then [] else fs[0].positiveAspects + AllPositives(fs[1..])
  }

  lemma {:induction false} InAllSuggestions(fs: seq<StructuredFeedback>, s: string)
    ensures s in AllSuggestions(fs) <==> exists i :: 0 <= i < |fs| && s in fs[i].suggestions
    decreases |fs|
  {
    if |fs| > 0 {
      InAllSuggestions(fs[1..], s);
      if s in AllSuggestions(fs[1..]) {
        var i :| 0 <= i < |fs[1..]| && s in fs[1..][i].suggestions;
        assert s in fs[i + 1].suggestions;
      }
      if exists i :: 0 <= i < |fs| && s in fs[i].suggestions {
        var i :| 0 <= i < |fs| && s in fs[i].suggestions;
        if i > 0 {
          assert s in fs[1..][i - 1].suggestions;
        }
      }
    }
  }

  lemma {:induction false} InAllPositives(fs: seq<StructuredFeedback>, s: string)
    ensures s in AllPositives(fs) <==> exists i :: 0 <= i < |fs| && s in fs[i].positiveAspects
    decreases |fs|
  {
    if |fs| > 0 {
      InAllPositives(fs[1..], s);
      if s in AllPositives(fs[1..]) {
        var i :| 0 <= i < |fs[1..]| && s in fs[1..][i].positiveAspects;
        assert s in fs[i + 1].positiveAspects;
      }
      if exists i :: 0 <= i < |fs| && s in fs[i].positiveAspects {
        var i :| 0 <= i < |fs| && s in fs[i].positiveAspects;
        if i > 0 {
          assert s in fs[1..][i - 1].positiveAspects;
        }
      }
    }
  }

  predicate NoDuplicates<T(==)>(xs: seq<T>) {
    forall i, j :: 0 <= i < j < |xs| ==> xs[i] != xs[j]
  }

  /** `list(set(xs))`: the same elements, each once. The source's order is
      hash order; this model keeps first occurrences. */
  function Dedup(xs: seq<string>): (r: seq<string>)
    ensures forall x :: x in r <==> x in xs
    ensures NoDuplicates(r)
    decreases |xs|
  {
    if |xs| == 0 then []
    else
      var r := Dedup(xs[..|xs| - 1]);
      var x := xs[|xs| - 1];
      assert forall y :: y in xs <==> y in xs[..|xs| - 1] || y == x by {
        assert xs == xs[..|xs| - 1] + [x];
      }
      if x in r then r else r + [x]
  }

  /** Per-field averages of the six metrics over non-empty feedback. */
  function MeanMetrics(fs: seq<StructuredFeedback>): (m: QualityMetrics)
    requires |fs| > 0
    ensures m.complexity * (|fs| as real) == Sum(Column(fs, ComplexityOf))
    ensures m.maintainability * (|fs| as real) == Sum(Column(fs, MaintainabilityOf))
    ensures m.readability * (|fs| as real) == Sum(Column(fs, ReadabilityOf))
    ensures m.testCoverage * (|fs| as real) == Sum(Column(fs, TestCoverageOf))
    ensures m.performance * (|fs| as real) == Sum(Column(fs, PerformanceOf))
    ensures m.security * (|fs| as real) == Sum(Column(fs, SecurityOf))
  {
    QualityMetrics(
      Mean(Column(fs, ComplexityOf)),
      Mean(Column(fs, MaintainabilityOf)),
      Mean(Column(fs, ReadabilityOf)),
      Mean(Column(fs, TestCoverageOf)),
      Mean(Column(fs, PerformanceOf)),
      Mean(Column(fs, SecurityOf)))
  }

  /** Every review's suggestions, each once. */
  function CombinedSuggestions(fs: seq<StructuredFeedback>): (r: seq<string>)
    ensures NoDuplicates(r)
    ensures forall s :: s in r <==> exists i :: 0 <= i < |fs| && s in fs[i].suggestions
  {
    forall s ensures s in AllSuggestions(fs) <==> exists i :: 0 <= i < |fs| && s in fs[i].suggestions {
      InAllSuggestions(fs, s);
    }
    Dedup(AllSuggestions(fs))
  }

  /** Every review's positive aspects, each once. */
  function CombinedPositives(fs: seq<StructuredFeedback>): (r: seq<string>)
    ensures NoDuplicates(r)
    ensures forall s :: s in r <==> exists i :: 0 <= i < |fs| && s in fs[i].positiveAspects
  {
    forall s ensures s in AllPositives(fs) <==> exists i :: 0 <= i < |fs| && s in fs[i].positiveAspects {
      InAllPositives(fs, s);
    }
    Dedup(AllPositives(fs))
  }

  /** `FeedbackProcessor.aggregate_feedback`. */
  function Aggregate(fs: seq<StructuredFeedback>): (r: StructuredFeedback)
    ensures |fs| == 0 ==> r == BareFeedback(0.0, DefaultMetrics)
    ensures |fs| > 0 ==> r.reviewerAgent == "aggregated" && r.iterationNumber == 1
    ensures |fs| > 0 ==> r.issues == AllIssues(fs)
    ensures |fs| > 0 ==> NoDuplicates(r.suggestions) && NoDuplicates(r.positiveAspects)
    ensures |fs| > 0 ==> forall s :: s in r.suggestions <==> exists i :: 0 <= i < |fs| && s in fs[i].suggestions
    ensures |fs| > 0 ==> forall s :: s in r.positiveAspects <==> exists i :: 0 <= i < |fs| && s in fs[i].positiveAspects
    ensures |fs| > 0 ==> r.qualityScore * (|fs| as real) == Sum(Column(fs, ScoreOf))
    ensures |fs| > 0 ==> r.metrics == MeanMetrics(fs)
  {
    if |fs| == 0 then BareFeedback(0.0, DefaultMetrics)
    else
      StructuredFeedback(
        Mean(Column(fs, ScoreOf)), MeanMetrics(fs), AllIssues(fs),
        CombinedSuggestions(fs), CombinedPositives(fs), 1, "aggregated")
  }

  predicate InScoreRange(f: StructuredFeedback) {
    0.0 <= f.qualityScore <= 100.0
    && 0.0 <= MinMetric(f.metrics) && MaxMetric(f.metrics) <= 100.0
  }

  /** Aggregating feedback whose scores and metrics all lie in [0, 100]
      yields a score and metrics in [0, 100]. */
  lemma AggregateStaysInRange(fs: seq<StructuredFeedback>)
    requires forall i :: 0 <= i < |fs| ==> InScoreRange(fs[i])
    ensures InScoreRange(Aggregate(fs))
  {
    if |fs| > 0 {
      MeanBounds(Column(fs, ScoreOf), 0.0, 100.0);
      MeanBounds(Column(fs, ComplexityOf), 0.0, 100.0);
      MeanBounds(Column(fs, MaintainabilityOf), 0.0, 100.0);
      MeanBounds(Column(fs, ReadabilityOf), 0.0, 100.0);
      MeanBounds(Column(fs, TestCoverageOf), 0.0, 100.0);
      MeanBounds(Column(fs, PerformanceOf), 0.0, 100.0);
      MeanBounds(Column(fs, SecurityOf), 0.0, 100.0);
    }
  }
}
