/** The heuristic code reviewer of `agents/code_reviewer_agent.py`
    (`CodeReviewerAgent`). Every judgement is a substring or pattern test on
    the code; the agent's display name is a parameter. */
module Reviewer {
  import opened Common
  import opened Text
  import opened Dicts
  import opened Values
  import opened Feedback

  // ---------------------------------------------------------------------
  // validate_input / _extract_code_from_input
  // ---------------------------------------------------------------------

  const NotPythonWarning := "Input doesn't appear to contain Python code"
  const TooShortWarning := "Code seems very short for meaningful review"
  const SmellSuggestion := "Code contains TODO/FIXME comments that should be addressed"
  const KeySuggestion := "Consider including 'code' or 'source' key in input data"

  const PythonKeywords: seq<string> := ["def ", "class ", "import ", "from ", "if __name__"]
  const CodeSmells: seq<string> := ["TODO", "FIXME", "HACK", "XXX"]

  lemma WarningsDistinct()
    ensures NotPythonWarning != TooShortWarning
  {
    assert NotPythonWarning[0] == 'I';
    assert TooShortWarning[0] == 'C';
  }

  /** The checks on non-empty code given as a string. */
  function ValidateText(s: string): (r: Validation)
    ensures r.isValid
    ensures NotPythonWarning in r.warnings <==> !ContainsAny(s, PythonKeywords)
    ensures TooShortWarning in r.warnings <==> |Strip(s)| < 50
    ensures r.suggestions == (if ContainsAny(Upper(s), CodeSmells) then [SmellSuggestion] else [])
  {
    WarningsDistinct();
    Validation(true,
      (if !ContainsAny(s, PythonKeywords) then [NotPythonWarning] else [])
      + (if |Strip(s)| < 50 then [TooShortWarning] else []),
      if ContainsAny(Upper(s), CodeSmells) then [SmellSuggestion] else [])
  }

  /** `validate_input`: only a falsy input is invalid; warnings and
      suggestions are advice. */
  function ValidateInput(v: Value): (r: Validation)
    ensures r.isValid <==> Truthy(v)
    ensures !Truthy(v) || !(v.VStr? || v.VDict?) ==> r.warnings == [] && r.suggestions == []
    ensures Truthy(v) && v.VStr? ==>
      && (NotPythonWarning in r.warnings <==> !ContainsAny(v.s, PythonKeywords))
      && (TooShortWarning in r.warnings <==> |Strip(v.s)| < 50)
      && (r.suggestions == (if ContainsAny(Upper(v.s), CodeSmells) then [SmellSuggestion] else []))
    ensures Truthy(v) && v.VDict? ==>
      r.warnings == [] && (r.suggestions == [KeySuggestion] <==> !HasKey(v.entries, "code") && !HasKey(v.entries, "source"))
  {
    if !Truthy(v) then Validation(false, [], [])
    else match v
      case VStr(s) => ValidateText(s)
      case VDict(d) =>
        Validation(true, [], if !HasKey(d, "code") && !HasKey(d, "source") then [KeySuggestion] else [])
      case _ => Validation(true, [], [])
  }

  /** `_extract_code_from_input`: a string as it is; from a dict the first
      of `current_code`, `code`, `source` present (whatever its type);
      otherwise `str()` of the input. */
  function ExtractCode(v: Value, render: Renderer): (r: Value)
    ensures v.VStr? ==> r == v
    ensures v.VDict? && HasKey(v.entries, "current_code") ==> Some(r) == Get(v.entries, "current_code")
    ensures v.VDict? && !HasKey(v.entries, "current_code") && HasKey(v.entries, "code") ==>
              Some(r) == Get(v.entries, "code")
    ensures (v.VDict? && !HasKey(v.entries, "current_code") && !HasKey(v.entries, "code") &&
             HasKey(v.entries, "source")) ==> Some(r) == Get(v.entries, "source")
    ensures (v.VDict? && !HasKey(v.entries, "current_code") && !HasKey(v.entries, "code") &&
             !HasKey(v.entries, "source")) ==> r == VStr(render(v))
    ensures !v.VStr? && !v.VDict? ==> r == VStr(render(v))
  {
    if v.VStr? then v
    else if v.VDict? then
      var d := v.entries;
      if HasKey(d, "current_code") then Get(d, "current_code").value
      else if HasKey(d, "code") then Get(d, "code").value
      else if HasKey(d, "source") then Get(d, "source").value
      else VStr(render(v))
    else VStr(render(v))
  }

  // ---------------------------------------------------------------------
  // _calculate_quality_metrics
  // ---------------------------------------------------------------------

  /** The number of lines with something other than whitespace. */
  function NonBlankCount(lines: seq<string>): (n: nat)
    ensures n <= |lines|
    decreases |lines|
  {
    if |lines| == 0 then 0
    else (if |Strip(lines[0])| > 0 then 1 else 0) + NonBlankCount(lines[1..])
  }

  /** The 1-based numbers of the lines longer than 100 characters, from
      line `from + 1` on, in increasing order. */
  function LongLineNumbers(lines: seq<string>, from: nat): (r: seq<nat>)
    requires from <= |lines|
    ensures forall k :: k in r <==> from < k <= |lines| && |lines[k - 1]| > 100
    ensures forall a, b :: 0 <= a < b < |r| ==> r[a] < r[b]
    ensures |r| <= |lines| - from
    decreases |lines| - from
  {
    if from == |lines| then []
    else
      var rest := LongLineNumbers(lines, from + 1);
      assert forall j :: 0 <= j < |rest| ==> rest[j] > from + 1 by {
        forall j | 0 <= j < |rest| ensures rest[j] > from + 1 {
          assert rest[j] in rest;
        }
      }
      if |lines[from]| > 100 then [from + 1] + rest else rest
  }

  predicate Docstrings(code: string) {
    Contains(code, "\"\"\"") || Contains(code, "'''")
  }

  /** The six scores before clamping, in the order of `QualityMetrics`. */
  function RawComplexity(code: string): real {
    var lines := Split(code, '\n');
    80.0 - (if NonBlankCount(lines) > 100 then 10.0 else 0.0)
         - (if Count(code, "if ") + Count(code, "for ") + Count(code, "while ") > 10 then 15.0 else 0.0)
  }

  function RawMaintainability(code: string): real {
    75.0 + (if Contains(code, "def ") then 10.0 else 0.0)
         + (if Contains(code, "class ") then 5.0 else 0.0)
         + (if Docstrings(code) then 10.0 else 0.0)
  }

  /** `re.search(r'#.*', code)` holds exactly when `#` occurs. */
  function RawReadability(code: string): real {
    var lines := Split(code, '\n');
    70.0 + (if Contains(code, "#") then 10.0 else 0.0)
         + (if (|LongLineNumbers(lines, 0)| as real) < (|lines| as real) * 0.1 then 10.0 else 0.0)
  }

  predicate TestMarkers(code: string) {
    Contains(code, "test_") || Contains(code, "Test") || Contains(code, "assert")
  }

  function RawPerformance(code: string): real {
    75.0 + (if Contains(code, "import numpy") || Contains(code, "import pandas") then 10.0 else 0.0)
         - (if Contains(code, "for ") && Contains(code, "range(") then 5.0 else 0.0)
  }

  predicate DynamicCode(code: string) {
    Contains(code, "eval(") || Contains(code, "exec(")
  }

  function RawSecurity(code: string): real {
    80.0 - (if DynamicCode(code) then 30.0 else 0.0)
         - (if Contains(code, "input(") && !Contains(code, "int(") then 10.0 else 0.0)
  }

  /** `_calculate_quality_metrics`: every score clamped to [0, 100]. */
  function Metrics(code: string): (m: QualityMetrics)
    ensures 0.0 <= m.complexity <= 100.0 && 0.0 <= m.maintainability <= 100.0
    ensures 0.0 <= m.readability <= 100.0 && 0.0 <= m.testCoverage <= 100.0
    ensures 0.0 <= m.performance <= 100.0 && 0.0 <= m.security <= 100.0
    ensures m.testCoverage == (if TestMarkers(code) then 60.0 else 0.0)
    ensures DynamicCode(code) ==> m.security <= 50.0
  {
    QualityMetrics(
      Clamp(RawComplexity(code), 0.0, 100.0),
      Clamp(RawMaintainability(code), 0.0, 100.0),
      Clamp(RawReadability(code), 0.0, 100.0),
      Clamp(if TestMarkers(code) then 60.0 else 0.0, 0.0, 100.0),
      Clamp(RawPerformance(code), 0.0, 100.0),
      Clamp(RawSecurity(code), 0.0, 100.0))
  }

  /** The clamp never bites: every raw score already lies in [0, 100], so
      the metrics are the raw scores. */
  lemma ClampInactive(code: string)
    ensures Metrics(code) == QualityMetrics(RawComplexity(code), RawMaintainability(code), RawReadability(code),
                                            if TestMarkers(code) then 60.0 else 0.0,
                                            RawPerformance(code), RawSecurity(code))
    ensures 55.0 <= RawComplexity(code) <= 80.0 && 75.0 <= RawMaintainability(code) <= 100.0
    ensures 70.0 <= RawReadability(code) <= 90.0 && 70.0 <= RawPerformance(code) <= 85.0
    ensures 40.0 <= RawSecurity(code) <= 80.0
  {
  }

  // ---------------------------------------------------------------------
  // Issues
  // ---------------------------------------------------------------------

  const EvalIssue := MkIssue(Security, Critical, "Use of eval() function poses security risk",
    Some("Replace eval() with safer alternatives like ast.literal_eval() for simple expressions"))
  const ExecIssue := MkIssue(Security, Critical, "Use of exec() function poses security risk",
    Some("Avoid exec() or implement strict input validation"))
  const InputIssue := MkIssue(Security, Medium, "Unvalidated user input detected",
    Some("Validate and sanitize user input before processing"))
  const DocstringIssue := MkIssue(Maintainability, Medium, "Functions lack docstrings",
    Some("Add docstrings to document function purpose and parameters"))
  const RangeLenIssue := MkIssue(Performance, Medium, "Inefficient loop pattern detected",
    Some("Use 'for item in list' or 'for i, item in enumerate(list)' instead of range(len())"))
  const ConcatIssue := MkIssue(Performance, Medium, "String concatenation in loop may be inefficient",
    Some("Consider using join() or f-strings for better performance"))

  /** `input\([^)]*\)` matching at the start of `s`: `input(` and a later
      `)`, since the class may run over anything but `)`. */
  predicate InputCallAt(s: string) {
    StartsWith(s, "input(") && ')' in s[6..]
  }

  predicate InputCall(code: string) {
    Anywhere(code, InputCallAt)
  }

  /** `for\s+\w+\s+in\s+range\(len\(` matching at the start of `s`. Each
      run is maximal, since a whitespace run cannot end in a word
      character and the reverse. */
  predicate RangeLenAt(s: string) {
    StartsWith(s, "for") &&
    var a := s[3..]; var w1 := SpaceRun(a);
    w1 >= 1 &&
    var b := a[w1..]; var w2 := WordRun(b);
    w2 >= 1 &&
    var c := b[w2..]; var w3 := SpaceRun(c);
    w3 >= 1 &&
    var d := c[w3..];
    StartsWith(d, "in") &&
    var e := d[2..]; var w4 := SpaceRun(e);
    w4 >= 1 && StartsWith(e[w4..], "range(len(")
  }

  predicate RangeLenLoop(code: string) {
    Anywhere(code, RangeLenAt)
  }

  /** `_check_security_issues`. */
  function SecurityIssues(code: string): (r: seq<Issue>)
    ensures EvalIssue in r <==> Contains(code, "eval(")
    ensures ExecIssue in r <==> Contains(code, "exec(")
    ensures InputIssue in r <==> InputCall(code) && !Contains(code, "int(")
    ensures forall i :: 0 <= i < |r| ==> r[i] in [EvalIssue, ExecIssue, InputIssue]
  {
    assert |EvalIssue.suggestion.value| == 85 && |ExecIssue.suggestion.value| == 49;
    assert InputIssue.severity == Medium;
    (if Contains(code, "eval(") then [EvalIssue] else [])
    + (if Contains(code, "exec(") then [ExecIssue] else [])
    + (if InputCall(code) && !Contains(code, "int(") then [InputIssue] else [])
  }

  /** The comma-separated body of a Python list of ints. */
  function JoinNumbers(ns: seq<nat>): string
    decreases |ns|
  {
    if |ns| == 0 then ""
    else if |ns| == 1 then NatToString(ns[0])
    else NatToString(ns[0]) + ", " + JoinNumbers(ns[1..])
  }

  /** `str()` of a list of ints. */
  function ListRepr(ns: seq<nat>): (r: string)
    ensures |r| >= 2 && r[0] == '[' && r[|r| - 1] == ']'
  {
    "[" + JoinNumbers(ns) + "]"
  }

  const LongLinePrefix := "Lines exceed 100 characters: "

  /** The line numbers the message shows: at most the first three. */
  function Shown(long: seq<nat>): (r: seq<nat>)
    ensures |r| <= 3 && |r| <= |long| && r == long[..|r|] && (|r| == 3 || r == long)
  {
    long[..if |long| < 3 then |long| else 3]
  }

  /** The long-line message: the first three line numbers, and "..." after
      them exactly when there are more. */
  function LongLineMessage(long: seq<nat>): (msg: string)
    ensures |msg| >= |LongLinePrefix| + 2 && StartsWith(msg, LongLinePrefix)
    ensures StartsWith(msg[|LongLinePrefix|..], ListRepr(Shown(long)))
    ensures |long| > 3 <==> msg[|msg| - 3..] == "..."
  {
    var shown := ListRepr(Shown(long));
    var msg := LongLinePrefix + shown + (if |long| > 3 then "..." else "");
    assert |LongLinePrefix| == 29;
    assert msg[..|LongLinePrefix|] == LongLinePrefix;
    assert msg[|LongLinePrefix|..][..|shown|] == shown;
    assert |long| <= 3 ==> msg[|msg| - 1] == ']';
    msg
  }

  function LongLineIssue(long: seq<nat>): Issue {
    MkIssue(Style, Low, LongLineMessage(long), Some("Break long lines for better readability (PEP 8)"))
  }

  /** `_check_style_issues`: the long-line issue when some line exceeds
      100 characters, then the docstring issue. */
  function StyleIssues(code: string): (r: seq<Issue>)
    ensures var long := LongLineNumbers(Split(code, '\n'), 0);
      && (|long| > 0 <==> LongLineIssue(long) in r)
      && (DocstringIssue in r <==> Contains(code, "def ") && !Docstrings(code))
      && |r| <= 2
    ensures forall i :: 0 <= i < |r| ==> r[i].severity == Low || r[i].severity == Medium
  {
    var long := LongLineNumbers(Split(code, '\n'), 0);
    assert LongLineIssue(long).severity == Low && DocstringIssue.severity == Medium;
    (if |long| > 0 then [LongLineIssue(long)] else [])
    + (if Contains(code, "def ") && !Docstrings(code) then [DocstringIssue] else [])
  }

  /** `_check_performance_issues`. */
  function PerformanceIssues(code: string): (r: seq<Issue>)
    ensures RangeLenIssue in r <==> RangeLenLoop(code)
    ensures ConcatIssue in r <==> Contains(code, "for ") && Contains(code, "+=") && Contains(code, "str")
    ensures forall i :: 0 <= i < |r| ==> r[i] in [RangeLenIssue, ConcatIssue]
  {
    PerformanceIssuesFor(RangeLenLoop(code), Contains(code, "for ") && Contains(code, "+=") && Contains(code, "str"))
  }

  function PerformanceIssuesFor(rangeLen: bool, concat: bool): (r: seq<Issue>)
    ensures RangeLenIssue in r <==> rangeLen
    ensures ConcatIssue in r <==> concat
    ensures forall i :: 0 <= i < |r| ==> r[i] in [RangeLenIssue, ConcatIssue]
  {
    assert |RangeLenIssue.message| == 33 && |ConcatIssue.message| == 47;
    (if rangeLen then [RangeLenIssue] else []) + (if concat then [ConcatIssue] else [])
  }

  // ---------------------------------------------------------------------
  // Suggestions and positive aspects
  // ---------------------------------------------------------------------

  const ImportsSuggestion := "Consider organizing imports at the top of the file"
  const ReturnSuggestion := "Consider adding return statements to functions for clarity"
  const InitSuggestion := "Consider adding __init__ method to classes"
  const LoggingSuggestion := "Consider using logging instead of print statements for production code"

  /** `_generate_suggestions`. */
  function Suggestions(code: string): (r: seq<string>)
    ensures ImportsSuggestion in r <==> !Contains(code, "import ") && !Contains(code, "from ")
    ensures ReturnSuggestion in r <==> Contains(code, "def ") && !Contains(code, "return")
    ensures InitSuggestion in r <==> Contains(code, "class ") && !Contains(code, "__init__")
    ensures LoggingSuggestion in r <==> Contains(code, "print(")
    ensures |r| <= 4
  {
    assert |ImportsSuggestion| == 50 && |ReturnSuggestion| == 58 && |InitSuggestion| == 42 && |LoggingSuggestion| == 70;
    (if !Contains(code, "import ") && !Contains(code, "from ") then [ImportsSuggestion] else [])
    + (if Contains(code, "def ") && !Contains(code, "return") then [ReturnSuggestion] else [])
    + (if Contains(code, "class ") && !Contains(code, "__init__") then [InitSuggestion] else [])
    + (if Contains(code, "print(") then [LoggingSuggestion] else [])
  }

  const DocstringPraise := "Good use of docstrings for documentation"
  const CommentPraise := "Code includes helpful comments"
  const FunctionPraise := "Code is well-structured with functions"
  const ClassPraise := "Object-oriented design approach"
  const ErrorHandlingPraise := "Proper error handling implemented"

  /** `_find_positive_aspects`. */
  function PositiveAspects(code: string): (r: seq<string>)
    ensures DocstringPraise in r <==> Docstrings(code)
    ensures CommentPraise in r <==> Contains(code, "#")
    ensures FunctionPraise in r <==> Contains(code, "def ")
    ensures ClassPraise in r <==> Contains(code, "class ")
    ensures ErrorHandlingPraise in r <==> Contains(code, "try:") && Contains(code, "except")
    ensures |r| <= 5
  {
    assert |DocstringPraise| == 40 && |CommentPraise| == 30 && |FunctionPraise| == 38;
    assert |ClassPraise| == 31 && |ErrorHandlingPraise| == 33;
    (if Docstrings(code) then [DocstringPraise] else [])
    + (if Contains(code, "#") then [CommentPraise] else [])
    + (if Contains(code, "def ") then [FunctionPraise] else [])
    + (if Contains(code, "class ") then [ClassPraise] else [])
    + (if Contains(code, "try:") && Contains(code, "except") then [ErrorHandlingPraise] else [])
  }

  // ---------------------------------------------------------------------
  // _analyze_code / process
  // ---------------------------------------------------------------------

  predicate HasSeverity(issues: seq<Issue>, s: Severity) {
    exists i :: 0 <= i < |issues| && issues[i].severity == s
  }

  /** The severity cap: a critical issue caps the score at 40, otherwise a
      high one caps it at 70, otherwise the score stands. */
  function CapScore(score: real, issues: seq<Issue>): (r: real)
    ensures r <= score
    ensures HasSeverity(issues, Critical) ==> r <= 40.0 && (score <= 40.0 ==> r == score)
    ensures HasSeverity(issues, High) && !HasSeverity(issues, Critical) ==> r <= 70.0 && (score <= 70.0 ==> r == score)
    ensures !HasSeverity(issues, Critical) && !HasSeverity(issues, High) ==> r == score
    ensures r < score ==> (HasSeverity(issues, Critical) && r == 40.0) || (HasSeverity(issues, High) && r == 70.0)
  {
    if HasSeverity(issues, Critical) then Min(score, 40.0)
    else if HasSeverity(issues, High) then Min(score, 70.0)
    else score
  }

  function AllReviewIssues(code: string): seq<Issue> {
    SecurityIssues(code) + StyleIssues(code) + PerformanceIssues(code)
  }

  /** `_analyze_code`. */
  function Analyze(code: string, name: string): (f: StructuredFeedback)
    ensures f.metrics == Metrics(code)
    ensures f.issues == SecurityIssues(code) + StyleIssues(code) + PerformanceIssues(code)
    ensures f.qualityScore == CapScore(OverallScore(f.metrics), f.issues)
    ensures f.suggestions == Suggestions(code) && f.positiveAspects == PositiveAspects(code)
    ensures f.iterationNumber == 1 && f.reviewerAgent == name
  {
    var m := Metrics(code);
    var issues := AllReviewIssues(code);
    StructuredFeedback(CapScore(OverallScore(m), issues), m, issues,
                       Suggestions(code), PositiveAspects(code), 1, name)
  }

  lemma HasSeverityConcat(a: seq<Issue>, b: seq<Issue>, sev: Severity)
    ensures HasSeverity(a + b, sev) <==> HasSeverity(a, sev) || HasSeverity(b, sev)
  {
    if HasSeverity(a + b, sev) {
      var i :| 0 <= i < |a + b| && (a + b)[i].severity == sev;
      if i >= |a| {
        assert b[i - |a|] == (a + b)[i];
      }
    }
    if HasSeverity(b, sev) {
      var i :| 0 <= i < |b| && b[i].severity == sev;
      assert (a + b)[i + |a|] == b[i];
    }
    if HasSeverity(a, sev) {
      var i :| 0 <= i < |a| && a[i].severity == sev;
      assert (a + b)[i] == a[i];
    }
  }

  /** The security check is the only source of critical issues, through
      `eval(` and `exec(`. */
  lemma SecuritySeverities(code: string)
    ensures !HasSeverity(SecurityIssues(code), High)
    ensures HasSeverity(SecurityIssues(code), Critical) <==> DynamicCode(code)
  {
    var s := SecurityIssues(code);
    assert EvalIssue.severity == Critical && ExecIssue.severity == Critical && InputIssue.severity == Medium;
    if DynamicCode(code) {
      var j :| 0 <= j < |s| && (s[j] == EvalIssue || s[j] == ExecIssue);
    }
    if HasSeverity(s, Critical) {
      var j :| 0 <= j < |s| && s[j].severity == Critical;
      assert s[j] in [EvalIssue, ExecIssue, InputIssue];
    }
  }

  lemma MildSeverities(code: string)
    ensures !HasSeverity(StyleIssues(code), High) && !HasSeverity(StyleIssues(code), Critical)
    ensures !HasSeverity(PerformanceIssues(code), High) && !HasSeverity(PerformanceIssues(code), Critical)
  {
    StyleMild(code);
    PerformanceMild(code);
  }

  lemma StyleMild(code: string)
    ensures !HasSeverity(StyleIssues(code), High) && !HasSeverity(StyleIssues(code), Critical)
  {
    var st := StyleIssues(code);
    assert forall i :: 0 <= i < |st| ==> st[i].severity == Low || st[i].severity == Medium;
  }

  lemma PerformanceMild(code: string)
    ensures !HasSeverity(PerformanceIssues(code), High) && !HasSeverity(PerformanceIssues(code), Critical)
  {
    var p := PerformanceIssues(code);
    assert RangeLenIssue.severity == Medium && ConcatIssue.severity == Medium;
    forall i | 0 <= i < |p| ensures p[i].severity == Medium {
      assert p[i] in [RangeLenIssue, ConcatIssue];
    }
  }

  /** Only `eval(` and `exec(` yield critical issues, and nothing yields a
      high one, so without them the score is the plain metrics average. */
  lemma ScoreWithoutDynamicCode(code: string, name: string)
    ensures !HasSeverity(AllReviewIssues(code), High)
    ensures HasSeverity(AllReviewIssues(code), Critical) <==> DynamicCode(code)
    ensures !DynamicCode(code) ==> Analyze(code, name).qualityScore == OverallScore(Metrics(code))
    ensures DynamicCode(code) ==> Analyze(code, name).qualityScore <= 40.0
  {
    var s, st, p := SecurityIssues(code), StyleIssues(code), PerformanceIssues(code);
    SecuritySeverities(code);
    MildSeverities(code);
    HasSeverityConcat(s, st, High);
    HasSeverityConcat(s + st, p, High);
    HasSeverityConcat(s, st, Critical);
    HasSeverityConcat(s + st, p, Critical);
  }

  const InvalidMessage := "Invalid input data provided for review"

  /** The feedback for an invalid input. */
  function InvalidFeedback(name: string): (f: StructuredFeedback)
    ensures f.qualityScore == 0.0 && f.metrics == DefaultMetrics
    ensures |f.issues| == 1 && f.issues[0].kind == CodeQuality && f.issues[0].severity == Critical
    ensures f.issues[0].message == InvalidMessage
  {
    StructuredFeedback(0.0, DefaultMetrics, [MkIssue(CodeQuality, Critical, InvalidMessage, None)], [], [], 1, name)
  }

  /** `process(input_data)`. `Fail` is the exception raised when the code
      taken from a dict is not a string: the metrics call `split` on it. */
  function Process(v: Value, name: string, render: Renderer): (r: Outcome<StructuredFeedback>)
    ensures !Truthy(v) ==> r == Ok(InvalidFeedback(name))
    ensures Truthy(v) && v.VStr? ==> r == Ok(Analyze(v.s, name))
    ensures Truthy(v) && !v.VDict? ==> r.Ok?
    ensures r.Fail? ==> v.VDict? && !ExtractCode(v, render).VStr?
    ensures Truthy(v) && v.VDict? && !ExtractCode(v, render).VStr? ==>
              r == Fail(NoAttribute(ExtractCode(v, render), "split"))
    ensures Truthy(v) && ExtractCode(v, render).VStr? ==> r == Ok(Analyze(ExtractCode(v, render).s, name))
    ensures r.Ok? && Truthy(v) && ExtractCode(v, render).VStr? ==> r.value.metrics == Metrics(ExtractCode(v, render).s)
  {
    if !ValidateInput(v).isValid then Ok(InvalidFeedback(name))
    else
      var c := ExtractCode(v, render);
      if c.VStr? then Ok(Analyze(c.s, name))
      else Fail(NoAttribute(c, "split"))
  }

  /** Input whose extracted code is a string is reviewed as that code. */
  lemma ProcessExtracted(v: Value, code: string, name: string, render: Renderer)
    requires Truthy(v) && ExtractCode(v, render) == VStr(code)
    ensures Process(v, name, render) == Ok(Analyze(code, name))
  {
  }

  /** A dict carrying its code under `current_code`, as the iterative loop
      sends it, is reviewed exactly as that code sent on its own; only
      empty code differs, being rejected as a bare string but reviewed
      inside a dict. */
  lemma DictReviewsCurrentCode(v: Value, code: string, name: string, render: Renderer)
    requires v.VDict? && Get(v.entries, "current_code") == Some(VStr(code))
    ensures Process(v, name, render) == Ok(Analyze(code, name))
    ensures code != "" ==> Process(v, name, render) == Process(VStr(code), name, render)
  {
    assert |v.entries| > 0;
    ProcessExtracted(v, code, name, render);
    if code != "" {
      ProcessExtracted(VStr(code), code, name, render);
    }
  }
}
