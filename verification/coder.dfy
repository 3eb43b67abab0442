/** The Python coder agent (`agents/python_coder_agent.py`): validating its
    input, routing a request either to fresh generation from a template or
    to feedback-driven improvement of earlier code, and the text rewrites
    the improvement path applies. Template bodies are opaque strings. */
module Coder {
  import opened Common
  import opened Text
  import opened Dicts
  import opened Values

  // ---------------------------------------------------------------------
  // validate_input
  // ---------------------------------------------------------------------

  const ShortWarning := "Input seems very short for meaningful code generation"
  const StructureSuggestion := "Consider providing more structured requirements or function specifications"
  const KeySuggestion := "Consider including 'requirements' or 'specifications' key in input data"

  /** The verdict on a string request, from its two observations. */
  function StringValidation(short: bool, unstructured: bool): (r: Validation)
    ensures r.isValid
    ensures ShortWarning in r.warnings <==> short
    ensures StructureSuggestion in r.suggestions <==> unstructured
    ensures |r.warnings| <= 1 && |r.suggestions| <= 1
  {
    assert |ShortWarning| == 53;
    assert |StructureSuggestion| == 74;
    Validation(true, if short then [ShortWarning] else [], if unstructured then [StructureSuggestion] else [])
  }

  /** `validate_input`: only a falsy input is invalid; a short or
      unstructured string and a dict without the expected keys are still
      accepted, with advice. */
  function ValidateInput(v: Value): (r: Validation)
    ensures r.isValid <==> Truthy(v)
    ensures !r.isValid ==> r.warnings == [] && r.suggestions == []
    ensures Truthy(v) && v.VStr? ==> (ShortWarning in r.warnings <==> |Strip(v.s)| < 10)
    ensures Truthy(v) && v.VStr? ==>
              (StructureSuggestion in r.suggestions <==>
                 !Contains(Lower(v.s), "requirement") && !Contains(Lower(v.s), "function"))
    ensures Truthy(v) && v.VDict? ==>
              r.warnings == [] &&
              (r.suggestions == [KeySuggestion] <==>
                 !HasKey(v.entries, "requirements") && !HasKey(v.entries, "specifications")) &&
              (r.suggestions == [] <==>
                 HasKey(v.entries, "requirements") || HasKey(v.entries, "specifications"))
    ensures Truthy(v) && !v.VStr? && !v.VDict? ==> r.warnings == [] && r.suggestions == []
  {
    if !Truthy(v) then Validation(false, [], [])
    else if v.VStr? then
      var low := Lower(v.s);
      StringValidation(|Strip(v.s)| < 10, !Contains(low, "requirement") && !Contains(low, "function"))
    else if v.VDict? then
      var bare := !HasKey(v.entries, "requirements") && !HasKey(v.entries, "specifications");
      Validation(true, [], if bare then [KeySuggestion] else [])
    else Validation(true, [], [])
  }

  // ---------------------------------------------------------------------
  // Choosing a template
  // ---------------------------------------------------------------------

  /** The applications the coder has a generator for. */
  datatype Template = Calculator | TodoApp | WebApi | GuiApp | DataAnalysis | GenericUtility

  /** The keyword groups, tried in this order. */
  const Groups: seq<(Template, seq<string>)> := [
    (Calculator, ["calculator", "math", "calculate", "add", "subtract", "multiply", "divide"]),
    (TodoApp, ["todo", "task", "list", "manage"]),
    (WebApi, ["web", "api", "server", "flask", "fastapi"]),
    (GuiApp, ["gui", "tkinter", "interface", "window"]),
    (DataAnalysis, ["data", "analysis", "csv", "pandas", "statistical", "visualization", "report", "pdf"])
  ]

  /** The index of the first group with a keyword in `low`, if any. */
  function FirstMatch(low: string, groups: seq<(Template, seq<string>)>): (r: Option<nat>)
    ensures r.Some? ==> r.value < |groups| && ContainsAny(low, groups[r.value].1)
    ensures r.Some? ==> forall j :: 0 <= j < r.value ==> !ContainsAny(low, groups[j].1)
    ensures r.None? <==> forall j :: 0 <= j < |groups| ==> !ContainsAny(low, groups[j].1)
    decreases |groups|
  {
    if |groups| == 0 then None
    else if ContainsAny(low, groups[0].1) then Some(0)
    else
      match FirstMatch(low, groups[1..])
      case None => None
      case Some(i) => Some(i + 1)
  }

  /** The template `_generate_code_from_requirements` picks for a request:
      the group of the first keyword group that matches the lower-cased
      request, or the generic utility when none does. */
  function Classify(requirements: string): (t: Template)
    ensures t == GenericUtility <==> forall j :: 0 <= j < |Groups| ==> !ContainsAny(Lower(requirements), Groups[j].1)
    ensures t != GenericUtility ==>
              exists i :: 0 <= i < |Groups| && Groups[i].0 == t && ContainsAny(Lower(requirements), Groups[i].1) &&
                          forall j :: 0 <= j < i ==> !ContainsAny(Lower(requirements), Groups[j].1)
  {
    match FirstMatch(Lower(requirements), Groups)
    case None => GenericUtility
    case Some(i) =>
      assert Groups[i].0 != GenericUtility;
      Groups[i].0
  }

  /** The bodies of the generated files, which the model does not look
      into. The generic utility's text interpolates the request twice,
      between the three fixed pieces. `webApi` and `guiApp` stand for the
      files the two missing generators were meant to produce. */
  datatype Bodies = Bodies(
    calculator: string, todo: string, dataTool: string, dataRequirements: string,
    utilityHead: string, utilityMid: string, utilityTail: string,
    webApi: Dict<string>, guiApp: Dict<string>)

  /** The generic utility for a request. */
  function UtilityText(requirements: string, b: Bodies): string {
    b.utilityHead + requirements + b.utilityMid + requirements + b.utilityTail
  }

  /** The files each template produces, by name. */
  function TemplateFiles(t: Template, requirements: string, b: Bodies): Dict<string> {
    match t
    case Calculator => [("calculator.py", b.calculator)]
    case TodoApp => [("todo_app.py", b.todo)]
    case WebApi => b.webApi
    case GuiApp => b.guiApp
    case DataAnalysis => [("data_analysis_tool.py", b.dataTool), ("requirements.txt", b.dataRequirements)]
    case GenericUtility => [("utility.py", UtilityText(requirements, b))]
  }

  const MissingWebGenerator := "'PythonCoderAgent' object has no attribute '_generate_web_api_code'"
  const MissingGuiGenerator := "'PythonCoderAgent' object has no attribute '_generate_gui_app_code'"

  /** `_generate_code_from_requirements` as written: the web and GUI
      branches call generator methods the class does not define, so they
      raise. A request that is not a string fails on `lower`. */
  function GenerateAsWritten(requirements: Value, b: Bodies): (r: Outcome<Dict<string>>)
    ensures !requirements.VStr? ==> r == Fail(NoAttribute(requirements, "lower"))
    ensures requirements.VStr? ==>
              (r.Fail? <==> Classify(requirements.s) == WebApi || Classify(requirements.s) == GuiApp)
    ensures requirements.VStr? && Classify(requirements.s) == WebApi ==> r == Fail(MissingWebGenerator)
    ensures requirements.VStr? && Classify(requirements.s) == GuiApp ==> r == Fail(MissingGuiGenerator)
    ensures requirements.VStr? && Classify(requirements.s) != WebApi && Classify(requirements.s) != GuiApp ==>
              r == Ok(TemplateFiles(Classify(requirements.s), requirements.s, b))
  {
    if !requirements.VStr? then Fail(NoAttribute(requirements, "lower"))
    else
      var t := Classify(requirements.s);
      if t == WebApi then Fail(MissingWebGenerator)
      else if t == GuiApp then Fail(MissingGuiGenerator)
      else Ok(TemplateFiles(t, requirements.s, b))
  }

  /** A plain request for a web service takes the web branch and fails. */
  lemma WebRequestFails(b: Bodies)
    ensures GenerateAsWritten(VStr("web"), b) == Fail(MissingWebGenerator)
  {
    var low := Lower("web");
    assert low == "web";
    forall k | 0 <= k < |Groups[0].1|
      ensures !Contains(low, Groups[0].1[k])
    {
      if k == 3 {
        assert low[0] == 'w';
        assert !StartsWith(low, "add");
        NotContainsLonger(low[1..], "add");
      } else {
        NotContainsLonger(low, Groups[0].1[k]);
      }
    }
    forall k | 0 <= k < |Groups[1].1|
      ensures !Contains(low, Groups[1].1[k])
    {
      NotContainsLonger(low, Groups[1].1[k]);
    }
    assert StartsWith(low, Groups[2].1[0]);
    assert FirstMatch(low, Groups[2..]) == Some(0);
    assert FirstMatch(low, Groups[1..]) == Some(1);
  }

  /** The generator with the two missing branches supplied: every string
      request yields files, with the generic utility embedding the
      request. */
  function Generate(requirements: Value, b: Bodies): (r: Outcome<Dict<string>>)
    ensures !requirements.VStr? ==> r == Fail(NoAttribute(requirements, "lower"))
    ensures requirements.VStr? ==> r == Ok(TemplateFiles(Classify(requirements.s), requirements.s, b))
    ensures requirements.VStr? && Classify(requirements.s) == GenericUtility ==>
              Keys(r.value) == ["utility.py"] && Contains(r.value[0].1, requirements.s)
    ensures requirements.VStr? && Classify(requirements.s) != WebApi && Classify(requirements.s) != GuiApp ==>
              r == GenerateAsWritten(requirements, b)
  {
    if !requirements.VStr? then Fail(NoAttribute(requirements, "lower"))
    else
      var t := Classify(requirements.s);
      var files := TemplateFiles(t, requirements.s, b);
      UtilityMentionsRequest(requirements.s, b);
      Ok(files)
  }

  /** The generic utility quotes the request. */
  lemma UtilityMentionsRequest(requirements: string, b: Bodies)
    ensures Contains(UtilityText(requirements, b), requirements)
  {
    var u := UtilityText(requirements, b);
    assert u[|b.utilityHead|..|b.utilityHead| + |requirements|] == requirements;
    ContainsAt(u, requirements, |b.utilityHead|);
  }

  // ---------------------------------------------------------------------
  // Line rewrites
  // ---------------------------------------------------------------------

  /** A line with the lines `before` puts above it and `after` below it. */
  function Block(line: string, before: string -> seq<string>, after: string -> seq<string>): seq<string> {
    before(line) + [line] + after(line)
  }

  /** Rewriting code line by line, each line kept in place with its
      inserted neighbours: the shape of every loop over `code.split('\n')`
      in the coder. */
  function Expand(lines: seq<string>, before: string -> seq<string>, after: string -> seq<string>): seq<string>
    decreases |lines|
  {
    if |lines| == 0 then []
    else Expand(lines[..|lines| - 1], before, after) + Block(lines[|lines| - 1], before, after)
  }

  /** How many lines a rewrite inserts around `lines`. */
  function Inserted(lines: seq<string>, before: string -> seq<string>, after: string -> seq<string>): nat
    decreases |lines|
  {
    if |lines| == 0 then 0
    else
      var last := lines[|lines| - 1];
      Inserted(lines[..|lines| - 1], before, after) + |before(last)| + |after(last)|
  }

  /** The number of lines that satisfy `p`. */
  function CountWhere(lines: seq<string>, p: string -> bool): (n: nat)
    ensures n <= |lines|
    decreases |lines|
  {
    if |lines| == 0 then 0
    else CountWhere(lines[..|lines| - 1], p) + (if p(lines[|lines| - 1]) then 1 else 0)
  }

  /** The rewrite of a prefix is a prefix of the rewrite. */
  lemma {:induction false} ExpandPrefix(lines: seq<string>, before: string -> seq<string>, after: string -> seq<string>, j: nat)
    requires j <= |lines|
    ensures |Expand(lines[..j], before, after)| <= |Expand(lines, before, after)|
    ensures Expand(lines, before, after)[..|Expand(lines[..j], before, after)|] == Expand(lines[..j], before, after)
    decreases |lines| - j
  {
    if j == |lines| {
      assert lines[..j] == lines;
    } else {
      var init := lines[..|lines| - 1];
      assert init[..j] == lines[..j];
      ExpandPrefix(init, before, after, j);
    }
  }

  /** The rewrite holds every line plus the inserted ones. */
  lemma {:induction false} ExpandLength(lines: seq<string>, before: string -> seq<string>, after: string -> seq<string>)
    ensures |Expand(lines, before, after)| == |lines| + Inserted(lines, before, after)
    decreases |lines|
  {
    if |lines| > 0 {
      ExpandLength(lines[..|lines| - 1], before, after);
    }
  }

  /** Line `i` of the code lands below the lines inserted around the lines
      before it and the ones inserted above it, with exactly its own
      inserted lines on either side. */
  lemma ExpandPlaces(lines: seq<string>, before: string -> seq<string>, after: string -> seq<string>, i: nat)
    requires i < |lines|
    ensures var r := Expand(lines, before, after);
            var at := i + Inserted(lines[..i], before, after) + |before(lines[i])|;
            at + |after(lines[i])| < |r| && r[at] == lines[i] &&
            r[at - |before(lines[i])|..at] == before(lines[i]) &&
            r[at + 1..at + 1 + |after(lines[i])|] == after(lines[i]) &&
            (forall k :: 0 <= k < |before(lines[i])| ==> r[at - |before(lines[i])| + k] == before(lines[i])[k]) &&
            (forall k :: 0 <= k < |after(lines[i])| ==> r[at + 1 + k] == after(lines[i])[k])
  {
    ExpandBlock(lines, before, after, i);
    BlockAt(Expand(lines, before, after), i + Inserted(lines[..i], before, after),
            i + Inserted(lines[..i], before, after) + |before(lines[i])|, before(lines[i]), lines[i], after(lines[i]));
  }

  /** The block of line `i` follows the rewrite of the lines before it. */
  lemma ExpandBlock(lines: seq<string>, before: string -> seq<string>, after: string -> seq<string>, i: nat)
    requires i < |lines|
    ensures var s, blk := i + Inserted(lines[..i], before, after), before(lines[i]) + [lines[i]] + after(lines[i]);
            s + |blk| <= |Expand(lines, before, after)| && Expand(lines, before, after)[s..s + |blk|] == blk
  {
    var upto := lines[..i + 1];
    assert upto[..|upto| - 1] == lines[..i];
    ExpandPrefix(lines, before, after, i + 1);
    ExpandLength(lines[..i], before, after);
    var r := Expand(lines, before, after);
    var e := Expand(lines[..i], before, after);
    var blk := Block(lines[i], before, after);
    assert Expand(upto, before, after) == e + blk;
    SliceOfPrefix(r, e, blk);
  }

  /** The second part of a prefix `x + y` of `r` sits right after the first. */
  lemma SliceOfPrefix<T>(r: seq<T>, x: seq<T>, y: seq<T>)
    requires |x + y| <= |r| && r[..|x + y|] == x + y
    ensures r[|x|..|x| + |y|] == y
  {
    forall k | 0 <= k < |y| ensures r[|x|..|x| + |y|][k] == y[k] {
      assert r[..|x + y|][|x| + k] == (x + y)[|x| + k];
    }
  }

  /** A block found at offset `s` of `r` puts its line at `s + |b|`, with
      its two halves on either side. */
  lemma BlockAt(r: seq<string>, s: nat, at: nat, b: seq<string>, line: string, a: seq<string>)
    requires at == s + |b| && s + |b + [line] + a| <= |r| && r[s..s + |b + [line] + a|] == b + [line] + a
    ensures at + |a| < |r| && r[at] == line &&
            r[at - |b|..at] == b && r[at + 1..at + 1 + |a|] == a &&
            (forall k :: 0 <= k < |b| ==> r[at - |b| + k] == b[k]) &&
            (forall k :: 0 <= k < |a| ==> r[at + 1 + k] == a[k])
  {
    var blk := b + [line] + a;
    forall k | 0 <= k < |blk| ensures r[s + k] == blk[k] {
      assert r[s..s + |blk|][k] == r[s + k];
    }
    assert r[at] == blk[|b|];
    forall k | 0 <= k < |b| ensures r[at - |b| + k] == b[k] {
      assert r[s + k] == blk[k];
    }
    forall k | 0 <= k < |a| ensures r[at + 1 + k] == a[k] {
      assert r[s + (|b| + 1 + k)] == blk[|b| + 1 + k];
    }
    assert r[at - |b|..at] == b;
    assert r[at + 1..at + 1 + |a|] == a;
  }

  /** A rewrite that inserts nothing changes nothing. */
  lemma {:induction false} NothingInserted(lines: seq<string>, before: string -> seq<string>, after: string -> seq<string>)
    requires forall j :: 0 <= j < |lines| ==> before(lines[j]) == [] && after(lines[j]) == []
    ensures Expand(lines, before, after) == lines
    decreases |lines|
  {
    if |lines| > 0 {
      var init := lines[..|lines| - 1];
      assert forall j :: 0 <= j < |init| ==> init[j] == lines[j];
      NothingInserted(init, before, after);
      assert init + [lines[|lines| - 1]] == lines;
    }
  }

  /** A character absent from every line and every inserted line is
      absent from the rewrite. */
  lemma {:induction false} ExpandFree(lines: seq<string>, before: string -> seq<string>, after: string -> seq<string>, c: char)
    requires forall j :: 0 <= j < |lines| ==> c !in lines[j]
    requires forall j, k :: 0 <= j < |lines| && 0 <= k < |before(lines[j])| ==> c !in before(lines[j])[k]
    requires forall j, k :: 0 <= j < |lines| && 0 <= k < |after(lines[j])| ==> c !in after(lines[j])[k]
    ensures forall i :: 0 <= i < |Expand(lines, before, after)| ==> c !in Expand(lines, before, after)[i]
    decreases |lines|
  {
    if |lines| > 0 {
      var init := lines[..|lines| - 1];
      assert forall j :: 0 <= j < |init| ==> init[j] == lines[j];
      ExpandFree(init, before, after, c);
    }
  }

  function NoLines(line: string): seq<string> { [] }

  // ---------------------------------------------------------------------
  // _add_docstrings
  // ---------------------------------------------------------------------

  const FunctionDocstring := "\"\"\"Function docstring - " + "describe purpose and parameters.\"\"\""
  const ClassDocstring := "\"\"\"Class docstring - " + "describe the class purpose.\"\"\""

  predicate IsDefLine(line: string) {
    StartsWith(Strip(line), "def ") && ':' in line
  }

  predicate IsClassLine(line: string) {
    StartsWith(Strip(line), "class ") && ':' in line
  }

  predicate IsHeader(line: string) {
    IsDefLine(line) || IsClassLine(line)
  }

  /** The docstring placed under a header line, four columns deeper. */
  function DocAfter(line: string): seq<string> {
    if IsDefLine(line) then [Spaces(Indent(line) + 4) + FunctionDocstring]
    else if IsClassLine(line) then [Spaces(Indent(line) + 4) + ClassDocstring]
    else []
  }

  /** Line `i` of `lines` sits in `r` below one docstring per header
      above it, and a header is followed by its docstring, indented four
      columns beyond it. */
  predicate DocstringPlaced(lines: seq<string>, r: seq<string>, i: nat)
    requires i < |lines|
  {
    var at := i + CountWhere(lines[..i], IsHeader);
    at < |r| && r[at] == lines[i] &&
    (IsDefLine(lines[i]) ==> at + 1 < |r| && r[at + 1] == Spaces(Indent(lines[i]) + 4) + FunctionDocstring) &&
    (IsClassLine(lines[i]) && !IsDefLine(lines[i]) ==>
       at + 1 < |r| && r[at + 1] == Spaces(Indent(lines[i]) + 4) + ClassDocstring)
  }

  /** One docstring is inserted per header line. */
  lemma {:induction false} DocstringsInserted(lines: seq<string>)
    ensures Inserted(lines, NoLines, DocAfter) == CountWhere(lines, IsHeader)
    decreases |lines|
  {
    if |lines| > 0 {
      DocstringsInserted(lines[..|lines| - 1]);
    }
  }

  /** The docstring a header line receives. */
  lemma DocAfterShape(line: string)
    ensures IsDefLine(line) ==> DocAfter(line) == [Spaces(Indent(line) + 4) + FunctionDocstring]
    ensures IsClassLine(line) && !IsDefLine(line) ==> DocAfter(line) == [Spaces(Indent(line) + 4) + ClassDocstring]
    ensures |DocAfter(line)| == (if IsHeader(line) then 1 else 0)
  {
  }

  lemma DocstringRaw(lines: seq<string>, i: nat)
    requires i < |lines|
    ensures var r := Expand(lines, NoLines, DocAfter);
            var at := i + CountWhere(lines[..i], IsHeader);
            at + |DocAfter(lines[i])| < |r| && r[at] == lines[i] &&
            (IsHeader(lines[i]) ==> r[at + 1] == DocAfter(lines[i])[0])
  {
    ExpandPlaces(lines, NoLines, DocAfter, i);
    DocAfterShape(lines[i]);
    DocstringsInserted(lines[..i]);
  }

  lemma DocstringPlacedAt(lines: seq<string>, i: nat)
    requires i < |lines|
    ensures DocstringPlaced(lines, Expand(lines, NoLines, DocAfter), i)
  {
    DocstringRaw(lines, i);
    DocAfterShape(lines[i]);
  }

  lemma DocstringFacts(lines: seq<string>)
    ensures var r := Expand(lines, NoLines, DocAfter);
            |r| == |lines| + CountWhere(lines, IsHeader) &&
            (forall i :: 0 <= i < |lines| ==> DocstringPlaced(lines, r, i)) &&
            ((forall j :: 0 <= j < |lines| ==> !IsHeader(lines[j])) ==> r == lines)
  {
    var r := Expand(lines, NoLines, DocAfter);
    forall i | 0 <= i < |lines|
      ensures DocstringPlaced(lines, r, i)
    {
      DocstringPlacedAt(lines, i);
    }
    ExpandLength(lines, NoLines, DocAfter);
    DocstringsInserted(lines);
    if forall j :: 0 <= j < |lines| ==> !IsHeader(lines[j]) {
      NothingInserted(lines, NoLines, DocAfter);
    }
  }

  /** `_add_docstrings` on lines: every line is kept, in order, with one
      docstring under each `def`/`class` header and nothing else added;
      code without headers is unchanged. */
  function DocstringLines(lines: seq<string>): (r: seq<string>)
    ensures |r| == |lines| + CountWhere(lines, IsHeader)
    ensures forall i :: 0 <= i < |lines| ==> DocstringPlaced(lines, r, i)
    ensures (forall j :: 0 <= j < |lines| ==> !IsHeader(lines[j])) ==> r == lines
  {
    var r := Expand(lines, NoLines, DocAfter);
    DocstringFacts(lines);
    r
  }

  /** A rewritten code's text, joined back with newlines: its lines are
      the rewritten lines, provided no inserted line holds a newline. */
  lemma JoinedLines(lines: seq<string>)
    requires |lines| >= 1 && forall i :: 0 <= i < |lines| ==> '\n' !in lines[i]
    ensures Split(Join(lines, '\n'), '\n') == lines
  {
    SplitJoin(lines, '\n');
  }

  /** `_add_docstrings`: the result's lines are `DocstringLines` of the
      code's lines, and code without headers comes back unchanged. */
  function AddDocstrings(code: string): (r: string)
    ensures Split(r, '\n') == DocstringLines(Split(code, '\n'))
    ensures (forall j :: 0 <= j < |Split(code, '\n')| ==> !IsHeader(Split(code, '\n')[j])) ==> r == code
  {
    var lines := Split(code, '\n');
    var out := DocstringLines(lines);
    DocstringsNewlineFree(lines);
    JoinedLines(out);
    JoinSplit(code, '\n');
    Join(out, '\n')
  }

  lemma DocstringsOneLine()
    ensures '\n' !in FunctionDocstring && '\n' !in ClassDocstring
  {
    assert '\n' !in FunctionDocstring by {
      assert '\n' !in "\"\"\"Function docstring - ";
      assert '\n' !in "describe purpose and parameters.\"\"\"";
    }
    assert '\n' !in ClassDocstring by {
      assert '\n' !in "\"\"\"Class docstring - ";
      assert '\n' !in "describe the class purpose.\"\"\"";
    }
  }

  lemma DocstringsNewlineFree(lines: seq<string>)
    requires forall j :: 0 <= j < |lines| ==> '\n' !in lines[j]
    ensures |Expand(lines, NoLines, DocAfter)| >= 1 || |lines| == 0
    ensures forall i :: 0 <= i < |Expand(lines, NoLines, DocAfter)| ==> '\n' !in Expand(lines, NoLines, DocAfter)[i]
  {
    DocstringsOneLine();
    forall j, k | 0 <= j < |lines| && 0 <= k < |DocAfter(lines[j])|
      ensures '\n' !in DocAfter(lines[j])[k]
    {
      DocAfterShape(lines[j]);
    }
    ExpandFree(lines, NoLines, DocAfter, '\n');
    ExpandLength(lines, NoLines, DocAfter);
  }

  // ---------------------------------------------------------------------
  // _add_error_handling
  // ---------------------------------------------------------------------

  const ExceptText := "except (ValueError, " + "KeyboardInterrupt) as e:"
  const ErrorPrintText := "print(f\"Error: {e}\")"

  /** A line that reads input and is not already guarded. */
  predicate IsInputLine(line: string) {
    Contains(line, "input(") && !Contains(line, "try:")
  }

  function TryBefore(line: string): seq<string> {
    if IsInputLine(line) then [Spaces(Indent(line)) + "try:"] else []
  }

  function ExceptAfter(line: string): seq<string> {
    if IsInputLine(line) then [Spaces(Indent(line)) + ExceptText, Spaces(Indent(line) + 4) + ErrorPrintText] else []
  }

  /** Line `i` of `lines` sits in `r` below three lines per input line
      above it; an input line has `try:` at its own indentation right
      above it and the `except` clause with its `print` right below. */
  predicate GuardPlaced(lines: seq<string>, r: seq<string>, i: nat)
    requires i < |lines|
  {
    var at := i + 3 * CountWhere(lines[..i], IsInputLine) + (if IsInputLine(lines[i]) then 1 else 0);
    at < |r| && r[at] == lines[i] &&
    (IsInputLine(lines[i]) ==>
       at + 2 < |r| &&
       r[at - 1] == Spaces(Indent(lines[i])) + "try:" &&
       r[at + 1] == Spaces(Indent(lines[i])) + ExceptText &&
       r[at + 2] == Spaces(Indent(lines[i]) + 4) + ErrorPrintText)
  }

  lemma GuardShape(line: string)
    ensures |TryBefore(line)| == (if IsInputLine(line) then 1 else 0)
    ensures |ExceptAfter(line)| == (if IsInputLine(line) then 2 else 0)
  {
  }

  /** Three lines are inserted per input line. */
  lemma {:induction false} GuardsInserted(lines: seq<string>)
    ensures Inserted(lines, TryBefore, ExceptAfter) == 3 * CountWhere(lines, IsInputLine)
    decreases |lines|
  {
    if |lines| > 0 {
      GuardsInserted(lines[..|lines| - 1]);
      GuardShape(lines[|lines| - 1]);
    }
  }

  /** The lines an input line receives. */
  lemma GuardLines(line: string)
    requires IsInputLine(line)
    ensures TryBefore(line) == [Spaces(Indent(line)) + "try:"]
    ensures ExceptAfter(line) == [Spaces(Indent(line)) + ExceptText, Spaces(Indent(line) + 4) + ErrorPrintText]
  {
  }

  lemma GuardRaw(lines: seq<string>, i: nat)
    requires i < |lines|
    ensures var r := Expand(lines, TryBefore, ExceptAfter);
            var at := i + 3 * CountWhere(lines[..i], IsInputLine) + |TryBefore(lines[i])|;
            at + |ExceptAfter(lines[i])| < |r| && r[at] == lines[i] &&
            (|TryBefore(lines[i])| == 1 ==> r[at - 1] == TryBefore(lines[i])[0]) &&
            (|ExceptAfter(lines[i])| == 2 ==> r[at + 1] == ExceptAfter(lines[i])[0] && r[at + 2] == ExceptAfter(lines[i])[1])
  {
    ExpandPlaces(lines, TryBefore, ExceptAfter, i);
    GuardsInserted(lines[..i]);
  }

  lemma GuardSettled(lines: seq<string>, i: nat)
    requires i < |lines|
    ensures var r := Expand(lines, TryBefore, ExceptAfter);
            var at := i + 3 * CountWhere(lines[..i], IsInputLine) + (if IsInputLine(lines[i]) then 1 else 0);
            at < |r| && r[at] == lines[i] &&
            (IsInputLine(lines[i]) ==>
               at + 2 < |r| &&
               r[at - 1] == Spaces(Indent(lines[i])) + "try:" &&
               r[at + 1] == Spaces(Indent(lines[i])) + ExceptText &&
               r[at + 2] == Spaces(Indent(lines[i]) + 4) + ErrorPrintText)
  {
    if IsInputLine(lines[i]) {
      GuardSettledInput(lines, i);
    } else {
      GuardRaw(lines, i);
      GuardShape(lines[i]);
    }
  }

  lemma GuardSettledInput(lines: seq<string>, i: nat)
    requires i < |lines| && IsInputLine(lines[i])
    ensures var r := Expand(lines, TryBefore, ExceptAfter);
            var at := i + 3 * CountWhere(lines[..i], IsInputLine) + 1;
            at + 2 < |r| && r[at] == lines[i] &&
            r[at - 1] == Spaces(Indent(lines[i])) + "try:" &&
            r[at + 1] == Spaces(Indent(lines[i])) + ExceptText &&
            r[at + 2] == Spaces(Indent(lines[i]) + 4) + ErrorPrintText
  {
    GuardRaw(lines, i);
    GuardLines(lines[i]);
  }

  lemma GuardPlacedAt(lines: seq<string>, i: nat, r: seq<string>)
    requires i < |lines| && r == Expand(lines, TryBefore, ExceptAfter)
    ensures GuardPlaced(lines, r, i)
  {
    GuardSettled(lines, i);
  }

  /** `_add_error_handling` on lines: every line is kept, in order, and
      each unguarded `input(` line is wrapped by a `try:` above and an
      `except` clause below; code without such lines is unchanged. */
  function ErrorHandlingLines(lines: seq<string>): (r: seq<string>)
    ensures |r| == |lines| + 3 * CountWhere(lines, IsInputLine)
    ensures forall i :: 0 <= i < |lines| ==> GuardPlaced(lines, r, i)
    ensures (forall j :: 0 <= j < |lines| ==> !IsInputLine(lines[j])) ==> r == lines
  {
    var r := Expand(lines, TryBefore, ExceptAfter);
    GuardFacts(lines);
    r
  }

  lemma GuardFacts(lines: seq<string>)
    ensures var r := Expand(lines, TryBefore, ExceptAfter);
            |r| == |lines| + 3 * CountWhere(lines, IsInputLine) &&
            (forall i :: 0 <= i < |lines| ==> GuardPlaced(lines, r, i)) &&
            ((forall j :: 0 <= j < |lines| ==> !IsInputLine(lines[j])) ==> r == lines)
  {
    var r := Expand(lines, TryBefore, ExceptAfter);
    forall i | 0 <= i < |lines|
      ensures GuardPlaced(lines, r, i)
    {
      GuardPlacedAt(lines, i, r);
    }
    ExpandLength(lines, TryBefore, ExceptAfter);
    GuardsInserted(lines);
    if forall j :: 0 <= j < |lines| ==> !IsInputLine(lines[j]) {
      NothingInserted(lines, TryBefore, ExceptAfter);
    }
  }

  lemma GuardsNewlineFree(lines: seq<string>)
    requires forall j :: 0 <= j < |lines| ==> '\n' !in lines[j]
    ensures |Expand(lines, TryBefore, ExceptAfter)| >= |lines|
    ensures forall i :: 0 <= i < |Expand(lines, TryBefore, ExceptAfter)| ==> '\n' !in Expand(lines, TryBefore, ExceptAfter)[i]
  {
    assert '\n' !in ExceptText by {
      assert '\n' !in "except (ValueError, ";
      assert '\n' !in "KeyboardInterrupt) as e:";
    }
    assert '\n' !in ErrorPrintText;
    forall j, k | 0 <= j < |lines| && 0 <= k < |ExceptAfter(lines[j])|
      ensures '\n' !in ExceptAfter(lines[j])[k]
    {
    }
    ExpandFree(lines, TryBefore, ExceptAfter, '\n');
    ExpandLength(lines, TryBefore, ExceptAfter);
  }

  /** `_add_error_handling`: the result's lines are `ErrorHandlingLines`
      of the code's lines. */
  function AddErrorHandling(code: string): (r: string)
    ensures Split(r, '\n') == ErrorHandlingLines(Split(code, '\n'))
    ensures (forall j :: 0 <= j < |Split(code, '\n')| ==> !IsInputLine(Split(code, '\n')[j])) ==> r == code
  {
    var lines := Split(code, '\n');
    var out := ErrorHandlingLines(lines);
    GuardsNewlineFree(lines);
    JoinedLines(out);
    JoinSplit(code, '\n');
    Join(out, '\n')
  }

  // ---------------------------------------------------------------------
  // _fix_style_issues
  // ---------------------------------------------------------------------

  const TodoLine := "# TODO: Break this long line " + "for better readability"

  predicate IsLongLine(line: string) {
    |line| > 100
  }

  function TodoBefore(line: string): seq<string> {
    if IsLongLine(line) then [TodoLine] else []
  }

  /** Line `i` of `lines` sits in `r` below one TODO per long line up to
      and including it, and a long line has the TODO right above it. */
  predicate TodoPlaced(lines: seq<string>, r: seq<string>, i: nat)
    requires i < |lines|
  {
    var at := i + CountWhere(lines[..i], IsLongLine) + (if IsLongLine(lines[i]) then 1 else 0);
    at < |r| && r[at] == lines[i] &&
    (IsLongLine(lines[i]) ==> r[at - 1] == TodoLine)
  }

  /** One TODO is inserted per long line. */
  lemma {:induction false} TodosInserted(lines: seq<string>)
    ensures Inserted(lines, TodoBefore, NoLines) == CountWhere(lines, IsLongLine)
    decreases |lines|
  {
    if |lines| > 0 {
      TodosInserted(lines[..|lines| - 1]);
    }
  }

  lemma TodoRaw(lines: seq<string>, i: nat)
    requires i < |lines|
    ensures var r := Expand(lines, TodoBefore, NoLines);
            var at := i + CountWhere(lines[..i], IsLongLine) + |TodoBefore(lines[i])|;
            at < |r| && r[at] == lines[i] &&
            (|TodoBefore(lines[i])| == 1 ==> r[at - 1] == TodoBefore(lines[i])[0])
  {
    ExpandPlaces(lines, TodoBefore, NoLines, i);
    TodosInserted(lines[..i]);
  }

  lemma TodoSettled(lines: seq<string>, i: nat)
    requires i < |lines|
    ensures var r := Expand(lines, TodoBefore, NoLines);
            var at := i + CountWhere(lines[..i], IsLongLine) + (if IsLongLine(lines[i]) then 1 else 0);
            at < |r| && r[at] == lines[i] &&
            (IsLongLine(lines[i]) ==> r[at - 1] == TodoLine)
  {
    TodoRaw(lines, i);
    TodoShape(lines[i]);
  }

  lemma TodoPlacedAt(lines: seq<string>, i: nat, r: seq<string>)
    requires i < |lines| && r == Expand(lines, TodoBefore, NoLines)
    ensures TodoPlaced(lines, r, i)
  {
    TodoSettled(lines, i);
  }

  lemma TodoShape(line: string)
    ensures |TodoBefore(line)| == (if IsLongLine(line) then 1 else 0)
    ensures IsLongLine(line) ==> TodoBefore(line)[0] == TodoLine
  {
  }

  /** `_fix_style_issues` on lines: every line is kept, in order, with one
      TODO line directly above each line longer than 100 characters and
      nothing else added. */
  function StyleLines(lines: seq<string>): (r: seq<string>)
    ensures |r| == |lines| + CountWhere(lines, IsLongLine)
    ensures forall i :: 0 <= i < |lines| ==> TodoPlaced(lines, r, i)
    ensures (forall j :: 0 <= j < |lines| ==> !IsLongLine(lines[j])) ==> r == lines
  {
    var r := Expand(lines, TodoBefore, NoLines);
    TodoFacts(lines);
    r
  }

  lemma TodoFacts(lines: seq<string>)
    ensures var r := Expand(lines, TodoBefore, NoLines);
            |r| == |lines| + CountWhere(lines, IsLongLine) &&
            (forall i :: 0 <= i < |lines| ==> TodoPlaced(lines, r, i)) &&
            ((forall j :: 0 <= j < |lines| ==> !IsLongLine(lines[j])) ==> r == lines)
  {
    var r := Expand(lines, TodoBefore, NoLines);
    forall i | 0 <= i < |lines|
      ensures TodoPlaced(lines, r, i)
    {
      TodoPlacedAt(lines, i, r);
    }
    ExpandLength(lines, TodoBefore, NoLines);
    TodosInserted(lines);
    if forall j :: 0 <= j < |lines| ==> !IsLongLine(lines[j]) {
      NothingInserted(lines, TodoBefore, NoLines);
    }
  }

  lemma TodosNewlineFree(lines: seq<string>)
    requires forall j :: 0 <= j < |lines| ==> '\n' !in lines[j]
    ensures |Expand(lines, TodoBefore, NoLines)| >= |lines|
    ensures forall i :: 0 <= i < |Expand(lines, TodoBefore, NoLines)| ==> '\n' !in Expand(lines, TodoBefore, NoLines)[i]
  {
    assert '\n' !in TodoLine by {
      assert '\n' !in "# TODO: Break this long line ";
      assert '\n' !in "for better readability";
    }
    ExpandFree(lines, TodoBefore, NoLines, '\n');
    ExpandLength(lines, TodoBefore, NoLines);
  }

  /** `_fix_style_issues`: the result's lines are `StyleLines` of the
      code's lines. */
  function FixStyle(code: string): (r: string)
    ensures Split(r, '\n') == StyleLines(Split(code, '\n'))
    ensures (forall j :: 0 <= j < |Split(code, '\n')| ==> !IsLongLine(Split(code, '\n')[j])) ==> r == code
  {
    var lines := Split(code, '\n');
    var out := StyleLines(lines);
    TodosNewlineFree(lines);
    JoinedLines(out);
    JoinSplit(code, '\n');
    Join(out, '\n')
  }

  // ---------------------------------------------------------------------
  // _add_type_hints
  // ---------------------------------------------------------------------

  const TypingMarker := "from typing import"
  const TypingImport := TypingMarker + " Any, Dict, List, Optional\n\n"

  /** Whether code already imports `typing`, as `_add_type_hints` asks. */
  predicate ImportsTyping(code: string) {
    Contains(code, TypingMarker) || Contains(code, "import typing")
  }

  /** `_add_type_hints`: code that does not import `typing` gets the
      import in front; the `def ` rewrite that follows is the identity. */
  function AddTypeHints(code: string): (r: string)
    ensures ImportsTyping(r)
    ensures ImportsTyping(code) ==> r == code
    ensures !ImportsTyping(code) ==> StartsWith(r, TypingImport) && r[|TypingImport|..] == code
  {
    var full := if ImportsTyping(code) then code else TypingImport + code;
    TypingImportLeads(code);
    ReplaceSelf(full, "def ");
    ReplaceAll(full, "def ", "def ")
  }

  lemma TypingImportLeads(code: string)
    ensures Contains(TypingImport + code, TypingMarker)
    ensures (TypingImport + code)[|TypingImport|..] == code
  {
    assert (TypingImport + code)[..|TypingMarker|] == TypingMarker;
  }

  /** A second pass of `_add_type_hints` changes nothing. */
  lemma AddTypeHintsIdempotent(code: string)
    ensures AddTypeHints(AddTypeHints(code)) == AddTypeHints(code)
  {
  }

  // ---------------------------------------------------------------------
  // _optimize_performance
  // ---------------------------------------------------------------------

  const RangeLenLoop := "for i in range(len("
  const EnumerateLoop := "for i, item in enumerate("
  const HintLead := "# Consider using join() "
  const HintLoop := "for string"
  const JoinHint := HintLead + HintLoop + " concatenation in loops\n"

  /** Neither `+=` nor the `for s` of the hint can overlap an index loop. */
  lemma ApartFromIndexLoop(w: string)
    requires w == "+=" || w == "for s"
    ensures forall m :: 0 <= m < |w| ==> !Overlaps(w[m..], RangeLenLoop)
    ensures forall m :: 0 < m < |RangeLenLoop| ==> !Overlaps(RangeLenLoop[m..], w)
  {
    forall m | 0 <= m < |w|
      ensures !Overlaps(w[m..], RangeLenLoop)
    {
      if m == 0 && w == "for s" {
        DifferAt(w, RangeLenLoop, 4);
      } else {
        assert w[m] != 'f';
        DifferAt(w[m..], RangeLenLoop, 0);
      }
    }
    forall m | 0 < m < |RangeLenLoop|
      ensures !Overlaps(RangeLenLoop[m..], w)
    {
      assert RangeLenLoop[m] != 'f' && RangeLenLoop[m] != '+';
      DifferAt(RangeLenLoop[m..], w, 0);
    }
  }

  /** `_optimize_performance`: index loops become `enumerate` loops, and
      code with a `for ` and a `+=` gets a hint about `join` on top. */
  function OptimizePerformance(code: string): (r: string)
    ensures |r| >= |code|
    ensures Contains(code, "+=") ==> Contains(r, "+=")
    ensures !Contains(code, "+=") ==> r == ReplaceAll(code, RangeLenLoop, EnumerateLoop)
    ensures !Contains(code, RangeLenLoop) ==>
              r == (if Contains(code, "for ") && Contains(code, "+=") then JoinHint + code else code)
  {
    var looped := ReplaceAll(code, RangeLenLoop, EnumerateLoop);
    PerformanceFacts(code);
    if Contains(looped, "for ") && Contains(looped, "+=") then JoinHint + looped else looped
  }

  lemma PerformanceFacts(code: string)
    ensures var looped := ReplaceAll(code, RangeLenLoop, EnumerateLoop);
            |looped| >= |code| &&
            (Contains(code, "+=") ==> Contains(looped, "+=") && Contains(JoinHint + looped, "+=")) &&
            (!Contains(code, "+=") ==> !Contains(looped, "+=")) &&
            (!Contains(code, RangeLenLoop) ==> looped == code)
  {
    var looped := ReplaceAll(code, RangeLenLoop, EnumerateLoop);
    ReplaceGrows(code, RangeLenLoop, EnumerateLoop);
    if Contains(code, "+=") {
      ApartFromIndexLoop("+=");
      ReplaceKeepsSome(code, RangeLenLoop, EnumerateLoop, "+=");
      assert (JoinHint + looped)[|JoinHint|..] == looped;
      ContainsSuffix(JoinHint + looped, "+=", |JoinHint|);
    } else {
      ReplaceLeavesNo(code, RangeLenLoop, EnumerateLoop, "+=");
    }
    if !Contains(code, RangeLenLoop) {
      ReplaceAbsent(code, RangeLenLoop, EnumerateLoop);
    }
  }

  /** Repeating `_optimize_performance` does not settle: on code with a
      loop, a `+=` and no index loop, every pass stacks one more hint. */
  lemma HintHoldsForS(code: string)
    ensures |HintLead| + 5 <= |JoinHint + code|
    ensures (JoinHint + code)[|HintLead|..|HintLead| + 5] == "for s"
  {
    var once := JoinHint + code;
    assert once[|HintLead|..|HintLead| + 5] == HintLoop[..5];
    assert HintLoop[..5] == "for s";
  }

  lemma HintsStack(code: string)
    requires Contains(code, "for ") && Contains(code, "+=") && !Contains(code, RangeLenLoop)
    ensures OptimizePerformance(code) == JoinHint + code
    ensures StartsWith(OptimizePerformance(OptimizePerformance(code)), JoinHint)
    ensures |OptimizePerformance(OptimizePerformance(code))| >= |code| + 2 * |JoinHint|
  {
    var once := JoinHint + code;
    var looped := ReplaceAll(once, RangeLenLoop, EnumerateLoop);
    HintHoldsForS(code);
    ContainsAt(once, "for s", |HintLead|);
    ApartFromIndexLoop("for s");
    ReplaceKeepsSome(once, RangeLenLoop, EnumerateLoop, "for s");
    ContainsShorter(looped, "for s", 4);
    assert "for s"[..4] == "for ";
    PerformanceFacts(once);
  }

  // ---------------------------------------------------------------------
  // _add_logging
  // ---------------------------------------------------------------------

  const LoggingMarker := "import logging"
  const PrintDouble := "print(\""
  const PrintSingle := "print('"
  const InfoDouble := "logger.info(\""
  const InfoSingle := "logger.info('"

  /** The header `_add_logging` puts in front of code without the marker. */
  const LoggingSetup := LoggingMarker + SetupBody
  const SetupBody := SetupComment + SetupConfig + SetupLevel + SetupMessage + SetupLogger
  const SetupComment := "\n\n# Configure logging\n"
  const SetupConfig := "logging.basicConfig(level=logging.INFO, "
  const SetupLevel := "format='%(asctime)s - %(levelname)s"
  const SetupMessage := " - %(message)s')\n"
  const SetupLogger := "logger = logging.getLogger(__name__)\n\n"

  /** No `print(` can overlap the logging import. */
  lemma MarkerApart(p: string)
    requires p == PrintDouble || p == PrintSingle
    ensures forall m :: 0 <= m < |LoggingMarker| ==> !Overlaps(LoggingMarker[m..], p)
    ensures forall m :: 0 < m < |p| ==> !Overlaps(p[m..], LoggingMarker)
  {
    forall m | 0 <= m < |LoggingMarker|
      ensures !Overlaps(LoggingMarker[m..], p)
    {
      if m == 2 {
        assert LoggingMarker[3] == 'o';
        DifferAt(LoggingMarker[m..], p, 1);
      } else {
        assert LoggingMarker[m] != 'p';
        DifferAt(LoggingMarker[m..], p, 0);
      }
    }
    forall m | 0 < m < |p|
      ensures !Overlaps(p[m..], LoggingMarker)
    {
      if m == 2 {
        DifferAt(p[m..], LoggingMarker, 1);
      } else {
        assert p[m] != 'i';
        DifferAt(p[m..], LoggingMarker, 0);
      }
    }
  }

  /** A text that begins with the logging import still does after a
      `print(` replacement. */
  lemma MarkerHead(s: string, p: string, rep: string)
    requires StartsWith(s, LoggingMarker) && (p == PrintDouble || p == PrintSingle)
    ensures StartsWith(ReplaceAll(s, p, rep), LoggingMarker)
  {
    forall m | 0 <= m < |LoggingMarker|
      ensures !StartsWith(s[m..], p)
    {
      assert s[m] == LoggingMarker[m];
      if m == 2 {
        assert s[m..][1] == 'o';
      } else {
        assert s[m..][0] != 'p';
      }
    }
    ReplaceSkipPrefix(s, p, rep, |LoggingMarker|);
    assert s[..|LoggingMarker|] == LoggingMarker;
  }

  /** The two `print` spellings `_add_logging` hands to the logger. */
  function RoutePrints(code: string): (r: string)
    ensures !Contains(r, PrintDouble) && !Contains(r, PrintSingle)
    ensures !Contains(code, PrintDouble) && !Contains(code, PrintSingle) ==> r == code
    ensures Contains(code, LoggingMarker) ==> Contains(r, LoggingMarker)
    ensures StartsWith(code, LoggingMarker) ==> StartsWith(r, LoggingMarker)
    ensures r == Routed(code)
  {
    var once := ReplaceAll(code, PrintDouble, InfoDouble);
    RoutePrintsFacts(code);
    RoutePrintsIsRouted(code);
    ReplaceAll(once, PrintSingle, InfoSingle)
  }

  lemma RoutePrintsFacts(code: string)
    ensures var once := ReplaceAll(code, PrintDouble, InfoDouble);
            var r := ReplaceAll(once, PrintSingle, InfoSingle);
            !Contains(r, PrintDouble) && !Contains(r, PrintSingle) &&
            (!Contains(code, PrintDouble) && !Contains(code, PrintSingle) ==> r == code) &&
            (Contains(code, LoggingMarker) ==> Contains(r, LoggingMarker)) &&
            (StartsWith(code, LoggingMarker) ==> StartsWith(r, LoggingMarker))
  {
    var once := ReplaceAll(code, PrintDouble, InfoDouble);
    ReplaceLeavesNo(code, PrintDouble, InfoDouble, PrintDouble);
    ReplaceLeavesNo(once, PrintSingle, InfoSingle, PrintDouble);
    ReplaceLeavesNo(once, PrintSingle, InfoSingle, PrintSingle);
    if !Contains(code, PrintDouble) && !Contains(code, PrintSingle) {
      ReplaceAbsent(code, PrintDouble, InfoDouble);
      ReplaceAbsent(once, PrintSingle, InfoSingle);
    }
    if Contains(code, LoggingMarker) {
      MarkerApart(PrintDouble);
      MarkerApart(PrintSingle);
      ReplaceKeepsSome(code, PrintDouble, InfoDouble, LoggingMarker);
      ReplaceKeepsSome(once, PrintSingle, InfoSingle, LoggingMarker);
    }
    if StartsWith(code, LoggingMarker) {
      MarkerHead(code, PrintDouble, InfoDouble);
      MarkerHead(once, PrintSingle, InfoSingle);
    }
  }

  /** One left-to-right pass that hands each `print("` and `print('` to
      the logger: the reference the two `replace` passes are held to. */
  function Routed(s: string): string
    decreases |s|
  {
    if StartsWith(s, PrintDouble) then InfoDouble + Routed(s[|PrintDouble|..])
    else if StartsWith(s, PrintSingle) then InfoSingle + Routed(s[|PrintSingle|..])
    else if |s| == 0 then ""
    else [s[0]] + Routed(s[1..])
  }

  /** The two `replace` passes of `_add_logging` are the single pass
      `Routed`: the first pass can neither create nor hide a `print('`. */
  lemma {:induction false} RoutePrintsIsRouted(s: string)
    ensures ReplaceAll(ReplaceAll(s, PrintDouble, InfoDouble), PrintSingle, InfoSingle) == Routed(s)
    decreases |s|
  {
    var once := ReplaceAll(s, PrintDouble, InfoDouble);
    if StartsWith(s, PrintDouble) {
      RoutePrintsIsRouted(s[7..]);
      ReplaceMatchHead(s, PrintDouble, InfoDouble);
      InfoDoubleSkipped(ReplaceAll(s[7..], PrintDouble, InfoDouble));
    } else if StartsWith(s, PrintSingle) {
      RoutePrintsIsRouted(s[7..]);
      forall m | 0 <= m < 7
        ensures !StartsWith(s[m..], PrintDouble)
      {
        assert s[m] == PrintSingle[m];
        if m == 0 {
          assert s[..7] == PrintSingle;
        } else {
          FirstCharDiffers(s[m..], PrintDouble);
        }
      }
      ReplaceSkipPrefix(s, PrintDouble, InfoDouble, 7);
      assert once == PrintSingle + ReplaceAll(s[7..], PrintDouble, InfoDouble);
      ReplaceMatchHead(once, PrintSingle, InfoSingle);
      assert once[7..] == ReplaceAll(s[7..], PrintDouble, InfoDouble);
    } else if |s| > 0 {
      RoutePrintsIsRouted(s[1..]);
      var y := ReplaceAll(s[1..], PrintDouble, InfoDouble);
      assert s == [s[0]] + s[1..];
      ReplaceConsHead(s[0], s[1..], PrintDouble, InfoDouble);
      assert once == [s[0]] + y;
      ReplaceKeepsStart(s[1..], PrintDouble, InfoDouble, PrintSingle[1..]);
      ConsStarts(s[0], y, PrintSingle);
      ConsStarts(s[0], s[1..], PrintSingle);
      ReplaceConsHead(s[0], y, PrintSingle, InfoSingle);
    }
  }

  /** `logger.info("` opens no `print('`, so the second pass copies it. */
  lemma InfoDoubleSkipped(x: string)
    ensures ReplaceAll(InfoDouble + x, PrintSingle, InfoSingle)
              == InfoDouble + ReplaceAll(x, PrintSingle, InfoSingle)
  {
    var t := InfoDouble + x;
    forall m | 0 <= m < |InfoDouble|
      ensures !StartsWith(t[m..], PrintSingle)
    {
      assert t[m] == InfoDouble[m] != 'p';
      FirstCharDiffers(t[m..], PrintSingle);
    }
    ReplaceSkipPrefix(t, PrintSingle, InfoSingle, |InfoDouble|);
    assert t[..|InfoDouble|] == InfoDouble && t[|InfoDouble|..] == x;
  }

  /** No `p` of `a` is followed by an `r`, so no `print(` starts in it. */
  predicate NoPrintOpen(a: string) {
    forall i :: 0 <= i < |a| && a[i] == 'p' ==> i + 1 < |a| && a[i + 1] != 'r'
  }

  /** Text in which no `print(` can start passes through `Routed`
      unchanged. */
  lemma {:induction false} RoutedCat(a: string, b: string)
    requires NoPrintOpen(a)
    ensures Routed(a + b) == a + Routed(b)
    decreases |a|
  {
    if |a| > 0 {
      var t := a + b;
      assert t[0] == a[0];
      if a[0] == 'p' {
        assert t[1] == a[1] != 'r';
        SecondCharDiffers(t, PrintDouble);
        SecondCharDiffers(t, PrintSingle);
      } else {
        FirstCharDiffers(t, PrintDouble);
        FirstCharDiffers(t, PrintSingle);
      }
      assert t[1..] == a[1..] + b;
      assert NoPrintOpen(a[1..]) by {
        forall i | 0 <= i < |a[1..]| && a[1..][i] == 'p'
          ensures i + 1 < |a[1..]| && a[1..][i + 1] != 'r'
        {
          assert a[i + 1] == 'p';
        }
      }
      RoutedCat(a[1..], b);
    } else {
      assert a + b == b;
    }
  }

  lemma SecondCharDiffers(t: string, w: string)
    requires |t| > 1 && |w| > 1 && t[1] != w[1]
    ensures !StartsWith(t, w)
  {
    assert |w| > |t| || t[..|w|][1] == t[1];
  }

  /** Joining two such texts makes none when the first does not end in
      `p`. */
  lemma NoPrintOpenCat(x: string, y: string)
    requires NoPrintOpen(x) && NoPrintOpen(y) && (|x| > 0 ==> x[|x| - 1] != 'p')
    ensures NoPrintOpen(x + y)
  {
    forall i | 0 <= i < |x + y| && (x + y)[i] == 'p'
      ensures i + 1 < |x + y| && (x + y)[i + 1] != 'r'
    {
      if i >= |x| {
        assert y[i - |x|] == 'p';
      } else {
        assert x[i] == 'p';
      }
    }
  }

  lemma NoPNoPrintOpen(a: string)
    requires 'p' !in a
    ensures NoPrintOpen(a)
  {
    forall i | 0 <= i < |a| ensures a[i] != 'p' {
      assert a[i] in a;
    }
  }

  /** The lines of the logging setup after the import hold no `p`. */
  lemma SetupNoP()
    ensures 'p' !in SetupBody
  {
    SetupPiecesNoP();
    NoCharIn5('p', SetupComment, SetupConfig, SetupLevel, SetupMessage, SetupLogger);
  }

  lemma SetupPiecesNoP()
    ensures 'p' !in SetupComment && 'p' !in SetupConfig && 'p' !in SetupLevel
    ensures 'p' !in SetupMessage && 'p' !in SetupLogger
  {
    CommentNoP();
    ConfigNoP();
    LevelNoP();
    MessageNoP();
    LoggerNoP();
  }

  lemma CommentNoP() ensures 'p' !in SetupComment {}
  lemma ConfigNoP() ensures 'p' !in SetupConfig {}
  lemma LevelNoP() ensures 'p' !in SetupLevel {}
  lemma MessageNoP() ensures 'p' !in SetupMessage {}
  lemma LoggerNoP() ensures 'p' !in SetupLogger {}

  lemma NoCharIn5(ch: char, a: string, b: string, c: string, d: string, e: string)
    requires ch !in a && ch !in b && ch !in c && ch !in d && ch !in e
    ensures ch !in a + b + c + d + e
  {
  }

  /** The one `p` of the logging import is followed by `o`. */
  lemma MarkerNoPrintOpen()
    ensures NoPrintOpen(LoggingMarker) && LoggingMarker[|LoggingMarker| - 1] != 'p'
  {
    forall i | 0 <= i < |LoggingMarker| && LoggingMarker[i] == 'p'
      ensures i + 1 < |LoggingMarker| && LoggingMarker[i + 1] != 'r'
    {
      assert i == 2;
    }
  }

  /** The logging setup passes through `Routed` unchanged. */
  lemma RoutedSetup(code: string)
    ensures Routed(LoggingSetup + code) == LoggingSetup + Routed(code)
  {
    SetupNoP();
    NoPNoPrintOpen(SetupBody);
    MarkerNoPrintOpen();
    NoPrintOpenCat(LoggingMarker, SetupBody);
    RoutedCat(LoggingSetup, code);
  }

  /** `_add_logging`: code without the logging import gets the logging
      setup in front, then every `print("` and `print('` becomes a logger
      call. */
  function AddLogging(code: string): (r: string)
    ensures Contains(r, LoggingMarker)
    ensures !Contains(r, PrintDouble) && !Contains(r, PrintSingle)
    ensures !Contains(code, LoggingMarker) ==> StartsWith(r, LoggingMarker)
    ensures Contains(code, LoggingMarker) ==> r == Routed(code)
    ensures !Contains(code, LoggingMarker) ==> r == LoggingSetup + Routed(code)
  {
    var full := if Contains(code, LoggingMarker) then code else LoggingSetup + code;
    SetupLeads(code);
    RoutedSetup(code);
    RoutePrints(full)
  }

  lemma SetupLeads(code: string)
    ensures StartsWith(LoggingSetup + code, LoggingMarker)
    ensures Contains(LoggingSetup + code, LoggingMarker)
  {
    assert (LoggingSetup + code)[..|LoggingMarker|] == LoggingMarker;
  }

  /** A second pass of `_add_logging` changes nothing. */
  lemma AddLoggingIdempotent(code: string)
    ensures AddLogging(AddLogging(code)) == AddLogging(code)
  {
  }

  // ---------------------------------------------------------------------
  // _apply_feedback_improvements
  // ---------------------------------------------------------------------

  const EvalLead := "# eval() "
  /** The two lines of the `eval(` replacement; the code that followed the
      call continues the second. */
  const EvalLine := EvalLead + "removed for security - " + "use ast.literal_eval() instead"
  const EvalCall := "# ast.literal_eval("
  const EvalReplacement := EvalLine + "\n" + EvalCall
  const ExecLead := "# exec() "
  const ExecLine := ExecLead + "removed for security"
  const ExecReplacement := ExecLine + "\n# "

  /** `eval(` and `exec(` cannot overlap. */
  lemma CallsApart(w: string, p: string)
    requires (w == "eval(" && p == "exec(") || (w == "exec(" && p == "eval(")
    ensures forall m :: 0 <= m < |w| ==> !Overlaps(w[m..], p)
    ensures forall m :: 0 < m < |p| ==> !Overlaps(p[m..], w)
  {
    forall m | 0 <= m < |w|
      ensures !Overlaps(w[m..], p)
    {
      if m == 0 {
        DifferAt(w, p, 1);
      } else if m == 2 && w == "exec(" {
        DifferAt(w[m..], p, 1);
      } else {
        assert w[m] != 'e';
        DifferAt(w[m..], p, 0);
      }
    }
    forall m | 0 < m < |p|
      ensures !Overlaps(p[m..], w)
    {
      if m == 2 {
        DifferAt(p[m..], w, 1);
      } else {
        assert p[m] != 'e';
        DifferAt(p[m..], w, 0);
      }
    }
  }

  /** The security step: with "security" in the feedback, every `eval(`
      and then every `exec(` is commented out. Each replacement still
      spells the call it removes, so the code keeps every call it had. */
  function Secure(code: string, fl: string): (r: string)
    ensures !Contains(fl, "security") ==> r == code
    ensures Contains(fl, "security") ==>
              r == ReplaceAll(ReplaceAll(code, "eval(", EvalReplacement), "exec(", ExecReplacement)
    ensures Contains(fl, "security") ==> CallsInComments(r, DynamicCalls, false)
    ensures !Contains(code, "eval(") && !Contains(code, "exec(") ==> r == code
    ensures Contains(code, "eval(") ==> Contains(r, "eval(")
    ensures Contains(code, "exec(") ==> Contains(r, "exec(")
  {
    var evals := if Contains(code, "eval(") && Contains(fl, "security")
                 then ReplaceAll(code, "eval(", EvalReplacement) else code;
    SecureFacts(code, fl);
    SecureUnconditional(code, fl);
    SecuredCallsCommented(code);
    if Contains(evals, "exec(") && Contains(fl, "security") then ReplaceAll(evals, "exec(", ExecReplacement) else evals
  }

  /** Replacing a call that does not occur changes nothing, so the two
      guarded replacements are the two plain ones. */
  lemma SecureUnconditional(code: string, fl: string)
    ensures var evals := if Contains(code, "eval(") then ReplaceAll(code, "eval(", EvalReplacement) else code;
            evals == ReplaceAll(code, "eval(", EvalReplacement) &&
            (if Contains(evals, "exec(") then ReplaceAll(evals, "exec(", ExecReplacement) else evals)
              == ReplaceAll(evals, "exec(", ExecReplacement)
  {
    if !Contains(code, "eval(") {
      ReplaceAbsent(code, "eval(", EvalReplacement);
    }
    var evals := ReplaceAll(code, "eval(", EvalReplacement);
    if !Contains(evals, "exec(") {
      ReplaceAbsent(evals, "exec(", ExecReplacement);
    }
  }

  lemma SecureFacts(code: string, fl: string)
    ensures var evals := if Contains(code, "eval(") && Contains(fl, "security")
                         then ReplaceAll(code, "eval(", EvalReplacement) else code;
            var r := if Contains(evals, "exec(") && Contains(fl, "security")
                     then ReplaceAll(evals, "exec(", ExecReplacement) else evals;
            (!Contains(code, "eval(") ==> evals == code) &&
            (Contains(code, "eval(") ==> Contains(r, "eval(")) &&
            (Contains(code, "exec(") ==> Contains(r, "exec("))
  {
    var evals := if Contains(code, "eval(") && Contains(fl, "security")
                 then ReplaceAll(code, "eval(", EvalReplacement) else code;
    assert EvalReplacement[..|EvalLead|] == EvalLead;
    assert EvalReplacement[2..7] == EvalLead[2..7] == "eval(";
    ContainsAt(EvalReplacement, "eval(", 2);
    assert ExecReplacement[..|ExecLead|] == ExecLead;
    assert ExecReplacement[2..7] == ExecLead[2..7] == "exec(";
    ContainsAt(ExecReplacement, "exec(", 2);
    if Contains(code, "eval(") && Contains(fl, "security") {
      ReplaceIntroduces(code, "eval(", EvalReplacement);
      ContainsTrans(evals, EvalReplacement, "eval(");
    }
    if Contains(code, "exec(") && Contains(fl, "security") {
      CallsApart("exec(", "eval(");
      ReplaceKeepsSome(code, "eval(", EvalReplacement, "exec(");
    }
    if Contains(evals, "exec(") && Contains(fl, "security") {
      var r := ReplaceAll(evals, "exec(", ExecReplacement);
      ReplaceIntroduces(evals, "exec(", ExecReplacement);
      ContainsTrans(r, ExecReplacement, "exec(");
      if Contains(evals, "eval(") {
        CallsApart("eval(", "exec(");
        ReplaceKeepsSome(evals, "exec(", ExecReplacement, "eval(");
      }
    }
  }

  // ---------------------------------------------------------------------
  // Where the security rewrite leaves the calls
  // ---------------------------------------------------------------------

  /** The calls the security rewrite is about. */
  const DynamicCalls := ["eval(", "exec("]

  /** Python's comment state after reading `c`: a `#` opens a comment and
      a newline closes it. */
  function NextInComment(c: char, inComment: bool): bool {
    if c == '\n' then false else inComment || c == '#'
  }

  /** One of `calls` begins here. */
  predicate OpensCall(s: string, calls: seq<string>) {
    exists c :: c in calls && StartsWith(s, c)
  }

  /** Reading `s` left to right from the comment state `inComment`, every
      position where one of `calls` begins lies inside a comment, so the
      call is never executed. Quotes are not tracked: a `#` inside a
      string literal counts as a comment here. */
  predicate CallsInComments(s: string, calls: seq<string>, inComment: bool)
    decreases |s|
  {
    |s| == 0 ||
    ((inComment || !OpensCall(s, calls)) && CallsInComments(s[1..], calls, NextInComment(s[0], inComment)))
  }

  /** Starting inside a comment only makes it easier. */
  lemma {:induction false} CommentRaise(s: string, calls: seq<string>, f: bool)
    requires CallsInComments(s, calls, f)
    ensures CallsInComments(s, calls, true)
    decreases |s|
  {
    if |s| > 0 && s[0] != '\n' {
      CommentRaise(s[1..], calls, NextInComment(s[0], f));
    }
  }

  /** What follows the first `k` characters of a text whose calls are
      commented has its calls commented when read from inside a comment. */
  lemma {:induction false} CommentDrop(s: string, calls: seq<string>, f: bool, k: nat)
    requires 0 < k <= |s| && CallsInComments(s, calls, f)
    ensures CallsInComments(s[k..], calls, true)
    decreases k
  {
    CommentRaise(s[1..], calls, NextInComment(s[0], f));
    if k > 1 {
      CommentDrop(s[1..], calls, true, k - 1);
      assert s[1..][k - 1..] == s[k..];
    }
  }

  /** Text shorter than every call holds none. */
  lemma {:induction false} ShortHoldsNoCall(s: string, calls: seq<string>, f: bool)
    requires forall c :: c in calls ==> |c| > |s|
    ensures CallsInComments(s, calls, f)
    decreases |s|
  {
    if |s| > 0 {
      ShortHoldsNoCall(s[1..], calls, NextInComment(s[0], f));
    }
  }

  /** Text without a newline, read inside a comment, stays inside it. */
  lemma {:induction false} StaysInComment(m: string, u: string, calls: seq<string>)
    requires '\n' !in m && CallsInComments(u, calls, true)
    ensures CallsInComments(m + u, calls, true)
    decreases |m|
  {
    if |m| > 0 {
      StaysInComment(m[1..], u, calls);
      assert (m + u)[1..] == m[1..] + u;
      assert (m + u)[0] == m[0];
    } else {
      assert m + u == u;
    }
  }

  /** A comment line: a `#` and then no newline. */
  lemma CommentLine(m: string, u: string, calls: seq<string>, f: bool)
    requires |m| > 0 && m[0] == '#' && '\n' !in m
    requires forall c :: c in calls ==> |c| > 0 && c[0] != '#'
    requires CallsInComments(u, calls, true)
    ensures CallsInComments(m + u, calls, f)
  {
    StaysInComment(m[1..], u, calls);
    assert (m + u)[1..] == m[1..] + u;
    forall c | c in calls
      ensures !StartsWith(m + u, c)
    {
      FirstCharDiffers(m + u, c);
    }
  }

  /** The lines of the two replacements are comments. */
  lemma ReplacementLines()
    ensures '\n' !in EvalLine && EvalLine[0] == '#'
    ensures '\n' !in EvalCall && EvalCall[0] == '#'
    ensures '\n' !in ExecLine && ExecLine[0] == '#'
  {
    assert '\n' !in EvalLine by {
      assert '\n' !in EvalLead;
      assert '\n' !in "removed for security - ";
      assert '\n' !in "use ast.literal_eval() instead";
    }
    assert '\n' !in ExecLine by {
      assert '\n' !in ExecLead;
      assert '\n' !in "removed for security";
    }
  }

  /** The `eval(` replacement, whatever the state before it, leaves the
      reader inside the comment on its second line. */
  lemma EvalReplacementComments(u: string, calls: seq<string>, f: bool)
    requires forall c :: c in calls ==> |c| > 0 && c[0] != '#'
    requires CallsInComments(u, calls, true)
    ensures CallsInComments(EvalReplacement + u, calls, f)
  {
    ReplacementLines();
    TwoCommentLines(EvalLine, EvalCall, u, calls, f);
  }

  /** Two comment lines, the second continued by `u`. */
  lemma TwoCommentLines(m1: string, m2: string, u: string, calls: seq<string>, f: bool)
    requires |m1| > 0 && m1[0] == '#' && '\n' !in m1
    requires |m2| > 0 && m2[0] == '#' && '\n' !in m2
    requires forall c :: c in calls ==> |c| > 0 && c[0] != '#'
    requires CallsInComments(u, calls, true)
    ensures CallsInComments(m1 + "\n" + m2 + u, calls, f)
  {
    CommentLine(m2, u, calls, false);
    assert ("\n" + (m2 + u))[1..] == m2 + u;
    CommentLine(m1, "\n" + (m2 + u), calls, f);
    assert m1 + "\n" + m2 + u == m1 + ("\n" + (m2 + u));
  }

  /** So does the `exec(` replacement. */
  lemma ExecReplacementComments(u: string, calls: seq<string>, f: bool)
    requires forall c :: c in calls ==> |c| > 0 && c[0] != '#'
    requires CallsInComments(u, calls, true)
    ensures CallsInComments(ExecReplacement + u, calls, f)
  {
    ReplacementLines();
    TwoCommentLines(ExecLine, "# ", u, calls, f);
    assert ExecReplacement == ExecLine + "\n" + "# ";
  }

  /** After the `eval(` pass every `eval(` is commented. */
  lemma {:induction false} EvalPassComments(s: string, f: bool)
    ensures CallsInComments(ReplaceAll(s, "eval(", EvalReplacement), ["eval("], f)
    decreases |s|
  {
    var calls := ["eval("];
    var r := ReplaceAll(s, "eval(", EvalReplacement);
    assert EvalReplacement[0] == '#';
    if |s| < 5 {
      ShortHoldsNoCall(s, calls, f);
    } else if s[..5] == "eval(" {
      EvalPassComments(s[5..], true);
      EvalReplacementComments(ReplaceAll(s[5..], "eval(", EvalReplacement), calls, f);
    } else {
      var t := ReplaceAll(s[1..], "eval(", EvalReplacement);
      EvalPassComments(s[1..], NextInComment(s[0], f));
      assert r == [s[0]] + t;
      assert r[1..] == t;
      ReplaceKeepsStart(s, "eval(", EvalReplacement, "eval(");
      assert !OpensCall(r, calls);
    }
  }

  /** The `exec(` pass keeps commented `eval(` calls commented and
      comments every `exec(`. */
  lemma {:induction false} ExecPassComments(t: string, f: bool)
    requires CallsInComments(t, ["eval("], f)
    ensures CallsInComments(ReplaceAll(t, "exec(", ExecReplacement), DynamicCalls, f)
    decreases |t|
  {
    var r := ReplaceAll(t, "exec(", ExecReplacement);
    assert ExecReplacement[0] == '#';
    if |t| < 5 {
      ShortHoldsNoCall(t, DynamicCalls, f);
    } else if t[..5] == "exec(" {
      CommentDrop(t, ["eval("], f, 5);
      ExecPassComments(t[5..], true);
      ExecReplacementComments(ReplaceAll(t[5..], "exec(", ExecReplacement), DynamicCalls, f);
    } else {
      var rest := ReplaceAll(t[1..], "exec(", ExecReplacement);
      ExecPassComments(t[1..], NextInComment(t[0], f));
      assert r == [t[0]] + rest;
      assert r[1..] == rest;
      ReplaceKeepsStart(t, "exec(", ExecReplacement, "exec(");
      ReplaceKeepsStart(t, "exec(", ExecReplacement, "eval(");
      assert StartsWith(t, "eval(") ==> OpensCall(t, ["eval("]);
    }
  }

  /** Both passes together leave every `eval(` and `exec(` in a comment. */
  lemma SecuredCallsCommented(code: string)
    ensures CallsInComments(ReplaceAll(ReplaceAll(code, "eval(", EvalReplacement), "exec(", ExecReplacement),
                            DynamicCalls, false)
  {
    EvalPassComments(code, false);
    ExecPassComments(ReplaceAll(code, "eval(", EvalReplacement), false);
  }

  /** The words of the (lower-cased) feedback that trigger a rewrite. */
  const TriggerWords := ["security", "docstring", "type hint", "error handling", "exception",
                         "performance", "logging", "style", "pep 8"]

  const TripleQuote := "\"\"\""

  /** `_apply_feedback_improvements` on string code, given the lower-cased
      feedback `fl`: the rewrites run in a fixed order, each when its words
      appear in the feedback. */
  function ApplyFeedbackText(code: string, fl: string): (r: string)
    ensures !ContainsAny(fl, TriggerWords) ==> r == code
    ensures Contains(fl, "logging") && !Contains(fl, "style") && !Contains(fl, "pep 8") ==>
              Contains(r, LoggingMarker)
    ensures Contains(fl, "type hint") && !ContainsAny(fl, TriggerWords[3..]) ==> ImportsTyping(r)
    ensures Contains(code, "eval(") && !ContainsAny(fl, TriggerWords[1..]) ==> Contains(r, "eval(")
  {
    var secured := Secure(code, fl);
    var documented := if Contains(fl, "docstring") && !Contains(secured, TripleQuote) then AddDocstrings(secured) else secured;
    var hinted := if Contains(fl, "type hint") then AddTypeHints(documented) else documented;
    var guarded := if Contains(fl, "error handling") || Contains(fl, "exception") then AddErrorHandling(hinted) else hinted;
    var optimized := if Contains(fl, "performance") then OptimizePerformance(guarded) else guarded;
    var logged := if Contains(fl, "logging") && !Contains(optimized, LoggingMarker) then AddLogging(optimized) else optimized;
    TriggerWordsAbsent(fl);
    if Contains(fl, "style") || Contains(fl, "pep 8") then FixStyle(logged) else logged
  }

  lemma TriggerWordsAbsent(fl: string)
    ensures !ContainsAny(fl, TriggerWords) ==>
              !Contains(fl, "security") && !Contains(fl, "docstring") && !Contains(fl, "type hint")
    ensures !ContainsAny(fl, TriggerWords[1..]) ==> !Contains(fl, "docstring") && !Contains(fl, "type hint")
    ensures !ContainsAny(fl, TriggerWords[3..]) ==>
              !Contains(fl, "error handling") && !Contains(fl, "exception") && !Contains(fl, "performance") &&
              !Contains(fl, "logging") && !Contains(fl, "style") && !Contains(fl, "pep 8")
    ensures !ContainsAny(fl, TriggerWords) ==> !ContainsAny(fl, TriggerWords[1..]) && !ContainsAny(fl, TriggerWords[3..])
    ensures !ContainsAny(fl, TriggerWords[1..]) ==> !ContainsAny(fl, TriggerWords[3..])
  {
    var t1 := TriggerWords[1..];
    var t3 := TriggerWords[3..];
    assert TriggerWords[0] == "security";
    assert t1[0] == "docstring" && t1[1] == "type hint";
    assert t3[0] == "error handling" && t3[1] == "exception" && t3[2] == "performance";
    assert t3[3] == "logging" && t3[4] == "style" && t3[5] == "pep 8";
    if !ContainsAny(fl, TriggerWords) {
      assert !Contains(fl, TriggerWords[0]);
      forall k | 0 <= k < |t1|
        ensures !Contains(fl, t1[k])
      {
        assert t1[k] == TriggerWords[k + 1];
      }
    }
    if !ContainsAny(fl, t1) {
      forall k | 0 <= k < |t3|
        ensures !Contains(fl, t3[k])
      {
        assert t3[k] == t1[k + 2];
      }
    }
  }
}
