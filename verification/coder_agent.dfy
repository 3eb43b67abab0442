/** `PythonCoderAgent.process` and `_improve_code_with_feedback`: a request
    is validated, then either improves earlier code with reviewer feedback
    (a dict carrying "feedback") or generates files from its requirements.
    The agent name and the `context` passed through to every reply are not
    modelled; `str()` of a value is the `render` parameter. */
module CoderAgent {
  import opened Common
  import opened Text
  import opened Dicts
  import opened Values
  import opened Coder

  // ---------------------------------------------------------------------
  // _apply_feedback_improvements on any value
  // ---------------------------------------------------------------------

  /** Python's `x in v` for a list (element equality) or a dict (keys). */
  predicate Member(v: Value, x: string)
    requires v.VList? || v.VDict?
  {
    if v.VList? then VStr(x) in v.items else HasKey(v.entries, x)
  }

  /** The `TypeError` of `"..." + v` for a value that is not a string. */
  function ConcatError(v: Value): string {
    "can only concatenate str (not \"" + TypeName(v) + "\") to str"
  }

  /** The `TypeError` of `"..." in v` for a scalar `v`. */
  function NotIterable(v: Value): string {
    "argument of type '" + TypeName(v) + "' is not iterable"
  }

  /** `_apply_feedback_improvements` when the code is a list or a dict: the
      `in` tests work on it, so the first rewrite that is triggered raises
      when it calls a string method on it or adds a string to it; when no
      rewrite is triggered the value comes back as it was. */
  function ContainerRewrite(c: Value, fl: string): (r: Outcome<Value>)
    requires c.VList? || c.VDict?
    ensures r.Ok? ==> r.value == c
    ensures !ContainsAny(fl, TriggerWords) ==> r == Ok(c)
    ensures Contains(fl, "security") && (Member(c, "eval(") || Member(c, "exec(")) ==>
              r == Fail(NoAttribute(c, "replace"))
    ensures (Contains(fl, "type hint") || Contains(fl, "error handling") || Contains(fl, "exception") ||
             Contains(fl, "performance") || Contains(fl, "style") || Contains(fl, "pep 8")) ==> r.Fail?
  {
    TriggerWordsAbsent(fl);
    if Contains(fl, "security") && (Member(c, "eval(") || Member(c, "exec(")) then
      Fail(NoAttribute(c, "replace"))
    else if Contains(fl, "docstring") && !Member(c, TripleQuote) then
      Fail(NoAttribute(c, "split"))
    else if Contains(fl, "type hint") then
      if !Member(c, TypingMarker) && !Member(c, "import typing") then Fail(ConcatError(c))
      else Fail(NoAttribute(c, "replace"))
    else if Contains(fl, "error handling") || Contains(fl, "exception") then
      Fail(NoAttribute(c, "split"))
    else if Contains(fl, "performance") then
      Fail(NoAttribute(c, "replace"))
    else if Contains(fl, "logging") && !Member(c, LoggingMarker) then
      Fail(ConcatError(c))
    else if Contains(fl, "style") || Contains(fl, "pep 8") then
      Fail(NoAttribute(c, "split"))
    else Ok(c)
  }

  /** `_apply_feedback_improvements(code, feedback)` on any values. The
      feedback is lower-cased first, so feedback that is not a string
      raises before anything else; a scalar in place of the code raises on
      the first `in` test. */
  function ApplyFeedback(code: Value, feedback: Value): (r: Outcome<Value>)
    ensures !feedback.VStr? ==> r == Fail(NoAttribute(feedback, "lower"))
    ensures feedback.VStr? && code.VStr? ==> r.Ok? && r.value.VStr?
    ensures feedback.VStr? && (code.VNone? || code.VBool? || code.VInt? || code.VReal?) ==>
              r == Fail(NotIterable(code))
    ensures (feedback.VStr? && !ContainsAny(Lower(feedback.s), TriggerWords) &&
             (code.VStr? || code.VList? || code.VDict?)) ==> r == Ok(code)
    ensures feedback.VStr? && code.VStr? ==> r == Ok(VStr(ApplyFeedbackText(code.s, Lower(feedback.s))))
    ensures feedback.VStr? && (code.VList? || code.VDict?) ==> r == ContainerRewrite(code, Lower(feedback.s))
    ensures (feedback.VStr? && code.VStr? && Contains(Lower(feedback.s), "logging") &&
             !Contains(Lower(feedback.s), "style") && !Contains(Lower(feedback.s), "pep 8")) ==>
              Contains(r.value.s, LoggingMarker)
  {
    if !feedback.VStr? then Fail(NoAttribute(feedback, "lower"))
    else
      var fl := Lower(feedback.s);
      match code
      case VStr(s) => Ok(VStr(ApplyFeedbackText(s, fl)))
      case VList(_) => ContainerRewrite(code, fl)
      case VDict(_) => ContainerRewrite(code, fl)
      case _ => Fail(NotIterable(code))
  }

  // ---------------------------------------------------------------------
  // process
  // ---------------------------------------------------------------------

  /** The requirements `process` reads from a request: a string is its own
      requirements; a dict gives its "requirements", else its
      "original_request", else its "user_input", else its own `str()`;
      anything else gives its `str()`. */
  function Requirements(v: Value, render: Renderer): (r: Value)
    ensures v.VStr? ==> r == v
    ensures !v.VStr? && !v.VDict? ==> r == VStr(render(v))
    ensures v.VDict? && HasKey(v.entries, "requirements") ==> Some(r) == Get(v.entries, "requirements")
    ensures v.VDict? && !HasKey(v.entries, "requirements") && HasKey(v.entries, "original_request") ==>
              Some(r) == Get(v.entries, "original_request")
    ensures (v.VDict? && !HasKey(v.entries, "requirements") && !HasKey(v.entries, "original_request") &&
             HasKey(v.entries, "user_input")) ==> Some(r) == Get(v.entries, "user_input")
    ensures (v.VDict? && !HasKey(v.entries, "requirements") && !HasKey(v.entries, "original_request") &&
             !HasKey(v.entries, "user_input")) ==> r == VStr(render(v))
  {
    match v
    case VStr(_) => v
    case VDict(d) =>
      GetOr(d, "requirements", GetOr(d, "original_request", GetOr(d, "user_input", VStr(render(v)))))
    case _ => VStr(render(v))
  }

  /** What `process` returns. */
  datatype CoderReply =
    | Rejected(validation: Validation)
    | Generated(files: Dict<string>, requirements: Value, validation: Validation)
    | GenerationFailed(error: string, requirements: Value, validation: Validation)
    | Improved(code: Value, original: Value, feedback: Value, iteration: Value)
    | ImprovementFailed(error: string, input: Value)
  {
    /** The reply's "success" field; a rejection has none. */
    predicate Succeeded() {
      Generated? || Improved?
    }
  }

  /** Whether a request's requirements pick the web or the GUI template,
      whose generators the class does not define. */
  predicate MissingTemplate(requirements: Value) {
    requirements.VStr? && (Classify(requirements.s) == WebApi || Classify(requirements.s) == GuiApp)
  }

  /** Fresh generation from an accepted request that is not an
      improvement request, as written: string requirements that pick the
      web or GUI template fail with the missing-method error. */
  function Fresh(v: Value, validation: Validation, b: Bodies, render: Renderer): (r: CoderReply)
    ensures r.Generated? || r.GenerationFailed?
    ensures r.requirements == Requirements(v, render) && r.validation == validation
    ensures r.Generated? <==> Requirements(v, render).VStr? && !MissingTemplate(Requirements(v, render))
    ensures r.Generated? ==>
              r.files == TemplateFiles(Classify(Requirements(v, render).s), Requirements(v, render).s, b)
    ensures !Requirements(v, render).VStr? ==> r.GenerationFailed? && r.error == NoAttribute(Requirements(v, render), "lower")
    ensures Requirements(v, render).VStr? && Classify(Requirements(v, render).s) == WebApi ==>
              r.GenerationFailed? && r.error == MissingWebGenerator
    ensures Requirements(v, render).VStr? && Classify(Requirements(v, render).s) == GuiApp ==>
              r.GenerationFailed? && r.error == MissingGuiGenerator
  {
    var requirements := Requirements(v, render);
    match GenerateAsWritten(requirements, b)
    case Ok(files) => Generated(files, requirements, validation)
    case Fail(e) => GenerationFailed(e, requirements, validation)
  }

  /** Fresh generation with the web and GUI generators in place: every
      string requirement gets its template's files. */
  function FreshIntended(v: Value, validation: Validation, b: Bodies, render: Renderer): (r: CoderReply)
    ensures r.Generated? || r.GenerationFailed?
    ensures r.requirements == Requirements(v, render) && r.validation == validation
    ensures r.Generated? <==> Requirements(v, render).VStr?
    ensures r.Generated? ==>
              r.files == TemplateFiles(Classify(Requirements(v, render).s), Requirements(v, render).s, b)
    ensures r.GenerationFailed? ==> r.error == NoAttribute(Requirements(v, render), "lower")
  {
    var requirements := Requirements(v, render);
    match Generate(requirements, b)
    case Ok(files) => Generated(files, requirements, validation)
    case Fail(e) => GenerationFailed(e, requirements, validation)
  }

  /** The generation as written and the intended one give the same reply
      exactly when the requirements pick neither the web nor the GUI
      template. */
  lemma FreshAgrees(v: Value, validation: Validation, b: Bodies, render: Renderer)
    ensures (Fresh(v, validation, b, render) == FreshIntended(v, validation, b, render))
              <==> !MissingTemplate(Requirements(v, render))
  {
  }

  /** `process`: a falsy request is rejected; an accepted dict carrying
      "feedback" takes the improvement path; anything else is generated
      from its requirements. */
  function Process(v: Value, b: Bodies, render: Renderer): (r: CoderReply)
    ensures !Truthy(v) ==> r == Rejected(Validation(false, [], []))
    ensures Truthy(v) && IsDictWith(v, "feedback") ==> r == Improve(v, b, render)
    ensures Truthy(v) && !IsDictWith(v, "feedback") ==>
              (r.Generated? || r.GenerationFailed?) &&
              r.requirements == Requirements(v, render) && r.validation == ValidateInput(v)
    ensures Truthy(v) && v.VStr? ==>
              r.requirements == v && (r.Generated? <==> Classify(v.s) != WebApi && Classify(v.s) != GuiApp)
    decreases v, 1
  {
    var validation := ValidateInput(v);
    if !validation.isValid then Rejected(validation)
    else if IsDictWith(v, "feedback") then Improve(v, b, render)
    else Fresh(v, validation, b, render)
  }

  /** `_improve_code_with_feedback`: with no code to improve, the original
      request is processed afresh (an absent one is the empty string, which
      is rejected); otherwise the feedback is applied, and an exception
      while applying it becomes a failure reply carrying the input. */
  function Improve(v: Value, b: Bodies, render: Renderer): (r: CoderReply)
    requires v.VDict?
    ensures !Truthy(Field(v, "current_code").GetOr(VStr(""))) && !HasKey(v.entries, "original_request") ==>
              r == Rejected(Validation(false, [], []))
    ensures Truthy(Field(v, "current_code").GetOr(VStr(""))) ==> r.Improved? || (r.ImprovementFailed? && r.input == v)
    ensures r.Improved? && Truthy(Field(v, "current_code").GetOr(VStr(""))) ==>
              r.original == Field(v, "current_code").value &&
              r.feedback == Field(v, "feedback").GetOr(VStr("")) &&
              r.iteration == Field(v, "iteration").GetOr(VInt(1))
    ensures (Field(v, "current_code").GetOr(VStr("")).VStr? && Truthy(Field(v, "current_code").GetOr(VStr(""))) &&
             Field(v, "feedback").GetOr(VStr("")).VStr?) ==> r.Improved?
    ensures Truthy(Field(v, "current_code").GetOr(VStr(""))) && r.Improved? ==>
              ApplyFeedback(Field(v, "current_code").value, Field(v, "feedback").GetOr(VStr(""))) == Ok(r.code)
    ensures Truthy(Field(v, "current_code").GetOr(VStr(""))) && r.ImprovementFailed? ==>
              ApplyFeedback(Field(v, "current_code").value, Field(v, "feedback").GetOr(VStr(""))) == Fail(r.error)
    decreases v, 0
  {
    var code := Field(v, "current_code").GetOr(VStr(""));
    var feedback := Field(v, "feedback").GetOr(VStr(""));
    var iteration := Field(v, "iteration").GetOr(VInt(1));
    if !Truthy(code) then
      match Get(v.entries, "original_request")
      case Some(o) =>
        GetSmaller(v.entries, "original_request");
        Process(o, b, render)
      case None => Rejected(ValidateInput(VStr("")))
    else
      match ApplyFeedback(code, feedback)
      case Ok(improved) => Improved(improved, code, feedback, iteration)
      case Fail(e) => ImprovementFailed(e, v)
  }

  /** An improvement request with no code to improve is its original
      request processed afresh. */
  lemma EmptyCodeRegenerates(v: Value, b: Bodies, render: Renderer)
    requires Truthy(v) && IsDictWith(v, "feedback") && HasKey(v.entries, "original_request")
    requires !Truthy(Field(v, "current_code").GetOr(VStr("")))
    ensures Process(v, b, render) == Process(Get(v.entries, "original_request").value, b, render)
  {
  }

  /** An improvement request with string code and string feedback comes
      back as the text rewrite of the code under the lower-cased feedback. */
  lemma ImproveRewritesText(v: Value, b: Bodies, render: Renderer)
    requires Truthy(v) && IsDictWith(v, "feedback")
    requires Field(v, "current_code").Some? && Field(v, "current_code").value.VStr?
    requires Truthy(Field(v, "current_code").value)
    requires Field(v, "feedback").value.VStr?
    ensures Process(v, b, render)
              == Improved(VStr(ApplyFeedbackText(Field(v, "current_code").value.s, Lower(Field(v, "feedback").value.s))),
                          Field(v, "current_code").value, Field(v, "feedback").value,
                          Field(v, "iteration").GetOr(VInt(1)))
  {
  }

  /** A web request is accepted and then fails for want of the web
      generator; with the generator in place it would produce the web
      template's files. */
  lemma WebRequestFailsInAgent(b: Bodies, render: Renderer)
    ensures Process(VStr("web"), b, render).GenerationFailed?
    ensures Process(VStr("web"), b, render).error == MissingWebGenerator
    ensures FreshIntended(VStr("web"), ValidateInput(VStr("web")), b, render).Generated?
  {
    WebRequestFails(b);
  }

  /** An improvement request whose feedback names no rewrite hands back the
      code it was given. */
  lemma NoTriggerKeepsCode(v: Value, b: Bodies, render: Renderer)
    requires Truthy(v) && IsDictWith(v, "feedback")
    requires Field(v, "current_code").Some? && Field(v, "current_code").value.VStr?
    requires Truthy(Field(v, "current_code").value)
    requires Field(v, "feedback").value.VStr? && !ContainsAny(Lower(Field(v, "feedback").value.s), TriggerWords)
    ensures Process(v, b, render).Improved?
    ensures Process(v, b, render).code == Process(v, b, render).original == Field(v, "current_code").value
  {
  }
}
