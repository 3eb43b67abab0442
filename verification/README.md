# GenXcoder agent orchestration core, modelled in Dafny

GenXcoder turns a plain-language request into a Python project. A pipeline
of agents runs over the request. Its centre is an iterative loop: a
*python coder* agent writes code, a *code reviewer* agent scores it, and the
coder rewrites the code with the reviewer's feedback until the score reaches
a threshold or the iteration budget runs out. This project models that core
as pure Dafny functions over immutable values and proves what it promises:

- **Feedback records** (`Feedback`, `agent-service/models/feedback.py`):
  - the six quality metrics and their mean;
  - the threshold test and the critical-issue filter;
  - first-to-last improvement;
  - the truncating `to_dict` projections;
  - aggregation of several reviews.
- **Evaluator parsing** (`Evaluator`, `_parse_evaluator_output` and helpers in
  `agent-service/core/iterative_executor.py`). There are three output shapes:
  - a dict holding `quality_score`;
  - a `StructuredFeedback` object;
  - anything else, read as free text and scored by keywords.

  There is also a neutral fallback for when parsing raises.
- **The improve/evaluate loop** (`Loop`, `execute_iterative_loop`). The two
  agents become a scripted sequence of attempts. Each attempt says whether:
  - the improver succeeded;
  - the evaluator succeeded;
  - handling the recorded iteration raised.

  The loop is modelled twice. `Loop.IterateAsWritten` follows the source,
  including the duplicate record described under "## Findings", and is what
  the pipeline's iterative step runs. `Loop.RunLoop` is the corrected loop.
  `Pipeline.StepLoopCounts` relates the two. They have the same final
  output and threshold flag. The as-written loop reports the same number of
  iterations or one more.
- **Pipeline orchestration** (`Pipeline`, `agent-service/core/agent_manager_v2.py`):
  - agent instantiation;
  - progress counters and percentage;
  - regular and iterative steps with their optional/required failure policy;
  - single- and multi-step groups;
  - the group loop that feeds each group's last result to the next group;
  - the run's lifecycle flags;
  - input validation.
- **Heuristic code reviewer** (`Reviewer`, `agent-service/agents/code_reviewer_agent.py`):
  - substring-driven metrics, clamped to [0, 100];
  - security, style and performance issues;
  - suggestions and praise;
  - score caps driven by issue severity.
- **Python coder** (`Coder`, `CoderAgent`, `agent-service/agents/python_coder_agent.py`):
  - input validation;
  - choosing a template by keyword;
  - routing between fresh generation and feedback-driven improvement. The
    agent runs generation as the source writes it, so web and GUI requests
    fail (see "## Findings"); `CoderAgent.FreshIntended` is generation with
    those two generators in place;
  - the text rewrites the improvement applies (docstrings, error handling,
    TODO markers, typing import, performance hint, logging, removal of
    `eval(`/`exec(`).
- **Saving a generated project** (`Projects`, `save_generated_project` in
  `backend/api/routes/projects.py`): mapping an agent-service result onto
  the backend's project record.
- **Single-agent routes** (`AgentRoutes`, `agent-service/api/routes/agents.py`):
  - agent key normalisation;
  - 404 for unknown agents;
  - the running → completed/failed lifecycle of an execution entry.

Shared modules:
- `Common`: `Option`, `Outcome` (`Ok`/`Fail(msg)`, where `Fail` is a raised
  exception and `msg` is its `str()`), and clamping.
- `Text`: substring tests, ASCII case mapping, `strip`, `split`/`join`,
  `replace` and facts about them.
- `Dicts`: an insertion-ordered dict as a sequence of pairs, read by first
  key.
- `Values`: a Python value with Python truthiness and the `AttributeError`
  text.

Python's `str()` of arbitrary values is a `Renderer` parameter. So is
`format_feedback_for_agent`. Identifiers such as a fresh correlation id or
execution id are also parameters.

Four behaviours of the source are proved rather than assumed:
- The security rewrite leaves `eval(` and `exec(` in the code, so a later
  review flags the same issue again. Every one left stands after a `#` on
  its line, so none is executed (`Coder.Secure`,
  `Coder.SecuredCallsCommented`).
- The performance rewrite is not idempotent: every application stacks
  another hint comment (`Coder.HintsStack`).
- A required iterative step that delivers nothing counts two failures
  (`Pipeline.IterativeStep`).
- `execute_pipeline` does not reset the completed-step counter. A second
  run on the same manager, without a new `initialize_pipeline`, can report
  more than 100 percent (`Pipeline.SecondRunOverCounts`). The pipeline
  route re-initialises before every run
  (`agent-service/api/routes/pipelines.py:46`), and a run after
  initialisation, with no overlapping request, stays within 0 and 100
  percent (`Pipeline.FirstRunBounds`). Overlapping requests share the one
  manager (`agent-service/core/agent_manager_v2.py:587`) and its counter.

## Model

| member | source | states |
|---|---|---|
| Feedback.OverallScore | agent-service/models/feedback.py:57-67 | the overall score is the mean of the six metrics: six times it is their sum, it lies between the smallest and largest metric, and it equals their common value when all agree |
| Feedback.CriticalIssues | agent-service/models/feedback.py:97-100 | an issue is kept exactly when it is in the input and its severity is CRITICAL or HIGH |
| Feedback.CriticalIssuesConcat | agent-service/models/feedback.py:97-100 | the filter preserves order: filtering a concatenation concatenates the filtered parts |
| Feedback.QualityImprovementTelescopes | agent-service/models/feedback.py:153-157 | last-minus-first improvement equals the sum of the step-to-step changes of the trend, so a never-decreasing trend improves by at least 0 |
| Feedback.Truncate | agent-service/models/feedback.py:132-133 | a string of at most n characters is kept; a longer one becomes its first n characters plus "..."; the result has at most n+3 characters |
| Feedback.TruncateIdempotent | agent-service/models/feedback.py:132-133 | truncating an already truncated string changes nothing |
| Feedback.IterationToDict | agent-service/models/feedback.py:127-138 | input and output are rendered and cut at 500 characters (at most 503 long); number, success, error and feedback are carried over |
| Feedback.LoopToDict | agent-service/models/feedback.py:159-172 | the final output is cut at 1000 characters; each iteration is projected in order; the improvement is last minus first trend score, or 0 with fewer than two scores |
| Feedback.Dedup | agent-service/models/feedback.py:213-214 | the deduplicated list holds exactly the input's elements, each once |
| Feedback.InAllSuggestions | agent-service/models/feedback.py:204-207 | a suggestion is in the combined list exactly when some review carries it |
| Feedback.Aggregate | agent-service/models/feedback.py:178-216 | no reviews give score 0 and all-zero metrics; otherwise the score and every metric are per-field means, issues are every review's issues in order, suggestions and praise are the union of the reviews' without duplicates, and the reviewer is "aggregated" |
| Feedback.AggregateStaysInRange | agent-service/models/feedback.py:186-197 | when every review's score and metrics lie in [0, 100], so do the aggregate's |
| Feedback.MeanBounds | agent-service/models/feedback.py:187 | a mean lies within any bounds that all its values respect |
| Evaluator.MetricsFromDict | agent-service/core/iterative_executor.py:323-332 | each metric is read from its key, defaulting to 50 except test coverage, which defaults to 0 |
| Evaluator.CountPresent | agent-service/core/iterative_executor.py:361-362 | the count of present keywords is 0 iff none is present and equals the number of keywords iff all are |
| Evaluator.CountPresentMonotone | agent-service/core/iterative_executor.py:361-362 | text that contains every keyword another text contains has at least as many hits |
| Evaluator.TextScore | agent-service/core/iterative_executor.py:355-366 | the text score always lies in [0, 100] |
| Evaluator.TextScoreUnclamped | agent-service/core/iterative_executor.py:355-366 | the score is exactly 70 + 5·positives − 10·negatives, and never below 10 |
| Evaluator.TextScoreNeutral | agent-service/core/iterative_executor.py:355-366 | text with no positive and no negative keyword scores 70 |
| Evaluator.MapWhereComplete | agent-service/core/iterative_executor.py:369-373 | every kept line contributes its mapped form; applied with the suggestion-keyword test and `strip`, every suggestion line is collected |
| Evaluator.MapWhereSound | agent-service/core/iterative_executor.py:369-373 | every collected entry is the mapped form of some kept line, so every suggestion comes from a line with a suggestion keyword |
| Evaluator.AtMostFive | agent-service/core/iterative_executor.py:385 | at most five suggestions are kept, as a prefix, and all are kept when there are fewer than five |
| Evaluator.TextMetrics | agent-service/core/iterative_executor.py:377-384 | every metric equals the score except test coverage, which is max(0, score − 20) and not above the score |
| Evaluator.ParseText | agent-service/core/iterative_executor.py:345-389 | the free-text path scores the lower-cased text in [10, 100], copies the score into the metrics, keeps at most five suggestion lines and stamps iteration and evaluator |
| Evaluator.ParseTextSuggestions | agent-service/core/iterative_executor.py:369-385 | every kept suggestion is a stripped suggestion line, and all such lines are kept when there are at most five |
| Evaluator.ParseEvaluatorOutput | agent-service/core/iterative_executor.py:267-312 | a dict with a score takes the dict path: its score, suggestions and positive aspects, and metrics read from the mapping with the parser's defaults (all zeros when the entry is missing); a non-mapping metrics entry falls back to the neutral 50 feedback; a feedback object is restamped; anything else is parsed as text; every result carries the iteration and evaluator |
| Evaluator.FeedbackDictRoundTrip | agent-service/core/iterative_executor.py:314-343 | serialising feedback with `to_dict` and parsing the dict back returns the same score, metrics, suggestions and praise, dropping the issues |
| Loop.RunLoop | agent-service/core/iterative_executor.py:24-189 | the run records at most max_iterations iterations, each numbered by position and matching its attempt (improver failure, evaluator failure with the "Evaluator failed: " prefix, or parsed feedback); the first input is the request and every later one carries the original request, the previous output, the formatted feedback and the next number; the loop went on only past accepted iterations below the threshold; the trend has one score per accepted iteration; the final output and score are the last accepted ones (None and 0 before any); the threshold is met exactly when the last iteration was accepted at or above it without raising; a short run ended on a failure, the threshold or an exception |
| Loop.IterateWellFormed | agent-service/core/iterative_executor.py:74-174 | from any properly entered iteration, the rest of the loop yields a run with every property of `Loop.RunLoop` |
| Loop.IterateAsWritten | agent-service/core/iterative_executor.py:142-174 | the loop as written equals the corrected loop plus, when the last recorded iteration raised afterwards, one extra failed record |
| Loop.AsWrittenAddsDuplicate | agent-service/core/iterative_executor.py:164-181 | the source's result differs from the corrected one only by that duplicate record and the count it adds |
| Loop.AsWrittenExceedsCap | agent-service/core/iterative_executor.py:142-181 | with one iteration allowed and the log line's `:.1f` raising after the iteration was recorded (a dict whose score is a string), the source reports two iterations, the corrected loop one |
| Pipeline.FindStep | agent-service/core/agent_manager_v2.py:270-272 | the step found has the requested agent type; none is found only when no step has it |
| Pipeline.Instantiate | agent-service/core/agent_manager_v2.py:67-105 | instantiation succeeds iff every required agent can be created; only creatable agents are added, and on success exactly the wanted creatable ones |
| Pipeline.WantsRequired | agent-service/core/agent_manager_v2.py:67-105 | the flattened creation attempts demand exactly that every key of every required step (both agents of an iterative step) is creatable |
| Pipeline.InitialProgress | agent-service/core/agent_manager_v2.py:117-148 | every step starts pending at 0; total is the step count; counters, percentage and flags start at 0/false |
| Pipeline.InitializePipeline | agent-service/core/agent_manager_v2.py:53-115 | a failed load returns False and changes nothing; otherwise the configuration is installed; the call succeeds iff all required agents are creatable, and then tracking starts from the initial progress |
| Pipeline.UpdateStepProgress | agent-service/core/agent_manager_v2.py:430-438 | only the first step of that agent type changes status and progress; the current step moves only for "running"; nothing else changes |
| Pipeline.PctMonotone | agent-service/core/agent_manager_v2.py:449 | more completed steps never give a smaller percentage |
| Pipeline.PctBounds | agent-service/core/agent_manager_v2.py:449 | with completed ≤ total the percentage lies in [0, 100], and is 100 when all steps completed |
| Pipeline.UpdateOverall | agent-service/core/agent_manager_v2.py:440-450 | only the percentage changes, and it becomes completed/total·100 (0 with no steps) |
| Pipeline.MarkFailed | agent-service/core/agent_manager_v2.py:307-309 | a failure adds one to the failed counter and sets the failure flag, leaving completions alone |
| Pipeline.MarkCompleted | agent-service/core/agent_manager_v2.py:295-296 | a completion adds one to the completed counter, leaving failures alone |
| Pipeline.RegularStep | agent-service/core/agent_manager_v2.py:278-320 | a missing agent raises with no progress change; success counts one completion; failure counts one failure and returns the optional error dict for an optional step or raises for a required one |
| Pipeline.IterativeStep | agent-service/core/agent_manager_v2.py:322-428 | a missing agent raises; the step runs the loop as the source writes it; a loop that met the threshold or left an output completes the step and returns its output, `to_dict()`, final score, iteration count and threshold flag; otherwise an optional step returns the "failed to produce valid output after N iterations" error with `optional` and the loop's `to_dict()` after one failure, and a required step raises that message after two failures |
| Pipeline.StepLoopCounts | agent-service/core/iterative_executor.py:142-181 | the loop a step runs reports the corrected loop's iteration count or one more, so at most `max_iterations + 1`, with the same final output and threshold flag |
| Pipeline.ExecuteSingleStep | agent-service/core/agent_manager_v2.py:268-276 | an unknown step raises "Step configuration for … not found"; any step only grows counters, by at most one completion, and keeps configuration and agents |
| Pipeline.StepEffectTransitive | agent-service/core/agent_manager_v2.py:296 | the step invariants (configuration and agents kept, counters only growing, a consistent percentage never dropping) compose across consecutive steps |
| Pipeline.RunEach | agent-service/core/agent_manager_v2.py:250-264 | a multi-step group stores, under each step name, the step's result or `{"error": str(e)}` for its exception; earlier keys are kept, keys stay unique, the group cannot raise, and it adds at most one completion per step |
| Pipeline.StepResultIndependent | agent-service/core/agent_manager_v2.py:250-258 | a step's result does not depend on the progress the steps awaited before it recorded, so awaiting a group's tasks one after another gives each the result it has alone |
| Pipeline.ExecuteGroup | agent-service/core/agent_manager_v2.py:241-266 | a single-step group raises exactly when its step does; any other group returns; the keys are exactly the step names, each holding the step's result or `{"error": str(e)}` |
| Pipeline.RunGroups | agent-service/core/agent_manager_v2.py:185-193 | the results hold every key of every group run; a run with no single-step group never raises; the completed counter grows by at most the number of step names the groups list |
| Pipeline.RunGroupsFeedsLast | agent-service/core/agent_manager_v2.py:185-193 | after a group that returns, the results take its keys with its values winning and the next group is fed the last value it produced, or the same input when it produced nothing |
| Pipeline.RunGroupsSplit | agent-service/core/agent_manager_v2.py:185-193 | running the groups in two halves equals running them all: the second half starts from the results and input the first left |
| Pipeline.EmptyGroupTransparent | agent-service/core/agent_manager_v2.py:191-193 | a group that produces nothing changes neither the results nor the next group's input |
| Pipeline.ExecutePipeline | agent-service/core/agent_manager_v2.py:150-239 | without a configuration it raises; otherwise it returns, with running off, the pipeline name and the correlation id; success means completed at 100% with results, failure means the failure flag and an error; with no single-step group it always succeeds; the completed counter starts where the last run left it and grows by at most the number of listed step names; after a failed run a tracked percentage is completed/total·100 |
| Pipeline.SecondRunOverCounts | agent-service/core/agent_manager_v2.py:150-165 | two runs of a two-step pipeline on one initialised manager, the first succeeding and the second failing at its second step, leave 3 completed steps of 2 and a progress percentage of 150 |
| Pipeline.OneRegularGroup | agent-service/core/agent_manager_v2.py:278-300 | a one-step group of a required regular step whose agent is present returns the agent's value under the step's name with one more completion, or raises with none; the percentage is recomputed from the counter |
| Pipeline.ResetBounds | agent-service/core/agent_manager_v2.py:117-148 | a run that starts from the initial progress, with the execution order naming at most as many steps as the pipeline has, returns with 0 ≤ completed ≤ total and a percentage in [0, 100] |
| Pipeline.FirstRunBounds | agent-service/api/routes/pipelines.py:46-106 | a run right after a successful `initialize_pipeline`, as the pipeline route performs them, with no overlapping request on the shared manager, keeps completed ≤ total and the percentage in [0, 100] |
| Pipeline.ClearAgents | agent-service/core/agent_manager_v2.py:576-583 | clearing returns the manager to its initial state, after which every pipeline run raises for want of a configuration |
| Pipeline.LengthWarnings | agent-service/core/agent_manager_v2.py:516-521 | the short warning appears iff the stripped input is under 10 characters, the long one iff the input is over 5000 |
| Pipeline.ContentSuggestions | agent-service/core/agent_manager_v2.py:523-537 | each suggestion appears exactly when its action words, technology words or five words are missing |
| Pipeline.ValidateInput | agent-service/core/agent_manager_v2.py:502-539 | the input is valid iff it has a non-whitespace character; blank input gets only the empty warning; other input gets the length warnings and content suggestions |
| Reviewer.ValidateInput | agent-service/agents/code_reviewer_agent.py:88-121 | only falsy input is invalid; a string gets the not-Python and too-short warnings and the smell suggestion exactly when they apply; a dict gets the key suggestion exactly when both keys are absent |
| Reviewer.ExtractCode | agent-service/agents/code_reviewer_agent.py:148-163 | a string is the code itself; from a dict, the value under `current_code` if present, else under `code`, else under `source`, whatever its type; a dict with none of them and any other input give the input's `str()` |
| Reviewer.DictReviewsCurrentCode | agent-service/agents/code_reviewer_agent.py:123-163 | a dict carrying string code under `current_code`, as the loop sends it, is reviewed as that code; non-empty code gets the same review as when sent as a bare string |
| Reviewer.LongLineNumbers | agent-service/agents/code_reviewer_agent.py:299 | the 1-based numbers of exactly the lines over 100 characters, in increasing order |
| Reviewer.Metrics | agent-service/agents/code_reviewer_agent.py:207-261 | every metric lies in [0, 100]; test coverage is 60 with test markers and 0 otherwise; eval or exec keeps security at most 50 |
| Reviewer.ClampInactive | agent-service/agents/code_reviewer_agent.py:212-261 | the raw scores already lie in narrow ranges inside [0, 100], so the clamping never changes a metric |
| Reviewer.SecurityIssues | agent-service/agents/code_reviewer_agent.py:263-291 | the eval issue appears iff the code has "eval(", the exec issue iff "exec(", the input issue iff an input call without "int("; nothing else |
| Reviewer.LongLineMessage | agent-service/agents/code_reviewer_agent.py:304 | the message lists at most the first three long-line numbers and ends in "..." iff there are more than three |
| Reviewer.StyleIssues | agent-service/agents/code_reviewer_agent.py:293-317 | the long-line issue appears iff some line is over 100 characters, the docstring issue iff functions lack docstrings; both are low or medium |
| Reviewer.PerformanceIssues | agent-service/agents/code_reviewer_agent.py:319-341 | the index-loop issue appears iff a `for … in range(len(` loop, with an ASCII `\w` loop variable, is present, the concatenation issue iff "for ", "+=" and "str" all are |
| Reviewer.Suggestions | agent-service/agents/code_reviewer_agent.py:343-359 | each of the four suggestions appears exactly when its condition holds; "print(" always brings the logging suggestion |
| Reviewer.PositiveAspects | agent-service/agents/code_reviewer_agent.py:361-379 | each of the five praises appears exactly when its marker is present; "def " always brings the functions praise |
| Reviewer.CapScore | agent-service/agents/code_reviewer_agent.py:188-195 | a CRITICAL issue caps the score at 40, otherwise a HIGH one at 70, otherwise the score stands; a lowered score is exactly the cap |
| Reviewer.Analyze | agent-service/agents/code_reviewer_agent.py:165-205 | the review's issues are the security, style and performance issues in that order, and its score is the capped mean of its metrics |
| Reviewer.ScoreWithoutDynamicCode | agent-service/agents/code_reviewer_agent.py:186-195 | no issue is HIGH; a CRITICAL issue exists iff the code uses eval or exec; without them the score is the metrics mean, with them at most 40 |
| Reviewer.InvalidFeedback | agent-service/agents/code_reviewer_agent.py:127-138 | invalid input gets score 0, default metrics and exactly one CRITICAL code-quality issue |
| Reviewer.Process | agent-service/agents/code_reviewer_agent.py:123-146 | falsy input gets the invalid-input feedback; a string is reviewed as code; a dict whose extracted code is not a string raises the `AttributeError` of `split`, and only such a dict can raise |
| Coder.ValidateInput | agent-service/agents/python_coder_agent.py:67-93 | only falsy input is invalid; a string under 10 stripped characters is warned about and a string naming neither requirement nor function gets a suggestion, yet both stay valid |
| Coder.FirstMatch | agent-service/agents/python_coder_agent.py:312-324 | the group chosen matches and no earlier group does; none is chosen only when no group matches |
| Coder.Classify | agent-service/agents/python_coder_agent.py:307-324 | the template is that of the first matching keyword group in the order calculator, todo, web, gui, data, and the generic utility iff none matches |
| Coder.GenerateAsWritten | agent-service/agents/python_coder_agent.py:307-324 | a non-string request raises on `lower`; a request classified web raises the missing `_generate_web_api_code` error and one classified gui the missing `_generate_gui_app_code` error; every other string request yields exactly its template's files |
| Coder.WebRequestFails | agent-service/agents/python_coder_agent.py:316-317 | the request "web" fails with the missing `_generate_web_api_code` attribute |
| Coder.Generate | agent-service/agents/python_coder_agent.py:307-324 | with the two generators supplied, every string request yields exactly its template's files; the generic utility is the single file utility.py embedding the request; other templates agree with the source |
| Coder.DocstringLines | agent-service/agents/python_coder_agent.py:214-234 | every original line is kept in order, and exactly one docstring line, indented four more spaces, follows each def or class header with a colon |
| Coder.AddDocstrings | agent-service/agents/python_coder_agent.py:214-234 | the rewritten text's lines are the docstring-expanded lines of the input; code without headers is unchanged |
| Coder.ErrorHandlingLines | agent-service/agents/python_coder_agent.py:247-262 | every original line is kept in order; each line calling input( without try: gets a try: before it and an except clause with its print after it, three lines per such line |
| Coder.AddErrorHandling | agent-service/agents/python_coder_agent.py:247-262 | the rewritten text's lines are the guarded lines of the input; code without input calls is unchanged |
| Coder.StyleLines | agent-service/agents/python_coder_agent.py:293-305 | every original line is kept in order, with one TODO line right before each line over 100 characters and nothing else |
| Coder.FixStyle | agent-service/agents/python_coder_agent.py:293-305 | the rewritten text's lines are the TODO-marked lines of the input; code without long lines is unchanged |
| Coder.AddTypeHints | agent-service/agents/python_coder_agent.py:236-245 | the result always imports typing; code that already does is unchanged; otherwise the typing import is prefixed to the unchanged code |
| Coder.AddTypeHintsIdempotent | agent-service/agents/python_coder_agent.py:236-245 | adding type hints twice equals adding them once |
| Coder.OptimizePerformance | agent-service/agents/python_coder_agent.py:264-273 | the code never shrinks and keeps its "+="; without "+=" only index loops become enumerate loops; without index loops the hint is prefixed exactly when "for " and "+=" both occur |
| Coder.HintsStack | agent-service/agents/python_coder_agent.py:270-271 | on code with a for loop and "+=", each application prefixes one more hint, so the rewrite is not idempotent |
| Coder.RoutePrints | agent-service/agents/python_coder_agent.py:286-290 | the result is `Routed(code)`: one left-to-right pass turning each `print("` into `logger.info("` and each `print('` into `logger.info('`, copying everything else; no `print("` or `print('` remains; code without them is unchanged; an existing logging import survives |
| Coder.RoutePrintsIsRouted | agent-service/agents/python_coder_agent.py:286-290 | the two `replace` passes equal the single pass `Routed`: the first pass neither creates nor hides a `print('` |
| Coder.RoutedSetup | agent-service/agents/python_coder_agent.py:277-284 | the logging setup block contains no print call, so the rewrite copies it unchanged in front of the routed code |
| Coder.AddLogging | agent-service/agents/python_coder_agent.py:275-291 | code that imports logging becomes `Routed(code)`; other code becomes the setup block followed by `Routed(code)`; the result imports logging and has no print call left |
| Coder.AddLoggingIdempotent | agent-service/agents/python_coder_agent.py:275-291 | adding logging twice equals adding it once |
| Coder.Secure | agent-service/agents/python_coder_agent.py:181-186 | without "security" feedback, or without dynamic calls, the code is unchanged; with it, every `eval(` is replaced by the two-line comment and then every `exec(` by its comment; every `eval(` or `exec(` left in the result stands after a `#` on its line; the result still contains each call the code had |
| Coder.SecuredCallsCommented | agent-service/agents/python_coder_agent.py:181-186 | after both replacements, reading the text left to right, no `eval(` or `exec(` starts outside a comment |
| Coder.ApplyFeedbackText | agent-service/agents/python_coder_agent.py:176-212 | feedback naming no trigger word leaves the code unchanged; logging feedback without a style fix leaves a logging import; type-hint feedback naming none of the later rewrites (error handling, exception, performance, logging, style, pep 8) leaves a typing import; code with eval( under feedback naming no trigger but "security" keeps eval( |
| CoderAgent.ContainerRewrite | agent-service/agents/python_coder_agent.py:176-212 | a list or dict in place of the code is either returned unchanged or raises; it is unchanged when no rewrite is triggered; the security rewrite raises when the container holds eval( or exec(, and the type-hint, error-handling, performance and style rewrites always raise |
| CoderAgent.ApplyFeedback | agent-service/agents/python_coder_agent.py:176-212 | non-string feedback raises on lower; string code with string feedback yields exactly the text rewrite under the lower-cased feedback; a list or dict goes through the container rules; scalar code raises on the first `in` test; no trigger word keeps the code; logging feedback leaves a logging import |
| CoderAgent.Requirements | agent-service/agents/python_coder_agent.py:109-117 | a string is its own requirements; a dict gives requirements, else original_request, else user_input, else its `str()`; anything else gives its `str()` |
| CoderAgent.Fresh | agent-service/agents/python_coder_agent.py:119-140 | generation succeeds exactly for string requirements classified neither web nor gui, with that template's files; web and gui requirements fail with the missing-generator error and non-string ones on `lower`; the reply carries the requirements and the validation |
| CoderAgent.FreshIntended | agent-service/agents/python_coder_agent.py:119-140 | with the web and GUI generators in place, generation succeeds exactly for string requirements, with their template's files |
| CoderAgent.FreshAgrees | agent-service/agents/python_coder_agent.py:307-324 | the reply as written and the intended reply are equal exactly when the requirements pick neither the web nor the GUI template |
| CoderAgent.Process | agent-service/agents/python_coder_agent.py:95-140 | falsy input is rejected; a dict with feedback takes the improvement path; anything else is generated from its requirements; a string request carries itself as requirements and succeeds exactly when it is classified neither web nor gui |
| CoderAgent.WebRequestFailsInAgent | agent-service/agents/python_coder_agent.py:316-317 | `process("web")` returns a failure carrying the missing `_generate_web_api_code` error, while the intended generation succeeds |
| CoderAgent.Improve | agent-service/agents/python_coder_agent.py:142-174 | truthy code is improved or fails carrying the input; an improved reply holds what applying the feedback returned, a failed one the error applying it raised; the reply keeps original code, feedback and iteration (default 1); string code with string feedback always improves; no code and no original request is a rejection |
| CoderAgent.ImproveRewritesText | agent-service/agents/python_coder_agent.py:142-212 | an improvement request with string code and string feedback returns the text rewrite of the code under the lower-cased feedback, with the original code, the feedback and the iteration |
| CoderAgent.EmptyCodeRegenerates | agent-service/agents/python_coder_agent.py:150-152 | an improvement request with empty code is processed exactly as its original request |
| CoderAgent.NoTriggerKeepsCode | agent-service/agents/python_coder_agent.py:176-212 | an improvement request whose feedback names no trigger word returns the code it was given |
| Projects.Or | backend/api/routes/projects.py:211 | Python `or`: the first value when truthy, else the second |
| Projects.DefaultName | backend/api/routes/projects.py:226 | a string id gives "project-" and its first eight characters; a list id is sliced and rendered; a dict id raises `KeyError` for the slice; any other id is not subscriptable |
| Projects.Timestamp | backend/api/routes/projects.py:216-222 | completed_at is used when truthy, else started_at; strings pass through, a falsy non-string gives None, and any other value raises |
| Projects.JoinValues | backend/api/routes/projects.py:251 | joining succeeds iff every value is a string; no values give ""; newline-free strings split back into themselves; a failure names the first non-string |
| Projects.LastOf | backend/api/routes/projects.py:244-277 | the picked value comes from the last item that provides one, and nothing is picked only when no item provides one |
| Projects.Absorb | backend/api/routes/projects.py:244-277 | one agent result updates the files with its generated code, sets each section it carries, sets the code only when it is python_coder's, and raises only when python_coder's files cannot be joined |
| Projects.Extract | backend/api/routes/projects.py:240-277 | each section comes from the last agent result carrying its key; each file from the last agent providing it, when every agent's file names are distinct; the code section exists iff python_coder has a generated-code dict, and holds its files; extraction fails iff python_coder's files cannot be joined |
| Projects.SaveGeneratedProject | backend/api/routes/projects.py:198-292 | a record is saved exactly when an id is truthy, the completion or start time is a string or falsy, the default name can be sliced from the id, and every "python_coder" entry's files can be joined; 400 exactly when neither id is truthy; other failures are 500s with the "Failed to save" prefix; the id is execution_id or project_id; success iff status is "completed"; execution time 0, user input and metadata copied; the name is pipeline_name or "project-" plus at most eight id characters; sections are extracted from a dict result |
| AgentRoutes.NormalizeKey | agent-service/api/routes/agents.py:38 | the key has the name's length, and each character is the lower-cased one with ' ' and '-' turned into '_' |
| AgentRoutes.KeyHasNoSeparators | agent-service/api/routes/agents.py:38 | a key contains no space and no hyphen |
| AgentRoutes.NormalizeKeyIdempotent | agent-service/api/routes/agents.py:132 | normalising a key gives the key back |
| AgentRoutes.KeyFormFixed | agent-service/api/routes/agents.py:173 | a name without capitals, spaces or hyphens is its own key |
| AgentRoutes.FindAgent | agent-service/api/routes/agents.py:37-44 | an agent is found exactly when the registry has its key, and the key found is the normalised name |
| AgentRoutes.AgentMetadata | agent-service/api/routes/agents.py:130-154 | an unknown agent gets 404 "Agent '…' not found"; a known one gets its name, key and registry entry |
| AgentRoutes.ValidateAgentInput | agent-service/api/routes/agents.py:171-196 | 404 exactly for unknown agents; otherwise the agent's verdict, or 500 "Failed to validate input: …" when it raises |
| AgentRoutes.Finish | agent-service/api/routes/agents.py:86-107 | success marks the entry completed with the result; an exception marks it failed with the message; the rest of the entry stays |
| AgentRoutes.ExecuteAgent | agent-service/api/routes/agents.py:35-112 | an unknown agent gets 404 and the store is untouched; a known one adds exactly the new entry; an asynchronous request leaves it running; a synchronous one ends completed with the result or failed with 500 "Agent execution failed: …" |
| AgentRoutes.Background | agent-service/api/routes/agents.py:295-319 | the background task finishes only its own entry and keeps every other |
| AgentRoutes.AsyncLifecycle | agent-service/api/routes/agents.py:50-77 | an asynchronous run starts running, and the background task makes it completed with the result or failed with the error |
| AgentRoutes.PathsAgree | agent-service/api/routes/agents.py:81-112 | the synchronous path and the background path leave the same final entry for the same outcome |

## Left out

- Wall-clock times, elapsed/remaining-time estimates, ISO timestamps of records, and execution times: these are clock readings. `Timestamp` models only the choice between the two given values.
- Event-bus publishing, logging, the asyncio timeout wrapper and `run_in_executor`: an agent call that times out or raises is one more `Fail` outcome of the script.
- `agent_factory` and `pipeline_config` are not part of this model. The execution order is a field of the configuration, instantiation is a set of creatable keys, and agents' `process` results are parameters (`Env`).
- `_save_project_to_backend` and the backend client: these do network I/O, and their exceptions are swallowed, so they leave no trace in the modelled state.
- Storing the project (`project_service.save_project_result`) and its `saved_path`: this is file-system I/O; `SaveGeneratedProject` stops at the record it would store.
- `format_feedback_for_agent` and Python's `str()`/`repr()`: these are parameters, because their `:.1f` formatting and emoji are outside a pure model.
- The template bodies of the coder's generators are opaque strings (`Coder.Bodies`). The one exception is the generic utility, which embeds the request.
- Set-based deduplication in `aggregate_feedback`: the order `list(set(...))` produces depends on hashing, so `Feedback.Dedup` keeps first occurrences and the contract states membership, not order.
- `Lower`/`Upper` map ASCII letters only. Python's full Unicode case mapping is not modelled.
- Text.IsWordChar: the regular expression class `\w` is read as ASCII letters, digits and `_` only; Python's `re` also accepts every Unicode letter and digit in a `str` pattern.
- Reviewer.PerformanceIssues: the index-loop pattern `for\s+\w+\s+in\s+range\(len\(` is matched with ASCII `\w` and the ASCII whitespace set, so a loop variable with a non-ASCII letter (`for ä in range(len(`) is not flagged here, though Python's `re` would flag it.
- `Coder.CallsInComments` reads `#` as the start of a comment wherever it stands, and does not track string literals, so a `#` inside quotes counts as a comment.
- CoderAgent.Process: a string request is no longer promised to be generated; requests classified web or gui fail as the source does (see "## Findings").
- Pipeline.PctBounds: the premise completed ≤ total holds for a run after `initialize_pipeline` with no overlapping request (`Pipeline.FirstRunBounds`), but not for two overlapping requests, and not for a manager reused without it (`Pipeline.SecondRunOverCounts`).
- `Pipeline.FirstRunBounds`: `pipeline_config` is not part of this model, so the bound assumes that the execution order names each step at most once (`NameCount(order) <= |steps|`). It also assumes that no other request initialises or runs the shared `agent_manager_v2` while this run awaits its agents: requests are not interleaved in this model, and two overlapping runs of a two-step pipeline add 4 completions to one counter (200 percent).
- `Pipeline.ExecutePipeline`: an exception raised outside the group loop is not modelled, because none of the modelled calls there can raise.
- `get_execution_status`, listing agents and the other read-only routes: these are thin dict lookups.
- Progress fields for display (names, descriptions, logs) are left out, and so are the timing fields of `_update_overall_progress`.
- The agent display name and the `context` passed through replies are left out, because they are copied, not computed.
- `Feedback.Aggregate`: this states per-field averages as "mean × count = sum" over reals. Python's float rounding is not modelled.
- `Coder.ApplyFeedbackText`: the contract states the no-trigger case and the logging, type-hint and security outcomes only. The exact text after other combinations of rewrites is fixed by the body as a chain of the step functions, whose own contracts state each step.
- `Coder.OptimizePerformance`: states the result exactly only when either "+=" or the index loop is absent. When both occur, the hint is added if "for " survives the replacement, which the contract leaves to the body.
- `Reviewer.Metrics`: the contract states bounds and the test-coverage and security facts. The exact per-metric values are stated by `Reviewer.ClampInactive` through the raw-score functions.
- `Projects.DefaultName`: a list id is rendered through the `Renderer` parameter. A dict id fails with the `KeyError` text of Python 3.12 and later (`slice(None, 8, None)`); earlier versions raise `TypeError: unhashable type: 'slice'` instead.
- `AgentRoutes.ExecuteAgent`: the 404 detail's list of available agents is rendered by the `Renderer` parameter. The contract states only the status.
- `Loop`: an exception raised after an iteration was recorded is modelled as a flag of the scripted attempt, and scores are reals. So a non-numeric `quality_score` cannot be represented, and whether a given score raises is not derived. `Loop.AsWrittenExceedsCap` uses a numeric stand-in for the string score and sets the flag with the error the `:.1f` format raises.

## Findings

| source | as written | input that shows it | evidently intended | confidence | as-written member | corrected member |
|---|---|---|---|---|---|---|
| agent-service/core/iterative_executor.py:142-174 | an exception raised after an iteration's record was appended (comparing or formatting a non-numeric `quality_score`) makes the handler append a second, failed record for the same iteration, so `total_iterations` can exceed `max_iterations` | `max_iterations = 1`, improver returns code, evaluator returns a dict whose `quality_score` is a string: the log line's `:.1f` (line 147) raises "Unknown format code 'f' for object of type 'str'" after the record was appended, and the result reports 2 iterations | one record per iteration, at most `max_iterations` | not executed | Loop.IterateAsWritten (shown by Loop.AsWrittenExceedsCap) | Loop.RunLoop |
| agent-service/agents/python_coder_agent.py:316-319 | the web and GUI branches call `_generate_web_api_code` and `_generate_gui_app_code`, which the class does not define, so those requests raise `AttributeError` and `process` returns a failure | requirements "web" | every request yields generated files | not executed | Coder.GenerateAsWritten, used by CoderAgent.Fresh (shown by Coder.WebRequestFails and CoderAgent.WebRequestFailsInAgent) | Coder.Generate, used by CoderAgent.FreshIntended (related by CoderAgent.FreshAgrees) |
