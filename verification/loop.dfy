/** The improve/evaluate loop of `core/iterative_executor.py`
    (`execute_iterative_loop`). The two agents are not run: iteration `i`
    consumes the `i`-th scripted `Attempt`, which says how the improver
    call came back, how the evaluator call came back, and whether handling
    the recorded iteration then raised. */
module Loop {
  import opened Common
  import opened Values
  import opened Feedback
  import opened Evaluator

  /** One iteration's worth of agent behaviour. A `Fail` message is the
      `error` text the executor's timed wrapper reports (a timeout is one
      more failure). `raised` is an exception thrown after the iteration's
      record was appended: formatting a non-numeric `quality_score`, or
      comparing it with the threshold, raises there. */
  datatype Attempt = Attempt(
    improver: Outcome<Value>,
    evaluator: Outcome<EvaluatorOutput>,
    raised: Option<string>)

  /** The loop's arguments; `format` is `format_feedback_for_agent`. */
  datatype LoopSetup = LoopSetup(
    loopName: string,
    improverName: string,
    evaluatorName: string,
    initialInput: Value,
    maxIterations: int,
    threshold: real,
    format: StructuredFeedback -> string)

  /** The loop's local variables. */
  datatype LoopState = LoopState(
    iterations: seq<IterationResult>,
    trend: seq<real>,
    currentInput: Value,
    finalOutput: Value,
    finalScore: real,
    thresholdMet: bool)

  function Start(p: LoopSetup): LoopState {
    LoopState([], [], p.initialInput, VNone, 0.0, false)
  }

  /** The number of iterations `range(1, max_iterations + 1)` offers. */
  function Cap(p: LoopSetup): nat {
    if p.maxIterations < 0 then 0 else p.maxIterations
  }

  /** The `agent_type` of every record except an improver failure. */
  function PairName(p: LoopSetup): string {
    p.improverName + "+" + p.evaluatorName
  }

  /** The improver's input for iteration `iteration + 1`. */
  function NextInput(p: LoopSetup, output: Value, fb: StructuredFeedback, iteration: int): Value {
    VDict([("original_request", p.initialInput), ("current_code", output),
           ("feedback", VStr(p.format(fb))), ("iteration", VInt(iteration + 1))])
  }

  /** Iterations `i` .. `max_iterations`. With `asWritten`, an exception
      raised after an iteration was recorded appends a second, failed record
      for the same iteration, as the source's handler does; without it the
      loop just stops there. */
  function Iterate(p: LoopSetup, script: nat -> Attempt, i: int, st: LoopState, asWritten: bool): LoopState
    requires 1 <= i
    decreases p.maxIterations - i + 1
  {
    if i > p.maxIterations then st
    else
      var a := script(i - 1);
      match a.improver
      case Fail(msg) =>
        st.(iterations := st.iterations + [IterationResult(i, p.improverName, st.currentInput, VNone, None, false, Some(msg))])
      case Ok(out) =>
        match a.evaluator
        case Fail(msg) =>
          st.(iterations := st.iterations
                + [IterationResult(i, PairName(p), st.currentInput, out, None, false, Some("Evaluator failed: " + msg))])
        case Ok(ev) =>
          var fb := ParseEvaluatorOutput(ev, i, p.evaluatorName);
          var st1 := st.(iterations := st.iterations + [IterationResult(i, PairName(p), st.currentInput, out, Some(fb), true, None)],
                         trend := st.trend + [fb.qualityScore], finalOutput := out, finalScore := fb.qualityScore);
          if a.raised.Some? then
            if asWritten then
              st1.(iterations := st1.iterations + [IterationResult(i, PairName(p), st.currentInput, VNone, None, false, a.raised)])
            else st1
          else if MeetsThreshold(fb, p.threshold) then st1.(thresholdMet := true)
          else
            var next := if i < p.maxIterations then NextInput(p, out, fb, i) else st.currentInput;
            Iterate(p, script, i + 1, st1.(currentInput := next), asWritten)
  }

  function Finish(p: LoopSetup, st: LoopState): LoopResult {
    LoopResult(p.loopName, |st.iterations|, st.finalScore, p.threshold, st.thresholdMet,
      st.iterations, st.finalOutput, st.trend)
  }

  /** `execute_iterative_loop` exactly as written. */
  function ExecuteLoopAsWritten(p: LoopSetup, script: nat -> Attempt): LoopResult
  {
    Finish(p, Iterate(p, script, 1, Start(p), true))
  }

  // ---------------------------------------------------------------------
  // What a run looks like
  // ---------------------------------------------------------------------

  /** A record of an iteration whose two agents both succeeded. */
  predicate Accepted(rec: IterationResult) {
    rec.success && rec.feedback.Some?
  }

  function ScoreOfRecord(rec: IterationResult): real
    requires Accepted(rec)
  {
    rec.feedback.value.qualityScore
  }

  /** Record `rec` is what iteration `k + 1` makes of attempt `a`. */
  predicate RecordFits(p: LoopSetup, a: Attempt, rec: IterationResult, k: int) {
    && rec.iterationNumber == k + 1
    && match a.improver
       case Fail(msg) =>
         rec == IterationResult(k + 1, p.improverName, rec.inputData, VNone, None, false, Some(msg))
       case Ok(out) =>
         match a.evaluator
         case Fail(msg) =>
           rec == IterationResult(k + 1, PairName(p), rec.inputData, out, None, false, Some("Evaluator failed: " + msg))
         case Ok(ev) =>
           rec == IterationResult(k + 1, PairName(p), rec.inputData, out,
                    Some(ParseEvaluatorOutput(ev, k + 1, p.evaluatorName)), true, None)
  }

  /** Every record is numbered by its position and fits its attempt. */
  predicate RecordsFitScript(p: LoopSetup, script: nat -> Attempt, iters: seq<IterationResult>) {
    forall k :: 0 <= k < |iters| ==> RecordFits(p, script(k), iters[k], k)
  }

  /** The first improver input is the initial input; each later one carries
      the original request, the previous output, the formatted previous
      feedback and the next iteration number. */
  predicate InputsChain(p: LoopSetup, iters: seq<IterationResult>) {
    && (|iters| > 0 ==> iters[0].inputData == p.initialInput)
    && forall k :: 0 <= k < |iters| - 1 && Accepted(iters[k]) ==>
         iters[k + 1].inputData == NextInput(p, iters[k].outputData, iters[k].feedback.value, k + 1)
  }

  /** The loop went on only past accepted iterations that neither met the
      threshold nor raised. */
  predicate ContinuedOnlyWhenDue(p: LoopSetup, script: nat -> Attempt, iters: seq<IterationResult>) {
    forall k :: 0 <= k < |iters| - 1 ==>
      Accepted(iters[k]) && ScoreOfRecord(iters[k]) < p.threshold && script(k).raised.None?
  }

  /** The trend holds one score per accepted record, in order; only a
      failed last record has no score. */
  predicate TrendFollows(iters: seq<IterationResult>, trend: seq<real>) {
    && |trend| <= |iters|
    && (forall k :: 0 <= k < |trend| ==> Accepted(iters[k]) && trend[k] == ScoreOfRecord(iters[k]))
    && (|trend| == |iters| || (|trend| == |iters| - 1 && !iters[|iters| - 1].success))
  }

  /** The final score and output are those of the last accepted iteration,
      or the initial 0.0 and `None`. */
  predicate FinalsFollow(r: LoopResult) {
    && |r.improvementTrend| <= |r.iterations|
    && (|r.improvementTrend| == 0 ==> r.finalQualityScore == 0.0 && r.finalOutput == VNone)
    && (|r.improvementTrend| > 0 ==>
          && r.finalQualityScore == r.improvementTrend[|r.improvementTrend| - 1]
          && r.finalOutput == r.iterations[|r.improvementTrend| - 1].outputData)
  }

  /** The threshold is met exactly when the last record was accepted with
      a score at or above it and did not raise. */
  predicate ThresholdReported(p: LoopSetup, script: nat -> Attempt, r: LoopResult) {
    var n := |r.iterations|;
    (r.thresholdMet <==>
          (n > 0 && Accepted(r.iterations[n - 1])
           && ScoreOfRecord(r.iterations[n - 1]) >= p.threshold && script(n - 1).raised.None?))
  }

  /** Fewer than `max_iterations` records only when the last one failed,
      met the threshold or raised. */
  predicate StoppedForAReason(p: LoopSetup, script: nat -> Attempt, r: LoopResult) {
    var n := |r.iterations|;
    n < Cap(p) ==>
      (0 < n && (!r.iterations[n - 1].success || r.thresholdMet || script(n - 1).raised.Some?))
  }

  // ---------------------------------------------------------------------
  // The corrected loop and its properties
  // ---------------------------------------------------------------------

  /** The loop state on entry to iteration `i`, given that it was reached. */
  predicate Entering(p: LoopSetup, script: nat -> Attempt, i: int, st: LoopState) {
    && 1 <= i <= Cap(p) + 1
    && |st.iterations| == i - 1 && |st.trend| == i - 1
    && !st.thresholdMet
    && (forall k :: 0 <= k < i - 1 ==>
          Accepted(st.iterations[k]) && st.trend[k] == ScoreOfRecord(st.iterations[k])
          && st.trend[k] < p.threshold && script(k).raised.None?)
    && RecordsFitScript(p, script, st.iterations)
    && InputsChain(p, st.iterations)
    && (i <= p.maxIterations ==>
          st.currentInput == (if i == 1 then p.initialInput
                              else NextInput(p, st.iterations[i - 2].outputData, st.iterations[i - 2].feedback.value, i - 1)))
    && (i == 1 ==> st.finalOutput == VNone && st.finalScore == 0.0)
    && (i > 1 ==> st.finalOutput == st.iterations[i - 2].outputData && st.finalScore == st.trend[i - 2])
  }

  /** Everything the run promises about its result. */
  predicate WellFormedRun(p: LoopSetup, script: nat -> Attempt, r: LoopResult) {
    && r.totalIterations == |r.iterations| <= Cap(p)
    && RecordsFitScript(p, script, r.iterations)
    && InputsChain(p, r.iterations)
    && ContinuedOnlyWhenDue(p, script, r.iterations)
    && TrendFollows(r.iterations, r.improvementTrend)
    && FinalsFollow(r)
    && ThresholdReported(p, script, r)
    && StoppedForAReason(p, script, r)
  }

  /** Past the last iteration the state is the run's result. */
  lemma EndWellFormed(p: LoopSetup, script: nat -> Attempt, i: int, st: LoopState)
    requires Entering(p, script, i, st) && i > p.maxIterations
    ensures WellFormedRun(p, script, Finish(p, st))
  {
  }

  /** An accepted iteration below the threshold that did not raise leads
      into the next iteration properly. */
  lemma ContinueEntering(p: LoopSetup, script: nat -> Attempt, i: int, st: LoopState)
    requires Entering(p, script, i, st) && i <= p.maxIterations
    requires script(i - 1).improver.Ok? && script(i - 1).evaluator.Ok? && script(i - 1).raised.None?
    requires !MeetsThreshold(ParseEvaluatorOutput(script(i - 1).evaluator.value, i, p.evaluatorName), p.threshold)
    ensures Entering(p, script, i + 1, NextState(p, script, i, st))
  {
    var st2 := NextState(p, script, i, st);
    var rec := st2.iterations[i - 1];
    assert st2.iterations == st.iterations + [rec];
    assert st2.trend == st.trend + [ScoreOfRecord(rec)];
    AppendFits(p, script, st.iterations, rec);
    AppendChains(p, st.iterations, rec);
    AppendBelowThreshold(p, script, st.iterations, st.trend, rec);
  }

  /** Appending an accepted, non-raising record below the threshold keeps
      every record so far accepted, scored in the trend and below it. */
  lemma AppendBelowThreshold(p: LoopSetup, script: nat -> Attempt, iters: seq<IterationResult>, trend: seq<real>,
                             rec: IterationResult)
    requires |trend| == |iters|
    requires forall k :: 0 <= k < |iters| ==>
               Accepted(iters[k]) && trend[k] == ScoreOfRecord(iters[k])
               && trend[k] < p.threshold && script(k).raised.None?
    requires Accepted(rec) && ScoreOfRecord(rec) < p.threshold && script(|iters|).raised.None?
    ensures var all, tr := iters + [rec], trend + [ScoreOfRecord(rec)];
            forall k :: 0 <= k < |all| ==>
              Accepted(all[k]) && tr[k] == ScoreOfRecord(all[k]) && tr[k] < p.threshold && script(k).raised.None?
  {
    var all, tr := iters + [rec], trend + [ScoreOfRecord(rec)];
    forall k | 0 <= k < |all|
      ensures Accepted(all[k]) && tr[k] == ScoreOfRecord(all[k]) && tr[k] < p.threshold && script(k).raised.None?
    {
      if k < |iters| {
        assert all[k] == iters[k] && tr[k] == trend[k];
      }
    }
  }

  /** The state carried into iteration `i + 1` after an accepted iteration. */
  function NextState(p: LoopSetup, script: nat -> Attempt, i: int, st: LoopState): LoopState
    requires 1 <= i <= p.maxIterations
    requires script(i - 1).improver.Ok? && script(i - 1).evaluator.Ok?
  {
    var out := script(i - 1).improver.value;
    var fb := ParseEvaluatorOutput(script(i - 1).evaluator.value, i, p.evaluatorName);
    var next := if i < p.maxIterations then NextInput(p, out, fb, i) else st.currentInput;
    st.(iterations := st.iterations + [IterationResult(i, PairName(p), st.currentInput, out, Some(fb), true, None)],
        trend := st.trend + [fb.qualityScore], finalOutput := out, finalScore := fb.qualityScore, currentInput := next)
  }

  lemma AppendFits(p: LoopSetup, script: nat -> Attempt, iters: seq<IterationResult>, rec: IterationResult)
    requires RecordsFitScript(p, script, iters)
    requires RecordFits(p, script(|iters|), rec, |iters|)
    ensures RecordsFitScript(p, script, iters + [rec])
  {
    var all := iters + [rec];
    forall k | 0 <= k < |all| ensures RecordFits(p, script(k), all[k], k) {
      if k < |iters| {
        assert all[k] == iters[k];
      }
    }
  }

  lemma AppendChains(p: LoopSetup, iters: seq<IterationResult>, rec: IterationResult)
    requires InputsChain(p, iters)
    requires |iters| == 0 ==> rec.inputData == p.initialInput
    requires |iters| > 0 && Accepted(iters[|iters| - 1]) ==>
               rec.inputData == NextInput(p, iters[|iters| - 1].outputData, iters[|iters| - 1].feedback.value, |iters|)
    ensures InputsChain(p, iters + [rec])
  {
    var all := iters + [rec];
    forall k | 0 <= k < |all| - 1 && Accepted(all[k])
      ensures all[k + 1].inputData == NextInput(p, all[k].outputData, all[k].feedback.value, k + 1)
    {
      assert all[k] == iters[k];
      if k + 1 < |iters| {
        assert all[k + 1] == iters[k + 1];
      }
    }
  }

  /** The loop, entered properly at iteration `i` with state `st`, ends
      in `fin`: one last record `rec` that fits its attempt and takes its
      input from the state, which either failed or was accepted and
      stopped the loop. */
  predicate EndsWithRecord(p: LoopSetup, script: nat -> Attempt, i: int, st: LoopState, fin: LoopState, rec: IterationResult) {
    && Entering(p, script, i, st) && i <= p.maxIterations
    && fin.iterations == st.iterations + [rec]
    && RecordFits(p, script(i - 1), rec, i - 1)
    && rec.inputData == st.currentInput
    && (!rec.success ==>
          (fin.trend == st.trend && fin.finalOutput == st.finalOutput && fin.finalScore == st.finalScore && !fin.thresholdMet))
    && (rec.success ==>
          && fin.trend == st.trend + [ScoreOfRecord(rec)]
          && fin.finalOutput == rec.outputData
          && fin.finalScore == ScoreOfRecord(rec)
          && (fin.thresholdMet <==> (ScoreOfRecord(rec) >= p.threshold && script(i - 1).raised.None?))
          && (script(i - 1).raised.Some? || fin.thresholdMet))
  }

  lemma LastRecordKeepsRecords(p: LoopSetup, script: nat -> Attempt, i: int, st: LoopState, fin: LoopState, rec: IterationResult)
    requires EndsWithRecord(p, script, i, st, fin, rec)
    ensures RecordsFitScript(p, script, fin.iterations)
    ensures InputsChain(p, fin.iterations)
    ensures ContinuedOnlyWhenDue(p, script, fin.iterations)
    ensures TrendFollows(fin.iterations, fin.trend)
  {
    AppendFits(p, script, st.iterations, rec);
    AppendChains(p, st.iterations, rec);
    LastRecordTrend(p, script, i, st, fin, rec);
  }

  lemma LastRecordTrend(p: LoopSetup, script: nat -> Attempt, i: int, st: LoopState, fin: LoopState, rec: IterationResult)
    requires EndsWithRecord(p, script, i, st, fin, rec)
    ensures ContinuedOnlyWhenDue(p, script, fin.iterations)
    ensures TrendFollows(fin.iterations, fin.trend)
  {
    assert forall k :: 0 <= k < i - 1 ==> fin.iterations[k] == st.iterations[k];
    if rec.success {
      assert fin.trend[i - 1] == ScoreOfRecord(fin.iterations[i - 1]);
    }
  }

  lemma LastRecordReports(p: LoopSetup, script: nat -> Attempt, i: int, st: LoopState, fin: LoopState, rec: IterationResult)
    requires EndsWithRecord(p, script, i, st, fin, rec)
    ensures |fin.iterations| <= Cap(p)
    ensures FinalsFollow(Finish(p, fin))
    ensures ThresholdReported(p, script, Finish(p, fin))
    ensures StoppedForAReason(p, script, Finish(p, fin))
  {
  }

  /** An iteration that ends the corrected loop ends it in a well-formed run. */
  lemma StopWellFormed(p: LoopSetup, script: nat -> Attempt, i: int, st: LoopState)
    requires Entering(p, script, i, st) && i <= p.maxIterations
    requires !(script(i - 1).improver.Ok? && script(i - 1).evaluator.Ok? && script(i - 1).raised.None?
               && !MeetsThreshold(ParseEvaluatorOutput(script(i - 1).evaluator.value, i, p.evaluatorName), p.threshold))
    ensures WellFormedRun(p, script, Finish(p, Iterate(p, script, i, st, false)))
  {
    var fin := Iterate(p, script, i, st, false);
    var a := script(i - 1);
    assert fin.iterations == st.iterations + [fin.iterations[i - 1]];
    assert RecordFits(p, a, fin.iterations[i - 1], i - 1);
    assert EndsWithRecord(p, script, i, st, fin, fin.iterations[i - 1]);
    LastRecordKeepsRecords(p, script, i, st, fin, fin.iterations[i - 1]);
    LastRecordReports(p, script, i, st, fin, fin.iterations[i - 1]);
  }

  /** From any state that enters iteration `i` properly, the corrected loop
      ends in a well-formed run. */
  lemma {:induction false} IterateWellFormed(p: LoopSetup, script: nat -> Attempt, i: int, st: LoopState)
    requires Entering(p, script, i, st)
    ensures WellFormedRun(p, script, Finish(p, Iterate(p, script, i, st, false)))
    decreases p.maxIterations - i + 1
  {
    if i > p.maxIterations {
      EndWellFormed(p, script, i, st);
    } else {
      var a := script(i - 1);
      if a.improver.Ok? && a.evaluator.Ok? && a.raised.None?
         && !MeetsThreshold(ParseEvaluatorOutput(a.evaluator.value, i, p.evaluatorName), p.threshold) {
        ContinueEntering(p, script, i, st);
        assert Iterate(p, script, i, st, false) == Iterate(p, script, i + 1, NextState(p, script, i, st), false);
        IterateWellFormed(p, script, i + 1, NextState(p, script, i, st));
      } else {
        StopWellFormed(p, script, i, st);
      }
    }
  }

  /** `execute_iterative_loop` without the duplicate record: every promise
      of `WellFormedRun`, in particular `total_iterations` never exceeds
      `max_iterations`. */
  function RunLoop(p: LoopSetup, script: nat -> Attempt): (r: LoopResult)
    ensures WellFormedRun(p, script, r)
    ensures r.totalIterations <= Cap(p)
    ensures r.loopName == p.loopName && r.qualityThreshold == p.threshold
  {
    IterateWellFormed(p, script, 1, Start(p));
    Finish(p, Iterate(p, script, 1, Start(p), false))
  }

  // ---------------------------------------------------------------------
  // The duplicate record
  // ---------------------------------------------------------------------

  /** The extra record the source's handler appends when the iteration
      that ended a corrected run raised after being recorded. */
  function WithDuplicate(p: LoopSetup, script: nat -> Attempt, st: LoopState, i: int): LoopState
  {
    var n := |st.iterations|;
    if n >= i && n > 0 && st.iterations[n - 1].success && script(n - 1).raised.Some? then
      st.(iterations := st.iterations
            + [IterationResult(n, PairName(p), st.iterations[n - 1].inputData, VNone, None, false, script(n - 1).raised)])
    else st
  }

  /** An iteration that ends the loop ends both versions alike, up to the
      duplicate record. */
  lemma StopAsWritten(p: LoopSetup, script: nat -> Attempt, i: int, st: LoopState)
    requires 1 <= i <= p.maxIterations && |st.iterations| == i - 1
    requires !(script(i - 1).improver.Ok? && script(i - 1).evaluator.Ok? && script(i - 1).raised.None?
               && !MeetsThreshold(ParseEvaluatorOutput(script(i - 1).evaluator.value, i, p.evaluatorName), p.threshold))
    ensures |Iterate(p, script, i, st, false).iterations| == i
    ensures Iterate(p, script, i, st, true) == WithDuplicate(p, script, Iterate(p, script, i, st, false), i)
  {
    var a := script(i - 1);
    if a.improver.Fail? {
      StopOnImproverFailure(p, script, i, st);
    } else if a.evaluator.Fail? {
      StopOnEvaluatorFailure(p, script, i, st);
    } else if a.raised.Some? {
      StopOnRaise(p, script, i, st);
    } else {
      StopOnThreshold(p, script, i, st);
    }
  }

  lemma StopOnImproverFailure(p: LoopSetup, script: nat -> Attempt, i: int, st: LoopState)
    requires 1 <= i <= p.maxIterations && |st.iterations| == i - 1
    requires script(i - 1).improver.Fail?
    ensures |Iterate(p, script, i, st, false).iterations| == i
    ensures Iterate(p, script, i, st, true) == WithDuplicate(p, script, Iterate(p, script, i, st, false), i)
  {
  }

  lemma StopOnEvaluatorFailure(p: LoopSetup, script: nat -> Attempt, i: int, st: LoopState)
    requires 1 <= i <= p.maxIterations && |st.iterations| == i - 1
    requires script(i - 1).improver.Ok? && script(i - 1).evaluator.Fail?
    ensures |Iterate(p, script, i, st, false).iterations| == i
    ensures Iterate(p, script, i, st, true) == WithDuplicate(p, script, Iterate(p, script, i, st, false), i)
  {
  }

  lemma StopOnRaise(p: LoopSetup, script: nat -> Attempt, i: int, st: LoopState)
    requires 1 <= i <= p.maxIterations && |st.iterations| == i - 1
    requires script(i - 1).improver.Ok? && script(i - 1).evaluator.Ok? && script(i - 1).raised.Some?
    ensures |Iterate(p, script, i, st, false).iterations| == i
    ensures Iterate(p, script, i, st, true) == WithDuplicate(p, script, Iterate(p, script, i, st, false), i)
  {
  }

  lemma StopOnThreshold(p: LoopSetup, script: nat -> Attempt, i: int, st: LoopState)
    requires 1 <= i <= p.maxIterations && |st.iterations| == i - 1
    requires script(i - 1).improver.Ok? && script(i - 1).evaluator.Ok? && script(i - 1).raised.None?
    requires MeetsThreshold(ParseEvaluatorOutput(script(i - 1).evaluator.value, i, p.evaluatorName), p.threshold)
    ensures |Iterate(p, script, i, st, false).iterations| == i
    ensures Iterate(p, script, i, st, true) == WithDuplicate(p, script, Iterate(p, script, i, st, false), i)
  {
  }

  /** An accepted iteration below the threshold that did not raise hands
      the loop on to the next iteration, in both versions. */
  lemma IterateContinues(p: LoopSetup, script: nat -> Attempt, i: int, st: LoopState, asWritten: bool)
    requires 1 <= i <= p.maxIterations
    requires script(i - 1).improver.Ok? && script(i - 1).evaluator.Ok? && script(i - 1).raised.None?
    requires !MeetsThreshold(ParseEvaluatorOutput(script(i - 1).evaluator.value, i, p.evaluatorName), p.threshold)
    ensures Iterate(p, script, i, st, asWritten) == Iterate(p, script, i + 1, NextState(p, script, i, st), asWritten)
  {
  }

  /** An iteration that continues the loop keeps the two versions related
      as they are from the next iteration on. */
  lemma ContinueAsWritten(p: LoopSetup, script: nat -> Attempt, i: int, st: LoopState)
    requires 1 <= i <= p.maxIterations
    requires script(i - 1).improver.Ok? && script(i - 1).evaluator.Ok? && script(i - 1).raised.None?
    requires !MeetsThreshold(ParseEvaluatorOutput(script(i - 1).evaluator.value, i, p.evaluatorName), p.threshold)
    requires var st2 := NextState(p, script, i, st);
             && i <= |Iterate(p, script, i + 1, st2, false).iterations|
             && Iterate(p, script, i + 1, st2, true) == WithDuplicate(p, script, Iterate(p, script, i + 1, st2, false), i + 1)
    ensures i - 1 <= |Iterate(p, script, i, st, false).iterations|
    ensures Iterate(p, script, i, st, true) == WithDuplicate(p, script, Iterate(p, script, i, st, false), i)
  {
    IterateContinues(p, script, i, st, false);
    IterateContinues(p, script, i, st, true);
    DuplicateShift(p, script, Iterate(p, script, i + 1, NextState(p, script, i, st), false), i);
  }

  /** A run that got past iteration `i` without a raise there gets its
      duplicate, if any, from a later iteration. */
  lemma DuplicateShift(p: LoopSetup, script: nat -> Attempt, fin: LoopState, i: int)
    requires 1 <= i <= |fin.iterations| && script(i - 1).raised.None?
    ensures WithDuplicate(p, script, fin, i) == WithDuplicate(p, script, fin, i + 1)
  {
  }

  /** Past the last iteration both versions leave the state alone. */
  lemma IterateDone(p: LoopSetup, script: nat -> Attempt, i: int, st: LoopState)
    requires 1 <= i && p.maxIterations < i && |st.iterations| == i - 1
    ensures i - 1 <= |Iterate(p, script, i, st, false).iterations|
    ensures Iterate(p, script, i, st, true) == WithDuplicate(p, script, Iterate(p, script, i, st, false), i)
  {
  }

  lemma {:induction false} IterateAsWritten(p: LoopSetup, script: nat -> Attempt, i: int, st: LoopState)
    requires 1 <= i <= Cap(p) + 1 && |st.iterations| == i - 1
    ensures i - 1 <= |Iterate(p, script, i, st, false).iterations|
    ensures Iterate(p, script, i, st, true) == WithDuplicate(p, script, Iterate(p, script, i, st, false), i)
    decreases p.maxIterations - i + 1
  {
    if i <= p.maxIterations {
      var a := script(i - 1);
      if a.improver.Ok? && a.evaluator.Ok? && a.raised.None?
         && !MeetsThreshold(ParseEvaluatorOutput(a.evaluator.value, i, p.evaluatorName), p.threshold) {
        IterateAsWritten(p, script, i + 1, NextState(p, script, i, st));
        ContinueAsWritten(p, script, i, st);
      } else {
        StopAsWritten(p, script, i, st);
      }
    } else {
      IterateDone(p, script, i, st);
    }
  }

  /** The loop as written differs from the corrected one in exactly one
      way: a run whose last iteration raised after being recorded carries
      one more, failed, record for that same iteration. */
  lemma AsWrittenAddsDuplicate(p: LoopSetup, script: nat -> Attempt)
    ensures var r := RunLoop(p, script);
            var n := |r.iterations|;
            ExecuteLoopAsWritten(p, script)
            == if n > 0 && r.iterations[n - 1].success && script(n - 1).raised.Some? then
                 r.(iterations := r.iterations
                      + [IterationResult(n, PairName(p), r.iterations[n - 1].inputData, VNone, None, false, script(n - 1).raised)],
                    totalIterations := n + 1)
               else r
  {
    IterateAsWritten(p, script, 1, Start(p));
  }

  /** One iteration allowed, the evaluator answering with a dict whose
      `quality_score` is a string: the log line's `:.1f` raises after the
      iteration was recorded, and the source reports two iterations. The
      model's score field is numeric, so the dict's score here stands in
      for the string and the raise is the attempt's flag. */
  lemma AsWrittenExceedsCap()
    ensures var p := LoopSetup("loop", "python_coder", "code_reviewer", VStr("make a tool"), 1, 85.0, fb => "");
            var script := k => Attempt(Ok(VStr("code")), Ok(ScoreDict(0.0, None, None, None)),
                                       Some("Unknown format code 'f' for object of type 'str'"));
            && ExecuteLoopAsWritten(p, script).totalIterations == 2
            && ExecuteLoopAsWritten(p, script).totalIterations > p.maxIterations
            && RunLoop(p, script).totalIterations == 1
  {
    var p := LoopSetup("loop", "python_coder", "code_reviewer", VStr("make a tool"), 1, 85.0, fb => "");
    var script := k => Attempt(Ok(VStr("code")), Ok(ScoreDict(0.0, None, None, None)),
                               Some("Unknown format code 'f' for object of type 'str'"));
    AsWrittenAddsDuplicate(p, script);
  }
}
