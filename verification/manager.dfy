/** Pipeline orchestration of `core/agent_manager_v2.py` (`AgentManagerV2`).
    The manager's mutable fields become a `Manager` value that every
    operation takes and returns. Which agents the factory can build, what
    an agent's `process` returns and how an iterative step's agents behave
    come from the caller (`Env`, `creatable`), since that code is not part
    of this model. */
module Pipeline {
  import opened Common
  import opened Text
  import opened Dicts
  import opened Values
  import opened Feedback
  import opened Loop

  // ---------------------------------------------------------------------
  // Configuration (the parts of `PipelineConfig` the manager reads)
  // ---------------------------------------------------------------------

  datatype IterConfig = IterConfig(
    improver: string,
    evaluator: string,
    maxIterations: int,
    threshold: real)

  /** A step is iterative exactly when it carries an iterative config. */
  datatype StepConfig = StepConfig(
    agentType: string,
    optional: bool,
    iterative: Option<IterConfig>)

  /** `order` is what `get_execution_order()` returns: groups of step
      names, run group after group. */
  datatype PipelineConfig = PipelineConfig(
    name: string,
    steps: seq<StepConfig>,
    order: seq<seq<string>>)

  /** `get_step(name)`: the first step of that agent type. */
  function FindStep(steps: seq<StepConfig>, name: string): (r: Option<StepConfig>)
    ensures r.Some? ==> r.value in steps && r.value.agentType == name
    ensures r.None? ==> forall i :: 0 <= i < |steps| ==> steps[i].agentType != name
    decreases |steps|
  {
    if |steps| == 0 then None
    else if steps[0].agentType == name then Some(steps[0])
    else FindStep(steps[1..], name)
  }

  // ---------------------------------------------------------------------
  // Manager state
  // ---------------------------------------------------------------------

  datatype StepInfo = StepInfo(agentType: string, status: string, progress: int, optional: bool)

  /** `_progress_data`. `current` is the index of the step dict that
      `current_step_info` refers to (the same object, so later updates to
      that step show through it). Names, descriptions, times and logs are
      not modelled. */
  datatype Progress = Progress(
    totalSteps: int,
    completed: int,
    failed: int,
    percentage: real,
    steps: seq<StepInfo>,
    isRunning: bool,
    isCompleted: bool,
    hasFailures: bool,
    current: Option<nat>)

  /** `tracking` is false while `_progress_data` lacks the keys
      `_initialize_progress_tracking` writes (after construction, after
      `clear_agents`, and after a first initialisation that failed); the
      other fields of `progress` then only carry the three run flags. */
  datatype Manager = Manager(
    config: Option<PipelineConfig>,
    agents: set<string>,
    progress: Progress,
    tracking: bool)

  const Blank := Progress(0, 0, 0, 0.0, [], false, false, false, None)

  /** `__init__`, and equally the state `clear_agents` leaves behind. */
  function Fresh(): (m: Manager)
    ensures m.config.None? && m.agents == {} && !m.tracking
  {
    Manager(None, {}, Blank, false)
  }

  /** What the manager calls but does not define: an agent's `process`
      (by agent key), the scripted behaviour of an iterative step's two
      agents (by step and input), agents' display names,
      `format_feedback_for_agent` and `str()`. */
  datatype Env = Env(
    process: (string, Value) -> Outcome<Value>,
    script: (string, Value) -> (nat -> Attempt),
    agentName: string -> string,
    format: StructuredFeedback -> string,
    render: Renderer)

  // ---------------------------------------------------------------------
  // initialize_pipeline / _initialize_progress_tracking
  // ---------------------------------------------------------------------

  /** The agent keys a step instantiates, in the order it tries them. */
  function StepKeys(s: StepConfig): seq<string> {
    if s.iterative.Some? then [s.iterative.value.improver, s.iterative.value.evaluator]
    else [s.agentType]
  }

  /** Every agent key of the configuration. */
  function AllKeys(steps: seq<StepConfig>): set<string> {
    set i, k | 0 <= i < |steps| && k in StepKeys(steps[i]) :: k
  }

  /** Initialisation succeeds only if every key of every required step can
      be instantiated. */
  predicate RequiredCreatable(steps: seq<StepConfig>, creatable: set<string>) {
    forall i, k :: 0 <= i < |steps| && !steps[i].optional && k in StepKeys(steps[i]) ==> k in creatable
  }

  /** One `create_agent` attempt and whether its failure is tolerated. */
  datatype Want = Want(key: string, optional: bool)

  function StepWants(s: StepConfig): (ws: seq<Want>)
    ensures |ws| == |StepKeys(s)|
    ensures forall j :: 0 <= j < |ws| ==> ws[j] == Want(StepKeys(s)[j], s.optional)
  {
    var keys := StepKeys(s);
    seq(|keys|, j requires 0 <= j < |keys| => Want(keys[j], s.optional))
  }

  /** The attempts of the whole configuration, in order. */
  function Wants(steps: seq<StepConfig>): seq<Want>
    decreases |steps|
  {
    if |steps| == 0 then [] else StepWants(steps[0]) + Wants(steps[1..])
  }

  predicate RequiredIn(ws: seq<Want>, creatable: set<string>) {
    forall i :: 0 <= i < |ws| && !ws[i].optional ==> ws[i].key in creatable
  }

  function WantedKeys(ws: seq<Want>): set<string> {
    set i | 0 <= i < |ws| :: ws[i].key
  }

  /** The creation loop: agents are added one by one; the first failure of
      a required one stops it, keeping the agents created so far. */
  function Instantiate(ws: seq<Want>, creatable: set<string>, acc: set<string>): (r: (bool, set<string>))
    ensures r.0 <==> RequiredIn(ws, creatable)
    ensures acc <= r.1 <= acc + creatable
    ensures r.0 ==> r.1 == acc + WantedKeys(ws) * creatable
    decreases |ws|
  {
    if |ws| == 0 then (true, acc)
    else
      assert WantedKeys(ws) == {ws[0].key} + WantedKeys(ws[1..]) by {
        forall k | k in WantedKeys(ws) ensures k in {ws[0].key} + WantedKeys(ws[1..]) {
          var i :| 0 <= i < |ws| && ws[i].key == k;
          if i > 0 {
            assert ws[1..][i - 1].key == k;
          }
        }
        forall k | k in WantedKeys(ws[1..]) ensures k in WantedKeys(ws) {
          var i :| 0 <= i < |ws[1..]| && ws[1..][i].key == k;
          assert ws[i + 1].key == k;
        }
      }
      assert RequiredIn(ws, creatable) <==> (ws[0].optional || ws[0].key in creatable) && RequiredIn(ws[1..], creatable) by {
        if RequiredIn(ws[1..], creatable) && (ws[0].optional || ws[0].key in creatable) {
          forall i | 0 <= i < |ws| && !ws[i].optional ensures ws[i].key in creatable {
            if i > 0 {
              assert ws[1..][i - 1] == ws[i];
            }
          }
        }
      }
      if ws[0].key in creatable then Instantiate(ws[1..], creatable, acc + {ws[0].key})
      else if ws[0].optional then Instantiate(ws[1..], creatable, acc)
      else (false, acc)
  }

  lemma RequiredInConcat(a: seq<Want>, b: seq<Want>, creatable: set<string>)
    ensures RequiredIn(a + b, creatable) <==> RequiredIn(a, creatable) && RequiredIn(b, creatable)
  {
    if RequiredIn(a, creatable) && RequiredIn(b, creatable) {
      forall i | 0 <= i < |a + b| && !(a + b)[i].optional ensures (a + b)[i].key in creatable {
        if i >= |a| {
          assert (a + b)[i] == b[i - |a|];
        }
      }
    }
    if RequiredIn(a + b, creatable) {
      forall i | 0 <= i < |b| && !b[i].optional ensures b[i].key in creatable {
        assert (a + b)[i + |a|] == b[i];
      }
      forall i | 0 <= i < |a| && !a[i].optional ensures a[i].key in creatable {
        assert (a + b)[i] == a[i];
      }
    }
  }

  /** The flattened attempts demand exactly what `RequiredCreatable`
      states about the steps. */
  lemma {:induction false} WantsRequired(steps: seq<StepConfig>, creatable: set<string>)
    ensures RequiredIn(Wants(steps), creatable) <==> RequiredCreatable(steps, creatable)
    decreases |steps|
  {
    if |steps| > 0 {
      WantsRequired(steps[1..], creatable);
      RequiredInConcat(StepWants(steps[0]), Wants(steps[1..]), creatable);
      var head := StepWants(steps[0]);
      assert RequiredIn(head, creatable) <==> (steps[0].optional || forall k :: k in StepKeys(steps[0]) ==> k in creatable) by {
        if !steps[0].optional && RequiredIn(head, creatable) {
          forall k | k in StepKeys(steps[0]) ensures k in creatable {
            var j :| 0 <= j < |StepKeys(steps[0])| && StepKeys(steps[0])[j] == k;
            assert head[j].key == k;
          }
        }
      }
      if RequiredCreatable(steps[1..], creatable) && RequiredIn(head, creatable) {
        forall i, k | 0 <= i < |steps| && !steps[i].optional && k in StepKeys(steps[i]) ensures k in creatable {
          if i > 0 {
            assert steps[1..][i - 1] == steps[i];
          }
        }
      }
      if RequiredCreatable(steps, creatable) {
        forall i, k | 0 <= i < |steps[1..]| && !steps[1..][i].optional && k in StepKeys(steps[1..][i]) ensures k in creatable {
          assert steps[1..][i] == steps[i + 1];
        }
      }
    }
  }

  lemma WantedKeysConcat(a: seq<Want>, b: seq<Want>)
    ensures WantedKeys(a + b) == WantedKeys(a) + WantedKeys(b)
  {
    forall k | k in WantedKeys(a + b) ensures k in WantedKeys(a) + WantedKeys(b) {
      var i :| 0 <= i < |a + b| && (a + b)[i].key == k;
      if i >= |a| {
        assert b[i - |a|].key == k;
      }
    }
    forall k | k in WantedKeys(b) ensures k in WantedKeys(a + b) {
      var i :| 0 <= i < |b| && b[i].key == k;
      assert (a + b)[i + |a|].key == k;
    }
    forall k | k in WantedKeys(a) ensures k in WantedKeys(a + b) {
      var i :| 0 <= i < |a| && a[i].key == k;
      assert (a + b)[i].key == k;
    }
  }

  /** The flattened attempts name exactly the configuration's keys. */
  lemma {:induction false} WantsKeys(steps: seq<StepConfig>)
    ensures WantedKeys(Wants(steps)) == AllKeys(steps)
    decreases |steps|
  {
    if |steps| > 0 {
      WantsKeys(steps[1..]);
      WantedKeysConcat(StepWants(steps[0]), Wants(steps[1..]));
      var head := StepWants(steps[0]);
      assert WantedKeys(head) == set k | k in StepKeys(steps[0]) by {
        forall k | k in StepKeys(steps[0]) ensures k in WantedKeys(head) {
          var j :| 0 <= j < |StepKeys(steps[0])| && StepKeys(steps[0])[j] == k;
          assert head[j].key == k;
        }
      }
      forall k | k in AllKeys(steps) ensures k in WantedKeys(head) + AllKeys(steps[1..]) {
        var i :| 0 <= i < |steps| && k in StepKeys(steps[i]);
        if i > 0 {
          assert steps[1..][i - 1] == steps[i];
        }
      }
      forall k | k in AllKeys(steps[1..]) ensures k in AllKeys(steps) {
        var i :| 0 <= i < |steps[1..]| && k in StepKeys(steps[1..][i]);
        assert steps[1..][i] == steps[i + 1];
      }
      forall k | k in StepKeys(steps[0]) ensures k in AllKeys(steps) {
        assert k in StepKeys(steps[0]);
      }
    }
  }

  /** `_initialize_progress_tracking`: every step pending at 0, all
      counters 0, nothing running. */
  function InitialProgress(cfg: PipelineConfig): (p: Progress)
    ensures p.totalSteps == |cfg.steps| && |p.steps| == |cfg.steps|
    ensures p.completed == 0 && p.failed == 0 && p.percentage == 0.0
    ensures forall i :: 0 <= i < |cfg.steps| ==>
      p.steps[i].status == "pending" && p.steps[i].progress == 0
      && p.steps[i].agentType == cfg.steps[i].agentType && p.steps[i].optional == cfg.steps[i].optional
    ensures !p.isRunning && !p.isCompleted && !p.hasFailures && p.current.None?
  {
    var n := |cfg.steps|;
    Progress(n, 0, 0, 0.0,
             seq(n, i requires 0 <= i < n => StepInfo(cfg.steps[i].agentType, "pending", 0, cfg.steps[i].optional)),
             false, false, false, None)
  }

  /** `initialize_pipeline(name)`. `loaded` is what loading the named
      configuration gives: an exception, `None`, or a configuration.
      `creatable` holds the agent keys the factory can instantiate. */
  function InitializePipeline(m: Manager, loaded: Outcome<Option<PipelineConfig>>, creatable: set<string>): (r: (Manager, bool))
    ensures loaded.Fail? ==> r == (m, false)
    ensures loaded == Ok(None) ==> r == (m.(config := None), false)
    ensures loaded.Ok? && loaded.value.Some? ==>
      var cfg := loaded.value.value;
      && r.0.config == Some(cfg)
      && (r.1 <==> RequiredCreatable(cfg.steps, creatable))
      && r.0.agents <= creatable * AllKeys(cfg.steps)
      && (r.1 ==> r.0.agents == AllKeys(cfg.steps) * creatable
                  && r.0.progress == InitialProgress(cfg) && r.0.tracking)
      && (!r.1 ==> r.0.progress == m.progress && r.0.tracking == m.tracking)
  {
    match loaded
    case Fail(_) => (m, false)
    case Ok(None) => (m.(config := None), false)
    case Ok(Some(cfg)) =>
      var ws := Wants(cfg.steps);
      var made := Instantiate(ws, creatable, {});
      WantsRequired(cfg.steps, creatable);
      WantsKeys(cfg.steps);
      assert made.1 <= WantedKeys(ws) by {
        InstantiateWithin(ws, creatable, {});
      }
      if made.0 then
        (Manager(Some(cfg), made.1, InitialProgress(cfg), true), true)
      else
        (m.(config := Some(cfg), agents := made.1), false)
  }

  lemma {:induction false} InstantiateWithin(ws: seq<Want>, creatable: set<string>, acc: set<string>)
    ensures Instantiate(ws, creatable, acc).1 <= acc + WantedKeys(ws)
    decreases |ws|
  {
    if |ws| > 0 {
      InstantiateWithin(ws[1..], creatable, acc + {ws[0].key});
      InstantiateWithin(ws[1..], creatable, acc);
      forall k | k in WantedKeys(ws[1..]) ensures k in WantedKeys(ws) {
        var i :| 0 <= i < |ws[1..]| && ws[1..][i].key == k;
        assert ws[i + 1].key == k;
      }
      assert ws[0].key in WantedKeys(ws);
    }
  }

  // ---------------------------------------------------------------------
  // Progress updates
  // ---------------------------------------------------------------------

  /** The index the `for ... break` loop of `_update_step_progress` stops
      at. */
  function FirstStep(steps: seq<StepInfo>, name: string): (r: Option<nat>)
    ensures r.Some? ==> (r.value < |steps| && steps[r.value].agentType == name
                         && forall j :: 0 <= j < r.value ==> steps[j].agentType != name)
    ensures r.None? ==> forall j :: 0 <= j < |steps| ==> steps[j].agentType != name
    decreases |steps|
  {
    if |steps| == 0 then None
    else if steps[0].agentType == name then Some(0)
    else match FirstStep(steps[1..], name)
      case None => None
      case Some(j) => Some(j + 1)
  }

  /** `_update_step_progress`: only the first step of that agent type
      changes, and `current_step_info` moves only for "running". */
  function UpdateStepProgress(p: Progress, name: string, status: string, pct: int): (r: Progress)
    ensures |r.steps| == |p.steps|
    ensures r.(steps := p.steps, current := p.current) == p
    ensures forall j :: 0 <= j < |p.steps| && FirstStep(p.steps, name) != Some(j) ==> r.steps[j] == p.steps[j]
    ensures FirstStep(p.steps, name).Some? ==>
      var i := FirstStep(p.steps, name).value;
      r.steps[i] == p.steps[i].(status := status, progress := pct)
    ensures r.current == (if status == "running" && FirstStep(p.steps, name).Some? then FirstStep(p.steps, name) else p.current)
  {
    match FirstStep(p.steps, name)
    case None => p
    case Some(i) =>
      p.(steps := p.steps[i := p.steps[i].(status := status, progress := pct)],
         current := if status == "running" then Some(i) else p.current)
  }

  /** `completed / total * 100`, or 0 without steps. */
  function PctOf(completed: int, total: int): real {
    if total > 0 then (completed as real / total as real) * 100.0 else 0.0
  }

  lemma PctMonotone(c1: int, c2: int, total: int)
    requires c1 <= c2
    ensures PctOf(c1, total) <= PctOf(c2, total)
  {
    if total > 0 {
      var t := total as real;
      assert c1 as real / t <= c2 as real / t by {
        assert c1 as real / t * t == c1 as real;
        assert c2 as real / t * t == c2 as real;
      }
    }
  }

  lemma PctBounds(completed: int, total: int)
    requires 0 <= completed <= total
    ensures 0.0 <= PctOf(completed, total) <= 100.0
    ensures total > 0 && completed == total ==> PctOf(completed, total) == 100.0
  {
    if total > 0 {
      var t := total as real;
      assert completed as real / t <= 1.0 by {
        assert completed as real / t * t == completed as real;
      }
      assert 0.0 <= completed as real / t by {
        assert completed as real / t * t == completed as real;
      }
    }
  }

  /** `_update_overall_progress` (times and estimates not modelled). */
  function UpdateOverall(p: Progress, total: int): (r: Progress)
    ensures r.(percentage := p.percentage) == p
    ensures r.percentage == PctOf(p.completed, total)
  {
    p.(percentage := PctOf(p.completed, total))
  }

  /** The percentage agrees with the counter whenever progress is tracked. */
  predicate PctConsistent(m: Manager) {
    m.tracking && m.config.Some? ==> m.progress.percentage == PctOf(m.progress.completed, |m.config.value.steps|)
  }

  /** What running a step can do to the manager: configuration, agents and
      flags stay, counters only grow, and a consistent percentage stays
      consistent and does not drop. */
  predicate StepEffect(m: Manager, m2: Manager) {
    && m2.config == m.config && m2.agents == m.agents && m2.tracking == m.tracking
    && m2.progress.totalSteps == m.progress.totalSteps
    && |m2.progress.steps| == |m.progress.steps|
    && m2.progress.completed >= m.progress.completed
    && m2.progress.failed >= m.progress.failed
    && m2.progress.isRunning == m.progress.isRunning
    && m2.progress.isCompleted == m.progress.isCompleted
    && (m.progress.hasFailures ==> m2.progress.hasFailures)
    && (PctConsistent(m) ==> PctConsistent(m2) && m2.progress.percentage >= m.progress.percentage)
  }

  /** Marking a step failed: the status, one more failure, the flag. */
  function MarkFailed(p: Progress, name: string): (r: Progress)
    ensures r.failed == p.failed + 1 && r.hasFailures && r.completed == p.completed
    ensures |r.steps| == |p.steps|
  {
    UpdateStepProgress(p, name, "failed", 0).(failed := p.failed + 1, hasFailures := true)
  }

  /** Marking a step completed: the status and one more completion. */
  function MarkCompleted(p: Progress, name: string): (r: Progress)
    ensures r.completed == p.completed + 1 && r.failed == p.failed && r.hasFailures == p.hasFailures
    ensures |r.steps| == |p.steps|
  {
    UpdateStepProgress(p, name, "completed", 100).(completed := p.completed + 1)
  }

  // ---------------------------------------------------------------------
  // Steps
  // ---------------------------------------------------------------------

  datatype StepRun = StepRun(m: Manager, result: Outcome<Value>)

  function OptionalError(e: string): Value {
    VDict([("error", VStr(e)), ("optional", VBool(true))])
  }

  /** A regular step (after its configuration was found). A missing agent
      raises before anything is recorded, whatever the step's policy. */
  function RegularStep(env: Env, m: Manager, step: StepConfig, input: Value): (r: StepRun)
    requires m.config.Some?
    ensures StepEffect(m, r.m)
    ensures step.agentType !in m.agents ==> r.m == m && r.result.Fail?
    ensures !m.tracking ==> r.m == m && r.result.Fail?
    ensures step.agentType in m.agents && m.tracking ==>
      match env.process(step.agentType, input)
      case Ok(v) =>
        r.result == Ok(v) && r.m.progress.completed == m.progress.completed + 1
        && r.m.progress.failed == m.progress.failed
      case Fail(e) =>
        r.result == (if step.optional then Ok(OptionalError(e)) else Fail(e))
        && r.m.progress.failed == m.progress.failed + 1 && r.m.progress.hasFailures
        && r.m.progress.completed == m.progress.completed
  {
    var name := step.agentType;
    if name !in m.agents then StepRun(m, Fail("Agent " + name + " not found in active agents"))
    else if !m.tracking then StepRun(m, Fail("'steps'"))
    else
      match env.process(name, input)
      case Ok(v) => StepSucceeded(m, name, v)
      case Fail(e) => StepFailed(m, name, false, if step.optional then Ok(OptionalError(e)) else Fail(e))
  }

  /** A step that delivered `v`: marked running, then completed. */
  function StepSucceeded(m: Manager, name: string, v: Value): (r: StepRun)
    requires m.config.Some? && m.tracking
    ensures StepEffect(m, r.m) && r.result == Ok(v)
    ensures r.m.progress.completed == m.progress.completed + 1 && r.m.progress.failed == m.progress.failed
  {
    var running := UpdateStepProgress(m.progress, name, "running", 0);
    var p := UpdateOverall(MarkCompleted(running, name), |m.config.value.steps|);
    PctMonotone(m.progress.completed, p.completed, |m.config.value.steps|);
    StepRun(m.(progress := p), Ok(v))
  }

  /** A step that failed: marked running, then failed once, or twice when
      the failure is also caught by the caller's handler. */
  function StepFailed(m: Manager, name: string, twice: bool, result: Outcome<Value>): (r: StepRun)
    requires m.config.Some? && m.tracking
    ensures StepEffect(m, r.m) && r.result == result
    ensures r.m.progress.completed == m.progress.completed && r.m.progress.hasFailures
    ensures r.m.progress.failed == m.progress.failed + (if twice then 2 else 1)
  {
    var running := UpdateStepProgress(m.progress, name, "running", 0);
    var once := MarkFailed(running, name);
    var p := UpdateOverall(if twice then MarkFailed(once, name) else once, |m.config.value.steps|);
    StepRun(m.(progress := p), result)
  }

  /** The arguments `_execute_iterative_step` hands the loop. */
  function LoopSetupFor(env: Env, step: StepConfig, ic: IterConfig, input: Value): LoopSetup {
    LoopSetup(step.agentType, env.agentName(ic.improver), env.agentName(ic.evaluator),
              input, ic.maxIterations, ic.threshold, env.format)
  }

  /** The loop an iterative step runs: `execute_iterative_loop` as
      written, duplicate record included. */
  function StepLoop(env: Env, step: StepConfig, ic: IterConfig, input: Value): LoopResult {
    var p := LoopSetupFor(env, step, ic, input);
    ExecuteLoopAsWritten(p, env.script(step.agentType, input))
  }

  /** The step's loop reports the corrected loop's iterations, plus one
      when its last iteration raised after being recorded; so it reports at
      most one iteration more than `max_iterations` allows. */
  lemma StepLoopCounts(env: Env, step: StepConfig, ic: IterConfig, input: Value)
    ensures var p := LoopSetupFor(env, step, ic, input);
            var l := StepLoop(env, step, ic, input);
            var c := RunLoop(p, env.script(step.agentType, input));
            && (l.totalIterations == c.totalIterations || l.totalIterations == c.totalIterations + 1)
            && l.totalIterations <= Cap(p) + 1
            && l.finalOutput == c.finalOutput && l.thresholdMet == c.thresholdMet
  {
    var p := LoopSetupFor(env, step, ic, input);
    AsWrittenAddsDuplicate(p, env.script(step.agentType, input));
  }

  /** An iterative step's loop counts as done when it met the threshold or
      left a truthy output. */
  predicate LoopDelivered(l: LoopResult) {
    l.thresholdMet || Truthy(l.finalOutput)
  }

  function LoopFailureMessage(l: LoopResult): string {
    "Iterative loop failed to produce valid output after " + IntToString(l.totalIterations) + " iterations"
  }

  /** What a delivered iterative step returns. */
  function DeliveredValue(l: LoopResult, render: Renderer): (v: Value)
    ensures Field(v, "output") == Some(l.finalOutput)
    ensures Field(v, "iterative_result") == Some(LoopValue(l, render))
    ensures Field(v, "quality_score") == Some(VReal(l.finalQualityScore))
    ensures Field(v, "iterations_completed") == Some(VInt(l.totalIterations))
    ensures Field(v, "threshold_met") == Some(VBool(l.thresholdMet))
  {
    var v := VDict([("output", l.finalOutput), ("iterative_result", LoopValue(l, render)),
                    ("quality_score", VReal(l.finalQualityScore)),
                    ("iterations_completed", VInt(l.totalIterations)),
                    ("threshold_met", VBool(l.thresholdMet))]);
    GetFirst(v.entries, "iterative_result", 1);
    GetFirst(v.entries, "quality_score", 2);
    GetFirst(v.entries, "iterations_completed", 3);
    GetFirst(v.entries, "threshold_met", 4);
    v
  }

  /** What an optional iterative step whose loop delivered nothing returns. */
  function LoopErrorValue(l: LoopResult, render: Renderer): (v: Value)
    ensures Field(v, "error") == Some(VStr(LoopFailureMessage(l)))
    ensures Field(v, "optional") == Some(VBool(true))
    ensures Field(v, "loop_result") == Some(LoopValue(l, render))
  {
    var v := VDict([("error", VStr(LoopFailureMessage(l))), ("optional", VBool(true)),
                    ("loop_result", LoopValue(l, render))]);
    GetFirst(v.entries, "optional", 1);
    GetFirst(v.entries, "loop_result", 2);
    v
  }

  /** An iterative step. A required step whose loop delivered nothing is
      marked failed twice: once before raising and again in the handler
      that catches its own exception. */
  function IterativeStep(env: Env, m: Manager, step: StepConfig, ic: IterConfig, input: Value): (r: StepRun)
    requires m.config.Some?
    ensures StepEffect(m, r.m)
    ensures ic.improver !in m.agents || ic.evaluator !in m.agents ==> r.m == m && r.result.Fail?
    ensures !m.tracking ==> r.m == m && r.result.Fail?
    ensures ic.improver in m.agents && ic.evaluator in m.agents && m.tracking ==>
      var l := StepLoop(env, step, ic, input);
      if LoopDelivered(l) then
        r.result.Ok? && Field(r.result.value, "output") == Some(l.finalOutput)
        && Field(r.result.value, "iterative_result") == Some(LoopValue(l, env.render))
        && Field(r.result.value, "quality_score") == Some(VReal(l.finalQualityScore))
        && Field(r.result.value, "iterations_completed") == Some(VInt(l.totalIterations))
        && Field(r.result.value, "threshold_met") == Some(VBool(l.thresholdMet))
        && r.m.progress.completed == m.progress.completed + 1 && r.m.progress.failed == m.progress.failed
      else
        r.result.Fail? == !step.optional
        && (r.result.Fail? ==> r.result.msg == LoopFailureMessage(l))
        && (r.result.Ok? ==> Field(r.result.value, "error") == Some(VStr(LoopFailureMessage(l)))
                             && Field(r.result.value, "loop_result") == Some(LoopValue(l, env.render)))
        && r.m.progress.completed == m.progress.completed && r.m.progress.hasFailures
        && r.m.progress.failed == m.progress.failed + (if step.optional then 1 else 2)
  {
    var name := step.agentType;
    if ic.improver !in m.agents then StepRun(m, Fail("Improver agent " + ic.improver + " not found in active agents"))
    else if ic.evaluator !in m.agents then StepRun(m, Fail("Evaluator agent " + ic.evaluator + " not found in active agents"))
    else if !m.tracking then StepRun(m, Fail("'completed_steps'"))
    else
      var l := StepLoop(env, step, ic, input);
      if LoopDelivered(l) then StepSucceeded(m, name, DeliveredValue(l, env.render))
      else if step.optional then StepFailed(m, name, false, Ok(LoopErrorValue(l, env.render)))
      else StepFailed(m, name, true, Fail(LoopFailureMessage(l)))
  }

  /** `_execute_single_step`. */
  function ExecuteSingleStep(env: Env, m: Manager, name: string, input: Value): (r: StepRun)
    requires m.config.Some?
    ensures StepEffect(m, r.m)
    ensures FindStep(m.config.value.steps, name).None? ==>
      r == StepRun(m, Fail("Step configuration for " + name + " not found"))
    ensures r.m.progress.completed <= m.progress.completed + 1
  {
    match FindStep(m.config.value.steps, name)
    case None => StepRun(m, Fail("Step configuration for " + name + " not found"))
    case Some(step) =>
      if step.iterative.Some? then IterativeStep(env, m, step, step.iterative.value, input)
      else RegularStep(env, m, step, input)
  }

  // ---------------------------------------------------------------------
  // Groups and the pipeline
  // ---------------------------------------------------------------------

  datatype GroupRun = GroupRun(m: Manager, results: Outcome<Dict<Value>>)

  lemma StepEffectTransitive(m1: Manager, m2: Manager, m3: Manager)
    requires StepEffect(m1, m2) && StepEffect(m2, m3)
    ensures StepEffect(m1, m3)
  {
  }

  /** What a multi-step group stores for a step: its result, or
      `{"error": str(e)}` for the exception it raised. */
  function StoredValue(o: Outcome<Value>): (v: Value)
    ensures o.Ok? ==> v == o.value
    ensures o.Fail? ==> Field(v, "error") == Some(VStr(o.msg)) && |v.entries| == 1
  {
    match o
    case Ok(x) => x
    case Fail(e) => VDict([("error", VStr(e))])
  }

  /** A step's result depends on the configuration, the agents and whether
      progress is tracked, not on the progress counters, so the steps of a
      group cannot influence each other's results. */
  lemma StepResultIndependent(env: Env, m1: Manager, m2: Manager, name: string, input: Value)
    requires m1.config.Some? && m2.config == m1.config
    requires m2.agents == m1.agents && m2.tracking == m1.tracking
    ensures ExecuteSingleStep(env, m1, name, input).result == ExecuteSingleStep(env, m2, name, input).result
  {
    match FindStep(m1.config.value.steps, name)
    case None =>
    case Some(step) =>
      if step.iterative.Some? {
        IterativeResultIndependent(env, m1, m2, step, step.iterative.value, input);
      } else {
        RegularResultIndependent(env, m1, m2, step, input);
      }
  }

  lemma RegularResultIndependent(env: Env, m1: Manager, m2: Manager, step: StepConfig, input: Value)
    requires m1.config.Some? && m2.config == m1.config
    requires m2.agents == m1.agents && m2.tracking == m1.tracking
    ensures RegularStep(env, m1, step, input).result == RegularStep(env, m2, step, input).result
  {
  }

  lemma IterativeResultIndependent(env: Env, m1: Manager, m2: Manager, step: StepConfig, ic: IterConfig, input: Value)
    requires m1.config.Some? && m2.config == m1.config
    requires m2.agents == m1.agents && m2.tracking == m1.tracking
    ensures IterativeStep(env, m1, step, ic, input).result == IterativeStep(env, m2, step, ic, input).result
  {
  }

  /** The steps of a multi-step group, awaited one after another; a step's
      exception is stored as its result. */
  function RunEach(env: Env, m: Manager, names: seq<string>, input: Value, acc: Dict<Value>): (r: (Manager, Dict<Value>))
    requires m.config.Some?
    ensures StepEffect(m, r.0)
    ensures UniqueKeys(acc) ==> UniqueKeys(r.1)
    ensures forall k :: HasKey(r.1, k) <==> HasKey(acc, k) || k in names
    ensures forall k :: Get(r.1, k) == (if k in names then Some(StoredValue(ExecuteSingleStep(env, m, k, input).result))
                                        else Get(acc, k))
    ensures r.0.progress.completed <= m.progress.completed + |names|
    decreases |names|
  {
    if |names| == 0 then (m, acc)
    else
      var s := ExecuteSingleStep(env, m, names[0], input);
      var v := StoredValue(s.result);
      var rest := RunEach(env, s.m, names[1..], input, Put(acc, names[0], v));
      assert forall k :: k in names <==> k == names[0] || k in names[1..];
      forall k | k in names[1..]
        ensures ExecuteSingleStep(env, s.m, k, input).result == ExecuteSingleStep(env, m, k, input).result
      {
        StepResultIndependent(env, m, s.m, k, input);
      }
      rest
  }

  /** `_execute_step_group`: one step propagates its exception, several
      steps never do, and the results hold one entry per step name. */
  function ExecuteGroup(env: Env, m: Manager, names: seq<string>, input: Value): (r: GroupRun)
    requires m.config.Some?
    ensures StepEffect(m, r.m)
    ensures |names| != 1 ==> r.results.Ok?
    ensures r.m.progress.completed <= m.progress.completed + |names|
    ensures |names| == 1 ==> (r.results.Fail? <==> ExecuteSingleStep(env, m, names[0], input).result.Fail?)
    ensures r.results.Ok? ==> (UniqueKeys(r.results.value)
                               && forall k :: HasKey(r.results.value, k) <==> k in names)
    ensures r.results.Ok? ==>
              forall k :: k in names ==> Get(r.results.value, k) == Some(StoredValue(ExecuteSingleStep(env, m, k, input).result))
  {
    if |names| == 1 then SingleGroup(env, m, names[0], input)
    else
      var each := RunEach(env, m, names, input, []);
      GroupRun(each.0, Ok(each.1))
  }

  /** A group of one step, awaited directly: its exception propagates. */
  function SingleGroup(env: Env, m: Manager, name: string, input: Value): (r: GroupRun)
    requires m.config.Some?
    ensures StepEffect(m, r.m)
    ensures r.results.Fail? <==> ExecuteSingleStep(env, m, name, input).result.Fail?
    ensures r.m.progress.completed <= m.progress.completed + 1
    ensures r.results.Ok? ==> (UniqueKeys(r.results.value)
                               && (forall k :: HasKey(r.results.value, k) <==> k == name)
                               && Get(r.results.value, name) == Some(StoredValue(ExecuteSingleStep(env, m, name, input).result)))
  {
    var s := ExecuteSingleStep(env, m, name, input);
    match s.result
    case Ok(v) => GroupRun(s.m, Ok(Put([], name, v)))
    case Fail(e) => GroupRun(s.m, Fail(e))
  }

  /** The state of the `for step_group in execution_order` loop. */
  datatype Wave = Wave(m: Manager, results: Outcome<Dict<Value>>, input: Value)

  /** The input of the next group: the last value a group produced, or the
      same input if it produced nothing. */
  function Feed(input: Value, groupResults: Dict<Value>): Value {
    if |groupResults| > 0 then LastValue(groupResults) else input
  }

  /** How many step runs the groups ask for. */
  function NameCount(order: seq<seq<string>>): nat {
    if |order| == 0 then 0 else |order[0]| + NameCount(order[1..])
  }

  predicate SomeGroupHas(order: seq<seq<string>>, k: string) {
    exists g :: g in order && k in g
  }

  /** The group loop of `execute_pipeline`: results accumulate every
      group's keys, a later group overwriting an earlier one, and an
      exception from a single-step group stops the run. */
  function RunGroups(env: Env, m: Manager, order: seq<seq<string>>, input: Value, results: Dict<Value>): (r: Wave)
    requires m.config.Some?
    ensures StepEffect(m, r.m)
    ensures (forall i :: 0 <= i < |order| ==> |order[i]| != 1) ==> r.results.Ok?
    ensures r.results.Ok? ==> forall k :: HasKey(r.results.value, k) <==> HasKey(results, k) || SomeGroupHas(order, k)
    ensures r.m.progress.completed <= m.progress.completed + NameCount(order)
    decreases |order|
  {
    if |order| == 0 then Wave(m, Ok(results), input)
    else
      var g := ExecuteGroup(env, m, order[0], input);
      match g.results
      case Fail(e) => Wave(g.m, Fail(e), input)
      case Ok(d) =>
        var rest := RunGroups(env, g.m, order[1..], Feed(input, d), Update(results, d));
        assert forall i :: 0 <= i < |order[1..]| ==> order[1..][i] == order[i + 1];
        assert forall k :: SomeGroupHas(order, k) <==> k in order[0] || SomeGroupHas(order[1..], k) by {
          forall k | SomeGroupHas(order, k) ensures k in order[0] || SomeGroupHas(order[1..], k) {
            var h :| h in order && k in h;
            if h != order[0] {
              var i :| 0 <= i < |order| && order[i] == h;
              assert order[1..][i - 1] == h;
            }
          }
        }
        rest
  }

  /** After a group that returned `d`, the remaining groups run on the last
      value in `d`, or on the unchanged input when `d` is empty, with the
      results updated by `d`, so a later group's value replaces an earlier
      one for the same step. */
  lemma RunGroupsFeedsLast(env: Env, m: Manager, g: seq<string>, rest: seq<seq<string>>, input: Value, results: Dict<Value>)
    requires m.config.Some?
    requires ExecuteGroup(env, m, g, input).results.Ok?
    ensures var e := ExecuteGroup(env, m, g, input);
            var d := e.results.value;
            && RunGroups(env, m, [g] + rest, input, results)
               == RunGroups(env, e.m, rest, if |d| > 0 then d[|d| - 1].1 else input, Update(results, d))
            && forall k :: Get(Update(results, d), k) == (if k in g then Get(d, k) else Get(results, k))
  {
    var e := ExecuteGroup(env, m, g, input);
    var d := e.results.value;
    assert ([g] + rest)[0] == g && ([g] + rest)[1..] == rest;
    if |d| > 0 {
      assert Feed(input, d) == d[|d| - 1].1;
    }
  }

  /** Running the groups in two halves is running them all: the second
      half starts from the manager, results and input the first left. */
  lemma {:induction false} RunGroupsSplit(env: Env, m: Manager, o1: seq<seq<string>>, o2: seq<seq<string>>, input: Value, results: Dict<Value>)
    requires m.config.Some?
    ensures var w := RunGroups(env, m, o1, input, results);
      RunGroups(env, m, o1 + o2, input, results) ==
        if w.results.Ok? then RunGroups(env, w.m, o2, w.input, w.results.value) else w
    decreases |o1|
  {
    if |o1| > 0 {
      assert (o1 + o2)[0] == o1[0];
      assert (o1 + o2)[1..] == o1[1..] + o2;
      var g := ExecuteGroup(env, m, o1[0], input);
      if g.results.Ok? {
        RunGroupsSplit(env, g.m, o1[1..], o2, Feed(input, g.results.value), Update(results, g.results.value));
      }
    } else {
      assert o1 + o2 == o2;
    }
  }

  /** A group that produces no results, such as an empty one, changes
      neither the running input nor the results. */
  lemma {:induction false} EmptyGroupTransparent(env: Env, m: Manager, order: seq<seq<string>>, i: nat, input: Value, results: Dict<Value>)
    requires m.config.Some? && i <= |order|
    ensures RunGroups(env, m, order[..i] + [[]] + order[i..], input, results) == RunGroups(env, m, order, input, results)
  {
    var o1 := order[..i];
    var o2 := order[i..];
    assert order[..i] + [[]] + order[i..] == o1 + ([[]] + o2);
    assert order == o1 + o2;
    RunGroupsSplit(env, m, o1, [[]] + o2, input, results);
    RunGroupsSplit(env, m, o1, o2, input, results);
    var w := RunGroups(env, m, o1, input, results);
    if w.results.Ok? {
      assert ([[]] + o2)[0] == [] && ([[]] + o2)[1..] == o2;
      assert ExecuteGroup(env, w.m, [], w.input) == GroupRun(w.m, Ok([]));
    }
  }

  const NoConfigMessage := "No pipeline configuration loaded. Call initialize_pipeline() first."

  datatype PipelineRun = PipelineRun(m: Manager, result: Outcome<Value>)

  /** The dict `execute_pipeline` returns: the success flag, then `key`
      holding `payload`, then the pipeline name and correlation id. */
  function RunReply(success: bool, key: string, payload: Value, name: string, id: string): (v: Value)
    requires key == (if success then "results" else "error")
    ensures Field(v, "success") == Some(VBool(success))
    ensures Field(v, key) == Some(payload) && IsDictWith(v, key)
    ensures Field(v, "pipeline_name") == Some(VStr(name))
    ensures Field(v, "correlation_id") == Some(VStr(id))
  {
    var v := VDict([("success", VBool(success)), (key, payload),
                    ("pipeline_name", VStr(name)), ("correlation_id", VStr(id))]);
    GetFirst(v.entries, key, 1);
    GetFirst(v.entries, "pipeline_name", 2);
    GetFirst(v.entries, "correlation_id", 3);
    v
  }

  /** The group loop of a run started on `m` keeps the configuration,
      agents and tracking, and leaves the running flag on. */
  lemma RunGroupsKeeps(env: Env, m: Manager, order: seq<seq<string>>, input: Value)
    requires m.config.Some?
    ensures var w := RunGroups(env, m, order, input, []);
      && w.m.config == m.config && w.m.agents == m.agents && w.m.tracking == m.tracking
      && ((forall i :: 0 <= i < |order| ==> |order[i]| != 1) ==> w.results.Ok?)
  {
  }

  /** `execute_pipeline(input, correlation_id)`. A `Fail` result is the
      exception the call raises; otherwise the result is the returned
      dict. An empty `cid` stands for a missing one, replaced by `freshId`. */
  function ExecutePipeline(env: Env, m: Manager, input: Value, cid: string, freshId: string): (r: PipelineRun)
    ensures m.config.None? ==> r == PipelineRun(m, Fail(NoConfigMessage))
    ensures m.config.Some? ==>
      && r.result.Ok?
      && r.m.config == m.config && r.m.agents == m.agents && r.m.tracking == m.tracking
      && !r.m.progress.isRunning
      && Field(r.result.value, "pipeline_name") == Some(VStr(m.config.value.name))
      && Field(r.result.value, "correlation_id") == Some(VStr(if cid == "" then freshId else cid))
      && (Field(r.result.value, "success") == Some(VBool(true)) || Field(r.result.value, "success") == Some(VBool(false)))
      && (Field(r.result.value, "success") == Some(VBool(true)) ==>
            r.m.progress.isCompleted && r.m.progress.percentage == 100.0 && IsDictWith(r.result.value, "results"))
      && (Field(r.result.value, "success") == Some(VBool(false)) ==>
            !r.m.progress.isCompleted && r.m.progress.hasFailures && IsDictWith(r.result.value, "error"))
      && ((forall i :: 0 <= i < |m.config.value.order| ==> |m.config.value.order[i]| != 1) ==>
            Field(r.result.value, "success") == Some(VBool(true)))
    ensures m.config.Some? ==>
      m.progress.completed <= r.m.progress.completed <= m.progress.completed + NameCount(m.config.value.order)
    ensures m.config.Some? && m.tracking && PctConsistent(m) && Field(r.result.value, "success") == Some(VBool(false)) ==>
      r.m.progress.percentage == PctOf(r.m.progress.completed, |m.config.value.steps|)
  {
    match m.config
    case None => PipelineRun(m, Fail(NoConfigMessage))
    case Some(cfg) =>
      var id := if cid == "" then freshId else cid;
      var m1 := m.(progress := m.progress.(isRunning := true, isCompleted := false, hasFailures := false));
      var w := RunGroups(env, m1, cfg.order, input, []);
      RunGroupsKeeps(env, m1, cfg.order, input);
      assert PctConsistent(m) ==> PctConsistent(w.m);
      match w.results
      case Ok(results) =>
        var p := w.m.progress.(isRunning := false, isCompleted := true, percentage := 100.0);
        PipelineRun(w.m.(progress := p), Ok(RunReply(true, "results", VDict(results), cfg.name, id)))
      case Fail(e) =>
        var p := w.m.progress.(isRunning := false, hasFailures := true);
        PipelineRun(w.m.(progress := p), Ok(RunReply(false, "error", VStr(e), cfg.name, id)))
  }

  /** Two steps run one after the other. */
  const TwoSteps := PipelineConfig("two", [StepConfig("a", false, None), StepConfig("b", false, None)], [["a"], ["b"]])

  /** `execute_pipeline` does not reset `completed_steps`: a second run on
      the same manager without a new `initialize_pipeline`, of a two-step
      pipeline whose second step fails, leaves three completed steps of
      two, reported as 150 percent. */
  lemma SecondRunOverCounts(env: Env)
    requires env.process("a", VStr("good")) == Ok(VStr("good")) && env.process("b", VStr("good")) == Ok(VStr("good"))
    requires env.process("a", VStr("bad")) == Ok(VStr("bad")) && env.process("b", VStr("bad")).Fail?
    ensures var m := InitializePipeline(Fresh(), Ok(Some(TwoSteps)), {"a", "b"}).0;
            var r1 := ExecutePipeline(env, m, VStr("good"), "first", "");
            var r2 := ExecutePipeline(env, r1.m, VStr("bad"), "second", "");
            && r1.m.progress.completed == 2
            && Field(r2.result.value, "success") == Some(VBool(false))
            && r2.m.progress.completed == 3 && r2.m.progress.totalSteps == 2
            && r2.m.progress.percentage == 150.0
  {
    var m := InitializePipeline(Fresh(), Ok(Some(TwoSteps)), {"a", "b"}).0;
    InitializeTwoSteps();
    TwoStepRun(env, m, VStr("good"), "first", "");
    var r1 := ExecutePipeline(env, m, VStr("good"), "first", "");
    TwoStepRun(env, r1.m, VStr("bad"), "second", "");
    assert PctOf(3, 2) == 150.0;
  }

  lemma InitializeTwoSteps()
    ensures var r := InitializePipeline(Fresh(), Ok(Some(TwoSteps)), {"a", "b"});
            r.1 && r.0.config == Some(TwoSteps) && r.0.agents == {"a", "b"} && r.0.tracking
            && r.0.progress == InitialProgress(TwoSteps)
  {
    var steps := TwoSteps.steps;
    assert StepKeys(steps[0]) == ["a"] && StepKeys(steps[1]) == ["b"];
    assert RequiredCreatable(steps, {"a", "b"});
    KeyInAll(steps, 0, "a");
    KeyInAll(steps, 1, "b");
    assert AllKeys(steps) == {"a", "b"};
  }

  lemma KeyInAll(steps: seq<StepConfig>, i: nat, k: string)
    requires i < |steps| && k in StepKeys(steps[i])
    ensures k in AllKeys(steps)
  {
  }

  /** One run of `TwoSteps` with both agents present: step `a` passes the
      input on; the run succeeds when `b` does. */
  lemma TwoStepRun(env: Env, m: Manager, input: Value, cid: string, freshId: string)
    requires m.config == Some(TwoSteps) && m.agents == {"a", "b"} && m.tracking
    requires env.process("a", input) == Ok(input)
    ensures var r := ExecutePipeline(env, m, input, cid, freshId);
            && r.m.config == m.config && r.m.agents == m.agents && r.m.tracking
            && (env.process("b", input).Ok? ==>
                  Field(r.result.value, "success") == Some(VBool(true))
                  && r.m.progress.completed == m.progress.completed + 2)
            && (env.process("b", input).Fail? ==>
                  Field(r.result.value, "success") == Some(VBool(false))
                  && r.m.progress.completed == m.progress.completed + 1
                  && r.m.progress.percentage == PctOf(m.progress.completed + 1, 2))
  {
    var m1 := m.(progress := m.progress.(isRunning := true, isCompleted := false, hasFailures := false));
    var ga := ExecuteGroup(env, m1, ["a"], input);
    OneRegularGroup(env, m1, "a", input);
    assert ga.results == Ok(Put([], "a", input));
    assert Feed(input, Put([], "a", input)) == input;
    OneRegularGroup(env, ga.m, "b", input);
    TwoGroups(env, m1, input);
  }

  /** The group loop over `TwoSteps` is group `a`, then group `b` on what
      `a` returned. */
  lemma TwoGroups(env: Env, m: Manager, input: Value)
    requires m.config == Some(TwoSteps)
    ensures var ga := ExecuteGroup(env, m, ["a"], input);
            var w := RunGroups(env, m, TwoSteps.order, input, []);
            && (ga.results.Fail? ==> w == Wave(ga.m, Fail(ga.results.msg), input))
            && (ga.results.Ok? ==>
                  var gb := ExecuteGroup(env, ga.m, ["b"], Feed(input, ga.results.value));
                  && w.m == gb.m
                  && (gb.results.Fail? <==> w.results.Fail?))
  {
    var order := TwoSteps.order;
    assert order[0] == ["a"] && order[1..] == [["b"]];
    assert [["b"]][0] == ["b"] && [["b"]][1..] == [];
  }

  /** A one-step group of a required regular step whose agent is present:
      it counts one completion when the agent returns, and raises
      otherwise. */
  lemma OneRegularGroup(env: Env, m: Manager, name: string, input: Value)
    requires m.config.Some? && name in m.agents && m.tracking
    requires FindStep(m.config.value.steps, name) == Some(StepConfig(name, false, None))
    ensures var g := ExecuteGroup(env, m, [name], input);
            && g.m.config == m.config && g.m.agents == m.agents && g.m.tracking
            && g.m.progress.isRunning == m.progress.isRunning
            && g.m.progress.isCompleted == m.progress.isCompleted
            && g.m.progress.percentage == PctOf(g.m.progress.completed, |m.config.value.steps|)
            && (env.process(name, input).Ok? ==>
                  g.results == Ok(Put([], name, env.process(name, input).value))
                  && g.m.progress.completed == m.progress.completed + 1)
            && (env.process(name, input).Fail? ==>
                  g.results.Fail? && g.m.progress.completed == m.progress.completed)
  {
    var step := StepConfig(name, false, None);
    assert ExecuteSingleStep(env, m, name, input) == RegularStep(env, m, step, input);
  }

  /** A run from freshly initialised progress counts at most the steps
      the groups name, so its percentage stays within 0 and 100. */
  lemma ResetBounds(env: Env, m0: Manager, input: Value, cid: string, freshId: string)
    requires m0.config.Some? && m0.tracking && m0.progress == InitialProgress(m0.config.value)
    ensures var r := ExecutePipeline(env, m0, input, cid, freshId);
            NameCount(m0.config.value.order) <= |m0.config.value.steps| ==>
            && r.result.Ok?
            && 0 <= r.m.progress.completed <= |m0.config.value.steps|
            && 0.0 <= r.m.progress.percentage <= 100.0
  {
    var n := |m0.config.value.steps|;
    assert PctOf(0, n) == 0.0;
    assert PctConsistent(m0);
    var r := ExecutePipeline(env, m0, input, cid, freshId);
    assert m0.progress.completed == 0;
    assert r.m.progress.completed <= NameCount(m0.config.value.order);
    if NameCount(m0.config.value.order) <= n {
      assert 0 <= r.m.progress.completed <= n;
      PctBounds(r.m.progress.completed, n);
    }
  }

  /** A run that follows a successful `initialize_pipeline`, as the
      pipeline route arranges, counts no more steps than the pipeline has
      when the execution order lists each step at most once, so its
      percentage stays within 0 and 100. */
  lemma FirstRunBounds(env: Env, m: Manager, cfg: PipelineConfig, creatable: set<string>,
                       input: Value, cid: string, freshId: string)
    requires InitializePipeline(m, Ok(Some(cfg)), creatable).1
    requires NameCount(cfg.order) <= |cfg.steps|
    ensures var r := ExecutePipeline(env, InitializePipeline(m, Ok(Some(cfg)), creatable).0, input, cid, freshId);
            && r.result.Ok?
            && 0 <= r.m.progress.completed <= |cfg.steps|
            && 0.0 <= r.m.progress.percentage <= 100.0
  {
    ResetBounds(env, InitializePipeline(m, Ok(Some(cfg)), creatable).0, input, cid, freshId);
  }

  /** `clear_agents`: back to the state of a new manager, whatever came
      before, so a following `execute_pipeline` raises. */
  function ClearAgents(m: Manager): (r: Manager)
    ensures r == Fresh()
    ensures forall env, input, cid, freshId :: ExecutePipeline(env, r, input, cid, freshId).result == Fail(NoConfigMessage)
  {
    Fresh()
  }

  // ---------------------------------------------------------------------
  // validate_input
  // ---------------------------------------------------------------------

  const EmptyWarning := "Input cannot be empty"
  const ShortWarning := "Input is very short. Consider providing more details for better results."
  const LongWarning := "Input is very long. Consider breaking it down into smaller, more focused requests."
  const ActionSuggestion := "Consider starting with action words like 'Create', 'Build', or 'Develop' to clarify your intent."
  const TechSuggestion := "Consider mentioning the type of application or technology you want to use (e.g., web app, CLI tool, Python script)."
  const DetailSuggestion := "Provide more details about the functionality you want to implement."

  const ActionWords: seq<string> := ["create", "build", "develop"]
  const TechKeywords: seq<string> := ["python", "web", "api", "database", "gui", "cli", "script", "application", "tool"]

  lemma MessagesDistinct()
    ensures ShortWarning != LongWarning && ShortWarning != EmptyWarning && LongWarning != EmptyWarning
    ensures ActionSuggestion != TechSuggestion && ActionSuggestion != DetailSuggestion && TechSuggestion != DetailSuggestion
  {
    assert |EmptyWarning| == 21 && |ShortWarning| == 72 && |LongWarning| == 82;
    assert |ActionSuggestion| == 96 && |TechSuggestion| == 115 && |DetailSuggestion| == 67;
  }

  /** The length warnings of a non-blank input, from its stripped and its
      full length. */
  function LengthWarnings(stripped: nat, length: nat): (r: seq<string>)
    ensures ShortWarning in r <==> stripped < 10
    ensures LongWarning in r <==> length > 5000
    ensures EmptyWarning !in r
  {
    MessagesDistinct();
    (if stripped < 10 then [ShortWarning] else []) + (if length > 5000 then [LongWarning] else [])
  }

  /** The content suggestions, on the lower-cased input. */
  function ContentSuggestions(lowered: string): (r: seq<string>)
    ensures ActionSuggestion in r <==> !ContainsAny(lowered, ActionWords)
    ensures TechSuggestion in r <==> !ContainsAny(lowered, TechKeywords)
    ensures DetailSuggestion in r <==> WordCount(lowered) < 5
  {
    MessagesDistinct();
    (if !ContainsAny(lowered, ActionWords) then [ActionSuggestion] else [])
    + (if !ContainsAny(lowered, TechKeywords) then [TechSuggestion] else [])
    + (if WordCount(lowered) < 5 then [DetailSuggestion] else [])
  }

  /** `validate_input(user_input)` of the manager. */
  function ValidateInput(s: string): (r: Validation)
    ensures r.isValid <==> exists i :: 0 <= i < |s| && !IsSpace(s[i])
    ensures !r.isValid ==> r.warnings == [EmptyWarning] && r.suggestions == []
    ensures r.isValid ==> r.warnings == LengthWarnings(|Strip(s)|, |s|) && r.suggestions == ContentSuggestions(Lower(s))
  {
    StripEmptyIffBlank(s);
    if |Strip(s)| == 0 then Validation(false, [EmptyWarning], [])
    else Validation(true, LengthWarnings(|Strip(s)|, |s|), ContentSuggestions(Lower(s)))
  }
}
