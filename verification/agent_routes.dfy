/** The single-agent routes of the agent service
    (`agent-service/api/routes/agents.py`): turning the agent name of a URL
    into a registry key, refusing unknown agents, and the life of an entry
    in the execution store. The registry, the agents themselves, the
    execution id and the clock are outside the model: the registry is a
    dict of metadata, an agent's run is an `Outcome`, the id is a
    parameter and timestamps are left out. */
module AgentRoutes {
  import opened Common
  import opened Text
  import opened Dicts
  import opened Values

  // ---------------------------------------------------------------------
  // Agent keys
  // ---------------------------------------------------------------------

  /** `agent_name.lower().replace(' ', '_').replace('-', '_')`, the rule
      every route applies to the name in its URL. */
  function NormalizeKey(name: string): (r: string)
    ensures |r| == |name|
    ensures forall i :: 0 <= i < |r| ==> r[i] == KeyChar(name[i])
  {
    var lowered := Lower(name);
    var spaced := ReplaceAll(lowered, " ", "_");
    ReplaceChar(lowered, ' ', '_');
    ReplaceChar(spaced, '-', '_');
    ReplaceAll(spaced, "-", "_")
  }

  /** What one character of a name becomes in its key. */
  function KeyChar(c: char): (k: char)
    ensures k != ' ' && k != '-'
    ensures !('A' <= k <= 'Z')
  {
    var l := LowerChar(c);
    if l == ' ' || l == '-' then '_' else l
  }

  /** A key holds no spaces and no hyphens. */
  lemma KeyHasNoSeparators(name: string)
    ensures ' ' !in NormalizeKey(name) && '-' !in NormalizeKey(name)
  {
    var r := NormalizeKey(name);
    assert forall i :: 0 <= i < |r| ==> r[i] != ' ' && r[i] != '-';
  }

  /** Normalising a key gives the key back. */
  lemma NormalizeKeyIdempotent(name: string)
    ensures NormalizeKey(NormalizeKey(name)) == NormalizeKey(name)
  {
    var k := NormalizeKey(name);
    var kk := NormalizeKey(k);
    forall i | 0 <= i < |k|
      ensures kk[i] == k[i]
    {
      assert k[i] == KeyChar(name[i]);
      assert kk[i] == KeyChar(k[i]);
    }
  }

  /** A name already in key form is its own key. */
  lemma KeyFormFixed(name: string)
    requires forall i :: 0 <= i < |name| ==> !('A' <= name[i] <= 'Z') && name[i] != ' ' && name[i] != '-'
    ensures NormalizeKey(name) == name
  {
  }

  // ---------------------------------------------------------------------
  // Looking an agent up
  // ---------------------------------------------------------------------

  /** An HTTP reply: a body, or the `HTTPException` raised. */
  datatype Reply<T> = Body(body: T) | HttpError(status: int, detail: string)

  const NotFoundSuffix := "' not found"

  /** The registry key of a named agent, when the registry has it. */
  function FindAgent(available: Dict<Value>, name: string): (r: Option<string>)
    ensures r.Some? <==> HasKey(available, NormalizeKey(name))
    ensures r.Some? ==> r.value == NormalizeKey(name)
  {
    var key := NormalizeKey(name);
    if HasKey(available, key) then Some(key) else None
  }

  /** `get_agent_metadata` up to reading the metadata: the name, the key
      and the registry's entry, or 404 for an unknown agent. */
  function AgentMetadata(available: Dict<Value>, name: string): (r: Reply<(string, string, Value)>)
    ensures r.HttpError? <==> !HasKey(available, NormalizeKey(name))
    ensures r.HttpError? ==> r.status == 404 && r.detail == "Agent '" + name + NotFoundSuffix
    ensures r.Body? ==> r.body.0 == name && r.body.1 == NormalizeKey(name) &&
                        Some(r.body.2) == Get(available, NormalizeKey(name))
  {
    match FindAgent(available, name)
    case None => HttpError(404, "Agent '" + name + NotFoundSuffix)
    case Some(key) => Body((name, key, Get(available, key).value))
  }

  /** `validate_agent_input`: 404 for an unknown agent; otherwise the
      agent's own verdict, or 500 when creating or asking the agent
      raises. */
  function ValidateAgentInput(available: Dict<Value>, name: string, verdict: Outcome<Value>): (r: Reply<(string, Value)>)
    ensures r.HttpError? && r.status == 404 <==> !HasKey(available, NormalizeKey(name))
    ensures HasKey(available, NormalizeKey(name)) && verdict.Ok? ==> r == Body((name, verdict.value))
    ensures HasKey(available, NormalizeKey(name)) && verdict.Fail? ==>
              r == HttpError(500, "Failed to validate input: " + verdict.msg)
  {
    match FindAgent(available, name)
    case None => HttpError(404, "Agent '" + name + NotFoundSuffix)
    case Some(_) =>
      match verdict
      case Ok(v) => Body((name, v))
      case Fail(e) => HttpError(500, "Failed to validate input: " + e)
  }

  // ---------------------------------------------------------------------
  // The execution store
  // ---------------------------------------------------------------------

  datatype Status = Running | Completed | Failed

  /** One entry of `execution_store`. */
  datatype Execution = Execution(
    agentName: string,
    agentKey: string,
    status: Status,
    input: Value,
    config: Value,
    result: Option<Value>,
    error: Option<string>)

  type Store = map<string, Execution>

  /** The request body of `execute_agent`. */
  datatype Request = Request(input: Value, config: Value, asynchronous: bool)

  /** The body `execute_agent` answers with. */
  datatype Response = Response(executionId: string, status: Status, result: Option<Value>)

  /** The entry a run starts with. */
  function Started(name: string, key: string, req: Request): (e: Execution)
    ensures e.status == Running && e.result == None && e.error == None
    ensures e.agentName == name && e.agentKey == key && e.input == req.input && e.config == req.config
  {
    Execution(name, key, Running, req.input, req.config, None, None)
  }

  /** How a run ends: the agent's result, or the message of what it raised. */
  function Finish(e: Execution, run: Outcome<Value>): (f: Execution)
    ensures run.Ok? ==> f.status == Completed && f.result == Some(run.value) && f.error == e.error
    ensures run.Fail? ==> f.status == Failed && f.error == Some(run.msg) && f.result == e.result
    ensures f.agentName == e.agentName && f.agentKey == e.agentKey && f.input == e.input && f.config == e.config
  {
    match run
    case Ok(v) => e.(status := Completed, result := Some(v))
    case Fail(msg) => e.(status := Failed, error := Some(msg))
  }

  /** `execute_agent`: an unknown agent is refused before the store is
      touched; a known one gets a running entry under the new id, which a
      synchronous request then finishes with the run's outcome. An
      asynchronous request leaves the entry running for `Background`. */
  function ExecuteAgent(store: Store, available: Dict<Value>, render: Renderer,
                        name: string, id: string, req: Request, run: Outcome<Value>): (r: (Store, Reply<Response>))
    ensures !HasKey(available, NormalizeKey(name)) ==> r.0 == store && r.1.HttpError? && r.1.status == 404
    ensures HasKey(available, NormalizeKey(name)) ==>
              id in r.0 && r.0.Keys == store.Keys + {id} &&
              (forall other :: other in store && other != id ==> r.0[other] == store[other]) &&
              r.0[id].agentName == name && r.0[id].agentKey == NormalizeKey(name)
    ensures HasKey(available, NormalizeKey(name)) && req.asynchronous ==>
              r.0[id] == Started(name, NormalizeKey(name), req) && r.1 == Body(Response(id, Running, None))
    ensures HasKey(available, NormalizeKey(name)) && !req.asynchronous && run.Ok? ==>
              r.0[id].status == Completed && r.0[id].result == Some(run.value) &&
              r.1 == Body(Response(id, Completed, Some(run.value)))
    ensures HasKey(available, NormalizeKey(name)) && !req.asynchronous && run.Fail? ==>
              r.0[id].status == Failed && r.0[id].error == Some(run.msg) && r.0[id].result == None &&
              r.1 == HttpError(500, "Agent execution failed: " + run.msg)
  {
    match FindAgent(available, name)
    case None =>
      var keys := seq(|available|, i requires 0 <= i < |available| => VStr(available[i].0));
      (store, HttpError(404, "Agent '" + name + "' not found. Available agents: " + render(VList(keys))))
    case Some(key) =>
      var entry := Started(name, key, req);
      if req.asynchronous then (store[id := entry], Body(Response(id, Running, None)))
      else
        var done := Finish(entry, run);
        var reply := match run
                     case Ok(v) => Body(Response(id, Completed, Some(v)))
                     case Fail(msg) => HttpError(500, "Agent execution failed: " + msg);
        (store[id := done], reply)
  }

  /** `_execute_agent_background`: the run's outcome finishes the entry.
      An id the store does not hold makes the task itself raise, leaving
      the store as it was. */
  function Background(store: Store, id: string, run: Outcome<Value>): (r: Store)
    ensures r.Keys == store.Keys
    ensures forall other :: other in store && other != id ==> r[other] == store[other]
    ensures id in store ==> r[id] == Finish(store[id], run)
  {
    if id in store then store[id := Finish(store[id], run)] else store
  }

  /** The lifecycle: an asynchronous run starts as running and the
      background task moves it to completed or failed, with the result or
      the error recorded and the rest of the entry kept. */
  lemma AsyncLifecycle(store: Store, available: Dict<Value>, render: Renderer,
                       name: string, id: string, req: Request, run: Outcome<Value>)
    requires HasKey(available, NormalizeKey(name)) && req.asynchronous
    ensures var started := ExecuteAgent(store, available, render, name, id, req, run).0;
            var finished := Background(started, id, run);
            started[id].status == Running &&
            finished[id].status == (if run.Ok? then Completed else Failed) &&
            finished[id].result == (if run.Ok? then Some(run.value) else None) &&
            finished[id].error == (if run.Fail? then Some(run.msg) else None) &&
            finished[id].agentKey == NormalizeKey(name)
  {
  }

  /** Both paths record the same final entry for the same outcome. */
  lemma PathsAgree(store: Store, available: Dict<Value>, render: Renderer,
                   name: string, id: string, req: Request, run: Outcome<Value>)
    requires HasKey(available, NormalizeKey(name))
    ensures var sync := ExecuteAgent(store, available, render, name, id, req.(asynchronous := false), run).0;
            var async := ExecuteAgent(store, available, render, name, id, req.(asynchronous := true), run).0;
            Background(async, id, run) == sync
  {
  }
}
