/** `Orchestrator` of src/agents/orchestrator.py: a fail-fast pipeline over
    the three role agents. Each stage calls one agent on the current task
    record; a result without a truthy "success" stops the pipeline with that
    stage's error, an exception stops it with a prefixed message, and a
    successful result is stored into the task record for the next stage. */
module AgentsOrchestrator {
  import opened Values

  /** The three agents the orchestrator holds. */
  datatype Who = Front | Back | Qa

  /** Each agent's `execute_task(task, action)`: a result dictionary or an
      exception. */
  datatype Agents = Agents(
    front: (Dict, string) -> Outcome<Dict>,
    back: (Dict, string) -> Outcome<Dict>,
    qa: (Dict, string) -> Outcome<Dict>)

  function Invoke(agents: Agents, who: Who, task: Dict, action: string): Outcome<Dict>
  {
    match who
    case Front => agents.front(task, action)
    case Back => agents.back(task, action)
    case Qa => agents.qa(task, action)
  }

  /** One stage: which agent runs which action, the error reported when its
      result carries none, where the result is stored in the task record
      (the whole result, or one of its fields with a default), and the status
      the task takes afterwards, if any. */
  datatype Stage = Stage(agent: Who, action: string, defaultError: string,
                         key: string, field: Option<string>, fieldDefault: Json,
                         status: Option<string>)

  /** One agent invocation, with the task record it was given. */
  datatype Call = Call(agent: Who, action: string, task: Dict)

  /** How a run of the stages ended: all passed (the final task record and
      the last stage's result), a stage reported failure, or an agent raised. */
  datatype RunResult = Completed(task: Dict, last: Dict) | Failed(error: Json) | Crashed(message: string)

  datatype Execution = Execution(result: RunResult, calls: seq<Call>)

  /** `not result.get("success", False)` */
  predicate Succeeded(result: Dict)
  {
    Truthy(Get(result, "success", JBool(false)))
  }

  /** What a stage stores in the task record. */
  function Stored(stage: Stage, result: Dict): Json
  {
    match stage.field
    case None => JObj(result)
    case Some(f) => Get(result, f, stage.fieldDefault)
  }

  /** The task record after a successful stage. */
  function Advance(task: Dict, stage: Stage, result: Dict): Dict
  {
    var stored := task[stage.key := Stored(stage, result)];
    if stage.status.Some? then stored["status" := JStr(stage.status.value)] else stored
  }

  /** The run of `stages[i..]` from the task record `task`; `last` is the
      result of the stage before `i`. */
  function RunFrom(agents: Agents, stages: seq<Stage>, i: nat, task: Dict, last: Dict): Execution
    requires i <= |stages|
    decreases |stages| - i
  {
    if i == |stages| then Execution(Completed(task, last), [])
    else
      var stage := stages[i];
      var call := Call(stage.agent, stage.action, task);
      match Invoke(agents, stage.agent, task, stage.action)
      case Raised(m) => Execution(Crashed(m), [call])
      case Returned(result) =>
        if !Succeeded(result) then
          Execution(Failed(Get(result, "error", JStr(stage.defaultError))), [call])
        else
          var rest := RunFrom(agents, stages, i + 1, Advance(task, stage, result), result);
          Execution(rest.result, [call] + rest.calls)
  }

  /** The outcome of the `k`-th call of a run. */
  function Answer(agents: Agents, c: Call): Outcome<Dict>
  {
    Invoke(agents, c.agent, c.task, c.action)
  }

  /** Order: the calls follow the stages in order, the first one on the
      given task record, and a run completes only after calling every stage. */
  lemma {:induction false} RunOrder(agents: Agents, stages: seq<Stage>, i: nat, task: Dict, last: Dict)
    requires i <= |stages|
    ensures var e := RunFrom(agents, stages, i, task, last);
      && |e.calls| <= |stages| - i
      && (i < |stages| ==> 1 <= |e.calls| && e.calls[0].task == task)
      && (forall k :: 0 <= k < |e.calls| ==>
            e.calls[k].agent == stages[i + k].agent && e.calls[k].action == stages[i + k].action)
      && (e.result.Completed? ==> |e.calls| == |stages| - i)
    decreases |stages| - i
  {
    if i < |stages| {
      var stage := stages[i];
      match Invoke(agents, stage.agent, task, stage.action)
      case Raised(m) =>
      case Returned(result) =>
        if Succeeded(result) {
          var next := Advance(task, stage, result);
          RunOrder(agents, stages, i + 1, next, result);
          var rest := RunFrom(agents, stages, i + 1, next, result);
          var e := RunFrom(agents, stages, i, task, last);
          assert forall k :: 1 <= k < |e.calls| ==> e.calls[k] == rest.calls[k - 1];
        }
    }
  }

  /** Hand-over: every call before the last one succeeded, and the task
      record the next call received is the previous one with that result
      stored. */
  lemma {:induction false} RunHandOver(agents: Agents, stages: seq<Stage>, i: nat, task: Dict, last: Dict)
    requires i <= |stages|
    ensures var e := RunFrom(agents, stages, i, task, last);
      && |e.calls| <= |stages| - i
      && (forall k :: 0 <= k < |e.calls| - 1 ==>
            && Answer(agents, e.calls[k]).Returned?
            && Succeeded(Answer(agents, e.calls[k]).value)
            && e.calls[k + 1].task == Advance(e.calls[k].task, stages[i + k], Answer(agents, e.calls[k]).value))
    decreases |stages| - i
  {
    if i < |stages| {
      var stage := stages[i];
      match Invoke(agents, stage.agent, task, stage.action)
      case Raised(m) =>
      case Returned(result) =>
        if Succeeded(result) {
          var next := Advance(task, stage, result);
          RunHandOver(agents, stages, i + 1, next, result);
          RunOrder(agents, stages, i + 1, next, result);
          var rest := RunFrom(agents, stages, i + 1, next, result);
          var e := RunFrom(agents, stages, i, task, last);
          assert forall k :: 1 <= k < |e.calls| ==> e.calls[k] == rest.calls[k - 1];
        }
    }
  }

  /** Fail-fast: a run that does not complete ends at the first stage that
      raised (with its message) or reported failure (with its error, or the
      stage's default). */
  lemma {:induction false} RunStop(agents: Agents, stages: seq<Stage>, i: nat, task: Dict, last: Dict)
    requires i <= |stages|
    ensures var e := RunFrom(agents, stages, i, task, last);
      && |e.calls| <= |stages| - i
      && (!e.result.Completed? ==> 1 <= |e.calls|)
      && (e.result.Crashed? ==> Answer(agents, e.calls[|e.calls| - 1]) == Raised(e.result.message))
      && (e.result.Failed? ==>
            var failing := Answer(agents, e.calls[|e.calls| - 1]);
            && failing.Returned? && !Succeeded(failing.value)
            && e.result.error == Get(failing.value, "error", JStr(stages[i + |e.calls| - 1].defaultError)))
    decreases |stages| - i
  {
    if i < |stages| {
      var stage := stages[i];
      match Invoke(agents, stage.agent, task, stage.action)
      case Raised(m) =>
      case Returned(result) =>
        if Succeeded(result) {
          var next := Advance(task, stage, result);
          RunStop(agents, stages, i + 1, next, result);
          var rest := RunFrom(agents, stages, i + 1, next, result);
          var e := RunFrom(agents, stages, i, task, last);
          if !rest.result.Completed? {
            assert e.calls[|e.calls| - 1] == rest.calls[|rest.calls| - 1];
          }
        }
    }
  }

  /** A completed run ends with the last stage's result stored. */
  lemma {:induction false} RunCompletion(agents: Agents, stages: seq<Stage>, i: nat, task: Dict, last: Dict)
    requires i <= |stages|
    ensures var e := RunFrom(agents, stages, i, task, last);
      && |e.calls| <= |stages| - i
      && (e.result.Completed? && 0 < |e.calls| ==>
            var lastCall := e.calls[|e.calls| - 1];
            && Answer(agents, lastCall).Returned?
            && e.result.last == Answer(agents, lastCall).value
            && e.result.task == Advance(lastCall.task, stages[|stages| - 1], Answer(agents, lastCall).value))
    decreases |stages| - i
  {
    if i < |stages| {
      var stage := stages[i];
      match Invoke(agents, stage.agent, task, stage.action)
      case Raised(m) =>
      case Returned(result) =>
        if Succeeded(result) {
          var next := Advance(task, stage, result);
          RunCompletion(agents, stages, i + 1, next, result);
          RunOrder(agents, stages, i + 1, next, result);
          var rest := RunFrom(agents, stages, i + 1, next, result);
          var e := RunFrom(agents, stages, i, task, last);
          if |rest.calls| > 0 {
            assert e.calls[|e.calls| - 1] == rest.calls[|rest.calls| - 1];
          } else {
            assert i + 1 == |stages|;
          }
        }
    }
  }

  // ---------------------------------------------------------------------
  // process_task

  const StatusStarted := "iniciada"
  const StatusDone := "concluída"

  /** The four stages of `process_task`. */
  const ProcessStages: seq<Stage> := [
    Stage(Front, "analyze_task", "Erro na análise de front-end", "front_analysis", Some("analysis"), JObj(map[]), Some("analisada_front")),
    Stage(Back, "process_task", "Erro no processamento de back-end", "back_result", None, JObj(map[]), Some("processada_back")),
    Stage(Qa, "verify_result", "Erro na verificação de QA", "qa_result", None, JObj(map[]), Some("verificada_qa")),
    Stage(Front, "prepare_response", "Erro na preparação da resposta final", "final_result", None, JObj(map[]), Some(StatusDone))]

  /** The task record a pipeline starts from. */
  function InitialTask(taskData: Dict, taskId: string): (t: Dict)
    ensures "status" in t && t["status"] == JStr(StatusStarted)
    ensures "task_data" in t && t["task_data"] == JObj(taskData)
  {
    map["task_id" := JStr(taskId), "task_data" := JObj(taskData), "status" := JStr(StatusStarted)]
  }

  /** The answer when a stage reports failure. */
  function FailureReport(error: Json, taskId: string): Dict
  {
    map["success" := JBool(false), "error" := error, "task_id" := JStr(taskId)]
  }

  /** The answer when an agent raises: the message after the pipeline's prefix. */
  function CrashReport(prefix: string, message: string, taskId: string): Dict
  {
    map["success" := JBool(false), "error" := JStr(prefix + message), "task_id" := JStr(taskId), "status" := JStr("erro")]
  }

  /** The answer of a run that did not complete. */
  function StopReport(prefix: string, result: RunResult, taskId: string): Dict
    requires !result.Completed?
  {
    if result.Failed? then FailureReport(result.error, taskId) else CrashReport(prefix, result.message, taskId)
  }

  const ProcessCrashPrefix := "Erro no processamento: "
  const CodeCrashPrefix := "Erro na geração de código: "

  /** The dictionary `process_task` returns for a run. */
  function ProcessReport(result: RunResult, taskId: string): (d: Dict)
    ensures Has(d, "success", JBool(result.Completed?)) && Has(d, "task_id", JStr(taskId))
    ensures result.Completed? ==> Has(d, "status", JStr(StatusDone)) && Has(d, "result", Get(result.last, "response", JObj(map[])))
    ensures result.Failed? ==> Has(d, "error", result.error) && "status" !in d
    ensures result.Crashed? ==> Has(d, "error", JStr(ProcessCrashPrefix + result.message)) && Has(d, "status", JStr("erro"))
  {
    match result
    case Completed(_, last) =>
      map["success" := JBool(true), "task_id" := JStr(taskId), "result" := Get(last, "response", JObj(map[])), "status" := JStr(StatusDone)]
    case _ => StopReport(ProcessCrashPrefix, result, taskId)
  }

  /** In a table whose every stage sets a status, each call after the
      first sees the status of the stage before it, and a completed run
      ends with the last stage's status. */
  lemma RunStatuses(agents: Agents, stages: seq<Stage>, task: Dict)
    requires forall k :: 0 <= k < |stages| ==> stages[k].status.Some?
    ensures var e := RunFrom(agents, stages, 0, task, map[]);
      && |e.calls| <= |stages|
      && (forall k :: 0 < k < |e.calls| ==>
            "status" in e.calls[k].task && e.calls[k].task["status"] == JStr(stages[k - 1].status.value))
      && (e.result.Completed? && 0 < |stages| ==>
            "status" in e.result.task && e.result.task["status"] == JStr(stages[|stages| - 1].status.value))
  {
    var e := RunFrom(agents, stages, 0, task, map[]);
    RunOrder(agents, stages, 0, task, map[]);
    RunHandOver(agents, stages, 0, task, map[]);
    RunCompletion(agents, stages, 0, task, map[]);
    forall k | 0 < k < |e.calls|
      ensures "status" in e.calls[k].task && e.calls[k].task["status"] == JStr(stages[k - 1].status.value)
    {
      assert e.calls[k].task == Advance(e.calls[k - 1].task, stages[k - 1], Answer(agents, e.calls[k - 1]).value);
    }
  }

  /** The status each `process_task` call sees: the task starts "iniciada"
      and takes one further status per successful stage; a completed run
      leaves it "concluída". */
  lemma ProcessStatuses(agents: Agents, taskData: Dict, taskId: string)
    ensures var e := RunFrom(agents, ProcessStages, 0, InitialTask(taskData, taskId), map[]);
      var seen := [StatusStarted, "analisada_front", "processada_back", "verificada_qa"];
      && |e.calls| <= 4
      && (forall k :: 0 <= k < |e.calls| ==> "status" in e.calls[k].task && e.calls[k].task["status"] == JStr(seen[k]))
      && (e.result.Completed? ==> "status" in e.result.task && e.result.task["status"] == JStr(StatusDone))
  {
    var e := RunFrom(agents, ProcessStages, 0, InitialTask(taskData, taskId), map[]);
    RunOrder(agents, ProcessStages, 0, InitialTask(taskData, taskId), map[]);
    RunStatuses(agents, ProcessStages, InitialTask(taskData, taskId));
    var seen := [StatusStarted, "analisada_front", "processada_back", "verificada_qa"];
    assert forall k :: 0 < k < 4 ==> ProcessStages[k - 1].status.value == seen[k];
  }

  /** The back-end stage sees only the front result's "analysis" (or {}),
      while the QA stage sees the whole back-end result. */
  lemma ProcessHandsOn(agents: Agents, taskData: Dict, taskId: string)
    ensures var e := RunFrom(agents, ProcessStages, 0, InitialTask(taskData, taskId), map[]);
      && (|e.calls| >= 2 ==>
            Answer(agents, e.calls[0]).Returned?
            && Has(e.calls[1].task, "front_analysis", Get(Answer(agents, e.calls[0]).value, "analysis", JObj(map[]))))
      && (|e.calls| >= 3 ==>
            Answer(agents, e.calls[1]).Returned?
            && Has(e.calls[2].task, "back_result", JObj(Answer(agents, e.calls[1]).value)))
  {
    RunHandOver(agents, ProcessStages, 0, InitialTask(taskData, taskId), map[]);
  }

  // ---------------------------------------------------------------------
  // generate_code

  /** The five stages of `generate_code`; none of them changes the status. */
  const CodeStages: seq<Stage> := [
    Stage(Back, "analyze_data_model", "Erro na análise do modelo de dados", "data_model", Some("model"), JObj(map[]), None),
    Stage(Back, "generate_api", "Erro na geração da API", "api_code", Some("code"), JStr(""), None),
    Stage(Front, "generate_ui_code", "Erro na geração da UI", "ui_code", Some("code"), JStr(""), None),
    Stage(Qa, "generate_tests", "Erro na geração de testes", "tests", Some("tests"), JStr(""), None),
    Stage(Qa, "security_audit", "Erro na auditoria de segurança", "security", Some("audit"), JObj(map[]), None)]

  /** What the `k`-th call of an execution returned (a dict when it returned). */
  function Returned(agents: Agents, e: Execution, k: nat): Dict
    requires k < |e.calls| && Answer(agents, e.calls[k]).Returned?
  {
    Answer(agents, e.calls[k]).value
  }

  /** The stages of `stages[i..]` store under distinct keys, none of them "status". */
  predicate DistinctKeys(stages: seq<Stage>, i: nat)
  {
    && (forall a, b :: i <= a < b < |stages| ==> stages[a].key != stages[b].key)
    && (forall a :: i <= a < |stages| ==> stages[a].key != "status")
  }

  /** An entry under a key no remaining stage writes survives the run. */
  lemma {:induction false} EntrySurvives(agents: Agents, stages: seq<Stage>, i: nat, task: Dict, last: Dict, key: string, v: Json)
    requires i <= |stages| && Has(task, key, v) && key != "status"
    requires forall a :: i <= a < |stages| ==> stages[a].key != key
    ensures var e := RunFrom(agents, stages, i, task, last);
      e.result.Completed? ==> Has(e.result.task, key, v)
    decreases |stages| - i
  {
    if i < |stages| {
      var stage := stages[i];
      match Invoke(agents, stage.agent, task, stage.action)
      case Raised(m) =>
      case Returned(result) =>
        if Succeeded(result) {
          EntrySurvives(agents, stages, i + 1, Advance(task, stage, result), result, key, v);
        }
    }
  }

  /** A completed run leaves in the final task record, under each stage's
      key, what that stage stored from its result. */
  lemma {:induction false} CompletedRunStoresAll(agents: Agents, stages: seq<Stage>, i: nat, task: Dict, last: Dict)
    requires i <= |stages| && DistinctKeys(stages, i)
    ensures var e := RunFrom(agents, stages, i, task, last);
      e.result.Completed? ==>
        && |e.calls| == |stages| - i
        && forall k :: 0 <= k < |e.calls| ==>
             && Answer(agents, e.calls[k]).Returned?
             && Has(e.result.task, stages[i + k].key, Stored(stages[i + k], Returned(agents, e, k)))
    decreases |stages| - i
  {
    if i < |stages| {
      var stage := stages[i];
      match Invoke(agents, stage.agent, task, stage.action)
      case Raised(m) =>
      case Returned(result) =>
        if Succeeded(result) {
          var next := Advance(task, stage, result);
          var e := RunFrom(agents, stages, i, task, last);
          var rest := RunFrom(agents, stages, i + 1, next, result);
          CompletedRunStoresAll(agents, stages, i + 1, next, result);
          EntrySurvives(agents, stages, i + 1, next, result, stage.key, Stored(stage, result));
          if e.result.Completed? {
            assert e.calls[0] == Call(stage.agent, stage.action, task);
            forall k | 1 <= k < |e.calls|
              ensures Answer(agents, e.calls[k]).Returned?
              ensures Has(e.result.task, stages[i + k].key, Stored(stages[i + k], Returned(agents, e, k)))
            {
              assert e.calls[k] == rest.calls[k - 1];
            }
          }
        }
    }
  }

  /** On success, the final task record of `generate_code` holds what each
      of the five stages returned under its key. */
  lemma CodeFinalTask(agents: Agents, taskData: Dict, taskId: string)
    ensures var e := RunFrom(agents, CodeStages, 0, InitialTask(taskData, taskId), map[]);
      e.result.Completed? ==>
        && |e.calls| == 5
        && (forall k :: 0 <= k < 5 ==> Answer(agents, e.calls[k]).Returned?)
        && Has(e.result.task, "data_model", Get(Returned(agents, e, 0), "model", JObj(map[])))
        && Has(e.result.task, "api_code", Get(Returned(agents, e, 1), "code", JStr("")))
        && Has(e.result.task, "ui_code", Get(Returned(agents, e, 2), "code", JStr("")))
        && Has(e.result.task, "tests", Get(Returned(agents, e, 3), "tests", JStr("")))
        && Has(e.result.task, "security", Get(Returned(agents, e, 4), "audit", JObj(map[])))
  {
    var e := RunFrom(agents, CodeStages, 0, InitialTask(taskData, taskId), map[]);
    CodeKeysDistinct();
    CompletedRunStoresAll(agents, CodeStages, 0, InitialTask(taskData, taskId), map[]);
    if e.result.Completed? {
      assert Has(e.result.task, CodeStages[0].key, Stored(CodeStages[0], Returned(agents, e, 0)));
      assert Has(e.result.task, CodeStages[1].key, Stored(CodeStages[1], Returned(agents, e, 1)));
      assert Has(e.result.task, CodeStages[2].key, Stored(CodeStages[2], Returned(agents, e, 2)));
      assert Has(e.result.task, CodeStages[3].key, Stored(CodeStages[3], Returned(agents, e, 3)));
      assert Has(e.result.task, CodeStages[4].key, Stored(CodeStages[4], Returned(agents, e, 4)));
    }
  }

  lemma CodeKeysDistinct()
    ensures DistinctKeys(CodeStages, 0)
  {
  }

  /** The dictionary `generate_code` returns for a run. */
  function CodeReport(result: RunResult, taskId: string): (d: Dict)
    ensures Has(d, "success", JBool(result.Completed?)) && Has(d, "task_id", JStr(taskId))
    ensures result.Completed? ==>
      && Has(d, "status", JStr(StatusDone))
      && Has(d, "backend", JObj(map["data_model" := Get(result.task, "data_model", JObj(map[])),
                                    "api_code" := Get(result.task, "api_code", JStr(""))]))
      && Has(d, "frontend", JObj(map["ui_code" := Get(result.task, "ui_code", JStr(""))]))
      && Has(d, "qa", JObj(map["tests" := Get(result.task, "tests", JStr("")),
                               "security" := Get(result.task, "security", JObj(map[]))]))
    ensures result.Failed? ==> Has(d, "error", result.error) && "status" !in d
    ensures result.Crashed? ==> Has(d, "error", JStr(CodeCrashPrefix + result.message)) && Has(d, "status", JStr("erro"))
  {
    match result
    case Completed(task, _) =>
      map["success" := JBool(true), "task_id" := JStr(taskId),
          "backend" := JObj(map["data_model" := Get(task, "data_model", JObj(map[])),
                                "api_code" := Get(task, "api_code", JStr(""))]),
          "frontend" := JObj(map["ui_code" := Get(task, "ui_code", JStr(""))]),
          "qa" := JObj(map["tests" := Get(task, "tests", JStr("")),
                           "security" := Get(task, "security", JObj(map[]))]),
          "status" := JStr(StatusDone)]
    case _ => StopReport(CodeCrashPrefix, result, taskId)
  }

  /** The orchestrator: its three agents. */
  class Orchestrator {
    const agents: Agents

    constructor(agents: Agents)
      ensures this.agents == agents
    {
      this.agents := agents;
    }

    /** One stage block of either pipeline: call the agent on the task
        record; on an exception or a failed result answer at once, otherwise
        store the result in the record. */
    method Step(stages: seq<Stage>, i: nat, task: Dict, last: Dict, prefix: string, taskId: string)
      returns (stop: Option<Dict>, next: Dict, result: Dict)
      requires i < |stages|
      ensures var e := RunFrom(agents, stages, i, task, last);
        var call := Call(stages[i].agent, stages[i].action, task);
        && (stop.Some? ==> e.calls == [call] && !e.result.Completed? && stop.value == StopReport(prefix, e.result, taskId))
        && (stop.None? ==> e == After([call], RunFrom(agents, stages, i + 1, next, result)))
    {
      var stage := stages[i];
      var outcome := Invoke(agents, stage.agent, task, stage.action);
      next, result := task, last;
      if outcome.Raised? {
        stop := Some(CrashReport(prefix, outcome.message, taskId));
      } else if !Succeeded(outcome.value) {
        stop := Some(FailureReport(Get(outcome.value, "error", JStr(stage.defaultError)), taskId));
      } else {
        stop := None;
        result := outcome.value;
        next := Advance(task, stage, result);
      }
    }

    /** `process_task`: front analyze_task, back process_task, QA
        verify_result, front prepare_response, stopping at the first stage
        that fails or raises. `calls` records the agent invocations made. */
    method ProcessTask(taskData: Dict, taskId: string) returns (result: Dict, ghost calls: seq<Call>)
      ensures result == ProcessReport(RunFrom(agents, ProcessStages, 0, InitialTask(taskData, taskId), map[]).result, taskId)
      ensures calls == RunFrom(agents, ProcessStages, 0, InitialTask(taskData, taskId), map[]).calls
    {
      var task := InitialTask(taskData, taskId);
      var last: Dict := map[];
      ghost var run := RunFrom(agents, ProcessStages, 0, task, last);
      ghost var before := task;
      calls := [];
      var stop: Option<Dict>;

      stop, task, last := Step(ProcessStages, 0, task, last, ProcessCrashPrefix, taskId);
      calls := [Call(ProcessStages[0].agent, ProcessStages[0].action, before)];
      if stop.Some? { result := stop.value; return; }
      assert run == After(calls, RunFrom(agents, ProcessStages, 1, task, last));

      before := task;
      stop, task, last := Step(ProcessStages, 1, task, last, ProcessCrashPrefix, taskId);
      AfterAfter(calls, [Call(ProcessStages[1].agent, ProcessStages[1].action, before)], RunFrom(agents, ProcessStages, 2, task, last));
      calls := calls + [Call(ProcessStages[1].agent, ProcessStages[1].action, before)];
      if stop.Some? { result := stop.value; return; }
      assert run == After(calls, RunFrom(agents, ProcessStages, 2, task, last));

      before := task;
      stop, task, last := Step(ProcessStages, 2, task, last, ProcessCrashPrefix, taskId);
      AfterAfter(calls, [Call(ProcessStages[2].agent, ProcessStages[2].action, before)], RunFrom(agents, ProcessStages, 3, task, last));
      calls := calls + [Call(ProcessStages[2].agent, ProcessStages[2].action, before)];
      if stop.Some? { result := stop.value; return; }
      assert run == After(calls, RunFrom(agents, ProcessStages, 3, task, last));

      before := task;
      stop, task, last := Step(ProcessStages, 3, task, last, ProcessCrashPrefix, taskId);
      AfterAfter(calls, [Call(ProcessStages[3].agent, ProcessStages[3].action, before)], RunFrom(agents, ProcessStages, 4, task, last));
      calls := calls + [Call(ProcessStages[3].agent, ProcessStages[3].action, before)];
      if stop.Some? { result := stop.value; return; }
      assert run == After(calls, RunFrom(agents, ProcessStages, 4, task, last));

      result := ProcessReport(Completed(task, last), taskId);
    }

    /** `generate_code`: back analyze_data_model, back generate_api, front
        generate_ui_code, QA generate_tests, QA security_audit, stopping at
        the first stage that fails or raises; on success the stored pieces are
        bundled by side. */
    method GenerateCode(taskData: Dict, taskId: string) returns (result: Dict, ghost calls: seq<Call>)
      ensures result == CodeReport(RunFrom(agents, CodeStages, 0, InitialTask(taskData, taskId), map[]).result, taskId)
      ensures calls == RunFrom(agents, CodeStages, 0, InitialTask(taskData, taskId), map[]).calls
    {
      var task := InitialTask(taskData, taskId);
      var last: Dict := map[];
      ghost var run := RunFrom(agents, CodeStages, 0, task, last);
      ghost var before := task;
      calls := [];
      var stop: Option<Dict>;

      stop, task, last := Step(CodeStages, 0, task, last, CodeCrashPrefix, taskId);
      calls := [Call(CodeStages[0].agent, CodeStages[0].action, before)];
      if stop.Some? { result := stop.value; return; }
      assert run == After(calls, RunFrom(agents, CodeStages, 1, task, last));

      before := task;
      stop, task, last := Step(CodeStages, 1, task, last, CodeCrashPrefix, taskId);
      AfterAfter(calls, [Call(CodeStages[1].agent, CodeStages[1].action, before)], RunFrom(agents, CodeStages, 2, task, last));
      calls := calls + [Call(CodeStages[1].agent, CodeStages[1].action, before)];
      if stop.Some? { result := stop.value; return; }
      assert run == After(calls, RunFrom(agents, CodeStages, 2, task, last));

      before := task;
      stop, task, last := Step(CodeStages, 2, task, last, CodeCrashPrefix, taskId);
      AfterAfter(calls, [Call(CodeStages[2].agent, CodeStages[2].action, before)], RunFrom(agents, CodeStages, 3, task, last));
      calls := calls + [Call(CodeStages[2].agent, CodeStages[2].action, before)];
      if stop.Some? { result := stop.value; return; }
      assert run == After(calls, RunFrom(agents, CodeStages, 3, task, last));

      before := task;
      stop, task, last := Step(CodeStages, 3, task, last, CodeCrashPrefix, taskId);
      AfterAfter(calls, [Call(CodeStages[3].agent, CodeStages[3].action, before)], RunFrom(agents, CodeStages, 4, task, last));
      calls := calls + [Call(CodeStages[3].agent, CodeStages[3].action, before)];
      if stop.Some? { result := stop.value; return; }
      assert run == After(calls, RunFrom(agents, CodeStages, 4, task, last));

      before := task;
      stop, task, last := Step(CodeStages, 4, task, last, CodeCrashPrefix, taskId);
      AfterAfter(calls, [Call(CodeStages[4].agent, CodeStages[4].action, before)], RunFrom(agents, CodeStages, 5, task, last));
      calls := calls + [Call(CodeStages[4].agent, CodeStages[4].action, before)];
      if stop.Some? { result := stop.value; return; }
      assert run == After(calls, RunFrom(agents, CodeStages, 5, task, last));

      result := CodeReport(Completed(task, last), taskId);
    }
  }

  /** The calls `done` followed by the execution `e`. */
  function After(done: seq<Call>, e: Execution): Execution
  {
    Execution(e.result, done + e.calls)
  }

  lemma AfterAfter(a: seq<Call>, b: seq<Call>, e: Execution)
    ensures After(a, After(b, e)) == After(a + b, e)
  {
    assert a + (b + e.calls) == (a + b) + e.calls;
  }
}
