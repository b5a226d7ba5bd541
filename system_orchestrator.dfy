/** `Orchestrator` of src/orchestrator/orchestrator.py: the logged pipeline
    front → back → qa → front, which writes the task row and one interaction
    entry per stage, and stops only when a stage raises. Agents are looked
    up in a registry by key, exactly first and then by a two-way,
    case-insensitive substring match. */
module SystemOrchestrator {
  import opened Values
  import opened Text
  import opened Database

  /** A registry entry: the agent's name and its `execute_task`, which
      returns a dictionary or raises. */
  datatype NamedAgent = NamedAgent(name: string, executeTask: Dict -> Outcome<Dict>)

  // ---------------------------------------------------------------------
  // Agent lookup (_execute_agent_task)

  /** The partial-match rule: either lower-cased text contains the other. */
  predicate Matches(key: string, name: string)
  {
    Contains(Lower(name), Lower(key)) || Contains(Lower(key), Lower(name))
  }

  /** Any text contains itself, so an exact name also matches partially. */
  lemma MatchesItself(key: string)
    ensures Matches(key, key)
  {
    ContainsMiddle("", Lower(key), "");
    assert "" + Lower(key) + "" == Lower(key);
  }

  /** The position of the entry named exactly `key`, if any. */
  function ExactIndex(agents: seq<NamedAgent>, key: string): (r: Option<nat>)
    ensures r.Some? ==> r.value < |agents| && agents[r.value].name == key
    ensures r.None? <==> forall i :: 0 <= i < |agents| ==> agents[i].name != key
  {
    if |agents| == 0 then None
    else if agents[0].name == key then Some(0)
    else match ExactIndex(agents[1..], key)
      case None => None
      case Some(i) => Some(i + 1)
  }

  /** The first position of `agents` whose entry satisfies `p`. */
  function FirstWhere(agents: seq<NamedAgent>, p: NamedAgent -> bool): (r: Option<nat>)
    ensures r.Some? ==> r.value < |agents| && p(agents[r.value])
    ensures r.Some? ==> forall j :: 0 <= j < r.value ==> !p(agents[j])
    ensures r.None? <==> forall j :: 0 <= j < |agents| ==> !p(agents[j])
  {
    if |agents| == 0 then None
    else if p(agents[0]) then Some(0)
    else
      var rest := agents[1..];
      assert forall j :: 1 <= j < |agents| ==> agents[j] == rest[j - 1];
      match FirstWhere(rest, p)
      case None => None
      case Some(i) => Some(i + 1)
  }

  /** The first position, in registry order, whose name matches `key` partially. */
  function FirstMatch(agents: seq<NamedAgent>, key: string): (r: Option<nat>)
    ensures r.Some? ==> r.value < |agents| && Matches(key, agents[r.value].name)
    ensures r.Some? ==> forall j :: 0 <= j < r.value ==> !Matches(key, agents[j].name)
    ensures r.None? <==> forall j :: 0 <= j < |agents| ==> !Matches(key, agents[j].name)
  {
    FirstWhere(agents, (a: NamedAgent) => Matches(key, a.name))
  }

  /** The agent `_execute_agent_task` picks for `key`: the exact entry when
      there is one, otherwise the first partial match. */
  function Resolve(agents: seq<NamedAgent>, key: string): Option<nat>
  {
    match ExactIndex(agents, key)
    case Some(i) => Some(i)
    case None => FirstMatch(agents, key)
  }

  /** An entry named exactly `key` always wins, wherever it stands. */
  lemma ExactNameWins(agents: seq<NamedAgent>, key: string, i: nat)
    requires i < |agents| && agents[i].name == key
    ensures var r := Resolve(agents, key); r.Some? && agents[r.value].name == key
  {
  }

  /** Without an exact entry, the first partial match is picked: it matches,
      and no earlier entry does. */
  lemma PartialMatchIsFirst(agents: seq<NamedAgent>, key: string)
    requires forall i :: 0 <= i < |agents| ==> agents[i].name != key
    requires Resolve(agents, key).Some?
    ensures var r := Resolve(agents, key).value;
      && r < |agents| && Matches(key, agents[r].name)
      && forall j :: 0 <= j < r ==> !Matches(key, agents[j].name)
  {
  }

  /** The lookup fails exactly when no entry matches, not even partially. */
  lemma {:induction false} ResolveFailsIffNoMatch(agents: seq<NamedAgent>, key: string)
    ensures Resolve(agents, key).None? <==> forall j :: 0 <= j < |agents| ==> !Matches(key, agents[j].name)
  {
    if Resolve(agents, key).None? {
      assert ExactIndex(agents, key).None?;
    } else if ExactIndex(agents, key).Some? {
      MatchesItself(key);
      assert Matches(key, agents[ExactIndex(agents, key).value].name);
    }
  }

  const NotFoundPrefix := "Agente não encontrado: "

  /** What `_execute_agent_task(key, payload)` returns or raises. */
  function AgentAnswer(agents: seq<NamedAgent>, key: string, payload: Dict): Outcome<Dict>
  {
    match Resolve(agents, key)
    case None => Raised(NotFoundPrefix + key)
    case Some(i) => agents[i].executeTask(payload)
  }

  // ---------------------------------------------------------------------
  // The four stages of process_task

  const StageCount := 4
  /** The registry key each stage looks up; it is also the logged agent name. */
  const StageKeys: seq<string> := ["front_agent", "back_agent", "qa_agent", "front_agent"]
  const StageActions: seq<string> := ["analyze_task", "process_task", "verify_result", "prepare_response"]
  /** The entry under which a stage receives the previous stage's result. */
  const StageInputs: seq<string> := ["", "front_analysis", "back_result", "qa_result"]
  const StageLabels: seq<string> := ["Análise inicial: ", "Processamento: ", "Verificação: ", "Resposta final: "]

  /** The dictionary stage `k` is called with: its action, the task id, the
      previous stage's result (from the second stage on) and the task data. */
  function Payload(k: nat, taskId: int, taskData: Dict, prev: Dict): Dict
    requires k < StageCount
  {
    var common := map["action" := JStr(StageActions[k]), "task_id" := JInt(taskId), "task_data" := JObj(taskData)];
    if k == 0 then common else common[StageInputs[k] := JObj(prev)]
  }

  /** Each stage receives exactly its action, the task id, the task data and,
      from the second stage on, the previous stage's result. */
  lemma PayloadShape(k: nat, taskId: int, taskData: Dict, prev: Dict)
    requires k < StageCount
    ensures var p := Payload(k, taskId, taskData, prev);
      && Has(p, "action", JStr(StageActions[k]))
      && Has(p, "task_id", JInt(taskId)) && Has(p, "task_data", JObj(taskData))
      && (0 < k ==> Has(p, StageInputs[k], JObj(prev)))
      && (k == 0 ==> p.Keys == {"action", "task_id", "task_data"})
      && (0 < k ==> p.Keys == {"action", "task_id", StageInputs[k], "task_data"})
  {
  }

  /** The stages of one task, as a function from a stage number and its
      input to what that stage returns or raises. */
  type StageFn = (nat, Dict) -> Outcome<Dict>

  /** The four stages of `process_task` for task `taskId`: stage `k` calls
      the agent under `StageKeys[k]` with its payload built from `prev`.
      (Numbers past the last stage are never asked for.) */
  function Stages(agents: seq<NamedAgent>, taskId: int, taskData: Dict): StageFn
  {
    (k: nat, prev: Dict) =>
      if k < StageCount then AgentAnswer(agents, StageKeys[k], Payload(k, taskId, taskData, prev)) else Returned(prev)
  }

  /** The stages run from some stage on: the results of the stages that
      returned, and how the run ended (the last result, or the exception). */
  datatype Run = Run(results: seq<Dict>, ending: Outcome<Dict>)

  /** Stages `k..3`, stage `k` receiving `prev`. Only an exception stops the
      run; the "success" entry of a result is never looked at. */
  function RunStages(answer: StageFn, k: nat, prev: Dict): (r: Run)
    requires k <= StageCount
    ensures |r.results| <= StageCount - k
    decreases StageCount - k
  {
    if k == StageCount then Run([], Returned(prev))
    else match answer(k, prev)
      case Raised(m) => Run([], Raised(m))
      case Returned(result) =>
        var rest := RunStages(answer, k + 1, result);
        Run([result] + rest.results, rest.ending)
  }

  /** The input of the `j`-th stage run from stage `k` on. */
  function InputOf(results: seq<Dict>, prev: Dict, j: nat): Dict
    requires j <= |results|
  {
    if j == 0 then prev else results[j - 1]
  }

  /** At most the remaining stages run; all of them when none raised, and
      the normal ending is the last stage's result. */
  lemma {:induction false} RunLength(answer: StageFn, k: nat, prev: Dict)
    requires k <= StageCount
    ensures var run := RunStages(answer, k, prev);
      && |run.results| <= StageCount - k
      && (run.ending.Returned? ==>
            |run.results| == StageCount - k && run.ending.value == InputOf(run.results, prev, |run.results|))
    decreases StageCount - k
  {
    if k < StageCount {
      match answer(k, prev)
      case Raised(m) =>
      case Returned(result) =>
        RunLength(answer, k + 1, result);
    }
  }

  /** Every stage that ran returned what it was asked for, with the previous
      stage's result as its input. */
  lemma {:induction false} RunHandOver(answer: StageFn, k: nat, prev: Dict)
    requires k <= StageCount
    ensures var run := RunStages(answer, k, prev);
      forall j :: 0 <= j < |run.results| ==>
        && k + j < StageCount
        && answer(k + j, InputOf(run.results, prev, j))
           == Returned(run.results[j])
    decreases StageCount - k
  {
    if k < StageCount {
      var run := RunStages(answer, k, prev);
      match answer(k, prev)
      case Raised(m) =>
        assert run.results == [];
      case Returned(result) =>
        var rest := RunStages(answer, k + 1, result);
        assert run.results == [result] + rest.results;
        RunHandOver(answer, k + 1, result);
        forall j | 0 <= j < |run.results|
          ensures k + j < StageCount
          ensures answer(k + j, InputOf(run.results, prev, j)) == Returned(run.results[j])
        {
          if j > 0 {
            assert run.results[j] == rest.results[j - 1];
            assert InputOf(run.results, prev, j) == InputOf(rest.results, result, j - 1);
          }
        }
    }
  }

  /** A run that raised stopped at the first stage that raised: that stage,
      given the previous result, raised the exception, and no later stage ran. */
  lemma {:induction false} RunStops(answer: StageFn, k: nat, prev: Dict)
    requires k <= StageCount
    ensures var run := RunStages(answer, k, prev);
      var n := |run.results|;
      run.ending.Raised? ==>
        && k + n < StageCount
        && answer(k + n, InputOf(run.results, prev, n))
           == Raised(run.ending.message)
    decreases StageCount - k
  {
    if k < StageCount {
      match answer(k, prev)
      case Raised(m) =>
      case Returned(result) =>
        var rest := RunStages(answer, k + 1, result);
        var run := RunStages(answer, k, prev);
        RunStops(answer, k + 1, result);
        if run.ending.Raised? {
          assert InputOf(run.results, prev, |run.results|) == InputOf(rest.results, result, |rest.results|);
        }
    }
  }

  // ---------------------------------------------------------------------
  // What process_task writes and returns

  /** The interaction entry of stage `k`: its agent key, and its label with
      the result's "summary" (or "N/A"). */
  function StageEntry(k: nat, taskId: int, result: Dict, repr: Json -> string, now: int): Interaction
    requires k < StageCount
  {
    Interaction(taskId, StageKeys[k], StageLabels[k] + Str(Get(result, "summary", JStr("N/A")), repr), now)
  }

  /** The entries logged for the results of stages `k..`. */
  function Logged(results: seq<Dict>, k: nat, taskId: int, repr: Json -> string, now: int): seq<Interaction>
    requires k + |results| <= StageCount
    decreases |results|
  {
    if |results| == 0 then []
    else [StageEntry(k, taskId, results[0], repr, now)] + Logged(results[1..], k + 1, taskId, repr, now)
  }

  const ErrorPrefix := "Erro: "
  const StatusCompleted := "completed"
  const StatusFailed := "failed"

  /** Everything a run from stage `k` on logs: one entry per stage that
      returned, then one "system" entry when a stage raised. */
  function Entries(run: Run, k: nat, taskId: int, repr: Json -> string, now: int): seq<Interaction>
    requires k + |run.results| <= StageCount
  {
    Logged(run.results, k, taskId, repr, now)
    + (if run.ending.Raised? then [Interaction(taskId, "system", ErrorPrefix + run.ending.message, now)] else [])
  }

  /** The task row once the run is over: "completed" with the rendered final
      result, or "failed" with no output. */
  function Finished(row: TaskRow, ending: Outcome<Dict>, repr: Json -> string, now: int): (r: TaskRow)
    ensures ending.Returned? ==>
      r == WithStatus(row, StatusCompleted, Some(Str(JObj(ending.value), repr)), now)
    ensures ending.Raised? ==> r == WithStatus(row, StatusFailed, None, now)
  {
    match ending
    case Returned(last) => WithStatus(row, StatusCompleted, Some(Str(JObj(last), repr)), now)
    case Raised(_) => WithStatus(row, StatusFailed, None, now)
  }

  /** What process_task returns: the final result, or the failure report. */
  function Reply(ending: Outcome<Dict>): (r: Dict)
    ensures ending.Returned? ==> r == ending.value
    ensures ending.Raised? ==> r == map["success" := JBool(false), "error" := JStr(ending.message)]
  {
    match ending
    case Returned(last) => last
    case Raised(m) => map["success" := JBool(false), "error" := JStr(m)]
  }

  /** The row `process_task` creates: a "processing" row whose title,
      description, user and project come from the task data, defaulting to
      "Sem título", "", 0 and NULL. */
  function CreatedRow(id: int, taskData: Dict, now: int): (r: TaskRow)
    ensures r.id == id && r.status == StatusProcessing && r.outputGerado == JNull && r.agentId == JNull
    ensures "title" in taskData ==> r.title == taskData["title"]
    ensures "title" !in taskData ==> r.title == JStr("Sem título")
    ensures "description" in taskData ==> r.inputUsuario == taskData["description"]
    ensures "description" !in taskData ==> r.inputUsuario == JStr("")
    ensures "user_id" in taskData ==> r.userId == taskData["user_id"]
    ensures "user_id" !in taskData ==> r.userId == JInt(0)
    ensures "project_id" in taskData ==> r.projectId == taskData["project_id"]
    ensures "project_id" !in taskData ==> r.projectId == JNull
  {
    NewRow(id, Get(taskData, "title", JStr("Sem título")), Get(taskData, "description", JStr("")),
           Get(taskData, "user_id", JInt(0)), Get(taskData, "project_id", JNull), JNull, now)
  }

  /** The log of a run: the entry of the `j`-th stage that returned is that
      stage's, in stage order; a run that ends normally logs exactly four
      entries, one that raised one more than the stages that returned, the
      last being the "system" entry with the exception's text. */
  lemma {:induction false} EntriesCharacterised(run: Run, k: nat, taskId: int, repr: Json -> string, now: int)
    requires k + |run.results| <= StageCount
    requires run.ending.Returned? ==> |run.results| == StageCount - k
    ensures var log := Entries(run, k, taskId, repr, now);
      && |log| == |run.results| + (if run.ending.Raised? then 1 else 0)
      && (forall j :: 0 <= j < |run.results| ==> log[j] == StageEntry(k + j, taskId, run.results[j], repr, now))
      && (run.ending.Returned? ==> |log| == StageCount - k)
      && (run.ending.Raised? ==> log[|log| - 1] == Interaction(taskId, "system", ErrorPrefix + run.ending.message, now))
  {
    LoggedEntries(run.results, k, taskId, repr, now);
  }

  lemma {:induction false} LoggedEntries(results: seq<Dict>, k: nat, taskId: int, repr: Json -> string, now: int)
    requires k + |results| <= StageCount
    ensures var log := Logged(results, k, taskId, repr, now);
      && |log| == |results|
      && forall j :: 0 <= j < |results| ==> log[j] == StageEntry(k + j, taskId, results[j], repr, now)
    decreases |results|
  {
    if |results| > 0 {
      LoggedEntries(results[1..], k + 1, taskId, repr, now);
      var log := Logged(results, k, taskId, repr, now);
      forall j | 1 <= j < |results|
        ensures log[j] == StageEntry(k + j, taskId, results[j], repr, now)
      {
        assert results[1..][j - 1] == results[j];
      }
    }
  }

  /** One stage that returned: its entry comes first in the run's log, the
      rest of the log is that of the run from the next stage on, and the
      ending is the same. */
  lemma StageReturned(answer: StageFn, taskId: int, k: nat, prev: Dict, repr: Json -> string, now: int, result: Dict,
                      before: seq<Interaction>)
    requires k < StageCount
    requires answer(k, prev) == Returned(result)
    ensures var run := RunStages(answer, k, prev);
      var rest := RunStages(answer, k + 1, result);
      && run.ending == rest.ending
      && (before + [StageEntry(k, taskId, result, repr, now)]) + Entries(rest, k + 1, taskId, repr, now)
         == before + Entries(run, k, taskId, repr, now)
  {
    var run := RunStages(answer, k, prev);
    var rest := RunStages(answer, k + 1, result);
    assert run.results[1..] == rest.results;
    assert Entries(run, k, taskId, repr, now)
           == [StageEntry(k, taskId, result, repr, now)] + Entries(rest, k + 1, taskId, repr, now);
  }

  /** One stage that raised: the run ends there, logging only the "system" entry. */
  lemma StageRaised(answer: StageFn, taskId: int, k: nat, prev: Dict, repr: Json -> string, now: int, message: string)
    requires k < StageCount
    requires answer(k, prev) == Raised(message)
    ensures var run := RunStages(answer, k, prev);
      && run.ending == Raised(message)
      && Entries(run, k, taskId, repr, now) == [Interaction(taskId, "system", ErrorPrefix + message, now)]
  {
  }

  /** What is `logged` so far, followed by the log of the stages from `k`
      on, is the whole log `goal` of a run that ends with `ending`. */
  ghost predicate Owes(answer: StageFn, taskId: int, k: nat, prev: Dict, logged: seq<Interaction>,
                       goal: seq<Interaction>, ending: Outcome<Dict>, repr: Json -> string, now: int)
  {
    && k <= StageCount
    && var run := RunStages(answer, k, prev);
    && logged + Entries(run, k, taskId, repr, now) == goal
    && run.ending == ending
  }

  // ---------------------------------------------------------------------
  // The class

  class Orchestrator {
    /** The agent registry, in iteration order (the source reads `self.agents`
        without ever setting it). */
    const agents: seq<NamedAgent>
    const db: Db
    /** Python's `str()` of a non-string value. */
    const repr: Json -> string

    constructor(agents: seq<NamedAgent>, db: Db, repr: Json -> string)
      ensures this.agents == agents && this.db == db && this.repr == repr
    {
      this.agents := agents;
      this.db := db;
      this.repr := repr;
    }

    /** `_execute_agent_task`: the exact entry, else a scan in registry order
        for the first partial match, else ValueError. */
    method ExecuteAgentTask(key: string, payload: Dict) returns (r: Outcome<Dict>)
      ensures r == AgentAnswer(agents, key, payload)
    {
      var exact := ExactIndex(agents, key);
      if exact.Some? {
        return agents[exact.value].executeTask(payload);
      }
      var i := 0;
      while i < |agents|
        invariant 0 <= i <= |agents|
        invariant forall j :: 0 <= j < i ==> !Matches(key, agents[j].name)
      {
        if Matches(key, agents[i].name) {
          assert FirstMatch(agents, key) == Some(i) by {
            FirstMatchIs(agents, key, i);
          }
          return agents[i].executeTask(payload);
        }
        i := i + 1;
      }
      return Raised(NotFoundPrefix + key);
    }

    /** One stage: call the agent and, when it returned, log its entry.
        `goal` is the whole log the run is owed and `ending` how it ends:
        what is logged so far followed by the log of the stages still to
        run is always that log. */
    method RunStage(k: nat, taskId: int, taskData: Dict, prev: Dict, now: int,
                    ghost goal: seq<Interaction>, ghost ending: Outcome<Dict>)
      returns (out: Outcome<Dict>)
      requires k < StageCount
      requires Owes(Stages(agents, taskId, taskData), taskId, k, prev, db.interactions, goal, ending, repr, now)
      modifies db
      ensures out == Stages(agents, taskId, taskData)(k, prev)
      ensures out.Returned? ==>
        Owes(Stages(agents, taskId, taskData), taskId, k + 1, out.value, db.interactions, goal, ending, repr, now)
      ensures out.Raised? ==>
        && db.interactions + [Interaction(taskId, "system", ErrorPrefix + out.message, now)] == goal
        && ending == Raised(out.message)
      ensures db.tasks == old(db.tasks) && db.lastId == old(db.lastId)
    {
      out := ExecuteAgentTask(StageKeys[k], Payload(k, taskId, taskData, prev));
      if out.Returned? {
        StageReturned(Stages(agents, taskId, taskData), taskId, k, prev, repr, now, out.value, db.interactions);
        var summary := Get(out.value, "summary", JStr("N/A"));
        db.LogInteraction(taskId, StageKeys[k], StageLabels[k] + Str(summary, repr), now);
      } else {
        StageRaised(Stages(agents, taskId, taskData), taskId, k, prev, repr, now, out.message);
      }
    }

    /** The exception handler: the "system" entry, status "failed", and the
        failure report. */
    method Fail(taskId: int, message: string, now: int,
                ghost goal: seq<Interaction>, ghost ending: Outcome<Dict>, ghost base: map<int, TaskRow>, ghost row: TaskRow)
      returns (r: Dict)
      requires db.Valid()
      requires db.interactions + [Interaction(taskId, "system", ErrorPrefix + message, now)] == goal
      requires ending == Raised(message) && db.tasks == base[taskId := row]
      modifies db
      ensures db.Valid()
      ensures db.interactions == goal
      ensures db.tasks == base[taskId := Finished(row, ending, repr, now)]
      ensures db.lastId == old(db.lastId)
      ensures r == Reply(ending)
    {
      db.LogInteraction(taskId, "system", ErrorPrefix + message, now);
      db.UpdateTaskStatus(taskId, StatusFailed, None, now);
      assert db.tasks == base[taskId := Finished(row, ending, repr, now)];
      r := map["success" := JBool(false), "error" := JStr(message)];
    }

    /** The normal end: status "completed" with the rendered final result,
        which is returned. */
    method Complete(taskId: int, taskData: Dict, final: Dict, now: int,
                    ghost goal: seq<Interaction>, ghost ending: Outcome<Dict>, ghost base: map<int, TaskRow>, ghost row: TaskRow)
      returns (r: Dict)
      requires db.Valid()
      requires Owes(Stages(agents, taskId, taskData), taskId, StageCount, final, db.interactions, goal, ending, repr, now)
      requires db.tasks == base[taskId := row]
      modifies db
      ensures db.Valid()
      ensures db.interactions == goal
      ensures db.tasks == base[taskId := Finished(row, ending, repr, now)]
      ensures db.lastId == old(db.lastId)
      ensures r == Reply(ending)
    {
      assert ending == Returned(final);
      assert db.interactions == goal;
      db.UpdateTaskStatus(taskId, StatusCompleted, Some(Str(JObj(final), repr)), now);
      assert db.tasks == base[taskId := Finished(row, ending, repr, now)];
      r := final;
    }

    /** `process_task`: the row is created first; the four stages run in
        order, each logged as it returns; the row ends "completed" with the
        final result, or "failed" after the first exception. */
    method ProcessTask(taskData: Dict, now: int) returns (r: Dict)
      requires db.Valid()
      modifies db
      ensures db.Valid()
      ensures db.lastId == old(db.lastId) + 1 && db.lastId !in old(db.tasks)
      ensures var id := db.lastId;
        var run := RunStages(Stages(agents, id, taskData), 0, map[]);
        && db.interactions == old(db.interactions) + Entries(run, 0, id, repr, now)
        && db.tasks == old(db.tasks)[id := Finished(CreatedRow(id, taskData, now), run.ending, repr, now)]
        && r == Reply(run.ending)
    {
      var id := db.CreateTask(Get(taskData, "title", JStr("Sem título")), Get(taskData, "description", JStr("")),
                              Get(taskData, "user_id", JInt(0)), Get(taskData, "project_id", JNull), JNull, now);
      ghost var run := RunStages(Stages(agents, id, taskData), 0, map[]);
      ghost var goal := db.interactions + Entries(run, 0, id, repr, now);
      ghost var row := CreatedRow(id, taskData, now);
      ghost var base := old(db.tasks);

      // The four stage blocks of the source differ only in the entries of
      // the stage table, so they are run as one loop over it.
      var k := 0;
      var prev: Dict := map[];
      while k < StageCount
        invariant k <= StageCount
        invariant db.Valid() && db.tasks == base[id := row] && db.lastId == id
        invariant Owes(Stages(agents, id, taskData), id, k, prev, db.interactions, goal, run.ending, repr, now)
      {
        var out := RunStage(k, id, taskData, prev, now, goal, run.ending);
        if out.Raised? {
          r := Fail(id, out.message, now, goal, run.ending, base, row);
          return;
        }
        prev := out.value;
        k := k + 1;
      }
      r := Complete(id, taskData, prev, now, goal, run.ending, base, row);
    }
  }

  /** A position that matches, with no earlier one matching, is the first match. */
  lemma {:induction false} FirstMatchIs(agents: seq<NamedAgent>, key: string, i: nat)
    requires i < |agents| && Matches(key, agents[i].name)
    requires forall j :: 0 <= j < i ==> !Matches(key, agents[j].name)
    ensures FirstMatch(agents, key) == Some(i)
  {
    var r := FirstMatch(agents, key);
    assert r.Some?;
    if r.value < i {
    } else if r.value > i {
    }
  }
}
