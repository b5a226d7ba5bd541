/** `BackAgent` (src/agents/back_agent.py): the back-end agent. It answers
    messages through the generation client and runs the "process_task"
    action. */
module BackAgents {
  import opened Values
  import opened Text
  import opened Collaborators
  import opened McpHandler
  import opened BaseAgents

  const AgentName := "BackAgent"
  const AgentRole := "back"
  const PromptRole := "back-end"
  /** Every generation call of this agent uses this temperature. */
  const Temperature: real := 0.5
  const MessageProfile := Profile(PromptRole, "Processar lógica de negócios", Temperature)

  /** The agent: its base part (name, role, memory) and its generation client. */
  class BackAgent {
    const base: BaseAgent
    const env: Env

    constructor(env: Env)
      ensures fresh(base) && this.env == env
      ensures base.name == AgentName && base.role == AgentRole && base.memory == []
    {
      base := new BaseAgent(AgentName, AgentRole);
      this.env := env;
    }

    /** `process_message`: the message is remembered first, whatever follows. */
    method ProcessMessage(message: Dict) returns (r: Outcome<Dict>)
      modifies base
      ensures base.memory == old(base.memory) + [message]
      ensures r == MessageReply(base.name, message, MessageProfile, env)
    {
      base.AddToMemory(message);
      r := MessageReply(base.name, message, MessageProfile, env);
    }
  }

  // ---------------------------------------------------------------------
  // _process_task

  const ProcessTaskText := "Processamento de lógica de negócios"
  const ProcessingFallbackSummary := "Lógica de negócios processada com sucesso"
  const ProcessingDefaultSummary := "Processamento concluído"

  /** The processing result used when the generation carries no parsed block. */
  const FallbackProcessing: Dict := map[
    "data_models" := JArr([JStr("User"), JStr("Task"), JStr("Result")]),
    "apis" := JArr([JStr("/api/process"), JStr("/api/status"), JStr("/api/results")]),
    "business_logic" := JStr("Processamento de dados com validação e transformação"),
    "implementation_notes" := JStr("Implementar validação de entrada e tratamento de erros"),
    "summary" := JStr(ProcessingFallbackSummary)]

  const ProcessHead := "Como agente de back-end, processe a seguinte tarefa com base na análise do front-end:\n\nTítulo: "
  const ProcessAnalysisHeading := "\n\nAnálise do front-end:\n"
  const ProcessTail := "\n\nResponda em JSON com: data_models, apis, business_logic, implementation_notes, summary\n"

  /** The user prompt: the task's title and description and the front-end summary. */
  function ProcessPrompt(taskData: Dict, frontAnalysis: Dict, repr: Json -> string): string
  {
    ProcessHead
    + Str(Get(taskData, "title", JStr("Sem título")), repr)
    + "\nDescrição: "
    + Str(Get(taskData, "description", JStr("Sem descrição")), repr)
    + ProcessAnalysisHeading
    + Str(Get(frontAnalysis, "summary", JStr("Sem análise do front-end")), repr)
    + ProcessTail
  }

  /** The prompt hands the front-end summary on to the back-end generation. */
  lemma ProcessPromptCarriesFrontSummary(taskData: Dict, frontAnalysis: Dict, repr: Json -> string)
    ensures Contains(ProcessPrompt(taskData, frontAnalysis, repr),
                     Str(Get(frontAnalysis, "summary", JStr("Sem análise do front-end")), repr))
  {
    var summary := Str(Get(frontAnalysis, "summary", JStr("Sem análise do front-end")), repr);
    var pre := ProcessHead
      + Str(Get(taskData, "title", JStr("Sem título")), repr)
      + "\nDescrição: "
      + Str(Get(taskData, "description", JStr("Sem descrição")), repr)
      + ProcessAnalysisHeading;
    ContainsMiddle(pre, summary, ProcessTail);
  }

  /** The generation call of the action. */
  function ProcessRequest(taskData: Dict, frontAnalysis: Dict, repr: Json -> string): (r: Request)
    ensures r.temperature == Temperature
    ensures |r.messages| == 2 && r.messages[0].role == "system" && r.messages[1].role == "user"
    ensures r.messages[1].content == ProcessPrompt(taskData, frontAnalysis, repr)
  {
    Request([Message("system", CreateAgentPrompt(PromptRole, ProcessTaskText)),
             Message("user", ProcessPrompt(taskData, frontAnalysis, repr))], Temperature)
  }

  /** What the generation returned, after extraction. */
  function ProcessGeneration(taskData: Dict, frontAnalysis: Dict, env: Env): Extracted
  {
    ExtractResponse(Respond(env, ProcessRequest(taskData, frontAnalysis, env.repr)), env.parse)
  }

  /** `_process_task`: the parsed processing result when the generation
      carried one, otherwise the fixed fallback; the summary is the result's
      own, or the default. "task_data" is read before "front_analysis", and
      a parsed result that is not a dict raises. */
  function ProcessTask(task: Dict, env: Env): (r: Outcome<Dict>)
    ensures var taskData := Get(task, "task_data", JObj(map[]));
      !taskData.JObj? ==> r == Raised(NoGetAttribute(taskData))
    ensures var taskData := Get(task, "task_data", JObj(map[]));
      var frontAnalysis := Get(task, "front_analysis", JObj(map[]));
      taskData.JObj? && !frontAnalysis.JObj? ==> r == Raised(NoGetAttribute(frontAnalysis))
    ensures var taskData := Get(task, "task_data", JObj(map[]));
      var frontAnalysis := Get(task, "front_analysis", JObj(map[]));
      taskData.JObj? && frontAnalysis.JObj? ==>
        var generated := ProcessGeneration(taskData.fields, frontAnalysis.fields, env);
        var result := if generated.HasStructuredData() then generated.structuredData.value else JObj(FallbackProcessing);
        && (r.Returned? <==> result.JObj?)
        && (result.JObj? ==>
              && SuccessIs(r.value, true)
              && "processing_result" in r.value && r.value["processing_result"] == result
              && "summary" in r.value && r.value["summary"] == Get(result.fields, "summary", JStr(ProcessingDefaultSummary)))
  {
    var taskData := Get(task, "task_data", JObj(map[]));
    var frontAnalysis := Get(task, "front_analysis", JObj(map[]));
    match AsDict(taskData)
    case Raised(e) => Raised(e)
    case Returned(td) =>
      match AsDict(frontAnalysis)
      case Raised(e) => Raised(e)
      case Returned(fa) =>
        match ChooseRecord(ProcessGeneration(td, fa, env), FallbackProcessing)
        case Raised(e) => Raised(e)
        case Returned(result) =>
          Returned(map["success" := JBool(true), "processing_result" := JObj(result),
                       "summary" := Get(result, "summary", JStr(ProcessingDefaultSummary))])
  }

  /** Without a parsed block the result is the fallback: the three data
      models, the three endpoints and its fixed summary. */
  lemma ProcessTaskFallback(task: Dict, env: Env)
    requires Get(task, "task_data", JObj(map[])).JObj? && Get(task, "front_analysis", JObj(map[])).JObj?
    requires !ProcessGeneration(Get(task, "task_data", JObj(map[])).fields,
                                Get(task, "front_analysis", JObj(map[])).fields, env).HasStructuredData()
    ensures var r := ProcessTask(task, env);
      && r.Returned?
      && r.value["processing_result"].JObj?
      && r.value["processing_result"].fields["data_models"] == JArr([JStr("User"), JStr("Task"), JStr("Result")])
      && |r.value["processing_result"].fields["apis"].items| == 3
      && r.value["summary"] == JStr(ProcessingFallbackSummary)
  {
  }

  // ---------------------------------------------------------------------
  // execute_task

  /** `execute_task`: only "process_task" is known (a missing action reads as ""). */
  function ExecuteTask(task: Dict, env: Env): (r: Outcome<Dict>)
    ensures var action := Get(task, "action", JStr(""));
      action != JStr("process_task") ==> r == Returned(UnknownAction(action, env.repr))
    ensures Get(task, "action", JStr("")) == JStr("process_task") ==> r == ProcessTask(task, env)
  {
    var action := Get(task, "action", JStr(""));
    if action == JStr("process_task") then ProcessTask(task, env)
    else Returned(UnknownAction(action, env.repr))
  }

  /** A returned result reports failure exactly for an unknown action. */
  lemma {:induction false} ExecuteTaskFailsOnlyOnUnknownAction(task: Dict, env: Env)
    requires ExecuteTask(task, env).Returned?
    ensures SuccessIs(ExecuteTask(task, env).value, false) <==> Get(task, "action", JStr("")) != JStr("process_task")
    ensures SuccessIs(ExecuteTask(task, env).value, true) <==> Get(task, "action", JStr("")) == JStr("process_task")
  {
    if Get(task, "action", JStr("")) == JStr("process_task") {
      assert Get(task, "task_data", JObj(map[])).JObj?;
      assert Get(task, "front_analysis", JObj(map[])).JObj?;
    }
  }
}
