/** `FrontAgent` (src/agents/front_agent.py): the front-end agent. It answers
    messages through the generation client, and runs the "analyze_task" and
    "prepare_response" actions. */
module FrontAgents {
  import opened Values
  import opened Text
  import opened Collaborators
  import opened McpHandler
  import opened BaseAgents

  const AgentName := "FrontAgent"
  const AgentRole := "front"
  const PromptRole := "front-end"
  /** Every generation call of this agent uses this temperature. */
  const Temperature: real := 0.7
  const MessageProfile := Profile(PromptRole, "Analisar requisitos de interface", Temperature)

  /** The agent: its base part (name, role, memory) and its generation client. */
  class FrontAgent {
    const base: BaseAgent
    const env: Env

    constructor(env: Env)
      ensures fresh(base) && this.env == env
      ensures base.name == AgentName && base.role == AgentRole && base.memory == []
    {
      base := new BaseAgent(AgentName, AgentRole);
      this.env := env;
    }

    /** `process_message`: the message is remembered first, whatever follows. */
    method ProcessMessage(message: Dict) returns (r: Outcome<Dict>)
      modifies base
      ensures base.memory == old(base.memory) + [message]
      ensures r == MessageReply(base.name, message, MessageProfile, env)
    {
      base.AddToMemory(message);
      r := MessageReply(base.name, message, MessageProfile, env);
    }
  }

  // ---------------------------------------------------------------------
  // _analyze_task

  const AnalysisTaskText := "Análise de requisitos de interface"
  const AnalysisFallbackSummary := "Interface básica para processamento e visualização de dados"
  const AnalysisDefaultSummary := "Análise concluída"

  /** The analysis used when the generation carries no parsed block. */
  const FallbackAnalysis: Dict := map[
    "ui_components" := JArr([JStr("Formulário de entrada"), JStr("Botões de ação"), JStr("Área de exibição de resultados")]),
    "user_flows" := JArr([JStr("Entrada de dados -> Processamento -> Visualização de resultados")]),
    "design_considerations" := JArr([JStr("Layout responsivo"), JStr("Acessibilidade"), JStr("Feedback visual")]),
    "summary" := JStr(AnalysisFallbackSummary)]

  const DescriptionLabel := "\nDescrição: "
  const AnalysisHead := "Como agente de front-end, analise a seguinte tarefa e identifique os requisitos de interface:\n\nTítulo: "
  const AnalysisTail := "\n\nForneça uma análise detalhada dos requisitos de interface, componentes necessários e considerações de UX/UI.\nResponda em formato JSON com os campos: ui_components, user_flows, design_considerations, summary\n"

  /** The user prompt of the analysis, with the task's title and description. */
  function AnalysisPrompt(taskData: Dict, repr: Json -> string): string
  {
    AnalysisHead
    + Str(Get(taskData, "title", JStr("Sem título")), repr)
    + DescriptionLabel
    + Str(Get(taskData, "description", JStr("Sem descrição")), repr)
    + AnalysisTail
  }

  /** The analysis prompt names the task's title and description. */
  lemma AnalysisPromptNamesTask(taskData: Dict, repr: Json -> string)
    ensures Contains(AnalysisPrompt(taskData, repr), Str(Get(taskData, "title", JStr("Sem título")), repr))
    ensures Contains(AnalysisPrompt(taskData, repr), Str(Get(taskData, "description", JStr("Sem descrição")), repr))
  {
    var title := Str(Get(taskData, "title", JStr("Sem título")), repr);
    var description := Str(Get(taskData, "description", JStr("Sem descrição")), repr);
    ContainsBoth(AnalysisHead, title, DescriptionLabel, description, AnalysisTail);
  }

  /** The generation call of the analysis. */
  function AnalysisRequest(taskData: Dict, repr: Json -> string): (r: Request)
    ensures r.temperature == Temperature
    ensures |r.messages| == 2 && r.messages[0].role == "system" && r.messages[1].role == "user"
    ensures r.messages[1].content == AnalysisPrompt(taskData, repr)
  {
    Request([Message("system", CreateAgentPrompt(PromptRole, AnalysisTaskText)),
             Message("user", AnalysisPrompt(taskData, repr))], Temperature)
  }

  /** What the generation returned for the analysis, after extraction. */
  function AnalysisGeneration(taskData: Dict, env: Env): Extracted
  {
    ExtractResponse(Respond(env, AnalysisRequest(taskData, env.repr)), env.parse)
  }

  /** `_analyze_task`: the parsed analysis when the generation carried one,
      otherwise the fixed fallback; the summary is the analysis' own, or the
      default. A "task_data" or a parsed analysis that is not a dict raises. */
  function AnalyzeTask(task: Dict, env: Env): (r: Outcome<Dict>)
    ensures var taskData := Get(task, "task_data", JObj(map[]));
      !taskData.JObj? ==> r == Raised(NoGetAttribute(taskData))
    ensures var taskData := Get(task, "task_data", JObj(map[]));
      taskData.JObj? ==>
        var generated := AnalysisGeneration(taskData.fields, env);
        var analysis := if generated.HasStructuredData() then generated.structuredData.value else JObj(FallbackAnalysis);
        && (r.Returned? <==> analysis.JObj?)
        && (analysis.JObj? ==>
              && SuccessIs(r.value, true)
              && "analysis" in r.value && r.value["analysis"] == analysis
              && "summary" in r.value && r.value["summary"] == Get(analysis.fields, "summary", JStr(AnalysisDefaultSummary)))
  {
    var taskData := Get(task, "task_data", JObj(map[]));
    match AsDict(taskData)
    case Raised(e) => Raised(e)
    case Returned(fields) =>
      match ChooseRecord(AnalysisGeneration(fields, env), FallbackAnalysis)
      case Raised(e) => Raised(e)
      case Returned(analysis) =>
        Returned(map["success" := JBool(true), "analysis" := JObj(analysis),
                     "summary" := Get(analysis, "summary", JStr(AnalysisDefaultSummary))])
  }

  /** Without a parsed block the analysis is the fallback: three UI components,
      one user flow, three design considerations and its fixed summary. */
  lemma AnalyzeTaskFallback(task: Dict, env: Env)
    requires Get(task, "task_data", JObj(map[])).JObj?
    requires !AnalysisGeneration(Get(task, "task_data", JObj(map[])).fields, env).HasStructuredData()
    ensures var r := AnalyzeTask(task, env);
      && r.Returned?
      && r.value["analysis"].JObj?
      && |r.value["analysis"].fields["ui_components"].items| == 3
      && |r.value["analysis"].fields["user_flows"].items| == 1
      && |r.value["analysis"].fields["design_considerations"].items| == 3
      && r.value["summary"] == JStr(AnalysisFallbackSummary)
  {
  }

  // ---------------------------------------------------------------------
  // _prepare_response

  const PrepareTaskText := "Preparação de resposta final"
  const PreparedSummary := "Resposta final preparada"

  const PrepareHead := "Como agente de front-end, prepare uma resposta final para o usuário:\n\nTítulo: "

  /** The user prompt of the final answer: the title, and the QA summary and score. */
  function PreparePrompt(taskData: Dict, qaResult: Dict, repr: Json -> string): string
  {
    PrepareHead
    + Str(Get(taskData, "title", JStr("Sem título")), repr)
    + "\nResultado da verificação: "
    + Str(Get(qaResult, "summary", JStr("Sem resumo")), repr)
    + "\nPontuação de qualidade: "
    + Str(Get(qaResult, "quality_score", JStr("N/A")), repr)
    + "\n"
  }

  /** The generation call of the final answer. */
  function PrepareRequest(taskData: Dict, qaResult: Dict, repr: Json -> string): (r: Request)
    ensures r.temperature == Temperature
    ensures |r.messages| == 2 && r.messages[0].role == "system" && r.messages[1].role == "user"
    ensures r.messages[1].content == PreparePrompt(taskData, qaResult, repr)
  {
    Request([Message("system", CreateAgentPrompt(PromptRole, PrepareTaskText)),
             Message("user", PreparePrompt(taskData, qaResult, repr))], Temperature)
  }

  /** `_prepare_response`: the final answer is the generated content as it
      came back, under "user_response"; the task data is read before the QA
      result, so its failure is the one reported when both are not dicts. */
  function PrepareResponse(task: Dict, env: Env): (r: Outcome<Dict>)
    ensures var taskData := Get(task, "task_data", JObj(map[]));
      !taskData.JObj? ==> r == Raised(NoGetAttribute(taskData))
    ensures var taskData := Get(task, "task_data", JObj(map[]));
      var qaResult := Get(task, "qa_result", JObj(map[]));
      taskData.JObj? && !qaResult.JObj? ==> r == Raised(NoGetAttribute(qaResult))
    ensures var taskData := Get(task, "task_data", JObj(map[]));
      var qaResult := Get(task, "qa_result", JObj(map[]));
      taskData.JObj? && qaResult.JObj? ==>
        && r.Returned?
        && SuccessIs(r.value, true)
        && "user_response" in r.value
        && r.value["user_response"] == JStr(env.generate(PrepareRequest(taskData.fields, qaResult.fields, env.repr)))
        && "summary" in r.value && r.value["summary"] == JStr(PreparedSummary)
        && "response" !in r.value
  {
    var qaResult := Get(task, "qa_result", JObj(map[]));
    var taskData := Get(task, "task_data", JObj(map[]));
    match AsDict(taskData)
    case Raised(e) => Raised(e)
    case Returned(td) =>
      match AsDict(qaResult)
      case Raised(e) => Raised(e)
      case Returned(qa) =>
        var processed := ExtractResponse(Respond(env, PrepareRequest(td, qa, env.repr)), env.parse);
        var d := ExtractedDict(processed);
        Returned(map["success" := JBool(true),
                     "user_response" := Get(d, "content", JStr("Tarefa processada com sucesso.")),
                     "summary" := JStr(PreparedSummary)])
  }

  // ---------------------------------------------------------------------
  // execute_task

  predicate IsAction(action: Json)
  {
    action == JStr("analyze_task") || action == JStr("prepare_response")
  }

  /** `execute_task`: dispatch on "action" (missing reads as ""). */
  function ExecuteTask(task: Dict, env: Env): (r: Outcome<Dict>)
    ensures var action := Get(task, "action", JStr(""));
      !IsAction(action) ==> r == Returned(UnknownAction(action, env.repr))
    ensures Get(task, "action", JStr("")) == JStr("analyze_task") ==> r == AnalyzeTask(task, env)
    ensures Get(task, "action", JStr("")) == JStr("prepare_response") ==> r == PrepareResponse(task, env)
  {
    var action := Get(task, "action", JStr(""));
    if action == JStr("analyze_task") then AnalyzeTask(task, env)
    else if action == JStr("prepare_response") then PrepareResponse(task, env)
    else Returned(UnknownAction(action, env.repr))
  }

  /** A returned result reports failure exactly for an unknown action. */
  lemma {:induction false} ExecuteTaskFailsOnlyOnUnknownAction(task: Dict, env: Env)
    requires ExecuteTask(task, env).Returned?
    ensures SuccessIs(ExecuteTask(task, env).value, false) <==> !IsAction(Get(task, "action", JStr("")))
    ensures SuccessIs(ExecuteTask(task, env).value, true) <==> IsAction(Get(task, "action", JStr("")))
  {
    var action := Get(task, "action", JStr(""));
    if action == JStr("analyze_task") {
      var taskData := Get(task, "task_data", JObj(map[]));
      assert taskData.JObj?;
    } else if action == JStr("prepare_response") {
      var taskData := Get(task, "task_data", JObj(map[]));
      assert taskData.JObj?;
    }
  }
}
