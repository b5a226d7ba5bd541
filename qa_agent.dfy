/** `QAAgent` (src/agents/qa_agent.py): the quality agent. It answers
    messages through the generation client and runs the "verify_result"
    action, which reports a quality score. */
module QaAgents {
  import opened Values
  import opened Text
  import opened Collaborators
  import opened McpHandler
  import opened BaseAgents

  const AgentName := "QAAgent"
  const AgentRole := "qa"
  const PromptRole := "qa"
  /** Every generation call of this agent uses this temperature. */
  const Temperature: real := 0.3
  const MessageProfile := Profile(PromptRole, "Verificar qualidade e testar", Temperature)

  /** The agent: its base part (name, role, memory) and its generation client. */
  class QaAgent {
    const base: BaseAgent
    const env: Env

    constructor(env: Env)
      ensures fresh(base) && this.env == env
      ensures base.name == AgentName && base.role == AgentRole && base.memory == []
    {
      base := new BaseAgent(AgentName, AgentRole);
      this.env := env;
    }

    /** `process_message`: the message is remembered first, whatever follows. */
    method ProcessMessage(message: Dict) returns (r: Outcome<Dict>)
      modifies base
      ensures base.memory == old(base.memory) + [message]
      ensures r == MessageReply(base.name, message, MessageProfile, env)
    {
      base.AddToMemory(message);
      r := MessageReply(base.name, message, MessageProfile, env);
    }
  }

  // ---------------------------------------------------------------------
  // _verify_result

  const VerifyTaskText := "Verificação de qualidade"
  const FallbackScore := 7
  const DefaultScore := 5
  const VerificationFallbackSummary := "Implementação satisfatória com algumas melhorias sugeridas"
  const VerificationDefaultSummary := "Verificação concluída"

  /** The verification used when the generation carries no parsed block. */
  const FallbackVerification: Dict := map[
    "requirements_met" := JArr([JStr("Funcionalidade básica implementada"), JStr("Estrutura de dados adequada")]),
    "issues" := JArr([JStr("Possível problema de validação de entrada")]),
    "improvements" := JArr([JStr("Adicionar mais validações"), JStr("Melhorar documentação da API")]),
    "quality_score" := JInt(FallbackScore),
    "summary" := JStr(VerificationFallbackSummary)]

  const VerifyHead := "Como agente de QA, verifique o resultado do processamento do back-end:\n\nTítulo: "
  const VerifyResultHeading := "\n\nResultado do processamento:\n"
  const VerifyTail := "\n\nResponda em JSON com: requirements_met, issues, improvements, quality_score, summary\n"

  /** The user prompt: the task's title and description and the back-end summary. */
  function VerifyPrompt(taskData: Dict, backResult: Dict, repr: Json -> string): string
  {
    VerifyHead
    + Str(Get(taskData, "title", JStr("Sem título")), repr)
    + "\nDescrição: "
    + Str(Get(taskData, "description", JStr("Sem descrição")), repr)
    + VerifyResultHeading
    + Str(Get(backResult, "summary", JStr("Sem resumo de processamento")), repr)
    + VerifyTail
  }

  /** The prompt hands the back-end summary on to the QA generation. */
  lemma VerifyPromptCarriesBackSummary(taskData: Dict, backResult: Dict, repr: Json -> string)
    ensures Contains(VerifyPrompt(taskData, backResult, repr),
                     Str(Get(backResult, "summary", JStr("Sem resumo de processamento")), repr))
  {
    var summary := Str(Get(backResult, "summary", JStr("Sem resumo de processamento")), repr);
    var pre := VerifyHead
      + Str(Get(taskData, "title", JStr("Sem título")), repr)
      + "\nDescrição: "
      + Str(Get(taskData, "description", JStr("Sem descrição")), repr)
      + VerifyResultHeading;
    ContainsMiddle(pre, summary, VerifyTail);
  }

  /** The generation call of the action. */
  function VerifyRequest(taskData: Dict, backResult: Dict, repr: Json -> string): (r: Request)
    ensures r.temperature == Temperature
    ensures |r.messages| == 2 && r.messages[0].role == "system" && r.messages[1].role == "user"
    ensures r.messages[1].content == VerifyPrompt(taskData, backResult, repr)
  {
    Request([Message("system", CreateAgentPrompt(PromptRole, VerifyTaskText)),
             Message("user", VerifyPrompt(taskData, backResult, repr))], Temperature)
  }

  /** What the generation returned, after extraction. */
  function VerifyGeneration(taskData: Dict, backResult: Dict, env: Env): Extracted
  {
    ExtractResponse(Respond(env, VerifyRequest(taskData, backResult, env.repr)), env.parse)
  }

  /** `_verify_result`: the parsed verification when the generation carried
      one, otherwise the fixed fallback; the quality score and the summary are
      the verification's own, or 5 and the default. A parsed score is passed
      on as it is. "task_data" is read before "back_result", and a parsed
      verification that is not a dict raises. */
  function VerifyResult(task: Dict, env: Env): (r: Outcome<Dict>)
    ensures var taskData := Get(task, "task_data", JObj(map[]));
      !taskData.JObj? ==> r == Raised(NoGetAttribute(taskData))
    ensures var taskData := Get(task, "task_data", JObj(map[]));
      var backResult := Get(task, "back_result", JObj(map[]));
      taskData.JObj? && !backResult.JObj? ==> r == Raised(NoGetAttribute(backResult))
    ensures var taskData := Get(task, "task_data", JObj(map[]));
      var backResult := Get(task, "back_result", JObj(map[]));
      taskData.JObj? && backResult.JObj? ==>
        var generated := VerifyGeneration(taskData.fields, backResult.fields, env);
        var verification := if generated.HasStructuredData() then generated.structuredData.value else JObj(FallbackVerification);
        && (r.Returned? <==> verification.JObj?)
        && (verification.JObj? ==>
              && SuccessIs(r.value, true)
              && "verification_result" in r.value && r.value["verification_result"] == verification
              && "quality_score" in r.value
              && r.value["quality_score"] == Get(verification.fields, "quality_score", JInt(DefaultScore))
              && "summary" in r.value
              && r.value["summary"] == Get(verification.fields, "summary", JStr(VerificationDefaultSummary)))
  {
    var taskData := Get(task, "task_data", JObj(map[]));
    var backResult := Get(task, "back_result", JObj(map[]));
    match AsDict(taskData)
    case Raised(e) => Raised(e)
    case Returned(td) =>
      match AsDict(backResult)
      case Raised(e) => Raised(e)
      case Returned(br) =>
        match ChooseRecord(VerifyGeneration(td, br, env), FallbackVerification)
        case Raised(e) => Raised(e)
        case Returned(verification) =>
          Returned(map["success" := JBool(true), "verification_result" := JObj(verification),
                       "quality_score" := Get(verification, "quality_score", JInt(DefaultScore)),
                       "summary" := Get(verification, "summary", JStr(VerificationDefaultSummary))])
  }

  /** A score the agent chose itself (the fallback's 7, or the default 5 when
      the parsed verification has none) lies in 0..10. */
  lemma {:induction false} ChosenScoreInRange(task: Dict, env: Env)
    requires VerifyResult(task, env).Returned?
    requires var generated := VerifyGeneration(Get(task, "task_data", JObj(map[])).fields,
                                               Get(task, "back_result", JObj(map[])).fields, env);
      generated.HasStructuredData() ==> "quality_score" !in generated.structuredData.value.fields
    ensures var score := VerifyResult(task, env).value["quality_score"];
      score.JInt? && 0 <= score.i <= 10
  {
    var taskData := Get(task, "task_data", JObj(map[]));
    var backResult := Get(task, "back_result", JObj(map[]));
    assert taskData.JObj? && backResult.JObj?;
  }

  /** A parsed score is reported unchanged, even one outside 0..10. */
  lemma {:induction false} ParsedScoreIsNotClamped(task: Dict, env: Env)
    requires VerifyResult(task, env).Returned?
    requires var generated := VerifyGeneration(Get(task, "task_data", JObj(map[])).fields,
                                               Get(task, "back_result", JObj(map[])).fields, env);
      generated.HasStructuredData() && "quality_score" in generated.structuredData.value.fields
    ensures var generated := VerifyGeneration(Get(task, "task_data", JObj(map[])).fields,
                                              Get(task, "back_result", JObj(map[])).fields, env);
      VerifyResult(task, env).value["quality_score"] == generated.structuredData.value.fields["quality_score"]
  {
    var taskData := Get(task, "task_data", JObj(map[]));
    var backResult := Get(task, "back_result", JObj(map[]));
    assert taskData.JObj? && backResult.JObj?;
  }

  // ---------------------------------------------------------------------
  // execute_task

  /** `execute_task`: only "verify_result" is known (a missing action reads as ""). */
  function ExecuteTask(task: Dict, env: Env): (r: Outcome<Dict>)
    ensures var action := Get(task, "action", JStr(""));
      action != JStr("verify_result") ==> r == Returned(UnknownAction(action, env.repr))
    ensures Get(task, "action", JStr("")) == JStr("verify_result") ==> r == VerifyResult(task, env)
  {
    var action := Get(task, "action", JStr(""));
    if action == JStr("verify_result") then VerifyResult(task, env)
    else Returned(UnknownAction(action, env.repr))
  }

  /** A returned result reports failure exactly for an unknown action. */
  lemma {:induction false} ExecuteTaskFailsOnlyOnUnknownAction(task: Dict, env: Env)
    requires ExecuteTask(task, env).Returned?
    ensures SuccessIs(ExecuteTask(task, env).value, false) <==> Get(task, "action", JStr("")) != JStr("verify_result")
    ensures SuccessIs(ExecuteTask(task, env).value, true) <==> Get(task, "action", JStr("")) == JStr("verify_result")
  {
    if Get(task, "action", JStr("")) == JStr("verify_result") {
      assert Get(task, "task_data", JObj(map[])).JObj?;
      assert Get(task, "back_result", JObj(map[])).JObj?;
    }
  }
}
