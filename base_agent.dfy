/** `BaseAgent` (src/core/base_agent.py) and the pieces its three role
    agents share: the append-only message memory, the message-handling
    generation call, and the unknown-action failure. */
module BaseAgents {
  import opened Values
  import opened Collaborators
  import opened McpHandler

  /** An agent's name and role, and the messages it has received. */
  class BaseAgent {
    const name: string
    const role: string
    var memory: seq<Dict>

    /** A new agent starts with an empty memory. */
    constructor(name: string, role: string)
      ensures this.name == name && this.role == role
      ensures memory == []
    {
      this.name := name;
      this.role := role;
      memory := [];
    }

    /** `add_to_memory`: the message goes at the end; earlier entries stay. */
    method AddToMemory(message: Dict)
      modifies this
      ensures memory == old(memory) + [message]
    {
      memory := memory + [message];
    }

    /** `get_memory` */
    function GetMemory(): (m: seq<Dict>)
      reads this
      ensures m == memory
    {
      memory
    }

    /** `clear_memory` */
    method ClearMemory()
      modifies this
      ensures memory == []
    {
      memory := [];
    }
  }

  /** The parameters in which the three `process_message` implementations
      differ: the prompt role, the task text used when the content has no
      "description", and the generation temperature. */
  datatype Profile = Profile(promptRole: string, defaultDescription: string, temperature: real)

  /** A dictionary with a boolean "success" entry set to `b`. */
  predicate SuccessIs(d: Dict, b: bool)
  {
    "success" in d && d["success"] == JBool(b)
  }

  /** The text of the unknown-action failure. */
  function UnknownActionText(action: Json, repr: Json -> string): string
  {
    "Ação desconhecida: " + Str(action, repr)
  }

  /** `{"success": False, "error": f"Ação desconhecida: {action}"}` */
  function UnknownAction(action: Json, repr: Json -> string): (r: Dict)
    ensures SuccessIs(r, false)
    ensures "error" in r && r["error"] == JStr(UnknownActionText(action, repr))
  {
    map["success" := JBool(false), "error" := JStr(UnknownActionText(action, repr))]
  }

  /** The generation request `process_message` sends: the role prompt for the
      content's "description" (or the default) as system message and the
      rendered content as user message. Calling `.get` on a content that is
      not a dict raises. */
  function MessageRequest(message: Dict, profile: Profile, repr: Json -> string): (r: Outcome<Request>)
    ensures r.Raised? <==> !Get(message, "content", JObj(map[])).JObj?
    ensures r.Returned? ==>
      var content := Get(message, "content", JObj(map[]));
      var description := Get(content.fields, "description", JStr(profile.defaultDescription));
      && r.value.temperature == profile.temperature
      && r.value.messages == [Message("system", CreateAgentPrompt(profile.promptRole, Str(description, repr))),
                              Message("user", Str(content, repr))]
  {
    var content := Get(message, "content", JObj(map[]));
    match AsDict(content)
    case Raised(e) => Raised(e)
    case Returned(c) =>
      var description := Get(c, "description", JStr(profile.defaultDescription));
      var prompt := CreateAgentPrompt(profile.promptRole, Str(description, repr));
      Returned(Request(Context(prompt, Str(content, repr), None), profile.temperature))
  }

  /** The reply of `process_message`: success, the processed generation, and
      the agent's name; or the exception raised while building the request. */
  function MessageReply(agentName: string, message: Dict, profile: Profile, env: Env): (r: Outcome<Dict>)
    ensures r.Raised? <==> MessageRequest(message, profile, env.repr).Raised?
    ensures r.Returned? ==>
      && SuccessIs(r.value, true)
      && "agent" in r.value && r.value["agent"] == JStr(agentName)
      && "response" in r.value
      && r.value["response"]
         == JObj(ExtractedDict(ExtractResponse(Respond(env, MessageRequest(message, profile, env.repr).value), env.parse)))
  {
    match MessageRequest(message, profile, env.repr)
    case Raised(e) => Raised(e)
    case Returned(request) =>
      var processed := ExtractResponse(Respond(env, request), env.parse);
      Returned(map["success" := JBool(true), "response" := JObj(ExtractedDict(processed)), "agent" := JStr(agentName)])
  }

  /** The record an action works with: the parsed block when the generation
      carried one, the action's fallback otherwise. The action then calls
      `.get` on it, which raises when the parsed block is not a dict. */
  function ChooseRecord(processed: Extracted, fallback: Dict): (r: Outcome<Dict>)
    ensures !processed.HasStructuredData() ==> r == Returned(fallback)
    ensures processed.HasStructuredData() ==> r == AsDict(processed.structuredData.value)
  {
    if processed.HasStructuredData() then AsDict(processed.structuredData.value) else Returned(fallback)
  }

  /** The task description written into the system prompt is the content's
      "description" when present, otherwise the profile's default. */
  lemma {:induction false} MessagePromptCarriesDescription(message: Dict, profile: Profile, repr: Json -> string)
    requires Get(message, "content", JObj(map[])).JObj?
    ensures var r := MessageRequest(message, profile, repr);
      var fields := Get(message, "content", JObj(map[])).fields;
      var description := if "description" in fields then Str(fields["description"], repr) else profile.defaultDescription;
      && r.Returned?
      && r.value.messages[0].role == "system"
      && PromptOf(r.value.messages[0].content, profile.promptRole, description)
  {
    var fields := Get(message, "content", JObj(map[])).fields;
    var description := if "description" in fields then Str(fields["description"], repr) else profile.defaultDescription;
    assert description == Str(Get(fields, "description", JStr(profile.defaultDescription)), repr);
    var r := MessageRequest(message, profile, repr);
    assert r.Returned? && r.value.messages[0] == Message("system", CreateAgentPrompt(profile.promptRole, description));
    RolePromptIsPromptOf(profile.promptRole, description);
  }

  /** A role prompt carries its task at the task offset. */
  lemma RolePromptIsPromptOf(role: string, task: string)
    ensures PromptOf(CreateAgentPrompt(role, task), role, task)
  {
    PromptEmbedsRoleAndTask(role, task);
  }

  /** `prompt` is a role prompt for `role` carrying `task` at its task offset. */
  predicate PromptOf(prompt: string, role: string, task: string)
  {
    && TaskOffset(role) + |task| <= |prompt|
    && prompt[TaskOffset(role)..TaskOffset(role) + |task|] == task
  }
}
