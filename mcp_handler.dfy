/** `MCPHandler` (src/orchestrator/protocols/mcp_handler.py): builds the
    message list and the role prompt of a generation call, reshapes tool
    definitions and tool calls, and pulls a fenced JSON block out of the
    generated text. */
module McpHandler {
  import opened Values
  import opened Text
  import opened Collaborators

  // ---------------------------------------------------------------------
  // create_context

  /** `history` as `if history:` sees it: None and [] both add nothing. */
  function HistoryOf(history: Option<seq<Message>>): seq<Message>
  {
    if history.Some? then history.value else []
  }

  /** The message list of a generation call: the system prompt first, then
      the history in its original order, then the user message last. */
  function Context(systemPrompt: string, userMessage: string, history: Option<seq<Message>>): (messages: seq<Message>)
    ensures |messages| == 2 + |HistoryOf(history)|
    ensures messages[0] == Message("system", systemPrompt)
    ensures messages[|messages| - 1] == Message("user", userMessage)
    ensures forall k :: 0 <= k < |HistoryOf(history)| ==> messages[k + 1] == HistoryOf(history)[k]
    ensures HistoryOf(history) == [] ==> messages == [Message("system", systemPrompt), Message("user", userMessage)]
  {
    var withSystem := [Message("system", systemPrompt)];
    var withHistory := if history.Some? && history.value != [] then withSystem + history.value else withSystem;
    withHistory + [Message("user", userMessage)]
  }

  /** `create_context`: appends the system message, the history when it is
      non-empty, then the user message. */
  method CreateContext(systemPrompt: string, userMessage: string, history: Option<seq<Message>>)
    returns (messages: seq<Message>)
    ensures messages == Context(systemPrompt, userMessage, history)
  {
    messages := [];
    messages := messages + [Message("system", systemPrompt)];
    assert messages == [Message("system", systemPrompt)];
    if history.Some? && history.value != [] {
      messages := messages + history.value;
    }
    messages := messages + [Message("user", userMessage)];
  }

  // ---------------------------------------------------------------------
  // create_agent_prompt (the definition at line 189, which replaces the one at line 52)

  const PromptIntro := "Você é um agente especializado em "
  const PromptMiddle := " em um sistema multi-agente.\nSua tarefa atual é: "
  const PromptEnd := "\n\n"

  const InstructionsHead := "Como agente de "
  const FrontInstructions := InstructionsHead + "front-end, você deve:\n1. Analisar requisitos de interface do usuário\n2. Projetar componentes visuais e interações\n3. Considerar a experiência do usuário e acessibilidade\n4. Comunicar claramente suas decisões de design\n\nResponda em formato JSON quando possível, incluindo:\n- \"analysis\": sua análise dos requisitos\n- \"components\": componentes de UI propostos\n- \"interactions\": fluxos de interação\n- \"summary\": resumo das suas conclusões\n"
  const BackInstructions := InstructionsHead + "back-end, você deve:\n1. Analisar requisitos técnicos e de dados\n2. Projetar APIs, modelos de dados e lógica de negócios\n3. Considerar segurança, desempenho e escalabilidade\n4. Implementar soluções robustas e testáveis\n\nResponda em formato JSON quando possível, incluindo:\n- \"analysis\": sua análise técnica\n- \"data_models\": modelos de dados propostos\n- \"apis\": endpoints e funcionalidades\n- \"logic\": lógica de negócios principal\n- \"summary\": resumo das suas conclusões\n"
  const QaInstructions := InstructionsHead + "QA, você deve:\n1. Verificar se os requisitos foram atendidos\n2. Identificar possíveis problemas ou bugs\n3. Sugerir melhorias e otimizações\n4. Garantir a qualidade geral da solução\n\nResponda em formato JSON quando possível, incluindo:\n- \"verification\": resultados da verificação\n- \"issues\": problemas encontrados\n- \"improvements\": sugestões de melhoria\n- \"quality_score\": pontuação de qualidade (0-10)\n- \"summary\": resumo das suas conclusões\n"

  predicate IsKnownRole(role: string)
  {
    role == "front-end" || role == "back-end" || role == "qa"
  }

  /** The text every prompt starts with, embedding the role and the task. */
  function BasePrompt(role: string, taskDescription: string): string
  {
    PromptIntro + role + PromptMiddle + taskDescription + PromptEnd
  }

  /** The role-specific instructions appended after the base text. */
  function RoleInstructions(role: string): string
  {
    if role == "front-end" then FrontInstructions
    else if role == "back-end" then BackInstructions
    else if role == "qa" then QaInstructions
    else ""
  }

  function CreateAgentPrompt(role: string, taskDescription: string): (prompt: string)
    ensures |BasePrompt(role, taskDescription)| <= |prompt|
    ensures prompt[..|BasePrompt(role, taskDescription)|] == BasePrompt(role, taskDescription)
    ensures !IsKnownRole(role) ==> prompt == BasePrompt(role, taskDescription)
  {
    BasePrompt(role, taskDescription) + RoleInstructions(role)
  }

  /** Instructions are appended exactly for the three known roles. */
  lemma KnownRoleGetsInstructions(role: string, taskDescription: string)
    ensures IsKnownRole(role) <==> |CreateAgentPrompt(role, taskDescription)| > |BasePrompt(role, taskDescription)|
  {
    assert IsKnownRole(role) ==> |RoleInstructions(role)| >= |InstructionsHead|;
  }

  /** Where the task description sits inside the prompt. */
  function TaskOffset(role: string): nat
  {
    |PromptIntro| + |role| + |PromptMiddle|
  }

  /** The prompt embeds the role and the task description verbatim, at known offsets. */
  lemma PromptEmbedsRoleAndTask(role: string, taskDescription: string)
    ensures var prompt := CreateAgentPrompt(role, taskDescription);
      && |PromptIntro| + |role| <= TaskOffset(role) <= TaskOffset(role) + |taskDescription| <= |prompt|
      && prompt[|PromptIntro|..|PromptIntro| + |role|] == role
      && prompt[TaskOffset(role)..TaskOffset(role) + |taskDescription|] == taskDescription
  {
    SplitAt(PromptIntro, role, PromptMiddle, taskDescription, PromptEnd + RoleInstructions(role));
  }

  lemma SplitAt(intro: string, role: string, middle: string, task: string, rest: string)
    ensures var s := intro + role + middle + task + rest;
      && s[|intro|..|intro| + |role|] == role
      && s[|intro| + |role| + |middle|..|intro| + |role| + |middle| + |task|] == task
  {
    var s := intro + role + middle + task + rest;
    assert s == intro + (role + (middle + (task + rest)));
    assert s[|intro|..] == role + (middle + (task + rest));
    assert s[|intro|..|intro| + |role|] == s[|intro|..][..|role|];
    var m := |intro| + |role| + |middle|;
    assert s[m..] == task + rest;
    assert s[m..m + |task|] == s[m..][..|task|];
  }

  /** For one role, the prompt determines the task description. */
  lemma PromptDeterminesTask(role: string, d1: string, d2: string)
    requires CreateAgentPrompt(role, d1) == CreateAgentPrompt(role, d2)
    ensures d1 == d2
  {
    PromptEmbedsRoleAndTask(role, d1);
    PromptEmbedsRoleAndTask(role, d2);
    assert |CreateAgentPrompt(role, d1)| == TaskOffset(role) + |d1| + |PromptEnd| + |RoleInstructions(role)|;
    assert |CreateAgentPrompt(role, d2)| == TaskOffset(role) + |d2| + |PromptEnd| + |RoleInstructions(role)|;
  }

  // ---------------------------------------------------------------------
  // format_tool_calls

  datatype FunctionSpec = FunctionSpec(name: Json, description: Json, parameters: Json)

  /** `{"type": ..., "function": {"name": ..., "description": ..., "parameters": ...}}` */
  datatype FormattedTool = FormattedTool(kind: string, spec: FunctionSpec)

  method FormatToolCalls(tools: seq<Dict>) returns (formatted: seq<FormattedTool>)
    ensures |formatted| == |tools|
    ensures forall i :: 0 <= i < |tools| ==>
      && formatted[i].kind == "function"
      && formatted[i].spec.name == Get(tools[i], "name", JStr(""))
      && formatted[i].spec.description == Get(tools[i], "description", JStr(""))
      && formatted[i].spec.parameters == Get(tools[i], "parameters", JObj(map[]))
  {
    formatted := [];
    var i := 0;
    while i < |tools|
      invariant 0 <= i <= |tools|
      invariant |formatted| == i
      invariant forall k :: 0 <= k < i ==>
        && formatted[k].kind == "function"
        && formatted[k].spec.name == Get(tools[k], "name", JStr(""))
        && formatted[k].spec.description == Get(tools[k], "description", JStr(""))
        && formatted[k].spec.parameters == Get(tools[k], "parameters", JObj(map[]))
    {
      var tool := tools[i];
      var formattedTool := FormattedTool("function", FunctionSpec(
        Get(tool, "name", JStr("")),
        Get(tool, "description", JStr("")),
        Get(tool, "parameters", JObj(map[]))));
      formatted := formatted + [formattedTool];
      i := i + 1;
    }
  }

  // ---------------------------------------------------------------------
  // parse_response

  /** `response.choices[k].message`: its `content` attribute, and the mapping
      that `message.get(...)` reads. */
  datatype ChatMessage = ChatMessage(content: Json, fields: Dict)
  datatype Completion = Completion(choices: seq<ChatMessage>)

  datatype ToolCall = ToolCall(name: Json, arguments: Json)

  datatype ParsedResponse =
    | Parsed(content: Json, hasToolCalls: bool, toolCalls: seq<ToolCall>)
    | ParseFailed(failureText: string, error: string)  // {"content": "Erro ao processar resposta", "error": str(e)}

  const ParseFailureText := "Erro ao processar resposta"

  /** `len(tool_calls)` and `for tool_call in tool_calls`. Iterating a str
      yields its one-character strings; iterating a dict yields its keys,
      all strings, on each of which `.get` fails alike, so they stand here as "". */
  function ToolCallItems(toolCalls: Json): (r: Outcome<seq<Json>>)
    ensures toolCalls.JArr? ==> r == Returned(toolCalls.items)
    ensures r.Raised? <==> !(toolCalls.JArr? || toolCalls.JStr? || toolCalls.JObj?)
  {
    match toolCalls
    case JArr(items) => Returned(items)
    case JStr(s) => Returned(seq(|s|, i requires 0 <= i < |s| => JStr([s[i]])))
    case JObj(m) => Returned(seq(|m|, i => JStr("")))
    case _ => Raised("object of type '" + TypeName(toolCalls) + "' has no len()")
  }

  const FunctionKey := "function"
  const ArgumentsKey := "arguments"
  const NameKey := "name"
  /** The arguments of a call that gives none: an empty JSON object. */
  const NoArguments := JStr("{}")

  /** One tool call: None when its arguments do not parse (the
      JSONDecodeError is logged and the call skipped); Raised for what the
      inner handler does not catch. */
  function DecodeCall(item: Json, parse: string -> Option<Json>): Outcome<Option<ToolCall>>
  {
    match AsDict(item)
    case Raised(e) => Raised(e)
    case Returned(call) =>
      var fn := Get(call, FunctionKey, JObj(map[]));
      match AsDict(fn)
      case Raised(e) => Raised(e)
      case Returned(f) =>
        var args := Get(f, ArgumentsKey, NoArguments);
        if !args.JStr? then Raised("the JSON object must be str, bytes or bytearray, not " + TypeName(args))
        else match parse(args.s)
          case None => Returned(None)
          case Some(v) => Returned(Some(ToolCall(Get(f, NameKey, JStr("")), v)))
  }

  /** The loop over the tool calls: the decoded calls in order, or the first
      exception. */
  function DecodeCalls(items: seq<Json>, parse: string -> Option<Json>): Outcome<seq<ToolCall>>
  {
    if items == [] then Returned([])
    else match DecodeCalls(items[..|items| - 1], parse)
      case Raised(e) => Raised(e)
      case Returned(calls) =>
        match DecodeCall(items[|items| - 1], parse)
        case Raised(e) => Raised(e)
        case Returned(None) => Returned(calls)
        case Returned(Some(c)) => Returned(calls + [c])
  }

  /** A tool call whose FunctionKey is a dict and whose ArgumentsKey (if any) is a string. */
  predicate WellFormedCall(item: Json)
  {
    && item.JObj?
    && Get(item.fields, FunctionKey, JObj(map[])).JObj?
    && Get(Get(item.fields, FunctionKey, JObj(map[])).fields, ArgumentsKey, NoArguments).JStr?
  }

  function CallArguments(item: Json): string
    requires WellFormedCall(item)
  {
    Get(Get(item.fields, FunctionKey, JObj(map[])).fields, ArgumentsKey, NoArguments).s
  }

  function CallName(item: Json): Json
    requires WellFormedCall(item)
  {
    Get(Get(item.fields, FunctionKey, JObj(map[])).fields, NameKey, JStr(""))
  }

  /** The calls that survive are those whose arguments parse, in their
      original order; any ill-formed call makes the whole loop raise. */
  lemma {:induction false} DecodeCallsFilters(items: seq<Json>, parse: string -> Option<Json>)
    ensures DecodeCalls(items, parse).Returned? <==> forall k :: 0 <= k < |items| ==> WellFormedCall(items[k])
    ensures DecodeCalls(items, parse).Returned? ==>
      DecodeCalls(items, parse).value == KeptCalls(items, parse)
  {
    if items != [] {
      var init := items[..|items| - 1];
      var last := items[|items| - 1];
      DecodeCallsFilters(init, parse);
      DecodeCallCases(last, parse);
      assert forall k :: 0 <= k < |init| ==> init[k] == items[k];
      assert (forall k :: 0 <= k < |items| ==> WellFormedCall(items[k]))
             <==> (forall k :: 0 <= k < |init| ==> WellFormedCall(init[k])) && WellFormedCall(last);
      match DecodeCalls(init, parse)
      case Raised(e) =>
        assert DecodeCalls(items, parse) == Raised(e);
      case Returned(calls) =>
        if !WellFormedCall(last) {
          assert DecodeCalls(items, parse).Raised?;
        } else {
          KeptCallsSnoc(init, last, parse);
          assert init + [last] == items;
        }
    }
  }

  /** One call decodes without raising exactly when it is well formed, and
      then it is kept exactly when its arguments parse. */
  lemma DecodeCallCases(item: Json, parse: string -> Option<Json>)
    ensures DecodeCall(item, parse).Returned? <==> WellFormedCall(item)
    ensures WellFormedCall(item) ==>
      DecodeCall(item, parse).value == (match parse(CallArguments(item))
                                        case None => None
                                        case Some(v) => Some(ToolCall(CallName(item), v)))
  {
  }

  /** The independent reading of the loop: keep, in order, each call whose
      arguments parse, with its name and parsed arguments. */
  function KeptCalls(items: seq<Json>, parse: string -> Option<Json>): seq<ToolCall>
    requires forall k :: 0 <= k < |items| ==> WellFormedCall(items[k])
  {
    if items == [] then []
    else
      var rest := KeptCalls(items[1..], parse);
      match parse(CallArguments(items[0]))
      case None => rest
      case Some(v) => [ToolCall(CallName(items[0]), v)] + rest
  }

  lemma {:induction false} KeptCallsSnoc(items: seq<Json>, last: Json, parse: string -> Option<Json>)
    requires forall k :: 0 <= k < |items| ==> WellFormedCall(items[k])
    requires WellFormedCall(last)
    ensures forall k :: 0 <= k < |items + [last]| ==> WellFormedCall((items + [last])[k])
    ensures KeptCalls(items + [last], parse) ==
      KeptCalls(items, parse) + (match parse(CallArguments(last))
                                 case None => []
                                 case Some(v) => [ToolCall(CallName(last), v)])
  {
    if items != [] {
      assert (items + [last])[1..] == items[1..] + [last];
      KeptCallsSnoc(items[1..], last, parse);
    }
  }

  /** When every call's arguments parse, none is dropped and names are kept in order. */
  lemma {:induction false} KeptCallsAllParse(items: seq<Json>, parse: string -> Option<Json>)
    requires forall k :: 0 <= k < |items| ==> WellFormedCall(items[k])
    requires forall k :: 0 <= k < |items| ==> parse(CallArguments(items[k])).Some?
    ensures |KeptCalls(items, parse)| == |items|
    ensures forall k :: 0 <= k < |items| ==>
      KeptCalls(items, parse)[k] == ToolCall(CallName(items[k]), parse(CallArguments(items[k])).value)
  {
    if items != [] {
      KeptCallsAllParse(items[1..], parse);
    }
  }

  /** Dropping never adds: at most one kept call per input call. */
  lemma {:induction false} KeptCallsLength(items: seq<Json>, parse: string -> Option<Json>)
    requires forall k :: 0 <= k < |items| ==> WellFormedCall(items[k])
    ensures |KeptCalls(items, parse)| <= |items|
    ensures (exists k :: 0 <= k < |items| && parse(CallArguments(items[k])).None?) ==> |KeptCalls(items, parse)| < |items|
  {
    if items != [] {
      KeptCallsLength(items[1..], parse);
      if exists k :: 0 <= k < |items| && parse(CallArguments(items[k])).None? {
        var k :| 0 <= k < |items| && parse(CallArguments(items[k])).None?;
        if k > 0 {
          assert items[1..][k - 1] == items[k];
        }
      }
    }
  }

  lemma {:induction false} DecodeCallsRaisedStays(items: seq<Json>, i: nat, parse: string -> Option<Json>)
    requires i <= |items|
    requires DecodeCalls(items[..i], parse).Raised?
    ensures DecodeCalls(items, parse) == DecodeCalls(items[..i], parse)
    decreases |items| - i
  {
    if i < |items| {
      assert items[..i + 1][..i] == items[..i];
      DecodeCallsRaisedStays(items, i + 1, parse);
    } else {
      assert items[..i] == items;
    }
  }

  method ParseResponse(response: Completion, parse: string -> Option<Json>) returns (result: ParsedResponse)
    ensures |response.choices| == 0 ==> result == ParseFailed(ParseFailureText, "list index out of range")
    ensures |response.choices| > 0 ==>
      var message := response.choices[0];
      match ToolCallItems(Get(message.fields, "tool_calls", JArr([])))
      case Raised(e) => result == ParseFailed(ParseFailureText, e)
      case Returned(items) =>
        if items == [] then result == Parsed(message.content, false, [])
        else match DecodeCalls(items, parse)
          case Raised(e) => result == ParseFailed(ParseFailureText, e)
          case Returned(calls) => result == Parsed(message.content, true, calls)
  {
    if |response.choices| == 0 {
      return ParseFailed(ParseFailureText, "list index out of range");
    }
    var content := response.choices[0].content;
    var toolCalls := Get(response.choices[0].fields, "tool_calls", JArr([]));
    var itemsOutcome := ToolCallItems(toolCalls);
    if itemsOutcome.Raised? {
      return ParseFailed(ParseFailureText, itemsOutcome.message);
    }
    var items := itemsOutcome.value;
    var hasToolCalls := |items| > 0;
    var calls: seq<ToolCall> := [];
    if hasToolCalls {
      var i := 0;
      while i < |items|
        invariant 0 <= i <= |items|
        invariant DecodeCalls(items[..i], parse) == Returned(calls)
      {
        assert items[..i + 1][..i] == items[..i];
        var decoded := DecodeCall(items[i], parse);
        if decoded.Raised? {
          assert DecodeCalls(items[..i + 1], parse) == Raised(decoded.message);
          DecodeCallsRaisedStays(items, i + 1, parse);
          return ParseFailed(ParseFailureText, decoded.message);
        }
        if decoded.value.Some? {
          calls := calls + [decoded.value.value];
        }
        i := i + 1;
      }
      assert items[..i] == items;
    }
    result := Parsed(content, hasToolCalls, calls);
  }

  // ---------------------------------------------------------------------
  // extract_response

  const JsonMarker := "```json"
  const Fence := "```"

  /** The processed response: the content, and the parsed object when a
      fenced JSON block was found and parsed (`has_structured_data`). */
  datatype Extracted = Extracted(content: Json, structuredData: Option<Json>)
  {
    predicate HasStructuredData() { structuredData.Some? }
  }

  /** The dictionary `extract_response` returns. */
  function ExtractedDict(e: Extracted): (d: Dict)
    ensures "content" in d && "has_structured_data" in d
    ensures d["content"] == e.content && d["has_structured_data"] == JBool(e.HasStructuredData())
    ensures "structured_data" in d <==> e.HasStructuredData()
  {
    if e.structuredData.Some? then
      map["content" := e.content, "structured_data" := e.structuredData.value, "has_structured_data" := JBool(true)]
    else
      map["content" := e.content, "has_structured_data" := JBool(false)]
  }

  /** The structured data of a string content: the parse of the stripped
      text between the first "```json" and the next "```" after it. */
  function StructuredData(c: string, parse: string -> Option<Json>): Option<Json>
  {
    var jsonStart := Find(c, JsonMarker, 0);
    if jsonStart == -1 then None
    else
      var jsonEnd := Find(c, Fence, jsonStart + 7);
      if jsonEnd == -1 then None else parse(Strip(c[jsonStart + 7..jsonEnd]))
  }

  /** The first "```json" of `c` starts at `i` and the first "```" after
      it at `j`. */
  predicate FirstBlock(c: string, i: nat, j: nat)
  {
    && OccursAt(c, JsonMarker, i) && (forall k :: 0 <= k < i ==> !OccursAt(c, JsonMarker, k))
    && i + |JsonMarker| <= j && OccursAt(c, Fence, j)
    && (forall k :: i + |JsonMarker| <= k < j ==> !OccursAt(c, Fence, k))
  }

  /** The two searches of `extract_response` find exactly the first block. */
  lemma FirstBlockFound(c: string, i: nat, j: nat)
    requires Find(c, JsonMarker, 0) == i && Find(c, Fence, i + |JsonMarker|) == j
    ensures FirstBlock(c, i, j)
  {
  }

  /** Structured data only ever comes from the first block, and is the parse
      of its stripped text. */
  lemma StructuredDataLocated(c: string, parse: string -> Option<Json>)
    ensures StructuredData(c, parse).Some? ==>
      exists i: nat, j: nat :: FirstBlock(c, i, j) && parse(Strip(c[i + |JsonMarker|..j])) == StructuredData(c, parse)
  {
    assert |JsonMarker| == 7;
    var jsonStart := Find(c, JsonMarker, 0);
    if jsonStart != -1 {
      var jsonEnd := Find(c, Fence, jsonStart + 7);
      if jsonEnd != -1 {
        FirstBlockFound(c, jsonStart, jsonEnd);
      }
    }
  }

  /** Conversely, the first block yields the parse of its stripped text. */
  lemma StructuredDataOfBlock(c: string, i: nat, j: nat, parse: string -> Option<Json>)
    requires FirstBlock(c, i, j)
    ensures StructuredData(c, parse) == parse(Strip(c[i + |JsonMarker|..j]))
  {
    assert |JsonMarker| == 7;
    FindIs(c, JsonMarker, 0, i);
    FindIs(c, Fence, i + 7, j);
    StructuredDataAt(c, i, c[i + 7..j], parse);
  }

  /** `extract_response`. A content that is not a string makes `find` raise
      inside the inner handler, which falls through to the plain answer. */
  function ExtractResponse(modelResponse: Dict, parse: string -> Option<Json>): (r: Extracted)
    ensures r.content == Get(modelResponse, "content", JStr(""))
    ensures r.content.JStr? ==> r.structuredData == StructuredData(r.content.s, parse)
    ensures !r.content.JStr? ==> r.structuredData.None?
    ensures r.HasStructuredData() <==> r.content.JStr? && StructuredData(r.content.s, parse).Some?
  {
    var content := Get(modelResponse, "content", JStr(""));
    if content.JStr? then Extracted(content, StructuredData(content.s, parse)) else Extracted(content, None)
  }

  predicate NoBacktick(s: string)
  {
    forall k :: 0 <= k < |s| ==> s[k] != '`'
  }

  /** No occurrence of a backtick-led pattern starts where the text has no backtick. */
  lemma {:induction false} NoOccurrenceWithoutBacktick(c: string, pat: string, lo: int, hi: int)
    requires 0 <= lo <= hi <= |c|
    requires |pat| > 0 && pat[0] == '`'
    requires forall k :: lo <= k < hi ==> c[k] != '`'
    ensures forall j :: lo <= j < hi ==> !OccursAt(c, pat, j)
  {
    forall j | lo <= j < hi ensures !OccursAt(c, pat, j) {
      if j + |pat| <= |c| {
        assert c[j..j + |pat|][0] == c[j] != pat[0];
      }
    }
  }

  /** Find returns `at` when the pattern occurs there and nowhere between `from` and `at`. */
  lemma FindIs(c: string, pat: string, from: nat, at: nat)
    requires from <= at && OccursAt(c, pat, at)
    requires forall j :: from <= j < at ==> !OccursAt(c, pat, j)
    ensures Find(c, pat, from) == at
  {
  }

  /** The structured data once both searches are known to succeed. */
  lemma StructuredDataAt(c: string, i: nat, body: string, parse: string -> Option<Json>)
    requires Find(c, JsonMarker, 0) == i && Find(c, Fence, i + 7) == i + 7 + |body|
    requires i + 7 + |body| <= |c| && c[i + 7..i + 7 + |body|] == body
    ensures StructuredData(c, parse) == parse(Strip(body))
  {
    assert |JsonMarker| == 7;
    BlockAt(c, JsonMarker, Fence, i, body);
  }

  /** The block between two patterns once both searches are known to succeed. */
  lemma BlockAt(c: string, open: string, close: string, i: nat, body: string)
    requires Find(c, open, 0) == i && Find(c, close, i + |open|) == i + |open| + |body|
    requires i + |open| + |body| <= |c| && c[i + |open|..i + |open| + |body|] == body
    ensures var start := Find(c, open, 0);
      var end := Find(c, close, start + |open|);
      start != -1 && end != -1 && start + |open| <= end <= |c| && c[start + |open|..end] == body
  {
  }

  /** The marker search lands right after a backtick-free prefix. */
  lemma MarkerFound(pre: string, body: string, post: string)
    requires NoBacktick(pre)
    ensures Find(pre + JsonMarker + body + Fence + post, JsonMarker, 0) == |pre|
  {
    var c := pre + JsonMarker + body + Fence + post;
    assert c == pre + (JsonMarker + (body + Fence + post));
    assert c[|pre|..|pre| + 7] == JsonMarker;
    NoOccurrenceWithoutBacktick(c, JsonMarker, 0, |pre|);
    FindIs(c, JsonMarker, 0, |pre|);
  }

  /** The fence search from after the marker lands right after a backtick-free body. */
  lemma FenceFound(pre: string, body: string, post: string)
    requires NoBacktick(body)
    ensures Find(pre + JsonMarker + body + Fence + post, Fence, |pre| + 7) == |pre| + 7 + |body|
    ensures (pre + JsonMarker + body + Fence + post)[|pre| + 7..|pre| + 7 + |body|] == body
  {
    var c := pre + JsonMarker + body + Fence + post;
    var start := |pre| + 7;
    var end := start + |body|;
    assert c == (pre + JsonMarker + body) + (Fence + post);
    assert c[end..end + 3] == Fence;
    assert forall k :: start <= k < end ==> c[k] == body[k - start];
    NoOccurrenceWithoutBacktick(c, Fence, start, end);
    FindIs(c, Fence, start, end);
    assert c[start..end] == body;
  }

  /** Round trip: a text holding one fenced JSON block yields exactly the
      parse of the (stripped) text between the fences. */
  lemma FencedBlockIsExtracted(pre: string, body: string, post: string, parse: string -> Option<Json>)
    requires NoBacktick(pre) && NoBacktick(body)
    ensures StructuredData(pre + JsonMarker + body + Fence + post, parse) == parse(Strip(body))
  {
    var c := pre + JsonMarker + body + Fence + post;
    MarkerFound(pre, body, post);
    FenceFound(pre, body, post);
    StructuredDataAt(c, |pre|, body, parse);
  }

  /** The same text with its closing fence removed yields no structured data. */
  lemma UnclosedBlockIsPlainText(pre: string, body: string, parse: string -> Option<Json>)
    requires NoBacktick(pre) && NoBacktick(body)
    ensures !ExtractResponse(map["content" := JStr(pre + JsonMarker + body)], parse).HasStructuredData()
  {
    UnclosedSearches(pre, body);
    assert StructuredData(pre + JsonMarker + body, parse).None?;
  }

  /** In such a text the marker is found right after the prefix, and no
      closing fence after it. */
  lemma {:induction false} UnclosedSearches(pre: string, body: string)
    requires NoBacktick(pre) && NoBacktick(body)
    ensures var c := pre + JsonMarker + body;
      Find(c, JsonMarker, 0) == |pre| && Find(c, Fence, |pre| + 7) == -1
  {
    var c := pre + JsonMarker + body;
    MarkerAfter(pre, JsonMarker + body);
    assert c == pre + (JsonMarker + body);
    assert forall k :: |pre| + 7 <= k < |c| ==> c[k] == body[k - |pre| - 7];
    NoFenceAfter(c, |pre| + 7);
  }

  /** The marker search finds a marker that directly follows a
      backtick-free prefix. */
  lemma {:induction false} MarkerAfter(pre: string, rest: string)
    requires NoBacktick(pre) && |JsonMarker| <= |rest| && rest[..|JsonMarker|] == JsonMarker
    ensures Find(pre + rest, JsonMarker, 0) == |pre|
  {
    var c := pre + rest;
    assert c[|pre|..|pre| + 7] == rest[..7];
    assert forall k :: 0 <= k < |pre| ==> c[k] == pre[k];
    NoOccurrenceWithoutBacktick(c, JsonMarker, 0, |pre|);
    FindIs(c, JsonMarker, 0, |pre|);
  }

  /** No fence is found in a backtick-free tail. */
  lemma {:induction false} NoFenceAfter(c: string, from: nat)
    requires from <= |c| && forall k :: from <= k < |c| ==> c[k] != '`'
    ensures Find(c, Fence, from) == -1
  {
    NoOccurrenceWithoutBacktick(c, Fence, from, |c|);
  }

  /** A text without the marker, or whose content is missing, is plain text. */
  lemma NoMarkerIsPlainText(modelResponse: Dict, parse: string -> Option<Json>)
    requires Get(modelResponse, "content", JStr("")).JStr? ==> !Contains(Get(modelResponse, "content", JStr("")).s, JsonMarker)
    ensures !ExtractResponse(modelResponse, parse).HasStructuredData()
  {
  }

  /** A JSON text on its own lines comes back from `strip` without the line breaks. */
  lemma {:induction false} StripDropsLineBreaks(m: string)
    requires m != [] && !IsSpace(m[0]) && !IsSpace(m[|m| - 1])
    ensures Strip("\n" + m + "\n") == m
  {
    var s := "\n" + m + "\n";
    assert s[0] == '\n' && s[1] == m[0];
    assert SpanLeft(s, 1) == 1;
    assert SpanLeft(s, 0) == 1;
    assert s[|s| - 1] == '\n' && s[|s| - 2] == m[|m| - 1];
    assert SpanRight(s, 1, |s| - 1) == |s| - 1;
    assert SpanRight(s, 1, |s|) == |s| - 1;
    assert s[1..|s| - 1] == m;
  }

  /** The two example texts, spelled as marker, body and fence. */
  lemma ExampleTexts(body: string)
    requires body == "\n" + "{\"a\":1}" + "\n"
    ensures "" + JsonMarker + body + Fence + "" == "```json\n{\"a\":1}\n```"
    ensures "" + JsonMarker + body == "```json\n{\"a\":1}\n"
  {
  }

  /** The worked example: a block holding {"a":1} is extracted; without its
      closing fence it is not. */
  lemma ExampleBlock(parse: string -> Option<Json>)
    requires parse("{\"a\":1}") == Some(JObj(map["a" := JInt(1)]))
    ensures ExtractResponse(map["content" := JStr("```json\n{\"a\":1}\n```")], parse).structuredData
            == Some(JObj(map["a" := JInt(1)]))
    ensures !ExtractResponse(map["content" := JStr("```json\n{\"a\":1}\n")], parse).HasStructuredData()
  {
    var body := "\n" + "{\"a\":1}" + "\n";
    assert NoBacktick(body);
    ExampleTexts(body);
    StripDropsLineBreaks("{\"a\":1}");
    FencedBlockIsExtracted("", body, "", parse);
    UnclosedBlockIsPlainText("", body, parse);
  }
}
