/** The client of the OpenAI-compatible endpoint (`backend/app/core/regolo_service.py`):
    the request parameters it builds, the message list of the
    function-calling path, and the shapes it returns. The endpoint itself is
    a parameter `complete` (or `embedEndpoint`) that answers a request. */
module Regolo {
  import opened Wrappers
  import opened Records
  import Config

  /** A message dictionary (`{"role": ..., "content": ...}` and any other key). */
  type Dict = map<string, Value>

  function RoleMessage(role: string, content: string): Dict {
    map["role" := Str(role), "content" := Str(content)]
  }

  /** The model names the service reads from the settings. */
  datatype Service = Service(model: string, embeddingModel: string)

  function ServiceOf(s: Config.Settings): (r: Service)
    ensures r.model == s.regoloModel && r.embeddingModel == s.regoloEmbeddingModel
  {
    Service(s.regoloModel, s.regoloEmbeddingModel)
  }

  /** A value of the `params` dictionary. The temperature is kept in
      hundredths. */
  datatype Param =
    | Model(name: string)
    | Messages(list: seq<Dict>)
    | Temperature(hundredths: int)
    | MaxTokens(n: int)
    | Tools(specs: seq<Dict>)
    | ToolChoice(choice: string)

  const DefaultTemperature: int := 70
  const DefaultMaxTokens: int := 2048
  const DefaultToolChoice: string := "required"

  /** A tool call as the endpoint returns it. */
  datatype RawToolCall = RawToolCall(id: string, kind: string, name: string, arguments: string)

  /** The first choice's message: its content and its tool calls (`None` or a list). */
  datatype Assistant = Assistant(content: Option<string>, toolCalls: Option<seq<RawToolCall>>)

  /** The endpoint: the parameters and the `stream` flag of a request, and its answer. */
  type Endpoint = (map<string, Param>, bool) -> Result<Assistant, string>

  /** `if tools:`: both `None` and `[]` are false. */
  predicate HasTools(tools: Option<seq<Dict>>) {
    tools.Some? && tools.value != []
  }

  /** The four keys every request carries. */
  predicate BaseParams(params: map<string, Param>, service: Service, messages: seq<Dict>, temperature: int, maxTokens: int) {
    "model" in params && params["model"] == Model(service.model)
    && "messages" in params && params["messages"] == Messages(messages)
    && "temperature" in params && params["temperature"] == Temperature(temperature)
    && "max_tokens" in params && params["max_tokens"] == MaxTokens(maxTokens)
  }

  /** The `params` dictionary of `chat_completion`: the four base keys, and
      `tools` with `tool_choice` exactly when there are tools. */
  method BuildParams(service: Service, messages: seq<Dict>, tools: Option<seq<Dict>>, toolChoice: string,
                     temperature: int, maxTokens: int)
    returns (params: map<string, Param>)
    ensures BaseParams(params, service, messages, temperature, maxTokens)
    ensures forall key :: key in params <==>
      key in {"model", "messages", "temperature", "max_tokens"} || (HasTools(tools) && key in {"tools", "tool_choice"})
    ensures HasTools(tools) ==> params["tools"] == Tools(tools.value) && params["tool_choice"] == ToolChoice(toolChoice)
  {
    params := map["model" := Model(service.model), "messages" := Messages(messages),
                  "temperature" := Temperature(temperature), "max_tokens" := MaxTokens(maxTokens)];
    if tools.Some? && tools.value != [] {
      params := params["tools" := Tools(tools.value)];
      params := params["tool_choice" := ToolChoice(toolChoice)];
    }
  }

  /** `chat_completion`: one request with those parameters; an endpoint
      failure is re-raised. */
  method ChatCompletion(service: Service, complete: Endpoint, messages: seq<Dict>, tools: Option<seq<Dict>>,
                        toolChoice: string, stream: bool, temperature: int, maxTokens: int)
    returns (r: Result<Assistant, string>, params: map<string, Param>)
    ensures BaseParams(params, service, messages, temperature, maxTokens)
    ensures ("tools" in params <==> HasTools(tools)) && ("tool_choice" in params <==> HasTools(tools))
    ensures HasTools(tools) ==> params["tools"] == Tools(tools.value) && params["tool_choice"] == ToolChoice(toolChoice)
    ensures r == complete(params, stream)
  {
    params := BuildParams(service, messages, tools, toolChoice, temperature, maxTokens);
    r := complete(params, stream);
  }

  // ---------------------------------------------------- function calling

  /** A tool call as the service returns it: `{"id", "type", "function": {"name", "arguments"}}`. */
  datatype FunctionCall = FunctionCall(id: string, kind: string, name: string, arguments: string)

  /** The result dictionary: `{"content": ..., "tool_calls": ...}`. */
  datatype CallResult = CallResult(content: Option<string>, toolCalls: Option<seq<FunctionCall>>)

  function Converted(calls: seq<RawToolCall>): (r: seq<FunctionCall>)
    ensures |r| == |calls|
    ensures forall k | 0 <= k < |calls| ::
      r[k] == FunctionCall(calls[k].id, calls[k].kind, calls[k].name, calls[k].arguments)
  {
    seq(|calls|, k requires 0 <= k < |calls| => FunctionCall(calls[k].id, calls[k].kind, calls[k].name, calls[k].arguments))
  }

  /** The result's shape: with tool calls, no content and the calls, each
      field kept and in order; without, the content and no calls. */
  function Shape(m: Assistant): (r: CallResult)
    ensures r.toolCalls.Some? <==> m.toolCalls.Some? && m.toolCalls.value != []
    ensures r.toolCalls.Some? ==> r.content.None? && r.toolCalls.value == Converted(m.toolCalls.value)
    ensures r.toolCalls.None? ==> r.content == m.content
  {
    if m.toolCalls.Some? && m.toolCalls.value != [] then CallResult(None, Some(Converted(m.toolCalls.value)))
    else CallResult(m.content, None)
  }

  /** The caller's `messages` list, which the function-calling path extends in place. */
  class MessageList {
    var items: seq<Dict>

    constructor(items0: seq<Dict>)
      ensures items == items0
    {
      items := items0;
    }

    /** `list.extend`. */
    method Extend(more: seq<Dict>)
      modifies this
      ensures items == old(items) + more
    {
      items := items + more;
    }
  }

  /** `if system_prompt:`: `None` and `""` both leave the system message out. */
  function WithSystem(systemPrompt: Option<string>, messages: seq<Dict>): (r: seq<Dict>)
    ensures systemPrompt.Some? && systemPrompt.value != [] ==> r == [RoleMessage("system", systemPrompt.value)] + messages
    ensures !(systemPrompt.Some? && systemPrompt.value != []) ==> r == messages
  {
    if systemPrompt.Some? && systemPrompt.value != [] then [RoleMessage("system", systemPrompt.value)] + messages
    else messages
  }

  /** `chat_completion_with_function_calling`: non-empty tool responses are
      appended to the caller's list; the system prompt, if any, goes only
      into a new list; the request uses `tool_choice` "auto". */
  method ChatWithFunctionCalling(service: Service, complete: Endpoint, messages: MessageList, tools: seq<Dict>,
                                 systemPrompt: Option<string>, toolResponses: Option<seq<Dict>>)
    returns (r: Result<CallResult, string>, params: map<string, Param>)
    modifies messages
    ensures messages.items == old(messages.items) + (if HasTools(toolResponses) then toolResponses.value else [])
    ensures BaseParams(params, service, WithSystem(systemPrompt, messages.items), DefaultTemperature, DefaultMaxTokens)
    ensures tools != [] ==>
      "tools" in params && params["tools"] == Tools(tools)
      && "tool_choice" in params && params["tool_choice"] == ToolChoice("auto")
    ensures tools == [] ==> "tools" !in params && "tool_choice" !in params
    ensures complete(params, false).Err? ==> r == Err(complete(params, false).error)
    ensures complete(params, false).Ok? ==> r == Ok(Shape(complete(params, false).value))
  {
    if toolResponses.Some? && toolResponses.value != [] {
      messages.Extend(toolResponses.value);
    }
    var sent := WithSystem(systemPrompt, messages.items);
    var response;
    response, params := ChatCompletion(service, complete, sent, Some(tools), "auto", false, DefaultTemperature, DefaultMaxTokens);
    if response.Err? {
      return Err(response.error), params;
    }
    r := Ok(Shape(response.value));
  }

  // ------------------------------------------------------------ with context

  const DefaultSystemPrompt: string :=
    "Sei un assistente utile che risponde alle domande basandoti sul contesto fornito.\n"
    + "Usa SOLO le informazioni dal contesto per rispondere alle domande. Se il contesto non contiene\n"
    + "informazioni sufficienti per rispondere alla domanda, dillo chiaramente. Sii conciso e accurato."

  function ContextQuestion(query: string, context: string): string {
    "Contesto:\n" + context + "\n\nDomanda: " + query
  }

  /** The two messages of `generate_with_context`: the default prompt only
      replaces `None` (an empty prompt is sent as it is). */
  function ContextMessages(query: string, context: string, systemPrompt: Option<string>): (r: seq<Dict>)
    ensures |r| == 2
    ensures r[0] == RoleMessage("system", if systemPrompt.None? then DefaultSystemPrompt else systemPrompt.value)
    ensures r[1] == RoleMessage("user", ContextQuestion(query, context))
  {
    [RoleMessage("system", if systemPrompt.None? then DefaultSystemPrompt else systemPrompt.value),
     RoleMessage("user", ContextQuestion(query, context))]
  }

  /** `generate_with_context`: one request without tools and without
      streaming; the answer is the first choice's content. */
  method GenerateWithContext(service: Service, complete: Endpoint, query: string, context: string, systemPrompt: Option<string>)
    returns (r: Result<Option<string>, string>, params: map<string, Param>)
    ensures BaseParams(params, service, ContextMessages(query, context, systemPrompt), DefaultTemperature, DefaultMaxTokens)
    ensures "tools" !in params && "tool_choice" !in params
    ensures complete(params, false).Err? ==> r == Err(complete(params, false).error)
    ensures complete(params, false).Ok? ==> r == Ok(complete(params, false).value.content)
  {
    var messages := ContextMessages(query, context, systemPrompt);
    var response;
    response, params := ChatCompletion(service, complete, messages, None, DefaultToolChoice, false, DefaultTemperature, DefaultMaxTokens);
    if response.Err? {
      return Err(response.error), params;
    }
    r := Ok(response.value.content);
  }

  // -------------------------------------------------------------- embedding

  /** `generate_embedding`: the first vector of the answer; an answer
      without data raises as indexing an empty list does. */
  function GenerateEmbedding(service: Service, embedEndpoint: (string, string) -> Result<seq<Vector>, string>, text: string)
    : (r: Result<Vector, string>)
    ensures embedEndpoint(service.embeddingModel, text).Err? ==> r == Err(embedEndpoint(service.embeddingModel, text).error)
    ensures embedEndpoint(service.embeddingModel, text).Ok? && embedEndpoint(service.embeddingModel, text).value != [] ==>
      r == Ok(embedEndpoint(service.embeddingModel, text).value[0])
    ensures embedEndpoint(service.embeddingModel, text).Ok? && embedEndpoint(service.embeddingModel, text).value == [] ==>
      r == Err("list index out of range")
  {
    match embedEndpoint(service.embeddingModel, text)
    case Err(e) => Err(e)
    case Ok(data) => if data == [] then Err("list index out of range") else Ok(data[0])
  }
}
