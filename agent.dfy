/** The retrieval agent: the `search_documents` tool and the compiled graph
    START -> agent, agent -> tools | END, tools -> agent. The model, the
    embedding endpoint, the vector search and the graph runtime's handling of
    unknown tools are parameters (`Runtime`). */
module Agent {
  import opened Wrappers
  import opened Text
  import opened Citation
  import opened Seqs
  import opened Records

  /** A tool call requested by the model: the call id, the tool name and the
      tool's arguments (`query`, and `top_k` when the model gave one). */
  datatype ToolCall = ToolCall(id: string, name: string, query: string, topK: Option<int>)

  /** The messages of a transcript. An assistant turn from the history is an
      `Ai` message without tool calls. */
  datatype Message =
    | Human(content: string)
    | Ai(content: string, toolCalls: seq<ToolCall>)
    | ToolResult(content: string, toolCallId: string)
    | System(content: string)

  /** The graph state: the transcript and two fields no node writes. */
  datatype AgentState = AgentState(messages: seq<Message>, retrievedContext: string, sources: seq<Source>)

  /** One reply of the model. */
  datatype Reply = Reply(content: string, toolCalls: seq<ToolCall>)

  datatype Route = Tools | End

  /** The compiled graph: the system prompt its agent node prepends, and the
      one tool its tool node dispatches to, under the tool's name, with the
      services the tool was created with already bound. */
  datatype Graph = Graph(prompt: string, toolName: string, tool: (string, int) -> string)

  /** The services the graph runs against: the model bound to the tool, the
      query embedding, the vector search (query vector, limit, score threshold
      in hundredths), the runtime's answer to a call of an unknown tool, and
      the runtime's step budget together with the error it raises when the
      budget is exhausted. */
  datatype Runtime = Runtime(
    llm: seq<Message> -> Result<Reply, string>,
    embedQuery: string -> Result<Vector, string>,
    search: (Vector, int, nat) -> seq<Hit>,
    invalidTool: ToolCall -> string,
    steps: nat,
    limitError: string)

  const SearchToolName: string := "search_documents"
  const DefaultTopK: int := 5
  /** The tool's `score_threshold=0.3`, in hundredths. */
  const ToolThreshold: nat := 30
  const NoResults: string := "No relevant documents found."
  /** One sentence, written as four literals so that the absence of `<` is
      checked piece by piece. */
  const SearchFailed: string := "I encountered an " + "error while " + "searching the " + "documents."

  const SystemPrompt: string :=
    "Sei un assistente AI utile che risponde alle domande basandoti sui documenti caricati.\n\n"
    + "REGOLE:\n"
    + "- Usa il tool search_documents quando l'utente chiede informazioni che potrebbero essere nei documenti\n"
    + "- Rispondi in italiano\n"
    + "- Se il contesto non contiene informazioni sufficienti, dillo chiaramente\n"
    + "- NON menzionare le fonti nel testo della risposta\n"
    + "- Le fonti verranno visualizzate separatamente dall'interfaccia\n"
    + "- Sii conciso e preciso"

  // ------------------------------------------------------------ the tool

  /** The loop that builds the tool's context: one block per hit, numbered
      from 1 in result order, joined by the divider. */
  method FormatContext(hits: seq<Hit>) returns (r: string)
    ensures r == Render(hits)
  {
    var parts: seq<string> := [];
    var i := 0;
    while i < |hits|
      invariant 0 <= i <= |hits|
      invariant parts == Blocks(hits, 1)[..i]
    {
      BlocksAt(hits, 1, i);
      SnocPrefix(Blocks(hits, 1), i);
      parts := parts + [Block(i + 1, hits[i])];
      i := i + 1;
    }
    WholePrefix(Blocks(hits, 1));
    r := Join(parts, Divider);
  }

  /** `search_documents(query, top_k)`: a failing embedding gives the fixed
      error sentence, an empty result the fixed no-result sentence, and
      otherwise the rendered blocks. */
  function SearchDocuments(rt: Runtime, query: string, topK: int): string {
    match rt.embedQuery(query)
    case Err(_) => SearchFailed
    case Ok(v) =>
      var hits := rt.search(v, topK, ToolThreshold);
      if hits == [] then NoResults else Render(hits)
  }

  /** The `top_k` argument of a call, 5 when the model gave none. */
  function TopKArg(c: ToolCall): int {
    match c.topK
    case Some(k) => k
    case None => DefaultTopK
  }

  /** The tool node's dispatch of one call: the bound tool under its name,
      the runtime's answer for any other name. */
  function ExecuteTool(rt: Runtime, g: Graph, c: ToolCall): string {
    if c.name == g.toolName then g.tool(c.query, TopKArg(c)) else rt.invalidTool(c)
  }

  /** `create_rag_agent()`: the graph with the Italian system prompt and the
      `search_documents` tool over the given services. */
  function CreateRagAgent(rt: Runtime): Graph {
    Graph(SystemPrompt, SearchToolName, (query: string, topK: int) => SearchDocuments(rt, query, topK))
  }

  /** A call of the agent's tool runs `search_documents` with the call's
      query and `top_k` (5 when absent); the model sees the Italian prompt. */
  lemma CreatedAgent(rt: Runtime, c: ToolCall)
    ensures CreateRagAgent(rt).prompt == SystemPrompt
    ensures c.name == SearchToolName ==>
      ExecuteTool(rt, CreateRagAgent(rt), c) == SearchDocuments(rt, c.query, if c.topK.Some? then c.topK.value else 5)
    ensures c.name != SearchToolName ==> ExecuteTool(rt, CreateRagAgent(rt), c) == rt.invalidTool(c)
  {
  }

  lemma NoOpenNoTags(s: string)
    requires '<' !in s
    ensures FindAll(s) == []
  {
    SkipNoOpen(s, "");
    assert s + "" == s;
  }

  lemma NoOpenPieces()
    ensures '<' !in "I encountered an " && '<' !in "error while "
    ensures '<' !in "searching the " && '<' !in "documents."
  {
  }

  /** The two fixed answers of the tool carry no citation. */
  lemma FixedAnswersHaveNoTags()
    ensures FindAll(NoResults) == [] && FindAll(SearchFailed) == []
  {
    assert '<' !in NoResults;
    NoOpenNoTags(NoResults);
    NoOpenPieces();
    NoOpenNoTags(SearchFailed);
  }

  /** What the query orchestrator can recover from a tool answer: the tags of
      the hits in order when the search succeeds with parsable hits, and no
      tag at all when the search fails or finds nothing. The search is always
      asked for `top_k` results above the 0.3 threshold. */
  lemma SearchCitations(rt: Runtime, query: string, topK: int)
    ensures rt.embedQuery(query).Err? ==> SearchDocuments(rt, query, topK) == SearchFailed
    ensures rt.embedQuery(query).Ok? && rt.search(rt.embedQuery(query).value, topK, 30) == []
            ==> SearchDocuments(rt, query, topK) == NoResults
    ensures rt.embedQuery(query).Err? || rt.search(rt.embedQuery(query).value, topK, 30) == []
            ==> FindAll(SearchDocuments(rt, query, topK)) == []
    ensures rt.embedQuery(query).Ok?
            && (forall k | 0 <= k < |rt.search(rt.embedQuery(query).value, topK, 30)| ::
                  Parsable(rt.search(rt.embedQuery(query).value, topK, 30)[k]))
            ==> FindAll(SearchDocuments(rt, query, topK))
                == ExpectedTags(rt.search(rt.embedQuery(query).value, topK, 30), 1)
  {
    FixedAnswersHaveNoTags();
    if rt.embedQuery(query).Ok? {
      var hits := rt.search(rt.embedQuery(query).value, topK, 30);
      if hits != [] && forall k | 0 <= k < |hits| :: Parsable(hits[k]) {
        BlocksScan(hits, 1);
      }
    }
  }

  // ------------------------------------------------------------ the graph

  /** What `llm_node` sends to the model: the system prompt, then the state's
      messages. */
  function ModelInput(g: Graph, msgs: seq<Message>): (r: seq<Message>)
    ensures |r| == |msgs| + 1 && r[0] == System(g.prompt) && r[1..] == msgs
  {
    [System(g.prompt)] + msgs
  }

  /** `should_continue`: route to the tools exactly when the last message is a
      model turn that requested tool calls. */
  function ShouldContinue(msgs: seq<Message>): (r: Route)
    requires msgs != []
    ensures r == Tools <==> msgs[|msgs| - 1].Ai? && msgs[|msgs| - 1].toolCalls != []
  {
    match msgs[|msgs| - 1]
    case Ai(_, calls) => if calls != [] then Tools else End
    case _ => End
  }

  /** The tool node: one tool message per requested call, in call order,
      answering that call's id. */
  function ToolNode(rt: Runtime, g: Graph, calls: seq<ToolCall>): (r: seq<Message>)
    ensures |r| == |calls|
    ensures forall k | 0 <= k < |calls| :: r[k] == ToolResult(ExecuteTool(rt, g, calls[k]), calls[k].id)
    decreases |calls|
  {
    if calls == [] then []
    else [ToolResult(ExecuteTool(rt, g, calls[0]), calls[0].id)] + ToolNode(rt, g, calls[1..])
  }

  /** The graph from the agent node with `steps` node executions left: the
      model's reply is appended; without tool calls the run ends, otherwise the
      tool messages are appended and the agent node runs again. An error of the
      model, or an exhausted budget, ends the run with an error. */
  function Run(rt: Runtime, g: Graph, msgs: seq<Message>, steps: nat): Result<seq<Message>, string>
    decreases steps
  {
    if steps == 0 then Err(rt.limitError)
    else
      match rt.llm(ModelInput(g, msgs))
      case Err(e) => Err(e)
      case Ok(reply) =>
        var next := msgs + [Ai(reply.content, reply.toolCalls)];
        match ShouldContinue(next)
        case End => Ok(next)
        case Tools =>
          if steps == 1 then Err(rt.limitError)
          else Run(rt, g, next + ToolNode(rt, g, reply.toolCalls), steps - 2)
  }

  /** `agent.invoke(state)`: only the transcript changes. */
  function Invoke(rt: Runtime, g: Graph, input: AgentState): (r: Result<AgentState, string>)
    ensures r.Ok? <==> Run(rt, g, input.messages, rt.steps).Ok?
    ensures r.Ok? ==> r.value.retrievedContext == input.retrievedContext && r.value.sources == input.sources
    ensures r.Err? ==> r.error == Run(rt, g, input.messages, rt.steps).error
  {
    match Run(rt, g, input.messages, rt.steps)
    case Ok(out) => Ok(AgentState(out, input.retrievedContext, input.sources))
    case Err(e) => Err(e)
  }

  predicate NoSystem(msgs: seq<Message>) {
    forall k | 0 <= k < |msgs| :: !msgs[k].System?
  }

  lemma NoSystemAppend(a: seq<Message>, b: seq<Message>)
    requires NoSystem(a) && NoSystem(b)
    ensures NoSystem(a + b)
  {
    forall k | 0 <= k < |a + b| ensures !(a + b)[k].System? {
      if k < |a| {
        assert (a + b)[k] == a[k];
      } else {
        assert (a + b)[k] == b[k - |a|];
      }
    }
  }

  /** A finished run extends the transcript it started from, ends on a model
      turn without tool calls (so `should_continue` chose END), and stores no
      system message: the prompt is only ever prepended to the model input. */
  lemma {:induction false} RunShape(rt: Runtime, g: Graph, msgs: seq<Message>, steps: nat)
    requires Run(rt, g, msgs, steps).Ok?
    ensures var out := Run(rt, g, msgs, steps).value;
      |out| > |msgs| && out[..|msgs|] == msgs
      && out[|out| - 1].Ai? && out[|out| - 1].toolCalls == []
      && ShouldContinue(out) == End
      && (NoSystem(msgs) ==> NoSystem(out))
    decreases steps
  {
    var reply := rt.llm(ModelInput(g, msgs)).value;
    var turn := [Ai(reply.content, reply.toolCalls)];
    var next := msgs + turn;
    PrefixOfAppend(msgs, turn);
    assert NoSystem(turn);
    if NoSystem(msgs) {
      NoSystemAppend(msgs, turn);
    }
    if ShouldContinue(next) == Tools {
      var tools := ToolNode(rt, g, reply.toolCalls);
      var more := next + tools;
      RunShape(rt, g, more, steps - 2);
      var out := Run(rt, g, more, steps - 2).value;
      PrefixOfAppend(next, tools);
      PrefixTrans(msgs, next, more);
      PrefixTrans(msgs, more, out);
      assert NoSystem(tools);
      if NoSystem(msgs) {
        NoSystemAppend(next, tools);
      }
    }
  }
}
