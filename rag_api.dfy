/** The chat routes (`backend/app/api/routes/rag.py`): the plain and the
    streamed chat, the raw search and the history reset. */
module RagApi {
  import opened Wrappers
  import opened Records
  import opened Citation
  import opened Agent
  import opened RagService
  import opened DocumentsApi

  /** `ChatMessage` and `ChatRequest`. */
  datatype ChatMessage = ChatMessage(role: string, content: string)
  datatype ChatRequest = ChatRequest(message: string, history: seq<ChatMessage>, topK: Option<int>)

  /** `ChatResponse`: the route never fills `tool_calls`. */
  datatype ChatResponse = ChatResponse(message: string, sources: seq<Source>, toolCalls: Option<seq<ToolCall>>)

  /** The history as `{"role", "content"}` dictionaries, one per message, in order. */
  function Turns(history: seq<ChatMessage>): (r: seq<Turn>)
    ensures |r| == |history|
    ensures forall k | 0 <= k < |history| :: r[k].role == history[k].role && r[k].content == history[k].content
  {
    seq(|history|, k requires 0 <= k < |history| => Turn(history[k].role, history[k].content))
  }

  /** `chat`: the converted history and the message go to `process_query`
      unchanged, and its answer is the response. */
  method Chat(req: ChatRequest, docCount: int, agent: Graph, rt: Runtime) returns (r: ChatResponse)
    ensures r.toolCalls.None?
    ensures QueryResponse(r.message, r.sources) == QueryResult(req.message, Some(Turns(req.history)), docCount, agent, rt)
  {
    var history := Turns(req.history);
    var response := ProcessQuery(req.message, Some(history), req.topK, docCount, agent, rt);
    r := ChatResponse(response.message, response.sources, None);
  }

  // ----------------------------------------------------------------- stream

  /** A server-sent event of `chat_stream`. */
  datatype Event = SourcesEvent(sources: seq<Source>) | ContentEvent(c: char) | DoneEvent | ErrorEvent(error: string)

  /** `f"data: {json}\n\n"`. */
  function Frame(json: string): (f: string)
    ensures |f| == |json| + 8
    ensures f[..6] == "data: " && f[6..|f| - 2] == json && f[|f| - 2..] == "\n\n"
  {
    "data: " + json + "\n\n"
  }

  /** The events `generate()` yields for the outcome of `process_query`: an
      error gives one `error` event; an answer gives its sources, one
      `content` event per character, then `done`. */
  function StreamEvents(outcome: Result<QueryResponse, string>): seq<Event> {
    match outcome
    case Err(e) => [ErrorEvent(e)]
    case Ok(resp) =>
      [SourcesEvent(resp.sources)] + seq(|resp.message|, k requires 0 <= k < |resp.message| => ContentEvent(resp.message[k])) + [DoneEvent]
  }

  /** The shape of the stream, event by event. */
  lemma StreamShape(outcome: Result<QueryResponse, string>)
    ensures var ev := StreamEvents(outcome);
      (outcome.Err? ==> ev == [ErrorEvent(outcome.error)])
      && (outcome.Ok? ==>
            |ev| == |outcome.value.message| + 2
            && ev[0] == SourcesEvent(outcome.value.sources)
            && ev[|ev| - 1] == DoneEvent
            && (forall k | 1 <= k < |ev| - 1 :: ev[k] == ContentEvent(outcome.value.message[k - 1])))
  {
  }

  /** Exactly one `sources` event and one `done` event, and no `error`
      event, for an answer; an empty message gives no `content` event. */
  lemma {:induction false} StreamCounts(resp: QueryResponse)
    ensures var ev := StreamEvents(Ok(resp));
      (forall k | 0 <= k < |ev| :: ev[k].SourcesEvent? <==> k == 0)
      && (forall k | 0 <= k < |ev| :: ev[k].DoneEvent? <==> k == |ev| - 1)
      && (forall k | 0 <= k < |ev| :: !ev[k].ErrorEvent?)
      && (resp.message == [] ==> ev == [SourcesEvent(resp.sources), DoneEvent])
  {
    var ev := StreamEvents(Ok(resp));
    StreamShape(Ok(resp));
    if resp.message == [] {
      assert ev == [SourcesEvent(resp.sources), DoneEvent];
    }
  }

  /** `generate()`: one frame per event, each the event's JSON (`encode`)
      framed, yielded as the message's characters are walked. */
  method Generate(outcome: Result<QueryResponse, string>, encode: Event -> string) returns (frames: seq<string>)
    ensures |frames| == |StreamEvents(outcome)|
    ensures forall k | 0 <= k < |frames| :: frames[k] == Frame(encode(StreamEvents(outcome)[k]))
  {
    if outcome.Err? {
      return [Frame(encode(ErrorEvent(outcome.error)))];
    }
    var resp := outcome.value;
    ghost var ev := StreamEvents(outcome);
    StreamShape(outcome);
    frames := [Frame(encode(SourcesEvent(resp.sources)))];
    var i := 0;
    while i < |resp.message|
      invariant 0 <= i <= |resp.message| && |frames| == i + 1
      invariant forall k | 0 <= k < |frames| :: frames[k] == Frame(encode(ev[k]))
    {
      frames := frames + [Frame(encode(ContentEvent(resp.message[i])))];
      i := i + 1;
    }
    frames := frames + [Frame(encode(DoneEvent))];
  }

  /** `chat_stream`: `process_query` always answers (its own failures are
      answered with an error text), so the stream is that answer's events. */
  method ChatStream(req: ChatRequest, docCount: int, agent: Graph, rt: Runtime, encode: Event -> string)
    returns (frames: seq<string>)
    ensures var ev := StreamEvents(Ok(QueryResult(req.message, Some(Turns(req.history)), docCount, agent, rt)));
      |frames| == |ev| && forall k | 0 <= k < |frames| :: frames[k] == Frame(encode(ev[k]))
  {
    var history := Turns(req.history);
    var response := ProcessQuery(req.message, Some(history), req.topK, docCount, agent, rt);
    frames := Generate(Ok(response), encode);
  }

  /** The streamed and the plain chat carry the same answer: the stream's
      characters spell out the plain response's message. */
  lemma StreamMatchesChat(req: ChatRequest, docCount: int, agent: Graph, rt: Runtime)
    ensures var resp := QueryResult(req.message, Some(Turns(req.history)), docCount, agent, rt);
      var ev := StreamEvents(Ok(resp));
      |ev| == |resp.message| + 2 && ev[0] == SourcesEvent(resp.sources)
      && forall k | 0 <= k < |resp.message| :: ev[k + 1] == ContentEvent(resp.message[k])
  {
    var resp := QueryResult(req.message, Some(Turns(req.history)), docCount, agent, rt);
    StreamShape(Ok(resp));
  }

  // ----------------------------------------------------------------- search

  /** `score_threshold=0.5`, in hundredths. */
  const SearchThreshold: nat := 50

  /** `request.top_k or 5`: `None` and `0` both mean 5. */
  function SearchLimit(topK: Option<int>): (n: int)
    ensures topK.None? ==> n == 5
    ensures topK.Some? && topK.value == 0 ==> n == 5
    ensures topK.Some? && topK.value != 0 ==> n == topK.value
  {
    if topK.None? || topK.value == 0 then 5 else topK.value
  }

  datatype SearchResponse = SearchResponse(query: string, results: seq<Hit>, count: nat)

  /** `/search`: the query's embedding is searched with the limit and the
      threshold; a failed embedding is a 500. */
  function Search(req: ChatRequest, rt: Runtime): (r: Outcome<SearchResponse>)
    ensures rt.embedQuery(req.message).Err? ==>
      r == HttpError(500, "Error searching documents: " + rt.embedQuery(req.message).error)
    ensures rt.embedQuery(req.message).Ok? ==>
      (r.Done?
       && r.value.results == rt.search(rt.embedQuery(req.message).value, SearchLimit(req.topK), SearchThreshold)
       && r.value.count == |r.value.results| && r.value.query == req.message)
  {
    match rt.embedQuery(req.message)
    case Err(e) => HttpError(500, "Error searching documents: " + e)
    case Ok(v) =>
      var results := rt.search(v, SearchLimit(req.topK), SearchThreshold);
      Done(SearchResponse(req.message, results, |results|))
  }

  // ---------------------------------------------------------- clear history

  /** `/clear-history`: a fixed success answer; the server keeps no history. */
  function ClearHistory(): (r: DeleteResponse)
    ensures r.success
  {
    DeleteResponse(true, "Conversation history cleared")
  }
}
