/** The chat page's state (`frontend/js/chat.js`): the conversation history
    the browser keeps and sends with every question. The chat endpoint is a
    parameter `chat` that answers a request or fails; the page's rendering is
    not modelled. */
module ChatClient {
  import opened Wrappers
  import opened Text
  import opened Agent
  import opened RagService
  import opened RagApi
  import DocumentProcessor

  /** `chat(message, conversationHistory)` sends `top_k: 5`. */
  const ClientTopK: int := 5

  class ChatSession {
    /** `conversationHistory`. */
    var history: seq<ChatMessage>
    /** `chatInput.value`. */
    var input: string
    /** The requests sent to the chat endpoint, in order. */
    var requests: seq<ChatRequest>

    constructor()
      ensures history == [] && input == [] && requests == []
    {
      history := [];
      input := [];
      requests := [];
    }

    /** The submit handler. A blank input does nothing. Otherwise the input
        is cleared, the user turn is pushed, and the whole history (already
        ending with that turn) is sent; an answer pushes exactly one assistant
        turn, a failure pushes none and keeps the user turn. `showSources` is
        whether the answer's sources are rendered. */
    method Submit(chat: ChatRequest -> Result<ChatResponse, string>) returns (showSources: bool)
      modifies this
      ensures JsTrim(old(input)) == [] ==>
        history == old(history) && input == old(input) && requests == old(requests) && !showSources
      ensures JsTrim(old(input)) != [] ==>
        var message := JsTrim(old(input));
        var sent := old(history) + [ChatMessage("user", message)];
        var req := ChatRequest(message, sent, Some(ClientTopK));
        input == [] && requests == old(requests) + [req]
        && (chat(req).Ok? ==>
              history == sent + [ChatMessage("assistant", chat(req).value.message)]
              && showSources == (chat(req).value.sources != []))
        && (chat(req).Err? ==> history == sent && !showSources)
    {
      var message := JsTrim(input);
      if message == [] {
        return false;
      }
      input := [];
      history := history + [ChatMessage("user", message)];
      var req := ChatRequest(message, history, Some(ClientTopK));
      requests := requests + [req];
      var response := chat(req);
      if response.Err? {
        return false;
      }
      history := history + [ChatMessage("assistant", response.value.message)];
      showSources := response.value.sources != [];
    }

    /** `clearConversation`: the history is emptied. */
    method ClearConversation()
      modifies this
      ensures history == [] && input == old(input) && requests == old(requests)
    {
      history := [];
    }
  }

  /** The question reaches the agent twice: the browser has already put it at
      the end of the history it sends, and the server appends it again, so
      the agent's transcript ends with two identical human messages. */
  lemma QueryReachesAgentTwice(history: seq<ChatMessage>, message: string)
    ensures var req := ChatRequest(message, history + [ChatMessage("user", message)], Some(ClientTopK));
      var m := Transcript(Some(Turns(req.history)), req.message);
      |m| >= 2 && m[|m| - 2] == Human(message) && m[|m| - 1] == Human(message)
  {
    var turns := Turns(history + [ChatMessage("user", message)]);
    assert turns == Turns(history) + [Turn("user", message)];
    TranslateHistorySnoc(Turns(history), Turn("user", message));
  }

  /** `getFileIcon`: the icon of each supported type, `'file'` for any other. */
  function GetFileIcon(fileType: string): (icon: string)
    ensures fileType == "pdf" ==> icon == "file-type-2"
    ensures fileType == "docx" ==> icon == "file-text"
    ensures fileType == "txt" ==> icon == "file-code"
    ensures fileType !in DocumentProcessor.SupportedTypes ==> icon == "file"
  {
    if fileType == "pdf" then "file-type-2"
    else if fileType == "docx" then "file-text"
    else if fileType == "txt" then "file-code"
    else "file"
  }

  /** Every type the server accepts has an icon of its own. */
  lemma IconsDistinct()
    ensures forall a, b | a in DocumentProcessor.SupportedTypes && b in DocumentProcessor.SupportedTypes && a != b ::
      GetFileIcon(a) != GetFileIcon(b)
    ensures forall t | t in DocumentProcessor.SupportedTypes :: GetFileIcon(t) != "file"
  {
  }
}
