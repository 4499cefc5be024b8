# Agentic personal RAG — a Dafny model

This project models the core of a personal retrieval-augmented-generation
service. A FastAPI backend takes PDF, DOCX and TXT uploads. It validates
each file, extracts its text, cuts the text into overlapping chunks, embeds
every chunk and stores the resulting points in a vector index, with one
row per document in a SQLite table. A LangGraph agent answers chat
questions. Its one tool, `search_documents`, embeds the question, searches
the index (score threshold 0.3) and renders the hits as numbered
`<metadata_source_N>` blocks. The service then scans the transcript for
those tags and returns the cited sources, deduplicated, next to the answer.
A small browser client sends chat turns and uploads files after checking
them itself.

Every external party is a parameter of the model, including:

- the language model;
- the embedding endpoint;
- the PDF and DOCX decoders;
- the text splitter;
- the vector index's answers;
- the database's failures;
- clocks and UUIDs.

The model is built from these parts:

- Pure code becomes functions with lemmas.
- Loops become methods proved against those functions.
- The objects whose state the code updates become classes:
  - the SQLite document table (`DocumentStore.Store`);
  - the request log of the vector index (`DocumentsApi.VectorIndex`);
  - the settings cache;
  - the message list that the function-calling service extends;
  - the chat and upload pages of the browser client.

Modules: `Wrappers` (Option and Result), `Seqs` (sequence lemmas), `Text`
(Python `str.strip`/`split`/`join`/`rsplit`/`lower`, JavaScript `trim`,
decimal digits), `Records` (metadata values, vectors, bytes), `Citation`
(the tool's block format and the source-tag regular expression), `Agent`,
`RagService`, `Config`, `Chunking`, `Embedding`, `DocumentProcessor`,
`DocumentStore`, `DocumentsApi`, `RagApi`, `Regolo`, `ChatClient`,
`UploadClient`.

An embedding failure in any batch stores nothing, not even the vectors of
the batches before it: `upload_document` computes every embedding before its
single upsert. `DocumentsApi.UploadDocument` leaves both stores unchanged in
that case.

## Model

| member | source | states |
|---|---|---|
| Citation.RenderRoundTrip | backend/app/agents/__init__.py:62-80 | scanning the rendered context of hits with parsable fields finds exactly one tag per hit, in order, numbered from 1, carrying that hit's filename, page and two-decimal score |
| Citation.FindAllNeedsMarker | backend/app/services/rag_service.py:75-79 | text without the `<metadata_source_` marker yields no tag |
| Citation.ScoreRoundTrip | backend/app/agents/__init__.py:75 | parsing the score printed with two decimals gives back the hit's score in hundredths |
| Citation.ParseScoreDefined | backend/app/services/rag_service.py:87 | `float()` of a matched score run fails exactly when it has more than one dot or is a lone dot |
| Citation.MatchTagSound | backend/app/services/rag_service.py:75-79 | a tag the matcher reports has the regular expression's shape: a digit run, then a filename, page and score field each ended by the right character |
| Citation.MatchTagComplete | backend/app/services/rag_service.py:75-79 | text in the tag's shape (an ASCII digit run, then filename, page and score fields) followed by the end of the text or a character that cannot continue the score is matched, with the fields it was built from |
| Citation.MatchTag | backend/app/services/rag_service.py:79 | one match of the pattern at the start of a text, each group a maximal run of its class; stated by Citation.MatchTagSound and Citation.MatchTagComplete |
| Citation.FindAll | backend/app/services/rag_service.py:80 | every tag `re.findall` reports has the pattern's shape: a digit run and non-empty filename, page and score fields |
| Citation.Render | backend/app/agents/__init__.py:62-80 | the tool's context: one block per hit, numbered from 1, joined by the divider; stated by Citation.RenderRoundTrip and Agent.FormatContext |
| Citation.ParseScore | backend/app/services/rag_service.py:87 | `float()` of a score run, kept exact as digits and a decimal scale; stated by Citation.ParseScoreDefined and Citation.ScoreRoundTrip |
| Citation.ExpectedTags | backend/app/agents/__init__.py:62-80 | the tags expected from a list of hits are one per hit, numbered consecutively |
| Agent.FormatContext | backend/app/agents/__init__.py:62-80 | the loop builds one block per hit, numbered from 1, joined by the divider; this is exactly the rendered context |
| Agent.CreatedAgent | backend/app/agents/__init__.py:98-126 | the agent carries the Italian system prompt; a call to `search_documents` runs the search with the call's query and `top_k`, defaulting to 5; any other tool name gets the runtime's invalid-tool answer |
| Agent.FixedAnswersHaveNoTags | backend/app/agents/__init__.py:59-84 | the fixed no-result and error sentences contain no source tag |
| Agent.SearchDocuments | backend/app/agents/__init__.py:26-84 | the tool: the fixed error sentence when the embedding fails, the no-result sentence for an empty search, the rendered hits otherwise; stated by Agent.SearchCitations |
| Agent.CreateRagAgent | backend/app/agents/__init__.py:98-155 | the compiled graph: the Italian prompt and the bound `search_documents` tool; stated by Agent.CreatedAgent |
| Agent.Run | backend/app/agents/__init__.py:119-155 | the model/tool cycle from START to END within the step budget; stated by Agent.RunShape and Agent.Invoke |
| Agent.SearchCitations | backend/app/agents/__init__.py:26-84 | a failed embedding gives the fixed error sentence and an empty search the fixed no-result sentence, neither with a tag; with parsable hits from the 0.3-threshold search, the answer's tags are exactly one per hit, in order, numbered from 1 |
| Agent.ModelInput | backend/app/agents/__init__.py:119-123 | the model sees the system prompt followed by the whole transcript |
| Agent.ShouldContinue | backend/app/agents/__init__.py:128-136 | the graph goes to the tool node exactly when the last message is a model turn with tool calls; otherwise it ends |
| Agent.ToolNode | backend/app/agents/__init__.py:126 | one tool result per call, in order, with each call's id and the dispatched tool's answer |
| Agent.Invoke | backend/app/agents/__init__.py:139-155 | invoking the graph succeeds exactly when the model/tool cycle finishes within the step budget, keeps the state's other fields, and otherwise passes on the run's error |
| Agent.RunShape | backend/app/agents/__init__.py:139-155 | a finished run extends its input transcript and ends on a model turn without tool calls, where `should_continue` chooses END; no system message is ever stored |
| RagService.TranslateTurn | backend/app/services/rag_service.py:37-45 | a "user" turn becomes a human message and an "assistant" turn a model message, both with the same content; any other role is dropped |
| RagService.TranslateHistory | backend/app/services/rag_service.py:37-45 | history translation never adds messages |
| RagService.BuildTranscript | backend/app/services/rag_service.py:37-46 | the loop builds the translated history followed by the question |
| RagService.TranscriptShape | backend/app/services/rag_service.py:37-46 | the transcript ends with the question and holds only human and model messages; when every role is known it keeps the history one-to-one, in order |
| RagService.ScanEveryMessage | backend/app/services/rag_service.py:75-79 | every message's content is scanned for tags, whatever the message's kind |
| RagService.ExtractSources | backend/app/services/rag_service.py:75-88 | the loop over messages and tags computes the source collection |
| RagService.AddMessageTags | backend/app/services/rag_service.py:80-88 | the inner loop over one message's matches continues the extraction from the sources of the earlier messages, stopping at the first score that does not parse |
| RagService.AddTagsSpec | backend/app/services/rag_service.py:80-88 | adding tags keeps the earlier sources and keeps keys distinct; every tag's (filename, page) key ends up present; each new source takes the score of its key's first tag, in first-occurrence order |
| RagService.AddTagsError | backend/app/services/rag_service.py:80-88 | extraction fails only on the first occurrence of a new key whose score does not parse, with that score's error message |
| RagService.AddTagsTotal | backend/app/services/rag_service.py:80-88 | when every score parses, extraction succeeds |
| RagService.CollectSources | backend/app/services/rag_service.py:75-88 | the sources of a transcript: the tags of every message, added in order; stated by RagService.CollectSourcesSpec, RagService.AddTagsError and RagService.ExtractSources |
| RagService.CollectSourcesSpec | backend/app/services/rag_service.py:75-88 | extracted sources have distinct keys; they cover every tag of the transcript; each has its key's first score; they are in first-occurrence order |
| RagService.SourcesOfNumericTags | backend/app/services/rag_service.py:80-88 | with parsable scores, the sources are at most as many as the tags and cover every tag |
| RagService.SourcesOfHits | backend/app/services/rag_service.py:75-88 | the sources of a rendered context cover every hit, and each comes from some hit with that hit's two-decimal score |
| RagService.RenderedSources | backend/app/services/rag_service.py:75-88 | a tool answer rendering hits yields at most one source per hit; every hit's stripped filename and page appear; each source's score is its hit's |
| RagService.Respond | backend/app/services/rag_service.py:55-101 | the answer drawn from the agent's outcome; stated by RagService.RespondSpec |
| RagService.RespondSpec | backend/app/services/rag_service.py:55-101 | a failed run gives its error text with no sources; when extraction fails (some tag's score is not a number) the answer is the error text of that score with no sources; otherwise it is the final model answer with exactly the extracted sources, whose keys are distinct |
| RagService.QueryResult | backend/app/services/rag_service.py:16-101 | the answer of `process_query`; stated by RagService.QueryOutcome |
| RagService.QueryOutcome | backend/app/services/rag_service.py:16-101 | with no documents the result is the fixed answer without sources; a failed run gives its error text without sources; a finished run ends on a model turn without tool calls and gives the error text of extraction when it fails, and otherwise that turn's answer with exactly the transcript's sources, whose keys are distinct |
| RagService.OutcomeOfRun | backend/app/services/rag_service.py:48-56 | invoking the agent on a fresh state fails with the run's error or yields the run's finished transcript |
| RagService.ErrorAnswer | backend/app/services/rag_service.py:95-101 | an error answer starts with the apology prefix and has no sources |
| RagService.ProcessQuery | backend/app/services/rag_service.py:16-101 | the method computes the query result |
| Config.Defaults | backend/app/core/config.py:6-27 | the default settings carry the published constants: 10 MB upload limit, chunks of 1000 characters with overlap 200 (smaller than the chunk), top 5 results, the five default origins joined by commas, and the given API key |
| Config.CorsOrigins | backend/app/core/config.py:29-31 | splitting the origin setting gives one entry more than it has commas |
| Config.CorsOriginsEntries | backend/app/core/config.py:29-31 | each entry is the stripped text between two consecutive commas |
| Config.CorsOriginsRoundTrip | backend/app/core/config.py:29-31 | origins without commas or surrounding blanks, joined by commas, split back into themselves |
| Config.DefaultCorsOriginsList | backend/app/core/config.py:17 | the default setting splits into the five default origins |
| Config.SettingsCache.GetSettings | backend/app/core/config.py:40-45 | the first call builds the settings and later calls return the cached value |
| Config.GetSettingsTwice | backend/app/core/config.py:40-45 | two calls return the same settings and build them once |
| Chunking.PieceMetadataSpec | backend/app/services/chunking.py:29-38 | a chunk's metadata keeps every document key and sets chunk_index, chunk_size and total_chunks |
| Chunking.ChunkDocument | backend/app/services/chunking.py:18-42 | one chunk per piece of the splitter, in order, each with its index and its piece's metadata |
| Chunking.PageRecords | backend/app/services/chunking.py:61-75 | one record per piece of a page, numbered from the running chunk index |
| Chunking.ChunkWithPageNumbers | backend/app/services/chunking.py:48-78 | the loop over pages computes the paged chunking |
| Chunking.AppendPageRecords | backend/app/services/chunking.py:63-75 | the inner loop appends the page's records after the ones already made |
| Chunking.PagedChunksSpec | backend/app/services/chunking.py:48-78 | the chunk count is the total number of pieces of the non-blank pages, and every chunk comes from one such page with that page's number |
| Chunking.BlankPagesGiveNothing | backend/app/services/chunking.py:58-60 | pages whose text is blank produce no chunks |
| Embedding.BatchEmbeddings | backend/app/services/embedding_service.py:33-44 | texts are embedded one by one in order; either every text is embedded, or the run stops at the first failure with its error |
| Embedding.SlicesConcat | backend/app/services/embedding_service.py:21-28 | the batches, concatenated, are the input texts |
| Embedding.SlicesSizes | backend/app/services/embedding_service.py:21-28 | every batch but the last is full, and the last is non-empty |
| Embedding.SliceCount | backend/app/services/embedding_service.py:21-28 | there are ceiling(n / size) batches |
| Embedding.GenerateEmbeddings | backend/app/services/embedding_service.py:14-31 | a zero batch size raises the range error; a negative one gives no embeddings; otherwise the batches are the slices and the result is every text's embedding or the first failure |
| Embedding.CreatePoints | backend/app/services/embedding_service.py:46-70 | it succeeds exactly when every chunk embeds; then point k has the k-th UUID, the k-th chunk's vector and a payload with its text, document id, index and metadata; on failure it stops at the first failing chunk |
| Embedding.PointIdsDistinct | backend/app/services/embedding_service.py:55-58 | the points `create_qdrant_points` builds have pairwise distinct ids when the UUID source never repeats |
| DocumentProcessor.GetFileType | backend/app/services/document_processor.py:102-108 | an accepted type is supported and is the lowercased last dot-segment of the name; a rejection is a ValueError |
| DocumentProcessor.NoDotWholeName | backend/app/services/document_processor.py:104-106 | a name without a dot is accepted only when the whole lowercased name is a supported type |
| DocumentProcessor.ValidateFileSize | backend/app/services/document_processor.py:110-113 | a size is accepted exactly when it is at most the 10 MB limit; otherwise a ValueError |
| DocumentProcessor.SizeLimitEdge | backend/app/services/document_processor.py:110-113 | exactly 10485760 bytes pass and one more byte fails |
| DocumentProcessor.CollectPageParts | backend/app/services/document_processor.py:35-49 | the page loop computes the numbered page parts |
| DocumentProcessor.PdfPartsSpec | backend/app/services/document_processor.py:35-49 | there are no parts exactly when every page is empty, and every part comes from a page |
| DocumentProcessor.ExtractPdf | backend/app/services/document_processor.py:31-60 | the fallback reader is used exactly when the first yields only empty pages; the outcome follows the two readers |
| DocumentProcessor.PdfOutcome | backend/app/services/document_processor.py:31-60 | the outcome of the two PDF readers; stated by DocumentProcessor.PdfOutcomeSpec and DocumentProcessor.ExtractPdf |
| DocumentProcessor.PdfOutcomeSpec | backend/app/services/document_processor.py:31-60 | PDF extraction succeeds with non-blank text, or fails with "No text could be extracted from PDF" or the reader's error |
| DocumentProcessor.CollectParagraphs | backend/app/services/document_processor.py:67-74 | the paragraph loop keeps exactly the non-blank paragraphs |
| DocumentProcessor.KeptParagraphsSpec | backend/app/services/document_processor.py:67-74 | every kept paragraph is a paragraph of the document, unstripped, whose stripped text is not blank; none are kept exactly when all are blank |
| DocumentProcessor.ExtractDocx | backend/app/services/document_processor.py:62-80 | DOCX extraction follows the decoder's paragraphs |
| DocumentProcessor.DocxOutcome | backend/app/services/document_processor.py:62-80 | the outcome of the DOCX decoder; stated by DocumentProcessor.DocxOutcomeSpec and DocumentProcessor.ExtractDocx |
| DocumentProcessor.DocxOutcomeSpec | backend/app/services/document_processor.py:62-80 | DOCX extraction succeeds with non-blank text or fails with the no-text error or the decoder's error |
| DocumentProcessor.Latin1 | backend/app/services/document_processor.py:88-94 | the Latin-1 fallback maps every byte to the character with the same code |
| DocumentProcessor.TxtOutcome | backend/app/services/document_processor.py:82-100 | valid UTF-8 text is returned unless it is blank, which is the ValueError "Text file is empty"; undecodable content is read as Latin-1 with no blankness check |
| DocumentProcessor.TextOutcome | backend/app/services/document_processor.py:17-100 | an unsupported type is the ValueError naming it; extracted text is never blank, except the Latin-1 reading of undecodable text |
| DocumentProcessor.ExtractText | backend/app/services/document_processor.py:17-29 | dispatch by type; an unsupported type gives the ValueError naming it |
| DocumentStore.TextLessTotal | backend/app/core/document_store.py:76-80 | the timestamp order is total on distinct strings |
| DocumentStore.NotBeforeTransitive | backend/app/core/document_store.py:76-80 | the descending order is transitive |
| DocumentStore.InsertDescendingSpec | backend/app/core/document_store.py:76-80 | insertion keeps a list sorted newest first and adds exactly the new row |
| DocumentStore.Store.constructor | backend/app/core/document_store.py:17-33 | the table starts with the given rows |
| DocumentStore.Store.AddDocument | backend/app/core/document_store.py:42-69 | an insert succeeds exactly when the database works and the id is new, storing the row with empty metadata when none is given; otherwise the table is unchanged |
| DocumentStore.Store.GetAllDocuments | backend/app/core/document_store.py:71-102 | a failure gives an empty list; otherwise every row appears once, newest first |
| DocumentStore.Store.GetDocument | backend/app/core/document_store.py:104-132 | a row is returned exactly when the database works and the id is present |
| DocumentStore.Store.DeleteDocument | backend/app/core/document_store.py:134-147 | a delete removes the id, reports success even when the id was absent, and changes nothing on failure |
| DocumentStore.Store.DeleteAllDocuments | backend/app/core/document_store.py:149-162 | a successful clear empties the table |
| DocumentStore.Store.UpdateChunkCount | backend/app/core/document_store.py:164-180 | only the chunk count of the given row changes; an absent id changes nothing |
| DocumentStore.Store.GetDocumentCount | backend/app/core/document_store.py:182-194 | the number of rows, 0 on failure |
| DocumentStore.AddThenGet | backend/app/core/document_store.py:42-132 | a row added under a new id reads back with its fields and default metadata |
| DocumentsApi.VectorIndex.UpsertPoints | backend/app/core/qdrant_service.py:36-46 | the upsert is logged and its answer returned |
| DocumentsApi.VectorIndex.DeleteDocument | backend/app/core/qdrant_service.py:91-108 | the delete by document id is logged and its answer returned |
| DocumentsApi.ChunkCount | backend/app/core/qdrant_service.py:110-137 | the chunk count read back is at most the scroll limit of 10000, and is exact below it |
| DocumentsApi.Rejected | backend/app/api/routes/documents.py:71-81 | a ValueError becomes a 400 with its message; any other failure becomes a 500 "Internal server error" |
| DocumentsApi.UploadDocument | backend/app/api/routes/documents.py:19-81 | validation and extraction failures are rejected before anything is stored; an embedding failure is a 500 and stores nothing; otherwise the points are upserted once; a refused upsert is a 500 with no row; success adds the row and answers "completed" with the chunk count |
| DocumentsApi.UploadPointsOf | backend/app/api/routes/documents.py:31-49 | the upserted points are the chunk embeddings, with their UUIDs and metadata |
| DocumentsApi.UploadChecksFirst | backend/app/api/routes/documents.py:22-29 | the file type is checked before the size, and the size before extraction |
| DocumentsApi.Responses | backend/app/api/routes/documents.py:84-94 | one response per row, in order |
| DocumentsApi.ListDocuments | backend/app/api/routes/documents.py:84-94 | lists every stored document exactly once, newest first, and nothing else |
| DocumentsApi.ResponsesCover | backend/app/api/routes/documents.py:84-94 | every row's response appears in the listing |
| DocumentsApi.ResponsesFromRows | backend/app/api/routes/documents.py:84-94 | every listed response is some row's |
| DocumentsApi.GetDocument | backend/app/api/routes/documents.py:97-120 | an unknown id is a 404 "Document not found"; otherwise the row's response with the chunk count read from the vector index |
| DocumentsApi.DeleteDocument | backend/app/api/routes/documents.py:123-159 | an unknown id is a 404 and changes nothing; otherwise the vector delete is requested; a refusal is a 500 that keeps the row; success removes the row and names the file |
| DocumentsApi.DeleteRequests | backend/app/api/routes/documents.py:165-172 | one vector delete per document, in order |
| DocumentsApi.DeleteAllDocuments | backend/app/api/routes/documents.py:162-185 | one vector delete per listed document, then the table is cleared; the message counts the documents |
| DocumentsApi.DeleteRequestsCover | backend/app/api/routes/documents.py:165-172 | every listed document's vectors are asked to be deleted |
| RagApi.Turns | backend/app/api/routes/rag.py:24-27 | the request history becomes service turns with the same roles and contents |
| RagApi.Chat | backend/app/api/routes/rag.py:14-48 | the response carries the service's answer and sources for the message with its history, and no tool calls |
| RagApi.Frame | backend/app/api/routes/rag.py:69-79 | a server-sent event frame is "data: ", the JSON, and a blank line |
| RagApi.StreamShape | backend/app/api/routes/rag.py:61-79 | a stream is the sources event, one content event per answer character and the done event, or a single error event |
| RagApi.StreamCounts | backend/app/api/routes/rag.py:69-75 | a successful stream has two more events than the answer has characters |
| RagApi.Generate | backend/app/api/routes/rag.py:61-79 | each frame is the encoded event at its position |
| RagApi.ChatStream | backend/app/api/routes/rag.py:51-96 | the stream frames the events of the service's answer |
| RagApi.StreamMatchesChat | backend/app/api/routes/rag.py:14-96 | the streamed content spells out the answer of the plain chat endpoint |
| RagApi.SearchLimit | backend/app/api/routes/rag.py:109 | the search limit is the request's top_k, or 5 when absent or 0 |
| RagApi.Search | backend/app/api/routes/rag.py:99-124 | an embedding error is a 500 naming it; otherwise the results of the search at threshold 0.5 and their count |
| RagApi.ClearHistory | backend/app/api/routes/rag.py:127-132 | clearing the history always reports success |
| Regolo.ServiceOf | backend/app/core/regolo_service.py:16-17 | the client uses the configured model names |
| Regolo.BuildParams | backend/app/core/regolo_service.py:40-49 | the request holds model, messages, temperature and max_tokens; tools and tool_choice are present exactly when tools are given |
| Regolo.ChatCompletion | backend/app/core/regolo_service.py:30-62 | the request built from the arguments is sent with the stream flag, and its answer returned |
| Regolo.Converted | backend/app/core/regolo_service.py:91-101 | each raw tool call becomes a call with its id, function name and arguments |
| Regolo.Shape | backend/app/core/regolo_service.py:84-107 | a reply with tool calls returns them without content; a reply without them returns its content |
| Regolo.MessageList.Extend | backend/app/core/regolo_service.py:72-73 | extending appends the given messages |
| Regolo.WithSystem | backend/app/core/regolo_service.py:72-76 | a non-empty system prompt is prepended; otherwise the messages are unchanged |
| Regolo.ChatWithFunctionCalling | backend/app/core/regolo_service.py:64-110 | tool responses are appended to the caller's list; the request carries the system prompt and tools with tool_choice "auto" only when there are tools; the reply is shaped as tool calls or content |
| Regolo.ContextMessages | backend/app/core/regolo_service.py:112-126 | exactly a system message and a user message holding the context and the question; the default prompt is used only when none is given |
| Regolo.GenerateWithContext | backend/app/core/regolo_service.py:112-129 | the answer is the reply's content to the context messages, with no tools |
| Regolo.GenerateEmbedding | backend/app/core/regolo_service.py:19-28 | the first embedding of the reply, an index error when the reply has none, or the endpoint's error |
| ChatClient.ChatSession.Submit | frontend/js/chat.js:6-49 | a blank input changes nothing; otherwise the input is cleared, the user turn is recorded, and the request is sent with the history, which already ends with the new user turn, and top_k 5; a reply adds the assistant turn and shows sources only when there are any |
| ChatClient.ChatSession.ClearConversation | frontend/js/chat.js:148-149 | clearing empties the conversation |
| ChatClient.QueryReachesAgentTwice | frontend/js/chat.js:19-22 | the history sent already holds the new message, so the agent's transcript ends with it twice |
| ChatClient.GetFileIcon | frontend/js/chat.js:227-234 | pdf, docx and txt have their own icons; anything else gets the generic one |
| ChatClient.IconsDistinct | frontend/js/chat.js:227-234 | the three supported types have pairwise distinct icons, none of them the generic one |
| UploadClient.RawTypeSpec | frontend/js/upload.js:38-39 | the extension read by the client is the last dot-segment of the name |
| UploadClient.FileTypeIsLastSegment | frontend/js/upload.js:38-39 | the client's file type is the lowercased last dot-segment |
| UploadClient.AcceptedFiles | frontend/js/upload.js:34-67 | the uploaded files are the accepted ones, in order |
| UploadClient.Toasts | frontend/js/upload.js:34-67 | one message per selected file |
| UploadClient.ToastsSpec | frontend/js/upload.js:41-61 | each file's message reports its invalid type, its excessive size, its successful upload or its upload error |
| UploadClient.UploadPage.HandleFiles | frontend/js/upload.js:34-67 | the accepted files are uploaded in order, one message is shown per file, and the input is cleared |
| UploadClient.HandleFile | frontend/js/upload.js:38-61 | a file is sent exactly when accepted, with its message |
| UploadClient.AcceptedFilesSpec | frontend/js/upload.js:34-49 | a file is uploaded exactly when it is selected and accepted |
| UploadClient.BrowserMatchesServer | frontend/js/upload.js:38-49 | the client accepts a file exactly when the server's type and size checks would |
| UploadClient.SizeEdge | frontend/js/upload.js:46-49 | exactly 10 MB passes the client and one byte more fails |

## Left out

- The language model, the embedding endpoint, the PDF and DOCX decoders, UTF-8 decoding, the text splitter and the vector index's answers are parameters (oracles): the model states what the core does with their answers, not what they compute.
- Floating point: hit scores are integer hundredths and parsed scores exact decimals, so `f"{score:.2f}"` rounding, float parsing precision and `toFixed` are not modelled; the temperature is kept in hundredths.
- Citation.MatchTagComplete: the digit classes of the pattern (`\d` in the tag number and in `[\d.]+`) are read as the ASCII digits 0-9, while Python's `\d` also accepts other Unicode decimal digits; the tool writes its tag numbers and scores in ASCII, so only a message that carries foreign digits inside a tag is matched differently.
- Citation.MatchTag, Citation.ParseScore: `\d` and the digits `float()` accepts are ASCII 0-9 only; Unicode decimal digits in a tag are not modelled.
- `generate_query_embedding` is the runtime's `embedQuery` oracle: it only forwards the query to the one-text embedding call (`Regolo.GenerateEmbedding`).
- Lowercasing works on ASCII letters only; Python's and JavaScript's Unicode case mappings are not modelled.
- JSON encoding of stream events and the SQLite/JSON serialisation of metadata are parameters or left out; the stored metadata reads back as written.
- UUID generation and the clock are parameters (`uuid`, `now`).
- The agent's recursion limit is a step budget (`rt.steps`); running out gives the runtime's error text, as LangGraph's limit error does.
- The `top_k` of a chat request is accepted but does not reach the agent, as in the code; the model records that it is dropped.
- DocumentsApi.ChunkCount: the index's scroll is a parameter capped at 10000; pagination beyond that limit is not modelled.
- DocumentStore.Store.GetAllDocuments: the order among rows with equal `uploaded_at` is left open, as SQLite leaves it.
- Regolo.BuildParams: a `tool_choice` given as a dictionary is not modelled; only the string form is.
- Embedding errors reach the upload route as non-ValueError failures, so they always become 500s.
- Exception paths that no modelled callee can reach are left out: the 500 of the chat route, the stream's setup failure, the 500 of the listing route, and the delete route's 500 (whose detail lacks its f-string prefix).
- Route order: `DELETE /all` is declared after `DELETE /{doc_id}` and is shadowed by it in the running server; the model treats the two handlers separately.
- `run_async`, the thread pool and all other concurrency are left out; every call runs to completion in order.
- The browser's DOM rendering and markdown display, `api.js`'s fetch plumbing (beyond the top_k of 5 it sends), the health and application setup routes and the test scripts are not part of this model.
- ChatClient.GetFileIcon: JavaScript prototype keys such as "constructor" are not modelled; the server only ever reports pdf, docx or txt.
