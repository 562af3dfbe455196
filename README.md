# Travel planning chatbot: a Dafny model

The system is a travel chatbot. A FastAPI service exposes `POST /ask`, which runs a LangGraph
agent. The agent's oracle node asks a language model to classify the query as weather, book,
combined, chitchat or irrelevant, and `get_intent` routes the state to one chain of nodes:

- weather locations from the query, then the weather tool;
- book passages from a Chroma store holding Mark Twain's "The Innocents Abroad";
- locations found in those passages, then the weather tool;
- small talk;
- a fixed fallback message.

Every chain ends in one node that writes the final answer. A startup hook waits for Chroma and
loads the book into the collection, but only when the collection is empty. Three front ends call
the service:

- a styled Streamlit app that streams the reply word by word;
- a plain Streamlit app;
- a small HTML form whose history is one module-level list.

The model has one module per source file:

- `TravelAgent`: graph, nodes, routing and step loop.
- `Prompts`: the five templates and the `str.format` subset that renders them.
- `Tools` and `WeatherApi`: the two tools and the WeatherAPI client.
- `VectorStore`, `DocumentProcessor` and `TextProcessing`: the book pipeline.
- `App`: the service: `/ask` and the startup hook.
- `StreamlitApp`, `SimpleStreamlitApp` and `MainV1`: the front ends. They share `Chat`, which
  holds the message-pairing window and word streaming.

Four helper modules stand in for Python behaviour:

- `Wrappers`: Option and Result.
- `Decimal`: `str(int)`.
- `PyText`: `split()`, `in`, negative slicing and line splitting.
- `Json`: the Python values a JSON body produces, with `.get`, `[]`, `in`, truthiness, `str()`
  and `repr()`. Escaping in strings is exact up to U+00FF; see "## Left out" for characters above it.

Exceptions are modelled as `Err` values carrying Python's message. The language model, the
JSON parser, the HTTP calls, Chroma, the embedder, the file reader and the text splitter are
function parameters.

Where the declared types and the code disagree, the model follows the code. `TravelGraphState`
is a `TypedDict`, which Python does not enforce, so:

- `intent` and `locations` hold whatever the parsed JSON gives;
- `weather_info` holds the weather tool's list of reports, although it is declared `str`.

## Model

| member | source | states |
|---|---|---|
| TravelAgent.Apply | src/agent/travel_agent.py:12-19 | merging a node's update overwrites exactly the keys it names and keeps query and chat history |
| TravelAgent.NewServices | src/agent/travel_agent.py:24-34 | the graph's prompts and tools are the modelled `Prompts.Create`, weather tool and book search |
| TravelAgent.GetIntent | src/agent/travel_agent.py:70-80 | every route key it returns is a key of the conditional-edge map |
| TravelAgent.Next | src/agent/travel_agent.py:51-66 | every edge leads to a node strictly closer to END, so the graph is acyclic |
| TravelAgent.Invoke | src/agent/travel_agent.py:37-68 | the step loop computes exactly the compiled graph's run from the entry point |
| TravelAgent.StepUnfold | src/agent/travel_agent.py:37-68 | a run is the node's update merged, then the edge taken on the updated state |
| TravelAgent.AfterNothing | src/agent/travel_agent.py:37-68 | nothing already run leaves a run unchanged |
| TravelAgent.AfterAfter | src/agent/travel_agent.py:37-68 | already-run paths compose by concatenation |
| TravelAgent.ChainPath | src/agent/travel_agent.py:60-66 | past the oracle, a finished run visits exactly the fixed chain of its first node |
| TravelAgent.RunPath | src/agent/travel_agent.py:50-66 | a finished run is the oracle followed by the chain of the node its intent routes to |
| TravelAgent.Untouched | src/agent/travel_agent.py:83-125 | a key that no node on the path writes keeps its value through the run |
| TravelAgent.NodeWrites | src/agent/travel_agent.py:83-125 | each node's update has exactly the keys of its return dict |
| TravelAgent.NodesWriteOwnKeys | src/agent/travel_agent.py:83-125 | every node of the graph writes only its own keys |
| TravelAgent.IntentOnlyFromOracle | src/agent/travel_agent.py:83-87 | the intent is written by the oracle node and no other |
| TravelAgent.OracleIntentDefault | src/agent/travel_agent.py:86 | a reply without "category" sets the intent to "irrelevant" |
| TravelAgent.LocationsDefault | src/agent/travel_agent.py:93 | a reply without "locations" sets the locations to [] |
| TravelAgent.FallbackConstant | src/agent/travel_agent.py:116-119 | the fallback node writes the fixed message whatever the state |
| TravelAgent.IntentTotal | src/agent/travel_agent.py:70-80 | a string intent always routes and never raises |
| TravelAgent.WeatherFirst | src/agent/travel_agent.py:71-72 | an intent containing "weather" routes to weather whatever else it contains |
| TravelAgent.BookBeforeCombined | src/agent/travel_agent.py:73-74 | without "weather", "book" or "travel" route to the book even when "combined" occurs |
| TravelAgent.WeatherIff | src/agent/travel_agent.py:71-72 | the weather route is taken if and only if "weather" occurs |
| TravelAgent.BookIff | src/agent/travel_agent.py:73-74 | the book route is taken if and only if "book" or "travel" occurs and "weather" does not |
| TravelAgent.CombinedOnly | src/agent/travel_agent.py:75-76 | the combined route is taken if and only if "combined" occurs and none of "weather", "book", "travel" does |
| TravelAgent.ChitchatIff | src/agent/travel_agent.py:77-78 | the chitchat route is taken if and only if "chitchat" occurs and none of "weather", "book", "travel", "combined" does |
| TravelAgent.IrrelevantIff | src/agent/travel_agent.py:79-80 | the fallback is chosen if and only if none of the five words occurs |
| TravelAgent.EmptyIntentIsIrrelevant | src/agent/travel_agent.py:70-80 | the initial empty intent routes to the fallback |
| TravelAgent.IntentTypeError | src/agent/travel_agent.py:71 | an intent that `in` cannot search raises TypeError with Python's message |
| TravelAgent.RouteFrames | src/agent/travel_agent.py:37-68 | a finished run leaves every key no node on its path writes as it was |
| TravelAgent.WeatherRoute | src/agent/travel_agent.py:54 | the weather route runs four fixed nodes and leaves the context unchanged |
| TravelAgent.CombinedRoute | src/agent/travel_agent.py:56 | the combined route reads the book for locations, then asks for the weather |
| TravelAgent.BookRoute | src/agent/travel_agent.py:55 | the book route leaves the weather info and the locations unchanged |
| TravelAgent.AnswerWrittenOnce | src/agent/travel_agent.py:37-68 | every finished run writes the final answer exactly once, and the intent exactly once |
| TravelAgent.ChainWriters | src/agent/travel_agent.py:60-66 | a chain past the oracle writes the answer once, at its end, and never the intent |
| TravelAgent.NodesAnswerWithString | src/agent/travel_agent.py:111-125 | every node that ends a run writes a string answer |
| TravelAgent.FinalAnswerIsString | src/agent/travel_agent.py:37-68 | a finished run ends with a string final answer |
| TravelAgent.NodeInputsDeclared | src/agent/travel_agent.py:85-124 | each node invokes its template with exactly its declared variables, so rendering never fails |
| Prompts.Escape | src/agent/prompts.py:9-59 | doubling braces never shortens text |
| Prompts.PrependPrepend | src/agent/prompts.py:9-59 | prefixes compose |
| Prompts.BraceAt | src/agent/prompts.py:9-59 | the scan stops at the first brace after the start, or at the end |
| Prompts.Chars | src/agent/prompts.py:9-59 | literal text becomes one piece per character |
| Prompts.WellFormedSplit | src/agent/prompts.py:9-59 | a well-formed segment list stays well formed without its head |
| Prompts.ScanEscaped | src/agent/prompts.py:9-59 | parsing brace-doubled text gives back the text |
| Prompts.ScanSlot | src/agent/prompts.py:9-59 | parsing `{name}` gives the field |
| Prompts.ScanSegment | src/agent/prompts.py:9-59 | each segment parses back to its own pieces |
| Prompts.ScanSpell | src/agent/prompts.py:9-59 | a well-formed template string parses back to its segments (round trip) |
| Prompts.SpellCons | src/agent/prompts.py:9-59 | the template string of a segment list is its head's spelling followed by the rest |
| Prompts.ScanSpellThen | src/agent/prompts.py:9-59 | parsing a template string followed by more text parses each part in turn |
| Prompts.SlotNamesMember | src/agent/prompts.py:9-59 | a name is listed as a field if and only if the template holds that field |
| Prompts.FieldNamesAppend | src/agent/prompts.py:9-59 | field names distribute over concatenation |
| Prompts.FieldNamesOfChars | src/agent/prompts.py:9-59 | literal text has no fields |
| Prompts.FieldNamesOfExpand | src/agent/prompts.py:9-59 | the parsed fields are the template's fields, in order |
| Prompts.FormatAppend | src/agent/prompts.py:9-59 | formatting distributes over concatenation |
| Prompts.FormatChars | src/agent/prompts.py:9-59 | literal text formats to itself |
| Prompts.FormatExpand | src/agent/prompts.py:9-59 | with every field supplied, formatting fills each field with `str()` of its argument |
| Prompts.FieldsOf | src/agent/prompts.py:9-207 | the fields of each template are exactly its declared input variables |
| Prompts.UsedNamesOk | src/agent/prompts.py:57 | the field names used are ASCII identifiers, so each field is a plain name |
| Prompts.DeclaredNamesOk | src/agent/prompts.py:55-58 | every declared variable is a valid field name |
| Prompts.PlaceholdersAreDeclared | src/agent/prompts.py:9-207 | every template parses, and its fields are exactly its declared variables |
| Prompts.InvokeFills | src/agent/prompts.py:9-207 | a template renders if and only if every declared variable is supplied, and then it renders to its text with the fields filled |
| Prompts.InvokeDeclared | src/agent/prompts.py:55-58 | the same for any well-formed template, and the missing-variables error otherwise |
| Tools.ARun | src/tools/tools.py:46-60 | the gathered loop returns the parsed, non-empty reports of the locations, in order |
| Tools.Filter | src/tools/tools.py:55-58 | the filtering loop keeps exactly the truthy parse results, in order |
| Tools.FirstFailure | src/tools/tools.py:53 | gathering raises the first failure in list order among the lookups |
| Tools.RunAsWrittenRaises | src/tools/tools.py:36 | as written, the synchronous tool raises NameError on a location for which the asynchronous tool answers [] |
| Tools.Run | src/tools/tools.py:31-44 | the synchronous loop, with the key read as `_arun` reads it, looks up and parses one location at a time |
| Tools.RunAgreesWithARun | src/tools/tools.py:31-60 | the two loops succeed on the same inputs and then return the same reports |
| Tools.InterleavedIsGathered | src/tools/tools.py:38-60 | looking up and parsing in turn equals gathering every lookup first, then parsing |
| Tools.CollectUnfold | src/tools/tools.py:55-58 | one more result is kept exactly when it parses to a report |
| Tools.MapResultSnoc | src/tools/tools.py:52-53 | gathering one more lookup succeeds if and only if it and the earlier ones do |
| Tools.CollectAppend | src/tools/tools.py:55-58 | filtering distributes over concatenation |
| Tools.CollectLength | src/tools/tools.py:55-58 | no more reports than results |
| Tools.CollectSnoc | src/tools/tools.py:55-58 | a result is appended if and only if it parses to a report |
| Tools.KeepsParsed | src/tools/tools.py:57 | a parsed result is kept if and only if it is a report, not None |
| Tools.FalsyLocations | src/tools/tools.py:48-49 | falsy locations give [] without any request |
| Tools.WeatherReportsBound | src/tools/tools.py:46-60 | at most one report per location |
| Tools.LookupFailureAborts | src/tools/tools.py:52-53 | a lookup that raises makes the whole tool raise |
| Tools.RagRun | src/tools/tools.py:71-75 | the book tool returns the store's hits laid out as passages |
| Tools.RagAnswerOk | src/tools/tools.py:71-75 | the book tool fails only when the search does, and then numbers one passage per hit |
| Tools.RagARun | src/tools/tools.py:77-78 | the asynchronous book tool always raises NotImplementedError with its message |
| WeatherApi.ParseResultsNoneIff | src/tools/wether_api.py:39-40 | a reply is dropped if and only if it holds "error" |
| WeatherApi.ParseResultsErrors | src/tools/wether_api.py:39-43 | a reply that is not a container raises TypeError, and one that is not a dict raises AttributeError |
| WeatherApi.ParseResultsReport | src/tools/wether_api.py:42-60 | a well-shaped reply gives the report of its readings, with the documented defaults |
| WeatherApi.FailedRequestIsDropped | src/tools/wether_api.py:19-22 | a non-200 reply becomes the error dict, which parsing drops |
| WeatherApi.SuccessfulRequestIsBody | src/tools/wether_api.py:19-20 | a 200 reply is its decoded body |
| WeatherApi.LineBreakFree | src/tools/wether_api.py:55-60 | a line built from break-free parts has no line break |
| WeatherApi.ReportHasSixLines | src/tools/wether_api.py:55-60 | with one-line readings, splitting the report on line breaks gives back its six lines |
| WeatherApi.ReportLinesBreakFree | src/tools/wether_api.py:55-60 | with one-line readings, no line of the report holds a break |
| WeatherApi.TitleBreakFree | src/tools/wether_api.py:55 | the title line holds no break |
| WeatherApi.LabelsBreakFree | src/tools/wether_api.py:56-60 | the captions and units hold no break |
| VectorStore.Collection.constructor | src/vector_search/vector_store.py:36-39 | a new collection is empty |
| VectorStore.Collection.Add | src/vector_search/vector_store.py:50-55 | adding appends the batch's records and raises the count by the batch size |
| VectorStore.Store.constructor | src/vector_search/vector_store.py:19-40 | the store keeps its collection name, host, port and collection |
| VectorStore.Store.AddDocuments | src/vector_search/vector_store.py:42-55 | the chunks are added if and only if they all have text, id and metadata and the embedder succeeds; otherwise nothing is added |
| VectorStore.Store.Search | src/vector_search/vector_store.py:57-67 | the search returns the query result reshaped to hits |
| VectorStore.FormatResults | src/vector_search/vector_store.py:69-78 | the loop computes the reshaped hits |
| VectorStore.ReshapedLength | src/vector_search/vector_store.py:72 | reshaping succeeds if and only if the metadata and distance rows are at least as long as the documents row, and gives one hit per document |
| VectorStore.ReshapedEntry | src/vector_search/vector_store.py:73-77 | hit i holds document i, metadata i and one minus distance i |
| VectorStore.HitFields | src/vector_search/vector_store.py:73-77 | a hit is a dict of exactly the three keys text, metadata and similarity, in that order, holding the document, its metadata and 1 − distance |
| VectorStore.SimilarityOrder | src/vector_search/vector_store.py:76 | a distance no larger gives a similarity no smaller, a strictly smaller distance a strictly higher similarity, and distance 0 gives similarity 1 |
| VectorStore.ShapeParallel | src/vector_search/vector_store.py:44-48 | the shaped batch has one id, text and metadata per chunk, each read from the chunk at the same index |
| VectorStore.ShapeOkIff | src/vector_search/vector_store.py:44-48 | shaping succeeds if and only if every chunk is a dict with the three keys and the embedder succeeds |
| VectorStore.ChunkKeysOk | src/vector_search/vector_store.py:44-48 | each chunk field can be read if and only if the chunk is a dict holding that key |
| VectorStore.ChunkIdInjective | src/vector_search/vector_store.py:47 | distinct integer chunk ids give distinct record ids |
| VectorStore.PrefixCancel | src/vector_search/vector_store.py:47 | the common "chunk_" prefix cancels |
| DocumentProcessor.LoadAndProcess | src/vector_search/document_processor.py:12-29 | the loop numbers the split chunks from 0, each with its text and the metadata None |
| DocumentProcessor.ChunkFields | src/vector_search/document_processor.py:23-27 | a chunk dict holds its text, its index and None |
| DocumentProcessor.NumberedEntries | src/vector_search/document_processor.py:22-27 | one dict per chunk, the i-th with the i-th text and id i |
| DocumentProcessor.IdsDistinct | src/vector_search/document_processor.py:25 | the record ids of different chunks differ |
| DocumentProcessor.TextsOfNumbered | src/vector_search/document_processor.py:24 | the store reads back exactly the chunk texts |
| DocumentProcessor.IdsOfNumbered | src/vector_search/document_processor.py:25 | the store's record ids are "chunk_0", "chunk_1" and so on |
| DocumentProcessor.ChunkIdOfDict | src/vector_search/document_processor.py:25 | the record id of chunk i is "chunk_" and i |
| DocumentProcessor.MetadataOfNumbered | src/vector_search/document_processor.py:26 | every chunk's metadata is None |
| DocumentProcessor.ShapeOfNumbered | src/vector_search/document_processor.py:22-27 | processed chunks are always storable when the embedder succeeds, as records of their texts and ids |
| TextProcessing.FormatRetrievedChunks | src/utils/text_processing.py:1-7 | the loop builds the numbered passages, or raises on the first hit that is not a dict |
| TextProcessing.AppendLaw | src/utils/text_processing.py:4-6 | one more hit appends one more numbered passage |
| TextProcessing.StepLaw | src/utils/text_processing.py:4-6 | each step of the loop either raises the error of the whole formatting or extends the text formatted so far by the next passage |
| TextProcessing.ErrorPersists | src/utils/text_processing.py:4-6 | once a hit raises, later hits change nothing |
| TextProcessing.FormattedEmpty | src/utils/text_processing.py:3 | no hits give the empty string |
| TextProcessing.PassagesOkIff | src/utils/text_processing.py:5 | formatting succeeds if and only if every hit is a dict |
| TextProcessing.PassageWithoutText | src/utils/text_processing.py:5 | a hit without "text" gives an empty passage body |
| TextProcessing.PassageWithText | src/utils/text_processing.py:5 | a hit with text gives "Passage k:", the text and a blank line |
| App.NewRequest | app.py:43-45 | a request without chat history gets [] |
| App.InitialState | app.py:87-95 | the initial state copies query and history and sets every other key empty |
| App.AskAgent | app.py:98-104 | the reply is the run's final answer, or "Error: " and the message of what the graph raised |
| App.ReplyIsString | app.py:98-104 | the reply always has exactly the one key "response", holding a string |
| App.ReplyOnFallback | app.py:98-101 | an irrelevant query is answered with the fixed fallback message |
| App.Connect | app.py:61-71 | the first successful attempt among 30, or RuntimeError if and only if every attempt fails |
| App.LoadBook | app.py:73-82 | a non-empty collection is left alone; an empty one ends up holding exactly the book's records, or nothing if loading fails |
| App.Startup | app.py:59-82 | when Chroma never answers, RuntimeError and nothing loaded; when it answers, a non-empty collection is left alone and an empty one is loaded with exactly the book, successfully if and only if processing and shaping succeed |
| App.StartupTwice | app.py:74-82 | after a first start that succeeds, the second succeeds and leaves the records as they were; on an empty collection they are exactly the book |
| Chat.PairUp | ui/streamlit_app.py:337-346 | the pairing loop computes the user-then-assistant pairs of the window, taken from the front |
| Chat.PairsBound | ui/streamlit_app.py:337-346 | at most one pair per two messages |
| Chat.PairedShift | ui/streamlit_app.py:337-346 | pairs found in a suffix sit at shifted positions of the whole list |
| Chat.PairedCons | ui/streamlit_app.py:339-344 | an adjacent user-then-assistant pair before the others extends the pairing |
| Chat.PairsAdjacent | ui/streamlit_app.py:339-344 | every pair comes from adjacent user and assistant messages, in order |
| Chat.WindowExcludesPrompt | ui/streamlit_app.py:333 | the window is the eight messages before the new prompt |
| Chat.SentBound | ui/streamlit_app.py:350 | the history sent is the pairs of those eight messages: at most four |
| Chat.Exchanges | ui/streamlit_app.py:324-363 | each completed exchange is two messages |
| Chat.ExchangesSuffix | ui/streamlit_app.py:324-363 | a suffix of the exchanges is a suffix of the messages |
| Chat.ExchangesSnoc | ui/streamlit_app.py:324-363 | a new exchange appends its user and assistant messages |
| Chat.TranscriptSnoc | ui/streamlit_app.py:324-363 | the message list stays the opening followed by the exchanges |
| Chat.PairsOfExchanges | ui/streamlit_app.py:337-346 | pairing a transcript gives back its exchanges |
| Chat.PairsSkipOpening | ui/streamlit_app.py:247-253 | the welcome message pairs with nothing |
| Chat.SentOfTranscript | ui/streamlit_app.py:333-350 | the chat-input handler sends exactly the last four completed exchanges |
| Chat.LastOfTranscript | ui/streamlit_app.py:333 | the last eight messages of a long transcript are its last four exchanges |
| Chat.UserCountIsPositions | ui/streamlit_app.py:216 | the metric counts the positions holding a user message |
| Chat.UserCountExchange | ui/streamlit_app.py:216 | each exchange adds one to the metric |
| Chat.UserCountOfTranscript | ui/streamlit_app.py:216 | the metric is the number of completed exchanges |
| Chat.Pieces | ui/streamlit_app.py:188-192 | one streamed piece per word |
| Chat.StreamResponse | ui/streamlit_app.py:188-192 | the generator yields each word followed by a space, except the last |
| Chat.ConcatSnoc | ui/streamlit_app.py:310-311 | accumulating one more piece appends it |
| Chat.ConcatPieces | ui/streamlit_app.py:188-192 | the streamed pieces join back to the words separated by single spaces |
| Chat.StreamedText | ui/streamlit_app.py:188-192 | a blank reply streams nothing, and otherwise its words joined by single spaces |
| Chat.Display | ui/streamlit_app.py:306-314 | the text shown is the reply's words joined by single spaces |
| StreamlitApp.Session.constructor | ui/streamlit_app.py:247 | a new session has no "messages" and no pending query |
| StreamlitApp.Session.Start | ui/streamlit_app.py:247-253 | a fresh session starts with exactly the welcome message, and a started one is unchanged |
| StreamlitApp.Session.Clear | ui/streamlit_app.py:210-212 | clearing empties the messages, and the welcome does not come back |
| StreamlitApp.Session.MessagesSent | ui/streamlit_app.py:215-217 | the metric is shown exactly when "messages" exists, and is then the number of places holding a user message |
| StreamlitApp.Session.PickSample | ui/streamlit_app.py:228-230 | a sample query waits as the pending query, and the messages are unchanged |
| StreamlitApp.Session.Exchange | ui/streamlit_app.py:322-363 | the last four exchanges are sent, and the prompt and the reply are appended |
| StreamlitApp.Session.ChatInput | ui/streamlit_app.py:322-363 | the chat input sends the last four exchanges and appends prompt and reply |
| StreamlitApp.Session.HandlePending | ui/streamlit_app.py:256-319 | corrected handler: a pending query is consumed and answered with the last four exchanges as history, pairing as lines 333-346 do; the code as written is `StreamlitApp.PendingHistoryAsWritten` |
| StreamlitApp.Conversational | ui/streamlit_app.py:280-285 | the filtered window is no longer than the window |
| StreamlitApp.ConversationalAll | ui/streamlit_app.py:284 | a window of user and assistant messages passes the filter whole |
| StreamlitApp.PendingAt | ui/streamlit_app.py:290-300 | each step takes at most one pair: a user message followed by an assistant message |
| StreamlitApp.PendingUnfold | ui/streamlit_app.py:289 | the as-written loop is one step per even offset |
| StreamlitApp.RecentCount | ui/streamlit_app.py:280-285 | the filtered window has at most eight messages, and no more than the message list |
| StreamlitApp.PendingStep | ui/streamlit_app.py:290-300 | the loop body as written computes the step's pair |
| StreamlitApp.PendingHistoryAsWritten | ui/streamlit_app.py:280-300 | the as-written loop builds the as-written pairing |
| StreamlitApp.PendingAsWrittenBound | ui/streamlit_app.py:289-300 | as written, at most one pair per two places of the window |
| StreamlitApp.PendingAsWrittenFour | ui/streamlit_app.py:280-304 | as written, at most four pairs, so the `[-4:]` of the call cuts nothing |
| StreamlitApp.PendingAsWrittenAdjacent | ui/streamlit_app.py:290-300 | as written, each pair still comes from adjacent messages, in order |
| StreamlitApp.PendingAsWrittenNone | ui/streamlit_app.py:289-300 | as written, no user message at an even place means no pairs |
| StreamlitApp.WelcomedRoles | ui/streamlit_app.py:247-253 | in a welcomed session, users sit at odd places and assistants at even places |
| StreamlitApp.WelcomedRecent | ui/streamlit_app.py:280-285 | in a welcomed session, every message of the last eight passes the filter |
| StreamlitApp.PendingAsWrittenDropsHistory | ui/streamlit_app.py:280-300 | as written, a welcomed session sends no history for a sample query, where the chat input sends the last four exchanges |
| StreamlitApp.DropsHistory | ui/streamlit_app.py:280-300 | the same for any opening assistant message |
| SimpleStreamlitApp.Session.constructor | ui/simple_streamlit_app.py:63 | a new session has no "messages" and no pending query |
| SimpleStreamlitApp.Session.Start | ui/simple_streamlit_app.py:62-69 | a fresh session starts with exactly the welcome message |
| SimpleStreamlitApp.Session.Clear | ui/simple_streamlit_app.py:41-43 | clearing empties the messages for good |
| SimpleStreamlitApp.Session.MessagesSent | ui/simple_streamlit_app.py:46-48 | the metric is shown exactly when "messages" exists, and is then the number of places holding a user message |
| SimpleStreamlitApp.Session.PickSample | ui/simple_streamlit_app.py:58-60 | a sample query waits as the pending query |
| SimpleStreamlitApp.Session.Ask | ui/simple_streamlit_app.py:112-140 | the last four exchanges are sent, the reply is shown whole, and prompt and reply are appended |
| SimpleStreamlitApp.Session.HandlePending | ui/simple_streamlit_app.py:77-109 | a pending query is consumed and answered with the last four exchanges |
| SimpleStreamlitApp.Session.ChatInput | ui/simple_streamlit_app.py:112-140 | the chat input sends the last four exchanges |
| SimpleStreamlitApp.HandlersAgree | ui/simple_streamlit_app.py:77-140 | both handlers send the same history and leave the same messages |
| MainV1.ResponseTextCases | ui/main_v1.py:45-53 | the response text in each case: the exception, a non-200 status, a body that is not a dict, a missing "response" key |
| MainV1.ShowsAgentAnswer | ui/main_v1.py:48-49 | when the service answers, the page shows exactly the agent's string |
| MainV1.ChatLog.constructor | ui/main_v1.py:13 | the history starts empty |
| MainV1.ChatLog.FormPost | ui/main_v1.py:37-61 | a POST sends the last four entries, appends the new one, caps the history at four, and renders all but the newest |
| MainV1.HistoryForApi | ui/main_v1.py:41-44 | the history sent is the last four entries |
| MainV1.CappedHistory | ui/main_v1.py:55-56 | after a POST, at most four entries: the newest last, and the ones before it in order |
| MainV1.RenderedHistory | ui/main_v1.py:57-61 | the page lists every entry but the newest: at most three |
| Decimal.NatToStringRoundTrip | src/utils/text_processing.py:5 | the decimal digits of n read back as n |
| Decimal.IntToStringRoundTrip | src/utils/text_processing.py:5 | `int(str(i)) == i` |
| Decimal.NegativeRoundTrip | src/utils/text_processing.py:5 | the negative case of `Decimal.IntToStringRoundTrip`: a minus sign and the digits read back as the negative number |
| Decimal.IntToStringInjective | src/vector_search/vector_store.py:47 | different integers print differently |
| PyText.WordEnd | ui/streamlit_app.py:190 | a word runs to the next space or the end |
| PyText.Words | ui/streamlit_app.py:190 | `split()` gives non-empty words without spaces |
| PyText.WordsEmptyIffBlank | ui/streamlit_app.py:190 | `split()` is empty if and only if the text is all whitespace |
| PyText.JoinSnoc | ui/streamlit_app.py:192 | joining one more word appends the separator and the word |
| PyText.ContainsIffOccurs | src/agent/travel_agent.py:71 | `in` on strings holds if and only if the needle occurs at some index |
| PyText.ContainsInfix | src/agent/travel_agent.py:71 | a string contains what is spliced into it |
| PyText.IndexOf | src/tools/wether_api.py:55-60 | the first occurrence of a character, or the length |
| PyText.IndexOfAfter | src/tools/wether_api.py:55-60 | the first break after a break-free prefix is at the end of the prefix |
| PyText.LinesOfLine | src/tools/wether_api.py:55-60 | a break-free string is one line |
| PyText.LinesCons | src/tools/wether_api.py:55-60 | splitting on a first break gives the first line and the rest |
| PyText.LinesJoin | src/tools/wether_api.py:55-60 | splitting break-free lines joined by breaks gives them back |
| PyText.Last | ui/main_v1.py:43 | the last k elements, or all of them when fewer |
| PyText.SliceFromNegative | ui/main_v1.py:43 | `s[-k:]` is the last k elements |
| PyText.SliceButLast | ui/main_v1.py:60 | `s[-(k+1):-1]` is the last k elements before the final one |
| Json.Lookup | src/agent/travel_agent.py:86 | a key is absent if and only if no entry has it |
| Json.Get | src/agent/travel_agent.py:86 | `.get` raises AttributeError if and only if the value is not a dict, and gives the entry or the default |
| Json.Subscript | src/vector_search/vector_store.py:44 | `[key]` succeeds if and only if the value is a dict holding the key |
| Json.MapResult | src/tools/tools.py:52-53 | a list comprehension succeeds if and only if every element does, and otherwise raises the first failure |
| Json.In | src/agent/travel_agent.py:71 | `in` raises TypeError if and only if the value is not a str, list or dict, and on a str is substring search |
| Json.Iterate | src/tools/tools.py:52 | iterating a list gives its items, and iterating a non-container raises |
| Json.EscapeCharLatin1 | src/agent/travel_agent.py:124 | up to U+00FF, `repr` keeps a character if and only if it is printable, and otherwise writes it in printable ASCII as `\n`, `\r`, `\t` or `\xHH` |
| Json.HexDigit | src/agent/travel_agent.py:124 | a hex digit of an escape is a printable ASCII character |
| Json.QuoteNoBreakSpace | src/agent/travel_agent.py:124 | a no-break space in a str comes out of `repr` as `\xa0` |
| Json.ReprSingletonList | src/agent/travel_agent.py:124 | `repr([v])` is `repr(v)` in brackets |
| Json.ReprSingletonDict | src/agent/travel_agent.py:124 | `repr({k: v})` is the quoted key, a colon and `repr(v)`, in braces |
| Json.ReprNoBreakSpace | src/agent/travel_agent.py:124 | a chat history whose message holds a no-break space reaches the chitchat prompt with `\xa0` in its place |

## Left out

- The language model, `JsonOutputParser`, the WeatherAPI HTTP exchange, the Chroma client and query, the sentence-transformer embedder, the file read and `RecursiveCharacterTextSplitter` are function parameters: their own behaviour is outside the model.
- VectorStore.ShapeParallel: embedding vectors are computed (`Shape` fails when the embedder raises) but not kept in the batch or stored with the records, so nothing is said about one embedding per chunk.
- Prompts.Scan: a field is read whole as a name. Python's conversions (`!r`), format specs (`:>5`, including nested fields in them), attribute and index access and positional fields are not modelled; none of the five templates uses them, and `Prompts.DeclaredNamesOk` shows every field they hold is a plain identifier.
- Chroma's behaviour on duplicate ids and its cosine search itself are not modelled; a query result is given.
- LangChain's tool-argument validation, the `Runnable` pipe and `ainvoke` plumbing are not modelled beyond prompt, model and parser in sequence.
- Prompts.Invoke: LangChain's missing-variables error also lists the missing, expected and received variables; the model keeps only its opening words. `TravelAgent.NodeInputsDeclared` shows the graph never triggers it.
- Prompt prose: each template keeps its braces and fields, and the instruction text between them is shortened to "…".
- `asyncio.gather` runs the lookups concurrently; the model takes them in list order. The results keep list order under `gather` too, but when several lookups raise, `gather` propagates whichever exception comes first in time, while `Json.MapResult` and `Tools.FirstFailure` raise the first in list order. That text can reach the reply of `/ask` as "Error: " and the message.
- Json.EscapeChar: above U+00FF, `repr` of a str writes every character raw. CPython escapes the characters `str.isprintable()` rejects as `\uHHHH` or `\UHHHHHHHH`: format controls such as U+200B and U+FEFF, the line and paragraph separators U+2028 and U+2029, the space separators other than the space, private-use and unassigned code points. That set follows CPython's Unicode tables, which are not part of this model. Up to U+00FF the escaping is exact (`Json.EscapeCharLatin1`).
- `str()` of a float is an exact decimal expansion here, without Python's shortest-repr rounding or exponent form.
- Logging, `print`, `time.sleep`, `load_dotenv` and the tracebacks of `app.py` are left out.
- The environment variables (`CHROMA_PORT`, `CHROMA_COLLECTION_NAME`, `CHROMA_HOST`, `WEATHERAPI_KEY`) are parameters, and so are the `n_rag_results` and `embedding_model_name` settings: src/config.py is not part of this model. The same goes for whether each of the 30 Chroma connection attempts succeeds.
- The `use_docker=False` branch of `VectorStore.__init__` (a persistent local client) is not modelled; every caller uses the HTTP client.
- `call_travel_agent` of both Streamlit apps is a parameter: its HTTP call, its local-URL retry and its error texts are left out. So is `check_api_connection`.
- Streamlit's rendering (`st.markdown`, the cursor shown while streaming, the spinner, reruns) and the HTML and CSS of every page are left out, and so is `form_get` of ui/main_v1.py, which only renders the history.
- ui/main.py, scripts/docker_chroma.py and src/tools/schemas.py are not part of this model.
- MainV1.ChatLog: the history is one list shared by every visitor; concurrent POSTs are not modelled.
- App.Startup: a RuntimeError raised while adding the documents is the `Err` result; the hook's failure to finish the startup is not modelled further.

## Findings

| source | as written | input that shows it | evidently intended | confidence | as-written member | corrected member |
|---|---|---|---|---|---|---|
| src/tools/tools.py:36 | `WeatherTool._run` builds its client with the name `WEATHERAPI_KEY`, which the module never defines, so every truthy argument raises NameError | `_run(["Paris"])` raises NameError, while `_arun(["Paris"])` looks the city up | read the key from the environment, as `_arun` does at line 50 | not executed | Tools.RunAsWrittenRaises | Tools.RunAgreesWithARun |
| ui/streamlit_app.py:280-300 | the sample-query handler indexes the whole message list by offsets into the filtered window, and pairs only at even offsets, so the welcome message shifts every user message to an odd place | messages welcome, "u1", "a1", then the sample prompt "u2": the history sent is [] | send the pair ("u1", "a1"), as the chat-input handler at lines 333-346 does | not executed | StreamlitApp.PendingAsWrittenDropsHistory | StreamlitApp.Session.HandlePending |
