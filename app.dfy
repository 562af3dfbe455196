/** The FastAPI service: `/ask` runs the agent graph on a fresh state and always answers with a
    "response" string, and the startup hook waits for Chroma and loads the book once, into an
    empty collection only. Whether a connection attempt succeeds is a parameter, and so are the
    services the graph and the loader call. */
module App {
  import opened Wrappers
  import opened Json
  import TravelAgent
  import VectorStore
  import DocumentProcessor

  /** `QueryRequest`: `chat_history` is [] when the request leaves it out. */
  datatype QueryRequest = QueryRequest(query: string, chatHistory: seq<Value>)

  function NewRequest(query: string, chatHistory: Option<seq<Value>>): (r: QueryRequest)
    ensures r.query == query
    ensures chatHistory.None? ==> r.chatHistory == []
    ensures chatHistory.Some? ==> r.chatHistory == chatHistory.value
  {
    QueryRequest(query, chatHistory.GetOr([]))
  }

  /** `init_state`: the request's query and history, and every other key empty. */
  function InitialState(request: QueryRequest): (s: TravelAgent.State)
    ensures s.query == request.query && s.chatHistory == List(request.chatHistory)
    ensures s.intent == Str("") && s.context == Str("") && s.locations == List([])
    ensures s.weatherInfo == Str("") && s.finalAnswer == Str("")
  {
    TravelAgent.State(request.query, Str(""), Str(""), List([]), Str(""), Str(""), List(request.chatHistory))
  }

  /** The reply of `ask_agent`: the final answer, or "Error: " and the message of whatever the
      graph raised. The final state always holds "final_answer", so `.get(..., "")` never falls
      back to "". */
  function Reply(svc: TravelAgent.Services, request: QueryRequest): Value {
    match TravelAgent.Run(svc, InitialState(request))
    case Ok(t) => Dict([("response", t.state.finalAnswer)])
    case Err(e) => Dict([("response", Str("Error: " + e))])
  }

  /** `ask_agent(request)`: run the graph's step loop and wrap its outcome. */
  method AskAgent(svc: TravelAgent.Services, request: QueryRequest) returns (response: Value)
    ensures response == Reply(svc, request)
  {
    var result := TravelAgent.Invoke(TravelAgent.Nodes(svc), InitialState(request));
    if result.Err? {
      return Dict([("response", Str("Error: " + result.error))]);
    }
    return Dict([("response", result.value.state.finalAnswer)]);
  }

  /** Whatever happens in the graph, the reply is a dict whose one key "response" holds a string. */
  lemma ReplyIsString(svc: TravelAgent.Services, request: QueryRequest)
    ensures var r := Reply(svc, request);
      r.Dict? && |r.entries| == 1 && r.entries[0].0 == "response" && r.entries[0].1.Str?
  {
    var run := TravelAgent.Run(svc, InitialState(request));
    if run.Ok? {
      TravelAgent.NodesAnswerWithString(svc);
      TravelAgent.FinalAnswerIsString(TravelAgent.Nodes(svc), TravelAgent.OracleNode, InitialState(request));
    }
  }

  /** The fallback route answers with the fixed message, whatever was asked. */
  lemma ReplyOnFallback(svc: TravelAgent.Services, request: QueryRequest)
    requires TravelAgent.Run(svc, InitialState(request)).Ok?
    requires var s := InitialState(request);
      TravelAgent.GetIntent(TravelAgent.Apply(s, TravelAgent.RunNode(svc, TravelAgent.OracleNode, s).value)) == Ok("irrelevant")
    ensures Reply(svc, request) == Dict([("response", Str(TravelAgent.FallbackMessage))])
  {
    var s := InitialState(request);
    var nodes := TravelAgent.Nodes(svc);
    var s1 := TravelAgent.Apply(s, nodes(TravelAgent.OracleNode, s).value);
    assert TravelAgent.ConditionalEdges["irrelevant"] == TravelAgent.FallbackNode;
    assert TravelAgent.Next(TravelAgent.OracleNode, s1) == Ok(TravelAgent.Go(TravelAgent.FallbackNode));
    TravelAgent.StepUnfold(nodes, TravelAgent.OracleNode, s);
    TravelAgent.FallbackConstant(svc, s1, s1);
    var s2 := TravelAgent.Apply(s1, map[TravelAgent.FinalAnswer := Str(TravelAgent.FallbackMessage)]);
    assert TravelAgent.FieldOf(s2, TravelAgent.FinalAnswer) == Str(TravelAgent.FallbackMessage);
    TravelAgent.StepUnfold(nodes, TravelAgent.FallbackNode, s1);
    assert TravelAgent.RunFrom(nodes, TravelAgent.FallbackNode, s1) == Ok(TravelAgent.Trace([TravelAgent.FallbackNode], s2));
  }

  const MaxRetries: nat := 30

  /** The startup loop: up to 30 attempts to reach Chroma, each one `probe(i)`; the index of the
      first that succeeds, or RuntimeError when none does. */
  method Connect(probe: nat -> bool) returns (r: Result<nat>)
    ensures r.Ok? ==> r.value < MaxRetries && probe(r.value) && forall j :: 0 <= j < r.value ==> !probe(j)
    ensures r.Err? <==> forall j :: 0 <= j < MaxRetries ==> !probe(j)
    ensures r.Err? ==> r.error == "ChromaDB not available after waiting"
  {
    var i := 0;
    while i < MaxRetries
      invariant 0 <= i <= MaxRetries
      invariant forall j :: 0 <= j < i ==> !probe(j)
    {
      if probe(i) {
        return Ok(i);
      }
      i := i + 1;
    }
    return Err("ChromaDB not available after waiting");
  }

  const BookPath: string := "src/data/book.txt"

  /** The collection holds exactly the book: one record per chunk, with the chunk's id, text
      and metadata. */
  ghost predicate HoldsBook(records: seq<VectorStore.Record>, read: DocumentProcessor.FileReader,
                            split: DocumentProcessor.Splitter, embed: VectorStore.Embedder)
  {
    var chunks := DocumentProcessor.Processed(DocumentProcessor.NewProcessor(), read, split, BookPath);
    chunks.Ok? && VectorStore.Shape(chunks.value, embed).Ok? &&
    VectorStore.Parallel(VectorStore.Shape(chunks.value, embed).value) &&
    records == VectorStore.Records(VectorStore.Shape(chunks.value, embed).value)
  }

  /** The body of `load_book_to_chromadb` once Chroma answers: the book is processed and added
      only when the collection is empty. */
  method LoadBook(store: VectorStore.Store, read: DocumentProcessor.FileReader,
                  split: DocumentProcessor.Splitter, embed: VectorStore.Embedder) returns (r: Result<()>)
    modifies store.collection
    ensures old(store.collection.Count()) != 0 ==> r.Ok? && store.collection.records == old(store.collection.records)
    ensures old(store.collection.Count()) == 0 ==>
      var chunks := DocumentProcessor.Processed(DocumentProcessor.NewProcessor(), read, split, BookPath);
      (r.Ok? <==> chunks.Ok? && VectorStore.Shape(chunks.value, embed).Ok?) &&
      (r.Ok? ==> HoldsBook(store.collection.records, read, split, embed)) &&
      (r.Err? ==> store.collection.records == [])
  {
    if store.collection.Count() != 0 {
      return Ok(());
    }
    var chunks := DocumentProcessor.LoadAndProcess(DocumentProcessor.NewProcessor(), read, split, BookPath);
    if chunks.Err? {
      return Err(chunks.error);
    }
    r := store.AddDocuments(chunks.value, embed);
    assert old(store.collection.records) == [];
  }

  /** `load_book_to_chromadb()`: wait for Chroma, then open the "twain_book" collection on host
      "chromadb" and load the book into it if it is empty. */
  method Startup(probe: nat -> bool, port: int, collection: VectorStore.Collection, read: DocumentProcessor.FileReader,
                 split: DocumentProcessor.Splitter, embed: VectorStore.Embedder) returns (r: Result<()>)
    modifies collection
    ensures (forall j :: 0 <= j < MaxRetries ==> !probe(j)) ==>
      r == Err("ChromaDB not available after waiting") && collection.records == old(collection.records)
    ensures old(collection.Count()) != 0 ==> collection.records == old(collection.records)
    ensures old(collection.Count()) == 0 ==>
      collection.records == [] || HoldsBook(collection.records, read, split, embed)
    ensures (exists j :: 0 <= j < MaxRetries && probe(j)) && old(collection.Count()) != 0 ==> r.Ok?
    ensures (exists j :: 0 <= j < MaxRetries && probe(j)) && old(collection.Count()) == 0 ==>
      var chunks := DocumentProcessor.Processed(DocumentProcessor.NewProcessor(), read, split, BookPath);
      (r.Ok? <==> chunks.Ok? && VectorStore.Shape(chunks.value, embed).Ok?) &&
      (r.Ok? ==> HoldsBook(collection.records, read, split, embed))
  {
    var connected := Connect(probe);
    if connected.Err? {
      return Err(connected.error);
    }
    var store := new VectorStore.Store("twain_book", "chromadb", port, collection);
    r := LoadBook(store, read, split, embed);
  }

  /** Starting the service twice over the same collection stores the book once: a first start
      that succeeds on an empty collection leaves exactly the book's records (`loaded`), and the
      second start succeeds too and leaves them as they were. */
  method StartupTwice(probe: nat -> bool, port: int, collection: VectorStore.Collection, read: DocumentProcessor.FileReader,
                      split: DocumentProcessor.Splitter, embed: VectorStore.Embedder)
    returns (first: Result<()>, second: Result<()>, ghost loaded: seq<VectorStore.Record>)
    modifies collection
    ensures old(collection.Count()) == 0 ==>
      collection.records == [] || HoldsBook(collection.records, read, split, embed)
    ensures first.Ok? && old(collection.Count()) == 0 ==> HoldsBook(loaded, read, split, embed)
    ensures first.Ok? ==> second.Ok? && collection.records == loaded
  {
    first := Startup(probe, port, collection, read, split, embed);
    loaded := collection.records;
    second := Startup(probe, port, collection, read, split, embed);
  }
}
