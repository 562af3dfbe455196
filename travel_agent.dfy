/** `TravelChatbotGraph`: a LangGraph state machine over a `TravelGraphState` record. The oracle
    node asks the language model for a category, `get_intent` routes on it, and each route ends
    in one node that writes the final answer.

    Each node returns a partial update: the keys it writes and their new values, which the graph
    merges into the state (the state declares no reducers, so a written key is overwritten). The
    language model, the JSON output parser, the weather service and the Chroma query are the
    parameters held in `Services`; the tools are the ones modelled alongside. The record's fields
    are Python values because `TypedDict` is not enforced: `intent` and `locations` are whatever
    the parsed JSON holds, and `weather_info`, declared `str`, is in fact a list. */
module TravelAgent {
  import opened Wrappers
  import opened Json
  import PyText
  import Prompts
  import WeatherApi
  import VectorStore
  import Tools

  /** `TravelGraphState`. */
  datatype State = State(query: string, intent: Value, context: Value, locations: Value,
                         weatherInfo: Value, finalAnswer: Value, chatHistory: Value)

  /** The keys a node may write. */
  datatype Key = Intent | Context | Locations | WeatherInfo | FinalAnswer

  /** A node's return value, such as `{"intent": intent}`. */
  type Update = map<Key, Value>

  function FieldOf(s: State, k: Key): Value {
    match k
    case Intent => s.intent
    case Context => s.context
    case Locations => s.locations
    case WeatherInfo => s.weatherInfo
    case FinalAnswer => s.finalAnswer
  }

  /** Merging a node's update into the state. */
  function Apply(s: State, u: Update): (s': State)
    ensures forall k :: FieldOf(s', k) == if k in u then u[k] else FieldOf(s, k)
    ensures s'.query == s.query && s'.chatHistory == s.chatHistory
  {
    State(s.query,
          if Intent in u then u[Intent] else s.intent,
          if Context in u then u[Context] else s.context,
          if Locations in u then u[Locations] else s.locations,
          if WeatherInfo in u then u[WeatherInfo] else s.weatherInfo,
          if FinalAnswer in u then u[FinalAnswer] else s.finalAnswer,
          s.chatHistory)
  }

  datatype Node =
    | OracleNode | LocFromQueryNode | LocFromBookNode | BookRetrieverNode
    | WeatherNode | FinalResponseNode | FallbackNode | ChitchatNode

  /** Where the graph goes after a node: another node, or `END`. */
  datatype Target = Go(node: Node) | End

  /** What the graph's nodes call: the chat model (on the rendered prompt), `JsonOutputParser`,
      the prompts object the graph is given, and the two tools `set_up_tools` creates. */
  datatype Services = Services(llm: string -> Result<string>, parseJson: string -> Result<Value>,
                               prompts: Prompts.TemplateName -> Prompts.PromptTemplate,
                               weatherTool: Value -> Result<seq<string>>,
                               ragTool: string -> Result<string>)

  /** `TravelChatbotGraph(llm, Prompts())` with the tools `set_up_tools` creates: the weather tool
      with the key and HTTP exchange it reads, the book search with its result count. */
  function NewServices(llm: string -> Result<string>, parseJson: string -> Result<Value>,
                       weatherKey: Value, transport: WeatherApi.Transport,
                       chroma: VectorStore.Query, nRagResults: int): (svc: Services)
    ensures Standard(svc, weatherKey, transport, chroma, nRagResults)
    ensures svc.llm == llm && svc.parseJson == parseJson
  {
    Services(llm, parseJson, Prompts.Create,
             locations => Tools.WeatherReports(weatherKey, transport, locations),
             query => Tools.RagAnswer(chroma, nRagResults, query))
  }

  /** The graph's calls are the modelled prompts and tools. */
  ghost predicate Standard(svc: Services, weatherKey: Value, transport: WeatherApi.Transport,
                           chroma: VectorStore.Query, nRagResults: int)
  {
    (forall name :: svc.prompts(name) == Prompts.Create(name)) &&
    (forall locations :: svc.weatherTool(locations) == Tools.WeatherReports(weatherKey, transport, locations)) &&
    (forall query :: svc.ragTool(query) == Tools.RagAnswer(chroma, nRagResults, query))
  }

  /** `prompt | llm | JsonOutputParser()`. */
  function JsonChain(svc: Services, name: Prompts.TemplateName, env: map<string, Value>): Result<Value> {
    var prompt :- Prompts.Invoke(svc.prompts(name), env);
    var text :- svc.llm(prompt);
    svc.parseJson(text)
  }

  /** `prompt | llm | StrOutputParser()`. */
  function StrChain(svc: Services, name: Prompts.TemplateName, env: map<string, Value>): Result<string> {
    var prompt :- Prompts.Invoke(svc.prompts(name), env);
    svc.llm(prompt)
  }

  /** The answer `fallback_node` gives whatever was asked. */
  const FallbackMessage: string :=
    "I'm sorry, but I can only assist with travel-related or book-related inquiries. If you have any questions about travel destinations, weather, or related topics, feel free to ask!"

  /** The inputs each chain is invoked with. */
  function QueryEnv(s: State): map<string, Value> {
    map["query" := Str(s.query)]
  }

  function BookEnv(s: State, context: string): map<string, Value> {
    map["context" := Str(context), "query" := Str(s.query)]
  }

  function FinalEnv(s: State): map<string, Value> {
    map["query" := Str(s.query), "context" := s.context, "weather_info" := s.weatherInfo]
  }

  function ChitchatEnv(s: State): map<string, Value> {
    map["query" := Str(s.query), "chat_history" := s.chatHistory]
  }

  /** The update each node returns, or the exception it raises. */
  function RunNode(svc: Services, node: Node, s: State): Result<Update> {
    match node
    case OracleNode =>
      var response :- JsonChain(svc, Prompts.Oracle, QueryEnv(s));
      var intent :- Get(response, "category", Str("irrelevant"));
      Ok(map[Intent := intent])
    case LocFromQueryNode =>
      var response :- JsonChain(svc, Prompts.LocationsFromQuery, QueryEnv(s));
      var locations :- Get(response, "locations", List([]));
      Ok(map[Locations := locations])
    case LocFromBookNode =>
      var context :- svc.ragTool(s.query);
      var response :- JsonChain(svc, Prompts.LocationsFromBook, BookEnv(s, context));
      var locations :- Get(response, "locations", List([]));
      Ok(map[Locations := locations, Context := Str(context)])
    case BookRetrieverNode =>
      var context :- svc.ragTool(s.query);
      Ok(map[Context := Str(context)])
    case WeatherNode =>
      var reports :- svc.weatherTool(s.locations);
      Ok(map[WeatherInfo := List(Strs(reports))])
    case FinalResponseNode =>
      var answer :- StrChain(svc, Prompts.FinalResponse, FinalEnv(s));
      Ok(map[FinalAnswer := Str(answer)])
    case FallbackNode =>
      Ok(map[FinalAnswer := Str(FallbackMessage)])
    case ChitchatNode =>
      var answer :- StrChain(svc, Prompts.Chitchat, ChitchatEnv(s));
      Ok(map[FinalAnswer := Str(answer)])
  }

  /** The keys each node writes. */
  function Writes(node: Node): set<Key> {
    match node
    case OracleNode => {Intent}
    case LocFromQueryNode => {Locations}
    case LocFromBookNode => {Locations, Context}
    case BookRetrieverNode => {Context}
    case WeatherNode => {WeatherInfo}
    case FinalResponseNode => {FinalAnswer}
    case FallbackNode => {FinalAnswer}
    case ChitchatNode => {FinalAnswer}
  }

  /** The path map of `add_conditional_edges("oracle_node", ...)`. */
  const ConditionalEdges: map<string, Node> :=
    map["weather" := LocFromQueryNode, "book" := BookRetrieverNode, "combined" := LocFromBookNode,
        "chitchat" := ChitchatNode, "irrelevant" := FallbackNode]

  /** `get_intent(state)`: the first of "weather", "book" or "travel", "combined" and "chitchat"
      that occurs in the intent picks the route, and "irrelevant" is the rest. The `in` test
      raises TypeError on an intent that is not a str, list or dict. */
  function GetIntent(s: State): (r: Result<string>)
    ensures r.Ok? ==> r.value in ConditionalEdges
  {
    var weather :- In("weather", s.intent);
    if weather then Ok("weather")
    else if Has(s.intent, "book") || Has(s.intent, "travel") then Ok("book")
    else if Has(s.intent, "combined") then Ok("combined")
    else if Has(s.intent, "chitchat") then Ok("chitchat")
    else Ok("irrelevant")
  }

  /** `needle in v` on a value that supports it. */
  predicate Has(v: Value, needle: string)
    requires v.Str? || v.List? || v.Dict?
  {
    In(needle, v).value
  }

  /** How far a node is from `END`: every edge leads to a node of smaller rank. */
  function Rank(node: Node): nat {
    match node
    case OracleNode => 4
    case LocFromQueryNode => 3
    case LocFromBookNode => 3
    case BookRetrieverNode => 2
    case WeatherNode => 2
    case FinalResponseNode => 1
    case FallbackNode => 1
    case ChitchatNode => 1
  }

  /** The edges of `build_graph`: the oracle node routes on the state it has just updated, and
      every other node has one fixed successor. */
  function Next(node: Node, s: State): (t: Result<Target>)
    ensures t.Ok? && t.value.Go? ==> Rank(t.value.node) < Rank(node)
  {
    match node
    case OracleNode =>
      var key :- GetIntent(s);
      assert Rank(ConditionalEdges[key]) < 4;
      Ok(Go(ConditionalEdges[key]))
    case LocFromQueryNode => Ok(Go(WeatherNode))
    case WeatherNode => Ok(Go(FinalResponseNode))
    case BookRetrieverNode => Ok(Go(FinalResponseNode))
    case LocFromBookNode => Ok(Go(WeatherNode))
    case ChitchatNode => Ok(End)
    case FallbackNode => Ok(End)
    case FinalResponseNode => Ok(End)
  }

  /** A finished run: the nodes in the order they ran and the state at `END`. */
  datatype Trace = Trace(path: seq<Node>, state: State)

  /** The functions `build_graph` binds to the nodes. */
  type NodeFns = (Node, State) -> Result<Update>

  function Nodes(svc: Services): NodeFns {
    (node, s) => RunNode(svc, node, s)
  }

  /** The compiled graph's run from `node` on state `s`: the node's update is merged, then the
      edge is taken. */
  function RunFrom(nodes: NodeFns, node: Node, s: State): Result<Trace>
    decreases Rank(node)
  {
    var u :- nodes(node, s);
    var s' := Apply(s, u);
    var t :- Next(node, s');
    match t
    case End => Ok(Trace([node], s'))
    case Go(n) =>
      var rest :- RunFrom(nodes, n, s');
      Ok(Trace([node] + rest.path, rest.state))
  }

  /** `graph.ainvoke(state)`, from the entry point. */
  function Run(svc: Services, init: State): Result<Trace> {
    RunFrom(Nodes(svc), OracleNode, init)
  }

  /** A run that goes on from `node` after `path` has already run. */
  function After(path: seq<Node>, r: Result<Trace>): Result<Trace> {
    var t :- r;
    Ok(Trace(path + t.path, t.state))
  }

  /** The compiled graph's step loop: run the current node, merge its update, follow the edge. */
  method Invoke(nodes: NodeFns, init: State) returns (r: Result<Trace>)
    ensures r == RunFrom(nodes, OracleNode, init)
  {
    var node := OracleNode;
    var s := init;
    var path: seq<Node> := [];
    AfterNothing(RunFrom(nodes, node, s));
    while true
      invariant RunFrom(nodes, OracleNode, init) == After(path, RunFrom(nodes, node, s))
      decreases Rank(node)
    {
      StepUnfold(nodes, node, s);
      var u := nodes(node, s);
      if u.Err? {
        return Err(u.error);
      }
      var s' := Apply(s, u.value);
      var t := Next(node, s');
      if t.Err? {
        return Err(t.error);
      }
      if t.value.End? {
        return Ok(Trace(path + [node], s'));
      }
      AfterAfter(path, [node], RunFrom(nodes, t.value.node, s'));
      path, s, node := path + [node], s', t.value.node;
    }
  }

  /** One step of the run: the node's update, then the edge it takes. */
  lemma StepUnfold(nodes: NodeFns, node: Node, s: State)
    ensures RunFrom(nodes, node, s) ==
      (var u :- nodes(node, s);
       var s' := Apply(s, u);
       var t :- Next(node, s');
       if t.End? then Ok(Trace([node], s')) else After([node], RunFrom(nodes, t.node, s')))
  {
  }

  lemma AfterNothing(r: Result<Trace>)
    ensures After([], r) == r
  {
    if r.Ok? {
      assert [] + r.value.path == r.value.path;
    }
  }

  lemma AfterAfter(p: seq<Node>, q: seq<Node>, r: Result<Trace>)
    ensures After(p, After(q, r)) == After(p + q, r)
  {
    if r.Ok? {
      assert p + (q + r.value.path) == (p + q) + r.value.path;
    }
  }

  /** The nodes a run from `node` visits once the oracle has routed: every route is a fixed
      chain ending in a node that writes the answer. */
  function ChainFrom(node: Node): seq<Node> {
    match node
    case OracleNode => [OracleNode]
    case LocFromQueryNode => [LocFromQueryNode, WeatherNode, FinalResponseNode]
    case LocFromBookNode => [LocFromBookNode, WeatherNode, FinalResponseNode]
    case BookRetrieverNode => [BookRetrieverNode, FinalResponseNode]
    case WeatherNode => [WeatherNode, FinalResponseNode]
    case FinalResponseNode => [FinalResponseNode]
    case FallbackNode => [FallbackNode]
    case ChitchatNode => [ChitchatNode]
  }

  /** The path of a route: the oracle, then the chain its key leads to. */
  function RoutePath(key: string): seq<Node>
    requires key in ConditionalEdges
  {
    [OracleNode] + ChainFrom(ConditionalEdges[key])
  }

  predicate Terminal(node: Node) {
    node == FinalResponseNode || node == FallbackNode || node == ChitchatNode
  }

  /** Once past the oracle, a run that finishes visits exactly the chain of its first node. */
  lemma {:induction false} ChainPath(nodes: NodeFns, node: Node, s: State)
    requires node != OracleNode && RunFrom(nodes, node, s).Ok?
    ensures RunFrom(nodes, node, s).value.path == ChainFrom(node)
    decreases Rank(node)
  {
    var s' := Apply(s, nodes(node, s).value);
    var t := Next(node, s').value;
    if t.Go? {
      ChainPath(nodes, t.node, s');
    }
  }

  /** A finished run is the oracle followed by the chain its intent routes to: at most four
      nodes, ending in exactly one of the three nodes that write the answer. */
  lemma RunPath(nodes: NodeFns, init: State)
    requires RunFrom(nodes, OracleNode, init).Ok?
    ensures var s1 := Apply(init, nodes(OracleNode, init).value);
      GetIntent(s1).Ok? && RunFrom(nodes, OracleNode, init).value.path == RoutePath(GetIntent(s1).value)
    ensures var p := RunFrom(nodes, OracleNode, init).value.path;
      1 < |p| <= 4 && Terminal(p[|p| - 1]) && forall k :: 0 <= k < |p| - 1 ==> !Terminal(p[k])
  {
    var s1 := Apply(init, nodes(OracleNode, init).value);
    var key := GetIntent(s1).value;
    ChainPath(nodes, ConditionalEdges[key], s1);
  }

  /** Every node's update writes only the keys of its table entry. */
  ghost predicate WritesOwnKeys(nodes: NodeFns) {
    forall node, s :: nodes(node, s).Ok? ==> nodes(node, s).value.Keys <= Writes(node)
  }

  /** A key no node on the path writes keeps its value through the run. */
  lemma {:induction false} Untouched(nodes: NodeFns, node: Node, s: State, k: Key)
    requires WritesOwnKeys(nodes) && RunFrom(nodes, node, s).Ok?
    requires forall n :: n in RunFrom(nodes, node, s).value.path ==> k !in Writes(n)
    ensures FieldOf(RunFrom(nodes, node, s).value.state, k) == FieldOf(s, k)
    decreases Rank(node)
  {
    StepUnfold(nodes, node, s);
    var u := nodes(node, s).value;
    var s' := Apply(s, u);
    assert node in RunFrom(nodes, node, s).value.path;
    assert FieldOf(s', k) == FieldOf(s, k);
    var t := Next(node, s').value;
    if t.Go? {
      Untouched(nodes, t.node, s', k);
    }
  }

  /** Each node's update writes exactly the keys of its table entry. */
  lemma NodeWrites(svc: Services, node: Node, s: State)
    requires RunNode(svc, node, s).Ok?
    ensures RunNode(svc, node, s).value.Keys == Writes(node)
  {
  }

  lemma NodesWriteOwnKeys(svc: Services)
    ensures WritesOwnKeys(Nodes(svc))
  {
    forall node, s | Nodes(svc)(node, s).Ok? ensures Nodes(svc)(node, s).value.Keys <= Writes(node) {
      NodeWrites(svc, node, s);
    }
  }

  /** The intent is written by the oracle node alone. */
  lemma IntentOnlyFromOracle(node: Node)
    ensures Intent in Writes(node) <==> node == OracleNode
  {
  }

  /** The oracle's intent is the reply's "category", or "irrelevant" when the reply has none. */
  lemma OracleIntentDefault(svc: Services, s: State)
    requires JsonChain(svc, Prompts.Oracle, QueryEnv(s)).Ok?
    requires var response := JsonChain(svc, Prompts.Oracle, QueryEnv(s)).value;
      response.Dict? && !HasKey(response.entries, "category")
    ensures RunNode(svc, OracleNode, s) == Ok(map[Intent := Str("irrelevant")])
  {
  }

  /** The locations are the reply's "locations", or [] when the reply has none. */
  lemma LocationsDefault(svc: Services, s: State)
    requires JsonChain(svc, Prompts.LocationsFromQuery, QueryEnv(s)).Ok?
    requires var response := JsonChain(svc, Prompts.LocationsFromQuery, QueryEnv(s)).value;
      response.Dict? && !HasKey(response.entries, "locations")
    ensures RunNode(svc, LocFromQueryNode, s) == Ok(map[Locations := List([])])
  {
  }

  /** The fallback answer does not depend on the state. */
  lemma FallbackConstant(svc: Services, s: State, s': State)
    ensures RunNode(svc, FallbackNode, s) == RunNode(svc, FallbackNode, s')
    ensures RunNode(svc, FallbackNode, s) == Ok(map[FinalAnswer := Str(FallbackMessage)])
  {
  }

  /** A string intent always routes: `get_intent` never raises on one. */
  lemma IntentTotal(s: State)
    requires s.intent.Str?
    ensures GetIntent(s).Ok?
  {
  }

  /** "weather" wins over every other word. */
  lemma WeatherFirst(s: State)
    requires s.intent.Str? && PyText.Contains(s.intent.s, "weather")
    ensures GetIntent(s) == Ok("weather")
  {
  }

  /** Without "weather", "book" or "travel" route to the book even when "combined" occurs too. */
  lemma BookBeforeCombined(s: State)
    requires s.intent.Str? && !PyText.Contains(s.intent.s, "weather")
    requires PyText.Contains(s.intent.s, "book") || PyText.Contains(s.intent.s, "travel")
    ensures GetIntent(s) == Ok("book")
  {
  }

  /** The combined route is taken exactly when "combined" occurs and none of "weather", "book"
      and "travel" does. */
  lemma CombinedOnly(s: State)
    requires s.intent.Str?
    ensures GetIntent(s) == Ok("combined") <==>
      !PyText.Contains(s.intent.s, "weather") && !PyText.Contains(s.intent.s, "book") &&
      !PyText.Contains(s.intent.s, "travel") && PyText.Contains(s.intent.s, "combined")
  {
  }

  /** An intent holding none of the five words goes to the fallback node, and only such an
      intent does. */
  lemma IrrelevantIff(s: State)
    requires s.intent.Str?
    ensures GetIntent(s) == Ok("irrelevant") <==>
      !PyText.Contains(s.intent.s, "weather") && !PyText.Contains(s.intent.s, "book") &&
      !PyText.Contains(s.intent.s, "travel") && !PyText.Contains(s.intent.s, "combined") &&
      !PyText.Contains(s.intent.s, "chitchat")
    ensures ConditionalEdges["irrelevant"] == FallbackNode
  {
  }

  /** The weather route is taken exactly when "weather" occurs. */
  lemma WeatherIff(s: State)
    requires s.intent.Str?
    ensures GetIntent(s) == Ok("weather") <==> PyText.Contains(s.intent.s, "weather")
  {
  }

  /** The book route is taken exactly when "book" or "travel" occurs and "weather" does not. */
  lemma BookIff(s: State)
    requires s.intent.Str?
    ensures GetIntent(s) == Ok("book") <==>
      !PyText.Contains(s.intent.s, "weather") &&
      (PyText.Contains(s.intent.s, "book") || PyText.Contains(s.intent.s, "travel"))
  {
  }

  /** The chitchat route is taken exactly when "chitchat" occurs and none of the words before it
      in the chain does. */
  lemma ChitchatIff(s: State)
    requires s.intent.Str?
    ensures GetIntent(s) == Ok("chitchat") <==>
      !PyText.Contains(s.intent.s, "weather") && !PyText.Contains(s.intent.s, "book") &&
      !PyText.Contains(s.intent.s, "travel") && !PyText.Contains(s.intent.s, "combined") &&
      PyText.Contains(s.intent.s, "chitchat")
  {
  }

  /** The initial intent "" routes to the fallback node. */
  lemma EmptyIntentIsIrrelevant(s: State)
    requires s.intent == Str("")
    ensures GetIntent(s) == Ok("irrelevant")
  {
    assert forall needle: string :: needle != "" ==> !PyText.Contains("", needle);
  }

  /** An intent that `in` cannot search (None, a number, a bool) raises TypeError. */
  lemma IntentTypeError(s: State)
    requires !(s.intent.Str? || s.intent.List? || s.intent.Dict?)
    ensures GetIntent(s) == Err("argument of type '" + TypeName(s.intent) + "' is not iterable")
  {
  }

  /** What a finished run leaves in the state: every key no node on its path writes is as the
      run found it. */
  lemma RouteFrames(nodes: NodeFns, init: State, k: Key)
    requires WritesOwnKeys(nodes) && RunFrom(nodes, OracleNode, init).Ok?
    requires forall n :: n in RunFrom(nodes, OracleNode, init).value.path ==> k !in Writes(n)
    ensures FieldOf(RunFrom(nodes, OracleNode, init).value.state, k) == FieldOf(init, k)
  {
    Untouched(nodes, OracleNode, init, k);
  }

  /** The weather route never runs the book retriever, so the context stays as it was. */
  lemma WeatherRoute(nodes: NodeFns, init: State)
    requires WritesOwnKeys(nodes) && RunFrom(nodes, OracleNode, init).Ok?
    requires GetIntent(Apply(init, nodes(OracleNode, init).value)) == Ok("weather")
    ensures RunFrom(nodes, OracleNode, init).value.path == [OracleNode, LocFromQueryNode, WeatherNode, FinalResponseNode]
    ensures RunFrom(nodes, OracleNode, init).value.state.context == init.context
  {
    RunPath(nodes, init);
    var path := RunFrom(nodes, OracleNode, init).value.path;
    assert forall n :: n in path ==> Context !in Writes(n);
    Untouched(nodes, OracleNode, init, Context);
  }

  /** The combined route reads the book for locations, then asks for the weather. */
  lemma CombinedRoute(nodes: NodeFns, init: State)
    requires RunFrom(nodes, OracleNode, init).Ok?
    requires GetIntent(Apply(init, nodes(OracleNode, init).value)) == Ok("combined")
    ensures RunFrom(nodes, OracleNode, init).value.path == [OracleNode, LocFromBookNode, WeatherNode, FinalResponseNode]
  {
    RunPath(nodes, init);
  }

  /** The book route never asks for the weather or for locations. */
  lemma BookRoute(nodes: NodeFns, init: State)
    requires WritesOwnKeys(nodes) && RunFrom(nodes, OracleNode, init).Ok?
    requires GetIntent(Apply(init, nodes(OracleNode, init).value)) == Ok("book")
    ensures RunFrom(nodes, OracleNode, init).value.path == [OracleNode, BookRetrieverNode, FinalResponseNode]
    ensures RunFrom(nodes, OracleNode, init).value.state.weatherInfo == init.weatherInfo
    ensures RunFrom(nodes, OracleNode, init).value.state.locations == init.locations
  {
    RunPath(nodes, init);
    var path := RunFrom(nodes, OracleNode, init).value.path;
    assert forall n :: n in path ==> WeatherInfo !in Writes(n) && Locations !in Writes(n);
    Untouched(nodes, OracleNode, init, WeatherInfo);
    Untouched(nodes, OracleNode, init, Locations);
  }

  /** How many nodes of a path write key `k`. */
  function Writers(path: seq<Node>, k: Key): nat {
    if path == [] then 0 else (if k in Writes(path[0]) then 1 else 0) + Writers(path[1..], k)
  }

  /** Every finished run writes the answer exactly once, and the intent exactly once. */
  lemma AnswerWrittenOnce(nodes: NodeFns, init: State)
    requires RunFrom(nodes, OracleNode, init).Ok?
    ensures Writers(RunFrom(nodes, OracleNode, init).value.path, FinalAnswer) == 1
    ensures Writers(RunFrom(nodes, OracleNode, init).value.path, Intent) == 1
  {
    RunPath(nodes, init);
    var key := GetIntent(Apply(init, nodes(OracleNode, init).value)).value;
    var chain := ChainFrom(ConditionalEdges[key]);
    ChainWriters(ConditionalEdges[key]);
    assert RoutePath(key)[1..] == chain;
  }

  /** A chain past the oracle writes the answer once, at its end, and never the intent. */
  lemma ChainWriters(node: Node)
    requires node != OracleNode
    ensures Writers(ChainFrom(node), FinalAnswer) == 1 && Writers(ChainFrom(node), Intent) == 0
  {
    var c := ChainFrom(node);
    assert c[|c| - 1] == FinalResponseNode || |c| == 1;
    if |c| == 3 {
      assert c[0] != FinalResponseNode && c[1] == WeatherNode;
      assert c[1..][1..] == [FinalResponseNode] && c[1..][1..][1..] == [];
      assert Writers(c[1..][1..], FinalAnswer) == 1 && Writers(c[1..][1..], Intent) == 0;
      assert Writers(c[1..], FinalAnswer) == 1 && Writers(c[1..], Intent) == 0;
    } else if |c| == 2 {
      assert c[0] != FinalResponseNode && c[0] != OracleNode;
      assert c[1..] == [FinalResponseNode] && c[1..][1..] == [];
      assert Writers(c[1..][1..], FinalAnswer) == 0 && Writers(c[1..][1..], Intent) == 0;
      assert Writers(c[1..], FinalAnswer) == 1 && Writers(c[1..], Intent) == 0;
    } else {
      assert c[1..] == [];
      assert Writers(c[1..], FinalAnswer) == 0 && Writers(c[1..], Intent) == 0;
    }
  }

  /** Every node that ends a run answers with a string. */
  ghost predicate AnswersWithString(nodes: NodeFns) {
    forall node, s :: Terminal(node) && nodes(node, s).Ok? ==>
      FinalAnswer in nodes(node, s).value && nodes(node, s).value[FinalAnswer].Str?
  }

  lemma NodesAnswerWithString(svc: Services)
    ensures AnswersWithString(Nodes(svc))
  {
  }

  /** A finished run ends with a string answer. */
  lemma {:induction false} FinalAnswerIsString(nodes: NodeFns, node: Node, s: State)
    requires AnswersWithString(nodes) && RunFrom(nodes, node, s).Ok?
    ensures RunFrom(nodes, node, s).value.state.finalAnswer.Str?
    decreases Rank(node)
  {
    StepUnfold(nodes, node, s);
    var s' := Apply(s, nodes(node, s).value);
    var t := Next(node, s').value;
    if t.Go? {
      FinalAnswerIsString(nodes, t.node, s');
    }
  }

  /** The inputs each node invokes its chain with, by template. */
  function EnvFor(name: Prompts.TemplateName, s: State, context: string): map<string, Value> {
    match name
    case Oracle => QueryEnv(s)
    case LocationsFromQuery => QueryEnv(s)
    case LocationsFromBook => BookEnv(s, context)
    case FinalResponse => FinalEnv(s)
    case Chitchat => ChitchatEnv(s)
  }

  /** Each node passes exactly the variables its template declares, so rendering the prompt never
      raises for a missing variable. */
  lemma NodeInputsDeclared(name: Prompts.TemplateName, s: State, context: string)
    ensures EnvFor(name, s, context).Keys == set n | n in Prompts.Create(name).inputVariables
    ensures Prompts.Invoke(Prompts.Create(name), EnvFor(name, s, context)).Ok?
  {
    Prompts.InvokeFills(name, EnvFor(name, s, context));
  }
}
