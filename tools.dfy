/** The two LangChain tools the agent calls.

    `WeatherTool` looks every location up with the WeatherAPI client and keeps the reports that
    parse. Its asynchronous form gathers all lookups before it parses any reply; `asyncio.gather`
    keeps the order of its tasks and, without `return_exceptions`, re-raises the first lookup that
    raises, so it is an order-preserving map here. `RagTool` searches the book for a question and
    lays the passages out. The environment variable `WEATHERAPI_KEY` is a parameter (`None` when
    unset), and so are the HTTP exchange and the Chroma query. */
module Tools {
  import opened Wrappers
  import opened Json
  import WeatherApi
  import VectorStore
  import TextProcessing

  /** One pass of a `for x in xs: y = step(x); if y: out.append(y)` loop. */
  type Step = Value -> Result<Option<string>>

  /** Whether `if parsed_result:` keeps a parsed reply: `None` and "" are falsy. */
  predicate Keeps(p: Option<string>) {
    p.Some? && p.value != ""
  }

  /** What such a loop leaves in `out`: the truthy results in order, or the first error. */
  function Collect(xs: seq<Value>, step: Step): Result<seq<string>>
    decreases |xs|
  {
    if xs == [] then Ok([])
    else
      var front :- Collect(xs[..|xs| - 1], step);
      var y :- step(xs[|xs| - 1]);
      Ok(front + if Keeps(y) then [y.value] else [])
  }

  /** Looking up one location and parsing the reply, as the synchronous loop does. */
  function LookupStep(c: WeatherApi.Client, transport: WeatherApi.Transport): Step {
    loc => (var reply :- WeatherApi.GetCurrentWeather(c, transport, loc);
            WeatherApi.ParseResults(reply))
  }

  /** The lookup each location becomes in `_arun`'s list of tasks. */
  function Fetch(c: WeatherApi.Client, transport: WeatherApi.Transport): Value -> Result<Value> {
    loc => WeatherApi.GetCurrentWeather(c, transport, loc)
  }

  /** What `WeatherTool._arun(locations)` returns: [] for a falsy argument, before any client
      exists; otherwise all lookups first, then the parsed reports that are truthy. */
  function WeatherReports(apiKey: Value, transport: WeatherApi.Transport, locations: Value): Result<seq<string>> {
    if !Truthy(locations) then Ok([])
    else
      var c := WeatherApi.NewClient(apiKey);
      var locs :- Iterate(locations);
      var replies :- MapResult(locs, Fetch(c, transport));
      Collect(replies, WeatherApi.ParseResults)
  }

  /** `WeatherTool._arun(locations)`: the gathered lookups, then the filtering loop. */
  method ARun(apiKey: Value, transport: WeatherApi.Transport, locations: Value) returns (r: Result<seq<string>>)
    ensures r == WeatherReports(apiKey, transport, locations)
  {
    if !Truthy(locations) {
      return Ok([]);
    }
    var c := WeatherApi.NewClient(apiKey);
    var it := Iterate(locations);
    if it.Err? {
      return Err(it.error);
    }
    var locs := it.value;
    var fetch := Fetch(c, transport);
    var replies: seq<Value> := [];
    var i := 0;
    while i < |locs|
      invariant 0 <= i <= |locs| && |replies| == i
      invariant forall k :: 0 <= k < i ==> fetch(locs[k]) == Ok(replies[k])
    {
      var reply := fetch(locs[i]);
      if reply.Err? {
        FirstFailure(locs, fetch, i);
        return Err(reply.error);
      }
      replies := replies + [reply.value];
      i := i + 1;
    }
    assert MapResult(locs, fetch).value == replies;
    r := Filter(replies, WeatherApi.ParseResults);
  }

  /** The loop that applies `step` to each element and appends the truthy results. */
  method Filter(xs: seq<Value>, step: Step) returns (r: Result<seq<string>>)
    ensures r == Collect(xs, step)
  {
    var out: seq<string> := [];
    var i := 0;
    while i < |xs|
      invariant 0 <= i <= |xs|
      invariant Collect(xs[..i], step) == Ok(out)
    {
      assert xs[..i + 1] == xs[..i] + [xs[i]];
      CollectUnfold(xs[..i], xs[i], step);
      var y := step(xs[i]);
      if y.Err? {
        CollectAppend(xs[..i + 1], xs[i + 1..], step);
        assert xs[..i + 1] + xs[i + 1..] == xs;
        return Err(y.error);
      }
      if Keeps(y.value) {
        out := out + [y.value.value];
      } else {
        assert out + [] == out;
      }
      i := i + 1;
    }
    assert xs[..i] == xs;
    return Ok(out);
  }

  /** When the lookups before index `i` succeed and the one at `i` raises, the gathered batch
      raises that error. */
  lemma FirstFailure(xs: seq<Value>, f: Value -> Result<Value>, i: nat)
    requires i < |xs| && f(xs[i]).Err?
    requires forall k :: 0 <= k < i ==> f(xs[k]).Ok?
    ensures MapResult(xs, f) == Err(f(xs[i]).error)
  {
    var m := MapResult(xs, f);
    var i0 :| 0 <= i0 < |xs| && f(xs[i0]) == Err(m.error) && forall j :: 0 <= j < i0 ==> f(xs[j]).Ok?;
    assert i0 == i;
  }

  /** `WeatherTool._run(locations)` as written: it passes `WEATHERAPI_KEY`, a name the module
      never defines, so every truthy argument raises NameError before any lookup. */
  function RunAsWritten(locations: Value): Result<seq<string>> {
    if !Truthy(locations) then Ok([]) else Err("name 'WEATHERAPI_KEY' is not defined")
  }

  /** A service that refuses every request. */
  function Refusing(url: string, params: seq<(string, Value)>): Result<WeatherApi.Response> {
    Ok(WeatherApi.Response(503, Err("")))
  }

  /** A one-location list whose lookup the service refuses: the asynchronous tool answers [] while
      the synchronous one raises. */
  lemma RunAsWrittenRaises(apiKey: Value, location: Value)
    ensures RunAsWritten(List([location])).Err?
    ensures WeatherReports(apiKey, Refusing, List([location])) == Ok([])
  {
    var c := WeatherApi.NewClient(apiKey);
    WeatherApi.FailedRequestIsDropped(c, Refusing, location);
    var replies := MapResult([location], Fetch(c, Refusing));
    var reply := WeatherApi.GetCurrentWeather(c, Refusing, location).value;
    assert replies.value == [reply];
    assert [] + [reply] == [reply];
    CollectUnfold([], reply, WeatherApi.ParseResults);
    var none: seq<string> := [];
    assert none + [] == none;
  }

  /** What the synchronous loop returns once it reads the key the way `_arun` does: each location
      is looked up and parsed before the next one. */
  function SequentialReports(apiKey: Value, transport: WeatherApi.Transport, locations: Value): Result<seq<string>> {
    if !Truthy(locations) then Ok([])
    else
      var locs :- Iterate(locations);
      Collect(locs, LookupStep(WeatherApi.NewClient(apiKey), transport))
  }

  /** `WeatherTool._run(locations)` with the key read from the environment. */
  method Run(apiKey: Value, transport: WeatherApi.Transport, locations: Value) returns (r: Result<seq<string>>)
    ensures r == SequentialReports(apiKey, transport, locations)
  {
    if !Truthy(locations) {
      return Ok([]);
    }
    var it := Iterate(locations);
    if it.Err? {
      return Err(it.error);
    }
    r := Filter(it.value, LookupStep(WeatherApi.NewClient(apiKey), transport));
  }

  /** The sequential loop and the gathered one succeed on the same inputs and then return the
      same reports; they differ at most in which error they raise first. */
  lemma RunAgreesWithARun(apiKey: Value, transport: WeatherApi.Transport, locations: Value)
    ensures SequentialReports(apiKey, transport, locations).Ok? <==> WeatherReports(apiKey, transport, locations).Ok?
    ensures SequentialReports(apiKey, transport, locations).Ok? ==>
      SequentialReports(apiKey, transport, locations) == WeatherReports(apiKey, transport, locations)
  {
    if Truthy(locations) && Iterate(locations).Ok? {
      InterleavedIsGathered(WeatherApi.NewClient(apiKey), transport, Iterate(locations).value);
    }
  }

  lemma {:induction false} InterleavedIsGathered(c: WeatherApi.Client, transport: WeatherApi.Transport, locs: seq<Value>)
    ensures var seqr := Collect(locs, LookupStep(c, transport));
      var replies := MapResult(locs, Fetch(c, transport));
      (seqr.Ok? <==> replies.Ok? && Collect(replies.value, WeatherApi.ParseResults).Ok?) &&
      (seqr.Ok? ==> seqr == Collect(replies.value, WeatherApi.ParseResults))
    decreases |locs|
  {
    if locs != [] {
      var front, last := locs[..|locs| - 1], locs[|locs| - 1];
      assert locs == front + [last];
      InterleavedIsGathered(c, transport, front);
      var f, step := Fetch(c, transport), LookupStep(c, transport);
      MapResultSnoc(front, last, f);
      CollectUnfold(front, last, step);
      var fetched := f(last);
      assert step(last) == (var reply :- fetched; WeatherApi.ParseResults(reply));
      if MapResult(front, f).Ok? && fetched.Ok? {
        CollectUnfold(MapResult(front, f).value, fetched.value, WeatherApi.ParseResults);
      }
    }
  }

  lemma CollectUnfold(xs: seq<Value>, x: Value, step: Step)
    ensures Collect(xs + [x], step) ==
      (var front :- Collect(xs, step);
       var y :- step(x);
       Ok(front + if Keeps(y) then [y.value] else []))
  {
    var ys := xs + [x];
    assert ys[..|ys| - 1] == xs && ys[|ys| - 1] == x;
  }

  /** Gathering one more lookup appends its reply, or raises. */
  lemma MapResultSnoc<T>(xs: seq<Value>, x: Value, f: Value -> Result<T>)
    ensures MapResult(xs + [x], f).Ok? <==> MapResult(xs, f).Ok? && f(x).Ok?
    ensures MapResult(xs + [x], f).Ok? ==> MapResult(xs + [x], f).value == MapResult(xs, f).value + [f(x).value]
  {
    var ys := xs + [x];
    assert forall k :: 0 <= k < |xs| ==> ys[k] == xs[k];
    assert ys[|xs|] == x;
    if MapResult(ys, f).Ok? {
      assert MapResult(ys, f).value == MapResult(xs, f).value + [f(x).value];
    }
  }

  /** The loop over a concatenation is the loop over each part, one after the other. */
  lemma {:induction false} CollectAppend(xs: seq<Value>, ys: seq<Value>, step: Step)
    ensures Collect(xs + ys, step) ==
      (var a :- Collect(xs, step);
       var b :- Collect(ys, step);
       Ok(a + b))
    decreases |ys|
  {
    if ys == [] {
      assert xs + ys == xs;
      if Collect(xs, step).Ok? {
        assert Collect(xs, step).value + [] == Collect(xs, step).value;
      }
    } else {
      var zs := xs + ys;
      assert zs[..|zs| - 1] == xs + ys[..|ys| - 1];
      assert zs[|zs| - 1] == ys[|ys| - 1];
      CollectAppend(xs, ys[..|ys| - 1], step);
      var a := Collect(xs, step);
      var b := Collect(ys[..|ys| - 1], step);
      var y := step(ys[|ys| - 1]);
      if a.Ok? && b.Ok? && y.Ok? {
        var tail := if Keeps(y.value) then [y.value.value] else [];
        assert a.value + b.value + tail == a.value + (b.value + tail);
      }
    }
  }

  /** The reports come out in the order of their locations, at most one per location. */
  lemma {:induction false} CollectLength(xs: seq<Value>, step: Step)
    requires Collect(xs, step).Ok?
    ensures |Collect(xs, step).value| <= |xs|
    decreases |xs|
  {
    if xs != [] {
      CollectLength(xs[..|xs| - 1], step);
    }
  }

  /** A location whose reply is dropped adds nothing, and one whose reply parses to a report adds
      that report at the end. */
  lemma CollectSnoc(xs: seq<Value>, x: Value, step: Step)
    requires Collect(xs, step).Ok? && step(x).Ok?
    ensures !Keeps(step(x).value) ==> Collect(xs + [x], step) == Collect(xs, step)
    ensures Keeps(step(x).value) ==> Collect(xs + [x], step) == Ok(Collect(xs, step).value + [step(x).value.value])
  {
    CollectUnfold(xs, x, step);
    assert Collect(xs, step).value + [] == Collect(xs, step).value;
  }

  /** A parsed report is never "", so a reply is kept exactly when it holds no "error". */
  lemma KeepsParsed(data: Value)
    requires WeatherApi.ParseResults(data).Ok?
    ensures Keeps(WeatherApi.ParseResults(data).value) <==> WeatherApi.ParseResults(data).value.Some?
  {
  }

  /** A falsy argument gives [] whatever the transport does: no lookup is made. */
  lemma FalsyLocations(apiKey: Value, t1: WeatherApi.Transport, t2: WeatherApi.Transport, locations: Value)
    requires !Truthy(locations)
    ensures WeatherReports(apiKey, t1, locations) == WeatherReports(apiKey, t2, locations) == Ok([])
  {
  }

  /** When every lookup succeeds and every reply parses, the tool returns at most one report per
      location, in their order. */
  lemma WeatherReportsBound(apiKey: Value, transport: WeatherApi.Transport, locations: Value)
    requires WeatherReports(apiKey, transport, locations).Ok? && locations.List?
    ensures |WeatherReports(apiKey, transport, locations).value| <= |locations.items|
  {
    if Truthy(locations) {
      var c := WeatherApi.NewClient(apiKey);
      var replies := MapResult(locations.items, Fetch(c, transport));
      CollectLength(replies.value, WeatherApi.ParseResults);
    }
  }

  /** A lookup that raises makes the whole gathered batch raise. */
  lemma LookupFailureAborts(apiKey: Value, transport: WeatherApi.Transport, locations: Value, i: nat)
    requires Truthy(locations) && locations.List? && i < |locations.items|
    requires Fetch(WeatherApi.NewClient(apiKey), transport)(locations.items[i]).Err?
    ensures WeatherReports(apiKey, transport, locations).Err?
  {
  }

  /** What `RagTool._run(query)` returns: the search hits laid out as passages. */
  function RagAnswer(chroma: VectorStore.Query, nRagResults: int, query: string): Result<string> {
    var hits :- VectorStore.SearchResults(chroma, query, nRagResults);
    TextProcessing.Formatted(hits)
  }

  /** `RagTool._run(query)`: search the store, then format what it found. */
  method RagRun(store: VectorStore.Store, chroma: VectorStore.Query, nRagResults: int, query: string)
    returns (r: Result<string>)
    ensures r == RagAnswer(chroma, nRagResults, query)
  {
    var hits := store.Search(query, nRagResults, chroma);
    if hits.Err? {
      return Err(hits.error);
    }
    r := TextProcessing.FormatRetrievedChunks(hits.value);
  }

  /** Every hit the store returns is a dict, so formatting never raises: the tool fails only
      when the query or the reply's shape does, and the passages are numbered one per hit. */
  lemma RagAnswerOk(chroma: VectorStore.Query, nRagResults: int, query: string)
    ensures RagAnswer(chroma, nRagResults, query).Ok? <==> VectorStore.SearchResults(chroma, query, nRagResults).Ok?
    ensures RagAnswer(chroma, nRagResults, query).Ok? ==>
      RagAnswer(chroma, nRagResults, query) == TextProcessing.PassagesFrom(VectorStore.SearchResults(chroma, query, nRagResults).value, 1)
  {
    var hits := VectorStore.SearchResults(chroma, query, nRagResults);
    if hits.Ok? {
      var reply := chroma(query, nRagResults).value;
      forall k | 0 <= k < |hits.value| ensures hits.value[k].Dict? {
        VectorStore.ReshapedEntry(reply, k);
      }
      TextProcessing.PassagesOkIff(hits.value, 1);
    }
  }

  /** `RagTool._arun(query)`: the tool has no asynchronous form. */
  function RagARun(query: string): (r: Result<string>)
    ensures r.Err? && r.error == "RAG tool does not support async"
  {
    Err("RAG tool does not support async")
  }
}
