/** The WeatherAPI client: one request for the current weather of a location, and the reading of
    the reply into the six-line report the agent passes on to the language model.

    The HTTP exchange itself is a parameter, `Transport`: it takes the endpoint and the query
    parameters and gives the status code and the decoded JSON body (a body that is not JSON
    makes `.json()` raise, so the body is itself a `Result`). The synchronous client (`requests`)
    and the asynchronous one (`httpx`) send the same request and treat the reply the same way,
    so both are `GetCurrentWeather` here. */
module WeatherApi {
  import opened Wrappers
  import opened Json
  import Decimal
  import PyText

  const BaseUrl: string := "http://api.weatherapi.com/v1/current.json"

  /** `WeatherAPIClient(api_key)`; the key is `None` when the environment variable is unset. */
  datatype Client = Client(apiKey: Value, baseUrl: string)

  function NewClient(apiKey: Value): Client
  {
    Client(apiKey, BaseUrl)
  }

  datatype Response = Response(status: int, json: Result<Value>)

  /** `requests.get(url, params=...)` or `await client.get(url, params=...)`. */
  type Transport = (string, seq<(string, Value)>) -> Result<Response>

  /** The query string: the location, the key, and no air-quality data. */
  function QueryParams(c: Client, location: Value): seq<(string, Value)>
  {
    [("q", location), ("key", c.apiKey), ("aqi", Str("no"))]
  }

  function FailureText(location: Value, status: int): string {
    "Could not retrieve weather data for " + ToStr(location) + ". Status code: " + Decimal.IntToString(status)
  }

  /** `get_current_weather(location)` and `aget_current_weather(location)`: the decoded body on
      status 200, and otherwise a dict whose only key is "error". */
  function GetCurrentWeather(c: Client, transport: Transport, location: Value): Result<Value> {
    var response :- transport(c.baseUrl, QueryParams(c, location));
    if response.status == 200 then response.json
    else Ok(Dict([("error", Str(FailureText(location, response.status)))]))
  }

  /** One line of the report: a caption, the reading, and its unit. */
  function Line(caption: string, v: Value, unit: string): string {
    caption + ToStr(v) + unit
  }

  /** The lines of the report, one per reading. */
  function ReportLines(name: Value, region: Value, country: Value, temp: Value, feelsLike: Value,
                       condition: Value, humidity: Value, wind: Value): (ls: seq<string>)
    ensures |ls| == 6
  {
    [Line("Current weather in " + ToStr(name) + ", " + ToStr(region) + ", ", country, ":"),
     Line("Temperature: ", temp, "\U{b0}C"),
     Line("Feels like: ", feelsLike, "\U{b0}C"),
     Line("Condition: ", condition, ""),
     Line("Humidity: ", humidity, "%"),
     Line("Wind Speed: ", wind, " kph")]
  }

  /** The f-string the method returns: the six lines, each but the last ended by a line break. */
  function Report(name: Value, region: Value, country: Value, temp: Value, feelsLike: Value,
                  condition: Value, humidity: Value, wind: Value): string
  {
    PyText.Join(ReportLines(name, region, country, temp, feelsLike, condition, humidity, wind), "\n")
  }

  /** The value under `key` in a dict, or `default`. */
  function Field(d: Value, key: string, default: Value): Value
    requires d.Dict?
  {
    Lookup(d.entries, key).GetOr(default)
  }

  /** `parse_results(data)`: `None` for a reply that holds "error", and otherwise the report, with
      "Unknown location", "" and "N/A" for what the reply leaves out. Python's TypeError (an
      `in` test on a value that is not a container) and AttributeError (`.get` on a value that
      is not a dict) are the errors. */
  function ParseResults(data: Value): Result<Option<string>> {
    var hasError :- In("error", data);
    if hasError then Ok(None)
    else
      var location :- Get(data, "location", Dict([]));
      var current :- Get(data, "current", Dict([]));
      var name :- Get(location, "name", Str("Unknown location"));
      var region := Field(location, "region", Str(""));
      var country := Field(location, "country", Str(""));
      var temp :- Get(current, "temp_c", Str("N/A"));
      var conditionInfo := Field(current, "condition", Dict([]));
      var condition :- Get(conditionInfo, "text", Str("N/A"));
      var humidity := Field(current, "humidity", Str("N/A"));
      var wind := Field(current, "wind_kph", Str("N/A"));
      var feelsLike := Field(current, "feelslike_c", Str("N/A"));
      Ok(Some(Report(name, region, country, temp, feelsLike, condition, humidity, wind)))
  }

  /** The reply is dropped exactly when it holds "error". */
  lemma ParseResultsNoneIff(data: Value)
    ensures ParseResults(data) == Ok(None) <==> In("error", data) == Ok(true)
  {
  }

  /** A reply that is neither a container nor a dict fails on the first step that needs one. */
  lemma ParseResultsErrors(data: Value)
    ensures In("error", data).Err? ==> ParseResults(data) == Err("argument of type '" + TypeName(data) + "' is not iterable")
    ensures In("error", data) == Ok(false) && !data.Dict? ==>
      ParseResults(data) == Err("'" + TypeName(data) + "' object has no attribute 'get'")
  {
  }

  predicate DictOrAbsent(d: Value, key: string)
    requires d.Dict?
  {
    Lookup(d.entries, key).None? || Lookup(d.entries, key).value.Dict?
  }

  /** A dict reply without "error" whose "location", "current" and "condition" are dicts (or
      absent) always gives a report, built from the readings it holds and the defaults. */
  lemma ParseResultsReport(data: Value)
    requires data.Dict? && !HasKey(data.entries, "error")
    requires DictOrAbsent(data, "location") && DictOrAbsent(data, "current")
    requires DictOrAbsent(Field(data, "current", Dict([])), "condition")
    ensures var location := Field(data, "location", Dict([]));
            var current := Field(data, "current", Dict([]));
            var condition := Field(current, "condition", Dict([]));
            ParseResults(data) == Ok(Some(Report(
              Field(location, "name", Str("Unknown location")), Field(location, "region", Str("")),
              Field(location, "country", Str("")), Field(current, "temp_c", Str("N/A")),
              Field(current, "feelslike_c", Str("N/A")), Field(condition, "text", Str("N/A")),
              Field(current, "humidity", Str("N/A")), Field(current, "wind_kph", Str("N/A")))))
  {
    assert In("error", data) == Ok(false);
  }

  /** A failed request yields the error dict, which parsing then drops: a location the service
      does not answer for contributes no report. */
  lemma FailedRequestIsDropped(c: Client, transport: Transport, location: Value)
    requires transport(c.baseUrl, QueryParams(c, location)).Ok?
    requires transport(c.baseUrl, QueryParams(c, location)).value.status != 200
    ensures GetCurrentWeather(c, transport, location).Ok?
    ensures ParseResults(GetCurrentWeather(c, transport, location).value) == Ok(None)
  {
    var d := GetCurrentWeather(c, transport, location).value;
    assert d.entries[0].0 == "error";
  }

  /** A successful request passes the body on unchanged. */
  lemma SuccessfulRequestIsBody(c: Client, transport: Transport, location: Value)
    requires transport(c.baseUrl, QueryParams(c, location)).Ok?
    requires transport(c.baseUrl, QueryParams(c, location)).value.status == 200
    ensures GetCurrentWeather(c, transport, location) == transport(c.baseUrl, QueryParams(c, location)).value.json
  {
  }

  /** A reading printed on one line. */
  predicate OneLine(v: Value) {
    '\n' !in ToStr(v)
  }

  lemma LineBreakFree(caption: string, v: Value, unit: string)
    requires '\n' !in caption && OneLine(v) && '\n' !in unit
    ensures '\n' !in Line(caption, v, unit)
  {
  }

  /** When no reading holds a line break, the report is exactly six lines, one per reading. */
  lemma ReportHasSixLines(name: Value, region: Value, country: Value, temp: Value, feelsLike: Value,
                          condition: Value, humidity: Value, wind: Value)
    requires OneLine(name) && OneLine(region) && OneLine(country) && OneLine(temp)
    requires OneLine(feelsLike) && OneLine(condition) && OneLine(humidity) && OneLine(wind)
    ensures var ls := ReportLines(name, region, country, temp, feelsLike, condition, humidity, wind);
            PyText.Lines(Report(name, region, country, temp, feelsLike, condition, humidity, wind)) == ls
  {
    ReportLinesBreakFree(name, region, country, temp, feelsLike, condition, humidity, wind);
    PyText.LinesJoin(ReportLines(name, region, country, temp, feelsLike, condition, humidity, wind));
  }

  lemma ReportLinesBreakFree(name: Value, region: Value, country: Value, temp: Value, feelsLike: Value,
                             condition: Value, humidity: Value, wind: Value)
    requires OneLine(name) && OneLine(region) && OneLine(country) && OneLine(temp)
    requires OneLine(feelsLike) && OneLine(condition) && OneLine(humidity) && OneLine(wind)
    ensures var ls := ReportLines(name, region, country, temp, feelsLike, condition, humidity, wind);
            forall k :: 0 <= k < |ls| ==> '\n' !in ls[k]
  {
    var title := "Current weather in " + ToStr(name) + ", " + ToStr(region) + ", ";
    TitleBreakFree(name, region);
    LineBreakFree(title, country, ":");
    LabelsBreakFree();
    LineBreakFree("Temperature: ", temp, "\U{b0}C");
    LineBreakFree("Feels like: ", feelsLike, "\U{b0}C");
    LineBreakFree("Condition: ", condition, "");
    LineBreakFree("Humidity: ", humidity, "%");
    LineBreakFree("Wind Speed: ", wind, " kph");
  }

  lemma TitleBreakFree(name: Value, region: Value)
    requires OneLine(name) && OneLine(region)
    ensures '\n' !in "Current weather in " + ToStr(name) + ", " + ToStr(region) + ", "
  {
  }

  lemma LabelsBreakFree()
    ensures '\n' !in "Temperature: " && '\n' !in "Feels like: " && '\n' !in "Condition: "
    ensures '\n' !in "Humidity: " && '\n' !in "Wind Speed: "
    ensures '\n' !in "\U{b0}C" && '\n' !in "%" && '\n' !in " kph" && '\n' !in ":"
  {
  }
}
