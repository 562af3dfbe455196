/** The first HTML front end: one module-level `chat_history`, shared by every visitor, that
    each POST sends (its last four entries), extends with the new exchange and cuts back to
    four entries, and then renders without its newest entry. The POST to `/ask` is a parameter. */
module MainV1 {
  import opened Wrappers
  import opened Json
  import opened PyText
  import App
  import TravelAgent

  /** `{"user": query, "agent": response_text}`. */
  datatype Entry = Entry(user: string, agent: Value)

  /** What the POST to `/ask` comes back with: a status, the body as `r.json()` parses it
      (an error when that raises) and the raw text; or the exception the client raised. */
  datatype Outcome = Answered(status: int, body: Result<Value>, text: string) | Raised(error: string)

  /** `r.json().get("response", "No response")`. */
  function Fetched(body: Result<Value>): Result<Value> {
    var v :- body;
    Get(v, "response", Str("No response"))
  }

  /** `response_text`: anything raised inside the `try` becomes "Exception: " and its message. */
  function ResponseText(o: Outcome): Value {
    match o
    case Raised(e) => Str("Exception: " + e)
    case Answered(status, body, text) =>
      if status != 200 then Str("Error: " + text)
      else match Fetched(body)
        case Ok(v) => v
        case Err(e) => Str("Exception: " + e)
  }

  /** Each way `response_text` can come about. */
  lemma ResponseTextCases(o: Outcome)
    ensures o.Raised? ==> ResponseText(o) == Str("Exception: " + o.error)
    ensures o.Answered? && o.status != 200 ==> ResponseText(o) == Str("Error: " + o.text)
    ensures o.Answered? && o.status == 200 && o.body.Err? ==> ResponseText(o) == Str("Exception: " + o.body.error)
    ensures o.Answered? && o.status == 200 && o.body.Ok? && !o.body.value.Dict? ==>
      ResponseText(o) == Str("Exception: '" + TypeName(o.body.value) + "' object has no attribute 'get'")
    ensures o.Answered? && o.status == 200 && o.body.Ok? && o.body.value.Dict? ==>
      ResponseText(o) == Lookup(o.body.value.entries, "response").GetOr(Str("No response"))
  {
    if o.Answered? && o.status == 200 && o.body.Ok? {
      assert Fetched(o.body) == Get(o.body.value, "response", Str("No response"));
    }
  }

  /** When the service answers, the page shows exactly the agent's answer: `/ask` always sends
      a "response" string, so neither fallback can be taken. */
  lemma ShowsAgentAnswer(svc: TravelAgent.Services, request: App.QueryRequest, text: string)
    ensures var reply := App.Reply(svc, request);
      reply.Dict? && reply.entries[0].1.Str? &&
      ResponseText(Answered(200, Ok(reply), text)) == reply.entries[0].1
  {
    App.ReplyIsString(svc, request);
  }

  /** The service as `form_post` sees it. */
  type Post = (string, seq<Entry>) -> Outcome

  /** The module-level `chat_history`. */
  class ChatLog {
    var history: seq<Entry>

    constructor ()
      ensures history == []
    {
      history := [];
    }

    /** `form_post(query)`: what was sent, the new `response_text`, and the entries rendered. */
    method FormPost(query: string, post: Post) returns (sent: seq<Entry>, responseText: Value, shown: seq<Entry>)
      modifies this
      ensures sent == SliceFrom(old(history), -4)
      ensures responseText == ResponseText(post(query, sent))
      ensures history == SliceFrom(old(history) + [Entry(query, responseText)], -4)
      ensures shown == Slice(history, -5, -1)
    {
      sent := SliceFrom(history, -4);
      responseText := ResponseText(post(query, sent));
      history := history + [Entry(query, responseText)];
      history := SliceFrom(history, -4);
      shown := Slice(history, -5, -1);
    }
  }

  /** `history_for_api` is the last four entries, or all of them when there are fewer. */
  lemma HistoryForApi(history: seq<Entry>)
    ensures SliceFrom(history, -4) == Last(history, 4)
    ensures |SliceFrom(history, -4)| <= 4
  {
    SliceFromNegative(history, 4);
  }

  /** After a POST the history holds at most four entries, the newest exchange last and the
      ones before it in their order. */
  lemma CappedHistory(history: seq<Entry>, e: Entry)
    ensures var h := SliceFrom(history + [e], -4);
      1 <= |h| <= 4 && h[|h| - 1] == e && h[..|h| - 1] == Last(history, |h| - 1)
  {
    SliceFromNegative(history + [e], 4);
    var h := SliceFrom(history + [e], -4);
    assert h[..|h| - 1] == Last(history, |h| - 1);
  }

  /** The page lists every entry but the newest, which it shows apart as the response: so at
      most three entries. */
  lemma RenderedHistory(history: seq<Entry>, e: Entry)
    ensures var h := SliceFrom(history + [e], -4);
      Slice(h, -5, -1) == h[..|h| - 1] && |Slice(h, -5, -1)| <= 3
  {
    CappedHistory(history, e);
    var h := SliceFrom(history + [e], -4);
    SliceButLast(h, 4);
  }
}
