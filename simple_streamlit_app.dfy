/** The plain Streamlit front end for local runs: the same chat bookkeeping as the styled one,
    with its own welcome message, a reply shown whole rather than streamed, and both the
    sample-query and the chat-input handler pairing the window the same way. The call to
    `/ask` is a parameter. */
module SimpleStreamlitApp {
  import opened Wrappers
  import opened PyText
  import opened Chat

  const Welcome: string := "Hello! I'm your travel planning assistant. I can help you plan trips, check weather, find accommodations, and answer travel-related questions. What would you like to know?"

  /** `call_travel_agent(query, chat_history)`. */
  type Agent = (string, seq<Exchange>) -> string

  /** `st.session_state`: "messages" once `started`, and a sample query waiting to be asked. */
  class Session {
    var started: bool
    var messages: seq<Message>
    var pendingQuery: Option<string>
    ghost var opening: seq<Message>
    ghost var exchanges: seq<Exchange>

    ghost predicate Valid()
      reads this
    {
      Opening(opening) && messages == opening + Exchanges(exchanges) && (!started ==> messages == [])
    }

    constructor ()
      ensures Valid() && !started && messages == [] && pendingQuery.None? && exchanges == []
    {
      started := false;
      messages := [];
      pendingQuery := None;
      opening := [];
      exchanges := [];
    }

    /** A fresh session starts with exactly the welcome message. */
    method Start()
      requires Valid()
      modifies this
      ensures Valid() && started && pendingQuery == old(pendingQuery)
      ensures old(started) ==> messages == old(messages) && exchanges == old(exchanges)
      ensures !old(started) ==> messages == [AssistantSays(Welcome)] && exchanges == []
    {
      if !started {
        started := true;
        messages := [AssistantSays(Welcome)];
        opening := messages;
        exchanges := [];
        assert messages == opening + Exchanges(exchanges);
      }
    }

    /** "Clear Chat History". */
    method Clear()
      requires Valid()
      modifies this
      ensures Valid() && started && messages == [] && exchanges == [] && pendingQuery == old(pendingQuery)
    {
      started := true;
      messages := [];
      opening := [];
      exchanges := [];
    }

    /** The "Messages Sent" metric, shown only once the session holds "messages": the number of
        user messages in it. */
    function MessagesSent(): (n: Option<nat>)
      reads this
      ensures n.Some? <==> started
      ensures n.Some? ==> n.value == |set p | 0 <= p < |messages| && messages[p].role == "user"|
    {
      UserCountIsPositions(messages);
      if started then Some(UserCount(messages)) else None
    }

    /** A sidebar example button. */
    method PickSample(query: string)
      modifies this
      ensures pendingQuery == Some(query)
      ensures messages == old(messages) && started == old(started) && exchanges == old(exchanges) && opening == old(opening)
    {
      pendingQuery := Some(query);
    }

    /** What both handlers do with a prompt: append it, pair `messages[-9:-1]`, send the last
        four pairs, show the reply and append it. */
    method Ask(prompt: string, agent: Agent) returns (sent: seq<Exchange>, shown: string)
      requires Valid() && started
      modifies this
      ensures Valid() && started && opening == old(opening) && pendingQuery == old(pendingQuery)
      ensures sent == Sent(old(messages) + [UserSays(prompt)])
      ensures sent == Last(old(exchanges), 4)
      ensures shown == agent(prompt, sent)
      ensures messages == old(messages) + [UserSays(prompt), AssistantSays(shown)]
      ensures exchanges == old(exchanges) + [Chat.Exchange(prompt, shown)]
    {
      SentOfTranscript(opening, exchanges, prompt);
      var asked := messages + [UserSays(prompt)];
      messages := asked;
      var history := PairUp(Window(asked));
      sent := SliceFrom(history, -4);
      shown := agent(prompt, sent);
      TranscriptSnoc(opening, exchanges, prompt, shown);
      messages := asked + [AssistantSays(shown)];
      exchanges := exchanges + [Chat.Exchange(prompt, shown)];
    }

    /** The sample-query handler. */
    method HandlePending(agent: Agent) returns (sent: Option<seq<Exchange>>)
      requires Valid() && started
      modifies this
      ensures Valid() && started && pendingQuery.None?
      ensures old(pendingQuery).None? ==> sent.None? && messages == old(messages)
      ensures old(pendingQuery).Some? ==>
        var prompt := old(pendingQuery).value;
        sent.Some? && sent.value == Last(old(exchanges), 4) &&
        sent.value == Sent(old(messages) + [UserSays(prompt)]) &&
        messages == old(messages) + [UserSays(prompt), AssistantSays(agent(prompt, sent.value))]
    {
      if pendingQuery.None? {
        return None;
      }
      var prompt := pendingQuery.value;
      pendingQuery := None;
      var history, _ := Ask(prompt, agent);
      sent := Some(history);
    }

    /** The chat-input handler. */
    method ChatInput(prompt: string, agent: Agent) returns (sent: seq<Exchange>)
      requires Valid() && started
      modifies this
      ensures Valid() && started && pendingQuery == old(pendingQuery)
      ensures sent == Last(old(exchanges), 4)
      ensures sent == Sent(old(messages) + [UserSays(prompt)])
      ensures messages == old(messages) + [UserSays(prompt), AssistantSays(agent(prompt, sent))]
    {
      var shown;
      sent, shown := Ask(prompt, agent);
    }
  }

  /** The two handlers send the same history for the same prompt and session. */
  method HandlersAgree(s: Session, t: Session, prompt: string, agent: Agent)
    returns (fromSample: Option<seq<Exchange>>, fromInput: seq<Exchange>)
    requires s != t && s.Valid() && t.Valid() && s.started && t.started
    requires s.messages == t.messages && s.pendingQuery == Some(prompt)
    modifies s, t
    ensures fromSample == Some(fromInput)
    ensures s.messages == t.messages
  {
    fromSample := s.HandlePending(agent);
    fromInput := t.ChatInput(prompt, agent);
  }
}
