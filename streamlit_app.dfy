/** The WanderWords Streamlit front end: the session's message list, the welcome message, the
    "Messages Sent" metric, the sample-query and chat-input handlers, and the word-by-word
    display of a reply. The call to `/ask` is a parameter. */
module StreamlitApp {
  import opened Wrappers
  import opened PyText
  import opened Chat

  const Welcome: string := "Hello! I'm your travel planning assistant. I can help you with current weather information or answer questions about locations, experiences, and insights from 'The Innocents Abroad'. What would you like to know?"

  /** `call_travel_agent(query, chat_history)`: the text to show for a prompt and its history. */
  type Agent = (string, seq<Exchange>) -> string

  /** `st.session_state` as far as the chat goes. `started` says that "messages" is a key of
      the session state; the ghost fields split the messages into the opening and the
      exchanges completed since. */
  class Session {
    var started: bool
    var messages: seq<Message>
    var pendingQuery: Option<string>
    ghost var opening: seq<Message>
    ghost var exchanges: seq<Exchange>

    ghost predicate Valid()
      reads this
    {
      Opening(opening) && messages == opening + Exchanges(exchanges) && (!started ==> messages == [])
    }

    /** A browser session before the script's first run. */
    constructor ()
      ensures Valid() && !started && messages == [] && pendingQuery.None? && exchanges == []
    {
      started := false;
      messages := [];
      pendingQuery := None;
      opening := [];
      exchanges := [];
    }

    /** "Initialize chat history": a fresh session starts with exactly the welcome message. */
    method Start()
      requires Valid()
      modifies this
      ensures Valid() && started && pendingQuery == old(pendingQuery)
      ensures old(started) ==> messages == old(messages) && exchanges == old(exchanges)
      ensures !old(started) ==> messages == [AssistantSays(Welcome)] && exchanges == []
    {
      if !started {
        started := true;
        messages := [AssistantSays(Welcome)];
        opening := messages;
        exchanges := [];
        assert messages == opening + Exchanges(exchanges);
      }
    }

    /** "Clear Chat History": the list is emptied and stays a key, so no welcome comes back. */
    method Clear()
      requires Valid()
      modifies this
      ensures Valid() && started && messages == [] && exchanges == [] && pendingQuery == old(pendingQuery)
    {
      started := true;
      messages := [];
      opening := [];
      exchanges := [];
    }

    /** The "Messages Sent" metric, shown only once the session holds "messages": the number of
        user messages in it. */
    function MessagesSent(): (n: Option<nat>)
      reads this
      ensures n.Some? <==> started
      ensures n.Some? ==> n.value == |set p | 0 <= p < |messages| && messages[p].role == "user"|
    {
      UserCountIsPositions(messages);
      if started then Some(UserCount(messages)) else None
    }

    /** A sidebar example button: the query waits for the next run of the script. */
    method PickSample(query: string)
      modifies this
      ensures pendingQuery == Some(query)
      ensures messages == old(messages) && started == old(started) && exchanges == old(exchanges) && opening == old(opening)
    {
      pendingQuery := Some(query);
    }

    /** One exchange: the prompt is appended, the eight messages before it are paired, the last
        four pairs are sent, the reply is streamed and then appended. */
    method Exchange(prompt: string, agent: Agent) returns (sent: seq<Exchange>, shown: string)
      requires Valid() && started
      modifies this
      ensures Valid() && started == old(started) && opening == old(opening) && pendingQuery == old(pendingQuery)
      ensures sent == Sent(old(messages) + [UserSays(prompt)])
      ensures sent == Last(old(exchanges), 4)
      ensures messages == old(messages) + [UserSays(prompt), AssistantSays(agent(prompt, sent))]
      ensures exchanges == old(exchanges) + [Chat.Exchange(prompt, agent(prompt, sent))]
      ensures shown == Join(Words(agent(prompt, sent)), " ")
    {
      SentOfTranscript(opening, exchanges, prompt);
      var asked := messages + [UserSays(prompt)];
      messages := asked;
      var history := PairUp(Window(asked));
      sent := SliceFrom(history, -4);
      var response := agent(prompt, sent);
      shown := Display(response);
      TranscriptSnoc(opening, exchanges, prompt, response);
      messages := asked + [AssistantSays(response)];
      exchanges := exchanges + [Chat.Exchange(prompt, response)];
    }

    /** The chat-input handler. */
    method ChatInput(prompt: string, agent: Agent) returns (sent: seq<Exchange>, shown: string)
      requires Valid() && started
      modifies this
      ensures Valid() && started && pendingQuery == old(pendingQuery)
      ensures sent == Last(old(exchanges), 4)
      ensures messages == old(messages) + [UserSays(prompt), AssistantSays(agent(prompt, sent))]
      ensures exchanges == old(exchanges) + [Chat.Exchange(prompt, agent(prompt, sent))]
      ensures shown == Join(Words(agent(prompt, sent)), " ")
    {
      sent, shown := Exchange(prompt, agent);
    }

    /** The pending-query handler, corrected to pair as the chat-input handler does; the code as
      written builds its history as `PendingHistoryAsWritten` below. */
    method HandlePending(agent: Agent) returns (sent: Option<seq<Exchange>>)
      requires Valid() && started
      modifies this
      ensures Valid() && started && pendingQuery.None?
      ensures old(pendingQuery).None? ==> sent.None? && messages == old(messages)
      ensures old(pendingQuery).Some? ==>
        var prompt := old(pendingQuery).value;
        sent.Some? && sent.value == Last(old(exchanges), 4) &&
        messages == old(messages) + [UserSays(prompt), AssistantSays(agent(prompt, sent.value))] &&
        exchanges == old(exchanges) + [Chat.Exchange(prompt, agent(prompt, sent.value))]
    {
      if pendingQuery.None? {
        return None;
      }
      var prompt := pendingQuery.value;
      pendingQuery := None;
      var history, _ := Exchange(prompt, agent);
      sent := Some(history);
    }
  }

  /** The messages of `messages[-8:]` whose role is "user" or "assistant"; the handler builds
      dicts from them but uses only how many there are. */
  function Conversational(ms: seq<Message>): (r: seq<Message>)
    ensures |r| <= |ms|
  {
    if ms == [] then []
    else (if ms[0].role == "user" || ms[0].role == "assistant" then [ms[0]] else []) + Conversational(ms[1..])
  }

  lemma {:induction false} ConversationalAll(ms: seq<Message>)
    requires forall p :: 0 <= p < |ms| ==> ms[p].role == "user" || ms[p].role == "assistant"
    ensures Conversational(ms) == ms
  {
    if ms != [] {
      ConversationalAll(ms[1..]);
      assert ms == [ms[0]] + ms[1..];
    }
  }

  /** The pair the pending-query handler as written takes at even offset `i` of a window of
      `r` messages: the message `r - i` from the end and the one after it, when they are a user
      and an assistant message. The `next_msg_idx` guard always holds here. */
  function PendingAt(ms: seq<Message>, r: nat, i: nat): (e: seq<Exchange>)
    requires i < r <= |ms|
    ensures |e| <= 1
    ensures e != [] ==>
      i < r - 1 && ms[|ms| - (r - i)].role == "user" && ms[|ms| - (r - i) + 1].role == "assistant" &&
      e == [Exchange(ms[|ms| - (r - i)].content, ms[|ms| - (r - i) + 1].content)]
  {
    if i < r - 1 && ms[|ms| - (r - i)].role == "user" && ms[|ms| - (r - i - 1)].role == "assistant"
    then [Exchange(ms[|ms| - (r - i)].content, ms[|ms| - (r - i - 1)].content)]
    else []
  }

  /** The pending-query pairing as written, from even offset `i` on. */
  function PendingPairsAsWritten(ms: seq<Message>, r: nat, i: nat): seq<Exchange>
    requires r <= |ms|
    decreases r - i
  {
    if i >= r then [] else PendingAt(ms, r, i) + PendingPairsAsWritten(ms, r, i + 2)
  }

  lemma PendingUnfold(ms: seq<Message>, r: nat, i: nat)
    requires i < r <= |ms|
    ensures PendingPairsAsWritten(ms, r, i) == PendingAt(ms, r, i) + PendingPairsAsWritten(ms, r, i + 2)
  {
  }

  /** `len(recent_history)`: the user and assistant messages among the last eight. */
  function RecentCount(messages: seq<Message>): (r: nat)
    ensures r <= |messages| && r <= 8
  {
    |Conversational(SliceFrom(messages, -8))|
  }

  /** One pass of that loop's body. */
  method PendingStep(messages: seq<Message>, r: nat, i: nat) returns (taken: seq<Exchange>)
    requires i < r <= |messages|
    ensures taken == PendingAt(messages, r, i)
  {
    taken := [];
    if i < r - 1 {
      var userMsg := messages[|messages| - (r - i)];
      if userMsg.role == "user" {
        var assistantMsg := messages[|messages| - (r - i - 1)];
        if assistantMsg.role == "assistant" {
          taken := [Exchange(userMsg.content, assistantMsg.content)];
        }
      }
    }
  }

  /** `api_history` of the pending-query handler as written, built by its `for i in range(0, len(recent_history), 2)` loop. */
  method PendingHistoryAsWritten(messages: seq<Message>) returns (apiHistory: seq<Exchange>)
    ensures apiHistory == PendingPairsAsWritten(messages, RecentCount(messages), 0)
  {
    var r := RecentCount(messages);
    apiHistory := [];
    var i := 0;
    while i < r
      invariant i <= r + 1
      invariant PendingPairsAsWritten(messages, r, 0) == apiHistory + PendingPairsAsWritten(messages, r, i)
      decreases r + 1 - i
    {
      var taken := PendingStep(messages, r, i);
      ghost var rest := PendingPairsAsWritten(messages, r, i + 2);
      PendingUnfold(messages, r, i);
      assert apiHistory + (taken + rest) == (apiHistory + taken) + rest;
      apiHistory := apiHistory + taken;
      i := i + 2;
    }
    assert PendingPairsAsWritten(messages, r, i) == [];
    assert apiHistory + [] == apiHistory;
  }

  /** As written, at most one pair per two places of the window.
      That is at most four pairs for a window of eight; see `PendingAsWrittenFour`. */
  lemma {:induction false} PendingAsWrittenBound(ms: seq<Message>, r: nat, i: nat)
    requires r <= |ms| && i <= r
    ensures |PendingPairsAsWritten(ms, r, i)| <= (r - i + 1) / 2
    decreases r - i
  {
    if i < r {
      if i + 2 <= r {
        PendingAsWrittenBound(ms, r, i + 2);
      }
    }
  }

  /** As written, the handler builds at most four pairs, so the `[-4:]` of the call cuts nothing. */
  lemma PendingAsWrittenFour(messages: seq<Message>)
    ensures |PendingPairsAsWritten(messages, RecentCount(messages), 0)| <= 4
    ensures SliceFrom(PendingPairsAsWritten(messages, RecentCount(messages), 0), -4) ==
            PendingPairsAsWritten(messages, RecentCount(messages), 0)
  {
    var history := PendingPairsAsWritten(messages, RecentCount(messages), 0);
    PendingAsWrittenBound(messages, RecentCount(messages), 0);
    SliceFromNegative(history, 4);
  }

  /** As written, each pair still comes from an adjacent user-then-assistant pair, in order. */
  lemma {:induction false} PendingAsWrittenAdjacent(ms: seq<Message>, r: nat, i: nat) returns (pos: seq<int>)
    requires r <= |ms|
    ensures PairedAt(ms, PendingPairsAsWritten(ms, r, i), pos)
    ensures forall k :: 0 <= k < |pos| ==> pos[k] >= |ms| - (r - i)
    decreases r - i
  {
    if i >= r {
      pos := [];
    } else {
      var rest := PendingAsWrittenAdjacent(ms, r, i + 2);
      PendingUnfold(ms, r, i);
      var p := |ms| - (r - i);
      if PendingAt(ms, r, i) != [] {
        PairedCons(ms, p, PendingPairsAsWritten(ms, r, i + 2), rest);
        pos := [p] + rest;
      } else {
        pos := rest;
      }
    }
  }

  /** When no even place of the message list before the last holds a user message, and the
      window starts on an even place, the pairing as written finds nothing. */
  lemma {:induction false} PendingAsWrittenNone(ms: seq<Message>, r: nat, i: nat)
    requires r <= |ms| && (|ms| - r) % 2 == 0 && i % 2 == 0
    requires forall p :: 0 <= p < |ms| - 1 && p % 2 == 0 ==> ms[p].role != "user"
    ensures PendingPairsAsWritten(ms, r, i) == []
    decreases r - i
  {
    if i < r {
      PendingAsWrittenNone(ms, r, i + 2);
      if i < r - 1 {
        assert (|ms| - (r - i)) % 2 == 0;
      }
      assert PendingAt(ms, r, i) == [];
    }
  }

  /** A session opened by the assistant's `welcome`, after its exchanges, with a sample
      query just appended. */
  function Welcomed(welcome: string, xs: seq<Exchange>, prompt: string): seq<Message> {
    [AssistantSays(welcome)] + Exchanges(xs) + [UserSays(prompt)]
  }

  lemma WelcomedRoles(welcome: string, xs: seq<Exchange>, prompt: string)
    ensures var ms := Welcomed(welcome, xs, prompt);
      (forall p :: 0 <= p < |ms| ==> ms[p].role == "user" || ms[p].role == "assistant") &&
      (forall p :: 0 <= p < |ms| - 1 && p % 2 == 0 ==> ms[p].role == "assistant") &&
      (forall p :: 0 <= p < |ms| && p % 2 == 1 ==> ms[p].role == "user")
  {
    var ms := Welcomed(welcome, xs, prompt);
    forall p | 1 <= p < |ms| - 1 ensures ms[p] == Exchanges(xs)[p - 1] {
    }
  }

  /** In such a session every message of the last eight counts for `recent_history`. */
  lemma WelcomedRecent(welcome: string, xs: seq<Exchange>, prompt: string)
    ensures var ms := Welcomed(welcome, xs, prompt);
      RecentCount(ms) == (if |ms| < 8 then |ms| else 8)
  {
    var ms := Welcomed(welcome, xs, prompt);
    WelcomedRoles(welcome, xs, prompt);
    var last8 := SliceFrom(ms, -8);
    assert forall p :: 0 <= p < |last8| ==> last8[p] == ms[|ms| - |last8| + p];
    ConversationalAll(last8);
  }

  /** Finding: with the welcome message in place the sample-query handler sends no history at
      all, while the chat-input pairing sends the last four exchanges. For
      [welcome, u1, a1, u2] the window is read at the welcome and at a1, neither a user
      message. */
  lemma PendingAsWrittenDropsHistory(xs: seq<Exchange>, prompt: string)
    ensures PendingPairsAsWritten(Welcomed(Welcome, xs, prompt), RecentCount(Welcomed(Welcome, xs, prompt)), 0) == []
    ensures Sent(Welcomed(Welcome, xs, prompt)) == Last(xs, 4)
    ensures xs != [] ==> Sent(Welcomed(Welcome, xs, prompt)) != []
  {
    DropsHistory(Welcome, xs, prompt);
  }

  lemma DropsHistory(welcome: string, xs: seq<Exchange>, prompt: string)
    ensures PendingPairsAsWritten(Welcomed(welcome, xs, prompt), RecentCount(Welcomed(welcome, xs, prompt)), 0) == []
    ensures Sent(Welcomed(welcome, xs, prompt)) == Last(xs, 4)
  {
    var ms := Welcomed(welcome, xs, prompt);
    WelcomedRoles(welcome, xs, prompt);
    WelcomedRecent(welcome, xs, prompt);
    PendingAsWrittenNone(ms, RecentCount(ms), 0);
    SentOfTranscript([AssistantSays(welcome)], xs, prompt);
  }
}
