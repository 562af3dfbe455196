/** The chat bookkeeping the Streamlit front ends share: the messages a session keeps, how a
    window of them is paired into the `chat_history` sent to `/ask`, and how a reply is
    streamed word by word. */
module Chat {
  import opened PyText

  /** `{"role": ..., "content": ...}` in `st.session_state.messages`. */
  datatype Message = Message(role: string, content: string)

  /** `{"user": ..., "agent": ...}` in the history sent to the service. */
  datatype Exchange = Exchange(user: string, agent: string)

  function UserSays(text: string): Message {
    Message("user", text)
  }

  function AssistantSays(text: string): Message {
    Message("assistant", text)
  }

  /** What the pairing loop emits: scanning from the front, a user message directly followed by
      an assistant message becomes one exchange and both are consumed; any other message is
      skipped on its own. */
  function Pairs(ms: seq<Message>): seq<Exchange>
    decreases |ms|
  {
    if |ms| < 2 then []
    else if ms[0].role == "user" && ms[1].role == "assistant" then
      [Exchange(ms[0].content, ms[1].content)] + Pairs(ms[2..])
    else Pairs(ms[1..])
  }

  /** The `while i < len(recent_messages) - 1` loop. */
  method PairUp(recent: seq<Message>) returns (history: seq<Exchange>)
    ensures history == Pairs(recent)
  {
    history := [];
    var i := 0;
    while i < |recent| - 1
      invariant 0 <= i <= |recent|
      invariant Pairs(recent) == history + Pairs(recent[i..])
    {
      if recent[i].role == "user" && recent[i + 1].role == "assistant" {
        assert recent[i..][2..] == recent[i + 2..];
        history := history + [Exchange(recent[i].content, recent[i + 1].content)];
        i := i + 2;
      } else {
        assert recent[i..][1..] == recent[i + 1..];
        i := i + 1;
      }
    }
  }

  /** Each message is consumed at most once and a pair takes two, so there are at most
      half as many exchanges as messages. */
  lemma {:induction false} PairsBound(ms: seq<Message>)
    ensures |Pairs(ms)| <= |ms| / 2
    decreases |ms|
  {
    if |ms| >= 2 {
      if ms[0].role == "user" && ms[1].role == "assistant" {
        PairsBound(ms[2..]);
      } else {
        PairsBound(ms[1..]);
      }
    }
  }

  /** Where each exchange comes from: positions `pos[k]`, increasing and at least two apart, at
      which a user message is directly followed by an assistant message with the exchange's
      two texts. */
  ghost predicate PairedAt(ms: seq<Message>, es: seq<Exchange>, pos: seq<int>) {
    |pos| == |es| &&
    (forall k :: 0 <= k < |pos| ==>
      0 <= pos[k] && pos[k] + 1 < |ms| &&
      ms[pos[k]].role == "user" && ms[pos[k] + 1].role == "assistant" &&
      es[k] == Exchange(ms[pos[k]].content, ms[pos[k] + 1].content)) &&
    (forall k :: 0 <= k < |pos| - 1 ==> pos[k] + 2 <= pos[k + 1])
  }

  function Shift(pos: seq<int>, d: int): seq<int>
  {
    seq(|pos|, k requires 0 <= k < |pos| => pos[k] + d)
  }

  /** Dropping `d` messages in front moves every position up by `d`. */
  lemma PairedShift(ms: seq<Message>, d: nat, es: seq<Exchange>, pos: seq<int>)
    requires d <= |ms| && PairedAt(ms[d..], es, pos)
    ensures PairedAt(ms, es, Shift(pos, d))
  {
    var sh := Shift(pos, d);
    forall k | 0 <= k < |sh|
      ensures 0 <= sh[k] && sh[k] + 1 < |ms|
      ensures ms[sh[k]] == ms[d..][pos[k]] && ms[sh[k] + 1] == ms[d..][pos[k] + 1]
    {
    }
  }

  /** A user-then-assistant pair at `p`, in front of pairs that all start after it. */
  lemma PairedCons(ms: seq<Message>, p: nat, es: seq<Exchange>, pos: seq<int>)
    requires p + 1 < |ms| && ms[p].role == "user" && ms[p + 1].role == "assistant"
    requires PairedAt(ms, es, pos) && forall k :: 0 <= k < |pos| ==> pos[k] >= p + 2
    ensures PairedAt(ms, [Exchange(ms[p].content, ms[p + 1].content)] + es, [p] + pos)
  {
  }

  /** Every exchange sent comes from an adjacent user-then-assistant pair, in message order,
      and no message is used twice. */
  lemma {:induction false} PairsAdjacent(ms: seq<Message>) returns (pos: seq<int>)
    ensures PairedAt(ms, Pairs(ms), pos)
    decreases |ms|
  {
    if |ms| < 2 {
      pos := [];
    } else if ms[0].role == "user" && ms[1].role == "assistant" {
      var rest := PairsAdjacent(ms[2..]);
      PairedShift(ms, 2, Pairs(ms[2..]), rest);
      PairedCons(ms, 0, Pairs(ms[2..]), Shift(rest, 2));
      pos := [0] + Shift(rest, 2);
    } else {
      var rest := PairsAdjacent(ms[1..]);
      PairedShift(ms, 1, Pairs(ms[1..]), rest);
      pos := Shift(rest, 1);
    }
  }

  /** `messages[-9:-1]`: the window the chat-input handlers pair, taken after the prompt has
      been appended. */
  function Window(messages: seq<Message>): seq<Message> {
    Slice(messages, -9, -1)
  }

  /** The history `/ask` receives: `api_history[-4:]`. */
  function Sent(messages: seq<Message>): seq<Exchange> {
    SliceFrom(Pairs(Window(messages)), -4)
  }

  /** The window leaves out the prompt just appended and keeps at most the 8 messages before it. */
  lemma WindowExcludesPrompt(messages: seq<Message>, prompt: Message)
    ensures Window(messages + [prompt]) == Last(messages, 8)
    ensures |Window(messages + [prompt])| <= 8
  {
    SliceButLast(messages + [prompt], 8);
    assert (messages + [prompt])[..|messages|] == messages;
  }

  /** At most 4 exchanges, all of them the window's pairs: the `[-4:]` never cuts anything. */
  lemma SentBound(messages: seq<Message>, prompt: Message)
    ensures Sent(messages + [prompt]) == Pairs(Last(messages, 8))
    ensures |Sent(messages + [prompt])| <= 4
  {
    WindowExcludesPrompt(messages, prompt);
    PairsBound(Last(messages, 8));
  }

  /** The messages a run of complete exchanges leaves, oldest first. */
  function Exchanges(xs: seq<Exchange>): (ms: seq<Message>)
    ensures |ms| == 2 * |xs|
  {
    seq(2 * |xs|, q requires 0 <= q < 2 * |xs| =>
      if q % 2 == 0 then UserSays(xs[q / 2].user) else AssistantSays(xs[q / 2].agent))
  }

  /** A session opens with no message (after "Clear Chat History") or with the assistant's welcome. */
  ghost predicate Opening(o: seq<Message>) {
    o == [] || (|o| == 1 && o[0].role == "assistant")
  }

  lemma ExchangesSuffix(xs: seq<Exchange>, j: nat)
    requires j <= |xs|
    ensures Exchanges(xs)[2 * j..] == Exchanges(xs[j..])
  {
    var a, b := Exchanges(xs)[2 * j..], Exchanges(xs[j..]);
    forall q | 0 <= q < |a| ensures a[q] == b[q] {
      assert (2 * j + q) % 2 == q % 2 && (2 * j + q) / 2 == j + q / 2;
    }
  }

  lemma ExchangesSnoc(xs: seq<Exchange>, x: Exchange)
    ensures Exchanges(xs + [x]) == Exchanges(xs) + [UserSays(x.user), AssistantSays(x.agent)]
  {
    var a, b := Exchanges(xs + [x]), Exchanges(xs) + [UserSays(x.user), AssistantSays(x.agent)];
    assert |a| == |b|;
    forall q | 0 <= q < |a| ensures a[q] == b[q] {
      if q < 2 * |xs| {
        assert (xs + [x])[q / 2] == xs[q / 2];
      } else {
        assert q / 2 == |xs|;
      }
    }
  }

  /** One more exchange extends the transcript by the prompt and the reply. */
  lemma TranscriptSnoc(o: seq<Message>, xs: seq<Exchange>, prompt: string, response: string)
    ensures o + Exchanges(xs + [Exchange(prompt, response)]) ==
            o + Exchanges(xs) + [UserSays(prompt)] + [AssistantSays(response)]
  {
    ExchangesSnoc(xs, Exchange(prompt, response));
  }

  /** Pairing a run of complete exchanges gives them back. */
  lemma {:induction false} PairsOfExchanges(xs: seq<Exchange>)
    ensures Pairs(Exchanges(xs)) == xs
    decreases |xs|
  {
    if xs != [] {
      var ms := Exchanges(xs);
      ExchangesSuffix(xs, 1);
      PairsOfExchanges(xs[1..]);
      assert ms[0] == UserSays(xs[0].user) && ms[1] == AssistantSays(xs[0].agent);
      assert xs == [xs[0]] + xs[1..];
    }
  }

  /** An opening message is never the user's, so pairing skips it. */
  lemma PairsSkipOpening(o: seq<Message>, xs: seq<Exchange>)
    requires Opening(o)
    ensures Pairs(o + Exchanges(xs)) == xs
  {
    PairsOfExchanges(xs);
    if o != [] {
      var ms := o + Exchanges(xs);
      if |ms| >= 2 {
        assert ms[1..] == Exchanges(xs);
      } else {
        assert xs == [];
      }
    } else {
      assert o + Exchanges(xs) == Exchanges(xs);
    }
  }

  /** In a session made of an opening and complete exchanges, a new prompt goes out with the
      last (up to) four exchanges, oldest first. */
  lemma SentOfTranscript(o: seq<Message>, xs: seq<Exchange>, prompt: string)
    requires Opening(o)
    ensures Sent(o + Exchanges(xs) + [UserSays(prompt)]) == Last(xs, 4)
  {
    var t := o + Exchanges(xs);
    SentBound(t, UserSays(prompt));
    if |t| <= 8 {
      PairsSkipOpening(o, xs);
      assert Last(t, 8) == t;
    } else {
      LastOfTranscript(o, xs);
    }
  }

  /** Past eight messages the window starts on a user message four exchanges back. */
  lemma LastOfTranscript(o: seq<Message>, xs: seq<Exchange>)
    requires Opening(o) && |o + Exchanges(xs)| > 8
    ensures Pairs(Last(o + Exchanges(xs), 8)) == Last(xs, 4)
  {
    var e := Exchanges(xs);
    var t := o + e;
    var j := |xs| - 4;
    assert j >= 0;
    if o == [] {
      assert t == e;
    } else {
      assert t[1..] == e;
      assert t[|t| - 8..] == t[1..][|t| - 9..];
    }
    assert Last(t, 8) == e[2 * j..];
    ExchangesSuffix(xs, j);
    PairsOfExchanges(xs[j..]);
  }

  /** "Messages Sent": how many messages are the user's. */
  function UserCount(ms: seq<Message>): nat {
    if ms == [] then 0 else UserCount(ms[..|ms| - 1]) + (if ms[|ms| - 1].role == "user" then 1 else 0)
  }

  /** The count is the number of positions holding a user message. */
  lemma {:induction false} UserCountIsPositions(ms: seq<Message>)
    ensures UserCount(ms) == |set p | 0 <= p < |ms| && ms[p].role == "user"|
  {
    if ms != [] {
      var init := ms[..|ms| - 1];
      UserCountIsPositions(init);
      var before := set p | 0 <= p < |init| && init[p].role == "user";
      var all := set p | 0 <= p < |ms| && ms[p].role == "user";
      if ms[|ms| - 1].role == "user" {
        assert all == before + {|ms| - 1};
      } else {
        assert all == before;
      }
    }
  }

  /** A completed exchange adds one to the metric. */
  lemma UserCountExchange(ms: seq<Message>, x: Exchange)
    ensures UserCount(ms + [UserSays(x.user), AssistantSays(x.agent)]) == UserCount(ms) + 1
  {
    var t := ms + [UserSays(x.user), AssistantSays(x.agent)];
    assert t[..|t| - 1] == ms + [UserSays(x.user)];
    assert (ms + [UserSays(x.user)])[..|ms|] == ms;
  }

  /** In a session of complete exchanges the metric is the number of exchanges. */
  lemma {:induction false} UserCountOfTranscript(o: seq<Message>, xs: seq<Exchange>)
    requires Opening(o)
    ensures UserCount(o + Exchanges(xs)) == |xs|
    decreases |xs|
  {
    if xs == [] {
      assert o + Exchanges(xs) == o;
      if o != [] {
        assert o[..0] == [];
      }
    } else {
      var init, x := xs[..|xs| - 1], xs[|xs| - 1];
      assert xs == init + [x];
      ExchangesSnoc(init, x);
      assert o + Exchanges(xs) == (o + Exchanges(init)) + [UserSays(x.user), AssistantSays(x.agent)];
      UserCountExchange(o + Exchanges(init), x);
      UserCountOfTranscript(o, init);
    }
  }

  /** `stream_response(text)`: every word but the last is followed by one space. */
  function Pieces(ws: seq<string>): (ps: seq<string>)
    ensures |ps| == |ws|
  {
    seq(|ws|, i requires 0 <= i < |ws| => ws[i] + (if i < |ws| - 1 then " " else ""))
  }

  /** The generator's loop over `enumerate(text.split())`; the pause between words is left out. */
  method StreamResponse(text: string) returns (pieces: seq<string>)
    ensures pieces == Pieces(Words(text))
  {
    var words := Words(text);
    pieces := [];
    for i := 0 to |words|
      invariant pieces == Pieces(words)[..i]
    {
      pieces := pieces + [words[i] + (if i < |words| - 1 then " " else "")];
    }
  }

  function Concat(ps: seq<string>): string {
    if ps == [] then "" else ps[0] + Concat(ps[1..])
  }

  lemma {:induction false} ConcatSnoc(ps: seq<string>, p: string)
    ensures Concat(ps + [p]) == Concat(ps) + p
    decreases |ps|
  {
    if ps != [] {
      assert (ps + [p])[1..] == ps[1..] + [p];
      ConcatSnoc(ps[1..], p);
    }
  }

  /** The text built up by `full_response += chunk` is the words joined by single spaces. */
  lemma {:induction false} ConcatPieces(ws: seq<string>)
    ensures Concat(Pieces(ws)) == Join(ws, " ")
    decreases |ws|
  {
    if |ws| >= 2 {
      assert Pieces(ws)[1..] == Pieces(ws[1..]);
      ConcatPieces(ws[1..]);
    }
  }

  /** One piece per word, nothing at all for an empty or blank reply, and the pieces spell out
      the words joined by single spaces. */
  lemma StreamedText(text: string)
    ensures |Pieces(Words(text))| == |Words(text)|
    ensures Pieces(Words(text)) == [] <==> Blank(text)
    ensures Concat(Pieces(Words(text))) == Join(Words(text), " ")
  {
    WordsEmptyIffBlank(text);
    ConcatPieces(Words(text));
  }

  /** The `for chunk in stream_response(response)` loop that builds the displayed text. */
  method Display(text: string) returns (full: string)
    ensures full == Join(Words(text), " ")
  {
    var pieces := StreamResponse(text);
    full := "";
    for i := 0 to |pieces|
      invariant full == Concat(pieces[..i])
    {
      assert pieces[..i + 1] == pieces[..i] + [pieces[i]];
      ConcatSnoc(pieces[..i], pieces[i]);
      full := full + pieces[i];
    }
    assert pieces[..|pieces|] == pieces;
    StreamedText(text);
  }
}
