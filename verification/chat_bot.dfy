/** The floating chat assistant: a window that opens and closes, and a send
    handler that appends the user's text and, after a delay, a templated
    bot reply. The delay is modelled as a queue of scheduled replies that
    `Respond` delivers oldest first. */
module ChatBot {
  import opened Text

  datatype Sender = UserSide | BotSide

  datatype BotMessage = BotMessage(id: int, text: string, sender: Sender)

  /** A reply scheduled by a send, with the input text and message count
      captured when the user sent it. */
  datatype ScheduledReply = ScheduledReply(query: string, baseCount: nat)

  datatype BotState = BotState(
    isOpen: bool,
    messages: seq<BotMessage>,
    input: string,
    pending: seq<ScheduledReply>)

  const Greeting: string := "Hello! I'm your AI investigation assistant. Ask me anything about your data!"

  /** The assistant as first rendered: closed, with the greeting. */
  function Initial(): (s: BotState)
    ensures !s.isOpen && s.messages == [BotMessage(1, Greeting, BotSide)]
    ensures s.input == "" && s.pending == []
  {
    BotState(false, [BotMessage(1, Greeting, BotSide)], "", [])
  }

  /** The floating button opens the window and its close button closes it;
      neither touches the conversation. */
  function SetOpen(s: BotState, open: bool): (r: BotState)
    ensures r.isOpen == open
    ensures r.messages == s.messages && r.input == s.input && r.pending == s.pending
  {
    s.(isOpen := open)
  }

  const ReplyPrefix: string := "I understand you're asking about: \""
  const ReplySuffix: string := "\". Let me analyze the data and provide insights."

  /** The bot's reply to a captured query: id "captured count + 2", text
      quoting the query between fixed words. */
  function BotReply(query: string, baseCount: nat): (m: BotMessage)
    ensures m.id == baseCount + 2 && m.sender == BotSide
    ensures |m.text| == |ReplyPrefix| + |query| + |ReplySuffix|
    ensures OccursAt(m.text, query, |ReplyPrefix|)
    ensures m.text[..|ReplyPrefix|] == ReplyPrefix && m.text[|ReplyPrefix| + |query|..] == ReplySuffix
  {
    var text := ReplyPrefix + query + ReplySuffix;
    assert text[|ReplyPrefix|..|ReplyPrefix| + |query|] == query;
    BotMessage(baseCount + 2, text, BotSide)
  }

  /** The query is recovered from the reply text by removing the fixed
      words, so different queries get different replies. */
  lemma BotReplyInjective(q1: string, q2: string, n: nat)
    requires BotReply(q1, n).text == BotReply(q2, n).text
    ensures q1 == q2
  {
    var t := BotReply(q1, n).text;
    assert q1 == t[|ReplyPrefix|..|ReplyPrefix| + |q1|];
  }

  /** `handleSendMessage`: ignores a blank input; otherwise appends the
      user's text, untrimmed, with id "message count + 1", schedules the
      reply and clears the input. */
  function Send(s: BotState): (r: BotState)
    ensures IsBlank(s.input) ==> r == s
    ensures !IsBlank(s.input) ==>
      && r.messages == s.messages + [BotMessage(|s.messages| + 1, s.input, UserSide)]
      && r.pending == s.pending + [ScheduledReply(s.input, |s.messages|)]
      && r.input == ""
      && r.isOpen == s.isOpen
  {
    if IsBlank(s.input) then s
    else
      s.(messages := s.messages + [BotMessage(|s.messages| + 1, s.input, UserSide)],
         pending := s.pending + [ScheduledReply(s.input, |s.messages|)],
         input := "")
  }

  /** The timer firing: appends the oldest scheduled reply. */
  function Respond(s: BotState): (r: BotState)
    ensures s.pending == [] ==> r == s
    ensures s.pending != [] ==>
      && r.messages == s.messages + [BotReply(s.pending[0].query, s.pending[0].baseCount)]
      && r.pending == s.pending[1..]
      && r.input == s.input && r.isOpen == s.isOpen
  {
    if s.pending == [] then s
    else
      var p := s.pending[0];
      s.(messages := s.messages + [BotReply(p.query, p.baseCount)], pending := s.pending[1..])
  }

  /** One exchange from an idle assistant: the old messages stay as a
      prefix, then the user's text with id n + 1, then the bot's reply
      quoting it with id n + 2; the input is left empty. */
  lemma {:induction false} SendThenRespond(s: BotState)
    requires s.pending == [] && !IsBlank(s.input)
    ensures var r := Respond(Send(s));
      && |r.messages| == |s.messages| + 2
      && r.messages[..|s.messages|] == s.messages
      && r.messages[|s.messages|] == BotMessage(|s.messages| + 1, s.input, UserSide)
      && r.messages[|s.messages| + 1].id == |s.messages| + 2
      && OccursAt(r.messages[|s.messages| + 1].text, s.input, |ReplyPrefix|)
      && r.input == "" && r.pending == []
  {
    var sent := Send(s);
    assert sent.pending == [ScheduledReply(s.input, |s.messages|)];
    var user := BotMessage(|s.messages| + 1, s.input, UserSide);
    var reply := BotReply(s.input, |s.messages|);
    var r := Respond(sent);
    assert r.messages == s.messages + [user, reply];
  }

  /** Message ids are not unique: the reply's id is computed from the
      message count captured at send time, so a second message sent before
      the first reply arrives gets the same id as that reply. */
  lemma {:induction false} InterleavedSendsShareAnId(s: BotState, second: string)
    requires s.pending == [] && !AllWhitespace(s.input) && !AllWhitespace(second)
    ensures var r := Respond(Send(Send(s).(input := second)));
      && |r.messages| == |s.messages| + 3
      && r.messages[|s.messages| + 1].sender == UserSide
      && r.messages[|s.messages| + 2].sender == BotSide
      && r.messages[|s.messages| + 1].id == r.messages[|s.messages| + 2].id
  {
    BlankIffAllWhitespace(s.input);
    BlankIffAllWhitespace(second);
    var n := |s.messages|;
    var first := Send(s);
    var sent := Send(first.(input := second));
    var r := Respond(sent);
    assert sent.pending[0] == ScheduledReply(s.input, n);
    assert r.messages[n + 1] == sent.messages[n + 1];
  }
}
