/** The Data Chat page: the send handler appends the user's message, and a
    delayed reply, chosen by keyword rules over the message text, follows.
    The delay is modelled as a queue of scheduled replies that a separate
    `Respond` step delivers, oldest first (every reply has the same delay). */
module DataChat {
  import opened Text

  datatype Sender = User | Ai
  datatype MessageKind = TextKind | ChartKind | TableKind | MapKind

  /** One point of the timeline chart; `detail` is the location, amount or
      duration the page shows beside the date. */
  datatype TimelineEntry = TimelineEntry(date: string, event: string, detail: string)

  /** The structured payload of an assistant reply. */
  datatype Payload =
    | NoData
    | TimelineChart(entries: seq<TimelineEntry>)
    | LocationTable(columns: seq<string>, rows: seq<seq<string>>)
    | FinancialChart(summary: string, totalAmount: string, suspiciousCount: int)

  /** A chat message; `timestamp` is an opaque instant supplied by the caller. */
  datatype Message = Message(
    id: int,
    content: string,
    sender: Sender,
    timestamp: int,
    kind: MessageKind,
    data: Payload)

  /** A reply scheduled by a send: the closure of the timer captures the
      input text and the number of messages at the moment of sending. */
  datatype PendingReply = PendingReply(query: string, baseCount: nat)

  datatype ChatState = ChatState(
    messages: seq<Message>,
    input: string,
    isTyping: bool,
    pending: seq<PendingReply>)

  const Greeting: string :=
    "Hello! I'm your AI investigation assistant. I can help you analyze your data, answer questions about your cases, and provide insights. What would you like to know?"

  /** The page as first rendered: the greeting alone, an empty input. */
  function Initial(now: int): (s: ChatState)
    ensures s.messages == [Message(1, Greeting, Ai, now, TextKind, NoData)]
    ensures s.input == "" && !s.isTyping && s.pending == []
  {
    ChatState([Message(1, Greeting, Ai, now, TextKind, NoData)], "", false, [])
  }

  /** The five suggested questions offered under the greeting. */
  const SuggestedQuestions: seq<string> := [
    "Where was the suspect on June 12?",
    "Show me financial transactions above $10,000",
    "What are the communication patterns between suspects?",
    "Generate a timeline of all events",
    "Find anomalies in the phone records"
  ]

  /** Clicking a suggested question copies it into the input; the buttons
      are rendered only while the greeting is the only message. */
  function PickSuggestion(s: ChatState, i: int): (r: ChatState)
    requires 0 <= i < |SuggestedQuestions|
    ensures |s.messages| == 1 ==> r == s.(input := SuggestedQuestions[i])
    ensures |s.messages| != 1 ==> r == s
  {
    if |s.messages| == 1 then s.(input := SuggestedQuestions[i]) else s
  }

  /** The send button is enabled while the input is not blank and no reply
      is being typed (the Enter key calls the handler regardless). */
  function SendEnabled(s: ChatState): (b: bool)
    ensures b <==> !AllWhitespace(s.input) && !s.isTyping
  {
    BlankIffAllWhitespace(s.input);
    !IsBlank(s.input) && !s.isTyping
  }

  /** `handleSendMessage`: ignores a blank input; otherwise appends the
      user's message, untrimmed, with id "message count + 1", clears the
      input, shows the typing indicator and schedules the reply. */
  function Send(s: ChatState, now: int): (r: ChatState)
    ensures IsBlank(s.input) ==> r == s
    ensures !IsBlank(s.input) ==>
      && r.messages == s.messages + [Message(|s.messages| + 1, s.input, User, now, TextKind, NoData)]
      && r.input == ""
      && r.isTyping
      && r.pending == s.pending + [PendingReply(s.input, |s.messages|)]
  {
    if IsBlank(s.input) then s
    else
      ChatState(
        s.messages + [Message(|s.messages| + 1, s.input, User, now, TextKind, NoData)],
        "",
        true,
        s.pending + [PendingReply(s.input, |s.messages|)])
  }

  /** Whether the lowercased text contains a keyword. */
  predicate Mentions(text: string, keyword: string) {
    Contains(Lower(text), keyword)
  }

  /** The shape of the assistant's reply. */
  datatype ReplyKind = TimelineReply | LocationReply | FinancialReply | PlainReply

  /** The keyword rules, tried in order: "timeline"/"events", then
      "location"/"where", then "financial"/"transaction", else plain text. */
  function Classify(query: string): (r: ReplyKind)
    ensures r == TimelineReply <==> Mentions(query, "timeline") || Mentions(query, "events")
    ensures r == LocationReply <==>
      && !(Mentions(query, "timeline") || Mentions(query, "events"))
      && (Mentions(query, "location") || Mentions(query, "where"))
    ensures r == FinancialReply <==>
      && !(Mentions(query, "timeline") || Mentions(query, "events"))
      && !(Mentions(query, "location") || Mentions(query, "where"))
      && (Mentions(query, "financial") || Mentions(query, "transaction"))
    ensures r == PlainReply <==>
      !(Mentions(query, "timeline") || Mentions(query, "events") || Mentions(query, "location")
        || Mentions(query, "where") || Mentions(query, "financial") || Mentions(query, "transaction"))
  {
    if Mentions(query, "timeline") || Mentions(query, "events") then TimelineReply
    else if Mentions(query, "location") || Mentions(query, "where") then LocationReply
    else if Mentions(query, "financial") || Mentions(query, "transaction") then FinancialReply
    else PlainReply
  }

  /** Classification ignores ASCII case, since every rule lowercases the text. */
  lemma ClassifyIgnoresCase(query: string)
    ensures Classify(Upper(query)) == Classify(query)
    ensures Classify(Lower(query)) == Classify(query)
  {
    LowerForgetsCase(query);
  }

  const TimelineIntro: string := "Here's a timeline of key events based on your investigation data:"
  const LocationIntro: string := "Based on the evidence, here are the suspect's known locations:"
  const FinancialIntro: string := "I found several significant financial transactions. Here's the analysis:"
  const FinancialSummary: string := "Found 23 transactions above $10,000 in the past 30 days"
  const FinancialTotal: string := "$287,450"
  const FinancialSuspicious: int := 5
  const PlainPrefix: string := "I understand you're asking about: \""
  const PlainSuffix: string :=
    "\". Let me analyze your investigation data and provide relevant insights. Based on the documents you've uploaded, I can see patterns related to your query."

  const TimelineEvents: seq<TimelineEntry> := [
    TimelineEntry("2024-01-10", "Initial contact made", "Central Plaza"),
    TimelineEntry("2024-01-12", "Financial transaction", "$12,500"),
    TimelineEntry("2024-01-15", "Phone call logged", "15 minutes")
  ]

  const LocationColumns: seq<string> := ["Date", "Time", "Location", "Source", "Confidence"]

  const LocationRows: seq<seq<string>> := [
    ["2024-06-12", "09:30 AM", "Downtown Office Building", "CCTV Footage", "High"],
    ["2024-06-12", "12:15 PM", "Restaurant District", "Credit Card Transaction", "High"],
    ["2024-06-12", "15:45 PM", "Residential Area", "Cell Tower Data", "Medium"],
    ["2024-06-12", "18:20 PM", "Shopping Mall", "Witness Statement", "Medium"]
  ]

  /** A table is well formed when every row has one cell per column. */
  predicate RectangularTable(columns: seq<string>, rows: seq<seq<string>>) {
    forall i :: 0 <= i < |rows| ==> |rows[i]| == |columns|
  }

  /** The location table has four rows of five cells under five columns. */
  lemma LocationTableIsRectangular()
    ensures RectangularTable(LocationColumns, LocationRows) && |LocationRows| == 4
  {
  }

  /** The assistant message the timer builds for a captured query, with id
      "captured message count + 2". */
  function Reply(query: string, baseCount: nat, now: int): (m: Message)
    ensures m.id == baseCount + 2 && m.sender == Ai && m.timestamp == now
    ensures m.kind == TextKind <==> Classify(query) == PlainReply
    ensures m.kind == TableKind <==> Classify(query) == LocationReply
    ensures m.kind == ChartKind <==> Classify(query) in {TimelineReply, FinancialReply}
    ensures Classify(query) == PlainReply ==> m.content == PlainPrefix + query + PlainSuffix && m.data == NoData
    ensures m.data.LocationTable? ==> RectangularTable(m.data.columns, m.data.rows) && |m.data.rows| == 4
    ensures m.data.LocationTable? <==> Classify(query) == LocationReply
    ensures m.data.TimelineChart? <==> Classify(query) == TimelineReply
    ensures m.data.FinancialChart? <==> Classify(query) == FinancialReply
    ensures Classify(query) == LocationReply ==> m.data == LocationTable(LocationColumns, LocationRows)
    ensures Classify(query) == TimelineReply ==> m.data == TimelineChart(TimelineEvents)
    ensures Classify(query) == FinancialReply ==> m.data == FinancialChart(FinancialSummary, FinancialTotal, FinancialSuspicious)
    ensures Classify(query) == TimelineReply ==> m.content == TimelineIntro
    ensures Classify(query) == LocationReply ==> m.content == LocationIntro
    ensures Classify(query) == FinancialReply ==> m.content == FinancialIntro
  {
    match Classify(query)
    case TimelineReply =>
      Message(baseCount + 2, TimelineIntro, Ai, now, ChartKind, TimelineChart(TimelineEvents))
    case LocationReply =>
      LocationTableIsRectangular();
      Message(baseCount + 2, LocationIntro, Ai, now, TableKind, LocationTable(LocationColumns, LocationRows))
    case FinancialReply =>
      Message(baseCount + 2, FinancialIntro, Ai, now, ChartKind,
        FinancialChart(FinancialSummary, FinancialTotal, FinancialSuspicious))
    case PlainReply =>
      Message(baseCount + 2, PlainPrefix + query + PlainSuffix, Ai, now, TextKind, NoData)
  }

  /** The plain-text fallback quotes the query verbatim: it can be read back
      from the reply. */
  lemma PlainReplyQuotesQuery(query: string, baseCount: nat, now: int)
    requires Classify(query) == PlainReply
    ensures OccursAt(Reply(query, baseCount, now).content, query, |PlainPrefix|)
  {
    var c := Reply(query, baseCount, now).content;
    assert c[|PlainPrefix|..|PlainPrefix| + |query|] == query;
  }

  /** The timer firing: delivers the oldest scheduled reply and hides the
      typing indicator (even if another reply is still scheduled). With
      nothing scheduled the state is unchanged. */
  function Respond(s: ChatState, now: int): (r: ChatState)
    ensures s.pending == [] ==> r == s
    ensures s.pending != [] ==>
      && r.messages == s.messages + [Reply(s.pending[0].query, s.pending[0].baseCount, now)]
      && r.pending == s.pending[1..]
      && r.input == s.input
      && !r.isTyping
  {
    if s.pending == [] then s
    else
      var p := s.pending[0];
      s.(messages := s.messages + [Reply(p.query, p.baseCount, now)], isTyping := false, pending := s.pending[1..])
  }

  /** One full exchange from an idle page: after a send and the reply, the
      old messages are a prefix, followed by the user's message (id n + 1)
      and the reply to it (id n + 2); the input is empty, the indicator off,
      and the send button disabled until something is typed. */
  lemma {:induction false} SendThenRespond(s: ChatState, t1: int, t2: int)
    requires s.pending == [] && !IsBlank(s.input)
    ensures var r := Respond(Send(s, t1), t2);
      && |r.messages| == |s.messages| + 2
      && r.messages[..|s.messages|] == s.messages
      && r.messages[|s.messages|] == Message(|s.messages| + 1, s.input, User, t1, TextKind, NoData)
      && r.messages[|s.messages| + 1] == Reply(s.input, |s.messages|, t2)
      && r.messages[|s.messages| + 1].id == |s.messages| + 2
      && r.input == "" && !r.isTyping && r.pending == []
      && !SendEnabled(r)
  {
    var sent := Send(s, t1);
    assert sent.pending == [PendingReply(s.input, |s.messages|)];
    var user := Message(|s.messages| + 1, s.input, User, t1, TextKind, NoData);
    var reply := Reply(s.input, |s.messages|, t2);
    var r := Respond(sent, t2);
    assert sent.messages == s.messages + [user];
    assert r.messages == sent.messages + [reply];
  }

  /** While a reply is being typed the send button stays disabled. */
  lemma SendDisablesButton(s: ChatState, now: int)
    requires !IsBlank(s.input)
    ensures !SendEnabled(Send(s, now))
  {
  }

  /** The Enter key calls the handler directly, so a message typed while a
      reply is pending is still sent, although the button is disabled. */
  lemma EnterSendsWhileTyping(s: ChatState, now: int)
    requires s.isTyping && !AllWhitespace(s.input)
    ensures !SendEnabled(s)
    ensures |Send(s, now).messages| == |s.messages| + 1
    ensures |Send(s, now).pending| == |s.pending| + 1
  {
    BlankIffAllWhitespace(s.input);
  }

  /** Every reply hides the typing indicator, even while another reply is
      still scheduled. */
  lemma IndicatorHiddenEarly(s: ChatState, now: int)
    requires |s.pending| >= 2
    ensures !Respond(s, now).isTyping && |Respond(s, now).pending| >= 1
  {
  }
}
