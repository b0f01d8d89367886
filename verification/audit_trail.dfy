/** The Audit Trail page: a list of audit events narrowed by a free-text
    search and an event-type select, with per-event expand/collapse. */
module AuditTrail {
  import opened Text
  import opened Seqs
  import opened Options
  import opened Palette

  datatype EventKind = Upload | Analysis | Query | Export | Chain
  datatype Actor = UserActor | AiActor
  datatype Status = Completed | Failed | InProgress

  /** The optional metrics attached to an event; `parameters` is an opaque
      key-value mapping. */
  datatype EventMetadata = EventMetadata(
    confidence: Option<int>,
    recordsProcessed: Option<int>,
    executionTime: Option<string>,
    parameters: Option<map<string, string>>)

  /** One audit event; `timestamp` is an opaque instant. */
  datatype AuditEvent = AuditEvent(
    id: string,
    timestamp: int,
    kind: EventKind,
    actor: Actor,
    title: string,
    description: string,
    sourceFiles: Option<seq<string>>,
    outputFiles: Option<seq<string>>,
    transformationLogic: Option<string>,
    metadata: EventMetadata,
    status: Status)

  /** The string the page stores in an event's `type` field and offers as
      a value of the type select. */
  function KindName(k: EventKind): string {
    match k
    case Upload => "upload"
    case Analysis => "analysis"
    case Query => "query"
    case Export => "export"
    case Chain => "chain"
  }

  /** Reads a type string back; strings that name no kind give `None`. */
  function ParseKind(t: string): (r: Option<EventKind>)
    ensures r.Some? ==> KindName(r.value) == t
  {
    if t == "upload" then Some(Upload)
    else if t == "analysis" then Some(Analysis)
    else if t == "query" then Some(Query)
    else if t == "export" then Some(Export)
    else if t == "chain" then Some(Chain)
    else None
  }

  /** Kind names and parsing are inverse: every kind is read back from its
      name, so no two kinds share a name and "all" names none of them. */
  lemma ParseKindName(k: EventKind)
    ensures ParseKind(KindName(k)) == Some(k)
    ensures KindName(k) != AllTypes
  {
  }

  /** The value of the type select that disables type filtering. */
  const AllTypes: string := "all"

  /** The search half of the filter: the lowercased term occurs in the
      lowercased title or the lowercased description. */
  predicate MatchesSearch(e: AuditEvent, term: string) {
    Contains(Lower(e.title), Lower(term)) || Contains(Lower(e.description), Lower(term))
  }

  /** The type half of the filter: "all", or exactly the event's type string. */
  predicate MatchesType(e: AuditEvent, filterType: string) {
    filterType == AllTypes || KindName(e.kind) == filterType
  }

  /** `filteredEvents`: the events that pass both the search and the type
      filter, in their original order. */
  function FilterEvents(events: seq<AuditEvent>, term: string, filterType: string): (r: seq<AuditEvent>)
    ensures IsSubsequence(r, events)
    ensures forall e :: e in r <==> e in events && MatchesSearch(e, term) && MatchesType(e, filterType)
    ensures filterType != AllTypes ==> forall i :: 0 <= i < |r| ==> KindName(r[i].kind) == filterType
    ensures forall e :: multiset(r)[e] == if MatchesSearch(e, term) && MatchesType(e, filterType) then multiset(events)[e] else 0
  {
    var keep := e => MatchesSearch(e, term) && MatchesType(e, filterType);
    var r := Filter(events, keep);
    forall e ensures (e in r <==> e in events && keep(e)) && multiset(r)[e] == if keep(e) then multiset(events)[e] else 0 {
      FilterMembership(events, keep, e);
      FilterCount(events, keep, e);
    }
    r
  }

  /** With the default search term "" and type "all" every event is shown. */
  lemma {:induction false} DefaultFilterKeepsAll(events: seq<AuditEvent>)
    ensures FilterEvents(events, "", AllTypes) == events
  {
    var keep := e => MatchesSearch(e, "") && MatchesType(e, AllTypes);
    forall i | 0 <= i < |events| ensures keep(events[i]) {
      ContainsEmpty(Lower(events[i].title));
    }
    FilterKeepsAll(events, keep);
  }

  /** The search ignores ASCII case: searching for the upper- or lower-cased
      term shows the same events. */
  lemma {:induction false} SearchIgnoresCase(events: seq<AuditEvent>, term: string, filterType: string)
    ensures FilterEvents(events, Upper(term), filterType) == FilterEvents(events, term, filterType)
    ensures FilterEvents(events, Lower(term), filterType) == FilterEvents(events, term, filterType)
  {
    LowerForgetsCase(term);
    FilterCongruent(events,
      e => MatchesSearch(e, Upper(term)) && MatchesType(e, filterType),
      e => MatchesSearch(e, term) && MatchesType(e, filterType));
    FilterCongruent(events,
      e => MatchesSearch(e, Lower(term)) && MatchesType(e, filterType),
      e => MatchesSearch(e, term) && MatchesType(e, filterType));
  }

  /** Choosing a specific type narrows the list: the result is a
      subsequence of the one shown for "all" with the same search term. */
  lemma {:induction false} TypeFilterNarrows(events: seq<AuditEvent>, term: string, filterType: string)
    ensures IsSubsequence(FilterEvents(events, term, filterType), FilterEvents(events, term, AllTypes))
  {
    FilterMonotone(events,
      e => MatchesSearch(e, term) && MatchesType(e, filterType),
      e => MatchesSearch(e, term) && MatchesType(e, AllTypes));
  }

  /** A type string that is neither "all" nor an event type shows nothing. */
  lemma {:induction false} UnknownTypeShowsNothing(events: seq<AuditEvent>, term: string, filterType: string)
    requires filterType != AllTypes && ParseKind(filterType) == None
    ensures FilterEvents(events, term, filterType) == []
  {
    forall i | 0 <= i < |events| ensures KindName(events[i].kind) != filterType {
      ParseKindName(events[i].kind);
    }
    FilterKeepsNone(events, e => MatchesSearch(e, term) && MatchesType(e, filterType));
  }

  /** `toggleExpand`: flips whether `id` is expanded and leaves every other
      id as it was. */
  function ToggleExpand(expanded: set<string>, id: string): (r: set<string>)
    ensures id in r <==> id !in expanded
    ensures forall x :: x != id ==> (x in r <==> x in expanded)
  {
    if id in expanded then expanded - {id} else expanded + {id}
  }

  /** Toggling the same event twice restores the expanded set. */
  lemma ToggleTwice(expanded: set<string>, id: string)
    ensures ToggleExpand(ToggleExpand(expanded, id), id) == expanded
  {
  }

  /** `getEventIcon`: one icon per event type, a clock for anything else. */
  function EventIcon(t: string): (r: Icon)
    ensures r == FileTextIcon <==> t == "upload"
    ensures r == BotIcon <==> t == "analysis"
    ensures r == SearchIcon <==> t == "query"
    ensures r == DatabaseIcon <==> t == "export"
    ensures r == BarChartIcon <==> t == "chain"
    ensures r == ClockIcon <==> ParseKind(t) == None
  {
    match ParseKind(t)
    case Some(Upload) => FileTextIcon
    case Some(Analysis) => BotIcon
    case Some(Query) => SearchIcon
    case Some(Export) => DatabaseIcon
    case Some(Chain) => BarChartIcon
    case None => ClockIcon
  }

  /** `getEventColor`: one tone per event type, gray for anything else. */
  function EventTone(t: string): (r: Tone)
    ensures r == Blue <==> t == "upload"
    ensures r == Purple <==> t == "analysis"
    ensures r == Green <==> t == "query"
    ensures r == Orange <==> t == "export"
    ensures r == Teal <==> t == "chain"
    ensures r == Gray <==> ParseKind(t) == None
  {
    match ParseKind(t)
    case Some(Upload) => Blue
    case Some(Analysis) => Purple
    case Some(Query) => Green
    case Some(Export) => Orange
    case Some(Chain) => Teal
    case None => Gray
  }

  /** Distinct event types get distinct icons and distinct tones, so the
      icon or the badge colour alone identifies an event's type. */
  lemma EventBadgesDistinguishKinds(k1: EventKind, k2: EventKind)
    requires k1 != k2
    ensures EventIcon(KindName(k1)) != EventIcon(KindName(k2))
    ensures EventTone(KindName(k1)) != EventTone(KindName(k2))
  {
    ParseKindName(k1);
    ParseKindName(k2);
  }

  function StatusName(s: Status): string {
    match s
    case Completed => "completed"
    case Failed => "failed"
    case InProgress => "in_progress"
  }

  /** `getStatusColor`: green, red and yellow for the three statuses, gray
      for any other string. */
  function StatusTone(status: string): (r: Tone)
    ensures r == Green <==> status == "completed"
    ensures r == Red <==> status == "failed"
    ensures r == Yellow <==> status == "in_progress"
    ensures r == Gray <==> status !in {"completed", "failed", "in_progress"}
    ensures r in {Green, Red, Yellow, Gray}
  {
    if status == "completed" then Green
    else if status == "failed" then Red
    else if status == "in_progress" then Yellow
    else Gray
  }

  /** Each status has its own colour. */
  lemma StatusTonesDistinct(s1: Status, s2: Status)
    requires s1 != s2
    ensures StatusTone(StatusName(s1)) != StatusTone(StatusName(s2))
    ensures StatusTone(StatusName(s1)) != Gray
  {
  }
}
