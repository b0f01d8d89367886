# InvestigationAssistent — a verified model of the page logic

InvestigationAssistent is a browser prototype of an "investigation
assistant". It has pages to upload evidence files, describe an analysis task,
browse derived datasets, chat with a simulated assistant and read an audit
trail. Every back end is mocked with timers and fixed payloads. What logic the
program has lives in the event handlers and helper functions of seven
components, and this project models that logic in Dafny:

- **AuditTrail** (`audit_trail.dfy`): the search-and-type filter over audit
  events, the expand/collapse toggle, and the icon and colour tags of event
  types and statuses.
- **ResultsExplorer** (`results_explorer.dfy`): the three-way dataset filter
  and the confidence and level colour bands.
- **FileUpload** (`file_upload.dfy`): extension-to-icon classification, the
  acceptance test and append loop of `handleFiles`, the single-field metadata
  edit and removal by id.
- **DataChat** (`data_chat.dfy`): the send guard, the message append, the
  ordered keyword router that picks the reply shape, and the reply itself.
- **ChatBot** (`chat_bot.dfy`): the floating assistant's open/close, send
  guard and templated reply.
- **TaskInput** (`task_input.dfy`) and **TaskCoPilot** (`task_copilot.dfy`):
  the task box (guard, clear, sample tasks) and the page's
  submit/run/complete state.

Shared helpers:

- `text.dfy` (module `Text`): JavaScript's `trim`, ASCII `toLowerCase`,
  `includes`, `endsWith` and `split('.').pop()`.
- `seqs.dfy` (module `Seqs`): `Array.prototype.filter` and the subsequence
  order it preserves.
- `options.dfy` and `palette.dfy`: an option type, and the colour and icon
  tags.

Every handler is a pure function from the old state to the new one. A
`setTimeout` callback is modelled as an explicit second step:

- `Respond` in the two chats delivers the oldest scheduled reply;
- `CompleteRun` on the co-pilot page attaches the run's result.

Each chat reply captures what its closure captures in the source:
the input text, and the message count at the moment of sending.

Some consequences of the code as written:

- The co-pilot page has no task stage machine. It keeps three independent
  variables: `currentTask`, `isProcessing` and `taskResult`. So a re-run
  shows the processing indicator next to the old result
  (`RerunShowsStaleResult`). A result that arrives after a new submission
  appears under the newer task (`ResultLandsOnNewerTask`).
- Nothing appends to an audit log. The audit trail is a constant list that is
  only filtered, so `FilterEvents` takes the list as a parameter.
- Blank input and an unknown id change nothing and raise no error. A rejected
  file leaves the list unchanged; the "File type not supported" toast it
  raises is left out with the other toasts.
- Acceptance looks at the three listed MIME types and the case-sensitive
  suffixes `.pdf`, `.docx` and `.xlsx`; JSON is not accepted.
- Message ids are not unique. They are computed from the message count the
  send handler captured, so interleaved sends collide
  (`ChatBot.InterleavedSendsShareAnId`).

## Model

| member | source | states |
|---|---|---|
| Text.Trim | src/pages/DataChat.tsx:40 | `trim` returns the slice of the input that is left once only whitespace is removed before and after it; the result neither starts nor ends with whitespace |
| Text.BlankIffAllWhitespace | src/components/TaskInput.tsx:23 | the guard `!s.trim()` holds exactly when every character of `s` is whitespace (the empty string included) |
| Text.IsBlank | src/components/TaskInput.tsx:23 | `!s.trim()`: a string is blank iff trimming leaves nothing; `BlankIffAllWhitespace` characterises it as all whitespace |
| Text.NotBlankWitness | src/components/TaskInput.tsx:64 | a single non-whitespace character anywhere enables the submit guard |
| Text.Lower | src/pages/AuditTrail.tsx:121-122 | `toLowerCase` keeps the length, maps every ASCII capital to lower case and leaves every other character unchanged |
| Text.LowerLeavesNoCapitals | src/pages/AuditTrail.tsx:121-122 | after lowercasing no ASCII capital remains, and every character that was not a capital is unchanged |
| Text.LowerForgetsCase | src/pages/AuditTrail.tsx:121-122 | a string, its upper-cased form and its lower-cased form all lowercase to the same string |
| Text.Contains | src/pages/AuditTrail.tsx:121 | `hay.includes(needle)` holds iff `needle` occurs in `hay` at some position |
| Text.ContainsEmpty | src/pages/ResultsExplorer.tsx:83 | every string includes the empty search term |
| Text.EndsWith | src/pages/FileUpload.tsx:66 | `s.endsWith(suffix)`: the suffix is no longer than `s` and equals its last characters, compared case-sensitively |
| Text.LastSegment | src/pages/FileUpload.tsx:32 | `split('.').pop()` is the longest dot-free suffix: it holds no dot and, unless it is the whole name, a dot precedes it |
| Text.LastSegmentOfJoin | src/pages/FileUpload.tsx:32 | for `base + "." + tail` with a dot-free `tail`, the last segment is `tail`, whatever `base` holds |
| Text.LastSegmentWithoutSep | src/pages/FileUpload.tsx:32 | a name without a dot is its own last segment |
| Seqs.Filter | src/pages/AuditTrail.tsx:120 | `filter` keeps only elements that pass the predicate, as a subsequence of the input (same order, nothing repeated) |
| Seqs.FilterCount | src/pages/ResultsExplorer.tsx:82 | each passing element is kept exactly as often as it occurs in the input; each failing one is dropped entirely |
| Seqs.FilterMembership | src/pages/AuditTrail.tsx:120 | an element is in the result iff it is in the input and passes |
| Seqs.FilterKeepsAll | src/pages/AuditTrail.tsx:120 | if every element passes, the result is the input |
| Seqs.FilterKeepsNone | src/pages/FileUpload.tsx:85-90 | if no element passes, the result is empty |
| Seqs.FilterCongruent | src/pages/AuditTrail.tsx:121-122 | predicates that agree on the input give the same result |
| Seqs.FilterMonotone | src/pages/ResultsExplorer.tsx:85-86 | a stricter predicate keeps a subsequence of what a looser one keeps |
| Seqs.FilterAppend | src/pages/FileUpload.tsx:65 | filtering a concatenation is the concatenation of the filtered parts |
| AuditTrail.ParseKind | src/pages/AuditTrail.tsx:13 | a type string read back as a kind names that kind |
| AuditTrail.ParseKindName | src/pages/AuditTrail.tsx:13 | every kind is read back from its own type string, and no kind is called "all" |
| AuditTrail.FilterEvents | src/pages/AuditTrail.tsx:120-125 | an event is shown iff its lowercased title or description includes the lowercased term and the type filter is "all" or equals its type; the result keeps order, holds only the selected type, and keeps each shown event exactly as often as the list holds it |
| AuditTrail.DefaultFilterKeepsAll | src/pages/AuditTrail.tsx:121-123 | with the term "" and type "all" every event is shown, in order |
| AuditTrail.SearchIgnoresCase | src/pages/AuditTrail.tsx:121-122 | searching for the upper- or lower-cased term shows the same events |
| AuditTrail.TypeFilterNarrows | src/pages/AuditTrail.tsx:123 | a specific type shows a subsequence of what "all" shows |
| AuditTrail.UnknownTypeShowsNothing | src/pages/AuditTrail.tsx:123 | a type string that is neither "all" nor an event type shows no events |
| AuditTrail.ToggleExpand | src/pages/AuditTrail.tsx:127-135 | toggling flips the membership of the given id and of no other id |
| AuditTrail.ToggleTwice | src/pages/AuditTrail.tsx:128-133 | toggling the same id twice restores the set |
| AuditTrail.EventIcon | src/pages/AuditTrail.tsx:137-146 | upload gets the document icon, analysis the bot, query the search icon, export the database and chain the bar chart, each iff; the clock is used exactly for strings that name no event type |
| AuditTrail.EventTone | src/pages/AuditTrail.tsx:148-157 | upload is blue, analysis purple, query green, export orange and chain teal, each iff; gray is used exactly for strings that name no event type |
| AuditTrail.EventBadgesDistinguishKinds | src/pages/AuditTrail.tsx:137-157 | different event types get different icons and different colours |
| AuditTrail.StatusTone | src/pages/AuditTrail.tsx:159-166 | completed is green, failed red and in_progress yellow, each iff; every other string is gray |
| AuditTrail.StatusTonesDistinct | src/pages/AuditTrail.tsx:159-166 | the three statuses have three different colours, none of them gray |
| ResultsExplorer.FilterDatasets | src/pages/ResultsExplorer.tsx:82-89 | a dataset is shown iff the term matches its name or description case-insensitively, the type is "all" or equal, and the level is "all" or equal; order is kept, and each shown dataset appears exactly as often as in the list |
| ResultsExplorer.DefaultFiltersKeepAll | src/pages/ResultsExplorer.tsx:83-86 | with "", "all" and "all" every dataset is shown, in order |
| ResultsExplorer.SearchIgnoresCase | src/pages/ResultsExplorer.tsx:83-84 | the search term's case does not change the result |
| ResultsExplorer.SelectsNarrow | src/pages/ResultsExplorer.tsx:85-86 | a specific type or level shows a subsequence of what "all" shows |
| ResultsExplorer.SelectsNarrowTogether | src/pages/ResultsExplorer.tsx:82-89 | a specific type and a specific level together show a subsequence of, and never more datasets than, the list with both selects at "all" |
| ResultsExplorer.TypeSelectIsCaseSensitive | src/pages/ResultsExplorer.tsx:85 | a type filter that differs from a dataset's type only in case excludes that dataset |
| ResultsExplorer.ConfidenceTone | src/pages/ResultsExplorer.tsx:91-95 | green iff confidence >= 90, yellow iff 80 <= confidence < 90, red iff below 80 |
| ResultsExplorer.ConfidenceToneMonotone | src/pages/ResultsExplorer.tsx:91-95 | a higher confidence never gets a worse band |
| ResultsExplorer.LevelTone | src/pages/ResultsExplorer.tsx:97-104 | High is red, Medium yellow, Low green, each iff; every other level is gray |
| FileUpload.Extension | src/pages/FileUpload.tsx:32 | the extension is the lowercased tail of the name after its last dot (the whole name if it has none), and holds no dot |
| FileUpload.ExtensionOf | src/pages/FileUpload.tsx:32 | the extension of `base.ext` is `ext` lowercased; a name without a dot is its own (lowercased) extension |
| FileUpload.IconForExtension | src/pages/FileUpload.tsx:33-40 | the text icon iff the extension is pdf, docx or doc; the spreadsheet icon iff xlsx or xls; the generic icon iff neither |
| FileUpload.FileIcon | src/pages/FileUpload.tsx:31-41 | a name gets the text icon iff its extension is pdf, docx or doc, the spreadsheet icon iff xlsx or xls, and the generic icon otherwise |
| FileUpload.UpperLastSegment | src/pages/FileUpload.tsx:32 | upper-casing a name commutes with taking its last dot-separated segment |
| FileUpload.FileIconIgnoresCase | src/pages/FileUpload.tsx:31-41 | a file name and its upper-cased form get the same icon |
| FileUpload.IsAccepted | src/pages/FileUpload.tsx:63-66 | a file is accepted iff its MIME type is one of the three listed or its name ends, case-sensitively, in `.pdf`, `.docx` or `.xlsx` |
| FileUpload.AcceptedByNameGetsDocumentIcon | src/pages/FileUpload.tsx:63-66 | a file accepted by its name alone, whatever its MIME type, gets the text or spreadsheet icon, never the generic one |
| FileUpload.NewEntry | src/pages/FileUpload.tsx:67-79 | a new entry carries the drawn id, the file's own name, type and size, the icon of its name, and metadata that starts from the name with "Evidence", "" and "Medium" |
| FileUpload.EntriesOf | src/pages/FileUpload.tsx:65-80 | a batch contributes one new entry per accepted file, in batch order |
| FileUpload.EntriesOfSnoc | src/pages/FileUpload.tsx:65-92 | one more file adds its entry at the end if accepted, and nothing if rejected |
| FileUpload.HandleFiles | src/pages/FileUpload.tsx:62-93 | the walk over the batch leaves the old list as a prefix, followed by the entries of the accepted files in batch order |
| FileUpload.NewEntriesAreAccepted | src/pages/FileUpload.tsx:66-78 | every new entry passes the acceptance test, has `metadata.fileName` equal to its name, type "Evidence", an empty definition and level "Medium", and the icon of its name |
| FileUpload.RejectedBatchChangesNothing | src/pages/FileUpload.tsx:85-90 | a batch of rejected files adds nothing |
| FileUpload.SetField | src/pages/FileUpload.tsx:98 | the spread `{ ...metadata, [field]: value }` makes the field read `value` and leaves every other field as it was |
| FileUpload.SetFieldLaws | src/pages/FileUpload.tsx:98 | writing back a field's own value changes nothing; a second write to a field overrides the first |
| FileUpload.UpdateMetadata | src/pages/FileUpload.tsx:95-101 | the edit sets the field on entries with the id; length, order, ids, names, types, sizes and icons, other entries and other fields are unchanged |
| FileUpload.UpdateAbsentIdIsNoOp | src/pages/FileUpload.tsx:96-100 | an id no entry carries leaves the list unchanged |
| FileUpload.UpdateIdempotent | src/pages/FileUpload.tsx:95-101 | repeating an edit changes nothing more |
| FileUpload.RemoveFile | src/pages/FileUpload.tsx:103-105 | removal drops every entry with the id and keeps every other entry, as often as before and in order |
| FileUpload.RemoveAbsentIdIsNoOp | src/pages/FileUpload.tsx:103-105 | removing an id no entry carries leaves the list unchanged |
| FileUpload.UpdateThenRemove | src/pages/FileUpload.tsx:95-105 | editing entries and then removing them gives the same list as removing them directly |
| DataChat.Initial | src/pages/DataChat.tsx:19-29 | the page starts with exactly one message, the assistant's greeting as plain text with id 1 and no payload, an empty input, no typing indicator and nothing scheduled |
| DataChat.PickSuggestion | src/pages/DataChat.tsx:260-271 | while only the greeting is shown, a suggestion copies its question into the input; otherwise the buttons are absent and nothing changes |
| DataChat.Send | src/pages/DataChat.tsx:39-53 | blank input changes nothing; otherwise it appends one user text message with id "count + 1" holding the untrimmed input, clears the input, shows the indicator and schedules a reply |
| DataChat.Classify | src/pages/DataChat.tsx:59-114 | the four reply shapes, each iff: timeline for "timeline"/"events"; otherwise location for "location"/"where"; otherwise financial for "financial"/"transaction"; otherwise plain text |
| DataChat.ClassifyIgnoresCase | src/pages/DataChat.tsx:59-92 | the reply shape ignores the case of the message |
| DataChat.LocationTableIsRectangular | src/pages/DataChat.tsx:83-89 | the location table has four rows, each with one cell per column |
| DataChat.Reply | src/pages/DataChat.tsx:55-114 | the reply has id "captured count + 2"; its type and payload follow the shape (chart for timeline or financial, table for location, text otherwise); each structured reply opens with its fixed intro text; a location reply carries the fixed four-row table, which is rectangular, a timeline reply the fixed event list, and a financial reply the fixed summary, total "$287,450" and 5 suspicious transactions; the plain reply quotes the message between the fixed words |
| DataChat.PlainReplyQuotesQuery | src/pages/DataChat.tsx:109 | the plain reply holds the message verbatim right after the fixed opening words |
| DataChat.Respond | src/pages/DataChat.tsx:116-117 | the timer appends the oldest scheduled reply, keeps the input and hides the indicator |
| DataChat.SendThenRespond | src/pages/DataChat.tsx:39-118 | a send and its reply keep the old messages as a prefix and add the user's message (n + 1) and the reply (n + 2); the input is then empty, the indicator off and the button disabled |
| DataChat.SendEnabled | src/pages/DataChat.tsx:295 | the send button is enabled iff the input is not all whitespace and no reply is being typed |
| DataChat.SendDisablesButton | src/pages/DataChat.tsx:295 | right after a send the button is disabled |
| DataChat.EnterSendsWhileTyping | src/pages/DataChat.tsx:290-295 | while a reply is pending the button is disabled, yet Enter still sends a non-blank message and schedules another reply |
| DataChat.IndicatorHiddenEarly | src/pages/DataChat.tsx:117 | a reply hides the typing indicator even when another reply is still scheduled |
| ChatBot.Initial | src/components/ChatBot.tsx:9-13 | the assistant starts closed, with its greeting as message 1 and an empty input |
| ChatBot.SetOpen | src/components/ChatBot.tsx:42-67 | opening and closing change only the open flag |
| ChatBot.BotReply | src/components/ChatBot.tsx:28-32 | the reply has id "captured count + 2" and quotes the message verbatim between the fixed prefix and suffix |
| ChatBot.BotReplyInjective | src/components/ChatBot.tsx:30 | different messages get different reply texts, so the reply determines the message |
| ChatBot.Send | src/components/ChatBot.tsx:15-37 | blank input changes nothing; otherwise it appends the untrimmed text with id "count + 1", schedules the reply and clears the input |
| ChatBot.Respond | src/components/ChatBot.tsx:27-34 | the timer appends the oldest scheduled reply and changes nothing else |
| ChatBot.SendThenRespond | src/components/ChatBot.tsx:15-37 | a send and its reply keep the old messages as a prefix, add the user's text (n + 1) and a reply quoting it (n + 2), and leave the input empty |
| ChatBot.InterleavedSendsShareAnId | src/components/ChatBot.tsx:18-33 | a second message sent before the first reply arrives gets the same id as that reply |
| TaskInput.Submit | src/components/TaskInput.tsx:22-26 | blank text neither calls back nor changes the box; other text is passed on untrimmed, once, and the box is cleared |
| TaskInput.SubmitEnabled | src/components/TaskInput.tsx:64 | the submit button is enabled iff the text is not all whitespace |
| TaskInput.SubmitEnabledIffSubmits | src/components/TaskInput.tsx:64 | the button is enabled iff the handler would call back, iff the text is not all whitespace; after a submit it is disabled |
| TaskInput.ChooseSample | src/components/TaskInput.tsx:54 | a sample button sets the box to exactly that sample |
| TaskInput.SamplesAreSubmittable | src/components/TaskInput.tsx:15-20 | every sample task enables the submit button |
| TaskCoPilot.Initial | src/pages/TaskCoPilot.tsx:9-11 | the page starts with no task, no result and nothing processing, so neither the analysis, processing nor results panel shows and the run button is unavailable |
| TaskCoPilot.MakeTask | src/pages/TaskCoPilot.tsx:14-21 | the task keeps the input verbatim, paraphrases it as "Analysis Request: " + input, and carries the three fixed plan texts |
| TaskCoPilot.ParaphraseRoundTrip | src/pages/TaskCoPilot.tsx:17 | the input is read back from the paraphrase, so different inputs get different paraphrases |
| TaskCoPilot.SubmitTask | src/pages/TaskCoPilot.tsx:13-24 | a submission replaces the current task and leaves processing and any earlier result alone |
| TaskCoPilot.SubmitKeepsResult | src/pages/TaskCoPilot.tsx:23-67 | after a submission the analysis panel is shown, and the results panel is shown iff it was shown before |
| TaskCoPilot.RunTask | src/pages/TaskCoPilot.tsx:26-28 | a run switches processing on and schedules its completion |
| TaskCoPilot.CompleteRun | src/pages/TaskCoPilot.tsx:29-40 | the timer sets the fixed three-row result and switches processing off; with no run in flight nothing changes |
| TaskCoPilot.ShowsAnalysis | src/pages/TaskCoPilot.tsx:57 | the analysis panel is rendered iff there is a current task |
| TaskCoPilot.ShowsProcessing | src/pages/TaskCoPilot.tsx:65 | the processing indicator is rendered iff a run is processing |
| TaskCoPilot.ShowsResults | src/pages/TaskCoPilot.tsx:67 | the results panel is rendered iff there is a result |
| TaskCoPilot.RunEnabled | src/components/TaskAnalysis.tsx:71 | the run button can be pressed iff the analysis panel shows and the processing indicator does not |
| TaskCoPilot.RunLifecycle | src/pages/TaskCoPilot.tsx:26-40 | from an idle page a run shows processing and disables the run button; on completion three rows and the fixed summary are shown, the task is unchanged and it can run again |
| TaskCoPilot.RerunShowsStaleResult | src/pages/TaskCoPilot.tsx:26-67 | a second run shows the processing indicator next to the previous result |
| TaskCoPilot.ResultLandsOnNewerTask | src/pages/TaskCoPilot.tsx:23-39 | a result arriving after a new submission is shown under the newer task |
| TaskCoPilot.SubmitFromBox | src/pages/TaskCoPilot.tsx:55 | wired to the page, a blank box changes nothing; otherwise the task built from the box's untrimmed text (same id, paraphrase and fixed plan texts as `MakeTask`) becomes current, processing, runs in flight and the old result stay as they were, and the box clears |

## Left out

- Rendering: JSX, styling, animation, and the colour and icon strings. Colours and icons are enum tags (`Palette`).
- Timers: the 1, 2 and 3 second delays are not modelled. Each callback is an explicit step, and equal delays make them fire oldest first.
- Message-id uniqueness is not claimed. The code does not guarantee it (see `ChatBot.InterleavedSendsShareAnId`).
- `formatFileSize` (src/pages/FileUpload.tsx:107-113): it depends on floating-point `Math.log`, `Math.pow` and `toFixed`.
- Random file ids (`Math.random`), `Date.now()` and `new Date()` are parameters: the drawn id of each incoming file, and the `now` arguments.
- Drag-and-drop state (`handleDrag`, `handleDrop`), toasts (among them the success and "File type not supported" toasts of `handleFiles`, src/pages/FileUpload.tsx:81-90), routing, the theme context, `App`, `main` and `Layout` are browser and framework plumbing.
- The presentational components (`Index`, `NotFound`, `ProcessingIndicator`, `TaskAnalysis`, `TaskResults`) hold no logic beyond what the page predicates state. The one exception is the run button's `disabled={isProcessing}` (src/components/TaskAnalysis.tsx:71), which is `TaskCoPilot.RunEnabled`.
- `toLowerCase` is ASCII only, with no Unicode case mapping. `trim` uses the ECMAScript whitespace set exactly.
- The seed arrays (audit events at src/pages/AuditTrail.tsx:34-118, datasets at src/pages/ResultsExplorer.tsx:15-80) are not constants here. The filters are stated for every list.
- The code has no task stages, no audit-log appends, no chaining, no export and no JSON upload, so none of these is modelled.
- FileUpload.UpdateMetadata: the source accepts any field name; the model covers the four fields the page edits (`fileName`, `documentType`, `definition`, `intelligenceLevel`), because a new key added by the spread is never read.
- ResultsExplorer.ConfidenceTone: confidence is an integer here, while a JavaScript number may be fractional. The bands are the same for integers.
- Dataset previews and the audit events' `parameters` are not interpreted. Previews are dropped, and `parameters` is an opaque string map.
