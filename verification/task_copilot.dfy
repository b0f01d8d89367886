/** The Task Co-Pilot page: a submitted task becomes the current task with
    a plan built from the input; running it shows a processing indicator
    until, after a delay, a fixed result is attached. The delay is the
    explicit `CompleteRun` step. */
module TaskCoPilot {
  import opened Text
  import opened Options
  import TaskInput

  /** The current task: the user's input and the plan shown for it. `id`
      is the opaque clock reading taken at submission. */
  datatype Task = Task(
    id: int,
    originalInput: string,
    paraphrasedTask: string,
    logicSummary: string,
    suggestedFormat: string,
    estimatedTime: string)

  datatype ResultRow = ResultRow(date: string, source: string, finding: string, confidence: string)

  datatype TaskResult = TaskResult(kind: string, rows: seq<ResultRow>, summary: string)

  /** The page's three pieces of state, plus the number of runs whose
      timer has not yet fired. */
  datatype PageState = PageState(
    currentTask: Option<Task>,
    isProcessing: bool,
    taskResult: Option<TaskResult>,
    runsInFlight: nat)

  /** The page on first render: no task, no result, not processing, no
      run in flight, so only the input panel shows. */
  function Initial(): (s: PageState)
    ensures !ShowsAnalysis(s) && !ShowsProcessing(s) && !ShowsResults(s)
    ensures !RunEnabled(s) && s.runsInFlight == 0
  {
    PageState(None, false, None, 0)
  }

  const ParaphrasePrefix: string := "Analysis Request: "
  const LogicSummary: string :=
    "The AI will process your uploaded documents and extract relevant information based on pattern recognition and keyword analysis."
  const SuggestedFormat: string := "Table with columns: Date, Source, Finding, Confidence Level"
  const EstimatedTime: string := "2-3 minutes"

  /** The task built for an input: the input kept verbatim, a paraphrase
      that prefixes it, and three fixed plan fields. */
  function MakeTask(input: string, now: int): (t: Task)
    ensures t.id == now && t.originalInput == input
    ensures t.paraphrasedTask == ParaphrasePrefix + input
    ensures t.logicSummary == LogicSummary && t.suggestedFormat == SuggestedFormat && t.estimatedTime == EstimatedTime
  {
    Task(now, input, ParaphrasePrefix + input, LogicSummary, SuggestedFormat, EstimatedTime)
  }

  /** The paraphrase is the input behind a fixed prefix, so the input can
      be read back from it and different inputs get different paraphrases. */
  lemma ParaphraseRoundTrip(input: string, other: string, now: int)
    ensures MakeTask(input, now).paraphrasedTask[|ParaphrasePrefix|..] == input
    ensures MakeTask(input, now).paraphrasedTask == MakeTask(other, now).paraphrasedTask ==> input == other
  {
    var p := MakeTask(input, now).paraphrasedTask;
    assert p[|ParaphrasePrefix|..] == input;
    assert (ParaphrasePrefix + other)[|ParaphrasePrefix|..] == other;
  }

  /** `handleSubmitTask`: replaces the current task; the processing flag
      and any earlier result are left alone. */
  function SubmitTask(s: PageState, input: string, now: int): (r: PageState)
    ensures r.currentTask == Some(MakeTask(input, now))
    ensures r.isProcessing == s.isProcessing && r.taskResult == s.taskResult && r.runsInFlight == s.runsInFlight
  {
    s.(currentTask := Some(MakeTask(input, now)))
  }

  /** `handleRunTask`, before its timer fires: processing starts. */
  function RunTask(s: PageState): (r: PageState)
    ensures r.isProcessing && r.runsInFlight == s.runsInFlight + 1
    ensures r.currentTask == s.currentTask && r.taskResult == s.taskResult
  {
    s.(isProcessing := true, runsInFlight := s.runsInFlight + 1)
  }

  const FixedRows: seq<ResultRow> := [
    ResultRow("2024-01-15", "Document_A.pdf", "Suspicious transaction of $10,000", "High"),
    ResultRow("2024-01-16", "Statement_B.docx", "Meeting mentioned at Central Plaza", "Medium"),
    ResultRow("2024-01-17", "Records_C.xlsx", "Phone call to unknown number", "High")
  ]
  const FixedSummary: string := "Found 3 significant patterns across your uploaded documents."

  /** The result every run produces. */
  const FixedResult: TaskResult := TaskResult("table", FixedRows, FixedSummary)

  /** The run timer firing: the fixed result replaces any earlier one and
      processing stops. Without a run in flight nothing happens. */
  function CompleteRun(s: PageState): (r: PageState)
    ensures s.runsInFlight == 0 ==> r == s
    ensures s.runsInFlight > 0 ==>
      && r.taskResult == Some(FixedResult)
      && !r.isProcessing
      && r.runsInFlight == s.runsInFlight - 1
      && r.currentTask == s.currentTask
  {
    if s.runsInFlight == 0 then s
    else s.(taskResult := Some(FixedResult), isProcessing := false, runsInFlight := s.runsInFlight - 1)
  }

  /** Which panels the page renders. */
  predicate ShowsAnalysis(s: PageState) { s.currentTask.Some? }
  predicate ShowsProcessing(s: PageState) { s.isProcessing }
  predicate ShowsResults(s: PageState) { s.taskResult.Some? }

  /** The run button lives in the analysis panel and is disabled while
      processing, so it can be pressed exactly when the analysis panel shows
      and the processing indicator does not. */
  function RunEnabled(s: PageState): (b: bool)
    ensures b <==> ShowsAnalysis(s) && !ShowsProcessing(s)
  {
    s.currentTask.Some? && !s.isProcessing
  }

  /** A run from an idle page: processing is shown while the run is in
      flight; afterwards the results panel shows exactly three rows and the
      fixed summary, the indicator is gone, the task is unchanged and the
      task can be run again. */
  lemma RunLifecycle(s: PageState)
    requires s.runsInFlight == 0 && RunEnabled(s)
    ensures ShowsProcessing(RunTask(s)) && !RunEnabled(RunTask(s))
    ensures var r := CompleteRun(RunTask(s));
      && ShowsResults(r) && !ShowsProcessing(r) && RunEnabled(r)
      && |r.taskResult.value.rows| == 3 && r.taskResult.value.summary == FixedSummary
      && r.currentTask == s.currentTask && r.runsInFlight == 0
  {
  }

  /** A new submission keeps the previous result on screen, and shows the
      analysis panel for the new task. */
  lemma SubmitKeepsResult(s: PageState, input: string, now: int)
    ensures ShowsAnalysis(SubmitTask(s, input, now))
    ensures ShowsResults(SubmitTask(s, input, now)) <==> ShowsResults(s)
    ensures ShowsProcessing(SubmitTask(s, input, now)) <==> ShowsProcessing(s)
  {
  }

  /** The page keeps three independent flags rather than one stage: a
      second run shows the processing indicator next to the previous
      run's result until the new result replaces it. */
  lemma RerunShowsStaleResult(s: PageState)
    requires RunEnabled(s) && ShowsResults(s)
    ensures ShowsProcessing(RunTask(s)) && RunTask(s).taskResult == s.taskResult
  {
  }

  /** A task submitted while a run is in flight becomes current, and the
      run's result, when it arrives, is shown under that newer task. */
  lemma ResultLandsOnNewerTask(s: PageState, input: string, now: int)
    requires s.runsInFlight > 0
    ensures var r := CompleteRun(SubmitTask(s, input, now));
      && r.currentTask == Some(MakeTask(input, now))
      && r.taskResult == Some(FixedResult)
  {
  }

  /** The input box wired to the page: a submit from the box either leaves
      page and box alone (blank text) or makes the task built from the box's
      text, untrimmed, the current task, changes nothing else on the page and
      clears the box. */
  function SubmitFromBox(page: PageState, box: TaskInput.InputState, now: int): (r: (PageState, TaskInput.InputState))
    ensures IsBlank(box.text) ==> r == (page, box)
    ensures !IsBlank(box.text) ==>
      && r.0.currentTask == Some(MakeTask(box.text, now))
      && r.0.currentTask.value.originalInput == box.text
      && r.0.currentTask.value.paraphrasedTask == ParaphrasePrefix + box.text
      && r.0.taskResult == page.taskResult
      && r.0.isProcessing == page.isProcessing && r.0.runsInFlight == page.runsInFlight
      && r.1.text == ""
  {
    var out := TaskInput.Submit(box);
    match out.submitted
    case None => (page, out.state)
    case Some(text) => (SubmitTask(page, text, now), out.state)
  }
}
