/** The task input box of the Task Co-Pilot page: a text area, sample-task
    buttons that fill it, and a submit button that hands the text to the
    page and clears the box. */
module TaskInput {
  import opened Text
  import opened Options

  datatype InputState = InputState(text: string)

  /** The four sample tasks offered as buttons. */
  const SampleTasks: seq<string> := [
    "Analyze financial transactions for suspicious patterns",
    "Extract all dates and locations from witness statements",
    "Cross-reference phone records with timeline evidence",
    "Identify communication patterns between suspects"
  ]

  /** The outcome of a submit: the new box contents, and the text handed
      to the page's `onSubmitTask` callback, if it was called. */
  datatype SubmitOutcome = SubmitOutcome(state: InputState, submitted: Option<string>)

  /** `handleSubmit`: a blank text is ignored; otherwise the text is passed
      on untrimmed, exactly once, and the box is cleared. */
  function Submit(s: InputState): (r: SubmitOutcome)
    ensures IsBlank(s.text) ==> r.state == s && r.submitted == None
    ensures !IsBlank(s.text) ==> r.submitted == Some(s.text) && r.state.text == ""
  {
    if IsBlank(s.text) then SubmitOutcome(s, None)
    else SubmitOutcome(InputState(""), Some(s.text))
  }

  /** The submit button is disabled while the text is blank. */
  function SubmitEnabled(s: InputState): (b: bool)
    ensures b <==> !AllWhitespace(s.text)
  {
    BlankIffAllWhitespace(s.text);
    !IsBlank(s.text)
  }

  /** The button's enabled state predicts the handler: the callback runs
      exactly when the button is enabled, and then the button is disabled
      again because the box is empty. */
  lemma SubmitEnabledIffSubmits(s: InputState)
    ensures SubmitEnabled(s) <==> Submit(s).submitted.Some?
    ensures SubmitEnabled(s) ==> !SubmitEnabled(Submit(s).state)
    ensures SubmitEnabled(s) <==> !AllWhitespace(s.text)
  {
    BlankIffAllWhitespace(s.text);
    BlankIffAllWhitespace("");
  }

  /** A sample-task button sets the box to exactly that sample. */
  function ChooseSample(s: InputState, i: int): (r: InputState)
    requires 0 <= i < |SampleTasks|
    ensures r.text == SampleTasks[i]
  {
    InputState(SampleTasks[i])
  }

  /** Every sample task can be submitted. */
  lemma SamplesAreSubmittable(s: InputState, i: int)
    requires 0 <= i < |SampleTasks|
    ensures SubmitEnabled(ChooseSample(s, i))
  {
    var t := SampleTasks[i];
    assert |t| > 0 && t[|t| - 1] in {'s', 'e'};
    NotBlankWitness(t, |t| - 1);
  }
}
