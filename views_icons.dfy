/**
 * The status-to-symbol classifiers of the list row (`PRRowView.stateIcon`), the
 * floating panel (`FloatingPanelView.icon`) and the details panel
 * (`PRDetailsPanelView.icon`). Each picks one of the four `ActionState` symbols.
 */
module Icons {
  import opened Wrappers
  import opened Models
  import Actions

  /** Conclusions drawn as a failure. */
  predicate FailedConclusion(c: string)
  {
    c == "failure" || c == "cancelled" || c == "timed_out"
  }

  /** Raw states the row draws as still running. */
  predicate RunningState(raw: string)
  {
    raw == "in_progress" || raw == "queued" || raw == "waiting" || raw == "requested"
  }

  /**
   * `PRRowView.stateIcon(_:)`: the symbol for a summary state, `nil` and every
   * unknown string (for instance `unknown`) being drawn as neutral.
   */
  function StateIcon(raw: Option<string>): (sym: string)
    ensures raw == Some("success") ==> sym == SfSymbol(Success)
    ensures raw.Some? && FailedConclusion(raw.value) ==> sym == SfSymbol(Failure)
    ensures raw.Some? && RunningState(raw.value) ==> sym == SfSymbol(InProgress)
    ensures raw.None? || !(raw.value == "success" || FailedConclusion(raw.value) || RunningState(raw.value)) ==>
              sym == SfSymbol(Neutral)
  {
    match raw
    case Some("success") => SfSymbol(Success)
    case Some("failure") => SfSymbol(Failure)
    case Some("cancelled") => SfSymbol(Failure)
    case Some("timed_out") => SfSymbol(Failure)
    case Some("in_progress") => SfSymbol(InProgress)
    case Some("queued") => SfSymbol(InProgress)
    case Some("waiting") => SfSymbol(InProgress)
    case Some("requested") => SfSymbol(InProgress)
    case _ => SfSymbol(Neutral)
  }

  /** The row draws each `ActionState`'s raw value with that state's own symbol. */
  lemma StateIconOfRawValue(s: ActionState)
    ensures StateIcon(Some(RawValue(s))) == SfSymbol(s)
  {
  }

  /**
   * For any list of check runs, the row's checks icon is the symbol of the
   * `ActionState` whose raw value the overall check state is.
   */
  lemma StateIconOfCheckState(cs: seq<CheckRun>)
    ensures ActionStateFromRaw(Actions.OverallCheckState(cs)).Some?
    ensures StateIcon(Some(Actions.OverallCheckState(cs))) == SfSymbol(ActionStateFromRaw(Actions.OverallCheckState(cs)).value)
  {
    Actions.CheckStateIsActionState(cs);
    var s := ActionStateFromRaw(Actions.OverallCheckState(cs)).value;
    assert RawValue(s) == Actions.OverallCheckState(cs);
    StateIconOfRawValue(s);
  }

  /** `FloatingPanelView.icon(for:conclusion:)`: the status decides first, then the conclusion. */
  function FloatingIcon(status: string, conclusion: Option<string>): (sym: string)
    ensures status != "completed" ==> sym == SfSymbol(InProgress)
    ensures status == "completed" && conclusion == Some("success") ==> sym == SfSymbol(Success)
    ensures status == "completed" && conclusion.Some? && FailedConclusion(conclusion.value) ==> sym == SfSymbol(Failure)
    ensures status == "completed" && (conclusion.None? || !(conclusion.value == "success" || FailedConclusion(conclusion.value))) ==>
              sym == SfSymbol(Neutral)
  {
    if status != "completed" then SfSymbol(InProgress)
    else if conclusion == Some("success") then SfSymbol(Success)
    else if conclusion == Some("failure") || conclusion == Some("cancelled") || conclusion == Some("timed_out") then SfSymbol(Failure)
    else SfSymbol(Neutral)
  }

  /**
   * `PRDetailsPanelView.icon(status:conclusion:)`, a separate copy of the floating
   * panel's rule in the app; `PanelIconsAgree` proves the two copies agree.
   */
  function DetailsIcon(status: string, conclusion: Option<string>): (sym: string)
    ensures status != "completed" ==> sym == SfSymbol(InProgress)
    ensures status == "completed" && conclusion == Some("success") ==> sym == SfSymbol(Success)
    ensures status == "completed" && conclusion.Some? && FailedConclusion(conclusion.value) ==> sym == SfSymbol(Failure)
    ensures status == "completed" && (conclusion.None? || !(conclusion.value == "success" || FailedConclusion(conclusion.value))) ==>
              sym == SfSymbol(Neutral)
  {
    if status != "completed" then SfSymbol(InProgress)
    else if conclusion == Some("success") then SfSymbol(Success)
    else if conclusion == Some("failure") || conclusion == Some("cancelled") || conclusion == Some("timed_out") then SfSymbol(Failure)
    else SfSymbol(Neutral)
  }

  /** The two panels draw every status and conclusion alike. */
  lemma PanelIconsAgree(status: string, conclusion: Option<string>)
    ensures DetailsIcon(status, conclusion) == FloatingIcon(status, conclusion)
  {
  }

  /**
   * A panel draws a run as the row draws its workflow state, unless the run is
   * completed with a conclusion the row counts as running (`queued`, say), which the
   * panels draw as neutral.
   */
  lemma PanelIconMatchesRowIcon(run: WorkflowRun)
    requires run.status == "completed" && run.conclusion.Some? ==> !RunningState(run.conclusion.value)
    ensures FloatingIcon(run.status, run.conclusion) == StateIcon(Some(Actions.WorkflowState(Some(run))))
  {
  }

  /** The exception: a completed run whose conclusion reads `queued` is neutral in a panel but running in the row. */
  lemma PanelAndRowDifferOnRunningConclusion(run: WorkflowRun)
    requires run.status == "completed" && run.conclusion == Some("queued")
    ensures FloatingIcon(run.status, run.conclusion) == SfSymbol(Neutral)
    ensures StateIcon(Some(Actions.WorkflowState(Some(run)))) == SfSymbol(InProgress)
    ensures FloatingIcon(run.status, run.conclusion) != StateIcon(Some(Actions.WorkflowState(Some(run))))
  {
  }
}
