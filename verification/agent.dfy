/**
 * The agent's control loop (`SimpleWebAgent.run`): a bounded number of
 * perceive, plan and execute steps over the fields `history` and
 * `final_answer`, ended by a `break` or by running out of steps.
 *
 * Everything the loop receives from outside — the driver, the perception
 * and planning services, and the execution module — arrives as one
 * `StepInput` per step.
 */
module Agent {
  import opened Base
  import opened AgentData
  import Arbitration
  import Execution

  const DefaultMaxSteps: nat := 15
  const SummaryLimit: nat := 100
  const BottomTolerance := 10

  /** `is_page_bottom`, on the three numbers it reads from the page. */
  predicate IsPageBottom(scrollY: int, viewportHeight: int, totalHeight: int) {
    scrollY + viewportHeight + BottomTolerance >= totalHeight
  }

  /** Scrolling further down never leaves the bottom. */
  lemma PageBottomMonotone(scrollY: int, further: int, viewportHeight: int, totalHeight: int)
    requires IsPageBottom(scrollY, viewportHeight, totalHeight) && scrollY <= further
    ensures IsPageBottom(further, viewportHeight, totalHeight)
  {
  }

  /** A 1000-pixel page in a 500-pixel viewport counts as bottom from offset 490 on. */
  lemma PageBottomExamples()
    ensures IsPageBottom(490, 500, 1000) && IsPageBottom(491, 500, 1000)
    ensures !IsPageBottom(489, 500, 1000)
  {
  }

  datatype Screenshot = Saved | NotSaved | ScreenshotRaised(detail: string)

  /** The perception module's answer: a state with `interactive_elements`, or an error message. */
  datatype Perception = Perceived(state: PerceivedState) | PerceptionFailed(detail: string)

  /**
   * What the world supplies to one step: a WebDriver exception raised while
   * reading the URL or the scroll position, the current URL, the screenshot
   * outcome, the perception result, an exception raised while reading the
   * page markup (read only in dual mode) or the markup itself, the two
   * planners' replies, the page the execution module acts on and how its
   * driver calls go, and an exception raised while waiting for the page to
   * settle after an action.
   */
  datatype StepInput = StepInput(
    driverFault: Option<string>,
    url: string,
    screenshot: Screenshot,
    perception: Perception,
    pageSourceFault: Option<string>,
    pageSource: string,
    visionPlan: Action,
    htmlPlan: Action,
    dom: Execution.Dom,
    effects: Execution.DriverEffects,
    settleFault: Option<string>)

  /** The step reaches planning: no driver fault, a saved screenshot, a perceived state, the markup read. */
  predicate ReachesPlanning(input: StepInput, useDualMode: bool) {
    && input.driverFault.None? && input.screenshot.Saved? && input.perception.Perceived?
    && !(useDualMode && input.pageSourceFault.Some?)
  }

  function PlannedAction(input: StepInput, useDualMode: bool): Action
    requires ReachesPlanning(input, useDualMode)
  {
    Arbitration.PlanAction(useDualMode, input.pageSource, input.visionPlan, input.htmlPlan, input.perception.state)
  }

  /** The history entry a step records once it has a valid plan. */
  function StepEntry(input: StepInput, useDualMode: bool): (entry: HistoryEntry)
    requires ReachesPlanning(input, useDualMode)
    ensures entry.action == PlannedAction(input, useDualMode) && entry.url == input.url
    ensures entry.summary <= input.perception.state.summary.GetOr("No summary")
    ensures |entry.summary| ==
      if |input.perception.state.summary.GetOr("No summary")| < SummaryLimit
      then |input.perception.state.summary.GetOr("No summary")| else SummaryLimit
  {
    HistoryEntry(PlannedAction(input, useDualMode), input.url,
                 Take(input.perception.state.summary.GetOr("No summary"), SummaryLimit))
  }

  /** Actions after which the loop waits for the page to settle. */
  predicate Settles(action: Action) {
    IsKind(action, KindClick) || IsKind(action, KindType) || IsKind(action, KindSelect) || IsKind(action, KindNavigate)
  }

  /** Whether the execution module reports the step's action as carried out. */
  predicate Executed(input: StepInput, useDualMode: bool)
    requires ReachesPlanning(input, useDualMode)
  {
    Execution.Succeeds(PlannedAction(input, useDualMode), input.perception.state, input.dom, input.effects)
  }

  /** The step neither breaks out of the loop nor raises: the loop goes on. */
  predicate Proceeds(input: StepInput, useDualMode: bool) {
    && ReachesPlanning(input, useDualMode)
    && var action := PlannedAction(input, useDualMode);
    && action.actionType.Some?
    && !IsKind(action, KindAnswer) && !IsKind(action, KindStop) && !IsKind(action, KindError)
    && Executed(input, useDualMode)
    && !(Settles(action) && input.settleFault.Some?)
  }

  datatype StepResult = StepResult(history: seq<HistoryEntry>, finalAnswer: Option<string>, halted: bool)

  const WebDriverErrorPrefix := "WebDriver Error: "
  const ScreenshotFailed := "Error: Failed to save screenshot."
  const InvalidPlan := "Error: Planning module returned invalid action."
  const MaxStepsReached := "Max steps reached."

  /** One pass of the loop body, from the state before it. */
  function Step(history: seq<HistoryEntry>, finalAnswer: Option<string>, input: StepInput,
                useDualMode: bool, dump: Action -> string): StepResult
  {
    if input.driverFault.Some? then
      StepResult(history, Some(WebDriverErrorPrefix + input.driverFault.value), true)
    else if input.screenshot.NotSaved? then
      StepResult(history, Some(ScreenshotFailed), true)
    else if input.screenshot.ScreenshotRaised? then
      StepResult(history, Some("Error: Failed to save screenshot - " + input.screenshot.detail), true)
    else if input.perception.PerceptionFailed? then
      StepResult(history, Some("Perception Error: " + input.perception.detail), true)
    else if useDualMode && input.pageSourceFault.Some? then
      StepResult(history, Some(WebDriverErrorPrefix + input.pageSourceFault.value), true)
    else
      var action := PlannedAction(input, useDualMode);
      if action.actionType.None? then
        StepResult(history, Some(InvalidPlan), true)
      else
        var recorded := history + [StepEntry(input, useDualMode)];
        if IsKind(action, KindAnswer) then
          StepResult(recorded, action.content, true)
        else if IsKind(action, KindStop) then
          StepResult(recorded,
                     if Truthy(finalAnswer) then finalAnswer
                     else Some("Stopped by planner: " + action.reason.GetOr("No reason specified")),
                     true)
        else if IsKind(action, KindError) then
          StepResult(recorded, Some("Planning Error: " + action.message.GetOr("Unknown planning error")), true)
        else if !Executed(input, useDualMode) then
          StepResult(recorded, Some("Execution failed for action: " + dump(action)), true)
        else if Settles(action) && input.settleFault.Some? then
          StepResult(recorded, Some(WebDriverErrorPrefix + input.settleFault.value), true)
        else
          StepResult(recorded, finalAnswer, false)
  }

  lemma StepProceeds(history: seq<HistoryEntry>, finalAnswer: Option<string>, input: StepInput,
                     useDualMode: bool, dump: Action -> string)
    ensures !Step(history, finalAnswer, input, useDualMode, dump).halted <==> Proceeds(input, useDualMode)
    ensures Proceeds(input, useDualMode) ==>
      Step(history, finalAnswer, input, useDualMode, dump) ==
        StepResult(history + [StepEntry(input, useDualMode)], finalAnswer, false)
  {
  }

  /** A step leaves the history alone or appends its own entry, for a plan with an `action_type`. */
  lemma StepAppendsAtMostOne(history: seq<HistoryEntry>, finalAnswer: Option<string>, input: StepInput,
                             useDualMode: bool, dump: Action -> string)
    ensures var r := Step(history, finalAnswer, input, useDualMode, dump);
      || r.history == history
      || (&& ReachesPlanning(input, useDualMode)
          && PlannedAction(input, useDualMode).actionType.Some?
          && r.history == history + [StepEntry(input, useDualMode)])
  {
  }

  /**
   * A step whose plan has an `action_type` records exactly its own entry,
   * whatever follows: an answer, a stop, a planning error, a failed
   * execution, a fault while the page settles, or the next step.
   */
  lemma StepRecordsValidPlan(history: seq<HistoryEntry>, finalAnswer: Option<string>, input: StepInput,
                             useDualMode: bool, dump: Action -> string)
    requires ReachesPlanning(input, useDualMode) && PlannedAction(input, useDualMode).actionType.Some?
    ensures Step(history, finalAnswer, input, useDualMode, dump).history == history + [StepEntry(input, useDualMode)]
  {
  }

  datatype RunOutcome = RunOutcome(history: seq<HistoryEntry>, finalAnswer: Option<string>)

  /** The loop from step `step` on, including the `for ... else` branch. */
  function RunFrom(history: seq<HistoryEntry>, finalAnswer: Option<string>, env: nat -> StepInput,
                   step: nat, maxSteps: nat, useDualMode: bool, dump: Action -> string): RunOutcome
    decreases maxSteps - step
  {
    if step >= maxSteps then
      RunOutcome(history, if Truthy(finalAnswer) then finalAnswer else Some(MaxStepsReached))
    else
      var r := Step(history, finalAnswer, env(step), useDualMode, dump);
      if r.halted then RunOutcome(r.history, r.finalAnswer)
      else RunFrom(r.history, r.finalAnswer, env, step + 1, maxSteps, useDualMode, dump)
  }

  /** The whole of `run`: the initial navigation may raise before the loop starts. */
  function RunSpec(history: seq<HistoryEntry>, finalAnswer: Option<string>, startFault: Option<string>,
                   env: nat -> StepInput, maxSteps: nat, useDualMode: bool, dump: Action -> string): RunOutcome
  {
    if startFault.Some? then RunOutcome(history, Some(WebDriverErrorPrefix + startFault.value))
    else RunFrom(history, finalAnswer, env, 0, maxSteps, useDualMode, dump)
  }

  /** The entries recorded by the proceeding steps `lo` up to `hi`. */
  function Entries(env: nat -> StepInput, lo: nat, hi: nat, useDualMode: bool): (entries: seq<HistoryEntry>)
    requires lo <= hi
    requires forall j | lo <= j < hi :: Proceeds(env(j), useDualMode)
    ensures |entries| == hi - lo
    decreases hi - lo
  {
    if lo == hi then []
    else
      assert Proceeds(env(lo), useDualMode);
      [StepEntry(env(lo), useDualMode)] + Entries(env, lo + 1, hi, useDualMode)
  }

  /** A step that proceeds records its entry and hands over to the next step. */
  lemma RunFromProceeds(history: seq<HistoryEntry>, finalAnswer: Option<string>, env: nat -> StepInput,
                        step: nat, maxSteps: nat, useDualMode: bool, dump: Action -> string)
    requires step < maxSteps && Proceeds(env(step), useDualMode)
    ensures RunFrom(history, finalAnswer, env, step, maxSteps, useDualMode, dump) ==
      RunFrom(history + [StepEntry(env(step), useDualMode)], finalAnswer, env, step + 1, maxSteps, useDualMode, dump)
  {
    StepProceeds(history, finalAnswer, env(step), useDualMode, dump);
  }

  /** A step that does not proceed ends the run with what it leaves. */
  lemma RunFromHalts(history: seq<HistoryEntry>, finalAnswer: Option<string>, env: nat -> StepInput,
                     step: nat, maxSteps: nat, useDualMode: bool, dump: Action -> string)
    requires step < maxSteps && !Proceeds(env(step), useDualMode)
    ensures var r := Step(history, finalAnswer, env(step), useDualMode, dump);
      RunFrom(history, finalAnswer, env, step, maxSteps, useDualMode, dump) == RunOutcome(r.history, r.finalAnswer)
  {
    StepProceeds(history, finalAnswer, env(step), useDualMode, dump);
  }

  lemma EntriesSplit(history: seq<HistoryEntry>, env: nat -> StepInput, lo: nat, hi: nat, useDualMode: bool)
    requires lo < hi
    requires forall j | lo <= j < hi :: Proceeds(env(j), useDualMode)
    ensures history + Entries(env, lo, hi, useDualMode) ==
      (history + [StepEntry(env(lo), useDualMode)]) + Entries(env, lo + 1, hi, useDualMode)
  {
  }

  /**
   * The loop only appends: what it leaves is the old history followed by at
   * most one entry per remaining step, each for a plan that has an
   * `action_type`.
   */
  lemma {:induction false} RunAppendsBounded(history: seq<HistoryEntry>, finalAnswer: Option<string>,
                                             env: nat -> StepInput, step: nat, maxSteps: nat,
                                             useDualMode: bool, dump: Action -> string)
    ensures var out := RunFrom(history, finalAnswer, env, step, maxSteps, useDualMode, dump);
      && history <= out.history
      && |out.history| <= |history| + (if step <= maxSteps then maxSteps - step else 0)
      && forall i | |history| <= i < |out.history| :: out.history[i].action.actionType.Some?
    decreases maxSteps - step
  {
    if step < maxSteps {
      if Proceeds(env(step), useDualMode) {
        RunFromProceeds(history, finalAnswer, env, step, maxSteps, useDualMode, dump);
        RunAppendsBounded(history + [StepEntry(env(step), useDualMode)], finalAnswer, env, step + 1, maxSteps,
                          useDualMode, dump);
      } else {
        RunFromHalts(history, finalAnswer, env, step, maxSteps, useDualMode, dump);
        StepAppendsAtMostOne(history, finalAnswer, env(step), useDualMode, dump);
      }
    }
  }

  /**
   * When steps `step` up to `k` proceed and step `k` does not, the run ends
   * with what step `k` leaves, starting from the history those steps built.
   */
  lemma {:induction false} RunHaltsAt(history: seq<HistoryEntry>, finalAnswer: Option<string>,
                                      env: nat -> StepInput, step: nat, k: nat, maxSteps: nat,
                                      useDualMode: bool, dump: Action -> string)
    requires step <= k < maxSteps
    requires forall j | step <= j < k :: Proceeds(env(j), useDualMode)
    requires !Proceeds(env(k), useDualMode)
    ensures var r := Step(history + Entries(env, step, k, useDualMode), finalAnswer, env(k), useDualMode, dump);
      RunFrom(history, finalAnswer, env, step, maxSteps, useDualMode, dump) == RunOutcome(r.history, r.finalAnswer)
    decreases k - step
  {
    if step < k {
      RunFromProceeds(history, finalAnswer, env, step, maxSteps, useDualMode, dump);
      EntriesSplit(history, env, step, k, useDualMode);
      RunHaltsAt(history + [StepEntry(env(step), useDualMode)], finalAnswer, env, step + 1, k, maxSteps, useDualMode, dump);
    } else {
      RunFromHalts(history, finalAnswer, env, step, maxSteps, useDualMode, dump);
      assert history + Entries(env, step, k, useDualMode) == history;
    }
  }

  /**
   * When every remaining step proceeds, each adds its entry and the run ends
   * in the `for ... else` branch: "Max steps reached." unless an answer was
   * already set.
   */
  lemma {:induction false} RunExhaustsSteps(history: seq<HistoryEntry>, finalAnswer: Option<string>,
                                            env: nat -> StepInput, step: nat, maxSteps: nat,
                                            useDualMode: bool, dump: Action -> string)
    requires step <= maxSteps
    requires forall j | step <= j < maxSteps :: Proceeds(env(j), useDualMode)
    ensures RunFrom(history, finalAnswer, env, step, maxSteps, useDualMode, dump) ==
      RunOutcome(history + Entries(env, step, maxSteps, useDualMode),
                 if Truthy(finalAnswer) then finalAnswer else Some(MaxStepsReached))
    decreases maxSteps - step
  {
    if step < maxSteps {
      RunFromProceeds(history, finalAnswer, env, step, maxSteps, useDualMode, dump);
      EntriesSplit(history, env, step, maxSteps, useDualMode);
      RunExhaustsSteps(history + [StepEntry(env(step), useDualMode)], finalAnswer, env, step + 1, maxSteps,
                       useDualMode, dump);
    } else {
      assert history + Entries(env, step, maxSteps, useDualMode) == history;
    }
  }

  /** A step whose plan is ANSWER ends the run with the answer's content, after recording it. */
  lemma AnswerEndsRun(history: seq<HistoryEntry>, finalAnswer: Option<string>, env: nat -> StepInput,
                      k: nat, maxSteps: nat, useDualMode: bool, dump: Action -> string)
    requires k < maxSteps
    requires forall j | 0 <= j < k :: Proceeds(env(j), useDualMode)
    requires ReachesPlanning(env(k), useDualMode) && IsKind(PlannedAction(env(k), useDualMode), KindAnswer)
    ensures var out := RunFrom(history, finalAnswer, env, 0, maxSteps, useDualMode, dump);
      && out.finalAnswer == PlannedAction(env(k), useDualMode).content
      && out.history == history + Entries(env, 0, k, useDualMode) + [StepEntry(env(k), useDualMode)]
  {
    RunHaltsAt(history, finalAnswer, env, 0, k, maxSteps, useDualMode, dump);
  }

  /** A stop keeps an answer already set and otherwise records the planner's reason. */
  lemma StopEndsRun(history: seq<HistoryEntry>, finalAnswer: Option<string>, env: nat -> StepInput,
                    k: nat, maxSteps: nat, useDualMode: bool, dump: Action -> string)
    requires k < maxSteps
    requires forall j | 0 <= j < k :: Proceeds(env(j), useDualMode)
    requires ReachesPlanning(env(k), useDualMode) && IsKind(PlannedAction(env(k), useDualMode), KindStop)
    ensures var out := RunFrom(history, finalAnswer, env, 0, maxSteps, useDualMode, dump);
      && out.finalAnswer ==
           (if Truthy(finalAnswer) then finalAnswer
            else Some("Stopped by planner: " + PlannedAction(env(k), useDualMode).reason.GetOr("No reason specified")))
      && out.history == history + Entries(env, 0, k, useDualMode) + [StepEntry(env(k), useDualMode)]
  {
    RunHaltsAt(history, finalAnswer, env, 0, k, maxSteps, useDualMode, dump);
  }

  /**
   * A planning error ends the run after being recorded, and its message
   * replaces any answer already set.
   */
  lemma ErrorEndsRun(history: seq<HistoryEntry>, finalAnswer: Option<string>, env: nat -> StepInput,
                     k: nat, maxSteps: nat, useDualMode: bool, dump: Action -> string)
    requires k < maxSteps
    requires forall j | 0 <= j < k :: Proceeds(env(j), useDualMode)
    requires ReachesPlanning(env(k), useDualMode) && IsKind(PlannedAction(env(k), useDualMode), KindError)
    ensures var out := RunFrom(history, finalAnswer, env, 0, maxSteps, useDualMode, dump);
      && out.finalAnswer ==
           Some("Planning Error: " + PlannedAction(env(k), useDualMode).message.GetOr("Unknown planning error"))
      && out.history == history + Entries(env, 0, k, useDualMode) + [StepEntry(env(k), useDualMode)]
  {
    RunHaltsAt(history, finalAnswer, env, 0, k, maxSteps, useDualMode, dump);
  }

  /**
   * A step that fails before it has a plan with an `action_type` (a driver
   * fault, no screenshot, a perception error, unreadable markup, an invalid
   * plan) ends the run without recording anything for that step.
   */
  lemma EarlyFailureRecordsNothing(history: seq<HistoryEntry>, finalAnswer: Option<string>, env: nat -> StepInput,
                                   k: nat, maxSteps: nat, useDualMode: bool, dump: Action -> string)
    requires k < maxSteps
    requires forall j | 0 <= j < k :: Proceeds(env(j), useDualMode)
    requires !ReachesPlanning(env(k), useDualMode) || PlannedAction(env(k), useDualMode).actionType.None?
    ensures RunFrom(history, finalAnswer, env, 0, maxSteps, useDualMode, dump).history ==
      history + Entries(env, 0, k, useDualMode)
  {
    RunHaltsAt(history, finalAnswer, env, 0, k, maxSteps, useDualMode, dump);
  }

  /**
   * The entry is recorded before execution: an action the execution module
   * reports as failed is still in the history, and the run ends naming it.
   */
  lemma FailedExecutionIsRecorded(history: seq<HistoryEntry>, finalAnswer: Option<string>, env: nat -> StepInput,
                                  k: nat, maxSteps: nat, useDualMode: bool, dump: Action -> string)
    requires k < maxSteps
    requires forall j | 0 <= j < k :: Proceeds(env(j), useDualMode)
    requires ReachesPlanning(env(k), useDualMode)
    requires var action := PlannedAction(env(k), useDualMode);
      && action.actionType.Some?
      && !IsKind(action, KindAnswer) && !IsKind(action, KindStop) && !IsKind(action, KindError)
    requires !Executed(env(k), useDualMode)
    ensures var out := RunFrom(history, finalAnswer, env, 0, maxSteps, useDualMode, dump);
      && out.finalAnswer == Some("Execution failed for action: " + dump(PlannedAction(env(k), useDualMode)))
      && out.history == history + Entries(env, 0, k, useDualMode) + [StepEntry(env(k), useDualMode)]
  {
    RunHaltsAt(history, finalAnswer, env, 0, k, maxSteps, useDualMode, dump);
  }

  /** `SimpleWebAgent`, reduced to the state its loop and the goal reset change. */
  class WebAgent {
    var goal: string
    var startUrl: string
    var useDualMode: bool
    var history: seq<HistoryEntry>
    var maxSteps: nat
    var finalAnswer: Option<string>

    constructor (goal: string, startUrl: string, useDualMode: bool)
      ensures this.goal == goal && this.startUrl == startUrl && this.useDualMode == useDualMode
      ensures history == [] && maxSteps == DefaultMaxSteps && finalAnswer == None
    {
      this.goal := goal;
      this.startUrl := startUrl;
      this.useDualMode := useDualMode;
      history := [];
      maxSteps := DefaultMaxSteps;
      finalAnswer := None;
    }

    /**
     * `run`: `startFault` is a WebDriver exception from the initial
     * navigation, `env(i)` what the world supplies to step `i`, and `dump`
     * stands for `json.dumps` of an action.
     */
    method Run(startFault: Option<string>, env: nat -> StepInput, dump: Action -> string)
      modifies this`history, this`finalAnswer
      ensures RunOutcome(history, finalAnswer) ==
        RunSpec(old(history), old(finalAnswer), startFault, env, maxSteps, useDualMode, dump)
    {
      if startFault.Some? {
        finalAnswer := Some(WebDriverErrorPrefix + startFault.value);
        return;
      }
      var step := 0;
      var broke := false;
      while step < maxSteps
        invariant 0 <= step <= maxSteps
        invariant !broke
        invariant RunFrom(history, finalAnswer, env, step, maxSteps, useDualMode, dump) ==
          RunFrom(old(history), old(finalAnswer), env, 0, maxSteps, useDualMode, dump)
      {
        var halted := Advance(env(step), dump);
        if halted {
          broke := true;
          break;
        }
        step := step + 1;
      }
      if !broke && !Truthy(finalAnswer) {
        finalAnswer := Some(MaxStepsReached);
      }
    }

    /**
     * The body of `run`'s loop for one step; `halted` says whether it ends
     * in a `break`.
     */
    method Advance(input: StepInput, dump: Action -> string) returns (halted: bool)
      modifies this`history, this`finalAnswer
      ensures StepResult(history, finalAnswer, halted) ==
        Step(old(history), old(finalAnswer), input, useDualMode, dump)
    {
      if input.driverFault.Some? {
        finalAnswer := Some(WebDriverErrorPrefix + input.driverFault.value);
        return true;
      }
      match input.screenshot {
        case NotSaved =>
          finalAnswer := Some(ScreenshotFailed);
          return true;
        case ScreenshotRaised(detail) =>
          finalAnswer := Some("Error: Failed to save screenshot - " + detail);
          return true;
        case Saved =>
      }
      if input.perception.PerceptionFailed? {
        finalAnswer := Some("Perception Error: " + input.perception.detail);
        return true;
      }
      if useDualMode && input.pageSourceFault.Some? {
        finalAnswer := Some(WebDriverErrorPrefix + input.pageSourceFault.value);
        return true;
      }
      var state := input.perception.state;
      var summary := Take(state.summary.GetOr("No summary"), SummaryLimit);
      var action := Arbitration.PlanAction(useDualMode, input.pageSource, input.visionPlan, input.htmlPlan, state);
      if action.actionType.None? {
        finalAnswer := Some(InvalidPlan);
        return true;
      }
      history := history + [HistoryEntry(action, input.url, summary)];
      if IsKind(action, KindAnswer) {
        finalAnswer := action.content;
        return true;
      }
      if IsKind(action, KindStop) {
        if !Truthy(finalAnswer) {
          finalAnswer := Some("Stopped by planner: " + action.reason.GetOr("No reason specified"));
        }
        return true;
      }
      if IsKind(action, KindError) {
        finalAnswer := Some("Planning Error: " + action.message.GetOr("Unknown planning error"));
        return true;
      }
      var success := Execution.Execute(action, state, input.dom, input.effects);
      if !success {
        finalAnswer := Some("Execution failed for action: " + dump(action));
        return true;
      }
      if Settles(action) && input.settleFault.Some? {
        finalAnswer := Some(WebDriverErrorPrefix + input.settleFault.value);
        return true;
      }
      return false;
    }

    /** Reusing the agent for a new goal: the goal is replaced, history and answer cleared. */
    method StartNewGoal(newGoal: string)
      modifies this`goal, this`history, this`finalAnswer
      ensures goal == newGoal && history == [] && finalAnswer == None
    {
      goal := newGoal;
      history := [];
      finalAnswer := None;
    }
  }
}
