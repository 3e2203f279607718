/** The Workday flow card: the fixed table of four steps, the indicator each step
    shows for the page's `(currentStep, isRunning)`, the connectors between
    consecutive steps, and the guard on the start button. */
module WorkdayFlowCard {
  import Flow

  /** One row of the steps table; its name (the label) is also the row's React key. */
  datatype Step = Step(name: string, description: string)

  /** The four steps, in the order the flow goes through them. */
  const Steps: seq<Step> := [
    Step("Click Apply", "Blue apply button"),
    Step("Apply Manually", "Select manual option"),
    Step("Sign In", "Auto-login credentials"),
    Step("Auto-fill", "Fill all fields")
  ]

  /** There are four steps, one per value the flow's step takes, and their labels,
      which serve as keys, are pairwise distinct. */
  lemma StepsTable()
    ensures |Steps| == 4 && |Steps| == Flow.LastStep + 1
    ensures forall i, j :: 0 <= i < j < |Steps| ==> Steps[i].name != Steps[j].name
  {
  }

  /** Step `index` has been done. */
  predicate IsCompleted(index: int, currentStep: int) {
    index < currentStep
  }

  /** Step `index` is the one in progress. */
  predicate IsCurrent(index: int, currentStep: int, isRunning: bool) {
    index == currentStep && isRunning
  }

  /** What a step's circle shows: the check mark, the pulsing current step, or the
      idle icon. */
  datatype Indicator = Done | Active | Waiting

  /** The class cascade of a step circle: completed wins over current, and a step
      that is neither is idle. Since no step is both completed and current, each
      indicator is shown exactly when its condition holds. */
  function IndicatorOf(index: int, currentStep: int, isRunning: bool): (r: Indicator)
    ensures r == Done <==> IsCompleted(index, currentStep)
    ensures r == Active <==> IsCurrent(index, currentStep, isRunning)
    ensures r == Waiting <==> !IsCompleted(index, currentStep) && !IsCurrent(index, currentStep, isRunning)
  {
    if IsCompleted(index, currentStep) then Done
    else if IsCurrent(index, currentStep, isRunning) then Active
    else Waiting
  }

  /** The indicators of all four steps, in table order. */
  function Indicators(currentStep: int, isRunning: bool): (r: seq<Indicator>)
    ensures |r| == |Steps|
  {
    seq(|Steps|, i => IndicatorOf(i, currentStep, isRunning))
  }

  /** At most one step is current, and none is when the flow is not running. */
  lemma AtMostOneCurrent(currentStep: int, isRunning: bool)
    ensures forall i, j :: 0 <= i < j < |Steps| ==>
      !(Indicators(currentStep, isRunning)[i] == Active && Indicators(currentStep, isRunning)[j] == Active)
    ensures !isRunning ==> Active !in Indicators(currentStep, isRunning)
  {
  }

  /** Number of `Done` indicators. */
  function CountDone(xs: seq<Indicator>): nat {
    if xs == [] then 0 else CountDone(xs[..|xs| - 1]) + (if xs[|xs| - 1] == Done then 1 else 0)
  }

  /** `x` clamped into `lo..hi`. */
  function Clamp(x: int, lo: int, hi: int): int
    requires lo <= hi
  {
    if x < lo then lo else if x > hi then hi else x
  }

  /** The card shows as many completed steps as the flow's step counts, capped at
      the four steps there are (and none for a negative step). */
  lemma CompletedCount(currentStep: int, isRunning: bool)
    ensures CountDone(Indicators(currentStep, isRunning)) == Clamp(currentStep, 0, |Steps|)
  {
    var xs := Indicators(currentStep, isRunning);
    CountDonePrefix(xs, currentStep, isRunning, |Steps|);
    assert xs[..|Steps|] == xs;
  }

  lemma {:induction false} CountDonePrefix(xs: seq<Indicator>, currentStep: int, isRunning: bool, n: nat)
    requires xs == Indicators(currentStep, isRunning) && n <= |xs|
    ensures CountDone(xs[..n]) == Clamp(currentStep, 0, n)
  {
    if n > 0 {
      CountDonePrefix(xs, currentStep, isRunning, n - 1);
      assert xs[..n][..n - 1] == xs[..n - 1];
    }
  }

  /** The connectors drawn after every step but the last; connector `i` is lit
      (success-coloured) when `i < currentStep`. */
  function Connectors(currentStep: int): (r: seq<bool>)
    ensures |r| == |Steps| - 1
  {
    seq(|Steps| - 1, i => i < currentStep)
  }

  /** The connector after a step is lit exactly when that step is completed. */
  lemma ConnectorFollowsStep(currentStep: int, isRunning: bool, i: nat)
    requires i < |Steps| - 1
    ensures Connectors(currentStep)[i] <==> Indicators(currentStep, isRunning)[i] == Done
  {
  }

  /** While a settled flow runs, the card shows its step as the one current step,
      the steps before it as completed and the ones after it as idle. */
  lemma RunningFlowIndicators(f: Flow.FlowState, i: nat)
    requires Flow.Settled(f) && f.running && i < |Steps|
    ensures Indicators(f.step, f.running)[i] == (if i < f.step then Done else if i == f.step then Active else Waiting)
    ensures 0 <= f.step < |Steps|
  {
  }

  /** `disabled={!enabled || isRunning}` on the start button. */
  predicate StartDisabled(enabled: bool, isRunning: bool) {
    !enabled || isRunning
  }

  /** The button guard is what keeps a run single: a start the button lets through
      leaves a settled flow settled, and so never adds a second interval. */
  lemma GuardedStartSettled(f: Flow.FlowState, enabled: bool)
    requires Flow.Settled(f)
    ensures !StartDisabled(enabled, f.running) ==> Flow.Settled(Flow.Start(f)) && Flow.Start(f).timers == 1
    ensures !StartDisabled(enabled, f.running) <==> enabled && !f.running
  {
  }
}
