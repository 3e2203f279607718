/** The simulated Workday flow progress of the dashboard page: a `running` flag, the
    current step, and the intervals that drive it. Starting sets the flow running at
    step 0 and schedules an interval; each firing of an interval either advances the
    step by one or, once the step reaches 3, cancels that interval and ends the run
    at step 0. The interval period is real time and is not modelled: a firing is one
    call of Tick. */
module Flow {

  /** The last step the flow reaches before it ends. */
  const LastStep: int := 3

  /** `running` and `step` are the page's `isRunning` and `currentStep`; `timers` is
      the number of intervals scheduled and not yet cancelled. */
  datatype FlowState = FlowState(running: bool, step: int, timers: nat)

  /** The page's initial flow: not running, step 0, no interval. */
  const Idle: FlowState := FlowState(false, 0, 0)

  /** `n` firings in a row, as long as some interval is still live. */
  function Run(f: FlowState, n: nat): FlowState
    decreases n
  {
    if n == 0 || f.timers == 0 then f else Run(Tick(f), n - 1)
  }

  /** The step is one of the four the flow card shows. */
  predicate InRange(f: FlowState) {
    0 <= f.step <= LastStep
  }

  /** The state a single run keeps: exactly one interval while running and none
      otherwise, an idle flow sits at step 0, and the step is in range. */
  predicate Settled(f: FlowState) {
    InRange(f)
    && f.timers == (if f.running then 1 else 0)
    && (!f.running ==> f.step == 0)
  }

  /** handleStartWorkdayFlow: running, back at step 0, one more interval scheduled.
      It does not check whether a run is already in progress, so only an idle
      settled flow stays settled. */
  function Start(f: FlowState): (r: FlowState)
    ensures r.running && r.step == 0 && r.timers == f.timers + 1
    ensures InRange(r)
    ensures Settled(f) && !f.running ==> Settled(r)
  {
    FlowState(true, 0, f.timers + 1)
  }

  /** One firing of a live interval: past the last step it cancels itself and ends
      the run; otherwise it advances the step and leaves the rest alone. Either way
      the step stays within 0..3, and a settled flow stays settled; in a settled
      flow a live interval means the flow is running. */
  function Tick(f: FlowState): (r: FlowState)
    requires f.timers > 0
    ensures InRange(f) ==> InRange(r)
    ensures Settled(f) ==> f.running && Settled(r)
  {
    if f.step >= LastStep then FlowState(false, 0, f.timers - 1)
    else f.(step := f.step + 1)
  }

  /** Any number of ticks keeps a settled flow settled. */
  lemma {:induction false} RunSettled(f: FlowState, n: nat)
    requires Settled(f)
    ensures Settled(Run(f, n))
    decreases n
  {
    if n > 0 && f.timers > 0 {
      RunSettled(Tick(f), n - 1);
    }
  }

  /** Once the run is over nothing fires any more. */
  lemma RunWithoutTimers(f: FlowState, n: nat)
    requires f.timers == 0
    ensures Run(f, n) == f
  {
  }

  /** From an idle flow, Start then three ticks reach the last step still running,
      and the fourth tick ends the run back at the idle state. */
  lemma StartThenTicks()
    ensures Run(Start(Idle), 3) == FlowState(true, LastStep, 1)
    ensures Run(Start(Idle), 4) == Idle
  {
  }

  /** More ticks after the end change nothing: the flow stays idle. */
  lemma {:induction false} StartRunsToIdle(n: nat)
    requires n >= 4
    ensures Run(Start(Idle), n) == Idle
  {
    var s := Start(Idle);
    StartThenTicks();
    RunAfter(s, 4, n - 4);
    RunWithoutTimers(Idle, n - 4);
  }

  /** Running `m` then `k` ticks is running `m + k` ticks. */
  lemma {:induction false} RunAfter(f: FlowState, m: nat, k: nat)
    ensures Run(Run(f, m), k) == Run(f, m + k)
    decreases m
  {
    if m > 0 && f.timers > 0 {
      RunAfter(Tick(f), m - 1, k);
    } else if m > 0 {
      RunWithoutTimers(f, k);
      RunWithoutTimers(f, m + k);
    }
  }

  /** Start is unguarded: starting a second time during a run schedules a second
      interval. After the first interval ends the run, the second one goes on
      advancing the step while the flow is not running, so the state is no longer
      settled. The start button being disabled while running is what prevents this. */
  lemma DoubleStartLeavesOrphanTimer()
    ensures Run(Start(Start(Idle)), 4) == FlowState(false, 0, 1)
    ensures Run(Start(Start(Idle)), 5) == FlowState(false, 1, 1)
    ensures !Settled(Run(Start(Start(Idle)), 5))
  {
  }
}
