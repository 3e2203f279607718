/** The dashboard page: the state it owns (the flow switch, the flow progress, the
    job-URL queue and the saved candidate record) and the handlers it passes to
    its child components. */
module IndexPage {
  import Flow
  import opened Queue
  import CandidateConfig
  import WorkdayFlowCard
  import BulkUrlManager
  import opened Text

  class Dashboard {
    var workdayEnabled: bool
    var isRunning: bool
    var currentStep: int
    /** Intervals scheduled by handleStartWorkdayFlow and not yet cancelled. */
    var timers: nat
    var jobUrls: seq<JobUrl>
    var candidateData: CandidateConfig.CandidateData

    /** The flow part of the page state. */
    function FlowOf(): Flow.FlowState
      reads this
    {
      Flow.FlowState(isRunning, currentStep, timers)
    }

    /** The page invariant: a single settled run at a time, and a queue of pending
        entries with distinct ids. */
    predicate Valid()
      reads this
    {
      Flow.Settled(FlowOf()) && UniqueIds(jobUrls) && AllPending(jobUrls)
    }

    /** The initial state: the flow switched on, not running, step 0, no interval,
        an empty queue and an all-empty candidate record. */
    constructor ()
      ensures workdayEnabled && !isRunning && currentStep == 0 && timers == 0
      ensures jobUrls == [] && candidateData == CandidateConfig.EmptyCandidate
      ensures FlowOf() == Flow.Idle
      ensures Valid()
    {
      workdayEnabled := true;
      isRunning := false;
      currentStep := 0;
      timers := 0;
      jobUrls := [];
      candidateData := CandidateConfig.EmptyCandidate;
    }

    /** handleAddUrls: one new pending entry per URL, appended after the existing
        ones, which stay as they were. `ids` and `stamps` are the values
        `crypto.randomUUID()` and `new Date()` yield for each URL. */
    method AddUrls(urls: seq<string>, ids: seq<string>, stamps: seq<int>)
      requires |ids| == |urls| && |stamps| == |urls|
      requires FreshIds(jobUrls, ids)
      modifies this
      ensures jobUrls == old(jobUrls) + NewEntries(urls, ids, stamps)
      ensures |jobUrls| == |old(jobUrls)| + |urls| && jobUrls[..|old(jobUrls)|] == old(jobUrls)
      ensures urls != [] ==> BulkUrlManager.ClearAllVisible(jobUrls)
      ensures FlowOf() == old(FlowOf()) && workdayEnabled == old(workdayEnabled)
      ensures candidateData == old(candidateData)
      ensures old(UniqueIds(jobUrls)) ==> UniqueIds(jobUrls)
      ensures old(AllPending(jobUrls)) ==> AllPending(jobUrls)
      ensures old(Valid()) ==> Valid()
    {
      if UniqueIds(jobUrls) {
        AddKeepsUnique(jobUrls, urls, ids, stamps);
      }
      if AllPending(jobUrls) {
        AddKeepsAllPending(jobUrls, urls, ids, stamps);
      }
      jobUrls := jobUrls + NewEntries(urls, ids, stamps);
    }

    /** handleRemoveUrl: the entries with another id, in their original order. */
    method RemoveUrl(id: string)
      modifies this
      ensures jobUrls == RemoveById(old(jobUrls), id)
      ensures FlowOf() == old(FlowOf()) && workdayEnabled == old(workdayEnabled)
      ensures candidateData == old(candidateData)
      ensures old(UniqueIds(jobUrls)) ==> UniqueIds(jobUrls)
      ensures old(AllPending(jobUrls)) ==> AllPending(jobUrls)
      ensures old(Valid()) ==> Valid()
    {
      if UniqueIds(jobUrls) {
        RemoveKeepsUnique(jobUrls, id);
      }
      if AllPending(jobUrls) {
        RemoveKeepsAllPending(jobUrls, id);
      }
      jobUrls := RemoveById(jobUrls, id);
    }

    /** handleClearAll: the queue becomes empty, which hides the Clear-All control. */
    method ClearAll()
      modifies this
      ensures jobUrls == [] && !BulkUrlManager.ClearAllVisible(jobUrls)
      ensures UniqueIds(jobUrls) && AllPending(jobUrls)
      ensures FlowOf() == old(FlowOf()) && workdayEnabled == old(workdayEnabled)
      ensures candidateData == old(candidateData)
      ensures old(Valid()) ==> Valid()
    {
      jobUrls := [];
    }

    /** handleStartWorkdayFlow: running from step 0, with one more interval. It
        does not look at whether a run is in progress. */
    method StartWorkdayFlow()
      modifies this
      ensures FlowOf() == Flow.Start(old(FlowOf()))
      ensures jobUrls == old(jobUrls) && workdayEnabled == old(workdayEnabled)
      ensures candidateData == old(candidateData)
    {
      isRunning := true;
      currentStep := 0;
      timers := timers + 1;
    }

    /** One firing of an interval callback: past the last step it cancels its
        interval and ends the run at step 0, otherwise it advances the step. */
    method Tick()
      requires timers > 0
      modifies this
      ensures FlowOf() == Flow.Tick(old(FlowOf()))
      ensures old(Valid()) ==> Valid()
      ensures jobUrls == old(jobUrls) && workdayEnabled == old(workdayEnabled)
      ensures candidateData == old(candidateData)
    {
      if currentStep >= Flow.LastStep {
        timers := timers - 1;
        isRunning := false;
        currentStep := 0;
      } else {
        currentStep := currentStep + 1;
      }
    }

    /** The start button of the flow card: it calls StartWorkdayFlow unless it is
        disabled, and so keeps the page valid. */
    method PressStart()
      requires Valid()
      modifies this
      ensures WorkdayFlowCard.StartDisabled(old(workdayEnabled), old(isRunning)) ==> FlowOf() == old(FlowOf())
      ensures !WorkdayFlowCard.StartDisabled(old(workdayEnabled), old(isRunning)) ==>
        FlowOf() == Flow.Start(old(FlowOf()))
      ensures jobUrls == old(jobUrls) && workdayEnabled == old(workdayEnabled)
      ensures candidateData == old(candidateData)
      ensures Valid()
    {
      if !WorkdayFlowCard.StartDisabled(workdayEnabled, isRunning) {
        WorkdayFlowCard.GuardedStartSettled(FlowOf(), workdayEnabled);
        StartWorkdayFlow();
      }
    }

    /** The flow card's switch (`onToggle={setWorkdayEnabled}`). */
    method SetWorkdayEnabled(enabled: bool)
      modifies this
      ensures workdayEnabled == enabled
      ensures FlowOf() == old(FlowOf()) && jobUrls == old(jobUrls)
      ensures candidateData == old(candidateData)
    {
      workdayEnabled := enabled;
    }

    /** The candidate form's `onSave={setCandidateData}`: the saved record replaces
        the old one as a whole. */
    method SaveCandidate(data: CandidateConfig.CandidateData)
      modifies this
      ensures candidateData == data
      ensures FlowOf() == old(FlowOf()) && jobUrls == old(jobUrls)
      ensures workdayEnabled == old(workdayEnabled)
    {
      candidateData := data;
    }
  }

  /** A whole run as the page sees it: from the initial state, the start button
      and four interval firings bring the flow through steps 1, 2 and 3 and back
      to idle with no interval left. */
  method WholeRun() returns (page: Dashboard)
    ensures page.FlowOf() == Flow.Idle && page.Valid()
  {
    page := new Dashboard();
    page.PressStart();
    assert page.FlowOf() == Flow.FlowState(true, 0, 1);
    page.Tick();
    page.Tick();
    page.Tick();
    assert page.FlowOf() == Flow.FlowState(true, Flow.LastStep, 1);
    page.Tick();
  }

  /** The bulk "Add" button wired to the page: the panel's handler parses its text
      and, when that yields URLs, hands them to handleAddUrls. The queue grows by
      one pending entry per non-blank line, in line order, and the area is then
      emptied and hidden; when every line is blank nothing changes. `ids` and `stamps` are the values the id source and the clock
      yield, one per URL handed over. */
  method AddBulkToQueue(page: Dashboard, input: BulkUrlManager.UrlInput, ids: seq<string>, stamps: seq<int>)
    requires |ids| == |ParseBulk(input.bulkUrls)| && |stamps| == |ids|
    requires FreshIds(page.jobUrls, ids)
    modifies page, input
    ensures page.jobUrls == old(page.jobUrls) + NewEntries(ParseBulk(old(input.bulkUrls)), ids, stamps)
    ensures |page.jobUrls| == |old(page.jobUrls)| + CountNonBlank(Split(old(input.bulkUrls), '\n'))
    ensures old(page.Valid()) ==> page.Valid()
    ensures page.FlowOf() == old(page.FlowOf())
    ensures page.workdayEnabled == old(page.workdayEnabled) && page.candidateData == old(page.candidateData)
    ensures ParseBulk(old(input.bulkUrls)) == [] ==>
      input.bulkUrls == old(input.bulkUrls) && input.showBulkInput == old(input.showBulkInput)
    ensures ParseBulk(old(input.bulkUrls)) != [] ==> input.bulkUrls == [] && !input.showBulkInput
    ensures input.singleUrl == old(input.singleUrl)
  {
    ghost var text := input.bulkUrls;
    ParseBulkCount(text);
    var added := input.AddBulk();
    if added.Some? {
      page.AddUrls(added.value, ids, stamps);
    } else {
      assert NewEntries(ParseBulk(text), ids, stamps) == [];
      assert page.jobUrls + [] == page.jobUrls;
    }
  }

  /** The single-URL "Add" button wired to the page: a non-blank field adds one
      pending entry holding the trimmed URL and is cleared, and a blank one adds
      nothing and keeps its text. */
  method AddSingleToQueue(page: Dashboard, input: BulkUrlManager.UrlInput, ids: seq<string>, stamps: seq<int>)
    requires |ids| == (if IsBlank(input.singleUrl) then 0 else 1) && |stamps| == |ids|
    requires FreshIds(page.jobUrls, ids)
    modifies page, input
    ensures IsBlank(old(input.singleUrl)) ==> page.jobUrls == old(page.jobUrls)
    ensures !IsBlank(old(input.singleUrl)) ==>
      page.jobUrls == old(page.jobUrls) + [JobUrl(ids[0], Trim(old(input.singleUrl)), [], Pending, stamps[0])]
    ensures old(page.Valid()) ==> page.Valid()
    ensures page.FlowOf() == old(page.FlowOf())
    ensures page.workdayEnabled == old(page.workdayEnabled) && page.candidateData == old(page.candidateData)
    ensures input.singleUrl == (if IsBlank(old(input.singleUrl)) then old(input.singleUrl) else [])
    ensures input.bulkUrls == old(input.bulkUrls) && input.showBulkInput == old(input.showBulkInput)
  {
    var added := input.AddSingle();
    if added.Some? {
      page.AddUrls(added.value, ids, stamps);
      NewEntriesAt(added.value, ids, stamps, 0);
    }
  }
}
