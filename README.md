# Workday career flow dashboard: a verified model of its state logic

The dashboard is a single React page. Its UI is a placeholder for a browser
extension that would automate job applications on Workday. A small part of the
page is stateful logic that follows clear rules, and this project models that part
in Dafny and proves its properties:

- **The job-URL queue** of the page (`queue.dfy`, `index_page.dfy`). Entries have
  an id, a URL, a title, a status and an `addedAt` time. You can append a batch of
  new pending entries, remove entries by id with an order-preserving filter, or
  clear the queue.
- **The simulated flow progress** (`flow.dfy`, `index_page.dfy`). Start sets the
  flow running at step 0 and schedules an interval. Each firing of an interval
  does one of two things:
  - it advances the step by one;
  - once the step is 3, it cancels itself and resets the flow to not running,
    step 0.
- **URL ingestion** in the URL panel (`text.dfy`, `bulk_url_manager.dfy`):
  - ECMAScript `String.prototype.trim`, which strips the WhiteSpace and
    LineTerminator code points of ECMA-262 from both ends;
  - `split` on one character;
  - the bulk pipeline `split("\n").map(trim).filter(nonEmpty)`;
  - the guarded single and bulk handlers that call the page's `onAddUrls`.
- **The flow card** (`workday_flow_card.dfy`):
  - its table of four steps;
  - the completed/current/idle indicator of each step;
  - the connectors between steps;
  - the start button's `disabled` guard.
- **The candidate profile form** (`candidate_config.dfy`): a six-field record
  edited one field at a time, a password-visibility switch, and a save that hands
  the record to the page.

The page's state lives in the class `IndexPage.Dashboard`. Its React `setState`
calls are field assignments, and the interval callback is an explicit `Tick`
method. `Dashboard.Valid` is the page invariant:
- exactly one interval while running and none otherwise;
- step 0 when idle;
- the step within 0..3;
- distinct ids in the queue;
- every entry pending.

The form and the URL panel are the classes `CandidateConfig.CandidateForm` and
`BulkUrlManager.UrlInput`. Each handler of the URL panel returns the argument of
the `onAddUrls` call it makes (`Some(batch)`), or `None` when it makes no call.

`crypto.randomUUID()` and `new Date()` are not modelled as code. Their values are
parameters of `Dashboard.AddUrls`: one id and one millisecond timestamp per URL.
The uuid generator is assumed to give ids that are distinct from each other and
from the ids already queued (`Queue.FreshIds`). That assumption is a precondition
of `AddUrls`. The 1500 ms interval period is not modelled either: one firing is
one call of `Tick`, and `timers` counts the intervals still scheduled.

`handleAddUrls` in `src/pages/Index.tsx` takes every string verbatim: it neither
trims nor drops blank strings. The trimming and dropping happen in the two handlers
of the URL panel. So `Dashboard.AddUrls` does not filter, and `UrlInput.AddSingle`
and `UrlInput.AddBulk` ensure that what they hand over is a `WellFormedBatch`:
non-empty, each URL non-empty and trimmed.

`handleStartWorkdayFlow` does not check whether a run is already in progress.
`Flow.DoubleStartLeavesOrphanTimer` shows what a second start during a run does: a
second interval is left behind, and it keeps advancing the step while the flow is
not running. The flow card's button is disabled while running. `Dashboard.PressStart`
models that button, and it keeps `Dashboard.Valid`.

## Model

| member | source | states |
|---|---|---|
| Text.Trim | src/components/BulkUrlManager.tsx:30-31 | `trim` gives a string no longer than its input whose first and last characters are not whitespace |
| Text.TrimEmptyIffBlank | src/components/BulkUrlManager.tsx:30 | `s.trim()` is empty, so falsy, exactly when every character of `s` is whitespace |
| Text.TrimSlices | src/components/BulkUrlManager.tsx:40 | the input is a blank prefix, then the trimmed string, then a blank suffix |
| Text.TrimUnique | src/components/BulkUrlManager.tsx:40 | blank + trimmed core + blank always trims to that core, so trim is determined by its specification |
| Text.TrimFixpoint | src/components/BulkUrlManager.tsx:40 | trim leaves a string unchanged exactly when it is already trimmed |
| Text.TrimIdempotent | src/components/BulkUrlManager.tsx:40 | trimming twice equals trimming once |
| Text.Split | src/components/BulkUrlManager.tsx:39 | `split("\n")` always yields at least one piece; the lemmas below pin it down as the inverse of join |
| Text.SplitPiecesLackSep | src/components/BulkUrlManager.tsx:39 | no piece of `split("\n")` contains a newline |
| Text.SplitCount | src/components/BulkUrlManager.tsx:39 | split yields one piece more than there are newlines (so `"".split` is one empty piece) |
| Text.JoinSplit | src/components/BulkUrlManager.tsx:39 | joining the pieces with the separator gives back the text |
| Text.SplitJoin | src/components/BulkUrlManager.tsx:39 | splitting the join of separator-free lines gives back the lines |
| Text.SplitConcat | src/components/BulkUrlManager.tsx:39 | splitting `a + "\n" + b` is splitting `a` then splitting `b` |
| Text.TrimAll | src/components/BulkUrlManager.tsx:40 | `map(trim)` yields one string per line; `Text.TrimAllAt` gives each element |
| Text.TrimAllAt | src/components/BulkUrlManager.tsx:40 | element `i` of `map(trim)` is line `i` trimmed |
| Text.TrimAllConcat | src/components/BulkUrlManager.tsx:40 | `map(trim)` distributes over concatenation |
| Text.DropEmpty | src/components/BulkUrlManager.tsx:41 | the filter yields no more strings than it got, and none of them empty |
| Text.DropEmptyMembers | src/components/BulkUrlManager.tsx:41 | a string is kept by the filter exactly when it is in the input and non-empty |
| Text.DropEmptyConcat | src/components/BulkUrlManager.tsx:41 | the filter distributes over concatenation (it keeps order) |
| Text.ParseBulk | src/components/BulkUrlManager.tsx:38-41 | at most one URL per line, each non-empty and already trimmed |
| Text.ParseBulkMembers | src/components/BulkUrlManager.tsx:38-41 | the URLs are exactly the non-empty results of trimming some line |
| Text.ParseBulkCount | src/components/BulkUrlManager.tsx:38-41 | the number of URLs is the number of non-blank lines |
| Text.ParseBulkConcat | src/components/BulkUrlManager.tsx:38-41 | the URLs of `a + "\n" + b` are those of `a` followed by those of `b`: line order is kept |
| Text.ParseBulkOfLines | src/components/BulkUrlManager.tsx:38-41 | a text given as its lines parses to the trimmed lines, blank ones dropped |
| Text.ParseBulkLine | src/components/BulkUrlManager.tsx:38-41 | a single line parses to its trimmed form, or to nothing when it is blank |
| Text.ParseBulkUrl | src/components/BulkUrlManager.tsx:38-41 | one URL between blank padding parses to exactly that URL |
| Text.ParseBulkExample | src/components/BulkUrlManager.tsx:38-41 | a URL line, an empty line, a padded URL and a final newline yield the two URLs in order |
| Text.ParseBulkTrailingNewline | src/components/BulkUrlManager.tsx:38-41 | an extra newline at the end adds no URL |
| Text.ParseBulkLeadingNewline | src/components/BulkUrlManager.tsx:38-41 | an extra newline at the start adds no URL |
| Queue.NewEntries | src/pages/Index.tsx:50-56 | the mapped batch has one entry per URL; `Queue.NewEntriesAt` gives each entry's fields |
| Queue.NewEntriesAt | src/pages/Index.tsx:50-56 | entry `i` of the mapped batch is built from URL `i`, id `i` and time `i` |
| Queue.AddKeepsAllPending | src/pages/Index.tsx:50-57 | appending a batch never creates an entry with a status other than pending |
| Queue.AddKeepsUnique | src/pages/Index.tsx:50-57 | appending a batch with fresh ids keeps all ids distinct |
| Queue.RemoveById | src/pages/Index.tsx:61 | the filter never lengthens the queue; the lemmas below give exactly which entries it keeps and in what order |
| Queue.RemoveByIdMembers | src/pages/Index.tsx:60-62 | an entry survives removal exactly when it was queued and its id differs |
| Queue.RemoveByIdConcat | src/pages/Index.tsx:60-62 | removal distributes over concatenation, so relative order is kept |
| Queue.RemoveAbsent | src/pages/Index.tsx:60-62 | removing an id no entry has leaves the queue unchanged |
| Queue.RemovePresentUnique | src/pages/Index.tsx:60-62 | with unique ids, removing entry `k`'s id drops exactly that entry, and the length falls by one |
| Queue.RemoveKeepsUnique | src/pages/Index.tsx:60-62 | removal keeps ids distinct |
| Queue.RemoveKeepsAllPending | src/pages/Index.tsx:60-62 | removal keeps every entry pending |
| Queue.RemoveIdempotent | src/pages/Index.tsx:60-62 | removing an id twice equals removing it once |
| Flow.Start | src/pages/Index.tsx:32-37 | start: running, step 0, one more interval; an idle settled flow stays settled |
| Flow.Tick | src/pages/Index.tsx:38-45 | a tick keeps the step in 0..3 and keeps a settled flow settled; a live interval in a settled flow means running |
| Flow.RunSettled | src/pages/Index.tsx:37-46 | any number of ticks keeps a settled flow settled |
| Flow.StartThenTicks | src/pages/Index.tsx:37-46 | from idle, start then three ticks give step 3 and running; the fourth tick gives step 0, not running, no interval |
| Flow.StartRunsToIdle | src/pages/Index.tsx:37-46 | any number of ticks beyond the fourth leaves the flow idle |
| Flow.RunAfter | src/pages/Index.tsx:37-46 | `m` ticks followed by `k` ticks equal `m + k` ticks |
| Flow.DoubleStartLeavesOrphanTimer | src/pages/Index.tsx:32-47 | a second unguarded start leaves an interval that advances the step while not running |
| WorkdayFlowCard.StepsTable | src/components/WorkdayFlowCard.tsx:14-19 | four steps, one per flow step value, with pairwise distinct labels (their keys) |
| WorkdayFlowCard.IndicatorOf | src/components/WorkdayFlowCard.tsx:46-64 | a step shows completed iff `index < currentStep`, current iff `index == currentStep && isRunning`, idle otherwise |
| WorkdayFlowCard.Indicators | src/components/WorkdayFlowCard.tsx:44-47 | the card derives one indicator per step of the table, in table order |
| WorkdayFlowCard.AtMostOneCurrent | src/components/WorkdayFlowCard.tsx:47 | at most one step is current, and none when not running |
| WorkdayFlowCard.CompletedCount | src/components/WorkdayFlowCard.tsx:44-46 | the number of completed steps is `currentStep` clamped to 0..4 |
| WorkdayFlowCard.RunningFlowIndicators | src/components/WorkdayFlowCard.tsx:44-47 | during a settled run, the steps before the current one show completed, that step is current, and the rest are idle |
| WorkdayFlowCard.Connectors | src/components/WorkdayFlowCard.tsx:78 | there are three connectors, one between each pair of consecutive steps |
| WorkdayFlowCard.ConnectorFollowsStep | src/components/WorkdayFlowCard.tsx:78-79 | connector `i` is lit exactly when step `i` is completed |
| WorkdayFlowCard.GuardedStartSettled | src/components/WorkdayFlowCard.tsx:88 | for the button predicate `StartDisabled`, start is offered iff `enabled && !isRunning`, and a start it lets through keeps the flow settled with a single interval |
| CandidateConfig.With | src/components/CandidateConfig.tsx:55-116 | a field edit sets that field and leaves the other five unchanged |
| CandidateConfig.Extensional | src/components/CandidateConfig.tsx:9-16 | a record is determined by its six fields |
| CandidateConfig.WithDetermined | src/components/CandidateConfig.tsx:55-116 | any record with `v` in field `f` and the other five fields of `d` is `With(d, f, v)`, so With's contract specifies it completely |
| CandidateConfig.WithSame | src/components/CandidateConfig.tsx:55-116 | writing a field's own value back changes nothing |
| CandidateConfig.WithTwice | src/components/CandidateConfig.tsx:55-116 | the last edit of a field wins |
| CandidateConfig.WithCommutes | src/components/CandidateConfig.tsx:55-116 | edits of different fields commute |
| CandidateConfig.CandidateForm.constructor | src/components/CandidateConfig.tsx:24-25 | the form starts as the record it is given, with the password hidden |
| CandidateConfig.CandidateForm.Edit | src/components/CandidateConfig.tsx:55-116 | the form record becomes the old one with just that field replaced; visibility unchanged |
| CandidateConfig.CandidateForm.Save | src/components/CandidateConfig.tsx:27-30 | save hands over the current record unchanged |
| CandidateConfig.CandidateForm.TogglePassword | src/components/CandidateConfig.tsx:94 | the toggle negates `showPassword` and keeps the record |
| CandidateConfig.CandidateForm.InputType | src/components/CandidateConfig.tsx:87 | the current input type is text exactly when the password is shown |
| BulkUrlManager.UrlInput.constructor | src/components/BulkUrlManager.tsx:25-27 | both inputs start empty and the bulk area hidden |
| BulkUrlManager.UrlInput.SetSingleUrl | src/components/BulkUrlManager.tsx:126 | typing sets the single-URL field only |
| BulkUrlManager.UrlInput.SetBulkUrls | src/components/BulkUrlManager.tsx:156 | typing sets the bulk text only |
| BulkUrlManager.UrlInput.ToggleBulkInput | src/components/BulkUrlManager.tsx:138 | the toggle negates `showBulkInput` and keeps both texts |
| BulkUrlManager.ToggleTwice | src/components/BulkUrlManager.tsx:138 | toggling twice restores the bulk area's visibility |
| BulkUrlManager.UrlInput.AddSingle | src/components/BulkUrlManager.tsx:29-35 | non-blank input hands over `[trim(input)]` and clears the field; blank input hands over nothing and keeps the field |
| BulkUrlManager.UrlInput.AddBulk | src/components/BulkUrlManager.tsx:37-49 | a non-empty parse is handed over in one call, then the text is emptied and the area hidden; an empty parse hands over nothing and changes nothing |
| BulkUrlManager.StatusBadgeDistinct | src/components/BulkUrlManager.tsx:74-82 | for the badge map `StatusBadge`, every status has a badge, and two statuses share a badge only if they are equal |
| BulkUrlManager.ClearAllVisibility | src/components/BulkUrlManager.tsx:109 | the guard `ClearAllVisible` offers Clear-All exactly for a non-empty queue: adding a non-empty batch shows it, an empty queue hides it, removal never shows it |
| IndexPage.Dashboard.constructor | src/pages/Index.tsx:19-30 | initial state: flow enabled, not running, step 0, no interval, empty queue, all-empty candidate record |
| IndexPage.Dashboard.AddUrls | src/pages/Index.tsx:49-58 | the queue becomes the old queue followed by one pending entry per URL, and grows by exactly that many with the old prefix intact; unique ids and all-pending each survive on their own, given fresh ids |
| IndexPage.Dashboard.RemoveUrl | src/pages/Index.tsx:60-62 | the queue becomes the order-preserving filter of entries with another id; whatever of the page invariant held before still holds |
| IndexPage.Dashboard.ClearAll | src/pages/Index.tsx:64-66 | the queue becomes empty, which hides Clear-All and makes the queue facts hold outright |
| IndexPage.Dashboard.StartWorkdayFlow | src/pages/Index.tsx:32-37 | running, step 0, one more interval; nothing else changes |
| IndexPage.Dashboard.Tick | src/pages/Index.tsx:38-45 | the flow moves as `Flow.Tick` says, and the page invariant is kept |
| IndexPage.Dashboard.PressStart | src/components/WorkdayFlowCard.tsx:86-88 | a disabled button changes nothing; an enabled one starts the flow; either way the page invariant is kept |
| IndexPage.Dashboard.SetWorkdayEnabled | src/pages/Index.tsx:124 | the switch sets `workdayEnabled` only |
| IndexPage.Dashboard.SaveCandidate | src/pages/Index.tsx:142 | the saved record replaces the candidate record as a whole |
| IndexPage.AddBulkToQueue | src/components/BulkUrlManager.tsx:37-49 | the bulk handler wired to handleAddUrls: the queue grows by one pending entry per non-blank line, the parsed URLs in order, and keeps the page invariant; the area is then emptied and hidden, an all-blank text changes nothing, and the single field, the switch and the candidate record are untouched |
| IndexPage.AddSingleToQueue | src/components/BulkUrlManager.tsx:29-35 | the single handler wired to handleAddUrls: a non-blank field appends one pending entry holding the trimmed URL and is cleared, a blank one changes nothing; the bulk area, the switch and the candidate record are untouched |
| IndexPage.WholeRun | src/pages/Index.tsx:32-47 | from the initial page, start and four firings return the flow to idle with the invariant intact |

## Left out

- JSX rendering, CSS class strings other than the status badges, framer-motion animation and icons (`getStatusIcon`): presentation only.
- `toast` notifications and the `<Toaster>`: UI side effects with no state.
- `handlePasteFromClipboard`: an asynchronous browser clipboard read, which is foreign I/O.
- `extractDomain`: it depends on the WHATWG URL parser, which is not visible here.
- The external-link button's `window.open`: browser I/O.
- `crypto.randomUUID()` and `new Date()`: modelled as per-URL parameter values, with id freshness as an assumption (`Queue.FreshIds`).
- The 1500 ms interval timing: only the discrete firings are modelled, and their interleaving with other events is chosen by the caller of `Tick`.
- The mock statistics, `src/components/StatsCard.tsx` and `src/components/Header.tsx`: static presentation with no logic.
- Each `remove` button of the queue list: it calls `onRemoveUrl` with the entry's id. That call is `Dashboard.RemoveUrl`; the button itself is rendering.
- Text.Trim: characters are Unicode scalar values, not UTF-16 code units. A surrogate pair is one character here, which makes no difference to `trim`, because no whitespace code point lies outside the Basic Multilingual Plane.
- Dashboard.AddUrls: `addedAt` is a millisecond number rather than a `Date` object.
- Dashboard.AddUrls: requires fresh ids.
- React batching and re-rendering are not modelled: each handler runs to completion against the latest state, as React's functional updates do.
