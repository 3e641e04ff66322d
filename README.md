# PRBar in Dafny

PRBar is a macOS menu-bar app that lists the GitHub pull requests a user authored.
It shows each one's review, workflow-run and check-run status. This project models
the app's core in Dafny and proves properties of that model.

- **Search** (`PRService`):
  - The search query strings are built from the settings and the popover's quick scope.
  - Each query is paged through with a conditional request on page 1.
  - The results of all queries are merged: newest per pull request, newest first, cut to the limit.
  - It also covers the review-state summary and the field rules of the detail and metadata fetches.
- **Status enrichment** (`ActionsService`):
  - Workflow runs are filtered to the head commit.
  - The workflow and check states are summarised.
  - The `runs:`/`checks:` ETags are threaded through.
  - Jobs are loaded for the two latest runs.
- **The HTTP client** (`GitHubClient`):
  - The per-endpoint call counters.
  - The rate-limit record read from every response.
  - The order in which a response becomes a value, a "not modified" marker (HTTP 304, section 15.4.5 of RFC 9110) or an error.
  - `If-None-Match` is sent exactly when an ETag is stored (section 13.1.2 of RFC 9110).
- **The coalescing refresh scheduler** (`RefreshScheduler`): an event system over `inFlight`, `pending`, the registered actions and the timer.
- **The 45-second details cache** and the control flow of `PRDetailsViewModel.load`.
- **The view models' rules** (`AppContainer`, `MainViewModel`, `MonitorStore`, `PRSelectionState`):
  - The adaptive refresh interval.
  - The ETag and loading-set mutators.
  - Scope filtering and quick-scope normalisation.
  - Selection, and the failure-tolerant enrichment fold of `refreshAll`.
  - The job-loading guard.
  - The duplicate-free pin list.
- **The views' pure rules:**
  - Repository allowlist parsing.
  - The popover's scope-key round trip and draft filter.
  - The three status-to-symbol classifiers.

Modelling conventions:

- **The network is an oracle.** Each service receives, as a function, what `GitHubClient.get` answers for a request. That answer is a decoded body or none, plus an optional ETag, or an `AppError`.
- **Task groups in completion order.** A task group is a fold over its tasks in the order they complete. That order is an input permutation: for `fetchPRs`, and for the detail group of `refreshAll`, which afterwards sorts what arrived newest first. The first task to fail ends the group with its error. `async let` pairs are evaluated in order.
- **Integer time.** Dates are integer seconds, and the clock of the details cache is an explicit `now`.
- **Unspecified iteration order.** The iteration order of a Swift `Dictionary` or `Set` is not specified. Where it matters, that order is a parameter:
  - the scheduler's actions;
  - the selected organisations.
- **Strings.** Foundation's string operations are modelled for ASCII in module `Text`: case folding, trimming, `split` dropping empty pieces, `hasPrefix`/`contains`, and `Int` interpolation and parsing.
- **Stateful objects stay objects.** `AppContainer`, `MonitorStore`, `PRSelectionState`, `RefreshScheduler`, `APIMetricsTracker`, `GitHubClient`, `PRDetailsCache`, `PRDetailsViewModel`, `MainViewModel` and the allowlist editor are classes. Each method states its whole new state against a specification function.

Where the app's documented intent and its code differ, the model follows the code:

- A body-less 304 on page 1 of a search ends that query with no results. The previous list is not kept for it.
- Only the first matching workflow run decides the workflow state.
- The ETag of a 304 response is stored like any other.
- A refresh requested during a pass never gets its follow-up pass (see Findings).

## Model

| member | source | states |
|---|---|---|
| Models.ActionStateFromRaw | PRBar/Models/Models.swift:119-123 | exactly the four raw strings `success`, `failure`, `in_progress`, `neutral` name a state |
| Models.RawValue | PRBar/Models/Models.swift:119-123 | reading a state's raw value back gives the same state |
| Models.SfSymbolInjective | PRBar/Models/Models.swift:125-132 | the four states are drawn with four different symbols |
| Models.SfSymbol | PRBar/Models/Models.swift:125-132 | every symbol is a filled variant (ends in `.fill`) |
| Models.FullNameSplits | PRBar/Models/Models.swift:7 | splitting `owner/name` on `/` gives back the owner and the name |
| Models.FullName | PRBar/Models/Models.swift:7 | the owner, one `/`, then the name, position by position |
| Models.StableIDInjective | PRBar/Models/Models.swift:25 | for well-formed repositories, equal stable ids mean the same repository and number |
| Client.Counted | PRBar/Services/GitHubClient.swift:24-46 | one call adds one to the total and to exactly one category, so a balanced record (total = sum of categories) stays balanced |
| Client.Classify | PRBar/Services/GitHubClient.swift:26-45 | identity, orgs and search iff the exact paths; reviews and detail calls contain `/pulls/`; a jobs call is no pulls path, contains `/actions/runs/` and ends in `/jobs`; `other` contains none of the matched fragments |
| Client.APIMetricsTracker.constructor | PRBar/Services/GitHubClient.swift:21-22 | the tracker starts with all counters at zero and balanced |
| Client.APIMetricsTracker.Record | PRBar/Services/GitHubClient.swift:24-46 | the counters become `Counted` under the path's category; balance is kept |
| Client.APIMetricsTracker.Snapshot | PRBar/Services/GitHubClient.swift:48-50 | returns the counters, which are balanced |
| Client.BuildRequest | PRBar/Services/GitHubClient.swift:74-82 | the request carries the path, the query, `Bearer <token>`, and `If-None-Match` exactly when an ETag is given |
| Client.UpdatedRateLimit | PRBar/Services/GitHubClient.swift:110-116 | limit and remaining come from their headers or default to 0; reset changes only when its header parses |
| Client.Respond | PRBar/Services/GitHubClient.swift:89-107 | 304 gives no value and its own ETag; 403 with no remaining quota is `rateLimited(reset)`; other non-2xx give `httpError(status, body)`; an undecodable 2xx gives `decodingError`; a decoded 2xx gives the value and ETag |
| Client.GitHubClient.constructor | PRBar/Services/GitHubClient.swift:53-61 | a fresh client has an empty rate-limit record and zero counters |
| Client.GitHubClient.Get | PRBar/Services/GitHubClient.swift:63-108 | the call is counted before anything can fail; transport failures leave the rate limit alone; every HTTP response updates the rate limit before `Respond` decides |
| Client.NotModifiedIsNotAnError | PRBar/Services/GitHubClient.swift:87-91 | a 304 is never an error, whatever the quota |
| Client.ForbiddenClassification | PRBar/Services/GitHubClient.swift:87-100 | a 403 is `rateLimited` exactly when its own headers report zero remaining, otherwise `httpError(403, …)` |
| Actions.ETagKeysDistinct | PRBar/Services/ActionsService.swift:96-97 | a runs key never equals a checks key, and each key determines repository and number |
| Actions.CheckRef | PRBar/Services/ActionsService.swift:25 | the check-runs ref is the head SHA, or `HEAD` when it is empty |
| Actions.RunsCallClassified | PRBar/Services/ActionsService.swift:15 | the runs call of a plainly named repository is counted as a workflow-runs call |
| Actions.ChecksCallClassified | PRBar/Services/ActionsService.swift:25 | the check-runs call of a plainly named repository is counted as a checks call |
| Actions.JobsCallClassified | PRBar/Services/ActionsService.swift:62 | the jobs call of a plainly named repository is counted as a jobs call |
| Actions.RunsOfRepositoryNamedPullsCountAsDetail | PRBar/Services/GitHubClient.swift:35-40 | a repository called `pulls` has its runs call counted as a pull-request detail call |
| Actions.RunsForPR | PRBar/Services/ActionsService.swift:38-43 | exactly the runs of the head SHA, or all runs when the SHA is empty |
| Actions.RunsForPRAppend | PRBar/Services/ActionsService.swift:42 | the SHA filter keeps run order |
| Actions.WorkflowState | PRBar/Services/ActionsService.swift:83-87 | `unknown` without a run, `in_progress` until completed, then the conclusion or `neutral` |
| Actions.WorkflowStateIgnoresLaterRuns | PRBar/Services/ActionsService.swift:48 | only the first run decides the state |
| Actions.AnyUnfinished | PRBar/Services/ActionsService.swift:90 | true iff some check is not completed |
| Actions.AnyFailed | PRBar/Services/ActionsService.swift:91 | true iff some check concluded failure, timed out or cancelled |
| Actions.AnySucceeded | PRBar/Services/ActionsService.swift:92 | true iff some check concluded success |
| Actions.OverallCheckState | PRBar/Services/ActionsService.swift:89-94 | unfinished beats failure, failure beats success, otherwise neutral (also for no checks), each as an iff |
| Actions.CheckStateIsActionState | PRBar/Services/ActionsService.swift:89-94 | the check state is always a raw `ActionState` value |
| Actions.ThreadETags | PRBar/Services/ActionsService.swift:45-46 | the stored keys plus the runs key iff the runs response had an ETag, plus the checks key iff the checks response had one, each holding that ETag |
| Actions.ThreadETagsOnlyTouchesItsKeys | PRBar/Services/ActionsService.swift:45-46 | every other key keeps its presence and value; each of the two keys changes only when its response carried an ETag |
| Actions.EnrichPRSummary | PRBar/Services/ActionsService.swift:10-56 | the runs call's error first, then the checks call's; a missing body means no runs or checks; only the two summaries change; the detail holds the SHA-filtered runs and no jobs; the ETags are threaded |
| Actions.EnrichedChangesOnlySummaries | PRBar/Services/ActionsService.swift:48-53 | a successful enrichment gives the pull request both summaries and changes nothing else, its stable id included |
| Actions.EnrichmentKeepsIdentity | PRBar/Services/ActionsService.swift:48-53 | enrichment keeps the stable id |
| Actions.Take | PRBar/Services/ActionsService.swift:60 | `prefix(n)`: the first `min(n, count)` runs |
| Actions.JobsLoaded | PRBar/Services/ActionsService.swift:58-81 | a successful load has no more entries than runs; a failure needs at least one call |
| Actions.JobsLoadedOk | PRBar/Services/ActionsService.swift:58-81 | loading succeeds exactly when every jobs call does |
| Actions.JobsLoadedKeys | PRBar/Services/ActionsService.swift:78 | a successful load has an entry for exactly the loaded runs' ids |
| Actions.JobsLoadedEntry | PRBar/Services/ActionsService.swift:67-78 | each run's entry is its call's jobs, or none for a missing body |
| Actions.JobsLoadedErr | PRBar/Services/ActionsService.swift:60-66 | a failed load carries the first failing call's error; every earlier call succeeded |
| Actions.LoadJobs | PRBar/Services/ActionsService.swift:58-81 | the loop's result is `JobsLoaded` over at most the first two runs |
| Search.StateClause | PRBar/Services/PRService.swift:35-42 | `includeClosed` suppresses the state filter; otherwise `state:open` iff `openOnly` |
| Search.NonEmptyParts | PRBar/Services/PRService.swift:44 | the kept parts are all non-empty |
| Search.NonEmptyPartsAppend | PRBar/Services/PRService.swift:44 | filtering a concatenation filters each side |
| Search.BaseQuery | PRBar/Services/PRService.swift:44 | `is:pr author:<login>`, followed by ` state:open` exactly when there is a clause |
| Search.TrimmedAllowlist | PRBar/Services/PRService.swift:229 | trimmed entries, none blank, no more than given |
| Search.TrimmedAllowlistKeeps | PRBar/Services/PRService.swift:229 | every non-blank entry is kept, trimmed |
| Search.TrimmedAllowlistOnly | PRBar/Services/PRService.swift:229 | every kept entry is a trimmed input entry |
| Search.SearchUnits | PRBar/Services/PRService.swift:228-247 | a non-blank allowlist gives `repo:` units; otherwise `.all` gives `""` iff personal and `org:o` exactly for selected orgs when enabled; `.personal` none; `.organization(o)` just `org:o` |
| Search.Queries | PRBar/Services/PRService.swift:47 | `[base]` without units, else `base + " " + unit` per unit; always at least one |
| Search.QueriesAreAuthored | PRBar/Services/PRService.swift:44-47 | every query starts with `is:pr author:<login>` |
| Search.ClosedIncludedMeansNoStateFilter | PRBar/Services/PRService.swift:35-47 | with `includeClosed` the base is the author filter alone |
| Search.DefaultSettingsSearch | PRBar/Models/Models.swift:81-103 | default settings with the all scope search `is:pr author:<login> state:open ` (trailing space from the empty personal unit) |
| Search.ParseRepo | PRBar/Services/PRService.swift:299-303 | some iff at least two non-empty pieces; then the last two are owner and name |
| Search.ParseRepoOfRepositoryURL | PRBar/Services/PRService.swift:299-303 | a repository URL ending in `owner/name` parses back to that repository |
| Search.ToPR | PRBar/Services/PRService.swift:280-297 | a hit converts iff its repository URL parses |
| Search.ToPRFromRepositoryURL | PRBar/Services/PRService.swift:280-297 | the converted pull request has the hit's id, number and time, the parsed repository, is no draft and has no head or status data |
| Search.MapItems | PRBar/Services/PRService.swift:218 | `compactMap` yields no more than the items |
| Search.MapItemsSound | PRBar/Services/PRService.swift:218 | every result comes from an item, every convertible item is kept |
| Search.CollectedSnoc | PRBar/Services/PRService.swift:218-219 | one more page appends its converted items to what was collected |
| Search.FirstPageTagged | PRBar/Services/PRService.swift:216 | only page 1 records its ETag, under its page key |
| Search.FetchPRsForQuery | PRBar/Services/PRService.swift:191-226 | the loop sends exactly the requests of `PagingFrom` from nothing sent and returns its outcome |
| Search.PagingFromEndsAsSent | PRBar/Services/PRService.swift:199-223 | from any state reached by full pages, paging sends a run numbered from 1, sized `min(100, limit - collected)`, only page 1 offering the stored ETag, paging on only after full pages; the outcome is the last page's error or the collected items and page-1 ETag; within `limit` when pages fit |
| Search.FetchedAsSent | PRBar/Services/PRService.swift:191-226 | the same, for the whole query: what `fetchPRsForQuery` sends and returns |
| Search.FittingPagesStayWithinLimit | PRBar/Services/PRService.swift:199-200 | pages that held at most what they asked for never collect more than `limit` |
| Search.QueryOutcome | PRBar/Services/PRService.swift:202-225 | an error iff the last page failed; otherwise the items of all pages |
| Search.PagingDetermined | PRBar/Services/PRService.swift:199-223 | the search answers determine the requests: two runs that page as the loop does are equal |
| Search.NotModifiedFirstPageYieldsNothing | PRBar/Services/PRService.swift:217 | a 304 on page 1 ends the query with nothing |
| Search.OverrideAll | PRBar/Services/PRService.swift:63-66 | the merged ETag map has the stored keys and every query's keys |
| Search.OverrideAllValues | PRBar/Services/PRService.swift:66 | an untouched key keeps its value; a touched key holds the last query's value |
| Search.OverrideAllUntouched | PRBar/Services/PRService.swift:66 | a key no query returned keeps its stored value |
| Search.OverrideAllLastWins | PRBar/Services/PRService.swift:66 | a key holds the value of the last query that returned it |
| Search.CompletionOrderCovers | PRBar/Services/PRService.swift:50-64 | every task of the group completes: a completion order names each task |
| Search.InCompletionOrder | PRBar/Services/PRService.swift:50-64 | the queries in the order their tasks complete |
| Search.TaskStep | PRBar/Services/PRService.swift:62-67 | one more completed task extends the gathered pull requests and ETag maps by its own |
| Search.FetchedAll | PRBar/Services/PRService.swift:50-74 | the group's outcome over its tasks in completion order: the first failing query's error, else a merge of at most `limit`, newest first |
| Search.FetchedAllNext | PRBar/Services/PRService.swift:62-67 | one more completed task either ends the group with its error or adds its pull requests and ETags |
| Search.RunTasks | PRBar/Services/PRService.swift:62-74 | the loop over completed tasks returns `FetchedAll`; each task pages as `fetchPRsForQuery`, the first error ends the fetch, success merges all results with the page-1 ETags laid over the stored ones |
| Search.RunQueries | PRBar/Services/PRService.swift:49-74 | the result is `FetchedAll` of the queries in completion order; every completed task paged as `fetchPRsForQuery`; the first error ends the fetch; on success the result is `Merge` of all results with the page-1 ETags laid over the stored ones |
| Search.FanOutDetermined | PRBar/Services/PRService.swift:49-74 | the search answers determine which tasks completed, their pages and what the group returns |
| Search.FetchPRs | PRBar/Services/PRService.swift:30-75 | `FetchedAll` of the queries built from the settings, in completion order |
| Search.InsertBySubmission | PRBar/Services/PRService.swift:172-174 | insertion keeps the reviews sorted by submission and is a permutation |
| Search.SortBySubmission | PRBar/Services/PRService.swift:172-174 | sorted by submission time (missing = distant past) and a permutation |
| Search.LastDecisive | PRBar/Services/PRService.swift:175-186 | the last decisive review (changes requested or approved, any case), or none exists |
| Search.SummarizeReviewState | PRBar/Services/PRService.swift:171-189 | the latest-submitted decisive review decides; otherwise `review requested` iff reviewers are requested, else `pending` |
| Search.LatestInOrder | PRBar/Services/PRService.swift:172-186 | the last decisive review of the sorted list is a latest decisive review of the input |
| Search.PullsPathClassified | PRBar/Services/GitHubClient.swift:33-36 | a `/pulls/` path is a reviews call when it ends in `/reviews`, else a detail call |
| Search.DetailCallsClassified | PRBar/Services/PRService.swift:100-111 | the detail and reviews calls are counted as such for any repository |
| Search.FetchPRDetail | PRBar/Services/PRService.swift:77-137 | detail error first; no body returns the input; then the reviews error; else id and summaries kept, repository from `head.repo` when present, review state summarised |
| Search.FetchPRMetadata | PRBar/Services/PRService.swift:139-169 | the body's fields, or `unknown` author, empty lists and the pull request's own head for a missing body |
| MergeResults.IndexOfID | PRBar/Services/PRService.swift:69 | the position of a group's entry, or the end when the id is new |
| MergeResults.Upsert | PRBar/Services/PRService.swift:69-70 | one grouping step keeps ids unique, adds the id, and keeps only a newest entry per id |
| MergeResults.Dedup | PRBar/Services/PRService.swift:69-70 | one entry per id, the same ids, each the newest of its id |
| MergeResults.InsertNewestFirst | PRBar/Services/PRService.swift:71 | insertion keeps the list newest first and is a permutation |
| MergeResults.SortNewestFirst | PRBar/Services/PRService.swift:71 | sorted newest first and a permutation |
| MergeResults.SortKeepsUnique | PRBar/Services/PRService.swift:71 | sorting keeps ids unique |
| MergeResults.Take | PRBar/Services/PRService.swift:73 | `prefix(limit)` |
| MergeResults.MergeBy | PRBar/Services/PRService.swift:69-73 | at most `limit`, unique ids, newest first, each the newest of its id; a missing id lost to a full list of entries at least as new |
| MergeResults.TruncationDropsOnlyOlder | PRBar/Services/PRService.swift:73 | an id cut off is older than every kept entry and the list is full |
| MergeResults.DedupOfUnique | PRBar/Services/PRService.swift:69-70 | grouping a list with unique ids changes nothing |
| MergeResults.SortOfSorted | PRBar/Services/PRService.swift:71 | sorting a sorted list changes nothing |
| MergeResults.MergeByIdempotent | PRBar/Services/PRService.swift:69-73 | merging a merged list again with the same limit changes nothing |
| MergeResults.Merge | PRBar/Services/PRService.swift:69-73 | the merge of `fetchPRs` by stable id, with the guarantees of `MergeBy` |
| MergeResults.MergeIdempotent | PRBar/Services/PRService.swift:69-73 | the merge is idempotent |
| MergeResults.NewerDuplicateWins | PRBar/Services/PRService.swift:69-70 | of two results with one id, the strictly older is never kept |
| Scheduling.ValuesInOrder | PRBar/ViewModels/RefreshScheduler.swift:42 | no more actions than keys in the order |
| Scheduling.ValuesInOrderAll | PRBar/ViewModels/RefreshScheduler.swift:42-44 | with all keys registered, the pass runs exactly their actions, position by position |
| Scheduling.PassRunsEveryAction | PRBar/ViewModels/RefreshScheduler.swift:42-44 | a pass over the dictionary order runs every registered action exactly once |
| Scheduling.Requested | PRBar/ViewModels/RefreshScheduler.swift:32-44 | in flight: only `pending` is set; idle: the pass starts and nothing else changes but the run log |
| Scheduling.FollowUpNeverRuns | PRBar/ViewModels/RefreshScheduler.swift:37-49 | ending a pass runs nothing and leaves `pending` set (the follow-up sees `inFlight`) |
| Scheduling.IntendedFollowUpRuns | PRBar/ViewModels/RefreshScheduler.swift:46-49 | with the reset done first, a coalesced request is served by exactly one follow-up pass |
| Scheduling.FinishedAgreesWithoutPending | PRBar/ViewModels/RefreshScheduler.swift:37-49 | without a pending request both versions just end the pass |
| Scheduling.Finished | PRBar/ViewModels/RefreshScheduler.swift:37-49 | ending a pass as written clears `inFlight` and keeps the actions and the timer |
| Scheduling.FinishedAsIntended | PRBar/ViewModels/RefreshScheduler.swift:46-49 | the corrected end clears `pending`, stays in flight iff a request was pending, keeps actions and timer |
| Scheduling.Apply | PRBar/ViewModels/RefreshScheduler.swift:12-49 | only registration events change the actions, only `configure` changes the timer, and the run log only grows |
| Scheduling.OnlyRequestsRunActions | PRBar/ViewModels/RefreshScheduler.swift:12-49 | only a request or tick finding the scheduler idle runs actions; other events never start a pass |
| Scheduling.PendingIsSticky | PRBar/ViewModels/RefreshScheduler.swift:32-49 | once a request is coalesced, `pending` stays set forever |
| Scheduling.StepRunsAtMostOnePass | PRBar/ViewModels/RefreshScheduler.swift:32-44 | each event adds at most one pass of actions |
| Scheduling.DisabledTimerNeverFires | PRBar/ViewModels/RefreshScheduler.swift:20-22 | after `configure(enabled: false)` ticks change nothing |
| Scheduling.TicksWithoutTimer | PRBar/ViewModels/RefreshScheduler.swift:23-29 | without a live timer ticks change nothing |
| Scheduling.RefreshScheduler.constructor | PRBar/ViewModels/RefreshScheduler.swift:7-10 | no actions, no timer, not in flight, nothing pending |
| Scheduling.RefreshScheduler.Register | PRBar/ViewModels/RefreshScheduler.swift:12-14 | insert or replace under the key |
| Scheduling.RefreshScheduler.Unregister | PRBar/ViewModels/RefreshScheduler.swift:16-18 | remove that key only |
| Scheduling.RefreshScheduler.Configure | PRBar/ViewModels/RefreshScheduler.swift:20-30 | the old timer is cancelled; a timer with the interval runs iff enabled; flags unchanged |
| Scheduling.RefreshScheduler.RequestRefresh | PRBar/ViewModels/RefreshScheduler.swift:32-44 | starts iff idle; coalesced requests only set `pending`; a started pass runs one action per registered key |
| Scheduling.RefreshScheduler.FinishPass | PRBar/ViewModels/RefreshScheduler.swift:37-49 | the pass ends, `pending` and the run log unchanged |
| Scheduling.RefreshScheduler.Tick | PRBar/ViewModels/RefreshScheduler.swift:23-29 | a live timer issues one request; a cancelled one does nothing |
| Details.Lookup | PRBar/ViewModels/PRDetailsViewModel.swift:25-31 | a hit iff an entry exists and is at most 45 seconds old (inclusive); then the stored details |
| Details.AfterGet | PRBar/ViewModels/PRDetailsViewModel.swift:26-29 | a hit leaves the store alone; a miss evicts that id only |
| Details.SetThenGet | PRBar/ViewModels/PRDetailsViewModel.swift:26-35 | a read up to 45 seconds after a set returns what was set |
| Details.ExpiredEntryIsEvicted | PRBar/ViewModels/PRDetailsViewModel.swift:26-27 | past 45 seconds the read misses and removes the entry |
| Details.GetIsRepeatable | PRBar/ViewModels/PRDetailsViewModel.swift:25-31 | reading twice at one instant is reading once |
| Details.GetLeavesOtherIdsAlone | PRBar/ViewModels/PRDetailsViewModel.swift:25-31 | a read never changes what another id reads |
| Details.PRDetailsCache.constructor | PRBar/ViewModels/PRDetailsViewModel.swift:22 | the store starts empty |
| Details.PRDetailsCache.Get | PRBar/ViewModels/PRDetailsViewModel.swift:25-31 | returns `Lookup` and leaves `AfterGet` |
| Details.PRDetailsCache.Set | PRBar/ViewModels/PRDetailsViewModel.swift:33-35 | stores `(now, details)` under that id only |
| Details.Expand | PRBar/ViewModels/PRDetailsViewModel.swift:81-100 | the details take repository and number from the summary, author and head from the metadata, and the runs with the loaded jobs |
| Details.LoadOutcome | PRBar/ViewModels/PRDetailsViewModel.swift:70-100 | missing token, then detail, metadata, enrichment and jobs errors in that order; success iff all succeed |
| Details.PRDetailsViewModel.constructor | PRBar/ViewModels/PRDetailsViewModel.swift:40-50 | no details, not loading, no error, empty cache |
| Details.PRDetailsViewModel.Load | PRBar/ViewModels/PRDetailsViewModel.swift:52-116 | no pull request clears the details only; a cache hit shows it with flags untouched; otherwise success caches the details stamped with the instant after the calls and shows them, cancellation only stops loading, other errors are recorded |
| Container.Without | PRBar/ViewModels/MonitorStore.swift:23 | `removeAll`: exactly the other elements remain |
| Container.WithoutAppend | PRBar/ViewModels/MonitorStore.swift:23 | removal keeps the order of the rest |
| Container.WithoutKeepsNoDuplicates | PRBar/ViewModels/MonitorStore.swift:22-25 | removal keeps a list duplicate-free |
| Container.MonitorStore.constructor | PRBar/ViewModels/MonitorStore.swift:11-14 | starts from the persisted list and flag |
| Container.MonitorStore.Pin | PRBar/ViewModels/MonitorStore.swift:16-20 | appends only an absent id; the id is then present; duplicate-freedom kept; idempotent |
| Container.MonitorStore.Remove | PRBar/ViewModels/MonitorStore.swift:22-25 | every occurrence removed, the rest in order; duplicate-freedom kept |
| Container.MonitorStore.SetPaused | PRBar/ViewModels/MonitorStore.swift:27-30 | sets the flag, pins unchanged |
| Container.PRSelectionState.constructor | PRBar/ViewModels/PRSelectionState.swift:5 | nothing selected |
| Container.PRSelectionState.Select | PRBar/ViewModels/PRSelectionState.swift:7-9 | the selection is the pull request's stable id, or none; only that field changes |
| Container.ScheduledIntervalBounds | PRBar/ViewModels/AppContainer.swift:52-54 | never below the base; at least 180 while 0 < remaining < 100; exactly the base otherwise |
| Container.ScheduledInterval | PRBar/ViewModels/AppContainer.swift:52-54 | never below the base; at least 180 while 0 < remaining < 100; different from the base only then, and then exactly `max(base, 180)` |
| Container.SchedulerEnabled | PRBar/ViewModels/AppContainer.swift:55 | enabled iff auto-refresh is on and not paused |
| Container.DefaultSchedulerPolicy | PRBar/Models/Models.swift:94-103 | default settings refresh every 60 seconds (180 while the quota is low) unless paused |
| Container.AppContainer.constructor | PRBar/ViewModels/AppContainer.swift:29-38 | starts from the cached state with no actions, not loading, no error |
| Container.AppContainer.ConfigureScheduler | PRBar/ViewModels/AppContainer.swift:51-57 | configures the scheduler with the adaptive interval, enabled iff auto-refresh is on and not paused |
| Container.AppContainer.SetETag | PRBar/ViewModels/AppContainer.swift:59-61 | only that key changes |
| Container.AppContainer.ReplaceETags | PRBar/ViewModels/AppContainer.swift:63-65 | the ETags become exactly the given map, nothing else changes |
| Container.AppContainer.SetLoadingJobs | PRBar/ViewModels/AppContainer.swift:67-73 | inserts or removes that id only |
| MainView.MatchesAllScope | PRBar/ViewModels/MainViewModel.swift:49-65 | true iff personal matches the login, or orgs contain the owner, or both scopes are off (case-insensitive) |
| MainView.MatchesQuickScope | PRBar/ViewModels/MainViewModel.swift:37-47 | all: the scope rule; personal: true without a user, else owner is login; organization: owner equals it ignoring case |
| MainView.NormalizedQuickScope | PRBar/ViewModels/MainViewModel.swift:275-285 | keeps an organization iff it is offered, else all; all and personal unchanged |
| MainView.NormalizedQuickScopeIdempotent | PRBar/ViewModels/MainViewModel.swift:275-285 | normalizing twice is normalizing once |
| MainView.WithIDs | PRBar/ViewModels/MainViewModel.swift:98-100 | exactly the pull requests whose id is in the set |
| MainView.WithIDsAppend | PRBar/ViewModels/MainViewModel.swift:111-114 | the filter keeps list order |
| MainView.ArrivedOutcome | PRBar/ViewModels/MainViewModel.swift:188-193 | collecting in completion order fails iff some task fails, with the first failing task's error after only successes; otherwise one result per task, in completion order |
| MainView.ArrivedStopsAtError | PRBar/ViewModels/MainViewModel.swift:193 | a failing task after only successes ends the group with its error, whatever completes later |
| MainView.SortedKeepsMembers | PRBar/ViewModels/MainViewModel.swift:194 | sorting keeps the length and the members |
| MainView.DetailGroupFails | PRBar/ViewModels/MainViewModel.swift:188-195 | the detail group fails iff fetching some pull request's detail fails |
| MainView.DetailGroupCovers | PRBar/ViewModels/MainViewModel.swift:188-195 | on success, one result per searched pull request and each one's detail is among them |
| MainView.DetailGroupOnly | PRBar/ViewModels/MainViewModel.swift:188-195 | on success, every result is the detail of some searched pull request |
| MainView.DetailGroupOutcome | PRBar/ViewModels/MainViewModel.swift:188-195 | fails iff some detail fails; otherwise newest first, as many as searched, containing exactly the details |
| MainView.DetailEach | PRBar/ViewModels/MainViewModel.swift:188-195 | the loop over completed tasks computes `DetailGroup` |
| MainView.EnrichAll | PRBar/ViewModels/MainViewModel.swift:197-210 | one result per detailed pull request |
| MainView.EnrichAllNext | PRBar/ViewModels/MainViewModel.swift:201-209 | one more pull request appends its enrichment, records its actions and merges its ETags, or appends it unchanged on failure |
| MainView.EnrichAllItem | PRBar/ViewModels/MainViewModel.swift:201-209 | item `i` is the enrichment of detailed item `i` against the ETags so far, or that item unchanged on failure |
| MainView.EnrichAllKeeps | PRBar/ViewModels/MainViewModel.swift:198-209 | no actions entry or ETag is dropped; an entry changes only under an enriched id |
| MainView.EnrichEach | PRBar/ViewModels/MainViewModel.swift:197-210 | the loop computes `EnrichAll` with `enrichPRSummary` over the refresh's runs and checks services |
| MainView.EnrichAllOnlySummaries | PRBar/ViewModels/MainViewModel.swift:201-209 | each result is its detailed pull request with at most its two summaries changed |
| MainView.EnrichAllKeepsOrder | PRBar/ViewModels/MainViewModel.swift:194-212 | enrichment keeps the newest-first order of the detailed list |
| MainView.LoadAllJobsOnlyFillsEmptyEntries | PRBar/ViewModels/MainViewModel.swift:247-262 | only selected entries that existed without jobs are attempted; entries are kept and their runs unchanged |
| MainView.LoadAllJobs | PRBar/ViewModels/MainViewModel.swift:250-262 | the pass keeps exactly the keys of the actions map |
| MainView.LoadJobsStep | PRBar/ViewModels/MainViewModel.swift:251-261 | one step keeps the keys and marks at most its own id as attempted |
| MainView.LoadJobsStepTouchesOnlyItsID | PRBar/ViewModels/MainViewModel.swift:250-261 | one step changes at most its own entry's jobs |
| MainView.AfterJobs | PRBar/ViewModels/MainViewModel.swift:250-262 | list, ETags and selection kept; every attempted id no longer loading |
| MainView.RefreshNeverLeavesLoading | PRBar/ViewModels/MainViewModel.swift:163-225 | skipped iff already loading, and then nothing changes; a refresh that starts never leaves loading set |
| MainView.RefreshFailureKeepsList | PRBar/ViewModels/MainViewModel.swift:221-223 | a failed refresh records its error and keeps the list, the actions and the selection |
| MainView.RefreshFailsOnAnyDetailError | PRBar/ViewModels/MainViewModel.swift:188-195 | after a successful search the refresh fails iff some detail fetch fails, and refreshes otherwise |
| MainView.RefreshedIsSortedDetails | PRBar/ViewModels/MainViewModel.swift:188-212 | a refreshed list is newest first, as long as the search result, and each entry is a searched pull request's detail with only its summaries changed |
| MainView.MainViewModel.constructor | PRBar/ViewModels/MainViewModel.swift:12-26 | registers the list refresh under its key, then configures the timer |
| MainView.MainViewModel.UpdateSettings | PRBar/ViewModels/MainViewModel.swift:228-234 | stores the settings with the normalized quick scope and reconfigures the timer |
| MainView.MainViewModel.ToggleAutoRefresh | PRBar/ViewModels/MainViewModel.swift:270-273 | flips pausing and reconfigures the timer for it |
| MainView.MainViewModel.ToggleSelection | PRBar/ViewModels/MainViewModel.swift:75-83 | flips membership of that id only and leaves every other container field unchanged; jobs loading starts iff it was added |
| MainView.MainViewModel.SelectedPRs | PRBar/ViewModels/MainViewModel.swift:98-100 | exactly the listed pull requests that are selected |
| MainView.MainViewModel.PinnedPRs | PRBar/ViewModels/MainViewModel.swift:111-114 | exactly the listed pull requests that are pinned |
| MainView.MainViewModel.LoadJobsFor | PRBar/ViewModels/MainViewModel.swift:251-261 | one iteration advances the container by `LoadJobsStep` |
| MainView.MainViewModel.LoadJobsForSelectedPRs | PRBar/ViewModels/MainViewModel.swift:247-264 | nothing without a usable token; otherwise the container ends as `AfterJobs` of `LoadAllJobs` over the selected pull requests |
| MainView.MainViewModel.Publish | PRBar/ViewModels/MainViewModel.swift:212-220 | publishes the fold, takes over the rate limit, reconfigures the timer, clears the error, loads jobs |
| MainView.MainViewModel.RefreshAll | PRBar/ViewModels/MainViewModel.swift:163-226 | the outcome and new state are `RefreshOf` the old state: skipped while loading; token errors recorded; search or detail errors keep list and actions (search ETags kept once it succeeded); success publishes the enrichment fold of the sorted details; it never leaves loading set |
| MainView.MainViewModel.RefreshSignedIn | PRBar/ViewModels/MainViewModel.swift:178-225 | with a usable token and a known user: the state becomes `SearchedOf` the old state; the timer is reconfigured iff the refresh succeeded |
| MainView.MainViewModel.RefreshFound | PRBar/ViewModels/MainViewModel.swift:186-220 | after a successful search: the state becomes `FoundOf` the old state over the given completion order |
| Popover.ScopeSelectionKey | PRBar/Views/PopoverView.swift:125-134 | `all`, `personal`, or an `org:` key, each as an iff with the scope's kind |
| Popover.QuickScopeFromKey | PRBar/Views/PopoverView.swift:136-143 | `all`, `personal`, `org:X` read as their scopes; any other key reads as all |
| Popover.KeyRoundTrip | PRBar/Views/PopoverView.swift:125-143 | reading back a stored key gives the stored scope |
| Popover.ScopeSelectionKeyInjective | PRBar/Views/PopoverView.swift:125-134 | different scopes have different keys |
| Popover.ShownPRs | PRBar/Views/PopoverView.swift:73 | a pull request is shown iff listed and drafts are included or it is no draft |
| Popover.ShownPRsIncludingDrafts | PRBar/Views/PopoverView.swift:73 | with drafts included everything is shown |
| Popover.ShownPRsAppend | PRBar/Views/PopoverView.swift:73 | the filter keeps list order |
| Icons.StateIcon | PRBar/Views/PRRowView.swift:36-43 | success, the three failures, the four running states, and neutral for nil and every other string |
| Icons.StateIconOfRawValue | PRBar/Views/PRRowView.swift:36-43 | each state's raw value is drawn with its own symbol |
| Icons.StateIconOfCheckState | PRBar/Views/PRRowView.swift:19 | the checks icon is the symbol of the state the overall check state names |
| Icons.FloatingIcon | PRBar/Views/FloatingPanelView.swift:106-111 | not completed: in progress; then success, failure for the three failures, neutral otherwise |
| Icons.DetailsIcon | PRBar/Views/PRDetailsPanelView.swift:103-108 | the same four cases |
| Icons.PanelIconsAgree | PRBar/Views/PRDetailsPanelView.swift:103-108 | the two panels agree on every input |
| Icons.PanelIconMatchesRowIcon | PRBar/Views/FloatingPanelView.swift:106-111 | a panel draws a run as the row draws its workflow state, unless it completed with a running-state conclusion |
| Icons.PanelAndRowDifferOnRunningConclusion | PRBar/Views/PRRowView.swift:40 | a completed run concluding `queued` is neutral in a panel but running in the row |
| Allowlist.OwnerSlashNameIsValid | PRBar/Views/RepoAllowlistTokensView.swift:58-61 | `owner/name` with slash-free non-empty parts is valid |
| Allowlist.DoubledSlashIsAccepted | PRBar/Views/RepoAllowlistTokensView.swift:58-61 | `a//b` is accepted (empty pieces are dropped) |
| Allowlist.SurroundingSlashesAreAccepted | PRBar/Views/RepoAllowlistTokensView.swift:58-61 | `/a/b/` is accepted |
| Allowlist.MissingOrExtraPiecesAreRejected | PRBar/Views/RepoAllowlistTokensView.swift:58-61 | one piece or three pieces are rejected |
| Allowlist.IsValidRepo | PRBar/Views/RepoAllowlistTokensView.swift:58-61 | exactly two non-empty pieces between slashes; a valid value contains a slash |
| Allowlist.TrimAll | PRBar/Views/RepoAllowlistTokensView.swift:49 | each piece trimmed, in place |
| Allowlist.ValidOnly | PRBar/Views/RepoAllowlistTokensView.swift:50 | exactly the valid values |
| Allowlist.Parts | PRBar/Views/RepoAllowlistTokensView.swift:47-50 | every part is valid |
| Allowlist.AddAllKeepsExisting | PRBar/Views/RepoAllowlistTokensView.swift:52-54 | existing entries stay in front, in place |
| Allowlist.AddAllMembers | PRBar/Views/RepoAllowlistTokensView.swift:52-54 | afterwards the entries are exactly the old ones and the parts |
| Allowlist.AddAllNoDuplicates | PRBar/Views/RepoAllowlistTokensView.swift:52-54 | no entry is added twice, even if repeated in the input |
| Allowlist.AddAll | PRBar/Views/RepoAllowlistTokensView.swift:52-54 | the list grows by at most the number of parts |
| Allowlist.AddInputOnlyAddsValid | PRBar/Views/RepoAllowlistTokensView.swift:46-56 | every added entry is valid |
| Allowlist.AllowlistEditor.constructor | PRBar/Views/RepoAllowlistTokensView.swift:4-5 | the bound list and an empty field |
| Allowlist.AllowlistEditor.SetInput | PRBar/Views/RepoAllowlistTokensView.swift:37 | the field holds the text, the list is unchanged |
| Allowlist.AllowlistEditor.AddInput | PRBar/Views/RepoAllowlistTokensView.swift:46-56 | the list becomes `AddAll` of the parts, the field is emptied |
| Allowlist.AllowlistEditor.Remove | PRBar/Views/RepoAllowlistTokensView.swift:21 | every occurrence of the repository goes, the rest keep order |
| Text.Trim | PRBar/Services/PRService.swift:229 | a contiguous piece of the input with only whitespace cut off either side; no leading or trailing whitespace remains; a string without any is unchanged |
| Text.Split | PRBar/Services/PRService.swift:300 | pieces are non-empty and separator-free |
| Text.SplitConcat | PRBar/Services/PRService.swift:300 | a separator splits its two sides apart |
| Text.SplitJoinWith | PRBar/Services/PRService.swift:300 | joining clean pieces and splitting gives them back |
| Text.IntToString | PRBar/Models/Models.swift:25 | decimal text of an integer |
| Text.ParseInt | PRBar/Services/GitHubClient.swift:111-112 | `Int(String)` yields only 64-bit values |
| Text.ParseIntRoundTrip | PRBar/Services/GitHubClient.swift:111-112 | parsing the decimal text of a 64-bit integer gives it back |
| Text.IntToStringInjective | PRBar/Models/Models.swift:25 | different numbers have different decimal texts |

## Left out

- Network I/O, URL building and JSON decoding: responses are inputs (status, lower-case headers, decoded body or decode failure); dates are integer seconds.
- Concurrency: task groups, `async let`, actors and the unsynchronised `rateLimit` field are sequential; a task group's completion order is an input.
- Task cancellation is an error value `Cancelled` rather than a thrown `CancellationError`, and `load`'s previous task is not cancelled.
- Timer sleeping: each wake-up of the timer task is a `Tick` event.
- Keychain, the disk cache, `saveCache`, `MonitorStore.persist`: the token is an input, and persisted values are constructor arguments.
- Error text: `AppError` is a datatype; its localized description is not modelled, so the error fields hold the error itself.
- Floating point: `refreshInterval` and `TimeInterval` are integer seconds; `TimeInterval(resetRaw)` parses as an integer.
- Unicode: case folding, trimming and splitting are ASCII; header-name lookup is case-insensitive by lower-casing names on input only.
- Unspecified orders: tie order in `sorted`, which of equally new results `max(by:)` keeps, and `Dictionary`/`Set` iteration order are not constrained; the last is a parameter.
- `fetchIdentity`, `fetchOrganizations`, `validateTokenAndLoadIdentity` and `saveToken` are not modelled.
- MainView.MainViewModel.RefreshAll: without a known user it returns `NeedsIdentity` with nothing changed; the identity load and the retry are not modelled.
- MainView.MainViewModel.RefreshAll: `apiMetrics` snapshots are not copied into the container, and `loadJobsForSelectedPRs` reuses the refresh's token instead of reading the keychain again.
- MainView.MainViewModel.ToggleSelection: the spawned `Task` loading jobs is reported as `startsJobLoad` rather than run.
- `filteredPRs`' free-text filter (locale-dependent `localizedCaseInsensitiveContains`) is not modelled; its scope part is `MatchesQuickScope`.
- `setQuickScope`, `selectPR`, `selectedPR`, `pinSelectedPRToMonitor`, `unpinFromMonitor`, `reconfigureScheduler` and the accessors are one-line delegations to modelled members and are not modelled separately.
- Actions.RunsCallClassified, Actions.ChecksCallClassified, Actions.JobsCallClassified: proved only for repositories not named `pulls` or `actions` and head SHAs that are one path piece; Actions.RunsOfRepositoryNamedPullsCountAsDetail shows the classification differs otherwise.
- Search.FetchedAsSent: the `limit` bound holds only when every page returns at most the items it asked for, which the API does not promise.
- MainView.MainViewModel.RefreshAll: the search step is a function parameter standing for the whole of `fetchPRs` (its answer for the login, settings and stored ETags); `fetchPRs` itself is `Search.FetchPRs`.
- Job and step decoding (order of jobs and steps, missing steps as `[]`) are inside the decoded body and not modelled.
- SwiftUI layout, `SettingsView`, `MonitorWindowView`, `AppDelegate` and the display truncations are not part of this model.

## Findings

| source | as written | input that shows it | evidently intended | confidence | as-written member | corrected member |
|---|---|---|---|---|---|---|
| PRBar/ViewModels/RefreshScheduler.swift:37-49 | the follow-up `requestRefresh()` runs before the `defer` clears `inFlight`, so it only sets `pending` again and returns | a request arriving while a pass is in flight: the pass ends with `pending` still set and no second pass runs, and `pending` stays set for good | a coalesced request is served by one follow-up pass once the current pass is over | not executed | Scheduling.FollowUpNeverRuns | Scheduling.IntendedFollowUpRuns |

`Scheduling.RefreshScheduler` keeps the behaviour as written. After the first
coalesced request, `pending` is read at the end of every later pass
(RefreshScheduler.swift:46) and cleared, but the nested `requestRefresh()` still finds
`inFlight` set and sets `pending` again. So `pending` stays set for good
(`Scheduling.PendingIsSticky`) and no pass ever runs a follow-up
(`Scheduling.FollowUpNeverRuns`): a coalesced request is served only by the next
timer tick or manual request. `Scheduling.FinishedAsIntended`
defines the corrected end of a pass, and `Scheduling.FinishedAgreesWithoutPending`
shows that the two versions coincide whenever nothing was coalesced.
