/**
 * `MainViewModel`: which pull requests a scope shows, the selection, and the refresh
 * that searches, details, enriches and then loads jobs for the selected pull requests.
 *
 * The services are given as functions from their inputs to their answers: the
 * search of `fetchPRs`, the pull request and reviews endpoints of `fetchPRDetail`,
 * the runs and check-runs endpoints of `enrichPRSummary`, and the jobs endpoint.
 * The order in which the tasks of the detail group finish is a parameter too.
 */
module MainView {
  import opened Wrappers
  import opened Text
  import opened Errors
  import opened Models
  import opened Container
  import Actions
  import opened Scheduling
  import Client
  import Search
  import MergeResults

  // ---------------------------------------------------------------- scopes

  /** `matchesAllScope`, with ASCII case folding. */
  function MatchesAllScope(scope: ScopeSettings, user: Option<Identity>, pr: PullRequest): (b: bool)
    ensures b <==>
      (scope.personalEnabled && user.Some? && SameIgnoringCase(pr.repo.owner, user.value.login)) ||
      (scope.organizationsEnabled && exists o :: o in scope.selectedOrgs && SameIgnoringCase(o, pr.repo.owner)) ||
      (!scope.personalEnabled && !scope.organizationsEnabled)
  {
    var owner := Lower(pr.repo.owner);
    var selectedOrgs := set o | o in scope.selectedOrgs :: Lower(o);
    if scope.personalEnabled && user.Some? && owner == Lower(user.value.login) then true
    else if scope.organizationsEnabled && owner in selectedOrgs then true
    else if !scope.personalEnabled && !scope.organizationsEnabled then true
    else false
  }

  /** `matchesQuickScope`. */
  function MatchesQuickScope(settings: AppSettings, user: Option<Identity>, pr: PullRequest): (b: bool)
    ensures settings.quickScope.All? ==> b == MatchesAllScope(settings.scope, user, pr)
    ensures settings.quickScope.Personal? ==>
              (b <==> user.None? || SameIgnoringCase(pr.repo.owner, user.value.login))
    ensures settings.quickScope.Organization? ==> (b <==> SameIgnoringCase(pr.repo.owner, settings.quickScope.org))
  {
    match settings.quickScope
    case All => MatchesAllScope(settings.scope, user, pr)
    case Personal => user.None? || Lower(pr.repo.owner) == Lower(user.value.login)
    case Organization(org) => SameIgnoringCase(pr.repo.owner, org)
  }

  predicate OrgAvailable(orgs: seq<Identity>, org: string)
  {
    exists i :: 0 <= i < |orgs| && SameIgnoringCase(orgs[i].login, org)
  }

  /** `normalizedQuickScope`: an organization nobody offers falls back to all. */
  function NormalizedQuickScope(scope: ScopeSelection, orgs: seq<Identity>): (r: ScopeSelection)
    ensures scope.All? || scope.Personal? ==> r == scope
    ensures scope.Organization? ==> (r == scope <==> OrgAvailable(orgs, scope.org))
    ensures scope.Organization? && !OrgAvailable(orgs, scope.org) ==> r == All
  {
    match scope
    case Organization(org) => if OrgAvailable(orgs, org) then scope else All
    case _ => scope
  }

  /** Normalizing twice is normalizing once. */
  lemma NormalizedQuickScopeIdempotent(scope: ScopeSelection, orgs: seq<Identity>)
    ensures NormalizedQuickScope(NormalizedQuickScope(scope, orgs), orgs) == NormalizedQuickScope(scope, orgs)
  {
  }

  // ---------------------------------------------------------------- selection

  /** The pull requests whose stable id is in `ids`, in list order (`selectedPRs`, `pinnedPRs`). */
  function WithIDs(prs: seq<PullRequest>, ids: set<string>): (r: seq<PullRequest>)
    ensures |r| <= |prs|
    ensures forall pr :: pr in r <==> pr in prs && StableID(pr) in ids
  {
    if prs == [] then []
    else (if StableID(prs[0]) in ids then [prs[0]] else []) + WithIDs(prs[1..], ids)
  }

  /** The filter keeps list order: it distributes over concatenation. */
  lemma {:induction false} WithIDsAppend(a: seq<PullRequest>, b: seq<PullRequest>, ids: set<string>)
    ensures WithIDs(a + b, ids) == WithIDs(a, ids) + WithIDs(b, ids)
    decreases |a|
  {
    if a == [] {
      assert a + b == b;
    } else {
      assert (a + b)[0] == a[0];
      assert (a + b)[1..] == a[1..] + b;
      WithIDsAppend(a[1..], b, ids);
    }
  }

  function IDSet(ids: seq<string>): set<string>
  {
    set i | 0 <= i < |ids| :: ids[i]
  }

  // ---------------------------------------------------------------- the detail fan-out

  /** The detail and reviews calls of `fetchPRDetail`, answered per pull request. */
  type DetailOracle = PullRequest -> Result<Client.GitHubResponse<Search.PullDetail>, AppError>
  type ReviewsOracle = PullRequest -> Result<Client.GitHubResponse<seq<Search.Review>>, AppError>

  /** One task of the detail group of `refreshAll`, given the pull request it details. */
  type Detailer = PullRequest -> Result<PullRequest, AppError>

  /** The task the refresh runs: `fetchPRDetail` of one pull request. */
  function Details(detailAPI: DetailOracle, reviewsAPI: ReviewsOracle): Detailer
  {
    pr => Search.FetchPRDetail(pr, detailAPI(pr), reviewsAPI(pr))
  }

  /**
   * Collecting the detail group's results as they arrive, the task of `prs[order[k]]` being
   * the `k`-th to finish: the details in arrival order, or the first error to arrive.
   */
  function Arrived(prs: seq<PullRequest>, order: seq<nat>, detail: Detailer)
    : Result<seq<PullRequest>, AppError>
    requires forall k :: 0 <= k < |order| ==> order[k] < |prs|
  {
    if order == [] then Ok([])
    else
      var n := |order| - 1;
      var before := Arrived(prs, order[..n], detail);
      if before.Err? then before
      else
        var d := detail(prs[order[n]]);
        if d.Err? then Err(d.error) else Ok(before.value + [d.value])
  }

  /** The whole detail group: what arrived, sorted newest first, or the first error. */
  function DetailGroup(prs: seq<PullRequest>, order: seq<nat>, detail: Detailer)
    : Result<seq<PullRequest>, AppError>
    requires forall k :: 0 <= k < |order| ==> order[k] < |prs|
  {
    var arrived := Arrived(prs, order, detail);
    if arrived.Err? then Err(arrived.error) else Ok(MergeResults.SortNewestFirst(arrived.value))
  }

  /**
   * The group fails exactly when a task that arrives fails, with the error of the
   * first to arrive, every task before it having succeeded; otherwise it holds each
   * task's pull request in arrival order.
   */
  lemma {:induction false} ArrivedOutcome(prs: seq<PullRequest>, order: seq<nat>, detail: Detailer)
    requires forall k :: 0 <= k < |order| ==> order[k] < |prs|
    ensures var r := Arrived(prs, order, detail);
      (r.Err? <==> exists k :: 0 <= k < |order| && detail(prs[order[k]]).Err?) &&
      (r.Err? ==> exists k :: 0 <= k < |order| && detail(prs[order[k]]) == Err(r.error) &&
                    forall j :: 0 <= j < k ==> detail(prs[order[j]]).Ok?) &&
      (r.Ok? ==> |r.value| == |order| &&
                 forall k :: 0 <= k < |order| ==> detail(prs[order[k]]) == Ok(r.value[k]))
    decreases |order|
  {
    if order != [] {
      var n := |order| - 1;
      var front := order[..n];
      ArrivedOutcome(prs, front, detail);
      assert forall k :: 0 <= k < n ==> front[k] == order[k];
    }
  }

  /** The group fails exactly when some pull request's detail fails. */
  lemma DetailGroupFails(prs: seq<PullRequest>, order: seq<nat>, detail: Detailer)
    requires Search.IsCompletionOrder(order, |prs|)
    ensures DetailGroup(prs, order, detail).Err? <==>
            exists i :: 0 <= i < |prs| && detail(prs[i]).Err?
  {
    ArrivedOutcome(prs, order, detail);
    if Arrived(prs, order, detail).Err? {
      var k :| 0 <= k < |order| && detail(prs[order[k]]).Err?;
      assert detail(prs[order[k]]).Err?;
    } else {
      Search.CompletionOrderCovers(order, |prs|);
      forall i | 0 <= i < |prs|
        ensures detail(prs[i]).Ok?
      {
        assert i in order;
        var k :| 0 <= k < |order| && order[k] == i;
        assert detail(prs[order[k]]).Ok?;
      }
    }
  }

  /** Sorting keeps the members and the length of what arrived. */
  lemma SortedKeepsMembers(s: seq<PullRequest>)
    ensures |MergeResults.SortNewestFirst(s)| == |s|
    ensures forall q :: q in MergeResults.SortNewestFirst(s) <==> q in s
  {
    var sorted := MergeResults.SortNewestFirst(s);
    assert forall q :: q in sorted <==> q in multiset(sorted);
    assert forall q :: q in s <==> q in multiset(s);
    assert |sorted| == |multiset(sorted)| == |multiset(s)| == |s|;
  }

  /** A successful group holds one detailed pull request per pull request searched. */
  lemma DetailGroupCovers(prs: seq<PullRequest>, order: seq<nat>, detail: Detailer,
                          i: nat)
    requires Search.IsCompletionOrder(order, |prs|)
    requires DetailGroup(prs, order, detail).Ok? && i < |prs|
    ensures |DetailGroup(prs, order, detail).value| == |prs|
    ensures detail(prs[i]).Ok? &&
            detail(prs[i]).value in DetailGroup(prs, order, detail).value
  {
    ArrivedOutcome(prs, order, detail);
    Search.CompletionOrderCovers(order, |prs|);
    var arrived := Arrived(prs, order, detail).value;
    SortedKeepsMembers(arrived);
    assert i in order;
    var k :| 0 <= k < |order| && order[k] == i;
    assert detail(prs[order[k]]) == Ok(arrived[k]);
    assert arrived[k] in arrived;
  }

  /** Everything in a successful group is the detail of some pull request searched. */
  lemma DetailGroupOnly(prs: seq<PullRequest>, order: seq<nat>, detail: Detailer,
                        q: PullRequest)
    requires Search.IsCompletionOrder(order, |prs|)
    requires DetailGroup(prs, order, detail).Ok? && q in DetailGroup(prs, order, detail).value
    ensures exists i :: 0 <= i < |prs| && detail(prs[i]) == Ok(q)
  {
    ArrivedOutcome(prs, order, detail);
    var arrived := Arrived(prs, order, detail).value;
    SortedKeepsMembers(arrived);
    var k :| 0 <= k < |arrived| && arrived[k] == q;
    assert detail(prs[order[k]]) == Ok(q);
  }

  /**
   * With every task finishing once, the group fails exactly when some pull request's
   * detail fails; otherwise it holds, newest first, one detailed pull request per
   * pull request searched, and nothing else.
   */
  lemma DetailGroupOutcome(prs: seq<PullRequest>, order: seq<nat>, detail: Detailer)
    requires Search.IsCompletionOrder(order, |prs|)
    ensures var r := DetailGroup(prs, order, detail);
      (r.Err? <==> exists i :: 0 <= i < |prs| && detail(prs[i]).Err?) &&
      (r.Ok? ==> MergeResults.SortedNewestFirst(r.value) && |r.value| == |prs| &&
                 (forall i :: 0 <= i < |prs| ==>
                    detail(prs[i]).Ok? && detail(prs[i]).value in r.value) &&
                 (forall q :: q in r.value ==> exists i :: 0 <= i < |prs| && detail(prs[i]) == Ok(q)))
  {
    DetailGroupFails(prs, order, detail);
    var r := DetailGroup(prs, order, detail);
    if r.Ok? {
      if 0 < |prs| {
        DetailGroupCovers(prs, order, detail, 0);
      } else {
        ArrivedOutcome(prs, order, detail);
        SortedKeepsMembers(Arrived(prs, order, detail).value);
        assert |order| == 0;
      }
      forall i | 0 <= i < |prs|
        ensures detail(prs[i]).Ok? && detail(prs[i]).value in r.value
      {
        DetailGroupCovers(prs, order, detail, i);
      }
      forall q | q in r.value
        ensures exists i :: 0 <= i < |prs| && detail(prs[i]) == Ok(q)
      {
        DetailGroupOnly(prs, order, detail, q);
      }
    }
  }

  /** The detail group's loop: the results appended as the tasks arrive, then sorted. */
  method DetailEach(prs: seq<PullRequest>, order: seq<nat>, detail: Detailer)
    returns (r: Result<seq<PullRequest>, AppError>)
    requires forall k :: 0 <= k < |order| ==> order[k] < |prs|
    ensures r == DetailGroup(prs, order, detail)
  {
    var arrived: seq<PullRequest> := [];
    var k := 0;
    while k < |order|
      invariant 0 <= k <= |order|
      invariant Arrived(prs, order[..k], detail) == Ok(arrived)
    {
      assert order[..k + 1][..k] == order[..k];
      var pr := detail(prs[order[k]]);
      if pr.Err? {
        ArrivedStopsAtError(prs, order, k, detail);
        return Err(pr.error);
      }
      arrived := arrived + [pr.value];
      k := k + 1;
    }
    assert order[..k] == order;
    r := Ok(MergeResults.SortNewestFirst(arrived));
  }

  /** Once a task's error has arrived, later arrivals do not change the outcome. */
  lemma {:induction false} ArrivedStopsAtError(prs: seq<PullRequest>, order: seq<nat>, k: nat,
                                               detail: Detailer)
    requires forall j :: 0 <= j < |order| ==> order[j] < |prs|
    requires k < |order| && Arrived(prs, order[..k], detail).Ok?
    requires detail(prs[order[k]]).Err?
    ensures Arrived(prs, order, detail) == Err(detail(prs[order[k]]).error)
    decreases |order|
  {
    var n := |order| - 1;
    if k < n {
      assert order[..n][..k] == order[..k];
      ArrivedStopsAtError(prs, order[..n], k, detail);
    } else {
      assert order[..n] == order[..k];
    }
  }

  // ---------------------------------------------------------------- the enrichment fold

  datatype Enrichment = Enrichment(prs: seq<PullRequest>, actions: map<string, ActionsDetail>, etags: map<string, string>)

  /**
   * The loop of `refreshAll` over the detailed pull requests: each is enriched by
   * `enrichPRSummary` against the ETags gathered so far; a success contributes the
   * enriched pull request, its actions and its ETags (new values win); a failure
   * contributes the pull request as it was.
   */
  /** One step of the fold: `enrichPRSummary` of a pull request against the ETags so far. */
  type Enricher = (PullRequest, map<string, string>) -> Result<(PullRequest, ActionsDetail, map<string, string>), AppError>

  /** `enrichPRSummary` with the two services of the refresh. */
  function Summaries(runsAPI: Actions.RunsOracle, checksAPI: Actions.ChecksOracle): Enricher
  {
    (pr, etags) => Actions.Enriched(pr, etags, runsAPI, checksAPI)
  }

  function EnrichAll(detailed: seq<PullRequest>, actions: map<string, ActionsDetail>, etags: map<string, string>,
                     enrich: Enricher): (r: Enrichment)
    ensures |r.prs| == |detailed|
  {
    if detailed == [] then Enrichment([], actions, etags)
    else
      var n := |detailed| - 1;
      var before := EnrichAll(detailed[..n], actions, etags, enrich);
      var answer := enrich(detailed[n], before.etags);
      if answer.Ok? then
        Enrichment(before.prs + [answer.value.0], before.actions[StableID(answer.value.0) := answer.value.1],
                   before.etags + answer.value.2)
      else Enrichment(before.prs + [detailed[n]], before.actions, before.etags)
  }

  /** Item `i` of the result is the enrichment of detailed item `i` against the ETags gathered before it, or that item unchanged. */
  lemma {:induction false} EnrichAllItem(detailed: seq<PullRequest>, actions: map<string, ActionsDetail>,
                                         etags: map<string, string>, enrich: Enricher, i: nat)
    requires i < |detailed|
    ensures |EnrichAll(detailed, actions, etags, enrich).prs| == |detailed|
    ensures var answer := enrich(detailed[i], EnrichAll(detailed[..i], actions, etags, enrich).etags);
      EnrichAll(detailed, actions, etags, enrich).prs[i] == if answer.Ok? then answer.value.0 else detailed[i]
    decreases |detailed|
  {
    var n := |detailed| - 1;
    var front := detailed[..n];
    if i < n {
      assert front[i] == detailed[i] && front[..i] == detailed[..i];
      EnrichAllItem(front, actions, etags, enrich, i);
    }
  }

  /**
   * Nothing is ever dropped: every previous actions entry and ETag survives; an
   * actions entry changes only under the id of a successfully enriched pull request.
   */
  lemma {:induction false} EnrichAllKeeps(detailed: seq<PullRequest>, actions: map<string, ActionsDetail>,
                                          etags: map<string, string>, enrich: Enricher, k: string)
    ensures k in actions ==> k in EnrichAll(detailed, actions, etags, enrich).actions
    ensures k in etags ==> k in EnrichAll(detailed, actions, etags, enrich).etags
    ensures k in actions && (forall pr :: pr in EnrichAll(detailed, actions, etags, enrich).prs ==> StableID(pr) != k) ==>
              EnrichAll(detailed, actions, etags, enrich).actions[k] == actions[k]
    decreases |detailed|
  {
    if detailed != [] {
      var n := |detailed| - 1;
      var front := detailed[..n];
      EnrichAllKeeps(front, actions, etags, enrich, k);
      var before := EnrichAll(front, actions, etags, enrich);
      var after := EnrichAll(detailed, actions, etags, enrich);
      assert after.prs[..n] == before.prs;
      assert forall pr :: pr in before.prs ==> pr in after.prs;
      assert after.prs[n] in after.prs;
    }
  }

  /** One more detailed pull request is one more step of the fold. */
  lemma EnrichAllNext(detailed: seq<PullRequest>, actions: map<string, ActionsDetail>, etags: map<string, string>,
                      enrich: Enricher, i: nat)
    requires i < |detailed|
    ensures var before := EnrichAll(detailed[..i], actions, etags, enrich);
      var answer := enrich(detailed[i], before.etags);
      EnrichAll(detailed[..i + 1], actions, etags, enrich) ==
      if answer.Ok? then
        Enrichment(before.prs + [answer.value.0], before.actions[StableID(answer.value.0) := answer.value.1],
                   before.etags + answer.value.2)
      else Enrichment(before.prs + [detailed[i]], before.actions, before.etags)
  {
    assert detailed[..i + 1][..i] == detailed[..i] && detailed[..i + 1][i] == detailed[i];
  }

  /** The `for pr in detailed` loop of `refreshAll`, building `result`, `actionsMap` and `etagMap`. */
  method EnrichEach(detailed: seq<PullRequest>, actions: map<string, ActionsDetail>, etags: map<string, string>,
                    runsAPI: Actions.RunsOracle, checksAPI: Actions.ChecksOracle) returns (r: Enrichment)
    ensures r == EnrichAll(detailed, actions, etags, Summaries(runsAPI, checksAPI))
  {
    var result: seq<PullRequest> := [];
    var actionsMap := actions;
    var etagMap := etags;
    var i := 0;
    while i < |detailed|
      invariant 0 <= i <= |detailed|
      invariant Enrichment(result, actionsMap, etagMap) == EnrichAll(detailed[..i], actions, etags, Summaries(runsAPI, checksAPI))
    {
      var pr := detailed[i];
      EnrichAllNext(detailed, actions, etags, Summaries(runsAPI, checksAPI), i);
      var answer := Actions.EnrichPRSummary(pr, etagMap, runsAPI, checksAPI);
      assert answer == Summaries(runsAPI, checksAPI)(pr, etagMap);
      if answer.Ok? {
        result := result + [answer.value.0];
        actionsMap := actionsMap[StableID(answer.value.0) := answer.value.1];
        etagMap := etagMap + answer.value.2;
      } else {
        result := result + [pr];
      }
      i := i + 1;
    }
    assert detailed[..i] == detailed;
    r := Enrichment(result, actionsMap, etagMap);
  }

  /** Enrichment changes only the two summaries of each pull request, so it keeps its update time. */
  lemma EnrichAllOnlySummaries(detailed: seq<PullRequest>, actions: map<string, ActionsDetail>, etags: map<string, string>,
                               runsAPI: Actions.RunsOracle, checksAPI: Actions.ChecksOracle, i: nat)
    requires i < |detailed|
    ensures var prs := EnrichAll(detailed, actions, etags, Summaries(runsAPI, checksAPI)).prs;
      |prs| == |detailed| &&
      prs[i] == detailed[i].(actionsSummary := prs[i].actionsSummary, checkSummary := prs[i].checkSummary)
  {
    EnrichAllItem(detailed, actions, etags, Summaries(runsAPI, checksAPI), i);
    Actions.EnrichedChangesOnlySummaries(detailed[i], EnrichAll(detailed[..i], actions, etags, Summaries(runsAPI, checksAPI)).etags,
                                         runsAPI, checksAPI);
  }

  /** A list sorted newest first stays so through the enrichment fold. */
  lemma EnrichAllKeepsOrder(detailed: seq<PullRequest>, actions: map<string, ActionsDetail>, etags: map<string, string>,
                            runsAPI: Actions.RunsOracle, checksAPI: Actions.ChecksOracle)
    requires MergeResults.SortedNewestFirst(detailed)
    ensures MergeResults.SortedNewestFirst(EnrichAll(detailed, actions, etags, Summaries(runsAPI, checksAPI)).prs)
  {
    var prs := EnrichAll(detailed, actions, etags, Summaries(runsAPI, checksAPI)).prs;
    forall i | 0 <= i < |detailed|
      ensures prs[i].updatedAt == detailed[i].updatedAt
    {
      EnrichAllOnlySummaries(detailed, actions, etags, runsAPI, checksAPI, i);
    }
  }

  // ---------------------------------------------------------------- loading jobs

  datatype JobsPass = JobsPass(actions: map<string, ActionsDetail>, loaded: set<string>)

  /** The guard of `loadJobsForSelectedPRs`: the id has an actions entry without jobs. */
  predicate NeedsJobs(actions: map<string, ActionsDetail>, id: string)
  {
    id in actions && actions[id].jobsByRunID == map[]
  }

  /**
   * One iteration of `loadJobsForSelectedPRs`: a pull request whose actions entry
   * exists and has no jobs yet has its first two runs' jobs loaded; a failure leaves
   * the entry as it was. `loaded` gathers every id that was attempted.
   */
  function LoadJobsStep(pass: JobsPass, pr: PullRequest, jobsAPI: Actions.JobsOracle): (r: JobsPass)
    ensures r.actions.Keys == pass.actions.Keys
    ensures pass.loaded <= r.loaded <= pass.loaded + {StableID(pr)}
  {
    var id := StableID(pr);
    if NeedsJobs(pass.actions, id) then
      var detail := pass.actions[id];
      var jobs := Actions.JobsLoaded(pr, Actions.Take(detail.runs, 2), jobsAPI);
      JobsPass(if jobs.Ok? then pass.actions[id := detail.(jobsByRunID := jobs.value)] else pass.actions,
               pass.loaded + {id})
    else pass
  }

  /** The whole loop of `loadJobsForSelectedPRs`, over the selected pull requests in list order. */
  function LoadAllJobs(selected: seq<PullRequest>, actions: map<string, ActionsDetail>, jobsAPI: Actions.JobsOracle)
    : (r: JobsPass)
    ensures r.actions.Keys == actions.Keys
  {
    if selected == [] then JobsPass(actions, {})
    else LoadJobsStep(LoadAllJobs(selected[..|selected| - 1], actions, jobsAPI), selected[|selected| - 1], jobsAPI)
  }

  /**
   * Loading jobs keeps the set of entries, touches only selected ids whose entry had
   * no jobs, and changes such an entry's jobs only, keeping its runs.
   */
  lemma {:induction false} LoadAllJobsOnlyFillsEmptyEntries(selected: seq<PullRequest>, actions: map<string, ActionsDetail>,
                                                            jobsAPI: Actions.JobsOracle, k: string)
    ensures var after := LoadAllJobs(selected, actions, jobsAPI);
      (k in after.actions <==> k in actions) &&
      (k in after.loaded ==> NeedsJobs(actions, k) && exists i :: 0 <= i < |selected| && StableID(selected[i]) == k) &&
      (k in actions && k !in after.loaded ==> after.actions[k] == actions[k]) &&
      (k in actions ==> after.actions[k].runs == actions[k].runs)
    decreases |selected|
  {
    if selected != [] {
      var n := |selected| - 1;
      var front := selected[..n];
      LoadAllJobsOnlyFillsEmptyEntries(front, actions, jobsAPI, k);
      var before := LoadAllJobs(front, actions, jobsAPI);
      LoadJobsStepTouchesOnlyItsID(before, selected[n], jobsAPI, k);
      if k in before.loaded {
        var i :| 0 <= i < |front| && StableID(front[i]) == k;
        assert selected[i] == front[i];
      }
    }
  }

  /** One step attempts at most its own id, only when that entry lacks jobs, and changes at most that entry's jobs. */
  lemma LoadJobsStepTouchesOnlyItsID(pass: JobsPass, pr: PullRequest, jobsAPI: Actions.JobsOracle, k: string)
    ensures var next := LoadJobsStep(pass, pr, jobsAPI);
      (k in next.actions <==> k in pass.actions) &&
      (k in next.loaded <==> k in pass.loaded || (k == StableID(pr) && NeedsJobs(pass.actions, k))) &&
      (k in pass.actions && k !in next.loaded ==> next.actions[k] == pass.actions[k]) &&
      (k in pass.actions ==> next.actions[k].runs == pass.actions[k].runs)
  {
  }

  /**
   * The container after a jobs pass that started from `start`: the actions entries are
   * the pass's, and every attempted id is no longer loading.
   */
  function AfterJobs(start: ContainerFields, pass: JobsPass): (r: ContainerFields)
    ensures r.pullRequests == start.pullRequests && r.etags == start.etags && r.selectedPRIDs == start.selectedPRIDs
    ensures r.actionsByPRID == pass.actions
    ensures forall k :: k in r.loadingJobsPRIDs <==> k in start.loadingJobsPRIDs && k !in pass.loaded
  {
    start.(actionsByPRID := pass.actions, loadingJobsPRIDs := start.loadingJobsPRIDs - pass.loaded)
  }

  // ---------------------------------------------------------------- the view model

  /** How `refreshAll` ended. `NeedsIdentity` is the branch that loads the identity first and retries. */
  datatype RefreshOutcome = Skipped | MissingTokenStatus | NeedsIdentity | Refreshed | Failed(error: AppError)

  predicate UsableToken(token: Result<Option<string>, AppError>)
  {
    token.Ok? && token.value.Some? && token.value.value != ""
  }

  /** The search of `refreshAll`: from the login, the settings and the ETags, the pull requests and the new ETags. */
  type Searcher = (string, AppSettings, map<string, string>) -> Result<(seq<PullRequest>, map<string, string>), AppError>

  /** Every count of tasks has an order in which the tasks finish, each exactly once. */
  ghost predicate CompletionOrders(completion: nat -> seq<nat>)
  {
    forall n: nat {:trigger completion(n)} :: Search.IsCompletionOrder(completion(n), n)
  }

  /**
   * `refreshAll(manual:)` on the container's fields: how it ends and the fields it
   * leaves. A refresh already loading is skipped. A keychain error is recorded; a
   * missing token only sets the status. Otherwise the search runs; then every pull
   * request found is detailed in a task group whose tasks finish in the order
   * `completion` gives for that many tasks, and the details are sorted newest first.
   * The search's error, or the first detail error to arrive, is recorded (the search
   * ETags are kept once the search succeeded). On success the list, actions and ETags
   * are replaced by the enrichment fold, the rate limit is taken over, the error
   * cleared and jobs loaded for the selected pull requests.
   */
  function RefreshOf(start: ContainerFields, token: Result<Option<string>, AppError>, search: Searcher,
                     detailAPI: DetailOracle, reviewsAPI: ReviewsOracle, completion: nat -> seq<nat>,
                     runsAPI: Actions.RunsOracle, checksAPI: Actions.ChecksOracle, rateLimit: RateLimitInfo,
                     jobsAPI: Actions.JobsOracle): (RefreshOutcome, ContainerFields)
    requires CompletionOrders(completion)
  {
    if start.isLoading then (Skipped, start)
    else if token.Err? then (Failed(token.error), start.(errorMessage := Some(token.error)))
    else if !UsableToken(token) then (MissingTokenStatus, start.(tokenStatus := "Missing token"))
    else if start.user.None? then (NeedsIdentity, start)
    else SearchedOf(start, search, detailAPI, reviewsAPI, completion, runsAPI, checksAPI, rateLimit, jobsAPI)
  }

  /**
   * The part of `refreshAll` once signed in with a usable token: the search's error is
   * recorded; otherwise its ETags are kept and the pull requests found go on to the
   * detail group.
   */
  function SearchedOf(start: ContainerFields, search: Searcher, detailAPI: DetailOracle, reviewsAPI: ReviewsOracle,
                      completion: nat -> seq<nat>, runsAPI: Actions.RunsOracle, checksAPI: Actions.ChecksOracle,
                      rateLimit: RateLimitInfo, jobsAPI: Actions.JobsOracle): (RefreshOutcome, ContainerFields)
    requires CompletionOrders(completion) && start.user.Some?
  {
    var found := search(start.user.value.login, start.settings, start.etags);
    if found.Err? then (Failed(found.error), start.(errorMessage := Some(found.error)))
    else
      var prs := found.value.0;
      FoundOf(start.(etags := found.value.1), prs, completion(|prs|), Details(detailAPI, reviewsAPI),
              runsAPI, checksAPI, rateLimit, jobsAPI)
  }

  /**
   * The part of `refreshAll` after a successful search, from the fields holding the
   * search's ETags: the detail group; its first error to arrive is recorded and
   * changes nothing else; otherwise the enrichment fold is published.
   */
  function FoundOf(start: ContainerFields, prs: seq<PullRequest>, order: seq<nat>, detail: Detailer,
                   runsAPI: Actions.RunsOracle, checksAPI: Actions.ChecksOracle, rateLimit: RateLimitInfo,
                   jobsAPI: Actions.JobsOracle): (RefreshOutcome, ContainerFields)
    requires forall k :: 0 <= k < |order| ==> order[k] < |prs|
  {
    var group := DetailGroup(prs, order, detail);
    if group.Err? then (Failed(group.error), start.(errorMessage := Some(group.error)))
    else
      var folded := EnrichAll(group.value, start.actionsByPRID, start.etags, Summaries(runsAPI, checksAPI));
      (Refreshed,
       AfterJobs(start.(pullRequests := folded.prs, actionsByPRID := folded.actions, etags := folded.etags,
                        rateLimitInfo := rateLimit, errorMessage := None),
                 LoadAllJobs(WithIDs(folded.prs, start.selectedPRIDs), folded.actions, jobsAPI)))
  }

  /** A refresh that was not already loading never leaves loading set. */
  lemma RefreshNeverLeavesLoading(start: ContainerFields, token: Result<Option<string>, AppError>, search: Searcher,
                                  detailAPI: DetailOracle, reviewsAPI: ReviewsOracle, completion: nat -> seq<nat>,
                                  runsAPI: Actions.RunsOracle, checksAPI: Actions.ChecksOracle, rateLimit: RateLimitInfo,
                                  jobsAPI: Actions.JobsOracle)
    requires CompletionOrders(completion)
    ensures var r := RefreshOf(start, token, search, detailAPI, reviewsAPI, completion, runsAPI, checksAPI, rateLimit, jobsAPI);
      (start.isLoading <==> r.0 == Skipped) && (r.0 == Skipped ==> r.1 == start) && (!start.isLoading ==> !r.1.isLoading)
  {
  }

  /** A failed refresh records its error and keeps the list and the actions as they were. */
  lemma RefreshFailureKeepsList(start: ContainerFields, token: Result<Option<string>, AppError>, search: Searcher,
                                detailAPI: DetailOracle, reviewsAPI: ReviewsOracle, completion: nat -> seq<nat>,
                                runsAPI: Actions.RunsOracle, checksAPI: Actions.ChecksOracle, rateLimit: RateLimitInfo,
                                jobsAPI: Actions.JobsOracle)
    requires CompletionOrders(completion)
    ensures var r := RefreshOf(start, token, search, detailAPI, reviewsAPI, completion, runsAPI, checksAPI, rateLimit, jobsAPI);
      r.0.Failed? ==>
        r.1.errorMessage == Some(r.0.error) && r.1.pullRequests == start.pullRequests &&
        r.1.actionsByPRID == start.actionsByPRID && r.1.selectedPRIDs == start.selectedPRIDs
  {
  }

  /**
   * Once signed in with a usable token and a successful search, the refresh fails
   * exactly when the detail of some pull request found fails.
   */
  lemma RefreshFailsOnAnyDetailError(start: ContainerFields, token: Result<Option<string>, AppError>, search: Searcher,
                                     detailAPI: DetailOracle, reviewsAPI: ReviewsOracle, completion: nat -> seq<nat>,
                                     runsAPI: Actions.RunsOracle, checksAPI: Actions.ChecksOracle, rateLimit: RateLimitInfo,
                                     jobsAPI: Actions.JobsOracle)
    requires CompletionOrders(completion)
    requires !start.isLoading && UsableToken(token) && start.user.Some?
    requires search(start.user.value.login, start.settings, start.etags).Ok?
    ensures var prs := search(start.user.value.login, start.settings, start.etags).value.0;
      var r := RefreshOf(start, token, search, detailAPI, reviewsAPI, completion, runsAPI, checksAPI, rateLimit, jobsAPI);
      (r.0.Failed? <==> exists i :: 0 <= i < |prs| && Details(detailAPI, reviewsAPI)(prs[i]).Err?) &&
      (!r.0.Failed? <==> r.0 == Refreshed)
  {
    var prs := search(start.user.value.login, start.settings, start.etags).value.0;
    DetailGroupFails(prs, completion(|prs|), Details(detailAPI, reviewsAPI));
  }

  /**
   * A successful refresh publishes one pull request per pull request found, newest
   * first, each its detail with at most its two summaries changed.
   */
  lemma RefreshedIsSortedDetails(start: ContainerFields, token: Result<Option<string>, AppError>, search: Searcher,
                                 detailAPI: DetailOracle, reviewsAPI: ReviewsOracle, completion: nat -> seq<nat>,
                                 runsAPI: Actions.RunsOracle, checksAPI: Actions.ChecksOracle, rateLimit: RateLimitInfo,
                                 jobsAPI: Actions.JobsOracle)
    requires CompletionOrders(completion)
    requires RefreshOf(start, token, search, detailAPI, reviewsAPI, completion, runsAPI, checksAPI, rateLimit, jobsAPI).0 == Refreshed
    ensures var prs := search(start.user.value.login, start.settings, start.etags).value.0;
      var published := RefreshOf(start, token, search, detailAPI, reviewsAPI, completion, runsAPI, checksAPI, rateLimit, jobsAPI).1.pullRequests;
      MergeResults.SortedNewestFirst(published) && |published| == |prs| &&
      forall j :: 0 <= j < |published| ==>
        exists i :: 0 <= i < |prs| && Details(detailAPI, reviewsAPI)(prs[i]).Ok? &&
          published[j] == Details(detailAPI, reviewsAPI)(prs[i]).value.(actionsSummary := published[j].actionsSummary,
                                                                        checkSummary := published[j].checkSummary)
  {
    var found := search(start.user.value.login, start.settings, start.etags).value;
    var detail := Details(detailAPI, reviewsAPI);
    var order := completion(|found.0|);
    var group := DetailGroup(found.0, order, detail).value;
    DetailGroupOutcome(found.0, order, detail);
    EnrichAllKeepsOrder(group, start.actionsByPRID, found.1, runsAPI, checksAPI);
    var published := EnrichAll(group, start.actionsByPRID, found.1, Summaries(runsAPI, checksAPI)).prs;
    forall j | 0 <= j < |published|
      ensures exists i :: 0 <= i < |found.0| && detail(found.0[i]).Ok? &&
                published[j] == detail(found.0[i]).value.(actionsSummary := published[j].actionsSummary,
                                                          checkSummary := published[j].checkSummary)
    {
      EnrichAllOnlySummaries(group, start.actionsByPRID, found.1, runsAPI, checksAPI, j);
      DetailGroupOnly(found.0, order, detail, group[j]);
    }
  }

  /** The key under which the view model registers its refresh, and the label naming that action. */
  const ListRefreshKey := "pr-list-refresh"
  const ListRefreshAction := "refreshAll"

  class MainViewModel {
    const container: AppContainer

    /** `init(container:)`: registers the list refresh with the scheduler under its key, then configures the timer. */
    constructor (c: AppContainer)
      modifies c.refreshScheduler
      ensures container == c
      ensures c.refreshScheduler.State() ==
              Apply(Apply(old(c.refreshScheduler.State()), Event.Register(ListRefreshKey, ListRefreshAction)),
                    Event.Configure(ScheduledInterval(c.rateLimitInfo.remaining, c.settings.refreshInterval),
                                    SchedulerEnabled(c.settings, c.monitorStore.autoRefreshPaused)))
    {
      container := c;
      new;
      c.refreshScheduler.Register(ListRefreshKey, ListRefreshAction);
      c.ConfigureScheduler();
    }

    /** `updateSettings(_:)`: the quick scope is normalized against the known organizations, then the timer is reconfigured. */
    method UpdateSettings(settings: AppSettings)
      modifies container, container.refreshScheduler
      ensures container.Fields() ==
              old(container.Fields()).(settings := settings.(quickScope := NormalizedQuickScope(settings.quickScope, old(container.orgs))))
      ensures container.refreshScheduler.State() ==
              Apply(old(container.refreshScheduler.State()),
                    Event.Configure(ScheduledInterval(old(container.rateLimitInfo).remaining, settings.refreshInterval),
                                    SchedulerEnabled(settings, container.monitorStore.autoRefreshPaused)))
    {
      container.settings := settings.(quickScope := NormalizedQuickScope(settings.quickScope, container.orgs));
      container.ConfigureScheduler();
    }

    /** `toggleAutoRefresh()`: pausing flips, and the timer follows it. */
    method ToggleAutoRefresh()
      modifies container.monitorStore, container.refreshScheduler
      ensures container.monitorStore.autoRefreshPaused == !old(container.monitorStore.autoRefreshPaused)
      ensures container.monitorStore.pinnedPRIDs == old(container.monitorStore.pinnedPRIDs)
      ensures container.refreshScheduler.State() ==
              Apply(old(container.refreshScheduler.State()),
                    Event.Configure(ScheduledInterval(container.rateLimitInfo.remaining, container.settings.refreshInterval),
                                    container.settings.autoRefreshEnabled && old(container.monitorStore.autoRefreshPaused)))
    {
      container.monitorStore.SetPaused(!container.monitorStore.autoRefreshPaused);
      container.ConfigureScheduler();
    }

    /** `toggleSelection(pr:)`: flips the id's membership and changes nothing else; `startsJobLoad` says whether jobs loading is started. */
    method ToggleSelection(pr: PullRequest) returns (startsJobLoad: bool)
      modifies container
      ensures var id := StableID(pr);
        (id in old(container.selectedPRIDs) ==> container.selectedPRIDs == old(container.selectedPRIDs) - {id}) &&
        (id !in old(container.selectedPRIDs) ==> container.selectedPRIDs == old(container.selectedPRIDs) + {id})
      ensures startsJobLoad <==> StableID(pr) !in old(container.selectedPRIDs)
      ensures container.pullRequests == old(container.pullRequests) && container.actionsByPRID == old(container.actionsByPRID)
      ensures container.Fields() ==
              old(container.Fields()).(selectedPRIDs := if StableID(pr) in old(container.selectedPRIDs)
                                                        then old(container.selectedPRIDs) - {StableID(pr)}
                                                        else old(container.selectedPRIDs) + {StableID(pr)})
    {
      var id := StableID(pr);
      if id in container.selectedPRIDs {
        container.selectedPRIDs := container.selectedPRIDs - {id};
        startsJobLoad := false;
      } else {
        container.selectedPRIDs := container.selectedPRIDs + {id};
        startsJobLoad := true;
      }
    }

    /** `selectedPRs()`. */
    function SelectedPRs(): (r: seq<PullRequest>)
      reads container
      ensures forall pr :: pr in r <==> pr in container.pullRequests && StableID(pr) in container.selectedPRIDs
    {
      WithIDs(container.pullRequests, container.selectedPRIDs)
    }

    /** `pinnedPRs()`. */
    function PinnedPRs(): (r: seq<PullRequest>)
      reads container, container.monitorStore
      ensures forall pr :: pr in r <==> pr in container.pullRequests && StableID(pr) in container.monitorStore.pinnedPRIDs
    {
      WithIDs(container.pullRequests, IDSet(container.monitorStore.pinnedPRIDs))
    }

    /** The body of the loop of `loadJobsForSelectedPRs` for one pull request. */
    method LoadJobsFor(pr: PullRequest, ghost start: ContainerFields, ghost pass: JobsPass, jobsAPI: Actions.JobsOracle)
      modifies container
      requires container.Fields() == AfterJobs(start, pass)
      ensures container.Fields() == AfterJobs(start, LoadJobsStep(pass, pr, jobsAPI))
    {
      var id := StableID(pr);
      if id !in container.actionsByPRID || container.actionsByPRID[id].jobsByRunID != map[] {
        return;
      }
      var detail := container.actionsByPRID[id];
      container.SetLoadingJobs(true, id);
      var jobs := Actions.LoadJobs(pr, detail.runs, jobsAPI);
      if jobs.Ok? {
        container.actionsByPRID := container.actionsByPRID[id := detail.(jobsByRunID := jobs.value)];
      }
      container.SetLoadingJobs(false, id);
      assert (start.loadingJobsPRIDs - pass.loaded + {id}) - {id} == start.loadingJobsPRIDs - (pass.loaded + {id});
    }

    /**
     * `loadJobsForSelectedPRs()`: without a usable token nothing happens; otherwise the
     * entries are filled as `LoadAllJobs` says, and each attempted id ends up not loading.
     */
    method LoadJobsForSelectedPRs(token: Result<Option<string>, AppError>, jobsAPI: Actions.JobsOracle)
      modifies container
      ensures !UsableToken(token) ==> container.Fields() == old(container.Fields())
      ensures UsableToken(token) ==>
                container.Fields() ==
                AfterJobs(old(container.Fields()),
                          LoadAllJobs(WithIDs(old(container.pullRequests), old(container.selectedPRIDs)),
                                      old(container.actionsByPRID), jobsAPI))
    {
      if !UsableToken(token) {
        return;
      }
      ghost var start := container.Fields();
      var selected := SelectedPRs();
      var i := 0;
      while i < |selected|
        invariant 0 <= i <= |selected|
        invariant container.Fields() == AfterJobs(start, LoadAllJobs(selected[..i], start.actionsByPRID, jobsAPI))
      {
        assert selected[..i + 1][..i] == selected[..i];
        LoadJobsFor(selected[i], start, LoadAllJobs(selected[..i], start.actionsByPRID, jobsAPI), jobsAPI);
        i := i + 1;
      }
      assert selected[..i] == selected;
    }

    /**
     * The end of a successful `refreshAll`: the folded list, actions and ETags are
     * published, the rate limit taken over, the timer reconfigured for it, the error
     * cleared, and jobs loaded for the selected pull requests.
     */
    method Publish(folded: Enrichment, rateLimit: RateLimitInfo, token: Result<Option<string>, AppError>,
                   jobsAPI: Actions.JobsOracle)
      requires UsableToken(token)
      modifies container, container.refreshScheduler
      ensures container.Fields() ==
              AfterJobs(old(container.Fields()).(pullRequests := folded.prs, actionsByPRID := folded.actions,
                                                 etags := folded.etags, rateLimitInfo := rateLimit, errorMessage := None),
                        LoadAllJobs(WithIDs(folded.prs, old(container.selectedPRIDs)), folded.actions, jobsAPI))
      ensures container.refreshScheduler.State() ==
              Apply(old(container.refreshScheduler.State()),
                    Event.Configure(ScheduledInterval(rateLimit.remaining, old(container.settings).refreshInterval),
                                    SchedulerEnabled(old(container.settings), old(container.monitorStore.autoRefreshPaused))))
    {
      ghost var published := old(container.Fields()).(pullRequests := folded.prs, actionsByPRID := folded.actions,
                                                      etags := folded.etags, rateLimitInfo := rateLimit, errorMessage := None);
      container.pullRequests := folded.prs;
      container.actionsByPRID := folded.actions;
      container.ReplaceETags(folded.etags);
      container.rateLimitInfo := rateLimit;
      container.ConfigureScheduler();
      container.errorMessage := None;
      assert container.Fields() == published;
      ghost var scheduled := container.refreshScheduler.State();
      LoadJobsForSelectedPRs(token, jobsAPI);
      assert container.refreshScheduler.State() == scheduled;
    }

    /**
     * The part of `refreshAll` after a successful search, as `FoundOf` says; a success
     * also reconfigures the timer, a failure leaves it alone.
     */
    method RefreshFound(prs: seq<PullRequest>, order: seq<nat>, detail: Detailer,
                        runsAPI: Actions.RunsOracle, checksAPI: Actions.ChecksOracle,
                        rateLimit: RateLimitInfo, token: Result<Option<string>, AppError>, jobsAPI: Actions.JobsOracle)
      returns (outcome: RefreshOutcome)
      requires UsableToken(token)
      requires forall k :: 0 <= k < |order| ==> order[k] < |prs|
      modifies container, container.refreshScheduler
      ensures (outcome, container.Fields()) ==
              FoundOf(old(container.Fields()), prs, order, detail, runsAPI, checksAPI, rateLimit, jobsAPI)
      ensures outcome == Refreshed ==>
                container.refreshScheduler.State() ==
                Apply(old(container.refreshScheduler.State()),
                      Event.Configure(ScheduledInterval(rateLimit.remaining, old(container.settings).refreshInterval),
                                      SchedulerEnabled(old(container.settings), old(container.monitorStore.autoRefreshPaused))))
      ensures outcome != Refreshed ==> container.refreshScheduler.State() == old(container.refreshScheduler.State())
    {
      var detailed := DetailEach(prs, order, detail);
      if detailed.Err? {
        container.errorMessage := Some(detailed.error);
        return Failed(detailed.error);
      }
      var folded := EnrichEach(detailed.value, container.actionsByPRID, container.etags, runsAPI, checksAPI);
      Publish(folded, rateLimit, token, jobsAPI);
      outcome := Refreshed;
    }

    /**
     * `refreshAll(manual:)`: the outcome and the new fields are those `RefreshOf` gives
     * for the fields it starts from; a successful refresh also reconfigures the timer
     * for the rate limit taken over, and any other outcome leaves the timer alone.
     */
    method RefreshAll(token: Result<Option<string>, AppError>, search: Searcher,
                      detailAPI: DetailOracle, reviewsAPI: ReviewsOracle, completion: nat -> seq<nat>,
                      runsAPI: Actions.RunsOracle, checksAPI: Actions.ChecksOracle, rateLimit: RateLimitInfo,
                      jobsAPI: Actions.JobsOracle)
      returns (outcome: RefreshOutcome)
      requires CompletionOrders(completion)
      modifies container, container.refreshScheduler
      ensures (outcome, container.Fields()) ==
              RefreshOf(old(container.Fields()), token, search, detailAPI, reviewsAPI, completion, runsAPI, checksAPI,
                        rateLimit, jobsAPI)
      ensures outcome == Refreshed ==>
                container.refreshScheduler.State() ==
                Apply(old(container.refreshScheduler.State()),
                      Event.Configure(ScheduledInterval(rateLimit.remaining, old(container.settings).refreshInterval),
                                      SchedulerEnabled(old(container.settings), old(container.monitorStore.autoRefreshPaused))))
      ensures outcome != Refreshed ==> container.refreshScheduler.State() == old(container.refreshScheduler.State())
    {
      if container.isLoading {
        return Skipped;
      }
      if token.Err? {
        container.errorMessage := Some(token.error);
        container.isLoading := false;
        return Failed(token.error);
      }
      if token.value.None? || token.value.value == "" {
        container.tokenStatus := "Missing token";
        return MissingTokenStatus;
      }
      if container.user.None? {
        return NeedsIdentity;
      }
      outcome := RefreshSignedIn(token, search, detailAPI, reviewsAPI, completion, runsAPI, checksAPI, rateLimit, jobsAPI);
    }

    /** The part of `refreshAll` once signed in with a usable token, as `SearchedOf` says. */
    method RefreshSignedIn(token: Result<Option<string>, AppError>, search: Searcher,
                           detailAPI: DetailOracle, reviewsAPI: ReviewsOracle, completion: nat -> seq<nat>,
                           runsAPI: Actions.RunsOracle, checksAPI: Actions.ChecksOracle, rateLimit: RateLimitInfo,
                           jobsAPI: Actions.JobsOracle)
      returns (outcome: RefreshOutcome)
      requires CompletionOrders(completion) && UsableToken(token)
      requires !container.isLoading && container.user.Some?
      modifies container, container.refreshScheduler
      ensures (outcome, container.Fields()) ==
              SearchedOf(old(container.Fields()), search, detailAPI, reviewsAPI, completion, runsAPI, checksAPI,
                         rateLimit, jobsAPI)
      ensures outcome == Refreshed ==>
                container.refreshScheduler.State() ==
                Apply(old(container.refreshScheduler.State()),
                      Event.Configure(ScheduledInterval(rateLimit.remaining, old(container.settings).refreshInterval),
                                      SchedulerEnabled(old(container.settings), old(container.monitorStore.autoRefreshPaused))))
      ensures outcome != Refreshed ==> container.refreshScheduler.State() == old(container.refreshScheduler.State())
    {
      var login := container.user.value.login;
      container.isLoading := true;
      var found := search(login, container.settings, container.etags);
      if found.Err? {
        container.errorMessage := Some(found.error);
        container.isLoading := false;
        return Failed(found.error);
      }
      container.ReplaceETags(found.value.1);
      outcome := RefreshFound(found.value.0, completion(|found.value.0|), Details(detailAPI, reviewsAPI),
                              runsAPI, checksAPI, rateLimit, token, jobsAPI);
      container.isLoading := false;
    }
  }
}
