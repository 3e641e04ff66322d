/**
 * `ActionsService`: the workflow-run and check-run status of one pull request, the
 * ETags those two calls thread through, and the jobs of its two latest runs.
 *
 * GitHub is an oracle per endpoint: it answers an `ApiRequest` with what
 * `GitHubClient.get` returns or throws. Bodies are already decoded.
 */
module Actions {
  import opened Wrappers
  import opened Text
  import opened Errors
  import opened Models
  import opened Client

  type RunsOracle = ApiRequest -> Result<GitHubResponse<seq<WorkflowRun>>, AppError>
  type ChecksOracle = ApiRequest -> Result<GitHubResponse<seq<CheckRun>>, AppError>
  type JobsOracle = ApiRequest -> Result<GitHubResponse<seq<Job>>, AppError>

  // ---------------------------------------------------------------- keys and requests

  function RunsKey(pr: PullRequest): string
  {
    "runs:" + StableID(pr)
  }

  function ChecksKey(pr: PullRequest): string
  {
    "checks:" + StableID(pr)
  }

  /** The two keys of a pull request never collide, and each determines its pull request's repository and number. */
  lemma ETagKeysDistinct(a: PullRequest, b: PullRequest)
    requires WellFormedRepo(a.repo) && WellFormedRepo(b.repo)
    ensures RunsKey(a) != ChecksKey(b)
    ensures RunsKey(a) == RunsKey(b) ==> a.repo == b.repo && a.number == b.number
    ensures ChecksKey(a) == ChecksKey(b) ==> a.repo == b.repo && a.number == b.number
  {
    assert RunsKey(a)[0] == 'r' && ChecksKey(b)[0] == 'c';
    if RunsKey(a) == RunsKey(b) {
      assert StableID(a) == RunsKey(a)[5..] == RunsKey(b)[5..] == StableID(b);
      StableIDInjective(a, b);
    }
    if ChecksKey(a) == ChecksKey(b) {
      assert StableID(a) == ChecksKey(a)[7..] == ChecksKey(b)[7..] == StableID(b);
      StableIDInjective(a, b);
    }
  }

  /** The commit the check runs are asked for: the head SHA, or `HEAD` when it is unknown. */
  function CheckRef(pr: PullRequest): (r: string)
    ensures r != ""
    ensures pr.headSHA != "" ==> r == pr.headSHA
    ensures pr.headSHA == "" ==> r == "HEAD"
  {
    if pr.headSHA == "" then "HEAD" else pr.headSHA
  }

  function RunsPath(pr: PullRequest): string
  {
    "repos/" + pr.repo.owner + "/" + pr.repo.name + "/actions/runs"
  }

  function ChecksPath(pr: PullRequest): string
  {
    "repos/" + pr.repo.owner + "/" + pr.repo.name + "/commits/" + CheckRef(pr) + "/check-runs"
  }

  function JobsPath(pr: PullRequest, runID: int): string
  {
    "repos/" + pr.repo.owner + "/" + pr.repo.name + "/actions/runs/" + IntToString(runID) + "/jobs"
  }

  function Lookup(m: map<string, string>, k: string): Option<string>
  {
    if k in m then Some(m[k]) else None
  }

  /** The runs request: 30 per page, offering the ETag stored under the runs key. */
  function RunsRequest(pr: PullRequest, etags: map<string, string>): ApiRequest
  {
    ApiRequest(RunsPath(pr), [("per_page", "30")], Lookup(etags, RunsKey(pr)))
  }

  /** The check-runs request: 20 per page, offering the ETag stored under the checks key. */
  function ChecksRequest(pr: PullRequest, etags: map<string, string>): ApiRequest
  {
    ApiRequest(ChecksPath(pr), [("per_page", "20")], Lookup(etags, ChecksKey(pr)))
  }

  /** The jobs request of one run: 50 per page, never conditional. */
  function JobsRequest(pr: PullRequest, runID: int): ApiRequest
  {
    ApiRequest(JobsPath(pr, runID), [("per_page", "50")], None)
  }

  // ---------------------------------------------------------------- how the calls are counted

  /** A repository that is not called `pulls` or `actions`, with a head commit that is a single path piece. */
  predicate PlainNames(pr: PullRequest)
  {
    WellFormedRepo(pr.repo) &&
    pr.repo.owner !in {"pulls", "actions"} && pr.repo.name !in {"pulls", "actions"} &&
    '/' !in pr.headSHA && pr.headSHA !in {"pulls", "actions"}
  }

  /** The repository part of every path: `repos`, owner and name joined by `/`. */
  lemma RepoPieces(pr: PullRequest)
    ensures JoinWith(["repos", pr.repo.owner, pr.repo.name], '/') == "repos/" + pr.repo.owner + "/" + pr.repo.name
  {
    JoinWithCons(pr.repo.owner, [pr.repo.name], '/');
    JoinWithCons("repos", [pr.repo.owner, pr.repo.name], '/');
  }

  /** The runs path is the pieces `repos`, owner, name, `actions`, `runs` joined by `/`. */
  lemma RunsPathPieces(pr: PullRequest)
    ensures RunsPath(pr) == JoinWith(["repos", pr.repo.owner, pr.repo.name, "actions", "runs"], '/')
  {
    var repo := ["repos", pr.repo.owner, pr.repo.name];
    var tail := ["actions", "runs"];
    RepoPieces(pr);
    JoinWithCons("actions", ["runs"], '/');
    JoinWithAppend(repo, tail, '/');
    assert repo + tail == ["repos", pr.repo.owner, pr.repo.name, "actions", "runs"];
  }

  /** The check-runs path is the pieces `repos`, owner, name, `commits`, the ref, `check-runs` joined by `/`. */
  lemma ChecksPathPieces(pr: PullRequest)
    ensures ChecksPath(pr) == JoinWith(["repos", pr.repo.owner, pr.repo.name, "commits", CheckRef(pr), "check-runs"], '/')
  {
    var ref := CheckRef(pr);
    var repo := ["repos", pr.repo.owner, pr.repo.name];
    var tail := ["commits", ref, "check-runs"];
    RepoPieces(pr);
    JoinWithCons(ref, ["check-runs"], '/');
    JoinWithCons("commits", [ref, "check-runs"], '/');
    JoinWithAppend(repo, tail, '/');
    assert repo + tail == ["repos", pr.repo.owner, pr.repo.name, "commits", ref, "check-runs"];
  }

  /** The jobs path is the pieces `repos`, owner, name, `actions`, `runs`, the run id, `jobs` joined by `/`. */
  lemma JobsPathPieces(pr: PullRequest, runID: int)
    ensures JobsPath(pr, runID) == JoinWith(["repos", pr.repo.owner, pr.repo.name, "actions", "runs", IntToString(runID), "jobs"], '/')
  {
    var id := IntToString(runID);
    var repo := ["repos", pr.repo.owner, pr.repo.name];
    var tail := ["actions", "runs", id, "jobs"];
    RepoPieces(pr);
    JobsTailPieces(id);
    JoinWithAppend(repo, tail, '/');
    assert repo + tail == ["repos", pr.repo.owner, pr.repo.name, "actions", "runs", id, "jobs"];
    var front := "repos/" + pr.repo.owner + "/" + pr.repo.name;
    assert front + ['/'] + ("actions/runs/" + id + "/jobs") == JobsPath(pr, runID);
  }

  /** The pieces after the repository in the jobs path. */
  lemma JobsTailPieces(id: string)
    ensures JoinWith(["actions", "runs", id, "jobs"], '/') == "actions/runs/" + id + "/jobs"
  {
    JoinWithCons(id, ["jobs"], '/');
    JoinWithCons("runs", [id, "jobs"], '/');
    JoinWithCons("actions", ["runs", id, "jobs"], '/');
    assert "actions" + ['/'] + ("runs" + ['/'] + (id + ['/'] + "jobs")) == "actions/runs/" + id + "/jobs";
  }

  /** The runs call of a plainly named repository is counted as a workflow-runs call. */
  lemma RunsCallClassified(pr: PullRequest)
    requires PlainNames(pr)
    ensures Classify(RunsPath(pr)) == RunsCall
  {
    var front := "repos/" + pr.repo.owner + "/" + pr.repo.name;
    var runs := RunsPath(pr);
    assert runs == front + "/actions/runs";
    RunsPathPieces(pr);
    SplitJoinWith(["repos", pr.repo.owner, pr.repo.name, "actions", "runs"], '/');
    NotAPiece(runs, '/', "pulls", "");
    assert "/pulls/" == ['/'] + "pulls" + ['/'] + "";
    assert runs[0] == 'r' && runs[|runs| - 4] == 'r';
    assert OccursAt(runs, "/actions/runs", |front|) by {
      assert runs[|front|..|front| + 13] == "/actions/runs";
    }
  }

  /** The check-runs path of a plainly named repository and head commit names no pull request and no workflow runs. */
  lemma ChecksPathAvoidsOtherCategories(pr: PullRequest)
    requires PlainNames(pr)
    ensures !Contains(ChecksPath(pr), "/pulls/") && !Contains(ChecksPath(pr), "/actions/runs")
  {
    var checks := ChecksPath(pr);
    ChecksPathPieces(pr);
    SplitJoinWith(["repos", pr.repo.owner, pr.repo.name, "commits", CheckRef(pr), "check-runs"], '/');
    NotAPiece(checks, '/', "pulls", "");
    NotAPiece(checks, '/', "actions", "runs");
    assert "/pulls/" == ['/'] + "pulls" + ['/'] + "";
    assert "/actions/runs" == ['/'] + "actions" + ['/'] + "runs";
  }

  /** The check-runs call of a plainly named repository and head commit is counted as a check-runs call. */
  lemma ChecksCallClassified(pr: PullRequest)
    requires PlainNames(pr)
    ensures Classify(ChecksPath(pr)) == ChecksCall
  {
    var ref := CheckRef(pr);
    var front := "repos/" + pr.repo.owner + "/" + pr.repo.name + "/commits/" + ref;
    var checks := ChecksPath(pr);
    assert checks == front + "/check-runs";
    ChecksPathAvoidsOtherCategories(pr);
    assert !Contains(checks, "/actions/runs/") by {
      assert "/actions/runs/" == "/actions/runs" + "/";
      ContainsLonger(checks, "/actions/runs", "/");
    }
    assert checks[0] == 'r';
    assert OccursAt(checks, "/check-runs", |front|) by {
      assert checks[|front|..|front| + 11] == "/check-runs";
    }
  }

  /** The jobs path of a plainly named repository names no pull request. */
  lemma JobsPathAvoidsPulls(pr: PullRequest, runID: int)
    requires PlainNames(pr)
    ensures !Contains(JobsPath(pr, runID), "/pulls/")
  {
    var id := IntToString(runID);
    assert '/' !in id;
    JobsPathPieces(pr, runID);
    SplitJoinWith(["repos", pr.repo.owner, pr.repo.name, "actions", "runs", id, "jobs"], '/');
    NotAPiece(JobsPath(pr, runID), '/', "pulls", "");
    assert "/pulls/" == ['/'] + "pulls" + ['/'] + "";
  }

  /** The jobs call of a plainly named repository is counted as a jobs call. */
  lemma JobsCallClassified(pr: PullRequest, runID: int)
    requires PlainNames(pr)
    ensures Classify(JobsPath(pr, runID)) == JobsCall
  {
    var front := "repos/" + pr.repo.owner + "/" + pr.repo.name;
    var id := IntToString(runID);
    var jobs := JobsPath(pr, runID);
    assert jobs == front + "/actions/runs/" + id + "/jobs";
    JobsPathAvoidsPulls(pr, runID);
    assert jobs[0] == 'r';
    assert OccursAt(jobs, "/actions/runs/", |front|) by {
      assert jobs[|front|..|front| + 14] == "/actions/runs/";
    }
    assert HasSuffix(jobs, "/jobs") by {
      assert jobs[|jobs| - 5..] == "/jobs";
    }
  }

  /** A repository called `pulls` has its workflow-run calls counted as pull-request detail calls. */
  lemma RunsOfRepositoryNamedPullsCountAsDetail()
    ensures Classify("repos/octo/pulls/actions/runs") == PRDetailCall
  {
    var p := "repos/octo/pulls/actions/runs";
    assert OccursAt(p, "/pulls/", 10);
    assert !HasSuffix(p, "/reviews");
  }

  // ---------------------------------------------------------------- summaries

  /** The runs of the pull request's head commit, in order; every run when the head is unknown. */
  function RunsForPR(headSHA: string, runs: seq<WorkflowRun>): (r: seq<WorkflowRun>)
    ensures |r| <= |runs|
    ensures forall x :: x in r <==> x in runs && (headSHA == "" || x.headSHA == headSHA)
    ensures headSHA == "" ==> r == runs
  {
    if runs == [] then []
    else (if headSHA == "" || runs[0].headSHA == headSHA then [runs[0]] else []) + RunsForPR(headSHA, runs[1..])
  }

  /** Filtering keeps the order of the runs: it distributes over concatenation. */
  lemma {:induction false} RunsForPRAppend(headSHA: string, a: seq<WorkflowRun>, b: seq<WorkflowRun>)
    ensures RunsForPR(headSHA, a + b) == RunsForPR(headSHA, a) + RunsForPR(headSHA, b)
    decreases |a|
  {
    if a == [] {
      assert a + b == b;
    } else {
      assert (a + b)[0] == a[0];
      assert (a + b)[1..] == a[1..] + b;
      RunsForPRAppend(headSHA, a[1..], b);
    }
  }

  /** `workflowState(from:)`: unknown without a run, in progress until completed, then its conclusion. */
  function WorkflowState(run: Option<WorkflowRun>): (s: string)
    ensures run.None? ==> s == "unknown"
    ensures run.Some? && run.value.status != "completed" ==> s == "in_progress"
    ensures run.Some? && run.value.status == "completed" ==> s == OrElse(run.value.conclusion, "neutral")
  {
    match run
    case None => "unknown"
    case Some(r) => if r.status != "completed" then "in_progress" else OrElse(r.conclusion, "neutral")
  }

  function First(runs: seq<WorkflowRun>): Option<WorkflowRun>
  {
    if runs == [] then None else Some(runs[0])
  }

  /** Only the first run decides: runs after it never change the state. */
  lemma WorkflowStateIgnoresLaterRuns(runs: seq<WorkflowRun>, later: seq<WorkflowRun>)
    requires runs != []
    ensures WorkflowState(First(runs + later)) == WorkflowState(First(runs))
  {
    assert (runs + later)[0] == runs[0];
  }

  predicate Unfinished(c: CheckRun) { c.status != "completed" }

  predicate Failed(c: CheckRun)
  {
    c.conclusion == Some("failure") || c.conclusion == Some("timed_out") || c.conclusion == Some("cancelled")
  }

  predicate Succeeded(c: CheckRun) { c.conclusion == Some("success") }

  function AnyUnfinished(cs: seq<CheckRun>): (b: bool)
    ensures b <==> exists i :: 0 <= i < |cs| && Unfinished(cs[i])
  {
    if cs == [] then false
    else
      assert forall i :: 0 < i < |cs| ==> cs[i] == cs[1..][i - 1];
      Unfinished(cs[0]) || AnyUnfinished(cs[1..])
  }

  function AnyFailed(cs: seq<CheckRun>): (b: bool)
    ensures b <==> exists i :: 0 <= i < |cs| && Failed(cs[i])
  {
    if cs == [] then false
    else
      assert forall i :: 0 < i < |cs| ==> cs[i] == cs[1..][i - 1];
      Failed(cs[0]) || AnyFailed(cs[1..])
  }

  function AnySucceeded(cs: seq<CheckRun>): (b: bool)
    ensures b <==> exists i :: 0 <= i < |cs| && Succeeded(cs[i])
  {
    if cs == [] then false
    else
      assert forall i :: 0 < i < |cs| ==> cs[i] == cs[1..][i - 1];
      Succeeded(cs[0]) || AnySucceeded(cs[1..])
  }

  /**
   * `overallCheckState`: an unfinished check wins over a failed one, a failed one over
   * a successful one; with none of these (an empty list included) the state is neutral.
   */
  function OverallCheckState(cs: seq<CheckRun>): (s: string)
    ensures s == "in_progress" <==> exists i :: 0 <= i < |cs| && Unfinished(cs[i])
    ensures s == "failure" <==>
              (forall i :: 0 <= i < |cs| ==> !Unfinished(cs[i])) && exists i :: 0 <= i < |cs| && Failed(cs[i])
    ensures s == "success" <==>
              (forall i :: 0 <= i < |cs| ==> !Unfinished(cs[i]) && !Failed(cs[i])) &&
              exists i :: 0 <= i < |cs| && Succeeded(cs[i])
    ensures s == "neutral" <==>
              forall i :: 0 <= i < |cs| ==> !Unfinished(cs[i]) && !Failed(cs[i]) && !Succeeded(cs[i])
  {
    if AnyUnfinished(cs) then "in_progress"
    else if AnyFailed(cs) then "failure"
    else if AnySucceeded(cs) then "success"
    else "neutral"
  }

  /** The check state is always the raw value of an `ActionState`. */
  lemma CheckStateIsActionState(cs: seq<CheckRun>)
    ensures ActionStateFromRaw(OverallCheckState(cs)).Some?
  {
  }

  // ---------------------------------------------------------------- enrichment

  /** The stored ETags with each of the two responses' ETags, when present, under its key. */
  function ThreadETags(etags: map<string, string>, pr: PullRequest, runsETag: Option<string>, checksETag: Option<string>)
    : (r: map<string, string>)
    ensures r.Keys == etags.Keys + (if runsETag.Some? then {RunsKey(pr)} else {}) +
                      (if checksETag.Some? then {ChecksKey(pr)} else {})
    ensures runsETag.Some? ==> r[RunsKey(pr)] == runsETag.value
    ensures checksETag.Some? ==> r[ChecksKey(pr)] == checksETag.value
  {
    assert RunsKey(pr)[0] == 'r' && ChecksKey(pr)[0] == 'c';
    var afterRuns := if runsETag.Some? then etags[RunsKey(pr) := runsETag.value] else etags;
    if checksETag.Some? then afterRuns[ChecksKey(pr) := checksETag.value] else afterRuns
  }

  /** Only the two keys of this pull request can change, each only when its response carried an ETag. */
  lemma ThreadETagsOnlyTouchesItsKeys(etags: map<string, string>, pr: PullRequest, runsETag: Option<string>,
                                      checksETag: Option<string>, k: string)
    ensures var m := ThreadETags(etags, pr, runsETag, checksETag);
      (k != RunsKey(pr) && k != ChecksKey(pr) ==> (k in m <==> k in etags) && (k in etags ==> m[k] == etags[k])) &&
      (k == RunsKey(pr) ==> Lookup(m, k) == if runsETag.Some? then runsETag else Lookup(etags, k)) &&
      (k == ChecksKey(pr) ==> Lookup(m, k) == if checksETag.Some? then checksETag else Lookup(etags, k))
  {
    assert RunsKey(pr)[0] == 'r' && ChecksKey(pr)[0] == 'c';
  }

  /** What `enrichPRSummary` answers for `pr` given the two calls' answers. */
  function Enriched(pr: PullRequest, etags: map<string, string>, runsAPI: RunsOracle, checksAPI: ChecksOracle)
    : Result<(PullRequest, ActionsDetail, map<string, string>), AppError>
  {
    var runs := runsAPI(RunsRequest(pr, etags));
    var checks := checksAPI(ChecksRequest(pr, etags));
    if runs.Err? then Err(runs.error)
    else if checks.Err? then Err(checks.error)
    else
      var forPR := RunsForPR(pr.headSHA, OrElse(runs.value.value, []));
      var checkRuns := OrElse(checks.value.value, []);
      Ok((pr.(actionsSummary := Some(WorkflowSummary(WorkflowState(First(forPR)), First(forPR))),
              checkSummary := Some(CheckSummary(OverallCheckState(checkRuns), checkRuns))),
          ActionsDetail(forPR, map[]),
          ThreadETags(etags, pr, runs.value.etag, checks.value.etag)))
  }

  /**
   * Enrichment changes nothing of a pull request but its two summaries: id, repository,
   * number, head and update time stay, and so does its stable id.
   */
  lemma EnrichedChangesOnlySummaries(pr: PullRequest, etags: map<string, string>, runsAPI: RunsOracle,
                                     checksAPI: ChecksOracle)
    ensures var r := Enriched(pr, etags, runsAPI, checksAPI);
      r.Ok? ==>
        r.value.0 == pr.(actionsSummary := r.value.0.actionsSummary, checkSummary := r.value.0.checkSummary) &&
        r.value.0.updatedAt == pr.updatedAt && StableID(r.value.0) == StableID(pr) &&
        r.value.0.actionsSummary.Some? && r.value.0.checkSummary.Some?
  {
  }

  /**
   * `enrichPRSummary`. The runs call's error comes first, then the checks call's. A
   * response without a body counts as no runs or no checks. The pull request gains
   * its two summaries and nothing else; the detail lists the head commit's runs with
   * no jobs yet; the ETags of the two responses are stored under their keys.
   */
  method EnrichPRSummary(pr: PullRequest, etags: map<string, string>, runsAPI: RunsOracle, checksAPI: ChecksOracle)
    returns (r: Result<(PullRequest, ActionsDetail, map<string, string>), AppError>)
    ensures r == Enriched(pr, etags, runsAPI, checksAPI)
    ensures var runs := runsAPI(RunsRequest(pr, etags));
      runs.Err? ==> r == Err(runs.error)
    ensures var runs := runsAPI(RunsRequest(pr, etags));
      var checks := checksAPI(ChecksRequest(pr, etags));
      runs.Ok? && checks.Err? ==> r == Err(checks.error)
    ensures var runs := runsAPI(RunsRequest(pr, etags));
      var checks := checksAPI(ChecksRequest(pr, etags));
      runs.Ok? && checks.Ok? ==>
        r.Ok? &&
        var forPR := RunsForPR(pr.headSHA, OrElse(runs.value.value, []));
        var checkRuns := OrElse(checks.value.value, []);
        r.value.0 == pr.(actionsSummary := Some(WorkflowSummary(WorkflowState(First(forPR)), First(forPR))),
                         checkSummary := Some(CheckSummary(OverallCheckState(checkRuns), checkRuns))) &&
        r.value.1 == ActionsDetail(forPR, map[]) &&
        r.value.2 == ThreadETags(etags, pr, runs.value.etag, checks.value.etag)
  {
    var nextPR := pr;
    var nextEtags := etags;
    var runs := runsAPI(RunsRequest(pr, etags));
    var checks := checksAPI(ChecksRequest(pr, etags));
    if runs.Err? {
      return Err(runs.error);
    }
    if checks.Err? {
      return Err(checks.error);
    }
    var mappedRuns := OrElse(runs.value.value, []);
    var runsForPR := RunsForPR(pr.headSHA, mappedRuns);
    if runs.value.etag.Some? {
      nextEtags := nextEtags[RunsKey(pr) := runs.value.etag.value];
    }
    if checks.value.etag.Some? {
      nextEtags := nextEtags[ChecksKey(pr) := checks.value.etag.value];
    }
    nextPR := nextPR.(actionsSummary := Some(WorkflowSummary(WorkflowState(First(runsForPR)), First(runsForPR))));
    var mappedChecks := OrElse(checks.value.value, []);
    nextPR := nextPR.(checkSummary := Some(CheckSummary(OverallCheckState(mappedChecks), mappedChecks)));
    r := Ok((nextPR, ActionsDetail(runsForPR, map[]), nextEtags));
  }

  /** An enriched pull request keeps its identity, so it replaces the right entry of every id-keyed map. */
  lemma EnrichmentKeepsIdentity(pr: PullRequest, a: Option<WorkflowSummary>, c: Option<CheckSummary>)
    ensures StableID(pr.(actionsSummary := a, checkSummary := c)) == StableID(pr)
  {
  }

  // ---------------------------------------------------------------- jobs

  function Take(runs: seq<WorkflowRun>, n: nat): (r: seq<WorkflowRun>)
    ensures |r| <= n && |r| <= |runs| && r == runs[..|r|]
    ensures |runs| >= n ==> |r| == n
  {
    if |runs| <= n then runs else runs[..n]
  }

  /** The run ids of `runs`. */
  function RunIDs(runs: seq<WorkflowRun>): set<int>
  {
    set i | 0 <= i < |runs| :: runs[i].id
  }

  function JobsAnswer(pr: PullRequest, run: WorkflowRun, jobsAPI: JobsOracle): Result<GitHubResponse<seq<Job>>, AppError>
  {
    jobsAPI(JobsRequest(pr, run.id))
  }

  /**
   * What loading the jobs of `runs` one call at a time gives: the first failing call's
   * error, or each run's jobs (none for a body-less answer) under its id, a later run
   * with the same id overwriting an earlier one.
   */
  function JobsLoaded(pr: PullRequest, runs: seq<WorkflowRun>, jobsAPI: JobsOracle): (r: Result<map<int, seq<Job>>, AppError>)
    ensures r.Ok? ==> |r.value| <= |runs|
    ensures r.Err? ==> runs != []
  {
    if runs == [] then Ok(map[])
    else
      var n := |runs| - 1;
      var before := JobsLoaded(pr, runs[..n], jobsAPI);
      var answer := JobsAnswer(pr, runs[n], jobsAPI);
      if before.Err? then before
      else if answer.Err? then Err(answer.error)
      else Ok(before.value[runs[n].id := OrElse(answer.value.value, [])])
  }

  /** The load succeeds exactly when every call does. */
  lemma {:induction false} JobsLoadedOk(pr: PullRequest, runs: seq<WorkflowRun>, jobsAPI: JobsOracle)
    ensures JobsLoaded(pr, runs, jobsAPI).Ok? <==> forall i :: 0 <= i < |runs| ==> JobsAnswer(pr, runs[i], jobsAPI).Ok?
    decreases |runs|
  {
    if runs != [] {
      var n := |runs| - 1;
      var front := runs[..n];
      JobsLoadedOk(pr, front, jobsAPI);
      assert JobsLoaded(pr, runs, jobsAPI).Ok? <==>
             JobsLoaded(pr, front, jobsAPI).Ok? && JobsAnswer(pr, runs[n], jobsAPI).Ok?;
      CallsOkLast(pr, runs, front, jobsAPI);
    }
  }

  /** Every call of a non-empty list succeeds exactly when every call but the last does and the last does. */
  lemma CallsOkLast(pr: PullRequest, runs: seq<WorkflowRun>, front: seq<WorkflowRun>, jobsAPI: JobsOracle)
    requires runs != [] && front == runs[..|runs| - 1]
    ensures (forall i :: 0 <= i < |runs| ==> JobsAnswer(pr, runs[i], jobsAPI).Ok?) <==>
            (forall i :: 0 <= i < |front| ==> JobsAnswer(pr, front[i], jobsAPI).Ok?) &&
            JobsAnswer(pr, runs[|runs| - 1], jobsAPI).Ok?
  {
    assert forall i :: 0 <= i < |front| ==> front[i] == runs[i];
  }

  /** A successful load holds an entry for every run and no other. */
  lemma {:induction false} JobsLoadedKeys(pr: PullRequest, runs: seq<WorkflowRun>, jobsAPI: JobsOracle)
    requires JobsLoaded(pr, runs, jobsAPI).Ok?
    ensures JobsLoaded(pr, runs, jobsAPI).value.Keys == RunIDs(runs)
    decreases |runs|
  {
    if runs != [] {
      var n := |runs| - 1;
      var front := runs[..n];
      var before := JobsLoaded(pr, front, jobsAPI);
      var answer := JobsAnswer(pr, runs[n], jobsAPI);
      assert before.Ok? && answer.Ok?;
      var after := before.value[runs[n].id := OrElse(answer.value.value, [])];
      assert JobsLoaded(pr, runs, jobsAPI).value == after;
      assert after.Keys == before.value.Keys + {runs[n].id};
      JobsLoadedKeys(pr, front, jobsAPI);
      RunIDsLast(runs);
    }
  }

  /** The run ids of a non-empty list are those of all but the last run, and the last run's. */
  lemma RunIDsLast(runs: seq<WorkflowRun>)
    requires runs != []
    ensures RunIDs(runs) == RunIDs(runs[..|runs| - 1]) + {runs[|runs| - 1].id}
  {
    var front := runs[..|runs| - 1];
    assert forall i :: 0 <= i < |front| ==> front[i] == runs[i];
  }

  /** With distinct run ids, each run's entry is exactly the jobs its call returned, or none for a body-less answer. */
  lemma {:induction false} JobsLoadedEntry(pr: PullRequest, runs: seq<WorkflowRun>, jobsAPI: JobsOracle, i: nat)
    requires JobsLoaded(pr, runs, jobsAPI).Ok?
    requires forall a, b :: 0 <= a < b < |runs| ==> runs[a].id != runs[b].id
    requires i < |runs|
    ensures JobsAnswer(pr, runs[i], jobsAPI).Ok?
    ensures runs[i].id in JobsLoaded(pr, runs, jobsAPI).value
    ensures JobsLoaded(pr, runs, jobsAPI).value[runs[i].id] == OrElse(JobsAnswer(pr, runs[i], jobsAPI).value.value, [])
    decreases |runs|
  {
    var n := |runs| - 1;
    var front := runs[..n];
    JobsLoadedLast(pr, runs, jobsAPI);
    if i < n {
      assert front[i] == runs[i];
      DistinctIDsPrefix(runs, n);
      JobsLoadedEntry(pr, front, jobsAPI, i);
      assert runs[n].id != runs[i].id;
      var prior := JobsLoaded(pr, front, jobsAPI).value;
      assert JobsLoaded(pr, runs, jobsAPI).value[runs[i].id] == prior[runs[i].id];
    }
  }

  /** A successful load of a non-empty list is that of all but the last run, with the last run's jobs added. */
  lemma JobsLoadedLast(pr: PullRequest, runs: seq<WorkflowRun>, jobsAPI: JobsOracle)
    requires runs != [] && JobsLoaded(pr, runs, jobsAPI).Ok?
    ensures var n := |runs| - 1;
      var answer := JobsAnswer(pr, runs[n], jobsAPI);
      JobsLoaded(pr, runs[..n], jobsAPI).Ok? && answer.Ok? &&
      JobsLoaded(pr, runs, jobsAPI).value == JobsLoaded(pr, runs[..n], jobsAPI).value[runs[n].id := OrElse(answer.value.value, [])]
  {
  }

  lemma DistinctIDsPrefix(runs: seq<WorkflowRun>, n: nat)
    requires n <= |runs| && forall a, b :: 0 <= a < b < |runs| ==> runs[a].id != runs[b].id
    ensures forall a, b :: 0 <= a < b < n ==> runs[..n][a].id != runs[..n][b].id
  {
  }

  /** A failed load carries the error of the first call that failed; every call before it succeeded. */
  lemma {:induction false} JobsLoadedErr(pr: PullRequest, runs: seq<WorkflowRun>, jobsAPI: JobsOracle)
    requires JobsLoaded(pr, runs, jobsAPI).Err?
    ensures exists i :: 0 <= i < |runs| && JobsAnswer(pr, runs[i], jobsAPI) == Err(JobsLoaded(pr, runs, jobsAPI).error) &&
                        forall k :: 0 <= k < i ==> JobsAnswer(pr, runs[k], jobsAPI).Ok?
    decreases |runs|
  {
    var n := |runs| - 1;
    var front := runs[..n];
    assert forall k :: 0 <= k < n ==> front[k] == runs[k];
    if JobsLoaded(pr, front, jobsAPI).Err? {
      JobsLoadedErr(pr, front, jobsAPI);
      var i :| 0 <= i < |front| && JobsAnswer(pr, front[i], jobsAPI) == Err(JobsLoaded(pr, front, jobsAPI).error) &&
               forall k :: 0 <= k < i ==> JobsAnswer(pr, front[k], jobsAPI).Ok?;
      assert JobsAnswer(pr, runs[i], jobsAPI) == Err(JobsLoaded(pr, runs, jobsAPI).error);
    } else {
      JobsLoadedOk(pr, front, jobsAPI);
      assert JobsAnswer(pr, runs[n], jobsAPI) == Err(JobsLoaded(pr, runs, jobsAPI).error);
    }
  }

  /** `loadJobs`: the jobs of the first two runs (at most), one call each in order; the first failing call ends the load. */
  method LoadJobs(pr: PullRequest, runs: seq<WorkflowRun>, jobsAPI: JobsOracle)
    returns (r: Result<map<int, seq<Job>>, AppError>)
    ensures r == JobsLoaded(pr, Take(runs, 2), jobsAPI)
  {
    var first := Take(runs, 2);
    var jobsByRunID: map<int, seq<Job>> := map[];
    var i := 0;
    while i < |first|
      invariant 0 <= i <= |first|
      invariant JobsLoaded(pr, first[..i], jobsAPI) == Ok(jobsByRunID)
    {
      var run := first[i];
      var response := jobsAPI(JobsRequest(pr, run.id));
      assert first[..i + 1][..i] == first[..i];
      if response.Err? {
        return Err(response.error);
      }
      jobsByRunID := jobsByRunID[run.id := OrElse(response.value.value, [])];
      i := i + 1;
    }
    assert first[..i] == first;
    r := Ok(jobsByRunID);
  }
}
