/** The value types shared by the services and view models. Dates are integer seconds. */
module Models {
  import opened Wrappers
  import opened Text

  datatype RepoRef = RepoRef(owner: string, name: string)

  /** `RepoRef.fullName`: `owner/name`. */
  function FullName(r: RepoRef): (s: string)
    ensures |s| == |r.owner| + 1 + |r.name|
    ensures s[..|r.owner|] == r.owner && s[|r.owner|] == '/' && s[|r.owner| + 1..] == r.name
  {
    r.owner + "/" + r.name
  }

  datatype PullRequest = PullRequest(
    id: int,
    number: int,
    repo: RepoRef,
    title: string,
    isDraft: bool,
    state: string,
    headRef: string,
    headSHA: string,
    updatedAt: int,
    htmlURL: string,
    reviewState: Option<string>,
    checkSummary: Option<CheckSummary>,
    actionsSummary: Option<WorkflowSummary>)

  /** `PullRequest.stableID`: `owner/name#number`, the key of every deduplication and lookup. */
  function StableID(pr: PullRequest): string
  {
    FullName(pr.repo) + "#" + IntToString(pr.number)
  }

  datatype WorkflowRun = WorkflowRun(
    id: int,
    name: string,
    status: string,
    conclusion: Option<string>,
    htmlURL: string,
    createdAt: int,
    updatedAt: int,
    headSHA: string)

  datatype Step = Step(name: string, status: string, conclusion: Option<string>, number: int)

  datatype Job = Job(
    id: int,
    name: string,
    status: string,
    conclusion: Option<string>,
    startedAt: Option<int>,
    completedAt: Option<int>,
    steps: seq<Step>)

  datatype CheckRun = CheckRun(
    id: int,
    name: string,
    status: string,
    conclusion: Option<string>,
    detailsURL: Option<string>,
    summary: Option<string>)

  datatype CheckSummary = CheckSummary(state: string, runs: seq<CheckRun>)

  datatype WorkflowSummary = WorkflowSummary(state: string, latestRun: Option<WorkflowRun>)

  datatype Identity = Identity(login: string, avatarURL: Option<string>)

  datatype ScopeSettings = ScopeSettings(
    personalEnabled: bool,
    organizationsEnabled: bool,
    selectedOrgs: set<string>,
    repoAllowlist: seq<string>)

  /** `PopoverScopeSelection`. */
  datatype ScopeSelection = All | Personal | Organization(org: string)

  datatype AppSettings = AppSettings(
    refreshInterval: int,
    autoRefreshEnabled: bool,
    includeDrafts: bool,
    includeClosed: bool,
    openOnly: bool,
    limit: int,
    scope: ScopeSettings,
    quickScope: ScopeSelection)

  const DefaultScopeSettings := ScopeSettings(true, true, {}, [])

  const DefaultAppSettings := AppSettings(60, true, true, false, true, 50, DefaultScopeSettings, All)

  datatype ActionsDetail = ActionsDetail(runs: seq<WorkflowRun>, jobsByRunID: map<int, seq<Job>>)

  const EmptyActionsDetail := ActionsDetail([], map[])

  datatype ActionState = Success | Failure | InProgress | Neutral

  /** `ActionState(rawValue:)`. */
  function ActionStateFromRaw(raw: string): (r: Option<ActionState>)
    ensures r.Some? <==> raw in {"success", "failure", "in_progress", "neutral"}
  {
    if raw == "success" then Some(Success)
    else if raw == "failure" then Some(Failure)
    else if raw == "in_progress" then Some(InProgress)
    else if raw == "neutral" then Some(Neutral)
    else None
  }

  /** `ActionState.rawValue`; reading a raw value back gives the same case. */
  function RawValue(s: ActionState): (raw: string)
    ensures ActionStateFromRaw(raw) == Some(s)
  {
    match s
    case Success => "success"
    case Failure => "failure"
    case InProgress => "in_progress"
    case Neutral => "neutral"
  }

  /** `ActionState.sfSymbol`. */
  function SfSymbol(s: ActionState): (name: string)
    ensures |name| > 5 && name[|name| - 5..] == ".fill"
  {
    match s
    case Success => "checkmark.circle.fill"
    case Failure => "xmark.octagon.fill"
    case InProgress => "arrow.triangle.2.circlepath.circle.fill"
    case Neutral => "minus.circle.fill"
  }

  /** The four states are drawn with four different symbols. */
  lemma SfSymbolInjective(a: ActionState, b: ActionState)
    requires SfSymbol(a) == SfSymbol(b)
    ensures a == b
  {
  }

  /** An owner and a name as the remote API returns them: non-empty, without `/` or `#`. */
  predicate WellFormedRepo(r: RepoRef)
  {
    r.owner != [] && r.name != [] && '/' !in r.owner && '/' !in r.name && '#' !in r.owner && '#' !in r.name
  }

  /** Splitting a full name on `/` gives back the owner and the name. */
  lemma FullNameSplits(r: RepoRef)
    requires r.owner != [] && r.name != [] && '/' !in r.owner && '/' !in r.name
    ensures Split(FullName(r), '/') == [r.owner, r.name]
  {
    SplitConcat(r.owner, '/', r.name);
    SplitSingle(r.owner, '/');
    SplitSingle(r.name, '/');
  }

  /** Two pull requests of well-formed repositories share a stable id only if they share repository and number. */
  lemma StableIDInjective(a: PullRequest, b: PullRequest)
    requires WellFormedRepo(a.repo) && WellFormedRepo(b.repo)
    requires StableID(a) == StableID(b)
    ensures a.repo == b.repo && a.number == b.number
  {
    var fa, fb := FullName(a.repo), FullName(b.repo);
    assert '#' !in fa && '#' !in fb;
    var s := StableID(a);
    assert s == fa + ['#'] + IntToString(a.number);
    assert s == fb + ['#'] + IntToString(b.number);
    ChunkLengthConcat(fa, '#', IntToString(a.number));
    ChunkLengthConcat(fb, '#', IntToString(b.number));
    assert |fa| == ChunkLength(s, '#') == |fb|;
    assert fa == s[..|fa|] == fb;
    assert IntToString(a.number) == s[|fa| + 1..] == IntToString(b.number);
    IntToStringInjective(a.number, b.number);
    FullNameSplits(a.repo);
    FullNameSplits(b.repo);
  }
}
