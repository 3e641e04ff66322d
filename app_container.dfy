/**
 * The app's shared state: `AppContainer` with its scheduler policy and mutators,
 * the pinned-list `MonitorStore`, and `PRSelectionState`. Persistence to disk and
 * to user defaults is left out.
 */
module Container {
  import opened Wrappers
  import opened Errors
  import opened Models
  import opened Scheduling

  // ---------------------------------------------------------------- monitor store

  /** `removeAll { $0 == x }`: every occurrence of `x` is dropped, the rest keep their order. */
  function Without(xs: seq<string>, x: string): (r: seq<string>)
    ensures |r| <= |xs|
    ensures forall y :: y in r <==> y in xs && y != x
  {
    if xs == [] then []
    else (if xs[0] == x then [] else [xs[0]]) + Without(xs[1..], x)
  }

  /** Removing keeps the survivors in their order: it distributes over concatenation. */
  lemma {:induction false} WithoutAppend(a: seq<string>, b: seq<string>, x: string)
    ensures Without(a + b, x) == Without(a, x) + Without(b, x)
    decreases |a|
  {
    if a == [] {
      assert a + b == b;
    } else {
      assert (a + b)[0] == a[0];
      assert (a + b)[1..] == a[1..] + b;
      WithoutAppend(a[1..], b, x);
    }
  }

  predicate NoDuplicates(xs: seq<string>)
  {
    forall i, j :: 0 <= i < j < |xs| ==> xs[i] != xs[j]
  }

  /** Removing from a list without repeats leaves a list without repeats. */
  lemma {:induction false} WithoutKeepsNoDuplicates(xs: seq<string>, x: string)
    requires NoDuplicates(xs)
    ensures NoDuplicates(Without(xs, x))
    decreases |xs|
  {
    if xs != [] {
      assert NoDuplicates(xs[1..]) by {
        forall i, j | 0 <= i < j < |xs[1..]| ensures xs[1..][i] != xs[1..][j] {
          assert xs[1..][i] == xs[i + 1] && xs[1..][j] == xs[j + 1];
        }
      }
      WithoutKeepsNoDuplicates(xs[1..], x);
      assert xs[0] !in xs[1..] by {
        forall i | 0 <= i < |xs[1..]| ensures xs[1..][i] != xs[0] {
          assert xs[1..][i] == xs[i + 1];
        }
      }
      var rest := Without(xs[1..], x);
      assert xs[0] !in rest;
      var head: seq<string> := if xs[0] == x then [] else [xs[0]];
      forall i, j | 0 <= i < j < |head + rest| ensures (head + rest)[i] != (head + rest)[j] {
        if head != [] && i == 0 {
          assert (head + rest)[j] == rest[j - 1];
          assert rest[j - 1] in rest;
        } else {
          assert (head + rest)[i] == rest[i - |head|] && (head + rest)[j] == rest[j - |head|];
        }
      }
    }
  }

  class MonitorStore {
    var pinnedPRIDs: seq<string>
    var autoRefreshPaused: bool

    /** Starts from what was persisted. */
    constructor (pinned: seq<string>, paused: bool)
      ensures pinnedPRIDs == pinned && autoRefreshPaused == paused
    {
      pinnedPRIDs := pinned;
      autoRefreshPaused := paused;
    }

    /** `pin(_:)`: append the id unless it is already pinned. */
    method Pin(prID: string)
      modifies this
      ensures prID in old(pinnedPRIDs) ==> pinnedPRIDs == old(pinnedPRIDs)
      ensures prID !in old(pinnedPRIDs) ==> pinnedPRIDs == old(pinnedPRIDs) + [prID]
      ensures prID in pinnedPRIDs
      ensures NoDuplicates(old(pinnedPRIDs)) ==> NoDuplicates(pinnedPRIDs)
      ensures autoRefreshPaused == old(autoRefreshPaused)
    {
      if prID in pinnedPRIDs {
        return;
      }
      pinnedPRIDs := pinnedPRIDs + [prID];
    }

    /** `remove(_:)`: every occurrence goes, the other ids keep their order. */
    method Remove(prID: string)
      modifies this
      ensures pinnedPRIDs == Without(old(pinnedPRIDs), prID)
      ensures prID !in pinnedPRIDs
      ensures NoDuplicates(old(pinnedPRIDs)) ==> NoDuplicates(pinnedPRIDs)
      ensures autoRefreshPaused == old(autoRefreshPaused)
    {
      if NoDuplicates(pinnedPRIDs) {
        WithoutKeepsNoDuplicates(pinnedPRIDs, prID);
      }
      pinnedPRIDs := Without(pinnedPRIDs, prID);
    }

    /** `setPaused(_:)`. */
    method SetPaused(paused: bool)
      modifies this
      ensures autoRefreshPaused == paused && pinnedPRIDs == old(pinnedPRIDs)
    {
      autoRefreshPaused := paused;
    }
  }

  // ---------------------------------------------------------------- selection

  class PRSelectionState {
    var selectedPRID: Option<string>

    constructor ()
      ensures selectedPRID.None?
    {
      selectedPRID := None;
    }

    /** `select(_:)`: the stable id of the pull request, or nothing. */
    method Select(pr: Option<PullRequest>)
      modifies this
      ensures pr.None? ==> selectedPRID.None?
      ensures pr.Some? ==> selectedPRID == Some(StableID(pr.value))
    {
      selectedPRID := if pr.Some? then Some(StableID(pr.value)) else None;
    }
  }

  // ---------------------------------------------------------------- scheduler policy

  /** The slowest interval used while the rate limit runs low, in seconds. */
  const SlowInterval := 180

  /** `configureScheduler`'s interval: at least three minutes while fewer than 100 calls remain (but some do). */
  function ScheduledInterval(remaining: int, base: int): (i: int)
    ensures i >= base
    ensures 0 < remaining < 100 ==> i >= SlowInterval
    ensures i != base ==> 0 < remaining < 100 && i == SlowInterval
  {
    if 0 < remaining < 100 then (if base < SlowInterval then SlowInterval else base) else base
  }

  /** The interval is never below the configured one, slows down only when the rate limit is low, and then to at least 180 seconds. */
  lemma ScheduledIntervalBounds(remaining: int, base: int)
    ensures ScheduledInterval(remaining, base) >= base
    ensures ScheduledInterval(remaining, base) != base ==> 0 < remaining < 100 && base < SlowInterval
    ensures 0 < remaining < 100 ==> ScheduledInterval(remaining, base) >= SlowInterval
    ensures !(0 < remaining < 100) ==> ScheduledInterval(remaining, base) == base
  {
  }

  /** Auto-refresh runs iff the settings enable it and the monitor has not paused it. */
  function SchedulerEnabled(settings: AppSettings, paused: bool): (enabled: bool)
    ensures enabled ==> settings.autoRefreshEnabled && !paused
    ensures settings.autoRefreshEnabled && !paused ==> enabled
  {
    settings.autoRefreshEnabled && !paused
  }

  /** The default settings refresh every 60 seconds, slowed to 180 while the rate limit runs low, unless auto-refresh is paused. */
  lemma DefaultSchedulerPolicy(remaining: int)
    ensures SchedulerEnabled(DefaultAppSettings, false) && !SchedulerEnabled(DefaultAppSettings, true)
    ensures ScheduledInterval(remaining, DefaultAppSettings.refreshInterval) == if 0 < remaining < 100 then 180 else 60
  {
  }

  // ---------------------------------------------------------------- container

  /** The data fields of `AppContainer`; the services and stores it owns are left out. */
  datatype ContainerFields = ContainerFields(
    settings: AppSettings,
    user: Option<Identity>,
    orgs: seq<Identity>,
    pullRequests: seq<PullRequest>,
    selectedPRIDs: set<string>,
    actionsByPRID: map<string, ActionsDetail>,
    isLoading: bool,
    errorMessage: Option<AppError>,
    tokenStatus: string,
    rateLimitInfo: RateLimitInfo,
    loadingJobsPRIDs: set<string>,
    etags: map<string, string>)

  class AppContainer {
    var settings: AppSettings
    var user: Option<Identity>
    var orgs: seq<Identity>
    var pullRequests: seq<PullRequest>
    var selectedPRIDs: set<string>
    var actionsByPRID: map<string, ActionsDetail>
    var isLoading: bool
    var errorMessage: Option<AppError>
    var tokenStatus: string
    var rateLimitInfo: RateLimitInfo
    var loadingJobsPRIDs: set<string>
    var etags: map<string, string>
    const selectionState: PRSelectionState
    const monitorStore: MonitorStore
    const refreshScheduler: RefreshScheduler

    /** Starts from the cached state, with no actions loaded. */
    constructor (cachedSettings: AppSettings, cachedUser: Option<Identity>, cachedOrgs: seq<Identity>,
                 cachedPRs: seq<PullRequest>, cachedSelection: seq<string>, cachedETags: map<string, string>,
                 pinned: seq<string>, paused: bool)
      ensures settings == cachedSettings && user == cachedUser && orgs == cachedOrgs
      ensures pullRequests == cachedPRs && etags == cachedETags && actionsByPRID == map[]
      ensures selectedPRIDs == set i | 0 <= i < |cachedSelection| :: cachedSelection[i]
      ensures !isLoading && errorMessage.None? && loadingJobsPRIDs == {} && rateLimitInfo == NoRateLimitInfo
      ensures fresh(selectionState) && fresh(monitorStore) && fresh(refreshScheduler)
      ensures monitorStore.pinnedPRIDs == pinned && monitorStore.autoRefreshPaused == paused
      ensures refreshScheduler.State() == Initial
    {
      settings := cachedSettings;
      user := cachedUser;
      orgs := cachedOrgs;
      pullRequests := cachedPRs;
      selectedPRIDs := set i | 0 <= i < |cachedSelection| :: cachedSelection[i];
      etags := cachedETags;
      actionsByPRID := map[];
      isLoading := false;
      errorMessage := None;
      tokenStatus := "Token not validated";
      rateLimitInfo := NoRateLimitInfo;
      loadingJobsPRIDs := {};
      selectionState := new PRSelectionState();
      monitorStore := new MonitorStore(pinned, paused);
      refreshScheduler := new RefreshScheduler();
    }

    /** `configureScheduler()`: the timer restarts with the adaptive interval, or stops when auto-refresh is off or paused. */
    method ConfigureScheduler()
      modifies refreshScheduler
      ensures refreshScheduler.State() ==
              Apply(old(refreshScheduler.State()),
                   Event.Configure(ScheduledInterval(rateLimitInfo.remaining, settings.refreshInterval),
                                   SchedulerEnabled(settings, monitorStore.autoRefreshPaused)))
    {
      var remaining := rateLimitInfo.remaining;
      var base := settings.refreshInterval;
      var slowed := if remaining > 0 && remaining < 100 then (if base < SlowInterval then SlowInterval else base) else base;
      var enabled := settings.autoRefreshEnabled && !monitorStore.autoRefreshPaused;
      refreshScheduler.Configure(slowed, enabled);
    }

    /** Every field of the container that holds data, as one value. */
    function Fields(): ContainerFields
      reads this
    {
      ContainerFields(settings, user, orgs, pullRequests, selectedPRIDs, actionsByPRID, isLoading,
                      errorMessage, tokenStatus, rateLimitInfo, loadingJobsPRIDs, etags)
    }

    /** `setETag(_:for:)`: only that key changes. */
    method SetETag(value: string, key: string)
      modifies this
      ensures Fields() == old(Fields()).(etags := old(etags)[key := value])
      ensures key in etags && etags[key] == value
      ensures forall k :: k != key ==> (k in etags <==> k in old(etags)) && (k in etags ==> etags[k] == old(etags)[k])
    {
      etags := etags[key := value];
    }

    /** `replaceETags(_:)`: the ETag store becomes exactly the given map. */
    method ReplaceETags(value: map<string, string>)
      modifies this
      ensures Fields() == old(Fields()).(etags := value)
    {
      etags := value;
    }

    /** `setLoadingJobs(_:prID:)`: insert or remove that id only. */
    method SetLoadingJobs(loading: bool, prID: string)
      modifies this
      ensures loading ==> Fields() == old(Fields()).(loadingJobsPRIDs := old(loadingJobsPRIDs) + {prID})
      ensures !loading ==> Fields() == old(Fields()).(loadingJobsPRIDs := old(loadingJobsPRIDs) - {prID})
      ensures (prID in loadingJobsPRIDs <==> loading)
      ensures forall k :: k != prID ==> (k in loadingJobsPRIDs <==> k in old(loadingJobsPRIDs))
    {
      if loading {
        loadingJobsPRIDs := loadingJobsPRIDs + {prID};
      } else {
        loadingJobsPRIDs := loadingJobsPRIDs - {prID};
      }
    }
  }
}
