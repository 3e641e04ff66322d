/**
 * `PRDetailsCache` and `PRDetailsViewModel.load`: the expanded details of one pull
 * request, cached for 45 seconds. The clock is an explicit `now` in seconds; the
 * service calls `load` makes are given as their results.
 */
module Details {
  import opened Wrappers
  import opened Errors
  import opened Models
  import Search

  /** `PRExpandedDetails`. */
  datatype ExpandedDetails = ExpandedDetails(
    repoFullName: string,
    number: int,
    title: string,
    isDraft: bool,
    author: string,
    updatedAt: int,
    labels: seq<string>,
    assignees: seq<string>,
    reviewers: seq<string>,
    mergeableState: Option<string>,
    headSHA: string,
    branch: string,
    htmlURL: string,
    checkSummary: Option<CheckSummary>,
    actions: ActionsDetail)

  /** The time to live of a cache entry, in seconds. */
  const TTL := 45

  type Store = map<string, (int, ExpandedDetails)>

  /** What `get` returns: the stored details when the entry was inserted at most 45 seconds ago. */
  function Lookup(store: Store, id: string, now: int): (r: Option<ExpandedDetails>)
    ensures r.Some? <==> id in store && now - store[id].0 <= TTL
    ensures r.Some? ==> r.value == store[id].1
  {
    if id in store && now - store[id].0 <= TTL then Some(store[id].1) else None
  }

  /** The store after `get`: a missing or stale entry is evicted, nothing else changes. */
  function AfterGet(store: Store, id: string, now: int): (r: Store)
    ensures Lookup(store, id, now).Some? ==> r == store
    ensures Lookup(store, id, now).None? ==> id !in r && forall k :: k != id ==> (k in r <==> k in store)
    ensures forall k :: k in r ==> k in store && r[k] == store[k]
  {
    if Lookup(store, id, now).Some? then store else store - {id}
  }

  /** A `get` at the instant of the preceding `set`, or up to 45 seconds later, returns what was set. */
  lemma SetThenGet(store: Store, id: string, d: ExpandedDetails, setAt: int, now: int)
    requires setAt <= now <= setAt + TTL
    ensures Lookup(store[id := (setAt, d)], id, now) == Some(d)
  {
  }

  /** After 45 seconds the entry is gone: the read misses and evicts it. */
  lemma ExpiredEntryIsEvicted(store: Store, id: string, d: ExpandedDetails, setAt: int, now: int)
    requires now > setAt + TTL
    ensures Lookup(store[id := (setAt, d)], id, now) == None
    ensures id !in AfterGet(store[id := (setAt, d)], id, now)
  {
  }

  /** Reading again at the same instant finds the same answer and leaves the store as the first read left it. */
  lemma GetIsRepeatable(store: Store, id: string, now: int)
    ensures Lookup(AfterGet(store, id, now), id, now) == Lookup(store, id, now)
    ensures AfterGet(AfterGet(store, id, now), id, now) == AfterGet(store, id, now)
  {
  }

  /** A read of one id neither evicts nor changes what another id would read. */
  lemma GetLeavesOtherIdsAlone(store: Store, id: string, other: string, now: int, later: int)
    requires other != id
    ensures Lookup(AfterGet(store, id, now), other, later) == Lookup(store, other, later)
  {
  }

  class PRDetailsCache {
    var store: Store

    constructor ()
      ensures store == map[]
    {
      store := map[];
    }

    /** `get(_:)` at time `now`. */
    method Get(id: string, now: int) returns (r: Option<ExpandedDetails>)
      modifies this
      ensures r == Lookup(old(store), id, now)
      ensures store == AfterGet(old(store), id, now)
    {
      if id in store && now - store[id].0 <= TTL {
        return Some(store[id].1);
      }
      store := store - {id};
      r := None;
    }

    /** `set(_:_:)` at time `now`: the entry for `id` is replaced, stamped `now`. */
    method Set(id: string, now: int, details: ExpandedDetails)
      modifies this
      ensures store == old(store)[id := (now, details)]
    {
      store := store[id := (now, details)];
    }
  }

  /** The expanded details `load` builds from the four service answers. */
  function Expand(summaryPR: PullRequest, metadata: Search.PRMetadata, actions: ActionsDetail, jobs: map<int, seq<Job>>): (e: ExpandedDetails)
    ensures e.repoFullName == FullName(summaryPR.repo) && e.number == summaryPR.number
    ensures e.author == metadata.author && e.headSHA == metadata.headSHA && e.branch == metadata.branch
    ensures e.checkSummary == summaryPR.checkSummary
    ensures e.actions == ActionsDetail(actions.runs, jobs)
  {
    ExpandedDetails(
      FullName(summaryPR.repo), summaryPR.number, summaryPR.title, summaryPR.isDraft,
      metadata.author, summaryPR.updatedAt, metadata.labels, metadata.assignees, metadata.reviewers,
      metadata.mergeableState, metadata.headSHA, metadata.branch, summaryPR.htmlURL,
      summaryPR.checkSummary, actions.(jobsByRunID := jobs))
  }

  /** The keychain produced a non-empty token. */
  predicate HasToken(token: Result<Option<string>, AppError>)
  {
    token.Ok? && token.value.Some? && token.value.value != ""
  }

  /**
   * The `do` block of `load`: a missing or empty token first, then the detail, the
   * metadata, the enrichment and the jobs, each answer's error in that order.
   */
  function LoadOutcome(token: Result<Option<string>, AppError>,
                       enriched: Result<PullRequest, AppError>,
                       metadata: Result<Search.PRMetadata, AppError>,
                       summary: Result<(PullRequest, ActionsDetail, map<string, string>), AppError>,
                       jobs: Result<map<int, seq<Job>>, AppError>): (r: Result<ExpandedDetails, AppError>)
    ensures token.Err? ==> r == Err(token.error)
    ensures token.Ok? && (token.value.None? || token.value == Some("")) ==> r == Err(MissingToken)
    ensures r.Ok? <==> HasToken(token) && enriched.Ok? && metadata.Ok? && summary.Ok? && jobs.Ok?
    ensures r.Ok? ==> r.value == Expand(summary.value.0, metadata.value, summary.value.1, jobs.value)
    ensures HasToken(token) && enriched.Err? ==> r == Err(enriched.error)
    ensures HasToken(token) && enriched.Ok? && metadata.Err? ==> r == Err(metadata.error)
    ensures HasToken(token) && enriched.Ok? && metadata.Ok? && summary.Err? ==> r == Err(summary.error)
    ensures HasToken(token) && enriched.Ok? && metadata.Ok? && summary.Ok? && jobs.Err? ==> r == Err(jobs.error)
  {
    if token.Err? then Err(token.error)
    else if token.value.None? || token.value.value == "" then Err(MissingToken)
    else if enriched.Err? then Err(enriched.error)
    else if metadata.Err? then Err(metadata.error)
    else if summary.Err? then Err(summary.error)
    else if jobs.Err? then Err(jobs.error)
    else Ok(Expand(summary.value.0, metadata.value, summary.value.1, jobs.value))
  }

  /** `PRDetailsViewModel`: the published details, loading flag and error, and its own cache. */
  class PRDetailsViewModel {
    var details: Option<ExpandedDetails>
    var isLoading: bool
    var error: Option<AppError>
    const cache: PRDetailsCache

    constructor ()
      ensures details.None? && !isLoading && error.None? && fresh(cache) && cache.store == map[]
    {
      details := None;
      isLoading := false;
      error := None;
      cache := new PRDetailsCache();
    }

    /**
     * `load(pr:)`, looking the cache up at time `now` and storing fetched details at
     * the later time `stored` (after the service calls), given the keychain's answer
     * and the four service answers, all about `pr`: `enriched` is `fetchPRDetail` of it,
     * `metadata` its metadata call, `summary` `enrichPRSummary` of the detailed pull
     * request, and `jobs` the jobs of the first runs in that summary's detail. No pull
     * request clears the details and touches nothing else; a cache hit
     * shows the cached details and leaves the flags alone; otherwise loading starts,
     * and either the new details are cached and shown, or the error is recorded
     * (a cancellation only stops loading).
     */
    method Load(pr: Option<PullRequest>, now: int, stored: int,
                token: Result<Option<string>, AppError>,
                enriched: Result<PullRequest, AppError>,
                metadata: Result<Search.PRMetadata, AppError>,
                summary: Result<(PullRequest, ActionsDetail, map<string, string>), AppError>,
                jobs: Result<map<int, seq<Job>>, AppError>)
      modifies this, cache
      ensures pr.None? ==> details.None? && isLoading == old(isLoading) && error == old(error) &&
                           cache.store == old(cache.store)
      ensures pr.Some? && Lookup(old(cache.store), StableID(pr.value), now).Some? ==>
                details == Lookup(old(cache.store), StableID(pr.value), now) &&
                isLoading == old(isLoading) && error == old(error) && cache.store == old(cache.store)
      ensures pr.Some? && Lookup(old(cache.store), StableID(pr.value), now).None? ==>
                var id := StableID(pr.value);
                var outcome := LoadOutcome(token, enriched, metadata, summary, jobs);
                !isLoading &&
                (outcome.Ok? ==> details == Some(outcome.value) && error.None? &&
                                 cache.store == AfterGet(old(cache.store), id, now)[id := (stored, outcome.value)]) &&
                (outcome.Err? ==> details == old(details) && cache.store == AfterGet(old(cache.store), id, now) &&
                                  error == (if outcome.error == Cancelled then None else Some(outcome.error)))
    {
      if pr.None? {
        details := None;
        return;
      }
      var id := StableID(pr.value);
      var cached := cache.Get(id, now);
      if cached.Some? {
        details := cached;
        return;
      }
      isLoading := true;
      error := None;
      var outcome := LoadOutcome(token, enriched, metadata, summary, jobs);
      if outcome.Ok? {
        cache.Set(id, stored, outcome.value);
        details := Some(outcome.value);
        isLoading := false;
      } else if outcome.error == Cancelled {
        isLoading := false;
      } else {
        error := Some(outcome.error);
        isLoading := false;
      }
    }
  }
}
