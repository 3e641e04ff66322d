/**
 * The conditional-GET layer: a per-endpoint call counter, the rate-limit record
 * read from every HTTP response, and the decision that turns a response into a
 * value, a "not modified" marker or an error.
 *
 * The network is not modelled: `Get` receives what the URL session produced
 * (`Transport`), with the response headers keyed by lower-case field name and
 * the body already run through the JSON decoder (`Decoding`).
 */
module Client {
  import opened Wrappers
  import opened Text
  import opened Errors

  // ---------------------------------------------------------------- call metrics

  datatype APIMetrics = APIMetrics(
    total: int,
    search: int,
    prDetails: int,
    reviews: int,
    actionsRuns: int,
    checks: int,
    jobs: int,
    identity: int,
    orgs: int,
    other: int)

  const NoMetrics := APIMetrics(0, 0, 0, 0, 0, 0, 0, 0, 0, 0)

  /** The counter a call is tallied under. */
  datatype Category =
    | IdentityCall | OrgsCall | SearchCall | ReviewsCall | PRDetailCall
    | JobsCall | RunsCall | ChecksCall | OtherCall

  /** The category of a request path, decided in the order `APIMetricsTracker.record` checks the path. */
  function Classify(path: string): (c: Category)
    ensures c == IdentityCall <==> path == "user"
    ensures c == OrgsCall <==> path == "user/orgs"
    ensures c == SearchCall <==> path == "search/issues"
    ensures c == ReviewsCall || c == PRDetailCall ==> Contains(path, "/pulls/")
    ensures c == JobsCall ==> !Contains(path, "/pulls/") && Contains(path, "/actions/runs/") && HasSuffix(path, "/jobs")
    ensures c == OtherCall ==> !Contains(path, "/pulls/") && !Contains(path, "/actions/runs") && !Contains(path, "/check-runs")
  {
    if path == "user" then IdentityCall
    else if path == "user/orgs" then OrgsCall
    else if path == "search/issues" then SearchCall
    else if Contains(path, "/pulls/") && HasSuffix(path, "/reviews") then ReviewsCall
    else if Contains(path, "/pulls/") then PRDetailCall
    else if Contains(path, "/actions/runs/") && HasSuffix(path, "/jobs") then JobsCall
    else if Contains(path, "/actions/runs") then RunsCall
    else if Contains(path, "/check-runs") then ChecksCall
    else OtherCall
  }

  function CategoryCount(m: APIMetrics, c: Category): int
  {
    match c
    case IdentityCall => m.identity
    case OrgsCall => m.orgs
    case SearchCall => m.search
    case ReviewsCall => m.reviews
    case PRDetailCall => m.prDetails
    case JobsCall => m.jobs
    case RunsCall => m.actionsRuns
    case ChecksCall => m.checks
    case OtherCall => m.other
  }

  function CategorySum(m: APIMetrics): int
  {
    m.identity + m.orgs + m.search + m.reviews + m.prDetails + m.jobs + m.actionsRuns + m.checks + m.other
  }

  /** The counters are consistent: every call is in exactly one category. */
  predicate Balanced(m: APIMetrics)
  {
    m.total == CategorySum(m)
  }

  /** One more call of category `c`: the total and that category go up by one, nothing else moves. */
  function Counted(m: APIMetrics, c: Category): (r: APIMetrics)
    ensures r.total == m.total + 1
    ensures forall d :: CategoryCount(r, d) == CategoryCount(m, d) + (if d == c then 1 else 0)
    ensures CategorySum(r) == CategorySum(m) + 1
    ensures Balanced(m) ==> Balanced(r)
  {
    var m' := m.(total := m.total + 1);
    match c
    case IdentityCall => m'.(identity := m.identity + 1)
    case OrgsCall => m'.(orgs := m.orgs + 1)
    case SearchCall => m'.(search := m.search + 1)
    case ReviewsCall => m'.(reviews := m.reviews + 1)
    case PRDetailCall => m'.(prDetails := m.prDetails + 1)
    case JobsCall => m'.(jobs := m.jobs + 1)
    case RunsCall => m'.(actionsRuns := m.actionsRuns + 1)
    case ChecksCall => m'.(checks := m.checks + 1)
    case OtherCall => m'.(other := m.other + 1)
  }

  /** `APIMetricsTracker`: the counters behind the actor. */
  class APIMetricsTracker {
    var metrics: APIMetrics

    ghost predicate Valid()
      reads this
    {
      Balanced(metrics)
    }

    constructor ()
      ensures Valid() && metrics == NoMetrics
    {
      metrics := NoMetrics;
    }

    /** `record(path:)`. */
    method Record(path: string)
      requires Valid()
      modifies this
      ensures Valid()
      ensures metrics == Counted(old(metrics), Classify(path))
    {
      metrics := Counted(metrics, Classify(path));
    }

    /** `snapshot()`. */
    method Snapshot() returns (m: APIMetrics)
      requires Valid()
      ensures m == metrics && Balanced(m)
    {
      m := metrics;
    }
  }

  // ---------------------------------------------------------------- responses

  /** `GitHubResponse<T?>`: `value` is `nil` exactly for a 304. */
  datatype GitHubResponse<T> = GitHubResponse(value: Option<T>, etag: Option<string>)

  /** What `JSONDecoder.decode(T.self, …)` made of the body (`T` is the payload type, never optional). */
  datatype Decoding<T> = Undecodable | DecodedValue(value: T)

  /** An `HTTPURLResponse` with its body; header names are lower-case. */
  datatype HttpResponse<T> = HttpResponse(
    status: int,
    headers: map<string, string>,
    body: Option<string>,
    decoded: Decoding<T>)

  /**
   * What `session.data(for:)` produced: a thrown error (a cancellation or any other
   * failure), a non-HTTP response, or an HTTP response.
   */
  datatype Transport<T> =
    | TransportFailure(description: string)
    | TransportCancelled
    | NotHttp
    | Received(response: HttpResponse<T>)

  /** A request as handed to the URL session. */
  datatype Request = Request(path: string, query: seq<(string, string)>, headers: seq<(string, string)>)

  /** The GET a service asks the client for (path, query items and the stored ETag to send). */
  datatype ApiRequest = ApiRequest(path: string, query: seq<(string, string)>, etag: Option<string>)

  function HeaderValue(headers: seq<(string, string)>, name: string): Option<string>
  {
    if headers == [] then None
    else if headers[0].0 == name then Some(headers[0].1)
    else HeaderValue(headers[1..], name)
  }

  function ResponseHeader(headers: map<string, string>, name: string): Option<string>
  {
    if name in headers then Some(headers[name]) else None
  }

  /** The request `get` builds: fixed headers, and `If-None-Match` exactly when an ETag is given. */
  function BuildRequest(path: string, token: string, query: seq<(string, string)>, etag: Option<string>): (r: Request)
    ensures r.path == path && r.query == query
    ensures HeaderValue(r.headers, "Authorization") == Some("Bearer " + token)
    ensures HeaderValue(r.headers, "If-None-Match") == etag
  {
    var fixed := [
      ("Authorization", "Bearer " + token),
      ("Accept", "application/vnd.github+json"),
      ("X-GitHub-Api-Version", "2022-11-28"),
      ("User-Agent", "PRBar")];
    var conditional := if etag.Some? then [("If-None-Match", etag.value)] else [];
    HeaderValueAfter(fixed, conditional, "Authorization");
    HeaderValueAfter(fixed, conditional, "If-None-Match");
    assert HeaderValue(fixed[3..], "If-None-Match") == None by {
      assert fixed[3..][1..] == [];
    }
    assert HeaderValue(fixed[1..], "If-None-Match") == None by {
      assert fixed[1..][1..] == fixed[2..] && fixed[2..][1..] == fixed[3..];
    }
    Request(path, query, fixed + conditional)
  }

  /** A lookup passes over the headers in front that have other names. */
  lemma {:induction false} HeaderValueAfter(front: seq<(string, string)>, back: seq<(string, string)>, name: string)
    ensures HeaderValue(front + back, name) ==
            (if HeaderValue(front, name).Some? then HeaderValue(front, name) else HeaderValue(back, name))
    decreases |front|
  {
    if front == [] {
      assert front + back == back;
    } else {
      assert (front + back)[0] == front[0];
      assert (front + back)[1..] == front[1..] + back;
      HeaderValueAfter(front[1..], back, name);
    }
  }

  function IntHeader(headers: map<string, string>, name: string): Option<int>
  {
    if name in headers then ParseInt(headers[name]) else None
  }

  /** `updateRateLimit(from:)`: limit and remaining default to 0, reset is kept unless a new one parses. */
  function UpdatedRateLimit(prior: RateLimitInfo, headers: map<string, string>): (r: RateLimitInfo)
    ensures IntHeader(headers, "x-ratelimit-limit").None? ==> r.limit == 0
    ensures IntHeader(headers, "x-ratelimit-limit").Some? ==> r.limit == IntHeader(headers, "x-ratelimit-limit").value
    ensures IntHeader(headers, "x-ratelimit-remaining").None? ==> r.remaining == 0
    ensures IntHeader(headers, "x-ratelimit-remaining").Some? ==> r.remaining == IntHeader(headers, "x-ratelimit-remaining").value
    ensures IntHeader(headers, "x-ratelimit-reset").None? ==> r.reset == prior.reset
    ensures IntHeader(headers, "x-ratelimit-reset").Some? ==> r.reset == IntHeader(headers, "x-ratelimit-reset")
  {
    var limit := OrElse(ParseInt(OrElse(ResponseHeader(headers, "x-ratelimit-limit"), "0")), 0);
    var remaining := OrElse(ParseInt(OrElse(ResponseHeader(headers, "x-ratelimit-remaining"), "0")), 0);
    var reset := match IntHeader(headers, "x-ratelimit-reset")
      case Some(t) => Some(t)
      case None => prior.reset;
    RateLimitInfo(limit, remaining, reset)
  }

  predicate IsSuccess(status: int)
  {
    200 <= status < 300
  }

  /**
   * What `get` returns or throws for an HTTP response, given the rate-limit record
   * already updated from it: 304 first, then quota exhaustion, then other failures,
   * then decoding.
   */
  function Respond<T>(resp: HttpResponse<T>, rl: RateLimitInfo): (r: Result<GitHubResponse<T>, AppError>)
    ensures resp.status == 304 ==> r == Ok(GitHubResponse(None, ResponseHeader(resp.headers, "etag")))
    ensures r == Err(RateLimited(rl.reset)) <==> resp.status == 403 && rl.remaining == 0
    ensures (r.Err? && r.error.HttpError?) <==>
              resp.status != 304 && !(resp.status == 403 && rl.remaining == 0) && !IsSuccess(resp.status)
    ensures r.Err? && r.error.HttpError? ==> r.error == HttpError(resp.status, OrElse(resp.body, "unknown error"))
    ensures r == Err(DecodingError) <==> IsSuccess(resp.status) && resp.decoded.Undecodable?
    ensures r.Ok? && resp.status != 304 ==>
              IsSuccess(resp.status) && resp.decoded.DecodedValue? &&
              r.value == GitHubResponse(Some(resp.decoded.value), ResponseHeader(resp.headers, "etag"))
    ensures r.Ok? && r.value.value.None? <==> resp.status == 304
  {
    if resp.status == 304 then
      Ok(GitHubResponse(None, ResponseHeader(resp.headers, "etag")))
    else if resp.status == 403 && rl.remaining == 0 then
      Err(RateLimited(rl.reset))
    else if !IsSuccess(resp.status) then
      Err(HttpError(resp.status, OrElse(resp.body, "unknown error")))
    else
      match resp.decoded
      case Undecodable => Err(DecodingError)
      case DecodedValue(v) => Ok(GitHubResponse(Some(v), ResponseHeader(resp.headers, "etag")))
  }

  /** `GitHubClient`: the rate-limit record and the metrics actor. */
  class GitHubClient {
    var rateLimit: RateLimitInfo
    const tracker: APIMetricsTracker

    ghost predicate Valid()
      reads this, tracker
    {
      tracker.Valid()
    }

    constructor ()
      ensures Valid() && fresh(tracker)
      ensures rateLimit == NoRateLimitInfo && tracker.metrics == NoMetrics
    {
      var t := new APIMetricsTracker();
      rateLimit := NoRateLimitInfo;
      tracker := t;
    }

    /**
     * `get(_:token:query:etag:decoder:)`. The call is counted before anything can fail;
     * `urlBuilds` says whether `URLComponents` produced a URL. `sent` is the request
     * handed to the session, if one was built.
     */
    method Get<T>(path: string, token: string, query: seq<(string, string)>, etag: Option<string>,
                  urlBuilds: bool, transport: Transport<T>)
      returns (sent: Option<Request>, r: Result<GitHubResponse<T>, AppError>)
      requires Valid()
      modifies this, tracker
      ensures Valid()
      ensures tracker.metrics == Counted(old(tracker.metrics), Classify(path))
      ensures sent.Some? <==> urlBuilds
      ensures sent.Some? ==> sent.value == BuildRequest(path, token, query, etag)
      ensures !urlBuilds ==> r == Err(InvalidResponse) && rateLimit == old(rateLimit)
      ensures urlBuilds && transport.TransportFailure? ==>
                r == Err(Transport(transport.description)) && rateLimit == old(rateLimit)
      ensures urlBuilds && transport.TransportCancelled? ==> r == Err(Cancelled) && rateLimit == old(rateLimit)
      ensures urlBuilds && transport.NotHttp? ==> r == Err(InvalidResponse) && rateLimit == old(rateLimit)
      ensures urlBuilds && transport.Received? ==>
                rateLimit == UpdatedRateLimit(old(rateLimit), transport.response.headers) &&
                r == Respond(transport.response, rateLimit)
    {
      tracker.Record(path);
      if !urlBuilds {
        return None, Err(InvalidResponse);
      }
      sent := Some(BuildRequest(path, token, query, etag));
      match transport
      case TransportFailure(d) =>
        r := Err(Transport(d));
      case TransportCancelled =>
        r := Err(Cancelled);
      case NotHttp =>
        r := Err(InvalidResponse);
      case Received(resp) =>
        rateLimit := UpdatedRateLimit(rateLimit, resp.headers);
        r := Respond(resp, rateLimit);
    }
  }

  /** A 304 is never an error, whatever the quota: it carries no value and the 304's own ETag. */
  lemma NotModifiedIsNotAnError<T>(prior: RateLimitInfo, resp: HttpResponse<T>)
    requires resp.status == 304
    ensures var r := Respond(resp, UpdatedRateLimit(prior, resp.headers));
            r.Ok? && r.value.value.None? && r.value.etag == ResponseHeader(resp.headers, "etag")
  {
  }

  /** A 403 is a rate-limit error exactly when the response itself reports no remaining quota. */
  lemma ForbiddenClassification<T>(prior: RateLimitInfo, resp: HttpResponse<T>)
    requires resp.status == 403
    ensures var r := Respond(resp, UpdatedRateLimit(prior, resp.headers));
            r.Err? &&
            (r.error.RateLimited? <==> IntHeader(resp.headers, "x-ratelimit-remaining") == Some(0) ||
                                       IntHeader(resp.headers, "x-ratelimit-remaining").None?)
  {
  }
}
