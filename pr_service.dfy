/**
 * `PRService`: building the search queries from the settings, paging through one
 * query with conditional requests on its first page, folding the per-query results
 * together, and the field rules of the detail and metadata fetches.
 *
 * GitHub is an oracle: `SearchOracle` answers a search request with what
 * `GitHubClient.get` returns or throws (an `AppError`). Items are already decoded,
 * with dates as integer seconds.
 */
module Search {
  import opened Wrappers
  import opened Text
  import opened Errors
  import opened Models
  import opened Client
  import opened MergeResults

  // ---------------------------------------------------------------- query strings

  /** `includeClosed` wins over `openOnly`; only `openOnly` alone restricts to open pull requests. */
  function StateClause(s: AppSettings): (c: string)
    ensures s.includeClosed ==> c == ""
    ensures !s.includeClosed ==> (c == "state:open" <==> s.openOnly)
    ensures c == "" || c == "state:open"
  {
    if s.includeClosed then ""
    else if s.openOnly then "state:open"
    else ""
  }

  /** `filter { !$0.isEmpty }`. */
  function NonEmptyParts(parts: seq<string>): (r: seq<string>)
    ensures forall i :: 0 <= i < |r| ==> r[i] != ""
    ensures forall x :: x in r <==> x in parts && x != ""
  {
    if parts == [] then []
    else
      var rest := NonEmptyParts(parts[1..]);
      assert forall x :: x in parts <==> x == parts[0] || x in parts[1..];
      (if parts[0] == "" then [] else [parts[0]]) + rest
  }

  /** Filtering keeps the order of the parts: it distributes over concatenation. */
  lemma {:induction false} NonEmptyPartsAppend(a: seq<string>, b: seq<string>)
    ensures NonEmptyParts(a + b) == NonEmptyParts(a) + NonEmptyParts(b)
    decreases |a|
  {
    if a == [] {
      assert a + b == b;
    } else {
      assert (a + b)[0] == a[0] && (a + b)[1..] == a[1..] + b;
      NonEmptyPartsAppend(a[1..], b);
    }
  }

  /** `joined(separator:)`. */
  function Join(parts: seq<string>, sep: string): string
  {
    if parts == [] then ""
    else if |parts| == 1 then parts[0]
    else parts[0] + sep + Join(parts[1..], sep)
  }

  /** The base query: the author filter, then the state clause when there is one. */
  function BaseQuery(login: string, s: AppSettings): (q: string)
    ensures StateClause(s) == "" ==> q == "is:pr author:" + login
    ensures StateClause(s) != "" ==> q == "is:pr author:" + login + " state:open"
  {
    var c := StateClause(s);
    KeptParts(login, c);
    JoinedParts(login, c);
    Join(NonEmptyParts(["is:pr", "author:" + login, c]), " ")
  }

  lemma KeptParts(login: string, c: string)
    ensures NonEmptyParts(["is:pr", "author:" + login, c]) ==
            ["is:pr", "author:" + login] + (if c == "" then [] else [c])
  {
    var parts := ["is:pr", "author:" + login, c];
    assert parts == ["is:pr"] + (["author:" + login] + [c]);
    NonEmptyPartsAppend(["is:pr"], ["author:" + login] + [c]);
    NonEmptyPartsAppend(["author:" + login], [c]);
    assert NonEmptyParts([c]) == if c == "" then [] else [c] by {
      assert [c][1..] == [];
    }
    assert NonEmptyParts(["is:pr"]) == ["is:pr"] by {
      assert ["is:pr"][1..] == [];
    }
    assert NonEmptyParts(["author:" + login]) == ["author:" + login] by {
      assert ["author:" + login][1..] == [];
    }
  }

  lemma JoinedParts(login: string, c: string)
    ensures Join(["is:pr", "author:" + login] + (if c == "" then [] else [c]), " ") ==
            "is:pr author:" + login + (if c == "" then "" else " " + c)
  {
    var kept := ["is:pr", "author:" + login] + (if c == "" then [] else [c]);
    assert kept[1..] == ["author:" + login] + (if c == "" then [] else [c]);
    assert Join(kept[1..], " ") == "author:" + login + (if c == "" then "" else " " + c) by {
      if c != "" {
        assert kept[1..][1..] == [c];
      }
    }
  }

  /** The allowlist entries, trimmed, blanks dropped, in order. */
  function TrimmedAllowlist(list: seq<string>): (r: seq<string>)
    ensures |r| <= |list|
    ensures forall i :: 0 <= i < |r| ==> r[i] != ""
  {
    if list == [] then []
    else
      var t := Trim(list[0]);
      (if t == "" then [] else [t]) + TrimmedAllowlist(list[1..])
  }

  /** Every non-blank entry is kept, trimmed. */
  lemma {:induction false} TrimmedAllowlistKeeps(list: seq<string>, i: nat)
    requires i < |list| && Trim(list[i]) != ""
    ensures Trim(list[i]) in TrimmedAllowlist(list)
    decreases i
  {
    if i > 0 {
      assert list[i] == list[1..][i - 1];
      TrimmedAllowlistKeeps(list[1..], i - 1);
    }
  }

  /** Nothing but trimmed entries is kept. */
  lemma {:induction false} TrimmedAllowlistOnly(list: seq<string>, x: string)
    requires x in TrimmedAllowlist(list)
    ensures exists i :: 0 <= i < |list| && x == Trim(list[i])
    decreases |list|
  {
    var t := Trim(list[0]);
    assert TrimmedAllowlist(list) == (if t == "" then [] else [t]) + TrimmedAllowlist(list[1..]);
    if x != t {
      assert x in TrimmedAllowlist(list[1..]);
      TrimmedAllowlistOnly(list[1..], x);
      var j :| 0 <= j < |list[1..]| && x == Trim(list[1..][j]);
      assert list[j + 1] == list[1..][j];
    }
  }

  /** `order` lists the elements of `s`, each once (a `Set`'s iteration order). */
  ghost predicate IsEnumeration(order: seq<string>, s: set<string>)
  {
    (forall x :: x in order <==> x in s) &&
    forall i, j :: 0 <= i < j < |order| ==> order[i] != order[j]
  }

  function Prefixed(prefix: string, xs: seq<string>): (r: seq<string>)
    ensures |r| == |xs| && forall i :: 0 <= i < |xs| ==> r[i] == prefix + xs[i]
  {
    seq(|xs|, i requires 0 <= i < |xs| => prefix + xs[i])
  }

  /**
   * `searchUnits`: a non-blank allowlist overrides the scope; otherwise the quick
   * scope chooses between the personal unit `""`, one `org:` unit per selected
   * organisation (in `orgOrder`, the set's iteration order), or a single organisation.
   */
  function SearchUnits(scope: ScopeSettings, quick: ScopeSelection, orgOrder: seq<string>): (r: seq<string>)
    requires IsEnumeration(orgOrder, scope.selectedOrgs)
    ensures TrimmedAllowlist(scope.repoAllowlist) != [] ==>
              r == Prefixed("repo:", TrimmedAllowlist(scope.repoAllowlist))
    ensures TrimmedAllowlist(scope.repoAllowlist) == [] && quick.All? ==>
              ("" in r <==> scope.personalEnabled) &&
              (forall o :: o in scope.selectedOrgs && scope.organizationsEnabled ==> "org:" + o in r) &&
              (forall u :: u in r && u != "" ==>
                 scope.organizationsEnabled && HasPrefix(u, "org:") && u[4..] in scope.selectedOrgs)
    ensures TrimmedAllowlist(scope.repoAllowlist) == [] && quick.Personal? ==> r == []
    ensures TrimmedAllowlist(scope.repoAllowlist) == [] && quick.Organization? ==> r == ["org:" + quick.org]
  {
    var allow := TrimmedAllowlist(scope.repoAllowlist);
    if allow != [] then Prefixed("repo:", allow)
    else
      match quick
      case All =>
        var personal := if scope.personalEnabled then [""] else [];
        var orgs := if scope.organizationsEnabled then Prefixed("org:", orgOrder) else [];
        assert forall o :: o in scope.selectedOrgs && scope.organizationsEnabled ==> "org:" + o in orgs by {
          forall o | o in scope.selectedOrgs && scope.organizationsEnabled ensures "org:" + o in orgs {
            var i :| 0 <= i < |orgOrder| && orgOrder[i] == o;
            assert orgs[i] == "org:" + o;
          }
        }
        forall u | u in orgs ensures u != "" && HasPrefix(u, "org:") && u[4..] in scope.selectedOrgs {
          var i :| 0 <= i < |orgs| && orgs[i] == u;
          assert u[4..] == orgOrder[i];
        }
        personal + orgs
      case Personal => []
      case Organization(org) => ["org:" + org]
  }

  /** One query per unit, each the base query and the unit; the base alone when there are no units. */
  function Queries(base: string, units: seq<string>): (r: seq<string>)
    ensures |r| >= 1
    ensures forall q :: q in r ==> HasPrefix(q, base)
    ensures units == [] ==> r == [base]
    ensures units != [] ==> |r| == |units| && forall i :: 0 <= i < |units| ==> r[i] == base + " " + units[i]
  {
    if units == [] then [base]
    else
      var r := Prefixed(base + " ", units);
      forall q | q in r ensures HasPrefix(q, base) {
        var i :| 0 <= i < |r| && r[i] == q;
        assert q[..|base|] == base;
      }
      r
  }

  /** The queries `fetchPRs` runs. */
  function FetchQueries(login: string, settings: AppSettings, quick: ScopeSelection, orgOrder: seq<string>): seq<string>
    requires IsEnumeration(orgOrder, settings.scope.selectedOrgs)
  {
    Queries(BaseQuery(login, settings), SearchUnits(settings.scope, quick, orgOrder))
  }

  /** Every query searches the user's pull requests, and there is always at least one. */
  lemma QueriesAreAuthored(login: string, settings: AppSettings, quick: ScopeSelection, orgOrder: seq<string>)
    requires IsEnumeration(orgOrder, settings.scope.selectedOrgs)
    ensures var qs := FetchQueries(login, settings, quick, orgOrder);
      |qs| >= 1 && forall q :: q in qs ==> HasPrefix(q, "is:pr author:" + login)
  {
    var base := BaseQuery(login, settings);
    var p := "is:pr author:" + login;
    assert HasPrefix(base, p) by {
      if StateClause(settings) != "" { assert base[..|p|] == p; }
    }
    forall q | q in FetchQueries(login, settings, quick, orgOrder) ensures HasPrefix(q, p) {
      assert HasPrefix(q, base);
      assert q[..|p|] == base[..|p|];
    }
  }

  /** With an `includeClosed` setting and no units, the query is the author filter alone. */
  lemma ClosedIncludedMeansNoStateFilter(login: string, settings: AppSettings)
    requires settings.includeClosed
    ensures Queries(BaseQuery(login, settings), []) == ["is:pr author:" + login]
  {
  }

  /**
   * With the default settings and the all scope, the single query asks for the
   * user's open pull requests followed by the personal unit, which is empty, so the
   * query ends in a space.
   */
  lemma DefaultSettingsSearch(login: string)
    ensures IsEnumeration([], DefaultAppSettings.scope.selectedOrgs)
    ensures FetchQueries(login, DefaultAppSettings, All, []) == ["is:pr author:" + login + " state:open "]
  {
    assert TrimmedAllowlist([]) == [];
    assert SearchUnits(DefaultAppSettings.scope, All, []) == [""];
    assert StateClause(DefaultAppSettings) == "state:open";
    var base := BaseQuery(login, DefaultAppSettings);
    assert Queries(base, [""])[0] == base + " " + "";
    assert " state:open" + " " + "" == " state:open ";
    assert base + " " + "" == "is:pr author:" + login + (" state:open" + " " + "");
  }

  // ---------------------------------------------------------------- search results

  /** One element of `items` in a search response, dates in seconds. */
  datatype SearchItem = SearchItem(
    id: int,
    number: int,
    title: string,
    state: string,
    updatedAt: int,
    htmlURL: string,
    repositoryURL: string)

  /** `parseRepo(from:)`: the last two non-empty `/`-separated pieces are owner and name. */
  function ParseRepo(url: string): (r: Option<RepoRef>)
    ensures r.Some? <==> |Split(url, '/')| >= 2
    ensures r.Some? ==> var chunks := Split(url, '/');
              r.value == RepoRef(chunks[|chunks| - 2], chunks[|chunks| - 1])
  {
    var chunks := Split(url, '/');
    if |chunks| < 2 then None
    else Some(RepoRef(chunks[|chunks| - 2], chunks[|chunks| - 1]))
  }

  /** The repository API URL of a well-formed repository parses back to that repository, whatever precedes it. */
  lemma ParseRepoOfRepositoryURL(prefix: string, r: RepoRef)
    requires WellFormedRepo(r)
    ensures ParseRepo(prefix + "/" + FullName(r)) == Some(r)
  {
    assert prefix + "/" + FullName(r) == prefix + ['/'] + FullName(r);
    SplitConcat(prefix, '/', FullName(r));
    FullNameSplits(r);
  }

  /** `Item.toPR()`: a search hit becomes a pull request without head, review or status data. */
  function ToPR(item: SearchItem): (r: Option<PullRequest>)
    ensures r.Some? <==> |Split(item.repositoryURL, '/')| >= 2
  {
    match ParseRepo(item.repositoryURL)
    case None => None
    case Some(repo) =>
      Some(PullRequest(item.id, item.number, repo, item.title, false, item.state, "", "",
                       item.updatedAt, item.htmlURL, None, None, None))
  }

  /**
   * A search hit whose repository URL ends in a well-formed `owner/name` becomes a
   * pull request of that repository, with the hit's id, number and update time, and
   * so with the stable id of that repository and number; it is not a draft and has
   * no head, review or status data yet.
   */
  lemma ToPRFromRepositoryURL(item: SearchItem, prefix: string, repo: RepoRef)
    requires WellFormedRepo(repo)
    requires item.repositoryURL == prefix + "/" + FullName(repo)
    ensures ToPR(item).Some?
    ensures var p := ToPR(item).value;
      p.repo == repo && p.id == item.id && p.number == item.number && p.updatedAt == item.updatedAt &&
      StableID(p) == FullName(repo) + "#" + IntToString(item.number) &&
      !p.isDraft && p.headRef == "" && p.headSHA == "" &&
      p.reviewState.None? && p.checkSummary.None? && p.actionsSummary.None?
  {
    ParseRepoOfRepositoryURL(prefix, repo);
  }

  /** `compactMap { $0.toPR() }`: the items that convert, in order. */
  function MapItems(items: seq<SearchItem>): (r: seq<PullRequest>)
    ensures |r| <= |items|
  {
    if items == [] then []
    else
      var rest := MapItems(items[1..]);
      assert forall i :: 0 < i < |items| ==> items[i] == items[1..][i - 1];
      match ToPR(items[0])
      case None => rest
      case Some(p) => [p] + rest
  }

  /** Every pull request of a page comes from one of its items, and every item that converts is kept. */
  lemma {:induction false} MapItemsSound(items: seq<SearchItem>)
    ensures forall p :: p in MapItems(items) ==> exists i :: 0 <= i < |items| && ToPR(items[i]) == Some(p)
    ensures forall i :: 0 <= i < |items| && ToPR(items[i]).Some? ==> ToPR(items[i]).value in MapItems(items)
    ensures (forall i :: 0 <= i < |items| ==> ToPR(items[i]).Some?) ==> |MapItems(items)| == |items|
    decreases |items|
  {
    if items != [] {
      MapItemsSound(items[1..]);
      assert forall i :: 0 < i < |items| ==> items[i] == items[1..][i - 1];
    }
  }

  // ---------------------------------------------------------------- paging through one query

  /** GitHub's answer to the `search/issues` request `SearchRequest(query, page)`. */
  type SearchOracle = (string, PageRequest) -> Result<GitHubResponse<seq<SearchItem>>, AppError>

  /** A search request as sent: page number, page size and the ETag offered. */
  datatype PageRequest = PageRequest(page: int, perPage: int, etag: Option<string>)

  /** The ETag store key of a page of a query. */
  function PageKey(query: string, page: int): string
  {
    "search:" + query + ":page:" + IntToString(page)
  }

  function Lookup(m: map<string, string>, k: string): Option<string>
  {
    if k in m then Some(m[k]) else None
  }

  function SearchRequest(query: string, p: PageRequest): ApiRequest
  {
    ApiRequest("search/issues",
               [("q", query), ("sort", "updated"), ("order", "desc"),
                ("per_page", IntToString(p.perPage)), ("page", IntToString(p.page))],
               p.etag)
  }

  function Answer(search: SearchOracle, query: string, p: PageRequest): Result<GitHubResponse<seq<SearchItem>>, AppError>
  {
    search(query, p)
  }

  /** What a page contributes: its converted items, or nothing for an error or a 304. */
  function PageItems(resp: Result<GitHubResponse<seq<SearchItem>>, AppError>): seq<PullRequest>
  {
    if resp.Ok? && resp.value.value.Some? then MapItems(resp.value.value.value) else []
  }

  /** A page after which paging goes on: it has a body and converts to at least a full page. */
  predicate Continues(resp: Result<GitHubResponse<seq<SearchItem>>, AppError>, perPage: int)
  {
    resp.Ok? && resp.value.value.Some? && |MapItems(resp.value.value.value)| >= perPage
  }

  /** The pull requests collected from `pages`, in page order. */
  function Collected(search: SearchOracle, query: string, pages: seq<PageRequest>): seq<PullRequest>
  {
    if pages == [] then []
    else Collected(search, query, pages[..|pages| - 1]) + PageItems(Answer(search, query, pages[|pages| - 1]))
  }

  /** The ETags recorded: the first page's, under its page key, if it carried one. */
  function FirstPageETag(search: SearchOracle, query: string, pages: seq<PageRequest>): map<string, string>
  {
    if pages == [] then map[]
    else
      var resp := Answer(search, query, pages[0]);
      if resp.Ok? && resp.value.etag.Some? then map[PageKey(query, 1) := resp.value.etag.value] else map[]
  }

  /** Every page answered with a body held at most the number of items it asked for. */
  ghost predicate PagesFit(search: SearchOracle, query: string, pages: seq<PageRequest>)
  {
    pages == [] ||
    (PagesFit(search, query, pages[..|pages| - 1]) &&
     Fits(Answer(search, query, pages[|pages| - 1]), pages[|pages| - 1].perPage))
  }

  predicate Fits(resp: Result<GitHubResponse<seq<SearchItem>>, AppError>, perPage: int)
  {
    resp.Ok? && resp.value.value.Some? ==> |resp.value.value.value| <= perPage
  }

  lemma PagesFitSnoc(search: SearchOracle, query: string, pages: seq<PageRequest>, p: PageRequest)
    ensures PagesFit(search, query, pages + [p]) <==>
            PagesFit(search, query, pages) && Fits(Answer(search, query, p), p.perPage)
  {
    assert (pages + [p])[..|pages|] == pages;
  }

  /** Sending one more page extends what is collected by that page's items. */
  lemma CollectedSnoc(search: SearchOracle, query: string, pages: seq<PageRequest>, p: PageRequest)
    ensures Collected(search, query, pages + [p]) ==
            Collected(search, query, pages) + PageItems(Answer(search, query, p))
  {
    var s := pages + [p];
    assert s[..|s| - 1] == pages && s[|s| - 1] == p;
  }

  /** Only page 1 records an ETag. */
  lemma FirstPageTagged(search: SearchOracle, query: string, pages: seq<PageRequest>, p: PageRequest,
                        tags: map<string, string>)
    requires tags == FirstPageETag(search, query, pages)
    ensures FirstPageETag(search, query, pages + [p]) == Tagged(query, pages, Answer(search, query, p), tags)
  {
    var s := pages + [p];
    if pages != [] {
      assert s[0] == pages[0];
    } else {
      assert s[0] == p;
      var resp := Answer(search, query, p);
      if resp.Ok? && resp.value.etag.Some? {
        assert map[][PageKey(query, 1) := resp.value.etag.value] == map[PageKey(query, 1) := resp.value.etag.value];
      }
    }
  }

  function Min(a: int, b: int): int
  {
    if a < b then a else b
  }

  /** Pages numbered from 1, each of 1 to 100 items; only page 1 offers the stored ETag. */
  ghost predicate NumberedPages(query: string, etags: map<string, string>, pages: seq<PageRequest>)
  {
    (forall i :: 0 <= i < |pages| ==> pages[i].page == i + 1 && 1 <= pages[i].perPage <= 100) &&
    (forall i :: 1 <= i < |pages| ==> pages[i].etag.None?) &&
    (pages != [] ==> pages[0].etag == Lookup(etags, PageKey(query, 1)))
  }

  /** Each page asks for `min(100, limit - count)` items, `count` being what the pages before it collected. */
  ghost predicate SizedByLimit(search: SearchOracle, query: string, limit: int, pages: seq<PageRequest>)
  {
    pages == [] ||
    (var front := pages[..|pages| - 1];
     SizedByLimit(search, query, limit, front) &&
     pages[|pages| - 1].perPage == Min(100, limit - |Collected(search, query, front)|))
  }

  /** A prefix of a run sized by the limit is sized by the limit. */
  lemma {:induction false} SizedPrefix(search: SearchOracle, query: string, limit: int, pages: seq<PageRequest>, n: nat)
    requires SizedByLimit(search, query, limit, pages)
    requires n <= |pages|
    ensures SizedByLimit(search, query, limit, pages[..n])
    decreases |pages|
  {
    if n < |pages| {
      var front := pages[..|pages| - 1];
      SizedPrefix(search, query, limit, front, n);
      assert front[..n] == pages[..n];
    } else {
      assert pages[..n] == pages;
    }
  }

  /** The size rule, page by page. */
  lemma SizedAt(search: SearchOracle, query: string, limit: int, pages: seq<PageRequest>, i: nat)
    requires SizedByLimit(search, query, limit, pages)
    requires i < |pages|
    ensures pages[i].perPage == Min(100, limit - |Collected(search, query, pages[..i])|)
  {
    SizedPrefix(search, query, limit, pages, i + 1);
    PrefixOfPrefix(pages, i);
    SizedLast(search, query, limit, pages[..i + 1], i);
  }

  lemma PrefixOfPrefix<T>(s: seq<T>, i: nat)
    requires i < |s|
    ensures |s[..i + 1]| == i + 1 && s[..i + 1][..i] == s[..i] && s[..i + 1][i] == s[i]
  {
  }

  lemma SizedLast(search: SearchOracle, query: string, limit: int, pages: seq<PageRequest>, n: nat)
    requires SizedByLimit(search, query, limit, pages)
    requires |pages| == n + 1
    ensures pages[n].perPage == Min(100, limit - |Collected(search, query, pages[..n])|)
  {
  }

  /** Every page in `pages` was answered with a full page of pull requests. */
  ghost predicate AllContinue(search: SearchOracle, query: string, pages: seq<PageRequest>)
  {
    forall i :: 0 <= i < |pages| ==> Continues(Answer(search, query, pages[i]), pages[i].perPage)
  }

  /**
   * Why paging stopped after a successful page: it was a 304, it converted to fewer
   * pull requests than requested, or the limit was reached.
   */
  predicate Stops(resp: Result<GitHubResponse<seq<SearchItem>>, AppError>, perPage: int, collected: int, limit: int)
    requires resp.Ok?
  {
    resp.value.value.None? || |MapItems(resp.value.value.value)| < perPage || collected >= limit
  }

  /**
   * `pages` is the run of requests `fetchPRsForQuery` sends for `query`: none when
   * `limit <= 0`, otherwise numbered from 1 and sized by the limit, every page but the
   * last answered with a full page, and the last one either failed or gave a reason
   * to stop.
   */
  ghost predicate PagedAsSent(search: SearchOracle, query: string, limit: int, etags: map<string, string>,
                              pages: seq<PageRequest>)
  {
    NumberedPages(query, etags, pages) &&
    SizedByLimit(search, query, limit, pages) &&
    (pages != [] <==> limit > 0) &&
    (pages != [] ==>
       AllContinue(search, query, pages[..|pages| - 1]) &&
       var last := Answer(search, query, pages[|pages| - 1]);
       last.Err? || Stops(last, pages[|pages| - 1].perPage, |Collected(search, query, pages)|, limit))
  }

  /** What a query returns once `pages` are sent: the last page's error, or what the pages collected and the page-1 ETag. */
  function QueryOutcome(search: SearchOracle, query: string, pages: seq<PageRequest>)
    : (r: Result<(seq<PullRequest>, map<string, string>), AppError>)
    ensures r.Err? <==> pages != [] && Answer(search, query, pages[|pages| - 1]).Err?
    ensures r.Ok? ==> r.value.0 == Collected(search, query, pages)
  {
    if pages != [] && Answer(search, query, pages[|pages| - 1]).Err? then Err(Answer(search, query, pages[|pages| - 1]).error)
    else Ok((Collected(search, query, pages), FirstPageETag(search, query, pages)))
  }

  lemma NumberedPagesSnoc(query: string, etags: map<string, string>, pages: seq<PageRequest>, p: PageRequest)
    requires NumberedPages(query, etags, pages)
    requires p.page == |pages| + 1 && 1 <= p.perPage <= 100
    requires p.etag == if pages == [] then Lookup(etags, PageKey(query, 1)) else None
    ensures NumberedPages(query, etags, pages + [p])
  {
  }

  lemma SizedByLimitSnoc(search: SearchOracle, query: string, limit: int, pages: seq<PageRequest>, p: PageRequest)
    requires SizedByLimit(search, query, limit, pages)
    requires p.perPage == Min(100, limit - |Collected(search, query, pages)|)
    ensures SizedByLimit(search, query, limit, pages + [p])
  {
    assert (pages + [p])[..|pages|] == pages;
  }

  lemma AllContinueSnoc(search: SearchOracle, query: string, pages: seq<PageRequest>, p: PageRequest)
    requires AllContinue(search, query, pages)
    requires Continues(Answer(search, query, p), p.perPage)
    ensures AllContinue(search, query, pages + [p])
  {
  }

  /** If every page held at most what it asked for, the pages never collect more than `limit`. */
  lemma {:induction false} FittingPagesStayWithinLimit(search: SearchOracle, query: string, limit: int,
                                                       pages: seq<PageRequest>)
    requires SizedByLimit(search, query, limit, pages)
    ensures PagesFit(search, query, pages) && limit >= 0 ==> |Collected(search, query, pages)| <= limit
    decreases |pages|
  {
    if pages != [] && PagesFit(search, query, pages) && limit >= 0 {
      var front := pages[..|pages| - 1];
      PagesFitSnoc(search, query, front, pages[|pages| - 1]);
      assert front + [pages[|pages| - 1]] == pages;
      FittingPagesStayWithinLimit(search, query, limit, front);
    }
  }

  /** The state of `fetchPRsForQuery` between pages: `pages` were sent and all came back full; `all` and `tags` are what they gave. */
  ghost predicate PagingSoFar(search: SearchOracle, query: string, limit: int, etags: map<string, string>,
                              pages: seq<PageRequest>, all: seq<PullRequest>, tags: map<string, string>)
  {
    NumberedPages(query, etags, pages) && SizedByLimit(search, query, limit, pages) &&
    AllContinue(search, query, pages) && (limit <= 0 ==> pages == []) &&
    all == Collected(search, query, pages) && tags == FirstPageETag(search, query, pages)
  }

  /** The request for the page after `pages`, which collected `all`. */
  function NextPage(query: string, limit: int, etags: map<string, string>, pages: seq<PageRequest>,
                    all: seq<PullRequest>): PageRequest
  {
    PageRequest(|pages| + 1, Min(100, limit - |all|), if pages == [] then Lookup(etags, PageKey(query, 1)) else None)
  }

  /** The ETags once the page after `pages` is answered by `resp`: page 1's ETag is recorded. */
  function Tagged(query: string, pages: seq<PageRequest>, resp: Result<GitHubResponse<seq<SearchItem>>, AppError>,
                  tags: map<string, string>): map<string, string>
  {
    if resp.Ok? && resp.value.etag.Some? && pages == [] then tags[PageKey(query, 1) := resp.value.etag.value] else tags
  }

  /** Sending the next page keeps the numbering and the size rule. */
  lemma NextPageSized(search: SearchOracle, query: string, limit: int, etags: map<string, string>,
                      pages: seq<PageRequest>, all: seq<PullRequest>, p: PageRequest)
    requires NumberedPages(query, etags, pages) && SizedByLimit(search, query, limit, pages)
    requires all == Collected(search, query, pages) && |all| < limit
    requires p == NextPage(query, limit, etags, pages, all)
    ensures NumberedPages(query, etags, pages + [p]) && SizedByLimit(search, query, limit, pages + [p]) && limit > 0
  {
    assert p.page == |pages| + 1 && p.perPage == Min(100, limit - |all|);
    NumberedPagesSnoc(query, etags, pages, p);
    SizedByLimitSnoc(search, query, limit, pages, p);
  }

  lemma SnocParts<T>(s: seq<T>, x: T)
    ensures (s + [x])[..|s|] == s && (s + [x])[|s|] == x
  {
  }

  /** A failed page ends the query with its error. */
  lemma PagingFails(search: SearchOracle, query: string, limit: int, etags: map<string, string>,
                    pages: seq<PageRequest>, all: seq<PullRequest>, tags: map<string, string>, p: PageRequest)
    requires PagingSoFar(search, query, limit, etags, pages, all, tags) && |all| < limit
    requires p == NextPage(query, limit, etags, pages, all)
    requires Answer(search, query, p).Err?
    ensures PagedAsSent(search, query, limit, etags, pages + [p])
    ensures QueryOutcome(search, query, pages + [p]) == Err(Answer(search, query, p).error)
  {
    NextPageSized(search, query, limit, etags, pages, all, p);
    SnocParts(pages, p);
  }

  /** A 304 or a short page ends the query with what was collected, within the limit when pages fit. */
  lemma PagingStops(search: SearchOracle, query: string, limit: int, etags: map<string, string>,
                    pages: seq<PageRequest>, all: seq<PullRequest>, tags: map<string, string>, p: PageRequest)
    requires PagingSoFar(search, query, limit, etags, pages, all, tags) && |all| < limit
    requires p == NextPage(query, limit, etags, pages, all)
    requires Answer(search, query, p).Ok? && !Continues(Answer(search, query, p), p.perPage)
    ensures PagedAsSent(search, query, limit, etags, pages + [p])
    ensures QueryOutcome(search, query, pages + [p]) ==
            Ok((all + PageItems(Answer(search, query, p)), Tagged(query, pages, Answer(search, query, p), tags)))
    ensures PagesFit(search, query, pages + [p]) ==> |all + PageItems(Answer(search, query, p))| <= limit
  {
    NextPageSized(search, query, limit, etags, pages, all, p);
    SnocParts(pages, p);
    CollectedSnoc(search, query, pages, p);
    FirstPageTagged(search, query, pages, p, tags);
    FittingPagesStayWithinLimit(search, query, limit, pages + [p]);
  }

  /** A full page lets paging go on. */
  lemma PagingContinues(search: SearchOracle, query: string, limit: int, etags: map<string, string>,
                        pages: seq<PageRequest>, all: seq<PullRequest>, tags: map<string, string>, p: PageRequest)
    requires PagingSoFar(search, query, limit, etags, pages, all, tags) && |all| < limit
    requires p == NextPage(query, limit, etags, pages, all)
    requires Continues(Answer(search, query, p), p.perPage)
    ensures PagingSoFar(search, query, limit, etags, pages + [p], all + PageItems(Answer(search, query, p)),
                        Tagged(query, pages, Answer(search, query, p), tags))
  {
    NextPageSized(search, query, limit, etags, pages, all, p);
    CollectedSnoc(search, query, pages, p);
    FirstPageTagged(search, query, pages, p, tags);
    AllContinueSnoc(search, query, pages, p);
  }

  /** Reaching the limit ends the query with what was collected, within the limit when pages fit. */
  lemma PagingReachesLimit(search: SearchOracle, query: string, limit: int, etags: map<string, string>,
                           pages: seq<PageRequest>, all: seq<PullRequest>, tags: map<string, string>)
    requires PagingSoFar(search, query, limit, etags, pages, all, tags) && |all| >= limit
    ensures PagedAsSent(search, query, limit, etags, pages)
    ensures QueryOutcome(search, query, pages) == Ok((all, tags))
    ensures PagesFit(search, query, pages) && limit >= 0 ==> |all| <= limit
  {
    if pages != [] {
      var n := |pages| - 1;
      assert Continues(Answer(search, query, pages[n]), pages[n].perPage);
      assert AllContinue(search, query, pages[..n]);
    }
    FittingPagesStayWithinLimit(search, query, limit, pages);
  }

  /**
   * The paging of `fetchPRsForQuery` from a state in which `pages` were sent and
   * collected `all`, with `tags` recorded: the requests it goes on to send and what the
   * query returns.
   */
  function PagingFrom(search: SearchOracle, query: string, limit: int, etags: map<string, string>,
                      pages: seq<PageRequest>, all: seq<PullRequest>, tags: map<string, string>)
    : (seq<PageRequest>, Result<(seq<PullRequest>, map<string, string>), AppError>)
    decreases limit - |all|
  {
    if |all| >= limit then (pages, Ok((all, tags)))
    else
      var p := NextPage(query, limit, etags, pages, all);
      var resp := Answer(search, query, p);
      if resp.Err? then (pages + [p], Err(resp.error))
      else if !Continues(resp, p.perPage) then (pages + [p], Ok((all + PageItems(resp), Tagged(query, pages, resp, tags))))
      else PagingFrom(search, query, limit, etags, pages + [p], all + PageItems(resp), Tagged(query, pages, resp, tags))
  }

  /** Paging from any state reached by full pages ends as `fetchPRsForQuery` is meant to end. */
  lemma {:induction false} PagingFromEndsAsSent(search: SearchOracle, query: string, limit: int,
                                                etags: map<string, string>, pages: seq<PageRequest>,
                                                all: seq<PullRequest>, tags: map<string, string>)
    requires PagingSoFar(search, query, limit, etags, pages, all, tags)
    ensures var (sent, r) := PagingFrom(search, query, limit, etags, pages, all, tags);
            PagedAsSent(search, query, limit, etags, sent) && r == QueryOutcome(search, query, sent) &&
            (r.Ok? && PagesFit(search, query, sent) && limit >= 0 ==> |r.value.0| <= limit)
    decreases limit - |all|
  {
    if |all| >= limit {
      PagingReachesLimit(search, query, limit, etags, pages, all, tags);
    } else {
      var p := NextPage(query, limit, etags, pages, all);
      var resp := Answer(search, query, p);
      if resp.Err? {
        PagingFails(search, query, limit, etags, pages, all, tags, p);
      } else if !Continues(resp, p.perPage) {
        PagingStops(search, query, limit, etags, pages, all, tags, p);
      } else {
        PagingContinues(search, query, limit, etags, pages, all, tags, p);
        PagingFromEndsAsSent(search, query, limit, etags, pages + [p], all + PageItems(resp), Tagged(query, pages, resp, tags));
      }
    }
  }

  /**
   * What `fetchPRsForQuery` sends and returns: requests numbered from 1 and sized by the
   * limit, only page 1 offering its ETag, paging on only after full pages; the outcome is
   * the last page's error or what the pages collected, never more than `limit` when each
   * page held at most what it asked for.
   */
  lemma FetchedAsSent(search: SearchOracle, query: string, limit: int, etags: map<string, string>)
    ensures var (pages, r) := PagingFrom(search, query, limit, etags, [], [], map[]);
            PagedAsSent(search, query, limit, etags, pages) && r == QueryOutcome(search, query, pages) &&
            (r.Ok? && PagesFit(search, query, pages) && limit >= 0 ==> |r.value.0| <= limit)
  {
    PagingFromEndsAsSent(search, query, limit, etags, [], [], map[]);
  }

  /**
   * `fetchPRsForQuery`. `pages` are the requests sent, in order. Paging goes on while
   * a page yields a full page of pull requests and fewer than `limit` are collected;
   * only page 1 offers the stored ETag and only its ETag is recorded; an error ends
   * the query with that error.
   */
  method FetchPRsForQuery(query: string, limit: int, etags: map<string, string>, search: SearchOracle)
    returns (pages: seq<PageRequest>, r: Result<(seq<PullRequest>, map<string, string>), AppError>)
    ensures (pages, r) == PagingFrom(search, query, limit, etags, [], [], map[])
  {
    pages := [];
    var page := 1;
    var all: seq<PullRequest> := [];
    var nextEtags: map<string, string> := map[];
    while |all| < limit
      invariant page == |pages| + 1
      invariant PagingFrom(search, query, limit, etags, pages, all, nextEtags) ==
                PagingFrom(search, query, limit, etags, [], [], map[])
      decreases limit - |all|
    {
      var perPage := Min(100, limit - |all|);
      var p := PageRequest(page, perPage, if page == 1 then Lookup(etags, PageKey(query, page)) else None);
      var resp := search(query, p);
      ghost var sent, tags := pages, nextEtags;
      assert p == NextPage(query, limit, etags, pages, all);
      pages := pages + [p];
      if resp.Err? {
        return pages, Err(resp.error);
      }
      if resp.value.etag.Some? && page == 1 {
        nextEtags := nextEtags[PageKey(query, page) := resp.value.etag.value];
      }
      assert nextEtags == Tagged(query, sent, resp, tags);
      if resp.value.value.None? {
        assert all + [] == all;
        return pages, Ok((all, nextEtags));
      }
      var mapped := MapItems(resp.value.value.value);
      all := all + mapped;
      if |mapped| < perPage {
        return pages, Ok((all, nextEtags));
      }
      page := page + 1;
    }
    r := Ok((all, nextEtags));
  }

  /**
   * The requests of a query are determined by the search answers: two runs that both
   * page as `fetchPRsForQuery` does send the same pages (and so reach the same outcome).
   */
  lemma PagingDetermined(search: SearchOracle, query: string, limit: int, etags: map<string, string>,
                         a: seq<PageRequest>, b: seq<PageRequest>)
    requires PagedAsSent(search, query, limit, etags, a)
    requires PagedAsSent(search, query, limit, etags, b)
    ensures a == b
  {
    if |a| <= |b| {
      SamePrefix(search, query, limit, etags, a, b, |a|);
      assert a[..|a|] == a;
      RunEndsWhereItStops(search, query, limit, etags, a, b);
      assert b[..|b|] == b;
    } else {
      SamePrefix(search, query, limit, etags, b, a, |b|);
      assert b[..|b|] == b;
      RunEndsWhereItStops(search, query, limit, etags, b, a);
    }
  }

  /** A run that pages as `fetchPRsForQuery` does is not a proper prefix of another: its last page stops paging. */
  lemma RunEndsWhereItStops(search: SearchOracle, query: string, limit: int, etags: map<string, string>,
                            x: seq<PageRequest>, y: seq<PageRequest>)
    requires PagedAsSent(search, query, limit, etags, x)
    requires PagedAsSent(search, query, limit, etags, y)
    requires |x| <= |y| && x == y[..|x|]
    ensures |x| == |y|
  {
    EarlierPagesContinue(search, query, limit, etags, y);
    if x != [] {
      var n := |x| - 1;
      assert y[n] == x[n];
    }
  }

  lemma {:induction false} SamePrefix(search: SearchOracle, query: string, limit: int, etags: map<string, string>,
                                      a: seq<PageRequest>, b: seq<PageRequest>, n: nat)
    requires NumberedPages(query, etags, a) && SizedByLimit(search, query, limit, a)
    requires NumberedPages(query, etags, b) && SizedByLimit(search, query, limit, b)
    requires n <= |a| && n <= |b|
    ensures a[..n] == b[..n]
  {
    if n > 0 {
      var i := n - 1;
      SamePrefix(search, query, limit, etags, a, b, i);
      SizedAt(search, query, limit, a, i);
      SizedAt(search, query, limit, b, i);
      SameSize(search, query, limit, a, b, i);
      SameNumbering(query, etags, a, b, i);
      PrefixSnoc(a, b, i);
    }
  }

  /** Two numbered runs give their `i`-th pages the same number and ETag. */
  lemma SameNumbering(query: string, etags: map<string, string>, a: seq<PageRequest>, b: seq<PageRequest>, i: nat)
    requires NumberedPages(query, etags, a) && NumberedPages(query, etags, b)
    requires i < |a| && i < |b|
    ensures a[i].page == b[i].page && a[i].etag == b[i].etag
  {
  }

  /** Two runs sized by the limit that agree on their first `i` pages ask for the same number of items next. */
  lemma SameSize(search: SearchOracle, query: string, limit: int, a: seq<PageRequest>, b: seq<PageRequest>, i: nat)
    requires i < |a| && i < |b| && a[..i] == b[..i]
    requires a[i].perPage == Min(100, limit - |Collected(search, query, a[..i])|)
    requires b[i].perPage == Min(100, limit - |Collected(search, query, b[..i])|)
    ensures a[i].perPage == b[i].perPage
  {
  }

  lemma PrefixSnoc<T>(a: seq<T>, b: seq<T>, i: nat)
    requires i < |a| && i < |b| && a[..i] == b[..i] && a[i] == b[i]
    ensures a[..i + 1] == b[..i + 1]
  {
    assert a[..i + 1] == a[..i] + [a[i]] && b[..i + 1] == b[..i] + [b[i]];
  }

  /** Every page but the last was answered with a full page, and after it fewer than `limit` were collected. */
  lemma EarlierPagesContinue(search: SearchOracle, query: string, limit: int, etags: map<string, string>,
                             pages: seq<PageRequest>)
    requires PagedAsSent(search, query, limit, etags, pages)
    ensures forall i :: 0 <= i < |pages| - 1 ==>
              Continues(Answer(search, query, pages[i]), pages[i].perPage) &&
              |Collected(search, query, pages[..i + 1])| < limit
  {
    forall i | 0 <= i < |pages| - 1
      ensures Continues(Answer(search, query, pages[i]), pages[i].perPage)
      ensures |Collected(search, query, pages[..i + 1])| < limit
    {
      var n := |pages| - 1;
      assert pages[..n][i] == pages[i];
      assert Continues(Answer(search, query, pages[..n][i]), pages[..n][i].perPage);
      SizedAt(search, query, limit, pages, i + 1);
      assert 1 <= pages[i + 1].perPage;
    }
  }

  /** A 304 on the first page ends the query with nothing collected. */
  lemma NotModifiedFirstPageYieldsNothing(search: SearchOracle, query: string, pages: seq<PageRequest>)
    requires |pages| >= 1
    requires AllContinue(search, query, pages[..|pages| - 1])
    requires Answer(search, query, pages[0]).Ok? && Answer(search, query, pages[0]).value.value.None?
    ensures |pages| == 1 && Collected(search, query, pages) == []
  {
    assert !Continues(Answer(search, query, pages[0]), pages[0].perPage);
    assert pages[..0] == [];
  }

  // ---------------------------------------------------------------- the fan-out

  /** `merge(_:uniquingKeysWith: { _, new in new })`, once per map, in order. */
  function OverrideAll(base: map<string, string>, maps: seq<map<string, string>>): (r: map<string, string>)
    ensures r.Keys == base.Keys + KeysOf(maps)
  {
    if maps == [] then base
    else
      var front := OverrideAll(base, maps[..|maps| - 1]);
      assert KeysOf(maps) == KeysOf(maps[..|maps| - 1]) + maps[|maps| - 1].Keys;
      front + maps[|maps| - 1]
  }

  /** Laying one more query's ETags over the merge so far. */
  lemma OverrideAllSnoc(base: map<string, string>, maps: seq<map<string, string>>, m: map<string, string>)
    ensures OverrideAll(base, maps + [m]) == OverrideAll(base, maps) + m
  {
    assert (maps + [m])[..|maps|] == maps;
  }

  function KeysOf(maps: seq<map<string, string>>): set<string>
  {
    if maps == [] then {} else KeysOf(maps[..|maps| - 1]) + maps[|maps| - 1].Keys
  }

  /** A key no query touched keeps its stored value; a touched key holds the value of the last query that set it. */
  lemma {:induction false} OverrideAllValues(base: map<string, string>, maps: seq<map<string, string>>, k: string)
    ensures (forall i :: 0 <= i < |maps| ==> k !in maps[i]) && k in base ==>
              k in OverrideAll(base, maps) && OverrideAll(base, maps)[k] == base[k]
    ensures forall i :: 0 <= i < |maps| && k in maps[i] && (forall j :: i < j < |maps| ==> k !in maps[j]) ==>
              k in OverrideAll(base, maps) && OverrideAll(base, maps)[k] == maps[i][k]
  {
    if k in base && forall i :: 0 <= i < |maps| ==> k !in maps[i] {
      OverrideAllUntouched(base, maps, k);
    }
    forall i | 0 <= i < |maps| && k in maps[i] && (forall j :: i < j < |maps| ==> k !in maps[j])
      ensures k in OverrideAll(base, maps) && OverrideAll(base, maps)[k] == maps[i][k]
    {
      OverrideAllLastWins(base, maps, k, i);
    }
  }

  lemma {:induction false} OverrideAllUntouched(base: map<string, string>, maps: seq<map<string, string>>, k: string)
    requires k in base && forall i :: 0 <= i < |maps| ==> k !in maps[i]
    ensures k in OverrideAll(base, maps) && OverrideAll(base, maps)[k] == base[k]
    decreases |maps|
  {
    if maps != [] {
      var front := maps[..|maps| - 1];
      assert forall i :: 0 <= i < |front| ==> front[i] == maps[i];
      OverrideAllUntouched(base, front, k);
    }
  }

  lemma {:induction false} OverrideAllLastWins(base: map<string, string>, maps: seq<map<string, string>>, k: string, i: nat)
    requires i < |maps| && k in maps[i] && forall j :: i < j < |maps| ==> k !in maps[j]
    ensures k in OverrideAll(base, maps) && OverrideAll(base, maps)[k] == maps[i][k]
    decreases |maps|
  {
    var n := |maps| - 1;
    if i < n {
      var front := maps[..n];
      assert forall j :: 0 <= j < |front| ==> front[j] == maps[j];
      OverrideAllLastWins(base, front, k, i);
    }
  }

  /** `order` is a completion order of `n` tasks: each index once. */
  predicate IsCompletionOrder(order: seq<nat>, n: nat)
  {
    |order| == n && (forall k :: 0 <= k < n ==> order[k] < n) &&
    forall i, j :: 0 <= i < j < n ==> order[i] != order[j]
  }

  /** Every task completes: a completion order of `n` tasks names each of them. */
  lemma CompletionOrderCovers(order: seq<nat>, n: nat)
    requires IsCompletionOrder(order, n)
    ensures forall i :: 0 <= i < n ==> i in order
  {
    DistinctCard(order);
    RangeCard(n);
    assert Elements(order) <= Range(n);
    SubsetSameCard(Elements(order), Range(n));
    forall i | 0 <= i < n
      ensures i in order
    {
      assert i in Range(n);
      var k :| 0 <= k < |order| && order[k] == i;
    }
  }

  function Elements(s: seq<nat>): set<nat>
  {
    set k | 0 <= k < |s| :: s[k]
  }

  function Range(n: nat): (r: set<nat>)
    ensures forall i :: i in r <==> 0 <= i < n
  {
    if n == 0 then {} else Range(n - 1) + {n - 1}
  }

  lemma {:induction false} DistinctCard(s: seq<nat>)
    requires forall i, j :: 0 <= i < j < |s| ==> s[i] != s[j]
    ensures |Elements(s)| == |s|
    decreases |s|
  {
    if s != [] {
      var m := |s| - 1;
      DistinctCard(s[..m]);
      assert Elements(s) == Elements(s[..m]) + {s[m]};
      assert s[m] !in Elements(s[..m]);
    }
  }

  lemma {:induction false} RangeCard(n: nat)
    ensures |Range(n)| == n
    decreases n
  {
    if n > 0 {
      RangeCard(n - 1);
    }
  }

  lemma SubsetSameCard(a: set<nat>, b: set<nat>)
    requires a <= b && |a| == |b|
    ensures a == b
  {
    assert b == a + (b - a);
    assert |b - a| == 0;
  }

  /** The queries in the order their tasks complete. */
  function InCompletionOrder(queries: seq<string>, order: seq<nat>): (r: seq<string>)
    requires forall k :: 0 <= k < |order| ==> order[k] < |queries|
    ensures |r| == |order| && forall k :: 0 <= k < |order| ==> r[k] == queries[order[k]]
  {
    seq(|order|, k requires 0 <= k < |order| => queries[order[k]])
  }

  /** The pull requests of the completed tasks, task `k` having paged through `pagesOf[k]`, appended in completion order. */
  function Gathered(search: SearchOracle, taskQueries: seq<string>, pagesOf: seq<seq<PageRequest>>): seq<PullRequest>
    requires |pagesOf| <= |taskQueries|
  {
    if pagesOf == [] then []
    else
      var n := |pagesOf| - 1;
      Gathered(search, taskQueries, pagesOf[..n]) + Collected(search, taskQueries[n], pagesOf[n])
  }

  /** The ETags each completed task recorded, in completion order. */
  function TaskETags(search: SearchOracle, taskQueries: seq<string>, pagesOf: seq<seq<PageRequest>>): (r: seq<map<string, string>>)
    requires |pagesOf| <= |taskQueries|
  {
    if pagesOf == [] then []
    else
      var n := |pagesOf| - 1;
      TaskETags(search, taskQueries, pagesOf[..n]) + [FirstPageETag(search, taskQueries[n], pagesOf[n])]
  }

  /** Each completed task paged through its query as `fetchPRsForQuery` does. */
  ghost predicate TaskTraces(search: SearchOracle, limit: int, etags: map<string, string>, taskQueries: seq<string>,
                             pagesOf: seq<seq<PageRequest>>)
    requires |pagesOf| <= |taskQueries|
  {
    forall k :: 0 <= k < |pagesOf| ==> PagedAsSent(search, taskQueries[k], limit, etags, pagesOf[k])
  }

  /**
   * The tasks that completed before the group ended: every one paged as `fetchPRsForQuery`
   * does, every one but the last succeeded, and the group stopped early only on an error.
   */
  ghost predicate FanOutTrace(search: SearchOracle, limit: int, etags: map<string, string>, taskQueries: seq<string>,
                              pagesOf: seq<seq<PageRequest>>)
  {
    1 <= |pagesOf| <= |taskQueries| &&
    TaskTraces(search, limit, etags, taskQueries, pagesOf) &&
    (forall k :: 0 <= k < |pagesOf| - 1 ==> QueryOutcome(search, taskQueries[k], pagesOf[k]).Ok?) &&
    (|pagesOf| < |taskQueries| ==>
       QueryOutcome(search, taskQueries[|pagesOf| - 1], pagesOf[|pagesOf| - 1]).Err?)
  }

  /**
   * What the group returns: the error of the last completed task if it failed;
   * otherwise the gathered pull requests merged and cut to `limit`, and every task's
   * page-1 ETags laid over the stored ones in completion order.
   */
  function FanOutResult(search: SearchOracle, limit: int, etags: map<string, string>, taskQueries: seq<string>,
                        pagesOf: seq<seq<PageRequest>>): (r: Result<(seq<PullRequest>, map<string, string>), AppError>)
    requires 1 <= |pagesOf| <= |taskQueries| && limit >= 0
    ensures r.Err? <==> QueryOutcome(search, taskQueries[|pagesOf| - 1], pagesOf[|pagesOf| - 1]).Err?
    ensures r.Ok? ==> |r.value.0| <= limit
  {
    var last := QueryOutcome(search, taskQueries[|pagesOf| - 1], pagesOf[|pagesOf| - 1]);
    if last.Err? then Err(last.error)
    else Ok((Merge(Gathered(search, taskQueries, pagesOf), limit), OverrideAll(etags, TaskETags(search, taskQueries, pagesOf))))
  }

  lemma TaskStep(search: SearchOracle, limit: int, etags: map<string, string>, taskQueries: seq<string>,
                 pagesOf: seq<seq<PageRequest>>, pages: seq<PageRequest>)
    requires |pagesOf| < |taskQueries|
    requires TaskTraces(search, limit, etags, taskQueries, pagesOf)
    requires PagedAsSent(search, taskQueries[|pagesOf|], limit, etags, pages)
    ensures TaskTraces(search, limit, etags, taskQueries, pagesOf + [pages])
    ensures Gathered(search, taskQueries, pagesOf + [pages]) ==
            Gathered(search, taskQueries, pagesOf) + Collected(search, taskQueries[|pagesOf|], pages)
    ensures TaskETags(search, taskQueries, pagesOf + [pages]) ==
            TaskETags(search, taskQueries, pagesOf) + [FirstPageETag(search, taskQueries[|pagesOf|], pages)]
  {
    TaskTracesSnoc(search, limit, etags, taskQueries, pagesOf, pages);
    var s := pagesOf + [pages];
    assert s[..|pagesOf|] == pagesOf;
  }

  lemma TaskTracesSnoc(search: SearchOracle, limit: int, etags: map<string, string>, taskQueries: seq<string>,
                       pagesOf: seq<seq<PageRequest>>, pages: seq<PageRequest>)
    requires |pagesOf| < |taskQueries|
    requires TaskTraces(search, limit, etags, taskQueries, pagesOf)
    requires PagedAsSent(search, taskQueries[|pagesOf|], limit, etags, pages)
    ensures TaskTraces(search, limit, etags, taskQueries, pagesOf + [pages])
  {
    var s := pagesOf + [pages];
    assert forall k :: 0 <= k < |pagesOf| ==> s[k] == pagesOf[k];
  }

  /** The loop state of the task group after the tasks `pagesOf` all succeeded. */
  ghost predicate GroupSoFar(search: SearchOracle, limit: int, etags: map<string, string>, taskQueries: seq<string>,
                             pagesOf: seq<seq<PageRequest>>, all: seq<PullRequest>, nextEtags: map<string, string>)
  {
    |pagesOf| <= |taskQueries| &&
    TaskTraces(search, limit, etags, taskQueries, pagesOf) &&
    (forall j :: 0 <= j < |pagesOf| ==> QueryOutcome(search, taskQueries[j], pagesOf[j]).Ok?) &&
    all == Gathered(search, taskQueries, pagesOf) &&
    nextEtags == OverrideAll(etags, TaskETags(search, taskQueries, pagesOf))
  }

  /** One more task succeeded: its pull requests are appended and its ETags laid over the merge. */
  lemma GroupStep(search: SearchOracle, limit: int, etags: map<string, string>, taskQueries: seq<string>,
                  pagesOf: seq<seq<PageRequest>>, all: seq<PullRequest>, nextEtags: map<string, string>,
                  pages: seq<PageRequest>)
    requires GroupSoFar(search, limit, etags, taskQueries, pagesOf, all, nextEtags)
    requires |pagesOf| < |taskQueries|
    requires PagedAsSent(search, taskQueries[|pagesOf|], limit, etags, pages)
    requires QueryOutcome(search, taskQueries[|pagesOf|], pages).Ok?
    ensures GroupSoFar(search, limit, etags, taskQueries, pagesOf + [pages],
                       all + Collected(search, taskQueries[|pagesOf|], pages),
                       nextEtags + FirstPageETag(search, taskQueries[|pagesOf|], pages))
  {
    var q := taskQueries[|pagesOf|];
    TaskStep(search, limit, etags, taskQueries, pagesOf, pages);
    OverrideAllSnoc(etags, TaskETags(search, taskQueries, pagesOf), FirstPageETag(search, q, pages));
    OutcomesOkSnoc(search, taskQueries, pagesOf, pages);
  }

  lemma OutcomesOkSnoc(search: SearchOracle, taskQueries: seq<string>, pagesOf: seq<seq<PageRequest>>,
                       pages: seq<PageRequest>)
    requires |pagesOf| < |taskQueries|
    requires forall j :: 0 <= j < |pagesOf| ==> QueryOutcome(search, taskQueries[j], pagesOf[j]).Ok?
    requires QueryOutcome(search, taskQueries[|pagesOf|], pages).Ok?
    ensures var s := pagesOf + [pages];
      forall j :: 0 <= j < |s| ==> QueryOutcome(search, taskQueries[j], s[j]).Ok?
  {
    var s := pagesOf + [pages];
    assert forall j :: 0 <= j < |pagesOf| ==> s[j] == pagesOf[j];
    assert s[|pagesOf|] == pages;
  }

  /** A task failed: the group ends with its error. */
  lemma GroupFails(search: SearchOracle, limit: int, etags: map<string, string>, taskQueries: seq<string>,
                   pagesOf: seq<seq<PageRequest>>, all: seq<PullRequest>, nextEtags: map<string, string>,
                   pages: seq<PageRequest>)
    requires limit >= 0
    requires GroupSoFar(search, limit, etags, taskQueries, pagesOf, all, nextEtags)
    requires |pagesOf| < |taskQueries|
    requires PagedAsSent(search, taskQueries[|pagesOf|], limit, etags, pages)
    requires QueryOutcome(search, taskQueries[|pagesOf|], pages).Err?
    ensures FanOutTrace(search, limit, etags, taskQueries, pagesOf + [pages])
    ensures FanOutResult(search, limit, etags, taskQueries, pagesOf + [pages]) ==
            Err(QueryOutcome(search, taskQueries[|pagesOf|], pages).error)
  {
    TaskTracesSnoc(search, limit, etags, taskQueries, pagesOf, pages);
    var s := pagesOf + [pages];
    assert forall j :: 0 <= j < |pagesOf| ==> s[j] == pagesOf[j];
    assert s[|s| - 1] == pages;
  }

  /** Every task succeeded: the group returns the merge and the laid-over ETags. */
  lemma GroupDone(search: SearchOracle, limit: int, etags: map<string, string>, taskQueries: seq<string>,
                  pagesOf: seq<seq<PageRequest>>, all: seq<PullRequest>, nextEtags: map<string, string>)
    requires limit >= 0
    requires GroupSoFar(search, limit, etags, taskQueries, pagesOf, all, nextEtags)
    requires 1 <= |pagesOf| == |taskQueries|
    ensures FanOutTrace(search, limit, etags, taskQueries, pagesOf)
    ensures FanOutResult(search, limit, etags, taskQueries, pagesOf) == Ok((Merge(all, limit), nextEtags))
  {
    assert QueryOutcome(search, taskQueries[|pagesOf| - 1], pagesOf[|pagesOf| - 1]).Ok?;
  }

  /**
   * What the task group returns when the tasks of `taskQueries` complete in that order,
   * `all` and `tags` being what the tasks before them gathered: the first failing
   * query's error, or everything gathered merged and every page-1 ETag laid over `tags`.
   */
  function FetchedAll(search: SearchOracle, limit: int, etags: map<string, string>, taskQueries: seq<string>,
                      all: seq<PullRequest>, tags: map<string, string>)
    : (r: Result<(seq<PullRequest>, map<string, string>), AppError>)
    requires limit >= 0
    ensures r.Ok? ==> |r.value.0| <= limit && SortedNewestFirst(r.value.0)
    decreases |taskQueries|
  {
    if taskQueries == [] then Ok((Merge(all, limit), tags))
    else
      var res := PagingFrom(search, taskQueries[0], limit, etags, [], [], map[]).1;
      if res.Err? then Err(res.error)
      else FetchedAll(search, limit, etags, taskQueries[1..], all + res.value.0, tags + res.value.1)
  }

  /** One more completed task: its query's outcome ends the group or is gathered. */
  lemma FetchedAllNext(search: SearchOracle, limit: int, etags: map<string, string>, taskQueries: seq<string>,
                       k: nat, all: seq<PullRequest>, tags: map<string, string>)
    requires limit >= 0 && k < |taskQueries|
    ensures var res := PagingFrom(search, taskQueries[k], limit, etags, [], [], map[]).1;
      FetchedAll(search, limit, etags, taskQueries[k..], all, tags) ==
      if res.Err? then Err(res.error)
      else FetchedAll(search, limit, etags, taskQueries[k + 1..], all + res.value.0, tags + res.value.1)
  {
    assert taskQueries[k..][0] == taskQueries[k] && taskQueries[k..][1..] == taskQueries[k + 1..];
  }

  /** Once every task completed, the group returns the merge of what it gathered. */
  lemma FetchedAllDone(search: SearchOracle, limit: int, etags: map<string, string>, taskQueries: seq<string>,
                       all: seq<PullRequest>, tags: map<string, string>)
    requires limit >= 0
    ensures FetchedAll(search, limit, etags, taskQueries[|taskQueries|..], all, tags) == Ok((Merge(all, limit), tags))
  {
    assert taskQueries[|taskQueries|..] == [];
  }

  /**
   * The loop of the task group of `fetchPRs` over its tasks in completion order: each
   * task pages through its query, the first error ends the whole fetch, and otherwise
   * the results are merged and the page-1 ETags laid over the stored ones. The ghost
   * result holds, per completed task, its pages.
   */
  method RunTasks(taskQueries: seq<string>, limit: int, etags: map<string, string>, search: SearchOracle)
    returns (r: Result<(seq<PullRequest>, map<string, string>), AppError>, ghost pagesOf: seq<seq<PageRequest>>)
    requires |taskQueries| >= 1 && limit >= 0
    ensures FanOutTrace(search, limit, etags, taskQueries, pagesOf)
    ensures r == FanOutResult(search, limit, etags, taskQueries, pagesOf)
    ensures r.Ok? ==> |pagesOf| == |taskQueries|
    ensures r == FetchedAll(search, limit, etags, taskQueries, [], etags)
  {
    pagesOf := [];
    var all: seq<PullRequest> := [];
    var nextEtags := etags;
    var k := 0;
    ghost var outcome := FetchedAll(search, limit, etags, taskQueries, [], etags);
    assert taskQueries[0..] == taskQueries;
    while k < |taskQueries|
      invariant 0 <= k <= |taskQueries| && |pagesOf| == k
      invariant GroupSoFar(search, limit, etags, taskQueries, pagesOf, all, nextEtags)
      invariant FetchedAll(search, limit, etags, taskQueries[k..], all, nextEtags) == outcome
    {
      var pages, res := FetchPRsForQuery(taskQueries[k], limit, etags, search);
      FetchedAsSent(search, taskQueries[k], limit, etags);
      FetchedAllNext(search, limit, etags, taskQueries, k, all, nextEtags);
      if res.Err? {
        GroupFails(search, limit, etags, taskQueries, pagesOf, all, nextEtags, pages);
        return Err(res.error), pagesOf + [pages];
      }
      GroupStep(search, limit, etags, taskQueries, pagesOf, all, nextEtags, pages);
      pagesOf := pagesOf + [pages];
      all := all + res.value.0;
      nextEtags := nextEtags + res.value.1;
      k := k + 1;
    }
    GroupDone(search, limit, etags, taskQueries, pagesOf, all, nextEtags);
    FetchedAllDone(search, limit, etags, taskQueries, all, nextEtags);
    r := Ok((Merge(all, limit), nextEtags));
  }

  /**
   * The task group of `fetchPRs`: one task per query, completing in `order`, run as
   * `RunTasks`. The result is `FetchedAll` of the queries in completion order; the
   * ghost results are those queries and, per completed task, its pages, and
   * `FanOutDetermined` shows the search answers fix them.
   */
  method RunQueries(queries: seq<string>, limit: int, etags: map<string, string>, order: seq<nat>,
                    search: SearchOracle)
    returns (r: Result<(seq<PullRequest>, map<string, string>), AppError>,
             ghost taskQueries: seq<string>, ghost pagesOf: seq<seq<PageRequest>>)
    requires |queries| >= 1 && limit >= 0
    requires IsCompletionOrder(order, |queries|)
    ensures taskQueries == InCompletionOrder(queries, order)
    ensures FanOutTrace(search, limit, etags, taskQueries, pagesOf)
    ensures r == FanOutResult(search, limit, etags, taskQueries, pagesOf)
    ensures r.Ok? ==> |pagesOf| == |taskQueries|
    ensures r == FetchedAll(search, limit, etags, InCompletionOrder(queries, order), [], etags)
  {
    var tasks := InCompletionOrder(queries, order);
    taskQueries := tasks;
    r, pagesOf := RunTasks(tasks, limit, etags, search);
  }

  /**
   * The completed tasks and their pages are determined by the search answers: two
   * traces of the same group are equal, and so is what the group returns.
   */
  lemma FanOutDetermined(search: SearchOracle, limit: int, etags: map<string, string>,
                          taskQueries: seq<string>, a: seq<seq<PageRequest>>, b: seq<seq<PageRequest>>)
    requires limit >= 0
    requires FanOutTrace(search, limit, etags, taskQueries, a)
    requires FanOutTrace(search, limit, etags, taskQueries, b)
    ensures a == b
    ensures FanOutResult(search, limit, etags, taskQueries, a) == FanOutResult(search, limit, etags, taskQueries, b)
  {
    var n := if |a| <= |b| then |a| else |b|;
    forall k | 0 <= k < n ensures a[k] == b[k] {
      PagingDetermined(search, taskQueries[k], limit, etags, a[k], b[k]);
    }
    if |a| <= |b| {
      GroupEndsWhereItFails(search, limit, etags, taskQueries, a, b);
    } else {
      GroupEndsWhereItFails(search, limit, etags, taskQueries, b, a);
    }
  }

  /** A group that stopped on a failing task completed no task after it. */
  lemma GroupEndsWhereItFails(search: SearchOracle, limit: int, etags: map<string, string>,
                              taskQueries: seq<string>, x: seq<seq<PageRequest>>, y: seq<seq<PageRequest>>)
    requires FanOutTrace(search, limit, etags, taskQueries, x)
    requires FanOutTrace(search, limit, etags, taskQueries, y)
    requires |x| <= |y| && forall k :: 0 <= k < |x| ==> x[k] == y[k]
    ensures |x| == |y|
  {
    assert x[|x| - 1] == y[|x| - 1];
  }

  /** `fetchPRs`: the queries built from the settings, run as one task group. */
  method FetchPRs(login: string, settings: AppSettings, quick: ScopeSelection, orgOrder: seq<string>,
                  etags: map<string, string>, order: seq<nat>, search: SearchOracle)
    returns (r: Result<(seq<PullRequest>, map<string, string>), AppError>,
             ghost taskQueries: seq<string>, ghost pagesOf: seq<seq<PageRequest>>)
    requires IsEnumeration(orgOrder, settings.scope.selectedOrgs)
    requires settings.limit >= 0
    requires IsCompletionOrder(order, |FetchQueries(login, settings, quick, orgOrder)|)
    ensures taskQueries == InCompletionOrder(FetchQueries(login, settings, quick, orgOrder), order)
    ensures FanOutTrace(search, settings.limit, etags, taskQueries, pagesOf)
    ensures r == FanOutResult(search, settings.limit, etags, taskQueries, pagesOf)
    ensures r.Ok? ==> |pagesOf| == |taskQueries|
    ensures r == FetchedAll(search, settings.limit, etags, InCompletionOrder(FetchQueries(login, settings, quick, orgOrder), order), [], etags)
  {
    var queries := FetchQueries(login, settings, quick, orgOrder);
    r, taskQueries, pagesOf := RunQueries(queries, settings.limit, etags, order, search);
  }

  // ---------------------------------------------------------------- review state

  /** A review as decoded, `submittedAt` in seconds. */
  datatype Review = Review(state: string, submittedAt: Option<int>)

  /** `Date.distantPast` (1 January of year 1), in seconds since 1970. */
  const DistantPast: int := -62135596800

  function SubmittedKey(r: Review): int
  {
    match r.submittedAt
    case Some(t) => t
    case None => DistantPast
  }

  predicate SortedBySubmission(s: seq<Review>)
  {
    forall i, j :: 0 <= i < j < |s| ==> SubmittedKey(s[i]) <= SubmittedKey(s[j])
  }

  lemma SortedBySubmissionCons(a: Review, rest: seq<Review>)
    requires SortedBySubmission(rest)
    requires forall k :: 0 <= k < |rest| ==> SubmittedKey(a) <= SubmittedKey(rest[k])
    ensures SortedBySubmission([a] + rest)
  {
    var r := [a] + rest;
    forall i, j | 0 <= i < j < |r| ensures SubmittedKey(r[i]) <= SubmittedKey(r[j]) {
      assert r[j] == rest[j - 1];
      if i > 0 { assert r[i] == rest[i - 1]; }
    }
  }

  /** Every entry of a permutation of `s + [x]` is submitted no earlier than a bound on `s` and `x`. */
  lemma PermutationBoundedBelow(rest: seq<Review>, s: seq<Review>, x: Review, bound: int)
    requires multiset(rest) == multiset(s) + multiset{x}
    requires forall k :: 0 <= k < |s| ==> bound <= SubmittedKey(s[k])
    requires bound <= SubmittedKey(x)
    ensures forall k :: 0 <= k < |rest| ==> bound <= SubmittedKey(rest[k])
  {
    forall k | 0 <= k < |rest| ensures bound <= SubmittedKey(rest[k]) {
      assert rest[k] in multiset(rest);
      if rest[k] != x {
        assert rest[k] in multiset(s);
        var m :| 0 <= m < |s| && s[m] == rest[k];
      }
    }
  }

  /** Inserts `x` after every review submitted no later than it (so equal keys keep their order). */
  function InsertBySubmission(s: seq<Review>, x: Review): (r: seq<Review>)
    requires SortedBySubmission(s)
    ensures SortedBySubmission(r)
    ensures multiset(r) == multiset(s) + multiset{x}
  {
    if s == [] then [x]
    else if SubmittedKey(s[0]) <= SubmittedKey(x) then
      var rest := InsertBySubmission(s[1..], x);
      assert s == [s[0]] + s[1..];
      PermutationBoundedBelow(rest, s[1..], x, SubmittedKey(s[0]));
      SortedBySubmissionCons(s[0], rest);
      [s[0]] + rest
    else
      SortedBySubmissionCons(x, s);
      [x] + s
  }

  /** `sorted { ($0.submitted_at ?? .distantPast) < ($1.submitted_at ?? .distantPast) }`. */
  function SortBySubmission(s: seq<Review>): (r: seq<Review>)
    ensures SortedBySubmission(r)
    ensures multiset(r) == multiset(s)
  {
    if s == [] then []
    else
      assert s == s[..|s| - 1] + [s[|s| - 1]];
      InsertBySubmission(SortBySubmission(s[..|s| - 1]), s[|s| - 1])
  }

  /** A review that decides the state: changes requested or approved, in any letter case. */
  predicate Decisive(r: Review)
  {
    Upper(r.state) == "CHANGES_REQUESTED" || Upper(r.state) == "APPROVED"
  }

  /** The position of the last decisive review (the scan of `ordered.reversed()`). */
  function LastDecisive(s: seq<Review>): (r: Option<nat>)
    ensures r.Some? ==> r.value < |s| && Decisive(s[r.value]) &&
                        forall k :: r.value < k < |s| ==> !Decisive(s[k])
    ensures r.None? ==> forall k :: 0 <= k < |s| ==> !Decisive(s[k])
  {
    if s == [] then None
    else if Decisive(s[|s| - 1]) then Some(|s| - 1)
    else
      var r := LastDecisive(s[..|s| - 1]);
      assert forall k :: 0 <= k < |s| - 1 ==> s[..|s| - 1][k] == s[k];
      r
  }

  /** Review `i` is decisive and no decisive review was submitted later. */
  predicate LatestDecisiveAt(reviews: seq<Review>, i: int)
  {
    0 <= i < |reviews| && Decisive(reviews[i]) &&
    forall j :: 0 <= j < |reviews| && Decisive(reviews[j]) ==> SubmittedKey(reviews[j]) <= SubmittedKey(reviews[i])
  }

  predicate NoDecisive(reviews: seq<Review>)
  {
    forall j :: 0 <= j < |reviews| ==> !Decisive(reviews[j])
  }

  /**
   * `summarizeReviewState`: the latest decisive review decides; without one, pending
   * review requests give "review requested", otherwise "pending".
   */
  function SummarizeReviewState(reviews: seq<Review>, requestedReviewers: seq<string>): (r: string)
    ensures r == "changes requested" ==>
              exists i :: LatestDecisiveAt(reviews, i) && Upper(reviews[i].state) == "CHANGES_REQUESTED"
    ensures r == "approved" ==>
              exists i :: LatestDecisiveAt(reviews, i) && Upper(reviews[i].state) == "APPROVED"
    ensures r == "review requested" <==> NoDecisive(reviews) && requestedReviewers != []
    ensures r == "pending" <==> NoDecisive(reviews) && requestedReviewers == []
    ensures !NoDecisive(reviews) ==> r == "changes requested" || r == "approved"
  {
    var ordered := SortBySubmission(reviews);
    assert forall x :: x in ordered <==> x in reviews by {
      assert forall x :: x in ordered <==> x in multiset(ordered);
      assert forall x :: x in reviews <==> x in multiset(reviews);
    }
    match LastDecisive(ordered)
    case Some(i) =>
      LatestInOrder(reviews, ordered, i);
      if Upper(ordered[i].state) == "CHANGES_REQUESTED" then "changes requested" else "approved"
    case None =>
      forall j | 0 <= j < |reviews| ensures !Decisive(reviews[j]) {
        assert reviews[j] in ordered;
      }
      if requestedReviewers != [] then "review requested" else "pending"
  }

  lemma LatestInOrder(reviews: seq<Review>, ordered: seq<Review>, i: nat)
    requires forall x :: x in ordered <==> x in reviews
    requires SortedBySubmission(ordered)
    requires i < |ordered| && Decisive(ordered[i]) && forall k :: i < k < |ordered| ==> !Decisive(ordered[k])
    ensures exists w :: LatestDecisiveAt(reviews, w) && reviews[w] == ordered[i]
    ensures !NoDecisive(reviews)
  {
    assert ordered[i] in reviews;
    var w :| 0 <= w < |reviews| && reviews[w] == ordered[i];
    forall j | 0 <= j < |reviews| && Decisive(reviews[j]) ensures SubmittedKey(reviews[j]) <= SubmittedKey(reviews[w]) {
      assert reviews[j] in ordered;
      var m :| 0 <= m < |ordered| && ordered[m] == reviews[j];
      assert m <= i;
    }
    assert LatestDecisiveAt(reviews, w);
  }

  // ---------------------------------------------------------------- detail and metadata

  datatype HeadRepo = HeadRepo(name: string, ownerLogin: string)
  datatype DetailHead = DetailHead(ref: string, sha: string, repo: Option<HeadRepo>)

  /** The decoded body of `GET repos/{owner}/{name}/pulls/{number}` as `fetchPRDetail` reads it. */
  datatype PullDetail = PullDetail(
    number: int,
    title: string,
    draft: bool,
    state: string,
    head: DetailHead,
    requestedReviewers: seq<string>,
    updatedAt: int,
    htmlURL: string)

  function PullPath(pr: PullRequest): string
  {
    "repos/" + pr.repo.owner + "/" + pr.repo.name + "/pulls/" + IntToString(pr.number)
  }

  function ReviewsPath(pr: PullRequest): string
  {
    PullPath(pr) + "/reviews"
  }

  /** A path under `repos/` with a `/pulls/` segment is a reviews call when it ends in `/reviews`, else a detail call. */
  lemma PullsPathClassified(front: string, tail: string)
    requires HasPrefix(front, "repos/")
    ensures Classify(front + "/pulls/" + tail) ==
            if HasSuffix(front + "/pulls/" + tail, "/reviews") then ReviewsCall else PRDetailCall
  {
    var p := front + "/pulls/" + tail;
    assert p[0] == 'r' && p[0] != "user"[0] && p[0] != "search/issues"[0];
    assert OccursAt(p, "/pulls/", |front|) by {
      assert p[|front|..|front| + 7] == "/pulls/";
    }
  }

  /** The detail and the reviews calls are counted as such, whatever the repository is called. */
  lemma DetailCallsClassified(pr: PullRequest)
    ensures Classify(PullPath(pr)) == PRDetailCall
    ensures Classify(ReviewsPath(pr)) == ReviewsCall
  {
    var front := "repos/" + pr.repo.owner + "/" + pr.repo.name;
    var num := IntToString(pr.number);
    assert HasPrefix(front, "repos/") by { assert front[..6] == "repos/"; }
    var p := PullPath(pr);
    assert p == front + "/pulls/" + num;
    PullsPathClassified(front, num);
    assert !HasSuffix(p, "/reviews") by {
      assert p[|p| - 1] == num[|num| - 1];
    }
    var rp := ReviewsPath(pr);
    assert rp == front + "/pulls/" + (num + "/reviews");
    PullsPathClassified(front, num + "/reviews");
    assert HasSuffix(rp, "/reviews");
  }

  /**
   * `fetchPRDetail`: the detail call's error comes first; a missing body gives the
   * pull request back unchanged; otherwise the reviews call's error, or a pull request
   * rebuilt from the detail that keeps the input's id and status summaries.
   */
  function FetchPRDetail(pr: PullRequest,
                         detail: Result<GitHubResponse<PullDetail>, AppError>,
                         reviews: Result<GitHubResponse<seq<Review>>, AppError>): (r: Result<PullRequest, AppError>)
    ensures detail.Err? ==> r == Err(detail.error)
    ensures detail.Ok? && detail.value.value.None? ==> r == Ok(pr)
    ensures detail.Ok? && detail.value.value.Some? ==> (r.Err? <==> reviews.Err?) && (reviews.Err? ==> r == Err(reviews.error))
    ensures r.Ok? ==> r.value.id == pr.id && r.value.checkSummary == pr.checkSummary &&
                      r.value.actionsSummary == pr.actionsSummary
    ensures r.Ok? && detail.Ok? && detail.value.value.Some? ==>
              var d := detail.value.value.value;
              r.value.repo.owner == (if d.head.repo.Some? then d.head.repo.value.ownerLogin else pr.repo.owner) &&
              r.value.repo.name == (if d.head.repo.Some? then d.head.repo.value.name else pr.repo.name) &&
              r.value.number == d.number && r.value.title == d.title && r.value.isDraft == d.draft &&
              r.value.state == d.state && r.value.headRef == d.head.ref && r.value.headSHA == d.head.sha &&
              r.value.updatedAt == d.updatedAt && r.value.htmlURL == d.htmlURL &&
              r.value.reviewState ==
                Some(SummarizeReviewState(OrElse(reviews.value.value, []), d.requestedReviewers))
  {
    if detail.Err? then Err(detail.error)
    else
      match detail.value.value
      case None => Ok(pr)
      case Some(d) =>
        if reviews.Err? then Err(reviews.error)
        else
          var state := SummarizeReviewState(OrElse(reviews.value.value, []), d.requestedReviewers);
          var repo := match d.head.repo
            case Some(hr) => RepoRef(hr.ownerLogin, hr.name)
            case None => pr.repo;
          Ok(PullRequest(pr.id, d.number, repo, d.title, d.draft, d.state, d.head.ref, d.head.sha,
                         d.updatedAt, d.htmlURL, Some(state), pr.checkSummary, pr.actionsSummary))
  }

  /** The decoded body of the pull request as `fetchPRMetadata` reads it. */
  datatype MetadataDetail = MetadataDetail(
    mergeableState: Option<string>,
    userLogin: string,
    labels: seq<string>,
    assignees: seq<string>,
    requestedReviewers: seq<string>,
    headRef: string,
    headSHA: string)

  datatype PRMetadata = PRMetadata(
    author: string,
    labels: seq<string>,
    assignees: seq<string>,
    reviewers: seq<string>,
    mergeableState: Option<string>,
    branch: string,
    headSHA: string)

  /** `fetchPRMetadata`: the body's fields, or placeholders and the pull request's own head when there is none. */
  function FetchPRMetadata(pr: PullRequest, detail: Result<GitHubResponse<MetadataDetail>, AppError>): (r: Result<PRMetadata, AppError>)
    ensures detail.Err? <==> r.Err?
    ensures detail.Err? ==> r.error == detail.error
    ensures detail.Ok? && detail.value.value.None? ==>
              r == Ok(PRMetadata("unknown", [], [], [], None, pr.headRef, pr.headSHA))
    ensures detail.Ok? && detail.value.value.Some? ==>
              var d := detail.value.value.value;
              r.value.author == d.userLogin && r.value.labels == d.labels && r.value.assignees == d.assignees &&
              r.value.reviewers == d.requestedReviewers && r.value.mergeableState == d.mergeableState &&
              r.value.branch == d.headRef && r.value.headSHA == d.headSHA
  {
    if detail.Err? then Err(detail.error)
    else
      match detail.value.value
      case None => Ok(PRMetadata("unknown", [], [], [], None, pr.headRef, pr.headSHA))
      case Some(d) => Ok(PRMetadata(d.userLogin, d.labels, d.assignees, d.requestedReviewers,
                                    d.mergeableState, d.headRef, d.headSHA))
  }
}
