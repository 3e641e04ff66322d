/**
 * The popover's quick-scope picker, which stores a scope as a string key and reads
 * it back, and the draft filter applied to the listed pull requests.
 */
module Popover {
  import opened Text
  import opened Models

  const OrgKeyPrefix := "org:"

  /** Neither fixed key starts with `org:`. */
  lemma FixedKeysAreNotOrgKeys()
    ensures !HasPrefix("all", OrgKeyPrefix) && !HasPrefix("personal", OrgKeyPrefix)
  {
    assert "personal"[..|OrgKeyPrefix|][0] == 'p' && OrgKeyPrefix[0] == 'o';
  }

  /** `scopeSelectionKey(for:)`. */
  function ScopeSelectionKey(scope: ScopeSelection): (key: string)
    ensures scope.All? <==> key == "all"
    ensures scope.Personal? <==> key == "personal"
    ensures scope.Organization? <==> HasPrefix(key, OrgKeyPrefix)
  {
    FixedKeysAreNotOrgKeys();
    match scope
    case All => "all"
    case Personal => "personal"
    case Organization(org) =>
      var key := OrgKeyPrefix + org;
      assert key[..|OrgKeyPrefix|] == OrgKeyPrefix;
      key
  }

  /** `quickScope(from:)`: the two fixed keys, then the `org:` prefix; every other key means all. */
  function QuickScopeFromKey(key: string): (scope: ScopeSelection)
    ensures key == "all" ==> scope == All
    ensures key == "personal" ==> scope == Personal
    ensures HasPrefix(key, OrgKeyPrefix) ==> scope == Organization(key[|OrgKeyPrefix|..])
    ensures key != "personal" && !HasPrefix(key, OrgKeyPrefix) ==> scope == All
  {
    FixedKeysAreNotOrgKeys();
    if key == "all" then All
    else if key == "personal" then Personal
    else if HasPrefix(key, OrgKeyPrefix) then Organization(key[|OrgKeyPrefix|..])
    else All
  }

  /** Reading a stored key back gives the scope that was stored. */
  lemma KeyRoundTrip(scope: ScopeSelection)
    ensures QuickScopeFromKey(ScopeSelectionKey(scope)) == scope
  {
    if scope.Organization? {
      var key := OrgKeyPrefix + scope.org;
      assert key[..|OrgKeyPrefix|] == OrgKeyPrefix;
      assert key[|OrgKeyPrefix|..] == scope.org;
    }
  }

  /** Different scopes are stored under different keys. */
  lemma ScopeSelectionKeyInjective(a: ScopeSelection, b: ScopeSelection)
    requires ScopeSelectionKey(a) == ScopeSelectionKey(b)
    ensures a == b
  {
    KeyRoundTrip(a);
    KeyRoundTrip(b);
  }

  /** The draft filter of the list: drafts are shown only when the settings include them; the order is kept. */
  function ShownPRs(prs: seq<PullRequest>, includeDrafts: bool): (r: seq<PullRequest>)
    ensures |r| <= |prs|
    ensures forall pr :: pr in r <==> pr in prs && (includeDrafts || !pr.isDraft)
  {
    if prs == [] then []
    else (if includeDrafts || !prs[0].isDraft then [prs[0]] else []) + ShownPRs(prs[1..], includeDrafts)
  }

  /** With drafts included the filter lets everything through. */
  lemma {:induction false} ShownPRsIncludingDrafts(prs: seq<PullRequest>)
    ensures ShownPRs(prs, true) == prs
  {
    if prs != [] {
      ShownPRsIncludingDrafts(prs[1..]);
      assert [prs[0]] + prs[1..] == prs;
    }
  }

  /** The filter keeps list order: it distributes over concatenation. */
  lemma {:induction false} ShownPRsAppend(a: seq<PullRequest>, b: seq<PullRequest>, includeDrafts: bool)
    ensures ShownPRs(a + b, includeDrafts) == ShownPRs(a, includeDrafts) + ShownPRs(b, includeDrafts)
    decreases |a|
  {
    if a == [] {
      assert a + b == b;
    } else {
      assert (a + b)[0] == a[0];
      assert (a + b)[1..] == a[1..] + b;
      ShownPRsAppend(a[1..], b, includeDrafts);
    }
  }
}
