/**
 * The merge at the end of `PRService.fetchPRs`: the results of all search queries
 * are grouped by `stableID`, each group keeps its newest pull request, the survivors
 * are sorted newest first and the list is cut to the configured limit.
 *
 * Grouping is a left fold that keeps, per id, the first pull request with the
 * greatest `updatedAt` (what `max(by:)` returns); the sort is an insertion sort.
 * Neither the order among equal timestamps nor the dictionary order of the groups
 * is promised by the source, and nothing below depends on them.
 */
module MergeResults {
  import opened Models

  predicate UniqueIDs(prs: seq<PullRequest>, key: PullRequest -> string)
  {
    forall i, j :: 0 <= i < |prs| && 0 <= j < |prs| && i != j ==> key(prs[i]) != key(prs[j])
  }

  function IDs(prs: seq<PullRequest>, key: PullRequest -> string): set<string>
  {
    set i | 0 <= i < |prs| :: key(prs[i])
  }

  /** `p` occurs in `all` and no pull request of `all` with the same id is newer. */
  predicate NewestOfItsID(p: PullRequest, all: seq<PullRequest>, key: PullRequest -> string)
  {
    p in all && forall x :: x in all && key(x) == key(p) ==> x.updatedAt <= p.updatedAt
  }

  predicate SortedNewestFirst(prs: seq<PullRequest>)
  {
    forall i, j :: 0 <= i < j < |prs| ==> prs[j].updatedAt <= prs[i].updatedAt
  }

  // ---------------------------------------------------------------- id sets

  lemma IDsSnoc(front: seq<PullRequest>, x: PullRequest, key: PullRequest -> string)
    ensures IDs(front + [x], key) == IDs(front, key) + {key(x)}
  {
    var s := front + [x];
    forall id | id in IDs(s, key) ensures id in IDs(front, key) + {key(x)} {
      var k :| 0 <= k < |s| && key(s[k]) == id;
      if k < |front| { assert s[k] == front[k]; }
    }
    forall id | id in IDs(front, key) ensures id in IDs(s, key) {
      var k :| 0 <= k < |front| && key(front[k]) == id;
      assert s[k] == front[k];
    }
    assert s[|front|] == x;
  }

  lemma IDsCons(x: PullRequest, rest: seq<PullRequest>, key: PullRequest -> string)
    ensures IDs([x] + rest, key) == {key(x)} + IDs(rest, key)
  {
    var s := [x] + rest;
    forall id | id in IDs(s, key) ensures id in {key(x)} + IDs(rest, key) {
      var k :| 0 <= k < |s| && key(s[k]) == id;
      if k > 0 { assert s[k] == rest[k - 1]; }
    }
    forall id | id in IDs(rest, key) ensures id in IDs(s, key) {
      var k :| 0 <= k < |rest| && key(rest[k]) == id;
      assert s[k + 1] == rest[k];
    }
    assert s[0] == x;
  }

  lemma InIDs(p: PullRequest, s: seq<PullRequest>, key: PullRequest -> string)
    requires p in s
    ensures key(p) in IDs(s, key)
  {
    var k :| 0 <= k < |s| && s[k] == p;
  }

  /** A pull request whose id is new to a duplicate-free list can go in front of it. */
  lemma ConsUnique(x: PullRequest, rest: seq<PullRequest>, key: PullRequest -> string)
    requires UniqueIDs(rest, key) && key(x) !in IDs(rest, key)
    ensures UniqueIDs([x] + rest, key)
  {
    var s := [x] + rest;
    forall i, j | 0 <= i < |s| && 0 <= j < |s| && i != j ensures key(s[i]) != key(s[j]) {
      if i == 0 {
        assert s[j] == rest[j - 1];
        InIDs(rest[j - 1], rest, key);
      } else if j == 0 {
        assert s[i] == rest[i - 1];
        InIDs(rest[i - 1], rest, key);
      } else {
        assert s[i] == rest[i - 1] && s[j] == rest[j - 1];
      }
    }
  }

  // ---------------------------------------------------------------- grouping

  /** Position of the entry with id `id` in `acc`, or `|acc|` when there is none. */
  function IndexOfID(acc: seq<PullRequest>, id: string, key: PullRequest -> string): (i: nat)
    ensures i <= |acc|
    ensures i < |acc| ==> key(acc[i]) == id
    ensures i == |acc| ==> id !in IDs(acc, key)
  {
    if acc == [] then 0
    else if key(acc[0]) == id then 0
    else
      var k := IndexOfID(acc[1..], id, key);
      assert acc == [acc[0]] + acc[1..];
      IDsCons(acc[0], acc[1..], key);
      1 + k
  }

  /** One step of the grouping: a new id is appended, a strictly newer pull request replaces its group's entry. */
  function Upsert(acc: seq<PullRequest>, pr: PullRequest, key: PullRequest -> string): (r: seq<PullRequest>)
    requires UniqueIDs(acc, key)
    ensures UniqueIDs(r, key)
    ensures IDs(r, key) == IDs(acc, key) + {key(pr)}
    ensures forall q :: q in r ==> q in acc || q == pr
    ensures forall q :: q in acc && key(q) != key(pr) ==> q in r
    ensures forall q :: q in r && key(q) == key(pr) ==>
              (q == pr && forall a :: a in acc && key(a) == key(pr) ==> a.updatedAt < pr.updatedAt) ||
              (q in acc && pr.updatedAt <= q.updatedAt)
  {
    var i := IndexOfID(acc, key(pr), key);
    if i == |acc| then
      var r := acc + [pr];
      IDsSnoc(acc, pr, key);
      forall a | a in acc ensures key(a) != key(pr) {
        InIDs(a, acc, key);
      }
      forall i, j | 0 <= i < |r| && 0 <= j < |r| && i != j ensures key(r[i]) != key(r[j]) {
        if i < |acc| && j < |acc| {
          assert r[i] == acc[i] && r[j] == acc[j];
        } else if i < |acc| {
          assert r[i] in acc;
        } else {
          assert r[j] in acc;
        }
      }
      r
    else if acc[i].updatedAt < pr.updatedAt then
      UpsertReplace(acc, i, pr, key);
      acc[i := pr]
    else
      InIDs(acc[i], acc, key);
      acc
  }

  lemma UpsertReplace(acc: seq<PullRequest>, i: nat, pr: PullRequest, key: PullRequest -> string)
    requires UniqueIDs(acc, key) && i < |acc| && key(acc[i]) == key(pr) && acc[i].updatedAt < pr.updatedAt
    ensures var r := acc[i := pr];
      UniqueIDs(r, key) && IDs(r, key) == IDs(acc, key) &&
      (forall q :: q in r ==> q in acc || q == pr) &&
      (forall q :: q in acc && key(q) != key(pr) ==> q in r) &&
      (forall q :: q in r && key(q) == key(pr) ==> q == pr) &&
      (forall a :: a in acc && key(a) == key(pr) ==> a.updatedAt < pr.updatedAt)
  {
    var r := acc[i := pr];
    forall a | a in acc && key(a) == key(pr) ensures a == acc[i] {
      var k :| 0 <= k < |acc| && acc[k] == a;
    }
    forall id | id in IDs(r, key) ensures id in IDs(acc, key) {
      var k :| 0 <= k < |r| && key(r[k]) == id;
      if k == i { assert key(acc[i]) == id; } else { assert r[k] == acc[k]; }
    }
    forall id | id in IDs(acc, key) ensures id in IDs(r, key) {
      var k :| 0 <= k < |acc| && key(acc[k]) == id;
      if k == i { assert key(r[i]) == id; } else { assert r[k] == acc[k]; }
    }
    forall q | q in acc && key(q) != key(pr) ensures q in r {
      var k :| 0 <= k < |acc| && acc[k] == q;
      assert r[k] == q;
    }
    forall q | q in r ensures q in acc || q == pr {
      var k :| 0 <= k < |r| && r[k] == q;
      if k != i { assert acc[k] == q; }
    }
    forall k | 0 <= k < |r| && k != i ensures key(r[k]) != key(pr) {
      assert r[k] == acc[k];
    }
    forall q | q in r && key(q) == key(pr) ensures q == pr {
      var k :| 0 <= k < |r| && r[k] == q;
    }
  }

  /** `Dictionary(grouping:by:)` followed by `max(by: updatedAt)` per group. */
  function Dedup(prs: seq<PullRequest>, key: PullRequest -> string): (r: seq<PullRequest>)
    ensures UniqueIDs(r, key)
    ensures IDs(r, key) == IDs(prs, key)
    ensures forall p :: p in r ==> NewestOfItsID(p, prs, key)
  {
    if prs == [] then []
    else
      var front := prs[..|prs| - 1];
      var x := prs[|prs| - 1];
      var acc := Dedup(front, key);
      assert prs == front + [x];
      IDsSnoc(front, x, key);
      DedupStep(front, acc, x, key);
      Upsert(acc, x, key)
  }

  lemma DedupStep(front: seq<PullRequest>, acc: seq<PullRequest>, x: PullRequest, key: PullRequest -> string)
    requires UniqueIDs(acc, key) && IDs(acc, key) == IDs(front, key)
    requires forall p :: p in acc ==> NewestOfItsID(p, front, key)
    ensures forall p :: p in Upsert(acc, x, key) ==> NewestOfItsID(p, front + [x], key)
  {
    var r := Upsert(acc, x, key);
    var prs := front + [x];
    forall p | p in r ensures NewestOfItsID(p, prs, key) {
      if key(p) != key(x) {
        assert p in acc;
        assert NewestOfItsID(p, front, key);
      } else if p == x && forall a :: a in acc && key(a) == key(x) ==> a.updatedAt < x.updatedAt {
        forall y | y in prs && key(y) == key(x) ensures y.updatedAt <= x.updatedAt {
          if y in front {
            InIDs(y, front, key);
            var k :| 0 <= k < |acc| && key(acc[k]) == key(y);
            assert NewestOfItsID(acc[k], front, key);
          }
        }
      } else {
        assert p in acc && x.updatedAt <= p.updatedAt;
        assert NewestOfItsID(p, front, key);
      }
    }
  }

  // ---------------------------------------------------------------- sorting

  lemma SortedCons(a: PullRequest, rest: seq<PullRequest>)
    requires SortedNewestFirst(rest)
    requires forall k :: 0 <= k < |rest| ==> rest[k].updatedAt <= a.updatedAt
    ensures SortedNewestFirst([a] + rest)
  {
    var r := [a] + rest;
    forall i, j | 0 <= i < j < |r| ensures r[j].updatedAt <= r[i].updatedAt {
      assert r[j] == rest[j - 1];
      if i > 0 { assert r[i] == rest[i - 1]; }
    }
  }

  /** Every entry of a permutation of `s + [x]` is no newer than a bound on `s` and `x`. */
  lemma PermutationBounded(rest: seq<PullRequest>, s: seq<PullRequest>, x: PullRequest, bound: int)
    requires multiset(rest) == multiset(s) + multiset{x}
    requires forall k :: 0 <= k < |s| ==> s[k].updatedAt <= bound
    requires x.updatedAt <= bound
    ensures forall k :: 0 <= k < |rest| ==> rest[k].updatedAt <= bound
  {
    forall k | 0 <= k < |rest| ensures rest[k].updatedAt <= bound {
      assert rest[k] in multiset(rest);
      if rest[k] != x {
        assert rest[k] in multiset(s);
        var m :| 0 <= m < |s| && s[m] == rest[k];
      }
    }
  }

  /** Inserts `x` after every entry at least as new as it. */
  function InsertNewestFirst(s: seq<PullRequest>, x: PullRequest): (r: seq<PullRequest>)
    requires SortedNewestFirst(s)
    ensures SortedNewestFirst(r)
    ensures multiset(r) == multiset(s) + multiset{x}
  {
    if s == [] then [x]
    else if x.updatedAt <= s[0].updatedAt then
      var rest := InsertNewestFirst(s[1..], x);
      assert s == [s[0]] + s[1..];
      PermutationBounded(rest, s[1..], x, s[0].updatedAt);
      SortedCons(s[0], rest);
      [s[0]] + rest
    else
      SortedCons(x, s);
      [x] + s
  }

  /** `sorted(by: { $0.updatedAt > $1.updatedAt })`. */
  function SortNewestFirst(s: seq<PullRequest>): (r: seq<PullRequest>)
    ensures SortedNewestFirst(r)
    ensures multiset(r) == multiset(s)
  {
    if s == [] then []
    else
      assert s == s[..|s| - 1] + [s[|s| - 1]];
      InsertNewestFirst(SortNewestFirst(s[..|s| - 1]), s[|s| - 1])
  }

  lemma PermutationKeepsIDs(a: seq<PullRequest>, b: seq<PullRequest>, key: PullRequest -> string)
    requires multiset(a) == multiset(b)
    ensures IDs(a, key) == IDs(b, key)
    ensures forall q :: q in a <==> q in b
  {
    assert forall q :: q in a <==> q in multiset(a);
    assert forall q :: q in b <==> q in multiset(b);
    forall id | id in IDs(a, key) ensures id in IDs(b, key) {
      var k :| 0 <= k < |a| && key(a[k]) == id;
      InIDs(a[k], b, key);
    }
    forall id | id in IDs(b, key) ensures id in IDs(a, key) {
      var k :| 0 <= k < |b| && key(b[k]) == id;
      InIDs(b[k], a, key);
    }
  }

  lemma {:induction false} InsertKeepsUnique(t: seq<PullRequest>, x: PullRequest, key: PullRequest -> string)
    requires SortedNewestFirst(t) && UniqueIDs(t, key) && key(x) !in IDs(t, key)
    ensures UniqueIDs(InsertNewestFirst(t, x), key)
    decreases |t|
  {
    if t == [] {
    } else if x.updatedAt <= t[0].updatedAt {
      assert t == [t[0]] + t[1..];
      IDsCons(t[0], t[1..], key);
      UniqueTail(t, key);
      InsertKeepsUnique(t[1..], x, key);
      var rest := InsertNewestFirst(t[1..], x);
      PermutationKeepsIDs(rest, t[1..] + [x], key);
      IDsSnoc(t[1..], x, key);
      ConsUnique(t[0], rest, key);
    } else {
      ConsUnique(x, t, key);
    }
  }

  /** Without its first item a list of distinct ids keeps distinct ids, none of them the first item's. */
  lemma UniqueTail(t: seq<PullRequest>, key: PullRequest -> string)
    requires t != [] && UniqueIDs(t, key)
    ensures UniqueIDs(t[1..], key)
    ensures key(t[0]) !in IDs(t[1..], key)
  {
    forall i, j | 0 <= i < |t[1..]| && 0 <= j < |t[1..]| && i != j
      ensures key(t[1..][i]) != key(t[1..][j])
    {
      assert t[1..][i] == t[i + 1] && t[1..][j] == t[j + 1];
    }
    forall k | 0 <= k < |t[1..]| ensures key(t[1..][k]) != key(t[0]) {
      assert t[1..][k] == t[k + 1];
    }
  }

  lemma {:induction false} SortKeepsUnique(s: seq<PullRequest>, key: PullRequest -> string)
    requires UniqueIDs(s, key)
    ensures UniqueIDs(SortNewestFirst(s), key)
    decreases |s|
  {
    if s != [] {
      var front := s[..|s| - 1];
      var x := s[|s| - 1];
      assert s == front + [x];
      assert UniqueIDs(front, key) by {
        forall i, j | 0 <= i < |front| && 0 <= j < |front| && i != j
          ensures key(front[i]) != key(front[j])
        {
          assert front[i] == s[i] && front[j] == s[j];
        }
      }
      SortKeepsUnique(front, key);
      var t := SortNewestFirst(front);
      PermutationKeepsIDs(t, front, key);
      assert key(x) !in IDs(front, key) by {
        forall k | 0 <= k < |front| ensures key(front[k]) != key(x) {
          assert front[k] == s[k];
        }
      }
      InsertKeepsUnique(t, x, key);
    }
  }

  // ---------------------------------------------------------------- merge

  /** The first `n` entries (`prefix(n)`). */
  function Take(s: seq<PullRequest>, n: nat): (r: seq<PullRequest>)
    ensures |r| == if n < |s| then n else |s|
    ensures r == s[..|r|]
  {
    if n < |s| then s[..n] else s
  }

  /** Grouping by `key`, newest per group, newest first, at most `limit` entries. */
  function MergeBy(all: seq<PullRequest>, limit: int, key: PullRequest -> string): (r: seq<PullRequest>)
    requires limit >= 0
    ensures |r| <= limit
    ensures UniqueIDs(r, key)
    ensures SortedNewestFirst(r)
    ensures forall p :: p in r ==> NewestOfItsID(p, all, key)
    ensures forall x :: x in all && key(x) !in IDs(r, key) ==>
              |r| == limit && forall i :: 0 <= i < |r| ==> x.updatedAt <= r[i].updatedAt
  {
    var grouped := Dedup(all, key);
    var sorted := SortNewestFirst(grouped);
    PermutationKeepsIDs(grouped, sorted, key);
    SortKeepsUnique(grouped, key);
    var r := Take(sorted, limit);
    forall i, j | 0 <= i < |r| && 0 <= j < |r| && i != j ensures key(r[i]) != key(r[j]) {
      assert r[i] == sorted[i] && r[j] == sorted[j];
    }
    TruncationDropsOnlyOlder(all, grouped, sorted, limit, key);
    r
  }

  /** An id missing after the cut lost its place to pull requests at least as new. */
  lemma TruncationDropsOnlyOlder(all: seq<PullRequest>, grouped: seq<PullRequest>, sorted: seq<PullRequest>,
                                 limit: nat, key: PullRequest -> string)
    requires IDs(grouped, key) == IDs(all, key)
    requires forall p :: p in grouped ==> NewestOfItsID(p, all, key)
    requires IDs(grouped, key) == IDs(sorted, key)
    requires forall q :: q in grouped <==> q in sorted
    requires SortedNewestFirst(sorted)
    ensures var r := Take(sorted, limit);
      forall x :: x in all && key(x) !in IDs(r, key) ==>
        |r| == limit && forall i :: 0 <= i < |r| ==> x.updatedAt <= r[i].updatedAt
  {
    var r := Take(sorted, limit);
    forall x | x in all && key(x) !in IDs(r, key)
      ensures |r| == limit && forall i :: 0 <= i < |r| ==> x.updatedAt <= r[i].updatedAt
    {
      InIDs(x, all, key);
      var j :| 0 <= j < |sorted| && key(sorted[j]) == key(x);
      assert NewestOfItsID(sorted[j], all, key) by { assert sorted[j] in grouped; }
      forall i | 0 <= i < |r| ensures key(sorted[i]) != key(x) {
        assert r[i] == sorted[i];
        InIDs(r[i], r, key);
      }
      assert |r| <= j;
      forall i | 0 <= i < |r| ensures x.updatedAt <= r[i].updatedAt {
        assert r[i] == sorted[i];
      }
    }
  }

  // ---------------------------------------------------------------- merging a merged list again

  lemma UpsertFresh(acc: seq<PullRequest>, x: PullRequest, key: PullRequest -> string)
    requires UniqueIDs(acc, key)
    requires forall k :: 0 <= k < |acc| ==> key(acc[k]) != key(x)
    ensures Upsert(acc, x, key) == acc + [x]
  {
    var i := IndexOfID(acc, key(x), key);
    assert i == |acc|;
  }

  lemma {:induction false} DedupOfUnique(prs: seq<PullRequest>, key: PullRequest -> string)
    requires UniqueIDs(prs, key)
    ensures Dedup(prs, key) == prs
  {
    if prs != [] {
      var front := prs[..|prs| - 1];
      var x := prs[|prs| - 1];
      UniqueFront(prs, key);
      DedupOfUnique(front, key);
      UpsertFresh(front, x, key);
      assert front + [x] == prs;
    }
  }

  /** Without its last item a list of distinct ids keeps distinct ids, none of them the last item's. */
  lemma UniqueFront(prs: seq<PullRequest>, key: PullRequest -> string)
    requires prs != [] && UniqueIDs(prs, key)
    ensures UniqueIDs(prs[..|prs| - 1], key)
    ensures forall k :: 0 <= k < |prs| - 1 ==> key(prs[k]) != key(prs[|prs| - 1])
  {
    var front := prs[..|prs| - 1];
    forall i, j | 0 <= i < |front| && 0 <= j < |front| && i != j
      ensures key(front[i]) != key(front[j])
    {
      assert front[i] == prs[i] && front[j] == prs[j];
    }
    forall k | 0 <= k < |front| ensures key(front[k]) != key(prs[|prs| - 1]) {
      assert prs[k] == front[k];
    }
  }

  lemma {:induction false} SortOfSorted(s: seq<PullRequest>)
    requires SortedNewestFirst(s)
    ensures SortNewestFirst(s) == s
  {
    if s != [] {
      var front := s[..|s| - 1];
      var x := s[|s| - 1];
      SortOfSorted(front);
      InsertAtEnd(front, x);
      assert front + [x] == s;
    }
  }

  lemma {:induction false} InsertAtEnd(s: seq<PullRequest>, x: PullRequest)
    requires SortedNewestFirst(s)
    requires forall i :: 0 <= i < |s| ==> x.updatedAt <= s[i].updatedAt
    ensures InsertNewestFirst(s, x) == s + [x]
  {
    if s != [] {
      InsertAtEnd(s[1..], x);
      assert [s[0]] + (s[1..] + [x]) == s + [x];
    }
  }

  /** Merging an already merged list with the same limit gives it back unchanged. */
  lemma MergeByIdempotent(all: seq<PullRequest>, limit: int, key: PullRequest -> string)
    requires limit >= 0
    ensures MergeBy(MergeBy(all, limit, key), limit, key) == MergeBy(all, limit, key)
  {
    var m := MergeBy(all, limit, key);
    DedupOfUnique(m, key);
    SortOfSorted(m);
  }

  // ---------------------------------------------------------------- the merge of `fetchPRs`

  /**
   * `Array(merged.prefix(settings.limit))` over the groups of `stableID`: at most
   * `limit` pull requests, one per id, each the newest of its id, newest first;
   * an id is missing only when the list is full of pull requests at least as new.
   * A negative limit traps in `prefix`.
   */
  function Merge(all: seq<PullRequest>, limit: int): (r: seq<PullRequest>)
    requires limit >= 0
    ensures |r| <= limit
    ensures UniqueIDs(r, StableID)
    ensures SortedNewestFirst(r)
    ensures forall p :: p in r ==> NewestOfItsID(p, all, StableID)
    ensures forall x :: x in all && StableID(x) !in IDs(r, StableID) ==>
              |r| == limit && forall i :: 0 <= i < |r| ==> x.updatedAt <= r[i].updatedAt
  {
    MergeBy(all, limit, StableID)
  }

  lemma MergeIdempotent(all: seq<PullRequest>, limit: int)
    requires limit >= 0
    ensures Merge(Merge(all, limit), limit) == Merge(all, limit)
  {
    MergeByIdempotent(all, limit, StableID);
  }

  /** Of two results with the same id, the strictly newer one is the one kept. */
  lemma NewerDuplicateWins(all: seq<PullRequest>, older: PullRequest, newer: PullRequest, limit: int)
    requires limit >= 0
    requires older in all && newer in all
    requires StableID(older) == StableID(newer) && older.updatedAt < newer.updatedAt
    ensures older !in Merge(all, limit)
  {
  }
}
