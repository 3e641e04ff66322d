/**
 * The repository allowlist editor: `owner/repo` entries typed as a comma-separated
 * input, validated and appended without repeats, and removed one repository at a time.
 */
module Allowlist {
  import opened Text
  import opened Container

  /** `isValidRepo(_:)`: splitting on `/` (empty pieces dropped) gives exactly two pieces. */
  predicate IsValidRepo(value: string)
    ensures IsValidRepo(value) ==> '/' in value
  {
    if '/' in value || value == [] then |Split(value, '/')| == 2
    else SplitSingle(value, '/'); |Split(value, '/')| == 2
  }

  /** An owner and a name, neither empty nor holding `/`, make a valid entry. */
  lemma OwnerSlashNameIsValid(owner: string, name: string)
    requires owner != [] && name != [] && '/' !in owner && '/' !in name
    ensures IsValidRepo(owner + "/" + name)
  {
    SplitConcat(owner, '/', name);
    SplitSingle(owner, '/');
    SplitSingle(name, '/');
  }

  /** Empty pieces are dropped, so a doubled slash is accepted. */
  lemma DoubledSlashIsAccepted()
    ensures IsValidRepo("a//b")
  {
    assert "a//b" == "a" + ['/'] + "/b";
    SplitConcat("a", '/', "/b");
    SplitSingle("a", '/');
    assert "/b" == [] + ['/'] + "b";
    SplitConcat([], '/', "b");
    SplitSingle("b", '/');
  }

  /** Empty pieces are dropped, so leading and trailing slashes are accepted. */
  lemma SurroundingSlashesAreAccepted()
    ensures IsValidRepo("/a/b/")
  {
    var inner: string := "a/b";
    assert "/a/b/" == [] + ['/'] + (inner + ['/'] + []);
    SplitConcat([], '/', inner + ['/'] + []);
    SplitConcat(inner, '/', []);
    assert "a" + "/" + "b" == inner;
    OwnerSlashNameIsValid("a", "b");
  }

  /** A value without any slash, or with three pieces, is rejected. */
  lemma MissingOrExtraPiecesAreRejected(value: string, owner: string, name: string, rest: string)
    requires value != [] && '/' !in value
    requires owner != [] && name != [] && rest != [] && '/' !in owner && '/' !in name && '/' !in rest
    ensures !IsValidRepo(value)
    ensures !IsValidRepo(owner + "/" + name + "/" + rest)
  {
    SplitSingle(value, '/');
    assert owner + "/" + name + "/" + rest == owner + ['/'] + (name + ['/'] + rest);
    SplitConcat(owner, '/', name + ['/'] + rest);
    SplitConcat(name, '/', rest);
    SplitSingle(owner, '/');
    SplitSingle(name, '/');
    SplitSingle(rest, '/');
  }

  /** The whitespace-trimmed pieces of `input`, in order. */
  function TrimAll(pieces: seq<string>): (r: seq<string>)
    ensures |r| == |pieces|
    ensures forall i :: 0 <= i < |r| ==> r[i] == Trim(pieces[i])
  {
    if pieces == [] then [] else [Trim(pieces[0])] + TrimAll(pieces[1..])
  }

  /** The valid entries among `values`, in order. */
  function ValidOnly(values: seq<string>): (r: seq<string>)
    ensures |r| <= |values|
    ensures forall v :: v in r <==> v in values && IsValidRepo(v)
  {
    if values == [] then []
    else (if IsValidRepo(values[0]) then [values[0]] else []) + ValidOnly(values[1..])
  }

  /** The `parts` of `addInput()`: split on commas, trimmed, and kept when valid. */
  function Parts(input: string): (r: seq<string>)
    ensures forall v :: v in r ==> IsValidRepo(v)
  {
    ValidOnly(TrimAll(Split(input, ',')))
  }

  /** The loop of `addInput()`: each part not already present is appended, in order. */
  function AddAll(repos: seq<string>, parts: seq<string>): (r: seq<string>)
    ensures |repos| <= |r| <= |repos| + |parts|
  {
    if parts == [] then repos
    else
      var before := AddAll(repos, parts[..|parts| - 1]);
      var repo := parts[|parts| - 1];
      if repo in before then before else before + [repo]
  }

  /** The existing entries stay in front, in place. */
  lemma {:induction false} AddAllKeepsExisting(repos: seq<string>, parts: seq<string>)
    ensures |AddAll(repos, parts)| >= |repos| && AddAll(repos, parts)[..|repos|] == repos
  {
    if parts != [] {
      var before := AddAll(repos, parts[..|parts| - 1]);
      AddAllKeepsExisting(repos, parts[..|parts| - 1]);
      assert (before + [parts[|parts| - 1]])[..|repos|] == before[..|repos|];
    }
  }

  /** Afterwards the entries are exactly the old ones and the parts. */
  lemma {:induction false} AddAllMembers(repos: seq<string>, parts: seq<string>, x: string)
    ensures x in AddAll(repos, parts) <==> x in repos || x in parts
  {
    if parts != [] {
      var front := parts[..|parts| - 1];
      AddAllMembers(repos, front, x);
      assert parts == front + [parts[|parts| - 1]];
    }
  }

  /** No entry is added twice, even when the input repeats it. */
  lemma {:induction false} AddAllNoDuplicates(repos: seq<string>, parts: seq<string>)
    requires NoDuplicates(repos)
    ensures NoDuplicates(AddAll(repos, parts))
  {
    if parts != [] {
      var before := AddAll(repos, parts[..|parts| - 1]);
      AddAllNoDuplicates(repos, parts[..|parts| - 1]);
      var repo := parts[|parts| - 1];
      if repo !in before {
        var after := before + [repo];
        forall i, j | 0 <= i < j < |after| ensures after[i] != after[j] {
          if j == |before| {
            assert after[i] == before[i];
          }
        }
      }
    }
  }

  /** Adding never brings in an invalid entry. */
  lemma AddInputOnlyAddsValid(repos: seq<string>, input: string, x: string)
    requires x in AddAll(repos, Parts(input)) && x !in repos
    ensures IsValidRepo(x)
  {
    AddAllMembers(repos, Parts(input), x);
  }

  /** The `repos` binding and the text field's `input` of `RepoAllowlistTokensView`. */
  class AllowlistEditor {
    var repos: seq<string>
    var input: string

    constructor (bound: seq<string>)
      ensures repos == bound && input == ""
    {
      repos := bound;
      input := "";
    }

    /** The text field is edited. */
    method SetInput(text: string)
      modifies this
      ensures input == text && repos == old(repos)
    {
      input := text;
    }

    /** `addInput()`: the new parts are appended as `AddAll` says, and the field is emptied. */
    method AddInput()
      modifies this
      ensures repos == AddAll(old(repos), Parts(old(input)))
      ensures input == ""
    {
      var parts := Parts(input);
      var i := 0;
      while i < |parts|
        invariant 0 <= i <= |parts|
        invariant repos == AddAll(old(repos), parts[..i])
      {
        assert parts[..i + 1][..i] == parts[..i];
        var repo := parts[i];
        if repo !in repos {
          repos := repos + [repo];
        }
        i := i + 1;
      }
      assert parts[..i] == parts;
      input := "";
    }

    /** The remove button of an entry: every occurrence goes, the others keep their order. */
    method Remove(repo: string)
      modifies this
      ensures repos == Without(old(repos), repo)
      ensures repo !in repos
      ensures input == old(input)
    {
      repos := Without(repos, repo);
    }
  }
}
