/**
 * Validation and assembly of the member list: libraries first, then
 * binaries, no name twice.
 */
module Members {

  import opened Wrappers
  import opened Errors

  /** No name occurs at two positions of `s`. */
  predicate Distinct(s: seq<string>)
  {
    forall i, j | 0 <= i < j < |s| :: s[i] != s[j]
  }

  /** Position `j` holds the first repetition in `s`: its name occurred before, and nothing repeated earlier. */
  ghost predicate FirstRepeatAt(s: seq<string>, j: int)
  {
    0 <= j < |s| && s[j] in s[..j] && Distinct(s[..j])
  }

  /**
   * The libraries followed by the binaries, each list in its input order;
   * built by extending an empty vector with each list in turn.
   */
  method CollectMembers(libs: seq<string>, bins: seq<string>) returns (combined: seq<string>)
    ensures combined == libs + bins
  {
    combined := [];
    for i := 0 to |libs|
      invariant combined == libs[..i]
    {
      combined := combined + [libs[i]];
    }
    for j := 0 to |bins|
      invariant combined == libs + bins[..j]
    {
      combined := combined + [bins[j]];
    }
  }

  /**
   * Walks libraries then binaries, remembering the names seen so far; the
   * first name seen a second time is reported.
   */
  method EnsureNoDuplicateMembers(libs: seq<string>, bins: seq<string>) returns (r: Outcome<Error>)
    ensures r.Pass? <==> Distinct(libs + bins)
    ensures r.Fail? ==> exists j :: FirstRepeatAt(libs + bins, j) && r.error == DuplicateMember((libs + bins)[j])
  {
    var names := libs + bins;
    var seen: set<string> := {};
    for i := 0 to |names|
      invariant seen == set k | 0 <= k < i :: names[k]
      invariant Distinct(names[..i])
    {
      if names[i] in seen {
        var k :| 0 <= k < i && names[k] == names[i];
        assert names[..i + 1][k] == names[..i + 1][i];
        assert FirstRepeatAt(names, i);
        return Fail(DuplicateMember(names[i]));
      }
      seen := seen + {names[i]};
    }
    assert names[..|names|] == names;
    return Pass;
  }

  /**
   * The combined list is free of repeats exactly when each list is and no
   * name is both a library and a binary.
   */
  lemma DistinctConcat(libs: seq<string>, bins: seq<string>)
    ensures Distinct(libs + bins) <==>
      Distinct(libs) && Distinct(bins) && forall x :: x in libs ==> x !in bins
  {
    var s := libs + bins;
    if Distinct(s) {
      forall i, j | 0 <= i < j < |libs| ensures libs[i] != libs[j] {
        assert s[i] == libs[i] && s[j] == libs[j];
      }
      forall i, j | 0 <= i < j < |bins| ensures bins[i] != bins[j] {
        assert s[|libs| + i] == bins[i] && s[|libs| + j] == bins[j];
      }
      forall i, j | 0 <= i < |libs| && 0 <= j < |bins| ensures libs[i] != bins[j] {
        assert s[i] == libs[i] && s[|libs| + j] == bins[j];
      }
    }
    if Distinct(libs) && Distinct(bins) && forall x :: x in libs ==> x !in bins {
      forall i, j | 0 <= i < j < |s| ensures s[i] != s[j] {
        if j < |libs| {
          assert s[i] == libs[i] && s[j] == libs[j];
        } else if i >= |libs| {
          assert s[i] == bins[i - |libs|] && s[j] == bins[j - |libs|];
        } else {
          assert s[i] in libs && s[j] in bins;
        }
      }
    }
  }
}
