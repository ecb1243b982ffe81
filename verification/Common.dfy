/** Small shared vocabulary: optional values and distinctness of identifiers. */
module Common {

  datatype Option<+T> = None | Some(value: T) {
    function GetOr(default: T): T {
      if Some? then value else default
    }
  }

  /**
   Keeps a law closed: a law stated as `forall n :: Open(n) ==> ...` is passed on
   as a whole, and unfolded only where it is proved or `Open` is mentioned.
   */
  ghost predicate Open(n: nat) {
    n >= 0
  }

  /** No two positions hold the same value. */
  ghost predicate Distinct<T>(s: seq<T>) {
    forall i, j :: 0 <= i < j < |s| ==> s[i] != s[j]
  }

  /** The members with a property, in order. */
  function Filter<T>(s: seq<T>, keep: T -> bool): seq<T> {
    if s == [] then []
    else Filter(s[..|s| - 1], keep) + (if keep(s[|s| - 1]) then [s[|s| - 1]] else [])
  }

  /** The members among the first `n` whose position has a property, in order. */
  function FilterAt<T>(s: seq<T>, n: nat, keep: nat -> bool): seq<T>
    requires n <= |s|
  {
    if n == 0 then [] else FilterAt(s, n - 1, keep) + (if keep(n - 1) then [s[n - 1]] else [])
  }

  /** In a list without repetition every member occurs exactly once. */
  lemma {:induction false} DistinctCounts<T>(s: seq<T>, x: T)
    requires Distinct(s)
    ensures multiset(s)[x] == if x in s then 1 else 0
  {
    if s != [] {
      var init, last := s[..|s| - 1], s[|s| - 1];
      assert s == init + [last];
      DistinctCounts(init, x);
      assert x in s <==> x in init || x == last;
    }
  }

  lemma RepeatedCounts<T>(s: seq<T>, i: nat, j: nat)
    requires i < j < |s| && s[i] == s[j]
    ensures multiset(s)[s[i]] >= 2
  {
    assert s == s[..j] + ([s[j]] + s[j + 1..]);
    assert s[..j][i] in multiset(s[..j]);
  }

  /** A list in which every value occurs at most once has no repetition. */
  lemma CountsAreDistinct<T>(s: seq<T>)
    requires forall x :: multiset(s)[x] <= 1
    ensures Distinct(s)
  {
    forall i, j | 0 <= i < j < |s|
      ensures s[i] != s[j]
    {
      if s[i] == s[j] {
        RepeatedCounts(s, i, j);
      }
    }
  }
}
