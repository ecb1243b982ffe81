/**
 `Array.prototype.sort` with a numeric key: the one arrangement that is sorted
 and keeps elements with equal keys in their original order.
 */
module Sorting {

  ghost predicate Sorted<T(!new)>(s: seq<T>, key: T -> real) {
    forall i, j :: 0 <= i < j < |s| ==> key(s[i]) <= key(s[j])
  }

  /** The elements with key `k`, in order. */
  function Ties<T>(s: seq<T>, key: T -> real, k: real): seq<T> {
    if s == [] then []
    else Ties(s[..|s| - 1], key, k) + (if key(s[|s| - 1]) == k then [s[|s| - 1]] else [])
  }

  /** Put `x` behind everything that does not come after it. */
  function Insert<T>(s: seq<T>, x: T, key: T -> real): seq<T> {
    if s == [] || key(s[|s| - 1]) <= key(x) then s + [x]
    else Insert(s[..|s| - 1], x, key) + [s[|s| - 1]]
  }

  function StableSort<T>(s: seq<T>, key: T -> real): seq<T> {
    if s == [] then [] else Insert(StableSort(s[..|s| - 1], key), s[|s| - 1], key)
  }

  lemma {:induction false} InsertAdds<T(!new)>(s: seq<T>, x: T, key: T -> real)
    ensures multiset(Insert(s, x, key)) == multiset(s) + multiset{x}
    ensures forall y :: y in Insert(s, x, key) <==> y in s || y == x
  {
    if s != [] && key(s[|s| - 1]) > key(x) {
      var init, last := s[..|s| - 1], s[|s| - 1];
      assert s == init + [last];
      InsertAdds(init, x, key);
    }
  }

  lemma {:induction false} InsertSorted<T(!new)>(s: seq<T>, x: T, key: T -> real)
    requires Sorted(s, key)
    ensures Sorted(Insert(s, x, key), key)
  {
    if s != [] {
      var init, last := s[..|s| - 1], s[|s| - 1];
      assert s == init + [last];
      if key(last) > key(x) {
        InsertSorted(init, x, key);
        InsertAdds(init, x, key);
        var r := Insert(init, x, key);
        forall i | 0 <= i < |r| ensures key(r[i]) <= key(last) {
          assert r[i] in r;
        }
      }
    }
  }

  lemma TiesAppend<T>(s: seq<T>, x: T, key: T -> real, k: real)
    ensures Ties(s + [x], key, k) == Ties(s, key, k) + (if key(x) == k then [x] else [])
  {
    assert (s + [x])[..|s|] == s;
  }

  /** Elements with different keys may change places. */
  lemma TiesSwap<T>(s: seq<T>, x: T, y: T, key: T -> real, k: real)
    requires key(x) != key(y)
    ensures Ties(s + [x] + [y], key, k) == Ties(s + [y] + [x], key, k)
  {
    TiesAppend(s, x, key, k);
    TiesAppend(s + [x], y, key, k);
    TiesAppend(s, y, key, k);
    TiesAppend(s + [y], x, key, k);
  }

  lemma {:induction false} InsertTies<T(!new)>(s: seq<T>, x: T, key: T -> real, k: real)
    ensures Ties(Insert(s, x, key), key, k) == Ties(s + [x], key, k)
  {
    if s != [] && key(s[|s| - 1]) > key(x) {
      var init, last := s[..|s| - 1], s[|s| - 1];
      assert s == init + [last];
      InsertTies(init, x, key, k);
      TiesAppend(Insert(init, x, key), last, key, k);
      TiesAppend(init + [x], last, key, k);
      TiesSwap(init, x, last, key, k);
    }
  }

  /** Sorted, a permutation, and stable. */
  lemma {:induction false} StableSortCorrect<T(!new)>(s: seq<T>, key: T -> real)
    ensures Sorted(StableSort(s, key), key)
    ensures multiset(StableSort(s, key)) == multiset(s)
    ensures forall k :: Ties(StableSort(s, key), key, k) == Ties(s, key, k)
    ensures forall x :: x in StableSort(s, key) <==> x in s
  {
    if s != [] {
      var init, last := s[..|s| - 1], s[|s| - 1];
      StableSortCorrect(init, key);
      assert s == init + [last];
      var r := StableSort(init, key);
      InsertSorted(r, last, key);
      InsertAdds(r, last, key);
      forall k ensures Ties(StableSort(s, key), key, k) == Ties(s, key, k) {
        InsertTies(r, last, key, k);
        TiesAppend(r, last, key, k);
        TiesAppend(init, last, key, k);
      }
    }
  }
}
