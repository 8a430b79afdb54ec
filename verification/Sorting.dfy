/** A stable sort by an integer key, as `Array.prototype.sort` with a key comparator. */
module Sorting {

  function SortBy<T>(key: T -> int, s: seq<T>): seq<T> {
    if s == [] then [] else Insert(key, SortBy(key, s[..|s|-1]), s[|s|-1])
  }

  /** After everything with at most its key. */
  function Insert<T>(key: T -> int, sorted: seq<T>, x: T): seq<T> {
    if sorted == [] || key(sorted[|sorted|-1]) <= key(x) then sorted + [x]
    else Insert(key, sorted[..|sorted|-1], x) + [sorted[|sorted|-1]]
  }

  predicate Sorted<T>(key: T -> int, s: seq<T>) {
    forall i, j :: 0 <= i < j < |s| ==> key(s[i]) <= key(s[j])
  }

  /** The elements with one key, in order. */
  function WithKey<T>(key: T -> int, s: seq<T>, k: int): seq<T> {
    if s == [] then []
    else WithKey(key, s[..|s|-1], k) + (if key(s[|s|-1]) == k then [s[|s|-1]] else [])
  }

  lemma WithKeySnoc<T>(key: T -> int, s: seq<T>, x: T, k: int)
    ensures WithKey(key, s + [x], k) == WithKey(key, s, k) + (if key(x) == k then [x] else [])
  {
    assert (s + [x])[..|s|] == s;
  }

  lemma {:induction false} InsertAdds<T>(key: T -> int, sorted: seq<T>, x: T)
    ensures multiset(Insert(key, sorted, x)) == multiset(sorted) + multiset{x}
  {
    if sorted != [] && key(sorted[|sorted|-1]) > key(x) {
      var init, last := sorted[..|sorted|-1], sorted[|sorted|-1];
      InsertAdds(key, init, x);
      assert sorted == init + [last];
    }
  }

  lemma SortedSnoc<T>(key: T -> int, init: seq<T>, last: T)
    requires Sorted(key, init) && forall x :: x in init ==> key(x) <= key(last)
    ensures Sorted(key, init + [last])
  {
    assert forall i :: 0 <= i < |init| ==> init[i] in init;
  }

  lemma {:induction false} InsertKeepsOrder<T>(key: T -> int, sorted: seq<T>, x: T)
    requires Sorted(key, sorted)
    ensures Sorted(key, Insert(key, sorted, x))
  {
    if sorted != [] && key(sorted[|sorted|-1]) > key(x) {
      var init, last := sorted[..|sorted|-1], sorted[|sorted|-1];
      InsertKeepsOrder(key, init, x);
      InsertAdds(key, init, x);
      forall y | y in Insert(key, init, x) ensures key(y) <= key(last) {
        assert y in multiset(init) + multiset{x};
      }
      SortedSnoc(key, Insert(key, init, x), last);
    }
  }

  lemma {:induction false} InsertIsStable<T>(key: T -> int, sorted: seq<T>, x: T, k: int)
    requires Sorted(key, sorted)
    ensures WithKey(key, Insert(key, sorted, x), k) == WithKey(key, sorted, k) + (if key(x) == k then [x] else [])
  {
    if sorted == [] || key(sorted[|sorted|-1]) <= key(x) {
      WithKeySnoc(key, sorted, x, k);
    } else {
      var init, last := sorted[..|sorted|-1], sorted[|sorted|-1];
      InsertIsStable(key, init, x, k);
      WithKeySnoc(key, Insert(key, init, x), last, k);
    }
  }

  /** The sort orders, keeps every element, and keeps the order among equal keys. */
  lemma {:induction false} SortByIsStableSort<T>(key: T -> int, s: seq<T>)
    ensures Sorted(key, SortBy(key, s)) && multiset(SortBy(key, s)) == multiset(s)
    ensures forall k :: WithKey(key, SortBy(key, s), k) == WithKey(key, s, k)
  {
    if s != [] {
      var init, last := s[..|s|-1], s[|s|-1];
      SortByIsStableSort(key, init);
      InsertKeepsOrder(key, SortBy(key, init), last);
      InsertAdds(key, SortBy(key, init), last);
      assert s == init + [last];
      forall k ensures WithKey(key, SortBy(key, s), k) == WithKey(key, s, k) {
        InsertIsStable(key, SortBy(key, init), last, k);
      }
    }
  }
}
