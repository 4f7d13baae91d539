/** Sorting by a numeric key, as the pages do with the `order` field of products, top-nav
    items and categories. The comparator `a.order - b.order` under a stable sort is
    modelled by a stable insertion sort: later elements are placed after every earlier
    element whose key is not larger. */
module Ordering {
  import opened Types

  predicate Ascending<T>(s: seq<T>, key: T -> int) {
    forall i, j :: 0 <= i < j < |s| ==> key(s[i]) <= key(s[j])
  }

  predicate AllAtMost<T>(s: seq<T>, key: T -> int, bound: int) {
    forall i :: 0 <= i < |s| ==> key(s[i]) <= bound
  }

  lemma AscendingSnoc<T>(s: seq<T>, y: T, key: T -> int)
    requires Ascending(s, key) && AllAtMost(s, key, key(y))
    ensures Ascending(s + [y], key)
  {
  }

  lemma AscendingPrefix<T>(s: seq<T>, key: T -> int)
    requires |s| > 0 && Ascending(s, key)
    ensures Ascending(s[..|s| - 1], key) && AllAtMost(s[..|s| - 1], key, key(s[|s| - 1]))
  {
  }

  /** Places `x` after the last element whose key does not exceed its own. */
  function Insert<T>(x: T, s: seq<T>, key: T -> int): (r: seq<T>)
    ensures multiset(r) == multiset(s) + multiset{x}
    ensures |r| == |s| + 1
  {
    if s == [] || key(s[|s| - 1]) <= key(x) then s + [x]
    else
      assert s == s[..|s| - 1] + [s[|s| - 1]];
      Insert(x, s[..|s| - 1], key) + [s[|s| - 1]]
  }

  lemma {:induction false} InsertAtMost<T>(x: T, s: seq<T>, key: T -> int, bound: int)
    requires AllAtMost(s, key, bound) && key(x) <= bound
    ensures AllAtMost(Insert(x, s, key), key, bound)
  {
    if !(s == [] || key(s[|s| - 1]) <= key(x)) {
      InsertAtMost(x, s[..|s| - 1], key, bound);
    }
  }

  lemma {:induction false} InsertAscending<T>(x: T, s: seq<T>, key: T -> int)
    requires Ascending(s, key)
    ensures Ascending(Insert(x, s, key), key)
  {
    if s == [] || key(s[|s| - 1]) <= key(x) {
      if s != [] {
        AscendingPrefix(s, key);
      }
      AscendingSnoc(s, x, key);
    } else {
      var pre, last := s[..|s| - 1], s[|s| - 1];
      AscendingPrefix(s, key);
      InsertAscending(x, pre, key);
      InsertAtMost(x, pre, key, key(last));
      AscendingSnoc(Insert(x, pre, key), last, key);
    }
  }

  /** A stable sort by ascending key. */
  function SortBy<T>(s: seq<T>, key: T -> int): seq<T>
  {
    if s == [] then [] else Insert(s[|s| - 1], SortBy(s[..|s| - 1], key), key)
  }

  /** The sort returns its input rearranged into ascending order. */
  lemma {:induction false} SortBySorts<T>(s: seq<T>, key: T -> int)
    ensures Ascending(SortBy(s, key), key)
    ensures multiset(SortBy(s, key)) == multiset(s)
  {
    if s != [] {
      assert s == s[..|s| - 1] + [s[|s| - 1]];
      SortBySorts(s[..|s| - 1], key);
      InsertAscending(s[|s| - 1], SortBy(s[..|s| - 1], key), key);
    }
  }

  lemma SortBySnoc<T>(s: seq<T>, key: T -> int)
    requires s != []
    ensures SortBy(s, key) == Insert(s[|s| - 1], SortBy(s[..|s| - 1], key), key)
  {
  }

  lemma InsertLargest<T>(x: T, s: seq<T>, key: T -> int)
    requires AllAtMost(s, key, key(x))
    ensures Insert(x, s, key) == s + [x]
  {
  }

  /** The sort is stable in the sense that a list already in ascending order, ties
      included, comes back exactly as it was. */
  lemma {:induction false} SortByAscendingUnchanged<T>(s: seq<T>, key: T -> int)
    requires Ascending(s, key)
    ensures SortBy(s, key) == s
  {
    if s != [] {
      AscendingPrefix(s, key);
      SortByAscendingUnchanged(s[..|s| - 1], key);
      SortedPrefixExtends(s, key);
    }
  }

  lemma SortedPrefixExtends<T>(s: seq<T>, key: T -> int)
    requires s != [] && Ascending(s, key)
    requires SortBy(s[..|s| - 1], key) == s[..|s| - 1]
    ensures SortBy(s, key) == s
  {
    var pre, last := s[..|s| - 1], s[|s| - 1];
    AscendingPrefix(s, key);
    SortBySnoc(s, key);
    InsertLargest(last, pre, key);
    assert pre + [last] == s;
  }

  /** Sorting twice is sorting once. */
  lemma SortByIdempotent<T>(s: seq<T>, key: T -> int)
    ensures SortBy(SortBy(s, key), key) == SortBy(s, key)
  {
    SortBySorts(s, key);
    SortByAscendingUnchanged(SortBy(s, key), key);
  }

  /** An element is in the sorted list exactly when it is in the input. */
  lemma SortByMember<T>(s: seq<T>, key: T -> int, x: T)
    ensures x in SortBy(s, key) <==> x in s
  {
    SortBySorts(s, key);
    assert x in SortBy(s, key) <==> x in multiset(SortBy(s, key));
  }

  /** The head of an ascending list has the smallest key of all its elements. */
  lemma FirstIsLeast<T>(s: seq<T>, key: T -> int, x: T)
    requires Ascending(s, key) && |s| > 0 && x in s
    ensures key(s[0]) <= key(x)
  {
  }

  /** Filtering keeps an ascending list ascending. */
  lemma {:induction false} FilterAscending<T>(s: seq<T>, key: T -> int, p: T -> bool)
    requires Ascending(s, key)
    ensures Ascending(Filter(s, p), key)
  {
    if s != [] {
      FilterAscending(s[1..], key, p);
      if p(s[0]) {
        var rest := Filter(s[1..], p);
        forall i | 0 <= i < |rest| ensures key(s[0]) <= key(rest[i]) {
          FilterMember(s[1..], p, rest[i]);
        }
      }
    }
  }
}
