/**
 * Python's `list.sort(key=...)` and `sorted(..., key=...)` with an integer key:
 * a stable sort. It is specified by what it guarantees: the result is ordered
 * by key, is a permutation of the input, and keeps the input order among
 * elements with equal keys.
 */
module StableSort {

  predicate SortedBy<T>(s: seq<T>, key: T -> int) {
    forall i, j :: 0 <= i < j < |s| ==> key(s[i]) <= key(s[j])
  }

  /** The elements whose key is `k`, in the order they appear in `s`. */
  function KeyClass<T>(s: seq<T>, key: T -> int, k: int): seq<T>
  {
    if |s| == 0 then []
    else KeyClass(s[..|s| - 1], key, k) + (if key(s[|s| - 1]) == k then [s[|s| - 1]] else [])
  }

  lemma KeyClassSnoc<T>(a: seq<T>, y: T, key: T -> int, k: int)
    ensures KeyClass(a + [y], key, k) == KeyClass(a, key, k) + (if key(y) == k then [y] else [])
  {
    assert (a + [y])[..|a|] == a;
  }

  lemma AllBelow<T>(r: seq<T>, s: seq<T>, x: T, bound: int, key: T -> int)
    requires multiset(r) == multiset(s) + multiset{x}
    requires forall i :: 0 <= i < |s| ==> key(s[i]) <= bound
    requires key(x) <= bound
    ensures forall i :: 0 <= i < |r| ==> key(r[i]) <= bound
  {
    forall i | 0 <= i < |r|
      ensures key(r[i]) <= bound
    {
      assert r[i] in multiset(r);
      if r[i] != x {
        assert r[i] in multiset(s);
        var j :| 0 <= j < |s| && s[j] == r[i];
      }
    }
  }

  lemma SortedSnoc<T>(a: seq<T>, y: T, key: T -> int)
    requires SortedBy(a, key)
    requires forall i :: 0 <= i < |a| ==> key(a[i]) <= key(y)
    ensures SortedBy(a + [y], key)
  {
  }

  /** Insert `x` into sorted `s` after every element whose key is at most `x`'s. */
  function Insert<T>(x: T, s: seq<T>, key: T -> int): (r: seq<T>)
    ensures |r| == |s| + 1
    decreases |s|
  {
    if |s| == 0 then [x]
    else if key(s[|s| - 1]) <= key(x) then s + [x]
    else Insert(x, s[..|s| - 1], key) + [s[|s| - 1]]
  }

  lemma {:induction false} InsertPermutes<T>(x: T, s: seq<T>, key: T -> int)
    ensures multiset(Insert(x, s, key)) == multiset(s) + multiset{x}
    decreases |s|
  {
    if |s| > 0 && key(x) < key(s[|s| - 1]) {
      var init, last := s[..|s| - 1], s[|s| - 1];
      assert s == init + [last];
      InsertPermutes(x, init, key);
    }
  }

  lemma {:induction false} InsertSorted<T>(x: T, s: seq<T>, key: T -> int)
    requires SortedBy(s, key)
    ensures SortedBy(Insert(x, s, key), key)
    decreases |s|
  {
    if |s| > 0 {
      var init, last := s[..|s| - 1], s[|s| - 1];
      if key(last) <= key(x) {
        SortedSnoc(s, x, key);
      } else {
        assert s == init + [last];
        assert SortedBy(init, key);
        var r0 := Insert(x, init, key);
        InsertSorted(x, init, key);
        InsertPermutes(x, init, key);
        AllBelow(r0, init, x, key(last), key);
        SortedSnoc(r0, last, key);
      }
    }
  }

  lemma {:induction false} InsertKeyClass<T>(x: T, s: seq<T>, key: T -> int, k: int)
    ensures KeyClass(Insert(x, s, key), key, k) == KeyClass(s, key, k) + (if key(x) == k then [x] else [])
    decreases |s|
  {
    if |s| == 0 {
      assert [x] == [] + [x];
      KeyClassSnoc([], x, key, k);
    } else if key(s[|s| - 1]) <= key(x) {
      KeyClassSnoc(s, x, key, k);
    } else {
      var init, last := s[..|s| - 1], s[|s| - 1];
      assert s == init + [last];
      InsertKeyClass(x, init, key, k);
      KeyClassSnoc(Insert(x, init, key), last, key, k);
      KeyClassSnoc(init, last, key, k);
    }
  }

  /** The stable sort: each element, from first to last, is inserted into the sorted prefix. */
  function SortBy<T>(s: seq<T>, key: T -> int): (r: seq<T>)
    ensures |r| == |s|
  {
    if |s| == 0 then [] else Insert(s[|s| - 1], SortBy(s[..|s| - 1], key), key)
  }

  /** The result is ordered by key. */
  lemma {:induction false} SortByOrders<T>(s: seq<T>, key: T -> int)
    ensures SortedBy(SortBy(s, key), key)
  {
    if |s| > 0 {
      SortByOrders(s[..|s| - 1], key);
      InsertSorted(s[|s| - 1], SortBy(s[..|s| - 1], key), key);
    }
  }

  /** The result is a permutation of the input. */
  lemma {:induction false} SortByPermutes<T>(s: seq<T>, key: T -> int)
    ensures multiset(SortBy(s, key)) == multiset(s)
  {
    if |s| > 0 {
      var init, last := s[..|s| - 1], s[|s| - 1];
      assert s == init + [last];
      SortByPermutes(init, key);
      InsertPermutes(last, SortBy(init, key), key);
    }
  }

  /** The sort is stable: the elements of each key keep their input order. */
  lemma {:induction false} SortByStable<T>(s: seq<T>, key: T -> int, k: int)
    ensures KeyClass(SortBy(s, key), key, k) == KeyClass(s, key, k)
  {
    if |s| > 0 {
      var init, last := s[..|s| - 1], s[|s| - 1];
      assert s == init + [last];
      SortByStable(init, key, k);
      InsertKeyClass(last, SortBy(init, key), key, k);
      KeyClassSnoc(init, last, key, k);
    }
  }

  lemma SortedInit<T>(s: seq<T>, key: T -> int)
    requires SortedBy(s, key) && |s| > 0
    ensures SortedBy(s[..|s| - 1], key)
    ensures |s| > 1 ==> key(s[|s| - 2]) <= key(s[|s| - 1])
  {
    var init := s[..|s| - 1];
    forall i, j | 0 <= i < j < |init| ensures key(init[i]) <= key(init[j]) {
      assert init[i] == s[i] && init[j] == s[j];
    }
  }

  lemma InsertAtEnd<T>(x: T, s: seq<T>, key: T -> int)
    requires |s| == 0 || key(s[|s| - 1]) <= key(x)
    ensures Insert(x, s, key) == s + [x]
  {
  }

  lemma {:induction false} SortBySorted<T>(s: seq<T>, key: T -> int)
    requires SortedBy(s, key)
    ensures SortBy(s, key) == s
  {
    if |s| > 0 {
      var init, last := s[..|s| - 1], s[|s| - 1];
      SortedInit(s, key);
      SortBySorted(init, key);
      assert |init| > 0 ==> init[|init| - 1] == s[|s| - 2];
      InsertAtEnd(last, init, key);
      assert s == init + [last];
    }
  }

  /** Sorting is idempotent. */
  lemma SortByIdempotent<T>(s: seq<T>, key: T -> int)
    ensures SortBy(SortBy(s, key), key) == SortBy(s, key)
  {
    SortByOrders(s, key);
    SortBySorted(SortBy(s, key), key);
  }
}
