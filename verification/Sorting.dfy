/** Orders, sorted lists, and sorting. */
module Sorting {
  /** A strict weak order. */
  ghost predicate Order<T(!new)>(less: (T, T) -> bool) {
    && (forall a :: !less(a, a))
    && (forall a, b, c :: less(a, b) && less(b, c) ==> less(a, c))
    && (forall a, b, c :: !less(a, b) && !less(b, c) ==> !less(a, c))
  }

  ghost predicate Sorted<T>(less: (T, T) -> bool, s: seq<T>) {
    forall i, j :: 0 <= i < j < |s| ==> !less(s[j], s[i])
  }

  /** s with x put after everything that does not come after it. */
  function Insert<T>(less: (T, T) -> bool, s: seq<T>, x: T): (r: seq<T>)
    ensures multiset(r) == multiset(s) + multiset{x} && |r| == |s| + 1
  {
    if s == [] then [x]
    else if less(x, s[|s| - 1]) then
      assert s == s[..|s| - 1] + [s[|s| - 1]];
      Insert(less, s[..|s| - 1], x) + [s[|s| - 1]]
    else s + [x]
  }

  /** The reference order of a list. */
  function InsertionSort<T>(less: (T, T) -> bool, s: seq<T>): (r: seq<T>)
    ensures multiset(r) == multiset(s) && |r| == |s|
  {
    if s == [] then []
    else
      assert s == s[..|s| - 1] + [s[|s| - 1]];
      Insert(less, InsertionSort(less, s[..|s| - 1]), s[|s| - 1])
  }

  lemma SortedSnoc<T(!new)>(less: (T, T) -> bool, s: seq<T>, x: T)
    requires Sorted(less, s) && forall y :: y in multiset(s) ==> !less(x, y)
    ensures Sorted(less, s + [x])
  {
    forall i | 0 <= i < |s| ensures !less(x, s[i]) { assert s[i] in multiset(s); }
  }

  /** Nothing in a sorted list comes after its last element. */
  lemma LastIsLast<T(!new)>(less: (T, T) -> bool, s: seq<T>, y: T)
    requires Order(less) && Sorted(less, s) && s != [] && y in multiset(s)
    ensures !less(s[|s| - 1], y)
  {
    var i :| 0 <= i < |s| && s[i] == y;
  }

  lemma {:induction false} InsertSorted<T(!new)>(less: (T, T) -> bool, s: seq<T>, x: T)
    requires Order(less) && Sorted(less, s)
    ensures Sorted(less, Insert(less, s, x))
    decreases |s|
  {
    if s != [] {
      var n := |s| - 1;
      var front, last := s[..n], s[n];
      assert s == front + [last];
      if less(x, last) {
        InsertSorted(less, front, x);
        forall y | y in multiset(Insert(less, front, x)) ensures !less(last, y) {
          if y in multiset(front) { assert y in multiset(s); LastIsLast(less, s, y); }
        }
        SortedSnoc(less, Insert(less, front, x), last);
      } else {
        forall y | y in multiset(s) ensures !less(x, y) { LastIsLast(less, s, y); }
        SortedSnoc(less, s, x);
      }
    }
  }

  lemma {:induction false} SortIsSorted<T(!new)>(less: (T, T) -> bool, s: seq<T>)
    requires Order(less)
    ensures Sorted(less, InsertionSort(less, s))
    decreases |s|
  {
    if s != [] {
      SortIsSorted(less, s[..|s| - 1]);
      InsertSorted(less, InsertionSort(less, s[..|s| - 1]), s[|s| - 1]);
    }
  }

  /** Stands for sort.Slice: callers may rely only on the contract. */
  method SortSlice<T(!new)>(less: (T, T) -> bool, s: seq<T>) returns (r: seq<T>)
    requires Order(less)
    ensures Sorted(less, r) && multiset(r) == multiset(s) && |r| == |s|
  {
    SortIsSorted(less, s);
    r := InsertionSort(less, s);
  }

  /** Only equal elements tie. */
  ghost predicate NoTies<T(!new)>(less: (T, T) -> bool, m: multiset<T>) {
    forall x, y :: x in m && y in m && !less(x, y) && !less(y, x) ==> x == y
  }

  /** The first element of a sorted list is one that nothing comes before. */
  lemma FirstIsFirst<T(!new)>(less: (T, T) -> bool, s: seq<T>, y: T)
    requires Sorted(less, s) && s != [] && y in multiset(s) && !less(s[0], s[0])
    ensures !less(y, s[0])
  {
    var i :| 0 <= i < |s| && s[i] == y;
  }

  lemma Rest<T>(s: seq<T>)
    requires s != []
    ensures multiset(s) == multiset(s[1..]) + multiset{s[0]}
  {
    assert s == [s[0]] + s[1..];
  }

  lemma SameRest<T>(a: multiset<T>, b: multiset<T>, x: T)
    requires a + multiset{x} == b + multiset{x}
    ensures a == b
  {
    assert a == a + multiset{x} - multiset{x};
    assert b == b + multiset{x} - multiset{x};
  }

  /** Sorted lists of the same elements, without ties, begin alike and go on with the same elements. */
  lemma SameHead<T(!new)>(less: (T, T) -> bool, a: seq<T>, b: seq<T>)
    requires (forall x :: !less(x, x)) && Sorted(less, a) && Sorted(less, b) && multiset(a) == multiset(b)
    requires NoTies(less, multiset(a)) && a != [] && b != []
    ensures a[0] == b[0] && multiset(a[1..]) == multiset(b[1..])
  {
    assert a[0] in multiset(b) && b[0] in multiset(a);
    FirstIsFirst(less, a, b[0]);
    FirstIsFirst(less, b, a[0]);
    Rest(a);
    Rest(b);
    SameRest(multiset(a[1..]), multiset(b[1..]), a[0]);
  }

  lemma FewerTies<T(!new)>(less: (T, T) -> bool, s: seq<T>)
    requires s != [] && NoTies(less, multiset(s))
    ensures NoTies(less, multiset(s[1..]))
  {
    Rest(s);
  }

  /** Without ties there is one sorted order. */
  lemma {:induction false} UniqueOrder<T(!new)>(less: (T, T) -> bool, a: seq<T>, b: seq<T>)
    requires (forall x :: !less(x, x)) && Sorted(less, a) && Sorted(less, b) && multiset(a) == multiset(b)
    requires NoTies(less, multiset(a))
    ensures a == b
    decreases |a|
  {
    assert |multiset(a)| == |a| && |multiset(b)| == |b|;
    if a != [] {
      SameHead(less, a, b);
      FewerTies(less, a);
      UniqueOrder(less, a[1..], b[1..]);
      assert a == [a[0]] + a[1..] && b == [b[0]] + b[1..];
    }
  }
}
