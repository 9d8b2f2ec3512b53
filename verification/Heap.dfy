/** Binary heaps kept in a list, with the sifting loops of Go's container/heap. */
module Heap {
  import opened Sorting

  function Parent(k: nat): (r: nat)
    ensures k > 0 ==> r < k
    ensures k == 0 ==> r == 0
  {
    if k == 0 then 0 else (k - 1) / 2
  }

  /** No element comes before its parent. */
  ghost predicate Heaped<T>(less: (T, T) -> bool, h: seq<T>) {
    forall k :: 0 < k < |h| ==> !less(h[k], h[Parent(k)])
  }

  lemma {:induction false} RootFirst<T(!new)>(less: (T, T) -> bool, h: seq<T>, k: nat)
    requires Order(less) && Heaped(less, h) && k < |h|
    ensures !less(h[k], h[0])
    decreases k
  {
    if k > 0 {
      RootFirst(less, h, Parent(k));
    }
  }

  function Swap<T>(h: seq<T>, i: nat, j: nat): (r: seq<T>)
    requires i < |h| && j < |h|
    ensures |r| == |h| && multiset(r) == multiset(h)
    ensures forall k :: 0 <= k < |h| ==> r[k] == if k == i then h[j] else if k == j then h[i] else h[k]
  {
    h[i := h[j]][j := h[i]]
  }

  /** Heaped except between j and its parent. */
  ghost predicate HeapedAbove<T>(less: (T, T) -> bool, h: seq<T>, j: nat) {
    && j < |h|
    && (forall k :: 0 < k < |h| && k != j ==> !less(h[k], h[Parent(k)]))
    && (forall k :: 0 < k < |h| && Parent(k) == j && j > 0 ==> !less(h[k], h[Parent(j)]))
  }

  method Up<T(!new)>(less: (T, T) -> bool, h0: seq<T>, j0: nat) returns (h: seq<T>)
    requires Order(less) && HeapedAbove(less, h0, j0)
    ensures Heaped(less, h) && multiset(h) == multiset(h0) && |h| == |h0|
  {
    h := h0;
    var j := j0;
    while true
      invariant |h| == |h0| && multiset(h) == multiset(h0)
      invariant HeapedAbove(less, h, j)
      decreases j
    {
      var i := Parent(j);
      if i == j || !less(h[j], h[i]) {
        break;
      }
      h := Swap(h, i, j);
      j := i;
    }
  }

  /** Heaped except between i and its children. */
  ghost predicate HeapedBelow<T>(less: (T, T) -> bool, h: seq<T>, i: nat) {
    && (forall k :: 0 < k < |h| && Parent(k) != i ==> !less(h[k], h[Parent(k)]))
    && (forall k :: 0 < k < |h| && Parent(k) == i && i > 0 ==> !less(h[k], h[Parent(i)]))
  }

  /** The child of i to compare with: a first one of the two. */
  function FirstChild<T>(less: (T, T) -> bool, h: seq<T>, i: nat): (j: nat)
    requires 2 * i + 1 < |h|
    ensures Parent(j) == i && i < j < |h|
  {
    var j := 2 * i + 1;
    if j + 1 < |h| && less(h[j + 1], h[j]) then j + 1 else j
  }

  lemma SinkStep<T(!new)>(less: (T, T) -> bool, h: seq<T>, i: nat)
    requires Order(less) && 2 * i + 1 < |h| && HeapedBelow(less, h, i)
    ensures var j := FirstChild(less, h, i);
            if less(h[j], h[i]) then HeapedBelow(less, Swap(h, i, j), j) else Heaped(less, h)
  {
    var j := FirstChild(less, h, i);
    forall k | 0 < k < |h| && Parent(k) == i ensures !less(h[k], h[j]) {
      assert k == 2 * i + 1 || k == 2 * i + 2;
    }
    if less(h[j], h[i]) {
      var s := Swap(h, i, j);
      forall k | 0 < k < |h| && Parent(k) != j ensures !less(s[k], s[Parent(k)]) {
        if k == i {
          assert !less(h[j], h[Parent(i)]);
        } else if Parent(k) != i {
          assert k != j;
        }
      }
      forall k | 0 < k < |h| && Parent(k) == j ensures !less(s[k], s[i]) {
        assert !less(h[k], h[j]);
      }
    } else {
      forall k | 0 < k < |h| ensures !less(h[k], h[Parent(k)]) {
        if Parent(k) == i { assert !less(h[k], h[j]); }
      }
    }
  }

  method Down<T(!new)>(less: (T, T) -> bool, h0: seq<T>) returns (h: seq<T>)
    requires Order(less) && HeapedBelow(less, h0, 0)
    ensures Heaped(less, h) && multiset(h) == multiset(h0) && |h| == |h0|
  {
    h := h0;
    var i := 0;
    while 2 * i + 1 < |h|
      invariant |h| == |h0| && multiset(h) == multiset(h0)
      invariant HeapedBelow(less, h, i)
      decreases |h| - i
    {
      SinkStep(less, h, i);
      var j := FirstChild(less, h, i);
      if !less(h[j], h[i]) {
        return;
      }
      h := Swap(h, i, j);
      i := j;
    }
  }

  /** Appends x. */
  method Push<T(!new)>(less: (T, T) -> bool, h0: seq<T>, x: T) returns (h: seq<T>)
    requires Order(less) && Heaped(less, h0)
    ensures Heaped(less, h) && multiset(h) == multiset(h0) + multiset{x} && |h| == |h0| + 1
  {
    h := Up(less, h0 + [x], |h0|);
  }

  lemma NoneBeforeRoot<T(!new)>(less: (T, T) -> bool, h: seq<T>, y: T)
    requires Order(less) && Heaped(less, h) && y in multiset(h)
    ensures !less(y, h[0])
  {
    var k :| 0 <= k < |h| && h[k] == y;
    RootFirst(less, h, k);
  }

  /** The root changes places with the last element, which is then cut off. */
  lemma Trimmed<T(!new)>(less: (T, T) -> bool, h: seq<T>)
    requires Order(less) && Heaped(less, h) && h != []
    ensures var s := Swap(h, 0, |h| - 1)[..|h| - 1];
            HeapedBelow(less, s, 0) && multiset(h) == multiset(s) + multiset{h[0]}
  {
    var s := Swap(h, 0, |h| - 1);
    assert s == s[..|h| - 1] + [h[0]];
  }

  /** Removes a first element. */
  method Pop<T(!new)>(less: (T, T) -> bool, h0: seq<T>) returns (x: T, h: seq<T>)
    requires Order(less) && Heaped(less, h0) && h0 != []
    ensures Heaped(less, h) && multiset(h0) == multiset(h) + multiset{x} && |h| == |h0| - 1
    ensures forall y :: y in h ==> !less(y, x)
  {
    var n := |h0| - 1;
    var s := Swap(h0, 0, n);
    x := s[n];
    Trimmed(less, h0);
    h := Down(less, s[..n]);
    forall y | y in h ensures !less(y, x) {
      assert y in multiset(h);
      NoneBeforeRoot(less, h0, y);
    }
  }

  /** Replaces the root by x. */
  method ReplaceRoot<T(!new)>(less: (T, T) -> bool, h0: seq<T>, x: T) returns (h: seq<T>)
    requires Order(less) && Heaped(less, h0) && h0 != []
    ensures Heaped(less, h) && multiset(h) + multiset{h0[0]} == multiset(h0) + multiset{x} && |h| == |h0|
  {
    var s := h0[0 := x];
    h := Down(less, s);
  }
}
