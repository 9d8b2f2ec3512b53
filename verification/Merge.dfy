/** Sorted runs: sorting, k-way merging with a heap, and bounded fan-in passes. */
module Merge {
  import opened Base
  import opened Heap
  import opened Sorting

  const FAN_IN: nat := 16

  ghost predicate AllSorted<T>(less: (T, T) -> bool, runs: seq<seq<T>>) {
    forall i :: 0 <= i < |runs| ==> Sorted(less, runs[i])
  }

  /** The elements of all runs together. */
  ghost function Union<T>(runs: seq<seq<T>>): multiset<T> {
    if runs == [] then multiset{} else multiset(runs[0]) + Union(runs[1..])
  }

  lemma {:induction false} UnionConcat<T>(a: seq<seq<T>>, b: seq<seq<T>>)
    ensures Union(a + b) == Union(a) + Union(b)
    decreases |a|
  {
    if a == [] {
      assert a + b == b;
    } else {
      assert (a + b)[1..] == a[1..] + b;
      UnionConcat(a[1..], b);
    }
  }

  lemma UnionOne<T>(r: seq<T>)
    ensures Union([r]) == multiset(r)
  {
    assert [r][1..] == [];
  }

  lemma UnionSnoc<T>(a: seq<seq<T>>, r: seq<T>)
    ensures Union(a + [r]) == Union(a) + multiset(r)
  {
    UnionConcat(a, [r]);
    UnionOne(r);
  }

  lemma {:induction false} UnionTake<T>(runs: seq<seq<T>>, i: nat)
    requires i < |runs| && runs[i] != []
    ensures Union(runs) == Union(runs[i := runs[i][1..]]) + multiset{runs[i][0]}
    decreases i
  {
    assert runs[i] == [runs[i][0]] + runs[i][1..];
    if i > 0 {
      assert runs[i := runs[i][1..]][1..] == runs[1..][i - 1 := runs[i][1..]];
      UnionTake(runs[1..], i - 1);
    } else {
      assert runs[0 := runs[0][1..]][1..] == runs[1..];
    }
  }

  lemma {:induction false} InUnion<T>(runs: seq<seq<T>>, x: T)
    ensures x in Union(runs) <==> exists i :: 0 <= i < |runs| && x in runs[i]
    decreases |runs|
  {
    if runs != [] {
      InUnion(runs[1..], x);
      if i :| 0 <= i < |runs[1..]| && x in runs[1..][i] { assert x in runs[i + 1]; }
      if i :| 0 <= i < |runs| && x in runs[i] { assert i == 0 || x in runs[1..][i - 1]; }
    }
  }

  // ---------- The heap of run heads ----------

  datatype Entry<T> = Entry(item: T, source: nat)

  function ByItem<T>(less: (T, T) -> bool): ((Entry<T>, Entry<T>) -> bool) {
    (a: Entry<T>, b: Entry<T>) => less(a.item, b.item)
  }

  lemma ByItemOrder<T(!new)>(less: (T, T) -> bool)
    requires Order(less)
    ensures Order(ByItem(less))
  {
    var l := ByItem(less);
    assert forall a, b :: l(a, b) == less(a.item, b.item);
  }

  ghost function Items<T>(h: seq<Entry<T>>): multiset<T> {
    if h == [] then multiset{} else multiset{h[0].item} + Items(h[1..])
  }

  lemma {:induction false} ItemsConcat<T>(a: seq<Entry<T>>, b: seq<Entry<T>>)
    ensures Items(a + b) == Items(a) + Items(b)
    decreases |a|
  {
    if a == [] {
      assert a + b == b;
    } else {
      assert (a + b)[1..] == a[1..] + b;
      ItemsConcat(a[1..], b);
    }
  }

  lemma ItemsOne<T>(e: Entry<T>)
    ensures Items([e]) == multiset{e.item}
  {
    assert [e][1..] == [];
  }

  lemma {:induction false} ItemsWithout<T>(b: seq<Entry<T>>, k: nat)
    requires k < |b|
    ensures Items(b) == Items(b[..k] + b[k + 1..]) + multiset{b[k].item}
  {
    var front, one, back := b[..k], [b[k]], b[k + 1..];
    assert b == front + (one + back);
    ItemsConcat(front, one + back);
    ItemsConcat(one, back);
    ItemsConcat(front, back);
    ItemsOne(b[k]);
    Swapped(Items(front), Items(one), Items(back));
  }

  lemma Swapped<T>(a: multiset<T>, b: multiset<T>, c: multiset<T>)
    ensures a + (b + c) == (a + c) + b
  {
  }

  lemma Without<T>(b: seq<T>, k: nat)
    requires k < |b|
    ensures multiset(b) == multiset(b[..k] + b[k + 1..]) + multiset{b[k]}
  {
    assert b == b[..k] + ([b[k]] + b[k + 1..]);
  }

  /** Items do not depend on where the entries are. */
  lemma {:induction false} ItemsMove<T>(a: seq<Entry<T>>, b: seq<Entry<T>>)
    requires multiset(a) == multiset(b)
    ensures Items(a) == Items(b)
    decreases |a|
  {
    if a == [] {
      assert |multiset(b)| == 0;
    } else {
      assert a[0] in multiset(b);
      var k :| 0 <= k < |b| && b[k] == a[0];
      Rest(a);
      Without(b, k);
      SameRest(multiset(a[1..]), multiset(b[..k] + b[k + 1..]), a[0]);
      ItemsMove(a[1..], b[..k] + b[k + 1..]);
      ItemsWithout(b, k);
    }
  }

  lemma ItemsSnoc<T>(h: seq<Entry<T>>, e: Entry<T>)
    ensures Items(h + [e]) == Items(h) + multiset{e.item}
  {
    ItemsConcat(h, [e]);
    assert [e][1..] == [];
  }

  lemma {:induction false} InItems<T>(h: seq<Entry<T>>, x: T)
    ensures x in Items(h) <==> exists k :: 0 <= k < |h| && h[k].item == x
    decreases |h|
  {
    if h != [] {
      InItems(h[1..], x);
      if k :| 0 <= k < |h[1..]| && h[1..][k].item == x { assert h[k + 1].item == x; }
      if k :| 0 <= k < |h| && h[k].item == x { assert k == 0 || h[1..][k - 1].item == x; }
    }
  }

  /** What is left of a run is not before the head of that run, and that head is in the heap. */
  ghost predicate Covered<T>(less: (T, T) -> bool, h: seq<Entry<T>>, rest: seq<T>, i: nat) {
    Sorted(less, rest)
    && (rest != [] ==> exists k :: 0 <= k < |h| && h[k].source == i && !less(rest[0], h[k].item))
  }

  ghost predicate AllCovered<T>(less: (T, T) -> bool, h: seq<Entry<T>>, rest: seq<seq<T>>) {
    forall i :: 0 <= i < |rest| ==> Covered(less, h, rest[i], i)
  }

  /** x is not after anything in m. */
  ghost predicate Before<T>(less: (T, T) -> bool, x: T, m: multiset<T>) {
    forall y :: y in m ==> !less(y, x)
  }

  /** The loop invariant of the merge. */
  ghost predicate Merging<T(!new)>(less: (T, T) -> bool, runs: seq<seq<T>>, out: seq<T>, h: seq<Entry<T>>, rest: seq<seq<T>>) {
    && |rest| == |runs| && (forall k :: 0 <= k < |h| ==> h[k].source < |runs|)
    && Heaped(ByItem(less), h)
    && AllCovered(less, h, rest)
    && multiset(out) + Items(h) + Union(rest) == Union(runs)
    && Sorted(less, out) && (forall x :: x in out ==> Before(less, x, Items(h)))
  }

  lemma {:induction false} PoppedItems<T>(h: seq<Entry<T>>, x: Entry<T>, g: seq<Entry<T>>)
    requires multiset(h) == multiset(g) + multiset{x}
    ensures Items(h) == Items(g) + multiset{x.item}
  {
    assert multiset(g + [x]) == multiset(h);
    ItemsMove(h, g + [x]);
    ItemsSnoc(g, x);
  }

  lemma PoppedBefore<T(!new)>(less: (T, T) -> bool, x: Entry<T>, g: seq<Entry<T>>)
    requires forall e :: e in g ==> !less(e.item, x.item)
    ensures Before(less, x.item, Items(g))
  {
    forall y | y in Items(g) ensures !less(y, x.item) {
      InItems(g, y);
      var k :| 0 <= k < |g| && g[k].item == y;
      assert g[k] in g;
    }
  }

  /** Popping a first head x: it may be appended to the output. */
  lemma {:induction false} PopKeeps<T(!new)>(less: (T, T) -> bool, out: seq<T>, h: seq<Entry<T>>, x: Entry<T>, g: seq<Entry<T>>)
    requires Order(less) && Sorted(less, out) && (forall z :: z in out ==> Before(less, z, Items(h)))
    requires multiset(h) == multiset(g) + multiset{x} && (forall e :: e in g ==> !less(e.item, x.item))
    ensures Items(h) == Items(g) + multiset{x.item}
    ensures Sorted(less, out + [x.item])
    ensures forall z :: z in out + [x.item] ==> Before(less, z, Items(g))
  {
    PoppedItems(h, x, g);
    PoppedBefore(less, x, g);
    AppendLast(less, out, x.item, Items(h));
    forall z | z in out ensures Before(less, z, Items(g)) { Fewer(less, z, Items(g), Items(h)); }
  }

  lemma AppendLast<T(!new)>(less: (T, T) -> bool, out: seq<T>, x: T, m: multiset<T>)
    requires Sorted(less, out) && (forall z :: z in out ==> Before(less, z, m)) && x in m
    ensures Sorted(less, out + [x])
  {
    forall i | 0 <= i < |out| ensures !less(x, out[i]) {
      assert out[i] in out;
    }
  }

  lemma Fewer<T(!new)>(less: (T, T) -> bool, z: T, few: multiset<T>, all: multiset<T>)
    requires Before(less, z, all) && forall y :: y in few ==> y in all
    ensures Before(less, z, few)
  {
  }

  /** The other runs stay covered when an entry of run s leaves the heap. */
  lemma CoverStays<T(!new)>(less: (T, T) -> bool, h: seq<Entry<T>>, x: Entry<T>, g: seq<Entry<T>>, rest: seq<T>, i: nat)
    requires Covered(less, h, rest, i) && i != x.source && multiset(h) == multiset(g) + multiset{x}
    ensures Covered(less, g, rest, i)
  {
    if rest != [] {
      var k :| 0 <= k < |h| && h[k].source == i && !less(rest[0], h[k].item);
      assert h[k] in multiset(h) && h[k] in multiset(g);
      var j :| 0 <= j < |g| && g[j] == h[k];
    }
  }

  /** Pushing an entry keeps every cover. */
  lemma CoverGrows<T(!new)>(less: (T, T) -> bool, g: seq<Entry<T>>, e: Entry<T>, h: seq<Entry<T>>, rest: seq<T>, i: nat)
    requires Covered(less, g, rest, i) && multiset(h) == multiset(g) + multiset{e}
    ensures Covered(less, h, rest, i)
  {
    if rest != [] {
      var k :| 0 <= k < |g| && g[k].source == i && !less(rest[0], g[k].item);
      assert g[k] in multiset(h);
      var j :| 0 <= j < |h| && h[j] == g[k];
    }
  }

  /** The pushed head of a run covers what follows it in that run. */
  lemma HeadCovers<T(!new)>(less: (T, T) -> bool, h: seq<Entry<T>>, run: seq<T>, i: nat)
    requires Sorted(less, run) && run != [] && Entry(run[0], i) in multiset(h)
    ensures Covered(less, h, run[1..], i)
  {
    if run[1..] != [] {
      var k :| 0 <= k < |h| && h[k] == Entry(run[0], i);
      assert !less(run[1], run[0]);
    }
  }

  /** What is still in run i is not before anything that is before the whole heap. */
  lemma RestAfter<T(!new)>(less: (T, T) -> bool, h: seq<Entry<T>>, rest: seq<T>, i: nat, z: T)
    requires Order(less) && Covered(less, h, rest, i) && rest != [] && Before(less, z, Items(h))
    ensures !less(rest[0], z)
  {
    var k :| 0 <= k < |h| && h[k].source == i && !less(rest[0], h[k].item);
    InItems(h, h[k].item);
  }

  /** Puts the next head of run i, if there is one, into the heap. */
  method Refill<T(!new)>(less: (T, T) -> bool, g: seq<Entry<T>>, rest0: seq<seq<T>>, i: nat)
    returns (h: seq<Entry<T>>, rest: seq<seq<T>>)
    requires Order(less) && Heaped(ByItem(less), g) && i < |rest0|
    ensures Heaped(ByItem(less), h)
    ensures rest0[i] == [] ==> h == g && rest == rest0
    ensures rest0[i] != [] ==> rest == rest0[i := rest0[i][1..]] && multiset(h) == multiset(g) + multiset{Entry(rest0[i][0], i)}
  {
    if rest0[i] == [] {
      h, rest := g, rest0;
    } else {
      ByItemOrder(less);
      h := Push(ByItem(less), g, Entry(rest0[i][0], i));
      rest := rest0[i := rest0[i][1..]];
    }
  }

  /** Refilling moves one element from the runs to the heap. */
  lemma {:induction false} RefillItems<T>(g: seq<Entry<T>>, rest0: seq<seq<T>>, i: nat, h: seq<Entry<T>>)
    requires i < |rest0| && rest0[i] != [] && multiset(h) == multiset(g) + multiset{Entry(rest0[i][0], i)}
    ensures Items(h) == Items(g) + multiset{rest0[i][0]}
    ensures Items(h) + Union(rest0[i := rest0[i][1..]]) == Items(g) + Union(rest0)
  {
    var e := Entry(rest0[i][0], i);
    UnionTake(rest0, i);
    assert multiset(g + [e]) == multiset(h);
    ItemsMove(h, g + [e]);
    ItemsSnoc(g, e);
  }

  /** Refilling covers run i and keeps what was covered. */
  lemma RefillCovers<T(!new)>(less: (T, T) -> bool, g: seq<Entry<T>>, rest0: seq<seq<T>>, i: nat, h: seq<Entry<T>>, j: nat)
    requires i < |rest0| && rest0[i] != [] && multiset(h) == multiset(g) + multiset{Entry(rest0[i][0], i)}
    requires j < |rest0| && if j == i then Sorted(less, rest0[i]) else Covered(less, g, rest0[j], j)
    ensures Covered(less, h, rest0[i := rest0[i][1..]][j], j)
  {
    var e := Entry(rest0[i][0], i);
    assert e in multiset(h);
    if j == i {
      HeadCovers(less, h, rest0[i], i);
    } else {
      CoverGrows(less, g, e, h, rest0[j], j);
    }
  }

  lemma SourcesBelow<T>(g: seq<Entry<T>>, e: Entry<T>, h: seq<Entry<T>>, n: nat)
    requires multiset(h) == multiset(g) + multiset{e} && e.source < n
    requires forall k :: 0 <= k < |g| ==> g[k].source < n
    ensures forall k :: 0 <= k < |h| ==> h[k].source < n
  {
    forall k | 0 <= k < |h| ensures h[k].source < n {
      assert h[k] in multiset(h);
      assert h[k] == e || h[k] in g;
    }
  }

  // ---------- Looks at the caller's context ----------

  /** `poll(n)` tells what look n at the context finds; looks are numbered over the whole call. Some look
      from a on and before b found the context done. */
  ghost predicate Noticed(poll: nat -> bool, a: nat, b: nat) { exists n: nat :: a <= n < b && poll(n) }

  lemma {:induction false} LookOnce(poll: nat -> bool, a: nat, b: nat)
    requires a <= b
    ensures Noticed(poll, a, b + 1) <==> Noticed(poll, a, b) || poll(b)
  {
    if n: nat :| a <= n < b + 1 && poll(n) { assert n == b || Noticed(poll, a, b); }
    if poll(b) { assert a <= b < b + 1; }
  }

  lemma {:induction false} LookOn(poll: nat -> bool, a: nat, b: nat, c: nat)
    requires a <= b <= c
    ensures Noticed(poll, a, c) <==> Noticed(poll, a, b) || Noticed(poll, b, c)
  {
    if n: nat :| a <= n < c && poll(n) { assert if n < b then Noticed(poll, a, b) else Noticed(poll, b, c); }
    if n: nat :| a <= n < b && poll(n) { assert n < c; }
    if n: nat :| b <= n < c && poll(n) { assert a <= n; }
  }

  /** One look. */
  method Look(poll: nat -> bool, ghost from: nat, now: nat) returns (done: bool, later: nat)
    requires from <= now && !Noticed(poll, from, now)
    ensures later == now + 1 && (done <==> Noticed(poll, from, later))
  {
    LookOnce(poll, from, now);
    done, later := poll(now), now + 1;
  }

  /** For n elements there were at least as many looks as it takes to look once every `every` elements. */
  ghost predicate Often(n: nat, every: nat, looks: int) { forall k: Seal :: Open(k) ==> n <= every * looks }

  lemma OftenMeans(n: nat, every: nat, looks: int)
    ensures Often(n, every, looks) <==> n <= every * looks
  {
    assert Open(Seal);
  }

  lemma Remainder(y: nat, e: nat, q: nat, r: nat)
    requires y == q * e + r && r < e
    ensures y % e == r
  {
    var d := y / e - q;
    assert d * e == r - y % e;
    assert (d >= 1 ==> d * e >= e) && (d <= -1 ==> d * e <= 0 - e);
  }

  /** One more element after a look, ... */
  lemma OftenLook(k: nat, every: nat, looks: nat)
    requires Often(k, every, looks) && every > 0
    ensures Often(k + 1, every, looks + 1)
  {
    OftenMeans(k, every, looks);
    assert every * (looks + 1) == every * looks + every;
  }

  /** ... and one without, when it is not its turn. */
  lemma OftenNext(k: nat, every: nat, looks: nat)
    requires Often(k, every, looks) && every > 0 && k % every != 0
    ensures Often(k + 1, every, looks)
  {
    OftenMeans(k, every, looks);
    Remainder(looks * every, every, looks, 0);
    OftenMeans(k + 1, every, looks);
  }

  /** Looks before element k when it is its turn. */
  method LookInTurn(k: nat, every: nat, poll: nat -> bool, ghost from: nat, now: nat) returns (done: bool, later: nat)
    requires every > 0 && from <= now && !Noticed(poll, from, now) && Often(k, every, now - from)
    ensures now <= later && (done <==> Noticed(poll, from, later)) && (!done ==> Often(k + 1, every, later - from))
  {
    done, later := false, now;
    if k % every == 0 {
      OftenLook(k, every, now - from);
      done, later := Look(poll, from, now);
    } else {
      OftenNext(k, every, now - from);
    }
  }

  lemma OftenAdd(a: nat, b: nat, every: nat, x: int, y: int)
    requires Often(a, every, x) && Often(b, every, y)
    ensures Often(a + b, every, x + y)
  {
    OftenMeans(a, every, x);
    OftenMeans(b, every, y);
    assert every * (x + y) == every * x + every * y;
  }

  lemma OftenMore(a: nat, every: nat, x: int, y: int)
    requires Often(a, every, x) && x <= y
    ensures Often(a, every, y)
  {
    OftenMeans(a, every, x);
    assert every * (y - x) >= 0;
    assert every * y == every * x + every * (y - x);
  }

  lemma OftenNone(every: nat)
    ensures Often(0, every, 0)
  {
  }

  /** Merges sorted runs through a heap of their heads. Before the first element and then every `every`
      elements it looks at the caller's context, beginning with look `now`; None means that it was found done. */
  method MergeRuns<T(!new)>(less: (T, T) -> bool, runs: seq<seq<T>>, poll: nat -> bool, every: nat, now: nat)
    returns (out: Option<seq<T>>, later: nat)
    requires Order(less) && AllSorted(less, runs) && every > 0
    ensures out.Some? ==> Sorted(less, out.value) && multiset(out.value) == Union(runs)
    ensures now <= later && (out.None? <==> Noticed(poll, now, later))
    ensures out.Some? ==> Often(|out.value|, every, later - now)
  {
    later := now;
    var h, rest := FillHeap(less, runs);
    var emitted: seq<T> := [];
    OftenNone(every);
    while h != []
      invariant Merging(less, runs, emitted, h, rest) && now <= later && !Noticed(poll, now, later)
      invariant Often(|emitted|, every, later - now)
      decreases |Union(runs)| - |emitted|
    {
      var done;
      done, later := LookInTurn(|emitted|, every, poll, now, later);
      if done {
        return None, later;
      }
      emitted, h, rest := MergeOne(less, runs, emitted, h, rest);
    }
    Exhausted(less, runs, emitted, rest);
    out := Some(emitted);
  }

  /** The first i runs have their heads in the heap. */
  ghost predicate Filling<T(!new)>(less: (T, T) -> bool, runs: seq<seq<T>>, i: nat, h: seq<Entry<T>>, rest: seq<seq<T>>) {
    && i <= |runs| == |rest| && (forall k :: 0 <= k < |h| ==> h[k].source < i)
    && Heaped(ByItem(less), h) && Items(h) + Union(rest) == Union(runs)
    && (forall j :: 0 <= j < i ==> Covered(less, h, rest[j], j))
    && (forall j :: i <= j < |runs| ==> rest[j] == runs[j])
  }

  lemma FilledOne<T(!new)>(less: (T, T) -> bool, runs: seq<seq<T>>, i: nat, g: seq<Entry<T>>, was: seq<seq<T>>, h: seq<Entry<T>>)
    requires AllSorted(less, runs) && i < |runs| && Filling(less, runs, i, g, was) && was[i] != []
    requires Heaped(ByItem(less), h) && multiset(h) == multiset(g) + multiset{Entry(was[i][0], i)}
    ensures Filling(less, runs, i + 1, h, was[i := was[i][1..]])
  {
    RefillItems(g, was, i, h);
    SourcesBelow(g, Entry(was[i][0], i), h, i + 1);
    var next := was[i := was[i][1..]];
    forall j | 0 <= j < i + 1 ensures Covered(less, h, next[j], j) {
      RefillCovers(less, g, was, i, h, j);
    }
  }

  /** A run without elements has no head. */
  lemma FilledNone<T(!new)>(less: (T, T) -> bool, runs: seq<seq<T>>, i: nat, g: seq<Entry<T>>, was: seq<seq<T>>)
    requires i < |runs| && Filling(less, runs, i, g, was) && was[i] == []
    ensures Filling(less, runs, i + 1, g, was)
  {
  }

  lemma NoneFilled<T(!new)>(less: (T, T) -> bool, runs: seq<seq<T>>)
    ensures Filling(less, runs, 0, [], runs)
  {
  }

  /** The loop has filled the heap for the merge. */
  lemma AllFilled<T(!new)>(less: (T, T) -> bool, runs: seq<seq<T>>, h: seq<Entry<T>>, rest: seq<seq<T>>)
    requires AllSorted(less, runs) && Filling(less, runs, |runs|, h, rest)
    ensures Merging(less, runs, [], h, rest)
  {
  }

  /** One reader per run, each with its head in the heap. */
  method FillHeap<T(!new)>(less: (T, T) -> bool, runs: seq<seq<T>>) returns (h: seq<Entry<T>>, rest: seq<seq<T>>)
    requires Order(less) && AllSorted(less, runs)
    ensures Merging(less, runs, [], h, rest)
  {
    h, rest := [], runs;
    NoneFilled(less, runs);
    for i := 0 to |runs|
      invariant Filling(less, runs, i, h, rest)
    {
      var g, was := h, rest;
      h, rest := Refill(less, g, was, i);
      if was[i] != [] {
        FilledOne(less, runs, i, g, was, h);
      } else {
        FilledNone(less, runs, i, g, was);
      }
    }
    AllFilled(less, runs, h, rest);
  }

  /** Between a pop from run s and the refill from it. */
  ghost predicate Popped<T(!new)>(less: (T, T) -> bool, runs: seq<seq<T>>, out: seq<T>, g: seq<Entry<T>>, rest: seq<seq<T>>, s: nat) {
    && |rest| == |runs| && s < |runs| && (forall k :: 0 <= k < |g| ==> g[k].source < |runs|)
    && Heaped(ByItem(less), g) && Sorted(less, rest[s])
    && (forall j :: 0 <= j < |rest| && j != s ==> Covered(less, g, rest[j], j))
    && multiset(out) + Items(g) + Union(rest) == Union(runs)
    && Sorted(less, out) && (forall z :: z in out ==> Before(less, z, Items(g)))
    && (rest[s] != [] ==> forall z :: z in out ==> !less(rest[s][0], z))
  }

  lemma PopSources<T>(h: seq<Entry<T>>, x: Entry<T>, g: seq<Entry<T>>, n: nat)
    requires multiset(h) == multiset(g) + multiset{x} && forall k :: 0 <= k < |h| ==> h[k].source < n
    ensures x in h && x.source < n && forall k :: 0 <= k < |g| ==> g[k].source < n
  {
    assert x in multiset(h);
    forall k | 0 <= k < |g| ensures g[k].source < n {
      assert g[k] in multiset(h);
      assert g[k] in h;
    }
  }

  /** What is left of the run the element came from does not come before what is out. */
  lemma {:induction false} PopRest<T(!new)>(less: (T, T) -> bool, runs: seq<seq<T>>, out: seq<T>, h: seq<Entry<T>>, rest: seq<seq<T>>,
                                           x: Entry<T>, g: seq<Entry<T>>)
    requires Order(less) && Merging(less, runs, out, h, rest) && x.source < |rest| && rest[x.source] != []
    requires multiset(h) == multiset(g) + multiset{x} && (forall e :: e in g ==> !less(e.item, x.item))
    ensures !less(rest[x.source][0], x.item) && forall z :: z in out ==> !less(rest[x.source][0], z)
  {
    NextAfter(less, rest, h, x, g);
    forall z | z in out ensures !less(rest[x.source][0], z) {
      RestAfter(less, h, rest[x.source], x.source, z);
    }
  }

  lemma {:induction false} AfterPop<T(!new)>(less: (T, T) -> bool, runs: seq<seq<T>>, out: seq<T>, h: seq<Entry<T>>, rest: seq<seq<T>>,
                          x: Entry<T>, g: seq<Entry<T>>)
    requires Order(less) && Merging(less, runs, out, h, rest) && Heaped(ByItem(less), g)
    requires multiset(h) == multiset(g) + multiset{x} && (forall e :: e in g ==> !less(e.item, x.item))
    ensures x.source < |runs| && Popped(less, runs, out + [x.item], g, rest, x.source)
    ensures Items(h) == Items(g) + multiset{x.item}
  {
    PopSources(h, x, g, |runs|);
    PopKeeps(less, out, h, x, g);
    var s := x.source;
    forall j | 0 <= j < |rest| && j != s ensures Covered(less, g, rest[j], j) {
      CoverStays(less, h, x, g, rest[j], j);
    }
    if rest[s] != [] { PopRest(less, runs, out, h, rest, x, g); }
  }

  lemma {:induction false} AfterRefill<T(!new)>(less: (T, T) -> bool, runs: seq<seq<T>>, out: seq<T>, g: seq<Entry<T>>, rest: seq<seq<T>>,
                             s: nat, h: seq<Entry<T>>)
    requires Popped(less, runs, out, g, rest, s) && rest[s] != [] && Heaped(ByItem(less), h)
    requires multiset(h) == multiset(g) + multiset{Entry(rest[s][0], s)}
    ensures Merging(less, runs, out, h, rest[s := rest[s][1..]])
  {
    var next := rest[s := rest[s][1..]];
    RefillItems(g, rest, s, h);
    SourcesBelow(g, Entry(rest[s][0], s), h, |runs|);
    forall j | 0 <= j < |rest| ensures Covered(less, h, next[j], j) {
      RefillCovers(less, g, rest, s, h, j);
    }
    assert multiset(out) + Items(h) + Union(next) == multiset(out) + (Items(h) + Union(next));
    assert multiset(out) + Items(g) + Union(rest) == multiset(out) + (Items(g) + Union(rest));
  }

  /** Pops a first head and refills from the run it came from. */
  method MergeOne<T(!new)>(less: (T, T) -> bool, ghost runs: seq<seq<T>>, out0: seq<T>, h0: seq<Entry<T>>, rest0: seq<seq<T>>)
    returns (out: seq<T>, h: seq<Entry<T>>, rest: seq<seq<T>>)
    requires Order(less) && Merging(less, runs, out0, h0, rest0) && h0 != []
    ensures Merging(less, runs, out, h, rest)
    ensures |out| == |out0| + 1 && out[..|out0|] == out0
  {
    ByItemOrder(less);
    var x, g := Pop(ByItem(less), h0);
    AfterPop(less, runs, out0, h0, rest0, x, g);
    out := out0 + [x.item];
    h, rest := Refill(less, g, rest0, x.source);
    if rest0[x.source] != [] {
      AfterRefill(less, runs, out, g, rest0, x.source, h);
    }
  }

  lemma NextAfter<T(!new)>(less: (T, T) -> bool, rest0: seq<seq<T>>, h0: seq<Entry<T>>, x: Entry<T>, g: seq<Entry<T>>)
    requires Order(less) && AllCovered(less, h0, rest0) && x.source < |rest0| && rest0[x.source] != []
    requires multiset(h0) == multiset(g) + multiset{x} && (forall e :: e in g ==> !less(e.item, x.item))
    ensures !less(rest0[x.source][0], x.item)
  {
    var k :| 0 <= k < |h0| && h0[k].source == x.source && !less(rest0[x.source][0], h0[k].item);
    assert h0[k] in multiset(h0);
    assert h0[k] == x || h0[k] in g;
  }

  lemma Exhausted<T(!new)>(less: (T, T) -> bool, runs: seq<seq<T>>, out: seq<T>, rest: seq<seq<T>>)
    requires Merging(less, runs, out, [], rest)
    ensures multiset(out) == Union(runs)
  {
    forall i | 0 <= i < |rest| ensures rest[i] == [] {
      assert Covered(less, [], rest[i], i);
    }
    forall x ensures x !in Union(rest) {
      InUnion(rest, x);
    }
    assert Union(rest) == multiset{};
  }

  // ---------- Bounded fan-in passes ----------

  lemma PassSoFar<T>(runs: seq<seq<T>>, made: seq<seq<T>>, i: nat, end: nat, merged: seq<T>)
    requires i <= end <= |runs| && Union(made) == Union(runs[..i]) && multiset(merged) == Union(runs[i..end])
    ensures Union(made + [merged]) == Union(runs[..end])
  {
    UnionSnoc(made, merged);
    UnionConcat(runs[..i], runs[i..end]);
    assert runs[..i] + runs[i..end] == runs[..end];
  }

  lemma OftenPass<T>(runs: seq<seq<T>>, i: nat, end: nat, merged: seq<T>, every: nat, x: nat, y: nat)
    requires i <= end <= |runs| && multiset(merged) == Union(runs[i..end])
    requires Often(|Union(runs[..i])|, every, x) && Often(|merged|, every, y)
    ensures Often(|Union(runs[..end])|, every, x + y)
  {
    UnionConcat(runs[..i], runs[i..end]);
    assert runs[..i] + runs[i..end] == runs[..end];
    assert |merged| == |multiset(merged)|;
    OftenAdd(|Union(runs[..i])|, |merged|, every, x, y);
  }

  /** What a pass has made of the first i runs. */
  ghost predicate Passing<T(!new)>(less: (T, T) -> bool, runs: seq<seq<T>>, i: nat, made: seq<seq<T>>, every: nat, looks: int) {
    && i <= |runs| && (i == |runs| || i == FAN_IN * |made|) && |made| == (i + FAN_IN - 1) / FAN_IN
    && AllSorted(less, made) && Union(made) == Union(runs[..i]) && Often(|Union(runs[..i])|, every, looks)
  }

  lemma PassOn<T(!new)>(less: (T, T) -> bool, runs: seq<seq<T>>, i: nat, made: seq<seq<T>>, every: nat, x: nat, end: nat, merged: seq<T>, y: nat)
    requires Passing(less, runs, i, made, every, x) && i < |runs| && end == (if i + FAN_IN > |runs| then |runs| else i + FAN_IN)
    requires Sorted(less, merged) && multiset(merged) == Union(runs[i..end]) && Often(|merged|, every, y)
    ensures Passing(less, runs, end, made + [merged], every, x + y)
  {
    PassSoFar(runs, made, i, end, merged);
    OftenPass(runs, i, end, merged, every, x, y);
  }

  /** One pass: every FAN_IN neighbours become one run. */
  method MergePass<T(!new)>(less: (T, T) -> bool, runs: seq<seq<T>>, poll: nat -> bool, every: nat, now: nat)
    returns (next: Option<seq<seq<T>>>, later: nat)
    requires Order(less) && AllSorted(less, runs) && every > 0
    ensures next.Some? ==> AllSorted(less, next.value) && Union(next.value) == Union(runs)
    ensures next.Some? ==> |next.value| == (|runs| + FAN_IN - 1) / FAN_IN
    ensures now <= later && (next.None? <==> Noticed(poll, now, later))
    ensures next.Some? ==> Often(|Union(runs)|, every, later - now)
  {
    var made: seq<seq<T>> := [];
    var i := 0;
    later := now;
    OftenNone(every);
    while i < |runs|
      invariant Passing(less, runs, i, made, every, later - now)
      invariant now <= later && !Noticed(poll, now, later)
    {
      var end := if i + FAN_IN > |runs| then |runs| else i + FAN_IN;
      var merged, t := MergeRuns(less, runs[i..end], poll, every, later);
      LookOn(poll, now, later, t);
      if merged.None? {
        return None, t;
      }
      PassOn(less, runs, i, made, every, later - now, end, merged.value, t - later);
      made := made + [merged.value];
      i, later := end, t;
    }
    assert runs[..|runs|] == runs;
    next := Some(made);
  }

  /** Passes until one last merge can open every run at once. */
  method MergeToFanIn<T(!new)>(less: (T, T) -> bool, runs: seq<seq<T>>, poll: nat -> bool, every: nat, now: nat)
    returns (few: Option<seq<seq<T>>>, later: nat)
    requires Order(less) && AllSorted(less, runs) && every > 0
    ensures few.Some? ==> |few.value| <= FAN_IN && AllSorted(less, few.value) && Union(few.value) == Union(runs)
    ensures now <= later && (few.None? <==> Noticed(poll, now, later))
    ensures few.Some? && |runs| > FAN_IN ==> Often(|Union(runs)|, every, later - now)
  {
    var chunks := runs;
    ghost var passed := false;
    later := now;
    while |chunks| > FAN_IN
      invariant AllSorted(less, chunks) && Union(chunks) == Union(runs)
      invariant now <= later && !Noticed(poll, now, later)
      invariant if passed then Often(|Union(runs)|, every, later - now) else |chunks| == |runs|
      decreases |chunks|
    {
      var next, t := MergePass(less, chunks, poll, every, later);
      LookOn(poll, now, later, t);
      if next.None? {
        return None, t;
      }
      OftenMore(|Union(runs)|, every, t - later, t - now);
      later, passed := t, true;
      chunks := next.value;
    }
    few := Some(chunks);
  }
}
