/** Discovery to disk: sorted chunks, a base-16 carry of runs, merge passes, and duplicate IDs by
    external sorting.  Spools and ID files are sequences. */
module DiskDiscovery {
  import opened Base
  import opened Merge
  import opened Sorting
  import opened Discovery

  const CHUNK: nat := 512
  const ID_CHUNK: nat := 8192
  const LOOK_EVERY: nat := 256
  const LOOK_EVERY_ID: nat := 1024

  /** A spooled run; `chunks` counts the flushed chunks merged into it (bookkeeping only). */
  datatype Run = Run(items: seq<Mutation>, chunks: nat)

  function ItemsOf(rs: seq<Run>): (r: seq<seq<Mutation>>)
    ensures |r| == |rs|
    ensures forall i :: 0 <= i < |rs| ==> r[i] == rs[i].items
  {
    seq(|rs|, i requires 0 <= i < |rs| => rs[i].items)
  }

  function Chunks(rs: seq<Run>): nat {
    if rs == [] then 0 else rs[0].chunks + Chunks(rs[1..])
  }

  function Pow16(k: nat): (p: nat)
    ensures p >= 1
  {
    if k == 0 then 1 else 16 * Pow16(k - 1)
  }

  /** All runs, lowest level first. */
  function Flat(levels: seq<seq<Run>>): seq<Run> {
    if levels == [] then [] else levels[0] + Flat(levels[1..])
  }

  /** The number a carry structure stands for: |level k| is its digit of weight 16^k. */
  function Digits(levels: seq<seq<Run>>): nat {
    if levels == [] then 0 else |levels[0]| + 16 * Digits(levels[1..])
  }

  ghost function Content(levels: seq<seq<Run>>): multiset<Mutation> { Union(ItemsOf(Flat(levels))) }

  lemma {:induction false} ChunksConcat(a: seq<Run>, b: seq<Run>)
    ensures Chunks(a + b) == Chunks(a) + Chunks(b)
    decreases |a|
  {
    if a == [] {
      assert a + b == b;
    } else {
      assert (a + b)[1..] == a[1..] + b;
      ChunksConcat(a[1..], b);
    }
  }

  lemma {:induction false} EvenChunks(rs: seq<Run>, w: nat)
    requires forall j :: 0 <= j < |rs| ==> rs[j].chunks == w
    ensures Chunks(rs) == |rs| * w
    decreases |rs|
  {
    if rs != [] { EvenChunks(rs[1..], w); }
  }

  lemma ItemsOfConcat(a: seq<Run>, b: seq<Run>)
    ensures ItemsOf(a + b) == ItemsOf(a) + ItemsOf(b)
  {
  }

  lemma ContentAdd(a: seq<Run>, b: seq<Run>)
    ensures Union(ItemsOf(a + b)) == Union(ItemsOf(a)) + Union(ItemsOf(b))
  {
    ItemsOfConcat(a, b);
    UnionConcat(ItemsOf(a), ItemsOf(b));
  }

  /** Replacing one level changes the number by its digit ... */
  lemma {:induction false} SetDigit(levels: seq<seq<Run>>, k: nat, runs: seq<Run>)
    requires k < |levels|
    ensures Digits(levels[k := runs]) + |levels[k]| * Pow16(k) == Digits(levels) + |runs| * Pow16(k)
    decreases k
  {
    if k == 0 {
      assert levels[0 := runs][1..] == levels[1..];
    } else {
      assert levels[k := runs][1..] == levels[1..][k - 1 := runs];
      SetDigit(levels[1..], k - 1, runs);
      Times16(|levels[k]|, k);
      Times16(|runs|, k);
    }
  }

  lemma Times16(a: nat, k: nat)
    requires k > 0
    ensures a * Pow16(k) == 16 * (a * Pow16(k - 1))
  {
  }

  /** ... and the content by its runs. */
  lemma {:induction false} SetContent(levels: seq<seq<Run>>, k: nat, runs: seq<Run>)
    requires k < |levels|
    ensures Content(levels[k := runs]) + Union(ItemsOf(levels[k])) == Content(levels) + Union(ItemsOf(runs))
    decreases k
  {
    var rest := Flat(levels[1..]);
    ContentAdd(levels[0], rest);
    if k == 0 {
      assert levels[0 := runs][1..] == levels[1..];
      ContentAdd(runs, rest);
    } else {
      var next := levels[1..][k - 1 := runs];
      assert levels[k := runs][1..] == next;
      ContentAdd(levels[0], Flat(next));
      SetContent(levels[1..], k - 1, runs);
      AddLeft(Union(ItemsOf(levels[0])), Content(next), Union(ItemsOf(levels[k])), Content(levels[1..]), Union(ItemsOf(runs)));
    }
  }

  lemma AddLeft<T>(x: multiset<T>, a: multiset<T>, b: multiset<T>, c: multiset<T>, d: multiset<T>)
    requires a + b == c + d
    ensures (x + a) + b == (x + c) + d
  {
    assert (x + a) + b == x + (a + b);
  }

  /** A level appended empty changes nothing. */
  lemma {:induction false} AppendEmpty(levels: seq<seq<Run>>)
    ensures Digits(levels + [[]]) == Digits(levels) && Flat(levels + [[]]) == Flat(levels)
    decreases |levels|
  {
    if levels == [] {
      assert (levels + [[]])[1..] == levels;
    } else {
      assert (levels + [[]])[1..] == levels[1..] + [[]];
      AppendEmpty(levels[1..]);
    }
  }

  /** Each level holds fewer than sixteen runs, all sorted, each merging 16^k chunks. */
  ghost predicate LevelOk(runs: seq<Run>, k: nat) {
    |runs| < FAN_IN && RunsOk(runs, Pow16(k))
  }

  ghost predicate RunsOk(runs: seq<Run>, w: nat) {
    forall j :: 0 <= j < |runs| ==> Sorted(MutationLess, runs[j].items) && runs[j].chunks == w
  }

  ghost predicate LevelsOk(levels: seq<seq<Run>>) {
    forall k :: 0 <= k < |levels| ==> LevelOk(levels[k], k)
  }

  lemma RunsAreSorted(levels: seq<seq<Run>>, k: nat, run: Run)
    requires k < |levels| && LevelsOk(levels) && Sorted(MutationLess, run.items)
    ensures AllSorted(MutationLess, ItemsOf(levels[k] + [run]))
  {
    assert LevelOk(levels[k], k);
  }

  lemma RunContent(runs: seq<Run>, run: Run)
    ensures Union(ItemsOf(runs + [run])) == Union(ItemsOf(runs)) + multiset(run.items)
  {
    ContentAdd(runs, [run]);
    assert ItemsOf([run]) == [run.items];
    UnionOne(run.items);
  }

  lemma LevelsSet(levels: seq<seq<Run>>, k: nat, runs: seq<Run>)
    requires k < |levels| && LevelsOk(levels) && LevelOk(runs, k)
    ensures LevelsOk(levels[k := runs])
  {
    var next := levels[k := runs];
    forall j | 0 <= j < |next| ensures LevelOk(next[j], j) {
      assert j != k ==> LevelOk(levels[j], j);
    }
  }

  /** A run put on a level that has room. */
  lemma PlaceRun(levels: seq<seq<Run>>, k: nat, run: Run)
    requires k < |levels| && LevelsOk(levels) && |levels[k]| + 1 < FAN_IN
    requires run.chunks == Pow16(k) && Sorted(MutationLess, run.items)
    ensures var next := levels[k := levels[k] + [run]];
            LevelsOk(next) && Digits(next) == Digits(levels) + Pow16(k)
  {
    var runs := levels[k] + [run];
    assert LevelOk(levels[k], k);
    LevelsSet(levels, k, runs);
    SetDigit(levels, k, runs);
    OneMore(|levels[k]|, Pow16(k));
  }

  lemma OneMore(a: nat, w: nat)
    ensures (a + 1) * w == a * w + w
  {
  }

  lemma PlaceContent(levels: seq<seq<Run>>, k: nat, run: Run)
    requires k < |levels|
    ensures Content(levels[k := levels[k] + [run]]) == Content(levels) + multiset(run.items)
  {
    var own := Union(ItemsOf(levels[k]));
    SetContent(levels, k, levels[k] + [run]);
    RunContent(levels[k], run);
    assert Content(levels) + (own + multiset(run.items)) == (Content(levels) + multiset(run.items)) + own;
    Cancel(Content(levels[k := levels[k] + [run]]), Content(levels) + multiset(run.items), own);
  }

  lemma Cancel<T>(a: multiset<T>, b: multiset<T>, c: multiset<T>)
    requires a + c == b + c
    ensures a == b
  {
    assert a == a + c - c && b == b + c - c;
  }

  /** A full level becomes one run of the next level. */
  lemma CarryRun(levels: seq<seq<Run>>, k: nat, run: Run)
    requires k < |levels| && LevelsOk(levels) && |levels[k]| + 1 == FAN_IN && run.chunks == Pow16(k)
    ensures LevelsOk(levels[k := []]) && Chunks(levels[k] + [run]) == Pow16(k + 1)
    ensures Digits(levels[k := []]) + Pow16(k + 1) == Digits(levels) + Pow16(k)
  {
    assert LevelOk(levels[k], k);
    LevelsSet(levels, k, []);
    SetDigit(levels, k, []);
    EvenChunks(levels[k] + [run], Pow16(k));
  }

  lemma CarryContent(levels: seq<seq<Run>>, k: nat, run: Run, merged: seq<Mutation>)
    requires k < |levels| && multiset(merged) == Union(ItemsOf(levels[k] + [run]))
    ensures Content(levels[k := []]) + multiset(merged) == Content(levels) + multiset(run.items)
  {
    var own := Union(ItemsOf(levels[k]));
    SetContent(levels, k, []);
    RunContent(levels[k], run);
    assert Union(ItemsOf([])) == multiset{};
    assert Content(levels[k := []]) + (own + multiset(run.items)) == (Content(levels[k := []]) + own) + multiset(run.items);
  }

  ghost predicate RunsSorted(runs: seq<Run>) {
    forall j :: 0 <= j < |runs| ==> Sorted(MutationLess, runs[j].items)
  }

  lemma {:induction false} FlatSorted(levels: seq<seq<Run>>)
    requires forall k :: 0 <= k < |levels| ==> RunsSorted(levels[k])
    ensures RunsSorted(Flat(levels))
    decreases |levels|
  {
    if levels != [] {
      FlatSorted(levels[1..]);
    }
  }

  /** While a run of weight 16^level is on its way up. */
  ghost predicate Carrying(levels: seq<seq<Run>>, level: nat, run: Run, n: nat, total: multiset<Mutation>) {
    && level <= |levels| && LevelsOk(levels)
    && run.chunks == Pow16(level) && Sorted(MutationLess, run.items)
    && Digits(levels) + Pow16(level) == n
    && Content(levels) + multiset(run.items) == total
    && (level + 1 < |levels| ==> levels[|levels| - 1] != [])
  }

  /** The travelling run finds room. */
  lemma {:induction false} Settle(levels: seq<seq<Run>>, level: nat, run: Run, n: nat, total: multiset<Mutation>)
    requires level < |levels| && Carrying(levels, level, run, n, total) && |levels[level]| + 1 < FAN_IN
    ensures var next := levels[level := levels[level] + [run]];
            LevelsOk(next) && Digits(next) == n && next[|next| - 1] != [] && Content(next) == total
  {
    PlaceRun(levels, level, run);
    PlaceContent(levels, level, run);
  }

  /** A new level for it. */
  lemma NewLevel(levels: seq<seq<Run>>, run: Run, n: nat, total: multiset<Mutation>)
    requires Carrying(levels, |levels|, run, n, total)
    ensures Carrying(levels + [[]], |levels|, run, n, total)
  {
    AppendEmpty(levels);
  }

  /** It takes a full level with it. */
  lemma {:induction false} TakesLevel(levels: seq<seq<Run>>, level: nat, run: Run, n: nat, total: multiset<Mutation>, merged: seq<Mutation>)
    requires level < |levels| && Carrying(levels, level, run, n, total) && |levels[level]| + 1 >= FAN_IN
    requires Sorted(MutationLess, merged) && multiset(merged) == Union(ItemsOf(levels[level] + [run]))
    ensures Carrying(levels[level := []], level + 1, Run(merged, Chunks(levels[level] + [run])), n, total)
  {
    assert LevelOk(levels[level], level);
    CarryRun(levels, level, run);
    CarryContent(levels, level, run, merged);
  }

  /** Merges a full level, and the run that filled it, into a run of the next level. */
  method Carry(levels: seq<seq<Run>>, level: nat, run: Run, poll: nat -> bool, ghost from: nat, now: nat,
               ghost n: nat, ghost total: multiset<Mutation>)
    returns (merged: Option<Run>, later: nat)
    requires level < |levels| && Carrying(levels, level, run, n, total) && |levels[level]| + 1 >= FAN_IN
    requires from <= now && !Noticed(poll, from, now)
    ensures merged.Some? ==> Carrying(levels[level := []], level + 1, merged.value, n, total)
    ensures now <= later && (merged.None? <==> Noticed(poll, from, later))
  {
    MutationOrder();
    RunsAreSorted(levels, level, run);
    var runs := levels[level] + [run];
    var items, t := MergeRuns(MutationLess, ItemsOf(runs), poll, LOOK_EVERY, now);
    LookOn(poll, from, now, t);
    later := t;
    if items.None? {
      return None, later;
    }
    TakesLevel(levels, level, run, n, total, items.value);
    merged := Some(Run(items.value, Chunks(runs)));
  }

  class DiscoveryRuns {
    var levels: seq<seq<Run>>
    ghost var added: nat

    ghost predicate Valid()
      reads this
    {
      && LevelsOk(levels) && Digits(levels) == added
      && (levels != [] ==> levels[|levels| - 1] != [])
    }

    constructor ()
      ensures Valid() && added == 0 && Content(levels) == multiset{}
    {
      levels, added := [], 0;
    }

    /** A run on its way up finds room in a level. */
    method PutDown(level: nat, run: Run, ghost total: multiset<Mutation>)
      requires level < |levels| && |levels[level]| + 1 < FAN_IN && Carrying(levels, level, run, added + 1, total)
      modifies this
      ensures Valid() && added == old(added) + 1 && Content(levels) == total
    {
      Settle(levels, level, run, added + 1, total);
      levels, added := levels[level := levels[level] + [run]], added + 1;
    }

    /** Adds a sorted chunk, carrying full levels upwards. */
    method Add(chunk: seq<Mutation>, poll: nat -> bool, now: nat) returns (ok: bool, later: nat)
      requires Valid() && Sorted(MutationLess, chunk)
      modifies this
      ensures ok ==> Valid() && added == old(added) + 1 && Content(levels) == old(Content(levels)) + multiset(chunk)
      ensures now <= later && (ok <==> !Noticed(poll, now, later))
    {
      later := now;
      var run := Run(chunk, 1);
      var level := 0;
      ghost var total := Content(levels) + multiset(chunk);
      while true
        invariant Carrying(levels, level, run, added + 1, total) && added == old(added)
        invariant now <= later && !Noticed(poll, now, later)
        decreases |levels| - level
      {
        if level == |levels| {
          NewLevel(levels, run, added + 1, total);
          levels := levels + [[]];
        }
        if |levels[level]| + 1 < FAN_IN {
          PutDown(level, run, total);
          return true, later;
        }
        var carried;
        carried, later := Carry(levels, level, run, poll, now, later, added + 1, total);
        if carried.None? {
          return false, later;
        }
        levels, run := levels[level := []], carried.value;
        level := level + 1;
      }
    }

    /** Every retained run, lowest level first. */
    method TakeAll() returns (out: seq<seq<Mutation>>)
      requires Valid()
      modifies this
      ensures AllSorted(MutationLess, out) && Union(out) == old(Content(levels)) && |out| == |Flat(old(levels))|
      ensures Valid() && added == 0
    {
      forall k | 0 <= k < |levels| ensures RunsSorted(levels[k]) {
        assert LevelOk(levels[k], k);
      }
      FlatSorted(levels);
      out := ItemsOf(Flat(levels));
      levels, added := [], 0;
    }
  }

  // ---------- The carry structure is a base-16 counter ----------

  lemma {:induction false} TopDigit(levels: seq<seq<Run>>)
    requires levels != [] && levels[|levels| - 1] != []
    ensures Digits(levels) >= Pow16(|levels| - 1)
    decreases |levels|
  {
    if |levels| > 1 {
      TopDigit(levels[1..]);
    }
  }

  lemma {:induction false} FewRuns(levels: seq<seq<Run>>)
    requires forall k :: 0 <= k < |levels| ==> |levels[k]| < FAN_IN
    ensures |Flat(levels)| <= 15 * |levels|
    decreases |levels|
  {
    if levels != [] { FewRuns(levels[1..]); }
  }

  /** After n additions: 16^(levels-1) <= n, so at most 15 * (1 + log16 n) runs are retained. */
  lemma RetainedRuns(levels: seq<seq<Run>>, n: nat)
    requires LevelsOk(levels) && Digits(levels) == n && (levels != [] ==> levels[|levels| - 1] != [])
    ensures |Flat(levels)| <= 15 * |levels|
    ensures levels != [] ==> Pow16(|levels| - 1) <= n
    ensures Chunks(Flat(levels)) == n
  {
    forall k | 0 <= k < |levels| ensures |levels[k]| < FAN_IN { assert LevelOk(levels[k], k); }
    FewRuns(levels);
    if levels != [] { TopDigit(levels); }
    forall k | 0 <= k < |levels| ensures RunsOk(levels[k], Pow16(k) * 1) { assert LevelOk(levels[k], k); }
    ChunksAreDigits(levels, 1);
  }

  /** The retained runs account for every flushed chunk. */
  lemma {:induction false} ChunksAreDigits(levels: seq<seq<Run>>, w: nat)
    requires forall k :: 0 <= k < |levels| ==> RunsOk(levels[k], Pow16(k) * w)
    ensures Chunks(Flat(levels)) == Digits(levels) * w
    decreases |levels|
  {
    if levels != [] {
      EvenChunks(levels[0], w);
      ChunksConcat(levels[0], Flat(levels[1..]));
      forall k | 0 <= k < |levels[1..]| ensures RunsOk(levels[1..][k], Pow16(k) * (16 * w)) {
        Shift(Pow16(k), w);
        assert RunsOk(levels[k + 1], Pow16(k + 1) * w);
      }
      ChunksAreDigits(levels[1..], 16 * w);
      Spread(|levels[0]|, Digits(levels[1..]), w);
    }
  }

  lemma Shift(a: nat, w: nat)
    ensures (16 * a) * w == a * (16 * w)
  {
  }

  lemma Spread(a: nat, b: nat, w: nat)
    ensures (a + 16 * b) * w == a * w + b * (16 * w)
  {
  }

  // ---------- Duplicate IDs by external sorting ----------

  predicate IdLess(a: nat, b: nat) { a < b }

  ghost predicate Distinct(ids: seq<nat>) {
    forall i, j :: 0 <= i < j < |ids| ==> ids[i] != ids[j]
  }

  ghost predicate Single(m: multiset<nat>) {
    forall x :: x in m ==> m[x] == 1
  }

  lemma {:induction false} DistinctMeansSingle(ids: seq<nat>)
    ensures Distinct(ids) <==> Single(multiset(ids))
    decreases |ids|
  {
    if ids != [] {
      var n := |ids| - 1;
      DistinctMeansSingle(ids[..n]);
      assert ids == ids[..n] + [ids[n]];
      var m := multiset(ids[..n]);
      assert multiset(ids) == m + multiset{ids[n]};
      SingleAdd(m, ids[n]);
      assert Distinct(ids) <==> Distinct(ids[..n]) && ids[n] !in ids[..n];
    }
  }

  lemma SingleAdd(m: multiset<nat>, x: nat)
    ensures Single(m + multiset{x}) <==> Single(m) && x !in m
  {
    var n := m + multiset{x};
    assert n[x] == m[x] + 1;
    if Single(n) {
      assert x in n;
      forall y | y in m ensures m[y] == 1 { assert y in n && n[y] == 1; }
    }
  }

  ghost predicate AdjacentEqual(s: seq<nat>) {
    exists i :: 0 < i < |s| && s[i - 1] == s[i]
  }

  /** In a sorted list equal elements are neighbours. */
  lemma SortedDuplicates(s: seq<nat>)
    requires Sorted(IdLess, s)
    ensures AdjacentEqual(s) <==> !Distinct(s)
  {
    if !Distinct(s) {
      var i, j :| 0 <= i < j < |s| && s[i] == s[j];
      assert !IdLess(s[i + 1], s[i]) && (i + 1 < j ==> !IdLess(s[j], s[i + 1]));
      assert s[i + 1 - 1] == s[i + 1];
    }
  }

  /** The scan with `last`. */
  method HasAdjacentEqual(s: seq<nat>) returns (dup: bool)
    ensures dup <==> AdjacentEqual(s)
  {
    var last := None;
    for i := 0 to |s|
      invariant last == if i == 0 then None else Some(s[i - 1])
      invariant forall k :: 0 < k < i ==> s[k - 1] != s[k]
    {
      if last == Some(s[i]) {
        return true;
      }
      last := Some(s[i]);
    }
    dup := false;
  }

  lemma PartDuplicates(part: multiset<nat>, rest: multiset<nat>)
    ensures !Single(part) ==> !Single(part + rest)
  {
    if Single(part + rest) {
      forall x | x in part ensures part[x] == 1 { assert (part + rest)[x] == 1; }
    }
  }

  /** What the chunks of the ID file come to. */
  datatype IdChunks = IdChunks(runs: seq<seq<nat>>) | Repeats | Interrupted

  lemma {:induction false} RepeatedOnTheWay(out: seq<nat>, left: multiset<nat>, all: multiset<nat>)
    requires multiset(out) + left == all && Sorted(IdLess, out) && AdjacentEqual(out)
    ensures !Single(all)
  {
    SortedDuplicates(out);
    DistinctMeansSingle(out);
    PartDuplicates(multiset(out), left);
  }

  lemma AllEmitted(out: seq<nat>, all: multiset<nat>)
    requires multiset(out) == all
    ensures |out| == |all|
  {
  }

  /** The last merge, which stops at the first ID that repeats the one before it. */
  method MergeDistinct(runs: seq<seq<nat>>, poll: nat -> bool, now: nat) returns (ok: Option<bool>, later: nat)
    requires AllSorted(IdLess, runs)
    ensures ok.Some? ==> (ok.value <==> Single(Union(runs)))
    ensures now <= later && (ok.None? <==> Noticed(poll, now, later))
    ensures ok == Some(true) ==> Often(|Union(runs)|, LOOK_EVERY_ID, later - now)
  {
    OftenNone(LOOK_EVERY_ID);
    later := now;
    var h, rest := FillHeap(IdLess, runs);
    var emitted: seq<nat> := [];
    while h != []
      invariant Merging(IdLess, runs, emitted, h, rest) && now <= later && !Noticed(poll, now, later)
      invariant !AdjacentEqual(emitted) && Often(|emitted|, LOOK_EVERY_ID, later - now)
      decreases |Union(runs)| - |emitted|
    {
      var done;
      done, later := LookInTurn(|emitted|, LOOK_EVERY_ID, poll, now, later);
      if done {
        return None, later;
      }
      var next;
      next, h, rest := MergeOne(IdLess, runs, emitted, h, rest);
      LastPair(emitted, next);
      if emitted != [] && next[|next| - 1] == emitted[|emitted| - 1] {
        MergedSoFar(runs, next, h, rest);
        RepeatedOnTheWay(next, Items(h) + Union(rest), Union(runs));
        return Some(false), later;
      }
      emitted := next;
    }
    Exhausted(IdLess, runs, emitted, rest);
    AllEmitted(emitted, Union(runs));
    SortedDuplicates(emitted);
    DistinctMeansSingle(emitted);
    ok := Some(true);
  }

  lemma {:induction false} LastPair(s: seq<nat>, t: seq<nat>)
    requires |t| == |s| + 1 && t[..|s|] == s && !AdjacentEqual(s)
    ensures AdjacentEqual(t) <==> s != [] && t[|s|] == s[|s| - 1]
  {
    forall i | 0 < i < |s| ensures t[i - 1] != t[i] { assert s[i - 1] != s[i]; }
    if s != [] { assert t[|s| - 1] == s[|s| - 1]; }
  }

  lemma {:induction false} MergedSoFar(runs: seq<seq<nat>>, out: seq<nat>, h: seq<Entry<nat>>, rest: seq<seq<nat>>)
    requires Merging(IdLess, runs, out, h, rest)
    ensures multiset(out) + (Items(h) + Union(rest)) == Union(runs) && Sorted(IdLess, out)
  {
  }

  /** Sorts bounded chunks, merges them in bounded passes, and looks for equal neighbours. */
  method ValidateIds(ids: seq<nat>, poll: nat -> bool, now: nat) returns (ok: Option<bool>, later: nat)
    ensures ok.Some? ==> (ok.value <==> Distinct(ids))
    ensures now <= later && (ok.None? <==> Noticed(poll, now, later))
    ensures ok == Some(true) ==> |ids| <= 1024 * (later - now)
  {
    var chunks, t := SortChunks(ids, poll, now);
    DistinctMeansSingle(ids);
    if chunks.Interrupted? {
      return None, t;
    }
    if chunks.Repeats? {
      return Some(false), t;
    }
    var few, u := MergeToFanIn(IdLess, chunks.runs, poll, LOOK_EVERY_ID, t);
    LookOn(poll, now, t, u);
    if few.None? {
      return None, u;
    }
    ok, later := MergeDistinct(few.value, poll, u);
    LookOn(poll, now, u, later);
    AllEmitted(ids, Union(few.value));
    if ok == Some(true) { OftenMeans(|ids|, LOOK_EVERY_ID, later - u); }
  }

  /** A part of a list between two positions. */
  lemma Between(ids: seq<nat>, pos: nat, end: nat)
    requires pos <= end <= |ids|
    ensures multiset(ids[..end]) == multiset(ids[..pos]) + multiset(ids[pos..end])
    ensures multiset(ids) == multiset(ids[..end]) + multiset(ids[end..])
  {
    assert ids[..end] == ids[..pos] + ids[pos..end];
    assert ids == ids[..end] + ids[end..];
  }

  lemma RepeatedInChunk(ids: seq<nat>, pos: nat, end: nat, values: seq<nat>)
    requires pos <= end <= |ids| && multiset(values) == multiset(ids[pos..end])
    requires Sorted(IdLess, values) && AdjacentEqual(values)
    ensures !Single(multiset(ids))
  {
    SortedDuplicates(values);
    DistinctMeansSingle(values);
    var before, after := multiset(ids[..pos]), multiset(ids[end..]);
    PartDuplicates(multiset(values), before + after);
    Between(ids, pos, end);
    assert multiset(ids) == multiset(values) + (before + after);
  }

  lemma OneMoreChunk(ids: seq<nat>, pos: nat, end: nat, made: seq<seq<nat>>, values: seq<nat>)
    requires pos <= end <= |ids| && multiset(values) == multiset(ids[pos..end])
    requires Union(made) == multiset(ids[..pos])
    ensures Union(made + [values]) == multiset(ids[..end])
  {
    Between(ids, pos, end);
    UnionSnoc(made, values);
  }

  /** The first n IDs in chunks, none of them empty or too large, and no more chunks than needed. */
  predicate Chunked(runs: seq<seq<nat>>, n: nat) {
    |runs| == (n + 8191) / 8192 && forall k :: 0 <= k < |runs| ==> 0 < |runs[k]| <= 8192
  }

  lemma NextChunk(runs: seq<seq<nat>>, pos: nat, values: seq<nat>, end: nat, n: nat)
    requires Chunked(runs, pos) && pos % ID_CHUNK == 0 && pos < n && |values| == end - pos
    requires end == if n - pos < ID_CHUNK then n else pos + ID_CHUNK
    ensures Chunked(runs + [values], end) && (end == n || end % ID_CHUNK == 0)
  {
  }

  /** What is known after the first pos IDs. */
  ghost predicate ChunksOf(ids: seq<nat>, pos: nat, made: seq<seq<nat>>) {
    && pos <= |ids| && AllSorted(IdLess, made) && Union(made) == multiset(ids[..pos])
    && Chunked(made, pos) && (pos == |ids| || pos % ID_CHUNK == 0)
  }

  lemma {:induction false} ChunkMade(ids: seq<nat>, pos: nat, made: seq<seq<nat>>, end: nat, values: seq<nat>)
    requires ChunksOf(ids, pos, made) && pos < |ids| && end == (if |ids| - pos < ID_CHUNK then |ids| else pos + ID_CHUNK)
    requires Sorted(IdLess, values) && multiset(values) == multiset(ids[pos..end])
    ensures ChunksOf(ids, end, made + [values])
  {
    OneMoreChunk(ids, pos, end, made, values);
    SameSize(values, ids[pos..end]);
    NextChunk(made, pos, values, end, |ids|);
  }

  /** Sorted chunks of the IDs; or a chunk that holds a duplicate; or the context was found done. It looks
      before every chunk, and before it finds the end of the IDs. */
  method SortChunks(ids: seq<nat>, poll: nat -> bool, now: nat) returns (chunks: IdChunks, later: nat)
    ensures chunks.IdChunks? ==> AllSorted(IdLess, chunks.runs) && Union(chunks.runs) == multiset(ids) && Chunked(chunks.runs, |ids|)
    ensures chunks.Repeats? ==> !Single(multiset(ids))
    ensures now <= later && (chunks.Interrupted? <==> Noticed(poll, now, later))
    ensures chunks.IdChunks? ==> later - now == |chunks.runs| + 1
  {
    var made: seq<seq<nat>> := [];
    var pos := 0;
    var done;
    done, later := Look(poll, now, now);
    if done {
      return Interrupted, later;
    }
    while pos < |ids|
      invariant ChunksOf(ids, pos, made) && now <= later && !Noticed(poll, now, later) && later - now == |made| + 1
    {
      var end := if |ids| - pos < ID_CHUNK then |ids| else pos + ID_CHUNK;
      var values := SortSlice(IdLess, ids[pos..end]);
      var dup := HasAdjacentEqual(values);
      if dup {
        RepeatedInChunk(ids, pos, end, values);
        return Repeats, later;
      }
      ChunkMade(ids, pos, made, end, values);
      made := made + [values];
      pos := end;
      done, later := Look(poll, now, later);
      if done {
        return Interrupted, later;
      }
    }
    assert ids[..pos] == ids;
    chunks := IdChunks(made);
  }

  lemma SameSize<T>(a: seq<T>, b: seq<T>)
    requires multiset(a) == multiset(b)
    ensures |a| == |b|
  {
    assert |a| == |multiset(a)| == |multiset(b)| == |b|;
  }

  // ---------- DiscoverToDisk ----------

  /** What the spooling of a file knows after the first i candidates. */
  ghost predicate Collected(part: seq<Mutation>, i: nat, content: multiset<Mutation>, chunks: nat, candidates: seq<Mutation>) {
    i <= |part| && content + multiset(candidates) == multiset(part[..i]) && |candidates| < CHUNK && 512 * chunks + |candidates| == i
  }

  lemma {:induction false} OneMoreCandidate(part: seq<Mutation>, i: nat, content: multiset<Mutation>, candidates: seq<Mutation>)
    requires i < |part| && content + multiset(candidates) == multiset(part[..i])
    ensures content + multiset(candidates + [part[i]]) == multiset(part[..i + 1])
  {
    assert part[..i + 1] == part[..i] + [part[i]];
    assert multiset(candidates + [part[i]]) == multiset(candidates) + multiset{part[i]};
  }

  /** How many of the n candidates behind the first `before` ones have a number that 256 divides. */
  function Visited(before: nat, n: nat): (k: nat) { (before + n + 255) / 256 - (before + 255) / 256 }

  /** So many looks have been made while they were visited. */
  ghost predicate VisitedOften(before: nat, n: nat, looks: int) { forall k: Seal :: Open(k) ==> Visited(before, n) <= looks }

  lemma VisitedNone(before: nat)
    ensures VisitedOften(before, 0, 0)
  {
  }

  lemma VisitedMore(before: nat, n: nat, looks: int, more: int)
    requires VisitedOften(before, n, looks) && looks <= more
    ensures VisitedOften(before, n, more)
  {
    assert Open(Seal);
  }

  /** Looks before the candidate when it is its turn. */
  method LookAtCandidate(before: nat, n: nat, poll: nat -> bool, ghost from: nat, now: nat) returns (done: bool, later: nat)
    requires from <= now && !Noticed(poll, from, now) && VisitedOften(before, n, now - from)
    ensures now <= later && (done <==> Noticed(poll, from, later)) && (!done ==> VisitedOften(before, n + 1, later - from))
  {
    done, later := false, now;
    if (before + n) % LOOK_EVERY == 0 {
      done, later := Look(poll, from, now);
    }
    VisitedNext(before, n, now - from, later - from);
  }

  lemma VisitedNext(before: nat, n: nat, looks: int, more: int)
    requires VisitedOften(before, n, looks) && more == looks + if (before + n) % 256 == 0 then 1 else 0
    ensures VisitedOften(before, n + 1, more)
  {
    assert Open(Seal);
  }

  /** Sorts the candidates and adds them as a chunk. */
  method Flush(runs: DiscoveryRuns, candidates: seq<Mutation>, poll: nat -> bool, now: nat) returns (ok: bool, later: nat)
    requires runs.Valid()
    modifies runs
    ensures ok ==> runs.Valid() && Content(runs.levels) == old(Content(runs.levels)) + multiset(candidates)
    ensures ok ==> runs.added == old(runs.added) + if candidates == [] then 0 else 1
    ensures now <= later && (ok <==> !Noticed(poll, now, later))
  {
    if candidates == [] { return true, now; }
    MutationOrder();
    var chunk := SortSlice(MutationLess, candidates);
    ok, later := runs.Add(chunk, poll, now);
  }

  /** What the visit of one more candidate does: it is looked when it is its turn, and a full chunk is flushed. */
  method VisitCandidate(part: seq<Mutation>, i: nat, before: nat, runs: DiscoveryRuns, candidates: seq<Mutation>, poll: nat -> bool, ghost from: nat, now: nat)
    returns (ok: bool, rest: seq<Mutation>, later: nat)
    requires i < |part| && runs.Valid() && Collected(part, i, Content(runs.levels), runs.added, candidates)
    requires from <= now && !Noticed(poll, from, now) && VisitedOften(before, i, now - from)
    modifies runs
    ensures ok ==> runs.Valid() && Collected(part, i + 1, Content(runs.levels), runs.added, rest)
    ensures now <= later && (ok <==> !Noticed(poll, from, later)) && (ok ==> VisitedOften(before, i + 1, later - from))
  {
    var done;
    done, later := LookAtCandidate(before, i, poll, from, now);
    if done {
      return false, [], later;
    }
    OneMoreCandidate(part, i, Content(runs.levels), candidates);
    rest := candidates + [part[i]];
    if |rest| < CHUNK {
      return true, rest, later;
    }
    var t;
    ok, t := Flush(runs, rest, poll, later);
    LookOn(poll, from, later, t);
    VisitedMore(before, i + 1, later - from, t - from);
    rest, later := [], t;
  }

  /** Collects the candidates of a file in chunks of CHUNK, so that as many chunks are flushed as it takes.
      `before` candidates were found in earlier files. */
  method Collect(part: seq<Mutation>, before: nat, runs: DiscoveryRuns, poll: nat -> bool, now: nat) returns (ok: bool, later: nat)
    requires runs.Valid() && Content(runs.levels) == multiset{} && runs.added == 0
    modifies runs
    ensures ok ==> runs.Valid() && Content(runs.levels) == multiset(part)
    ensures ok ==> 512 * runs.added < |part| + 512 && |part| <= 512 * runs.added
    ensures ok ==> VisitedOften(before, |part|, later - now)
    ensures now <= later && (ok <==> !Noticed(poll, now, later))
  {
    ok, later := true, now;
    VisitedNone(before);
    var candidates: seq<Mutation> := [];
    for i := 0 to |part|
      invariant ok && runs.Valid() && Collected(part, i, Content(runs.levels), runs.added, candidates)
      invariant now <= later && !Noticed(poll, now, later) && VisitedOften(before, i, later - now)
    {
      ok, candidates, later := VisitCandidate(part, i, before, runs, candidates, poll, now, later);
      if !ok {
        return;
      }
    }
    assert part[..|part|] == part;
    var t;
    ok, t := Flush(runs, candidates, poll, later);
    LookOn(poll, now, later, t);
    VisitedMore(before, |part|, later - now, t - now);
    later := t;
  }

  /** One file: chunks of at most CHUNK candidates, carried, merged in passes, and merged for output. */
  method SpoolFile(part: seq<Mutation>, before: nat, poll: nat -> bool, now: nat) returns (out: Option<seq<Mutation>>, later: nat)
    ensures out.Some? ==> Sorted(MutationLess, out.value) && multiset(out.value) == multiset(part)
    ensures now <= later && (out.None? <==> Noticed(poll, now, later))
    ensures out.Some? ==> SpooledOften(before, |part|, later - now)
  {
    MutationOrder();
    var runs := new DiscoveryRuns();
    var ok, t := Collect(part, before, runs, poll, now);
    if !ok {
      return None, t;
    }
    var chunks := runs.TakeAll();
    var few, u := MergeToFanIn(MutationLess, chunks, poll, LOOK_EVERY, t);
    LookOn(poll, now, t, u);
    if few.None? {
      return None, u;
    }
    out, later := MergeRuns(MutationLess, few.value, poll, LOOK_EVERY, u);
    LookOn(poll, now, u, later);
    if out.Some? {
      EmittedOften(out.value, part, before, t - now, u - t, later - u);
    }
  }

  /** One look for every 256 of the candidates visited, and another for every 256 emitted. */
  ghost predicate SpooledOften(before: nat, n: nat, looks: int) {
    forall k: Seal :: Open(k) ==> n <= 256 * (looks - Visited(before, n))
  }

  lemma EmittedOften(out: seq<Mutation>, part: seq<Mutation>, before: nat, visiting: int, passing: nat, emitting: nat)
    requires multiset(out) == multiset(part) && Often(|out|, LOOK_EVERY, emitting) && VisitedOften(before, |part|, visiting)
    ensures SpooledOften(before, |part|, visiting + passing + emitting)
  {
    OftenMeans(|out|, LOOK_EVERY, emitting);
    assert Open(Seal) && |out| == |multiset(out)| == |multiset(part)| == |part|;
  }

  function IdList(ms: seq<Mutation>): Option<seq<nat>> {
    if ms == [] then Some([])
    else match (IdList(ms[..|ms| - 1]), ParseID(ms[|ms| - 1].id))
      case (Some(a), Some(k)) => Some(a + [k])
      case _ => None
  }

  lemma {:induction false} IdListDistinct(ms: seq<Mutation>)
    ensures IdList(ms).Some? <==> forall i :: 0 <= i < |ms| ==> ParseID(ms[i].id).Some?
    ensures IdList(ms).Some? ==>
              |IdList(ms).value| == |ms| && forall i :: 0 <= i < |ms| ==> ParseID(ms[i].id) == Some(IdList(ms).value[i])
    decreases |ms|
  {
    if ms != [] { IdListDistinct(ms[..|ms| - 1]); }
  }

  lemma {:induction false} IdListConcat(a: seq<Mutation>, b: seq<Mutation>)
    ensures IdList(a + b) == (if IdList(a).Some? && IdList(b).Some? then Some(IdList(a).value + IdList(b).value) else None)
    decreases |b|
  {
    if b == [] {
      assert a + b == a;
      if IdList(a).Some? { assert IdList(a).value + [] == IdList(a).value; }
    } else {
      var n := |b| - 1;
      assert (a + b)[..|a + b| - 1] == a + b[..n];
      IdListConcat(a, b[..n]);
      if IdList(a).Some? && IdList(b).Some? {
        var x, y, z := IdList(a).value, IdList(b[..n]).value, [ParseID(b[n].id).value];
        assert (x + y) + z == x + (y + z);
      }
    }
  }

  /** The IDs a file adds to the ID file, in visit order; None on a malformed one. */
  method ReadIds(part: seq<Mutation>) returns (ids: Option<seq<nat>>)
    ensures ids == IdList(part)
  {
    var made: seq<nat> := [];
    for i := 0 to |part|
      invariant IdList(part[..i]) == Some(made)
    {
      assert part[..i + 1][..i] == part[..i];
      var id := ParseID(part[i].id);
      if id.None? {
        IdListDistinct(part);
        return None;
      }
      made := made + [id.value];
    }
    assert part[..|part|] == part;
    ids := Some(made);
  }

  /** Each output file is a sorted permutation of what its visit found. */
  ghost predicate SpooledOk(outs: seq<seq<Mutation>>, parts: seq<seq<Mutation>>) {
    |outs| == |parts| && forall i :: 0 <= i < |parts| ==>
      Sorted(MutationLess, outs[i]) && multiset(outs[i]) == multiset(parts[i])
  }

  lemma OneMoreSpooled(outs: seq<seq<Mutation>>, parts: seq<seq<Mutation>>, out: seq<Mutation>, part: seq<Mutation>)
    requires SpooledOk(outs, parts) && Sorted(MutationLess, out) && multiset(out) == multiset(part)
    ensures SpooledOk(outs + [out], parts + [part]) && Concat(outs + [out]) == Concat(outs) + out
  {
    assert (outs + [out])[..|outs|] == outs;
  }

  lemma {:induction false} SpooledIsRanked(outs: seq<seq<Mutation>>, parts: seq<seq<Mutation>>)
    requires SpooledOk(outs, parts) && IdsOk(multiset(Concat(parts)))
    ensures Concat(outs) == Ranked(parts)
    decreases |parts|
  {
    if parts != [] {
      var n := |parts| - 1;
      IdsBadStays(multiset(Concat(parts[..n])), multiset(parts[n]));
      SubsetIds(multiset(Concat(parts[..n])), multiset(parts[n]));
      SpooledIsRanked(outs[..n], parts[..n]);
      IdsOkNoTies(multiset(parts[n]));
      MutationOrder();
      SortIsSorted(MutationLess, parts[n]);
      UniqueOrder(MutationLess, outs[n], InsertionSort(MutationLess, parts[n]));
    }
  }

  /** After i files there was a look for each of them, and one for every 256 mutations found, and another for
      every 256 emitted. */
  ghost predicate LookedOften(count: nat, i: nat, looks: int) {
    forall k: Seal :: Open(k) ==> count <= 256 * (looks - i - (count + 255) / 256)
  }

  lemma LookedOn(count: nat, i: nat, looks: int, n: nat, more: int)
    requires LookedOften(count, i, looks) && SpooledOften(count, n, more)
    ensures LookedOften(count + n, i + 1, looks + 1 + more)
  {
    assert Open(Seal);
  }

  lemma LookedEnough(count: nat, i: nat, looks: int, all: int)
    requires LookedOften(count, i, looks) && looks <= all
    ensures count <= 256 * (all - i - (count + 255) / 256)
  {
    assert Open(Seal);
  }

  lemma LookedNever()
    ensures LookedOften(0, 0, 0)
  {
  }

  /** The spool and the ID file after some files. */
  ghost predicate DiskSoFar(visits: seq<Visit>, incl: bool, parts: seq<seq<Mutation>>, outs: seq<seq<Mutation>>,
                            out: seq<Mutation>, ids: seq<nat>, count: nat) {
    forall k: Seal :: Open(k) ==>
      && Yields(visits, incl) == Some(parts) && SpooledOk(outs, parts) && out == Concat(outs)
      && IdList(Concat(parts)) == Some(ids) && count == |Concat(parts)|
  }

  lemma NothingSpooled(incl: bool)
    ensures DiskSoFar([], incl, [], [], [], [], 0)
  {
  }

  lemma {:induction false} DistinctIsIdsOk(ms: seq<Mutation>)
    ensures IdsOk(multiset(ms)) <==> IdList(ms).Some? && Distinct(IdList(ms).value)
  {
    IdsOkMeansDistinct(ms);
    IdListDistinct(ms);
  }

  lemma {:induction false} FileSpooled(visits: seq<Visit>, i: nat, incl: bool, parts: seq<seq<Mutation>>, outs: seq<seq<Mutation>>,
                                      out: seq<Mutation>, ids: seq<nat>, count: nat, spooled: seq<Mutation>, more: seq<nat>)
    requires i < |visits| && DiskSoFar(visits[..i], incl, parts, outs, out, ids, count)
    requires Yield(visits[i], incl).Some?
    requires IdList(Yield(visits[i], incl).value) == Some(more)
    requires Sorted(MutationLess, spooled) && multiset(spooled) == multiset(Yield(visits[i], incl).value)
    ensures var part := Yield(visits[i], incl).value;
            DiskSoFar(visits[..i + 1], incl, parts + [part], outs + [spooled], out + spooled, ids + more, count + |spooled|)
  {
    assert Open(Seal);
    YieldsGrow(visits, i, incl, parts);
    IdListConcat(Concat(parts), Yield(visits[i], incl).value);
    SameSize(spooled, Yield(visits[i], incl).value);
    OneMoreSpooled(outs, parts, spooled, Yield(visits[i], incl).value);
  }

  lemma {:induction false} BadFile(visits: seq<Visit>, i: nat, incl: bool, parts: seq<seq<Mutation>>, outs: seq<seq<Mutation>>,
                                  out: seq<Mutation>, ids: seq<nat>, count: nat)
    requires i < |visits| && DiskSoFar(visits[..i], incl, parts, outs, out, ids, count)
    requires Yield(visits[i], incl).None? || IdList(Yield(visits[i], incl).value).None?
    ensures !Discoverable(visits, incl)
  {
    assert Open(Seal);
    YieldsGrow(visits, i, incl, parts);
    if Yield(visits[i], incl).Some? {
      var part := Yield(visits[i], incl).value;
      IdListConcat(Concat(parts), part);
      DistinctIsIdsOk(Concat(parts + [part]));
    }
    DuplicateStays(visits, incl, i + 1);
  }

  /** One file: a look, its candidates sorted, and their IDs; None when it fails or a look found the context done. */
  method SpoolNext(visit: Visit, i: nat, incl: bool, count: nat, poll: nat -> bool, now: nat)
    returns (r: Option<(seq<Mutation>, seq<nat>)>, looks: nat)
    requires !Noticed(poll, 0, now) && LookedOften(count, i, now)
    ensures r.Some? ==> Yield(visit, incl).Some? && IdList(Yield(visit, incl).value) == Some(r.value.1)
    ensures r.Some? ==> Sorted(MutationLess, r.value.0) && multiset(r.value.0) == multiset(Yield(visit, incl).value)
    ensures r.Some? ==> LookedOften(count + |r.value.0|, i + 1, looks) && !Noticed(poll, 0, looks)
    ensures r.None? ==> Noticed(poll, 0, looks) || Yield(visit, incl).None? || IdList(Yield(visit, incl).value).None?
  {
    var done;
    done, looks := Look(poll, 0, now);
    if done {
      return None, looks;
    }
    var part := Yield(visit, incl);
    if part.None? {
      return None, looks;
    }
    var ids := ReadIds(part.value);
    if ids.None? {
      return None, looks;
    }
    var out, t := SpoolFile(part.value, count, poll, looks);
    LookOn(poll, 0, looks, t);
    if out.None? {
      return None, t;
    }
    SameSize(out.value, part.value);
    LookedOn(count, i, now, |out.value|, t - looks);
    r, looks := Some((out.value, ids.value)), t;
  }

  /** Visits every file and spools its candidates in order, and their IDs. */
  method SpoolFiles(visits: seq<Visit>, incl: bool, poll: nat -> bool)
    returns (r: Option<(seq<Mutation>, seq<nat>, nat)>, ghost parts: seq<seq<Mutation>>, ghost outs: seq<seq<Mutation>>, looks: nat)
    ensures r.Some? ==> DiskSoFar(visits, incl, parts, outs, r.value.0, r.value.1, r.value.2) && !Noticed(poll, 0, looks)
    ensures r.Some? ==> LookedOften(r.value.2, |visits|, looks)
    ensures r.None? ==> Noticed(poll, 0, looks) || !Discoverable(visits, incl)
  {
    LookedNever();
    NothingSpooled(incl);
    var out: seq<Mutation>, ids: seq<nat>, count: nat := [], [], 0;
    parts, outs := [], [];
    looks := 0;
    assert visits[..0] == [];
    for i := 0 to |visits|
      invariant DiskSoFar(visits[..i], incl, parts, outs, out, ids, count) && !Noticed(poll, 0, looks)
      invariant LookedOften(count, i, looks)
    {
      var next;
      next, looks := SpoolNext(visits[i], i, incl, count, poll, looks);
      if next.None? {
        if !Noticed(poll, 0, looks) { BadFile(visits, i, incl, parts, outs, out, ids, count); }
        return None, parts, outs, looks;
      }
      var (file, more) := next.value;
      FileSpooled(visits, i, incl, parts, outs, out, ids, count, file, more);
      parts, outs := parts + [Yield(visits[i], incl).value], outs + [file];
      out, ids, count := out + file, ids + more, count + |file|;
    }
    assert visits[..|visits|] == visits;
    r := Some((out, ids, count));
  }

  /** The spooled files and valid IDs are the answer. */
  lemma {:induction false} SpooledAnswers(visits: seq<Visit>, incl: bool, parts: seq<seq<Mutation>>, outs: seq<seq<Mutation>>,
                                         out: seq<Mutation>, ids: seq<nat>, count: nat)
    requires DiskSoFar(visits, incl, parts, outs, out, ids, count)
    ensures Discoverable(visits, incl) <==> Distinct(ids)
    ensures Distinct(ids) ==> out == Ranked(Yields(visits, incl).value) && count == |out| && Answers(visits, incl, 0, out, count)
  {
    assert Open(Seal);
    DistinctIsIdsOk(Concat(parts));
    if Distinct(ids) {
      SpooledIsRanked(outs, parts);
      KeptAnswers(visits, incl, 0);
    }
  }

  /** Visits every file, spools its candidates in order, and validates the IDs at the end. It succeeds exactly
      when the files are discoverable and no look at the context, wherever in the call it was made, found it
      done; and it looks before every file, and for every 256 mutations found and again emitted. */
  method DiscoverToDisk(visits: seq<Visit>, incl: bool, poll: nat -> bool) returns (r: Option<(seq<Mutation>, nat)>, looks: nat)
    ensures r.Some? <==> Discoverable(visits, incl) && !Noticed(poll, 0, looks)
    ensures r.Some? ==> r.value.0 == Ranked(Yields(visits, incl).value) && r.value.1 == |r.value.0|
    ensures r.Some? ==> Answers(visits, incl, 0, r.value.0, r.value.1)
    ensures r.Some? ==> r.value.1 <= 256 * (looks - |visits| - (r.value.1 + 255) / 256)
  {
    var spooled;
    ghost var parts, outs;
    spooled, parts, outs, looks := SpoolFiles(visits, incl, poll);
    if spooled.None? {
      return None, looks;
    }
    var valid, t := ValidateIds(spooled.value.1, poll, looks);
    LookOn(poll, 0, looks, t);
    SpooledAnswers(visits, incl, parts, outs, spooled.value.0, spooled.value.1, spooled.value.2);
    if valid != Some(true) {
      return None, t;
    }
    LookedEnough(spooled.value.2, |visits|, looks, t);
    r, looks := Some((spooled.value.0, spooled.value.2)), t;
  }

  /** The two discoveries give the same mutations in the same order, unless the one to disk, and only it, is
      cancelled. */
  method DiscoverBothWays(visits: seq<Visit>, incl: bool, poll: nat -> bool)
    returns (memory: Option<(seq<Mutation>, nat)>, disk: Option<(seq<Mutation>, nat)>, looks: nat)
    ensures disk == if Noticed(poll, 0, looks) then None else memory
  {
    memory := DiscoverLimited(visits, incl, 0);
    disk, looks := DiscoverToDisk(visits, incl, poll);
  }
}
