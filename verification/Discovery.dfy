/** In-memory discovery: the order of mutations, ID checking, and the bounded selection. */
module Discovery {
  import opened Base
  import opened Heap
  import opened Lex
  import opened Merge
  import opened Sorting

  datatype Mutation = Mutation(startByte: int, id: string, detail: string)

  predicate MutationLess(a: Mutation, b: Mutation) {
    if a.startByte != b.startByte then a.startByte < b.startByte else LexLess(a.id, b.id)
  }

  /** a begins before b; at the same offset its ID has the smaller character where the two first differ, or
      ends there. */
  ghost predicate Earlier(a: Mutation, b: Mutation) {
    a.startByte < b.startByte || (a.startByte == b.startByte && exists k: nat :: DiffersAt(a.id, b.id, k))
  }

  lemma {:induction false} LessIsEarlier(a: Mutation, b: Mutation)
    ensures MutationLess(a, b) <==> Earlier(a, b)
  {
    LexMeans(a.id, b.id);
  }

  /** Offset/ID order, the smaller offset and the smaller ID first, is a strict weak order, and two mutations
      tie only on equal offset and ID. */
  lemma {:induction false} MutationOrder()
    ensures Order(MutationLess)
    ensures forall a, b :: MutationLess(a, b) <==> Earlier(a, b)
    ensures forall a, b :: !MutationLess(a, b) && !MutationLess(b, a) ==> a.startByte == b.startByte && a.id == b.id
  {
    forall a, b ensures MutationLess(a, b) <==> Earlier(a, b) { LessIsEarlier(a, b); }
    LexOrder();
    forall a, b | !MutationLess(a, b) && !MutationLess(b, a) ensures a.startByte == b.startByte && a.id == b.id {
      LexTotal(a.id, b.id);
    }
  }

  // ---------- IDs ----------

  function HexDigit(c: char): Option<nat> {
    if '0' <= c <= '9' then Some((c - '0') as nat)
    else if 'a' <= c <= 'f' then Some((c - 'a') as nat + 10)
    else if 'A' <= c <= 'F' then Some((c - 'A') as nat + 10)
    else None
  }

  function ParseHex(s: string): Option<nat> {
    if s == [] then Some(0)
    else match (ParseHex(s[..|s| - 1]), HexDigit(s[|s| - 1]))
      case (Some(v), Some(d)) => Some(16 * v + d)
      case _ => None
  }

  /** "M-" and twelve hexadecimal digits. */
  function ParseID(id: string): Option<nat> {
    if |id| != 14 || id[..2] != "M-" then None else ParseHex(id[2..])
  }

  predicate IsHex(c: char) { '0' <= c <= '9' || 'a' <= c <= 'f' || 'A' <= c <= 'F' }

  /** The same hexadecimal digit, in either case. */
  predicate SameDigit(c: char, d: char) {
    c == d || ('a' <= c <= 'f' && c as int == d as int + 32) || ('a' <= d <= 'f' && d as int == c as int + 32)
  }

  lemma {:induction false} HexExactly(s: string)
    ensures ParseHex(s).Some? <==> forall k :: 0 <= k < |s| ==> IsHex(s[k])
    decreases |s|
  {
    if s != [] {
      var n := |s| - 1;
      HexExactly(s[..n]);
      assert forall k :: 0 <= k < n ==> s[..n][k] == s[k];
    }
  }

  lemma {:induction false} HexInjective(s: string, t: string)
    requires |s| == |t| && ParseHex(s).Some? && ParseHex(t).Some?
    ensures ParseHex(s) == ParseHex(t) <==> forall k :: 0 <= k < |s| ==> SameDigit(s[k], t[k])
    decreases |s|
  {
    if s != [] {
      var n := |s| - 1;
      HexInjective(s[..n], t[..n]);
      assert forall k :: 0 <= k < n ==> s[..n][k] == s[k] && t[..n][k] == t[k];
    }
  }

  /** An ID is "M-" and twelve hexadecimal digits, and two IDs are the same number exactly when they differ at
      most in the case of their digits. */
  lemma {:induction false} IdExactly(id: string, other: string)
    ensures ParseID(id).Some? <==> |id| == 14 && id[0] == 'M' && id[1] == '-' && forall k :: 2 <= k < 14 ==> IsHex(id[k])
    ensures ParseID(id).Some? && ParseID(other).Some? ==>
      (ParseID(id) == ParseID(other) <==> forall k :: 2 <= k < 14 ==> SameDigit(id[k], other[k]))
  {
    if |id| == 14 {
      HexExactly(id[2..]);
      assert id[..2] == [id[0], id[1]];
      assert forall k :: 2 <= k < 14 ==> id[2..][k - 2] == id[k];
      if ParseID(id).Some? && ParseID(other).Some? {
        HexInjective(id[2..], other[2..]);
        assert forall k :: 2 <= k < 14 ==> other[2..][k - 2] == other[k];
      }
    }
  }

  /** Every ID is well-formed, and no two occurrences share one. */
  ghost predicate IdsOk(m: multiset<Mutation>) {
    && (forall x :: x in m ==> m[x] == 1 && ParseID(x.id).Some?)
    && (forall x, y :: x in m && y in m && ParseID(x.id) == ParseID(y.id) ==> x == y)
  }

  ghost predicate DistinctIds(s: seq<Mutation>) {
    && (forall i :: 0 <= i < |s| ==> ParseID(s[i].id).Some?)
    && (forall i, j :: 0 <= i < j < |s| ==> ParseID(s[i].id) != ParseID(s[j].id))
  }

  /** The same, position by position. */
  lemma {:induction false} IdsOkMeansDistinct(s: seq<Mutation>)
    ensures IdsOk(multiset(s)) <==> DistinctIds(s)
    decreases |s|
  {
    if s != [] {
      var n := |s| - 1;
      IdsOkMeansDistinct(s[..n]);
      assert s == s[..n] + [s[n]];
      IdsOkAdd(multiset(s[..n]), s[n]);
      DistinctAdd(s);
    }
  }

  lemma DistinctAdd(s: seq<Mutation>)
    requires s != []
    ensures DistinctIds(s) <==>
            var n := |s| - 1;
            DistinctIds(s[..n]) && ParseID(s[n].id).Some? && ParseID(s[n].id) !in Keys(multiset(s[..n]))
  {
    var n := |s| - 1;
    var k := ParseID(s[n].id);
    if k !in Keys(multiset(s[..n])) {
      forall i | 0 <= i < n ensures ParseID(s[i].id) != k {
        assert s[..n][i] in multiset(s[..n]);
      }
    } else {
      var x :| x in multiset(s[..n]) && ParseID(x.id) == k;
      var i :| 0 <= i < n && s[..n][i] == x;
    }
  }

  lemma {:induction false} IdsOkNoTies(m: multiset<Mutation>)
    requires IdsOk(m)
    ensures NoTies(MutationLess, m)
  {
    MutationOrder();
  }

  ghost function Keys(m: multiset<Mutation>): set<Option<nat>> {
    set x | x in m :: ParseID(x.id)
  }

  lemma IdsOkAdd(m: multiset<Mutation>, x: Mutation)
    ensures IdsOk(m + multiset{x}) <==> IdsOk(m) && ParseID(x.id).Some? && ParseID(x.id) !in Keys(m)
    ensures Keys(m + multiset{x}) == Keys(m) + {ParseID(x.id)}
  {
    var n := m + multiset{x};
    forall y | y in m ensures y in n {}
    if IdsOk(n) {
      assert x in n;
      forall y | y in m ensures ParseID(y.id) != ParseID(x.id) {
        assert n[x] == m[x] + 1;
      }
      assert IdsOk(m) by {
        forall y | y in m ensures m[y] == 1 { assert n[y] == 1; }
      }
    }
    if IdsOk(m) && ParseID(x.id).Some? && ParseID(x.id) !in Keys(m) {
      assert x !in m;
    }
  }

  /** Checks IDs against those already seen. */
  method CheckIds(ms: seq<Mutation>, ghost before: multiset<Mutation>, seen0: set<Option<nat>>)
    returns (ok: bool, seen: set<Option<nat>>)
    requires IdsOk(before) && seen0 == Keys(before)
    ensures ok <==> IdsOk(before + multiset(ms))
    ensures ok ==> seen == Keys(before + multiset(ms))
  {
    seen := seen0;
    for i := 0 to |ms|
      invariant IdsOk(before + multiset(ms[..i])) && seen == Keys(before + multiset(ms[..i]))
    {
      CheckNext(ms, before, i);
      var id := ParseID(ms[i].id);
      if id.None? || id in seen {
        return false, seen;
      }
      seen := seen + {id};
    }
    assert ms[..|ms|] == ms;
    ok := true;
  }

  lemma {:induction false} CheckNext(ms: seq<Mutation>, before: multiset<Mutation>, i: nat)
    requires i < |ms|
    ensures var m, n := before + multiset(ms[..i]), before + multiset(ms[..i + 1]);
            (IdsOk(n) <==> IdsOk(m) && ParseID(ms[i].id).Some? && ParseID(ms[i].id) !in Keys(m))
            && Keys(n) == Keys(m) + {ParseID(ms[i].id)}
            && (!IdsOk(n) ==> !IdsOk(before + multiset(ms)))
  {
    var m, n := before + multiset(ms[..i]), before + multiset(ms[..i + 1]);
    assert ms[..i + 1] == ms[..i] + [ms[i]];
    assert n == m + multiset{ms[i]};
    IdsOkAdd(m, ms[i]);
    assert ms == ms[..i + 1] + ms[i + 1..];
    assert before + multiset(ms) == n + multiset(ms[i + 1..]);
    IdsBadStays(n, multiset(ms[i + 1..]));
  }

  lemma IdsBadStays(m: multiset<Mutation>, more: multiset<Mutation>)
    ensures !IdsOk(m) ==> !IdsOk(m + more)
  {
    if IdsOk(m + more) {
      forall x | x in m ensures m[x] == 1 && x in m + more { assert (m + more)[x] == 1; }
    }
  }

  // ---------- The bounded selection ----------

  predicate Later(a: Mutation, b: Mutation) { MutationLess(b, a) }

  lemma {:induction false} LaterOrder()
    ensures Order(Later)
  {
    MutationOrder();
  }

  /** Nothing in `high` comes before anything in `low`. */
  ghost predicate Splits(low: multiset<Mutation>, high: multiset<Mutation>) {
    forall x, y :: x in low && y in high ==> !MutationLess(y, x)
  }

  /** Keeps the first `limit` of the mutations offered so far, with the latest of them at the root. */
  class BoundedSelection {
    const limit: int
    var items: seq<Mutation>
    ghost var others: seq<Mutation>   // offered, and not kept

    ghost predicate Valid()
      reads this
    {
      && Heaped(Later, items)
      && |items| <= (if limit <= 0 then 0 else limit)
      && (others != [] ==> |items| == if limit <= 0 then 0 else limit)
      && Splits(multiset(items), multiset(others))
    }

    ghost function Offered(): multiset<Mutation>
      reads this
    {
      multiset(items) + multiset(others)
    }

    constructor (limit: int)
      ensures Valid() && Offered() == multiset{} && this.limit == limit
    {
      this.limit := limit;
      items, others := [], [];
    }

    method Offer(m: Mutation)
      requires Valid()
      modifies this
      ensures Valid() && Offered() == old(Offered()) + multiset{m}
    {
      LaterOrder();
      MutationOrder();
      if limit <= 0 {
        others := others + [m];
      } else if |items| < limit {
        items := Push(Later, items, m);
      } else if MutationLess(m, items[0]) {
        ReplaceLatest(m);
      } else {
        RootIsLatest(items);
        KeepSplits(multiset(items), multiset(others), items[0], m);
        others := others + [m];
      }
    }

    method ReplaceLatest(m: Mutation)
      requires Valid() && |items| == limit > 0 && MutationLess(m, items[0])
      modifies this
      ensures Valid() && Offered() == old(Offered()) + multiset{m}
    {
      LaterOrder();
      ghost var low := multiset(items);
      var root := items[0];
      RootIsLatest(items);
      ReplaceSplits(low, multiset(others), root, m);
      items := ReplaceRoot(Later, items, m);
      SwapOne(multiset(items), low, root, m);
      others := others + [root];
    }

    /** The kept mutations in order: the first ones of everything offered. */
    method SortedItems() returns (r: seq<Mutation>)
      requires Valid()
      ensures Sorted(MutationLess, r) && multiset(r) == multiset(items) && |r| == |items|
    {
      MutationOrder();
      r := SortSlice(MutationLess, items);
    }
  }

  lemma SwapOne(a: multiset<Mutation>, low: multiset<Mutation>, root: Mutation, m: Mutation)
    requires a + multiset{root} == low + multiset{m} && root in low
    ensures a == low - multiset{root} + multiset{m}
  {
    assert a == a + multiset{root} - multiset{root};
  }

  lemma RootIsLatest(h: seq<Mutation>)
    requires Heaped(Later, h) && h != []
    ensures forall x :: x in multiset(h) ==> !MutationLess(h[0], x)
  {
    LaterOrder();
    forall x | x in multiset(h) ensures !MutationLess(h[0], x) {
      var k :| 0 <= k < |h| && h[k] == x;
      RootFirst(Later, h, k);
    }
  }

  /** The root makes way for an earlier mutation. */
  lemma {:induction false} ReplaceSplits(low: multiset<Mutation>, high: multiset<Mutation>, root: Mutation, m: Mutation)
    requires Splits(low, high) && root in low && MutationLess(m, root)
    requires forall x :: x in low ==> !MutationLess(root, x)
    ensures Splits(low - multiset{root} + multiset{m}, high + multiset{root})
  {
    MutationOrder();
  }

  /** A mutation that is not before the root is not before anything kept. */
  lemma {:induction false} KeepSplits(low: multiset<Mutation>, high: multiset<Mutation>, root: Mutation, m: Mutation)
    requires Splits(low, high) && root in low && !MutationLess(m, root)
    requires forall x :: x in low ==> !MutationLess(root, x)
    ensures Splits(low, high + multiset{m})
  {
    MutationOrder();
  }

  /** A sorted selection is a prefix of the sorted whole. */
  lemma {:induction false} SelectionIsPrefix(r: seq<Mutation>, others: seq<Mutation>, all: seq<Mutation>)
    requires Sorted(MutationLess, r) && Splits(multiset(r), multiset(others))
    requires multiset(r) + multiset(others) == multiset(all) && NoTies(MutationLess, multiset(all))
    ensures |r| + |others| == |all| && r == InsertionSort(MutationLess, all)[..|r|]
  {
    MutationOrder();
    var tail := InsertionSort(MutationLess, others);
    SortIsSorted(MutationLess, others);
    SortIsSorted(MutationLess, all);
    var whole := r + tail;
    forall i, j | 0 <= i < j < |whole| ensures !MutationLess(whole[j], whole[i]) {
      if i < |r| <= j {
        assert r[i] in multiset(r) && tail[j - |r|] in multiset(tail);
      }
    }
    UniqueOrder(MutationLess, whole, InsertionSort(MutationLess, all));
    assert |multiset(whole)| == |multiset(all)|;
  }

  // ---------- DiscoverLimited ----------

  /** What visiting one file gives: an unreadable file, or its text's outcome (None: it does not parse). */
  datatype Visit = Unreadable | Source(generated: bool, found: Option<seq<Mutation>>)

  function Yield(v: Visit, includeGenerated: bool): Option<seq<Mutation>> {
    match v
    case Unreadable => None
    case Source(g, f) => if g && !includeGenerated then Some([]) else f
  }

  /** The mutations of each file, or None if some file fails. */
  function Yields(visits: seq<Visit>, incl: bool): Option<seq<seq<Mutation>>> {
    if visits == [] then Some([])
    else match (Yields(visits[..|visits| - 1], incl), Yield(visits[|visits| - 1], incl))
      case (Some(a), Some(b)) => Some(a + [b])
      case _ => None
  }

  function Concat<T>(parts: seq<seq<T>>): seq<T> {
    if parts == [] then [] else Concat(parts[..|parts| - 1]) + parts[|parts| - 1]
  }

  /** The reference result: each file's mutations in order, file after file. */
  function Ranked(parts: seq<seq<Mutation>>): (r: seq<Mutation>)
    ensures multiset(r) == multiset(Concat(parts)) && |r| == |Concat(parts)|
  {
    if parts == [] then [] else Ranked(parts[..|parts| - 1]) + InsertionSort(MutationLess, parts[|parts| - 1])
  }

  /** The size of the first i parts. */
  function Before<T>(parts: seq<seq<T>>, i: nat): nat
    requires i <= |parts|
  {
    if i == 0 then 0 else Before(parts, i - 1) + |parts[i - 1]|
  }

  lemma {:induction false} BeforeFront<T>(parts: seq<seq<T>>, i: nat)
    requires i < |parts|
    ensures Before(parts[..|parts| - 1], i) == Before(parts, i)
    decreases i
  {
    if i > 0 { BeforeFront(parts, i - 1); }
  }

  /** In the concatenation element j of part i stands behind the parts before it. */
  lemma {:induction false} ConcatAt<T>(parts: seq<seq<T>>, i: nat, j: nat)
    requires i < |parts| && j < |parts[i]|
    ensures Before(parts, i) + j < |Concat(parts)| == Before(parts, |parts|)
    ensures Concat(parts)[Before(parts, i) + j] == parts[i][j]
    decreases |parts|
  {
    var n := |parts| - 1;
    ConcatSize(parts[..n]);
    BeforeFront(parts, n);
    BeforeFront(parts, i);
    if i < n { ConcatAt(parts[..n], i, j); }
  }

  lemma {:induction false} ConcatSize<T>(parts: seq<seq<T>>)
    ensures |Concat(parts)| == Before(parts, |parts|)
    decreases |parts|
  {
    if parts != [] {
      ConcatSize(parts[..|parts| - 1]);
      BeforeFront(parts, |parts| - 1);
    }
  }

  // ---------- What discovery answers, apart from how it sorts ----------

  /** What each file contributes: nothing when it is generated and not asked for, otherwise what its text
      gives. An unreadable file contributes nothing that could be returned. */
  ghost predicate Contribute(visits: seq<Visit>, incl: bool, parts: seq<seq<Mutation>>) {
    |parts| == |visits| && forall i :: 0 <= i < |visits| ==>
      visits[i].Source? && (if visits[i].generated && !incl then parts[i] == [] else visits[i].found == Some(parts[i]))
  }

  ghost predicate Ascending(ms: seq<Mutation>) { forall i, j :: 0 <= i < j < |ms| ==> Earlier(ms[i], ms[j]) }

  /** The mutations of a file, in ascending order. */
  ghost predicate InOrder(out: seq<Mutation>, part: seq<Mutation>) { multiset(out) == multiset(part) && Ascending(out) }

  ghost predicate AllInOrder(outs: seq<seq<Mutation>>, parts: seq<seq<Mutation>>) {
    |outs| == |parts| && forall i :: 0 <= i < |outs| ==> InOrder(outs[i], parts[i])
  }

  /** File after file, each file's mutations in ascending order. */
  ghost predicate FileByFile(all: seq<Mutation>, parts: seq<seq<Mutation>>) {
    exists outs :: AllInOrder(outs, parts) && all == Concat(outs)
  }

  /** The answer: the first `limit` of all mutations (all for limit zero), and how many there are. */
  ghost predicate Answers(visits: seq<Visit>, incl: bool, limit: int, ms: seq<Mutation>, total: nat) {
    exists parts: seq<seq<Mutation>>, all: seq<Mutation> ::
      && Contribute(visits, incl, parts) && DistinctIds(Concat(parts)) && FileByFile(all, parts)
      && total == |all| && ms == (if limit <= 0 || limit >= |all| then all else all[..limit])
  }

  lemma {:induction false} YieldsExactly(visits: seq<Visit>, incl: bool)
    ensures Yields(visits, incl).Some? ==> Contribute(visits, incl, Yields(visits, incl).value)
    decreases |visits|
  {
    if visits != [] && Yields(visits, incl).Some? {
      var n := |visits| - 1;
      YieldsExactly(visits[..n], incl);
      assert forall i :: 0 <= i < n ==> visits[..n][i] == visits[i];
    }
  }

  lemma {:induction false} ContributionsAreYields(visits: seq<Visit>, incl: bool, parts: seq<seq<Mutation>>)
    requires Contribute(visits, incl, parts)
    ensures Yields(visits, incl) == Some(parts)
    decreases |visits|
  {
    if visits != [] {
      var n := |visits| - 1;
      assert forall i :: 0 <= i < n ==> visits[..n][i] == visits[i];
      ContributionsAreYields(visits[..n], incl, parts[..n]);
      assert Yield(visits[n], incl) == Some(parts[n]) && parts == parts[..n] + [parts[n]];
    }
  }

  /** Discovery succeeds exactly on readable files whose contributions have well-formed, distinct IDs. */
  lemma {:induction false} DiscoverableMeans(visits: seq<Visit>, incl: bool)
    ensures Discoverable(visits, incl) <==> exists parts :: Contribute(visits, incl, parts) && DistinctIds(Concat(parts))
  {
    YieldsExactly(visits, incl);
    if Discoverable(visits, incl) {
      var parts := Yields(visits, incl).value;
      IdsOkMeansDistinct(Concat(parts));
      assert Contribute(visits, incl, parts) && DistinctIds(Concat(parts));
    }
    if parts :| Contribute(visits, incl, parts) && DistinctIds(Concat(parts)) {
      ContributionsAreYields(visits, incl, parts);
      IdsOkMeansDistinct(Concat(parts));
    }
  }

  lemma {:induction false} SortedAscends(part: seq<Mutation>)
    requires IdsOk(multiset(part))
    ensures InOrder(InsertionSort(MutationLess, part), part)
  {
    var r := InsertionSort(MutationLess, part);
    MutationOrder();
    SortIsSorted(MutationLess, part);
    IdsOkMeansDistinct(r);
    forall i, j | 0 <= i < j < |r| ensures Earlier(r[i], r[j]) {
      assert !MutationLess(r[j], r[i]) && ParseID(r[i].id) != ParseID(r[j].id);
    }
  }

  lemma OneMoreInOrder(front: seq<seq<Mutation>>, parts: seq<seq<Mutation>>, out: seq<Mutation>)
    requires parts != [] && AllInOrder(front, parts[..|parts| - 1]) && InOrder(out, parts[|parts| - 1])
    ensures AllInOrder(front + [out], parts)
  {
    forall i | 0 <= i < |parts| ensures InOrder((front + [out])[i], parts[i]) {
      if i < |front| { assert InOrder(front[i], parts[..|parts| - 1][i]); }
    }
  }

  lemma {:induction false} RankedByFile(parts: seq<seq<Mutation>>) returns (outs: seq<seq<Mutation>>)
    requires IdsOk(multiset(Concat(parts)))
    ensures AllInOrder(outs, parts) && Ranked(parts) == Concat(outs)
    decreases |parts|
  {
    outs := [];
    if parts != [] {
      var n := |parts| - 1;
      IdsBadStays(multiset(Concat(parts[..n])), multiset(parts[n]));
      SubsetIds(multiset(Concat(parts[..n])), multiset(parts[n]));
      var front := RankedByFile(parts[..n]);
      SortedAscends(parts[n]);
      OneMoreInOrder(front, parts, InsertionSort(MutationLess, parts[n]));
      outs := front + [InsertionSort(MutationLess, parts[n])];
      assert outs[..n] == front;
    }
  }

  lemma {:induction false} KeptAnswers(visits: seq<Visit>, incl: bool, limit: int)
    requires limit >= 0 && Discoverable(visits, incl)
    ensures var parts := Yields(visits, incl).value; Answers(visits, incl, limit, Kept(parts, limit), |Concat(parts)|)
  {
    var parts := Yields(visits, incl).value;
    YieldsExactly(visits, incl);
    IdsOkMeansDistinct(Concat(parts));
    var outs := RankedByFile(parts);
    assert FileByFile(Ranked(parts), parts);
  }

  /** Discovery succeeds on these files. */
  ghost predicate Discoverable(visits: seq<Visit>, incl: bool) {
    Yields(visits, incl).Some? && IdsOk(multiset(Concat(Yields(visits, incl).value)))
  }

  function First<T>(s: seq<T>, n: int): (r: seq<T>)
    requires n >= 0
    ensures |r| == if n < |s| then n else |s|
  {
    if n < |s| then s[..n] else s
  }

  /** What is returned: a zero limit keeps everything. */
  function Kept(parts: seq<seq<Mutation>>, limit: int): seq<Mutation>
    requires limit >= 0
  {
    if limit == 0 then Ranked(parts) else First(Ranked(parts), limit)
  }

  lemma KeptGrows(parts: seq<seq<Mutation>>, part: seq<Mutation>, limit: int)
    requires limit > 0
    ensures Kept(parts + [part], limit)
         == Kept(parts, limit) + First(InsertionSort(MutationLess, part), limit - |Kept(parts, limit)|)
  {
    var sorted := InsertionSort(MutationLess, part);
    assert (parts + [part])[..|parts|] == parts;
    assert Ranked(parts + [part]) == Ranked(parts) + sorted;
    FirstOfConcat(Ranked(parts), sorted, limit);
  }

  lemma FirstOfConcat<T>(a: seq<T>, b: seq<T>, n: nat)
    ensures First(a + b, n) == First(a, n) + First(b, n - |First(a, n)|)
  {
  }

  /** The file's contribution when everything is kept. */
  method TakeAll(part: seq<Mutation>) returns (ms: seq<Mutation>)
    requires IdsOk(multiset(part))
    ensures ms == InsertionSort(MutationLess, part)
  {
    MutationOrder();
    ms := SortSlice(MutationLess, part);
    SortIsSorted(MutationLess, part);
    IdsOkNoTies(multiset(part));
    UniqueOrder(MutationLess, ms, InsertionSort(MutationLess, part));
  }

  /** The file's contribution to a bounded result, through the heap, in any visit order. */
  method TakeFirst(part: seq<Mutation>, slots: int) returns (ms: seq<Mutation>)
    requires IdsOk(multiset(part)) && slots >= 0
    ensures ms == First(InsertionSort(MutationLess, part), slots)
  {
    var selection := new BoundedSelection(slots);
    for i := 0 to |part|
      invariant selection.Valid() && selection.limit == slots
      invariant selection.Offered() == multiset(part[..i])
    {
      assert part[..i + 1] == part[..i] + [part[i]];
      selection.Offer(part[i]);
    }
    assert part[..|part|] == part;
    ms := selection.SortedItems();
    IdsOkNoTies(multiset(part));
    SelectionIsPrefix(ms, selection.others, part);
  }

  method TakeFile(ghost parts: seq<seq<Mutation>>, part: seq<Mutation>, limit: int, have: nat) returns (ms: seq<Mutation>)
    requires limit >= 0 && IdsOk(multiset(part)) && have == |Kept(parts, limit)|
    ensures Kept(parts + [part], limit) == Kept(parts, limit) + ms
  {
    if limit == 0 {
      assert (parts + [part])[..|parts|] == parts;
      ms := TakeAll(part);
    } else {
      KeptGrows(parts, part, limit);
      ms := TakeFirst(part, limit - have);
    }
  }

  /** The state of discovery after some files: what they gave, and what is kept of it. */
  ghost predicate SoFar(visits: seq<Visit>, incl: bool, limit: int, parts: seq<seq<Mutation>>,
                        retained: seq<Mutation>, total: nat, seen: set<Option<nat>>)
    requires limit >= 0
  {
    && Yields(visits, incl) == Some(parts) && IdsOk(multiset(Concat(parts)))
    && retained == Kept(parts, limit) && total == |Concat(parts)| && seen == Keys(multiset(Concat(parts)))
  }

  lemma YieldsGrow(visits: seq<Visit>, i: nat, incl: bool, parts: seq<seq<Mutation>>)
    requires i < |visits| && Yields(visits[..i], incl) == Some(parts)
    ensures var y := Yield(visits[i], incl);
            if y.None? then Yields(visits[..i + 1], incl).None?
            else Yields(visits[..i + 1], incl) == Some(parts + [y.value])
                 && Concat(parts + [y.value]) == Concat(parts) + y.value
  {
    var now := visits[..i + 1];
    assert now[..i] == visits[..i];
    var y := Yield(visits[i], incl);
    if y.Some? { assert (parts + [y.value])[..|parts|] == parts; }
  }

  lemma {:induction false} FileFails(visits: seq<Visit>, i: nat, incl: bool, limit: int, parts: seq<seq<Mutation>>,
                  retained: seq<Mutation>, total: nat, seen: set<Option<nat>>)
    requires i < |visits| && limit >= 0 && SoFar(visits[..i], incl, limit, parts, retained, total, seen)
    requires Yield(visits[i], incl).None? || !IdsOk(multiset(Concat(parts)) + multiset(Yield(visits[i], incl).value))
    ensures !Discoverable(visits, incl)
  {
    YieldsGrow(visits, i, incl, parts);
    DuplicateStays(visits, incl, i + 1);
  }

  lemma {:induction false} FileAdded(visits: seq<Visit>, i: nat, incl: bool, limit: int, parts: seq<seq<Mutation>>,
                  retained: seq<Mutation>, total: nat, seen: set<Option<nat>>, part: seq<Mutation>, ms: seq<Mutation>, more: set<Option<nat>>)
    requires i < |visits| && limit >= 0 && SoFar(visits[..i], incl, limit, parts, retained, total, seen)
    requires Yield(visits[i], incl) == Some(part) && IdsOk(multiset(Concat(parts)) + multiset(part))
    requires Kept(parts + [part], limit) == Kept(parts, limit) + ms && more == Keys(multiset(Concat(parts)) + multiset(part))
    ensures SoFar(visits[..i + 1], incl, limit, parts + [part], retained + ms, total + |part|, more)
  {
    YieldsGrow(visits, i, incl, parts);
    assert multiset(Concat(parts) + part) == multiset(Concat(parts)) + multiset(part);
  }

  /** The IDs of one file are checked, and what is kept of it is chosen; None on a bad or repeated ID. */
  method CheckAndTake(ghost parts: seq<seq<Mutation>>, part: seq<Mutation>, limit: int, have: nat, seen: set<Option<nat>>)
    returns (r: Option<(seq<Mutation>, set<Option<nat>>)>)
    requires limit >= 0 && have == |Kept(parts, limit)|
    requires IdsOk(multiset(Concat(parts))) && seen == Keys(multiset(Concat(parts)))
    ensures r.Some? <==> IdsOk(multiset(Concat(parts)) + multiset(part))
    ensures r.Some? ==> Kept(parts + [part], limit) == Kept(parts, limit) + r.value.0
                        && r.value.1 == Keys(multiset(Concat(parts)) + multiset(part))
  {
    var ok, more := CheckIds(part, multiset(Concat(parts)), seen);
    if !ok {
      return None;
    }
    SubsetIds(multiset(Concat(parts)), multiset(part));
    var ms := TakeFile(parts, part, limit, have);
    r := Some((ms, more));
  }

  /** One file; None on a read or parse error and on a bad or repeated ID. */
  method AddFile(visits: seq<Visit>, i: nat, incl: bool, limit: int, ghost parts: seq<seq<Mutation>>,
                 retained: seq<Mutation>, total: nat, seen: set<Option<nat>>)
    returns (r: Option<(seq<Mutation>, nat, set<Option<nat>>)>)
    requires i < |visits| && limit >= 0 && SoFar(visits[..i], incl, limit, parts, retained, total, seen)
    ensures r.None? ==> !Discoverable(visits, incl)
    ensures r.Some? ==> Yield(visits[i], incl).Some?
                        && SoFar(visits[..i + 1], incl, limit, parts + [Yield(visits[i], incl).value],
                                 r.value.0, r.value.1, r.value.2)
  {
    var part := Yield(visits[i], incl);
    if part.None? {
      FileFails(visits, i, incl, limit, parts, retained, total, seen);
      return None;
    }
    var taken := CheckAndTake(parts, part.value, limit, |retained|, seen);
    if taken.None? {
      FileFails(visits, i, incl, limit, parts, retained, total, seen);
      return None;
    }
    FileAdded(visits, i, incl, limit, parts, retained, total, seen, part.value, taken.value.0, taken.value.1);
    r := Some((retained + taken.value.0, total + |part.value|, taken.value.1));
  }

  /** Visits every file, checks every ID, and keeps the first `limit` mutations. */
  method VisitFiles(visits: seq<Visit>, incl: bool, limit: int) returns (r: Option<(seq<Mutation>, nat)>)
    requires limit >= 0
    ensures r.Some? <==> Discoverable(visits, incl)
    ensures r.Some? ==> r.value.0 == Kept(Yields(visits, incl).value, limit)
                        && r.value.1 == |Concat(Yields(visits, incl).value)|
  {
    var retained: seq<Mutation>, total: nat, seen: set<Option<nat>> := [], 0, {};
    ghost var parts: seq<seq<Mutation>> := [];
    for i := 0 to |visits|
      invariant SoFar(visits[..i], incl, limit, parts, retained, total, seen)
    {
      var next := AddFile(visits, i, incl, limit, parts, retained, total, seen);
      if next.None? {
        return None;
      }
      retained, total, seen := next.value.0, next.value.1, next.value.2;
      parts := parts + [Yield(visits[i], incl).value];
    }
    assert visits[..|visits|] == visits;
    r := Some((retained, total));
  }

  /** Refuses a negative limit. Otherwise it succeeds exactly when every file is readable and the IDs of what
      they contribute are well-formed and distinct, and answers the first `limit` mutations. */
  method DiscoverLimited(visits: seq<Visit>, incl: bool, limit: int) returns (r: Option<(seq<Mutation>, nat)>)
    ensures r.Some? <==> limit >= 0 && Discoverable(visits, incl)
    ensures r.Some? ==> r.value.0 == Kept(Yields(visits, incl).value, limit)
                        && r.value.1 == |Concat(Yields(visits, incl).value)|
    ensures r.Some? <==> limit >= 0 && exists parts :: Contribute(visits, incl, parts) && DistinctIds(Concat(parts))
    ensures r.Some? ==> Answers(visits, incl, limit, r.value.0, r.value.1)
  {
    DiscoverableMeans(visits, incl);
    if limit < 0 {
      return None;
    }
    r := VisitFiles(visits, incl, limit);
    if r.Some? { KeptAnswers(visits, incl, limit); }
  }

  lemma SubsetIds(a: multiset<Mutation>, b: multiset<Mutation>)
    requires IdsOk(a + b)
    ensures IdsOk(b)
  {
    IdsBadStays(b, a);
    assert b + a == a + b;
  }

  lemma {:induction false} DuplicateStays(visits: seq<Visit>, incl: bool, i: nat)
    requires i <= |visits| && !Discoverable(visits[..i], incl)
    ensures !Discoverable(visits, incl)
    decreases |visits|
  {
    if i == |visits| {
      assert visits[..i] == visits;
    } else {
      var n := |visits| - 1;
      assert visits[..n][..i] == visits[..i];
      DuplicateStays(visits[..n], incl, i);
      if Yields(visits, incl).Some? {
        var a, b := Yields(visits[..n], incl).value, Yield(visits[n], incl).value;
        assert (a + [b])[..|a|] == a;
        IdsBadStays(multiset(Concat(a)), multiset(b));
      }
    }
  }

  /** Discovery without and with a positive limit: both succeed or neither does, and the limited one
      returns the first min(limit, total) mutations of the unlimited one, and the same total. */
  method DiscoverPrefix(visits: seq<Visit>, incl: bool, limit: int)
    returns (all: Option<(seq<Mutation>, nat)>, some: Option<(seq<Mutation>, nat)>)
    requires limit > 0
    ensures all.Some? <==> some.Some?
    ensures all.Some? ==> some.value.1 == all.value.1 == |all.value.0|
                          && some.value.0 == all.value.0[..Min(limit, |all.value.0|)]
  {
    all := DiscoverLimited(visits, incl, 0);
    some := DiscoverLimited(visits, incl, limit);
  }
}
