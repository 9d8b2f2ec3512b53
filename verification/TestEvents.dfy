/** Test events, what they say about a run, and the batch classifier. */
module TestEvents {
  import opened Base
  import opened Lines
  import opened Sorting
  import opened Lex

  const NUL: char := 0 as char

  datatype Event = Event(action: string, pkg: string, test: string, output: string)

  /** What is not modelled: JSON decoding and the two regular expressions. */
  datatype Library = Library(decode: string -> Option<Event>, summary: string -> bool, timeout: string -> bool)

  function Key(pkg: string, test: string): string { pkg + [NUL] + test }

  /** What follows the first NUL of a key. */
  function NameOf(key: string): string {
    match Around(key, NUL) case Some(p) => p.1 case None => ""
  }

  lemma NameOfKey(pkg: string, test: string)
    requires NUL !in pkg
    ensures NameOf(Key(pkg, test)) == test
  {
    AroundAt(pkg, NUL, test);
  }

  /** The name cut from a key is the test's exactly when the package has no NUL in its name. */
  lemma NameOfKeyExactly(pkg: string, test: string)
    ensures NameOf(Key(pkg, test)) == test <==> NUL !in pkg
  {
    match Around(pkg, NUL)
    case None => NameOfKey(pkg, test);
    case Some(p) =>
      AroundAt(p.0, NUL, p.1 + [NUL] + test);
      assert Key(pkg, test) == p.0 + [NUL] + (p.1 + [NUL] + test);
      assert |NameOf(Key(pkg, test))| > |test|;
      assert pkg[|p.0|] == NUL;
  }

  // ---------- What a sequence of events says ----------

  predicate Runs(e: Event, k: string) { e.action == "run" && e.test != "" && Key(e.pkg, e.test) == k }

  predicate Settles(e: Event, k: string) {
    (e.action == "pass" || e.action == "skip" || e.action == "fail") && e.test != "" && Key(e.pkg, e.test) == k
  }

  predicate FailsNow(e: Event, k: string) { e.action == "fail" && Settles(e, k) }

  predicate StartsIn(e: Event, pkg: string) { e.action == "run" && e.test != "" && e.pkg == pkg }

  predicate Breaks(lib: Library, e: Event, pkg: string) {
    e.action == "output" && e.test == "" && e.pkg == pkg && lib.summary(e.output)
  }

  predicate Fails(es: seq<Event>, k: string) { exists i :: 0 <= i < |es| && FailsNow(es[i], k) }

  /** The last run, pass, skip or fail event of the test is a run event. */
  predicate InFlight(es: seq<Event>, k: string) {
    exists i :: 0 <= i < |es| && Runs(es[i], k) && forall j :: i < j < |es| ==> !Settles(es[j], k)
  }

  predicate TestFails(es: seq<Event>, k: string) { Fails(es, k) || InFlight(es, k) }

  predicate Ran(es: seq<Event>, pkg: string) { exists i :: 0 <= i < |es| && StartsIn(es[i], pkg) }

  predicate Broken(lib: Library, es: seq<Event>, pkg: string) { exists i :: 0 <= i < |es| && Breaks(lib, es[i], pkg) }

  /** A failing test kills; otherwise a package that broke before any test of its own ran makes the
      mutant invalid; otherwise it is killed without a responsible test. */
  ghost function VerdictOf(lib: Library, es: seq<Event>): Verdict {
    if exists k :: TestFails(es, k) then Killed
    else if exists pkg :: Broken(lib, es, pkg) && !Ran(es, pkg) then Invalid
    else Killed
  }

  // ---------- The four sets that both classifiers keep ----------

  datatype Tally = Tally(started: set<string>, failed: set<string>, ran: set<string>, broken: set<string>)

  const EMPTY: Tally := Tally({}, {}, {}, {})

  ghost predicate Tallies(lib: Library, es: seq<Event>, t: Tally) {
    && (forall k :: k in t.started <==> InFlight(es, k))
    && (forall k :: k in t.failed <==> Fails(es, k))
    && (forall p :: p in t.ran <==> Ran(es, p))
    && (forall p :: p in t.broken <==> Broken(lib, es, p))
  }

  /** The update of the sets by one event. */
  function Count(lib: Library, t: Tally, e: Event): Tally {
    if e.action == "output" then
      if e.test == "" && lib.summary(e.output) then t.(broken := t.broken + {e.pkg}) else t
    else if e.test == "" then t
    else
      var k := Key(e.pkg, e.test);
      if e.action == "run" then t.(started := t.started + {k}, ran := t.ran + {e.pkg})
      else if e.action == "pass" || e.action == "skip" then t.(started := t.started - {k})
      else if e.action == "fail" then t.(started := t.started - {k}, failed := t.failed + {k})
      else t
  }

  lemma FailsSnoc(es: seq<Event>, e: Event, k: string)
    ensures Fails(es + [e], k) <==> Fails(es, k) || FailsNow(e, k)
  {
    var all := es + [e];
    if i :| 0 <= i < |es| && FailsNow(es[i], k) { assert FailsNow(all[i], k); }
    if FailsNow(e, k) { assert FailsNow(all[|es|], k); }
  }

  lemma InFlightSnoc(es: seq<Event>, e: Event, k: string)
    ensures InFlight(es + [e], k) <==> Runs(e, k) || (InFlight(es, k) && !Settles(e, k))
  {
    var all := es + [e];
    if Runs(e, k) {
      assert Runs(all[|es|], k);
    }
    if i :| 0 <= i < |es| && Runs(es[i], k) && forall j :: i < j < |es| ==> !Settles(es[j], k) {
      if !Settles(e, k) { assert Runs(all[i], k); }
    }
    if i :| 0 <= i < |all| && Runs(all[i], k) && forall j :: i < j < |all| ==> !Settles(all[j], k) {
      if i < |es| {
        assert !Settles(all[|es|], k);
        assert forall j :: i < j < |es| ==> !Settles(es[j], k) by {
          forall j | i < j < |es| ensures !Settles(es[j], k) { assert !Settles(all[j], k); }
        }
      }
    }
  }

  lemma RanSnoc(es: seq<Event>, e: Event, pkg: string)
    ensures Ran(es + [e], pkg) <==> Ran(es, pkg) || StartsIn(e, pkg)
  {
    var all := es + [e];
    if i :| 0 <= i < |es| && StartsIn(es[i], pkg) { assert StartsIn(all[i], pkg); }
    if StartsIn(e, pkg) { assert StartsIn(all[|es|], pkg); }
  }

  lemma BrokenSnoc(lib: Library, es: seq<Event>, e: Event, pkg: string)
    ensures Broken(lib, es + [e], pkg) <==> Broken(lib, es, pkg) || Breaks(lib, e, pkg)
  {
    var all := es + [e];
    if i :| 0 <= i < |es| && Breaks(lib, es[i], pkg) { assert Breaks(lib, all[i], pkg); }
    if Breaks(lib, e, pkg) { assert Breaks(lib, all[|es|], pkg); }
  }

  /** What one event does to the four sets, element by element. */
  lemma CountMembers(lib: Library, t: Tally, e: Event, x: string)
    ensures x in Count(lib, t, e).started <==> Runs(e, x) || (x in t.started && !Settles(e, x))
    ensures x in Count(lib, t, e).failed <==> x in t.failed || FailsNow(e, x)
    ensures x in Count(lib, t, e).ran <==> x in t.ran || StartsIn(e, x)
    ensures x in Count(lib, t, e).broken <==> x in t.broken || Breaks(lib, e, x)
  {
  }

  lemma {:induction false} TalliesSnoc(lib: Library, es: seq<Event>, t: Tally, e: Event)
    requires Tallies(lib, es, t)
    ensures Tallies(lib, es + [e], Count(lib, t, e))
  {
    forall x
      ensures x in Count(lib, t, e).started <==> InFlight(es + [e], x)
      ensures x in Count(lib, t, e).failed <==> Fails(es + [e], x)
      ensures x in Count(lib, t, e).ran <==> Ran(es + [e], x)
      ensures x in Count(lib, t, e).broken <==> Broken(lib, es + [e], x)
    {
      CountMembers(lib, t, e, x);
      FailsSnoc(es, e, x);
      InFlightSnoc(es, e, x);
      RanSnoc(es, e, x);
      BrokenSnoc(lib, es, e, x);
    }
  }

  /** The verdict that the four sets give. */
  function TallyVerdict(t: Tally): Verdict {
    if t.failed + t.started != {} then Killed
    else if exists p :: p in t.broken && p !in t.ran then Invalid
    else Killed
  }

  lemma TallyDecides(lib: Library, es: seq<Event>, t: Tally)
    requires Tallies(lib, es, t)
    ensures TallyVerdict(t) == VerdictOf(lib, es)
  {
    if t.failed + t.started != {} {
      var k :| k in t.failed + t.started;
      assert TestFails(es, k);
    } else {
      forall k ensures !TestFails(es, k) { assert k !in t.failed && k !in t.started; }
      if exists p :: p in t.broken && p !in t.ran {
        var p :| p in t.broken && p !in t.ran;
        assert Broken(lib, es, p) && !Ran(es, p);
      }
      if exists p :: Broken(lib, es, p) && !Ran(es, p) {
        var p :| Broken(lib, es, p) && !Ran(es, p);
        assert p in t.broken && p !in t.ran;
      }
    }
  }

  // ---------- The batch classifier ----------

  /** Event i is the first fail event of its test, whose name it shows. */
  predicate FirstFail(es: seq<Event>, i: nat, n: string) {
    && i < |es| && FailsNow(es[i], Key(es[i].pkg, es[i].test)) && es[i].test == n
    && !Fails(es[..i], Key(es[i].pkg, es[i].test))
  }

  ghost predicate FailShown(es: seq<Event>, n: string) { exists i: nat :: FirstFail(es, i, n) }

  /** A test in flight that did not fail before. */
  ghost predicate CutFromKey(es: seq<Event>, k: string, n: string) { InFlight(es, k) && !Fails(es, k) && NameOf(k) == n }

  /** The names listed for a killed mutant. */
  ghost predicate Listed(es: seq<Event>, n: string) { FailShown(es, n) || exists k :: CutFromKey(es, k, n) }

  /** The first fail event of test k shows the name. */
  ghost predicate FailName(es: seq<Event>, k: string, n: string) {
    exists i: nat :: FirstFail(es, i, n) && Key(es[i].pkg, es[i].test) == k
  }

  /** The name under which a failing test is listed. */
  ghost predicate NameFor(es: seq<Event>, k: string, n: string) { FailName(es, k, n) || CutFromKey(es, k, n) }

  predicate Apart(ks: seq<string>) { forall i, j :: 0 <= i < j < |ks| ==> ks[i] != ks[j] }

  /** The tests behind the names: each once. */
  ghost predicate KeysOf(failed: set<string>, keys: seq<string>) {
    forall s: Seal :: Open(s) ==> |keys| == |failed| && Apart(keys) && forall k :: k in keys <==> k in failed
  }

  /** One name for each of the failing tests. */
  ghost predicate ListedAs(es: seq<Event>, failed: set<string>, keys: seq<string>, order: seq<string>) {
    |order| == |keys| && KeysOf(failed, keys) && forall i :: 0 <= i < |keys| ==> NameFor(es, keys[i], order[i])
  }

  /** The event is the first failure of its test. */
  predicate NewFail(t: Tally, e: Event) { e.action == "fail" && e.test != "" && Key(e.pkg, e.test) !in t.failed }

  lemma OneMoreKey(failed: set<string>, keys: seq<string>, k: string)
    requires KeysOf(failed, keys) && k !in failed
    ensures KeysOf(failed + {k}, keys + [k])
  {
    assert Open(Seal);
  }

  lemma TheKeys(failed: set<string>, keys: seq<string>)
    requires KeysOf(failed, keys)
    ensures |keys| == |failed| && Apart(keys) && forall k :: k in keys <==> k in failed
  {
    assert Open(Seal);
  }

  lemma FailNameSnoc(es: seq<Event>, e: Event, k: string, n: string)
    requires FailName(es, k, n)
    ensures FailName(es + [e], k, n)
  {
    var i: nat :| FirstFail(es, i, n) && Key(es[i].pkg, es[i].test) == k;
    assert (es + [e])[..i] == es[..i];
    assert FirstFail(es + [e], i, n);
  }

  lemma NewFailName(es: seq<Event>, e: Event)
    requires e.action == "fail" && e.test != "" && !Fails(es, Key(e.pkg, e.test))
    ensures FailName(es + [e], Key(e.pkg, e.test), e.test)
  {
    assert (es + [e])[..|es|] == es;
    assert FirstFail(es + [e], |es|, e.test);
  }

  /** The names in the order in which the tests failed. */
  ghost predicate FailsListed(es: seq<Event>, failed: set<string>, keys: seq<string>, order: seq<string>) {
    |order| == |keys| && KeysOf(failed, keys) && forall i :: 0 <= i < |keys| ==> FailName(es, keys[i], order[i])
  }

  lemma {:induction false} FailsListedStay(es: seq<Event>, failed: set<string>, keys: seq<string>, order: seq<string>, e: Event)
    requires FailsListed(es, failed, keys, order)
    ensures FailsListed(es + [e], failed, keys, order)
  {
    forall i | 0 <= i < |keys| ensures FailName(es + [e], keys[i], order[i]) { FailNameSnoc(es, e, keys[i], order[i]); }
  }

  lemma {:induction false} FailsListedMore(es: seq<Event>, failed: set<string>, keys: seq<string>, order: seq<string>, k: string, n: string)
    requires FailsListed(es, failed, keys, order) && k !in failed && FailName(es, k, n)
    ensures FailsListed(es, failed + {k}, keys + [k], order + [n])
  {
    OneMoreKey(failed, keys, k);
  }

  lemma {:induction false} FailsListedNew(es: seq<Event>, failed: set<string>, keys: seq<string>, order: seq<string>, e: Event)
    requires FailsListed(es, failed, keys, order) && e.action == "fail" && e.test != ""
    requires Key(e.pkg, e.test) !in failed && !Fails(es, Key(e.pkg, e.test))
    ensures FailsListed(es + [e], failed + {Key(e.pkg, e.test)}, keys + [Key(e.pkg, e.test)], order + [e.test])
  {
    FailsListedStay(es, failed, keys, order, e);
    NewFailName(es, e);
    FailsListedMore(es + [e], failed, keys, order, Key(e.pkg, e.test), e.test);
  }

  lemma {:induction false} FailsListedSame(lib: Library, es: seq<Event>, t: Tally, keys: seq<string>, order: seq<string>, e: Event)
    requires FailsListed(es, t.failed, keys, order) && !NewFail(t, e)
    ensures FailsListed(es + [e], Count(lib, t, e).failed, keys, order)
  {
    FailsListedStay(es, t.failed, keys, order, e);
    assert Key(e.pkg, e.test) in t.failed ==> t.failed + {Key(e.pkg, e.test)} == t.failed;
    assert Count(lib, t, e).failed == t.failed;
  }

  lemma NoneBefore(es: seq<Event>, i: nat, n: string)
    requires FirstFail(es, i, n)
    ensures forall j :: 0 <= j < i ==> !FailsNow(es[j], Key(es[i].pkg, es[i].test))
  {
    forall j | 0 <= j < i ensures !FailsNow(es[j], Key(es[i].pkg, es[i].test)) { assert es[..i][j] == es[j]; }
  }

  /** A failing test has one name. */
  lemma OneName(es: seq<Event>, k: string, m: string, n: string)
    requires NameFor(es, k, m) && NameFor(es, k, n)
    ensures m == n
  {
    if FailName(es, k, m) && FailName(es, k, n) {
      var i: nat :| FirstFail(es, i, m) && Key(es[i].pkg, es[i].test) == k;
      var j: nat :| FirstFail(es, j, n) && Key(es[j].pkg, es[j].test) == k;
      NoneBefore(es, i, m);
      NoneBefore(es, j, n);
    }
  }

  lemma {:induction false} NamesListed(es: seq<Event>, failed: set<string>, keys: seq<string>, order: seq<string>, n: string)
    requires ListedAs(es, failed, keys, order) && forall k :: k in failed <==> TestFails(es, k)
    ensures n in order <==> Listed(es, n)
  {
    TheKeys(failed, keys);
    if n in order {
      var i :| 0 <= i < |order| && order[i] == n;
      assert NameFor(es, keys[i], n);
      if FailName(es, keys[i], n) {
        var j: nat :| FirstFail(es, j, n) && Key(es[j].pkg, es[j].test) == keys[i];
        assert FailShown(es, n);
      }
    }
    if Listed(es, n) {
      var k := SomeKey(es, n);
      assert k in keys;
      var i :| 0 <= i < |keys| && keys[i] == k;
      OneName(es, k, n, order[i]);
    }
  }

  lemma SomeKey(es: seq<Event>, n: string) returns (k: string)
    requires Listed(es, n)
    ensures NameFor(es, k, n) && TestFails(es, k)
  {
    if FailShown(es, n) {
      var i: nat :| FirstFail(es, i, n);
      k := Key(es[i].pkg, es[i].test);
      assert FailName(es, k, n);
    } else {
      k :| CutFromKey(es, k, n);
    }
  }

  /** The tests that failed, by package and name. */
  method FailedPkgTests(lib: Library, es: seq<Event>) returns (failed: set<string>)
    ensures forall k :: k in failed <==> TestFails(es, k)
  {
    var t := EMPTY;
    for i := 0 to |es|
      invariant Tallies(lib, es[..i], t)
    {
      assert es[..i + 1] == es[..i] + [es[i]];
      TalliesSnoc(lib, es[..i], t, es[i]);
      t := Count(lib, t, es[i]);
    }
    assert es[..|es|] == es;
    failed := t.failed;
    var left := t.started;
    while left != {}
      invariant left <= t.started && failed + left == t.failed + t.started
      decreases |left|
    {
      var k :| k in left;
      failed := failed + {k};
      left := left - {k};
    }
  }

  /** What the first loop knows after j events. */
  ghost predicate ObservedAs(lib: Library, es: seq<Event>, j: nat, t: Tally, keys: seq<string>, order: seq<string>)
    requires j <= |es|
  {
    Tallies(lib, es[..j], t) && FailsListed(es[..j], t.failed, keys, order)
  }

  lemma {:induction false} ObserveNew(lib: Library, es: seq<Event>, j: nat, t: Tally, keys: seq<string>, order: seq<string>)
    requires j < |es| && ObservedAs(lib, es, j, t, keys, order) && NewFail(t, es[j])
    ensures ObservedAs(lib, es, j + 1, Count(lib, t, es[j]), keys + [Key(es[j].pkg, es[j].test)], order + [es[j].test])
  {
    var k := Key(es[j].pkg, es[j].test);
    assert es[..j + 1] == es[..j] + [es[j]];
    assert FailsListed(es[..j + 1], t.failed + {k}, keys + [k], order + [es[j].test]) by {
      FailsListedNew(es[..j], t.failed, keys, order, es[j]);
    }
    assert Count(lib, t, es[j]).failed == t.failed + {k};
    TalliesSnoc(lib, es[..j], t, es[j]);
  }

  lemma {:induction false} ObserveSame(lib: Library, es: seq<Event>, j: nat, t: Tally, keys: seq<string>, order: seq<string>)
    requires j < |es| && ObservedAs(lib, es, j, t, keys, order) && !NewFail(t, es[j])
    ensures ObservedAs(lib, es, j + 1, Count(lib, t, es[j]), keys, order)
  {
    assert es[..j + 1] == es[..j] + [es[j]];
    TalliesSnoc(lib, es[..j], t, es[j]);
    FailsListedSame(lib, es[..j], t, keys, order, es[j]);
  }

  /** The first loop of the classifier: the sets, and the names in order of failure. */
  method Observed(lib: Library, es: seq<Event>) returns (t: Tally, order: seq<string>, ghost keys: seq<string>)
    ensures Tallies(lib, es, t) && FailsListed(es, t.failed, keys, order)
  {
    t, order, keys := EMPTY, [], [];
    for j := 0 to |es|
      invariant ObservedAs(lib, es, j, t, keys, order)
    {
      var e := es[j];
      if NewFail(t, e) {
        ObserveNew(lib, es, j, t, keys, order);
        order := order + [e.test];
        keys := keys + [Key(e.pkg, e.test)];
      } else {
        ObserveSame(lib, es, j, t, keys, order);
      }
      t := Count(lib, t, e);
    }
    assert es[..|es|] == es;
  }

  lemma {:induction false} NamesStep(es: seq<Event>, failed: set<string>, keys: seq<string>, order: seq<string>, k: string)
    requires ListedAs(es, failed, keys, order) && InFlight(es, k)
    requires Fails(es, k) ==> k in failed
    ensures k !in failed ==> ListedAs(es, failed + {k}, keys + [k], order + [NameOf(k)])
    ensures k in failed ==> failed + {k} == failed
  {
    if k !in failed {
      OneMoreKey(failed, keys, k);
      assert NameFor(es, k, NameOf(k));
    }
  }

  /** The second loop: the tests in flight. */
  method AddInFlight(es: seq<Event>, t: Tally, order0: seq<string>, ghost keys0: seq<string>)
    returns (order: seq<string>, ghost keys: seq<string>)
    requires FailsListed(es, t.failed, keys0, order0)
    requires forall k :: (k in t.started ==> InFlight(es, k)) && (Fails(es, k) ==> k in t.failed)
    ensures ListedAs(es, t.failed + t.started, keys, order)
  {
    order, keys := order0, keys0;
    var failed, left := t.failed, t.started;
    while left != {}
      invariant left <= t.started && t.failed <= failed && failed + left == t.failed + t.started
      invariant ListedAs(es, failed, keys, order)
      decreases |left|
    {
      var k :| k in left;
      NamesStep(es, failed, keys, order, k);
      if k !in failed {
        order := order + [NameOf(k)];
        keys := keys + [k];
      }
      failed := failed + {k};
      left := left - {k};
    }
    assert failed == t.failed + t.started;
  }

  /** The classifier: the verdict, and the sorted names of the failing tests, one for each of them. */
  method ClassifyEvents(lib: Library, es: seq<Event>)
    returns (verdict: Verdict, tests: seq<string>, ghost t: Tally, ghost keys: seq<string>, ghost order: seq<string>)
    ensures verdict == VerdictOf(lib, es) && Tallies(lib, es, t)
    ensures Sorted(LexLess, tests) && multiset(tests) == multiset(order) && ListedAs(es, t.failed + t.started, keys, order)
    ensures |tests| == |t.failed + t.started|
    ensures forall n :: n in tests <==> Listed(es, n)
  {
    var tally, names, failing := Observed(lib, es);
    names, failing := AddInFlight(es, tally, names, failing);
    t, keys, order := tally, failing, names;
    LexOrder();
    tests := SortSlice(LexLess, names);
    assert |tests| == |multiset(tests)| == |names|;
    TheKeys(t.failed + t.started, keys);
    forall n ensures n in tests <==> Listed(es, n) {
      NamesListed(es, t.failed + t.started, keys, order, n);
      assert n in tests <==> n in multiset(order);
    }
    TallyDecides(lib, es, tally);
    verdict := TallyVerdict(tally);
  }
}
