/** What holds of the streaming classifier over every output: its state stays bounded, and what it
    says is what the batch classifier says of the same events, as far as nothing was lost. */
module StreamTheorems {
  import opened Base
  import opened Lines
  import opened TestEvents
  import opened JsonStream

  // ---------- Bounded state ----------

  predicate CoreWithinCaps(c: Core) {
    && |c.display.data| <= c.display.limit == 65536 && c.display.total < U64 && c.eventCount < U64
    && |c.evidence| <= 4096 && c.evidenceBytes <= 262144
    && |c.tally.started| <= 8192 && |c.tally.failed| <= 8192
    && |c.tally.ran| <= 8192 && |c.tally.broken| <= 8192
  }

  predicate Short(m: set<string>, n: nat) { forall k :: k in m ==> |k| <= n }

  /** Every retained key and package is short, too. */
  predicate KeysWithinCaps(t: Tally) {
    Short(t.started, 1025) && Short(t.failed, 1025)
    && Short(t.ran, 512) && Short(t.broken, 512)
  }

  /** What the evidence retains is what `evidenceBytes` counts. */
  function Sizes(es: seq<Event>): nat {
    if es == [] then 0 else Sizes(es[..|es| - 1]) + Size(es[|es| - 1])
  }

  predicate WithinCaps(s: Stream) {
    |s.line| <= 262144 && CoreWithinCaps(s.core) && KeysWithinCaps(s.core.tally) && s.core.evidenceBytes == Sizes(s.core.evidence)
  }

  lemma TrackBounded(m: set<string>, key: string)
    requires |m| <= MAX_TRACKED
    ensures |Track(m, key).1| <= MAX_TRACKED
  {
  }

  lemma Smaller(m: set<string>, key: string)
    ensures |m - {key}| <= |m|
  {
  }

  lemma OutputBounded(lib: Library, c: Core, e: Event)
    requires CoreWithinCaps(c)
    ensures CoreWithinCaps(OutputSeen(lib, c, e))
    ensures OutputSeen(lib, c, e).evidence == c.evidence && OutputSeen(lib, c, e).evidenceBytes == c.evidenceBytes
  {
    TrackBounded(c.tally.broken, e.pkg);
  }

  lemma RunBounded(c: Core, e: Event)
    requires CoreWithinCaps(c)
    ensures CoreWithinCaps(MarkRun(c, e))
  {
    TrackBounded(c.tally.started, Key(e.pkg, e.test));
    TrackBounded(c.tally.ran, e.pkg);
  }

  lemma FailBounded(c: Core, e: Event)
    requires CoreWithinCaps(c)
    ensures CoreWithinCaps(MarkFail(c, e))
  {
    TrackBounded(c.tally.failed, Key(e.pkg, e.test));
    Smaller(c.tally.started, Key(e.pkg, e.test));
  }

  lemma ControlBounded(c: Core, e: Event)
    requires CoreWithinCaps(c)
    ensures CoreWithinCaps(ControlSeen(c, e))
    ensures ControlSeen(c, e).evidence == c.evidence && ControlSeen(c, e).evidenceBytes == c.evidenceBytes
  {
    RunBounded(c, e);
    FailBounded(c, e);
    Smaller(c.tally.started, Key(e.pkg, e.test));
  }

  lemma KeptBounded(c: Core, e: Event)
    requires CoreWithinCaps(c) && c.evidenceBytes == Sizes(c.evidence)
    ensures CoreWithinCaps(Kept(c, e)) && Kept(c, e).evidenceBytes == Sizes(Kept(c, e).evidence)
  {
    assert (c.evidence + [e])[..|c.evidence|] == c.evidence;
  }

  lemma {:induction false} ConsumeBounded(lib: Library, c: Core, line: string)
    requires CoreWithinCaps(c) && c.evidenceBytes == Sizes(c.evidence)
    ensures CoreWithinCaps(Consume(lib, c, line)) && Consume(lib, c, line).evidenceBytes == Sizes(Consume(lib, c, line).evidence)
  {
    if !Blank(line) && lib.decode(line).Some? && IdentityFits(lib.decode(line).value) {
      var e := lib.decode(line).value;
      OutputBounded(lib, Counted(c), e);
      ControlBounded(OutputSeen(lib, Counted(c), e), e);
      KeptBounded(ControlSeen(OutputSeen(lib, Counted(c), e), e), e);
    }
  }

  lemma TrackShort(m: set<string>, key: string, n: nat)
    requires Short(m, n) && |key| <= n
    ensures Short(Track(m, key).1, n)
  {
  }

  lemma LessShort(m: set<string>, key: string, n: nat)
    requires Short(m, n)
    ensures Short(m - {key}, n)
  {
  }

  lemma {:induction false} OutputKeys(lib: Library, c: Core, e: Event)
    requires KeysWithinCaps(c.tally) && IdentityFits(e)
    ensures KeysWithinCaps(OutputSeen(lib, c, e).tally)
  {
    TrackShort(c.tally.broken, e.pkg, MAX_IDENTITY);
  }

  lemma {:induction false} RunKeys(c: Core, e: Event)
    requires KeysWithinCaps(c.tally) && IdentityFits(e)
    ensures KeysWithinCaps(MarkRun(c, e).tally)
  {
    TrackShort(c.tally.started, Key(e.pkg, e.test), 2 * MAX_IDENTITY + 1);
    TrackShort(c.tally.ran, e.pkg, MAX_IDENTITY);
  }

  lemma {:induction false} FailKeys(c: Core, e: Event)
    requires KeysWithinCaps(c.tally) && IdentityFits(e)
    ensures KeysWithinCaps(MarkFail(c, e).tally)
  {
    TrackShort(c.tally.failed, Key(e.pkg, e.test), 2 * MAX_IDENTITY + 1);
    LessShort(c.tally.started, Key(e.pkg, e.test), 2 * MAX_IDENTITY + 1);
  }

  lemma {:induction false} ControlKeys(c: Core, e: Event)
    requires KeysWithinCaps(c.tally) && IdentityFits(e)
    ensures KeysWithinCaps(ControlSeen(c, e).tally)
  {
    if e.test != "" {
      if e.action == "run" {
        RunKeys(c, e);
      } else if e.action == "fail" {
        FailKeys(c, e);
      } else if e.action == "pass" || e.action == "skip" {
        LessShort(c.tally.started, Key(e.pkg, e.test), 2 * MAX_IDENTITY + 1);
      }
    }
  }

  lemma {:induction false} KeysStayShort(lib: Library, c: Core, line: string)
    requires KeysWithinCaps(c.tally)
    ensures KeysWithinCaps(Consume(lib, c, line).tally)
  {
    if !Blank(line) && lib.decode(line).Some? && IdentityFits(lib.decode(line).value) {
      var e := lib.decode(line).value;
      OutputKeys(lib, Counted(c), e);
      ControlKeys(OutputSeen(lib, Counted(c), e), e);
    }
  }

  /** However long the output is, what is retained of it stays within the caps. */
  lemma {:induction false} StaysBounded(lib: Library, s: Stream, p: string)
    requires WithinCaps(s)
    ensures WithinCaps(FeedAll(lib, s, p))
    decreases |p|
  {
    if p != "" {
      if p[0] == NL {
        ConsumeBounded(lib, s.core, s.line);
        KeysStayShort(lib, s.core, s.line);
      }
      StaysBounded(lib, Feed(lib, s, p[0]), p[1..]);
    }
  }

  // ---------- What was seen ----------

  /** The event of a line. */
  function EventOf(lib: Library, content: string): seq<Event> {
    if Blank(content) then [] else match lib.decode(content) case Some(e) => [e] case None => []
  }

  /** The events of the complete lines. */
  function Events(lib: Library, ls: seq<string>): seq<Event> {
    if ls == [] then []
    else if Ended(ls[0]) then EventOf(lib, Content(ls[0])) + Events(lib, ls[1..])
    else []
  }

  /** As long as nothing was lost the sets are those of the events; and a failure that was recorded
      is always real. */
  ghost predicate Agrees(lib: Library, es: seq<Event>, c: Core) {
    && (!c.incomplete ==> Tallies(lib, es, c.tally))
    && (forall k :: k in c.tally.failed ==> Fails(es, k))
  }

  lemma {:induction false} ObserveCounts(lib: Library, c: Core, e: Event)
    ensures !Observe(lib, c, e).incomplete ==> !c.incomplete && Observe(lib, c, e).tally == Count(lib, c.tally, e)
    ensures c.incomplete ==> Observe(lib, c, e).incomplete
    ensures forall k :: k in Observe(lib, c, e).tally.failed ==> k in c.tally.failed || FailsNow(e, k)
    ensures c.tally.failed <= Observe(lib, c, e).tally.failed
  {
    OutputCounts(lib, c, e);
    ControlCounts(lib, OutputSeen(lib, c, e), e);
  }

  lemma OutputCounts(lib: Library, c: Core, e: Event)
    ensures var d := OutputSeen(lib, c, e);
            && (!d.incomplete ==> !c.incomplete && d.tally == (if e.action == "output" then Count(lib, c.tally, e) else c.tally))
            && (c.incomplete ==> d.incomplete)
            && d.tally.failed == c.tally.failed
  {
    if e.pkg in c.tally.broken { assert c.tally.broken + {e.pkg} == c.tally.broken; }
  }

  lemma {:induction false} ControlCounts(lib: Library, c: Core, e: Event)
    ensures var d := ControlSeen(c, e);
            && (!d.incomplete ==> !c.incomplete && d.tally == (if e.action == "output" then c.tally else Count(lib, c.tally, e)))
            && (c.incomplete ==> d.incomplete)
            && (forall k :: k in d.tally.failed ==> k in c.tally.failed || FailsNow(e, k))
            && c.tally.failed <= d.tally.failed
  {
    var k := Key(e.pkg, e.test);
    if k in c.tally.started { assert c.tally.started + {k} == c.tally.started; }
    if k in c.tally.failed { assert c.tally.failed + {k} == c.tally.failed; }
    if e.pkg in c.tally.ran { assert c.tally.ran + {e.pkg} == c.tally.ran; }
  }

  lemma FailsMore(es: seq<Event>, more: seq<Event>, k: string)
    requires Fails(es, k)
    ensures Fails(es + more, k)
  {
    var i :| 0 <= i < |es| && FailsNow(es[i], k);
    assert FailsNow((es + more)[i], k);
  }

  lemma LineAgrees(lib: Library, es: seq<Event>, c: Core, content: string)
    requires Agrees(lib, es, c)
    ensures Agrees(lib, es + EventOf(lib, content), LineDone(lib, c, content))
  {
    var after := LineDone(lib, c, content);
    var more := EventOf(lib, content);
    if more == [] {
      assert es + more == es;
    } else {
      var e := more[0];
      ObserveCounts(lib, Counted(c), e);
      if !after.incomplete { TalliesSnoc(lib, es, c.tally, e); }
      forall k | k in after.tally.failed ensures Fails(es + more, k) {
        if k in c.tally.failed { FailsMore(es, more, k); } else { FailsSnoc(es, e, k); }
      }
    }
  }

  lemma {:induction false} LinesAgree(lib: Library, es: seq<Event>, c: Core, ls: seq<string>)
    requires Agrees(lib, es, c)
    ensures Agrees(lib, es + Events(lib, ls), LinesDone(lib, c, ls))
    decreases |ls|
  {
    if ls == [] || !Ended(ls[0]) {
      assert es + [] == es;
    } else {
      var content := Content(ls[0]);
      LineAgrees(lib, es, c, content);
      LinesAgree(lib, es + EventOf(lib, content), LineDone(lib, c, content), ls[1..]);
      assert es + EventOf(lib, content) + Events(lib, ls[1..]) == es + (EventOf(lib, content) + Events(lib, ls[1..]));
    }
  }

  // ---------- The stream refines the batch ----------

  /** The state after an output, however it was cut into writes. */
  function Final(lib: Library, text: string): Core { Finish(FeedAll(lib, FRESH, text)).core }

  function Seen(lib: Library, text: string): seq<Event> { Events(lib, LinesOf(text)) }

  lemma FinalIs(lib: Library, text: string)
    ensures var s := Accept(Stream("", false, LinesDone(lib, START, LinesOf(text))), Tail(LinesOf(text)));
            FeedAll(lib, FRESH, text) == s && Final(lib, text) == Finish(s).core
  {
    LinesOfText(text);
    FeedIsLines(lib, START, LinesOf(text));
  }

  lemma FinalAgrees(lib: Library, text: string)
    ensures Agrees(lib, Seen(lib, text), Final(lib, text))
  {
    FinalIs(lib, text);
    LinesAgree(lib, [], START, LinesOf(text));
    assert [] + Seen(lib, text) == Seen(lib, text);
  }

  /** When nothing was lost, the verdict and the failing tests are those of the batch classifier. */
  lemma StreamRefinesBatch(lib: Library, text: string)
    requires !Final(lib, text).incomplete
    ensures Classified(Final(lib, text)) == VerdictOf(lib, Seen(lib, text))
    ensures forall k :: k in Final(lib, text).tally.failed + Final(lib, text).tally.started <==> TestFails(Seen(lib, text), k)
  {
    FinalAgrees(lib, text);
    TallyDecides(lib, Seen(lib, text), Final(lib, text).tally);
  }

  /** No first failure of a test comes from a package with a NUL in its name. */
  ghost predicate FailsClean(es: seq<Event>) {
    forall i: nat :: i < |es| && FirstFail(es, i, es[i].test) ==> NUL !in es[i].pkg
  }

  /** Test by test, the name that the batch lists is the one that the stream cuts from the key exactly when
      the package of its first fail event has no NUL in its name. A test in flight has the same name in both. */
  lemma {:induction false} NamesByTest(es: seq<Event>)
    ensures FailsClean(es) <==> forall k, n :: NameFor(es, k, n) ==> NameOf(k) == n
    ensures forall k :: TestFails(es, k) ==> exists n :: NameFor(es, k, n)
  {
    if FailsClean(es) {
      forall k, n | NameFor(es, k, n) ensures NameOf(k) == n { CleanName(es, k, n); }
    } else {
      var i: nat :| i < |es| && FirstFail(es, i, es[i].test) && NUL in es[i].pkg;
      assert FailName(es, Key(es[i].pkg, es[i].test), es[i].test);
      assert NameFor(es, Key(es[i].pkg, es[i].test), es[i].test);
      NameOfKeyExactly(es[i].pkg, es[i].test);
    }
    forall k | TestFails(es, k) ensures exists n :: NameFor(es, k, n) {
      if Fails(es, k) {
        var i := FirstOf(es, k);
        assert FirstFail(es, i, es[i].test);
        assert FailName(es, k, es[i].test) && NameFor(es, k, es[i].test);
      } else {
        assert NameFor(es, k, NameOf(k));
      }
    }
  }

  lemma {:induction false} CleanName(es: seq<Event>, k: string, n: string)
    requires FailsClean(es) && NameFor(es, k, n)
    ensures NameOf(k) == n
  {
    if FailName(es, k, n) {
      var i: nat :| FirstFail(es, i, n) && Key(es[i].pkg, es[i].test) == k;
      NameOfKey(es[i].pkg, es[i].test);
    }
  }

  /** So the listed names agree too, when no first failure comes from such a package. */
  lemma {:induction false} SameNames(lib: Library, text: string, n: string)
    requires !Final(lib, text).incomplete && FailsClean(Seen(lib, text))
    ensures n in Names(Final(lib, text).tally) <==> Listed(Seen(lib, text), n)
  {
    var t, es := Final(lib, text).tally, Seen(lib, text);
    FinalAgrees(lib, text);
    NamesByTest(es);
    if n in Names(t) {
      var k :| k in t.failed + t.started && NameOf(k) == n;
      assert TestFails(es, k);
      var x :| NameFor(es, k, x);
      ListedFor(es, k, x);
    }
    if Listed(es, n) {
      var k := SomeKey(es, n);
      assert k in t.failed + t.started && NameOf(k) == n;
    }
  }

  lemma {:induction false} ListedFor(es: seq<Event>, k: string, n: string)
    requires NameFor(es, k, n)
    ensures Listed(es, n)
  {
    if FailName(es, k, n) {
      var i: nat :| FirstFail(es, i, n) && Key(es[i].pkg, es[i].test) == k;
      assert FailShown(es, n);
    }
  }

  lemma {:induction false} OneFailure(lib: Library, line: string, e: Event)
    requires Fits(line) && lib.decode(line) == Some(e) && IdentityFits(e) && e.action == "fail" && e.test != ""
    ensures !Final(lib, line + "\n").incomplete && Seen(lib, line + "\n") == [e]
    ensures Names(Final(lib, line + "\n").tally) == {NameOf(Key(e.pkg, e.test))}
  {
    var text := line + "\n";
    FinalIs(lib, text);
    FirstOfText(lib, START, line, "");
    assert line + "\n" + "" == text;
    assert EventOf(lib, line) == [e];
    var t := Final(lib, text).tally;
    assert t.started == {} && t.failed == {Key(e.pkg, e.test)};
    assert t.failed + t.started == {Key(e.pkg, e.test)};
  }

  /** With a NUL in the package name they need not: the stream cuts the key at its first NUL, the
      batch takes the name from the fail event. An output with one fail event gets the same names
      exactly when the package has no NUL in its name. */
  lemma {:induction false} NamesMayDiffer(lib: Library, line: string, e: Event)
    requires Fits(line) && lib.decode(line) == Some(e) && IdentityFits(e) && e.action == "fail" && e.test != ""
    ensures var text := line + "\n";
            !Final(lib, text).incomplete
            && (NUL !in e.pkg <==> forall n :: n in Names(Final(lib, text).tally) <==> Listed(Seen(lib, text), n))
  {
    OneFailure(lib, line, e);
    NameOfKeyExactly(e.pkg, e.test);
    forall n ensures Listed([e], n) <==> n == e.test {
      assert [e][..0] == [];
      if n == e.test { assert FirstFail([e], 0, n) && FailShown([e], n); }
    }
    assert Listed([e], e.test);
  }

  /** The first failure of a test that failed. */
  lemma {:induction false} FirstOf(es: seq<Event>, k: string) returns (i: nat)
    requires Fails(es, k)
    ensures i < |es| && FailsNow(es[i], k) && !Fails(es[..i], k)
    decreases |es|
  {
    var n := |es| - 1;
    if Fails(es[..n], k) {
      i := FirstOf(es[..n], k);
      assert es[..n][..i] == es[..i];
    } else {
      i := n;
    }
  }

  // ---------- When something was lost ----------

  lemma {:induction false} OnlyGrows(lib: Library, s: Stream, p: string)
    ensures s.core.incomplete ==> FeedAll(lib, s, p).core.incomplete
    ensures s.core.tally.failed <= FeedAll(lib, s, p).core.tally.failed
    decreases |p|
  {
    if p != "" {
      var next := Feed(lib, s, p[0]);
      if p[0] == NL && !s.dropping && !Blank(s.line) && lib.decode(s.line).Some? {
        ObserveCounts(lib, Counted(s.core), lib.decode(s.line).value);
      }
      OnlyGrows(lib, next, p[1..]);
    }
  }

  /** A failure once recorded decides the verdict under every continuation. */
  lemma FailureSticks(lib: Library, p: string, q: string)
    requires FeedAll(lib, FRESH, p).core.tally.failed != {}
    ensures Classified(Final(lib, p + q)) == Killed
    ensures FeedAll(lib, FRESH, p).core.tally.failed <= Final(lib, p + q).tally.failed
  {
    FeedConcat(lib, FRESH, p, q);
    OnlyGrows(lib, FeedAll(lib, FRESH, p), q);
    var k :| k in FeedAll(lib, FRESH, p).core.tally.failed;
    assert k in Final(lib, p + q).tally.failed;
  }

  /** A recorded failure is real, whatever was lost. */
  lemma FailureIsReal(lib: Library, text: string)
    requires Final(lib, text).tally.failed != {}
    ensures VerdictOf(lib, Seen(lib, text)) == Killed
    ensures forall k :: k in Final(lib, text).tally.failed ==> Fails(Seen(lib, text), k)
  {
    FinalAgrees(lib, text);
    var k :| k in Final(lib, text).tally.failed;
    assert TestFails(Seen(lib, text), k);
  }

  /** Once something is lost the verdict is never INVALID; and when it is INVALID the events say so. */
  lemma InvalidIsReal(lib: Library, p: string, q: string)
    ensures FeedAll(lib, FRESH, p).core.incomplete ==> Classified(Final(lib, p + q)) != Invalid
    ensures Classified(Final(lib, p)) == Invalid ==> VerdictOf(lib, Seen(lib, p)) == Invalid
  {
    FeedConcat(lib, FRESH, p, q);
    OnlyGrows(lib, FeedAll(lib, FRESH, p), q);
    if Classified(Final(lib, p)) == Invalid { StreamRefinesBatch(lib, p); }
  }

  // ---------- When nothing is lost ----------

  /** A complete line that is kept: it fits, and it is blank or decodes to an event with short names. */
  predicate LineFits(lib: Library, content: string) {
    && |content| <= 262144
    && (Blank(content) || match lib.decode(content) case Some(e) => |e.pkg| <= 512 && |e.test| <= 512 case None => false)
  }

  predicate TextFits(lib: Library, ls: seq<string>) {
    (forall i :: 0 <= i < |ls| && Ended(ls[i]) ==> LineFits(lib, Content(ls[i]))) && Blank(Tail(ls)) && |Tail(ls)| <= 262144
  }

  /** The tests and packages that the events name. */
  function Tests(es: seq<Event>): set<string> { set e | e in es :: Key(e.pkg, e.test) }
  function Packages(es: seq<Event>): set<string> { set e | e in es :: e.pkg }

  predicate Within(t: Tally, tests: set<string>, pkgs: set<string>) {
    t.started <= tests && t.failed <= tests && t.ran <= pkgs && t.broken <= pkgs
  }

  lemma SubsetSize(a: set<string>, b: set<string>)
    requires a <= b
    ensures |a| <= |b|
    decreases |a|
  {
    if a != {} {
      var x :| x in a;
      SubsetSize(a - {x}, b - {x});
    }
  }

  lemma TrackFits(m: set<string>, key: string, all: set<string>)
    requires m <= all && key in all && |all| <= MAX_TRACKED
    ensures Track(m, key).0 && Track(m, key).1 <= all
  {
    if key !in m {
      SubsetSize(m + {key}, all);
    }
  }

  lemma {:induction false} ObserveFits(lib: Library, c: Core, e: Event, tests: set<string>, pkgs: set<string>)
    requires !c.incomplete && Within(c.tally, tests, pkgs) && |tests| <= MAX_TRACKED && |pkgs| <= MAX_TRACKED
    requires Key(e.pkg, e.test) in tests && e.pkg in pkgs
    ensures !Observe(lib, c, e).incomplete && Within(Observe(lib, c, e).tally, tests, pkgs)
  {
    var k := Key(e.pkg, e.test);
    TrackFits(c.tally.broken, e.pkg, pkgs);
    TrackFits(c.tally.ran, e.pkg, pkgs);
    TrackFits(c.tally.started, k, tests);
    TrackFits(c.tally.failed, k, tests);
  }

  lemma {:induction false} LinesFit(lib: Library, c: Core, ls: seq<string>, tests: set<string>, pkgs: set<string>)
    requires forall i :: 0 <= i < |ls| && Ended(ls[i]) ==> LineFits(lib, Content(ls[i]))
    requires !c.incomplete && Within(c.tally, tests, pkgs) && |tests| <= MAX_TRACKED && |pkgs| <= MAX_TRACKED
    requires Tests(Events(lib, ls)) <= tests && Packages(Events(lib, ls)) <= pkgs
    ensures !LinesDone(lib, c, ls).incomplete
    decreases |ls|
  {
    if ls != [] && Ended(ls[0]) {
      var content := Content(ls[0]);
      var es := Events(lib, ls);
      assert LineFits(lib, content);
      forall e | e in Events(lib, ls[1..]) ensures e in es {}
      assert Tests(Events(lib, ls[1..])) <= Tests(es) && Packages(Events(lib, ls[1..])) <= Packages(es);
      if !Blank(content) {
        var e := lib.decode(content).value;
        assert EventOf(lib, content) == [e] && e in es;
        assert Key(e.pkg, e.test) in Tests(es) && e.pkg in Packages(es);
        ObserveFits(lib, Counted(c), e, tests, pkgs);
      }
      LinesFit(lib, LineDone(lib, c, content), ls[1..], tests, pkgs);
    }
  }

  /** Nothing is lost of an output whose lines all fit and which names few enough tests. */
  lemma NothingLost(lib: Library, text: string)
    requires TextFits(lib, LinesOf(text))
    requires |Tests(Seen(lib, text))| <= 8192 && |Packages(Seen(lib, text))| <= 8192
    ensures !Final(lib, text).incomplete
  {
    FinalIs(lib, text);
    LinesFit(lib, START, LinesOf(text), Tests(Seen(lib, text)), Packages(Seen(lib, text)));
    assert "" + Tail(LinesOf(text)) == Tail(LinesOf(text));
  }

  // ---------- What a loss can do ----------

  predicate Fits(content: string) { NL !in content && |content| <= MAX_LINE && !Blank(content) }

  lemma FirstLine(a: string, rest: string)
    requires NL !in a
    ensures LinesOf(a + "\n" + rest) == [a + "\n"] + LinesOf(rest)
  {
    var s := a + "\n" + rest;
    assert IsLine(a + "\n") by { forall i | 0 <= i < |a| ensures a[i] != NL { assert a[i] in a; } }
    FirstBreak(a + "\n", rest);
    assert s[..|a| + 1] == a + "\n" && s[|a| + 1..] == rest;
  }

  lemma DoneFirst(lib: Library, c: Core, a: string, ls: seq<string>)
    ensures LinesDone(lib, c, [a + "\n"] + ls) == LinesDone(lib, LineDone(lib, c, a), ls)
    ensures Events(lib, [a + "\n"] + ls) == EventOf(lib, a) + Events(lib, ls)
  {
    assert Content(a + "\n") == a;
    assert ([a + "\n"] + ls)[1..] == ls;
  }

  lemma {:induction false} FirstOfText(lib: Library, c: Core, x: string, rest: string)
    requires NL !in x
    ensures LinesDone(lib, c, LinesOf(x + "\n" + rest)) == LinesDone(lib, LineDone(lib, c, x), LinesOf(rest))
    ensures Events(lib, LinesOf(x + "\n" + rest)) == EventOf(lib, x) + Events(lib, LinesOf(rest))
    ensures Tail(LinesOf(x + "\n" + rest)) == Tail(LinesOf(rest))
  {
    FirstLine(x, rest);
    DoneFirst(lib, c, x, LinesOf(rest));
    assert Ended(x + "\n");
  }
}
