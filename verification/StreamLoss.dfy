/** What the streaming classifier says after something was lost: when its KILLED is certain. */
module StreamLoss {
  import opened Base
  import opened Lines
  import opened TestEvents
  import opened JsonStream
  import opened StreamTheorems

  // ---------- Lists of complete lines ----------

  ghost predicate AllEnded(ls: seq<string>) { forall i :: 0 <= i < |ls| ==> IsLine(ls[i]) && Ended(ls[i]) }

  lemma {:induction false} Appended(lib: Library, c: Core, a: seq<string>, b: seq<string>)
    requires AllEnded(a)
    ensures LinesDone(lib, c, a + b) == LinesDone(lib, LinesDone(lib, c, a), b)
    ensures Events(lib, a + b) == Events(lib, a) + Events(lib, b)
    decreases |a|
  {
    if a == [] {
      assert a + b == b;
    } else {
      assert (a + b)[1..] == a[1..] + b;
      Appended(lib, LineDone(lib, c, Content(a[0])), a[1..], b);
    }
  }

  /** The text made of complete lines. */
  lemma {:induction false} TextOf(lib: Library, ls: seq<string>)
    requires AllEnded(ls)
    ensures Seen(lib, Flatten(ls)) == Events(lib, ls)
    ensures Final(lib, Flatten(ls)) == LinesDone(lib, START, ls)
  {
    LinesOfFlat(ls);
    FinalIs(lib, Flatten(ls));
    assert Tail(ls) == "";
    assert "" + Tail(ls) == "";
  }

  // ---------- The lines that count ----------

  /** A line that is observed. */
  predicate Observed(lib: Library, content: string) {
    |content| <= MAX_LINE && !Blank(content) && lib.decode(content).Some? && IdentityFits(lib.decode(content).value)
  }

  /** The complete lines that are observed. */
  function ObservedLines(lib: Library, ls: seq<string>): seq<string> {
    if ls == [] || !Ended(ls[0]) then []
    else (if Observed(lib, Content(ls[0])) then [ls[0]] else []) + ObservedLines(lib, ls[1..])
  }

  lemma {:induction false} OutputTally(lib: Library, c: Core, d: Core, e: Event)
    requires c.tally == d.tally
    ensures OutputSeen(lib, c, e).tally == OutputSeen(lib, d, e).tally
  {
  }

  lemma {:induction false} ControlTally(c: Core, d: Core, e: Event)
    requires c.tally == d.tally
    ensures ControlSeen(c, e).tally == ControlSeen(d, e).tally
  {
  }

  lemma {:induction false} KeptTally(c: Core, e: Event)
    ensures Kept(c, e).tally == c.tally
  {
  }

  /** The other lines do not change the four sets. */
  lemma {:induction false} SameTally(lib: Library, c: Core, d: Core, content: string)
    requires c.tally == d.tally
    ensures LineDone(lib, c, content).tally == LineDone(lib, d, content).tally
    ensures !Observed(lib, content) ==> LineDone(lib, c, content).tally == c.tally
  {
    if Observed(lib, content) {
      var e := lib.decode(content).value;
      var cs, ds := OutputSeen(lib, Counted(c), e), OutputSeen(lib, Counted(d), e);
      OutputTally(lib, Counted(c), Counted(d), e);
      ControlTally(cs, ds, e);
      KeptTally(ControlSeen(cs, e), e);
      KeptTally(ControlSeen(ds, e), e);
    }
  }

  lemma {:induction false} OnlyObservedCount(lib: Library, c: Core, d: Core, ls: seq<string>)
    requires Wf(ls) && c.tally == d.tally
    ensures AllEnded(ObservedLines(lib, ls))
    ensures LinesDone(lib, d, ObservedLines(lib, ls)).tally == LinesDone(lib, c, ls).tally
    decreases |ls|
  {
    if ls != [] && Ended(ls[0]) {
      var content, rest := Content(ls[0]), ObservedLines(lib, ls[1..]);
      SameTally(lib, c, d, content);
      WfPart(ls, 1, |ls|);
      if Observed(lib, content) {
        OnlyObservedCount(lib, LineDone(lib, c, content), LineDone(lib, d, content), ls[1..]);
        assert ([ls[0]] + rest)[1..] == rest;
      } else {
        OnlyObservedCount(lib, LineDone(lib, c, content), d, ls[1..]);
        assert [] + rest == rest;
      }
    }
  }

  // ---------- No failure is recorded of observed lines exactly when there is none ----------

  predicate Harmless(es: seq<Event>) { forall i :: 0 <= i < |es| ==> !(es[i].action == "fail" && es[i].test != "") }

  lemma {:induction false} FailureRecorded(lib: Library, c: Core, e: Event)
    requires e.action == "fail" && e.test != ""
    ensures Observe(lib, c, e).tally.failed != {}
  {
    var k := Key(e.pkg, e.test);
    var d := OutputSeen(lib, c, e);
    assert k in MarkFail(d, e).tally.failed || |d.tally.failed| >= MAX_TRACKED;
    assert MarkFail(d, e).tally.failed != {};
  }

  lemma {:induction false} FailedGrows(lib: Library, c: Core, ls: seq<string>)
    ensures c.tally.failed <= LinesDone(lib, c, ls).tally.failed
    decreases |ls|
  {
    if ls != [] && Ended(ls[0]) {
      var content := Content(ls[0]);
      if Observed(lib, content) {
        ObserveCounts(lib, Counted(c), lib.decode(content).value);
      } else {
        SameTally(lib, c, c, content);
      }
      FailedGrows(lib, LineDone(lib, c, content), ls[1..]);
    }
  }

  lemma {:induction false} NoFailureSeen(lib: Library, c: Core, ls: seq<string>)
    requires Wf(ls) && LinesDone(lib, c, ls).tally.failed == {}
    ensures Harmless(Events(lib, ObservedLines(lib, ls)))
    decreases |ls|
  {
    if ls != [] && Ended(ls[0]) {
      var content, rest := Content(ls[0]), ObservedLines(lib, ls[1..]);
      WfPart(ls, 1, |ls|);
      NoFailureSeen(lib, LineDone(lib, c, content), ls[1..]);
      if Observed(lib, content) {
        var e := lib.decode(content).value;
        FailedGrows(lib, LineDone(lib, c, content), ls[1..]);
        if e.action == "fail" && e.test != "" { FailureRecorded(lib, Counted(c), e); }
        assert ([ls[0]] + rest)[1..] == rest;
        assert Events(lib, [ls[0]] + rest) == [e] + Events(lib, rest);
      } else {
        assert [] + rest == rest;
      }
    }
  }

  // ---------- Lines that are too long ----------

  predicate TooLong(line: string) { |line| > MAX_LINE && NL !in line && !Blank(line) }

  predicate PassOf(x: Event, pkg: string, test: string) { x.action == "pass" && x.pkg == pkg && x.test == test }

  predicate SummaryOf(lib: Library, x: Event) { x.action == "output" && x.test == "" && lib.summary(x.output) }

  /** The line is too long, and would have settled the test. */
  predicate LongPass(lib: Library, line: string, pkg: string, test: string) {
    TooLong(line) && lib.decode(line).Some? && PassOf(lib.decode(line).value, pkg, test)
  }

  predicate LongSummary(lib: Library, line: string, pkgs: set<string>) {
    TooLong(line) && lib.decode(line).Some? && SummaryOf(lib, lib.decode(line).value) && lib.decode(line).value.pkg !in pkgs
  }

  ghost predicate CanLosePass(lib: Library, e: Event) { exists line :: LongPass(lib, line, e.pkg, e.test) }

  ghost predicate CanLoseSummary(lib: Library, pkgs: set<string>) { exists line :: LongSummary(lib, line, pkgs) }

  /** Nothing but their length is wrong with some lines: a test of which an event can be written has a
      pass event on a line that is too long, and so has the failure summary of yet another package. */
  ghost predicate Verbose(lib: Library) {
    && (forall l :: lib.decode(l).Some? && lib.decode(l).value.test != "" ==> CanLosePass(lib, lib.decode(l).value))
    && (forall pkgs: set<string> :: CanLoseSummary(lib, pkgs))
  }

  lemma {:induction false} LongPassOf(lib: Library, l: string, e: Event) returns (line: string)
    requires Verbose(lib) && lib.decode(l) == Some(e) && e.test != ""
    ensures LongPass(lib, line, e.pkg, e.test)
  {
    assert CanLosePass(lib, e);
    line :| LongPass(lib, line, e.pkg, e.test);
  }

  lemma {:induction false} LongSummaryOf(lib: Library, pkgs: set<string>) returns (line: string, b: Event)
    requires Verbose(lib)
    ensures TooLong(line) && lib.decode(line) == Some(b) && SummaryOf(lib, b) && b.pkg !in pkgs
  {
    assert CanLoseSummary(lib, pkgs);
    line :| LongSummary(lib, line, pkgs);
    b := lib.decode(line).value;
  }

  /** The events of the lines are all passes, and none of the lines is observed. */
  ghost predicate LostPasses(lib: Library, ls: seq<string>) {
    AllEnded(ls) && forall i :: 0 <= i < |ls| ==> TooLong(Content(ls[i])) && lib.decode(Content(ls[i])).Some?
                                                   && lib.decode(Content(ls[i])).value.action == "pass"
  }

  lemma {:induction false} LongLinesDone(lib: Library, c: Core, ls: seq<string>)
    requires forall i :: 0 <= i < |ls| ==> Ended(ls[i]) && |Content(ls[i])| > MAX_LINE
    ensures LinesDone(lib, c, ls).tally == c.tally && (ls != [] ==> LinesDone(lib, c, ls).incomplete)
    ensures c.incomplete ==> LinesDone(lib, c, ls).incomplete
    decreases |ls|
  {
    if ls != [] { LongLinesDone(lib, LineDone(lib, c, Content(ls[0])), ls[1..]); }
  }

  lemma {:induction false} PassesOnly(lib: Library, ls: seq<string>)
    requires LostPasses(lib, ls)
    ensures forall x :: x in Events(lib, ls) ==> x.action == "pass"
    decreases |ls|
  {
    if ls != [] {
      PassesOnly(lib, ls[1..]);
      assert Events(lib, ls) == [lib.decode(Content(ls[0])).value] + Events(lib, ls[1..]);
    }
  }

  /** Every test of the events has a pass. */
  predicate Settled(es: seq<Event>, passes: seq<Event>) {
    forall i :: 0 <= i < |es| && es[i].test != "" ==> SettledBy(passes, es[i].pkg, es[i].test)
  }

  predicate SettledBy(passes: seq<Event>, pkg: string, test: string) {
    exists j :: 0 <= j < |passes| && PassOf(passes[j], pkg, test)
  }

  lemma {:induction false} LinesFound(lib: Library, ls: seq<string>, i: nat) returns (l: string)
    requires i < |Events(lib, ls)|
    ensures lib.decode(l) == Some(Events(lib, ls)[i])
    decreases |ls|
  {
    var first := EventOf(lib, Content(ls[0]));
    if i < |first| { l := Content(ls[0]); } else { l := LinesFound(lib, ls[1..], i - |first|); }
  }

  lemma {:induction false} NothingToSettle(es: seq<Event>, e: Event, passes: seq<Event>)
    requires Settled(es, passes) && e.test == ""
    ensures Settled(es + [e], passes)
  {
  }

  /** One more event: its test gets a lost pass. */
  lemma {:induction false} LoseOne(lib: Library, lost: seq<string>, es: seq<Event>, l: string, e: Event) returns (more: seq<string>)
    requires Verbose(lib) && LostPasses(lib, lost) && Settled(es, Events(lib, lost)) && lib.decode(l) == Some(e)
    ensures LostPasses(lib, more) && Settled(es + [e], Events(lib, more))
  {
    if e.test == "" {
      more := lost;
      NothingToSettle(es, e, Events(lib, lost));
    } else {
      var line := LongPassOf(lib, l, e);
      more := OneMorePass(lib, lost, es, line, e);
    }
  }

  lemma {:induction false} LoseNext(lib: Library, ls: seq<string>, n: nat, lost: seq<string>) returns (more: seq<string>)
    requires Verbose(lib) && LostPasses(lib, lost) && n < |Events(lib, ls)| && Settled(Events(lib, ls)[..n], Events(lib, lost))
    ensures LostPasses(lib, more) && Settled(Events(lib, ls)[..n + 1], Events(lib, more))
  {
    var es := Events(lib, ls);
    var l := LinesFound(lib, ls, n);
    more := LoseOne(lib, lost, es[..n], l, es[n]);
    assert es[..n + 1] == es[..n] + [es[n]];
  }

  /** Lost passes for all tests of the first n events. */
  lemma {:induction false} LosePasses(lib: Library, ls: seq<string>, n: nat) returns (lost: seq<string>)
    requires Verbose(lib) && n <= |Events(lib, ls)|
    ensures LostPasses(lib, lost) && Settled(Events(lib, ls)[..n], Events(lib, lost))
    decreases n
  {
    lost := [];
    if n > 0 {
      lost := LosePasses(lib, ls, n - 1);
      lost := LoseNext(lib, ls, n - 1, lost);
    }
  }

  lemma {:induction false} OneMorePass(lib: Library, lost: seq<string>, es: seq<Event>, line: string, e: Event) returns (more: seq<string>)
    requires LostPasses(lib, lost) && Settled(es, Events(lib, lost)) && LongPass(lib, line, e.pkg, e.test)
    ensures LostPasses(lib, more) && Settled(es + [e], Events(lib, more))
  {
    more := lost + [line + "\n"];
    assert Content(line + "\n") == line;
    assert IsLine(line + "\n") by { forall i | 0 <= i < |line| ensures line[i] != NL { assert line[i] in line; } }
    Appended(lib, START, lost, [line + "\n"]);
    var x := lib.decode(line).value;
    assert Events(lib, [line + "\n"]) == [x] by { assert [line + "\n"][1..] == []; }
    var before, all := Events(lib, lost), Events(lib, more);
    assert all == before + [x];
    forall i | 0 <= i < |es + [e]| && (es + [e])[i].test != ""
      ensures SettledBy(all, (es + [e])[i].pkg, (es + [e])[i].test) {
      if i < |es| {
        assert SettledBy(before, es[i].pkg, es[i].test);
        var j :| 0 <= j < |before| && PassOf(before[j], es[i].pkg, es[i].test);
        assert PassOf(all[j], es[i].pkg, es[i].test);
      } else {
        assert PassOf(all[|before|], e.pkg, e.test);
      }
    }
  }

  // ---------- What the events of such a text say ----------

  /** No failure, every test settled, and a package that broke before any test of its own: the events
      say INVALID. */
  lemma {:induction false} SaysInvalid(lib: Library, es: seq<Event>, passes: seq<Event>, b: Event)
    requires Harmless(es) && Settled(es, passes) && (forall x :: x in passes ==> x.action == "pass")
    requires SummaryOf(lib, b) && b.pkg !in Packages(es)
    ensures VerdictOf(lib, es + passes + [b]) == Invalid
  {
    var all := es + passes + [b];
    forall i | 0 <= i < |all| ensures all[i] == (if i < |es| then es[i] else if i < |es| + |passes| then passes[i - |es|] else b) {}
    forall k ensures !Fails(all, k) && !InFlight(all, k) {
      forall i | 0 <= i < |all| ensures !FailsNow(all[i], k) {}
      forall i | 0 <= i < |all| && Runs(all[i], k) ensures exists j :: i < j < |all| && Settles(all[j], k) {
        assert i < |es| && SettledBy(passes, es[i].pkg, es[i].test);
        var j :| 0 <= j < |passes| && PassOf(passes[j], es[i].pkg, es[i].test);
        assert Settles(all[|es| + j], k);
      }
    }
    assert Breaks(lib, all[|all| - 1], b.pkg);
    assert Broken(lib, all, b.pkg);
    forall i | 0 <= i < |all| ensures !StartsIn(all[i], b.pkg) {
      if i < |es| { assert es[i] in es && es[i].pkg in Packages(es); }
    }
    assert !Ran(all, b.pkg);
    forall k ensures !TestFails(all, k) {}
  }

  // ---------- When KILLED is certain ----------

  /** What a caller sees: nothing was lost, or a failure is recorded. */
  predicate Certain(c: Core) { !c.incomplete || c.tally.failed != {} }

  /** Two outputs with the same outcome: the stream keeps the same sets of them, and of both or neither
      it lost something. */
  predicate SameOutcome(lib: Library, text: string, other: string) {
    Final(lib, text).tally == Final(lib, other).tally && Final(lib, text).incomplete == Final(lib, other).incomplete
  }

  /** When the condition holds, a KILLED is right. */
  lemma {:induction false} CertainIsRight(lib: Library, text: string)
    requires Certain(Final(lib, text)) && Classified(Final(lib, text)) == Killed
    ensures VerdictOf(lib, Seen(lib, text)) == Killed
  {
    if !Final(lib, text).incomplete { StreamRefinesBatch(lib, text); } else { FailureIsReal(lib, text); }
  }

  /** When it does not, another output has the same outcome, and its events say INVALID. */
  lemma {:induction false} UncertainMayBeWrong(lib: Library, text: string) returns (other: string)
    requires Verbose(lib) && !Certain(Final(lib, text))
    ensures SameOutcome(lib, text, other) && VerdictOf(lib, Seen(lib, other)) == Invalid
  {
    var ls := LinesOf(text);
    LinesOfText(text);
    FinalIs(lib, text);
    var kept := ObservedLines(lib, ls);
    OnlyObservedCount(lib, START, START, ls);
    NoFailureSeen(lib, START, ls);
    var es := Events(lib, kept);
    var lost := LosePasses(lib, kept, |es|);
    assert es[..|es|] == es;
    PassesOnly(lib, lost);
    var line, b := LongSummaryOf(lib, Packages(es));
    other := Loses(lib, kept, lost, line);
    SaysInvalid(lib, es, Events(lib, lost), b);
  }

  /** The text of observed lines, followed by lines that are too long. */
  lemma {:induction false} Loses(lib: Library, kept: seq<string>, lost: seq<string>, line: string) returns (text: string)
    requires AllEnded(kept) && LostPasses(lib, lost) && TooLong(line) && lib.decode(line).Some?
    ensures Final(lib, text).tally == LinesDone(lib, START, kept).tally && Final(lib, text).incomplete
    ensures Seen(lib, text) == Events(lib, kept) + Events(lib, lost) + [lib.decode(line).value]
  {
    var last := [line + "\n"];
    assert Content(line + "\n") == line;
    assert IsLine(line + "\n") by { forall i | 0 <= i < |line| ensures line[i] != NL { assert line[i] in line; } }
    text := Flatten(kept + lost + last);
    TextOf(lib, kept + lost + last);
    Appended(lib, START, kept, lost);
    Appended(lib, START, kept + lost, last);
    var c := LinesDone(lib, START, kept);
    LongLinesDone(lib, c, lost);
    LongLinesDone(lib, LinesDone(lib, c, lost), last);
    assert last[1..] == [];
    assert Events(lib, last) == [lib.decode(line).value];
  }

  /** A KILLED is certain exactly when nothing was lost or a failure is recorded: then the events say
      KILLED, and otherwise the outcome is one that an output without any failing test has, too. */
  lemma {:induction false} KilledIsCertain(lib: Library, text: string)
    requires Verbose(lib) && Classified(Final(lib, text)) == Killed
    ensures Certain(Final(lib, text))
            <==> forall other :: SameOutcome(lib, text, other) ==> VerdictOf(lib, Seen(lib, other)) == Killed
  {
    if Certain(Final(lib, text)) {
      forall other | SameOutcome(lib, text, other) ensures VerdictOf(lib, Seen(lib, other)) == Killed {
        CertainIsRight(lib, other);
      }
    } else {
      var other := UncertainMayBeWrong(lib, text);
      assert SameOutcome(lib, text, other);
    }
  }

  // ---------- The hypotheses can be met ----------

  /** Decodes one run event, and on lines that are too long its pass and summaries of any package. */
  function ToyDecode(line: string): Option<Event> {
    if line == "r" then Some(Event("run", "p", "t", ""))
    else if |line| <= MAX_LINE then None
    else if line[0] == 'P' then Some(Event("pass", "p", "t", ""))
    else Some(Event("output", line, "", ""))
  }

  function Toy(): Library { Library(ToyDecode, (s: string) => true, (s: string) => false) }

  function Repeat(n: nat, c: char): string { seq(n, i => c) }

  lemma {:induction false} LongerThanAll(pkgs: set<string>) returns (n: nat)
    ensures forall p :: p in pkgs ==> |p| <= n
    decreases |pkgs|
  {
    n := 0;
    if pkgs != {} {
      var q :| q in pkgs;
      var m := LongerThanAll(pkgs - {q});
      n := if |q| > m then |q| else m;
    }
  }

  lemma {:induction false} LongLine(n: nat, c: char)
    requires n > MAX_LINE && (c == 'P' || c == 'S')
    ensures TooLong(Repeat(n, c)) && Repeat(n, c)[0] == c
  {
    assert !IsSpace(Repeat(n, c)[0]);
    assert forall i :: 0 <= i < n ==> Repeat(n, c)[i] == c;
  }

  lemma {:induction false} ToyIsVerbose()
    ensures Verbose(Toy())
  {
    forall l | Toy().decode(l).Some? && Toy().decode(l).value.test != "" ensures CanLosePass(Toy(), Toy().decode(l).value) {
      LongLine(MAX_LINE + 1, 'P');
      assert LongPass(Toy(), Repeat(MAX_LINE + 1, 'P'), "p", "t");
    }
    forall pkgs: set<string> ensures CanLoseSummary(Toy(), pkgs) {
      var n := LongerThanAll(pkgs);
      LongLine(n + MAX_LINE + 1, 'S');
      assert LongSummary(Toy(), Repeat(n + MAX_LINE + 1, 'S'), pkgs);
    }
  }

  lemma {:induction false} RunThenCut(lib: Library)
    requires lib == Toy()
    ensures LinesDone(lib, START, LinesOf("r" + "\n" + "x")) == LineDone(lib, START, "r")
    ensures Tail(LinesOf("r" + "\n" + "x")) == "x"
  {
    FirstOfText(lib, START, "r", "x");
    assert LinesOf("x") == ["x"];
  }

  lemma {:induction false} RunStarts(lib: Library)
    requires lib == Toy()
    ensures Key("p", "t") in LineDone(lib, START, "r").tally.started && LineDone(lib, START, "r").tally.failed == {}
  {
    assert !Blank("r") by { assert !IsSpace("r"[0]); }
    assert lib.decode("r") == Some(Event("run", "p", "t", ""));
  }

  lemma {:induction false} RunThenLoss(lib: Library, text: string)
    requires lib == Toy() && text == "r" + "\n" + "x"
    ensures Classified(Final(lib, text)) == Killed && !Certain(Final(lib, text))
  {
    FinalIs(lib, text);
    RunThenCut(lib);
    RunStarts(lib);
    assert !Blank("x") by { assert !IsSpace("x"[0]); }
    assert "" + "x" == "x";
  }

  /** There are outputs whose KILLED is not certain. */
  lemma {:induction false} LossHappens() returns (lib: Library, text: string)
    ensures Verbose(lib) && Classified(Final(lib, text)) == Killed && !Certain(Final(lib, text))
  {
    lib, text := Toy(), "r" + "\n" + "x";
    RunThenLoss(lib, text);
    ToyIsVerbose();
  }

  // ---------- One such story ----------

  /** Three complete lines, one after the other. */
  lemma {:induction false} ThreeLines(lib: Library, c0: Core, x: string, y: string, z: string)
    requires NL !in x && NL !in y && NL !in z
    ensures var ls := LinesOf(x + "\n" + (y + "\n" + (z + "\n")));
            LinesDone(lib, c0, ls) == LineDone(lib, LineDone(lib, LineDone(lib, c0, x), y), z)
            && Events(lib, ls) == EventOf(lib, x) + (EventOf(lib, y) + EventOf(lib, z)) && Tail(ls) == ""
  {
    var c1 := LineDone(lib, c0, x);
    var c2 := LineDone(lib, c1, y);
    var two, one := y + "\n" + (z + "\n"), z + "\n";
    FirstOfText(lib, c0, x, two);
    FirstOfText(lib, c1, y, one);
    FirstOfText(lib, c2, z, "");
    assert z + "\n" + "" == one;
    assert EventOf(lib, z) + [] == EventOf(lib, z);
  }

  lemma StoryIsInvalid(lib: Library, r: Event, s: Event, b: Event)
    requires r.action == "run" && r.test != "" && s == r.(action := "pass", output := s.output)
    requires b.action == "output" && b.test == "" && lib.summary(b.output) && b.pkg != r.pkg
    ensures VerdictOf(lib, [r] + ([s] + [b])) == Invalid
  {
    var t1 := Count(lib, EMPTY, r);
    var t2 := Count(lib, t1, s);
    var t3 := Count(lib, t2, b);
    var es1: seq<Event> := [] + [r];
    var es2 := es1 + [s];
    var es3 := es2 + [b];
    TalliesSnoc(lib, [], EMPTY, r);
    TalliesSnoc(lib, es1, t1, s);
    TalliesSnoc(lib, es2, t2, b);
    assert es3 == [r] + ([s] + [b]);
    TallyDecides(lib, es3, t3);
    assert t3.broken == {b.pkg} && t3.ran == {r.pkg} && t3.failed == {};
    assert t3.started == {};
  }

  /** A test in flight when the end of its story was lost counts as failed: a line that is too long
      takes the pass event with it, and the stream says KILLED where the events say INVALID. */
  lemma LostPass(lib: Library, run: string, pass: string, broken: string, r: Event, s: Event, b: Event)
    requires Fits(run) && Fits(broken) && NL !in pass && !Blank(pass) && |pass| > MAX_LINE
    requires lib.decode(run) == Some(r) && lib.decode(pass) == Some(s) && lib.decode(broken) == Some(b)
    requires r.action == "run" && r.test != "" && s == r.(action := "pass", output := s.output) && IdentityFits(r)
    requires b.action == "output" && b.test == "" && lib.summary(b.output) && b.pkg != r.pkg
    ensures var text := run + "\n" + (pass + "\n" + (broken + "\n"));
            Classified(Final(lib, text)) == Killed && VerdictOf(lib, Seen(lib, text)) == Invalid
  {
    var text := run + "\n" + (pass + "\n" + (broken + "\n"));
    FinalIs(lib, text);
    ThreeLines(lib, START, run, pass, broken);
    assert Seen(lib, text) == [r] + ([s] + [b]);
    StoryIsInvalid(lib, r, s, b);
    var c1 := LineDone(lib, START, run);
    assert Key(r.pkg, r.test) in c1.tally.started;
    var c2 := c1.(incomplete := true);
    StillStarted(lib, c2, broken, b, Key(r.pkg, r.test));
  }

  lemma StillStarted(lib: Library, c: Core, line: string, b: Event, k: string)
    requires k in c.tally.started && Fits(line) && lib.decode(line) == Some(b) && b.action == "output"
    ensures k in LineDone(lib, c, line).tally.started
  {
  }
}
