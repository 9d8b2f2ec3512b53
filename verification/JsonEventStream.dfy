/** The consumer as the source writes it: an object whose methods update the line buffer, the flags
    and the tracking sets in place. */
module JsonEventStream {
  import opened Base
  import opened Lines
  import opened Sorting
  import opened Lex
  import opened TestEvents
  import opened JsonStream

  class BoundedText {
    const limit: nat
    var data: string
    var total: nat

    constructor (limit: nat)
      ensures Value() == Bounded(limit, "", 0)
    {
      this.limit := limit;
      data, total := "", 0;
    }

    function Value(): Bounded reads this { Bounded(limit, data, total) }

    method Write(p: string)
      modifies this
      ensures Value() == Append(old(Value()), p)
    {
      total := (total + |p|) % U64;
      var avail := limit - |data|;
      if avail > 0 {
        if avail > |p| {
          avail := |p|;
        }
        data := data + p[..avail];
      }
    }
  }

  class EventStream {
    const lib: Library
    const display: BoundedText
    var line: string
    var dropping: bool
    var incomplete: bool
    var eventCount: nat
    var evidence: seq<Event>
    var evidenceBytes: nat
    var evidenceTruncated: bool
    var timeoutHeader: bool
    var started: set<string>
    var failed: set<string>
    var pkgRan: set<string>
    var pkgBuildFailed: set<string>

    constructor (lib: Library)
      ensures this.lib == lib && fresh(display) && State() == FRESH
    {
      this.lib := lib;
      display := new BoundedText(MAX_OUTPUT);
      line, dropping, incomplete, eventCount := "", false, false, 0;
      evidence, evidenceBytes, evidenceTruncated, timeoutHeader := [], 0, false, false;
      started, failed, pkgRan, pkgBuildFailed := {}, {}, {}, {};
    }

    function Counts(): Tally reads this { Tally(started, failed, pkgRan, pkgBuildFailed) }

    function Inner(): Core
      reads this, display
    {
      Core(incomplete, eventCount, display.Value(), evidence, evidenceBytes, evidenceTruncated, timeoutHeader, Counts())
    }

    function State(): Stream
      reads this, display
    {
      Stream(line, dropping, Inner())
    }

    /** Consumes any part of the output. */
    method Write(p0: string) returns (n: nat)
      requires |line| <= JsonStream.MAX_LINE
      modifies this, display
      ensures n == |p0| && State() == FeedAll(lib, old(State()), p0)
      ensures |line| <= JsonStream.MAX_LINE
    {
      var p := p0;
      while p != ""
        invariant |line| <= JsonStream.MAX_LINE
        invariant FeedAll(lib, State(), p) == FeedAll(lib, old(State()), p0)
        decreases |p|
      {
        ghost var s := State();
        match IndexNL(p) {
          case None =>
            AcceptIsFeed(lib, s, p);
            AcceptBytes(p);
            p := "";
          case Some(i) =>
            SplitAtNL(lib, s, p, i);
            AcceptBytes(p[..i]);
            if !dropping {
              ConsumeLine(line);
            }
            line := "";
            dropping := false;
            p := p[i + 1..];
        }
      }
      n := |p0|;
    }

    method AcceptBytes(p: string)
      requires |line| <= JsonStream.MAX_LINE
      modifies this`line, this`dropping, this`incomplete
      ensures State() == Accept(old(State()), p)
      ensures |line| <= JsonStream.MAX_LINE
    {
      if dropping { return; }
      if |line| + |p| > JsonStream.MAX_LINE {
        dropping := true;
        incomplete := true;
        line := "";
        return;
      }
      line := line + p;
    }

    method ConsumeLine(l: string)
      modifies this, display
      ensures Inner() == Consume(lib, old(Inner()), l)
      ensures line == old(line) && dropping == old(dropping)
    {
      if Blank(l) { return; }
      var e := lib.decode(l);
      if e.None? {
        incomplete := true;
        return;
      }
      eventCount := (eventCount + 1) % U64;
      if |e.value.pkg| > MAX_IDENTITY || |e.value.test| > MAX_IDENTITY {
        incomplete := true;
        return;
      }
      ObserveEvent(e.value);
    }

    method ObserveEvent(e: Event)
      modifies this, display
      ensures Inner() == Observe(lib, old(Inner()), e)
      ensures line == old(line) && dropping == old(dropping)
    {
      ghost var c := Inner();
      if e.action == "output" {
        ObserveOutput(e);
      }
      assert Inner() == OutputSeen(lib, c, e);
      if e.test != "" {
        ObserveControl(e);
      }
      assert Inner() == ControlSeen(OutputSeen(lib, c, e), e);
      if Relevant(e) {
        Keep(e);
      }
    }

    method ObserveOutput(e: Event)
      requires e.action == "output"
      modifies this`timeoutHeader, this`pkgBuildFailed, this`incomplete, display
      ensures Inner() == OutputSeen(lib, old(Inner()), e)
    {
      display.Write(e.output);
      if lib.timeout(e.output) {
        timeoutHeader := true;
      }
      if e.test == "" && lib.summary(e.output) {
        if e.pkg in pkgBuildFailed || |pkgBuildFailed| < MAX_TRACKED {
          assert e.pkg in pkgBuildFailed ==> pkgBuildFailed + {e.pkg} == pkgBuildFailed;
          pkgBuildFailed := pkgBuildFailed + {e.pkg};
        } else {
          incomplete := true;
        }
      }
    }

    method ObserveControl(e: Event)
      requires e.test != ""
      modifies this`started, this`failed, this`pkgRan, this`incomplete
      ensures Inner() == ControlSeen(old(Inner()), e)
    {
      var key := Key(e.pkg, e.test);
      if e.action == "run" {
        var s := Track(started, key);
        started := s.1;
        if !s.0 {
          incomplete := true;
        }
        var r := Track(pkgRan, e.pkg);
        pkgRan := r.1;
        if !r.0 {
          incomplete := true;
        }
      } else if e.action == "pass" || e.action == "skip" {
        started := started - {key};
      } else if e.action == "fail" {
        started := started - {key};
        var f := Track(failed, key);
        failed := f.1;
        if !f.0 {
          incomplete := true;
        }
      }
    }

    method Keep(e: Event)
      requires Relevant(e)
      modifies this`evidence, this`evidenceBytes, this`evidenceTruncated
      ensures Inner() == Kept(old(Inner()), e)
    {
      var bytesNeeded := |e.pkg| + |e.test| + |e.action| + |e.output| + 128;
      if |evidence| >= MAX_EVENTS || bytesNeeded + evidenceBytes > MAX_EVIDENCE {
        evidenceTruncated := true;
        return;
      }
      evidenceBytes := evidenceBytes + bytesNeeded;
      evidence := evidence + [e];
    }

    /** The end of the output. */
    method End()
      modifies this`line, this`incomplete
      ensures State() == Finish(old(State()))
    {
      if !Blank(line) || dropping {
        incomplete := true;
      }
      line := "";
    }

    /** The verdict of a failed run, and the names of the tests it is due to. */
    method Classify() returns (verdict: Verdict, tests: seq<string>)
      ensures verdict == Classified(Inner())
      ensures Sorted(LexLess, tests) && multiset(tests) == multiset(Names(Counts()))
    {
      var names := NamesOf(failed + started);
      NamesEmpty(failed + started, names);
      if names != {} {
        tests := SortedList(names);
        return Killed, tests;
      }
      if incomplete { return Unknown, []; }
      var left := pkgBuildFailed;
      while left != {}
        invariant left <= pkgBuildFailed && forall p :: p in pkgBuildFailed && p !in left ==> p in pkgRan
        decreases |left|
      {
        var p :| p in left;
        if p !in pkgRan { return Invalid, []; }
        left := left - {p};
      }
      return Killed, [];
    }

    static method NamesOf(keys: set<string>) returns (names: set<string>)
      ensures names == set k | k in keys :: NameOf(k)
    {
      names := {};
      var left := keys;
      while left != {}
        invariant left <= keys && names == set k | k in keys && k !in left :: NameOf(k)
        decreases |left|
      {
        var k :| k in left;
        names := names + {NameOf(k)};
        left := left - {k};
      }
    }
  }

  lemma NamesEmpty(keys: set<string>, names: set<string>)
    requires names == set k | k in keys :: NameOf(k)
    ensures names == {} <==> keys == {}
  {
    if keys != {} {
      var k :| k in keys;
      assert NameOf(k) in names;
    }
  }

  /** One complete line inside a write. */
  lemma SplitAtNL(lib: Library, s: Stream, p: string, i: nat)
    requires IndexNL(p) == Some(i) && |s.line| <= JsonStream.MAX_LINE
    ensures FeedAll(lib, s, p) == FeedAll(lib, EndLine(lib, Accept(s, p[..i])), p[i + 1..])
  {
    assert p == (p[..i] + "\n") + p[i + 1..];
    FeedConcat(lib, s, p[..i] + "\n", p[i + 1..]);
    FeedLine(lib, s, p[..i]);
  }
}
