/** The incremental consumer of test events: what each byte does to its state. */
module JsonStream {
  import opened Base
  import opened Lines
  import opened TestEvents

  const MAX_LINE: nat := 262144
  const MAX_OUTPUT: nat := 65536
  const MAX_EVIDENCE: nat := 262144
  const MAX_EVENTS: nat := 4096
  const MAX_TRACKED: nat := 8192
  const MAX_IDENTITY: nat := 512
  const U64: nat := 0x1_0000_0000_0000_0000

  /** A text that is kept up to a limit and counted in full, modulo 2^64. */
  datatype Bounded = Bounded(limit: nat, data: string, total: nat)

  function Append(b: Bounded, p: string): Bounded {
    var avail := b.limit - |b.data|;
    Bounded(b.limit, if avail > 0 then b.data + p[..if avail > |p| then |p| else avail] else b.data, (b.total + |p|) % U64)
  }

  /** Everything but the framing of lines. */
  datatype Core = Core(incomplete: bool, eventCount: nat, display: Bounded, evidence: seq<Event>, evidenceBytes: nat,
                       evidenceTruncated: bool, timeoutHeader: bool, tally: Tally)

  datatype Stream = Stream(line: string, dropping: bool, core: Core)

  const START: Core := Core(false, 0, Bounded(MAX_OUTPUT, "", 0), [], 0, false, false, EMPTY)
  const FRESH: Stream := Stream("", false, START)

  // ---------- One event ----------

  /** Adds a key to a set that holds at most MAX_TRACKED. */
  function Track(m: set<string>, key: string): (bool, set<string>) {
    if key in m then (true, m) else if |m| >= MAX_TRACKED then (false, m) else (true, m + {key})
  }

  function Show(lib: Library, c: Core, e: Event): Core {
    c.(display := Append(c.display, e.output), timeoutHeader := c.timeoutHeader || lib.timeout(e.output))
  }

  function MarkBroken(c: Core, e: Event): Core {
    var t := Track(c.tally.broken, e.pkg);
    c.(tally := c.tally.(broken := t.1), incomplete := c.incomplete || !t.0)
  }

  function OutputSeen(lib: Library, c: Core, e: Event): Core {
    if e.action != "output" then c
    else if e.test == "" && lib.summary(e.output) then MarkBroken(Show(lib, c, e), e)
    else Show(lib, c, e)
  }

  function MarkRun(c: Core, e: Event): Core {
    var s, r := Track(c.tally.started, Key(e.pkg, e.test)), Track(c.tally.ran, e.pkg);
    c.(tally := c.tally.(started := s.1, ran := r.1), incomplete := c.incomplete || !s.0 || !r.0)
  }

  function MarkFail(c: Core, e: Event): Core {
    var k := Key(e.pkg, e.test);
    var f := Track(c.tally.failed, k);
    c.(tally := c.tally.(started := c.tally.started - {k}, failed := f.1), incomplete := c.incomplete || !f.0)
  }

  function ControlSeen(c: Core, e: Event): Core {
    if e.test == "" then c
    else if e.action == "run" then MarkRun(c, e)
    else if e.action == "pass" || e.action == "skip" then
      c.(tally := c.tally.(started := c.tally.started - {Key(e.pkg, e.test)}))
    else if e.action == "fail" then MarkFail(c, e)
    else c
  }

  predicate Relevant(e: Event) {
    e.test != "" && (e.action == "run" || e.action == "fail" || e.action == "pass" || e.action == "skip" || e.action == "output")
  }

  function Size(e: Event): nat { |e.pkg| + |e.test| + |e.action| + |e.output| + 128 }

  function Kept(c: Core, e: Event): Core {
    if !Relevant(e) then c
    else if |c.evidence| >= MAX_EVENTS || Size(e) + c.evidenceBytes > MAX_EVIDENCE then c.(evidenceTruncated := true)
    else c.(evidenceBytes := c.evidenceBytes + Size(e), evidence := c.evidence + [e])
  }

  function Observe(lib: Library, c: Core, e: Event): Core {
    Kept(ControlSeen(OutputSeen(lib, c, e), e), e)
  }

  // ---------- One line, one byte ----------

  function Counted(c: Core): Core { c.(eventCount := (c.eventCount + 1) % U64) }

  predicate IdentityFits(e: Event) { |e.pkg| <= MAX_IDENTITY && |e.test| <= MAX_IDENTITY }

  function Consume(lib: Library, c: Core, line: string): Core {
    if Blank(line) then c
    else match lib.decode(line)
      case None => c.(incomplete := true)
      case Some(e) => if IdentityFits(e) then Observe(lib, Counted(c), e) else Counted(c).(incomplete := true)
  }

  function EndLine(lib: Library, s: Stream): Stream {
    Stream("", false, if s.dropping then s.core else Consume(lib, s.core, s.line))
  }

  /** The bytes of a part of a line, at once. */
  function Accept(s: Stream, p: string): Stream {
    if s.dropping then s
    else if |s.line| + |p| > MAX_LINE then Stream("", true, s.core.(incomplete := true))
    else s.(line := s.line + p)
  }

  function Feed(lib: Library, s: Stream, b: char): Stream {
    if b == NL then EndLine(lib, s) else Accept(s, [b])
  }

  function FeedAll(lib: Library, s: Stream, p: string): Stream
    decreases |p|
  {
    if p == "" then s else FeedAll(lib, Feed(lib, s, p[0]), p[1..])
  }

  function Finish(s: Stream): Stream {
    s.(line := "", core := if !Blank(s.line) || s.dropping then s.core.(incomplete := true) else s.core)
  }

  /** The names of the tests that are taken to have failed. */
  function Names(t: Tally): set<string> { set k | k in t.failed + t.started :: NameOf(k) }

  function Classified(c: Core): Verdict {
    if c.tally.failed + c.tally.started != {} then Killed
    else if c.incomplete then Unknown
    else TallyVerdict(c.tally)
  }

  // ---------- Chunk independence ----------

  /** The state depends on the bytes, not on how they were cut into writes. */
  lemma {:induction false} FeedConcat(lib: Library, s: Stream, p: string, q: string)
    ensures FeedAll(lib, s, p + q) == FeedAll(lib, FeedAll(lib, s, p), q)
    decreases |p|
  {
    if p == "" {
      assert p + q == q;
    } else {
      assert (p + q)[1..] == p[1..] + q;
      FeedConcat(lib, Feed(lib, s, p[0]), p[1..], q);
    }
  }

  /** A part of a line can be accepted at once or byte by byte. */
  lemma {:induction false} AcceptIsFeed(lib: Library, s: Stream, p: string)
    requires NL !in p && |s.line| <= MAX_LINE
    ensures FeedAll(lib, s, p) == Accept(s, p)
    decreases |p|
  {
    if p == "" {
      assert s.line + p == s.line;
    } else {
      var next := Feed(lib, s, p[0]);
      AcceptIsFeed(lib, next, p[1..]);
      assert s.line + [p[0]] + p[1..] == s.line + p;
    }
  }

  lemma FeedLine(lib: Library, s: Stream, p: string)
    requires NL !in p && |s.line| <= MAX_LINE
    ensures FeedAll(lib, s, p + "\n") == EndLine(lib, Accept(s, p))
  {
    FeedConcat(lib, s, p, "\n");
    AcceptIsFeed(lib, s, p);
    assert "\n"[1..] == "";
    var t := Accept(s, p);
    assert FeedAll(lib, Feed(lib, t, NL), "") == Feed(lib, t, NL);
  }

  // ---------- Whole lines ----------

  function Content(l: string): string
    requires Ended(l)
  {
    l[..|l| - 1]
  }

  /** What a complete line does: it is consumed, or dropped whole when it is too long. */
  function LineDone(lib: Library, c: Core, content: string): Core {
    if |content| > MAX_LINE then c.(incomplete := true) else Consume(lib, c, content)
  }

  function LinesDone(lib: Library, c: Core, ls: seq<string>): Core
    decreases |ls|
  {
    if ls == [] then c
    else if Ended(ls[0]) then LinesDone(lib, LineDone(lib, c, Content(ls[0])), ls[1..])
    else c
  }

  /** The unended last line of a text, or nothing. */
  function Tail(ls: seq<string>): string {
    if ls == [] || Ended(ls[|ls| - 1]) then "" else ls[|ls| - 1]
  }

  /** Every complete line is consumed once and in order unless it is too long, and what is left is
      the unfinished line. */
  lemma {:induction false} FeedIsLines(lib: Library, c: Core, ls: seq<string>)
    requires Wf(ls)
    ensures FeedAll(lib, Stream("", false, c), Flatten(ls))
         == Accept(Stream("", false, LinesDone(lib, c, ls)), Tail(ls))
    decreases |ls|
  {
    var s := Stream("", false, c);
    if ls == [] {
    } else if Ended(ls[0]) {
      var p := Content(ls[0]);
      Chomped(ls[0]);
      FeedLine(lib, s, p);
      FeedConcat(lib, s, ls[0], Flatten(ls[1..]));
      LineEnds(lib, c, p);
      WfPart(ls, 1, |ls|);
      FeedIsLines(lib, LineDone(lib, c, p), ls[1..]);
    } else {
      assert |ls| == 1 && ls[1..] == [] && Flatten(ls) == ls[0];
      Unbroken(ls[0]);
      AcceptIsFeed(lib, s, ls[0]);
    }
  }

  lemma LineEnds(lib: Library, c: Core, p: string)
    ensures EndLine(lib, Accept(Stream("", false, c), p)) == Stream("", false, LineDone(lib, c, p))
  {
    assert "" + p == p;
  }
}
