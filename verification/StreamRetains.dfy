/** What the consumer retains of an output besides the verdict: the text to display, the flag of a test
    that timed out, the number of events, and the events kept as evidence. */
module StreamRetains {
  import opened Base
  import opened Lines
  import opened TestEvents
  import opened JsonStream
  import opened StreamTheorems

  /** The event that a complete line is observed as: the line is not too long, not white space and decodes, and
      the event's package and test are not too long. */
  function ObservedIn(lib: Library, content: string): seq<Event> {
    if |content| > 262144 || Blank(content) || lib.decode(content).None? then []
    else
      var e := lib.decode(content).value;
      if |e.pkg| <= 512 && |e.test| <= 512 then [e] else []
  }

  function Observed(lib: Library, ls: seq<string>): seq<Event> {
    if ls == [] || !Ended(ls[0]) then [] else ObservedIn(lib, Content(ls[0])) + Observed(lib, ls[1..])
  }

  /** The lines that decode. */
  function Decoded(lib: Library, ls: seq<string>): nat {
    if ls == [] || !Ended(ls[0]) then 0
    else
      var l := Content(ls[0]);
      (if |l| <= 262144 && !Blank(l) && lib.decode(l).Some? then 1 else 0) + Decoded(lib, ls[1..])
  }

  /** The outputs of the events, one after the other. */
  function Outputs(es: seq<Event>): string {
    if es == [] then ""
    else
      var e := es[|es| - 1];
      Outputs(es[..|es| - 1]) + if e.action == "output" then e.output else ""
  }

  /** The events about tests that explain a failure. */
  function Telling(es: seq<Event>): seq<Event> {
    if es == [] then []
    else
      var e := es[|es| - 1];
      Telling(es[..|es| - 1]) + if e.test != "" && e.action in {"run", "pass", "fail", "skip", "output"} then [e] else []
  }

  /** The bytes that evidence takes. */
  function Cost(es: seq<Event>): nat {
    if es == [] then 0
    else
      var e := es[|es| - 1];
      Cost(es[..|es| - 1]) + |e.pkg| + |e.test| + |e.action| + |e.output| + 128
  }

  function FirstOf(s: string, n: nat): string { if |s| <= n then s else s[..n] }

  // ---------- One event more ----------

  ghost predicate Displays(es: seq<Event>, b: Bounded) {
    forall k: Seal :: Open(k) ==> b == Bounded(65536, FirstOf(Outputs(es), 65536), |Outputs(es)| % 0x1_0000_0000_0000_0000)
  }

  ghost predicate TimedOut(lib: Library, es: seq<Event>, flag: bool) {
    forall k: Seal :: Open(k) ==> (flag <==> exists i :: 0 <= i < |es| && es[i].action == "output" && lib.timeout(es[i].output))
  }

  ghost predicate Evident(es: seq<Event>, c: Core) {
    forall k: Seal :: Open(k) ==>
    && c.evidenceBytes == Cost(c.evidence)
    && (c.evidenceTruncated <==> |Telling(es)| > 4096 || Cost(Telling(es)) > 262144)
    && (!c.evidenceTruncated ==> c.evidence == Telling(es))
  }

  ghost predicate Retained(lib: Library, es: seq<Event>, c: Core) {
    Displays(es, c.display) && TimedOut(lib, es, c.timeoutHeader) && Evident(es, c)
  }

  lemma AppendFirst(limit: nat, s: string, p: string)
    ensures Append(Bounded(limit, FirstOf(s, limit), |s| % U64), p) == Bounded(limit, FirstOf(s + p, limit), |s + p| % U64)
  {
    if |s| + |p| > limit && |s| < limit {
      assert (s + p)[..limit] == s + p[..limit - |s|];
    }
  }

  lemma DisplayGrows(es: seq<Event>, b: Bounded, e: Event)
    requires Displays(es, b)
    ensures Displays(es + [e], if e.action == "output" then Append(b, e.output) else b)
  {
    assert Open(Seal) && (es + [e])[..|es|] == es;
    if e.action == "output" {
      AppendFirst(65536, Outputs(es), e.output);
    } else {
      assert Outputs(es) + "" == Outputs(es);
    }
  }

  lemma TimeoutGrows(lib: Library, es: seq<Event>, e: Event, flag: bool)
    requires TimedOut(lib, es, flag)
    ensures TimedOut(lib, es + [e], flag || (e.action == "output" && lib.timeout(e.output)))
  {
    assert Open(Seal);
    var all := es + [e];
    assert all[|es|] == e;
    if i :| 0 <= i < |es| && es[i].action == "output" && lib.timeout(es[i].output) { assert all[i] == es[i]; }
  }

  lemma OutputRetains(lib: Library, c: Core, e: Event)
    ensures var d := OutputSeen(lib, c, e);
      && d.display == (if e.action == "output" then Append(c.display, e.output) else c.display)
      && d.timeoutHeader == (c.timeoutHeader || (e.action == "output" && lib.timeout(e.output))) && d.eventCount == c.eventCount
      && d.evidence == c.evidence && d.evidenceBytes == c.evidenceBytes && d.evidenceTruncated == c.evidenceTruncated
  {
  }

  lemma ControlRetains(c: Core, e: Event)
    ensures var d := ControlSeen(c, e);
      && d.display == c.display && d.timeoutHeader == c.timeoutHeader && d.eventCount == c.eventCount
      && d.evidence == c.evidence && d.evidenceBytes == c.evidenceBytes && d.evidenceTruncated == c.evidenceTruncated
  {
  }

  lemma CostSnoc(es: seq<Event>, e: Event)
    ensures Cost(es + [e]) == Cost(es) + Size(e)
  {
    assert (es + [e])[..|es|] == es;
  }

  lemma TellingSnoc(es: seq<Event>, e: Event)
    ensures Telling(es + [e]) == if Relevant(e) then Telling(es) + [e] else Telling(es)
  {
    assert (es + [e])[..|es|] == es;
    if !Relevant(e) { assert Telling(es) + [] == Telling(es); }
  }

  lemma KeepingLeaves(c: Core, e: Event)
    ensures Kept(c, e).display == c.display && Kept(c, e).timeoutHeader == c.timeoutHeader && Kept(c, e).eventCount == c.eventCount
  {
  }

  /** What is kept, when t events that cost n bytes were telling before. */
  predicate Keeps(t: seq<Event>, n: nat, c: Core) {
    (c.evidenceTruncated <==> |t| > 4096 || n > 262144) && (!c.evidenceTruncated ==> c.evidence == t && c.evidenceBytes == n)
  }

  lemma KeepsOne(t: seq<Event>, n: nat, c: Core, e: Event)
    requires Keeps(t, n, c) && Relevant(e)
    ensures Keeps(t + [e], n + Size(e), Kept(c, e))
    ensures (Kept(c, e).evidence == c.evidence + [e] && Kept(c, e).evidenceBytes == c.evidenceBytes + Size(e))
            || Kept(c, e) == c.(evidenceTruncated := true)
  {
  }

  lemma EvidenceGrows(es: seq<Event>, c: Core, e: Event)
    requires Evident(es, c)
    ensures Evident(es + [e], Kept(c, e))
  {
    TellingSnoc(es, e);
    assert Open(Seal);
    if Relevant(e) {
      KeepsOne(Telling(es), Cost(Telling(es)), c, e);
      CostSnoc(Telling(es), e);
      CostSnoc(c.evidence, e);
    }
  }

  lemma SameEvidence(es: seq<Event>, c: Core, d: Core)
    requires Evident(es, c) && d.evidence == c.evidence && d.evidenceBytes == c.evidenceBytes && d.evidenceTruncated == c.evidenceTruncated
    ensures Evident(es, d)
  {
    assert Open(Seal);
  }

  lemma {:induction false} ObserveRetains(lib: Library, es: seq<Event>, c: Core, e: Event)
    requires Retained(lib, es, c)
    ensures Retained(lib, es + [e], Observe(lib, c, e)) && Observe(lib, c, e).eventCount == c.eventCount
  {
    var d := ControlSeen(OutputSeen(lib, c, e), e);
    OutputRetains(lib, c, e);
    ControlRetains(OutputSeen(lib, c, e), e);
    DisplayGrows(es, c.display, e);
    TimeoutGrows(lib, es, e, c.timeoutHeader);
    SameEvidence(es, c, d);
    EvidenceGrows(es, d, e);
    KeepingLeaves(d, e);
  }

  // ---------- Whole outputs ----------

  /** Nothing but the count of events and the loss flag is touched. */
  lemma SameRetained(lib: Library, es: seq<Event>, c: Core, d: Core)
    requires Retained(lib, es, c) && d == c.(incomplete := d.incomplete, eventCount := d.eventCount)
    ensures Retained(lib, es, d)
  {
    SameEvidence(es, c, d);
  }

  lemma {:induction false} LineRetains(lib: Library, es: seq<Event>, c: Core, content: string)
    requires Retained(lib, es, c)
    ensures Retained(lib, es + ObservedIn(lib, content), LineDone(lib, c, content))
  {
    var more, d := ObservedIn(lib, content), LineDone(lib, c, content);
    if more == [] {
      assert es + more == es;
      SameRetained(lib, es, c, d);
    } else {
      SameRetained(lib, es, c, Counted(c));
      ObserveRetains(lib, es, Counted(c), more[0]);
    }
  }

  lemma {:induction false} LinesRetain(lib: Library, es: seq<Event>, c: Core, ls: seq<string>)
    requires Retained(lib, es, c)
    ensures Retained(lib, es + Observed(lib, ls), LinesDone(lib, c, ls))
    decreases |ls|
  {
    if ls == [] || !Ended(ls[0]) {
      assert es + [] == es;
    } else {
      var content := Content(ls[0]);
      LineRetains(lib, es, c, content);
      LinesRetain(lib, es + ObservedIn(lib, content), LineDone(lib, c, content), ls[1..]);
      assert es + ObservedIn(lib, content) + Observed(lib, ls[1..]) == es + (ObservedIn(lib, content) + Observed(lib, ls[1..]));
    }
  }

  lemma OutputKeepsCount(lib: Library, c: Core, e: Event)
    ensures Observe(lib, c, e).eventCount == c.eventCount
  {
    OutputRetains(lib, c, e);
    ControlRetains(OutputSeen(lib, c, e), e);
    KeepingLeaves(ControlSeen(OutputSeen(lib, c, e), e), e);
  }

  lemma {:induction false} LineCounts(lib: Library, c: Core, content: string)
    requires c.eventCount < U64
    ensures LineDone(lib, c, content).eventCount
         == (c.eventCount + if |content| <= 262144 && !Blank(content) && lib.decode(content).Some? then 1 else 0) % U64
  {
    if lib.decode(content).Some? { OutputKeepsCount(lib, Counted(c), lib.decode(content).value); }
  }

  lemma ModAdd(a: nat, b: nat)
    ensures (a % U64 + b) % U64 == (a + b) % U64
  {
  }

  lemma OneDecoded(lib: Library, ls: seq<string>)
    requires ls != [] && Ended(ls[0])
    ensures var l := Content(ls[0]);
      Decoded(lib, ls) == (if |l| <= 262144 && !Blank(l) && lib.decode(l).Some? then 1 else 0) + Decoded(lib, ls[1..])
  {
  }

  lemma {:induction false} LinesCount(lib: Library, c: Core, ls: seq<string>)
    requires c.eventCount < U64
    ensures LinesDone(lib, c, ls).eventCount == (c.eventCount + Decoded(lib, ls)) % U64
    decreases |ls|
  {
    if ls != [] && Ended(ls[0]) {
      var l := Content(ls[0]);
      LineCounts(lib, c, l);
      LinesCount(lib, LineDone(lib, c, l), ls[1..]);
      OneDecoded(lib, ls);
      ModAdd(c.eventCount + if |l| <= 262144 && !Blank(l) && lib.decode(l).Some? then 1 else 0, Decoded(lib, ls[1..]));
    }
  }

  /** The end of the output touches nothing but the loss flag. */
  lemma FinishKeeps(lib: Library, text: string)
    ensures var c, d := LinesDone(lib, START, LinesOf(text)), Final(lib, text); d == c.(incomplete := d.incomplete)
  {
    FinalIs(lib, text);
  }

  lemma {:induction false} FinalRetains(lib: Library, text: string)
    ensures Retained(lib, Observed(lib, LinesOf(text)), Final(lib, text))
  {
    var ls := LinesOf(text);
    NothingRetained(lib);
    LinesRetain(lib, [], START, ls);
    assert [] + Observed(lib, ls) == Observed(lib, ls);
    FinishKeeps(lib, text);
    SameRetained(lib, Observed(lib, ls), LinesDone(lib, START, ls), Final(lib, text));
  }

  lemma {:induction false} FinalCounts(lib: Library, text: string)
    ensures Final(lib, text).eventCount == Decoded(lib, LinesOf(text)) % U64
  {
    LinesCount(lib, START, LinesOf(text));
    FinishKeeps(lib, text);
  }

  lemma NothingRetained(lib: Library)
    ensures Retained(lib, [], START)
  {
  }

  /** Of every output the display holds the first 64 KiB of what the observed output events wrote, and their
      total size; the flag is set exactly when one of them is a timeout header; the counter counts the lines
      that decode; and the evidence is every telling event, unless together they exceed a cap, which the
      truncation flag says. */
  lemma {:induction false} RetainsExactly(lib: Library, text: string)
    ensures var c, es := Final(lib, text), Observed(lib, LinesOf(text));
      && c.display.data == FirstOf(Outputs(es), 65536) && c.display.total == |Outputs(es)| % 0x1_0000_0000_0000_0000
      && (c.timeoutHeader <==> exists i :: 0 <= i < |es| && es[i].action == "output" && lib.timeout(es[i].output))
      && c.eventCount == Decoded(lib, LinesOf(text)) % 0x1_0000_0000_0000_0000
      && (c.evidenceTruncated <==> |Telling(es)| > 4096 || Cost(Telling(es)) > 262144)
      && (!c.evidenceTruncated ==> c.evidence == Telling(es))
  {
    FinalRetains(lib, text);
    FinalCounts(lib, text);
    assert Open(Seal);
  }
}
