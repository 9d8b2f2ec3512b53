/** The comparison tool's reader of a printed patch: it finds the old lines again. */
module DiffOldText {
  import opened Lines
  import opened UnifiedDiff
  import opened PatchRead

  /** What the scan collects from the remaining pieces. */
  function OldOf(ps: seq<string>, inHunk: bool): seq<string> {
    if ps == [] then []
    else if HasPrefix(ps[0], "@@ ") then OldOf(ps[1..], true)
    else if !inHunk then OldOf(ps[1..], false)
    else if HasPrefix(ps[0], "+") then []
    else if HasPrefix(ps[0], "-") then [ps[0][1..]] + OldOf(ps[1..], true)
    else OldOf(ps[1..], true)
  }

  function OldText(diff: string): string { Join(OldOf(Split(diff, NL), false), NL) }

  /** The scan, which stops at the first added line. */
  method Scan(diff: string) returns (text: string)
    ensures text == OldText(diff)
  {
    var ps := Split(diff, NL);
    var found, inHunk, i := [], false, 0;
    while i < |ps|
      invariant i <= |ps|
      invariant found + OldOf(ps[i..], inHunk) == OldOf(ps, false)
    {
      var line := ps[i];
      assert ps[i..][1..] == ps[i + 1..];
      if HasPrefix(line, "@@ ") {
        inHunk := true;
      } else if !inHunk {
      } else if HasPrefix(line, "+") {
        assert found + [] == found;
        return Join(found, NL);
      } else if HasPrefix(line, "-") {
        found := found + [line[1..]];
      }
      i := i + 1;
    }
    assert found + [] == found;
    text := Join(found, NL);
  }

  // ---------- What the scan finds in a printed patch ----------

  function Chomp(s: string): string { if Ended(s) then s[..|s| - 1] else s }

  function Chomped(ls: seq<string>): seq<string> {
    if ls == [] then [] else [Chomp(ls[0])] + Chomped(ls[1..])
  }

  /** What the scan does with the pieces of one line of the body. */
  function OldStep(h: HunkLine, rest: seq<string>): seq<string> {
    if h.kind == '+' then [] else if h.kind == '-' then [Chomp(h.text)] + rest else rest
  }

  lemma LinePieces(h: HunkLine, rest: string)
    requires Kind(h.kind) && IsLine(h.text)
    ensures OldOf(Split(RenderLine(h) + rest, NL), true) == OldStep(h, OldOf(Split(rest, NL), true))
  {
    var t := Chomp(h.text);
    assert NL !in t by { forall i | 0 <= i < |t| ensures t[i] != NL { assert t[i] == h.text[i]; } }
    var p := [h.kind] + t;
    if Ended(h.text) {
      EndedPieces(h, t, rest);
      OnePiece(p, Split(rest, NL));
    } else {
      UnendedPieces(h, rest);
      OnePiece(MARK, Split(rest, NL));
      OnePiece(p, [MARK] + Split(rest, NL));
    }
    assert p[1..] == t;
  }

  lemma EndedPieces(h: HunkLine, t: string, rest: string)
    requires h.text == t + "\n" && NL !in t && h.kind != NL
    ensures Split(RenderLine(h) + rest, NL) == [[h.kind] + t] + Split(rest, NL)
  {
    var p := [h.kind] + t;
    assert RenderLine(h) + rest == p + "\n" + rest;
    SplitAt(p, NL, rest);
  }

  lemma UnendedPieces(h: HunkLine, rest: string)
    requires NL !in h.text && h.kind != NL && h.text != ""
    ensures Split(RenderLine(h) + rest, NL) == [[h.kind] + h.text] + ([MARK] + Split(rest, NL))
  {
    var p := [h.kind] + h.text;
    assert RenderLine(h) == p + ("\n" + MARKER);
    Assoc(p + "\n", MARKER, rest);
    Assoc(p, "\n", MARKER);
    SplitAt(p, NL, MARK + "\n" + rest);
    SplitAt(MARK, NL, rest);
  }

  lemma OnePiece(p: string, rest: seq<string>)
    requires p != "" && (Kind(p[0]) || p[0] == '\\')
    ensures OldOf([p] + rest, true)
         == if p[0] == '+' then [] else if p[0] == '-' then [p[1..]] + OldOf(rest, true) else OldOf(rest, true)
  {
    assert ([p] + rest)[1..] == rest;
    assert p[..1] == [p[0]];
    if HasPrefix(p, "@@ ") { assert p[..3][0] == p[0]; }
  }

  function OldLines(hs: seq<HunkLine>): seq<string> {
    if hs == [] then [] else OldStep(hs[0], OldLines(hs[1..]))
  }

  lemma {:induction false} BodyPieces(hs: seq<HunkLine>)
    requires BodyOk(hs)
    ensures OldOf(Split(RenderLines(hs), NL), true) == OldLines(hs)
    decreases |hs|
  {
    if hs == [] {
      assert Split("", NL) == [""] && [""][1..] == [];
    } else {
      BodyPieces(hs[1..]);
      LinePieces(hs[0], RenderLines(hs[1..]));
    }
  }

  lemma {:induction false} OldLinesOfContext(ls: seq<string>, rest: seq<HunkLine>)
    ensures OldLines(Tag(' ', ls) + rest) == OldLines(rest)
    decreases |ls|
  {
    if ls == [] {
      assert Tag(' ', ls) + rest == rest;
    } else {
      assert (Tag(' ', ls) + rest)[1..] == Tag(' ', ls[1..]) + rest;
      OldLinesOfContext(ls[1..], rest);
    }
  }

  lemma {:induction false} OldLinesOfOlds(ls: seq<string>, rest: seq<HunkLine>)
    ensures OldLines(Tag('-', ls) + rest) == Chomped(ls) + OldLines(rest)
    decreases |ls|
  {
    if ls == [] {
      assert Tag('-', ls) + rest == rest;
    } else {
      assert (Tag('-', ls) + rest)[1..] == Tag('-', ls[1..]) + rest;
      OldLinesOfOlds(ls[1..], rest);
      assert [Chomp(ls[0])] + (Chomped(ls[1..]) + OldLines(rest)) == Chomped(ls) + OldLines(rest);
    }
  }

  lemma AssembledOldLines(at: nat, before: seq<string>, olds: seq<string>, news: seq<string>, after: seq<string>)
    ensures OldLines(Assemble(at, before, olds, news, after).body) == Chomped(olds)
  {
    var tail := Tag('+', news) + Tag(' ', after);
    OldLinesOfContext(before, Tag('-', olds) + tail);
    OldLinesOfOlds(olds, tail);
    if news == [] {
      assert tail == Tag(' ', after) + [];
      OldLinesOfContext(after, []);
    }
    assert Chomped(olds) + [] == Chomped(olds);
  }

  lemma HeadPieces(file: string, p: Patch, body: string)
    ensures OldOf(Split(Head(file, p) + body, NL), false) == OldOf(Split(body, NL), true)
  {
    var a, b, h := "--- " + DiffPath("a/", file), "+++ " + DiffPath("b/", file), HunkHeader(p);
    HeaderReads(p);
    HeadSplits(a, b, h, body);
    SplitAt(a, NL, b + "\n" + (h + "\n" + body));
    SplitAt(b, NL, h + "\n" + body);
    SplitAt(h, NL, body);
    HeaderPiece(p);
    assert a[..3] == "---" && b[..3] == "+++";
    SkipHead(a, b, h, Split(body, NL));
  }

  lemma HeaderPiece(p: Patch)
    ensures HasPrefix(HunkHeader(p), "@@ ")
  {
    assert HunkHeader(p)[..3] == "@@ ";
  }

  lemma SkipHead(a: string, b: string, h: string, rest: seq<string>)
    requires !HasPrefix(a, "@@ ") && !HasPrefix(b, "@@ ") && HasPrefix(h, "@@ ")
    ensures OldOf([a] + ([b] + ([h] + rest)), false) == OldOf(rest, true)
  {
    var p := [h] + rest;
    var q := [b] + p;
    assert ([a] + q)[1..] == q && q[1..] == p && p[1..] == rest;
    assert OldOf(q, false) == OldOf(p, false) == OldOf(rest, true);
  }

  lemma {:induction false} JoinChomped(ls: seq<string>)
    requires Wf(ls)
    ensures Join(Chomped(ls), NL) == Chomp(Flatten(ls))
    decreases |ls|
  {
    if |ls| == 1 {
      assert ls[1..] == [] && Flatten(ls) == ls[0];
    } else if |ls| > 1 {
      WfPart(ls, 1, |ls|);
      JoinChomped(ls[1..]);
      assert Ended(ls[0]);
      assert Chomped(ls)[1..] == Chomped(ls[1..]);
      LongEnough(ls[1..]);
      ChompLast(ls[0], Flatten(ls[1..]));
      assert Chomp(ls[0]) + "\n" == ls[0];
    }
  }

  lemma ChompLast(a: string, b: string)
    requires b != ""
    ensures Chomp(a + b) == a + Chomp(b)
  {
    assert (a + b)[|a + b| - 1] == b[|b| - 1];
  }

  /** The text of the lines a span stands on. */
  function OldBlock(src: string, start: nat, end: nat): string
    requires start <= end <= |src|
  {
    LinesOfText(src);
    var ls := LinesOf(src);
    if ls == [] then ""
    else
      SpanLines(ls, start, end);
      Flatten(ls[LineAt(ls, start)..LineAt(ls, LastByte(start, end)) + 1])
  }

  /** Whatever the replacement, the reader recovers the lines the span stands on, without the newline
      of the last of them. */
  lemma OldTextRecovered(file: string, src: string, start: nat, end: nat, replacement: string)
    requires start <= end <= |src|
    ensures OldText(DiffOf(file, src, start, end, replacement)) == Chomp(OldBlock(src, start, end))
  {
    LinesOfText(src);
    CutIsOk(LinesOf(src), start, end, replacement);
    OldTextOfCut(file, LinesOf(src), CutOf(LinesOf(src), start, end, replacement));
    OldBlockOfCut(src, start, end, replacement);
  }

  lemma OldBlockOfCut(src: string, start: nat, end: nat, replacement: string)
    requires start <= end <= |src| && Flatten(LinesOf(src)) == src
    requires InOrder(CutOf(LinesOf(src), start, end, replacement), |LinesOf(src)|)
    ensures var c := CutOf(LinesOf(src), start, end, replacement);
            OldBlock(src, start, end) == Flatten(LinesOf(src)[c.first..c.last])
  {
  }

  lemma OldTextOfCut(file: string, ls: seq<string>, c: Cut)
    requires Wf(ls) && InOrder(c, |ls|)
    ensures OldText(RenderPatch(file, PatchOf(ls, c))) == Chomp(Flatten(ls[c.first..c.last]))
  {
    PatchBlocks(ls, c);
    var p := PatchOf(ls, c);
    LinesOfText(c.block);
    BodyOfBlocks(ls[c.ctxFirst..c.first], ls[c.first..c.last], LinesOf(c.block), ls[c.last..c.ctxLast]);
    HeadPieces(file, p, RenderLines(p.body));
    BodyPieces(p.body);
    AssembledOldLines(c.ctxFirst + 1, ls[c.ctxFirst..c.first], ls[c.first..c.last], LinesOf(c.block), ls[c.last..c.ctxLast]);
    WfPart(ls, c.first, c.last);
    JoinChomped(ls[c.first..c.last]);
  }
}
