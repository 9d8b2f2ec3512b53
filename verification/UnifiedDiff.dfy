/** The contextual patch that is printed for a mutation. */
module UnifiedDiff {
  import opened Base
  import opened Lines
  import opened Decimal

  const MARK: string := "\\ No newline at end of file"
  const MARKER: string := MARK + "\n"

  datatype HunkLine = HunkLine(kind: char, text: string)

  datatype Patch = Patch(oldStart: nat, oldCount: nat, newStart: nat, newCount: nat, body: seq<HunkLine>)

  // ---------- Printing ----------

  function RenderLine(h: HunkLine): string {
    [h.kind] + h.text + if Ended(h.text) then "" else "\n" + MARKER
  }

  function RenderLines(hs: seq<HunkLine>): string {
    if hs == [] then "" else RenderLine(hs[0]) + RenderLines(hs[1..])
  }

  function Tag(kind: char, ls: seq<string>): (r: seq<HunkLine>)
    ensures |r| == |ls|
    ensures forall i :: 0 <= i < |ls| ==> r[i] == HunkLine(kind, ls[i])
  {
    seq(|ls|, i requires 0 <= i < |ls| => HunkLine(kind, ls[i]))
  }

  lemma {:induction false} RenderConcat(a: seq<HunkLine>, b: seq<HunkLine>)
    ensures RenderLines(a + b) == RenderLines(a) + RenderLines(b)
    decreases |a|
  {
    if a == [] {
      assert a + b == b;
    } else {
      assert (a + b)[1..] == a[1..] + b;
      RenderConcat(a[1..], b);
    }
  }

  predicate NoneEmpty(ls: seq<string>) { forall i :: 0 <= i < |ls| ==> ls[i] != "" }

  /** Appends the lines with their prefix, and the marker after a line without newline. */
  method WriteDiffLines(b0: string, prefix: char, lines: seq<string>) returns (b: string)
    requires NoneEmpty(lines)
    ensures b == b0 + RenderLines(Tag(prefix, lines))
  {
    b := b0;
    for i := 0 to |lines|
      invariant b == b0 + RenderLines(Tag(prefix, lines[..i]))
    {
      var line := lines[i];
      var text := [prefix] + line;
      if line[|line| - 1] != NL {
        text := text + ("\n" + MARKER);
      }
      TagSnoc(b0, prefix, lines, i);
      assert text == RenderLine(HunkLine(prefix, line));
      b := b + text;
    }
    assert lines[..|lines|] == lines;
  }

  lemma TagSnoc(b0: string, kind: char, ls: seq<string>, i: nat)
    requires i < |ls|
    ensures b0 + RenderLines(Tag(kind, ls[..i + 1])) == b0 + RenderLines(Tag(kind, ls[..i])) + RenderLine(HunkLine(kind, ls[i]))
  {
    var h := HunkLine(kind, ls[i]);
    assert Tag(kind, ls[..i + 1]) == Tag(kind, ls[..i]) + [h];
    RenderConcat(Tag(kind, ls[..i]), [h]);
    assert [h][1..] == [] && RenderLine(h) + "" == RenderLine(h);
    Assoc(b0, RenderLines(Tag(kind, ls[..i])), RenderLine(h));
  }

  function Octal(n: nat): (s: string)
    requires n < 512
    ensures NL !in s
  {
    [Digit(n / 64), Digit(n / 8 % 8), Digit(n % 8)]
  }

  predicate Special(c: char) { c == '\\' || c == '"' || c < ' ' || c as int == 127 }

  function Escape(c: char): (s: string)
    ensures NL !in s
  {
    if c == '\\' || c == '"' then ['\\', c]
    else if Special(c) then "\\" + Octal(c as nat)
    else [c]
  }

  function EscapeAll(name: string): (s: string)
    ensures NL !in s
  {
    if name == "" then "" else Escape(name[0]) + EscapeAll(name[1..])
  }

  /** Git's C-quoted syntax, only where it is needed. */
  function DiffPath(prefix: string, file: string): (s: string)
    ensures NL !in s
  {
    var name := prefix + file;
    if exists i :: 0 <= i < |name| && Special(name[i]) then "\"" + EscapeAll(name) + "\"" else name
  }

  function HunkHeader(p: Patch): string {
    "@@ -" + Print(p.oldStart) + "," + Print(p.oldCount) + " +" + Print(p.newStart) + "," + Print(p.newCount) + " @@"
  }

  /** The three header lines. */
  function Head(file: string, p: Patch): string {
    "--- " + DiffPath("a/", file) + "\n" + ("+++ " + DiffPath("b/", file) + "\n" + (HunkHeader(p) + "\n"))
  }

  lemma HeadIgnoresBody(file: string, p: Patch, q: Patch)
    requires p.(body := []) == q.(body := [])
    ensures Head(file, p) == Head(file, q)
  {
  }

  function RenderPatch(file: string, p: Patch): string {
    Head(file, p) + RenderLines(p.body)
  }

  // ---------- The patch of a span ----------

  /** The last line that begins at or before an offset. */
  function LineAt(ls: seq<string>, offset: nat): (i: nat)
    requires ls != [] && offset <= |Flatten(ls)|
    ensures i < |ls|
  {
    if |ls| == 1 || offset < |ls[0]| then 0 else 1 + LineAt(ls[1..], offset - |ls[0]|)
  }

  ghost predicate Holds(ls: seq<string>, offset: nat, i: nat) {
    i < |ls| && Off(ls, i) <= offset && (i + 1 < |ls| ==> offset < Off(ls, i + 1))
  }

  lemma {:induction false} LineAtHolds(ls: seq<string>, offset: nat)
    requires ls != [] && offset <= |Flatten(ls)|
    ensures Holds(ls, offset, LineAt(ls, offset))
    decreases |ls|
  {
    assert ls[..0] == [] && ls[..1] == [ls[0]] && [ls[0]][1..] == [];
    if |ls| > 1 && offset >= |ls[0]| {
      var i := LineAt(ls[1..], offset - |ls[0]|);
      LineAtHolds(ls[1..], offset - |ls[0]|);
      OffShift(ls, i);
      if i + 1 < |ls[1..]| { OffShift(ls, i + 1); }
    }
  }

  lemma OffShift(ls: seq<string>, i: nat)
    requires ls != [] && i <= |ls| - 1
    ensures Off(ls, i + 1) == |ls[0]| + Off(ls[1..], i)
  {
    assert ls[..i + 1][1..] == ls[1..][..i];
  }

  /** There is only one such line. */
  lemma OnOneLine(ls: seq<string>, offset: nat, i: nat, j: nat)
    requires Wf(ls) && Holds(ls, offset, i) && Holds(ls, offset, j)
    ensures i == j
  {
    if i < j { OffMonotone(ls, i + 1, j); }
    if j < i { OffMonotone(ls, j + 1, i); }
  }

  /** The lines of a span (first..last), those of its hunk (ctxFirst..ctxLast), and the new block. */
  datatype Cut = Cut(first: nat, last: nat, ctxFirst: nat, ctxLast: nat, block: string)

  /** Where a span ends: at its last byte, an empty one where it begins. */
  function LastByte(start: nat, end: nat): nat
    requires start <= end
  {
    if end > start then end - 1 else end
  }

  function CutOf(ls: seq<string>, start: nat, end: nat, replacement: string): Cut
    requires start <= end <= |Flatten(ls)|
  {
    if ls == [] then Cut(0, 0, 0, 0, BlockOf(ls, 0, 0, start, end, replacement))
    else
      var a, b := LineAt(ls, start), LineAt(ls, LastByte(start, end)) + 1;
      Cut(a, b, Max(0, a - 3), Min(|ls|, b + 3), BlockOf(ls, a, b, start, end, replacement))
  }

  function BlockOf(ls: seq<string>, a: nat, b: nat, start: nat, end: nat, replacement: string): string
    requires a <= |ls| && b <= |ls|
  {
    var src := Flatten(ls);
    if Off(ls, a) <= start <= |src| && end <= Off(ls, b) <= |src|
    then src[Off(ls, a)..start] + replacement + src[end..Off(ls, b)] else ""
  }

  /** The lines of a cut are the first and the last line of the span; an empty span stands on one line. */
  ghost predicate Spans(c: Cut, ls: seq<string>, start: nat, end: nat)
    requires c.first < c.last <= |ls|
  {
    && Holds(ls, start, c.first)
    && (start < end ==> Off(ls, c.last - 1) < end)
    && (start == end ==> c.last == c.first + 1 && (c.last < |ls| ==> end < Off(ls, c.last)))
  }

  /** What a cut of a real span satisfies: its lines contain the span, its context is up to three
      lines on either side, and its block is the lines with the span replaced. An empty text has no
      lines to contain it. */
  ghost predicate CutOk(c: Cut, ls: seq<string>, start: nat, end: nat, replacement: string) {
    && InOrder(c, |ls|) && c.ctxFirst == Max(0, c.first - 3) && c.ctxLast == Min(|ls|, c.last + 3)
    && (ls != [] ==> Spans(c, ls, start, end))
    && Off(ls, c.first) <= start <= end <= Off(ls, c.last) <= |Flatten(ls)|
    && c.block == Flatten(ls)[Off(ls, c.first)..start] + replacement + Flatten(ls)[end..Off(ls, c.last)]
  }

  lemma LinesInOrder(ls: seq<string>, x: nat, y: nat, i: nat, j: nat)
    requires Wf(ls) && Holds(ls, x, i) && Holds(ls, y, j) && x <= y
    ensures i <= j
  {
    if j < i { OffMonotone(ls, j + 1, i); }
  }

  lemma LineEndsAfter(ls: seq<string>, start: nat, end: nat, e: nat)
    requires Wf(ls) && start <= end <= |Flatten(ls)| && Holds(ls, LastByte(start, end), e)
    ensures end <= Off(ls, e + 1) <= |Flatten(ls)|
  {
    OffMonotone(ls, e + 1, |ls|);
    OffEnd(ls);
  }

  lemma SpanLines(ls: seq<string>, start: nat, end: nat)
    requires Wf(ls) && ls != [] && start <= end <= |Flatten(ls)|
    ensures var a, e := LineAt(ls, start), LineAt(ls, LastByte(start, end));
            a <= e < |ls| && Holds(ls, start, a) && Holds(ls, LastByte(start, end), e) && end <= Off(ls, e + 1) <= |Flatten(ls)|
  {
    var a, e := LineAt(ls, start), LineAt(ls, LastByte(start, end));
    LineAtHolds(ls, start);
    LineAtHolds(ls, LastByte(start, end));
    LinesInOrder(ls, start, LastByte(start, end), a, e);
    LineEndsAfter(ls, start, end, e);
  }

  lemma {:induction false} CutIsOk(ls: seq<string>, start: nat, end: nat, replacement: string)
    requires Wf(ls) && start <= end <= |Flatten(ls)|
    ensures CutOk(CutOf(ls, start, end, replacement), ls, start, end, replacement)
  {
    if ls != [] { SpanLines(ls, start, end); }
  }

  predicate InOrder(c: Cut, n: nat) {
    c.ctxFirst <= c.first <= c.last <= c.ctxLast <= n && (n > 0 ==> c.first < c.last)
  }

  function PatchOf(ls: seq<string>, c: Cut): Patch {
    if InOrder(c, |ls|)
    then Assemble(c.ctxFirst + 1, ls[c.ctxFirst..c.first], ls[c.first..c.last], LinesOf(c.block), ls[c.last..c.ctxLast])
    else Patch(0, 0, 0, 0, [])
  }

  /** A hunk from its four blocks. */
  function Assemble(at: nat, before: seq<string>, olds: seq<string>, news: seq<string>, after: seq<string>): Patch {
    Patch(at, |before| + |olds| + |after|, at, |before| + |news| + |after|,
          Tag(' ', before) + (Tag('-', olds) + (Tag('+', news) + Tag(' ', after))))
  }

  /** The patch text printed for a span of a text. */
  function DiffOf(file: string, src: string, start: nat, end: nat, replacement: string): string
    requires start <= end <= |src|
  {
    LinesOfText(src);
    RenderPatch(file, PatchOf(LinesOf(src), CutOf(LinesOf(src), start, end, replacement)))
  }

  /** The hunk begins up to three lines before the line of the first byte of the span, on both sides, and ends
      up to three lines behind that of its last byte. */
  lemma {:induction false} HunkNumbers(ls: seq<string>, start: nat, end: nat, replacement: string, first: nat, last: nat)
    requires Wf(ls) && ls != [] && start <= end <= |Flatten(ls)|
    requires Holds(ls, start, first) && Holds(ls, if start < end then end - 1 else end, last)
    ensures var p := PatchOf(ls, CutOf(ls, start, end, replacement));
      && p.oldStart == p.newStart == (if first < 3 then 1 else first - 2)
      && p.oldStart - 1 + p.oldCount == (if last + 4 < |ls| then last + 4 else |ls|)
  {
    var c := CutOf(ls, start, end, replacement);
    SpanLines(ls, start, end);
    OnOneLine(ls, start, first, c.first);
    OnOneLine(ls, LastByte(start, end), last, c.last - 1);
    assert InOrder(c, |ls|);
  }

  /** The line index: an empty text has one entry, too. */
  function IndexOf(ls: seq<string>): (r: seq<nat>)
    ensures |r| == Max(1, |ls|)
    ensures forall i :: 0 <= i < |r| ==> r[i] == Off(ls, i)
  {
    assert ls[..0] == [];
    if ls == [] then [0] else Offsets(ls)
  }

  /** The patch text, built as the source does: line searches, four blocks, one builder. */
  method Unified(file: string, src: string, lines: seq<nat>, start: nat, end: nat, replacement: string)
    returns (diff: string)
    requires start <= end <= |src| && lines == IndexOf(LinesOf(src))
    ensures diff == DiffOf(file, src, start, end, replacement)
  {
    LinesOfText(src);
    ghost var ls := LinesOf(src);
    ghost var c := CutOf(ls, start, end, replacement);
    CutIsOk(ls, start, end, replacement);
    var startLine, endLine := FindLines(ls, lines, start, end);
    assert startLine == c.first && Min(endLine + 1, |ls|) == c.last;
    var newBlock := NewBlock(src, ls, lines, c, startLine, endLine, start, end, replacement);
    diff := Emit(file, src, ls, lines, c, startLine, endLine, newBlock);
  }

  /** The old lines with the span replaced. */
  method NewBlock(src: string, ghost ls: seq<string>, lines: seq<nat>, ghost c: Cut, startLine: nat, endLine: nat,
                  start: nat, end: nat, replacement: string)
    returns (newBlock: string)
    requires src == Flatten(ls) && lines == IndexOf(ls) && CutOk(c, ls, start, end, replacement)
    requires startLine == c.first && endLine < |lines| && Min(endLine + 1, |ls|) == c.last
    ensures newBlock == c.block
  {
    var lineStart, lineEnd := LineOffset(ls, src, lines, startLine), LineOffset(ls, src, lines, endLine + 1);
    newBlock := src[lineStart..start] + replacement + src[end..lineEnd];
  }

  /** Up to three lines before and after the block, and the four blocks of the hunk. */
  method Emit(file: string, src: string, ghost ls: seq<string>, lines: seq<nat>, ghost c: Cut,
              startLine: nat, endLine: nat, newBlock: string)
    returns (diff: string)
    requires Wf(ls) && src == Flatten(ls) && lines == IndexOf(ls) && InOrder(c, |ls|)
    requires startLine == c.first && endLine < |lines| && Min(endLine + 1, |ls|) == c.last && newBlock == c.block
    requires c.ctxFirst == Max(0, c.first - 3) && c.ctxLast == Min(|ls|, c.last + 3)
    ensures diff == RenderPatch(file, PatchOf(ls, c))
  {
    var ctxStartLine := if startLine < 3 then 0 else startLine - 3;
    var ctxEndLine := if endLine + 4 > |lines| then |lines| else endLine + 4;
    var prefixLines, oldLines, suffixLines := OldBlocks(src, ls, lines, c, ctxStartLine, startLine, endLine, ctxEndLine);
    var newLines := DiffLines(newBlock);
    LinesNonempty(newBlock);
    PatchBlocks(ls, c);
    diff := Build(file, ctxStartLine + 1, prefixLines, oldLines, newLines, suffixLines);
  }

  method OldBlocks(src: string, ghost ls: seq<string>, lines: seq<nat>, ghost c: Cut, ctxStartLine: nat,
                   startLine: nat, endLine: nat, ctxEndLine: nat)
    returns (prefixLines: seq<string>, oldLines: seq<string>, suffixLines: seq<string>)
    requires Wf(ls) && src == Flatten(ls) && lines == IndexOf(ls) && InOrder(c, |ls|)
    requires ctxStartLine == c.ctxFirst && startLine == c.first && startLine <= endLine < ctxEndLine <= |lines|
    requires Min(endLine + 1, |ls|) == c.last && Min(ctxEndLine, |ls|) == c.ctxLast
    ensures prefixLines == ls[c.ctxFirst..c.first] && oldLines == ls[c.first..c.last] && suffixLines == ls[c.last..c.ctxLast]
    ensures NoneEmpty(prefixLines) && NoneEmpty(oldLines) && NoneEmpty(suffixLines)
  {
    prefixLines := SplitBlock(ls, src, lines, ctxStartLine, startLine);
    oldLines := SplitBlock(ls, src, lines, startLine, endLine + 1);
    suffixLines := SplitBlock(ls, src, lines, endLine + 1, ctxEndLine);
  }

  lemma LinesNonempty(s: string)
    ensures NoneEmpty(LinesOf(s))
  {
    LinesOfText(s);
  }

  lemma PatchBlocks(ls: seq<string>, c: Cut)
    requires InOrder(c, |ls|)
    ensures PatchOf(ls, c)
         == Assemble(c.ctxFirst + 1, ls[c.ctxFirst..c.first], ls[c.first..c.last], LinesOf(c.block), ls[c.last..c.ctxLast])
  {
  }

  /** What the search finds is the line of the offset. */
  lemma FoundIs(ls: seq<string>, lines: seq<nat>, offset: nat, i: nat)
    requires Wf(ls) && ls != [] && offset <= |Flatten(ls)| && lines == IndexOf(ls)
    requires i < |lines| && lines[i] <= offset && (i + 1 < |lines| ==> offset < lines[i + 1])
    ensures i == LineAt(ls, offset)
  {
    LineAtHolds(ls, offset);
    OnOneLine(ls, offset, i, LineAt(ls, offset));
  }

  /** The lines where the span begins and where it ends. */
  method FindLines(ghost ls: seq<string>, lines: seq<nat>, start: nat, end: nat) returns (startLine: nat, endLine: nat)
    requires Wf(ls) && start <= end <= |Flatten(ls)| && lines == IndexOf(ls)
    ensures startLine <= endLine < |lines|
    ensures ls != [] ==> startLine == LineAt(ls, start) && endLine == LineAt(ls, LastByte(start, end))
  {
    IndexOk(ls);
    startLine := Containing(lines, start);
    var endOffset := end;
    if endOffset > start {
      endOffset := endOffset - 1;
    }
    endLine := Containing(lines, endOffset);
    if ls != [] {
      FoundIs(ls, lines, start, startLine);
      FoundIs(ls, lines, endOffset, endLine);
      SpanLines(ls, start, end);
    }
  }

  /** Where line i begins, or the end of the text. */
  function LineOffset(ghost ls: seq<string>, src: string, lines: seq<nat>, i: nat): (o: nat)
    requires src == Flatten(ls) && lines == IndexOf(ls) && i <= |lines|
    ensures o == Off(ls, Min(i, |ls|))
  {
    OffEnd(ls);
    if i < |lines| then lines[i] else |src|
  }

  /** The lines between two line starts. */
  method SplitBlock(ghost ls: seq<string>, src: string, lines: seq<nat>, i: nat, j: nat) returns (block: seq<string>)
    requires Wf(ls) && src == Flatten(ls) && lines == IndexOf(ls) && i <= j <= |lines|
    ensures block == ls[Min(i, |ls|)..Min(j, |ls|)] && NoneEmpty(block)
  {
    BlockLines(ls, Min(i, |ls|), Min(j, |ls|));
    var from, to := LineOffset(ls, src, lines, i), LineOffset(ls, src, lines, j);
    block := DiffLines(src[from..to]);
  }

  method Build(file: string, at: nat, before: seq<string>, olds: seq<string>, news: seq<string>, after: seq<string>)
    returns (diff: string)
    requires NoneEmpty(before) && NoneEmpty(olds) && NoneEmpty(news) && NoneEmpty(after)
    ensures diff == RenderPatch(file, Assemble(at, before, olds, news, after))
  {
    var head := Head(file, Patch(at, |before| + |olds| + |after|, at, |before| + |news| + |after|, []));
    var b1 := WriteDiffLines(head, ' ', before);
    var b2 := WriteDiffLines(b1, '-', olds);
    var b3 := WriteDiffLines(b2, '+', news);
    diff := WriteDiffLines(b3, ' ', after);
    FourBlocks(head, Tag(' ', before), Tag('-', olds), Tag('+', news), Tag(' ', after));
    HeadIgnoresBody(file, Assemble(at, before, olds, news, after),
                    Patch(at, |before| + |olds| + |after|, at, |before| + |news| + |after|, []));
  }

  lemma Assoc(x: string, y: string, z: string)
    ensures x + (y + z) == (x + y) + z
  {
  }

  lemma FourBlocks(h: string, a: seq<HunkLine>, b: seq<HunkLine>, c: seq<HunkLine>, d: seq<HunkLine>)
    ensures h + RenderLines(a + (b + (c + d))) == h + RenderLines(a) + RenderLines(b) + RenderLines(c) + RenderLines(d)
  {
    RenderConcat(c, d);
    RenderConcat(b, c + d);
    RenderConcat(a, b + (c + d));
    var p, q, r, s := RenderLines(a), RenderLines(b), RenderLines(c), RenderLines(d);
    Assoc(h, p, q + (r + s));
    Assoc(h + p, q, r + s);
    Assoc(h + p + q, r, s);
  }

  lemma IndexOk(ls: seq<string>)
    requires Wf(ls)
    ensures var l := IndexOf(ls); l != [] && l[0] == 0 && forall a, b :: 0 <= a < b < |l| ==> l[a] < l[b]
  {
    forall a, b | 0 <= a < b < |ls| ensures Off(ls, a) < Off(ls, b) { OffMonotone(ls, a, b); }
  }

  lemma OffEnd(ls: seq<string>)
    ensures Off(ls, |ls|) == |Flatten(ls)|
  {
    assert ls[..|ls|] == ls;
  }

  /** Cutting a block out of the text and splitting it gives the lines it came from. */
  lemma {:induction false} BlockLines(ls: seq<string>, i: nat, j: nat)
    requires Wf(ls) && i <= j <= |ls|
    ensures Off(ls, i) <= Off(ls, j) <= |Flatten(ls)|
    ensures LinesOf(Flatten(ls)[Off(ls, i)..Off(ls, j)]) == ls[i..j]
  {
    OffMonotone(ls, i, j);
    WfPart(ls, i, j);
    LinesOfFlat(ls[i..j]);
  }
}
