/** Strict application of a patch, and the theorem that says when the patch printed for a mutation
    applies, and that it then gives the mutated text. */
module PatchApply {
  import opened Base
  import opened Lines
  import opened UnifiedDiff
  import opened PatchRead

  /** The texts of the lines of one side. */
  function Side(hs: seq<HunkLine>, sign: char): seq<string> {
    if hs == [] then []
    else if hs[0].kind == ' ' || hs[0].kind == sign then [hs[0].text] + Side(hs[1..], sign)
    else Side(hs[1..], sign)
  }

  /** An empty range names the line before it, any other its first line. */
  function Position(start: nat, count: nat): int { if count == 0 then start else start - 1 }

  /** The ranges count the body, the old side stands in the file at its place, and both ranges name
      that place. */
  function ApplyLines(ls: seq<string>, p: Patch): Option<seq<string>> {
    var olds, news, at := Side(p.body, '-'), Side(p.body, '+'), Position(p.oldStart, p.oldCount);
    if p.oldCount == |olds| && p.newCount == |news| && at == Position(p.newStart, p.newCount)
       && 0 <= at && at + |olds| <= |ls| && ls[at..at + |olds|] == olds
    then Some(ls[..at] + news + ls[at + |olds|..])
    else None
  }

  /** Exact application: moreover only the last line of the result may lack a newline. */
  function ApplyPatch(src: string, diff: string): Option<string> {
    match ReadPatch(diff)
    case None => None
    case Some(p) =>
      match ApplyLines(LinesOf(src), p.2)
      case None => None
      case Some(result) => if LinesOf(Flatten(result)) == result then Some(Flatten(result)) else None
  }

  // ---------- Sides of an assembled hunk ----------

  lemma {:induction false} SideConcat(a: seq<HunkLine>, b: seq<HunkLine>, sign: char)
    ensures Side(a + b, sign) == Side(a, sign) + Side(b, sign)
    decreases |a|
  {
    if a == [] {
      assert a + b == b;
    } else {
      assert (a + b)[1..] == a[1..] + b;
      SideConcat(a[1..], b, sign);
    }
  }

  lemma {:induction false} SideTag(kind: char, ls: seq<string>, sign: char)
    ensures Side(Tag(kind, ls), sign) == if kind == ' ' || kind == sign then ls else []
    decreases |ls|
  {
    if ls != [] {
      assert Tag(kind, ls)[1..] == Tag(kind, ls[1..]);
      SideTag(kind, ls[1..], sign);
      assert ls == [ls[0]] + ls[1..];
    }
  }

  lemma OneSide(a: seq<HunkLine>, b: seq<HunkLine>, c: seq<HunkLine>, d: seq<HunkLine>, sign: char)
    ensures Side(a + (b + (c + d)), sign) == Side(a, sign) + (Side(b, sign) + (Side(c, sign) + Side(d, sign)))
  {
    SideConcat(c, d, sign);
    SideConcat(b, c + d, sign);
    SideConcat(a, b + (c + d), sign);
  }

  lemma AssembledOld(at: nat, before: seq<string>, olds: seq<string>, news: seq<string>, after: seq<string>)
    ensures Side(Assemble(at, before, olds, news, after).body, '-') == before + (olds + after)
  {
    OneSide(Tag(' ', before), Tag('-', olds), Tag('+', news), Tag(' ', after), '-');
    SideTag(' ', before, '-');
    SideTag('-', olds, '-');
    SideTag('+', news, '-');
    SideTag(' ', after, '-');
    assert [] + after == after;
  }

  lemma AssembledNew(at: nat, before: seq<string>, olds: seq<string>, news: seq<string>, after: seq<string>)
    ensures Side(Assemble(at, before, olds, news, after).body, '+') == before + (news + after)
  {
    OneSide(Tag(' ', before), Tag('-', olds), Tag('+', news), Tag(' ', after), '+');
    SideTag(' ', before, '+');
    SideTag('-', olds, '+');
    SideTag('+', news, '+');
    SideTag(' ', after, '+');
    assert [] + (news + after) == news + after;
  }

  /** Applied to the lines it was cut from, a hunk replaces the old block, unless nothing would be
      left: then its new range does not name the place. */
  lemma AssembledApplies(ls: seq<string>, i: nat, a: nat, b: nat, j: nat, news: seq<string>)
    requires i <= a < b <= j <= |ls|
    ensures var p := Assemble(i + 1, ls[i..a], ls[a..b], news, ls[b..j]);
            ApplyLines(ls, p) == if p.newCount == 0 then None else Some(ls[..a] + news + ls[b..])
  {
    AssembledOld(i + 1, ls[i..a], ls[a..b], news, ls[b..j]);
    AssembledNew(i + 1, ls[i..a], ls[a..b], news, ls[b..j]);
    WholeBlock(ls, i, a, b, j);
    Replaced(ls, i, a, b, j, news);
  }

  /** On an empty text the old range is empty, and does not name the place before the first line. */
  lemma EmptyRefuses(news: seq<string>)
    ensures ApplyLines([], Assemble(1, [], [], news, [])) == None
  {
    AssembledOld(1, [], [], news, []);
  }

  lemma WholeBlock(ls: seq<string>, i: nat, a: nat, b: nat, j: nat)
    requires i <= a < b <= j <= |ls|
    ensures ls[i..a] + (ls[a..b] + ls[b..j]) == ls[i..j]
  {
    assert ls[a..b] + ls[b..j] == ls[a..j];
  }

  lemma Replaced(ls: seq<string>, i: nat, a: nat, b: nat, j: nat, news: seq<string>)
    requires i <= a < b <= j <= |ls|
    ensures ls[..i] + (ls[i..a] + (news + ls[b..j])) + ls[j..] == ls[..a] + news + ls[b..]
  {
    var tail := ls[b..j] + ls[j..];
    assert tail == ls[b..];
    assert ls[..i] + ls[i..a] == ls[..a];
    Regroup(ls[..i], ls[i..a], news, ls[b..j], ls[j..]);
  }

  lemma Regroup<T>(u: seq<T>, v: seq<T>, w: seq<T>, x: seq<T>, y: seq<T>)
    ensures u + (v + (w + x)) + y == (u + v) + w + (x + y)
  {
    assert u + (v + (w + x)) == (u + v) + w + x;
  }

  // ---------- When the patch is well formed ----------

  /** There is a line to anchor the hunk, something is left of the file, and the new block does not run
      into the following line. */
  predicate Applicable(src: string, start: nat, end: nat, replacement: string)
    requires start <= end <= |src|
  {
    src != "" && SomethingLeft(src, start, end, replacement) && EndsCleanly(src, start, end, replacement)
  }

  predicate SomethingLeft(src: string, start: nat, end: nat, replacement: string) {
    !(start == 0 && end == |src| && replacement == "")
  }

  predicate EndsCleanly(src: string, start: nat, end: nat, replacement: string)
    requires start <= end <= |src|
  {
    || start == end
    || end == |src|
    || src[end - 1] != NL
    || if replacement != "" then Ended(replacement) else start == 0 || src[start - 1] == NL
  }

  function Mutated(src: string, start: nat, end: nat, replacement: string): string
    requires start <= end <= |src|
  {
    src[..start] + replacement + src[end..]
  }

  /** The new block ends where a line may end. */
  predicate BlockFits(ls: seq<string>, c: Cut) {
    c.block == "" || c.last == |ls| || Ended(c.block)
  }

  /** A newline is where a line ends. */
  lemma NewlineEndsLine(ls: seq<string>, k: nat, i: nat)
    requires Wf(ls) && OnLine(ls, k, i)
    ensures k < |Flatten(ls)|
    ensures Flatten(ls)[k] == NL ==> k + 1 == Off(ls, i + 1)
    ensures k + 1 == Off(ls, i + 1) && i + 1 < |ls| ==> Flatten(ls)[k] == NL
  {
    OffMonotone(ls, i, i + 1);
    assert ls[i..i + 1] == [ls[i]] && [ls[i]][1..] == [];
    var l := Flatten(ls)[Off(ls, i)..Off(ls, i + 1)];
    assert l == ls[i] && l[k - Off(ls, i)] == Flatten(ls)[k];
  }

  /** The character before the end of a line that is not the last. */
  lemma LineBreak(ls: seq<string>, i: nat)
    requires Wf(ls) && 0 < i < |ls|
    ensures 0 < Off(ls, i) <= |Flatten(ls)| && Flatten(ls)[Off(ls, i) - 1] == NL
  {
    OffMonotone(ls, i - 1, i);
    NewlineEndsLine(ls, Off(ls, i) - 1, i - 1);
  }

  /** When lines follow the block, whether the span ends at its end. */
  lemma SpanToLineEnd(ls: seq<string>, end: nat, last: nat)
    requires Wf(ls) && 0 < last < |ls| && Off(ls, last - 1) < end <= Off(ls, last)
    ensures end < |Flatten(ls)| && (Flatten(ls)[end - 1] == NL <==> end == Off(ls, last))
    ensures Off(ls, last) <= |Flatten(ls)| && Flatten(ls)[Off(ls, last) - 1] == NL
  {
    NewlineEndsLine(ls, end - 1, last - 1);
    OffEnd(ls);
    OffMonotone(ls, last, |ls|);
    LineBreak(ls, last);
  }

  /** Whether the span begins at the beginning of the block. */
  lemma SpanAtLineStart(ls: seq<string>, start: nat, first: nat)
    requires Wf(ls) && OnLine(ls, start, first)
    ensures start <= |Flatten(ls)| && (start == Off(ls, first) <==> start == 0 || Flatten(ls)[start - 1] == NL)
  {
    NewlineEndsLine(ls, start, first);
    if start == Off(ls, first) {
      if first > 0 { LineBreak(ls, first); } else { assert ls[..0] == []; }
    } else {
      assert OnLine(ls, start - 1, first);
      NewlineEndsLine(ls, start - 1, first);
    }
  }

  lemma EndOf(x: string, r: string, y: string)
    ensures y != "" ==> x + r + y != "" && (Ended(x + r + y) <==> Ended(y))
    ensures y == "" && r != "" ==> x + r + y != "" && (Ended(x + r + y) <==> Ended(r))
    ensures y == "" && r == "" ==> x + r + y == x
  {
  }

  /** The lines of the printed hunk fit together exactly when the span ends cleanly. */
  lemma FitsExactly(ls: seq<string>, c: Cut, start: nat, end: nat, replacement: string)
    requires Wf(ls) && CutOk(c, ls, start, end, replacement)
    ensures (BlockFits(ls, c) <==> EndsCleanly(Flatten(ls), start, end, replacement))
  {
    if c.last == |ls| {
      if start < end { LastLineEnds(ls, end); }
    } else if start == end {
      InsertionFits(ls, c, start, replacement);
    } else {
      SpanToLineEnd(ls, end, c.last);
      StartsOnLine(ls, start, end, c.first);
      SpanAtLineStart(ls, start, c.first);
      BlockEnds(Flatten(ls), Off(ls, c.first), start, end, Off(ls, c.last), replacement);
    }
  }

  lemma StartsOnLine(ls: seq<string>, start: nat, end: nat, first: nat)
    requires Wf(ls) && Holds(ls, start, first) && start < end <= |Flatten(ls)|
    ensures OnLine(ls, start, first)
  {
    OffEnd(ls);
  }

  /** What is inserted on a line that is not the last is followed by the rest of that line. */
  lemma InsertionFits(ls: seq<string>, c: Cut, at: nat, replacement: string)
    requires Wf(ls) && CutOk(c, ls, at, at, replacement) && c.last < |ls|
    ensures BlockFits(ls, c)
  {
    LineBreak(ls, c.last);
    var s, b := Flatten(ls), Off(ls, c.last);
    assert s[at..b][b - at - 1] == s[b - 1] == NL;
    EndOf(s[Off(ls, c.first)..at], replacement, s[at..b]);
  }

  lemma BlockEnds(s: string, a: nat, i: nat, j: nat, b: nat, r: string)
    requires a <= i < j <= b <= |s| && s[b - 1] == NL
    requires (i == a <==> i == 0 || s[i - 1] == NL)
    requires j < |s| && (s[j - 1] == NL <==> j == b)
    ensures var block := s[a..i] + r + s[j..b];
            (block == "" || Ended(block) <==> EndsCleanly(s, i, j, r))
  {
    var x, y := s[a..i], s[j..b];
    EndOf(x, r, y);
    if y != "" {
      assert y[|y| - 1] == s[b - 1];
    } else if r == "" && x != "" {
      assert x[|x| - 1] == s[i - 1];
    }
  }

  /** A span that ends on the last line: a newline in it is the end of the text. */
  lemma LastLineEnds(ls: seq<string>, end: nat)
    requires Wf(ls) && ls != [] && Off(ls, |ls| - 1) < end <= |Flatten(ls)|
    ensures end == |Flatten(ls)| || Flatten(ls)[end - 1] != NL
  {
    OffEnd(ls);
    NewlineEndsLine(ls, end - 1, |ls| - 1);
  }

  /** The new range counts nothing exactly when nothing is left of the file. */
  lemma NothingLeft(ls: seq<string>, c: Cut, start: nat, end: nat, replacement: string)
    requires Wf(ls) && CutOk(c, ls, start, end, replacement)
    ensures (PatchOf(ls, c).newCount == 0 <==> !SomethingLeft(Flatten(ls), start, end, replacement))
  {
    NewSize(ls, c);
    WholeFile(ls, c.first, c.last);
    LongEnough(ls);
  }

  lemma NewSize(ls: seq<string>, c: Cut)
    requires InOrder(c, |ls|) && c.ctxFirst == Max(0, c.first - 3) && c.ctxLast == Min(|ls|, c.last + 3)
    ensures (PatchOf(ls, c).newCount == 0 <==> c.first == 0 && c.last == |ls| && c.block == "")
  {
    if c.block != "" { LastEnded(c.block); }
    assert PatchOf(ls, c).newCount == (c.first - c.ctxFirst) + |LinesOf(c.block)| + (c.ctxLast - c.last);
  }

  lemma WholeFile(ls: seq<string>, first: nat, last: nat)
    requires Wf(ls) && first <= last <= |ls|
    ensures Off(ls, first) == 0 <==> first == 0
    ensures Off(ls, last) == |Flatten(ls)| <==> last == |ls|
  {
    OffEnd(ls);
    assert Off(ls, 0) == 0 by { assert ls[..0] == []; }
    OffMonotone(ls, 0, first);
    OffMonotone(ls, last, |ls|);
  }

  // ---------- The result ----------

  lemma ResultFits(head: seq<string>, block: string, tail: seq<string>)
    requires Wf(head) && Wf(tail) && (head == [] || Ended(head[|head| - 1]))
    ensures var result := head + LinesOf(block) + tail;
            (LinesOf(Flatten(result)) == result <==> block == "" || tail == [] || Ended(block))
  {
    var mid := LinesOf(block);
    var result := head + mid + tail;
    LinesOfText(block);
    if block != "" {
      LastEnded(block);
      assert (head + mid)[|head + mid| - 1] == mid[|mid| - 1];
    }
    if block == "" || tail == [] || Ended(block) {
      WfJoin(head, mid);
      WfJoin(head + mid, tail);
      LinesOfFlat(result);
    } else {
      var k := |head + mid| - 1;
      assert result[k] == mid[|mid| - 1] && !Ended(result[k]) && k < |result| - 1;
      LinesOfText(Flatten(result));
    }
  }

  lemma ResultText(ls: seq<string>, c: Cut, start: nat, end: nat, replacement: string)
    requires Wf(ls) && CutOk(c, ls, start, end, replacement)
    ensures Flatten(ls[..c.first] + LinesOf(c.block) + ls[c.last..]) == Mutated(Flatten(ls), start, end, replacement)
  {
    var head, mid, tail := ls[..c.first], LinesOf(c.block), ls[c.last..];
    LinesOfText(c.block);
    FlattenConcat(head + mid, tail);
    FlattenConcat(head, mid);
    OffMonotone(ls, c.first, c.last);
    Splice(Flatten(ls), Off(ls, c.first), start, end, Off(ls, c.last), replacement);
  }

  lemma Splice(s: string, a: nat, i: nat, j: nat, b: nat, r: string)
    requires a <= i <= j <= b <= |s|
    ensures s[..a] + (s[a..i] + r + s[j..b]) + s[b..] == s[..i] + r + s[j..]
  {
    assert s[..a] + s[a..i] == s[..i];
    assert s[j..b] + s[b..] == s[j..];
    Nested(s[..a], s[a..i], r, s[j..b], s[b..]);
  }

  lemma Nested(u: string, v: string, r: string, x: string, y: string)
    ensures u + (v + r + x) + y == (u + v) + r + (x + y)
  {
    assert u + (v + r + x) == (u + v) + r + x;
  }

  lemma ResultIsText(ls: seq<string>, c: Cut, start: nat, end: nat, replacement: string)
    requires Wf(ls) && CutOk(c, ls, start, end, replacement)
    ensures var result := ls[..c.first] + LinesOf(c.block) + ls[c.last..];
            (LinesOf(Flatten(result)) == result <==> EndsCleanly(Flatten(ls), start, end, replacement))
  {
    FitsExactly(ls, c, start, end, replacement);
    WfPart(ls, 0, c.first);
    WfPart(ls, c.last, |ls|);
    if c.first > 0 { assert Ended(ls[c.first - 1]); }
    ResultFits(ls[..c.first], c.block, ls[c.last..]);
  }

  lemma BodyOfCut(ls: seq<string>, c: Cut)
    requires Wf(ls) && InOrder(c, |ls|)
    ensures BodyOk(PatchOf(ls, c).body)
  {
    LinesOfText(c.block);
    BodyOfBlocks(ls[c.ctxFirst..c.first], ls[c.first..c.last], LinesOf(c.block), ls[c.last..c.ctxLast]);
  }

  /** What the printed hunk makes of the lines it was cut from. */
  lemma {:induction false} CutOnLines(ls: seq<string>, c: Cut, start: nat, end: nat, replacement: string)
    requires Wf(ls) && CutOk(c, ls, start, end, replacement)
    ensures ApplyLines(ls, PatchOf(ls, c))
         == if ls != [] && SomethingLeft(Flatten(ls), start, end, replacement)
            then Some(ls[..c.first] + LinesOf(c.block) + ls[c.last..]) else None
  {
    PatchBlocks(ls, c);
    if ls == [] {
      EmptyRefuses(LinesOf(c.block));
    } else {
      NothingLeft(ls, c, start, end, replacement);
      AssembledApplies(ls, c.ctxFirst, c.first, c.last, c.ctxLast, LinesOf(c.block));
    }
  }

  /** What a strict reader makes of a printed patch, given what its hunk makes of the lines. */
  lemma {:induction false} ReadAndApply(file: string, ls: seq<string>, p: Patch)
    requires Wf(ls) && BodyOk(p.body)
    ensures ApplyPatch(Flatten(ls), RenderPatch(file, p))
         == match ApplyLines(ls, p)
            case None => None
            case Some(result) => if LinesOf(Flatten(result)) == result then Some(Flatten(result)) else None
  {
    PatchReads(file, p);
    LinesOfFlat(ls);
  }

  /** What the printed patch makes of a file, on its lines. */
  lemma {:induction false} CutApplies(file: string, ls: seq<string>, c: Cut, start: nat, end: nat, replacement: string)
    requires Wf(ls) && CutOk(c, ls, start, end, replacement)
    ensures ApplyPatch(Flatten(ls), RenderPatch(file, PatchOf(ls, c)))
         == if Applicable(Flatten(ls), start, end, replacement) then Some(Mutated(Flatten(ls), start, end, replacement)) else None
  {
    BodyOfCut(ls, c);
    ReadAndApply(file, ls, PatchOf(ls, c));
    CutOnLines(ls, c, start, end, replacement);
    LongEnough(ls);
    ResultIsText(ls, c, start, end, replacement);
    ResultText(ls, c, start, end, replacement);
  }

  /** The patch printed for a span, applied strictly, gives the mutated text; and when the span is
      not applicable, no strict reader accepts it. */
  lemma {:induction false} PatchApplies(file: string, src: string, start: nat, end: nat, replacement: string)
    requires start <= end <= |src|
    ensures ApplyPatch(src, DiffOf(file, src, start, end, replacement))
         == if Applicable(src, start, end, replacement) then Some(Mutated(src, start, end, replacement)) else None
  {
    LinesOfText(src);
    var ls := LinesOf(src);
    CutIsOk(ls, start, end, replacement);
    CutApplies(file, ls, CutOf(ls, start, end, replacement), start, end, replacement);
  }
}
