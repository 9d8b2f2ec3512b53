/** The parser of zero-context git diffs, as a machine over the lines of the text. */
module GitDiff {
  import opened Base
  import Decimal
  import opened Lines
  import UnifiedDiff

  /** strconv.Unquote, not modelled: some function that may fail. */
  type Unquote = string -> Option<string>

  const MAX_INT: int := 0x7fff_ffff_ffff_ffff
  const MAX_LINE: nat := 8 * 1024 * 1024
  const TITLE: string := "diff --git "
  const MARK: string := UnifiedDiff.MARK
  const BINARY: string := "GIT binary patch"

  // ---------- Lexical functions ----------

  /** A numeral that fits the machine's int. */
  function Atoi(s: string): Option<nat> {
    match Decimal.Parse(s) case Some(n) => (if n <= MAX_INT then Some(n) else None) case None => None
  }

  function PositiveCount(s: string): Option<nat> { if s == "" then Some(1) else Atoi(s) }

  /** The machine's start + i, which wraps around. */
  function Place(start: nat, i: nat): int {
    if start + i > MAX_INT then start + i - 2 * (MAX_INT + 1) else start + i
  }

  /** The lines start, start + 1, ... of a hunk. */
  function Span(start: nat, count: nat): set<int> { set i: nat | 0 <= i < count :: Place(start, i) }

  ghost predicate IsInterval(lines: set<int>, start: nat, count: nat) {
    forall line :: line in lines <==> start <= line < start + count
  }

  /** They are an interval exactly when the last of them, if there is one, is representable. */
  lemma SpanIsInterval(start: nat, count: nat)
    ensures IsInterval(Span(start, count), start, count) <==> count == 0 || start + count <= MAX_INT + 1
  {
    if count == 0 || start + count <= MAX_INT + 1 {
      forall line ensures line in Span(start, count) <==> start <= line < start + count {
        if start <= line < start + count { assert Place(start, line - start) == line; }
      }
    } else {
      var last := start + count - 1;
      forall i: nat | i < count ensures Place(start, i) != last {}
      assert last !in Span(start, count);
    }
  }

  function DecodePath(u: Unquote, header: string, prefix: string): Option<string> {
    match if HasPrefix(header, "\"") then u(header) else Some(header)
    case None => None
    case Some(path) =>
      if path == "/dev/null" then Some("")
      else if !HasPrefix(path, prefix) then None
      else
        var name := path[|prefix|..];
        if name == "" || HasPrefix(name, "/") then None else Some(name)
  }

  /** The path in a header line, unquoted when it is quoted. */
  function PathIn(u: Unquote, header: string): Option<string> {
    if header != "" && header[0] == '"' then u(header) else Some(header)
  }

  /** A header names nothing when it says /dev/null, and otherwise what follows the prefix, which is a relative
      path. */
  lemma DecodesExactly(u: Unquote, header: string, prefix: string, name: string)
    ensures DecodePath(u, header, prefix) == Some(name) <==>
      match PathIn(u, header)
      case None => false
      case Some(path) =>
        if path == "/dev/null" then name == "" else path == prefix + name && name != "" && name[0] != '/'
  {
    assert HasPrefix(header, "\"") <==> header != "" && header[0] == '"' by {
      if header != "" { assert header[..1] == [header[0]]; }
    }
    if PathIn(u, header).Some? {
      var path := PathIn(u, header).value;
      if HasPrefix(path, prefix) {
        var rest := path[|prefix|..];
        assert path == prefix + rest;
        if rest != "" { assert rest[..1] == [rest[0]]; }
      }
      if path == prefix + name {
        assert path[..|prefix|] == prefix && path[|prefix|..] == name;
      }
    }
  }

  function DigitRun(s: string): (n: nat)
    ensures n <= |s| && (forall i :: 0 <= i < n ==> Decimal.IsDigit(s[i])) && (n < |s| ==> !Decimal.IsDigit(s[n]))
  {
    if s == "" || !Decimal.IsDigit(s[0]) then 0 else 1 + DigitRun(s[1..])
  }

  /** An optional comma and numeral, and what follows. */
  function MatchCount(s: string): Option<(string, string)> {
    if s == "" || s[0] != ',' then Some(("", s))
    else
      var k := DigitRun(s[1..]);
      if k == 0 then None else Some((s[1..][..k], s[1..][k..]))
  }

  /** A numeral, an optional comma and numeral, and what follows. */
  function MatchRange(s: string): Option<(string, string, string)> {
    var n := DigitRun(s);
    if n == 0 then None
    else match MatchCount(s[n..])
      case None => None
      case Some(c) => Some((s[..n], c.0, c.1))
  }

  /** The texts of a hunk header: both starts and both counts, which may be absent. */
  datatype Header = Header(oldStart: string, oldCount: string, newStart: string, newCount: string)

  /** What follows the prefix. */
  function AfterPrefix(s: string, p: string): Option<string> {
    if HasPrefix(s, p) then Some(s[|p|..]) else None
  }

  /** A prefix and a range. */
  function MatchSide(s: string, p: string): Option<(string, string, string)> {
    match AfterPrefix(s, p) case None => None case Some(rest) => MatchRange(rest)
  }

  /** The hunk header expression, on one line. */
  function MatchHunk(l: string): Option<Header> {
    match MatchSide(l, "@@ -")
    case None => None
    case Some(o) =>
      match MatchSide(o.2, " +")
      case None => None
      case Some(n) => if HasPrefix(n.2, " @@") then Some(Header(o.0, o.1, n.0, n.1)) else None
  }

  /** The start and the two counts that the parser uses; the old start it ignores. */
  datatype Counts = Counts(olds: nat, start: nat, news: nat)

  function ReadCounts(h: Header): Option<Counts> {
    match (Atoi(h.newStart), PositiveCount(h.oldCount), PositiveCount(h.newCount))
    case (Some(s), Some(o), Some(n)) => Some(Counts(o, s, n))
    case _ => None
  }

  predicate IsTitle(l: string) { HasPrefix(l, TITLE) }
  predicate IsIndex(l: string) { HasPrefix(l, "index ") }

  /** The metadata lines other than the binary patch line. */
  predicate IsMeta(l: string) {
    || IsIndex(l) || HasPrefix(l, "Binary files ") || HasPrefix(l, "old mode ") || HasPrefix(l, "new mode ")
    || HasPrefix(l, "new file mode ") || HasPrefix(l, "deleted file mode ") || HasPrefix(l, "similarity index ")
    || HasPrefix(l, "dissimilarity index ") || HasPrefix(l, "rename from ") || HasPrefix(l, "rename to ")
    || HasPrefix(l, "copy from ") || HasPrefix(l, "copy to ")
  }

  // ---------- The machine ----------

  type Changed = map<string, set<int>>

  datatype State = State(changed: Changed, file: string, inDiff: bool, oldHeader: bool, newHeader: bool,
                         binaryPatch: bool, hunkSeen: bool, metadataOnly: bool, olds: int, news: int)

  const START: State := State(map[], "", false, false, false, false, false, false, 0, 0)

  function Opened(changed: Changed): State { State(changed, "", true, false, false, false, false, false, 0, 0) }

  predicate CheckFile(st: State) {
    st.oldHeader == st.newHeader && (st.oldHeader || st.metadataOnly) && st.olds == 0 && st.news == 0
  }

  predicate InHunk(st: State) { st.olds > 0 || st.news > 0 }

  function Extend(changed: Changed, file: string, lines: set<int>): Changed {
    changed[file := (if file in changed then changed[file] else {}) + lines]
  }

  function Record(changed: Changed, file: string, c: Counts): Changed {
    if file != "" && c.news > 0 then Extend(changed, file, Span(c.start, c.news)) else changed
  }

  function PayloadStep(st: State, l: string): Option<State> {
    if l == MARK then Some(st)
    else if l == "" then None
    else
      var o := if l[0] == '-' || l[0] == ' ' then 1 else 0;
      var n := if l[0] == '+' || l[0] == ' ' then 1 else 0;
      if (o == 0 && n == 0) || st.olds < o || st.news < n then None
      else Some(st.(olds := st.olds - o, news := st.news - n))
  }

  function HunkStep(st: State, l: string): Option<State> {
    if !st.newHeader then None
    else match MatchHunk(l)
      case None => None
      case Some(h) =>
        match ReadCounts(h)
        case None => None
        case Some(c) =>
          Some(st.(changed := Record(st.changed, st.file, c), hunkSeen := true, olds := c.olds, news := c.news))
  }

  function OldStep(u: Unquote, st: State, l: string): Option<State>
    requires HasPrefix(l, "--- ")
  {
    if st.oldHeader || st.newHeader || st.hunkSeen || DecodePath(u, l[4..], "a/").None? then None
    else Some(st.(oldHeader := true))
  }

  function NewStep(u: Unquote, st: State, l: string): Option<State>
    requires HasPrefix(l, "+++ ")
  {
    if !st.oldHeader || st.newHeader then None
    else match DecodePath(u, l[4..], "b/") case None => None case Some(f) => Some(st.(file := f, newHeader := true))
  }

  function MetaStep(st: State, l: string): Option<State> {
    if l == BINARY then Some(st.(binaryPatch := true, metadataOnly := true))
    else if IsMeta(l) then Some(st.(metadataOnly := st.metadataOnly || !IsIndex(l)))
    else None
  }

  /** A line of an open section outside hunks. */
  function SectionStep(u: Unquote, st: State, l: string): Option<State> {
    if st.binaryPatch then Some(st)
    else if l == MARK && st.hunkSeen then Some(st)
    else if HasPrefix(l, "--- ") then OldStep(u, st, l)
    else if HasPrefix(l, "+++ ") then NewStep(u, st, l)
    else if HasPrefix(l, "@@") then HunkStep(st, l)
    else MetaStep(st, l)
  }

  function Step(u: Unquote, st: State, l: string): Option<State> {
    if InHunk(st) then PayloadStep(st, l)
    else if IsTitle(l) then if st.inDiff && !CheckFile(st) then None else Some(Opened(st.changed))
    else if !st.inDiff then None
    else SectionStep(u, st, l)
  }

  function Run(u: Unquote, st: State, ls: seq<string>): Option<State>
    decreases |ls|
  {
    if ls == [] then Some(st)
    else match Step(u, st, ls[0]) case None => None case Some(next) => Run(u, next, ls[1..])
  }

  // ---------- Texts ----------

  function Chop(l: string, c: char): string { if l != "" && l[|l| - 1] == c then l[..|l| - 1] else l }

  /** A scanned line: without its newline, and then without one carriage return. */
  function Scanned(l: string): string { Chop(Chop(l, '\n'), '\r') }

  predicate TooLong(l: string) { |Chop(l, '\n')| >= MAX_LINE }

  function Texts(ls: seq<string>): (r: seq<string>)
    ensures |r| == |ls| && forall i :: 0 <= i < |ls| ==> r[i] == Scanned(ls[i])
  {
    seq(|ls|, i requires 0 <= i < |ls| => Scanned(ls[i]))
  }

  predicate AllShort(ls: seq<string>) { forall i :: 0 <= i < |ls| ==> !TooLong(ls[i]) }

  /** What the parser returns. */
  function Parsed(u: Unquote, data: string): Option<Changed> {
    if Blank(data) then Some(map[])
    else
      var ls := LinesOf(data);
      if !AllShort(ls) then None
      else match Run(u, START, Texts(ls))
        case None => None
        case Some(st) => if CheckFile(st) then Some(st.changed) else None
  }

  // ---------- The parser ----------

  /** The loop that marks the new lines of a hunk one by one. */
  method Mark(changed0: Changed, file: string, start: nat, count: nat) returns (changed: Changed)
    requires count > 0
    ensures changed == Extend(changed0, file, Span(start, count))
  {
    changed := changed0;
    if file !in changed {
      changed := changed[file := {}];
    }
    ghost var base := changed[file];
    assert base + Span(start, 0) == base;
    for i := 0 to count
      invariant file in changed && changed[file] == base + Span(start, i)
      invariant changed == changed0[file := changed[file]]
    {
      SpanGrows(start, i);
      changed := changed[file := changed[file] + {Place(start, i)}];
    }
  }

  lemma SpanGrows(start: nat, i: nat)
    ensures Span(start, i + 1) == Span(start, i) + {Place(start, i)}
  {
    forall x | x in Span(start, i) + {Place(start, i)} ensures x in Span(start, i + 1) {
      if x in Span(start, i) {
        var k: nat :| k < i && x == Place(start, k);
        assert Place(start, k) in Span(start, i + 1);
      } else {
        assert Place(start, i) in Span(start, i + 1);
      }
    }
  }

  method HunkLine(st0: State, l: string) returns (r: Option<State>)
    ensures r == HunkStep(st0, l)
  {
    if !st0.newHeader { return None; }
    var m := MatchHunk(l);
    if m.None? { return None; }
    var start := Atoi(m.value.newStart);
    if start.None? { return None; }
    var olds := PositiveCount(m.value.oldCount);
    if olds.None? { return None; }
    var news := PositiveCount(m.value.newCount);
    if news.None? { return None; }
    var changed := st0.changed;
    if st0.file != "" && news.value > 0 {
      changed := Mark(changed, st0.file, start.value, news.value);
    }
    r := Some(st0.(changed := changed, hunkSeen := true, olds := olds.value, news := news.value));
  }

  method PayloadLine(st0: State, l: string) returns (r: Option<State>)
    requires InHunk(st0) && st0.olds >= 0 && st0.news >= 0
    ensures r == PayloadStep(st0, l)
  {
    if l == MARK { return Some(st0); }
    if |l| == 0 { return None; }
    var st := st0;
    if l[0] == '+' {
      st := st.(news := st.news - 1);
    } else if l[0] == '-' {
      st := st.(olds := st.olds - 1);
    } else if l[0] == ' ' {
      st := st.(olds := st.olds - 1, news := st.news - 1);
    } else {
      return None;
    }
    if st.olds < 0 || st.news < 0 { return None; }
    r := Some(st);
  }

  method OneLine(u: Unquote, st: State, l: string) returns (r: Option<State>)
    requires st.olds >= 0 && st.news >= 0
    ensures r == Step(u, st, l)
  {
    if st.olds > 0 || st.news > 0 {
      r := PayloadLine(st, l);
    } else if IsTitle(l) {
      r := if st.inDiff && !CheckFile(st) then None else Some(Opened(st.changed));
    } else if !st.inDiff {
      r := None;
    } else if !st.binaryPatch && !(l == MARK && st.hunkSeen) && !HasPrefix(l, "--- ") && !HasPrefix(l, "+++ ")
              && HasPrefix(l, "@@") {
      r := HunkLine(st, l);
    } else {
      r := SectionStep(u, st, l);
    }
  }

  lemma {:induction false} StepKeepsSigns(u: Unquote, st: State, l: string)
    requires st.olds >= 0 && st.news >= 0 && Step(u, st, l).Some?
    ensures Step(u, st, l).value.olds >= 0 && Step(u, st, l).value.news >= 0
  {
  }

  /** The scanner and the machine. */
  method Parse(u: Unquote, data: string) returns (r: Option<Changed>)
    ensures r == Parsed(u, data)
  {
    if Blank(data) { return Some(map[]); }
    var ls := LinesOf(data);
    ghost var ts := Texts(ls);
    var st, i := START, 0;
    while i < |ls|
      invariant i <= |ls| && AllShort(ls[..i]) && st.olds >= 0 && st.news >= 0
      invariant Run(u, START, ts) == Run(u, st, ts[i..])
    {
      if TooLong(ls[i]) { return None; }
      var next := OneLine(u, st, Scanned(ls[i]));
      assert ts[i..][0] == Scanned(ls[i]) && ts[i..][1..] == ts[i + 1..];
      if next.None? { return None; }
      StepKeepsSigns(u, st, Scanned(ls[i]));
      st := next.value;
      i := i + 1;
    }
    assert ls[..i] == ls && ts[i..] == [];
    r := if CheckFile(st) then Some(st.changed) else None;
  }
}
