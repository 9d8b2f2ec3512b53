/** The texts the parser accepts, as a grammar, and the theorem that it accepts exactly those and
    returns exactly the lines their hunks name. */
module GitGrammar {
  import opened Base
  import opened GitDiff
  import Decimal
  import opened Lines

  const FILE_START: string := "diff --git "
  const NO_NEWLINE: string := "\\ No newline at end of file"

  /** A hunk: the texts of its header, what follows them on the line, and the payload. */
  datatype Hunk = Hunk(header: Header, section: string, payload: seq<string>)

  /** What a section of one file consists of. */
  datatype Item =
    | Meta(line: string)
    | OldName(name: string)
    | NewName(name: string)
    | Change(hunk: Hunk)
    | NoNewline
    | BinaryStart
    | Junk(line: string)

  datatype Section = Section(title: string, items: seq<Item>)

  // ---------- As text lines ----------

  function Comma(count: string): string { if count == "" then "" else "," + count }

  function Range(start: string, count: string, rest: string): string { start + (Comma(count) + rest) }

  function HeaderLine(h: Header, section: string): string {
    "@@ -" + Range(h.oldStart, h.oldCount, " +" + Range(h.newStart, h.newCount, " @@" + section))
  }

  function ItemLines(it: Item): seq<string> {
    match it
    case Meta(l) => [l]
    case OldName(n) => ["--- " + n]
    case NewName(n) => ["+++ " + n]
    case Change(h) => [HeaderLine(h.header, h.section)] + h.payload
    case NoNewline => [NO_NEWLINE]
    case BinaryStart => ["GIT binary patch"]
    case Junk(l) => [l]
  }

  function ItemsLines(items: seq<Item>): seq<string> {
    if items == [] then [] else ItemsLines(items[..|items| - 1]) + ItemLines(items[|items| - 1])
  }

  function SectionLines(s: Section): seq<string> { [FILE_START + s.title] + ItemsLines(s.items) }

  function Render(ss: seq<Section>): seq<string> {
    if ss == [] then [] else SectionLines(ss[0]) + Render(ss[1..])
  }

  // ---------- Well-formedness ----------

  predicate Numeral(s: string) { s != "" && forall i :: 0 <= i < |s| ==> Decimal.IsDigit(s[i]) }
  predicate OptNumeral(s: string) { s == "" || Numeral(s) }

  predicate HeaderOk(h: Header) {
    Numeral(h.oldStart) && OptNumeral(h.oldCount) && Numeral(h.newStart) && OptNumeral(h.newCount)
  }

  /** How many lines of either side a payload holds. */
  function OldSize(payload: seq<string>): nat {
    if payload == [] then 0
    else OldSize(payload[1..]) + if payload[0] != "" && (payload[0][0] == '-' || payload[0][0] == ' ') then 1 else 0
  }

  function NewSize(payload: seq<string>): nat {
    if payload == [] then 0
    else NewSize(payload[1..]) + if payload[0] != "" && (payload[0][0] == '+' || payload[0][0] == ' ') then 1 else 0
  }

  /** The sizes count the lines that begin with the sign of the side, or with a blank. */
  lemma {:induction false} SizesCount(payload: seq<string>)
    ensures OldSize(payload) == |set i: nat | i < |payload| && payload[i] != "" && (payload[i][0] == '-' || payload[i][0] == ' ')|
    ensures NewSize(payload) == |set i: nat | i < |payload| && payload[i] != "" && (payload[i][0] == '+' || payload[i][0] == ' ')|
  {
    SideCounts(payload, '-');
    SideCounts(payload, '+');
    assert Signed(payload, '-') == set i: nat | i < |payload| && payload[i] != "" && (payload[i][0] == '-' || payload[i][0] == ' ');
    assert Signed(payload, '+') == set i: nat | i < |payload| && payload[i] != "" && (payload[i][0] == '+' || payload[i][0] == ' ');
  }

  function Signed(payload: seq<string>, sign: char): set<nat> {
    set i: nat | i < |payload| && payload[i] != "" && (payload[i][0] == sign || payload[i][0] == ' ')
  }

  lemma {:induction false} SideCounts(payload: seq<string>, sign: char)
    requires sign == '-' || sign == '+'
    ensures |Signed(payload, sign)| == if sign == '-' then OldSize(payload) else NewSize(payload)
    decreases |payload|
  {
    if payload != [] {
      var n := |payload| - 1;
      var front, last := payload[..n], payload[n];
      SideCounts(front, sign);
      assert payload == front + [last];
      SizesSnoc(front, last);
      SizeOfLine(last);
      assert Signed(payload, sign)
          == Signed(front, sign) + if last != "" && (last[0] == sign || last[0] == ' ') then {n} else {};
    }
  }

  predicate PayloadLineOk(l: string) { l == NO_NEWLINE || (l != "" && (l[0] == '-' || l[0] == '+' || l[0] == ' ')) }

  /** Arbitrary lines with a sign; a mark after the last of them does not belong to the payload. */
  predicate PayloadOk(payload: seq<string>) {
    && (forall i :: 0 <= i < |payload| ==> PayloadLineOk(payload[i]))
    && (payload != [] ==> payload[|payload| - 1] != NO_NEWLINE)
  }

  /** A count that is not written means one. */
  function CountOf(s: string): nat { if s == "" then 1 else Decimal.Places(s) }

  function StartOf(h: Header): nat { Decimal.Places(h.newStart) }

  /** The new start and the two counts fit the machine's int. */
  predicate Fits(h: Header) {
    StartOf(h) <= MAX_INT && CountOf(h.oldCount) <= MAX_INT && CountOf(h.newCount) <= MAX_INT
  }

  function Numbers(h: Header): Counts { Counts(CountOf(h.oldCount), StartOf(h), CountOf(h.newCount)) }

  /** What the parser reads in a header: the start of the new side, and both counts. */
  lemma ReadsNumbers(h: Header)
    requires HeaderOk(h)
    ensures ReadCounts(h) == if Fits(h) then Some(Counts(CountOf(h.oldCount), StartOf(h), CountOf(h.newCount))) else None
  {
    Decimal.ParseIsPlaces(h.newStart);
    Decimal.ParseIsPlaces(h.oldCount);
    Decimal.ParseIsPlaces(h.newCount);
  }

  /** The header is readable and its counts are those of the payload. */
  predicate HunkOk(h: Hunk) {
    && HeaderOk(h.header) && PayloadOk(h.payload) && Fits(h.header)
    && CountOf(h.header.oldCount) == OldSize(h.payload) && CountOf(h.header.newCount) == NewSize(h.payload)
  }

  predicate HasOld(items: seq<Item>) { items != [] && (items[|items| - 1].OldName? || HasOld(items[..|items| - 1])) }
  predicate HasNew(items: seq<Item>) { items != [] && (items[|items| - 1].NewName? || HasNew(items[..|items| - 1])) }
  predicate HasHunk(items: seq<Item>) { items != [] && (items[|items| - 1].Change? || HasHunk(items[..|items| - 1])) }

  predicate HasBinary(items: seq<Item>) {
    items != [] && (items[|items| - 1].BinaryStart? || HasBinary(items[..|items| - 1]))
  }

  predicate ShowsChange(it: Item) { it.BinaryStart? || (it.Meta? && !("index " <= it.line)) }
  predicate HasChange(items: seq<Item>) { items != [] && (ShowsChange(items[|items| - 1]) || HasChange(items[..|items| - 1])) }

  /** How the lines begin that say something about a file without naming lines of it. */
  const METADATA: seq<string> := [
    "index ", "Binary files ", "old mode ", "new mode ", "new file mode ", "deleted file mode ",
    "similarity index ", "dissimilarity index ", "rename from ", "rename to ", "copy from ", "copy to "]

  predicate Metadata(l: string) { exists i :: 0 <= i < |METADATA| && METADATA[i] <= l }

  lemma MetadataIs(l: string)
    ensures Metadata(l) <==> IsMeta(l)
  {
    if IsMeta(l) {
      var i := if IsIndex(l) then 0 else if HasPrefix(l, "Binary files ") then 1 else if HasPrefix(l, "old mode ") then 2
        else if HasPrefix(l, "new mode ") then 3 else if HasPrefix(l, "new file mode ") then 4
        else if HasPrefix(l, "deleted file mode ") then 5 else if HasPrefix(l, "similarity index ") then 6
        else if HasPrefix(l, "dissimilarity index ") then 7 else if HasPrefix(l, "rename from ") then 8
        else if HasPrefix(l, "rename to ") then 9 else if HasPrefix(l, "copy from ") then 10 else 11;
      assert METADATA[i] <= l;
    }
  }

  /** What may follow the given items of a section. */
  predicate MayFollow(u: Unquote, before: seq<Item>, it: Item) {
    match it
    case Meta(l) => Metadata(l) && !HasBinary(before)
    case OldName(n) =>
      !HasOld(before) && !HasNew(before) && !HasHunk(before) && !HasBinary(before) && DecodePath(u, n, "a/").Some?
    case NewName(n) => HasOld(before) && !HasNew(before) && !HasBinary(before) && DecodePath(u, n, "b/").Some?
    case Change(h) => HasNew(before) && !HasBinary(before) && HunkOk(h)
    case NoNewline => HasHunk(before) && !HasBinary(before)
    case BinaryStart => !HasBinary(before)
    case Junk(l) => HasBinary(before) && !(FILE_START <= l)
  }

  predicate ItemsOk(u: Unquote, items: seq<Item>) {
    items != [] ==> ItemsOk(u, items[..|items| - 1]) && MayFollow(u, items[..|items| - 1], items[|items| - 1])
  }

  /** Both names or neither, and without names some sign of a change. */
  predicate SectionOk(u: Unquote, s: Section) {
    ItemsOk(u, s.items) && HasOld(s.items) == HasNew(s.items) && (HasOld(s.items) || HasChange(s.items))
  }

  predicate SectionsOk(u: Unquote, ss: seq<Section>) { forall i :: 0 <= i < |ss| ==> SectionOk(u, ss[i]) }

  // ---------- What the hunks name ----------

  /** The surviving file of a section: "" when it is deleted or not named. */
  function FileOf(u: Unquote, items: seq<Item>): string {
    if items == [] then ""
    else
      var it := items[|items| - 1];
      if it.NewName? && DecodePath(u, it.name, "b/").Some? then DecodePath(u, it.name, "b/").value
      else FileOf(u, items[..|items| - 1])
  }

  function Named(u: Unquote, changed: Changed, items: seq<Item>): Changed {
    if items == [] then changed
    else
      var before, it := items[..|items| - 1], items[|items| - 1];
      var c := Named(u, changed, before);
      if it.Change? && Fits(it.hunk.header) then Record(c, FileOf(u, before), Numbers(it.hunk.header)) else c
  }

  function Changes(u: Unquote, changed: Changed, ss: seq<Section>): Changed
    decreases |ss|
  {
    if ss == [] then changed else Changes(u, Named(u, changed, ss[0].items), ss[1..])
  }

  // ---------- The machine follows the grammar ----------

  /** The state after some items of a section. */
  function After(u: Unquote, changed: Changed, items: seq<Item>): State {
    State(Named(u, changed, items), FileOf(u, items), true, HasOld(items), HasNew(items),
          HasBinary(items), HasHunk(items), HasChange(items), 0, 0)
  }

  lemma Snoc(items: seq<Item>, it: Item)
    ensures (items + [it])[..|items + [it]| - 1] == items && (items + [it])[|items + [it]| - 1] == it
  {
  }

  /** The state after the header of a hunk. */
  function Counting(st: State, c: Counts): State {
    st.(changed := Record(st.changed, st.file, c), hunkSeen := true, olds := c.olds, news := c.news)
  }

  /** What may follow, by the flags of the state alone. */
  predicate Allowed(u: Unquote, st: State, it: Item) {
    match it
    case Meta(l) => Metadata(l) && !st.binaryPatch
    case OldName(n) =>
      !st.oldHeader && !st.newHeader && !st.hunkSeen && !st.binaryPatch && DecodePath(u, n, "a/").Some?
    case NewName(n) => st.oldHeader && !st.newHeader && !st.binaryPatch && DecodePath(u, n, "b/").Some?
    case Change(h) => st.newHeader && !st.binaryPatch && HunkOk(h)
    case NoNewline => st.hunkSeen && !st.binaryPatch
    case BinaryStart => !st.binaryPatch
    case Junk(l) => st.binaryPatch && !(FILE_START <= l)
  }

  /** The state after one more item. */
  function Next(u: Unquote, st: State, it: Item): State {
    match it
    case Meta(l) => st.(metadataOnly := st.metadataOnly || !("index " <= l))
    case OldName(n) => st.(oldHeader := true)
    case NewName(n) =>
      st.(newHeader := true, file := if DecodePath(u, n, "b/").Some? then DecodePath(u, n, "b/").value else st.file)
    case Change(h) =>
      if Fits(h.header) then Counting(st, Numbers(h.header)).(olds := 0, news := 0)
      else st.(hunkSeen := true)
    case NoNewline => st
    case BinaryStart => st.(binaryPatch := true, metadataOnly := true)
    case Junk(l) => st
  }

  lemma AfterSnoc(u: Unquote, changed: Changed, items: seq<Item>, it: Item)
    ensures After(u, changed, items + [it]) == Next(u, After(u, changed, items), it)
    ensures MayFollow(u, items, it) == Allowed(u, After(u, changed, items), it)
    ensures ItemsOk(u, items + [it]) == (ItemsOk(u, items) && MayFollow(u, items, it))
  {
    Snoc(items, it);
  }

  lemma ItemsLinesSnoc(items: seq<Item>, it: Item)
    ensures ItemsLines(items + [it]) == ItemsLines(items) + ItemLines(it)
  {
    Snoc(items, it);
  }

  lemma {:induction false} RunConcat(u: Unquote, st: State, a: seq<string>, b: seq<string>)
    ensures Run(u, st, a + b) == match Run(u, st, a) case None => None case Some(mid) => Run(u, mid, b)
    decreases |a|
  {
    if a == [] {
      assert a + b == b;
    } else {
      assert (a + b)[1..] == a[1..] + b;
      match Step(u, st, a[0])
      case None =>
      case Some(next) => RunConcat(u, next, a[1..], b);
    }
  }

  lemma RunOne(u: Unquote, st: State, l: string)
    ensures Run(u, st, [l]) == Step(u, st, l)
  {
    assert [l][1..] == [];
    match Step(u, st, l)
    case None =>
    case Some(next) => assert Run(u, next, []) == Some(next);
  }

  // ---------- Hunk headers ----------

  lemma {:induction false} DigitRunOf(n: string, rest: string)
    requires forall i :: 0 <= i < |n| ==> Decimal.IsDigit(n[i])
    requires rest == "" || !Decimal.IsDigit(rest[0])
    ensures DigitRun(n + rest) == |n|
    decreases |n|
  {
    if n != "" {
      assert (n + rest)[1..] == n[1..] + rest;
      DigitRunOf(n[1..], rest);
    } else {
      assert n + rest == rest;
    }
  }

  lemma Parts(a: string, b: string)
    ensures (a + b)[..|a|] == a && (a + b)[|a|..] == b
  {
  }

  lemma CountMatches(count: string, rest: string)
    requires OptNumeral(count) && rest != "" && rest[0] == ' '
    ensures MatchCount(Comma(count) + rest) == Some((count, rest))
  {
    if count == "" {
      assert Comma(count) + rest == rest;
    } else {
      assert (Comma(count) + rest)[1..] == count + rest;
      DigitRunOf(count, rest);
      Parts(count, rest);
    }
  }

  lemma RangeMatches(n: string, count: string, rest: string)
    requires Numeral(n) && OptNumeral(count) && rest != "" && rest[0] == ' '
    ensures MatchRange(Range(n, count, rest)) == Some((n, count, rest))
  {
    DigitRunOf(n, Comma(count) + rest);
    Parts(n, Comma(count) + rest);
    CountMatches(count, rest);
  }

  lemma CountMatched(s: string)
    requires MatchCount(s).Some?
    ensures s == Comma(MatchCount(s).value.0) + MatchCount(s).value.1 && OptNumeral(MatchCount(s).value.0)
  {
    if s != "" && s[0] == ',' {
      var k := DigitRun(s[1..]);
      assert s[1..] == s[1..][..k] + s[1..][k..];
      assert s == "," + s[1..];
    }
  }

  lemma {:induction false} LeadingDigits(s: string)
    requires DigitRun(s) > 0
    ensures Numeral(s[..DigitRun(s)])
  {
  }

  lemma {:induction false} RangeMatched(s: string)
    requires MatchRange(s).Some?
    ensures var m := MatchRange(s).value;
            s == Range(m.0, m.1, m.2) && Numeral(m.0) && OptNumeral(m.1)
  {
    var n := DigitRun(s);
    LeadingDigits(s);
    CountMatched(s[n..]);
    var c := MatchCount(s[n..]).value;
    assert Range(s[..n], c.0, c.1) == s[..n] + s[n..] == s;
  }

  lemma SideMatches(p: string, n: string, count: string, rest: string)
    requires Numeral(n) && OptNumeral(count) && rest != "" && rest[0] == ' '
    ensures MatchSide(p + Range(n, count, rest), p) == Some((n, count, rest))
  {
    Parts(p, Range(n, count, rest));
    RangeMatches(n, count, rest);
  }

  lemma {:induction false} SideMatched(s: string, p: string)
    requires MatchSide(s, p).Some?
    ensures var m := MatchSide(s, p).value;
            s == p + Range(m.0, m.1, m.2) && Numeral(m.0) && OptNumeral(m.1)
  {
    RangeMatched(s[|p|..]);
    assert s == p + s[|p|..];
  }

  lemma {:induction false} HeaderMatches(h: Header, section: string)
    requires HeaderOk(h)
    ensures MatchHunk(HeaderLine(h, section)) == Some(h)
  {
    var end := " @@" + section;
    var news := " +" + Range(h.newStart, h.newCount, end);
    SideMatches("@@ -", h.oldStart, h.oldCount, news);
    SideMatches(" +", h.newStart, h.newCount, end);
    Parts(" @@", section);
  }

  lemma PrefixSplits(s: string, p: string)
    requires HasPrefix(s, p)
    ensures s == p + s[|p|..]
  {
  }

  lemma Glue(l: string, o: (string, string, string), n: (string, string, string), section: string)
    requires l == "@@ -" + Range(o.0, o.1, o.2) && o.2 == " +" + Range(n.0, n.1, n.2) && n.2 == " @@" + section
    ensures l == HeaderLine(Header(o.0, o.1, n.0, n.1), section)
  {
  }

  /** Every line the expression matches is a header line. */
  lemma HeaderMatched(l: string) returns (section: string)
    requires MatchHunk(l).Some?
    ensures l == HeaderLine(MatchHunk(l).value, section) && HeaderOk(MatchHunk(l).value)
  {
    var o := MatchSide(l, "@@ -").value;
    var n := MatchSide(o.2, " +").value;
    SideMatched(l, "@@ -");
    SideMatched(o.2, " +");
    PrefixSplits(n.2, " @@");
    section := n.2[|" @@"|..];
    Glue(l, o, n, section);
  }

  // ---------- Payloads ----------

  /** A well-formed payload is consumed exactly. */
  lemma {:induction false} RunPayload(u: Unquote, st: State, payload: seq<string>)
    requires PayloadOk(payload) && st.olds == OldSize(payload) && st.news == NewSize(payload)
    ensures Run(u, st, payload) == Some(st.(olds := 0, news := 0))
    decreases |payload|
  {
    if payload != [] {
      LastCounts(payload);
      var next := PayloadStep(st, payload[0]).value;
      assert PayloadOk(payload[1..]);
      RunPayload(u, next, payload[1..]);
    }
  }

  /** A payload that ends with a signed line counts something. */
  lemma {:induction false} LastCounts(payload: seq<string>)
    requires PayloadOk(payload) && payload != []
    ensures OldSize(payload) + NewSize(payload) > 0 && PayloadLineOk(payload[0])
    decreases |payload|
  {
    if |payload| > 1 {
      assert PayloadOk(payload[1..]);
      LastCounts(payload[1..]);
    }
  }

  lemma {:induction false} HeaderOpens(u: Unquote, st: State, h: Hunk)
    requires HunkOk(h) && st.newHeader && !st.binaryPatch && st.inDiff && !InHunk(st)
    ensures Step(u, st, HeaderLine(h.header, h.section)) == Some(Counting(st, Numbers(h.header)))
  {
    ReadsNumbers(h.header);
    HeaderMatches(h.header, h.section);
    StartsAt(h.header, h.section);
    HeaderStep(u, st, HeaderLine(h.header, h.section));
  }

  lemma {:induction false} RunHunk(u: Unquote, st: State, h: Hunk)
    requires HunkOk(h) && st.newHeader && !st.binaryPatch && st.inDiff && !InHunk(st)
    ensures Run(u, st, ItemLines(Change(h)))
         == Some(Counting(st, Numbers(h.header)).(olds := 0, news := 0))
  {
    var mid := Counting(st, Numbers(h.header));
    HeaderOpens(u, st, h);
    RunPayload(u, mid, h.payload);
    RunCons(u, st, HeaderLine(h.header, h.section), h.payload, mid);
  }

  lemma RunCons(u: Unquote, st: State, l: string, rest: seq<string>, next: State)
    requires Step(u, st, l) == Some(next)
    ensures Run(u, st, [l] + rest) == Run(u, next, rest)
  {
    assert ([l] + rest)[1..] == rest;
  }

  lemma StartsAt(h: Header, section: string)
    ensures HasPrefix(HeaderLine(h, section), "@@")
  {
    assert HeaderLine(h, section)[..2] == "@@";
  }

  /** A line that begins with "@@" is read as a hunk header. */
  lemma HeaderStep(u: Unquote, st: State, l: string)
    requires HasPrefix(l, "@@") && !st.binaryPatch && st.inDiff && !InHunk(st)
    ensures Step(u, st, l) == HunkStep(st, l)
  {
    assert l[0] == l[..2][0] == '@';
    FirstChar(l);
  }

  /** The first character decides which kinds of line a line can be. */
  lemma FirstChar(l: string)
    requires l != ""
    ensures IsTitle(l) ==> l[0] == 'd'
    ensures HasPrefix(l, "--- ") ==> l[0] == '-'
    ensures HasPrefix(l, "+++ ") ==> l[0] == '+'
    ensures HasPrefix(l, "@@") ==> l[0] == '@'
    ensures l == NO_NEWLINE ==> l[0] == '\\'
    ensures l == "GIT binary patch" ==> l[0] == 'G'
  {
    if IsTitle(l) { assert l[..|FILE_START|][0] == l[0]; }
    if HasPrefix(l, "--- ") { assert l[..4][0] == l[0]; }
    if HasPrefix(l, "+++ ") { assert l[..4][0] == l[0]; }
    if HasPrefix(l, "@@") { assert l[..2][0] == l[0]; }
  }

  lemma PrefixStarts(l: string, p: string)
    requires |p| > 2
    ensures HasPrefix(l, p) ==> |l| > 2 && l[0] == p[0] && l[1] == p[1] && l[2] == p[2]
  {
    if HasPrefix(l, p) {
      assert l[..|p|][0] == l[0] && l[..|p|][1] == l[1] && l[..|p|][2] == l[2];
    }
  }

  lemma MetaStarts(l: string)
    requires IsMeta(l)
    ensures |l| > 2 && l[0] !in {'-', '+', '@', '\\', 'G'}
    ensures l[0] == 'd' ==> l[1] != 'i' || l[2] != 'f'
  {
    PrefixStarts(l, "index ");
    PrefixStarts(l, "Binary files ");
    PrefixStarts(l, "old mode ");
    PrefixStarts(l, "new mode ");
    PrefixStarts(l, "new file mode ");
    PrefixStarts(l, "deleted file mode ");
    PrefixStarts(l, "similarity index ");
    PrefixStarts(l, "dissimilarity index ");
    PrefixStarts(l, "rename from ");
    PrefixStarts(l, "rename to ");
    PrefixStarts(l, "copy from ");
    PrefixStarts(l, "copy to ");
  }

  /** A metadata line is none of the lines with a meaning of their own. */
  lemma MetaIsPlain(l: string)
    requires IsMeta(l)
    ensures !IsTitle(l) && !HasPrefix(l, "--- ") && !HasPrefix(l, "+++ ") && !HasPrefix(l, "@@") && l != NO_NEWLINE && l != "GIT binary patch"
  {
    MetaStarts(l);
    FirstChar(l);
    PrefixStarts(l, FILE_START);
  }

  function LineOf(it: Item): string
    requires !it.Change?
  {
    match it
    case Meta(l) => l
    case OldName(n) => "--- " + n
    case NewName(n) => "+++ " + n
    case NoNewline => NO_NEWLINE
    case BinaryStart => "GIT binary patch"
    case Junk(l) => l
  }

  /** An item of one line is followed by the machine ... */
  lemma ItemStep(u: Unquote, st: State, it: Item)
    requires !it.Change? && Allowed(u, st, it) && st.inDiff && !InHunk(st)
    ensures Step(u, st, LineOf(it)) == Some(Next(u, st, it))
  {
    var l := LineOf(it);
    match it {
      case Meta(_) => MetadataIs(l); MetaIsPlain(l);
      case OldName(n) => Parts("--- ", n); FirstChar(l);
      case NewName(n) => Parts("+++ ", n); FirstChar(l);
      case NoNewline => FirstChar(l);
      case BinaryStart => FirstChar(l);
      case Junk(_) =>
    }
  }

  /** ... and a line that the machine follows outside hunks is an item, unless it opens one. */
  lemma LineIsItem(u: Unquote, st: State, l: string) returns (it: Item)
    requires st.inDiff && !InHunk(st) && !IsTitle(l) && Step(u, st, l).Some?
    requires st.binaryPatch || !HasPrefix(l, "@@")
    ensures !it.Change? && Allowed(u, st, it) && LineOf(it) == l && Step(u, st, l) == Some(Next(u, st, it))
  {
    if st.binaryPatch {
      it := Junk(l);
    } else if l == NO_NEWLINE && st.hunkSeen {
      it := NoNewline;
    } else if HasPrefix(l, "--- ") {
      PrefixSplits(l, "--- ");
      it := OldName(l[4..]);
    } else if HasPrefix(l, "+++ ") {
      PrefixSplits(l, "+++ ");
      it := NewName(l[4..]);
    } else if l == "GIT binary patch" {
      it := BinaryStart;
    } else {
      MetadataIs(l);
      it := Meta(l);
    }
  }

  /** The machine follows the items of a section. */
  lemma {:induction false} RunItems(u: Unquote, changed: Changed, items: seq<Item>)
    requires ItemsOk(u, items)
    ensures Run(u, Opened(changed), ItemsLines(items)) == Some(After(u, changed, items))
    decreases |items|
  {
    if items != [] {
      var n := |items| - 1;
      var before, it := items[..n], items[n];
      assert items == before + [it];
      AfterSnoc(u, changed, before, it);
      RunItems(u, changed, before);
      RunItem(u, After(u, changed, before), it);
      RunConcat(u, Opened(changed), ItemsLines(before), ItemLines(it));
    }
  }

  lemma RunItem(u: Unquote, st: State, it: Item)
    requires Allowed(u, st, it) && st.inDiff && st.olds == 0 && st.news == 0
    ensures Run(u, st, ItemLines(it)) == Some(Next(u, st, it))
  {
    if it.Change? {
      RunHunk(u, st, it.hunk);
    } else {
      ItemStep(u, st, it);
      RunOne(u, st, LineOf(it));
    }
  }

  lemma TitleStep(u: Unquote, st: State, title: string)
    requires !InHunk(st) && (st.inDiff ==> CheckFile(st))
    ensures Step(u, st, FILE_START + title) == Some(Opened(st.changed))
  {
    Parts(FILE_START, title);
  }

  lemma {:induction false} RunSection(u: Unquote, st: State, s: Section)
    requires SectionOk(u, s) && !InHunk(st) && (st.inDiff ==> CheckFile(st))
    ensures Run(u, st, SectionLines(s)) == Some(After(u, st.changed, s.items))
    ensures CheckFile(After(u, st.changed, s.items))
  {
    TitleStep(u, st, s.title);
    RunCons(u, st, FILE_START + s.title, ItemsLines(s.items), Opened(st.changed));
    RunItems(u, st.changed, s.items);
  }

  /** Every text of the grammar is accepted, and its changes are found. */
  lemma {:induction false} RunSections(u: Unquote, st: State, ss: seq<Section>)
    requires SectionsOk(u, ss) && !InHunk(st) && (st.inDiff ==> CheckFile(st)) && (ss == [] ==> st.inDiff)
    ensures Run(u, st, Render(ss)).Some? && CheckFile(Run(u, st, Render(ss)).value)
    ensures Run(u, st, Render(ss)).value.changed == Changes(u, st.changed, ss)
    decreases |ss|
  {
    if ss != [] {
      RunSection(u, st, ss[0]);
      assert SectionsOk(u, ss[1..]);
      var mid := After(u, st.changed, ss[0].items);
      RunSections(u, mid, ss[1..]);
      RunConcat(u, st, SectionLines(ss[0]), Render(ss[1..]));
    }
  }

  // ---------- The grammar covers everything that is accepted ----------

  /** What is left to read begins inside the section `cur`; the sections found begin with it. */
  ghost predicate Continues(u: Unquote, changed: Changed, cur: Section, lines: seq<string>, ss: seq<Section>, found: Changed) {
    && SectionsOk(u, ss) && Render(ss) == SectionLines(cur) + lines && Changes(u, changed, ss) == found
  }

  lemma {:induction false} SectionGrows(cur: Section, it: Item, lines: seq<string>)
    ensures SectionLines(cur.(items := cur.items + [it])) + lines == SectionLines(cur) + (ItemLines(it) + lines)
  {
    ItemsLinesSnoc(cur.items, it);
    Regroup([FILE_START + cur.title], ItemsLines(cur.items), ItemLines(it), lines);
  }

  lemma Regroup(a: seq<string>, b: seq<string>, c: seq<string>, d: seq<string>)
    ensures (a + (b + c)) + d == (a + b) + (c + d)
  {
  }

  lemma {:induction false} Covered(u: Unquote, changed: Changed, cur: Section, lines: seq<string>) returns (ss: seq<Section>)
    requires ItemsOk(u, cur.items)
    requires Run(u, After(u, changed, cur.items), lines).Some? && CheckFile(Run(u, After(u, changed, cur.items), lines).value)
    ensures Continues(u, changed, cur, lines, ss, Run(u, After(u, changed, cur.items), lines).value.changed)
    decreases |lines|, 1
  {
    var st := After(u, changed, cur.items);
    if lines == [] {
      ss := [cur];
      LastSection(u, changed, cur);
    } else if IsTitle(lines[0]) {
      PrefixSplits(lines[0], FILE_START);
      var next := Section(lines[0][|FILE_START|..], []);
      var tail := Covered(u, st.changed, next, lines[1..]);
      ss := [cur] + tail;
      MoreSections(u, changed, cur, next, lines, tail);
    } else if !st.binaryPatch && HasPrefix(lines[0], "@@") {
      ss := CoveredHeader(u, changed, cur, lines);
    } else {
      var it := LineIsItem(u, st, lines[0]);
      AfterSnoc(u, changed, cur.items, it);
      ss := Covered(u, changed, cur.(items := cur.items + [it]), lines[1..]);
      ItemJoins(u, changed, cur, it, lines, ss, Run(u, st, lines).value.changed);
    }
  }

  lemma {:induction false} OneLineItem(it: Item, lines: seq<string>)
    requires !it.Change? && lines != [] && lines[0] == LineOf(it)
    ensures ItemLines(it) + lines[1..] == lines
  {
    assert ItemLines(it) == [lines[0]];
  }

  lemma {:induction false} ItemJoins(u: Unquote, changed: Changed, cur: Section, it: Item, lines: seq<string>, ss: seq<Section>, found: Changed)
    requires !it.Change? && lines != [] && lines[0] == LineOf(it)
    requires Continues(u, changed, cur.(items := cur.items + [it]), lines[1..], ss, found)
    ensures Continues(u, changed, cur, lines, ss, found)
  {
    SectionGrows(cur, it, lines[1..]);
    OneLineItem(it, lines);
  }

  lemma LastSection(u: Unquote, changed: Changed, cur: Section)
    requires ItemsOk(u, cur.items) && CheckFile(After(u, changed, cur.items))
    ensures Continues(u, changed, cur, [], [cur], After(u, changed, cur.items).changed)
  {
    assert [cur][1..] == [];
  }

  lemma OkInFront(u: Unquote, changed: Changed, cur: Section, tail: seq<Section>)
    requires ItemsOk(u, cur.items) && CheckFile(After(u, changed, cur.items)) && SectionsOk(u, tail)
    ensures SectionsOk(u, [cur] + tail)
  {
    var ss := [cur] + tail;
    forall i | 0 <= i < |ss| ensures SectionOk(u, ss[i]) {
      if i > 0 { assert ss[i] == tail[i - 1]; }
    }
  }

  lemma RenderInFront(cur: Section, next: Section, lines: seq<string>, tail: seq<Section>)
    requires next.items == [] && lines != [] && lines[0] == FILE_START + next.title
    requires Render(tail) == SectionLines(next) + lines[1..]
    ensures Render([cur] + tail) == SectionLines(cur) + lines
  {
    assert ([cur] + tail)[1..] == tail;
    assert SectionLines(next) + lines[1..] == lines;
  }

  lemma MoreSections(u: Unquote, changed: Changed, cur: Section, next: Section, lines: seq<string>, tail: seq<Section>)
    requires ItemsOk(u, cur.items) && CheckFile(After(u, changed, cur.items)) && next.items == []
    requires lines != [] && lines[0] == FILE_START + next.title && SectionsOk(u, tail)
    requires Render(tail) == SectionLines(next) + lines[1..]
    ensures SectionsOk(u, [cur] + tail) && Render([cur] + tail) == SectionLines(cur) + lines
    ensures Changes(u, changed, [cur] + tail) == Changes(u, After(u, changed, cur.items).changed, tail)
  {
    OkInFront(u, changed, cur, tail);
    RenderInFront(cur, next, lines, tail);
    assert ([cur] + tail)[1..] == tail;
  }

  lemma {:induction false} CoveredHeader(u: Unquote, changed: Changed, cur: Section, lines: seq<string>) returns (ss: seq<Section>)
    requires ItemsOk(u, cur.items) && lines != [] && HasPrefix(lines[0], "@@")
    requires var st := After(u, changed, cur.items);
             !st.binaryPatch && Run(u, st, lines).Some? && CheckFile(Run(u, st, lines).value)
    ensures Continues(u, changed, cur, lines, ss, Run(u, After(u, changed, cur.items), lines).value.changed)
    decreases |lines|, 0
  {
    var mid := Step(u, After(u, changed, cur.items), lines[0]).value;
    var h := HunkOpens(u, changed, cur, lines[0]);
    ss := CoveredPayload(u, changed, cur, h, mid, lines[1..]);
    HeaderJoins(u, changed, cur, h, lines, ss, Run(u, mid, lines[1..]).value.changed);
  }

  lemma {:induction false} HeaderJoins(u: Unquote, changed: Changed, cur: Section, h: Hunk, lines: seq<string>, ss: seq<Section>, found: Changed)
    requires lines != [] && ItemLines(Change(h)) == [lines[0]]
    requires Continues(u, changed, cur, ItemLines(Change(h)) + lines[1..], ss, found)
    ensures Continues(u, changed, cur, lines, ss, found)
  {
    assert [lines[0]] + lines[1..] == lines;
  }

  lemma HunkStepCounts(st: State, l: string)
    requires HunkStep(st, l).Some?
    ensures st.newHeader && MatchHunk(l).Some? && ReadCounts(MatchHunk(l).value).Some?
    ensures HunkStep(st, l) == Some(Counting(st, ReadCounts(MatchHunk(l).value).value))
  {
  }

  lemma NoPayloadYet(u: Unquote, changed: Changed, cur: Section, h: Hunk)
    requires ItemsOk(u, cur.items) && HeaderOk(h.header) && Fits(h.header) && h.payload == []
    requires After(u, changed, cur.items).newHeader && !After(u, changed, cur.items).binaryPatch
    ensures Partial(u, changed, cur, h, Counting(After(u, changed, cur.items), Numbers(h.header)))
  {
  }

  lemma HunkOf(l: string) returns (h: Hunk)
    requires MatchHunk(l).Some?
    ensures h.header == MatchHunk(l).value && HeaderOk(h.header) && h.payload == [] && ItemLines(Change(h)) == [l]
  {
    var section := HeaderMatched(l);
    h := Hunk(MatchHunk(l).value, section, []);
  }

  /** The header of a hunk is read. */
  lemma HunkOpens(u: Unquote, changed: Changed, cur: Section, l: string) returns (h: Hunk)
    requires ItemsOk(u, cur.items) && HasPrefix(l, "@@") && !After(u, changed, cur.items).binaryPatch
    requires Step(u, After(u, changed, cur.items), l).Some?
    ensures Partial(u, changed, cur, h, Step(u, After(u, changed, cur.items), l).value)
    ensures ItemLines(Change(h)) == [l]
  {
    HeaderStep(u, After(u, changed, cur.items), l);
    HunkStepCounts(After(u, changed, cur.items), l);
    h := HunkOf(l);
    ReadsNumbers(h.header);
    NoPayloadYet(u, changed, cur, h);
  }

  /** Some of the payload of the hunk has been read. */
  ghost predicate Partial(u: Unquote, changed: Changed, cur: Section, h: Hunk, st: State) {
    && ItemsOk(u, cur.items) && HeaderOk(h.header) && Fits(h.header)
    && After(u, changed, cur.items).newHeader && !After(u, changed, cur.items).binaryPatch
    && (forall i :: 0 <= i < |h.payload| ==> PayloadLineOk(h.payload[i]))
    && (h.payload != [] && h.payload[|h.payload| - 1] == NO_NEWLINE ==> InHunk(st))
    && var c := Numbers(h.header);
       c.olds >= OldSize(h.payload) && c.news >= NewSize(h.payload)
       && st == Counting(After(u, changed, cur.items), c).(olds := c.olds - OldSize(h.payload), news := c.news - NewSize(h.payload))
  }

  lemma {:induction false} CoveredPayload(u: Unquote, changed: Changed, cur: Section, h: Hunk, st: State, lines: seq<string>)
    returns (ss: seq<Section>)
    requires Partial(u, changed, cur, h, st)
    requires Run(u, st, lines).Some? && CheckFile(Run(u, st, lines).value)
    ensures Continues(u, changed, cur, ItemLines(Change(h)) + lines, ss, Run(u, st, lines).value.changed)
    decreases |lines|, 2
  {
    if !InHunk(st) {
      var whole := WithHunk(u, changed, cur, h, st);
      ss := Covered(u, changed, whole, lines);
      HunkJoins(u, changed, cur, h, lines, ss, Run(u, st, lines).value.changed);
    } else {
      var l := lines[0];
      PayloadGrows(u, changed, cur, h, st, l);
      ss := CoveredPayload(u, changed, cur, h.(payload := h.payload + [l]), Step(u, st, l).value, lines[1..]);
      MovePayload(h, lines);
    }
  }

  lemma WithHunk(u: Unquote, changed: Changed, cur: Section, h: Hunk, st: State) returns (whole: Section)
    requires Partial(u, changed, cur, h, st) && !InHunk(st)
    ensures whole == cur.(items := cur.items + [Change(h)])
    ensures ItemsOk(u, whole.items) && After(u, changed, whole.items) == st
  {
    whole := cur.(items := cur.items + [Change(h)]);
    WholePayload(u, changed, cur, h, st);
    AfterSnoc(u, changed, cur.items, Change(h));
  }

  lemma {:induction false} HunkJoins(u: Unquote, changed: Changed, cur: Section, h: Hunk, lines: seq<string>, ss: seq<Section>, found: Changed)
    requires Continues(u, changed, cur.(items := cur.items + [Change(h)]), lines, ss, found)
    ensures Continues(u, changed, cur, ItemLines(Change(h)) + lines, ss, found)
  {
    SectionGrows(cur, Change(h), lines);
  }

  lemma MovePayload(h: Hunk, lines: seq<string>)
    requires lines != []
    ensures ItemLines(Change(h.(payload := h.payload + [lines[0]]))) + lines[1..] == ItemLines(Change(h)) + lines
  {
    var a, p := [HeaderLine(h.header, h.section)], h.payload;
    assert (a + (p + [lines[0]])) + lines[1..] == (a + p) + lines;
  }

  lemma WholePayload(u: Unquote, changed: Changed, cur: Section, h: Hunk, st: State)
    requires Partial(u, changed, cur, h, st) && !InHunk(st)
    ensures HunkOk(h) && st == Next(u, After(u, changed, cur.items), Change(h))
  {
  }

  lemma {:induction false} SizesSnoc(payload: seq<string>, l: string)
    ensures OldSize(payload + [l]) == OldSize(payload) + OldSize([l])
    ensures NewSize(payload + [l]) == NewSize(payload) + NewSize([l])
    decreases |payload|
  {
    if payload == [] {
      assert payload + [l] == [l];
    } else {
      assert (payload + [l])[1..] == payload[1..] + [l];
      SizesSnoc(payload[1..], l);
    }
  }

  lemma SizeOfLine(l: string)
    ensures OldSize([l]) == if l != "" && (l[0] == '-' || l[0] == ' ') then 1 else 0
    ensures NewSize([l]) == if l != "" && (l[0] == '+' || l[0] == ' ') then 1 else 0
  {
    assert [l][1..] == [];
  }

  lemma PayloadGrows(u: Unquote, changed: Changed, cur: Section, h: Hunk, st: State, l: string)
    requires Partial(u, changed, cur, h, st) && InHunk(st) && Step(u, st, l).Some?
    ensures Partial(u, changed, cur, h.(payload := h.payload + [l]), Step(u, st, l).value)
  {
    SizesSnoc(h.payload, l);
    SizeOfLine(l);
  }

  /** The parser accepts exactly the blank texts and the texts of the grammar whose lines are not too
      long, and what it returns is exactly what the hunks of the grammar name. */
  lemma {:induction false} ParsesExactly(u: Unquote, data: string, changed: Changed)
    requires !Blank(data)
    ensures (Parsed(u, data) == Some(changed)
             <==> AllShort(LinesOf(data))
                  && exists ss :: ss != [] && SectionsOk(u, ss) && Render(ss) == Texts(LinesOf(data))
                                  && Changes(u, map[], ss) == changed)
  {
    var ts := Texts(LinesOf(data));
    if Parsed(u, data) == Some(changed) {
      var ss := Accepted(u, ts);
    }
    if ss: seq<Section> :| ss != [] && SectionsOk(u, ss) && Render(ss) == ts && Changes(u, map[], ss) == changed {
      RunSections(u, START, ss);
    }
  }

  lemma Accepted(u: Unquote, ts: seq<string>) returns (ss: seq<Section>)
    requires Run(u, START, ts).Some? && CheckFile(Run(u, START, ts).value)
    ensures ss != [] && SectionsOk(u, ss) && Render(ss) == ts && Changes(u, map[], ss) == Run(u, START, ts).value.changed
  {
    assert ts != [] && IsTitle(ts[0]);
    PrefixSplits(ts[0], FILE_START);
    var first := Section(ts[0][|FILE_START|..], []);
    ss := Covered(u, map[], first, ts[1..]);
    assert SectionLines(first) + ts[1..] == ts;
  }

  // ---------- Printed diffs ----------

  function Print(ls: seq<string>): string { Flatten(Ends(ls)) }

  function Ends(ls: seq<string>): (r: seq<string>)
    ensures |r| == |ls| && forall i :: 0 <= i < |ls| ==> r[i] == ls[i] + "\n"
  {
    seq(|ls|, i requires 0 <= i < |ls| => ls[i] + "\n")
  }

  /** A line the scanner gives back as it is. */
  predicate Plain(l: string) { '\n' !in l && Chop(l, '\r') == l && |l| < 8 * 1024 * 1024 }

  /** One carriage return before the newline belongs to the end of the line. */
  lemma CarriageReturn(l: string)
    ensures Scanned(l + "\r\n") == l && Scanned(l + "\r") == l
  {
    assert (l + "\r\n")[..|l| + 1] == l + "\r";
    assert (l + "\r")[..|l|] == l;
  }

  lemma PlainScans(l: string)
    requires Plain(l)
    ensures Scanned(l + "\n") == l && !TooLong(l + "\n") && IsLine(l + "\n") && Ended(l + "\n")
  {
    var m := l + "\n";
    assert m[..|m| - 1] == l;
    forall i | 0 <= i < |m| - 1 ensures m[i] != '\n' { assert m[i] == l[i]; }
  }

  /** Whatever the payloads are, parsing a printed diff gives the lines its hunks name. */
  lemma {:induction false} PrintedParses(u: Unquote, ss: seq<Section>)
    requires ss != [] && SectionsOk(u, ss) && forall i :: 0 <= i < |Render(ss)| ==> Plain(Render(ss)[i])
    ensures Parsed(u, Print(Render(ss))) == Some(Changes(u, map[], ss))
  {
    var ls := Render(ss);
    var data := Print(ls);
    forall i | 0 <= i < |ls| ensures Scanned(ls[i] + "\n") == ls[i] && !TooLong(ls[i] + "\n")
                                     && IsLine(ls[i] + "\n") && Ended(ls[i] + "\n") {
      PlainScans(ls[i]);
    }
    LinesOfFlat(Ends(ls));
    assert Texts(Ends(ls)) == ls;
    NotBlank(ss);
    RunSections(u, START, ss);
  }

  lemma NotBlank(ss: seq<Section>)
    requires ss != []
    ensures !Blank(Print(Render(ss)))
  {
    var ls := Render(ss);
    assert ls[0] == FILE_START + ss[0].title;
    assert Print(ls)[0] == Ends(ls)[0][0] == 'd';
  }

  // ---------- What the changes are ----------

  predicate Marks(m: Changed, f: string, n: int) { f in m && n in m[f] }

  /** Line n is number i behind start, in the machine's int. */
  predicate Wraps(start: nat, i: nat, n: int) {
    -MAX_INT - 1 <= n <= MAX_INT && (start + i - n) % (2 * (MAX_INT + 1)) == 0
  }

  lemma PlaceWraps(start: nat, i: nat, n: int)
    requires start <= MAX_INT && i <= MAX_INT
    ensures Place(start, i) == n <==> Wraps(start, i, n)
  {
  }

  lemma SpanWraps(start: nat, count: nat, n: int)
    requires start <= MAX_INT && count <= MAX_INT
    ensures n in Span(start, count) <==> exists i: nat :: i < count && Wraps(start, i, n)
  {
    if n in Span(start, count) {
      var i: nat :| i < count && Place(start, i) == n;
      PlaceWraps(start, i, n);
    }
    if i: nat :| i < count && Wraps(start, i, n) {
      PlaceWraps(start, i, n);
      assert Place(start, i) in Span(start, count);
    }
  }

  /** Hunk k of a section names line n of file f: one of as many lines as the new count says, from the
      new start on. */
  ghost predicate HunkNames(u: Unquote, items: seq<Item>, k: nat, f: string, n: int) {
    && k < |items| && items[k].Change? && f != "" && FileOf(u, items[..k]) == f && Fits(items[k].hunk.header)
    && exists i: nat :: i < CountOf(items[k].hunk.header.newCount) && Wraps(StartOf(items[k].hunk.header), i, n)
  }

  lemma {:induction false} LastNames(u: Unquote, changed: Changed, items: seq<Item>, f: string, n: int)
    requires items != []
    ensures Marks(Named(u, changed, items), f, n)
       <==> Marks(Named(u, changed, items[..|items| - 1]), f, n) || HunkNames(u, items, |items| - 1, f, n)
  {
    var it := items[|items| - 1];
    if it.Change? && Fits(it.hunk.header) {
      SpanWraps(StartOf(it.hunk.header), CountOf(it.hunk.header.newCount), n);
    }
  }

  lemma {:induction false} NamedExactly(u: Unquote, changed: Changed, items: seq<Item>, f: string, n: int)
    ensures (Marks(Named(u, changed, items), f, n)
             <==> Marks(changed, f, n) || exists k: nat :: HunkNames(u, items, k, f, n))
    decreases |items|
  {
    if items != [] {
      var last := |items| - 1;
      var before := items[..last];
      NamedExactly(u, changed, before, f, n);
      forall k: nat | k < last ensures HunkNames(u, items, k, f, n) <==> HunkNames(u, before, k, f, n) {
        assert items[..k] == before[..k];
      }
      LastNames(u, changed, items, f, n);
      if k: nat :| HunkNames(u, before, k, f, n) { assert HunkNames(u, items, k, f, n); }
      if k: nat :| HunkNames(u, items, k, f, n) { assert k == last || HunkNames(u, before, k, f, n); }
    }
  }

  /** A line is marked exactly when some hunk of a surviving file names it. */
  lemma {:induction false} ChangesExactly(u: Unquote, changed: Changed, ss: seq<Section>, f: string, n: int)
    ensures (Marks(Changes(u, changed, ss), f, n)
             <==> Marks(changed, f, n)
                  || exists i: nat, k: nat :: i < |ss| && HunkNames(u, ss[i].items, k, f, n))
    decreases |ss|
  {
    if ss != [] {
      var rest := ss[1..];
      NamedExactly(u, changed, ss[0].items, f, n);
      ChangesExactly(u, Named(u, changed, ss[0].items), rest, f, n);
      if i: nat, k: nat :| i < |rest| && HunkNames(u, rest[i].items, k, f, n) {
        assert HunkNames(u, ss[i + 1].items, k, f, n);
      }
      if i: nat, k: nat :| i < |ss| && HunkNames(u, ss[i].items, k, f, n) {
        assert i == 0 || HunkNames(u, rest[i - 1].items, k, f, n);
      }
    }
  }

  // ---------- One hunk, in numbers ----------

  function OneFile(from: string, file: string, h: Hunk): seq<Item> { [OldName(from), NewName("b/" + file), Change(h)] }

  lemma {:induction false} OneFileOk(u: Unquote, from: string, file: string, h: Hunk)
    requires DecodePath(u, from, "a/").Some? && file != "" && file[0] != '/' && HunkOk(h)
    ensures ItemsOk(u, OneFile(from, file, h)) && HasOld(OneFile(from, file, h)) && HasNew(OneFile(from, file, h))
    ensures FileOf(u, OneFile(from, file, h)[..2]) == file
  {
    var a, b, c := OldName(from), NewName("b/" + file), Change(h);
    DecodesExactly(u, "b/" + file, "b/", file);
    AfterSnoc(u, map[], [], a);
    assert [] + [a] == [a] && After(u, map[], []).file == "";
    AfterSnoc(u, map[], [a], b);
    AfterSnoc(u, map[], [a] + [b], c);
    assert [a] + [b] + [c] == OneFile(from, file, h) && OneFile(from, file, h)[..2] == [a] + [b];
  }

  lemma {:induction false} OneFileNames(u: Unquote, from: string, file: string, h: Hunk, f: string, n: int)
    requires DecodePath(u, from, "a/").Some? && file != "" && file[0] != '/' && HunkOk(h)
    ensures (exists k: nat :: HunkNames(u, OneFile(from, file, h), k, f, n))
       <==> f == file && exists i: nat :: i < CountOf(h.header.newCount) && Wraps(StartOf(h.header), i, n)
  {
    OneFileOk(u, from, file, h);
    if f == file && exists i: nat :: i < CountOf(h.header.newCount) && Wraps(StartOf(h.header), i, n) {
      assert HunkNames(u, OneFile(from, file, h), 2, f, n);
    }
    if k: nat :| HunkNames(u, OneFile(from, file, h), k, f, n) { assert k == 2; }
  }

  function OneFileLines(title: string, from: string, file: string, header: string, payload: seq<string>): seq<string> {
    ["diff --git " + title, "--- " + from, "+++ b/" + file, header] + payload
  }

  lemma {:induction false} OneFileRenders(title: string, from: string, file: string, h: Hunk)
    ensures Render([Section(title, OneFile(from, file, h))])
         == OneFileLines(title, from, file, HeaderLine(h.header, h.section), h.payload)
  {
    var a, b, c := OldName(from), NewName("b/" + file), Change(h);
    assert ([] + [a]) + [b] + [c] == OneFile(from, file, h);
    ItemsLinesSnoc([], a);
    ItemsLinesSnoc([] + [a], b);
    ItemsLinesSnoc([] + [a] + [b], c);
    assert [Section(title, OneFile(from, file, h))][1..] == [];
    assert "+++ " + ("b/" + file) == "+++ b/" + file;
  }

  /** A printed diff of one hunk marks the lines of the new side that its header says, of its file and of
      no other. */
  lemma {:induction false} OneFileMarks(u: Unquote, title: string, from: string, file: string, h: Hunk, f: string, n: int)
    requires DecodePath(u, from, "a/").Some? && file != "" && file[0] != '/' && HunkOk(h)
    requires forall l :: l in OneFileLines(title, from, file, HeaderLine(h.header, h.section), h.payload) ==> Plain(l)
    ensures var r := Parsed(u, Print(OneFileLines(title, from, file, HeaderLine(h.header, h.section), h.payload)));
      r.Some? && (Marks(r.value, f, n)
                  <==> f == file && exists i: nat :: i < CountOf(h.header.newCount) && Wraps(StartOf(h.header), i, n))
  {
    var s := Section(title, OneFile(from, file, h));
    OneFileOk(u, from, file, h);
    assert SectionsOk(u, [s]);
    OneFileRenders(title, from, file, h);
    PrintedParses(u, [s]);
    ChangesExactly(u, map[], [s], f, n);
    OneFileNames(u, from, file, h, f, n);
    if k: nat :| HunkNames(u, OneFile(from, file, h), k, f, n) { assert HunkNames(u, [s][0].items, k, f, n); }
  }

  lemma Interval(c: nat, d: nat, n: int)
    requires c <= MAX_INT && d <= MAX_INT && c + d <= MAX_INT + 1
    ensures (exists i: nat :: i < d && Wraps(c, i, n)) <==> c <= n < c + d
  {
    SpanWraps(c, d, n);
    SpanIsInterval(c, d);
    assert IsInterval(Span(c, d), c, d);
  }

  lemma HeaderText(a: string, b: string, c: string, d: string, section: string)
    requires b != "" && d != ""
    ensures HeaderLine(Header(a, b, c, d), section) == "@@ -" + a + "," + b + " +" + c + "," + d + " @@" + section
    ensures HeaderLine(Header(a, "", c, ""), section) == "@@ -" + a + " +" + c + " @@" + section
  {
    LeftToRight("@@ -", a, ",", b, " +", c, ",", d, " @@", section);
    LeftToRight("@@ -", a, "", "", " +", c, "", "", " @@", section);
  }

  lemma Assoc(a: string, b: string, c: string)
    ensures a + (b + c) == a + b + c
  {
  }

  lemma LeftToRight(p: string, a: string, x: string, b: string, q: string, c: string, y: string, d: string, r: string, s: string)
    ensures p + (a + ((x + b) + (q + (c + ((y + d) + (r + s)))))) == p + a + x + b + q + c + y + d + r + s
  {
    var t4 := (y + d) + (r + s);
    var t2 := q + (c + t4);
    var front := p + a + x + b;
    Assoc(p, a, (x + b) + t2);
    Assoc(p + a, x + b, t2);
    Assoc(p + a, x, b);
    Assoc(front, q, c + t4);
    Assoc(front + q, c, t4);
    Assoc(front + q + c, y + d, r + s);
    Assoc(front + q + c, y, d);
    Assoc(front + q + c + y + d, r, s);
  }

  lemma PrintedHeader(a: nat, b: nat, c: nat, d: nat, section: string, payload: seq<string>) returns (h: Hunk)
    requires PayloadOk(payload) && b == OldSize(payload) && d == NewSize(payload) && b <= MAX_INT && c <= MAX_INT && d <= MAX_INT
    ensures HunkOk(h) && StartOf(h.header) == c && CountOf(h.header.newCount) == d && h.payload == payload
    ensures HeaderLine(h.header, h.section) == "@@ -" + Decimal.Print(a) + "," + Decimal.Print(b)
                                               + " +" + Decimal.Print(c) + "," + Decimal.Print(d) + " @@" + section
  {
    h := Hunk(Header(Decimal.Print(a), Decimal.Print(b), Decimal.Print(c), Decimal.Print(d)), section, payload);
    Decimal.PlacesPrint(b);
    Decimal.PlacesPrint(c);
    Decimal.PlacesPrint(d);
    HeaderText(h.header.oldStart, h.header.oldCount, h.header.newStart, h.header.newCount, section);
  }

  lemma PrintedShortHeader(a: nat, c: nat, section: string, payload: seq<string>) returns (h: Hunk)
    requires PayloadOk(payload) && OldSize(payload) == 1 && NewSize(payload) == 1 && c <= MAX_INT
    ensures HunkOk(h) && StartOf(h.header) == c && CountOf(h.header.newCount) == 1 && h.payload == payload
    ensures HeaderLine(h.header, h.section) == "@@ -" + Decimal.Print(a) + " +" + Decimal.Print(c) + " @@" + section
  {
    h := Hunk(Header(Decimal.Print(a), "", Decimal.Print(c), ""), section, payload);
    Decimal.PlacesPrint(c);
    HeaderText(h.header.oldStart, "1", h.header.newStart, "1", section);
  }

  /** In numbers: the hunk "@@ -a,b +c,d @@" of a surviving file, with b old and d new payload lines, marks
      exactly the lines c, ..., c + d - 1 of that file. */
  lemma {:induction false} PrintedHunk(u: Unquote, title: string, from: string, file: string, a: nat, b: nat, c: nat, d: nat,
                                       section: string, payload: seq<string>, header: string, f: string, n: int)
    requires DecodePath(u, from, "a/").Some? && file != "" && file[0] != '/' && PayloadOk(payload)
    requires b <= MAX_INT && c <= MAX_INT && d <= MAX_INT && c + d <= MAX_INT + 1
    requires b == OldSize(payload) && d == NewSize(payload)
    requires header == "@@ -" + Decimal.Print(a) + "," + Decimal.Print(b) + " +" + Decimal.Print(c) + "," + Decimal.Print(d) + " @@" + section
    requires forall l :: l in OneFileLines(title, from, file, header, payload) ==> Plain(l)
    ensures var r := Parsed(u, Print(OneFileLines(title, from, file, header, payload)));
      r.Some? && (f in r.value && n in r.value[f] <==> f == file && c <= n < c + d)
  {
    var h := PrintedHeader(a, b, c, d, section, payload);
    OneFileMarks(u, title, from, file, h, f, n);
    Interval(c, d, n);
  }

  /** Without counts, "@@ -a +c @@" stands for one line on each side and marks exactly line c. */
  lemma {:induction false} PrintedOneLineHunk(u: Unquote, title: string, from: string, file: string, a: nat, c: nat,
                                              section: string, payload: seq<string>, header: string, f: string, n: int)
    requires DecodePath(u, from, "a/").Some? && file != "" && file[0] != '/' && PayloadOk(payload)
    requires c <= MAX_INT && OldSize(payload) == 1 && NewSize(payload) == 1
    requires header == "@@ -" + Decimal.Print(a) + " +" + Decimal.Print(c) + " @@" + section
    requires forall l :: l in OneFileLines(title, from, file, header, payload) ==> Plain(l)
    ensures var r := Parsed(u, Print(OneFileLines(title, from, file, header, payload)));
      r.Some? && (f in r.value && n in r.value[f] <==> f == file && n == c)
  {
    var h := PrintedShortHeader(a, c, section, payload);
    OneFileMarks(u, title, from, file, h, f, n);
    Interval(c, 1, n);
  }
}
