/** A strict reader of unified patches, which reads back everything the printer prints. */
module PatchRead {
  import opened Base
  import opened Lines
  import opened Decimal
  import opened UnifiedDiff

  // ---------- Reading ----------

  function TakeLine(s: string): Option<(string, string)> {
    match IndexNL(s) case Some(n) => Some((s[..n], s[n + 1..])) case None => None
  }

  /** "a,b" as two numerals. */
  function ReadRange(s: string): Option<(nat, nat)> {
    match Around(s, ',')
    case Some(p) =>
      (match (Parse(p.0), Parse(p.1)) case (Some(a), Some(b)) => Some((a, b)) case _ => None)
    case None => None
  }

  /** The two ranges of a hunk header, as texts. */
  function SplitHeader(l: string): Option<(string, string)> {
    if !HasPrefix(l, "@@ -") then None
    else match Around(l[4..], ' ')
      case None => None
      case Some(p) =>
        if !HasPrefix(p.1, "+") then None
        else match Around(p.1[1..], ' ')
          case None => None
          case Some(q) => if q.1 == "@@" then Some((p.0, q.0)) else None
  }

  function ReadHunkHeader(l: string): Option<((nat, nat), (nat, nat))> {
    match SplitHeader(l)
    case None => None
    case Some(p) =>
      match (ReadRange(p.0), ReadRange(p.1))
      case (Some(o), Some(n)) => Some((o, n))
      case _ => None
  }

  const NO_NEWLINE: string := "\\ No newline at end of file\n"

  predicate Kind(c: char) { c == ' ' || c == '-' || c == '+' }

  /** The body: a line, with the marker after it when it has no newline. */
  function ReadBody(s: string): Option<seq<HunkLine>>
    decreases |s|
  {
    if s == "" then Some([])
    else match TakeLine(s)
      case None => None
      case Some(p) =>
        if p.0 == "" || !Kind(p.0[0]) then None
        else if HasPrefix(p.1, NO_NEWLINE) then
          match ReadBody(p.1[|NO_NEWLINE|..])
          case Some(hs) => Some([HunkLine(p.0[0], p.0[1..])] + hs)
          case None => None
        else
          match ReadBody(p.1)
          case Some(hs) => Some([HunkLine(p.0[0], p.0[1..] + "\n")] + hs)
          case None => None
  }

  /** The first three lines, and what follows them. */
  function TakeHead(s: string): Option<(string, string, string, string)> {
    match TakeLine(s)
    case None => None
    case Some(a) =>
      match TakeLine(a.1)
      case None => None
      case Some(b) => match TakeLine(b.1) case None => None case Some(c) => Some((a.0, b.0, c.0, c.1))
  }

  /** The two names of the file, and the patch. */
  function ReadPatch(s: string): Option<(string, string, Patch)> {
    match TakeHead(s)
    case None => None
    case Some(l) =>
      if !HasPrefix(l.0, "--- ") || !HasPrefix(l.1, "+++ ") then None
      else match (ReadPath(l.0[4..]), ReadPath(l.1[4..]), ReadHunkHeader(l.2), ReadBody(l.3))
        case (Some(a), Some(b), Some(h), Some(body)) => Some((a, b, Patch(h.0.0, h.0.1, h.1.0, h.1.1, body)))
        case _ => None
  }

  predicate OctalDigit(c: char) { '0' <= c <= '7' }

  function OctalValue(a: char, b: char, c: char): nat
    requires OctalDigit(a) && OctalDigit(b) && OctalDigit(c)
  {
    64 * (a - '0') as nat + 8 * (b - '0') as nat + (c - '0') as nat
  }

  /** Undoes Git's escapes: a backslash and a backslash, a quote or three octal digits. */
  function Unescape(s: string): Option<string> {
    if s == "" then Some("")
    else if s[0] != '\\' then Before(s[0], Unescape(s[1..]))
    else if |s| >= 2 && (s[1] == '\\' || s[1] == '"') then Before(s[1], Unescape(s[2..]))
    else if |s| >= 4 && OctalDigit(s[1]) && OctalDigit(s[2]) && OctalDigit(s[3]) then
      Before(OctalValue(s[1], s[2], s[3]) as char, Unescape(s[4..]))
    else None
  }

  function Before(c: char, rest: Option<string>): Option<string> {
    match rest case Some(r) => Some([c] + r) case None => None
  }

  /** The name a header path stands for. */
  function ReadPath(h: string): Option<string> {
    if |h| >= 2 && h[0] == '"' && h[|h| - 1] == '"' then Unescape(h[1..|h| - 1]) else Some(h)
  }

  // ---------- What is printed can be read ----------

  lemma OctalReads(n: nat)
    requires n < 512
    ensures var o := Octal(n); |o| == 3 && OctalDigit(o[0]) && OctalDigit(o[1]) && OctalDigit(o[2])
                               && OctalValue(o[0], o[1], o[2]) == n
  {
  }

  lemma EscapeReads(c: char, rest: string)
    ensures Unescape(Escape(c) + rest) == Before(c, Unescape(rest))
  {
    var e := Escape(c);
    var s := e + rest;
    assert s[|e|..] == rest;
    if c != '\\' && c != '"' && Special(c) {
      OctalReads(c as nat);
      assert s[1..4] == Octal(c as nat);
      assert s[1] == s[1..4][0] && s[2] == s[1..4][1] && s[3] == s[1..4][2];
    }
  }

  lemma {:induction false} EscapedReads(name: string)
    ensures Unescape(EscapeAll(name)) == Some(name)
    decreases |name|
  {
    if name != "" {
      EscapedReads(name[1..]);
      EscapeReads(name[0], EscapeAll(name[1..]));
      assert name == [name[0]] + name[1..];
    }
  }

  /** Every file name can be read back from the header, quoted or not. */
  lemma PathReads(prefix: string, file: string)
    ensures ReadPath(DiffPath(prefix, file)) == Some(prefix + file)
  {
    var name := prefix + file;
    if exists i :: 0 <= i < |name| && Special(name[i]) {
      var inner := EscapeAll(name);
      EscapedReads(name);
      assert ("\"" + inner + "\"")[1..|inner| + 1] == inner;
    } else if name != "" {
      assert !Special(name[0]);
    }
  }

  predicate Printable(s: string) { forall i :: 0 <= i < |s| ==> s[i] >= ' ' && s[i] as int != 127 }

  lemma {:induction false} EscapedPrints(name: string)
    ensures Printable(EscapeAll(name))
    decreases |name|
  {
    if name != "" { EscapedPrints(name[1..]); }
  }

  /** No header path has a control character in it. */
  lemma {:induction false} PathPrints(prefix: string, file: string)
    ensures Printable(DiffPath(prefix, file))
  {
    EscapedPrints(prefix + file);
  }

  lemma TakeLineAt(l: string, rest: string)
    requires NL !in l
    ensures TakeLine(l + "\n" + rest) == Some((l, rest))
  {
    var s := l + "\n" + rest;
    assert IsLine(l + "\n") by { forall i | 0 <= i < |l| ensures l[i] != NL { assert l[i] in l; } }
    FirstBreak(l + "\n", rest);
    assert s[..|l|] == l && s[|l| + 1..] == rest;
  }

  lemma NumeralHasNo(n: nat, c: char)
    requires !IsDigit(c)
    ensures c !in Print(n)
  {
  }

  lemma RangeReads(a: nat, b: nat)
    ensures ReadRange(Print(a) + "," + Print(b)) == Some((a, b))
    ensures ' ' !in Print(a) + "," + Print(b) && NL !in Print(a) + "," + Print(b)
  {
    NumeralHasNo(a, ',');
    AroundAt(Print(a), ',', Print(b));
    ParsePrint(a);
    ParsePrint(b);
  }

  lemma HeaderSplits(o: string, n: string)
    requires ' ' !in o && ' ' !in n
    ensures SplitHeader("@@ -" + (o + " " + ("+" + (n + " " + "@@")))) == Some((o, n))
  {
    var tail := "+" + (n + " " + "@@");
    var h := "@@ -" + (o + " " + tail);
    assert h[..4] == "@@ -" && h[4..] == o + " " + tail;
    AroundAt(o, ' ', tail);
    assert tail[..1] == "+" && tail[1..] == n + " " + "@@";
    AroundAt(n, ' ', "@@");
  }

  lemma HeaderShape(a: string, b: string, c: string, d: string)
    ensures "@@ -" + a + "," + b + " +" + c + "," + d + " @@"
         == "@@ -" + ((a + "," + b) + " " + ("+" + ((c + "," + d) + " " + "@@")))
  {
    assert "@@ -" + a + "," + b + " +" == "@@ -" + ((a + "," + b) + " " + "+");
    assert c + "," + d + " @@" == (c + "," + d) + " " + "@@";
  }

  lemma {:induction false} HeaderReads(p: Patch)
    ensures ReadHunkHeader(HunkHeader(p)) == Some(((p.oldStart, p.oldCount), (p.newStart, p.newCount)))
    ensures NL !in HunkHeader(p)
  {
    var a, b, c, d := Print(p.oldStart), Print(p.oldCount), Print(p.newStart), Print(p.newCount);
    RangeReads(p.oldStart, p.oldCount);
    RangeReads(p.newStart, p.newCount);
    HeaderShape(a, b, c, d);
    HeaderSplits(a + "," + b, c + "," + d);
  }

  /** Lines that a renderer may be given. */
  ghost predicate BodyOk(hs: seq<HunkLine>) {
    forall i :: 0 <= i < |hs| ==> Kind(hs[i].kind) && IsLine(hs[i].text)
  }

  lemma BodyOfBlocks(before: seq<string>, olds: seq<string>, news: seq<string>, after: seq<string>)
    requires forall l :: l in before || l in olds || l in news || l in after ==> IsLine(l)
    ensures BodyOk(Tag(' ', before) + (Tag('-', olds) + (Tag('+', news) + Tag(' ', after))))
  {
    assert forall i :: 0 <= i < |before| ==> before[i] in before;
    assert forall i :: 0 <= i < |olds| ==> olds[i] in olds;
    assert forall i :: 0 <= i < |news| ==> news[i] in news;
    assert forall i :: 0 <= i < |after| ==> after[i] in after;
  }

  lemma SameMarker()
    ensures MARKER == NO_NEWLINE
  {
  }

  lemma RenderStarts(hs: seq<HunkLine>)
    requires BodyOk(hs)
    ensures !HasPrefix(RenderLines(hs), MARKER)
  {
    if hs != [] {
      assert RenderLines(hs)[0] == hs[0].kind;
      assert MARKER[0] == '\\';
    }
  }

  lemma {:induction false} BodyReads(hs: seq<HunkLine>)
    requires BodyOk(hs)
    ensures ReadBody(RenderLines(hs)) == Some(hs)
    decreases |hs|
  {
    if hs != [] {
      var h, rest := hs[0], RenderLines(hs[1..]);
      BodyReads(hs[1..]);
      RenderStarts(hs[1..]);
      LineReads(h, rest);
      assert hs == [h] + hs[1..];
    }
  }

  /** The first line of a rendered body. */
  lemma {:induction false} LineReads(h: HunkLine, rest: string)
    requires Kind(h.kind) && IsLine(h.text) && !HasPrefix(rest, MARKER)
    ensures ReadBody(RenderLine(h) + rest)
         == match ReadBody(rest) case Some(hs) => Some([h] + hs) case None => None
  {
    SameMarker();
    var s := RenderLine(h) + rest;
    if Ended(h.text) {
      var t := h.text[..|h.text| - 1];
      Chomped(h.text);
      assert s == [h.kind] + t + "\n" + rest;
      TakeLineAt([h.kind] + t, rest);
      assert t + "\n" == h.text;
    } else {
      Unbroken(h.text);
      assert s == [h.kind] + h.text + "\n" + (MARKER + rest);
      TakeLineAt([h.kind] + h.text, MARKER + rest);
      assert (MARKER + rest)[..|MARKER|] == MARKER && (MARKER + rest)[|MARKER|..] == rest;
    }
  }

  lemma HeadTaken(a: string, b: string, h: string, body: string)
    requires NL !in a && NL !in b && NL !in h
    ensures TakeHead(a + "\n" + (b + "\n" + (h + "\n" + body))) == Some((a, b, h, body))
  {
    TakeLineAt(a, b + "\n" + (h + "\n" + body));
    TakeLineAt(b, h + "\n" + body);
    TakeLineAt(h, body);
  }

  /** The reader gets back the names of both sides and the patch. */
  lemma {:induction false} PatchReads(file: string, p: Patch)
    requires BodyOk(p.body)
    ensures ReadPatch(RenderPatch(file, p)) == Some(("a/" + file, "b/" + file, p))
  {
    var a, b, h, body := "--- " + DiffPath("a/", file), "+++ " + DiffPath("b/", file), HunkHeader(p), RenderLines(p.body);
    PathReads("a/", file);
    PathReads("b/", file);
    HeaderReads(p);
    BodyReads(p.body);
    HeadSplits(a, b, h, body);
    HeadTaken(a, b, h, body);
    NameLine("--- ", DiffPath("a/", file));
    NameLine("+++ ", DiffPath("b/", file));
    HeadReads(RenderPatch(file, p), a, b, h, body);
  }

  lemma NameLine(mark: string, name: string)
    ensures HasPrefix(mark + name, mark) && (mark + name)[|mark|..] == name
  {
  }

  lemma HeadReads(s: string, a: string, b: string, h: string, body: string)
    requires TakeHead(s) == Some((a, b, h, body)) && HasPrefix(a, "--- ") && HasPrefix(b, "+++ ")
    requires ReadPath(a[4..]).Some? && ReadPath(b[4..]).Some? && ReadHunkHeader(h).Some? && ReadBody(body).Some?
    ensures var r := ReadHunkHeader(h).value;
      ReadPatch(s) == Some((ReadPath(a[4..]).value, ReadPath(b[4..]).value, Patch(r.0.0, r.0.1, r.1.0, r.1.1, ReadBody(body).value)))
  {
  }

  lemma HeadSplits(a: string, b: string, h: string, body: string)
    ensures (a + "\n" + (b + "\n" + (h + "\n"))) + body == a + "\n" + (b + "\n" + (h + "\n" + body))
  {
    Assoc(a + "\n", b + "\n" + (h + "\n"), body);
    Assoc(b + "\n", h + "\n", body);
  }
}
