/** The rows of a coverage profile: cut into fields, positions and numbers. */
module CoverRows {
  import opened Base
  import Decimal
  import opened Lines

  const MAX_INT: int := 0x7fff_ffff_ffff_ffff

  /** The numbers of a profile row, before they are checked. */
  datatype Row = Row(file: string, startLine: int, startCol: int, endLine: int, endCol: int, statements: int, count: int)

  // ---------- White space ----------

  function TrimLeft(s: string): (r: string)
    ensures |r| <= |s| && s[|s| - |r|..] == r && Blank(s[..|s| - |r|]) && (r != "" ==> !IsSpace(r[0]))
    decreases |s|
  {
    if s == "" || !IsSpace(s[0]) then s
    else
      var r := TrimLeft(s[1..]);
      assert s[1..][|s| - 1 - |r|..] == s[|s| - |r|..];
      assert s[..|s| - |r|] == [s[0]] + s[1..][..|s| - 1 - |r|];
      r
  }

  function TrimRight(s: string): (r: string)
    ensures |r| <= |s| && s[..|r|] == r && Blank(s[|r|..]) && (r != "" ==> !IsSpace(r[|r| - 1]))
    decreases |s|
  {
    if s == "" || !IsSpace(s[|s| - 1]) then s
    else
      var r := TrimRight(s[..|s| - 1]);
      assert s[..|s| - 1][..|r|] == s[..|r|];
      assert s[|r|..] == s[..|s| - 1][|r|..] + [s[|s| - 1]];
      r
  }

  /** The text without the white space around it, the end of its line included. */
  function Trim(s: string): string { TrimRight(TrimLeft(s)) }

  predicate Word(w: string) { w != "" && forall i :: 0 <= i < |w| ==> !IsSpace(w[i]) }

  function WordLen(s: string): (n: nat)
    ensures n <= |s| && (forall i :: 0 <= i < n ==> !IsSpace(s[i])) && (n < |s| ==> IsSpace(s[n]))
  {
    if s == "" || IsSpace(s[0]) then 0 else 1 + WordLen(s[1..])
  }

  /** The first word of a text, and what follows it; None when there is only white space. */
  function NextWord(s: string): Option<(string, string)> {
    var t := TrimLeft(s);
    var n := WordLen(t);
    if t == "" then None else Some((t[..n], t[n..]))
  }

  /** The three words of a text that has three. */
  function Fields(s: string): Option<(string, string, string)> {
    match NextWord(s)
    case None => None
    case Some(a) =>
      match NextWord(a.1)
      case None => None
      case Some(b) =>
        match NextWord(b.1)
        case None => None
        case Some(c) => if NextWord(c.1).None? then Some((a.0, b.0, c.0)) else None
  }

  /** The text is white space, a word, and white space or the end. */
  ghost predicate Front(s: string, w: string, rest: string) {
    && Word(w) && (rest == "" || IsSpace(rest[0]))
    && exists gap: string :: Blank(gap) && s == gap + (w + rest)
  }

  lemma {:induction false} TrimGap(gap: string, t: string)
    requires Blank(gap) && (t == "" || !IsSpace(t[0]))
    ensures TrimLeft(gap + t) == t
    decreases |gap|
  {
    if gap == "" {
      assert gap + t == t;
      if t != "" { assert TrimLeft(t) == t; }
    } else {
      assert (gap + t)[1..] == gap[1..] + t;
      TrimGap(gap[1..], t);
    }
  }

  lemma {:induction false} WordLenOf(w: string, rest: string)
    requires (forall i :: 0 <= i < |w| ==> !IsSpace(w[i])) && (rest == "" || IsSpace(rest[0]))
    ensures WordLen(w + rest) == |w|
    decreases |w|
  {
    if w == "" {
      assert w + rest == rest;
    } else {
      assert (w + rest)[1..] == w[1..] + rest;
      WordLenOf(w[1..], rest);
    }
  }

  lemma {:induction false} FrontIsNext(s: string, w: string, rest: string)
    requires Front(s, w, rest)
    ensures NextWord(s) == Some((w, rest))
  {
    var gap: string :| Blank(gap) && s == gap + (w + rest);
    TrimGap(gap, w + rest);
    WordLenOf(w, rest);
    assert (w + rest)[..|w|] == w && (w + rest)[|w|..] == rest;
  }

  lemma Cut(s: string, n: nat)
    requires n <= |s|
    ensures s == s[..n] + s[n..]
  {
  }

  lemma {:induction false} NextIsFront(s: string)
    requires NextWord(s).Some?
    ensures Front(s, NextWord(s).value.0, NextWord(s).value.1)
  {
    var t := TrimLeft(s);
    Cut(s, |s| - |t|);
    Cut(t, WordLen(t));
    assert WordLen(t) > 0;
  }

  /** A text has no word exactly when it is white space. */
  lemma {:induction false} NoWord(s: string)
    ensures NextWord(s).None? <==> Blank(s)
  {
    if Blank(s) {
      TrimGap(s, "");
      assert s + "" == s;
    }
    assert s[..|s|] == s;
  }

  /** The text is three words with white space between them, and perhaps around them. */
  ghost predicate Spaced(s: string, a: string, b: string, c: string) {
    exists r: string, q: string, p: string :: Front(s, a, r) && Front(r, b, q) && Front(q, c, p) && Blank(p)
  }

  lemma {:induction false} FieldsExactly(s: string, a: string, b: string, c: string)
    ensures Fields(s) == Some((a, b, c)) <==> Spaced(s, a, b, c)
  {
    if Spaced(s, a, b, c) {
      var r: string, q: string, p: string :| Front(s, a, r) && Front(r, b, q) && Front(q, c, p) && Blank(p);
      FrontIsNext(s, a, r);
      FrontIsNext(r, b, q);
      FrontIsNext(q, c, p);
      NoWord(p);
    }
    if Fields(s) == Some((a, b, c)) {
      var r := NextWord(s).value.1;
      var q := NextWord(r).value.1;
      var p := NextWord(q).value.1;
      NextIsFront(s);
      NextIsFront(r);
      NextIsFront(q);
      NoWord(p);
    }
  }

  // ---------- Numbers ----------

  function InRange(v: int): Option<int> { if -MAX_INT - 1 <= v <= MAX_INT then Some(v) else None }

  /** A numeral with an optional sign, that fits the machine's int. */
  function Atoi(s: string): Option<int> {
    if s != "" && (s[0] == '+' || s[0] == '-') then
      match Decimal.Parse(s[1..])
      case None => None
      case Some(n) => InRange(if s[0] == '-' then 0 - n else n)
    else
      match Decimal.Parse(s) case None => None case Some(n) => InRange(n)
  }

  predicate Digits(s: string) { s != "" && forall i :: 0 <= i < |s| ==> '0' <= s[i] <= '9' }

  /** The text is digits, or a sign and digits, and stands for the number, which fits. */
  ghost predicate Denotes(s: string, v: int) {
    && -MAX_INT - 1 <= v <= MAX_INT
    && (|| (Digits(s) && v == Decimal.Places(s))
        || (s != "" && s[0] == '+' && Digits(s[1..]) && v == Decimal.Places(s[1..]))
        || (s != "" && s[0] == '-' && Digits(s[1..]) && v == 0 - Decimal.Places(s[1..])))
  }

  lemma {:induction false} AtoiExactly(s: string, v: int)
    ensures Atoi(s) == Some(v) <==> Denotes(s, v)
  {
    Decimal.ParseIsPlaces(s);
    if s != "" { Decimal.ParseIsPlaces(s[1..]); }
  }

  lemma NumberChars(s: string, v: int)
    requires Denotes(s, v)
    ensures ':' !in s && ',' !in s && '.' !in s
  {
    forall i | 0 <= i < |s| ensures s[i] != ':' && s[i] != ',' && s[i] != '.' {
      if !Digits(s) && i > 0 { assert s[1..][i - 1] == s[i]; }
    }
  }

  // ---------- Rows ----------

  /** The text before and after the last occurrence of c. */
  function LastAround(s: string, c: char): (r: Option<(string, string)>)
    ensures r.Some? ==> s == r.value.0 + [c] + r.value.1 && c !in r.value.1
  {
    if s == "" then None
    else
      var n := |s| - 1;
      if s[n] == c then assert s == s[..n] + [c] + ""; Some((s[..n], ""))
      else match LastAround(s[..n], c)
        case None => None
        case Some(p) =>
          assert s == s[..n] + [s[n]] == p.0 + [c] + (p.1 + [s[n]]);
          Some((p.0, p.1 + [s[n]]))
  }

  lemma {:induction false} LastAroundAt(a: string, c: char, b: string)
    requires c !in b
    ensures LastAround(a + [c] + b, c) == Some((a, b))
    decreases |b|
  {
    var s := a + [c] + b;
    var n := |s| - 1;
    if b == "" {
      assert s[..n] == a;
    } else {
      var m := |b| - 1;
      assert s[n] == b[m] && b[m] in b && s[..n] == a + [c] + b[..m];
      LastAroundAt(a, c, b[..m]);
      assert b == b[..m] + [b[m]];
    }
  }

  /** line.column */
  function Position(p: string): Option<(int, int)> {
    match Around(p, '.')
    case None => None
    case Some(q) =>
      if '.' in q.1 then None
      else match (Atoi(q.0), Atoi(q.1))
        case (Some(l), Some(c)) => Some((l, c))
        case _ => None
  }

  /** position,position */
  function Range(p: string): Option<(int, int, int, int)> {
    match Around(p, ',')
    case None => None
    case Some(q) =>
      if ',' in q.1 then None
      else match (Position(q.0), Position(q.1))
        case (Some(a), Some(b)) => Some((a.0, a.1, b.0, b.1))
        case _ => None
  }

  /** file:position,position statements count */
  function RowOf(line: string): Option<Row> {
    match Fields(line)
    case None => None
    case Some(fs) =>
      match LastAround(fs.0, ':')
      case None => None
      case Some(p) =>
        if p.0 == "" then None
        else match (Range(p.1), Atoi(fs.1), Atoi(fs.2))
          case (Some(r), Some(n), Some(k)) => Some(Row(p.0, r.0, r.1, r.2, r.3, n, k))
          case _ => None
  }

  ghost predicate IsPosition(p: string, l: int, c: int) {
    exists a: string, b: string :: p == a + ['.'] + b && Denotes(a, l) && Denotes(b, c)
  }

  lemma PositionExactly(p: string, l: int, c: int)
    ensures Position(p) == Some((l, c)) <==> IsPosition(p, l, c)
  {
    if Position(p) == Some((l, c)) {
      var q := Around(p, '.').value;
      AtoiExactly(q.0, l);
      AtoiExactly(q.1, c);
      assert p == q.0 + ['.'] + q.1;
    }
    if a: string, b: string :| p == a + ['.'] + b && Denotes(a, l) && Denotes(b, c) {
      NumberChars(a, l);
      NumberChars(b, c);
      AroundAt(a, '.', b);
      AtoiExactly(a, l);
      AtoiExactly(b, c);
    }
  }

  lemma PositionChars(p: string, l: int, c: int)
    requires IsPosition(p, l, c)
    ensures ':' !in p && ',' !in p
  {
    var a: string, b: string :| p == a + ['.'] + b && Denotes(a, l) && Denotes(b, c);
    NumberChars(a, l);
    NumberChars(b, c);
  }

  ghost predicate IsRange(p: string, sl: int, sc: int, el: int, ec: int) {
    exists a: string, b: string :: p == a + [','] + b && IsPosition(a, sl, sc) && IsPosition(b, el, ec)
  }

  lemma RangeExactly(p: string, sl: int, sc: int, el: int, ec: int)
    ensures Range(p) == Some((sl, sc, el, ec)) <==> IsRange(p, sl, sc, el, ec)
  {
    if Range(p) == Some((sl, sc, el, ec)) {
      var q := Around(p, ',').value;
      PositionExactly(q.0, sl, sc);
      PositionExactly(q.1, el, ec);
      assert p == q.0 + [','] + q.1;
    }
    if a: string, b: string :| p == a + [','] + b && IsPosition(a, sl, sc) && IsPosition(b, el, ec) {
      PositionChars(a, sl, sc);
      PositionChars(b, el, ec);
      AroundAt(a, ',', b);
      PositionExactly(a, sl, sc);
      PositionExactly(b, el, ec);
    }
  }

  /** The line is the file, a colon, the two positions, and behind white space the two numbers. */
  ghost predicate Reads(line: string, r: Row) {
    r.file != "" && exists range: string, n: string, k: string ::
      && Spaced(line, r.file + [':'] + range, n, k) && IsRange(range, r.startLine, r.startCol, r.endLine, r.endCol)
      && Denotes(n, r.statements) && Denotes(k, r.count)
  }

  lemma RangeChars(p: string, sl: int, sc: int, el: int, ec: int)
    requires IsRange(p, sl, sc, el, ec)
    ensures ':' !in p
  {
    var a: string, b: string :| p == a + [','] + b && IsPosition(a, sl, sc) && IsPosition(b, el, ec);
    PositionChars(a, sl, sc);
    PositionChars(b, el, ec);
  }

  lemma {:induction false} RowIsRead(line: string)
    requires RowOf(line).Some?
    ensures Reads(line, RowOf(line).value)
  {
    var fs, r := Fields(line).value, RowOf(line).value;
    var p := LastAround(fs.0, ':').value;
    FieldsExactly(line, fs.0, fs.1, fs.2);
    RowReads(line, r, p.1, fs.1, fs.2);
  }

  lemma {:induction false} RowReads(line: string, r: Row, range: string, n: string, k: string)
    requires r.file != "" && Spaced(line, r.file + [':'] + range, n, k)
    requires Range(range) == Some((r.startLine, r.startCol, r.endLine, r.endCol)) && Atoi(n) == Some(r.statements) && Atoi(k) == Some(r.count)
    ensures Reads(line, r)
  {
    RangeExactly(range, r.startLine, r.startCol, r.endLine, r.endCol);
    AtoiExactly(n, r.statements);
    AtoiExactly(k, r.count);
  }

  /** A line gives a row exactly when it reads that way, number by number. */
  lemma RowExactly(line: string, r: Row)
    ensures RowOf(line) == Some(r) <==> Reads(line, r)
  {
    if RowOf(line) == Some(r) { RowIsRead(line); }
    if Reads(line, r) {
      var range: string, n: string, k: string :|
        && Spaced(line, r.file + [':'] + range, n, k) && IsRange(range, r.startLine, r.startCol, r.endLine, r.endCol)
        && Denotes(n, r.statements) && Denotes(k, r.count);
      FieldsExactly(line, r.file + [':'] + range, n, k);
      RangeChars(range, r.startLine, r.startCol, r.endLine, r.endCol);
      LastAroundAt(r.file, ':', range);
      RangeExactly(range, r.startLine, r.startCol, r.endLine, r.endCol);
      AtoiExactly(n, r.statements);
      AtoiExactly(k, r.count);
    }
  }
}
