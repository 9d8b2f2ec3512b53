/** Coverage profiles: the lines each file covers, the index of path suffixes, and the query. */
module Coverage {
  import opened Base
  import opened CoverRows
  import opened Lines

  const SLASH: char := '/'
  const MAX_SPAN: int := 1_000_000
  const MAX_ROW: nat := 2 * 1024 * 1024

  datatype Block = Block(file: string, start: nat, end: nat, count: nat)

  // ---------- Rows ----------

  predicate TooLong(l: string) { |if Ended(l) then l[..|l| - 1] else l| >= MAX_ROW }

  predicate AllShort(ls: seq<string>) { forall i :: 0 <= i < |ls| ==> !TooLong(ls[i]) }

  /** The rows of some lines. */
  function Rows(ls: seq<string>): (rows: seq<string>)
    ensures |rows| == |ls| && forall i :: 0 <= i < |rows| ==> rows[i] == Trim(ls[i])
  {
    seq(|ls|, i requires 0 <= i < |ls| => Trim(ls[i]))
  }

  /** Cleaning a file name, which is not modelled. */
  type Normalize = string -> string

  function Mode(line: string): Option<string> {
    if line == "mode: set" then Some("set")
    else if line == "mode: count" then Some("count")
    else if line == "mode: atomic" then Some("atomic")
    else None
  }

  predicate RowOk(r: Row, mode: string) {
    && r.startLine > 0 && r.startCol > 0 && r.endLine > 0 && r.endCol > 0
    && !(r.endLine < r.startLine || (r.endLine == r.startLine && r.endCol <= r.startCol))
    && r.endLine - r.startLine <= MAX_SPAN
    && r.statements >= 0 && r.count >= 0 && !(mode == "set" && r.count > 1)
  }

  function BlockOf(clean: Normalize, line: string, mode: string): Option<Block> {
    match RowOf(line)
    case None => None
    case Some(r) =>
      if RowOk(r, mode) then Some(Block(clean(r.file), r.startLine, r.endLine, r.count)) else None
  }

  lemma ModeExactly(line: string, mode: string)
    ensures Mode(line) == Some(mode) <==> mode in {"set", "count", "atomic"} && line == "mode: " + mode
  {
    assert "mode: " + "set" == "mode: set" && "mode: " + "count" == "mode: count" && "mode: " + "atomic" == "mode: atomic";
  }

  /** A row gives a block exactly when its positions are in order and not too far apart and its counts fit the
      mode; the block has its lines and its execution count. */
  lemma BlockExactly(clean: Normalize, line: string, mode: string, b: Block)
    ensures BlockOf(clean, line, mode) == Some(b) <==> exists r ::
      && Reads(line, r) && r.startLine > 0 && r.startCol > 0 && r.endLine > 0 && r.endCol > 0
      && (r.startLine < r.endLine || (r.startLine == r.endLine && r.startCol < r.endCol))
      && r.endLine - r.startLine <= 1_000_000 && r.statements >= 0 && r.count >= 0 && (mode == "set" ==> r.count <= 1)
      && b == Block(clean(r.file), r.startLine, r.endLine, r.count)
  {
    forall r ensures RowOf(line) == Some(r) <==> Reads(line, r) { RowExactly(line, r); }
    if BlockOf(clean, line, mode) == Some(b) { assert Reads(line, RowOf(line).value); }
  }

  /** What the rows of a profile of some mode give. */
  function Reading(clean: Normalize, mode: string): string -> Option<Block> { (line: string) => BlockOf(clean, line, mode) }

  /** The blocks of a profile, when every row is valid. */
  function Blocks(block: string -> Option<Block>, rows: seq<string>): Option<seq<Block>> {
    if rows == [] then Some([])
    else
      var n := |rows| - 1;
      match (Blocks(block, rows[..n]), block(rows[n]))
      case (Some(bs), Some(b)) => Some(bs + [b])
      case _ => None
  }

  type LineSets = map<string, set<nat>>

  /** `rel` is `file` from some path separator on, or all of it. */
  predicate IsPathSuffix(rel: string, file: string) {
    |rel| <= |file| && file[|file| - |rel|..] == rel && (|rel| == |file| || file[|file| - |rel| - 1] == SLASH)
  }

  // ---------- What the index means ----------

  datatype Map = Map(lines: LineSets, bySuffix: LineSets, ambiguous: set<string>, owner: map<string, string>)

  /** A file's claim to one of its suffixes. */
  datatype Claim = Claim(rel: string, file: string)

  ghost predicate Contested(claims: set<Claim>, rel: string) {
    exists f, g :: f != g && Claim(rel, f) in claims && Claim(rel, g) in claims
  }

  ghost predicate OneOwner(claims: set<Claim>, rel: string, file: string) {
    Claim(rel, file) in claims && !Contested(claims, rel)
  }

  /** The tables for the claims made so far. */
  ghost predicate Indexed(m: Map, claims: set<Claim>) {
    && (forall c :: c in claims ==> c.file in m.lines)
    && (forall rel :: rel in m.ambiguous <==> Contested(claims, rel))
    && (forall rel :: rel in m.owner ==> OneOwner(claims, rel, m.owner[rel]))
    && (forall c :: c in claims && !Contested(claims, c.rel) ==> c.rel in m.owner && m.owner[c.rel] == c.file)
    && m.bySuffix.Keys == m.owner.Keys
    && (forall rel :: rel in m.owner ==> m.owner[rel] in m.lines && m.bySuffix[rel] == m.lines[m.owner[rel]])
  }

  /** One more claim, as the source handles it. */
  function AddClaim(m: Map, rel: string, file: string): Map
    requires file in m.lines
  {
    if rel in m.ambiguous then m
    else if rel in m.owner && m.owner[rel] != file then
      m.(bySuffix := m.bySuffix - {rel}, owner := m.owner - {rel}, ambiguous := m.ambiguous + {rel})
    else m.(owner := m.owner[rel := file], bySuffix := m.bySuffix[rel := m.lines[file]])
  }

  lemma ContestedGrows(claims: set<Claim>, rel: string, file: string, other: string)
    ensures Contested(claims + {Claim(rel, file)}, other)
        <==> Contested(claims, other) || (other == rel && exists f :: f != file && Claim(rel, f) in claims)
  {
    var more := claims + {Claim(rel, file)};
    if Contested(claims, other) {
      var f, g :| f != g && Claim(other, f) in claims && Claim(other, g) in claims;
      assert Claim(other, f) in more && Claim(other, g) in more;
    }
    if other == rel && exists f :: f != file && Claim(rel, f) in claims {
      var f :| f != file && Claim(rel, f) in claims;
      assert Claim(rel, f) in more && Claim(rel, file) in more;
    }
    if Contested(more, other) {
      var f, g :| f != g && Claim(other, f) in more && Claim(other, g) in more;
      if !Contested(claims, other) {
        assert Claim(other, f) !in claims || Claim(other, g) !in claims;
      }
    }
  }

  /** Whether another file claimed the suffix before. */
  lemma Rival(m: Map, claims: set<Claim>, rel: string, file: string)
    requires Indexed(m, claims) && rel !in m.ambiguous
    ensures (exists f :: f != file && Claim(rel, f) in claims) <==> rel in m.owner && m.owner[rel] != file
  {
    if f :| f != file && Claim(rel, f) in claims { assert m.owner[Claim(rel, f).rel] == f; }
    if rel in m.owner && m.owner[rel] != file { assert Claim(rel, m.owner[rel]) in claims; }
  }

  lemma ClaimAdded(m: Map, claims: set<Claim>, rel: string, file: string)
    requires Indexed(m, claims) && file in m.lines
    ensures Indexed(AddClaim(m, rel, file), claims + {Claim(rel, file)})
  {
    var more := claims + {Claim(rel, file)};
    forall other ensures Contested(more, other)
        <==> Contested(claims, other) || (other == rel && exists f :: f != file && Claim(rel, f) in claims) {
      ContestedGrows(claims, rel, file, other);
    }
    if rel !in m.ambiguous { Rival(m, claims, rel, file); }
  }

  // ---------- Suffixes by splitting and joining ----------

  lemma {:induction false} JoinSplit(s: string)
    ensures Join(Split(s, SLASH), SLASH) == s
    decreases |s|
  {
    match Around(s, SLASH)
    case None =>
    case Some(p) =>
      JoinSplit(p.1);
      assert Split(s, SLASH)[1..] == Split(p.1, SLASH);
  }

  lemma LongSuffix(rel: string, a: string, b: string)
    requires SLASH !in a && |rel| > |b|
    ensures IsPathSuffix(rel, a + [SLASH] + b) <==> rel == a + [SLASH] + b
  {
    var file := a + [SLASH] + b;
    var k := |file| - |rel| - 1;
    if 0 <= k {
      assert file[k] == a[k] && a[k] in a;
    }
  }

  lemma ShortSuffix(rel: string, a: string, b: string)
    requires |rel| <= |b|
    ensures IsPathSuffix(rel, a + [SLASH] + b) <==> IsPathSuffix(rel, b)
  {
    var file := a + [SLASH] + b;
    assert file[|a|] == SLASH && file[|file| - |rel|..] == b[|b| - |rel|..];
    if |rel| < |b| { assert file[|file| - |rel| - 1] == b[|b| - |rel| - 1]; }
  }

  lemma {:induction false} SuffixAfterSlash(rel: string, file: string)
    ensures match Around(file, SLASH)
            case None => IsPathSuffix(rel, file) <==> rel == file
            case Some(p) => IsPathSuffix(rel, file) <==> rel == file || IsPathSuffix(rel, p.1)
  {
    match Around(file, SLASH)
    case None =>
      assert forall k :: 0 <= k < |file| ==> file[k] in file;
    case Some(p) =>
      if |rel| <= |p.1| { ShortSuffix(rel, p.0, p.1); } else { LongSuffix(rel, p.0, p.1); }
  }

  /** Some tail of the parts, joined. */
  ghost predicate JoinedTail(parts: seq<string>, n: nat, rel: string) {
    exists i :: 0 <= i < n <= |parts| && rel == Join(parts[i..], SLASH)
  }

  /** What the loop over the parts builds is exactly the path suffixes. */
  lemma {:induction false} SuffixesByParts(rel: string, file: string)
    ensures IsPathSuffix(rel, file) <==> JoinedTail(Split(file, SLASH), |Split(file, SLASH)|, rel)
    decreases |file|
  {
    var parts := Split(file, SLASH);
    JoinSplit(file);
    SuffixAfterSlash(rel, file);
    assert parts[0..] == parts;
    match Around(file, SLASH)
    case None =>
      assert |parts| == 1;
    case Some(p) =>
      SuffixesByParts(rel, p.1);
      TailsOfMore(p.0, Split(p.1, SLASH), rel);
  }

  lemma OneMoreTail(parts: seq<string>, i: nat, rel: string)
    requires i < |parts|
    ensures JoinedTail(parts, i + 1, rel) <==> JoinedTail(parts, i, rel) || rel == Join(parts[i..], SLASH)
  {
  }

  lemma TailsOfMore(first: string, rest: seq<string>, rel: string)
    ensures var parts := [first] + rest;
            JoinedTail(parts, |parts|, rel) <==> rel == Join(parts, SLASH) || JoinedTail(rest, |rest|, rel)
  {
    var parts := [first] + rest;
    assert parts[0..] == parts;
    forall i | 0 <= i < |rest| ensures parts[i + 1..] == rest[i..] {}
    if JoinedTail(parts, |parts|, rel) {
      var i :| 0 <= i < |parts| && rel == Join(parts[i..], SLASH);
      if i > 0 { assert parts[i - 1 + 1..] == rest[i - 1..]; }
    }
    if JoinedTail(rest, |rest|, rel) {
      var i :| 0 <= i < |rest| && rel == Join(rest[i..], SLASH);
      assert rel == Join(parts[i + 1..], SLASH);
    }
  }

  // ---------- Building the index ----------

  /** The suffix names this file among the given ones, and no other. */
  ghost predicate OneFile(files: set<string>, rel: string, file: string) {
    file in files && IsPathSuffix(rel, file) && forall g :: g in files && IsPathSuffix(rel, g) ==> g == file
  }

  /** A suffix is in the index exactly when it names one file, and it then has that file's lines. */
  ghost predicate Built(m: Map) {
    && (forall rel, f :: OneFile(m.lines.Keys, rel, f) ==> rel in m.bySuffix && m.bySuffix[rel] == m.lines[f])
    && (forall rel :: rel in m.bySuffix ==> exists f :: OneFile(m.lines.Keys, rel, f))
  }

  ghost predicate Claims(claims: set<Claim>, files: set<string>) {
    forall c :: c in claims <==> c.file in files && IsPathSuffix(c.rel, c.file)
  }

  lemma {:induction false} IndexedIsBuilt(m: Map, claims: set<Claim>)
    requires Indexed(m, claims) && Claims(claims, m.lines.Keys)
    ensures Built(m)
  {
    forall rel, f | OneFile(m.lines.Keys, rel, f) ensures rel in m.bySuffix && m.bySuffix[rel] == m.lines[f] {
      assert Claim(rel, f) in claims;
      assert m.owner[Claim(rel, f).rel] == f;
    }
    forall rel | rel in m.bySuffix ensures exists f :: OneFile(m.lines.Keys, rel, f) {
      var f := m.owner[rel];
      assert Claim(rel, f) in claims;
      forall g | g in m.lines.Keys && IsPathSuffix(rel, g) ensures g == f { assert Claim(rel, g) in claims; }
      assert OneFile(m.lines.Keys, rel, f);
    }
  }

  /** All the suffixes of one file. */
  method IndexFile(m0: Map, ghost claims0: set<Claim>, file: string) returns (m: Map, ghost claims: set<Claim>)
    requires Indexed(m0, claims0) && file in m0.lines
    ensures Indexed(m, claims) && m.lines == m0.lines
    ensures forall c :: c in claims <==> c in claims0 || (c.file == file && IsPathSuffix(c.rel, file))
  {
    m, claims := m0, claims0;
    var parts := Split(file, SLASH);
    for i := 0 to |parts|
      invariant Indexed(m, claims) && m.lines == m0.lines
      invariant forall c :: c in claims <==>
                  c in claims0 || (c.file == file && JoinedTail(parts, i, c.rel))
    {
      var suffix := Join(parts[i..], SLASH);
      forall rel ensures JoinedTail(parts, i + 1, rel) <==> JoinedTail(parts, i, rel) || rel == suffix { OneMoreTail(parts, i, rel); }
      ClaimAdded(m, claims, suffix, file);
      m := AddClaim(m, suffix, file);
      claims := claims + {Claim(suffix, file)};
    }
    forall c ensures c in claims <==> c in claims0 || (c.file == file && IsPathSuffix(c.rel, file)) {
      SuffixesByParts(c.rel, file);
    }
  }

  /** The index, whatever the order in which the files are visited. */
  method BuildSuffixIndex(lines: LineSets) returns (m: Map)
    ensures m.lines == lines && Built(m)
  {
    m := Map(lines, map[], {}, map[]);
    ghost var claims: set<Claim> := {};
    var left := lines.Keys;
    while left != {}
      invariant left <= lines.Keys && m.lines == lines && Indexed(m, claims) && Claims(claims, lines.Keys - left)
      decreases |left|
    {
      var file :| file in left;
      m, claims := IndexFile(m, claims, file);
      left := left - {file};
    }
    assert lines.Keys - {} == lines.Keys;
    IndexedIsBuilt(m, claims);
  }

  // ---------- Loading a profile ----------

  predicate Touches(b: Block, file: string, line: nat) { b.file == file && b.count > 0 && b.start <= line <= b.end }

  /** The line sets of the blocks. */
  ghost predicate Covers(lines: LineSets, bs: seq<Block>) {
    && (forall f :: f in lines <==> exists i :: 0 <= i < |bs| && bs[i].file == f)
    && (forall f, l :: f in lines ==> (l in lines[f] <==> exists i :: 0 <= i < |bs| && Touches(bs[i], f, l)))
  }

  /** Adds the lines of one block, one by one. */
  method AddBlock(lines0: LineSets, b: Block) returns (lines: LineSets)
    requires b.start <= b.end
    ensures lines.Keys == lines0.Keys + {b.file}
    ensures forall f :: f in lines && f != b.file ==> lines[f] == lines0[f]
    ensures forall l :: l in lines[b.file] <==> (b.file in lines0 && l in lines0[b.file]) || Touches(b, b.file, l)
  {
    lines := lines0;
    if b.file !in lines {
      lines := lines[b.file := {}];
    }
    ghost var base := lines[b.file];
    if b.count > 0 {
      for l := b.start to b.end + 1
        invariant lines.Keys == lines0.Keys + {b.file}
        invariant forall f :: f in lines && f != b.file ==> lines[f] == lines0[f]
        invariant forall x :: x in lines[b.file] <==> x in base || b.start <= x < l
      {
        lines := lines[b.file := lines[b.file] + {l}];
      }
    }
  }

  lemma CoversSnoc(lines0: LineSets, lines: LineSets, bs: seq<Block>, b: Block)
    requires Covers(lines0, bs) && lines.Keys == lines0.Keys + {b.file}
    requires forall f :: f in lines && f != b.file ==> lines[f] == lines0[f]
    requires forall l :: l in lines[b.file] <==> (b.file in lines0 && l in lines0[b.file]) || Touches(b, b.file, l)
    ensures Covers(lines, bs + [b])
  {
    var all := bs + [b];
    assert all[|bs|] == b;
    forall f ensures f in lines <==> exists i :: 0 <= i < |all| && all[i].file == f {
      if f in lines0 {
        var i :| 0 <= i < |bs| && bs[i].file == f;
        assert all[i].file == f;
      }
      if i :| 0 <= i < |all| && all[i].file == f { assert i == |bs| || bs[i].file == f; }
    }
    forall f, l | f in lines ensures l in lines[f] <==> exists i :: 0 <= i < |all| && Touches(all[i], f, l) {
      if f in lines0 && l in lines0[f] {
        var i :| 0 <= i < |bs| && Touches(bs[i], f, l);
        assert Touches(all[i], f, l);
      }
      if i :| 0 <= i < |all| && Touches(all[i], f, l) {
        if i < |bs| { assert Touches(bs[i], f, l); assert f in lines0; }
      }
      if Touches(b, f, l) { assert Touches(all[|bs|], f, l); }
    }
  }

  /** The lines of a profile are its header and rows that give these blocks. */
  ghost predicate Profile(clean: Normalize, ls: seq<string>, bs: seq<Block>) {
    ls != [] && Mode(Trim(ls[0])).Some? && Blocks(Reading(clean, Mode(Trim(ls[0])).value), Rows(ls[1..])) == Some(bs)
  }

  ghost predicate Loadable(clean: Normalize, ls: seq<string>) { AllShort(ls) && exists bs :: Profile(clean, ls, bs) }

  lemma {:induction false} BlocksSnoc(block: string -> Option<Block>, rows: seq<string>, i: nat, bs: seq<Block>, b: Block)
    requires i < |rows| && Blocks(block, rows[..i]) == Some(bs) && block(rows[i]) == Some(b)
    ensures Blocks(block, rows[..i + 1]) == Some(bs + [b])
  {
    assert rows[..i + 1][..i] == rows[..i];
  }

  lemma ShortSnoc(ls: seq<string>, i: nat)
    requires i < |ls| && AllShort(ls[..i]) && !TooLong(ls[i])
    ensures AllShort(ls[..i + 1])
  {
    assert ls[..i + 1] == ls[..i] + [ls[i]];
  }

  /** Every block begins in a line and does not end before it. */
  ghost predicate RowsAreRanges(block: string -> Option<Block>) {
    forall line :: block(line).Some? ==> 0 < block(line).value.start <= block(line).value.end
  }

  predicate AreRanges(bs: seq<Block>) { forall i :: 0 <= i < |bs| ==> 0 < bs[i].start <= bs[i].end }

  lemma BlockIsRange(clean: Normalize, line: string, mode: string)
    ensures BlockOf(clean, line, mode).Some? ==> 0 < BlockOf(clean, line, mode).value.start <= BlockOf(clean, line, mode).value.end
  {
  }

  lemma ReadingRanges(clean: Normalize, mode: string)
    ensures RowsAreRanges(Reading(clean, mode))
  {
    forall line ensures Reading(clean, mode)(line).Some? ==>
        0 < Reading(clean, mode)(line).value.start <= Reading(clean, mode)(line).value.end
    {
      BlockIsRange(clean, line, mode);
    }
  }

  /** What is known after the first i rows. */
  ghost predicate RowsSoFar(block: string -> Option<Block>, ls: seq<string>, i: nat, lines: LineSets, bs: seq<Block>) {
    i <= |ls| && AllShort(ls[..i]) && Blocks(block, Rows(ls)[..i]) == Some(bs) && Covers(lines, bs) && AreRanges(bs)
  }

  lemma {:induction false} RowAdded(block: string -> Option<Block>, ls: seq<string>, i: nat, lines: LineSets, bs: seq<Block>, b: Block, next: LineSets)
    requires RowsSoFar(block, ls, i, lines, bs) && i < |ls| && !TooLong(ls[i]) && block(Rows(ls)[i]) == Some(b) && 0 < b.start <= b.end
    requires Covers(next, bs + [b])
    ensures RowsSoFar(block, ls, i + 1, next, bs + [b])
  {
    BlocksSnoc(block, Rows(ls), i, bs, b);
    ShortSnoc(ls, i);
  }

  lemma NoRows(block: string -> Option<Block>, ls: seq<string>)
    ensures RowsSoFar(block, ls, 0, map[], [])
  {
  }

  /** The rows after the header. */
  method LoadRows(block: string -> Option<Block>, ls: seq<string>) returns (r: Option<LineSets>, ghost bs: seq<Block>)
    requires RowsAreRanges(block)
    ensures r.Some? <==> AllShort(ls) && Blocks(block, Rows(ls)).Some?
    ensures r.Some? ==> Blocks(block, Rows(ls)) == Some(bs) && Covers(r.value, bs) && AreRanges(bs)
  {
    var lines: LineSets, i := map[], 0;
    bs := [];
    NoRows(block, ls);
    while i < |ls|
      invariant RowsSoFar(block, ls, i, lines, bs)
    {
      if TooLong(ls[i]) { return None, []; }
      var b := block(Trim(ls[i]));
      assert Rows(ls)[i] == Trim(ls[i]);
      if b.None? {
        BadRow(block, Rows(ls), i);
        return None, [];
      }
      var next := AddBlock(lines, b.value);
      CoversSnoc(lines, next, bs, b.value);
      RowAdded(block, ls, i, lines, bs, b.value, next);
      lines, bs, i := next, bs + [b.value], i + 1;
    }
    assert ls[..i] == ls && Rows(ls)[..i] == Rows(ls);
    r := Some(lines);
  }

  /** A profile is loaded exactly when its header and all its rows are valid and not too long; then the line
      sets are those of its blocks, and the index is built. */
  method Load(clean: Normalize, data: string) returns (m: Option<Map>, ghost bs: seq<Block>)
    ensures m.Some? <==> Loadable(clean, LinesOf(data))
    ensures m.Some? ==> Profile(clean, LinesOf(data), bs) && Built(m.value) && Covers(m.value.lines, bs) && AreRanges(bs)
  {
    var ls := LinesOf(data);
    if ls == [] { return None, []; }
    if TooLong(ls[0]) { return None, []; }
    var mode := Mode(Trim(ls[0]));
    if mode.None? { return None, []; }
    ShortTail(ls);
    ReadingRanges(clean, mode.value);
    var lines, blocks := LoadRows(Reading(clean, mode.value), ls[1..]);
    if lines.None? { return None, []; }
    bs := blocks;
    assert Profile(clean, ls, bs);
    var index := BuildSuffixIndex(lines.value);
    m := Some(index);
  }

  lemma ShortTail(ls: seq<string>)
    requires ls != []
    ensures AllShort(ls) <==> !TooLong(ls[0]) && AllShort(ls[1..])
  {
    forall i | 0 < i < |ls| ensures ls[i] == ls[1..][i - 1] {}
  }

  lemma {:induction false} BadRow(block: string -> Option<Block>, body: seq<string>, i: nat)
    requires i < |body| && block(body[i]).None?
    ensures Blocks(block, body).None?
    decreases |body|
  {
    if i < |body| - 1 { BadRow(block, body[..|body| - 1], i); }
  }

  // ---------- The query ----------

  /** Whether some line of the span is covered, and whether the file is known. */
  function CoveredIn(m: Map, file: string, start: int, end: int): (bool, bool) {
    if file in m.lines then (Hits(m.lines[file], start, end), true)
    else if file in m.bySuffix then (Hits(m.bySuffix[file], start, end), true)
    else (false, false)
  }

  predicate Hits(lines: set<nat>, start: int, end: int) { exists l :: l in lines && start <= l <= end }

  method Covered(m: Map, file: string, start: int, end: int) returns (yes: bool, known: bool)
    ensures (yes, known) == CoveredIn(m, file, start, end)
  {
    var lines: set<nat>;
    if file in m.lines {
      lines := m.lines[file];
    } else if file in m.bySuffix {
      lines := m.bySuffix[file];
    } else {
      return false, false;
    }
    var l := start;
    while l <= end
      invariant forall x :: x in lines && start <= x < l ==> x > end
      decreases end - l
    {
      if l >= 0 && l in lines { return true, true; }
      l := l + 1;
    }
    return false, true;
  }

  ghost predicate Profiled(bs: seq<Block>, file: string) { exists i :: 0 <= i < |bs| && bs[i].file == file }

  ghost predicate Overlaps(bs: seq<Block>, file: string, start: int, end: int) {
    start <= end && exists i :: 0 <= i < |bs| && bs[i].file == file && bs[i].count > 0 && bs[i].start <= end && start <= bs[i].end
  }

  function Files(bs: seq<Block>): set<string> { set b | b in bs :: b.file }

  /** The file a query means: itself, or the one profiled file it is a suffix of. */
  ghost predicate Means(bs: seq<Block>, query: string, file: string) {
    if Profiled(bs, query) then file == query else OneFile(Files(bs), query, file)
  }

  lemma FilesAreKeys(m: Map, bs: seq<Block>)
    requires Covers(m.lines, bs)
    ensures m.lines.Keys == Files(bs)
  {
    forall f ensures f in m.lines <==> f in Files(bs) {
      if f in Files(bs) {
        var b :| b in bs && b.file == f;
        var i :| 0 <= i < |bs| && bs[i] == b;
      }
    }
  }

  lemma HitsIsOverlap(lines: LineSets, bs: seq<Block>, f: string, start: int, end: int)
    requires Covers(lines, bs) && f in lines && AreRanges(bs)
    ensures Hits(lines[f], start, end) <==> Overlaps(bs, f, start, end)
  {
    if Hits(lines[f], start, end) {
      var l :| l in lines[f] && start <= l <= end;
      var i :| 0 <= i < |bs| && Touches(bs[i], f, l);
    }
    if Overlaps(bs, f, start, end) {
      var i :| 0 <= i < |bs| && bs[i].file == f && bs[i].count > 0 && bs[i].start <= end && start <= bs[i].end;
      var l: nat := if start <= bs[i].start then bs[i].start else start;
      assert Touches(bs[i], f, l);
      assert l in lines[f];
    }
  }

  /** The indexed query answers what a plain scan of the profile's blocks answers. */
  lemma QueryIsScan(m: Map, bs: seq<Block>, query: string, start: int, end: int)
    requires Built(m) && Covers(m.lines, bs) && AreRanges(bs)
    ensures CoveredIn(m, query, start, end).1 <==> exists f :: Means(bs, query, f)
    ensures forall f :: Means(bs, query, f) ==> (CoveredIn(m, query, start, end).0 <==> Overlaps(bs, f, start, end))
    ensures CoveredIn(m, query, start, end).0 ==> CoveredIn(m, query, start, end).1
  {
    FilesAreKeys(m, bs);
    if Profiled(bs, query) {
      assert Means(bs, query, query);
      HitsIsOverlap(m.lines, bs, query, start, end);
    } else {
      forall f | Means(bs, query, f) ensures query in m.bySuffix
                                     ensures CoveredIn(m, query, start, end).0 <==> Overlaps(bs, f, start, end) {
        assert OneFile(m.lines.Keys, query, f);
        HitsIsOverlap(m.lines, bs, f, start, end);
      }
      if query in m.bySuffix {
        var f :| OneFile(m.lines.Keys, query, f);
        assert Means(bs, query, f);
      }
    }
  }
}
