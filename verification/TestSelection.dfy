/** Narrowing a mutant's run to the tests whose own coverage reaches it. */
module TestSelection {
  import opened Base
  import opened Lines
  import opened Sorting
  import opened Lex
  import opened Coverage

  /** One individually profiled test. */
  datatype Entry = Entry(pkg: string, name: string, cover: Map)

  type Units = map<string, seq<string>>

  datatype Span = Span(file: string, start: int, end: int)

  predicate Observer(es: seq<Entry>, i: int, scope: seq<string>) { 0 <= i < |es| && es[i].pkg in scope }

  predicate Reaches(e: Entry, s: Span) { CoveredIn(e.cover, s.file, s.start, s.end).0 }

  predicate Knows(e: Entry, s: Span) { CoveredIn(e.cover, s.file, s.start, s.end).1 }

  /** Every test of an observing package knows the file, and every such package has a test. */
  ghost predicate Conclusive(es: seq<Entry>, scope: seq<string>, s: Span) {
    && es != [] && scope != []
    && (forall i :: Observer(es, i, scope) ==> Knows(es[i], s))
    && (forall p :: p in scope ==> exists i :: Observer(es, i, scope) && es[i].pkg == p)
  }

  ghost predicate CoveringTest(es: seq<Entry>, scope: seq<string>, s: Span, n: string) {
    exists i :: Observer(es, i, scope) && Reaches(es[i], s) && es[i].name == n
  }

  ghost predicate AlwaysRun(units: Units, scope: seq<string>, n: string) {
    exists p :: p in scope && p in units && n in units[p]
  }

  class PerTest {
    var names: seq<string>
    var packages: seq<string>
    var maps: seq<Map>
    var alwaysRun: Units

    constructor ()
      ensures Valid() && Entries() == [] && alwaysRun == map[]
    {
      names, packages, maps, alwaysRun := [], [], [], map[];
    }

    predicate Valid() reads this { |names| == |packages| == |maps| }

    function Entries(): seq<Entry>
      reads this
      requires Valid()
    {
      seq(|names|, i requires 0 <= i < |names| reads this requires Valid() => Entry(packages[i], names[i], maps[i]))
    }

    /** Top-level test names need not be unique across packages. */
    method AddInPackage(pkg: string, name: string, m: Map)
      requires Valid()
      modifies this
      ensures Valid() && Entries() == old(Entries()) + [Entry(pkg, name, m)] && alwaysRun == old(alwaysRun)
    {
      packages := packages + [pkg];
      names := names + [name];
      maps := maps + [m];
    }

    method AddAlwaysRunInPackage(pkg: string, name: string)
      requires Valid()
      modifies this`alwaysRun
      ensures Valid() && Entries() == old(Entries())
      ensures alwaysRun == old(alwaysRun)[pkg := (if pkg in old(alwaysRun) then old(alwaysRun)[pkg] else []) + [name]]
    {
      var list := if pkg in alwaysRun then alwaysRun[pkg] else [];
      alwaysRun := alwaysRun[pkg := list + [name]];
    }

    /** The examples and fuzz targets of the packages. */
    method AlwaysRunForPackages(possible: seq<string>) returns (r: seq<string>)
      ensures Sorted(LexLess, r)
      ensures forall n :: multiset(r)[n] == if AlwaysRun(alwaysRun, possible, n) then 1 else 0
    {
      var seen: set<string>, list := {}, [];
      for k := 0 to |possible|
        invariant Listed(list, seen) && forall n :: n in seen <==> AlwaysRun(alwaysRun, possible[..k], n)
      {
        var pkg := possible[k];
        var units := if pkg in alwaysRun then alwaysRun[pkg] else [];
        list, seen := AppendNew(units, list, seen);
        forall n ensures AlwaysRun(alwaysRun, possible[..k + 1], n) <==> AlwaysRun(alwaysRun, possible[..k], n) || n in units {
          MoreUnits(alwaysRun, possible, k, n);
        }
      }
      assert possible[..|possible|] == possible;
      LexOrder();
      r := SortSlice(LexLess, list);
    }

    /** The names of the tests that reach the span, or nothing when the profiles are not conclusive. */
    method CoveringTestsForPackages(s: Span, possible: seq<string>) returns (r: Option<seq<string>>)
      requires Valid()
      ensures r.Some? <==> Conclusive(Entries(), possible, s)
      ensures r.Some? ==> Sorted(LexLess, r.value)
      ensures r.Some? ==> forall n :: multiset(r.value)[n] == if CoveringTest(Entries(), possible, s, n) then 1 else 0
    {
      if |names| == 0 || |possible| == 0 { return None; }
      ghost var es := Entries();
      var covered: set<string>, saw: set<string> := {}, {};
      for i := 0 to |maps|
        invariant forall j :: j < i && Observer(es, j, possible) ==> Knows(es[j], s)
        invariant forall n :: n in covered <==> CoveringTest(es[..i], possible, s, n)
        invariant forall p :: p in saw <==> exists j :: j < i && Observer(es, j, possible) && es[j].pkg == p
      {
        forall n ensures CoveringTest(es[..i + 1], possible, s, n)
            <==> CoveringTest(es[..i], possible, s, n) || (Observer(es, i, possible) && Reaches(es[i], s) && es[i].name == n) {
          MoreTests(es, possible, s, i, n);
        }
        if packages[i] in possible {
          saw := saw + {packages[i]};
          var yes, known := Covered(maps[i], s.file, s.start, s.end);
          assert es[i] == Entry(packages[i], names[i], maps[i]) && Observer(es, i, possible);
          if !known { return None; }
          if yes {
            covered := covered + {names[i]};
          }
        }
      }
      assert es[..|es|] == es;
      for k := 0 to |possible|
        invariant forall j :: 0 <= j < k ==> possible[j] in saw
      {
        if possible[k] !in saw {
          assert possible[k] in possible;
          return None;
        }
      }
      var list := SortedList(covered);
      r := Some(list);
    }
  }

  lemma MoreTests(es: seq<Entry>, scope: seq<string>, s: Span, i: nat, n: string)
    requires i < |es|
    ensures CoveringTest(es[..i + 1], scope, s, n)
        <==> CoveringTest(es[..i], scope, s, n) || (Observer(es, i, scope) && Reaches(es[i], s) && es[i].name == n)
  {
    var a, b := es[..i], es[..i + 1];
    if CoveringTest(a, scope, s, n) {
      var j :| Observer(a, j, scope) && Reaches(a[j], s) && a[j].name == n;
      assert Observer(b, j, scope) && b[j] == a[j];
    }
    if CoveringTest(b, scope, s, n) {
      var j :| Observer(b, j, scope) && Reaches(b[j], s) && b[j].name == n;
      if j < i { assert Observer(a, j, scope) && b[j] == a[j]; }
    }
    if Observer(es, i, scope) && Reaches(es[i], s) && es[i].name == n { assert Observer(b, i, scope) && b[i] == es[i]; }
  }

  lemma MoreUnits(units: Units, scope: seq<string>, k: nat, n: string)
    requires k < |scope|
    ensures AlwaysRun(units, scope[..k + 1], n)
        <==> AlwaysRun(units, scope[..k], n) || (scope[k] in units && n in units[scope[k]])
  {
    assert scope[..k + 1] == scope[..k] + [scope[k]];
    if scope[k] in units && n in units[scope[k]] { assert scope[k] in scope[..k + 1]; }
  }

  /** The list holds the elements of the set, once each. */
  ghost predicate Listed(list: seq<string>, seen: set<string>) { multiset(list) == multiset(seen) }

  method AppendNew(units: seq<string>, list0: seq<string>, seen0: set<string>) returns (list: seq<string>, seen: set<string>)
    requires Listed(list0, seen0)
    ensures Listed(list, seen) && forall n :: n in seen <==> n in seen0 || n in units
  {
    list, seen := list0, seen0;
    for i := 0 to |units|
      invariant Listed(list, seen) && forall n :: n in seen <==> n in seen0 || n in units[..i]
    {
      if units[i] !in seen {
        seen := seen + {units[i]};
        list := list + [units[i]];
      }
    }
    assert units[..|units|] == units;
  }

  // ---------- The run of one mutant ----------

  const BAR: char := '|'

  /** The characters that mean something in a regular expression. */
  predicate Meta(c: char) { c in "\\.+*?()|[]{}^$" }

  function QuoteChar(c: char): string { if Meta(c) then ['\\', c] else [c] }

  function Quote(name: string): string {
    if name == "" then ""
    else QuoteChar(name[0]) + Quote(name[1..])
  }

  function QuoteAll(names: seq<string>): (r: seq<string>)
    ensures |r| == |names| && forall i :: 0 <= i < |names| ==> r[i] == Quote(names[i])
  {
    seq(|names|, i requires 0 <= i < |names| => Quote(names[i]))
  }

  /** The expression that matches the names. */
  function Pattern(names: seq<string>): string { "^(" + Join(QuoteAll(names), BAR) + ")$" }

  /** A character that stands for itself in a regular expression. */
  predicate Literal(c: char) {
    c != '\\' && c != '.' && c != '+' && c != '*' && c != '?' && c != '(' && c != ')' && c != '|' && c != '[' && c != ']'
    && c != '{' && c != '}' && c != '^' && c != '$'
  }

  lemma MetaExactly(c: char)
    ensures Meta(c) <==> !Literal(c)
  {
    var special := "\\.+*?()|[]{}^$";
    assert special == ['\\', '.', '+', '*', '?', '(', ')', '|', '[', ']', '{', '}', '^', '$'];
  }

  /** Reads alternatives of literal characters; `cur` is what was read of the first one. */
  function ReadAlternatives(body: string, cur: string): Option<seq<string>>
    decreases |body|
  {
    if body == "" then Some([cur])
    else if body[0] == '\\' then
      if |body| >= 2 && !Literal(body[1]) then ReadAlternatives(body[2..], cur + [body[1]]) else None
    else if body[0] == BAR then
      match ReadAlternatives(body[1..], "") case Some(rest) => Some([cur] + rest) case None => None
    else if !Literal(body[0]) then None
    else ReadAlternatives(body[1..], cur + [body[0]])
  }

  /** What an anchored group of literals matches; other expressions are not modelled. */
  function Alternatives(pattern: string): Option<seq<string>> {
    if |pattern| >= 4 && pattern[..2] == "^(" && pattern[|pattern| - 2..] == ")$"
    then ReadAlternatives(pattern[2..|pattern| - 2], "") else None
  }

  predicate Selects(pattern: string, name: string) {
    Alternatives(pattern).Some? && name in Alternatives(pattern).value
  }

  lemma {:induction false} ReadsChar(c: char, rest: string, cur: string)
    ensures ReadAlternatives(QuoteChar(c) + rest, cur) == ReadAlternatives(rest, cur + [c])
  {
    MetaExactly(c);
    assert (QuoteChar(c) + rest)[|QuoteChar(c)|..] == rest;
  }

  lemma {:induction false} ReadsQuoted(name: string, rest: string, cur: string)
    ensures ReadAlternatives(Quote(name) + rest, cur) == ReadAlternatives(rest, cur + name)
    decreases |name|
  {
    if name == "" {
      assert Quote(name) + rest == rest && cur + name == cur;
    } else {
      assert Quote(name) + rest == QuoteChar(name[0]) + (Quote(name[1..]) + rest);
      ReadsChar(name[0], Quote(name[1..]) + rest, cur);
      ReadsQuoted(name[1..], rest, cur + [name[0]]);
      assert cur + [name[0]] + name[1..] == cur + name;
    }
  }

  lemma {:induction false} ReadsOne(name: string)
    ensures ReadAlternatives(Quote(name), "") == Some([name])
  {
    ReadsQuoted(name, "", "");
    assert Quote(name) + "" == Quote(name) && "" + name == name;
  }

  lemma {:induction false} ReadsFirst(name: string, rest: string, alts: seq<string>)
    requires ReadAlternatives(rest, "") == Some(alts)
    ensures ReadAlternatives(Quote(name) + [BAR] + rest, "") == Some([name] + alts)
  {
    ReadsQuoted(name, [BAR] + rest, "");
    assert Quote(name) + ([BAR] + rest) == Quote(name) + [BAR] + rest && "" + name == name;
    assert ([BAR] + rest)[1..] == rest;
  }

  lemma {:induction false} ReadsJoined(names: seq<string>)
    requires names != []
    ensures ReadAlternatives(Join(QuoteAll(names), BAR), "") == Some(names)
    decreases |names|
  {
    if |names| == 1 {
      ReadsOne(names[0]);
      assert names == [names[0]];
    } else {
      assert QuoteAll(names)[1..] == QuoteAll(names[1..]);
      ReadsJoined(names[1..]);
      ReadsFirst(names[0], Join(QuoteAll(names[1..]), BAR), names[1..]);
      assert names == [names[0]] + names[1..];
    }
  }

  /** Whatever the names are, the expression matches exactly them. */
  lemma {:induction false} PatternSelects(names: seq<string>)
    requires names != []
    ensures Alternatives(Pattern(names)) == Some(names)
    ensures forall n :: Selects(Pattern(names), n) <==> n in names
  {
    var body := Join(QuoteAll(names), BAR);
    var p := Pattern(names);
    assert p[..2] == "^(" && p[|p| - 2..] == ")$" && p[2..|p| - 2] == body;
    ReadsJoined(names);
  }

  datatype Request = Request(testRun: string, coverageSelection: bool)

  datatype Prepared = Prepared(filePackage: map<string, string>, testScopes: map<string, seq<string>>)

  /** The packages whose tests may observe the file. */
  function ScopeOf(p: Prepared, file: string): seq<string> {
    if file in p.filePackage && p.filePackage[file] in p.testScopes then p.testScopes[p.filePackage[file]] else []
  }

  /** The package whose tests may observe the file is known, and so are they. */
  predicate Scoped(p: Prepared, file: string) { file in p.filePackage && p.filePackage[file] in p.testScopes }

  /** The run may be narrowed: selection is on, nobody gave a pattern, the profiles of all the packages that
      observe the file's package are conclusive, and some test of theirs reaches the span. */
  ghost predicate MayNarrow(req: Request, p: Prepared, es: seq<Entry>, s: Span) {
    && req.testRun == "" && req.coverageSelection && Scoped(p, s.file)
    && Conclusive(es, p.testScopes[p.filePackage[s.file]], s)
    && exists n :: CoveringTest(es, p.testScopes[p.filePackage[s.file]], s, n)
  }

  /** Quotes the names and joins them. */
  method PatternOf(names: seq<string>) returns (pattern: string)
    ensures pattern == Pattern(names)
  {
    var quoted: seq<string> := [];
    for i := 0 to |names|
      invariant quoted == QuoteAll(names[..i])
    {
      quoted := quoted + [Quote(names[i])];
    }
    assert names[..|names|] == names;
    pattern := "^(" + Join(quoted, BAR) + ")$";
  }

  /** The -run pattern: the given one, or one that selects exactly the tests that reach the span and the
      units that always run. */
  method MutantTestRun(req: Request, p: Prepared, cover: PerTest?, s: Span) returns (pattern: string)
    requires cover != null ==> cover.Valid()
    ensures cover == null || !MayNarrow(req, p, cover.Entries(), s) ==> pattern == req.testRun
    ensures cover != null && MayNarrow(req, p, cover.Entries(), s) ==>
              && Alternatives(pattern).Some? && Alternatives(pattern).value != []
              && forall n :: Selects(pattern, n) <==>
                   CoveringTest(cover.Entries(), p.testScopes[p.filePackage[s.file]], s, n)
                   || AlwaysRun(cover.alwaysRun, p.testScopes[p.filePackage[s.file]], n)
  {
    if req.testRun != "" || !req.coverageSelection { return req.testRun; }
    if s.file !in p.filePackage || cover == null { return req.testRun; }
    var scope := ScopeOf(p, s.file);
    var tests := cover.CoveringTestsForPackages(s, scope);
    if tests.None? { return req.testRun; }
    if |tests.value| == 0 {
      forall n ensures !CoveringTest(cover.Entries(), scope, s, n) { assert multiset(tests.value)[n] == 0; }
      return req.testRun;
    }
    var units := cover.AlwaysRunForPackages(scope);
    assert tests.value[0] in multiset(tests.value);
    Members(tests.value, units);
    PatternSelects(tests.value + units);
    pattern := PatternOf(tests.value + units);
  }

  lemma Members(a: seq<string>, b: seq<string>)
    ensures forall n :: n in a + b <==> multiset(a)[n] > 0 || multiset(b)[n] > 0
  {
    assert forall n :: n in a <==> n in multiset(a);
    assert forall n :: n in b <==> n in multiset(b);
  }

  /** A narrowed run keeps every test of an observing package whose own profile has an executed block
      on the span, and every example and fuzz target of those packages. */
  lemma {:induction false} NoObserverDropped(req: Request, p: Prepared, es: seq<Entry>, units: Units, profiles: seq<seq<Block>>, s: Span,
                          pattern: string, i: nat, f: string)
    requires MayNarrow(req, p, es, s) && |profiles| == |es|
    requires forall j :: 0 <= j < |es| ==> Built(es[j].cover) && Covers(es[j].cover.lines, profiles[j]) && AreRanges(profiles[j])
    requires forall n :: Selects(pattern, n) <==> CoveringTest(es, p.testScopes[p.filePackage[s.file]], s, n) || AlwaysRun(units, p.testScopes[p.filePackage[s.file]], n)
    ensures i < |es| && es[i].pkg in p.testScopes[p.filePackage[s.file]] && Means(profiles[i], s.file, f) && Overlaps(profiles[i], f, s.start, s.end)
            ==> Selects(pattern, es[i].name)
    ensures forall pkg, n :: pkg in p.testScopes[p.filePackage[s.file]] && pkg in units && n in units[pkg] ==> Selects(pattern, n)
    ensures i < |es| && es[i].pkg in p.testScopes[p.filePackage[s.file]] ==> exists g :: Means(profiles[i], s.file, g)
    ensures exists n :: Selects(pattern, n)
  {
    var scope := p.testScopes[p.filePackage[s.file]];
    if i < |es| && es[i].pkg in scope {
      QueryIsScan(es[i].cover, profiles[i], s.file, s.start, s.end);
      if Reaches(es[i], s) { assert Observer(es, i, scope) && CoveringTest(es, scope, s, es[i].name); }
    }
    forall pkg, n | pkg in scope && pkg in units && n in units[pkg] ensures Selects(pattern, n) {
      assert AlwaysRun(units, scope, n);
    }
    var n :| CoveringTest(es, scope, s, n);
    assert Selects(pattern, n);
  }
}
