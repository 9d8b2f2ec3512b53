/** The discarded-result detector: which functions it can reason about, which expressions it may
    replace, and the scan of every mention of the function's name in its package. */
module Discarded {
  import opened Base
  import opened GoCore
  import opened Detectors

  datatype FuncDecl = FuncDecl(
    isMethod: bool,
    generic: bool,
    name: string,
    params: seq<string>,
    results: seq<seq<string>>,      // the names given to each result field
    body: Option<seq<Stmt>>)

  datatype Package = Package(bad: bool, cgo: bool, files: seq<seq<FuncDecl>>)

  predicate IsExported(name: string) { name != "" && 'A' <= name[0] <= 'Z' }

  predicate EligibleDiscardDecl(d: FuncDecl) {
    && !d.isMethod && d.body.Some? && !d.generic
    && d.name != "init" && d.name != "main" && d.name != "_" && !IsExported(d.name)
    && d.results != []
    && forall i :: 0 <= i < |d.results| ==> d.results[i] == []
  }

  predicate PureOp(op: Op) {
    op in {Add, Sub, Mul, And, Or, Xor, AndNot, Lss, Leq, Gtr, Geq, LAnd, LOr}
  }

  /** Evaluating e can neither have an effect nor panic. */
  predicate PureResultExpr(e: Expr) {
    match e
    case Paren(x) => PureResultExpr(x)
    case Ident(_) => true
    case BasicLit(_, _) => true
    case Unary(op, x) => op in {Plus, Minus, Not, Complement} && PureResultExpr(x)
    case Binary(op, l, r) => PureOp(op) && PureResultExpr(l) && PureResultExpr(r)
    case _ => false
  }

  /** Some part of the expression is a read through a selector, an element or a pointer, a call, an operation that
      can panic, or one that is more than an operation. */
  predicate CanDisturb(e: Expr) {
    match e
    case Ident(_) => false
    case BasicLit(_, _) => false
    case Paren(x) => CanDisturb(x)
    case Unary(op, x) => op == Address || op == Receive || CanDisturb(x)
    case Binary(op, l, r) => op in {Quo, Rem, Shl, Shr, Eql, Neq} || CanDisturb(l) || CanDisturb(r)
    case _ => true
  }

  /** An expression is taken for pure exactly when no part of it can disturb. */
  lemma {:induction false} PureExactly(e: Expr)
    ensures PureResultExpr(e) <==> !CanDisturb(e)
    decreases e
  {
    match e
    case Paren(x) => PureExactly(x);
    case Unary(op, x) =>
      PureExactly(x);
      assert op.Plus? || op.Minus? || op.Not? || op.Complement? || op.Address? || op.Receive?;
    case Binary(op, l, r) =>
      PureExactly(l);
      PureExactly(r);
      assert op in {Quo, Rem, Shl, Shr, Eql, Neq} || PureOp(op) by { Operators(op); }
    case _ =>
  }

  lemma Operators(op: Op)
    ensures op in {Quo, Rem, Shl, Shr, Eql, Neq} || PureOp(op)
  {
  }

  /** What the detector reasons about: functions of the package with a body and unnamed results, which nothing
      outside the package can call by name. */
  lemma EligibleExactly(d: FuncDecl)
    ensures EligibleDiscardDecl(d) <==> exists name: string, params: seq<string>, results: seq<seq<string>>, body: seq<Stmt> ::
      && d == FuncDecl(false, false, name, params, results, Some(body))
      && results != [] && (forall names :: names in results ==> names == [])
      && name !in {"init", "main", "_"} && !(name != "" && 'A' <= name[0] <= 'Z')
  {
    assert (forall i :: 0 <= i < |d.results| ==> d.results[i] == []) <==> (forall names :: names in d.results ==> names == []) by {
      if forall names :: names in d.results ==> names == [] {
        forall i | 0 <= i < |d.results| ensures d.results[i] == [] { assert d.results[i] in d.results; }
      }
    }
    if EligibleDiscardDecl(d) {
      assert d == FuncDecl(false, false, d.name, d.params, d.results, Some(d.body.value));
    }
  }

  lemma {:induction false} PureEvaluates(p: Prog, m: Sem, fuel: nat, e: Expr, env: Env, h: Heap)
    requires PureResultExpr(e)
    ensures var r := Eval(p, m, fuel, e, env, h); r.Val? && r.heap == h
    decreases e
  {
    match e
    case Paren(x) => PureEvaluates(p, m, fuel, x, env, h);
    case Unary(_, x) => PureEvaluates(p, m, fuel, x, env, h);
    case Binary(op, l, r) =>
      PureEvaluates(p, m, fuel, l, env, h);
      PureEvaluates(p, m, fuel, r, env, h);
    case _ =>
  }

  // ---------- The scan ----------

  /** The claim under test: result idx of n of the function `name`. */
  datatype Claim = Claim(name: string, n: nat, idx: nat)

  predicate IsCallOf(e: Expr, name: string) { e.Call? && e.fun == Ident(name) }

  function Sum(a: Option<nat>, b: Option<nat>): Option<nat> {
    if a.None? || b.None? then None else Some(a.value + b.value)
  }

  function Unless(mentioned: bool, sites: nat): Option<nat> { if mentioned then None else Some(sites) }

  /** The number of discarding call sites in s, or None if some mention of the name is anything else. */
  function ScanStmt(s: Stmt, c: Claim): Option<nat>
    decreases s, 1
  {
    match s
    case ExprStmt(x) =>
      if IsCallOf(x, c.name) then Unless(AnyReferences(x.args, c.name), 1)
      else Unless(ReferencesIdent(x, c.name), 0)
    case AssignStmt(_, lhs, rhs) =>
      if |rhs| == 1 && |lhs| == c.n && IsCallOf(rhs[0], c.name) then
        if c.idx < |lhs| && lhs[c.idx] == Ident("_") then
          Unless(AnyReferences(lhs, c.name) || AnyReferences(rhs[0].args, c.name), 1)
        else None
      else Unless(AnyReferences(lhs, c.name) || AnyReferences(rhs, c.name), 0)
    case IfStmt(init, cond, body, els) =>
      Sum(Sum(if init.None? then Some(0) else ScanStmt(init.value, c), Unless(ReferencesIdent(cond, c.name), 0)),
          Sum(ScanList(body, c), if els.None? then Some(0) else ScanStmt(els.value, c)))
    case BlockStmt(list) => ScanList(list, c)
    case ForStmt(cond, body) => Sum(Unless(ReferencesIdent(cond, c.name), 0), ScanList(body, c))
    case ReturnStmt(results) => Unless(AnyReferences(results, c.name), 0)
  }

  function ScanList(list: seq<Stmt>, c: Claim): Option<nat>
    decreases list, 0
  {
    if list == [] then Some(0) else Sum(ScanStmt(list[0], c), ScanList(list[1..], c))
  }

  /** The declaring identifier of a function itself is no mention; anything else in a header is. */
  function ScanDecl(d: FuncDecl, c: Claim): Option<nat> {
    if (d.isMethod && d.name == c.name) || c.name in d.params
       || exists i :: 0 <= i < |d.results| && c.name in d.results[i]
    then None
    else if d.body.None? then Some(0) else ScanList(d.body.value, c)
  }

  function ScanDecls(ds: seq<FuncDecl>, c: Claim): Option<nat> {
    if ds == [] then Some(0) else Sum(ScanDecls(ds[..|ds| - 1], c), ScanDecl(ds[|ds| - 1], c))
  }

  function ScanFiles(fs: seq<seq<FuncDecl>>, c: Claim): Option<nat> {
    if fs == [] then Some(0) else Sum(ScanFiles(fs[..|fs| - 1], c), ScanDecls(fs[|fs| - 1], c))
  }

  // ---------- Counting the mentions ----------

  function Times(names: seq<string>, name: string): nat { multiset(names)[name] }

  /** How often an identifier spelled `name` occurs in e. */
  function Mentions(e: Expr, name: string): nat
    decreases e, 1
  {
    match e
    case Ident(n) => if n == name then 1 else 0
    case BasicLit(_, _) => 0
    case Paren(x) => Mentions(x, name)
    case Selector(x, sel) => Mentions(x, name) + Times([sel], name)
    case Index(x, i) => Mentions(x, name) + Mentions(i, name)
    case Star(x) => Mentions(x, name)
    case Unary(_, x) => Mentions(x, name)
    case Binary(_, l, r) => Mentions(l, name) + Mentions(r, name)
    case Call(f, args) => Mentions(f, name) + MentionsAll(args, name)
    case Other(_, kids) => MentionsAll(kids, name)
    case FuncLit(_, free) => Times(free, name)
  }

  function MentionsAll(es: seq<Expr>, name: string): nat
    decreases es, 0
  {
    if es == [] then 0 else Mentions(es[0], name) + MentionsAll(es[1..], name)
  }

  function MentionsStmt(s: Stmt, name: string): nat
    decreases s, 1
  {
    match s
    case ExprStmt(x) => Mentions(x, name)
    case AssignStmt(_, lhs, rhs) => MentionsAll(lhs, name) + MentionsAll(rhs, name)
    case IfStmt(init, cond, body, els) =>
      (if init.None? then 0 else MentionsStmt(init.value, name)) + Mentions(cond, name)
      + MentionsList(body, name) + (if els.None? then 0 else MentionsStmt(els.value, name))
    case BlockStmt(list) => MentionsList(list, name)
    case ForStmt(cond, body) => Mentions(cond, name) + MentionsList(body, name)
    case ReturnStmt(results) => MentionsAll(results, name)
  }

  function MentionsList(list: seq<Stmt>, name: string): nat
    decreases list, 0
  {
    if list == [] then 0 else MentionsStmt(list[0], name) + MentionsList(list[1..], name)
  }

  function TimesIn(fields: seq<seq<string>>, name: string): nat {
    if fields == [] then 0 else Times(fields[0], name) + TimesIn(fields[1..], name)
  }

  /** The name a function is declared under does not count, that of a method does. */
  function MentionsDecl(d: FuncDecl, name: string): nat {
    (if d.isMethod then Times([d.name], name) else 0) + Times(d.params, name) + TimesIn(d.results, name)
    + (if d.body.None? then 0 else MentionsList(d.body.value, name))
  }

  function MentionsDecls(ds: seq<FuncDecl>, name: string): nat {
    if ds == [] then 0 else MentionsDecls(ds[..|ds| - 1], name) + MentionsDecl(ds[|ds| - 1], name)
  }

  function MentionsFiles(fs: seq<seq<FuncDecl>>, name: string): nat {
    if fs == [] then 0 else MentionsFiles(fs[..|fs| - 1], name) + MentionsDecls(fs[|fs| - 1], name)
  }

  /** The calls of the function that drop the claimed result: call statements, and assignments of the call
      to as many targets as it has results, of which the claimed one is blank. */
  function Sites(s: Stmt, c: Claim): nat
    decreases s, 1
  {
    match s
    case ExprStmt(x) => if x.Call? && x.fun == Ident(c.name) then 1 else 0
    case AssignStmt(_, lhs, rhs) =>
      if |rhs| == 1 && rhs[0].Call? && rhs[0].fun == Ident(c.name)
         && |lhs| == c.n && c.idx < c.n && lhs[c.idx] == Ident("_") then 1 else 0
    case IfStmt(init, _, body, els) =>
      (if init.None? then 0 else Sites(init.value, c)) + SitesList(body, c) + (if els.None? then 0 else Sites(els.value, c))
    case BlockStmt(list) => SitesList(list, c)
    case ForStmt(_, body) => SitesList(body, c)
    case ReturnStmt(_) => 0
  }

  function SitesList(list: seq<Stmt>, c: Claim): nat
    decreases list, 0
  {
    if list == [] then 0 else Sites(list[0], c) + SitesList(list[1..], c)
  }

  function SitesDecls(ds: seq<FuncDecl>, c: Claim): nat {
    if ds == [] then 0
    else
      var d := ds[|ds| - 1];
      SitesDecls(ds[..|ds| - 1], c) + if d.body.None? then 0 else SitesList(d.body.value, c)
  }

  function SitesFiles(fs: seq<seq<FuncDecl>>, c: Claim): nat {
    if fs == [] then 0 else SitesFiles(fs[..|fs| - 1], c) + SitesDecls(fs[|fs| - 1], c)
  }

  /** An expression references a name exactly when it mentions it at least once. */
  lemma {:induction false} ReferencesAreMentions(e: Expr, name: string)
    ensures ReferencesIdent(e, name) <==> Mentions(e, name) > 0
    decreases e, 1
  {
    match e
    case Paren(x) => ReferencesAreMentions(x, name);
    case Selector(x, _) => ReferencesAreMentions(x, name);
    case Index(x, i) =>
      ReferencesAreMentions(x, name);
      ReferencesAreMentions(i, name);
    case Star(x) => ReferencesAreMentions(x, name);
    case Unary(_, x) => ReferencesAreMentions(x, name);
    case Binary(_, l, r) =>
      ReferencesAreMentions(l, name);
      ReferencesAreMentions(r, name);
    case Call(f, args) =>
      ReferencesAreMentions(f, name);
      AnyReferencesAreMentions(args, name);
    case Other(_, kids) => AnyReferencesAreMentions(kids, name);
    case _ =>
  }

  lemma {:induction false} AnyReferencesAreMentions(es: seq<Expr>, name: string)
    ensures AnyReferences(es, name) <==> MentionsAll(es, name) > 0
    decreases es, 0
  {
    if es != [] {
      ReferencesAreMentions(es[0], name);
      AnyReferencesAreMentions(es[1..], name);
    }
  }

  /** What a scan has to say about some piece of syntax: how many mentions there are, if all are sites. */
  predicate Tells(scan: Option<nat>, mentions: nat, sites: nat) {
    sites <= mentions && scan == (if mentions == sites then Some(sites) else None)
  }

  lemma {:induction false} ScanSite(x: Expr, name: string)
    requires IsCallOf(x, name)
    ensures Mentions(x, name) == 1 + MentionsAll(x.args, name)
  {
  }

  lemma {:induction false} ScanAssignCounts(s: Stmt, c: Claim)
    requires s.AssignStmt?
    ensures Tells(ScanStmt(s, c), MentionsStmt(s, c.name), Sites(s, c))
  {
    AnyReferencesAreMentions(s.lhs, c.name);
    AnyReferencesAreMentions(s.rhs, c.name);
    if |s.rhs| == 1 {
      assert s.rhs[1..] == [];
      assert MentionsAll(s.rhs, c.name) == Mentions(s.rhs[0], c.name);
      if IsCallOf(s.rhs[0], c.name) {
        ScanSite(s.rhs[0], c.name);
        AnyReferencesAreMentions(s.rhs[0].args, c.name);
      }
    }
  }

  /** The scan of a statement counts its mentions, and gives up exactly when one of them is not a site. */
  lemma {:induction false} ScanCounts(s: Stmt, c: Claim)
    ensures Tells(ScanStmt(s, c), MentionsStmt(s, c.name), Sites(s, c))
    decreases s, 1
  {
    match s
    case ExprStmt(x) =>
      ReferencesAreMentions(x, c.name);
      if IsCallOf(x, c.name) {
        ScanSite(x, c.name);
        AnyReferencesAreMentions(x.args, c.name);
      }
    case AssignStmt(_, _, _) => ScanAssignCounts(s, c);
    case IfStmt(init, cond, body, els) =>
      if init.Some? { ScanCounts(init.value, c); }
      ReferencesAreMentions(cond, c.name);
      ScanListCounts(body, c);
      if els.Some? { ScanCounts(els.value, c); }
    case BlockStmt(list) => ScanListCounts(list, c);
    case ForStmt(cond, body) =>
      ReferencesAreMentions(cond, c.name);
      ScanListCounts(body, c);
    case ReturnStmt(results) => AnyReferencesAreMentions(results, c.name);
  }

  lemma {:induction false} ScanListCounts(list: seq<Stmt>, c: Claim)
    ensures Tells(ScanList(list, c), MentionsList(list, c.name), SitesList(list, c))
    decreases list, 0
  {
    if list != [] {
      ScanCounts(list[0], c);
      ScanListCounts(list[1..], c);
    }
  }

  lemma {:induction false} FieldsCount(fields: seq<seq<string>>, name: string)
    ensures (exists i :: 0 <= i < |fields| && name in fields[i]) <==> TimesIn(fields, name) > 0
    decreases |fields|
  {
    if fields != [] {
      FieldsCount(fields[1..], name);
      if i :| 0 <= i < |fields| && name in fields[i] {
        assert i > 0 ==> name in fields[1..][i - 1];
      }
      if i :| 0 <= i < |fields[1..]| && name in fields[1..][i] {
        assert name in fields[i + 1];
      }
    }
  }

  lemma {:induction false} ScanDeclCounts(d: FuncDecl, c: Claim)
    ensures Tells(ScanDecl(d, c), MentionsDecl(d, c.name), if d.body.None? then 0 else SitesList(d.body.value, c))
  {
    FieldsCount(d.results, c.name);
    if d.body.Some? { ScanListCounts(d.body.value, c); }
  }

  lemma {:induction false} ScanDeclsCount(ds: seq<FuncDecl>, c: Claim)
    ensures Tells(ScanDecls(ds, c), MentionsDecls(ds, c.name), SitesDecls(ds, c))
    decreases |ds|
  {
    if ds != [] {
      ScanDeclsCount(ds[..|ds| - 1], c);
      ScanDeclCounts(ds[|ds| - 1], c);
    }
  }

  /** The scan of a package counts the mentions of the name in it, and gives up exactly when one of them is
      not a call that drops the claimed result. */
  lemma {:induction false} ScanFilesCount(fs: seq<seq<FuncDecl>>, c: Claim)
    ensures Tells(ScanFiles(fs, c), MentionsFiles(fs, c.name), SitesFiles(fs, c))
    decreases |fs|
  {
    if fs != [] {
      ScanFilesCount(fs[..|fs| - 1], c);
      ScanDeclsCount(fs[|fs| - 1], c);
    }
  }

  /** The two ways to drop result idx of n, and what keeps it: any other number of targets or another
      target than the blank. Arguments are not calls of the function themselves. */
  lemma {:induction false} DiscardingForms(args: seq<Expr>, tok: Tok, lhs: seq<Expr>, c: Claim)
    requires MentionsAll(args, c.name) == 0 && MentionsAll(lhs, c.name) == 0
    ensures ScanStmt(ExprStmt(Call(Ident(c.name), args)), c) == Some(1)
    ensures |lhs| == c.n && c.idx < c.n && lhs[c.idx] == Ident("_") ==>
      ScanStmt(AssignStmt(tok, lhs, [Call(Ident(c.name), args)]), c) == Some(1)
    ensures |lhs| != c.n || c.idx >= c.n || lhs[c.idx] != Ident("_") ==>
      ScanStmt(AssignStmt(tok, lhs, [Call(Ident(c.name), args)]), c) == None
    ensures ScanStmt(ReturnStmt([Call(Ident(c.name), args)]), c) == None
  {
    var call := Call(Ident(c.name), args);
    ScanCounts(ExprStmt(call), c);
    ScanCounts(AssignStmt(tok, lhs, [call]), c);
    ScanCounts(ReturnStmt([call]), c);
    ScanSite(call, c.name);
    assert [call][1..] == [];
    assert MentionsAll([call], c.name) == 1;
  }

  /** One file of the package. */
  method ScanFile(ds: seq<FuncDecl>, c: Claim) returns (sites: nat, bad: bool)
    ensures bad <==> ScanDecls(ds, c).None?
    ensures !bad ==> ScanDecls(ds, c) == Some(sites)
  {
    sites, bad := 0, false;
    var i := 0;
    while i < |ds| && !bad
      invariant 0 <= i <= |ds|
      invariant bad ==> ScanDecls(ds[..i], c).None?
      invariant !bad ==> ScanDecls(ds[..i], c) == Some(sites)
    {
      assert ds[..i + 1][..i] == ds[..i];
      match ScanDecl(ds[i], c) {
        case None => bad := true;
        case Some(k) => sites := sites + k;
      }
      i := i + 1;
    }
    if bad {
      NoneStays(ds, i, c);
    } else {
      assert ds[..i] == ds;
    }
  }

  lemma {:induction false} NoneStays(ds: seq<FuncDecl>, i: nat, c: Claim)
    requires i <= |ds| && ScanDecls(ds[..i], c).None?
    ensures ScanDecls(ds, c).None?
    decreases |ds|
  {
    if i == |ds| {
      assert ds[..i] == ds;
    } else {
      assert ds[..|ds| - 1][..i] == ds[..i];
      NoneStays(ds[..|ds| - 1], i, c);
    }
  }

  lemma {:induction false} NoneStaysInFiles(fs: seq<seq<FuncDecl>>, i: nat, c: Claim)
    requires i <= |fs| && ScanFiles(fs[..i], c).None?
    ensures ScanFiles(fs, c).None?
    decreases |fs|
  {
    if i == |fs| {
      assert fs[..i] == fs;
    } else {
      assert fs[..|fs| - 1][..i] == fs[..i];
      NoneStaysInFiles(fs[..|fs| - 1], i, c);
    }
  }

  /** Whether the package mentions the name and every mention is a discarding call, and how many there are. */
  method ResultDiscarded(info: Package, c: Claim) returns (sites: nat, ok: bool)
    ensures ok <==> !info.bad && !info.cgo && MentionsFiles(info.files, c.name) == SitesFiles(info.files, c) > 0
    ensures ok ==> sites == MentionsFiles(info.files, c.name) && ScanFiles(info.files, c) == Some(sites)
  {
    if info.bad || info.cgo {
      return 0, false;
    }
    sites := 0;
    for i := 0 to |info.files|
      invariant ScanFiles(info.files[..i], c) == Some(sites)
    {
      assert info.files[..i + 1][..i] == info.files[..i];
      var k, bad := ScanFile(info.files[i], c);
      if bad {
        NoneStaysInFiles(info.files, i + 1, c);
        ScanFilesCount(info.files, c);
        return 0, false;
      }
      sites := sites + k;
    }
    assert info.files[..|info.files|] == info.files;
    ScanFilesCount(info.files, c);
    ok := sites > 0;
  }

  /** A clean package scan covers every declaration in it. */
  lemma {:induction false} FilesCover(fs: seq<seq<FuncDecl>>, c: Claim, f: nat, k: nat)
    requires ScanFiles(fs, c).Some? && f < |fs| && k < |fs[f]|
    ensures ScanDecl(fs[f][k], c).Some?
    decreases |fs|
  {
    if f == |fs| - 1 {
      DeclsCover(fs[f], c, k);
    } else {
      FilesCover(fs[..|fs| - 1], c, f, k);
    }
  }

  lemma {:induction false} DeclsCover(ds: seq<FuncDecl>, c: Claim, k: nat)
    requires ScanDecls(ds, c).Some? && k < |ds|
    ensures ScanDecl(ds[k], c).Some?
    decreases |ds|
  {
    if k < |ds| - 1 {
      DeclsCover(ds[..|ds| - 1], c, k);
    }
  }
}
