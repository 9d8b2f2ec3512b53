/** Suppressed mutants are unobservable, for whole programs.

    Two programs are related when one is the other with any number of suppressed edits applied:
    flipped dead-store literals, shifted guarded comparisons, and zeroed discarded results of any
    number of functions.  The simulation shows that related programs behave the same, but for the
    discarded results. */
module Suppression {
  import opened Base
  import opened GoCore
  import opened Detectors
  import opened Discarded

  // ---------- Edits ----------

  /** The results from position off on, of n results of function g, with any of the claimed ones replaced
      by zero values. */
  predicate ZeroedFrom(rs: seq<Expr>, qs: seq<Expr>, cs: set<Claim>, g: string, n: nat, off: nat) {
    |rs| == |qs| && forall j :: 0 <= j < |rs| ==> ZeroedAt(rs[j], qs[j], cs, g, n, off + j)
  }

  predicate ZeroedAt(r: Expr, q: Expr, cs: set<Claim>, g: string, n: nat, j: nat) {
    r == q || (Claim(g, n, j) in cs && PureResultExpr(r) && PureResultExpr(q))
  }

  /** One return of function g. */
  predicate Zeroed(rs: seq<Expr>, qs: seq<Expr>, cs: set<Claim>, g: string) { ZeroedFrom(rs, qs, cs, g, |rs|, 0) }

  /** The body of an if statement is edited, or the comparison it returns is shifted. */
  ghost predicate EditedBody(s: Stmt, body: seq<Stmt>, cs: set<Claim>, g: string)
    requires s.IfStmt?
    decreases s, 0
  {
    EditedList(s.body, body, cs, g) || (DetectGuardedComparison(s) && body == Shifted(s).body)
  }

  /** Edits of a statement of function g. */
  ghost predicate EditedStmt(s: Stmt, t: Stmt, cs: set<Claim>, g: string)
    decreases s, 1
  {
    || s == t
    || match s
       case IfStmt(init, cond, body, els) =>
         t.IfStmt? && t.init == init && t.cond == cond && EditedBody(s, t.body, cs, g)
         && (els.None? <==> t.els.None?) && (els.Some? ==> EditedStmt(els.value, t.els.value, cs, g))
       case BlockStmt(list) => t.BlockStmt? && EditedList(list, t.list, cs, g)
       case ForStmt(cond, body) => t.ForStmt? && t.cond == cond && EditedList(body, t.body, cs, g)
       case ReturnStmt(results) => t.ReturnStmt? && Zeroed(results, t.results, cs, g)
       case _ => false
  }

  /** The statement stands for the literal declaration at the head of the list, which is marked. */
  predicate Flipped(a: seq<Stmt>, t: Stmt) { DeadStoreAt(a, 0) && t == FlipAt(a, 0)[0] }

  /** At every position of the list a marked literal is flipped, or the statement is edited, or nothing is
      done. The marks are those of the original list, whatever is done to the statements that follow. */
  ghost predicate EditedList(a: seq<Stmt>, b: seq<Stmt>, cs: set<Claim>, g: string)
    decreases a, 0
  {
    || a == b
    || (a != [] && b != [] && (EditedStmt(a[0], b[0], cs, g) || Flipped(a, b[0])) && EditedList(a[1..], b[1..], cs, g))
  }

  /** The other two suppressed mutants are edits, too: the shifted comparison of a marked guard, and the return
      of a function of which a claimed result is replaced, one pure expression for another. */
  lemma {:induction false} MutantsAreEdits(s: Stmt, rs: seq<Expr>, j: nat, zero: Expr, cs: set<Claim>, g: string)
    ensures DetectGuardedComparison(s) ==> EditedStmt(s, Shifted(s), cs, g)
    ensures j < |rs| && Claim(g, |rs|, j) in cs && PureResultExpr(rs[j]) && PureResultExpr(zero)
            ==> EditedStmt(ReturnStmt(rs), ReturnStmt(rs[j := zero]), cs, g)
  {
    if DetectGuardedComparison(s) && s.els.Some? { assert EditedStmt(s.els.value, s.els.value, cs, g); }
  }

  /** Any set of marked positions can be flipped at once. */
  function FlipSet(a: seq<Stmt>, marks: set<nat>, from: nat): (b: seq<Stmt>)
    ensures |b| == |a|
    decreases |a|
  {
    if a == [] then []
    else [if from in marks && DeadStoreAt(a, 0) then FlipAt(a, 0)[0] else a[0]] + FlipSet(a[1..], marks, from + 1)
  }

  lemma {:induction false} AllFlipsAreEdits(a: seq<Stmt>, marks: set<nat>, from: nat, cs: set<Claim>, g: string)
    ensures EditedList(a, FlipSet(a, marks, from), cs, g)
    decreases |a|
  {
    if a != [] {
      AllFlipsAreEdits(a[1..], marks, from + 1, cs, g);
      var b := FlipSet(a, marks, from);
      assert b[1..] == FlipSet(a[1..], marks, from + 1);
      assert EditedStmt(a[0], a[0], cs, g);
    }
  }

  ghost predicate EditedProg(p: Prog, q: Prog, cs: set<Claim>) {
    p.Keys == q.Keys
    && forall g :: g in p ==> q[g].params == p[g].params && EditedList(p[g].body, q[g].body, cs, g)
  }

  /** The package scans found only discarding calls. */
  predicate Clean(s: Stmt, cs: set<Claim>) { forall c :: c in cs ==> ScanStmt(s, c).Some? }
  predicate CleanList(list: seq<Stmt>, cs: set<Claim>) { forall c :: c in cs ==> ScanList(list, c).Some? }
  predicate Free(e: Expr, cs: set<Claim>) { forall c :: c in cs ==> !ReferencesIdent(e, c.name) }
  predicate FreeAll(es: seq<Expr>, cs: set<Claim>) { forall c :: c in cs ==> !AnyReferences(es, c.name) }

  ghost predicate CleanProg(p: Prog, cs: set<Claim>) {
    (forall c :: c in cs ==> c.idx < c.n && c.name != "_")
    && forall g :: g in p ==> CleanList(p[g].body, cs)
  }

  /** What every step of the proof needs to know. */
  ghost predicate Setting(p: Prog, q: Prog, m: Sem, cs: set<Claim>) {
    LawfulOrder(m) && EditedProg(p, q, cs) && CleanProg(p, cs)
  }

  // ---------- Equal but for the claimed results ----------

  /** The values from position off on, of n results of g. */
  ghost predicate SameFrom(vs: seq<Value>, ws: seq<Value>, cs: set<Claim>, g: string, n: nat, off: nat) {
    |vs| == |ws| && forall j :: 0 <= j < |vs| ==> vs[j] == ws[j] || Claim(g, n, off + j) in cs
  }

  /** All results of g but the claimed ones are the same. */
  ghost predicate SameBut(vs: seq<Value>, ws: seq<Value>, cs: set<Claim>, g: string) { SameFrom(vs, ws, cs, g, |vs|, 0) }

  ghost predicate ResRel(a: Res<seq<Value>>, b: Res<seq<Value>>, cs: set<Claim>, g: string) {
    a == b || (a.Val? && b.Val? && a.heap == b.heap && SameBut(a.v, b.v, cs, g))
  }

  ghost predicate FlowRel(a: Flow, b: Flow, cs: set<Claim>, g: string) {
    a == b || (a.Returned? && b.Returned? && a.heap == b.heap && SameBut(a.vals, b.vals, cs, g))
  }

  /** Of a function without claims all results are the same. */
  lemma {:induction false} Unclaimed(a: Res<seq<Value>>, b: Res<seq<Value>>, cs: set<Claim>, g: string)
    requires ResRel(a, b, cs, g) && forall c :: c in cs ==> c.name != g
    ensures a == b
  {
    if a.Val? && b.Val? && SameBut(a.v, b.v, cs, g) {
      assert forall n, j :: Claim(g, n, j) !in cs by {
        forall n, j ensures Claim(g, n, j) !in cs { assert Claim(g, n, j).name == g; }
      }
      assert a.v == b.v;
    }
  }

  // ---------- Expressions ----------

  lemma {:induction false} UnwrapReferences(e: Expr, n: string)
    ensures ReferencesIdent(UnwrapParen(e), n) == ReferencesIdent(e, n)
    decreases e
  {
    if e.Paren? { UnwrapReferences(e.x, n); }
  }

  lemma {:induction false} SimEval(p: Prog, q: Prog, m: Sem, cs: set<Claim>, fuel: nat, e: Expr, env: Env, h: Heap)
    requires Setting(p, q, m, cs) && Free(e, cs)
    ensures Eval(p, m, fuel, e, env, h) == Eval(q, m, fuel, e, env, h)
    decreases fuel, 1, e, 1
  {
    match e
    case Paren(x) => SimEval(p, q, m, cs, fuel, x, env, h);
    case Selector(x, _) => SimEval(p, q, m, cs, fuel, x, env, h);
    case Index(_, _) => SimIndex(p, q, m, cs, fuel, e, env, h);
    case Star(x) => SimEval(p, q, m, cs, fuel, x, env, h);
    case Unary(_, x) => SimEval(p, q, m, cs, fuel, x, env, h);
    case Binary(_, _, _) => SimBinary(p, q, m, cs, fuel, e, env, h);
    case Call(_, _) => SimEvalCall(p, q, m, cs, fuel, e, env, h);
    case Other(_, kids) => SimEvalList(p, q, m, cs, fuel, kids, env, h);
    case _ =>
  }

  lemma {:induction false} SimIndex(p: Prog, q: Prog, m: Sem, cs: set<Claim>, fuel: nat, e: Expr, env: Env, h: Heap)
    requires Setting(p, q, m, cs) && e.Index? && Free(e, cs)
    ensures Eval(p, m, fuel, e, env, h) == Eval(q, m, fuel, e, env, h)
    decreases fuel, 1, e, 0
  {
    SimEval(p, q, m, cs, fuel, e.x, env, h);
    var r := Eval(p, m, fuel, e.x, env, h);
    if r.Val? { SimEval(p, q, m, cs, fuel, e.i, env, r.heap); }
  }

  lemma {:induction false} SimBinary(p: Prog, q: Prog, m: Sem, cs: set<Claim>, fuel: nat, e: Expr, env: Env, h: Heap)
    requires Setting(p, q, m, cs) && e.Binary? && Free(e, cs)
    ensures Eval(p, m, fuel, e, env, h) == Eval(q, m, fuel, e, env, h)
    decreases fuel, 1, e, 0
  {
    SimEval(p, q, m, cs, fuel, e.l, env, h);
    var v := Eval(p, m, fuel, e.l, env, h);
    if v.Val? { SimEval(p, q, m, cs, fuel, e.r, env, v.heap); }
  }

  lemma {:induction false} SimEvalList(p: Prog, q: Prog, m: Sem, cs: set<Claim>, fuel: nat, es: seq<Expr>, env: Env, h: Heap)
    requires Setting(p, q, m, cs) && FreeAll(es, cs)
    ensures EvalList(p, m, fuel, es, env, h) == EvalList(q, m, fuel, es, env, h)
    decreases fuel, 1, es, 0
  {
    if es != [] {
      SimEval(p, q, m, cs, fuel, es[0], env, h);
      var r := Eval(p, m, fuel, es[0], env, h);
      if r.Val? { SimEvalList(p, q, m, cs, fuel, es[1..], env, r.heap); }
    }
  }

  /** A call of any function but the claimed ones. */
  lemma {:induction false} SimEvalCall(p: Prog, q: Prog, m: Sem, cs: set<Claim>, fuel: nat, e: Expr, env: Env, h: Heap)
    requires Setting(p, q, m, cs) && e.Call? && Free(e, cs)
    ensures EvalCall(p, m, fuel, e, env, h) == EvalCall(q, m, fuel, e, env, h)
    decreases fuel, 1, e, 0
  {
    match Callee(p, env, e.fun)
    case Some(g) =>
      SimEvalList(p, q, m, cs, fuel, e.args, env, h);
      var r := EvalList(p, m, fuel, e.args, env, h);
      if r.Val? {
        SimCall(p, q, m, cs, fuel, g, r.v, r.heap);
        forall c | c in cs ensures c.name != g { UnwrapReferences(e.fun, c.name); }
        Unclaimed(CallFunc(p, m, fuel, g, r.v, r.heap), CallFunc(q, m, fuel, g, r.v, r.heap), cs, g);
      }
    case None =>
      SimEval(p, q, m, cs, fuel, e.fun, env, h);
      var r := Eval(p, m, fuel, e.fun, env, h);
      if r.Val? { SimEvalList(p, q, m, cs, fuel, e.args, env, r.heap); }
  }

  /** A call of a function by name: everything but its claimed results is the same. */
  lemma {:induction false} SimSite(p: Prog, q: Prog, m: Sem, cs: set<Claim>, fuel: nat, e: Expr, g: string, env: Env, h: Heap)
    requires Setting(p, q, m, cs) && IsCallOf(e, g) && FreeAll(e.args, cs)
    ensures ResRel(EvalCall(p, m, fuel, e, env, h), EvalCall(q, m, fuel, e, env, h), cs, g)
    decreases fuel, 1, e, 0
  {
    match Callee(p, env, e.fun)
    case Some(_) =>
      SimEvalList(p, q, m, cs, fuel, e.args, env, h);
      var r := EvalList(p, m, fuel, e.args, env, h);
      if r.Val? { SimCall(p, q, m, cs, fuel, g, r.v, r.heap); }
    case None =>
      var r := Eval(p, m, fuel, e.fun, env, h);
      if r.Val? { SimEvalList(p, q, m, cs, fuel, e.args, env, r.heap); }
  }

  lemma {:induction false} SimCall(p: Prog, q: Prog, m: Sem, cs: set<Claim>, fuel: nat, g: string, args: seq<Value>, h: Heap)
    requires Setting(p, q, m, cs) && g in p
    ensures ResRel(CallFunc(p, m, fuel, g, args, h), CallFunc(q, m, fuel, g, args, h), cs, g)
    decreases fuel, 0
  {
    if fuel > 0 && |args| == |p[g].params| {
      SimList(p, q, m, cs, fuel - 1, p[g].body, q[g].body, g, [Frame(p[g].params, args)], h);
    }
  }

  // ---------- Statements ----------

  lemma {:induction false} SimTarget(p: Prog, q: Prog, m: Sem, cs: set<Claim>, fuel: nat, e: Expr, env: Env, h: Heap)
    requires Setting(p, q, m, cs) && Free(e, cs)
    ensures EvalTarget(p, m, fuel, e, env, h) == EvalTarget(q, m, fuel, e, env, h)
    decreases fuel, 1, e, 2
  {
    match e
    case Selector(x, _) => SimEval(p, q, m, cs, fuel, x, env, h);
    case Index(x, i) =>
      SimEval(p, q, m, cs, fuel, x, env, h);
      var r := Eval(p, m, fuel, x, env, h);
      if r.Val? { SimEval(p, q, m, cs, fuel, i, env, r.heap); }
    case Star(x) => SimEval(p, q, m, cs, fuel, x, env, h);
    case _ =>
  }

  lemma {:induction false} SimTargets(p: Prog, q: Prog, m: Sem, cs: set<Claim>, fuel: nat, es: seq<Expr>, env: Env, h: Heap)
    requires Setting(p, q, m, cs) && FreeAll(es, cs)
    ensures EvalTargets(p, m, fuel, es, env, h) == EvalTargets(q, m, fuel, es, env, h)
    decreases fuel, 1, es, 3
  {
    if es != [] {
      SimTarget(p, q, m, cs, fuel, es[0], env, h);
      var r := EvalTarget(p, m, fuel, es[0], env, h);
      if r.Val? { SimTargets(p, q, m, cs, fuel, es[1..], env, r.heap); }
    }
  }

  lemma {:induction false} SimRight(p: Prog, q: Prog, m: Sem, cs: set<Claim>, fuel: nat, es: seq<Expr>, env: Env, h: Heap)
    requires Setting(p, q, m, cs) && FreeAll(es, cs)
    ensures RightSide(p, m, fuel, es, env, h) == RightSide(q, m, fuel, es, env, h)
    decreases fuel, 1, es, 1
  {
    if |es| == 1 && es[0].Call? {
      SimEvalCall(p, q, m, cs, fuel, es[0], env, h);
    } else {
      SimEvalList(p, q, m, cs, fuel, es, env, h);
    }
  }

  /** Storing to a blank drops the value. */
  lemma {:induction false} BlankDrops(m: Sem, tok: Tok, ts: seq<Target>, vs: seq<Value>, ws: seq<Value>, env: Env, h: Heap)
    requires |ts| == |vs| == |ws| && forall j :: 0 <= j < |ts| ==> vs[j] == ws[j] || ts[j] == Blank
    ensures StoreAll(m, tok, ts, vs, env, h) == StoreAll(m, tok, ts, ws, env, h)
    decreases |ts|
  {
    if ts != [] {
      var r := StoreOne(m, tok, ts[0], vs[0], env, h);
      if r.Next? { BlankDrops(m, tok, ts[1..], vs[1..], ws[1..], r.env, r.heap); }
    }
  }

  /** With blanks for the claimed results, storing does not depend on them. */
  lemma {:induction false} StoreDrops(m: Sem, tok: Tok, ts: seq<Target>, a: Res<seq<Value>>, b: Res<seq<Value>>, cs: set<Claim>, g: string, env: Env)
    requires ResRel(a, b, cs, g) && forall j :: 0 <= j < |ts| && Claim(g, |ts|, j) in cs ==> ts[j] == Blank
    ensures StoreRight(m, tok, ts, a, env) == StoreRight(m, tok, ts, b, env)
  {
    if a != b && |a.v| == |ts| {
      forall j | 0 <= j < |ts| ensures a.v[j] == b.v[j] || ts[j] == Blank { assert a.v[j] == b.v[j] || Claim(g, |ts|, j) in cs; }
      BlankDrops(m, tok, ts, a.v, b.v, env, a.heap);
    }
  }

  /** The right side is a call of a function of which some result is claimed. */
  predicate Site(s: Stmt, c: Claim) {
    s.AssignStmt? && |s.rhs| == 1 && IsCallOf(s.rhs[0], c.name)
  }

  /** A clean assignment of such a call has blanks for the claimed results. */
  lemma {:induction false} SiteDiscards(s: Stmt, cs: set<Claim>, c: Claim)
    requires Clean(s, cs) && c in cs && Site(s, c)
    ensures FreeAll(s.lhs, cs) && FreeAll(s.rhs[0].args, cs)
    ensures forall j :: 0 <= j < |s.lhs| && Claim(c.name, |s.lhs|, j) in cs ==> s.lhs[j] == Ident("_")
  {
    forall d | d in cs ensures !AnyReferences(s.lhs, d.name) && !AnyReferences(s.rhs[0].args, d.name)
                       ensures d.name == c.name && d.n == |s.lhs| && d.idx < |s.lhs| ==> s.lhs[d.idx] == Ident("_") {
      assert ScanStmt(s, d).Some?;
      assert s.rhs[1..] == [];
      assert AnyReferences(s.rhs, d.name) == ReferencesIdent(s.rhs[0], d.name);
      assert ReferencesIdent(s.rhs[0], d.name) == (c.name == d.name || AnyReferences(s.rhs[0].args, d.name));
    }
    forall j | 0 <= j < |s.lhs| && Claim(c.name, |s.lhs|, j) in cs ensures s.lhs[j] == Ident("_") {
      assert Claim(c.name, |s.lhs|, j).idx == j;
    }
  }

  /** Any other clean assignment does not mention the claimed functions. */
  lemma {:induction false} NoSite(s: Stmt, cs: set<Claim>)
    requires s.AssignStmt? && Clean(s, cs) && forall c :: c in cs ==> !Site(s, c)
    ensures FreeAll(s.lhs, cs) && FreeAll(s.rhs, cs)
  {
    forall c | c in cs ensures !AnyReferences(s.lhs, c.name) && !AnyReferences(s.rhs, c.name) {
      assert ScanStmt(s, c).Some? && !Site(s, c);
    }
  }

  lemma {:induction false} SimDiscard(p: Prog, q: Prog, m: Sem, cs: set<Claim>, fuel: nat, s: Stmt, c: Claim, env: Env, h: Heap)
    requires Setting(p, q, m, cs) && Clean(s, cs) && c in cs && Site(s, c)
    ensures Exec(p, m, fuel, s, env, h) == Exec(q, m, fuel, s, env, h)
    decreases fuel, 2, 0
  {
    SiteDiscards(s, cs, c);
    SimTargets(p, q, m, cs, fuel, s.lhs, env, h);
    var ts := EvalTargets(p, m, fuel, s.lhs, env, h);
    if ts.Val? {
      SimSite(p, q, m, cs, fuel, s.rhs[0], c.name, env, ts.heap);
      StoreDrops(m, s.tok, ts.v, RightSide(p, m, fuel, s.rhs, env, ts.heap), RightSide(q, m, fuel, s.rhs, env, ts.heap), cs, c.name, env);
    }
  }

  lemma {:induction false} SimAssign(p: Prog, q: Prog, m: Sem, cs: set<Claim>, fuel: nat, s: Stmt, env: Env, h: Heap)
    requires Setting(p, q, m, cs) && s.AssignStmt? && Clean(s, cs)
    ensures Exec(p, m, fuel, s, env, h) == Exec(q, m, fuel, s, env, h)
    decreases fuel, 2, 1
  {
    if c :| c in cs && Site(s, c) {
      SimDiscard(p, q, m, cs, fuel, s, c, env, h);
    } else {
      NoSite(s, cs);
      SimTargets(p, q, m, cs, fuel, s.lhs, env, h);
      var ts := EvalTargets(p, m, fuel, s.lhs, env, h);
      if ts.Val? { SimRight(p, q, m, cs, fuel, s.rhs, env, ts.heap); }
    }
  }

  /** A return of the function itself, zeroed or not. */
  lemma {:induction false} ZeroedReturn(q: Prog, m: Sem, fuel: nat, rs: seq<Expr>, qs: seq<Expr>, cs: set<Claim>, g: string, env: Env, h: Heap)
    requires Zeroed(rs, qs, cs, g) && rs != qs
    ensures ResRel(RightSide(q, m, fuel, rs, env, h), RightSide(q, m, fuel, qs, env, h), cs, g)
  {
    if |rs| == 1 { assert ZeroedAt(rs[0], qs[0], cs, g, |rs|, 0) && rs[0] != qs[0]; }
    ZeroedList(q, m, fuel, rs, qs, cs, g, |rs|, 0, env, h);
  }

  lemma {:induction false} ZeroedTail(rs: seq<Expr>, qs: seq<Expr>, cs: set<Claim>, g: string, n: nat, off: nat)
    requires rs != [] && ZeroedFrom(rs, qs, cs, g, n, off)
    ensures ZeroedAt(rs[0], qs[0], cs, g, n, off) && ZeroedFrom(rs[1..], qs[1..], cs, g, n, off + 1)
  {
    assert ZeroedAt(rs[0], qs[0], cs, g, n, off + 0);
    forall j | 0 <= j < |rs| - 1 ensures ZeroedAt(rs[1..][j], qs[1..][j], cs, g, n, off + 1 + j) {
      assert ZeroedAt(rs[j + 1], qs[j + 1], cs, g, n, off + (j + 1));
    }
  }

  lemma {:induction false} SameCons(v: Value, w: Value, vs: seq<Value>, ws: seq<Value>, cs: set<Claim>, g: string, n: nat, off: nat)
    requires (v == w || Claim(g, n, off) in cs) && SameFrom(vs, ws, cs, g, n, off + 1)
    ensures SameFrom([v] + vs, [w] + ws, cs, g, n, off)
  {
    forall j | 0 < j <= |vs| ensures ([v] + vs)[j] == ([w] + ws)[j] || Claim(g, n, off + j) in cs {
      assert vs[j - 1] == ws[j - 1] || Claim(g, n, off + 1 + (j - 1)) in cs;
    }
  }

  /** One result. */
  lemma {:induction false} ZeroedOne(q: Prog, m: Sem, fuel: nat, r: Expr, e: Expr, cs: set<Claim>, g: string, n: nat, j: nat, env: Env, h: Heap)
    requires ZeroedAt(r, e, cs, g, n, j)
    ensures var a, b := Eval(q, m, fuel, r, env, h), Eval(q, m, fuel, e, env, h);
            a == b || (a.Val? && b.Val? && a.heap == b.heap && Claim(g, n, j) in cs)
  {
    if r != e {
      PureEvaluates(q, m, fuel, r, env, h);
      PureEvaluates(q, m, fuel, e, env, h);
    }
  }

  lemma {:induction false} ZeroedList(q: Prog, m: Sem, fuel: nat, rs: seq<Expr>, qs: seq<Expr>, cs: set<Claim>, g: string, n: nat, off: nat, env: Env, h: Heap)
    requires ZeroedFrom(rs, qs, cs, g, n, off)
    ensures var a, b := EvalList(q, m, fuel, rs, env, h), EvalList(q, m, fuel, qs, env, h);
            (a.Val? <==> b.Val?) && (a.Val? ==> a.heap == b.heap && |a.v| == |rs| && SameFrom(a.v, b.v, cs, g, n, off)) && (!a.Val? ==> a == b)
    decreases |rs|
  {
    if rs != [] {
      ZeroedTail(rs, qs, cs, g, n, off);
      ZeroedOne(q, m, fuel, rs[0], qs[0], cs, g, n, off, env, h);
      var a, b := Eval(q, m, fuel, rs[0], env, h), Eval(q, m, fuel, qs[0], env, h);
      if a.Val? {
        ZeroedList(q, m, fuel, rs[1..], qs[1..], cs, g, n, off + 1, env, a.heap);
        var vs, ws := EvalList(q, m, fuel, rs[1..], env, a.heap), EvalList(q, m, fuel, qs[1..], env, a.heap);
        if vs.Val? { SameCons(a.v, b.v, vs.v, ws.v, cs, g, n, off); }
      }
    }
  }

  lemma {:induction false} SimReturn(p: Prog, q: Prog, m: Sem, cs: set<Claim>, fuel: nat, s: Stmt, t: Stmt, g: string, env: Env, h: Heap)
    requires Setting(p, q, m, cs) && s.ReturnStmt? && EditedStmt(s, t, cs, g) && Clean(s, cs)
    ensures FlowRel(Exec(p, m, fuel, s, env, h), Exec(q, m, fuel, t, env, h), cs, g)
    decreases fuel, 2, 0
  {
    SimRight(p, q, m, cs, fuel, s.results, env, h);
    if s != t { ZeroedReturn(q, m, fuel, s.results, t.results, cs, g, env, h); }
  }

  lemma {:induction false} SimExprStmt(p: Prog, q: Prog, m: Sem, cs: set<Claim>, fuel: nat, s: Stmt, env: Env, h: Heap)
    requires Setting(p, q, m, cs) && s.ExprStmt? && Clean(s, cs)
    ensures Exec(p, m, fuel, s, env, h) == Exec(q, m, fuel, s, env, h)
    decreases fuel, 2, 0
  {
    if c :| c in cs && IsCallOf(s.x, c.name) {
      forall d | d in cs ensures !AnyReferences(s.x.args, d.name) { assert ScanStmt(s, d).Some?; }
      SimSite(p, q, m, cs, fuel, s.x, c.name, env, h);
    } else {
      forall d | d in cs ensures !ReferencesIdent(s.x, d.name) { assert ScanStmt(s, d).Some? && !IsCallOf(s.x, d.name); }
      if s.x.Call? { SimEvalCall(p, q, m, cs, fuel, s.x, env, h); } else { SimEval(p, q, m, cs, fuel, s.x, env, h); }
    }
  }

  /** Statements related without shifting the comparison that an if statement itself returns. */
  ghost predicate Parallel(s: Stmt, t: Stmt, cs: set<Claim>, g: string) {
    EditedStmt(s, t, cs, g) && (s == t || !s.IfStmt? || EditedList(s.body, t.body, cs, g))
  }

  lemma {:induction false} SimStmt(p: Prog, q: Prog, m: Sem, cs: set<Claim>, fuel: nat, s: Stmt, t: Stmt, g: string, env: Env, h: Heap)
    requires Setting(p, q, m, cs) && EditedStmt(s, t, cs, g) && Clean(s, cs)
    ensures FlowRel(Exec(p, m, fuel, s, env, h), Exec(q, m, fuel, t, env, h), cs, g)
    decreases fuel, 3, s, 4
  {
    if Parallel(s, t, cs, g) {
      SimParallel(p, q, m, cs, fuel, s, t, g, env, h);
    } else {
      var u := IfStmt(s.init, s.cond, s.body, t.els);
      assert DetectGuardedComparison(u) && t == Shifted(u);
      SimParallel(p, q, m, cs, fuel, s, u, g, env, h);
      GuardedComparisonSound(q, m, fuel, u, env, h);
    }
  }

  lemma {:induction false} SimParallel(p: Prog, q: Prog, m: Sem, cs: set<Claim>, fuel: nat, s: Stmt, t: Stmt, g: string, env: Env, h: Heap)
    requires Setting(p, q, m, cs) && Parallel(s, t, cs, g) && Clean(s, cs)
    ensures FlowRel(Exec(p, m, fuel, s, env, h), Exec(q, m, fuel, t, env, h), cs, g)
    decreases fuel, 3, s, 3
  {
    match s
    case ExprStmt(_) => SimExprStmt(p, q, m, cs, fuel, s, env, h);
    case AssignStmt(_, _, _) => SimAssign(p, q, m, cs, fuel, s, env, h);
    case ReturnStmt(_) => SimReturn(p, q, m, cs, fuel, s, t, g, env, h);
    case BlockStmt(list) => SimList(p, q, m, cs, fuel, list, t.list, g, [map[]] + env, h);
    case IfStmt(_, _, _, _) => SimIf(p, q, m, cs, fuel, s, t, g, env, h);
    case ForStmt(_, _) => SimFor(p, q, m, cs, fuel, s, t, g, env, h);
  }

  /** What an if statement does after its test. */
  function Branch(p: Prog, m: Sem, fuel: nat, s: Stmt, v: Value, env: Env, h: Heap): Flow
    requires s.IfStmt?
  {
    if Truth(v) then Pop(Pop(ExecList(p, m, fuel, s.body, [map[]] + env, h)))
    else if s.els.Some? then Pop(Exec(p, m, fuel, s.els.value, env, h))
    else Pop(Next(env, h))
  }

  lemma {:induction false} SimBranch(p: Prog, q: Prog, m: Sem, cs: set<Claim>, fuel: nat, s: Stmt, t: Stmt, g: string, v: Value, env: Env, h: Heap)
    requires Setting(p, q, m, cs) && s.IfStmt? && Parallel(s, t, cs, g) && Clean(s, cs)
    ensures FlowRel(Branch(p, m, fuel, s, v, env, h), Branch(q, m, fuel, t, v, env, h), cs, g)
    decreases fuel, 3, s, 0
  {
    if Truth(v) {
      SimList(p, q, m, cs, fuel, s.body, t.body, g, [map[]] + env, h);
    } else if s.els.Some? {
      SimStmt(p, q, m, cs, fuel, s.els.value, t.els.value, g, env, h);
    }
  }

  /** The test of an if statement and what follows it. */
  function Test(p: Prog, m: Sem, fuel: nat, s: Stmt, env: Env, h: Heap): Flow
    requires s.IfStmt?
  {
    var b := Eval(p, m, fuel, s.cond, env, h);
    if b.Val? then Branch(p, m, fuel, s, b.v, env, b.heap) else Abort(b)
  }

  lemma {:induction false} SimTest(p: Prog, q: Prog, m: Sem, cs: set<Claim>, fuel: nat, s: Stmt, t: Stmt, g: string, env: Env, h: Heap)
    requires Setting(p, q, m, cs) && s.IfStmt? && Parallel(s, t, cs, g) && Clean(s, cs)
    ensures FlowRel(Test(p, m, fuel, s, env, h), Test(q, m, fuel, t, env, h), cs, g)
    decreases fuel, 3, s, 1
  {
    SimEval(p, q, m, cs, fuel, s.cond, env, h);
    var b := Eval(p, m, fuel, s.cond, env, h);
    if b.Val? { SimBranch(p, q, m, cs, fuel, s, t, g, b.v, env, b.heap); }
  }

  lemma {:induction false} IfIsTest(p: Prog, m: Sem, fuel: nat, s: Stmt, env: Env, h: Heap)
    requires s.IfStmt?
    ensures Exec(p, m, fuel, s, env, h)
         == var start := if s.init.None? then Next([map[]] + env, h) else Exec(p, m, fuel, s.init.value, [map[]] + env, h);
            if start.Next? then Test(p, m, fuel, s, start.env, start.heap) else start
  {
  }

  lemma {:induction false} SimIf(p: Prog, q: Prog, m: Sem, cs: set<Claim>, fuel: nat, s: Stmt, t: Stmt, g: string, env: Env, h: Heap)
    requires Setting(p, q, m, cs) && s.IfStmt? && Parallel(s, t, cs, g) && Clean(s, cs)
    ensures FlowRel(Exec(p, m, fuel, s, env, h), Exec(q, m, fuel, t, env, h), cs, g)
    decreases fuel, 3, s, 2
  {
    var e1 := [map[]] + env;
    IfIsTest(p, m, fuel, s, env, h);
    IfIsTest(q, m, fuel, t, env, h);
    if s.init.Some? { SimStmt(p, q, m, cs, fuel, s.init.value, s.init.value, g, e1, h); }
    var start := if s.init.None? then Next(e1, h) else Exec(p, m, fuel, s.init.value, e1, h);
    if start.Next? { SimTest(p, q, m, cs, fuel, s, t, g, start.env, start.heap); }
  }

  lemma {:induction false} SimFor(p: Prog, q: Prog, m: Sem, cs: set<Claim>, fuel: nat, s: Stmt, t: Stmt, g: string, env: Env, h: Heap)
    requires Setting(p, q, m, cs) && s.ForStmt? && Parallel(s, t, cs, g) && Clean(s, cs)
    ensures FlowRel(Exec(p, m, fuel, s, env, h), Exec(q, m, fuel, t, env, h), cs, g)
    decreases fuel, 3, s, 0
  {
    SimEval(p, q, m, cs, fuel, s.cond, env, h);
    var b := Eval(p, m, fuel, s.cond, env, h);
    if b.Val? && Truth(b.v) && fuel > 0 {
      SimList(p, q, m, cs, fuel - 1, s.body, t.body, g, [map[]] + env, b.heap);
      var r := Pop(ExecList(p, m, fuel - 1, s.body, [map[]] + env, b.heap));
      if r.Next? {
        SimStmt(p, q, m, cs, fuel - 1, s, t, g, r.env, r.heap);
      }
    }
  }

  lemma {:induction false} SimList(p: Prog, q: Prog, m: Sem, cs: set<Claim>, fuel: nat, a: seq<Stmt>, b: seq<Stmt>, g: string, env: Env, h: Heap)
    requires Setting(p, q, m, cs) && EditedList(a, b, cs, g) && CleanList(a, cs)
    ensures FlowRel(ExecList(p, m, fuel, a, env, h), ExecList(q, m, fuel, b, env, h), cs, g)
    decreases fuel, 3, a, 1
  {
    if a == b || EditedStmt(a[0], b[0], cs, g) {
      SimEach(p, q, m, cs, fuel, a, b, g, env, h);
    } else {
      SimFlip(p, q, m, cs, fuel, a, b, g, env, h);
    }
  }

  /** A marked literal is flipped at the head: in the original program that changes nothing, and then the
      heads are equal. */
  lemma {:induction false} SimFlip(p: Prog, q: Prog, m: Sem, cs: set<Claim>, fuel: nat, a: seq<Stmt>, b: seq<Stmt>, g: string, env: Env, h: Heap)
    requires Setting(p, q, m, cs) && CleanList(a, cs)
    requires a != [] && b != [] && Flipped(a, b[0]) && EditedList(a[1..], b[1..], cs, g)
    ensures FlowRel(ExecList(p, m, fuel, a, env, h), ExecList(q, m, fuel, b, env, h), cs, g)
    decreases fuel, 3, a, 0
  {
    var f := FlipAt(a, 0);
    DeadStoreSound(p, m, fuel, a, 0, env, h);
    assert f[0] == b[0] && f[1..] == a[1..];
    DeclEffect(p, m, fuel, b[0], env, h);
    DeclEffect(q, m, fuel, b[0], env, h);
    var r := Exec(p, m, fuel, b[0], env, h);
    if r.Next? {
      SimList(p, q, m, cs, fuel, a[1..], b[1..], g, r.env, r.heap);
    }
  }

  lemma {:induction false} SimEach(p: Prog, q: Prog, m: Sem, cs: set<Claim>, fuel: nat, a: seq<Stmt>, b: seq<Stmt>, g: string, env: Env, h: Heap)
    requires Setting(p, q, m, cs) && CleanList(a, cs)
    requires a == b || (a != [] && b != [] && EditedStmt(a[0], b[0], cs, g) && EditedList(a[1..], b[1..], cs, g))
    ensures FlowRel(ExecList(p, m, fuel, a, env, h), ExecList(q, m, fuel, b, env, h), cs, g)
    decreases fuel, 3, a, 0
  {
    if a != [] {
      SimStmt(p, q, m, cs, fuel, a[0], b[0], g, env, h);
      var r := Exec(p, m, fuel, a[0], env, h);
      if r.Next? {
        SimList(p, q, m, cs, fuel, a[1..], b[1..], g, r.env, r.heap);
      }
    }
  }

  // ---------- The theorems ----------

  /** Any number of suppressed edits, anywhere, recursion included: of every function the heap and all
      results but the claimed ones are the same, and a function without claims behaves the same. */
  lemma {:induction false} SuppressedEditsUnobservable(p: Prog, q: Prog, m: Sem, cs: set<Claim>, fuel: nat, g: string, args: seq<Value>, h: Heap)
    requires LawfulOrder(m) && EditedProg(p, q, cs) && CleanProg(p, cs) && g in p
    ensures var a, b := CallFunc(p, m, fuel, g, args, h), CallFunc(q, m, fuel, g, args, h);
            && (a == b || (a.Val? && b.Val? && a.heap == b.heap && SameBut(a.v, b.v, cs, g)))
            && ((forall c :: c in cs ==> c.name != g) ==> a == b)
  {
    SimCall(p, q, m, cs, fuel, g, args, h);
    if forall c :: c in cs ==> c.name != g {
      Unclaimed(CallFunc(p, m, fuel, g, args, h), CallFunc(q, m, fuel, g, args, h), cs, g);
    }
  }

  /** p holds functions declared in the package. */
  ghost predicate Loaded(info: Package, p: Prog) {
    forall g :: g in p ==> exists f: nat, k: nat :: Declares(info, f, k, p[g].params, p[g].body)
  }

  ghost predicate Declares(info: Package, f: nat, k: nat, params: seq<string>, body: seq<Stmt>) {
    f < |info.files| && k < |info.files[f]| && info.files[f][k].params == params
    && info.files[f][k].body == Some(body)
  }

  /** What the detector checks of one result of a declared function. */
  predicate Discards(info: Package, d: FuncDecl, c: Claim) {
    EligibleDiscardDecl(d) && c.name == d.name && c.n == |d.results| && c.idx < c.n && ScanFiles(info.files, c).Some?
  }

  ghost predicate AllDiscarded(info: Package, cs: set<Claim>) { forall c :: c in cs ==> exists d :: Discards(info, d, c) }

  lemma {:induction false} ScanMakesClean(info: Package, p: Prog, cs: set<Claim>)
    requires Loaded(info, p) && AllDiscarded(info, cs)
    ensures CleanProg(p, cs)
  {
    forall c | c in cs ensures c.idx < c.n && c.name != "_" && ScanFiles(info.files, c).Some? {
      var d :| Discards(info, d, c);
    }
    forall g | g in p ensures CleanList(p[g].body, cs) {
      var f: nat, k: nat :| Declares(info, f, k, p[g].params, p[g].body);
      forall c | c in cs ensures ScanList(p[g].body, c).Some? { FilesCover(info.files, c, f, k); }
    }
  }

  lemma {:induction false} NotClaimed(info: Package, cs: set<Claim>, g: string)
    requires AllDiscarded(info, cs)
    ensures (g != "" && 'A' <= g[0] <= 'Z') || g == "main" || g == "init" ==> forall c :: c in cs ==> c.name != g
  {
    forall c | c in cs ensures (c.name != "" && 'A' <= c.name[0] <= 'Z') || c.name == "main" || c.name == "init" ==> c.name != g {
      var d :| Discards(info, d, c);
    }
  }

  /** Discarded-result soundness, from what the detector checks to what a caller can see, for any number
      of results of any number of functions at once. What can be called from outside the package gives the
      very same. */
  lemma {:induction false} DiscardedResultSound(info: Package, p: Prog, q: Prog, m: Sem, cs: set<Claim>,
                                                fuel: nat, g: string, args: seq<Value>, h: Heap)
    requires LawfulOrder(m) && Loaded(info, p) && AllDiscarded(info, cs) && EditedProg(p, q, cs) && g in p
    ensures var a, b := CallFunc(p, m, fuel, g, args, h), CallFunc(q, m, fuel, g, args, h);
            && (a == b || (a.Val? && b.Val? && a.heap == b.heap && SameBut(a.v, b.v, cs, g)))
            && ((forall c :: c in cs ==> c.name != g) ==> a == b)
            && ((g != "" && 'A' <= g[0] <= 'Z') || g == "main" || g == "init" ==> a == b)
  {
    NotClaimed(info, cs, g);
    ScanMakesClean(info, p, cs);
    SuppressedEditsUnobservable(p, q, m, cs, fuel, g, args, h);
  }

  /** Without a claim the two local detectors leave every function exactly as it was. */
  lemma {:induction false} LocalEditsUnobservable(p: Prog, q: Prog, m: Sem, fuel: nat, g: string, args: seq<Value>, h: Heap)
    requires LawfulOrder(m) && EditedProg(p, q, {}) && g in p
    ensures CallFunc(p, m, fuel, g, args, h) == CallFunc(q, m, fuel, g, args, h)
  {
    SuppressedEditsUnobservable(p, q, m, {}, fuel, g, args, h);
  }
}
