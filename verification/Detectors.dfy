/** The three equivalence detectors, and the local facts each of them rests on. */
module Detectors {
  import opened Base
  import opened GoCore

  // ---------- What an expression mentions ----------

  /** An identifier spelled `name` occurs somewhere in e, selector names included. */
  predicate ReferencesIdent(e: Expr, name: string)
    decreases e, 1
  {
    match e
    case Ident(n) => n == name
    case BasicLit(_, _) => false
    case Paren(x) => ReferencesIdent(x, name)
    case Selector(x, sel) => ReferencesIdent(x, name) || sel == name
    case Index(x, i) => ReferencesIdent(x, name) || ReferencesIdent(i, name)
    case Star(x) => ReferencesIdent(x, name)
    case Unary(_, x) => ReferencesIdent(x, name)
    case Binary(_, l, r) => ReferencesIdent(l, name) || ReferencesIdent(r, name)
    case Call(f, args) => ReferencesIdent(f, name) || AnyReferences(args, name)
    case Other(_, kids) => AnyReferences(kids, name)
    case FuncLit(_, free) => name in free
  }

  predicate AnyReferences(es: seq<Expr>, name: string)
    decreases es, 0
  {
    es != [] && (ReferencesIdent(es[0], name) || AnyReferences(es[1..], name))
  }

  /** The two environments give every name but v the same value, in the same scope. */
  ghost predicate AgreeOff(a: Env, b: Env, v: string) {
    |a| == |b| && forall i :: 0 <= i < |a| ==>
      a[i].Keys == b[i].Keys && forall n :: n in a[i] && n != v ==> a[i][n] == b[i][n]
  }

  lemma {:induction false} LookupAgrees(m: Sem, a: Env, b: Env, v: string, n: string, h: Heap)
    requires AgreeOff(a, b, v)
    ensures Bound(a, n) == Bound(b, n)
    ensures n != v ==> Lookup(m, a, n, h) == Lookup(m, b, n, h)
    decreases |a|
  {
    if a != [] && n !in a[0] {
      assert AgreeOff(a[1..], b[1..], v);
      LookupAgrees(m, a[1..], b[1..], v, n, h);
    }
  }

  /** Non-interference: what does not mention v does not depend on v. */
  lemma {:induction false} NonInterference(p: Prog, m: Sem, fuel: nat, e: Expr, v: string, a: Env, b: Env, h: Heap)
    requires AgreeOff(a, b, v) && !ReferencesIdent(e, v)
    ensures Eval(p, m, fuel, e, a, h) == Eval(p, m, fuel, e, b, h)
    decreases e, 1
  {
    match e
    case Ident(n) => LookupAgrees(m, a, b, v, n, h);
    case BasicLit(_, _) =>
    case Paren(x) => NonInterference(p, m, fuel, x, v, a, b, h);
    case Selector(x, _) => NonInterference(p, m, fuel, x, v, a, b, h);
    case Index(x, i) =>
      NonInterference(p, m, fuel, x, v, a, b, h);
      var r := Eval(p, m, fuel, x, a, h);
      if r.Val? { NonInterference(p, m, fuel, i, v, a, b, r.heap); }
    case Star(x) => NonInterference(p, m, fuel, x, v, a, b, h);
    case Unary(_, x) => NonInterference(p, m, fuel, x, v, a, b, h);
    case Binary(_, l, r) =>
      NonInterference(p, m, fuel, l, v, a, b, h);
      var q := Eval(p, m, fuel, l, a, h);
      if q.Val? { NonInterference(p, m, fuel, r, v, a, b, q.heap); }
    case Call(_, _) => NonInterferenceCall(p, m, fuel, e, v, a, b, h);
    case Other(_, kids) => NonInterferenceList(p, m, fuel, kids, v, a, b, h);
    case FuncLit(_, free) =>
      forall i | 0 <= i < |free| ensures Lookup(m, a, free[i], h) == Lookup(m, b, free[i], h) {
        LookupAgrees(m, a, b, v, free[i], h);
      }
      assert Lookups(m, a, free, h) == Lookups(m, b, free, h);
  }

  lemma {:induction false} NonInterferenceList(p: Prog, m: Sem, fuel: nat, es: seq<Expr>, v: string, a: Env, b: Env, h: Heap)
    requires AgreeOff(a, b, v) && !AnyReferences(es, v)
    ensures EvalList(p, m, fuel, es, a, h) == EvalList(p, m, fuel, es, b, h)
    decreases es, 0
  {
    if es != [] {
      NonInterference(p, m, fuel, es[0], v, a, b, h);
      var r := Eval(p, m, fuel, es[0], a, h);
      if r.Val? { NonInterferenceList(p, m, fuel, es[1..], v, a, b, r.heap); }
    }
  }

  lemma {:induction false} NonInterferenceCall(p: Prog, m: Sem, fuel: nat, e: Expr, v: string, a: Env, b: Env, h: Heap)
    requires AgreeOff(a, b, v) && e.Call? && !ReferencesIdent(e, v)
    ensures EvalCall(p, m, fuel, e, a, h) == EvalCall(p, m, fuel, e, b, h)
    decreases e, 0
  {
    var g := UnwrapParen(e.fun);
    if g.Ident? { LookupAgrees(m, a, b, v, g.name, h); }
    if Callee(p, a, e.fun).Some? {
      NonInterferenceList(p, m, fuel, e.args, v, a, b, h);
    } else {
      NonInterference(p, m, fuel, e.fun, v, a, b, h);
      var r := Eval(p, m, fuel, e.fun, a, h);
      if r.Val? { NonInterferenceList(p, m, fuel, e.args, v, a, b, r.heap); }
    }
  }

  // ---------- Dead stores ----------

  predicate IsOverwrite(s: Stmt, name: string) {
    s.AssignStmt? && s.tok == AssignTok && |s.lhs| == 1 && |s.rhs| == 1
    && s.lhs[0] == Ident(name) && !ReferencesIdent(s.rhs[0], name)
  }

  predicate IsSoleOverwrite(list: seq<Stmt>, name: string) {
    |list| == 1 && IsOverwrite(list[0], name)
  }

  /** A := of one name to a bare true or false. */
  predicate LiteralDecl(s: Stmt) {
    s.AssignStmt? && s.tok == DefineTok && |s.lhs| == 1 && |s.rhs| == 1
    && s.lhs[0].Ident? && s.lhs[0].name != "_"
    && s.rhs[0].Ident? && s.rhs[0].name in {"true", "false"}
  }

  /** The statement after the declaration overwrites it on every path without reading it. */
  predicate Overwrites(next: Stmt, name: string) {
    match next
    case AssignStmt(_, _, _) => IsOverwrite(next, name)
    case IfStmt(init, cond, body, els) =>
      init.None? && !ReferencesIdent(cond, name)
      && els.Some? && els.value.BlockStmt?
      && IsSoleOverwrite(body, name) && IsSoleOverwrite(els.value.list, name)
    case _ => false
  }

  predicate DeadStoreAt(list: seq<Stmt>, i: nat) {
    i + 1 < |list| && LiteralDecl(list[i]) && Overwrites(list[i + 1], list[i].lhs[0].name)
  }

  /** The detector's scan of one statement list; `out` holds the positions of the marked literals. */
  method DetectDeadStoreLiteral(list: seq<Stmt>) returns (out: set<nat>)
    ensures forall i: nat :: i in out <==> DeadStoreAt(list, i)
  {
    out := {};
    var i := 0;
    while i + 1 < |list|
      invariant 0 <= i
      invariant forall k: nat :: k in out <==> k < i && DeadStoreAt(list, k)
    {
      var decl := list[i];
      if LiteralDecl(decl) {
        var name := decl.lhs[0].name;
        match list[i + 1]
        case AssignStmt(_, _, _) =>
          if IsOverwrite(list[i + 1], name) {
            out := out + {i};
          }
        case IfStmt(init, cond, body, els) =>
          if init.None? && !ReferencesIdent(cond, name) {
            if els.Some? && els.value.BlockStmt? {
              if IsSoleOverwrite(body, name) && IsSoleOverwrite(els.value.list, name) {
                out := out + {i};
              }
            }
          }
        case _ =>
      }
      i := i + 1;
    }
  }

  function Flip(lit: Expr): Expr
    requires lit.Ident?
  {
    Ident(if lit.name == "true" then "false" else "true")
  }

  /** The boolean-literal mutant of the declaration at i. */
  function FlipAt(list: seq<Stmt>, i: nat): (r: seq<Stmt>)
    requires i < |list| && LiteralDecl(list[i])
    ensures |r| == |list|
  {
    list[i := AssignStmt(DefineTok, list[i].lhs, [Flip(list[i].rhs[0])])]
  }

  /** Flipping changes the list, and flipping again restores it. */
  lemma FlipTwice(list: seq<Stmt>, i: nat)
    requires i < |list| && LiteralDecl(list[i])
    ensures LiteralDecl(FlipAt(list, i)[i]) && FlipAt(list, i) != list && FlipAt(FlipAt(list, i), i) == list
  {
    assert FlipAt(list, i)[i].rhs[0] != list[i].rhs[0];
    var s := list[i];
    assert s.lhs == [s.lhs[0]] && s.rhs == [s.rhs[0]];
  }

  /** name = e */
  function Assign(name: string, e: Expr): Stmt { AssignStmt(AssignTok, [Ident(name)], [e]) }

  ghost predicate PlainOverwrite(next: Stmt, v: string) {
    exists e :: next == Assign(v, e) && !ReferencesIdent(e, v)
  }

  ghost predicate BothOverwrite(next: Stmt, v: string) {
    exists cond, a, b :: next == IfStmt(None, cond, [Assign(v, a)], Some(BlockStmt([Assign(v, b)])))
      && !ReferencesIdent(cond, v) && !ReferencesIdent(a, v) && !ReferencesIdent(b, v)
  }

  /** The two shapes, and no other: v := true or false, and next v = e, or v = a and v = b in the two blocks of
      an if, where nothing that is evaluated before the assignment is done mentions v. */
  lemma {:induction false} DeadStoreShapes(list: seq<Stmt>, i: nat)
    ensures DeadStoreAt(list, i) <==> i + 1 < |list| && exists v: string, lit: string ::
      && list[i] == AssignStmt(DefineTok, [Ident(v)], [Ident(lit)]) && v != "_" && lit in {"true", "false"}
      && (PlainOverwrite(list[i + 1], v) || BothOverwrite(list[i + 1], v))
  {
    if DeadStoreAt(list, i) {
      var s, next := list[i], list[i + 1];
      var v, lit := s.lhs[0].name, s.rhs[0].name;
      assert s == AssignStmt(DefineTok, [Ident(v)], [Ident(lit)]);
      if next.AssignStmt? {
        IsAssign(next, v);
      } else {
        IsAssign(next.body[0], v);
        IsAssign(next.els.value.list[0], v);
        assert next.body == [next.body[0]] && next.els.value.list == [next.els.value.list[0]];
        assert next.els == Some(BlockStmt([Assign(v, next.els.value.list[0].rhs[0])]));
        assert next == IfStmt(None, next.cond, [Assign(v, next.body[0].rhs[0])], Some(BlockStmt([Assign(v, next.els.value.list[0].rhs[0])])));
      }
    }
  }

  lemma IsAssign(s: Stmt, v: string)
    requires IsOverwrite(s, v)
    ensures s == Assign(v, s.rhs[0])
  {
    assert s.lhs == [Ident(v)] && s.rhs == [s.rhs[0]];
  }

  /** The environments differ at most in the value of the innermost v. */
  ghost predicate DifferAt(a: Env, b: Env, v: string)
    decreases |a|
  {
    a != [] && b != [] &&
    if v in a[0] then a[1..] == b[1..] && v in b[0] && a[0][v := Nil] == b[0][v := Nil]
    else a[0] == b[0] && DifferAt(a[1..], b[1..], v)
  }

  lemma {:induction false} DifferAgrees(a: Env, b: Env, v: string)
    requires DifferAt(a, b, v)
    ensures AgreeOff(a, b, v) && Bound(a, v) && Bound(b, v)
    decreases |a|
  {
    if v in a[0] {
      assert a[0].Keys == a[0][v := Nil].Keys == b[0].Keys;
      forall n | n in a[0] && n != v ensures a[0][n] == b[0][n] {
        assert a[0][v := Nil][n] == b[0][v := Nil][n];
      }
      forall i | 0 < i < |a| ensures a[i] == a[1..][i - 1] {}
      assert |a[1..]| == |b[1..]|;
    } else {
      DifferAgrees(a[1..], b[1..], v);
      forall i | 0 < i < |a| ensures a[i] == a[1..][i - 1] && b[i] == b[1..][i - 1] {}
    }
  }

  lemma {:induction false} OverwriteMerges(a: Env, b: Env, v: string, x: Value)
    requires DifferAt(a, b, v) && Bound(a, v) && Bound(b, v)
    ensures SetLocal(a, v, x) == SetLocal(b, v, x)
    decreases |a|
  {
    if v in a[0] {
      assert a[0][v := x] == a[0][v := Nil][v := x] == b[0][v := Nil][v := x] == b[0][v := x];
    } else {
      OverwriteMerges(a[1..], b[1..], v, x);
    }
  }

  /** `v = e` with e free of v ends the same from two environments that differ only in v. */
  lemma {:induction false} OverwriteSame(p: Prog, m: Sem, fuel: nat, s: Stmt, v: string, a: Env, b: Env, h: Heap)
    requires DifferAt(a, b, v) && IsOverwrite(s, v) && v != "_"
    ensures Exec(p, m, fuel, s, a, h) == Exec(p, m, fuel, s, b, h)
  {
    DifferAgrees(a, b, v);
    assert s.lhs == [Ident(v)];
    TargetOfName(p, m, fuel, v, a, h);
    TargetOfName(p, m, fuel, v, b, h);
    RightSideAgrees(p, m, fuel, s.rhs, v, a, b, h);
    var r := RightSide(p, m, fuel, s.rhs, a, h);
    if r.Val? && |r.v| == 1 {
      OverwriteMerges(a, b, v, r.v[0]);
      StoreName(m, v, r.v[0], a, r.heap);
      StoreName(m, v, r.v[0], b, r.heap);
    }
  }

  lemma {:induction false} TargetOfName(p: Prog, m: Sem, fuel: nat, v: string, a: Env, h: Heap)
    requires v != "_"
    ensures EvalTargets(p, m, fuel, [Ident(v)], a, h) == Val([Variable(v)], h)
  {
    assert [Ident(v)][1..] == [];
    assert EvalTarget(p, m, fuel, [Ident(v)][0], a, h) == Val(Variable(v), h);
    assert [Variable(v)] + [] == [Variable(v)];
  }

  lemma {:induction false} StoreName(m: Sem, v: string, x: Value, a: Env, h: Heap)
    requires Bound(a, v)
    ensures StoreAll(m, AssignTok, [Variable(v)], [x], a, h) == Next(SetLocal(a, v, x), h)
  {
    assert StoreAll(m, AssignTok, [Variable(v)][1..], [x][1..], SetLocal(a, v, x), h) == Next(SetLocal(a, v, x), h);
  }

  lemma {:induction false} RightSideAgrees(p: Prog, m: Sem, fuel: nat, es: seq<Expr>, v: string, a: Env, b: Env, h: Heap)
    requires AgreeOff(a, b, v) && |es| == 1 && !ReferencesIdent(es[0], v)
    ensures RightSide(p, m, fuel, es, a, h) == RightSide(p, m, fuel, es, b, h)
  {
    if es[0].Call? {
      NonInterferenceCall(p, m, fuel, es[0], v, a, b, h);
    } else {
      NonInterferenceList(p, m, fuel, es, v, a, b, h);
    }
  }

  lemma {:induction false} SoleOverwriteSame(p: Prog, m: Sem, fuel: nat, list: seq<Stmt>, v: string, a: Env, b: Env, h: Heap)
    requires DifferAt(a, b, v) && IsSoleOverwrite(list, v) && v != "_"
    ensures ExecList(p, m, fuel, list, a, h) == ExecList(p, m, fuel, list, b, h)
  {
    OverwriteSame(p, m, fuel, list[0], v, a, b, h);
  }

  lemma {:induction false} OverwritesSame(p: Prog, m: Sem, fuel: nat, next: Stmt, v: string, a: Env, b: Env, h: Heap)
    requires DifferAt(a, b, v) && Overwrites(next, v) && v != "_"
    ensures Exec(p, m, fuel, next, a, h) == Exec(p, m, fuel, next, b, h)
  {
    if next.AssignStmt? {
      OverwriteSame(p, m, fuel, next, v, a, b, h);
    } else {
      var a1, b1 := [map[]] + a, [map[]] + b;
      assert a1[1..] == a && b1[1..] == b;
      DifferAgrees(a1, b1, v);
      NonInterference(p, m, fuel, next.cond, v, a1, b1, h);
      var c := Eval(p, m, fuel, next.cond, a1, h);
      if c.Val? {
        var a2, b2 := [map[]] + a1, [map[]] + b1;
        assert a2[1..] == a1 && b2[1..] == b1;
        SoleOverwriteSame(p, m, fuel, next.body, v, a2, b2, c.heap);
        SoleOverwriteSame(p, m, fuel, next.els.value.list, v, a2, b2, c.heap);
      }
    }
  }

  /** Dead-store soundness: flipping a marked literal changes nothing about the list it is in. */
  lemma {:induction false} DeadStoreSound(p: Prog, m: Sem, fuel: nat, list: seq<Stmt>, i: nat, env: Env, h: Heap)
    requires DeadStoreAt(list, i)
    ensures ExecList(p, m, fuel, FlipAt(list, i), env, h) == ExecList(p, m, fuel, list, env, h)
    decreases i
  {
    var flipped := FlipAt(list, i);
    if i == 0 {
      assert flipped[1..] == list[1..];
      DeclThenOverwrite(p, m, fuel, list[0], list[1], env, h);
      UnfoldTwo(p, m, fuel, list, env, h);
      UnfoldTwo(p, m, fuel, flipped, env, h);
    } else {
      assert flipped[0] == list[0] && flipped[1..] == FlipAt(list[1..], i - 1);
      match Exec(p, m, fuel, list[0], env, h) {
        case Next(e, g) => DeadStoreSound(p, m, fuel, list[1..], i - 1, e, g);
        case _ =>
      }
    }
  }

  /** Two statements, one after the other. */
  function Both(p: Prog, m: Sem, fuel: nat, s: Stmt, t: Stmt, env: Env, h: Heap): Flow {
    match Exec(p, m, fuel, s, env, h) case Next(e, g) => Exec(p, m, fuel, t, e, g) case r => r
  }

  lemma {:induction false} UnfoldTwo(p: Prog, m: Sem, fuel: nat, list: seq<Stmt>, env: Env, h: Heap)
    requires |list| >= 2
    ensures ExecList(p, m, fuel, list, env, h)
         == match Both(p, m, fuel, list[0], list[1], env, h)
            case Next(e, g) => ExecList(p, m, fuel, list[2..], e, g)
            case r => r
  {
    assert list[1..][0] == list[1] && list[1..][1..] == list[2..];
  }

  /** What `v := lit` does. */
  lemma {:induction false} DeclEffect(p: Prog, m: Sem, fuel: nat, s: Stmt, env: Env, h: Heap)
    requires LiteralDecl(s)
    ensures Exec(p, m, fuel, s, env, h)
         == if env == [] then Panicked(h)
            else Next([env[0][s.lhs[0].name := Lookup(m, env, s.rhs[0].name, h)]] + env[1..], h)
  {
    var v := s.lhs[0].name;
    assert s.lhs == [Ident(v)];
    TargetOfName(p, m, fuel, v, env, h);
    var x := Lookup(m, env, s.rhs[0].name, h);
    assert EvalList(p, m, fuel, s.rhs, env, h) == Val([x], h) by {
      assert s.rhs[1..] == [] && [x] + [] == [x];
    }
    assert RightSide(p, m, fuel, s.rhs, env, h) == Val([x], h);
    assert Exec(p, m, fuel, s, env, h) == StoreAll(m, DefineTok, [Variable(v)], [x], env, h);
    if env != [] {
      var after := [env[0][v := x]] + env[1..];
      assert StoreAll(m, DefineTok, [Variable(v)][1..], [x][1..], after, h) == Next(after, h);
    }
  }

  lemma {:induction false} DeclThenOverwrite(p: Prog, m: Sem, fuel: nat, decl: Stmt, next: Stmt, env: Env, h: Heap)
    requires LiteralDecl(decl) && Overwrites(next, decl.lhs[0].name)
    ensures var mutant := AssignStmt(DefineTok, decl.lhs, [Flip(decl.rhs[0])]);
            Both(p, m, fuel, mutant, next, env, h) == Both(p, m, fuel, decl, next, env, h)
  {
    var mutant := AssignStmt(DefineTok, decl.lhs, [Flip(decl.rhs[0])]);
    DeclEffect(p, m, fuel, decl, env, h);
    DeclEffect(p, m, fuel, mutant, env, h);
    if env != [] {
      var v := decl.lhs[0].name;
      var a := Exec(p, m, fuel, decl, env, h).env;
      var b := Exec(p, m, fuel, mutant, env, h).env;
      assert a[0][v := Nil] == env[0][v := Nil] == b[0][v := Nil];
      OverwritesSame(p, m, fuel, next, v, a, b, h);
    }
  }

  // ---------- Guarded comparisons ----------

  /** Only identifiers, selectors, elements, dereferences and literals. */
  predicate IsSideEffectFreeOperand(e: Expr) {
    var x := UnwrapParen(e);
    match x
    case Ident(_) => true
    case BasicLit(_, _) => true
    case Selector(y, _) => IsSideEffectFreeOperand(y)
    case Index(y, i) => IsSideEffectFreeOperand(y) && IsSideEffectFreeOperand(i)
    case Star(y) => IsSideEffectFreeOperand(y)
    case _ => false
  }

  /** The same read, written the same way up to parentheses. */
  predicate SameOperand(a: Expr, b: Expr) {
    var x, y := UnwrapParen(a), UnwrapParen(b);
    match x
    case Ident(n) => y.Ident? && y.name == n
    case Selector(x', sel) => y.Selector? && y.sel == sel && SameOperand(x', y.x)
    case Index(x', i) => y.Index? && SameOperand(x', y.x) && SameOperand(i, y.i)
    case Star(x') => y.Star? && SameOperand(x', y.x)
    case BasicLit(k, t) => y.BasicLit? && y.kind == k && y.text == t
    case _ => false
  }

  /** Some part of the operand is a call, an operation, or anything else that is more than reading. */
  predicate DoesMore(e: Expr) {
    match e
    case Paren(x) => DoesMore(x)
    case Selector(x, _) => DoesMore(x)
    case Index(x, i) => DoesMore(x) || DoesMore(i)
    case Star(x) => DoesMore(x)
    case Ident(_) => false
    case BasicLit(_, _) => false
    case _ => true
  }

  /** The operand without its parentheses. */
  function Bare(e: Expr): Expr {
    match e
    case Paren(x) => Bare(x)
    case Selector(x, sel) => Selector(Bare(x), sel)
    case Index(x, i) => Index(Bare(x), Bare(i))
    case Star(x) => Star(Bare(x))
    case _ => e
  }

  lemma {:induction false} UnwrapKeeps(e: Expr)
    ensures Bare(UnwrapParen(e)) == Bare(e) && DoesMore(UnwrapParen(e)) == DoesMore(e)
    decreases e
  {
    if e.Paren? { UnwrapKeeps(e.x); }
  }

  lemma {:induction false} FreeOfEffects(e: Expr)
    ensures IsSideEffectFreeOperand(e) <==> !DoesMore(e)
    decreases e
  {
    UnwrapKeeps(e);
    var x := UnwrapParen(e);
    match x
    case Selector(y, _) => FreeOfEffects(y);
    case Index(y, i) => FreeOfEffects(y); FreeOfEffects(i);
    case Star(y) => FreeOfEffects(y);
    case _ =>
  }

  /** Operands that only read are the same exactly when they are equal but for parentheses. */
  lemma {:induction false} SameIsEqual(a: Expr, b: Expr)
    requires IsSideEffectFreeOperand(a)
    ensures SameOperand(a, b) <==> Bare(a) == Bare(b)
    decreases a
  {
    UnwrapKeeps(a);
    UnwrapKeeps(b);
    var x, y := UnwrapParen(a), UnwrapParen(b);
    match x
    case Selector(x', _) => if y.Selector? { SameIsEqual(x', y.x); }
    case Index(x', i) => if y.Index? { SameIsEqual(x', y.x); SameIsEqual(i, y.i); }
    case Star(x') => if y.Star? { SameIsEqual(x', y.x); }
    case _ =>
  }

  lemma {:induction false} ParenTransparent(p: Prog, m: Sem, fuel: nat, e: Expr, env: Env, h: Heap)
    ensures Eval(p, m, fuel, e, env, h) == Eval(p, m, fuel, UnwrapParen(e), env, h)
    decreases e
  {
    if e.Paren? { ParenTransparent(p, m, fuel, e.x, env, h); }
  }

  /** Reading an operand twice, even under one more empty scope, gives the same answer and
      leaves the heap alone. */
  lemma {:induction false} SameRead(p: Prog, m: Sem, fuel: nat, a: Expr, b: Expr, env: Env, h: Heap)
    requires SameOperand(a, b) && IsSideEffectFreeOperand(a)
    ensures Eval(p, m, fuel, b, [map[]] + env, h) == Eval(p, m, fuel, a, env, h)
    ensures !Eval(p, m, fuel, a, env, h).NoFuel? && Eval(p, m, fuel, a, env, h).heap == h
    decreases a
  {
    var inner := [map[]] + env;
    assert inner[1..] == env;
    ParenTransparent(p, m, fuel, a, env, h);
    ParenTransparent(p, m, fuel, b, inner, h);
    var x, y := UnwrapParen(a), UnwrapParen(b);
    match x
    case Selector(x', _) => SameRead(p, m, fuel, x', y.x, env, h);
    case Index(x', i) =>
      SameRead(p, m, fuel, x', y.x, env, h);
      SameRead(p, m, fuel, i, y.i, env, h);
    case Star(x') => SameRead(p, m, fuel, x', y.x, env, h);
    case _ =>
  }

  predicate IsOrder(op: Op) { op in {Lss, Leq, Gtr, Geq} }

  function BoundaryReplacement(op: Op): Option<Op> {
    match op
    case Lss => Some(Leq)
    case Leq => Some(Lss)
    case Gtr => Some(Geq)
    case Geq => Some(Gtr)
    case _ => None
  }

  /** Whether the comparison returned by the body of this if statement is marked. */
  predicate DetectGuardedComparison(s: Stmt) {
    s.IfStmt? && s.init.None? &&
    var guard := UnwrapParen(s.cond);
    guard.Binary? && guard.op == Neq
    && |s.body| == 1 && s.body[0].ReturnStmt? && |s.body[0].results| == 1
    && s.body[0].results[0].Binary?
    && var cmp := s.body[0].results[0];
       IsOrder(cmp.op)
       && IsSideEffectFreeOperand(guard.l) && IsSideEffectFreeOperand(guard.r)
       && ((SameOperand(guard.l, cmp.l) && SameOperand(guard.r, cmp.r))
           || (SameOperand(guard.l, cmp.r) && SameOperand(guard.r, cmp.l)))
  }

  /** The boundary mutant of a marked statement. */
  function Shifted(s: Stmt): Stmt
    requires DetectGuardedComparison(s)
  {
    var cmp := s.body[0].results[0];
    IfStmt(s.init, s.cond, [ReturnStmt([Binary(BoundaryReplacement(cmp.op).value, cmp.l, cmp.r)])], s.els)
  }

  /** The shape, and no other: if l != r { return x < y ... }, where l and r only read and are x and y, or y and x,
      but for parentheses. */
  lemma {:induction false} GuardShape(s: Stmt)
    ensures DetectGuardedComparison(s) <==> exists cond: Expr, l: Expr, r: Expr, op: Op, x: Expr, y: Expr, els: Option<Stmt> ::
      s == IfStmt(None, cond, [ReturnStmt([Binary(op, x, y)])], els) && Guards(cond, l, r, op, x, y)
  {
    if DetectGuardedComparison(s) {
      var guard, cmp := UnwrapParen(s.cond), s.body[0].results[0];
      GuardOperands(guard.l, guard.r, cmp.l, cmp.r);
      assert s.body[0] == ReturnStmt([Binary(cmp.op, cmp.l, cmp.r)]) by { assert s.body[0].results == [cmp]; }
      assert s == IfStmt(None, s.cond, [ReturnStmt([Binary(cmp.op, cmp.l, cmp.r)])], s.els);
      assert Guards(s.cond, guard.l, guard.r, cmp.op, cmp.l, cmp.r);
    }
    if cond: Expr, l: Expr, r: Expr, op: Op, x: Expr, y: Expr, els: Option<Stmt> :|
      s == IfStmt(None, cond, [ReturnStmt([Binary(op, x, y)])], els) && Guards(cond, l, r, op, x, y)
    {
      GuardOperands(l, r, x, y);
    }
  }

  /** The condition says that two operands differ that only read, and they are those that are ordered. */
  predicate Guards(cond: Expr, l: Expr, r: Expr, op: Op, x: Expr, y: Expr) {
    && UnwrapParen(cond) == Binary(Neq, l, r) && op in {Lss, Leq, Gtr, Geq} && !DoesMore(l) && !DoesMore(r)
    && ((Bare(l) == Bare(x) && Bare(r) == Bare(y)) || (Bare(l) == Bare(y) && Bare(r) == Bare(x)))
  }

  lemma {:induction false} GuardOperands(l: Expr, r: Expr, x: Expr, y: Expr)
    ensures IsSideEffectFreeOperand(l) <==> !DoesMore(l)
    ensures IsSideEffectFreeOperand(r) <==> !DoesMore(r)
    ensures !DoesMore(l) ==> (SameOperand(l, x) <==> Bare(l) == Bare(x)) && (SameOperand(l, y) <==> Bare(l) == Bare(y))
    ensures !DoesMore(r) ==> (SameOperand(r, x) <==> Bare(r) == Bare(x)) && (SameOperand(r, y) <==> Bare(r) == Bare(y))
  {
    FreeOfEffects(l);
    FreeOfEffects(r);
    if !DoesMore(l) {
      SameIsEqual(l, x);
      SameIsEqual(l, y);
    }
    if !DoesMore(r) {
      SameIsEqual(r, x);
      SameIsEqual(r, y);
    }
  }

  /** Shifting changes the statement, and shifting again restores it. */
  lemma {:induction false} ShiftTwice(s: Stmt)
    requires DetectGuardedComparison(s)
    ensures DetectGuardedComparison(Shifted(s)) && Shifted(s) != s && Shifted(Shifted(s)) == s
  {
    var cmp := s.body[0].results[0];
    assert s.body[0].results == [cmp];
    assert s.body == [ReturnStmt([Binary(cmp.op, cmp.l, cmp.r)])];
    assert Shifted(s).body[0].results[0].op != cmp.op;
  }

  /** All the proof needs of the order: <= is < or ==, and == is symmetric. */
  ghost predicate LawfulOrder(m: Sem) {
    && (forall a, b :: m.leq(a, b) <==> m.less(a, b) || m.equal(a, b) == Some(true))
    && (forall a, b :: m.equal(a, b) == m.equal(b, a))
  }

  lemma {:induction false} BoundaryUnobservable(m: Sem, op: Op, v: Value, w: Value, h: Heap)
    requires LawfulOrder(m) && IsOrder(op) && m.equal(v, w) != Some(true)
    ensures Apply(m, BoundaryReplacement(op).value, v, w, h) == Apply(m, op, v, w, h)
  {
  }

  /** A comparison of two operands that have values and keep the heap. */
  lemma {:induction false} EvalOrder(p: Prog, m: Sem, fuel: nat, op: Op, l: Expr, r: Expr, env: Env, h: Heap, v: Value, w: Value)
    requires op !in {LAnd, LOr} && Eval(p, m, fuel, l, env, h) == Val(v, h) && Eval(p, m, fuel, r, env, h) == Val(w, h)
    ensures Eval(p, m, fuel, Binary(op, l, r), env, h) == Apply(m, op, v, w, h)
  {
  }

  /** The guard has seen two values that are not equal. */
  lemma {:induction false} GuardSaw(p: Prog, m: Sem, fuel: nat, guard: Expr, env: Env, h: Heap) returns (v: Value, w: Value)
    requires guard.Binary? && guard.op == Neq && IsSideEffectFreeOperand(guard.l) && IsSideEffectFreeOperand(guard.r)
    requires Eval(p, m, fuel, guard, env, h) == Val(Bool(true), h)
    ensures Eval(p, m, fuel, guard.l, env, h) == Val(v, h) && Eval(p, m, fuel, guard.r, env, h) == Val(w, h)
    ensures m.equal(v, w) != Some(true)
  {
    SameSelf(guard.l);
    SameSelf(guard.r);
    SameRead(p, m, fuel, guard.l, guard.l, env, h);
    SameRead(p, m, fuel, guard.r, guard.r, env, h);
    v, w := Eval(p, m, fuel, guard.l, env, h).v, Eval(p, m, fuel, guard.r, env, h).v;
  }

  /** The returned comparison evaluates both operands again, to the values the guard saw. */
  lemma {:induction false} GuardDominates(p: Prog, m: Sem, fuel: nat, guard: Expr, cmp: Expr, op: Op, env: Env, h: Heap)
    requires LawfulOrder(m) && guard.Binary? && guard.op == Neq && cmp.Binary? && IsOrder(cmp.op)
    requires IsSideEffectFreeOperand(guard.l) && IsSideEffectFreeOperand(guard.r)
    requires (SameOperand(guard.l, cmp.l) && SameOperand(guard.r, cmp.r))
             || (SameOperand(guard.l, cmp.r) && SameOperand(guard.r, cmp.l))
    requires Eval(p, m, fuel, guard, env, h) == Val(Bool(true), h)
    requires op == BoundaryReplacement(cmp.op).value
    ensures Eval(p, m, fuel, Binary(op, cmp.l, cmp.r), [map[]] + env, h)
         == Eval(p, m, fuel, cmp, [map[]] + env, h)
  {
    var v, w := GuardSaw(p, m, fuel, guard, env, h);
    var inner := [map[]] + env;
    if SameOperand(guard.l, cmp.l) && SameOperand(guard.r, cmp.r) {
      SameRead(p, m, fuel, guard.l, cmp.l, env, h);
      SameRead(p, m, fuel, guard.r, cmp.r, env, h);
    } else {
      SameRead(p, m, fuel, guard.l, cmp.r, env, h);
      SameRead(p, m, fuel, guard.r, cmp.l, env, h);
      v, w := w, v;
    }
    EvalOrder(p, m, fuel, op, cmp.l, cmp.r, inner, h, v, w);
    EvalOrder(p, m, fuel, cmp.op, cmp.l, cmp.r, inner, h, v, w);
    BoundaryUnobservable(m, cmp.op, v, w, h);
  }

  lemma {:induction false} GuardKeepsHeap(p: Prog, m: Sem, fuel: nat, guard: Expr, env: Env, h: Heap)
    requires guard.Binary? && guard.op == Neq
    requires IsSideEffectFreeOperand(guard.l) && IsSideEffectFreeOperand(guard.r)
    ensures var r := Eval(p, m, fuel, guard, env, h); !r.NoFuel? && r.heap == h
  {
    SameSelf(guard.l);
    SameSelf(guard.r);
    SameRead(p, m, fuel, guard.l, guard.l, env, h);
    SameRead(p, m, fuel, guard.r, guard.r, env, h);
  }

  lemma {:induction false} SameSelf(e: Expr)
    requires IsSideEffectFreeOperand(e)
    ensures SameOperand(e, e)
    decreases e
  {
    var x := UnwrapParen(e);
    match x
    case Selector(y, _) => SameSelf(y);
    case Index(y, i) => SameSelf(y); SameSelf(i);
    case Star(y) => SameSelf(y);
    case _ =>
  }

  /** Guarded-comparison soundness: swapping strict and non-strict changes nothing, in any state. */
  lemma {:induction false} GuardedComparisonSound(p: Prog, m: Sem, fuel: nat, s: Stmt, env: Env, h: Heap)
    requires LawfulOrder(m) && DetectGuardedComparison(s)
    ensures Exec(p, m, fuel, Shifted(s), env, h) == Exec(p, m, fuel, s, env, h)
  {
    var e1 := [map[]] + env;
    var guard := UnwrapParen(s.cond);
    var cmp := s.body[0].results[0];
    var t := Shifted(s);
    var mutant := t.body[0].results[0];
    ParenTransparent(p, m, fuel, s.cond, e1, h);
    GuardKeepsHeap(p, m, fuel, guard, e1, h);
    var c := Eval(p, m, fuel, s.cond, e1, h);
    if c.Val? && Truth(c.v) {
      GuardDominates(p, m, fuel, guard, cmp, mutant.op, e1, h);
      ReturnOne(p, m, fuel, s.body, cmp, [map[]] + e1, h);
      ReturnOne(p, m, fuel, t.body, mutant, [map[]] + e1, h);
    }
  }

  lemma {:induction false} ReturnOne(p: Prog, m: Sem, fuel: nat, body: seq<Stmt>, e: Expr, env: Env, h: Heap)
    requires |body| == 1 && body[0] == ReturnStmt([e]) && !e.Call?
    ensures ExecList(p, m, fuel, body, env, h)
         == match Eval(p, m, fuel, e, env, h)
            case Val(v, g) => Returned([v], g) case Panic(g) => Panicked(g) case NoFuel => OutOfFuel
  {
    var r := ReturnStmt([e]);
    assert [e][1..] == [] && body[1..] == [];
    assert RightSide(p, m, fuel, [e], env, h) == EvalList(p, m, fuel, [e], env, h);
    match Eval(p, m, fuel, e, env, h)
    case Val(v, g) =>
      assert [v] + [] == [v];
      assert EvalList(p, m, fuel, [e], env, h) == Val([v], g);
      assert Exec(p, m, fuel, r, env, h) == Returned([v], g);
    case _ => assert Exec(p, m, fuel, r, env, h) == Abort(EvalList(p, m, fuel, [e], env, h));
  }
}
