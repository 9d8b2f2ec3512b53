/** A small Go-like language: syntax as the detectors see it, and a fuel-indexed semantics.

    Everything the detectors may not rely on is a parameter: the meaning of operators, of fields
    and elements, of literals, and of every function outside the program, which may do anything
    to the heap.  Fuel is spent by calls and loop iterations only. */
module GoCore {
  import opened Base

  datatype Op = Add | Sub | Mul | And | Or | Xor | AndNot | Quo | Rem | Shl | Shr
              | Eql | Neq | Lss | Leq | Gtr | Geq | LAnd | LOr

  datatype UnaryOp = Plus | Minus | Not | Complement | Address | Receive

  datatype Expr =
    | Ident(name: string)
    | BasicLit(kind: string, text: string)
    | Paren(x: Expr)
    | Selector(x: Expr, sel: string)
    | Index(x: Expr, i: Expr)
    | Star(x: Expr)
    | Unary(uop: UnaryOp, x: Expr)
    | Binary(op: Op, l: Expr, r: Expr)
    | Call(fun: Expr, args: seq<Expr>)
    | Other(form: string, kids: seq<Expr>)          // composite literals, slices, conversions, assertions
    | FuncLit(code: string, free: seq<string>)      // free: every identifier spelled in it

  datatype Tok = DefineTok | AssignTok | CompoundTok(op: Op)

  datatype Stmt =
    | ExprStmt(x: Expr)
    | AssignStmt(tok: Tok, lhs: seq<Expr>, rhs: seq<Expr>)
    | IfStmt(init: Option<Stmt>, cond: Expr, body: seq<Stmt>, els: Option<Stmt>)
    | BlockStmt(list: seq<Stmt>)
    | ForStmt(cond: Expr, body: seq<Stmt>)
    | ReturnStmt(results: seq<Expr>)

  datatype Value = Bool(b: bool) | Nil | Atom(id: int)

  type Heap = map<int, Value>

  /** Scopes, innermost first. */
  type Env = seq<map<string, Value>>

  datatype Func = Func(params: seq<string>, body: seq<Stmt>)

  type Prog = map<string, Func>

  /** The parameters of the semantics; None is a panic. */
  datatype Sem = Sem(
    literal: (string, string) -> Value,
    global: (string, Heap) -> Value,
    setGlobal: (string, Value, Heap) -> Heap,
    field: (Value, string, Heap) -> Option<Value>,
    element: (Value, Value, Heap) -> Option<Value>,
    deref: (Value, Heap) -> Option<Value>,
    unary: (UnaryOp, Value) -> Value,
    effect: (UnaryOp, Value, Heap) -> Option<(Value, Heap)>,
    arith: (Op, Value, Value) -> Value,
    partialOp: (Op, Value, Value) -> Option<Value>,
    equal: (Value, Value) -> Option<bool>,
    less: (Value, Value) -> bool,
    leq: (Value, Value) -> bool,
    other: (string, seq<Value>, Heap) -> Option<(Value, Heap)>,
    closure: (string, seq<Value>, Heap) -> Value,
    call: (Value, seq<Value>, Heap) -> Option<(seq<Value>, Heap)>,
    load: (string, seq<Value>, Heap) -> Option<Value>,
    store: (string, seq<Value>, Value, Heap) -> Option<Heap>)

  datatype Res<T> = Val(v: T, heap: Heap) | Panic(heap: Heap) | NoFuel

  datatype Flow = Next(env: Env, heap: Heap) | Returned(vals: seq<Value>, heap: Heap)
                | Panicked(heap: Heap) | OutOfFuel

  // ---------- Scopes ----------

  predicate Bound(env: Env, n: string) {
    env != [] && (n in env[0] || Bound(env[1..], n))
  }

  function Lookup(m: Sem, env: Env, n: string, h: Heap): Value {
    if env == [] then m.global(n, h)
    else if n in env[0] then env[0][n]
    else Lookup(m, env[1..], n, h)
  }

  function SetLocal(env: Env, n: string, v: Value): (r: Env)
    requires Bound(env, n)
  {
    if n in env[0] then [env[0][n := v]] + env[1..]
    else [env[0]] + SetLocal(env[1..], n, v)
  }

  function Lookups(m: Sem, env: Env, ns: seq<string>, h: Heap): seq<Value> {
    seq(|ns|, i requires 0 <= i < |ns| => Lookup(m, env, ns[i], h))
  }

  // ---------- Expressions ----------

  predicate Total(op: Op) { op in {Add, Sub, Mul, And, Or, Xor, AndNot} }

  function Truth(v: Value): bool { v == Bool(true) }

  /** A binary operator on two evaluated operands. */
  function Apply(m: Sem, op: Op, v: Value, w: Value, h: Heap): Res<Value> {
    match op
    case Lss => Val(Bool(m.less(v, w)), h)
    case Leq => Val(Bool(m.leq(v, w)), h)
    case Gtr => Val(Bool(m.less(w, v)), h)
    case Geq => Val(Bool(m.leq(w, v)), h)
    case Eql => (match m.equal(v, w) case Some(b) => Val(Bool(b), h) case None => Panic(h))
    case Neq => (match m.equal(v, w) case Some(b) => Val(Bool(!b), h) case None => Panic(h))
    case _ =>
      if Total(op) then Val(m.arith(op, v, w), h)
      else match m.partialOp(op, v, w) case Some(x) => Val(x, h) case None => Panic(h)
  }

  function Lift<T>(o: Option<T>, h: Heap): Res<T> {
    match o case Some(x) => Val(x, h) case None => Panic(h)
  }

  function LiftBoth<T>(o: Option<(T, Heap)>, h: Heap): Res<T> {
    match o case Some(p) => Val(p.0, p.1) case None => Panic(h)
  }

  function UnwrapParen(e: Expr): (r: Expr)
    ensures !r.Paren?
    ensures r == e || (e.Paren? && r < e)
  {
    if e.Paren? then UnwrapParen(e.x) else e
  }

  /** Which function of the program a call runs, if any. */
  function Callee(p: Prog, env: Env, fun: Expr): Option<string> {
    var g := UnwrapParen(fun);
    if g.Ident? && !Bound(env, g.name) && g.name in p then Some(g.name) else None
  }

  function Eval(p: Prog, m: Sem, fuel: nat, e: Expr, env: Env, h: Heap): Res<Value>
    decreases fuel, 1, e, 1
  {
    match e
    case Ident(n) => Val(Lookup(m, env, n, h), h)
    case BasicLit(k, t) => Val(m.literal(k, t), h)
    case Paren(x) => Eval(p, m, fuel, x, env, h)
    case Selector(x, sel) =>
      (match Eval(p, m, fuel, x, env, h) case Val(v, g) => Lift(m.field(v, sel, g), g) case r => r)
    case Index(x, i) =>
      (match Eval(p, m, fuel, x, env, h)
       case Val(v, g) =>
         (match Eval(p, m, fuel, i, env, g) case Val(w, k) => Lift(m.element(v, w, k), k) case r => r)
       case r => r)
    case Star(x) =>
      (match Eval(p, m, fuel, x, env, h) case Val(v, g) => Lift(m.deref(v, g), g) case r => r)
    case Unary(op, x) =>
      (match Eval(p, m, fuel, x, env, h)
       case Val(v, g) => if op in {Address, Receive} then LiftBoth(m.effect(op, v, g), g) else Val(m.unary(op, v), g)
       case r => r)
    case Binary(op, l, r) =>
      (match Eval(p, m, fuel, l, env, h)
       case Val(v, g) =>
         if op == LAnd && !Truth(v) then Val(Bool(false), g)
         else if op == LOr && Truth(v) then Val(Bool(true), g)
         else
           (match Eval(p, m, fuel, r, env, g)
            case Val(w, k) => if op in {LAnd, LOr} then Val(Bool(Truth(w)), k) else Apply(m, op, v, w, k)
            case q => q)
       case q => q)
    case Call(_, _) =>
      (match EvalCall(p, m, fuel, e, env, h)
       case Val(vs, g) => if |vs| == 1 then Val(vs[0], g) else Panic(g)
       case Panic(g) => Panic(g)
       case NoFuel => NoFuel)
    case Other(form, kids) =>
      (match EvalList(p, m, fuel, kids, env, h)
       case Val(vs, g) => LiftBoth(m.other(form, vs, g), g)
       case Panic(g) => Panic(g)
       case NoFuel => NoFuel)
    case FuncLit(code, free) => Val(m.closure(code, Lookups(m, env, free, h), h), h)
  }

  function EvalList(p: Prog, m: Sem, fuel: nat, es: seq<Expr>, env: Env, h: Heap): (r: Res<seq<Value>>)
    ensures r.Val? ==> |r.v| == |es|
    decreases fuel, 1, es, 0
  {
    if es == [] then Val([], h)
    else
      match Eval(p, m, fuel, es[0], env, h)
      case Val(v, g) =>
        (match EvalList(p, m, fuel, es[1..], env, g) case Val(vs, k) => Val([v] + vs, k) case r => r)
      case Panic(g) => Panic(g)
      case NoFuel => NoFuel
  }

  /** A call, with all its results. */
  function EvalCall(p: Prog, m: Sem, fuel: nat, e: Expr, env: Env, h: Heap): Res<seq<Value>>
    requires e.Call?
    decreases fuel, 1, e, 0
  {
    match Callee(p, env, e.fun)
    case Some(g) =>
      (match EvalList(p, m, fuel, e.args, env, h)
       case Val(vs, k) => CallFunc(p, m, fuel, g, vs, k)
       case r => r)
    case None =>
      (match Eval(p, m, fuel, e.fun, env, h)
       case Val(f, k) =>
         (match EvalList(p, m, fuel, e.args, env, k)
          case Val(vs, k') => LiftBoth(m.call(f, vs, k'), k')
          case r => r)
       case Panic(k) => Panic(k)
       case NoFuel => NoFuel)
  }

  function CallFunc(p: Prog, m: Sem, fuel: nat, g: string, args: seq<Value>, h: Heap): Res<seq<Value>>
    requires g in p
    decreases fuel, 0
  {
    if fuel == 0 then NoFuel
    else if |args| != |p[g].params| then Panic(h)
    else
      match ExecList(p, m, fuel - 1, p[g].body, [Frame(p[g].params, args)], h)
      case Returned(vs, k) => Val(vs, k)
      case Next(_, k) => Val([], k)
      case Panicked(k) => Panic(k)
      case OutOfFuel => NoFuel
  }

  function Frame(params: seq<string>, args: seq<Value>): map<string, Value>
    requires |params| == |args|
  {
    if params == [] then map[] else Frame(params[1..], args[1..])[params[0] := args[0]]
  }

  /** The values on the right of an assignment or return: one call may give several. */
  function RightSide(p: Prog, m: Sem, fuel: nat, es: seq<Expr>, env: Env, h: Heap): Res<seq<Value>>
    decreases fuel, 1, es, 1
  {
    if |es| == 1 && es[0].Call? then EvalCall(p, m, fuel, es[0], env, h) else EvalList(p, m, fuel, es, env, h)
  }

  // ---------- Statements ----------

  /** Where one value goes. */
  datatype Target = Blank | Variable(name: string) | Place(form: string, parts: seq<Value>)

  function EvalTarget(p: Prog, m: Sem, fuel: nat, e: Expr, env: Env, h: Heap): Res<Target>
    decreases fuel, 1, e, 2
  {
    match e
    case Ident(n) => Val(if n == "_" then Blank else Variable(n), h)
    case Selector(x, sel) =>
      (match Eval(p, m, fuel, x, env, h)
       case Val(v, g) => Val(Place("." + sel, [v]), g) case Panic(g) => Panic(g) case NoFuel => NoFuel)
    case Index(x, i) =>
      (match Eval(p, m, fuel, x, env, h)
       case Val(v, g) =>
         (match Eval(p, m, fuel, i, env, g)
          case Val(w, k) => Val(Place("[]", [v, w]), k) case Panic(k) => Panic(k) case NoFuel => NoFuel)
       case Panic(g) => Panic(g) case NoFuel => NoFuel)
    case Star(x) =>
      (match Eval(p, m, fuel, x, env, h)
       case Val(v, g) => Val(Place("*", [v]), g) case Panic(g) => Panic(g) case NoFuel => NoFuel)
    case _ => Panic(h)
  }

  function EvalTargets(p: Prog, m: Sem, fuel: nat, es: seq<Expr>, env: Env, h: Heap): (r: Res<seq<Target>>)
    ensures r.Val? ==> |r.v| == |es|
    ensures r.Val? ==> forall j :: 0 <= j < |es| && es[j] == Ident("_") ==> r.v[j] == Blank
    decreases fuel, 1, es, 3
  {
    if es == [] then Val([], h)
    else
      match EvalTarget(p, m, fuel, es[0], env, h)
      case Val(t, g) =>
        (match EvalTargets(p, m, fuel, es[1..], env, g) case Val(ts, k) => Val([t] + ts, k) case r => r)
      case Panic(g) => Panic(g)
      case NoFuel => NoFuel
  }

  function StoreOne(m: Sem, tok: Tok, t: Target, v: Value, env: Env, h: Heap): Flow {
    match t
    case Blank => Next(env, h)
    case Variable(n) =>
      if tok.DefineTok? then (if env == [] then Panicked(h) else Next([env[0][n := v]] + env[1..], h))
      else if Bound(env, n) then Next(SetLocal(env, n, v), h)
      else Next(env, m.setGlobal(n, v, h))
    case Place(form, parts) =>
      if tok.DefineTok? then Panicked(h)
      else match m.store(form, parts, v, h) case Some(g) => Next(env, g) case None => Panicked(h)
  }

  function StoreAll(m: Sem, tok: Tok, ts: seq<Target>, vs: seq<Value>, env: Env, h: Heap): Flow
    requires |ts| == |vs|
  {
    if ts == [] then Next(env, h)
    else match StoreOne(m, tok, ts[0], vs[0], env, h)
      case Next(e, g) => StoreAll(m, tok, ts[1..], vs[1..], e, g)
      case r => r
  }

  function LoadOne(m: Sem, t: Target, env: Env, h: Heap): Option<Value> {
    match t
    case Blank => None
    case Variable(n) => Some(Lookup(m, env, n, h))
    case Place(form, parts) => m.load(form, parts, h)
  }

  function Abort<T>(r: Res<T>): Flow
    requires !r.Val?
  {
    match r case Panic(h) => Panicked(h) case NoFuel => OutOfFuel
  }

  /** Stores what the right side gave. */
  function StoreRight(m: Sem, tok: Tok, ts: seq<Target>, vs: Res<seq<Value>>, env: Env): Flow {
    if !vs.Val? then Abort(vs)
    else if tok.CompoundTok? then
      if |ts| != 1 || |vs.v| != 1 then Panicked(vs.heap)
      else
        var was := LoadOne(m, ts[0], env, vs.heap);
        if was.None? then Panicked(vs.heap)
        else
          var x := Apply(m, tok.op, was.value, vs.v[0], vs.heap);
          if !x.Val? then Abort(x) else StoreAll(m, tok, ts, [x.v], env, x.heap)
    else if |vs.v| != |ts| then Panicked(vs.heap)
    else StoreAll(m, tok, ts, vs.v, env, vs.heap)
  }

  /** An assignment: operands of the left side, then the right side, then the stores. */
  function Assign(p: Prog, m: Sem, fuel: nat, tok: Tok, lhs: seq<Expr>, rhs: seq<Expr>, env: Env, h: Heap): Flow
    decreases fuel, 2, 0
  {
    var ts := EvalTargets(p, m, fuel, lhs, env, h);
    if !ts.Val? then Abort(ts) else StoreRight(m, tok, ts.v, RightSide(p, m, fuel, rhs, env, ts.heap), env)
  }

  function Pop(r: Flow): Flow {
    match r case Next(env, h) => if env == [] then Panicked(h) else Next(env[1..], h) case _ => r
  }

  function Exec(p: Prog, m: Sem, fuel: nat, s: Stmt, env: Env, h: Heap): Flow
    decreases fuel, 3, s, 0
  {
    match s
    case ExprStmt(x) =>
      if x.Call? then
        (match EvalCall(p, m, fuel, x, env, h)
         case Val(_, g) => Next(env, g) case Panic(g) => Panicked(g) case NoFuel => OutOfFuel)
      else
        (match Eval(p, m, fuel, x, env, h)
         case Val(_, g) => Next(env, g) case Panic(g) => Panicked(g) case NoFuel => OutOfFuel)
    case AssignStmt(tok, lhs, rhs) => Assign(p, m, fuel, tok, lhs, rhs, env, h)
    case IfStmt(init, cond, body, els) =>
      var start := if init.None? then Next([map[]] + env, h) else Exec(p, m, fuel, init.value, [map[]] + env, h);
      if !start.Next? then start
      else
        var c := Eval(p, m, fuel, cond, start.env, start.heap);
        if !c.Val? then Abort(c)
        else if Truth(c.v) then Pop(Pop(ExecList(p, m, fuel, body, [map[]] + start.env, c.heap)))
        else if els.Some? then Pop(Exec(p, m, fuel, els.value, start.env, c.heap))
        else Pop(Next(start.env, c.heap))
    case BlockStmt(list) => Pop(ExecList(p, m, fuel, list, [map[]] + env, h))
    case ForStmt(cond, body) =>
      var c := Eval(p, m, fuel, cond, env, h);
      if !c.Val? then Abort(c)
      else if !Truth(c.v) then Next(env, c.heap)
      else if fuel == 0 then OutOfFuel
      else
        (match Pop(ExecList(p, m, fuel - 1, body, [map[]] + env, c.heap))
         case Next(e, g) => Exec(p, m, fuel - 1, s, e, g)
         case r => r)
    case ReturnStmt(results) =>
      var vs := RightSide(p, m, fuel, results, env, h);
      if vs.Val? then Returned(vs.v, vs.heap) else Abort(vs)
  }

  function ExecList(p: Prog, m: Sem, fuel: nat, list: seq<Stmt>, env: Env, h: Heap): Flow
    decreases fuel, 3, list, 0
  {
    if list == [] then Next(env, h)
    else match Exec(p, m, fuel, list[0], env, h)
      case Next(e, g) => ExecList(p, m, fuel, list[1..], e, g)
      case r => r
  }
}
