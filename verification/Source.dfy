/** The language before normalisation, with a direct meaning of its own. */
module Source {
  import opened Values
  import Syntax

  type uint32 = Syntax.uint32
  type Loc = Syntax.Loc

  datatype Expr =
    | Lit(v: Value)                      // null, booleans, strings and floating point literals
    | Int(n: int)                        // an integer literal
    | Var(loc: Loc)
    | Un(uop: UnOp, e: Expr)
    | Bin(op: BinOp, l: Expr, r: Expr)
    | And(l: Expr, r: Expr)
    | Or(l: Expr, r: Expr)
    | Ternary(c: Expr, t: Expr, f: Expr)
    | Assign(loc: Loc, e: Expr)
    | Call(callee: Expr, args: Exprs)
    | Fn(func: Func)
    | Arguments                          // the running function's `arguments`
    | Length(e: Expr)
    | Dollar(i: uint32)                  // `$i` past the declared parameters

  datatype Exprs = NoExprs | MoreExprs(head: Expr, tail: Exprs)

  /** `defaults` holds the default values of the parameters from `required` on. */
  datatype Func = Func(name: string, anonymous: bool, needsArguments: bool, params: uint32, required: uint32,
                       lvarcount: uint32, defaults: Exprs, body: Stmts)

  datatype Stmt =
    | Do(e: Expr)
    | Declare(name: string, loc: Loc, e: Expr)
    | Define(loc: Loc, func: Func)       // a named function as a statement
    | Block(b: Stmts)
    | If(c: Expr, t: Stmts)
    | IfElse(c: Expr, t: Stmts, f: Stmts)
    | Unless(c: Expr, t: Stmts)
    | UnlessElse(c: Expr, t: Stmts, f: Stmts)
    | While(c: Expr, b: Stmts)
    | Until(c: Expr, b: Stmts)
    | DoWhile(b: Stmts, c: Expr)
    | DoUntil(b: Stmts, c: Expr)
    | Loop(b: Stmts)
    | Switch(c: Expr, cases: Cases, otherwise: Option<Stmts>)
    | BreakS
    | ContinueS
    | ReturnS(e: Expr)
    | ThrowS(e: Expr)
    | TryCatch(b: Stmts, exc: Loc, handler: Stmts, fin: Option<Stmts>)
    | TryFinally(b: Stmts, exc: Loc, finalizer: Stmts)

  datatype Stmts = NoStmts | MoreStmts(head: Stmt, tail: Stmts)

  datatype Cases = NoCases | MoreCases(conds: Exprs, block: Stmts, rest: Cases)

  /** One activation; `arguments` is the array of a function that asked for one. */
  datatype Act = Act(env: Option<nat>, locals: seq<Value>, arguments: Option<nat>)

  datatype Closure = Closure(f: Func, env: nat)

  datatype State = State(acts: seq<Act>, clos: seq<Closure>, arrs: seq<seq<Value>>)

  datatype Res =
    | Val(v: Value, st: State)
    | Next(st: State)
    | Break(st: State)
    | Continue(st: State)
    | Return(v: Value, st: State)
    | Throw(v: Value, st: State)
    | Timeout                            // out of fuel
    | Stuck                              // left the modelled fragment

  datatype ArgsRes = Args(vs: seq<Value>, st: State) | ArgsAbrupt(r: Res)

  datatype CaseRes = NotChosen(st: State) | CaseDone(r: Res)

  predicate OfExpr(r: Res) {
    r.Val? || r.Throw? || r.Timeout? || r.Stuck?
  }

  predicate IsComparison(e: Expr) {
    e.Bin? && IsComparisonOp(e.op)
  }

  function Count(es: Exprs): nat {
    match es
    case NoExprs => 0
    case MoreExprs(_, t) => 1 + Count(t)
  }

  function Ancestor(acts: seq<Act>, frame: nat, level: nat): Option<nat>
    decreases level
  {
    if frame >= |acts| then None
    else if level == 0 then Some(frame)
    else if acts[frame].env.None? then None
    else Ancestor(acts, acts[frame].env.value, level - 1)
  }

  function Read(st: State, cur: nat, loc: Loc): Option<Value> {
    match Ancestor(st.acts, cur, loc.level)
    case None => None
    case Some(a) =>
      if a < |st.acts| && loc.index < |st.acts[a].locals| then Some(st.acts[a].locals[loc.index]) else None
  }

  /** `arguments` is a constant: no assignment reaches its slot. */
  function Write(st: State, cur: nat, loc: Loc, v: Value): Option<State> {
    match Ancestor(st.acts, cur, loc.level)
    case None => None
    case Some(a) =>
      if a < |st.acts| && loc.index < |st.acts[a].locals| && !(st.acts[a].arguments.Some? && loc.index == 0) then
        Some(st.(acts := st.acts[a := st.acts[a].(locals := st.acts[a].locals[loc.index := v])]))
      else None
  }

  /** The array of the running function's arguments. */
  function ArgumentsOf(st: State, cur: nat): Option<nat> {
    if cur < |st.acts| then st.acts[cur].arguments else None
  }

  /** The slot of parameter `i`. */
  function Slot(f: Func, i: nat): nat {
    if f.needsArguments then i + 1 else i
  }

  /** The slots at the start of a call: arguments in their parameters' slots, null elsewhere. */
  function EntryLocals(f: Func, args: seq<Value>, arr: nat): (r: seq<Value>)
    ensures |r| == f.lvarcount
  {
    seq(f.lvarcount, j requires 0 <= j < f.lvarcount =>
      if f.needsArguments then
        if j == 0 then Arr(arr) else if j - 1 < |args| && j - 1 < f.params then args[j - 1] else Null
      else if j < |args| then args[j] else Null)
  }

  function Enter(st: State, clo: Closure, args: seq<Value>): State {
    State(st.acts + [Act(Some(clo.env), EntryLocals(clo.f, args, |st.arrs|),
                         if clo.f.needsArguments then Some(|st.arrs|) else None)],
          st.clos,
          if clo.f.needsArguments then st.arrs + [args] else st.arrs)
  }

  function Eval(e: Expr, cur: nat, st: State, k: nat): (r: Res)
    ensures OfExpr(r)
    decreases k, 1, e, 1
  {
    match e
    case Lit(v) => if v.Fun? || v.Arr? then Stuck else Val(v, st)
    case Int(n) => Val(Num(n as real), st)
    case Var(loc) =>
      (match Read(st, cur, loc)
       case Some(v) => Val(v, st)
       case None => Stuck)
    case Un(op, a) =>
      (match Eval(a, cur, st, k)
       case Val(v, s1) => Val(Unary(op, v), s1)
       case r => r)
    case Bin(op, l, r) =>
      (match Eval(l, cur, st, k)
       case Val(a, s1) =>
         (match Eval(r, cur, s1, k)
          case Val(b, s2) =>
            (match Binary(op, a, b)
             case Some(v) => Val(v, s2)
             case None => Stuck)
          case x => x)
       case x => x)
    case And(l, r) =>
      (match Eval(l, cur, st, k)
       case Val(a, s1) => if Truthy(a) then Eval(r, cur, s1, k) else Val(a, s1)
       case x => x)
    case Or(l, r) =>
      (match Eval(l, cur, st, k)
       case Val(a, s1) => if Truthy(a) then Val(a, s1) else Eval(r, cur, s1, k)
       case x => x)
    case Ternary(c, t, f) =>
      (match Test(c, cur, st, k)
       case Val(b, s1) => if b == Bool(true) then Eval(t, cur, s1, k) else Eval(f, cur, s1, k)
       case x => x)
    case Assign(loc, a) =>
      (match Eval(a, cur, st, k)
       case Val(v, s1) =>
         (match Write(s1, cur, loc, v)
          case Some(s2) => Val(v, s2)
          case None => Stuck)
       case x => x)
    case Call(f, args) =>
      (match Eval(f, cur, st, k)
       case Val(fv, s1) =>
         (match EvalArgs(args, cur, s1, k)
          case Args(vs, s2) => Invoke(fv, vs, s2, k)
          case ArgsAbrupt(x) => x)
       case x => x)
    case Fn(f) => Val(Fun(|st.clos|), st.(clos := st.clos + [Closure(f, cur)]))
    case Arguments =>
      (match ArgumentsOf(st, cur)
       case Some(a) => Val(Arr(a), st)
       case None => Stuck)
    case Length(a) =>
      (match Eval(a, cur, st, k)
       case Val(v, s1) =>
         if v.Arr? && v.id < |s1.arrs| then Val(Num(|s1.arrs[v.id]| as real), s1) else Stuck
       case x => x)
    case Dollar(i) =>
      (match ArgumentsOf(st, cur)
       case Some(a) =>
         if a < |st.arrs| then Val(if i < |st.arrs[a]| then st.arrs[a][i] else Null, st) else Stuck
       case None => Stuck)
  }

  function EvalArgs(es: Exprs, cur: nat, st: State, k: nat): (r: ArgsRes)
    ensures r.Args? ==> |r.vs| == Count(es)
    ensures r.ArgsAbrupt? ==> OfExpr(r.r) && !r.r.Val?
    decreases k, 1, es, 1
  {
    match es
    case NoExprs => Args([], st)
    case MoreExprs(e, t) =>
      (match Eval(e, cur, st, k)
       case Val(v, s1) =>
         (match EvalArgs(t, cur, s1, k)
          case Args(vs, s2) => Args([v] + vs, s2)
          case x => x)
       case x => ArgsAbrupt(x))
  }

  /**
   * A condition: its truthiness. An ordering of incomparable operands is outside the
   * fragment here, because the branches the compiler emits do not mean that.
   */
  function Test(e: Expr, cur: nat, st: State, k: nat): (r: Res)
    ensures OfExpr(r)
    decreases k, 1, e, 2
  {
    if IsComparison(e) then
      match Eval(e.l, cur, st, k)
      case Val(a, s1) =>
        (match Eval(e.r, cur, s1, k)
         case Val(b, s2) =>
           if IsOrdering(e.op) && !Comparable(a, b) then Stuck
           else
             (match Binary(e.op, a, b)
              case Some(v) => Val(Bool(Truthy(v)), s2)
              case None => Stuck)
         case x => x)
      case x => x
    else
      match Eval(e, cur, st, k)
      case Val(v, s1) => Val(Bool(Truthy(v)), s1)
      case x => x
  }

  /** The condition of an `unless`: whether the guarded block is skipped. */
  function Skips(c: Expr, cur: nat, st: State, k: nat): (r: Res)
    ensures OfExpr(r)
    decreases k, 1, c, 2
  {
    if c.Un? && c.uop.UNot? then
      match Test(c.e, cur, st, k)
      case Val(b, s1) => Val(Bool(b != Bool(true)), s1)
      case x => x
    else
      match Eval(c, cur, st, k)
      case Val(v, s1) => Val(Bool(Truthy(v)), s1)
      case x => x
  }

  /** A call: argument check, fresh activation, default values, body. */
  function Invoke(fv: Value, args: seq<Value>, st: State, k: nat): (r: Res)
    ensures OfExpr(r)
    decreases k, 0
  {
    if !fv.Fun? then Throw(Str(NOT_CALLABLE + TypeName(fv)), st)
    else if fv.id >= |st.clos| then Stuck
    else
      var clo := st.clos[fv.id];
      if |args| < clo.f.required then Throw(Str(NOT_ENOUGH), st)
      else if k == 0 then Timeout
      else if clo.f.needsArguments && clo.f.lvarcount == 0 then Stuck
      else Called(clo.f, |args|, |st.acts|, Enter(st, clo, args), k - 1)
  }

  /** A call in its activation `cur`: default values, then the body. */
  function Called(f: Func, given: nat, cur: nat, st: State, k: nat): (r: Res)
    ensures OfExpr(r)
    decreases k, 2
  {
    match FillDefaults(f, f.required, f.defaults, given, cur, st, k)
    case Next(s1) => Result(RunBody(f.body, cur, s1, k))
    case r => Result(r)
  }

  /** What a call makes of its body's result. */
  function Result(r: Res): (o: Res)
    ensures OfExpr(o)
  {
    match r
    case Return(v, s1) => Val(v, s1)
    case Throw(v, s1) => Throw(v, s1)
    case Timeout => Timeout
    case _ => Stuck
  }

  /** Gives every parameter from `i` on that got no argument its default, left to right. */
  function FillDefaults(f: Func, i: nat, defaults: Exprs, given: nat, cur: nat, st: State, k: nat): (r: Res)
    ensures r.Next? || r.Throw? || r.Timeout? || r.Stuck?
    decreases k, 1, defaults, 2
  {
    match defaults
    case NoExprs => Next(st)
    case MoreExprs(e, t) =>
      match FillDefault(f, i, e, given, cur, st, k)
      case Next(s1) => FillDefaults(f, i + 1, t, given, cur, s1, k)
      case r => r
  }

  /** Gives parameter `i` its default, if there is no argument for it. */
  function FillDefault(f: Func, i: nat, e: Expr, given: nat, cur: nat, st: State, k: nat): (r: Res)
    ensures r.Next? || r.Throw? || r.Timeout? || r.Stuck?
    decreases k, 1, e, 2
  {
    if i < given then Next(st)
    else if Slot(f, i) >= UINT32_RANGE then Stuck
    else Store(Eval(e, cur, st, k), Syntax.Loc(Slot(f, i), 0), cur)
  }

  /** A function body: the value of a closing expression statement is the result, else null. */
  function RunBody(b: Stmts, cur: nat, st: State, k: nat): (r: Res)
    ensures !r.Val? && !r.Next?
    decreases k, 1, b, 3
  {
    match b
    case NoStmts => Return(Null, st)
    case MoreStmts(s, t) =>
      if t.NoStmts? then RunLast(s, cur, st, k)
      else
        match Exec(s, cur, st, k)
        case Next(s1) => RunBody(t, cur, s1, k)
        case r => r
  }

  function Finish(r: Res): (o: Res)
    requires !r.Val?
    ensures !o.Val? && !o.Next?
  {
    if r.Next? then Return(Null, r.st) else r
  }

  /** The last statement of a function body. */
  function RunLast(s: Stmt, cur: nat, st: State, k: nat): (r: Res)
    ensures !r.Val? && !r.Next?
    decreases k, 1, s, 3
  {
    match s
    case Do(e) =>
      (match Eval(e, cur, st, k)
       case Val(v, s1) => Return(v, s1)
       case r => r)
    case Define(_, f) => Return(Fun(|st.clos|), st.(clos := st.clos + [Closure(f, cur)]))
    case _ => Finish(Exec(s, cur, st, k))
  }

  function Run(b: Stmts, cur: nat, st: State, k: nat): (r: Res)
    ensures !r.Val?
    decreases k, 1, b, 1
  {
    match b
    case NoStmts => Next(st)
    case MoreStmts(s, t) =>
      match Exec(s, cur, st, k)
      case Next(s1) => Run(t, cur, s1, k)
      case r => r
  }

  function RunOpt(b: Option<Stmts>, cur: nat, st: State, k: nat): (r: Res)
    ensures !r.Val?
    decreases k, 1, b, 2
  {
    match b
    case None => Next(st)
    case Some(ss) => Run(ss, cur, st, k)
  }

  function Store(r: Res, loc: Loc, cur: nat): (o: Res)
    ensures !o.Val?
    ensures OfExpr(r) ==> o.Next? || o.Throw? || o.Timeout? || o.Stuck?
  {
    match r
    case Val(v, s1) =>
      (match Write(s1, cur, loc, v)
       case Some(s2) => Next(s2)
       case None => Stuck)
    case x => x
  }

  function Exec(s: Stmt, cur: nat, st: State, k: nat): (r: Res)
    ensures !r.Val?
    decreases k, 1, s, 1
  {
    match s
    case Do(e) =>
      (match Eval(e, cur, st, k)
       case Val(_, s1) => Next(s1)
       case r => r)
    case Declare(_, loc, e) => Store(Eval(e, cur, st, k), loc, cur)
    case Define(loc, f) =>
      Store(Val(Fun(|st.clos|), st.(clos := st.clos + [Closure(f, cur)])), loc, cur)
    case Block(b) => Run(b, cur, st, k)
    case If(c, t) =>
      (match Test(c, cur, st, k)
       case Val(b, s1) => if b == Bool(true) then Run(t, cur, s1, k) else Next(s1)
       case r => r)
    case IfElse(c, t, f) =>
      (match Test(c, cur, st, k)
       case Val(b, s1) => if b == Bool(true) then Run(t, cur, s1, k) else Run(f, cur, s1, k)
       case r => r)
    case Unless(c, t) =>
      (match Skips(c, cur, st, k)
       case Val(b, s1) => if b == Bool(true) then Next(s1) else Run(t, cur, s1, k)
       case r => r)
    case UnlessElse(c, t, f) =>
      (match Skips(c, cur, st, k)
       case Val(b, s1) => if b == Bool(true) then Run(f, cur, s1, k) else Run(t, cur, s1, k)
       case r => r)
    case While(c, b) =>
      (match Test(c, cur, st, k)
       case Val(v, s1) =>
         if v == Bool(true) then Again(s, Run(b, cur, s1, k), cur, k) else Next(s1)
       case r => r)
    case Until(c, b) =>
      (match Eval(c, cur, st, k)
       case Val(v, s1) =>
         if Truthy(v) then Next(s1) else Again(s, Run(b, cur, s1, k), cur, k)
       case r => r)
    case DoWhile(b, c) =>
      (match Iteration(Run(b, cur, st, k))
       case Val(go, s1) =>
         if go == Bool(true) then
           (match Test(c, cur, s1, k)
            case Val(v, s2) => if v == Bool(true) then Again(s, Next(s2), cur, k) else Next(s2)
            case r => r)
         else Next(s1)
       case r => r)
    case DoUntil(b, c) =>
      (match Iteration(Run(b, cur, st, k))
       case Val(go, s1) =>
         if go == Bool(true) then
           (match Eval(c, cur, s1, k)
            case Val(v, s2) => if Truthy(v) then Next(s2) else Again(s, Next(s2), cur, k)
            case r => r)
         else Next(s1)
       case r => r)
    case Loop(b) => Again(s, Run(b, cur, st, k), cur, k)
    case Switch(c, cases, otherwise) =>
      (match Eval(c, cur, st, k)
       case Val(v, s1) =>
         (match Select(cases, v, cur, s1, k)
          case NotChosen(s2) => LeaveSwitch(RunOpt(otherwise, cur, s2, k))
          case CaseDone(r) => LeaveSwitch(r))
       case r => r)
    case BreakS => Break(st)
    case ContinueS => Continue(st)
    case ReturnS(e) =>
      (match Eval(e, cur, st, k)
       case Val(v, s1) => Return(v, s1)
       case r => r)
    case ThrowS(e) =>
      (match Eval(e, cur, st, k)
       case Val(v, s1) => Throw(v, s1)
       case r => r)
    case TryCatch(b, exc, handler, fin) =>
      (match InTry(Run(b, cur, st, k))
       case Throw(v, s1) =>
         (match Write(s1, cur, exc, v)
          case Some(s2) =>
            (match Run(handler, cur, s2, k)
             case Next(s3) => RunOpt(fin, cur, s3, k)
             case r => r)
          case None => Stuck)
       case Next(s1) => RunOpt(fin, cur, s1, k)
       case r => r)
    case TryFinally(b, exc, fin) =>
      (match InTry(Run(b, cur, st, k))
       case Throw(v, s1) =>
         (match Write(s1, cur, exc, v)
          case Some(s2) =>
            (match Run(fin, cur, s2, k)
             case Next(s3) =>
               (match Read(s3, cur, exc)
                case Some(w) => Throw(w, s3)
                case None => Stuck)
             case r => r)
          case None => Stuck)
       case Next(s1) => Run(fin, cur, s1, k)
       case r => r)
  }

  function Again(loop: Stmt, r: Res, cur: nat, k: nat): (a: Res)
    ensures !r.Val? ==> !a.Val?
    decreases k, 0
  {
    match r
    case Next(s1) => if k == 0 then Timeout else Exec(loop, cur, s1, k - 1)
    case Continue(s1) => if k == 0 then Timeout else Exec(loop, cur, s1, k - 1)
    case Break(s1) => Next(s1)
    case _ => r
  }

  /** Splits a body's result: Val(true) to test the condition, Val(false) to leave. */
  function Iteration(r: Res): Res {
    match r
    case Next(s1) => Val(Bool(true), s1)
    case Continue(s1) => Val(Bool(true), s1)
    case Break(s1) => Val(Bool(false), s1)
    case Val(_, _) => Stuck
    case _ => r
  }

  function LeaveSwitch(r: Res): Res {
    if r.Break? then Next(r.st) else r
  }

  function InTry(r: Res): Res {
    if r.Break? || r.Continue? then Stuck else r
  }

  function Select(cases: Cases, v: Value, cur: nat, st: State, k: nat): (r: CaseRes)
    ensures r.CaseDone? ==> !r.r.Val?
    decreases k, 1, cases, 1
  {
    match cases
    case NoCases => NotChosen(st)
    case MoreCases(conds, b, rest) =>
      match Matches(conds, v, cur, st, k)
      case Val(hit, s1) =>
        if hit == Bool(true) then CaseDone(Run(b, cur, s1, k)) else Select(rest, v, cur, s1, k)
      case r => CaseDone(r)
  }

  function Matches(conds: Exprs, v: Value, cur: nat, st: State, k: nat): (r: Res)
    ensures OfExpr(r)
    decreases k, 1, conds, 1
  {
    match conds
    case NoExprs => Val(Bool(false), st)
    case MoreExprs(e, t) =>
      match Eval(e, cur, st, k)
      case Val(w, s1) =>
        (match Binary(Eq, v, w)
         case None => Stuck
         case Some(hit) => if Truthy(hit) then Val(Bool(true), s1) else Matches(t, v, cur, s1, k))
      case r => r
  }
}
