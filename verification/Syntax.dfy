/** Syntax trees of the modelled fragment, after the local variable rewriter has run. */
module Syntax {
  import opened Values

  /** The width of every count and index in the tree. */
  type uint32 = x: nat | x < UINT32_RANGE

  /** A frame slot, `level` environments up from the running function's frame. */
  datatype Loc = Loc(index: uint32, level: uint32)

  datatype Expr =
    | Lit(v: Value)
    | Var(loc: Loc)
    | Un(uop: UnOp, e: Expr)
    | Bin(op: BinOp, l: Expr, r: Expr)
    | And(l: Expr, r: Expr)
    | Or(l: Expr, r: Expr)
    | Ternary(c: Expr, t: Expr, f: Expr)
    | Assign(loc: Loc, e: Expr)          // an assignment whose value is needed
    | Call(callee: Expr, args: Exprs)
    | Fn(func: Func)
    | Length(e: Expr)                    // `arguments.length`
    | ArgAt(i: uint32, up: uint32)             // `$i` past the declared parameters

  datatype Exprs = NoExprs | MoreExprs(head: Expr, tail: Exprs)

  datatype Func = Func(name: string, anonymous: bool, needsArguments: bool,
                       params: uint32, required: uint32, lvarcount: uint32, body: Stmts)

  datatype Stmt =
    | Do(e: Expr)                        // expression statement, its value is popped
    | Set(loc: Loc, e: Expr)             // assignment statement, no value is pushed
    | Block(b: Stmts)
    | If(c: Expr, t: Stmts)
    | IfElse(c: Expr, t: Stmts, f: Stmts)
    | Unless(c: Expr, t: Stmts)
    | UnlessElse(c: Expr, t: Stmts, f: Stmts)
    | While(c: Expr, b: Stmts)
    | Until(c: Expr, b: Stmts)
    | DoWhile(b: Stmts, c: Expr)
    | DoUntil(b: Stmts, c: Expr)
    | Loop(b: Stmts)
    | Switch(c: Expr, cases: Cases, otherwise: Option<Stmts>)
    | BreakS
    | ContinueS
    | ReturnS(e: Expr)
    | ThrowS(e: Expr)
    | TryCatch(b: Stmts, exc: Loc, handler: Stmts, fin: Option<Stmts>)
    | TryFinally(b: Stmts, exc: Loc, finalizer: Stmts)

  datatype Stmts = NoStmts | MoreStmts(head: Stmt, tail: Stmts)

  datatype Cases = NoCases | MoreCases(conds: Exprs, block: Stmts, rest: Cases)

  /** Conditions of this shape compile to a compare-and-branch instruction. */
  predicate IsComparison(e: Expr) {
    e.Bin? && IsComparisonOp(e.op)
  }

  function Count(es: Exprs): nat {
    match es
    case NoExprs => 0
    case MoreExprs(_, t) => 1 + Count(t)
  }
}
