/**
 * What it means for a byte string to hold the code of a tree at an address: the
 * instruction sequence of every visitor of the code generator, with every branch offset
 * leading to the address it has to lead to.
 */
module Layout {
  import opened Values
  import opened Syntax
  import opened Bytecode

  /** A program: its bytes and the functions whose bodies start at the given addresses. */
  datatype Program = Program(code: seq<Cell>, funs: map<int, Func>)

  function SizeE(e: Expr): (n: nat)
    ensures n >= 1
    decreases e, 0
  {
    match e
    case Lit(_) => 9
    case Var(_) => 9
    case Un(_, a) => SizeE(a) + 1
    case Bin(_, l, r) => SizeE(l) + SizeE(r) + 1
    case And(l, r) => SizeE(l) + 7 + SizeE(r)
    case Or(l, r) => SizeE(l) + 7 + SizeE(r)
    case Ternary(c, t, f) => SizeC(c) + SizeE(t) + 5 + SizeE(f)
    case Assign(_, a) => SizeE(a) + 9
    case Call(f, args) => SizeE(f) + SizeA(args) + 5
    case Fn(_) => 27
    case Length(a) => SizeE(a) + 9
    case ArgAt(_, _) => 14
  }

  function SizeA(es: Exprs): nat
    decreases es, 0
  {
    match es
    case NoExprs => 0
    case MoreExprs(e, t) => SizeE(e) + SizeA(t)
  }

  /** A condition together with the branch that leaves when it is false. */
  function SizeC(e: Expr): (n: nat)
    ensures n >= 6
    decreases e, 1
  {
    if IsComparison(e) then SizeE(e.l) + SizeE(e.r) + 5 else SizeE(e) + 5
  }

  function SizeB(b: Stmts): (n: nat)
    ensures n >= 1
    decreases b, 1
  {
    1 + SizeL(b)
  }

  function SizeO(b: Option<Stmts>): nat
    decreases b, 1
  {
    match b
    case None => 0
    case Some(ss) => SizeB(ss)
  }

  function SizeL(b: Stmts): nat
    decreases b, 0
  {
    match b
    case NoStmts => 0
    case MoreStmts(s, t) => SizeS(s) + SizeL(t)
  }

  function SizeS(s: Stmt): nat
    decreases s, 0
  {
    match s
    case Do(e) => SizeE(e) + 1
    case Set(_, e) => SizeE(e) + 9
    case Block(b) => SizeB(b)
    case If(c, t) => SizeC(c) + SizeB(t)
    case IfElse(c, t, f) => SizeC(c) + SizeB(t) + 5 + SizeB(f)
    case Unless(c, t) => SizeE(c) + 5 + SizeB(t)
    case UnlessElse(c, t, f) => SizeE(c) + 5 + SizeB(t) + 5 + SizeB(f)
    case While(c, b) => SizeC(c) + SizeB(b) + 5
    case Until(c, b) => SizeE(c) + 5 + SizeB(b) + 5
    case DoWhile(b, c) => SizeB(b) + SizeC(c) + 5
    case DoUntil(b, c) => SizeB(b) + SizeE(c) + 5 + 5
    case Loop(b) => SizeB(b) + 5
    case Switch(c, cases, otherwise) =>
      SizeE(c) + SizeTests(cases) + SizeSkip(cases) + SizeBlocks(cases) + 1 + SizeO(otherwise)
    case BreakS => 5
    case ContinueS => 5
    case ReturnS(e) => SizeE(e) + 1
    case ThrowS(e) => SizeE(e) + 1
    case TryCatch(b, _, h, fin) => 5 + SizeB(b) + 6 + 9 + SizeB(h) + SizeO(fin)
    case TryFinally(b, _, fin) => 5 + SizeB(b) + 6 + 9 + SizeB(fin) + 10 + SizeB(fin)
  }

  /** The branch over the case blocks exists only if there are cases. */
  function SizeSkip(cases: Cases): nat {
    if cases.NoCases? then 0 else 5
  }

  function SizeConds(es: Exprs): nat {
    match es
    case NoExprs => 0
    case MoreExprs(e, t) => 1 + SizeE(e) + 1 + 5 + SizeConds(t)
  }

  function SizeTests(cases: Cases): nat
    decreases cases, 0
  {
    match cases
    case NoCases => 0
    case MoreCases(conds, _, rest) => SizeConds(conds) + SizeTests(rest)
  }

  function SizeBlocks(cases: Cases): nat
    decreases cases, 0
  {
    match cases
    case NoCases => 0
    case MoreCases(_, b, rest) => 1 + SizeB(b) + 5 + SizeBlocks(rest)
  }

  /** Instruction `i` stands at address `p`. */
  predicate Is(c: Program, p: nat, i: Ins) {
    Fetch(c.code, p) == Some(i)
  }

  predicate Goes(c: Program, p: nat, k: BranchKind, target: int) {
    Is(c, p, BranchOp(k, target - p))
  }

  /** Strings longer than six bytes live in the string pool. */
  function PutLiteral(v: Value): Ins {
    if v.Str? && |v.s| > 6 then PutString(v.s) else PutValue(v)
  }

  function OppositeKind(op: BinOp): BranchKind
    requires IsComparisonOp(op)
  {
    match Opposite(op)
    case Lt => OnLt
    case Gt => OnGt
    case Le => OnLe
    case Ge => OnGe
    case Eq => OnEq
    case _ => OnNeq
  }

  function FunctionIns(f: Func, offset: int): Ins {
    PutFunction(f.name, offset, f.anonymous, f.needsArguments, f.params, f.required, f.lvarcount)
  }

  predicate LayFn(c: Program, f: Func, p: nat) {
    match Fetch(c.code, p)
    case Some(PutFunction(_, off, _, _, _, _, _)) =>
      Is(c, p, FunctionIns(f, off)) && p + off in c.funs && c.funs[p + off] == f
    case _ => false
  }

  predicate LayE(c: Program, e: Expr, p: nat)
    decreases e, 0
  {
    match e
    case Lit(v) => Is(c, p, PutLiteral(v))
    case Var(loc) => Is(c, p, ReadLocal(loc.index, loc.level))
    case Un(op, a) => LayE(c, a, p) && Is(c, p + SizeE(a), UnaryOperator(op))
    case Bin(op, l, r) =>
      LayE(c, l, p) && LayE(c, r, p + SizeE(l)) && Is(c, p + SizeE(l) + SizeE(r), Operator(op))
    case And(l, r) =>
      LayE(c, l, p) && LayShort(c, p + SizeE(l), UnlessTrue, SizeE(r)) && LayE(c, r, p + SizeE(l) + 7)
    case Or(l, r) =>
      LayE(c, l, p) && LayShort(c, p + SizeE(l), IfTrue, SizeE(r)) && LayE(c, r, p + SizeE(l) + 7)
    case Ternary(d, t, f) =>
      var pt := p + SizeC(d);
      var pf := pt + SizeE(t) + 5;
      LayC(c, d, p, pf) && LayE(c, t, pt) && Goes(c, pt + SizeE(t), Always, pf + SizeE(f)) && LayE(c, f, pf)
    case Assign(loc, a) => LayE(c, a, p) && Is(c, p + SizeE(a), SetLocalPush(loc.index, loc.level))
    case Call(f, args) =>
      LayE(c, f, p) && LayA(c, args, p + SizeE(f)) && Is(c, p + SizeE(f) + SizeA(args), CallOp(Count(args)))
    case Fn(f) => LayFn(c, f, p)
    case Length(a) => LayE(c, a, p) && Is(c, p + SizeE(a), ReadMemberSymbol("length"))
    case ArgAt(i, up) => Is(c, p, ReadLocal(0, up)) && Is(c, p + 9, ReadArrayIndex(i))
  }

  /** Between the operands of a short-circuit operator: keep the value, or drop it and go on. */
  predicate LayShort(c: Program, q: nat, k: BranchKind, size: nat) {
    Is(c, q, Dup) && Goes(c, q + 1, k, q + 7 + size) && Is(c, q + 6, Pop)
  }

  predicate LayA(c: Program, es: Exprs, p: nat)
    decreases es, 0
  {
    match es
    case NoExprs => true
    case MoreExprs(e, t) => LayE(c, e, p) && LayA(c, t, p + SizeE(e))
  }

  /** A condition that branches to `target` when it does not hold. */
  predicate LayC(c: Program, e: Expr, p: nat, target: int)
    decreases e, 1
  {
    if IsComparison(e) then
      LayE(c, e.l, p) && LayE(c, e.r, p + SizeE(e.l)) &&
      Goes(c, p + SizeE(e.l) + SizeE(e.r), OppositeKind(e.op), target)
    else LayE(c, e, p) && Goes(c, p + SizeE(e), UnlessTrue, target)
  }

  /** A block at `p`; breaks go to `brk` and continues to `cnt`. */
  predicate LayB(c: Program, b: Stmts, p: nat, brk: int, cnt: int)
    decreases b, 1
  {
    Is(c, p, Nop) && LayL(c, b, p + 1, brk, cnt)
  }

  predicate LayO(c: Program, b: Option<Stmts>, p: nat, brk: int, cnt: int)
    decreases b, 1
  {
    b.Some? ==> LayB(c, b.value, p, brk, cnt)
  }

  predicate LayL(c: Program, b: Stmts, p: nat, brk: int, cnt: int)
    decreases b, 0
  {
    match b
    case NoStmts => true
    case MoreStmts(s, t) => LayS(c, s, p, brk, cnt) && LayL(c, t, p + SizeS(s), brk, cnt)
  }

  predicate LayS(c: Program, s: Stmt, p: nat, brk: int, cnt: int)
    decreases s, 0
  {
    match s
    case Do(e) => LayE(c, e, p) && Is(c, p + SizeE(e), Pop)
    case Set(loc, e) => LayE(c, e, p) && Is(c, p + SizeE(e), SetLocal(loc.index, loc.level))
    case Block(b) => LayB(c, b, p, brk, cnt)
    case If(d, t) => LayC(c, d, p, p + SizeS(s)) && LayB(c, t, p + SizeC(d), brk, cnt)
    case IfElse(d, t, f) =>
      var pt := p + SizeC(d);
      var pf := pt + SizeB(t) + 5;
      LayC(c, d, p, pf) && LayB(c, t, pt, brk, cnt) && Goes(c, pt + SizeB(t), Always, p + SizeS(s)) &&
          LayB(c, f, pf, brk, cnt)
    case Unless(d, t) =>
      LayE(c, d, p) && Goes(c, p + SizeE(d), IfTrue, p + SizeS(s)) && LayB(c, t, p + SizeE(d) + 5, brk, cnt)
    case UnlessElse(d, t, f) =>
      var pt := p + SizeE(d) + 5;
      var pf := pt + SizeB(t) + 5;
      LayE(c, d, p) && Goes(c, p + SizeE(d), IfTrue, pf) && LayB(c, t, pt, brk, cnt) &&
      Goes(c, pt + SizeB(t), Always, p + SizeS(s)) && LayB(c, f, pf, brk, cnt)
    case While(d, b) =>
      var pb := p + SizeC(d);
      var end := p + SizeS(s);
      LayC(c, d, p, end) && LayB(c, b, pb, end, p) && Goes(c, pb + SizeB(b), Always, p)
    case Until(d, b) =>
      var pb := p + SizeE(d) + 5;
      var end := p + SizeS(s);
      LayE(c, d, p) && Goes(c, p + SizeE(d), IfTrue, end) && LayB(c, b, pb, end, p) && Goes(c, pb + SizeB(b), Always, p)
    case DoWhile(b, d) =>
      var pd := p + SizeB(b);
      var end := p + SizeS(s);
      LayB(c, b, p, end, pd) && LayC(c, d, pd, end) && Goes(c, pd + SizeC(d), Always, p)
    case DoUntil(b, d) =>
      var pd := p + SizeB(b);
      var end := p + SizeS(s);
      LayB(c, b, p, end, pd) && LayE(c, d, pd) && Goes(c, pd + SizeE(d), IfTrue, end) &&
      Goes(c, pd + SizeE(d) + 5, Always, p)
    case Loop(b) => LayB(c, b, p, p + SizeS(s), p) && Goes(c, p + SizeB(b), Always, p)
    case Switch(d, cases, otherwise) =>
      var tests := p + SizeE(d);
      var skip := tests + SizeTests(cases);
      var blocks := skip + SizeSkip(cases);
      var default := blocks + SizeBlocks(cases);
      var end := p + SizeS(s);
      LayE(c, d, p) && LayTests(c, cases, tests, blocks) && (cases.MoreCases? ==> Goes(c, skip, Always, default)) &&
      LayBlocks(c, cases, blocks, end, cnt) && Is(c, default, Pop) && LayO(c, otherwise, default + 1, end, cnt)
    case BreakS => brk != p && Goes(c, p, Always, brk)
    case ContinueS => cnt != p && Goes(c, p, Always, cnt)
    case ReturnS(e) => LayE(c, e, p) && Is(c, p + SizeE(e), ReturnOp)
    case ThrowS(e) => LayE(c, e, p) && Is(c, p + SizeE(e), ThrowOp)
    case TryCatch(b, exc, h, fin) =>
      var ph := p + 5 + SizeB(b) + 6;
      var pf := ph + 9 + SizeB(h);
      LayTry(c, b, p, ph, pf, brk, cnt) && Is(c, ph, SetLocal(exc.index, exc.level)) &&
      LayB(c, h, ph + 9, brk, cnt) && LayO(c, fin, pf, brk, cnt)
    case TryFinally(b, exc, fin) =>
      var ph := p + 5 + SizeB(b) + 6;
      var pr := ph + 9 + SizeB(fin);
      LayTry(c, b, p, ph, pr + 10, brk, cnt) && Is(c, ph, SetLocal(exc.index, exc.level)) &&
      LayB(c, fin, ph + 9, brk, cnt) && Is(c, pr, ReadLocal(exc.index, exc.level)) && Is(c, pr + 9, ThrowOp) &&
      LayB(c, fin, pr + 10, brk, cnt)
  }

  /** The guarded block: table registered, block, table popped, branch to `pf`. */
  predicate LayTry(c: Program, b: Stmts, p: nat, ph: nat, pf: nat, brk: int, cnt: int)
    decreases b, 2
  {
    Is(c, p, RegisterCatchTable(ph - p)) && LayB(c, b, p + 5, brk, cnt) &&
    Is(c, p + 5 + SizeB(b), PopCatchTable) && Goes(c, p + 6 + SizeB(b), Always, pf)
  }

  /** One case's conditions: each compares a copy of the value and branches to `block`. */
  predicate LayConds(c: Program, es: Exprs, p: nat, block: int) {
    match es
    case NoExprs => true
    case MoreExprs(e, t) =>
      Is(c, p, Dup) && LayE(c, e, p + 1) && Is(c, p + 1 + SizeE(e), Operator(Eq)) &&
      Goes(c, p + 2 + SizeE(e), IfTrue, block) && LayConds(c, t, p + 7 + SizeE(e), block)
  }

  /** All conditions of all cases; `block` is where the first remaining case's block stands. */
  predicate LayTests(c: Program, cases: Cases, p: nat, block: nat)
    decreases cases, 0
  {
    match cases
    case NoCases => true
    case MoreCases(conds, b, rest) =>
      LayConds(c, conds, p, block) && LayTests(c, rest, p + SizeConds(conds), block + 1 + SizeB(b) + 5)
  }

  predicate LayBlocks(c: Program, cases: Cases, p: nat, end: int, cnt: int)
    decreases cases, 0
  {
    match cases
    case NoCases => true
    case MoreCases(_, b, rest) =>
      Is(c, p, Pop) && LayB(c, b, p + 1, end, cnt) && Goes(c, p + 1 + SizeB(b), Always, end) &&
      LayBlocks(c, rest, p + 1 + SizeB(b) + 5, end, cnt)
  }

  /** Every function address really holds that function's body. */
  ghost predicate BodiesLaid(c: Program) {
    forall a: int :: a in c.funs ==> a >= 0 && LayB(c, c.funs[a].body, a, -1, -1)
  }
}
