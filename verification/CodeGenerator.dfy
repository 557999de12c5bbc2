/**
 * The code generator: one visitor per kind of node, writing through the assembler. Every
 * visitor is specified by the layout of the node's code: whatever the completed program
 * turns out to be, the node's code stands where its visit began.
 */
module CodeGeneration {
  import opened Values
  import opened Syntax
  import opened Bytecode
  import opened Layout
  import opened Assembling

  /** A function whose body still has to be generated at label `id`. */
  datatype Queued = Queued(id: Label, func: Func)

  // ----- how many function bodies a tree queues, nested ones included -----

  /** A function with a break or continue that has no target counts `x` more than others. */
  function Counts(f: Func, x: nat): nat {
    if ClosedL(f.body, false, false) then 1 else 1 + x
  }

  function FunsE(e: Expr, x: nat): nat
    decreases e, 0
  {
    match e
    case Lit(_) => 0
    case Var(_) => 0
    case Un(_, a) => FunsE(a, x)
    case Bin(_, l, r) => FunsE(l, x) + FunsE(r, x)
    case And(l, r) => FunsE(l, x) + FunsE(r, x)
    case Or(l, r) => FunsE(l, x) + FunsE(r, x)
    case Ternary(c, t, f) => FunsE(c, x) + FunsE(t, x) + FunsE(f, x)
    case Assign(_, a) => FunsE(a, x)
    case Call(f, args) => FunsE(f, x) + FunsA(args, x)
    case Fn(f) => Counts(f, x) + FunsL(f.body, x)
    case Length(a) => FunsE(a, x)
    case ArgAt(_, _) => 0
  }

  function FunsA(es: Exprs, x: nat): nat
    decreases es, 0
  {
    match es
    case NoExprs => 0
    case MoreExprs(e, t) => FunsE(e, x) + FunsA(t, x)
  }

  function FunsL(b: Stmts, x: nat): nat
    decreases b, 0
  {
    match b
    case NoStmts => 0
    case MoreStmts(s, t) => FunsS(s, x) + FunsL(t, x)
  }

  function FunsO(b: Option<Stmts>, x: nat): nat
    decreases b, 1
  {
    if b.Some? then FunsL(b.value, x) else 0
  }

  function FunsCases(cases: Cases, x: nat): nat
    decreases cases, 0
  {
    match cases
    case NoCases => 0
    case MoreCases(conds, b, rest) => FunsA(conds, x) + FunsL(b, x) + FunsCases(rest, x)
  }

  function FunsTests(cases: Cases, x: nat): nat
    decreases cases, 0
  {
    match cases
    case NoCases => 0
    case MoreCases(conds, _, rest) => FunsA(conds, x) + FunsTests(rest, x)
  }

  function FunsBlocks(cases: Cases, x: nat): nat
    decreases cases, 0
  {
    match cases
    case NoCases => 0
    case MoreCases(_, b, rest) => FunsL(b, x) + FunsBlocks(rest, x)
  }

  /** A finally block without a handler is generated twice. */
  function FunsS(s: Stmt, x: nat): nat
    decreases s, 0
  {
    match s
    case Do(e) => FunsE(e, x)
    case Set(_, e) => FunsE(e, x)
    case Block(b) => FunsL(b, x)
    case If(c, t) => FunsE(c, x) + FunsL(t, x)
    case IfElse(c, t, f) => FunsE(c, x) + FunsL(t, x) + FunsL(f, x)
    case Unless(c, t) => FunsE(c, x) + FunsL(t, x)
    case UnlessElse(c, t, f) => FunsE(c, x) + FunsL(t, x) + FunsL(f, x)
    case While(c, b) => FunsE(c, x) + FunsL(b, x)
    case Until(c, b) => FunsE(c, x) + FunsL(b, x)
    case DoWhile(b, c) => FunsL(b, x) + FunsE(c, x)
    case DoUntil(b, c) => FunsL(b, x) + FunsE(c, x)
    case Loop(b) => FunsL(b, x)
    case Switch(c, cases, otherwise) => FunsE(c, x) + FunsTests(cases, x) + FunsBlocks(cases, x) + FunsO(otherwise, x)
    case BreakS => 0
    case ContinueS => 0
    case ReturnS(e) => FunsE(e, x)
    case ThrowS(e) => FunsE(e, x)
    case TryCatch(b, _, h, fin) => FunsL(b, x) + FunsL(h, x) + FunsO(fin, x)
    case TryFinally(b, _, fin) => FunsL(b, x) + FunsL(fin, x) + FunsL(fin, x)
  }

  function Weight(q: seq<Queued>, x: nat): nat {
    if |q| == 0 then 0
    else Weight(q[..|q| - 1], x) + Counts(q[|q| - 1].func, x) + FunsL(q[|q| - 1].func.body, x)
  }

  /** Every function in the statement, nested ones included, has targets for its breaks and continues. */
  ghost predicate NoStrays(s: Stmt) {
    forall x: nat :: FunsS(s, x) == FunsS(s, 0)
  }

  // ----- breaks and continues have targets -----

  /** No break or continue of the statement lacks its target; `b` and `n` say which are available. */
  predicate Closed(s: Stmt, b: bool, n: bool) {
    match s
    case Block(t) => ClosedL(t, b, n)
    case If(_, t) => ClosedL(t, b, n)
    case IfElse(_, t, f) => ClosedL(t, b, n) && ClosedL(f, b, n)
    case Unless(_, t) => ClosedL(t, b, n)
    case UnlessElse(_, t, f) => ClosedL(t, b, n) && ClosedL(f, b, n)
    case While(_, t) => ClosedL(t, true, true)
    case Until(_, t) => ClosedL(t, true, true)
    case DoWhile(t, _) => ClosedL(t, true, true)
    case DoUntil(t, _) => ClosedL(t, true, true)
    case Loop(t) => ClosedL(t, true, true)
    case Switch(_, cases, otherwise) => ClosedCases(cases, n) && ClosedO(otherwise, true, n)
    case BreakS => b
    case ContinueS => n
    case TryCatch(t, _, h, fin) => ClosedL(t, b, n) && ClosedL(h, b, n) && ClosedO(fin, b, n)
    case TryFinally(t, _, fin) => ClosedL(t, b, n) && ClosedL(fin, b, n)
    case _ => true
  }

  predicate ClosedL(t: Stmts, b: bool, n: bool) {
    match t
    case NoStmts => true
    case MoreStmts(s, rest) => Closed(s, b, n) && ClosedL(rest, b, n)
  }

  predicate ClosedO(t: Option<Stmts>, b: bool, n: bool) {
    t.Some? ==> ClosedL(t.value, b, n)
  }

  predicate ClosedCases(cases: Cases, n: bool) {
    match cases
    case NoCases => true
    case MoreCases(_, t, rest) => ClosedL(t, true, n) && ClosedCases(rest, n)
  }

  // ----- what visitors promise -----

  /** Whatever completes `b` also completes `a`. */
  ghost predicate Later(a: Asm, b: Asm) {
    forall c, L :: Completes(c, L, b) ==> Completes(c, L, a) && |b.buffer| < INT32_LIMIT
  }

  /** Exactly `size` bytes were written from `a` to `b`. */
  ghost predicate Extends(a: Asm, b: Asm, size: int) {
    |b.buffer| == |a.buffer| + size && Later(a, b)
  }

  ghost predicate Emits(a: Asm, b: Asm, i: Ins) {
    Extends(a, b, Len(i)) &&
    forall c, L :: Completes(c, L, b) && Fits(i) ==> Fetch(c.code, |a.buffer|) == Some(i)
  }

  ghost predicate EmitsJump(a: Asm, b: Asm, j: Jump, l: Label) {
    Extends(a, b, 5) &&
    forall c, L :: Completes(c, L, b) ==> l in L && Fetch(c.code, |a.buffer|) == Some(JumpIns(j, L[l] - |a.buffer|))
  }

  ghost predicate Marks(a: Asm, b: Asm, l: Label) {
    Extends(a, b, 0) &&
    forall c, L :: Completes(c, L, b) ==> l in L && L[l] == |a.buffer|
  }

  ghost predicate EmitsE(a: Asm, b: Asm, e: Expr) {
    Extends(a, b, SizeE(e)) && forall c, L :: Completes(c, L, b) ==> LayE(c, e, |a.buffer|)
  }

  ghost predicate EmitsA(a: Asm, b: Asm, es: Exprs) {
    Extends(a, b, SizeA(es)) && forall c, L :: Completes(c, L, b) ==> LayA(c, es, |a.buffer|)
  }

  /** The operands of a condition: both sides of a comparison, or the condition's value. */
  predicate LayOperands(c: Program, e: Expr, p: nat) {
    if IsComparison(e) then LayE(c, e.l, p) && LayE(c, e.r, p + SizeE(e.l)) else LayE(c, e, p)
  }

  /** The branch that leaves when a condition is false. */
  function LeaveKind(e: Expr): BranchKind {
    if IsComparison(e) then OppositeKind(e.op) else UnlessTrue
  }

  ghost predicate EmitsOperands(a: Asm, b: Asm, e: Expr) {
    Extends(a, b, SizeC(e) - 5) && forall c, L :: Completes(c, L, b) ==> LayOperands(c, e, |a.buffer|)
  }

  lemma LayCondition(c: Program, e: Expr, p: nat, target: int)
    ensures LayC(c, e, p, target) <==> LayOperands(c, e, p) && Goes(c, p + SizeC(e) - 5, LeaveKind(e), target)
  {
    hide Fetch;
  }

  /** Where the innermost break or continue leads; -1 if there is none. */
  function At(L: map<Label, nat>, stack: seq<Label>): int {
    if |stack| == 0 || stack[|stack| - 1] !in L then -1 else L[stack[|stack| - 1]]
  }

  /** `x` does not lie inside the code at `p`; a block's own address is not inside it. */
  predicate Clear(x: int, p: nat, size: nat) {
    x < p || x >= p + size
  }

  ghost predicate EmitsS(a: Asm, b: Asm, s: Stmt, bs: seq<Label>, cs: seq<Label>) {
    Extends(a, b, SizeS(s)) &&
    forall c, L :: Completes(c, L, b) && Clear(At(L, bs), |a.buffer|, SizeS(s)) &&
        Clear(At(L, cs), |a.buffer|, SizeS(s))
      ==> LayS(c, s, |a.buffer|, At(L, bs), At(L, cs))
  }

  ghost predicate EmitsL(a: Asm, b: Asm, t: Stmts, bs: seq<Label>, cs: seq<Label>) {
    Extends(a, b, SizeL(t)) &&
    forall c, L :: Completes(c, L, b) && Clear(At(L, bs), |a.buffer|, SizeL(t)) &&
        Clear(At(L, cs), |a.buffer|, SizeL(t))
      ==> LayL(c, t, |a.buffer|, At(L, bs), At(L, cs))
  }

  ghost predicate EmitsB(a: Asm, b: Asm, t: Stmts, bs: seq<Label>, cs: seq<Label>) {
    Extends(a, b, SizeB(t)) &&
    forall c, L :: Completes(c, L, b) && Clear(At(L, bs), |a.buffer| + 1, SizeL(t)) &&
        Clear(At(L, cs), |a.buffer| + 1, SizeL(t))
      ==> LayB(c, t, |a.buffer|, At(L, bs), At(L, cs))
  }

  ghost predicate EmitsO(a: Asm, b: Asm, t: Option<Stmts>, bs: seq<Label>, cs: seq<Label>) {
    Extends(a, b, SizeO(t)) &&
    forall c, L :: Completes(c, L, b) && Clear(At(L, bs), |a.buffer|, SizeO(t)) &&
        Clear(At(L, cs), |a.buffer|, SizeO(t))
      ==> LayO(c, t, |a.buffer|, At(L, bs), At(L, cs))
  }

  // ----- the primitives keep their promises -----

  lemma LaterBy(a: Asm, b: Asm)
    requires Grows(a, b)
    ensures Later(a, b)
  {
    hide Fetch;
    forall c, L | Completes(c, L, b) ensures Completes(c, L, a) && |b.buffer| < INT32_LIMIT {
      CompletesBefore(c, L, a, b);
    }
  }

  lemma WrittenEmits(a: Asm, i: Ins)
    requires WF(a)
    ensures Emits(a, Written(a, i), i)
  {
    hide Fetch, Encode, Fits, InstructionLength, WF, Completes;
    WrittenKeeps(a, i);
    LaterBy(a, Written(a, i));
    EncodeLength(i);
    forall c, L | Completes(c, L, Written(a, i)) && Fits(i) ensures Fetch(c.code, |a.buffer|) == Some(i) {
      WrittenFetch(c, L, a, i);
    }
  }

  lemma ReferredEmits(a: Asm, j: Jump, l: Label)
    requires WF(a) && l < a.next && !j.ToFunction?
    ensures EmitsJump(a, Referred(a, j, l), j, l)
  {
    hide Fetch, Encode, InstructionLength, WF, Completes, Backward;
    var b := Referred(a, j, l);
    ReferredKeeps(a, j, l);
    LaterBy(a, b);
    var x := if l in a.labels then Backward(a, j, l) else 0;
    EncodeLength(JumpIns(j, x));
    JumpLength(j, x);
    forall c, L | Completes(c, L, b)
      ensures l in L && Fetch(c.code, |a.buffer|) == Some(JumpIns(j, L[l] - |a.buffer|))
    {
      ReferredFetch(c, L, a, j, l);
    }
  }

  lemma FunctionEmits(a: Asm, f: Func, l: Label)
    requires WF(a) && l < a.next && l !in a.functions && l !in a.labels
    ensures Extends(a, Referred(a, ToFunction(f), l), 27)
    ensures forall c, L :: Completes(c, L, Referred(a, ToFunction(f), l)) ==> LayFn(c, f, |a.buffer|)
  {
    hide Fetch, Encode, InstructionLength, WF, Backward;
    var b := Referred(a, ToFunction(f), l);
    ReferredKeeps(a, ToFunction(f), l);
    LaterBy(a, b);
    EncodeLength(JumpIns(ToFunction(f), 0));
    JumpLength(ToFunction(f), 0);
    forall c, L | Completes(c, L, b) ensures LayFn(c, f, |a.buffer|) {
      ReferredFetch(c, L, a, ToFunction(f), l);
      assert l in b.functions && b.functions[l] == f;
    }
  }

  lemma ReservedExtends(a: Asm)
    requires WF(a)
    ensures Extends(a, Reserved(a), 0)
  {
    hide Fetch, Aligned, Completes;
    ReservedKeeps(a);
    LaterBy(a, Reserved(a));
  }

  lemma PlacedMarks(a: Asm, l: Label)
    requires WF(a) && l < a.next && l !in a.labels
    ensures Marks(a, Placed(a, l), l)
  {
    hide Fetch, WF;
    PlacedKeeps(a, l);
    LaterBy(a, Placed(a, l));
    forall c, L | Completes(c, L, Placed(a, l)) ensures l in L && L[l] == |a.buffer| {
      assert l in Placed(a, l).labels;
    }
  }

  lemma {:induction false} FewArguments(es: Exprs)
    ensures Count(es) <= SizeA(es)
  {
    hide SizeE;
    if es.MoreExprs? {
      FewArguments(es.tail);
    }
  }

  // ----- operands fit their fields -----

  lemma PlainFits()
    ensures Fits(Pop) && Fits(Dup) && Fits(Nop) && Fits(ReturnOp) && Fits(ThrowOp) && Fits(PopCatchTable)
    ensures Len(Pop) == Len(Dup) == Len(Nop) == Len(ReturnOp) == Len(ThrowOp) == Len(PopCatchTable) == 1
    ensures forall op :: Fits(Operator(op)) && Len(Operator(op)) == 1
    ensures forall op :: Fits(UnaryOperator(op)) && Len(UnaryOperator(op)) == 1
    ensures forall s :: Fits(ReadMemberSymbol(s)) && Len(ReadMemberSymbol(s)) == 9
  {
  }

  lemma LiteralFits(v: Value)
    ensures Fits(PutLiteral(v)) && Len(PutLiteral(v)) == 9
  {
  }

  lemma LocalFits(loc: Loc)
    ensures Fits(ReadLocal(loc.index, loc.level)) && Len(ReadLocal(loc.index, loc.level)) == 9
    ensures Fits(SetLocal(loc.index, loc.level)) && Len(SetLocal(loc.index, loc.level)) == 9
    ensures Fits(SetLocalPush(loc.index, loc.level)) && Len(SetLocalPush(loc.index, loc.level)) == 9
    ensures Fits(ReadArrayIndex(loc.index)) && Len(ReadArrayIndex(loc.index)) == 5
  {
  }

  /** Every argument takes at least one byte, so an argument count fits where the code does. */
  lemma CallFits(es: Exprs)
    ensures Len(CallOp(Count(es))) == 5
    ensures SizeA(es) < INT32_LIMIT ==> Fits(CallOp(Count(es)))
  {
    hide SizeA;
    FewArguments(es);
  }

  lemma Nothing(a: Asm)
    ensures Extends(a, a, 0)
  {
  }

  lemma ThreeLabels(open: set<Label>, a: Label, b: Label, d: Label)
    requires a !in open && b !in open && d !in open && a != b && b != d && a != d
    ensures open + {a} + {b} + {d} - {a} - {b} - {d} == open
  {
  }

  lemma Conditions(e: Expr)
    ensures forall c, p: nat, target: int ::
      LayOperands(c, e, p) && Goes(c, p + SizeC(e) - 5, LeaveKind(e), target) ==> LayC(c, e, p, target)
  {
    hide Fetch, Is;
    forall c, p: nat, target: int | LayOperands(c, e, p) && Goes(c, p + SizeC(e) - 5, LeaveKind(e), target)
      ensures LayC(c, e, p, target)
    {
      LayCondition(c, e, p, target);
    }
  }

  // ----- steps in sequence -----

  lemma JoinShort(e: Expr, l: Expr, r: Expr, k: BranchKind, end: Label, a0: Asm, a1: Asm, a2: Asm, a3: Asm, a4: Asm,
      a5: Asm, a6: Asm, a7: Asm)
    requires (e == And(l, r) && k == UnlessTrue) || (e == Or(l, r) && k == IfTrue)
    requires Extends(a0, a1, 0) && EmitsE(a1, a2, l) && Emits(a2, a3, Dup) && EmitsJump(a3, a4, ToBranch(k), end)
    requires Emits(a4, a5, Pop) && EmitsE(a5, a6, r) && Marks(a6, a7, end)
    ensures EmitsE(a0, a7, e)
  {
    hide Fetch, Completes, Fits, Len;
    PlainFits();
  }

  lemma JoinTernary(e: Expr, l: Label, x: Label, a0: Asm, a1: Asm, a2: Asm, a3: Asm, a4: Asm, a5: Asm, a6: Asm,
      a7: Asm, a8: Asm, a9: Asm)
    requires e.Ternary? && EmitsOperands(a0, a1, e.c)
    requires Extends(a1, a2, 0) && Extends(a2, a3, 0)
    requires EmitsJump(a3, a4, ToBranch(LeaveKind(e.c)), l) && EmitsE(a4, a5, e.t) &&
        EmitsJump(a5, a6, ToBranch(Always), x)
    requires Marks(a6, a7, l) && EmitsE(a7, a8, e.f) && Marks(a8, a9, x)
    ensures EmitsE(a0, a9, e)
  {
    hide Fetch, Completes, Fits, Len;
    forall c, L | Completes(c, L, a9) ensures LayE(c, e, |a0.buffer|) {
      LayCondition(c, e.c, |a0.buffer|, |a0.buffer| + SizeC(e.c) + SizeE(e.t) + 5);
    }
  }

  lemma JoinBinary(e: Expr, a0: Asm, a1: Asm, a2: Asm, a3: Asm)
    requires e.Bin? && EmitsE(a0, a1, e.l) && EmitsE(a1, a2, e.r) && Emits(a2, a3, Operator(e.op))
    ensures EmitsE(a0, a3, e)
  {
    hide Fetch, Completes;
    PlainFits();
  }

  // ----- shapes: what a statement's parts contribute -----

  lemma LoopShape(s: Stmt, b: bool, n: bool)
    requires s.DoUntil? || s.DoWhile? || s.While? || s.Until?
    ensures Closed(s, b, n) == ClosedL(s.b, true, true)
    ensures forall x :: FunsS(s, x) == FunsL(s.b, x) + FunsE(s.c, x)
  {
  }

  lemma ElseShape(s: Stmt, b: bool, n: bool)
    requires s.IfElse? || s.UnlessElse?
    ensures Closed(s, b, n) == (ClosedL(s.t, b, n) && ClosedL(s.f, b, n))
    ensures forall x :: FunsS(s, x) == FunsE(s.c, x) + FunsL(s.t, x) + FunsL(s.f, x)
  {
  }

  lemma TryShape(s: Stmt, b: bool, n: bool)
    requires s.TryCatch? || s.TryFinally?
    ensures s.TryCatch? ==> Closed(s, b, n) == (ClosedL(s.b, b, n) && ClosedL(s.handler, b, n) && ClosedO(s.fin, b, n))
    ensures s.TryCatch? ==> forall x :: FunsS(s, x) == FunsL(s.b, x) + FunsL(s.handler, x) + FunsO(s.fin, x)
    ensures s.TryFinally? ==> Closed(s, b, n) == (ClosedL(s.b, b, n) && ClosedL(s.finalizer, b, n))
    ensures s.TryFinally? ==>
      forall x :: FunsS(s, x) == FunsL(s.b, x) + FunsL(s.finalizer, x) + FunsL(s.finalizer, x)
  {
  }

  lemma SwitchShape(s: Stmt, b: bool, n: bool)
    requires s.Switch?
    ensures Closed(s, b, n) == (ClosedCases(s.cases, n) && ClosedO(s.otherwise, true, n))
    ensures forall x ::
      FunsS(s, x) == FunsE(s.c, x) + FunsTests(s.cases, x) + FunsBlocks(s.cases, x) + FunsO(s.otherwise, x)
  {
  }

  // ----- switch and try -----

  function CaseCount(cases: Cases): nat {
    match cases
    case NoCases => 0
    case MoreCases(_, _, rest) => 1 + CaseCount(rest)
  }

  function Elems(ls: seq<Label>): set<Label> {
    set l | l in ls
  }

  lemma ElemsCons(ls: seq<Label>)
    requires |ls| > 0
    ensures Elems(ls) == {ls[0]} + Elems(ls[1..])
    ensures Distinct(ls) <==> Distinct(ls[1..]) && ls[0] !in Elems(ls[1..])
  {
    if Distinct(ls[1..]) && ls[0] !in Elems(ls[1..]) {
      forall i, j | 0 <= i < j < |ls| ensures ls[i] != ls[j] {
        assert ls[j] == ls[1..][j - 1];
        if i > 0 {
          assert ls[i] == ls[1..][i - 1];
        }
      }
    }
    if Distinct(ls) {
      forall i, j | 0 <= i < j < |ls[1..]| ensures ls[1..][i] != ls[1..][j] {
        assert ls[i + 1] != ls[j + 1];
      }
    }
  }

  lemma NoElems()
    ensures Elems([]) == {} && Distinct([])
  {
  }

  predicate Distinct(ls: seq<Label>) {
    forall i, j :: 0 <= i < j < |ls| ==> ls[i] != ls[j]
  }

  /** The case labels are where the case blocks stand, the first at `block`. */
  predicate BlocksAt(L: map<Label, nat>, ls: seq<Label>, cases: Cases, block: nat)
    requires |ls| == CaseCount(cases)
  {
    match cases
    case NoCases => true
    case MoreCases(_, b, rest) =>
      ls[0] in L && L[ls[0]] == block && BlocksAt(L, ls[1..], rest, block + 1 + SizeB(b) + 5)
  }

  ghost predicate EmitsConds(a: Asm, b: Asm, es: Exprs, l: Label) {
    Extends(a, b, SizeConds(es)) && forall c, L :: Completes(c, L, b) && l in L ==> LayConds(c, es, |a.buffer|, L[l])
  }

  ghost predicate EmitsTests(a: Asm, b: Asm, cases: Cases, ls: seq<Label>) {
    Extends(a, b, SizeTests(cases)) && |ls| == CaseCount(cases) &&
    forall c, L, block: nat :: Completes(c, L, b) && BlocksAt(L, ls, cases, block) ==>
        LayTests(c, cases, |a.buffer|, block)
  }

  ghost predicate EmitsBlocks(a: Asm, b: Asm, cases: Cases, ls: seq<Label>, bs: seq<Label>, cs: seq<Label>) {
    Extends(a, b, SizeBlocks(cases)) && |ls| == CaseCount(cases) &&
    forall c, L :: Completes(c, L, b) && Clear(At(L, bs), |a.buffer|, SizeBlocks(cases)) &&
        Clear(At(L, cs), |a.buffer|, SizeBlocks(cases))
      ==> BlocksAt(L, ls, cases, |a.buffer|) && LayBlocks(c, cases, |a.buffer|, At(L, bs), At(L, cs))
  }

  function SizeChoices(s: Stmt): nat
    requires s.Switch?
  {
    SizeSkip(s.cases) + SizeBlocks(s.cases) + 1 + SizeO(s.otherwise)
  }

  predicate LayChoices(c: Program, s: Stmt, p: nat, brk: int, cnt: int)
    requires s.Switch?
  {
    var blocks := p + SizeSkip(s.cases);
    var default := blocks + SizeBlocks(s.cases);
    (s.cases.MoreCases? ==> Goes(c, p, Always, default)) && LayBlocks(c, s.cases, blocks, brk, cnt) &&
    Is(c, default, Pop) && LayO(c, s.otherwise, default + 1, brk, cnt)
  }

  ghost predicate EmitsChoices(a: Asm, b: Asm, s: Stmt, ls: seq<Label>, bs: seq<Label>, cs: seq<Label>)
    requires s.Switch?
  {
    Extends(a, b, SizeChoices(s)) && |ls| == CaseCount(s.cases) &&
    forall c, L :: Completes(c, L, b) && Clear(At(L, bs), |a.buffer|, SizeChoices(s)) &&
        Clear(At(L, cs), |a.buffer|, SizeChoices(s))
      ==> BlocksAt(L, ls, s.cases, |a.buffer| + SizeSkip(s.cases)) && LayChoices(c, s, |a.buffer|, At(L, bs), At(L, cs))
  }

  ghost predicate EmitsTry(a: Asm, b: Asm, t: Stmts, h: Label, f: Label, bs: seq<Label>, cs: seq<Label>) {
    Extends(a, b, SizeB(t) + 11) &&
    forall c, L :: Completes(c, L, b) && Clear(At(L, bs), |a.buffer|, SizeB(t) + 11) &&
        Clear(At(L, cs), |a.buffer|, SizeB(t) + 11)
      ==> h in L && f in L && LayTry(c, t, |a.buffer|, L[h], L[f], At(L, bs), At(L, cs))
  }

  predicate LayRethrow(c: Program, t: Stmts, exc: Loc, p: nat, brk: int, cnt: int) {
    Is(c, p, SetLocal(exc.index, exc.level)) && LayB(c, t, p + 9, brk, cnt) &&
    Is(c, p + 9 + SizeB(t), ReadLocal(exc.index, exc.level)) && Is(c, p + 18 + SizeB(t), ThrowOp)
  }

  ghost predicate EmitsRethrow(a: Asm, b: Asm, t: Stmts, exc: Loc, bs: seq<Label>, cs: seq<Label>) {
    Extends(a, b, SizeB(t) + 19) &&
    forall c, L :: Completes(c, L, b) && Clear(At(L, bs), |a.buffer|, SizeB(t) + 19) &&
        Clear(At(L, cs), |a.buffer|, SizeB(t) + 19)
      ==> LayRethrow(c, t, exc, |a.buffer|, At(L, bs), At(L, cs))
  }

  lemma NoConditions(a: Asm, es: Exprs, l: Label)
    requires es.NoExprs?
    ensures EmitsConds(a, a, es, l)
  {
    hide Fetch;
  }

  lemma NoTestsEmitted(a: Asm, cases: Cases)
    requires cases.NoCases?
    ensures EmitsTests(a, a, cases, [])
  {
    hide Fetch;
  }

  lemma NoBlocksEmitted(a: Asm, cases: Cases, ls: seq<Label>, bs: seq<Label>, cs: seq<Label>)
    requires cases.NoCases? && |ls| == 0
    ensures EmitsBlocks(a, a, cases, ls, bs, cs)
  {
    hide Fetch;
  }

  lemma TestsCount(a: Asm, b: Asm, cases: Cases, ls: seq<Label>)
    requires EmitsTests(a, b, cases, ls)
    ensures |ls| == CaseCount(cases)
  {
  }

  lemma SwitchLabels(open: set<Label>, default: Label, ls: seq<Label>)
    requires default in open && Elems(ls) !! open
    ensures open + Elems(ls) - Elems(ls) - {default} == open - {default}
  {
  }

  lemma JoinConds(es: Exprs, l: Label, a0: Asm, a1: Asm, a2: Asm, a3: Asm, a4: Asm, a5: Asm)
    requires es.MoreExprs? && Emits(a0, a1, Dup) && EmitsE(a1, a2, es.head) && Emits(a2, a3, Operator(Eq))
    requires EmitsJump(a3, a4, ToBranch(IfTrue), l) && EmitsConds(a4, a5, es.tail, l)
    ensures EmitsConds(a0, a5, es, l)
  {
    hide Fetch, Completes, Fits, Len, LayE;
    PlainFits();
  }

  lemma JoinTests(cases: Cases, ls: seq<Label>, a0: Asm, a1: Asm, a2: Asm, a3: Asm)
    requires cases.MoreCases? && |ls| > 0 && Extends(a0, a1, 0) && EmitsConds(a1, a2, cases.conds, ls[0])
    requires EmitsTests(a2, a3, cases.rest, ls[1..])
    ensures EmitsTests(a0, a3, cases, ls)
  {
    hide Fetch, Completes, LayE, SizeE, SizeB;
    forall c, L, block: nat | Completes(c, L, a3) &&
        BlocksAt(L, ls, cases, block) ensures LayTests(c, cases, |a0.buffer|, block) {
      assert BlocksAt(L, ls[1..], cases.rest, block + 1 + SizeB(cases.block) + 5);
      assert LayTests(c, cases.rest, |a2.buffer|, block + 1 + SizeB(cases.block) + 5);
    }
  }

  lemma JoinBlocks(cases: Cases, ls: seq<Label>, bs: seq<Label>, cs: seq<Label>, a0: Asm, a1: Asm, a2: Asm, a3: Asm,
      a4: Asm, a5: Asm)
    requires cases.MoreCases? && |ls| > 0 && |bs| > 0 && Marks(a0, a1, ls[0]) && Emits(a1, a2, Pop)
    requires EmitsB(a2, a3, cases.block, bs, cs) && EmitsJump(a3, a4, ToBranch(Always), bs[|bs| - 1])
    requires EmitsBlocks(a4, a5, cases.rest, ls[1..], bs, cs)
    ensures EmitsBlocks(a0, a5, cases, ls, bs, cs)
  {
    hide Fetch, Completes, Fits, Len, LayB, SizeL;
    PlainFits();
  }

  lemma JoinChoices(s: Stmt, ls: seq<Label>, d: Label, bs: seq<Label>, cs: seq<Label>,
                    a0: Asm, a1: Asm, a2: Asm, a3: Asm, a4: Asm, a5: Asm)
    requires s.Switch? && (if s.cases.MoreCases? then EmitsJump(a0, a1, ToBranch(Always), d) else a0 == a1)
    requires EmitsBlocks(a1, a2, s.cases, ls, bs, cs) && Marks(a2, a3, d) && Emits(a3, a4, Pop)
    requires EmitsO(a4, a5, s.otherwise, bs, cs)
    ensures EmitsChoices(a0, a5, s, ls, bs, cs)
  {
    hide Fetch, Completes, Fits, Len, LayBlocks, SizeBlocks, LayO, SizeO, BlocksAt;
    PlainFits();
  }

  ghost predicate EmitsSubject(a: Asm, b: Asm, s: Stmt, bs: seq<Label>, cs: seq<Label>)
    requires s.Switch?
  {
    Extends(a, b, SizeS(s)) &&
    forall c, L :: Completes(c, L, b) && At(L, bs) == |b.buffer| && Clear(At(L, cs), |a.buffer|, SizeS(s))
      ==> LayS(c, s, |a.buffer|, 0, At(L, cs))
  }

  lemma JoinSubject(s: Stmt, ls: seq<Label>, bs: seq<Label>, cs: seq<Label>, a0: Asm, a1: Asm, a2: Asm, a3: Asm)
    requires s.Switch? && EmitsE(a0, a1, s.c) && EmitsTests(a1, a2, s.cases, ls) && EmitsChoices(a2, a3, s, ls, bs, cs)
    ensures EmitsSubject(a0, a3, s, bs, cs)
  {
    hide Fetch, Completes, Fits, Len, LayE, LayTests, LayBlocks, LayO, SizeE, SizeTests, SizeBlocks, SizeO, BlocksAt;
  }

  /** The layout of a switch does not depend on the break target around it. */
  lemma SwitchBreak(c: Program, s: Stmt, p: nat, brk: int, cnt: int)
    requires s.Switch? && LayS(c, s, p, 0, cnt)
    ensures LayS(c, s, p, brk, cnt)
  {
    hide Fetch, LayE, LayTests, LayBlocks, LayO;
  }

  lemma JoinSwitch(s: Stmt, end: Label, bs: seq<Label>, cs: seq<Label>, a0: Asm, a1: Asm, a2: Asm, a3: Asm, a4: Asm)
    requires s.Switch? && Extends(a0, a1, 0) && Extends(a1, a2, 0) && EmitsSubject(a2, a3, s, bs + [end], cs) &&
        Marks(a3, a4, end)
    ensures EmitsS(a0, a4, s, bs, cs)
  {
    hide Fetch, Completes, LayS, SizeS;
    forall c, L | Completes(c, L, a4) && Clear(At(L, bs), |a0.buffer|, SizeS(s)) &&
        Clear(At(L, cs), |a0.buffer|, SizeS(s))
      ensures LayS(c, s, |a0.buffer|, At(L, bs), At(L, cs))
    {
      SwitchBreak(c, s, |a0.buffer|, At(L, bs), At(L, cs));
    }
  }

  lemma JoinTry(t: Stmts, h: Label, f: Label, bs: seq<Label>, cs: seq<Label>, a0: Asm, a1: Asm, a2: Asm, a3: Asm,
      a4: Asm)
    requires EmitsJump(a0, a1, ToHandler, h) && EmitsB(a1, a2, t, bs, cs) && Emits(a2, a3, PopCatchTable)
    requires EmitsJump(a3, a4, ToBranch(Always), f)
    ensures EmitsTry(a0, a4, t, h, f, bs, cs)
  {
    hide Fetch, Completes, Fits, Len, SizeL;
    PlainFits();
  }

  lemma JoinTryCatch(s: Stmt, h: Label, f: Label, bs: seq<Label>, cs: seq<Label>,
                     a0: Asm, a1: Asm, a2: Asm, a3: Asm, a4: Asm, a5: Asm, a6: Asm, a7: Asm, a8: Asm)
    requires s.TryCatch? && Extends(a0, a1, 0) && Extends(a1, a2, 0) && EmitsTry(a2, a3, s.b, h, f, bs, cs) &&
        Marks(a3, a4, h)
    requires Emits(a4, a5, SetLocal(s.exc.index, s.exc.level)) && EmitsB(a5, a6, s.handler, bs, cs) && Marks(a6, a7, f)
    requires EmitsO(a7, a8, s.fin, bs, cs)
    ensures EmitsS(a0, a8, s, bs, cs)
  {
    hide Fetch, Completes, Fits, Len, LayO, LayTry, SizeL, SizeO;
    LocalFits(s.exc);
  }

  lemma JoinRethrow(t: Stmts, exc: Loc, bs: seq<Label>, cs: seq<Label>, a0: Asm, a1: Asm, a2: Asm, a3: Asm, a4: Asm)
    requires Emits(a0, a1, SetLocal(exc.index, exc.level)) && EmitsB(a1, a2, t, bs, cs)
    requires Emits(a2, a3, ReadLocal(exc.index, exc.level)) && Emits(a3, a4, ThrowOp)
    ensures EmitsRethrow(a0, a4, t, exc, bs, cs)
  {
    hide Fetch, Completes, Fits, Len, LayB, SizeL;
    LocalFits(exc);
    PlainFits();
  }

  lemma JoinTryFinally(s: Stmt, h: Label, f: Label, bs: seq<Label>, cs: seq<Label>,
                       a0: Asm, a1: Asm, a2: Asm, a3: Asm, a4: Asm, a5: Asm, a6: Asm, a7: Asm)
    requires s.TryFinally? && Extends(a0, a1, 0) && Extends(a1, a2, 0) && EmitsTry(a2, a3, s.b, h, f, bs, cs) &&
        Marks(a3, a4, h)
    requires EmitsRethrow(a4, a5, s.finalizer, s.exc, bs, cs) && Marks(a5, a6, f) && EmitsB(a6, a7, s.finalizer, bs, cs)
    ensures EmitsS(a0, a7, s, bs, cs)
  {
    hide Fetch, Completes, Fits, Len, LayTry, SizeL;
  }

  // ----- one lemma per statement: its parts, in order, are its layout -----

  lemma JoinIf(s: Stmt, l: Label, bs: seq<Label>, cs: seq<Label>, a0: Asm, a1: Asm, a2: Asm, a3: Asm, a4: Asm, a5: Asm)
    requires s.If?
    requires EmitsOperands(a0, a1, s.c)
    requires Extends(a1, a2, 0)
    requires EmitsJump(a2, a3, ToBranch(LeaveKind(s.c)), l)
    requires EmitsB(a3, a4, s.t, bs, cs)
    requires Marks(a4, a5, l)
    ensures EmitsS(a0, a5, s, bs, cs)
  {
    hide Fetch, Completes, Fits, Len;
    Conditions(s.c);
  }

  lemma JoinIfElse(s: Stmt, l: Label, e: Label, bs: seq<Label>, cs: seq<Label>, a0: Asm, a1: Asm, a2: Asm, a3: Asm,
      a4: Asm, a5: Asm, a6: Asm, a7: Asm, a8: Asm, a9: Asm)
    requires s.IfElse?
    requires EmitsOperands(a0, a1, s.c)
    requires Extends(a1, a2, 0)
    requires Extends(a2, a3, 0)
    requires EmitsJump(a3, a4, ToBranch(LeaveKind(s.c)), l)
    requires EmitsB(a4, a5, s.t, bs, cs)
    requires EmitsJump(a5, a6, ToBranch(Always), e)
    requires Marks(a6, a7, l)
    requires EmitsB(a7, a8, s.f, bs, cs)
    requires Marks(a8, a9, e)
    ensures EmitsS(a0, a9, s, bs, cs)
  {
    hide Fetch, Completes, Fits, Len;
    Conditions(s.c);
  }

  lemma JoinUnless(s: Stmt, l: Label, bs: seq<Label>, cs: seq<Label>, a0: Asm, a1: Asm, a2: Asm, a3: Asm, a4: Asm,
      a5: Asm)
    requires s.Unless?
    requires EmitsE(a0, a1, s.c)
    requires Extends(a1, a2, 0)
    requires EmitsJump(a2, a3, ToBranch(IfTrue), l)
    requires EmitsB(a3, a4, s.t, bs, cs)
    requires Marks(a4, a5, l)
    ensures EmitsS(a0, a5, s, bs, cs)
  {
    hide Fetch, Completes, Fits, Len;
  }

  lemma JoinUnlessElse(s: Stmt, l: Label, e: Label, bs: seq<Label>, cs: seq<Label>, a0: Asm, a1: Asm, a2: Asm,
      a3: Asm, a4: Asm, a5: Asm, a6: Asm, a7: Asm, a8: Asm, a9: Asm)
    requires s.UnlessElse?
    requires EmitsE(a0, a1, s.c)
    requires Extends(a1, a2, 0)
    requires Extends(a2, a3, 0)
    requires EmitsJump(a3, a4, ToBranch(IfTrue), l)
    requires EmitsB(a4, a5, s.t, bs, cs)
    requires EmitsJump(a5, a6, ToBranch(Always), e)
    requires Marks(a6, a7, l)
    requires EmitsB(a7, a8, s.f, bs, cs)
    requires Marks(a8, a9, e)
    ensures EmitsS(a0, a9, s, bs, cs)
  {
    hide Fetch, Completes, Fits, Len;
  }

  lemma JoinWhile(s: Stmt, n: Label, l: Label, bs: seq<Label>, cs: seq<Label>, a0: Asm, a1: Asm, a2: Asm, a3: Asm,
      a4: Asm, a5: Asm, a6: Asm, a7: Asm, a8: Asm)
    requires s.While?
    requires Extends(a0, a1, 0)
    requires Marks(a1, a2, n)
    requires Extends(a2, a3, 0)
    requires EmitsOperands(a3, a4, s.c)
    requires EmitsJump(a4, a5, ToBranch(LeaveKind(s.c)), l)
    requires EmitsB(a5, a6, s.b, bs + [l], cs + [n])
    requires EmitsJump(a6, a7, ToBranch(Always), n)
    requires Marks(a7, a8, l)
    ensures EmitsS(a0, a8, s, bs, cs)
  {
    hide Fetch, Completes, Fits, Len;
    Conditions(s.c);
  }

  lemma JoinUntil(s: Stmt, n: Label, l: Label, bs: seq<Label>, cs: seq<Label>, a0: Asm, a1: Asm, a2: Asm, a3: Asm,
      a4: Asm, a5: Asm, a6: Asm, a7: Asm, a8: Asm)
    requires s.Until?
    requires Extends(a0, a1, 0)
    requires Marks(a1, a2, n)
    requires Extends(a2, a3, 0)
    requires EmitsE(a3, a4, s.c)
    requires EmitsJump(a4, a5, ToBranch(IfTrue), l)
    requires EmitsB(a5, a6, s.b, bs + [l], cs + [n])
    requires EmitsJump(a6, a7, ToBranch(Always), n)
    requires Marks(a7, a8, l)
    ensures EmitsS(a0, a8, s, bs, cs)
  {
    hide Fetch, Completes, Fits, Len;
  }

  lemma JoinLoop(s: Stmt, n: Label, l: Label, bs: seq<Label>, cs: seq<Label>, a0: Asm, a1: Asm, a2: Asm, a3: Asm,
      a4: Asm, a5: Asm, a6: Asm)
    requires s.Loop?
    requires Extends(a0, a1, 0)
    requires Marks(a1, a2, n)
    requires Extends(a2, a3, 0)
    requires EmitsB(a3, a4, s.b, bs + [l], cs + [n])
    requires EmitsJump(a4, a5, ToBranch(Always), n)
    requires Marks(a5, a6, l)
    ensures EmitsS(a0, a6, s, bs, cs)
  {
    hide Fetch, Completes, Fits, Len;
  }

  lemma JoinDoWhile(s: Stmt, g: Label, n: Label, l: Label, bs: seq<Label>, cs: seq<Label>, a0: Asm, a1: Asm, a2: Asm,
      a3: Asm, a4: Asm, a5: Asm, a6: Asm, a7: Asm, a8: Asm, a9: Asm, a10: Asm)
    requires s.DoWhile?
    requires Extends(a0, a1, 0)
    requires Extends(a1, a2, 0)
    requires Extends(a2, a3, 0)
    requires Marks(a3, a4, g)
    requires EmitsB(a4, a5, s.b, bs + [l], cs + [n])
    requires Marks(a5, a6, n)
    requires EmitsOperands(a6, a7, s.c)
    requires EmitsJump(a7, a8, ToBranch(LeaveKind(s.c)), l)
    requires EmitsJump(a8, a9, ToBranch(Always), g)
    requires Marks(a9, a10, l)
    ensures EmitsS(a0, a10, s, bs, cs)
  {
    hide Fetch, Completes, Fits, Len;
    Conditions(s.c);
  }

  lemma JoinDoUntil(s: Stmt, g: Label, n: Label, l: Label, bs: seq<Label>, cs: seq<Label>, a0: Asm, a1: Asm, a2: Asm,
      a3: Asm, a4: Asm, a5: Asm, a6: Asm, a7: Asm, a8: Asm, a9: Asm, a10: Asm)
    requires s.DoUntil?
    requires Extends(a0, a1, 0)
    requires Extends(a1, a2, 0)
    requires Extends(a2, a3, 0)
    requires Marks(a3, a4, g)
    requires EmitsB(a4, a5, s.b, bs + [l], cs + [n])
    requires Marks(a5, a6, n)
    requires EmitsE(a6, a7, s.c)
    requires EmitsJump(a7, a8, ToBranch(IfTrue), l)
    requires EmitsJump(a8, a9, ToBranch(Always), g)
    requires Marks(a9, a10, l)
    ensures EmitsS(a0, a10, s, bs, cs)
  {
    hide Fetch, Completes, Fits, Len;
  }

  /**
   * Queued bodies from `v` on still lack their place; every function is placed or queued,
   * and `fs` says which function's body stands at which address.
   */
  ghost predicate QueueOK(a: Asm, q: seq<Queued>, v: nat, fs: map<int, Func>) {
    && v <= |q|
    && (forall i :: 0 <= i < |q| ==> q[i].id in a.functions && a.functions[q[i].id] == q[i].func)
    && (forall i :: v <= i < |q| ==> q[i].id !in a.labels)
    && (forall i, j :: v <= i < j < |q| ==> q[i].id != q[j].id)
    && (forall l :: l in a.functions ==> l in a.labels || exists i :: v <= i < |q| && q[i].id == l)
    && (forall l :: l in a.functions && l in a.labels ==> a.labels[l] in fs && fs[a.labels[l]] == a.functions[l])
  }

  /** Reserved labels that are not placed yet: nothing else may be referred to and unplaced. */
  ghost predicate OpenOK(a: Asm, open: set<Label>) {
    && (forall l :: l in open ==> l < a.next && l !in a.labels && l !in a.functions)
    && (forall u :: u in a.pending ==> u.id in a.labels || u.id in a.functions || u.id in open)
  }

  predicate StackOK(a: Asm, open: set<Label>, stack: seq<Label>) {
    forall l :: l in stack ==> l in open || l in a.labels
  }

  ghost predicate AllOK(a: Asm, q: seq<Queued>, v: nat, fs: map<int, Func>, open: set<Label>, bs: seq<Label>,
      cs: seq<Label>) {
    WF(a) && QueueOK(a, q, v, fs) && OpenOK(a, open) && StackOK(a, open, bs) && StackOK(a, open, cs)
  }

  /** Labels may go on the stacks once they are reserved; what is on top may be jumped to. */
  lemma PushOK(a: Asm, q: seq<Queued>, v: nat, fs: map<int, Func>, open: set<Label>, bs: seq<Label>, cs: seq<Label>,
      l: Label, n: Label)
    requires AllOK(a, q, v, fs, open, bs, cs) && (l in open || l in a.labels) && (n in open || n in a.labels)
    ensures AllOK(a, q, v, fs, open, bs + [l], cs) && AllOK(a, q, v, fs, open, bs + [l], cs + [n])
  {
    hide WF, QueueOK, OpenOK;
  }

  lemma PopOK(a: Asm, q: seq<Queued>, v: nat, fs: map<int, Func>, open: set<Label>, bs: seq<Label>, cs: seq<Label>)
    requires AllOK(a, q, v, fs, open, bs, cs)
    ensures |bs| > 0 ==>
      AllOK(a, q, v, fs, open, bs[..|bs| - 1], cs) && (bs[|bs| - 1] in open || bs[|bs| - 1] in a.labels)
    ensures |cs| > 0 ==>
      AllOK(a, q, v, fs, open, bs, cs[..|cs| - 1]) && (cs[|cs| - 1] in open || cs[|cs| - 1] in a.labels)
    ensures |bs| > 0 && |cs| > 0 ==> AllOK(a, q, v, fs, open, bs[..|bs| - 1], cs[..|cs| - 1])
  {
    hide WF, QueueOK, OpenOK;
  }

  lemma WrittenOK(a: Asm, q: seq<Queued>, v: nat, fs: map<int, Func>, open: set<Label>, bs: seq<Label>,
      cs: seq<Label>, i: Ins)
    requires AllOK(a, q, v, fs, open, bs, cs)
    ensures AllOK(Written(a, i), q, v, fs, open, bs, cs)
  {
    hide WF, Encode;
    WrittenKeeps(a, i);
  }

  lemma ReferredOK(a: Asm, q: seq<Queued>, v: nat, fs: map<int, Func>, open: set<Label>, bs: seq<Label>,
      cs: seq<Label>, j: Jump, l: Label)
    requires AllOK(a, q, v, fs, open, bs, cs) && (l in open || l in a.labels) && !j.ToFunction?
    ensures l < a.next && AllOK(Referred(a, j, l), q, v, fs, open, bs, cs)
  {
    hide Encode, Aligned, Backward;
    ReferredKeeps(a, j, l);
  }

  lemma FunctionOK(a: Asm, q: seq<Queued>, v: nat, fs: map<int, Func>, open: set<Label>, bs: seq<Label>,
      cs: seq<Label>, f: Func, l: Label)
    requires AllOK(a, q, v, fs, open, bs, cs) && l in open && l !in bs && l !in cs
    ensures l < a.next && l !in a.functions && l !in a.labels
    ensures AllOK(Referred(a, ToFunction(f), l), q + [Queued(l, f)], v, fs, open - {l}, bs, cs)
  {
    hide Encode, Aligned, Backward;
    ReferredKeeps(a, ToFunction(f), l);
    var b, q' := Referred(a, ToFunction(f), l), q + [Queued(l, f)];
    assert QueueOK(b, q', v, fs) by {
      forall k | k in b.functions ensures k in b.labels || exists i :: v <= i < |q'| && q'[i].id == k {
        if k == l {
          assert q'[|q|].id == l;
        } else if k !in a.labels {
          var i :| v <= i < |q| && q[i].id == k;
          assert q'[i].id == k;
        }
      }
    }
  }

  lemma ReservedOK(a: Asm, q: seq<Queued>, v: nat, fs: map<int, Func>, open: set<Label>, bs: seq<Label>, cs: seq<Label>)
    requires AllOK(a, q, v, fs, open, bs, cs)
    ensures AllOK(Reserved(a), q, v, fs, open + {a.next}, bs, cs)
    ensures a.next !in open && a.next !in bs && a.next !in cs
  {
    hide Aligned;
    ReservedKeeps(a);
  }

  lemma PlacedOK(a: Asm, q: seq<Queued>, v: nat, fs: map<int, Func>, open: set<Label>, bs: seq<Label>,
      cs: seq<Label>, l: Label)
    requires AllOK(a, q, v, fs, open, bs, cs) && l in open
    ensures l < a.next && l !in a.labels && AllOK(Placed(a, l), q, v, fs, open - {l}, bs, cs)
  {
    hide Aligned;
    PlacedKeeps(a, l);
    var b := Placed(a, l);
    assert QueueOK(b, q, v, fs) by {
      forall k | k in b.functions ensures k in b.labels || exists i :: v <= i < |q| && q[i].id == k {
        assert k in a.labels || exists i :: v <= i < |q| && q[i].id == k;
      }
    }
  }

  lemma WeightPush(q: seq<Queued>, y: Queued, x: nat)
    ensures Weight(q + [y], x) == Weight(q, x) + Counts(y.func, x) + FunsL(y.func.body, x)
  {
    assert (q + [y])[..|q|] == q;
  }

  // ----- the queue -----

  /** All of `funs` lie where they should in every completion, and so does the root. */
  ghost predicate Generated(a: Asm, s: Stmt, funs: map<int, Func>) {
    (forall c, L :: Completes(c, L, a) ==> LayS(c, s, 0, -1, -1)) &&
    (forall c, L, x: int :: Completes(c, L, a) && x in funs ==> x >= 0 && LayB(c, funs[x].body, x, -1, -1)) &&
    (forall x: int :: x in funs ==> 0 <= x < |a.buffer|)
  }

  predicate ClosedBodies(funs: map<int, Func>) {
    forall x: int :: x in funs ==> ClosedL(funs[x].body, false, false)
  }

  lemma WeightNone(x: nat)
    ensures Weight([], x) == 0
  {
  }

  lemma {:induction false} WeightFront(q: seq<Queued>, x: nat)
    requires |q| > 0
    ensures Weight(q, x) == Weight(q[1..], x) + Counts(q[0].func, x) + FunsL(q[0].func.body, x)
  {
    hide FunsL, Counts;
    if |q| > 1 {
      WeightFront(q[..|q| - 1], x);
      assert q[..|q| - 1][1..] == q[1..][..|q| - 2];
      assert q[1..][|q| - 2] == q[|q| - 1];
    } else {
      assert q[..0] == q[1..] == [];
    }
  }

  lemma StartGenerated(a: Asm, b: Asm, s: Stmt)
    requires |a.buffer| == 0 && EmitsS(a, b, s, [], [])
    ensures Generated(b, s, map[])
  {
    hide Fetch, Completes, LayS, SizeS, LayB;
    forall c, L | Completes(c, L, b) ensures LayS(c, s, 0, -1, -1) {
      assert At(L, []) == -1;
    }
  }

  lemma InsideBuffer(a: Asm, s: Stmt, funs: map<int, Func>)
    requires Generated(a, s, funs)
    ensures forall x: int :: x in funs ==> 0 <= x < |a.buffer|
  {
    hide Fetch, Completes;
  }

  lemma QueueStart(a: Asm, q: seq<Queued>, fs: map<int, Func>)
    requires AllOK(a, q, 0, fs, {}, [], []) && |q| > 0
    ensures WF(a) && q[0].id < a.next && q[0].id !in a.labels
    ensures (forall x: int :: x in fs ==> 0 <= x < |a.buffer|) ==>
              AllOK(Placed(a, q[0].id), q, 1, fs[|a.buffer| := q[0].func], {}, [], [])
  {
    hide Aligned;
    var l := q[0].id;
    PlacedKeeps(a, l);
    var b, fs' := Placed(a, l), fs[|a.buffer| := q[0].func];
    forall k | k in b.functions ensures k in b.labels || exists i :: 1 <= i < |q| && q[i].id == k {
      if k !in a.labels && k != l {
        var i :| 0 <= i < |q| && q[i].id == k;
      }
    }
  }

  lemma QueuePop(a: Asm, q: seq<Queued>, fs: map<int, Func>)
    requires AllOK(a, q, 1, fs, {}, [], [])
    ensures AllOK(a, q[1..], 0, fs, {}, [], [])
  {
    hide WF;
    var q' := q[1..];
    forall k | k in a.functions ensures k in a.labels || exists i :: 0 <= i < |q'| && q'[i].id == k {
      if k !in a.labels {
        var i :| 1 <= i < |q| && q[i].id == k;
        assert q'[i - 1].id == k;
      }
    }
  }

  lemma BodyGenerated(a: Asm, a1: Asm, b: Asm, s: Stmt, q: Queued, old': map<int, Func>, funs: map<int, Func>)
    requires Generated(a, s, old') && Marks(a, a1, q.id) && EmitsB(a1, b, q.func.body, [], [])
    requires funs == old'[|a.buffer| := q.func]
    ensures Generated(b, s, funs)
  {
    hide Fetch, Completes, LayS, LayB, SizeL;
    forall c, L | Completes(c, L, b) ensures LayB(c, q.func.body, |a.buffer|, -1, -1) {
      assert At(L, []) == -1;
    }
  }

  lemma AllPlaced(a: Asm, fs: map<int, Func>)
    requires AllOK(a, [], 0, fs, {}, [], [])
    ensures WF(a) && forall u :: u in a.pending ==> u.id in a.labels
    ensures forall l :: l in a.functions ==> l in a.labels && a.labels[l] in fs && fs[a.labels[l]] == a.functions[l]
    ensures forall l :: l in a.labels ==> IsStart(a, a.labels[l])
  {
    hide Walk;
  }

  /** Nothing is left open: the resolved buffer is a completion. */
  lemma Finished(a: Asm, code: seq<Cell>, s: Stmt, fs: map<int, Func>)
    requires WF(a) && Patched(code, a, |a.pending|) && Generated(a, s, fs) && forall u :: u in a.pending ==>
        u.id in a.labels
    requires forall l :: l in a.functions ==> l in a.labels && a.labels[l] in fs && fs[a.labels[l]] == a.functions[l]
    ensures |code| == |a.buffer| && Walk(code, 0) == Some(a.starts)
    ensures |code| < INT32_LIMIT ==> LayS(Program(code, fs), s, 0, -1, -1) && BodiesLaid(Program(code, fs))
  {
    hide Fetch, WF, Completes, LayS, LayB, Walk;
    ResolvedWalk(code, a);
    if |code| < INT32_LIMIT {
      ResolvedCompletes(code, a, fs);
    }
  }

  class CodeGenerator {
    const assembler: Assembler
    var breakStack: seq<Label>
    var continueStack: seq<Label>
    var queued: seq<Queued>

    /** What a function with a stray break or continue counts extra. */
    ghost const extra: nat
    ghost var visiting: nat
    ghost var bodies: map<int, Func>
    ghost var open: set<Label>

    ghost function State(): Asm
      reads assembler
    {
      assembler.State()
    }

    ghost predicate Valid()
      reads this, assembler
    {
      AllOK(State(), queued, visiting, bodies, open, breakStack, continueStack)
    }

    /** Everything but the buffer is as before, apart from newly queued function bodies. */
    twostate predicate Tidy(w: nat)
      reads this, assembler
    {
      Valid() && breakStack == old(breakStack) && continueStack == old(continueStack) && visiting == old(visiting) &&
          bodies == old(bodies) &&
      open == old(open) && (forall l :: l in old(State().labels) ==> l in State().labels) && old(queued) <= queued &&
          Weight(queued, extra) == old(Weight(queued, extra)) + w
    }

    constructor (ghost extra: nat)
      ensures this.extra == extra && Valid() && fresh(assembler) && breakStack == [] && continueStack == []
      ensures queued == [] && visiting == 0 && bodies == map[] && open == {}
      ensures State() == Asm([], map[], [], 0, map[], [])
    {
      assembler := new Assembler();
      breakStack, continueStack, queued, visiting, bodies, open, this.extra := [], [], [], 0, map[], {}, extra;
    }

    // ----- writing -----

    method Emit(i: Ins)
      requires Valid()
      modifies assembler
      ensures Tidy(0) && Emits(old(State()), State(), i)
    {
      hide Fetch, WF, Completes, QueueOK, OpenOK, StackOK, Fits, Encode, InstructionLength, Weight, Backward;
      WrittenOK(State(), queued, visiting, bodies, open, breakStack, continueStack, i);
      WrittenEmits(State(), i);
      assembler.Write(i);
    }

    method Jump(j: Jump, l: Label)
      requires Valid() && (l in open || l in State().labels) && !j.ToFunction?
      modifies assembler
      ensures Tidy(0) && EmitsJump(old(State()), State(), j, l)
    {
      hide Fetch, WF, Completes, QueueOK, OpenOK, StackOK, Fits, Encode, InstructionLength, Weight, Backward;
      ReferredOK(State(), queued, visiting, bodies, open, breakStack, continueStack, j, l);
      ReferredEmits(State(), j, l);
      assembler.WriteJumpToLabel(j, l);
    }

    method Reserve() returns (l: Label)
      requires Valid()
      modifies this, assembler
      ensures Extends(old(State()), State(), 0) && Valid() && l !in old(open) && open == old(open) + {l}
      ensures breakStack == old(breakStack) && continueStack == old(continueStack) && visiting == old(visiting) &&
          bodies == old(bodies)
      ensures queued == old(queued) && l !in breakStack && l !in continueStack && State().labels == old(State().labels)
    {
      hide Fetch, WF, Completes, QueueOK, OpenOK, StackOK, Fits, Encode, InstructionLength, Weight, Backward;
      ReservedOK(State(), queued, visiting, bodies, open, breakStack, continueStack);
      ReservedExtends(State());
      l := assembler.ReserveLabel();
      open := open + {l};
    }

    method Place(l: Label)
      requires Valid() && l in open
      modifies this, assembler
      ensures Marks(old(State()), State(), l) && Valid() && open == old(open) - {l}
      ensures l in State().labels && forall k :: k in old(State().labels) ==> k in State().labels
      ensures breakStack == old(breakStack) && continueStack == old(continueStack) && visiting == old(visiting) &&
          bodies == old(bodies)
      ensures queued == old(queued)
    {
      hide Fetch, WF, Completes, QueueOK, OpenOK, StackOK, Fits, Encode, InstructionLength, Weight, Backward;
      PlacedOK(State(), queued, visiting, bodies, open, breakStack, continueStack, l);
      PlacedMarks(State(), l);
      assembler.PlaceLabel(l);
      open := open - {l};
    }

    // ----- expressions -----

    method VisitE(e: Expr)
      requires Valid()
      modifies this, assembler
      ensures Tidy(FunsE(e, extra)) && EmitsE(old(State()), State(), e)
      decreases e, 1
    {
      hide *;
      match e
      case Lit(_) => VisitLiteral(e);
      case Var(_) => VisitIdentifier(e);
      case Un(_, _) => VisitUnary(e);
      case Bin(_, _, _) => VisitBinary(e);
      case And(_, _) => VisitAnd(e);
      case Or(_, _) => VisitOr(e);
      case Ternary(_, _, _) => VisitTernaryIf(e);
      case Assign(_, _) => VisitAssignment(e);
      case Call(_, _) => VisitCall(e);
      case Fn(_) => VisitFunction(e);
      case Length(_) => VisitMember(e);
      case ArgAt(_, _) => VisitArgument(e);
    }

    method VisitLiteral(e: Expr)
      requires e.Lit? && Valid()
      modifies this, assembler
      ensures Tidy(FunsE(e, extra)) && EmitsE(old(State()), State(), e)
      decreases e, 0
    {
      hide Fetch, AllOK, Completes, Fits, InstructionLength, Weight, State, Assembler.State;
      assert Fits(PutLiteral(e.v)) && Len(PutLiteral(e.v)) == 9 by { LiteralFits(e.v); }
      Emit(PutLiteral(e.v));
    }

    method VisitIdentifier(e: Expr)
      requires e.Var? && Valid()
      modifies this, assembler
      ensures Tidy(FunsE(e, extra)) && EmitsE(old(State()), State(), e)
      decreases e, 0
    {
      hide Fetch, AllOK, Completes, Fits, InstructionLength, Weight, State, Assembler.State;
      LocalFits(e.loc);
      Emit(ReadLocal(e.loc.index, e.loc.level));
    }

    method VisitUnary(e: Expr)
      requires e.Un? && Valid()
      modifies this, assembler
      ensures Tidy(FunsE(e, extra)) && EmitsE(old(State()), State(), e)
      decreases e, 0
    {
      hide Fetch, AllOK, Completes, Fits, InstructionLength, Weight, State, Assembler.State;
      PlainFits();
      VisitE(e.e);
      Emit(UnaryOperator(e.uop));
    }

    method VisitBinary(e: Expr)
      requires e.Bin? && Valid()
      modifies this, assembler
      ensures Tidy(FunsE(e, extra)) && EmitsE(old(State()), State(), e)
      decreases e, 0
    {
      hide Fetch, AllOK, Completes, Fits, InstructionLength, Weight, State, Assembler.State;
      hide LayE, SizeE, Later, EmitsE, Emits, Extends;
      ghost var a0 := State();
      PlainFits();
      VisitE(e.l);
      ghost var a1 := State();
      VisitE(e.r);
      ghost var a2 := State();
      Emit(Operator(e.op));
      JoinBinary(e, a0, a1, a2, State());
    }

    method VisitAnd(e: Expr)
      requires e.And? && Valid()
      modifies this, assembler
      ensures Tidy(FunsE(e, extra)) && EmitsE(old(State()), State(), e)
      decreases e, 0
    {
      hide Fetch, AllOK, Completes, Fits, InstructionLength, Weight, State, Assembler.State;
      hide LayE, SizeE, Later, EmitsE, Emits, EmitsJump, Marks, Extends;
      ghost var a0 := State();
      var end := Reserve();
      ghost var a1 := State();
      VisitE(e.l);
      ghost var a2 := State();
      Emit(Dup);
      ghost var a3 := State();
      Jump(ToBranch(UnlessTrue), end);
      ghost var a4 := State();
      Emit(Pop);
      ghost var a5 := State();
      VisitE(e.r);
      ghost var a6 := State();
      Place(end);
      JoinShort(e, e.l, e.r, UnlessTrue, end, a0, a1, a2, a3, a4, a5, a6, State());
    }

    method VisitOr(e: Expr)
      requires e.Or? && Valid()
      modifies this, assembler
      ensures Tidy(FunsE(e, extra)) && EmitsE(old(State()), State(), e)
      decreases e, 0
    {
      hide Fetch, AllOK, Completes, Fits, InstructionLength, Weight, State, Assembler.State;
      hide LayE, SizeE, Later, EmitsE, Emits, EmitsJump, Marks, Extends;
      ghost var a0 := State();
      var end := Reserve();
      ghost var a1 := State();
      VisitE(e.l);
      ghost var a2 := State();
      Emit(Dup);
      ghost var a3 := State();
      Jump(ToBranch(IfTrue), end);
      ghost var a4 := State();
      Emit(Pop);
      ghost var a5 := State();
      VisitE(e.r);
      ghost var a6 := State();
      Place(end);
      JoinShort(e, e.l, e.r, IfTrue, end, a0, a1, a2, a3, a4, a5, a6, State());
    }

    method VisitTernaryIf(e: Expr)
      requires e.Ternary? && Valid()
      modifies this, assembler
      ensures Tidy(FunsE(e, extra)) && EmitsE(old(State()), State(), e)
      decreases e, 0
    {
      hide Fetch, AllOK, Completes, Fits, InstructionLength, Weight, State, Assembler.State;
      hide LayE, SizeE, SizeC, Later, EmitsE, EmitsOperands, EmitsJump, Marks, Extends, LeaveKind;
      ghost var a0 := State();
      VisitOperands(e.c);
      ghost var a1 := State();
      var otherwise := Reserve();
      ghost var a2 := State();
      var end := Reserve();
      ghost var a3 := State();
      Jump(ToBranch(LeaveKind(e.c)), otherwise);
      ghost var a4 := State();
      VisitE(e.t);
      ghost var a5 := State();
      Jump(ToBranch(Always), end);
      ghost var a6 := State();
      Place(otherwise);
      ghost var a7 := State();
      VisitE(e.f);
      ghost var a8 := State();
      Place(end);
      JoinTernary(e, otherwise, end, a0, a1, a2, a3, a4, a5, a6, a7, a8, State());
    }

    method VisitAssignment(e: Expr)
      requires e.Assign? && Valid()
      modifies this, assembler
      ensures Tidy(FunsE(e, extra)) && EmitsE(old(State()), State(), e)
      decreases e, 0
    {
      hide Fetch, AllOK, Completes, Fits, InstructionLength, Weight, State, Assembler.State;
      LocalFits(e.loc);
      VisitE(e.e);
      Emit(SetLocalPush(e.loc.index, e.loc.level));
    }

    method VisitCall(e: Expr)
      requires e.Call? && Valid()
      modifies this, assembler
      ensures Tidy(FunsE(e, extra)) && EmitsE(old(State()), State(), e)
      decreases e, 0
    {
      hide Fetch, AllOK, Completes, Fits, InstructionLength, Weight, State, Assembler.State;
      CallFits(e.args);
      VisitE(e.callee);
      VisitArguments(e.args);
      Emit(CallOp(Count(e.args)));
    }

    method VisitMember(e: Expr)
      requires e.Length? && Valid()
      modifies this, assembler
      ensures Tidy(FunsE(e, extra)) && EmitsE(old(State()), State(), e)
      decreases e, 0
    {
      hide Fetch, AllOK, Completes, Fits, InstructionLength, Weight, State, Assembler.State;
      PlainFits();
      VisitE(e.e);
      Emit(ReadMemberSymbol("length"));
    }

    method VisitArgument(e: Expr)
      requires e.ArgAt? && Valid()
      modifies this, assembler
      ensures Tidy(FunsE(e, extra)) && EmitsE(old(State()), State(), e)
      decreases e, 0
    {
      hide Fetch, AllOK, Completes, Fits, InstructionLength, Weight, State, Assembler.State;
      LocalFits(Loc(0, e.up));
      LocalFits(Loc(e.i, 0));
      Emit(ReadLocal(0, e.up));
      Emit(ReadArrayIndex(e.i));
    }

    /** The function's body is generated later, from the queue. */
    method VisitFunction(e: Expr)
      requires e.Fn? && Valid()
      modifies this, assembler
      ensures Tidy(FunsE(e, extra)) && EmitsE(old(State()), State(), e)
      decreases e, 0
    {
      hide Fetch, WF, QueueOK, OpenOK, StackOK, Completes, Fits, Encode, InstructionLength, Weight, Backward, LayFn;
      var l := Reserve();
      FunctionOK(State(), queued, visiting, bodies, open, breakStack, continueStack, e.func, l);
      FunctionEmits(State(), e.func, l);
      WeightPush(queued, Queued(l, e.func), extra);
      assembler.WritePutFunctionToLabel(e.func, l);
      queued := queued + [Queued(l, e.func)];
      open := open - {l};
    }

    method VisitArguments(es: Exprs)
      requires Valid()
      modifies this, assembler
      ensures Tidy(FunsA(es, extra)) && EmitsA(old(State()), State(), es)
      decreases es, 1
    {
      hide Fetch, AllOK, Completes, Fits, InstructionLength, Weight, State, Assembler.State;
      match es
      case NoExprs => Nothing(State());
      case MoreExprs(e, t) =>
        VisitE(e);
        VisitArguments(t);
    }

    /** A comparison leaves both operands, any other condition its value. */
    method VisitOperands(e: Expr)
      requires Valid()
      modifies this, assembler
      ensures Tidy(FunsE(e, extra)) && EmitsOperands(old(State()), State(), e)
      decreases e, 2
    {
      hide Fetch, AllOK, Completes, Fits, InstructionLength, Weight, State, Assembler.State;
      if IsComparison(e) {
        VisitE(e.l);
        VisitE(e.r);
      } else {
        VisitE(e);
      }
    }

    // ----- statements -----

    method VisitS(s: Stmt) returns (ok: bool)
      requires Valid()
      modifies this, assembler
      ensures bodies == old(bodies)
      ensures ok <==> Closed(s, |old(breakStack)| > 0, |old(continueStack)| > 0)
      ensures ok ==> Tidy(FunsS(s, extra)) && EmitsS(old(State()), State(), s, breakStack, continueStack)
      decreases s, 3
    {
      hide *;
      match s
      case Do(_) => ok := VisitDo(s);
      case Set(_, _) => ok := VisitSet(s);
      case Block(_) => ok := VisitNested(s);
      case If(_, _) => ok := VisitIf(s);
      case IfElse(_, _, _) => ok := VisitIfElse(s);
      case Unless(_, _) => ok := VisitUnless(s);
      case UnlessElse(_, _, _) => ok := VisitUnlessElse(s);
      case While(_, _) => ok := VisitWhile(s);
      case Until(_, _) => ok := VisitUntil(s);
      case DoWhile(_, _) => ok := VisitDoWhile(s);
      case DoUntil(_, _) => ok := VisitDoUntil(s);
      case Loop(_) => ok := VisitLoop(s);
      case Switch(_, _, _) => ok := VisitSwitch(s);
      case BreakS => ok := VisitBreak(s);
      case ContinueS => ok := VisitContinue(s);
      case ReturnS(_) => ok := VisitReturn(s);
      case ThrowS(_) => ok := VisitThrow(s);
      case TryCatch(_, _, _, _) => ok := VisitTryCatch(s);
      case TryFinally(_, _, _) => ok := VisitTryFinally(s);
    }

    /** The shared shape of all blocks: a Nop, then the statements. */
    method VisitB(t: Stmts) returns (ok: bool)
      requires Valid()
      modifies this, assembler
      ensures bodies == old(bodies)
      ensures ok <==> ClosedL(t, |old(breakStack)| > 0, |old(continueStack)| > 0)
      ensures ok ==> Tidy(FunsL(t, extra)) && EmitsB(old(State()), State(), t, breakStack, continueStack)
      decreases t, 2
    {
      hide Fetch, AllOK, Completes, Fits, InstructionLength, Weight, State, Assembler.State, LayL, SizeL, FunsL,
          ClosedL;
      PlainFits();
      Emit(Nop);
      ok := VisitL(t);
    }

    /** A loop's block, with the labels its breaks and continues lead to. */
    method VisitBody(t: Stmts, leave: Label, again: Label) returns (ok: bool)
      requires Valid() && (leave in open || leave in State().labels) && (again in open || again in State().labels)
      modifies this, assembler
      ensures bodies == old(bodies)
      ensures ok <==> ClosedL(t, true, true)
      ensures ok ==> Tidy(FunsL(t, extra))
      ensures ok ==> EmitsB(old(State()), State(), t, breakStack + [leave], continueStack + [again])
      decreases t, 3
    {
      hide Fetch, AllOK, Completes, Fits, Weight, State, Assembler.State, LayB, SizeB, FunsL, ClosedL, EmitsB;
      PushOK(State(), queued, visiting, bodies, open, breakStack, continueStack, leave, again);
      breakStack := breakStack + [leave];
      continueStack := continueStack + [again];
      ok := VisitB(t);
      if ok {
        PopOK(State(), queued, visiting, bodies, open, breakStack, continueStack);
        breakStack := breakStack[..|breakStack| - 1];
        continueStack := continueStack[..|continueStack| - 1];
      }
    }

    method VisitL(t: Stmts) returns (ok: bool)
      requires Valid()
      modifies this, assembler
      ensures bodies == old(bodies)
      ensures ok <==> ClosedL(t, |old(breakStack)| > 0, |old(continueStack)| > 0)
      ensures ok ==> Tidy(FunsL(t, extra)) && EmitsL(old(State()), State(), t, breakStack, continueStack)
      decreases t, 1
    {
      hide Fetch, AllOK, Completes, Fits, InstructionLength, Weight, State, Assembler.State, LayS, SizeS,
        FunsS, Closed;
      match t
      case NoStmts =>
        ok := true;
        Nothing(State());
      case MoreStmts(s, rest) =>
        ok := VisitS(s);
        if ok {
          ok := VisitL(rest);
        }
    }

    method VisitO(t: Option<Stmts>) returns (ok: bool)
      requires Valid()
      modifies this, assembler
      ensures bodies == old(bodies)
      ensures ok <==> ClosedO(t, |old(breakStack)| > 0, |old(continueStack)| > 0)
      ensures ok ==> Tidy(FunsO(t, extra)) && EmitsO(old(State()), State(), t, breakStack, continueStack)
      decreases t, 3
    {
      hide Fetch, AllOK, Completes, Fits, InstructionLength, Weight, State, Assembler.State, LayL, SizeL, FunsL,
          ClosedL;
      ok := true;
      if t.None? {
        Nothing(State());
      } else {
        ok := VisitB(t.value);
      }
    }

    method VisitDo(s: Stmt) returns (ok: bool)
      requires s.Do? && Valid()
      modifies this, assembler
      ensures bodies == old(bodies)
      ensures ok <==> Closed(s, |old(breakStack)| > 0, |old(continueStack)| > 0)
      ensures ok ==> Tidy(FunsS(s, extra)) && EmitsS(old(State()), State(), s, breakStack, continueStack)
      decreases s, 0
    {
      hide Fetch, AllOK, Completes, Fits, InstructionLength, Weight, LayE, SizeE, State, Assembler.State;
      PlainFits();
      VisitE(s.e);
      Emit(Pop);
      ok := true;
    }

    method VisitSet(s: Stmt) returns (ok: bool)
      requires s.Set? && Valid()
      modifies this, assembler
      ensures bodies == old(bodies)
      ensures ok <==> Closed(s, |old(breakStack)| > 0, |old(continueStack)| > 0)
      ensures ok ==> Tidy(FunsS(s, extra)) && EmitsS(old(State()), State(), s, breakStack, continueStack)
      decreases s, 0
    {
      hide Fetch, AllOK, Completes, Fits, InstructionLength, Weight, LayE, SizeE, State, Assembler.State;
      LocalFits(s.loc);
      VisitE(s.e);
      Emit(SetLocal(s.loc.index, s.loc.level));
      ok := true;
    }

    method VisitNested(s: Stmt) returns (ok: bool)
      requires s.Block? && Valid()
      modifies this, assembler
      ensures bodies == old(bodies)
      ensures ok <==> Closed(s, |old(breakStack)| > 0, |old(continueStack)| > 0)
      ensures ok ==> Tidy(FunsS(s, extra)) && EmitsS(old(State()), State(), s, breakStack, continueStack)
      decreases s, 0
    {
      hide Fetch, AllOK, Completes, Fits, InstructionLength, Weight, LayE, SizeE, State, Assembler.State;
      hide LayL, SizeL;
      ok := VisitB(s.b);
    }

    method VisitReturn(s: Stmt) returns (ok: bool)
      requires s.ReturnS? && Valid()
      modifies this, assembler
      ensures bodies == old(bodies)
      ensures ok <==> Closed(s, |old(breakStack)| > 0, |old(continueStack)| > 0)
      ensures ok ==> Tidy(FunsS(s, extra)) && EmitsS(old(State()), State(), s, breakStack, continueStack)
      decreases s, 0
    {
      hide Fetch, AllOK, Completes, Fits, InstructionLength, Weight, LayE, SizeE, State, Assembler.State;
      PlainFits();
      VisitE(s.e);
      Emit(ReturnOp);
      ok := true;
    }

    method VisitThrow(s: Stmt) returns (ok: bool)
      requires s.ThrowS? && Valid()
      modifies this, assembler
      ensures bodies == old(bodies)
      ensures ok <==> Closed(s, |old(breakStack)| > 0, |old(continueStack)| > 0)
      ensures ok ==> Tidy(FunsS(s, extra)) && EmitsS(old(State()), State(), s, breakStack, continueStack)
      decreases s, 0
    {
      hide Fetch, AllOK, Completes, Fits, InstructionLength, Weight, LayE, SizeE, State, Assembler.State;
      PlainFits();
      VisitE(s.e);
      Emit(ThrowOp);
      ok := true;
    }

    method VisitBreak(s: Stmt) returns (ok: bool)
      requires s.BreakS? && Valid()
      modifies this, assembler
      ensures bodies == old(bodies)
      ensures ok <==> Closed(s, |old(breakStack)| > 0, |old(continueStack)| > 0)
      ensures ok ==> Tidy(FunsS(s, extra)) && EmitsS(old(State()), State(), s, breakStack, continueStack)
      decreases s, 0
    {
      hide Fetch, AllOK, Completes, Fits, InstructionLength, Weight, LayE, SizeE, State, Assembler.State;
      ok := |breakStack| > 0;
      PopOK(State(), queued, visiting, bodies, open, breakStack, continueStack);
      if ok {
        Jump(ToBranch(Always), breakStack[|breakStack| - 1]);
      }
    }

    method VisitContinue(s: Stmt) returns (ok: bool)
      requires s.ContinueS? && Valid()
      modifies this, assembler
      ensures bodies == old(bodies)
      ensures ok <==> Closed(s, |old(breakStack)| > 0, |old(continueStack)| > 0)
      ensures ok ==> Tidy(FunsS(s, extra)) && EmitsS(old(State()), State(), s, breakStack, continueStack)
      decreases s, 0
    {
      hide Fetch, AllOK, Completes, Fits, InstructionLength, Weight, LayE, SizeE, State, Assembler.State;
      ok := |continueStack| > 0;
      PopOK(State(), queued, visiting, bodies, open, breakStack, continueStack);
      if ok {
        Jump(ToBranch(Always), continueStack[|continueStack| - 1]);
      }
    }

    method VisitIf(s: Stmt) returns (ok: bool)
      requires s.If? && Valid()
      modifies this, assembler
      ensures bodies == old(bodies)
      ensures ok <==> Closed(s, |old(breakStack)| > 0, |old(continueStack)| > 0)
      ensures ok ==> Tidy(FunsS(s, extra)) && EmitsS(old(State()), State(), s, breakStack, continueStack)
      decreases s, 0
    {
      hide Fetch, AllOK, Completes, Fits, Weight, Later, LayS, LayC, SizeC, SizeE, SizeB, SizeS, SizeL, EmitsE,
          EmitsB, EmitsJump, Marks, Extends, EmitsOperands, EmitsS, LeaveKind, State, Assembler.State;
      ghost var bs, cs := breakStack, continueStack;
      ghost var a0 := State();
      VisitOperands(s.c);
      ghost var a1 := State();
      var end := Reserve();
      ghost var a2 := State();
      Jump(ToBranch(LeaveKind(s.c)), end);
      ghost var a3 := State();
      ok := VisitB(s.t);
      if !ok { return; }
      ghost var a4 := State();
      Place(end);
      ghost var a5 := State();
      JoinIf(s, end, bs, cs, a0, a1, a2, a3, a4, a5);
    }

    method VisitIfElse(s: Stmt) returns (ok: bool)
      requires s.IfElse? && Valid()
      modifies this, assembler
      ensures bodies == old(bodies)
      ensures ok <==> Closed(s, |old(breakStack)| > 0, |old(continueStack)| > 0)
      ensures ok ==> Tidy(FunsS(s, extra)) && EmitsS(old(State()), State(), s, breakStack, continueStack)
      decreases s, 0
    {
      hide Fetch, AllOK, Completes, Fits, Weight, Later, LayS, LayC, SizeC, SizeE, SizeB, SizeS, SizeL, EmitsE,
          EmitsB, EmitsJump, Marks, Extends, EmitsOperands, EmitsS, LeaveKind, Closed, ClosedL, FunsS, FunsE, FunsL,
              State, Assembler.State;
      ElseShape(s, |breakStack| > 0, |continueStack| > 0);
      ghost var bs, cs := breakStack, continueStack;
      ghost var a0 := State();
      VisitOperands(s.c);
      ghost var a1 := State();
      var otherwise := Reserve();
      ghost var a2 := State();
      var end := Reserve();
      ghost var a3 := State();
      Jump(ToBranch(LeaveKind(s.c)), otherwise);
      ghost var a4 := State();
      ok := VisitB(s.t);
      if !ok { return; }
      ghost var a5 := State();
      Jump(ToBranch(Always), end);
      ghost var a6 := State();
      Place(otherwise);
      ghost var a7 := State();
      ok := VisitB(s.f);
      if !ok { return; }
      ghost var a8 := State();
      Place(end);
      ghost var a9 := State();
      JoinIfElse(s, otherwise, end, bs, cs, a0, a1, a2, a3, a4, a5, a6, a7, a8, a9);
    }

    method VisitUnless(s: Stmt) returns (ok: bool)
      requires s.Unless? && Valid()
      modifies this, assembler
      ensures bodies == old(bodies)
      ensures ok <==> Closed(s, |old(breakStack)| > 0, |old(continueStack)| > 0)
      ensures ok ==> Tidy(FunsS(s, extra)) && EmitsS(old(State()), State(), s, breakStack, continueStack)
      decreases s, 0
    {
      hide Fetch, AllOK, Completes, Fits, Weight, Later, LayS, LayC, SizeC, SizeE, SizeB, SizeS, SizeL, EmitsE,
          EmitsB, EmitsJump, Marks, Extends, EmitsOperands, EmitsS, LeaveKind, State, Assembler.State;
      ghost var bs, cs := breakStack, continueStack;
      ghost var a0 := State();
      VisitE(s.c);
      ghost var a1 := State();
      var end := Reserve();
      ghost var a2 := State();
      Jump(ToBranch(IfTrue), end);
      ghost var a3 := State();
      ok := VisitB(s.t);
      if !ok { return; }
      ghost var a4 := State();
      Place(end);
      ghost var a5 := State();
      JoinUnless(s, end, bs, cs, a0, a1, a2, a3, a4, a5);
    }

    method VisitUnlessElse(s: Stmt) returns (ok: bool)
      requires s.UnlessElse? && Valid()
      modifies this, assembler
      ensures bodies == old(bodies)
      ensures ok <==> Closed(s, |old(breakStack)| > 0, |old(continueStack)| > 0)
      ensures ok ==> Tidy(FunsS(s, extra)) && EmitsS(old(State()), State(), s, breakStack, continueStack)
      decreases s, 0
    {
      hide Fetch, AllOK, Completes, Fits, Weight, Later, LayS, LayC, SizeC, SizeE, SizeB, SizeS, SizeL, EmitsE,
          EmitsB, EmitsJump, Marks, Extends, EmitsOperands, EmitsS, LeaveKind, Closed, ClosedL, FunsS, FunsE, FunsL,
              State, Assembler.State;
      ElseShape(s, |breakStack| > 0, |continueStack| > 0);
      ghost var bs, cs := breakStack, continueStack;
      ghost var a0 := State();
      VisitE(s.c);
      ghost var a1 := State();
      var otherwise := Reserve();
      ghost var a2 := State();
      var end := Reserve();
      ghost var a3 := State();
      Jump(ToBranch(IfTrue), otherwise);
      ghost var a4 := State();
      ok := VisitB(s.t);
      if !ok { return; }
      ghost var a5 := State();
      Jump(ToBranch(Always), end);
      ghost var a6 := State();
      Place(otherwise);
      ghost var a7 := State();
      ok := VisitB(s.f);
      if !ok { return; }
      ghost var a8 := State();
      Place(end);
      ghost var a9 := State();
      JoinUnlessElse(s, otherwise, end, bs, cs, a0, a1, a2, a3, a4, a5, a6, a7, a8, a9);
    }

    method VisitWhile(s: Stmt) returns (ok: bool)
      requires s.While? && Valid()
      modifies this, assembler
      ensures bodies == old(bodies)
      ensures ok <==> Closed(s, |old(breakStack)| > 0, |old(continueStack)| > 0)
      ensures ok ==> Tidy(FunsS(s, extra)) && EmitsS(old(State()), State(), s, breakStack, continueStack)
      decreases s, 0
    {
      hide Fetch, AllOK, Completes, Fits, Weight, Later, LayS, LayC, SizeC, SizeE, SizeB, SizeS, SizeL, EmitsE,
          EmitsB, EmitsJump, Marks, Extends, EmitsOperands, EmitsS, LeaveKind, Closed, ClosedL, FunsS, FunsE, FunsL,
              State, Assembler.State;
      LoopShape(s, |breakStack| > 0, |continueStack| > 0);
      ghost var bs, cs := breakStack, continueStack;
      ghost var a0 := State();
      var again := Reserve();
      ghost var a1 := State();
      Place(again);
      ghost var a2 := State();
      var leave := Reserve();
      ghost var a3 := State();
      VisitOperands(s.c);
      ghost var a4 := State();
      Jump(ToBranch(LeaveKind(s.c)), leave);
      ghost var a5 := State();
      ok := VisitBody(s.b, leave, again);
      if !ok { return; }
      ghost var a6 := State();
      Jump(ToBranch(Always), again);
      ghost var a7 := State();
      Place(leave);
      ghost var a8 := State();
      JoinWhile(s, again, leave, bs, cs, a0, a1, a2, a3, a4, a5, a6, a7, a8);
    }

    method VisitUntil(s: Stmt) returns (ok: bool)
      requires s.Until? && Valid()
      modifies this, assembler
      ensures bodies == old(bodies)
      ensures ok <==> Closed(s, |old(breakStack)| > 0, |old(continueStack)| > 0)
      ensures ok ==> Tidy(FunsS(s, extra)) && EmitsS(old(State()), State(), s, breakStack, continueStack)
      decreases s, 0
    {
      hide Fetch, AllOK, Completes, Fits, Weight, Later, LayS, LayC, SizeC, SizeE, SizeB, SizeS, SizeL, EmitsE,
          EmitsB, EmitsJump, Marks, Extends, EmitsOperands, EmitsS, LeaveKind, Closed, ClosedL, FunsS, FunsE, FunsL,
              State, Assembler.State;
      LoopShape(s, |breakStack| > 0, |continueStack| > 0);
      ghost var bs, cs := breakStack, continueStack;
      ghost var a0 := State();
      var again := Reserve();
      ghost var a1 := State();
      Place(again);
      ghost var a2 := State();
      var leave := Reserve();
      ghost var a3 := State();
      VisitE(s.c);
      ghost var a4 := State();
      Jump(ToBranch(IfTrue), leave);
      ghost var a5 := State();
      ok := VisitBody(s.b, leave, again);
      if !ok { return; }
      ghost var a6 := State();
      Jump(ToBranch(Always), again);
      ghost var a7 := State();
      Place(leave);
      ghost var a8 := State();
      JoinUntil(s, again, leave, bs, cs, a0, a1, a2, a3, a4, a5, a6, a7, a8);
    }

    method VisitLoop(s: Stmt) returns (ok: bool)
      requires s.Loop? && Valid()
      modifies this, assembler
      ensures bodies == old(bodies)
      ensures ok <==> Closed(s, |old(breakStack)| > 0, |old(continueStack)| > 0)
      ensures ok ==> Tidy(FunsS(s, extra)) && EmitsS(old(State()), State(), s, breakStack, continueStack)
      decreases s, 0
    {
      hide Fetch, AllOK, Completes, Fits, Weight, Later, LayS, LayC, SizeC, SizeE, SizeB, SizeS, SizeL, EmitsE,
          EmitsB, EmitsJump, Marks, Extends, EmitsOperands, EmitsS, LeaveKind, State, Assembler.State;
      ghost var bs, cs := breakStack, continueStack;
      ghost var a0 := State();
      var again := Reserve();
      ghost var a1 := State();
      Place(again);
      ghost var a2 := State();
      var leave := Reserve();
      ghost var a3 := State();
      ok := VisitBody(s.b, leave, again);
      if !ok { return; }
      ghost var a4 := State();
      Jump(ToBranch(Always), again);
      ghost var a5 := State();
      Place(leave);
      ghost var a6 := State();
      JoinLoop(s, again, leave, bs, cs, a0, a1, a2, a3, a4, a5, a6);
    }

    method VisitDoWhile(s: Stmt) returns (ok: bool)
      requires s.DoWhile? && Valid()
      modifies this, assembler
      ensures bodies == old(bodies)
      ensures ok <==> Closed(s, |old(breakStack)| > 0, |old(continueStack)| > 0)
      ensures ok ==> Tidy(FunsS(s, extra)) && EmitsS(old(State()), State(), s, breakStack, continueStack)
      decreases s, 0
    {
      hide Fetch, AllOK, Completes, Fits, Weight, Later, LayS, LayC, SizeC, SizeE, SizeB, SizeS, SizeL, EmitsE,
          EmitsB, EmitsJump, Marks, Extends, EmitsOperands, EmitsS, LeaveKind, Closed, ClosedL, FunsS, FunsE, FunsL,
              State, Assembler.State;
      LoopShape(s, |breakStack| > 0, |continueStack| > 0);
      ghost var bs, cs := breakStack, continueStack;
      ghost var a0 := State();
      ghost var open0 := open;
      var again := Reserve();
      ghost var a1 := State();
      var test := Reserve();
      ghost var a2 := State();
      var leave := Reserve();
      ghost var a3 := State();
      Place(again);
      ghost var a4 := State();
      ok := VisitBody(s.b, leave, test);
      if !ok { return; }
      ghost var a5 := State();
      Place(test);
      ghost var a6 := State();
      VisitOperands(s.c);
      ghost var a7 := State();
      Jump(ToBranch(LeaveKind(s.c)), leave);
      ghost var a8 := State();
      Jump(ToBranch(Always), again);
      ghost var a9 := State();
      Place(leave);
      ghost var a10 := State();
      ThreeLabels(open0, again, test, leave);
      JoinDoWhile(s, again, test, leave, bs, cs, a0, a1, a2, a3, a4, a5, a6, a7, a8, a9, a10);
    }

    method VisitDoUntil(s: Stmt) returns (ok: bool)
      requires s.DoUntil? && Valid()
      modifies this, assembler
      ensures bodies == old(bodies)
      ensures ok <==> Closed(s, |old(breakStack)| > 0, |old(continueStack)| > 0)
      ensures ok ==> Tidy(FunsS(s, extra)) && EmitsS(old(State()), State(), s, breakStack, continueStack)
      decreases s, 0
    {
      hide Fetch, AllOK, Completes, Fits, Weight, Later, LayS, LayC, SizeC, SizeE, SizeB, SizeS, SizeL, EmitsE,
          EmitsB, EmitsJump, Marks, Extends, EmitsOperands, EmitsS, LeaveKind, Closed, ClosedL, FunsS, FunsE, FunsL,
              State, Assembler.State;
      LoopShape(s, |breakStack| > 0, |continueStack| > 0);
      ghost var bs, cs := breakStack, continueStack;
      ghost var a0 := State();
      ghost var open0 := open;
      var again := Reserve();
      ghost var a1 := State();
      var test := Reserve();
      ghost var a2 := State();
      var leave := Reserve();
      ghost var a3 := State();
      Place(again);
      ghost var a4 := State();
      ok := VisitBody(s.b, leave, test);
      if !ok { return; }
      ghost var a5 := State();
      Place(test);
      ghost var a6 := State();
      VisitE(s.c);
      ghost var a7 := State();
      Jump(ToBranch(IfTrue), leave);
      ghost var a8 := State();
      Jump(ToBranch(Always), again);
      ghost var a9 := State();
      Place(leave);
      ghost var a10 := State();
      ThreeLabels(open0, again, test, leave);
      JoinDoUntil(s, again, test, leave, bs, cs, a0, a1, a2, a3, a4, a5, a6, a7, a8, a9, a10);
    }

    // ----- switch -----

    /** One case's conditions, each compared with a copy of the subject. */
    method VisitConditions(es: Exprs, l: Label)
      requires Valid() && l in open
      modifies this, assembler
      ensures Tidy(FunsA(es, extra)) && EmitsConds(old(State()), State(), es, l)
      decreases es, 2
    {
      hide Fetch, AllOK, Completes, Fits, Weight, State, Assembler.State, Later, LayE, SizeE, EmitsE, Emits,
          EmitsJump, EmitsConds, Extends, FunsE;
      ghost var a0 := State();
      match es
      case NoExprs => NoConditions(State(), es, l);
      case MoreExprs(e, t) =>
        Emit(Dup);
        ghost var a1 := State();
        VisitE(e);
        ghost var a2 := State();
        Emit(Operator(Eq));
        ghost var a3 := State();
        Jump(ToBranch(IfTrue), l);
        ghost var a4 := State();
        VisitConditions(t, l);
        JoinConds(es, l, a0, a1, a2, a3, a4, State());
    }

    /** The conditions of all cases; `ls` are the labels of the cases' blocks. */
    method VisitTests(cases: Cases) returns (ls: seq<Label>)
      requires Valid()
      modifies this, assembler
      ensures Valid() && breakStack == old(breakStack) && continueStack == old(continueStack) && visiting ==
          old(visiting) && bodies == old(bodies)
      ensures open == old(open) + Elems(ls) && Distinct(ls) && Elems(ls) !! old(open)
      ensures (forall l :: l in old(State().labels) ==> l in State().labels) && old(queued) <= queued
      ensures Weight(queued, extra) == old(Weight(queued, extra)) + FunsTests(cases, extra)
      ensures EmitsTests(old(State()), State(), cases, ls)
      decreases cases, 1
    {
      hide Fetch, Elems, Distinct, AllOK, Completes, Fits, Weight, State, Assembler.State, Later, EmitsConds,
          EmitsTests, Extends, FunsA;
      ghost var a0 := State();
      match cases
      case NoCases =>
        ls := [];
        NoTestsEmitted(a0, cases);
        NoElems();
      case MoreCases(conds, _, rest) =>
        var l := Reserve();
        ghost var a1 := State();
        VisitConditions(conds, l);
        ghost var a2 := State();
        var more := VisitTests(rest);
        ls := [l] + more;
        ElemsCons(ls);
        JoinTests(cases, ls, a0, a1, a2, State());
    }

    /** The blocks of all cases; each ends with a branch to the innermost break label. */
    method VisitBlocks(cases: Cases, ls: seq<Label>) returns (ok: bool)
      requires Valid() && |breakStack| > 0 && |ls| == CaseCount(cases) && Distinct(ls) && Elems(ls) <= open
      modifies this, assembler
      ensures bodies == old(bodies)
      ensures ok <==> ClosedCases(cases, |old(continueStack)| > 0)
      ensures ok ==> Valid() && breakStack == old(breakStack) && continueStack == old(continueStack)
      ensures ok ==> visiting == old(visiting)
      ensures ok ==> open == old(open) - Elems(ls)
      ensures ok ==> (forall l :: l in old(State().labels) ==> l in State().labels) && old(queued) <= queued
      ensures ok ==> Weight(queued, extra) == old(Weight(queued, extra)) + FunsBlocks(cases, extra)
      ensures ok ==> EmitsBlocks(old(State()), State(), cases, ls, breakStack, continueStack)
      decreases cases, 1
    {
      hide Fetch, Elems, Distinct, AllOK, Completes, Fits, Weight, State, Assembler.State, Later, EmitsB, Emits,
          EmitsJump, Marks, EmitsBlocks, Extends,
        FunsL, ClosedL;
      ghost var a0 := State();
      ghost var bs, cs := breakStack, continueStack;
      match cases
      case NoCases =>
        ok := true;
        NoBlocksEmitted(a0, cases, ls, bs, cs);
        NoElems();
      case MoreCases(_, b, rest) =>
        ElemsCons(ls);
        Place(ls[0]);
        ghost var a1 := State();
        Emit(Pop);
        ghost var a2 := State();
        ok := VisitB(b);
        if !ok { return; }
        ghost var a3 := State();
        PopOK(State(), queued, visiting, bodies, open, bs, cs);
        Jump(ToBranch(Always), breakStack[|breakStack| - 1]);
        ghost var a4 := State();
        ok := VisitBlocks(rest, ls[1..]);
        if !ok { return; }
        JoinBlocks(cases, ls, bs, cs, a0, a1, a2, a3, a4, State());
    }

    /** Everything after the conditions, with the switch's end as the innermost break label. */
    method VisitChoices(s: Stmt, ls: seq<Label>, default: Label) returns (ok: bool)
      requires s.Switch? && Valid() && |breakStack| > 0
      requires |ls| == CaseCount(s.cases) && Distinct(ls) && default !in Elems(ls) && default in open &&
          Elems(ls) <= open
      modifies this, assembler
      ensures bodies == old(bodies)
      ensures ok <==>
        ClosedCases(s.cases, |old(continueStack)| > 0) && ClosedO(s.otherwise, true, |old(continueStack)| > 0)
      ensures ok ==> Valid() && breakStack == old(breakStack) && continueStack == old(continueStack)
      ensures ok ==> visiting == old(visiting)
      ensures ok ==> open == old(open) - Elems(ls) - {default}
      ensures ok ==> (forall l :: l in old(State().labels) ==> l in State().labels) && old(queued) <= queued
      ensures ok ==>
        Weight(queued, extra) == old(Weight(queued, extra)) + FunsBlocks(s.cases, extra) + FunsO(s.otherwise, extra)
      ensures ok ==> EmitsChoices(old(State()), State(), s, ls, breakStack, continueStack)
      decreases s, 0
    {
      hide Fetch, Elems, Distinct, AllOK, Completes, Fits, Weight, State, Assembler.State, Later, EmitsO, Emits,
          EmitsJump, Marks, EmitsBlocks, EmitsChoices,
        Extends, FunsBlocks, FunsO, ClosedCases, ClosedO;
      ghost var a0 := State();
      ghost var bs, cs := breakStack, continueStack;
      if s.cases.MoreCases? {
        Jump(ToBranch(Always), default);
      }
      ghost var a1 := State();
      ok := VisitBlocks(s.cases, ls);
      if !ok { return; }
      ghost var a2 := State();
      Place(default);
      ghost var a3 := State();
      Emit(Pop);
      ghost var a4 := State();
      ok := VisitO(s.otherwise);
      if !ok { return; }
      JoinChoices(s, ls, default, bs, cs, a0, a1, a2, a3, a4, State());
    }

    /** The switch up to its end label, which is the innermost break label inside. */
    method VisitSubject(s: Stmt, end: Label, default: Label) returns (ok: bool)
      requires s.Switch? && Valid() && end in open && default in open && end != default
      modifies this, assembler
      ensures bodies == old(bodies)
      ensures ok <==> Closed(s, |old(breakStack)| > 0, |old(continueStack)| > 0)
      ensures ok ==> Valid() && breakStack == old(breakStack) && continueStack == old(continueStack)
      ensures ok ==> visiting == old(visiting)
      ensures ok ==> open == old(open) - {default} && old(queued) <= queued
      ensures ok ==> forall l :: l in old(State().labels) ==> l in State().labels
      ensures ok ==> Weight(queued, extra) == old(Weight(queued, extra)) + FunsS(s, extra)
      ensures ok ==> EmitsSubject(old(State()), State(), s, breakStack + [end], continueStack)
      decreases s, 1
    {
      hide Fetch, Elems, Distinct, AllOK, Completes, Fits, Weight, State, Assembler.State, Later, EmitsE,
          EmitsSubject, EmitsTests, EmitsChoices, Extends,
        FunsS, FunsE, FunsTests, FunsBlocks, FunsO, Closed, ClosedCases, ClosedO;
      SwitchShape(s, |breakStack| > 0, |continueStack| > 0);
      ghost var open0 := open;
      ghost var a0 := State();
      PushOK(State(), queued, visiting, bodies, open, breakStack, continueStack, end, end);
      breakStack := breakStack + [end];
      VisitE(s.c);
      ghost var a1 := State();
      var ls := VisitTests(s.cases);
      ghost var a2 := State();
      TestsCount(a1, a2, s.cases, ls);
      ok := VisitChoices(s, ls, default);
      if !ok { return; }
      JoinSubject(s, ls, breakStack, continueStack, a0, a1, a2, State());
      PopOK(State(), queued, visiting, bodies, open, breakStack, continueStack);
      breakStack := breakStack[..|breakStack| - 1];
      SwitchLabels(open0, default, ls);
    }

    method VisitSwitch(s: Stmt) returns (ok: bool)
      requires s.Switch? && Valid()
      modifies this, assembler
      ensures bodies == old(bodies)
      ensures ok <==> Closed(s, |old(breakStack)| > 0, |old(continueStack)| > 0)
      ensures ok ==> Tidy(FunsS(s, extra)) && EmitsS(old(State()), State(), s, breakStack, continueStack)
      decreases s, 2
    {
      hide Fetch, AllOK, Completes, Fits, Weight, State, Assembler.State, Later, EmitsS, Marks, EmitsSubject,
          Extends, FunsS, Closed;
      ghost var bs, cs := breakStack, continueStack;
      ghost var a0 := State();
      var end := Reserve();
      ghost var a1 := State();
      var default := Reserve();
      ghost var a2 := State();
      ok := VisitSubject(s, end, default);
      if !ok { return; }
      ghost var a3 := State();
      Place(end);
      JoinSwitch(s, end, bs, cs, a0, a1, a2, a3, State());
    }

    // ----- try -----

    /** The guarded block, from the registration of its table to the branch past the handler. */
    method VisitGuarded(t: Stmts, handler: Label, finally: Label) returns (ok: bool)
      requires Valid() && handler in open && finally in open
      modifies this, assembler
      ensures bodies == old(bodies)
      ensures ok <==> ClosedL(t, |old(breakStack)| > 0, |old(continueStack)| > 0)
      ensures ok ==> Tidy(FunsL(t, extra))
      ensures ok ==> EmitsTry(old(State()), State(), t, handler, finally, breakStack, continueStack)
      decreases t, 3
    {
      hide Fetch, AllOK, Completes, Fits, Weight, State, Assembler.State, Later, LayS, LayE, LayB, SizeE, SizeB,
          SizeS, SizeL, SizeConds, EmitsE, EmitsB, EmitsO, Emits, EmitsJump, Marks, Extends, EmitsS, EmitsTry,
              EmitsRethrow, Closed, ClosedL, ClosedO, FunsS, FunsE, FunsL, FunsO;
      ghost var bs, cs := breakStack, continueStack;
      ghost var a0 := State();
      Jump(ToHandler, handler);
      ghost var a1 := State();
      ok := VisitB(t);
      if !ok { return; }
      ghost var a2 := State();
      Emit(PopCatchTable);
      ghost var a3 := State();
      Jump(ToBranch(Always), finally);
      JoinTry(t, handler, finally, bs, cs, a0, a1, a2, a3, State());
    }

    method VisitTryCatch(s: Stmt) returns (ok: bool)
      requires s.TryCatch? && Valid()
      modifies this, assembler
      ensures bodies == old(bodies)
      ensures ok <==> Closed(s, |old(breakStack)| > 0, |old(continueStack)| > 0)
      ensures ok ==> Tidy(FunsS(s, extra)) && EmitsS(old(State()), State(), s, breakStack, continueStack)
      decreases s, 0
    {
      hide Fetch, AllOK, Completes, Fits, Weight, State, Assembler.State, Later, LayS, LayE, LayB, SizeE, SizeB,
          SizeS, SizeL, SizeConds, EmitsE, EmitsB, EmitsO, Emits, EmitsJump, Marks, Extends, EmitsS, EmitsTry,
              EmitsRethrow, Closed, ClosedL, ClosedO, FunsS, FunsE, FunsL, FunsO;
      TryShape(s, |breakStack| > 0, |continueStack| > 0);
      ghost var bs, cs := breakStack, continueStack;
      ghost var a0 := State();
      var handler := Reserve();
      ghost var a1 := State();
      var finally := Reserve();
      ghost var a2 := State();
      ok := VisitGuarded(s.b, handler, finally);
      if !ok { return; }
      ghost var a3 := State();
      Place(handler);
      ghost var a4 := State();
      Emit(SetLocal(s.exc.index, s.exc.level));
      ghost var a5 := State();
      ok := VisitB(s.handler);
      if !ok { return; }
      ghost var a6 := State();
      Place(finally);
      ghost var a7 := State();
      ok := VisitO(s.fin);
      if !ok { return; }
      JoinTryCatch(s, handler, finally, bs, cs, a0, a1, a2, a3, a4, a5, a6, a7, State());
    }

    /** The landing pad of a try without handler: store, finally block, rethrow. */
    method VisitRethrow(t: Stmts, exc: Loc) returns (ok: bool)
      requires Valid()
      modifies this, assembler
      ensures bodies == old(bodies)
      ensures ok <==> ClosedL(t, |old(breakStack)| > 0, |old(continueStack)| > 0)
      ensures ok ==> Tidy(FunsL(t, extra)) && EmitsRethrow(old(State()), State(), t, exc, breakStack, continueStack)
      decreases t, 3
    {
      hide Fetch, AllOK, Completes, Fits, Weight, State, Assembler.State, Later, LayS, LayE, LayB, SizeE, SizeB,
          SizeS, SizeL, SizeConds, EmitsE, EmitsB, EmitsO, Emits, EmitsJump, Marks, Extends, EmitsS, EmitsTry,
              EmitsRethrow, Closed, ClosedL, ClosedO, FunsS, FunsE, FunsL, FunsO;
      ghost var bs, cs := breakStack, continueStack;
      ghost var a0 := State();
      Emit(SetLocal(exc.index, exc.level));
      ghost var a1 := State();
      ok := VisitB(t);
      if !ok { return; }
      ghost var a2 := State();
      Emit(ReadLocal(exc.index, exc.level));
      ghost var a3 := State();
      Emit(ThrowOp);
      JoinRethrow(t, exc, bs, cs, a0, a1, a2, a3, State());
    }

    /** The finally block is generated twice: before the rethrow and for normal completion. */
    method VisitTryFinally(s: Stmt) returns (ok: bool)
      requires s.TryFinally? && Valid()
      modifies this, assembler
      ensures bodies == old(bodies)
      ensures ok <==> Closed(s, |old(breakStack)| > 0, |old(continueStack)| > 0)
      ensures ok ==> Tidy(FunsS(s, extra)) && EmitsS(old(State()), State(), s, breakStack, continueStack)
      decreases s, 0
    {
      hide Fetch, AllOK, Completes, Fits, Weight, State, Assembler.State, Later, LayS, LayE, LayB, SizeE, SizeB,
          SizeS, SizeL, SizeConds, EmitsE, EmitsB, EmitsO, Emits, EmitsJump, Marks, Extends, EmitsS, EmitsTry,
              EmitsRethrow, Closed, ClosedL, ClosedO, FunsS, FunsE, FunsL, FunsO;
      TryShape(s, |breakStack| > 0, |continueStack| > 0);
      ghost var bs, cs := breakStack, continueStack;
      ghost var a0 := State();
      var handler := Reserve();
      ghost var a1 := State();
      var finally := Reserve();
      ghost var a2 := State();
      ok := VisitGuarded(s.b, handler, finally);
      if !ok { return; }
      ghost var a3 := State();
      Place(handler);
      ghost var a4 := State();
      ok := VisitRethrow(s.finalizer, s.exc);
      if !ok { return; }
      ghost var a5 := State();
      Place(finally);
      ghost var a6 := State();
      ok := VisitB(s.finalizer);
      if !ok { return; }
      JoinTryFinally(s, handler, finally, bs, cs, a0, a1, a2, a3, a4, a5, a6, State());
    }

    /** Between functions: no label is open and no loop is entered. */
    ghost predicate Idle()
      reads this, assembler
    {
      Valid() && visiting == 0 && open == {} && breakStack == [] && continueStack == []
    }

    /** Generates the body of the first queued function and takes it off the queue. */
    method VisitQueued(ghost s: Stmt) returns (ok: bool)
      requires Idle() && |queued| > 0 && Generated(State(), s, bodies) && ClosedBodies(bodies)
      modifies this, assembler
      ensures ok <==> ClosedBodies(bodies)
      ensures !ok ==> old(Weight(queued, extra)) > extra
      ensures ok ==> Idle() && Generated(State(), s, bodies) && Weight(queued, extra) < old(Weight(queued, extra))
    {
      hide Fetch, AllOK, Completes, Fits, InstructionLength, Weight, WF, ClosedL, Generated, EmitsB, Marks, FunsL,
          Placed;
      var q := queued[0];
      ghost var a := State();
      ghost var before := bodies;
      InsideBuffer(a, s, bodies);
      QueueStart(a, queued, bodies);
      WeightFront(queued, extra);
      PlacedMarks(a, q.id);
      assembler.PlaceLabel(q.id);
      visiting := 1;
      bodies := bodies[|a.buffer| := q.func];
      ghost var a1 := State();
      ok := VisitB(q.func.body);
      assert bodies[|a.buffer|] == q.func;
      if !ok { return; }
      BodyGenerated(a, a1, State(), s, q, before, bodies);
      QueuePop(State(), queued, bodies);
      WeightFront(queued, extra);
      queued := queued[1..];
      visiting := 0;
    }

    /**
     * Generates the root statement and then every queued function body. Fails exactly when
     * some break or continue has no target. Otherwise the resolved buffer is the layout of
     * the whole program, no reference is left, and walking it by instruction lengths
     * visits exactly the written instructions, which all labels point at.
     */
    method Compile(s: Stmt) returns (ok: bool)
      requires Idle() && State() == Asm([], map[], [], 0, map[], []) && bodies == map[] && queued == []
      modifies this, assembler
      ensures ok <==> Closed(s, false, false) && ClosedBodies(bodies)
      ensures Closed(s, false, false) && FunsS(s, extra) <= extra ==> ok
      ensures ok && |assembler.buffer| < INT32_LIMIT ==>
        LayS(Program(assembler.buffer, bodies), s, 0, -1, -1) && BodiesLaid(Program(assembler.buffer, bodies))
      ensures ok ==> assembler.unresolved == [] && Walk(assembler.buffer, 0) == Some(assembler.starts)
      ensures ok ==> forall l :: l in assembler.labels ==>
        assembler.labels[l] == |assembler.buffer| || assembler.labels[l] in assembler.starts
    {
      hide Fetch, AllOK, Completes, Fits, InstructionLength, Weight, WF, LayS, SizeS, Walk, Closed, ClosedL, LayB,
          SizeB, Later,
        Generated, EmitsS, EmitsB, Extends, Patched, Unplaced;
      ghost var a0 := State();
      ok := VisitS(s);
      if !ok { return; }
      StartGenerated(a0, State(), s);
      WeightNone(extra);
      while |queued| > 0
        invariant Idle() && Generated(State(), s, bodies) && Closed(s, false, false) && ClosedBodies(bodies)
        invariant Weight(queued, extra) <= FunsS(s, extra)
        decreases Weight(queued, extra)
      {
        ok := VisitQueued(s);
        if !ok { return; }
      }
      ghost var b := State();
      AllPlaced(b, bodies);
      assembler.ResolveUnresolvedLabelReferences();
      UnplacedEmpty(b.pending, b.labels);
      Finished(b, assembler.buffer, s, bodies);
    }
  }
}
