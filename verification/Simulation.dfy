/**
 * The machine simulates the evaluator: whatever a tree evaluates to, stepping the machine
 * over the tree's code reaches, from every related state and operand stack. Each
 * construct has a lemma that opens its layout and its evaluation equation, and a lemma
 * that strings the runs of its parts together.
 */
module Simulation {
  import opened Values
  import opened Syntax
  import opened Bytecode
  import opened Layout
  import opened Semantics
  import opened VirtualMachine
  import opened Relation

  // ----- expressions -----

  lemma SimE(c: Program, e: Expr, p: nat, cur: nat, st: State, k: nat, m: Machine) returns (n: nat, m': Machine)
    requires BodiesLaid(c) && LayE(c, e, p) && Live(c, cur, st, m) && m.ip == p
    ensures Sim(c, m, Eval(Compiled, e, cur, st, k), n, m', p + SizeE(e), 0, 0, k)
    decreases k, 1, e, 2
  {
    hide *;
    match e
    case Lit(v) => n, m' := SimLit(c, e, p, cur, st, k, m);
    case Var(loc) => n, m' := SimVar(c, e, p, cur, st, k, m);
    case Un(op, a) => n, m' := SimUn(c, e, p, cur, st, k, m);
    case Bin(op, l, r) => n, m' := SimBin(c, e, p, cur, st, k, m);
    case And(l, r) => n, m' := SimShort(c, e, l, r, UnlessTrue, p, cur, st, k, m);
    case Or(l, r) => n, m' := SimShort(c, e, l, r, IfTrue, p, cur, st, k, m);
    case Ternary(d, t, f) => n, m' := SimTernary(c, e, p, cur, st, k, m);
    case Assign(loc, a) => n, m' := SimAssign(c, e, p, cur, st, k, m);
    case Call(f, args) => n, m' := SimCall(c, e, p, cur, st, k, m);
    case Fn(f) => n, m' := SimFn(c, e, p, cur, st, k, m);
    case Length(a) => n, m' := SimLength(c, e, p, cur, st, k, m);
    case ArgAt(i, up) => n, m' := SimArgAt(c, e, p, cur, st, k, m);
  }

  lemma SimLit(c: Program, e: Expr, p: nat, cur: nat, st: State, k: nat, m: Machine) returns (n: nat, m': Machine)
    requires e.Lit? && LayE(c, e, p) && Live(c, cur, st, m) && m.ip == p
    ensures Sim(c, m, Eval(Compiled, e, cur, st, k), n, m', p + SizeE(e), 0, 0, k)
  {
    hide Step, Steps, Fetch, Rel, CatchesOK, Handlers, Apply;
    Begin(c, cur, st, m);
    m' := GoPut(c, cur, st, m, 0, m, e.v);
    n := 1;
    Arrived(c, cur, m, n, m', Val(e.v, st), p + 9, 0, 0, k);
  }

  lemma SimVar(c: Program, e: Expr, p: nat, cur: nat, st: State, k: nat, m: Machine) returns (n: nat, m': Machine)
    requires e.Var? && LayE(c, e, p) && Live(c, cur, st, m) && m.ip == p
    ensures Sim(c, m, Eval(Compiled, e, cur, st, k), n, m', p + SizeE(e), 0, 0, k)
  {
    hide Step, Steps, Fetch, Rel, CatchesOK, Handlers, Apply, Read;
    n, m' := 0, m;
    if Read(st, cur, e.loc).Some? {
      Begin(c, cur, st, m);
      m' := GoRead(c, cur, st, m, 0, m, e.loc);
      n := 1;
      Arrived(c, cur, m, n, m', Val(Read(st, cur, e.loc).value, st), p + 9, 0, 0, k);
    }
  }

  lemma SimFn(c: Program, e: Expr, p: nat, cur: nat, st: State, k: nat, m: Machine) returns (n: nat, m': Machine)
    requires e.Fn? && LayE(c, e, p) && Live(c, cur, st, m) && m.ip == p
    ensures Sim(c, m, Eval(Compiled, e, cur, st, k), n, m', p + SizeE(e), 0, 0, k)
  {
    hide Step, Steps, Fetch, Rel, CatchesOK, Handlers, Apply;
    Begin(c, cur, st, m);
    m' := GoFunction(c, cur, st, m, 0, m, e.func);
    n := 1;
    Arrived(c, cur, m, n, m', Eval(Compiled, e, cur, st, k), p + 27, 0, 0, k);
  }

  lemma SimArgAt(c: Program, e: Expr, p: nat, cur: nat, st: State, k: nat, m: Machine) returns (n: nat, m': Machine)
    requires e.ArgAt? && LayE(c, e, p) && Live(c, cur, st, m) && m.ip == p
    ensures Sim(c, m, Eval(Compiled, e, cur, st, k), n, m', p + SizeE(e), 0, 0, k)
  {
    hide Step, Steps, Fetch, Rel, CatchesOK, Handlers, Apply, Read;
    n, m' := 0, m;
    var r := Eval(Compiled, e, cur, st, k);
    if r.Val? {
      Begin(c, cur, st, m);
      var m1 := GoRead(c, cur, st, m, 0, m, Loc(0, e.up));
      m' := GoElement(c, cur, st, m, 1, m1, e.i, m.stack, Read(st, cur, Loc(0, e.up)).value);
      n := 2;
      Arrived(c, cur, m, n, m', r, p + 14, 0, 0, k);
    }
  }

  lemma OpenUn(c: Program, e: Expr, p: nat, cur: nat, st: State, k: nat)
    requires e.Un? && LayE(c, e, p)
    ensures LayE(c, e.e, p) && Fetch(c.code, p + SizeE(e.e)) == Some(UnaryOperator(e.uop)) && SizeE(e) == SizeE(e.e) + 1
    ensures var r := Eval(Compiled, e.e, cur, st, k);
            OfExpr(r) && Eval(Compiled, e, cur, st, k) == if r.Val? then Val(Unary(e.uop, r.v), r.st) else r
  {
    hide Fetch;
  }

  lemma SimUn(c: Program, e: Expr, p: nat, cur: nat, st: State, k: nat, m: Machine) returns (n: nat, m': Machine)
    requires e.Un? && BodiesLaid(c) && LayE(c, e, p) && Live(c, cur, st, m) && m.ip == p
    ensures Sim(c, m, Eval(Compiled, e, cur, st, k), n, m', p + SizeE(e), 0, 0, k)
    decreases k, 1, e, 0
  {
    hide Step, Steps, Fetch, Rel, CatchesOK, Handlers, Apply, Eval, LayE, BodiesLaid, Via, Live, Sim, SizeE, Unary;
    OpenUn(c, e, p, cur, st, k);
    n, m' := SimE(c, e.e, p, cur, st, k, m);
    var r := Eval(Compiled, e.e, cur, st, k);
    if r.Val? {
      ValueOf(c, cur, st, m, r, n, m', p + SizeE(e.e), 0, 0, k);
      m' := GoUnary(c, cur, r.st, m, n, m', e.uop, m.stack, r.v);
      n := n + 1;
      Arrived(c, cur, m, n, m', Val(Unary(e.uop, r.v), r.st), p + SizeE(e), 0, 0, k);
    } else {
      Relabel(c, m, r, n, m', p + SizeE(e.e), 0, 0, k, p + SizeE(e), 0, 0);
    }
  }

  /** Both operands of a binary operator or comparison end up one above the other. */
  ghost predicate Pair(c: Program, cur: nat, m: Machine, r1: Res, r2: Res, n: nat, m': Machine, end: int, k: nat) {
    if !r1.Val? then Sim(c, m, r1, n, m', end, 0, 0, k)
    else if !r2.Val? then Sim(c, m, r2, n, m', end, 0, 0, k)
    else Via(c, m, n, m') && Live(c, cur, r2.st, m') && m'.ip == end && m'.stack == m.stack + [r1.v, r2.v]
  }

  function Second(e: Expr, cur: nat, r1: Res, k: nat): Res {
    if r1.Val? then Eval(Compiled, e, cur, r1.st, k) else r1
  }

  lemma SimTwo(c: Program, e: Expr, p: nat, cur: nat, st: State, k: nat, m: Machine)
    returns (n: nat, m': Machine)
    requires e.Bin? && BodiesLaid(c) && LayE(c, e.l, p) && LayE(c, e.r, p + SizeE(e.l))
    requires Live(c, cur, st, m) && m.ip == p
    ensures var r1 := Eval(Compiled, e.l, cur, st, k);
            Pair(c, cur, m, r1, Second(e.r, cur, r1, k), n, m', p + SizeE(e.l) + SizeE(e.r), k)
    decreases k, 1, e, 0
  {
    hide Step, Steps, Fetch, Rel, CatchesOK, Handlers, Apply, Eval, LayE, BodiesLaid, Live, Via, Sim, SizeE;
    var r1 := Eval(Compiled, e.l, cur, st, k);
    n, m' := SimE(c, e.l, p, cur, st, k, m);
    if r1.Val? {
      ValueOf(c, cur, st, m, r1, n, m', p + SizeE(e.l), 0, 0, k);
      var r2 := Eval(Compiled, e.r, cur, r1.st, k);
      var n2, m2 := SimE(c, e.r, p + SizeE(e.l), cur, r1.st, k, m');
      if r2.Val? {
        ValueOf(c, cur, r1.st, m', r2, n2, m2, p + SizeE(e.l) + SizeE(e.r), 0, 0, k);
        Compose(c, m, n, m', n2, m2);
      } else {
        After(c, m, n, m', r2, n2, m2, p + SizeE(e.l) + SizeE(e.r), 0, 0, k, k);
      }
      n, m' := n + n2, m2;
    } else {
      Relabel(c, m, r1, n, m', p + SizeE(e.l), 0, 0, k, p + SizeE(e.l) + SizeE(e.r), 0, 0);
    }
  }

  lemma OpenBin(c: Program, e: Expr, p: nat)
    requires e.Bin? && LayE(c, e, p)
    ensures LayE(c, e.l, p) && LayE(c, e.r, p + SizeE(e.l))
    ensures Fetch(c.code, p + SizeE(e.l) + SizeE(e.r)) == Some(Operator(e.op)) && SizeE(e) ==
        SizeE(e.l) + SizeE(e.r) + 1
  {
    hide Fetch;
  }

  lemma EvalBin(e: Expr, cur: nat, st: State, k: nat)
    requires e.Bin?
    ensures var r1 := Eval(Compiled, e.l, cur, st, k);
            var r2 := Second(e.r, cur, r1, k);
            OfExpr(r1) && OfExpr(r2) && Eval(Compiled, e, cur, st, k) ==
              if !r1.Val? then r1
              else if !r2.Val? then r2
              else if Binary(e.op, r1.v, r2.v).Some? then Val(Binary(e.op, r1.v, r2.v).value, r2.st) else Stuck
  {
    hide Binary;
  }

  lemma SimBin(c: Program, e: Expr, p: nat, cur: nat, st: State, k: nat, m: Machine) returns (n: nat, m': Machine)
    requires e.Bin? && BodiesLaid(c) && LayE(c, e, p) && Live(c, cur, st, m) && m.ip == p
    ensures Sim(c, m, Eval(Compiled, e, cur, st, k), n, m', p + SizeE(e), 0, 0, k)
    decreases k, 1, e, 1
  {
    hide Step, Steps, Fetch, Rel, CatchesOK, Handlers, Apply, Eval, LayE, BodiesLaid, Live, Via, SizeE,
      Binary, Second;
    OpenBin(c, e, p);
    EvalBin(e, cur, st, k);
    n, m' := SimTwo(c, e, p, cur, st, k, m);
    var r1 := Eval(Compiled, e.l, cur, st, k);
    var r2 := Second(e.r, cur, r1, k);
    if r1.Val? && r2.Val? && Binary(e.op, r1.v, r2.v).Some? {
      m' := GoOperator(c, cur, r2.st, m, n, m', e.op, m.stack, r1.v, r2.v);
      n := n + 1;
      Arrived(c, cur, m, n, m', Val(Binary(e.op, r1.v, r2.v).value, r2.st), p + SizeE(e), 0, 0, k);
    }
  }

  lemma OpenShort(c: Program, e: Expr, l: Expr, r: Expr, kind: BranchKind, p: nat, cur: nat, st: State, k: nat)
    requires (e == And(l, r) && kind == UnlessTrue) || (e == Or(l, r) && kind == IfTrue)
    requires LayE(c, e, p)
    ensures var q := p + SizeE(l);
      LayE(c, l, p) && Fetch(c.code, q) == Some(Dup) && Goes(c, q + 1, kind, q + 7 + SizeE(r)) &&
      Fetch(c.code, q + 6) == Some(Pop) && LayE(c, r, q + 7) && SizeE(e) == SizeE(l) + 7 + SizeE(r)
    ensures var r1 := Eval(Compiled, l, cur, st, k);
      OfExpr(r1) && Eval(Compiled, e, cur, st, k) ==
        if !r1.Val? then r1
        else if Truthy(r1.v) == (kind == UnlessTrue) then Eval(Compiled, r, cur, r1.st, k) else Val(r1.v, r1.st)
  {
    hide Fetch;
  }

  lemma SimShort(c: Program, e: Expr, l: Expr, r: Expr, kind: BranchKind, p: nat, cur: nat, st: State, k: nat,
      m: Machine)
    returns (n: nat, m': Machine)
    requires (e == And(l, r) && kind == UnlessTrue) || (e == Or(l, r) && kind == IfTrue)
    requires BodiesLaid(c) && LayE(c, e, p) && Live(c, cur, st, m) && m.ip == p
    ensures Sim(c, m, Eval(Compiled, e, cur, st, k), n, m', p + SizeE(e), 0, 0, k)
    decreases k, 1, e, 0
  {
    hide Step, Steps, Fetch, Rel, CatchesOK, Handlers, Apply, Eval, LayE, BodiesLaid, Via, Live, Sim, SizeE,
      Goes, Truthy;
    OpenShort(c, e, l, r, kind, p, cur, st, k);
    var q, end := p + SizeE(l), p + SizeE(e);
    n, m' := SimE(c, l, p, cur, st, k, m);
    var r1 := Eval(Compiled, l, cur, st, k);
    if r1.Val? {
      ValueOf(c, cur, st, m, r1, n, m', q, 0, 0, k);
      m' := GoDup(c, cur, r1.st, m, n, m', m.stack, r1.v);
      assert m'.stack == (m.stack + [r1.v]) + [r1.v];
      m' := GoIf(c, cur, r1.st, m, n + 1, m', kind, end, m.stack + [r1.v], r1.v);
      if Truthy(r1.v) == (kind == UnlessTrue) {
        m' := GoPop(c, cur, r1.st, m, n + 2, m', m.stack, r1.v);
        var n2, m2 := SimE(c, r, q + 7, cur, r1.st, k, m');
        After(c, m, n + 3, m', Eval(Compiled, r, cur, r1.st, k), n2, m2, end, 0, 0, k, k);
        n, m' := n + 3 + n2, m2;
      } else {
        n := n + 2;
        Arrived(c, cur, m, n, m', Val(r1.v, r1.st), end, 0, 0, k);
      }
    } else {
      Relabel(c, m, r1, n, m', q, 0, 0, k, end, 0, 0);
    }
  }

  lemma OpenAssign(c: Program, e: Expr, p: nat, cur: nat, st: State, k: nat)
    requires e.Assign? && LayE(c, e, p)
    ensures LayE(c, e.e, p) && Fetch(c.code, p + SizeE(e.e)) == Some(SetLocalPush(e.loc.index, e.loc.level))
    ensures SizeE(e) == SizeE(e.e) + 9
    ensures var r := Eval(Compiled, e.e, cur, st, k);
      OfExpr(r) && Eval(Compiled, e, cur, st, k) ==
        if !r.Val? then r
        else if Write(r.st, cur, e.loc, r.v).Some? then Val(r.v, Write(r.st, cur, e.loc, r.v).value) else Stuck
  {
    hide Fetch, Write;
  }

  lemma SimAssign(c: Program, e: Expr, p: nat, cur: nat, st: State, k: nat, m: Machine) returns (n: nat, m': Machine)
    requires e.Assign? && BodiesLaid(c) && LayE(c, e, p) && Live(c, cur, st, m) && m.ip == p
    ensures Sim(c, m, Eval(Compiled, e, cur, st, k), n, m', p + SizeE(e), 0, 0, k)
    decreases k, 1, e, 0
  {
    hide Step, Steps, Fetch, Rel, CatchesOK, Handlers, Apply, Eval, LayE, BodiesLaid, Via, SizeE, Write, Kept,
      Landed, Grown;
    OpenAssign(c, e, p, cur, st, k);
    n, m' := SimE(c, e.e, p, cur, st, k, m);
    var r := Eval(Compiled, e.e, cur, st, k);
    if r.Val? {
      ValueOf(c, cur, st, m, r, n, m', p + SizeE(e.e), 0, 0, k);
      var w := Write(r.st, cur, e.loc, r.v);
      if w.Some? {
        m' := GoWrite(c, cur, r.st, m, n, m', e.loc, true, m.stack, r.v);
        n := n + 1;
        Arrived(c, cur, m, n, m', Val(r.v, w.value), p + SizeE(e), 0, 0, k);
      }
    }
  }

  lemma OpenLength(c: Program, e: Expr, p: nat, cur: nat, st: State, k: nat)
    requires e.Length? && LayE(c, e, p)
    ensures LayE(c, e.e, p) && Fetch(c.code, p + SizeE(e.e)) == Some(ReadMemberSymbol("length"))
    ensures SizeE(e) == SizeE(e.e) + 9
    ensures var r := Eval(Compiled, e.e, cur, st, k);
      OfExpr(r) && Eval(Compiled, e, cur, st, k) ==
        if !r.Val? then r
        else if r.v.Arr? && r.v.id < |r.st.arrs| then Val(Num(|r.st.arrs[r.v.id]| as real), r.st) else Stuck
  {
    hide Fetch;
  }

  lemma SimLength(c: Program, e: Expr, p: nat, cur: nat, st: State, k: nat, m: Machine) returns (n: nat, m': Machine)
    requires e.Length? && BodiesLaid(c) && LayE(c, e, p) && Live(c, cur, st, m) && m.ip == p
    ensures Sim(c, m, Eval(Compiled, e, cur, st, k), n, m', p + SizeE(e), 0, 0, k)
    decreases k, 1, e, 0
  {
    hide Step, Steps, Fetch, Rel, CatchesOK, Handlers, Apply, Eval, LayE, BodiesLaid, Via, Live, SizeE, Kept,
      Landed, Grown;
    OpenLength(c, e, p, cur, st, k);
    n, m' := SimE(c, e.e, p, cur, st, k, m);
    var r := Eval(Compiled, e.e, cur, st, k);
    if r.Val? {
      ValueOf(c, cur, st, m, r, n, m', p + SizeE(e.e), 0, 0, k);
      if r.v.Arr? && r.v.id < |r.st.arrs| {
        m' := GoLength(c, cur, r.st, m, n, m', m.stack, r.v);
        n := n + 1;
        Arrived(c, cur, m, n, m', Val(Num(|r.st.arrs[r.v.id]| as real), r.st), p + SizeE(e), 0, 0, k);
      }
    }
  }

  /** A condition ends at `yes` if it holds and at `no` if it does not. */
  ghost predicate Tested(c: Program, cur: nat, m: Machine, r: Res, n: nat, m': Machine, yes: int, no: int, k: nat) {
    if r.Val? then
      Via(c, m, n, m') && Live(c, cur, r.st, m') && m'.stack == m.stack && m'.ip ==
          (if r.v == Bool(true) then yes else no)
    else OfExpr(r) && Sim(c, m, r, n, m', 0, 0, 0, k)
  }

  lemma OpenTest(c: Program, e: Expr, p: nat, target: int, cur: nat, st: State, k: nat)
    requires !IsComparison(e) && LayC(c, e, p, target)
    ensures LayE(c, e, p) && Goes(c, p + SizeE(e), UnlessTrue, target) && SizeC(e) == SizeE(e) + 5
    ensures var r := Eval(Compiled, e, cur, st, k);
      OfExpr(r) && Test(Compiled, e, cur, st, k) == if r.Val? then Val(Bool(Truthy(r.v)), r.st) else r
  {
    hide Fetch, LayE, Eval;
  }

  lemma OpenComparison(c: Program, e: Expr, p: nat, target: int, cur: nat, st: State, k: nat)
    requires IsComparison(e) && LayC(c, e, p, target)
    ensures e.Bin? && IsComparisonOp(e.op)
    ensures LayE(c, e.l, p) && LayE(c, e.r, p + SizeE(e.l)) && SizeC(e) == SizeE(e.l) + SizeE(e.r) + 5
    ensures Goes(c, p + SizeE(e.l) + SizeE(e.r), OppositeKind(e.op), target)
    ensures var r1 := Eval(Compiled, e.l, cur, st, k);
            var r2 := Second(e.r, cur, r1, k);
            OfExpr(r1) && OfExpr(r2) && Test(Compiled, e, cur, st, k) ==
              if !r1.Val? then r1
              else if !r2.Val? then r2
              else if Holds(Compiled, e.op, r1.v, r2.v).Some? then Val(Bool(Holds(Compiled, e.op, r1.v, r2.v).value),
                  r2.st)
              else Stuck
  {
    hide Fetch, LayE, Eval, Holds;
  }

  lemma SimTest(c: Program, e: Expr, p: nat, target: int, cur: nat, st: State, k: nat, m: Machine)
    returns (n: nat, m': Machine)
    requires BodiesLaid(c) && LayC(c, e, p, target) && Live(c, cur, st, m) && m.ip == p
    requires target != p + SizeC(e) - 5
    ensures Tested(c, cur, m, Test(Compiled, e, cur, st, k), n, m', p + SizeC(e), target, k)
    decreases k, 1, e, 3
  {
    hide Step, Steps, Fetch, Rel, CatchesOK, Handlers, Apply, Eval, LayE, LayC, BodiesLaid, Via, Live, SizeE,
      SizeC, Kept, Landed, Grown, Test, Second, Holds, Goes, OppositeKind, IsComparison;
    if IsComparison(e) {
      OpenComparison(c, e, p, target, cur, st, k);
      n, m' := SimTwo(c, e, p, cur, st, k, m);
      var r1 := Eval(Compiled, e.l, cur, st, k);
      var r2 := Second(e.r, cur, r1, k);
      if r1.Val? && r2.Val? && Holds(Compiled, e.op, r1.v, r2.v).Some? {
        m' := GoUnlessOp(c, cur, r2.st, m, n, m', e.op, target, m.stack, r1.v, r2.v);
        n := n + 1;
      }
    } else {
      OpenTest(c, e, p, target, cur, st, k);
      n, m' := SimE(c, e, p, cur, st, k, m);
      var r := Eval(Compiled, e, cur, st, k);
      if r.Val? {
        ValueOf(c, cur, st, m, r, n, m', p + SizeE(e), 0, 0, k);
        m' := GoIf(c, cur, r.st, m, n, m', UnlessTrue, target, m.stack, r.v);
        n := n + 1;
      }
    }
  }

  lemma OpenTernary(c: Program, e: Expr, p: nat, cur: nat, st: State, k: nat)
    requires e.Ternary? && LayE(c, e, p)
    ensures var pt := p + SizeC(e.c); var pf := pt + SizeE(e.t) + 5;
      LayC(c, e.c, p, pf) && LayE(c, e.t, pt) && Goes(c, pt + SizeE(e.t), Always, pf + SizeE(e.f)) &&
          LayE(c, e.f, pf) &&
      SizeE(e) == pf + SizeE(e.f) - p
    ensures var r := Test(Compiled, e.c, cur, st, k);
      Eval(Compiled, e, cur, st, k) ==
        if !r.Val? then r
        else if r.v == Bool(true) then Eval(Compiled, e.t, cur, r.st, k) else Eval(Compiled, e.f, cur, r.st, k)
  {
    hide Fetch, Test, LayC;
  }

  lemma SimTernary(c: Program, e: Expr, p: nat, cur: nat, st: State, k: nat, m: Machine) returns (n: nat, m': Machine)
    requires e.Ternary? && BodiesLaid(c) && LayE(c, e, p) && Live(c, cur, st, m) && m.ip == p
    ensures Sim(c, m, Eval(Compiled, e, cur, st, k), n, m', p + SizeE(e), 0, 0, k)
    decreases k, 1, e, 0
  {
    hide Step, Steps, Fetch, Rel, CatchesOK, Handlers, Apply, Eval, LayE, LayC, BodiesLaid, Via, Live, Sim,
      SizeE, SizeC, Test, Goes;
    OpenTernary(c, e, p, cur, st, k);
    var pt := p + SizeC(e.c);
    var pf := pt + SizeE(e.t) + 5;
    var end := p + SizeE(e);
    n, m' := SimTest(c, e.c, p, pf, cur, st, k, m);
    var r1 := Test(Compiled, e.c, cur, st, k);
    if !r1.Val? {
      Relabel(c, m, r1, n, m', 0, 0, 0, k, end, 0, 0);
    } else if r1.v == Bool(true) {
      var n2, m2 := SimE(c, e.t, pt, cur, r1.st, k, m');
      var r2 := Eval(Compiled, e.t, cur, r1.st, k);
      After(c, m, n, m', r2, n2, m2, pt + SizeE(e.t), 0, 0, k, k);
      n, m' := n + n2, m2;
      if r2.Val? {
        ValueOf(c, cur, st, m, r2, n, m', pt + SizeE(e.t), 0, 0, k);
        m' := GoTo(c, cur, r2.st, m, n, m', end);
        n := n + 1;
        Arrived(c, cur, m, n, m', r2, end, 0, 0, k);
      } else {
        Relabel(c, m, r2, n, m', pt + SizeE(e.t), 0, 0, k, end, 0, 0);
      }
    } else {
      var n2, m2 := SimE(c, e.f, pf, cur, r1.st, k, m');
      After(c, m, n, m', Eval(Compiled, e.f, cur, r1.st, k), n2, m2, end, 0, 0, k, k);
      n, m' := n + n2, m2;
    }
  }

  // ----- calls -----

  ghost predicate Pushed(c: Program, cur: nat, m: Machine, r: ArgsRes, n: nat, m': Machine, end: int, k: nat) {
    match r
    case Args(vs, s1) => Via(c, m, n, m') && Live(c, cur, s1, m') && m'.ip == end && m'.stack == m.stack + vs
    case ArgsAbrupt(x) => OfExpr(x) && !x.Val? && Sim(c, m, x, n, m', 0, 0, 0, k)
  }

  lemma OpenArgs(c: Program, es: Exprs, p: nat, cur: nat, st: State, k: nat)
    requires es.MoreExprs? && LayA(c, es, p)
    ensures LayE(c, es.head, p) && LayA(c, es.tail, p + SizeE(es.head)) && SizeA(es) == SizeE(es.head) + SizeA(es.tail)
    ensures var r := Eval(Compiled, es.head, cur, st, k);
      OfExpr(r) && EvalArgs(Compiled, es, cur, st, k) ==
        if !r.Val? then ArgsAbrupt(r)
        else
          match EvalArgs(Compiled, es.tail, cur, r.st, k)
          case Args(vs, s2) => Args([r.v] + vs, s2)
          case x => x
  {
    hide Fetch, Eval, LayE;
  }

  lemma SimArgs(c: Program, es: Exprs, p: nat, cur: nat, st: State, k: nat, m: Machine) returns (n: nat, m': Machine)
    requires BodiesLaid(c) && LayA(c, es, p) && Live(c, cur, st, m) && m.ip == p
    ensures Pushed(c, cur, m, EvalArgs(Compiled, es, cur, st, k), n, m', p + SizeA(es), k)
    decreases k, 1, es, 1
  {
    hide Step, Steps, Fetch, Rel, CatchesOK, Handlers, Apply, Eval, LayE, LayA, BodiesLaid, Via, Live, Sim, SizeE;
    match es
    case NoExprs =>
      n, m' := 0, m;
      Begin(c, cur, st, m);
    case MoreExprs(e, t) =>
      OpenArgs(c, es, p, cur, st, k);
      var r1 := Eval(Compiled, e, cur, st, k);
      n, m' := SimE(c, e, p, cur, st, k, m);
      if r1.Val? {
        ValueOf(c, cur, st, m, r1, n, m', p + SizeE(e), 0, 0, k);
        var n2, m2 := SimArgs(c, t, p + SizeE(e), cur, r1.st, k, m');
        var r2 := EvalArgs(Compiled, t, cur, r1.st, k);
        if r2.Args? {
          Compose(c, m, n, m', n2, m2);
        } else {
          After(c, m, n, m', r2.r, n2, m2, 0, 0, 0, k, k);
        }
        n, m' := n + n2, m2;
      } else {
        Relabel(c, m, r1, n, m', p + SizeE(e), 0, 0, k, 0, 0, 0);
      }
  }

  lemma OpenCall(c: Program, e: Expr, p: nat)
    requires e.Call? && LayE(c, e, p)
    ensures LayE(c, e.callee, p) && LayA(c, e.args, p + SizeE(e.callee))
    ensures Fetch(c.code, p + SizeE(e.callee) + SizeA(e.args)) == Some(CallOp(Count(e.args)))
    ensures SizeE(e) == SizeE(e.callee) + SizeA(e.args) + 5
  {
    hide Fetch, LayA;
  }

  lemma CallMeaning(e: Expr, cur: nat, st: State, k: nat)
    requires e.Call?
    ensures var r := Eval(Compiled, e.callee, cur, st, k);
      OfExpr(r) && Eval(Compiled, e, cur, st, k) ==
        if !r.Val? then r
        else
          match EvalArgs(Compiled, e.args, cur, r.st, k)
          case Args(vs, s2) => Invoke(Compiled, r.v, vs, s2, k)
          case ArgsAbrupt(x) => x
  {
    hide EvalArgs, Invoke;
  }

  lemma SimCall(c: Program, e: Expr, p: nat, cur: nat, st: State, k: nat, m: Machine) returns (n: nat, m': Machine)
    requires e.Call? && BodiesLaid(c) && LayE(c, e, p) && Live(c, cur, st, m) && m.ip == p
    ensures Sim(c, m, Eval(Compiled, e, cur, st, k), n, m', p + SizeE(e), 0, 0, k)
    decreases k, 1, e, 0
  {
    hide Step, Steps, Fetch, Rel, CatchesOK, Handlers, Apply, Eval, EvalArgs, Invoke, LayE, LayA, BodiesLaid,
      Via, Live, Sim, SizeE, SizeA, Count;
    OpenCall(c, e, p);
    CallMeaning(e, cur, st, k);
    var q, end := p + SizeE(e.callee), p + SizeE(e);
    n, m' := SimE(c, e.callee, p, cur, st, k, m);
    var r1 := Eval(Compiled, e.callee, cur, st, k);
    if r1.Val? {
      ValueOf(c, cur, st, m, r1, n, m', q, 0, 0, k);
      var n2, m2 := SimArgs(c, e.args, q, cur, r1.st, k, m');
      var r2 := EvalArgs(Compiled, e.args, cur, r1.st, k);
      if r2.ArgsAbrupt? {
        After(c, m, n, m', r2.r, n2, m2, 0, 0, 0, k, k);
        Relabel(c, m, r2.r, n + n2, m2, 0, 0, 0, k, end, 0, 0);
        n, m' := n + n2, m2;
      } else {
        Compose(c, m, n, m', n2, m2);
        n, m' := SimInvoke(c, r1.v, r2.vs, cur, st, r2.st, k, m, n + n2, m2);
      }
    } else {
      Relabel(c, m, r1, n, m', q, 0, 0, k, end, 0, 0);
    }
  }

  /** From the call instruction to the instruction after it, or to a handler. */
  lemma SimInvoke(c: Program, fv: Value, vs: seq<Value>, cur: nat, st0: State, st: State, k: nat, m: Machine,
      n1: nat, m1: Machine)
    returns (n: nat, m': Machine)
    requires BodiesLaid(c) && Live(c, cur, st0, m) && Live(c, cur, st, m1) && Via(c, m, n1, m1)
    requires Fetch(c.code, m1.ip) == Some(CallOp(|vs|)) && m1.stack == m.stack + [fv] + vs
    ensures Sim(c, m, Invoke(Compiled, fv, vs, st, k), n, m', m1.ip + 5, 0, 0, k)
    decreases k, 0
  {
    hide Step, Steps, Fetch, Rel, CatchesOK, Handlers, Run, LayB, BodiesLaid, Apply, FrameLocals, EntryLocals, Grown;
    if fv.Fun? && fv.id < |st.clos| && |vs| >= st.clos[fv.id].f.required {
      if k > 0 {
        n, m' := SimBody(c, fv.id, vs, cur, st0, st, k, m, n1, m1);
      } else {
        n, m' := n1, m1;
        StillRunning(c, m, n1, m1, m1.ip + 5, 0, 0, k);
      }
    } else {
      n, m' := RefusedCall(c, fv, vs, cur, st, k, m, n1, m1);
    }
  }

  /** Calling something that is not a function, or a function with too few arguments. */
  lemma RefusedCall(c: Program, fv: Value, vs: seq<Value>, cur: nat, st: State, k: nat, m: Machine, n1: nat,
      m1: Machine)
    returns (n: nat, m': Machine)
    requires Live(c, cur, st, m1) && Via(c, m, n1, m1)
    requires Fetch(c.code, m1.ip) == Some(CallOp(|vs|)) && m1.stack == m.stack + [fv] + vs
    requires fv.Fun? && fv.id < |st.clos| ==> |vs| < st.clos[fv.id].f.required
    ensures Sim(c, m, Invoke(Compiled, fv, vs, st, k), n, m', m1.ip + 5, 0, 0, k)
  {
    hide Step, Steps, Fetch, CatchesOK, Run, Grown, FrameLocals;
    Then(c, m, n1, m1, CallOp(|vs|));
    var m2 := m1.(stack := m.stack);
    n, m' := n1 + 1, CallTop(m1, |vs|);
    assert m1.stack[|m.stack| + 1..] == vs && m1.stack[..|m.stack|] == m.stack && m1.stack[|m.stack|] == fv;
    HandlersElsewhere(c, m.catches, m1.ip, |vs|);
    if !fv.Fun? {
      UnwindLands(m, m2, Str(NOT_CALLABLE + TypeName(fv)));
    } else if fv.id < |st.clos| {
      UnwindLands(m, m2, Str(NOT_ENOUGH));
    }
  }

  /** No handler begins at a call. */
  lemma HandlersElsewhere(c: Program, ts: seq<Table>, p: int, argc: nat)
    requires Handlers(c, ts) && Fetch(c.code, p) == Some(CallOp(argc))
    ensures forall i :: 0 <= i < |ts| ==> ts[i].address != p
  {
    hide Fetch;
    forall i | 0 <= i < |ts| ensures ts[i].address != p {
      assert StoresFirst(c, ts[i].address);
    }
  }

  /** `b` is `a` right after a call of `clo`: one more frame, at the start of the body. */
  ghost predicate Entered(c: Program, clo: Closure, vs: seq<Value>, base: seq<Value>, a: Machine, b: Machine) {
    && a.ip >= 0
    && b.ip in c.funs && c.funs[b.ip] == clo.f
    && b == a.(ip := b.ip, cur := Some(|a.heap.frames|), stack := base,
               heap := Heap(a.heap.frames + [Frame(a.cur, Some(clo.env), a.catches, Some(a.ip),
                   EntryLocals(clo.f, vs, |a.heap.arrs|))],
                            a.heap.funcs,
                            if clo.f.needsArguments then a.heap.arrs + [vs] else a.heap.arrs))
  }

  /** The call instruction enters the function. */
  lemma Enters(c: Program, id: nat, vs: seq<Value>, cur: nat, st: State, m: Machine, n: nat, m1: Machine)
    returns (m2: Machine)
    requires BodiesLaid(c) && Live(c, cur, st, m1) && Via(c, m, n, m1)
    requires Fetch(c.code, m1.ip) == Some(CallOp(|vs|)) && m1.stack == m.stack + [Fun(id)] + vs
    requires id < |st.clos| && |vs| >= st.clos[id].f.required
    ensures Steps(c.code, m, n + 1) == m2 && Entered(c, st.clos[id], vs, m.stack, m1, m2)
  {
    hide Step, Steps, Fetch, CatchesOK, Grown, FrameLocals, EntryLocals;
    Then(c, m, n, m1, CallOp(|vs|));
    FetchLength(c.code, m1.ip, CallOp(|vs|));
    assert m1.stack[|m.stack| + 1..] == vs && m1.stack[..|m.stack|] == m.stack && m1.stack[|m.stack|] == Fun(id);
    LocalsAgree(c, st.clos[id], m1.heap.funcs[id], vs, |m1.heap.arrs|);
    BodyStarts(c, m1.heap.funcs[id].body);
    m2 := CallTop(m1, |vs|);
  }

  /** A function's code begins with the instruction every block begins with. */
  lemma BodyStarts(c: Program, p: int)
    requires BodiesLaid(c) && p in c.funs
    ensures p >= 0 && Fetch(c.code, p) == Some(Nop)
  {
    hide Fetch, LayL;
  }

  lemma ChainInside(frames: seq<Frame>, from: Option<nat>, target: nat)
    requires OnChain(frames, from, target)
    ensures target < |frames|
    decreases if from.Some? then from.value + 1 else 0
  {
    if from.value != target {
      ChainInside(frames, frames[from.value].parent, target);
    }
  }

  /** A machine that just entered a function runs the new activation. */
  lemma EnteredLive(c: Program, clo: Closure, vs: seq<Value>, st: State, m: Machine, n: nat, a: Machine, b: Machine)
    requires Via(c, m, n, a) && Entered(c, clo, vs, m.stack, a, b) && Rel(c, st, a.heap)
    requires m.cur.Some? && m.cur.value < |m.heap.frames|
    ensures Live(c, |st.acts|, Enter(st, clo, vs), b)
    ensures Grown(m.heap.frames, b.heap.frames) && b.catches == m.catches
    ensures b.heap.frames[|st.acts|] == Frame(m.cur, Some(clo.env), m.catches, Some(a.ip),
        EntryLocals(clo.f, vs, |st.arrs|))
  {
    hide Step, Steps, Fetch, EntryLocals;
    CatchesGrown(m.heap.frames, b.heap.frames, m.cur, |m.stack|, |m.stack|, m.catches);
    if |m.catches| > 0 {
      var t := m.catches[|m.catches| - 1];
      assert b.heap.frames[|a.heap.frames|].parent == m.cur;
      ChainInside(m.heap.frames, m.cur, t.frame);
    }
  }

  /** A callee's result as the result of the call. */
  function CallResult(r: Res): Res {
    match r
    case Return(v, s1) => Val(v, s1)
    case Throw(v, s1) => Throw(v, s1)
    case Timeout => Timeout
    case _ => Stuck
  }

  lemma OpenBody(c: Program, clo: Closure, st: State, vs: seq<Value>, k: nat, p: int, id: nat)
    requires BodiesLaid(c) && p in c.funs && c.funs[p] == clo.f && k > 0
    requires id < |st.clos| && st.clos[id] == clo && |vs| >= clo.f.required
    ensures p >= 0 && LayB(c, clo.f.body, p, -1, -1)
    ensures Invoke(Compiled, Fun(id), vs, st, k) ==
        CallResult(Run(Compiled, clo.f.body, |st.acts|, Enter(st, clo, vs), k - 1))
  {
    hide Fetch, Enter;
  }

  /** The callee's body, from entry to the caller's next instruction or handler. */
  lemma SimBody(c: Program, id: nat, vs: seq<Value>, cur: nat, st0: State, st: State, k: nat, m: Machine, n1: nat,
      m1: Machine)
    returns (n: nat, m': Machine)
    requires k > 0 && BodiesLaid(c) && Live(c, cur, st0, m) && Live(c, cur, st, m1) && Via(c, m, n1, m1)
    requires Fetch(c.code, m1.ip) == Some(CallOp(|vs|)) && m1.stack == m.stack + [Fun(id)] + vs
    requires id < |st.clos| && |vs| >= st.clos[id].f.required
    ensures Sim(c, m, Invoke(Compiled, Fun(id), vs, st, k), n, m', m1.ip + 5, 0, 0, k)
    decreases k - 1, 2
  {
    hide Step, Steps, Fetch, Rel, CatchesOK, Handlers, Run, LayB, BodiesLaid, Apply, EntryLocals, Grown,
      Invoke, Enter;
    var clo := st.clos[id];
    var m2 := Enters(c, id, vs, cur, st, m, n1, m1);
    EnteredLive(c, clo, vs, st, m, n1, m1, m2);
    OpenBody(c, clo, st, vs, k, m2.ip, id);
    var st2 := Enter(st, clo, vs);
    var n2, m3 := SimB(c, clo.f.body, m2.ip, -1, -1, |st.acts|, st2, k - 1, m2);
    var r := Run(Compiled, clo.f.body, |st.acts|, st2, k - 1);
    n, m' := LeaveBody(c, r, |st.acts|, m, n1 + 1, m1, m2, n2, m3, m2.ip + SizeB(clo.f.body), k);
  }

  /** Leaving the callee gets back to the caller, its catch stack and its operands. */
  lemma LeaveBody(c: Program, r: Res, frame: nat, m: Machine, n1: nat, m1: Machine, m2: Machine, n2: nat, m3: Machine,
                  end: int, k: nat)
    returns (n: nat, m': Machine)
    requires k > 0 && n1 > 0 && Steps(c.code, m, n1) == m2 && m2.cur == Some(frame) && frame < |m2.heap.frames|
    requires m2.stack == m.stack && m2.catches == m.catches && Grown(m.heap.frames, m2.heap.frames)
    requires m1.ip >= 0 && Fetch(c.code, m1.ip).Some? && Fetch(c.code, m1.ip).value.CallOp?
    requires var f := m2.heap.frames[frame]; f.parent == m.cur && f.catches == m.catches && f.origin == Some(m1.ip)
    requires Sim(c, m2, r, n2, m3, end, -1, -1, k - 1)
    ensures Sim(c, m, CallResult(r), n, m', m1.ip + 5, 0, 0, k)
  {
    hide Step, Steps, Fetch, Rel, Apply;
    n, m' := n1 + n2, m3;
    StepsAdd(c.code, m, n1, n2);
    if r.Return? {
      n, m' := Returns(c, r, frame, m, n, m1, m2, m3);
    }
  }

  lemma Returns(c: Program, r: Res, frame: nat, m: Machine, n: nat, m1: Machine, m2: Machine, m3: Machine)
    returns (n': nat, m': Machine)
    requires r.Return? && Steps(c.code, m, n) == m3 && m3.status.Running? && m3.cur == Some(frame) &&
        frame < |m2.heap.frames|
    requires Grown(m.heap.frames, m2.heap.frames) && Grown(m2.heap.frames, m3.heap.frames)
    requires Fetch(c.code, m3.ip) == Some(ReturnOp) && m3.stack == m.stack + [r.v] && Rel(c, r.st, m3.heap)
    requires m1.ip >= 0 && Fetch(c.code, m1.ip).Some? && Fetch(c.code, m1.ip).value.CallOp?
    requires var f := m2.heap.frames[frame]; f.parent == m.cur && f.catches == m.catches && f.origin == Some(m1.ip)
    ensures Steps(c.code, m, n') == m' && Kept(m, m') && m'.ip == m1.ip + 5 && m'.stack == m.stack + [r.v] &&
        Rel(c, r.st, m'.heap)
  {
    hide Step, Steps, Fetch, Rel;
    Then(c, m, n, m3, ReturnOp);
    FetchLength(c.code, m1.ip, Fetch(c.code, m1.ip).value);
    n', m' := n + 1, ReturnTop(c.code, m3);
  }

  // ----- statements -----

  /** A break or continue has arrived where it leads to: from there on it is a completed statement. */
  lemma Redirect(c: Program, m: Machine, r: Res, n: nat, m1: Machine, end: int, brk: int, cnt: int, k: nat,
      brk': int, cnt': int)
    requires Sim(c, m, r, n, m1, end, brk, cnt, k)
    ensures r.Break? ==> Sim(c, m, Next(r.st), n, m1, brk, brk', cnt', k)
    ensures r.Continue? ==> Sim(c, m, Next(r.st), n, m1, cnt, brk', cnt', k)
  {
    hide Step, Steps, Fetch, Rel;
  }

  /** A simulated block followed by an unconditional branch to `end`. */
  lemma AndGoTo(c: Program, cur: nat, st: State, m: Machine, r: Res, n1: nat, m1: Machine, q: nat, end: int,
      brk: int, cnt: int, k: nat)
    returns (n: nat, m': Machine)
    requires Live(c, cur, st, m) && Sim(c, m, r, n1, m1, q, brk, cnt, k) && !r.Val? && Goes(c, q, Always, end) &&
        end != q
    ensures Sim(c, m, r, n, m', end, brk, cnt, k)
  {
    hide Step, Steps, Fetch, Rel, CatchesOK, Handlers, Apply, Via, Live, Sim, Goes;
    if r.Next? {
      ValueOf(c, cur, st, m, r, n1, m1, q, brk, cnt, k);
      m' := GoTo(c, cur, r.st, m, n1, m1, end);
      n := n1 + 1;
      Arrived(c, cur, m, n, m', r, end, brk, cnt, k);
    } else {
      n, m' := n1, m1;
      Relabel(c, m, r, n1, m1, q, brk, cnt, k, end, brk, cnt);
    }
  }

  lemma OpenB(c: Program, b: Stmts, p: nat, brk: int, cnt: int)
    requires LayB(c, b, p, brk, cnt)
    ensures Fetch(c.code, p) == Some(Nop) && LayL(c, b, p + 1, brk, cnt) && SizeB(b) == 1 + SizeL(b)
  {
    hide Fetch;
  }

  lemma SimB(c: Program, b: Stmts, p: nat, brk: int, cnt: int, cur: nat, st: State, k: nat, m: Machine)
    returns (n: nat, m': Machine)
    requires BodiesLaid(c) && LayB(c, b, p, brk, cnt) && Live(c, cur, st, m) && m.ip == p
    ensures n >= 1 && Sim(c, m, Run(Compiled, b, cur, st, k), n, m', p + SizeB(b), brk, cnt, k)
    decreases k, 1, b, 3
  {
    hide Step, Steps, Fetch, Rel, CatchesOK, Handlers, Apply, Run, LayB, LayL, BodiesLaid, Via, Live, Sim,
      SizeB, SizeL;
    OpenB(c, b, p, brk, cnt);
    Begin(c, cur, st, m);
    var m1 := GoNop(c, cur, st, m, 0, m);
    var n2, m2 := SimL(c, b, p + 1, brk, cnt, cur, st, k, m1);
    After(c, m, 1, m1, Run(Compiled, b, cur, st, k), n2, m2, p + SizeB(b), brk, cnt, k, k);
    n, m' := 1 + n2, m2;
  }

  lemma SimO(c: Program, b: Option<Stmts>, p: nat, brk: int, cnt: int, cur: nat, st: State, k: nat, m: Machine)
    returns (n: nat, m': Machine)
    requires BodiesLaid(c) && LayO(c, b, p, brk, cnt) && Live(c, cur, st, m) && m.ip == p
    ensures Sim(c, m, RunOpt(Compiled, b, cur, st, k), n, m', p + SizeO(b), brk, cnt, k)
    decreases k, 1, b, 4
  {
    hide Step, Steps, Fetch, Rel, CatchesOK, Handlers, Apply, Run, LayB, BodiesLaid, Via, Live, Sim, SizeB;
    match b
    case None =>
      n, m' := 0, m;
      Begin(c, cur, st, m);
      Arrived(c, cur, m, 0, m, Next(st), p, brk, cnt, k);
    case Some(ss) =>
      n, m' := SimB(c, ss, p, brk, cnt, cur, st, k, m);
  }

  lemma OpenL(c: Program, b: Stmts, p: nat, brk: int, cnt: int, cur: nat, st: State, k: nat)
    requires b.MoreStmts? && LayL(c, b, p, brk, cnt)
    ensures LayS(c, b.head, p, brk, cnt) && LayL(c, b.tail, p + SizeS(b.head), brk, cnt)
    ensures SizeL(b) == SizeS(b.head) + SizeL(b.tail)
    ensures var r := Exec(Compiled, b.head, cur, st, k);
      !r.Val? && Run(Compiled, b, cur, st, k) == if r.Next? then Run(Compiled, b.tail, cur, r.st, k) else r
  {
    hide Fetch, Exec, LayS, SizeS;
  }

  lemma SimL(c: Program, b: Stmts, p: nat, brk: int, cnt: int, cur: nat, st: State, k: nat, m: Machine)
    returns (n: nat, m': Machine)
    requires BodiesLaid(c) && LayL(c, b, p, brk, cnt) && Live(c, cur, st, m) && m.ip == p
    ensures Sim(c, m, Run(Compiled, b, cur, st, k), n, m', p + SizeL(b), brk, cnt, k)
    decreases k, 1, b, 2
  {
    hide Step, Steps, Fetch, Rel, CatchesOK, Handlers, Apply, Exec, LayL, LayS, BodiesLaid, Via, Live, Sim, SizeS;
    match b
    case NoStmts =>
      n, m' := 0, m;
      Begin(c, cur, st, m);
      Arrived(c, cur, m, 0, m, Next(st), p, brk, cnt, k);
    case MoreStmts(s, t) =>
      OpenL(c, b, p, brk, cnt, cur, st, k);
      var r1 := Exec(Compiled, s, cur, st, k);
      n, m' := SimS(c, s, p, brk, cnt, cur, st, k, m);
      if r1.Next? {
        ValueOf(c, cur, st, m, r1, n, m', p + SizeS(s), brk, cnt, k);
        var n2, m2 := SimL(c, t, p + SizeS(s), brk, cnt, cur, r1.st, k, m');
        After(c, m, n, m', Run(Compiled, b, cur, st, k), n2, m2, p + SizeL(b), brk, cnt, k, k);
        n, m' := n + n2, m2;
      } else {
        Relabel(c, m, r1, n, m', p + SizeS(s), brk, cnt, k, p + SizeL(b), brk, cnt);
      }
  }

  lemma SimS(c: Program, s: Stmt, p: nat, brk: int, cnt: int, cur: nat, st: State, k: nat, m: Machine)
    returns (n: nat, m': Machine)
    requires BodiesLaid(c) && LayS(c, s, p, brk, cnt) && Live(c, cur, st, m) && m.ip == p
    ensures Sim(c, m, Exec(Compiled, s, cur, st, k), n, m', p + SizeS(s), brk, cnt, k)
    decreases k, 1, s, 2
  {
    hide *;
    match s
    case Do(e) => n, m' := SimDo(c, s, p, brk, cnt, cur, st, k, m);
    case Set(loc, e) => n, m' := SimSet(c, s, p, brk, cnt, cur, st, k, m);
    case Block(b) => n, m' := SimBlock(c, s, p, brk, cnt, cur, st, k, m);
    case If(d, t) => n, m' := SimIf(c, s, p, brk, cnt, cur, st, k, m);
    case IfElse(d, t, f) => n, m' := SimIfElse(c, s, p, brk, cnt, cur, st, k, m);
    case Unless(d, t) => n, m' := SimUnless(c, s, p, brk, cnt, cur, st, k, m);
    case UnlessElse(d, t, f) => n, m' := SimUnlessElse(c, s, p, brk, cnt, cur, st, k, m);
    case While(d, b) => n, m' := SimWhile(c, s, p, brk, cnt, cur, st, k, m);
    case Until(d, b) => n, m' := SimUntil(c, s, p, brk, cnt, cur, st, k, m);
    case DoWhile(b, d) => n, m' := SimDoWhile(c, s, p, brk, cnt, cur, st, k, m);
    case DoUntil(b, d) => n, m' := SimDoUntil(c, s, p, brk, cnt, cur, st, k, m);
    case Loop(b) => n, m' := SimLoop(c, s, p, brk, cnt, cur, st, k, m);
    case Switch(d, cases, otherwise) => n, m' := SimSwitch(c, s, p, brk, cnt, cur, st, k, m);
    case BreakS => n, m' := SimLeave(c, s, p, brk, cnt, cur, st, k, m);
    case ContinueS => n, m' := SimLeave(c, s, p, brk, cnt, cur, st, k, m);
    case ReturnS(e) => n, m' := SimReturn(c, s, p, brk, cnt, cur, st, k, m);
    case ThrowS(e) => n, m' := SimThrow(c, s, p, brk, cnt, cur, st, k, m);
    case TryCatch(b, exc, h, fin) => n, m' := SimTryCatch(c, s, p, brk, cnt, cur, st, k, m);
    case TryFinally(b, exc, fin) => n, m' := SimTryFinally(c, s, p, brk, cnt, cur, st, k, m);
  }

  lemma OpenDo(c: Program, s: Stmt, p: nat, brk: int, cnt: int, cur: nat, st: State, k: nat)
    requires s.Do? && LayS(c, s, p, brk, cnt)
    ensures LayE(c, s.e, p) && Fetch(c.code, p + SizeE(s.e)) == Some(Pop) && SizeS(s) == SizeE(s.e) + 1
    ensures var r := Eval(Compiled, s.e, cur, st, k);
      OfExpr(r) && Exec(Compiled, s, cur, st, k) == if r.Val? then Next(r.st) else r
  {
    hide Fetch, LayE, Eval;
  }

  lemma SimDo(c: Program, s: Stmt, p: nat, brk: int, cnt: int, cur: nat, st: State, k: nat, m: Machine)
    returns (n: nat, m': Machine)
    requires s.Do? && BodiesLaid(c) && LayS(c, s, p, brk, cnt) && Live(c, cur, st, m) && m.ip == p
    ensures Sim(c, m, Exec(Compiled, s, cur, st, k), n, m', p + SizeS(s), brk, cnt, k)
    decreases k, 1, s, 0
  {
    hide Step, Steps, Fetch, Rel, CatchesOK, Handlers, Apply, Eval, Exec, LayE, LayS, BodiesLaid, Via, Live,
      Sim, SizeE, SizeS;
    OpenDo(c, s, p, brk, cnt, cur, st, k);
    n, m' := SimE(c, s.e, p, cur, st, k, m);
    var r := Eval(Compiled, s.e, cur, st, k);
    if r.Val? {
      ValueOf(c, cur, st, m, r, n, m', p + SizeE(s.e), 0, 0, k);
      m' := GoPop(c, cur, r.st, m, n, m', m.stack, r.v);
      n := n + 1;
      Arrived(c, cur, m, n, m', Next(r.st), p + SizeS(s), brk, cnt, k);
    } else {
      Relabel(c, m, r, n, m', p + SizeE(s.e), 0, 0, k, p + SizeS(s), brk, cnt);
    }
  }

  lemma OpenSet(c: Program, s: Stmt, p: nat, brk: int, cnt: int, cur: nat, st: State, k: nat)
    requires s.Set? && LayS(c, s, p, brk, cnt)
    ensures LayE(c, s.e, p) && Fetch(c.code, p + SizeE(s.e)) == Some(SetLocal(s.loc.index, s.loc.level))
    ensures SizeS(s) == SizeE(s.e) + 9
    ensures var r := Eval(Compiled, s.e, cur, st, k);
      OfExpr(r) && Exec(Compiled, s, cur, st, k) ==
        if !r.Val? then r
        else if Write(r.st, cur, s.loc, r.v).Some? then Next(Write(r.st, cur, s.loc, r.v).value) else Stuck
  {
    hide Fetch, LayE, Eval, Write;
  }

  lemma SimSet(c: Program, s: Stmt, p: nat, brk: int, cnt: int, cur: nat, st: State, k: nat, m: Machine)
    returns (n: nat, m': Machine)
    requires s.Set? && BodiesLaid(c) && LayS(c, s, p, brk, cnt) && Live(c, cur, st, m) && m.ip == p
    ensures Sim(c, m, Exec(Compiled, s, cur, st, k), n, m', p + SizeS(s), brk, cnt, k)
    decreases k, 1, s, 0
  {
    hide Step, Steps, Fetch, Rel, CatchesOK, Handlers, Apply, Eval, Exec, LayE, LayS, BodiesLaid, Via, SizeE,
      SizeS, Write, Kept, Landed, Grown;
    OpenSet(c, s, p, brk, cnt, cur, st, k);
    n, m' := SimE(c, s.e, p, cur, st, k, m);
    var r := Eval(Compiled, s.e, cur, st, k);
    if r.Val? {
      ValueOf(c, cur, st, m, r, n, m', p + SizeE(s.e), 0, 0, k);
      var w := Write(r.st, cur, s.loc, r.v);
      if w.Some? {
        m' := GoWrite(c, cur, r.st, m, n, m', s.loc, false, m.stack, r.v);
        n := n + 1;
        Arrived(c, cur, m, n, m', Next(w.value), p + SizeS(s), brk, cnt, k);
      }
    }
  }

  lemma SimBlock(c: Program, s: Stmt, p: nat, brk: int, cnt: int, cur: nat, st: State, k: nat, m: Machine)
    returns (n: nat, m': Machine)
    requires s.Block? && BodiesLaid(c) && LayS(c, s, p, brk, cnt) && Live(c, cur, st, m) && m.ip == p
    ensures Sim(c, m, Exec(Compiled, s, cur, st, k), n, m', p + SizeS(s), brk, cnt, k)
    decreases k, 1, s, 0
  {
    hide Step, Steps, Fetch, Rel, CatchesOK, Handlers, Apply, Run, LayB, BodiesLaid, Via, Live, Sim, SizeB;
    n, m' := SimB(c, s.b, p, brk, cnt, cur, st, k, m);
  }

  lemma OpenIf(c: Program, s: Stmt, p: nat, brk: int, cnt: int, cur: nat, st: State, k: nat)
    requires s.If? && LayS(c, s, p, brk, cnt)
    ensures LayC(c, s.c, p, p + SizeS(s)) && LayB(c, s.t, p + SizeC(s.c), brk, cnt) && SizeS(s) ==
        SizeC(s.c) + SizeB(s.t)
    ensures var r := Test(Compiled, s.c, cur, st, k);
      Exec(Compiled, s, cur, st, k) ==
        if !r.Val? then r else if r.v == Bool(true) then Run(Compiled, s.t, cur, r.st, k) else Next(r.st)
  {
    hide Fetch, LayC, LayB, Test, Run, SizeC, SizeB;
  }

  lemma SimIf(c: Program, s: Stmt, p: nat, brk: int, cnt: int, cur: nat, st: State, k: nat, m: Machine)
    returns (n: nat, m': Machine)
    requires s.If? && BodiesLaid(c) && LayS(c, s, p, brk, cnt) && Live(c, cur, st, m) && m.ip == p
    ensures Sim(c, m, Exec(Compiled, s, cur, st, k), n, m', p + SizeS(s), brk, cnt, k)
    decreases k, 1, s, 0
  {
    hide Step, Steps, Fetch, Rel, CatchesOK, Handlers, Apply, Test, Run, Exec, LayC, LayB, LayS, BodiesLaid,
      Via, Live, Sim, SizeC, SizeB, SizeS;
    OpenIf(c, s, p, brk, cnt, cur, st, k);
    var end := p + SizeS(s);
    n, m' := SimTest(c, s.c, p, end, cur, st, k, m);
    var r := Test(Compiled, s.c, cur, st, k);
    if !r.Val? {
      Relabel(c, m, r, n, m', 0, 0, 0, k, end, brk, cnt);
    } else if r.v == Bool(true) {
      var n2, m2 := SimB(c, s.t, p + SizeC(s.c), brk, cnt, cur, r.st, k, m');
      After(c, m, n, m', Run(Compiled, s.t, cur, r.st, k), n2, m2, end, brk, cnt, k, k);
      n, m' := n + n2, m2;
    } else {
      Arrived(c, cur, m, n, m', Next(r.st), end, brk, cnt, k);
    }
  }

  lemma OpenIfElse(c: Program, s: Stmt, p: nat, brk: int, cnt: int, cur: nat, st: State, k: nat)
    requires s.IfElse? && LayS(c, s, p, brk, cnt)
    ensures var pt := p + SizeC(s.c); var pf := pt + SizeB(s.t) + 5;
      LayC(c, s.c, p, pf) && LayB(c, s.t, pt, brk, cnt) && Goes(c, pt + SizeB(s.t), Always, p + SizeS(s)) &&
      LayB(c, s.f, pf, brk, cnt) && p + SizeS(s) == pf + SizeB(s.f)
    ensures var r := Test(Compiled, s.c, cur, st, k);
      Exec(Compiled, s, cur, st, k) ==
        if !r.Val? then r
        else if r.v == Bool(true) then Run(Compiled, s.t, cur, r.st, k) else Run(Compiled, s.f, cur, r.st, k)
  {
    hide Fetch, LayC, LayB, Test, Run, SizeC, SizeB;
  }

  lemma SimIfElse(c: Program, s: Stmt, p: nat, brk: int, cnt: int, cur: nat, st: State, k: nat, m: Machine)
    returns (n: nat, m': Machine)
    requires s.IfElse? && BodiesLaid(c) && LayS(c, s, p, brk, cnt) && Live(c, cur, st, m) && m.ip == p
    ensures Sim(c, m, Exec(Compiled, s, cur, st, k), n, m', p + SizeS(s), brk, cnt, k)
    decreases k, 1, s, 0
  {
    hide Step, Steps, Fetch, Rel, CatchesOK, Handlers, Apply, Test, Run, Exec, LayC, LayB, LayS, BodiesLaid,
      Via, Live, Sim, SizeC, SizeB, SizeS, Goes;
    OpenIfElse(c, s, p, brk, cnt, cur, st, k);
    var pt := p + SizeC(s.c);
    var pf := pt + SizeB(s.t) + 5;
    n, m' := SimTest(c, s.c, p, pf, cur, st, k, m);
    var r := Test(Compiled, s.c, cur, st, k);
    if !r.Val? {
      Relabel(c, m, r, n, m', 0, 0, 0, k, p + SizeS(s), brk, cnt);
    } else if r.v == Bool(true) {
      n, m' := SimThen(c, s, s.t, pt, p + SizeS(s), brk, cnt, cur, st, r.st, k, m, n, m');
    } else {
      var n2, m2 := SimB(c, s.f, pf, brk, cnt, cur, r.st, k, m');
      After(c, m, n, m', Run(Compiled, s.f, cur, r.st, k), n2, m2, p + SizeS(s), brk, cnt, k, k);
      n, m' := n + n2, m2;
    }
  }

  /** The first of two alternatives: its block, then the branch over the second. */
  lemma SimThen(c: Program, s: Stmt, b: Stmts, q: nat, end: int, brk: int, cnt: int, cur: nat, st0: State, st: State,
      k: nat,
                m: Machine, n1: nat, m1: Machine)
    returns (n: nat, m': Machine)
    requires b < s && BodiesLaid(c) && LayB(c, b, q, brk, cnt) && Goes(c, q + SizeB(b), Always, end) &&
        end != q + SizeB(b)
    requires Live(c, cur, st0, m) && Via(c, m, n1, m1) && Live(c, cur, st, m1) && m1.ip == q && m1.stack == m.stack
    ensures Sim(c, m, Run(Compiled, b, cur, st, k), n, m', end, brk, cnt, k)
    decreases k, 1, b, 4
  {
    hide Step, Steps, Fetch, Rel, CatchesOK, Handlers, Apply, Run, LayB, BodiesLaid, Via, Live, Sim, SizeB, Goes;
    var n2, m2 := SimB(c, b, q, brk, cnt, cur, st, k, m1);
    var r := Run(Compiled, b, cur, st, k);
    After(c, m, n1, m1, r, n2, m2, q + SizeB(b), brk, cnt, k, k);
    n, m' := AndGoTo(c, cur, st0, m, r, n1 + n2, m2, q + SizeB(b), end, brk, cnt, k);
  }

  /** A condition evaluated as a value and branched on with IfTrue. */
  lemma SimUntrue(c: Program, e: Expr, p: nat, target: int, cur: nat, st: State, k: nat, m: Machine)
    returns (n: nat, m': Machine)
    requires BodiesLaid(c) && LayE(c, e, p) && Goes(c, p + SizeE(e), IfTrue, target) && target != p + SizeE(e)
    requires Live(c, cur, st, m) && m.ip == p
    ensures var r := Eval(Compiled, e, cur, st, k);
      if r.Val? then
        Via(c, m, n, m') && Live(c, cur, r.st, m') && m'.stack == m.stack &&
        m'.ip == if Truthy(r.v) then target else p + SizeE(e) + 5
      else OfExpr(r) && Sim(c, m, r, n, m', 0, 0, 0, k)
    decreases k, 1, e, 3
  {
    hide Step, Steps, Fetch, Rel, CatchesOK, Handlers, Apply, Eval, LayE, BodiesLaid, Via, Live, Sim, SizeE,
      Goes, Truthy;
    n, m' := SimE(c, e, p, cur, st, k, m);
    var r := Eval(Compiled, e, cur, st, k);
    if r.Val? {
      ValueOf(c, cur, st, m, r, n, m', p + SizeE(e), 0, 0, k);
      m' := GoIf(c, cur, r.st, m, n, m', IfTrue, target, m.stack, r.v);
      n := n + 1;
    } else {
      Relabel(c, m, r, n, m', p + SizeE(e), 0, 0, k, 0, 0, 0);
    }
  }

  lemma OpenUnless(c: Program, s: Stmt, p: nat, brk: int, cnt: int, cur: nat, st: State, k: nat)
    requires s.Unless? && LayS(c, s, p, brk, cnt)
    ensures LayE(c, s.c, p) && Goes(c, p + SizeE(s.c), IfTrue, p + SizeS(s)) &&
        LayB(c, s.t, p + SizeE(s.c) + 5, brk, cnt)
    ensures SizeS(s) == SizeE(s.c) + 5 + SizeB(s.t)
    ensures var r := Eval(Compiled, s.c, cur, st, k);
      Exec(Compiled, s, cur, st, k) ==
        if !r.Val? then r else if Truthy(r.v) then Next(r.st) else Run(Compiled, s.t, cur, r.st, k)
  {
    hide Fetch, LayE, LayB, Eval, Run, SizeE, SizeB, Truthy;
  }

  lemma SimUnless(c: Program, s: Stmt, p: nat, brk: int, cnt: int, cur: nat, st: State, k: nat, m: Machine)
    returns (n: nat, m': Machine)
    requires s.Unless? && BodiesLaid(c) && LayS(c, s, p, brk, cnt) && Live(c, cur, st, m) && m.ip == p
    ensures Sim(c, m, Exec(Compiled, s, cur, st, k), n, m', p + SizeS(s), brk, cnt, k)
    decreases k, 1, s, 0
  {
    hide Step, Steps, Fetch, Rel, CatchesOK, Handlers, Apply, Eval, Run, Exec, LayE, LayB, LayS, BodiesLaid,
      Via, Live, Sim, SizeE, SizeB, SizeS, Goes, Truthy;
    OpenUnless(c, s, p, brk, cnt, cur, st, k);
    var end := p + SizeS(s);
    n, m' := SimUntrue(c, s.c, p, end, cur, st, k, m);
    var r := Eval(Compiled, s.c, cur, st, k);
    if !r.Val? {
      Relabel(c, m, r, n, m', 0, 0, 0, k, end, brk, cnt);
    } else if Truthy(r.v) {
      Arrived(c, cur, m, n, m', Next(r.st), end, brk, cnt, k);
    } else {
      var n2, m2 := SimB(c, s.t, p + SizeE(s.c) + 5, brk, cnt, cur, r.st, k, m');
      After(c, m, n, m', Run(Compiled, s.t, cur, r.st, k), n2, m2, end, brk, cnt, k, k);
      n, m' := n + n2, m2;
    }
  }

  lemma OpenUnlessElse(c: Program, s: Stmt, p: nat, brk: int, cnt: int, cur: nat, st: State, k: nat)
    requires s.UnlessElse? && LayS(c, s, p, brk, cnt)
    ensures var pt := p + SizeE(s.c) + 5; var pf := pt + SizeB(s.t) + 5;
      LayE(c, s.c, p) && Goes(c, p + SizeE(s.c), IfTrue, pf) && LayB(c, s.t, pt, brk, cnt) &&
      Goes(c, pt + SizeB(s.t), Always, p + SizeS(s)) && LayB(c, s.f, pf, brk, cnt) && p + SizeS(s) == pf + SizeB(s.f)
    ensures var r := Eval(Compiled, s.c, cur, st, k);
      Exec(Compiled, s, cur, st, k) ==
        if !r.Val? then r
        else if Truthy(r.v) then Run(Compiled, s.f, cur, r.st, k) else Run(Compiled, s.t, cur, r.st, k)
  {
    hide Fetch, LayE, LayB, Eval, Run, SizeE, SizeB, Truthy;
  }

  lemma SimUnlessElse(c: Program, s: Stmt, p: nat, brk: int, cnt: int, cur: nat, st: State, k: nat, m: Machine)
    returns (n: nat, m': Machine)
    requires s.UnlessElse? && BodiesLaid(c) && LayS(c, s, p, brk, cnt) && Live(c, cur, st, m) && m.ip == p
    ensures Sim(c, m, Exec(Compiled, s, cur, st, k), n, m', p + SizeS(s), brk, cnt, k)
    decreases k, 1, s, 0
  {
    hide Step, Steps, Fetch, Rel, CatchesOK, Handlers, Apply, Eval, Run, Exec, LayE, LayB, LayS, BodiesLaid,
      Via, Live, Sim, SizeE, SizeB, SizeS, Goes, Truthy;
    OpenUnlessElse(c, s, p, brk, cnt, cur, st, k);
    var pt := p + SizeE(s.c) + 5;
    var pf := pt + SizeB(s.t) + 5;
    n, m' := SimUntrue(c, s.c, p, pf, cur, st, k, m);
    var r := Eval(Compiled, s.c, cur, st, k);
    if !r.Val? {
      Relabel(c, m, r, n, m', 0, 0, 0, k, p + SizeS(s), brk, cnt);
    } else if Truthy(r.v) {
      var n2, m2 := SimB(c, s.f, pf, brk, cnt, cur, r.st, k, m');
      After(c, m, n, m', Run(Compiled, s.f, cur, r.st, k), n2, m2, p + SizeS(s), brk, cnt, k, k);
      n, m' := n + n2, m2;
    } else {
      n, m' := SimThen(c, s, s.t, pt, p + SizeS(s), brk, cnt, cur, st, r.st, k, m, n, m');
    }
  }

  // ----- loops -----

  /**
   * The end of one iteration: `r` is the body's result. The back edge at `q` leads to the
   * loop's start `p`, where the next iteration is simulated with one unit of fuel less.
   */
  lemma SimAgain(c: Program, s: Stmt, p: nat, q: nat, brk: int, cnt: int, cur: nat, st: State, k: nat,
                 m: Machine, r: Res, n1: nat, m1: Machine)
    returns (n: nat, m': Machine)
    requires BodiesLaid(c) && LayS(c, s, p, brk, cnt) && Live(c, cur, st, m) && m.ip == p
    requires Sim(c, m, r, n1, m1, q, p + SizeS(s), p, k) && n1 >= 1 && !r.Val?
    requires Goes(c, q, Always, p) && q != p
    ensures Sim(c, m, Again(Compiled, s, r, cur, k), n, m', p + SizeS(s), brk, cnt, k)
    decreases k, 0
  {
    hide Step, Steps, Fetch, Rel, CatchesOK, Handlers, Apply, Exec, LayS, BodiesLaid, Via, Live, Sim, SizeS, Goes;
    var end := p + SizeS(s);
    n, m' := n1, m1;
    if r.Next? || r.Continue? {
      Redirect(c, m, r, n1, m1, q, end, p, k, 0, 0);
      var at := if r.Next? then q else p;
      if r.Next? {
        Relabel(c, m, r, n1, m1, q, end, p, k, q, 0, 0);
      }
      ValueOf(c, cur, st, m, Next(r.st), n1, m1, at, 0, 0, k);
      if k == 0 {
        StillRunning(c, m, n1, m1, end, brk, cnt, 0);
      } else {
        if r.Next? {
          m' := GoTo(c, cur, r.st, m, n1, m1, p);
          n := n1 + 1;
        }
        var n2, m2 := SimS(c, s, p, brk, cnt, cur, r.st, k - 1, m');
        After(c, m, n, m', Exec(Compiled, s, cur, r.st, k - 1), n2, m2, end, brk, cnt, k - 1, k);
        n, m' := n + n2, m2;
      }
    } else if r.Break? {
      Redirect(c, m, r, n1, m1, q, end, p, k, brk, cnt);
    } else {
      Relabel(c, m, r, n1, m1, q, end, p, k, end, brk, cnt);
    }
  }

  lemma OpenWhile(c: Program, s: Stmt, p: nat, brk: int, cnt: int, cur: nat, st: State, k: nat)
    requires s.While? && LayS(c, s, p, brk, cnt)
    ensures var pb := p + SizeC(s.c); var end := p + SizeS(s);
      LayC(c, s.c, p, end) && LayB(c, s.b, pb, end, p) && Goes(c, pb + SizeB(s.b), Always, p) && end ==
          pb + SizeB(s.b) + 5
    ensures var r := Test(Compiled, s.c, cur, st, k);
      Exec(Compiled, s, cur, st, k) ==
        if !r.Val? then r
        else if r.v == Bool(true) then Again(Compiled, s, Run(Compiled, s.b, cur, r.st, k), cur, k) else Next(r.st)
  {
    hide Fetch, LayC, LayB, Test, Run, Again, SizeC, SizeB;
  }

  lemma SimWhile(c: Program, s: Stmt, p: nat, brk: int, cnt: int, cur: nat, st: State, k: nat, m: Machine)
    returns (n: nat, m': Machine)
    requires s.While? && BodiesLaid(c) && LayS(c, s, p, brk, cnt) && Live(c, cur, st, m) && m.ip == p
    ensures Sim(c, m, Exec(Compiled, s, cur, st, k), n, m', p + SizeS(s), brk, cnt, k)
    decreases k, 1, s, 0
  {
    hide Step, Steps, Fetch, Rel, CatchesOK, Handlers, Apply, Test, Run, Again, Exec, LayC, LayB, LayS,
      BodiesLaid, Via, Live, Sim, SizeC, SizeB, SizeS, Goes;
    OpenWhile(c, s, p, brk, cnt, cur, st, k);
    var pb, end := p + SizeC(s.c), p + SizeS(s);
    n, m' := SimTest(c, s.c, p, end, cur, st, k, m);
    var r := Test(Compiled, s.c, cur, st, k);
    if !r.Val? {
      Relabel(c, m, r, n, m', 0, 0, 0, k, end, brk, cnt);
    } else if r.v == Bool(true) {
      var n2, m2 := SimB(c, s.b, pb, end, p, cur, r.st, k, m');
      var r2 := Run(Compiled, s.b, cur, r.st, k);
      After(c, m, n, m', r2, n2, m2, pb + SizeB(s.b), end, p, k, k);
      n, m' := SimAgain(c, s, p, pb + SizeB(s.b), brk, cnt, cur, st, k, m, r2, n + n2, m2);
    } else {
      Arrived(c, cur, m, n, m', Next(r.st), end, brk, cnt, k);
    }
  }

  lemma OpenUntil(c: Program, s: Stmt, p: nat, brk: int, cnt: int, cur: nat, st: State, k: nat)
    requires s.Until? && LayS(c, s, p, brk, cnt)
    ensures var pb := p + SizeE(s.c) + 5; var end := p + SizeS(s);
      LayE(c, s.c, p) && Goes(c, p + SizeE(s.c), IfTrue, end) && LayB(c, s.b, pb, end, p) &&
      Goes(c, pb + SizeB(s.b), Always, p) && end == pb + SizeB(s.b) + 5
    ensures var r := Eval(Compiled, s.c, cur, st, k);
      Exec(Compiled, s, cur, st, k) ==
        if !r.Val? then r
        else if Truthy(r.v) then Next(r.st) else Again(Compiled, s, Run(Compiled, s.b, cur, r.st, k), cur, k)
  {
    hide Fetch, LayE, LayB, Eval, Run, Again, SizeE, SizeB, Truthy;
  }

  lemma SimUntil(c: Program, s: Stmt, p: nat, brk: int, cnt: int, cur: nat, st: State, k: nat, m: Machine)
    returns (n: nat, m': Machine)
    requires s.Until? && BodiesLaid(c) && LayS(c, s, p, brk, cnt) && Live(c, cur, st, m) && m.ip == p
    ensures Sim(c, m, Exec(Compiled, s, cur, st, k), n, m', p + SizeS(s), brk, cnt, k)
    decreases k, 1, s, 0
  {
    hide Step, Steps, Fetch, Rel, CatchesOK, Handlers, Apply, Eval, Run, Again, Exec, LayE, LayB, LayS,
      BodiesLaid, Via, Live, Sim, SizeE, SizeB, SizeS, Goes, Truthy;
    OpenUntil(c, s, p, brk, cnt, cur, st, k);
    var pb, end := p + SizeE(s.c) + 5, p + SizeS(s);
    n, m' := SimUntrue(c, s.c, p, end, cur, st, k, m);
    var r := Eval(Compiled, s.c, cur, st, k);
    if !r.Val? {
      Relabel(c, m, r, n, m', 0, 0, 0, k, end, brk, cnt);
    } else if Truthy(r.v) {
      Arrived(c, cur, m, n, m', Next(r.st), end, brk, cnt, k);
    } else {
      var n2, m2 := SimB(c, s.b, pb, end, p, cur, r.st, k, m');
      var r2 := Run(Compiled, s.b, cur, r.st, k);
      After(c, m, n, m', r2, n2, m2, pb + SizeB(s.b), end, p, k, k);
      n, m' := SimAgain(c, s, p, pb + SizeB(s.b), brk, cnt, cur, st, k, m, r2, n + n2, m2);
    }
  }

  lemma OpenLoop(c: Program, s: Stmt, p: nat, brk: int, cnt: int, cur: nat, st: State, k: nat)
    requires s.Loop? && LayS(c, s, p, brk, cnt)
    ensures LayB(c, s.b, p, p + SizeS(s), p) && Goes(c, p + SizeB(s.b), Always, p) && SizeS(s) == SizeB(s.b) + 5
    ensures Exec(Compiled, s, cur, st, k) == Again(Compiled, s, Run(Compiled, s.b, cur, st, k), cur, k)
  {
    hide Fetch, LayB, Run, Again, SizeB;
  }

  lemma SimLoop(c: Program, s: Stmt, p: nat, brk: int, cnt: int, cur: nat, st: State, k: nat, m: Machine)
    returns (n: nat, m': Machine)
    requires s.Loop? && BodiesLaid(c) && LayS(c, s, p, brk, cnt) && Live(c, cur, st, m) && m.ip == p
    ensures Sim(c, m, Exec(Compiled, s, cur, st, k), n, m', p + SizeS(s), brk, cnt, k)
    decreases k, 1, s, 0
  {
    hide Step, Steps, Fetch, Rel, CatchesOK, Handlers, Apply, Run, Again, Exec, LayB, LayS, BodiesLaid, Via,
      Live, Sim, SizeB, SizeS, Goes;
    OpenLoop(c, s, p, brk, cnt, cur, st, k);
    n, m' := SimB(c, s.b, p, p + SizeS(s), p, cur, st, k, m);
    n, m' := SimAgain(c, s, p, p + SizeB(s.b), brk, cnt, cur, st, k, m, Run(Compiled, s.b, cur, st, k), n, m');
  }

  /** The body of a do loop: next and continue both reach the condition. */
  lemma SimOnce(c: Program, s: Stmt, b: Stmts, p: nat, end: int, cur: nat, st: State, k: nat, m: Machine)
    returns (n: nat, m': Machine)
    requires b < s && BodiesLaid(c) && LayB(c, b, p, end, p + SizeB(b)) && Live(c, cur, st, m) && m.ip == p
    ensures var r := Run(Compiled, b, cur, st, k);
      n >= 1 && !r.Val? &&
      if r.Next? || r.Continue? then
        Via(c, m, n, m') && Live(c, cur, r.st, m') && m'.ip == p + SizeB(b) && m'.stack == m.stack
      else Sim(c, m, r, n, m', 0, end, 0, k)
    decreases k, 1, b, 4
  {
    hide Step, Steps, Fetch, Rel, CatchesOK, Handlers, Apply, Run, LayB, BodiesLaid, Via, Live, Sim, SizeB;
    n, m' := SimB(c, b, p, end, p + SizeB(b), cur, st, k, m);
    var r := Run(Compiled, b, cur, st, k);
    if r.Next? || r.Continue? {
      Redirect(c, m, r, n, m', p + SizeB(b), end, p + SizeB(b), k, end, p + SizeB(b));
      ValueOf(c, cur, st, m, Next(r.st), n, m', p + SizeB(b), end, p + SizeB(b), k);
    } else {
      Relabel(c, m, r, n, m', p + SizeB(b), end, p + SizeB(b), k, 0, end, 0);
    }
  }

  lemma OpenDoWhile(c: Program, s: Stmt, p: nat, brk: int, cnt: int, cur: nat, st: State, k: nat)
    requires s.DoWhile? && LayS(c, s, p, brk, cnt)
    ensures var pd := p + SizeB(s.b); var end := p + SizeS(s);
      LayB(c, s.b, p, end, pd) && LayC(c, s.c, pd, end) && Goes(c, pd + SizeC(s.c), Always, p) && end ==
          pd + SizeC(s.c) + 5
    ensures var r := Run(Compiled, s.b, cur, st, k);
      Exec(Compiled, s, cur, st, k) ==
        if r.Break? then Next(r.st)
        else if r.Next? || r.Continue? then
          (var t := Test(Compiled, s.c, cur, r.st, k);
           if !t.Val? then t else if t.v == Bool(true) then Again(Compiled, s, Next(t.st), cur, k) else Next(t.st))
        else r
  {
    hide Fetch, LayC, LayB, Test, Run, Again, SizeC, SizeB;
  }

  lemma SimDoWhile(c: Program, s: Stmt, p: nat, brk: int, cnt: int, cur: nat, st: State, k: nat, m: Machine)
    returns (n: nat, m': Machine)
    requires s.DoWhile? && BodiesLaid(c) && LayS(c, s, p, brk, cnt) && Live(c, cur, st, m) && m.ip == p
    ensures Sim(c, m, Exec(Compiled, s, cur, st, k), n, m', p + SizeS(s), brk, cnt, k)
    decreases k, 1, s, 0
  {
    hide Step, Steps, Fetch, Rel, CatchesOK, Handlers, Apply, Test, Run, Again, Exec, LayC, LayB, LayS,
      BodiesLaid, Via, Live, Sim, SizeC, SizeB, SizeS, Goes;
    OpenDoWhile(c, s, p, brk, cnt, cur, st, k);
    var pd, end := p + SizeB(s.b), p + SizeS(s);
    n, m' := SimOnce(c, s, s.b, p, end, cur, st, k, m);
    var r := Run(Compiled, s.b, cur, st, k);
    if r.Next? || r.Continue? {
      var n2, m2 := SimTest(c, s.c, pd, end, cur, r.st, k, m');
      var t := Test(Compiled, s.c, cur, r.st, k);
      if t.Val? {
        Compose(c, m, n, m', n2, m2);
        if t.v == Bool(true) {
          Arrived(c, cur, m, n + n2, m2, Next(t.st), pd + SizeC(s.c), end, p, k);
          n, m' := SimAgain(c, s, p, pd + SizeC(s.c), brk, cnt, cur, st, k, m, Next(t.st), n + n2, m2);
        } else {
          n, m' := n + n2, m2;
          Arrived(c, cur, m, n, m', Next(t.st), end, brk, cnt, k);
        }
      } else {
        After(c, m, n, m', t, n2, m2, 0, 0, 0, k, k);
        n, m' := n + n2, m2;
        Relabel(c, m, t, n, m', 0, 0, 0, k, end, brk, cnt);
      }
    } else if r.Break? {
      Redirect(c, m, r, n, m', 0, end, 0, k, brk, cnt);
    } else {
      Relabel(c, m, r, n, m', 0, end, 0, k, end, brk, cnt);
    }
  }

  lemma OpenDoUntil(c: Program, s: Stmt, p: nat, brk: int, cnt: int, cur: nat, st: State, k: nat)
    requires s.DoUntil? && LayS(c, s, p, brk, cnt)
    ensures var pd := p + SizeB(s.b); var end := p + SizeS(s);
      LayB(c, s.b, p, end, pd) && LayE(c, s.c, pd) && Goes(c, pd + SizeE(s.c), IfTrue, end) &&
      Goes(c, pd + SizeE(s.c) + 5, Always, p) && end == pd + SizeE(s.c) + 10
    ensures var r := Run(Compiled, s.b, cur, st, k);
      Exec(Compiled, s, cur, st, k) ==
        if r.Break? then Next(r.st)
        else if r.Next? || r.Continue? then
          (var t := Eval(Compiled, s.c, cur, r.st, k);
           if !t.Val? then t else if Truthy(t.v) then Next(t.st) else Again(Compiled, s, Next(t.st), cur, k))
        else r
  {
    hide Fetch, LayE, LayB, Eval, Run, Again, SizeE, SizeB, Truthy;
  }

  lemma SimDoUntil(c: Program, s: Stmt, p: nat, brk: int, cnt: int, cur: nat, st: State, k: nat, m: Machine)
    returns (n: nat, m': Machine)
    requires s.DoUntil? && BodiesLaid(c) && LayS(c, s, p, brk, cnt) && Live(c, cur, st, m) && m.ip == p
    ensures Sim(c, m, Exec(Compiled, s, cur, st, k), n, m', p + SizeS(s), brk, cnt, k)
    decreases k, 1, s, 0
  {
    hide Step, Steps, Fetch, Rel, CatchesOK, Handlers, Apply, Eval, Run, Again, Exec, LayE, LayB, LayS,
      BodiesLaid, Via, Live, Sim, SizeE, SizeB, SizeS, Goes, Truthy;
    OpenDoUntil(c, s, p, brk, cnt, cur, st, k);
    var pd, end := p + SizeB(s.b), p + SizeS(s);
    n, m' := SimOnce(c, s, s.b, p, end, cur, st, k, m);
    var r := Run(Compiled, s.b, cur, st, k);
    if r.Next? || r.Continue? {
      var n2, m2 := SimUntrue(c, s.c, pd, end, cur, r.st, k, m');
      var t := Eval(Compiled, s.c, cur, r.st, k);
      if t.Val? {
        Compose(c, m, n, m', n2, m2);
        if Truthy(t.v) {
          n, m' := n + n2, m2;
          Arrived(c, cur, m, n, m', Next(t.st), end, brk, cnt, k);
        } else {
          var q := pd + SizeE(s.c) + 5;
          Arrived(c, cur, m, n + n2, m2, Next(t.st), q, end, p, k);
          n, m' := SimAgain(c, s, p, q, brk, cnt, cur, st, k, m, Next(t.st), n + n2, m2);
        }
      } else {
        After(c, m, n, m', t, n2, m2, 0, 0, 0, k, k);
        n, m' := n + n2, m2;
        Relabel(c, m, t, n, m', 0, 0, 0, k, end, brk, cnt);
      }
    } else if r.Break? {
      Redirect(c, m, r, n, m', 0, end, 0, k, brk, cnt);
    } else {
      Relabel(c, m, r, n, m', 0, end, 0, k, end, brk, cnt);
    }
  }

  // ----- jumps -----

  lemma SimLeave(c: Program, s: Stmt, p: nat, brk: int, cnt: int, cur: nat, st: State, k: nat, m: Machine)
    returns (n: nat, m': Machine)
    requires (s.BreakS? || s.ContinueS?) && LayS(c, s, p, brk, cnt) && Live(c, cur, st, m) && m.ip == p
    ensures Sim(c, m, Exec(Compiled, s, cur, st, k), n, m', p + SizeS(s), brk, cnt, k)
  {
    hide Step, Steps, Fetch, Rel, CatchesOK, Handlers, Apply;
    Begin(c, cur, st, m);
    m' := GoTo(c, cur, st, m, 0, m, if s.BreakS? then brk else cnt);
    n := 1;
  }

  lemma OpenReturn(c: Program, s: Stmt, p: nat, brk: int, cnt: int, cur: nat, st: State, k: nat)
    requires s.ReturnS? && LayS(c, s, p, brk, cnt)
    ensures LayE(c, s.e, p) && Fetch(c.code, p + SizeE(s.e)) == Some(ReturnOp)
    ensures var r := Eval(Compiled, s.e, cur, st, k);
      OfExpr(r) && Exec(Compiled, s, cur, st, k) == if r.Val? then Return(r.v, r.st) else r
  {
    hide Fetch, LayE, Eval;
  }

  lemma SimReturn(c: Program, s: Stmt, p: nat, brk: int, cnt: int, cur: nat, st: State, k: nat, m: Machine)
    returns (n: nat, m': Machine)
    requires s.ReturnS? && BodiesLaid(c) && LayS(c, s, p, brk, cnt) && Live(c, cur, st, m) && m.ip == p
    ensures Sim(c, m, Exec(Compiled, s, cur, st, k), n, m', p + SizeS(s), brk, cnt, k)
    decreases k, 1, s, 0
  {
    hide Step, Steps, Fetch, Rel, CatchesOK, Handlers, Apply, Eval, Exec, LayE, LayS, BodiesLaid, Via, Live,
      Sim, SizeE, SizeS;
    OpenReturn(c, s, p, brk, cnt, cur, st, k);
    n, m' := SimE(c, s.e, p, cur, st, k, m);
    var r := Eval(Compiled, s.e, cur, st, k);
    if r.Val? {
      ValueOf(c, cur, st, m, r, n, m', p + SizeE(s.e), 0, 0, k);
      AtReturn(c, cur, r.st, m, n, m', r.v, p + SizeS(s), brk, cnt, k);
    } else {
      Relabel(c, m, r, n, m', p + SizeE(s.e), 0, 0, k, p + SizeS(s), brk, cnt);
    }
  }

  lemma OpenThrow(c: Program, s: Stmt, p: nat, brk: int, cnt: int, cur: nat, st: State, k: nat)
    requires s.ThrowS? && LayS(c, s, p, brk, cnt)
    ensures LayE(c, s.e, p) && Fetch(c.code, p + SizeE(s.e)) == Some(ThrowOp)
    ensures var r := Eval(Compiled, s.e, cur, st, k);
      OfExpr(r) && Exec(Compiled, s, cur, st, k) == if r.Val? then Throw(r.v, r.st) else r
  {
    hide Fetch, LayE, Eval;
  }

  lemma SimThrow(c: Program, s: Stmt, p: nat, brk: int, cnt: int, cur: nat, st: State, k: nat, m: Machine)
    returns (n: nat, m': Machine)
    requires s.ThrowS? && BodiesLaid(c) && LayS(c, s, p, brk, cnt) && Live(c, cur, st, m) && m.ip == p
    ensures Sim(c, m, Exec(Compiled, s, cur, st, k), n, m', p + SizeS(s), brk, cnt, k)
    decreases k, 1, s, 0
  {
    hide Step, Steps, Fetch, Rel, CatchesOK, Handlers, Apply, Eval, Exec, LayE, LayS, BodiesLaid, Via, Live,
      Sim, SizeE, SizeS;
    OpenThrow(c, s, p, brk, cnt, cur, st, k);
    n, m' := SimE(c, s.e, p, cur, st, k, m);
    var r := Eval(Compiled, s.e, cur, st, k);
    if r.Val? {
      ValueOf(c, cur, st, m, r, n, m', p + SizeE(s.e), 0, 0, k);
      m' := GoThrow(c, cur, r.st, m, n, m', m.stack, r.v, p + SizeS(s), brk, cnt, k);
      n := n + 1;
    } else {
      Relabel(c, m, r, n, m', p + SizeE(s.e), 0, 0, k, p + SizeS(s), brk, cnt);
    }
  }

  // ----- switch -----

  /** What a switch does once the subject has been compared with all conditions. */
  function Chosen(x: CaseRes, otherwise: Option<Stmts>, cur: nat, k: nat): Res {
    match x
    case NotChosen(s2) => LeaveSwitch(RunOpt(Compiled, otherwise, cur, s2, k))
    case CaseDone(r) => LeaveSwitch(r)
  }

  /** One case's conditions: at its block if one matched, at the next case's conditions if none did. */
  ghost predicate Compared(c: Program, cur: nat, m: Machine, v: Value, r: Res, n: nat, m': Machine, yes: int,
      no: int, k: nat) {
    if r.Val? then
      Via(c, m, n, m') && Live(c, cur, r.st, m') && m'.stack == m.stack + [v] && m'.ip ==
          (if r.v == Bool(true) then yes else no)
    else OfExpr(r) && Sim(c, m, r, n, m', 0, 0, 0, k)
  }

  lemma OpenConds(c: Program, es: Exprs, p: nat, block: int)
    requires es.MoreExprs? && LayConds(c, es, p, block)
    ensures var e := es.head;
      Fetch(c.code, p) == Some(Dup) && LayE(c, e, p + 1) && Fetch(c.code, p + 1 + SizeE(e)) == Some(Operator(Eq)) &&
      Goes(c, p + 2 + SizeE(e), IfTrue, block) && LayConds(c, es.tail, p + 7 + SizeE(e), block) &&
      SizeConds(es) == 7 + SizeE(e) + SizeConds(es.tail)
  {
    hide Fetch, LayE, SizeE;
  }

  lemma CondsMeaning(es: Exprs, v: Value, cur: nat, st: State, k: nat)
    requires es.MoreExprs?
    ensures var r := Eval(Compiled, es.head, cur, st, k);
      OfExpr(r) && Matches(Compiled, es, v, cur, st, k) ==
        if !r.Val? then r
        else
          match Binary(Eq, v, r.v)
          case None => Stuck
          case Some(hit) => if Truthy(hit) then Val(Bool(true), r.st) else Matches(Compiled, es.tail, v, cur, r.st, k)
  {
    hide Binary, Truthy, Eval;
  }

  lemma SimConds(c: Program, es: Exprs, p: nat, block: int, v: Value, cur: nat, st: State, k: nat, m: Machine,
      n1: nat, m1: Machine)
    returns (n: nat, m': Machine)
    requires BodiesLaid(c) && LayConds(c, es, p, block) && block >= p + SizeConds(es)
    requires Via(c, m, n1, m1) && Live(c, cur, st, m1) && m1.ip == p && m1.stack == m.stack + [v]
    ensures Compared(c, cur, m, v, Matches(Compiled, es, v, cur, st, k), n, m', block, p + SizeConds(es), k)
    decreases k, 1, es, 1
  {
    hide Step, Steps, Fetch, Rel, CatchesOK, Handlers, Apply, Eval, LayE, LayConds, BodiesLaid, Via, Live,
      Sim, SizeE, Goes, Truthy, Binary;
    n, m' := n1, m1;
    match es
    case NoExprs =>
    case MoreExprs(e, t) =>
      OpenConds(c, es, p, block);
      CondsMeaning(es, v, cur, st, k);
      m' := GoDup(c, cur, st, m, n, m', m.stack, v);
      n := n + 1;
      var n2, m2 := SimE(c, e, p + 1, cur, st, k, m');
      var r := Eval(Compiled, e, cur, st, k);
      if r.Val? {
        ValueOf(c, cur, st, m', r, n2, m2, p + 1 + SizeE(e), 0, 0, k);
        Compose(c, m, n, m', n2, m2);
        if Binary(Eq, v, r.v).Some? {
          n, m' := CompareOne(c, e, p, block, v, r.v, cur, r.st, m, n + n2, m2);
          if !Truthy(Binary(Eq, v, r.v).value) {
            n, m' := SimConds(c, t, p + 7 + SizeE(e), block, v, cur, r.st, k, m, n, m');
          }
        } else {
          AnyStuck(c, m, n, m', 0, 0, 0, k);
        }
      } else {
        After(c, m, n, m', r, n2, m2, p + 1 + SizeE(e), 0, 0, k, k);
        n, m' := n + n2, m2;
        Relabel(c, m, r, n, m', p + 1 + SizeE(e), 0, 0, k, 0, 0, 0);
      }
  }

  /** Compare the copy of the subject with one condition's value and branch. */
  lemma CompareOne(c: Program, e: Expr, p: nat, block: int, v: Value, w: Value, cur: nat, st: State, m: Machine,
      n1: nat, m1: Machine)
    returns (n: nat, m': Machine)
    requires Via(c, m, n1, m1) && Live(c, cur, st, m1) && m1.ip == p + 1 + SizeE(e) && m1.stack ==
        m.stack + [v, v] + [w]
    requires Fetch(c.code, p + 1 + SizeE(e)) == Some(Operator(Eq)) && Goes(c, p + 2 + SizeE(e), IfTrue, block)
    requires Binary(Eq, v, w).Some? && block > p + 2 + SizeE(e)
    ensures Via(c, m, n, m') && Live(c, cur, st, m') && m'.stack == m.stack + [v]
    ensures m'.ip == if Truthy(Binary(Eq, v, w).value) then block else p + 7 + SizeE(e)
  {
    hide Step, Steps, Fetch, Rel, CatchesOK, Handlers, Apply, Via, Live, SizeE, Goes, Truthy, Binary;
    assert m1.stack == (m.stack + [v]) + [v, w];
    m' := GoOperator(c, cur, st, m, n1, m1, Eq, m.stack + [v], v, w);
    m' := GoIf(c, cur, st, m, n1 + 1, m', IfTrue, block, m.stack + [v], Binary(Eq, v, w).value);
    n := n1 + 2;
  }

  /** The comparisons of a whole switch, and the chosen block. */
  ghost predicate Selected(c: Program, cur: nat, m: Machine, v: Value, x: CaseRes, n: nat, m': Machine, miss: int,
      end: int, brk: int, cnt: int, k: nat) {
    match x
    case NotChosen(s) => Via(c, m, n, m') && Live(c, cur, s, m') && m'.stack == m.stack + [v] && m'.ip == miss
    case CaseDone(r) => !r.Val? && Sim(c, m, LeaveSwitch(r), n, m', end, brk, cnt, k)
  }

  lemma OpenCases(c: Program, cases: Cases, tests: nat, blocks: nat, end: int, cnt: int, v: Value, cur: nat,
      st: State, k: nat)
    requires cases.MoreCases? && LayTests(c, cases, tests, blocks) && LayBlocks(c, cases, blocks, end, cnt)
    ensures LayConds(c, cases.conds, tests, blocks)
    ensures LayTests(c, cases.rest, tests + SizeConds(cases.conds), blocks + SizeB(cases.block) + 6)
    ensures Fetch(c.code, blocks) == Some(Pop) && LayB(c, cases.block, blocks + 1, end, cnt)
    ensures Goes(c, blocks + 1 + SizeB(cases.block), Always, end)
    ensures LayBlocks(c, cases.rest, blocks + SizeB(cases.block) + 6, end, cnt)
    ensures SizeTests(cases) == SizeConds(cases.conds) + SizeTests(cases.rest)
    ensures SizeBlocks(cases) == SizeB(cases.block) + 6 + SizeBlocks(cases.rest)
    ensures var r := Matches(Compiled, cases.conds, v, cur, st, k);
      OfExpr(r) && Select(Compiled, cases, v, cur, st, k) ==
        if !r.Val? then CaseDone(r)
        else if r.v == Bool(true) then CaseDone(Run(Compiled, cases.block, cur, r.st, k))
        else Select(Compiled, cases.rest, v, cur, r.st, k)
  {
    hide Fetch, Run, Matches, LayConds, LayB, SizeConds, SizeB;
  }

  lemma SimSelect(c: Program, cases: Cases, tests: nat, blocks: nat, end: int, brk: int, cnt: int, v: Value,
      cur: nat, st0: State,
                  st: State, k: nat, m: Machine, n1: nat, m1: Machine)
    returns (n: nat, m': Machine)
    requires BodiesLaid(c) && LayTests(c, cases, tests, blocks) && LayBlocks(c, cases, blocks, end, cnt)
    requires blocks >= tests + SizeTests(cases) && end >= blocks + SizeBlocks(cases)
    requires Live(c, cur, st0, m) && Via(c, m, n1, m1) && Live(c, cur, st, m1) && m1.ip == tests && m1.stack ==
        m.stack + [v]
    ensures Selected(c, cur, m, v, Select(Compiled, cases, v, cur, st, k), n, m', tests + SizeTests(cases), end, brk,
        cnt, k)
    decreases k, 1, cases, 1
  {
    hide Step, Steps, Fetch, Rel, CatchesOK, Handlers, Apply, Run, Matches, LayB, LayConds, LayTests,
      LayBlocks, BodiesLaid, Via, Live, Sim, SizeB, SizeConds, Goes;
    n, m' := n1, m1;
    match cases
    case NoCases =>
    case MoreCases(conds, b, rest) =>
      OpenCases(c, cases, tests, blocks, end, cnt, v, cur, st, k);
      n, m' := SimConds(c, conds, tests, blocks, v, cur, st, k, m, n, m');
      var r := Matches(Compiled, conds, v, cur, st, k);
      if !r.Val? {
        Relabel(c, m, r, n, m', 0, 0, 0, k, end, brk, cnt);
      } else if r.v == Bool(true) {
        n, m' := SimCase(c, cases, b, blocks, end, brk, cnt, v, cur, st0, r.st, k, m, n, m');
      } else {
        n, m' := SimSelect(c, rest, tests + SizeConds(conds), blocks + SizeB(b) + 6, end, brk, cnt, v, cur, st0,
            r.st, k, m, n, m');
      }
  }

  /** A chosen case: the subject is popped, the block runs, and control goes to the end of the switch. */
  lemma SimCase(c: Program, cases: Cases, b: Stmts, p: nat, end: int, brk: int, cnt: int, v: Value, cur: nat,
      st0: State, st: State, k: nat,
                m: Machine, n1: nat, m1: Machine)
    returns (n: nat, m': Machine)
    requires b < cases && BodiesLaid(c) && Fetch(c.code, p) == Some(Pop) && LayB(c, b, p + 1, end, cnt)
    requires Goes(c, p + 1 + SizeB(b), Always, end) && end > p + 1 + SizeB(b)
    requires Live(c, cur, st0, m) && Via(c, m, n1, m1) && Live(c, cur, st, m1) && m1.ip == p && m1.stack ==
        m.stack + [v]
    ensures var r := Run(Compiled, b, cur, st, k);
      !r.Val? && Sim(c, m, LeaveSwitch(r), n, m', end, brk, cnt, k)
    decreases k, 1, b, 4
  {
    hide Step, Steps, Fetch, Rel, CatchesOK, Handlers, Apply, Run, LayB, BodiesLaid, Via, Live, Sim, SizeB, Goes;
    var m2 := GoPop(c, cur, st, m, n1, m1, m.stack, v);
    var n3, m3 := SimB(c, b, p + 1, end, cnt, cur, st, k, m2);
    var r := Run(Compiled, b, cur, st, k);
    After(c, m, n1 + 1, m2, r, n3, m3, p + 1 + SizeB(b), end, cnt, k, k);
    n, m' := AndGoTo(c, cur, st0, m, r, n1 + 1 + n3, m3, p + 1 + SizeB(b), end, end, cnt, k);
    LeftSwitch(c, m, r, n, m', end, brk, cnt, k);
  }

  lemma LeftSwitch(c: Program, m: Machine, r: Res, n: nat, m1: Machine, end: int, brk: int, cnt: int, k: nat)
    requires Sim(c, m, r, n, m1, end, end, cnt, k)
    ensures Sim(c, m, LeaveSwitch(r), n, m1, end, brk, cnt, k)
  {
    hide Step, Steps, Fetch, Rel;
  }

  lemma OpenSwitch(c: Program, s: Stmt, p: nat, brk: int, cnt: int, cur: nat, st: State, k: nat)
    requires s.Switch? && LayS(c, s, p, brk, cnt)
    ensures var tests := p + SizeE(s.c); var skip := tests + SizeTests(s.cases); var blocks := skip + SizeSkip(s.cases);
      var default := blocks + SizeBlocks(s.cases); var end := p + SizeS(s);
      LayE(c, s.c, p) && LayTests(c, s.cases, tests, blocks) &&
          (s.cases.MoreCases? ==> Goes(c, skip, Always, default)) &&
      LayBlocks(c, s.cases, blocks, end, cnt) && Fetch(c.code, default) == Some(Pop) &&
      LayO(c, s.otherwise, default + 1, end, cnt) && end == default + 1 + SizeO(s.otherwise)
    ensures var r := Eval(Compiled, s.c, cur, st, k);
      OfExpr(r) && Exec(Compiled, s, cur, st, k) ==
        if !r.Val? then r else Chosen(Select(Compiled, s.cases, r.v, cur, r.st, k), s.otherwise, cur, k)
  {
    hide Fetch, LayE, LayTests, LayBlocks, LayO, Eval, Select, SizeTests, SizeBlocks, RunOpt, LeaveSwitch, SizeO;
  }

  lemma SimSwitch(c: Program, s: Stmt, p: nat, brk: int, cnt: int, cur: nat, st: State, k: nat, m: Machine)
    returns (n: nat, m': Machine)
    requires s.Switch? && BodiesLaid(c) && LayS(c, s, p, brk, cnt) && Live(c, cur, st, m) && m.ip == p
    ensures Sim(c, m, Exec(Compiled, s, cur, st, k), n, m', p + SizeS(s), brk, cnt, k)
    decreases k, 1, s, 0
  {
    hide Step, Steps, Fetch, Rel, CatchesOK, Handlers, Apply, Eval, Exec, Select, LayE, LayS, LayTests,
      LayBlocks, LayO, BodiesLaid, Via, Live, Sim, SizeE, SizeS, SizeTests, SizeBlocks, SizeO, Goes, RunOpt,
      LeaveSwitch;
    OpenSwitch(c, s, p, brk, cnt, cur, st, k);
    var tests := p + SizeE(s.c);
    var skip := tests + SizeTests(s.cases);
    var blocks := skip + SizeSkip(s.cases);
    var default := blocks + SizeBlocks(s.cases);
    var end := p + SizeS(s);
    n, m' := SimE(c, s.c, p, cur, st, k, m);
    var r := Eval(Compiled, s.c, cur, st, k);
    if r.Val? {
      ValueOf(c, cur, st, m, r, n, m', tests, 0, 0, k);
      n, m' := SimSelect(c, s.cases, tests, blocks, end, brk, cnt, r.v, cur, st, r.st, k, m, n, m');
      var x := Select(Compiled, s.cases, r.v, cur, r.st, k);
      if x.NotChosen? {
        if s.cases.MoreCases? {
          m' := GoTo(c, cur, x.st, m, n, m', default);
          n := n + 1;
        } else {
          NoTests(s.cases);
        }
        n, m' := SimDefault(c, s, default, end, brk, cnt, r.v, cur, x.st, k, m, n, m');
      }
    } else {
      Relabel(c, m, r, n, m', tests, 0, 0, k, end, brk, cnt);
    }
  }

  lemma NoTests(cases: Cases)
    requires cases.NoCases?
    ensures SizeTests(cases) == 0 && SizeSkip(cases) == 0 && SizeBlocks(cases) == 0
  {
  }

  /** No case matched: the subject is popped and the default block, if any, runs. */
  lemma SimDefault(c: Program, s: Stmt, p: nat, end: int, brk: int, cnt: int, v: Value, cur: nat, st: State, k: nat,
                   m: Machine, n1: nat, m1: Machine)
    returns (n: nat, m': Machine)
    requires s.Switch? && BodiesLaid(c) && Fetch(c.code, p) == Some(Pop) && LayO(c, s.otherwise, p + 1, end, cnt)
    requires end == p + 1 + SizeO(s.otherwise)
    requires Via(c, m, n1, m1) && Live(c, cur, st, m1) && m1.ip == p && m1.stack == m.stack + [v]
    ensures Sim(c, m, LeaveSwitch(RunOpt(Compiled, s.otherwise, cur, st, k)), n, m', end, brk, cnt, k)
    decreases k, 1, s.otherwise, 5
  {
    hide Step, Steps, Fetch, Rel, CatchesOK, Handlers, Apply, LayO, BodiesLaid, Via, Live, Sim, SizeO, RunOpt,
      LeaveSwitch;
    var m2 := GoPop(c, cur, st, m, n1, m1, m.stack, v);
    var n3, m3 := SimO(c, s.otherwise, p + 1, end, cnt, cur, st, k, m2);
    var r := RunOpt(Compiled, s.otherwise, cur, st, k);
    After(c, m, n1 + 1, m2, r, n3, m3, end, end, cnt, k, k);
    n, m' := n1 + 1 + n3, m3;
    LeftSwitch(c, m, r, n, m', end, brk, cnt, k);
  }

  // ----- exceptions -----

  /** A guarded block: completed at `pf`, or at the handler `ph` with the exception on the saved stack. */
  ghost predicate Guarded(c: Program, cur: nat, m: Machine, r: Res, n: nat, m': Machine, ph: int, pf: int, k: nat) {
    match r
    case Next(s1) => Via(c, m, n, m') && Live(c, cur, s1, m') && m'.ip == pf && m'.stack == m.stack
    case Throw(v, s1) => Via(c, m, n, m') && Live(c, cur, s1, m') && m'.ip == ph && m'.stack == m.stack + [v]
    case _ => (r.Return? || r.Timeout? || r.Stuck?) && Sim(c, m, r, n, m', 0, 0, 0, k)
  }

  lemma Registered(c: Program, cur: nat, st: State, m: Machine, ph: int) returns (m1: Machine)
    requires Live(c, cur, st, m) && m.ip >= 0 && Fetch(c.code, m.ip) == Some(RegisterCatchTable(ph - m.ip))
    requires StoresFirst(c, ph)
    ensures Steps(c.code, m, 1) == m1 && Live(c, cur, st, m1) && m1.ip == m.ip + 5 && m1.stack == m.stack &&
        m1.heap == m.heap
    ensures m1.catches == m.catches + [Table(cur, ph, |m.stack|)] && m1.cur == m.cur
  {
    hide Step, Steps, Fetch, Rel, CatchesOK, Handlers;
    assert Steps(c.code, m, 0) == m by { Begin(c, cur, st, m); StartAt(c, m); }
    Then(c, m, 0, m, RegisterCatchTable(ph - m.ip));
    m1 := Apply(c.code, RegisterCatchTable(ph - m.ip), m);
    assert m.stack[..|m.stack|] == m.stack;
    TableOK(m.heap.frames, cur, |m.stack|, m.catches, ph);
    OneMoreHandler(c, m.catches, Table(cur, ph, |m.stack|));
  }

  lemma OneMoreHandler(c: Program, ts: seq<Table>, t: Table)
    requires Handlers(c, ts) && StoresFirst(c, t.address)
    ensures Handlers(c, ts + [t])
  {
    hide Fetch;
  }

  lemma StartAt(c: Program, m: Machine)
    ensures Steps(c.code, m, 0) == m
  {
    hide Step, Fetch;
  }

  lemma TableOK(frames: seq<Frame>, cur: nat, size: nat, ts: seq<Table>, ph: int)
    requires cur < |frames| && CatchesOK(frames, Some(cur), size, ts)
    ensures CatchesOK(frames, Some(cur), size, ts + [Table(cur, ph, size)])
  {
    var us := ts + [Table(cur, ph, size)];
    assert us[..|us| - 1] == ts;
  }

  /** Leaving a guarded block by completing it: the table is popped, control goes to `pf`. */
  lemma SimUnguard(c: Program, cur: nat, st: State, m: Machine, m1: Machine, n2: nat, m2: Machine, q: nat, pf: int,
      t: Table)
    returns (n: nat, m': Machine)
    requires m.cur == Some(cur) && CatchesOK(m.heap.frames, m.cur, |m.stack|, m.catches) && cur < |m.heap.frames|
    requires Handlers(c, m.catches)
    requires m1.catches == m.catches + [t] && m1.heap == m.heap && m1.cur == m.cur && m1.stack == m.stack
    requires Steps(c.code, m, n2) == m2 && Kept(m1, m2) && Rel(c, st, m2.heap) && m2.stack == m.stack && m2.ip == q
    requires Fetch(c.code, q) == Some(PopCatchTable) && Goes(c, q + 1, Always, pf) && pf != q + 1
    ensures Via(c, m, n, m') && Live(c, cur, st, m') && m'.ip == pf && m'.stack == m.stack
  {
    hide Step, Steps, Fetch, Rel, CatchesOK, Handlers;
    Then(c, m, n2, m2, PopCatchTable);
    var m3 := Apply(c.code, PopCatchTable, m2);
    assert m3.catches == m.catches;
    assert m3.stack == m.stack by { assert m2.stack[..|m2.stack|] == m2.stack; }
    LiveAfter(c, cur, st, m, n2 + 1, m3);
    m' := GoTo(c, cur, st, m, n2 + 1, m3, pf);
    n := n2 + 2;
  }

  lemma OpenTry(c: Program, b: Stmts, p: nat, ph: nat, pf: nat, brk: int, cnt: int)
    requires LayTry(c, b, p, ph, pf, brk, cnt)
    ensures Fetch(c.code, p) == Some(RegisterCatchTable(ph - p)) && LayB(c, b, p + 5, brk, cnt)
    ensures Fetch(c.code, p + 5 + SizeB(b)) == Some(PopCatchTable) && Goes(c, p + 6 + SizeB(b), Always, pf)
  {
    hide Fetch;
  }

  lemma SimGuarded(c: Program, b: Stmts, p: nat, ph: nat, pf: nat, brk: int, cnt: int, cur: nat, st: State, k: nat,
      m: Machine)
    returns (n: nat, m': Machine)
    requires BodiesLaid(c) && LayTry(c, b, p, ph, pf, brk, cnt) && Live(c, cur, st, m) && m.ip == p &&
        pf > p + 6 + SizeB(b)
    requires StoresFirst(c, ph)
    ensures Guarded(c, cur, m, InTry(Run(Compiled, b, cur, st, k)), n, m', ph, pf, k)
    decreases k, 1, b, 4
  {
    hide Step, Steps, Fetch, Rel, CatchesOK, Handlers, Apply, Run, LayB, LayTry, BodiesLaid, Goes, SizeB, Sim,
      Live, Via;
    OpenTry(c, b, p, ph, pf, brk, cnt);
    IsLive(c, cur, st, m);
    var m1 := Registered(c, cur, st, m, ph);
    var n2, m2 := SimB(c, b, p + 5, brk, cnt, cur, st, k, m1);
    var r := Run(Compiled, b, cur, st, k);
    n, m' := 1 + n2, m2;
    GuardedRun(c, cur, m, m1, r, n2, m2, p + 5 + SizeB(b), brk, cnt, k, Table(cur, ph, |m.stack|));
    if r.Next? {
      n, m' := SimUnguard(c, cur, r.st, m, m1, n, m2, p + 5 + SizeB(b), pf, Table(cur, ph, |m.stack|));
    } else if r.Throw? {
      LiveAfter(c, cur, r.st, m, n, m');
    } else if r.Break? || r.Continue? {
      AnyStuck(c, m, n, m', 0, 0, 0, k);
    }
  }

  lemma IsLive(c: Program, cur: nat, st: State, m: Machine)
    requires Live(c, cur, st, m)
    ensures m.cur == Some(cur) && cur < |m.heap.frames| && CatchesOK(m.heap.frames, m.cur, |m.stack|, m.catches)
    ensures Handlers(c, m.catches)
  {
    hide Fetch, Rel, CatchesOK, Handlers;
  }

  /** A run under one more table `t`, seen from the machine before `t` was registered. */
  lemma GuardedRun(c: Program, cur: nat, m: Machine, m1: Machine, r: Res, n2: nat, m2: Machine, end: int, brk: int,
      cnt: int, k: nat, t: Table)
    requires Steps(c.code, m, 1) == m1 && Sim(c, m1, r, n2, m2, end, brk, cnt, k) && t.frame == cur && t.size ==
        |m.stack|
    requires m1.catches == m.catches + [t] && m1.heap == m.heap && m1.cur == m.cur == Some(cur) && m1.stack == m.stack
    requires CatchesOK(m.heap.frames, m.cur, |m.stack|, m.catches) && Handlers(c, m.catches)
    ensures Steps(c.code, m, 1 + n2) == m2 || r.Stuck?
    ensures r.Next? ==> Kept(m1, m2) && Rel(c, r.st, m2.heap) && m2.stack == m.stack && m2.ip == end
    ensures r.Throw? ==>
      Via(c, m, 1 + n2, m2) && Rel(c, r.st, m2.heap) && m2.ip == t.address && m2.stack == m.stack + [r.v]
    ensures r.Return? || r.Timeout? || r.Stuck? ==> Sim(c, m, r, 1 + n2, m2, 0, 0, 0, k)
  {
    hide Step, Steps, Fetch, Rel, CatchesOK, Handlers;
    StepsAdd(c.code, m, 1, n2);
    if r.Throw? {
      assert m1.catches[|m1.catches| - 1] == t && m1.catches[..|m1.catches| - 1] == m.catches;
      assert m1.stack[..t.size] == m.stack;
    }
  }

  lemma OpenTryCatch(c: Program, s: Stmt, p: nat, brk: int, cnt: int, cur: nat, st: State, k: nat)
    requires s.TryCatch? && LayS(c, s, p, brk, cnt)
    ensures var ph := p + 5 + SizeB(s.b) + 6; var pf := ph + 9 + SizeB(s.handler);
      LayTry(c, s.b, p, ph, pf, brk, cnt) && Fetch(c.code, ph) == Some(SetLocal(s.exc.index, s.exc.level)) &&
      LayB(c, s.handler, ph + 9, brk, cnt) && LayO(c, s.fin, pf, brk, cnt) && p + SizeS(s) == pf + SizeO(s.fin)
    ensures var r := InTry(Run(Compiled, s.b, cur, st, k));
      Exec(Compiled, s, cur, st, k) ==
        if r.Throw? then
          (match Write(r.st, cur, s.exc, r.v)
           case None => Stuck
           case Some(s2) => Handled(s, Run(Compiled, s.handler, cur, s2, k), cur, k))
        else if r.Next? then RunOpt(Compiled, s.fin, cur, r.st, k)
        else r
  {
    hide Fetch, LayB, LayO, LayTry, InTry, Run, RunOpt, Write, SizeB, SizeO;
  }

  function Handled(s: Stmt, r: Res, cur: nat, k: nat): Res
    requires s.TryCatch?
  {
    if r.Next? then RunOpt(Compiled, s.fin, cur, r.st, k) else r
  }

  lemma SimTryCatch(c: Program, s: Stmt, p: nat, brk: int, cnt: int, cur: nat, st: State, k: nat, m: Machine)
    returns (n: nat, m': Machine)
    requires s.TryCatch? && BodiesLaid(c) && LayS(c, s, p, brk, cnt) && Live(c, cur, st, m) && m.ip == p
    ensures Sim(c, m, Exec(Compiled, s, cur, st, k), n, m', p + SizeS(s), brk, cnt, k)
    decreases k, 1, s, 0
  {
    hide Step, Steps, Fetch, Rel, CatchesOK, Handlers, Apply, Run, RunOpt, Exec, LayB, LayO, LayTry, LayS,
      BodiesLaid, Via, Live, Sim, SizeB, SizeO, SizeS, Write, InTry;
    OpenTryCatch(c, s, p, brk, cnt, cur, st, k);
    var ph := p + 5 + SizeB(s.b) + 6;
    var pf := ph + 9 + SizeB(s.handler);
    n, m' := SimGuarded(c, s.b, p, ph, pf, brk, cnt, cur, st, k, m);
    var r := InTry(Run(Compiled, s.b, cur, st, k));
    if r.Throw? {
      if Write(r.st, cur, s.exc, r.v).Some? {
        IsLive(c, cur, st, m);
        m' := GoWrite(c, cur, r.st, m, n, m', s.exc, false, m.stack, r.v);
        n, m' := SimHandler(c, s, ph + 9, brk, cnt, cur, st, Write(r.st, cur, s.exc, r.v).value, k, m, n + 1, m');
      } else {
        AnyStuck(c, m, n, m', p + SizeS(s), brk, cnt, k);
      }
    } else if r.Next? {
      var n2, m2 := SimO(c, s.fin, pf, brk, cnt, cur, r.st, k, m');
      After(c, m, n, m', RunOpt(Compiled, s.fin, cur, r.st, k), n2, m2, p + SizeS(s), brk, cnt, k, k);
      n, m' := n + n2, m2;
    } else {
      Relabel(c, m, r, n, m', 0, 0, 0, k, p + SizeS(s), brk, cnt);
    }
  }

  lemma AnyStuck(c: Program, m: Machine, n: nat, m1: Machine, end: int, brk: int, cnt: int, k: nat)
    ensures Sim(c, m, Stuck, n, m1, end, brk, cnt, k)
  {
    hide Fetch;
  }

  /** The handler, then the finally block. */
  lemma SimHandler(c: Program, s: Stmt, q: nat, brk: int, cnt: int, cur: nat, st0: State, st: State, k: nat,
      m: Machine, n1: nat, m1: Machine)
    returns (n: nat, m': Machine)
    requires s.TryCatch? && BodiesLaid(c) && LayB(c, s.handler, q, brk, cnt) &&
        LayO(c, s.fin, q + SizeB(s.handler), brk, cnt)
    requires Live(c, cur, st0, m) && Via(c, m, n1, m1) && Live(c, cur, st, m1) && m1.ip == q && m1.stack == m.stack
    ensures Sim(c, m, Handled(s, Run(Compiled, s.handler, cur, st, k), cur, k), n, m',
        q + SizeB(s.handler) + SizeO(s.fin), brk, cnt, k)
    decreases k, 1, s, -1
  {
    hide Step, Steps, Fetch, Rel, CatchesOK, Handlers, Apply, Run, RunOpt, LayB, LayO, BodiesLaid, Via, Live,
      Sim, SizeB, SizeO;
    var pf := q + SizeB(s.handler);
    var n2, m2 := SimB(c, s.handler, q, brk, cnt, cur, st, k, m1);
    var r := Run(Compiled, s.handler, cur, st, k);
    After(c, m, n1, m1, r, n2, m2, pf, brk, cnt, k, k);
    n, m' := n1 + n2, m2;
    if r.Next? {
      ValueOf(c, cur, st0, m, r, n, m', pf, brk, cnt, k);
      var n3, m3 := SimO(c, s.fin, pf, brk, cnt, cur, r.st, k, m');
      After(c, m, n, m', RunOpt(Compiled, s.fin, cur, r.st, k), n3, m3, pf + SizeO(s.fin), brk, cnt, k, k);
      n, m' := n + n3, m3;
    } else {
      Relabel(c, m, r, n, m', pf, brk, cnt, k, pf + SizeO(s.fin), brk, cnt);
    }
  }

  lemma OpenTryFinally(c: Program, s: Stmt, p: nat, brk: int, cnt: int, cur: nat, st: State, k: nat)
    requires s.TryFinally? && LayS(c, s, p, brk, cnt)
    ensures var ph := p + 5 + SizeB(s.b) + 6; var pr := ph + 9 + SizeB(s.finalizer);
      LayTry(c, s.b, p, ph, pr + 10, brk, cnt) && Fetch(c.code, ph) == Some(SetLocal(s.exc.index, s.exc.level)) &&
      LayB(c, s.finalizer, ph + 9, brk, cnt) && Fetch(c.code, pr) == Some(ReadLocal(s.exc.index, s.exc.level)) &&
      Fetch(c.code, pr + 9) == Some(ThrowOp) && LayB(c, s.finalizer, pr + 10, brk, cnt) &&
      p + SizeS(s) == pr + 10 + SizeB(s.finalizer)
    ensures var r := InTry(Run(Compiled, s.b, cur, st, k));
      Exec(Compiled, s, cur, st, k) ==
        if r.Throw? then
          (match Write(r.st, cur, s.exc, r.v)
           case None => Stuck
           case Some(s2) => Rethrown(s, Run(Compiled, s.finalizer, cur, s2, k), cur))
        else if r.Next? then Run(Compiled, s.finalizer, cur, r.st, k)
        else r
  {
    hide Fetch, LayB, LayTry, InTry, Run, Write, Read, SizeB;
  }

  function Rethrown(s: Stmt, r: Res, cur: nat): Res
    requires s.TryFinally?
  {
    if !r.Next? then r
    else
      match Read(r.st, cur, s.exc)
      case Some(w) => Throw(w, r.st)
      case None => Stuck
  }

  lemma SimTryFinally(c: Program, s: Stmt, p: nat, brk: int, cnt: int, cur: nat, st: State, k: nat, m: Machine)
    returns (n: nat, m': Machine)
    requires s.TryFinally? && BodiesLaid(c) && LayS(c, s, p, brk, cnt) && Live(c, cur, st, m) && m.ip == p
    ensures Sim(c, m, Exec(Compiled, s, cur, st, k), n, m', p + SizeS(s), brk, cnt, k)
    decreases k, 1, s, 0
  {
    hide Step, Steps, Fetch, Rel, CatchesOK, Handlers, Apply, Run, Exec, LayB, LayTry, LayS, BodiesLaid, Via,
      Live, Sim, SizeB, SizeS, Write, InTry, Rethrown;
    OpenTryFinally(c, s, p, brk, cnt, cur, st, k);
    var ph := p + 5 + SizeB(s.b) + 6;
    var pr := ph + 9 + SizeB(s.finalizer);
    n, m' := SimGuarded(c, s.b, p, ph, pr + 10, brk, cnt, cur, st, k, m);
    var r := InTry(Run(Compiled, s.b, cur, st, k));
    if r.Throw? {
      if Write(r.st, cur, s.exc, r.v).Some? {
        IsLive(c, cur, st, m);
        m' := GoWrite(c, cur, r.st, m, n, m', s.exc, false, m.stack, r.v);
        n, m' := SimRethrow(c, s, ph + 9, p + SizeS(s), brk, cnt, cur, st, Write(r.st, cur, s.exc, r.v).value, k, m,
            n + 1, m');
      } else {
        AnyStuck(c, m, n, m', p + SizeS(s), brk, cnt, k);
      }
    } else if r.Next? {
      var n2, m2 := SimB(c, s.finalizer, pr + 10, brk, cnt, cur, r.st, k, m');
      After(c, m, n, m', Run(Compiled, s.finalizer, cur, r.st, k), n2, m2, p + SizeS(s), brk, cnt, k, k);
      n, m' := n + n2, m2;
    } else {
      Relabel(c, m, r, n, m', 0, 0, 0, k, p + SizeS(s), brk, cnt);
    }
  }

  /** The finally block on the exceptional path, then the rethrow of what the slot holds. */
  lemma SimRethrow(c: Program, s: Stmt, q: nat, end: int, brk: int, cnt: int, cur: nat, st0: State, st: State,
      k: nat, m: Machine, n1: nat, m1: Machine)
    returns (n: nat, m': Machine)
    requires s.TryFinally? && BodiesLaid(c) && LayB(c, s.finalizer, q, brk, cnt)
    requires Fetch(c.code, q + SizeB(s.finalizer)) == Some(ReadLocal(s.exc.index, s.exc.level))
    requires Fetch(c.code, q + SizeB(s.finalizer) + 9) == Some(ThrowOp)
    requires Live(c, cur, st0, m) && Via(c, m, n1, m1) && Live(c, cur, st, m1) && m1.ip == q && m1.stack == m.stack
    ensures Sim(c, m, Rethrown(s, Run(Compiled, s.finalizer, cur, st, k), cur), n, m', end, brk, cnt, k)
    decreases k, 1, s, -1
  {
    hide Step, Steps, Fetch, Rel, CatchesOK, Handlers, Apply, Run, LayB, BodiesLaid, Via, Live, Sim, SizeB, Read;
    var pr := q + SizeB(s.finalizer);
    var n2, m2 := SimB(c, s.finalizer, q, brk, cnt, cur, st, k, m1);
    var r := Run(Compiled, s.finalizer, cur, st, k);
    After(c, m, n1, m1, r, n2, m2, pr, brk, cnt, k, k);
    n, m' := n1 + n2, m2;
    if r.Next? {
      ValueOf(c, cur, st0, m, r, n, m', pr, brk, cnt, k);
      var w := Read(r.st, cur, s.exc);
      if w.Some? {
        m' := GoRead(c, cur, r.st, m, n, m', s.exc);
        m' := GoThrow(c, cur, r.st, m, n + 1, m', m.stack, w.value, end, brk, cnt, k);
        n := n + 2;
      } else {
        AnyStuck(c, m, n, m', end, brk, cnt, k);
      }
    } else {
      Relabel(c, m, r, n, m', pr, brk, cnt, k, end, brk, cnt);
    }
  }
}
