/** What compiled programs do: the main results about whole runs. */
module Correctness {
  import opened Values
  import opened Syntax
  import opened Bytecode
  import opened Layout
  import opened Semantics
  import opened VirtualMachine
  import opened Relation
  import opened Simulation

  // ----- what a function's instruction says -----

  /** The instruction of a function literal names its function, its counts, and the place where its body lies. */
  lemma FunctionDecodes(c: Program, f: Func, p: nat)
    requires BodiesLaid(c) && LayE(c, Fn(f), p)
    ensures Fetch(c.code, p).Some? && Fetch(c.code, p).value.PutFunction?
    ensures var i := Fetch(c.code, p).value;
      && i.name == f.name && i.anonymous == f.anonymous && i.needsArguments == f.needsArguments
      && i.argc == f.params && i.minimum == f.required && i.lvarcount == f.lvarcount
      && p + i.offset >= 0 && LayB(c, f.body, p + i.offset, -1, -1)
  {
    hide Fetch, LayB;
  }

  // ----- comparable conditions: testing the opposite operator is the plain meaning -----

  lemma {:induction false} ModeE(e: Expr, cur: nat, st: State, k: nat)
    requires !Eval(Direct, e, cur, st, k).Stuck?
    ensures Eval(Compiled, e, cur, st, k) == Eval(Direct, e, cur, st, k)
    decreases k, 1, e, 1
  {
    hide Binary, Read, Write, Holds, Invoke, Truthy;
    match e
    case Lit(_) =>
    case Var(_) =>
    case Un(_, a) => ModeE(a, cur, st, k);
    case Bin(_, l, r) =>
      ModeE(l, cur, st, k);
      var r1 := Eval(Direct, l, cur, st, k);
      if r1.Val? { ModeE(r, cur, r1.st, k); }
    case And(l, r) =>
      ModeE(l, cur, st, k);
      var r1 := Eval(Direct, l, cur, st, k);
      if r1.Val? && Truthy(r1.v) { ModeE(r, cur, r1.st, k); }
    case Or(l, r) =>
      ModeE(l, cur, st, k);
      var r1 := Eval(Direct, l, cur, st, k);
      if r1.Val? && !Truthy(r1.v) { ModeE(r, cur, r1.st, k); }
    case Ternary(d, t, f) =>
      ModeTest(d, cur, st, k);
      var r1 := Test(Direct, d, cur, st, k);
      if r1.Val? {
        if r1.v == Bool(true) { ModeE(t, cur, r1.st, k); } else { ModeE(f, cur, r1.st, k); }
      }
    case Assign(_, a) => ModeE(a, cur, st, k);
    case Call(f, args) =>
      ModeE(f, cur, st, k);
      var r1 := Eval(Direct, f, cur, st, k);
      if r1.Val? {
        ModeArgs(args, cur, r1.st, k);
        var r2 := EvalArgs(Direct, args, cur, r1.st, k);
        if r2.Args? { ModeInvoke(r1.v, r2.vs, r2.st, k); }
      }
    case Fn(_) =>
    case Length(a) => ModeE(a, cur, st, k);
    case ArgAt(_, _) =>
  }

  lemma {:induction false} ModeArgs(es: Exprs, cur: nat, st: State, k: nat)
    requires EvalArgs(Direct, es, cur, st, k) != ArgsAbrupt(Stuck)
    ensures EvalArgs(Compiled, es, cur, st, k) == EvalArgs(Direct, es, cur, st, k)
    decreases k, 1, es, 1
  {
    hide Eval;
    if es.MoreExprs? {
      ModeE(es.head, cur, st, k);
      var r1 := Eval(Direct, es.head, cur, st, k);
      if r1.Val? { ModeArgs(es.tail, cur, r1.st, k); }
    }
  }

  lemma {:induction false} ModeTest(e: Expr, cur: nat, st: State, k: nat)
    requires !Test(Direct, e, cur, st, k).Stuck?
    ensures Test(Compiled, e, cur, st, k) == Test(Direct, e, cur, st, k)
    decreases k, 1, e, 2
  {
    hide Eval, Truthy;
    if IsComparison(e) {
      ModeE(e.l, cur, st, k);
      var r1 := Eval(Direct, e.l, cur, st, k);
      if r1.Val? {
        ModeE(e.r, cur, r1.st, k);
        var r2 := Eval(Direct, e.r, cur, r1.st, k);
        if r2.Val? { OppositeBranchExact(e.op, r1.v, r2.v); }
      }
    } else {
      ModeE(e, cur, st, k);
    }
  }

  lemma {:induction false} ModeInvoke(fv: Value, args: seq<Value>, st: State, k: nat)
    requires !Invoke(Direct, fv, args, st, k).Stuck?
    ensures Invoke(Compiled, fv, args, st, k) == Invoke(Direct, fv, args, st, k)
    decreases k, 0
  {
    hide Enter, TypeName;
    if k > 0 && fv.Fun? && fv.id < |st.clos| && |args| >= st.clos[fv.id].f.required {
      ModeRun(st.clos[fv.id].f.body, |st.acts|, Enter(st, st.clos[fv.id], args), k - 1);
    }
  }

  lemma {:induction false} ModeRun(b: Stmts, cur: nat, st: State, k: nat)
    requires !Run(Direct, b, cur, st, k).Stuck?
    ensures Run(Compiled, b, cur, st, k) == Run(Direct, b, cur, st, k)
    decreases k, 1, b, 1
  {
    hide Exec;
    if b.MoreStmts? {
      ModeS(b.head, cur, st, k);
      var r1 := Exec(Direct, b.head, cur, st, k);
      if r1.Next? { ModeRun(b.tail, cur, r1.st, k); }
    }
  }

  lemma {:induction false} ModeOpt(b: Option<Stmts>, cur: nat, st: State, k: nat)
    requires !RunOpt(Direct, b, cur, st, k).Stuck?
    ensures RunOpt(Compiled, b, cur, st, k) == RunOpt(Direct, b, cur, st, k)
    decreases k, 1, b, 2
  {
    hide Run;
    if b.Some? { ModeRun(b.value, cur, st, k); }
  }

  lemma {:induction false} ModeAgain(s: Stmt, r: Res, cur: nat, k: nat)
    requires !Again(Direct, s, r, cur, k).Stuck?
    ensures Again(Compiled, s, r, cur, k) == Again(Direct, s, r, cur, k)
    decreases k, 0
  {
    hide Exec;
    if k > 0 && (r.Next? || r.Continue?) { ModeS(s, cur, r.st, k - 1); }
  }

  lemma {:induction false} ModeS(s: Stmt, cur: nat, st: State, k: nat)
    requires !Exec(Direct, s, cur, st, k).Stuck?
    ensures Exec(Compiled, s, cur, st, k) == Exec(Direct, s, cur, st, k)
    decreases k, 1, s, 1
  {
    hide Eval, Run, Test, RunOpt, Again, Select, Read, Write, Truthy;
    match s
    case Do(e) => ModeE(e, cur, st, k);
    case Set(_, e) => ModeE(e, cur, st, k);
    case Block(b) => ModeRun(b, cur, st, k);
    case If(d, t) =>
      ModeTest(d, cur, st, k);
      var r := Test(Direct, d, cur, st, k);
      if r.Val? && r.v == Bool(true) { ModeRun(t, cur, r.st, k); }
    case IfElse(d, t, f) =>
      ModeTest(d, cur, st, k);
      var r := Test(Direct, d, cur, st, k);
      if r.Val? { ModeRun(if r.v == Bool(true) then t else f, cur, r.st, k); }
    case Unless(d, t) =>
      ModeE(d, cur, st, k);
      var r := Eval(Direct, d, cur, st, k);
      if r.Val? && !Truthy(r.v) { ModeRun(t, cur, r.st, k); }
    case UnlessElse(d, t, f) =>
      ModeE(d, cur, st, k);
      var r := Eval(Direct, d, cur, st, k);
      if r.Val? { ModeRun(if Truthy(r.v) then f else t, cur, r.st, k); }
    case While(_, _) => ModeLoop(s, cur, st, k);
    case Until(_, _) => ModeLoop(s, cur, st, k);
    case DoWhile(_, _) => ModeDo(s, cur, st, k);
    case DoUntil(_, _) => ModeDo(s, cur, st, k);
    case Loop(_) => ModeLoop(s, cur, st, k);
    case Switch(d, cases, otherwise) =>
      ModeE(d, cur, st, k);
      var r := Eval(Direct, d, cur, st, k);
      if r.Val? {
        ModeSelect(cases, r.v, cur, r.st, k);
        var x := Select(Direct, cases, r.v, cur, r.st, k);
        if x.NotChosen? { ModeOpt(otherwise, cur, x.st, k); }
      }
    case BreakS =>
    case ContinueS =>
    case ReturnS(e) => ModeE(e, cur, st, k);
    case ThrowS(e) => ModeE(e, cur, st, k);
    case TryCatch(_, _, _, _) => ModeTry(s, cur, st, k);
    case TryFinally(_, _, _) => ModeTry(s, cur, st, k);
  }

  lemma {:induction false} ModeLoop(s: Stmt, cur: nat, st: State, k: nat)
    requires s.While? || s.Until? || s.Loop?
    requires !Exec(Direct, s, cur, st, k).Stuck?
    ensures Exec(Compiled, s, cur, st, k) == Exec(Direct, s, cur, st, k)
    decreases k, 1, s, 0
  {
    hide Eval, Run, Test, Truthy;
    if s.Loop? {
      LoopBody(s, s.b, cur, st, k);
    } else if s.While? {
      ModeTest(s.c, cur, st, k);
      var r := Test(Direct, s.c, cur, st, k);
      if r.Val? && r.v == Bool(true) { LoopBody(s, s.b, cur, r.st, k); }
    } else {
      ModeE(s.c, cur, st, k);
      var r := Eval(Direct, s.c, cur, st, k);
      if r.Val? && !Truthy(r.v) { LoopBody(s, s.b, cur, r.st, k); }
    }
  }

  lemma {:induction false} LoopBody(s: Stmt, b: Stmts, cur: nat, st: State, k: nat)
    requires b < s && !Again(Direct, s, Run(Direct, b, cur, st, k), cur, k).Stuck?
    ensures Again(Compiled, s, Run(Compiled, b, cur, st, k), cur, k) ==
        Again(Direct, s, Run(Direct, b, cur, st, k), cur, k)
    decreases k, 1, b, 2
  {
    hide Run, Exec;
    ModeRun(b, cur, st, k);
    ModeAgain(s, Run(Direct, b, cur, st, k), cur, k);
  }

  lemma {:induction false} ModeDo(s: Stmt, cur: nat, st: State, k: nat)
    requires s.DoWhile? || s.DoUntil?
    requires !Exec(Direct, s, cur, st, k).Stuck?
    ensures Exec(Compiled, s, cur, st, k) == Exec(Direct, s, cur, st, k)
    decreases k, 1, s, 0
  {
    hide Eval, Run, Test, Again, Truthy;
    ModeRun(s.b, cur, st, k);
    var r := Run(Direct, s.b, cur, st, k);
    if r.Next? || r.Continue? {
      if s.DoWhile? {
        ModeTest(s.c, cur, r.st, k);
        var t := Test(Direct, s.c, cur, r.st, k);
        if t.Val? && t.v == Bool(true) { ModeAgain(s, Next(t.st), cur, k); }
      } else {
        ModeE(s.c, cur, r.st, k);
        var t := Eval(Direct, s.c, cur, r.st, k);
        if t.Val? && !Truthy(t.v) { ModeAgain(s, Next(t.st), cur, k); }
      }
    }
  }

  lemma {:induction false} ModeTry(s: Stmt, cur: nat, st: State, k: nat)
    requires s.TryCatch? || s.TryFinally?
    requires !Exec(Direct, s, cur, st, k).Stuck?
    ensures Exec(Compiled, s, cur, st, k) == Exec(Direct, s, cur, st, k)
    decreases k, 1, s, 0
  {
    hide Run, RunOpt, Read, Write;
    ModeRun(s.b, cur, st, k);
    var r := Run(Direct, s.b, cur, st, k);
    if r.Next? {
      if s.TryCatch? { ModeOpt(s.fin, cur, r.st, k); } else { ModeRun(s.finalizer, cur, r.st, k); }
    } else if r.Throw? {
      var w := Write(r.st, cur, s.exc, r.v);
      if w.Some? {
        if s.TryFinally? {
          ModeRun(s.finalizer, cur, w.value, k);
        } else {
          ModeRun(s.handler, cur, w.value, k);
          var h := Run(Direct, s.handler, cur, w.value, k);
          if h.Next? { ModeOpt(s.fin, cur, h.st, k); }
        }
      }
    }
  }

  lemma {:induction false} ModeSelect(cases: Cases, v: Value, cur: nat, st: State, k: nat)
    requires Select(Direct, cases, v, cur, st, k) != CaseDone(Stuck)
    ensures Select(Compiled, cases, v, cur, st, k) == Select(Direct, cases, v, cur, st, k)
    decreases k, 1, cases, 1
  {
    hide Run, Matches;
    if cases.MoreCases? {
      ModeMatches(cases.conds, v, cur, st, k);
      var r := Matches(Direct, cases.conds, v, cur, st, k);
      if r.Val? {
        if r.v == Bool(true) { ModeRun(cases.block, cur, r.st, k); } else { ModeSelect(cases.rest, v, cur, r.st, k); }
      }
    }
  }

  lemma {:induction false} ModeMatches(es: Exprs, v: Value, cur: nat, st: State, k: nat)
    requires !Matches(Direct, es, v, cur, st, k).Stuck?
    ensures Matches(Compiled, es, v, cur, st, k) == Matches(Direct, es, v, cur, st, k)
    decreases k, 1, es, 1
  {
    hide Eval, Binary, Truthy;
    if es.MoreExprs? {
      ModeE(es.head, cur, st, k);
      var r := Eval(Direct, es.head, cur, st, k);
      if r.Val? && Binary(Eq, v, r.v).Some? && !Truthy(Binary(Eq, v, r.v).value) { ModeMatches(es.tail, v, cur, r.st,
          k); }
    }
  }

  // ----- statements anywhere in a program -----

  /**
   * Compiled code means what the source means. From any state of any activation the code
   * of a statement takes the machine to the statement's end, to its break or continue
   * target, to a return, or to the innermost handler: exactly as direct evaluation says,
   * with the same heap, the same operands below, and the same catch tables.
   */
  lemma CodeMeansSource(c: Program, s: Stmt, p: nat, brk: int, cnt: int, cur: nat, st: State, k: nat, m: Machine)
    returns (n: nat, m': Machine)
    requires BodiesLaid(c) && LayS(c, s, p, brk, cnt) && Live(c, cur, st, m) && m.ip == p
    ensures Sim(c, m, Exec(Direct, s, cur, st, k), n, m', p + SizeS(s), brk, cnt, k)
  {
    hide *;
    n, m' := SimS(c, s, p, brk, cnt, cur, st, k, m);
    if Exec(Direct, s, cur, st, k).Stuck? {
      AnyStuck(c, m, n, m', p + SizeS(s), brk, cnt, k);
    } else {
      ModeS(s, cur, st, k);
    }
  }

  /** A stopped machine stays stopped, so a machine that runs after `b` steps ran all the time. */
  lemma {:induction false} RanBefore(code: seq<Cell>, m: Machine, a: nat, b: nat)
    requires a <= b && Steps(code, m, b).status.Running?
    ensures Steps(code, m, a).status.Running?
    decreases a
  {
    hide Fetch, Apply;
    if a > 0 {
      RanBefore(code, Step(code, m), a - 1, b - 1);
    } else if !m.status.Running? {
      Stopped(code, m, b);
    }
  }

  lemma {:induction false} Stopped(code: seq<Cell>, m: Machine, n: nat)
    requires !m.status.Running?
    ensures Steps(code, m, n) == m
    decreases n
  {
    hide Fetch, Apply;
    if n > 0 {
      Stopped(code, m, n - 1);
    }
  }

  /** A statement whose evaluation never ends keeps the machine running forever. */
  lemma Diverges(c: Program, s: Stmt, p: nat, brk: int, cnt: int, cur: nat, st: State, m: Machine, n: nat)
    requires BodiesLaid(c) && LayS(c, s, p, brk, cnt) && Live(c, cur, st, m) && m.ip == p
    requires forall k: nat :: Exec(Direct, s, cur, st, k).Timeout?
    ensures Steps(c.code, m, n).status.Running?
  {
    hide Fetch, Step, Steps, Exec, LayS, BodiesLaid, Live;
    var j, m1 := CodeMeansSource(c, s, p, brk, cnt, cur, st, n, m);
    RanBefore(c.code, m, n, j);
  }

  // ----- whole programs -----

  /** A machine about to run the code at address 0 in an activation of its own. */
  function Boot(locals: seq<Value>): Machine {
    Machine(0, [], Some(0), [], Heap([Frame(None, None, [], None, locals)], [], []), Running)
  }

  function BootState(locals: seq<Value>): State {
    State([Act(None, locals)], [], [])
  }

  lemma BootLive(c: Program, locals: seq<Value>)
    ensures Live(c, 0, BootState(locals), Boot(locals))
  {
    hide Fetch;
  }

  /** How a program that ended must have ended. */
  predicate EndsAs(r: Res, m: Machine) {
    match r
    case Return(v, _) => m.status == Finished && m.stack == [v]
    case Throw(_, _) => m.status == Panic(CatchStackEmpty)
    case _ => false
  }

  /**
   * A terminating program makes the machine finish with the program's value on its stack,
   * or panic for want of a handler if the program throws.
   */
  lemma ProgramEnds(c: Program, s: Stmt, locals: seq<Value>, k: nat) returns (n: nat)
    requires BodiesLaid(c) && LayS(c, s, 0, -1, -1)
    requires var r := Exec(Direct, s, 0, BootState(locals), k); r.Return? || r.Throw?
    ensures EndsAs(Exec(Direct, s, 0, BootState(locals), k), Steps(c.code, Boot(locals), n))
    ensures forall j: nat :: j < n ==> Steps(c.code, Boot(locals), j).status.Running?
  {
    hide Fetch, Step, Steps, Exec, LayS, BodiesLaid;
    BootLive(c, locals);
    var m := Boot(locals);
    var r := Exec(Direct, s, 0, BootState(locals), k);
    var j, m1 := CodeMeansSource(c, s, 0, -1, -1, 0, BootState(locals), k, m);
    if r.Return? {
      Then(c, m, j, m1, ReturnOp);
      n := j + 1;
      forall i: nat | i < n ensures Steps(c.code, m, i).status.Running? {
        RanBefore(c.code, m, i, j);
      }
    } else {
      n := FirstStop(c.code, m, j);
    }
  }

  /** The step at which a machine stopped. */
  lemma {:induction false} FirstStop(code: seq<Cell>, m: Machine, j: nat) returns (n: nat)
    requires !Steps(code, m, j).status.Running?
    ensures n <= j && Steps(code, m, n) == Steps(code, m, j)
    ensures forall i: nat :: i < n ==> Steps(code, m, i).status.Running?
    decreases j
  {
    hide Fetch, Apply, Step;
    if !m.status.Running? {
      n := 0;
      Stopped(code, m, j);
    } else {
      var n1 := FirstStop(code, Step(code, m), j - 1);
      n := n1 + 1;
      forall i: nat | i < n ensures Steps(code, m, i).status.Running? {
        if i > 0 {
          assert Steps(code, m, i) == Steps(code, Step(code, m), i - 1);
        }
      }
    }
  }

  /** However long it is evaluated, the unit does nothing the model leaves out. */
  ghost predicate InFragment(s: Stmt, locals: seq<Value>) {
    forall k: nat :: !Exec(Direct, s, 0, BootState(locals), k).Stuck?
  }

  /** The only ways a machine that runs compiled code ever stops. */
  predicate Healthy(m: Machine) {
    m.status.Running? || m.status.Finished? || m.status == Panic(CatchStackEmpty)
  }

  /**
   * Containment: after any number of steps a compiled unit, which is a single `return` of
   * a call, has not underflowed its stack, lost a frame, missed a slot or left the code.
   */
  lemma NeverCorrupted(c: Program, s: Stmt, locals: seq<Value>, n: nat)
    requires BodiesLaid(c) && LayS(c, s, 0, -1, -1) && s.ReturnS?
    requires InFragment(s, locals)
    ensures Healthy(Steps(c.code, Boot(locals), n))
  {
    hide Fetch, Step, Steps, LayS, BodiesLaid, Eval;
    var m := Boot(locals);
    var r := Exec(Direct, s, 0, BootState(locals), n);
    assert r.Return? || r.Throw? || r.Timeout?;
    if r.Timeout? {
      BootLive(c, locals);
      var j, m1 := CodeMeansSource(c, s, 0, -1, -1, 0, BootState(locals), n, m);
      RanBefore(c.code, m, n, j);
    } else {
      var j := ProgramEnds(c, s, locals, n);
      if n >= j {
        StepsAdd(c.code, m, j, n - j);
        Stopped(c.code, Steps(c.code, m, j), n - j);
      }
    }
  }
}
