/**
 * What the marks mean: a function that is not marked does not look at its `arguments`. Whichever array
 * its activation holds, it does the same.
 */
module ArgumentUse {
  import opened Values
  import opened Source
  import opened Normalising

  /** Activation `c` has an `arguments` array. */
  predicate Has(st: State, c: nat) {
    c < |st.acts| && st.acts[c].arguments.Some?
  }

  /** The state with array `a` as the `arguments` of activation `c`. */
  function With(st: State, c: nat, a: nat): State
    requires c < |st.acts|
  {
    st.(acts := st.acts[c := st.acts[c].(arguments := Some(a))])
  }

  function Re(st: State, c: nat, a: nat): State {
    if Has(st, c) then With(st, c, a) else st
  }

  function ReRes(r: Res, c: nat, a: nat): Res {
    match r
    case Val(v, st) => Val(v, Re(st, c, a))
    case Next(st) => Next(Re(st, c, a))
    case Break(st) => Break(Re(st, c, a))
    case Continue(st) => Continue(Re(st, c, a))
    case Return(v, st) => Return(v, Re(st, c, a))
    case Throw(v, st) => Throw(v, Re(st, c, a))
    case Timeout => Timeout
    case Stuck => Stuck
  }

  /** The result's state still has the array, and with another one it is the other result. */
  predicate Same(r: Res, r': Res, c: nat, a: nat) {
    r' == ReRes(r, c, a) && (!r.Timeout? && !r.Stuck? ==> Has(r.st, c))
  }

  predicate SameArgs(r: ArgsRes, r': ArgsRes, c: nat, a: nat) {
    match r
    case Args(vs, st) => r' == Args(vs, Re(st, c, a)) && Has(st, c)
    case ArgsAbrupt(x) => r'.ArgsAbrupt? && Same(x, r'.r, c, a)
  }

  predicate SameCase(r: CaseRes, r': CaseRes, c: nat, a: nat) {
    match r
    case NotChosen(st) => r' == NotChosen(Re(st, c, a)) && Has(st, c)
    case CaseDone(x) => r'.CaseDone? && Same(x, r'.r, c, a)
  }

  // ----- reading and writing do not depend on it -----

  lemma {:induction false} SameAncestor(st: State, c: nat, a: nat, frame: nat, level: nat)
    requires Has(st, c)
    ensures Ancestor(Re(st, c, a).acts, frame, level) == Ancestor(st.acts, frame, level)
    decreases level
  {
    if level > 0 && frame < |st.acts| && st.acts[frame].env.Some? {
      SameAncestor(st, c, a, st.acts[frame].env.value, level - 1);
    }
  }

  lemma SameRead(st: State, c: nat, a: nat, cur: nat, loc: Loc)
    requires Has(st, c)
    ensures Read(Re(st, c, a), cur, loc) == Read(st, cur, loc)
  {
    SameAncestor(st, c, a, cur, loc.level);
  }

  lemma SameWrite(st: State, c: nat, a: nat, cur: nat, loc: Loc, v: Value)
    requires Has(st, c)
    ensures var w, w' := Write(st, cur, loc, v), Write(Re(st, c, a), cur, loc, v);
      if w.None? then w'.None? else w' == Some(Re(w.value, c, a)) && Has(w.value, c)
  {
    SameAncestor(st, c, a, cur, loc.level);
    if Write(st, cur, loc, v).Some? {
      var b := Ancestor(st.acts, cur, loc.level).value;
      assert Re(Write(st, cur, loc, v).value, c, a).acts == Write(Re(st, c, a), cur, loc, v).value.acts;
    }
  }

  lemma SameStore(r: Res, r': Res, c: nat, a: nat, loc: Loc, cur: nat)
    requires Same(r, r', c, a)
    ensures Same(Store(r, loc, cur), Store(r', loc, cur), c, a)
  {
    hide Write, Re;
    if r.Val? {
      SameWrite(r.st, c, a, cur, loc, r.v);
    }
  }

  lemma SameEnter(st: State, c: nat, a: nat, clo: Closure, args: seq<Value>)
    requires Has(st, c)
    ensures Enter(Re(st, c, a), clo, args) == Re(Enter(st, clo, args), c, a) && Has(Enter(st, clo, args), c)
  {
    hide EntryLocals;
    assert Enter(Re(st, c, a), clo, args).acts == Re(Enter(st, clo, args), c, a).acts;
  }

  // ----- nor does anything else, unless it is marked -----

  /** Evaluation in activation `cur` does not look at the array of activation `c`. */
  predicate Blind(cur: nat, c: nat, marks: bool) {
    cur != c || !marks
  }

  lemma {:induction false} EvalSame(e: Expr, cur: nat, st: State, k: nat, c: nat, a: nat)
    requires Has(st, c) && Blind(cur, c, MarksE(e))
    ensures Same(Eval(e, cur, st, k), Eval(e, cur, Re(st, c, a), k), c, a)
    decreases k, 1, e, 1
  {
    hide Read, Write, Re, Binary, Unary, Truthy, Invoke;
    var st' := Re(st, c, a);
    match e
    case Lit(_) =>
    case Int(_) =>
    case Var(loc) => SameRead(st, c, a, cur, loc);
    case Un(_, x) => EvalSame(x, cur, st, k, c, a);
    case Bin(_, l, r) =>
      EvalSame(l, cur, st, k, c, a);
      var r1 := Eval(l, cur, st, k);
      if r1.Val? {
        EvalSame(r, cur, r1.st, k, c, a);
      }
    case And(l, r) =>
      EvalSame(l, cur, st, k, c, a);
      var r1 := Eval(l, cur, st, k);
      if r1.Val? {
        EvalSame(r, cur, r1.st, k, c, a);
      }
    case Or(l, r) =>
      EvalSame(l, cur, st, k, c, a);
      var r1 := Eval(l, cur, st, k);
      if r1.Val? {
        EvalSame(r, cur, r1.st, k, c, a);
      }
    case Ternary(d, t, f) =>
      TestSame(d, cur, st, k, c, a);
      var r1 := Test(d, cur, st, k);
      if r1.Val? {
        EvalSame(t, cur, r1.st, k, c, a);
        EvalSame(f, cur, r1.st, k, c, a);
      }
    case Assign(loc, x) =>
      EvalSame(x, cur, st, k, c, a);
      var r1 := Eval(x, cur, st, k);
      if r1.Val? {
        SameWrite(r1.st, c, a, cur, loc, r1.v);
      }
    case _ => EvalMore(e, cur, st, k, c, a);
  }

  lemma {:induction false} EvalMore(e: Expr, cur: nat, st: State, k: nat, c: nat, a: nat)
    requires Has(st, c) && Blind(cur, c, MarksE(e))
    requires e.Call? || e.Fn? || e.Arguments? || e.Length? || e.Dollar?
    ensures Same(Eval(e, cur, st, k), Eval(e, cur, Re(st, c, a), k), c, a)
    decreases k, 1, e, 0
  {
    hide Re, Invoke;
    match e
    case Call(f, args) =>
      EvalSame(f, cur, st, k, c, a);
      var r1 := Eval(f, cur, st, k);
      if r1.Val? {
        ArgsSame(args, cur, r1.st, k, c, a);
        var r2 := EvalArgs(args, cur, r1.st, k);
        if r2.Args? {
          InvokeSame(r1.v, r2.vs, r2.st, k, c, a);
        }
      }
    case Fn(_) => SameParts(st, c, a, cur);
    case Arguments => SameParts(st, c, a, cur);
    case Length(x) =>
      EvalSame(x, cur, st, k, c, a);
      var r1 := Eval(x, cur, st, k);
      if r1.Val? {
        SameParts(r1.st, c, a, cur);
      }
    case Dollar(_) => SameParts(st, c, a, cur);
  }

  lemma SameParts(st: State, c: nat, a: nat, cur: nat)
    requires Has(st, c)
    ensures var st' := Re(st, c, a);
      && st'.arrs == st.arrs && st'.clos == st.clos && |st'.acts| == |st.acts|
      && (cur != c ==> ArgumentsOf(st', cur) == ArgumentsOf(st, cur))
    ensures forall clos :: Re(st.(clos := clos), c, a) == Re(st, c, a).(clos := clos) && Has(st.(clos := clos), c)
  {
  }

  lemma {:induction false} ArgsSame(es: Exprs, cur: nat, st: State, k: nat, c: nat, a: nat)
    requires Has(st, c) && Blind(cur, c, MarksArgs(es))
    ensures SameArgs(EvalArgs(es, cur, st, k), EvalArgs(es, cur, Re(st, c, a), k), c, a)
    decreases k, 1, es, 1
  {
    hide Re, Eval;
    match es
    case NoExprs =>
    case MoreExprs(e, t) =>
      EvalSame(e, cur, st, k, c, a);
      var r1 := Eval(e, cur, st, k);
      if r1.Val? {
        ArgsSame(t, cur, r1.st, k, c, a);
      }
  }

  lemma {:induction false} TestSame(e: Expr, cur: nat, st: State, k: nat, c: nat, a: nat)
    requires Has(st, c) && Blind(cur, c, MarksE(e))
    ensures Same(Test(e, cur, st, k), Test(e, cur, Re(st, c, a), k), c, a)
    decreases k, 1, e, 2
  {
    hide Re, Eval, Binary, Truthy;
    if IsComparison(e) {
      EvalSame(e.l, cur, st, k, c, a);
      var r1 := Eval(e.l, cur, st, k);
      if r1.Val? {
        EvalSame(e.r, cur, r1.st, k, c, a);
      }
    } else {
      EvalSame(e, cur, st, k, c, a);
    }
  }

  lemma {:induction false} SkipsSame(e: Expr, cur: nat, st: State, k: nat, c: nat, a: nat)
    requires Has(st, c) && Blind(cur, c, MarksE(e))
    ensures Same(Skips(e, cur, st, k), Skips(e, cur, Re(st, c, a), k), c, a)
    decreases k, 1, e, 2
  {
    hide Re, Eval, Test, Truthy;
    if e.Un? && e.uop.UNot? {
      TestSame(e.e, cur, st, k, c, a);
    } else {
      EvalSame(e, cur, st, k, c, a);
    }
  }

  lemma {:induction false} InvokeSame(fv: Value, args: seq<Value>, st: State, k: nat, c: nat, a: nat)
    requires Has(st, c)
    ensures Same(Invoke(fv, args, st, k), Invoke(fv, args, Re(st, c, a), k), c, a)
    decreases k, 0
  {
    hide Re, Called, Enter, TypeName;
    SameParts(st, c, a, 0);
    if fv.Fun? && fv.id < |st.clos| && k > 0 {
      var clo := st.clos[fv.id];
      SameEnter(st, c, a, clo, args);
      CalledSame(clo.f, |args|, |st.acts|, Enter(st, clo, args), k - 1, c, a);
    }
  }

  lemma {:induction false} CalledSame(f: Func, given: nat, cur: nat, st: State, k: nat, c: nat, a: nat)
    requires Has(st, c) && cur != c
    ensures Same(Called(f, given, cur, st, k), Called(f, given, cur, Re(st, c, a), k), c, a)
    decreases k, 2
  {
    hide Re, FillDefaults, RunBody;
    DefaultsSame(f, f.required, f.defaults, given, cur, st, k, c, a);
    var r1 := FillDefaults(f, f.required, f.defaults, given, cur, st, k);
    if r1.Next? {
      BodySame(f.body, cur, r1.st, k, c, a);
    }
  }

  lemma {:induction false} DefaultsSame(f: Func, i: nat, defaults: Exprs, given: nat, cur: nat, st: State, k: nat,
      c: nat, a: nat)
    requires Has(st, c) && cur != c
    ensures Same(FillDefaults(f, i, defaults, given, cur, st, k),
                 FillDefaults(f, i, defaults, given, cur, Re(st, c, a), k), c, a)
    decreases k, 1, defaults, 2
  {
    hide Re, Eval, Store;
    match defaults
    case NoExprs =>
    case MoreExprs(e, t) =>
      if i >= given && Slot(f, i) < UINT32_RANGE {
        EvalSame(e, cur, st, k, c, a);
        SameStore(Eval(e, cur, st, k), Eval(e, cur, Re(st, c, a), k), c, a, Syntax.Loc(Slot(f, i), 0), cur);
      }
      var r1 := FillDefault(f, i, e, given, cur, st, k);
      if r1.Next? {
        DefaultsSame(f, i + 1, t, given, cur, r1.st, k, c, a);
      }
  }

  /** The whole body of a function: the main result, for the activation it runs in. */
  lemma {:induction false} BodySame(b: Stmts, cur: nat, st: State, k: nat, c: nat, a: nat)
    requires Has(st, c) && Blind(cur, c, MarksB(b))
    ensures Same(RunBody(b, cur, st, k), RunBody(b, cur, Re(st, c, a), k), c, a)
    decreases k, 1, b, 3
  {
    hide Re, Exec, RunLast;
    match b
    case NoStmts =>
    case MoreStmts(s, t) =>
      if t.NoStmts? {
        LastSame(s, cur, st, k, c, a);
      } else {
        ExecSame(s, cur, st, k, c, a);
        var r1 := Exec(s, cur, st, k);
        if r1.Next? {
          GoesOn(s, cur, st, k);
          BodySame(t, cur, r1.st, k, c, a);
        }
      }
  }

  /** A statement that leaves the block does not complete. */
  lemma GoesOn(s: Stmt, cur: nat, st: State, k: nat)
    requires Exec(s, cur, st, k).Next?
    ensures !(s.ReturnS? || s.BreakS? || s.ContinueS? || s.ThrowS?)
  {
    hide Eval, Run, Test, Skips, Again, Select, Store;
  }

  lemma {:induction false} LastSame(s: Stmt, cur: nat, st: State, k: nat, c: nat, a: nat)
    requires Has(st, c) && Blind(cur, c, MarksS(s))
    ensures Same(RunLast(s, cur, st, k), RunLast(s, cur, Re(st, c, a), k), c, a)
    decreases k, 1, s, 3
  {
    hide Re, Eval, Exec;
    match s
    case Do(e) => EvalSame(e, cur, st, k, c, a);
    case Define(_, _) => SameParts(st, c, a, cur);
    case _ => ExecSame(s, cur, st, k, c, a);
  }

  lemma {:induction false} RunSame(b: Stmts, cur: nat, st: State, k: nat, c: nat, a: nat)
    requires Has(st, c) && Blind(cur, c, MarksB(b))
    ensures Same(Run(b, cur, st, k), Run(b, cur, Re(st, c, a), k), c, a)
    decreases k, 1, b, 1
  {
    hide Re, Exec;
    match b
    case NoStmts =>
    case MoreStmts(s, t) =>
      ExecSame(s, cur, st, k, c, a);
      var r1 := Exec(s, cur, st, k);
      if r1.Next? {
        GoesOn(s, cur, st, k);
        RunSame(t, cur, r1.st, k, c, a);
      }
  }

  lemma {:induction false} RunOptSame(b: Option<Stmts>, cur: nat, st: State, k: nat, c: nat, a: nat)
    requires Has(st, c) && Blind(cur, c, MarksO(b))
    ensures Same(RunOpt(b, cur, st, k), RunOpt(b, cur, Re(st, c, a), k), c, a)
    decreases k, 1, b, 2
  {
    hide Re, Run;
    if b.Some? {
      RunSame(b.value, cur, st, k, c, a);
    }
  }

  lemma {:induction false} ExecSame(s: Stmt, cur: nat, st: State, k: nat, c: nat, a: nat)
    requires Has(st, c) && Blind(cur, c, MarksS(s))
    ensures Same(Exec(s, cur, st, k), Exec(s, cur, Re(st, c, a), k), c, a)
    decreases k, 1, s, 1
  {
    hide *;
    if s.If? || s.IfElse? || s.Unless? || s.UnlessElse? {
      BranchesSame(s, cur, st, k, c, a);
    } else if s.While? || s.Until? || s.DoWhile? || s.DoUntil? || s.Loop? {
      LoopSame(s, cur, st, k, c, a);
    } else if s.TryCatch? || s.TryFinally? {
      TrySame(s, cur, st, k, c, a);
    } else {
      SimpleSame(s, cur, st, k, c, a);
    }
  }

  lemma {:induction false} SimpleSame(s: Stmt, cur: nat, st: State, k: nat, c: nat, a: nat)
    requires Has(st, c) && Blind(cur, c, MarksS(s))
    requires s.Do? || s.Declare? || s.Define? || s.Block? || s.Switch? || s.BreakS? || s.ContinueS? || s.ReturnS? ||
        s.ThrowS?
    ensures Same(Exec(s, cur, st, k), Exec(s, cur, Re(st, c, a), k), c, a)
    decreases k, 1, s, 0
  {
    hide Re, Eval, Run, RunOpt, Select, Store, Test, Skips, Again;
    match s
    case Do(e) => EvalSame(e, cur, st, k, c, a);
    case Declare(_, loc, e) =>
      EvalSame(e, cur, st, k, c, a);
      SameStore(Eval(e, cur, st, k), Eval(e, cur, Re(st, c, a), k), c, a, loc, cur);
    case Define(loc, f) =>
      SameParts(st, c, a, cur);
      var st1 := st.(clos := st.clos + [Closure(f, cur)]);
      SameStore(Val(Fun(|st.clos|), st1), Val(Fun(|st.clos|), Re(st1, c, a)), c, a, loc, cur);
    case Block(b) => RunSame(b, cur, st, k, c, a);
    case Switch(e, cases, otherwise) =>
      EvalSame(e, cur, st, k, c, a);
      var r1 := Eval(e, cur, st, k);
      if r1.Val? {
        SelectSame(cases, r1.v, cur, r1.st, k, c, a);
        var r2 := Select(cases, r1.v, cur, r1.st, k);
        if r2.NotChosen? {
          RunOptSame(otherwise, cur, r2.st, k, c, a);
        }
      }
    case BreakS =>
    case ContinueS =>
    case ReturnS(e) => EvalSame(e, cur, st, k, c, a);
    case ThrowS(e) => EvalSame(e, cur, st, k, c, a);
  }

  lemma {:induction false} BranchesSame(s: Stmt, cur: nat, st: State, k: nat, c: nat, a: nat)
    requires Has(st, c) && Blind(cur, c, MarksS(s)) && (s.If? || s.IfElse? || s.Unless? || s.UnlessElse?)
    ensures Same(Exec(s, cur, st, k), Exec(s, cur, Re(st, c, a), k), c, a)
    decreases k, 1, s, 0
  {
    hide Re, Eval, Run, Test, Skips;
    var r1;
    if s.If? || s.IfElse? {
      TestSame(s.c, cur, st, k, c, a);
      r1 := Test(s.c, cur, st, k);
    } else {
      SkipsSame(s.c, cur, st, k, c, a);
      r1 := Skips(s.c, cur, st, k);
    }
    if r1.Val? {
      RunSame(s.t, cur, r1.st, k, c, a);
      if s.IfElse? || s.UnlessElse? {
        RunSame(s.f, cur, r1.st, k, c, a);
      }
    }
  }

  lemma {:induction false} LoopSame(s: Stmt, cur: nat, st: State, k: nat, c: nat, a: nat)
    requires Has(st, c) && Blind(cur, c, MarksS(s))
    requires s.While? || s.Until? || s.DoWhile? || s.DoUntil? || s.Loop?
    ensures Same(Exec(s, cur, st, k), Exec(s, cur, Re(st, c, a), k), c, a)
    decreases k, 1, s, 0
  {
    hide Re, Eval, Run, Test, Again, Truthy;
    match s
    case While(e, b) =>
      TestSame(e, cur, st, k, c, a);
      var r1 := Test(e, cur, st, k);
      if r1.Val? {
        RunSame(b, cur, r1.st, k, c, a);
        AgainSame(s, Run(b, cur, r1.st, k), Run(b, cur, Re(r1.st, c, a), k), cur, k, c, a);
      }
    case Until(e, b) =>
      EvalSame(e, cur, st, k, c, a);
      var r1 := Eval(e, cur, st, k);
      if r1.Val? {
        RunSame(b, cur, r1.st, k, c, a);
        AgainSame(s, Run(b, cur, r1.st, k), Run(b, cur, Re(r1.st, c, a), k), cur, k, c, a);
      }
    case DoWhile(b, e) =>
      RunSame(b, cur, st, k, c, a);
      var r1 := Iteration(Run(b, cur, st, k));
      if r1.Val? {
        TestSame(e, cur, r1.st, k, c, a);
        var r2 := Test(e, cur, r1.st, k);
        if r2.Val? {
          AgainSame(s, Next(r2.st), Next(Re(r2.st, c, a)), cur, k, c, a);
        }
      }
    case DoUntil(b, e) =>
      RunSame(b, cur, st, k, c, a);
      var r1 := Iteration(Run(b, cur, st, k));
      if r1.Val? {
        EvalSame(e, cur, r1.st, k, c, a);
        var r2 := Eval(e, cur, r1.st, k);
        if r2.Val? {
          AgainSame(s, Next(r2.st), Next(Re(r2.st, c, a)), cur, k, c, a);
        }
      }
    case Loop(b) =>
      RunSame(b, cur, st, k, c, a);
      AgainSame(s, Run(b, cur, st, k), Run(b, cur, Re(st, c, a), k), cur, k, c, a);
  }

  lemma {:induction false} AgainSame(loop: Stmt, r: Res, r': Res, cur: nat, k: nat, c: nat, a: nat)
    requires Same(r, r', c, a) && Blind(cur, c, MarksS(loop))
    ensures Same(Again(loop, r, cur, k), Again(loop, r', cur, k), c, a)
    decreases k, 0
  {
    hide Re, Exec;
    if (r.Next? || r.Continue?) && k > 0 {
      ExecSame(loop, cur, r.st, k - 1, c, a);
    }
  }

  lemma {:induction false} TrySame(s: Stmt, cur: nat, st: State, k: nat, c: nat, a: nat)
    requires Has(st, c) && Blind(cur, c, MarksS(s)) && (s.TryCatch? || s.TryFinally?)
    ensures Same(Exec(s, cur, st, k), Exec(s, cur, Re(st, c, a), k), c, a)
    decreases k, 1, s, 0
  {
    hide Re, Run, RunOpt, Write, Read;
    RunSame(s.b, cur, st, k, c, a);
    var r1 := Run(s.b, cur, st, k);
    if r1.Throw? {
      SameWrite(r1.st, c, a, cur, s.exc, r1.v);
      var w := Write(r1.st, cur, s.exc, r1.v);
      if w.Some? {
        if s.TryCatch? {
          RunSame(s.handler, cur, w.value, k, c, a);
          var r2 := Run(s.handler, cur, w.value, k);
          if r2.Next? {
            RunOptSame(s.fin, cur, r2.st, k, c, a);
          }
        } else {
          RunSame(s.finalizer, cur, w.value, k, c, a);
          var r2 := Run(s.finalizer, cur, w.value, k);
          if r2.Next? {
            SameRead(r2.st, c, a, cur, s.exc);
          }
        }
      }
    } else if r1.Next? {
      if s.TryCatch? {
        RunOptSame(s.fin, cur, r1.st, k, c, a);
      } else {
        RunSame(s.finalizer, cur, r1.st, k, c, a);
      }
    }
  }

  lemma {:induction false} SelectSame(cases: Cases, v: Value, cur: nat, st: State, k: nat, c: nat, a: nat)
    requires Has(st, c) && Blind(cur, c, MarksC(cases))
    ensures SameCase(Select(cases, v, cur, st, k), Select(cases, v, cur, Re(st, c, a), k), c, a)
    decreases k, 1, cases, 1
  {
    hide Re, Run, Matches;
    match cases
    case NoCases =>
    case MoreCases(conds, b, rest) =>
      MatchesSame(conds, v, cur, st, k, c, a);
      var r1 := Matches(conds, v, cur, st, k);
      if r1.Val? {
        RunSame(b, cur, r1.st, k, c, a);
        SelectSame(rest, v, cur, r1.st, k, c, a);
      }
  }

  lemma {:induction false} MatchesSame(conds: Exprs, v: Value, cur: nat, st: State, k: nat, c: nat, a: nat)
    requires Has(st, c) && Blind(cur, c, MarksArgs(conds))
    ensures Same(Matches(conds, v, cur, st, k), Matches(conds, v, cur, Re(st, c, a), k), c, a)
    decreases k, 1, conds, 1
  {
    hide Re, Eval, Binary, Truthy;
    match conds
    case NoExprs =>
    case MoreExprs(e, t) =>
      EvalSame(e, cur, st, k, c, a);
      var r1 := Eval(e, cur, st, k);
      if r1.Val? {
        MatchesSame(t, v, cur, r1.st, k, c, a);
      }
  }

  // ----- the main result -----

  /**
   * A function that the normaliser does not mark has no default values to fill in, and its body does the same
   * whatever array its activation holds as `arguments`: it never looks at it.
   */
  lemma UnmarkedIsBlind(f: Func, cur: nat, st: State, k: nat, a: nat)
    requires !NormF(f).needsArguments && Has(st, cur)
    ensures f.defaults.NoExprs?
    ensures Same(RunBody(f.body, cur, st, k), RunBody(f.body, cur, Re(st, cur, a), k), cur, a)
  {
    hide NormB, Prologue, RunBody, Re;
    BodySame(f.body, cur, st, k, cur, a);
  }

  /** A mention does look at it: `arguments` is the array, and `$i` its element. */
  lemma MentionsLook(i: uint32, cur: nat, st: State, k: nat)
    requires Has(st, cur) && st.acts[cur].arguments.value < |st.arrs|
    ensures Eval(Arguments, cur, st, k) == Val(Arr(st.acts[cur].arguments.value), st)
    ensures var args := st.arrs[st.acts[cur].arguments.value];
      Eval(Dollar(i), cur, st, k) == Val(if i < |args| then args[i] else Null, st)
  {
  }
}
