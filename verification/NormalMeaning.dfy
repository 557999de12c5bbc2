/** The induction: every evaluation of the original is mirrored by the rewritten tree. */
module NormalMeaning {
  import opened Values
  import opened Normalising
  import opened NormalForm
  import R = Source
  import X = Syntax
  import M = Semantics

  predicate ArgsR(w: World, a: R.ArgsRes, b: M.ArgsRes) {
    match a
    case Args(vs, s) => b.Args? && ValsR(w, vs, b.vs) && StR(w, s, b.st)
    case ArgsAbrupt(r) => b.ArgsAbrupt? && ResR(w, r, b.r)
  }

  predicate CaseR(w: World, a: R.CaseRes, b: M.CaseRes) {
    match a
    case NotChosen(s) => b.NotChosen? && StR(w, s, b.st)
    case CaseDone(r) => b.CaseDone? && ResR(w, r, b.r)
  }

  // ----- expressions -----

  /** Every result of evaluating an expression is mirrored. */
  lemma {:induction false} NE(e: R.Expr, cur: nat, w: World, s: R.State, t: M.State, k: nat) returns (u: World)
    requires SoundE(e) && StR(w, s, t) && !R.Eval(e, cur, s, k).Stuck?
    ensures Ext(w, u) && ResR(u, R.Eval(e, cur, s, k), M.Eval(M.Direct, NormE(e), cur, t, k))
    decreases k, 1, e, 1
  {
    hide R.Eval, M.Eval, NormE, SoundE, StR, ResR;
    match e
    case Lit(_) => NLeaf(e, cur, w, s, t, k); u := w;
    case Int(_) => NLeaf(e, cur, w, s, t, k); u := w;
    case Var(_) => NLeaf(e, cur, w, s, t, k); u := w;
    case Arguments => NArguments(e, cur, w, s, t, k); u := w;
    case Dollar(_) => NArguments(e, cur, w, s, t, k); u := w;
    case Un(_, _) => u := NUnary(e, cur, w, s, t, k);
    case Bin(_, _, _) => u := NBinary(e, cur, w, s, t, k);
    case And(_, _) => u := NLogic(e, cur, w, s, t, k);
    case Or(_, _) => u := NLogic(e, cur, w, s, t, k);
    case Ternary(_, _, _) => u := NTernary(e, cur, w, s, t, k);
    case Assign(_, _) => u := NAssign(e, cur, w, s, t, k);
    case Call(_, _) => u := NCall(e, cur, w, s, t, k);
    case Fn(f) => u := NFn(e, cur, w, s, t, k);
    case Length(_) => u := NLength(e, cur, w, s, t, k);
  }

  lemma NLeaf(e: R.Expr, cur: nat, w: World, s: R.State, t: M.State, k: nat)
    requires e.Lit? || e.Int? || e.Var?
    requires StR(w, s, t) && !R.Eval(e, cur, s, k).Stuck?
    ensures ResR(w, R.Eval(e, cur, s, k), M.Eval(M.Direct, NormE(e), cur, t, k))
  {
    hide StR, R.Read, M.Read;
    if e.Var? { ReadR(w, s, t, cur, e.loc); }
  }

  /** The activation's arguments, as both runs see them. */
  lemma ArgumentsR(w: World, cur: nat, s: R.State, t: M.State)
    requires StR(w, s, t) && R.ArgumentsOf(s, cur).Some?
    ensures var a := R.ArgumentsOf(s, cur).value;
      && M.Read(t, cur, X.Loc(0, 0)) == Some(Arr(a)) && ValR(w, Arr(a), Arr(a))
      && a < |s.arrs| == |t.arrs| && ValsR(w, s.arrs[a], t.arrs[a])
      && |s.arrs[a]| == |t.arrs[a]| == w.lengths[a]
      && cur < |w.arguments| && w.arguments[cur] == Some(a)
  {
    hide ClosR, ValsR;
    assert ValsR(w, s.arrs[R.ArgumentsOf(s, cur).value], t.arrs[R.ArgumentsOf(s, cur).value]);
    SameLength(w, s.arrs[R.ArgumentsOf(s, cur).value], t.arrs[R.ArgumentsOf(s, cur).value]);
  }

  lemma SameLength(w: World, a: seq<Value>, b: seq<Value>)
    requires ValsR(w, a, b)
    ensures |a| == |b|
  {
  }

  lemma NArguments(e: R.Expr, cur: nat, w: World, s: R.State, t: M.State, k: nat)
    requires e.Arguments? || e.Dollar?
    requires StR(w, s, t) && !R.Eval(e, cur, s, k).Stuck?
    ensures ResR(w, R.Eval(e, cur, s, k), M.Eval(M.Direct, NormE(e), cur, t, k))
  {
    hide StR, M.Read, R.ArgumentsOf;
    ArgumentsR(w, cur, s, t);
  }

  lemma {:induction false} NUnary(e: R.Expr, cur: nat, w: World, s: R.State, t: M.State, k: nat) returns (u: World)
    requires e.Un? && SoundE(e) && StR(w, s, t) && !R.Eval(e, cur, s, k).Stuck?
    ensures Ext(w, u) && ResR(u, R.Eval(e, cur, s, k), M.Eval(M.Direct, NormE(e), cur, t, k))
    decreases k, 1, e, 0
  {
    hide StR, ValR, Unary;
    u := NE(e.e, cur, w, s, t, k);
    var r, q := R.Eval(e.e, cur, s, k), M.Eval(M.Direct, NormE(e.e), cur, t, k);
    if r.Val? { UnaryR(u, e.uop, r.v, q.v); }
  }

  lemma {:induction false} NBinary(e: R.Expr, cur: nat, w: World, s: R.State, t: M.State, k: nat) returns (u: World)
    requires e.Bin? && SoundE(e) && StR(w, s, t) && !R.Eval(e, cur, s, k).Stuck?
    ensures Ext(w, u) && ResR(u, R.Eval(e, cur, s, k), M.Eval(M.Direct, NormE(e), cur, t, k))
    decreases k, 1, e, 0
  {
    hide StR, ValR, Binary, Fold, FoldSafe;
    u := NE(e.l, cur, w, s, t, k);
    var r, q := R.Eval(e.l, cur, s, k), M.Eval(M.Direct, NormE(e.l), cur, t, k);
    if r.Val? {
      var u1 := u;
      u := NE(e.r, cur, u1, r.st, q.st, k);
      var r2, q2 := R.Eval(e.r, cur, r.st, k), M.Eval(M.Direct, NormE(e.r), cur, q.st, k);
      ExtTrans(w, u1, u);
      if r2.Val? {
        ValMono(u1, u, r.v, q.v);
        OperatorR(u, e.op, r.v, r2.v, q.v, q2.v, r2.st, q2.st);
      }
    }
    if Fold(e.op, e.l, e.r, NormE(e.l), NormE(e.r)).Some? {
      FoldR(e, u, q, cur, t, k);
      assert r.Val? && q.st == t;
      var r2, q2 := R.Eval(e.r, cur, r.st, k), M.Eval(M.Direct, NormE(e.r), cur, t, k);
      assert r2.Val? && q2.st == t;
      PlainR(u, r.v, q.v);
      PlainR(u, r2.v, q2.v);
      FoldExact(e.op, e.l, e.r);
      PlainR(u, Str(Fold(e.op, e.l, e.r, NormE(e.l), NormE(e.r)).value),
          Str(Fold(e.op, e.l, e.r, NormE(e.l), NormE(e.r)).value));
    }
  }

  lemma OperatorR(u: World, op: BinOp, a: Value, b: Value, a': Value, b': Value, s: R.State, t: M.State)
    requires StR(u, s, t) && ValR(u, a, a') && ValR(u, b, b') && Binary(op, a, b).Some?
    ensures Binary(op, a', b').Some? && ValR(u, Binary(op, a, b).value, Binary(op, a', b').value)
    ensures Comparable(a, b) == Comparable(a', b')
  {
    hide ValR, Binary, ActsR, ArrsR, Comparable;
    BinaryR(u, op, a, b, a', b');
  }

  /** Values that are not objects are equal in both runs. */
  lemma PlainR(u: World, a: Value, b: Value)
    requires !b.Fun? && !b.Arr?
    ensures ValR(u, a, b) <==> a == b
  {
  }

  /** Operands of a fold evaluate to their literals and change nothing. */
  lemma FoldR(e: R.Expr, u: World, q: M.Res, cur: nat, t: M.State, k: nat)
    requires e.Bin? && Fold(e.op, e.l, e.r, NormE(e.l), NormE(e.r)).Some?
    ensures M.Eval(M.Direct, NormE(e.l), cur, t, k) == M.Val(LiteralValue(e.l), t)
    ensures M.Eval(M.Direct, NormE(e.r), cur, t, k) == M.Val(LiteralValue(e.r), t)
    ensures !LiteralValue(e.l).Fun? && !LiteralValue(e.l).Arr? && !LiteralValue(e.r).Fun? && !LiteralValue(e.r).Arr?
  {
    hide Times, Repeat;
  }

  lemma {:induction false} NLogic(e: R.Expr, cur: nat, w: World, s: R.State, t: M.State, k: nat) returns (u: World)
    requires (e.And? || e.Or?) && SoundE(e) && StR(w, s, t) && !R.Eval(e, cur, s, k).Stuck?
    ensures Ext(w, u) && ResR(u, R.Eval(e, cur, s, k), M.Eval(M.Direct, NormE(e), cur, t, k))
    decreases k, 1, e, 0
  {
    hide StR, ValR, Truthy;
    u := NE(e.l, cur, w, s, t, k);
    var r, q := R.Eval(e.l, cur, s, k), M.Eval(M.Direct, NormE(e.l), cur, t, k);
    if r.Val? {
      UnaryR(u, UNot, r.v, q.v);
      if Truthy(r.v) == e.And? {
        var u1 := u;
        u := NE(e.r, cur, u1, r.st, q.st, k);
        ExtTrans(w, u1, u);
      }
    }
  }

  lemma {:induction false} NTernary(e: R.Expr, cur: nat, w: World, s: R.State, t: M.State, k: nat) returns (u: World)
    requires e.Ternary? && SoundE(e) && StR(w, s, t) && !R.Eval(e, cur, s, k).Stuck?
    ensures Ext(w, u) && ResR(u, R.Eval(e, cur, s, k), M.Eval(M.Direct, NormE(e), cur, t, k))
    decreases k, 1, e, 0
  {
    hide StR, ValR, R.Test, M.Test;
    u := NTest(e.c, cur, w, s, t, k);
    var r, q := R.Test(e.c, cur, s, k), M.Test(M.Direct, NormE(e.c), cur, t, k);
    if r.Val? {
      var u1 := u;
      u := NE(if r.v == Bool(true) then e.t else e.f, cur, u1, r.st, q.st, k);
      ExtTrans(w, u1, u);
    }
  }

  lemma {:induction false} NAssign(e: R.Expr, cur: nat, w: World, s: R.State, t: M.State, k: nat) returns (u: World)
    requires e.Assign? && SoundE(e) && StR(w, s, t) && !R.Eval(e, cur, s, k).Stuck?
    ensures Ext(w, u) && ResR(u, R.Eval(e, cur, s, k), M.Eval(M.Direct, NormE(e), cur, t, k))
    decreases k, 1, e, 0
  {
    hide StR, ValR, R.Write, M.Write;
    u := NE(e.e, cur, w, s, t, k);
    var r, q := R.Eval(e.e, cur, s, k), M.Eval(M.Direct, NormE(e.e), cur, t, k);
    if r.Val? { WriteR(u, r.st, q.st, cur, e.loc, r.v, q.v); }
  }

  lemma {:induction false} NCall(e: R.Expr, cur: nat, w: World, s: R.State, t: M.State, k: nat) returns (u: World)
    requires e.Call? && SoundE(e) && StR(w, s, t) && !R.Eval(e, cur, s, k).Stuck?
    ensures Ext(w, u) && ResR(u, R.Eval(e, cur, s, k), M.Eval(M.Direct, NormE(e), cur, t, k))
    decreases k, 1, e, 0
  {
    hide StR, ValR, ValsR, R.Invoke, M.Invoke, R.EvalArgs, M.EvalArgs;
    u := NE(e.callee, cur, w, s, t, k);
    var r, q := R.Eval(e.callee, cur, s, k), M.Eval(M.Direct, NormE(e.callee), cur, t, k);
    if r.Val? {
      var u1 := u;
      u := NArgs(e.args, cur, u1, r.st, q.st, k);
      ExtTrans(w, u1, u);
      var r2, q2 := R.EvalArgs(e.args, cur, r.st, k), M.EvalArgs(M.Direct, NormArgs(e.args), cur, q.st, k);
      if r2.Args? {
        var u2 := u;
        ValMono(u1, u2, r.v, q.v);
        u := NInvoke(r.v, q.v, r2.vs, q2.vs, u2, r2.st, q2.st, k);
        ExtTrans(w, u2, u);
      }
    }
  }

  lemma NFn(e: R.Expr, cur: nat, w: World, s: R.State, t: M.State, k: nat) returns (u: World)
    requires e.Fn? && SoundE(e) && StR(w, s, t)
    ensures Ext(w, u) && ResR(u, R.Eval(e, cur, s, k), M.Eval(M.Direct, NormE(e), cur, t, k))
  {
    hide StR, ValR, NormF;
    u := FunR(w, s, t, e.func, NormF(e.func), cur);
  }

  lemma {:induction false} NLength(e: R.Expr, cur: nat, w: World, s: R.State, t: M.State, k: nat) returns (u: World)
    requires e.Length? && SoundE(e) && StR(w, s, t) && !R.Eval(e, cur, s, k).Stuck?
    ensures Ext(w, u) && ResR(u, R.Eval(e, cur, s, k), M.Eval(M.Direct, NormE(e), cur, t, k))
    decreases k, 1, e, 0
  {
    hide StR;
    u := NE(e.e, cur, w, s, t, k);
    var r, q := R.Eval(e.e, cur, s, k), M.Eval(M.Direct, NormE(e.e), cur, t, k);
    if r.Val? { ArrayLengthR(u, r.st, q.st, r.v, q.v); }
  }

  lemma ArrayLengthR(w: World, s: R.State, t: M.State, v: Value, v': Value)
    requires StR(w, s, t) && ValR(w, v, v') && v.Arr? && v.id < |s.arrs|
    ensures v' == v && v.id < |t.arrs| && |s.arrs[v.id]| == |t.arrs[v.id]|
  {
    hide ActsR, ClosR;
  }

  lemma {:induction false} NArgs(es: R.Exprs, cur: nat, w: World, s: R.State, t: M.State, k: nat) returns (u: World)
    requires SoundArgs(es) && StR(w, s, t) && R.EvalArgs(es, cur, s, k) != R.ArgsAbrupt(R.Stuck)
    ensures Ext(w, u) && ArgsR(u, R.EvalArgs(es, cur, s, k), M.EvalArgs(M.Direct, NormArgs(es), cur, t, k))
    decreases k, 1, es, 1
  {
    hide StR, ValR, R.Eval, M.Eval, NormE, SoundE;
    u := w;
    if es.MoreExprs? {
      u := NE(es.head, cur, w, s, t, k);
      var r, q := R.Eval(es.head, cur, s, k), M.Eval(M.Direct, NormE(es.head), cur, t, k);
      if r.Val? {
        var u1 := u;
        u := NArgs(es.tail, cur, u1, r.st, q.st, k);
        ExtTrans(w, u1, u);
        ValMono(u1, u, r.v, q.v);
      }
    }
  }

  lemma {:induction false} NTest(e: R.Expr, cur: nat, w: World, s: R.State, t: M.State, k: nat) returns (u: World)
    requires SoundE(e) && StR(w, s, t) && !R.Test(e, cur, s, k).Stuck?
    ensures Ext(w, u)
    ensures var r, q := R.Test(e, cur, s, k), M.Test(M.Direct, NormE(e), cur, t, k);
      ResR(u, r, q) && (r.Val? ==> r.v == q.v && r.v.Bool?)
    decreases k, 1, e, 2
  {
    hide StR, ValR, R.Eval, M.Eval, NormE, SoundE, Truthy, Binary, Comparable;
    HeadKept(e);
    if R.IsComparison(e) {
      SoundOperands(e);
      u := NE(e.l, cur, w, s, t, k);
      var r, q := R.Eval(e.l, cur, s, k), M.Eval(M.Direct, NormE(e.l), cur, t, k);
      if r.Val? {
        var u1 := u;
        u := NE(e.r, cur, u1, r.st, q.st, k);
        ExtTrans(w, u1, u);
        var r2, q2 := R.Eval(e.r, cur, r.st, k), M.Eval(M.Direct, NormE(e.r), cur, q.st, k);
        if r2.Val? {
          ValMono(u1, u, r.v, q.v);
          OperatorR(u, e.op, r.v, r2.v, q.v, q2.v, r2.st, q2.st);
          HoldsR(u, e.op, r.v, r2.v, q.v, q2.v);
        }
      }
    } else {
      u := NE(e, cur, w, s, t, k);
      var r, q := R.Eval(e, cur, s, k), M.Eval(M.Direct, NormE(e), cur, t, k);
      if r.Val? {
        UnaryR(u, UNot, r.v, q.v);
        PlainR(u, Bool(Truthy(r.v)), Bool(Truthy(q.v)));
      }
    }
  }

  lemma SoundOperands(e: R.Expr)
    requires e.Bin? && SoundE(e)
    ensures SoundE(e.l) && SoundE(e.r)
  {
  }

  lemma HoldsR(u: World, op: BinOp, a: Value, b: Value, a': Value, b': Value)
    requires IsComparisonOp(op) && Binary(op, a, b).Some? && Binary(op, a', b').Some?
    requires ValR(u, Binary(op, a, b).value, Binary(op, a', b').value)
    requires IsOrdering(op) ==> Comparable(a', b')
    ensures M.Holds(M.Direct, op, a', b') == Some(Truthy(Binary(op, a, b).value))
    ensures ValR(u, Bool(Truthy(Binary(op, a, b).value)), Bool(Truthy(Binary(op, a, b).value)))
  {
    hide Compare;
  }

  // ----- calls -----

  /** What a default's guard does: nothing if there was an argument, else it fills the slot. */
  lemma GuardedDefault(i: nat, x: X.Expr, a: nat, cur: nat, t: M.State, k: nat)
    requires i + 1 < UINT32_RANGE && M.Read(t, cur, X.Loc(0, 0)) == Some(Arr(a)) && a < |t.arrs|
    ensures M.Exec(M.Direct, DefaultOf(i, x), cur, t, k) ==
      if i < |t.arrs[a]| then M.Next(t)
      else
        match M.Eval(M.Direct, x, cur, t, k)
        case Val(v, t1) =>
          (match M.Write(t1, cur, X.Loc(i + 1, 0), v)
           case Some(t2) => M.Next(t2)
           case None => M.Stuck)
        case r => r
  {
    hide M.Read, M.Write;
    var given := |t.arrs[a]|;
    var c := DefaultOf(i, x).c;
    assert M.Eval(M.Direct, c.l.e, cur, t, k) == M.Val(Arr(a), t);
    assert M.Eval(M.Direct, c.l, cur, t, k) == M.Val(Num(given as real), t);
    assert M.Eval(M.Direct, c.r, cur, t, k) == M.Val(Num(i as real), t);
    assert M.Test(M.Direct, c, cur, t, k) == M.Val(Bool(given <= i), t);
    var b := M.Exec(M.Direct, X.Set(X.Loc(i + 1, 0), x), cur, t, k);
    assert M.Run(M.Direct, One(X.Set(X.Loc(i + 1, 0), x)), cur, t, k) == b by {
      if b.Next? {
        assert M.Run(M.Direct, X.NoStmts, cur, b.st, k) == b;
      }
    }
  }

  /** One parameter's guard does what filling in its default does. */
  lemma {:induction false} NDefault(f: R.Func, i: nat, e: R.Expr, given: nat, a: nat, cur: nat,
                                    w: World, s: R.State, t: M.State, k: nat)
    returns (u: World)
    requires SoundE(e) && StR(w, s, t) && i + 1 < UINT32_RANGE && f.needsArguments && Given(w, cur, a, given)
    requires !R.FillDefault(f, i, e, given, cur, s, k).Stuck?
    ensures Ext(w, u)
    ensures ResR(u, R.FillDefault(f, i, e, given, cur, s, k), M.Exec(M.Direct, DefaultOf(i, NormE(e)), cur, t, k))
    decreases k, 1, e, 3
  {
    u := w;
    assert R.ArgumentsOf(s, cur) == Some(a) by { hide ClosR, ArrsR, ValsR; }
    ArgumentsR(w, cur, s, t);
    GuardedDefault(i, NormE(e), a, cur, t, k);
    hide StR, ValR, ValsR, R.Eval, M.Eval, NormE, SoundE, R.Store, M.Write, M.Exec, DefaultOf, M.Read, R.ArgumentsOf;
    if i >= given {
      StoreNotStuck(R.Eval(e, cur, s, k), X.Loc(i + 1, 0), cur);
      u := NE(e, cur, w, s, t, k);
      StoreR(u, R.Eval(e, cur, s, k), M.Eval(M.Direct, NormE(e), cur, t, k), X.Loc(i + 1, 0), cur);
    }
  }

  /**
   * The prologue does what filling in defaults does, one parameter after the other, and then
   * runs the body.
   */
  lemma {:induction false} NFill(f: R.Func, i: nat, ds: R.Exprs, body: X.Stmts, given: nat, a: nat, cur: nat,
                                 w: World, s: R.State, t: M.State, k: nat)
    returns (u: World, t1: M.State)
    requires SoundArgs(ds) && StR(w, s, t) && i + R.Count(ds) == f.params
    requires ds.MoreExprs? ==> f.needsArguments && Given(w, cur, a, given)
    requires !R.FillDefaults(f, i, ds, given, cur, s, k).Stuck?
    ensures Ext(w, u)
    ensures var r := R.FillDefaults(f, i, ds, given, cur, s, k);
      var q := M.Run(M.Direct, Prologue(i, ds, body), cur, t, k);
      if r.Next? then StR(u, r.st, t1) && q == M.Run(M.Direct, body, cur, t1, k) else ResR(u, r, q)
    decreases k, 1, ds, 2
  {
    u, t1 := w, t;
    if ds.MoreExprs? {
      PrologueStep(i, ds, body, cur, t, k);
      hide StR, ValR, M.Run, NormE, SoundE, M.Exec, DefaultOf, Prologue, R.FillDefault;
      u := NDefault(f, i, ds.head, given, a, cur, w, s, t, k);
      var r, q := R.FillDefault(f, i, ds.head, given, cur, s, k),
          M.Exec(M.Direct, DefaultOf(i, NormE(ds.head)), cur, t, k);
      if r.Next? {
        var u1 := u;
        u, t1 := NFill(f, i + 1, ds.tail, body, given, a, cur, u1, r.st, q.st, k);
        ExtTrans(w, u1, u);
      }
    }
  }

  /** Activation `cur` was called with array `a` of `given` arguments. */
  predicate Given(w: World, cur: nat, a: nat, given: nat) {
    cur < |w.arguments| && w.arguments[cur] == Some(a) && a < |w.lengths| && w.lengths[a] == given
  }

  lemma PrologueStep(i: nat, ds: R.Exprs, body: X.Stmts, cur: nat, t: M.State, k: nat)
    requires ds.MoreExprs? && i + 1 < UINT32_RANGE
    ensures M.Run(M.Direct, Prologue(i, ds, body), cur, t, k) ==
      match M.Exec(M.Direct, DefaultOf(i, NormE(ds.head)), cur, t, k)
      case Next(t1) => M.Run(M.Direct, Prologue(i + 1, ds.tail, body), cur, t1, k)
      case r => r
  {
    hide M.Exec, NormE, DefaultOf;
  }

  lemma {:induction false} NInvoke(fv: Value, fv': Value, args: seq<Value>, args': seq<Value>,
                                   w: World, s: R.State, t: M.State, k: nat)
    returns (u: World)
    requires StR(w, s, t) && ValR(w, fv, fv') && ValsR(w, args, args') && !R.Invoke(fv, args, s, k).Stuck?
    ensures Ext(w, u) && ResR(u, R.Invoke(fv, args, s, k), M.Invoke(M.Direct, fv', args', t, k))
    decreases k, 0
  {
    u := w;
    if !fv.Fun? {
      NotCallableR(fv, fv', args, args', w, s, t, k);
    } else {
      var c, d := s.clos[fv.id], t.clos[fv'.id];
      assert CloR(c, d) by { hide ActsR, ArrsR, CloR; }
      assert fv'.id < |t.clos| by { hide ActsR, ArrsR, CloR; }
      SameLength(w, args, args');
      if |args| < c.f.required {
        PlainR(w, Str(NOT_ENOUGH), Str(NOT_ENOUGH));
        hide StR, ValR, ValsR, NormF, SoundF;
        assert d.f.required == c.f.required;
      } else if k > 0 {
        u := NEntered(c, d, args, args', w, s, t, k);
      }
    }
  }

  lemma NotCallableR(fv: Value, fv': Value, args: seq<Value>, args': seq<Value>,
                     w: World, s: R.State, t: M.State, k: nat)
    requires !fv.Fun? && StR(w, s, t) && ValR(w, fv, fv')
    ensures ResR(w, R.Invoke(fv, args, s, k), M.Invoke(M.Direct, fv', args', t, k))
  {
    hide StR;
  }

  lemma {:induction false} NEntered(c: R.Closure, d: M.Closure, args: seq<Value>, args': seq<Value>,
                                    w: World, s: R.State, t: M.State, k: nat)
    returns (u: World)
    requires k > 0 && StR(w, s, t) && CloR(c, d) && ValsR(w, args, args')
    requires !(c.f.needsArguments && c.f.lvarcount == 0)
    requires !R.Called(c.f, |args|, |s.acts|, R.Enter(s, c, args), k - 1).Stuck?
    ensures Ext(w, u)
    ensures ResR(u, R.Called(c.f, |args|, |s.acts|, R.Enter(s, c, args), k - 1),
                 Returned(M.Run(M.Direct, d.f.body, |t.acts|, M.Enter(t, d, args'), k - 1)))
    decreases k - 1, 3
  {
    hide StR, CloR, ValsR, R.Called, M.Run, R.Enter, M.Enter, SoundBody, Prologue, NormB, Returned, Given, ResR;
    EnteredR(c, d, args, args', w, s, t);
    var w1 := Entered(w, c.f, |args|);
    u := NCalled(c.f, |args|, |w.lengths|, |s.acts|, w1, R.Enter(s, c, args), M.Enter(t, d, args'), k - 1);
    ExtTrans(w, w1, u);
  }

  /** A call that gets as far as its activation. */
  lemma {:induction false} NCalled(f: R.Func, given: nat, a: nat, cur: nat, w: World, s: R.State, t: M.State, k: nat)
    returns (u: World)
    requires SoundBody(f) && StR(w, s, t) && (f.needsArguments ==> Given(w, cur, a, given))
    requires !R.Called(f, given, cur, s, k).Stuck?
    ensures Ext(w, u)
    ensures ResR(u, R.Called(f, given, cur, s, k),
                 Returned(M.Run(M.Direct, Prologue(f.required, f.defaults, NormB(f.body, true)), cur, t, k)))
    decreases k, 2
  {
    hide StR, ValR, NormB, R.RunBody, M.Run, R.FillDefaults, Prologue, SoundArgs, SoundB, Given;
    var u1, t1 := NFill(f, f.required, f.defaults, NormB(f.body, true), given, a, cur, w, s, t, k);
    u := u1;
    var r := R.FillDefaults(f, f.required, f.defaults, given, cur, s, k);
    if r.Next? {
      u := NBody(f.body, cur, u1, r.st, t1, k);
      ExtTrans(w, u1, u);
    }
  }

  lemma EnteredR(c: R.Closure, d: M.Closure, args: seq<Value>, args': seq<Value>, w: World, s: R.State, t: M.State)
    requires StR(w, s, t) && CloR(c, d) && ValsR(w, args, args')
    requires !(c.f.needsArguments && c.f.lvarcount == 0)
    ensures var w1 := Entered(w, c.f, |args|);
      && Ext(w, w1) && StR(w1, R.Enter(s, c, args), M.Enter(t, d, args'))
      && |t.acts| == |s.acts| == |w.arguments|
      && (c.f.needsArguments ==> Given(w1, |s.acts|, |w.lengths|, |args|))
    ensures SoundBody(c.f) && d.f.body == Prologue(c.f.required, c.f.defaults, NormB(c.f.body, true))
  {
    EnterR(w, s, t, c, d, args, args');
    hide NormB, Prologue, MarksB, SoundArgs, SoundB, ValsR, R.Enter, M.Enter;
  }

  predicate SoundBody(f: R.Func) {
    && (f.defaults.MoreExprs? ==> f.needsArguments)
    && f.required + R.Count(f.defaults) == f.params
    && SoundArgs(f.defaults) && SoundB(f.body)
  }

  /** What a call makes of its body's result. */
  function Returned(r: M.Res): M.Res {
    match r
    case Return(v, s1) => M.Val(v, s1)
    case Throw(v, s1) => M.Throw(v, s1)
    case Timeout => M.Timeout
    case _ => M.Stuck
  }

  // ----- statement lists -----

  /** A dropped statement changes nothing but which function objects exist. */
  lemma {:induction false} NDropped(e: R.Expr, cur: nat, w: World, s: R.State, t: M.State, k: nat) returns (s1: R.State)
    requires SoundE(e) && StR(w, s, t) && IsLiteral(NormE(e)) && !R.Eval(e, cur, s, k).Stuck?
    ensures R.Exec(R.Do(e), cur, s, k) == R.Next(s1) && StR(w, s1, t)
    decreases k, 1, e, 3
  {
    if e.Fn? {
      hide StR, NormF;
      s1 := s.(clos := s.clos + [R.Closure(e.func, cur)]);
      DroppedFunR(w, s, t, R.Closure(e.func, cur));
    } else {
      hide StR, ValR, R.Eval;
      var u := NE(e, cur, w, s, t, k);
      var q := M.Eval(M.Direct, NormE(e), cur, t, k);
      LiteralIdle(e, cur, t, k);
      s1 := R.Eval(e, cur, s, k).st;
      // NE may name a larger world, but nothing in the rewritten state is new.
      Shrink(w, u, s1, t, s);
    }
  }

  lemma LiteralIdle(e: R.Expr, cur: nat, t: M.State, k: nat)
    requires IsLiteral(NormE(e)) && !e.Fn?
    ensures var q := M.Eval(M.Direct, NormE(e), cur, t, k); q.Val? ==> q.st == t
    ensures !M.Eval(M.Direct, NormE(e), cur, t, k).Throw? && !M.Eval(M.Direct, NormE(e), cur, t, k).Timeout?
  {
    hide M.Read, Fold;
  }

  /** The rewritten state fixes how much of the world there is. */
  lemma Shrink(w: World, u: World, s1: R.State, t: M.State, s: R.State)
    requires Ext(w, u) && StR(w, s, t) && StR(u, s1, t)
    ensures u == w && StR(w, s1, t)
  {
    hide ValsR, CloR;
  }

  /** A statement other than a bare expression, and what is kept of the rest of its list. */
  predicate Ordinary(s: R.Stmt) {
    !s.Do? || !IsLiteral(NormE(s.e))
  }

  lemma NormOrdinary(s: R.Stmt, rest: R.Stmts, closing: bool)
    requires Ordinary(s) && !(closing && rest.NoStmts? && (s.Do? || s.Define?))
    ensures NormB(R.MoreStmts(s, rest), closing) ==
      X.MoreStmts(NormS(s), if Terminates(NormS(s)) then X.NoStmts else NormB(rest, closing))
  {
    hide NormE, NormF;
  }

  lemma NormBare(e: R.Expr, rest: R.Stmts, closing: bool)
    requires IsLiteral(NormE(e)) && !(closing && rest.NoStmts?)
    ensures NormB(R.MoreStmts(R.Do(e), rest), closing) == NormB(rest, closing)
  {
    hide NormE, NormF;
  }

  /** A statement that leaves its block never completes normally. */
  lemma TerminatesLeaves(n: X.Stmt, cur: nat, t: M.State, k: nat)
    requires Terminates(n)
    ensures !M.Exec(M.Direct, n, cur, t, k).Next?
  {
    hide M.Eval;
  }

  lemma {:induction false} NRun(b: R.Stmts, cur: nat, w: World, s: R.State, t: M.State, k: nat) returns (u: World)
    requires SoundB(b) && StR(w, s, t) && !R.Run(b, cur, s, k).Stuck?
    ensures Ext(w, u) && ResR(u, R.Run(b, cur, s, k), M.Run(M.Direct, NormB(b, false), cur, t, k))
    decreases k, 1, b, 1
  {
    hide StR, ValR, R.Exec, M.Exec, NormB, NormS, SoundS, Ordinary, SoundE, Terminates;
    u := w;
    if b.NoStmts? {
      assert NormB(b, false) == X.NoStmts by { EmptyB(); }
    } else {
      var h, tl := b.head, b.tail;
      if Ordinary(h) {
        NormOrdinary(h, tl, false);
        u := NS(h, cur, w, s, t, k);
        var r, q := R.Exec(h, cur, s, k), M.Exec(M.Direct, NormS(h), cur, t, k);
        if r.Next? {
          if Terminates(NormS(h)) { TerminatesLeaves(NormS(h), cur, t, k); }
          var u1 := u;
          u := NRun(tl, cur, u1, r.st, q.st, k);
          ExtTrans(w, u1, u);
        }
      } else {
        var e := BareOf(h);
        NotStuckDo(e, cur, s, k);
        var s1 := NDropped(e, cur, w, s, t, k);
        NormBare(e, tl, false);
        u := NRun(tl, cur, w, s1, t, k);
      }
    }
  }

  lemma EmptyB()
    ensures NormB(R.NoStmts, false) == X.NoStmts && NormB(R.NoStmts, true) == ReturnNull()
  {
  }

  lemma BareOf(h: R.Stmt) returns (e: R.Expr)
    requires !Ordinary(h)
    ensures h == R.Do(e) && IsLiteral(NormE(e)) && (SoundS(h) ==> SoundE(e))
  {
    hide NormE, SoundE;
    e := h.e;
  }

  lemma NotStuckDo(e: R.Expr, cur: nat, s: R.State, k: nat)
    ensures R.Exec(R.Do(e), cur, s, k).Stuck? <==> R.Eval(e, cur, s, k).Stuck?
  {
    hide R.Eval;
  }

  lemma {:induction false} NBody(b: R.Stmts, cur: nat, w: World, s: R.State, t: M.State, k: nat) returns (u: World)
    requires SoundB(b) && StR(w, s, t) && !R.RunBody(b, cur, s, k).Stuck?
    ensures Ext(w, u) && ResR(u, R.RunBody(b, cur, s, k), M.Run(M.Direct, NormB(b, true), cur, t, k))
    decreases k, 1, b, 3
  {
    hide StR, ValR, R.Exec, M.Exec, NormB, NormS, SoundS, Ordinary, SoundE, Terminates, R.Eval, M.Eval;
    u := w;
    if b.NoStmts? {
      EmptyB();
      RunReturn(X.Lit(Null), cur, t, k);
      NullR(w, t, cur, k);
    } else {
      var h, tl := b.head, b.tail;
      if tl.NoStmts? && h.Do? {
        assert SoundE(h.e) && NormB(b, true) == One(X.ReturnS(NormE(h.e))) by { ClosingB(b); }
        u := NE(h.e, cur, w, s, t, k);
        RunReturn(NormE(h.e), cur, t, k);
      } else if tl.NoStmts? && h.Define? {
        assert SoundF(h.func) && NormB(b, true) == One(X.ReturnS(X.Fn(NormF(h.func)))) by { ClosingB(b); }
        u := FunR(w, s, t, h.func, NormF(h.func), cur);
        RunReturn(X.Fn(NormF(h.func)), cur, t, k);
        EvalFn(NormF(h.func), cur, t, k);
      } else if Ordinary(h) {
        NormOrdinary(h, tl, true);
        u := NS(h, cur, w, s, t, k);
        var r, q := R.Exec(h, cur, s, k), M.Exec(M.Direct, NormS(h), cur, t, k);
        if r.Next? {
          if Terminates(NormS(h)) { TerminatesLeaves(NormS(h), cur, t, k); }
          var u1 := u;
          u := NBody(tl, cur, u1, r.st, q.st, k);
          ExtTrans(w, u1, u);
        }
      } else {
        var e := BareOf(h);
        NotStuckDo(e, cur, s, k);
        var s1 := NDropped(e, cur, w, s, t, k);
        NormBare(e, tl, true);
        u := NBody(tl, cur, w, s1, t, k);
      }
    }
  }

  lemma ClosingB(b: R.Stmts)
    requires b.MoreStmts? && b.tail.NoStmts? && (b.head.Do? || b.head.Define?)
    ensures NormB(b, true) ==
      One(X.ReturnS(if b.head.Do? then NormE(b.head.e) else X.Fn(NormF(b.head.func))))
    ensures SoundB(b) ==> if b.head.Do? then SoundE(b.head.e) else SoundF(b.head.func)
  {
    hide NormE, NormF, SoundE, SoundF;
    assert SoundB(b) ==> SoundS(b.head);
  }

  lemma RunReturn(e: X.Expr, cur: nat, t: M.State, k: nat)
    ensures M.Run(M.Direct, One(X.ReturnS(e)), cur, t, k) ==
      match M.Eval(M.Direct, e, cur, t, k)
      case Val(v, t1) => M.Return(v, t1)
      case r => r
  {
    hide M.Eval;
  }

  lemma NullR(w: World, t: M.State, cur: nat, k: nat)
    ensures M.Eval(M.Direct, X.Lit(Null), cur, t, k) == M.Val(Null, t) && ValR(w, Null, Null)
  {
  }

  lemma EvalFn(f: X.Func, cur: nat, t: M.State, k: nat)
    ensures M.Eval(M.Direct, X.Fn(f), cur, t, k) ==
      M.Val(Fun(|t.clos|), t.(clos := t.clos + [M.Closure(f, cur)]))
  {
  }

  lemma {:induction false} NOpt(b: Option<R.Stmts>, cur: nat, w: World, s: R.State, t: M.State, k: nat)
    returns (u: World)
    requires SoundO(b) && StR(w, s, t) && !R.RunOpt(b, cur, s, k).Stuck?
    ensures Ext(w, u) && ResR(u, R.RunOpt(b, cur, s, k), M.RunOpt(M.Direct, NormO(b), cur, t, k))
    decreases k, 1, b, 2
  {
    hide StR, R.Run, M.Run, NormB, SoundB;
    u := w;
    if b.Some? { u := NRun(b.value, cur, w, s, t, k); }
  }

  // ----- statements -----

  lemma {:induction false} NS(s: R.Stmt, cur: nat, w: World, st: R.State, t: M.State, k: nat) returns (u: World)
    requires SoundS(s) && StR(w, st, t) && !R.Exec(s, cur, st, k).Stuck?
    ensures Ext(w, u) && ResR(u, R.Exec(s, cur, st, k), M.Exec(M.Direct, NormS(s), cur, t, k))
    decreases k, 1, s, 2
  {
    hide R.Exec, M.Exec, NormS, SoundS, StR, ResR;
    match s
    case Do(_) => u := NDo(s, cur, w, st, t, k);
    case Declare(_, _, _) => u := NDeclare(s, cur, w, st, t, k);
    case Define(_, _) => u := NDefine(s, cur, w, st, t, k);
    case Block(_) => u := NBlock(s, cur, w, st, t, k);
    case If(_, _) => u := NIf(s, cur, w, st, t, k);
    case IfElse(_, _, _) => u := NIf(s, cur, w, st, t, k);
    case Unless(_, _) => u := NUnless(s, cur, w, st, t, k);
    case UnlessElse(_, _, _) => u := NUnless(s, cur, w, st, t, k);
    case While(_, _) => u := NLoop(s, cur, w, st, t, k);
    case Until(_, _) => u := NLoop(s, cur, w, st, t, k);
    case Loop(_) => u := NLoop(s, cur, w, st, t, k);
    case DoWhile(_, _) => u := NDoLoop(s, cur, w, st, t, k);
    case DoUntil(_, _) => u := NDoLoop(s, cur, w, st, t, k);
    case Switch(_, _, _) => u := NSwitch(s, cur, w, st, t, k);
    case BreakS => u := NLeave(s, cur, w, st, t, k);
    case ContinueS => u := NLeave(s, cur, w, st, t, k);
    case ReturnS(_) => u := NLeave(s, cur, w, st, t, k);
    case ThrowS(_) => u := NLeave(s, cur, w, st, t, k);
    case TryCatch(_, _, _, _) => u := NTry(s, cur, w, st, t, k);
    case TryFinally(_, _, _) => u := NTry(s, cur, w, st, t, k);
  }

  /** Storing a mirrored result. */
  lemma StoreR(u: World, r: R.Res, q: M.Res, loc: X.Loc, cur: nat)
    requires ResR(u, r, q) && !R.Store(r, loc, cur).Stuck? && R.OfExpr(r)
    ensures ResR(u, R.Store(r, loc, cur),
                 match q
                 case Val(v, t1) =>
                   (match M.Write(t1, cur, loc, v)
                    case Some(t2) => M.Next(t2)
                    case None => M.Stuck)
                 case x => x)
  {
    hide StR, ValR, R.Write, M.Write;
    if r.Val? { WriteR(u, r.st, q.st, cur, loc, r.v, q.v); }
  }

  lemma {:induction false} NDo(s: R.Stmt, cur: nat, w: World, st: R.State, t: M.State, k: nat) returns (u: World)
    requires s.Do? && SoundS(s) && StR(w, st, t) && !R.Exec(s, cur, st, k).Stuck?
    ensures Ext(w, u) && ResR(u, R.Exec(s, cur, st, k), M.Exec(M.Direct, NormS(s), cur, t, k))
    decreases k, 1, s, 1
  {
    hide StR, ValR, R.Eval, M.Eval, NormE, SoundE, M.Write;
    u := NE(s.e, cur, w, st, t, k);
    var n := NormE(s.e);
    if n.Assign? { EvalAssign(n, cur, t, k); }
  }

  lemma EvalAssign(n: X.Expr, cur: nat, t: M.State, k: nat)
    requires n.Assign?
    ensures M.Eval(M.Direct, n, cur, t, k) ==
      match M.Eval(M.Direct, n.e, cur, t, k)
      case Val(v, t1) =>
        (match M.Write(t1, cur, n.loc, v)
         case Some(t2) => M.Val(v, t2)
         case None => M.Stuck)
      case x => x
  {
    hide M.Write;
  }

  lemma {:induction false} NDeclare(s: R.Stmt, cur: nat, w: World, st: R.State, t: M.State, k: nat) returns (u: World)
    requires s.Declare? && SoundS(s) && StR(w, st, t) && !R.Exec(s, cur, st, k).Stuck?
    ensures Ext(w, u) && ResR(u, R.Exec(s, cur, st, k), M.Exec(M.Direct, NormS(s), cur, t, k))
    decreases k, 1, s, 1
  {
    if s.e.Fn? {
      hide StR, ValR, NormF, SoundF, R.Write, M.Write;
      var f := s.e.func;
      var g := if NormF(f).name == "" then NormF(f).(name := s.name) else NormF(f);
      assert NormS(s) == X.Set(s.loc, X.Fn(g));
      u := FunR(w, st, t, f, g, cur);
      EvalFn(g, cur, t, k);
      assert ResR(u, R.Eval(s.e, cur, st, k), M.Eval(M.Direct, X.Fn(g), cur, t, k));
      StoreR(u, R.Eval(s.e, cur, st, k), M.Eval(M.Direct, X.Fn(g), cur, t, k), s.loc, cur);
    } else {
      NotFn(s.e);
      hide StR, ValR, R.Eval, M.Eval, NormE, SoundE, M.Write, R.Store;
      u := NE(s.e, cur, w, st, t, k);
      assert NormS(s) == X.Set(s.loc, NormE(s.e));
      StoreNotStuck(R.Eval(s.e, cur, st, k), s.loc, cur);
      StoreR(u, R.Eval(s.e, cur, st, k), M.Eval(M.Direct, NormE(s.e), cur, t, k), s.loc, cur);
    }
  }

  lemma StoreNotStuck(r: R.Res, loc: X.Loc, cur: nat)
    ensures r.Stuck? ==> R.Store(r, loc, cur).Stuck?
  {
  }

  lemma NotFn(e: R.Expr)
    ensures NormE(e).Fn? <==> e.Fn?
  {
    hide Fold;
  }

  lemma NDefine(s: R.Stmt, cur: nat, w: World, st: R.State, t: M.State, k: nat) returns (u: World)
    requires s.Define? && SoundS(s) && StR(w, st, t) && !R.Exec(s, cur, st, k).Stuck?
    ensures Ext(w, u) && ResR(u, R.Exec(s, cur, st, k), M.Exec(M.Direct, NormS(s), cur, t, k))
  {
    hide StR, ValR, NormF, SoundF, R.Write, M.Write, R.Store;
    u := FunR(w, st, t, s.func, NormF(s.func), cur);
    EvalFn(NormF(s.func), cur, t, k);
    var r := R.Val(Fun(|st.clos|), st.(clos := st.clos + [R.Closure(s.func, cur)]));
    StoreR(u, r, M.Eval(M.Direct, X.Fn(NormF(s.func)), cur, t, k), s.loc, cur);
  }

  lemma {:induction false} NBlock(s: R.Stmt, cur: nat, w: World, st: R.State, t: M.State, k: nat) returns (u: World)
    requires s.Block? && SoundS(s) && StR(w, st, t) && !R.Exec(s, cur, st, k).Stuck?
    ensures Ext(w, u) && ResR(u, R.Exec(s, cur, st, k), M.Exec(M.Direct, NormS(s), cur, t, k))
    decreases k, 1, s, 1
  {
    hide StR, R.Run, M.Run, NormB, SoundB;
    u := NRun(s.b, cur, w, st, t, k);
  }

  /** The lists a conditional chooses between; a missing one is empty. */
  function Then(s: R.Stmt): R.Stmts
    requires s.If? || s.IfElse? || s.Unless? || s.UnlessElse?
  {
    s.t
  }

  function Else(s: R.Stmt): R.Stmts
    requires s.If? || s.IfElse? || s.Unless? || s.UnlessElse?
  {
    if s.IfElse? || s.UnlessElse? then s.f else R.NoStmts
  }

  /** A conditional of the original after its condition: `b` says whether it held. */
  function Chosen(s: R.Stmt, b: bool): R.Stmts
    requires s.If? || s.IfElse? || s.Unless? || s.UnlessElse?
  {
    if b == (s.If? || s.IfElse?) then Then(s) else Else(s)
  }

  lemma {:induction false} NChoice(s: R.Stmt, b: bool, cur: nat, w: World, st: R.State, t: M.State, k: nat)
    returns (u: World)
    requires s.If? || s.IfElse? || s.Unless? || s.UnlessElse?
    requires SoundS(s) && StR(w, st, t) && !R.Run(Chosen(s, b), cur, st, k).Stuck?
    ensures Ext(w, u)
    ensures ResR(u, R.Run(Chosen(s, b), cur, st, k), M.Run(M.Direct, NormB(Chosen(s, b), false), cur, t, k))
    decreases k, 1, s, 0
  {
    u := w;
    if Chosen(s, b).NoStmts? {
      hide StR;
      EmptyB();
    } else {
      assert SoundB(Chosen(s, b)) by { hide StR, SoundE, R.Run, SoundB; }
      hide StR, R.Run, M.Run, NormB, SoundB, SoundE;
      u := NRun(Chosen(s, b), cur, w, st, t, k);
    }
  }

  /** What a conditional does once its condition is known. */
  lemma Conditional(s: R.Stmt, cur: nat, st: R.State, k: nat)
    requires s.If? || s.IfElse? || s.Unless? || s.UnlessElse?
    ensures R.Exec(s, cur, st, k) ==
      match (if s.If? || s.IfElse? then R.Test(s.c, cur, st, k) else R.Skips(s.c, cur, st, k))
      case Val(v, s1) => R.Run(Chosen(s, v == Bool(true)), cur, s1, k)
      case r => r
  {
    hide R.Test, R.Skips;
  }

  /** The same for what the rewriter makes of it. */
  lemma Rewritten(s: R.Stmt, cur: nat, t: M.State, k: nat)
    requires s.If? || s.IfElse? || s.Unless? || s.UnlessElse?
    ensures var not := s.c.Un? && s.c.uop.UNot?;
      M.Exec(M.Direct, NormS(s), cur, t, k) ==
      if (s.If? || s.IfElse?) != not then
        match M.Test(M.Direct, if not then NormE(s.c.e) else NormE(s.c), cur, t, k)
        case Val(v, t1) => M.Run(M.Direct, NormB(Chosen(s, (v == Bool(true)) != not), false), cur, t1, k)
        case r => r
      else
        match M.Eval(M.Direct, if not then NormE(s.c.e) else NormE(s.c), cur, t, k)
        case Val(v, t1) => M.Run(M.Direct, NormB(Chosen(s, Truthy(v) != not), false), cur, t1, k)
        case r => r
  {
    HeadKept(s.c);
    EmptyB();
    hide NormE, M.Test, M.Eval, Truthy;
  }

  lemma {:induction false} NIf(s: R.Stmt, cur: nat, w: World, st: R.State, t: M.State, k: nat) returns (u: World)
    requires (s.If? || s.IfElse?) && SoundS(s) && StR(w, st, t) && !R.Exec(s, cur, st, k).Stuck?
    ensures Ext(w, u) && ResR(u, R.Exec(s, cur, st, k), M.Exec(M.Direct, NormS(s), cur, t, k))
    decreases k, 1, s, 1
  {
    Conditional(s, cur, st, k);
    Rewritten(s, cur, t, k);
    SoundCondition(s);
    hide StR, ValR, R.Eval, M.Eval, R.Test, M.Test, R.Run, M.Run, NormE, NormB, SoundE, SoundS, Truthy, R.Exec,
        M.Exec, NormS, Chosen;
    if s.c.Un? && s.c.uop.UNot? {
      NegatedTest(s.c, cur, st, k);
      u := NE(s.c.e, cur, w, st, t, k);
      var r, q := R.Eval(s.c.e, cur, st, k), M.Eval(M.Direct, NormE(s.c.e), cur, t, k);
      if r.Val? {
        var u1 := u;
        UnaryR(u1, UNot, r.v, q.v);
        u := NChoice(s, !Truthy(r.v), cur, u1, r.st, q.st, k);
        ExtTrans(w, u1, u);
      }
    } else {
      u := NTest(s.c, cur, w, st, t, k);
      var r, q := R.Test(s.c, cur, st, k), M.Test(M.Direct, NormE(s.c), cur, t, k);
      if r.Val? {
        var u1 := u;
        u := NChoice(s, r.v == Bool(true), cur, u1, r.st, q.st, k);
        ExtTrans(w, u1, u);
      }
    }
  }

  lemma SoundCondition(s: R.Stmt)
    requires (s.If? || s.IfElse? || s.Unless? || s.UnlessElse?) && SoundS(s)
    ensures SoundE(s.c) && (s.c.Un? ==> SoundE(s.c.e))
  {
    assert SoundE(s.c);
  }

  lemma NegatedTest(c: R.Expr, cur: nat, st: R.State, k: nat)
    requires c.Un? && c.uop.UNot?
    ensures R.Test(c, cur, st, k) ==
      match R.Eval(c.e, cur, st, k)
      case Val(v, s1) => R.Val(Bool(!Truthy(v)), s1)
      case x => x
  {
    assert R.Eval(c, cur, st, k) ==
      match R.Eval(c.e, cur, st, k)
      case Val(v, s1) => R.Val(Unary(UNot, v), s1)
      case x => x;
  }

  lemma NegatedSkips(c: R.Expr, cur: nat, st: R.State, k: nat)
    ensures R.Skips(c, cur, st, k) ==
      if c.Un? && c.uop.UNot? then
        match R.Test(c.e, cur, st, k)
        case Val(b, s1) => R.Val(Bool(b != Bool(true)), s1)
        case x => x
      else
        match R.Eval(c, cur, st, k)
        case Val(v, s1) => R.Val(Bool(Truthy(v)), s1)
        case x => x
  {
    hide R.Test, R.Eval, Truthy;
  }

  lemma {:induction false} NUnless(s: R.Stmt, cur: nat, w: World, st: R.State, t: M.State, k: nat) returns (u: World)
    requires (s.Unless? || s.UnlessElse?) && SoundS(s) && StR(w, st, t) && !R.Exec(s, cur, st, k).Stuck?
    ensures Ext(w, u) && ResR(u, R.Exec(s, cur, st, k), M.Exec(M.Direct, NormS(s), cur, t, k))
    decreases k, 1, s, 1
  {
    Conditional(s, cur, st, k);
    Rewritten(s, cur, t, k);
    SoundCondition(s);
    NegatedSkips(s.c, cur, st, k);
    hide StR, ValR, R.Eval, M.Eval, R.Test, M.Test, R.Skips, R.Run, M.Run, NormE, NormB, SoundE, SoundS, Truthy,
        R.Exec, M.Exec, NormS, Chosen;
    if s.c.Un? && s.c.uop.UNot? {
      u := NTest(s.c.e, cur, w, st, t, k);
      var r, q := R.Test(s.c.e, cur, st, k), M.Test(M.Direct, NormE(s.c.e), cur, t, k);
      if r.Val? {
        var u1 := u;
        u := NChoice(s, r.v != Bool(true), cur, u1, r.st, q.st, k);
        ExtTrans(w, u1, u);
      }
    } else {
      u := NE(s.c, cur, w, st, t, k);
      var r, q := R.Eval(s.c, cur, st, k), M.Eval(M.Direct, NormE(s.c), cur, t, k);
      if r.Val? {
        var u1 := u;
        UnaryR(u1, UNot, r.v, q.v);
        u := NChoice(s, Truthy(r.v), cur, u1, r.st, q.st, k);
        ExtTrans(w, u1, u);
      }
    }
  }

  lemma {:induction false} NAgain(s: R.Stmt, r: R.Res, q: M.Res, cur: nat, w: World, k: nat) returns (u: World)
    requires SoundS(s) && ResR(w, r, q) && !r.Val? && !R.Again(s, r, cur, k).Stuck?
    ensures Ext(w, u) && ResR(u, R.Again(s, r, cur, k), M.Again(M.Direct, NormS(s), q, cur, k))
    decreases k, 0
  {
    hide StR, ValR, R.Exec, M.Exec, NormS, SoundS;
    u := w;
    if k > 0 && (r.Next? || r.Continue?) { u := NS(s, cur, w, r.st, q.st, k - 1); }
  }

  /** One run of a loop's body and the way back. */
  lemma {:induction false} NLoopBody(s: R.Stmt, b: R.Stmts, cur: nat, w: World, st: R.State, t: M.State, k: nat)
    returns (u: World)
    requires b < s && SoundS(s) && SoundB(b) && StR(w, st, t) && !R.Again(s, R.Run(b, cur, st, k), cur, k).Stuck?
    ensures Ext(w, u)
    ensures ResR(u, R.Again(s, R.Run(b, cur, st, k), cur, k),
                 M.Again(M.Direct, NormS(s), M.Run(M.Direct, NormB(b, false), cur, t, k), cur, k))
    decreases k, 1, b, 2
  {
    hide StR, R.Run, M.Run, NormB, NormS, SoundB, SoundS, R.Exec, M.Exec;
    var u1 := NRun(b, cur, w, st, t, k);
    u := NAgain(s, R.Run(b, cur, st, k), M.Run(M.Direct, NormB(b, false), cur, t, k), cur, u1, k);
    ExtTrans(w, u1, u);
  }

  lemma {:induction false} NLoop(s: R.Stmt, cur: nat, w: World, st: R.State, t: M.State, k: nat) returns (u: World)
    requires (s.While? || s.Until? || s.Loop?) && SoundS(s) && StR(w, st, t) && !R.Exec(s, cur, st, k).Stuck?
    ensures Ext(w, u) && ResR(u, R.Exec(s, cur, st, k), M.Exec(M.Direct, NormS(s), cur, t, k))
    decreases k, 1, s, 1
  {
    hide StR, ValR, R.Eval, M.Eval, R.Test, M.Test, R.Run, M.Run, NormE, NormB, SoundE, SoundB, Truthy, R.Again,
        M.Again;
    u := w;
    if s.Loop? {
      u := NLoopBody(s, s.b, cur, w, st, t, k);
    } else if s.While? {
      u := NTest(s.c, cur, w, st, t, k);
      var r, q := R.Test(s.c, cur, st, k), M.Test(M.Direct, NormE(s.c), cur, t, k);
      if r.Val? && r.v == Bool(true) {
        var u1 := u;
        u := NLoopBody(s, s.b, cur, u1, r.st, q.st, k);
        ExtTrans(w, u1, u);
      }
    } else {
      u := NE(s.c, cur, w, st, t, k);
      var r, q := R.Eval(s.c, cur, st, k), M.Eval(M.Direct, NormE(s.c), cur, t, k);
      if r.Val? {
        UnaryR(u, UNot, r.v, q.v);
        if !Truthy(r.v) {
          var u1 := u;
          u := NLoopBody(s, s.b, cur, u1, r.st, q.st, k);
          ExtTrans(w, u1, u);
        }
      }
    }
  }

  lemma {:induction false} NDoLoop(s: R.Stmt, cur: nat, w: World, st: R.State, t: M.State, k: nat) returns (u: World)
    requires (s.DoWhile? || s.DoUntil?) && SoundS(s) && StR(w, st, t) && !R.Exec(s, cur, st, k).Stuck?
    ensures Ext(w, u) && ResR(u, R.Exec(s, cur, st, k), M.Exec(M.Direct, NormS(s), cur, t, k))
    decreases k, 1, s, 1
  {
    hide StR, ValR, R.Eval, M.Eval, R.Test, M.Test, R.Run, M.Run, NormE, NormB, SoundE, SoundB, Truthy, R.Again,
        M.Again;
    u := NRun(s.b, cur, w, st, t, k);
    var r, q := R.Run(s.b, cur, st, k), M.Run(M.Direct, NormB(s.b, false), cur, t, k);
    if r.Next? || r.Continue? {
      var u1 := u;
      if s.DoWhile? {
        u := NTest(s.c, cur, u1, r.st, q.st, k);
        ExtTrans(w, u1, u);
        var r2, q2 := R.Test(s.c, cur, r.st, k), M.Test(M.Direct, NormE(s.c), cur, q.st, k);
        if r2.Val? && r2.v == Bool(true) {
          var u2 := u;
          u := NAgain(s, R.Next(r2.st), M.Next(q2.st), cur, u2, k);
          ExtTrans(w, u2, u);
        }
      } else {
        u := NE(s.c, cur, u1, r.st, q.st, k);
        ExtTrans(w, u1, u);
        var r2, q2 := R.Eval(s.c, cur, r.st, k), M.Eval(M.Direct, NormE(s.c), cur, q.st, k);
        if r2.Val? {
          UnaryR(u, UNot, r2.v, q2.v);
          if !Truthy(r2.v) {
            var u2 := u;
            u := NAgain(s, R.Next(r2.st), M.Next(q2.st), cur, u2, k);
            ExtTrans(w, u2, u);
          }
        }
      }
    }
  }

  lemma {:induction false} NLeave(s: R.Stmt, cur: nat, w: World, st: R.State, t: M.State, k: nat) returns (u: World)
    requires (s.BreakS? || s.ContinueS? || s.ReturnS? || s.ThrowS?)
    requires SoundS(s) && StR(w, st, t) && !R.Exec(s, cur, st, k).Stuck?
    ensures Ext(w, u) && ResR(u, R.Exec(s, cur, st, k), M.Exec(M.Direct, NormS(s), cur, t, k))
    decreases k, 1, s, 1
  {
    hide StR, ValR, R.Eval, M.Eval, NormE, SoundE;
    u := w;
    if s.ReturnS? || s.ThrowS? { u := NE(s.e, cur, w, st, t, k); }
  }

  lemma {:induction false} NSwitch(s: R.Stmt, cur: nat, w: World, st: R.State, t: M.State, k: nat) returns (u: World)
    requires s.Switch? && SoundS(s) && StR(w, st, t) && !R.Exec(s, cur, st, k).Stuck?
    ensures Ext(w, u) && ResR(u, R.Exec(s, cur, st, k), M.Exec(M.Direct, NormS(s), cur, t, k))
    decreases k, 1, s, 1
  {
    hide StR, ValR, R.Eval, M.Eval, NormE, SoundE, R.Select, M.Select, NormC, SoundC, R.RunOpt, M.RunOpt,
      NormO, SoundO;
    u := NE(s.c, cur, w, st, t, k);
    var r, q := R.Eval(s.c, cur, st, k), M.Eval(M.Direct, NormE(s.c), cur, t, k);
    if r.Val? {
      var u1 := u;
      u := NSelect(s.cases, r.v, q.v, cur, u1, r.st, q.st, k);
      ExtTrans(w, u1, u);
      var r2, q2 := R.Select(s.cases, r.v, cur, r.st, k), M.Select(M.Direct, NormC(s.cases), q.v, cur, q.st, k);
      if r2.NotChosen? {
        var u2 := u;
        u := NOpt(s.otherwise, cur, u2, r2.st, q2.st, k);
        ExtTrans(w, u2, u);
      }
    }
  }

  lemma {:induction false} NSelect(cases: R.Cases, v: Value, v': Value, cur: nat,
                                   w: World, s: R.State, t: M.State, k: nat)
    returns (u: World)
    requires SoundC(cases) && StR(w, s, t) && ValR(w, v, v') && R.Select(cases, v, cur, s, k) != R.CaseDone(R.Stuck)
    ensures Ext(w, u) && CaseR(u, R.Select(cases, v, cur, s, k), M.Select(M.Direct, NormC(cases), v', cur, t, k))
    decreases k, 1, cases, 1
  {
    hide StR, ValR, R.Matches, M.Matches, R.Run, M.Run, NormB, SoundB, NormArgs, SoundArgs;
    u := w;
    if cases.MoreCases? {
      u := NMatches(cases.conds, v, v', cur, w, s, t, k);
      var r, q := R.Matches(cases.conds, v, cur, s, k), M.Matches(M.Direct, NormArgs(cases.conds), v', cur, t, k);
      if r.Val? {
        var u1 := u;
        ValMono(w, u1, v, v');
        if r.v == Bool(true) {
          u := NRun(cases.block, cur, u1, r.st, q.st, k);
        } else {
          u := NSelect(cases.rest, v, v', cur, u1, r.st, q.st, k);
        }
        ExtTrans(w, u1, u);
      }
    }
  }

  lemma {:induction false} NMatches(es: R.Exprs, v: Value, v': Value, cur: nat, w: World, s: R.State, t: M.State,
      k: nat)
    returns (u: World)
    requires SoundArgs(es) && StR(w, s, t) && ValR(w, v, v') && !R.Matches(es, v, cur, s, k).Stuck?
    ensures Ext(w, u)
    ensures var r, q := R.Matches(es, v, cur, s, k), M.Matches(M.Direct, NormArgs(es), v', cur, t, k);
      ResR(u, r, q) && (r.Val? ==> r.v == q.v && r.v.Bool?)
    decreases k, 1, es, 1
  {
    hide StR, ValR, R.Eval, M.Eval, NormE, SoundE, Binary, Truthy;
    u := w;
    if es.NoExprs? {
      PlainR(w, Bool(false), Bool(false));
    } else {
      u := NE(es.head, cur, w, s, t, k);
      var r, q := R.Eval(es.head, cur, s, k), M.Eval(M.Direct, NormE(es.head), cur, t, k);
      if r.Val? {
        var u1 := u;
        ValMono(w, u1, v, v');
        OperatorR(u1, Eq, v, r.v, v', q.v, r.st, q.st);
        UnaryR(u1, UNot, Binary(Eq, v, r.v).value, Binary(Eq, v', q.v).value);
        PlainR(u1, Bool(true), Bool(true));
        if !Truthy(Binary(Eq, v, r.v).value) {
          u := NMatches(es.tail, v, v', cur, u1, r.st, q.st, k);
          ExtTrans(w, u1, u);
        }
      }
    }
  }

  lemma {:induction false} NTry(s: R.Stmt, cur: nat, w: World, st: R.State, t: M.State, k: nat) returns (u: World)
    requires (s.TryCatch? || s.TryFinally?) && SoundS(s) && StR(w, st, t) && !R.Exec(s, cur, st, k).Stuck?
    ensures Ext(w, u) && ResR(u, R.Exec(s, cur, st, k), M.Exec(M.Direct, NormS(s), cur, t, k))
    decreases k, 1, s, 1
  {
    hide StR, ValR, R.Run, M.Run, NormB, SoundB, R.RunOpt, M.RunOpt, NormO, SoundO, R.Read, M.Read, R.Write, M.Write;
    u := NRun(s.b, cur, w, st, t, k);
    var r, q := R.Run(s.b, cur, st, k), M.Run(M.Direct, NormB(s.b, false), cur, t, k);
    if r.Next? {
      var u1 := u;
      if s.TryCatch? { u := NOpt(s.fin, cur, u1, r.st, q.st, k); } else { u :=
          NRun(s.finalizer, cur, u1, r.st, q.st, k); }
      ExtTrans(w, u1, u);
    } else if r.Throw? {
      var u1 := u;
      WriteR(u1, r.st, q.st, cur, s.exc, r.v, q.v);
      var s2, t2 := R.Write(r.st, cur, s.exc, r.v).value, M.Write(q.st, cur, s.exc, q.v).value;
      if s.TryCatch? {
        u := NRun(s.handler, cur, u1, s2, t2, k);
        ExtTrans(w, u1, u);
        var r3, q3 := R.Run(s.handler, cur, s2, k), M.Run(M.Direct, NormB(s.handler, false), cur, t2, k);
        if r3.Next? {
          var u2 := u;
          u := NOpt(s.fin, cur, u2, r3.st, q3.st, k);
          ExtTrans(w, u2, u);
        }
      } else {
        u := NRun(s.finalizer, cur, u1, s2, t2, k);
        ExtTrans(w, u1, u);
        var r3, q3 := R.Run(s.finalizer, cur, s2, k), M.Run(M.Direct, NormB(s.finalizer, false), cur, t2, k);
        if r3.Next? { ReadR(u, r3.st, q3.st, cur, s.exc); }
      }
    }
  }

  // ----- what normalised functions look like -----

  /** A normalised body never runs off its end: it returns, throws, breaks out or diverges. */
  lemma {:induction false} NeverRunsOff(md: M.Mode, b: R.Stmts, cur: nat, t: M.State, k: nat)
    ensures !M.Run(md, NormB(b, true), cur, t, k).Next?
    decreases b
  {
    hide NormS, NormE, NormF, M.Exec;
    if b.NoStmts? {
      ReturnLeaves(md, X.Lit(Null), cur, t, k);
    } else if b.tail.NoStmts? && b.head.Do? {
      ReturnLeaves(md, NormE(b.head.e), cur, t, k);
    } else if b.tail.NoStmts? && b.head.Define? {
      ReturnLeaves(md, X.Fn(NormF(b.head.func)), cur, t, k);
    } else if Ordinary(b.head) {
      NormOrdinary(b.head, b.tail, true);
      var q := M.Exec(md, NormS(b.head), cur, t, k);
      if q.Next? {
        if Terminates(NormS(b.head)) { LeavesIn(md, NormS(b.head), cur, t, k); }
        NeverRunsOff(md, b.tail, cur, q.st, k);
      }
    } else {
      NormBare(b.head.e, b.tail, true);
      NeverRunsOff(md, b.tail, cur, t, k);
    }
  }

  lemma LeavesIn(md: M.Mode, n: X.Stmt, cur: nat, t: M.State, k: nat)
    requires Terminates(n)
    ensures !M.Exec(md, n, cur, t, k).Next?
  {
    hide M.Eval;
  }

  lemma ReturnLeaves(md: M.Mode, e: X.Expr, cur: nat, t: M.State, k: nat)
    ensures !M.Run(md, One(X.ReturnS(e)), cur, t, k).Next?
  {
    hide M.Eval;
  }

  /** The same behind the prologue: no function the normaliser builds runs off its end. */
  lemma {:induction false} FunctionsReturn(md: M.Mode, i: nat, ds: R.Exprs, b: R.Stmts, cur: nat, t: M.State, k: nat)
    ensures !M.Run(md, Prologue(i, ds, NormB(b, true)), cur, t, k).Next?
    decreases ds
  {
    hide NormB, NormE, M.Exec, DefaultOf;
    if ds.NoExprs? || i + 1 >= UINT32_RANGE {
      NeverRunsOff(md, b, cur, t, k);
    } else {
      var q := M.Exec(md, DefaultOf(i, NormE(ds.head)), cur, t, k);
      if q.Next? { FunctionsReturn(md, i + 1, ds.tail, b, cur, q.st, k); }
    }
  }

  // ----- where a rewrite changes what is compiled -----

  /** `unless !(1 < null) { return 1 }`, which by its own meaning returns nothing. */
  const NEGATED: R.Stmt :=
    R.Unless(R.Un(UNot, R.Bin(Lt, R.Int(1), R.Lit(Null))), R.MoreStmts(R.ReturnS(R.Int(1)), R.NoStmts))

  /** The same statement left as it is. */
  const KEPT: X.Stmt :=
    X.Unless(X.Un(UNot, NEVER), One(X.ReturnS(X.Lit(Num(1.0)))))

  /**
   * `1 < null` is false, so the block is skipped. Rewritten to `if 1 < null`, the compiled
   * branch tests `>=`, which is false too, and the block runs.
   */
  lemma NegatedOrderingDiffers(cur: nat, t: M.State, k: nat)
    ensures M.Exec(M.Compiled, KEPT, cur, t, k) == M.Next(t)
    ensures M.Exec(M.Compiled, NormS(NEGATED), cur, t, k) == M.Return(Num(1.0), t)
  {
    hide NormS, M.Test, M.Run, M.Eval;
    ComparesFalse(cur, t, k);
    RunOne(X.Lit(Num(1.0)), cur, t, k);
    NegationDropped();
  }

  lemma NegationDropped()
    ensures NormS(NEGATED) == X.If(NEVER, One(X.ReturnS(X.Lit(Num(1.0)))))
  {
    assert NormE(R.Int(1)) == X.Lit(Num(1.0));
    assert NormB(R.NoStmts, false) == X.NoStmts;
    assert NormB(NEGATED.t, false) == One(X.ReturnS(X.Lit(Num(1.0))));
  }

  const NEVER: X.Expr := X.Bin(Lt, X.Lit(Num(1.0)), X.Lit(Null))

  lemma ComparesFalse(cur: nat, t: M.State, k: nat)
    ensures M.Eval(M.Compiled, X.Un(UNot, NEVER), cur, t, k) == M.Val(Bool(true), t)
    ensures M.Test(M.Compiled, NEVER, cur, t, k) == M.Val(Bool(true), t)
  {
    assert M.Eval(M.Compiled, NEVER.l, cur, t, k) == M.Val(Num(1.0), t);
    assert M.Eval(M.Compiled, NEVER.r, cur, t, k) == M.Val(Null, t);
    assert M.Eval(M.Compiled, NEVER, cur, t, k) == M.Val(Bool(false), t);
  }

  lemma RunOne(e: X.Expr, cur: nat, t: M.State, k: nat)
    requires e.Lit?
    ensures M.Run(M.Compiled, One(X.ReturnS(e)), cur, t, k) == M.Return(e.v, t)
  {
    assert M.Eval(M.Compiled, e, cur, t, k) == M.Val(e.v, t);
    assert M.Exec(M.Compiled, X.ReturnS(e), cur, t, k) == M.Return(e.v, t);
  }

  // ----- whole programs -----

  /** Values a program can be started with. */
  predicate Plain(v: Value) {
    !v.Fun? && !v.Arr?
  }

  function Start(locals: seq<Value>): R.State {
    R.State([R.Act(None, locals, None)], [], [])
  }

  function Begun(locals: seq<Value>): M.State {
    M.State([M.Act(None, locals)], [], [])
  }

  /** How two runs that ended agree: same ending, and the same value unless it is a function. */
  predicate SameEnd(a: R.Res, b: M.Res) {
    match a
    case Return(v, _) => b.Return? && (Plain(v) ==> b.v == v) && (Plain(b.v) ==> b.v == v)
    case Throw(v, _) => b.Throw? && (Plain(v) ==> b.v == v) && (Plain(b.v) ==> b.v == v)
    case _ => true
  }

  /**
   * Normalising preserves meaning: with any amount of fuel the rewritten unit does what the
   * original does, and stays in the compiled fragment wherever the original does.
   */
  lemma NormalisingKeepsMeaning(s: R.Stmt, locals: seq<Value>, k: nat)
    requires SoundS(s) && forall i :: 0 <= i < |locals| ==> Plain(locals[i])
    requires !R.Exec(s, 0, Start(locals), k).Stuck?
    ensures var r, q := R.Exec(s, 0, Start(locals), k), M.Exec(M.Direct, NormS(s), 0, Begun(locals), k);
      SameEnd(r, q) && !q.Stuck? && (q.Timeout? <==> r.Timeout?) && (q.Next? <==> r.Next?)
  {
    hide R.Exec, M.Exec, NormS, SoundS;
    var w := World([], [None], []);
    assert StR(w, Start(locals), Begun(locals));
    var u := NS(s, 0, w, Start(locals), Begun(locals), k);
    SameEndR(u, R.Exec(s, 0, Start(locals), k), M.Exec(M.Direct, NormS(s), 0, Begun(locals), k));
  }

  lemma SameEndR(u: World, r: R.Res, q: M.Res)
    requires ResR(u, r, q)
    ensures SameEnd(r, q) && !q.Stuck? && (q.Timeout? <==> r.Timeout?) && (q.Next? <==> r.Next?)
  {
    hide StR;
  }
}
