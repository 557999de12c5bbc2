/**
 * What a `try` without handler throws again: the contents of the exception's slot after the finally
 * block, which is the caught exception if no code that runs in between writes that slot.
 */
module Rethrow {
  import opened Values
  import opened Syntax
  import opened Semantics
  import A = SlotAllocation

  // ----- exactly when the caught exception is thrown again -----

  /**
   * A caught exception is thrown again exactly if the finally block leaves its slot's value alone,
   * provided the block completes.
   */
  lemma RethrowsExactly(md: Mode, s: Stmt, cur: nat, st: State, k: nat, v: Value, s1: State, s2: State, s3: State)
    requires s.TryFinally? && Run(md, s.b, cur, st, k) == Throw(v, s1) && Write(s1, cur, s.exc, v) == Some(s2)
    requires Run(md, s.finalizer, cur, s2, k) == Next(s3)
    ensures Exec(md, s, cur, st, k) == Throw(v, s3) <==> Read(s3, cur, s.exc) == Read(s2, cur, s.exc)
  {
    hide Run;
    WriteThenRead(s1, cur, s.exc, v);
  }

  lemma WriteThenRead(st: State, cur: nat, loc: Loc, v: Value)
    requires Write(st, cur, loc, v).Some?
    ensures Read(Write(st, cur, loc, v).value, cur, loc) == Some(v)
  {
    var st' := Write(st, cur, loc, v).value;
    SameAncestor(st.acts, st'.acts, cur, loc.level);
  }

  lemma {:induction false} SameAncestor(acts: seq<Act>, acts': seq<Act>, a: nat, level: nat)
    requires |acts| == |acts'| && forall b :: 0 <= b < |acts| ==> acts'[b].env == acts[b].env
    ensures Ancestor(acts', a, level) == Ancestor(acts, a, level)
    decreases level
  {
    if level > 0 && a < |acts| && acts[a].env.Some? {
      SameAncestor(acts, acts', acts[a].env.value, level - 1);
    }
  }

  // ----- code that leaves slot `i` of an activation alone -----

  /** How many environments up from `a` activation `p` is, if it is there at all. */
  function Dist(acts: seq<Act>, a: nat, p: nat): Option<nat>
    decreases a
  {
    if a == p then Some(0)
    else if a >= |acts| || acts[a].env.None? || acts[a].env.value >= a then None
    else Deeper(Dist(acts, acts[a].env.value, p))
  }

  function Deeper(h: Option<nat>): Option<nat> {
    match h
    case None => None
    case Some(d) => Some(d + 1)
  }

  /** A write to `loc` misses slot `i` of the activation `h` environments up. */
  predicate Misses(loc: Loc, i: nat, h: Option<nat>) {
    h.Some? ==> !(loc.index == i && loc.level == h.value)
  }

  /** The code, functions in it included, never writes that slot. */
  predicate SparesE(e: Expr, i: nat, h: Option<nat>) {
    match e
    case Un(_, a) => SparesE(a, i, h)
    case Bin(_, l, r) => SparesE(l, i, h) && SparesE(r, i, h)
    case And(l, r) => SparesE(l, i, h) && SparesE(r, i, h)
    case Or(l, r) => SparesE(l, i, h) && SparesE(r, i, h)
    case Ternary(c, t, f) => SparesE(c, i, h) && SparesE(t, i, h) && SparesE(f, i, h)
    case Assign(loc, a) => Misses(loc, i, h) && SparesE(a, i, h)
    case Call(f, args) => SparesE(f, i, h) && SparesA(args, i, h)
    case Fn(f) => SparesF(f, i, h)
    case Length(a) => SparesE(a, i, h)
    case _ => true
  }

  predicate SparesA(es: Exprs, i: nat, h: Option<nat>) {
    match es
    case NoExprs => true
    case MoreExprs(e, t) => SparesE(e, i, h) && SparesA(t, i, h)
  }

  predicate SparesF(f: Func, i: nat, h: Option<nat>) {
    SparesL(f.body, i, Deeper(h))
  }

  predicate SparesL(b: Stmts, i: nat, h: Option<nat>) {
    match b
    case NoStmts => true
    case MoreStmts(s, t) => SparesS(s, i, h) && SparesL(t, i, h)
  }

  predicate SparesO(b: Option<Stmts>, i: nat, h: Option<nat>) {
    match b
    case None => true
    case Some(ss) => SparesL(ss, i, h)
  }

  predicate SparesC(cases: Cases, i: nat, h: Option<nat>) {
    match cases
    case NoCases => true
    case MoreCases(conds, b, rest) => SparesA(conds, i, h) && SparesL(b, i, h) && SparesC(rest, i, h)
  }

  predicate SparesS(s: Stmt, i: nat, h: Option<nat>) {
    match s
    case Do(e) => SparesE(e, i, h)
    case Set(loc, e) => Misses(loc, i, h) && SparesE(e, i, h)
    case Block(b) => SparesL(b, i, h)
    case If(c, t) => SparesE(c, i, h) && SparesL(t, i, h)
    case IfElse(c, t, f) => SparesE(c, i, h) && SparesL(t, i, h) && SparesL(f, i, h)
    case Unless(c, t) => SparesE(c, i, h) && SparesL(t, i, h)
    case UnlessElse(c, t, f) => SparesE(c, i, h) && SparesL(t, i, h) && SparesL(f, i, h)
    case While(c, b) => SparesE(c, i, h) && SparesL(b, i, h)
    case Until(c, b) => SparesE(c, i, h) && SparesL(b, i, h)
    case DoWhile(b, c) => SparesL(b, i, h) && SparesE(c, i, h)
    case DoUntil(b, c) => SparesL(b, i, h) && SparesE(c, i, h)
    case Loop(b) => SparesL(b, i, h)
    case Switch(c, cases, otherwise) => SparesE(c, i, h) && SparesC(cases, i, h) && SparesO(otherwise, i, h)
    case ReturnS(e) => SparesE(e, i, h)
    case ThrowS(e) => SparesE(e, i, h)
    case TryCatch(b, exc, handler, fin) =>
      Misses(exc, i, h) && SparesL(b, i, h) && SparesL(handler, i, h) && SparesO(fin, i, h)
    case TryFinally(b, exc, fin) => Misses(exc, i, h) && SparesL(b, i, h) && SparesL(fin, i, h)
    case _ => true
  }

  /** Environments are older activations. */
  ghost predicate Grounded(st: State) {
    && (forall a :: 0 <= a < |st.acts| && st.acts[a].env.Some? ==> st.acts[a].env.value < a)
    && (forall c :: 0 <= c < |st.clos| ==> st.clos[c].env < |st.acts|)
  }

  /** Slot `i` of activation `p`, seen from the running activation `cur`, which is `h` environments below. */
  datatype View = View(p: nat, i: nat, cur: nat, h: Option<nat>)

  /** No function there is writes the slot. */
  ghost predicate Safe(v: View, st: State) {
    Grounded(st) && v.p < |st.acts| &&
    forall c :: 0 <= c < |st.clos| ==> SparesF(st.clos[c].f, v.i, Dist(st.acts, st.clos[c].env, v.p))
  }

  ghost predicate At(v: View, st: State) {
    Safe(v, st) && v.cur < |st.acts| && Dist(st.acts, v.cur, v.p) == v.h
  }

  /** Activations keep their environments, and the slot its value. */
  ghost predicate Kept(v: View, st: State, st': State) {
    && |st.acts| <= |st'.acts| && v.p < |st.acts|
    && (forall a :: 0 <= a < |st.acts| ==> st'.acts[a].env == st.acts[a].env)
    && |st'.acts[v.p].locals| == |st.acts[v.p].locals|
    && (v.i < |st.acts[v.p].locals| ==> st'.acts[v.p].locals[v.i] == st.acts[v.p].locals[v.i])
  }

  ghost predicate Stays(v: View, st: State, st': State) {
    At(v, st') && Kept(v, st, st')
  }

  ghost predicate ResOK(v: View, st: State, r: Res) {
    match r
    case Val(_, s1) => Stays(v, st, s1)
    case Next(s1) => Stays(v, st, s1)
    case Break(s1) => Stays(v, st, s1)
    case Continue(s1) => Stays(v, st, s1)
    case Return(_, s1) => Stays(v, st, s1)
    case Throw(_, s1) => Stays(v, st, s1)
    case _ => true
  }

  lemma StaysTrans(v: View, a: State, b: State, r: Res)
    requires Stays(v, a, b) && ResOK(v, b, r)
    ensures ResOK(v, a, r)
  {
    hide Safe, Dist;
  }

  lemma StaysSame(v: View, st: State)
    requires At(v, st)
    ensures Stays(v, st, st)
  {
    hide Dist;
  }

  lemma {:induction false} DistSame(acts: seq<Act>, acts': seq<Act>, a: nat, p: nat)
    requires |acts| <= |acts'| && a < |acts| && p < |acts|
    requires forall b :: 0 <= b < |acts| ==> acts'[b].env == acts[b].env
    ensures Dist(acts', a, p) == Dist(acts, a, p)
    decreases a
  {
    if a != p && acts[a].env.Some? && acts[a].env.value < a {
      DistSame(acts, acts', acts[a].env.value, p);
    }
  }

  /** An address that leads to `p` has the level the distance says. */
  lemma {:induction false} DistHits(acts: seq<Act>, a: nat, p: nat, level: nat)
    requires forall b :: 0 <= b < |acts| && acts[b].env.Some? ==> acts[b].env.value < b
    requires Ancestor(acts, a, level) == Some(p)
    ensures Dist(acts, a, p) == Some(level) && p <= a
    decreases level
  {
    if level > 0 {
      DistHits(acts, acts[a].env.value, p, level - 1);
    }
  }

  lemma WriteOK(v: View, st: State, loc: Loc, x: Value)
    requires At(v, st) && Misses(loc, v.i, v.h) && Write(st, v.cur, loc, x).Some?
    ensures Stays(v, st, Write(st, v.cur, loc, x).value)
  {
    hide SparesF, Dist;
    var st' := Write(st, v.cur, loc, x).value;
    var a := Ancestor(st.acts, v.cur, loc.level).value;
    if a == v.p {
      DistHits(st.acts, v.cur, v.p, loc.level);
    }
    DistSame(st.acts, st'.acts, v.cur, v.p);
    forall c | 0 <= c < |st'.clos| ensures SparesF(st'.clos[c].f, v.i, Dist(st'.acts, st'.clos[c].env, v.p)) {
      DistSame(st.acts, st'.acts, st.clos[c].env, v.p);
    }
  }

  lemma FnOK(v: View, st: State, f: Func)
    requires At(v, st) && SparesF(f, v.i, v.h)
    ensures Stays(v, st, st.(clos := st.clos + [Closure(f, v.cur)]))
  {
    hide SparesF, Dist;
  }

  lemma EnterOK(v: View, st: State, clo: Closure, args: seq<Value>) returns (u: View)
    requires At(v, st) && clo in st.clos
    ensures u == View(v.p, v.i, |st.acts|, Deeper(Dist(st.acts, clo.env, v.p)))
    ensures Stays(u, st, Enter(st, clo, args)) && SparesL(clo.f.body, u.i, u.h)
  {
    hide SparesL, EntryLocals;
    var st' := Enter(st, clo, args);
    u := View(v.p, v.i, |st.acts|, Deeper(Dist(st.acts, clo.env, v.p)));
    DistSame(st.acts, st'.acts, clo.env, v.p);
    forall c | 0 <= c < |st'.clos| ensures SparesF(st'.clos[c].f, v.i, Dist(st'.acts, st'.clos[c].env, v.p)) {
      DistSame(st.acts, st'.acts, st.clos[c].env, v.p);
    }
    var c :| 0 <= c < |st.clos| && st.clos[c] == clo;
    assert SparesF(st.clos[c].f, v.i, Dist(st.acts, st.clos[c].env, v.p));
  }

  /** Coming back from a call. */
  lemma BackOK(v: View, u: View, st: State, st0: State, r: Res)
    requires At(v, st) && u.p == v.p && u.i == v.i && Stays(u, st, st0) && ResOK(u, st0, r)
    ensures ResOK(v, st, r)
  {
    hide SparesF, Dist;
    if r.Timeout? || r.Stuck? {
    } else {
      DistSame(st.acts, r.st.acts, v.cur, v.p);
    }
  }

  // ----- the evaluator -----

  lemma {:induction false} KeepE(md: Mode, e: Expr, v: View, st: State, k: nat)
    requires At(v, st) && SparesE(e, v.i, v.h)
    ensures ResOK(v, st, Eval(md, e, v.cur, st, k))
    decreases k, 1, e, 1
  {
    hide At, Kept, Misses, Binary, Read, Write, Truthy, Invoke, SparesF, Stays;
    StaysSame(v, st);
    match e
    case Lit(_) =>
    case Var(_) =>
    case Un(_, a) => KeepE(md, a, v, st, k);
    case Bin(_, l, r) =>
      KeepE(md, l, v, st, k);
      var q := Eval(md, l, v.cur, st, k);
      if q.Val? { KeepThenE(md, r, v, st, q.st, k); }
    case And(l, r) =>
      KeepE(md, l, v, st, k);
      var q := Eval(md, l, v.cur, st, k);
      if q.Val? { KeepThenE(md, r, v, st, q.st, k); }
    case Or(l, r) =>
      KeepE(md, l, v, st, k);
      var q := Eval(md, l, v.cur, st, k);
      if q.Val? { KeepThenE(md, r, v, st, q.st, k); }
    case Ternary(c, t, f) =>
      KeepTest(md, c, v, st, k);
      var q := Test(md, c, v.cur, st, k);
      if q.Val? { KeepThenE(md, if q.v == Bool(true) then t else f, v, st, q.st, k); }
    case Assign(loc, a) =>
      KeepE(md, a, v, st, k);
      KeepStore(v, st, Eval(md, a, v.cur, st, k), loc);
    case Call(f, args) =>
      KeepE(md, f, v, st, k);
      var q := Eval(md, f, v.cur, st, k);
      if q.Val? {
        KeepArgs(md, args, v, st, q.st, k);
        var q2 := EvalArgs(md, args, v.cur, q.st, k);
        if q2.Args? {
          StaysAt(v, st, q2.st);
          KeepInvoke(md, q.v, q2.vs, v, q2.st, k);
          StaysTrans(v, st, q2.st, Invoke(md, q.v, q2.vs, q2.st, k));
        }
      }
    case Fn(f) => FnOK(v, st, f);
    case Length(a) => KeepE(md, a, v, st, k);
    case ArgAt(_, _) =>
  }

  lemma StaysAt(v: View, st: State, st': State)
    requires Stays(v, st, st')
    ensures At(v, st')
  {
  }

  /** An expression evaluated in a later state. */
  lemma {:induction false} KeepThenE(md: Mode, e: Expr, v: View, st0: State, st: State, k: nat)
    requires Stays(v, st0, st) && SparesE(e, v.i, v.h)
    ensures ResOK(v, st0, Eval(md, e, v.cur, st, k))
    decreases k, 1, e, 2
  {
    hide Kept, Eval, SparesE, Safe;
    KeepE(md, e, v, st, k);
    StaysTrans(v, st0, st, Eval(md, e, v.cur, st, k));
  }

  /** Writing a value that was just computed. */
  lemma KeepStore(v: View, st: State, r: Res, loc: Loc)
    requires ResOK(v, st, r) && Misses(loc, v.i, v.h)
    ensures (r.Val? || r.Throw?) && Write(r.st, v.cur, loc, r.v).Some? ==>
      Stays(v, st, Write(r.st, v.cur, loc, r.v).value)
  {
    hide Misses, Write, Safe, Kept, Dist;
    if (r.Val? || r.Throw?) && Write(r.st, v.cur, loc, r.v).Some? {
      WriteOK(v, r.st, loc, r.v);
      StaysTrans(v, st, r.st, Next(Write(r.st, v.cur, loc, r.v).value));
    }
  }

  ghost predicate ArgsOK(v: View, st: State, r: ArgsRes) {
    match r
    case Args(_, s1) => Stays(v, st, s1)
    case ArgsAbrupt(x) => ResOK(v, st, x)
  }

  lemma {:induction false} KeepArgs(md: Mode, es: Exprs, v: View, st0: State, st: State, k: nat)
    requires Stays(v, st0, st) && SparesA(es, v.i, v.h)
    ensures ArgsOK(v, st0, EvalArgs(md, es, v.cur, st, k))
    decreases k, 1, es, 1
  {
    hide At, Kept, Eval, SparesE, Stays;
    if es.MoreExprs? {
      KeepThenE(md, es.head, v, st0, st, k);
      var q := Eval(md, es.head, v.cur, st, k);
      if q.Val? { KeepArgs(md, es.tail, v, st0, q.st, k); }
    }
  }

  lemma {:induction false} KeepTest(md: Mode, e: Expr, v: View, st: State, k: nat)
    requires At(v, st) && SparesE(e, v.i, v.h)
    ensures ResOK(v, st, Test(md, e, v.cur, st, k))
    decreases k, 1, e, 2
  {
    hide At, Kept, Eval, Truthy, Holds, Stays;
    if IsComparison(e) {
      KeepE(md, e.l, v, st, k);
      var q := Eval(md, e.l, v.cur, st, k);
      if q.Val? { KeepThenE(md, e.r, v, st, q.st, k); }
    } else {
      KeepE(md, e, v, st, k);
    }
  }

  /** A condition tested in a later state. */
  lemma {:induction false} KeepThenTest(md: Mode, e: Expr, v: View, st0: State, st: State, k: nat)
    requires Stays(v, st0, st) && SparesE(e, v.i, v.h)
    ensures ResOK(v, st0, Test(md, e, v.cur, st, k))
    decreases k, 1, e, 3
  {
    hide Kept, Test, SparesE, Safe;
    KeepTest(md, e, v, st, k);
    StaysTrans(v, st0, st, Test(md, e, v.cur, st, k));
  }

  lemma {:induction false} KeepInvoke(md: Mode, fv: Value, args: seq<Value>, v: View, st: State, k: nat)
    requires At(v, st)
    ensures ResOK(v, st, Invoke(md, fv, args, st, k))
    decreases k, 0
  {
    hide At, Kept, Enter, TypeName, Run, SparesL, Stays;
    StaysSame(v, st);
    if fv.Fun? && fv.id < |st.clos| && k > 0 && |args| >= st.clos[fv.id].f.required {
      var clo := st.clos[fv.id];
      var u := EnterOK(v, st, clo, args);
      var st0 := Enter(st, clo, args);
      StaysAt(u, st, st0);
      KeepL(md, clo.f.body, u, st0, k - 1);
      BackOK(v, u, st, st0, Run(md, clo.f.body, |st.acts|, st0, k - 1));
    }
  }

  lemma {:induction false} KeepL(md: Mode, b: Stmts, v: View, st: State, k: nat)
    requires At(v, st) && SparesL(b, v.i, v.h)
    ensures ResOK(v, st, Run(md, b, v.cur, st, k))
    decreases k, 1, b, 1
  {
    hide At, Kept, Exec, SparesS, Stays;
    StaysSame(v, st);
    if b.MoreStmts? {
      KeepS(md, b.head, v, st, k);
      var q := Exec(md, b.head, v.cur, st, k);
      if q.Next? { KeepThenL(md, b.tail, v, st, q.st, k); }
    }
  }

  lemma {:induction false} KeepThenL(md: Mode, b: Stmts, v: View, st0: State, st: State, k: nat)
    requires Stays(v, st0, st) && SparesL(b, v.i, v.h)
    ensures ResOK(v, st0, Run(md, b, v.cur, st, k))
    decreases k, 1, b, 2
  {
    hide Kept, Run, SparesL, Safe;
    KeepL(md, b, v, st, k);
    StaysTrans(v, st0, st, Run(md, b, v.cur, st, k));
  }

  lemma {:induction false} KeepO(md: Mode, b: Option<Stmts>, v: View, st0: State, st: State, k: nat)
    requires Stays(v, st0, st) && SparesO(b, v.i, v.h)
    ensures ResOK(v, st0, RunOpt(md, b, v.cur, st, k))
    decreases k, 1, b, 2
  {
    hide Run, SparesL, Stays;
    if b.Some? { KeepThenL(md, b.value, v, st0, st, k); }
  }

  lemma {:induction false} KeepAgain(md: Mode, s: Stmt, r: Res, v: View, st: State, k: nat)
    requires ResOK(v, st, r) && SparesS(s, v.i, v.h)
    ensures ResOK(v, st, Again(md, s, r, v.cur, k))
    decreases k, 0
  {
    hide Exec, SparesS, Safe, Kept;
    if k > 0 && (r.Next? || r.Continue?) {
      KeepS(md, s, v, r.st, k - 1);
      StaysTrans(v, st, r.st, Exec(md, s, v.cur, r.st, k - 1));
    }
  }

  lemma {:induction false} KeepS(md: Mode, s: Stmt, v: View, st: State, k: nat)
    requires At(v, st) && SparesS(s, v.i, v.h)
    ensures ResOK(v, st, Exec(md, s, v.cur, st, k))
    decreases k, 1, s, 1
  {
    hide At, Kept, Stays, Eval, Test, Run, RunOpt, Again, Select, Write, Read, Truthy, Misses, SparesE,
      SparesL, SparesC, SparesO;
    StaysSame(v, st);
    match s
    case Do(e) => KeepE(md, e, v, st, k);
    case Set(loc, e) =>
      KeepE(md, e, v, st, k);
      KeepStore(v, st, Eval(md, e, v.cur, st, k), loc);
    case Block(b) => KeepL(md, b, v, st, k);
    case If(c, t) =>
      KeepTest(md, c, v, st, k);
      var q := Test(md, c, v.cur, st, k);
      if q.Val? && q.v == Bool(true) { KeepThenL(md, t, v, st, q.st, k); }
    case IfElse(c, t, f) =>
      KeepTest(md, c, v, st, k);
      var q := Test(md, c, v.cur, st, k);
      if q.Val? { KeepThenL(md, if q.v == Bool(true) then t else f, v, st, q.st, k); }
    case Unless(c, t) =>
      KeepE(md, c, v, st, k);
      var q := Eval(md, c, v.cur, st, k);
      if q.Val? { KeepThenL(md, t, v, st, q.st, k); }
    case UnlessElse(c, t, f) =>
      KeepE(md, c, v, st, k);
      var q := Eval(md, c, v.cur, st, k);
      if q.Val? { KeepThenL(md, if Truthy(q.v) then f else t, v, st, q.st, k); }
    case While(_, _) => KeepLoop(md, s, v, st, k);
    case Until(_, _) => KeepLoop(md, s, v, st, k);
    case Loop(_) => KeepLoop(md, s, v, st, k);
    case DoWhile(_, _) => KeepDo(md, s, v, st, k);
    case DoUntil(_, _) => KeepDo(md, s, v, st, k);
    case Switch(c, cases, otherwise) =>
      KeepE(md, c, v, st, k);
      var q := Eval(md, c, v.cur, st, k);
      if q.Val? {
        KeepSelect(md, cases, q.v, v, st, q.st, k);
        var x := Select(md, cases, q.v, v.cur, q.st, k);
        if x.NotChosen? { KeepO(md, otherwise, v, st, x.st, k); }
      }
    case BreakS =>
    case ContinueS =>
    case ReturnS(e) => KeepE(md, e, v, st, k);
    case ThrowS(e) => KeepE(md, e, v, st, k);
    case TryCatch(_, _, _, _) => KeepTry(md, s, v, st, k);
    case TryFinally(_, _, _) => KeepTry(md, s, v, st, k);
  }

  /** One run of a loop's body and the way back. */
  lemma {:induction false} KeepRound(md: Mode, s: Stmt, b: Stmts, v: View, st0: State, st: State, k: nat)
    requires b < s && Stays(v, st0, st) && SparesS(s, v.i, v.h) && SparesL(b, v.i, v.h)
    ensures ResOK(v, st0, Again(md, s, Run(md, b, v.cur, st, k), v.cur, k))
    decreases k, 1, b, 3
  {
    hide Run, Exec, Again, SparesL, SparesS, Stays;
    KeepThenL(md, b, v, st0, st, k);
    KeepAgain(md, s, Run(md, b, v.cur, st, k), v, st0, k);
  }

  lemma {:induction false} KeepLoop(md: Mode, s: Stmt, v: View, st: State, k: nat)
    requires s.While? || s.Until? || s.Loop?
    requires At(v, st) && SparesS(s, v.i, v.h)
    ensures ResOK(v, st, Exec(md, s, v.cur, st, k))
    decreases k, 1, s, 0
  {
    hide At, Kept, Stays, Eval, Test, Run, Again, Truthy, SparesE, SparesL;
    StaysSame(v, st);
    if s.Loop? {
      KeepRound(md, s, s.b, v, st, st, k);
    } else if s.While? {
      KeepTest(md, s.c, v, st, k);
      var q := Test(md, s.c, v.cur, st, k);
      if q.Val? && q.v == Bool(true) { KeepRound(md, s, s.b, v, st, q.st, k); }
    } else {
      KeepE(md, s.c, v, st, k);
      var q := Eval(md, s.c, v.cur, st, k);
      if q.Val? && !Truthy(q.v) { KeepRound(md, s, s.b, v, st, q.st, k); }
    }
  }

  lemma {:induction false} KeepDo(md: Mode, s: Stmt, v: View, st: State, k: nat)
    requires s.DoWhile? || s.DoUntil?
    requires At(v, st) && SparesS(s, v.i, v.h)
    ensures ResOK(v, st, Exec(md, s, v.cur, st, k))
    decreases k, 1, s, 0
  {
    hide At, Kept, Stays, Eval, Test, Run, Again, Truthy, SparesE, SparesL;
    KeepL(md, s.b, v, st, k);
    var q := Run(md, s.b, v.cur, st, k);
    if q.Next? || q.Continue? {
      if s.DoWhile? {
        KeepThenTest(md, s.c, v, st, q.st, k);
        var t := Test(md, s.c, v.cur, q.st, k);
        if t.Val? { KeepAgain(md, s, Next(t.st), v, st, k); }
      } else {
        KeepThenE(md, s.c, v, st, q.st, k);
        var t := Eval(md, s.c, v.cur, q.st, k);
        if t.Val? { KeepAgain(md, s, Next(t.st), v, st, k); }
      }
    }
  }

  ghost predicate CaseOK(v: View, st: State, r: CaseRes) {
    match r
    case NotChosen(s1) => Stays(v, st, s1)
    case CaseDone(x) => ResOK(v, st, x)
  }

  lemma {:induction false} KeepSelect(md: Mode, cases: Cases, x: Value, v: View, st0: State, st: State, k: nat)
    requires Stays(v, st0, st) && SparesC(cases, v.i, v.h)
    ensures CaseOK(v, st0, Select(md, cases, x, v.cur, st, k))
    decreases k, 1, cases, 1
  {
    hide Stays, Run, Matches, SparesL, SparesA;
    if cases.MoreCases? {
      KeepMatches(md, cases.conds, x, v, st0, st, k);
      var q := Matches(md, cases.conds, x, v.cur, st, k);
      if q.Val? {
        if q.v == Bool(true) {
          KeepThenL(md, cases.block, v, st0, q.st, k);
        } else {
          KeepSelect(md, cases.rest, x, v, st0, q.st, k);
        }
      }
    }
  }

  lemma {:induction false} KeepMatches(md: Mode, es: Exprs, x: Value, v: View, st0: State, st: State, k: nat)
    requires Stays(v, st0, st) && SparesA(es, v.i, v.h)
    ensures ResOK(v, st0, Matches(md, es, x, v.cur, st, k))
    decreases k, 1, es, 1
  {
    hide Stays, Eval, Binary, Truthy, SparesE;
    if es.MoreExprs? {
      KeepThenE(md, es.head, v, st0, st, k);
      var q := Eval(md, es.head, v.cur, st, k);
      if q.Val? { KeepMatches(md, es.tail, x, v, st0, q.st, k); }
    }
  }

  lemma {:induction false} KeepTry(md: Mode, s: Stmt, v: View, st: State, k: nat)
    requires s.TryCatch? || s.TryFinally?
    requires At(v, st) && SparesS(s, v.i, v.h)
    ensures ResOK(v, st, Exec(md, s, v.cur, st, k))
    decreases k, 1, s, 0
  {
    hide At, Kept, Stays, Run, RunOpt, Read, Write, Misses, SparesL, SparesO;
    KeepL(md, s.b, v, st, k);
    var q := Run(md, s.b, v.cur, st, k);
    KeepStore(v, st, q, s.exc);
    if q.Next? {
      if s.TryCatch? { KeepO(md, s.fin, v, st, q.st, k); } else { KeepThenL(md, s.finalizer, v, st, q.st, k); }
    } else if q.Throw? && Write(q.st, v.cur, s.exc, q.v).Some? {
      var s2 := Write(q.st, v.cur, s.exc, q.v).value;
      if s.TryFinally? {
        KeepThenL(md, s.finalizer, v, st, s2, k);
      } else {
        KeepThenL(md, s.handler, v, st, s2, k);
        var h := Run(md, s.handler, v.cur, s2, k);
        if h.Next? { KeepO(md, s.fin, v, st, h.st, k); }
      }
    }
  }

  // ----- rethrowing -----

  /**
   * If neither the finally block nor any function there is when it starts writes the exception's slot,
   * the caught exception is thrown again, whatever the block calls.
   */
  lemma Rethrows(md: Mode, s: Stmt, cur: nat, st: State, k: nat, x: Value, s1: State, s2: State)
    requires s.TryFinally? && s.exc.level == 0
    requires Run(md, s.b, cur, st, k) == Throw(x, s1) && Write(s1, cur, s.exc, x) == Some(s2)
    requires cur < |s2.acts| && Safe(View(cur, s.exc.index, cur, Some(0)), s2)
    requires SparesL(s.finalizer, s.exc.index, Some(0))
    ensures var r := Run(md, s.finalizer, cur, s2, k);
      Exec(md, s, cur, st, k) == if r.Next? then Throw(x, r.st) else r
  {
    hide Run, Safe, SparesL;
    var v := View(cur, s.exc.index, cur, Some(0));
    KeepL(md, s.finalizer, v, s2, k);
    WriteThenRead(s1, cur, s.exc, x);
  }

  // ----- where it is not -----

  const CAUGHT: Value := Num(1.0)
  const LOCAL: Value := Num(2.0)

  /** `try { throw 1 } finally { let x = 2 }`, with the slot that allocation gives both variables. */
  function LocalInFinally(slot: uint32): Stmt {
    TryFinally(MoreStmts(ThrowS(Lit(CAUGHT)), NoStmts), Loc(slot, 0),
               MoreStmts(Set(Loc(slot, 0), Lit(LOCAL)), NoStmts))
  }

  /** It throws 2. */
  lemma LocalIsThrown(md: Mode, slot: uint32, cur: nat, st: State, k: nat)
    requires cur < |st.acts| && slot < |st.acts[cur].locals|
    ensures exists st' :: Exec(md, LocalInFinally(slot), cur, st, k) == Throw(LOCAL, st')
  {
    var s := LocalInFinally(slot);
    assert Exec(md, ThrowS(Lit(CAUGHT)), cur, st, k) == Throw(CAUGHT, st);
    assert Run(md, s.b, cur, st, k) == Throw(CAUGHT, st);
    var s2 := Write(st, cur, s.exc, CAUGHT).value;
    var s3 := Write(s2, cur, s.exc, LOCAL).value;
    assert Exec(md, s.finalizer.head, cur, s2, k) == Next(s3);
    assert Run(md, NoStmts, cur, s3, k) == Next(s3);
    assert Run(md, s.finalizer, cur, s2, k) == Next(s3);
    WriteThenRead(s2, cur, s.exc, LOCAL);
    assert Exec(md, s, cur, st, k) == Throw(LOCAL, s3);
  }

  /**
   * Wherever the statement stands, allocation gives both variables one slot, and the local variable's
   * value is thrown instead of the exception.
   */
  lemma FinallyLocalThrown(w: A.Walk, e: A.Symbol, x: A.Symbol, md: Mode, cur: nat, st: State, k: nat)
    requires A.Correct(w) && A.Open(w)
    requires var exc := A.Visit(w, A.ExceptionScope(e)).decls;
      |w.decls| < |exc| && exc[|w.decls|].slot < UINT32_RANGE && cur < |st.acts| &&
      exc[|w.decls|].slot < |st.acts[cur].locals|
    ensures var w2 := A.Visit(A.Visit(w, A.ExceptionScope(e)), A.ExceptionScope(x)); var n := |w.decls|;
      (|w2.decls| == n + 2 && w2.decls[n].slot == w2.decls[n + 1].slot < UINT32_RANGE &&
       exists st' :: Exec(md, LocalInFinally(w2.decls[n].slot), cur, st, k) == Throw(LOCAL, st'))
  {
    hide A.Visit, A.Correct, Exec, LocalInFinally;
    A.SlotIsNext(w, e);
    A.FinallyLocalSlot(w, e, x);
    var w1 := A.Visit(w, A.ExceptionScope(e));
    var w2 := A.Visit(w1, A.ExceptionScope(x));
    A.VisitCorrect(w1, A.ExceptionScope(x));
    A.SameDecl(w1, w2, |w.decls|);
    LocalIsThrown(md, w2.decls[|w.decls|].slot, cur, st, k);
  }

  /** A function that writes slot 1 of the activation it was made in. */
  const WRITER: Func :=
    Func("", true, false, 0, 0, 0, MoreStmts(Set(Loc(1, 1), Lit(LOCAL)), MoreStmts(ReturnS(Lit(Null)), NoStmts)))

  /** `try { throw 1 } finally { g() }`, with the exception in slot 1. */
  const CALLING: Stmt :=
    TryFinally(MoreStmts(ThrowS(Lit(CAUGHT)), NoStmts), Loc(1, 0),
               MoreStmts(Do(Call(Var(Loc(0, 0)), NoExprs)), NoStmts))

  /** An activation whose slot 0 holds the function. */
  const BEFORE: State := State([Act(None, [Fun(0), Null])], [Closure(WRITER, 0)], [])

  /**
   * A finally block that declares nothing does not help if it calls a function that uses a variable
   * which was given the exception's slot later.
   */
  lemma CallOverwrites(md: Mode, k: nat)
    requires k > 0
    ensures exists st' :: Exec(md, CALLING, 0, BEFORE, k) == Throw(LOCAL, st')
  {
    var s2 := Write(BEFORE, 0, Loc(1, 0), CAUGHT).value;
    assert Exec(md, ThrowS(Lit(CAUGHT)), 0, BEFORE, k) == Throw(CAUGHT, BEFORE);
    assert Run(md, CALLING.b, 0, BEFORE, k) == Throw(CAUGHT, BEFORE);
    var s3 := FinallyCalls(md, s2, k);
    hide Run;
    assert Exec(md, CALLING, 0, BEFORE, k) == Throw(LOCAL, s3);
  }

  lemma FinallyCalls(md: Mode, s2: State, k: nat) returns (s3: State)
    requires k > 0 && s2 == Write(BEFORE, 0, Loc(1, 0), CAUGHT).value
    ensures Run(md, CALLING.finalizer, 0, s2, k) == Next(s3) && Read(s3, 0, Loc(1, 0)) == Some(LOCAL)
  {
    assert s2.clos == BEFORE.clos && |s2.acts| == 1 && |s2.acts[0].locals| == 2;
    assert Eval(md, Var(Loc(0, 0)), 0, s2, k) == Val(Fun(0), s2);
    s3 := WriterRuns(md, s2, k - 1);
    hide Read, Write, Enter;
    assert Invoke(md, Fun(0), [], s2, k) == Val(Null, s3);
    var call := Call(Var(Loc(0, 0)), NoExprs);
    assert EvalArgs(md, NoExprs, 0, s2, k) == Args([], s2);
    hide Invoke;
    assert Eval(md, call, 0, s2, k) == Val(Null, s3);
    assert Exec(md, Do(call), 0, s2, k) == Next(s3);
    assert Run(md, NoStmts, 0, s3, k) == Next(s3);
  }

  lemma WriterRuns(md: Mode, st: State, k: nat) returns (st': State)
    requires |st.acts| == 1 && |st.acts[0].locals| == 2 && st.clos == [Closure(WRITER, 0)]
    ensures Run(md, WRITER.body, 1, Enter(st, st.clos[0], []), k) == Return(Null, st')
    ensures Read(st', 0, Loc(1, 0)) == Some(LOCAL)
  {
    var s1 := Enter(st, st.clos[0], []);
    assert Ancestor(s1.acts, 1, 1) == Some(0) by {
      assert Ancestor(s1.acts, 0, 0) == Some(0);
    }
    st' := Write(s1, 1, Loc(1, 1), LOCAL).value;
    assert Exec(md, WRITER.body.head, 1, s1, k) == Next(st');
    assert Exec(md, WRITER.body.tail.head, 1, st', k) == Return(Null, st');
    assert Run(md, WRITER.body.tail, 1, st', k) == Return(Null, st');
  }
}
