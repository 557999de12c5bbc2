/**
 * Direct evaluation of syntax trees: a big-step interpreter with fuel. Fuel is spent only
 * by calls and by loop back edges, so the evaluator is defined for every tree and state.
 */
module Semantics {
  import opened Values
  import opened Syntax

  /** One activation: the environment it closes over and its slots. */
  datatype Act = Act(env: Option<nat>, locals: seq<Value>)

  datatype Closure = Closure(f: Func, env: nat)

  /** The heap: activations, closures and `arguments` arrays, addressed by index. */
  datatype State = State(acts: seq<Act>, clos: seq<Closure>, arrs: seq<seq<Value>>)

  /**
   * `Direct` gives ordering conditions their plain meaning and refuses incomparable
   * operands. `Compiled` tests the opposite operator, as the generated branches do.
   */
  datatype Mode = Direct | Compiled

  datatype Res =
    | Val(v: Value, st: State)           // expression value
    | Next(st: State)                    // statement completed
    | Break(st: State)
    | Continue(st: State)
    | Return(v: Value, st: State)
    | Throw(v: Value, st: State)
    | Timeout                            // out of fuel
    | Stuck                              // left the modelled fragment

  datatype ArgsRes = Args(vs: seq<Value>, st: State) | ArgsAbrupt(r: Res)

  datatype CaseRes = NotChosen(st: State) | CaseDone(r: Res)

  /** The results an expression can have. */
  predicate OfExpr(r: Res) {
    r.Val? || r.Throw? || r.Timeout? || r.Stuck?
  }

  /** The frame `level` environments up from `frame`. */
  function Ancestor(acts: seq<Act>, frame: nat, level: nat): Option<nat>
    decreases level
  {
    if frame >= |acts| then None
    else if level == 0 then Some(frame)
    else if acts[frame].env.None? then None
    else Ancestor(acts, acts[frame].env.value, level - 1)
  }

  function Read(st: State, cur: nat, loc: Loc): Option<Value> {
    match Ancestor(st.acts, cur, loc.level)
    case None => None
    case Some(a) =>
      if a < |st.acts| && loc.index < |st.acts[a].locals| then Some(st.acts[a].locals[loc.index]) else None
  }

  function Write(st: State, cur: nat, loc: Loc, v: Value): Option<State> {
    match Ancestor(st.acts, cur, loc.level)
    case None => None
    case Some(a) =>
      if a < |st.acts| && loc.index < |st.acts[a].locals| then
        Some(st.(acts := st.acts[a := st.acts[a].(locals := st.acts[a].locals[loc.index := v])]))
      else None
  }

  function Holds(md: Mode, op: BinOp, l: Value, r: Value): Option<bool>
    requires IsComparisonOp(op)
  {
    match md
    case Direct => if IsOrdering(op) && !Comparable(l, r) then None else Compare(op, l, r)
    case Compiled =>
      match Compare(Opposite(op), l, r)
      case None => None
      case Some(b) => Some(!b)
  }

  function CopyArgs(locals: seq<Value>, args: seq<Value>, shift: nat, limit: nat): (r: seq<Value>)
    ensures |r| == |locals|
    ensures forall i :: 0 <= i < |locals| ==>
      r[i] == if shift <= i < shift + |args| && i - shift < limit then args[i - shift] else locals[i]
  {
    seq(|locals|, i requires 0 <= i < |locals| =>
      if shift <= i < shift + |args| && i - shift < limit then args[i - shift] else locals[i])
  }

  /** The slots of a fresh activation. `arr` is the `arguments` array, if there is one. */
  function EntryLocals(f: Func, args: seq<Value>, arr: nat): (r: seq<Value>)
    ensures |r| == f.lvarcount
  {
    var blank := seq(f.lvarcount, _ => Null);
    if f.needsArguments then
      CopyArgs(if f.lvarcount > 0 then blank[0 := Arr(arr)] else blank, args, 1, f.params)
    else
      CopyArgs(blank, args, 0, f.lvarcount)
  }

  /** The heap right after a call has set up the callee's activation. */
  function Enter(st: State, clo: Closure, args: seq<Value>): State {
    State(st.acts + [Act(Some(clo.env), EntryLocals(clo.f, args, |st.arrs|))],
          st.clos,
          if clo.f.needsArguments then st.arrs + [args] else st.arrs)
  }

  function Eval(md: Mode, e: Expr, cur: nat, st: State, k: nat): (r: Res)
    ensures OfExpr(r)
    decreases k, 1, e, 1
  {
    match e
    case Lit(v) => Val(v, st)
    case Var(loc) =>
      (match Read(st, cur, loc)
       case Some(v) => Val(v, st)
       case None => Stuck)
    case Un(op, a) =>
      (match Eval(md, a, cur, st, k)
       case Val(v, s1) => Val(Unary(op, v), s1)
       case r => r)
    case Bin(op, l, r) =>
      (match Eval(md, l, cur, st, k)
       case Val(a, s1) =>
         (match Eval(md, r, cur, s1, k)
          case Val(b, s2) =>
            (match Binary(op, a, b)
             case Some(v) => Val(v, s2)
             case None => Stuck)
          case x => x)
       case x => x)
    case And(l, r) =>
      (match Eval(md, l, cur, st, k)
       case Val(a, s1) => if Truthy(a) then Eval(md, r, cur, s1, k) else Val(a, s1)
       case x => x)
    case Or(l, r) =>
      (match Eval(md, l, cur, st, k)
       case Val(a, s1) => if Truthy(a) then Val(a, s1) else Eval(md, r, cur, s1, k)
       case x => x)
    case Ternary(c, t, f) =>
      (match Test(md, c, cur, st, k)
       case Val(b, s1) => if b == Bool(true) then Eval(md, t, cur, s1, k) else Eval(md, f, cur, s1, k)
       case x => x)
    case Assign(loc, a) =>
      (match Eval(md, a, cur, st, k)
       case Val(v, s1) =>
         (match Write(s1, cur, loc, v)
          case Some(s2) => Val(v, s2)
          case None => Stuck)
       case x => x)
    case Call(f, args) =>
      (match Eval(md, f, cur, st, k)
       case Val(fv, s1) =>
         (match EvalArgs(md, args, cur, s1, k)
          case Args(vs, s2) => Invoke(md, fv, vs, s2, k)
          case ArgsAbrupt(x) => x)
       case x => x)
    case Fn(f) => Val(Fun(|st.clos|), st.(clos := st.clos + [Closure(f, cur)]))
    case Length(a) =>
      (match Eval(md, a, cur, st, k)
       case Val(v, s1) =>
         if v.Arr? && v.id < |s1.arrs| then Val(Num(|s1.arrs[v.id]| as real), s1) else Stuck
       case x => x)
    case ArgAt(i, up) =>
      (match Read(st, cur, Loc(0, up))
       case Some(v) =>
         if v.Arr? && v.id < |st.arrs| then
           Val(if i < |st.arrs[v.id]| then st.arrs[v.id][i] else Null, st)
         else Stuck
       case None => Stuck)
  }

  /** Left to right argument evaluation. */
  function EvalArgs(md: Mode, es: Exprs, cur: nat, st: State, k: nat): (r: ArgsRes)
    ensures r.Args? ==> |r.vs| == Count(es)
    ensures r.ArgsAbrupt? ==> OfExpr(r.r) && !r.r.Val?
    decreases k, 1, es, 1
  {
    match es
    case NoExprs => Args([], st)
    case MoreExprs(e, t) =>
      (match Eval(md, e, cur, st, k)
       case Val(v, s1) =>
         (match EvalArgs(md, t, cur, s1, k)
          case Args(vs, s2) => Args([v] + vs, s2)
          case x => x)
       case x => ArgsAbrupt(x))
  }

  /** A condition: Val(Bool(b)) or an abrupt result. */
  function Test(md: Mode, e: Expr, cur: nat, st: State, k: nat): (r: Res)
    ensures OfExpr(r)
    decreases k, 1, e, 2
  {
    if IsComparison(e) then
      match Eval(md, e.l, cur, st, k)
      case Val(a, s1) =>
        (match Eval(md, e.r, cur, s1, k)
         case Val(b, s2) =>
           (match Holds(md, e.op, a, b)
            case Some(t) => Val(Bool(t), s2)
            case None => Stuck)
         case x => x)
      case x => x
    else
      match Eval(md, e, cur, st, k)
      case Val(v, s1) => Val(Bool(Truthy(v)), s1)
      case x => x
  }

  /** A call of `fv`: dispatch, argument check, fresh activation, body. */
  function Invoke(md: Mode, fv: Value, args: seq<Value>, st: State, k: nat): (r: Res)
    ensures OfExpr(r)
    decreases k, 0
  {
    if !fv.Fun? then Throw(Str(NOT_CALLABLE + TypeName(fv)), st)
    else if fv.id >= |st.clos| then Stuck
    else
      var clo := st.clos[fv.id];
      if |args| < clo.f.required then Throw(Str(NOT_ENOUGH), st)
      else if k == 0 then Timeout
      else
        match Run(md, clo.f.body, |st.acts|, Enter(st, clo, args), k - 1)
        case Return(v, s1) => Val(v, s1)
        case Throw(v, s1) => Throw(v, s1)
        case Timeout => Timeout
        case _ => Stuck
  }

  /** A block: statements in order until one completes abruptly. */
  function Run(md: Mode, b: Stmts, cur: nat, st: State, k: nat): (r: Res)
    ensures !r.Val?
    decreases k, 1, b, 1
  {
    match b
    case NoStmts => Next(st)
    case MoreStmts(s, t) =>
      match Exec(md, s, cur, st, k)
      case Next(s1) => Run(md, t, cur, s1, k)
      case r => r
  }

  function RunOpt(md: Mode, b: Option<Stmts>, cur: nat, st: State, k: nat): (r: Res)
    ensures !r.Val?
    decreases k, 1, b, 2
  {
    match b
    case None => Next(st)
    case Some(ss) => Run(md, ss, cur, st, k)
  }

  function Exec(md: Mode, s: Stmt, cur: nat, st: State, k: nat): (r: Res)
    ensures !r.Val?
    decreases k, 1, s, 1
  {
    match s
    case Do(e) =>
      (match Eval(md, e, cur, st, k)
       case Val(_, s1) => Next(s1)
       case r => r)
    case Set(loc, e) =>
      (match Eval(md, e, cur, st, k)
       case Val(v, s1) =>
         (match Write(s1, cur, loc, v)
          case Some(s2) => Next(s2)
          case None => Stuck)
       case r => r)
    case Block(b) => Run(md, b, cur, st, k)
    case If(c, t) =>
      (match Test(md, c, cur, st, k)
       case Val(b, s1) => if b == Bool(true) then Run(md, t, cur, s1, k) else Next(s1)
       case r => r)
    case IfElse(c, t, f) =>
      (match Test(md, c, cur, st, k)
       case Val(b, s1) => if b == Bool(true) then Run(md, t, cur, s1, k) else Run(md, f, cur, s1, k)
       case r => r)
    case Unless(c, t) =>
      (match Eval(md, c, cur, st, k)
       case Val(v, s1) => if Truthy(v) then Next(s1) else Run(md, t, cur, s1, k)
       case r => r)
    case UnlessElse(c, t, f) =>
      (match Eval(md, c, cur, st, k)
       case Val(v, s1) => if Truthy(v) then Run(md, f, cur, s1, k) else Run(md, t, cur, s1, k)
       case r => r)
    case While(c, b) =>
      (match Test(md, c, cur, st, k)
       case Val(v, s1) =>
         if v == Bool(true) then Again(md, s, Run(md, b, cur, s1, k), cur, k) else Next(s1)
       case r => r)
    case Until(c, b) =>
      (match Eval(md, c, cur, st, k)
       case Val(v, s1) =>
         if Truthy(v) then Next(s1) else Again(md, s, Run(md, b, cur, s1, k), cur, k)
       case r => r)
    case DoWhile(b, c) =>
      (match Iteration(Run(md, b, cur, st, k))
       case Val(go, s1) =>
         if go == Bool(true) then
           (match Test(md, c, cur, s1, k)
            case Val(v, s2) => if v == Bool(true) then Again(md, s, Next(s2), cur, k) else Next(s2)
            case r => r)
         else Next(s1)
       case r => r)
    case DoUntil(b, c) =>
      (match Iteration(Run(md, b, cur, st, k))
       case Val(go, s1) =>
         if go == Bool(true) then
           (match Eval(md, c, cur, s1, k)
            case Val(v, s2) => if Truthy(v) then Next(s2) else Again(md, s, Next(s2), cur, k)
            case r => r)
         else Next(s1)
       case r => r)
    case Loop(b) => Again(md, s, Run(md, b, cur, st, k), cur, k)
    case Switch(c, cases, otherwise) =>
      (match Eval(md, c, cur, st, k)
       case Val(v, s1) =>
         (match Select(md, cases, v, cur, s1, k)
          case NotChosen(s2) => LeaveSwitch(RunOpt(md, otherwise, cur, s2, k))
          case CaseDone(r) => LeaveSwitch(r))
       case r => r)
    case BreakS => Break(st)
    case ContinueS => Continue(st)
    case ReturnS(e) =>
      (match Eval(md, e, cur, st, k)
       case Val(v, s1) => Return(v, s1)
       case r => r)
    case ThrowS(e) =>
      (match Eval(md, e, cur, st, k)
       case Val(v, s1) => Throw(v, s1)
       case r => r)
    case TryCatch(b, exc, handler, fin) =>
      (match InTry(Run(md, b, cur, st, k))
       case Throw(v, s1) =>
         (match Write(s1, cur, exc, v)
          case Some(s2) =>
            (match Run(md, handler, cur, s2, k)
             case Next(s3) => RunOpt(md, fin, cur, s3, k)
             case r => r)
          case None => Stuck)
       case Next(s1) => RunOpt(md, fin, cur, s1, k)
       case r => r)
    case TryFinally(b, exc, fin) =>
      (match InTry(Run(md, b, cur, st, k))
       case Throw(v, s1) =>
         (match Write(s1, cur, exc, v)
          case Some(s2) =>
            (match Run(md, fin, cur, s2, k)
             case Next(s3) =>
               (match Read(s3, cur, exc)
                case Some(w) => Throw(w, s3)
                case None => Stuck)
             case r => r)
          case None => Stuck)
       case Next(s1) => Run(md, fin, cur, s1, k)
       case r => r)
  }

  /** The loop back edge after one run of a body: this is where loops spend fuel. */
  function Again(md: Mode, loop: Stmt, r: Res, cur: nat, k: nat): (a: Res)
    ensures !r.Val? ==> !a.Val?
    decreases k, 0
  {
    match r
    case Next(s1) => if k == 0 then Timeout else Exec(md, loop, cur, s1, k - 1)
    case Continue(s1) => if k == 0 then Timeout else Exec(md, loop, cur, s1, k - 1)
    case Break(s1) => Next(s1)
    case _ => r
  }

  /** Splits a body's result: Val(true) to test the condition, Val(false) to leave. */
  function Iteration(r: Res): Res {
    match r
    case Next(s1) => Val(Bool(true), s1)
    case Continue(s1) => Val(Bool(true), s1)
    case Break(s1) => Val(Bool(false), s1)
    case Val(_, _) => Stuck
    case _ => r
  }

  function LeaveSwitch(r: Res): Res {
    if r.Break? then Next(r.st) else r
  }

  /** A break or continue that leaves a try block keeps its catch table: outside the fragment. */
  function InTry(r: Res): Res {
    if r.Break? || r.Continue? then Stuck else r
  }

  /** Runs the block of the first case that has a condition equal to `v`. */
  function Select(md: Mode, cases: Cases, v: Value, cur: nat, st: State, k: nat): (r: CaseRes)
    ensures r.CaseDone? ==> !r.r.Val?
    decreases k, 1, cases, 1
  {
    match cases
    case NoCases => NotChosen(st)
    case MoreCases(conds, b, rest) =>
      match Matches(md, conds, v, cur, st, k)
      case Val(hit, s1) =>
        if hit == Bool(true) then CaseDone(Run(md, b, cur, s1, k)) else Select(md, rest, v, cur, s1, k)
      case r => CaseDone(r)
  }

  /** Whether some condition of one case equals `v`: Val(Bool(b)) or an abrupt result. */
  function Matches(md: Mode, conds: Exprs, v: Value, cur: nat, st: State, k: nat): (r: Res)
    ensures OfExpr(r)
    decreases k, 1, conds, 1
  {
    match conds
    case NoExprs => Val(Bool(false), st)
    case MoreExprs(e, t) =>
      match Eval(md, e, cur, st, k)
      case Val(w, s1) =>
        (match Binary(Eq, v, w)
         case None => Stuck
         case Some(hit) => if Truthy(hit) then Val(Bool(true), s1) else Matches(md, t, v, cur, s1, k))
      case r => r
  }
}
