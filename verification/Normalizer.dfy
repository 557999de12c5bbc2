/** The normaliser: what it makes of a tree. */
module Normalising {
  import opened Values
  import R = Source
  import X = Syntax

  // ----- the rewritten tree -----

  /** Statements made of these alone have no effect and are dropped. */
  predicate IsLiteral(e: X.Expr) {
    e.Lit? || e.Var? || e.Fn? || e.ArgAt?
  }

  predicate Terminates(s: X.Stmt) {
    s.ReturnS? || s.BreakS? || s.ContinueS? || s.ThrowS?
  }

  /** `s` written `n` times; nothing if `n` is not positive. */
  function Times(s: string, n: int): string {
    if n <= 0 then "" else Repeat(s, n)
  }

  /** The string literal that replaces an operator on literal operands, if it is replaced. */
  function Fold(op: BinOp, l: R.Expr, r: R.Expr, nl: X.Expr, nr: X.Expr): Option<string> {
    if op.Add? && nl.Lit? && nl.v.Str? && nr.Lit? && nr.v.Str? then Some(nl.v.s + nr.v.s)
    else if op.Mul? && nl.Lit? && nl.v.Str? && r.Int? then Some(Times(nl.v.s, r.n))
    else if op.Mul? && l.Int? && nr.Lit? && nr.v.Str? then Some(Times(nr.v.s, l.n))
    else None
  }

  /** An expression statement; an assignment's value is not needed. */
  function AsStatement(e: X.Expr): X.Stmt {
    if e.Assign? then X.Set(e.loc, e.e) else X.Do(e)
  }

  function One(s: X.Stmt): X.Stmts {
    X.MoreStmts(s, X.NoStmts)
  }

  function ReturnNull(): X.Stmts {
    One(X.ReturnS(X.Lit(Null)))
  }

  /** A function that has no name takes the name of the variable it initialises. */
  function Named(name: string, e: X.Expr): X.Expr {
    if e.Fn? && e.func.name == "" then X.Fn(e.func.(name := name)) else e
  }

  /** `if arguments.length <= i { parameter i = e }`. */
  function DefaultOf(i: nat, e: X.Expr): X.Stmt
    requires i + 1 < UINT32_RANGE
  {
    X.If(X.Bin(Le, X.Length(X.Var(X.Loc(0, 0))), X.Lit(Num(i as real))), One(X.Set(X.Loc(i + 1, 0), e)))
  }

  function NormE(e: R.Expr): X.Expr {
    match e
    case Lit(v) => X.Lit(v)
    case Int(n) => X.Lit(Num(n as real))
    case Var(loc) => X.Var(loc)
    case Un(op, a) => X.Un(op, NormE(a))
    case Bin(op, l, r) =>
      (match Fold(op, l, r, NormE(l), NormE(r))
       case Some(s) => X.Lit(Str(s))
       case None => X.Bin(op, NormE(l), NormE(r)))
    case And(l, r) => X.And(NormE(l), NormE(r))
    case Or(l, r) => X.Or(NormE(l), NormE(r))
    case Ternary(c, t, f) => X.Ternary(NormE(c), NormE(t), NormE(f))
    case Assign(loc, a) => X.Assign(loc, NormE(a))
    case Call(f, args) => X.Call(NormE(f), NormArgs(args))
    case Fn(f) => X.Fn(NormF(f))
    case Arguments => X.Var(X.Loc(0, 0))
    case Length(a) => X.Length(NormE(a))
    case Dollar(i) => X.ArgAt(i, 0)
  }

  function NormArgs(es: R.Exprs): X.Exprs {
    match es
    case NoExprs => X.NoExprs
    case MoreExprs(e, t) => X.MoreExprs(NormE(e), NormArgs(t))
  }

  /** The prologue for the parameters from `i` on, then `body`. */
  function Prologue(i: nat, defaults: R.Exprs, body: X.Stmts): X.Stmts
    decreases defaults, 1
  {
    match defaults
    case NoExprs => body
    case MoreExprs(e, t) =>
      if i + 1 < UINT32_RANGE then X.MoreStmts(DefaultOf(i, NormE(e)), Prologue(i + 1, t, body)) else body
  }

  function NormF(f: R.Func): X.Func {
    X.Func(f.name, f.anonymous, MarksF(f), f.params, f.required, f.lvarcount,
           Prologue(f.required, f.defaults, NormB(f.body, true)))
  }

  /**
   * A statement list; `closing` says that it is a function's body, whose last statement, if it
   * is an expression, becomes the result, and which otherwise returns null at its end.
   */
  function NormB(b: R.Stmts, closing: bool): X.Stmts {
    match b
    case NoStmts => if closing then ReturnNull() else X.NoStmts
    case MoreStmts(s, t) =>
      if closing && t.NoStmts? && s.Do? then One(X.ReturnS(NormE(s.e)))
      else if closing && t.NoStmts? && s.Define? then One(X.ReturnS(X.Fn(NormF(s.func))))
      else if s.Do? then
        if IsLiteral(NormE(s.e)) then NormB(t, closing)
        else X.MoreStmts(AsStatement(NormE(s.e)), NormB(t, closing))
      else X.MoreStmts(NormS(s), if Terminates(NormS(s)) then X.NoStmts else NormB(t, closing))
  }

  function NormO(b: Option<R.Stmts>): Option<X.Stmts> {
    match b
    case None => None
    case Some(ss) => Some(NormB(ss, false))
  }

  function NormC(cases: R.Cases): X.Cases {
    match cases
    case NoCases => X.NoCases
    case MoreCases(conds, b, rest) => X.MoreCases(NormArgs(conds), NormB(b, false), NormC(rest))
  }

  function NormS(s: R.Stmt): X.Stmt {
    match s
    case Do(e) => AsStatement(NormE(e))
    case Declare(name, loc, e) => X.Set(loc, Named(name, NormE(e)))
    case Define(loc, f) => X.Set(loc, X.Fn(NormF(f)))
    case Block(b) => X.Block(NormB(b, false))
    case If(c, t) =>
      var nc := NormE(c);
      if nc.Un? && nc.uop.UNot? then X.Unless(nc.e, NormB(t, false)) else X.If(nc, NormB(t, false))
    case IfElse(c, t, f) =>
      var nc := NormE(c);
      if nc.Un? && nc.uop.UNot? then X.UnlessElse(nc.e, NormB(t, false), NormB(f, false))
      else X.IfElse(nc, NormB(t, false), NormB(f, false))
    case Unless(c, t) =>
      var nc := NormE(c);
      if nc.Un? && nc.uop.UNot? then X.If(nc.e, NormB(t, false)) else X.Unless(nc, NormB(t, false))
    case UnlessElse(c, t, f) =>
      var nc := NormE(c);
      if nc.Un? && nc.uop.UNot? then X.IfElse(nc.e, NormB(t, false), NormB(f, false))
      else X.UnlessElse(nc, NormB(t, false), NormB(f, false))
    case While(c, b) => X.While(NormE(c), NormB(b, false))
    case Until(c, b) => X.Until(NormE(c), NormB(b, false))
    case DoWhile(b, c) => X.DoWhile(NormB(b, false), NormE(c))
    case DoUntil(b, c) => X.DoUntil(NormB(b, false), NormE(c))
    case Loop(b) => X.Loop(NormB(b, false))
    case Switch(c, cases, otherwise) => X.Switch(NormE(c), NormC(cases), NormO(otherwise))
    case BreakS => X.BreakS
    case ContinueS => X.ContinueS
    case ReturnS(e) => X.ReturnS(NormE(e))
    case ThrowS(e) => X.ThrowS(NormE(e))
    case TryCatch(b, exc, handler, fin) => X.TryCatch(NormB(b, false), exc, NormB(handler, false), NormO(fin))
    case TryFinally(b, exc, fin) => X.TryFinally(NormB(b, false), exc, NormB(fin, false))
  }

  // ----- which functions need an arguments array -----

  predicate MarksE(e: R.Expr) {
    match e
    case Un(_, a) => MarksE(a)
    case Bin(_, l, r) => MarksE(l) || MarksE(r)
    case And(l, r) => MarksE(l) || MarksE(r)
    case Or(l, r) => MarksE(l) || MarksE(r)
    case Ternary(c, t, f) => MarksE(c) || MarksE(t) || MarksE(f)
    case Assign(_, a) => MarksE(a)
    case Call(f, args) => MarksE(f) || MarksArgs(args)
    case Arguments => true
    case Length(a) => MarksE(a)
    case Dollar(_) => true
    case _ => false
  }

  predicate MarksArgs(es: R.Exprs) {
    match es
    case NoExprs => false
    case MoreExprs(e, t) => MarksE(e) || MarksArgs(t)
  }

  /** Defaults need `arguments` themselves; mentions inside inner functions do not count. */
  predicate MarksF(f: R.Func) {
    f.defaults.MoreExprs? || MarksB(f.body)
  }

  /** Statements after one that leaves the block are never looked at. */
  predicate MarksB(b: R.Stmts) {
    match b
    case NoStmts => false
    case MoreStmts(s, t) =>
      MarksS(s) || (!(s.ReturnS? || s.BreakS? || s.ContinueS? || s.ThrowS?) && MarksB(t))
  }

  predicate MarksO(b: Option<R.Stmts>) {
    match b
    case None => false
    case Some(ss) => MarksB(ss)
  }

  predicate MarksC(cases: R.Cases) {
    match cases
    case NoCases => false
    case MoreCases(conds, b, rest) => MarksArgs(conds) || MarksB(b) || MarksC(rest)
  }

  predicate MarksS(s: R.Stmt) {
    match s
    case Do(e) => MarksE(e)
    case Declare(_, _, e) => MarksE(e)
    case Define(_, _) => false
    case Block(b) => MarksB(b)
    case If(c, t) => MarksE(c) || MarksB(t)
    case IfElse(c, t, f) => MarksE(c) || MarksB(t) || MarksB(f)
    case Unless(c, t) => MarksE(c) || MarksB(t)
    case UnlessElse(c, t, f) => MarksE(c) || MarksB(t) || MarksB(f)
    case While(c, b) => MarksE(c) || MarksB(b)
    case Until(c, b) => MarksE(c) || MarksB(b)
    case DoWhile(b, c) => MarksB(b) || MarksE(c)
    case DoUntil(b, c) => MarksB(b) || MarksE(c)
    case Loop(b) => MarksB(b)
    case Switch(c, cases, otherwise) => MarksE(c) || MarksC(cases) || MarksO(otherwise)
    case BreakS => false
    case ContinueS => false
    case ReturnS(e) => MarksE(e)
    case ThrowS(e) => MarksE(e)
    case TryCatch(b, _, handler, fin) => MarksB(b) || MarksB(handler) || MarksO(fin)
    case TryFinally(b, _, fin) => MarksB(b) || MarksB(fin)
  }

  // ----- the trees it is meant for -----

  /** Folding stays below the length at which the machine's own operator gives up. */
  predicate FoldSafe(op: BinOp, l: R.Expr, r: R.Expr, nl: X.Expr, nr: X.Expr)
    requires Fold(op, l, r, nl, nr).Some?
  {
    if op.Add? then |nl.v.s| == 0 || |nr.v.s| == 0 || |nl.v.s| + |nr.v.s| < MAX_STRING_LENGTH
    else if r.Int? && nl.Lit? && nl.v.Str? then r.n < MAX_STRING_LENGTH
    else l.Int? && l.n < MAX_STRING_LENGTH
  }

  /**
   * Every fold is safe, every function has a default for each optional parameter, and was laid
   * out with an arguments slot exactly if it is going to be marked.
   */
  predicate SoundE(e: R.Expr) {
    match e
    case Un(_, a) => SoundE(a)
    case Bin(op, l, r) =>
      && SoundE(l) && SoundE(r)
      && (Fold(op, l, r, NormE(l), NormE(r)).Some? ==> FoldSafe(op, l, r, NormE(l), NormE(r)))
    case And(l, r) => SoundE(l) && SoundE(r)
    case Or(l, r) => SoundE(l) && SoundE(r)
    case Ternary(c, t, f) => SoundE(c) && SoundE(t) && SoundE(f)
    case Assign(_, a) => SoundE(a)
    case Call(f, args) => SoundE(f) && SoundArgs(args)
    case Fn(f) => SoundF(f)
    case Length(a) => SoundE(a)
    case _ => true
  }

  predicate SoundArgs(es: R.Exprs) {
    match es
    case NoExprs => true
    case MoreExprs(e, t) => SoundE(e) && SoundArgs(t)
  }

  predicate SoundF(f: R.Func) {
    && f.needsArguments == MarksF(f)
    && f.required + R.Count(f.defaults) == f.params
    && SoundArgs(f.defaults) && SoundB(f.body)
  }

  predicate SoundB(b: R.Stmts) {
    match b
    case NoStmts => true
    case MoreStmts(s, t) => SoundS(s) && SoundB(t)
  }

  predicate SoundO(b: Option<R.Stmts>) {
    match b
    case None => true
    case Some(ss) => SoundB(ss)
  }

  predicate SoundC(cases: R.Cases) {
    match cases
    case NoCases => true
    case MoreCases(conds, b, rest) => SoundArgs(conds) && SoundB(b) && SoundC(rest)
  }

  predicate SoundS(s: R.Stmt) {
    match s
    case Do(e) => SoundE(e)
    case Declare(_, _, e) => SoundE(e)
    case Define(_, f) => SoundF(f)
    case Block(b) => SoundB(b)
    case If(c, t) => SoundE(c) && SoundB(t)
    case IfElse(c, t, f) => SoundE(c) && SoundB(t) && SoundB(f)
    case Unless(c, t) => SoundE(c) && SoundB(t)
    case UnlessElse(c, t, f) => SoundE(c) && SoundB(t) && SoundB(f)
    case While(c, b) => SoundE(c) && SoundB(b)
    case Until(c, b) => SoundE(c) && SoundB(b)
    case DoWhile(b, c) => SoundB(b) && SoundE(c)
    case DoUntil(b, c) => SoundB(b) && SoundE(c)
    case Loop(b) => SoundB(b)
    case Switch(c, cases, otherwise) => SoundE(c) && SoundC(cases) && SoundO(otherwise)
    case BreakS => true
    case ContinueS => true
    case ReturnS(e) => SoundE(e)
    case ThrowS(e) => SoundE(e)
    case TryCatch(b, _, handler, fin) => SoundB(b) && SoundB(handler) && SoundO(fin)
    case TryFinally(b, _, fin) => SoundB(b) && SoundB(fin)
  }

  // ----- names -----

  /**
   * Normalising a declaration gives the function it declares a name if it had none, keeps a name it had, and
   * keeps everything else about the function; values of another kind are not touched.
   */
  lemma DeclaredNames(name: string, loc: X.Loc, e: R.Expr)
    ensures NormS(R.Declare(name, loc, e)).Set? && NormS(R.Declare(name, loc, e)).loc == loc
    ensures var v := NormS(R.Declare(name, loc, e)).e;
      if e.Fn? then
        && v.Fn? && v.func.name == (if e.func.name == "" then name else e.func.name)
        && v.func.anonymous == e.func.anonymous && v.func.params == e.func.params
        && v.func.required == e.func.required && v.func.lvarcount == e.func.lvarcount
        && v.func.body == NormF(e.func).body && v.func.needsArguments == NormF(e.func).needsArguments
      else v == NormE(e)
  {
    hide NormB, Prologue, MarksF;
    if e.Fn? {
      assert NormE(e) == X.Fn(NormF(e.func));
      HeaderKept(e.func);
    } else {
      NeverFunction(e);
    }
  }

  lemma HeaderKept(f: R.Func)
    ensures var n := NormF(f);
      n.name == f.name && n.anonymous == f.anonymous && n.params == f.params && n.required == f.required &&
      n.lvarcount == f.lvarcount
  {
    hide NormB, Prologue, MarksF;
  }

  lemma NeverFunction(e: R.Expr)
    requires !e.Fn?
    ensures !NormE(e).Fn?
  {
    hide NormF, Fold;
  }

  // ----- facts about single rewrites -----

  /** The value of a literal operand. */
  function LiteralValue(e: R.Expr): Value {
    if NormE(e).Lit? then NormE(e).v else Null
  }

  lemma MultiplyExact(s: string, n: int)
    requires Multiply(s, n).Some?
    ensures Multiply(s, n) == Some(Str(Times(s, n))) <==> n < MAX_STRING_LENGTH
  {
    if n == 1 {
      assert Repeat(s, 1) == s + Repeat(s, 0) == s;
    }
  }

  lemma ConcatExact(l: string, r: string)
    requires Concat(l, r).Some?
    ensures Concat(l, r) == Some(Str(l + r)) <==> |l| == 0 || |r| == 0 || |l| + |r| < MAX_STRING_LENGTH
  {
    if |l| == 0 {
      assert l + r == r;
    } else if |r| == 0 {
      assert l + r == l;
    }
  }

  /** A fold has the value the machine would compute exactly when it is safe. */
  lemma FoldExact(op: BinOp, l: R.Expr, r: R.Expr)
    requires Fold(op, l, r, NormE(l), NormE(r)).Some?
    requires Binary(op, LiteralValue(l), LiteralValue(r)).Some?
    ensures Binary(op, LiteralValue(l), LiteralValue(r)) == Some(Str(Fold(op, l, r, NormE(l), NormE(r)).value))
       <==> FoldSafe(op, l, r, NormE(l), NormE(r))
  {
    hide Multiply, Concat, Times;
    var a, b := LiteralValue(l), LiteralValue(r);
    if op.Add? {
      ConcatExact(a.s, b.s);
    } else if a.Str? {
      assert Truncate(r.n as real) == r.n;
      MultiplyExact(a.s, r.n);
    } else {
      assert Truncate(l.n as real) == l.n;
      MultiplyExact(b.s, l.n);
    }
  }

  /** `"ab" * 0xffffffff` is null at run time, but becomes a string of that many copies. */
  lemma FoldDiffers(s: string, n: int)
    requires n >= MAX_STRING_LENGTH
    ensures Binary(Mul, Str(s), Num(n as real)) == Some(Null)
    ensures NormE(R.Bin(Mul, R.Lit(Str(s)), R.Int(n))) == X.Lit(Str(Times(s, n)))
  {
    assert Truncate(n as real) == n;
  }

  /** The rewriting of operands never makes or unmakes a negation or a comparison. */
  lemma HeadKept(e: R.Expr)
    ensures NormE(e).Un? <==> e.Un?
    ensures e.Un? ==> NormE(e).uop == e.uop && NormE(e).e == NormE(e.e)
    ensures X.IsComparison(NormE(e)) <==> R.IsComparison(e)
    ensures R.IsComparison(e) ==> NormE(e) == X.Bin(e.op, NormE(e.l), NormE(e.r))
  {
  }

  // ----- the pass -----

  /** A list of statements in front of another. */
  function Link(kept: seq<X.Stmt>, rest: X.Stmts): X.Stmts
    decreases |kept|
  {
    if |kept| == 0 then rest else X.MoreStmts(kept[0], Link(kept[1..], rest))
  }

  lemma {:induction false} LinkMore(kept: seq<X.Stmt>, s: X.Stmt, rest: X.Stmts)
    ensures Link(kept + [s], rest) == Link(kept, X.MoreStmts(s, rest))
    decreases |kept|
  {
    if |kept| == 0 {
      assert [s][1..] == [];
    } else {
      assert (kept + [s])[1..] == kept[1..] + [s];
      LinkMore(kept[1..], s, rest);
    }
  }

  /** The defaults from the `n`th on. */
  function From(es: R.Exprs, n: nat): R.Exprs {
    if n == 0 || es.NoExprs? then es else From(es.tail, n - 1)
  }

  lemma {:induction false} FromStep(es: R.Exprs, n: nat)
    requires n < R.Count(es)
    ensures From(es, n).MoreExprs? && From(es, n).tail == From(es, n + 1)
  {
    if n > 0 {
      FromStep(es.tail, n - 1);
    }
  }

  lemma {:induction false} FromAll(es: R.Exprs)
    ensures From(es, R.Count(es)) == R.NoExprs
  {
    if es.MoreExprs? {
      FromAll(es.tail);
    }
  }

  lemma {:induction false} AppendTimes(s: string, n: nat)
    ensures Repeat(s, n + 1) == Repeat(s, n) + s
  {
    if n > 0 {
      AppendTimes(s, n - 1);
      assert Repeat(s, n + 1) == s + Repeat(s, n);
      assert s + (Repeat(s, n - 1) + s) == (s + Repeat(s, n - 1)) + s;
    } else {
      assert Repeat(s, 1) == s + Repeat(s, 0) == s;
    }
  }

  /** Rewrites a tree. `marked` says whether the function being visited mentions its arguments. */
  class Normalizer {
    var marked: bool

    constructor ()
      ensures !marked
    {
      marked := false;
    }

    /** Appends copies of a literal to itself. */
    method Multiplied(s: string, n: int) returns (value: string)
      ensures value == Times(s, n)
    {
      if n <= 0 { return ""; }
      value := s;
      assert Repeat(s, 1) == s + Repeat(s, 0) == s;
      for i := 1 to n
        invariant value == Repeat(s, i)
      {
        AppendTimes(s, i);
        value := value + s;
      }
    }

    method VisitExpr(e: R.Expr) returns (n: X.Expr)
      modifies this`marked
      ensures n == NormE(e) && marked == (old(marked) || MarksE(e))
      decreases e, 1
    {
      hide NormF;
      match e
      case Lit(v) => n := X.Lit(v);
      case Int(i) => n := X.Lit(Num(i as real));
      case Var(loc) => n := X.Var(loc);
      case Un(op, a) =>
        n := VisitExpr(a);
        n := X.Un(op, n);
      case Bin(_, _, _) => n := VisitBinary(e);
      case And(l, r) =>
        n := VisitExpr(l);
        var m := VisitExpr(r);
        n := X.And(n, m);
      case Or(l, r) =>
        n := VisitExpr(l);
        var m := VisitExpr(r);
        n := X.Or(n, m);
      case Ternary(c, t, f) =>
        var nc := VisitExpr(c);
        var nt := VisitExpr(t);
        var nf := VisitExpr(f);
        n := X.Ternary(nc, nt, nf);
      case Assign(loc, a) =>
        n := VisitExpr(a);
        n := X.Assign(loc, n);
      case Call(f, args) =>
        n := VisitExpr(f);
        var ns := VisitExprs(args);
        n := X.Call(n, ns);
      case Fn(f) =>
        var nf := VisitFunction(f);
        n := X.Fn(nf);
      case Arguments =>
        marked := true;
        n := X.Var(X.Loc(0, 0));
      case Length(a) =>
        n := VisitExpr(a);
        n := X.Length(n);
      case Dollar(i) =>
        marked := true;
        n := X.ArgAt(i, 0);
    }

    /** Folds string literals; everything else is only descended into. */
    method VisitBinary(e: R.Expr) returns (n: X.Expr)
      requires e.Bin?
      modifies this`marked
      ensures n == NormE(e) && marked == (old(marked) || MarksE(e))
      decreases e, 0
    {
      var left := VisitExpr(e.l);
      var right := VisitExpr(e.r);
      n := X.Bin(e.op, left, right);
      hide Times, Repeat;
      if e.op.Add? {
        if left.Lit? && left.v.Str? && right.Lit? && right.v.Str? {
          n := X.Lit(Str(left.v.s + right.v.s));
        }
      } else if e.op.Mul? {
        if left.Lit? && left.v.Str? && e.r.Int? {
          var value := Multiplied(left.v.s, e.r.n);
          n := X.Lit(Str(value));
        } else if e.l.Int? && right.Lit? && right.v.Str? {
          var value := Multiplied(right.v.s, e.l.n);
          n := X.Lit(Str(value));
        }
      }
    }

    method VisitExprs(es: R.Exprs) returns (ns: X.Exprs)
      modifies this`marked
      ensures ns == NormArgs(es) && marked == (old(marked) || MarksArgs(es))
      decreases es, 1
    {
      hide NormE;
      match es
      case NoExprs => ns := X.NoExprs;
      case MoreExprs(e, t) =>
        var n := VisitExpr(e);
        var rest := VisitExprs(t);
        ns := X.MoreExprs(n, rest);
    }

    /** Visits a body under a flag of its own, then puts the default values in front of it. */
    method VisitFunction(f: R.Func) returns (n: X.Func)
      modifies this`marked
      ensures n == NormF(f) && marked == old(marked)
      decreases f, 1
    {
      hide NormB, NormArgs;
      var backup := marked;
      marked := false;
      var body := VisitBlock(f.body, true);
      body := AddDefaults(f, body);
      n := X.Func(f.name, f.anonymous, marked, f.params, f.required, f.lvarcount, body);
      marked := backup;
    }

    /** Prepends `if arguments.length <= i { parameter = default }`, last parameter first. */
    method AddDefaults(f: R.Func, body: X.Stmts) returns (all: X.Stmts)
      modifies this`marked
      ensures all == Prologue(f.required, f.defaults, body)
      ensures marked == (old(marked) || f.defaults.MoreExprs?)
      decreases f, 0
    {
      hide NormE;
      all := body;
      if f.defaults.MoreExprs? {
        var values := VisitExprs(f.defaults);
        var count := R.Count(f.defaults);
        var i := count;
        FromAll(f.defaults);
        while i > 0
          invariant i <= count
          invariant all == Prologue(f.required + i, From(f.defaults, i), body)
        {
          i := i - 1;
          FromStep(f.defaults, i);
          var value := Nth(f.defaults, values, i);
          all := if f.required + i + 1 < UINT32_RANGE then X.MoreStmts(DefaultOf(f.required + i, value), all) else body;
        }
        marked := true;
      }
    }

    static method Nth(es: R.Exprs, values: X.Exprs, i: nat) returns (value: X.Expr)
      requires i < R.Count(es) && values == NormArgs(es)
      ensures From(es, i).MoreExprs? && value == NormE(From(es, i).head)
    {
      hide NormE;
      FromStep(es, i);
      var rest := values;
      for j := 0 to i
        invariant rest == NormArgs(From(es, j))
      {
        FromStep(es, j);
        rest := rest.tail;
      }
      value := rest.head;
    }

    /**
     * Keeps the statements that can have an effect, up to the first that leaves the block. The
     * last expression of a function's body becomes its result.
     */
    method VisitBlock(b: R.Stmts, closing: bool) returns (n: X.Stmts)
      modifies this`marked
      ensures n == NormB(b, closing) && marked == (old(marked) || MarksB(b))
      decreases b, 1
    {
      var rest := b;
      var kept: seq<X.Stmt> := [];
      var end := if closing then ReturnNull() else X.NoStmts;
      while rest.MoreStmts?
        invariant rest == b || rest < b
        invariant Link(kept, NormB(rest, closing)) == NormB(b, closing)
        invariant (marked || MarksB(rest)) == (old(marked) || MarksB(b))
        invariant end == if closing then ReturnNull() else X.NoStmts
        decreases rest
      {
        hide NormE, NormS, MarksE, MarksS, NormF;
        var s := rest.head;
        if closing && rest.tail.NoStmts? && (s.Do? || s.Define?) {
          if s.Do? {
            var e := VisitExpr(s.e);
            end := One(X.ReturnS(e));
          } else {
            var f := VisitFunction(s.func);
            end := One(X.ReturnS(X.Fn(f)));
          }
          MarksBare(s);
          n := Link(kept, end);
          return;
        }
        var visited := VisitStmt(s);
        MarksBare(s);
        if s.Do? { NormBare(s); }
        TerminatesKept(s);
        if s.Do? && visited.Do? && IsLiteral(visited.e) {
          rest := rest.tail;
        } else {
          LinkMore(kept, visited, if Terminates(visited) then X.NoStmts else NormB(rest.tail, closing));
          kept := kept + [visited];
          if Terminates(visited) {
            n := Link(kept, X.NoStmts);
            return;
          }
          rest := rest.tail;
        }
      }
      n := Link(kept, end);
    }

    method VisitOptional(b: Option<R.Stmts>) returns (n: Option<X.Stmts>)
      modifies this`marked
      ensures n == NormO(b) && marked == (old(marked) || MarksO(b))
      decreases b, 1
    {
      hide NormB, MarksB;
      match b
      case None => n := None;
      case Some(ss) =>
        var nb := VisitBlock(ss, false);
        n := Some(nb);
    }

    method VisitCases(cases: R.Cases) returns (n: X.Cases)
      modifies this`marked
      ensures n == NormC(cases) && marked == (old(marked) || MarksC(cases))
      decreases cases, 1
    {
      hide NormB, MarksB, NormArgs, MarksArgs;
      match cases
      case NoCases => n := X.NoCases;
      case MoreCases(conds, b, rest) =>
        var nc := VisitExprs(conds);
        var nb := VisitBlock(b, false);
        var nr := VisitCases(rest);
        n := X.MoreCases(nc, nb, nr);
    }

    method VisitStmt(s: R.Stmt) returns (n: X.Stmt)
      modifies this`marked
      ensures n == NormS(s) && marked == (old(marked) || MarksS(s))
      decreases s, 1
    {
      hide NormB, MarksB, NormE, MarksE, NormF, NormC, MarksC, NormO, MarksO;
      match s
      case Do(e) =>
        var ne := VisitExpr(e);
        n := AsStatement(ne);
      case Declare(name, loc, e) =>
        var ne := VisitExpr(e);
        n := X.Set(loc, Named(name, ne));
      case Define(loc, f) =>
        var nf := VisitFunction(f);
        n := X.Set(loc, X.Fn(nf));
      case Block(b) =>
        var nb := VisitBlock(b, false);
        n := X.Block(nb);
      case If(_, _) => n := VisitConditional(s);
      case IfElse(_, _, _) => n := VisitConditional(s);
      case Unless(_, _) => n := VisitConditional(s);
      case UnlessElse(_, _, _) => n := VisitConditional(s);
      case While(c, b) =>
        var nc := VisitExpr(c);
        var nb := VisitBlock(b, false);
        n := X.While(nc, nb);
      case Until(c, b) =>
        var nc := VisitExpr(c);
        var nb := VisitBlock(b, false);
        n := X.Until(nc, nb);
      case DoWhile(b, c) =>
        var nb := VisitBlock(b, false);
        var nc := VisitExpr(c);
        n := X.DoWhile(nb, nc);
      case DoUntil(b, c) =>
        var nb := VisitBlock(b, false);
        var nc := VisitExpr(c);
        n := X.DoUntil(nb, nc);
      case Loop(b) =>
        var nb := VisitBlock(b, false);
        n := X.Loop(nb);
      case Switch(c, cases, otherwise) =>
        var nc := VisitExpr(c);
        var ncs := VisitCases(cases);
        var no := VisitOptional(otherwise);
        n := X.Switch(nc, ncs, no);
      case BreakS => n := X.BreakS;
      case ContinueS => n := X.ContinueS;
      case ReturnS(e) =>
        var ne := VisitExpr(e);
        n := X.ReturnS(ne);
      case ThrowS(e) =>
        var ne := VisitExpr(e);
        n := X.ThrowS(ne);
      case TryCatch(b, exc, handler, fin) =>
        var nb := VisitBlock(b, false);
        var nh := VisitBlock(handler, false);
        var nf := VisitOptional(fin);
        n := X.TryCatch(nb, exc, nh, nf);
      case TryFinally(b, exc, fin) =>
        var nb := VisitBlock(b, false);
        var nf := VisitBlock(fin, false);
        n := X.TryFinally(nb, exc, nf);
    }

    /** A condition that is a negation loses it, and the statement changes its sense. */
    method VisitConditional(s: R.Stmt) returns (n: X.Stmt)
      requires s.If? || s.IfElse? || s.Unless? || s.UnlessElse?
      modifies this`marked
      ensures n == NormS(s) && marked == (old(marked) || MarksS(s))
      decreases s, 0
    {
      hide NormB, MarksB, NormE, MarksE;
      var c := VisitExpr(s.c);
      var t := VisitBlock(s.t, false);
      var not := c.Un? && c.uop.UNot?;
      match s
      case If(_, _) => n := if not then X.Unless(c.e, t) else X.If(c, t);
      case Unless(_, _) => n := if not then X.If(c.e, t) else X.Unless(c, t);
      case IfElse(_, _, f) =>
        var nf := VisitBlock(f, false);
        n := if not then X.UnlessElse(c.e, t, nf) else X.IfElse(c, t, nf);
      case UnlessElse(_, _, f) =>
        var nf := VisitBlock(f, false);
        n := if not then X.IfElse(c.e, t, nf) else X.UnlessElse(c, t, nf);
    }
  }

  lemma MarksBare(s: R.Stmt)
    ensures s.Do? ==> MarksS(s) == MarksE(s.e)
    ensures s.Define? ==> !MarksS(s)
  {
    hide MarksE;
  }

  lemma NormBare(s: R.Stmt)
    requires s.Do?
    ensures NormS(s) == AsStatement(NormE(s.e))
  {
    hide NormE;
  }

  lemma TerminatesKept(s: R.Stmt)
    ensures Terminates(NormS(s)) <==> s.ReturnS? || s.BreakS? || s.ContinueS? || s.ThrowS?
  {
    hide NormE, NormB, NormO, NormC;
  }
}
