/** The back end end to end: generate code, then run it. */
module Pipeline {
  import opened Values
  import opened Syntax
  import opened Bytecode
  import opened Layout
  import opened Semantics
  import opened VirtualMachine
  import opened Relation
  import opened CodeGeneration
  import opened Correctness
  import opened Normalising
  import opened NormalMeaning
  import R = Source

  /** Running `code` ends the way evaluating the unit `s` ends. */
  ghost predicate Agrees(code: seq<Cell>, s: Stmt, locals: seq<Value>, k: nat) {
    var r := Exec(Direct, s, 0, BootState(locals), k);
    (r.Return? || r.Throw?) ==> exists n: nat :: EndsAs(r, Steps(code, Boot(locals), n))
  }

  lemma AgreesBecause(c: Program, s: Stmt, locals: seq<Value>, k: nat)
    requires BodiesLaid(c) && LayS(c, s, 0, -1, -1)
    ensures Agrees(c.code, s, locals, k)
  {
    hide Fetch, Step, Steps, Exec, LayS, BodiesLaid, EndsAs, Boot, BootState;
    var r := Exec(Direct, s, 0, BootState(locals), k);
    if r.Return? || r.Throw? {
      var n := ProgramEnds(c, s, locals, k);
    }
  }

  /** Whatever the unit does, running `code` does it: ends the same way, or runs on for ever. */
  ghost predicate Follows(code: seq<Cell>, s: Stmt, locals: seq<Value>) {
    && (forall k: nat :: Agrees(code, s, locals, k))
    && ((forall k: nat :: Exec(Direct, s, 0, BootState(locals), k).Timeout?) ==> RunsOn(code, locals))
    && (s.ReturnS? && InFragment(s, locals) ==> StaysHealthy(code, locals))
  }

  ghost predicate RunsOn(code: seq<Cell>, locals: seq<Value>) {
    forall n: nat :: Steps(code, Boot(locals), n).status.Running?
  }

  ghost predicate StaysHealthy(code: seq<Cell>, locals: seq<Value>) {
    forall n: nat :: Healthy(Steps(code, Boot(locals), n))
  }

  lemma FollowsBecause(c: Program, s: Stmt, locals: seq<Value>)
    requires BodiesLaid(c) && LayS(c, s, 0, -1, -1)
    ensures Follows(c.code, s, locals)
  {
    hide Fetch, Step, Steps, Exec, LayS, BodiesLaid, Agrees, Healthy, InFragment, Boot, BootState, Live;
    forall k: nat ensures Agrees(c.code, s, locals, k) {
      AgreesBecause(c, s, locals, k);
    }
    if forall k: nat :: Exec(Direct, s, 0, BootState(locals), k).Timeout? {
      forall n: nat ensures Steps(c.code, Boot(locals), n).status.Running? {
        BootLive(c, locals);
        BootAddress(locals);
        Diverges(c, s, 0, -1, -1, 0, BootState(locals), Boot(locals), n);
      }
    }
    if s.ReturnS? && InFragment(s, locals) {
      forall n: nat ensures Healthy(Steps(c.code, Boot(locals), n)) {
        NeverCorrupted(c, s, locals, n);
      }
    }
  }

  lemma BootAddress(locals: seq<Value>)
    ensures Boot(locals).ip == 0
  {
  }

  /** Running `code` finishes with just `v` on the stack. */
  ghost predicate FinishesWith(code: seq<Cell>, locals: seq<Value>, v: Value) {
    exists n: nat :: FinishedWith(Steps(code, Boot(locals), n), v)
  }

  predicate FinishedWith(m: Machine, v: Value) {
    m.status.Finished? && m.stack == [v]
  }

  /** The code of `return l op r`, for two literals. */
  function OnLiterals(op: BinOp, l: Value, r: Value): Stmt {
    ReturnS(Bin(op, Lit(l), Lit(r)))
  }

  lemma FinishesWithResult(code: seq<Cell>, op: BinOp, l: Value, r: Value, locals: seq<Value>)
    requires Follows(code, OnLiterals(op, l, r), locals) && Binary(op, l, r).Some?
    ensures FinishesWith(code, locals, Binary(op, l, r).value)
  {
    hide Steps, Boot, BootState, Binary;
    var s, st := OnLiterals(op, l, r), BootState(locals);
    assert Eval(Direct, Lit(l), 0, st, 0) == Val(l, st) && Eval(Direct, Lit(r), 0, st, 0) == Val(r, st);
    assert Eval(Direct, s.e, 0, st, 0) == Val(Binary(op, l, r).value, st);
    assert Exec(Direct, s, 0, st, 0) == Return(Binary(op, l, r).value, st);
    assert Agrees(code, s, locals, 0);
    var n: nat :| EndsAs(Exec(Direct, s, 0, st, 0), Steps(code, Boot(locals), n));
    assert FinishedWith(Steps(code, Boot(locals), n), Binary(op, l, r).value);
  }

  /**
   * The generated bytes compute: a sum finishes with the number that exceeds one operand by the other, a
   * difference with the number that makes up the second operand to the first, a product with the product.
   */
  lemma Computes(code: seq<Cell>, op: BinOp, x: real, y: real, z: real, locals: seq<Value>)
    requires Follows(code, OnLiterals(op, Num(x), Num(y)), locals)
    requires (op.Add? && z - y == x) || (op.Sub? && z + y == x) || (op.Mul? && z == x * y)
    ensures FinishesWith(code, locals, Num(z))
  {
    hide Follows, FinishesWith;
    FinishesWithResult(code, op, Num(x), Num(y), locals);
    assert Binary(op, Num(x), Num(y)).value == Num(z);
  }

  /** And they compare. */
  lemma Decides(code: seq<Cell>, op: BinOp, x: real, y: real, b: bool, locals: seq<Value>)
    requires Follows(code, OnLiterals(op, Num(x), Num(y)), locals)
    requires match op
      case Lt => b == (x < y)
      case Gt => b == (x > y)
      case Le => b == (x <= y)
      case Ge => b == (x >= y)
      case Eq => b == (x == y)
      case Neq => b == (x != y)
      case _ => false
    ensures FinishesWith(code, locals, Bool(b))
  {
    hide Follows, FinishesWith;
    FinishesWithResult(code, op, Num(x), Num(y), locals);
  }

  /**
   * Compiles a unit. The bytes mean what the source means: for every start state, whenever
   * evaluating the unit ends, running the bytes ends the same way; if it never ends, neither does
   * the machine; and a unit that returns never leaves the machine corrupted on its way.
   */
  method CompileUnit(s: Stmt) returns (block: Option<seq<Cell>>)
    ensures block.Some? ==> Closed(s, false, false)
    ensures Closed(s, false, false) && NoStrays(s) ==> block.Some?
    ensures block.Some? && |block.value| < INT32_LIMIT ==> forall locals :: Follows(block.value, s, locals)
  {
    hide *;
    var generator := new CodeGenerator(FunsS(s, 0));
    assert generator.Idle() by { Fresh(generator); }
    var ok := generator.Compile(s);
    assert NoStrays(s) ==> FunsS(s, FunsS(s, 0)) == FunsS(s, 0) by { SameCount(s, FunsS(s, 0)); }
    if !ok { return None; }
    var code := generator.assembler.buffer;
    block := Some(code);
    if |code| < INT32_LIMIT {
      ghost var c := Program(code, generator.bodies);
      forall locals ensures Follows(code, s, locals) {
        FollowsBecause(c, s, locals);
      }
    }
  }

  // ----- from the source language on -----

  predicate ReturnsLike(v: Value, m: Machine) {
    m.status.Finished? && |m.stack| == 1 && (Plain(v) ==> m.stack[0] == v) && (Plain(m.stack[0]) ==> m.stack[0] == v)
  }

  /** Running `code` ends the way the source unit `s` ends, with the same plain value. */
  ghost predicate Implements(code: seq<Cell>, s: R.Stmt, locals: seq<Value>, k: nat) {
    match R.Exec(s, 0, Start(locals), k)
    case Return(v, _) => exists n: nat :: ReturnsLike(v, Steps(code, Boot(locals), n))
    case Throw(_, _) => exists n: nat :: Steps(code, Boot(locals), n).status == Panic(CatchStackEmpty)
    case _ => true
  }

  /** Whatever the source unit does, running `code` does it. */
  ghost predicate Realises(code: seq<Cell>, s: R.Stmt, locals: seq<Value>) {
    && (forall k: nat :: Implements(code, s, locals, k))
    && ((forall k: nat :: R.Exec(s, 0, Start(locals), k).Timeout?) ==> RunsOn(code, locals))
    && (s.ReturnS? && (forall k: nat :: !R.Exec(s, 0, Start(locals), k).Stuck?) ==> StaysHealthy(code, locals))
  }

  ghost predicate PlainStart(locals: seq<Value>) {
    forall i :: 0 <= i < |locals| ==> Plain(locals[i])
  }

  lemma ImplementsBecause(code: seq<Cell>, s: R.Stmt, locals: seq<Value>, k: nat)
    requires SoundS(s) && PlainStart(locals) && Agrees(code, NormS(s), locals, k)
    ensures Implements(code, s, locals, k)
  {
    hide R.Exec, Exec, NormS, SoundS, Fetch, Step, Steps;
    var r := R.Exec(s, 0, Start(locals), k);
    if r.Return? || r.Throw? {
      NormalisingKeepsMeaning(s, locals, k);
      var q := Exec(Direct, NormS(s), 0, BootState(locals), k);
      var n: nat :| EndsAs(q, Steps(code, Boot(locals), n));
      if r.Return? {
        assert ReturnsLike(r.v, Steps(code, Boot(locals), n));
      }
    }
  }

  lemma RealisesBecause(code: seq<Cell>, s: R.Stmt, locals: seq<Value>)
    requires SoundS(s) && PlainStart(locals) && Follows(code, NormS(s), locals)
    ensures Realises(code, s, locals)
  {
    hide R.Exec, Exec, NormS, SoundS, Fetch, Step, Steps, RunsOn, StaysHealthy, Implements, Agrees;
    forall k: nat ensures Implements(code, s, locals, k) {
      ImplementsBecause(code, s, locals, k);
    }
    if forall k: nat :: R.Exec(s, 0, Start(locals), k).Timeout? {
      forall k: nat ensures Exec(Direct, NormS(s), 0, BootState(locals), k).Timeout? {
        NormalisingKeepsMeaning(s, locals, k);
      }
    }
    if s.ReturnS? && (forall k: nat :: !R.Exec(s, 0, Start(locals), k).Stuck?) {
      forall k: nat ensures !Exec(Direct, NormS(s), 0, BootState(locals), k).Stuck? {
        NormalisingKeepsMeaning(s, locals, k);
      }
      ReturnKept(s);
    }
  }

  lemma ReturnKept(s: R.Stmt)
    requires s.ReturnS?
    ensures NormS(s).ReturnS?
  {
  }

  /** The source unit `return x op y`, for two integer literals. */
  function OnIntegers(op: BinOp, x: int, y: int): R.Stmt {
    R.ReturnS(R.Bin(op, R.Int(x), R.Int(y)))
  }

  /** So from the source on: the bytes of `return 5 - 3` finish with 2. */
  lemma SourceComputes(code: seq<Cell>, op: BinOp, x: int, y: int, z: int, locals: seq<Value>)
    requires Realises(code, OnIntegers(op, x, y), locals)
    requires (op.Add? && z - y == x) || (op.Sub? && z + y == x) || (op.Mul? && z == x * y)
    ensures FinishesWith(code, locals, Num(z as real))
  {
    hide Steps, Boot, Binary;
    var s, st := OnIntegers(op, x, y), Start(locals);
    IntegerResult(op, x, y, z);
    assert R.Eval(R.Int(x), 0, st, 0) == R.Val(Num(x as real), st);
    assert R.Eval(R.Int(y), 0, st, 0) == R.Val(Num(y as real), st);
    assert R.Eval(s.e, 0, st, 0) == R.Val(Num(z as real), st);
    assert R.Exec(s, 0, st, 0) == R.Return(Num(z as real), st);
    assert Implements(code, s, locals, 0);
    var n: nat :| ReturnsLike(Num(z as real), Steps(code, Boot(locals), n));
    assert FinishedWith(Steps(code, Boot(locals), n), Num(z as real));
  }

  /** Such a unit is one that compiles, and that compiling keeps the meaning of. */
  lemma IntegersCompile(op: BinOp, x: int, y: int)
    ensures var s := OnIntegers(op, x, y); SoundS(s) && Closed(NormS(s), false, false) && NoStrays(NormS(s))
  {
    var a, b := Lit(Num(x as real)), Lit(Num(y as real));
    assert NormE(R.Int(x)) == a && NormE(R.Int(y)) == b;
    assert SoundE(R.Int(x)) && SoundE(R.Int(y));
    assert NormE(R.Bin(op, R.Int(x), R.Int(y))) == Bin(op, a, b);
    assert SoundE(R.Bin(op, R.Int(x), R.Int(y)));
    assert NormS(OnIntegers(op, x, y)) == ReturnS(Bin(op, a, b));
    forall k: nat ensures FunsS(ReturnS(Bin(op, a, b)), k) == 0 {
      assert FunsE(a, k) == 0 && FunsE(b, k) == 0;
      assert FunsE(Bin(op, a, b), k) == 0;
    }
  }

  lemma IntegerResult(op: BinOp, x: int, y: int, z: int)
    requires (op.Add? && z - y == x) || (op.Sub? && z + y == x) || (op.Mul? && z == x * y)
    ensures Binary(op, Num(x as real), Num(y as real)) == Some(Num(z as real))
  {
    if op.Mul? {
      ProductResult(op, x, y);
    } else if op.Add? {
      assert z as real == x as real + y as real;
    } else {
      assert z as real == x as real - y as real;
    }
  }

  lemma ProductResult(op: BinOp, x: int, y: int)
    requires op.Mul?
    ensures Binary(op, Num(x as real), Num(y as real)) == Some(Num((x * y) as real))
  {
    ProductOfIntegers(x, y);
    Product(op, x as real, y as real, (x * y) as real);
  }

  lemma Product(op: BinOp, a: real, b: real, p: real)
    requires op.Mul? && p == a * b
    ensures Binary(op, Num(a), Num(b)) == Some(Num(p))
  {
    assert Binary(op, Num(a), Num(b)).value == Num(p);
  }

  lemma {:induction false} ProductOfIntegers(x: int, y: int)
    ensures (x * y) as real == x as real * y as real
    decreases if x < 0 then -x else x
  {
    if x > 0 {
      ProductOfIntegers(x - 1, y);
      assert x * y == (x - 1) * y + y;
      assert (x - 1) as real * y as real == x as real * y as real - y as real;
    } else if x < 0 {
      ProductOfIntegers(x + 1, y);
      assert x * y == (x + 1) * y - y;
      assert (x + 1) as real * y as real == x as real * y as real + y as real;
    }
  }

  /**
   * The compiler from the parsed unit to bytes: normalise, then generate. For every start state
   * the machine does what the source unit does: it ends the same way, or it never ends either; and
   * a unit that is a return, as the compiler's wrapping makes it, never corrupts the machine.
   */
  method CompileSource(s: R.Stmt) returns (block: Option<seq<Cell>>)
    ensures block.Some? ==> Closed(NormS(s), false, false)
    ensures Closed(NormS(s), false, false) && NoStrays(NormS(s)) ==> block.Some?
    ensures block.Some? && |block.value| < INT32_LIMIT && SoundS(s) ==>
      forall locals :: PlainStart(locals) ==> Realises(block.value, s, locals)
  {
    hide *;
    var normalizer := new Normalizer();
    var unit := normalizer.VisitStmt(s);
    block := CompileUnit(unit);
    if block.Some? && |block.value| < INT32_LIMIT && SoundS(s) {
      forall locals: seq<Value> | PlainStart(locals) ensures Realises(block.value, s, locals) {
        RealisesBecause(block.value, s, locals);
      }
    }
  }

  lemma SameCount(s: Stmt, x: nat)
    ensures NoStrays(s) ==> FunsS(s, x) == FunsS(s, 0)
  {
    hide FunsS;
  }

  lemma Fresh(g: CodeGenerator)
    requires g.Valid() && g.visiting == 0 && g.open == {} && g.breakStack == [] && g.continueStack == []
    ensures g.Idle()
  {
  }
}
