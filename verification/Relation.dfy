/** The relation between evaluator states and machine states, and how machine runs compose. */
module Relation {
  import opened Values
  import opened Syntax
  import opened Bytecode
  import opened Layout
  import opened Semantics
  import opened VirtualMachine

  /** A function object stands for the closure whose body it points to. */
  ghost predicate SameFunction(c: Program, clo: Closure, f: Function) {
    f.body in c.funs && c.funs[f.body] == clo.f && f.context == clo.env &&
    f.argc == clo.f.params && f.minimum == clo.f.required && f.lvarcount == clo.f.lvarcount &&
    f.needsArguments == clo.f.needsArguments
  }

  /** Both heaps hold the same activations, closures and arrays; frame chains are acyclic. */
  ghost predicate Rel(c: Program, st: State, h: Heap) {
    && |h.frames| == |st.acts|
    && (forall i :: 0 <= i < |h.frames| ==>
          h.frames[i].env == st.acts[i].env && h.frames[i].locals == st.acts[i].locals)
    && |h.funcs| == |st.clos|
    && (forall i :: 0 <= i < |h.funcs| ==> SameFunction(c, st.clos[i], h.funcs[i]))
    && h.arrs == st.arrs
    && (forall i :: 0 <= i < |h.frames| && h.frames[i].parent.Some? ==> h.frames[i].parent.value < i)
  }

  /** Frames are only added, and the links of existing frames never change. */
  ghost predicate Grown(a: seq<Frame>, b: seq<Frame>) {
    |a| <= |b| && forall i :: 0 <= i < |a| ==>
      b[i].parent == a[i].parent && b[i].env == a[i].env && b[i].catches == a[i].catches && b[i].origin == a[i].origin
  }

  predicate OnChain(frames: seq<Frame>, from: Option<nat>, target: nat) {
    WalkTo(frames, from, target) == Some(target)
  }

  /**
   * Every table can be restored: its frame is on the chain and the stack is at least as
   * deep as when it was registered, for this table and all tables below it.
   */
  ghost predicate CatchesOK(frames: seq<Frame>, cur: Option<nat>, size: nat, ts: seq<Table>)
    decreases |ts|
  {
    |ts| == 0 ||
    (var t := ts[|ts| - 1];
     t.size <= size && OnChain(frames, cur, t.frame) && CatchesOK(frames, Some(t.frame), t.size, ts[..|ts| - 1]))
  }

  /** Handlers begin by storing the exception. */
  ghost predicate Handlers(c: Program, ts: seq<Table>) {
    forall i :: 0 <= i < |ts| ==> StoresFirst(c, ts[i].address)
  }

  predicate StoresFirst(c: Program, p: int) {
    match Fetch(c.code, p)
    case Some(SetLocal(_, _)) => true
    case _ => false
  }

  /** The machine runs activation `cur` on the state `st`. */
  ghost predicate Live(c: Program, cur: nat, st: State, m: Machine) {
    m.status.Running? && m.cur == Some(cur) && cur < |m.heap.frames| && Rel(c, st, m.heap) &&
    CatchesOK(m.heap.frames, m.cur, |m.stack|, m.catches) && Handlers(c, m.catches)
  }

  ghost predicate Kept(m: Machine, m': Machine) {
    m'.status.Running? && m'.cur == m.cur && m'.catches == m.catches && Grown(m.heap.frames, m'.heap.frames)
  }

  /** The exception `v` reached the handler on top of `m`'s catch stack, or there is none. */
  ghost predicate Landed(m: Machine, v: Value, m': Machine) {
    if |m.catches| == 0 then m'.status == Panic(CatchStackEmpty)
    else
      var t := m.catches[|m.catches| - 1];
      m'.status.Running? && m'.ip == t.address && m'.cur == Some(t.frame) &&
      m'.catches == m.catches[..|m.catches| - 1] && t.size <= |m.stack| &&
      m'.stack == m.stack[..t.size] + [v] && Grown(m.heap.frames, m'.heap.frames)
  }

  /**
   * `n` steps take `m` to `m'`, and `m'` is what the evaluator's result `r` asks for:
   * code ends at `end`, breaks at `brk`, continues at `cnt`. An evaluation that ran out
   * of fuel `k` corresponds to a machine that is still running after `k` steps.
   */
  ghost predicate Sim(c: Program, m: Machine, r: Res, n: nat, m': Machine, end: int, brk: int, cnt: int, k: nat) {
    match r
    case Stuck => true
    case Timeout => Steps(c.code, m, n) == m' && n >= k && m'.status.Running?
    case Val(v, st) =>
      Steps(c.code, m, n) == m' && Kept(m, m') && m'.ip == end && m'.stack == m.stack + [v] && Rel(c, st, m'.heap)
    case Next(st) =>
      Steps(c.code, m, n) == m' && Kept(m, m') && m'.ip == end && m'.stack == m.stack && Rel(c, st, m'.heap)
    case Break(st) =>
      Steps(c.code, m, n) == m' && Kept(m, m') && m'.ip == brk && m'.stack == m.stack && Rel(c, st, m'.heap)
    case Continue(st) =>
      Steps(c.code, m, n) == m' && Kept(m, m') && m'.ip == cnt && m'.stack == m.stack && Rel(c, st, m'.heap)
    case Return(v, st) =>
      Steps(c.code, m, n) == m' && m'.status.Running? && m'.cur == m.cur && Grown(m.heap.frames, m'.heap.frames) &&
      Fetch(c.code, m'.ip) == Some(ReturnOp) && m'.stack == m.stack + [v] && Rel(c, st, m'.heap)
    case Throw(v, st) =>
      Steps(c.code, m, n) == m' && Landed(m, v, m') && (|m.catches| > 0 ==> Rel(c, st, m'.heap))
  }

  /** `n` steps lead from `m` to `m1` in the same activation, with nothing taken off `m`'s stack. */
  ghost predicate Via(c: Program, m: Machine, n: nat, m1: Machine) {
    Steps(c.code, m, n) == m1 && Kept(m, m1) && m.stack <= m1.stack &&
    CatchesOK(m.heap.frames, m.cur, |m.stack|, m.catches) && Handlers(c, m.catches)
  }

  lemma WalkGrown(a: seq<Frame>, b: seq<Frame>, from: Option<nat>, target: nat)
    requires Grown(a, b) && OnChain(a, from, target)
    ensures OnChain(b, from, target)
    decreases if from.Some? then from.value + 1 else 0
  {
    if from.value != target {
      WalkGrown(a, b, a[from.value].parent, target);
    }
  }

  lemma CatchesGrown(a: seq<Frame>, b: seq<Frame>, cur: Option<nat>, size: nat, size': nat, ts: seq<Table>)
    requires Grown(a, b) && CatchesOK(a, cur, size, ts) && size <= size'
    ensures CatchesOK(b, cur, size', ts)
    decreases |ts|
  {
    if |ts| > 0 {
      var t := ts[|ts| - 1];
      WalkGrown(a, b, cur, t.frame);
      CatchesGrown(a, b, Some(t.frame), t.size, t.size, ts[..|ts| - 1]);
    }
  }

  lemma FetchLength(code: seq<Cell>, p: int, i: Ins)
    requires Fetch(code, p) == Some(i)
    ensures p >= 0 && RawAt(code, p) && InstructionLength(code[p].b) == Len(i)
  {
  }

  /** One more instruction. */
  lemma Then(c: Program, m: Machine, n: nat, m1: Machine, i: Ins)
    requires Steps(c.code, m, n) == m1 && m1.status.Running? && Fetch(c.code, m1.ip) == Some(i)
    ensures Steps(c.code, m, n + 1) == Apply(c.code, i, m1)
  {
    hide Fetch;
    StepsAdd(c.code, m, n, 1);
    assert Steps(c.code, m1, 1) == Steps(c.code, Step(c.code, m1), 0);
  }

  lemma Begin(c: Program, cur: nat, st: State, m: Machine)
    requires Live(c, cur, st, m)
    ensures Via(c, m, 0, m)
  {
    hide Step, Fetch;
  }

  lemma LiveAfter(c: Program, cur: nat, st: State, m: Machine, n: nat, m1: Machine)
    requires Via(c, m, n, m1) && m.cur == Some(cur) && cur < |m.heap.frames| && Rel(c, st, m1.heap)
    ensures Live(c, cur, st, m1)
  {
    hide Step, Fetch;
    CatchesGrown(m.heap.frames, m1.heap.frames, m.cur, |m.stack|, |m1.stack|, m.catches);
  }

  /** What a simulated expression value provides for going on. */
  lemma ValueOf(c: Program, cur: nat, st: State, m: Machine, r: Res, n: nat, m': Machine, end: int, brk: int,
      cnt: int, k: nat)
    requires Live(c, cur, st, m) && Sim(c, m, r, n, m', end, brk, cnt, k) && (r.Val? || r.Next?)
    ensures Via(c, m, n, m') && Live(c, cur, r.st, m') && m'.ip == end
    ensures m'.stack == if r.Val? then m.stack + [r.v] else m.stack
  {
    hide Step, Fetch;
    LiveAfter(c, cur, r.st, m, n, m');
  }

  /** The same run under other names for the places the result does not go to. */
  lemma Relabel(c: Program, m: Machine, r: Res, n: nat, m': Machine, end: int, brk: int, cnt: int, k: nat,
                end': int, brk': int, cnt': int)
    requires Sim(c, m, r, n, m', end, brk, cnt, k)
    requires (r.Val? || r.Next?) ==> end' == end
    requires r.Break? ==> brk' == brk
    requires r.Continue? ==> cnt' == cnt
    ensures Sim(c, m, r, n, m', end', brk', cnt', k)
  {
    hide Step, Fetch;
  }

  /** A prefix of the run, then a simulated rest. */
  lemma After(c: Program, m: Machine, n1: nat, m1: Machine, r: Res, n2: nat, m2: Machine,
              end: int, brk: int, cnt: int, k1: nat, k: nat)
    requires Via(c, m, n1, m1)
    requires Sim(c, m1, r, n2, m2, end, brk, cnt, k1)
    requires r.Throw? || r.Timeout? || r.Stuck? || m.stack == m1.stack
    requires k <= n1 + k1
    ensures Sim(c, m, r, n1 + n2, m2, end, brk, cnt, k)
  {
    hide Step, Fetch;
    StepsAdd(c.code, m, n1, n2);
    if r.Throw? && |m.catches| > 0 {
      var t := m.catches[|m.catches| - 1];
      assert m1.stack[..t.size] == m.stack[..t.size];
    }
  }

  lemma Compose(c: Program, m: Machine, n1: nat, m1: Machine, n2: nat, m2: Machine)
    requires Via(c, m, n1, m1) && Via(c, m1, n2, m2)
    ensures Via(c, m, n1 + n2, m2)
  {
    hide Step, Fetch;
    StepsAdd(c.code, m, n1, n2);
  }

  /** The run arrived with a value on top, or with the stack it started from. */
  lemma Arrived(c: Program, cur: nat, m: Machine, n: nat, m1: Machine, r: Res, end: int, brk: int, cnt: int, k: nat)
    requires Via(c, m, n, m1) && (r.Val? || r.Next?) && Live(c, cur, r.st, m1) && m1.ip == end
    requires m1.stack == if r.Val? then m.stack + [r.v] else m.stack
    ensures Sim(c, m, r, n, m1, end, brk, cnt, k)
  {
    hide Step, Fetch;
  }

  lemma StillRunning(c: Program, m: Machine, n: nat, m1: Machine, end: int, brk: int, cnt: int, k: nat)
    requires Via(c, m, n, m1) && n >= k
    ensures Sim(c, m, Timeout, n, m1, end, brk, cnt, k)
  {
    hide Step, Fetch;
  }

  /** An instruction that only moves ip and rearranges the stack above `m`'s. */
  lemma Go(c: Program, cur: nat, st: State, m: Machine, n: nat, m1: Machine, i: Ins, m2: Machine)
    requires Via(c, m, n, m1) && Live(c, cur, st, m1) && Fetch(c.code, m1.ip) == Some(i)
    requires m2 == Apply(c.code, i, m1) && m2 == m1.(ip := m2.ip, stack := m2.stack) && m.stack <= m2.stack
    ensures Via(c, m, n + 1, m2) && Live(c, cur, st, m2)
  {
    hide Step, Steps, Fetch, Apply, Rel;
    Then(c, m, n, m1, i);
    CatchesGrown(m.heap.frames, m1.heap.frames, m.cur, |m.stack|, |m2.stack|, m.catches);
  }

  lemma GoNop(c: Program, cur: nat, st: State, m: Machine, n: nat, m1: Machine) returns (m2: Machine)
    requires Via(c, m, n, m1) && Live(c, cur, st, m1) && Fetch(c.code, m1.ip) == Some(Nop)
    ensures Via(c, m, n + 1, m2) && Live(c, cur, st, m2) && m2.ip == m1.ip + 1 && m2.stack == m1.stack
  {
    hide Step, Steps, Fetch, Rel, CatchesOK, Handlers;
    m2 := Apply(c.code, Nop, m1);
    assert m2.stack == m1.stack;
    Go(c, cur, st, m, n, m1, Nop, m2);
  }

  lemma GoPut(c: Program, cur: nat, st: State, m: Machine, n: nat, m1: Machine, v: Value) returns (m2: Machine)
    requires Via(c, m, n, m1) && Live(c, cur, st, m1) && Fetch(c.code, m1.ip) == Some(PutLiteral(v))
    ensures Via(c, m, n + 1, m2) && Live(c, cur, st, m2) && m2.ip == m1.ip + 9 && m2.stack == m1.stack + [v]
  {
    hide Step, Steps, Fetch, Rel, CatchesOK, Handlers;
    m2 := Apply(c.code, PutLiteral(v), m1);
    assert m1.stack[..|m1.stack|] == m1.stack;
    Go(c, cur, st, m, n, m1, PutLiteral(v), m2);
  }

  lemma GoPop(c: Program, cur: nat, st: State, m: Machine, n: nat, m1: Machine, base: seq<Value>, v: Value)
    returns (m2: Machine)
    requires Via(c, m, n, m1) && Live(c, cur, st, m1) && Fetch(c.code, m1.ip) == Some(Pop)
    requires m1.stack == base + [v] && m.stack <= base
    ensures Via(c, m, n + 1, m2) && Live(c, cur, st, m2) && m2.ip == m1.ip + 1 && m2.stack == base
  {
    hide Step, Steps, Fetch, Rel, CatchesOK, Handlers;
    m2 := Apply(c.code, Pop, m1);
    assert m1.stack[..|m1.stack| - 1] == base;
    Go(c, cur, st, m, n, m1, Pop, m2);
  }

  lemma GoDup(c: Program, cur: nat, st: State, m: Machine, n: nat, m1: Machine, base: seq<Value>, v: Value)
    returns (m2: Machine)
    requires Via(c, m, n, m1) && Live(c, cur, st, m1) && Fetch(c.code, m1.ip) == Some(Dup)
    requires m1.stack == base + [v]
    ensures Via(c, m, n + 1, m2) && Live(c, cur, st, m2) && m2.ip == m1.ip + 1 && m2.stack == base + [v, v]
  {
    hide Step, Steps, Fetch, Rel, CatchesOK, Handlers;
    m2 := Apply(c.code, Dup, m1);
    assert m1.stack[..|m1.stack|] == m1.stack;
    Go(c, cur, st, m, n, m1, Dup, m2);
  }

  lemma GoOperator(c: Program, cur: nat, st: State, m: Machine, n: nat, m1: Machine, op: BinOp, base: seq<Value>,
      a: Value, b: Value)
    returns (m2: Machine)
    requires Via(c, m, n, m1) && Live(c, cur, st, m1) && Fetch(c.code, m1.ip) == Some(Operator(op))
    requires m1.stack == base + [a, b] && m.stack <= base && Binary(op, a, b).Some?
    ensures Via(c, m, n + 1, m2) && Live(c, cur, st, m2) && m2.ip == m1.ip + 1
    ensures m2.stack == base + [Binary(op, a, b).value]
  {
    hide Step, Steps, Fetch, Rel, CatchesOK, Handlers, Binary;
    m2 := Apply(c.code, Operator(op), m1);
    assert m1.stack[..|m1.stack| - 2] == base;
    Go(c, cur, st, m, n, m1, Operator(op), m2);
  }

  lemma GoUnary(c: Program, cur: nat, st: State, m: Machine, n: nat, m1: Machine, op: UnOp, base: seq<Value>, a: Value)
    returns (m2: Machine)
    requires Via(c, m, n, m1) && Live(c, cur, st, m1) && Fetch(c.code, m1.ip) == Some(UnaryOperator(op))
    requires m1.stack == base + [a] && m.stack <= base
    ensures Via(c, m, n + 1, m2) && Live(c, cur, st, m2) && m2.ip == m1.ip + 1 && m2.stack == base + [Unary(op, a)]
  {
    hide Step, Steps, Fetch, Rel, CatchesOK, Handlers, Unary;
    m2 := Apply(c.code, UnaryOperator(op), m1);
    assert m1.stack[..|m1.stack| - 1] == base;
    Go(c, cur, st, m, n, m1, UnaryOperator(op), m2);
  }

  /** An unconditional branch. */
  lemma GoTo(c: Program, cur: nat, st: State, m: Machine, n: nat, m1: Machine, target: int) returns (m2: Machine)
    requires Via(c, m, n, m1) && Live(c, cur, st, m1) && m1.ip >= 0 && Goes(c, m1.ip, Always, target) && target != m1.ip
    ensures Via(c, m, n + 1, m2) && Live(c, cur, st, m2) && m2.ip == target && m2.stack == m1.stack
  {
    hide Step, Steps, Fetch, Rel, CatchesOK, Handlers;
    var i := BranchOp(Always, target - m1.ip);
    m2 := Apply(c.code, i, m1);
    assert m1.stack[..|m1.stack|] == m1.stack;
    Go(c, cur, st, m, n, m1, i, m2);
  }

  /** A branch on the truth of the value on top. */
  lemma GoIf(c: Program, cur: nat, st: State, m: Machine, n: nat, m1: Machine, kind: BranchKind, target: int,
             base: seq<Value>, v: Value) returns (m2: Machine)
    requires Via(c, m, n, m1) && Live(c, cur, st, m1) && (kind == IfTrue || kind == UnlessTrue)
    requires m1.ip >= 0 && Goes(c, m1.ip, kind, target) && target != m1.ip
    requires m1.stack == base + [v] && m.stack <= base
    ensures Via(c, m, n + 1, m2) && Live(c, cur, st, m2) && m2.stack == base
    ensures m2.ip == if Truthy(v) == (kind == IfTrue) then target else m1.ip + 5
  {
    hide Step, Steps, Fetch, Rel, CatchesOK, Handlers;
    var i := BranchOp(kind, target - m1.ip);
    m2 := Apply(c.code, i, m1);
    assert m1.stack[..|m1.stack| - 1] == base;
    Go(c, cur, st, m, n, m1, i, m2);
  }

  /** A compare-and-branch instruction for the opposite of `op`. */
  lemma GoUnlessOp(c: Program, cur: nat, st: State, m: Machine, n: nat, m1: Machine, op: BinOp, target: int,
                   base: seq<Value>, a: Value, b: Value) returns (m2: Machine)
    requires Via(c, m, n, m1) && Live(c, cur, st, m1) && IsComparisonOp(op)
    requires m1.ip >= 0 && Goes(c, m1.ip, OppositeKind(op), target) && target != m1.ip
    requires m1.stack == base + [a, b] && m.stack <= base && Holds(Compiled, op, a, b).Some?
    ensures Via(c, m, n + 1, m2) && Live(c, cur, st, m2) && m2.stack == base
    ensures m2.ip == if Holds(Compiled, op, a, b).value then m1.ip + 5 else target
  {
    hide Step, Steps, Fetch, Rel, CatchesOK, Handlers, Compare;
    var i := BranchOp(OppositeKind(op), target - m1.ip);
    m2 := Apply(c.code, i, m1);
    assert m1.stack[..|m1.stack| - 2] == base;
    assert CompareOf(OppositeKind(op)) == Opposite(op);
    Go(c, cur, st, m, n, m1, i, m2);
  }

  /** ReadLocal pushes what the evaluator reads. */
  lemma GoRead(c: Program, cur: nat, st: State, m: Machine, n: nat, m1: Machine, loc: Loc) returns (m2: Machine)
    requires Via(c, m, n, m1) && Live(c, cur, st, m1) && Fetch(c.code, m1.ip) == Some(ReadLocal(loc.index, loc.level))
    requires Read(st, cur, loc).Some?
    ensures Via(c, m, n + 1, m2) && Live(c, cur, st, m2) && m2.ip == m1.ip + 9
    ensures m2.stack == m1.stack + [Read(st, cur, loc).value]
  {
    hide Step, Steps, Fetch, CatchesOK, Handlers;
    TravelAgrees(c, st, m1, cur, loc.level);
    m2 := Apply(c.code, ReadLocal(loc.index, loc.level), m1);
    assert m1.stack[..|m1.stack|] == m1.stack;
    Go(c, cur, st, m, n, m1, ReadLocal(loc.index, loc.level), m2);
  }

  /** SetLocal and SetLocalPush write the slot the evaluator writes. */
  lemma GoWrite(c: Program, cur: nat, st: State, m: Machine, n: nat, m1: Machine, loc: Loc, keep: bool,
                base: seq<Value>, v: Value) returns (m2: Machine)
    requires Via(c, m, n, m1) && Live(c, cur, st, m1) && m.cur == Some(cur) && cur < |m.heap.frames|
    requires Fetch(c.code, m1.ip) == Some(if keep then SetLocalPush(loc.index, loc.level) else SetLocal(loc.index,
        loc.level))
    requires m1.stack == base + [v] && m.stack <= base && Write(st, cur, loc, v).Some?
    ensures Via(c, m, n + 1, m2) && Live(c, cur, Write(st, cur, loc, v).value, m2) && m2.ip == m1.ip + 9
    ensures m2.stack == if keep then base + [v] else base
  {
    hide Step, Steps, Fetch, CatchesOK, Handlers;
    m2 := WriteSlot(m1, loc.index, loc.level, keep);
    Then(c, m, n, m1, if keep then SetLocalPush(loc.index, loc.level) else SetLocal(loc.index, loc.level));
    TravelAgrees(c, st, m1, cur, loc.level);
    assert m1.stack[..|m1.stack| - 1] == base;
    LiveAfter(c, cur, Write(st, cur, loc, v).value, m, n + 1, m2);
  }

  /** PutFunction allocates the closure the evaluator allocates. */
  lemma GoFunction(c: Program, cur: nat, st: State, m: Machine, n: nat, m1: Machine, f: Func) returns (m2: Machine)
    requires Via(c, m, n, m1) && Live(c, cur, st, m1) && m.cur == Some(cur) && cur < |m.heap.frames|
    requires m1.ip >= 0 && LayFn(c, f, m1.ip)
    ensures Via(c, m, n + 1, m2) && Live(c, cur, st.(clos := st.clos + [Closure(f, cur)]), m2) && m2.ip == m1.ip + 27
    ensures m2.stack == m1.stack + [Fun(|st.clos|)]
  {
    hide Step, Steps, Fetch, CatchesOK, Handlers;
    var i := Fetch(c.code, m1.ip).value;
    Then(c, m, n, m1, i);
    m2 := Apply(c.code, i, m1);
    assert m1.stack[..|m1.stack|] == m1.stack;
    LiveAfter(c, cur, st.(clos := st.clos + [Closure(f, cur)]), m, n + 1, m2);
  }

  /** ReadMemberSymbol on the `arguments` array. */
  lemma GoLength(c: Program, cur: nat, st: State, m: Machine, n: nat, m1: Machine, base: seq<Value>, v: Value)
    returns (m2: Machine)
    requires Via(c, m, n, m1) && Live(c, cur, st, m1) && Fetch(c.code, m1.ip) == Some(ReadMemberSymbol("length"))
    requires m1.stack == base + [v] && m.stack <= base && v.Arr? && v.id < |st.arrs|
    ensures Via(c, m, n + 1, m2) && Live(c, cur, st, m2) && m2.ip == m1.ip + 9
    ensures m2.stack == base + [Num(|st.arrs[v.id]| as real)]
  {
    hide Step, Steps, Fetch, CatchesOK, Handlers;
    m2 := Apply(c.code, ReadMemberSymbol("length"), m1);
    assert m1.stack[..|m1.stack| - 1] == base;
    Go(c, cur, st, m, n, m1, ReadMemberSymbol("length"), m2);
  }

  lemma GoElement(c: Program, cur: nat, st: State, m: Machine, n: nat, m1: Machine, i: nat, base: seq<Value>, v: Value)
    returns (m2: Machine)
    requires Via(c, m, n, m1) && Live(c, cur, st, m1) && Fetch(c.code, m1.ip) == Some(ReadArrayIndex(i))
    requires m1.stack == base + [v] && m.stack <= base && v.Arr? && v.id < |st.arrs|
    ensures Via(c, m, n + 1, m2) && Live(c, cur, st, m2) && m2.ip == m1.ip + 5
    ensures m2.stack == base + [if i < |st.arrs[v.id]| then st.arrs[v.id][i] else Null]
  {
    hide Step, Steps, Fetch, CatchesOK, Handlers;
    m2 := Apply(c.code, ReadArrayIndex(i), m1);
    assert m1.stack[..|m1.stack| - 1] == base;
    Go(c, cur, st, m, n, m1, ReadArrayIndex(i), m2);
  }

  /** Unwinding from a state of the same activation lands in the handler. */
  lemma UnwindLands(m: Machine, m1: Machine, v: Value)
    requires m1.catches == m.catches && Grown(m.heap.frames, m1.heap.frames) && m.stack <= m1.stack
    requires CatchesOK(m.heap.frames, m.cur, |m.stack|, m.catches)
    requires m1.status.Running? && m1.cur == m.cur
    ensures Landed(m, v, Unwind(m1, v))
    ensures Unwind(m1, v).heap == m1.heap
  {
    if |m.catches| > 0 {
      var t := m.catches[|m.catches| - 1];
      WalkGrown(m.heap.frames, m1.heap.frames, m.cur, t.frame);
      assert m1.stack[..t.size] == m.stack[..t.size];
    }
  }

  /** The Throw instruction. */
  lemma GoThrow(c: Program, cur: nat, st: State, m: Machine, n: nat, m1: Machine, base: seq<Value>, v: Value,
                end: int, brk: int, cnt: int, k: nat) returns (m2: Machine)
    requires Via(c, m, n, m1) && Live(c, cur, st, m1) && Fetch(c.code, m1.ip) == Some(ThrowOp)
    requires m1.stack == base + [v] && m.stack <= base
    ensures Sim(c, m, Throw(v, st), n + 1, m2, end, brk, cnt, k)
  {
    hide Step, Steps, Fetch, Rel;
    Then(c, m, n, m1, ThrowOp);
    m2 := Apply(c.code, ThrowOp, m1);
    assert m1.stack[..|m1.stack| - 1] == base;
    UnwindLands(m, m1.(stack := base), v);
  }

  lemma AtReturn(c: Program, cur: nat, st: State, m: Machine, n: nat, m1: Machine, v: Value, end: int, brk: int,
      cnt: int, k: nat)
    requires Via(c, m, n, m1) && Live(c, cur, st, m1) && Fetch(c.code, m1.ip) == Some(ReturnOp)
    requires m1.stack == m.stack + [v]
    ensures Sim(c, m, Return(v, st), n, m1, end, brk, cnt, k)
  {
    hide Step, Steps, Fetch, Rel;
  }

  lemma TravelAgrees(c: Program, st: State, m: Machine, frame: nat, level: nat)
    requires Rel(c, st, m.heap)
    ensures Travel(m.heap.frames, frame, level) == Ancestor(st.acts, frame, level)
    decreases level
  {
    if frame < |m.heap.frames| && level > 0 && m.heap.frames[frame].env.Some? {
      TravelAgrees(c, st, m, m.heap.frames[frame].env.value, level - 1);
    }
  }

  /** Writing arguments one by one gives each slot what the evaluator gives it at once. */
  lemma WriteArgsAt(locals: seq<Value>, args: seq<Value>, i: nat, shift: nat, limit: nat, j: nat)
    requires i <= |args| && j < |locals|
    ensures WriteArgs(locals, args, i, shift, limit)[j]
         == if shift + i <= j < shift + |args| && j - shift < limit then args[j - shift] else locals[j]
    decreases |args| - i
  {
    if i < |args| {
      if i < limit && i + shift < |locals| {
        WriteArgsAt(locals[i + shift := args[i]], args, i + 1, shift, limit, j);
      } else {
        WriteArgsAt(locals, args, i + 1, shift, limit, j);
      }
    }
  }

  lemma LocalsAgree(c: Program, clo: Closure, f: Function, args: seq<Value>, arr: nat)
    requires SameFunction(c, clo, f)
    ensures FrameLocals(f, args, arr) == EntryLocals(clo.f, args, arr)
  {
    var blank := Blank(f.lvarcount);
    assert blank == seq(f.lvarcount, _ => Null);
    if f.needsArguments {
      CopiesAgree(if f.lvarcount > 0 then blank[0 := Arr(arr)] else blank, args, 1, f.argc);
    } else {
      CopiesAgree(blank, args, 0, f.lvarcount);
    }
  }

  lemma CopiesAgree(locals: seq<Value>, args: seq<Value>, shift: nat, limit: nat)
    ensures WriteArgs(locals, args, 0, shift, limit) == CopyArgs(locals, args, shift, limit)
  {
    var a, b := WriteArgs(locals, args, 0, shift, limit), CopyArgs(locals, args, shift, limit);
    forall j | 0 <= j < |locals| ensures a[j] == b[j] {
      WriteArgsAt(locals, args, 0, shift, limit, j);
    }
  }
}
