/** The virtual machine as a step function over bytes. */
module VirtualMachine {
  import opened Values
  import opened Bytecode

  /** A registered catch table: the frame, handler address and stack size to go back to. */
  datatype Table = Table(frame: nat, address: int, size: nat)

  /** A frame: caller, environment, the caller's catch stack, origin address and slots. */
  datatype Frame = Frame(parent: Option<nat>, env: Option<nat>, catches: seq<Table>,
                         origin: Option<nat>, locals: seq<Value>)

  datatype Function = Function(body: int, argc: nat, minimum: nat, lvarcount: nat,
                               needsArguments: bool, context: nat)

  datatype Reason =
    | CorruptedStack | CatchStackEmpty | ReadFailedTooDeep | ReadFailedOutOfBounds
    | WriteFailedTooDeep | WriteFailedOutOfBounds | InvalidInstructionPointer | Unmodelled

  datatype Status = Running | Finished | Panic(why: Reason)

  /** Frames, functions and `arguments` arrays, addressed by index. */
  datatype Heap = Heap(frames: seq<Frame>, funcs: seq<Function>, arrs: seq<seq<Value>>)

  /** The registers of the machine and its heap. `catches` is the catch stack, top last. */
  datatype Machine = Machine(ip: int, stack: seq<Value>, cur: Option<nat>, catches: seq<Table>,
                             heap: Heap, status: Status)

  function Fault(m: Machine, why: Reason): Machine {
    m.(status := Panic(why))
  }

  /** Pops `drop` values, pushes `push` and moves on by `len` bytes. */
  function Advance(m: Machine, len: nat, drop: nat, push: seq<Value>): Machine
    requires drop <= |m.stack|
  {
    m.(ip := m.ip + len, stack := m.stack[..|m.stack| - drop] + push)
  }

  function Top(m: Machine): Value
    requires |m.stack| > 0
  {
    m.stack[|m.stack| - 1]
  }

  function Second(m: Machine): Value
    requires |m.stack| > 1
  {
    m.stack[|m.stack| - 2]
  }

  /** Follows `level` environments from `frame`. */
  function Travel(frames: seq<Frame>, frame: nat, level: nat): Option<nat>
    decreases level
  {
    if frame >= |frames| then None
    else if level == 0 then Some(frame)
    else if frames[frame].env.None? then None
    else Travel(frames, frames[frame].env.value, level - 1)
  }

  function ReadSlot(m: Machine, index: nat, level: nat): Machine {
    if m.cur.None? then Fault(m, ReadFailedTooDeep)
    else
      match Travel(m.heap.frames, m.cur.value, level)
      case None => Fault(m, ReadFailedTooDeep)
      case Some(a) =>
        if a < |m.heap.frames| && index < |m.heap.frames[a].locals| then
          Advance(m, 9, 0, [m.heap.frames[a].locals[index]])
        else Fault(m, ReadFailedOutOfBounds)
  }

  function WriteSlot(m: Machine, index: nat, level: nat, keep: bool): Machine {
    if |m.stack| == 0 then Fault(m, CorruptedStack)
    else if m.cur.None? then Fault(m, WriteFailedTooDeep)
    else
      match Travel(m.heap.frames, m.cur.value, level)
      case None => Fault(m, WriteFailedTooDeep)
      case Some(a) =>
        if a < |m.heap.frames| && index < |m.heap.frames[a].locals| then
          var f := m.heap.frames[a];
          Advance(m.(heap := m.heap.(frames := m.heap.frames[a := f.(locals := f.locals[index := Top(m)])])),
                  9, 1, if keep then [Top(m)] else [])
        else Fault(m, WriteFailedOutOfBounds)
  }

  /** Walks the frame chain to `target`; None if the chain ends first. */
  function WalkTo(frames: seq<Frame>, from: Option<nat>, target: nat): Option<nat>
    decreases if from.Some? then from.value + 1 else 0
  {
    if from.None? || from.value >= |frames| then None
    else if from.value == target then from
    else
      var p := frames[from.value].parent;
      if p.Some? && p.value < from.value then WalkTo(frames, p, target) else None
  }

  /** Restores the top catch table and hands `v` to its handler. */
  function Unwind(m: Machine, v: Value): Machine {
    if |m.catches| == 0 then Fault(m, CatchStackEmpty)
    else
      var t := m.catches[|m.catches| - 1];
      if |m.stack| < t.size then Fault(m, CorruptedStack)
      else m.(ip := t.address,
              cur := WalkTo(m.heap.frames, m.cur, t.frame),
              catches := m.catches[..|m.catches| - 1],
              stack := m.stack[..t.size] + [v])
  }

  function Blank(n: nat): (r: seq<Value>)
    ensures |r| == n
  {
    seq(n, _ => Null)
  }

  /** Writes argument `i` and later ones into the slots; writes past the end are ignored. */
  function WriteArgs(locals: seq<Value>, args: seq<Value>, i: nat, shift: nat, limit: nat): (r: seq<Value>)
    ensures |r| == |locals|
    decreases |args| - i
  {
    if i >= |args| then locals
    else if i < limit && i + shift < |locals| then
      WriteArgs(locals[i + shift := args[i]], args, i + 1, shift, limit)
    else WriteArgs(locals, args, i + 1, shift, limit)
  }

  function FrameLocals(f: Function, args: seq<Value>, arr: nat): seq<Value> {
    var blank := Blank(f.lvarcount);
    if f.needsArguments then
      WriteArgs(if f.lvarcount > 0 then blank[0 := Arr(arr)] else blank, args, 0, 1, f.argc)
    else WriteArgs(blank, args, 0, 0, f.lvarcount)
  }

  function CallFunction(m: Machine, id: nat, args: seq<Value>): Machine {
    if id >= |m.heap.funcs| then Fault(m, Unmodelled)
    else
      var f := m.heap.funcs[id];
      if |args| < f.minimum then Unwind(m, Str(NOT_ENOUGH))
      else if m.ip < 0 then Fault(m, InvalidInstructionPointer)
      else
        m.(heap := Heap(m.heap.frames + [Frame(m.cur, Some(f.context), m.catches, Some(m.ip),
            FrameLocals(f, args, |m.heap.arrs|))],
                        m.heap.funcs,
                        if f.needsArguments then m.heap.arrs + [args] else m.heap.arrs),
           cur := Some(|m.heap.frames|),
           ip := f.body)
  }

  /** An instruction that has not moved the instruction pointer moves on. */
  function Condincip(m: Machine, from: int, len: nat): Machine {
    if m.status.Running? && m.ip == from then m.(ip := from + len) else m
  }

  /** The call instruction. */
  function CallTop(m: Machine, argc: nat): Machine {
    Condincip(Dispatched(m, argc), m.ip, 5)
  }

  /** Pops arguments and callee, then dispatches on the callee. */
  function Dispatched(m: Machine, argc: nat): Machine {
    if |m.stack| < argc + 1 then Fault(m, CorruptedStack)
    else
      var base := |m.stack| - argc;
      var args := m.stack[base..];
      var callee := m.stack[base - 1];
      var m1 := m.(stack := m.stack[..base - 1]);
      if callee.Fun? then CallFunction(m1, callee.id, args)
      else Unwind(m1, Str(NOT_CALLABLE + TypeName(callee)))
  }

  function ReturnTop(code: seq<Cell>, m: Machine): Machine {
    if m.cur.None? || m.cur.value >= |m.heap.frames| then Fault(m, Unmodelled)
    else
      var f := m.heap.frames[m.cur.value];
      var m1 := m.(catches := f.catches, cur := f.parent);
      match f.origin
      case None => m1.(status := Finished)
      case Some(o) => if RawAt(code, o) then m1.(ip := o + InstructionLength(code[o].b)) else Fault(m, Unmodelled)
  }

  function CompareOf(k: BranchKind): BinOp {
    match k
    case OnLt => Lt
    case OnGt => Gt
    case OnLe => Le
    case OnGe => Ge
    case OnEq => Eq
    case _ => Neq
  }

  /** A taken branch whose offset is 0 leaves ip unchanged and so falls through. */
  function Jump(m: Machine, drop: nat, taken: bool, offset: int): Machine
    requires drop <= |m.stack|
  {
    var m1 := m.(stack := m.stack[..|m.stack| - drop]);
    if taken && offset != 0 then m1.(ip := m.ip + offset) else m1.(ip := m.ip + 5)
  }

  function Branch(m: Machine, k: BranchKind, offset: int): Machine {
    match k
    case Always => Jump(m, 0, true, offset)
    case IfTrue => if |m.stack| < 1 then Fault(m, CorruptedStack) else Jump(m, 1, Truthy(Top(m)), offset)
    case UnlessTrue => if |m.stack| < 1 then Fault(m, CorruptedStack) else Jump(m, 1, !Truthy(Top(m)), offset)
    case _ =>
      if |m.stack| < 2 then Fault(m, CorruptedStack)
      else
        match Compare(CompareOf(k), Second(m), Top(m))
        case None => Fault(m, Unmodelled)
        case Some(b) => Jump(m, 2, b, offset)
  }

  function Operate(m: Machine, op: BinOp): Machine {
    if |m.stack| < 2 then Fault(m, CorruptedStack)
    else
      match Binary(op, Second(m), Top(m))
      case None => Fault(m, Unmodelled)
      case Some(v) => Advance(m, 1, 2, [v])
  }

  function ReadMember(m: Machine, symbol: string): Machine {
    if |m.stack| < 1 then Fault(m, CorruptedStack)
    else if symbol == "length" && Top(m).Arr? && Top(m).id < |m.heap.arrs| then
      Advance(m, 9, 1, [Num(|m.heap.arrs[Top(m).id]| as real)])
    else Fault(m, Unmodelled)
  }

  function ReadElement(m: Machine, index: nat): Machine {
    if |m.stack| < 1 then Fault(m, CorruptedStack)
    else if Top(m).Arr? && Top(m).id < |m.heap.arrs| then
      var a := m.heap.arrs[Top(m).id];
      Advance(m, 5, 1, [if index < |a| then a[index] else Null])
    else Fault(m, Unmodelled)
  }

  function MakeFunction(m: Machine, i: Ins): Machine
    requires i.PutFunction?
  {
    if m.cur.None? then Fault(m, Unmodelled)
    else
      var f := Function(m.ip + i.offset, i.argc, i.minimum, i.lvarcount, i.needsArguments, m.cur.value);
      Advance(m.(heap := m.heap.(funcs := m.heap.funcs + [f])), 27, 0, [Fun(|m.heap.funcs|)])
  }

  /** The effect of one decoded instruction. */
  function Apply(code: seq<Cell>, i: Ins, m: Machine): Machine {
    match i
    case Nop => Advance(m, 1, 0, [])
    case ReadLocal(x, l) => ReadSlot(m, x, l)
    case ReadMemberSymbol(s) => ReadMember(m, s)
    case ReadArrayIndex(x) => ReadElement(m, x)
    case SetLocalPush(x, l) => WriteSlot(m, x, l, true)
    case SetLocal(x, l) => WriteSlot(m, x, l, false)
    case PutValue(v) => Advance(m, 9, 0, [v])
    case PutString(s) => Advance(m, 9, 0, [Str(s)])
    case PutFunction(_, _, _, _, _, _, _) => MakeFunction(m, i)
    case Pop => if |m.stack| < 1 then Fault(m, CorruptedStack) else Advance(m, 1, 1, [])
    case Dup => if |m.stack| < 1 then Fault(m, CorruptedStack) else Advance(m, 1, 0, [Top(m)])
    case CallOp(n) => CallTop(m, n)
    case ReturnOp => ReturnTop(code, m)
    case ThrowOp =>
      if |m.stack| < 1 then Fault(m, CorruptedStack)
      else Unwind(m.(stack := m.stack[..|m.stack| - 1]), Top(m))
    case RegisterCatchTable(off) =>
      if m.cur.None? then Fault(m, Unmodelled)
      else Advance(m.(catches := m.catches + [Table(m.cur.value, m.ip + off, |m.stack|)]), 5, 0, [])
    case PopCatchTable =>
      Advance(m.(catches := if |m.catches| == 0 then [] else m.catches[..|m.catches| - 1]), 1, 0, [])
    case BranchOp(k, off) => Branch(m, k, off)
    case Operator(op) => Operate(m, op)
    case UnaryOperator(op) =>
      if |m.stack| < 1 then Fault(m, CorruptedStack) else Advance(m, 1, 1, [Unary(op, Top(m))])
  }

  function Step(code: seq<Cell>, m: Machine): Machine {
    if !m.status.Running? then m
    else
      match Fetch(code, m.ip)
      case None => Fault(m, InvalidInstructionPointer)
      case Some(i) => Apply(code, i, m)
  }

  function Steps(code: seq<Cell>, m: Machine, n: nat): Machine
    decreases n
  {
    if n == 0 then m else Steps(code, Step(code, m), n - 1)
  }

  lemma StepsAdd(code: seq<Cell>, m: Machine, a: nat, b: nat)
    ensures Steps(code, m, a + b) == Steps(code, Steps(code, m, a), b)
    decreases a
  {
    if a > 0 {
      StepsAdd(code, Step(code, m), a - 1, b);
    }
  }
}
