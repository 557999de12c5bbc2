/** The virtual machine as it runs: registers updated in place, one handler per instruction. */
module Interpreter {
  import opened Values
  import opened Bytecode
  import opened VirtualMachine

  class VM {
    const code: seq<Cell>
    var ip: int
    var stack: seq<Value>
    var frames: Option<nat>
    var catchstack: seq<Table>
    var heap: Heap
    var status: Status

    ghost function State(): Machine
      reads this
    {
      Machine(ip, stack, frames, catchstack, heap, status)
    }

    constructor (code: seq<Cell>, start: Machine)
      ensures this.code == code && State() == start
    {
      this.code := code;
      ip, stack, frames, catchstack := start.ip, start.stack, start.cur, start.catches;
      heap, status := start.heap, start.status;
    }

    method RaisePanic(why: Reason)
      modifies this`status
      ensures State() == Fault(old(State()), why)
    {
      status := Panic(why);
    }

    method PopStack() returns (v: Value)
      requires |stack| > 0
      modifies this`stack
      ensures v == old(stack[|stack| - 1]) && stack == old(stack[..|stack| - 1])
    {
      v := stack[|stack| - 1];
      stack := stack[..|stack| - 1];
    }

    /** The frame `level` environments up from the current one. */
    method TravelTo(level: nat) returns (frame: Option<nat>)
      ensures frame == if frames.None? then None else Travel(heap.frames, frames.value, level)
      ensures frame.Some? ==> frame.value < |heap.frames|
    {
      frame := frames;
      var left := level;
      while left > 0 && frame.Some?
        invariant frame.None? || frame.value < |heap.frames| || left == level
        invariant frames.Some? ==> frame.None? ==> Travel(heap.frames, frames.value, level).None?
        invariant frames.Some? ==> frame.Some? ==>
          Travel(heap.frames, frames.value, level) == Travel(heap.frames, frame.value, left)
        invariant frames.None? ==> frame.None?
        decreases left
      {
        if frame.value >= |heap.frames| { return None; }
        var env := heap.frames[frame.value].env;
        if env.Some? && env.value >= |heap.frames| { return None; }
        frame := env;
        left := left - 1;
      }
      if frame.Some? && frame.value >= |heap.frames| { frame := None; }
    }

    method OpReadLocal(index: nat, level: nat)
      requires status.Running?
      modifies this
      ensures State() == ReadSlot(old(State()), index, level)
    {
      var frame := TravelTo(level);
      if frame.None? {
        RaisePanic(ReadFailedTooDeep);
      } else if index >= |heap.frames[frame.value].locals| {
        RaisePanic(ReadFailedOutOfBounds);
      } else {
        stack := stack + [heap.frames[frame.value].locals[index]];
        ip := ip + InstructionLength(1);
      }
    }

    /** `keep` tells the pushing variant, which puts the value back. */
    method OpSetLocal(index: nat, level: nat, keep: bool)
      requires status.Running?
      modifies this
      ensures State() == WriteSlot(old(State()), index, level, keep)
    {
      if |stack| == 0 {
        RaisePanic(CorruptedStack);
        return;
      }
      var frame := TravelTo(level);
      if frame.None? {
        RaisePanic(WriteFailedTooDeep);
        return;
      }
      var f := heap.frames[frame.value];
      if index >= |f.locals| {
        RaisePanic(WriteFailedOutOfBounds);
        return;
      }
      var value := PopStack();
      heap := heap.(frames := heap.frames[frame.value := f.(locals := f.locals[index := value])]);
      stack := stack + if keep then [value] else [];
      ip := ip + InstructionLength(10);
    }

    /** Restores the last registered catch table and hands `payload` to its handler. */
    method UnwindCatchstack(payload: Value)
      requires status.Running?
      modifies this
      ensures State() == Unwind(old(State()), payload)
    {
      if |catchstack| == 0 {
        RaisePanic(CatchStackEmpty);
        return;
      }
      var table := catchstack[|catchstack| - 1];
      if |stack| < table.size {
        RaisePanic(CorruptedStack);
        return;
      }
      catchstack := catchstack[..|catchstack| - 1];
      ghost var from := frames;
      while frames.Some? && frames.value != table.frame
        invariant WalkTo(heap.frames, frames, table.frame) == WalkTo(heap.frames, from, table.frame)
        invariant ip == old(ip) && heap == old(heap) && status == old(status) && stack == old(stack)
        invariant catchstack == old(catchstack[..|catchstack| - 1])
        decreases if frames.Some? then frames.value + 1 else 0
      {
        if frames.value >= |heap.frames| {
          frames := None;
        } else {
          var parent := heap.frames[frames.value].parent;
          frames := if parent.Some? && parent.value < frames.value then parent else None;
        }
      }
      if frames.Some? && frames.value >= |heap.frames| { frames := None; }
      ip := table.address;
      while |stack| > table.size
        invariant table.size <= |stack| <= |old(stack)| && stack == old(stack)[..|stack|]
        invariant ip == table.address && heap == old(heap) && status == old(status)
        invariant frames == WalkTo(heap.frames, from, table.frame)
        invariant catchstack == old(catchstack[..|catchstack| - 1])
        decreases |stack|
      {
        var _ := PopStack();
      }
      stack := stack + [payload];
    }

    /** Fills the slots of a new frame. */
    method FillLocals(f: Function, args: seq<Value>, arr: nat) returns (locals: seq<Value>)
      ensures locals == FrameLocals(f, args, arr)
    {
      locals := Blank(f.lvarcount);
      if f.needsArguments {
        if f.lvarcount > 0 { locals := locals[0 := Arr(arr)]; }
        ghost var start := locals;
        for i := 0 to |args|
          invariant |locals| == |start|
          invariant WriteArgs(locals, args, i, 1, f.argc) == WriteArgs(start, args, 0, 1, f.argc)
        {
          if i < f.argc && i + 1 < |locals| { locals := locals[i + 1 := args[i]]; }
        }
      } else {
        ghost var start := locals;
        for i := 0 to |args|
          invariant |locals| == |start|
          invariant WriteArgs(locals, args, i, 0, f.lvarcount) == WriteArgs(start, args, 0, 0, f.lvarcount)
        {
          if i < f.lvarcount && i < |locals| { locals := locals[i := args[i]]; }
        }
      }
    }

    /** Enters a function: a new frame that remembers the caller's frame, catch stack and address. */
    method EnterFunction(id: nat, args: seq<Value>)
      requires status.Running?
      modifies this
      ensures State() == CallFunction(old(State()), id, args)
    {
      if id >= |heap.funcs| {
        RaisePanic(Unmodelled);
        return;
      }
      var f := heap.funcs[id];
      if |args| < f.minimum {
        UnwindCatchstack(Str(NOT_ENOUGH));
        return;
      }
      if ip < 0 {
        RaisePanic(InvalidInstructionPointer);
        return;
      }
      var locals := FillLocals(f, args, |heap.arrs|);
      var frame := Frame(frames, Some(f.context), catchstack, Some(ip), locals);
      frames := Some(|heap.frames|);
      heap := Heap(heap.frames + [frame], heap.funcs, if f.needsArguments then heap.arrs + [args] else heap.arrs);
      ip := f.body;
    }

    /** Pops the arguments, last one first, then the callee. */
    method OpCall(argc: nat)
      requires status.Running?
      modifies this
      ensures State() == Dispatched(old(State()), argc)
    {
      hide CallFunction, Unwind, TypeName;
      if |stack| < argc + 1 {
        RaisePanic(CorruptedStack);
        return;
      }
      var args: seq<Value> := [];
      for left := argc downto 0
        invariant |stack| == |old(stack)| - (argc - left) && stack == old(stack)[..|stack|]
        invariant args == old(stack)[|stack|..]
        invariant ip == old(ip) && heap == old(heap) && status == old(status)
        invariant frames == old(frames) && catchstack == old(catchstack)
      {
        var value := PopStack();
        args := [value] + args;
      }
      var callee := PopStack();
      assert State() == old(State()).(stack := old(stack)[..|old(stack)| - argc - 1]);
      if callee.Fun? {
        EnterFunction(callee.id, args);
      } else {
        UnwindCatchstack(Str(NOT_CALLABLE + TypeName(callee)));
      }
    }

    /** Leaves the current frame; one without an origin ends the run. */
    method OpReturn()
      requires status.Running?
      modifies this
      ensures State() == ReturnTop(code, old(State()))
    {
      if frames.None? || frames.value >= |heap.frames| {
        RaisePanic(Unmodelled);
        return;
      }
      var frame := heap.frames[frames.value];
      if frame.origin.Some? && !RawAt(code, frame.origin.value) {
        RaisePanic(Unmodelled);
        return;
      }
      catchstack := frame.catches;
      frames := frame.parent;
      if frame.origin.None? {
        status := Finished;
      } else {
        ip := frame.origin.value + InstructionLength(code[frame.origin.value].b);
      }
    }

    method OpThrow()
      requires status.Running?
      modifies this
      ensures State() == Apply(code, ThrowOp, old(State()))
    {
      if |stack| < 1 {
        RaisePanic(CorruptedStack);
        return;
      }
      var payload := PopStack();
      UnwindCatchstack(payload);
    }

    method OpRegisterCatchTable(offset: int)
      requires status.Running?
      modifies this
      ensures State() == Apply(code, RegisterCatchTable(offset), old(State()))
    {
      if frames.None? {
        RaisePanic(Unmodelled);
        return;
      }
      catchstack := catchstack + [Table(frames.value, ip + offset, |stack|)];
      ip := ip + InstructionLength(35);
    }

    method OpPopCatchTable()
      requires status.Running?
      modifies this
      ensures State() == Apply(code, PopCatchTable, old(State()))
    {
      if |catchstack| > 0 { catchstack := catchstack[..|catchstack| - 1]; }
      ip := ip + InstructionLength(36);
    }

    /** What follows every branch: an instruction pointer that has not moved moves on. */
    method Condincip(oldIp: int)
      modifies this`ip
      ensures ip == if old(ip) == oldIp then oldIp + InstructionLength(37) else old(ip)
    {
      if ip == oldIp { ip := ip + InstructionLength(37); }
    }

    method OpBranchTest(offset: int, sense: bool)
      requires status.Running?
      modifies this
      ensures State() == Branch(old(State()), if sense then IfTrue else UnlessTrue, offset)
    {
      hide Truthy;
      var oldIp := ip;
      if |stack| < 1 { RaisePanic(CorruptedStack); return; }
      var test := PopStack();
      if Truthy(test) == sense { ip := ip + offset; }
      Condincip(oldIp);
    }

    method OpBranchCompare(kind: BranchKind, offset: int)
      requires status.Running? && !kind.Always? && !kind.IfTrue? && !kind.UnlessTrue?
      modifies this
      ensures State() == Branch(old(State()), kind, offset)
    {
      hide Compare;
      var oldIp := ip;
      if |stack| < 2 { RaisePanic(CorruptedStack); return; }
      var taken := Compare(CompareOf(kind), stack[|stack| - 2], stack[|stack| - 1]);
      if taken.None? { RaisePanic(Unmodelled); return; }
      var _ := PopStack();
      var _ := PopStack();
      if taken.value { ip := ip + offset; }
      Condincip(oldIp);
    }

    method OpBranch(kind: BranchKind, offset: int)
      requires status.Running?
      modifies this
      ensures State() == Branch(old(State()), kind, offset)
    {
      hide Compare, CompareOf, Truthy;
      match kind {
        case Always =>
          var oldIp := ip;
          ip := ip + offset;
          Condincip(oldIp);
        case IfTrue => OpBranchTest(offset, true);
        case UnlessTrue => OpBranchTest(offset, false);
        case _ => OpBranchCompare(kind, offset);
      }
    }

    method OpOperator(op: BinOp)
      requires status.Running?
      modifies this
      ensures State() == Operate(old(State()), op)
    {
      if |stack| < 2 { RaisePanic(CorruptedStack); return; }
      var result := Binary(op, stack[|stack| - 2], stack[|stack| - 1]);
      if result.None? { RaisePanic(Unmodelled); return; }
      var _ := PopStack();
      var _ := PopStack();
      stack := stack + [result.value];
      ip := ip + 1;
    }

    method OpUnary(op: UnOp)
      requires status.Running?
      modifies this
      ensures State() == Apply(code, UnaryOperator(op), old(State()))
    {
      if |stack| < 1 { RaisePanic(CorruptedStack); return; }
      var v := PopStack();
      stack := stack + [Unary(op, v)];
      ip := ip + 1;
    }

    method OpReadMember(symbol: string)
      requires status.Running?
      modifies this
      ensures State() == ReadMember(old(State()), symbol)
    {
      if |stack| < 1 { RaisePanic(CorruptedStack); return; }
      var source := stack[|stack| - 1];
      if symbol == "length" && source.Arr? && source.id < |heap.arrs| {
        var _ := PopStack();
        stack := stack + [Num(|heap.arrs[source.id]| as real)];
        ip := ip + InstructionLength(2);
      } else {
        RaisePanic(Unmodelled);
      }
    }

    method OpReadArrayIndex(index: nat)
      requires status.Running?
      modifies this
      ensures State() == ReadElement(old(State()), index)
    {
      if |stack| < 1 { RaisePanic(CorruptedStack); return; }
      var source := stack[|stack| - 1];
      if source.Arr? && source.id < |heap.arrs| {
        var _ := PopStack();
        var a := heap.arrs[source.id];
        stack := stack + [if index < |a| then a[index] else Null];
        ip := ip + InstructionLength(4);
      } else {
        RaisePanic(Unmodelled);
      }
    }

    method OpPutFunction(offset: int, needsArguments: bool, argc: nat, minimum: nat, lvarcount: nat)
      requires status.Running?
      modifies this
      ensures forall name, anonymous ::
        (State() == MakeFunction(old(State()), PutFunction(name, offset, anonymous, needsArguments, argc, minimum,
            lvarcount)))
    {
      if frames.None? { RaisePanic(Unmodelled); return; }
      var f := Function(ip + offset, argc, minimum, lvarcount, needsArguments, frames.value);
      stack := stack + [Fun(|heap.funcs|)];
      heap := heap.(funcs := heap.funcs + [f]);
      ip := ip + InstructionLength(21);
    }

    method Push(v: Value, length: nat)
      requires status.Running?
      modifies this
      ensures State() == Advance(old(State()), length, 0, [v])
    {
      stack := stack + [v];
      ip := ip + length;
    }

    /** Hands an instruction to its handler. */
    method Dispatch(i: Ins)
      requires status.Running?
      modifies this
      ensures State() == Apply(code, i, old(State()))
    {
      var oldIp := ip;
      hide Dispatched, ReadSlot, WriteSlot, Unwind, ReturnTop, Branch, Operate, ReadMember, ReadElement,
        InstructionLength;
      match i {
        case Nop => ip := ip + 1;
        case ReadLocal(x, l) => OpReadLocal(x, l);
        case ReadMemberSymbol(s) => OpReadMember(s);
        case ReadArrayIndex(x) => OpReadArrayIndex(x);
        case SetLocalPush(x, l) => OpSetLocal(x, l, true);
        case SetLocal(x, l) => OpSetLocal(x, l, false);
        case PutValue(v) => Push(v, 9);
        case PutString(s) => Push(Str(s), 9);
        case PutFunction(_, off, _, needs, argc, min, lv) => OpPutFunction(off, needs, argc, min, lv);
        case Pop =>
          if |stack| < 1 { RaisePanic(CorruptedStack); return; }
          var _ := PopStack();
          ip := ip + 1;
        case Dup =>
          if |stack| < 1 { RaisePanic(CorruptedStack); return; }
          Push(stack[|stack| - 1], 1);
        case CallOp(n) =>
          OpCall(n);
          if status.Running? && ip == oldIp { ip := ip + 5; }
        case ReturnOp => OpReturn();
        case ThrowOp => OpThrow();
        case RegisterCatchTable(off) => OpRegisterCatchTable(off);
        case PopCatchTable => OpPopCatchTable();
        case BranchOp(k, off) => OpBranch(k, off);
        case Operator(op) => OpOperator(op);
        case UnaryOperator(op) => OpUnary(op);
      }
    }

    /** One instruction. */
    method StepOnce()
      requires status.Running?
      modifies this
      ensures State() == Step(code, old(State()))
    {
      hide Fetch, Apply;
      match Fetch(code, ip) {
        case None => RaisePanic(InvalidInstructionPointer);
        case Some(i) => Dispatch(i);
      }
    }

    /** Runs until the machine stops, for at most `n` instructions. */
    method Run(n: nat)
      modifies this
      ensures State() == Steps(code, old(State()), n)
    {
      hide Fetch, Step;
      var left: nat := n;
      while left > 0 && status.Running?
        invariant left <= n
        invariant Steps(code, State(), left) == Steps(code, old(State()), n)
        decreases left
      {
        StepOnce();
        left := left - 1;
      }
      StaysStopped(code, State(), left);
    }
  }

  lemma {:induction false} StaysStopped(code: seq<Cell>, m: Machine, n: nat)
    requires n == 0 || !m.status.Running?
    ensures Steps(code, m, n) == m
    decreases n
  {
    hide Fetch, Apply;
    if n > 0 {
      StaysStopped(code, m, n - 1);
    }
  }
}
