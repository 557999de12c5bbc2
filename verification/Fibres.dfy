/** The runtime loop: a task queue, callbacks that start fibres, and suspended fibres. */
module Fibres {
  import opened Values
  import opened VirtualMachine

  /** The length of the system call instruction. */
  const SYSCALL_LENGTH: nat := 3

  /** How many arguments a callback is called with. */
  const CALLBACK_ARGC: nat := 4

  /** What a fibre owns: operand stack, frame, catch stack and instruction pointer. */
  datatype Registers = Registers(stack: seq<Value>, frame: Option<nat>, catches: seq<Table>, ip: int)

  /** A suspended fibre. */
  datatype Fibre = Fibre(uid: nat, saved: Registers)

  datatype Task = Thread(id: nat, argument: Value) | Callback(func: Option<nat>, arguments: seq<Value>)

  datatype Fault = InvalidThreadId | TaskNotCallable | NoCatchTable | EmptyStack

  /** Where the runtime loop is: between tasks, inside `run` for a callback or a fibre, or dead. */
  datatype Phase = Idle | Called | Continued | Panicked(why: Fault)

  datatype System = System(uid: nat, regs: Registers, heap: Heap, paused: map<nat, Fibre>, tasks: seq<Task>,
                           nextId: nat, phase: Phase, halted: bool, running: bool)

  datatype Event =
    | Register(task: Task)                        // from the running code, a timer or another thread
    | Take                                        // the loop pops a task and starts it
    | Work(regs: Registers, heap: Heap)           // the running code does anything to its registers and the heap
    | Suspend                                     // the running code suspends its fibre
    | Stop(timers: bool, exceptions: seq<Value>)  // `run` returns; `timers` says whether any are left
    | Poll(timers: bool, exceptions: seq<Value>)  // the loop finds no task
    | Exit                                        // the running code shuts the runtime down

  /** Fibre code is executing. */
  predicate Busy(s: System) {
    (s.phase.Called? || s.phase.Continued?) && !s.halted
  }

  /** The loop can start a new round. */
  predicate Ready(s: System) {
    s.phase.Idle? && s.running
  }

  /** The members of `ids` below `n` in ascending order. */
  function Ascending(ids: set<nat>, n: nat): seq<nat> {
    if n == 0 then [] else Ascending(ids, n - 1) + if n - 1 in ids then [n - 1] else []
  }

  /** One resume task for every id, each with an exception object of its own. */
  function Resumes(ids: seq<nat>, exceptions: seq<Value>): (r: seq<Task>)
    ensures |r| == |ids|
  {
    seq(|ids|, i requires 0 <= i < |ids| => Thread(ids[i], if i < |exceptions| then exceptions[i] else Null))
  }

  /** The end of a round: with nothing left to do, wake stale fibres or leave the loop. */
  function Drain(s: System, timers: bool, exceptions: seq<Value>): (d: System)
    ensures d == s.(tasks := d.tasks, running := d.running)
  {
    if |s.tasks| > 0 || timers then s
    else if s.paused == map[] then s.(running := false)
    else s.(tasks := Resumes(Ascending(s.paused.Keys, s.nextId), exceptions))
  }

  /** Calls function `f` as a fresh fibre, on top of whatever the operand stack holds. */
  function Begin(s: System, f: nat, arguments: seq<Value>): System
    requires f < |s.heap.funcs|
  {
    var fn := s.heap.funcs[f];
    if CALLBACK_ARGC < fn.minimum then s.(phase := Panicked(NoCatchTable))
    else
      var frame := Frame(None, Some(fn.context), [], None, FrameLocals(fn, arguments, |s.heap.arrs|));
      s.(heap := Heap(s.heap.frames + [frame], s.heap.funcs,
                      if fn.needsArguments then s.heap.arrs + [arguments] else s.heap.arrs),
         regs := Registers(s.regs.stack, Some(|s.heap.frames|), [], fn.body),
         uid := s.nextId, nextId := s.nextId + 1, phase := Called, halted := false)
  }

  function Start(s: System, t: Task): System {
    match t
    case Thread(id, a) =>
      if id !in s.paused then s.(phase := Panicked(InvalidThreadId))
      else
        var r := s.paused[id].saved;
        s.(uid := s.paused[id].uid, regs := r.(stack := r.stack + [a]), paused := s.paused - {id},
           phase := Continued, halted := false)
    case Callback(f, arguments) =>
      if f.None? || f.value >= |s.heap.funcs| then s.(phase := Panicked(TaskNotCallable))
      else Begin(s, f.value, arguments)
  }

  /** The record under which the running fibre is filed when it suspends. */
  function Record(s: System): Fibre {
    Fibre(s.uid, s.regs.(ip := s.regs.ip + SYSCALL_LENGTH))
  }

  /** One event; an event that cannot happen now changes nothing. */
  function Next(s: System, e: Event): System {
    match e
    case Register(t) => if s.phase.Panicked? then s else s.(tasks := s.tasks + [t])
    case Take =>
      if Ready(s) && |s.tasks| > 0 then Start(s.(tasks := s.tasks[1..]), s.tasks[0]) else s
    case Work(regs, heap) => if Busy(s) then s.(regs := regs, heap := heap) else s
    case Suspend =>
      // The record is only inserted if there is none; the moved-from stack is empty, and the
      // system call then pushes its own result on it.
      if Busy(s) then
        s.(halted := true,
           paused := if s.uid in s.paused then s.paused else s.paused[s.uid := Record(s)],
           regs := s.regs.(stack := [Null], ip := s.regs.ip + SYSCALL_LENGTH))
      else s
    case Stop(timers, exceptions) =>
      if s.phase.Continued? then Drain(s.(phase := Idle), timers, exceptions)
      else if s.phase.Called? then
        if |s.regs.stack| == 0 then s.(phase := Panicked(EmptyStack))
        else
          var rest := s.regs.stack[..|s.regs.stack| - 1];
          Drain(s.(phase := Idle, regs := s.regs.(stack := rest)), timers, exceptions)
      else s
    case Poll(timers, exceptions) =>
      if Ready(s) && |s.tasks| == 0 then Drain(s, timers, exceptions) else s
    case Exit => if Busy(s) then s.(tasks := [], halted := true, running := false) else s
  }

  function Run(s: System, es: seq<Event>): System
    decreases |es|
  {
    if |es| == 0 then s else Run(Next(s, es[0]), es[1..])
  }

  // ----- the life of a fibre -----

  datatype Standing = Unborn | Executing | Waiting | Done

  function StandingOf(s: System, id: nat): Standing {
    if id >= s.nextId then Unborn
    else if id in s.paused then Waiting
    else if Busy(s) && s.uid == id then Executing
    else Done
  }

  /** Suspended ids have been issued and are filed under their own id; the running one is not filed. */
  ghost predicate Valid(s: System) {
    && (forall id :: id in s.paused ==> id < s.nextId && s.paused[id].uid == id)
    && (Busy(s) ==> s.uid < s.nextId && s.uid !in s.paused)
  }

  lemma ValidKept(s: System, e: Event)
    requires Valid(s)
    ensures Valid(Next(s, e))
  {
    hide Drain, FrameLocals;
  }

  lemma {:induction false} AlwaysValid(s: System, es: seq<Event>)
    requires Valid(s)
    ensures Valid(Run(s, es))
    decreases |es|
  {
    if |es| > 0 {
      ValidKept(s, es[0]);
      AlwaysValid(Next(s, es[0]), es[1..]);
    }
  }

  /** The moves a fibre can make, and the only event that makes each. */
  predicate Moves(s: System, e: Event, id: nat, before: Standing, after: Standing) {
    || before == after
    || (before.Unborn? && after.Executing? && e.Take? && id == s.nextId)
    || (before.Executing? && after.Waiting? && e.Suspend? && id == s.uid)
    || (before.Executing? && after.Done? && (e.Stop? || e.Exit?) && id == s.uid)
    || (before.Waiting? && after.Executing? && e.Take? && |s.tasks| > 0 && s.tasks[0].Thread? && s.tasks[0].id == id)
  }

  /** Every fibre is unborn, executing, waiting once or done, and moves only along this cycle. */
  lemma Lifecycle(s: System, e: Event, id: nat)
    requires Valid(s)
    ensures Moves(s, e, id, StandingOf(s, id), StandingOf(Next(s, e), id))
    ensures StandingOf(s, id).Waiting? && StandingOf(Next(s, e), id).Waiting? ==>
      Next(s, e).paused[id] == s.paused[id]
  {
    hide Drain, FrameLocals;
  }

  /** A finished fibre's id is never issued again, never filed again, and resuming it is fatal. */
  lemma {:induction false} DoneForGood(s: System, es: seq<Event>, id: nat)
    requires Valid(s) && StandingOf(s, id).Done?
    ensures StandingOf(Run(s, es), id).Done?
    ensures var s' := Run(s, es);
      Ready(s') && |s'.tasks| > 0 && s'.tasks[0].Thread? && s'.tasks[0].id == id ==>
        Next(s', Take).phase == Panicked(InvalidThreadId)
    decreases |es|
  {
    if |es| > 0 {
      ValidKept(s, es[0]);
      Lifecycle(s, es[0], id);
      DoneForGood(Next(s, es[0]), es[1..], id);
    }
  }

  // ----- what a called-back fibre starts with -----

  /** What slot `j` of a fresh frame holds: the `arguments` array, an argument, or null. */
  predicate Holds(v: Value, fn: Function, arguments: seq<Value>, arr: nat, j: nat) {
    if fn.needsArguments && j == 0 then v == Arr(arr)
    else if fn.needsArguments && j - 1 < |arguments| && j - 1 < fn.argc then v == arguments[j - 1]
    else if !fn.needsArguments && j < |arguments| then v == arguments[j]
    else v.Null?
  }

  lemma {:induction false} Written(locals: seq<Value>, args: seq<Value>, i: nat, shift: nat, limit: nat, j: nat)
    requires i <= |args| && j < |locals|
    ensures WriteArgs(locals, args, i, shift, limit)[j] ==
      if shift + i <= j < shift + |args| && j - shift < limit then args[j - shift] else locals[j]
    decreases |args| - i
  {
    if i < |args| {
      if i < limit && i + shift < |locals| {
        Written(locals[i + shift := args[i]], args, i + 1, shift, limit, j);
      } else {
        Written(locals, args, i + 1, shift, limit, j);
      }
    }
  }

  lemma SlotHolds(fn: Function, arguments: seq<Value>, arr: nat, j: nat)
    requires j < fn.lvarcount
    ensures |FrameLocals(fn, arguments, arr)| == fn.lvarcount
    ensures Holds(FrameLocals(fn, arguments, arr)[j], fn, arguments, arr, j)
  {
    var blank := Blank(fn.lvarcount);
    if fn.needsArguments {
      Written(blank[0 := Arr(arr)], arguments, 0, 1, fn.argc, j);
    } else {
      Written(blank, arguments, 0, 0, fn.lvarcount, j);
    }
  }

  /** The loop is about to call back a function there is, and that asks for no more arguments than callbacks get. */
  predicate CallsBack(s: System) {
    Ready(s) && |s.tasks| > 0 && s.tasks[0].Callback? && s.tasks[0].func.Some? &&
    s.tasks[0].func.value < |s.heap.funcs| && s.heap.funcs[s.tasks[0].func.value].minimum <= CALLBACK_ARGC
  }

  /**
   * A called-back fibre starts in a new frame without a caller, in its function's environment, at its body, with
   * no catch table; every slot holds what a call with these arguments puts there, and nothing else changes.
   */
  lemma CallbackStarts(s: System)
    requires CallsBack(s)
    ensures var s', fn, args := Next(s, Take), s.heap.funcs[s.tasks[0].func.value], s.tasks[0].arguments;
      && Busy(s') && s'.phase.Called? && s'.uid == s.nextId && s'.nextId == s.nextId + 1
      && s'.regs.frame == Some(|s.heap.frames|) && s'.regs.ip == fn.body && s'.regs.catches == []
      && s'.regs.stack == s.regs.stack && s'.tasks == s.tasks[1..] && s'.paused == s.paused
      && |s'.heap.frames| == |s.heap.frames| + 1 && s'.heap.frames[..|s.heap.frames|] == s.heap.frames
      && s'.heap.funcs == s.heap.funcs
      && s'.heap.arrs == (if fn.needsArguments then s.heap.arrs + [args] else s.heap.arrs)
      && var frame := s'.heap.frames[|s.heap.frames|];
        && frame.parent.None? && frame.origin.None? && frame.catches == [] && frame.env == Some(fn.context)
        && |frame.locals| == fn.lvarcount
        && forall j :: 0 <= j < fn.lvarcount ==> Holds(frame.locals[j], fn, args, |s.heap.arrs|, j)
  {
    hide FrameLocals;
    var fn, args := s.heap.funcs[s.tasks[0].func.value], s.tasks[0].arguments;
    forall j: nat | j < fn.lvarcount
      ensures |FrameLocals(fn, args, |s.heap.arrs|)| == fn.lvarcount
      ensures Holds(FrameLocals(fn, args, |s.heap.arrs|)[j], fn, args, |s.heap.arrs|, j)
    {
      SlotHolds(fn, args, |s.heap.arrs|, j);
    }
    EmptyFrame(fn, args, |s.heap.arrs|);
  }

  lemma EmptyFrame(fn: Function, arguments: seq<Value>, arr: nat)
    ensures |FrameLocals(fn, arguments, arr)| == fn.lvarcount
  {
  }

  /** Any other callback is fatal, and for what reason. */
  lemma CallbackFails(s: System)
    requires Ready(s) && |s.tasks| > 0 && s.tasks[0].Callback? && !CallsBack(s)
    ensures var s' := Next(s, Take);
      && s'.phase.Panicked? && s'.heap == s.heap && s'.regs == s.regs && s'.nextId == s.nextId
      && (s'.phase.why == TaskNotCallable <==> s.tasks[0].func.None? || s.tasks[0].func.value >= |s.heap.funcs|)
      && (s'.phase.why == NoCatchTable <==> s'.phase.why != TaskNotCallable)
  {
  }

  // ----- shutting down -----

  /** After a shutdown the loop is over: no task is started any more, whatever else happens. */
  lemma ExitIsFinal(s: System, es: seq<Event>)
    requires Busy(s)
    ensures Next(s, Exit).tasks == [] && Next(s, Exit).regs == s.regs && Next(s, Exit).heap == s.heap
    ensures Next(s, Exit).paused == s.paused
    ensures var s' := Run(Next(s, Exit), es); !s'.running && !Busy(s') && !Ready(s')
    ensures AllStarted(Next(s, Exit), es) == []
  {
    StaysOver(Next(s, Exit), es);
  }

  lemma {:induction false} StaysOver(s: System, es: seq<Event>)
    requires !s.running && !Busy(s)
    ensures !Run(s, es).running && !Busy(Run(s, es)) && AllStarted(s, es) == []
    decreases |es|
  {
    if |es| > 0 {
      StaysOver(Next(s, es[0]), es[1..]);
    }
  }

  // ----- suspending looks like one instruction -----

  /** No event of the run hands the loop a resume task for `id`. */
  predicate NotResumed(s: System, es: seq<Event>, id: nat)
    decreases |es|
  {
    |es| > 0 ==>
      && !(es[0].Take? && Ready(s) && |s.tasks| > 0 && s.tasks[0].Thread? && s.tasks[0].id == id)
      && NotResumed(Next(s, es[0]), es[1..], id)
  }

  lemma {:induction false} RecordKept(s: System, es: seq<Event>, id: nat)
    requires Valid(s) && id in s.paused && NotResumed(s, es, id)
    ensures id in Run(s, es).paused && Run(s, es).paused[id] == s.paused[id]
    decreases |es|
  {
    if |es| > 0 {
      ValidKept(s, es[0]);
      Lifecycle(s, es[0], id);
      RecordKept(Next(s, es[0]), es[1..], id);
    }
  }

  /**
   * Isolation: whatever the rest of the system does in between, the fibre goes on right after
   * the system call with the registers it had, plus the resume argument on its stack.
   */
  lemma SuspendIsOneInstruction(s: System, es: seq<Event>)
    requires Valid(s) && Busy(s)
    requires NotResumed(Next(s, Suspend), es, s.uid)
    ensures var s' := Run(Next(s, Suspend), es);
      Ready(s') && |s'.tasks| > 0 && s'.tasks[0].Thread? && s'.tasks[0].id == s.uid ==>
        var r := Next(s', Take);
        && Busy(r) && r.uid == s.uid && r.heap == s'.heap
        && r.regs == Registers(s.regs.stack + [s'.tasks[0].argument], s.regs.frame, s.regs.catches,
                               s.regs.ip + SYSCALL_LENGTH)
  {
    ValidKept(s, Suspend);
    RecordKept(Next(s, Suspend), es, s.uid);
  }

  /** A suspended fibre takes its stack with it: just the system call's own result stays behind. */
  lemma SuspendMovesStack(s: System)
    requires Valid(s) && Busy(s)
    ensures var s' := Next(s, Suspend);
      && s.uid in s'.paused && s'.paused[s.uid].saved.stack == s.regs.stack && s'.regs.stack == [Null]
      && (forall id :: id in s.paused ==> id in s'.paused && s'.paused[id] == s.paused[id])
      && s'.paused.Keys == s.paused.Keys + {s.uid} && !Busy(s') && s'.heap == s.heap && s'.tasks == s.tasks
  {
  }

  // ----- the task queue -----

  /** The tasks an event adds to the queue. */
  function Added(s: System, e: Event): seq<Task> {
    match e
    case Register(t) => if s.phase.Panicked? then [] else [t]
    case Stop(_, _) => if |s.tasks| > 0 then [] else Next(s, e).tasks
    case Poll(_, _) => if |s.tasks| > 0 then [] else Next(s, e).tasks
    case _ => []
  }

  /** The tasks an event starts. */
  function Started(s: System, e: Event): seq<Task> {
    if e.Take? && Ready(s) && |s.tasks| > 0 then [s.tasks[0]] else []
  }

  function AllAdded(s: System, es: seq<Event>): seq<Task>
    decreases |es|
  {
    if |es| == 0 then [] else Added(s, es[0]) + AllAdded(Next(s, es[0]), es[1..])
  }

  function AllStarted(s: System, es: seq<Event>): seq<Task>
    decreases |es|
  {
    if |es| == 0 then [] else Started(s, es[0]) + AllStarted(Next(s, es[0]), es[1..])
  }

  lemma OneTask(s: System, e: Event)
    requires !e.Exit?
    ensures Started(s, e) + Next(s, e).tasks == s.tasks + Added(s, e)
  {
    if e.Take? && Ready(s) && |s.tasks| > 0 {
      assert s.tasks == [s.tasks[0]] + s.tasks[1..];
    }
  }

  lemma Regroup<T>(a: seq<T>, b: seq<T>, c: seq<T>, d: seq<T>, e: seq<T>, f: seq<T>, g: seq<T>)
    requires b + c == d + e && a + d == f + g
    ensures (a + b) + c == f + (g + e)
  {
    assert (a + b) + c == a + (b + c);
    assert a + (d + e) == (a + d) + e;
    assert (f + g) + e == f + (g + e);
  }

  /** No task is lost, repeated or overtaken until the runtime is told to exit. */
  lemma {:induction false} TasksInOrder(s: System, es: seq<Event>)
    requires forall i :: 0 <= i < |es| ==> !es[i].Exit?
    ensures AllStarted(s, es) + Run(s, es).tasks == s.tasks + AllAdded(s, es)
    decreases |es|
  {
    hide Next, Started, Added;
    if |es| > 0 {
      var t := Next(s, es[0]);
      OneTask(s, es[0]);
      TasksInOrder(t, es[1..]);
      Regroup(Started(s, es[0]), AllStarted(t, es[1..]), Run(t, es[1..]).tasks, t.tasks, AllAdded(t, es[1..]),
              s.tasks, Added(s, es[0]));
    }
  }

  // ----- leaving the loop -----

  lemma {:induction false} AscendingIsTheSet(ids: set<nat>, n: nat)
    ensures forall id: nat :: id in Ascending(ids, n) <==> id in ids && id < n
    ensures forall i, j :: 0 <= i < j < |Ascending(ids, n)| ==> Ascending(ids, n)[i] < Ascending(ids, n)[j]
    decreases n
  {
    if n > 0 {
      AscendingIsTheSet(ids, n - 1);
      var r := Ascending(ids, n - 1);
      forall i | 0 <= i < |r| ensures r[i] < n - 1 {
        assert r[i] in r;
      }
    }
  }

  /** The task resumes that fibre. */
  predicate Resuming(t: Task, id: nat) {
    t.Thread? && t.id == id
  }

  /**
   * A round that ends with nothing to do leaves the loop exactly when no fibre is suspended;
   * otherwise every suspended fibre gets one resume task, oldest first, each with its own exception.
   */
  lemma NobodyLeftBehind(s: System, timers: bool, exceptions: seq<Value>)
    requires Valid(s) && s.running
    ensures var d := Drain(s, timers, exceptions);
      && (!d.running <==> |s.tasks| == 0 && !timers && s.paused == map[])
      && (|s.tasks| == 0 && !timers ==>
            && (forall id: nat :: id in s.paused <==> exists i :: 0 <= i < |d.tasks| && Resuming(d.tasks[i], id))
            && (forall i, j :: 0 <= i < j < |d.tasks| ==>
                  d.tasks[i].Thread? && d.tasks[j].Thread? && d.tasks[i].id < d.tasks[j].id)
            && (forall i :: 0 <= i < |d.tasks| && i < |exceptions| ==> d.tasks[i].argument == exceptions[i]))
  {
    var d := Drain(s, timers, exceptions);
    if |s.tasks| == 0 && !timers {
      var ids := Ascending(s.paused.Keys, s.nextId);
      AscendingIsTheSet(s.paused.Keys, s.nextId);
      if s.paused != map[] {
        hide Ascending;
        ResumesEach(ids, exceptions);
        forall id: nat | id in s.paused ensures exists i :: 0 <= i < |d.tasks| && Resuming(d.tasks[i], id) {
          assert id in ids;
        }
      }
    }
  }

  lemma ResumesEach(ids: seq<nat>, exceptions: seq<Value>)
    ensures forall id: nat :: id in ids <==> exists i :: 0 <= i < |ids| && Resuming(Resumes(ids, exceptions)[i], id)
    ensures forall i :: 0 <= i < |ids| ==>
      Resumes(ids, exceptions)[i].Thread? && Resumes(ids, exceptions)[i].id == ids[i]
  {
    var r := Resumes(ids, exceptions);
    forall id: nat | id in ids ensures exists i :: 0 <= i < |ids| && Resuming(r[i], id) {
      var i :| 0 <= i < |ids| && ids[i] == id;
      assert Resuming(r[i], id);
    }
  }

  // ----- what the loop does not clean up -----

  /**
   * One round trip of a fibre: called back, suspends, is resumed with `v`, and returns `v`. `regs`
   * is what its function has done to the registers by the time it returns.
   */
  function RoundTrip(f: nat, arguments: seq<Value>, v: Value, regs: Registers, heap: Heap, id: nat): seq<Event> {
    [Register(Callback(Some(f), arguments)), Take, Suspend, Stop(true, []),
     Register(Thread(id, v)), Take, Work(regs, heap), Stop(true, [])]
  }

  /**
   * The result of a resumed fibre is never popped: after its round trip the operand stack, on
   * which the next callback starts, is one value deeper.
   */
  lemma ResultStaysBehind(s: System, f: nat, arguments: seq<Value>, v: Value)
    requires Valid(s) && Ready(s) && |s.tasks| == 0
    requires f < |s.heap.funcs| && s.heap.funcs[f].minimum <= CALLBACK_ARGC
    ensures var t := Next(Next(s, Register(Callback(Some(f), arguments))), Take);
      var done := t.regs.(stack := s.regs.stack + [v], ip := t.regs.ip + SYSCALL_LENGTH);
      var s' := Run(s, RoundTrip(f, arguments, v, done, t.heap, s.nextId));
      && Valid(s') && Ready(s') && |s'.tasks| == 0 && s'.heap.funcs == s.heap.funcs
      && StandingOf(s', s.nextId).Done?
      && s'.regs.stack == s.regs.stack + [v]
  {
    hide Next;
    var t := Next(Next(s, Register(Callback(Some(f), arguments))), Take);
    var done := t.regs.(stack := s.regs.stack + [v], ip := t.regs.ip + SYSCALL_LENGTH);
    var es := RoundTrip(f, arguments, v, done, t.heap, s.nextId);
    FirstHalf(s, f, arguments);
    Unroll8(s, es);
    SecondHalf(t, v, done);
    AlwaysValid(s, es);
  }

  /** A callback starts a fresh fibre on the stack as it is. */
  lemma FirstHalf(s: System, f: nat, arguments: seq<Value>)
    requires Valid(s) && Ready(s) && |s.tasks| == 0
    requires f < |s.heap.funcs| && s.heap.funcs[f].minimum <= CALLBACK_ARGC
    ensures var t := Next(Next(s, Register(Callback(Some(f), arguments))), Take);
      && Valid(t) && Busy(t) && t.phase.Called? && t.running && t.tasks == [] && t.uid == s.nextId < t.nextId
      && t.regs.stack == s.regs.stack && t.heap.funcs == s.heap.funcs && t.paused == s.paused
  {
    hide FrameLocals, Drain;
    var s1 := Next(s, Register(Callback(Some(f), arguments)));
    assert s1.tasks == [Callback(Some(f), arguments)];
    ValidKept(s1, Take);
  }

  /** A fibre that has just been called back suspends, is resumed and returns. */
  lemma SecondHalf(t: System, v: Value, done: Registers)
    requires Valid(t) && Busy(t) && t.phase.Called? && t.running && |t.tasks| == 0 && |done.stack| > 0
    ensures var s4 := Next(Next(t, Suspend), Stop(true, []));
      var s6 := Next(Next(s4, Register(Thread(t.uid, v))), Take);
      Next(Next(s6, Work(done, t.heap)), Stop(true, [])) == t.(regs := done, phase := Idle)
  {
    hide FrameLocals, Begin, Ascending, Resumes;
    var s4 := Next(Next(t, Suspend), Stop(true, []));
    assert Ready(s4) && s4.tasks == [] && t.uid in s4.paused;
    var s5 := Next(s4, Register(Thread(t.uid, v)));
    assert s5.tasks == [Thread(t.uid, v)];
    var s6 := Next(s5, Take);
    assert s6.paused == t.paused;
  }

  /** The fibre was suspended at some moment of the run. */
  predicate EverPaused(s: System, es: seq<Event>, id: nat)
    decreases |es|
  {
    id in s.paused || (|es| > 0 && EverPaused(Next(s, es[0]), es[1..], id))
  }

  /** The operand stack on which the run started the fibre. */
  function StartedOn(s: System, es: seq<Event>, id: nat): Option<seq<Value>>
    decreases |es|
  {
    if |es| == 0 then None
    else if s.nextId == id && Next(s, es[0]).nextId > id then Some(s.regs.stack)
    else StartedOn(Next(s, es[0]), es[1..], id)
  }

  /** A fibre that was suspended only ever goes on as a resumed one. */
  lemma {:induction false} OnceContinued(s: System, es: seq<Event>, id: nat)
    requires Valid(s) && id < s.nextId && (StandingOf(s, id).Executing? ==> s.phase.Continued?)
    ensures Busy(Run(s, es)) && Run(s, es).uid == id ==> Run(s, es).phase.Continued?
    decreases |es|
  {
    hide Drain, FrameLocals;
    if |es| > 0 {
      ValidKept(s, es[0]);
      StillContinued(s, es[0], id);
      OnceContinued(Next(s, es[0]), es[1..], id);
    } else {
      AlwaysValid(s, es);
    }
  }

  lemma StillContinued(s: System, e: Event, id: nat)
    requires Valid(s) && id < s.nextId && (StandingOf(s, id).Executing? ==> s.phase.Continued?)
    ensures id < Next(s, e).nextId && (StandingOf(Next(s, e), id).Executing? ==> Next(s, e).phase.Continued?)
  {
    hide Drain, FrameLocals;
  }

  /** One event in the life of a fibre that was never suspended. */
  lemma CalledStep(s: System, e: Event, id: nat)
    requires Valid(s) && (StandingOf(s, id).Unborn? || (StandingOf(s, id).Executing? && s.phase.Called?))
    ensures var t := Next(s, e);
      StandingOf(t, id).Unborn? || (StandingOf(t, id).Executing? && t.phase.Called?) || id in t.paused ||
      StandingOf(t, id).Done?
    ensures StandingOf(s, id).Unborn? && !StandingOf(Next(s, e), id).Unborn? ==> s.nextId == id
  {
    hide Drain, FrameLocals;
  }

  /** A fibre executes as a callback exactly as long as it has never been suspended. */
  lemma {:induction false} CalledExactly(s: System, es: seq<Event>, id: nat)
    requires Valid(s) && (StandingOf(s, id).Unborn? || (StandingOf(s, id).Executing? && s.phase.Called?))
    ensures var s' := Run(s, es);
      Busy(s') && s'.uid == id ==>
        && (s'.phase.Called? <==> !EverPaused(s, es, id))
        && (StandingOf(s, id).Unborn? ==> StartedOn(s, es, id).Some?)
    decreases |es|
  {
    if |es| == 0 {
    } else {
      hide Next, Drain;
      var t := Next(s, es[0]);
      ValidKept(s, es[0]);
      CalledStep(s, es[0], id);
      if id in t.paused {
        OnceContinued(t, es[1..], id);
      } else if StandingOf(t, id).Done? {
        DoneForGood(t, es[1..], id);
      } else {
        CalledExactly(t, es[1..], id);
      }
    }
  }

  /**
   * In every run, when a fibre that has returned `v` on top of the stack it was started on finishes, the stack
   * is as it was exactly if the fibre was never suspended; otherwise `v` stays on it.
   */
  lemma FinishedStack(s: System, es: seq<Event>, id: nat, v: Value, timers: bool, exceptions: seq<Value>)
    requires Valid(s) && StandingOf(s, id).Unborn?
    requires var s' := Run(s, es); Busy(s') && s'.uid == id
    requires StartedOn(s, es, id).Some? ==> Run(s, es).regs.stack == StartedOn(s, es, id).value + [v]
    ensures StartedOn(s, es, id).Some?
    ensures var before, after := StartedOn(s, es, id).value, Next(Run(s, es), Stop(timers, exceptions)).regs.stack;
      && (after == before <==> !EverPaused(s, es, id))
      && (EverPaused(s, es, id) ==> after == before + [v])
  {
    hide Run, EverPaused, StartedOn, Ascending, Resumes;
    CalledExactly(s, es, id);
    var before := StartedOn(s, es, id).value;
    assert (before + [v])[..|before + [v]| - 1] == before;
    assert |before + [v]| != |before|;
  }

  lemma Unroll8(s: System, es: seq<Event>)
    requires |es| == 8
    ensures Run(s, es) ==
      Next(Next(Next(Next(Next(Next(Next(Next(s, es[0]), es[1]), es[2]), es[3]), es[4]), es[5]), es[6]), es[7])
  {
    var a := Next(Next(s, es[0]), es[1]);
    var b := Next(Next(a, es[2]), es[3]);
    var c := Next(Next(b, es[4]), es[5]);
    Unroll2(s, es);
    Unroll2(a, es[2..]);
    Unroll2(b, es[4..]);
    Unroll2(c, es[6..]);
    assert es[2..][2..] == es[4..] && es[4..][2..] == es[6..];
  }

  lemma Unroll2(s: System, es: seq<Event>)
    requires |es| >= 2
    ensures Run(s, es) == Run(Next(Next(s, es[0]), es[1]), es[2..])
  {
    assert es[1..][1..] == es[2..];
  }

  /** The events of `n` round trips in a row. */
  ghost function Trips(s: System, f: nat, arguments: seq<Value>, v: Value, n: nat): seq<Event>
    decreases n
  {
    if n == 0 then []
    else
      var t := Next(Next(s, Register(Callback(Some(f), arguments))), Take);
      var done := t.regs.(stack := s.regs.stack + [v], ip := t.regs.ip + SYSCALL_LENGTH);
      var es := RoundTrip(f, arguments, v, done, t.heap, s.nextId);
      es + Trips(Run(s, es), f, arguments, v, n - 1)
  }

  lemma {:induction false} RunAppend(s: System, a: seq<Event>, b: seq<Event>)
    ensures Run(s, a + b) == Run(Run(s, a), b)
    decreases |a|
  {
    if |a| == 0 {
      assert a + b == b;
    } else {
      assert (a + b)[1..] == a[1..] + b;
      RunAppend(Next(s, a[0]), a[1..], b);
    }
  }

  /** The operand stack grows without bound although no fibre is left. */
  lemma {:induction false} ResultsPileUp(s: System, f: nat, arguments: seq<Value>, v: Value, n: nat)
    requires Valid(s) && Ready(s) && |s.tasks| == 0
    requires f < |s.heap.funcs| && s.heap.funcs[f].minimum <= CALLBACK_ARGC
    ensures var s' := Run(s, Trips(s, f, arguments, v, n));
      Ready(s') && |s'.tasks| == 0 && |s'.regs.stack| == |s.regs.stack| + n
    decreases n
  {
    if n > 0 {
      var t := Next(Next(s, Register(Callback(Some(f), arguments))), Take);
      var done := t.regs.(stack := s.regs.stack + [v], ip := t.regs.ip + SYSCALL_LENGTH);
      var es := RoundTrip(f, arguments, v, done, t.heap, s.nextId);
      var s' := Run(s, es);
      var more := Trips(s', f, arguments, v, n - 1);
      assert Trips(s, f, arguments, v, n) == es + more;
      hide Next, RoundTrip, Run, StandingOf, Valid, Trips;
      ResultStaysBehind(s, f, arguments, v);
      RunAppend(s, es, more);
      ResultsPileUp(s', f, arguments, v, n - 1);
    }
  }

  // ----- the runtime -----

  class Runtime {
    var uid: nat
    var stack: seq<Value>
    var frame: Option<nat>
    var catches: seq<Table>
    var ip: int
    var heap: Heap
    var paused: map<nat, Fibre>
    var tasks: seq<Task>
    var nextId: nat
    var phase: Phase
    var halted: bool
    var running: bool

    /** The runtime as a value. */
    ghost function State(): System
      reads this
    {
      System(uid, Registers(stack, frame, catches, ip), heap, paused, tasks, nextId, phase, halted, running)
    }

    constructor (functions: Heap)
      ensures Valid(State()) && Ready(State()) && tasks == [] && paused == map[] && stack == [] && heap == functions
    {
      uid, nextId, phase, halted, running := 0, 0, Idle, false, true;
      stack, frame, catches, ip, heap := [], None, [], 0, functions;
      paused, tasks := map[], [];
    }

    method RegisterTask(task: Task)
      requires !phase.Panicked?
      modifies this`tasks
      ensures State() == Next(old(State()), Register(task))
    {
      tasks := tasks + [task];
    }

    method ResumeThread(id: nat, argument: Value)
      requires !phase.Panicked?
      modifies this`tasks
      ensures State() == Next(old(State()), Register(Thread(id, argument)))
    {
      RegisterTask(Thread(id, argument));
    }

    method GetNextThreadUid() returns (id: nat)
      modifies this`nextId
      ensures id == old(nextId) && nextId == id + 1
    {
      id := nextId;
      nextId := nextId + 1;
    }

    /** Files the running fibre and stops the machine; the system call's own result follows. */
    method SuspendThread()
      requires Busy(State())
      modifies this
      ensures State() == Next(old(State()), Suspend)
    {
      halted := true;
      var record := Fibre(uid, Registers(stack, frame, catches, ip + SYSCALL_LENGTH));
      stack := [];
      if uid !in paused {
        paused := paused[uid := record];
      }
      stack := stack + [Null];
      ip := ip + SYSCALL_LENGTH;
    }

    /** Pops a task and starts it, as far as entering `run`. */
    method StartTask()
      requires Ready(State()) && |tasks| > 0
      modifies this
      ensures State() == Next(old(State()), Take)
    {
      var task := tasks[0];
      tasks := tasks[1..];
      match task
      case Thread(id, argument) => Restore(id, argument);
      case Callback(func, arguments) => CallBack(func, arguments);
    }

    /** Restores a suspended fibre and pushes the resume argument. */
    method Restore(id: nat, argument: Value)
      requires Ready(State())
      modifies this
      ensures State() == Start(old(State()), Thread(id, argument))
    {
      if id !in paused {
        phase := Panicked(InvalidThreadId);
        return;
      }
      var fibre := paused[id];
      uid := fibre.uid;
      stack, frame, catches, ip := fibre.saved.stack, fibre.saved.frame, fibre.saved.catches, fibre.saved.ip;
      paused := paused - {id};
      stack := stack + [argument];
      phase, halted := Continued, false;
    }

    /** Enters a function without a caller and gives the new fibre its id. */
    method CallBack(func: Option<nat>, arguments: seq<Value>)
      requires Ready(State())
      modifies this
      ensures State() == Start(old(State()), Callback(func, arguments))
    {
      if func.None? || func.value >= |heap.funcs| {
        phase := Panicked(TaskNotCallable);
        return;
      }
      var fn := heap.funcs[func.value];
      if CALLBACK_ARGC < fn.minimum {
        phase := Panicked(NoCatchTable);
        return;
      }
      frame, catches := None, [];
      var entered := Frame(frame, Some(fn.context), catches, None, FrameLocals(fn, arguments, |heap.arrs|));
      frame := Some(|heap.frames|);
      heap := Heap(heap.frames + [entered], heap.funcs,
                   if fn.needsArguments then heap.arrs + [arguments] else heap.arrs);
      ip := fn.body;
      uid := GetNextThreadUid();
      phase, halted := Called, false;
    }

    /** What follows `run`: a callback's result is popped, then the loop looks for an end. */
    method FinishTask(timers: bool, exceptions: seq<Value>)
      requires phase.Called? || phase.Continued?
      requires Valid(State())
      modifies this
      ensures State() == Next(old(State()), Stop(timers, exceptions))
    {
      if phase.Called? {
        if |stack| == 0 {
          phase := Panicked(EmptyStack);
          return;
        }
        stack := stack[..|stack| - 1];
      }
      phase := Idle;
      CheckForEnd(timers, exceptions);
    }

    method CheckForEnd(timers: bool, exceptions: seq<Value>)
      requires phase.Idle?
      requires Valid(State())
      modifies this`tasks, this`running
      ensures State() == Drain(old(State()), timers, exceptions)
    {
      if |tasks| == 0 && !timers {
        if paused != map[] {
          var found := 0;
          for id := 0 to nextId
            invariant running == old(running)
            invariant found == |Ascending(paused.Keys, id)|
            invariant tasks == Resumes(Ascending(paused.Keys, id), exceptions)
          {
            if id in paused {
              ResumeThread(id, if found < |exceptions| then exceptions[found] else Null);
              found := found + 1;
            }
          }
        } else {
          running := false;
        }
      }
    }

    method Shutdown()
      requires Busy(State())
      modifies this`tasks, this`halted, this`running
      ensures State() == Next(old(State()), Exit)
    {
      tasks := [];
      halted := true;
      running := false;
    }
  }
}
