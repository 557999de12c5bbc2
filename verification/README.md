# charly-vm: a verified model

charly-vm compiles a small language to a byte stream, runs it on a stack machine with a mark-and-sweep
collector, and carries prototypes of the locks and of the stop-the-world protocol of its next runtime.
This project models that code in Dafny 4.11 and proves what it is for. `dafny verify dfyconfig.toml`
verifies everything.

## What is modelled

**The compiler and the machine.** `Values` has the operators and `Operators` their laws. `Syntax` and
`Semantics` give trees with resolved variable addresses a
direct meaning by an evaluator with fuel. `Bytecode` is the byte encoding, `Machine` the virtual machine as a
step function over bytes, `Interpreter` the same machine with registers updated in place. `Layout` says what
code a tree is laid out as; `Relation` and `Simulation` prove that such code simulates the evaluator;
`Correctness` draws the conclusions about whole runs; `Rethrow` says what a `try` without
handler throws again. `Assembler` and `CodeGenerator` are the classes that
append bytes, reserve and patch labels and queue function bodies, and are proved to produce that layout.
`Source` is the language before normalisation with a meaning of its own (default values, implicit results),
`Normalizer` the rewriting pass, and `NormalForm` and `NormalMeaning` prove that it preserves meaning;
`ArgumentUse` proves what the marks it sets on functions mean.
`Pipeline` puts the pieces together, from a source unit to the last step of the machine.

**Variables.** `LVarAlloc` models slot allocation and the scope walk, `Scoping` compares what it resolves names to
with lexical scoping, `LexicalAddressing` is about runs of a machine with slots and levels beside one with a
named cell per activation and declaration.

**The runtime.** `Fibres` models the task loop and suspended fibres, `GarbageCollector` marking, sweeping,
the free list and heap growth.

**The concurrency prototypes.** `Locks` and `FairLock` model the two locks over the parking lot as atomic steps
of any number of threads, with compare-and-swap that may fail spuriously; `ThreadQueue` the linked queue;
`Coordinator` the pause protocol. `LockProgress`, `FairProgress` and `PauseProgress` prove that threads can go on. All
steps are sequentially consistent.

**Self-contained algorithms.** `Utf8` is the codec against sections 3 and 4 of RFC 3629, `Disassembler` the
allocation of branch lanes.

## What the code does not do

The proofs turned up places where the code falls short of its purpose. Each has a concrete input and, where
there is one, the exact condition under which it works.

- A condition that compares incomparable operands with `<`, `>`, `<=` or `>=` takes the wrong branch
  (`OppositeBranchExact`). Rewriting `unless !(a < b)` to `if a < b` brings this about where the source
  has no such condition (`NegatedOrderingDiffers`).
- Folding string literals disagrees with the machine from its length limit on (`FoldExact`, `FoldDiffers`).
- Slot reuse is sound exactly if no variable an inner function uses shares its slot with another variable of the
  same loop (`ReuseSoundExactly`): when the loop runs again the other owner overwrites what the inner
  function still reads (`RecycledCapture`, at
  `let g; loop { { let t = 1; if g { g() } } { let a; g = func { a } } }`). Programs without loops are
  safe (`LoopFreeSound`).
- The slot of the exception of a `try` without handler is free again when the finally block is analysed. The block is
  handed it exactly if it declares a variable (`ExceptionSlotReused`), and then that variable is thrown
  instead of the exception (`FinallyLocalThrown`); a function the block calls can overwrite it as well (`CallOverwrites`).
  The exception is rethrown exactly if the slot's value survives (`RethrowsExactly`), which it does if neither
  the block nor any function there is writes the slot (`Rethrows`).
- A function label that is already placed is missed by eight bytes (`PlacedFunctionLabelMisses`); the generator
  only refers to fresh ones.
- `FairLock` stores the lock word after it handed the lock on, and that store can be stale. If the lock has been
  freed by then it stays locked for ever (`LateStoreStrands`, `StrandedForever`), and these are all the runs
  that end so (`StrandedExactly`). If a thread has queued itself by then, the store erases its mark, and it can
  sleep on beside a free lock (`LateStoreLosesSleeper`, `MarkedExactly`). Without such stores no wake-up is lost
  (`NoLostWakeUp`), and mutual exclusion holds in every run.
- `ThreadQueue::pop` never advances `previous` and drops the entries between the head and a later match
  (`PopLosesNobody`). With one queue per address this never happens (`RunIsFifo`).
- A worker that is between the idle check and its publication when a pause is claimed can work during the collection,
  from every such state (`SlippingWorkerWorks`); all others cannot, in any run (`WorldStopped`).
- The result of a fibre is popped exactly if the fibre was never suspended (`FinishedStack`), so the operand stack
  grows without bound (`ResultsPileUp`).
- The lane density is not always the maximum number of active branches, as its documentation says
  (`DensityNotMaximum`). It is an upper bound (`DensityBounds`), and the maximum if no branch lies inside
  another (`DensityIsMaximum`).

## Hypotheses

- `|block| < 2^31`: the generated code fits the offsets.
- `SoundS`: string folds stay below the length limit, every optional parameter has a default, and the tree's
  addresses leave room for an `arguments` slot exactly in the functions that get one.
- Evaluation that would leave the fragment is `Stuck`, and the theorems speak of runs that do not get stuck:
  ordering conditions on incomparable operands, break and continue out of a `try` (`todos.md:344-346`),
  comparisons of two arrays, string operators on other operands, and slots that do not exist.

## Model

| member | source | states |
|---|---|---|
| `Pipeline.CompileSource` | src/compiler/compiler.cpp:68-92 | Normalising a unit whose variables are resolved, then generating, gives bytes that mean what the unit means, for all start values: if it returns or throws, the machine finishes with the same value or stops for want of a handler; if its evaluation never ends, the machine runs for ever; a unit that is a return never corrupts the machine |
| `Pipeline.Computes` | src/vm/vm.cpp:138-262 | The bytes of `return` of a sum, difference or product of two numbers finish with just that number on the stack |
| `Pipeline.Decides` | src/vm/vm.cpp:295-413 | And those of a comparison with just the boolean it should give |
| `Pipeline.SourceComputes` | src/compiler/compiler.cpp:68-92 | From the source on: the bytes of `return 5 - 3` finish with 2, and so for all integers under `+`, `-` and `*` |
| `Pipeline.IntegersCompile` | src/compiler/compiler.cpp:68-92 | And these units do compile |
| `Pipeline.CompileUnit` | src/compiler/codegenerator.cpp:34-46 | A unit compiles if all breaks and continues have targets, inner functions included. The generated bytes end the way direct evaluation of the normalised unit ends, for every start state, and run for ever if it never ends; after any number of steps of a returning unit the machine is running, finished or stopped for want of a handler, never corrupted |
| `Correctness.CodeMeansSource` | src/compiler/codegenerator.cpp:48-844 | Anywhere in a program, in any activation: the code of a statement leads to its end, its break or continue target, a return, or the innermost handler exactly as evaluation says, with the same heap, the same operands below and the same catch tables |
| `Correctness.Diverges` | src/vm/vm.cpp:2029-2100 | A statement whose evaluation never ends keeps the machine running for ever |
| `Correctness.ProgramEnds` | src/vm/vm.cpp:1489-1510 | A unit that returns makes the machine finish with exactly its value on the stack; one that throws makes it stop for want of a handler; and not before |
| `Correctness.NeverCorrupted` | src/vm/vm.cpp:79-136 | No run of a compiled unit underflows the stack, restores a catch table that does not fit, misses a frame or slot, or leaves the code |
| `Correctness.ModeS` | src/compiler/codegenerator.cpp:925-961 | Testing the opposite operator is the plain meaning of a statement wherever its ordering conditions compare comparable operands |
| `Values.OppositeBranchExact` | src/vm/vm.cpp:363-413 | Branching on the opposite operator equals comparing and branching unless, if and only if the operator is an equality or the operands are both non-NaN numbers or both strings |
| `Values.IncomparableConditionTaken` | src/vm/vm.cpp:367-413 | `1 < null` is false and so is its opposite, so a block guarded by it runs |
| `Operators.Addition` | src/vm/vm.cpp:138-141 | Adding numbers is commutative, associative and monotonic, has unit 0, and adding 1 counts |
| `Operators.Subtraction` | src/vm/vm.cpp:209-215 | Subtraction is undone by addition and undoes it |
| `Operators.Multiplication` | src/vm/vm.cpp:217-220 | Multiplying is commutative, has unit 1, distributes over addition and keeps positive numbers positive |
| `Operators.Counting` | src/vm/vm.cpp:217-220 | n times a number is one more of it than n - 1 times |
| `Operators.Negation` | src/vm/vm.cpp:283-293 | A number and its negation cancel; unary plus keeps any operand; negating anything else gives NaN |
| `Operators.NotANumber` | src/vm/vm.cpp:138-262 | Arithmetic on operands that are not both numbers gives NaN, strings and sums with an array apart |
| `Operators.LessThan` | src/vm/vm.cpp:363-373 | One number is less than another if and only if some positive number makes up the difference |
| `Operators.Orderings` | src/vm/vm.cpp:363-413 | For any two values: the orderings are mirrors of one another, complements where there is an order, false elsewhere |
| `Operators.Trichotomy` | src/vm/vm.cpp:295-373 | Of two numbers exactly one is less, or they are equal |
| `Operators.Equality` | src/vm/vm.cpp:295-361 | Equality is identity, NaN included, and its negation the opposite |
| `Operators.StringOrder` | src/vm/vm.cpp:368-370 | Strings are ordered by their lengths |
| `Operators.Truth` | include/value.h:1262-1268 | Exactly null, false, NaN and zero are false, and `!` turns that round |
| `Operators.Concatenation` | src/vm/vm.cpp:159-199 | Strings are put one behind the other, up to the length limit |
| `Operators.Copies` | src/vm/vm.cpp:222-259 | A string times a number is that many copies: none for 0, one more for each whole one more |
| `Operators.Fractions` | src/vm/vm.cpp:222-236 | Only the whole part of the number counts, a negative one gives nothing, and the order of the operands is free |
| `Operators.TooLong` | src/vm/vm.cpp:175-236 | From the length limit on the result is null |
| `Operators.Messages` | src/vm/vm.cpp:781-830 | The texts of the two errors a call can raise |
| `Operators.TypeNamesTell` | src/vm/vm.cpp:781-824 | The type named in the message tells the kinds of values apart |
| `Correctness.FunctionDecodes` | src/compiler/codegenerator.cpp:687-699 | The instruction of a function literal carries its name, flags and counts, and leads to the code of its body |
| `Simulation.SimE` | src/compiler/codegenerator.cpp:298-311 | An expression pushes exactly its value, or its exception reaches the innermost handler; everything below on the stack and all catch tables stay |
| `Simulation.SimTernary` | src/compiler/codegenerator.cpp:64-89 | The code of a conditional expression runs the chosen branch and joins behind it |
| `Simulation.SimShort` | src/compiler/codegenerator.cpp:383-413 | `and` and `or` evaluate their right operand only if needed and leave one value on either path |
| `Simulation.SimS` | src/compiler/codegenerator.cpp:48-62 | A statement nets zero on the stack on every path, break, continue, return and throw included |
| `Simulation.SimIfElse` | src/compiler/codegenerator.cpp:114-139 | Exactly the chosen branch runs and both meet at the end |
| `Simulation.SimUnless` | src/compiler/codegenerator.cpp:141-152 | The block runs exactly if the condition is not truthy |
| `Simulation.SimWhile` | src/compiler/codegenerator.cpp:228-254 | The loop runs its body as often as evaluation does; break and continue reach its end and its condition |
| `Simulation.SimDoUntil` | src/compiler/codegenerator.cpp:202-226 | The body runs before the first test and continue leads to the test |
| `Simulation.SimLoop` | src/compiler/codegenerator.cpp:279-296 | An endless loop is left only by break, return or throw |
| `Simulation.SimSwitch` | src/compiler/codegenerator.cpp:315-381 | The first case with an equal condition runs, the subject is popped on every path, and break leaves the switch |
| `Simulation.SimTryCatch` | src/compiler/codegenerator.cpp:790-844 | The handler starts in the registering frame with the saved stack size plus the payload; the finally block runs behind body and handler; tables below are untouched |
| `Simulation.SimTryFinally` | src/compiler/codegenerator.cpp:823-836 | Without a handler the finally block runs on both paths, and behind it on the exceptional path what the exception's slot then holds is thrown |
| `Rethrow.RethrowsExactly` | src/compiler/codegenerator.cpp:823-836 | When the finally block completes, the caught exception is thrown again if and only if the value in its slot is what was stored there |
| `Rethrow.Rethrows` | src/compiler/codegenerator.cpp:823-836 | It is thrown again whenever neither the finally block nor any function that exists when the block starts writes the slot, whatever the block calls and however often |
| `Rethrow.FinallyLocalThrown` | src/compiler/lvar-rewrite.cpp:203-221 | Wherever `try { throw 1 } finally { let x = 2 }` stands, allocation gives exception and variable one slot, and 2 is thrown |
| `Rethrow.CallOverwrites` | src/compiler/lvar-rewrite.cpp:203-221 | A finally block that declares nothing but calls a function that writes the recycled slot: the function's value is thrown |
| `Simulation.SimInvoke` | src/vm/vm.cpp:781-879 | A call checks the callee and the argument count, enters an activation whose slots are the arguments, and comes back behind the call instruction with one value and the caller's frame and catch stack, or at the innermost handler |
| `Relation.LocalsAgree` | src/vm/vm.cpp:856-876 | Writing the arguments one by one into a fresh frame gives the activation the evaluator starts with, with and without the shift for the `arguments` slot |
| `Relation.UnwindLands` | src/vm/vm.cpp:79-136 | An unwound table whose frame is on the chain and whose size fits restores frame, stack size and remaining tables and pushes the payload |
| `Simulation.Returns` | src/vm/vm.cpp:1489-1506 | Return restores frame and catch stack of the caller and continues behind its call with the value on the caller's operands |
| `Relation.AtReturn` | src/compiler/codegenerator.cpp:752-756 | A return statement brings the machine to a return instruction with its value on the operands there were, in the frame it was in |
| `Bytecode.FetchEncode` | include/instructionblock.h:38-290 | Decoding inverts encoding for every instruction whose operands fit |
| `Assembling.WalkAppend` | include/opcode.h:490-561 | Walking by instruction lengths, an appended instruction adds exactly one stop, at its own address |
| `Assembling.Assembler.ReserveLabel` | src/compiler/assembler.cpp:30-32 | A reserved label is new and nothing else changes |
| `Assembling.Assembler.PlaceLabel` | src/compiler/assembler.cpp:40-43 | A placed label has the current end as its address and nothing else changes |
| `Assembling.Assembler.PlaceNewLabel` | src/compiler/assembler.cpp:34-38 | Reserves a new label and places it at the current end |
| `Assembling.Assembler.WriteJumpToLabel` | src/compiler/assembler.cpp:45-163 | A jump to a placed label gets its offset at once, another is recorded with base and target; boundaries and labels stay well formed |
| `Assembling.Assembler.WritePutFunctionToLabel` | src/compiler/assembler.cpp:165-193 | The same for function bodies, whose operand lies nine bytes behind the base |
| `Assembling.Assembler.ResolveUnresolvedLabelReferences` | src/compiler/assembler.cpp:195-208 | Every recorded operand holds the distance from base to label, other bytes are unchanged, and only references to unplaced labels remain |
| `Assembling.ReferredFetch` | src/compiler/assembler.cpp:45-193 | In any completion of the buffer a jump decodes to an instruction that leads from its own base to its label |
| `Assembling.ResolvedCompletes` | src/compiler/assembler.cpp:195-208 | The patched buffer completes the assembler's state: every instruction written and every label referred to is as intended |
| `Assembling.ResolvedWalk` | src/compiler/assembler.cpp:195-208 | Patching moves no instruction boundary |
| `Assembling.PlacedFunctionLabelMisses` | src/compiler/assembler.cpp:172-180 | A function label that is already placed would be missed by eight bytes, a branch label would not |
| `CodeGeneration.CodeGenerator.Compile` | src/compiler/codegenerator.cpp:34-46 | Fails exactly when a break or continue has no target; otherwise the buffer is laid out as the whole tree with all its functions asks, no reference is left, a walk visits exactly the written instructions, and all labels point at them or at the end |
| `CodeGeneration.CodeGenerator.VisitE` | src/compiler/codegenerator.cpp:298-311 | Emits the layout of an expression, queues exactly its functions and leaves the loop stacks as they were |
| `CodeGeneration.CodeGenerator.VisitTernaryIf` | src/compiler/codegenerator.cpp:64-89 | Emits the layout of a conditional expression |
| `CodeGeneration.CodeGenerator.VisitAnd` | src/compiler/codegenerator.cpp:383-397 | Emits the layout of `and` |
| `CodeGeneration.CodeGenerator.VisitOr` | src/compiler/codegenerator.cpp:399-413 | Emits the layout of `or` |
| `CodeGeneration.CodeGenerator.VisitUnary` | src/compiler/codegenerator.cpp:298-304 | Emits operand and operator |
| `CodeGeneration.CodeGenerator.VisitBinary` | src/compiler/codegenerator.cpp:306-313 | Emits left operand, right operand and operator |
| `CodeGeneration.CodeGenerator.VisitAssignment` | src/compiler/codegenerator.cpp:435-448 | Emits the value and the write that keeps it on the stack or not |
| `CodeGeneration.CodeGenerator.VisitCall` | src/compiler/codegenerator.cpp:513-525 | Emits callee, arguments from left to right and the call |
| `CodeGeneration.CodeGenerator.VisitFunction` | src/compiler/codegenerator.cpp:687-699 | Emits a reference to a fresh label and queues the function |
| `CodeGeneration.CodeGenerator.VisitOperands` | src/compiler/codegenerator.cpp:925-928 | Emits the two operands of a comparison for a branch |
| `CodeGeneration.CodeGenerator.VisitS` | src/compiler/codegenerator.cpp:48-62 | Emits the layout of a statement for the current break and continue labels and fails exactly when one is missing |
| `CodeGeneration.CodeGenerator.VisitIf` | src/compiler/codegenerator.cpp:91-112 | Emits the layout of `if`, condition branches included |
| `CodeGeneration.CodeGenerator.VisitIfElse` | src/compiler/codegenerator.cpp:114-139 | Emits the layout of `if`/`else` |
| `CodeGeneration.CodeGenerator.VisitUnless` | src/compiler/codegenerator.cpp:141-152 | Emits the layout of `unless` |
| `CodeGeneration.CodeGenerator.VisitUnlessElse` | src/compiler/codegenerator.cpp:154-169 | Emits the layout of `unless`/`else` |
| `CodeGeneration.CodeGenerator.VisitDoWhile` | src/compiler/codegenerator.cpp:171-200 | Emits the layout of `do`/`while` |
| `CodeGeneration.CodeGenerator.VisitDoUntil` | src/compiler/codegenerator.cpp:202-226 | Emits the layout of `do`/`until` |
| `CodeGeneration.CodeGenerator.VisitWhile` | src/compiler/codegenerator.cpp:228-254 | Emits the layout of `while` |
| `CodeGeneration.CodeGenerator.VisitUntil` | src/compiler/codegenerator.cpp:256-277 | Emits the layout of `until` |
| `CodeGeneration.CodeGenerator.VisitLoop` | src/compiler/codegenerator.cpp:279-296 | Emits the layout of `loop` |
| `CodeGeneration.CodeGenerator.VisitSwitch` | src/compiler/codegenerator.cpp:315-381 | Emits tests, default and case blocks with one label per case |
| `CodeGeneration.CodeGenerator.VisitReturn` | src/compiler/codegenerator.cpp:752-756 | Emits the value and the return |
| `CodeGeneration.CodeGenerator.VisitThrow` | src/compiler/codegenerator.cpp:764-768 | Emits the value and the throw |
| `CodeGeneration.CodeGenerator.VisitBreak` | src/compiler/codegenerator.cpp:770-778 | Emits a jump to the innermost break label, or fails |
| `CodeGeneration.CodeGenerator.VisitContinue` | src/compiler/codegenerator.cpp:780-788 | Emits a jump to the innermost continue label, or fails |
| `CodeGeneration.CodeGenerator.VisitTryCatch` | src/compiler/codegenerator.cpp:790-844 | Emits guarded block, handler and the finally block behind them |
| `CodeGeneration.CodeGenerator.VisitTryFinally` | src/compiler/codegenerator.cpp:823-836 | Emits the finally block on both paths and the rethrow |
| `CodeGeneration.CodeGenerator.VisitQueued` | src/compiler/codegenerator.cpp:34-46 | Generates one queued body; the weight of the queue decreases |
| `NormalMeaning.NormalisingKeepsMeaning` | src/compiler/normalizer.cpp:35-345 | A normalised unit ends as the original does with the same value, diverges exactly when the original does, and stays in the compiled fragment wherever the original is in it |
| `NormalMeaning.NE` | src/compiler/normalizer.cpp:184-261 | Evaluating a rewritten expression mirrors evaluating the original, in any activation, up to which function objects exist |
| `NormalMeaning.NS` | src/compiler/normalizer.cpp:78-182 | Executing a rewritten statement mirrors executing the original, exchanged `if` and `unless` included |
| `NormalMeaning.NRun` | src/compiler/normalizer.cpp:35-76 | Dropping statements that are only a literal, a name or an anonymous function, and everything behind a statement that leaves the block, changes nothing but which function objects exist |
| `NormalMeaning.NBody` | src/compiler/normalizer.cpp:269-293 | A function's value is that of its closing expression, else null |
| `NormalMeaning.NFill` | src/compiler/normalizer.cpp:309-331 | The generated prologue gives exactly the parameters without an argument their defaults, from left to right, and then runs the body |
| `NormalMeaning.NInvoke` | src/vm/vm.cpp:826-879 | A call of the rewritten function mirrors a call of the original for every argument count: arguments and defaults in their slots, with or without the `arguments` slot |
| `NormalMeaning.FunctionsReturn` | src/compiler/normalizer.cpp:269-293 | No normalised function runs off its end, in any state |
| `NormalMeaning.NegatedOrderingDiffers` | src/compiler/normalizer.cpp:131-155 | `unless !(1 < null)` skips its block as written, but runs it once rewritten and compiled |
| `Normalising.DeclaredNames` | src/compiler/normalizer.cpp:480-499 | A declared function takes the name of its variable if it has none, and nothing else about it changes |
| `ArgumentUse.UnmarkedIsBlind` | src/compiler/normalizer.cpp:333-340 | A function that is not marked does the same whatever its `arguments` are, in every state and whatever it calls |
| `ArgumentUse.MentionsLook` | src/vm/vm.cpp:861-872 | `arguments` is the array of the running function and `$i` its element, or null |
| `Normalising.FoldExact` | src/compiler/normalizer.cpp:203-254 | A folded string is what the machine would compute if and only if the lengths stay below the machine's limit |
| `Normalising.FoldDiffers` | src/compiler/normalizer.cpp:218-254 | From 0xffffffff copies on, the machine's result is null and the folded one is not |
| `Normalising.Normalizer.VisitExpr` | src/compiler/normalizer.cpp:184-261 | Rewrites an expression as specified and marks the function if it mentions its arguments |
| `Normalising.Normalizer.VisitBinary` | src/compiler/normalizer.cpp:184-261 | Folds string literals under `+` and `*` |
| `Normalising.Normalizer.Multiplied` | src/compiler/normalizer.cpp:222-247 | Appends the copies of a literal one by one; nothing for a count that is not positive |
| `Normalising.Normalizer.VisitBlock` | src/compiler/normalizer.cpp:35-76 | Drops statements without effect and everything behind one that leaves the block, and closes a function body |
| `Normalising.Normalizer.VisitConditional` | src/compiler/normalizer.cpp:78-182 | Removes one negation from the condition and changes the sense of the statement |
| `Normalising.Normalizer.VisitFunction` | src/compiler/normalizer.cpp:263-345 | Marks a function if its body or a default needs the arguments array and restores the outer mark |
| `Normalising.Normalizer.AddDefaults` | src/compiler/normalizer.cpp:309-331 | Prepends one guarded default per optional parameter, the first parameter's first |
| `Normalising.Normalizer.VisitStmt` | src/compiler/normalizer.cpp:78-182 | Rewrites a statement as specified |
| `Interpreter.VM.Run` | src/vm/vm.cpp:2029-2100 | Running instruction by instruction in place gives the state the step function gives, for every state and any bytes |
| `Interpreter.VM.TravelTo` | src/vm/vm.cpp:908-920 | Follows the environments to the frame a slot lives in, or reports that there is none |
| `Interpreter.VM.OpReadLocal` | src/vm/vm.cpp:908-927 | Pushes the slot, or stops for a missing frame or slot |
| `Interpreter.VM.OpSetLocal` | src/vm/vm.cpp:1030-1094 | Pops into the slot and puts the value back if asked to |
| `Interpreter.VM.UnwindCatchstack` | src/vm/vm.cpp:79-136 | Restores the top table by walking frames and popping values |
| `Interpreter.VM.FillLocals` | src/vm/vm.cpp:856-876 | Writes the arguments into the slots |
| `Interpreter.VM.EnterFunction` | src/vm/vm.cpp:826-879 | Checks the count and enters a frame that remembers the caller |
| `Interpreter.VM.OpCall` | src/vm/vm.cpp:781-824 | Pops the arguments from last to first, then the callee |
| `Interpreter.VM.OpReturn` | src/vm/vm.cpp:1489-1506 | Restores the caller, or ends the run |
| `Interpreter.VM.OpRegisterCatchTable` | src/vm/vm.cpp:1530-1543 | Registers frame, handler address and stack size |
| `Interpreter.VM.OpBranch` | src/vm/vm.cpp:1563-1619 | A taken branch moves by its offset, one that is not taken or has offset 0 falls through |
| `Interpreter.VM.OpPutFunction` | src/vm/vm.cpp:1279-1298 | Pushes a function that closes over the current frame |
| `Fibres.SuspendIsOneInstruction` | src/vm/vm.cpp:2971-2980 | Whatever events happen in between, a resumed fibre goes on right behind the system call with the stack, frame and catch stack it had plus the resume argument |
| `Fibres.Lifecycle` | src/vm/vm.cpp:2876-2914 | A fibre is unborn, executing, waiting once or done; it moves only along this cycle, by the named event, and its record is untouched while it waits |
| `Fibres.AlwaysValid` | src/vm/vm.cpp:2967-2980 | In every run suspended fibres are filed under their own issued ids and the executing one is not filed |
| `Fibres.CallbackStarts` | src/vm/vm.cpp:2896-2913 | A called-back fibre starts in a new frame without caller or catch table, in its function's environment and at its body; every slot holds its argument, the `arguments` array, or null; nothing else changes |
| `Fibres.CallbackFails` | src/vm/vm.cpp:2896-2918 | Any other callback is fatal: without a function, or for one that asks for more than four arguments |
| `Fibres.SuspendMovesStack` | src/vm/vm.cpp:2971-2980 | A suspended fibre takes its stack with it, and no other record changes |
| `Fibres.ExitIsFinal` | src/vm/vm.cpp:2958-2964 | After a shutdown the queue is empty and no task is ever started again |
| `Fibres.DoneForGood` | src/vm/vm.cpp:2876-2880 | A finished id is never issued, filed or resumed again, and an attempt to resume it is fatal |
| `Fibres.TasksInOrder` | src/vm/vm.cpp:2982-3005 | Until the runtime exits, the tasks started so far followed by the queue are the tasks there were followed by the tasks added |
| `Fibres.NobodyLeftBehind` | src/vm/vm.cpp:2941-2954 | The loop is left by itself only if no fibre waits; otherwise every waiting fibre gets exactly one resume task, oldest first, with an exception of its own |
| `Fibres.FinishedStack` | src/vm/vm.cpp:2893-2914 | In every run, when a fibre that has returned finishes, the operand stack is the one it was started on if and only if it was never suspended; else it is longer by exactly its result |
| `Fibres.CalledExactly` | src/vm/vm.cpp:2893-2914 | An executing fibre counts as a callback, whose result is popped, exactly as long as it was never suspended |
| `Fibres.ResultStaysBehind` | src/vm/vm.cpp:2893-2914 | The value a resumed fibre returns stays on the operand stack the next callback starts on |
| `Fibres.ResultsPileUp` | src/vm/vm.cpp:2893-2914 | So the operand stack grows without bound although no fibre is left |
| `Fibres.Runtime.StartTask` | src/vm/vm.cpp:2867-2918 | Pops the first task and starts it, or stops for an unknown id or a task without function |
| `Fibres.Runtime.Restore` | src/vm/vm.cpp:2873-2895 | Restores a waiting fibre, forgets its record and pushes the argument |
| `Fibres.Runtime.CallBack` | src/vm/vm.cpp:2896-2913 | Enters the function without a caller and issues the next id |
| `Fibres.Runtime.FinishTask` | src/vm/vm.cpp:2914-2954 | Pops a callback's result, then looks for an end |
| `Fibres.Runtime.CheckForEnd` | src/vm/vm.cpp:2941-2954 | Wakes every waiting fibre, or leaves the loop |
| `Fibres.Runtime.SuspendThread` | src/vm/vm.cpp:2971-2980 | Files the executing fibre and stops the machine |
| `Fibres.Runtime.Shutdown` | src/vm/vm.cpp:2958-2964 | Empties the queue and stops machine and loop |
| `SlotAllocation.FunctionScope.AllocSlot` | src/compiler/lvar-alloc.cpp:35-57 | Recycles the last inactive slot, else appends one |
| `SlotAllocation.FunctionScope.MarkAsFree` | src/compiler/lvar-alloc.cpp:59-69 | Frees a slot unless it is leaked |
| `SlotAllocation.FunctionScope.MarkAsLeaked` | src/compiler/lvar-alloc.cpp:71-75 | A leaked slot is never free again |
| `SlotAllocation.VisitKeeps` | src/compiler/lvar-rewrite.cpp:37-115 | Every step of the walk over a tree keeps slots, scopes and declarations consistent |
| `SlotAllocation.VisitCorrect` | src/compiler/lvar-rewrite.cpp:37-115 | Every use is resolved to a declaration that the functions around it reach |
| `SlotAllocation.InScopeDistinct` | src/compiler/lvar-alloc.cpp:35-87 | At every moment the declarations of one function that are in scope have different slots below its slot count |
| `SlotAllocation.CapturedSlotKept` | include/lvar-alloc.h:76-84 | The slot of a variable an inner function used is never handed out again |
| `SlotAllocation.AppendedIsFresh` | src/compiler/lvar-alloc.cpp:35-57 | A slot was appended if and only if no earlier declaration had it |
| `SlotAllocation.UsesAddressed` | src/compiler/lvar-alloc.cpp:128-171 | A use is addressed by its declaration's slot and the number of functions in between |
| `SlotAllocation.LookupInnermost` | src/compiler/lvar-alloc.cpp:128-171 | A name is found if and only if some scope has it, and then in the innermost one that has it |
| `Scoping.UsesReferRightly` | src/compiler/lvar-alloc.cpp:128-171 | In every tree a use refers to a declaration of its name that is in scope where it stands, and to the latest one |
| `Scoping.ResolvedExactly` | src/compiler/lvar-alloc.cpp:128-171 | A name is resolved if and only if a declaration of it is in scope |
| `Scoping.NamesAreLexical` | src/compiler/lvar-rewrite.cpp:37-115 | All uses of a unit are resolved as lexical scoping with an environment resolves them, in order, and an error is counted for each declaration that repeats a name of its scope |
| `SlotAllocation.LookupLevel` | src/compiler/lvar-alloc.cpp:128-171 | The level the search counts is the number of functions between use and declaration |
| `SlotAllocation.ExceptionSlotReused` | src/compiler/lvar-rewrite.cpp:203-221 | The finally block of a `try` without handler is handed the exception's slot again if and only if it declares a variable |
| `SlotAllocation.FinallyLocalSlot` | src/compiler/lvar-rewrite.cpp:203-221 | Its first variable gets that slot |
| `SlotAllocation.VisitLoops` | src/compiler/lvar-rewrite.cpp:37-115 | Loops, scopes and lifetimes of declarations nest at every step of the walk |
| `SlotAllocation.ParameterSlots` | src/compiler/lvar-rewrite.cpp:37-59 | Distinct parameters take the first slots in order, behind `arguments` if there is one |
| `LexicalAddressing.ReadsSound` | src/vm/vm.cpp:908-927 | In every run of activations, assignments, jumps and calls, a read through slot and level sees the named cell, if no loop contains a variable used from inside together with another owner of its slot |
| `LexicalAddressing.LoopReadsWrong` | src/compiler/lvar-alloc.cpp:35-75 | If a loop does contain both, a run that goes once round that loop and in which the inner function then reads the other owner's value is constructed |
| `LexicalAddressing.ReuseSoundExactly` | include/lvar-alloc.h:76-84 | Every read in every run is right if and only if no variable an inner function uses has its slot in common with another variable of the same loop |
| `LexicalAddressing.LoopFreeSound` | src/compiler/lvar-alloc.cpp:35-75 | So a program without loops reads rightly, whatever is captured and recycled |
| `LexicalAddressing.AppendedSound` | src/compiler/lvar-alloc.cpp:35-75 | And so does a program whose captured variables got appended slots |
| `LexicalAddressing.RecycledCapture` | src/compiler/lvar-alloc.cpp:35-75 | A concrete program with a loop for which slot reuse is not sound |
| `Barging.AlwaysInv` | experiments/small-locks.cpp:173-293 | The invariant of lock word, table mutex, queue and parked threads holds in every run, failing compare-and-swaps included |
| `Barging.MutualExclusion` | experiments/small-locks.cpp:248-293 | At most one thread owns the lock, and the locked bit is set exactly while one does |
| `Barging.NoLostWakeUp` | experiments/small-locks.cpp:173-222 | A non-empty queue implies the parked bit; if nobody owns the lock, a thread inside `lock` has been taken off the queue |
| `Barging.SleepersAccountedFor` | experiments/small-locks.cpp:173-222 | A sleeping thread that may not go on is in the queue exactly once or carried by exactly one unlocker, never both |
| `Barging.NeverStuck` | experiments/small-locks.cpp:248-293 | While a thread waits inside `lock`, some thread inside can move |
| `BargingProgress.FastPath` | experiments/small-locks.cpp:248-257 | Whenever nobody owns the lock, a thread that has just called `lock` and runs on without a spurious failure has it after two steps |
| `BargingProgress.FastUnlock` | experiments/small-locks.cpp:272-280 | Freeing it takes one step if nobody has asked for it |
| `BargingProgress.EverybodyCanGetIt` | experiments/small-locks.cpp:248-293 | From every reachable state some continuation gives any thread inside `lock` the lock |
| `BargingProgress.EverybodyCanLeave` | experiments/small-locks.cpp:272-293 | And brings any thread that has it out of `unlock` |
| `Fair.MutualExclusion` | experiments/small-locks.cpp:311-359 | At most one thread has the lock, whether by compare-and-swap or by hand-over, however late the lock word is stored |
| `Fair.HandOverExclusive` | experiments/small-locks.cpp:339-359 | While a thread is being handed the lock nobody owns it |
| `Fair.StrandedExactly` | experiments/small-locks.cpp:349-358 | A run ends with the lock word locked, nobody owning it and nobody being handed it if and only if some step stores `is_locked` after the thread woken by it, or a later owner, has freed the lock |
| `Fair.MarkedExactly` | experiments/small-locks.cpp:349-358 | Waiting threads are marked in the lock word throughout a run if and only if no store of the word takes the mark away from a thread queued since the queue was looked at |
| `Fair.NoLostWakeUp` | experiments/small-locks.cpp:311-359 | So as long as no store comes late in either way, a queued thread implies the parked bit and an owner or a hand-over |
| `Fair.LateStoreLosesSleeper` | experiments/small-locks.cpp:349-358 | A schedule of three threads after which the lock is free, nobody is inside and one thread sleeps in the queue |
| `Fair.LateStoreStrands` | experiments/small-locks.cpp:349-358 | A schedule after which the lock word says locked, nobody owns it and everybody is outside |
| `Fair.StrandedForever` | experiments/small-locks.cpp:311-337 | From there no thread ever gets the lock, whatever the schedule |
| `FairProgress.FastPath` | experiments/small-locks.cpp:311-318 | While the lock word is 0, a thread that calls `lock` and runs on without a spurious failure has it after two steps |
| `FairProgress.EverybodyCanGetIt` | experiments/small-locks.cpp:311-359 | From every reachable state in which no late store has done damage or is bound to, some continuation gives any thread inside `lock` the lock |
| `ParkingQueue.RunIsFifo` | experiments/small-locks.cpp:72-126 | With one address per queue every run of pushes and pops is a run of a first-in first-out queue |
| `ParkingQueue.PopLosesNobody` | experiments/small-locks.cpp:89-126 | `pop` removes just the popped entry if and only if the match is among the first two or there is none |
| `ParkingQueue.PopLosesSecond` | experiments/small-locks.cpp:102-123 | A queue of two addresses that loses an unrelated entry |
| `ParkingQueue.ThreadQueue.Push` | experiments/small-locks.cpp:72-87 | Appends at the tail of the linked list |
| `ParkingQueue.ThreadQueue.Pop` | experiments/small-locks.cpp:89-126 | Hands out the first match and leaves what the search leaves |
| `ParkingQueue.ThreadQueue.Empty` | experiments/small-locks.cpp:128-133 | Head and tail are null exactly if the queue holds nothing |
| `Pausing.AlwaysInv` | experiments/state-notifier-refactored.cpp:113-209 | The invariant of pause flag and worker states holds in every run |
| `Pausing.OneCollectorAtATime` | experiments/state-notifier-refactored.cpp:137-191 | Between a request that returns true and its end no other returns true |
| `Pausing.WorldStopped` | experiments/state-notifier-refactored.cpp:113-209 | Every worker that was not between the idle check and its publication when the pause was claimed is held in sync or not working, in every run, stale flags included |
| `PausingProgress.ReleasedGoesOn` | experiments/state-notifier-refactored.cpp:113-133 | Once the pause is lifted a held worker gets back to its own code by running alone, and is working if that is what it asked for |
| `PausingProgress.EverybodyGoesOn` | experiments/state-notifier-refactored.cpp:113-209 | From every reachable state, paused or not, every worker can get back to its own code |
| `PausingProgress.RequestCanCollect` | experiments/state-notifier-refactored.cpp:137-178 | From every reachable state a request that claims the pause can come to its collection |
| `Pausing.WorkingIsSure` | experiments/state-notifier-refactored.cpp:137-145 | Claiming a pause makes exactly the workers sure that are not between the idle check and its publication, so all that are working |
| `Pausing.SlippingWorkerWorks` | experiments/state-notifier-refactored.cpp:206-208 | The exclusion is exact: from every reachable state in which a pause is claimed while a worker is between the idle check and its publication, some continuation reaches the collection with that worker at work |
| `Collector.MarkedIsReachable` | src/vm/gc.cpp:282-369 | From a heap without marks, exactly the reachable cells get marked, on any graph |
| `Collector.SweptIsCollected` | src/vm/gc.cpp:65-188 | Marking from roots and immortals and then sweeping is an exact collection and leaves no mark |
| `Collector.ChildrenAreReferences` | src/vm/gc.cpp:297-369 | Marking a cell follows exactly the references it holds, field by field |
| `Collector.RootsAreReferences` | src/vm/gc.cpp:71-144 | The roots are exactly what a running VM's registers, stack, tasks, timers, tickers and paused threads hold |
| `Collector.CollectedExactly` | src/vm/gc.cpp:65-188 | Field by field: what the VM refers to, what is immortal and what a survivor refers to survives, and nothing survives that is in no set closed in this way |
| `Collector.GarbageCollector.Mark` | src/vm/gc.cpp:282-369 | Marks all that a value leads to and terminates on cycles |
| `Collector.GarbageCollector.MarkRoots` | src/vm/gc.cpp:71-144 | Marks all that the VM's registers, stack, queues and paused threads lead to |
| `Collector.GarbageCollector.MarkImmortals` | src/vm/gc.cpp:146-156 | Marks all that an immortal cell leads to |
| `Collector.GarbageCollector.Sweep` | src/vm/gc.cpp:158-174 | Clears marks and frees the unmarked live cells |
| `Collector.GarbageCollector.Collect` | src/vm/gc.cpp:65-188 | A live cell survives, unchanged, if and only if a root or an immortal cell leads to it through references that cells hold; the free list holds exactly the dead cells |
| `Collector.GarbageCollector.Deallocate` | src/vm/gc.cpp:190-196 | Puts a cell in front of the free list and leaves its immortal bit set |
| `Collector.GarbageCollector.AllocateCell` | src/vm/gc.cpp:249-280 | Hands out a dead cell and leaves at least one free, collecting and doubling as needed; no other surviving cell changes |
| `Collector.GarbageCollector.AddHeap` | src/vm/gc.cpp:36-49 | Adds 4096 free cells in front of the free list |
| `Collector.GarbageCollector.GrowHeap` | src/vm/gc.cpp:59-63 | Doubles the number of heaps |
| `Utf8.DecodeEncode` | libs/utf8/utf8/checked.h:136-154 | Decoding the encoding of any sequence of valid code points gives the sequence back |
| `Utf8.EncodeDecodedFrom` | libs/utf8/utf8/checked.h:136-154 | What decodes is the encoding of what it decodes to |
| `Utf8.ValidIsEncoding` | libs/utf8/utf8/core.h:287-303 | A string is valid if and only if it encodes some sequence of code points, and then exactly one |
| `Utf8.ValidIsGrammatical` | libs/utf8/utf8/core.h:222-303 | A string is valid if and only if the grammar in section 4 of RFC 3629 derives it |
| `Utf8.AcceptedIsCharacter` | libs/utf8/utf8/core.h:222-284 | What is accepted is one character of the grammar, and the encoding of its code point |
| `Utf8.CharacterIsAccepted` | libs/utf8/utf8/core.h:222-284 | Every character of the grammar is accepted as a whole |
| `Utf8.EncodeSpells` | libs/utf8/utf8/checked.h:72-96 | An encoding has the octets of section 3 of RFC 3629 and is not overlong |
| `Utf8.Append` | libs/utf8/utf8/checked.h:72-96 | Appends the encoding, or refuses an invalid code point |
| `Utf8.FindInvalid` | libs/utf8/utf8/core.h:287-297 | Finds the first sequence that is not accepted, which is the end of the longest prefix that the grammar derives |
| `Utf8.InvalidIsLongest` | libs/utf8/utf8/core.h:287-297 | The first invalid position is the end of the longest prefix that the grammar derives |
| `Utf8.Reasons` | libs/utf8/utf8/core.h:222-284 | Each of the five errors is reported for exactly the octets it is meant for |
| `Utf8.Utf32To8` | libs/utf8/utf8/checked.h:248-255 | Encodes all, or refuses exactly if one is invalid |
| `Utf8.Utf8To32` | libs/utf8/utf8/checked.h:257-264 | Decodes all, or fails where decoding does |
| `Utf8.Distance` | libs/utf8/utf8/checked.h:196-204 | The number of code points, exactly for valid strings |
| `Utf8.Prior` | libs/utf8/utf8/checked.h:162-175 | The code point at the last lead octet, or a failure |
| `Utf8.PriorOfEncoding` | libs/utf8/utf8/checked.h:162-175 | Behind an encoded string that is its last code point |
| `Lanes.DetectBranches` | src/compiler/disassembler.cpp:180-221 | A walk by instruction lengths from the start offset to the end offset finds exactly the branches of the instructions there |
| `Lanes.BranchIsDecoded` | src/compiler/disassembler.cpp:192-217 | The branch drawn for an instruction is the one decoded there |
| `Lanes.BranchLeads` | src/compiler/disassembler.cpp:192-217 | It ends where a step of the machine jumps, where the catch table it registers leads, or where the function it makes begins |
| `Lanes.OverlapIsIntersection` | include/disassembler.h:52-82 | The one-sided test is intersection if the other branch starts no lower |
| `Lanes.OverlapMissesContainer` | include/disassembler.h:52-82 | Otherwise it can miss a containing branch |
| `Lanes.AllocateLanes` | src/compiler/disassembler.cpp:223-261 | Intersecting branches get different lanes below the density, each moved only past taken lanes; the search ends |
| `Lanes.OverlapsWithOtherBranchline` | src/compiler/disassembler.cpp:223-261 | Counts exactly the branches of a lane that are in the way |
| `Lanes.DensityBounds` | src/compiler/disassembler.cpp:223-261 | The density bounds the branches active at any address |
| `Lanes.DensityIsMaximum` | src/compiler/disassembler.cpp:223-261 | If no branch lies inside another, some address has exactly density many active branches and none has more |
| `Lanes.DensityNotMaximum` | src/compiler/disassembler.cpp:223-261 | With nested branches it can exceed their maximum: four branches that need three lanes though at most two are active anywhere |

## Left out

- Parser, lexer, command line, native libraries, I/O, clocks and timers: no logic that these proofs rest on.
- Globals, classes, objects, members other than `arguments.length`, hashes, array literals, `match`, `yield`,
  `typeof` and system calls as instructions: they would add cases of the kinds already there.
- Floating-point rounding, integer overflow, NaN-boxing and symbol hashing: numbers are exact reals plus NaN,
  symbols are names.
- The parent pointers of `LocalScope`: the chain of scopes is a sequence that the walk updates, and the walk is a
  function over trees; constant and shadowing flags are parameters of slot allocation only.
- Names in the trees of `Syntax` and `Source`: both carry the addresses the rewriter gives them, so the step
  that replaces `$n` by the n-th parameter's name and the errors of the rewriter are not part of this model.
- In-place change of syntax trees: trees are values, and `Normalizer` builds new ones.
- Normalizer.VisitBlock: closes a function body while walking its list; the source appends the return first.
- CodeGenerator: the conditions of a loop are generated outside the loop labels; they contain no statements.
- Assembler.WriteJumpToLabel: the nine branch writers and the catch table writer are one method with a kind.
- Compiled `return` inside `try` does not run the finally block, as in the source; no claim is made that it should.
- Pipeline.CompileSource: composes normaliser and generator, whose trees carry resolved addresses; the variable
  rewriter that runs between them is modelled on scopes and names (`SlotAllocation`, `LexicalAddressing`).
- Rethrow.Rethrows: asks every function that exists when the finally block starts to leave the slot alone, also
  those the block never calls.
- Values.OppositeBranchExact: numbers are compared as reals, without the rounding of doubles, and strings to their
  ends, where `strncmp` stops at a NUL character.
- `uncaught_exception_handler` and `internal_error_class` are unset: an exception without table stops the machine,
  and errors are strings.
- Fibres: the code of a fibre may do anything to its registers and the heap between events; that this heap is
  shared, and what another fibre writes to a captured variable, is not constrained.
- Fibres.TasksInOrder: ends at an exit, which empties the queue.
- Collector: writes of the running program between collections, and the destructors of freed cells.
- LexicalAddressing: control moves forward within a function, skipping what it likes, or back to the start of a loop
  around it; conditions are not evaluated, so a branch may be taken that its condition never allows, and any
  function may be called once its declaration's activation exists. Exactness is relative to these runs.
- Barging.NeverStuck: no deadlock. That a thread gets the lock is proved of some continuation of every run
  (`BargingProgress`, `FairProgress`, `PausingProgress` for the pause), not of every fair one; barging allows starvation.
- FairProgress.EverybodyCanGetIt: its condition is sufficient. A sleeper that lost its mark can sometimes still be
  rescued by further threads; that a stranded lock cannot be had is `Fair.StrandedForever`.
- Pausing.WorldStopped: says nothing about a worker that had passed the idle check when the pause was claimed.
- Lanes.AllocateLanes: sorting is a precondition, any descending order will do.
- Relaxed memory, condition variables and the coordinator's task queue.
- UTF-16 conversions and `replace_invalid`.
