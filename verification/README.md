# Lowering in the Lucis compiler: a Dafny model and its proofs

Lucis compiles structured constructs to LLVM basic blocks and a small C runtime. This project
models the passes where most can go wrong and proves what they do, for every program, state and
schedule. Where the code does not do what its documentation says, the code is modelled as it is, a
lemma gives an input that shows it, and another states exactly when code and documentation agree.

## What is modelled

**Structured error control and match** (`Ir`, `Source`, `Lowering`, `Simulation`, `MatchSimulation`,
`Correct`, `Theorems`, `IrGen`). `Source` is an abstract syntax of `try e or f`, `e catch { }`, `e?`,
enum construction, `match` with or-patterns, guards and bindings, `throw`, `try/catch/finally`, `if` and
`return`, nested in each other in any way, with a big-step meaning. A value of type `!T` is a tagged one
with a field of its own for each payload. `Ir` is the target: basic blocks over registers with phi
nodes, and the handler runtime of `error.c` with its stack, `setjmp`, `longjmp`, the pool of sixteen
frames and the heap behind it. `Lowering` gives the emitted code as a function of the builder's state;
class `IrGen.IRGen` is the generator itself, with an insert point, a block list and a register counter,
and each visitor is proved to build exactly that code. `Correct` proves by simulation that the machine
computes what the source means, whatever is nested in what, and accounts for every handler and frame on
every path.

**Small programs** (`Programs`, `Hashes`). For one program of each construct, with arbitrary operands, what the
machine returns or prints, written out as plain values: the fields of a caught error, the payload a pattern
binds, zero for a failed `try`. `Hashes` is the hash that stands for a type's name.

**What programs do and what is documented** (`Discipline`, `Rules`, `Documented`, `Match`). `Documented` gives
the same syntax a second meaning, the one documentation and grammar promise: `finally` runs on every way
out, unmatched errors go on, `V(_)` is for the variant V, a returned operand is evaluated once. `Discipline`
has three rules on the text of a program: Caught, Balanced and Faithful. Two of them are enough for the
compiled program to do what is documented, in every run; for each construct that can deviate, another
lemma says exactly when it does.

**The control flow that is emitted** (`Edges`, `MatchPhi`, `Verified`). Which blocks lead to a merge block
and which its phi lists, and what LLVM's module verification asks: a terminator at the end of every block
and nowhere else, and phis that list their predecessors. A module that fails it is not handed on.

**Enums** (`Enums`, `EnumValues`). Discriminant numbering in 32-bit arithmetic, the classification
of a success and an error variant, and the journey of a payload through an enum value, byte by byte.

**Spawn and await** (`Spawn`). Emitted spawn sites, trampolines and await sites run as threads over
one heap; a run is any sequence of scheduling decisions, and `malloc` may answer any unused address.

**Cross-file declarations** (`StructOrder`, `Attachments`). The loop that completes struct bodies in
dependency order over an unordered map, inherited layout, and the memoised re-entrant passes that
declare extend and impl blocks on demand.

**C macro folding** (`Numerals`, `Macro`). `std::stoll` and `std::to_string`, the recursive descent
evaluator, its grammar (sections 6.5.5 and 6.5.6 of ISO/IEC 9899:2018) and parameter substitution.

**Bitstructs, coercion, test attributes, fragments** (`Bitstruct`, `Coerce`, `TestSpec`,
`Fragments`).

Type resolution, the registries, the LLVM API and the checker enter as data: a resolved type, a
classification, a list of symbols.

## What was found

- An error that no clause of its `try/catch` matches is pushed and thrown with the frame that has
  just caught it, so control returns to the same dispatch for ever; without any clause the catch block has
  no terminator (`UnmatchedIsLost`, `CatchBlockClosed`). The documentation says the error goes to the next
  handler, so such a run never does what is documented (`LostDiffers`).
- `return` or `?` out of a try body, and `throw` or `return` out of a catch clause, skip `finally`
  (`ReturnSkipsFinally`, `ThrowInCatchSkipsFinally`, `ReturnInCatchSkipsFinally`). The documentation says it
  always executes. A statement does what is documented exactly when no `finally` block that mattered was
  passed by (`TryCatchIff`).
- The former leave the handler pushed and its frame in use, the latter and an error out of a finally block
  leak the frame (`ThrowInFinallyLeaks`). For programs that keep the rules Caught and Balanced
  everything is restored (`HandlersRestored`), and `FunctionCorrect` gives the exact counts for all others.
- Programs that keep the rules Caught and Faithful end as documented, with the documented memory and
  output (`RunsAsDocumented`).
- A payload pattern `V(_)` is taken for a bare `_`, by the checker too: `match v { A(_) -> a, B -> b }`
  yields a for B (`IgnoredTakesAll`). An arm takes the values its patterns name exactly when none is `V(_)`,
  or it takes every value anyway (`SelectsIff`).
- The operand of a closing `ret e` in a match arm is evaluated twice (`PrintsTwice`), which is harmless
  exactly when the second evaluation repeats the value without a trace (`ReturnsIff`), as it does
  when e has no effects (`EffectlessReturns`). Such an arm is also listed in the phi although it is no
  predecessor. The phi lists every predecessor once and nothing else exactly when no arm has that form
  and the last arm has no guard (`PhiExactIff`).
- `generate` hands a module on only if `verifyModule` passes it (src/IRBuilder/IRGen_driver.cpp:262-274). What
  such verification asks of control flow a function has exactly when its text keeps a few rules
  (`AcceptedIff`): nothing but literals follows a `ret` in its block, the context block of a `?` does not
  end in a return, a `try` has clauses, and a match has a phi that is exact or none. So a catch block without
  terminator and an arm that ends in `ret e` are emitted and then refused (`ReturnArmRefused`): `PrintsTwice`,
  `ReturnsIff` and `EffectlessReturns` are about code that is emitted, not about programs that run.
- Where the operand's type cannot be resolved, `try e or f` evaluates both, yields f's value and catches
  nothing. That is harmless only in odd cases (`UntypedIff`): without f where e's text neither throws nor
  returns (`UntypedAsTyped`), with a literal f where e yields that very literal (`UntypedLiteral`).
- Only the thrown type and its direct parent select a clause, not further ancestors.
- The semantic checker compares explicit discriminants only, so `A = 5, B = 4, C` passes and numbers two
  variants 5 (`AcceptedMayCollide`). `DistinctIff` is the exact condition.
- The generator does not record the error attribute of a plain enum's variant, which the semantic
  checker uses to classify it (`AttributeIsLost`, exact condition `GeneratorAgreesIff`).
- An enum value travels as an LLVM aggregate whose type is that of the largest payload, and loading
  an aggregate ignores its padding (LLVM Language Reference, `load`). A smaller payload with bytes in
  that padding comes back undefined (`PaddingLosesPayload`, exact condition `RoundTripIff`). So `try`, `catch`
  and `?` hand on a payload exactly when its place holds all of it (`BuiltIsUnwrapped`, `SamePayload`).
- A bitstruct write neither masks the value nor computes its clear mask in more than 64 bits, so it
  changes other fields unless the value fits and the backing type has at most 64 bits
  (`WriteKeepsIff`).
- A macro call substitutes values where section 6.10.3.1 of ISO/IEC 9899:2018 substitutes tokens. Both come
  to the same where no argument needs parentheses (`ValuesAreTokens`), so in particular where each stands in
  parentheses (`ParenthesesWillDo`); else they may differ (`BareTokensDiffer`).
- Awaiting anything but a named local of a typed `Task` leaks the result (`NoLeakIff`). Awaiting a task
  twice lets some schedule use the freed handle (`SecondAwaitCanFault`); after the first await is over it
  does so at once, unless another task got its address, which is then awaited instead
  (`LateAwaitFaultsIff`).
- Lazy method lookup declares what is attached to the type itself, not to its parents. So a parent's method
  is missed (`ParentIsMissed`), and in general a method is found exactly when some module that is declared by
  then attaches it along the chain (`FindMethodEntryInChain`, `HeldIff`). And a module without a name makes every request look like the first
  (`AskedAgain`).

## Model

| member | source | states |
|---|---|---|
| Theorems.FunctionCorrect | src/IRBuilder/IRGen_flow.cpp:288-1474 | a compiled function returns, throws or loops exactly as its source means, with the same memory and output; every frame allocated is either freed or counted as leaked, every handler left behind is counted |
| Correct.ExprRuns | src/IRBuilder/IRGen_flow.cpp:616-1474 | simulation for expressions: from any machine state at the insert point, the code computes the value or raises the error the source does, and keeps registers, handlers and frames of its surroundings |
| Correct.StmtRuns | src/IRBuilder/IRGen_flow.cpp:288-557 | the same for statements |
| Correct.TryRuns | src/IRBuilder/IRGen_flow.cpp:616-766 | `try e or f` yields e's value or success payload, else the fallback, for thrown errors and error variants alike; one frame is allocated and, unless e returns, popped and freed once |
| Correct.UntypedRuns | src/IRBuilder/IRGen_flow.cpp:639-649 | without a type for e, `try e or f` is e's code followed by f's, with no handler |
| Theorems.UntypedIff | src/IRBuilder/IRGen_flow.cpp:639-649 | that is what a plain `try e or f` does exactly when f echoes what e did, or e never comes back |
| Theorems.UntypedAsTyped | src/IRBuilder/IRGen_flow.cpp:639-649 | without a fallback it is so, in every state, when e's text neither throws nor returns |
| Theorems.UntypedLiteral | src/IRBuilder/IRGen_flow.cpp:639-649 | with a literal fallback it is so exactly when e yields that very literal or never comes back |
| Correct.CatchUnwrapRuns | src/IRBuilder/IRGen_flow.cpp:770-933 | `e catch { }` yields the success payload, or runs the block with `it` bound to the error payload and yields null |
| Correct.PropagateRuns | src/IRBuilder/IRGen_flow.cpp:1029-1118 | `e?` continues with the success payload, or returns as much of the error payload as the return type's error variant holds |
| Correct.PropagateVoidRuns | src/IRBuilder/IRGen_flow.cpp:993-1107 | in a function that returns nothing, `e?` goes on or returns, and has no value |
| Correct.BuildRuns | src/IRBuilder/IRGen_access.cpp:1691-1798 | building an enum value gives its tag and as much of its payload as its place holds |
| Correct.ThrowRuns | src/IRBuilder/IRGen_flow.cpp:461-557 | `throw` raises its operand with its message, with its file, line and column where they are set and the statement's otherwise, and with the hashes of the static type and its parent |
| Correct.TryCatchRuns | src/IRBuilder/IRGen_flow.cpp:288-455 | try/catch/finally: body, first matching clause, finally, with the frame's life on each path |
| Correct.CatchesRuns | src/IRBuilder/IRGen_flow.cpp:362-413 | the chain of clauses runs the first one that matches the caught error |
| Correct.HungRuns | src/IRBuilder/IRGen_flow.cpp:399-437 | with clauses but none that matches, the machine never stops |
| Correct.RethrowRuns | src/IRBuilder/IRGen_flow.cpp:413-421 | the re-raise pushes the same frame again and throws the same error to it |
| Correct.IfRuns | src/IRBuilder/IRGen_stmt.cpp:5333-5381 | `if` with an else branch runs the branch its condition selects |
| Simulation.EnterRuns | src/IRBuilder/IRGen_flow.cpp:295-323 | entering a handler: a fresh frame is pushed and armed, and control goes to the normal block |
| Simulation.LandRuns | src/builtins/error/error.c:22-35 | a throw comes back at the `setjmp` of the innermost frame, which stays pushed and holds the error |
| Simulation.PopFreeRuns | src/builtins/error/error.c:16-72 | popping and freeing the held frame restores the handler stack and the frame counts |
| Programs.CaughtAnswers | src/IRBuilder/IRGen_flow.cpp:492-537 | a caught error reaches the machine's caller with the thrown message, its own place where it had one and the throw's otherwise, and the hashes of the thrown type and its parent |
| Programs.ClauseSees | src/IRBuilder/IRGen_flow.cpp:385-453 | whichever clause is first by name, it and the finally block run with that error in the clause's local |
| Programs.UncaughtAborts | src/builtins/error/error.c:22-31 | without a handler that error ends the program |
| Programs.PrintsInOrder | src/IRBuilder/IRGen_flow.cpp:325-453 | body, clause and finally block print in this order; without a throw the clause is left out |
| Programs.TryAnswers | src/IRBuilder/IRGen_flow.cpp:653-766 | `try e` returns e's value or success payload, and zero when e throws or is the error variant |
| Programs.FallbackAnswers | src/IRBuilder/IRGen_flow.cpp:653-766 | `try e or f` returns f's value then |
| Programs.CatchAnswers | src/IRBuilder/IRGen_flow.cpp:770-933 | `e catch { }` returns the success payload, and zero otherwise |
| Programs.ItAnswers | src/IRBuilder/IRGen_flow.cpp:877-905 | within the block `it` is the error payload |
| Programs.PropagateAnswers | src/IRBuilder/IRGen_flow.cpp:1029-1118 | `e?` gives the success payload, or returns the error payload in the return type's error variant |
| Programs.MatchAnswers | src/IRBuilder/IRGen_flow.cpp:1358-1395 | `match e { V(x) -> x, ... }` returns the payload of a value of V |
| Programs.SumAnswers | src/IRBuilder/IRGen_expr.cpp:2166-2174 | `a + b` is the sum's low 32 bits as a signed number |
| Programs.IfAnswers | src/IRBuilder/IRGen_stmt.cpp:5333-5381 | the first branch runs unless the condition is zero |
| Programs.FrameComesFrom | src/builtins/error/error.c:49-61 | the first sixteen frames are pool slots in order, the others are allocated |
| Programs.OrdinaryKeeps | docs/language/error-handling.md:162-238 | a program with a clause for what it throws and a finally block keeps every rule |
| Documented.StmtAgrees | docs/language/error-handling.md:222-238 | a program that keeps the rules Caught and Faithful has, in every run, the documented ending, memory and output |
| Documented.TryCatchIff | docs/language/control-flow.md:403-405 | a try/catch/finally whose parts do what is documented does so itself exactly when it passes by no `finally` block that would have mattered, and finds a clause |
| Documented.LostDiffers | docs/language/error-handling.md:222-238 | a run that is lost is never what is documented |
| Theorems.RunsAsDocumented | docs/language/error-handling.md:162-238 | the machine, running the compiled function, ends as documented |
| Discipline.StmtClean | src/IRBuilder/IRGen_flow.cpp:461-557 | an error that leaves a statement is of a type one of its throws names; where each has a clause no run is lost; where nothing leaves protected code no frame is left behind |
| Rules.KeepsIff | docs/language/error-handling.md:162-238 | a program keeps a rule exactly when each node of its text does, may return exactly when it has a `ret` or `?`, and may throw exactly the types of its throws outside try bodies and operands |
| Rules.CaughtIff | src/IRBuilder/IRGen_flow.cpp:398-437 | what the rule Caught asks of a try statement, by the nodes of its parts: clauses, and one for each type thrown |
| Rules.BalancedIff | src/IRBuilder/IRGen_flow.cpp:325-453 | what the rule Balanced asks of a try statement, by the nodes of its parts |
| Rules.FaithfulIff | docs/language/error-handling.md:222-238 | the same for Faithful |
| Rules.BodyKeepsIff | src/IRBuilder/IRGen_flow.cpp:1396-1401 | of an arm's body only Faithful asks anything: that an operand returned at its end is effectless |
| Rules.EffectlessIff | src/IRBuilder/IRGen_flow.cpp:1396-1401 | an expression is effectless exactly when no node of it binds, assigns, prints or is a try/catch |
| Theorems.UnmatchedIsLost | src/IRBuilder/IRGen_flow.cpp:399-437 | an error without a clause loops for ever, or meets a block without terminator, where the documentation has it go on |
| Theorems.ReturnSkipsFinally | src/IRBuilder/IRGen_flow.cpp:327-334 | `try { ret v } finally { print x }` prints nothing |
| Theorems.ThrowInCatchSkipsFinally | src/IRBuilder/IRGen_flow.cpp:385-396 | an error thrown by a clause skips `finally` and leaks the frame |
| Theorems.ReturnInCatchSkipsFinally | src/IRBuilder/IRGen_flow.cpp:385-396 | so does a return from one |
| Theorems.ThrowInFinallyLeaks | src/IRBuilder/IRGen_flow.cpp:439-453 | an error thrown by a finally block leaks the frame |
| Theorems.HandlersRestored | src/IRBuilder/IRGen_flow.cpp:325-453 | a function that keeps the rules Caught and Balanced leaves the handler stack and the number of frames as on entry, however it ends |
| Theorems.ReturnInTry | src/IRBuilder/IRGen_flow.cpp:327-334 | a return inside a try body leaves one handler pushed and one frame in use, and skips finally |
| Theorems.DispatchByName | src/IRBuilder/IRGen_flow.cpp:358-391 | without hash collisions, comparing hashes selects the clause comparing names of the type and its direct parent would |
| Hashes.OneByteApart | src/IRBuilder/IRGen_flow.cpp:485-490 | names that differ in one byte have different hashes |
| Theorems.OneByteNames | src/IRBuilder/IRGen_flow.cpp:485-490 | so the assumption of DispatchByName holds for them, unless a hash is zero |
| Hashes.PublishedHashes | src/IRBuilder/IRGen_flow.cpp:485-490 | the hashes of the empty name and of "a" are those published for 64-bit FNV-1a |
| Theorems.ThrowIsCaught | src/IRBuilder/IRGen_flow.cpp:385-453 | whatever throws in a body, the first clause in source order that matches one of the body's throws by name runs, then finally once; with none it never ends |
| Theorems.CatchBlockClosed | src/IRBuilder/IRGen_flow.cpp:398-437 | the catch block ends in a terminator exactly when there is a clause |
| Theorems.ChainIsBind | src/IRBuilder/IRGen_flow.cpp:1029-1118 | any sequence of `x = e?` is bind of results: the first error is returned and nothing after it runs, the first operand that throws or returns ends it so, otherwise every success payload is bound |
| Theorems.SamePayload | src/IRBuilder/IRGen_flow.cpp:1066-1077 | the payload returned is the one met exactly when its place in the return type holds all of it |
| Theorems.BuiltIsUnwrapped | src/IRBuilder/IRGen_flow.cpp:706-727 | an enum value built as the success variant and taken apart by `try`, `catch` or `?` gives the value put in exactly when its place holds all of it |
| Theorems.LosslessIsRoundTrip | src/IRBuilder/IRGen_access.cpp:1716-1796 | and that is so exactly when its bytes survive storing, passing and loading |
| Ir.CarriedIs | src/IRBuilder/IRGen_access.cpp:1716-1796 | a payload stored, passed and loaded byte by byte comes back whole exactly when each of its bytes belongs to a field of the storage, else undefined |
| IrGen.IRGen.VisitTryExpr | src/IRBuilder/IRGen_flow.cpp:616-766 | the visitor leaves the builder with exactly the lowering of `try` |
| IrGen.IRGen.VisitTryCaught | src/IRBuilder/IRGen_flow.cpp:629-690 | entry of the handler and the caught path, which pops, frees and evaluates the fallback |
| IrGen.IRGen.VisitCatchUnwrapExpr | src/IRBuilder/IRGen_flow.cpp:770-933 | the visitor leaves exactly the lowering of `e catch { }`; a block that ends by itself gets no edge to the merge |
| IrGen.IRGen.VisitPropagateExpr | src/IRBuilder/IRGen_flow.cpp:937-1118 | the visitor leaves exactly the lowering of `e?` |
| IrGen.IRGen.VisitPropagateVoid | src/IRBuilder/IRGen_flow.cpp:993-1107 | the same in a function that returns nothing |
| IrGen.IRGen.VisitThrowStmt | src/IRBuilder/IRGen_flow.cpp:461-557 | the visitor leaves exactly the lowering of `throw`, standing in the dead block after it |
| IrGen.IRGen.VisitTryCatchStmt | src/IRBuilder/IRGen_flow.cpp:288-455 | the visitor leaves exactly the lowering of try/catch/finally |
| IrGen.IRGen.VisitCatches | src/IRBuilder/IRGen_flow.cpp:396-437 | the loop over the clauses builds the recursive chain: test, body, next test, re-raise at the end |
| IrGen.IRGen.VisitIfStmt | src/IRBuilder/IRGen_stmt.cpp:5333-5381 | the visitor leaves exactly the lowering of `if` |
| IrGen.IRGen.EmitFunction | src/IRBuilder/IRGen_decl.cpp:1383-1394 | a function's body, with a return where it may fall off the end |
| Edges.FunctionLands | src/IRBuilder/IRGen_flow.cpp:288-1474 | every jump of a lowered function lands on one of its blocks |
| Edges.ExprAdds | src/IRBuilder/IRGen_flow.cpp:616-1474 | an expression's code only jumps to blocks created for it |
| Edges.StmtAdds | src/IRBuilder/IRGen_flow.cpp:288-557 | a statement's code only jumps to blocks created for it |
| Correct.MatchRuns | src/IRBuilder/IRGen_flow.cpp:1123-1474 | the compiled `match` yields the value of the arm the source selects, through the phi, with all effects of guards before it; what an arm binds is Match.ArmBinds |
| MatchSimulation.PatternsRun | src/IRBuilder/IRGen_flow.cpp:1182-1289 | the joined tests are true exactly when some pattern of the arm passes |
| MatchSimulation.TestJumps | src/IRBuilder/IRGen_flow.cpp:1291-1306 | after its tests an arm goes to its guard or body when it matches, else to the next arm or the merge block |
| Correct.ArmRuns | src/IRBuilder/IRGen_flow.cpp:1291-1435 | one arm is either taken, with its body's value arriving at the merge block, or passed over with its guard's effects, guard and body seeing what Match.ArmBinds says |
| MatchSimulation.ArmsFrom | src/IRBuilder/IRGen_flow.cpp:1412-1434 | the phi's incoming blocks are pairwise distinct |
| Match.FirstArm | src/IRBuilder/IRGen_flow.cpp:1174-1435 | the arm that runs is the first whose patterns and guard hold, each guard seeing the effects of those before |
| Match.NoArm | src/IRBuilder/IRGen_flow.cpp:1429-1434 | when every arm is passed over no body runs, and the value is undefined if the last arm's patterns failed |
| Match.ArmBinds | src/IRBuilder/IRGen_flow.cpp:1318-1395 | over a tagged enum, in an arm without `_`, the first pattern with a name in parentheses gives that name the payload of every value the arm takes, before the guard and again before the body, if its variant has a payload |
| Match.ArmBindsNothing | src/IRBuilder/IRGen_flow.cpp:1318-1395 | in every other arm guard and body run in the memory as it was |
| Match.VariantPasses | src/IRBuilder/IRGen_flow.cpp:1266-1288 | with distinct discriminants a variant's value passes exactly that variant's pattern, and every `V(_)` |
| Match.SelectsIff | src/IRBuilder/IRGen_flow.cpp:1184 | an arm takes the variants its patterns name, for all values, exactly when no pattern is `V(_)`, or they name all or have a bare `_` |
| Match.IgnoredTakesAll | src/IRBuilder/IRGen_flow.cpp:1184 | an input where an arm for A takes B |
| Match.ReturnsIff | src/IRBuilder/IRGen_flow.cpp:1396-1401 | the code emitted for an arm `{ init; ret e; }` does what these statements do exactly when evaluating e again repeats its value without a trace; module verification then refuses it, as Verified.ReturnArmRefused says |
| Match.EffectlessReturns | src/IRBuilder/IRGen_flow.cpp:1396-1401 | so the emitted code does when e is effectless, which its text shows; it is refused all the same |
| Match.PrintsTwice | src/IRBuilder/IRGen_flow.cpp:1396-1401 | in the code emitted for an arm's closing return, an operand that prints once in a return statement prints twice; module verification refuses that code |
| MatchPhi.PhiExactIff | src/IRBuilder/IRGen_flow.cpp:1301-1474 | the phi lists each predecessor of the merge block exactly once and nothing else, exactly when the last arm has a pattern and no guard and no arm's body has a value and a terminator of its own |
| MatchPhi.ArmExactIff | src/IRBuilder/IRGen_flow.cpp:1412-1434 | the same for one arm's edges and entries |
| MatchPhi.ArmForms | src/IRBuilder/IRGen_flow.cpp:1396-1434 | an arm that is an expression never spoils the phi, one that ends in `ret e` always does |
| Verified.AcceptedIff | src/IRBuilder/IRGen_driver.cpp:262-274 | for every body: each block of the function ends in its one terminator and each phi lists exactly its predecessors, exactly when the text keeps the rules of `StmtOk` |
| Verified.ReturnArmRefused | src/IRBuilder/IRGen_driver.cpp:262-274 | no match with an arm `{ init; ret e; }` keeps them |
| MatchPhi.StmtClosed | src/IRBuilder/IRGen_flow.cpp:1412-1417 | whether code ends in a terminator is decided by the form of the statement |
| IrGen.IRGen.EmitPatterns | src/IRBuilder/IRGen_flow.cpp:1179-1289 | the loop over an or-pattern emits the tests up to the first `_`, parenthesised or not, joined |
| IrGen.IRGen.VisitArm | src/IRBuilder/IRGen_flow.cpp:1291-1435 | the visitor leaves exactly the lowering of one arm and records its phi entries |
| IrGen.IRGen.VisitMatchExpr | src/IRBuilder/IRGen_flow.cpp:1123-1474 | the loop over the arms leaves exactly the lowering of `match` |
| Enums.NumberVariants | src/IRBuilder/IRGen_decl.cpp:239-252 | the counter gives every variant its number in 32-bit arithmetic |
| Enums.NumbersAre | src/IRBuilder/IRGen_decl.cpp:239-252 | an explicit value is cut to 32 bits, an implicit one is one more than the variant before, zero after the largest |
| Enums.DistinctIff | src/IRBuilder/IRGen_decl.cpp:239-252 | the numbers are pairwise distinct exactly when no run of an explicit value and its implicit successors starts inside another, wrap-around included |
| Enums.NumbersAreRuns | src/IRBuilder/IRGen_decl.cpp:239-252 | the numbers are the runs, one after another |
| Enums.AscendingDistinct | src/IRBuilder/IRGen_decl.cpp:239-252 | they are distinct when each explicit value is at least the running next |
| Enums.AcceptedMayCollide | src/checkers/Checker_decl.cpp:509-532 | the checker's duplicate test accepts a declaration with two equal numbers |
| Enums.AcceptedIff | src/checkers/Checker_decl.cpp:509-532 | the checker passes exactly the declarations whose explicit values are below 2^32 and unlike every number before them |
| Enums.IsOrInheritsFrom | src/IRBuilder/IRGen_helpers.h:185-189 | the walk answers whether the name is on the inheritance chain |
| Enums.ClassifyUnwrapCatchEnum | src/IRBuilder/IRGen_helpers.h:191-242 | succeeds exactly on two variants of which one looks like an error and the other has one payload field, and names them |
| Enums.ClassifiedIff | src/IRBuilder/IRGen_helpers.h:191-242 | the error variant is the one without payload, marked, named Err, or carrying one value whose type is or inherits Error; the other has one payload field and is none of these |
| Enums.OrderIrrelevant | src/IRBuilder/IRGen_helpers.h:205-234 | swapping the two variants swaps the answer |
| Enums.GeneratorAgreesIff | src/IRBuilder/IRGen_decl.cpp:239-293 | the generator classifies as the checker did exactly when the error variant is one without its attribute |
| Enums.AttributeIsLost | src/checkers/Checker_decl.cpp:507 | an enum the checker classifies and the generator does not |
| EnumValues.RoundTripIff | src/IRBuilder/IRGen_access.cpp:1716-1796 | a payload put into an enum value and taken out is unchanged exactly when each of its bytes belongs to a field of the largest payload, else undefined |
| EnumValues.ScalarStorage | src/types/TypeInfo.cpp:173-194 | it is unchanged when the largest payload is one integer |
| EnumValues.LargestSurvives | src/types/TypeInfo.cpp:173-194 | the largest payload itself is always unchanged |
| EnumValues.PaddingLosesPayload | src/types/TypeInfo.cpp:173-194 | three 32-bit integers beside a byte and a 64-bit integer are lost |
| EnumValues.AlignIs | src/types/TypeInfo.cpp:173-194 | an offset is the least multiple of the field's width |
| EnumValues.SizesAre | src/types/TypeInfo.cpp:173-194 | offsets and sizes of concrete payloads under natural alignment |
| Spawn.EmitSpawn | src/IRBuilder/IRGen_flow.cpp:80-183 | the loops emit the spawn site and the trampoline for any number of arguments |
| Spawn.RunGood | src/IRBuilder/IRGen_flow.cpp:80-249 | every step of every thread in any order keeps the invariant and faults never, when each task is awaited at most once |
| Spawn.SpawnStepGood | src/IRBuilder/IRGen_flow.cpp:105-116 | storing arguments and creating the task keep it |
| Spawn.TaskStepGood | src/IRBuilder/IRGen_flow.cpp:138-176 | unpacking, freeing, calling and storing the result keep it |
| Spawn.AwaitStepGood | src/builtins/thread/thread.c:21-34 | joining, loading and freeing keep it |
| Spawn.EveryAwaitIsRight | src/IRBuilder/IRGen_flow.cpp:199-249 | in every interleaving a finished await holds the target applied to the arguments of its spawn |
| Spawn.LiveExactly | src/IRBuilder/IRGen_flow.cpp:105-240 | at every moment the live blocks are exactly the argument blocks not yet unpacked, the results not yet awaited and the handles not yet awaited |
| Spawn.OwnersDistinct | src/IRBuilder/IRGen_flow.cpp:105-240 | no live block belongs to two spawns, even when addresses are reused |
| Spawn.NoLeakIff | src/IRBuilder/IRGen_flow.cpp:214-245 | when all is done nothing is left exactly when every task was awaited, and every value through a typed local |
| Spawn.SecondAwaitCanFault | src/builtins/thread/thread.c:21-34 | a second await begun while the first is under way lets some schedule use the freed handle |
| Spawn.LateAwaitFaultsIff | src/builtins/thread/thread.c:21-34 | begun after the first has finished, it faults at once exactly when no other task's handle is at the freed address; else it awaits that task |
| Spawn.NeverDeadlocked | src/builtins/thread/thread.c:15-30 | while something is unfinished some thread can move |
| Spawn.StepWorks | src/IRBuilder/IRGen_flow.cpp:138-249 | every move leaves one instruction fewer, so no schedule goes on for ever |
| Spawn.CanSettle | src/IRBuilder/IRGen_flow.cpp:80-249 | everything begun can be brought to its end |
| StructOrder.TypeTables.VisitStructDecl | src/IRBuilder/IRGen_decl.cpp:54-145 | completes a struct once, its parent's fields and elements first, or leaves the tables alone |
| StructOrder.TypeTables.AppendFields | src/IRBuilder/IRGen_decl.cpp:103-134 | fields and elements gain the resolvable fields in order |
| StructOrder.TypeTables.ReadyToVisit | src/IRBuilder/IRGen_decl.cpp:1806-1829 | the gate: parent with fields, by-value struct fields with bodies |
| StructOrder.TypeTables.Pass | src/IRBuilder/IRGen_decl.cpp:1801-1833 | one pass in any order visits only what is ready and reports whether it did |
| StructOrder.TypeTables.CompleteAll | src/IRBuilder/IRGen_decl.cpp:1798-1834 | for any iteration orders the loop ends, with the least set closed under the gate completed, each struct after its dependencies and laid out from them |
| StructOrder.LeastIsUnique | src/IRBuilder/IRGen_decl.cpp:1798-1834 | the completed set is the same for every iteration order |
| StructOrder.AllCompletedIff | src/IRBuilder/IRGen_decl.cpp:1798-1834 | every pending struct has a body in the end, set now or before, exactly when the dependencies of those without one can be ranked: no cycle, complete leaves, parents with fields |
| StructOrder.VisitInherits | src/IRBuilder/IRGen_decl.cpp:79-101 | completing a struct keeps every child's fields and elements starting with its parent's |
| StructOrder.InheritedIndex | src/IRBuilder/IRGen_access.cpp:763-770 | along any chain an ancestor's field is found at the same index in the descendant, with the same element type |
| StructOrder.FieldIndexIs | src/IRBuilder/IRGen_access.cpp:763-770 | the index found is the first field of that name, and none is found only where no field has it |
| StructOrder.ResolvedJoin | src/IRBuilder/IRGen_decl.cpp:103-134 | exactly the fields that do not resolve are left out, the others stay in order |
| Attachments.AttachmentTable.BuildIndex | src/IRBuilder/IRGen_decl.cpp:2426-2443 | the index built once answers what scanning every module would |
| Attachments.AttachmentTable.DeclareExtendMethodsForNamespace | src/IRBuilder/IRGen_decl.cpp:2405-2411 | runs a namespace's extend pass at most once, also when the pass asks for itself; ends |
| Attachments.AttachmentTable.DeclareImplMethodsForNamespace | src/IRBuilder/IRGen_decl.cpp:2415-2419 | the same for the impl pass |
| Attachments.AttachmentTable.RunExtendPass | src/IRBuilder/IRGen_decl.cpp:2031-2150 | a pass registers every method its module attaches |
| Attachments.AttachmentTable.RunImplPass | src/IRBuilder/IRGen_decl.cpp:2161-2247 | an impl pass keeps the invariant however deep it loads |
| Attachments.AttachmentTable.DeclareAttachmentsForType | src/IRBuilder/IRGen_decl.cpp:2423-2457 | declares every module that mentions the type, and answers true exactly when one was not declared before |
| Attachments.AttachmentTable.RegisterAttachments | src/IRBuilder/IRGen_decl.cpp:2153-2256 | after the explicit passes the current and imported modules are declared for both, and nothing is in flight |
| Attachments.AttachmentTable.FindMethodEntryInChain | src/IRBuilder/IRGen_decl.cpp:976-998 | finds the nearest type of the chain, the type itself first, whose table has the method: in the tables as they were, or, if none had it, after declaring what mentions the type; over all, exactly what declared modules attach along the chain, where a module whose extend pass is the caller may count or not |
| Attachments.HeldIff | src/IRBuilder/IRGen_decl.cpp:988-996 | with no pass in flight, some table along a chain holds a method exactly when a declared module attaches it to a type of the chain |
| Attachments.HolderIsNearest | src/IRBuilder/IRGen_decl.cpp:976-984 | the lookup answers with a type exactly when that is the nearest with the method, and with none exactly when no type of the chain has it |
| Attachments.OverrideWins | src/IRBuilder/IRGen_decl.cpp:976-984 | a type's own method hides its parents' |
| Attachments.ParentIsMissed | src/IRBuilder/IRGen_decl.cpp:988-996 | a registry where a method attached to a parent is not found |
| Attachments.QuiescentIsPaired | src/IRBuilder/IRGen_decl.cpp:2449-2454 | with no pass in flight, the namespaces declared for extend are those declared for impl |
| Attachments.AskedAgain | src/IRBuilder/IRGen_decl.cpp:2445-2457 | a repeated request declares nothing, unless a module without a name mentions the type |
| Attachments.AttachedIsFound | src/IRBuilder/IRGen_decl.cpp:988-996 | once the modules that mention a type are declared, its table holds what any of them attaches whose pass is over |
| Attachments.WholeIndex | src/IRBuilder/IRGen_decl.cpp:2426-2443 | the finished index agrees with a full scan in both directions |
| Numerals.ReadBack | src/IRBuilder/IRGen_call.cpp:53-62 | every 64-bit integer printed in decimal is read back as itself |
| Numerals.ReadBackIff | src/IRBuilder/IRGen_call.cpp:53-62 | and no number outside int64 is read |
| Numerals.BlanksAndEnds | src/IRBuilder/IRGen_call.cpp:53-62 | blanks before a number are skipped and it ends at the first other character |
| Numerals.PrefixedReadBack | src/IRBuilder/IRGen_call.cpp:53-62 | every number that fits is read back from hexadecimal after 0x or 0X and from octal after 0, in either case |
| Macro.EvalMacroPrimary | src/IRBuilder/IRGen_call.cpp:42-64 | the evaluator's base case computes the recursive specification |
| Macro.EvalMacroMul | src/IRBuilder/IRGen_call.cpp:65-74 | the loop over `*`, `/` and `%` computes the recursive specification |
| Macro.EvalMacroAdd | src/IRBuilder/IRGen_call.cpp:75-83 | the loop over `+` and `-` computes the recursive specification |
| Macro.AcceptsIffDerivable | src/IRBuilder/IRGen_call.cpp:42-83 | a token list evaluates to v exactly when it is the yield of a derivation of the grammar whose value is v |
| Macro.PrintEvaluates | src/IRBuilder/IRGen_call.cpp:42-83 | any expression tree printed with the parentheses it needs is read to the end of its print and no further, with left associativity |
| Macro.Substitution | src/IRBuilder/IRGen_call.cpp:310-330 | evaluating the substituted tokens is evaluating the body with parameters, then constants, standing for their values |
| Macro.FoldsIff | src/IRBuilder/IRGen_call.cpp:284-343 | a call folds to n exactly when its arguments are constants and its body is an expression with a defined value whose low 32 bits are n |
| Macro.SumsFold | src/IRBuilder/IRGen_call.cpp:75-83 | `a+b` and `a-b` fold to the low 32 bits of sum and difference, and to nothing reliable where these are outside int64 |
| Macro.ProductFolds | src/IRBuilder/IRGen_call.cpp:65-74 | the same for `a*b` |
| Macro.QuotientFolds | src/IRBuilder/IRGen_call.cpp:65-74 | `a/b` and `a%b` fold to the quotient and remainder whose remainder is smaller than b and has a's sign |
| Macro.DivisionByZero | src/IRBuilder/IRGen_call.cpp:65-74 | neither is defined for b zero |
| Macro.SignsFold | src/IRBuilder/IRGen_call.cpp:42-64 | `-a` folds to the negation, `~a` to the n with a + n == -1 |
| Macro.ValuesAreTokens | src/IRBuilder/IRGen_call.cpp:310-330 | where no argument needs parentheses, substituting values gives what substituting the arguments' tokens would: the same value, failure or undefined operation |
| Macro.ParenthesesWillDo | src/IRBuilder/IRGen_call.cpp:310-330 | an argument in parentheses needs none |
| Macro.BareTokensDiffer | src/IRBuilder/IRGen_call.cpp:310-330 | SQ(1+2) is 9 here and 5 to a preprocessor |
| Macro.VisitMacroCall | src/IRBuilder/IRGen_call.cpp:293-343 | the loops collect, substitute, resolve and evaluate as specified |
| Bitstruct.VisitBitstructDecl | src/IRBuilder/IRGen_decl.cpp:311-355 | lays fields out at running offsets; `auto` picks the least of 8, 16, 32, 64 and 128 bits that fits, or nothing |
| Bitstruct.Tiling | src/IRBuilder/IRGen_decl.cpp:333-352 | every bit below the total is in exactly one field, padding included, and no other bit is |
| Bitstruct.LayoutIs | src/IRBuilder/IRGen_decl.cpp:333-352 | each field has its declaration's name and width and starts at the sum of the widths before it |
| Bitstruct.ReadIs | src/IRBuilder/IRGen_access.cpp:966-984 | shift and mask read the field's own bits, for widths below 64 |
| Bitstruct.ReadWidth | src/IRBuilder/IRGen_access.cpp:966-984 | a field is read as the least of 8, 16, 32 and 64 bits that holds it |
| Bitstruct.Recombine | src/IRBuilder/IRGen_access.cpp:1476-1495 | every backing value is the sum of its reads, each at its place, and of the bits above the last field |
| Bitstruct.WriteIs | src/IRBuilder/IRGen_stmt.cpp:1263-1280 | what each bit is after a write |
| Bitstruct.ReadBack | src/IRBuilder/IRGen_stmt.cpp:1263-1280 | reading a field after writing it gives the value cut to its width |
| Bitstruct.WriteKeepsIff | src/IRBuilder/IRGen_stmt.cpp:1267-1279 | a write leaves all other bits alone exactly when the value fits the field and the backing type has at most 64 bits |
| Coerce.CoerceValueToType | src/IRBuilder/IRGen_driver.cpp:1222-1262 | a wider integer is the same number, read as signed or not as asked, a narrower one has the low bits, a float is the signed number, an integer the integer part towards zero, a struct whose elements all convert is converted element by element, anything else is left alone |
| Coerce.ConvertedKeeps | src/IRBuilder/IRGen_driver.cpp:1222-1262 | the same for the conversion as a function, for all values at every depth |
| Coerce.ByteExtends | src/IRBuilder/IRGen_driver.cpp:1228-1230 | the byte 255 becomes -1 when signed and 255 when not |
| Coerce.CoerceElements | src/IRBuilder/IRGen_driver.cpp:1248-1258 | the loop builds the aggregate, or gives up on the first element that does not convert |
| Coerce.AllOrNothing | src/IRBuilder/IRGen_driver.cpp:1222-1262 | the result has the target type exactly when the shapes are compatible at every depth, and is the value itself otherwise |
| Coerce.ThereAndBack | src/IRBuilder/IRGen_driver.cpp:1228-1229 | integer aggregates survive a conversion to wider fields and back |
| TestSpec.UnquoteStringLiteral | src/attributes/TestAttribute.cpp:10-43 | the loop decodes escapes up to the closing quote |
| TestSpec.QuoteBack | src/attributes/TestAttribute.cpp:10-43 | any text can be written as a literal of either form and is read back |
| TestSpec.EscapesAre | src/attributes/TestAttribute.cpp:22-38 | what each escape stands for; an unknown one stays as it is |
| TestSpec.ParseTestSpec | src/attributes/TestAttribute.cpp:118-214 | the loop over the arguments computes the specification |
| TestSpec.TakeCall | src/attributes/TestAttribute.cpp:164-196 | the call forms: skip with at most one plain string, timeout with one positive integer |
| TestSpec.SucceedsIff | src/attributes/TestAttribute.cpp:118-214 | parsing succeeds exactly when every argument is well formed on its own and no option is set twice, and each option is as its argument sets it |
| TestSpec.TimeoutIs | src/attributes/TestAttribute.cpp:139-196 | `timeout = n` and `timeout(n)` leave n, for positive n only |
| TestSpec.FlagsAre | src/attributes/TestAttribute.cpp:164-210 | what `skip`, `skip("r")` and `expected_fail` leave; no other word is an option, and a reason is one plain string |
| TestSpec.NameIs | src/attributes/TestAttribute.cpp:127-137 | a string is the test's name |
| TestSpec.OrderIrrelevant | src/attributes/TestAttribute.cpp:118-214 | permuting the arguments changes neither success nor the result |
| Fragments.MatchBrace | fuzzer/corpus.cpp:80-89 | counting finds the closing brace: depth is positive before it and zero at it; without one, depth stays positive to the end |
| Fragments.TryAt | fuzzer/corpus.cpp:64-122 | what one keyword leads to: a fragment, or where to go on |
| Fragments.ExtractFragmentsFrom | fuzzer/corpus.cpp:55-157 | the scan ends on every text, with the fragments of the recursive specification |
| Fragments.ScanSound | fuzzer/corpus.cpp:55-157 | bodies are balanced from their first brace to its match, signature and body are the source's own text, the name is the longest word after `fn` and its blanks, the body opens at the first brace after the first `)` after the first `(`, spans are disjoint and in order |
| Fragments.ScanComplete | fuzzer/corpus.cpp:55-157 | where braces match up, every declaration that could be extracted is, or lies inside one that is |

## Left out

- Cleanup of owned locals, `defer`, debug locations, volatile accesses and diagnostics.
- `setjmp` and `longjmp` on registers the C compiler might reuse: the machine's registers survive a jump.
- Errors as pointers: a thrown error is the record it points to, so one that is changed after being thrown is not modelled.
- Calls, loops and other statements inside the modelled language; `?` on `!T` in a function that does not return `!T`, which the generator reports; coercion of a fallback or a payload to another type; payloads of several fields.
- `if` chains with `elif`, and compile-time conditions; an `if` without else is one with an empty else, whose extra block the generator does not create.
- Documented.StmtAgrees: the rules are read off the text, so a program that breaks one only where no run comes may agree all the same; what each construct does then is exact in Documented.TryCatchIff, Match.SelectsIff, Match.ReturnsIff and Theorems.UntypedIff.
- Correct.MatchRuns: says nothing of a match without arms or of a failing guard on the last arm, because the generated code has no terminator or no phi entry there.
- Verified.AcceptedIff: of what module verification checks, terminators and phi lists; types and the dominance of definitions are not part of it.
- String and float patterns, null patterns, and or-patterns that bind payloads of different types.
- EnumValues.RoundTripIff: payload fields are integers of 1 to 16 bytes; coercion of a payload to its field's type is not part of it.
- Spawn.EveryAwaitIsRight: a target is a function of its arguments, so tasks that share memory, failing `malloc` or `pthread_create`, and the casts of arguments are not modelled.
- Mutexes and the `lock` statement.
- Attachments.AttachmentTable.FindMethodEntryInChain: a method is its name, not its entry; generic extend templates and static methods are other tables.
- StructOrder.TypeTables.CompleteAll: resolving a type that is not registered may load and visit a struct of a module outside the pending ones during the loop (src/IRBuilder/IRGen_type.cpp:448-475); such loads are taken as made before it.
- StructOrder.InheritedIndex: all fields are named, because an unnamed field has an element but no entry and shifts the indices after it.
- Macro.FoldsIff: parameters and constants are names that are not operators or numbers, and arguments are 64-bit.
- Shift operators in macros, which the folding call does not reach.
- Bitstruct.ReadIs: widths below 64, because the mask of a wider field shifts a 64-bit one by its width, which C++ leaves undefined; writes to fields that start at bit 64 or above likewise.
- Coerce.CoerceValueToType: floating-point values are real numbers, so rounding and overflow of a float conversion are not modelled.
- TestSpec.ParseTestSpec: an integer argument is the number it reads as; the text of error messages is not modelled.
- Fragments.ExtractFragmentsFrom: type fragments near a function and the return type's text are not extracted.
- Generic templates, monomorphization, the standard library calls, ABI lowering, the random program generator of the fuzzer and the optimizer.
