# Blight backend and runtime: a verified model

A Dafny model of two parts of the Blight compiler, with proofs of what they promise.

**The backend passes.** A source term (de Bruijn lambda calculus with constructors, tuples, machine integers, branches
and recursive functions) goes through common-subexpression elimination (`CseHoist`, `CseSim`, `CseProof`,
`CsePreserves`, `CseScopes`, `CseShares`), closure conversion (`Closure`, `ConverterObject`, `ClosureSim`, `ClosureWf`,
`ClosureNames`, `ClosureShapes`), normalization to A-normal form with a deferred shift and a peephole (`DeferredShift`,
`Normalize`, `AnferObject`, `NormalizeProof`, `NormalizePreserves`, `NormalizeFragment`, `NormalizeFits`,
`NormalizeCalls`), a whole-program closure-flow analysis (`Cfa`, `CfaBuilder`, `CfaGrows`, `CfaSolve`, `CfaSound`,
`CfaRuns`, `CfaTraces`, `FlowFits`, `Boxless`, `CfaPrecise`), and two rewritings that rest on it, capture specialization
(`Specialize`, `Capspec`, `CloneFlow`) and devirtualization (`Defunc`), which share one rewriter (`Rewrite`,
`RewriteSites`, `RewriteProof`). Outside the fragment in which the analysis is sound, a closed source term is compiled
wrongly (`CapspecEscape`, `EscapeSource`). Each language has a fuel-indexed evaluator in which only calls use fuel, so
outcomes can be compared exactly. `Backend` puts the passes in the driver's order: `Backend.DriverPreserves` says that a
first-order result of a source program whose branches are in tail position (`Shapes`) is the result of the optimized
program, when no closure escapes in its normal form; `Backend.BoxlessPreserves` needs no such condition of programs that
box nothing.

**The runtime.** The generational collector in its compacting mode, with the boxed-array table as a second root source
(`GcMemory`, `GcCopy`, `GcHeap`, `GcCollected`, `GcMutator`, `Gc`, `GcRun`): `GcRun.Run` says that no run can tell it
from a heap that is never collected, except by a minor collection after a store that went unrecorded; `GcLoss` shows
such a run losing a value, although the barrier's own comment (gc.c:212-215) takes correctness for granted there. The
worker pool as an interleaved step relation over its mutex and condition variables (`Pool`, `PoolSafety`,
`PoolProgress`, `TaskQueue`). Effect bubbling compared with direct evaluation, on values (`Effects`) and on an
allocating heap (`EffectsHeap`). The operation-name table (`OpTable`) and the wire format, for data (`Serialize`) and
for code and continuations between processes of one binary (`Mobile`).

Passes and runtime parts that work by updating state (the converter, the normalizer's accumulator, the analyzer, the solver,
the rewriters, the specializer, the candidate table, the collector, the queue, the buffer, the name table, the effect runtime)
are classes whose methods are proved against functions of the old state; the theorems are about those functions.

`Stuck` stands for any state the compiled program does not define: an application of something that is not a function, a
division by zero, a projection out of range. Related values are the same data, with closures related by code and captures.

## Model

| member | source | states |
|---|---|---|
| Closure.FreeVars | crates/blight-codegen/src/closure.rs:155-166 | A lambda captures each of its free variables once, in ascending order, none of them its own binders |
| Closure.CollectFreeMeansFree | crates/blight-codegen/src/closure.rs:231-314 | The collector finds exactly the variables free in the term beyond the function's binders, numbered at the function's entry, however many binders lie between |
| ClosureSim.ReboundVarEval | crates/blight-codegen/src/closure.rs:319-341 | A rebound variable reads the value the original variable denoted: a local, a capture, or the function itself rebuilt from its own captures |
| ClosureSim.SimApply | crates/blight-codegen/src/closure.rs:186-209 | Calling related functions on related arguments gives related outcomes; a recursive closure re-enters with itself as its environment describes |
| ClosureSim.Simulation | crates/blight-codegen/src/closure.rs:45-209 | Every source term, in every environment, and its converted and rebound term end, get stuck or run on together, with related values |
| ClosureWf.ConvertNamesUnique | crates/blight-codegen/src/closure.rs:37-43 | No two lifted functions share a name |
| ClosureWf.ConvertPreserves | crates/blight-codegen/src/closure.rs:19-29 | A closed program and its conversion have related outcomes at every fuel |
| ClosureWf.ConvertPreservesLiterals | crates/blight-codegen/src/closure.rs:19-29 | A literal is computed by the conversion exactly when the source computes it |
| ClosureWf.ConvertWellFormed | crates/blight-codegen/src/closure.rs:155-209 | After conversion no lambda or fixpoint is left, every body is closed apart from its parameter and its captures, and all closure sites of a function carry equally many captures |
| ClosureNames.ConvertRefers | crates/blight-codegen/src/closure.rs:155-209 | Every closure of the converted program names one of its functions, and no bare global is used as a value |
| ClosureShapes.ConvertShaped | crates/blight-codegen/src/closure.rs:45-153 | Conversion keeps branches in tail position, in the entry and in every lifted body, and boxes nothing new |
| ConverterObject.Converter.Fresh | crates/blight-codegen/src/closure.rs:37-43 | Draws the next name and advances the counter |
| ConverterObject.Converter.Go | crates/blight-codegen/src/closure.rs:45-153 | The traversal that pushes functions and draws names computes the conversion and appends exactly its functions, in order |
| ConverterObject.Converter.Lift | crates/blight-codegen/src/closure.rs:155-184 | Lifting a lambda appends its nested functions and then itself |
| ConverterObject.Converter.LiftRecursiveFn | crates/blight-codegen/src/closure.rs:186-209 | Lifting a recursive lambda draws its name before its body is converted |
| ConverterObject.Convert | crates/blight-codegen/src/closure.rs:19-29 | The converter object run on a program gives the conversion |
| DeferredShift.Threshold | crates/blight-codegen/src/anf.rs:433-440 | The search loop finds the least input index whose image reaches the cutoff |
| DeferredShift.PushedLaw | crates/blight-codegen/src/anf.rs:433-482 | Pushing adds the step exactly to the indices whose image reaches the cutoff, and keeps the frames sorted |
| DeferredShift.UnderBindersLaw | crates/blight-codegen/src/anf.rs:497-508 | Under n binders the indices below n are fixed and the others conjugated; the frames stay sorted |
| DeferredShift.InsertSorted | crates/blight-codegen/src/anf.rs:441-481 | Inserting at the sorted position keeps the frame list sorted |
| DeferredShift.TotalBelow | crates/blight-codegen/src/anf.rs:403-418 | On a sorted list no frame after the first one not reached adds anything, so leaving early is right |
| DeferredShift.ApplyLoop | crates/blight-codegen/src/anf.rs:403-418 | The loop with its early exit computes the eager shift |
| DeferredShift.PushedLoop | crates/blight-codegen/src/anf.rs:433-482 | The search, split and rebuild loops compute the push |
| DeferredShift.SplitBelow | crates/blight-codegen/src/anf.rs:444-452 | The walk collects exactly the frames below the new one |
| AnferObject.Anfer.Atomize | crates/blight-codegen/src/anf.rs:696-939 | Appends to the shared accumulator exactly the computations of an operand and returns the atom naming it |
| AnferObject.Anfer.AtomizeCall | crates/blight-codegen/src/anf.rs:710-733 | A captureless callee is called directly when fusing; any other callee is built before its argument |
| AnferObject.Anfer.Seq | crates/blight-codegen/src/anf.rs:941-969 | Operands left to right; atoms already produced move up as later operands extend the accumulator |
| AnferObject.Anfer.Tail | crates/blight-codegen/src/anf.rs:521-683 | Emits a term in tail position |
| AnferObject.Anfer.TailOfCall | crates/blight-codegen/src/anf.rs:530-568 | A tail call of the function itself without captures becomes a jump, any other tail call is kept |
| AnferObject.NormalizeBody | crates/blight-codegen/src/anf.rs:355-359 | One body: emit, then peephole |
| AnferObject.NormalizeProgram | crates/blight-codegen/src/anf.rs:240-262 | Every function and the entry, in order |
| NormalizeProof.EvalOk | crates/blight-codegen/src/closure.rs:155-209 | At run time every closure of a function carries the number of captures its sites carry |
| NormalizeProof.AgreesPushed | crates/blight-codegen/src/anf.rs:433-482 | After more slots are emitted the pushed shift still leads every variable to its value |
| NormalizeProof.AgreesUnder | crates/blight-codegen/src/anf.rs:497-508 | Under binders the shift still leads every variable to its value |
| NormalizeProof.WrapRuns | crates/blight-codegen/src/anf.rs:972-981 | Wrapping a tail in computations runs them in order and then the tail |
| NormalizeProof.FusedCall | crates/blight-codegen/src/anf.rs:271-339 | A closure built only to be tail-called at once may be replaced by a jump or a direct call |
| NormalizeProof.PeepholeOk | crates/blight-codegen/src/anf.rs:271-339 | The peephole changes no outcome, with arity-raise on or off |
| NormalizePreserves.AtomizeOk | crates/blight-codegen/src/anf.rs:696-939 | The emitted computations followed by the atom give the operand's value, or its failure, through all inserted slots |
| NormalizePreserves.SeqOk | crates/blight-codegen/src/anf.rs:941-969 | The atoms of several operands name their values side by side |
| NormalizePreserves.TailOk | crates/blight-codegen/src/anf.rs:521-683 | The emitted tail has the outcome of the term |
| NormalizePreserves.SelfTailCallOk | crates/blight-codegen/src/anf.rs:530-568 | A self tail call turned into a jump re-enters with the same environment |
| NormalizePreserves.NormalizePreserves | crates/blight-codegen/src/anf.rs:240-262 | Normalization returns exactly the converted program's outcome at every fuel, with fusing and arity-raise on or off |
| NormalizeFragment.PruneFits | crates/blight-codegen/src/anf.rs:870-881 | A program equals its pruning exactly when all its branches are in tail position |
| NormalizeFragment.NormalizePruned | crates/blight-codegen/src/anf.rs:870-881 | Branches outside tail position are invisible to normalization |
| NormalizeFragment.NormalizeMeaning | crates/blight-codegen/src/anf.rs:870-881 | For every well-formed program the normal form computes what the program with its operand branches erased computes |
| NormalizeFragment.BoundBranchIsLost | crates/blight-codegen/src/anf.rs:870-881 | A concrete program whose bound branch is lost: it computes 7, its normal form the erased value |
| NormalizeFits.ToTailFits | crates/blight-codegen/src/anf.rs:521-683 | A normal form reads only captures its function has, builds closures with the right number of captures, and jumps only in recursive functions |
| NormalizeFits.PeepholeFits | crates/blight-codegen/src/anf.rs:271-339 | The peephole keeps all of that |
| NormalizeCalls.SpotCallsFused | crates/blight-codegen/src/anf.rs:710-733 | When fusing, exactly the operand calls of a captureless closure built on the spot become direct calls; otherwise none does |
| NormalizeCalls.SelfCallsJump | crates/blight-codegen/src/anf.rs:530-568 | In a recursive function exactly the captureless self tail calls become jumps; elsewhere no jump is emitted |
| NormalizeCalls.PeepholeWastesNothing | crates/blight-codegen/src/anf.rs:271-339 | After the peephole no closure that could be left out is built only to be tail-called at once |
| NormalizeCalls.FunctionLoops | crates/blight-codegen/src/anf.rs:240-262 | So it is in every normal form of a function: its self tail calls are jumps and nothing is wasted |
| Pipeline.CompilePreserves | crates/blight-codegen/src/driver.rs:217-247 | A closed source program and its normal form end, get stuck or run on together, with related values |
| Cfa.ConstLit.Join | crates/blight-codegen/src/cfa.rs:47-76 | The join of the flat lattice is its least upper bound |
| Cfa.Av.Join | crates/blight-codegen/src/cfa.rs:93-121 | The join of abstract values is their least upper bound |
| CfaBuilder.Analyzer.EnvSlotNode | crates/blight-codegen/src/cfa.rs:194-202 | One node for each environment slot, created on demand |
| CfaBuilder.Analyzer.AtomNode | crates/blight-codegen/src/cfa.rs:204-214 | The node an atom reads |
| CfaBuilder.Analyzer.Comp | crates/blight-codegen/src/cfa.rs:216-363 | The constraints a computation adds |
| CfaBuilder.Analyzer.Tail | crates/blight-codegen/src/cfa.rs:365-459 | The constraints a tail adds, its indirect heads recorded in traversal order |
| CfaBuilder.Analyze | crates/blight-codegen/src/cfa.rs:617-664 | The whole graph and its least solution |
| CfaSolve.Solver.Join | crates/blight-codegen/src/cfa.rs:95-121 | In-place join, reporting whether anything changed |
| CfaSolve.Solver.HandleProj | crates/blight-codegen/src/cfa.rs:513-538 | A projection makes only changes every solution must contain, and reports none only when its constraint holds |
| CfaSolve.Solver.HandleCall | crates/blight-codegen/src/cfa.rs:539-560 | The same of a call, whose targets depend on the current solution |
| CfaSolve.Solver.Escape | crates/blight-codegen/src/cfa.rs:583-612 | The worklist opens the parameters of exactly the functions an escaping value reaches |
| CfaSolve.Solver.Solve | crates/blight-codegen/src/cfa.rs:462-578 | The loop ends, on every program, with a solution below every other |
| CfaSolve.SolveFlow | crates/blight-codegen/src/cfa.rs:462-578 | The least solution of all constraints |
| CfaSolve.TotalBounded | crates/blight-codegen/src/cfa.rs:462-578 | A measure over the finite sets and the literal lattice bounds how often a solution can grow |
| CfaSound.CleanFree | crates/blight-codegen/src/cfa.rs:583-612 | A node with no function, through all its tuples, holds no closure |
| Boxless.NothingBoxed | crates/blight-codegen/src/cfa.rs:286-296 | In a program without boxed constructors no closure escapes, by any solution |
| CfaSound.AtomSound | crates/blight-codegen/src/cfa.rs:204-214 | An atom's value is described by its node |
| CfaSound.ClosureSound | crates/blight-codegen/src/cfa.rs:222-245 | A closure just built is described at its site, and its captures by the function's environment slots |
| CfaSound.TupleSound | crates/blight-codegen/src/cfa.rs:272-280 | A tuple just built is described by its site and its fields |
| CfaSound.ProjSound | crates/blight-codegen/src/cfa.rs:513-538 | A projected component is described |
| CfaSound.PrimSound | crates/blight-codegen/src/cfa.rs:272-361 | Every primitive's value is described |
| CfaRuns.ApplySound | crates/blight-codegen/src/cfa.rs:539-560 | What an indirect call returns is described |
| CfaRuns.EnterSound | crates/blight-codegen/src/cfa.rs:365-459 | A function entered with described captures and argument returns a described value |
| CfaRuns.CompSound | crates/blight-codegen/src/cfa.rs:216-363 | What a computation returns is described by its node |
| CfaRuns.TailSound | crates/blight-codegen/src/cfa.rs:365-459 | What a tail returns is described by the return node |
| CfaTraces.StepDescribed | crates/blight-codegen/src/cfa.rs:365-459 | One step of execution keeps every variable in scope described |
| CfaTraces.RunDescribed | crates/blight-codegen/src/cfa.rs:462-578 | At every point of every run each variable and each capture is described by the solution |
| CfaTraces.RunLiterals | crates/blight-codegen/src/cfa.rs:462-578 | A variable whose node tracks a literal never holds anything else, and a closure's name is always among its node's functions |
| FlowFits.BuildSites | crates/blight-codegen/src/cfa.rs:222-245 | Every closure site of a fitting program has its function's number of captures, and every tracked literal is one |
| FlowFits.FittingIsPlain | crates/blight-codegen/src/cfa.rs:617-664 | A fitting program meets what the analysis and specialization ask of their input |
| FlowFits.LeastFits | crates/blight-codegen/src/cfa.rs:462-578 | Whatever literal the least solution tracks is a literal of the program, whatever function it tracks is known, and a node with a closure site holds its function |
| CfaPrecise.BuildSealed | crates/blight-codegen/src/cfa.rs:204-459 | The graph of a program that reads nothing unknown and boxes nothing does not touch the open node, and nothing escapes in it |
| CfaPrecise.NothingUnknown | crates/blight-codegen/src/cfa.rs:462-578 | So the least solution takes no other node for unknown, unless a projection reads out of range |
| Rewrite.HeadsAligned | crates/blight-codegen/src/cfa.rs:246-255 | The heads the analysis records are as many as the applies the rewriter meets, function by function, in the same order |
| Rewrite.RewriteNothing | crates/blight-codegen/src/defunc.rs:60-101 | Without a decision nothing changes |
| RewriteSites.CallRewritten | crates/blight-codegen/src/defunc.rs:46-101 | The k-th indirect call becomes a direct call of the function its decision names, with its own head as environment or with none, and stays without a decision; no other call changes |
| RewriteSites.IndirectLeft | crates/blight-codegen/src/defunc.rs:60-101 | As many indirect calls are left as there are decisions that name nothing |
| Rewrite.Rewriter.Comp | crates/blight-codegen/src/defunc.rs:46-58 | Takes the decision at the cursor and advances it by one for an apply |
| Rewrite.Rewriter.Tail | crates/blight-codegen/src/defunc.rs:60-101 | Rewrites a tail and leaves the cursor past its last apply, never out of range |
| Rewrite.Rewriter.Program | crates/blight-codegen/src/defunc.rs:128-148 | Rewrites every function and the entry with one cursor |
| RewriteProof.TailSame | crates/blight-codegen/src/defunc.rs:60-101 | A rewritten tail has the outcome of the original when every decision is justified |
| RewriteProof.RewritePreserves | crates/blight-codegen/src/capspec.rs:51-117 | Rewriting by justified decisions, to known calls or to clones, changes no run that does not get stuck |
| Defunc.Decide | crates/blight-codegen/src/defunc.rs:109-125 | Devirtualizes exactly the heads that can be one closure, no tuple, and nothing unknown |
| Defunc.DecisionsInstalled | crates/blight-codegen/src/defunc.rs:103-148 | The indirect calls whose head can be one function only, no tuple and nothing unknown, become direct calls of it, and no others |
| Defunc.Defunctionalize | crates/blight-codegen/src/defunc.rs:103-148 | Analyzes, decides by the least solution, and returns the program with exactly those calls direct |
| Defunc.SealedCallsDevirtualized | crates/blight-codegen/src/defunc.rs:103-148 | In a program that reads nothing unknown, with its projections in range, one possible function and no tuple is enough |
| Defunc.DefuncPreserves | crates/blight-codegen/src/defunc.rs:103-148 | Devirtualizing returns the same outcome on every run that does not get stuck |
| Specialize.AtomEmbedded | crates/blight-codegen/src/capspec.rs:122-130 | An embedded atom reads the same local, literal or outer variable |
| Specialize.TailEmbedded | crates/blight-codegen/src/capspec.rs:176-219 | At every binder depth the embedded body runs as the body with the literals as captures |
| Specialize.CloneRuns | crates/blight-codegen/src/capspec.rs:221-227 | A clone without environment runs as the function with the literals as captures, on any argument |
| Capspec.Specializer.CloneName | crates/blight-codegen/src/capspec.rs:286-307 | One clone for each function and literals, each with its own number |
| Capspec.Specializer.Literals | crates/blight-codegen/src/capspec.rs:269-285 | Reads off the literals, or finds that some capture is not one |
| Capspec.Specializer.KeyOf | crates/blight-codegen/src/capspec.rs:258-287 | A head is specialized exactly when it is one closure site of a non-recursive function with literal captures |
| Capspec.Specializer.Decide | crates/blight-codegen/src/capspec.rs:250-315 | The decision for a head, and the clone it names |
| Capspec.DecisionsInstalled | crates/blight-codegen/src/capspec.rs:250-345 | The indirect calls from one closure site of a non-recursive function with literal captures become calls, without environment, of a clone with those literals, and no others |
| Capspec.SpecializeProgram | crates/blight-codegen/src/capspec.rs:233-345 | Analyzes, decides every head while collecting clones, and returns the program with exactly those calls specialized and the clones appended, each of them used |
| Capspec.CapspecPreserves | crates/blight-codegen/src/capspec.rs:233-345 | Specializing captures returns the same outcome on every run that does not get stuck |
| CloneFlow.BuildMapped | crates/blight-codegen/src/capspec.rs:176-227 | The flow graph of a specialized program maps into that of the original, where every mapped constraint holds: clones to what they copy, bound literals to environment slots |
| CloneFlow.NothingNewEscapes | crates/blight-codegen/src/cfa.rs:583-612 | If no closure escapes in a program, none does in what specialization makes of it |
| CapspecEscape.BuildIs | crates/blight-codegen/src/cfa.rs:617-664 | The whole flow graph of a concrete program whose function escapes through a constructor |
| CapspecEscape.Tracked | crates/blight-codegen/src/cfa.rs:583-612 | By every least solution the parameter of that escaped function still tracks the literal of its one direct call |
| CapspecEscape.EscapedLiteralIsKept | crates/blight-codegen/src/capspec.rs:268-287 | So specialization changes a result: the program computes 6, whatever the pass returns for it computes 5 |
| EscapeSource.CompiledWrong | crates/blight-codegen/src/capspec.rs:233-345 | That program is the normal form of a closed source term in the fragment of the other passes, which computes 6 |
| EscapeSource.Compile | crates/blight-codegen/src/driver.rs:217-247 | Running conversion, normalization and specialization on the term gives a program that computes 5 |
| CseHoist.BestIsLargestRepeat | crates/blight-codegen/src/cse.rs:79-95 | The chosen subterm repeats in the region and none that repeats is larger; none is chosen exactly when nothing worth sharing repeats |
| CseHoist.Counter.Visit | crates/blight-codegen/src/cse.rs:81-90 | Counts one visit in the table of candidates |
| CseHoist.Counter.Collect | crates/blight-codegen/src/cse.rs:212-217 | Visits the whole region in order |
| CseHoist.FindBest | crates/blight-codegen/src/cse.rs:79-95 | The candidate found from the table is the best candidate |
| CseHoist.ReplaceWork | crates/blight-codegen/src/cse.rs:223-259 | Replacing takes away the work of every occurrence, and of nothing else |
| CseHoist.HoistShrinks | crates/blight-codegen/src/cse.rs:59-77 | After a hoist fewer nodes are neither variables nor bindings, the new binding included |
| CseHoist.SharingCanGrow | crates/blight-codegen/src/cse.rs:262-266 | Plain size is no measure: sharing a repeated constructor without arguments enlarges the term |
| CseShares.HoistsAll | crates/blight-codegen/src/cse.rs:59-77 | At one node one largest repeat after the other is bound in front, until nothing worth sharing repeats under the bindings |
| CseShares.LargestSubsumes | crates/blight-codegen/src/cse.rs:76-95 | Of nested repeats the outer one is chosen |
| CseShares.RepeatIsShared | crates/blight-codegen/src/cse.rs:42-77 | A primitive other than a literal, a closure or a call that stands at two unconditional positions under no binder is shared: less work is left |
| CseShares.SharesIff | crates/blight-codegen/src/cse.rs:42-54 | The pass changes a term exactly when something worth sharing repeats in some region of it, and then leaves less work |
| CseProof.RegionIsEager | crates/blight-codegen/src/cse.rs:189-210 | Whatever is in the region is evaluated whenever the term is |
| CseProof.ReplaceSim | crates/blight-codegen/src/cse.rs:223-259 | With the shared value bound in front the rewritten term evaluates as before, closures up to weakening |
| CseProof.HoistSim | crates/blight-codegen/src/cse.rs:59-77 | Binding a subterm of the region in front changes no result |
| CseProof.LocalHoistSim | crates/blight-codegen/src/cse.rs:59-77 | Nor do all the hoists of one node |
| CsePreserves.CseKept | crates/blight-codegen/src/cse.rs:42-54 | In every environment the term and its rewriting give a result together, closures related by weakening and rewriting |
| CsePreserves.CsePreserves | crates/blight-codegen/src/cse.rs:42-54 | A closed program and its rewriting have exactly the same first-order results |
| CseScopes.CseClosed | crates/blight-codegen/src/cse.rs:42-54 | A closed source program stays one |
| CseScopes.CseShaped | crates/blight-codegen/src/cse.rs:79-95 | Sharing keeps branches in tail position, because what is shared is never a branch, and boxes nothing new |
| Backend.NormalFits | crates/blight-codegen/src/driver.rs:217-247 | Normal forms of converted programs are in the fragment the whole-program passes need |
| Backend.SpecializedFits | crates/blight-codegen/src/driver.rs:262-274 | A specialized program still is |
| Backend.SpecializedSafe | crates/blight-codegen/src/driver.rs:262-274 | If no closure escapes in the normal form, none does in the program devirtualization gets |
| Backend.BackendPreserves | crates/blight-codegen/src/driver.rs:217-274 | From a source with its branches in tail position to specialized and devirtualized code: outcomes agree at every fuel unless the source gets stuck, when no closure escapes in the normal form |
| Backend.DriverPreserves | crates/blight-codegen/src/driver.rs:208-274 | With sharing in front: a first-order result of the source is the result of the optimized program |
| Backend.BoxlessPreserves | crates/blight-codegen/src/driver.rs:208-274 | The same for every source program that boxes nothing, closures and all, with no condition on the analysis |
| Backend.CurriedCompiles | crates/blight-codegen/src/driver.rs:208-274 | One such program: a curried function applied twice computes 7, and so does whatever the passes return for it |
| Backend.Compile | crates/blight-codegen/src/driver.rs:208-274 | Runs the passes in the driver's order; what it returns is what specialization and devirtualization, by least solutions and their decisions, make of the normal form, and it has the source's first-order results |
| GcCopy.CopyOne | crates/blight-codegen/runtime/gc.c:331-355 | Copying one object behind the frontier and leaving a forward keeps the copy in order |
| GcCopy.ObjectScanned | crates/blight-codegen/runtime/gc.c:387-396 | When all fields of a copy have moved, the scan goes on to the next copy |
| GcCopy.ReachedMoved | crates/blight-codegen/runtime/gc.c:363-413 | When the scan meets the frontier, everything reachable has moved |
| GcCopy.OrderShort | crates/blight-codegen/runtime/gc.c:363-413 | No more copies are made than there were objects, so the scan ends |
| GcCopy.TwicePinned | crates/blight-codegen/runtime/gc.c:331-355 | Why pinned slots must differ: a slot met twice is copied twice, and other references to its object lead to a dead forward |
| GcHeap.MovedIdsInjective | crates/blight-codegen/runtime/gc.c:331-355 | The renaming of addresses is injective: sharing and cycles are kept |
| GcCollected.KeptIffReached | crates/blight-codegen/runtime/gc.c:363-413 | An object survives exactly when a root or handle reaches it |
| GcCollected.StoreMoved | crates/blight-codegen/runtime/gc.c:363-413 | The collected heap stands for the same store: tags, auxiliary words, fields, roots and handles |
| GcCollected.ClosedMoved | crates/blight-codegen/runtime/gc.c:363-413 | After a collection no live object is a forward, and live objects and roots name live objects only |
| GcCollected.RememberedMoved | crates/blight-codegen/runtime/gc.c:264-325 | After a collection no old object points into the nursery |
| GcCollected.MajorExact | crates/blight-codegen/runtime/gc.c:492-541 | A second relocation right after the first copies exactly what is there |
| GcMutator.GrowsOk | crates/blight-codegen/runtime/gc.c:574-584 | Allocation keeps the heap well-formed and adds one object to the store |
| GcMutator.StoresOk | crates/blight-codegen/runtime/gc.c:205-219 | A barriered store keeps every old object that points into the nursery remembered |
| GcMutator.SilentStoreOk | crates/blight-codegen/runtime/gc.c:212-216 | A store nothing records leaves the heap well-formed, and the remembered set still covers it exactly when there was nothing to record |
| GcLoss.LoseField | crates/blight-codegen/runtime/gc.c:212-216 | With a full set, a store with something to record and then a minor collection: the field dangles, where the never-collected store holds the object |
| GcLoss.Saturate | crates/blight-codegen/runtime/gc.c:205-219 | A run from a fresh collector that fills the remembered set, with nothing missed and no memory refused |
| GcLoss.LoseValue | crates/blight-codegen/runtime/gc.c:212-216 | So a run of allocations, barriered stores and minor collections leaves a pinned object with a dangling field |
| Gc.Collector.constructor | crates/blight-codegen/runtime/gc.c:135-178 | A nursery and an old region of at least a page each, empty, with the settings given and a shrink band of at least two |
| Gc.Collector.EvacMinor | crates/blight-codegen/runtime/gc.c:226-262 | Moves a nursery object once, follows its forward afterwards, leaves anything else |
| Gc.Collector.EvacMajor | crates/blight-codegen/runtime/gc.c:331-355 | Moves an object once, follows its forward afterwards |
| Gc.Collector.EvacRoots | crates/blight-codegen/runtime/gc.c:268-273 | Every pinned slot names the moved object |
| Gc.Collector.EvacRemembered | crates/blight-codegen/runtime/gc.c:280-289 | The fields of every remembered object are moved and its mark is cleared |
| Gc.Collector.BoxedArrayGcRoots | crates/blight-codegen/runtime/boxed_array.c:107-111 | Every handle names the moved object |
| Gc.Collector.Scan | crates/blight-codegen/runtime/gc.c:386-413 | The scan loop ends with every copy scanned |
| Gc.Collector.Promote | crates/blight-codegen/runtime/gc.c:264-325 | Promotion stays inside the old region whenever it has room for the nursery's occupancy |
| Gc.Collector.MinorCollect | crates/blight-codegen/runtime/gc.c:264-325 | Keeps the store if the remembered set covers the heap, and empties nursery and set; old objects not remembered are not touched |
| Gc.Collector.MajorCollectInto | crates/blight-codegen/runtime/gc.c:363-413 | Keeps the store and never writes past its destination |
| Gc.Collector.RelocateInto | crates/blight-codegen/runtime/gc.c:492-505 | Relocates into a fresh region and adopts it, or fails, with nothing changed, because this request was refused |
| Gc.Collector.CompactCollect | crates/blight-codegen/runtime/gc.c:510-541 | Keeps the store, even after missed stores; leaves request plus margin free and, if no request of this call was refused, at most the shrink band times live set, request and the larger of half the live set and the margin; fails only on a refusal of this call |
| Gc.Collector.Collect | crates/blight-codegen/runtime/gc.c:546-569 | Minor, in the same region, exactly when the old generation has its margin of room; compacting otherwise, to exactly the reachable objects |
| Gc.Collector.AllocSlow | crates/blight-codegen/runtime/gc.c:586-638 | Fails only when the host refuses memory during the call; oversized objects are born old |
| Gc.Collector.Alloc | crates/blight-codegen/runtime/gc.c:644-659 | Bumps when the nursery has room, without any request; otherwise fails only when the host refuses memory during the call |
| Gc.Collector.Poll | crates/blight-codegen/runtime/gc.c:661-668 | Collects exactly when less than a page of the nursery is left, and keeps the store |
| Gc.Collector.WriteBarrier | crates/blight-codegen/runtime/gc.c:205-219 | Records an unmarked old object that now points into the nursery, unless 65536 are recorded already |
| Gc.Collector.StoreField | crates/blight-codegen/runtime/gc.c:205-219 | The store is made; it goes unrecorded exactly when there is something to record and 65536 objects are recorded |
| Gc.Collector.InitField | crates/blight-codegen/runtime/boxed_array.c:47-67 | An initializing store has no barrier; it misses something exactly when it makes an object born old point into the nursery |
| Gc.Collector.LoadField | crates/blight-codegen/runtime/gc.c:205-219 | A read gives what the store holds |
| Gc.Collector.PushRoot | crates/blight-codegen/runtime/gc.c:180-193 | Pins a slot that is not pinned |
| Gc.Collector.PopRoots | crates/blight-codegen/runtime/gc.c:195-201 | Unpins the latest slots, all of them if asked for more |
| Gc.Collector.BoxedArrayNew | crates/blight-codegen/runtime/boxed_array.c:47-67 | A new array of copies, of any length, its handle the next in the table, across a collection |
| Gc.Collector.BoxedArrayLength | crates/blight-codegen/runtime/boxed_array.c:74-76 | The length, zero for an invalid handle |
| Gc.Collector.BoxedArrayGet | crates/blight-codegen/runtime/boxed_array.c:83-88 | The element, or out of range a fresh constructor without fields |
| Gc.Collector.BoxedArraySet | crates/blight-codegen/runtime/boxed_array.c:93-98 | A barriered store, or out of range nothing |
| GcRun.Step | crates/blight-codegen/runtime/gc.c:586-668 | One operation sees what it would see without a collector, unless a minor collection follows a store nothing recorded |
| GcRun.MissedIs | crates/blight-codegen/runtime/gc.c:205-219 | When something was missed, 65536 different old objects were stored to since the last collection, or an array born old was filled with a nursery pointer |
| GcRun.Run | crates/blight-codegen/runtime/gc.c:205-668 | Over every run of allocations, stores, reads, array operations and collections the mutator sees the never-collected heap; a run stops early only when the host refuses memory, or, in the state the machine is in, right before a minor collection that follows an unrecorded store: then 65536 different old objects were stored to since the last collection or an array longer than the nursery was filled |
| TaskQueue.Queue.Enqueue | crates/blight-codegen/runtime/worker.c:83-87 | The linked queue gains one more at its end |
| TaskQueue.Queue.Dequeue | crates/blight-codegen/runtime/worker.c:100-102 | The linked queue loses its oldest task |
| TaskQueue.EnqueueStep | crates/blight-codegen/runtime/worker.c:166-169 | Linking in a task makes the linked queue the pool's queue after the client's step |
| TaskQueue.DequeueStep | crates/blight-codegen/runtime/worker.c:93-99 | Unlinking gives the task the worker runs and the pool's queue after its step |
| PoolSafety.RunOk | crates/blight-codegen/runtime/worker.c:83-234 | Every interleaving of workers, clients, wake-ups and spurious wake-ups keeps the invariant |
| PoolSafety.ExactlyOnePlace | crates/blight-codegen/runtime/worker.c:93-128 | Each submitted task is in exactly one of queued, running on one worker, or done, and ran at most once, exactly once when done |
| PoolSafety.FirstInFirstOut | crates/blight-codegen/runtime/worker.c:83-102 | Tasks are started in the order they were submitted, and the queue is what is left of it |
| PoolSafety.JoinReturnsOwnResult | crates/blight-codegen/runtime/worker.c:210-220 | What a join has returned for a task is that task's function on its own argument |
| PoolSafety.JoinReturnsSubmitted | crates/blight-codegen/runtime/worker.c:154-220 | What a join returns is the function given to submit on the argument given to submit, whatever steps lie between |
| PoolSafety.FreeIsSafe | crates/blight-codegen/runtime/worker.c:210-220 | Once a join frees a task no worker, queue slot or client uses it |
| PoolSafety.ExitDrained | crates/blight-codegen/runtime/worker.c:93-97 | A worker exits only after shutdown and with the queue empty |
| PoolSafety.DestroyDrains | crates/blight-codegen/runtime/worker.c:222-234 | When destroying the pool has ended, every submitted task has been run, those still queued when it began included |
| PoolSafety.NoLostWakeup | crates/blight-codegen/runtime/worker.c:166-170 | While the queue is not empty some worker is awake, or a client is about to signal |
| PoolProgress.NeverStuck | crates/blight-codegen/runtime/worker.c:93-128 | Some step is enabled unless everything is at rest |
| PoolProgress.UnfinishedCan | crates/blight-codegen/runtime/worker.c:93-128 | With the mutex free and a submitted task not done, some step is enabled |
| PoolProgress.ProgressDrops | crates/blight-codegen/runtime/worker.c:83-234 | Every step but a spurious wake-up and a new request lowers the work left |
| PoolProgress.RunsAreShort | crates/blight-codegen/runtime/worker.c:83-234 | So the number of such steps is bounded by the work at the start |
| PoolProgress.Drains | crates/blight-codegen/runtime/worker.c:83-234 | From every reachable state the pool can run to rest |
| PoolProgress.StopsQuiet | crates/blight-codegen/runtime/worker.c:83-234 | And it stops nowhere else |
| Effects.FirstNode | crates/blight-codegen/runtime/effects.c:284-297 | The first field holding a bubbling operation |
| Effects.AppBinds | crates/blight-codegen/runtime/effects.c:202-226 | Applying runs the function, then the argument, then the call |
| Effects.PerformBinds | crates/blight-codegen/runtime/effects.c:124-138 | Performing runs the argument, then asks |
| Effects.BubbleBinds | crates/blight-codegen/runtime/effects.c:273-300 | Constructing runs the fields from left to right |
| Effects.BubblingIsDirect | crates/blight-codegen/runtime/effects.c:100-320 | For every expression and every script of answers, driving the node asks the same operations and ends in the same value as direct left-to-right evaluation |
| Effects.SharedNodeAsksTwice | crates/blight-codegen/runtime/effects.c:273-320 | A node held in two fields is asked twice |
| EffectsHeap.StillDenotes | crates/blight-codegen/runtime/effects.c:302-320 | Objects that are not written keep their meaning |
| EffectsHeap.Runtime.MakePerformCont | crates/blight-codegen/runtime/effects.c:112-120 | Allocates the pending perform |
| EffectsHeap.Runtime.MakeCompose | crates/blight-codegen/runtime/effects.c:187-198 | Allocates the pending application |
| EffectsHeap.Runtime.MakeRebuild | crates/blight-codegen/runtime/effects.c:262-271 | Allocates the pending construction |
| EffectsHeap.Runtime.PerformIdx | crates/blight-codegen/runtime/effects.c:124-138 | Performs or bubbles, writing to nothing that exists |
| EffectsHeap.Runtime.App | crates/blight-codegen/runtime/effects.c:202-226 | Applies or bubbles, writing to nothing that exists |
| EffectsHeap.Runtime.ConBubble | crates/blight-codegen/runtime/effects.c:273-300 | Bubbles the first operation among the fields |
| EffectsHeap.Runtime.Rebuild | crates/blight-codegen/runtime/effects.c:311-317 | A copy with one field filled; the original is left alone |
| EffectsHeap.Runtime.Resume | crates/blight-codegen/runtime/effects.c:100-110 | Runs a continuation: the earlier one first, then the pending work |
| EffectsHeap.Runtime.ResumeTwice | crates/blight-codegen/runtime/effects.c:302-320 | Resuming the same continuation again leaves the first result as it was |
| EffectsHeap.Runtime.Drive | crates/blight-codegen/runtime/effects.c:100-320 | Driving a node in the heap shows the run of its value |
| OpTable.Table.Find | crates/blight-codegen/runtime/effects.c:53-67 | The first index of a name, added at the end if new; stops exactly when a new name meets a frozen table or 256 names |
| OpTable.Table.Freeze | crates/blight-codegen/runtime/effects.c:71 | Nothing is added any more |
| OpTable.Table.NameOf | crates/blight-codegen/runtime/effects.c:73-91 | The name at an index, a placeholder out of range |
| OpTable.InternSucceeds | crates/blight-codegen/runtime/effects.c:53-67 | With room for every name, or every name known, interning never stops; known names change nothing |
| OpTable.OpIndexKept | crates/blight-codegen/runtime/effects.c:53-67 | An interned name keeps its index while the table grows |
| Serialize.WordTaken | crates/blight-codegen/runtime/serialize.c:97-106 | A word written is the word read |
| Serialize.RoundTrip | crates/blight-codegen/runtime/serialize.c:61-122 | Reading a written value, whatever surrounds it, returns it and consumes exactly its bytes |
| Serialize.EncodePrefixFree | crates/blight-codegen/runtime/serialize.c:61-122 | Different values have different encodings and none is a proper prefix of another's |
| Serialize.Layout | crates/blight-codegen/runtime/serialize.c:61-81 | The bytes of a node: tag, number of children and auxiliary word, least significant byte first, then the children; four bytes of 255 for nothing |
| Serialize.DataRecovered | crates/blight-codegen/runtime/serialize.c:54-122 | Every constructor, tuple, integer and natural, at any depth, is data, and is read back from its encoding |
| Serialize.DataIsPlain | crates/blight-codegen/runtime/serialize.c:54-81 | Data is exactly what holds no node of another tag, at any depth |
| Serialize.Blob.Reserve | crates/blight-codegen/runtime/serialize.c:42-49 | The buffer doubles, from 256, until the bytes fit, and keeps its contents |
| Serialize.Blob.Put | crates/blight-codegen/runtime/serialize.c:42-52 | Appends bytes |
| Serialize.Blob.Write | crates/blight-codegen/runtime/serialize.c:61-81 | Appends the encoding, or fails exactly when the value holds a node that is no constructor, tuple, integer or natural |
| Serialize.Read | crates/blight-codegen/runtime/serialize.c:92-122 | The cursor reader computes the decoding |
| Serialize.Transport | crates/blight-codegen/runtime/serialize.c:83-127 | Sent through a buffer a value arrives as it was, unless it holds a node of another tag; every first-order value arrives |
| Mobile.CodeIdOf | crates/blight-codegen/runtime/serialize.c:163-168 | The first position of a code pointer, none exactly when it is not registered |
| Mobile.UpToZero | crates/blight-codegen/runtime/serialize.c:257-269 | A name ends at its first zero byte |
| Mobile.RoundTrip | crates/blight-codegen/runtime/serialize.c:200-345 | Reading a written mobile value gives the corresponding value and consumes its bytes, or stops exactly when a name cannot be interned |
| Mobile.MobileRoundTrip | crates/blight-codegen/runtime/serialize.c:247-364 | Between processes of one binary the value arrives: code at the same table position, operations by name, the receiver's table only grown |
| Mobile.MobileArrives | crates/blight-codegen/runtime/serialize.c:349-364 | With room for the names, or all of them known, it does arrive |
| Mobile.DataDelivered | crates/blight-codegen/runtime/serialize.c:247-364 | Every first-order value is sent, and a process of the same binary receives it as it was and leaves its table alone |
| Mobile.MobileEverywhere | crates/blight-codegen/runtime/serialize.c:192-239 | A value travels exactly when every node in it is data, an operation node or a closure of registered code |
| Mobile.ClosureLayout | crates/blight-codegen/runtime/serialize.c:207-220 | The bytes of a closure: tag, table position, number of captures, captures |
| Mobile.OpLayout | crates/blight-codegen/runtime/serialize.c:221-235 | The bytes of an operation node: tag, its two names after their lengths, argument and continuation |
| Mobile.ForeignRefused | crates/blight-codegen/runtime/serialize.c:354-358 | A blob of another binary is refused whatever it contains |
| Mobile.UnregisteredRefused | crates/blight-codegen/runtime/serialize.c:207-211 | Nothing is sent when a tag cannot travel or a closure's code is not registered, at any depth |
| Mobile.CorrespondsMore | crates/blight-codegen/runtime/effects.c:53-67 | A table that has grown keeps the meaning of values already read |
| Mobile.WriteHeader | crates/blight-codegen/runtime/serialize.c:200-239 | The bytes before a node's children, or refusal |
| Mobile.Write | crates/blight-codegen/runtime/serialize.c:200-245 | Appends the mobile encoding, or fails exactly when some node cannot travel |
| Mobile.Read | crates/blight-codegen/runtime/serialize.c:276-347 | The cursor reader computes the decoding and grows the table as it says |
| Mobile.ReadOp | crates/blight-codegen/runtime/serialize.c:308-330 | An operation node's names are interned before its children are read |
| Mobile.Send | crates/blight-codegen/runtime/serialize.c:247-253 | The identity, then the value; nothing exactly when some node cannot travel |
| Mobile.Receive | crates/blight-codegen/runtime/serialize.c:349-364 | Refuses a foreign blob before looking at the value |

## Left out

- Literals, constructors, tuples, projections and integer primitives share one term constructor, because every pass treats them alike.
- Function names are a hint and a number, and a clone's name its base and number, instead of formatted strings.
- `Now`, `Later`, `Force`, `Op`, `Handle`, `Foreign`, `Region`, `Flat`, `NatPrim` and `FloatPrim` terms, allocation tags and constructor tag numbers.
- Division by zero and the one overflowing division are `Stuck`; other integer results wrap at 64 bits.
- The passes the driver runs between the modelled ones (unboxing, flattening, regions, monomorphization, inlining, layout) and its linearity check.
- Purity and the effect-free region test of the sharing pass: the fragment has no effect nodes, so both always hold.
- CsePreserves.CsePreserves: which of a stuck state and running out of fuel a program without a result shows is not kept, because sharing evaluates a subterm earlier.
- CfaSound.CleanFree: soundness is for programs in which, by the solution, no closure flows into a constructor or an unknown function, because `escape` opens parameters only: it does not follow the returns of escaped functions and does not raise tracked literals, although the comment on constructors (cfa.rs:290-294) calls it sound; EscapeSource.CompiledWrong is a source term on which the result is lost.
- Defunc.DefuncPreserves: nothing is said of runs that get stuck, because a devirtualized call no longer examines its head.
- Capspec.CapspecPreserves: nothing is said of runs that get stuck, for the same reason.
- RewriteProof.RewritePreserves: nothing is said of runs that get stuck, for the same reason.
- NormalizePreserves.NormalizePreserves: for programs whose branches are in tail position; NormalizeFragment.NormalizeMeaning says what every other program's normal form computes.
- Backend.DriverPreserves: for sources with their branches in tail position, by the same limit; that no closure escapes is asked of the least solution for the normal form, because EscapeSource.CompiledWrong shows the result lost otherwise.
- A read of a scope variable or environment slot that does not exist, where the compiler would panic, is read as the open node in the analysis and as the erased value in a clone.
- Loops over ordered sets of names and sites take the elements in any order.
- The collector's semi-space mode, arena objects, statistics, alignment, thread-local storage and address overflow; environment settings are constructor arguments.
- Memory maps addresses to whole objects; a freed region is one whose objects are no longer live; the host may place a new region anywhere apart from the others, or refuse.
- Gc.Collector.PushRoot: root slots are pairwise distinct, because a major collection does not recognize an object already moved when it meets the same slot again: GcCopy.TwicePinned says what then happens.
- Gc.Collector.BoxedArrayNew: the handle table never fails to grow.
- A collector method that may run a minor collection asks that no store since the last collection went unrecorded; the field `missed`, which no step of the collector reads, keeps track of that, and the ghost fields `stored` and `filledOld` of what was stored to meanwhile.
- GcRun.Run: says nothing past a minor collection that follows an unrecorded store; GcLoss.LoseField says what such a collection does.
- A task's function is total on integers; argument and result transport is the subject of `Serialize` and `Mobile`; a submitted code number is taken as resolved.
- The pool is destroyed while no client is inside a submit or a join, each task is joined once, and joins are made by clients, not by workers.
- Handlers (`bl_handle`, `bl_handle_fold`, `bl_cont_apply`), fused direct application, and the console, file, clock and graphics operations.
- Effects.BubblingIsDirect: compiled code is any total function of a function value and an argument; what it does in the heap is any allocation that leaves existing objects alone.
- Rooting across allocations in the effect runtime and the reader: the collector moves objects, which the collector model covers.
- Immediate values in the wire format are the headers they stand for; the buffer never fails to grow.
- Names on the wire hold no zero byte; the code table holds no null pointer.
