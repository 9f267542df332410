# A verified model of the compiler's analyses and transformations

The compiler translates a C-like language: a front end builds a control flow graph of instructions over
memory cells, a middle end promotes local variables to SSA values, removes dead code and finds loops, and
a back end selects machine instructions for phis and branches, computes live registers, removes dead
machine code, allocates registers by iterated coalescing, and rewrites spilled registers into accesses to
the stack frame. This project models those passes and proves what they are for: that the code before and
after does the same, in every run, for any number of steps, whatever the instructions compute; and that the
analyses in between are exact. Where the code falls short, a lemma names an input, and another one says
exactly for which inputs it holds.

Passes that work by changing their state are classes, with methods that follow the source step by step;
each is proved against functions and predicates on values, about which the lemmas speak. Sets and maps that
the source iterates over in the order of a hash table are visited in any order.

Reading guide, one module per file:

- Front end: `SysY` (statements and their meaning), `Lowering` (the graph that is built), `LoweredRuns`
  (running it), `CminusfBuilder`.
- SSA construction: `FlowGraph`, `PostOrder`, `DomTree`, `Dominators`, `PhiPlacement`, `PhiSites`, `Ssa`,
  `Renaming`, `MemoryToSsa`, `DefinitionStacks`, `Mem2Reg`, `SsaConstruction`.
- Loops: `NaturalLoops`, `LoopForest`, `LoopDetection`. Dead code: `Purity`, `LiveCode`, `DeadCode`.
- Instruction selection of phis and branches: `PhiCopies`, `InstructionSelector`, `SkippedCopy`.
- Machine code: `Machine`, `Liveness`, `Worklist`, `FunctionLiveness`, `EndlessLoop`, `DeadMachineCode`.
- Register allocation: `Coloring`, `Interference`, `AllocState`, `PhysicalColors`, `CoalescingTests`,
  `PhysicalNodes`, `RegisterAllocation`, `ListedArgument`. Spilling: `Frame`, `SlotCode`, `SpillCode`,
  `FrameDiscipline`, `SpillRewriting`.

Where the code does not do what it is for:

- Freezing a move takes its operands as they are written, and can put a physical register on the select
  stack; coalescing then forgets who interferes with it. `ListedArgument` is a function for which a value
  that is live across a definition of `$a0` ends up in `$a0`.
- Liveness is computed backwards from the epilogue only, so that nothing is live in a loop that never gets
  there (`EndlessLoop`).
- An operand that is also the destination does not count as a use, so that machine dead-code elimination
  erases the load in front of an address computation such as `add.d t, sp, t` (`SlotAddressLost`).
- A copy for a phi is put behind the comparison of a predecessor that has been selected already, where a
  comparison that holds does not pass it (`SkippedCopy`).
- The purity analysis follows the first pointer among the operands of an instruction, so that a store
  through a choice between a variable and a global counts as one to the variable (`ChoiceEscapes`).

## Model

| member | source | states |
|---|---|---|
| LoweredRuns.FunctionIsExact | src/cminusfc/cminusf_builder.cpp:371-415 | In both directions: if running the statements of a function ends, with a value and a world, the graph that is built for it ends with the same; and if the graph ends, the statements do |
| LoweredRuns.FunctionRuns | src/cminusfc/cminusf_builder.cpp:371-415 | The run of the graph follows the statements: while they have not ended after n turns of their loops, the graph is under way after n steps |
| LoweredRuns.StmtRuns | src/cminusfc/cminusf_builder.cpp:473-578 | Wherever a statement is lowered, the graph goes on behind it, at the end or the head of the loop around it, or returns, as the statement does |
| LoweredRuns.CondRuns | src/cminusfc/cminusf_builder.cpp:604-757 | The yes block of a condition is reached exactly when the condition is true, and only operands that have to be evaluated are |
| LoweredRuns.TurnRuns | src/cminusfc/cminusf_builder.cpp:517-549 | One turn of a loop and what follows it, with breaks and continues leading where they should |
| Lowering.LowerBuilds | src/cminusfc/cminusf_builder.cpp:417-578 | Lowering a statement only adds: no block other than the one that is being built is touched, and blocks that have ended are never touched again |
| SysY.ProperEnds | src/cminusfc/cminusf_builder.cpp:570-578 | A statement without stray breaks and continues never leaves one behind |
| CminusfBuilder.CminusfBuilder.VisitStmt | src/cminusfc/cminusf_builder.cpp:466-602 | The visitor builds exactly the graph that Lower describes, and restores the targets it had for branches, breaks and continues |
| CminusfBuilder.CminusfBuilder.VisitExp | src/cminusfc/cminusf_builder.cpp:705-757 | Short-circuit conditions come out as LowerCond describes them, with the branch targets restored |
| CminusfBuilder.CminusfBuilder.VisitSelection | src/cminusfc/cminusf_builder.cpp:473-515 | Selections, with and without else, come out as Lower describes them |
| CminusfBuilder.CminusfBuilder.VisitIteration | src/cminusfc/cminusf_builder.cpp:517-549 | Loops come out as Lower describes them, nested targets restored |
| CminusfBuilder.CminusfBuilder.VisitBlock | src/cminusfc/cminusf_builder.cpp:417-430 | What follows the end of a block of statements is dropped, as LowerAll describes |
| CminusfBuilder.CminusfBuilder.VisitFuncDef | src/cminusfc/cminusf_builder.cpp:371-415 | The graph of a function, closed by a default return if its end is reached |
| PostOrder.EveryReachableIsLeft | src/passes/Dominators.cpp:30-45 | The depth-first search leaves every block that can be reached from the entry |
| Dominators.Dominators.DfsVisit | src/passes/Dominators.cpp:30-39 | The recursive visit appends exactly the post-order of the search, and numbers it |
| Dominators.Dominators.CreateReversePostOrder | src/passes/Dominators.cpp:41-45 | The order is the post-order from the entry, which comes last, and every reachable block is numbered |
| Dominators.Dominators.Intersect | src/passes/Dominators.cpp:47-57 | Climbing by post-order numbers ends, in the block whose dominators are the common ones |
| Dominators.Dominators.ProcessBlock | src/passes/Dominators.cpp:67-84 | A block is hung under the nearest common block above its placed predecessors, and says whether that was a change |
| Dominators.Dominators.CreateIdom | src/passes/Dominators.cpp:59-87 | Repeating passes until nothing changes ends, and then the blocks above a block in the tree are exactly its dominators: those on every path from the entry |
| DomTree.FixpointIsExact | src/passes/Dominators.cpp:62-86 | Any tree that a pass leaves as it is, is the dominator tree |
| DomTree.UpIsImmediateDominator | src/passes/Dominators.cpp:59-87 | The parent in that tree is the immediate dominator: every other strict dominator dominates it |
| DomTree.FrontierIsDominanceFrontier | src/passes/Dominators.cpp:89-103 | What climbing from the predecessors collects is the dominance frontier by its definition, in both directions |
| Dominators.Dominators.CreateDominanceFrontier | src/passes/Dominators.cpp:89-103 | Afterwards the table holds exactly the frontiers of all blocks |
| Dominators.Dominators.CreateDomTreeSucc | src/passes/Dominators.cpp:105-113 | The successor sets are exactly the children in the tree |
| Dominators.Dominators.VisitTree | src/passes/Dominators.cpp:118-125 | The recursive walk numbers a subtree with nested intervals, and nothing else |
| Dominators.Dominators.CreateDomDfsOrder | src/passes/Dominators.cpp:115-129 | Interval inclusion is dominance, in both directions, and the order lists every block once |
| Dominators.Dominators.IsDominate | include/passes/Dominators.hpp:25-28 | The constant-time test answers exactly whether one block dominates another |
| Dominators.Dominators.RunOnFunc | src/passes/Dominators.cpp:4-21 | All of these for one function |
| PhiPlacement.GeneratePhi | src/passes/Mem2Reg.cpp:56-82 | The blocks that get a phi are the least set that holds the frontiers of the writing blocks and of its own members, and none if the variable is written in its home block alone |
| PhiPlacement.IteratedUnique | src/passes/Mem2Reg.cpp:67-81 | There is only one such set |
| PhiSites.SitesPlacePhis | src/passes/Mem2Reg.cpp:56-82 | These sites are the ones that renaming needs |
| Renaming.CurFromPredecessor | src/passes/Mem2Reg.cpp:125-140 | The definition that reaches a block without a phi is, along every edge, the one that its predecessor ends with |
| MemoryToSsa.RenamingPreservesRuns | src/passes/Mem2Reg.cpp:85-182 | A function in which loads are replaced by reaching definitions runs like the one with memory cells, unless that reads a variable before it is written |
| MemoryToSsa.SsaPreservesMeaning | src/passes/Mem2Reg.cpp:85-182 | The same from the entry, whatever unrelated values there are |
| Mem2Reg.Mem2Reg.GeneratePhis | src/passes/Mem2Reg.cpp:32-83 | Every variable gets its phis |
| Mem2Reg.Mem2Reg.RenameInstr | src/passes/Mem2Reg.cpp:86-123 | One instruction: what is on top of the stacks is the reaching definition before and after it, and a load is replaced by it |
| Mem2Reg.Mem2Reg.FillSuccessors | src/passes/Mem2Reg.cpp:125-140 | The phis of all successors get the definition that the block ends with, and no other operand changes |
| Mem2Reg.Mem2Reg.PopDefinitions | src/passes/Mem2Reg.cpp:148-161 | Taking definitions off again leaves the stacks as they were before the block |
| Mem2Reg.Mem2Reg.Rename | src/passes/Mem2Reg.cpp:85-182 | All loads at or below the block are replaced by reaching definitions, all phi operands from there are filled, and the stacks come back as they were |
| SsaConstruction.RunOnFunc | src/passes/Mem2Reg.cpp:12-30 | From use lists to the result: the promoted function behaves like the original in every run |
| NaturalLoops.ClosedIsLoop | src/passes/LoopDetection.cpp:14-42 | A set that holds the sources of the back edges, and the predecessors of all its blocks but the header, holds all of the natural loop |
| LoopForest.MergeStep | src/passes/LoopDetection.cpp:27-40 | Turning a loop that was found before into a sub-loop keeps what is known of all loops, and its root is one of them |
| LoopDetection.LoopDetection.DiscoverLoopAndSubLoops | src/passes/LoopDetection.cpp:14-42 | The work list ends, with the invariant that makes the blocks under the header the natural loop, and all loops found before as they were |
| LoopDetection.LoopDetection.FindLoops | src/passes/LoopDetection.cpp:46-66 | One loop for each target of a back edge, and no other |
| LoopDetection.LoopDetection.RunOnFunc | src/passes/LoopDetection.cpp:44-67 | Afterwards the loops are exactly the natural loops, and the forest of sub-loops says exactly which block is in which |
| Purity.FuncInfo.Run | src/passes/FuncInfo.cpp:4-17 | A function counts as pure if and only if no chain of calls leads from it to one that is impure by itself |
| Purity.ImpureExactly | src/passes/FuncInfo.cpp:26-111 | A function is impure if and only if calls lead from it to one that is only declared, is main, takes a pointer, or loads or stores through an address that, traced back step by step, is no variable of its own |
| Purity.PureAccessesNothingElse | src/passes/FuncInfo.cpp:66-94 | No function that a pure one calls, directly or not, loads or stores anything but what is derived from its own variables |
| Purity.PureKeepsWorld | src/passes/FuncInfo.cpp:66-94 | With addresses that point to cells, and stores that change them: a run of a pure function, with all runs it calls, changes no cell outside, if pure functions store to variables of their own |
| Purity.NeverWritesExactly | src/passes/FuncInfo.cpp:51-111 | The condition is exact: no run of any pure function changes the world if and only if no address that one of them stores to can point outside |
| Purity.StraightStaysInside | src/passes/FuncInfo.cpp:95-111 | It is met where no address of a store comes from an instruction with several pointers |
| Purity.ChoiceEscapes | src/passes/FuncInfo.cpp:103-107 | A store through a choice between a variable and a global, for which it is not met: the function counts as pure and has a run that changes the world |
| LiveCode.PureCall | src/passes/DeadCode.cpp:95-109 | So a call that is_critical passes over leaves the world alone, under that condition |
| LiveCode.SweepSameRuns | src/passes/DeadCode.cpp:72-93 | Sweeping what is not needed for critical instructions changes no run, where calls of pure functions do not change the world |
| LiveCode.WithoutSameRuns | src/passes/DeadCode.cpp:20-35 | Erasing a block without predecessors changes no run |
| DeadCode.DeadCode.Mark | src/passes/DeadCode.cpp:37-70 | What is marked is exactly what stores, branches, returns and calls of impure functions need, directly or through operands |
| DeadCode.DeadCode.Sweep | src/passes/DeadCode.cpp:72-93 | Exactly the unmarked instructions go, and the result says whether there were any |
| DeadCode.DeadCode.ClearBasicBlocks | src/passes/DeadCode.cpp:20-35 | Exactly the blocks that had no predecessor go, the others keep their instructions, and the runs stay the same |
| DeadCode.DeadCode.Run | src/passes/DeadCode.cpp:5-18 | Purity, clearing, marking and sweeping are repeated until nothing changes, which happens; every function then has the runs it had, where calls of pure functions do not change the world; nothing is left but what stores, branches, returns and calls of impure functions need; and no block but the entry is without predecessors |
| PhiCopies.TurnIsRight | src/codegen/InstructionSelector.cpp:609-633 | One block of machine code: it goes where the block with phis goes, and the next block's phis are about to take their values all at once, swaps included |
| PhiCopies.EdgeIsExact | src/codegen/InstructionSelector.cpp:621-629 | An edge is right, whatever is in the temporaries, if and only if it is not a taken comparison into a block that is selected later |
| PhiCopies.PhiEliminationPreservesRuns | src/codegen/InstructionSelector.cpp:609-633 | With no such edge, the machine code goes through the same blocks with the same values, in every run |
| SkippedCopy.SkippedCopyIsWrong | src/codegen/InstructionSelector.cpp:303-313 | A function of three blocks for which the selected code ends with a different value |
| SkippedCopy.SelectBranching | src/codegen/InstructionSelector.cpp:98-108 | The selector accepts that function and produces such code |
| InstructionSelector.InstructionSelector.FindInstr | src/codegen/InstructionSelector.cpp:622-626 | The place for copies is the first unconditional branch or branch on a register; comparisons are passed over |
| InstructionSelector.InstructionSelector.GenPhi | src/codegen/InstructionSelector.cpp:609-633 | A copy in every predecessor, in front of its branch or behind its comparison, and the move at the head |
| InstructionSelector.InstructionSelector.Run | src/codegen/InstructionSelector.cpp:91-108 | Afterwards every block is complete, and all copies are where the lemmas about runs expect them |
| Machine.NamedIsUsed | src/codegen/MachineInstr.cpp:173-179 | Branches and stores have no destination, define nothing, and use every register they name |
| Machine.WritesDefs | src/codegen/MachineInstr.cpp:262-275 | Running an instruction changes no register but those it defines; a branch that is taken changes nothing |
| Machine.UsesCoverReads | src/codegen/MachineInstr.cpp:219-260 | The uses that the compiler sees are all that the processor reads if and only if no operand is the destination, $sp and $zero aside |
| Liveness.BlockDef | src/codegen/MachineBasicBlock.cpp:86-100 | The loop collects exactly the registers that are written before they are read |
| Liveness.BlockUse | src/codegen/MachineBasicBlock.cpp:102-116 | The loop collects exactly the registers that are read before they are written |
| Liveness.SummaryIsTransfer | src/codegen/MachineBasicBlock.cpp:86-116 | With these two sets, one step of the analysis is the walk over all instructions of the block |
| Worklist.LivenessAnalysis.RunOnFunc | src/codegen/LivenessAnalysis.cpp:9-59 | The work list ends; blocks from which the epilogue can be reached satisfy the live equations, all others have nothing, and it is the least such solution |
| FunctionLiveness.SoundExactlyWhen | src/codegen/LivenessAnalysis.cpp:22-29 | The live sets cover what the code reads if and only if no block that is cut off from the epilogue reads a register from outside |
| FunctionLiveness.LiveIsKnown | src/codegen/LivenessAnalysis.cpp:37-58 | No register is live that no instruction uses |
| FunctionLiveness.FramePointerCarried | src/codegen/InstructionSelector.cpp:203-267 | The frame pointer that the epilogue reads is what carries the walk to all blocks |
| EndlessLoop.EndlessLoopLosesLive | src/codegen/LivenessAnalysis.cpp:28-29 | For a function with an endless loop, whatever is computed is too little, and dead-code elimination erases a definition that the loop reads |
| DeadMachineCode.SweepPreservesRuns | src/codegen/MIDCE.cpp:15-53 | Erasing dead instructions changes no run, for code in which none reads its own destination |
| DeadMachineCode.HarmlessExactly | src/codegen/MIDCE.cpp:36-49 | The pass does no harm in front of an instruction if and only if that does not read its own destination, $sp, $zero and $fp aside |
| DeadMachineCode.OwnOperandHarmed | src/codegen/MachineInstr.cpp:250-252 | For every other instruction there is a load in front of it that is erased, and a run that shows the difference |
| DeadMachineCode.SlotAddressLost | src/codegen/MIBuilder.cpp:115-118 | The builder emits such code for a slot at offset 2048 |
| DeadMachineCode.SweepIdempotent | src/codegen/MIDCE.cpp:17-52 | A second sweep over the same live sets finds nothing |
| DeadMachineCode.SweepKeepsSoundLive | src/codegen/MIDCE.cpp:6-13 | Live sets computed once stay good while code is erased |
| DeadMachineCode.SweepKeepsStaying | src/codegen/MIDCE.cpp:23-37 | Reserved instructions, branches, stores, calls, returns, and writes to $sp or $fp all stay, in order |
| DeadMachineCode.SweepLeavesNeeded | src/codegen/MIDCE.cpp:23-37 | Every other instruction that is left computes a register that is live behind it |
| DeadMachineCode.MIDeadCodeElimination.SweepBlock | src/codegen/MIDCE.cpp:20-50 | The backward walk in place leaves what Sweep describes: all that has to stay, in order, and besides only what is needed |
| DeadMachineCode.MIDeadCodeElimination.RunOnFunc | src/codegen/MIDCE.cpp:15-53 | The loop until nothing changes ends, and comes to one sweep of every block, so that in each all that has to stay is left, and besides only what is needed |
| Coloring.ColoringPreservesRuns | src/codegen/MachineInstr.cpp:294-306 | Code with colours for registers runs like the code before, in every run, with every live register in its colour, if interfering registers have different ones |
| Interference.InstrPairsInterfere | src/codegen/RegisterAllocation.cpp:123-139 | The pairs that are recorded at an instruction are exactly those that must not share a register; the sides of a move may |
| Interference.PairsRespected | src/codegen/RegisterAllocation.cpp:117-148 | Respecting the recorded pairs is enough |
| Interference.RespectedPairs | src/codegen/RegisterAllocation.cpp:117-148 | and no pair is recorded in vain |
| RegisterAllocation.RegisterAllocation.BuildGraph | src/codegen/RegisterAllocation.cpp:117-148 | Edges are the recorded pairs both ways, every move is filed under its operands, and degrees count neighbours |
| RegisterAllocation.RegisterAllocation.MakeWorklist | src/codegen/RegisterAllocation.cpp:160-171 | Every node is on exactly the list that its degree and its moves call for |
| RegisterAllocation.RegisterAllocation.GetAlias | src/codegen/RegisterAllocation.cpp:234-240 | Following and shortening an alias chain ends at the representative of the class |
| RegisterAllocation.RegisterAllocation.Simplify | src/codegen/RegisterAllocation.cpp:197-205 | One register goes on the stack, and its neighbours lose one each |
| RegisterAllocation.RegisterAllocation.DecrementDegree | src/codegen/RegisterAllocation.cpp:207-221 | On the way below the bound moves are enabled and the register changes lists; degrees wrap at 64 bits |
| RegisterAllocation.RegisterAllocation.Combine | src/codegen/RegisterAllocation.cpp:307-326 | One register becomes an alias of the other, which inherits moves and neighbours |
| RegisterAllocation.RegisterAllocation.Coalesce | src/codegen/RegisterAllocation.cpp:242-271 | A move is coalesced, constrained, or postponed, as the two tests say |
| RegisterAllocation.RegisterAllocation.FreezeMoves | src/codegen/RegisterAllocation.cpp:335-352 | The moves of a register are given up one by one, and far ends listed that have none left |
| AllocState.SimplifyKeeps | src/codegen/RegisterAllocation.cpp:197-205 | Simplifying keeps the invariant, by which every recorded interference is still taken care of, and lowers the measure of the loop |
| AllocState.CoalesceKeeps | src/codegen/RegisterAllocation.cpp:242-326 | So does coalescing: the heir has an edge, or is shielded, wherever the absorbed register had one |
| AllocState.FreezeKeeps | src/codegen/RegisterAllocation.cpp:328-360 | So do freezing and choosing a register to spill |
| AllocState.FreezeListsExactly | src/codegen/RegisterAllocation.cpp:335-352 | A freeze lists a register if and only if its degree is low and it is at the far end of the last of its moves |
| AllocState.FreezeCanList | src/codegen/RegisterAllocation.cpp:335-352 | Some order of the moves lists a register if and only if its degree is low, it has no move without the frozen register, and one of those moves names it; physical or not |
| CoalescingTests.CountsBackAndForth | src/codegen/RegisterAllocation.cpp:207-209 | Degrees are counted up and down modulo 2^64, and one undoes the other |
| CoalescingTests.SimplifyCounts | src/codegen/RegisterAllocation.cpp:197-221 | Pushing a register takes one from the degree of every neighbour that is neither on the stack nor coalesced, and from no other |
| CoalescingTests.DecrementKeepsLists | src/codegen/RegisterAllocation.cpp:207-221 | A register leaves the spill list exactly when its degree gets below the bound, and none comes to stand on the freeze list with a high degree |
| CoalescingTests.ConservativeExactly | src/codegen/RegisterAllocation.cpp:284-297 | The test for two virtual registers holds if and only if the combined register would have fewer neighbours of significant degree than there are colours |
| CoalescingTests.ColoredAdjExactly | src/codegen/RegisterAllocation.cpp:273-282 | The test for a physical register holds if and only if combining would give that no new virtual neighbour of significant degree |
| RegisterAllocation.RegisterAllocation.Step | src/codegen/RegisterAllocation.cpp:63-72 | Each turn is one of the four, keeps the invariant and lowers the measure; physical registers out of reach stay off the lists, and no physical register becomes the end of an alias that was none and that no move names |
| RegisterAllocation.RegisterAllocation.RunLoop | src/codegen/RegisterAllocation.cpp:63-74 | The inner loop ends, with all lists empty |
| PhysicalColors.AllocatableAreSaved | include/codegen/Operand.hpp:207-235 | The registers that may be handed out are exactly the caller-saved and callee-saved ones, and none of $zero, $tp, $sp, $r21 and $fp |
| PhysicalColors.BoundIsNumberOfColors | src/codegen/RegisterAllocation.cpp:10-20 | The bound that degrees are compared with is the number of these registers |
| RegisterAllocation.RegisterAllocation.SelectColor | src/codegen/RegisterAllocation.cpp:367-394 | A register gets an allocatable colour that no neighbour's representative stands for; it is spilled only if there is none |
| RegisterAllocation.RegisterAllocation.AssignColors | src/codegen/RegisterAllocation.cpp:362-407 | Every colour is allocatable, or that of a physical register with which the virtual one was coalesced; a register that is spilled has neighbours with all the colours there are, if none is on the stack twice; when nothing is spilled, every node has a register of its type, and interfering registers clash at most on physical registers that were on the stack |
| RegisterAllocation.RegisterAllocation.Round | src/codegen/RegisterAllocation.cpp:59-82 | No virtual register gets a reserved register, unless a move of the code names that; when nothing is spilled, interfering registers clash at most on a physical register that is exposed when the round begins; with none exposed the code may be coloured |
| PhysicalNodes.ExposedAtFirst | src/codegen/RegisterAllocation.cpp:30-58 | In the first round of a function the exposed registers are exactly the physical ones that moves name; there are none if freezing follows aliases and leaves physical registers alone |
| PhysicalNodes.ExposedLater | src/codegen/RegisterAllocation.cpp:59-82 | In later rounds, only such as have not lost a neighbour yet |
| PhysicalNodes.FreezeKeepsApart | src/codegen/RegisterAllocation.cpp:335-352 | A physical register without moves, or whose degree has wrapped around, is never listed by a freeze |
| ListedArgument.FunctionRecorded | src/codegen/RegisterAllocation.cpp:117-148 | The interferences and moves of a function that copies its argument |
| ListedArgument.BuildFunction | src/codegen/RegisterAllocation.cpp:117-171 | Building its graph and listing its nodes leads to the state in which the turns below begin |
| ListedArgument.ArgumentClashes | src/codegen/RegisterAllocation.cpp:59-407 | Nine turns from there $a0 is on the stack with all lists empty; the stack can be popped without a spill, and a register that interferes with $a0 gets $a0 |
| Frame.FrameScheduler.InsertAlloca | include/codegen/MachineFunction.hpp:70-75 | A new variable gets bytes below everything there is, aligned to 16 with at most 15 to spare; no two areas share a byte |
| Frame.FrameScheduler.InsertReg | include/codegen/MachineFunction.hpp:76-79 | A spilled register gets 8 bytes below everything there is |
| Frame.FrameScheduler.GetFrameSize | include/codegen/MachineFunction.hpp:82-85 | Rounding up the size keeps the layout |
| Frame.MasksClear | include/codegen/MachineFunction.hpp:88-90 | The mask that aligns takes off the remainder |
| Frame.SlotsOk | include/codegen/MachineFunction.hpp:68-94 | Every slot has 8 aligned bytes in the frame, below its base, which it shares with no other slot and no variable; that is what the rewriting of spilled registers needs |
| SlotCode.LoadInt32Runs | src/codegen/MIBuilder.cpp:37-50 | Any 32-bit constant is loaded, in one instruction or two, and nothing changes but the register and a fresh one |
| SlotCode.AddIntRuns | src/codegen/MIBuilder.cpp:79-102 | Adding any 32-bit constant, in each of its four forms, changes the destination and fresh registers only |
| SlotCode.SlotsChecked | src/codegen/MIBuilder.cpp:151-366 | In the code for a slot, however far that is, every immediate fits and every register is of the type that the builder checks; one instruction is used exactly when the offset fits |
| SlotCode.LoadSlotRuns | src/codegen/RegisterAllocation.cpp:430-468 | With the address of the frame in $sp for registers saved before $fp is set, and in $fp for all others, the code that loads a slot, near or far, loads what the slot holds and changes nothing but fresh registers |
| SlotCode.StoreSlotRuns | src/codegen/RegisterAllocation.cpp:483-522 | Under the same condition, the code that stores to a slot changes that slot and fresh registers only |
| SpillCode.SpillPreservesRuns | src/codegen/RegisterAllocation.cpp:415-531 | The rewritten code runs like the code before, in every run, with spilled registers in their slots, while the address of the frame is at hand wherever one is named |
| SpillCode.SpilledSpillable | src/codegen/RegisterAllocation.cpp:415-531 | Rewritten code can be rewritten again: its registers are numbered below the next fresh one, and no instruction has come to read what it writes |
| FrameDiscipline.RunIsFramed | src/codegen/InstructionSelector.cpp:203-267 | In code that uses slots through $sp before $fp is set and after $sp is restored, and through $fp in between, and does not write $fp there, the address of the frame is at hand throughout every run |
| FrameDiscipline.DisciplinedSpillsPreserveRuns | src/codegen/RegisterAllocation.cpp:415-531 | So rewriting such a function preserves its runs from the prologue on, with no assumption on where the frame is but that $sp holds its address at the start |
| FrameDiscipline.LaidOutIsDisciplined | src/codegen/InstructionSelector.cpp:203-267 | The prologue and epilogue that instruction selection lays out make a function of that kind, if nothing else writes $fp or names the register it is saved in |
| SpillRewriting.SpillRewriting.RewriteProgram | src/codegen/RegisterAllocation.cpp:409-540 | Exactly the spilled registers get slots, in the frame, and rewriting block by block in place comes to that code; immediates fit and register types are right if they were before, and the result can be rewritten again |

## Left out

- RegisterAllocation.RegisterAllocation.Round: the outer loop of run_on_func, which repeats rounds and rewriting until nothing is spilled, is not composed into one theorem, and whether it ends is not stated; each round, each rewriting and the final colouring are.
- RegisterAllocation.RegisterAllocation.AssignColors: does not say when a clash on a stacked physical register does come about, only where it can; ListedArgument shows that it can. The condition of colorize that every register has a colour is the part of ProperColoring about nodes.
- ListedArgument.ArgumentClashes: the function is made of single instructions that write physical registers, which stand for the pressure that a long function makes with virtual ones.
- PhysicalNodes.ExposedLater: assumes that counting down has not used up 2^64, which the size of a function cannot reach.
- SsaConstruction.RunOnFunc: covers functions whose blocks are all reachable. An unreachable loop that dead-code elimination leaves in place is not covered; where it runs into a reachable block with several predecessors, create_dominance_frontier asks for the immediate dominator of no block, and fails.
- Dominators.Dominators.RunOnFunc: starts with empty orders, as for the first function of a module; later functions find the orders of earlier ones, with which they have no block in common. That the first predecessor of every block comes before it in the search is assumed of the graph; the front end makes such graphs, since the jump into a loop is made before the jumps back.
- Mem2Reg.Mem2Reg.Rename: replacing the uses of a load in place, and taking loads and stores out, is modelled by a map from loads to values that is applied at the end.
- Purity.StraightStaysInside: that the front end makes no address from several pointers, because it never chooses between pointers, is not shown.
- DeadCode.DeadCode.Run: says that runs stay the same only for modules whose pure functions store to variables of their own, which the code does not check.
- LoopDetection.LoopDetection.RunOnFunc: a loop is named by its header; the list of back edges that it keeps is left out.
- InstructionSelector.InstructionSelector.Run: constants are operands of their own, comparisons are one instruction with an operator, and no block is its own predecessor; that the front end never makes a comparison that leads to a block with a phi is not shown.
- CminusfBuilder.CminusfBuilder.VisitStmt: expressions are named computations; declarations, arrays, implicit conversions and initialiser lists are left out.
- SpillCode.SpillPreservesRuns: memory is cells at addresses, not bytes; a slot is one cell. Spilled condition flags, for which the source asserts that there are none, are excluded.
- FrameDiscipline.LaidOutIsDisciplined: is about the code as it is laid out; in a later round, a register made for the slot of the saved frame pointer must not be spilled itself, which is not shown. That calls and memory accesses of the function do not touch the slots is assumed of the run.
- SpillRewriting.SpillRewriting.RewriteProgram: replacing the adjustment of the stack pointer in the prologue is not part of it, and sizes of frames are unbounded integers.
- Frame.FrameScheduler.InsertReg: 32-bit overflow of the frame size is not modelled.
- Interference.PairsRespected: moves between a virtual register and $sp or $zero are excluded; they would make the virtual one an alias of it.
- FunctionLiveness.FramePointerCarried: assumes that only prologue and epilogue write the frame pointer.
- Machine code: what instructions compute is a parameter, including calls; a call reads its argument registers and overwrites the caller-saved ones.
- Loop-invariant code motion, peephole optimisation, printing of assembly, parameter schedules, scopes and the constant folding of the front end are not part of this model.
