# A verified model of rvr's recompiler core

rvr turns RISC-V programs into C or assembly ahead of time. This project models the part
of it that decides what the emitted program does, and proves that it does what the
original program does, or says exactly when.

- **Control-flow analysis.** An abstract interpreter over capped sets of constants
  (`Values`, `Registers`, `Analysis`, `Worklist`, `Fixpoint`), then leaders and the
  predecessor map (`Graph`). The lattice, the in-place register states and the worklist
  are modelled as the code runs them. On exit by exhaustion the facts are a
  post-fixpoint, every run within stated limits is covered, and no address is visited
  more than 1 + 31 * 16 times.
- **The block table.** Blocks from leaders (`Formation`), the greedy merge (`Merge`,
  `Tables`), tail duplication (`TailDup`), superblocks (`Superblock`, `TakenInline`), the
  repair of redirections (`Stale`) and the class that runs them in order (`BlockTable`,
  `Stages`). Hash sets and maps are visited in an arbitrary order.
- **What the emitted program executes.** `Text` models the extent of the emitted text and
  the index into the dispatch table. `Trace` runs decoded code one instruction at a time
  and emitted block functions one instruction at a time, over an arbitrary machine state;
  the entry of a run and every computed jump go through the dispatch table. `Layout` lifts
  chains of blocks to block functions; `Inlined` adds taken paths inlined into branches.
  A layout keeps every recorded run if and only if what those runs reach is right and
  every block function has its slot (`Exact`, `Slots`), and with inlined paths if and only
  if the inlined branches they reach lead right, too (`InlinedLive`). From this follow the
  exact conditions under which each pass, and all of them together with the repair, keep
  all runs, without inlined paths (`Kept`) and with them (`InlinedRuns`), that safe passes
  do (`BlockTable`), and that the analysis and the optimization together do for every run
  within the analyser's limits (`EndToEnd`).
- **Address resolution and dispatch** (`Dispatch`), **instruction decoding into slots**
  (`InstructionTable`).
- **IR.** Expressions at XLEN 32 and 64 with the folding constructors (`Ir`, over `Bits`),
  the A extension's atomics and reservations (`Atomics`, `Reservation`; sections 8.4 and
  8.2 of the RISC-V Unprivileged ISA Specification, version 20191213), and the rotates
  (`Rotates`; RISC-V Bit-Manipulation ISA-extensions, version 1.0.0).
- **The ARM64 logical-immediate test** (`LogicalImm`).

Words are natural numbers below a power of two; wrap-around is written out. Code that
updates fields in place is a class (`BlockTable`, `RegisterState`, `InstructionTable`),
loops are loops, and everything is specified by functions and predicates on values.

What the code does not meet is stated next to an exact condition, with a concrete
input in `Limits`:

- A block that is its own merge target is dropped by merging. Merging partitions the
  blocks, and conserves the instruction count, if and only if there is none.
- Tail duplication appends a block to every predecessor's block, also where that
  predecessor is a call whose return site the block is, and copies the first range only.
  It keeps the layout faithful if and only if no duplicated block owns continuations and
  the copies a block receives line up: it jumps to the first, which runs into the next.
  If all blocks were visited, that is: every receiver ends in a jump to the copy, and
  then it is also exactly when recorded runs are kept. The comment on the method promises
  a copy for each predecessor without these conditions.
- Superblock formation asks for at most one predecessor, not for the right one. It keeps
  the layout faithful if and only if recorded edges enter the members of a chain from the
  block before only, not by a taken branch, and none leads from a member to its
  continuations. If all blocks were visited, that is: no head branches to its own
  fall-through and no absorbed block owns continuations. A block nobody visited can
  absorb a block that others branch to, and then runs are lost.
- The entry of a run and computed jumps are looked up in a table that reaches from the
  least block start to the greatest block end, and a block that was merged backwards ends
  below its start. For a start of the text that is a power of two the index is masked, so
  addresses from twice the start on share slots. A block function has its own slot if and
  only if it starts below the end of some block function and is not masked, or the slot
  it is masked to holds a redirection to it. Faithful layouts, merged ones among them,
  keep every recorded run if and only if all their block functions have their slots.
- There is no bounds check: a computed jump to an address that is no instruction stops
  the program only if its slot holds the trap. A recorded run stays the same if and only
  if all its computed jumps off the code find traps; where every recorded run is said to
  be kept, these are meant.
- A leader inside an instruction ends a block before it, and the fall-through is in no
  block. Visited fresh blocks keep every recorded run if and only if there is no such
  leader before an instruction that is not a leader itself, and all have their slots.
- Decoding a segment over one decoded before can start an instruction inside one that
  stays in the table. Instructions stay apart if and only if no four-byte instruction that
  the sweep does not overwrite is right in front of one that it finds.
- The transfer of a load reads the least base only. It is sound if and only if every
  possible base loads the same constant.
- The dispatch table prefers block functions to redirections. It agrees with address
  resolution at an address if and only if the address is not both a block function and
  redirected elsewhere, which no optimized table has.

## Model

| member | source | states |
|---|---|---|
| Text.TextBounds | crates/rvr/src/pipeline.rs:637-649 | the text starts at the least block start and ends at the greatest block end, the end of a block being that of the instruction pushed last, for every order of the blocks |
| Text.MaskedIndex | crates/rvr-emit/src/c/header/dispatch.rs:45-69 | for a start of the text that is a power of two, masking and shifting the address is half the remainder by the start |
| Text.SlotExact | crates/rvr-emit/src/c/header/dispatch.rs:45-74 | a block function is found at its own index if and only if it lies below the end of the text and, for a power of two, below twice its start, or the slot it is masked to holds a redirection to it |
| Text.SlottedExact | crates/rvr-emit/src/c/dispatch.rs:82-94 | all block functions are found at their indices if and only if each of them meets that condition |
| Text.ShortText | crates/rvr-emit/src/c/header/dispatch.rs:45-74 | if the text ends below twice its start or the start is no power of two, it is enough that every block start lies below some block end, and for other starts necessary |
| Trace.StepMatches | crates/rvr-emit/src/c/emitter/block.rs:79-170 | where what recorded runs reach is right and every block function has its slot, one recorded step of the code and one of the emitted block functions, computed jumps through the dispatch table, started at the same instruction with the same state, end at the same instruction with the same state, or both stop |
| Trace.SameTrace | crates/rvr-emit/src/c/emitter/terminator.rs:8-45 | for every number of steps, every machine and every recorded run whose jumps off the code find traps, code and block functions execute the same program counters and end in matching configurations |
| Trace.OffCode | crates/rvr-emit/src/c/emitter/terminator.rs:103-125 | a computed jump off the code that finds no trap stops the code but not the block functions |
| Trace.LiveRun | crates/rvr-emit/src/c/emitter/terminator.rs:100-125 | the same if and only if, asking only that what recorded runs reach is right |
| Trace.FaithfulRun | crates/rvr-emit/src/c/emitter/terminator.rs:47-72 | a faithful emission whose block functions have their slots keeps a recorded run from a block function, entered through the dispatch table, if and only if the computed jumps of the run that leave the code find traps |
| Layout.PushRange | crates/rvr/src/pipeline.rs:555-579 | lifting one range appends the instructions from its start on, up to its end, an undecoded address, or (last range only) control flow |
| Layout.PushRanges | crates/rvr/src/pipeline.rs:547-580 | all ranges are lifted in order, only the last one stopping at control flow |
| Layout.LiftBlockWithContinuations | crates/rvr/src/pipeline.rs:535-597 | the lifted block is the instructions of all ranges with an explicit fall-through at the end, or none if there is no instruction |
| Layout.LiftedChain | crates/rvr/src/pipeline.rs:552-594 | a chain of blocks that run on to each other lifts to a body that follows the code instruction by instruction, ends in the last block's last instruction and has control flow only at block ends |
| Layout.FaithfulLayoutEmits | crates/rvr/src/pipeline.rs:535-597 | a layout whose chains run on and whose recorded exits lead to block functions lifts to a faithful emission |
| Layout.FaithfulLayoutTrace | crates/rvr/src/pipeline.rs:535-597 | a faithful layout whose block functions have their slots keeps a recorded run from a block function if and only if its computed jumps off the code find traps: same instructions, same final instruction, same state |
| Exact.ProbeAgrees | crates/rvr-emit/src/c/emitter/block.rs:146-169 | if runs stay the same, code and block function agree on what follows the k-th instruction a recorded run reaches, for every branch decision and every computed target |
| Exact.SameRunsExact | crates/rvr-emit/src/c/emitter/block.rs:79-170 | an emission of the code's instructions keeps every recorded run of every machine if and only if every instruction such a run reaches runs on as the code does, its recorded exits lead to block functions, and every block function has its slot |
| Exact.RunsExact | crates/rvr/src/pipeline.rs:535-597 | the same for the lifted chains of any layout, visited or not |
| Exact.LiveFaithful | crates/rvr/src/pipeline.rs:535-597 | if every instruction of a block was visited, what is right as far as recorded runs go is right everywhere |
| Exact.EmissionFaithful | crates/rvr/src/pipeline.rs:535-597 | a faithful emission comes from chains that run on and whose exits are covered |
| Exact.FaithfulExact | crates/rvr/src/pipeline.rs:535-597 | over visited blocks a layout keeps every recorded run of every machine if and only if it is faithful and every block function has its slot |
| Slots.SlotsExact | crates/rvr/src/pipeline.rs:637-649 | all block functions of a layout have their slots if and only if each starts below the end of some chain and is not masked to another slot, or a redirection to it is there |
| Slots.FreshSlots | crates/rvr/src/pipeline.rs:637-649 | before any pass only masking can take a block function's slot away |
| Formation.ScanBlock | crates/rvr-cfg/src/block_table.rs:197-232 | the scan from a leader gives a straight line of decoded instructions with the right count and last address, no leader inside, ended by control flow, a leader, an undecoded address or a leader inside the last instruction |
| Formation.SortLeaders | crates/rvr-cfg/src/block_table.rs:181-184 | the leaders in strictly ascending order, none lost or added |
| Formation.CreateBlocksFromLeaders | crates/rvr-cfg/src/block_table.rs:176-239 | exactly one such block per leader that is an instruction, in address order, for every set of leaders |
| Formation.BlocksDisjoint | crates/rvr-cfg/src/block_table.rs:176-239 | the blocks cover disjoint address ranges |
| Formation.EdgesEnterAtStart | crates/rvr-cfg/src/analysis/mod.rs:807-839 | no recorded edge from outside a block enters it except at its start |
| Formation.CoveredIffAligned | crates/rvr-cfg/src/block_table.rs:194-232 | falling off a block leads to a block or out of the code if and only if no leader lies inside an instruction followed by an instruction that is no leader |
| Formation.FreshEdges | crates/rvr-cfg/src/block_table.rs:176-239 | with leaders that cover the recorded edges, edges out of a block's last instruction lead to blocks |
| Formation.FreshIsFaithful | crates/rvr-cfg/src/block_table.rs:176-239 | fresh blocks then are a faithful layout |
| Kept.FreshKeepsRuns | crates/rvr-cfg/src/block_table.rs:176-239 | visited fresh blocks keep every recorded run if and only if leaders are aligned and every block has its slot |
| Merge.FindAbsorbed | crates/rvr-cfg/src/block_table.rs:293-302 | for every block order, each absorbed block is the merge target of a block that was not claimed earlier, and every block with a target has it absorbed or is absorbed itself |
| Merge.ChainsMeetAtHead | crates/rvr-cfg/src/block_table.rs:317-346 | two chains that share a block have the same head and share it at the same position |
| Merge.ChainDescends | crates/rvr-cfg/src/block_table.rs:317-346 | the table index of the absorber goes down along a chain, the measure by which the chain-following loop ends |
| Merge.FollowChain | crates/rvr-cfg/src/block_table.rs:322-346 | the loop ends and yields the maximal chain of its head, with its ranges, total count and last instruction, and redirects exactly the chain's other blocks to the head |
| Merge.HeadOf | crates/rvr-cfg/src/block_table.rs:293-346 | without self targets, every block is in the chain of some surviving head; no cycle is absorbed whole |
| Merge.SelfTargetLost | crates/rvr-cfg/src/block_table.rs:293-346 | a block that is its own merge target is in no chain |
| Merge.PartitionExact | crates/rvr-cfg/src/block_table.rs:293-355 | the chains partition the blocks, each at one position of one chain, if and only if no block is its own merge target |
| Merge.CountsConserved | crates/rvr-cfg/src/block_table.rs:317-355 | a partition holds as many instructions as the blocks, in any order of summation |
| Merge.MergedExit | crates/rvr-cfg/src/block_table.rs:366-394 | a recorded edge that leaves a chain never leads to an absorbed block: those are entered from their chain predecessor only |
| Merge.MergeIsFaithful | crates/rvr-cfg/src/block_table.rs:278-394 | merging keeps the layout faithful if predecessors hold every recorded edge |
| Tables.IndexByStart | crates/rvr-cfg/src/block_table.rs:285-291 | block starts and table positions correspond one to one |
| Tables.Remaining | crates/rvr-cfg/src/block_table.rs:445-453 | exactly the blocks that were not removed remain |
| Tables.MergeHead | crates/rvr-cfg/src/block_table.rs:317-355 | chaining up one more head keeps blocks, continuations and redirections in step with the chains done so far |
| Tables.BuildChains | crates/rvr-cfg/src/block_table.rs:308-358 | after all blocks, exactly the unclaimed ones remain, each with its whole chain |
| Tables.MergedLayout | crates/rvr-cfg/src/block_table.rs:348-358 | the merged tables stand for exactly these chains |
| Tables.TablesFaithful | crates/rvr-cfg/src/block_table.rs:49-60 | tables whose chains run on, whose exits reach blocks and whose redirections lead from non-blocks to blocks are a faithful layout |
| Stages.MergedTidy | crates/rvr-cfg/src/block_table.rs:278-363 | after merging, blocks know the last instruction of their chain, blocks inside chains are no block functions, and exactly the blocks that own continuations are redirected to |
| Stages.MergedFaithful | crates/rvr-cfg/src/block_table.rs:278-363 | merging a fresh table keeps the layout faithful |
| Kept.MergeKeepsRuns | crates/rvr-cfg/src/block_table.rs:278-363 | merging a fresh table keeps every recorded run if and only if the merged block functions have their slots |
| Stages.ChoicePartition | crates/rvr-cfg/src/block_table.rs:293-355 | chains are always pairwise disjoint, and cover all blocks if and only if none is its own target |
| Stages.CountsExact | crates/rvr-cfg/src/block_table.rs:317-355 | merging conserves the stored instruction counts if and only if no block is its own target, and never adds to them |
| TailDup.CollectCandidates | crates/rvr-cfg/src/block_table.rs:460-516 | exactly the small non-entry blocks that end in a fall-through and have two or more predecessors, all of them jumps |
| TailDup.IndexByLast | crates/rvr-cfg/src/block_table.rs:416-417 | last instructions and block starts correspond one to one |
| TailDup.RankPredecessors | crates/rvr-cfg/src/block_table.rs:518-546 | for every order of the predecessor set, the blocks that end in a direct predecessor, explicit transfers first, each group in address order |
| TailDup.CollectPredecessors | crates/rvr-cfg/src/block_table.rs:518-547 | their starts in this order, without duplicates |
| TailDup.ApplyTailDuplication | crates/rvr-cfg/src/block_table.rs:549-567 | every receiver gets one copy at the end, no other block changes, and the first receiver takes over the address |
| TailDup.DuplicateOne | crates/rvr-cfg/src/block_table.rs:425-443 | one more candidate keeps chains grown by exactly the copies of the candidates done |
| TailDup.DuplicateAll | crates/rvr-cfg/src/block_table.rs:425-443 | the same for all candidates in any order |
| TailDup.ReceiverSurvives | crates/rvr-cfg/src/block_table.rs:460-516 | a block that receives a copy ends in a jump and is never eliminated |
| TailDup.SafeIsEnough | crates/rvr-cfg/src/block_table.rs:400-458 | safe duplication keeps the layout faithful, whether blocks were visited or not |
| TailDup.TailDuplicationExact | crates/rvr-cfg/src/block_table.rs:400-567 | tail duplication keeps the layout faithful if and only if no duplicated block owns continuations and the copies each block receives line up, from the jump at its end through every copy to the next |
| TailDup.VisitedDuplication | crates/rvr-cfg/src/block_table.rs:400-567 | over visited blocks that is: no duplicated block owns continuations and every receiver ends in a jump to the copy |
| Kept.DuplicationKeepsRuns | crates/rvr-cfg/src/block_table.rs:400-567 | tail duplication keeps every recorded run if and only if what recorded runs reach is right and every block function has its slot; safe duplication makes it right, and over visited blocks only safe duplication does |
| Superblock.BuildSuperblockChain | crates/rvr-cfg/src/block_table.rs:719-772 | a path of at most the given depth over blocks that are no entries, heads, merge targets or absorbed and have at most one predecessor, linked by fall or jump, without duplicates, and as long as possible |
| Superblock.PlanHead | crates/rvr-cfg/src/block_table.rs:661-678 | one more head keeps chains disjoint from each other and from all heads, and every chain as long as it could be |
| Superblock.CollectSuperblockChains | crates/rvr-cfg/src/block_table.rs:623-682 | disjoint chains, no head in any of them, every eligible block a head or absorbed, and a taken path inlined wherever it may be |
| Superblock.ApplyChain | crates/rvr-cfg/src/block_table.rs:774-791 | the chain's blocks are appended to the head in order and redirected to it; nothing else changes |
| Superblock.ApplySuperblockChains | crates/rvr-cfg/src/block_table.rs:774-791 | the same for all heads in any order |
| Superblock.OnlyEntry | crates/rvr-cfg/src/block_table.rs:719-772 | all recorded edges into a member come from the block before it if and only if one does or there is none; the single-predecessor test alone does not give this |
| Superblock.SafeSuperblocks | crates/rvr-cfg/src/block_table.rs:572-791 | safe superblocks keep the layout faithful, whether blocks were visited or not |
| Superblock.SuperblocksExact | crates/rvr-cfg/src/block_table.rs:572-791 | superblocks keep the layout faithful if and only if recorded edges enter members from the block before only and not by a taken branch, and none leads from a member to its continuations |
| Superblock.VisitedSuperblocks | crates/rvr-cfg/src/block_table.rs:719-772 | over visited blocks that is: no head branches to its own fall-through and no member owns continuations |
| Kept.SuperblocksKeepRuns | crates/rvr-cfg/src/block_table.rs:572-791 | superblock formation keeps every recorded run if and only if what recorded runs reach is right and every block function has its slot; safe formation makes it right, and over visited blocks only safe formation does |
| Stages.UntangledAfter | crates/rvr-cfg/src/block_table.rs:794-814 | what tail duplication leaves is what superblock formation relies on, safe or not |
| TakenInline.MaybeInlineTakenPath | crates/rvr-cfg/src/block_table.rs:684-717 | a range is returned if and only if the target is a small non-entry block with one predecessor that is neither absorbed nor a merge target and does not end in a branch; it is that block's range |
| TakenInline.InlineOne | crates/rvr-cfg/src/block_table.rs:650-659 | the chosen inlinings stay those of branches that may have them, and all such branches seen so far have one |
| Inlined.StepErases | crates/rvr-emit/src/c/project.rs:297-363 | where the branch decision at hand is served, by a target that a call would run and a fall-through that leads where the inlined body falls out, a step with inlining is a step without |
| Inlined.InlinedSame | crates/rvr-emit/src/c/project.rs:297-363 | where all inlined branches are served, whole runs with inlining execute the same instructions with the same states |
| Inlined.InlinedExact | crates/rvr-emit/src/c/project.rs:297-363 | inlining changes no run of any machine from any place if and only if every inlined branch is served |
| Inlined.InlinedTrace | crates/rvr-emit/src/c/project.rs:297-363 | recorded runs with inlining execute the same instructions with the same states as without, as long as each recorded step with inlining is one without |
| Inlined.LiveErases | crates/rvr-emit/src/c/project.rs:297-363 | where the inlined branches that recorded runs reach lead right, into the target and out of it, a recorded step with inlining is a step without |
| Inlined.LiveInlinedRun | crates/rvr-emit/src/c/project.rs:297-363 | then, if what else those runs reach is right and block functions have their slots, a recorded run with inlining stays the same if and only if its computed jumps off the code find traps |
| InlinedLive.OutRight | crates/rvr-emit/src/c/project.rs:297-363 | if every recorded run stays the same, falling out of an inlined body that such a run reaches leads where the code falls through to |
| InlinedLive.SameInlinedRunsExact | crates/rvr-emit/src/c/project.rs:297-363 | an emission of the code's instructions with inlined paths keeps every recorded run of every machine if and only if what such runs reach is right, inlined branches included, and every block function has its slot |
| InlinedLive.InlinedRunsExact | crates/rvr-emit/src/c/project.rs:297-363 | the same for the lifted chains of any layout |
| InlinedRuns.TargetSurvives | crates/rvr-cfg/src/block_table.rs:623-717 | the target of a chosen branch is not absorbed by a safe superblock if the branch is recorded |
| InlinedRuns.AllServed | crates/rvr-cfg/src/block_table.rs:623-717 | after safe superblock formation every chosen branch is served as far as recorded runs go |
| InlinedRuns.OptimizeKeepsInlinedRuns | crates/rvr-cfg/src/block_table.rs:794-814 | from an entry point, a recorded run stays the same through the optimized block functions with their taken paths inlined if and only if its computed jumps off the code find traps, if block functions have their slots and either the passes were safe or what recorded runs reach is right |
| InlinedRuns.OptimizeInlinedExact | crates/rvr-cfg/src/block_table.rs:794-887 | all passes, the repair and the inlined paths, safe or not: every recorded run is kept if and only if what recorded runs reach in the repaired tables is right, inlined branches included, and every block function has its slot; safe passes over an analysed table make it right |
| Stale.FollowStale | crates/rvr-cfg/src/block_table.rs:836-861 | the remaining block the redirections lead to, or none exactly if the chain is broken or comes back |
| Stale.CollectStale | crates/rvr-cfg/src/block_table.rs:829-861 | for every order, each redirection to a missing block is either updated to where its chain leads or dropped |
| Stale.ReachesOne | crates/rvr-cfg/src/block_table.rs:843-855 | a chain of redirections leads to one remaining block only |
| Stale.MoveRange | crates/rvr-cfg/src/block_table.rs:867-880 | the first range at the address in some owner's list moves to the end of the target's list; without one nothing changes |
| Stale.MoveConserves | crates/rvr-cfg/src/block_table.rs:867-880 | moving conserves the multiset of continuation ranges |
| Stale.ApplyUpdates | crates/rvr-cfg/src/block_table.rs:863-881 | each update redirects its address and moves its range; the ranges are conserved |
| Stale.RemoveAll | crates/rvr-cfg/src/block_table.rs:883-886 | exactly the broken redirections go |
| Stale.RepairTables | crates/rvr-cfg/src/block_table.rs:821-887 | every redirection ends at the remaining block it leads to or is dropped, the ranges are conserved, and tables without stale redirections stay as they are |
| Stale.RepairedTargets | crates/rvr-cfg/src/block_table.rs:821-887 | repaired redirections are among the old ones and lead to remaining blocks |
| BlockTables.MergeTables | crates/rvr-cfg/src/block_table.rs:278-363 | merging as a function of the tables: a greedy choice and the chains of its heads |
| BlockTables.DuplicateTables | crates/rvr-cfg/src/block_table.rs:400-458 | tail duplication as a function of the tables |
| BlockTables.SuperblockTables | crates/rvr-cfg/src/block_table.rs:572-621 | superblock formation as a function of the tables |
| BlockTables.BlockTable.FromLeaders | crates/rvr-cfg/src/block_table.rs:94-115 | a fresh table of the blocks of the leaders, without redirections, continuations or inlinings |
| BlockTables.BlockTable.MergeBlocks | crates/rvr-cfg/src/block_table.rs:278-363 | the table becomes that of the maximal chains; returns the number of blocks that went |
| BlockTables.BlockTable.TailDuplicate | crates/rvr-cfg/src/block_table.rs:400-458 | the candidates are copied to their receivers and go; returns how many |
| BlockTables.BlockTable.FormSuperblocks | crates/rvr-cfg/src/block_table.rs:572-621 | heads have absorbed their planned chains, taken as far as possible, and the chosen inlinings are added |
| BlockTables.BlockTable.FixStaleMappings | crates/rvr-cfg/src/block_table.rs:821-887 | redirections are repaired and continuation ranges conserved |
| BlockTables.BlockTable.Optimize | crates/rvr-cfg/src/block_table.rs:794-814 | the four passes in order, with the default limits; the three counts and the remaining blocks add up to the blocks before |
| BlockTables.OptimizedRedirects | crates/rvr-cfg/src/block_table.rs:794-887 | after optimizing, no redirected address is a block start and every redirection leads to one, safe or not |
| BlockTables.OptimizeIsFaithful | crates/rvr-cfg/src/block_table.rs:794-814 | safe passes over a fresh table, with unvisited blocks or without, keep the layout faithful and leave nothing to repair |
| BlockTables.EntryKept | crates/rvr-cfg/src/block_table.rs:794-814 | an entry point stays a block function through all passes, safe or not |
| BlockTables.OptimizeKeepsRuns | crates/rvr-cfg/src/block_table.rs:794-814 | safe passes whose block functions have their slots: from an entry point, a recorded run of any machine stays the same through the optimized block functions if and only if its computed jumps off the code find traps |
| Kept.OptimizeExact | crates/rvr-cfg/src/block_table.rs:794-887 | all passes and the repair, safe or not, leaders aligned or not: every recorded run is kept if and only if what recorded runs reach in the repaired tables is right and every block function has its slot; safe passes over an analysed table make it right |
| Limits.SelfLoopDropped | crates/rvr-cfg/src/block_table.rs:293-302 | a table whose only block jumps to itself loses its instruction in merging |
| Limits.LostFallThrough | crates/rvr-cfg/src/block_table.rs:194-232 | blocks formed with a leader inside an instruction that lose a recorded run |
| Limits.CallSkipped | crates/rvr-cfg/src/block_table.rs:518-567 | a table that merging leaves as it is and on which tail duplication loses a recorded run: the return site of a call runs in place of the callee |
| Limits.BranchToFallThrough | crates/rvr-cfg/src/block_table.rs:741-747 | a table that merging leaves as it is and on which superblock formation loses a recorded run: a branch to its own fall-through |
| Limits.SideEntrance | crates/rvr-cfg/src/block_table.rs:741-747 | a table with an unvisited block, left as it is by merging, on which superblock formation loses a recorded run although no head branches to its own fall-through: its one recorded predecessor is another block |
| Limits.BackwardChain | crates/rvr/src/pipeline.rs:637-649 | a merged, faithful table that ends where it starts: the dispatch table is empty and the entry is not found |
| Limits.FarBlockMasked | crates/rvr-emit/src/c/header/dispatch.rs:51-57 | a faithful table that starts at a power of two and whose last block is masked to the slot of another address |
| Limits.JumpAstray | crates/rvr-emit/src/c/emitter/terminator.rs:117-123 | a table that keeps every run whose jumps off the code find traps, and a computed jump past the dispatch table that is not kept |
| Limits.SegmentsOverlap | crates/rvr-cfg/src/instruction_table.rs:166-219 | two segments of which the second starts inside the last instruction of the first: both instructions are in the table |
| Limits.LoadMisread | crates/rvr-cfg/src/analysis/mod.rs:776-777 | a load with two possible bases whose transfer misses a value it may yield |
| Values.SortedUnique | crates/rvr-cfg/src/analysis/data.rs:18-22 | a set has one sorted sequence |
| Values.CanonicalUnique | crates/rvr-cfg/src/analysis/data.rs:18-22 | canonical register values are equal if and only if they stand for the same set |
| Values.JoinLaws | crates/rvr-cfg/src/analysis/data.rs:63-117 | the join is commutative, idempotent and associative, the cap at 16 values included |
| Values.JoinLeast | crates/rvr-cfg/src/analysis/data.rs:63-117 | the join is the least upper bound |
| Values.Drain | crates/rvr-cfg/src/analysis/data.rs:97-111 | the rest of both sequences completes the sorted union, or overflows exactly when the union has more than 16 values |
| Values.UnionSorted | crates/rvr-cfg/src/analysis/data.rs:68-116 | the two-pointer loop computes the sorted union, or overflows exactly when it has more than 16 values |
| Values.MergeValues | crates/rvr-cfg/src/analysis/data.rs:63-117 | merging stays canonical and is the join |
| Values.LowerBound | crates/rvr-cfg/src/analysis/data.rs:48-50 | the position found splits the values into smaller and not smaller ones |
| Values.AddValue | crates/rvr-cfg/src/analysis/data.rs:43-61 | adding a value stays canonical and is the join with the singleton |
| Registers.BelowJoin | crates/rvr-cfg/src/analysis/data.rs:174-184 | states are below their join, and one is below the other exactly when joining it in changes nothing |
| Registers.RegisterState.constructor | crates/rvr-cfg/src/analysis/data.rs:128-132 | nothing is known but x0 |
| Registers.RegisterState.Get | crates/rvr-cfg/src/analysis/data.rs:135-145 | the value of a register, zero for x0, unknown out of range |
| Registers.RegisterState.GetRef | crates/rvr-cfg/src/analysis/data.rs:148-155 | the value of a register, that of x0 out of range |
| Registers.RegisterState.Set | crates/rvr-cfg/src/analysis/data.rs:157-164 | only the named register changes, x0 never |
| Registers.RegisterState.Merge | crates/rvr-cfg/src/analysis/data.rs:174-184 | the state becomes the join and a change is reported exactly when it strictly rose |
| Analysis.ResultSound | crates/rvr-cfg/src/analysis/mod.rs:697-805 | every word an instruction may write is in the value the transfer gives to rd |
| Analysis.ResultBest | crates/rvr-cfg/src/analysis/mod.rs:697-805 | that value is the least one that covers what the instruction may write, but for loads and for adding a register to itself |
| Analysis.TransferSound | crates/rvr-cfg/src/analysis/mod.rs:697-805 | registers within the facts stay within the transferred facts |
| Analysis.LoadExact | crates/rvr-cfg/src/analysis/mod.rs:769-791 | the transfer of a load is sound if and only if every possible base loads the constant found for the least one |
| Analysis.SuccessorsSound | crates/rvr-cfg/src/analysis/mod.rs:598-695 | every transfer to an instruction is among the successors, for an indirect jump if its base is known |
| Analysis.SuccessorsReached | crates/rvr-cfg/src/analysis/mod.rs:598-640 | conversely every successor is reached with some registers the facts allow, or is the return site of a call |
| Analysis.StepSound | crates/rvr-cfg/src/analysis/mod.rs:472-523 | at a fixpoint, one machine step follows a recorded edge and stays within the facts |
| Analysis.RunSound | crates/rvr-cfg/src/analysis/mod.rs:423-805 | on every run from a seeded address with any registers, within the analyser's limits, the registers lie in the facts of their address at every step and every transfer is recorded |
| Worklist.ShiftAll | crates/rvr-cfg/src/analysis/mod.rs:715-733 | all values shifted by the immediate, unknown beyond 16 |
| Worklist.SumAll | crates/rvr-cfg/src/analysis/mod.rs:734-762 | all sums of both operands, unknown beyond 16, whatever the loops skip |
| Worklist.LoadResult | crates/rvr-cfg/src/analysis/mod.rs:769-791 | the value of a load from read-only memory, sign- or zero-extended, or unknown |
| Worklist.Transfer | crates/rvr-cfg/src/analysis/mod.rs:697-805 | the state updated in place holds the transferred facts |
| Worklist.BinarySearchLe | crates/rvr-cfg/src/analysis/mod.rs:984-999 | the greatest entry not above the target |
| Worklist.ScanJumpTableTargets | crates/rvr-cfg/src/analysis/mod.rs:542-594 | the addresses of the instructions up to a terminator, within the limit, and the target of a closing jump |
| Worklist.KnownTargets | crates/rvr-cfg/src/analysis/mod.rs:625-639 | the decoded targets of an indirect jump with a known base, low bit cleared |
| Worklist.Guess | crates/rvr-cfg/src/analysis/mod.rs:641-679 | the heuristic targets by kind of jump; unresolved exactly if a computed jump has neither table nor internal targets |
| Worklist.GetSuccessors | crates/rvr-cfg/src/analysis/mod.rs:598-695 | the successor set of every kind of instruction, and whether the jump is unresolved |
| Fixpoint.RankOfRises | crates/rvr-cfg/src/analysis/mod.rs:434-527 | a strict rise of a state raises a rank of at most 31 * 16, the termination measure |
| Fixpoint.Visit | crates/rvr-cfg/src/analysis/mod.rs:511-523 | one successor's state becomes the join, and it is listed exactly when it rose or is new and was not waiting; no two addresses share a state |
| Fixpoint.Spread | crates/rvr-cfg/src/analysis/mod.rs:511-523 | all successors in any order: whatever rose is waiting, the waiting part of the list is free of duplicates |
| Fixpoint.RoundKeeps | crates/rvr-cfg/src/analysis/mod.rs:468-526 | a visit keeps every address that is not waiting settled: its transferred state is below those of its recorded successors |
| Fixpoint.Round | crates/rvr-cfg/src/analysis/mod.rs:488-526 | successors, transfer and spreading of one address keep that invariant, the listing bound and the unresolved set |
| Fixpoint.Seed | crates/rvr-cfg/src/analysis/mod.rs:444-458 | more start addresses are listed once each, in any order behind those listed before, knowing nothing |
| Fixpoint.Next | crates/rvr-cfg/src/analysis/mod.rs:473-526 | taking the next address off the list, with or without an instruction, keeps the invariant |
| Fixpoint.ListBound | crates/rvr-cfg/src/analysis/mod.rs:434-527 | the list never has more than 1 + 31 * 16 entries per address |
| Fixpoint.Exhausted | crates/rvr-cfg/src/analysis/mod.rs:468-527 | with nothing waiting, facts and edges are a post-fixpoint |
| Fixpoint.RunWorklist | crates/rvr-cfg/src/analysis/mod.rs:423-527 | the loop ends; no address is visited more than 1 + 31 * 16 times, and all together at most once more than the cap, saturated at the machine word; exhausted, facts and successors are a post-fixpoint and the unresolved jumps are exactly those without known targets; a large enough cap is never met |
| Graph.ComputeLeaders | crates/rvr-cfg/src/analysis/mod.rs:807-839 | exactly the target sets, the targets of control flow and the instructions after it, in any order |
| Graph.LeadersCoverEdges | crates/rvr-cfg/src/analysis/mod.rs:807-839 | every recorded edge leads to a leader or to the instruction after an ordinary one |
| Graph.StaticEdgesRecorded | crates/rvr-cfg/src/analysis/mod.rs:598-695 | the static successors of every visited instruction are recorded and visited |
| Graph.FoldChunk | crates/rvr-cfg/src/analysis/mod.rs:847-855 | one chunk of the fold holds exactly its reversed edges |
| Graph.MergeEdges | crates/rvr-cfg/src/analysis/mod.rs:856-861 | the reduction is the union of both maps |
| Graph.FoldAndReduce | crates/rvr-cfg/src/analysis/mod.rs:841-862 | every split into chunks and every reduction tree gives exactly the reversed edges |
| Graph.BuildPredecessors | crates/rvr-cfg/src/analysis/mod.rs:841-862 | the result is the transpose of the successor map, without empty sets |
| EndToEnd.AnalysisRecordsRuns | crates/rvr-cfg/src/analysis/mod.rs:423-805 | every transfer of a run within the analyser's limits is recorded, for every machine that runs the table's instructions |
| EndToEnd.VisitedInside | crates/rvr-cfg/src/analysis/mod.rs:468-526 | if block starts were visited, the static successors of all instructions in blocks are recorded |
| EndToEnd.AnalysisReady | crates/rvr-cfg/src/block_table.rs:94-172 | the analyser's leaders, successors and predecessors make a block table the passes can work on, blocks nobody visited included |
| EndToEnd.CompiledExact | crates/rvr-cfg/src/block_table.rs:94-172 | from the worklist's result, with any leaders and any passes: every recorded run is kept if and only if what recorded runs reach is right, inlined branches included, and every block function has its slot; with aligned leaders, safe passes make it right |
| EndToEnd.CompiledRuns | crates/rvr-cfg/src/block_table.rs:94-172 | from the worklist's result to the optimized block functions with inlined paths, entered through the dispatch table: a run from an entry point within the analyser's limits executes the same instructions with the same states if and only if its computed jumps off the code find traps, if block functions have their slots and either leaders are aligned and passes safe or what recorded runs reach is right |
| InstructionTables.InstructionTable.constructor | crates/rvr-cfg/src/instruction_table.rs:113-126 | a table of empty slots |
| InstructionTables.InstructionTable.DecodeAt | crates/rvr-cfg/src/instruction_table.rs:179-217 | the sweep moves on by one instruction: a decoded slot, a skipped one, or a four-byte instruction with its second slot cleared |
| InstructionTables.InstructionTable.DecodeSegment | crates/rvr-cfg/src/instruction_table.rs:166-219 | exactly the slots at which a sweep from the start of the segment, one instruction after the other, finds an instruction hold it, those behind a long one are empty, and all others keep their contents |
| InstructionTables.InstructionTable.PopulateSegment | crates/rvr-cfg/src/instruction_table.rs:145-161 | any segment in range is swept, others change nothing; if it starts at a slot, every instruction still lies in a segment and is decoded from its own bytes; instructions stay apart if and only if the sweep cuts into none that it leaves in place |
| InstructionTables.SweepApart | crates/rvr-cfg/src/instruction_table.rs:166-219 | instructions stay apart if and only if no long one that the sweep does not overwrite is right in front of one that it finds |
| InstructionTables.ApartStays | crates/rvr-cfg/src/instruction_table.rs:145-219 | decoding disjoint segments, in any order, keeps instructions apart |
| InstructionTables.PlaceSegment | crates/rvr-cfg/src/instruction_table.rs:145-219 | decoding one more segment that starts at a slot, wherever it lies, keeps every instruction inside a segment, decoded from its own bytes |
| InstructionTables.NoOverlap | crates/rvr-cfg/src/instruction_table.rs:166-219 | if no instruction starts inside another, no two overlap |
| InstructionTables.InstructionTable.IndexAndPc | crates/rvr-cfg/src/instruction_table.rs:283-299 | slot indices and slot-aligned addresses in range are inverse to each other, and no other address has an index |
| InstructionTables.InstructionTable.ValidPcsApart | crates/rvr-cfg/src/instruction_table.rs:303-341 | then valid instructions have size two or four and end before the next one |
| InstructionTables.InstructionTable.CodeWellFormed | crates/rvr-cfg/src/instruction_table.rs:303-341 | then code read off the table meets what block formation and the passes assume |
| Dispatch.EmitInputs.ResolveIdempotent | crates/rvr-emit/src/inputs.rs:53-61 | resolving twice is resolving once if and only if no redirection leads to another one |
| Dispatch.LiftToIr | crates/rvr/src/pipeline.rs:384-411 | every block with a non-empty body is lifted with its continuations, and nothing else |
| Dispatch.LiftedIsEmission | crates/rvr/src/pipeline.rs:384-411 | what is lifted from tables of whole blocks, whether their chains run on or not, is the emission the run theorems speak of |
| Dispatch.GenDispatch | crates/rvr-emit/src/c/dispatch.rs:82-94 | one entry per two bytes from the start of the text to its end, each the block function of its address or the trap |
| Dispatch.DispatchAgrees | crates/rvr-emit/src/c/dispatch.rs:82-94 | an entry is that of the resolved address if and only if the address is not both a block function and redirected elsewhere |
| Dispatch.SeparateDispatch | crates/rvr-emit/src/inputs.rs:53-61 | if redirections lead from non-blocks to blocks, resolution is idempotent, ends at block functions and agrees with dispatch |
| Dispatch.EmitC | crates/rvr/src/pipeline.rs:637-665 | the table generated from the lifted blocks has one entry per two bytes between the bounds computed from them, each that of its address |
| Dispatch.DispatchedFromTable | crates/rvr-emit/src/c/dispatch.rs:175 | what a run finds for an address is the generated table's entry at the computed index, and it goes astray exactly where there is none |
| Dispatch.OwnSlotFinds | crates/rvr-emit/src/c/dispatch.rs:82-94 | an address within the text that is not masked finds the block function it resolves to, or the trap |
| Dispatch.OptimizedDispatch | crates/rvr/src/pipeline.rs:662-665 | after optimizing a fresh table what is lifted is the emission of the run theorems, resolution is idempotent and ends at block functions, and with the text bounds the pipeline computes, an address with a slot of its own finds what it resolves to, or the trap |
| Ir.EvalFits | crates/rvr-ir/src/expr/mod.rs:209-356 | every value fits the register width |
| Ir.UnarySound | crates/rvr-ir/src/expr/mod.rs:401-443 | the folding unary constructors keep the value in every state at both widths |
| Ir.BinarySound | crates/rvr-ir/src/expr/mod.rs:209-356 | the folding binary constructors keep the value in every state at both widths: constants, zero identities, subtraction from zero, unsigned comparison with zero, word operations |
| Ir.RebuildSound | crates/rvr-ir/src/expr/mod.rs:517-554 | rebuilding any expression through the constructors keeps its value in every state at both widths |
| Atomics.Combine4 | crates/rvr-ir/src/expr/mod.rs:641-695 | the new value of a 32-bit atomic, signed and unsigned minimum and maximum included, is the operator on the low words |
| Atomics.Combine8 | crates/rvr-isa/src/extensions/a.rs:443-457 | the new value of a 64-bit atomic is the operator on the words |
| Atomics.RunCore | crates/rvr-isa/src/extensions/a.rs:493-510 | the statements after operands are saved read memory once, write the sign-extended old value to rd, the new one to memory and drop the reservation |
| Atomics.AmoIsAtomic | crates/rvr-isa/src/extensions/a.rs:439-511 | every lifted atomic is the read-modify-write of section 8.4, for all register values and all aliasings of rd, rs1 and rs2, x0 included |
| Reservation.LrReserves | crates/rvr-isa/src/extensions/a.rs:401-415 | a load-reserved loads, sign-extended, and reserves the address rs1 held before rd was written |
| Reservation.ScMeans | crates/rvr-isa/src/extensions/a.rs:417-437 | a store-conditional stores and yields 0 if the reservation holds its address, otherwise leaves memory and yields 1, and drops the reservation |
| Reservation.StoreClears | crates/rvr-isa/src/extensions/base/lift.rs:241-256 | an ordinary store drops the reservation and writes no register |
| Reservation.ReservedThroughout | crates/rvr-isa/src/extensions/a.rs:401-437 | at every point of a run the reservation is that of the latest instruction that touched it |
| Reservation.ScExact | crates/rvr-isa/src/extensions/a.rs:401-437 | in every run from a state without reservation, a store-conditional succeeds if and only if the latest instruction that touched the reservation is a load-reserved of the same address |
| Rotates.ShiftsRotate | crates/rvr-isa/src/extensions/zbb.rs:449-478 | two shifts joined by an or are a rotation, shift amounts of zero included |
| Rotates.RolIsRotation | crates/rvr-isa/src/extensions/zbb.rs:449-478 | rol rotates left by rs2 modulo the width, at both widths, for all registers |
| Rotates.RorIsRotation | crates/rvr-isa/src/extensions/zbb.rs:480-509 | ror rotates right by rs2 modulo the width |
| Rotates.RoriIsRotation | crates/rvr-isa/src/extensions/zbb.rs:511-539 | rori rotates right by the immediate |
| Rotates.RolwIsRotation | crates/rvr-isa/src/extensions/zbb.rs:541-572 | rolw rotates the low word left by rs2 modulo 32 and sign-extends |
| Rotates.RorwIsRotation | crates/rvr-isa/src/extensions/zbb.rs:574-604 | rorw rotates the low word right by rs2 modulo 32 and sign-extends |
| Rotates.RoriwIsRotation | crates/rvr-isa/src/extensions/zbb.rs:606-633 | roriw rotates the low word right by the immediate and sign-extends |
| Rotates.RotatedBit | crates/rvr-isa/src/extensions/zbb.rs:449-478 | rotation moves bit i to bit i + n taken round, the definition of rotation bit by bit |
| LogicalImm.RotatedIsRotation | crates/rvr-emit/src/arm64/emitter.rs:804-808 | the masked shifts of the test are a rotation within the element |
| LogicalImm.RotationTest | crates/rvr-emit/src/arm64/emitter.rs:803-811 | x & (x + 1) is zero exactly when that rotation brings the ones to the bottom |
| LogicalImm.IsRotatedMask | crates/rvr-emit/src/arm64/emitter.rs:790-814 | true if and only if the element is a rotated run of at least one and not only ones |
| LogicalImm.Replicate | crates/rvr-emit/src/arm64/emitter.rs:774-780 | the loop fills the register width with copies of the element |
| LogicalImm.RepeatsIff | crates/rvr-emit/src/arm64/emitter.rs:774-784 | a value repeats a rotated run if and only if its lowest element is one and the value is its replication |
| LogicalImm.IsLogicalImm | crates/rvr-emit/src/arm64/emitter.rs:748-788 | true if and only if the value repeats a power-of-two-sized element that is a rotation of k ones, 0 < k < size |

## Left out

- The linear scan for potential targets, call-return maps and code pointers before the worklist (crates/rvr-cfg/src/analysis/mod.rs:136-421, 864-937): a heuristic; its result sets are arbitrary inputs of the analysis here.
- Completeness of the guessed successors of unresolved jumps: a guess by design; runs through such jumps are outside the analyser's limits.
- Analysis.RunSound: does not cover RV32, because immediates are extended to 64 bits there, too; words are 64 bits.
- Analysis.ResultBest: does not cover loads, whose exact condition is LoadExact, nor adding a register to itself.
- Values.AddValue: does not update in place; register values are values, and the states that hold them are updated in place.
- Exact.FaithfulExact: does not cover unvisited blocks, for which the condition is that of RunsExact; VisitedInside proves visited blocks to have their static successors recorded.
- EndToEnd.CompiledRuns: does not prove the agreement of decoded kinds and lifted terminators, because the base and compressed lifters are not part of this model.
- InstructionTables.InstructionTable.PopulateSegment: does not place instructions of a segment that starts between slots at their own addresses, because the code puts them into the slot before.
- Text.SlotExact: does not wrap a negative difference round to the top of the address space; it counts as an index without a slot, and so does every index past the table, where the emitted program reads whatever lies there.
- Classification of decoded instructions (crates/rvr-cfg/src/analysis/data.rs:216-369) and the decoders: parameters.
- Computed jumps with a list of resolved targets in the lifted terminator are treated like other computed jumps.
- Instruction counting, suspension, tracing and exit codes of the emitted C: no influence on which instruction runs next, or easy.
- The assembly backends, which do not share the block functions modelled here; linear and single-block modes; address-mode checks and register caches.
- Ir.EvalFits: leaves shifts by the register width or more, and operators without folding, to an arbitrary function of their operands.
- CSR, base integer, compressed, single-bit and other bit-manipulation lifts: they would only add easy members.
- ELF and debug information, memory mapping, text generation, tracers, benchmarks, the command line and the runtime crate: input, output and formatting.
