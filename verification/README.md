# The packet-filter optimizer and its neighbours, verified

A Dafny model of the hard parts of libpcap as it is bundled here: the optimizer for compiled packet filters and the
code generator behind it, and four smaller pieces that carry a protocol or an arithmetic promise of their own.

A filter is an acyclic graph of basic blocks. Each block runs statements on an accumulator A, an index register X and
sixteen words of scratch memory, and then returns or compares and branches. The optimizer analyses the graph
(levels, dominators, edge dominators, liveness, value numbers), rewrites statements, moves and merges branches, and
the back end flattens the graph into an array of instructions with eight-bit jump offsets. The promise of every one
of these passes is the same: the filter's answer does not change for any packet. That is what is proved, pass by
pass, together with what the analyses the passes rely on mean in terms of paths and runs.

| file | what it models |
|---|---|
| Machine, Flow | the machine, blocks, graphs, `Walk`: the answer of a graph for a packet and a start state |
| Emit | flattening into instructions, long jumps, the retry loop |
| Intern | merging equal blocks |
| Dominance, BitSets, Layout, Analysis | levels, dominators, closure and edge dominators, as path properties and as bit sets |
| Liveness, Rewrite, DeadStores | use and definition sets, live registers, replacing a block, dead stores |
| Values, StmtPass | value numbers, the rewriting of statements and of statement lists |
| Words, Numerals, PeepRules, Peephole | word arithmetic and the numbers words stand for, peephole rules, the comparison at the end of a block |
| BlockPass, Trails, ValuePass, Local | the whole treatment of a block and of all blocks, the blocks a packet passes, block-local graphs |
| Altering, AlteredGraphs | the pass that rewrites statements: when it keeps every answer, a graph it gets right and one it gets wrong |
| BranchMove, Pullup | moving branches, pulling tests up |
| SweepFacts, Pass, Misfolds | passes from start to end, when branch movement is right, and graphs it gets wrong |
| AirpcapLoader, AirpcapRead | one-time library loading by any number of threads; packet delivery over several calls |
| Utf8, NumberScan | truncating UTF-16 to UTF-8 conversion; scanning numbers |

Conventions. Blocks live in a sequence and pointers to them are indices, NIL being the null pointer. `Ranked(g, rank)`
is a witness that the graph has no cycle; `Walk` does not depend on which witness is taken (`Flow.WalkAnyRank`).
`Reach` is what the root reaches. `Route` is `Walk` for block-local graphs, in which every block defines what it uses;
that is the form in which filters come out of the code generator, and the setting for branch movement. Words are
32-bit vectors; `Numerals` says what each operation and comparison does to the numbers they stand for. `Pass.RewriteOf` is one pass with do_stmts 1, on any acyclic
graph: the analyses and opt_blk on every block (numbering, rewriting of statements, peephole rewriting, dead stores, the
number of the rewritten branch's operand). `Pass.MoveBranchesOf` is one pass with do_stmts 0 up to the pull-ups: the
same without rewriting of statements, then the sweep over the edges. `Pass.PullUpTo`, `Emit.Flatten` and
`Intern.MergeEqual` likewise take any acyclic graph.

Neither pass keeps every answer; for each the model has graphs that show it and says when answers are kept.

Rewriting statements. A block is rewritten knowing what is live out of it before any block is rewritten. But a block
after it may come to use a register it did not use before: a load or store is deleted where the register already has
the number of what it would get, and the block that gave it that number may in turn have lost the definition as dead
(`AlteredGraphs.RewriteStoring`, `AlteredGraphs.StoringFails`). `ValuePass.Spared` is the condition: every block keeps
what is live out of it in the finished graph. That is, the last definition of each such register survives dead-store
removal, the branch takes over no statement that computes an A among them, and no X among them is lost after an indexed
load. Then, if no unknown number is handed to the table, a packet passes the same blocks in both graphs if and only if
it passes none that the all-bits rule misjudges, and so has the same answer (`ValuePass.FinishedTrail`,
`Pass.RewriteOf`). Two blocks that share one `ldxb` meet the condition (`AlteredGraphs.RewriteSharing`).
`Altering.Separate` is a condition on the graph alone that implies all this, for every packet: no block hands an unknown
number to the table, can have a statement taken over, tests all bits between two successors or uses X after an indexed
load that could be lent a constant; and what a block defines, apart from A and what is live out of it, no block after it
mentions (`Altering.SeparateKept`).

Moving branches. Numbers and edge dominators describe the graph before its blocks are finished, and finishing makes a
branch take over a subtraction (it then compares something else than its number says) or a mask (its two edges are then
exchanged). `Misfolds` has a graph and a packet for each. `Pass.KeptFor` is the condition for one packet: every
reachable block defines what it uses and loses no X that it uses after an indexed load; the packet passes no block that
the all-bits rule misjudges; and wherever it passes two blocks that fold_edge compares, what fold_edge concludes from
the first about the second is true of it, and the first has not exchanged its edges. Where that conclusion is one of two
tests for equality with the same operand, `SweepFacts.AgreesExactly` says when it is true, as an if-and-only-if: the
blocks have taken over the same, or the operand is neither what the one nor what the other compares. `Pass.KeptAll` is a
condition on the graph alone: of two blocks, one after the other, that leave the same in A for every packet, both take
over the same, and not the one a mask while the other tests bits; and none tests all bits between two successors.

Other places where the code does not do what one would expect of it are part of the model, each with an input that
shows it:

- The peephole rule that takes a test of all 32 bits for always true is right exactly unless the word is zero and the
  successors differ (`Peephole.FoldMaskKeeps`, `Peephole.OptPeep`, `Peephole.AllOnesFails`).
- The constant-index rule is right exactly if X is not needed later in the block or the constant is zero
  (`PeepRules.CollapseExact`, `Peephole.LateUseFails`).
- Value numbering is right if no unknown number is handed to the table (`ValuePass.NumberGraph`); the number 0 stands
  for several values, and two loads indexed by unknown words are taken for one (`StmtPass.UnknownIndex`,
  `StmtPass.UnknownIndexFails`).
- The two constants of the four-byte branch of the UTF-8 encoder (`Utf8.EmittedIsEncoding`, `Utf8.FitsExactly`,
  `Utf8.OutputDecodes`, `Utf8.BeyondPlane15`, `Utf8.OverrunByOne`).
- A leading half of a surrogate pair that is not followed by its other half takes the unit after it with it
  (`Utf8.LoneHalf`).
- A capture call that has just filled its buffer, and finds before the first delivery that someone has asked to break
  the loop, loses what it has read (`AirpcapRead.Capture.Read`).

## Model

| member | source | states |
|---|---|---|
| Machine.RunKept | submodules/libpcap/optimize.c:2429-2438 | deleted statements have no effect: a list and the list without them take every state to the same state |
| Machine.Slength | submodules/libpcap/optimize.c:2429-2438 | the count is the length of the list without its deleted statements |
| Flow.WalkAnyRank | submodules/libpcap/optimize.c:377-403 | the meaning of a graph does not depend on the witness of its acyclicity |
| Emit.PostOrderClosed | submodules/libpcap/optimize.c:2684-2706 | the emission order is duplicate-free, puts successors before predecessors, and has exactly the reachable blocks |
| Emit.DistMonotone | submodules/libpcap/optimize.c:2813-2848 | raising long-jump flags never shortens a distance, so a branch once too long stays too long |
| Emit.RaiseKeepsJustified | submodules/libpcap/optimize.c:2813-2848 | after a failed try every reserved long jump is still one that is needed |
| Emit.FlagsShrink | submodules/libpcap/optimize.c:2890-2909 | every failed try raises a flag, at most two per block, so the number of clear flags falls and the tries end |
| Emit.TailIsSizeSum | submodules/libpcap/optimize.c:2498-2508 | blocks laid end to end take exactly the sum of their sizes |
| Emit.LaidCovers | submodules/libpcap/optimize.c:2702-2706 | every cell of the emitted array belongs to a block |
| Emit.LaidDisjoint | submodules/libpcap/optimize.c:2702-2706 | no two blocks share a cell |
| Emit.BlockStep | submodules/libpcap/optimize.c:2702-2849 | running one block's code, long jumps included, arrives at the successor the block chooses, in the state its statements leave |
| Emit.CodeMeansWalk | submodules/libpcap/optimize.c:2684-2850 | running the array from a block's offset gives what walking the graph from that block gives, for every packet and state |
| Emit.Converter.CountStmts | submodules/libpcap/optimize.c:2498-2508 | the count over marks is the total size of the newly marked blocks, long jumps included |
| Emit.Converter.EmitStmts | submodules/libpcap/optimize.c:2725-2803 | a block's kept statements are written in order and no other cell changes |
| Emit.Converter.EmitBranch | submodules/libpcap/optimize.c:2811-2849 | on success the branch and its jumps reach both successors with offsets under 256; on failure exactly one flag is raised, for a distance of 256 or more |
| Emit.Converter.EmitBlock | submodules/libpcap/optimize.c:2684-2850 | one more block is laid below those already laid, none of which is damaged |
| Emit.Converter.ConvertCodeR | submodules/libpcap/optimize.c:2684-2850 | lays exactly the post-order of the unmarked reachable blocks, or raises one justified flag |
| Emit.Converter.constructor | submodules/libpcap/gencode.c:605-642 | blocks come zeroed, so no jump is reserved at the start |
| Emit.Converter.Prepare | submodules/libpcap/optimize.c:2890-2903 | the array is as long as the reachable blocks are with the current flags |
| Emit.Converter.TryConvert | submodules/libpcap/optimize.c:2890-2909 | one try fills exactly the array count_stmts asked for, or raises one justified flag |
| Emit.Converter.IcodeToFcode | submodules/libpcap/optimize.c:2871-2912 | terminates; the array run from index 0 gives the graph's answer for every packet and state, the root is at 0, the blocks tile it, and every long jump is needed if those reserved at the start were |
| Emit.Flatten | submodules/libpcap/optimize.c:2871-2912 | from any acyclic graph and with no jump reserved at the start: terminates, the array gives the graph's answers, its blocks tile it, its length is the size of the reachable blocks, and every long jump in it is needed |
| Intern.EqSlist | submodules/libpcap/optimize.c:2323-2340 | two lists compare equal exactly if they keep the same statements |
| Intern.EqBlk | submodules/libpcap/optimize.c:2342-2351 | two blocks compare equal exactly if branch, successors and kept statements are the same |
| Intern.RedirectedWalk | submodules/libpcap/optimize.c:2380-2392 | redirecting edges to equal blocks changes no answer, from any block |
| Intern.RedirectedLeveled | submodules/libpcap/optimize.c:2380-2392 | redirecting keeps every level, hence acyclicity |
| Intern.SuccSumRaised | submodules/libpcap/optimize.c:2353-2395 | every redirection raises the sum of successor indices |
| Intern.SuccSumBound | submodules/libpcap/optimize.c:2353-2395 | that sum is bounded, so the rounds end |
| Intern.RootIsUnique | submodules/libpcap/optimize.c:2353-2395 | no reachable block equals the root, so the root needs no redirecting |
| Intern.AllUnique | submodules/libpcap/optimize.c:2353-2395 | when a round changes nothing, no two distinct reachable blocks are equal |
| Intern.Interner.MakeMarks | submodules/libpcap/optimize.c:2296-2321 | marks exactly what a block reaches |
| Intern.Interner.FindLinks | submodules/libpcap/optimize.c:2361-2379 | every live block with an equal live block after it is linked to such a block, only live blocks are linked, and only to live ones |
| Intern.Interner.Redirect | submodules/libpcap/optimize.c:2380-2392 | edges to linked blocks lead to their links; reports done exactly if nothing moved |
| Intern.Interner.Round | submodules/libpcap/optimize.c:2358-2395 | one round keeps every answer and raises the sum unless it is the last |
| Intern.Interner.InternBlocks | submodules/libpcap/optimize.c:2353-2395 | terminates, keeps every answer from every block, and leaves no two distinct reachable blocks equal |
| Intern.LevelsExist | submodules/libpcap/optimize.c:377-403 | every acyclic graph has levels |
| Intern.MergeEqual | submodules/libpcap/optimize.c:2353-2395 | merging the equal blocks of any acyclic graph keeps every answer from every block and leaves no two distinct reachable blocks equal |
| Dominance.DominatesStep | submodules/libpcap/optimize.c:417-453 | the path definition of dominance satisfies the equation the sweep computes, in both directions |
| Dominance.EdgeDominatesStep | submodules/libpcap/optimize.c:455-495 | the path definition of edge dominance satisfies the equation the sweep computes, in both directions |
| Dominance.ReachesFromStep | submodules/libpcap/optimize.c:504-526 | the same for backward closure |
| Dominance.UnreachableDominators | submodules/libpcap/optimize.c:417-453 | every block dominates an unreachable one, as the initial full sets say |
| BitSets.Family.Member | submodules/libpcap/optimize.c:275-279 | testing a bit is set membership |
| BitSets.Family.Insert | submodules/libpcap/optimize.c:281-285 | setting a bit adds one element to one row and changes no other row |
| BitSets.Family.Intersect | submodules/libpcap/optimize.c:293-302 | and-ing words row by row is set intersection |
| BitSets.Family.Union | submodules/libpcap/optimize.c:315-324 | or-ing words row by row is set union |
| BitSets.Family.Reset | submodules/libpcap/optimize.c:425-441 | fills or empties every row but the listed ones |
| Layout.TimesExact | submodules/libpcap/optimize.c:2565-2606 | multiplying in a machine word and dividing back detects exactly the products that do not fit |
| Layout.ComputeSizes | submodules/libpcap/optimize.c:2539-2614 | the sizes are rejected exactly if one of them, computed without wrapping, does not fit in 32 bits or in size_t; otherwise they are the true sizes |
| Layout.Carve | submodules/libpcap/optimize.c:2617-2646 | the sets of all blocks and edges tile the allocation exactly and have a bit for every block and edge number |
| Layout.TiledDisjoint | submodules/libpcap/optimize.c:2621-2640 | slices that tile the allocation are pairwise disjoint and within it |
| Layout.TiledCovers | submodules/libpcap/optimize.c:2621-2640 | every word of the allocation belongs to a slice |
| Analysis.LevelBound | submodules/libpcap/optimize.c:2553-2559 | a block's level is below the number of blocks it reaches, so the level array is large enough |
| Analysis.FlowState.FindLevelsR | submodules/libpcap/optimize.c:377-403 | levels exactly the blocks reachable and not yet marked; a level is one more than the larger successor level |
| Analysis.FlowState.FindLevels | submodules/libpcap/optimize.c:405-415 | each level's list has exactly the reachable blocks of that level, once each |
| Analysis.FlowState.FindDom | submodules/libpcap/optimize.c:417-453 | a is in the set of c exactly if every path from the root to c passes a |
| Analysis.FlowState.FindClosure | submodules/libpcap/optimize.c:504-526 | b is in the set of c exactly if b is reachable and reaches c |
| Analysis.FlowState.Propedom | submodules/libpcap/optimize.c:455-463 | one propagation step intersects the rows of both edges of the target |
| Analysis.FlowState.FindEdom | submodules/libpcap/optimize.c:469-495 | e is in the set of f exactly if every path of edges from the root that ends with f uses e |
| Analysis.FlowState.LinkInedges | submodules/libpcap/optimize.c:2126-2131 | both edges of a block join their targets' lists |
| Analysis.FlowState.FindInedges | submodules/libpcap/optimize.c:2133-2153 | each block's list has exactly the edges from reachable blocks that lead to it, once each |
| Liveness.UsesSuffice | submodules/libpcap/optimize.c:537-583 | what a statement writes depends only on the registers atomuse reports |
| Liveness.UsesExact | submodules/libpcap/optimize.c:537-583 | a register is reported as used exactly if, for some constant, packet and state, what the statement writes depends on it |
| Liveness.BranchUsesSuffice | submodules/libpcap/optimize.c:537-583 | where a branch goes depends only on the registers atomuse reports |
| Liveness.BranchUsesExact | submodules/libpcap/optimize.c:537-583 | a register is reported as used by a comparison exactly if, for some constant and state, where it goes depends on it |
| Liveness.ComputeLocalUd | submodules/libpcap/optimize.c:622-678 | the three sets are the registers used before defined, defined, and defined before used |
| Liveness.KillOrDef | submodules/libpcap/optimize.c:622-706 | subtracting the killed or the defined registers comes to the same once the used ones are added |
| Liveness.LivenessSound | submodules/libpcap/optimize.c:683-706 | states that agree on the live-in registers of a block give the same answer from it |
| Liveness.FindUd | submodules/libpcap/optimize.c:683-706 | the sweep solves the liveness equations exactly for every reachable block |
| Rewrite.ReplaceSound | submodules/libpcap/optimize.c:1478-1580 | replacing a block by one that goes the same way and keeps the live registers, in the state in which the packet arrives, changes no answer |
| DeadStores.DeadRemovedRun | submodules/libpcap/optimize.c:1425-1475 | deleting dead statements keeps, after every statement, every register that is still needed |
| DeadStores.DeadRemovedAgrees | submodules/libpcap/optimize.c:1425-1475 | a block without its dead stores goes the same way and keeps the registers live on exit |
| DeadStores.DeadStmt | submodules/libpcap/optimize.c:1425-1451 | the table holds the last unused definition of each register, and a definition overwritten unused is deleted |
| DeadStores.OptDeadstores | submodules/libpcap/optimize.c:1453-1475 | deletes exactly the statements whose result is needed neither in the block nor on exit |
| DeadStores.DeadStoresSound | submodules/libpcap/optimize.c:1453-1475 | removing the dead stores of any block changes no answer, from any start block and state |
| DeadStores.DeadRemovedFor | submodules/libpcap/optimize.c:1425-1475 | if the last, unused definition of every register of a set is one of a register kept anyway, exactly the same statements are dead as if the whole set were live on exit |
| Values.ConstInjective | submodules/libpcap/optimize.c:725-765 | two constants have the same value number exactly if they are equal |
| Values.DenGrows | submodules/libpcap/optimize.c:725-765 | a value number keeps its meaning when the table grows |
| Values.StoreSound | submodules/libpcap/optimize.c:767-774 | a store of the value the register already has may be deleted |
| Values.ValueTable.InitVal | submodules/libpcap/optimize.c:707-714 | an empty table, with no constants known |
| Values.ValueTable.F | submodules/libpcap/optimize.c:725-765 | returns the number of the expression, its old one if there is one; known constants and hash chains stay right |
| Values.ValueTable.FoldConst | submodules/libpcap/optimize.c:780-871 | an operation on constants becomes a load of the word it computes, said of the numbers or bits of the operands, and is numbered as that constant |
| Values.ValueTable.OptIndConst | submodules/libpcap/optimize.c:1201-1218 | an indexed load with known index becomes an absolute one that reads the same |
| Values.ValueTable.OptNeg | submodules/libpcap/optimize.c:1240-1264 | negating a constant folds, and otherwise the result is numbered as the negation of what A holds |
| Values.ValueTable.OptAluK | submodules/libpcap/optimize.c:1266-1315 | operations with a constant: with the constant zero, those that leave A alone are deleted and those that give zero become a load of zero; constants are folded; fails exactly on division or modulus by zero; the result is numbered as what is computed |
| Values.ValueTable.OptAluX | submodules/libpcap/optimize.c:1317-1377 | operations with X: a known X becomes a constant; on a zero A, those that give X become a move and those that give zero are deleted; fails exactly on folding a division by zero and on a constant shift above 31; the result is numbered as what is computed |
| Values.ValueTable.OptMove | submodules/libpcap/optimize.c:1379-1421 | moves between registers and memory pass value numbers on and load known constants directly |
| Values.ValueTable.OptStmt | submodules/libpcap/optimize.c:1186-1423 | in every state the numbers describe, the new statement does what the old one does and the new numbers describe the outcome; an operation on constants becomes one that leaves the word computed; operations with zero are simplified; the register written gets the number of the expression the new statement computes; rejects exactly division or modulus by zero and shifts of 32 or more |
| Values.FoldingExact | submodules/libpcap/optimize.c:780-871 | the word an operation on constants is folded to is the one its sum, difference, product, quotient, remainder, shift or combination of bits has, and no other |
| Values.ZeroOperators | submodules/libpcap/optimize.c:1280-1305 | the operators taken to leave A alone, or to give zero, with the constant zero are exactly those that do for every A, but for subtraction, and division by zero; likewise for a zero A and every X |
| Numerals.AluExact | submodules/libpcap/optimize.c:788-862 | a word is the result of an operation exactly if its number is the sum, difference, product, quotient, remainder or shift modulo 2^32 of the operands' numbers, or its bits are the combination of theirs |
| Numerals.CompareExact | submodules/libpcap/optimize.c:1138-1164 | comparisons are those of the numbers, and a test of bits succeeds exactly if some bit is set in both |
| Numerals.NumberNegate | submodules/libpcap/optimize.c:1240-1264 | negation is subtraction from zero modulo 2^32 |
| Numerals.NumberHeader | submodules/libpcap/bpf_image.c:209-212 | a header length is four times the low four bits |
| Numerals.NumberIndexed | submodules/libpcap/optimize.c:1020-1020 | the offset a constant is added to is the sum modulo 2^32 |
| StmtPass.OptStmts | submodules/libpcap/optimize.c:1527-1528 | a list that hands no unknown number to the table is rewritten to one with the same effect on every state the numbers describe, and leaves exactly the registers known that follow from what was known; arithmetic at its end leaves no constant in A; of each statement it is recorded that constants and zeros are made use of in it, and how its result is numbered; refused exactly if a statement is: one that divides by zero, or shifts by a constant X of 32 or more |
| StmtPass.TracedNarrower | submodules/libpcap/optimize.c:1186-1423 | the rewritten list defines and uses only what the list does, each statement becoming simpler or deleted |
| StmtPass.ExposedSuffice | submodules/libpcap/optimize.c:1527-1528 | if what a list uses before defining it is known, it hands no unknown number to the table and leaves all it defines known |
| StmtPass.UnknownIndex | submodules/libpcap/optimize.c:1201-1218 | of two loads indexed by two unknown words, the second gets the number of the first and is deleted |
| StmtPass.UnknownIndexFails | submodules/libpcap/optimize.c:1201-1218 | a packet and a state for which that list leaves another value in A |
| ValuePass.MergeVals | submodules/libpcap/optimize.c:1496-1524 | a register keeps its number on entry exactly if all predecessors give it the same number |
| ValuePass.PathDescribed | submodules/libpcap/optimize.c:1496-1528 | along every path from the root, for every packet and start state, the merged numbers describe the state on entry, the exit numbers the state a block leaves, and the numbered graph computes the same states |
| ValuePass.TableSuffices | submodules/libpcap/optimize.c:2647-2655 | three numbers per statement are more than any pass hands out |
| ValuePass.MaxStmts | submodules/libpcap/optimize.c:2647-2649 | counts statements and branches of the whole graph |
| ValuePass.LocalKnown | submodules/libpcap/optimize.c:1496-1528 | where every block defines what it uses, no unknown number is handed to the table |
| ValuePass.NumberedWalk | submodules/libpcap/optimize.c:2076-2088 | if no unknown number is handed to the table, the graph with all blocks numbered gives the same answers |
| ValuePass.NumberGraph | submodules/libpcap/optimize.c:2076-2104 | treats every reachable block in level order without running out of table; if no unknown number is handed to the table, the numbered graph keeps every answer, and if moreover every block keeps what is live out of it in the finished graph, a packet passes the same blocks of the finished graph exactly if it passes none that is misjudged, and then has the same answer; completes if no block is one that opt_blk refuses |
| ValuePass.SparedStep | submodules/libpcap/optimize.c:1478-1580 | in a state the numbers describe, a finished block that keeps what is live out of it goes where the block went exactly unless it is misjudged, and agrees with it in all that is live |
| ValuePass.FinishedTrail | submodules/libpcap/optimize.c:2076-2104 | the theorem about the finished graph, for every packet and start state |
| Trails.TrailResult | submodules/libpcap/optimize.c:377-403 | the answer is that of the last block passed |
| Trails.TrailLive | submodules/libpcap/optimize.c:683-706 | registers not live on entry do not change which blocks are passed |
| Trails.LiveExactIs | submodules/libpcap/optimize.c:683-706 | the liveness equations have one solution |
| Local.WalkIsRoute | submodules/libpcap/optimize.c:1589-1795 | where every reachable block defines what it uses, a packet's answer does not depend on the start state |
| Local.NumberingIsExact | submodules/libpcap/optimize.c:1478-1580 | the numbers of A and of the rewritten branch's operand tell how every finished block branches, for every packet: as if it compared what the number of A denotes, plus what the branch took over; it goes where the block went unless misjudged, through the other edge if it took over a mask |
| Local.FinishedLocal | submodules/libpcap/optimize.c:1556-1572 | a block that defines what it uses still does when it is finished |
| PeepRules.ThisOp | submodules/libpcap/optimize.c:873-879 | the first statement from a position on that is not deleted |
| PeepRules.StoreLoad | submodules/libpcap/optimize.c:919-932 | store then load of X from the same word may become a move from A |
| PeepRules.ImmTax | submodules/libpcap/optimize.c:933-946 | loading a constant into A and moving it to X may become loading X and moving it to A |
| Words.OffsetMoves | submodules/libpcap/optimize.c:992-1020 | adding a constant to the index is adding it to the offset, modulo 2^32 |
| PeepRules.CollapseSame | submodules/libpcap/optimize.c:947-1029 | moving the constant into the indexed load changes nothing but X, and not X where it matters, whatever is wanted after the block |
| PeepRules.CollapseExact | submodules/libpcap/optimize.c:992-1023 | the rule keeps every register needed after the load exactly if X is not needed there or the constant is zero |
| Peephole.LateUseFails | submodules/libpcap/optimize.c:1007-1023 | a statement list that uses X after the indexed load and is changed by that rule |
| Peephole.FindIndexing | submodules/libpcap/optimize.c:963-991 | finds the sequence exactly if it is there |
| Peephole.PeepPair | submodules/libpcap/optimize.c:906-1030 | applies each of the three rules exactly where it applies to the pair, and rewrites nothing else: store and load of X, constant and move to X, and, unless X is live out, the constant load, addition and move to X before an indexed load, which are deleted, and whose constant is added to the offset modulo 2^32; brings in no register; whatever registers may be wanted in the end, it keeps the effect of the list on them if wherever a constant can be moved into an indexed load that is harmless, and leaves that so for the rest |
| Peephole.PeepStmts | submodules/libpcap/optimize.c:897-1030 | applies the rules at every statement of the list it is given that they apply to, and rewrites no other statement; leaves no two neighbours to join and finds the last arithmetic statement; whatever registers may be wanted in the end, it keeps the effect of the list on them from every state if every constant that can be moved into an indexed load can be moved harmlessly |
| Words.SubtractEquals | submodules/libpcap/optimize.c:1044-1096 | a - x equals y exactly if a equals y + x, modulo 2^32 |
| Peephole.FoldCompareKeeps | submodules/libpcap/optimize.c:1031-1116 | taking a subtraction or mask into the equality test changes neither the way taken nor any register but A; the new test decides as if it compared the old A plus the subtrahend, and the other way round after a mask |
| Peephole.FoldMaskKeeps | submodules/libpcap/optimize.c:1117-1126 | deciding bit tests of no bits and of all bits is right exactly unless all bits are tested, A is zero and the successors differ |
| Peephole.FoldConstKeeps | submodules/libpcap/optimize.c:1127-1177 | comparing with a known X, and deciding by a known A, go the way the block went |
| Peephole.OptPeep | submodules/libpcap/optimize.c:890-1178 | in every state the value numbers describe, the block keeps its way, exactly unless it is misjudged, and every set of registers that includes no X lost after an indexed load and no A computed by a statement taken over; the rules are applied to all statements, a statement taken over is gone, and no other is rewritten; a test of no bits, of all bits or of a known A leads to one block only, and no test is with a known X; gives up exactly on a returning block whose statements leave a constant in A |
| Peephole.AllOnesFails | submodules/libpcap/optimize.c:1117-1126 | a graph and a packet whose answer the all-bits rule changes |
| BlockPass.ClearAgrees | submodules/libpcap/optimize.c:1556-1568 | a block that leaves A and X as they were may lose all its statements as far as a set of registers is concerned of which it defines only A and X |
| BlockPass.FinishBlock | submodules/libpcap/optimize.c:1556-1572 | clearing, or peephole rewriting followed by dead-store removal, keeps the block's way exactly unless it is misjudged, and every set of registers it spares; what peephole rewriting does to the statements and the branch is stated as for OptPeep, and the dead statements removed are exactly those of the block it leaves |
| BlockPass.DeadContained | submodules/libpcap/optimize.c:1453-1475 | removing dead stores leaves no use without its definition |
| BlockPass.OptBlk | submodules/libpcap/optimize.c:1478-1580 | numbering, finishing and numbering the rewritten branch's operand: what is known of the numbered block, of the finished block against it, and of the operand |
| BlockPass.DoneAgrees | submodules/libpcap/optimize.c:1478-1580 | with all operands known, in every state the entry numbers describe, the finished block agrees with the block in every set of registers it spares, and goes where that goes exactly unless it is misjudged and not cleared |
| BlockPass.SparesLive | submodules/libpcap/optimize.c:1478-1580 | what is live out of the block is spared, if it loses no X after an indexed load |
| BlockPass.OptBlkOf | submodules/libpcap/optimize.c:1478-1580 | treating one block of a graph keeps the answer of every packet that comes to it in a state the numbers describe and for which it is not misjudged |
| BranchMove.FoldDecides | submodules/libpcap/optimize.c:1605-1685 | a packet that has taken the edge takes, at the child, the successor fold_edge returns, if what fold_edge concludes from the edge's block is true of the packet |
| BranchMove.FoldSkips | submodules/libpcap/optimize.c:1743-1794 | a packet of which all fold_edge can conclude about the blocks it passes is true, and that takes an edge dominated by another, goes on as that one decides |
| BranchMove.UseConflict | submodules/libpcap/optimize.c:1584-1603 | true exactly if some register live out of the successor has another number there |
| BranchMove.RouteMove | submodules/libpcap/optimize.c:1691-1795 | letting an edge skip a block keeps the route of every packet that would have gone on that way, and lets it pass no further block |
| BranchMove.FoldMoveSound | submodules/libpcap/optimize.c:1743-1794 | moving an edge past a test decided by an edge that the packet took before keeps the packet's route |
| BranchMove.SkipMoveSound | submodules/libpcap/optimize.c:1707-1742 | moving an edge past a block with equal successors keeps every packet's route |
| BranchMove.DominatorsStay | submodules/libpcap/optimize.c:2110-2115 | moving edges of lower blocks leaves the edge dominators of an edge not yet visited exactly the same, and for every packet the edges it takes before that edge |
| BranchMove.Mover.FindFold | submodules/libpcap/optimize.c:1751-1774 | returns where a dominating edge lets the edge lead, one that decides the target's test without conflict, or there is none |
| BranchMove.Mover.OptJ | submodules/libpcap/optimize.c:1691-1795 | terminates, changes only the one edge, keeps every route, and leaves the edge where no dominating edge decides more, and past the block it led to if that has come to have one successor only, unless a live register would be broken |
| BranchMove.AllStuck | submodules/libpcap/optimize.c:1691-1795 | edges left as OptJ leaves them cannot be moved further, said of the comparisons, numbers and live registers alone: for no dominating edge and for no block with equal successors |
| BranchMove.Mover.MoveBranches | submodules/libpcap/optimize.c:2106-2115 | the whole sweep keeps the route of every packet the facts hold for, its answer where blocks define what they use, and leaves every edge settled |
| Pullup.OnlyPredecessor | submodules/libpcap/optimize.c:1861-1945 | the only edge into an inner block of a dominated chain is the chain edge from the block before it |
| Pullup.PulledRanked | submodules/libpcap/optimize.c:1952-1971 | a pull-up makes no cycle |
| Pullup.RoutePulled | submodules/libpcap/optimize.c:1952-1971 | outside the rearranged stretch every packet gets where it got before |
| Pullup.PullupSound | submodules/libpcap/optimize.c:1816-1979 | one pull-up keeps acyclicity and every packet's route |
| Pullup.Puller.PredecessorValue | submodules/libpcap/optimize.c:1825-1836 | whether all predecessors leave the same value number in A |
| Pullup.Puller.Descend | submodules/libpcap/optimize.c:1861-1945 | follows the chain to the first block that looks at the value asked for, or reports that the chain ends before |
| Pullup.Puller.RetargetAll | submodules/libpcap/optimize.c:1962-1968 | every edge that led to the old block leads to the new one, and no other edge changes |
| Pullup.Puller.Splice | submodules/libpcap/optimize.c:1952-1971 | the pulled block is taken out of the chain and put before the block that looks at another value |
| Pullup.Puller.Pull | submodules/libpcap/optimize.c:1816-2074 | pulls exactly if there is a chain down to a block that looks at another value, and from there one down to a block that looks at the value all predecessors leave in A, and then that block; keeps acyclicity, every route, and where reachable blocks define what they use every answer; sense true is or_pullup, sense false and_pullup |
| Pullup.PullExact | submodules/libpcap/optimize.c:1837-1950 | what the search for the two chains finds is exactly what there is to pull, stated with chains of blocks, each entered only from the one before |
| Pass.ExtendLevels | submodules/libpcap/optimize.c:377-415 | the levels of the reachable blocks extend to a ranking of the whole graph |
| Pass.NothingLiveOut | submodules/libpcap/optimize.c:683-706 | where every block defines what it uses, nothing is live between blocks |
| SweepFacts.AlikeFits | submodules/libpcap/optimize.c:1031-1126 | if blocks one after the other that leave the same in A take over the same, and none tests all bits between two successors, every packet fits |
| SweepFacts.PlainAlike | submodules/libpcap/optimize.c:1031-1126 | that is so if no reachable branch takes over a statement and none tests all bits between two successors |
| SweepFacts.AgreesExactly | submodules/libpcap/optimize.c:1605-1685 | of two finished blocks with the same number for A that test for equality with the same operand, what fold_edge concludes is true of a packet exactly if they have taken over the same or the operand is neither of the two words they compare |
| SweepFacts.FitsConcurs | submodules/libpcap/optimize.c:1605-1685 | for a packet that fits, all that fold_edge can conclude about the blocks it passes in the finished graph is true |
| SweepFacts.FitsGoes | submodules/libpcap/optimize.c:1478-1580 | a packet that fits passes the same blocks in the finished graph, through the other edge where a mask was taken over |
| SweepFacts.DominatorTravels | submodules/libpcap/optimize.c:469-495 | the block of an edge that dominates another before blocks are finished comes before that edge on the packet's way afterwards, and so does the dominating edge unless its block took over a mask |
| Pass.Sweep | submodules/libpcap/optimize.c:2106-2115 | the sweep over a finished graph keeps the answer of every packet for which the condition holds; afterwards no edge out of a reachable block leads to a test that an edge dominating it decides, by making the same comparison of the same numbers or an equality test with another constant, nor still to the block it led to if that has equal successors, unless a live register would be broken; and no edge was moved that breaks one |
| Pass.MoveBranchesOf | submodules/libpcap/optimize.c:2076-2115 | analyses, treatment of every block and sweep, on any acyclic graph, keep the answer of every packet for which the condition holds, and of all packets under the condition on the graph alone; every edge is where Sweep leaves it; completes if leaves have no statements |
| Pass.RewriteOf | submodules/libpcap/optimize.c:2076-2104 | analyses and treatment of every block with do_stmts 1, on any acyclic graph: the finished graph is what NumberGraph makes of it, the theorem about it holds, and it keeps every answer if the blocks keep to themselves; completes if no reachable block divides by a constant zero or divides or shifts by X |
| Altering.PlainSpares | submodules/libpcap/optimize.c:1478-1580 | a block no statement of which can be taken over, and that uses no X after an indexed load that could be lent a constant, spares every set of registers of which it defines only A and what is live |
| Altering.LiveApart | submodules/libpcap/optimize.c:683-706 | what is live out of a block in the finished graph, and that the block defines, is A or was live out of it, if later blocks mention nothing else that it defines |
| Altering.SeparateKept | submodules/libpcap/optimize.c:2076-2104 | in a graph whose blocks keep to themselves, the pass keeps every packet's answer and the blocks it passes |
| Misfolds.SubtractingFolds | submodules/libpcap/optimize.c:1605-1685 | after one of two blocks takes a subtraction over, fold_edge decides the other by its true edge, both having the same number for A and the same operand |
| Misfolds.SubtractingFails | submodules/libpcap/optimize.c:1082-1096 | the move that follows changes the answer of a packet |
| Misfolds.SubtractingMisfits | submodules/libpcap/optimize.c:1082-1096 | that graph meets every part of the condition but that packets fit, and those that do not are exactly those with that first word |
| Misfolds.MaskingFolds | submodules/libpcap/optimize.c:1605-1685 | after a block takes a mask over, its true edge, found to dominate before, decides a block below |
| Misfolds.MaskingFails | submodules/libpcap/optimize.c:1097-1115 | the move that follows changes the answer of a packet |
| Misfolds.MaskingMisfits | submodules/libpcap/optimize.c:1097-1115 | that packet does not fit |
| AlteredGraphs.StoringMade | submodules/libpcap/optimize.c:2076-2104 | whatever the hash function, the pass deletes a store from the first of two blocks as dead, and the same store from the second as superfluous because of the first |
| AlteredGraphs.RewriteStoring | submodules/libpcap/optimize.c:2076-2104 | so does Pass.RewriteOf |
| AlteredGraphs.StoringUnspared | submodules/libpcap/optimize.c:1425-1475 | the blocks of that graph do not keep to themselves, and the first does not keep what is live out of it in the finished graph |
| AlteredGraphs.StoringFails | submodules/libpcap/optimize.c:767-774 | a packet and a state for which the two graphs have different answers |
| AlteredGraphs.SharingMade | submodules/libpcap/optimize.c:767-774 | of two blocks that load the same header length into X, the second loses its load, and nothing else changes |
| AlteredGraphs.SharingSpared | submodules/libpcap/optimize.c:1425-1475 | the first block keeps that X, for it uses it itself |
| AlteredGraphs.RewriteSharing | submodules/libpcap/optimize.c:2076-2104 | Pass.RewriteOf makes that graph and keeps every packet's answer, though the blocks do not keep to themselves |
| Pass.PullUpTo | submodules/libpcap/optimize.c:2117-2123 | analyses and one pull-up to any branching block, whatever numbers the blocks have: pulls exactly if there is something to pull, and then that; keeps every answer of any acyclic graph whose reachable blocks define what they use |
| AirpcapLoader.NextInv | submodules/libpcap/pcap-airpcap.c:109-236 | every step of every thread keeps the invariant, and the status only moves from unloaded to loading to one final value |
| AirpcapLoader.RunInv | submodules/libpcap/pcap-airpcap.c:109-236 | every state of every run satisfies the invariant: at most one thread loads, what it has looked up is what the system has, and a final status is right |
| AirpcapLoader.SameAnswer | submodules/libpcap/pcap-airpcap.c:109-236 | all calls, whenever they return, return the same answer: Loaded exactly if the system has the library and every function, and then every function pointer is set; otherwise the library has been released |
| AirpcapLoader.OneLoaderEver | submodules/libpcap/pcap-airpcap.c:128-170 | over a whole run at most one thread ever enters the loading section |
| AirpcapLoader.LoaderProceeds | submodules/libpcap/pcap-airpcap.c:142-233 | while others wait there is a loading thread, it can step, and each step brings it closer to publishing a result |
| AirpcapRead.Capture.Scan | submodules/libpcap/pcap-airpcap.c:632-691 | delivers accepted records in order until a break is asked for, by a callback or from outside, the limit or the end; a callback that asks for a break is the last; delivers nothing and stops short exactly if a break has been asked for before the first accepted record |
| AirpcapRead.PendingIsDue | submodules/libpcap/pcap-airpcap.c:653-688 | from a buffer filled with records laid end to end, each a header, data and padding, what is due is each record the filter accepts, with its own time stamp, lengths and data |
| AirpcapRead.Capture.Walk | submodules/libpcap/pcap-airpcap.c:628-694 | what is delivered and what is left is what was due, unless nothing was delivered because of a break, when all is left as it was; a callback that asks for a break is the last, and stopping early has a reason |
| AirpcapRead.Capture.Read | submodules/libpcap/pcap-airpcap.c:578-694 | one call: break, failed read, or deliveries that with what is left make up the buffer; what has just been read is lost exactly if a break is asked for from outside before its first delivery |
| AirpcapRead.Capture.ReadOn | submodules/libpcap/pcap-airpcap.c:578-694 | successive calls with any limits and breaks, from callbacks or from outside, deliver each accepted packet left in the buffer once and in order, and with enough undisturbed calls all of them |
| Utf8.EmittedIsEncoding | submodules/libpcap/fmtutils.c:185-239 | the bytes written for a code point are its UTF-8 encoding exactly if it is below 0x100000 |
| Utf8.CodePointsOf | submodules/libpcap/fmtutils.c:94-101 | reading the UTF-16 of section 2.1 of RFC 2781 gives back every text |
| Utf8.PairedExactly | submodules/libpcap/fmtutils.c:118-183 | any string of units can be had back from the code points it is read as exactly if no half of a pair is alone |
| Utf8.LoneHalf | submodules/libpcap/fmtutils.c:119-183 | between any two texts, a half of a pair that is alone is read as a replacement character, and if it is a leading half the unit after it is lost |
| Utf8.LastHalf | submodules/libpcap/fmtutils.c:124-136 | at the end of a text, a leading half is read as a replacement character |
| Utf8.Convert | submodules/libpcap/fmtutils.c:103-260 | what is written is the encoding of the code points up to where the code believes no room is left, and a NUL; nothing for an empty buffer |
| Utf8.OutputLongest | submodules/libpcap/fmtutils.c:185-239 | without four-byte forms, the longest start of the text that fits with a NUL is what is written |
| Utf8.FitsExactly | submodules/libpcap/fmtutils.c:225-254 | the output and its NUL fit every buffer exactly if no code point but the last needs four bytes |
| Utf8.OutputFits | submodules/libpcap/fmtutils.c:225-254 | under that condition the NUL is always within the buffer |
| Utf8.OutputOverruns | submodules/libpcap/fmtutils.c:225-254 | where a code point that is not the last needs four bytes there is a buffer that the output overruns |
| Utf8.PairAndLetterStops | submodules/libpcap/fmtutils.c:225-254 | for a pair and a letter, and five bytes of room, the code goes on to the end and writes five bytes before the NUL |
| Utf8.OverrunByOne | submodules/libpcap/fmtutils.c:225-254 | converting them writes six bytes into five |
| Utf8.RoundTrip | submodules/libpcap/fmtutils.c:85-93 | decoding the encoding of any text, by section 3 of RFC 3629, gives the text back |
| Utf8.DecodedExactly | submodules/libpcap/fmtutils.c:85-93 | bytes decode to a text exactly if they are its encoding |
| Utf8.OutputDecodes | submodules/libpcap/fmtutils.c:85-93 | what is written decodes to the code points written exactly if none is beyond plane 15, and otherwise does not decode at all |
| Utf8.BeyondUndecodable | submodules/libpcap/fmtutils.c:225-238 | what is written for a code point of plane 16 is no character, whatever follows |
| Utf8.BeyondPlane15 | submodules/libpcap/fmtutils.c:225-238 | the first code point of plane 16 is written as bytes that are not UTF-8 |
| NumberScan.ScanHex | generated/libpcap/scanner.c:5644-5676 | hexadecimal digits give their value if it is below 2^32, else an overflow |
| NumberScan.LowerMeans | generated/libpcap/scanner.c:5644-5676 | what a token means does not change when its letters are written small |
| NumberScan.DigitExact | generated/libpcap/scanner.c:5654-5668 | a character has a digit's value exactly if, written small, it is that digit |
| NumberScan.ScanOctal | generated/libpcap/scanner.c:5677-5708 | octal digits give their value, or the first thing that is wrong: overflow or a digit 8 or 9 |
| NumberScan.ScanDecimal | generated/libpcap/scanner.c:5709-5726 | decimal digits give their value if it is below 2^32, else an overflow |
| NumberScan.Stou | generated/libpcap/scanner.c:5632-5730 | a token scans to n exactly if it means n, and n is below 2^32; to a non-octal digit exactly if it is the first thing wrong with an octal token; no step wraps |
| NumberScan.WrittenMeans | generated/libpcap/scanner.c:5624-5632 | every number has a token in each of the three forms that means it, so scanning undoes writing |
| NumberScan.WrittenAnyCase | generated/libpcap/scanner.c:5644-5676 | however its letters are mixed, small and capital, a hexadecimal spelling of a number means it |

## Left out

- A single theorem about bpf_optimize and the termination of opt_loop: the cutoff after a hundred passes is a heuristic, and a pass does not keep every answer.
- Pass.MoveBranchesOf: the condition is proved to suffice. That it is needed is shown by graphs, one for each part, and for the equality tests by SweepFacts.AgreesExactly; an exact condition on whole graphs would have to say which edges the sweep comes to move.
- Pass.RewriteOf: that blocks keep what is live out of them in the finished graph is proved to suffice; which packets then pass the same blocks is stated exactly.
- Pass.PullUpTo: computes dominators and in-edges of the graph it is given; the source keeps the dominators from before the blocks were finished and branches moved.
- BlockPass.OptBlkOf: one block of a graph at a time; for all blocks together see ValuePass.NumberGraph.
- Pullup.Puller.Pull: one call; in the source later calls of the same sweep see the dominators and in-edges of the graph before the sweep.
- Peephole.OptPeep: asks that a final arithmetic statement has no constant result, which StmtPass.OptStmts promises. Registers that include an X lost after an indexed load are not stated to be kept; the source leaves that to its code generator.
- ValuePass.NumberGraph: nothing is stated of graphs that hand an unknown number to the table; StmtPass.UnknownIndexFails shows why.
- Relative jumps inside a block in convert_code_r.
- opt_root, which also relies on sappend, not part of this model.
- count_blocks and number_blks_r: blocks are numbered by their index from the start.
- Liveness.LocalSets: computes the sets of all blocks, the source those of the leveled ones.
- A packet access that fails: loads are total functions of size and offset, as the optimizer itself treats them.
- Division and modulus by zero at run time, which stop the filter; the model gives them the value 0.
- The hash function of the value table is any function; only its range is fixed by the modulus 213.
- Overflow of visit marks and of offsets held in a C int; allocation failure, setjmp and longjmp, and debug output.
- install_bpf_program and the instruction validator.
- The Windows and AirPcap calls themselves: their results are left open.
- The tables and actions of the generated scanner and parser, other than the number conversion.
- The other capture back ends, name resolution, nDPI headers and the helper scripts: system calls, tables and small parsers.
