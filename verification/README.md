# Onigmo, verified

A Dafny 4.11 model of the regular expression engine in `src/Onigmo`: the compiler from parse trees to byte code, the
backtracking matcher that runs it, the rewritings and the search acceleration that must not change an answer, the
character-class algebra of the parser, and the chained hash table. Paths below are relative to the root of the
repository. `dafny verify dfyconfig.toml` checks everything.

## What is modelled

The text is a sequence of bytes, in a single-byte encoding; matching is case-sensitive and without subexpression calls.
A state of the matcher is a position, the position it remembers as the previous one, the start to report and the
captures. A tree means the list of all ways to match from a state, in the order in which the matcher finds them.

| layer | modules |
|---|---|
| trees, byte code, code generation | `Common`, `Tree`, `Opcodes`, `Codegen`, `CodeSizes`, `CodeFits`, `Numbering`, `Pending`, `JumpTargets`, `Emitter` |
| what a tree means | `Semantics`, `Matches`, `Lengths`, `LengthFacts`, `Progress`, `Alike` |
| the matcher with stored copies of its state, and compiler correctness | `Snapshot`, `Yielding`, `Placing`, `CodeParts`, `CompileCorrect` |
| the matcher with its undo log, as functions and as a program over arrays | `UndoLog`, `Undoing`, `UndoSteps`, `UndoCorrect`, `Correctness`, `StillDue`, `Unpushed`, `MatchAt`, `Engine` |
| from the parse tree to the prepared tree | `NextNode`, `LookBehind`, `FixedLengths`, `StringExpand`, `SetupTree`, `Order`, `CodeSizeOrder`, `Preference`, `AtomicRuns`, `WrongHeads` |
| the language of a parse tree | `LoopWords`, `CountWords`, `Visits`, `Language`, `Leaves`, `Remembered`, `RegularTrees`, `WordWays`, `LostWords` |
| search | `Optimizer`, `OptimizerFacts`, `AnchorFacts`, `QuickSearch`, `Scan`, `LineStarts`, `SearchRange`, `Search`, `Finder`, `PushChoice`, `Counterexamples`, `StaleCaptures` |
| parser and table | `TurnOrder`, `Reduction`, `CodeRanges`, `ClassAlgebra`, `HashTable` |

The chain of results, from the outside in:

1. `Finder.Find` runs setup_tree, the compiler, the optimizer and the search on a parse tree. It returns the first
   position at which the parse tree has a way to match, and reports its most preferred way there (`Preference.Pref`,
   which knows no opcodes and none of the rewritings).
2. `Preference.SetupMeans`: the tree setup_tree leaves has the ways of the parse tree, in the same order.
   `Order.PlainOrder`: a repetition has one order of preference, whatever it is compiled to.
   `WordWays.PrefIsLanguage`: the ways end exactly where the words of the language end. `CountWords.CountRuns`: where a
   counter loop leads, whatever its null check reads.
3. `Search.ForwardSearch`: skipping finds what the plain scan finds. `OptimizerFacts.HintHolds`: every match contains
   the hint.
4. `Engine.MatchAtPosition`: one attempt on the emitted bytes, on an array stack that grows, ends with the first way of
   the tree or with a mismatch when there is none. `Unpushed.CellRight`: captures that no failure restores are right all
   the same if every path opens their group equally often, and `PushChoice.ToldExact`: those are the ones setup_tree
   leaves unpushed, but for one family.
5. `UndoCorrect.RunFollows`: undoing entry by entry brings back what a stored copy would have brought back, over whole
   runs. `CompileCorrect.NodeYields`: the code of every tree makes the matcher find its ways, one after the other.

## Model

| member | source | states |
|---|---|---|
| Finder.Find | src/Onigmo/regexec.c:3912-4212 | onig_new and onig_search together: NoMatch only if no position from the start on has a way to match the parse tree, a match at the first position that has one, with the end, start and captures of its most preferred way (for the groups of `Engine.Told`), the stack limit only if the stack of some attempt comes to hold that many entries |
| Finder.RootMeans | src/Onigmo/regcomp.c:3842-4130 | the plain scan with the tree setup_tree leaves at the root finds the first position where the parse tree has a way, and has exactly the ways of the parse tree there |
| Finder.ImplicitAnchor | src/Onigmo/regcomp.c:3318-3337 | putting (?:^\|\G) before a leading root-level `.*`, nested in lists or not, changes neither where a search from \G finds its first match nor the ways there |
| Finder.WaysAreWords | src/Onigmo/regexec.c:1306-2944 | a regular parse tree has a way at a position exactly when some word of its language starts there |
| Preference.SetupMeans | src/Onigmo/regcomp.c:3842-4130 | for every parse tree whose heads are right, the ways of setup_tree's result are those of the parse tree, in the same order, from every state of a match: possessive loops, peeks, head bytes, joined strings, divided look-behind and atomic loops included |
| Preference.UnnestedFine | src/Onigmo/regcomp.c:4005-4017 | the heads setup_tree relies on are right in every parse tree in which no repetition that may turn zero times is itself repeated directly |
| WrongHeads.HeadExact | src/Onigmo/regcomp.c:4005-4017 | the condition on moved heads is exact: in c*nc, for a quantifier n with a moved head byte other than c, setup_tree loses the match of "c" exactly if the head is not right |
| Preference.LoopMeans | src/Onigmo/regcomp.c:1034-1158 | a prepared loop has the ways of the shape-free ordered iteration of its parsed body |
| Order.PlainOrder | src/Onigmo/regcomp.c:1034-1158 | a repetition of a body that is never empty has one order of preference, whichever of the six instruction shapes it gets and however long its code is |
| Order.QuantOrdered | src/Onigmo/regcomp.c:1034-1158 | every shape, for any body, realises the ordered iteration under one of three policies towards empty turns |
| Order.StarTurns | src/Onigmo/regexec.c:1894-1956 | the opcode for `.*` makes the turns of a loop over `.`; only the previous position remembered at the end of the text is another one |
| CodeSizeOrder.OrderDependsOnSize | src/Onigmo/regcomp.c:1034-1158 | raising the upper bound of (?:\|ab?){0,2} to 3, which changes the code from copies to a counter, changes the preferred end of the match in "abab" before (?=b\|\z) from 1 to 4 |
| CodeSizeOrder.PoliciesDiffer | src/Onigmo/regcomp.c:1034-1158 | with one and the same bound, counted turns over a possibly empty body come in another order than written-out ones |
| AtomicRuns.AtomicIsFirst | src/Onigmo/regcomp.c:1359-1390 | an atomic group has the first way of what it contains, whether it is compiled to take the longest run or to cut the stack; `.*` differs in the previous position it remembers |
| CountWords.CountRuns | src/Onigmo/regexec.c:2519-2791 | for any body and any null check: a counter ends at j exactly when some run of counted turns within the bounds gets there with enough turns, or there makes an empty turn that leaves |
| CountWords.CounterRuns | src/Onigmo/regexec.c:2519-2791 | the same for the ways of the loop OP_REPEAT ... OP_REPEAT_INC as it is compiled |
| CountWords.RejectExact | src/Onigmo/regexec.c:906-943 | the capture-aware null check rejects an empty turn exactly if every group it visited held an empty capture and one of them elsewhere, leaves the loop exactly if all held the empty capture here, and goes on otherwise |
| CountWords.OrderedEnds | src/Onigmo/regexec.c:2694-2791 | under each policy a repetition leads exactly where an allowed number of turns leads, if its body can be empty everywhere or nowhere or at most one turn is mandatory, and the empty turns that have to be made are not all rejected |
| CountWords.CounterEnds | src/Onigmo/regexec.c:2519-2791 | a counter loop every empty turn of which leaves it ends at j exactly when some number of consuming turns within the upper bound leads there that reaches the lower bound, or the body can be empty at j |
| CountWords.CountMisses | src/Onigmo/regexec.c:2519-2791 | such a loop never finds a wrong end, and misses one exactly when no allowed number of consuming turns leads there, the body cannot be empty there, and it can be empty earlier on |
| WordWays.PrefIsLanguage | src/Onigmo/regcomp.c:1654-1824 | for regular parse trees, look-around, line anchors and loops that read captures included, the ways from a state end exactly where the words of the language end; the language reads the bytes of the text and nothing of the matcher |
| Leaves.AnchorExact | src/Onigmo/regexec.c:2161-2252 | from a state whose remembered position is the one before, an anchor has a way exactly where the text says: `^` at the start unless ONIG_OPTION_NOTBOL is set, or behind a byte 0x0a |
| Leaves.ClassExact | src/Onigmo/regexec.c:1736-1800 | a bit set built from a list of bytes matches one byte exactly if it is in the list, or not in it for a negated set |
| Leaves.BackrefExact | src/Onigmo/regexec.c:2331-2365 | a back-reference matches exactly where the bytes of the capture stand again, and moves over them |
| Remembered.WayAlong | src/Onigmo/regexec.c:1894-1956 | a tree without `.*`, back-references and atomic groups leaves the remembered position one before the current one, or has not moved at all |
| WordWays.MeaningIsLanguage | src/Onigmo/regexec.c:1306-2944 | the same for the tree that is compiled: match_at tries exactly the words |
| WordWays.CountedExact | src/Onigmo/regexec.c:2519-2579 | for a checked count over a regular body whose empty matches visit no pushed group, or without captures: what is found, and exactly which words of the language are missed |
| WordWays.CountedRejects | src/Onigmo/regexec.c:2519-2579 | for a checked count over any regular body: only words are found, and one at whose end the body can be empty is missed only if a run gets there with too few turns and has an empty turn rejected |
| WordWays.LoneCounts | src/Onigmo/regexec.c:2519-2579 | a checked count over one pushed group ends exactly where runs without two empty turns in a row lead that reach the lower bound, or where the body can be empty, unless the group holds an empty capture of another position when the loop starts |
| WordWays.LoneExact | src/Onigmo/regexec.c:2561-2579 | a regular loop over one pushed group finds all its words but the empty one, and misses that one exactly if the group holds an empty capture of another position |
| RegularTrees.AnchorFreeRegular | src/Onigmo/regcomp.c:2067-2132 | a tree without anchors, look-around, atomic groups and back-references is regular if every repetition in it that has to turn can be empty without visiting a pushed group, cannot be empty, or repeats one group that is not captured before |
| LostWords.CountedFails | src/Onigmo/regexec.c:2519-2579 | (?:a\|\A){3} does not match the first a, although \A, \A, a are three turns |
| LostWords.CaptureFails | src/Onigmo/regexec.c:2561-2579 | (?:()a?){5,} does not match "a", although its body can be empty behind it: the empty capture in front of the a rejects every further turn |
| Search.ForwardSearch | src/Onigmo/regexec.c:4005-4212 | for every forward search to the end of the text, with the range narrowed by \A, \G, \z or \Z: the first position where match_at finds something and what it finds there, or, if the pattern seems to begin with `.*`, what the line-by-line search finds |
| SearchRange.NarrowKeeps | src/Onigmo/regexec.c:4005-4070 | every match that starts at or behind the start of the search starts in the range the search anchors and the length bounds leave; there is none if they leave nothing |
| AnchorFacts.Anchored | src/Onigmo/regcomp.c:4901-5247 | every match of a tree starts where the anchors optimize_node_left put on its left say, and ends where those on its right say |
| Search.LinesAnswer | src/Onigmo/regexec.c:4182-4199 | for a tree that really begins with `.*`, the line-by-line search finds the first match |
| Search.LineSearch | src/Onigmo/regexec.c:4182-4199 | the loop that moves \G along and goes on to the next line after a failure returns exactly the first line start where match_at succeeds |
| Search.WindowSearch | src/Onigmo/regexec.c:4161-4175 | the loop over the windows of hits skips no match |
| Search.ForwardSearchRange | src/Onigmo/regexec.c:3666-3794 | the first hit of the hint behind the start, and the range of starts it allows |
| Search.MapSearch | src/Onigmo/regexec.c:3566-3579 | the first byte of the set in the range, or none |
| Search.ThresholdBound | src/Onigmo/regcomp.c:5249-5320 | threshold_len never exceeds the distance it stands for, whatever its cast to int does |
| LineStarts.LineExact | src/Onigmo/regexec.c:4182-4199 | the line-by-line search finds the first match exactly when that one starts at the start of the search or of a line |
| LineStarts.LinesEnough | src/Onigmo/regcomp.c:5146-5155 | for a tree that begins with `.*` it always does |
| LineStarts.TestMisses | src/Onigmo/regexec.c:4182-4199 | for a zero-width test before `.*`, whatever follows, a line is given up wrongly exactly when the test fails at its start and holds further on where the rest matches |
| LineStarts.SlideBack | src/Onigmo/regcomp.c:3318-3337 | a match of a tree that begins with `.*` that starts inside a line also starts one position earlier |
| Counterexamples.GuardedFails | src/Onigmo/regcomp.c:5146-5155 | (?!a).*y on "aby": the prepared tree, the hint and the search anchor the optimizer finds, that the search goes line by line and finds nothing, and that the first match starts at 1 |
| Counterexamples.MovedHeadLoses | src/Onigmo/regcomp.c:4005-4017 | setup_tree turns c*(?:(?=a)*){2}c into a tree that does not match "c", which the parse tree matches |
| OptimizerFacts.HintHolds | src/Onigmo/regcomp.c:4901-5386 | every match contains the exact string, or a byte of the map, of the hint at a distance inside its window |
| OptimizerFacts.Optimized | src/Onigmo/regcomp.c:4901-5247 | the whole record optimize_node_left computes for a node holds of each of its matches: length, strings at the start and inside, byte map |
| QuickSearch.QuickSearchHeads | src/Onigmo/regexec.c:3304-3363 | bm_search_notrev_se returns the first character head with an occurrence, for every positive character length |
| QuickSearch.QuickSearchBytes | src/Onigmo/regexec.c:3366-3406 | bm_search_se returns the same position in single-byte text |
| QuickSearch.SlowSearch | src/Onigmo/regexec.c:2960-2998 | slow_search_se returns the first character head with an occurrence |
| QuickSearch.SetSkip | src/Onigmo/regcomp.c:4218-4285 | every table entry is the distance from the last place of the byte to one behind the end of the string |
| QuickSearch.SkipPositive | src/Onigmo/regcomp.c:4218-4285 | stored in a byte every entry is right and positive, unless the string has 255 bytes: then exactly those of absent bytes are wrong |
| Engine.MatchAtPosition | src/Onigmo/regexec.c:1306-2944 | match_at on the emitted bytes ends; it reports the first of all ways with its start, end and captures (for the groups of `Engine.Told`), or NoMatch exactly when there is no way, or the stack limit only if an unlimited stack would come to hold that many entries |
| Unpushed.CellRight | src/Onigmo/regexec.c:2261-2288 | for a group that is not pushed and that every path opens equally often: at a match, mem_start_stk and mem_end_stk hold its capture in the most preferred way, although no failure restores them |
| StillDue.StepGoes | src/Onigmo/regexec.c:1306-2944 | every instruction keeps what the group has still to come from growing between the bottom of the stack, its top and the current state, and its array element right wherever nothing is to come |
| Pending.CodePends | src/Onigmo/regcomp.c:1654-1824 | the code of a steady tree opens, and closes, the group as often as the tree says, whatever the loop counters hold |
| JumpTargets.ProgramAims | src/Onigmo/regcomp.c:1560-1824 | no jump, no loop and no null check of a compiled program skips what a steady group has still to come, and every OP_REPEAT_INC has its OP_REPEAT before it |
| Numbering.CodeTidy | src/Onigmo/regcomp.c:683-720 | every loop number stands in one OP_REPEAT and one OP_REPEAT_INC, and lies in the range of numbers the node takes |
| PushChoice.ToldExact | src/Onigmo/regcomp.c:4035-4042 | with setup_tree's choice of pushed groups (IN_ALT, IN_NOT, IN_VAR_REPEAT, back-references), the report of a group is covered exactly if the group is pushed or stands in no loop that counts a fixed number of turns over a body that may be empty |
| StaleCaptures.RegionStale | src/Onigmo/regexec.c:1452-1465 | (a?){3}a on "a": the tree, its preparation, its choice of pushed groups and its run; the region of group 1 is [1, 0), the capture of the most preferred way is [0, 0) |
| Correctness.MatchAtCorrect | src/Onigmo/regexec.c:1306-2944 | after finitely many steps on the undo log: a mismatch if the tree has no way, else its most preferred way |
| Correctness.AlwaysHealthy | src/Onigmo/regexec.c:488-939 | in every state of every run saved indices name live entries of their group, every loop count is the number of increments that point at it, and nothing leaves the code, the stack or the arrays |
| CompileCorrect.NodeYields | src/Onigmo/regcomp.c:1654-1824 | wherever the code of a well-formed tree stands, running and resuming it produces its ways in their order, with nothing but alternatives left on the stack |
| CompileCorrect.LoopYields | src/Onigmo/regcomp.c:1070-1110 | a push/jump loop with its head and null checks produces the ways of the loop |
| CompileCorrect.CountedYields | src/Onigmo/regexec.c:2694-2791 | OP_REPEAT_INC and its relatives produce the ways of the counter loop |
| CompileCorrect.BracketEnds | src/Onigmo/regexec.c:2793-2832 | the end of an atomic group or look-ahead finds the marker of its own start, and no alternative in between is left |
| UndoCorrect.RunFollows | src/Onigmo/regexec.c:757-943 | exact undo over whole runs: the matcher with the undo log shadows the one with stored copies, step by step |
| UndoCorrect.StepFollows | src/Onigmo/regexec.c:1306-2944 | one instruction, for every instruction, keeps the two matchers alike |
| UndoCorrect.PopFollows | src/Onigmo/regexec.c:2662-2666 | OP_POP removes the alternative of its own OP_PUSH |
| UndoSteps.ChainVoid | src/Onigmo/regexec.c:841-869 | voiding a bracket removes its choice points and nothing else: the undo records inside it survive |
| MatchAt.Machine.Turn | src/Onigmo/regexec.c:1306-2944 | one turn of the opcode loop on the array stack, with growth and the stack limit, is one step of the matcher |
| MatchAt.Machine.Fail | src/Onigmo/regexec.c:757-799 | STACK_POP undoes down to the last choice point and resumes it |
| MatchAt.Machine.Push | src/Onigmo/regexec.c:489-528 | a push grows the stack, keeping its entries, or fails with nothing changed, and then the stack holds as many entries as the limit allows |
| MatchAt.Machine.VoidEnd | src/Onigmo/regexec.c:841-869 | the marker and every choice point above it become void, in place |
| Emitter.Compiler.CompileTree | src/Onigmo/regcomp.c:1654-1824 | the bytes, the table of repeat ranges and the counters after compiling a tree into a growing buffer are those of the code of the tree, appended |
| Emitter.Compiler.CompileQuantifier | src/Onigmo/regcomp.c:1034-1158 | the same for all shapes of a quantifier |
| CodeSizes.CodeSize | src/Onigmo/regcomp.c:421-1651 | compile_length_tree predicts exactly the size of the code |
| CodeFits.CodeEncodable | src/Onigmo/regint.h:605-640 | every operand of the code of a tree that fits fits its C type |
| JumpTargets.JumpsDecode | src/Onigmo/regcomp.c:1560-1824 | in the bytes, every relative address leads to an instruction of the program, which is decoded there, or to the end of the code |
| Opcodes.FetchEncode | src/Onigmo/regint.h:488-690 | decoding the modelled instructions undoes encoding them, wherever the bytes stand |
| Opcodes.CodeAtBytes | src/Onigmo/regint.h:488-690 | assembled modelled instructions are fetched back one after the other |
| Matches.Sound | src/Onigmo/regcomp.c:1654-1824 | every way of a tree is a match in the reading that knows no order, no opcodes and no code sizes |
| LengthFacts.MatchFacts | src/Onigmo/regcomp.c:2136-2503 | every match moves forward, touches only its own groups and has a length within the computed bounds, exactly the fixed length if there is one |
| Progress.TurnMakesProgress | src/Onigmo/regexec.c:871-943 | a loop that turns again has consumed something or settled a capture for good, so loops end |
| LookBehind.LookBehindExact | src/Onigmo/regcomp.c:3232-3280 | stepping back the one length, or dividing the alternatives, finds exactly the matches of the body that end at the current position |
| FixedLengths.CharLenExact | src/Onigmo/regcomp.c:2381-2509 | for a body without back-references, whose sets have a byte and which repeats nothing that is always empty a varying number of times and nothing of two lengths no times: get_char_length finds no length exactly if the body, without its anchors, has words of two lengths, and else the length of a word |
| FixedLengths.RefusedExact | src/Onigmo/regcomp.c:3232-3280 | setup_look_behind refuses such a body exactly if it has words of two lengths and is not an alternation of bodies with one length each |
| StringExpand.ExpandKeeps | src/Onigmo/regcomp.c:3957-4002 | joining the copies of a repeated string changes no way to match and no preference |
| StringExpand.Expand | src/Onigmo/regcomp.c:3957-4002 | the loop joins as many copies as fit into 100 bytes, at least one, and leaves the rest of the repetition |
| SetupTree.SetupGood | src/Onigmo/regcomp.c:3843-4130 | the tree setup_tree leaves is well formed for the compiler and keeps the lengths, the groups and the references of the parse tree |
| NextNode.NextSetupKeeps | src/Onigmo/regcomp.c:3283-3316 | possessive loops and peeking at the next byte drop only ways the rest of the list rejects |
| NextNode.MovedHeadExact | src/Onigmo/regcomp.c:2707-2792 | a head byte moved out of inner repetitions is the head of every match exactly when none of them may turn zero times |
| Alike.MeaningSim | src/Onigmo/regexec.c:1306-2944 | states that differ only in what a tree does not look at have alike ways in the same order |
| Reduction.SetQuantifier | src/Onigmo/regparse.c:5175-5251 | rewriting nested quantifiers in place accepts the same strings, for every target, and prefers the same ones, for every target that consumes something, exactly if it does not remove a lazy `+` from a greedy `*` or `+` |
| Reduction.ReducedLanguage | src/Onigmo/regparse.c:2176-2268 | all 36 entries of the reduction table keep the language |
| Reduction.OrderExact | src/Onigmo/regparse.c:2176-2268 | the reduced quantifier has the ways of the nested ones in the same order, for every target that consumes something, exactly if the nested ones are not a lazy `+` in a greedy `*` or `+`; 34 of the 36 entries |
| Reduction.FixedOrder | src/Onigmo/regparse.c:5243-5248 | so has the rewriting of the count of a greedy loop over a greedy `*` or `+` |
| CodeRanges.Buffer.Add | src/Onigmo/regparse.c:1713-1789 | add_code_range_to_buf keeps the ranges sorted, disjoint and apart, and adds exactly the given codes, both ends of the 32-bit range included |
| CodeRanges.Buffer.Contains | src/Onigmo/regcomp.c:6015-6033 | onig_is_in_code_range decides membership |
| ClassAlgebra.Complement | src/Onigmo/regparse.c:1805-1838 | exactly which codes not_code_range_buf returns, wrap-around included |
| ClassAlgebra.ComplementRight | src/Onigmo/regparse.c:1805-1838 | that is the complement exactly when no range starts at 0 or all end before the first multibyte code |
| ClassAlgebra.AndNotRange | src/Onigmo/regparse.c:1904-1941 | exactly which codes and_code_range1 keeps |
| ClassAlgebra.AndNotExact | src/Onigmo/regparse.c:1904-1941 | it is the difference exactly when no subtracted range starts behind the range, unless one covers it, and nothing wraps |
| ClassAlgebra.RemainderDropped | src/Onigmo/regparse.c:1931-1934 | a range cut at its right end, with another subtracted range further on, loses its left part |
| ClassAlgebra.CClass.Or | src/Onigmo/regparse.c:2058-2113 | the union of two classes as onig_is_code_in_cc_len reads them: always for single bytes, and for ranges in every combination of negations under the condition it needs; it fails only if the operands together have the limit of 10000 ranges or one fewer |
| ClassAlgebra.CClass.And | src/Onigmo/regparse.c:2001-2055 | the intersection in the same sense; it fails only if the ranges of the operands, those of a negated one counted twice, reach the limit |
| ClassAlgebra.CClass.Lookup | src/Onigmo/regcomp.c:6036-6056 | onig_is_code_in_cc_len decides membership in bits, ranges and negation |
| HashTable.Table.Lookup | src/Onigmo/st.c:240-256 | the value the map holds for the key, or that it holds none; only while entries are marked must the key not be the marker |
| HashTable.Table.Insert | src/Onigmo/st.c:279-297 | the map is updated at the key and nowhere else, through rehashing, and the count grows only for a new key |
| HashTable.Table.Rehash | src/Onigmo/st.c:314-337 | every entry moves to the bin of its hash in a larger array; the map stays |
| HashTable.Table.Delete | src/Onigmo/st.c:381-419 | the key is gone, everything else stays, and the old value and the stored key are returned |
| HashTable.Table.DeleteSafe | src/Onigmo/st.c:423-445 | the key is gone from the map while its entry stays linked, and the stored key is returned |
| HashTable.Table.CleanupSafe | src/Onigmo/st.c:467-475 | the marked entries are unlinked; count and map are right exactly when no live entry holds the marker as its value |

## Findings

Where the code does not do what it is for, it is modelled as it is, and the exact condition is proved.

- **A zero-width prefix before `.*`** (src/Onigmo/regcomp.c:5146-5155, regexec.c:4182-4199). The search anchor of `.*`
  is kept behind a prefix of length zero, and the search then tries line starts only. `(?!a).*y` on "aby" finds nothing
  although "by" matches (`Counterexamples.GuardedFails`). The search is right exactly when the first match starts at the
  start of the search or of a line (`LineStarts.LineExact`); behind a test it goes wrong on a line exactly when the test
  fails at its start and holds further on where the rest matches (`LineStarts.TestMisses`). Beginning with `.*` is
  sufficient (`LineStarts.LinesEnough`). A converse in terms of the shape of an arbitrary tree is not given: whether
  some text makes a tree match inside a line but not at its start is a question about its language, not its shape, and
  the two statements above answer it text by text.
- **A head byte moved outwards** (src/Onigmo/regcomp.c:4005-4017). The head byte of an inner quantifier becomes that of
  the outer one, and get_head_value_node then relies on it even if the inner one may turn zero times.
  `c*(?:(?=a)*){2}c` does not match "c" (`Counterexamples.MovedHeadLoses`). The moved byte is the head of every match
  exactly when no quantifier it was moved out of may turn zero times (`NextNode.MovedHeadExact`), and whenever it is not,
  a match is lost next to a loop over another byte (`WrongHeads.HeadExact`).
- **A count over a possibly empty body** (src/Onigmo/regexec.c:2519-2579). Words are lost in two ways; where any counter
  leads is said exactly by `CountWords.CountRuns`.
  - An empty turn leaves the loop before the lower bound is reached: the plain check always (OP_NULL_CHECK_END), the one
    that reads captures (OP_NULL_CHECK_END_MEMST) if it sees no visit. `(?:a|\A){3}` does not match the first a of "aa"
    (`LostWords.CountedFails`). Exactly which words are missed: `CountWords.CountMisses` and `WordWays.CountedExact`.
  - An empty turn is rejected by the check that reads captures. `(?:()a?){5,}` does not match "a"
    (`LostWords.CaptureFails`). It is rejected exactly if all groups it visited held empty captures, one of them of
    another position (`CountWords.RejectExact`), and only such turns lose words at whose end the body can be empty
    (`WordWays.CountedRejects`). No empty turn needs to be rejected if the body can be empty without visiting a pushed
    group (`Visits.Idle`), or never visits one when empty (`RegularTrees.Quiet`); a regular loop
    over one group loses at most the empty word, and exactly if it is entered with an empty capture of another position
    (`WordWays.LoneExact`), as the inner loop of `(?:(a?){20}b){2}` is. For other bodies the condition is that on the runs.
- **Preference depends on code size** (src/Onigmo/regcomp.c:1034-1158). For a possibly empty body, copies and a counter
  prefer different ways, and the size of the code decides between them (`CodeSizeOrder.OrderDependsOnSize`). For a body
  that is never empty there is one order (`Order.PlainOrder`); all other shapes fall under `Order.QuantOrdered`.
- **A capture that is not pushed** (src/Onigmo/regcomp.c:4035-4042, regexec.c:1452-1465). A group in a loop that counts a
  fixed number of turns is not pushed, although the loop may leave early when its body may be empty. `(a?){3}a` on "a"
  matches with the capture [0, 0) and reports [1, 0): a turn that is given up later has set the start, and the turn that
  is resumed leaves the loop before the group is opened again (`StaleCaptures.RegionStale`). A group that every path opens
  equally often is reported right (`Unpushed.CellRight`), and with setup_tree's choice these are all unpushed groups but
  those in such loops (`PushChoice.ToldExact`). Whether a group in such a loop goes wrong on some text depends on whether
  its body has an empty way behind another one and on what follows the loop, so no converse by shape is given.
- **Reduced quantifiers** (src/Onigmo/regparse.c:2176-2268). `(?:a+?)*` becomes `(?:a+?)?` and `(?:a+?)+` becomes `a+?`,
  which accept the same strings but prefer other ones. The order changes for these two entries of the table and for no
  other (`Reduction.OrderExact`).
- **Look-behind of one length that is refused** (src/Onigmo/regcomp.c:2381-2509). get_char_length wants equal bounds of a
  repetition even if what it repeats is empty, and a length of what is repeated no times: `(?<=(?:){0,1})` and
  `(?<=(?:a?){0})` are refused (`FixedLengths.NothingRefused`, `FixedLengths.NoTimesRefused`). Without these shapes a
  body is refused exactly if it has words of two lengths and cannot be divided (`FixedLengths.RefusedExact`).
- **1 AND (NOT 2)** (src/Onigmo/regparse.c:1931-1934). The remainder of a range is dropped when a subtracted range lies
  behind it (`ClassAlgebra.RemainderDropped`); exact condition: `ClassAlgebra.AndNotExact`.
- **Complement of ranges from 0** (src/Onigmo/regparse.c:1826). `from - 1` wraps; exact condition:
  `ClassAlgebra.ComplementRight`.
- **Marker values in the table** (src/Onigmo/st.c:447-475). st_cleanup_safe also removes live entries whose value is the
  marker; exact condition: `HashTable.Table.CleanupSafe`.
- **Skip entries of a 255-byte string** (src/Onigmo/regcomp.c:4218-4285). The entries of absent bytes wrap to 0; exact
  condition: `QuickSearch.SkipPositive`. The optimizer never builds strings of more than 24 bytes.
- **The previous position at the end of the text** (src/Onigmo/regexec.c:1894-1956). After `.*` has reached the end of
  the text, `sprev` is where the opcode began (`Order.StarTurns`), which `^` can see.

## Left out

- Opcodes.FetchEncode: operands are fixed as little-endian, while the code copies integers in host order, and only the
  opcodes the compiler emits for the modelled trees are covered.
- Opcodes.CodeAtBytes: the same byte order and the same opcodes.
- Engine.MatchAtPosition: the capture of an unpushed group in a loop that counts a fixed number of turns over a possibly
  empty body is not stated, because it can be wrong (see the findings), nor is that of a group whose end alone is pushed.
- PushChoice.ToldExact: that the report is stated for such groups, not that it is wrong on some text for all others.
- Finder.Find: forward search from \G to the end of the text, for trees whose operands fit, without look-ahead for the
  optimizer, without line anchors next to the hint, and without the search anchor of multi-line `.*`; that of `.*` not
  together with \G or a look-behind in front. Trees whose heads are not right are excluded (see the findings), as are
  texts of 2^31 - 1 bytes or more. Where the search anchors leave no start below the range, or the search starts at the
  end of a text, the code takes its backward branch, which is not part of this model.
- WordWays.PrefIsLanguage: left out are a line anchor that may meet the end of a `.*` with nothing consumed in between
  (see the findings), atomic groups and back-references, and loops that have to turn and read the captures of several
  groups, or of one group that may be captured before they start. For these `WordWays.CountedRejects` holds.
- Leaves.AnchorExact: for other remembered positions `Order.StarTurns` says what `^` sees behind `.*`.
- FixedLengths.RefusedExact: bodies with back-references, which have no length by themselves.
- Unpushed.CellRight: groups that are steady by the shape of the tree, as `Pending.Steady` says.
- RegularTrees.AnchorFreeRegular: sufficient only; `RegularTrees.Regular` itself decides by policy and body.
- Preference.UnnestedFine: sufficient only; the condition of `Preference.SetupMeans` is `Preference.HeadsFine`.
- Preference.SetupMeans: `HeadsFine` asks for right heads also where no loop stands before them that would rely on them,
  so it has no converse for a tree as a whole; `WrongHeads.HeadExact` is the converse for a head in a context that does.
- SetupTree.SetupGood: atomic loops over a simple target that may be empty, captures inside a look-around inside a loop
  that may be empty, and references to groups whose start is not pushed are excluded by `SetupTree.Parsed`; the node
  types check_type_tree rejects in look-behind are not. setup_tree and optimize_node_left are functions from tree to tree
  and from tree to record: that the code rewrites nodes in place, and shares them, is not modelled.
- OptimizerFacts.HintHolds: look-ahead in the optimizer, where an infinite length is cast to int.
- HashTable.Table.Delete: that the value result is set to 0 when the bin is empty and left alone when the key is not found.
- Reduction.OrderExact: targets that may be empty, for which the order depends on how each shape treats empty turns.
- Lazy `{0,0}?`: OP_REPEAT_NG runs its body all the same; `Tree.ProperCounts` excludes it.
- Ignore-case matching and case folding, subexpression calls and recursion, conditionals, absence operators, capture
  history, leveled and named multi-group back-references, word boundaries.
- Multibyte encodings in the matcher, except in quick search and in the ranges of classes; `\r\n` as a newline.
- The options ONIG_OPTION_FIND_LONGEST and FIND_NOT_EMPTY, backward search, a search range that ends before the text.
- The search anchor of multi-line `.*`, and line anchors next to the hint.
- Stack limits that are positive and below twice the initial stack, under which stack_double would shrink the stack.
- 32-bit overflow of `tlen * lower` in the choice of a shape and of int lengths in look-behind; texts of 2^63 bytes.
- The bit sets of pushed groups are exact sets; in the code groups from 32 on share one bit.
- Allocation failure, free lists, threads, and the configuration that is switched off.
