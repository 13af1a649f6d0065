# InkC, verified

A model in Dafny of the hard parts of InkC, the compiler and virtual machine for the Ink scripting
language, with proofs of what they are for. `dafny verify dfyconfig.toml` checks all of it.

| file | models | main results |
|---|---|---|
| Ast.dfy | values, operators and syntax trees shared by all parts | |
| Machine.dfy | the instruction set and the stack machine, as a transition function | |
| Meaning.dfy | a reference evaluator: what a tree means, and the stack cells and frames a run needs | |
| Layout.dfy, LayoutFacts.dfy | where the code of each tree lies in a finished path | |
| Scoping.dfy | which names are known where, what each tree costs in constants, bytes and slots, and what it can fail for | a name in scope was stored before it is loaded; an evaluation fails only for what its source can fail for |
| Astgen.dfy | the code generator, in place: bytes, constants, labels, both jump-patching schemes | what it emits is laid out for the tree; what it accepts |
| Goals.dfy, Correctness.dfy | running code | laid-out code does what the evaluator says |
| Soundness.dfy | the bytes of a path, and the disassembler | whole instructions, jumps on boundaries, in every run |
| NoElse.dfy | multi-branch conditionals without an else | when they keep their meaning, and what else they do |
| Laws.dfy | the operators of the machine | what each of them computes, as laws |
| Choosing.dfy | choice statements, and a reader who picks | the reader is shown the branches in order and gets the one that was picked |
| Story.dfy | the virtual machine, in place, and a host that reads a story | source tree to text, end to end |
| Weave.dfy | the weave builder with its three stacks | the tree is what a stack of levels predicts, and no other |
| Pratt.dfy | the precedence parser | the precedence of every operator; it inverts a printer that has no parenthesis to spare |
| Collector.dfy | the mark-sweep collector | it keeps exactly what is reachable, and starts when the requests pass the limit |
| HashMap.dfy | open addressing with tombstones | it is a plain map; when probing ends |
| Scanner.dfy | the scanner state machine | tokens tile the source |
| Stream.dfy, Arena.dfy | the output stream and the arena | whole-history properties |

The compiler is proved in three steps. The generator keeps, beside the bytes it has emitted, a ghost plan of
the bytes as they will be once every pending operand is filled in; it ends with code that is laid out for
the tree (`Astgen.Generator.File`). Code that is laid out for a tree does what the evaluator says, given the
headroom the evaluator counted (`Correctness.StoryIsMeaning`). The interpreter, working in place, is the
machine (`Stories.Story.Exec`). `Telling.Tell` puts them together. A stack slot whose content nothing relies
on is `Junk` in the proof, which is how the uncleared locals of `ink_story_call` and the hidden slots of
switches are told apart from values.

The weave is proved by giving every reachable state of the three stacks a flat view: the lines placed so far
and the branches around each. Collecting a block or a choice leaves the view alone; a new line adds its own
place to it. A tree of the grammar is determined by that view (`Trees.OneTree`), so there is one tree that the
parser can build. The scanner, the hash map, the stream and the parser are methods over fields and arrays that are
proved equal to functions on values, and the theorems are about those functions.

## What the code does, where one might expect otherwise

- A multi-branch conditional without an else branch runs its first body when no test holds, one stack cell
  short, and faults where there is no cell to lose (`NoElse.TestsFallThrough`, `NoElse.CasesFallThrough`,
  `NoElse.WitnessFaults`). It keeps its meaning if and only if it has an else branch or some test or case holds
  (`NoElse.MultiIfExactly`, `NoElse.SwitchExactly`).
- `gc.h` says that `ink_gc_disown` allows an object to be collected. The slot of a removed key keeps the key,
  and the collector scans keys without looking at the state of their slot, so the object stays a root
  (`Collecting.Collector.Disown`).
- Probing for a missing key ends in every history if and only if the load limit is at most 92, although
  limits up to 99 are accepted (`HashMaps.SafeLoads`). Every limit in the repository is 80.
- Reusing a tombstone counts its slot again, and nothing else makes the count inexact
  (`HashMaps.SlackGrows`, `HashMaps.CountsTwice`).
- A block comment is closed only by a slash with an odd number of stars before it
  (`Tiling.OnlyOddStarsClose`).
- The stack of grammars has room for 127 above the base, and its guard allows 128
  (`Scanning.Scanner.PushMode`, `Scanning.Scanner.PushModes`).
- The request that starts a collection is not counted: the count is set to the size of what survives, and the
  new object is allocated behind that (`Collecting.Collector.MemAlloc`, `Collecting.Collector.ObjectNew`).
- A label of several lines shows only its first line as the offer, and the next offer begins with the rest; the
  offers show the labels if and only if each is one line (`Choosing.LabelsOffered`).
- A group whose closing parenthesis is missing is accepted, whatever stands in its place
  (`RoundTrip.UnclosedGroupAccepted`).

## Model

| member | source | states |
|---|---|---|
| Telling.Tell | src/story.c:1098-1141 | compiling a story, loading it and reading it line by line hands out exactly the text that the reference evaluator writes for the source tree, whenever the evaluation ends; a source with distinct names that are known where they are used, and with room for each path, is never rejected |
| Telling.Compile | src/story.c:1098-1112 | compiling accepts every source whose names are distinct and known where they are used and whose paths each need at most 255 constants, 255 slots and fewer than 65536 bytes; what is accepted is compiled path by path, and never evaluates to an undefined name, however long it runs |
| Telling.NeverUndefined | src/story.c:918-951 | every evaluation of a scoped source comes to its end or fails for a reason that some construct of the source can give, for want of stack only if there are calls or expressions too large for it; it never loads a variable that was not stored, and never calls or diverts to a path that does not exist |
| Headroom.StoryNeeds | src/story.c:234-333 | a story without calls in which each path has room for its parameters, its hidden slots and the leaves of its largest expression never needs more than 128 cells |
| Telling.ReadAll | src/story.c:1007-1038 | reading a loaded story to its end yields the unread text of the finished run, all of it, in order |
| Telling.ReadRest | src/story.c:1007-1038 | once the story has exited, reading on yields the waiting text and terminates |
| Correctness.StoryIsMeaning | src/astgen.c:1825-1876 | a compiled program, run from its main path, exits after finitely many steps with the globals and the output of the evaluator |
| Correctness.ExprRuns | src/astgen.c:794-879 | for every expression, from any stack with the headroom the evaluator counted, its bytes run to their end with the value pushed, or leave as the evaluator says |
| Correctness.ShortCircuitRuns | src/astgen.c:597-611 | the right operand of and/or runs after the left value is popped, or not at all; exactly one value is left |
| Correctness.StrictRuns | src/astgen.c:588-595 | both operands, left first, are replaced by the value of the operator; inequality is equality negated |
| Correctness.StmtRuns | src/astgen.c:1487-1525 | every statement runs from its first byte to the byte behind it at the same stack depth with the evaluated store and output, or leaves early as evaluated |
| Correctness.StmtsRun | src/astgen.c:906-924 | a list of statements runs one after the other, each in the scope the earlier declarations leave |
| Correctness.IfRuns | src/astgen.c:926-951 | an if/else runs exactly the branch its condition selects and comes out at one place at the starting depth |
| Correctness.MultiIfRuns | src/astgen.c:953-1004 | a multi-branch conditional runs exactly the first branch whose test is not false, or the else branch, and reaches the exit at the starting depth; it covers a missing else whenever some test holds |
| Correctness.SwitchRuns | src/astgen.c:1006-1076 | the subject is evaluated once into a slot that no nested code touches, and the first equal case or the else branch runs |
| Correctness.StoreRuns | src/astgen.c:1189-1237 | a declaration or assignment stores the value under the name and leaves the stack as it was |
| Correctness.ArgsRun | src/astgen.c:750-792 | arguments are evaluated from left to right onto the stack |
| Correctness.CallRuns | src/astgen.c:750-792 | a call replaces its arguments by one result and resumes the caller, whatever the callee did, nested to any depth |
| NoElse.MultiIfExactly | src/astgen.c:953-1004 | from every machine state, control leaves the tests of a multi-branch conditional at the place its meaning selects if and only if some test holds or there is an else branch; then the conditional runs as evaluated, and otherwise it falls through |
| NoElse.SwitchExactly | src/astgen.c:1006-1076 | the same for a switch, from its first byte: control goes where it is meant to if and only if some case equals the subject or there is an else branch |
| NoElse.TestsSelect | src/astgen.c:953-1004 | the equivalence alone, with no headroom asked for the bodies |
| NoElse.CasesSelect | src/astgen.c:1006-1076 | the same for a switch |
| NoElse.TestsFallThrough | src/astgen.c:953-1004 | without an else branch, when every test is false: on an empty stack the machine faults, over a known cell it is in the first body one cell lower, and over any other cell it does one or the other |
| NoElse.CasesFallThrough | src/astgen.c:1006-1076 | the same for a switch that no case matches, from its first byte on |
| NoElse.WitnessFaults | src/astgen.c:953-1004 | a concrete compiled story, a single false test without else, faults in four steps |
| Defined.StoryDefined | src/astgen.c:226-257 | a source whose every name is a parameter in scope, a variable declared in an open block of its path or a path of the file never evaluates to an undefined name; its globals only grow, and its diverts lead to paths with their arguments; and it fails for no reason that none of its constructs can give |
| Defined.PathDefined | src/astgen.c:1607-1649 | the same for one path, from its parameters on, whatever globals earlier paths stored |
| Defined.StmtDefined | src/astgen.c:906-924 | the same for one statement, and every name that it adds to the scope is stored when the next one starts |
| Defined.ItemDefined | src/astgen.c:926-1076 | the same for one item of a content line, with the scope that a conditional opens around its branches |
| Defined.ExprDefined | src/astgen.c:691-792 | the same for expressions: every name that is loaded has a value, and every called path exists with that many parameters |
| Astgen.Generator.EmitByte | src/astgen.c:344-347 | appends the byte to the code, and everything emitted before stays |
| Astgen.Generator.EmitConst | src/astgen.c:355-372 | accepts an operand if and only if it is below 255, so the cast to a byte never changes it |
| Astgen.Generator.EmitNewConst | src/astgen.c:424-436 | a new constant and the instruction that names it; fails exactly when 255 constants are in the pool |
| Astgen.Generator.EmitJump | src/astgen.c:374-384 | a jump with a placeholder, recorded as waiting for its patch |
| Astgen.Generator.PatchJump | src/astgen.c:522-536 | accepts a distance if and only if it fits 16 bits, and then writes exactly that distance, high byte first |
| Astgen.Generator.AddLabel | src/astgen.c:400-410 | a label that is not set yet |
| Astgen.Generator.SetLabel | src/astgen.c:412-422 | sets the label to the current code offset and no other |
| Astgen.Generator.EmitDeferred | src/astgen.c:386-398 | a jump whose operand waits for its label; in the finished code it leads there |
| Astgen.Generator.Backpatch | src/astgen.c:538-565 | if it succeeds, every deferred operand has its final value, nothing else changed and both tables are empty; it succeeds if every deferred jump is short enough |
| Astgen.Generator.Expr | src/astgen.c:794-879 | lays out every expression so that the bytes carry out the tree, and keeps everything emitted before; accepts it only if every name in it is known, and always if so and there is room |
| Astgen.Generator.Identifier | src/astgen.c:691-714 | a parameter becomes a load of its own slot, every other name a global load whose operand indexes that very name in the pool of the path; accepted if and only if the name is that of a parameter or variable in scope |
| Astgen.LookupResolves | src/astgen.c:241-257 | what a lookup finds through the scopes names the right slot or the right pool entry of the path being compiled |
| Astgen.Generator.BinaryOp | src/astgen.c:588-595 | operands in order, then the operator |
| Astgen.Generator.LogicalOp | src/astgen.c:597-611 | a conditional jump over the pop and the right operand, patched to the byte behind them |
| Astgen.Generator.CallExpr | src/astgen.c:750-792 | arguments in order and a call by name; accepted only if name and arity are those of a path, and always if so, the arguments are scoped and there is room |
| Astgen.Generator.Block | src/astgen.c:906-924 | the statements in order, in a scope of their own that is gone afterwards; accepted only if each is scoped behind the declarations before it, and always if so and there is room |
| Astgen.Generator.VarDecl | src/astgen.c:1189-1237 | a declaration becomes a store under its name, joins the innermost scope and hides a parameter of that name; rejected if that scope has the name already |
| Astgen.Generator.AssignStmt | src/astgen.c:1320-1356 | an assignment stores under its name; accepted only for a variable in scope that is no constant |
| Astgen.Generator.IfStmt | src/astgen.c:926-951 | two immediate jumps, both patched to where the other branch begins and ends |
| Astgen.Generator.MultiIfBlock | src/astgen.c:953-1004 | tests, optional else jump, bodies and labels such that after backpatch every jump leads to its own body or to the exit |
| Astgen.Generator.SwitchStmt | src/astgen.c:1006-1076 | the same with the subject in a fresh slot, reloaded before each comparison |
| Astgen.Generator.ChoiceStmt | src/astgen.c:1373-1460 | offers, then one test per branch whose patch leads to that branch, then the branches |
| Astgen.Generator.PatchPick16 | src/astgen.c:1435-1444 | a branch label that was truncated to 16 bits is either the true offset or the patch is rejected |
| Astgen.Generator.Stmt | src/astgen.c:1487-1525 | dispatches every statement to code that carries it out; accepted only if it is scoped, and always if so and there is room, and then the scope is the one behind it |
| Astgen.Generator.KnotDecl | src/astgen.c:1607-1649 | a whole path: parameters in its first slots, its body, a final EXIT or RET, and no jump left open; accepted only if it is scoped, and always if its parameters are distinct, it is scoped and it fits 255 constants, 255 slots and 64K of code |
| Astgen.Generator.File | src/astgen.c:1825-1876 | if it succeeds, every path of the source is compiled, there is no other path, no name is declared twice and every path is scoped; it succeeds whenever names are distinct and every path is acceptable |
| Soundness.PathIsSound | src/astgen.c:1557-1664 | the bytes of every compiled path split into whole instructions up to a final EXIT or RET, every jump lands on an instruction of the path, and every operand names an existing constant, string or slot |
| Soundness.Dump | src/story.c:1073-1096 | the disassembler visits exactly the instruction boundaries, each once, in order, and stops at the code length |
| Soundness.DisassembleInst | src/story.c:171-229 | the disassembler steps by the size the machine decodes |
| Soundness.StepOnTrack | src/story.c:742-990 | one step of the machine keeps every frame at the start of an instruction of its own path, whatever is on the stack |
| Soundness.RunOnTrack | src/story.c:742-990 | so does every run of a compiled program, however long, until the machine stops |
| Goals.ByCall | src/story.c:234-260 | a call enters the callee above its arguments, with its locals reserved |
| Goals.ByReturn | src/story.c:756-774 | a return replaces everything above the frame by the one result, resumes the caller, and everything beneath is unchanged |
| Goals.ByDivert | src/story.c:265-291 | a divert keeps exactly the topmost arguments, in order, and one frame |
| Correctness.PathRuns | src/story.c:742-990 | from its entry a path returns to its caller, diverts or ends the story as evaluated, above any stack |
| Stories.Story.Push | src/story.c:321-333 | pushes, or faults on a full stack or a null value |
| Stories.Story.Pop | src/story.c:338-344 | the topmost value, or none on an empty stack |
| Stories.Story.Peek | src/story.c:349-356 | the value k below the top, if the stack is that deep; the stack is unchanged |
| Stories.Story.Call | src/story.c:234-260 | the new frame and the reserved locals, or a fault that changes nothing |
| Stories.Story.Divert | src/story.c:265-291 | the arguments moved to the bottom, the locals reserved and a single frame, or a fault that changes nothing |
| Stories.Story.MoveDown | src/story.c:279-281 | copying cell by cell in place, with overlap, yields the arguments in order with every later cell untouched |
| Stories.Story.Return | src/story.c:756-774 | the frame is gone, the stack is cut back to it, and the value is on top |
| Stories.Story.Arithmetic | src/story.c:553-600 | the operands below and at the top are replaced by what the operator makes of them, and ill-typed operands fault; what the operators make of them is settled by the laws below |
| Stories.Story.Comparison | src/story.c:602-664 | the same for comparisons, where equality never fails |
| Stories.Story.Named | src/story.c:868-951 | variables and paths are found by the name at the pool index |
| Stories.Story.Slot | src/story.c:904-917 | constants and stack slots; a push that would overflow in a load is ignored |
| Stories.Story.Branch | src/story.c:844-867 | conditional jumps look at the top without popping it |
| Stories.Story.Emit | src/story.c:952-979 | text, newline and glue go to the output stream, and a choice adds one offer, the line that was just written, behind the others |
| Laws.SumAndDifference | src/story.c:358-377 | on any stack ADD leaves the sum of two numbers and SUB takes it back: x + y less y leaves x |
| Laws.ProductDistributes | src/story.c:358-377 | MUL by 1 changes nothing, and MUL by y + z leaves what MUL by y and MUL by z add up to |
| Laws.QuotientAndRemainder | src/story.c:358-377 | DIV and MOD leave q and r with a == q * b + r, where r is smaller than b and is zero or has the sign of a; dividing by zero faults |
| Laws.OneQuotient | src/story.c:358-377 | only one pair of numbers is such a quotient and remainder |
| Laws.OrderOfNumbers | src/story.c:396-414 | the five comparisons of two numbers are the order of the numbers: for every pair exactly those hold that belong to less, equal or greater |
| Laws.Equality | src/story.c:602-664 | two values compare as equal exactly when they have the same type and value |
| Laws.BooleansCount | src/story.c:441-462 | for every operator a boolean beside a number gives what 0 or 1 in its place would give, on either side, and two booleans are rejected |
| Laws.TextJoins | src/story.c:600-629 | ADD joins text to the text of whatever is beside it, on either side, and no other operator takes text |
| Laws.ContentWrites | src/story.c:952-962 | CONTENT appends the text of the topmost value: a number as its decimal numeral without leading zeros |
| Numerals.OneNumeral | src/story.c:464-512 | a number has only one such numeral |
| Laws.LineAndGlue | src/story.c:963-970 | LINE appends a line break, and GLUE removes exactly the line breaks at the end that were not read |
| Laws.OnlyFalseIsFalse | src/story.c:837-867 | NOT leaves true, and JMP_F jumps, for the boolean false and for nothing else |
| Stories.Story.Step | src/story.c:742-990 | fetch, decode and execute in place is one transition of the machine |
| Stories.Story.Turns | src/story.c:724-1000 | the first n turns of the interpreter loop are the first n steps of the machine, for every n and every run, whether it ends or not |
| Stories.Story.Exec | src/story.c:724-1000 | the interpreter loop, when it ends, is a run of the machine to its end |
| Stories.Story.Continue | src/story.c:1007-1038 | the next line: waiting lines come first, and only then the machine runs on, as often as it takes to have something to read, to choose or the end; when nothing is left it cannot continue |
| Stories.Story.Choose | src/story.c:1040-1057 | choosing sets the id of the choice, drops the others and lets the story continue; an index out of range changes nothing |
| Stories.Story.Load | src/story.c:1114-1132 | loading diverts to the main path |
| Stories.RunKeepsRead | src/story.c:952-979 | over any run, bytes that were read are never taken back by glue |
| Choosing.MakesOffers | src/astgen.c:1373-1433 | the code of a choice statement halts, adds one offer for each branch in the order of the branches, and halts again, from any state with one free cell; frames, globals and stack are as before |
| Choosing.EntersBranch | src/astgen.c:1422-1457 | then, whichever branch was chosen, the tests lead to that branch: it writes its own reply and halts in front of its own body at the stack depth the statement started with |
| Choosing.EntersNone | src/astgen.c:1422-1434 | a number that is none of the branches ends the story |
| Choosing.ReaderChooses | src/astgen.c:1373-1457 | together: offer k has the number k and the line written for branch k, and after it is chosen the story stands in front of the body of branch k, for every branch, every stack and every store |
| Choosing.LabelsOffered | src/story.c:971-979 | with nothing left to read, the offers show exactly the labels of the branches if and only if each label is one line |
| Picking.Pick | src/story.c:1007-1066 | a host that continues a story in front of a choice is shown the labels in order; whichever it picks, the story goes on in that branch, with nothing to read but its reply |
| Meaning.LineBreak | src/astgen.c:1143-1187 | a content line that ends with text is followed by one line break, and any other by none |
| Meaning.Endings | src/astgen.c:1239-1275 | a divert to END or DONE ends the story, and a divert to anything else does not |
| Meaning.CaseLabels | src/astgen.c:1006-1076 | the label of a case is a number or a boolean |
| Trees.OneTree | src/parser.c:754-860 | a tree of the grammar, where every choice is a non-empty list of branches, only the last statement of a block can be a bare choice, and a gather behind a choice is wrapped with it, is determined by its lines, their order and the branches around each: which branches share a choice, and which choice a gather closes, is settled by that |
| Weaving.Parser.ParseFile | src/parser.c:1754-1779 | for every sequence of content, choice and gather lines, the tree is of the grammar, and walked in order it has every line once, in source order, below exactly the branches that the stack of levels says; it is the only such tree |
| Enclosing.LineIsPlaced | src/parser.c:754-860 | and those branches are exactly the earlier choice lines that no choice or gather of their level or less has closed; choice lines become branches, and gather lines gather points |
| Enclosing.StackIsOpen | src/parser.c:754-860 | the stack of levels holds, after any lines, exactly the branches that are still open |
| Weaving.Parser.ParseConditional | src/parser.c:1328-1362 | a conditional nested to any depth leaves scratch, open blocks and open choices as they were, and its branches hold exactly the lines up to the next test, each placed as the stack of levels says; it is a plain if exactly when lines come before any test, and otherwise a switch exactly when it has a subject |
| Enclosing.Stretches | src/parser.c:1305-1326 | each branch of a conditional gets the lines from its test up to the next one, and the last goes up to the end |
| Weaving.Parser.ParseContent | src/parser.c:1265-1303 | text with conditionals inside leaves the three stacks as they were |
| Weaving.Parser.FixupBlock | src/parser.c:568-593 | a closed block goes into the branch just before it, if there is one, and otherwise stays a block |
| Weaving.Parser.CollectBlock | src/parser.c:594-623 | closes the innermost block exactly when its level is at least the given one |
| Weaving.Parser.CollectContext | src/parser.c:625-690 | closes every choice above the level, innermost first, and moves no line; the choice it hands out is a non-empty list of complete branches |
| Weaving.Parser.HandleContent | src/parser.c:841-860 | content closes nothing |
| Weaving.Parser.HandleChoiceBranch | src/parser.c:754-792 | a choice closes every open branch of its level or more, and opens its own, in the choice of the last branch it closed if there is one: no closed choice is left in front of it |
| Weaving.Parser.HandleGather | src/parser.c:794-839 | a gather closes every open branch of its level or more, and the choice it closed is kept inside it |
| Weaving.Parser.Stmt | src/parser.c:1646-1752 | one more line extends the placed lines by its own place and keeps the invariant of the stacks |
| Weaving.Tops | src/parser.c:418-511 | the invariant: blocks and choices alternate with strictly increasing levels, each block has the level of the choice beneath it, and offsets are monotone, so no stack assertion can fail |
| Weaving.CloseBlock | src/parser.c:594-623 | the closed block lies right behind its branch, and attaching it moves no line |
| Weaving.CloseChoice | src/parser.c:625-690 | making a choice of the innermost branches moves no line |
| RoundTrip.ParsePrint | src/parser.c:1053-1140 | every expression tree comes back from its printed tokens, each operator spelled as a word or as a symbol at its own choice; exactly those tokens are consumed, and no error is reported |
| Parentheses.FewestParens | src/parser.c:1053-1140 | any tokens at all that are read as a tree open at least as many parentheses as its printed form |
| Parentheses.NoneToSpare | src/parser.c:1053-1140 | so the printed form is minimal: without any one pair of its parentheses, the tokens are read as another tree or as none |
| RoundTrip.PrintInjective | src/parser.c:1053-1140 | different trees are never written alike, whatever the spelling of each |
| Precedence.Groups | src/parser.c:60-156 | with every operator token listed in its class, from = over or, and, the comparisons and + - to * / %: of two operators in a row the one of the tighter class takes the operand between them, in either order, and of two in one class the left one does, for any operands |
| Precedence.Builds | src/parser.c:87-124 | each of these tokens builds the operator it is written for |
| Precedence.BuildsNothing | src/parser.c:87-156 | any other token ends the expression |
| Precedence.Prefixes | src/parser.c:71-85 | ! and not build a negation, and - a change of sign, of the operand behind them |
| Precedence.Atoms | src/parser.c:1053-1066 | numbers, quoted text, names, true and false are operands that stand for themselves |
| RoundTrip.ArgumentLimit | src/parser.c:961-989 | a call takes 255 arguments, and one more is reported |
| RoundTrip.GroupsLeft | src/parser.c:1109-1140 | operators of one level group to the left |
| RoundTrip.PrefixBindsTighter | src/parser.c:1086-1107 | a prefix operator binds tighter than any infix operator |
| RoundTrip.UnclosedGroupAccepted | src/parser.c:1068-1079 | whatever token stands where the closing parenthesis of a group belongs, the parser goes on, without an error, exactly as if the opening one were not there |
| Parsing.ExprParser.InfixExpr | src/parser.c:1109-1140 | the loop over the tokens is the parser on values |
| Parsing.ExprParser.PrefixExpr | src/parser.c:1086-1107 | the same for prefix operators |
| Parsing.ExprParser.PrimaryExpr | src/parser.c:1053-1084 | the same for literals, names and groups |
| Parsing.ExprParser.IdentifierExpr | src/parser.c:991-1021 | the same for selectors and calls |
| Parsing.ExprParser.ArgList | src/parser.c:961-989 | the same for argument lists, with the limit of 255 |
| Collecting.Collector.Collect | src/gc.c:102-176 | the object list becomes the original list, in order, filtered to exactly the objects reachable from the roots; all marks are clear, every survivor was blackened once, the byte count is the sum of their sizes and the threshold follows from it |
| Collecting.Collector.NothingDangles | src/gc.c:24-82 | after a collection, and at all times, the name and every constant of a path on the list, and every key and value of a table on it, are on the list |
| Collecting.Collector.RootsStay | src/gc.c:115-139 | and so are the objects on the stack, the owned ones, the globals, the paths, the current path, the chosen id and the ids on offer |
| Collecting.Collector.MarkObject | src/gc.c:8-22 | marks an object once and puts it on the worklist |
| Collecting.Collector.BlackenObject | src/gc.c:24-82 | marks everything the object refers to and counts its size |
| Collecting.Collector.MarkRoots | src/gc.c:115-139 | every root the code scans is marked |
| Collecting.Collector.BlackenAll | src/gc.c:140-144 | the worklist runs empty, and each object on it was counted once |
| Marking.AllReached | src/gc.c:113-144 | when the worklist is empty, the marked objects are exactly the reachable ones, and so are the blackened ones, each once |
| Collecting.Collector.Mark | src/gc.c:113-144 | marking ends with exactly the reachable objects marked |
| Collecting.Collector.Sweep | src/gc.c:146-159 | unlinking through a moving pointer leaves the marked objects in their order, unmarked |
| Collecting.Collector.Own | src/gc.c:84-91 | an owned object is a root |
| Collecting.Collector.Disown | src/gc.c:93-100 | a disowned object stays a root, as its slot keeps the key |
| Collecting.RemoveKeys | src/gc.c:122-128 | removing a key from the set of owned objects changes none of the keys that are scanned as roots |
| Collecting.Collector.MemAlloc | src/story.c:57-84 | a request of some size collects exactly when the limit or the stress flag says so, and one of no size never does; without a collection the count grows by exactly what the request adds and the threshold stays, and with one the count is the size of the survivors and the threshold follows from it |
| Collecting.Collector.StartsExactly | src/story.c:57-84 | over any requests since the last collection: the next request starts one exactly when the size of what was left then and all requests since, this one included, add up to more than the threshold |
| Collecting.Collector.MemFree | src/story.c:86-93 | freeing never starts a collection |
| Collecting.Collector.ObjectNew | src/object.c:23-38 | a new object is the head of the list, in front of what a collection started by the request left, and its size is counted unless its own request started the collection |
| Collecting.Collector.ObjectFree | src/object.c:40-67 | freeing an object never starts a collection |
| HashMaps.HistoryRefines | src/hashmap.h:177-248 | over every sequence of inserts, overwrites, removes, lookups and resizes, each operation returns and replies what a plain map would, and the invariant holds at the end |
| HashMaps.ApplyRefines | src/hashmap.h:177-248 | each operation keeps the invariant and refines the map |
| HashMaps.ResizeHolds | src/hashmap.h:141-172 | a resize keeps the map and leaves at least two slots free |
| HashMaps.RoomLeft | src/hashmap.h:98-105 | as long as no resize is due, two slots are not counted yet |
| HashMaps.SlackGrows | src/hashmap.h:141-248 | the count exceeds the number of used slots by one more exactly when an insertion lands on a tombstone; removals and lookups leave the difference alone, and a resize makes it zero |
| HashMaps.CountsTwice | src/hashmap.h:198-223 | the smallest such history: insert, remove and insert one key, and one used slot is counted twice |
| HashMaps.LookupNever | src/hashmap.h:113-136 | with a load limit above 92 a lookup of a missing key never ends, after sixteen inserts |
| HashMaps.SafeLoads | src/hashmap.h:98-136 | probing ends in every history if and only if the load limit is at most 92; the limit of 80 used throughout is one of those |
| Probing.FindSlotFinds | src/hashmap.h:113-136 | probing ends whenever there is an empty slot, and finds the slot of the key, or a free slot that hides no key |
| Probing.NextSlot | src/hashmap.h:119-135 | masking the next index goes around all slots |
| Probing.CapacityIsPower | src/hashmap.h:85-91 | capacities are sixteen times a power of two |
| Probing.Stored | src/hashmap.h:198-223 | storing into the found slot, even on a tombstone, adds one entry, duplicates no key and hides none further along its path |
| Probing.Dropped | src/hashmap.h:232-248 | a tombstone removes one key and hides no other |
| Probing.SomeEmpty | src/hashmap.h:98-105 | fewer used slots than slots leaves one empty |
| HashMaps.HashMap.FindSlot | src/hashmap.h:113-136 | the probing loop ends and finds what probing on values finds |
| HashMaps.HashMap.Resize | src/hashmap.h:141-172 | the entries move to an array twice as large, tombstones stay behind, and the map is the same |
| HashMaps.HashMap.Insert | src/hashmap.h:198-223 | the map gains or overwrites the key, and the reply says which |
| HashMaps.HashMap.Remove | src/hashmap.h:232-248 | the map loses the key, or reports that it was missing; the count stays |
| HashMaps.HashMap.Lookup | src/hashmap.h:177-193 | exactly what the map holds |
| Tiling.Tiles | src/scanner.c:216-585 | over any sequence of calls, each with any grammar: tokens are in order and disjoint, only trivia and no NUL stand between them, every token but the end is non-empty and well formed, and the end comes within as many calls as there are characters |
| Tiling.TokenIsWellFormed | src/scanner.c:216-585 | each token has the shape of its kind: words and runs as long as they can be, keywords exactly by spelling, marks with the longest match, errors only for the four reasons |
| Tiling.TokenText | src/scanner.c:216-585 | a mark or keyword consists of the text that its kind is written with, kind by kind |
| Tiling.GapIsTrivia | src/scanner.c:491-559 | what is skipped splits into blanks, newlines, line comments and closed block comments |
| Tiling.GapIsWhole | src/scanner.c:491-559 | nothing skippable is left where a token starts |
| Tiling.OnlyOddStarsClose | src/scanner.c:527-556 | a block comment that holds only n stars is closed by the slash behind them if and only if n is odd; otherwise the rest of the source is an error |
| Tiling.KeywordIsSpelling | src/scanner.c:115-181 | a word is a keyword exactly when the table spells it |
| Scanning.Scanner.Find | src/scanner.c:216-585 | the state machine terminates and finds the token that maximal munch describes |
| Scanning.Scanner.NextToken | src/scanner.c:216-585 | each call extends the history of calls by the token that the grammar on top of the stack asks for |
| Scanning.Scanner.TryKeyword | src/scanner.c:203-214 | retypes a token exactly when it is spelled like the keyword |
| Scanning.Scanner.PushMode | src/scanner.c:79-93 | the guard as it stands: up to depth 126 the grammar is kept in its place, at depth 127 the push is let in although its place is outside the array, and at depth 128 it is refused |
| Scanning.Scanner.PopMode | src/scanner.c:95-102 | pops a grammar unless only the base is left |
| Scanning.Scanner.Rewind | src/scanner.c:107-113 | scanning starts again at an earlier offset |
| Scanning.Scanner.PushModes | src/scanner.c:79-93 | of any number of nested grammars the first 127 are kept in order, the next one is let in without a place, and all others are refused |
| Streams.History | src/stream.c:56-128 | over any history of writes, trims and reads, what was handed out and what waits make up everything written, in order, without some of its newlines, and what was handed out stays handed out |
| Streams.TrimRefines | src/stream.c:71-86 | trimming strips trailing newlines of what waits, and nothing that was read |
| Streams.ReadRefines | src/stream.c:96-128 | reading hands out the first waiting line |
| Streams.Stream.Write | src/stream.c:56-69 | the buffer with its cursor after a write |
| Streams.Stream.Trim | src/stream.c:71-86 | the in-place loop trims exactly the waiting newlines |
| Streams.Stream.IsEmpty | src/stream.c:88-94 | true exactly when nothing waits |
| Streams.Stream.ReadLine | src/stream.c:96-128 | hands out the next line, and reports whether there was one |
| Arenas.AlignedUp | src/arena.c:35-43 | the size rounded up to the next multiple of the alignment, and no further |
| Bits.AndNotMask | src/arena.c:35-43 | clearing the bits of a mask subtracts the remainder |
| Arenas.BlockAlloc | src/arena.c:70-106 | the next region of the block, or the start of a new block chained behind it |
| Arenas.Arena.Allocate | src/arena.c:150-190 | over any allocations, regions are aligned in their block, in bounds and pairwise disjoint, the current block is the last of the chain, and the counters add up |
| Bits.AndMask | src/hashmap.h:116-119 | masking with a capacity minus one is the remainder |
| Weaving.Parser.CollectOne | src/parser.c:646-676 | one choice is closed, or goes on at the new level, as the levels demand |

## Left out

- Meaning.EvalExpr: unary minus, selectors and calls through anything but a name are outside the evaluator's domain; negation changes a shared object in place at run time (src/story.c:666-684), so it has no value semantics.
- Meaning.EvalStmt: a story with choices has no evaluation, as no jump follows the body of a branch (src/astgen.c:1435-1457); what a choice statement offers and which branch is entered is proved of the machine, up to the first byte of the body. A plain divert to a path that takes parameters has no evaluation either: the machine takes what lies on top of its stack.
- Picking.Pick: the offers are taken from the list of the story; the cursor of `ink_story_choice_next` (src/story.c:1059-1066) is not modelled.
- Meaning.EvalStory: division by zero, ill-typed operands and a run that needs more than 128 cells or frames have no evaluation; nothing is claimed about the output of such runs.
- Astgen.Generator.Expr: floats, and calls through anything but a name, are rejected here; the source compiles them.
- Astgen.Generator.CallExpr: takes the name of a path; qualified names (src/astgen.c:750-792) are not modelled.
- Astgen.Generator.Stmt: a gather line on its own has no code here; gathered statements are not modelled.
- Astgen.Generator.KnotDecl: a path without stitches, with at most 255 parameters.
- Astgen.Generator.File: knots with stitches, stitches, gathered statements, floats and inline conditionals (src/astgen.c:890-904) are not in the trees it takes, and it stops at the first error where the source goes on to collect more; it takes at most 255 parameters to a path and no path named like the main one.
- Astgen.Generator.VarDecl: variables are stored by name among the globals, which is what the code does for VAR, CONST and temp alike; a call or a divert whose target is hidden by a variable is not modelled.
- Stories.Story.Exec: a method here must end, so it is for runs of the machine that end; of a run that does not, Turns says what its first turns do. Unary minus faults in this machine.
- Stories.Story.Peek: below the bottom of a stack that is not empty it finds nothing, and the operators fault; the source reads outside its array (src/story.c:349-356).
- Stories.Story.Call: reserving locals beyond the end of the stack faults here; the source reserves them without a check.
- Stories.Story.Divert: the same as Call for locals beyond the end of the stack.
- Stories.Story.Continue: for calls that return, which is what its ghost argument says: the source loops forever when the machine does, and when it stops for good with nothing to read, to choose from or to exit from.
- Telling.Tell: requires text without NUL bytes, as sources have none.
- Collecting.Collector.Collect: takes the roots as given and starts from an object list in order with every mark clear; that the machine never leaves an unlisted object in an uncleared local is not claimed. The set of owned objects is the hash map of this project; its initial allocation is not counted.
- HashMaps.HashMap.constructor: takes a limit of at most 92, where the source asserts below 100; above that probing may never end, as SafeLoads says.
- Arenas.Arena.Allocate: release (src/arena.c:197-210) is left out; it keeps the allocation counters, so that the assertion of the next allocation fails.
- Scanning.Scanner.PushMode: the mode that the source writes one place outside its array is dropped; what that write overwrites is not modelled.
- Scanning.Scanner.NextToken: is not called at depth 128, where the source reads the mode from outside its array; the history it extends starts again at each rewind.
- Weaving.Parser.ParseFile: knots, stitches and functions, and recovery from syntax errors, are not modelled; lines are given as their kinds, levels and content, so reading them from tokens is not modelled either. Levels are positive.
- Parsing.ExprParser.PrefixExpr: the divert arrow as a prefix is not modelled.
- Parsing.ExprParser.PrimaryExpr: floats are not modelled, and a quoted string is one token.
- RoundTrip.ParsePrint: diverts and quoted strings with logic inside are not part of the expression trees; literals are converted by the scanner.
- Parsing.ExprParser.Token: tokens are given with their grammar already chosen; the grammar stack of the scanner is modelled apart from the parser.
- Runtime string tables (src/object.c:244-378) have plain map semantics: the hash of a string is never set, so their probing degenerates.
- Integers are unbounded, except the one-byte and two-byte operands; number formatting follows `%ld`.
- Running out of memory, panics, file loading, the command line, tracing, rendering of errors and trees.
