# STELA, modelled and verified in Dafny

STELA compiles a small statically typed language to LLVM. The calls that build
LLVM instructions are not visible to a proof, but the algorithms around them
are complete in the source. This project models six of them and proves what
they are for.

**The runtime of reference-counted arrays** (`Types`, `HeapState`,
`HeapTheorems`, `Lifetime`, `Growth`, `Builtin`, `Compare`). The compiler emits
a function for every lifetime operation of every type. They are modelled as
methods of a class `Heap` over one address space of cells and a table of array
storages (`ref`, `cap`, `len`, `dat`), nested arrays and structs included. The
invariant says that every live storage counts exactly the initialised handles to
it, that blocks do not overlap and that exactly the first `len` slots of a block
are initialised; it is kept through recursive destruction, self-assignment and
reallocation. Operations that are in the middle of something take two ghost
arguments: `extra`, the handles held outside memory, and `busy`, the storages
being changed. A cell is `Raw` before its object is constructed and after it is
destroyed; this is a notion of the model, there is no such mark at run time.

**Code generation for expressions** (`Lives`, `ExprSem`, `ExprGen`). Expressions are
trees of what makes objects or decides what is evaluated: operands, arguments, new
objects, members, `&&`, `||`, `!` and `?:`. `ExprSem.Eval` says for every outcome of
the decisions which objects an evaluation makes, and in which order. The visitor of
`ExprGen` writes the blocks for an expression, and they are proved to do that.
Temporaries are registered on the way, on whichever path they are constructed.

**Code generation for statements** (`StatSem`, `StatWritten`, `StatProof`,
`StatCompile`, `StatShape`, `StatRight`, `StatSound`, `StatReach`, `StatCount`,
`StatWrong`, `StatFunction`, `StatGen`, `Traces`). The visitor keeps a compile-time stack of
scopes, the targets of break and continue and the block it is writing. Statements
get two meanings. In the first (`StatSem`), every way of leaving a scope destroys
what was constructed in it; blocks, bodies of loops, cases and functions are
scopes, and so is a statement for the objects that its expressions make. The second
(`StatWritten`) is what the visitor writes: jumps and ends of blocks and statements
destroy what stands on the compile-time stack. The generated code, run by a machine
for blocks of instructions, is proved to do the second for every statement
whatsoever. `StatRight` defines, by a look at the tree, when both are the same, and
that condition is proved to be exact. Runs of every length are covered: a run is
given an answer for each evaluation of an expression it comes to, and waits where
there is none left. To this machine all that was written for an expression is one
instruction, `Calc`, which does what `Eval` says. `Traces` says what runs come to event
by event, for the simple statements with all expressions and for programs that leave
every kind of statement in every way.

Objects are those whose destructor does something. Numbers have none
(src/CodeGen/lifetime exprs.cpp:153-156): to declare a number is to assign it, and a
call that returns one makes no object.

**The analysis of missing returns** (`MissingReturn`), which decides which
functions return on every path, inserts the Terminate nodes and marks the switches
that code generation relies on. Of functions of blocks without `break` and `continue`
it is proved to be exact: it accepts those in which every statement can be reached and
every run returns.

**Semantic analysis** (`Sorting`, `Modules`, `Capture`, `TypeEq`, `Aliases`):
the order in which modules are compiled, capture through nested lambdas, and
equality of types through weak and strong aliases.

**The parser of types and expressions** (`Syntax`, `Parser`, `RoundTrip`, `Ladder`): a
ladder of twelve levels, proved to be the exact inverse of a printer that puts
parentheses only where a level demands them. `Ladder` spells out the tree of every
operator and form, token by token, without reference to levels and printer.

Methods follow the source's steps and are proved against functions or
predicates on values; the lemmas then say what these mean.

## What turned out not to hold as promised

- Temporaries are not always right. What a condition registers is destroyed when the
  condition is done, whether or not it was constructed: in `if (a && f().m)` and
  `while (i < n && get(i).flag)` the object that `f` or `get` returns is destroyed even
  if the left operand was false (`ExprSem.SkippedTemporary`,
  `StatFunction.SkippedInLoop`). A new object that is visited for its value gets a slot
  that nobody registers: neither operand of `f() == g()` is ever destroyed
  (`ExprSem.OperandsLost`), nor is the result of a call that stands as a statement.
  For all expressions, nothing is destroyed that was not constructed if and only if no
  operand that may be skipped makes a temporary (`ExprSem.CertainDecides`), nothing
  leaks if and only if no new object is visited for its value (`ExprSem.OwnedDecides`),
  and every evaluation destroys exactly what it has constructed, in reverse order, if
  and only if both hold (`ExprSem.BalancedDecides`). `Right`, below, asks this of every
  expression that can be reached.
- Nested `&&`, `||` and `?:` do not compile. The phi of `&&` and `||` names the blocks in
  which the operands were begun, not those in which they ended, and the branches of
  `?:` are linked to its end at the blocks in which they were begun. In `a && b && c`
  the phi names a block that does not jump to it, in `a ? b : c ? d : e` a block gets
  two terminators, and LLVM rejects the module. `ExprGen.GenerateExpr` states the
  exact condition for all expressions: the blocks are valid if and only if no operand
  of `&&` or `||` and no branch of `?:` branches itself. What is said of functions
  below is meant for functions of such expressions.
- Lifetimes are not always right. The body of an `if` that is not a block
  (`if (c) var x = y;`, `if (c) return f().m;`) pushes its objects onto the scope
  around it, and the path past the body then destroys objects that were never
  constructed. The body of a loop or case that is not a block (`while (c) var x = y;`)
  leaves its variable in a scope that nobody destroys. The increment of a `for` may
  be a declaration (`for (; c; x := f())`): its variable is destroyed at the end of
  the loop even if no turn was made, and only once if there were many
  (`StatFunction.IncrementNeverRuns`). `StatGen.GenerateStat` states the exact
  condition for all functions: every run of the code constructs before it destroys,
  in reverse order, and returns with everything destroyed, if and only if `Right`
  holds. `Right` follows which statements can be reached, with all of the innermost
  scope alive or not, and asks that a scope is whole where it is destroyed and empty
  where it is left without that, and expressions balanced; `StatFunction.LoneIf`, `LoneWhile` and `LoneFor`
  show what it comes to in small functions. The code does what the statements mean
  whenever it holds. Functions whose bodies are blocks, whose increments declare nothing
  and whose expressions are balanced satisfy it if their marks are right
  (`StatFunction.BlocksAreRight`).
- Code can be invalid although it does the right thing. In
  `while (c) { var a = [..]; if (x) { continue; } break; }` the analysis of missing
  returns takes the body for one that may go on and appends a Terminate node; its
  destructors and the branch back are then written behind the branch of the `break`
  (`StatGen.WrittenBehindBreak`, `MissingReturn.TerminateBehindBreak`). LLVM rejects
  such a block. `StatGen.GenerateStat` states the exact condition for all functions:
  every block ends in its only terminator if and only if `FormedSeq` and `ClosedSeq`
  hold, that is, nothing is written behind a statement that closes its block, neither
  a statement nor a destructor for a Terminate node, and the last block is closed.
- The analysis of missing returns overlooks breaks: an `if` that breaks in one
  branch and may return in the other is reported as one that may return. A case
  `{ if (a) { break; } else if (b) { return; } return; }` is taken for one that always
  returns, so that its switch can be marked as always returning, and a run that
  breaks comes to an instruction that was to be unreachable
  (`MissingReturn.FalselyAlwaysReturns`). A mark on a switch over blocks is right if
  and only if no case can break (`MissingReturn.MarkDecides`); functions of blocks
  whose marks are right are compiled rightly (`MissingReturn.CheckedIsRight`).
- The same analysis is to reject a `continue` in the last case of a switch, which has
  nowhere to go. `switch (v) { default { if (a) { continue; } return; } }` passes it,
  because the case is found to return, and then fails an assertion of code generation
  (`MissingReturn.ContinueOverlooked`); `switch (v) { default { if (a) { break; } else { } } }`
  has no `continue` and is rejected for it (`MissingReturn.BreakTakenForContinue`). Given
  what the traversal has established, every jump has a target if and only if no
  `continue` belongs to a last case (`MissingReturn.LegalDecides`); an accepted function
  is such a function if and only if no last case with a `continue` was found to break or
  return (`MissingReturn.AcceptedIsLegal`). `MissingReturn.CompileFunction` fails exactly
  on the others.
- The comparison of arrays advances a pointer over the elements. For elements
  that occupy no memory, such as empty structs, it compares nothing, and two
  arrays of different lengths are then neither less, equal nor greater.
  `Compare.TotalOrderIffSized` gives the exact condition.
- Strong aliases are told apart by name only, so two of them in different scopes
  can be one type. `TypeEq.StrongAliasesApart` and `Aliases.AliasMeans` give the
  exact conditions.

## Model

| member | source | states |
|---|---|---|
| `HeapTheorems.EmptyHeap` | src/CodeGen/generate pointer.cpp:64-106 | the empty heap keeps the invariant: every run starts with it |
| `HeapTheorems.LiveIsReachable` | src/CodeGen/generate pointer.cpp:64-106 | in every state that keeps the invariant, a storage that has not been freed is reached from a variable by a chain of handles: counting leaks nothing, not even through nested arrays |
| `HeapTheorems.NothingLeaks` | src/CodeGen/generate pointer.cpp:64-106 | once no variable holds a handle, every storage has been freed |
| `HeapTheorems.NothingDangles` | src/CodeGen/generate pointer.cpp:35-106 | what a handle points to has not been freed and counts it |
| `HeapTheorems.SweepIsUnique` | src/CodeGen/generate pointer.cpp:166-198 | which storages an assignment or destruction frees, every cell and every count after it are determined by the state before and the cells it writes |
| `HeapTheorems.DropIsUnique` | src/CodeGen/lifetime exprs.cpp:153-174 | destruction of a range of objects has exactly one outcome |
| `HeapTheorems.AssignIsUnique` | src/CodeGen/lifetime exprs.cpp:108-129 | so has copying one object over another |
| `HeapTheorems.CopyDropped` | src/CodeGen/lifetime exprs.cpp:62-83 | destroying a fresh copy restores memory and every count |
| `HeapTheorems.MoveDropped` | src/CodeGen/lifetime exprs.cpp:85-106 | moving and destroying what is left is a relocation that changes no count |
| `HeapTheorems.EraseIsDrop` | src/CodeGen/lifetime exprs.cpp:153-174 | objects that hold no handle are destroyed by forgetting them, whatever their type |
| `Types.LeafRank` | src/CodeGen/generate array.cpp:261-283 | a handle inside an object leads to a storage of a type of lower rank, which bounds the recursion of destruction |
| `Lifetime.Heap.PtrInc` | src/CodeGen/generate pointer.cpp:35-61 | takes one more counted pointer, null allowed, and keeps the invariant |
| `Lifetime.Heap.PtrDec` | src/CodeGen/generate pointer.cpp:64-106 | gives up one counted pointer; with the last one the storage is destroyed, its block given back and everything it alone held released, recursively; nothing else changes |
| `Lifetime.Heap.PtrDtor` | src/CodeGen/generate pointer.cpp:109-133 | ends the life of a handle and keeps every count exact |
| `Lifetime.Heap.PtrCopCtor` | src/CodeGen/generate pointer.cpp:136-163 | the copy is the same handle and is counted |
| `Lifetime.Heap.PtrMovCtor` | src/CodeGen/generate pointer.cpp:201-226 | the handle moves, the source is null, no count changes |
| `Lifetime.Heap.PtrCopAsgn` | src/CodeGen/generate pointer.cpp:166-198 | the destination becomes the source, also when both are the same cell |
| `Lifetime.Heap.PtrMovAsgn` | src/CodeGen/generate pointer.cpp:229-261 | the destination takes the handle, the source is null, the old value is released |
| `Lifetime.Heap.ArrStrgDtor` | src/CodeGen/generate array.cpp:261-283 | destroys exactly the first `len` elements of a storage |
| `Lifetime.Heap.Destroy` | src/CodeGen/lifetime exprs.cpp:153-174 | ends the life of an object of any type, by type, and keeps every count exact |
| `Lifetime.Heap.DestroyFields` | src/CodeGen/generate struct.cpp:20-40 | a struct is destroyed field by field |
| `Lifetime.Heap.CopyConstruct` | src/CodeGen/lifetime exprs.cpp:62-83 | a copy of any type equals its source and only raises counts |
| `Lifetime.Heap.MoveConstruct` | src/CodeGen/lifetime exprs.cpp:85-106 | moves an object of any type and leaves null handles behind |
| `Lifetime.Heap.CopyAssign` | src/CodeGen/lifetime exprs.cpp:108-129 | the destination becomes the source, its old parts are released, the source stays; self-assignment allowed |
| `Lifetime.Heap.MoveAssign` | src/CodeGen/lifetime exprs.cpp:131-151 | the destination takes the parts of the source, its old parts are released |
| `Lifetime.Heap.DefConstruct` | src/CodeGen/lifetime exprs.cpp:20-60 | zero numbers and new empty arrays, in raw memory only |
| `Lifetime.Heap.ArrDefCtor` | src/CodeGen/generate array.cpp:39-68 | a new storage with one handle, no capacity and no elements |
| `Lifetime.Heap.Construct` | src/CodeGen/lifetime exprs.cpp:176-194 | copies lvalues and moves xvalues into raw memory; a prvalue that is not a number has been built in place and nothing changes |
| `Lifetime.Heap.Assign` | src/CodeGen/lifetime exprs.cpp:196-214 | copies lvalues, moves xvalues, and moves and destroys prvalues: a temporary is neither leaked nor released twice |
| `Lifetime.Heap.CopyThenDestroy` | src/CodeGen/lifetime exprs.cpp:62-174 | copying and destroying the copy leaves memory and all storages as they were, for every type |
| `Lifetime.Heap.MoveThenDestroy` | src/CodeGen/lifetime exprs.cpp:85-174 | moving and destroying the source only changes where the object is, for every type |
| `Growth.CeilToPow2` | src/CodeGen/generate func.cpp:88-116 | for 1 <= n < 2^31, subtract, count leading zeros and shift give the least power of two that is not below n; it is below 2n and fits 32 bits |
| `Growth.GrowthIsAmortised` | src/CodeGen/generate builtin.cpp:340-369 | the capacities that n pushes lead to are powers of two below 2n, and add up to one relocation less than the capacity |
| `Builtin.PushTimes` | src/CodeGen/generate builtin.cpp:318-372 | after n pushes onto a new array its elements are n copies of the value, its capacity is a power of two below 2n, and the operations have moved exactly one element less than that |
| `Builtin.MoveN` | src/CodeGen/generate builtin.cpp:115-198 | moves elements to raw memory; block copy and loop have the same effect on values, counts and lives |
| `Builtin.MoveLoop` | src/CodeGen/generate builtin.cpp:163-198 | the loop of move and destroy relocates its range and changes no count |
| `Builtin.CopyN` | src/CodeGen/generate builtin.cpp:115-198 | copies elements to raw memory; block copy, where it is used, does what the loop does |
| `Builtin.Reallocate` | src/CodeGen/generate builtin.cpp:213-251 | the elements are in a new block of the given capacity, the old block is raw, all else is unchanged |
| `Builtin.PushBack` | src/CodeGen/generate builtin.cpp:318-372 | the elements are the old ones and a copy of the value; the capacity is as `PushCap` says |
| `Builtin.Append` | src/CodeGen/generate builtin.cpp:375-425 | the elements are those of both arrays, also when both are the same array and it is reallocated |
| `Builtin.AssignElem` | src/CodeGen/lifetime exprs.cpp:108-129 | assigning to an element of an array at rest copies the source over it, releases its old parts, leaves the other elements and keeps the invariant |
| `Builtin.PopBack` | src/CodeGen/generate builtin.cpp:428-467 | panics on an empty array and changes nothing, else the last element is destroyed and the others stay |
| `Builtin.Resize` | src/CodeGen/generate builtin.cpp:470-537 | destroys surplus elements or adds default constructed ones, the others stay |
| `Builtin.Reserve` | src/CodeGen/generate builtin.cpp:540-575 | only ever raises the capacity; the elements stay |
| `Compare.Eq` | src/CodeGen/compare exprs.cpp:37-54 | two objects of any type compare equal exactly if their values are equal, numbers if their bits are |
| `Compare.ArrEq` | src/CodeGen/generate array.cpp:335-376 | the loop over two pointers decides equality of the element sequences |
| `Compare.SrtEq` | src/CodeGen/generate struct.cpp:102-135 | so does the chain over fields, with its early exit |
| `Compare.Lt` | src/CodeGen/compare exprs.cpp:60-77 | decides the order on values, by type: `char` and `sint` as signed numbers of 8 and 32 bits, `bool`, `byte` and `uint` as unsigned ones |
| `Compare.ArrLt` | src/CodeGen/generate array.cpp:379-425 | the loop decides the recursive order on element sequences |
| `Compare.SrtLt` | src/CodeGen/generate struct.cpp:138-181 | fields are compared until they differ |
| `Compare.Ne` | src/CodeGen/compare exprs.cpp:56-58 | holds exactly if the values differ |
| `Compare.Gt` | src/CodeGen/compare exprs.cpp:79-81 | is less with the operands swapped |
| `Compare.Le` | src/CodeGen/compare exprs.cpp:83-85 | on sized types, negating greater gives less or equal |
| `Compare.Ge` | src/CodeGen/compare exprs.cpp:87-89 | on sized types, negating less gives greater or equal |
| `Compare.ElemsLessIsLexicographic` | src/CodeGen/generate array.cpp:379-425 | the order of arrays is the lexicographic one: a proper prefix, or the first difference decides |
| `Compare.FieldsLessIsLexicographic` | src/CodeGen/generate struct.cpp:138-181 | structs are ordered by the first field that differs |
| `Compare.Trichotomy` | src/CodeGen/compare exprs.cpp:37-89 | exactly one of less, equal and greater, for every sized type |
| `Compare.Transitive` | src/CodeGen/compare exprs.cpp:60-77 | less is transitive, for every sized type |
| `Compare.TotalOrderIffSized` | src/CodeGen/generate array.cpp:295-330 | the operators order all values of a type exactly if no array in the type has elements without cells |
| `Compare.HoldsReadable` | src/CodeGen/generate array.cpp:295-330 | in a heap that keeps the invariant every object can be compared unless an array was moved from |
| `Lives.YoungestFirst` | src/CodeGen/generate stat.cpp:359-365 | what counts as right: objects of one kind end in reverse order, each once, and only after they began |
| `ExprSem.EvalTells` | src/CodeGen/generate expr.cpp:36-57 | the events of any evaluation begin and end objects in order, and leave exactly the objects it is said to have made |
| `ExprSem.BalancedDecides` | src/CodeGen/generate stat.cpp:54-64 | a condition destroys exactly what it has constructed, on every path and in reverse order, if and only if no operand that may be skipped makes a temporary and no new object is visited for its value |
| `ExprSem.CertainDecides` | src/CodeGen/generate expr.cpp:406-416 | nothing is destroyed unconstructed if and only if no operand that may be skipped makes a temporary |
| `ExprSem.OwnedDecides` | src/CodeGen/generate expr.cpp:135-172 | an expression leaks nothing if and only if no new object is visited for its value |
| `ExprSem.SkippedTemporary` | src/CodeGen/generate expr.cpp:103-121 | `a && f().m` with `a` false: all that happens is the destruction of what `f` did not return |
| `ExprSem.OperandsLost` | src/CodeGen/generate expr.cpp:290-313 | `f() == g()`: both results are constructed and neither is destroyed |
| `ExprGen.Visitor.Visit` | src/CodeGen/generate expr.cpp:36-57 | the blocks written for an expression are valid exactly if it is flat, and then, in every program that contains them, evaluate it as `Eval` says and come to the block that is current; otherwise they can no longer become valid |
| `ExprGen.Visitor.VisitPair` | src/CodeGen/generate expr.cpp:135-196 | the same for operands, arguments and assignments |
| `ExprGen.Visitor.VisitPart` | src/CodeGen/generate expr.cpp:406-441 | the same for new objects, members, which register what they materialise, and `!` |
| `ExprGen.Visitor.VisitBool` | src/CodeGen/generate expr.cpp:52-81 | a new object whose truth is wanted is destroyed behind it |
| `ExprGen.Visitor.VisitShort` | src/CodeGen/generate expr.cpp:83-121 | the same for the short-circuit operators, with the phi on the blocks in which the operands were begun |
| `ExprGen.Visitor.VisitChoose` | src/CodeGen/generate expr.cpp:512-562 | the same for `?:`, with both branches linked at the blocks in which they were begun |
| `ExprGen.ShortCompiled` | src/CodeGen/generate expr.cpp:83-121 | blocks, branch and phi of a short circuit evaluate it if both operands stay in their blocks, and are spoilt if one does not |
| `ExprGen.ChooseCompiled` | src/CodeGen/generate expr.cpp:512-562 | the same for the blocks of a choice |
| `ExprGen.ChainIsSpoilt` | src/CodeGen/generate expr.cpp:103-121 | `a && b && c` is compiled into blocks that are not valid, whatever its operands are |
| `ExprGen.GenerateExpr` | src/CodeGen/generate expr.cpp:786-815 | for every expression: the temporaries that are registered; the blocks are valid if and only if no operand of a short-circuit operator and no branch of `?:` branches, and then evaluate it |
| `StatSem.ExecTidy` | src/CodeGen/generate stat.cpp:359-365 | in the meaning of statements, every path destroys what it constructs once and in reverse order, expressions included, except for what the scope around it destroys later |
| `Traces.AssignRuns` | src/CodeGen/lifetime exprs.cpp:196-214 | `dst = src;` for all expressions: left side, right side, the assignment, then the end of the value if that is a new object, then the temporaries; the function is right if and only if both sides are balanced and the left one is no new object |
| `Traces.AssignedAndDropped` | src/CodeGen/generate stat.cpp:367-386 | the run of `x = f();` is exactly construction, assignment and destruction of the result; that of `f();` lacks the destruction, and is not right |
| `Traces.CallRuns` | src/CodeGen/generate stat.cpp:382-386 | a call that stands alone destroys its temporaries and nothing else; the function is right if and only if the call is balanced and makes no object |
| `Traces.DeclareRuns` | src/CodeGen/generate stat.cpp:332-351 | the initial value is built in the variable, temporaries end, and the variable ends with the function; right if and only if the expression is balanced |
| `Traces.ReturnRuns` | src/CodeGen/generate stat.cpp:254-292 | the result is built where the caller wants it and temporaries end; right if and only if the expression is balanced |
| `Traces.ConditionRuns` | src/CodeGen/generate stat.cpp:54-64 | a new object in the place of a condition ends as soon as its truth is known, temporaries before the branch |
| `Traces.SwitchRuns` | src/CodeGen/generate stat.cpp:118-209 | temporaries of a test end with the test, those of the value with the switch |
| `Traces.OperandsRun` | src/CodeGen/generate expr.cpp:135-196 | operands and arguments are evaluated from the left, an object behind its parts, a member behind its object; only members of new objects make temporaries |
| `Traces.ShortCircuits` | src/CodeGen/generate expr.cpp:83-121 | the right operand is evaluated only if the left one has not decided |
| `Traces.NegationRuns` | src/CodeGen/generate expr.cpp:52-81 | where a truth is wanted, a new object ends at once |
| `Traces.ConditionalRuns` | src/CodeGen/generate expr.cpp:512-562 | one branch is evaluated, into the place of the result |
| `Traces.IfRuns` | src/CodeGen/generate stat.cpp:94-113 | one branch or the other, event by event |
| `Traces.WhileRuns` | src/CodeGen/generate stat.cpp:293-305 | a loop of three turns, one that continues, one that goes on to its end and one that breaks, event by event |
| `Traces.ForRuns` | src/CodeGen/generate stat.cpp:306-330 | the increment is run behind every turn, also one that continues, and what the start declares ends with the loop |
| `Traces.CasesRun` | src/CodeGen/generate stat.cpp:118-198 | the default case is only for when no test succeeds, wherever it stands; a case ends the switch unless it continues |
| `Traces.ReturnLeavesAll` | src/CodeGen/generate stat.cpp:282-292 | returning from a loop in a block ends the variables of all scopes, the innermost ones first |
| `StatGen.Visitor.Destroy` | src/CodeGen/generate stat.cpp:359-365 | emits the destructors of all scopes from the innermost out to the given one, each in reverse order, and leaves the stack of scopes alone |
| `StatSound.Sound` | src/CodeGen/generate stat.cpp:87-330 | where the condition holds, what the visitor writes for a statement is what the statement means, and on the way out exactly what is alive is destroyed |
| `StatWrong.Wrong` | src/CodeGen/generate stat.cpp:87-330 | where it does not, some run destroys what is not alive, loses an object for good, or comes to an instruction that was to be unreachable |
| `StatGen.Visitor.Visit` | src/CodeGen/generate stat.cpp:87-330 | the code appended for any statement does, in every program that contains it and for every outcome of its conditions, what was written with the stack of scopes at that point; its blocks are valid exactly if nothing was written behind a terminator |
| `StatGen.Visitor.GenExpr` | src/CodeGen/generate stat.cpp:45-53 | an expression is written, and its temporaries are registered with the innermost scope |
| `StatGen.Visitor.EvalExpr` | src/CodeGen/generate stat.cpp:367-386 | temporaries, and a new object that is assigned or tested, end with the statement |
| `StatGen.Visitor.GenCondBr` | src/CodeGen/generate stat.cpp:54-64 | the temporaries of a condition are destroyed before the branch on it |
| `StatGen.Visitor.VisitBlock` | src/CodeGen/generate stat.cpp:87-93 | the same for blocks, with the destructors of the inserted Terminate node, wherever it stands |
| `StatGen.Visitor.VisitIf` | src/CodeGen/generate stat.cpp:94-113 | the same for branches whose end is only made if a branch gets there |
| `StatGen.Visitor.VisitWhile` | src/CodeGen/generate stat.cpp:293-305 | the same for `while` |
| `StatGen.Visitor.VisitFor` | src/CodeGen/generate stat.cpp:306-330 | the same for `for`, with what its start and its increment declare |
| `StatGen.Visitor.VisitSwitch` | src/CodeGen/generate stat.cpp:176-209 | the same for switches with any number of cases |
| `StatGen.Visitor.VisitBreak` | src/CodeGen/generate stat.cpp:213-217 | destroys the scopes within the loop or switch and goes to its end |
| `StatGen.Visitor.VisitContinue` | src/CodeGen/generate stat.cpp:218-222 | destroys the same scopes and goes to the next turn or case |
| `StatGen.Visitor.VisitReturn` | src/CodeGen/generate stat.cpp:282-292 | destroys all scopes of the function |
| `StatGen.Visitor.VisitPlain` | src/CodeGen/generate stat.cpp:332-381 | temporaries end with the statement, the declared variable is left to its scope |
| `StatGen.Visitor.EmitCaseChecks` | src/CodeGen/generate stat.cpp:133-159 | every case with a test gets its own check block despite the index shift behind the default case |
| `StatGen.Visitor.EmitCaseBodies` | src/CodeGen/generate stat.cpp:160-175 | every case body is compiled into its own block with the next case as target of continue |
| `StatProof.DispatchRuns` | src/CodeGen/generate stat.cpp:118-198 | the chain of checks reaches the first case in source order whose test succeeds, else the default case wherever it stands, else the end |
| `StatProof.ChecksTerminated` | src/CodeGen/generate stat.cpp:133-198 | every check block ends in exactly one terminator |
| `StatProof.SwitchSim` | src/CodeGen/generate stat.cpp:176-209 | checks, bodies and the end of a switch together do what was written for it |
| `StatProof.IfSim` | src/CodeGen/generate stat.cpp:94-113 | both branches and the branch on the condition together do what was written for the `if`, the else branch with the objects of the body on the stack |
| `StatProof.LoopMeets` | src/CodeGen/generate stat.cpp:293-330 | any number of turns of a loop, however each ends, does what was written for it |
| `StatProof.JumpSim` | src/CodeGen/generate stat.cpp:213-222 | break and continue arrive with exactly the inner scopes destroyed |
| `StatGen.GenerateStat` | src/CodeGen/generate stat.cpp:424-445 | every run of the code of any function does what was written; if `Right` holds it does what the statements mean; given that declarations are different objects, every run destroys what it constructed once, in reverse order, and returns with nothing left, if and only if `Right` holds; all blocks end in their only terminator if and only if `FormedSeq` and `ClosedSeq` hold |
| `StatFunction.RightDecides` | src/CodeGen/generate stat.cpp:87-365 | the condition is exact for what is written, for all functions |
| `StatFunction.BlocksAreRight` | src/CodeGen/generate stat.cpp:87-113 | functions of blocks satisfy it, given Terminate nodes where a block can be left at its end, true marks on switches, balanced expressions and increments that declare nothing |
| `StatFunction.LoneFor` | src/CodeGen/generate stat.cpp:306-330 | for a `for` and a return the condition is that expressions are balanced, that of the increment only if it can be reached, that the increment declares nothing and that the body, itself right, leaves nothing |
| `StatFunction.LoneWhile` | src/CodeGen/generate stat.cpp:293-305 | for a `while` and a return, that both expressions are balanced and the body, itself right, leaves nothing |
| `StatFunction.LoneIf` | src/CodeGen/generate stat.cpp:94-113 | for an `if` and a return, that both expressions are balanced and the body, itself right, pushes nothing |
| `StatFunction.IncrementNeverRuns` | src/CodeGen/generate stat.cpp:322-330 | if the increment declares a variable, a run without turns destroys it unconstructed |
| `StatFunction.SkippedInLoop` | src/CodeGen/generate stat.cpp:293-305 | `while (a && f().m) { }` is not right, and its first run with `a` false is not clean |
| `StatGen.WrittenBehindBreak` | src/CodeGen/generate stat.cpp:210-217 | a loop of blocks that is right and yet is compiled into a block with a terminator in the middle |
| `MissingReturn.Visitor.Visit` | src/Semantic/check missing return.cpp:22-129 | computes the marked statement and what is known about how statements are left, as `Check` says, stale knowledge included |
| `MissingReturn.Visitor.VisitBlock` | src/Semantic/check missing return.cpp:22-45 | the same for blocks: unreachable code, and the Terminate node |
| `MissingReturn.Visitor.VisitIf` | src/Semantic/check missing return.cpp:46-61 | the same for branches |
| `MissingReturn.Visitor.VisitSwitch` | src/Semantic/check missing return.cpp:62-99 | the same for switches: the counts of cases and the mark |
| `MissingReturn.CheckMissingRet` | src/Semantic/check missing return.cpp:168-188 | nothing is added to a function that has to return something, and to others only a return at the end, unless the body was found to be always left; what is accepted never comes to its end, if bodies are blocks and marks are right; without `break` and `continue`, acceptance is exactly that every statement can be reached and, where something has to be returned, every run returns |
| `MissingReturn.JumplessDecides` | src/Semantic/check missing return.cpp:168-188 | the same of functions of blocks without `break` and `continue`; the error is that of unreachable code exactly if a statement cannot be reached, and a return is added exactly if a run can come to the end |
| `MissingReturn.JumplessExact` | src/Semantic/check missing return.cpp:22-129 | for statements of this kind, with anything known before: rejected exactly if a part cannot be reached, and found to be always left exactly if they are |
| `MissingReturn.EmptyDoesNotReturn` | src/Semantic/check missing return.cpp:182-184 | an empty body that has to return something is rejected |
| `MissingReturn.IfMayNotReturn` | src/Semantic/check missing return.cpp:185-187 | `if (a) { return x; }` may not return |
| `MissingReturn.LoopMayNotReturn` | src/Semantic/check missing return.cpp:120-129 | `while (a) { return x; }` may not return, `while (a) { break; }` does not |
| `MissingReturn.ContinuedCaseReturns` | src/Semantic/check missing return.cpp:78-96 | a case that always goes on with the next one need not return itself |
| `MissingReturn.NothingBehindReturn` | src/Semantic/check missing return.cpp:29-32 | whatever stands behind a return is unreachable code |
| `MissingReturn.CheckedIsOrderly` | src/Semantic/check missing return.cpp:22-129 | for statements of blocks whose marks are right, what is found to be always left cannot be left at its end, and every block that can be left there has a Terminate node |
| `MissingReturn.MarkDecides` | src/Semantic/check missing return.cpp:62-99 | a switch over blocks that was marked as always returning does so if and only if no case can break |
| `MissingReturn.FalselyAlwaysReturns` | src/Semantic/check missing return.cpp:46-99 | a function of blocks that passes, is marked wrongly, and gets stuck in a run |
| `MissingReturn.TerminateBehindBreak` | src/Semantic/check missing return.cpp:33-44 | the loop of `WrittenBehindBreak` is a result of the analysis |
| `MissingReturn.CheckedIsRight` | src/Semantic/check missing return.cpp:168-188 | an accepted function of blocks whose marks are right satisfies the condition |
| `MissingReturn.LegalDecides` | src/Semantic/traverse.cpp:52-81 | for all functions that have been traversed: every jump has a target if and only if no `continue` belongs to the last case of a switch |
| `MissingReturn.OverlookedDecides` | src/Semantic/check missing return.cpp:78-85 | in every statement that is accepted, a `continue` belongs to a last case if and only if that case was found to break or return |
| `MissingReturn.AcceptedIsLegal` | src/Semantic/check missing return.cpp:168-188 | an accepted function can be compiled if and only if the analysis has overlooked no such `continue` |
| `MissingReturn.ContinueOverlooked` | src/Semantic/check missing return.cpp:72-85 | a function of blocks that is accepted although its `continue` has no target |
| `MissingReturn.BreakTakenForContinue` | src/Semantic/check missing return.cpp:46-61 | a function of blocks without `continue` that is rejected because a case may continue |
| `MissingReturn.CompileFunction` | src/CodeGen/generate stat.cpp:424-445 | analysis and code generation together, for everything that has been traversed: the errors of the analysis, a failure exactly on accepted functions with a `continue` in a last case, and else, for functions of blocks with balanced expressions and right marks, runs that do what the statements mean and return with everything destroyed; without `break` and `continue`, success exactly if every statement can be reached and, where something has to be returned, every run returns, and marks are then right |
| `Sorting.FindDuplicate` | src/Semantic/modules.cpp:78-91 | finds a name that occurs twice exactly if there is one |
| `Modules.CheckDuplicateModules` | src/Semantic/modules.cpp:78-91 | fails exactly if names, compiled ones included, are not distinct, and names one that is there twice |
| `Modules.Visitor.CheckCycle` | src/Semantic/modules.cpp:31-35 | fails exactly on a module of the stack; the reported cycle is there |
| `Modules.Visitor.VisitName` | src/Semantic/modules.cpp:37-47 | the import is resolved by what has been emitted, or it is reported with a reason; terminates on any graph |
| `Modules.Visitor.Visit` | src/Semantic/modules.cpp:49-60 | visited modules are on the stack or in the order, never both; the stack spells imports; what is emitted has its imports before it |
| `Modules.FindModuleOrder` | src/Semantic/modules.cpp:95-104 | succeeds if and only if names are distinct, every import can be found and no module imports itself by any way round; the order is then a permutation in which every import is strictly earlier; otherwise the reported reason is there |
| `Modules.OrderDecides` | src/Semantic/modules.cpp:49-66 | a complete order with imports first exists only for resolvable graphs without cycles |
| `Modules.PathGoesBack` | src/Semantic/modules.cpp:49-60 | along any path of imports the position in the order decreases |
| `Capture.ExprLookup.LambdaCapture` | src/Semantic/expr lookup.cpp:175-233 | says whether a variable has to be captured where it is used, and makes exactly the lambdas between its declaration and its use capture it, each at most once |
| `Capture.ExprLookup.PushCapture` | src/Semantic/expr lookup.cpp:169-173 | appends, so that indices handed out earlier stay valid |
| `Capture.ExprLookup.LookupIdent` | src/Semantic/expr lookup.cpp:237-254 | the innermost declaration of the name is found, and the identifier is bound to a capture of it exactly if it belongs to an outer lambda or function; every earlier binding stays |
| `Capture.ExprLookup.DeclareObject` | src/Semantic/scope insert.cpp:103-114 | a name can be declared once in a scope |
| `Capture.FollowReaches` | src/Semantic/expr lookup.cpp:197-232 | following a capture and then each recorded index outwards reaches the variable in the lambda in which it was declared |
| `Capture.IdentReaches` | src/Semantic/expr lookup.cpp:175-233 | this holds for every bound identifier after any further analysis |
| `Capture.FindsInnermost` | src/Semantic/scope lookup.cpp:45-54 | lookup finds the innermost of the enclosing scopes that know a name |
| `RoundTrip.ParseInvertsPrint` | src/Syntax/parse expr.cpp:35-298 | at every level, the printed expression with any tokens behind it is read back as that expression with those tokens untouched if and only if they do not continue it |
| `RoundTrip.ParsesBack` | src/Syntax/parse expr.cpp:35-298 | parsing undoes printing, for all expressions and levels |
| `RoundTrip.StopsAfter` | src/Syntax/parse expr.cpp:128-298 | whatever was parsed, no operator that would have continued it is left in front |
| `RoundTrip.BinFront` | src/Syntax/parse expr.cpp:128-186 | operators of one level associate to the left, whatever follows |
| `RoundTrip.GroupsByLevel` | src/Syntax/parse expr.cpp:128-274 | for any two operators `x op y op z` groups by level |
| `Ladder.OperatorsRead` | src/Syntax/parse expr.cpp:99-274 | each of the 18 binary and three prefix tokens is read as its operator |
| `Ladder.Rungs` | src/Syntax/parse expr.cpp:128-268 | which operators bind tighter: each rung of the ladder against the next in both orders, and operators of one rung to the left; bitwise operators bind tighter than comparisons |
| `Ladder.CallRead` | src/Syntax/parse expr.cpp:55-61 | `x(y, z)` is a call |
| `Ladder.ElementRead` | src/Syntax/parse expr.cpp:62-68 | `x[y]` is a subscript |
| `Ladder.MemberRead` | src/Syntax/parse expr.cpp:69-74 | `x.y` is a member, and `-x.y` the negative of one |
| `Ladder.FactorRead` | src/Syntax/parse expr.cpp:99-146 | `-x * y` and `x * -y` are products |
| `Ladder.ParenthesesRead` | src/Syntax/parse expr.cpp:24-36 | `(x + y) * z` is a product |
| `Ladder.TernaryRead` | src/Syntax/parse expr.cpp:276-292 | `u ? x : v ? y : z` groups to the right |
| `Ladder.ConditionRead` | src/Syntax/parse expr.cpp:276-292 | `x || y ? z : u` has the whole of `x || y` as its condition |
| `Ladder.LiteralsRead` | src/Syntax/parse litr.cpp:17-66 | strings and characters lose their quotes, numbers and truth values are as written |
| `Ladder.ListsRead` | src/Syntax/parse litr.cpp:68-88 | `[x, y]` is an array and `{x}` an initialiser list |
| `Ladder.MakeRead` | src/Syntax/parse expr.cpp:107-113 | `make t !x` makes a `t` of `!x` |
| `Ladder.FuncTypeRead` | src/Syntax/parse type.cpp:15-37 | `func(ref t, u) -> v` with its parameters and result |
| `Ladder.BareFuncTypeRead` | src/Syntax/parse type.cpp:15-37 | `func()` has neither |
| `Ladder.ArrayTypeRead` | src/Syntax/parse type.cpp:39-49 | `[t]` is an array type |
| `Ladder.StructTypeRead` | src/Syntax/parse type.cpp:61-83 | `struct { x: t; }` is a struct type |
| `Ladder.OperandMissing` | src/Syntax/parse expr.cpp:18-22 | a binary operator without a right operand is an error |
| `RoundTrip.TypeBack` | src/Syntax/parse type.cpp:15-99 | the same round trip for types |
| `Parser.ParseTokens.ParseExpr` | src/Syntax/parse expr.cpp:296-298 | the cursor methods compute the parse functions, take no token when they find nothing, and end on every input |
| `Parser.ParseTokens.ParseBin` | src/Syntax/parse expr.cpp:128-274 | every binary level, with its loop |
| `Parser.ParseTokens.ParseTern` | src/Syntax/parse expr.cpp:276-292 | the conditional operator groups to the right |
| `Parser.ParseTokens.ParseUnary` | src/Syntax/parse expr.cpp:99-117 | prefix operators and `make` |
| `Parser.ParseTokens.ParseNested` | src/Syntax/parse expr.cpp:49-80 | calls, subscripts and members, in any number |
| `Parser.ParseTokens.ParseTerm` | src/Syntax/parse expr.cpp:24-45 | identifiers, literals and parentheses |
| `Parser.ParseTokens.ParseLitr` | src/Syntax/parse litr.cpp:17-108 | literals other than lambdas |
| `Parser.ParseTokens.ParseExprList` | src/Syntax/parse expr.cpp:300-309 | lists with their closing bracket, without a trailing comma |
| `Parser.ParseTokens.ParseType` | src/Syntax/parse type.cpp:15-99 | types |
| `TypeEq.CompareNormal` | src/Semantic/compare types.cpp:18-149 | two types are the same exactly if their normal forms are equal: weak aliases replaced everywhere, strong ones kept by name |
| `TypeEq.PlainEquality` | src/Semantic/compare types.cpp:18-149 | types without names are the same exactly if they are written the same |
| `TypeEq.FuncsSame` | src/Semantic/compare types.cpp:60-68 | function types are the same exactly if they have the same result and the same parameters, passed in the same way and in the same order |
| `TypeEq.StructsSame` | src/Semantic/compare types.cpp:72-77 | struct types are the same exactly if their fields have the same names and types in the same order |
| `TypeEq.FormsApart` | src/Semantic/compare types.cpp:54-91 | arrays are the same exactly if their elements are, builtin types if they are one, and types of different forms never |
| `TypeEq.NamesSame` | src/Semantic/compare types.cpp:33-40 | a weak name is its type; a strong one is no type but those of its name |
| `TypeEq.CompareIsEquivalence` | src/Semantic/compare types.cpp:139-149 | comparing types is reflexive, symmetric and transitive, types that are not given included |
| `TypeEq.LookupsKeepType` | src/Semantic/scope lookup.cpp:70-90 | looking through weak aliases keeps the type; looking through all of them keeps it exactly if none was strong |
| `TypeEq.AliasesAcyclic` | src/Semantic/traverse.cpp:180-185 | along the references of aliases there is no way back |
| `Aliases.DeclareTwice` | src/Semantic/traverse.cpp:180-185 | a run of the analysis reaches two strong aliases of one name that stand for different types and are the same type |
| `TypeEq.StrongAliasesApart` | src/Semantic/compare types.cpp:69-71 | strong aliases are different types exactly if all their names are different |
| `Aliases.Analyser.Validate` | src/Semantic/compare types.cpp:151-209 | accepts a type exactly if all its names are names of types and no struct in it has two fields of one name; a function type without a result returns `Void`; a rejection names something in the type |
| `Aliases.SoundIs` | src/Semantic/compare types.cpp:151-209 | what is accepted, part by part: the innermost declaration of a name is a type, and the fields of a struct have different names |
| `Aliases.ResolvedIs` | src/Semantic/compare types.cpp:151-209 | what validation makes of each part; references, names of fields and the order of parts stay, and a missing result becomes `Void` |
| `Aliases.InnermostDecides` | src/Semantic/scope lookup.cpp:18-33 | the innermost scope that declares a name says what it is |
| `Aliases.DeclaredNowhere` | src/Semantic/scope lookup.cpp:18-33 | a name is unknown exactly if no scope declares it |
| `Aliases.BuiltinsAre` | src/Semantic/builtin symbols.cpp:39-47 | the names of the builtin types stand for these types |
| `Aliases.Analyser.DeclareAlias` | src/Semantic/traverse.cpp:180-185 | an alias refers only to aliases declared before it, never to itself |
| `Aliases.ResolvedOk` | src/Semantic/scope lookup.cpp:18-33 | a validated type refers to aliases that are there, by their own names |
| `Aliases.AliasMeans` | src/Semantic/compare types.cpp:33-40 | a weak alias is its type; a strong one is so only if that is a strong type of the same name |

## Left out

- LLVM: building, verifying, optimising and executing instructions. The emitted functions are modelled by the pseudo-code the source gives for them, statements by their own small instruction set.
- Real numbers, opaque pointers, closures and foreign types as values: NaN has no place in an order, and the assignment of closures does not make the destination equal to the source.
- Arithmetic limits of reference counts and addresses: counts and the address space are unbounded, and an allocation always succeeds at a fresh place. Lengths are kept below 2^31 as the growth arithmetic requires.
- `arr_len_ctor` and the bounds-checked subscripts: they would only add easy members.
- The cache of instantiated functions, which is keyed by LLVM types.
- Compare.Eq: arrays that were moved from cannot be read, which its precondition says; the source would follow a null pointer.
- StatGen.GenerateStat: that different declarations are different objects is assumed for the only-if half; every node of a syntax tree has its own address.
- MissingReturn.CheckedIsRight: it is stated for bodies that are blocks and expressions that are balanced; what the analysis finds in other bodies can be stale, which `Check` models, and `GenerateStat` decides for such functions whether their code is clean.
- StatGen.Visitor.VisitSwitch: the switch value itself is a number; a value of array or struct type is never registered in a scope by the source.
- Compound assignments and `++`, which are lowered to assignments before statements are generated.
- StatGen.GenerateStat: the blocks of an expression are those of `ExprGen`; in the code of a function they are one instruction, so that its condition for valid blocks speaks of what is written between expressions.
- ExprSem.Eval: arguments that are passed by value are made and destroyed by their call, in order; they and what a call through a new function value destroys behind it are not seen. The values of expressions, and the choice between moving and copying a returned object, are not modelled. Parameters belong to the caller.
- Modules.FindModuleOrder: reading and parsing the modules.
- Capture.ExprLookup.LookupIdent: functions, which are only ever global, are told apart from variables but not overloaded; parameters are declared like variables. Indices are not truncated to 32 bits.
- Parser.ParseTokens.ParseLitr: lambdas, whose bodies are statements, are not parsed; the keyword `func` is no expression in the model.
- Locations, contexts and the text of error messages; an error is a value that ends the operation.
- RoundTrip.ParseInvertsPrint: the printer is that of the model; the formatter of the repository prints no parentheses (src/Format/format.cpp:77-83).
- Aliases.Analyser.Validate: the source visits the types of aliases again each time they are mentioned; they have been validated when they were declared.
- TypeEq.CompareNormal: comparing two types at the same address is answered at once by the source, which reflexivity allows; foreign types are not compared.
