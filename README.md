# ez: a verified model of the compiler and the virtual machine

ez is a tiny line-oriented scripting language. A program is a sequence of
lines. Each line either assigns a literal or an identifier to an identifier
(`x = 3`, `y = x`) or calls an operation: `z = x + y`, `b = x < y`,
`Print 'hi there'`. The compiler turns the lines into a `Bytecode` record.
The record holds one flat stream of integers, `OpAddrs`, and three typed
value arrays, `Ints`, `Strs` and `Bools`. The stream is a run of windows. A
window is an opcode followed by the slot numbers of its inputs and then of
its outputs. The virtual machine runs a window by looking its opcode up in a
dispatch table of handlers, `funcAddrs`. The handler reads and writes the
slots and advances the program counter `pos` past the window.

The model covers two revisions of the repository:

- **The current revision:**
  - the compiler `Parse` (parser.go);
  - the operation registry and its `init` (baselib.go), which sorts the operation names, gives every overload an opcode and appends its handler to `funcAddrs`;
  - the run loop and the 24-entry dispatch table of vm.go;
  - the `Bytecode` record (bytecode.go).
- **The older revision:** the single-file `Prog` of main.go. It has its own prelude (`+`, `-`, `*`, `/`), `AddOps`, a re-runnable `Run` and a compiler without booleans.

Modules, in dependency order:

| module | file | what it holds |
|---|---|---|
| `Text` | text.dfy | token classes (`isIdentifier`, `isInt`, `isString`, `isBool`, …), `strings.Fields`, `strconv.Atoi`/`Itoa`, `parsingErr` |
| `Isa` | isa.dfy | base types, values, handlers with their input and output types, Go's truncating `/` and `%`, the effect of one window, one dispatch (`Next`) and the run loop (`RunSpec`) |
| `Registry` | registry.dfy | the `baselib` overload table, `sort.Strings`, and `init` as the imperative class `Registry` |
| `Windows` | windows.dfy | well-formed streams: every window fits its handler, so a run can fault only by dividing by zero |
| `Tables` | tables.dfy | the compiler's name maps (`IntIDAddr`, `StrIDAddr`, `BoolIDAddr`), `typeAndAddrOfID`, `rawToType`, slot allocation, and the compiler invariant `Ok` |
| `Scanner` | scanner.dfy | the per-line token loop shared by both revisions (`ScanLine` is its imperative form) |
| `Compile` | compile.dfy | what a statement, a line and a whole program do to the compiler state, and the proofs that each keeps the invariant |
| `Parser` | parser.dfy | the class `Parser` with its maps and record, its methods proved against `Compile`, and `Parse` |
| `Vm` | vm.dfy | vm.go's dispatch table and the class `Bytecode`, whose `Run` and per-handler methods are proved against `RunSpec`/`Next` |
| `Soundness` | soundness.dfy | compiled programs run without an out-of-range access; baselib.go's and vm.go's written-down opcode numberings agree on 0 to 17 only |
| `Older` | prog.dfy | main.go's `Prog`: `Prelude`, `AddOps`, `Run`, `Parse` |

Go's runtime panics become values:

- an index out of range is the fault `OutOfRange`;
- an integer division or remainder by zero is `DivByZero`.

A handler that faults leaves the record as it was. The unbounded `for` of
both run loops carries a `fuel` bound. With it a run ends `Halted`,
`Faulted(fault)` or `OutOfFuel`.

## Model

| member | source | states |
|---|---|---|
| Text.IdentifierIsNotLiteral | parser.go:337-356 | an identifier (lower-case letter, then letters or digits) is never a string, integer or boolean literal, and never starts a string |
| Text.StringIsNotNumberOrBool | parser.go:304-314 | a quoted string is neither an integer nor `True`/`False`, so `rawToType`'s first case decides alone |
| Text.FirstSpace | parser.go:57 | the first white-space position: no white space before it, white space at it when inside the line |
| Text.Fields | parser.go:57 | `strings.Fields`: every field is non-empty and free of white space |
| Text.FieldsKeepEveryOtherCharacter | parser.go:57 | the fields, glued back together, are exactly the line with its white space removed |
| Text.DigitChar | parser.go:288 | the digit character of a value below ten reads back as that value |
| Text.NatDigits | parser.go:288 | the decimal digits of a natural number are a non-empty run of digits |
| Text.NatDigitsValue | parser.go:288 | the decimal digits of `n` denote `n` |
| Text.ItoaAtoiRoundTrip | parser.go:288 | `strconv.Itoa` of any integer is accepted by `isInt` and `Atoi` reads it back to the same integer |
| Text.ItoaHasNoColon | parser.go:288 | a printed line number contains no colon, so the first colon of an error text ends the number |
| Text.ParsingErrNamesLine | parser.go:287-289 | every `parsingErr` text starts `ERROR - Line `, the line number can be read back from it exactly, and it ends with the message |
| Isa.TypedWindow | baselib.go:53-231 | every data handler (all but `goto` and `if`) has concrete input and output types, never the wildcard |
| Isa.GoDivision | vm.go:32-35 | Go's truncating `/` and `%`: `a == b*(a/b) + a%b`, the remainder is smaller than the divisor in magnitude and takes the dividend's sign |
| Isa.GoDivisionExamples | vm.go:56-59 | `7/2 == 3`, `-7/2 == -3`, `-7%2 == -1`, `7%-2 == 1` in Go, where Euclidean division would give `-4` and `1` |
| Isa.Write | vm.go:12-83 | writing one slot changes that slot to the value and nothing else: stream, `pos`, array lengths and every other slot stay |
| Isa.Inputs | vm.go:24-83 | a handler's input values, read from the slots after the opcode, have the handler's input types |
| Isa.Apply | baselib.go:54-207 | each binary handler's result has its output type: comparisons give a bool, `+` on strings a string, arithmetic an int |
| Isa.EffectOfInBoundsWindow | vm.go:12-109 | with every address in range, a data handler faults only on `/` or `%` by a zero divisor; otherwise only its output slot changes, and stream, `pos` and array lengths stay |
| Isa.LogicEffectInBounds | vm.go:36-39 | on a window whose addresses are all in range, the short-circuiting `&&` and `\|\|` compute exactly what reading the whole window computes |
| Isa.NextAdvancesByWidth | vm.go:12-83 | a data handler advances `pos` by exactly its window width `1 + |In| + |Out|` and leaves `OpAddrs` alone |
| Isa.NextKeepsOpAddrs | vm.go:12-109 | no handler changes `OpAddrs`; `goto` and `if` only move `pos` |
| Isa.RunKeepsOpAddrs | vm.go:5-9 | a run never changes `OpAddrs`; a halted run leaves `pos` at or past the end, so running the record again executes nothing |
| Registry.LeTotal | baselib.go:13 | Go's byte-wise string order is total |
| Registry.LeAntisymmetric | baselib.go:13 | two strings ordered both ways are equal |
| Registry.LeTransitive | baselib.go:13 | the byte-wise order is transitive |
| Registry.Insert | baselib.go:13 | inserting into a sorted list keeps it sorted and adds exactly that element |
| Registry.SortStrings | baselib.go:13 | `sort.Strings`: the result is sorted byte-wise and a permutation of the input |
| Registry.SortedIsUnique | baselib.go:13 | two sorted permutations of the same list are equal, so the sorted order of the names does not depend on map iteration order |
| Registry.SortedSymbols | baselib.go:9-13 | whatever order the map yields its names in, sorting the `make`-padded list gives the empty strings first and then the 14 names in byte order |
| Registry.BaselibAt | baselib.go:53-231 | the overload table has exactly the 14 names, each with its listed overloads |
| Registry.OverloadsOk | baselib.go:53-231 | every overload's handler has exactly the declared input and output types |
| Registry.OverloadsDistinguishable | baselib.go:53-231 | the overloads of a name share their arities and never share an input-type list |
| Registry.BaselibWellFormed | baselib.go:53-231 | the whole table is typed and unambiguous |
| Registry.HandlersOf | baselib.go:18 | the handlers appended for a name's overloads, one per overload |
| Registry.Numbered | baselib.go:16-20 | numbering a name's overloads keeps their count |
| Registry.NumberedAt | baselib.go:17 | the i-th overload numbered from `start` gets opcode `start + i` and is otherwise unchanged |
| Registry.PartialAt | baselib.go:14-22 | after `k` steps of the name loop, the names already visited hold their numbered overloads and the rest still hold the originals |
| Registry.PartialNumbered | baselib.go:14-22 | when the loop ends every name holds its overloads numbered from its base opcode |
| Registry.Registry.constructor | baselib.go:38-53 | the registry starts with the constant table and the three copy handlers |
| Registry.Registry.Init | baselib.go:8-23 | `init` leaves `funcAddrs` equal to the 22-entry registry table and the overload table initialized, whatever the map's name order |
| Registry.Registry.NumberNames | baselib.go:14-22 | the name loop appends every name's handlers in sorted order and rewrites every overload's opcode |
| Registry.Registry.NumberOverloads | baselib.go:16-20 | the overload loop appends the handlers in slice order and numbers the overloads from the table's old length |
| Registry.NumberedConsistent | baselib.go:16-20 | after numbering, `funcAddrs[f.addr]` is `f`'s handler for every overload, and every opcode is at least 3 |
| Registry.NumberedUnambiguous | baselib.go:16-20 | numbering a name's overloads keeps them unambiguous, since opcodes play no part in matching |
| Registry.NumberedDistinct | baselib.go:17 | no two overloads, of the same name or of different names, get the same opcode |
| Registry.NumberedOrder | baselib.go:14-17 | opcodes follow the sorted name order, and the slice order within a name |
| Registry.InitializedWellFormed | baselib.go:8-23 | after `init` the table is typed, unambiguous and consistent with the dispatch table; opcodes are distinct, above the copies, and in sorted order |
| Registry.OverloadCounts | baselib.go:53-231 | how many overloads each of the 14 names has |
| Registry.Bases | baselib.go:8-23 | the first opcode of each name: `!=` at 3, `%` 5, … `Print` 18, `\|\|` 21, and 22 entries in all |
| Registry.RegistryAt | baselib.go:16-20 | the registry table holds overload `i` of name `p` at its base plus `i` |
| Registry.LastEntries | baselib.go:198-230 | `Print` and `\|\|` sort last; `Print` has three overloads, for a string, an int and a bool |
| Registry.CopyOpcodes | baselib.go:32-51 | opcodes 0, 1 and 2 are the int, string and bool copies, and 18 is `Print` of a string |
| Registry.InitializedOpcodes | baselib.go:8-23 | after `init`, `Print` is numbered 18, 19, 20 and `\|\|` 21 |
| Registry.BuiltContents | baselib.go:8-23 | the dispatch table `init` builds, entry by entry |
| Registry.RegistryTableContents | baselib.go:8-23 | the 22 registry entries in order: copies, `!=` ×2, `%`, `&&`, `*`, `+` ×2, `-`, `/`, `<`, `<=`, `==` ×2, `>`, `>=`, `Print` ×3, `\|\|` |
| Windows.InBoundsGrown | parser.go:257-274 | a slot in range stays in range when the arrays grow |
| Windows.WindowOkGrown | parser.go:257-274 | a well-formed window stays well-formed when the arrays grow |
| Windows.WellFormedGrown | parser.go:218-274 | allocating slots never breaks a well-formed stream |
| Windows.WindowOkExtends | parser.go:117 | a complete window stays well-formed when more windows are appended after it |
| Windows.NewWindowOk | parser.go:205-207 | an appended window that fits its handler is well-formed at its position |
| Windows.WellFormedStep | vm.go:5-9 | a well-formed stream starts with a well-formed window and continues well-formed after it |
| Windows.WellFormedCons | vm.go:5-9 | a well-formed window followed by a well-formed rest is well-formed |
| Windows.WellFormedExtends | parser.go:205-207 | appending after a well-formed stream keeps the earlier windows well-formed |
| Windows.WellFormedAppend | parser.go:205-207 | appending a window that fits its handler to a well-formed stream keeps it well-formed |
| Windows.EmptyWellFormed | parser.go:39-43 | the empty stream is well-formed |
| Windows.NextOnBoundary | vm.go:5-9 | on a window boundary a dispatch faults only by dividing by zero; otherwise it lands on the next boundary with `pos` larger and the stream and array lengths unchanged |
| Windows.InvariantRun | vm.go:5-9 | a run whose every dispatch keeps an invariant and moves `pos` forward faults only by dividing by zero, and halts within as many dispatches as entries remain |
| Windows.RunNeverOutOfRange | vm.go:5-9 | a run from a window boundary never indexes out of range and halts within the stream's length in dispatches |
| Windows.CompiledRun | vm.go:5-9 | a well-formed stream runs from `pos` 0 without an out-of-range fault and halts within `len(OpAddrs)` dispatches |
| Windows.AgreeingTables | vm.go:11-83 | a stream that uses only opcodes on which two tables agree is well-formed for both |
| Windows.WellFormedOpcodes | vm.go:7 | a well-formed stream uses only opcodes of its table |
| Tables.TypeAndAddrOfID | parser.go:291-302 | found exactly when some map binds the name; then the type and slot come from that map; otherwise the wildcard, -1 and false |
| Tables.LookupOrderFree | parser.go:292-296 | with the maps disjoint, the answer does not depend on the order in which they are searched |
| Tables.RawToType | parser.go:304-314 | a literal's type: `Str` exactly for a quoted string, `Int` for an integer, `Bool` for `True`/`False` |
| Tables.LiteralKinds | parser.go:304-314 | the three kinds of literal never overlap |
| Tables.LiteralValue | parser.go:218-243 | the stored value of a literal has the literal's type |
| Tables.StartOk | parser.go:39-43 | the empty compiler state satisfies the invariant |
| Tables.BoundInRange | parser.go:291-302 | every bound name's slot is inside its typed array |
| Tables.LiteralBinding | parser.go:218-243 | an interned literal is bound with its own type, and its slot holds its value: the text without its quotes, the integer, or `True` as true |
| Tables.Zero | parser.go:257-274 | a fresh slot of a type holds a value of that type (0, "", false) |
| Tables.Push | parser.go:257-274 | appending a value grows exactly its typed array by one and leaves the stream alone |
| Tables.AllocatedAppends | parser.go:257-274 | allocation appends one slot, keeps every existing slot and emits nothing |
| Tables.AllocatedSlot | parser.go:257-274 | a fresh name is bound to the new last slot of its type, which holds the value; the stream stays and the maps stay disjoint |
| Tables.AllocatedKeeps | parser.go:257-274 | allocating a name changes no other name's binding |
| Tables.AllocatedKeepsSlot | parser.go:257-274 | allocating changes no existing slot |
| Tables.AllocatedOk | parser.go:218-243 | allocating a fresh name, with a literal's own value when it is a literal, keeps the compiler invariant |
| Tables.CopyFuncInstructionForType | parser.go:245-255 | the copy opcode of a type is the dispatch-table entry that copies that type |
| Tables.EmittedOk | parser.go:117 | appending a window that fits its handler keeps the compiler invariant |
| Tables.CopyFits | parser.go:117 | a copy between two in-range slots of one type fits its copy handler |
| Scanner.ScanLine | parser.go:57-98 | the field loop computes exactly `Scan` of the fields from the start state |
| Scanner.ScanAdvance | parser.go:62-97 | a field that is accepted moves the loop on to the next field |
| Scanner.ScanStops | parser.go:73-96 | a field that is rejected ends the line with that field's error |
| Scanner.StartSound | parser.go:49-55 | the variables as each line starts them are sound |
| Scanner.StepSound | parser.go:62-97 | each accepted field keeps the loop's variables sound: targets are identifiers, arguments are complete literals or identifiers, the operation is a registered name, a string in progress starts with a quote |
| Scanner.ScanSound | parser.go:57-98 | a line that scans yields only identifier targets, literal-or-identifier arguments and a registered operation |
| Scanner.CommentEndsLine | parser.go:59-61 | a `#` field ends the line: the fields after it change nothing, even inside an unfinished string |
| Scanner.StringSpansFields | parser.go:63-68 | a string literal spans fields up to the first that ends in an unescaped quote, and the pieces are joined with single spaces |
| Scanner.OpenStringDropped | parser.go:63-68 | a string that no field closes is silently dropped: the line scans without it |
| Scanner.AssignWithoutTarget | parser.go:72-76 | `=` with no identifier before it is a line error |
| Scanner.ScanExample | parser.go:57-98 | `x = y + 'a b'` scans to target `x`, operation `+` and arguments `y` and `'a b'` |
| Scanner.BoolLiteralByRevision | parser.go:86 | `True` is an argument in the current revision and an unknown symbol in main.go |
| Compile.TypesOf | parser.go:156-166 | one type per target name |
| Compile.AddrsOf | parser.go:156-166 | one slot per target name |
| Compile.TypesOfAt | parser.go:158-165 | the types and slots reported are `typeAndAddrOfID`'s answers, the wildcard and -1 for an unbound name |
| Compile.FirstMatch | parser.go:168-209 | the overload chosen is the first in table order whose arities match and whose typed inputs and bound outputs agree; none before it matches |
| Compile.MatchIsUnique | baselib.go:53-231 | in an unambiguous overload list at most one overload matches a call |
| Compile.PlusResolves | baselib.go:54-71 | `+` on two ints resolves to integer addition and on two strings to concatenation; mixed arguments and a string target match nothing |
| Compile.AssignmentOk | parser.go:100-131 | a plain assignment that succeeds keeps the compiler invariant |
| Compile.IdentifierAssignmentOk | parser.go:105-117 | an assignment from an identifier keeps the invariant |
| Compile.LiteralAssignmentOk | parser.go:118-130 | an assignment from a literal keeps the invariant |
| Compile.LiteralCopyOk | parser.go:119-127 | a literal assigned to an existing target of its type keeps the invariant |
| Compile.CopyOk | parser.go:117 | a copy between two in-range slots of one type keeps the invariant |
| Compile.FreshCopyOk | parser.go:114-117 | a copy into or out of a fresh slot keeps the invariant |
| Compile.AllocationExtends | parser.go:257-274 | allocating a fresh name keeps every existing binding |
| Compile.LiteralKeepsIdentifiers | parser.go:148-151 | interning a literal under its own text rebinds no identifier |
| Compile.AssignmentFails | parser.go:105-122 | a plain assignment fails exactly when its identifier source is unbound or the existing target's type differs from the source's |
| Compile.IdentifierAssignmentEffect | parser.go:105-117 | `y = x`: `y` gets `x`'s type, existing bindings survive, and exactly the window copy, `x`'s slot, `y`'s slot is appended |
| Compile.LiteralAssignmentEffect | parser.go:118-130 | `x = 3`: a fresh target is bound to a new slot holding the value, with nothing emitted; an existing one gets a copy window from the interned literal |
| Compile.LiteralCopyEffect | parser.go:119-127 | a literal assigned to an existing target keeps the target's slot and appends one copy window |
| Compile.InternArgs | parser.go:139-155 | when the argument loop succeeds it reports one type and one slot per argument |
| Compile.InternArgsStops | parser.go:142-144 | once the argument loop fails, the remaining arguments change nothing |
| Compile.InternArgsOk | parser.go:139-155 | the argument loop keeps the invariant and only grows the arrays |
| Compile.InternArgsKeeps | parser.go:139-155 | the argument loop emits nothing, changes no binding and binds no identifier |
| Compile.InternArgsBinds | parser.go:139-155 | every argument ends up bound to exactly the type and slot reported for it |
| Compile.InternArgsFails | parser.go:140-144 | the argument loop fails exactly when some identifier argument is unbound, with the error naming the first such argument |
| Compile.BindTargets | parser.go:200-204 | one slot per target |
| Compile.BindTargetsOk | parser.go:200-204 | allocating the unbound targets keeps the invariant |
| Compile.BindTargetsStream | parser.go:200-204 | allocating the targets emits nothing |
| Compile.BindTargetsBinds | parser.go:200-204 | every target ends up bound with the chosen overload's output type at the slot reported |
| Compile.EmitOk | parser.go:200-207 | emitting the chosen overload's window keeps the invariant |
| Compile.WindowAssoc | parser.go:205-207 | the three appends of a call build the single window opcode, inputs, outputs |
| Compile.EmitBinds | parser.go:200-207 | after the call the targets have the overload's output types and every earlier binding survives |
| Compile.EmitShape | parser.go:205-207 | a call appends its opcode, the argument slots and the target slots, a window as wide as the handler's |
| Compile.CallFits | parser.go:205-207 | every address of the call's window is in range for the operand type at that position |
| Compile.CallOk | parser.go:132-212 | a call keeps the compiler invariant, whether it succeeds or not |
| Compile.TargetTypesKept | parser.go:156-166 | interning literals does not change the targets' types |
| Compile.CallEmits | parser.go:167-209 | a call that succeeds appends exactly the window of the first matching overload, which is as wide as its handler, and binds its targets with that overload's output types |
| Compile.StatementOk | parser.go:99-213 | every statement keeps the invariant, whether it compiles or not |
| Compile.AssignStatementOk | parser.go:100-131 | a plain assignment statement keeps the invariant, also when it has too many sides |
| Compile.CallStatementOk | parser.go:132-212 | a call statement keeps the invariant |
| Compile.LineOk | parser.go:46-213 | every line keeps the invariant, whether it compiles or not |
| Compile.StatementStream | parser.go:99-213 | a statement that fails appends no window; one that compiles only appends |
| Compile.AssignmentAppends | parser.go:100-131 | a successful assignment keeps every existing window and slot and only appends |
| Compile.InternArgsAppends | parser.go:139-153 | interning a call's arguments keeps every existing slot and only appends |
| Compile.BindTargetsAppends | parser.go:194-199 | binding a call's targets keeps every existing slot and only appends |
| Compile.CallAppends | parser.go:132-212 | a call, compiled or failing, keeps every existing window and slot and only appends |
| Compile.StatementAppends | parser.go:46-213 | a statement, compiled or failing, keeps every existing window and slot and only appends |
| Compile.LineAppends | parser.go:46-213 | a line, compiled or failing, keeps every existing window and slot and only appends |
| Compile.CompileAppends | parser.go:46-214 | compiling any run of lines keeps every window and slot that existed before it and only appends, up to the first failing line |
| Compile.LineStream | parser.go:46-213 | a line that fails appends no window; one that compiles only appends |
| Compile.CallStream | parser.go:132-212 | a call that fails appends no window |
| Compile.CompileOk | parser.go:46-214 | compiling any run of lines keeps the invariant, up to the first failing line |
| Compile.CompileErrors | parser.go:46-214 | an error is always `parsingErr` of one of the lines compiled |
| Compile.StatementErrors | parser.go:99-213 | every error of a statement is `parsingErr` of its own line |
| Compile.LineErrors | parser.go:46-213 | every error of a line is `parsingErr` of that line |
| Compile.RegistryReady | baselib.go:8-23 | after `init` the overload table is typed, consistent with the dispatch table, and has the copies at 0, 1 and 2 |
| Compile.CompileWellFormed | parser.go:35-216 | whatever the lines, the bytecode `Parse` returns, complete or cut short by an error, is a well-formed stream for the registry table, and any error names a line of the input |
| Parser.Resolve | parser.go:167-209 | the overload loop finds an overload exactly when one matches, and then it is the first that matches |
| Parser.Parser.constructor | parser.go:39-43 | a parser starts with empty maps and an empty record |
| Parser.Parser.Resume | main.go:153-160 | like main.go's `Parse`, which compiles onto the `Prog`'s existing maps and record, a parser can start from any compiler state, names, slots and stream included |
| Parser.Parser.NewAlloc | parser.go:257-274 | `newAlloc` binds the name to a fresh zero slot of the type and returns its index; for the wildcard it changes nothing and returns 0 |
| Parser.Parser.NewAllocInitialize | parser.go:218-243 | `newAllocInitialize` binds the name to a fresh slot holding the literal's value and returns that slot and the literal's type |
| Parser.Parser.CopyToExisting | parser.go:276-285 | `copyToExisting` copies one slot to another in the array of the type and changes nothing else |
| Parser.Parser.Assign | parser.go:100-131 | a plain assignment: more than one side on either side is the multi-assignment error; otherwise the state `Assignment` describes, or its error with the state unchanged |
| Parser.Parser.ArgSlots | parser.go:139-155 | the argument loop, as `InternArgs` describes it |
| Parser.Parser.TargetSlots | parser.go:156-166 | the target loop reports `typeAndAddrOfID`'s types and slots |
| Parser.Parser.AllocTargets | parser.go:200-204 | the allocation loop, as `BindTargets` describes it |
| Parser.Parser.Call | parser.go:132-212 | a call, as `CallEffect` describes it |
| Parser.Parser.EmitCall | parser.go:200-207 | emitting the chosen overload, as `Emit` describes it |
| Parser.Parser.ParseLine | parser.go:46-213 | one line, as `LineEffect` describes it; it keeps the invariant |
| Parser.Parser.ParseLines | parser.go:46-214 | the line loop, as `CompileFrom` describes it |
| Parser.Parse | parser.go:35-216 | `Parse` returns what `CompileFrom` computes from the empty state; the record is well-formed for the registry table, and an error names a line of the input |
| Vm.VmTable | vm.go:11-110 | vm.go's dispatch table has 24 entries |
| Vm.WindowOfOne | vm.go:94-105 | a one-operand window is in range exactly when its one address is |
| Vm.WindowOfTwo | vm.go:12-23 | a copy window is in range exactly when both addresses are |
| Vm.WindowOfThree | vm.go:24-83 | a binary window is in range exactly when all three addresses are |
| Vm.CopySemantics | vm.go:12-23 | a copy faults on an address out of range; otherwise it sets the target slot to the source's value and advances `pos` by 3 |
| Vm.BinarySemantics | vm.go:24-83 | a binary handler writes its result to the slot at `pos+3` and advances `pos` by 4; `/` and `%` by zero fault, and an address out of range faults for every binary handler but `&&` and `\|\|` |
| Vm.ArithSemantics | vm.go:32-59 | integer arithmetic writes Go's `+ - * / %` of the two input slots, and faults on a zero divisor for `/` and `%` |
| Vm.CompareSemantics | vm.go:60-83 | an integer comparison writes its truth value to a boolean slot |
| Vm.StrCompareSemantics | vm.go:28-31 | string `==` and `!=` write their truth value to a boolean slot |
| Vm.LogicSemantics | vm.go:36-39 | `&&` (`\|\|`) reads the slot at `pos+1`; when it holds false (true) that value is written to the slot at `pos+3` and the slot at `pos+2` is never read, so it may be out of range; otherwise the value at `pos+2` is written, which is `a && b` (`a \|\| b`); `pos` advances by 4 |
| Vm.ShortCircuitSkipsSecond | vm.go:106-109 | `[&&, 0, 5, 0]` on `Bools = [false]` and `[\|\|, 0, 5, 0]` on `Bools = [true]` halt normally although slot 5 does not exist |
| Vm.BinaryInputs | vm.go:24-83 | the two inputs of a binary handler are the values at `pos+1` and `pos+2` |
| Vm.PrintSemantics | vm.go:94-105 | `print` checks its slot, changes no array and advances `pos` by 2 |
| Vm.GotoSemantics | vm.go:84-86 | `goto` sets `pos` to the value stored in the integer slot it names, not to a stream literal |
| Vm.IfSemantics | vm.go:87-93 | `if` advances `pos` by 3 when its boolean holds, and otherwise jumps to the offset stored at `pos+2` |
| Vm.VmWidths | vm.go:11-110 | 18 and 19 are the only jumps; copies are 3 wide, prints 2, and every other entry is a binary operation 4 wide |
| Vm.VmAdvances | vm.go:12-109 | every opcode other than 18 and 19 strictly increases `pos` and leaves the stream alone |
| Vm.Bytecode.constructor | bytecode.go:3-9 | the record as the compiler hands it over, with `pos` at 0 |
| Vm.Bytecode.Run | vm.go:5-9 | the run loop computes exactly `RunSpec` over the dispatch table, outcome and final record |
| Vm.Bytecode.Step | vm.go:7 | one dispatch changes the record as `Next` says, or faults and leaves it unchanged |
| Vm.Bytecode.CopyOp | vm.go:12-23 | a copy handler, as `Next` describes it |
| Vm.Bytecode.PrintOp | vm.go:94-105 | a print handler, as `Next` describes it |
| Vm.Bytecode.BinaryOp | vm.go:24-83 | a binary handler, as `Next` describes it |
| Vm.Bytecode.ConcatOp | vm.go:48-51 | string concatenation, as `Next` describes it |
| Vm.Bytecode.StrCompareOp | vm.go:28-31 | string comparison, as `Next` describes it |
| Vm.Bytecode.LogicOp | vm.go:36-39 | `&&` and `\|\|`, short-circuiting as Go does, as `Next` describes them |
| Vm.Bytecode.ArithOp | vm.go:32-59 | integer arithmetic, as `Next` describes it, faulting on a zero divisor |
| Vm.Bytecode.CompareOp | vm.go:60-83 | integer comparison, as `Next` describes it |
| Soundness.TablesAgreeBelow18 | vm.go:11-110 | the registry table and vm.go's table agree on opcodes 0 to 17 and disagree on every opcode from 18 to 21 |
| Soundness.VmRunsLowOpcodes | vm.go:5-83 | a well-formed program that uses only opcodes 0 to 17 runs under vm.go's own table without an out-of-range fault and halts within `len(OpAddrs)` dispatches |
| Soundness.RegistryRunsCompiled | baselib.go:8-23 | with baselib.go's declaration of `funcAddrs`, every compiled program runs under the table `init` builds, faulting at most on a division or remainder by zero, and halts within `len(OpAddrs)` dispatches |
| Soundness.PrintHiNumberingsDisagree | vm.go:84-86 | `Print 'hi'` compiles to a window that runs under baselib.go's numbering but, read with vm.go's hand-written numbering, is `goto` and faults |
| Soundness.CorrectedVmTable | baselib.go:8-23 | the dispatch table numbered as `init` numbers it, with `goto` and `if` after the registry's entries |
| Soundness.CorrectedAgrees | baselib.go:8-23 | the corrected table starts with the 22 registry entries and agrees with vm.go's on 0 to 17 |
| Soundness.CorrectedRuns | vm.go:5-9 | a stream well-formed for the registry runs under the corrected table without an out-of-range fault and halts within `len(OpAddrs)` dispatches |
| Soundness.CompiledProgramsRun | parser.go:35-216 | whatever the source lines, their bytecode never indexes out of range under the corrected table, faults at most by dividing by zero, and halts within `len(OpAddrs)` dispatches |
| Older.Prelude | main.go:39-95 | the prelude defines exactly `+`, `*`, `/` and `-` |
| Older.PreludeOk | main.go:39-95 | every prelude overload is typed, takes two inputs, gives one output, is four wide and never mentions booleans; the overloads of a name are unambiguous |
| Older.IntEntryOk | main.go:61-93 | each single-overload integer entry is well typed and four wide |
| Older.PlusEntryOk | main.go:41-60 | `+` has an int and a string overload, both well typed and four wide |
| Older.InternalWidths | main.go:102-111 | the two internal copies are typed and three wide (the handler's two plus `Run`'s one) |
| Older.AddAllGrows | main.go:125-136 | `AddOps` only appends: the dispatch table and each existing name's overload list grow, and the names are the old ones plus the added ones |
| Older.AddOneConsistent | main.go:126-135 | adding one name's overloads keeps every overload's opcode pointing at its handler |
| Older.AddAllConsistent | main.go:125-136 | `AddOps` keeps every overload's opcode pointing at its handler, in any name order |
| Older.AddOneKeepsTypes | main.go:131-135 | adding one name keeps the table typed and free of booleans |
| Older.AddAllKeepsTypes | main.go:125-136 | `AddOps` keeps the table typed and free of booleans |
| Older.PreludeInstalled | main.go:121-138 | installing the prelude into an empty `Prog`, in any name order, puts the copies at 0 and 1 and gives a consistent, typed, boolean-free table with the prelude's names |
| Older.Prog.constructor | main.go:20-29 | a `Prog` starts with empty tables and made maps, as the literal at example/main.go:23-27 builds it |
| Older.Prog.AddOps | main.go:121-138 | `AddOps` always returns nil and updates the table as `AddAll` describes, leaving the compiled program alone |
| Older.Prog.NumberOps | main.go:126-130 | the overload loop appends the handlers and numbers the overloads from the table's old length |
| Older.Prog.Run | main.go:113-119 | the run loop computes `RunSpec` and, when it halts, resets `Pos` to 0 so the program can run again |
| Older.Prog.Parse | main.go:153-330 | `Parse` computes `CompileFrom` without booleans, and with a boolean-free table it never binds a boolean |
| Older.BoolIsNothingElse | main.go:199 | `True` and `False` are neither identifiers, integers nor strings, so the older loop rejects them |
| Older.OlderStepNoBools | main.go:175-210 | a field accepted by the older loop never adds `True` or `False` as an argument |
| Older.OlderScanNoBools | main.go:170-211 | the older loop never yields a boolean literal as an argument |
| Older.BindingNotBool | main.go:403-413 | without boolean bindings, `typeAndAddrOfID` never answers `Bool` |
| Older.LiteralNotBool | main.go:332-340 | an older literal is a string or an integer, with a value of that type |
| Older.AssignmentNoBools | main.go:213-244 | a plain assignment in the older revision binds no boolean |
| Older.InternArgsNoBools | main.go:252-269 | the older argument loop binds no boolean |
| Older.BindTargetsNoBools | main.go:312-317 | allocating targets of boolean-free types binds no boolean |
| Older.CallNoBools | main.go:245-327 | an older call binds no boolean |
| Older.StatementNoBools | main.go:212-327 | an older statement binds no boolean |
| Older.LineNoBools | main.go:159-327 | an older line binds no boolean |
| Older.CompileNoBools | main.go:153-330 | the older compiler never binds a boolean |

## Left out

- Reading the source with `bufio.Scanner`: the input is a sequence of lines.
- `strings.Fields` and `unicode.IsLetter`/`IsLower`/`IsNumber` are taken over ASCII: white space is space, tab, newline, carriage return, vertical tab and form feed, and letters and digits are the ASCII ones.
- `strconv.Atoi` and Go's `int` are unbounded: the 64-bit range of integer literals and the wrap-around of `+`, `-` and `*` are not modelled. The one overflow of `/` and `%` (`MinInt64 / -1`) goes with them.
- Text.ItoaAtoiRoundTrip: holds for every unbounded integer, where Go's promise stops at the 64-bit range.
- `log.Println` output of `print` and of `Print` is not modelled: the handler only checks its slot and advances `pos`.
- Go's map iteration order is a parameter: the name order `init` and `AddOps` see is any permutation of the names. `typeAndAddrOfID` searches its maps in a fixed order, and `Tables.LookupOrderFree` shows that order is irrelevant while the maps are disjoint, which the compiler invariant keeps.
- The global `funcAddrs` and `baselib` of both files are explicit parameters or fields. The current revision's `init` is the method `Registry.Registry.Init`.
- Runtime panics are faults that stop the run with the record unchanged. When a Go handler would panic on several indexes, the model reports `OutOfRange` before `DivByZero`. `&&` and `||` short-circuit as Go's operators do, so a second operand they do not read is never a fault. The panics in `rawToType`, `copyFuncInstructionForType` and the missing-operation check of `Parse` cannot fire, because the scanner admits only literals, identifiers and registered names.
- Vm.Bytecode.Run and Older.Prog.Run: the unbounded `for` is cut off after `fuel` dispatches. A run that would loop forever through `goto` or `if` ends `OutOfFuel`.
- `DebugPrintSymbol` (main.go:140-151), `Parser.Parse`'s `io.Reader` plumbing and the command-line driver with its JSON encoding of `Bytecode` are input and output only.
- `Variadic` of main.go's `Func` is never read by main.go and is not modelled.
- Nil maps are empty maps only for the `""` entry `init` adds with a nil overload list. Older.Prog.constructor stands for the literal at example/main.go:23-27, which makes the three maps. The zero value `Prog{}` is not modelled: its `FuncIDImpls` is nil, and `AddOps` would panic on its first write to it (main.go:134 and 136).
- Older.Prog.Parse: the older revision's counterpart of `Compile.CompileWellFormed` is not stated. Its two-entry `internalOps` has no boolean copy at opcode 2, which the shared compiler invariant assumes. Only the boolean-free half (`Older.CompileNoBools`) is proved.
- The `Bytecode` JSON tags (bytecode.go:4-7) are serialization only.
- Older.Prog.AddOps: the overload lists are values. main.go:129 writes each numbered overload back into the caller's slice, and main.go:134 stores that same slice in `FuncIDImpls`. The aliasing this creates is not captured: a second `AddOps` with the same map, on this `Prog` or another, renumbers the lists the first one stored. The contracts describe a call that receives a map no other call shares. The repository's one call, example/main.go:28, passes a fresh `Prelude()`.
- Older.AddAllGrows and Older.AddAllConsistent: stated for the value model above, so they say nothing about a list changed later through a shared slice.
- Older.Prog.AddOps: handlers are the `Handler` datatype of the four prelude operations and the copies. An arbitrary `func(*Prog)` passed in through `ops` is not modelled.
- Parser.Parser.CopyToExisting: its in-range precondition stands for the index panic Go would raise. Nothing in parser.go calls `copyToExisting`, so no fault path is modelled for it.
- vm.go's declaration of `funcAddrs` extended by `init`, the other single-declaration build, is not modelled: `init` would number the overloads from 24 on. `Soundness.RegistryRunsCompiled` covers the build that keeps baselib.go's declaration.

## Findings

| source | as written | input that shows it | evidently intended | confidence | as-written member | corrected member |
|---|---|---|---|---|---|---|
| vm.go:84-109 | vm.go's `funcAddrs` literal numbers its handlers by hand: 18 `goto`, 19 `if`, 20-22 `print`, 23 `\|\|`. baselib.go's `init` numbers the overloads after its own three copies: `Print` 18-20, `\|\|` 21. The two numberings disagree from 18 on. Both files declare the package-level `funcAddrs`, so no build keeps both, and the misdispatch is not reachable in one build: the disagreement is in the repository's two descriptions of the opcodes | the line `Print 'hi'` compiles to `OpAddrs = [18, 0]`, `Strs = ["hi"]`. Read with vm.go's numbering, opcode 18 is `goto`, which reads integer slot 0, and there is none | one numbering for both files, as `init` numbers the overloads, with `goto` and `if` after them | not executed | Soundness.PrintHiNumberingsDisagree | Soundness.CompiledProgramsRun |
