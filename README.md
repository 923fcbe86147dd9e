# Mango back end in Dafny

This project models the back end of the Mango stack language. The back end has four stages:

- **Compile.** `MangoCompiler` turns a syntax tree into `ASM` chunks. It lays out each function's frame with `StackFrameDescriptor`.
- **Link.** `MangoLinker` joins the chunks and resolves every `Load.Label` to an address, using an `Encoder`'s instruction sizes.
- **Encode.** `ByteEncoder` turns the linked instructions into opcode bytes followed by big-endian 32-bit operands.
- **Execute.** Three machines run the result:
  - the list virtual machine runs the instruction list;
  - the Kotlin byte-code machine runs the bytes;
  - the Rust port runs the bytes too.

The model also covers three smaller parts of the repository:

- the nested-function validator;
- the tree-walking `MangoInterpreter` with its `RuntimeEnvironment`, which serves as the reference semantics;
- the prototype machine over `ArrayProgram` and `ArrayStack`.

The model takes each part in the form it has in the source:

- Pure code is datatypes and functions: the syntax tree, `ASM`, the visitor traversal, the linker's passes, `sizeOf` and the opcode table.
- Classes whose fields change become Dafny classes, and each method is proved equal to a specification function of the old state:
  - `StackFrameDescriptor`, `LocalsVisitor`, `FunctionCompiler`, `BootstrapCompiler`, `MangoLinker` and the byte buffer;
  - the three machines;
  - the validator, the runtime environment and the interpreter;
  - `ArrayStack` and the prototype machine.
- The properties are then proved about those specification functions.

Integers follow the source:

- Kotlin `Int` arithmetic wraps modulo 2^32 (`Int32.Wrap`).
- Division and remainder truncate toward zero (`Int32.TruncDiv`, `Int32.TruncRem`).
- Rust `i32` arithmetic is modelled as in a debug build: an overflow, or `MIN / -1`, panics (`Int32.Checked`, `Int32.RustDiv`).

Every unbounded loop and recursion takes a `fuel` bound:

- the run loops of the three back-end machines;
- the interpreter's calls and its `while` loop.

The prototype machine needs none, because its counter only moves forward.

The syntax tree is rebuilt from the way the compiler, the visitors and the interpreter use it. A function has `parameters`, as `MangoCompiler.kt` and `AST.kt` name them. `StackFrameDescriptor.kt` instead reads `function.arguments`. The parser is not part of this model, so it is not in the model that the parser appends an implicit `return 0` to a body without one. A body is taken with its final `return`, as the parser produces it. So `fn main() {}` is `Function("main", [], [Return(IntLit(0))])`.

The back-end compiler knows the multiplication operator by the token name `"times"`. The interpreter and the token table call it `"multiply"`. The model keeps both names as written, and `CompilerFacts.UnknownOperatorAborts` records the mismatch.

## Model

| member | source | states |
|---|---|---|
| AstVisitor.TraceBlockAppend | parser/src/commonMain/kotlin/lang/mango/parser/ASTVisitor.kt:72-74 | a block visits its statements in list order: the trace of a concatenation is the two traces in order |
| AstVisitor.ExprTraceHasNoDeclarations | parser/src/commonMain/kotlin/lang/mango/parser/ASTVisitor.kt:76-92 | visiting an expression (literal, unary, binary, call, identifier) never invokes a declaration handler |
| AstVisitor.ExprsTraceHasNoDeclarations | parser/src/commonMain/kotlin/lang/mango/parser/ASTVisitor.kt:87-90 | the same for a call's argument list visited in order |
| Frame.CollectLocalsAppend | parser/src/commonMain/kotlin/lang/mango/compiler/StackFrameDescriptor.kt:55-69 | the locals visitor's list after two traces in turn is the list after their concatenation |
| Frame.CollectLocalsIgnoresNonDeclarations | parser/src/commonMain/kotlin/lang/mango/compiler/StackFrameDescriptor.kt:55-69 | events other than declarations leave the collected list unchanged |
| Frame.CollectLocalsOfConditional | parser/src/commonMain/kotlin/lang/mango/compiler/StackFrameDescriptor.kt:55-69 | a `when` or `while` contributes exactly the declarations of its body, its condition none |
| Frame.CollectLocalsOfBlock | parser/src/commonMain/kotlin/lang/mango/compiler/StackFrameDescriptor.kt:66-68 | without nested functions, a block adds its declared names in traversal order, including those inside nested `when`/`while`/blocks |
| Frame.CollectLocalsOfStmt | parser/src/commonMain/kotlin/lang/mango/compiler/StackFrameDescriptor.kt:66-68 | the same for one statement |
| Frame.CollectLocalsOfFunctionHeader | parser/src/commonMain/kotlin/lang/mango/compiler/StackFrameDescriptor.kt:61-64 | visiting a function declaration clears the list, so only its body's declarations stay |
| Frame.FunctionLocalsAreDeclarations | parser/src/commonMain/kotlin/lang/mango/compiler/StackFrameDescriptor.kt:29-32 | the locals of a function without nested functions are exactly its declared names in order |
| Frame.NestedFunctionResetsLocals | parser/src/commonMain/kotlin/lang/mango/compiler/StackFrameDescriptor.kt:61-64 | a nested function declaration discards the declarations before it: the locals are the nested body's and those after it |
| Frame.LocalsVisitor.VisitFunction | parser/src/commonMain/kotlin/lang/mango/compiler/StackFrameDescriptor.kt:55-69 | the visitor's list after visiting a function is the collected list of the function's trace |
| Frame.LocalsVisitor.VisitBlock | parser/src/commonMain/kotlin/lang/mango/parser/ASTVisitor.kt:72-74 | the same for a block |
| Frame.LocalsVisitor.VisitStmt | parser/src/commonMain/kotlin/lang/mango/parser/ASTVisitor.kt:5-22 | the same for one statement, dispatched by its kind |
| Frame.LocalsVisitor.VisitExpr | parser/src/commonMain/kotlin/lang/mango/parser/ASTVisitor.kt:76-92 | visiting an expression leaves the list unchanged |
| Frame.IndexOf | parser/src/commonMain/kotlin/lang/mango/compiler/StackFrameDescriptor.kt:46-47 | the position of the first match from the top; absent exactly when the slot is not in the frame |
| Frame.StackFrameDescriptor.constructor | parser/src/commonMain/kotlin/lang/mango/compiler/StackFrameDescriptor.kt:23-33 | the fresh layout is the return slots, then the parameters pushed in order, then the collected locals |
| Frame.StackFrameDescriptor.Offset | parser/src/commonMain/kotlin/lang/mango/compiler/StackFrameDescriptor.kt:46-52 | fails exactly for a slot not in the frame; otherwise the slot is at that offset and at no smaller one |
| Frame.StackFrameDescriptor.Push | parser/src/commonMain/kotlin/lang/mango/compiler/StackFrameDescriptor.kt:35-37 | a temporary goes on top of the frame |
| Frame.StackFrameDescriptor.Pop | parser/src/commonMain/kotlin/lang/mango/compiler/StackFrameDescriptor.kt:39-44 | succeeds exactly when the top is a temporary, removes it, and otherwise leaves the frame unchanged |
| Frame.PushLocalsShape | parser/src/commonMain/kotlin/lang/mango/compiler/StackFrameDescriptor.kt:27-32 | pushing names in order puts the last name on top, keeps the stack below, and adds one local per name |
| Frame.InitialLayoutSizes | parser/src/commonMain/kotlin/lang/mango/compiler/StackFrameDescriptor.kt:17-33 | total size is 2 + parameters + declared locals; `localsSize` counts the parameters and declared locals only |
| Frame.InitialLayoutSlots | parser/src/commonMain/kotlin/lang/mango/compiler/StackFrameDescriptor.kt:23-33 | return value at the bottom, return address above it, parameter i at n+m-1-i, local j at n-1-j, and only locals above the return slots |
| Frame.ReturnSlotOffsets | parser/src/commonMain/kotlin/lang/mango/compiler/StackFrameDescriptor.kt:24-25 | `ReturnValue` is at offset totalSize-1 and `ReturnAddress` at totalSize-2 |
| Frame.ParameterOffset | parser/src/commonMain/kotlin/lang/mango/compiler/StackFrameDescriptor.kt:27-28 | an unshadowed parameter i is found at locals + parameters - 1 - i, so the last parameter is nearest the top of the parameters |
| Frame.DeclaredLocalOffset | parser/src/commonMain/kotlin/lang/mango/compiler/StackFrameDescriptor.kt:29-32 | the j-th declared local (last of its name) is at offset locals - 1 - j, above all parameters |
| Frame.PushShiftsOffsets | parser/src/commonMain/kotlin/lang/mango/compiler/StackFrameDescriptor.kt:35-52 | a pushed temporary moves every other slot one deeper and leaves `localsSize` unchanged |
| Frame.EmptyFunctionFrame | parser/src/commonTest/kotlin/lang/mango/compiler/StackFrameDescriptorTests.kt:14-21 | `fn test() {}` has a frame of size 2 |
| Frame.ParametersOnlyFrame | parser/src/commonTest/kotlin/lang/mango/compiler/StackFrameDescriptorTests.kt:23-38 | `fn test(a, b) {}`: size 4, return value 3, return address 2, `a` 1, `b` 0 |
| Frame.LocalsOnlyFrame | parser/src/commonTest/kotlin/lang/mango/compiler/StackFrameDescriptorTests.kt:40-53 | a body declaring `a` then `b`: size 4, return value 3, return address 2, `a` 1, `b` 0 |
| Compiler.ResolveFindsLast | core/src/main/kotlin/lang/mango/compiler/MangoCompiler.kt:22-31 | the resolver knows exactly the declared names, and a duplicated name resolves to its last declaration (`associateBy`) |
| Compiler.NatToStringInjective | core/src/main/kotlin/lang/mango/compiler/MangoCompiler.kt:211 | the decimal rendering of the label counter is injective |
| Compiler.ReturnLabelsDistinct | core/src/main/kotlin/lang/mango/compiler/MangoCompiler.kt:210-214 | `.return.<fn>.<n>` labels drawn at different counter values differ |
| Compiler.Zeros | core/src/main/kotlin/lang/mango/compiler/MangoCompiler.kt:71-73 | `repeat(n)` of `Load.Constant(0)`: n constants zero, none for a negative count |
| Compiler.OffsetIn | parser/src/commonMain/kotlin/lang/mango/compiler/StackFrameDescriptor.kt:46-52 | the descriptor's `offset` on the compiler's frame: the first match from the top, failing for an absent slot |
| Compiler.OperatorOf | core/src/main/kotlin/lang/mango/compiler/MangoCompiler.kt:163-175 | exactly the ten token names the compiler knows have an `Op` |
| Compiler.GenExpr | core/src/main/kotlin/lang/mango/compiler/MangoCompiler.kt:148-188 | expression code only extends the emitted code, keeps the return-label stack and the frame, and never lowers the counter |
| Compiler.GenCall | core/src/main/kotlin/lang/mango/compiler/MangoCompiler.kt:58-78 | the same for a call sequence |
| Compiler.GenArgs | core/src/main/kotlin/lang/mango/compiler/MangoCompiler.kt:66-68 | the same for the arguments of a call |
| Compiler.GenStmt | core/src/main/kotlin/lang/mango/compiler/MangoCompiler.kt:117-146 | the same for a statement |
| Compiler.GenBlock | core/src/main/kotlin/lang/mango/compiler/MangoCompiler.kt:113-115 | the same for a block |
| Compiler.CompileFunctions | core/src/main/kotlin/lang/mango/compiler/MangoCompiler.kt:16 | one chunk per function, in declaration order, each the compilation of its function |
| Compiler.FunctionCompiler.constructor | core/src/main/kotlin/lang/mango/compiler/MangoCompiler.kt:98-106 | a fresh compiler holds no code, no labels, counter 0, empty label lists and the function's initial frame |
| Compiler.FunctionCompiler.EmitLabeled | core/src/main/kotlin/lang/mango/compiler/MangoCompiler.kt:190-198 | the state after the overriding `emit` is the specification's |
| Compiler.FunctionCompiler.Emit | core/src/main/kotlin/lang/mango/compiler/MangoCompiler.kt:44-48 | the same without labels of its own |
| Compiler.FunctionCompiler.PushReturnLabel | core/src/main/kotlin/lang/mango/compiler/MangoCompiler.kt:210-214 | label and state are the specification's |
| Compiler.FunctionCompiler.RequireReturnLabel | core/src/main/kotlin/lang/mango/compiler/MangoCompiler.kt:216-222 | succeeds exactly when the specification does, with its state |
| Compiler.FunctionCompiler.Expression | core/src/main/kotlin/lang/mango/compiler/MangoCompiler.kt:148-188 | succeeds exactly when `GenExpr` does, and leaves its state |
| Compiler.FunctionCompiler.FunctionCall | core/src/main/kotlin/lang/mango/compiler/MangoCompiler.kt:58-78 | succeeds exactly when `GenCall` does, and leaves its state |
| Compiler.FunctionCompiler.Arguments | core/src/main/kotlin/lang/mango/compiler/MangoCompiler.kt:66-68 | the `forEachIndexed` loop over the arguments agrees with `GenArgs` |
| Compiler.FunctionCompiler.EmitZeros | core/src/main/kotlin/lang/mango/compiler/MangoCompiler.kt:71-73 | the `repeat` loop agrees with the specification's zero padding |
| Compiler.FunctionCompiler.Statement | core/src/main/kotlin/lang/mango/compiler/MangoCompiler.kt:117-146 | succeeds exactly when `GenStmt` does, and leaves its state |
| Compiler.FunctionCompiler.ReturnFromFunction | core/src/main/kotlin/lang/mango/compiler/MangoCompiler.kt:200-208 | `Pop(localsSize)` only when there are locals, then `Jump` |
| Compiler.FunctionCompiler.Block | core/src/main/kotlin/lang/mango/compiler/MangoCompiler.kt:113-115 | succeeds exactly when `GenBlock` does, and leaves its state |
| Compiler.FunctionCompiler.Compile | core/src/main/kotlin/lang/mango/compiler/MangoCompiler.kt:108-111 | the chunk is `CompileFunction`'s, and fails exactly when it does |
| Compiler.BootstrapCompiler.constructor | core/src/main/kotlin/lang/mango/compiler/MangoCompiler.kt:83-85 | a fresh compiler with an empty state and an empty frame |
| Compiler.BootstrapCompiler.Emit | core/src/main/kotlin/lang/mango/compiler/MangoCompiler.kt:44-52 | the base `emit`, binding the given labels to the new instruction |
| Compiler.BootstrapCompiler.Compile | core/src/main/kotlin/lang/mango/compiler/MangoCompiler.kt:86-91 | the chunk is `CompileBootstrap`'s, and fails exactly when it does |
| CompilerFacts.IdentShape | core/src/main/kotlin/lang/mango/compiler/MangoCompiler.kt:150-153 | an identifier compiles exactly when it is a local of the frame, to `Load.Relative(offset + compensation)` |
| CompilerFacts.BinaryShape | core/src/main/kotlin/lang/mango/compiler/MangoCompiler.kt:157-179 | right operand, then left operand one temporary deeper, then one `Op`; the frame afterwards equals the frame before |
| CompilerFacts.UnknownOperatorAborts | core/src/main/kotlin/lang/mango/compiler/MangoCompiler.kt:174 | an unknown operator aborts with `Unknown operator: <op>`; `"times"` is known and `"multiply"` is not |
| CompilerFacts.CallExprShape | core/src/main/kotlin/lang/mango/compiler/MangoCompiler.kt:181-184 | a call takes a fresh return label, and that label is pending after the call, ahead of any labels the call left pending |
| CompilerFacts.CallShape | core/src/main/kotlin/lang/mango/compiler/MangoCompiler.kt:58-78 | an unknown callee aborts; otherwise the code is `Load.Constant(0)`, `Load.Label(ret)`, the arguments, callee locals - #args zeros, `Load.Label(callee)`, `Jump` |
| CompilerFacts.ArgsShape | core/src/main/kotlin/lang/mango/compiler/MangoCompiler.kt:66-68 | argument i is compiled with the compensation the chosen rule gives for index i |
| CompilerFacts.CompilesIff | core/src/main/kotlin/lang/mango/compiler/MangoCompiler.kt:148-188 | an expression compiles exactly when its identifiers are locals, its operators known, its callees resolvable, and it has no unary operation |
| CompilerFacts.CallCompilesIff | core/src/main/kotlin/lang/mango/compiler/MangoCompiler.kt:58-78 | a call compiles exactly when its callee resolves and every argument compiles |
| CompilerFacts.ArgsCompileIff | core/src/main/kotlin/lang/mango/compiler/MangoCompiler.kt:66-68 | the arguments compile exactly when each does |
| CompilerFacts.TemporaryHidesNothing | core/src/main/kotlin/lang/mango/compiler/MangoCompiler.kt:159-161 | a pushed temporary changes no identifier's compilability |
| CompilerFacts.ReturnShape | core/src/main/kotlin/lang/mango/compiler/MangoCompiler.kt:119-128 | the expression, `Store(offset(ReturnValue))`, `Pop(localsSize)` only when positive (never `Pop(0)`), then `Jump` |
| CompilerFacts.VarDeclShape | core/src/main/kotlin/lang/mango/compiler/MangoCompiler.kt:130-134 | compiles exactly when the expression does and the variable is in the frame; the expression, then `Store` to its slot |
| CompilerFacts.WhenShape | core/src/main/kotlin/lang/mango/compiler/MangoCompiler.kt:136-142 | the condition, a fresh `Load.Label(L)`, `JumpWhenZero`, the body; L is then pending, ahead of the body's pending labels |
| CompilerFacts.OtherStatementsAbort | core/src/main/kotlin/lang/mango/compiler/MangoCompiler.kt:144 | every statement other than return, variable declaration and `when` aborts compilation |
| CompilerFacts.ZerosBindNothing | core/src/main/kotlin/lang/mango/compiler/MangoCompiler.kt:71-73 | the zero padding binds no label |
| CompilerFacts.BootstrapShape | core/src/main/kotlin/lang/mango/compiler/MangoCompiler.kt:86-91 | the bootstrap compiles exactly when `main` exists, to a call of `main` returning to `.exit` and an `Exit` labelled `.exit` |
| CompilerFacts.BootstrapCall | core/src/main/kotlin/lang/mango/compiler/MangoCompiler.kt:86-88 | the bootstrap's call of `main` is the return-value slot, the `.exit` return address, zeros for all of `main`'s locals, `main`'s address and the jump, binding no label |
| CompilerFacts.FunctionChunkShape | core/src/main/kotlin/lang/mango/compiler/ASM.kt:54-56 | a compiled function's chunk carries that function, so its name is the function's name |
| CompilerFacts.CompileSucceedsIff | core/src/main/kotlin/lang/mango/compiler/MangoCompiler.kt:6-19 | `compile` fails exactly when the bootstrap (if asked for) or some function fails to compile |
| CompilerFacts.CompileBootstrapFirst | core/src/main/kotlin/lang/mango/compiler/MangoCompiler.kt:11-16 | one chunk per function, plus the bootstrap chunk, named `bootstrap`, first when asked for |
| CompilerFacts.CompileChunkOrder | core/src/main/kotlin/lang/mango/compiler/MangoCompiler.kt:16 | after the bootstrap, chunk i is the compilation of function i, in declaration order |
| CompilerFacts.EmptyProgram | core/src/test/kotlin/lang/mango/compiler/MangoCompilerTests.kt:18-22 | an empty program compiled without bootstrap gives no chunks |
| CompilerFacts.ReturnConstantExample | core/src/test/kotlin/lang/mango/compiler/MangoCompilerTests.kt:25-38 | `fn main() { return v }` compiles to `[Load.Constant(v), Store(1), Jump]`, and `v` = 0 is `fn main() {}` |
| CompilerFacts.ReturnConstantLayout | parser/src/commonMain/kotlin/lang/mango/compiler/StackFrameDescriptor.kt:17-33 | the frame of `fn main() { return v }` is just the return address above the return value, with no locals |
| CompilerFacts.ReturnConstantBlock | core/src/main/kotlin/lang/mango/compiler/MangoCompiler.kt:200-208 | over a frame of only the two return slots, `return v` is `[Load.Constant(v), Store(1), Jump]` with no `Pop` and no label |
| CallingConvention.ExprReads | core/src/main/kotlin/lang/mango/compiler/MangoCompiler.kt:148-188 | the stack reads of an expression's code are given by a read function of the variables' layout slots and the compensation rule |
| CallingConvention.IdentReads | core/src/main/kotlin/lang/mango/compiler/MangoCompiler.kt:150-153 | the same for an identifier |
| CallingConvention.BinaryReads | core/src/main/kotlin/lang/mango/compiler/MangoCompiler.kt:157-179 | the same for a binary operation, whose left operand sees one more temporary |
| CallingConvention.CallReads | core/src/main/kotlin/lang/mango/compiler/MangoCompiler.kt:58-78 | the same for a call |
| CallingConvention.ArgsReads | core/src/main/kotlin/lang/mango/compiler/MangoCompiler.kt:66-68 | the same for the arguments of a call |
| CallingConvention.IndexAboveTemporaries | parser/src/commonMain/kotlin/lang/mango/compiler/StackFrameDescriptor.kt:35-47 | t temporaries on top of a layout find every variable exactly t slots deeper |
| CallingConvention.TemporariesPlaced | parser/src/commonMain/kotlin/lang/mango/compiler/StackFrameDescriptor.kt:35-37 | a layout under t temporaries sits t slots below the top |
| CallingConvention.PushPlaced | parser/src/commonMain/kotlin/lang/mango/compiler/StackFrameDescriptor.kt:35-37 | one more temporary puts the layout one slot deeper |
| CallingConvention.ThreadedReadsAreReference | core/src/main/kotlin/lang/mango/compiler/MangoCompiler.kt:58-78 | with the compensation threaded through, every read is the variable's depth on the run-time stack at that point |
| CallingConvention.ThreadedArgReadsAreReference | core/src/main/kotlin/lang/mango/compiler/MangoCompiler.kt:66-68 | the same for argument i, which runs 2 + i slots above its caller's depth |
| CallingConvention.ThreadedReadsFollowConvention | core/src/main/kotlin/lang/mango/compiler/MangoCompiler.kt:58-78 | corrected compiler: every `Load.Relative` reads the slot the calling convention puts the variable in, however deeply calls nest |
| CallingConvention.ThreadedStatementExpression | core/src/main/kotlin/lang/mango/compiler/MangoCompiler.kt:117-146 | the same for an expression compiled by a statement |
| CallingConvention.NestedCallMisaddresses | core/src/main/kotlin/lang/mango/compiler/MangoCompiler.kt:66-68 | as written: in `id(id(b))` the inner argument reads depth 2 where `b` is at depth 4; the threaded rule reads 4 |
| CallingConvention.CallFreeReadsIgnoreMode | core/src/main/kotlin/lang/mango/compiler/MangoCompiler.kt:148-188 | in an expression without calls, the compensation rule as written and the threaded one read the same slots at any offset |
| CallingConvention.CallFreeArgReadsIgnoreMode | core/src/main/kotlin/lang/mango/compiler/MangoCompiler.kt:66-68 | the same for call-free arguments |
| CallingConvention.AsWrittenReadsWithoutNesting | core/src/main/kotlin/lang/mango/compiler/MangoCompiler.kt:58-78 | as written, every read is the variable's depth when no call sits inside another call's arguments |
| CallingConvention.AsWrittenStatementExpression | core/src/main/kotlin/lang/mango/compiler/MangoCompiler.kt:117-146 | the same for an expression compiled by a statement |
| Encoder.SumSizesAppend | parser/src/main/kotlin/lang/mango/compiler/Encoder.kt:25-29 | the total size of two lists in turn is the sum of their sizes |
| Encoder.SumSizesPrefix | core/src/main/kotlin/lang/mango/compiler/MangoLinker.kt:19-27 | each instruction adds its size to the running total, which never exceeds the whole |
| Encoder.LabelSizedAsConstant | parser/src/main/kotlin/lang/mango/compiler/Encoder.kt:18 | `Load.Label` is sized like `Load.Constant`, so rewriting labels keeps every address |
| Encoder.Int32Bytes | parser/src/main/kotlin/lang/mango/compiler/Encoder.kt:37-42 | an operand is written as 4 bytes |
| Encoder.Int32RoundTrip | parser/src/main/kotlin/lang/mango/compiler/Encoder.kt:37-42 | reading back the 4 big-endian two's-complement bytes of an operand gives the operand |
| Encoder.EncodeOne | parser/src/main/kotlin/lang/mango/compiler/Encoder.kt:31-56 | fails exactly for `Load.Label`; otherwise writes exactly `sizeOf` bytes |
| Encoder.EncodeAll | parser/src/main/kotlin/lang/mango/compiler/Encoder.kt:25-38 | succeeds exactly on label-free code, with length the sum of the sizes; a `Load.Label` fails with the message of the `NotImplementedError` it throws |
| Encoder.EncodingAt | parser/src/main/kotlin/lang/mango/compiler/Encoder.kt:25-56 | the bytes at an instruction's address are that instruction's own encoding |
| Encoder.DecodeEncodeOne | core/src/main/kotlin/lang/mango/vm/ByteCodeVirtualMachine.kt:26-92 | decoding the bytes of one encoded instruction gives the instruction back and the address after it |
| Encoder.DecodeAtAddress | core/src/main/kotlin/lang/mango/vm/ByteCodeVirtualMachine.kt:26-92 | in an encoded label-free program, decoding at instruction i's address gives instruction i and instruction i+1's address |
| Encoder.ByteBuffer.constructor | parser/src/main/kotlin/lang/mango/compiler/Encoder.kt:26 | a buffer of the requested size, at position 0 |
| Encoder.ByteBuffer.Put | parser/src/main/kotlin/lang/mango/compiler/Encoder.kt:33-54 | writes one byte at the position and advances it; overflows leave the buffer as it was |
| Encoder.ByteBuffer.PutInt | parser/src/main/kotlin/lang/mango/compiler/Encoder.kt:37-42 | writes the 4 operand bytes at the position and advances it by 4, when they fit |
| Encoder.Encode | parser/src/main/kotlin/lang/mango/compiler/Encoder.kt:25-29 | the buffer loop's result is `EncodeAll`'s |
| Encoder.EncodeInstruction | parser/src/main/kotlin/lang/mango/compiler/Encoder.kt:31-56 | appends exactly the instruction's encoding and advances the position by its size |
| Linker.FlattenLayout | core/src/main/kotlin/lang/mango/compiler/MangoLinker.kt:7-15 | instruction j of chunk k lands at the chunk's start plus j, in chunk order |
| Linker.Bind | core/src/main/kotlin/lang/mango/compiler/MangoLinker.kt:22-24 | every label of an instruction is bound to the current address; other entries are kept |
| Linker.TableDomain | core/src/main/kotlin/lang/mango/compiler/MangoLinker.kt:17-27 | a label has an address exactly when some instruction carries it |
| Linker.TableValue | core/src/main/kotlin/lang/mango/compiler/MangoLinker.kt:17-27 | a label's address is the wrapped sum of the sizes of all instructions before its last carrier |
| Linker.TableValueUnwrapped | core/src/main/kotlin/lang/mango/compiler/MangoLinker.kt:19-27 | when the program fits in `Int`, the address is that sum exactly |
| Linker.TableStep | core/src/main/kotlin/lang/mango/compiler/MangoLinker.kt:21-27 | one turn of the address loop: bind the labels at `ip`, then `ip += sizeOf` |
| Linker.Rewrite | core/src/main/kotlin/lang/mango/compiler/MangoLinker.kt:29-39 | succeeds exactly when every `Load.Label` is bound; then `Load.Label(l)` becomes `Load.Constant(address(l))`, the rest is unchanged, and no label is left |
| Linker.LinkShape | core/src/main/kotlin/lang/mango/compiler/MangoLinker.kt:6-40 | the linked program has one instruction per annotated instruction, no `Load.Label`, and every other instruction in place |
| Linker.LinkFailsOnUnboundLabel | core/src/main/kotlin/lang/mango/compiler/MangoLinker.kt:34 | linking fails exactly when some `Load.Label` names a label no instruction carries |
| Linker.MangoLinker.constructor | core/src/main/kotlin/lang/mango/compiler/MangoLinker.kt:3-5 | the linker keeps its encoder |
| Linker.MangoLinker.Addresses | core/src/main/kotlin/lang/mango/compiler/MangoLinker.kt:17-27 | the `forEach` loop over `ip` builds the address table |
| Linker.MangoLinker.BindLabels | core/src/main/kotlin/lang/mango/compiler/MangoLinker.kt:22-24 | the inner loop binds the instruction's labels |
| Linker.MangoLinker.Link | core/src/main/kotlin/lang/mango/compiler/MangoLinker.kt:6-40 | `link` gives the flattened, addressed and rewritten program |
| ListVm.ApplyOp | parser/src/commonMain/kotlin/lang/mango/compiler/VirtualMachine.kt:57-75 | `+`, `-`, `*` give the exact result modulo 2^32; `Div`/`Mod` fail exactly on a zero divisor and otherwise truncate toward zero, with `MIN / -1` wrapping to `MIN`; each comparison gives 1 exactly when it holds and 0 otherwise |
| ListVm.VirtualMachine.constructor | parser/src/commonMain/kotlin/lang/mango/compiler/VirtualMachine.kt:3-9 | a fresh machine at ip 0 with an empty stack |
| ListVm.VirtualMachine.PopValue | parser/src/commonMain/kotlin/lang/mango/compiler/VirtualMachine.kt:25 | removes and returns the top (index 0), failing on an empty stack |
| ListVm.VirtualMachine.Step | parser/src/commonMain/kotlin/lang/mango/compiler/VirtualMachine.kt:17-23 | the state after `step` is the transition's, and `step` fails exactly when it does |
| ListVm.VirtualMachine.HandleInstruction | parser/src/commonMain/kotlin/lang/mango/compiler/VirtualMachine.kt:27-79 | `handle` of one instruction agrees with the specification of that instruction |
| ListVm.VirtualMachine.PopCount | parser/src/commonMain/kotlin/lang/mango/compiler/VirtualMachine.kt:49-53 | the `repeat` loop removes exactly `count` values, failing when fewer are there, as `Pop(count)` is specified |
| ListVm.VirtualMachine.Operate | parser/src/commonMain/kotlin/lang/mango/compiler/VirtualMachine.kt:57-75 | pops `left` then `right` and pushes `ApplyOp`'s result, failing exactly when the stack is short or the division is by zero |
| ListVm.VirtualMachine.Run | parser/src/commonMain/kotlin/lang/mango/compiler/VirtualMachine.kt:11-15 | the `while` loop reaches the bounded run's state, or fails when it does |
| ListVm.LoadRelativeCopies | parser/src/commonMain/kotlin/lang/mango/compiler/VirtualMachine.kt:31 | `Load.Relative(k)` succeeds exactly for a depth in the stack and pushes a copy of depth k |
| ListVm.StoreOverwrites | parser/src/commonMain/kotlin/lang/mango/compiler/VirtualMachine.kt:33-36 | `Store(k)` pops the top and overwrites depth k of the rest, leaving every other slot |
| ListVm.StoreThenLoad | parser/src/commonMain/kotlin/lang/mango/compiler/VirtualMachine.kt:31-36 | after `Store(k)`, `Load.Relative(k)` reads the stored value |
| ListVm.PopRemoves | parser/src/commonMain/kotlin/lang/mango/compiler/VirtualMachine.kt:49-53 | `Pop(n)` succeeds exactly when n values are there, and leaves the stack n shorter |
| ListVm.PushThenPop | parser/src/commonMain/kotlin/lang/mango/compiler/VirtualMachine.kt:30-53 | `Load.Constant` then `Pop(1)` restores the state |
| ListVm.JumpWhenZeroBranches | parser/src/commonMain/kotlin/lang/mango/compiler/VirtualMachine.kt:42-47 | pops address then condition; the next position is the address exactly when the condition is 0, and the next instruction otherwise |
| ListVm.OperationPopsTwoPushesOne | parser/src/commonMain/kotlin/lang/mango/compiler/VirtualMachine.kt:57-75 | an `Op` takes the top as left and the next as right and pushes one result |
| ListVm.ExitHalts | parser/src/commonMain/kotlin/lang/mango/compiler/VirtualMachine.kt:55 | `Exit` moves ip to the program size, after which the run is over |
| ListVm.HaltedIsFixpoint | parser/src/commonMain/kotlin/lang/mango/compiler/VirtualMachine.kt:17-20 | `step` at ip ≥ size does nothing, and a run from there stays |
| ListVm.ExecuteSplits | parser/src/commonMain/kotlin/lang/mango/compiler/VirtualMachine.kt:11-15 | running a + b steps is running a steps and then b |
| ListVm.ReturnConstantRuns | core/src/test/kotlin/lang/mango/compiler/MangoCompilerTests.kt:60-64 | the linked `fn main() { return v }` halts with ip 8 and stack `[v]` |
| ByteVm.Signed | core/src/main/kotlin/lang/mango/vm/ByteCodeVirtualMachine.kt:26-28 | a byte read through the signed `ByteArray` is in [-128, 128), negative from 0x80 |
| ByteVm.ReadInt | core/src/main/kotlin/lang/mango/vm/ByteCodeVirtualMachine.kt:38-60 | an operand read succeeds exactly when 4 bytes remain |
| ByteVm.ByteOperationIsApplyOp | core/src/main/kotlin/lang/mango/vm/ByteCodeVirtualMachine.kt:62-88 | the arithmetic and comparison opcodes compute what the list machine's `Op` of the same code does |
| ByteVm.ByteStepDecodes | core/src/main/kotlin/lang/mango/vm/ByteCodeVirtualMachine.kt:18-92 | a byte step is the list machine's handler of the decoded instruction, and fails where nothing decodes |
| ByteVm.HandleStackIgnoresIp | parser/src/commonMain/kotlin/lang/mango/compiler/VirtualMachine.kt:27-79 | an instruction's effect on the stack does not depend on ip or program size |
| ByteVm.HandleResumes | parser/src/commonMain/kotlin/lang/mango/compiler/VirtualMachine.kt:28-55 | only `Exit`, `Jump` and `JumpWhenZero` move ip away from the next instruction |
| ByteVm.AddressWithin | parser/src/main/kotlin/lang/mango/compiler/Encoder.kt:25-29 | instruction addresses increase and end at the encoded length |
| ByteVm.StepCorresponds | core/src/main/kotlin/lang/mango/vm/ByteCodeVirtualMachine.kt:18-92 | a list step at i and a byte step at i's address fail together and give the same stack; the byte ip is the address of the list ip, or the same jump target |
| ByteVm.HandlesCorrespond | parser/src/commonMain/kotlin/lang/mango/compiler/VirtualMachine.kt:27-79 | one instruction handled at two program sizes and resume points fails on both or neither, gives equal stacks, and moves the counter to the size, the same jump target or the resume point |
| ByteVm.ByteCodeVirtualMachine.constructor | core/src/main/kotlin/lang/mango/vm/ByteCodeVirtualMachine.kt:5-10 | a fresh machine at ip 0 with an empty stack |
| ByteVm.ByteCodeVirtualMachine.PopValue | core/src/main/kotlin/lang/mango/vm/ByteCodeVirtualMachine.kt:94 | removes and returns the top (index 0), failing on an empty stack |
| ByteVm.ByteCodeVirtualMachine.Step | core/src/main/kotlin/lang/mango/vm/ByteCodeVirtualMachine.kt:18-24 | the state after `step` is the byte transition's |
| ByteVm.ByteCodeVirtualMachine.HandleByte | core/src/main/kotlin/lang/mango/vm/ByteCodeVirtualMachine.kt:26-92 | `handle` of one opcode agrees with the byte transition |
| ByteVm.ByteCodeVirtualMachine.HandleOperand | core/src/main/kotlin/lang/mango/vm/ByteCodeVirtualMachine.kt:38-60 | the four operand opcodes agree with the byte transition once the operand is read |
| ByteVm.ByteCodeVirtualMachine.Run | core/src/main/kotlin/lang/mango/vm/ByteCodeVirtualMachine.kt:12-16 | the `while` loop reaches the bounded run's state, or fails when it does |
| RustVm.AsUsize | rust-vm/src/vm.rs:38-47 | `as usize` keeps a non-negative value and takes a negative one far past any code length |
| RustVm.GetI32 | rust-vm/src/vm.rs:113-124 | four big-endian bytes are read when they are there, and a slice panic otherwise; a successful read is the same operand the Kotlin byte-code machine reads |
| RustVm.ReverseInvolution | rust-vm/src/vm.rs:49-63 | reversing the stack twice gives it back, so the Rust stack and the Kotlin deque determine each other |
| RustVm.RustStackMirrorsDeque | rust-vm/src/vm.rs:36-111 | on the mirrored stack, `pop` fails exactly on an empty deque and yields its first element; `push` is the deque's push at the front; `Pop(n)` fails exactly when the deque's does and leaves its mirror; the result is the deque's first element |
| RustVm.DepthIndex | rust-vm/src/vm.rs:49-63 | depth `offset` is index len-1-offset, and panics outside the stack |
| RustVm.RustOperationAgrees | rust-vm/src/vm.rs:72-101 | where the checked Rust operation succeeds it equals the Kotlin one; comparisons never panic |
| RustVm.RustHandle | rust-vm/src/vm.rs:27-106 | a successful opcode keeps the stack within `Vec`'s bound |
| RustVm.RustStep | rust-vm/src/vm.rs:18-107 | the same for a step |
| RustVm.RustExecute | rust-vm/src/vm.rs:12-16 | the same for a bounded run |
| RustVm.RustRefinesByteVm | rust-vm/src/vm.rs:18-107 | a Rust step that does not panic takes the mirrored Kotlin state to the mirror of the Kotlin step's result; where only Rust panics, an arithmetic opcode overflowed |
| RustVm.HandleWithOperandRefines | rust-vm/src/vm.rs:44-70 | the same for the four operand opcodes, which never panic where Kotlin succeeds |
| RustVm.LoadConstantRefines | rust-vm/src/vm.rs:44-47 | `0x10` pushes the same operand at the end of the vector that Kotlin pushes at index 0, and panics only where Kotlin fails to read it |
| RustVm.LoadRelativeRefines | rust-vm/src/vm.rs:49-55 | `0x11` reading `stack[len - 1 - offset]` pushes the value Kotlin reads at `stack[offset]`, and is in range exactly when Kotlin's read is |
| RustVm.StoreRefines | rust-vm/src/vm.rs:57-63 | `0x20` pops from the end and writes the slot that mirrors Kotlin's `stack[offset]` of the remaining stack |
| RustVm.PopRefines | rust-vm/src/vm.rs:65-70 | `0x21` removes the same `repeats` values from the end that Kotlin removes from the front, and underflows exactly when Kotlin does |
| RustVm.HandleOperationRefines | rust-vm/src/vm.rs:72-101 | the same for the arithmetic and comparison opcodes |
| RustVm.NegativeJumpDiverges | rust-vm/src/vm.rs:32-34 | a jump to a negative address fails the Kotlin machine's next step but stops the Rust machine |
| RustVm.OverflowDiverges | rust-vm/src/vm.rs:72-85 | `MAX + 1` wraps to `MIN` in Kotlin and panics in Rust |
| RustVm.VM.constructor | rust-vm/src/vm.rs:8-10 | `new` starts at ip 0 with an empty stack |
| RustVm.VM.GetResult | rust-vm/src/vm.rs:109-111 | agrees with `ResultOf` |
| RustVm.VM.ReadI32 | rust-vm/src/vm.rs:113-124 | reads the operand and advances ip by 4, keeping the stack |
| RustVm.VM.PopValue | rust-vm/src/vm.rs:36-70 | removes and returns the last element, failing on an empty stack |
| RustVm.VM.Run | rust-vm/src/vm.rs:12-16 | the `while` loop reaches the bounded run's state, or panics when it does |
| RustVm.VM.Step | rust-vm/src/vm.rs:18-107 | the state after `step` is the Rust transition's |
| RustVm.VM.StepWithOperand | rust-vm/src/vm.rs:44-70 | the operand opcodes agree with the Rust transition |
| Int32.Wrap | parser/src/commonMain/kotlin/lang/mango/compiler/VirtualMachine.kt:57-75 | Kotlin `Int` wrap-around: in-range values are kept, others move by multiples of 2^32 |
| Int32.TruncDiv | parser/src/commonMain/kotlin/lang/mango/compiler/VirtualMachine.kt:57-75 | division rounding toward zero |
| Int32.TruncRem | parser/src/commonMain/kotlin/lang/mango/compiler/VirtualMachine.kt:57-75 | the remainder of that division, with the sign of the dividend |
| Int32.KotlinDiv | parser/src/commonMain/kotlin/lang/mango/compiler/VirtualMachine.kt:57-75 | fails exactly on a zero divisor; otherwise the quotient truncated toward zero, and `MIN / -1` wraps to `MIN` |
| Int32.KotlinRem | parser/src/commonMain/kotlin/lang/mango/compiler/VirtualMachine.kt:57-75 | fails exactly on a zero divisor |
| Int32.TruncDivInRange | parser/src/commonMain/kotlin/lang/mango/compiler/VirtualMachine.kt:57-75 | a truncated quotient is a 32-bit value except for `MIN / -1` |
| Int32.RustDiv | rust-vm/src/vm.rs:72-85 | panics on a zero divisor and on `MIN / -1`, otherwise truncates |
| Int32.RustRem | rust-vm/src/vm.rs:72-85 | the same for the remainder |
| Int32.KotlinAgreesWithRustDiv | rust-vm/src/vm.rs:72-85 | where Rust's division succeeds, Kotlin's gives the same value |
| Int32.CheckedOrWraps | rust-vm/src/vm.rs:72-85 | a debug-build `i32` result succeeds exactly when wrapping would leave it unchanged, and is then the wrapped value |
| Int32.KotlinAgreesWithRustRem | rust-vm/src/vm.rs:72-85 | the same for the remainder |
| Int32.WrapAdd | core/src/main/kotlin/lang/mango/compiler/MangoLinker.kt:26 | adding to a wrapped running total is wrapping the sum |
| Validator.InsideFunctionBlock | core/src/main/kotlin/lang/mango/parser/NestedFunctionValidatorVisitor.kt:6-9 | inside a function, a block passes exactly when it declares no function at any depth, and fails with "Nested functions are not allowed" |
| Validator.InsideFunctionStmt | core/src/main/kotlin/lang/mango/parser/NestedFunctionValidatorVisitor.kt:6-9 | the same for one statement |
| Validator.ProgramValidIff | core/src/main/kotlin/lang/mango/parser/NestedFunctionValidatorVisitor.kt:6-13 | a program passes exactly when no function body declares a function; any number of sibling functions pass |
| Validator.NestedInWhenRejected | parser/src/commonTest/kotlin/lang/mango/parser/MangoParserTests.kt:183-198 | a function declared inside a `when` of a function is rejected with the source's message |
| Validator.NestedFunctionValidatorVisitor.constructor | core/src/main/kotlin/lang/mango/parser/NestedFunctionValidatorVisitor.kt:3-4 | the function stack starts empty |
| Validator.NestedFunctionValidatorVisitor.VisitProgram | core/src/main/kotlin/lang/mango/parser/NestedFunctionValidatorVisitor.kt:6-13 | visiting a program gives `ValidateProgram`'s outcome and, on success, an empty stack |
| Validator.NestedFunctionValidatorVisitor.FunctionDeclaration | core/src/main/kotlin/lang/mango/parser/NestedFunctionValidatorVisitor.kt:6-13 | rejects when a name is on the stack; otherwise pushes the name, visits the body and pops it, restoring the stack; the stack never holds more than one name |
| Validator.NestedFunctionValidatorVisitor.VisitBlock | parser/src/commonMain/kotlin/lang/mango/parser/ASTVisitor.kt:72-74 | the statements in order, agreeing with the specification |
| Validator.NestedFunctionValidatorVisitor.VisitStatement | parser/src/commonMain/kotlin/lang/mango/parser/ASTVisitor.kt:5-22 | dispatch by statement kind, agreeing with the specification |
| RuntimeEnv.Assigned | parser/src/commonMain/kotlin/lang/mango/interpreter/RuntimeEnvironment.kt:28-30 | `setVariable` succeeds exactly on a non-empty stack |
| RuntimeEnv.Popped | parser/src/commonMain/kotlin/lang/mango/interpreter/RuntimeEnvironment.kt:36-38 | `popFrame` succeeds exactly on a non-empty stack |
| RuntimeEnv.RegisterThenLookup | parser/src/commonMain/kotlin/lang/mango/interpreter/RuntimeEnvironment.kt:15-21 | a registered function is found, re-registering a name overwrites it, other names are unaffected |
| RuntimeEnv.SetThenGet | parser/src/commonMain/kotlin/lang/mango/interpreter/RuntimeEnvironment.kt:28-34 | reading a variable right after setting it gives the value set; other names read as before |
| RuntimeEnv.SetTouchesTopOnly | parser/src/commonMain/kotlin/lang/mango/interpreter/RuntimeEnvironment.kt:28-30 | `setVariable` changes neither the outer frames nor the function table |
| RuntimeEnv.OuterFramesInvisible | parser/src/commonMain/kotlin/lang/mango/interpreter/RuntimeEnvironment.kt:23-34 | after `pushFrame` no variable of an outer frame is found |
| RuntimeEnv.PushThenPop | parser/src/commonMain/kotlin/lang/mango/interpreter/RuntimeEnvironment.kt:23-38 | `popFrame` after `pushFrame` and any writes restores the environment exactly |
| RuntimeEnv.SetAllKeepsOuter | parser/src/commonMain/kotlin/lang/mango/interpreter/RuntimeEnvironment.kt:28-30 | any number of writes keep the outer frames and the function table |
| RuntimeEnv.RuntimeEnvironment.constructor | parser/src/commonMain/kotlin/lang/mango/interpreter/RuntimeEnvironment.kt:5-13 | no functions and no frames |
| RuntimeEnv.RuntimeEnvironment.RegisterFunction | parser/src/commonMain/kotlin/lang/mango/interpreter/RuntimeEnvironment.kt:15-17 | the new state is the old one with the function entered under its name |
| RuntimeEnv.RuntimeEnvironment.GetFunction | parser/src/commonMain/kotlin/lang/mango/interpreter/RuntimeEnvironment.kt:19-21 | agrees with `LookupFunction` |
| RuntimeEnv.RuntimeEnvironment.PushFrame | parser/src/commonMain/kotlin/lang/mango/interpreter/RuntimeEnvironment.kt:23-26 | an empty frame goes on top (`addFirst`) |
| RuntimeEnv.RuntimeEnvironment.SetVariable | parser/src/commonMain/kotlin/lang/mango/interpreter/RuntimeEnvironment.kt:28-30 | agrees with `Assigned`, and a failure changes nothing |
| RuntimeEnv.RuntimeEnvironment.GetVariable | parser/src/commonMain/kotlin/lang/mango/interpreter/RuntimeEnvironment.kt:32-34 | agrees with `ReadVariable` |
| RuntimeEnv.RuntimeEnvironment.PopFrame | parser/src/commonMain/kotlin/lang/mango/interpreter/RuntimeEnvironment.kt:36-38 | agrees with `Popped`, and a failure changes nothing |
| Interpreter.RegisterAll | parser/src/commonMain/kotlin/lang/mango/interpreter/MangoInterpreter.kt:17-21 | registering all functions makes exactly the earlier names and the declared names known |
| Interpreter.LastRegistrationWins | parser/src/commonMain/kotlin/lang/mango/interpreter/MangoInterpreter.kt:17-21 | each name maps to the last function declared under it; a name the program does not declare keeps its earlier function |
| Interpreter.BinaryOp | parser/src/commonMain/kotlin/lang/mango/interpreter/MangoInterpreter.kt:125-137 | fails exactly for an operator other than the six, or a division by zero; `+`, `-` and `*` give the exact result wrapped to 32 bits; `/` by a non-zero divisor is Kotlin's truncating division; `==` and `!=` give 1 or 0 |
| Int32.WrapNegateTwice | parser/src/commonMain/kotlin/lang/mango/interpreter/MangoInterpreter.kt:117-123 | wrapping negation undoes itself for every `Int`, `MIN` included |
| Interpreter.NegateTwice | parser/src/commonMain/kotlin/lang/mango/interpreter/MangoInterpreter.kt:117-123 | unary `-` always succeeds, and applying it twice gives the value back |
| Interpreter.BindParameters | parser/src/commonMain/kotlin/lang/mango/interpreter/MangoInterpreter.kt:26-29 | the bound frame has exactly the parameter names |
| Interpreter.EvalArguments | parser/src/commonMain/kotlin/lang/mango/interpreter/MangoInterpreter.kt:26-29 | one value per parameter |
| Interpreter.ArgumentsPointwise | parser/src/commonMain/kotlin/lang/mango/interpreter/MangoInterpreter.kt:26-29 | value `i` is argument `i` evaluated in the caller's frame; the evaluation fails exactly when an argument is missing or one of the first `n` fails |
| Interpreter.BlockAppend | parser/src/commonMain/kotlin/lang/mango/interpreter/MangoInterpreter.kt:48-52 | a block of two parts runs the first, then, unless it returned or failed, the second |
| Interpreter.ReturnEndsBlock | parser/src/commonMain/kotlin/lang/mango/interpreter/MangoInterpreter.kt:102-105 | a `return` ends its block with its value; nothing after it runs |
| Interpreter.FallingOffTheEndYieldsZero | parser/src/commonMain/kotlin/lang/mango/interpreter/MangoInterpreter.kt:44-45 | a body that completes without `return` makes the call yield 0 |
| Interpreter.WhenIsGuardedBlock | parser/src/commonMain/kotlin/lang/mango/interpreter/MangoInterpreter.kt:89-94 | a `when` whose condition is 0 leaves the frame as it was, whatever its body; otherwise it behaves as its body run as a block |
| Interpreter.WhileUnrollsToWhen | parser/src/commonMain/kotlin/lang/mango/interpreter/MangoInterpreter.kt:96-100 | `while (c) { b }` behaves as `when (c) { b; while (c) { b } }`, one unit of fuel apart |
| Interpreter.EvalMoreFuel | parser/src/commonMain/kotlin/lang/mango/interpreter/MangoInterpreter.kt:107-141 | an expression that evaluates within some fuel evaluates to the same value with any more fuel |
| Interpreter.CallMoreFuel | parser/src/commonMain/kotlin/lang/mango/interpreter/MangoInterpreter.kt:23-46 | the same for a call |
| Interpreter.ArgumentsMoreFuel | parser/src/commonMain/kotlin/lang/mango/interpreter/MangoInterpreter.kt:26-29 | the same for a call's arguments |
| Interpreter.BlockMoreFuel | parser/src/commonMain/kotlin/lang/mango/interpreter/MangoInterpreter.kt:48-52 | the same for a block, with the same frame and flow |
| Interpreter.StmtMoreFuel | parser/src/commonMain/kotlin/lang/mango/interpreter/MangoInterpreter.kt:54-105 | the same for a statement |
| Interpreter.WhileMoreFuel | parser/src/commonMain/kotlin/lang/mango/interpreter/MangoInterpreter.kt:96-100 | the same for a `while` loop |
| Interpreter.InterpretMoreFuel | parser/src/commonMain/kotlin/lang/mango/interpreter/MangoInterpreter.kt:9-21 | a program whose `main` returns within some fuel returns the same value with any more: the fuel bound only cuts runs short |
| Interpreter.ParametersBoundByPosition | parser/src/commonMain/kotlin/lang/mango/interpreter/MangoInterpreter.kt:26-35 | a parameter not repeated later gets the value of the argument in its position |
| Interpreter.LetsAndAddition | parser/src/commonTest/kotlin/lang/mango/interpreter/MangoInterpreterTests.kt:20-32 | `let a = 1; let b = 2; return a + b` returns 3 |
| Interpreter.CallWithArguments | parser/src/commonMain/kotlin/lang/mango/interpreter/MangoInterpreter.kt:23-46 | `fn add(a, b) { return a + b }` called from `main` as `add(4, 5)` returns 9 |
| Interpreter.MangoInterpreter.constructor | parser/src/commonMain/kotlin/lang/mango/interpreter/MangoInterpreter.kt:6-8 | the interpreter keeps its environment |
| Interpreter.MangoInterpreter.Run | parser/src/commonMain/kotlin/lang/mango/interpreter/MangoInterpreter.kt:9-21 | `interpret` registers every function and calls `main()`, giving `Interpret`'s result |
| Interpreter.MangoInterpreter.FunctionCall | parser/src/commonMain/kotlin/lang/mango/interpreter/MangoInterpreter.kt:23-46 | agrees with `CallFunction`; a successful call leaves the function table and the frames as they were |
| Interpreter.MangoInterpreter.PushParameters | parser/src/commonMain/kotlin/lang/mango/interpreter/MangoInterpreter.kt:26-35 | the callee's frame is pushed on top, binding each parameter to its argument's value |
| Interpreter.MangoInterpreter.Arguments | parser/src/commonMain/kotlin/lang/mango/interpreter/MangoInterpreter.kt:26-29 | arguments are evaluated in the caller's frame, in order, agreeing with `EvalArguments` |
| Interpreter.MangoInterpreter.Block | parser/src/commonMain/kotlin/lang/mango/interpreter/MangoInterpreter.kt:48-52 | agrees with `ExecBlock`, changing only the top frame |
| Interpreter.MangoInterpreter.Statement | parser/src/commonMain/kotlin/lang/mango/interpreter/MangoInterpreter.kt:54-105 | agrees with `ExecStmt`, changing only the top frame |
| Interpreter.MangoInterpreter.ControlWhile | parser/src/commonMain/kotlin/lang/mango/interpreter/MangoInterpreter.kt:96-100 | the `while` loop agrees with `ExecWhile` |
| Interpreter.MangoInterpreter.Expression | parser/src/commonMain/kotlin/lang/mango/interpreter/MangoInterpreter.kt:107-141 | agrees with `Eval`, leaving the environment unchanged |
| InstructionSet.ProgramOf | instructionset/src/commonMain/kotlin/nl/helico/mango/instructionset/Program.kt:18 | `Program(list)` keeps the length and the order |
| PrototypeVm.Popped | virtualmachine/src/commonMain/kotlin/nl/helico/mango/virtualmachine/Stack.kt:22-24 | `pop` fails on an empty stack; otherwise the rest and the top make up the stack |
| PrototypeVm.ElementAt | virtualmachine/src/commonMain/kotlin/nl/helico/mango/virtualmachine/Stack.kt:14-16 | `get(k)` succeeds exactly for 0 ≤ k < size |
| PrototypeVm.PushThenPop | virtualmachine/src/commonMain/kotlin/nl/helico/mango/virtualmachine/Stack.kt:8-24 | `push` grows the stack by one, `pop` then returns the value and the old stack, `peek` sees it, and older elements move one deeper |
| PrototypeVm.Transition | virtualmachine/src/commonMain/kotlin/nl/helico/mango/virtualmachine/VirtualMachine.kt:15-40 | a step that runs moves the counter forward and not past the program size |
| PrototypeVm.Run | virtualmachine/src/commonMain/kotlin/nl/helico/mango/virtualmachine/VirtualMachine.kt:42-46 | `execute` ends, and ends where no instruction can continue |
| PrototypeVm.StepPastEnd | virtualmachine/src/commonMain/kotlin/nl/helico/mango/virtualmachine/VirtualMachine.kt:16 | `step` past the end changes nothing |
| PrototypeVm.PushAndPop | virtualmachine/src/commonMain/kotlin/nl/helico/mango/virtualmachine/VirtualMachine.kt:20-21 | `Push(v)` pushes v; `Pop` discards the top and fails exactly on an empty stack |
| PrototypeVm.TwoOperandInstructions | virtualmachine/src/commonMain/kotlin/nl/helico/mango/virtualmachine/VirtualMachine.kt:22-37 | `Swap` exchanges the top two; `Add` pushes top + second; `Subtract` pushes top - second |
| PrototypeVm.TwoOperandsNeeded | virtualmachine/src/commonMain/kotlin/nl/helico/mango/virtualmachine/VirtualMachine.kt:22-37 | with fewer than two values these three fail with the empty-deque error |
| PrototypeVm.HaltStops | virtualmachine/src/commonMain/kotlin/nl/helico/mango/virtualmachine/VirtualMachine.kt:38 | `Halt` sets the counter to the size, so the run ends with the stack as it is |
| PrototypeVm.RunSteps | virtualmachine/src/commonMain/kotlin/nl/helico/mango/virtualmachine/VirtualMachine.kt:42-46 | a run that can continue is the run from the next state |
| PrototypeVm.AdditionExample | virtualmachine/src/commonTest/kotlin/nl/helico/mango/virtualmachine/VirtualMachineTests.kt:9-24 | `[Push 1, Push 2, Add, Halt]` ends with 3 on top |
| PrototypeVm.ArrayStack.constructor | virtualmachine/src/commonMain/kotlin/nl/helico/mango/virtualmachine/Stack.kt:11-12 | an empty stack |
| PrototypeVm.ArrayStack.Get | virtualmachine/src/commonMain/kotlin/nl/helico/mango/virtualmachine/Stack.kt:14-16 | reads `stack[size-1-offset]`, agreeing with `ElementAt` |
| PrototypeVm.ArrayStack.Push | virtualmachine/src/commonMain/kotlin/nl/helico/mango/virtualmachine/Stack.kt:18-20 | appends the value |
| PrototypeVm.ArrayStack.Pop | virtualmachine/src/commonMain/kotlin/nl/helico/mango/virtualmachine/Stack.kt:22-24 | removes and returns the last element; on an empty stack fails and changes nothing |
| PrototypeVm.ArrayStack.Peek | virtualmachine/src/commonMain/kotlin/nl/helico/mango/virtualmachine/Stack.kt:8 | `get(0)` |
| PrototypeVm.VirtualMachine.constructor | virtualmachine/src/commonMain/kotlin/nl/helico/mango/virtualmachine/VirtualMachine.kt:5-9 | the counter starts at 0 |
| PrototypeVm.VirtualMachine.CanContinueNow | virtualmachine/src/commonMain/kotlin/nl/helico/mango/virtualmachine/VirtualMachine.kt:11-13 | an instruction exists at the counter |
| PrototypeVm.VirtualMachine.Step | virtualmachine/src/commonMain/kotlin/nl/helico/mango/virtualmachine/VirtualMachine.kt:15-40 | `step` succeeds exactly when the transition does, with its state |
| PrototypeVm.VirtualMachine.TwoOperandStep | virtualmachine/src/commonMain/kotlin/nl/helico/mango/virtualmachine/VirtualMachine.kt:22-37 | the two pops and the push of `Swap`, `Add` and `Subtract` |
| PrototypeVm.VirtualMachine.PopTwo | virtualmachine/src/commonMain/kotlin/nl/helico/mango/virtualmachine/VirtualMachine.kt:23-24 | the top, then the value below it |
| PrototypeVm.VirtualMachine.Execute | virtualmachine/src/commonMain/kotlin/nl/helico/mango/virtualmachine/VirtualMachine.kt:42-46 | the `while (canContinue())` loop reaches `Run`'s state, or fails when it does |
| Pipeline.BootstrapOfReturnConstant | core/src/main/kotlin/lang/mango/compiler/MangoCompiler.kt:86-91 | the bootstrap for a `main` without locals is `C0`, `.exit`, `main`, `Jump`, `Exit` labelled `.exit` |
| Pipeline.CompileReturnConstant | core/src/main/kotlin/lang/mango/compiler/MangoCompiler.kt:6-19 | `fn main() { return v }` compiles to the bootstrap chunk and the `main` chunk |
| Pipeline.LabelAddresses | core/src/main/kotlin/lang/mango/compiler/MangoLinker.kt:17-27 | `.exit` and `main` get 4 and 5 with `NullEncoder`, 16 and 17 with `ByteEncoder` |
| Pipeline.LinkReturnConstant | core/src/test/kotlin/lang/mango/compiler/MangoCompilerTests.kt:40-58 | linking gives `[C0, C4, C5, Jump, Exit, Cv, Store(1), Jump]` with `NullEncoder` (and 16, 17 with `ByteEncoder`) |
| Pipeline.ReturnConstantEndToEnd | core/src/test/kotlin/lang/mango/compiler/MangoCompilerTests.kt:60-64 | compiled, linked and run on the list machine, `fn main() { return v }` halts with exactly `v` on the stack, the value the interpreter returns |
| Pipeline.ByteCodeRuns | core/src/main/kotlin/lang/mango/vm/ByteCodeVirtualMachine.kt:12-16 | the byte encoding of the linked program runs on the byte machine to the end with exactly `v` on the stack |
| Pipeline.ReturnConstantOnBytes | parser/src/test/kotlin/lang/mango/vm/ByteCodeVirtualMachineTests.kt:27-39 | taken through the same chain as the byte-code test (compiled, linked with `ByteEncoder`, encoded, run on the byte machine), the program leaves `v`, what the interpreter returns |

## Left out

- The parser, the grammar and the token table. The syntax tree is taken as input, with the implicit `return 0` already in the body.
- The command-line programs and their file reads and writes.
- The build files.
- The draft IR compiler, its `ASM` and `IR`.
- The pretty-printers of `ASM` and the compiler's `comments` map. They are diagnostic text only.
- Exceptions are results: every `throw`, `error`, `requireNotNull` and Rust panic becomes an `Err` or `Fail` carrying the message. A failing method's state is stated only where the source leaves it unchanged.
- The run loops take fuel. `ListVm.VirtualMachine.Run`, `ByteVm.ByteCodeVirtualMachine.Run` and `RustVm.VM.Run` stop after at most `fuel` steps and return the state reached, which may not have halted: a caller checks `Halted` (or `ip` past the end of the code) to tell a finished run from a cut-short one. The interpreter spends one unit per call and per loop turn and fails with "out of fuel" when it runs out; `Interpreter.InterpretMoreFuel` shows that more fuel never changes a successful result. Non-termination itself is not modelled.
- `ByteVm.StepCorresponds` relates single steps only. That a whole list-machine run and the byte-code run of the same program agree is stated only for `fn main() { return v }`, in `Pipeline.ReturnConstantOnBytes`.
- The recursive examples are not proved: fib(20) in the interpreter and fib(30) on both machines.
- The examples of `a + b + 10` and `add(4, 5)` on the compiled back end are not proved either.
- Compiled `while`, assignments and expression statements abort, as the back-end compiler's `else` branch does. Their run-time behaviour is modelled in the interpreter only.
- Unary operations: the back-end compiler has no case for them and aborts (`CompilerFacts.CompilesIff`).
- Labels still pending when a function's code ends are dropped, as the source drops them. This happens for a `when` that is the last statement. The model does not prove when such a label is then missing at link time.
- `Validator`: expressions are not traversed, because no expression can hold a declaration (`AstVisitor.ExprTraceHasNoDeclarations`).
- Frames leaked by the interpreter: after an exception inside a call, the source leaves the callee's frame pushed. The model states nothing about the environment after a failure.
- `PrototypeVm.VirtualMachine.Step`: the state after a failed pop is not stated. The source has already moved the counter and may have popped one value.
- `PrototypeVm.ElementAt`: a get outside the stack reports "Index out of bounds". The exact text of `ArrayDeque`'s exception is not modelled.
- `Encoder.Encode`: the buffer is allocated with the exact sum of sizes, so `ByteBuffer` overflow cannot occur. An `Int` overflow of that sum for programs of over 2^31 bytes is not modelled.
- `RustVm.AsUsize` models a 64-bit `usize`. `RustVm.PushBack` bounds the stack by `Vec`'s capacity limit `isize::MAX` elements rather than by available memory.
- The Rust machine is modelled as a debug build: `i32` overflow panics. In a release build it would wrap, and agree with Kotlin.

## Findings

| source | as written | input that shows it | evidently intended | confidence | as-written member | corrected member |
|---|---|---|---|---|---|---|
| core/src/main/kotlin/lang/mango/compiler/MangoCompiler.kt:66-68 | each argument of a call is compiled with offset `2 + index`, dropping the offset of the expression the call is part of | `id(id(b))` inside `main(b)`: the inner call's argument `b` is read with `Load.Relative(2)`, which is the outer call's return-address slot, where `b` is at depth 4 | `offset + 2 + index`, so a call nested in another call's argument list reads past the slots the outer call has already pushed | not executed | CallingConvention.NestedCallMisaddresses | CallingConvention.ThreadedReadsFollowConvention |
