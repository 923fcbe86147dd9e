/** What the code generator emits for each construct, when it aborts, and the shape of the
    chunks `MangoCompiler.compile` returns. */
module CompilerFacts {
  import opened Wrappers
  import opened Int32
  import opened Ast
  import opened Asm
  import opened Frame
  import opened Compiler

  // ---------------------------------------------------------------------------------------
  // Expressions

  /** An identifier loads its variable's slot in the current frame, moved by the offset the
      enclosing call passes down; a name with no slot aborts. */
  lemma IdentShape(ctx: Ctx, st: GenState, x: string, offset: int)
    ensures GenExpr(ctx, st, Ident(x), offset).Ok? <==> Local(x) in st.frame
    ensures Local(x) in st.frame ==>
      GenExpr(ctx, st, Ident(x), offset) ==
        Ok(GenEmit(st, LoadRelative(Wrap(IndexOf(st.frame, Local(x)).value + offset))))
  {
  }

  /** A binary operation emits its right operand, then its left operand (compiled with one
      more temporary on the frame), then one operator instruction; the frame it ends with is
      the one it started with. */
  lemma BinaryShape(ctx: Ctx, st: GenState, left: Expr, op: string, right: Expr, offset: int)
    requires GenExpr(ctx, st, Binary(left, op, right), offset).Ok?
    ensures GenExpr(ctx, st, right, offset).Ok?
    ensures var s1 := GenExpr(ctx, st, right, offset).value;
      var s1p := s1.(frame := [RuntimeValue] + s1.frame);
      && GenExpr(ctx, s1p, left, offset).Ok?
      && OperatorOf(op).Some?
      && GenExpr(ctx, st, Binary(left, op, right), offset).value.code ==
           GenExpr(ctx, s1p, left, offset).value.code + [Operation(OperatorOf(op).value)]
    ensures GenExpr(ctx, st, Binary(left, op, right), offset).value.frame == st.frame
  {
  }

  /** An operator the generator does not know aborts compilation once its operands have
      compiled. `multiply`, which the interpreter knows, is one of them; the generator's
      name for it is `times`. */
  lemma UnknownOperatorAborts(ctx: Ctx, st: GenState, left: Expr, op: string, right: Expr, offset: int)
    requires OperatorOf(op).None?
    requires GenExpr(ctx, st, right, offset).Ok?
    requires var s1 := GenExpr(ctx, st, right, offset).value;
      GenExpr(ctx, s1.(frame := [RuntimeValue] + s1.frame), left, offset).Ok?
    ensures GenExpr(ctx, st, Binary(left, op, right), offset) == Err("Unknown operator: " + op)
    ensures OperatorOf("multiply").None? && OperatorOf("times") == Some(Mul)
  {
  }

  /** A call expression takes a fresh return label, emits the call sequence with it, and
      leaves the label pending for the next instruction emitted, which is where the callee
      returns to. */
  lemma CallExprShape(ctx: Ctx, st: GenState, callee: string, args: seq<Expr>, offset: int)
    requires GenExpr(ctx, st, Call(callee, args), offset).Ok?
    ensures var ret := ReturnLabel(ctx.fname, st.counter);
      var s1 := st.(counter := st.counter + 1, retStack := [ret] + st.retStack);
      var r := GenExpr(ctx, st, Call(callee, args), offset).value;
      && GenCall(ctx, s1, callee, args, ret, offset).Ok?
      && r.code == GenCall(ctx, s1, callee, args, ret, offset).value.code
      && r.pending == [ret] + GenCall(ctx, s1, callee, args, ret, offset).value.pending
      && r.retStack == st.retStack
  {
  }

  /** A call emits the return-value slot and the return address, the arguments, zeros for the
      callee's other locals, then the callee's address and the jump; an unknown callee aborts. */
  lemma CallShape(ctx: Ctx, st: GenState, callee: string, args: seq<Expr>, ret: string, offset: int)
    ensures callee !in ctx.resolver ==> GenCall(ctx, st, callee, args, ret, offset) == Err("Unknown function: " + callee)
    ensures GenCall(ctx, st, callee, args, ret, offset).Ok? ==>
      var s1 := GenEmit(GenEmit(st, LoadConstant(0)), LoadLabel(ret));
      && callee in ctx.resolver
      && s1.code == st.code + [LoadConstant(0), LoadLabel(ret)]
      && GenArgs(ctx, s1, args, 0, offset).Ok?
      && GenCall(ctx, st, callee, args, ret, offset).value.code ==
           GenArgs(ctx, s1, args, 0, offset).value.code
           + Zeros(CalleeLocalsSize(ctx.resolver[callee]) - |args|) + [LoadLabel(callee), Jump]
  {
    if GenCall(ctx, st, callee, args, ret, offset).Ok? {
      var s1 := GenEmit(GenEmit(st, LoadConstant(0)), LoadLabel(ret));
      var s2 := GenArgs(ctx, s1, args, 0, offset).value;
      var s3 := GenEmitZeros(s2, CalleeLocalsSize(ctx.resolver[callee]) - |args|);
      assert GenEmit(GenEmit(s3, LoadLabel(callee)), Jump).code == s3.code + [LoadLabel(callee), Jump];
    }
  }

  /** Argument `index` is compiled with its compensation, then the rest. */
  lemma ArgsShape(ctx: Ctx, st: GenState, args: seq<Expr>, index: nat, offset: int)
    requires args != []
    ensures var first := GenExpr(ctx, st, args[0], ArgumentOffset(ctx.mode, offset, index));
      GenArgs(ctx, st, args, index, offset) ==
        if first.Err? then Err(first.message) else GenArgs(ctx, first.value, args[1..], index + 1, offset)
  {
  }

  // ---------------------------------------------------------------------------------------
  // Which expressions compile

  /** An expression compiles exactly when every variable it reads has a slot, every function
      it calls is known, every operator is one the generator knows and it has no unary
      operation. Temporaries never hide a variable, so the frame's temporaries do not matter. */
  predicate Compilable(frame: seq<Data>, resolver: map<string, Function>, e: Expr) {
    match e
    case Ident(x) => Local(x) in frame
    case IntLit(_) => true
    case Unary(_, _) => false
    case Binary(left, op, right) =>
      OperatorOf(op).Some? && Compilable(frame, resolver, left) && Compilable(frame, resolver, right)
    case Call(callee, args) =>
      callee in resolver && forall i :: 0 <= i < |args| ==> Compilable(frame, resolver, args[i])
  }

  lemma {:induction false} CompilesIff(ctx: Ctx, st: GenState, e: Expr, offset: int)
    ensures GenExpr(ctx, st, e, offset).Ok? <==> Compilable(st.frame, ctx.resolver, e)
    decreases e, 1
  {
    match e
    case Ident(x) =>
    case IntLit(_) =>
    case Unary(_, _) =>
    case Binary(left, op, right) =>
      CompilesIff(ctx, st, right, offset);
      if GenExpr(ctx, st, right, offset).Ok? {
        var s1 := GenExpr(ctx, st, right, offset).value;
        var s1p := s1.(frame := [RuntimeValue] + s1.frame);
        CompilesIff(ctx, s1p, left, offset);
        TemporaryHidesNothing(st.frame, ctx.resolver, left);
      }
    case Call(callee, args) =>
      var (ret, s1) := GenPushReturnLabel(ctx, st);
      CallCompilesIff(ctx, s1, callee, args, ret, offset);
  }

  lemma {:induction false} CallCompilesIff(ctx: Ctx, st: GenState, callee: string, args: seq<Expr>,
                                           ret: string, offset: int)
    ensures GenCall(ctx, st, callee, args, ret, offset).Ok? <==>
      callee in ctx.resolver && forall i :: 0 <= i < |args| ==> Compilable(st.frame, ctx.resolver, args[i])
    decreases args, 2
  {
    CallShape(ctx, st, callee, args, ret, offset);
    if callee in ctx.resolver {
      var s1 := GenEmit(GenEmit(st, LoadConstant(0)), LoadLabel(ret));
      ArgsCompileIff(ctx, s1, args, 0, offset);
    }
  }

  lemma {:induction false} ArgsCompileIff(ctx: Ctx, st: GenState, args: seq<Expr>, index: nat, offset: int)
    ensures GenArgs(ctx, st, args, index, offset).Ok? <==>
      forall i :: 0 <= i < |args| ==> Compilable(st.frame, ctx.resolver, args[i])
    decreases args, 0
  {
    if args != [] {
      ArgsShape(ctx, st, args, index, offset);
      var o := ArgumentOffset(ctx.mode, offset, index);
      CompilesIff(ctx, st, args[0], o);
      if GenExpr(ctx, st, args[0], o).Ok? {
        ArgsCompileIff(ctx, GenExpr(ctx, st, args[0], o).value, args[1..], index + 1, offset);
      }
      assert forall i :: 1 <= i < |args| ==> args[i] == args[1..][i - 1];
    }
  }

  lemma {:induction false} TemporaryHidesNothing(frame: seq<Data>, resolver: map<string, Function>, e: Expr)
    ensures Compilable([RuntimeValue] + frame, resolver, e) <==> Compilable(frame, resolver, e)
    decreases e
  {
    match e
    case Ident(x) =>
      assert Local(x) in [RuntimeValue] + frame <==> Local(x) in frame;
    case IntLit(_) =>
    case Unary(_, _) =>
    case Binary(left, _, right) =>
      TemporaryHidesNothing(frame, resolver, left);
      TemporaryHidesNothing(frame, resolver, right);
    case Call(_, args) =>
      forall i | 0 <= i < |args| {
        TemporaryHidesNothing(frame, resolver, args[i]);
      }
  }

  // ---------------------------------------------------------------------------------------
  // Statements

  /** A return emits its expression, stores it in the return-value slot, unwinds the locals
      (with no `Pop` at all when there are none) and jumps to the return address. */
  lemma ReturnShape(ctx: Ctx, st: GenState, e: Expr)
    requires GenStmt(ctx, st, Return(e)).Ok?
    ensures GenExpr(ctx, st, e, 0).Ok? && ReturnValue in st.frame
    ensures var size := CountLocals(st.frame);
      GenStmt(ctx, st, Return(e)).value.code ==
        GenExpr(ctx, st, e, 0).value.code + [Store(Wrap(IndexOf(st.frame, ReturnValue).value))]
        + (if size > 0 then [Pop(Wrap(size))] else []) + [Jump]
  {
  }

  /** A variable declaration emits its expression and stores it in the variable's slot. */
  lemma VarDeclShape(ctx: Ctx, st: GenState, x: string, e: Expr)
    ensures GenStmt(ctx, st, VarDecl(x, e)).Ok? <==> GenExpr(ctx, st, e, 0).Ok? && Local(x) in st.frame
    ensures GenStmt(ctx, st, VarDecl(x, e)).Ok? ==>
      GenStmt(ctx, st, VarDecl(x, e)).value.code ==
        GenExpr(ctx, st, e, 0).value.code + [Store(Wrap(IndexOf(st.frame, Local(x)).value))]
  {
  }

  /** `when` emits its condition, then a jump to a fresh label taken when the condition is 0,
      then its body; the label is left pending, ahead of any left pending by the body, so it
      and they are all bound to the next instruction emitted after the body. */
  lemma WhenShape(ctx: Ctx, st: GenState, c: Expr, body: seq<Stmt>)
    requires GenStmt(ctx, st, When(c, body)).Ok?
    ensures GenExpr(ctx, st, c, 0).Ok?
    ensures var s1 := GenExpr(ctx, st, c, 0).value;
      var l := ReturnLabel(ctx.fname, s1.counter);
      var s3 := GenEmit(GenEmit(s1.(counter := s1.counter + 1, retStack := [l] + s1.retStack), LoadLabel(l)), JumpWhenZero);
      var r := GenStmt(ctx, st, When(c, body)).value;
      && s3.code == s1.code + [LoadLabel(l), JumpWhenZero]
      && GenBlock(ctx, s3, body).Ok?
      && r.code == GenBlock(ctx, s3, body).value.code
      && r.pending == [l] + GenBlock(ctx, s3, body).value.pending
  {
    var s1 := GenExpr(ctx, st, c, 0).value;
    var l := ReturnLabel(ctx.fname, s1.counter);
    var s2 := s1.(counter := s1.counter + 1, retStack := [l] + s1.retStack);
    assert GenPushReturnLabel(ctx, s1) == (l, s2);
    var s3 := GenEmit(GenEmit(s2, LoadLabel(l)), JumpWhenZero);
    assert s3.code == s1.code + [LoadLabel(l), JumpWhenZero];
    var s4 := GenBlock(ctx, s3, body).value;
    assert s4.retStack == s3.retStack == [l] + s1.retStack;
  }

  /** Every other statement aborts the generator. */
  lemma OtherStatementsAbort(ctx: Ctx, st: GenState, s: Stmt)
    requires !s.Return? && !s.VarDecl? && !s.When?
    ensures GenStmt(ctx, st, s) == Err("Unknown statement")
  {
  }

  // ---------------------------------------------------------------------------------------
  // Chunks

  /** `emit` with nothing pending binds nothing but the labels passed in. */
  lemma {:induction false} ZerosBindNothing(st: GenState, n: int)
    requires st.pending == []
    ensures GenEmitZeros(st, n).labels == st.labels && GenEmitZeros(st, n).pending == []
    decreases n
  {
    if n > 0 {
      ZerosBindNothing(GenEmit(st, LoadConstant(0)), n - 1);
    }
  }

  /** The call of `main` the bootstrap starts with: no arguments, so the call sequence is the
      two reserved slots, zeros for all of `main`'s locals, its address and the jump. */
  lemma BootstrapCall(resolver: map<string, Function>)
    requires "main" in resolver
    ensures GenCall(Ctx("bootstrap", resolver, AsWritten), InitialState([]), "main", [], ".exit", 0)
      == Ok(GenState([LoadConstant(0), LoadLabel(".exit")] + Zeros(CalleeLocalsSize(resolver["main"]))
                     + [LoadLabel("main"), Jump], map[], 0, [], [], []))
  {
    var ctx := Ctx("bootstrap", resolver, AsWritten);
    var n := CalleeLocalsSize(resolver["main"]);
    var s1 := GenEmit(GenEmit(InitialState([]), LoadConstant(0)), LoadLabel(".exit"));
    assert s1 == GenState([LoadConstant(0), LoadLabel(".exit")], map[], 0, [], [], []);
    assert GenArgs(ctx, s1, [], 0, 0) == Ok(s1);
    ZerosBindNothing(s1, n);
    var s3 := GenEmitZeros(s1, n);
    assert s3 == GenState(s1.code + Zeros(n), map[], 0, [], [], []);
    assert GenCall(ctx, InitialState([]), "main", [], ".exit", 0)
        == Ok(GenEmit(GenEmit(s3, LoadLabel("main")), Jump));
    assert GenEmit(GenEmit(s3, LoadLabel("main")), Jump)
        == GenState(s3.code + [LoadLabel("main"), Jump], map[], 0, [], [], []);
  }

  /** The bootstrap compiles exactly when `main` is known: it is the call of `main` with
      return label `.exit` and no arguments, followed by `Exit` labelled `.exit`. */
  lemma BootstrapShape(resolver: map<string, Function>)
    ensures CompileBootstrap(resolver).Ok? <==> "main" in resolver
    ensures "main" in resolver ==>
      var code := [LoadConstant(0), LoadLabel(".exit")] + Zeros(CalleeLocalsSize(resolver["main"]))
                  + [LoadLabel("main"), Jump, Exit];
      CompileBootstrap(resolver) == Ok(RawChunk("bootstrap", Annotate(code, map[|code| - 1 := [".exit"]])))
  {
    if "main" in resolver {
      BootstrapCall(resolver);
      var n := CalleeLocalsSize(resolver["main"]);
      var call := GenState([LoadConstant(0), LoadLabel(".exit")] + Zeros(n) + [LoadLabel("main"), Jump],
                           map[], 0, [], [], []);
      var s := GenEmitLabeled(call, Exit, [".exit"]);
      var code := [LoadConstant(0), LoadLabel(".exit")] + Zeros(n) + [LoadLabel("main"), Jump, Exit];
      assert s.code == code;
      assert s.labels == map[|code| - 1 := [".exit"]];
    }
  }

  /** A function compiles to a chunk carrying that function, hence named after it. */
  lemma FunctionChunkShape(resolver: map<string, Function>, mode: Compensation, f: Function)
    ensures CompileFunction(resolver, mode, f).Ok? ==>
      CompileFunction(resolver, mode, f).value.FunctionChunk?
      && CompileFunction(resolver, mode, f).value.decl == f
      && CompileFunction(resolver, mode, f).value.Name() == f.name
  {
  }

  /** `compile` succeeds exactly when the bootstrap (if asked for) and every function compile. */
  lemma CompileSucceedsIff(p: Program, bootstrap: bool, mode: Compensation)
    ensures Compile(p, bootstrap, mode).Ok? <==>
      (!bootstrap || CompileBootstrap(Resolve(p.functions)).Ok?)
      && CompileFunctions(Resolve(p.functions), mode, p.functions).Ok?
  {
  }

  /** A successful `compile` has one chunk per function, plus the bootstrap put first when
      asked for. */
  lemma CompileBootstrapFirst(p: Program, bootstrap: bool, mode: Compensation)
    ensures var r := Compile(p, bootstrap, mode);
      var skip := if bootstrap then 1 else 0;
      r.Ok? ==>
        && |r.value| == skip + |p.functions|
        && (bootstrap ==> r.value[0] == CompileBootstrap(Resolve(p.functions)).value && r.value[0].Name() == "bootstrap")
  {
    if Compile(p, bootstrap, mode).Ok? {
      CompileValue(p, bootstrap, mode);
      if bootstrap {
        BootstrapChunkFirst(p, mode);
      }
    }
  }

  /** After the bootstrap, if any, chunk i is the compilation of function i. */
  lemma CompileChunkOrder(p: Program, bootstrap: bool, mode: Compensation)
    ensures var r := Compile(p, bootstrap, mode);
      var skip := if bootstrap then 1 else 0;
      r.Ok? ==>
         forall i :: 0 <= i < |p.functions| ==>
             r.value[skip + i].FunctionChunk? && r.value[skip + i].decl == p.functions[i]
  {
    if Compile(p, bootstrap, mode).Ok? {
      CompileValue(p, bootstrap, mode);
      var resolver := Resolve(p.functions);
      var cs := CompileFunctions(resolver, mode, p.functions).value;
      if bootstrap {
        ChunksFollow(resolver, mode, p.functions, cs, [CompileBootstrap(resolver).value]);
      } else {
        ChunksFollow(resolver, mode, p.functions, cs, []);
      }
    }
  }

  lemma BootstrapChunkFirst(p: Program, mode: Compensation)
    requires Compile(p, true, mode).Ok?
    ensures CompileBootstrap(Resolve(p.functions)).Ok?
    ensures Compile(p, true, mode).value[0] == CompileBootstrap(Resolve(p.functions)).value
    ensures CompileBootstrap(Resolve(p.functions)).value.Name() == "bootstrap"
  {
    CompileValue(p, true, mode);
  }

  /** A successful `compile` is the bootstrap chunk, if asked for, followed by the functions'. */
  lemma CompileValue(p: Program, bootstrap: bool, mode: Compensation)
    requires Compile(p, bootstrap, mode).Ok?
    ensures CompileFunctions(Resolve(p.functions), mode, p.functions).Ok?
    ensures bootstrap ==> CompileBootstrap(Resolve(p.functions)).Ok?
    ensures Compile(p, bootstrap, mode).value ==
      (if bootstrap then [CompileBootstrap(Resolve(p.functions)).value] else [])
      + CompileFunctions(Resolve(p.functions), mode, p.functions).value
  {
  }

  /** The compiled functions placed after any prefix of chunks keep their declaration order. */
  lemma ChunksFollow(resolver: map<string, Function>, mode: Compensation, fs: seq<Function>,
                     cs: seq<Chunk>, boot: seq<Chunk>)
    requires CompileFunctions(resolver, mode, fs) == Ok(cs)
    ensures |boot + cs| == |boot| + |fs|
    ensures forall i :: 0 <= i < |fs| ==>
      (boot + cs)[|boot| + i].FunctionChunk? && (boot + cs)[|boot| + i].decl == fs[i]
  {
    forall i | 0 <= i < |fs|
      ensures (boot + cs)[|boot| + i].FunctionChunk? && (boot + cs)[|boot| + i].decl == fs[i]
    {
      assert (boot + cs)[|boot| + i] == cs[i];
      FunctionChunkShape(resolver, mode, fs[i]);
    }
  }

  lemma EmptyProgram(mode: Compensation)
    ensures Compile(Program([]), false, mode) == Ok([])
  {
    var p := Program([]);
    assert Resolve(p.functions) == map[];
    assert CompileFunctions(map[], mode, p.functions) == Ok([]);
    var none: seq<Chunk> := [];
    assert none + none == none;
  }

  /** `fn main() { return v }` compiles to exactly `[Load.Constant(v), Store(1), Jump]`: its
      frame holds the return address (offset 0) and the return value (offset 1) and no locals,
      so no `Pop` is emitted. */
  lemma ReturnConstantExample(resolver: map<string, Function>, mode: Compensation, v: Int32)
    ensures var f := Function("main", [], [Return(IntLit(v))]);
      CompileFunction(resolver, mode, f) ==
        Ok(FunctionChunk(f, [Plain(LoadConstant(v)), Plain(Store(1)), Plain(Jump)]))
    ensures CalleeLocalsSize(Function("main", [], [Return(IntLit(v))])) == 0
  {
    var f := Function("main", [], [Return(IntLit(v))]);
    ReturnConstantLayout(v);
    var layout := InitialLayout(f);
    var r := ReturnConstantBlock(Ctx("main", resolver, mode), layout, v);
    var a := Annotate(r.code, r.labels);
    assert a == [Plain(LoadConstant(v)), Plain(Store(1)), Plain(Jump)] by {
      assert a[0] == Plain(LoadConstant(v)) && a[1] == Plain(Store(1)) && a[2] == Plain(Jump);
    }
  }

  /** `fn main() { return v }` declares nothing: its frame is the two return slots. */
  lemma ReturnConstantLayout(v: Int32)
    ensures InitialLayout(Function("main", [], [Return(IntLit(v))])) == [ReturnAddress, ReturnValue]
    ensures CalleeLocalsSize(Function("main", [], [Return(IntLit(v))])) == 0
  {
    var f := Function("main", [], [Return(IntLit(v))]);
    assert NoNestedFunctions(f.body) by {
      assert NoNestedFunction(f.body[0]);
    }
    FunctionLocalsAreDeclarations(f);
    assert DeclaredNames(f.body) == [] by {
      assert f.body[1..] == [];
    }
    var layout := InitialLayout(f);
    assert layout == [ReturnAddress, ReturnValue];
    assert CountLocals(layout) == 0 by {
      assert layout[1..][1..] == [];
    }
  }

  /** Over the two return slots, `return v` is the constant, the store into the return value
      at offset 1 and the jump, with no `Pop` and no label. */
  lemma ReturnConstantBlock(ctx: Ctx, layout: seq<Data>, v: Int32) returns (r: GenState)
    requires layout == [ReturnAddress, ReturnValue]
    ensures GenBlock(ctx, InitialState(layout), [Return(IntLit(v))]) == Ok(r)
    ensures r.code == [LoadConstant(v), Store(1), Jump] && r.labels == map[]
  {
    assert IndexOf(layout, ReturnValue) == Some(1);
    assert CountLocals(layout) == 0 by {
      assert layout[1..] == [ReturnValue] && [ReturnValue][1..] == [];
    }
    var st := InitialState(layout);
    var s1 := GenEmit(st, LoadConstant(v));
    assert GenExpr(ctx, st, IntLit(v), 0) == Ok(s1);
    r := GenEmit(GenEmit(s1, Store(1)), Jump);
    assert GenStmt(ctx, st, Return(IntLit(v))) == Ok(r);
    assert GenBlock(ctx, st, [Return(IntLit(v))]) == Ok(r) by {
      assert [Return(IntLit(v))][1..] == [];
    }
  }
}
