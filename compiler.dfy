/** `MangoCompiler`, `FunctionResolver`, `AbstractCompiler`, `BootstrapCompiler` and
    `FunctionCompiler`: code generation from the syntax tree to annotated chunks.

    The generation is first stated as functions over an explicit generator state
    (`GenState`); the classes at the end of the module update the same state step by step
    and are proved to produce exactly what those functions describe. */
module Compiler {
  import opened Wrappers
  import opened Int32
  import opened Ast
  import opened Asm
  import opened Frame

  // ---------------------------------------------------------------------------------------
  // Function resolution

  /** `associateBy { it.identifier.name }`: a later function with the same name replaces an
      earlier one. */
  function Resolve(fs: seq<Function>): map<string, Function>
    decreases |fs|
  {
    if fs == [] then map[]
    else Resolve(fs[..|fs| - 1])[fs[|fs| - 1].name := fs[|fs| - 1]]
  }

  /** A name resolves iff some function carries it, and then to the last one that does. */
  lemma {:induction false} ResolveFindsLast(fs: seq<Function>, name: string)
    ensures name in Resolve(fs) <==> exists i :: 0 <= i < |fs| && fs[i].name == name
    ensures name in Resolve(fs) ==>
      exists i :: 0 <= i < |fs| && fs[i] == Resolve(fs)[name] && fs[i].name == name
        && forall j :: i < j < |fs| ==> fs[j].name != name
    decreases |fs|
  {
    if fs != [] {
      var init, last := fs[..|fs| - 1], fs[|fs| - 1];
      ResolveFindsLast(init, name);
      if name == last.name {
        assert fs[|fs| - 1].name == name;
      } else {
        if name in Resolve(fs) {
          var i :| 0 <= i < |init| && init[i] == Resolve(init)[name] && init[i].name == name
            && forall j :: i < j < |init| ==> init[j].name != name;
          assert fs[i] == init[i];
        }
        if exists i :: 0 <= i < |fs| && fs[i].name == name {
          var i :| 0 <= i < |fs| && fs[i].name == name;
          assert i < |init| && init[i].name == name;
        }
      }
    }
  }

  // ---------------------------------------------------------------------------------------
  // Return labels

  function Digit(d: nat): char
    requires d < 10
  {
    "0123456789"[d]
  }

  /** The decimal text of a counter, as a Kotlin string template renders a non-negative `Int`. */
  function NatToString(n: nat): (s: string)
    ensures |s| >= 1
    ensures n < 10 <==> |s| == 1
    decreases n
  {
    if n < 10 then [Digit(n)] else NatToString(n / 10) + [Digit(n % 10)]
  }

  lemma {:induction false} NatToStringInjective(a: nat, b: nat)
    requires NatToString(a) == NatToString(b)
    ensures a == b
    decreases a
  {
    if a >= 10 {
      assert b >= 10;
      var sa, sb := NatToString(a), NatToString(b);
      assert sa[|sa| - 1] == Digit(a % 10) && sb[|sb| - 1] == Digit(b % 10);
      assert sa[..|sa| - 1] == NatToString(a / 10);
      assert sb[..|sb| - 1] == NatToString(b / 10);
      NatToStringInjective(a / 10, b / 10);
    } else {
      assert NatToString(a)[0] == Digit(a);
    }
  }

  /** `.return.<function>.<counter>`. */
  function ReturnLabel(fname: string, counter: nat): string {
    ".return." + fname + "." + NatToString(counter)
  }

  /** Labels taken from different counter values of one function are different. */
  lemma ReturnLabelsDistinct(fname: string, a: nat, b: nat)
    requires a != b
    ensures ReturnLabel(fname, a) != ReturnLabel(fname, b)
  {
    var p := ".return." + fname + ".";
    if ReturnLabel(fname, a) == ReturnLabel(fname, b) {
      assert p + NatToString(a) == p + NatToString(b);
      assert NatToString(a) == (p + NatToString(a))[|p|..];
      assert NatToString(b) == (p + NatToString(b))[|p|..];
      NatToStringInjective(a, b);
    }
  }

  // ---------------------------------------------------------------------------------------
  // Generator state

  /** How a call compensates the offsets of its arguments for what it has pushed so far.
      `AsWritten` is the source's `2 + index`, which drops the compensation the enclosing
      expression already carries; `Threaded` adds it (`offset + 2 + index`). */
  datatype Compensation = AsWritten | Threaded

  function ArgumentOffset(mode: Compensation, offset: int, index: nat): int {
    match mode
    case AsWritten => 2 + index
    case Threaded => offset + 2 + index
  }

  /** What a compiler is fixed with: the function it compiles (used for return labels), the
      resolver and the compensation rule. */
  datatype Ctx = Ctx(fname: string, resolver: map<string, Function>, mode: Compensation)

  /** The state a compiler changes while it runs: the `instructions` deque, the `labels` map,
      `returnLabelCounter`, `returnLabelStack` (top first), `labelsToAdd` (first first) and
      the slots of its frame descriptor (top first). */
  datatype GenState = GenState(
    code: seq<Instruction>,
    labels: map<nat, seq<string>>,
    counter: nat,
    retStack: seq<string>,
    pending: seq<string>,
    frame: seq<Data>)

  function InitialState(frame: seq<Data>): GenState {
    GenState([], map[], 0, [], [], frame)
  }

  /** `emit`: append the instruction; pending labels, if any, are bound to its position and
      take the place of the labels passed in; otherwise the labels passed in are bound. */
  function GenEmitLabeled(st: GenState, ins: Instruction, ls: seq<string>): (r: GenState)
    ensures r.code == st.code + [ins]
    ensures r.pending == [] && r.counter == st.counter && r.retStack == st.retStack && r.frame == st.frame
    ensures r.labels == if st.pending != [] then st.labels[|st.code| := st.pending]
                        else if ls != [] then st.labels[|st.code| := ls] else st.labels
  {
    if st.pending != [] then
      st.(code := st.code + [ins], labels := st.labels[|st.code| := st.pending], pending := [])
    else if ls != [] then
      st.(code := st.code + [ins], labels := st.labels[|st.code| := ls])
    else
      st.(code := st.code + [ins])
  }

  function GenEmit(st: GenState, ins: Instruction): GenState {
    GenEmitLabeled(st, ins, [])
  }

  /** `repeat(n) { emit(Load.Constant(0)) }`; a negative count emits nothing. */
  function GenEmitZeros(st: GenState, n: int): (r: GenState)
    ensures r.code == st.code + Zeros(n)
    ensures r.counter == st.counter && r.retStack == st.retStack && r.frame == st.frame
    ensures n <= 0 ==> r == st
    ensures n > 0 ==> r.pending == []
    decreases n
  {
    if n <= 0 then st else GenEmitZeros(GenEmit(st, LoadConstant(0)), n - 1)
  }

  function Zeros(n: int): (z: seq<Instruction>)
    ensures |z| == if n <= 0 then 0 else n
    ensures forall i :: 0 <= i < |z| ==> z[i] == LoadConstant(0)
    decreases n
  {
    if n <= 0 then [] else [LoadConstant(0)] + Zeros(n - 1)
  }

  /** `pushReturnLabel`: a fresh label, remembered on top of the return-label stack. */
  function GenPushReturnLabel(ctx: Ctx, st: GenState): (r: (string, GenState))
    ensures r.0 == ReturnLabel(ctx.fname, st.counter)
    ensures r.1 == st.(counter := st.counter + 1, retStack := [r.0] + st.retStack)
  {
    var l := ReturnLabel(ctx.fname, st.counter);
    (l, st.(counter := st.counter + 1, retStack := [l] + st.retStack))
  }

  /** `requireReturnLabel`: the most recent return label becomes the first pending label. */
  function GenRequireReturnLabel(st: GenState): (r: Result<GenState>)
    ensures r.Ok? <==> st.retStack != []
    ensures r.Ok? ==> r.value == st.(retStack := st.retStack[1..], pending := [st.retStack[0]] + st.pending)
  {
    if st.retStack == [] then Err("ArrayDeque is empty.")
    else Ok(st.(retStack := st.retStack[1..], pending := [st.retStack[0]] + st.pending))
  }

  /** `stackFrameDescriptor.offset(d)` on the current frame. */
  function OffsetIn(frame: seq<Data>, d: Data): (r: Result<nat>)
    ensures r.Ok? <==> d in frame
    ensures r.Ok? ==> IndexOf(frame, d) == Some(r.value)
  {
    match IndexOf(frame, d)
    case Some(k) => Ok(k)
    case None => Err("Unknown data")
  }

  /** `stackFrameDescriptor.pop()` on the current frame. */
  function PopTemporary(st: GenState): (r: Result<GenState>)
    ensures r.Ok? <==> st.frame != [] && st.frame[0] == RuntimeValue
    ensures r.Ok? ==> r.value == st.(frame := st.frame[1..])
  {
    if st.frame != [] && st.frame[0] == RuntimeValue then Ok(st.(frame := st.frame[1..]))
    else Err("Can not pop non-runtime value")
  }

  /** The operator names the code generator accepts. */
  function OperatorOf(name: string): (r: Option<Op>)
    ensures r.Some? <==> name in {"plus", "minus", "times", "divide", "modulo", "greaterThan",
      "lessThan", "greaterThanOrEqual", "lessThanOrEqual", "doubleEqual"}
  {
    match name
    case "plus" => Some(Add)
    case "minus" => Some(Sub)
    case "times" => Some(Mul)
    case "divide" => Some(Div)
    case "modulo" => Some(Mod)
    case "greaterThan" => Some(GreaterThan)
    case "lessThan" => Some(LessThan)
    case "greaterThanOrEqual" => Some(GreaterThanOrEqual)
    case "lessThanOrEqual" => Some(LessThanOrEqual)
    case "doubleEqual" => Some(Equal)
    case _ => None
  }

  /** `localsSize` of a fresh descriptor of the callee. */
  function CalleeLocalsSize(g: Function): nat {
    CountLocals(InitialLayout(g))
  }

  /** `StackFrameDescriptor(function).localsSize` of a callee, as `functionCall` builds it. */
  method CalleeSize(g: Function) returns (size: nat)
    ensures size == CalleeLocalsSize(g)
  {
    var calleeFrame := new StackFrameDescriptor(g);
    size := calleeFrame.LocalsSize();
  }

  /** What code generation keeps fixed: the prefix already emitted, the return-label stack
      and the frame; the counter only grows. */
  predicate Extends(st: GenState, r: GenState) {
    && st.code <= r.code
    && r.counter >= st.counter
    && r.retStack == st.retStack
    && r.frame == st.frame
  }

  // ---------------------------------------------------------------------------------------
  // Code generation

  /** `FunctionCompiler.expression(e, offset)`. */
  function GenExpr(ctx: Ctx, st: GenState, e: Expr, offset: int): (r: Result<GenState>)
    ensures r.Ok? ==> Extends(st, r.value)
    decreases e, 1
  {
    match e
    case Ident(x) =>
      var k :- OffsetIn(st.frame, Local(x));
      Ok(GenEmit(st, LoadRelative(Wrap(k + offset))))
    case IntLit(v) =>
      Ok(GenEmit(st, LoadConstant(v)))
    case Binary(left, op, right) =>
      var s1 :- GenExpr(ctx, st, right, offset);
      var s2 :- GenExpr(ctx, s1.(frame := [RuntimeValue] + s1.frame), left, offset);
      var s3 := s2.(frame := [RuntimeValue] + s2.frame);
      if OperatorOf(op).None? then Err("Unknown operator: " + op)
      else
        var s4 := GenEmit(s3, Operation(OperatorOf(op).value));
        var s5 :- PopTemporary(s4);
        PopTemporary(s5)
    case Call(callee, args) =>
      var (ret, s1) := GenPushReturnLabel(ctx, st);
      var s2 :- GenCall(ctx, s1, callee, args, ret, offset);
      GenRequireReturnLabel(s2)
    case Unary(_, _) =>
      Err("Unknown expression")
  }

  /** `AbstractCompiler.functionCall(call, ret)` as `FunctionCompiler` runs it: the return-value
      slot, the return address, the arguments, zeros for the callee's other locals, then the
      callee's address and the jump. */
  function GenCall(ctx: Ctx, st: GenState, callee: string, args: seq<Expr>, ret: string, offset: int)
    : (r: Result<GenState>)
    ensures r.Ok? ==> Extends(st, r.value)
    decreases args, 2
  {
    if callee !in ctx.resolver then Err("Unknown function: " + callee)
    else
      var size := CalleeLocalsSize(ctx.resolver[callee]);
      var s1 := GenEmit(GenEmit(st, LoadConstant(0)), LoadLabel(ret));
      var s2 :- GenArgs(ctx, s1, args, 0, offset);
      var s3 := GenEmitZeros(s2, size - |args|);
      Ok(GenEmit(GenEmit(s3, LoadLabel(callee)), Jump))
  }

  /** `GenCall` once the callee is known, its steps named one by one. */
  lemma GenCallSteps(ctx: Ctx, st: GenState, callee: string, args: seq<Expr>, ret: string, offset: int)
    requires callee in ctx.resolver
    ensures var s1 := GenEmit(GenEmit(st, LoadConstant(0)), LoadLabel(ret));
      var s2 := GenArgs(ctx, s1, args, 0, offset);
      GenCall(ctx, st, callee, args, ret, offset) ==
        if s2.Err? then Err(s2.message)
        else Ok(GenEmit(GenEmit(GenEmitZeros(s2.value, CalleeLocalsSize(ctx.resolver[callee]) - |args|),
                                LoadLabel(callee)), Jump))
  {
  }

  /** `call.arguments.forEachIndexed { index, it -> expression(it, compensation) }`, from
      position `index` on. */
  function GenArgs(ctx: Ctx, st: GenState, args: seq<Expr>, index: nat, offset: int)
    : (r: Result<GenState>)
    ensures r.Ok? ==> Extends(st, r.value)
    decreases args, 0
  {
    if args == [] then Ok(st)
    else
      var s1 :- GenExpr(ctx, st, args[0], ArgumentOffset(ctx.mode, offset, index));
      GenArgs(ctx, s1, args[1..], index + 1, offset)
  }

  /** `FunctionCompiler.statement`: return, variable declaration and `when`; any other
      statement aborts compilation. */
  function GenStmt(ctx: Ctx, st: GenState, s: Stmt): (r: Result<GenState>)
    ensures r.Ok? ==> Extends(st, r.value)
    decreases s
  {
    match s
    case Return(e) =>
      var s1 :- GenExpr(ctx, st, e, 0);
      var k :- OffsetIn(s1.frame, ReturnValue);
      var s2 := GenEmit(s1, Store(Wrap(k)));
      var size := CountLocals(s2.frame);
      var s3 := if size > 0 then GenEmit(s2, Pop(Wrap(size))) else s2;
      Ok(GenEmit(s3, Jump))
    case VarDecl(x, e) =>
      var s1 :- GenExpr(ctx, st, e, 0);
      var k :- OffsetIn(s1.frame, Local(x));
      Ok(GenEmit(s1, Store(Wrap(k))))
    case When(c, body) =>
      var s1 :- GenExpr(ctx, st, c, 0);
      var (l, s2) := GenPushReturnLabel(ctx, s1);
      var s3 := GenEmit(GenEmit(s2, LoadLabel(l)), JumpWhenZero);
      var s4 :- GenBlock(ctx, s3, body);
      GenRequireReturnLabel(s4)
    case _ =>
      Err("Unknown statement")
  }

  /** `block`: the statements in list order. */
  function GenBlock(ctx: Ctx, st: GenState, ss: seq<Stmt>): (r: Result<GenState>)
    ensures r.Ok? ==> Extends(st, r.value)
    decreases ss
  {
    if ss == [] then Ok(st)
    else
      var s1 :- GenStmt(ctx, st, ss[0]);
      GenBlock(ctx, s1, ss[1..])
  }

  /** `annotated`: each instruction with the labels bound to its position, or none. */
  function Annotate(code: seq<Instruction>, labels: map<nat, seq<string>>): (a: seq<Annotated>)
    ensures |a| == |code|
    ensures forall i :: 0 <= i < |code| ==>
      a[i] == Annotated(code[i], if i in labels then labels[i] else [])
  {
    seq(|code|, i requires 0 <= i < |code| => Annotated(code[i], if i in labels then labels[i] else []))
  }

  /** `FunctionCompiler(f).compile()`. Labels still pending after the last statement are not
      bound to anything. */
  function CompileFunction(resolver: map<string, Function>, mode: Compensation, f: Function)
    : (r: Result<Chunk>)
  {
    var st :- GenBlock(Ctx(f.name, resolver, mode), InitialState(InitialLayout(f)), f.body);
    Ok(FunctionChunk(f, Annotate(st.code, st.labels)))
  }

  /** `BootstrapCompiler.compile()`: call `main` with return label `.exit`, then `Exit`
      labelled `.exit`. The call has no arguments, so the bootstrap never compiles an
      expression (which it cannot). */
  function CompileBootstrap(resolver: map<string, Function>): (r: Result<Chunk>)
  {
    var st :- GenCall(Ctx("bootstrap", resolver, AsWritten), InitialState([]), "main", [], ".exit", 0);
    var s1 := GenEmitLabeled(st, Exit, [".exit"]);
    Ok(RawChunk("bootstrap", Annotate(s1.code, s1.labels)))
  }

  function CompileFunctions(resolver: map<string, Function>, mode: Compensation, fs: seq<Function>)
    : (r: Result<seq<Chunk>>)
    ensures r.Ok? ==> |r.value| == |fs|
    ensures r.Ok? ==> forall i :: 0 <= i < |fs| ==> CompileFunction(resolver, mode, fs[i]) == Ok(r.value[i])
  {
    if fs == [] then Ok([])
    else
      var c :- CompileFunction(resolver, mode, fs[0]);
      var cs :- CompileFunctions(resolver, mode, fs[1..]);
      Ok([c] + cs)
  }

  /** `MangoCompiler.compile(program, bootstrap)`. */
  function Compile(p: Program, bootstrap: bool, mode: Compensation): (r: Result<seq<Chunk>>)
  {
    var resolver := Resolve(p.functions);
    var boot :- if bootstrap then (var b :- CompileBootstrap(resolver); Ok([b])) else Ok([]);
    var cs :- CompileFunctions(resolver, mode, p.functions);
    Ok(boot + cs)
  }

  // ---------------------------------------------------------------------------------------
  // The compilers as the source runs them

  /** `FunctionCompiler`: the state of `AbstractCompiler` (instructions and labels) plus the
      return-label counter, the return-label stack, the pending labels and the function's own
      frame descriptor, all updated in place while the body is compiled. */
  class FunctionCompiler {
    const decl: Function
    const resolver: map<string, Function>
    const mode: Compensation
    const descriptor: StackFrameDescriptor
    var instructions: seq<Instruction>
    var labels: map<nat, seq<string>>
    var returnLabelCounter: nat
    var returnLabelStack: seq<string>
    var labelsToAdd: seq<string>

    function Context(): Ctx {
      Ctx(decl.name, resolver, mode)
    }

    function State(): GenState
      reads this, descriptor
    {
      GenState(instructions, labels, returnLabelCounter, returnLabelStack, labelsToAdd, descriptor.stack)
    }

    constructor (f: Function, resolver: map<string, Function>, mode: Compensation)
      ensures decl == f && this.resolver == resolver && this.mode == mode
      ensures State() == InitialState(InitialLayout(f))
      ensures fresh(descriptor)
    {
      decl := f;
      this.resolver := resolver;
      this.mode := mode;
      descriptor := new StackFrameDescriptor(f);
      instructions := [];
      labels := map[];
      returnLabelCounter := 0;
      returnLabelStack := [];
      labelsToAdd := [];
    }

    /** `emit`, overridden so that pending labels are bound first. */
    method EmitLabeled(ins: Instruction, ls: seq<string>)
      modifies this
      ensures State() == GenEmitLabeled(old(State()), ins, ls)
    {
      if labelsToAdd != [] {
        var pendingLabels := labelsToAdd;
        labelsToAdd := [];
        instructions := instructions + [ins];
        labels := labels[|instructions| - 1 := pendingLabels];
      } else {
        instructions := instructions + [ins];
        if ls != [] {
          labels := labels[|instructions| - 1 := ls];
        }
      }
    }

    method Emit(ins: Instruction)
      modifies this
      ensures State() == GenEmit(old(State()), ins)
    {
      EmitLabeled(ins, []);
    }

    method PushReturnLabel() returns (l: string)
      modifies this
      ensures (l, State()) == GenPushReturnLabel(Context(), old(State()))
    {
      l := ".return." + decl.name + "." + NatToString(returnLabelCounter);
      returnLabelCounter := returnLabelCounter + 1;
      returnLabelStack := [l] + returnLabelStack;
    }

    method RequireReturnLabel() returns (r: Outcome)
      modifies this
      ensures r.Pass? <==> GenRequireReturnLabel(old(State())).Ok?
      ensures r.Pass? ==> State() == GenRequireReturnLabel(old(State())).value
    {
      if returnLabelStack == [] {
        return Fail("ArrayDeque is empty.");
      }
      var l := returnLabelStack[0];
      returnLabelStack := returnLabelStack[1..];
      labelsToAdd := [l] + labelsToAdd;
      return Pass;
    }

    method Expression(e: Expr, offset: int) returns (r: Outcome)
      modifies this, descriptor
      ensures r.Pass? <==> GenExpr(Context(), old(State()), e, offset).Ok?
      ensures r.Pass? ==> State() == GenExpr(Context(), old(State()), e, offset).value
      decreases e, 1
    {
      match e {
        case Ident(x) =>
          var k := descriptor.Offset(Local(x));
          if k.Err? {
            return Fail(k.message);
          }
          Emit(LoadRelative(Wrap(k.value + offset)));
          return Pass;
        case IntLit(v) =>
          Emit(LoadConstant(v));
          return Pass;
        case Binary(left, op, right) =>
          r := Expression(right, offset);
          if r.Fail? {
            return;
          }
          descriptor.Push();
          r := Expression(left, offset);
          if r.Fail? {
            return;
          }
          descriptor.Push();
          var o := OperatorOf(op);
          if o.None? {
            return Fail("Unknown operator: " + op);
          }
          Emit(Operation(o.value));
          r := descriptor.Pop();
          if r.Fail? {
            return;
          }
          r := descriptor.Pop();
        case Call(callee, args) =>
          var ret := PushReturnLabel();
          r := FunctionCall(callee, args, ret, offset);
          if r.Fail? {
            return;
          }
          r := RequireReturnLabel();
        case Unary(_, _) =>
          return Fail("Unknown expression");
      }
    }

    /** `AbstractCompiler.functionCall`. */
    method FunctionCall(callee: string, args: seq<Expr>, ret: string, offset: int) returns (r: Outcome)
      modifies this, descriptor
      ensures r.Pass? <==> GenCall(Context(), old(State()), callee, args, ret, offset).Ok?
      ensures r.Pass? ==> State() == GenCall(Context(), old(State()), callee, args, ret, offset).value
      decreases args, 2
    {
      if callee !in resolver {
        return Fail("Unknown function: " + callee);
      }
      GenCallSteps(Context(), State(), callee, args, ret, offset);
      var size := CalleeSize(resolver[callee]);
      Emit(LoadConstant(0));
      Emit(LoadLabel(ret));
      ghost var s1 := State();
      assert s1 == GenEmit(GenEmit(old(State()), LoadConstant(0)), LoadLabel(ret));
      r := Arguments(args, offset);
      if r.Fail? {
        return;
      }
      assert State() == GenArgs(Context(), s1, args, 0, offset).value;
      FinishCall(callee, size - |args|);
    }

    /** The tail of a call: `padding` zeros, the callee's address and the jump. */
    method FinishCall(callee: string, padding: int)
      modifies this
      ensures State() == GenEmit(GenEmit(GenEmitZeros(old(State()), padding), LoadLabel(callee)), Jump)
    {
      EmitZeros(padding);
      Emit(LoadLabel(callee));
      Emit(Jump);
    }

    /** The arguments in order, argument `i` compiled with its compensation. */
    method Arguments(args: seq<Expr>, offset: int) returns (r: Outcome)
      modifies this, descriptor
      ensures r.Pass? <==> GenArgs(Context(), old(State()), args, 0, offset).Ok?
      ensures r.Pass? ==> State() == GenArgs(Context(), old(State()), args, 0, offset).value
      decreases args, 1
    {
      ghost var s0 := State();
      assert args[0..] == args;
      for i := 0 to |args|
        invariant GenArgs(Context(), s0, args, 0, offset) == GenArgs(Context(), State(), args[i..], i, offset)
      {
        assert args[i..][0] == args[i] && args[i..][1..] == args[i + 1..];
        r := Expression(args[i], ArgumentOffset(mode, offset, i));
        if r.Fail? {
          return;
        }
      }
      return Pass;
    }

    /** `repeat(n) { emit(Load.Constant(0)) }`. */
    method EmitZeros(n: int)
      modifies this
      ensures State() == GenEmitZeros(old(State()), n)
    {
      ghost var s0 := State();
      var j := 0;
      while j < n
        invariant 0 <= j <= if n < 0 then 0 else n
        invariant GenEmitZeros(s0, n) == GenEmitZeros(State(), n - j)
      {
        Emit(LoadConstant(0));
        j := j + 1;
      }
    }

    method Statement(s: Stmt) returns (r: Outcome)
      modifies this, descriptor
      ensures r.Pass? <==> GenStmt(Context(), old(State()), s).Ok?
      ensures r.Pass? ==> State() == GenStmt(Context(), old(State()), s).value
      decreases s
    {
      match s {
        case Return(e) =>
          r := Expression(e, 0);
          if r.Fail? {
            return;
          }
          var k := descriptor.Offset(ReturnValue);
          if k.Err? {
            return Fail(k.message);
          }
          Emit(Store(Wrap(k.value)));
          ReturnFromFunction();
        case VarDecl(x, e) =>
          r := Expression(e, 0);
          if r.Fail? {
            return;
          }
          var k := descriptor.Offset(Local(x));
          if k.Err? {
            return Fail(k.message);
          }
          Emit(Store(Wrap(k.value)));
        case When(c, body) =>
          r := Expression(c, 0);
          if r.Fail? {
            return;
          }
          var l := PushReturnLabel();
          Emit(LoadLabel(l));
          Emit(JumpWhenZero);
          r := Block(body);
          if r.Fail? {
            return;
          }
          r := RequireReturnLabel();
        case FunDecl(_) =>
          return Fail("Unknown statement");
        case While(_, _) =>
          return Fail("Unknown statement");
        case Block(_) =>
          return Fail("Unknown statement");
        case ExprStmt(_) =>
          return Fail("Unknown statement");
        case Assign(_, _) =>
          return Fail("Unknown statement");
      }
    }

    /** `returnFromFunction`: unwind the locals (never `Pop(0)`), then jump back. */
    method ReturnFromFunction()
      modifies this
      ensures var size := CountLocals(old(State()).frame);
              var st := if size > 0 then GenEmit(old(State()), Pop(Wrap(size))) else old(State());
              State() == GenEmit(st, Jump)
    {
      var size := descriptor.LocalsSize();
      if size > 0 {
        Emit(Pop(Wrap(size)));
      }
      Emit(Jump);
    }

    method Block(ss: seq<Stmt>) returns (r: Outcome)
      modifies this, descriptor
      ensures r.Pass? <==> GenBlock(Context(), old(State()), ss).Ok?
      ensures r.Pass? ==> State() == GenBlock(Context(), old(State()), ss).value
      decreases ss
    {
      ghost var s0 := State();
      assert ss[0..] == ss;
      for i := 0 to |ss|
        invariant GenBlock(Context(), s0, ss) == GenBlock(Context(), State(), ss[i..])
      {
        assert ss[i..][0] == ss[i] && ss[i..][1..] == ss[i + 1..];
        r := Statement(ss[i]);
        if r.Fail? {
          return;
        }
      }
      return Pass;
    }

    method Compile() returns (r: Result<Chunk>)
      requires State() == InitialState(InitialLayout(decl))
      modifies this, descriptor
      ensures r.Ok? <==> CompileFunction(resolver, mode, decl).Ok?
      ensures r.Ok? ==> r == CompileFunction(resolver, mode, decl)
    {
      var o := Block(decl.body);
      if o.Fail? {
        return Err(o.message);
      }
      return Ok(FunctionChunk(decl, Annotate(instructions, labels)));
    }
  }

  /** `BootstrapCompiler`: `AbstractCompiler`'s instructions and labels, with no pending labels
      and no expressions. */
  class BootstrapCompiler {
    const resolver: map<string, Function>
    var instructions: seq<Instruction>
    var labels: map<nat, seq<string>>

    function State(): GenState
      reads this
    {
      GenState(instructions, labels, 0, [], [], [])
    }

    constructor (resolver: map<string, Function>)
      ensures this.resolver == resolver && State() == InitialState([])
    {
      this.resolver := resolver;
      instructions := [];
      labels := map[];
    }

    /** `AbstractCompiler.emit`. */
    method Emit(ins: Instruction, ls: seq<string>)
      modifies this
      ensures State() == GenEmitLabeled(old(State()), ins, ls)
    {
      instructions := instructions + [ins];
      if ls != [] {
        labels := labels[|instructions| - 1 := ls];
      }
    }

    method Compile() returns (r: Result<Chunk>)
      requires State() == InitialState([])
      modifies this
      ensures r.Ok? <==> CompileBootstrap(resolver).Ok?
      ensures r.Ok? ==> r == CompileBootstrap(resolver)
    {
      if "main" !in resolver {
        return Err("Unknown function: main");
      }
      var n := CalleeSize(resolver["main"]);
      Emit(LoadConstant(0), []);
      Emit(LoadLabel(".exit"), []);
      ghost var s2 := State();
      var j := 0;
      while j < n
        invariant 0 <= j <= n
        invariant GenEmitZeros(s2, n) == GenEmitZeros(State(), n - j)
      {
        Emit(LoadConstant(0), []);
        j := j + 1;
      }
      ghost var called := GenEmit(GenEmit(State(), LoadLabel("main")), Jump);
      assert GenCall(Ctx("bootstrap", resolver, AsWritten), InitialState([]), "main", [], ".exit", 0)
          == Ok(called);
      Emit(LoadLabel("main"), []);
      Emit(Jump, []);
      assert State() == called;
      Emit(Exit, [".exit"]);
      return Ok(RawChunk("bootstrap", Annotate(instructions, labels)));
    }
  }
}
