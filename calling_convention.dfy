/** Where the code generator's variable reads point.

    The calling convention fixes, for every point of an expression's code, how many values have
    been pushed on top of the function's frame: a binary operation's left operand runs above
    the value of its right operand; a call pushes the return-value slot and the return address
    before its arguments, and argument `i` runs above the `i` arguments before it (each leaves
    exactly one value). `ReferenceLoads` lists, from that convention alone, the depth every
    variable read must use. The code generator instead tracks operator temporaries in its
    frame descriptor and passes call pushes down as the `offset` argument; the theorem below
    shows that with the threaded compensation the two agree for every expression, and the
    counterexample shows that the source's `2 + index` does not once calls nest. */
module CallingConvention {
  import opened Wrappers
  import opened Int32
  import opened Ast
  import opened Asm
  import opened Frame
  import opened Compiler
  import opened CompilerFacts

  /** The operands of the `LoadRelative` instructions of `code`, in order. */
  function Loads(code: seq<Instruction>): seq<Int32> {
    if code == [] then []
    else (if code[0].LoadRelative? then [code[0].offset] else []) + Loads(code[1..])
  }

  lemma {:induction false} LoadsAppend(a: seq<Instruction>, b: seq<Instruction>)
    ensures Loads(a + b) == Loads(a) + Loads(b)
    decreases |a|
  {
    if a == [] {
      assert a + b == b;
    } else {
      assert (a + b)[0] == a[0] && (a + b)[1..] == a[1..] + b;
      LoadsAppend(a[1..], b);
    }
  }

  /** Appending instructions that read no variable keeps the reads. */
  lemma LoadsOfNonReads(a: seq<Instruction>, b: seq<Instruction>)
    requires forall i :: 0 <= i < |b| ==> !b[i].LoadRelative?
    ensures Loads(a + b) == Loads(a)
  {
    LoadsAppend(a, b);
    NoReads(b);
  }

  lemma {:induction false} NoReads(b: seq<Instruction>)
    requires forall i :: 0 <= i < |b| ==> !b[i].LoadRelative?
    ensures Loads(b) == []
    decreases |b|
  {
    if b != [] {
      NoReads(b[1..]);
    }
  }

  /** The depth each variable read of `e` must use when `e`'s code starts `depth` values above
      a frame laid out as `layout`. A variable missing from the layout reads nothing here (its
      compilation fails). */
  function ReferenceLoads(layout: seq<Data>, e: Expr, depth: int): seq<Int32>
    decreases e, 1
  {
    match e
    case Ident(x) =>
      (match IndexOf(layout, Local(x)) case Some(k) => [Wrap(k + depth)] case None => [])
    case IntLit(_) => []
    case Unary(_, _) => []
    case Binary(left, _, right) =>
      ReferenceLoads(layout, right, depth) + ReferenceLoads(layout, left, depth + 1)
    case Call(_, args) => ReferenceArgLoads(layout, args, depth + 2)
  }

  /** The arguments of a call, the first one `depth` values above the frame. */
  function ReferenceArgLoads(layout: seq<Data>, args: seq<Expr>, depth: int): seq<Int32>
    decreases args, 0
  {
    if args == [] then []
    else ReferenceLoads(layout, args[0], depth) + ReferenceArgLoads(layout, args[1..], depth + 1)
  }

  /** `t` operator temporaries on top of a layout, as the descriptor's `push` leaves them. */
  function Temporaries(t: nat): (s: seq<Data>)
    ensures |s| == t && forall i :: 0 <= i < t ==> s[i] == RuntimeValue
  {
    seq(t, _ => RuntimeValue)
  }

  /** A variable's offset `t` slots deeper. */
  function Shift(o: Option<nat>, t: nat): Option<nat> {
    match o case Some(k) => Some(k + t) case None => None
  }

  /** `frame` finds every variable exactly `t` slots deeper than `layout` does: what `t`
      temporaries on top of `layout` amount to for variable reads. */
  ghost predicate PlacedAbove(frame: seq<Data>, t: nat, layout: seq<Data>) {
    forall x :: IndexOf(frame, Local(x)) == Shift(IndexOf(layout, Local(x)), t)
  }

  /** Temporaries above a layout shift every variable's offset by their number. */
  lemma {:induction false} IndexAboveTemporaries(t: nat, layout: seq<Data>, x: string)
    ensures IndexOf(Temporaries(t) + layout, Local(x)) == Shift(IndexOf(layout, Local(x)), t)
  {
    var s := Temporaries(t) + layout;
    match IndexOf(layout, Local(x))
    case Some(k) =>
      assert s[k + t] == Local(x);
      assert forall j :: 0 <= j < k + t ==> s[j] != Local(x) by {
        assert forall j :: t <= j < k + t ==> s[j] == layout[j - t];
      }
      IndexOfAt(s, k + t, Local(x));
    case None =>
      assert Local(x) !in s by {
        assert forall j :: t <= j < |s| ==> s[j] == layout[j - t];
      }
  }

  lemma TemporariesPlaced(t: nat, layout: seq<Data>)
    ensures PlacedAbove(Temporaries(t) + layout, t, layout)
  {
    forall x
      ensures IndexOf(Temporaries(t) + layout, Local(x)) == Shift(IndexOf(layout, Local(x)), t)
    {
      IndexAboveTemporaries(t, layout, x);
    }
  }

  lemma SelfPlaced(layout: seq<Data>)
    ensures PlacedAbove(layout, 0, layout)
  {
    forall x
      ensures IndexOf(layout, Local(x)) == Shift(IndexOf(layout, Local(x)), 0)
    {
    }
  }

  /** One more temporary pushes every variable one slot deeper. */
  lemma PushPlaced(frame: seq<Data>, t: nat, layout: seq<Data>)
    requires PlacedAbove(frame, t, layout)
    ensures PlacedAbove([RuntimeValue] + frame, t + 1, layout)
  {
    forall x
      ensures IndexOf([RuntimeValue] + frame, Local(x)) == Shift(IndexOf(layout, Local(x)), t + 1)
    {
      IndexBelowTemporary(frame, x);
      assert IndexOf(frame, Local(x)) == Shift(IndexOf(layout, Local(x)), t);
    }
  }

  lemma IndexBelowTemporary(frame: seq<Data>, x: string)
    ensures IndexOf([RuntimeValue] + frame, Local(x)) == Shift(IndexOf(frame, Local(x)), 1)
  {
    assert ([RuntimeValue] + frame)[1..] == frame;
  }

  // ---------------------------------------------------------------------------------------
  // The reads the generator emits

  /** The depth each variable read of `e` uses in the generator's code, for either
      compensation, when `e` is compiled with `t` temporaries on the frame and `offset` passed
      down: temporaries count through the frame, call pushes only through `offset`. */
  function GeneratedReads(mode: Compensation, layout: seq<Data>, e: Expr, t: nat, offset: int): seq<Int32>
    decreases e, 1
  {
    match e
    case Ident(x) =>
      (match IndexOf(layout, Local(x)) case Some(k) => [Wrap(k + t + offset)] case None => [])
    case IntLit(_) => []
    case Unary(_, _) => []
    case Binary(left, _, right) =>
      GeneratedReads(mode, layout, right, t, offset) + GeneratedReads(mode, layout, left, t + 1, offset)
    case Call(_, args) => GeneratedArgReads(mode, layout, args, t, offset, 0)
  }

  function GeneratedArgReads(mode: Compensation, layout: seq<Data>, args: seq<Expr>, t: nat, offset: int,
                             index: nat): seq<Int32>
    decreases args, 0
  {
    if args == [] then []
    else GeneratedReads(mode, layout, args[0], t, ArgumentOffset(mode, offset, index))
         + GeneratedArgReads(mode, layout, args[1..], t, offset, index + 1)
  }

  /** The code the generator emits for an expression reads exactly at `GeneratedReads`. */
  lemma {:induction false} ExprReads(ctx: Ctx, st: GenState, e: Expr, offset: int, layout: seq<Data>, t: nat)
    requires PlacedAbove(st.frame, t, layout)
    ensures GenExpr(ctx, st, e, offset).Ok? ==>
      Loads(GenExpr(ctx, st, e, offset).value.code) ==
        Loads(st.code) + GeneratedReads(ctx.mode, layout, e, t, offset)
    decreases e, 1
  {
    if GenExpr(ctx, st, e, offset).Ok? {
      match e
      case Ident(x) =>
        IdentReads(ctx, st, x, offset, layout, t);
      case IntLit(v) =>
        LoadsOfNonReads(st.code, [LoadConstant(v)]);
      case Unary(_, _) =>
      case Binary(left, op, right) =>
        BinaryReads(ctx, st, left, op, right, offset, layout, t);
      case Call(callee, args) =>
        CallExprShape(ctx, st, callee, args, offset);
        var ret := ReturnLabel(ctx.fname, st.counter);
        var s1 := st.(counter := st.counter + 1, retStack := [ret] + st.retStack);
        CallReads(ctx, s1, callee, args, ret, offset, layout, t);
    }
  }

  lemma {:induction false} IdentReads(ctx: Ctx, st: GenState, x: string, offset: int, layout: seq<Data>, t: nat)
    requires PlacedAbove(st.frame, t, layout) && GenExpr(ctx, st, Ident(x), offset).Ok?
    ensures Loads(GenExpr(ctx, st, Ident(x), offset).value.code) ==
      Loads(st.code) + GeneratedReads(ctx.mode, layout, Ident(x), t, offset)
  {
    IdentShape(ctx, st, x, offset);
    assert IndexOf(st.frame, Local(x)) == Shift(IndexOf(layout, Local(x)), t);
    var k := IndexOf(st.frame, Local(x)).value;
    var k0 := IndexOf(layout, Local(x)).value;
    assert k == k0 + t;
    assert GeneratedReads(ctx.mode, layout, Ident(x), t, offset) == [Wrap(k + offset)];
    var load := LoadRelative(Wrap(k + offset));
    assert GenExpr(ctx, st, Ident(x), offset).value.code == st.code + [load];
    SingleLoad(load);
    LoadsAppend(st.code, [load]);
  }

  lemma SingleLoad(ins: Instruction)
    requires ins.LoadRelative?
    ensures Loads([ins]) == [ins.offset]
  {
    assert [ins][1..] == [];
  }

  lemma {:induction false} BinaryReads(ctx: Ctx, st: GenState, left: Expr, op: string, right: Expr, offset: int,
                                       layout: seq<Data>, t: nat)
    requires PlacedAbove(st.frame, t, layout) && GenExpr(ctx, st, Binary(left, op, right), offset).Ok?
    ensures Loads(GenExpr(ctx, st, Binary(left, op, right), offset).value.code) ==
      Loads(st.code) + GeneratedReads(ctx.mode, layout, Binary(left, op, right), t, offset)
    decreases Binary(left, op, right), 0
  {
    BinaryShape(ctx, st, left, op, right, offset);
    var s1 := GenExpr(ctx, st, right, offset).value;
    var readsRight := GeneratedReads(ctx.mode, layout, right, t, offset);
    var readsLeft := GeneratedReads(ctx.mode, layout, left, t + 1, offset);
    ExprReads(ctx, st, right, offset, layout, t);
    assert Loads(s1.code) == Loads(st.code) + readsRight;
    assert s1.frame == st.frame;
    var s1p := s1.(frame := [RuntimeValue] + s1.frame);
    PushPlaced(s1.frame, t, layout);
    var s2 := GenExpr(ctx, s1p, left, offset).value;
    ExprReads(ctx, s1p, left, offset, layout, t + 1);
    assert Loads(s2.code) == Loads(s1.code) + readsLeft;
    LoadsOfNonReads(s2.code, [Operation(OperatorOf(op).value)]);
    assert GeneratedReads(ctx.mode, layout, Binary(left, op, right), t, offset) == readsRight + readsLeft;
    Associative(Loads(st.code), readsRight, readsLeft);
  }

  lemma Associative(a: seq<Int32>, b: seq<Int32>, c: seq<Int32>)
    ensures a + b + c == a + (b + c)
  {
  }

  lemma {:induction false} CallReads(ctx: Ctx, st: GenState, callee: string, args: seq<Expr>, ret: string,
                                     offset: int, layout: seq<Data>, t: nat)
    requires PlacedAbove(st.frame, t, layout)
    ensures GenCall(ctx, st, callee, args, ret, offset).Ok? ==>
      Loads(GenCall(ctx, st, callee, args, ret, offset).value.code) ==
        Loads(st.code) + GeneratedArgReads(ctx.mode, layout, args, t, offset, 0)
    decreases args, 2
  {
    if GenCall(ctx, st, callee, args, ret, offset).Ok? {
      CallShape(ctx, st, callee, args, ret, offset);
      var s1 := GenEmit(GenEmit(st, LoadConstant(0)), LoadLabel(ret));
      LoadsOfNonReads(st.code, [LoadConstant(0), LoadLabel(ret)]);
      var s2 := GenArgs(ctx, s1, args, 0, offset).value;
      ArgsReads(ctx, s1, args, 0, offset, layout, t);
      var zeros := Zeros(CalleeLocalsSize(ctx.resolver[callee]) - |args|);
      LoadsOfNonReads(s2.code, zeros);
      LoadsOfNonReads(s2.code + zeros, [LoadLabel(callee), Jump]);
    }
  }

  lemma {:induction false} ArgsReads(ctx: Ctx, st: GenState, args: seq<Expr>, index: nat, offset: int,
                                     layout: seq<Data>, t: nat)
    requires PlacedAbove(st.frame, t, layout)
    ensures GenArgs(ctx, st, args, index, offset).Ok? ==>
      Loads(GenArgs(ctx, st, args, index, offset).value.code) ==
        Loads(st.code) + GeneratedArgReads(ctx.mode, layout, args, t, offset, index)
    decreases args, 0
  {
    if args != [] && GenArgs(ctx, st, args, index, offset).Ok? {
      ArgsShape(ctx, st, args, index, offset);
      var o := ArgumentOffset(ctx.mode, offset, index);
      var s1 := GenExpr(ctx, st, args[0], o).value;
      ExprReads(ctx, st, args[0], o, layout, t);
      ArgsReads(ctx, s1, args[1..], index + 1, offset, layout, t);
    }
  }

  // ---------------------------------------------------------------------------------------
  // The threaded compensation reads every variable at its slot

  /** With the threaded compensation the generator's reads are the convention's, for every
      expression however calls and operators nest. */
  lemma {:induction false} ThreadedReadsAreReference(layout: seq<Data>, e: Expr, t: nat, offset: int)
    ensures GeneratedReads(Threaded, layout, e, t, offset) == ReferenceLoads(layout, e, t + offset)
    decreases e, 1
  {
    match e
    case Ident(_) =>
    case IntLit(_) =>
    case Unary(_, _) =>
    case Binary(left, _, right) =>
      ThreadedReadsAreReference(layout, right, t, offset);
      ThreadedReadsAreReference(layout, left, t + 1, offset);
    case Call(_, args) =>
      ThreadedArgReadsAreReference(layout, args, t, offset, 0);
  }

  lemma {:induction false} ThreadedArgReadsAreReference(layout: seq<Data>, args: seq<Expr>, t: nat, offset: int,
                                                        index: nat)
    ensures GeneratedArgReads(Threaded, layout, args, t, offset, index) ==
      ReferenceArgLoads(layout, args, t + offset + 2 + index)
    decreases args, 0
  {
    if args != [] {
      ThreadedReadsAreReference(layout, args[0], t, offset + 2 + index);
      ThreadedArgReadsAreReference(layout, args[1..], t, offset, index + 1);
    }
  }

  /** The corrected generator: compiled with the threaded compensation, the code of any
      expression reads every variable exactly where the calling convention has put it. */
  lemma {:induction false} ThreadedReadsFollowConvention(ctx: Ctx, st: GenState, e: Expr, offset: int, layout: seq<Data>, t: nat)
    requires ctx.mode == Threaded && st.frame == Temporaries(t) + layout
    ensures GenExpr(ctx, st, e, offset).Ok? ==>
      Loads(GenExpr(ctx, st, e, offset).value.code) == Loads(st.code) + ReferenceLoads(layout, e, t + offset)
  {
    TemporariesPlaced(t, layout);
    ExprReads(ctx, st, e, offset, layout, t);
    ThreadedReadsAreReference(layout, e, t, offset);
  }

  /** In particular at statement level, where expressions are compiled at offset 0 on a frame
      without temporaries. */
  lemma {:induction false} ThreadedStatementExpression(ctx: Ctx, st: GenState, e: Expr)
    requires ctx.mode == Threaded
    ensures GenExpr(ctx, st, e, 0).Ok? ==>
      Loads(GenExpr(ctx, st, e, 0).value.code) == Loads(st.code) + ReferenceLoads(st.frame, e, 0)
  {
    SelfPlaced(st.frame);
    ExprReads(ctx, st, e, 0, st.frame, 0);
    ThreadedReadsAtTop(st.frame, e);
  }

  lemma ThreadedReadsAtTop(layout: seq<Data>, e: Expr)
    ensures GeneratedReads(Threaded, layout, e, 0, 0) == ReferenceLoads(layout, e, 0)
  {
    ThreadedReadsAreReference(layout, e, 0, 0);
  }

  // ---------------------------------------------------------------------------------------
  // The source's compensation is right while calls do not nest

  /** No call anywhere in `e`. */
  predicate CallFree(e: Expr) {
    match e
    case IntLit(_) => true
    case Ident(_) => true
    case Unary(_, x) => CallFree(x)
    case Binary(left, _, right) => CallFree(left) && CallFree(right)
    case Call(_, _) => false
  }

  /** No call inside the arguments of another call, as in `add(a, b)` or
      `fib(n - 1) + fib(n - 2)`. */
  predicate NoNestedCalls(e: Expr) {
    match e
    case IntLit(_) => true
    case Ident(_) => true
    case Unary(_, x) => NoNestedCalls(x)
    case Binary(left, _, right) => NoNestedCalls(left) && NoNestedCalls(right)
    case Call(_, args) => forall i :: 0 <= i < |args| ==> CallFree(args[i])
  }

  /** Code without calls reads the same under either compensation. */
  lemma {:induction false} CallFreeReadsIgnoreMode(layout: seq<Data>, e: Expr, t: nat, offset: int)
    requires CallFree(e)
    ensures GeneratedReads(AsWritten, layout, e, t, offset) == GeneratedReads(Threaded, layout, e, t, offset)
  {
    match e
    case IntLit(_) =>
    case Ident(_) =>
    case Unary(_, _) =>
    case Binary(left, _, right) =>
      CallFreeReadsIgnoreMode(layout, right, t, offset);
      CallFreeReadsIgnoreMode(layout, left, t + 1, offset);
  }

  /** Call-free arguments of a call compiled at offset 0 read the same under either
      compensation, since `2 + index` and `0 + 2 + index` coincide. */
  lemma {:induction false} CallFreeArgReadsIgnoreMode(layout: seq<Data>, args: seq<Expr>, t: nat, index: nat)
    requires forall i :: 0 <= i < |args| ==> CallFree(args[i])
    ensures GeneratedArgReads(AsWritten, layout, args, t, 0, index) ==
      GeneratedArgReads(Threaded, layout, args, t, 0, index)
    decreases args
  {
    if args != [] {
      CallFreeReadsIgnoreMode(layout, args[0], t, 2 + index);
      assert forall i :: 0 <= i < |args[1..]| ==> CallFree(args[1..][i]) by {
        assert forall i :: 0 <= i < |args[1..]| ==> args[1..][i] == args[i + 1];
      }
      CallFreeArgReadsIgnoreMode(layout, args[1..], t, index + 1);
    }
  }

  /** With the source's `2 + index`, an expression compiled at offset 0 reads every variable
      where the convention puts it, as long as no call sits in another call's arguments. */
  lemma {:induction false} AsWrittenReadsWithoutNesting(layout: seq<Data>, e: Expr, t: nat)
    requires NoNestedCalls(e)
    ensures GeneratedReads(AsWritten, layout, e, t, 0) == ReferenceLoads(layout, e, t)
  {
    match e
    case IntLit(_) =>
    case Ident(_) =>
    case Unary(_, _) =>
    case Binary(left, _, right) =>
      AsWrittenReadsWithoutNesting(layout, right, t);
      AsWrittenReadsWithoutNesting(layout, left, t + 1);
    case Call(_, args) =>
      CallFreeArgReadsIgnoreMode(layout, args, t, 0);
      ThreadedArgReadsAreReference(layout, args, t, 0, 0);
  }

  /** The source's generator at statement level: without nested calls, the code of an
      expression reads every variable at its slot. */
  lemma {:induction false} AsWrittenStatementExpression(ctx: Ctx, st: GenState, e: Expr)
    requires ctx.mode == AsWritten && NoNestedCalls(e)
    ensures GenExpr(ctx, st, e, 0).Ok? ==>
      Loads(GenExpr(ctx, st, e, 0).value.code) == Loads(st.code) + ReferenceLoads(st.frame, e, 0)
  {
    SelfPlaced(st.frame);
    ExprReads(ctx, st, e, 0, st.frame, 0);
    AsWrittenReadsWithoutNesting(st.frame, e, 0);
  }

  // ---------------------------------------------------------------------------------------
  // The source's compensation does not

  /** `fn id(x) { return x }` */
  function Identity(): Function {
    Function("id", ["x"], [Return(Ident("x"))])
  }

  /** `id(id(b))` */
  function NestedCall(): Expr {
    Call("id", [Call("id", [Ident("b")])])
  }

  /** Compiling `id(id(b))` in a function whose only local is `b` (at offset 0, below it the
      return address and the return value): with the source's `2 + index` the read of `b`
      uses depth 2, which at that point holds the outer call's return address; the
      convention puts `b` at depth 4 (two slots for each of the two pending calls), which is
      what the threaded compensation reads. */
  lemma NestedCallMisaddresses()
    ensures var layout := [Local("b"), ReturnAddress, ReturnValue];
      var resolver := map["id" := Identity()];
      var written := GenExpr(Ctx("main", resolver, AsWritten), InitialState(layout), NestedCall(), 0);
      var threaded := GenExpr(Ctx("main", resolver, Threaded), InitialState(layout), NestedCall(), 0);
      && ReferenceLoads(layout, NestedCall(), 0) == [4]
      && written.Ok? && Loads(written.value.code) == [2]
      && threaded.Ok? && Loads(threaded.value.code) == [4]
  {
    var layout := [Local("b"), ReturnAddress, ReturnValue];
    var resolver := map["id" := Identity()];
    assert IndexOf(layout, Local("b")) == Some(0);
    assert Compilable(layout, resolver, NestedCall()) by {
      assert Compilable(layout, resolver, Call("id", [Ident("b")]));
    }
    SelfPlaced(layout);
    assert ReferenceLoads(layout, NestedCall(), 0) == [4] by {
      assert ReferenceArgLoads(layout, [Ident("b")], 4) == [4];
      assert ReferenceArgLoads(layout, [Call("id", [Ident("b")])], 2) == [4];
    }
    assert GeneratedReads(AsWritten, layout, NestedCall(), 0, 0) == [2] by {
      assert GeneratedArgReads(AsWritten, layout, [Ident("b")], 0, 2, 0) == [2];
      assert GeneratedArgReads(AsWritten, layout, [Call("id", [Ident("b")])], 0, 0, 0) == [2];
    }
    var written := Ctx("main", resolver, AsWritten);
    CompilesIff(written, InitialState(layout), NestedCall(), 0);
    ExprReads(written, InitialState(layout), NestedCall(), 0, layout, 0);
    var threaded := Ctx("main", resolver, Threaded);
    CompilesIff(threaded, InitialState(layout), NestedCall(), 0);
    ThreadedStatementExpression(threaded, InitialState(layout), NestedCall());
  }
}
