/** The back end end to end on the smallest program: `fn main() { return v }` compiled with
    the bootstrap chunk, linked with either encoder, and run on the list virtual machine, which
    halts with the value the interpreter returns for the same program. */
module Pipeline {
  import opened Wrappers
  import opened Int32
  import opened Ast
  import opened Asm
  import opened Frame
  import opened Compiler
  import opened CompilerFacts
  import opened Encoder
  import opened Linker
  import opened ListVm
  import opened Interpreter
  import opened ByteVm

  function ReturnConstantMain(v: Int32): Function {
    Function("main", [], [Return(IntLit(v))])
  }

  function ReturnConstantProgram(v: Int32): Program {
    Program([ReturnConstantMain(v)])
  }

  /** The bootstrap chunk for a `main` without locals: push the slot for the result and the
      return address `.exit`, jump to `main`, and exit at `.exit`. */
  function BootstrapChunk(): Chunk {
    RawChunk("bootstrap", [Plain(LoadConstant(0)), Plain(LoadLabel(".exit")), Plain(LoadLabel("main")),
                           Plain(Jump), Annotated(Exit, [".exit"])])
  }

  function MainChunk(v: Int32): Chunk {
    FunctionChunk(ReturnConstantMain(v), [Plain(LoadConstant(v)), Plain(Store(1)), Plain(Jump)])
  }

  /** Where `.exit` and `main` land: instruction 4 and 5 with one slot per instruction, byte 16
      and 17 with five bytes for each of the three loads ahead of them. */
  function ExitAddress(enc: Encoder): Int32 {
    if enc.NullEncoder? then 4 else 16
  }

  function MainAddress(enc: Encoder): Int32 {
    if enc.NullEncoder? then 5 else 17
  }

  function LinkedReturnConstant(enc: Encoder, v: Int32): seq<Instruction> {
    [LoadConstant(0), LoadConstant(ExitAddress(enc)), LoadConstant(MainAddress(enc)), Jump, Exit,
     LoadConstant(v), Store(1), Jump]
  }

  // ---------------------------------------------------------------------------------------
  // Compilation

  lemma ResolveReturnConstant(v: Int32)
    ensures Resolve([ReturnConstantMain(v)]) == map["main" := ReturnConstantMain(v)]
  {
    var fs := [ReturnConstantMain(v)];
    assert fs[..0] == [];
    assert map[]["main" := fs[0]] == map["main" := fs[0]];
  }

  lemma {:induction false} BootstrapOfReturnConstant(v: Int32)
    ensures CompileBootstrap(map["main" := ReturnConstantMain(v)]) == Ok(BootstrapChunk())
  {
    var resolver := map["main" := ReturnConstantMain(v)];
    assert CalleeLocalsSize(resolver["main"]) == 0 by {
      ReturnConstantExample(resolver, AsWritten, v);
    }
    BootstrapShape(resolver);
    var code := [LoadConstant(0), LoadLabel(".exit")] + Zeros(0) + [LoadLabel("main"), Jump, Exit];
    assert CompileBootstrap(resolver) == Ok(RawChunk("bootstrap", Annotate(code, map[4 := [".exit"]])));
    assert code == [LoadConstant(0), LoadLabel(".exit"), LoadLabel("main"), Jump, Exit] by {
      assert Zeros(0) == [];
    }
    BootstrapAnnotation();
  }

  lemma BootstrapAnnotation()
    ensures Annotate([LoadConstant(0), LoadLabel(".exit"), LoadLabel("main"), Jump, Exit], map[4 := [".exit"]])
            == BootstrapChunk().instructions
  {
    var a := Annotate([LoadConstant(0), LoadLabel(".exit"), LoadLabel("main"), Jump, Exit], map[4 := [".exit"]]);
    assert a[0] == Plain(LoadConstant(0)) && a[1] == Plain(LoadLabel(".exit"));
    assert a[2] == Plain(LoadLabel("main")) && a[3] == Plain(Jump) && a[4] == Annotated(Exit, [".exit"]);
  }

  lemma {:induction false} FunctionsOfReturnConstant(v: Int32, mode: Compensation)
    ensures CompileFunctions(map["main" := ReturnConstantMain(v)], mode, [ReturnConstantMain(v)])
            == Ok([MainChunk(v)])
  {
    var resolver := map["main" := ReturnConstantMain(v)];
    var fs := [ReturnConstantMain(v)];
    ReturnConstantExample(resolver, mode, v);
    assert fs[1..] == [];
    var none: seq<Chunk> := [];
    assert CompileFunctions(resolver, mode, fs[1..]) == Ok(none);
    assert [MainChunk(v)] + none == [MainChunk(v)];
  }

  /** `fn main() { return v }` with the bootstrap compiles to the bootstrap chunk followed by
      the three instructions of `main`, whichever calling convention is used. */
  lemma {:induction false} CompileReturnConstant(v: Int32, mode: Compensation)
    ensures Compile(ReturnConstantProgram(v), true, mode) == Ok([BootstrapChunk(), MainChunk(v)])
  {
    ResolveReturnConstant(v);
    BootstrapOfReturnConstant(v);
    FunctionsOfReturnConstant(v, mode);
    assert [BootstrapChunk()] + [MainChunk(v)] == [BootstrapChunk(), MainChunk(v)];
  }

  // ---------------------------------------------------------------------------------------
  // Linking

  function FlatReturnConstant(v: Int32): seq<Annotated> {
    [Annotated(LoadConstant(0), ["bootstrap"]), Plain(LoadLabel(".exit")), Plain(LoadLabel("main")),
     Plain(Jump), Annotated(Exit, [".exit"]),
     Annotated(LoadConstant(v), ["main"]), Plain(Store(1)), Plain(Jump)]
  }

  lemma {:induction false} FlattenReturnConstant(v: Int32)
    ensures Flatten([BootstrapChunk(), MainChunk(v)]) == FlatReturnConstant(v)
  {
    var chunks := [BootstrapChunk(), MainChunk(v)];
    var b := NameFirst(BootstrapChunk());
    var m := NameFirst(MainChunk(v));
    assert b == FlatReturnConstant(v)[..5] by {
      assert [BootstrapChunk().Name()] + [] == ["bootstrap"];
    }
    assert m == FlatReturnConstant(v)[5..] by {
      assert [MainChunk(v).Name()] + [] == ["main"];
    }
    assert Flatten(chunks[1..][1..]) == [] by {
      assert chunks[1..][1..] == [];
    }
    assert Flatten(chunks[1..]) == m + [] by {
      assert chunks[1..][0] == MainChunk(v);
    }
    assert Flatten(chunks) == b + (m + []);
  }

  /** The sizes of the instructions ahead of `.exit` and `main`. */
  lemma {:induction false} PrefixSizes(enc: Encoder, v: Int32)
    ensures var p := Instructions(FlatReturnConstant(v));
      && SumSizes(enc, p[..4]) == ExitAddress(enc) as nat
      && SumSizes(enc, p[..5]) == MainAddress(enc) as nat
  {
    var p := Instructions(FlatReturnConstant(v));
    assert p[..4] == [LoadConstant(0), LoadLabel(".exit"), LoadLabel("main"), Jump];
    assert p[..5] == p[..4] + [Exit];
    SumSizesAppend(enc, p[..4], [Exit]);
    var a := [LoadConstant(0)];
    var b := [LoadLabel(".exit"), LoadLabel("main"), Jump];
    assert p[..4] == a + b;
    SumSizesAppend(enc, a, b);
    var c := [LoadLabel(".exit")];
    var d := [LoadLabel("main"), Jump];
    assert b == c + d;
    SumSizesAppend(enc, c, d);
    SumSizesAppend(enc, [LoadLabel("main")], [Jump]);
    assert [LoadLabel("main")] + [Jump] == d;
    SingleSize(enc, LoadConstant(0));
    SingleSize(enc, LoadLabel(".exit"));
    SingleSize(enc, LoadLabel("main"));
    SingleSize(enc, Jump);
    SingleSize(enc, Exit);
  }

  lemma SingleSize(enc: Encoder, ins: Instruction)
    ensures SumSizes(enc, [ins]) == SizeOf(enc, ins)
  {
    assert [ins][..0] == [];
  }

  lemma {:induction false} LabelAddresses(enc: Encoder, v: Int32)
    ensures var xs := FlatReturnConstant(v);
      && ".exit" in Table(enc, xs) && Table(enc, xs)[".exit"] == ExitAddress(enc)
      && "main" in Table(enc, xs) && Table(enc, xs)["main"] == MainAddress(enc)
  {
    var xs := FlatReturnConstant(v);
    TableValue(enc, xs, ".exit", 4);
    TableValue(enc, xs, "main", 5);
    var p := Instructions(xs);
    assert Instructions(xs[..4]) == p[..4];
    assert Instructions(xs[..5]) == p[..5];
    PrefixSizes(enc, v);
  }

  /** Both encoders link the program to the same instructions; only the two addresses of
      `.exit` and `main` differ. */
  lemma {:induction false} LinkReturnConstant(enc: Encoder, v: Int32)
    ensures Linked(enc, [BootstrapChunk(), MainChunk(v)]) == Ok(LinkedReturnConstant(enc, v))
  {
    FlattenReturnConstant(v);
    LabelAddresses(enc, v);
    var xs := FlatReturnConstant(v);
    var r := Rewrite(xs, Table(enc, xs));
    assert r.Ok?;
    var q := LinkedReturnConstant(enc, v);
    assert |r.value| == |q|;
    forall i | 0 <= i < |q|
      ensures r.value[i] == q[i]
    {
    }
    assert r.value == q;
    assert Linked(enc, [BootstrapChunk(), MainChunk(v)]) == r;
  }

  // ---------------------------------------------------------------------------------------
  // The whole back end

  /** `fn main() { return v }` compiles, links with `NullEncoder`, and runs on the list
      machine to a halt after eight steps with `v` alone on the stack, the same value the
      interpreter returns. The calling convention does not matter here: `main` has no
      arguments. */
  lemma {:induction false} ReturnConstantEndToEnd(v: Int32, mode: Compensation)
    ensures var chunks := Compile(ReturnConstantProgram(v), true, mode);
      && chunks.Ok?
      && Linked(NullEncoder, chunks.value).Ok?
      && Execute(Linked(NullEncoder, chunks.value).value, VmState(0, []), 8) == Ok(VmState(8, [v]))
      && Interpret(map[], ReturnConstantProgram(v), 1) == Ok(v)
  {
    CompileReturnConstant(v, mode);
    LinkReturnConstant(NullEncoder, v);
    ReturnConstantRuns(v);
    ReturnConstantInterpreted(v);
  }

  lemma {:induction false} ReturnConstantInterpreted(v: Int32)
    ensures Interpret(map[], ReturnConstantProgram(v), 1) == Ok(v)
  {
    var main := ReturnConstantMain(v);
    var fns := RegisterAll(map[], [main]);
    assert fns == map["main" := main] by {
      assert [main][1..] == [];
      assert map[]["main" := main] == map["main" := main];
      assert RegisterAll(map[], [main]) == RegisterAll(map["main" := main], []);
    }
    assert ExecStmt(fns, map[], main.body[0], 0) == Ok(Returned(v)) by {
      assert Eval(fns, map[], IntLit(v), 0) == Ok(v);
    }
    assert ExecBlock(fns, map[], main.body, 0) == Ok(Returned(v));
    assert BindParameters([], []) == map[];
  }

  // ---------------------------------------------------------------------------------------
  // The byte-code machine on the `ByteEncoder` link

  /** The start addresses of the eight instructions in the encoding: a load takes five bytes,
      `Jump` and `Exit` one each, 28 bytes in all. */
  lemma {:induction false} ByteAddresses(v: Int32)
    ensures var p := LinkedReturnConstant(ByteEncoder, v);
      && Address(p, 0) == 0 && Address(p, 1) == 5 && Address(p, 2) == 10 && Address(p, 3) == 15
      && Address(p, 4) == 16 && Address(p, 5) == 17 && Address(p, 6) == 22 && Address(p, 7) == 27
      && Address(p, 8) == 28
  {
    var p := LinkedReturnConstant(ByteEncoder, v);
    assert p[..0] == [];
    SumSizesPrefix(ByteEncoder, p, 0);
    SumSizesPrefix(ByteEncoder, p, 1);
    SumSizesPrefix(ByteEncoder, p, 2);
    SumSizesPrefix(ByteEncoder, p, 3);
    SumSizesPrefix(ByteEncoder, p, 4);
    SumSizesPrefix(ByteEncoder, p, 5);
    SumSizesPrefix(ByteEncoder, p, 6);
    SumSizesPrefix(ByteEncoder, p, 7);
    assert p[..8] == p;
  }

  /** The list machine's steps on the `ByteEncoder` link, whose jump targets are byte
      addresses. */
  lemma {:induction false} ByteLinkSteps(v: Int32)
    ensures var p := LinkedReturnConstant(ByteEncoder, v);
      && Transition(p, VmState(0, [])) == Ok(VmState(1, [0]))
      && Transition(p, VmState(1, [0])) == Ok(VmState(2, [16, 0]))
      && Transition(p, VmState(2, [16, 0])) == Ok(VmState(3, [17, 16, 0]))
      && Transition(p, VmState(3, [17, 16, 0])) == Ok(VmState(17, [16, 0]))
      && Transition(p, VmState(5, [16, 0])) == Ok(VmState(6, [v, 16, 0]))
      && Transition(p, VmState(6, [v, 16, 0])) == Ok(VmState(7, [16, v]))
      && Transition(p, VmState(7, [16, v])) == Ok(VmState(16, [v]))
      && Transition(p, VmState(4, [v])) == Ok(VmState(8, [v]))
  {
    var p := LinkedReturnConstant(ByteEncoder, v);
    assert [0] + [] == [0];
    assert [16] + [0] == [16, 0];
    assert [17] + [16, 0] == [17, 16, 0];
    assert [17, 16, 0][1..] == [16, 0];
    assert [v] + [16, 0] == [v, 16, 0];
    assert Transition(p, VmState(6, [v, 16, 0])) == Ok(VmState(7, [16, v])) by {
      assert [v, 16, 0][1..] == [16, 0];
      assert [16, 0][1 := v] == [16, v];
    }
    assert [16, v][1..] == [v];
  }

  /** A step of the list machine that is not a conditional jump carries over to the byte
      machine at the instruction's address, resuming at `resume`. */
  lemma ByteFollows(p: seq<Instruction>, i: nat, stack: seq<Int32>, next: VmState, resume: int)
    requires LabelFree(p) && i < |p| && !p[i].JumpWhenZero?
    requires Transition(p, VmState(i, stack)) == Ok(next)
    requires p[i].Jump? ==> resume == next.ip
    requires !p[i].Jump? ==> 0 <= next.ip <= |p| && resume == Address(p, next.ip)
    ensures ByteTransition(EncodeAll(p).value, VmState(Address(p, i), stack)) == Ok(VmState(resume, next.stack))
  {
    StepCorresponds(p, i, stack);
  }

  /** One more step in front of a run with fuel left. */
  lemma ByteRunStep(b: seq<Byte>, st: VmState, next: VmState, fuel: nat, r: Result<VmState>)
    requires st.ip < |b| && ByteTransition(b, st) == Ok(next)
    requires ByteExecute(b, next, fuel) == r
    ensures ByteExecute(b, st, fuel + 1) == r
  {
  }

  /** From the start of `main` the byte-code machine stores the result, returns to `.exit`
      and exits in four steps. */
  lemma {:induction false} ByteCodeRunsMain(v: Int32)
    ensures var p := LinkedReturnConstant(ByteEncoder, v);
      && EncodeAll(p).Ok?
      && ByteExecute(EncodeAll(p).value, VmState(17, [16, 0]), 4) == Ok(VmState(28, [v]))
  {
    var p := LinkedReturnConstant(ByteEncoder, v);
    assert LabelFree(p);
    var b := EncodeAll(p).value;
    ByteAddresses(v);
    ByteLinkSteps(v);
    AddressWithin(p, 7);
    var s8 := VmState(28, [v]);
    assert ByteExecute(b, s8, 0) == Ok(s8);
    ByteFollows(p, 4, [v], VmState(8, [v]), 28);
    ByteRunStep(b, VmState(16, [v]), s8, 0, Ok(s8));
    ByteFollows(p, 7, [16, v], VmState(16, [v]), 16);
    ByteRunStep(b, VmState(27, [16, v]), VmState(16, [v]), 1, Ok(s8));
    ByteFollows(p, 6, [v, 16, 0], VmState(7, [16, v]), 27);
    ByteRunStep(b, VmState(22, [v, 16, 0]), VmState(27, [16, v]), 2, Ok(s8));
    ByteFollows(p, 5, [16, 0], VmState(6, [v, 16, 0]), 22);
    ByteRunStep(b, VmState(17, [16, 0]), VmState(22, [v, 16, 0]), 3, Ok(s8));
  }

  /** The bootstrap's four instructions on the byte-code machine: push the return-value slot,
      the `.exit` address and `main`'s address, then jump to `main`. */
  lemma {:induction false} ByteBootstrapSteps(v: Int32)
    ensures var p := LinkedReturnConstant(ByteEncoder, v);
      && EncodeAll(p).Ok? && |EncodeAll(p).value| == 28
      && ByteTransition(EncodeAll(p).value, VmState(0, [])) == Ok(VmState(5, [0]))
      && ByteTransition(EncodeAll(p).value, VmState(5, [0])) == Ok(VmState(10, [16, 0]))
      && ByteTransition(EncodeAll(p).value, VmState(10, [16, 0])) == Ok(VmState(15, [17, 16, 0]))
      && ByteTransition(EncodeAll(p).value, VmState(15, [17, 16, 0])) == Ok(VmState(17, [16, 0]))
  {
    var p := LinkedReturnConstant(ByteEncoder, v);
    assert LabelFree(p);
    ByteAddresses(v);
    ByteLinkSteps(v);
    AddressWithin(p, 7);
    ByteFollows(p, 0, [], VmState(1, [0]), 5);
    ByteFollows(p, 1, [0], VmState(2, [16, 0]), 10);
    ByteFollows(p, 2, [16, 0], VmState(3, [17, 16, 0]), 15);
    ByteFollows(p, 3, [17, 16, 0], VmState(17, [16, 0]), 17);
  }

  /** The encoded program runs on the byte-code machine in the same eight steps, visiting the
      start address of each instruction the list machine visits, and ends past the last byte
      with `v` alone on the stack. */
  lemma {:induction false} ByteCodeRuns(v: Int32)
    ensures var p := LinkedReturnConstant(ByteEncoder, v);
      && EncodeAll(p).Ok?
      && ByteExecute(EncodeAll(p).value, VmState(0, []), 8) == Ok(VmState(28, [v]))
  {
    var p := LinkedReturnConstant(ByteEncoder, v);
    ByteBootstrapSteps(v);
    ByteCodeRunsMain(v);
    var b := EncodeAll(p).value;
    var r := Ok(VmState(28, [v]));
    ByteRunStep(b, VmState(15, [17, 16, 0]), VmState(17, [16, 0]), 4, r);
    ByteRunStep(b, VmState(10, [16, 0]), VmState(15, [17, 16, 0]), 5, r);
    ByteRunStep(b, VmState(5, [0]), VmState(10, [16, 0]), 6, r);
    ByteRunStep(b, VmState(0, []), VmState(5, [0]), 7, r);
  }

  /** With `ByteEncoder` the same program is linked, encoded and run on the byte-code machine
      to the interpreter's value. */
  lemma {:induction false} ReturnConstantOnBytes(v: Int32, mode: Compensation)
    ensures var chunks := Compile(ReturnConstantProgram(v), true, mode);
      && chunks.Ok?
      && Linked(ByteEncoder, chunks.value).Ok?
      && EncodeAll(Linked(ByteEncoder, chunks.value).value).Ok?
      && ByteExecute(EncodeAll(Linked(ByteEncoder, chunks.value).value).value, VmState(0, []), 8)
         == Ok(VmState(28, [v]))
      && Interpret(map[], ReturnConstantProgram(v), 1) == Ok(v)
  {
    CompileReturnConstant(v, mode);
    LinkReturnConstant(ByteEncoder, v);
    ByteCodeRuns(v);
    ReturnConstantInterpreted(v);
  }
}
