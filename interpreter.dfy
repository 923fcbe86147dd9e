/** `MangoInterpreter`: the tree-walking reference semantics. Expressions are evaluated in the
    top frame of a `RuntimeEnvironment`; a call evaluates its arguments there, pushes a frame
    binding them to the parameters, runs the body and pops the frame. A `return` travels as a
    `ReturnException`, here as the `Returned` outcome of a statement.

    The source's recursion and its `while` loop need not terminate; every run here is bounded
    by `fuel`, one unit per call and per loop iteration, and reports `OutOfFuel` when it runs
    out. */
module Interpreter {
  import opened Wrappers
  import opened Int32
  import opened Ast
  import opened RuntimeEnv

  const OutOfFuel := "out of fuel"

  /** How a statement or block completes: normally, with the top frame it leaves, or by a
      `return` with its value. */
  datatype Flow = Normal(vars: Frame) | Returned(value: Int32)

  /** `program.functions.forEach { registerFunction(it) }`: a later function of the same name
      replaces an earlier one. */
  function RegisterAll(fns: map<string, Function>, functions: seq<Function>): (r: map<string, Function>)
    ensures forall n :: n in r <==> n in fns || exists i :: 0 <= i < |functions| && functions[i].name == n
    decreases |functions|
  {
    if functions == [] then fns
    else
      var r := RegisterAll(fns[functions[0].name := functions[0]], functions[1..]);
      assert forall i :: 0 <= i < |functions| - 1 ==> functions[1..][i] == functions[i + 1];
      r
  }

  /** No function after position `i` has the name of `functions[i]`. */
  predicate LastOfItsName(functions: seq<Function>, i: nat)
    requires i < |functions|
  {
    forall j :: i < j < |functions| ==> functions[j].name != functions[i].name
  }

  /** Registration keeps the last function of each name, and the functions registered before
      under a name the program does not declare. */
  lemma {:induction false} LastRegistrationWins(fns: map<string, Function>, functions: seq<Function>)
    ensures forall i :: 0 <= i < |functions| && LastOfItsName(functions, i) ==>
      RegisterAll(fns, functions)[functions[i].name] == functions[i]
    ensures forall n :: n in fns && (forall i :: 0 <= i < |functions| ==> functions[i].name != n) ==>
      RegisterAll(fns, functions)[n] == fns[n]
    decreases |functions|
  {
    if functions != [] {
      var fns' := fns[functions[0].name := functions[0]];
      LastRegistrationWins(fns', functions[1..]);
      assert forall i :: 0 < i < |functions| ==> functions[1..][i - 1] == functions[i];
      assert forall i :: 0 < i < |functions| && LastOfItsName(functions, i) ==> LastOfItsName(functions[1..], i - 1);
    }
  }

  /** `-value`, which wraps for `Int.MIN_VALUE`; no other unary operator exists. */
  function UnaryOp(op: string, v: Int32): (r: Result<Int32>)
    ensures r.Ok? <==> op == "-"
    ensures r.Ok? ==> r.value == Wrap(-(v as int))
  {
    if op == "-" then Ok(Wrap(-(v as int))) else Err("Unknown unary operator " + op)
  }

  /** Negating twice gives the value back. */
  lemma NegateTwice(v: Int32)
    ensures UnaryOp("-", v).Ok? && UnaryOp("-", UnaryOp("-", v).value) == Ok(v)
  {
    WrapNegateTwice(v);
  }

  /** The six operators the interpreter knows, by token name. */
  function BinaryOp(op: string, left: Int32, right: Int32): (r: Result<Int32>)
    ensures r.Err? <==> op !in {"plus", "minus", "multiply", "divide", "doubleEqual", "notEqual"}
                          || (op == "divide" && right == 0)
    ensures op == "plus" ==> r == Ok(Wrap(left as int + right as int))
    ensures op == "minus" ==> r == Ok(Wrap(left as int - right as int))
    ensures op == "multiply" ==> r == Ok(Wrap(left as int * right as int))
    ensures op == "divide" && right != 0 ==> r == KotlinDiv(left, right)
    ensures op == "doubleEqual" ==> r == Ok(if left == right then 1 else 0)
    ensures op == "notEqual" ==> r == Ok(if left != right then 1 else 0)
  {
    if op == "plus" then Ok(KotlinAdd(left, right))
    else if op == "minus" then Ok(KotlinSub(left, right))
    else if op == "multiply" then Ok(KotlinMul(left, right))
    else if op == "divide" then KotlinDiv(left, right)
    else if op == "doubleEqual" then Ok(if left == right then 1 else 0)
    else if op == "notEqual" then Ok(if left != right then 1 else 0)
    else Err("Unknown binary operator " + op)
  }

  /** `parameters.mapIndexed { index, p -> p.name to value }.toMap()`: a repeated parameter
      name keeps its last value. */
  function BindParameters(parameters: seq<string>, values: seq<Int32>): (frame: Frame)
    requires |values| == |parameters|
    ensures forall n :: n in frame <==> n in parameters
    decreases |parameters|
  {
    if parameters == [] then map[]
    else BindParameters(parameters[..|parameters| - 1], values[..|values| - 1])
           [parameters[|parameters| - 1] := values[|values| - 1]]
  }

  // ---------------------------------------------------------------------------------------
  // The semantics

  /** `expression`: left before right; identifiers read the top frame. */
  function Eval(fns: map<string, Function>, vars: Frame, e: Expr, fuel: nat): Result<Int32>
    decreases fuel, e, 0
  {
    match e
    case IntLit(v) => Ok(v)
    case Ident(name) => if name in vars then Ok(vars[name]) else Err("Variable " + name + " not found")
    case Unary(op, operand) =>
      var v :- Eval(fns, vars, operand, fuel);
      UnaryOp(op, v)
    case Binary(left, op, right) =>
      var l :- Eval(fns, vars, left, fuel);
      var r :- Eval(fns, vars, right, fuel);
      BinaryOp(op, l, r)
    case Call(callee, args) => CallFunction(fns, vars, callee, args, fuel)
  }

  /** `functionCall`: arguments in the caller's frame, in parameter order (arguments beyond
      the parameters are never evaluated, a missing one is an index error), then the body in a
      fresh frame; a body that completes without `return` yields 0. */
  function CallFunction(fns: map<string, Function>, vars: Frame, callee: string, args: seq<Expr>,
                        fuel: nat): Result<Int32>
    decreases fuel, args, 1
  {
    if callee !in fns then Err("Function " + callee + " not found")
    else
      var f := fns[callee];
      var values :- EvalArguments(fns, vars, args, |f.parameters|, fuel);
      if fuel == 0 then Err(OutOfFuel)
      else
        var flow :- ExecBlock(fns, BindParameters(f.parameters, values), f.body, fuel - 1);
        match flow
        case Returned(v) => Ok(v)
        case Normal(_) => Ok(0)
  }

  /** The values of the first `n` arguments, evaluated in order. */
  function EvalArguments(fns: map<string, Function>, vars: Frame, args: seq<Expr>, n: nat,
                         fuel: nat): (r: Result<seq<Int32>>)
    ensures r.Ok? ==> |r.value| == n
    decreases fuel, args, 0
  {
    if n == 0 then Ok([])
    else if args == [] then Err("Index out of bounds")
    else
      var v :- Eval(fns, vars, args[0], fuel);
      var rest :- EvalArguments(fns, vars, args[1..], n - 1, fuel);
      Ok([v] + rest)
  }

  /** `block`: statements in order until one returns. */
  function ExecBlock(fns: map<string, Function>, vars: Frame, body: seq<Stmt>, fuel: nat): Result<Flow>
    decreases fuel, body, 0
  {
    if body == [] then Ok(Normal(vars))
    else
      var flow :- ExecStmt(fns, vars, body[0], fuel);
      match flow
      case Returned(v) => Ok(Returned(v))
      case Normal(vars') => ExecBlock(fns, vars', body[1..], fuel)
  }

  /** `statement`. */
  function ExecStmt(fns: map<string, Function>, vars: Frame, s: Stmt, fuel: nat): Result<Flow>
    decreases fuel, s, 1
  {
    match s
    case ExprStmt(e) =>
      var _ :- Eval(fns, vars, e, fuel);
      Ok(Normal(vars))
    case Assign(name, e) =>
      var v :- Eval(fns, vars, e, fuel);
      Ok(Normal(vars[name := v]))
    case VarDecl(name, e) =>
      var v :- Eval(fns, vars, e, fuel);
      Ok(Normal(vars[name := v]))
    case FunDecl(_) => Err("Function declarations are not allowed inside functions")
    case When(cond, body) =>
      var c :- Eval(fns, vars, cond, fuel);
      if c != 0 then ExecBlock(fns, vars, body, fuel) else Ok(Normal(vars))
    case While(cond, body) => ExecWhile(fns, vars, cond, body, fuel)
    case Return(e) =>
      var v :- Eval(fns, vars, e, fuel);
      Ok(Returned(v))
    case Block(stmts) => ExecBlock(fns, vars, stmts, fuel)
  }

  /** `controlWhile`: one unit of fuel per test of the condition. */
  function ExecWhile(fns: map<string, Function>, vars: Frame, cond: Expr, body: seq<Stmt>,
                     fuel: nat): Result<Flow>
    decreases fuel, While(cond, body), 0
  {
    if fuel == 0 then Err(OutOfFuel)
    else
      var c :- Eval(fns, vars, cond, fuel);
      if c == 0 then Ok(Normal(vars))
      else
        var flow :- ExecBlock(fns, vars, body, fuel);
        match flow
        case Returned(v) => Ok(Returned(v))
        case Normal(vars') => ExecWhile(fns, vars', cond, body, fuel - 1)
  }

  /** `interpret`: register every function, then call `main()` with no arguments. */
  function Interpret(fns: map<string, Function>, program: Program, fuel: nat): Result<Int32> {
    CallFunction(RegisterAll(fns, program.functions), map[], "main", [], fuel)
  }

  // ---------------------------------------------------------------------------------------
  // Properties

  /** More fuel changes no successful result: the fuel bound only cuts runs short. These
      follow the semantics' own recursion, one lemma per function. */
  lemma {:induction false} EvalMoreFuel(fns: map<string, Function>, vars: Frame, e: Expr, n: nat, m: nat)
    requires n <= m && Eval(fns, vars, e, n).Ok?
    ensures Eval(fns, vars, e, m) == Eval(fns, vars, e, n)
    decreases n, e, 0
  {
    match e
    case IntLit(_) =>
    case Ident(_) =>
    case Unary(_, operand) =>
      EvalMoreFuel(fns, vars, operand, n, m);
    case Binary(left, _, right) =>
      EvalMoreFuel(fns, vars, left, n, m);
      EvalMoreFuel(fns, vars, right, n, m);
    case Call(callee, args) =>
      CallMoreFuel(fns, vars, callee, args, n, m);
  }

  lemma {:induction false} CallMoreFuel(fns: map<string, Function>, vars: Frame, callee: string,
                                        args: seq<Expr>, n: nat, m: nat)
    requires n <= m && CallFunction(fns, vars, callee, args, n).Ok?
    ensures CallFunction(fns, vars, callee, args, m) == CallFunction(fns, vars, callee, args, n)
    decreases n, args, 1
  {
    var f := fns[callee];
    ArgumentsMoreFuel(fns, vars, args, |f.parameters|, n, m);
    var values := EvalArguments(fns, vars, args, |f.parameters|, n).value;
    BlockMoreFuel(fns, BindParameters(f.parameters, values), f.body, n - 1, m - 1);
  }

  lemma {:induction false} ArgumentsMoreFuel(fns: map<string, Function>, vars: Frame, args: seq<Expr>,
                                             k: nat, n: nat, m: nat)
    requires n <= m && EvalArguments(fns, vars, args, k, n).Ok?
    ensures EvalArguments(fns, vars, args, k, m) == EvalArguments(fns, vars, args, k, n)
    decreases n, args, 0
  {
    if k != 0 {
      EvalMoreFuel(fns, vars, args[0], n, m);
      ArgumentsMoreFuel(fns, vars, args[1..], k - 1, n, m);
    }
  }

  lemma {:induction false} BlockMoreFuel(fns: map<string, Function>, vars: Frame, body: seq<Stmt>,
                                         n: nat, m: nat)
    requires n <= m && ExecBlock(fns, vars, body, n).Ok?
    ensures ExecBlock(fns, vars, body, m) == ExecBlock(fns, vars, body, n)
    decreases n, body, 0
  {
    if body != [] {
      StmtMoreFuel(fns, vars, body[0], n, m);
      match ExecStmt(fns, vars, body[0], n).value
      case Returned(_) =>
      case Normal(vars') => BlockMoreFuel(fns, vars', body[1..], n, m);
    }
  }

  lemma {:induction false} StmtMoreFuel(fns: map<string, Function>, vars: Frame, s: Stmt, n: nat, m: nat)
    requires n <= m && ExecStmt(fns, vars, s, n).Ok?
    ensures ExecStmt(fns, vars, s, m) == ExecStmt(fns, vars, s, n)
    decreases n, s, 1
  {
    match s
    case ExprStmt(e) => EvalMoreFuel(fns, vars, e, n, m);
    case Assign(_, e) => EvalMoreFuel(fns, vars, e, n, m);
    case VarDecl(_, e) => EvalMoreFuel(fns, vars, e, n, m);
    case FunDecl(_) =>
    case When(cond, body) =>
      EvalMoreFuel(fns, vars, cond, n, m);
      if Eval(fns, vars, cond, n).value != 0 {
        BlockMoreFuel(fns, vars, body, n, m);
      }
    case While(cond, body) => WhileMoreFuel(fns, vars, cond, body, n, m);
    case Return(e) => EvalMoreFuel(fns, vars, e, n, m);
    case Block(stmts) => BlockMoreFuel(fns, vars, stmts, n, m);
  }

  lemma {:induction false} WhileMoreFuel(fns: map<string, Function>, vars: Frame, cond: Expr,
                                         body: seq<Stmt>, n: nat, m: nat)
    requires n <= m && ExecWhile(fns, vars, cond, body, n).Ok?
    ensures ExecWhile(fns, vars, cond, body, m) == ExecWhile(fns, vars, cond, body, n)
    decreases n, While(cond, body), 0
  {
    EvalMoreFuel(fns, vars, cond, n, m);
    if Eval(fns, vars, cond, n).value != 0 {
      BlockMoreFuel(fns, vars, body, n, m);
      match ExecBlock(fns, vars, body, n).value
      case Returned(_) =>
      case Normal(vars') => WhileMoreFuel(fns, vars', cond, body, n - 1, m - 1);
    }
  }

  /** A program that yields a result within some fuel yields the same result with any more. */
  lemma InterpretMoreFuel(fns: map<string, Function>, program: Program, n: nat, m: nat)
    requires n <= m && Interpret(fns, program, n).Ok?
    ensures Interpret(fns, program, m) == Interpret(fns, program, n)
  {
    CallMoreFuel(RegisterAll(fns, program.functions), map[], "main", [], n, m);
  }

  /** Running two blocks one after the other is running their concatenation. */
  lemma {:induction false} BlockAppend(fns: map<string, Function>, vars: Frame, a: seq<Stmt>,
                                       b: seq<Stmt>, fuel: nat)
    ensures ExecBlock(fns, vars, a + b, fuel)
         == match ExecBlock(fns, vars, a, fuel)
            case Err(m) => Err(m)
            case Ok(Returned(v)) => Ok(Returned(v))
            case Ok(Normal(vars')) => ExecBlock(fns, vars', b, fuel)
    decreases |a|
  {
    if a != [] {
      assert (a + b)[0] == a[0] && (a + b)[1..] == a[1..] + b;
      match ExecStmt(fns, vars, a[0], fuel)
      case Err(_) =>
      case Ok(Returned(_)) =>
      case Ok(Normal(vars')) => BlockAppend(fns, vars', a[1..], b, fuel);
    } else {
      assert a + b == b;
    }
  }

  /** The arguments are evaluated one by one in the caller's frame: the result lists the
      values of the first `n` arguments, and it fails exactly when there are fewer than `n`
      arguments or one of them fails. */
  lemma {:induction false} ArgumentsPointwise(fns: map<string, Function>, vars: Frame, args: seq<Expr>,
                                              n: nat, fuel: nat)
    ensures n > |args| ==> EvalArguments(fns, vars, args, n, fuel).Err?
    ensures EvalArguments(fns, vars, args, n, fuel).Ok? ==>
      forall i :: 0 <= i < n ==> Eval(fns, vars, args[i], fuel) == Ok(EvalArguments(fns, vars, args, n, fuel).value[i])
    ensures n <= |args| && (forall i :: 0 <= i < n ==> Eval(fns, vars, args[i], fuel).Ok?) ==>
      EvalArguments(fns, vars, args, n, fuel).Ok?
    decreases n
  {
    if n != 0 && args != [] {
      ArgumentsPointwise(fns, vars, args[1..], n - 1, fuel);
      assert forall i :: 0 < i < n && i < |args| ==> args[1..][i - 1] == args[i];
    }
  }

  /** A `return` ends its block with its value: nothing after it runs. */
  lemma ReturnEndsBlock(fns: map<string, Function>, vars: Frame, e: Expr, rest: seq<Stmt>, fuel: nat)
    requires Eval(fns, vars, e, fuel).Ok?
    ensures ExecBlock(fns, vars, [Return(e)] + rest, fuel) == Ok(Returned(Eval(fns, vars, e, fuel).value))
  {
    assert ([Return(e)] + rest)[0] == Return(e);
  }

  /** A function whose body completes without `return` yields 0. */
  lemma FallingOffTheEndYieldsZero(fns: map<string, Function>, vars: Frame, callee: string,
                                   args: seq<Expr>, fuel: nat)
    requires callee in fns && fuel > 0
    requires var f := fns[callee];
      var values := EvalArguments(fns, vars, args, |f.parameters|, fuel);
      values.Ok? && ExecBlock(fns, BindParameters(f.parameters, values.value), f.body, fuel - 1).Ok?
      && ExecBlock(fns, BindParameters(f.parameters, values.value), f.body, fuel - 1).value.Normal?
    ensures CallFunction(fns, vars, callee, args, fuel) == Ok(0)
  {
  }

  /** A `when` whose condition is 0 leaves the frame as it was, whatever its body; otherwise it
      behaves as its body written as a plain block. */
  lemma WhenIsGuardedBlock(fns: map<string, Function>, vars: Frame, cond: Expr, fuel: nat)
    requires Eval(fns, vars, cond, fuel).Ok?
    ensures Eval(fns, vars, cond, fuel).value == 0 ==>
      forall body :: ExecStmt(fns, vars, When(cond, body), fuel) == Ok(Normal(vars))
    ensures Eval(fns, vars, cond, fuel).value != 0 ==>
      forall body :: ExecStmt(fns, vars, When(cond, body), fuel) == ExecStmt(fns, vars, Block(body), fuel)
  {
  }

  /** Unrolling a loop once: `while (c) { b }` behaves as `when (c) { b; while (c) { b } }`,
      given the one unit of fuel the loop spends on its test. */
  lemma {:induction false} WhileUnrollsToWhen(fns: map<string, Function>, vars: Frame, cond: Expr,
                                              body: seq<Stmt>, fuel: nat)
    requires fuel > 0
    requires ExecStmt(fns, vars, When(cond, body + [While(cond, body)]), fuel - 1).Ok?
    ensures ExecStmt(fns, vars, While(cond, body), fuel)
         == ExecStmt(fns, vars, When(cond, body + [While(cond, body)]), fuel - 1)
  {
    var loop := While(cond, body);
    EvalMoreFuel(fns, vars, cond, fuel - 1, fuel);
    if Eval(fns, vars, cond, fuel).value != 0 {
      assert ExecStmt(fns, vars, When(cond, body + [loop]), fuel - 1)
          == ExecBlock(fns, vars, body + [loop], fuel - 1);
      BlockAppend(fns, vars, body, [loop], fuel - 1);
      BlockMoreFuel(fns, vars, body, fuel - 1, fuel);
      match ExecBlock(fns, vars, body, fuel - 1).value
      case Returned(_) =>
      case Normal(vars') =>
        assert ExecStmt(fns, vars', loop, fuel - 1) == ExecWhile(fns, vars', cond, body, fuel - 1);
        assert [loop][0] == loop && [loop][1..] == [];
    }
  }

  /** The parameters are bound by position: a parameter named once gets the value of the
      argument in its position. */
  lemma {:induction false} ParametersBoundByPosition(parameters: seq<string>, values: seq<Int32>, i: nat)
    requires |values| == |parameters| && i < |parameters|
    requires forall j :: i < j < |parameters| ==> parameters[j] != parameters[i]
    ensures BindParameters(parameters, values)[parameters[i]] == values[i]
    decreases |parameters|
  {
    if i < |parameters| - 1 {
      ParametersBoundByPosition(parameters[..|parameters| - 1], values[..|values| - 1], i);
    }
  }

  /** `let a = 1; let b = 2; return a + b` returns 3. */
  lemma LetsAndAddition()
    ensures Interpret(map[], Program([Function("main", [], [
              VarDecl("a", IntLit(1)), VarDecl("b", IntLit(2)),
              Return(Binary(Ident("a"), "plus", Ident("b")))])]), 1) == Ok(3)
  {
    var body := [VarDecl("a", IntLit(1)), VarDecl("b", IntLit(2)),
                 Return(Binary(Ident("a"), "plus", Ident("b")))];
    var main := Function("main", [], body);
    var fns := RegisterAll(map[], [main]);
    assert fns == map["main" := main] by {
      assert [main][1..] == [];
      assert map[]["main" := main] == map["main" := main];
      assert RegisterAll(map[], [main]) == RegisterAll(map["main" := main], []);
    }
    var v2 := map["a" := 1, "b" := 2];
    assert ExecBlock(fns, v2, body[2..], 0) == Ok(Returned(3)) by {
      assert body[2..] == [body[2]];
    }
    assert ExecBlock(fns, map["a" := 1], body[1..], 0) == Ok(Returned(3)) by {
      assert body[1..][1..] == body[2..];
      assert map["a" := 1]["b" := 2] == v2;
    }
    assert ExecBlock(fns, map[], body, 0) == Ok(Returned(3)) by {
      assert map[]["a" := 1] == map["a" := 1];
    }
    assert BindParameters([], []) == map[];
  }

  /** `fn add(a, b) { return a + b } fn main() { return add(4, 5) }` returns 9. */
  lemma CallWithArguments()
    ensures Interpret(map[], Program([
              Function("add", ["a", "b"], [Return(Binary(Ident("a"), "plus", Ident("b")))]),
              Function("main", [], [Return(Call("add", [IntLit(4), IntLit(5)]))])]), 2) == Ok(9)
  {
    var add := Function("add", ["a", "b"], [Return(Binary(Ident("a"), "plus", Ident("b")))]);
    var main := Function("main", [], [Return(Call("add", [IntLit(4), IntLit(5)]))]);
    var fns := map["add" := add, "main" := main];
    RegisterAddAndMain(add, main);
    EvalFourAndFive(fns);
    var frame := map["a" := 4, "b" := 5];
    BindAAndB();
    assert ExecBlock(fns, frame, add.body, 0) == Ok(Returned(9));
    assert CallFunction(fns, map[], "add", [IntLit(4), IntLit(5)], 1) == Ok(9);
    assert ExecBlock(fns, map[], main.body, 1) == Ok(Returned(9));
  }

  lemma RegisterAddAndMain(add: Function, main: Function)
    requires add.name == "add" && main.name == "main"
    ensures RegisterAll(map[], [add, main]) == map["add" := add, "main" := main]
  {
    assert [add, main][1..] == [main] && [main][1..] == [];
    assert map[]["add" := add] == map["add" := add];
    assert RegisterAll(map[], [add, main]) == RegisterAll(map["add" := add], [main]);
    assert RegisterAll(map["add" := add], [main]) == RegisterAll(map["add" := add, "main" := main], []);
  }

  lemma EvalFourAndFive(fns: map<string, Function>)
    ensures EvalArguments(fns, map[], [IntLit(4), IntLit(5)], 2, 1) == Ok([4, 5])
  {
    assert [IntLit(4), IntLit(5)][1..] == [IntLit(5)] && [IntLit(5)][1..] == [];
    assert EvalArguments(fns, map[], [IntLit(5)], 1, 1) == Ok([5]) by {
      assert EvalArguments(fns, map[], [], 0, 1) == Ok([]);
      assert [5] + [] == [5];
    }
    assert [4] + [5] == [4, 5];
  }

  lemma BindAAndB()
    ensures BindParameters(["a", "b"], [4, 5]) == map["a" := 4, "b" := 5]
  {
    assert ["a", "b"][..1] == ["a"] && [4, 5][..1] == [4];
    assert BindParameters(["a"], [4]) == map["a" := 4] by {
      assert ["a"][..0] == [] && [4][..0] == [];
    }
  }

  // ---------------------------------------------------------------------------------------
  // The interpreter as the source runs it

  class MangoInterpreter {
    const env: RuntimeEnvironment

    constructor (env: RuntimeEnvironment)
      ensures this.env == env
    {
      this.env := env;
    }

    /** `interpret(program)`. */
    method Run(program: Program, fuel: nat) returns (r: Result<Int32>)
      modifies env
      ensures r.Ok? <==> Interpret(old(env.functions), program, fuel).Ok?
      ensures r.Ok? ==> r.value == Interpret(old(env.functions), program, fuel).value
    {
      for i := 0 to |program.functions|
        invariant RegisterAll(old(env.functions), program.functions)
               == RegisterAll(env.functions, program.functions[i..])
        invariant env.stack == old(env.stack)
      {
        assert program.functions[i..][1..] == program.functions[i + 1..];
        env.RegisterFunction(program.functions[i]);
      }
      assert program.functions[|program.functions|..] == [];
      ghost var fns := env.functions;
      ghost var vars := Top(env.stack);
      r := FunctionCall("main", [], fuel);
      if "main" in fns {
        var n := |fns["main"].parameters|;
        assert EvalArguments(fns, vars, [], n, fuel) == EvalArguments(fns, map[], [], n, fuel);
      }
    }

    /** `functionCall`. */
    method FunctionCall(callee: string, args: seq<Expr>, fuel: nat) returns (r: Result<Int32>)
      modifies env
      ensures var spec := CallFunction(old(env.functions), Top(old(env.stack)), callee, args, fuel);
        (r.Ok? <==> spec.Ok?) && (r.Ok? ==> r.value == spec.value)
      ensures r.Ok? ==> env.functions == old(env.functions) && env.stack == old(env.stack)
      decreases fuel, args, 1
    {
      var found := env.GetFunction(callee);
      if found.Err? {
        return Err(found.message);
      }
      var f := found.value;
      var values := Arguments(args, |f.parameters|, fuel);
      if values.Err? {
        return Err(values.message);
      }
      if fuel == 0 {
        return Err(OutOfFuel);
      }
      PushParameters(f.parameters, values.value);
      var flow := Block(f.body, fuel - 1);
      if flow.Err? {
        return Err(flow.message);
      }
      var popped := env.PopFrame();
      r := match flow.value case Some(v) => Ok(v) case None => Ok(0);
    }

    /** The callee's frame: a fresh frame on top, with each parameter set to its argument. */
    method PushParameters(parameters: seq<string>, values: seq<Int32>)
      requires |values| == |parameters|
      modifies env
      ensures env.functions == old(env.functions)
      ensures env.stack == [BindParameters(parameters, values)] + old(env.stack)
    {
      env.PushFrame();
      for i := 0 to |parameters|
        invariant env.functions == old(env.functions)
        invariant |env.stack| == |old(env.stack)| + 1 && env.stack[1..] == old(env.stack)
        invariant env.stack[0] == BindParameters(parameters[..i], values[..i])
      {
        assert parameters[..i + 1][..i] == parameters[..i];
        assert values[..i + 1][..i] == values[..i];
        var written := env.SetVariable(parameters[i], values[i]);
      }
      assert parameters[..|parameters|] == parameters;
      assert values[..|parameters|] == values;
      assert env.stack == [env.stack[0]] + env.stack[1..];
    }

    /** The `mapIndexed` over the parameters: the first `n` arguments' values. */
    method Arguments(args: seq<Expr>, n: nat, fuel: nat) returns (r: Result<seq<Int32>>)
      modifies env
      ensures var spec := EvalArguments(old(env.functions), Top(old(env.stack)), args, n, fuel);
        (r.Ok? <==> spec.Ok?) && (r.Ok? ==> r.value == spec.value)
      ensures r.Ok? ==> env.functions == old(env.functions) && env.stack == old(env.stack)
      decreases fuel, args, 0
    {
      var values: seq<Int32> := [];
      ghost var fns, vars := env.functions, Top(env.stack);
      assert EvalArguments(fns, vars, args, n, fuel)
          == match EvalArguments(fns, vars, args[0..], n, fuel)
             case Err(m) => Err(m)
             case Ok(rest) => Ok(values + rest) by {
        assert args[0..] == args;
        if EvalArguments(fns, vars, args, n, fuel).Ok? {
          assert values + EvalArguments(fns, vars, args, n, fuel).value
              == EvalArguments(fns, vars, args, n, fuel).value;
        }
      }
      for i := 0 to n
        invariant env.functions == fns && env.stack == old(env.stack)
        invariant |values| == i && i <= |args|
        invariant EvalArguments(fns, vars, args, n, fuel)
          == match EvalArguments(fns, vars, args[i..], n - i, fuel)
             case Err(m) => Err(m)
             case Ok(rest) => Ok(values + rest)
      {
        if i >= |args| {
          return Err("Index out of bounds");
        }
        assert args[i..][0] == args[i] && args[i..][1..] == args[i + 1..];
        var v := Expression(args[i], fuel);
        if v.Err? {
          return Err(v.message);
        }
        if EvalArguments(fns, vars, args[i + 1..], n - i - 1, fuel).Ok? {
          var rest := EvalArguments(fns, vars, args[i + 1..], n - i - 1, fuel).value;
          assert values + ([v.value] + rest) == (values + [v.value]) + rest;
        }
        values := values + [v.value];
      }
      assert values + [] == values;
      return Ok(values);
    }

    /** `block`: the statements in order; `Some(v)` is a `ReturnException` carrying `v`. */
    method Block(body: seq<Stmt>, fuel: nat) returns (r: Result<Option<Int32>>)
      requires env.stack != []
      modifies env
      ensures var spec := ExecBlock(old(env.functions), Top(old(env.stack)), body, fuel);
        (r.Ok? <==> spec.Ok?) && (r.Ok? ==> Agrees(r.value, spec.value, old(env.stack)))
      ensures r.Ok? ==> env.functions == old(env.functions)
      decreases fuel, body, 0
    {
      for i := 0 to |body|
        invariant env.functions == old(env.functions) && env.stack != []
        invariant |env.stack| == |old(env.stack)| && env.stack[1..] == old(env.stack)[1..]
        invariant ExecBlock(old(env.functions), Top(old(env.stack)), body, fuel)
               == ExecBlock(env.functions, Top(env.stack), body[i..], fuel)
      {
        assert body[i..][0] == body[i] && body[i..][1..] == body[i + 1..];
        var flow := Statement(body[i], fuel);
        if flow.Err? || flow.value.Some? {
          return flow;
        }
      }
      assert body[|body|..] == [];
      return Ok(None);
    }

    /** Whether the environment and a method's outcome are those the specification gives:
        the function table is untouched, only the top frame may differ, and a normal
        completion leaves the frame the specification computes. */
    ghost predicate Agrees(r: Option<Int32>, flow: Flow, before: seq<Frame>)
      reads this, env
    {
      && env.stack != [] && |env.stack| == |before| && env.stack[1..] == before[1..]
      && match flow
         case Returned(v) => r == Some(v)
         case Normal(vars) => r == None && env.stack[0] == vars
    }

    /** `statement`. */
    method Statement(s: Stmt, fuel: nat) returns (r: Result<Option<Int32>>)
      requires env.stack != []
      modifies env
      ensures var spec := ExecStmt(old(env.functions), Top(old(env.stack)), s, fuel);
        (r.Ok? <==> spec.Ok?) && (r.Ok? ==> Agrees(r.value, spec.value, old(env.stack)))
      ensures r.Ok? ==> env.functions == old(env.functions)
      decreases fuel, s, 1
    {
      match s {
        case ExprStmt(e) =>
          var v := Expression(e, fuel);
          if v.Err? {
            return Err(v.message);
          }
        case Assign(name, e) =>
          var v := Expression(e, fuel);
          if v.Err? {
            return Err(v.message);
          }
          var written := env.SetVariable(name, v.value);
        case VarDecl(name, e) =>
          var v := Expression(e, fuel);
          if v.Err? {
            return Err(v.message);
          }
          var written := env.SetVariable(name, v.value);
        case FunDecl(_) =>
          return Err("Function declarations are not allowed inside functions");
        case When(cond, body) =>
          var c := Expression(cond, fuel);
          if c.Err? {
            return Err(c.message);
          }
          if c.value != 0 {
            r := Block(body, fuel);
            return;
          }
        case While(cond, body) =>
          r := ControlWhile(cond, body, fuel);
          return;
        case Return(e) =>
          var v := Expression(e, fuel);
          if v.Err? {
            return Err(v.message);
          }
          return Ok(Some(v.value));
        case Block(stmts) =>
          r := Block(stmts, fuel);
          return;
      }
      return Ok(None);
    }

    /** `controlWhile`: the `while` loop of the source, one unit of fuel per test. */
    method ControlWhile(cond: Expr, body: seq<Stmt>, fuel: nat) returns (r: Result<Option<Int32>>)
      requires env.stack != []
      modifies env
      ensures var spec := ExecWhile(old(env.functions), Top(old(env.stack)), cond, body, fuel);
        (r.Ok? <==> spec.Ok?) && (r.Ok? ==> Agrees(r.value, spec.value, old(env.stack)))
      ensures r.Ok? ==> env.functions == old(env.functions)
      decreases fuel, While(cond, body), 0
    {
      var f: nat := fuel;
      while true
        invariant f <= fuel
        invariant env.functions == old(env.functions) && env.stack != []
        invariant |env.stack| == |old(env.stack)| && env.stack[1..] == old(env.stack)[1..]
        invariant ExecWhile(old(env.functions), Top(old(env.stack)), cond, body, fuel)
               == ExecWhile(env.functions, Top(env.stack), cond, body, f)
        decreases f
      {
        if f == 0 {
          return Err(OutOfFuel);
        }
        var c := Expression(cond, f);
        if c.Err? {
          return Err(c.message);
        }
        if c.value == 0 {
          return Ok(None);
        }
        var flow := Block(body, f);
        if flow.Err? || flow.value.Some? {
          return flow;
        }
        f := f - 1;
      }
    }

    /** `expression`. */
    method Expression(e: Expr, fuel: nat) returns (r: Result<Int32>)
      modifies env
      ensures var spec := Eval(old(env.functions), Top(old(env.stack)), e, fuel);
        (r.Ok? <==> spec.Ok?) && (r.Ok? ==> r.value == spec.value)
      ensures r.Ok? ==> env.functions == old(env.functions) && env.stack == old(env.stack)
      decreases fuel, e, 0
    {
      match e {
        case IntLit(v) =>
          return Ok(v);
        case Ident(name) =>
          r := env.GetVariable(name);
        case Unary(op, operand) =>
          var v := Expression(operand, fuel);
          if v.Err? {
            return Err(v.message);
          }
          r := UnaryOp(op, v.value);
        case Binary(left, op, right) =>
          var l := Expression(left, fuel);
          if l.Err? {
            return Err(l.message);
          }
          var rv := Expression(right, fuel);
          if rv.Err? {
            return Err(rv.message);
          }
          r := BinaryOp(op, l.value, rv.value);
        case Call(callee, args) =>
          r := FunctionCall(callee, args, fuel);
      }
    }
  }
}
