/** `NestedFunctionValidatorVisitor`: a `BaseVisitor` whose function-declaration handler keeps
    the names of the functions being visited on `functionStack` and rejects a declaration met
    while that stack is not empty. Only statements can hold a declaration, so the traversal of
    expressions (which holds none, see `AstVisitor.ExprTraceHasNoDeclarations`) is skipped. */
module Validator {
  import opened Wrappers
  import opened Ast
  import opened Frame

  const NestedMessage := "Nested functions are not allowed"

  /** The outcome of visiting `f` with `stack` as the function stack. */
  function ValidateFunction(stack: seq<string>, f: Function): Outcome
    decreases f, 1
  {
    if stack != [] then Fail(NestedMessage) else ValidateBlock(stack + [f.name], f.body)
  }

  function ValidateBlock(stack: seq<string>, ss: seq<Stmt>): Outcome
    decreases ss, 0
  {
    if ss == [] then Pass
    else match ValidateStmt(stack, ss[0])
      case Fail(m) => Fail(m)
      case Pass => ValidateBlock(stack, ss[1..])
  }

  function ValidateStmt(stack: seq<string>, s: Stmt): Outcome
    decreases s, 0
  {
    match s
    case FunDecl(f) => ValidateFunction(stack, f)
    case When(_, b) => ValidateBlock(stack, b)
    case While(_, b) => ValidateBlock(stack, b)
    case Block(b) => ValidateBlock(stack, b)
    case _ => Pass
  }

  function ValidateFunctions(stack: seq<string>, fs: seq<Function>): Outcome {
    if fs == [] then Pass
    else match ValidateFunction(stack, fs[0])
      case Fail(m) => Fail(m)
      case Pass => ValidateFunctions(stack, fs[1..])
  }

  function ValidateProgram(p: Program): Outcome {
    ValidateFunctions([], p.functions)
  }

  // ---------------------------------------------------------------------------------------
  // Properties

  /** Inside a function (a non-empty stack), a block passes exactly when it declares no
      function anywhere, however deeply nested in `when`, `while` and blocks. */
  lemma {:induction false} InsideFunctionBlock(stack: seq<string>, ss: seq<Stmt>)
    requires stack != []
    ensures ValidateBlock(stack, ss).Pass? <==> NoNestedFunctions(ss)
    ensures ValidateBlock(stack, ss).Fail? ==> ValidateBlock(stack, ss).message == NestedMessage
    decreases ss
  {
    if ss != [] {
      InsideFunctionStmt(stack, ss[0]);
      InsideFunctionBlock(stack, ss[1..]);
      assert NoNestedFunctions(ss) <==> NoNestedFunction(ss[0]) && NoNestedFunctions(ss[1..]) by {
        assert forall i :: 0 < i < |ss| ==> ss[i] == ss[1..][i - 1];
      }
    }
  }

  lemma {:induction false} InsideFunctionStmt(stack: seq<string>, s: Stmt)
    requires stack != []
    ensures ValidateStmt(stack, s).Pass? <==> NoNestedFunction(s)
    ensures ValidateStmt(stack, s).Fail? ==> ValidateStmt(stack, s).message == NestedMessage
    decreases s
  {
    match s
    case When(_, b) => InsideFunctionBlock(stack, b);
    case While(_, b) => InsideFunctionBlock(stack, b);
    case Block(b) => InsideFunctionBlock(stack, b);
    case _ =>
  }

  /** A program passes exactly when no function body declares a function; any number of
      top-level functions side by side is accepted. */
  lemma {:induction false} ProgramValidIff(fs: seq<Function>)
    ensures ValidateFunctions([], fs).Pass? <==> forall i :: 0 <= i < |fs| ==> NoNestedFunctions(fs[i].body)
    decreases |fs|
  {
    if fs != [] {
      assert [] + [fs[0].name] == [fs[0].name];
      InsideFunctionBlock([fs[0].name], fs[0].body);
      ProgramValidIff(fs[1..]);
      assert forall i :: 0 < i < |fs| ==> fs[i] == fs[1..][i - 1];
    }
  }

  /** A function declared inside a `when` inside a function is rejected with the source's
      message. */
  lemma NestedInWhenRejected(f: Function, c: Expr, g: Function)
    requires f.body == [When(c, [FunDecl(g)])]
    ensures ValidateProgram(Program([f])) == Fail(NestedMessage)
  {
    assert [] + [f.name] == [f.name];
    InsideFunctionBlock([f.name], f.body);
    assert !NoNestedFunctions(f.body) by {
      assert !NoNestedFunctions([FunDecl(g)]) by {
        assert !NoNestedFunction([FunDecl(g)][0]);
      }
      assert !NoNestedFunction(f.body[0]);
    }
  }

  // ---------------------------------------------------------------------------------------
  // The visitor as the source runs it

  class NestedFunctionValidatorVisitor {
    var functionStack: seq<string>

    constructor ()
      ensures functionStack == []
    {
      functionStack := [];
    }

    /** `program`: each function in turn. */
    method VisitProgram(p: Program) returns (r: Outcome)
      requires functionStack == []
      modifies this
      ensures r == ValidateProgram(p)
      ensures r.Pass? ==> functionStack == []
    {
      for i := 0 to |p.functions|
        invariant functionStack == []
        invariant ValidateProgram(p) == ValidateFunctions([], p.functions[i..])
      {
        assert p.functions[i..][0] == p.functions[i] && p.functions[i..][1..] == p.functions[i + 1..];
        r := FunctionDeclaration(p.functions[i]);
        if r.Fail? {
          return;
        }
      }
      assert p.functions[|p.functions|..] == [];
      return Pass;
    }

    /** `functionDeclaration`: reject when nested, otherwise push the name, visit the body with
        the default traversal, and pop the name again. The precondition on every handler is
        the bound the traversal keeps: the stack never holds more than one name. */
    method FunctionDeclaration(f: Function) returns (r: Outcome)
      requires |functionStack| <= 1
      modifies this
      ensures r == ValidateFunction(old(functionStack), f)
      ensures r.Pass? ==> old(functionStack) == [] && functionStack == old(functionStack)
      decreases f, 1
    {
      if functionStack != [] {
        return Fail(NestedMessage);
      }
      functionStack := functionStack + [f.name];
      r := VisitBlock(f.body);
      if r.Fail? {
        return;
      }
      functionStack := functionStack[..|functionStack| - 1];
    }

    /** `block`: the statements in order. */
    method VisitBlock(ss: seq<Stmt>) returns (r: Outcome)
      requires |functionStack| <= 1
      modifies this
      ensures r == ValidateBlock(old(functionStack), ss)
      ensures r.Pass? ==> functionStack == old(functionStack)
      decreases ss, 0
    {
      for i := 0 to |ss|
        invariant functionStack == old(functionStack)
        invariant ValidateBlock(old(functionStack), ss) == ValidateBlock(functionStack, ss[i..])
      {
        assert ss[i..][0] == ss[i] && ss[i..][1..] == ss[i + 1..];
        r := VisitStatement(ss[i]);
        if r.Fail? {
          return;
        }
      }
      assert ss[|ss|..] == [];
      return Pass;
    }

    method VisitStatement(s: Stmt) returns (r: Outcome)
      requires |functionStack| <= 1
      modifies this
      ensures r == ValidateStmt(old(functionStack), s)
      ensures r.Pass? ==> functionStack == old(functionStack)
      decreases s, 0
    {
      match s {
        case FunDecl(f) => r := FunctionDeclaration(f);
        case When(_, b) => r := VisitBlock(b);
        case While(_, b) => r := VisitBlock(b);
        case Block(b) => r := VisitBlock(b);
        case _ => r := Pass;
      }
    }
  }
}
