/** The default traversal of `BaseVisitor`: `visit` dispatches a node to the handler of its
    kind, and each default handler visits the node's children in a fixed order. The traversal
    is modelled as the sequence of handler invocations it makes (its trace); the visitors that
    override a handler are modelled in their own modules against this trace. */
module AstVisitor {
  import opened Int32
  import opened Ast

  /** One handler invocation of `ASTVisitor`, with the part of the node a visitor can observe. */
  datatype Event =
    | ProgramVisit
    | VariableDeclarationVisit(name: string)
    | FunctionDeclarationVisit(decl: Function)
    | WhenVisit
    | WhileVisit
    | ReturnVisit
    | BlockVisit
    | IntegerLiteralVisit(value: Int32)
    | UnaryOperationVisit(op: string)
    | BinaryOperationVisit(op: string)
    | FunctionCallVisit(callee: string)
    | IdentifierVisit(name: string)
    | AssignmentVisit(name: string)

  predicate IsDeclaration(ev: Event) {
    ev.VariableDeclarationVisit? || ev.FunctionDeclarationVisit?
  }

  /** Literals and identifiers are leaves; an operation visits its operands left then right;
      a call visits its identifier, then its arguments in order. */
  function TraceExpr(e: Expr): seq<Event> {
    match e
    case IntLit(v) => [IntegerLiteralVisit(v)]
    case Ident(x) => [IdentifierVisit(x)]
    case Unary(op, a) => [UnaryOperationVisit(op)] + TraceExpr(a)
    case Binary(l, op, r) => [BinaryOperationVisit(op)] + TraceExpr(l) + TraceExpr(r)
    case Call(f, args) => [FunctionCallVisit(f), IdentifierVisit(f)] + TraceExprs(args)
  }

  function TraceExprs(es: seq<Expr>): seq<Event> {
    if es == [] then [] else TraceExpr(es[0]) + TraceExprs(es[1..])
  }

  /** An expression used as a statement is dispatched as the expression it is. */
  function TraceStmt(s: Stmt): seq<Event> {
    match s
    case VarDecl(x, e) => [VariableDeclarationVisit(x), IdentifierVisit(x)] + TraceExpr(e)
    case FunDecl(f) => TraceFunction(f)
    case When(c, b) => [WhenVisit] + TraceExpr(c) + [BlockVisit] + TraceBlock(b)
    case While(c, b) => [WhileVisit] + TraceExpr(c) + [BlockVisit] + TraceBlock(b)
    case Return(e) => [ReturnVisit] + TraceExpr(e)
    case Block(ss) => [BlockVisit] + TraceBlock(ss)
    case ExprStmt(e) => TraceExpr(e)
    case Assign(x, e) => [AssignmentVisit(x), IdentifierVisit(x)] + TraceExpr(e)
  }

  /** The statements of a block, visited in list order. */
  function TraceBlock(ss: seq<Stmt>): seq<Event> {
    if ss == [] then [] else TraceStmt(ss[0]) + TraceBlock(ss[1..])
  }

  function TraceIdentifiers(names: seq<string>): (t: seq<Event>)
    ensures |t| == |names|
    ensures forall i :: 0 <= i < |names| ==> t[i] == IdentifierVisit(names[i])
  {
    seq(|names|, i requires 0 <= i < |names| => IdentifierVisit(names[i]))
  }

  /** A function declaration visits its identifier, then each parameter, then its body block. */
  function TraceFunction(f: Function): seq<Event> {
    [FunctionDeclarationVisit(f), IdentifierVisit(f.name)] + TraceIdentifiers(f.parameters)
      + [BlockVisit] + TraceBlock(f.body)
  }

  function TraceFunctions(fs: seq<Function>): seq<Event> {
    if fs == [] then [] else TraceFunction(fs[0]) + TraceFunctions(fs[1..])
  }

  function TraceProgram(p: Program): seq<Event> {
    [ProgramVisit] + TraceFunctions(p.functions)
  }

  /** Visiting the concatenation of two statement lists visits the first list, then the second. */
  lemma {:induction false} TraceBlockAppend(a: seq<Stmt>, b: seq<Stmt>)
    ensures TraceBlock(a + b) == TraceBlock(a) + TraceBlock(b)
  {
    if a == [] {
      assert a + b == b;
    } else {
      assert (a + b)[0] == a[0];
      assert (a + b)[1..] == a[1..] + b;
      TraceBlockAppend(a[1..], b);
    }
  }

  /** Expressions hold no declarations, so no handler for a declaration runs while one is visited. */
  lemma {:induction false} ExprTraceHasNoDeclarations(e: Expr)
    ensures forall i :: 0 <= i < |TraceExpr(e)| ==> !IsDeclaration(TraceExpr(e)[i])
  {
    match e
    case IntLit(_) =>
    case Ident(_) =>
    case Unary(_, a) => ExprTraceHasNoDeclarations(a);
    case Binary(l, _, r) => ExprTraceHasNoDeclarations(l); ExprTraceHasNoDeclarations(r);
    case Call(_, args) => ExprsTraceHasNoDeclarations(args);
  }

  lemma {:induction false} ExprsTraceHasNoDeclarations(es: seq<Expr>)
    ensures forall i :: 0 <= i < |TraceExprs(es)| ==> !IsDeclaration(TraceExprs(es)[i])
  {
    if es != [] {
      ExprTraceHasNoDeclarations(es[0]);
      ExprsTraceHasNoDeclarations(es[1..]);
    }
  }
}
