/** The syntax tree the back end consumes, reconstructed from the way the compiler, the
    visitors and the interpreter use it. The parser that produces it is not part of this model. */
module Ast {
  import opened Int32

  datatype Expr =
    | IntLit(value: Int32)
    | Ident(name: string)
    | Unary(op: string, operand: Expr)
    | Binary(left: Expr, op: string, right: Expr)
    | Call(callee: string, args: seq<Expr>)

  datatype Stmt =
    | VarDecl(name: string, init: Expr)
    | FunDecl(decl: Function)
    | When(cond: Expr, body: seq<Stmt>)
    | While(cond: Expr, body: seq<Stmt>)
    | Return(value: Expr)
    | Block(stmts: seq<Stmt>)
    | ExprStmt(expr: Expr)
    | Assign(name: string, value: Expr)

  /** A function declaration: its identifier, its parameters in order and its body block. */
  datatype Function = Function(name: string, parameters: seq<string>, body: seq<Stmt>)

  datatype Program = Program(functions: seq<Function>)
}
