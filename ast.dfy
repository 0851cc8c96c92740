/**
 * The syntax tree the parser builds: one constructor per expression and
 * statement node class.  Nodes are immutable records; tokens are kept
 * whole, because later stages report errors at their line and column.
 */
module Ast {
  import opened Wrappers
  import opened Tokens

  /** The payload of a literal node: a host bool, the host null, or the lexeme text of a number or string. */
  datatype LiteralValue = LBool(b: bool) | LNull | LText(text: string)

  datatype Expr =
    | Literal(kind: TokenType, payload: LiteralValue)
    | Variable(name: Token)
    | Assign(name: Token, value: Expr)
    | Binary(left: Expr, operator: Token, right: Expr)
    | Logical(left: Expr, operator: Token, right: Expr)
    | Unary(operator: Token, operand: Expr)
    | Typeof(operand: Expr)
    | Grouping(inner: Expr)
    | Call(callee: Expr, paren: Token, arguments: seq<Expr>)
    | Get(receiver: Expr, name: Token)
    | Set(receiver: Expr, name: Token, value: Expr)
    | Super(keyword: Token, methodName: Token)
    | This(keyword: Token)
    | Array(elements: seq<Expr>)
    | Function(declaration: FunctionNode)

  /** A parameter list and a body, shared by function statements, methods and anonymous functions. */
  datatype FunctionNode = FunctionNode(parameters: seq<Token>, body: seq<Stmt>)

  /** A method of a class declaration: a named function statement. */
  datatype Method = Method(name: Token, declaration: FunctionNode)

  datatype Stmt =
    | Expression(expression: Expr)
    | Var(name: Token, initializer: Option<Expr>)
    | Block(statements: seq<Stmt>)
    | If(condition: Expr, thenBranch: Stmt, elseBranch: Option<Stmt>)
    | While(condition: Expr, body: Stmt)
    | Return(keyword: Token, value: Option<Expr>)
    | FunctionDecl(name: Token, declaration: FunctionNode)
    /** The superclass, when present, is the name token of a variable reference. */
    | Class(name: Token, superclass: Option<Token>, methods: seq<Method>)
}
