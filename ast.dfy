/**
  * The syntax tree the parser builds and the interpreter walks: one constructor per node
  * class. The binary node classes share `left`, `operator` and `right`; a modulus node
  * keeps no operator of its own because its constructor always passes `%`.
  */
module Ast {
  import opened Wrappers

  datatype Expr =
    | Assignment(word: string, expr: Expr)
    | LogicalExpr(left: Expr, operator: string, right: Expr)
    | EqualityExpr(left: Expr, operator: string, right: Expr)
    | RelationalExpr(left: Expr, operator: string, right: Expr)
    | AddExpr(left: Expr, operator: string, right: Expr)
    | ModulusExpr(left: Expr, right: Expr)
    | MulExpr(left: Expr, operator: string, right: Expr)
    | NegateExpr(expr: Expr)
    | NotExpr(expr: Expr)
    | NumberNode(value: real)
    | BooleanNode(truth: bool)
    | IdentifierNode(word: string)
  {
    /** The members of the `BinaryExpr` family. */
    predicate IsBinary() {
      LogicalExpr? || EqualityExpr? || RelationalExpr? || AddExpr? || ModulusExpr? || MulExpr?
    }

    /** The `operator` attribute of a binary node: the stored one, or `%` for a modulus node. */
    function BinaryOperator(): (s: string)
      requires IsBinary()
      ensures ModulusExpr? ==> s == "%"
      ensures !ModulusExpr? ==> s == operator
    {
      if ModulusExpr? then "%" else operator
    }

    /** The names the expression assigns to: the only bindings its evaluation can change. */
    function AssignedNames(): set<string> {
      match this
      case Assignment(w, x) => {w} + x.AssignedNames()
      case LogicalExpr(l, _, r) => l.AssignedNames() + r.AssignedNames()
      case EqualityExpr(l, _, r) => l.AssignedNames() + r.AssignedNames()
      case RelationalExpr(l, _, r) => l.AssignedNames() + r.AssignedNames()
      case AddExpr(l, _, r) => l.AssignedNames() + r.AssignedNames()
      case ModulusExpr(l, r) => l.AssignedNames() + r.AssignedNames()
      case MulExpr(l, _, r) => l.AssignedNames() + r.AssignedNames()
      case NegateExpr(x) => x.AssignedNames()
      case NotExpr(x) => x.AssignedNames()
      case NumberNode(_) => {}
      case BooleanNode(_) => {}
      case IdentifierNode(_) => {}
    }
  }

  /** The three statement classes; a `let` without an initializer carries `None`. */
  datatype Stmt =
    | LetDecl(name: string, init: Option<Expr>)
    | ExprStmt(expr: Expr)
    | PrintStmt(expr: Expr)
}
