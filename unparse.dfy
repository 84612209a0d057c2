/**
  * A printer from syntax trees back to tokens, inserting parentheses only where the
  * parser's precedence ladder needs them. Parsing what it prints gives back the tree;
  * this one fact pins down the precedence and associativity the parser implements.
  */
module Unparsing {
  import opened Wrappers
  import opened Tokens
  import opened Ast
  import opened Parsing
  import opened Sequences

  /** The ladder level at which a node is parsed (0 assignment ... 8 primary). */
  function Prec(e: Expr): (p: nat)
    ensures p <= 8
    ensures e.IsBinary() <==> 1 <= p <= 6
  {
    match e
    case Assignment(_, _) => 0
    case LogicalExpr(_, _, _) => 1
    case EqualityExpr(_, _, _) => 2
    case RelationalExpr(_, _, _) => 3
    case AddExpr(_, _, _) => 4
    case ModulusExpr(_, _) => 5
    case MulExpr(_, _, _) => 6
    case NegateExpr(_) => 7
    case NotExpr(_) => 7
    case NumberNode(_) => 8
    case BooleanNode(_) => 8
    case IdentifierNode(_) => 8
  }

  /**
    * The trees the round trip covers: an additive node holds `+` or `-`, a multiplicative
    * node `*` or `/`, each a single character. The parser also accepts the other needles of
    * its substring tests (the empty needle and both characters together), which these
    * trees leave out. The other operators are taken as found.
    */
  predicate WellFormed(e: Expr) {
    match e
    case Assignment(_, x) => WellFormed(x)
    case LogicalExpr(l, _, r) => WellFormed(l) && WellFormed(r)
    case EqualityExpr(l, _, r) => WellFormed(l) && WellFormed(r)
    case RelationalExpr(l, _, r) => WellFormed(l) && WellFormed(r)
    case AddExpr(l, op, r) => (op == "+" || op == "-") && WellFormed(l) && WellFormed(r)
    case ModulusExpr(l, r) => WellFormed(l) && WellFormed(r)
    case MulExpr(l, op, r) => (op == "*" || op == "/") && WellFormed(l) && WellFormed(r)
    case NegateExpr(x) => WellFormed(x)
    case NotExpr(x) => WellFormed(x)
    case NumberNode(_) => true
    case BooleanNode(_) => true
    case IdentifierNode(_) => true
  }

  /** The operator token of a binary node. */
  function OpToken(e: Expr): Token
    requires e.IsBinary()
  {
    match e
    case LogicalExpr(_, op, _) => LogicalOP(op)
    case EqualityExpr(_, op, _) => EqualityOP(op)
    case RelationalExpr(_, op, _) => RelationalOP(op)
    case AddExpr(_, op, _) => MathOP(op)
    case ModulusExpr(_, _) => MathOP("%")
    case MulExpr(_, op, _) => MathOP(op)
  }

  /**
    * The tokens of `e` as an operand at level `lvl`: bare when `e` sits at or below that
    * level, parenthesised otherwise. A binary node's left operand sits one level down
    * and its right operand at its own level, which is right associativity.
    */
  function Unparse(e: Expr, lvl: nat): (u: seq<Token>)
    ensures |u| > 0
    decreases e, if Prec(e) < lvl then 1 else 0
  {
    if Prec(e) < lvl then [Parenthesis("(")] + Unparse(e, 0) + [Parenthesis(")")]
    else
      match e
      case Assignment(w, x) => [Identifier(w), AssignmentOP] + Unparse(x, 1)
      case LogicalExpr(l, op, r) => Unparse(l, 2) + [LogicalOP(op)] + Unparse(r, 1)
      case EqualityExpr(l, op, r) => Unparse(l, 3) + [EqualityOP(op)] + Unparse(r, 2)
      case RelationalExpr(l, op, r) => Unparse(l, 4) + [RelationalOP(op)] + Unparse(r, 3)
      case AddExpr(l, op, r) => Unparse(l, 5) + [MathOP(op)] + Unparse(r, 4)
      case ModulusExpr(l, r) => Unparse(l, 6) + [MathOP("%")] + Unparse(r, 5)
      case MulExpr(l, op, r) => Unparse(l, 7) + [MathOP(op)] + Unparse(r, 6)
      case NegateExpr(x) => [MathOP("-")] + Unparse(x, 7)
      case NotExpr(x) => [NotOP] + Unparse(x, 7)
      case NumberNode(v) => [NumberToken(v)]
      case BooleanNode(b) => [Boolean(b)]
      case IdentifierNode(w) => [Identifier(w)]
  }

  /** A token after which no parsing level from `lvl` upwards takes another operand. */
  predicate Stops(lvl: nat, t: Token) {
    (lvl == 0 ==> !t.AssignmentOP?) &&
    (lvl <= 1 ==> !Continues(1, t)) &&
    (lvl <= 2 ==> !Continues(2, t)) &&
    (lvl <= 3 ==> !Continues(3, t)) &&
    (lvl <= 4 ==> !Continues(4, t)) &&
    (lvl <= 5 ==> !Continues(5, t)) &&
    (lvl <= 6 ==> !Continues(6, t))
  }

  /** The operator token of a binary node continues its own level and no deeper one. */
  lemma OpTokenLevel(e: Expr)
    requires e.IsBinary() && WellFormed(e)
    ensures Continues(Prec(e), OpToken(e))
    ensures Stops(Prec(e) + 1, OpToken(e))
  {

  }

  /**
    * Parsing a level-`p` result at a shallower level `lvl` gives the same result when the
    * token after it stops every level in between. From the primary level, the start token
    * must not be a unary operator (the unary level would take it instead).
    */
  lemma {:induction false} Lift(lvl: nat, p: nat, ts: seq<Token>, i: nat)
    requires lvl <= p <= 8 && EndsWithEOF(ts) && i < |ts|
    requires ExprAt(p, ts, i).Parsed? ==> Stops(lvl, ts[ExprAt(p, ts, i).next])
    requires p == 8 ==> !ts[i].NotOP? && !ts[i].MathOP?
    ensures ExprAt(lvl, ts, i) == ExprAt(p, ts, i)
    decreases p - lvl
  {
    if lvl < p {
      Lift(lvl + 1, p, ts, i);
    }
  }

  /** A parenthesised operand parses, as a primary expression, to its content. */
  lemma ParenthesizedPrimary(e: Expr, ts: seq<Token>, i: nat)
    requires WellFormed(e) && EndsWithEOF(ts)
    requires Occurs([Parenthesis("(")] + Unparse(e, 0) + [Parenthesis(")")], ts, i)
    requires i + |Unparse(e, 0)| + 2 < |ts|
    ensures ExprAt(8, ts, i) == Parsed(e, i + |Unparse(e, 0)| + 2)
    decreases e, 4
  {
    var v := Unparse(e, 0);
    OccursConcat([Parenthesis("(")] + v, [Parenthesis(")")], ts, i);
    OccursTwo(Parenthesis("("), v, ts, i);
    assert ts[i + 1 + |v|] == Parenthesis(")") by {
      assert [Parenthesis(")")][0] == Parenthesis(")");
    }
    ParseUnparse(e, 0, ts, i + 1);
  }

  /**
    * Round trip: the tokens `Unparse(e, lvl)` placed at position `i` and followed by a token
    * that stops level `lvl` parse at that level to exactly `e`, consuming all of them.
    */
  lemma {:induction false} ParseUnparse(e: Expr, lvl: nat, ts: seq<Token>, i: nat)
    requires lvl <= 8 && WellFormed(e) && EndsWithEOF(ts)
    requires Occurs(Unparse(e, lvl), ts, i) && i + |Unparse(e, lvl)| < |ts|
    requires Stops(lvl, ts[i + |Unparse(e, lvl)|])
    ensures ExprAt(lvl, ts, i) == Parsed(e, i + |Unparse(e, lvl)|)
    decreases e, if Prec(e) < lvl then 5 else 3
  {
    var u := Unparse(e, lvl);
    var end := i + |u|;
    var p := Prec(e);
    if p < lvl {
      ParenthesizedPrimary(e, ts, i);
      Lift(lvl, 8, ts, i);
    } else {
      assert u == Unparse(e, p);
      ParseExact(e, ts, i);
      if p == 8 {
        OccursTwo(u[0], u[1..], ts, i) by { assert u == [u[0]] + u[1..]; }
      }
      Lift(lvl, p, ts, i);
    }
  }

  /** The round trip at the node's own level, by cases on the node. */
  lemma {:induction false} ParseExact(e: Expr, ts: seq<Token>, i: nat)
    requires WellFormed(e) && EndsWithEOF(ts)
    requires Occurs(Unparse(e, Prec(e)), ts, i) && i + |Unparse(e, Prec(e))| < |ts|
    requires Stops(Prec(e), ts[i + |Unparse(e, Prec(e))|])
    ensures ExprAt(Prec(e), ts, i) == Parsed(e, i + |Unparse(e, Prec(e))|)
    decreases e, 2
  {
    if e.IsBinary() {
      UnparseBinary(e);
      CombineOpToken(e);
      OpTokenLevel(e);
      WellFormedOperands(e);
      ExactBinary(e, Prec(e), OpToken(e), e.left, e.right, Unparse(e.left, Prec(e) + 1), Unparse(e.right, Prec(e)), ts, i);
    } else if e.Assignment? {
      ExactAssignment(e, ts, i);
    } else if e.NegateExpr? || e.NotExpr? {
      ExactUnary(e, ts, i);
    } else {
      assert ts[i + 0] == Unparse(e, 8)[0];
    }
  }

  lemma {:induction false} ExactAssignment(e: Expr, ts: seq<Token>, i: nat)
    requires e.Assignment? && WellFormed(e) && EndsWithEOF(ts)
    requires Occurs(Unparse(e, 0), ts, i) && i + |Unparse(e, 0)| < |ts|
    requires Stops(0, ts[i + |Unparse(e, 0)|])
    ensures ExprAt(0, ts, i) == Parsed(e, i + |Unparse(e, 0)|)
    decreases e, 0
  {
    var x := e.expr;
    assert Unparse(e, 0) == [Identifier(e.word)] + ([AssignmentOP] + Unparse(x, 1));
    OccursTwo(Identifier(e.word), [AssignmentOP] + Unparse(x, 1), ts, i);
    OccursTwo(AssignmentOP, Unparse(x, 1), ts, i + 1);
    ParseUnparse(x, 1, ts, i + 2);
    assert ExprAt(8, ts, i) == Parsed(IdentifierNode(e.word), i + 1);
    Lift(1, 8, ts, i);
  }

  lemma {:induction false} ExactUnary(e: Expr, ts: seq<Token>, i: nat)
    requires (e.NegateExpr? || e.NotExpr?) && WellFormed(e) && EndsWithEOF(ts)
    requires Occurs(Unparse(e, 7), ts, i) && i + |Unparse(e, 7)| < |ts|
    ensures ExprAt(7, ts, i) == Parsed(e, i + |Unparse(e, 7)|)
    decreases e, 0
  {
    var t := if e.NegateExpr? then MathOP("-") else NotOP;
    assert Unparse(e, 7) == [t] + Unparse(e.expr, 7);
    OccursTwo(t, Unparse(e.expr, 7), ts, i);
    ParseUnparse(e.expr, 7, ts, i + 1);
  }

  lemma {:induction false} ExactBinary(e: Expr, p: nat, t: Token, l: Expr, r: Expr, a: seq<Token>, b: seq<Token>, ts: seq<Token>, i: nat)
    requires e.IsBinary() && l == e.left && r == e.right
    requires 1 <= p <= 6 && Continues(p, t) && Stops(p + 1, t)
    requires WellFormed(l) && WellFormed(r) && EndsWithEOF(ts)
    requires a == Unparse(l, p + 1) && b == Unparse(r, p)
    requires Occurs(a + [t] + b, ts, i) && i + |a| + 1 + |b| < |ts|
    requires Stops(p, ts[i + |a| + 1 + |b|])
    ensures ExprAt(p, ts, i) == Parsed(Combine(p, t, l, r), i + |a| + 1 + |b|)
    decreases e, 1
  {
    OccursThree(a, t, b, ts, i);
    ExactOperands(e, p, t, l, r, a, b, ts, i);
    BinaryStep(p, t, ts, i, l, i + |a|, r, i + |a| + 1 + |b|);
  }

  /** Both operands of a binary node parse back at their levels. */
  lemma {:induction false} ExactOperands(e: Expr, p: nat, t: Token, l: Expr, r: Expr, a: seq<Token>, b: seq<Token>, ts: seq<Token>, i: nat)
    requires e.IsBinary() && l == e.left && r == e.right
    requires 1 <= p <= 6 && Stops(p + 1, t)
    requires WellFormed(l) && WellFormed(r) && EndsWithEOF(ts)
    requires a == Unparse(l, p + 1) && b == Unparse(r, p)
    requires i + |a| + 1 + |b| < |ts| && Stops(p, ts[i + |a| + 1 + |b|])
    requires Occurs(a, ts, i) && ts[i + |a|] == t && Occurs(b, ts, i + |a| + 1)
    ensures ExprAt(p + 1, ts, i) == Parsed(l, i + |a|)
    ensures ExprAt(p, ts, i + |a| + 1) == Parsed(r, i + |a| + 1 + |b|)
    decreases e, 0
  {
    ParseUnparse(l, p + 1, ts, i);
    ParseUnparse(r, p, ts, i + |a| + 1);
  }

  /** The operands of a well-formed binary node are well formed. */
  lemma WellFormedOperands(e: Expr)
    requires e.IsBinary() && WellFormed(e)
    ensures WellFormed(e.left) && WellFormed(e.right)
  {
  }

  lemma UnparseBinary(e: Expr)
    requires e.IsBinary()
    ensures Unparse(e, Prec(e)) == Unparse(e.left, Prec(e) + 1) + [OpToken(e)] + Unparse(e.right, Prec(e))
  {
  }

  lemma CombineOpToken(e: Expr)
    requires e.IsBinary() && WellFormed(e)
    ensures Continues(Prec(e), OpToken(e))
    ensures Combine(Prec(e), OpToken(e), e.left, e.right) == e
  {
    OpTokenLevel(e);
  }

  /** One step of a binary level: operand, operator, and the rest of the level. */
  lemma BinaryStep(p: nat, t: Token, ts: seq<Token>, i: nat, l: Expr, j: nat, r: Expr, k: nat)
    requires 1 <= p <= 6 && EndsWithEOF(ts) && i < |ts|
    requires ExprAt(p + 1, ts, i) == Parsed(l, j)
    requires ts[j] == t && Continues(p, t)
    requires ExprAt(p, ts, j + 1) == Parsed(r, k)
    ensures ExprAt(p, ts, i) == Parsed(Combine(p, t, l, r), k)
  {
  }
}
