/**
  * What the parser's functions imply about whole inputs: the errors a leading token causes
  * at every level of the ladder, the unclosed parenthesis, the uniqueness of printed forms,
  * the statement round trip, and worked instances of precedence and associativity.
  */
module ParserFacts {
  import opened Wrappers
  import opened Tokens
  import opened Ast
  import opened Parsing
  import opened Unparsing
  import opened Sequences

  /** A token that neither a unary operator nor a primary expression can start with. */
  predicate StartsNothing(t: Token) {
    !t.NumberToken? && !t.Identifier? && !t.Boolean? && t != Parenthesis("(") &&
    !t.NotOP? && !t.MathOP? && !t.EOFToken?
  }

  /**
    * The error a leading token causes is the same at every level: at `EOFToken` a missing
    * operand, at a `MathOP` other than `-` and `+` a bad unary operator (the primary level
    * itself calls it invalid syntax), and at any token nothing starts with, invalid syntax.
    */
  lemma {:induction false} LeadingTokenErrors(lvl: nat, ts: seq<Token>, i: nat)
    requires lvl <= 8 && EndsWithEOF(ts) && i < |ts|
    ensures ts[i].EOFToken? ==> ExprAt(lvl, ts, i) == Failed(MissingOperand)
    ensures lvl <= 7 && ts[i].MathOP? && ts[i].op != "-" && ts[i].op != "+" ==>
              ExprAt(lvl, ts, i) == Failed(BadUnaryOperator(ts[i].op))
    ensures StartsNothing(ts[i]) ==> ExprAt(lvl, ts, i) == Failed(InvalidSyntax(ts[i]))
    decreases 8 - lvl
  {
    if lvl < 8 {
      LeadingTokenErrors(lvl + 1, ts, i);
    }
  }

  /**
    * An error in the operand of a unary `-` or `+` comes out, at every level above it,
    * wrapped by the handler around that operand: the inner error, then the handler's own.
    */
  lemma {:induction false} UnaryOperandErrors(lvl: nat, ts: seq<Token>, i: nat)
    requires lvl <= 7 && EndsWithEOF(ts) && i + 1 < |ts|
    requires ts[i] == MathOP("-") || ts[i] == MathOP("+")
    requires ExprAt(7, ts, i + 1).Failed?
    ensures ExprAt(lvl, ts, i) == Failed(AfterUnary(ts[i].op, ExprAt(7, ts, i + 1).error))
    decreases 7 - lvl
  {
    if lvl < 7 {
      UnaryOperandErrors(lvl + 1, ts, i);
    }
  }

  /** `-` at the end of the input reports the missing operand and then the handler's error. */
  lemma MinusBeforeEOF()
    ensures ExprAt(0, [MathOP("-"), EOFToken], 0) == Failed(AfterUnary("-", MissingOperand))
    ensures ExprAt(0, [MathOP("-"), MathOP("-"), EOFToken], 0) ==
            Failed(AfterUnary("-", AfterUnary("-", MissingOperand)))
  {
    var ts := [MathOP("-"), EOFToken];
    LeadingTokenErrors(7, ts, 1);
    UnaryOperandErrors(0, ts, 0);
    var us := [MathOP("-"), MathOP("-"), EOFToken];
    LeadingTokenErrors(7, us, 2);
    UnaryOperandErrors(7, us, 1);
    UnaryOperandErrors(0, us, 0);
  }

  /** An opening parenthesis whose expression is followed by anything but `)` is an error. */
  lemma MissingCloseParen(e: Expr, ts: seq<Token>, i: nat)
    requires WellFormed(e) && EndsWithEOF(ts)
    requires Occurs([Parenthesis("(")] + Unparse(e, 0), ts, i)
    requires i + 1 + |Unparse(e, 0)| < |ts|
    requires Stops(0, ts[i + 1 + |Unparse(e, 0)|]) && ts[i + 1 + |Unparse(e, 0)|] != Parenthesis(")")
    ensures PrimaryAt(ts, i) == Failed(ExpectedCloseParen)
    ensures forall lvl :: 0 <= lvl <= 8 ==> ExprAt(lvl, ts, i) == Failed(ExpectedCloseParen)
  {
    OccursTwo(Parenthesis("("), Unparse(e, 0), ts, i);
    ParseUnparse(e, 0, ts, i + 1);
    forall lvl | 0 <= lvl <= 8 ensures ExprAt(lvl, ts, i) == Failed(ExpectedCloseParen) {
      Lift(lvl, 8, ts, i);
    }
  }

  /** The printed tokens of a tree, followed by the end marker, parse back to the tree. */
  lemma ParsesBack(e: Expr, lvl: nat)
    requires lvl <= 8 && WellFormed(e)
    ensures ExprAt(lvl, Unparse(e, lvl) + [EOFToken], 0) == Parsed(e, |Unparse(e, lvl)|)
  {
    var u := Unparse(e, lvl);
    var ts := u + [EOFToken];
    assert Occurs(u, ts, 0) by {
      forall k | 0 <= k < |u| ensures ts[0 + k] == u[k] {
        assert ts[k] == u[k];
      }
    }
    assert ts[|u|] == EOFToken;
    ParseUnparse(e, lvl, ts, 0);
  }

  /** Distinct well-formed trees print differently: the printed form determines the tree. */
  lemma UnparseInjective(e1: Expr, e2: Expr, lvl: nat)
    requires lvl <= 8 && WellFormed(e1) && WellFormed(e2)
    ensures Unparse(e1, lvl) == Unparse(e2, lvl) ==> e1 == e2
  {
    if Unparse(e1, lvl) == Unparse(e2, lvl) {
      ParsesBack(e1, lvl);
      ParsesBack(e2, lvl);
    }
  }

  /** Statements whose expressions the parser can build. */
  predicate WellFormedStmt(s: Stmt) {
    match s
    case LetDecl(_, init) => init.None? || WellFormed(init.value)
    case ExprStmt(e) => WellFormed(e)
    case PrintStmt(e) => WellFormed(e)
  }

  /** True when `u` starts with one of the two words a declaration is dispatched on. */
  predicate StartsWithKeyword(u: seq<Token>) {
    |u| > 0 && (u[0] == Identifier("print") || u[0] == Identifier("let"))
  }

  /**
    * The tokens of a statement. An expression statement that would start with `print` or
    * `let` is parenthesised, since the parser would read it as that declaration.
    */
  function UnparseStmt(s: Stmt): (u: seq<Token>)
    ensures |u| > 0
    ensures s.ExprStmt? ==> !StartsWithKeyword(u)
  {
    match s
    case LetDecl(name, None) => [Identifier("let"), Identifier(name)]
    case LetDecl(name, Some(x)) => [Identifier("let"), Identifier(name), AssignmentOP] + Unparse(x, 0)
    case PrintStmt(x) => [Identifier("print")] + Unparse(x, 0)
    case ExprStmt(x) =>
      var u := Unparse(x, 0);
      if StartsWithKeyword(u) then Unparse(x, 9) else u
  }

  /** A one-statement script: printing a statement and parsing the tokens gives that statement back. */
  lemma ScriptRoundTrip(s: Stmt)
    requires WellFormedStmt(s)
    ensures ScriptOf(UnparseStmt(s) + [EOFToken]) == Ok([s])
  {
    var u := UnparseStmt(s);
    var ts := u + [EOFToken];
    assert ts[|u|] == EOFToken;
    match s
    case LetDecl(name, None) =>
      assert ts[0] == Identifier("let") && ts[1] == Identifier(name);
    case LetDecl(name, Some(x)) =>
      var v := Unparse(x, 0);
      assert ts[0] == Identifier("let") && ts[1] == Identifier(name) && ts[2] == AssignmentOP;
      assert Occurs(v, ts, 3) by {
        forall k | 0 <= k < |v| ensures ts[3 + k] == v[k] {
          assert ts[3 + k] == u[3 + k];
        }
      }
      ParseUnparse(x, 0, ts, 3);
    case PrintStmt(x) =>
      var v := Unparse(x, 0);
      assert ts[0] == Identifier("print");
      assert Occurs(v, ts, 1) by {
        forall k | 0 <= k < |v| ensures ts[1 + k] == v[k] {
          assert ts[1 + k] == u[1 + k];
        }
      }
      ParseUnparse(x, 0, ts, 1);
    case ExprStmt(x) =>
      var lvl := if StartsWithKeyword(Unparse(x, 0)) then 9 else 0;
      assert Occurs(u, ts, 0) by {
        forall k | 0 <= k < |u| ensures ts[0 + k] == u[k] {
          assert ts[k] == u[k];
        }
      }
      if lvl == 9 {
        ParenthesizedPrimary(x, ts, 0);
        Lift(0, 8, ts, 0);
      } else {
        ParseUnparse(x, 0, ts, 0);
        LeadingTokenErrors(0, ts, 0);
        assert ts[0] == u[0];
      }
  }

  /** A name prints as its one token at every level. */
  lemma UnparseName(w: string, lvl: nat)
    requires lvl <= 8
    ensures Unparse(IdentifierNode(w), lvl) == [Identifier(w)]
  {
  }

  /** A tree printed as `u` parses back from `u` and the end marker. */
  lemma ParsesAs(e: Expr, u: seq<Token>, ts: seq<Token>)
    requires WellFormed(e) && Unparse(e, 0) == u && ts == u + [EOFToken]
    ensures ExprAt(0, ts, 0) == Parsed(e, |u|)
  {
    ParsesBack(e, 0);
  }

  /** `a - b - c` groups to the right: `a - (b - c)`. */
  lemma SubtractionGroupsRight(a: string, b: string, c: string)
    ensures ExprAt(0, [Identifier(a), MathOP("-"), Identifier(b), MathOP("-"), Identifier(c), EOFToken], 0) ==
            Parsed(AddExpr(IdentifierNode(a), "-", AddExpr(IdentifierNode(b), "-", IdentifierNode(c))), 5)
  {
    var A, B, C := IdentifierNode(a), IdentifierNode(b), IdentifierNode(c);
    var r := AddExpr(B, "-", C);
    UnparseName(a, 5);
    UnparseName(b, 5);
    UnparseName(c, 4);
    assert Unparse(r, 4) == Unparse(B, 5) + [MathOP("-")] + Unparse(C, 4);
    assert Unparse(AddExpr(A, "-", r), 0) == Unparse(A, 5) + [MathOP("-")] + Unparse(r, 4);
    ParsesAs(AddExpr(A, "-", r), [Identifier(a), MathOP("-"), Identifier(b), MathOP("-"), Identifier(c)],
             [Identifier(a), MathOP("-"), Identifier(b), MathOP("-"), Identifier(c), EOFToken]);
  }

  /** `*` binds tighter than `+`: `x + y * z` is `x + (y * z)`. */
  lemma ProductInsideSum(x: string, y: string, z: string)
    ensures ExprAt(0, [Identifier(x), MathOP("+"), Identifier(y), MathOP("*"), Identifier(z), EOFToken], 0) ==
            Parsed(AddExpr(IdentifierNode(x), "+", MulExpr(IdentifierNode(y), "*", IdentifierNode(z))), 5)
  {
    var X, Y, Z := IdentifierNode(x), IdentifierNode(y), IdentifierNode(z);
    var m := MulExpr(Y, "*", Z);
    UnparseName(x, 5);
    UnparseName(y, 7);
    UnparseName(z, 6);
    assert Unparse(m, 4) == Unparse(Y, 7) + [MathOP("*")] + Unparse(Z, 6);
    assert Unparse(AddExpr(X, "+", m), 0) == Unparse(X, 5) + [MathOP("+")] + Unparse(m, 4);
    ParsesAs(AddExpr(X, "+", m), [Identifier(x), MathOP("+"), Identifier(y), MathOP("*"), Identifier(z)],
             [Identifier(x), MathOP("+"), Identifier(y), MathOP("*"), Identifier(z), EOFToken]);
  }

  /** `/` binds tighter than `-`: `x / y - z` is `(x / y) - z`. */
  lemma QuotientInsideDifference(x: string, y: string, z: string)
    ensures ExprAt(0, [Identifier(x), MathOP("/"), Identifier(y), MathOP("-"), Identifier(z), EOFToken], 0) ==
            Parsed(AddExpr(MulExpr(IdentifierNode(x), "/", IdentifierNode(y)), "-", IdentifierNode(z)), 5)
  {
    var X, Y, Z := IdentifierNode(x), IdentifierNode(y), IdentifierNode(z);
    var d := MulExpr(X, "/", Y);
    UnparseName(x, 7);
    UnparseName(y, 6);
    UnparseName(z, 4);
    assert Unparse(d, 5) == Unparse(X, 7) + [MathOP("/")] + Unparse(Y, 6);
    assert Unparse(AddExpr(d, "-", Z), 0) == Unparse(d, 5) + [MathOP("-")] + Unparse(Z, 4);
    ParsesAs(AddExpr(d, "-", Z), [Identifier(x), MathOP("/"), Identifier(y), MathOP("-"), Identifier(z)],
             [Identifier(x), MathOP("/"), Identifier(y), MathOP("-"), Identifier(z), EOFToken]);
  }

  /** `*` binds tighter than `%`: `x % y * z` is `x % (y * z)`. */
  lemma ProductInsideModulus(x: string, y: string, z: string)
    ensures ExprAt(0, [Identifier(x), MathOP("%"), Identifier(y), MathOP("*"), Identifier(z), EOFToken], 0) ==
            Parsed(ModulusExpr(IdentifierNode(x), MulExpr(IdentifierNode(y), "*", IdentifierNode(z))), 5)
  {
    var X, Y, Z := IdentifierNode(x), IdentifierNode(y), IdentifierNode(z);
    var m := MulExpr(Y, "*", Z);
    UnparseName(x, 6);
    UnparseName(y, 7);
    UnparseName(z, 6);
    assert Unparse(m, 5) == Unparse(Y, 7) + [MathOP("*")] + Unparse(Z, 6);
    assert Unparse(ModulusExpr(X, m), 0) == Unparse(X, 6) + [MathOP("%")] + Unparse(m, 5);
    ParsesAs(ModulusExpr(X, m), [Identifier(x), MathOP("%"), Identifier(y), MathOP("*"), Identifier(z)],
             [Identifier(x), MathOP("%"), Identifier(y), MathOP("*"), Identifier(z), EOFToken]);
  }

  /** A comparison binds tighter than `and`: `x < y and z` is `(x < y) and z`. */
  lemma ComparisonInsideLogic(x: string, y: string, z: string)
    ensures ExprAt(0, [Identifier(x), RelationalOP("<"), Identifier(y), LogicalOP("and"), Identifier(z), EOFToken], 0) ==
            Parsed(LogicalExpr(RelationalExpr(IdentifierNode(x), "<", IdentifierNode(y)), "and", IdentifierNode(z)), 5)
  {
    var X, Y, Z := IdentifierNode(x), IdentifierNode(y), IdentifierNode(z);
    var c := RelationalExpr(X, "<", Y);
    UnparseName(x, 4);
    UnparseName(y, 3);
    UnparseName(z, 1);
    assert Unparse(c, 2) == Unparse(X, 4) + [RelationalOP("<")] + Unparse(Y, 3);
    assert Unparse(LogicalExpr(c, "and", Z), 0) == Unparse(c, 2) + [LogicalOP("and")] + Unparse(Z, 1);
    ParsesAs(LogicalExpr(c, "and", Z), [Identifier(x), RelationalOP("<"), Identifier(y), LogicalOP("and"), Identifier(z)],
             [Identifier(x), RelationalOP("<"), Identifier(y), LogicalOP("and"), Identifier(z), EOFToken]);
  }

  /** `not` binds tighter than `==`: `not x == y` is `(not x) == y`. */
  lemma NegationInsideEquality(x: string, y: string)
    ensures ExprAt(0, [NotOP, Identifier(x), EqualityOP("=="), Identifier(y), EOFToken], 0) ==
            Parsed(EqualityExpr(NotExpr(IdentifierNode(x)), "==", IdentifierNode(y)), 4)
  {
    var X, Y := IdentifierNode(x), IdentifierNode(y);
    UnparseName(x, 7);
    UnparseName(y, 2);
    assert Unparse(NotExpr(X), 3) == [NotOP] + Unparse(X, 7);
    assert Unparse(EqualityExpr(NotExpr(X), "==", Y), 0) == Unparse(NotExpr(X), 3) + [EqualityOP("==")] + Unparse(Y, 2);
    ParsesAs(EqualityExpr(NotExpr(X), "==", Y), [NotOP, Identifier(x), EqualityOP("=="), Identifier(y)],
             [NotOP, Identifier(x), EqualityOP("=="), Identifier(y), EOFToken]);
  }

  /** With a number on the left of `=` the `=` is left unconsumed and the script holds just the number. */
  lemma NumberIsNoTarget()
    ensures ExprAt(0, [NumberToken(1.0), AssignmentOP, NumberToken(2.0), EOFToken], 0) ==
            Parsed(NumberNode(1.0), 1)
    ensures ScriptOf([NumberToken(1.0), AssignmentOP, NumberToken(2.0), EOFToken]) ==
            Ok([ExprStmt(NumberNode(1.0))])
  {
    var ts := [NumberToken(1.0), AssignmentOP, NumberToken(2.0), EOFToken];
    assert ExprAt(8, ts, 0) == Parsed(NumberNode(1.0), 1);
    Lift(1, 8, ts, 0);
  }

  /** A name in parentheses is still a bare name to the assignment level, so `(x) = 5` assigns. */
  lemma ParenthesizedTarget(x: string)
    ensures ExprAt(0, [Parenthesis("("), Identifier(x), Parenthesis(")"), AssignmentOP, NumberToken(5.0), EOFToken], 0) ==
            Parsed(Assignment(x, NumberNode(5.0)), 5)
  {
    var ts := [Parenthesis("("), Identifier(x), Parenthesis(")"), AssignmentOP, NumberToken(5.0), EOFToken];
    assert ExprAt(8, ts, 1) == Parsed(IdentifierNode(x), 2);
    Lift(0, 8, ts, 1);
    assert ExprAt(8, ts, 0) == Parsed(IdentifierNode(x), 3);
    Lift(1, 8, ts, 0);
    assert ExprAt(8, ts, 4) == Parsed(NumberNode(5.0), 5);
    Lift(1, 8, ts, 4);
  }

  /** Unary `+` is dropped, so `+x = 5` assigns to `x`. */
  lemma UnaryPlusTarget(x: string)
    ensures ExprAt(0, [MathOP("+"), Identifier(x), AssignmentOP, NumberToken(5.0), EOFToken], 0) ==
            Parsed(Assignment(x, NumberNode(5.0)), 4)
  {
    var ts := [MathOP("+"), Identifier(x), AssignmentOP, NumberToken(5.0), EOFToken];
    assert ExprAt(8, ts, 1) == Parsed(IdentifierNode(x), 2);
    Lift(7, 8, ts, 1);
    assert ExprAt(7, ts, 0) == Parsed(IdentifierNode(x), 2);
    Lift(1, 7, ts, 0);
    assert ExprAt(8, ts, 3) == Parsed(NumberNode(5.0), 4);
    Lift(1, 8, ts, 3);
  }
}
