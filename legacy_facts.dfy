/**
  * What the earlier calculator's parser guarantees: a printer that puts parentheses only
  * where the two-level grammar needs them, the round trip from a tree through its tokens
  * back to the same tree, and worked examples of precedence, right association, the
  * unary-minus fold and the implicit zero at the end of the tokens.
  */
module LegacyFacts {
  import opened Wrappers
  import opened Sequences
  import opened Legacy

  /** The parsing level whose rule builds `n`: 0 for `+ -`, 1 for `* /`, 2 for a term. */
  function Level(n: Node): (l: nat)
    ensures l <= 2
    ensures n.LiteralNode? <==> l == 2
  {
    match n
    case LiteralNode(_) => 2
    case BinaryNode(_, op, _) => if IsAdditive(op) then 0 else 1
  }

  /** The parser for level `lvl`. */
  function At(lvl: nat, ts: seq<LegacyToken>, i: nat): LegacyParse
    requires i <= |ts|
  {
    if lvl == 0 then ExprFrom(ts, i) else if lvl == 1 then FactorsFrom(ts, i) else TermsFrom(ts, i)
  }

  /**
    * The tokens of `n` in a context of level `lvl`: a tree of a looser level is
    * parenthesised; a binary node's left operand is printed one level tighter, since
    * both levels group to the right; a negative literal is a minus before its magnitude.
    */
  function Print(n: Node, lvl: nat): (u: seq<LegacyToken>)
    requires ArithmeticOnly(n)
    ensures |u| > 0
    decreases n, lvl
  {
    if Level(n) < lvl then [ParenToken('(')] + Print(n, 0) + [ParenToken(')')]
    else
      match n
      case LiteralNode(v) => if v < 0.0 then [OperatorToken('-'), LiteralToken(-v)] else [LiteralToken(v)]
      case BinaryNode(l, op, r) => Print(l, Level(n) + 1) + [OperatorToken(op)] + Print(r, Level(n))
  }

  /** Position `k` ends a parse at level `lvl`: the tokens end, or the next token is no operator of that level or tighter. */
  predicate StopsAt(lvl: nat, ts: seq<LegacyToken>, k: nat) {
    k <= |ts| &&
    (k < |ts| && ts[k].OperatorToken? ==>
       (lvl == 0 ==> !IsAdditive(ts[k].op)) && (lvl <= 1 ==> !IsMultiplicative(ts[k].op)))
  }

  /** A parse at a tighter level that stops also stands for every looser level. */
  lemma {:induction false} Lift(lvl: nat, p: nat, ts: seq<LegacyToken>, i: nat, n: Node, k: nat)
    requires lvl <= p <= 2 && i <= |ts|
    requires At(p, ts, i) == Parsed(n, k) && StopsAt(lvl, ts, k)
    ensures At(lvl, ts, i) == Parsed(n, k)
    decreases p - lvl
  {
    if lvl < p {
      Lift(lvl + 1, p, ts, i, n, k);
    }
  }

  /** A literal, with a leading minus when it is negative, parses back to itself as a term. */
  lemma PrintedLiteral(v: real, ts: seq<LegacyToken>, i: nat)
    requires Occurs(Print(LiteralNode(v), 2), ts, i)
    ensures TermsFrom(ts, i) == Parsed(LiteralNode(v), i + |Print(LiteralNode(v), 2)|)
  {
    if v < 0.0 {
      assert ts[i] == OperatorToken('-') && ts[i + 1] == LiteralToken(-v) by {
        assert ts[i + 0] == Print(LiteralNode(v), 2)[0];
        assert ts[i + 1] == Print(LiteralNode(v), 2)[1];
      }
      assert -1.0 * -v == v;
    } else {
      assert ts[i + 0] == Print(LiteralNode(v), 2)[0];
    }
  }

  /**
    * Round trip: the tokens `Print(n, lvl)` placed at position `i`, where the parse of
    * level `lvl` stops after them, parse at that level to exactly `n`, consuming all of them.
    */
  lemma {:induction false} PrintParses(n: Node, lvl: nat, ts: seq<LegacyToken>, i: nat)
    requires ArithmeticOnly(n) && lvl <= 2
    requires Occurs(Print(n, lvl), ts, i) && StopsAt(lvl, ts, i + |Print(n, lvl)|)
    ensures At(lvl, ts, i) == Parsed(n, i + |Print(n, lvl)|)
    decreases n, if Level(n) < lvl then 4 else 2
  {
    var u := Print(n, lvl);
    if Level(n) < lvl {
      PrintedParens(n, Print(n, 0), ts, i);
      Lift(lvl, 2, ts, i, n, i + |u|);
    } else if n.LiteralNode? {
      PrintedLiteral(n.value, ts, i);
      Lift(lvl, 2, ts, i, n, i + |u|);
    } else {
      PrintedBinary(n, Level(n), u, ts, i);
      Lift(lvl, Level(n), ts, i, n, i + |u|);
    }
  }

  /** A binary node printed at its own level parses back at that level. */
  lemma {:induction false} PrintedBinary(n: Node, p: nat, u: seq<LegacyToken>, ts: seq<LegacyToken>, i: nat)
    requires n.BinaryNode? && ArithmeticOnly(n) && p == Level(n) && u == Print(n, p)
    requires Occurs(u, ts, i) && StopsAt(p, ts, i + |u|)
    ensures At(p, ts, i) == Parsed(n, i + |u|)
    decreases n, 1
  {
    var a := Print(n.left, p + 1);
    var b := Print(n.right, p);
    assert u == a + [OperatorToken(n.operator)] + b;
    OccursThree(a, OperatorToken(n.operator), b, ts, i);
    PrintedOperands(n, p, a, b, ts, i);
    OperandsCombine(p, ts, i, n.left, i + |a|, n.operator, n.right, i + |u|);
  }

  /** A parenthesised tree parses, as a term, to its content. */
  lemma {:induction false} PrintedParens(n: Node, v: seq<LegacyToken>, ts: seq<LegacyToken>, i: nat)
    requires ArithmeticOnly(n) && v == Print(n, 0)
    requires Occurs([ParenToken('(')] + v + [ParenToken(')')], ts, i)
    ensures TermsFrom(ts, i) == Parsed(n, i + |v| + 2)
    decreases n, 3
  {
    OccursConcat([ParenToken('(')] + v, [ParenToken(')')], ts, i);
    OccursTwo(ParenToken('('), v, ts, i);
    assert ts[i + 1 + |v|] == ParenToken(')') by {
      assert [ParenToken(')')][0] == ParenToken(')');
    }
    PrintParses(n, 0, ts, i + 1);
  }

  /** Both operands of a binary node parse back in place, the left one level tighter. */
  lemma {:induction false} PrintedOperands(n: Node, p: nat, a: seq<LegacyToken>, b: seq<LegacyToken>, ts: seq<LegacyToken>, i: nat)
    requires n.BinaryNode? && ArithmeticOnly(n) && p == Level(n)
    requires a == Print(n.left, p + 1) && b == Print(n.right, p)
    requires Occurs(a, ts, i) && Occurs(b, ts, i + |a| + 1) && ts[i + |a|] == OperatorToken(n.operator)
    requires StopsAt(p, ts, i + |a| + 1 + |b|)
    ensures At(p + 1, ts, i) == Parsed(n.left, i + |a|)
    ensures At(p, ts, i + |a| + 1) == Parsed(n.right, i + |a| + 1 + |b|)
    decreases n, 0
  {
    PrintParses(n.left, p + 1, ts, i);
    PrintParses(n.right, p, ts, i + |a| + 1);
  }

  /** An operand, its level's operator and a further parse at that level make one binary node. */
  lemma OperandsCombine(p: nat, ts: seq<LegacyToken>, i: nat, l: Node, j: nat, op: char, r: Node, k: nat)
    requires p <= 1 && i <= |ts| && j < |ts|
    requires At(p + 1, ts, i) == Parsed(l, j)
    requires ts[j] == OperatorToken(op) && (if p == 0 then IsAdditive(op) else IsMultiplicative(op))
    requires At(p, ts, j + 1) == Parsed(r, k)
    ensures At(p, ts, i) == Parsed(BinaryNode(l, op, r), k)
  {}

  /** A printed line parses back to its tree, with every token consumed. */
  lemma {:induction false} LineParsesBack(n: Node)
    requires ArithmeticOnly(n)
    ensures ExprFrom(Print(n, 0), 0) == Parsed(n, |Print(n, 0)|)
  {
    var u := Print(n, 0);
    assert Occurs(u, u, 0);
    PrintParses(n, 0, u, 0);
  }

  /** Two trees with the same printed tokens are the same tree. */
  lemma {:induction false} PrintInjective(n1: Node, n2: Node)
    requires ArithmeticOnly(n1) && ArithmeticOnly(n2) && Print(n1, 0) == Print(n2, 0)
    ensures n1 == n2
  {
    LineParsesBack(n1);
    LineParsesBack(n2);
  }

  /** A failed evaluation under a unary minus is always a division by zero. */
  lemma {:induction false} UnaryErrors(lvl: nat, ts: seq<LegacyToken>, i: nat)
    requires lvl <= 2 && i <= |ts|
    ensures At(lvl, ts, i).Failed? && At(lvl, ts, i).error.EvalFailed? ==> At(lvl, ts, i).error.error == DivideByZero
    decreases |ts| - i, 2 - lvl
  {
    if lvl == 0 {
      UnaryErrors(1, ts, i);
      var f := FactorsFrom(ts, i);
      if f.Parsed? && f.next < |ts| {
        UnaryErrors(0, ts, f.next + 1);
      }
    } else if lvl == 1 {
      UnaryErrors(2, ts, i);
      var t := TermsFrom(ts, i);
      if t.Parsed? && t.next < |ts| {
        UnaryErrors(1, ts, t.next + 1);
      }
    } else if i < |ts| {
      if ts[i] == OperatorToken('-') {
        UnaryErrors(2, ts, i + 1);
        var t := TermsFrom(ts, i + 1);
        if t.Parsed? {
          ArithmeticErrors(t.node);
        }
      } else if ts[i] == ParenToken('(') {
        UnaryErrors(0, ts, i + 1);
      }
    }
  }

  /**
    * Every arithmetic failure of a line is a division by zero, whether it happens while
    * folding a unary minus or while evaluating the tree: no tree the parser builds makes
    * `evaluate` return no number.
    */
  lemma LineErrors(line: string)
    ensures CalculateOf(line).Err? && CalculateOf(line).error.BadValue? ==> CalculateOf(line).error.value == DivideByZero
    ensures CalculateOf(line).Err? && CalculateOf(line).error.BadParse? && CalculateOf(line).error.parse.EvalFailed? ==>
              CalculateOf(line).error.parse.error == DivideByZero
  {
    var sc := ScanOf(line);
    if sc.Scanned? {
      var e := ExprFrom(sc.tokens, 0);
      UnaryErrors(0, sc.tokens, 0);
      assert At(0, sc.tokens, 0) == e;
      if e.Failed? {
        assert CalculateOf(line) == Err(BadParse(e.error));
      }
    }
  }

  /**
    * An unrecognised character ends the line: the loop goes on with the tokens before it,
    * so the line gives what the text before that character gives.
    */
  lemma StopsAtUnrecognised(line: string, k: nat)
    requires k < |line| && Unrecognised(line[k])
    requires ScanOf(line[..k]).Scanned? && ScanOf(line[..k]).stoppedAt.None?
    ensures CalculateOf(line) == CalculateOf(line[..k])
  {
    ScanKeepsPrefix(line, 0, k);
  }

  /** A non-negative literal prints as its own token at every level. */
  lemma PrintLiteral(v: real, lvl: nat)
    requires v >= 0.0 && lvl <= 2
    ensures Print(LiteralNode(v), lvl) == [LiteralToken(v)]
  {
  }

  /** A tree printed as `u` parses back from `u`. */
  lemma ParsesAs(n: Node, u: seq<LegacyToken>)
    requires ArithmeticOnly(n) && Print(n, 0) == u
    ensures ExprFrom(u, 0) == Parsed(n, |u|)
  {
    LineParsesBack(n);
  }

  /** `a - b - c` groups to the right, as `a - (b - c)`, and its value is `a - b + c`. */
  lemma SubtractionGroupsRight(a: real, b: real, c: real)
    requires a >= 0.0 && b >= 0.0 && c >= 0.0
    ensures ExprFrom([LiteralToken(a), OperatorToken('-'), LiteralToken(b), OperatorToken('-'), LiteralToken(c)], 0) ==
              Parsed(BinaryNode(LiteralNode(a), '-', BinaryNode(LiteralNode(b), '-', LiteralNode(c))), 5)
    ensures Evaluate(BinaryNode(LiteralNode(a), '-', BinaryNode(LiteralNode(b), '-', LiteralNode(c)))) == Ok(a - b + c)
  {
    var A, B, C := LiteralNode(a), LiteralNode(b), LiteralNode(c);
    var r := BinaryNode(B, '-', C);
    assert ArithmeticOnly(A) && ArithmeticOnly(B) && ArithmeticOnly(C);
    PrintLiteral(a, 1);
    PrintLiteral(b, 1);
    PrintLiteral(c, 0);
    assert Print(r, 0) == Print(B, 1) + [OperatorToken('-')] + Print(C, 0);
    assert Print(BinaryNode(A, '-', r), 0) == Print(A, 1) + [OperatorToken('-')] + Print(r, 0);
    var u := [LiteralToken(a), OperatorToken('-'), LiteralToken(b), OperatorToken('-'), LiteralToken(c)];
    assert Print(BinaryNode(A, '-', r), 0) == u by {
      assert [LiteralToken(a)] + [OperatorToken('-')] + ([LiteralToken(b)] + [OperatorToken('-')] + [LiteralToken(c)]) == u;
    }
    ParsesAs(BinaryNode(A, '-', r), u);
    assert Evaluate(r) == Ok(b - c);
  }

  /** `a + b * c` makes the product the right operand of the sum. */
  lemma ProductInsideSum(a: real, b: real, c: real)
    requires a >= 0.0 && b >= 0.0 && c >= 0.0
    ensures ExprFrom([LiteralToken(a), OperatorToken('+'), LiteralToken(b), OperatorToken('*'), LiteralToken(c)], 0) ==
              Parsed(BinaryNode(LiteralNode(a), '+', BinaryNode(LiteralNode(b), '*', LiteralNode(c))), 5)
  {
    var A, B, C := LiteralNode(a), LiteralNode(b), LiteralNode(c);
    var m := BinaryNode(B, '*', C);
    assert ArithmeticOnly(A) && ArithmeticOnly(B) && ArithmeticOnly(C);
    PrintLiteral(a, 1);
    PrintLiteral(b, 2);
    PrintLiteral(c, 1);
    assert Print(m, 0) == Print(B, 2) + [OperatorToken('*')] + Print(C, 1);
    assert Print(BinaryNode(A, '+', m), 0) == Print(A, 1) + [OperatorToken('+')] + Print(m, 0);
    var u := [LiteralToken(a), OperatorToken('+'), LiteralToken(b), OperatorToken('*'), LiteralToken(c)];
    assert Print(BinaryNode(A, '+', m), 0) == u by {
      assert [LiteralToken(a)] + [OperatorToken('+')] + ([LiteralToken(b)] + [OperatorToken('*')] + [LiteralToken(c)]) == u;
    }
    ParsesAs(BinaryNode(A, '+', m), u);
  }

  /** An operator at the end of the tokens takes the implicit 0 as its right operand: `a +` is `a + 0`. */
  lemma TrailingOperator(a: real)
    ensures ExprFrom([LiteralToken(a), OperatorToken('+')], 0) ==
              Parsed(BinaryNode(LiteralNode(a), '+', LiteralNode(0.0)), 2)
  {
    var ts := [LiteralToken(a), OperatorToken('+')];
    assert FactorsFrom(ts, 0) == Parsed(LiteralNode(a), 1);
    assert ExprFrom(ts, 2) == Parsed(LiteralNode(0.0), 2);
  }

  /** The minus folds into its term only: `- a + b` is `(-a) + b`. */
  lemma MinusFoldsOneTerm(a: real, b: real)
    ensures ExprFrom([OperatorToken('-'), LiteralToken(a), OperatorToken('+'), LiteralToken(b)], 0) ==
              Parsed(BinaryNode(LiteralNode(-1.0 * a), '+', LiteralNode(b)), 4)
  {
    var ts := [OperatorToken('-'), LiteralToken(a), OperatorToken('+'), LiteralToken(b)];
    assert TermsFrom(ts, 1) == Parsed(LiteralNode(a), 2);
    assert TermsFrom(ts, 0) == Parsed(LiteralNode(-1.0 * a), 2);
    assert FactorsFrom(ts, 0) == Parsed(LiteralNode(-1.0 * a), 2);
    assert TermsFrom(ts, 3) == Parsed(LiteralNode(b), 4);
    assert FactorsFrom(ts, 3) == Parsed(LiteralNode(b), 4);
    assert ExprFrom(ts, 3) == Parsed(LiteralNode(b), 4);
  }

  /** A division by zero under a minus is found while parsing: `- (a / 0)` fails before any tree exists. */
  lemma ZeroDivisorUnderMinus(a: real)
    ensures ExprFrom([OperatorToken('-'), ParenToken('('), LiteralToken(a), OperatorToken('/'), LiteralToken(0.0), ParenToken(')')], 0) ==
              Failed(EvalFailed(DivideByZero))
  {
    var ts := [OperatorToken('-'), ParenToken('('), LiteralToken(a), OperatorToken('/'), LiteralToken(0.0), ParenToken(')')];
    var q := BinaryNode(LiteralNode(a), '/', LiteralNode(0.0));
    assert FactorsFrom(ts, 4) == Parsed(LiteralNode(0.0), 5);
    assert FactorsFrom(ts, 2) == Parsed(q, 5);
    assert ExprFrom(ts, 2) == Parsed(q, 5);
    assert TermsFrom(ts, 1) == Parsed(q, 6);
    assert TermsFrom(ts, 0) == Failed(EvalFailed(DivideByZero));
  }
}
