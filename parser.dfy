/**
  * The recursive-descent parser of the current pipeline. It works over the `Tokens` kinds
  * and expects the token list to end with an `EOFToken`.
  *
  * The functions `ExprAt`, `AssignmentAt`, `BinaryAt`, `UnaryAt`, `PrimaryAt`, `DeclAt`,
  * `PrintAt`, `LetAt` and `ScriptOf` say what parsing from position `i` yields. The class
  * `Parser` holds the mutable state (token list, position, script) and has one method per
  * parsing routine, each proved to agree with these functions.
  *
  * The precedence ladder is numbered 0 to 8:
  *   0 assignment, 1 logical, 2 equality, 3 relational, 4 additive,
  *   5 modulus, 6 multiplicative, 7 unary, 8 primary.
  */
module Parsing {
  import opened Wrappers
  import opened Text
  import opened Tokens
  import opened Ast

  /** The parser's fatal errors, each of which ends the session. */
  datatype SyntaxError =
    | ExpectedVariableName         // `let` not followed by a name
    | BadUnaryOperator(op: string) // a `MathOP` other than `-` or `+` in unary position
    | MissingOperand               // a primary expression was expected at `EOFToken`
    | ExpectedCloseParen           // a `(` whose expression is not followed by `)`
    | InvalidSyntax(found: Token)  // no primary expression starts with this token
    /** An error inside the operand of a unary `-` or `+`: the handler around that operand
        catches the exit, reports that an expression was expected after `op`, and exits again. */
    | AfterUnary(op: string, inner: SyntaxError)

  /** What parsing from a position yields: a value and the position after it, or an error. */
  datatype Parse<+T> = Parsed(value: T, next: nat) | Failed(error: SyntaxError)

  /** The parser's input convention: a non-empty list whose last token is `EOFToken`. */
  predicate EndsWithEOF(ts: seq<Token>) {
    |ts| > 0 && ts[|ts| - 1].EOFToken?
  }

  /** A method's result paired with the position it left the parser at. */
  function Located<T>(r: Result<T, SyntaxError>, at: nat): Parse<T> {
    match r
    case Ok(v) => Parsed(v, at)
    case Err(x) => Failed(x)
  }

  /**
    * True when token `t` makes binary level `lvl` (1 to 6) take another operand. The
    * additive and multiplicative levels test whether the operator occurs in the two-character
    * string of their operators (a Python substring test), written here as the four needles
    * that pass it (`Text.PyInPair`).
    */
  predicate Continues(lvl: nat, t: Token) {
    if lvl == 1 then t.LogicalOP?
    else if lvl == 2 then t.EqualityOP?
    else if lvl == 3 then t.RelationalOP?
    else if lvl == 4 then t.MathOP? && InPair(t.op, '+', '-')
    else if lvl == 5 then t.MathOP? && t.op == "%"
    else if lvl == 6 then t.MathOP? && InPair(t.op, '*', '/')
    else false
  }

  /** The node binary level `lvl` builds from its operator token and operands. */
  function Combine(lvl: nat, t: Token, l: Expr, r: Expr): Expr
    requires Continues(lvl, t)
  {
    if lvl == 1 then LogicalExpr(l, t.op, r)
    else if lvl == 2 then EqualityExpr(l, t.op, r)
    else if lvl == 3 then RelationalExpr(l, t.op, r)
    else if lvl == 4 then AddExpr(l, t.op, r)
    else if lvl == 5 then ModulusExpr(l, r)
    else MulExpr(l, t.op, r)
  }

  /** Parsing an expression at level `lvl` from position `i`. */
  function ExprAt(lvl: nat, ts: seq<Token>, i: nat): (r: Parse<Expr>)
    requires lvl <= 8 && EndsWithEOF(ts) && i < |ts|
    ensures r.Parsed? ==> i < r.next < |ts|
    decreases |ts| - i, 8 - lvl, 1
  {
    if lvl == 0 then AssignmentAt(ts, i)
    else if lvl <= 6 then BinaryAt(lvl, ts, i)
    else if lvl == 7 then UnaryAt(ts, i)
    else PrimaryAt(ts, i)
  }

  /**
    * Level 0: a logical expression, turned into an assignment when it is a bare name
    * followed by `=`. Otherwise the `=` is left where it is.
    */
  function AssignmentAt(ts: seq<Token>, i: nat): (r: Parse<Expr>)
    requires EndsWithEOF(ts) && i < |ts|
    ensures r.Parsed? ==> i < r.next < |ts|
    decreases |ts| - i, 8, 0
  {
    match ExprAt(1, ts, i)
    case Failed(x) => Failed(x)
    case Parsed(lv, j) =>
      if ts[j].AssignmentOP? && lv.IdentifierNode? then
        match ExprAt(1, ts, j + 1)
        case Failed(x) => Failed(x)
        case Parsed(rv, k) => Parsed(Assignment(lv.word, rv), k)
      else
        Parsed(lv, j)
  }

  /** Levels 1 to 6: an operand of the next level, then optionally an operator and this level again. */
  function BinaryAt(lvl: nat, ts: seq<Token>, i: nat): (r: Parse<Expr>)
    requires 1 <= lvl <= 6 && EndsWithEOF(ts) && i < |ts|
    ensures r.Parsed? ==> i < r.next < |ts|
    decreases |ts| - i, 8 - lvl, 0
  {
    match ExprAt(lvl + 1, ts, i)
    case Failed(x) => Failed(x)
    case Parsed(left, j) =>
      if Continues(lvl, ts[j]) then
        match ExprAt(lvl, ts, j + 1)
        case Failed(x) => Failed(x)
        case Parsed(right, k) => Parsed(Combine(lvl, ts[j], left, right), k)
      else
        Parsed(left, j)
  }

  /** Level 7: `not` and `-` wrap the unary expression after them, `+` is dropped. */
  function UnaryAt(ts: seq<Token>, i: nat): (r: Parse<Expr>)
    requires EndsWithEOF(ts) && i < |ts|
    ensures r.Parsed? ==> i < r.next < |ts|
    decreases |ts| - i, 1, 0
  {
    if ts[i].NotOP? then
      match ExprAt(7, ts, i + 1)
      case Failed(x) => Failed(x)
      case Parsed(e, j) => Parsed(NotExpr(e), j)
    else if ts[i].MathOP? then
      if ts[i].op == "-" then
        match ExprAt(7, ts, i + 1)
        case Failed(x) => Failed(AfterUnary("-", x))
        case Parsed(e, j) => Parsed(NegateExpr(e), j)
      else if ts[i].op == "+" then
        match ExprAt(7, ts, i + 1)
        case Failed(x) => Failed(AfterUnary("+", x))
        case Parsed(e, j) => Parsed(e, j)
      else
        Failed(BadUnaryOperator(ts[i].op))
    else
      PrimaryAt(ts, i)
  }

  /** Level 8: a number, a name, a Boolean, or a parenthesised expression. */
  function PrimaryAt(ts: seq<Token>, i: nat): (r: Parse<Expr>)
    requires EndsWithEOF(ts) && i < |ts|
    ensures r.Parsed? ==> i < r.next < |ts|
    decreases |ts| - i, 0, 0
  {
    var t := ts[i];
    if t.EOFToken? then Failed(MissingOperand)
    else if t.NumberToken? then Parsed(NumberNode(t.value), i + 1)
    else if t.Identifier? then Parsed(IdentifierNode(t.word), i + 1)
    else if t.Boolean? then Parsed(BooleanNode(t.truth), i + 1)
    else if t.Parenthesis? && t.symbol == "(" then
      match ExprAt(0, ts, i + 1)
      case Failed(x) => Failed(x)
      case Parsed(e, j) =>
        if ts[j] == Parenthesis(")") then Parsed(e, j + 1) else Failed(ExpectedCloseParen)
    else
      Failed(InvalidSyntax(t))
  }

  /** A `print` statement whose keyword is at position `i`. */
  function PrintAt(ts: seq<Token>, i: nat): (r: Parse<Stmt>)
    requires EndsWithEOF(ts) && i < |ts| && !ts[i].EOFToken?
    ensures r.Parsed? ==> i < r.next < |ts|
  {
    match ExprAt(0, ts, i + 1)
    case Failed(x) => Failed(x)
    case Parsed(e, j) => Parsed(PrintStmt(e), j)
  }

  /** A `let` declaration whose keyword is at position `i`. */
  function LetAt(ts: seq<Token>, i: nat): (r: Parse<Stmt>)
    requires EndsWithEOF(ts) && i < |ts| && !ts[i].EOFToken?
    ensures r.Parsed? ==> i < r.next < |ts|
    ensures !ts[i + 1].Identifier? ==> r == Failed(ExpectedVariableName)
    ensures r.Parsed? ==> r.value.LetDecl? && ts[i + 1] == Identifier(r.value.name)
    ensures r.Parsed? ==> i + 2 < |ts| && (r.value.init.None? <==> !ts[i + 2].AssignmentOP?)
    ensures r.Parsed? && r.value.init.None? ==> r.next == i + 2
  {
    var at := i + 1;
    if !ts[at].Identifier? then Failed(ExpectedVariableName)
    else if ts[at + 1].AssignmentOP? then
      match ExprAt(0, ts, at + 2)
      case Failed(x) => Failed(x)
      case Parsed(e, k) => Parsed(LetDecl(ts[at].word, Some(e)), k)
    else
      Parsed(LetDecl(ts[at].word, None), at + 1)
  }

  /** One declaration: `print`, `let`, or an expression statement. */
  function DeclAt(ts: seq<Token>, i: nat): (r: Parse<Stmt>)
    requires EndsWithEOF(ts) && i < |ts|
    ensures r.Parsed? ==> i < r.next < |ts|
    ensures r.Parsed? ==> (r.value.PrintStmt? <==> ts[i] == Identifier("print"))
    ensures r.Parsed? ==> (r.value.LetDecl? <==> ts[i] == Identifier("let"))
  {
    if ts[i] == Identifier("print") then PrintAt(ts, i)
    else if ts[i] == Identifier("let") then LetAt(ts, i)
    else
      match ExprAt(0, ts, i)
      case Failed(x) => Failed(x)
      case Parsed(e, j) => Parsed(ExprStmt(e), j)
  }

  /**
    * The script a whole token list parses to: empty when it starts with `EOFToken`,
    * otherwise the one declaration at its start. Tokens after that declaration are ignored.
    */
  function ScriptOf(ts: seq<Token>): (r: Result<seq<Stmt>, SyntaxError>)
    requires EndsWithEOF(ts)
    ensures r.Ok? ==> |r.value| <= 1
    ensures r.Ok? && r.value == [] <==> ts[0].EOFToken?
  {
    if ts[0].EOFToken? then Ok([])
    else
      match DeclAt(ts, 0)
      case Failed(x) => Err(x)
      case Parsed(s, _) => Ok([s])
  }

  class Parser {
    var script: seq<Stmt>
    var index: nat
    var tokens: seq<Token>

    constructor()
      ensures script == [] && index == 0 && tokens == []
    {
      script := [];
      index := 0;
      tokens := [];
    }

    /** The state every parsing routine starts in: an EOF-terminated list and a position in it. */
    predicate Valid()
      reads this
    {
      EndsWithEOF(tokens) && index < |tokens|
    }

    function CurrentToken(): Token
      reads this
      requires index < |tokens|
    {
      tokens[index]
    }

    function EndOfTokens(): (b: bool)
      reads this
      requires Valid()
      ensures b <==> tokens[index].EOFToken?
      ensures index == |tokens| - 1 ==> b
      ensures !b ==> index + 1 < |tokens|
    {
      CurrentToken().EOFToken?
    }

    method MovePointer()
      modifies this`index
      ensures index == old(index) + 1
    {
      index := index + 1;
    }

    /** Resets the state to `ts` and parses at most one declaration into `script`. */
    method Parse(ts: seq<Token>) returns (r: Outcome<SyntaxError>)
      requires EndsWithEOF(ts)
      modifies this
      ensures tokens == ts
      ensures ScriptOf(ts) == (if r.Pass? then Ok(script) else Err(r.error))
    {
      tokens := ts;
      index := 0;
      script := [];
      if !EndOfTokens() {
        var s := ParseDecl();
        if s.Err? {
          return Fail(s.error);
        }
        script := script + [s.value];
        assert script == [s.value];
      }
      return Pass;
    }

    method ParseDecl() returns (r: Result<Stmt, SyntaxError>)
      requires Valid()
      modifies this`index
      ensures Located(r, index) == DeclAt(tokens, old(index))
    {
      if CurrentToken().Identifier? {
        if CurrentToken().word == "print" {
          r := ParsePrintStmt();
          return;
        } else if CurrentToken().word == "let" {
          r := ParseLetStmt();
          return;
        }
      }
      var expr := ParseAssignment();
      if expr.Err? {
        return Err(expr.error);
      }
      return Ok(ExprStmt(expr.value));
    }

    method ParsePrintStmt() returns (r: Result<Stmt, SyntaxError>)
      requires Valid() && !tokens[index].EOFToken?
      modifies this`index
      ensures Located(r, index) == PrintAt(tokens, old(index))
    {
      MovePointer();
      var e := ParseAssignment();
      if e.Err? {
        return Err(e.error);
      }
      return Ok(PrintStmt(e.value));
    }

    method ParseLetStmt() returns (r: Result<Stmt, SyntaxError>)
      requires Valid() && !tokens[index].EOFToken?
      modifies this`index
      ensures Located(r, index) == LetAt(tokens, old(index))
    {
      MovePointer();
      if !CurrentToken().Identifier? {
        return Err(ExpectedVariableName);
      }
      var name := CurrentToken().word;
      MovePointer();
      if !EndOfTokens() && CurrentToken().AssignmentOP? {
        MovePointer();
        var e := ParseAssignment();
        if e.Err? {
          return Err(e.error);
        }
        return Ok(LetDecl(name, Some(e.value)));
      }
      return Ok(LetDecl(name, None));
    }

    method ParseAssignment() returns (r: Result<Expr, SyntaxError>)
      requires Valid()
      modifies this`index
      ensures Located(r, index) == AssignmentAt(tokens, old(index))
      decreases |tokens| - index, 8
    {
      var lvalue := ParseLogicalExpr();
      if lvalue.Err? {
        return lvalue;
      }
      if !EndOfTokens() && CurrentToken().AssignmentOP? && lvalue.value.IdentifierNode? {
        MovePointer();
        var rvalue := ParseLogicalExpr();
        if rvalue.Err? {
          return rvalue;
        }
        return Ok(Assignment(lvalue.value.word, rvalue.value));
      }
      return lvalue;
    }

    method ParseLogicalExpr() returns (r: Result<Expr, SyntaxError>)
      requires Valid()
      modifies this`index
      ensures Located(r, index) == BinaryAt(1, tokens, old(index))
      decreases |tokens| - index, 7
    {
      var left := ParseEqualityExpr();
      if left.Err? {
        return left;
      }
      if !EndOfTokens() && CurrentToken().LogicalOP? {
        var operator := CurrentToken().op;
        MovePointer();
        var right := ParseLogicalExpr();
        if right.Err? {
          return right;
        }
        return Ok(LogicalExpr(left.value, operator, right.value));
      }
      return left;
    }

    method ParseEqualityExpr() returns (r: Result<Expr, SyntaxError>)
      requires Valid()
      modifies this`index
      ensures Located(r, index) == BinaryAt(2, tokens, old(index))
      decreases |tokens| - index, 6
    {
      var left := ParseRelationalExpr();
      if left.Err? {
        return left;
      }
      if !EndOfTokens() && CurrentToken().EqualityOP? {
        var operator := CurrentToken().op;
        MovePointer();
        var right := ParseEqualityExpr();
        if right.Err? {
          return right;
        }
        return Ok(EqualityExpr(left.value, operator, right.value));
      }
      return left;
    }

    method ParseRelationalExpr() returns (r: Result<Expr, SyntaxError>)
      requires Valid()
      modifies this`index
      ensures Located(r, index) == BinaryAt(3, tokens, old(index))
      decreases |tokens| - index, 5
    {
      var left := ParseAddExpr();
      if left.Err? {
        return left;
      }
      if !EndOfTokens() && CurrentToken().RelationalOP? {
        var operator := CurrentToken().op;
        MovePointer();
        var right := ParseRelationalExpr();
        if right.Err? {
          return right;
        }
        return Ok(RelationalExpr(left.value, operator, right.value));
      }
      return left;
    }

    method ParseAddExpr() returns (r: Result<Expr, SyntaxError>)
      requires Valid()
      modifies this`index
      ensures Located(r, index) == BinaryAt(4, tokens, old(index))
      decreases |tokens| - index, 4
    {
      var left := ParseModuloExpr();
      if left.Err? {
        return left;
      }
      if !EndOfTokens() && CurrentToken().MathOP? && InPair(CurrentToken().op, '+', '-') {
        var operator := CurrentToken().op;
        MovePointer();
        var right := ParseAddExpr();
        if right.Err? {
          return right;
        }
        return Ok(AddExpr(left.value, operator, right.value));
      }
      return left;
    }

    method ParseModuloExpr() returns (r: Result<Expr, SyntaxError>)
      requires Valid()
      modifies this`index
      ensures Located(r, index) == BinaryAt(5, tokens, old(index))
      decreases |tokens| - index, 3
    {
      var left := ParseMulExpr();
      if left.Err? {
        return left;
      }
      if !EndOfTokens() && CurrentToken().MathOP? && CurrentToken().op == "%" {
        MovePointer();
        var right := ParseModuloExpr();
        if right.Err? {
          return right;
        }
        return Ok(ModulusExpr(left.value, right.value));
      }
      return left;
    }

    method ParseMulExpr() returns (r: Result<Expr, SyntaxError>)
      requires Valid()
      modifies this`index
      ensures Located(r, index) == BinaryAt(6, tokens, old(index))
      decreases |tokens| - index, 2
    {
      var left := ParseUnaryExpr();
      if left.Err? {
        return left;
      }
      if !EndOfTokens() && CurrentToken().MathOP? && InPair(CurrentToken().op, '*', '/') {
        var operator := CurrentToken().op;
        MovePointer();
        var right := ParseMulExpr();
        if right.Err? {
          return right;
        }
        return Ok(MulExpr(left.value, operator, right.value));
      }
      return left;
    }

    method ParseUnaryExpr() returns (r: Result<Expr, SyntaxError>)
      requires Valid()
      modifies this`index
      ensures Located(r, index) == UnaryAt(tokens, old(index))
      decreases |tokens| - index, 1
    {
      if CurrentToken().NotOP? {
        MovePointer();
        var e := ParseUnaryExpr();
        if e.Err? {
          return e;
        }
        return Ok(NotExpr(e.value));
      } else if CurrentToken().MathOP? {
        if CurrentToken().op == "-" {
          MovePointer();
          var e := ParseUnaryExpr();
          if e.Err? {
            return Err(AfterUnary("-", e.error));
          }
          return Ok(NegateExpr(e.value));
        } else if CurrentToken().op == "+" {
          MovePointer();
          var e := ParseUnaryExpr();
          if e.Err? {
            return Err(AfterUnary("+", e.error));
          }
          return e;
        } else {
          return Err(BadUnaryOperator(CurrentToken().op));
        }
      }
      r := ParsePrimaryExpr();
    }

    method ParsePrimaryExpr() returns (r: Result<Expr, SyntaxError>)
      requires Valid()
      modifies this`index
      ensures Located(r, index) == PrimaryAt(tokens, old(index))
      decreases |tokens| - index, 0
    {
      if EndOfTokens() {
        return Err(MissingOperand);
      }
      var t := CurrentToken();
      if t.NumberToken? {
        var n := NumberNode(t.value);
        MovePointer();
        return Ok(n);
      } else if t.Identifier? {
        var i := IdentifierNode(t.word);
        MovePointer();
        return Ok(i);
      } else if t.Boolean? {
        var b := BooleanNode(t.truth);
        MovePointer();
        return Ok(b);
      } else if t.Parenthesis? && t.symbol == "(" {
        MovePointer();
        var e := ParseAssignment();
        if e.Err? {
          return e;
        }
        if !CurrentToken().Parenthesis? || CurrentToken().symbol != ")" {
          return Err(ExpectedCloseParen);
        }
        MovePointer();
        return e;
      } else {
        return Err(InvalidSyntax(t));
      }
    }
  }
}
