/**
  * The earlier, self-contained calculator: a scanner for digits, the four operators and parentheses,
  * a two-level recursive-descent parser that folds unary minus into literals, and a
  * tree evaluator. It shares only the character classes and the number run with the
  * current scanner.
  */
module Legacy {
  import opened Wrappers
  import opened Text
  import S = Scanning

  /** The three token classes; each is displayed by its payload. */
  datatype LegacyToken =
    | LiteralToken(value: real)
    | OperatorToken(op: char)
    | ParenToken(paren: char)
  {
    function Repr(): (r: string)
      ensures LiteralToken? && 0.0 <= value < 10000000000000000.0 && value == value.Floor as real ==>
                r == IntToString(value.Floor) + ".0"
      ensures OperatorToken? ==> r == [op]
      ensures ParenToken? ==> r == [paren]
    {
      match this
      case LiteralToken(v) => FloatRepr(v)
      case OperatorToken(o) => [o]
      case ParenToken(p) => [p]
    }
  }

  /** The scanner's fatal errors: a second point in a number, or a run `float` cannot read. */
  datatype ScanError = TwoDecimalPoints | NotANumber(literal: string)

  /** A number read from a run of digits and points: its value and the position after it. */
  datatype Literal = Literal(value: real, next: nat)

  /** The number starting at position `i`: the maximal run of `0123456789.`, read by `float`. */
  function NumberAt(t: string, i: nat): (r: Result<Literal, ScanError>)
    requires i < |t| && IsNumberChar(t[i])
    ensures r.Ok? ==> i < r.value.next == S.NumberEnd(t, i) <= |t|
    ensures r.Err? && r.error == TwoDecimalPoints <==> CountDots(t[i..S.NumberEnd(t, i)]) > 1
  {
    S.NumberEndMaximal(t, i);
    var j := S.NumberEnd(t, i);
    var lit := t[i..j];
    if CountDots(lit) > 1 then Err(TwoDecimalPoints)
    else match DecimalValue(lit)
         case None => Err(NotANumber(lit))
         case Some(v) => Ok(Literal(v, j))
  }

  /**
    * The result of a scan: the tokens, and the position of the unrecognised character that
    * stopped it, if any; or a fatal error.
    */
  datatype Scan = Scanned(tokens: seq<LegacyToken>, stoppedAt: Option<nat>) | Aborted(error: ScanError)

  function Prepend(tok: LegacyToken, r: Scan): Scan {
    if r.Scanned? then Scanned([tok] + r.tokens, r.stoppedAt) else r
  }

  /** The scan of `t` from position `i`, left to right. */
  function ScanFrom(t: string, i: nat): (r: Scan)
    requires i <= |t|
    ensures r.Scanned? && r.stoppedAt.Some? ==> i <= r.stoppedAt.value < |t|
    decreases |t| - i
  {
    if i == |t| then Scanned([], None)
    else
      var c := t[i];
      if IsNumberChar(c) then
        match NumberAt(t, i)
        case Err(e) => Aborted(e)
        case Ok(Literal(v, j)) => Prepend(LiteralToken(v), ScanFrom(t, j))
      else if S.IsOperatorChar(c) then Prepend(OperatorToken(c), ScanFrom(t, i + 1))
      else if S.IsWhitespace(c) then ScanFrom(t, i + 1)
      else if S.IsParenChar(c) then Prepend(ParenToken(c), ScanFrom(t, i + 1))
      else Scanned([], Some(i))
  }

  /** The scan of the whole line: at most one token per character, stopping only at a character no branch accepts. */
  function ScanOf(t: string): (r: Scan)
    ensures r.Scanned? ==> |r.tokens| <= |t|
    ensures r.Scanned? && r.stoppedAt.Some? ==> r.stoppedAt.value < |t| && Unrecognised(t[r.stoppedAt.value])
  {
    ScanBounded(t, 0);
    ScanFrom(t, 0)
  }

  /** A character none of the scanner's branches accepts. */
  predicate Unrecognised(c: char) {
    !IsNumberChar(c) && !S.IsOperatorChar(c) && !S.IsWhitespace(c) && !S.IsParenChar(c)
  }

  /** `tokens` followed by what is left of the scan. */
  function Prefixed(tokens: seq<LegacyToken>, r: Scan): Scan {
    if r.Scanned? then Scanned(tokens + r.tokens, r.stoppedAt) else r
  }

  lemma PrependPrefixed(before: seq<LegacyToken>, tok: LegacyToken, r: Scan)
    ensures Prefixed(before, Prepend(tok, r)) == Prefixed(before + [tok], r)
  {
    if r.Scanned? {
      assert before + ([tok] + r.tokens) == (before + [tok]) + r.tokens;
    }
  }

  /**
    * Each token takes at least one character, so at most `|t| - i` tokens come from the
    * rest of the line; a stop is at an unrecognised character.
    */
  lemma {:induction false} ScanBounded(t: string, i: nat)
    requires i <= |t|
    ensures ScanFrom(t, i).Scanned? ==> |ScanFrom(t, i).tokens| <= |t| - i
    ensures ScanFrom(t, i).Scanned? && ScanFrom(t, i).stoppedAt.Some? ==>
              i <= ScanFrom(t, i).stoppedAt.value < |t| && Unrecognised(t[ScanFrom(t, i).stoppedAt.value])
    decreases |t| - i
  {
    if i < |t| {
      var c := t[i];
      if IsNumberChar(c) {
        if NumberAt(t, i).Ok? {
          ScanBounded(t, NumberAt(t, i).value.next);
        }
      } else if S.IsOperatorChar(c) || S.IsWhitespace(c) || S.IsParenChar(c) {
        ScanBounded(t, i + 1);
      }
    }
  }

  /** The run of number characters from `i` ends at the same place in any extension past a non-number character. */
  lemma {:induction false} NumberEndPrefix(t: string, i: nat, k: nat)
    requires i <= k < |t| && !IsNumberChar(t[k])
    ensures S.NumberEnd(t, i) == S.NumberEnd(t[..k], i) <= k
    decreases k - i
  {
    if i < k && IsNumberChar(t[i]) {
      assert t[..k][i] == t[i];
      NumberEndPrefix(t, i + 1, k);
    }
  }

  /**
    * An unrecognised character at `k` stops the scan there, and the tokens of the line
    * before it are kept: the scan of `t` from `i` is the complete scan of `t[..k]` from `i`,
    * stopped at `k`.
    */
  lemma {:induction false} ScanKeepsPrefix(t: string, i: nat, k: nat)
    requires i <= k < |t| && Unrecognised(t[k])
    requires ScanFrom(t[..k], i).Scanned? && ScanFrom(t[..k], i).stoppedAt.None?
    ensures ScanFrom(t, i) == Scanned(ScanFrom(t[..k], i).tokens, Some(k))
    decreases k - i
  {
    var p := t[..k];
    if i < k {
      var c := t[i];
      assert p[i] == c;
      if IsNumberChar(c) {
        NumberEndPrefix(t, i, k);
        var j := S.NumberEnd(t, i);
        assert t[i..j] == p[i..j];
        assert NumberAt(t, i) == NumberAt(p, i);
        ScanKeepsPrefix(t, j, k);
      } else if S.IsOperatorChar(c) || S.IsWhitespace(c) || S.IsParenChar(c) {
        ScanKeepsPrefix(t, i + 1, k);
      }
    }
  }

  class Scanner {
    var text: string
    var index: nat
    var tokens: seq<LegacyToken>

    constructor ()
      ensures text == "" && index == 0 && tokens == []
    {
      text, index, tokens := "", 0, [];
    }

    /**
      * Scans `t` from scratch. On success the tokens are those of `ScanOf(t)`, also when an
      * unrecognised character stopped the scan, and the position is where it stopped.
      */
    method Scan(t: string) returns (r: Outcome<ScanError>)
      modifies this
      ensures text == t
      ensures ScanOf(t).Scanned? ==> r == Pass && tokens == ScanOf(t).tokens
      ensures ScanOf(t).Scanned? ==>
                index == (if ScanOf(t).stoppedAt.Some? then ScanOf(t).stoppedAt.value else |t|)
      ensures ScanOf(t).Aborted? ==> r == Fail(ScanOf(t).error)
    {
      text := t;
      index := 0;
      tokens := [];
      while index < |text|
        invariant text == t && index <= |text|
        invariant ScanOf(t) == Prefixed(tokens, ScanFrom(text, index))
        decreases |text| - index
      {
        ghost var before := tokens;
        var c := text[index];
        if IsNumberChar(c) {
          r := ScanNums();
          if r.Fail? {
            return;
          }
          PrependPrefixed(before, tokens[|tokens| - 1], ScanFrom(text, index));
        } else if S.IsOperatorChar(c) {
          ScanOps();
          PrependPrefixed(before, OperatorToken(c), ScanFrom(text, index));
        } else if S.IsWhitespace(c) {
          index := index + 1;
        } else if S.IsParenChar(c) {
          ScanParens();
          PrependPrefixed(before, ParenToken(c), ScanFrom(text, index));
        } else {
          return Pass;
        }
      }
      assert tokens + [] == tokens;
      return Pass;
    }

    /** Reads the number at the current position, as `NumberAt` prescribes. */
    method ScanNums() returns (r: Outcome<ScanError>)
      requires index < |text| && IsNumberChar(text[index])
      modifies this`index, this`tokens
      ensures NumberAt(text, old(index)).Err? ==> r == Fail(NumberAt(text, old(index)).error)
      ensures NumberAt(text, old(index)).Ok? ==>
                r == Pass && index == NumberAt(text, old(index)).value.next &&
                tokens == old(tokens) + [LiteralToken(NumberAt(text, old(index)).value.value)]
    {
      ghost var start := index;
      var number := "";
      var decimalFlag := true;
      while index < |text| && IsNumberChar(text[index])
        invariant start <= index <= S.NumberEnd(text, start)
        invariant number == text[start..index] && tokens == old(tokens)
        invariant S.NumberEnd(text, start) == S.NumberEnd(text, index)
        invariant CountDots(number) <= 1 && (decimalFlag <==> CountDots(number) == 0)
        decreases |text| - index
      {
        if text[index] == '.' && !decimalFlag {
          SecondPoint(text, start, index);
          r := Fail(TwoDecimalPoints);
          assert NumberAt(text, start) == Err(TwoDecimalPoints);
          return;
        }
        S.DotsStep(text, start, index);
        if text[index] == '.' {
          decimalFlag := false;
        }
        S.SliceStep(text, start, index);
        number := number + [text[index]];
        index := index + 1;
      }
      assert index == S.NumberEnd(text, start);
      ScannedNumber(text, start, number);
      var value := DecimalValue(number);
      if value.None? {
        return Fail(NotANumber(number));
      }
      tokens := tokens + [LiteralToken(value.value)];
      return Pass;
    }

    method ScanOps()
      requires index < |text| && S.IsOperatorChar(text[index])
      modifies this`index, this`tokens
      ensures index == old(index) + 1
      ensures tokens == old(tokens) + [OperatorToken(text[old(index)])]
    {
      tokens := tokens + [OperatorToken(text[index])];
      index := index + 1;
    }

    method ScanParens()
      requires index < |text| && S.IsParenChar(text[index])
      modifies this`index, this`tokens
      ensures index == old(index) + 1
      ensures tokens == old(tokens) + [ParenToken(text[old(index)])]
    {
      tokens := tokens + [ParenToken(text[index])];
      index := index + 1;
    }
  }

  /** A run with at most one point is read by `float`: `NumberAt` is its decimal value. */
  lemma ScannedNumber(t: string, i: nat, number: string)
    requires i < |t| && IsNumberChar(t[i]) && number == t[i..S.NumberEnd(t, i)] && CountDots(number) <= 1
    ensures AllNumberChars(number)
    ensures NumberAt(t, i) == match DecimalValue(number)
                              case None => Err(NotANumber(number))
                              case Some(v) => Ok(Literal(v, S.NumberEnd(t, i)))
  {
    S.NumberEndMaximal(t, i);
  }

  /** A second point inside the run makes the number fatal. */
  lemma SecondPoint(t: string, i: nat, k: nat)
    requires i < |t| && IsNumberChar(t[i])
    requires i <= k < S.NumberEnd(t, i) && t[k] == '.' && CountDots(t[i..k]) == 1
    ensures NumberAt(t, i) == Err(TwoDecimalPoints)
  {
    S.DotsStep(t, i, k);
    DotsPrefix(t, i, k + 1, S.NumberEnd(t, i));
  }

  /** A slice has no fewer points than any of its prefixes. */
  lemma DotsPrefix(t: string, i: nat, k: nat, j: nat)
    requires i <= k <= j <= |t|
    ensures CountDots(t[i..k]) <= CountDots(t[i..j])
  {
    CountDotsSplit(t[i..j], k - i);
    assert t[i..j][..k - i] == t[i..k];
  }

  /** The tree the parser builds: literals and binary nodes. */
  datatype Node = LiteralNode(value: real) | BinaryNode(left: Node, operator: char, right: Node)

  /**
    * Evaluation errors: division by zero is fatal; an operator other than the four
    * arithmetic ones makes Python's `evaluate` return no number.
    */
  datatype EvalError = DivideByZero | NoValue(operator: char)

  /** A node's value: the left operand first, then the right, then the operator. */
  function Evaluate(n: Node): (r: Result<real, EvalError>)
    ensures n.LiteralNode? ==> r == Ok(n.value)
    ensures r.Ok? && n.BinaryNode? && n.operator == '/' ==> Evaluate(n.right).Ok? && Evaluate(n.right).value != 0.0
    ensures r.Ok? && n.BinaryNode? ==> Evaluate(n.left).Ok? && Evaluate(n.right).Ok?
  {
    match n
    case LiteralNode(v) => Ok(v)
    case BinaryNode(left, op, right) =>
      match Evaluate(left)
      case Err(e) => Err(e)
      case Ok(l) =>
        match Evaluate(right)
        case Err(e) => Err(e)
        case Ok(r) =>
          if op == '+' then Ok(l + r)
          else if op == '-' then Ok(l - r)
          else if op == '*' then Ok(l * r)
          else if op == '/' then (if r == 0.0 then Err(DivideByZero) else Ok(l / r))
          else Err(NoValue(op))
  }

  /** A binary node fails with its left child's error, else with its right child's. */
  lemma EvaluateErrors(l: Node, op: char, r: Node)
    ensures Evaluate(l).Err? ==> Evaluate(BinaryNode(l, op, r)) == Evaluate(l)
    ensures Evaluate(l).Ok? && Evaluate(r).Err? ==> Evaluate(BinaryNode(l, op, r)) == Evaluate(r)
  {
  }

  /**
    * A binary node whose children have the values `a` and `b` has the value of its operator
    * applied to them; `/` fails exactly on a zero divisor, and any other operator gives no value.
    */
  lemma EvaluateBinary(l: Node, op: char, r: Node, a: real, b: real)
    requires Evaluate(l) == Ok(a) && Evaluate(r) == Ok(b)
    ensures op == '+' ==> Evaluate(BinaryNode(l, op, r)).Ok? && Evaluate(BinaryNode(l, op, r)).value == a + b
    ensures op == '-' ==> Evaluate(BinaryNode(l, op, r)).Ok? && Evaluate(BinaryNode(l, op, r)).value == a - b
    ensures op == '*' ==> Evaluate(BinaryNode(l, op, r)).Ok? && Evaluate(BinaryNode(l, op, r)).value == a * b
    ensures op == '/' && b == 0.0 ==> Evaluate(BinaryNode(l, op, r)) == Err(DivideByZero)
    ensures op == '/' && b != 0.0 ==> Evaluate(BinaryNode(l, op, r)).Ok? && Evaluate(BinaryNode(l, op, r)).value == a / b
    ensures op != '+' && op != '-' && op != '*' && op != '/' ==> Evaluate(BinaryNode(l, op, r)) == Err(NoValue(op))
  {
  }

  predicate IsAdditive(c: char) { c == '+' || c == '-' }
  predicate IsMultiplicative(c: char) { c == '*' || c == '/' }

  /** Every operator in the tree is one of the four arithmetic operators. */
  predicate ArithmeticOnly(n: Node) {
    match n
    case LiteralNode(_) => true
    case BinaryNode(l, op, r) => (IsAdditive(op) || IsMultiplicative(op)) && ArithmeticOnly(l) && ArithmeticOnly(r)
  }

  /** No `/` node in the tree. */
  predicate DivisionFree(n: Node) {
    match n
    case LiteralNode(_) => true
    case BinaryNode(l, op, r) => op != '/' && DivisionFree(l) && DivisionFree(r)
  }

  /** A tree of `+`, `-` and `*` nodes always has a value. */
  lemma {:induction false} DivisionFreeEvaluates(n: Node)
    requires ArithmeticOnly(n) && DivisionFree(n)
    ensures Evaluate(n).Ok?
  {
    if n.BinaryNode? {
      DivisionFreeEvaluates(n.left);
      DivisionFreeEvaluates(n.right);
    }
  }

  /** The only error of an arithmetic tree is a division by zero. */
  lemma {:induction false} ArithmeticErrors(n: Node)
    requires ArithmeticOnly(n)
    ensures Evaluate(n).Err? ==> Evaluate(n).error == DivideByZero
  {
    if n.BinaryNode? {
      ArithmeticErrors(n.left);
      ArithmeticErrors(n.right);
    }
  }

  /** The parser's fatal errors. */
  datatype ParseError =
    | InvalidSyntax            // no term starts with this token
    | ExpectedCloseParen       // a `(` whose expression is followed by another token
    | UnclosedAtEnd            // a `(` whose expression runs to the end (Python's IndexError)
    | EvalFailed(error: EvalError) // evaluating the operand of a unary minus failed

  datatype LegacyParse = Parsed(node: Node, next: nat) | Failed(error: ParseError)

  /** An additive expression from position `i`: a product, then optionally `+` or `-` and an expression. */
  function ExprFrom(ts: seq<LegacyToken>, i: nat): (r: LegacyParse)
    requires i <= |ts|
    ensures r.Parsed? ==> i <= r.next <= |ts| && ArithmeticOnly(r.node)
    decreases |ts| - i, 2
  {
    match FactorsFrom(ts, i)
    case Failed(x) => Failed(x)
    case Parsed(left, j) =>
      if j < |ts| && ts[j].OperatorToken? && IsAdditive(ts[j].op) then
        match ExprFrom(ts, j + 1)
        case Failed(x) => Failed(x)
        case Parsed(right, k) => Parsed(BinaryNode(left, ts[j].op, right), k)
      else
        Parsed(left, j)
  }

  /** A product from position `i`: a term, then optionally `*` or `/` and a product. */
  function FactorsFrom(ts: seq<LegacyToken>, i: nat): (r: LegacyParse)
    requires i <= |ts|
    ensures r.Parsed? ==> i <= r.next <= |ts| && ArithmeticOnly(r.node)
    decreases |ts| - i, 1
  {
    match TermsFrom(ts, i)
    case Failed(x) => Failed(x)
    case Parsed(left, j) =>
      if j < |ts| && ts[j].OperatorToken? && IsMultiplicative(ts[j].op) then
        match FactorsFrom(ts, j + 1)
        case Failed(x) => Failed(x)
        case Parsed(right, k) => Parsed(BinaryNode(left, ts[j].op, right), k)
      else
        Parsed(left, j)
  }

  /**
    * A term from position `i`: 0 at the end of the tokens, a literal, a minus folded into
    * the literal of its operand's value, or a parenthesised expression.
    */
  function TermsFrom(ts: seq<LegacyToken>, i: nat): (r: LegacyParse)
    requires i <= |ts|
    ensures r.Parsed? ==> i <= r.next <= |ts| && ArithmeticOnly(r.node)
    ensures i == |ts| ==> r == Parsed(LiteralNode(0.0), i)
    decreases |ts| - i, 0
  {
    if i == |ts| then Parsed(LiteralNode(0.0), i)
    else
      var t := ts[i];
      if t.LiteralToken? then Parsed(LiteralNode(t.value), i + 1)
      else if t == OperatorToken('-') then
        match TermsFrom(ts, i + 1)
        case Failed(x) => Failed(x)
        case Parsed(n, j) =>
          match Evaluate(n)
          case Err(e) => Failed(EvalFailed(e))
          case Ok(v) => Parsed(LiteralNode(-1.0 * v), j)
      else if t == ParenToken('(') then
        match ExprFrom(ts, i + 1)
        case Failed(x) => Failed(x)
        case Parsed(n, j) =>
          if j == |ts| then Failed(UnclosedAtEnd)
          else if ts[j] != ParenToken(')') then Failed(ExpectedCloseParen)
          else Parsed(n, j + 1)
      else Failed(InvalidSyntax)
  }

  /** A method's result paired with the position it left the parser at. */
  function Located(r: Result<Node, ParseError>, at: nat): LegacyParse {
    match r
    case Ok(n) => Parsed(n, at)
    case Err(x) => Failed(x)
  }

  class Parser {
    var ast: Option<Node>
    var index: nat
    var tokens: seq<LegacyToken>

    constructor ()
      ensures ast == None && index == 0 && tokens == []
    {
      ast, index, tokens := None, 0, [];
    }

    function EndOfTokens(): (b: bool)
      reads this
      ensures b <==> index >= |tokens|
    {
      index >= |tokens|
    }

    method MovePointer()
      modifies this`index
      ensures index == old(index) + 1
    {
      index := index + 1;
    }

    /** Resets the state to `ts` and parses one expression into `ast`; later tokens are ignored. */
    method Parse(ts: seq<LegacyToken>) returns (r: Outcome<ParseError>)
      modifies this
      ensures tokens == ts
      ensures r.Pass? <==> ExprFrom(ts, 0).Parsed?
      ensures r.Pass? ==> ast == Some(ExprFrom(ts, 0).node) && index == ExprFrom(ts, 0).next
      ensures r.Fail? ==> r.error == ExprFrom(ts, 0).error
    {
      tokens := ts;
      index := 0;
      ast := None;
      var expr := ParseExpr();
      if expr.Err? {
        return Fail(expr.error);
      }
      ast := Some(expr.value);
      return Pass;
    }

    /** The value of the parsed tree. */
    function EvaluateAst(): (r: Result<real, EvalError>)
      reads this
      requires ast.Some?
      ensures ast.value.LiteralNode? ==> r == Ok(ast.value.value)
    {
      Evaluate(ast.value)
    }

    method ParseExpr() returns (r: Result<Node, ParseError>)
      requires index <= |tokens|
      modifies this`index
      ensures Located(r, index) == ExprFrom(tokens, old(index))
      decreases |tokens| - index, 2
    {
      var left := ParseFactors();
      if left.Err? {
        return left;
      }
      if !EndOfTokens() && tokens[index].OperatorToken? && IsAdditive(tokens[index].op) {
        var operator := tokens[index].op;
        MovePointer();
        var right := ParseExpr();
        if right.Err? {
          return right;
        }
        return Ok(BinaryNode(left.value, operator, right.value));
      }
      return left;
    }

    method ParseFactors() returns (r: Result<Node, ParseError>)
      requires index <= |tokens|
      modifies this`index
      ensures Located(r, index) == FactorsFrom(tokens, old(index))
      decreases |tokens| - index, 1
    {
      var left := ParseTerms();
      if left.Err? {
        return left;
      }
      if !EndOfTokens() && tokens[index].OperatorToken? && IsMultiplicative(tokens[index].op) {
        var operator := tokens[index].op;
        MovePointer();
        var right := ParseFactors();
        if right.Err? {
          return right;
        }
        return Ok(BinaryNode(left.value, operator, right.value));
      }
      return left;
    }

    method ParseTerms() returns (r: Result<Node, ParseError>)
      requires index <= |tokens|
      modifies this`index
      ensures Located(r, index) == TermsFrom(tokens, old(index))
      decreases |tokens| - index, 0
    {
      if EndOfTokens() {
        return Ok(LiteralNode(0.0));
      }
      var t := tokens[index];
      if t.LiteralToken? {
        MovePointer();
        return Ok(LiteralNode(t.value));
      } else if t.OperatorToken? && t.op == '-' {
        MovePointer();
        var node := ParseTerms();
        if node.Err? {
          return node;
        }
        var value := Evaluate(node.value);
        if value.Err? {
          return Err(EvalFailed(value.error));
        }
        return Ok(LiteralNode(-1.0 * value.value));
      } else if t.ParenToken? && t.paren == '(' {
        MovePointer();
        var node := ParseExpr();
        if node.Err? {
          return node;
        }
        if EndOfTokens() {
          return Err(UnclosedAtEnd);
        }
        if !tokens[index].ParenToken? || tokens[index].paren != ')' {
          return Err(ExpectedCloseParen);
        }
        MovePointer();
        return node;
      } else {
        return Err(InvalidSyntax);
      }
    }
  }

  /** Why a line gave no value: its scan, its parse or its evaluation failed. */
  datatype LineError = BadScan(scan: ScanError) | BadParse(parse: ParseError) | BadValue(value: EvalError)

  /** One line of the loop: the scan of the line, the parse of its tokens, the value of the tree. */
  function CalculateOf(line: string): (r: Result<real, LineError>)
    ensures r.Err? && r.error.BadValue? ==> r.error.value == DivideByZero
  {
    match ScanOf(line)
    case Aborted(e) => Err(BadScan(e))
    case Scanned(ts, _) =>
      match ExprFrom(ts, 0)
      case Failed(e) => Err(BadParse(e))
      case Parsed(n, _) =>
        ArithmeticErrors(n);
        match Evaluate(n)
        case Err(e) => Err(BadValue(e))
        case Ok(v) => Ok(v)
  }

  /**
    * The body of the read loop for one line, on the loop's scanner and parser: the value
    * it prints, or the error that ends the program.
    */
  method Calculate(s: Scanner, p: Parser, line: string) returns (r: Result<real, LineError>)
    modifies s, p
    ensures r == CalculateOf(line)
  {
    var scanned := s.Scan(line);
    if scanned.Fail? {
      return Err(BadScan(scanned.error));
    }
    var parsed := p.Parse(s.tokens);
    if parsed.Fail? {
      return Err(BadParse(parsed.error));
    }
    var value := p.EvaluateAst();
    if value.Err? {
      return Err(BadValue(value.error));
    }
    return Ok(value.value);
  }
}
