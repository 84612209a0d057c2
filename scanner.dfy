/**
  * The character-level scanner of the current pipeline, with its own token kinds.
  * `Lex` specifies a whole scan; `Scanner.Scan` is the loop that performs it. Positions
  * are indices into the line being scanned.
  */
module Scanning {
  import opened Wrappers
  import opened Text

  datatype ScanToken =
    | NumericToken(value: real)
    | IdentifierToken(word: string)
    | OperatorToken(op: char)
    | ParenToken(paren: char)
    | EqualityToken
    | EOFToken
  {
    function Repr(): (r: string)
      ensures NumericToken? && 0.0 <= value < 10000000000000000.0 && value == value.Floor as real ==>
                r == IntToString(value.Floor) + ".0"
      ensures IdentifierToken? ==> r == word
      ensures OperatorToken? ==> r == [op]
      ensures ParenToken? ==> r == [paren]
      ensures EqualityToken? ==> r == "="
      ensures EOFToken? ==> r == "EOF"
    {
      match this
      case NumericToken(v) => FloatRepr(v)
      case IdentifierToken(w) => w
      case OperatorToken(o) => [o]
      case ParenToken(p) => [p]
      case EqualityToken => "="
      case EOFToken => "EOF"
    }
  }

  datatype LexError =
    | TooManyDecimalPoints(count: nat)   // the scanner's own check, then sys.exit
    | NotANumber(literal: string)        // float() refuses a run without a digit

  predicate IsOperatorChar(c: char) { c == '+' || c == '-' || c == '*' || c == '/' }
  predicate IsParenChar(c: char) { c == '(' || c == ')' }
  predicate IsWhitespace(c: char) { c == ' ' || c == '\t' || c == '\n' }
  predicate IsWordChar(c: char) { IsAlnum(c) || c == '_' }

  /** A character none of the scanner's branches accepts. */
  predicate IsInvalid(c: char) {
    !IsNumberChar(c) && !IsOperatorChar(c) && !IsWhitespace(c) && !IsParenChar(c) && c != '=' && !IsAlpha(c)
  }

  /** The end of the run of number characters that starts at position `i` of `t`. */
  function NumberEnd(t: string, i: nat): (j: nat)
    requires i <= |t|
    ensures i <= j <= |t|
    decreases |t| - i
  {
    if i < |t| && IsNumberChar(t[i]) then NumberEnd(t, i + 1) else i
  }

  /** `NumberEnd` ends the maximal run: number characters up to it, and none at it. */
  lemma {:induction false} NumberEndMaximal(t: string, i: nat)
    requires i <= |t|
    ensures AllNumberChars(t[i..NumberEnd(t, i)])
    ensures NumberEnd(t, i) == |t| || !IsNumberChar(t[NumberEnd(t, i)])
    decreases |t| - i
  {
    if i < |t| && IsNumberChar(t[i]) {
      NumberEndMaximal(t, i + 1);
      var j := NumberEnd(t, i);
      assert forall k :: 0 < k < j - i ==> t[i..j][k] == t[i + 1..j][k - 1];
    }
  }

  /** The end of the run of letters, digits and underscores that starts at position `i` of `t`. */
  function WordEnd(t: string, i: nat): (j: nat)
    requires i <= |t|
    ensures i <= j <= |t|
    decreases |t| - i
  {
    if i < |t| && IsWordChar(t[i]) then WordEnd(t, i + 1) else i
  }

  /** `WordEnd` ends the maximal run: word characters up to it, and none at it. */
  lemma {:induction false} WordEndMaximal(t: string, i: nat)
    requires i <= |t|
    ensures forall k :: i <= k < WordEnd(t, i) ==> IsWordChar(t[k])
    ensures WordEnd(t, i) == |t| || !IsWordChar(t[WordEnd(t, i)])
    decreases |t| - i
  {
    if i < |t| && IsWordChar(t[i]) {
      WordEndMaximal(t, i + 1);
    }
  }

  /** What the scanner does at one position: emit a token and go on at `next`, skip, stop or fail. */
  datatype Step =
    | Emit(token: ScanToken, next: nat)
    | Skip
    | Reject
    | Abort(error: LexError)

  /**
    * The step at a number character: the maximal run of digits and points is one literal;
    * more than one point is fatal, and so is a run `float` cannot read.
    */
  function NumberStep(t: string, i: nat): (r: Step)
    requires i < |t| && IsNumberChar(t[i])
    ensures r.Emit? || r.Abort?
    ensures r.Emit? ==> i < r.next <= |t| && r.token.NumericToken?
  {
    NumberEndMaximal(t, i);
    var lit := t[i..NumberEnd(t, i)];
    if CountDots(lit) > 1 then Abort(TooManyDecimalPoints(CountDots(lit)))
    else match DecimalValue(lit)
         case None => Abort(NotANumber(lit))
         case Some(v) => Emit(NumericToken(v), NumberEnd(t, i))
  }

  /** One pass of the scan loop's dispatch at position `i`, tried in the source's order. */
  function LexStep(t: string, i: nat): (r: Step)
    requires i < |t|
    ensures r.Emit? ==> i < r.next <= |t| && !r.token.EOFToken?
  {
    var c := t[i];
    if IsNumberChar(c) then NumberStep(t, i)
    else if IsOperatorChar(c) then Emit(OperatorToken(c), i + 1)
    else if IsWhitespace(c) then Skip
    else if IsParenChar(c) then Emit(ParenToken(c), i + 1)
    else if c == '=' then Emit(EqualityToken, i + 1)
    else if IsAlpha(c) then Emit(IdentifierToken(t[i..WordEnd(t, i)]), WordEnd(t, i))
    else Reject
  }

  /**
    * The result of scanning a whole line: its tokens; or, at an unrecognised character
    * with `remaining` characters left from it, an empty token list; or a fatal error.
    */
  datatype Lexed =
    | Scanned(tokens: seq<ScanToken>)
    | Rejected(remaining: nat)
    | Fatal(error: LexError)

  function Cons(t: ScanToken, r: Lexed): Lexed {
    if r.Scanned? then Scanned([t] + r.tokens) else r
  }

  /** The scan of `t` from position `i` to the end, left to right. */
  function LexFrom(t: string, i: nat): (r: Lexed)
    requires i <= |t|
    ensures r.Rejected? ==> 1 <= r.remaining <= |t| - i
    decreases |t| - i
  {
    if i == |t| then Scanned([])
    else match LexStep(t, i)
         case Emit(tok, j) => Cons(tok, LexFrom(t, j))
         case Skip => LexFrom(t, i + 1)
         case Reject => Rejected(|t| - i)
         case Abort(e) => Fatal(e)
  }

  /** The scan of the whole line `t`: at most one token per character, and never `EOF`. */
  function Lex(t: string): (r: Lexed)
    ensures r.Scanned? ==> |r.tokens| <= |t| && forall k :: 0 <= k < |r.tokens| ==> !r.tokens[k].EOFToken?
    ensures r.Rejected? ==> 1 <= r.remaining <= |t|
  {
    LexBounded(t, 0);
    LexFrom(t, 0)
  }

  /** `tokens` followed by what is left of the scan. */
  function Prefixed(tokens: seq<ScanToken>, r: Lexed): Lexed {
    if r.Scanned? then Scanned(tokens + r.tokens) else r
  }

  /**
    * How `scan_nums` leaves the scanner after reading the literal `lit`: more than one point
    * is fatal, a literal `float` cannot read is fatal, and otherwise its value is appended.
    */
  predicate NumberScanned(lit: string, r: Outcome<LexError>, before: seq<ScanToken>, after: seq<ScanToken>) {
    AllNumberChars(lit) &&
    if CountDots(lit) > 1 then r == Fail(TooManyDecimalPoints(CountDots(lit))) && after == before
    else match DecimalValue(lit)
         case None => r == Fail(NotANumber(lit)) && after == before
         case Some(v) => r == Pass && after == before + [NumericToken(v)]
  }

  lemma ConsPrefixed(before: seq<ScanToken>, t: ScanToken, r: Lexed)
    ensures Prefixed(before, Cons(t, r)) == Prefixed(before + [t], r)
  {
    if r.Scanned? {
      assert before + ([t] + r.tokens) == (before + [t]) + r.tokens;
    }
  }

  /**
    * Emitting the token the dispatch prescribes at position `i` leaves the scan unchanged
    * in sum: the scan from `i` after the tokens so far equals the scan from past the token
    * after the tokens with it appended.
    */
  lemma EmitContinues(t: string, i: nat, tok: ScanToken, j: nat, before: seq<ScanToken>)
    requires i < |t| && LexStep(t, i) == Emit(tok, j)
    ensures j <= |t|
    ensures Prefixed(before, LexFrom(t, i)) == Prefixed(before + [tok], LexFrom(t, j))
  {
    ConsPrefixed(before, tok, LexFrom(t, j));
  }

  /**
    * The number `scan_nums` reads from position `i` to `j` is the step the dispatch
    * prescribes: on success the scan goes on after it, on failure it ends with its error.
    */
  lemma NumberContinues(t: string, i: nat, j: nat, r: Outcome<LexError>, before: seq<ScanToken>, after: seq<ScanToken>)
    requires i < |t| && IsNumberChar(t[i]) && j == NumberEnd(t, i)
    requires NumberScanned(t[i..j], r, before, after)
    ensures r.Pass? ==> Prefixed(before, LexFrom(t, i)) == Prefixed(after, LexFrom(t, j))
    ensures r.Fail? ==> Prefixed(before, LexFrom(t, i)) == Fatal(r.error)
  {
    assert LexStep(t, i) == NumberStep(t, i);
    if r.Pass? {
      EmitContinues(t, i, NumericToken(DecimalValue(t[i..j]).value), j, before);
    }
  }

  /** One more character: the points of the slice grow by it. */
  lemma DotsStep(t: string, i: nat, j: nat)
    requires i <= j < |t|
    ensures CountDots(t[i..j + 1]) == CountDots(t[i..j]) + (if t[j] == '.' then 1 else 0)
  {
    assert t[i..j + 1][..j - i] == t[i..j];
  }

  lemma SliceStep(t: string, i: nat, j: nat)
    requires i <= j < |t|
    ensures t[i..j + 1] == t[i..j] + [t[j]]
  {
  }

  /**
    * Every token of a scan takes at least one character, so a scan of the `|t| - i` characters
    * from `i` yields at most that many tokens, and none of them is an end-of-input marker.
    */
  lemma {:induction false} LexBounded(t: string, i: nat)
    requires i <= |t|
    ensures LexFrom(t, i).Scanned? ==> |LexFrom(t, i).tokens| <= |t| - i
    ensures LexFrom(t, i).Scanned? ==> forall k :: 0 <= k < |LexFrom(t, i).tokens| ==> !LexFrom(t, i).tokens[k].EOFToken?
    decreases |t| - i
  {
    if i < |t| {
      match LexStep(t, i)
      case Emit(tok, j) => LexBounded(t, j);
      case Skip => LexBounded(t, i + 1);
      case Reject =>
      case Abort(_) =>
    }
  }

  /** Whitespace (space, tab, newline) emits nothing: the scan goes on at the next character. */
  lemma LexSkipsWhitespace(t: string, i: nat)
    requires i < |t| && IsWhitespace(t[i])
    ensures LexFrom(t, i) == LexFrom(t, i + 1)
  {
  }

  /** An unrecognised character ends the scan there, whatever came before it. */
  lemma LexRejectsInvalid(t: string, i: nat)
    requires i < |t| && IsInvalid(t[i])
    ensures LexFrom(t, i) == Rejected(|t| - i)
  {
  }

  /**
    * A number takes the maximal run of digits and points from its first character; with
    * more than one point the scan fails, otherwise the token holds the value of the run.
    */
  lemma NumberStepMaximal(t: string, i: nat)
    requires i < |t| && IsNumberChar(t[i])
    ensures var j := NumberEnd(t, i);
      && (forall k :: i <= k < j ==> IsNumberChar(t[k]))
      && (j == |t| || !IsNumberChar(t[j]))
      && (CountDots(t[i..j]) > 1 <==> LexStep(t, i) == Abort(TooManyDecimalPoints(CountDots(t[i..j]))))
      && (LexStep(t, i).Emit? ==> LexStep(t, i) == Emit(NumericToken(DecimalValue(t[i..j]).value), j))
  {
    var j := NumberEnd(t, i);
    NumberEndMaximal(t, i);
    forall k | i <= k < j ensures IsNumberChar(t[k]) {
      assert t[k] == t[i..j][k - i];
    }
  }

  /**
    * An identifier starts at a letter and takes the maximal run of letters, digits and
    * underscores; its word is exactly that run.
    */
  lemma IdentifierStepMaximal(t: string, i: nat)
    requires i < |t| && IsAlpha(t[i])
    ensures var j := WordEnd(t, i);
      && i < j
      && (forall k :: i <= k < j ==> IsWordChar(t[k]))
      && (j == |t| || !IsWordChar(t[j]))
      && LexStep(t, i) == Emit(IdentifierToken(t[i..j]), j)
  {
    WordEndMaximal(t, i);
  }

  /** Each operator character, parenthesis and `=` is one token of one character. */
  lemma SingleCharSteps(t: string, i: nat)
    requires i < |t|
    ensures IsOperatorChar(t[i]) ==> LexStep(t, i) == Emit(OperatorToken(t[i]), i + 1)
    ensures IsParenChar(t[i]) ==> LexStep(t, i) == Emit(ParenToken(t[i]), i + 1)
    ensures t[i] == '=' ==> LexStep(t, i) == Emit(EqualityToken, i + 1)
  {
  }

  class Scanner {
    var text: string
    var index: nat
    var tokens: seq<ScanToken>

    constructor ()
      ensures text == "" && index == 0 && tokens == []
    {
      text, index, tokens := "", 0, [];
    }

    /**
      * Scans `t` from scratch. On success the tokens are those of `Lex(t)`, or none
      * when an unrecognised character stopped the scan there.
      */
    method Scan(t: string) returns (r: Outcome<LexError>)
      modifies this
      ensures text == t
      ensures Lex(t).Scanned? ==> r == Pass && tokens == Lex(t).tokens && index == |t|
      ensures Lex(t).Rejected? ==> r == Pass && tokens == [] && index == |t| - Lex(t).remaining
      ensures Lex(t).Fatal? ==> r == Fail(Lex(t).error)
    {
      text := t;
      index := 0;
      tokens := [];
      while index < |text|
        invariant text == t && index <= |text|
        invariant Lex(t) == Prefixed(tokens, LexFrom(text, index))
        decreases |text| - index
      {
        ghost var before := tokens;
        ghost var at := index;
        var c := text[index];
        if IsNumberChar(c) {
          var ok := ScanNums();
          NumberContinues(text, at, index, ok, before, tokens);
          if ok.Fail? {
            return ok;
          }
        } else if IsOperatorChar(c) {
          ScanOp();
          EmitContinues(text, at, OperatorToken(c), index, before);
        } else if IsWhitespace(c) {
          LexSkipsWhitespace(text, at);
          index := index + 1;
        } else if IsParenChar(c) {
          ScanParen();
          EmitContinues(text, at, ParenToken(c), index, before);
        } else if c == '=' {
          ScanEquality();
          EmitContinues(text, at, EqualityToken, index, before);
        } else if IsAlpha(c) {
          ScanIdentifier();
          EmitContinues(text, at, IdentifierToken(text[at..index]), index, before);
        } else {
          LexRejectsInvalid(text, at);
          tokens := [];
          return Pass;
        }
      }
      assert tokens + [] == tokens;
      return Pass;
    }

    /**
      * Reads the maximal run of digits and points from the current character and appends
      * its value, or fails as `NumberScanned` says.
      */
    method ScanNums() returns (r: Outcome<LexError>)
      requires index < |text| && IsNumberChar(text[index])
      modifies this`index, this`tokens
      ensures index == NumberEnd(text, old(index))
      ensures NumberScanned(text[old(index)..index], r, old(tokens), tokens)
    {
      ghost var start := index;
      var number := "";
      var decimalCount := 0;
      while index < |text| && IsNumberChar(text[index])
        invariant start <= index <= |text|
        invariant number == text[start..index] && tokens == old(tokens)
        invariant decimalCount == CountDots(number)
        invariant NumberEnd(text, start) == NumberEnd(text, index)
        decreases |text| - index
      {
        if text[index] == '.' {
          decimalCount := decimalCount + 1;
        }
        DotsStep(text, start, index);
        SliceStep(text, start, index);
        number := number + [text[index]];
        index := index + 1;
      }
      assert index == NumberEnd(text, start);
      assert AllNumberChars(number) by {
        NumberEndMaximal(text, start);
      }
      if decimalCount > 1 {
        r := Fail(TooManyDecimalPoints(decimalCount));
        assert NumberScanned(number, r, tokens, tokens);
        return;
      }
      var value := DecimalValue(number);
      if value.None? {
        r := Fail(NotANumber(number));
        assert NumberScanned(number, r, tokens, tokens);
        return;
      }
      tokens := tokens + [NumericToken(value.value)];
      r := Pass;
      assert NumberScanned(number, r, old(tokens), tokens);
    }

    /** Appends the identifier spelled by the maximal run of letters, digits and underscores. */
    method ScanIdentifier()
      requires index < |text| && IsAlpha(text[index])
      modifies this`index, this`tokens
      ensures index == WordEnd(text, old(index))
      ensures tokens == old(tokens) + [IdentifierToken(text[old(index)..index])]
    {
      ghost var start := index;
      var word := "";
      while index < |text| && (IsAlnum(text[index]) || text[index] == '_')
        invariant start <= index <= |text|
        invariant word == text[start..index] && tokens == old(tokens)
        invariant WordEnd(text, start) == WordEnd(text, index)
        decreases |text| - index
      {
        SliceStep(text, start, index);
        word := word + [text[index]];
        index := index + 1;
      }
      tokens := tokens + [IdentifierToken(word)];
    }

    method ScanOp()
      requires index < |text| && IsOperatorChar(text[index])
      modifies this`index, this`tokens
      ensures index == old(index) + 1
      ensures tokens == old(tokens) + [OperatorToken(text[old(index)])]
    {
      tokens := tokens + [OperatorToken(text[index])];
      index := index + 1;
    }

    method ScanParen()
      requires index < |text| && IsParenChar(text[index])
      modifies this`index, this`tokens
      ensures index == old(index) + 1
      ensures tokens == old(tokens) + [ParenToken(text[old(index)])]
    {
      tokens := tokens + [ParenToken(text[index])];
      index := index + 1;
    }

    method ScanEquality()
      requires index < |text| && text[index] == '='
      modifies this`index, this`tokens
      ensures index == old(index) + 1
      ensures tokens == old(tokens) + [EqualityToken]
    {
      tokens := tokens + [EqualityToken];
      index := index + 1;
    }
  }
}
