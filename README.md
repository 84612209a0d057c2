# pycalc in Dafny

A model of pycalc, a small line-oriented calculator language. Each line goes through three stages. Characters are scanned into tokens. The tokens are parsed by recursive descent into a statement tree. The tree is then evaluated against an environment of named numbers. The repository holds two generations of this pipeline, and both are modelled.

- **Current pipeline.**
  - Token kinds: `tokens.dfy`.
  - Character scanner: `scanner.dfy`.
  - Parser with the nine-level precedence ladder `assignment → logical → equality → relational → add → modulo → mul → unary → primary`: `parser.dfy`.
  - Syntax tree: `ast.dfy`.
  - Evaluator and statement execution: `interpreter.dfy`.
- **Earlier calculator** (`main.py`), in `legacy.dfy`.
  - A scanner for digits, `+ - * /` and parentheses.
  - A two-level parser that folds a unary minus into a literal.
  - A tree evaluator that checks for division by zero.
  - One pass of the read loop: scan, parse, evaluate.

Every `sys.exit()` of the source becomes an error value (`Result`/`Outcome` in `wrappers.dfy`). Numbers are exact `real`s.

Each stateful Python class is a Dafny `class`: `Scanner`, `Parser`, `Interpreter`, and the earlier `Scanner` and `Parser`. Their fields follow the source, with the differences listed under "## Left out". Every method is proved against a specification function of its inputs and old state:

| method | specification function |
|---|---|
| `Scanning.Scanner.Scan` | `Lex` |
| each `Parsing.Parser.Parse*` method | `ExprAt`, `AssignmentAt`, `BinaryAt`, `UnaryAt`, `PrimaryAt`, `DeclAt`, `LetAt` or `PrintAt` |
| `Interpretation.Interpreter.Execute` | `Run` |
| `Legacy.Parser.Parse*` | `ExprFrom`, `FactorsFrom` or `TermsFrom` |

The properties the source promises are then proved about those functions:
- token bounds;
- maximal runs;
- precedence and right association;
- error cases;
- environment frames.

The central results are the two printer round trips:
- `Unparsing.ParseUnparse` and `ParserFacts.ScriptRoundTrip` for the current parser;
- `LegacyFacts.PrintParses` for the earlier one.

A minimal-parenthesis printer turns a tree into tokens, and the parser gives back exactly that tree. This pins down both precedence and associativity at every level.

Behaviour of the code worth knowing, which the model keeps:
- **`and`/`or` return an operand, not a 0/1 value.** The code returns `float(l and r)`/`float(l or r)`, so `2 and 3` is `3.0` (interpreter.py:35-38). Logical results are therefore not normalised to `1.0`/`0.0`.
- **Every binary level is right-associative.** `a - b - c` is `a - (b - c)`, in both generations. Each binary level parses its right operand by calling itself (parser.py:79-142, main.py:158-180), and the model keeps this.
- **`1 = 2` leaves the `=` unconsumed.** The result is the expression `1`, and the statement parser ignores the rest of the tokens (parser.py:72-77, 31-32).

## Model

| member | source | states |
|---|---|---|
| Tokens.Token.Repr | _token.py:2-76 | A number shows as `str(value)`: `<digits>.0` for a whole value from 0 up to, but not including, 1e16. A `String` shows its text in double quotes, a `Boolean` shows `True`/`False`, and a name its word. A bracket shows its symbol and an operator its `op`. The fixed tokens show `=`, `not`, `;`, `EOF`. |
| Text.FloatRepr | _token.py:14 | `str(v)` of a whole value from 0 below 1e16 is its decimal digits followed by `.0`. |
| Text.DigitsOfIntToString | _token.py:14 | Reading back the digits `str` prints for a natural number gives that number. |
| Text.DecimalValue | scanner.py:107 | `float` of a run of digits with at most one point, when it has a value, is never negative. |
| Text.DecimalValueOfIntegral | scanner.py:107 | `float` reads `<digits>.0` as the whole number those digits denote; the run has number characters only and one point. |
| Text.PyInPair | parser.py:115 | Python's substring test `op in '+-'` (two characters) holds for exactly four strings: the empty one, either character, and both. |
| Scanning.ScanToken.Repr | scanner.py:5-41 | Each of the scanner's own tokens shows its payload: the number as `str` (`<digits>.0` for a whole value below 1e16), the word, the operator or parenthesis character, `=`, `EOF`. |
| Scanning.NumberEndMaximal | scanner.py:94-97 | A number's run is maximal: every character before its end is a digit or point, and the one at the end is not. |
| Scanning.WordEndMaximal | scanner.py:86-92 | An identifier's run is maximal: every character in it is alphanumeric or `_`, and the character after it is neither. |
| Scanning.NumberStep | scanner.py:94-107 | A number character always yields a numeric token or a fatal error. The token ends strictly after the start of the run. |
| Scanning.LexStep | scanner.py:59-75 | One dispatch of the loop emits a token that is never `EOF` and consumes at least one character. |
| Scanning.Lex | scanner.py:54-77 | The scan of a whole line has at most one token per character and never an `EOF` token; a rejected line has between 1 and all of its characters unread. |
| Scanning.LexFrom | scanner.py:59-77 | An unrecognised character stops the scan with between 1 and the rest of the line's characters unread. |
| Scanning.LexBounded | scanner.py:59-77 | A scan yields at most one token per character and never an `EOF` token. |
| Scanning.LexSkipsWhitespace | scanner.py:64-65 | A space, tab or newline emits nothing; the scan goes on at the next position. |
| Scanning.LexRejectsInvalid | scanner.py:72-75 | An unrecognised character ends the scan with nothing scanned, whatever came before it. |
| Scanning.NumberStepMaximal | scanner.py:94-107 | A number takes the maximal run of `0123456789.`. More than one point is the fatal error with that count; otherwise the token holds the run's value and scanning resumes at the run's end. |
| Scanning.IdentifierStepMaximal | scanner.py:70-71 | An identifier starts at a letter and takes the maximal run of letters, digits and `_`; its word is exactly that run. |
| Scanning.SingleCharSteps | scanner.py:62-69 | Each of `+-*/`, `()` and `=` is one single-character token, and the scan moves on by one. |
| Scanning.EmitContinues | scanner.py:59-71 | Appending the token the dispatch prescribes and moving past it leaves the rest of the scan unchanged. |
| Scanning.NumberContinues | scanner.py:94-107 | The literal that `scan_nums` collects is the number step the dispatch prescribes. On success the scan continues after it; on failure the scan ends with its error. |
| Scanning.Scanner.constructor | scanner.py:49-52 | A new scanner has no text, index 0 and no tokens. |
| Scanning.Scanner.Scan | scanner.py:54-77 | Scanning resets the text, index and tokens. A complete scan leaves the tokens of `Lex` and the index at the end. A rejected one leaves no tokens and the index at the bad character. A fatal one reports its error. |
| Scanning.Scanner.ScanNums | scanner.py:94-107 | The index ends at the end of the maximal run. Tokens get the literal's value appended, or stay unchanged with the error for two or more points or an unreadable run. |
| Scanning.Scanner.ScanIdentifier | scanner.py:86-92 | The index ends at the end of the maximal word run, and exactly that word is appended. |
| Scanning.Scanner.ScanOp | scanner.py:109-111 | Appends the operator token of the current character and advances by one. |
| Scanning.Scanner.ScanParen | scanner.py:113-115 | Appends the parenthesis token of the current character and advances by one. |
| Scanning.Scanner.ScanEquality | scanner.py:117-119 | Appends the `=` token and advances by one. |
| Parsing.ExprAt | parser.py:69-205 | A successful parse at any level consumes at least one token and stops before the final `EOF`. |
| Parsing.AssignmentAt | parser.py:69-77 | A successful assignment-level parse consumes at least one token and stops before `EOF`. |
| Parsing.BinaryAt | parser.py:79-142 | A successful binary-level parse consumes at least one token and stops before `EOF`. |
| Parsing.UnaryAt | parser.py:144-173 | A successful unary-level parse consumes at least one token and stops before `EOF`. |
| ParserFacts.UnaryOperandErrors | parser.py:153-168 | An error in the operand of unary `-` or `+` is, at every level, that error wrapped by the handler's own error for that operator. |
| ParserFacts.MinusBeforeEOF | parser.py:153-158 | `-` before `EOF` is the missing-operand error followed by the handler's error; in `- -` both handlers add theirs. |
| Parsing.PrimaryAt | parser.py:175-209 | A successful primary parse consumes at least one token and stops before `EOF`. |
| Parsing.PrintAt | parser.py:48-51 | A successful `print` statement consumes at least one token and stops before `EOF`. |
| Parsing.LetAt | parser.py:53-67 | `let` not followed by a name is `ExpectedVariableName`. A parsed declaration binds that name. It has an initializer exactly when `=` follows the name, and without one it ends right after the name. |
| Parsing.DeclAt | parser.py:34-46 | A parsed statement is a `PrintStmt` exactly when it starts with the word `print`, and a `LetDecl` exactly when it starts with `let`. |
| Parsing.ScriptOf | parser.py:25-32 | A parse yields at most one statement, and none exactly when the first token is `EOF`. |
| Parsing.Parser.constructor | parser.py:9-12 | A new parser has an empty script, index 0 and no tokens. |
| Parsing.Parser.EndOfTokens | parser.py:18-20 | `end_of_tokens` holds exactly when the current token is `EOF`, so always at the last position; when it does not hold, the next token exists. |
| Parsing.Parser.MovePointer | parser.py:22-23 | Advances the index by one. |
| Parsing.Parser.Parse | parser.py:25-32 | Takes `ts` as its tokens. It succeeds exactly when `ScriptOf` does, and then leaves `ScriptOf`'s script; on failure it reports `ScriptOf`'s error. |
| Parsing.Parser.ParseDecl | parser.py:34-46 | The statement and the index it leaves are those of `DeclAt` from the old index. |
| Parsing.Parser.ParsePrintStmt | parser.py:48-51 | Agrees with `PrintAt`. |
| Parsing.Parser.ParseLetStmt | parser.py:53-67 | Agrees with `LetAt`. |
| Parsing.Parser.ParseAssignment | parser.py:69-77 | Agrees with `AssignmentAt`. |
| Parsing.Parser.ParseLogicalExpr | parser.py:79-88 | Agrees with the logical level of `BinaryAt`. |
| Parsing.Parser.ParseEqualityExpr | parser.py:90-99 | Agrees with the equality level of `BinaryAt`. |
| Parsing.Parser.ParseRelationalExpr | parser.py:101-110 | Agrees with the relational level of `BinaryAt`. |
| Parsing.Parser.ParseAddExpr | parser.py:112-121 | Agrees with the additive level of `BinaryAt`. |
| Parsing.Parser.ParseModuloExpr | parser.py:123-131 | Agrees with the modulus level of `BinaryAt`. |
| Parsing.Parser.ParseMulExpr | parser.py:133-142 | Agrees with the multiplicative level of `BinaryAt`. |
| Parsing.Parser.ParseUnaryExpr | parser.py:144-173 | Agrees with `UnaryAt`, including the handler's error around the operand of `-`/`+`. |
| Parsing.Parser.ParsePrimaryExpr | parser.py:175-209 | Agrees with `PrimaryAt`. |
| Ast.Expr.BinaryOperator | AST.py:93-95 | A modulus node's operator is always `%`; every other binary node carries its own. |
| Unparsing.Prec | parser.py:69-209 | Each node's level on the ladder; exactly the binary nodes sit on the six binary levels. |
| Unparsing.Unparse | parser.py:69-209 | Every tree prints to at least one token. |
| Unparsing.OpTokenLevel | parser.py:79-142 | A binary node's operator token continues its own level and stops the next tighter one. |
| Unparsing.Lift | parser.py:69-173 | A parse at a tighter level that the next token stops is also the parse at every looser level. |
| Unparsing.ParenthesizedPrimary | parser.py:196-205 | `(` + a printed tree + `)` parses, as a primary, to that tree. |
| Unparsing.ParseUnparse | parser.py:69-209 | Round trip: a printed tree followed by a token that stops its level parses back to exactly that tree, consuming exactly its tokens. |
| Unparsing.ParseExact | parser.py:69-209 | A tree printed at its own level parses back at that level. |
| Unparsing.ExactAssignment | parser.py:69-77 | `name = e` parses back to the assignment node. |
| Unparsing.ExactUnary | parser.py:144-155 | `not e` and `- e` parse back to the `NotExpr` and `NegateExpr` nodes. |
| Unparsing.ExactBinary | parser.py:79-142 | A binary node printed at its level parses back to that node, with the left operand one level tighter and the right one at the same level. |
| Unparsing.ExactOperands | parser.py:79-142 | Both operands of a printed binary node parse back in place. |
| Unparsing.BinaryStep | parser.py:79-142 | A left operand, an operator of the level and a further parse at the level combine into one node. |
| Unparsing.CombineOpToken | parser.py:79-142 | Rebuilding a binary node from its operator token gives back the node. |
| Unparsing.UnparseBinary | parser.py:79-142 | A binary node prints as its left operand, its operator and its right operand. |
| Unparsing.WellFormedOperands | parser.py:79-142 | The operands of a printable binary node are printable. |
| ParserFacts.LeadingTokenErrors | parser.py:144-209 | At every level, `EOF` first is the missing-operand error, and a token no expression starts with is invalid syntax. At every level above the primary, a `MathOP` other than `-`/`+` first is the bad-unary error. |
| ParserFacts.MissingCloseParen | parser.py:196-202 | A `(` whose expression is followed by anything but `)` is the expected-`)` error at every level. |
| ParserFacts.ParsesBack | parser.py:69-209 | Every printable tree followed by `EOF` parses back to itself. |
| ParserFacts.UnparseInjective | parser.py:69-209 | Two trees that print alike are equal. |
| ParserFacts.UnparseStmt | parser.py:34-67 | A printed statement is non-empty, and an expression statement never starts with `print` or `let`. |
| ParserFacts.ScriptRoundTrip | parser.py:25-67 | Every printable statement, printed and followed by `EOF`, parses back to the one-statement script of itself. |
| ParserFacts.SubtractionGroupsRight | parser.py:112-121 | `a - b - c` parses as `a - (b - c)`. |
| ParserFacts.ProductInsideSum | parser.py:112-142 | `x + y * z` parses as `x + (y * z)`. |
| ParserFacts.QuotientInsideDifference | parser.py:112-142 | `x / y - z` parses as `(x / y) - z`. |
| ParserFacts.ProductInsideModulus | parser.py:123-142 | `x % y * z` parses as `x % (y * z)`. |
| ParserFacts.ComparisonInsideLogic | parser.py:79-110 | `x < y and z` parses as `(x < y) and z`. |
| ParserFacts.NegationInsideEquality | parser.py:90-148 | `not x == y` parses as `(not x) == y`. |
| ParserFacts.NumberIsNoTarget | parser.py:72-77 | `1 = 2` parses as `1`, leaves the `=` unconsumed, and the script is the single statement `1`. |
| ParserFacts.ParenthesizedTarget | parser.py:72-75 | `(x) = 5` is an assignment to `x`, since the parenthesised target parses to a plain name. |
| ParserFacts.UnaryPlusTarget | parser.py:72-75 | `+x = 5` is an assignment, since unary `+` returns its operand unchanged. |
| Interpretation.BoolValue | interpreter.py:97-98 | A Boolean evaluates to `1.0` exactly when it is true, else `0.0`. |
| Interpretation.LogicalValue | interpreter.py:31-38 | `and`/`or` yield one of the operands: `and` gives the right one when the left is truthy, `or` gives the left one when it is truthy (and otherwise each gives the other). The result is truthy exactly when both (for `and`) or either (otherwise) operand is. |
| Interpretation.EqualityValue | interpreter.py:40-47 | `==` yields `1.0` exactly when the operands are equal; any other operator yields `1.0` exactly when they differ; the result is always `1.0` or `0.0`. |
| Interpretation.RelationalValue | interpreter.py:49-60 | `<`, `<=`, `>` compare as named; any other operator compares as `>=`; the result is always `1.0` or `0.0`. |
| Interpretation.AddValue | interpreter.py:62-69 | `+` gives the sum; any other operator gives the difference. |
| Interpretation.MulValue | interpreter.py:77-84 | `*` gives the product. Any other operator divides, and fails exactly when the divisor is zero. |
| Interpretation.Truncate | interpreter.py:75 | Python's `int()` truncates toward zero. |
| Interpretation.PyMod | interpreter.py:75 | Python's `%` on integers: the remainder takes the sign of the divisor and satisfies `a == b * (a // b) + m`. |
| Interpretation.ModulusValue | interpreter.py:71-75 | Both operands are truncated before `%`. The operation fails exactly when the divisor truncates to zero. |
| Interpretation.NegateValue | interpreter.py:86-88 | Negation gives the additive inverse. |
| Interpretation.NotValue | interpreter.py:90-92 | `not` gives `1.0` exactly when the operand is zero, else `0.0`. |
| Interpretation.Interpreter.constructor | interpreter.py:7-11 | A new interpreter has an empty environment and has printed nothing. |
| Interpretation.Interpreter.Accept | AST.py:42-151 | Evaluating a node in place gives the value and the new environment of `Eval`. This covers `Assignment`, `IdentifierNode` and every `execute_*` method. |
| Interpretation.Interpreter.ExecuteStmt | AST.py:11-35 | One statement performs `ExecStmt`. A `let` binds or leaves the environment alone; an expression statement and a `print` output their value. |
| Interpretation.Eval | AST.py:42-151 | Evaluating an expression never adds or removes a name. |
| Interpretation.EvalOperands | interpreter.py:31-84 | Evaluating both operands, left then right, never adds or removes a name. |
| Interpretation.ExecStmt | AST.py:11-35 | A successful statement prints nothing exactly when it is a `let`, and otherwise one value. A `let` with a value adds its name if it is new; any other statement keeps the set of names. |
| Interpretation.Run | interpreter.py:23-29 | Running a script never removes a name, and prints at most one value per statement. |
| Interpretation.LetBinds | AST.py:16-21 | `let n` alone changes nothing and prints nothing. `let n = x` fails with `x`'s error, or binds `n` to `x`'s value, creating or overwriting it. It prints nothing, and every other name that `x` does not assign keeps its value. |
| Interpretation.Interpreter.Execute | interpreter.py:23-29 | Runs the script in order. The output grows by the values `Run` prints, and success and the final environment are those of `Run`. |
| Interpretation.RunStopped | interpreter.py:23-29 | Nothing after the first failing statement runs. |
| Interpretation.EvalFrame | AST.py:47-51 | Evaluation never adds or removes names, and changes only the names the expression assigns to. |
| Interpretation.OperandsFrame | interpreter.py:31-84 | Evaluating both operands never adds or removes names, and changes only the assigned names. |
| Interpretation.PureEvalKeepsEnv | AST.py:145-148 | An expression without assignments leaves the environment exactly as it was. |
| Interpretation.RunAppend | interpreter.py:23-29 | Running two scripts in sequence is running their concatenation. |
| Interpretation.PrintedCount | interpreter.py:23-29 | A script that runs without error prints once per expression and `print` statement. |
| Interpretation.AssignmentNeedsBinding | AST.py:47-54 | An assignment to an undeclared name is the unknown-target error. Otherwise it overwrites just that binding and returns the value. |
| Interpretation.LetThenAssign | AST.py:16-54 | `let x = 1` then `x = 2` leaves `x` bound to `2` and prints `2`. |
| Interpretation.NoShortCircuit | interpreter.py:31-35 | `0 and (w = v)` still performs the assignment, and `0 and <undefined name>` still fails. |
| Interpretation.UnaryTwice | interpreter.py:86-92 | Double negation is the identity, and double `not` is truthiness as `1.0`/`0.0`. |
| Interpretation.ModulusExamples | interpreter.py:71-75 | Examples: `7.5 % 2` is `1`, `7 % -2` is `-1`, `-7 % 2` is `1`, `-7.9 % -2.5` is `-1`, and `3 % 0.5` fails. |
| Legacy.LegacyToken.Repr | main.py:4-27 | A literal shows as `str(value)` (`<digits>.0` for a whole value below 1e16), and an operator or parenthesis as its character. |
| Legacy.NumberAt | main.py:67-82 | A read number ends exactly at the end of the maximal run. It is the two-points error exactly when the run has more than one point. |
| Legacy.ScanFrom | main.py:41-58 | A scan that stops does so at a position inside the rest of the line. |
| Legacy.ScanOf | main.py:41-58 | The scan of a whole line has at most one token per character, and stops only at a character no branch accepts. |
| Legacy.ScanBounded | main.py:41-58 | At most one token per character. A stop happens only at a character no branch accepts. |
| Legacy.NumberEndPrefix | main.py:67-82 | A number's run ends at the same place when the line is cut at a later non-number character. |
| Legacy.ScanKeepsPrefix | main.py:56-58 | An unrecognised character stops the scan there, keeping all tokens of the text before it. |
| Legacy.Scanner.constructor | main.py:36-39 | A new scanner has no text, index 0 and no tokens. |
| Legacy.Scanner.Scan | main.py:41-58 | Scanning resets the text, index and tokens. It leaves the tokens of `ScanOf`, and the index at the stop or the end; a fatal error is reported. |
| Legacy.Scanner.ScanNums | main.py:67-82 | Agrees with `NumberAt`. A second point ends with the two-points error; otherwise the literal's value is appended and the index moves to the run's end. |
| Legacy.Scanner.ScanOps | main.py:84-86 | Appends the operator token and advances by one. |
| Legacy.Scanner.ScanParens | main.py:88-90 | Appends the parenthesis token and advances by one. |
| Legacy.ScannedNumber | main.py:67-82 | A run with at most one point is read by `float`. |
| Legacy.SecondPoint | main.py:75-77 | A second point inside the run makes the number fatal. |
| Legacy.Evaluate | main.py:99-120 | A literal is its value. A successful `/` had a non-zero divisor. A successful binary node had both children evaluate. |
| Legacy.EvaluateErrors | main.py:99-101 | A binary node fails with its left child's error, and otherwise with its right child's. |
| Legacy.EvaluateBinary | main.py:99-113 | A binary node whose children evaluate to `a` and `b` has the value `a + b`, `a - b` or `a * b` for its operator. `/` is the division-by-zero error when `b` is zero and `a / b` otherwise. Any other operator gives no value. |
| Legacy.DivisionFreeEvaluates | main.py:99-113 | A tree of `+ - *` nodes always has a value. |
| Legacy.ArithmeticErrors | main.py:99-113 | A tree of the four operators can fail only by dividing by zero. |
| Legacy.ExprFrom | main.py:158-168 | A parse at the additive level stays within the tokens and builds only arithmetic nodes. |
| Legacy.FactorsFrom | main.py:170-180 | The same, at the multiplicative level. |
| Legacy.TermsFrom | main.py:182-212 | A term at the end of the tokens is `LiteralNode(0)`; every term stays within the tokens. |
| Legacy.Parser.constructor | main.py:127-132 | A new parser has no tree, index 0 and no tokens. |
| Legacy.Parser.EndOfTokens | main.py:138-140 | `end_of_tokens` holds exactly when the index is at or past the number of tokens. |
| Legacy.Parser.MovePointer | main.py:142-143 | Advances the index by one. |
| Legacy.Parser.Parse | main.py:145-153 | Takes `ts` as its tokens and parses from the start. It succeeds exactly when `ExprFrom` parses, leaving that tree and the index where `ExprFrom` stopped; otherwise it reports `ExprFrom`'s error. |
| Legacy.Parser.EvaluateAst | main.py:155-156 | The value of a literal tree is its literal. |
| Legacy.Parser.ParseExpr | main.py:158-168 | Agrees with `ExprFrom` from the old index. |
| Legacy.Parser.ParseFactors | main.py:170-180 | Agrees with `FactorsFrom`. |
| Legacy.Parser.ParseTerms | main.py:182-212 | Agrees with `TermsFrom`. A unary minus folds into the literal of its operand's value. A `(` needs a `)`. |
| Legacy.CalculateOf | main.py:222-225 | One line's outcome: when the evaluation of its tree fails, the error is always division by zero. |
| Legacy.Calculate | main.py:222-225 | One pass of the loop on the loop's scanner and parser gives the value of `CalculateOf`, or its error. |
| LegacyFacts.Level | main.py:158-191 | Exactly the literals sit at the term level. |
| LegacyFacts.Print | main.py:158-208 | Every tree prints to at least one token. |
| LegacyFacts.Lift | main.py:158-180 | A tighter-level parse that the next token stops is the parse at every looser level. |
| LegacyFacts.PrintedLiteral | main.py:188-197 | A negative literal printed as `-` and its magnitude parses back, through the fold, to itself. |
| LegacyFacts.PrintParses | main.py:158-208 | Round trip: a printed tree followed by a stopping token parses back to exactly that tree at its level, consuming its tokens. |
| LegacyFacts.PrintedBinary | main.py:158-180 | A binary node printed at its own level parses back to that node. |
| LegacyFacts.PrintedParens | main.py:199-208 | `(` + a printed tree + `)` parses, as a term, to that tree. |
| LegacyFacts.PrintedOperands | main.py:158-180 | Both operands of a printed binary node parse back in place, the left one level tighter. |
| LegacyFacts.OperandsCombine | main.py:158-180 | An operand, its level's operator and a further parse at that level make one binary node. |
| LegacyFacts.LineParsesBack | main.py:145-153 | A printed line parses to its tree with every token consumed. |
| LegacyFacts.PrintInjective | main.py:158-208 | Two trees with the same printed tokens are the same tree. |
| LegacyFacts.UnaryErrors | main.py:193-197 | Folding a unary minus can fail only by a division by zero. |
| LegacyFacts.LineErrors | main.py:222-225 | Every arithmetic failure of a line is a division by zero; no parsed tree makes `evaluate` return no number. |
| LegacyFacts.StopsAtUnrecognised | main.py:56-58 | A line with an unrecognised character gives what the text before it gives. |
| LegacyFacts.SubtractionGroupsRight | main.py:158-168 | `a - b - c` parses as `a - (b - c)` and evaluates to `a - b + c`. |
| LegacyFacts.ProductInsideSum | main.py:158-180 | `a + b * c` parses as `a + (b * c)`. |
| LegacyFacts.TrailingOperator | main.py:185-186 | `a +` parses as `a + 0`. |
| LegacyFacts.MinusFoldsOneTerm | main.py:193-197 | `- a + b` parses as the literal `-a` plus `b`: the fold takes one term only. |
| LegacyFacts.ZeroDivisorUnderMinus | main.py:110-112 | `- (a / 0)` fails with division by zero while parsing. |

## Left out

- The read loops, the prompt and the `exit`/`quit` checks (interpreter.py:13-21, main.py:215-221): console I/O. `Legacy.Calculate` models one pass of the earlier loop's body, and `Interpretation.Interpreter.Execute` the current loop's `execute` step. The composition scan → parse → execute for the current pipeline is not modelled as one function. `scanner.py`'s tokens are a different family of classes from the `_token.py` tokens the parser tests for, and `scanner.py` never appends the `EOF` the parser needs. The parser is modelled over the `_token.py` tokens, with a final `EOF` as its precondition.
- `print` output: the printed values are collected as a sequence of numbers (`Interpreter.output`, `Run(..).printed`), and the text `print` would write is not built. The scanners' "Invalid syntax" message is dropped.
- `sys.exit()`: each becomes an error value. The environment a fatal error leaves behind is not part of the result.
- Floating point: numbers are exact reals. Rounding, infinities, NaN and `-0.0` are not modelled.
  - `float()` is modelled exactly on runs of digits with at most one point. A run with no digit (`.`) is the not-a-number error.
  - `str(float)` is modelled in positional form only.
  - `Interpretation.ModulusValue` returns the integer result of Python's `int % int` as a real.
- The bare `except:` around the operand of unary `-`/`+` (parser.py:153-168) also catches the `SystemExit` of an inner `sys.exit()`. It prints its own message and exits again. The model records this as the error `AfterUnary(op, inner)`; the printed text of the two messages is not built.
- Python's `isalpha`/`isalnum` are reduced to ASCII letters and digits.
- `String`, `Brace` and `Semicolon` tokens exist only as datatype shapes with their repr. No scanner produces them and no parser consumes them.
- `Expr.accept` returning `float('inf')` (AST.py:39-40) and `BinaryExpr.accept` returning `None` (AST.py:62-63): these base-class methods are never reached for a concrete node, so they are not modelled.
- In main.py, `BinaryNode.evaluate` returns `None` for an operator outside `+ - * /`. This is `Legacy.NoValue`, which `LegacyFacts.LineErrors` shows no parsed tree reaches.
- Legacy.Parser.EvaluateAst: its contract states only the literal case; the general value is `Legacy.Evaluate`.
- Text.FloatRepr: Python's exponent form is not modelled. From 1e16 up, `str` prints e.g. `1e+16`, and for magnitudes below 1e-4 e.g. `1e-05`; the model prints both positionally, so its whole-value contract stops below 1e16.
- Tokens.Token.Repr: a `NumberToken`'s repr inherits the positional form of `Text.FloatRepr`; exponent form (from 1e16 up, below 1e-4) is not modelled.
- Scanning.ScanToken.Repr: a `NumericToken`'s repr inherits the positional form of `Text.FloatRepr`; exponent form (from 1e16 up, below 1e-4) is not modelled.
- Legacy.LegacyToken.Repr: a `LiteralToken`'s repr inherits the positional form of `Text.FloatRepr`; exponent form (from 1e16 up, below 1e-4) is not modelled.
- Field differences from the source:
  - `Interpretation.Interpreter` has no `scanner` and `parser` fields, since only the read loop uses them. It has an `output` field holding the printed values.
  - Both scanners call the source's `string` field `text`, because `string` is a type name in Dafny.
