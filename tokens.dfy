/**
  * The token kinds the parser consumes. Each kind carries only its payload;
  * `Repr` is the display string every token is constructed with.
  */
module Tokens {
  import opened Text

  datatype Token =
    | NumberToken(value: real)
    | String(text: string)
    | Boolean(truth: bool)
    | Identifier(word: string)
    | Parenthesis(symbol: string)
    | Brace(symbol: string)
    | MathOP(op: string)
    | RelationalOP(op: string)
    | EqualityOP(op: string)
    | LogicalOP(op: string)
    | AssignmentOP
    | NotOP
    | Semicolon
    | EOFToken
  {
    /** The token's `repr`, fixed when the token is built. */
    function Repr(): (r: string)
      ensures NumberToken? && 0.0 <= value < 10000000000000000.0 && value == value.Floor as real ==>
                r == IntToString(value.Floor) + ".0"
      ensures String? ==> |r| == |text| + 2 && r[0] == '"' && r[|r| - 1] == '"' && r[1..|r| - 1] == text
      ensures Boolean? ==> r == (if truth then "True" else "False")
      ensures Identifier? ==> r == word
      ensures (Parenthesis? || Brace?) ==> r == symbol
      ensures (MathOP? || RelationalOP? || EqualityOP? || LogicalOP?) ==> r == op
      ensures AssignmentOP? ==> r == "="
      ensures NotOP? ==> r == "not"
      ensures Semicolon? ==> r == ";"
      ensures EOFToken? ==> r == "EOF"
    {
      match this
      case NumberToken(v) => FloatRepr(v)
      case String(s) => "\"" + s + "\""
      case Boolean(b) => if b then "True" else "False"
      case Identifier(w) => w
      case Parenthesis(p) => p
      case Brace(p) => p
      case MathOP(o) => o
      case RelationalOP(o) => o
      case EqualityOP(o) => o
      case LogicalOP(o) => o
      case AssignmentOP => "="
      case NotOP => "not"
      case Semicolon => ";"
      case EOFToken => "EOF"
    }
  }
}
