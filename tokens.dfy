/**
 * Token kinds, tokens, the reserved-word table, the escape table and the
 * character classes the lexer works with (src/rt_types.py).
 */
module Tokens {

  /** One constructor per `TT_*` kind; LCURLY, RCURLY, COLON and DOT are used by
      the lexer and the parser although the constant file omits them. */
  datatype TokenType =
    | Int | Float | Str | Identifier | Keyword
    | Plus | Minus | Mul | Div | Pow | Eq
    | LParen | RParen | LSquare | RSquare | LCurly | RCurly | Colon | Dot
    | EE | NE | LT | GT | LTE | GTE
    | Comma | Arrow | Newline | EOF

  /** The literal a token carries: an integer, the lexeme of a float (floating
      point values are not modelled), or text (strings, identifiers, keywords). */
  datatype TokenValue = NoValue | IntValue(n: nat) | FloatLexeme(lexeme: string) | Text(s: string)

  /** A token without its source positions. */
  datatype Token = Token(kind: TokenType, value: TokenValue)
  {
    /** `Token.matches(type, value)`: same kind and the same text. */
    predicate Matches(k: TokenType, text: string)
    {
      kind == k && value == Text(text)
    }
  }

  const EofToken := Token(EOF, NoValue)

  // Reserved words, in the order of the keyword table.
  const KwVar := "VAR"
  const KwFalse := "false"
  const KwTrue := "true"
  const KwNull := "null"
  const KwAnd := "AND"
  const KwOr := "OR"
  const KwNot := "NOT"
  const KwIf := "IF"
  const KwThen := "THEN"
  const KwElif := "ELIF"
  const KwElse := "ELSE"
  const KwFor := "FOR"
  const KwTo := "TO"
  const KwStep := "STEP"
  const KwWhile := "WHILE"
  const KwFunction := "FUNC"
  const KwEnd := "END"
  const KwReturn := "RETURN"
  const KwContinue := "CONTINUE"
  const KwBreak := "BREAK"

  /** `KEYWORDS_LIST`: exactly the identifiers that lex as KEYWORD tokens. */
  const KeywordsList: seq<string> :=
    [KwVar, KwFalse, KwTrue, KwNull, KwAnd, KwOr, KwNot, KwIf, KwThen, KwElif,
     KwElse, KwFor, KwTo, KwStep, KwWhile, KwFunction, KwEnd, KwReturn, KwContinue, KwBreak]

  /** The parser also matches `KEYWORDS.IMPORT` and `KEYWORDS.AS`, which the keyword
      table does not define; their spelling is assumed, and since they are not in
      `KeywordsList` a lexed program never contains them as keywords. */
  const KwImport := "IMPORT"
  const KwAs := "AS"

  /** `escape_characters.get(c, c)`: `n` and `t` name a newline and a tab; any
      other escaped character stands for itself. */
  function Escape(c: char): (r: char)
    ensures c == 'n' ==> r == '\n'
    ensures c == 't' ==> r == '\t'
    ensures c != 'n' && c != 't' ==> r == c
  {
    if c == 'n' then '\n' else if c == 't' then '\t' else c
  }

  predicate IsDigit(c: char) { '0' <= c <= '9' }

  /** `string.ascii_letters`. */
  predicate IsLetter(c: char) { 'a' <= c <= 'z' || 'A' <= c <= 'Z' }

  /** `LETTERS_DIGITS + '_'`: the characters an identifier continues with. */
  predicate IsIdentChar(c: char) { IsLetter(c) || IsDigit(c) || c == '_' }
}
