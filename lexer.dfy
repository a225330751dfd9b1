/**
 * The lexer (src/lexer.py): a cursor over the program text that turns it into
 * tokens. The scanning rules are first stated as functions over the text and
 * a start index; the class `Lexer` then walks the text the way the source
 * does and each of its methods is proved to compute exactly that function.
 */
module Lexing {
  import opened Wrappers
  import opened Tokens

  /** What the lexer reports instead of tokens. `Crash` stands for a Python
      exception the source does not catch and `Diverges` for a loop the source
      never leaves. */
  datatype LexError =
    | IllegalChar(details: string)
    | ExpectedChar(details: string)
    | Crash(reason: string)
    | Diverges

  /** `make_tokens`' pair: the tokens, or `[]` and an error. */
  datatype LexResult = LexResult(tokens: seq<Token>, error: Option<LexError>)

  /** `current_char` at index `i`: `None` past the end of the text. */
  function CharAt(text: string, i: int): (r: Option<char>)
    ensures r.Some? <==> 0 <= i < |text|
  {
    if 0 <= i < |text| then Some(text[i]) else None
  }

  // ---------------------------------------------------------------- numbers

  predicate NumberChar(c: char) { IsDigit(c) || c == '.' }

  function DotCount(s: string): nat
  {
    if s == [] then 0 else (if s[0] == '.' then 1 else 0) + DotCount(s[1..])
  }

  function DigitValue(c: char): nat
  {
    if IsDigit(c) then c as int - '0' as int else 0
  }

  /** Python's `int` of a string of decimal digits. */
  function DigitsValue(s: string): nat
  {
    if s == [] then 0 else DigitsValue(s[..|s| - 1]) * 10 + DigitValue(s[|s| - 1])
  }

  /** The loop of `make_number` from index `j`, with the lexeme and the dot count
      gathered so far: it yields the lexeme, the dot count and the stop index. */
  function NumberLoop(text: string, j: nat, numStr: string, dots: nat): (r: (string, nat, nat))
    requires j <= |text| && dots <= 1
    ensures j <= r.2 <= |text|
    decreases |text| - j
  {
    if j < |text| && NumberChar(text[j]) then
      if text[j] == '.' then
        if dots == 1 then (numStr, dots, j)
        else NumberLoop(text, j + 1, numStr + ".", dots + 1)
      else NumberLoop(text, j + 1, numStr + [text[j]], dots)
    else
      (numStr, dots, j)
  }

  /** The loop of `make_number` gathers exactly the characters it passes,
      counts their dots, never passes a second dot and stops at the first
      character that is neither a digit nor an allowed dot. */
  lemma {:induction false} NumberLoopMeaning(text: string, j: nat, numStr: string, dots: nat)
    requires j <= |text| && dots <= 1
    ensures var r := NumberLoop(text, j, numStr, dots);
      r.0 == numStr + text[j..r.2] && r.1 == dots + DotCount(text[j..r.2]) && r.1 <= 1 &&
      (forall k | j <= k < r.2 :: NumberChar(text[k])) &&
      (r.2 < |text| ==> !IsDigit(text[r.2]) && (text[r.2] == '.' ==> r.1 == 1))
    decreases |text| - j
  {
    if j < |text| && NumberChar(text[j]) {
      if text[j] == '.' {
        if dots == 0 {
          NumberLoopMeaning(text, j + 1, numStr + ".", dots + 1);
          var r := NumberLoop(text, j + 1, numStr + ".", dots + 1);
          assert text[j..r.2][1..] == text[j + 1..r.2];
          assert numStr + "." + text[j + 1..r.2] == numStr + text[j..r.2];
        }
      } else {
        NumberLoopMeaning(text, j + 1, numStr + [text[j]], dots);
        var r := NumberLoop(text, j + 1, numStr + [text[j]], dots);
        assert text[j..r.2][1..] == text[j + 1..r.2];
        assert numStr + [text[j]] + text[j + 1..r.2] == numStr + text[j..r.2];
      }
    }
  }

  /** `make_number` at index `i`: the longest run of digits holding at most
      one '.', an INT token when it has no '.', a FLOAT token otherwise. */
  function ScanNumber(text: string, i: nat): (r: (Token, nat))
    requires i < |text| && IsDigit(text[i])
    ensures i < r.1 <= |text|
  {
    var (numStr, dots, j) := NumberLoop(text, i, "", 0);
    (if dots == 0 then Token(Int, IntValue(DigitsValue(numStr))) else Token(Float, FloatLexeme(numStr)), j)
  }

  /** A number is the longest run of digits with at most one '.' in it: an
      INT token holding the digits' value when there is no '.', a FLOAT token
      holding the lexeme otherwise. */
  lemma ScanNumberMeaning(text: string, i: nat)
    requires i < |text| && IsDigit(text[i])
    ensures var r := ScanNumber(text, i);
      (forall k | i <= k < r.1 :: NumberChar(text[k])) &&
      DotCount(text[i..r.1]) <= 1 &&
      (r.1 < |text| ==> !IsDigit(text[r.1]) && (text[r.1] == '.' ==> DotCount(text[i..r.1]) == 1)) &&
      (DotCount(text[i..r.1]) == 0 ==> r.0 == Token(Int, IntValue(DigitsValue(text[i..r.1])))) &&
      (DotCount(text[i..r.1]) == 1 ==> r.0 == Token(Float, FloatLexeme(text[i..r.1])))
  {
    NumberLoopMeaning(text, i, "", 0);
    var j := NumberLoop(text, i, "", 0).2;
    assert "" + text[i..j] == text[i..j];
  }

  // ---------------------------------------------------------------- strings

  /** What the characters between the quotes stand for: a backslash takes the
      next character through the escape table, and a backslash that ends the
      text stands for nothing. */
  function Unescape(raw: string): string
  {
    if raw == [] then []
    else if raw[0] == '\\' then (if |raw| == 1 then [] else [Escape(raw[1])] + Unescape(raw[2..]))
    else [raw[0]] + Unescape(raw[1..])
  }

  /** Every `quote` in `raw` is escaped by a backslash. */
  predicate QuoteFree(raw: string, quote: char)
  {
    if raw == [] then true
    else if raw[0] == '\\' then |raw| == 1 || QuoteFree(raw[2..], quote)
    else raw[0] != quote && QuoteFree(raw[1..], quote)
  }

  /** The loop of `make_string` from index `j`: the text gathered and the index
      where the loop stopped (the closing quote, or the end of the text). */
  function StringLoop(text: string, j: nat, quote: char, s: string, escaping: bool): (r: (string, nat))
    requires j <= |text|
    ensures j <= r.1 <= |text|
    decreases |text| - j
  {
    if j < |text| && (text[j] != quote || escaping) then
      var c := text[j];
      if escaping then StringLoop(text, j + 1, quote, s + [Escape(c)], false)
      else if c == '\\' then StringLoop(text, j + 1, quote, s, true)
      else StringLoop(text, j + 1, quote, s + [c], false)
    else
      (s, j)
  }

  /** The loop of `make_string` stops on the closing quote or at the end of
      the text, and what it gathers is the unescaped text it passed, in which
      every quote was escaped. */
  lemma {:induction false} StringLoopMeaning(text: string, j: nat, quote: char, s: string)
    requires j <= |text|
    ensures var r := StringLoop(text, j, quote, s, false);
      r.1 < |text| ==> text[r.1] == quote
    ensures var r := StringLoop(text, j, quote, s, false);
      r.0 == s + Unescape(text[j..r.1]) && QuoteFree(text[j..r.1], quote)
    decreases |text| - j
  {
    var r := StringLoop(text, j, quote, s, false);
    if j < |text| && text[j] != quote {
      var c := text[j];
      var e := r.1;
      if c == '\\' && j + 1 < |text| {
        var d := text[j + 1];
        assert StringLoop(text, j + 1, quote, s, true) == StringLoop(text, j + 2, quote, s + [Escape(d)], false);
        StringLoopMeaning(text, j + 2, quote, s + [Escape(d)]);
        EscapedPair(d, text[j + 2..e], quote);
        assert text[j..e] == ['\\', d] + text[j + 2..e];
      } else if c == '\\' {
        assert r == StringLoop(text, j + 1, quote, s, true) == (s, j + 1);
        assert text[j..e] == ['\\'];
      } else {
        assert r == StringLoop(text, j + 1, quote, s + [c], false);
        StringLoopMeaning(text, j + 1, quote, s + [c]);
        PlainChar(c, text[j + 1..e], quote);
        assert text[j..e] == [c] + text[j + 1..e];
      }
    } else {
      assert text[j..j] == [];
    }
  }

  /** A backslash and the character after it stand for that character's escape. */
  lemma EscapedPair(c: char, rest: string, quote: char)
    ensures Unescape(['\\', c] + rest) == [Escape(c)] + Unescape(rest)
    ensures QuoteFree(['\\', c] + rest, quote) == QuoteFree(rest, quote)
  {
    assert (['\\', c] + rest)[2..] == rest;
  }

  /** Any other character stands for itself. */
  lemma PlainChar(c: char, rest: string, quote: char)
    requires c != '\\'
    ensures Unescape([c] + rest) == [c] + Unescape(rest)
    ensures QuoteFree([c] + rest, quote) == (c != quote && QuoteFree(rest, quote))
  {
    assert ([c] + rest)[1..] == rest;
  }

  /** `make_string` at an opening quote. */
  function ScanString(text: string, i: nat): (r: (Token, nat))
    requires i < |text|
    ensures i + 2 <= r.1 <= |text| + 1
  {
    var (s, q) := StringLoop(text, i + 1, text[i], "", false);
    (Token(Str, Text(s)), q + 1)
  }

  /** A string runs from its opening quote to the first unescaped occurrence
      of the same quote (or to the end of the text); its value is its body
      unescaped, and scanning resumes after the closing quote. */
  lemma ScanStringMeaning(text: string, i: nat)
    requires i < |text|
    ensures var r := ScanString(text, i);
      (r.1 - 1 < |text| ==> text[r.1 - 1] == text[i]) &&
      QuoteFree(text[i + 1..r.1 - 1], text[i]) &&
      r.0 == Token(Str, Text(Unescape(text[i + 1..r.1 - 1])))
  {
    StringLoopMeaning(text, i + 1, text[i], "");
    var (s, q) := StringLoop(text, i + 1, text[i], "", false);
    assert "" + text[i + 1..q] == text[i + 1..q];
    assert s == "" + Unescape(text[i + 1..q]) == Unescape(text[i + 1..q]);
  }

  // ------------------------------------------------------------ identifiers

  /** The loop of `make_identifier` from index `j`. */
  function IdentLoop(text: string, j: nat, s: string): (r: (string, nat))
    requires j <= |text|
    ensures j <= r.1 <= |text|
    decreases |text| - j
  {
    if j < |text| && IsIdentChar(text[j]) then IdentLoop(text, j + 1, s + [text[j]])
    else (s, j)
  }

  /** The loop of `make_identifier` gathers the longest run of identifier
      characters. */
  lemma {:induction false} IdentLoopMeaning(text: string, j: nat, s: string)
    requires j <= |text|
    ensures var r := IdentLoop(text, j, s);
      r.0 == s + text[j..r.1] && (forall k | j <= k < r.1 :: IsIdentChar(text[k])) &&
      (r.1 < |text| ==> !IsIdentChar(text[r.1]))
    decreases |text| - j
  {
    if j < |text| && IsIdentChar(text[j]) {
      IdentLoopMeaning(text, j + 1, s + [text[j]]);
      var r := IdentLoop(text, j + 1, s + [text[j]]);
      assert s + [text[j]] + text[j + 1..r.1] == s + text[j..r.1];
    }
  }

  /** `make_identifier` at a letter: the longest run of letters, digits and
      underscores, a KEYWORD token exactly when it is a reserved word. */
  function ScanIdentifier(text: string, i: nat): (r: (Token, nat))
    requires i < |text| && IsLetter(text[i])
    ensures i < r.1 <= |text|
  {
    var (s, j) := IdentLoop(text, i, "");
    (Token(if s in KeywordsList then Keyword else Identifier, Text(s)), j)
  }

  /** An identifier is the longest run of letters, digits and underscores
      from a letter; it is a KEYWORD token exactly when it is a reserved word,
      an IDENTIFIER token otherwise, and holds its text either way. */
  lemma ScanIdentifierMeaning(text: string, i: nat)
    requires i < |text| && IsLetter(text[i])
    ensures var r := ScanIdentifier(text, i);
      (forall k | i <= k < r.1 :: IsIdentChar(text[k])) &&
      (r.1 < |text| ==> !IsIdentChar(text[r.1])) &&
      r.0.value == Text(text[i..r.1]) &&
      (r.0.kind == Keyword <==> text[i..r.1] in KeywordsList) &&
      (r.0.kind == Keyword || r.0.kind == Identifier)
  {
    IdentLoopMeaning(text, i, "");
    var j := IdentLoop(text, i, "").1;
    assert "" + text[i..j] == text[i..j];
  }

  // ------------------------------------------------- comments and operators

  /** The index of the first newline at or after `j`, if there is one. */
  function NewlineFrom(text: string, j: nat): (r: Option<nat>)
    requires j <= |text|
    ensures r.Some? ==> j <= r.value < |text| && text[r.value] == '\n'
    ensures forall k | j <= k < (if r.Some? then r.value else |text|) :: text[k] != '\n'
    decreases |text| - j
  {
    if j == |text| then None
    else if text[j] == '\n' then Some(j)
    else NewlineFrom(text, j + 1)
  }

  /** `make_slash` at a '/': `//` starts a comment that runs through the next
      newline (a comment the text ends inside never ends); any other character
      after the '/' is illegal, and a '/' that ends the text raises. */
  function ScanSlash(text: string, i: nat): (r: Outcome<nat, LexError>)
    requires i < |text| && text[i] == '/'
    ensures r.Success? ==> i + 3 <= r.value <= |text| && text[i + 1] == '/' && text[r.value - 1] == '\n'
    ensures r.Success? ==> forall k | i + 2 <= k < r.value - 1 :: text[k] != '\n'
    ensures r == Failure(Diverges) <==> i + 1 < |text| && text[i + 1] == '/' && '\n' !in text[i + 2..]
    ensures i + 1 < |text| && text[i + 1] != '/' ==> r == Failure(IllegalChar("'" + [text[i + 1]] + "'"))
  {
    if i + 1 < |text| && text[i + 1] == '/' then
      match NewlineFrom(text, i + 2)
      case Some(k) => Success(k + 1)
      case None => Failure(Diverges)
    else if i + 1 < |text| then Failure(IllegalChar("'" + [text[i + 1]] + "'"))
    else Failure(Crash("TypeError: a '/' ends the text"))
  }

  /** `make_not_equals` at a '!'. */
  function ScanNotEquals(text: string, i: nat): (r: Outcome<(Token, nat), LexError>)
    requires i < |text| && text[i] == '!'
    ensures r.Success? <==> CharAt(text, i + 1) == Some('=')
    ensures r.Success? ==> r.value == (Token(NE, NoValue), i + 2)
    ensures r.Failure? ==> r.error == ExpectedChar("'=' (after '!')")
  {
    if CharAt(text, i + 1) == Some('=') then Success((Token(NE, NoValue), i + 2))
    else Failure(ExpectedChar("'=' (after '!')"))
  }

  /** `make_equals`: `=`, `==` or `=>`. */
  function ScanEquals(text: string, i: nat): (r: (Token, nat))
    requires i < |text| && text[i] == '='
  {
    if CharAt(text, i + 1) == Some('=') then (Token(EE, NoValue), i + 2)
    else if CharAt(text, i + 1) == Some('>') then (Token(Arrow, NoValue), i + 2)
    else (Token(Eq, NoValue), i + 1)
  }

  /** `make_less_than` and `make_greater_than`: the operator, or its `=` form. */
  function ScanComparison(text: string, i: nat, plain: TokenType, orEqual: TokenType): (r: (Token, nat))
    requires i < |text|
  {
    if CharAt(text, i + 1) == Some('=') then (Token(orEqual, NoValue), i + 2)
    else (Token(plain, NoValue), i + 1)
  }

  /** The characters that make a token on their own. */
  function SingleCharKind(c: char): Option<TokenType>
  {
    match c
    case '+' => Some(Plus)
    case '-' => Some(Minus)
    case '*' => Some(Mul)
    case '^' => Some(Pow)
    case '(' => Some(LParen)
    case ')' => Some(RParen)
    case '[' => Some(LSquare)
    case ']' => Some(RSquare)
    case '{' => Some(LCurly)
    case '}' => Some(RCurly)
    case ':' => Some(Colon)
    case '.' => Some(Dot)
    case ',' => Some(Comma)
    case _ => None
  }

  // ------------------------------------------------------------- make_tokens

  /** One turn of `make_tokens`' loop at index `i`: the token it appends, if
      any, and the index it moves to, or the error it stops with. It never
      appends EOF nor DIV: the DIV branch of the source follows the '/' branch
      and is never taken. */
  function LexStep(text: string, i: nat): (r: Outcome<(Option<Token>, nat), LexError>)
    requires i < |text|
    ensures r.Success? ==> i < r.value.1 <= |text| + 1
    ensures r.Success? && r.value.0.Some? ==> r.value.0.value.kind != EOF && r.value.0.value.kind != Div
  {
    var c := text[i];
    if c == ' ' || c == '\t' then Success((None, i + 1))
    else if c == '/' then
      match ScanSlash(text, i)
      case Failure(e) => Failure(e)
      case Success(j) => Success((None, j))
    else if c == ';' || c == '\n' then Success((Some(Token(Newline, NoValue)), i + 1))
    else if IsDigit(c) then
      var (tok, j) := ScanNumber(text, i);
      Success((Some(tok), j))
    else if IsLetter(c) then
      var (tok, j) := ScanIdentifier(text, i);
      Success((Some(tok), j))
    else if c == '"' || c == '\'' then
      var (tok, j) := ScanString(text, i);
      Success((Some(tok), j))
    else if SingleCharKind(c).Some? then
      Success((Some(Token(SingleCharKind(c).value, NoValue)), i + 1))
    else if c == '!' then
      match ScanNotEquals(text, i)
      case Failure(e) => Failure(e)
      case Success((tok, j)) => Success((Some(tok), j))
    else if c == '=' then
      var (tok, j) := ScanEquals(text, i);
      Success((Some(tok), j))
    else if c == '<' then
      var (tok, j) := ScanComparison(text, i, LT, LTE);
      Success((Some(tok), j))
    else if c == '>' then
      var (tok, j) := ScanComparison(text, i, GT, GTE);
      Success((Some(tok), j))
    else
      Failure(IllegalChar("'" + [c] + "'"))
  }

  /** No token of `ts` is EOF or DIV. */
  predicate PlainTokens(ts: seq<Token>)
  {
    forall k | 0 <= k < |ts| :: ts[k].kind != EOF && ts[k].kind != Div
  }

  /** The loop of `make_tokens` from index `i` with the tokens `acc` so far. */
  function LexFrom(text: string, i: nat, acc: seq<Token>): (r: LexResult)
    ensures r.error.Some? ==> r.tokens == []
    decreases |text| - i
  {
    if i >= |text| then
      LexResult(acc + [EofToken], None)
    else
      match LexStep(text, i)
      case Failure(e) => LexResult([], Some(e))
      case Success((tok, j)) =>
        LexFrom(text, j, if tok.Some? then acc + [tok.value] else acc)
  }

  /** `acc` with the token of one turn, if it made one. */
  function Gathered(acc: seq<Token>, tok: Option<Token>): seq<Token>
  {
    if tok.Some? then acc + [tok.value] else acc
  }

  /** One successful turn of the loop: lexing goes on after it with the
      token gathered, and the gathered tokens stay plain. */
  lemma LexFromTurn(text: string, i: nat, acc: seq<Token>)
    requires i < |text| && LexStep(text, i).Success?
    ensures LexFrom(text, i, acc) == LexFrom(text, LexStep(text, i).value.1, Gathered(acc, LexStep(text, i).value.0))
    ensures PlainTokens(acc) ==> PlainTokens(Gathered(acc, LexStep(text, i).value.0))
  {
  }

  /** On success the loop extends `acc` with tokens that are neither EOF nor
      DIV and ends with exactly one EOF. */
  lemma {:induction false} LexFromShape(text: string, i: nat, acc: seq<Token>)
    requires PlainTokens(acc)
    ensures var r := LexFrom(text, i, acc);
      r.error.None? ==>
        |r.tokens| > |acc| && r.tokens[..|acc|] == acc &&
        r.tokens[|r.tokens| - 1] == EofToken && PlainTokens(r.tokens[..|r.tokens| - 1])
    decreases |text| - i
  {
    if i >= |text| {
      assert (acc + [EofToken])[..|acc|] == acc;
    } else if LexStep(text, i).Success? {
      var j := LexStep(text, i).value.1;
      var acc' := Gathered(acc, LexStep(text, i).value.0);
      LexFromTurn(text, i, acc);
      LexFromShape(text, j, acc');
      var r := LexFrom(text, j, acc');
      if r.error.None? {
        assert r.tokens[..|acc|] == r.tokens[..|acc'|][..|acc|];
      }
    }
  }

  /** The tokens of a whole program text. */
  function Lex(text: string): (r: LexResult)
    ensures r.error.Some? ==> r.tokens == []
  {
    LexFrom(text, 0, [])
  }

  /** A lexed program ends with exactly one EOF token, and holds no DIV. */
  lemma LexShape(text: string)
    ensures var r := Lex(text);
      r.error.None? ==>
        |r.tokens| > 0 && r.tokens[|r.tokens| - 1] == EofToken && PlainTokens(r.tokens[..|r.tokens| - 1])
  {
    LexFromShape(text, 0, []);
  }

  // ------------------------------------------------------------------ lemmas

  predicate Separator(c: char) { c == ' ' || c == '\t' || c == ';' || c == '\n' }

  /** The number of statement separators (';' and newlines) in `s`. */
  function SeparatorCount(s: string): nat
  {
    if s == [] then 0 else (if s[0] == ';' || s[0] == '\n' then 1 else 0) + SeparatorCount(s[1..])
  }

  /** One turn of the loop over a separator character: a space or a tab makes
      no token, a ';' or a newline makes one NEWLINE token. */
  lemma SeparatorStep(text: string, i: nat, acc: seq<Token>)
    requires i < |text| && Separator(text[i])
    ensures text[i] == ' ' || text[i] == '\t' ==> LexFrom(text, i, acc) == LexFrom(text, i + 1, acc)
    ensures text[i] == ';' || text[i] == '\n' ==>
      LexFrom(text, i, acc) == LexFrom(text, i + 1, acc + [Token(Newline, NoValue)])
  {
    if text[i] == ' ' || text[i] == '\t' {
      assert LexStep(text, i) == Success((None, i + 1));
    } else {
      assert LexStep(text, i) == Success((Some(Token(Newline, NoValue)), i + 1));
    }
  }

  /** `n` NEWLINE tokens. */
  function Newlines(n: nat): seq<Token>
  {
    if n == 0 then [] else [Token(Newline, NoValue)] + Newlines(n - 1)
  }

  lemma SeparatorCountStep(text: string, i: nat)
    requires i < |text|
    ensures SeparatorCount(text[i..]) == (if text[i] == ';' || text[i] == '\n' then 1 else 0) + SeparatorCount(text[i + 1..])
  {
    assert text[i..][1..] == text[i + 1..];
  }

  lemma NewlinesCons(acc: seq<Token>, n: nat)
    ensures acc + [Token(Newline, NoValue)] + Newlines(n) == acc + Newlines(n + 1)
  {
  }

  /** Spaces and tabs make no token and every ';' or newline makes exactly one
      NEWLINE token: text made only of them lexes to that many NEWLINEs and EOF. */
  lemma {:induction false} SeparatorsLex(text: string, i: nat, acc: seq<Token>)
    requires i <= |text| && forall k | i <= k < |text| :: Separator(text[k])
    ensures LexFrom(text, i, acc).error == None
    ensures LexFrom(text, i, acc).tokens == acc + Newlines(SeparatorCount(text[i..])) + [EofToken]
    decreases |text| - i
  {
    if i == |text| {
      assert acc + Newlines(0) == acc;
    } else {
      SeparatorCountStep(text, i);
      SeparatorStep(text, i, acc);
      if text[i] == ' ' || text[i] == '\t' {
        SeparatorsLex(text, i + 1, acc);
      } else {
        SeparatorsLex(text, i + 1, acc + [Token(Newline, NoValue)]);
        NewlinesCons(acc, SeparatorCount(text[i + 1..]));
      }
    }
  }

  /** A `//` comment is skipped through the newline that ends it, and that
      newline makes no NEWLINE token; a comment the text ends inside never ends. */
  lemma CommentSkipsLine(text: string, i: nat)
    requires i + 1 < |text| && text[i] == '/' && text[i + 1] == '/'
    ensures NewlineFrom(text, i + 2).Some? ==>
      LexStep(text, i) == Success((None, NewlineFrom(text, i + 2).value + 1))
    ensures NewlineFrom(text, i + 2).None? ==> LexStep(text, i) == Failure(Diverges)
  {
  }

  /** The operators that start with '=', '<' or '>': `=` is EQ, `==` is EE,
      `=>` is ARROW, and `<`, `<=`, `>`, `>=` are LT, LTE, GT, GTE; the
      longer form is taken whenever its second character follows. */
  lemma OperatorTokens(text: string, i: nat)
    requires i < |text|
    ensures text[i] == '=' ==>
      LexStep(text, i) == (if CharAt(text, i + 1) == Some('=') then Success((Some(Token(EE, NoValue)), i + 2))
                           else if CharAt(text, i + 1) == Some('>') then Success((Some(Token(Arrow, NoValue)), i + 2))
                           else Success((Some(Token(Eq, NoValue)), i + 1)))
    ensures text[i] == '<' ==>
      LexStep(text, i) == (if CharAt(text, i + 1) == Some('=') then Success((Some(Token(LTE, NoValue)), i + 2))
                           else Success((Some(Token(LT, NoValue)), i + 1)))
    ensures text[i] == '>' ==>
      LexStep(text, i) == (if CharAt(text, i + 1) == Some('=') then Success((Some(Token(GTE, NoValue)), i + 2))
                           else Success((Some(Token(GT, NoValue)), i + 1)))
  {
  }

  // ------------------------------------------------------------------ class

  /** The lexer object: the text and a cursor (`pos.idx`) with the character
      under it. */
  class Lexer {
    const text: string
    var idx: int
    var currentChar: Option<char>

    ghost predicate Valid()
      reads this
    {
      0 <= idx && currentChar == CharAt(text, idx)
    }

    /** The cursor starts before the text and is advanced once. */
    constructor (text: string)
      ensures Valid() && this.text == text && idx == 0
    {
      this.text := text;
      idx := -1;
      currentChar := None;
      new;
      Advance();
    }

    method Advance()
      requires idx >= -1
      modifies this
      ensures Valid() && idx == old(idx) + 1
    {
      idx := idx + 1;
      currentChar := CharAt(text, idx);
    }

    method MakeNumber() returns (tok: Token)
      requires Valid() && idx < |text| && IsDigit(text[idx])
      modifies this
      ensures Valid()
      ensures tok == ScanNumber(text, old(idx)).0 && idx == ScanNumber(text, old(idx)).1
    {
      var numStr := "";
      var dotCount := 0;
      ghost var start := idx;
      while currentChar.Some? && NumberChar(currentChar.value)
        invariant Valid() && start <= idx <= |text| && dotCount <= 1
        invariant NumberLoop(text, start, "", 0).0 == NumberLoop(text, idx, numStr, dotCount).0
        invariant NumberLoop(text, start, "", 0).1 == NumberLoop(text, idx, numStr, dotCount).1
        invariant NumberLoop(text, start, "", 0).2 == NumberLoop(text, idx, numStr, dotCount).2
        decreases |text| - idx
      {
        if currentChar.value == '.' {
          if dotCount == 1 {
            break;
          }
          dotCount := dotCount + 1;
          numStr := numStr + ".";
        } else {
          numStr := numStr + [currentChar.value];
        }
        Advance();
      }
      if dotCount == 0 {
        tok := Token(Int, IntValue(DigitsValue(numStr)));
      } else {
        tok := Token(Float, FloatLexeme(numStr));
      }
    }

    method MakeString() returns (tok: Token)
      requires Valid() && idx < |text|
      modifies this
      ensures Valid()
      ensures tok == ScanString(text, old(idx)).0 && idx == ScanString(text, old(idx)).1
    {
      var s := "";
      var escaping := false;
      var quote := currentChar.value;
      ghost var start := idx;
      Advance();
      while currentChar.Some? && (currentChar.value != quote || escaping)
        invariant Valid() && start < idx <= |text|
        invariant StringLoop(text, start + 1, quote, "", false).0 == StringLoop(text, idx, quote, s, escaping).0
        invariant StringLoop(text, start + 1, quote, "", false).1 == StringLoop(text, idx, quote, s, escaping).1
        decreases |text| - idx
      {
        if escaping {
          s := s + [Escape(currentChar.value)];
          escaping := false;
        } else if currentChar.value == '\\' {
          escaping := true;
        } else {
          s := s + [currentChar.value];
        }
        Advance();
      }
      Advance();
      tok := Token(Str, Text(s));
    }

    method MakeIdentifier() returns (tok: Token)
      requires Valid() && idx < |text| && IsLetter(text[idx])
      modifies this
      ensures Valid()
      ensures tok == ScanIdentifier(text, old(idx)).0 && idx == ScanIdentifier(text, old(idx)).1
    {
      var s := "";
      ghost var start := idx;
      while currentChar.Some? && IsIdentChar(currentChar.value)
        invariant Valid() && start <= idx <= |text|
        invariant IdentLoop(text, start, "").0 == IdentLoop(text, idx, s).0
        invariant IdentLoop(text, start, "").1 == IdentLoop(text, idx, s).1
        decreases |text| - idx
      {
        s := s + [currentChar.value];
        Advance();
      }
      tok := Token(if s in KeywordsList then Keyword else Identifier, Text(s));
    }

    /** `skip_comment`, entered on the second '/'. It reports whether the
        source's loop ends: it does not when no newline follows. */
    method SkipComment() returns (ends: bool)
      requires Valid() && idx < |text|
      modifies this
      ensures Valid()
      ensures ends <==> NewlineFrom(text, old(idx) + 1).Some?
      ensures ends ==> idx == NewlineFrom(text, old(idx) + 1).value + 1
    {
      Advance();
      ghost var start := idx;
      while currentChar.Some? && currentChar.value != '\n'
        invariant Valid() && start <= idx <= |text|
        invariant NewlineFrom(text, start) == NewlineFrom(text, idx)
        decreases |text| - idx
      {
        Advance();
      }
      if currentChar.None? {
        return false;
      }
      Advance();
      ends := true;
    }

    method MakeSlash() returns (error: Option<LexError>)
      requires Valid() && idx < |text| && text[idx] == '/'
      modifies this
      ensures Valid()
      ensures error.None? <==> ScanSlash(text, old(idx)).Success?
      ensures error.None? ==> idx == ScanSlash(text, old(idx)).value
      ensures error.Some? ==> error.value == ScanSlash(text, old(idx)).error
    {
      Advance();
      if currentChar == Some('/') {
        var ends := SkipComment();
        if !ends {
          return Some(Diverges);
        }
        return None;
      }
      if currentChar.None? {
        return Some(Crash("TypeError: a '/' ends the text"));
      }
      error := Some(IllegalChar("'" + [currentChar.value] + "'"));
    }

    method MakeNotEquals() returns (r: Outcome<Token, LexError>)
      requires Valid() && idx < |text| && text[idx] == '!'
      modifies this
      ensures Valid()
      ensures r.Success? ==> ScanNotEquals(text, old(idx)) == Success((r.value, idx))
      ensures r.Failure? ==> ScanNotEquals(text, old(idx)) == Failure(r.error)
    {
      Advance();
      if currentChar == Some('=') {
        Advance();
        return Success(Token(NE, NoValue));
      }
      Advance();
      r := Failure(ExpectedChar("'=' (after '!')"));
    }

    method MakeEquals() returns (tok: Token)
      requires Valid() && idx < |text| && text[idx] == '='
      modifies this
      ensures Valid()
      ensures tok == ScanEquals(text, old(idx)).0 && idx == ScanEquals(text, old(idx)).1
    {
      var kind := Eq;
      Advance();
      if currentChar == Some('=') {
        Advance();
        kind := EE;
      } else if currentChar == Some('>') {
        Advance();
        kind := Arrow;
      }
      tok := Token(kind, NoValue);
    }

    /** `make_less_than` (`plain` LT) and `make_greater_than` (`plain` GT). */
    method MakeComparison(plain: TokenType, orEqual: TokenType) returns (tok: Token)
      requires Valid() && idx < |text|
      modifies this
      ensures Valid()
      ensures tok == ScanComparison(text, old(idx), plain, orEqual).0
      ensures idx == ScanComparison(text, old(idx), plain, orEqual).1
    {
      var kind := plain;
      Advance();
      if currentChar == Some('=') {
        Advance();
        kind := orEqual;
      }
      tok := Token(kind, NoValue);
    }

    /** One turn of `make_tokens`' loop, at a character: the token it appends,
        if any, or the error that ends the loop. */
    method MakeToken() returns (tok: Option<Token>, error: Option<LexError>)
      requires Valid() && idx < |text|
      modifies this
      ensures Valid()
      ensures error.None? <==> LexStep(text, old(idx)).Success?
      ensures error.Some? ==> error.value == LexStep(text, old(idx)).error
      ensures error.None? ==> tok == LexStep(text, old(idx)).value.0 && idx == LexStep(text, old(idx)).value.1
    {
      tok, error := None, None;
      var c := currentChar.value;
      if c == ' ' || c == '\t' {
        Advance();
      } else if c == '/' {
        error := MakeSlash();
      } else if c == ';' || c == '\n' {
        tok := Some(Token(Newline, NoValue));
        Advance();
      } else if IsDigit(c) {
        var t := MakeNumber();
        tok := Some(t);
      } else if IsLetter(c) {
        var t := MakeIdentifier();
        tok := Some(t);
      } else if c == '"' || c == '\'' {
        var t := MakeString();
        tok := Some(t);
      } else if SingleCharKind(c).Some? {
        tok := Some(Token(SingleCharKind(c).value, NoValue));
        Advance();
      } else if c == '!' {
        var res := MakeNotEquals();
        if res.Failure? {
          error := Some(res.error);
        } else {
          tok := Some(res.value);
        }
      } else if c == '=' {
        var t := MakeEquals();
        tok := Some(t);
      } else if c == '<' {
        var t := MakeComparison(LT, LTE);
        tok := Some(t);
      } else if c == '>' {
        var t := MakeComparison(GT, GTE);
        tok := Some(t);
      } else {
        Advance();
        error := Some(IllegalChar("'" + [c] + "'"));
      }
    }

    method MakeTokens() returns (r: LexResult)
      requires Valid() && idx <= |text|
      modifies this
      ensures r == LexFrom(text, old(idx), [])
    {
      var tokens: seq<Token> := [];
      ghost var start := idx;
      while currentChar.Some?
        invariant Valid() && idx <= |text| + 1
        invariant LexFrom(text, idx, tokens) == LexFrom(text, start, [])
        decreases |text| + 1 - idx
      {
        var tok, error := MakeToken();
        if error.Some? {
          return LexResult([], error);
        }
        if tok.Some? {
          tokens := tokens + [tok.value];
        }
      }
      r := LexResult(tokens + [EofToken], None);
    }
  }

  /** `Lexer(fn, text).make_tokens()`: the tokens of the text, the last of them
      and only it EOF, and none of them DIV; or an error and no tokens. */
  method Tokenize(text: string) returns (r: LexResult)
    ensures r == Lex(text)
    ensures r.error.Some? ==> r.tokens == []
    ensures r.error.None? ==>
      |r.tokens| > 0 && r.tokens[|r.tokens| - 1] == EofToken && PlainTokens(r.tokens[..|r.tokens| - 1])
  {
    var lexer := new Lexer(text);
    r := lexer.MakeTokens();
    LexShape(text);
  }
}
