# BananaLang interpreter core in Dafny

BananaLang is a small dynamically typed scripting language. Its interpreter is
written in Python. A program text goes through a lexer that turns it into
tokens (`src/lexer.py`) and a recursive-descent parser that builds a syntax
tree (`src/parser.py`). A tree-walking evaluator then runs the tree
(`src/interpreter.py`). It works over the runtime value classes (`src/types.py`),
symbol tables chained to their parents (`src/symbol_table.py`) and the built-in
functions (`src/built_in.py`). This project models that core in Dafny and
proves properties of the model.

Modules, one per part of the interpreter:

| file | module | models |
|---|---|---|
| `wrappers.dfy` | `Wrappers` | `Option` and `Outcome` (value or error) |
| `tokens.dfy` | `Tokens` | token kinds, keywords, the escape table, character classes (`src/rt_types.py`, `src/lexer.py`) |
| `lexer.dfy` | `Lexing` | the lexer: scanning rules as functions, and the class `Lexer` whose methods are proved to compute them |
| `ast.dfy` | `Syntax` | the syntax-tree nodes |
| `grammar.dfy` | `Grammar` | every parser production as a function over the token list and a cursor, with `ParseResult`'s bookkeeping |
| `parser.dfy` | `Parsing` | the class `Parser`: one method per production, proved equal to its grammar function |
| `grammar_facts.dfy` | `GrammarFacts` | properties of the grammar: association, precedence, backtracking, the body forms |
| `scope.dfy` | `Scopes` | `SymbolTable` as a class, and the lookup through the parent chain |
| `numerals.dfy` | `Numerals` | `str()` and `int()` on integers |
| `values.dfy` | `Values` | runtime values, the store, `copy()`, the operators of each value class, argument binding |
| `builtins.dfy` | `BuiltIns` | the built-in functions other than console I/O, and `register_var`/`unregister_var` |
| `interpreter.dfy` | `Interpreter` | the visit of every node kind, calls and the control signals |
| `interpreter_facts.dfy` | `InterpreterFacts`, `EvaluationFacts` | properties of evaluation |

How the evaluator is modelled:

- **The store.** Python objects that can be shared and changed in place are
  kept in an explicit store: the symbol tables, the element buffers of lists
  and the element maps of objects. A value refers to them by index, so
  aliasing and in-place updates of lists, objects and tables (`append`,
  `a.b = e`, assignment) behave as in the source. A function value keeps the
  index of its defining table (its context) as part of the value itself, so a
  change of context reaches only the copy that receives it; the source changes
  it in place on the shared object (see `Values.WithContext` under Left out).
- **Two symbol tables, one lookup.** `Scopes.SymbolTable` models
  `symbol_table.py` itself as a class with its own map updated in place
  (`get`, `set`, `remove`). The evaluator works on the store's tables instead,
  because closures and calls create and share tables. Both answer reads with
  the same function, `Scopes.Lookup`, so what is proved about one holds for the
  other. The operations that the source performs on one table object are
  methods on the class: `Values.BindArguments` (the parameter loop of
  `Function.execute`) and `BuiltIns.RegisterVar`/`BuiltIns.UnregisterVar`.
- **Fuel.** Loops and calls consume a fuel count. A program that runs out of
  it ends with a distinguished `OutOfFuel` fault. A `while` that never ends
  runs out of fuel instead.
- **Two readings.** `Interpreter.Reading` chooses which program is evaluated.
  `AsWritten` is the source as it stands, with its two defects (see
  Findings): copying null and building a function both crash. Under the
  result protocol the source relies on (see `Interpreter.Returned` under Left
  out), a `return` inside a function also hands back no value as written.
  `Intended` is the evidently intended program. Every lemma that holds for
  both is stated for both.
- **Lexer and parser** are imperative, as in the source. Each method's
  `ensures` ties its result and the new cursor to a function over the text or
  the token list. The properties are then proved about those functions.

## Model

| member | source | states |
|---|---|---|
| Tokens.Escape | src/rt_types.py:33-36 | `n` and `t` stand for a newline and a tab; every other character stands for itself |
| Lexing.NumberLoopMeaning | src/lexer.py:134-141 | the number loop gathers exactly the characters it passes, counts their dots, never passes a second dot, and stops at the first character that is neither a digit nor an allowed dot |
| Lexing.ScanNumber | src/lexer.py:129-146 | a number token ends after its start and within the text |
| Lexing.ScanNumberMeaning | src/lexer.py:129-146 | a number is the longest run of digits with at most one dot; it is an INT holding the digits' value when there is no dot, otherwise a FLOAT holding the lexeme |
| Lexing.StringLoopMeaning | src/lexer.py:157-166 | the string loop stops on the closing quote or at the end of the text; it gathers the unescaped text it passed, in which every quote was escaped |
| Lexing.ScanString | src/lexer.py:148-170 | a string token takes at least its two quote positions |
| Lexing.ScanStringMeaning | src/lexer.py:148-170 | a string runs from its quote to the first unescaped occurrence of the same quote; its value is its body unescaped; scanning resumes after the closing quote |
| Lexing.IdentLoopMeaning | src/lexer.py:263-265 | the identifier loop gathers the longest run of letters, digits and underscores |
| Lexing.ScanIdentifier | src/lexer.py:259-268 | an identifier token ends after its first letter |
| Lexing.ScanIdentifierMeaning | src/lexer.py:259-268 | a word is the longest run of identifier characters; it is a KEYWORD token exactly when it is a reserved word, otherwise an IDENTIFIER, and it holds its text either way |
| Lexing.ScanSlash | src/lexer.py:118-127 | `//` skips through the next newline; without a newline the loop never ends; a `/` followed by anything else is an illegal-character error naming that character |
| Lexing.ScanNotEquals | src/lexer.py:270-279 | `!` succeeds exactly when `=` follows, giving NE; otherwise it is the "'=' (after '!')" error |
| Lexing.OperatorTokens | src/lexer.py:281-315 | `=` is EQ, `==` is EE and `=>` is ARROW; `<` is LT and `<=` is LTE; `>` is GT and `>=` is GTE |
| Lexing.LexStep | src/lexer.py:25-105 | a turn of the token loop moves forward and never yields EOF or DIV (the second `/` branch is unreachable) |
| Lexing.LexFrom | src/lexer.py:22-108 | an error comes with no tokens |
| Lexing.LexFromShape | src/lexer.py:22-108 | on success the loop keeps the tokens it had, adds tokens that are neither EOF nor DIV, and ends with exactly one EOF |
| Lexing.Lex | src/lexer.py:22-108 | an error comes with no tokens |
| Lexing.LexShape | src/lexer.py:107-108 | a lexed program ends with exactly one EOF token and holds no DIV |
| Lexing.SeparatorStep | src/lexer.py:26-35 | a space or a tab makes no token; `;` and a newline each make one NEWLINE |
| Lexing.SeparatorsLex | src/lexer.py:25-35 | a text of separators lexes to one NEWLINE per `;` or newline, then EOF |
| Lexing.CommentSkipsLine | src/lexer.py:110-125 | a `//` comment is skipped through the newline that ends it, and that newline makes no token; without a newline the lexer never stops |
| Lexing.Lexer.constructor | src/lexer.py:11-16 | the cursor starts on the first character |
| Lexing.Lexer.Advance | src/lexer.py:18-20 | moves the cursor by one and updates the current character |
| Lexing.Lexer.MakeNumber | src/lexer.py:129-146 | returns the token `ScanNumber` gives and leaves the cursor where it says |
| Lexing.Lexer.MakeString | src/lexer.py:148-170 | returns the token `ScanString` gives and leaves the cursor where it says |
| Lexing.Lexer.MakeIdentifier | src/lexer.py:259-268 | returns the token `ScanIdentifier` gives and leaves the cursor where it says |
| Lexing.Lexer.SkipComment | src/lexer.py:110-116 | ends exactly when a newline follows, with the cursor just past it |
| Lexing.Lexer.MakeSlash | src/lexer.py:118-127 | succeeds exactly when `ScanSlash` does, with the same error or the same end |
| Lexing.Lexer.MakeNotEquals | src/lexer.py:270-279 | gives what `ScanNotEquals` gives |
| Lexing.Lexer.MakeEquals | src/lexer.py:281-294 | gives what `ScanEquals` gives |
| Lexing.Lexer.MakeComparison | src/lexer.py:296-315 | gives what `ScanComparison` gives, for `<` and for `>` |
| Lexing.Lexer.MakeToken | src/lexer.py:26-105 | one turn of the loop does what `LexStep` says: the same error, or the same token and cursor |
| Lexing.Lexer.MakeTokens | src/lexer.py:22-108 | returns `LexFrom` of the text from the cursor |
| Lexing.Tokenize | src/lexer.py:22-108 | lexing a text gives `Lex(text)`: on success the tokens end with one EOF and hold no DIV; on error, no tokens |
| Grammar.ParseFrom | src/parser.py:32-46 | the statements must stop at EOF, at a keyword or at a dot, or at an identifier right after AS; otherwise "Expected operator" |
| Grammar.SkipNewlines | src/parser.py:53-55 | passes over NEWLINE tokens only, counting each as one advance |
| Grammar.Statements | src/parser.py:48-84 | the advance count is exactly how far the cursor moved; a success consumed a token and carries a node |
| Grammar.StatementsLoop | src/parser.py:63-78 | the loop's advance count grows by exactly how far the cursor moved |
| Grammar.Statement | src/parser.py:86-117 | as `Statements`, for RETURN, CONTINUE, BREAK and expression statements |
| Grammar.Expr | src/parser.py:857-893 | as `Statements`, for `VAR` assignments and AND/OR chains |
| Grammar.CompExpr | src/parser.py:833-855 | as `Statements`, for `NOT` and comparison chains |
| Grammar.Operand | src/parser.py:808-831 | as `Statements`, for each level's operand production |
| Grammar.BinOp | src/parser.py:895-910 | as `Statements`, for `bin_op` at every level |
| Grammar.BinOpLoop | src/parser.py:902-908 | the operator loop's advance count grows by exactly how far it moved |
| Grammar.Factor | src/parser.py:811-822 | as `Statements`, for signs and powers |
| Grammar.Call | src/parser.py:768-806 | as `Statements`, for an atom with an optional argument list |
| Grammar.CallOpen | src/parser.py:773-780 | the part after `(` keeps the count consistent with the cursor |
| Grammar.FirstArg | src/parser.py:782-788 | the first argument keeps the count consistent with the cursor |
| Grammar.CallArgs | src/parser.py:789-803 | the argument loop keeps the count consistent with the cursor |
| Grammar.Atom | src/parser.py:698-766 | as `Statements`, for every atom |
| Grammar.Parenthesized | src/parser.py:726-736 | `( expr )` keeps the count consistent with the cursor |
| Grammar.Delegate | src/parser.py:722-764 | the productions `atom` hands over to keep the count consistent with the cursor |
| Grammar.IdentifierExpr | src/parser.py:605-658 | as `Statements`, for names, assignments and dot chains |
| Grammar.Named | src/parser.py:615-658 | `identifier_expr` from its name on keeps the count consistent |
| Grammar.AfterName | src/parser.py:620-658 | what follows a name keeps the count consistent |
| Grammar.Assignment | src/parser.py:620-626 | `= e` after a name keeps the count consistent |
| Grammar.DotNames | src/parser.py:632-655 | the `.name` loop keeps the count consistent |
| Grammar.ListExpr | src/parser.py:470-517 | as `Statements`, for list literals |
| Grammar.ListOpen | src/parser.py:475-486 | the part after `[` keeps the count consistent |
| Grammar.FirstItem | src/parser.py:488-493 | the first element keeps the count consistent |
| Grammar.ListItems | src/parser.py:495-509 | the element loop keeps the count consistent |
| Grammar.ObjectExpr | src/parser.py:519-603 | as `Statements`, for object literals |
| Grammar.ObjectOpen | src/parser.py:524-536 | the part after `{` keeps the count consistent |
| Grammar.FirstKey | src/parser.py:537-555 | the first key and its colon keep the count consistent |
| Grammar.FirstEntry | src/parser.py:557-564 | the first value keeps the count consistent |
| Grammar.ObjectEntries | src/parser.py:566-596 | the entry loop keeps the count consistent |
| Grammar.EntryTurn | src/parser.py:566-588 | one turn of the entry loop moves by its advance count |
| Grammar.KeyedEntry | src/parser.py:570-587 | a `key: expr` entry moves by its advance count |
| Grammar.EntryValue | src/parser.py:576-587 | the colon and value of an entry move by its advance count |
| Grammar.IfExpr | src/parser.py:228-233 | as `Statements`; a success holds an `IfNode` |
| Grammar.IfCases | src/parser.py:283-335 | the cases keep the count consistent and a success holds its branches |
| Grammar.Case | src/parser.py:288-307 | a case from its keyword keeps the count consistent |
| Grammar.CaseCondition | src/parser.py:297-303 | the condition and its THEN keep the count consistent |
| Grammar.CaseThen | src/parser.py:300-307 | THEN and the body keep the count consistent |
| Grammar.CaseBody | src/parser.py:309-333 | the body after THEN keeps the count consistent |
| Grammar.CaseBlock | src/parser.py:309-324 | a block case keeps the count consistent |
| Grammar.MoreCases | src/parser.py:321-333 | the cases after the first keep the count consistent |
| Grammar.IfElifOrElse | src/parser.py:269-281 | ELIF cases or the else case keep the count consistent |
| Grammar.IfElse | src/parser.py:238-267 | the optional ELSE keeps the count consistent |
| Grammar.Else | src/parser.py:242-265 | ELSE and its body keep the count consistent |
| Grammar.ElseBody | src/parser.py:246-265 | the body after ELSE keeps the count consistent |
| Grammar.ElseBlock | src/parser.py:246-261 | a block ELSE keeps the count consistent |
| Grammar.LoopBody | src/parser.py:400-421 | the body of a loop keeps the count consistent |
| Grammar.ForExpr | src/parser.py:337-421 | as `Statements`, for `for` loops |
| Grammar.ForStart | src/parser.py:365-378 | the start value and TO keep the count consistent |
| Grammar.ForEnd | src/parser.py:380-381 | the end value keeps the count consistent |
| Grammar.ForStep | src/parser.py:383-389 | the optional STEP keeps the count consistent |
| Grammar.ForBody | src/parser.py:391-421 | THEN and the body keep the count consistent |
| Grammar.WhileExpr | src/parser.py:423-468 | as `Statements`, for `while` loops |
| Grammar.FuncDef | src/parser.py:119-226 | as `Statements`, for function definitions |
| Grammar.FuncParams | src/parser.py:149-185 | the parameter list keeps the count consistent |
| Grammar.ParamsOpen | src/parser.py:153-182 | the part after `(` keeps the count consistent |
| Grammar.FirstParam | src/parser.py:153-157 | the first parameter keeps the count consistent |
| Grammar.NoParams | src/parser.py:177-185 | `)` without parameters keeps the count consistent |
| Grammar.ParamList | src/parser.py:158-176 | the parameter loop keeps the count consistent |
| Grammar.FuncBody | src/parser.py:187-226 | the body keeps the count consistent |
| Grammar.ImportExpr | src/parser.py:660-696 | as `Statements`, for imports |
| Grammar.ImportLib | src/parser.py:670-674 | the library expression keeps the count consistent |
| Grammar.ImportAs | src/parser.py:676-694 | `AS name` keeps the count consistent |
| GrammarFacts.LoopFolds | src/parser.py:902-908 | the operator loop builds the left fold of the operators it reads, each with its right operand |
| GrammarFacts.BinOpFolds | src/parser.py:895-910 | `bin_op` at every level, AND/OR included, associates to the left: the first operand, then the fold of the operator chain |
| GrammarFacts.FactorStops | src/parser.py:811-822 | a sign applies to the whole factor after it |
| GrammarFacts.PowerChainShort | src/parser.py:808-809 | the `^` chain of `power` holds at most one operator |
| GrammarFacts.PowerRightAssociative | src/parser.py:808-822 | `a ^ b ^ c` is `a ^ (b ^ c)`: a power is its call, or its call raised to a factor |
| GrammarFacts.NameThenEqualsCall | src/parser.py:768-806 | the identifier of `x == 1` parses on its own as a `call` |
| GrammarFacts.NameThenEqualsChain | src/parser.py:833-855 | so does every `bin_op` level down to the dot chain |
| GrammarFacts.IdentifierComparisonRejected | src/parser.py:32-46 | an expression that starts `x ==` stops after `x`, and `parse` rejects it with "Expected operator" |
| GrammarFacts.LoopNeverFails | src/parser.py:63-78 | the statement loop never fails, and its statements extend those before it |
| GrammarFacts.FailedTryRestores | src/parser.py:70-73 | a statement that fails after a separator is given back: the cursor returns to it and the result is unchanged |
| GrammarFacts.StatementsNeedOne | src/parser.py:48-62 | `statements` succeeds exactly when one statement parses after the leading newlines |
| GrammarFacts.LoopBodyEnds | src/parser.py:447-463 | a block loop body ends with END |
| GrammarFacts.ForBodyForm | src/parser.py:400-421 | a block `for` body sets the null flag, an inline one clears it |
| GrammarFacts.WhileBodyForm | src/parser.py:447-468 | the same two forms for `while` |
| GrammarFacts.FuncBodyForm | src/parser.py:187-198 | `=> expr` sets auto-return |
| GrammarFacts.FuncBlockForm | src/parser.py:200-226 | a block body clears auto-return and must end with END |
| GrammarFacts.CaseBodyForm | src/parser.py:309-333 | the first case holds its condition and its null flag |
| GrammarFacts.CaseBlockForm | src/parser.py:309-324 | a block case sets the null flag |
| GrammarFacts.MoreCasesFirst | src/parser.py:321-324 | the cases after the first are appended to it |
| GrammarFacts.ElseBodyForm | src/parser.py:246-265 | the ELSE case has the same two forms |
| GrammarFacts.DotNamesForms | src/parser.py:627-655 | a dot chain is a multi-name access, or with `= e` a multi-name assignment |
| GrammarFacts.AfterNameForms | src/parser.py:620-658 | `= e` after a name is an updating assignment, a dot starts a chain, anything else is a read |
| GrammarFacts.VarDeclares | src/parser.py:857-880 | `VAR x = e` is a declaring, not updating, assignment |
| GrammarFacts.CommaSkipped | src/parser.py:566-574 | a comma in an object literal not followed by a name is skipped |
| GrammarFacts.TrailingComma | src/parser.py:566-596 | so a trailing comma before `}` is accepted |
| Parsing.Parser.constructor | src/parser.py:7-11 | the cursor starts on the first token |
| Parsing.Parser.UpdateCurrentTok | src/parser.py:28-30 | the current token follows the index while the index is on the list |
| Parsing.Parser.Advance | src/parser.py:13-16 | moves the cursor forward by one |
| Parsing.Parser.Deadvance | src/parser.py:18-21 | moves the cursor back by one |
| Parsing.Parser.Reverse | src/parser.py:23-26 | moves the cursor back by the amount |
| Parsing.Parser.Parse | src/parser.py:32-46 | returns `Grammar.ParseFrom` and leaves the cursor where it says |
| Parsing.Parser.SkipNewlines | src/parser.py:53-55 | returns `Grammar.SkipNewlines` and the number of newlines passed |
| Parsing.Parser.Statements | src/parser.py:48-84 | returns `Grammar.Statements` and leaves the cursor where it says |
| Parsing.Parser.MoreStatements | src/parser.py:63-78 | the loop of `statements` returns `Grammar.StatementsLoop` |
| Parsing.Parser.Statement | src/parser.py:86-117 | returns `Grammar.Statement` |
| Parsing.Parser.Expr | src/parser.py:857-893 | returns `Grammar.Expr` |
| Parsing.Parser.CompExpr | src/parser.py:833-855 | returns `Grammar.CompExpr` |
| Parsing.Parser.Operand | src/parser.py:808-831 | returns `Grammar.Operand` |
| Parsing.Parser.OperatorTurn | src/parser.py:902-908 | one operator and its right operand continue the loop as `Grammar.BinOpLoop` says |
| Parsing.Parser.BinOp | src/parser.py:895-910 | returns `Grammar.BinOp` |
| Parsing.Parser.Factor | src/parser.py:811-822 | returns `Grammar.Factor` |
| Parsing.Parser.Call | src/parser.py:768-806 | returns `Grammar.Call` |
| Parsing.Parser.CallOpen | src/parser.py:773-780 | returns `Grammar.CallOpen` |
| Parsing.Parser.FirstArg | src/parser.py:782-788 | returns `Grammar.FirstArg` |
| Parsing.Parser.MoreArgs | src/parser.py:789-803 | returns `Grammar.CallArgs` |
| Parsing.Parser.Atom | src/parser.py:698-766 | returns `Grammar.Atom` |
| Parsing.Parser.Parenthesized | src/parser.py:726-736 | returns `Grammar.Parenthesized` |
| Parsing.Parser.Delegate | src/parser.py:722-764 | returns `Grammar.Delegate` |
| Parsing.Parser.IdentifierExpr | src/parser.py:605-658 | returns `Grammar.IdentifierExpr` |
| Parsing.Parser.Named | src/parser.py:615-658 | returns `Grammar.Named` |
| Parsing.Parser.AfterName | src/parser.py:620-658 | returns `Grammar.AfterName` |
| Parsing.Parser.Assignment | src/parser.py:620-626 | returns `Grammar.Assignment` |
| Parsing.Parser.MoreNames | src/parser.py:632-655 | returns `Grammar.DotNames` |
| Parsing.Parser.ListExpr | src/parser.py:470-517 | returns `Grammar.ListExpr` |
| Parsing.Parser.ListOpen | src/parser.py:475-486 | returns `Grammar.ListOpen` |
| Parsing.Parser.FirstItem | src/parser.py:488-493 | returns `Grammar.FirstItem` |
| Parsing.Parser.MoreItems | src/parser.py:495-509 | returns `Grammar.ListItems` |
| Parsing.Parser.ObjectExpr | src/parser.py:519-603 | returns `Grammar.ObjectExpr` |
| Parsing.Parser.ObjectOpen | src/parser.py:524-536 | returns `Grammar.ObjectOpen` |
| Parsing.Parser.FirstKey | src/parser.py:537-555 | returns `Grammar.FirstKey` |
| Parsing.Parser.FirstEntry | src/parser.py:557-564 | returns `Grammar.FirstEntry` |
| Parsing.Parser.NextEntry | src/parser.py:566-588 | one turn of the entry loop gives `Grammar.EntryTurn` |
| Parsing.Parser.KeyedEntry | src/parser.py:570-587 | gives `Grammar.KeyedEntry` |
| Parsing.Parser.EntryValue | src/parser.py:576-587 | gives `Grammar.EntryValue` |
| Parsing.Parser.MoreEntries | src/parser.py:566-596 | returns `Grammar.ObjectEntries` |
| Parsing.Parser.IfExpr | src/parser.py:228-233 | returns `Grammar.IfExpr` |
| Parsing.Parser.IfExprB | src/parser.py:235-236 | returns `Grammar.IfCases` for ELIF |
| Parsing.Parser.IfExprC | src/parser.py:238-267 | returns `Grammar.IfElse` |
| Parsing.Parser.Else | src/parser.py:242-265 | returns `Grammar.Else` |
| Parsing.Parser.ElseBody | src/parser.py:246-265 | returns `Grammar.ElseBody` |
| Parsing.Parser.ElseBlock | src/parser.py:246-261 | returns `Grammar.ElseBlock` |
| Parsing.Parser.IfExprBOrC | src/parser.py:269-281 | returns `Grammar.IfElifOrElse` |
| Parsing.Parser.IfCases | src/parser.py:283-335 | returns `Grammar.IfCases` |
| Parsing.Parser.Case | src/parser.py:288-307 | returns `Grammar.Case` |
| Parsing.Parser.CaseCondition | src/parser.py:297-303 | returns `Grammar.CaseCondition` |
| Parsing.Parser.CaseThen | src/parser.py:300-307 | returns `Grammar.CaseThen` |
| Parsing.Parser.CaseBody | src/parser.py:309-333 | returns `Grammar.CaseBody` |
| Parsing.Parser.CaseBlock | src/parser.py:309-324 | returns `Grammar.CaseBlock` |
| Parsing.Parser.MoreCases | src/parser.py:321-333 | returns `Grammar.MoreCases` |
| Parsing.Parser.ForExpr | src/parser.py:337-421 | returns `Grammar.ForExpr` |
| Parsing.Parser.ForStart | src/parser.py:365-378 | returns `Grammar.ForStart` |
| Parsing.Parser.ForEnd | src/parser.py:380-381 | returns `Grammar.ForEnd` |
| Parsing.Parser.ForStep | src/parser.py:383-389 | returns `Grammar.ForStep` |
| Parsing.Parser.ForBody | src/parser.py:391-421 | returns `Grammar.ForBody` |
| Parsing.Parser.WhileExpr | src/parser.py:423-468 | returns `Grammar.WhileExpr` |
| Parsing.Parser.LoopBody | src/parser.py:447-468 | returns `Grammar.LoopBody` and whether the body is a block |
| Parsing.Parser.FuncDef | src/parser.py:119-226 | returns `Grammar.FuncDef` |
| Parsing.Parser.FuncParams | src/parser.py:149-185 | returns `Grammar.FuncParams` |
| Parsing.Parser.ParamsOpen | src/parser.py:153-182 | returns `Grammar.ParamsOpen` |
| Parsing.Parser.FirstParam | src/parser.py:153-157 | returns `Grammar.FirstParam` |
| Parsing.Parser.NoParams | src/parser.py:177-185 | returns `Grammar.NoParams` |
| Parsing.Parser.ParamList | src/parser.py:158-176 | returns `Grammar.ParamList` |
| Parsing.Parser.FuncBody | src/parser.py:187-226 | returns `Grammar.FuncBody` |
| Parsing.Parser.ImportExpr | src/parser.py:660-696 | returns `Grammar.ImportExpr` |
| Parsing.Parser.ImportLib | src/parser.py:670-674 | returns `Grammar.ImportLib` |
| Parsing.Parser.ImportAs | src/parser.py:676-694 | returns `Grammar.ImportAs` |
| Parsing.ParseTokens | src/parser.py:32-46 | parsing a token list gives `Grammar.ParseFrom` from its first token |
| Scopes.Lookup | src/symbol_table.py:6-10 | a name reads as none exactly when no scope of the chain holds a value for it, and otherwise as a value some scope holds |
| Scopes.LookupNearest | src/symbol_table.py:6-10 | the answer comes from the nearest scope that holds a value |
| Scopes.OwnBindingWins | src/symbol_table.py:6-8 | a value in the own map is the answer |
| Scopes.MissingAsksParent | src/symbol_table.py:8-10 | a name missing from the own map, or bound there to None, asks the parent; without a parent it reads as none |
| Scopes.GetAfterSet | src/symbol_table.py:12-13 | after `set` the name reads as the new value and every other name reads as before |
| Scopes.GetAfterRemove | src/symbol_table.py:15-16 | after `remove` the name reads as the parents read it and every other name reads as before |
| Scopes.SymbolTable.Scopes | src/symbol_table.py:2-4 | a table's chain starts with its own symbols |
| Scopes.SymbolTable.constructor | src/symbol_table.py:2-4 | a new table has no symbols and its chain is its parent's with an empty map in front |
| Scopes.SymbolTable.Get | src/symbol_table.py:6-10 | `get` gives the lookup through the chain |
| Scopes.SymbolTable.Set | src/symbol_table.py:12-13 | `set` overwrites the own binding only; the parents are untouched |
| Scopes.SymbolTable.Remove | src/symbol_table.py:15-16 | `remove` deletes the own binding and fails exactly when the name is missing, with the text `KeyError: 'name'` |
| Numerals.NatToString | src/types.py:153-154 | the numeral is all digits, and it starts with 0 only for zero |
| Numerals.IntToString | src/types.py:153-154 | a minus sign exactly for negative numbers, followed by the numeral |
| Numerals.NatToStringRoundTrip | src/types.py:153-154 | reading a numeral back gives the number it was written from |
| Numerals.ParseInt | src/built_in.py:165-189 | `int()` succeeds exactly when the text, with surrounding white space stripped, is an optional sign followed by one or more digits, optionally grouped by single underscores; a negative result was written with a minus |
| Numerals.ParseIntReadsNumeral | src/built_in.py:165-189 | a numeral in the form `str()` writes, with any white space around it, reads as the integer whose numeral it is |
| Numerals.LeadingSpaceIgnored | src/built_in.py:165-189 | `int()` skips white space before the number, including the separators 28 to 31 |
| Numerals.IntToStringRoundTrip | src/built_in.py:165-189 | `int(str(i)) == i` for every integer |
| Values.CopyAsWritten | src/types.py:244-248 | as written, copying null crashes; every other copy is the intended one |
| Values.Copy | src/types.py:146-150 | a list copy gets a new buffer with the same elements; every other value copies to itself |
| Values.CopyPreserves | src/types.py:296-300 | a copy has the same type, the same truthiness and the same elements as its original |
| Values.CopyAsWrittenOnlyDiffersOnNull | src/types.py:244-248 | the two copies differ exactly on null |
| Values.IntPow | src/types.py:119-124 | integer power succeeds exactly on a non-negative exponent |
| Values.AddedTo | src/types.py:87-94 | `+` changes the store at most by one new list |
| Values.SubbedBy | src/types.py:96-101 | `-` changes the store at most by one new list |
| Values.MultedBy | src/types.py:103-108 | `*` changes the store at most by one new list |
| Values.DivedBy | src/types.py:110-117 | `/` never changes the store |
| Values.PowedBy | src/types.py:119-124 | `^` never changes the store |
| Values.NumberArithmetic | src/types.py:87-124 | two numbers add, subtract, multiply and raise as integers; a null right operand counts as 0 |
| Values.NullAsZero | src/types.py:212-239 | a null left operand counts as 0 before a number |
| Values.DivisionErrors | src/types.py:110-117 | dividing by zero is "Division by zero", a number by null is "Division by null", and a division of numbers by a number never succeeds in this model |
| Values.ComparisonsNeedNumbers | src/types.py:126-144 | ordering comparisons succeed exactly on two numbers and compare their values; otherwise the illegal-operation error |
| Values.EqualityOnPayloads | src/types.py:36-40 | `!=` is the negation of `==`; values without a payload are all equal; a string never equals a number; `true == 1` |
| Values.EqualitySymmetric | src/types.py:36-40 | `==` is symmetric |
| Values.TruthinessTable | src/types.py:66-67 | only null, false and the empty string are false; 0 is true |
| Values.Truthy | src/types.py:66-67 | `is_true`; what it answers for every value is stated by `Values.TruthinessTable` |
| Values.Compare | src/types.py:126-144 | `<`, `>`, `<=` and `>=` succeed exactly on two numbers, with a boolean and the store unchanged |
| Values.ComparisonEq | src/types.py:36-37 | `==` always succeeds with a boolean and leaves the store |
| Values.ComparisonNe | src/types.py:39-40 | `!=` always succeeds with the opposite boolean to `==` |
| Values.AndedBy | src/types.py:54-55 | `AND` always succeeds with a boolean, true exactly when both operands are true |
| Values.OredBy | src/types.py:57-58 | `OR` always succeeds with a boolean, true exactly when either operand is true |
| Values.Notted | src/types.py:60-61 | `NOT` always succeeds with the boolean opposite to the operand's truth |
| Values.LogicalOperators | src/types.py:54-67 | `AND` is true exactly when neither operand is null, false or the empty string; `OR` when either is not; `NOT` exactly when the operand is one of them |
| Values.StringOperators | src/types.py:161-171 | a string plus a string, a number or null appends its text (null as `null`); a number plus a string puts the numeral in front; a string times a number repeats it, a count of zero or less giving the empty string; a string times a string is the illegal-operation error |
| Values.RepeatPeriodic | src/types.py:168-171 | a string repeated at least once starts with the string, and each later character equals the one a string's length before it |
| Values.ListAddAppendsToCopy | src/types.py:258-261 | `list + x` makes a new list of the elements followed by `x`; the original is unchanged |
| Values.ListIndexOperations | src/types.py:263-294 | `list - i` removes element `i` from a copy and `list / i` reads element `i`, a negative index counting from the end; an index out of range is an error |
| Values.ListConcatenation | src/types.py:277-282 | `list * list` makes a new list of both lists' elements |
| Values.ArityFault | src/types.py:319-331 | the call is well-formed exactly when the argument count equals the parameter count; otherwise the "too many" or "too few" error with the counts |
| Values.Bound | src/types.py:333-337 | each parameter holds its argument, re-homed to the new table, when no later parameter has its name; other names are unchanged |
| Values.BindArguments | src/types.py:333-337 | the binding loop on a table leaves the symbols `Bound` describes |
| BuiltIns.Populate | src/built_in.py:19-20 | populated arguments keep the given ones first; population fails exactly when there are too many or a required one is missing |
| BuiltIns.Append | src/built_in.py:95-101 | the receiver list gets the value at its end and the result is null |
| BuiltIns.Extend | src/built_in.py:126-139 | the result is null; a non-list argument is "First argument must be list" |
| BuiltIns.Len | src/built_in.py:141-158 | the length of a string or the element count of a list; any other value is an error |
| BuiltIns.ToNumber | src/built_in.py:165-189 | a string is read by `int()`, a boolean is 1 or 0, anything else is an error |
| BuiltIns.Lower | src/built_in.py:191-205 | lower-cases ASCII letters and keeps the length |
| BuiltIns.ContainsAfter | src/built_in.py:191-205 | a text contains whatever one of its suffixes begins with |
| BuiltIns.ToBoolean | src/built_in.py:191-205 | a number is true exactly when it is 1; a string is true when its lower-cased text contains "true"; anything else is an error |
| BuiltIns.Repr | src/built_in.py:160-163 | a number prints as its numeral, a string in double quotes, a boolean as `True` or `False`, null as `null`, a list in square brackets, a function as `<function n>` and a built-in as `<built-in function n>`; an object has no text here |
| BuiltIns.ReprElementsJoins | src/types.py:302-303 | the element texts of a list, when each element prints, come out in order with `, ` between neighbours, as `", ".join` gives them (`CommaJoined`) |
| BuiltIns.ReprOfList | src/types.py:302-303 | a list of any length prints as `[`, its elements' texts joined by `, `, then `]` |
| BuiltIns.NumberOfStringRoundTrip | src/built_in.py:160-189 | `Number(String(n)) == n` for every integer |
| BuiltIns.BooleanOfNumberRoundTrip | src/built_in.py:165-205 | `Boolean(Number(b)) == b` for both booleans |
| BuiltIns.BooleanOfTrueText | src/built_in.py:191-205 | any four letters that lower-case to "true", anywhere in the string, make it true |
| BuiltIns.TypeTestsPartition | src/built_in.py:65-93 | each `is_*` test answers true for exactly one class of values; objects and user functions pass none of them |
| BuiltIns.Pop | src/built_in.py:103-124 | `pop`; stated by `BuiltIns.PopShrinks`, `BuiltIns.PopFailures` and `BuiltIns.PopDefaultsToLast` |
| BuiltIns.IsInstance | src/built_in.py:65-93 | the `is_*` tests; stated by `BuiltIns.TypeTestsPartition` |
| BuiltIns.PopDefaultsToLast | src/built_in.py:103-124 | `pop()` removes and returns the last element |
| BuiltIns.PopShrinks | src/built_in.py:103-124 | a successful `pop` returns the element at the index and leaves the list without it |
| BuiltIns.PopFailures | src/built_in.py:103-124 | `pop` fails exactly when the index is neither null nor a number, or is out of range |
| BuiltIns.ExtendAppends | src/built_in.py:126-139 | `extend` appends the argument's elements, in order, to the receiver |
| BuiltIns.Call | src/built_in.py:12-25 | the console built-ins never succeed in this model; a success means the name has a parameter list and populating the arguments against it succeeded |
| BuiltIns.Registered | src/built_in.py:228-248 | after registering, exactly the globals are added, each bound to its value, and other names are unchanged |
| BuiltIns.Unregistered | src/built_in.py:250-251 | after unregistering, exactly the globals are gone and other names are unchanged |
| BuiltIns.BindGlobals | src/built_in.py:246-248 | the `register_var` loop leaves the symbols `Registered` describes |
| BuiltIns.RegisterVar | src/built_in.py:246-248 | `register_var` binds every global in the table's own scope |
| BuiltIns.RemovableMeans | src/built_in.py:250-251 | the removals succeed exactly when every name is bound and no name repeats |
| BuiltIns.RemoveInOrder | src/built_in.py:250-251 | removing names one after another succeeds exactly when they are removable, and then leaves the symbols `Unregistered` describes; a failure names one of the names and never adds a symbol |
| BuiltIns.RemoveStopsAtMissing | src/built_in.py:250-251 | the removals stop at the first name that is missing or repeated: that name is the failure, and every name before it is gone |
| BuiltIns.RemoveGlobals | src/built_in.py:250-251 | the `unregister_var` loop leaves the symbols `RemoveInOrder` gives; it succeeds exactly when the names are removable, and otherwise fails with `KeyError: 'name'` for the name it stopped at |
| BuiltIns.UnregisterVar | src/built_in.py:250-251 | `unregister_var` removes every global, or fails with `KeyError: 'name'` for the first missing or repeated one, the earlier globals already removed |
| BuiltIns.RegisterThenUnregister | src/built_in.py:246-251 | unregistering after registering removes exactly the globals; a table that held none of them gets back its symbols |
| Interpreter.CopyBy | src/interpreter.py:51-66 | under `Intended`, or for any value but null, a read copies; as written, copying null crashes |
| Interpreter.Answered | src/interpreter.py:168-207 | an operator's answer becomes the visit's value, and its error leaves the store unchanged |
| Interpreter.Copied | src/interpreter.py:63-66 | a read copies the value and re-homes it to the reading table; the tables and objects stay |
| Interpreter.ApplyBinary | src/interpreter.py:168-207 | an operator that succeeds keeps the tables and objects and adds at most one list |
| Interpreter.ArithmeticDispatch | src/interpreter.py:177-186 | `+`, `-`, `*`, `/` and `^` run `added_to`, `subbed_by`, `multed_by`, `dived_by` and `powed_by` |
| Interpreter.EqualityDispatch | src/interpreter.py:187-190 | `==` and `!=` run `get_comparison_eq` and `get_comparison_ne` |
| Interpreter.OrderingDispatch | src/interpreter.py:191-198 | `<`, `>`, `<=` and `>=` run the numeric comparison of the same name |
| Interpreter.LogicalDispatch | src/interpreter.py:175-202 | `AND` runs `anded_by`, `OR` runs `ored_by`, and a dot has no operation |
| Interpreter.Collected | src/interpreter.py:305-308 | a stopped loop passes its signal on; a block loop yields null; an inline loop yields a new list of its values |
| Interpreter.EvalAll | src/interpreter.py:27-37 | evaluation stops at the first node that gives no value |
| Interpreter.ForLoop | src/interpreter.py:283-303 | the loop stops only on a signal that is not a value |
| Interpreter.WhileLoop | src/interpreter.py:310-334 | the loop stops only on a signal that is not a value |
| Interpreter.Frame | src/types.py:312-337 | a call runs in a new table under the function's context, holding the arguments under the parameter names |
| Interpreter.Returned | src/types.py:339-341 | as intended, `return v` makes the call's value `v`; as written, it gives no value; a value or an error passes unchanged |
| InterpreterFacts.EvalExtends | src/interpreter.py:13-441 | evaluating any node never removes a table, a list or an object from the store |
| InterpreterFacts.RunExtends | src/types.py:312-341 | running a function never removes a table, a list or an object |
| EvaluationFacts.ChainAgrees | src/symbol_table.py:6-10 | a table's lookup chain depends only on it and the tables before it |
| EvaluationFacts.BindChain | src/symbol_table.py:12-13 | binding changes the first map of the chain and nothing else |
| EvaluationFacts.GetAfterBind | src/symbol_table.py:12-13 | after binding, the name reads as the value and every other name as before |
| EvaluationFacts.UnboundName | src/interpreter.py:51-89 | reading or updating a name no table binds is "'x' is not defined" |
| EvaluationFacts.ReadAfterAssign | src/interpreter.py:68-89 | after an assignment the name reads as the assigned value and every other name as before |
| EvaluationFacts.ReadVariable | src/interpreter.py:51-66 | reading a variable gives its value, re-homed to the reading table |
| EvaluationFacts.ReadNullFails | src/interpreter.py:63-66 | as written, reading a variable bound to null crashes |
| EvaluationFacts.ReadNull | src/interpreter.py:51-66 | as intended, reading a variable bound to null gives null |
| EvaluationFacts.DefinitionFails | src/interpreter.py:336-346 | as written, every function definition fails with the constructor's arity error |
| EvaluationFacts.DefinitionBinds | src/interpreter.py:336-346 | as intended, a named definition binds the new function in the current table and yields it |
| EvaluationFacts.OperandsInOrder | src/interpreter.py:168-207 | the left operand runs first and the right one in the store it leaves; an error in either stops the operator |
| EvaluationFacts.AddsNumbers | src/interpreter.py:168-207 | two numeric operands of `+` add as integers |
| EvaluationFacts.UnaryOperators | src/interpreter.py:209-224 | unary minus negates a number, `NOT` negates truthiness, and unary plus gives its operand's result unchanged |
| EvaluationFacts.LogicalAtEval | src/interpreter.py:168-207 | `a AND b` is true exactly when neither operand is a false value, `a OR b` when either is not |
| EvaluationFacts.FirstTrueCaseRuns | src/interpreter.py:226-244 | `if` runs the body of the first case whose condition is true, after the earlier conditions ran and were false |
| EvaluationFacts.NoCaseRuns | src/interpreter.py:238-244 | when every condition is false, `if` runs its else case or yields null |
| EvaluationFacts.ConditionHalts | src/interpreter.py:229-231 | an error or signal from a condition ends the `if` with it |
| EvaluationFacts.BranchValue | src/interpreter.py:231-244 | a block branch yields null, an inline branch its body's value |
| EvaluationFacts.CountersSpan | src/interpreter.py:283-288 | the counters are `i + k * step`, all inside the range, and the next one is outside |
| EvaluationFacts.ForCountsThrough | src/interpreter.py:283-308 | a loop whose body reads its counter collects the counters in order |
| EvaluationFacts.ForTurn | src/interpreter.py:290-303 | a turn whose body yields a value collects it; `continue` collects nothing; the loop goes on from the next counter |
| EvaluationFacts.ForTurnEnds | src/interpreter.py:295-301 | a turn whose body breaks, fails or returns ends the loop: break with the values so far, the others with their signal |
| EvaluationFacts.ZeroStepNeverEnds | src/interpreter.py:283-288 | a zero step with the start below the end never leaves the loop |
| EvaluationFacts.ContinueCollectsNothing | src/interpreter.py:297-298 | `continue` as the body of `for` collects nothing |
| EvaluationFacts.BreakStops | src/interpreter.py:299-300 | `break` as the body of `for` ends the loop in its first turn |
| EvaluationFacts.ForBounds | src/interpreter.py:250-281 | start, end and step must be numbers, and a missing step counts by one |
| EvaluationFacts.WhileConditionHalts | src/interpreter.py:314-317 | a condition that gives no value ends `while` with its signal |
| EvaluationFacts.WhileTurn | src/interpreter.py:318-330 | a true condition runs the body; a value is collected, `continue` collects nothing, and the loop goes on |
| EvaluationFacts.WhileTurnEnds | src/interpreter.py:322-328 | a body that breaks, fails or returns ends `while`: break with the values so far, the others with their signal |
| EvaluationFacts.WhileContinueCollectsNothing | src/interpreter.py:324-325 | `continue` as the body of `while` collects nothing |
| EvaluationFacts.WhileBreakStops | src/interpreter.py:326-327 | `break` as the body of `while` ends the loop in its first turn |
| EvaluationFacts.WhileFalseRunsNothing | src/interpreter.py:318-319 | a false condition runs no turn |
| EvaluationFacts.AllValuesCollected | src/interpreter.py:27-37 | nodes that all give values are collected one value each, in order |
| EvaluationFacts.ListLiteral | src/interpreter.py:27-37 | a list literal makes a new list of its elements' values |
| EvaluationFacts.ObjectKeys | src/interpreter.py:39-49 | an object literal has exactly its keys, a later key overwriting an earlier one |
| EvaluationFacts.CallSeesArguments | src/types.py:333-337 | in the call's table each parameter reads as its argument, re-homed |
| EvaluationFacts.ArityChecked | src/types.py:319-331 | a wrong argument count is the arity error, before the body runs |
| EvaluationFacts.ParameterReadsArgument | src/types.py:312-341 | a function whose body reads a parameter gives back its argument; as written, a null argument crashes |
| EvaluationFacts.DottedAssignWrites | src/interpreter.py:121-166 | `n0.n1. ... .nk = e` along a path of objects writes element `nk` of the last object in place, after `e` ran, and changes nothing else; the result is the object `n0` names, and reading the path back gives the value written |
| EvaluationFacts.AssignPathEnds | src/interpreter.py:155-166 | once the last name is written, the result is the object the first name holds |
| EvaluationFacts.ReadBack | src/interpreter.py:91-119 | `n0.n1. ... .nk` along a path of objects reads element `nk` of the last one |
| EvaluationFacts.ListMembers | src/interpreter.py:100-112 | after a list, `append`, `pop` and `extend` read as that method bound to the list; any other name is "not defined" |
| EvaluationFacts.OtherMembersUnmodelled | src/interpreter.py:100-112 | after a value that is neither an object nor a list, a member read is a fault this model does not resolve |
| Interpreter.Eval | src/interpreter.py:7-441 | `visit` on every node kind; that evaluation only ever adds to the store is `InterpreterFacts.EvalExtends`, and each node's behaviour is stated by the `EvaluationFacts` rows |
| Interpreter.EvalAssign | src/interpreter.py:68-89 | `VAR x = e` and `x = e`; stated by `EvaluationFacts.ReadAfterAssign` and `EvaluationFacts.UnboundName` |
| Interpreter.Walk | src/interpreter.py:91-119 | the dotted read; stated by `EvaluationFacts.ReadBack`, `EvaluationFacts.ListMembers` and `EvaluationFacts.OtherMembersUnmodelled` |
| Interpreter.ListMember | src/interpreter.py:104-105 | the member table of a list; stated by `EvaluationFacts.ListMembers` |
| Interpreter.AssignPath | src/interpreter.py:121-166 | the dotted assignment; stated by `EvaluationFacts.DottedAssignWrites`, `EvaluationFacts.AssignPathEnds` and `EvaluationFacts.DottedAssignNeedsObject` |
| Interpreter.EvalBinOp | src/interpreter.py:168-207 | operands, then the operator; stated by `EvaluationFacts.OperandsInOrder`, `EvaluationFacts.AddsNumbers` and `EvaluationFacts.LogicalAtEval` |
| Interpreter.EvalUnary | src/interpreter.py:209-224 | the sign and `NOT`; stated by `EvaluationFacts.UnaryOperators` |
| Interpreter.EvalCases | src/interpreter.py:226-244 | the cases of `if` in order; stated by `EvaluationFacts.FirstTrueCaseRuns`, `EvaluationFacts.NoCaseRuns` and `EvaluationFacts.ConditionHalts` |
| Interpreter.Chosen | src/interpreter.py:231-244 | the value of the branch taken; stated by `EvaluationFacts.BranchValue` |
| Interpreter.EvalFor | src/interpreter.py:246-268 | the start and end of `for`; stated by `EvaluationFacts.ForBounds` |
| Interpreter.EvalStep | src/interpreter.py:270-308 | the step of `for`, then the loop; stated by `EvaluationFacts.ForBounds` and `EvaluationFacts.ForCountsThrough` |
| Interpreter.Closure | src/interpreter.py:336-346 | the function a definition builds; stated by `EvaluationFacts.DefinitionBinds` |
| Interpreter.EvalCall | src/interpreter.py:348-363 | the callee, then the arguments in order, then the call; stated by `EvaluationFacts.CallSeesArguments`, `EvaluationFacts.ArityChecked` and `EvaluationFacts.ParameterReadsArgument` |
| Interpreter.Execute | src/interpreter.py:358-359 | `execute` on the called value; stated by `EvaluationFacts.CalleeKinds` |
| Interpreter.Run | src/types.py:312-341 | `Function.execute`; stated by `EvaluationFacts.CallSeesArguments`, `EvaluationFacts.ParameterReadsArgument` and `InterpreterFacts.RunExtends` |
| EvaluationFacts.CalleeKinds | src/interpreter.py:358-359 | calling a built-in takes its method's answer; calling a value that is not a function is the illegal-operation error |
| EvaluationFacts.DottedAssignNeedsObject | src/interpreter.py:121-140 | `a.b = e` when `a` is not an object is the "is not a object" error |

## Left out

- Floating point: FLOAT tokens keep their lexeme. True division of numbers, negative powers and `math.pi`/`math.inf` are left out, because Dafny has no Python float. Such operations end with a distinguished fault.
- `Values.DivedBy`: the division of a number by a non-zero number yields a float in the source and is reported as a fault here, for the same reason.
- Import (`src/interpreter.py:365-425`): it reads files and runs the lexer and parser on them. It is parsed, but evaluating it is a fault.
- Console I/O: `print`, `input`, `input_int` and `clear` (`src/built_in.py:38-61`) are recognised but never succeed in this model.
- Positions, error contexts and tracebacks are left out. An error is its kind and message. A `KeyError` quotes the name in single quotes, as Python's `repr` writes a name that holds no quote or backslash; the escaping `repr` applies to other names is not modelled.
- `make_f_string` is commented out in the source and is not modelled.
- `Interpreter.Returned`: `src/results.py` is not part of this model. The conventional protocol is assumed: `register` takes over errors and signals, `success` clears them, and `should_return` is true on an error or any signal. Under it, `execute` hands back no value after `return`. Whether that is a defect depends on `results.py`, so it is not listed under Findings; the `Intended` reading gives the returned value.
- `Values.Bound`: parameters are keyed by their name text. The source keys the new table's map by the parameter Token objects (`src/types.py:334-337`, `src/parser.py:154-168`). The model takes the evidently intended name keys, under which reading a parameter by its name finds it.
- `Interpreter.ListMember`: the member table behind `.built_in` (`src/interpreter.py:105`) is not part of this model. A list is assumed to offer `append`, `pop` and `extend` bound to it. A dot after any other value that is not an object reads a member table this model does not hold, and ends with a distinguished fault (`EvaluationFacts.OtherMembersUnmodelled`).
- `BuiltIns.IsInstance`: `BaseFunction` is not part of this model. The built-in functions are taken to derive from it and user functions not, so `is_function` is true of built-ins only.
- `BuiltIns.Populate`: `check_and_populate_args` is not part of this model. It stands in as a count check that fills left-out optional arguments with null.
- `Tokens.TokenType`: the constructors `LCurly`, `RCurly`, `Colon` and `Dot` assume four token constants, `TT_LCURLY`, `TT_RCURLY`, `TT_COLON` and `TT_DOT`, which src/rt_types.py:3-27 does not define and no other file of this model defines. The lexer (`src/lexer.py:77-86`), the parser (`src/parser.py:34,524-589,627-632,741,831,846`) and the interpreter (`src/interpreter.py:175`) use them. Without them, lexing `{`, `}`, `:` or `.` raises NameError. Worse, `parse` builds `(TT_EOF, TT_KEYWORD, TT_DOT)` after every `statements` that succeeds (`src/parser.py:34`), so every program that parses would raise NameError and none would reach the interpreter. The model takes the constants to exist, as the code evidently intends. Both inputs under Findings reach the interpreter only under this assumption.
- `Tokens.KwImport` and `Tokens.KwAs`: the `KEYWORDS` class in src/rt_types.py lacks IMPORT and AS, so the spellings are assumed. Neither word is in the keyword list, so the lexer never produces them, and `import` never parses from text.
- `Numerals.ParseInt`: digits outside ASCII and white space outside the listed set are not accepted, although Python's `int()` accepts them.
- Object values: `Object.copy` is taken to share the element map with the original. The copy of a list has its own buffer.
- `Values.WithContext`: `set_context` is modelled only where it affects evaluation, which is a function's defining table, and it gives a re-homed copy instead of changing the object. In the source it changes the object in place. `Function.execute` calls it on each argument itself (`src/types.py:336`), so a function passed as an argument is re-homed for every other holder too. No program text reaches the difference. A read of a variable (`src/interpreter.py:63-66`), a dotted read (`src/interpreter.py:118`) and a call result (`src/interpreter.py:362`) each re-home their value to the reader's table anyway. The only operation that hands out a stored value without re-homing it is `List / i` (`src/types.py:284-294`), and `/` never lexes as DIV (`Lexing.LexShape`). The difference shows only on a hand-built tree that holds a BinOpNode with a DIV token. Take, under the `Intended` reading: `VAR x = 1`; `VAR fs = [FUNC () => x]`; `FUNC g(x) => 0`; a call of `g` whose argument is the BinOpNode `fs` DIV `0`; then a call whose callee is that same BinOpNode. In the source the last call reads `x` in the table of the call to `g`, where `x` is the anonymous function itself, so it yields that function. The model reads `x` in the defining table and yields 1.
- Fuel: a program that needs more steps than the fuel given ends with the out-of-fuel fault instead of a value. A `while` that never ends can only be observed this way.
- A reference to a store index that does not exist is a crash fault. It cannot arise from evaluation, which only adds to the store.
- `BuiltIns.Repr`: the text of an object is not modelled and ends with a distinguished fault, because the source's `Object` class is not part of this model.

## Findings

| source | as written | input that shows it | evidently intended | confidence | as-written member | corrected member |
|---|---|---|---|---|---|---|
| src/types.py:244-248 | `Null.copy` calls `Null(self.value)`, but `Null.__init__` (`src/types.py:208`) takes no argument, so it raises TypeError. Every variable read (`src/interpreter.py:63-66`) and every call result (`src/interpreter.py:362`) copies its value. | `VAR x = null` then `x` | reading null gives null | not executed | EvaluationFacts.ReadNullFails | EvaluationFacts.ReadNull |
| src/interpreter.py:341 | `visit_FuncDefNode` passes four arguments to `Function(name, body_node, arg_names)` (`src/types.py:306`), which takes three, so every definition raises TypeError | `FUNC f() => 1` | the definition makes a function and binds it | not executed | EvaluationFacts.DefinitionFails | EvaluationFacts.DefinitionBinds |
