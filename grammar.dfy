/**
 * The grammar of the parser (src/parser.py) as functions over the token
 * list and a cursor index. Each production returns its `ParseResult` and the
 * index the cursor ends on; the class `Parser` (parser.dfy) moves a real
 * cursor and is proved to follow these functions step by step.
 *
 * The central invariant is that a result's advance count is exactly how far
 * the cursor moved, on success and on failure alike. That is what makes
 * `reverse(to_reverse_count)` restore the cursor when `statements` and
 * `statement` backtrack.
 */
module Grammar {
  import opened Wrappers
  import opened Tokens
  import opened Syntax

  // ------------------------------------------------------------ ParseResult

  /** `ParseResult`: the node, the error message, the number of tokens consumed,
      the count registered last, and the count a failed `try_register` left to
      be reversed. */
  datatype PR = PR(node: Option<Node>, error: Option<SyntaxError>, advanced: nat, lastAdvanced: nat, toReverse: nat)

  /** What a production gives back: its result and the index the cursor
      ends on. */
  datatype Step = Step(res: PR, next: nat)

  function Start(): PR
  {
    PR(None, None, 0, 0, 0)
  }

  /** `register_advancement`. */
  function Advancement(r: PR): PR
  {
    r.(lastAdvanced := 1, advanced := r.advanced + 1)
  }

  /** `register`: adds the child's count and takes over its error. */
  function Register(r: PR, child: PR): PR
  {
    r.(lastAdvanced := child.advanced, advanced := r.advanced + child.advanced,
       error := if child.error.Some? then child.error else r.error)
  }

  /** `try_register`: a failed child is not registered; its count is kept for
      `reverse`. */
  function TryRegister(r: PR, child: PR): PR
  {
    if child.error.Some? then r.(toReverse := child.advanced) else Register(r, child)
  }

  /** `success`. */
  function Succeed(r: PR, node: Node): PR
  {
    r.(node := Some(node))
  }

  /** `failure`: a new error replaces an earlier one only when the last
      registered step consumed nothing. */
  function Fail(r: PR, e: SyntaxError): PR
  {
    if r.error.None? || r.lastAdvanced == 0 then r.(error := Some(e)) else r
  }

  // ----------------------------------------------------------------- tokens

  /** What every production assumes of the token list: it ends with EOF, so a
      production that has seen some other token may always advance past it. */
  predicate TokensOk(t: seq<Token>)
  {
    |t| > 0 && t[|t| - 1].kind == EOF
  }

  /** A production's result is consistent with the cursor: it moved by the
      advance count and stayed on the list, and a success carries a node. */
  predicate Tracks(t: seq<Token>, i: nat, r: Step)
  {
    r.next == i + r.res.advanced && r.next < |t| && (r.res.error.None? ==> r.res.node.Some?)
  }

  /** As `Tracks`, and a success consumed at least one token. */
  predicate Consumes(t: seq<Token>, i: nat, r: Step)
  {
    Tracks(t, i, r) && (r.res.error.None? ==> r.res.advanced > 0)
  }

  /** A loop that continues the result `res` from index `i`. */
  predicate Continues(t: seq<Token>, i: nat, res: PR, r: Step)
  {
    i <= r.next < |t| && r.res.advanced == res.advanced + (r.next - i) && (r.res.error.None? ==> r.res.node.Some?)
  }

  /** Registers a child production and succeeds with its node, as `atom` does
      for the productions it delegates to. */
  function Relay(res: PR, child: Step): PR
    requires child.res.error.None? ==> child.res.node.Some?
  {
    var r := Register(res, child.res);
    if r.error.Some? then r else Succeed(r, child.res.node.value)
  }

  // ----------------------------------------------------------------- errors

  /** The details of an `InvalidSyntaxError`: what the parser expected where
      it stopped. `Message` spells each one out. */
  datatype SyntaxError =
    | ExpectedQuoted(what: string)
    | ExpectedIdentifier
    | ExpectedIdentifierOr(what: string)
    | ExpectedEither(first: string, second: string)
    | ExpectedArrowOrNewline
    | ExpectedStatement
    | ExpectedExpr
    | ExpectedComparison
    | ExpectedAtom
    | ExpectedCallArgument
    | ExpectedListItem
    | ExpectedEntryValue
    | ExpectedOperator

  /** The text of a syntax error's details, as the parser words it. */
  function Message(e: SyntaxError): string
  {
    match e
    case ExpectedQuoted(what) => "Expected '" + what + "'"
    case ExpectedIdentifier => "Expected identifier"
    case ExpectedIdentifierOr(what) => "Expected identifier or '" + what + "'"
    case ExpectedEither(first, second) => "Expected '" + first + "' or '" + second + "'"
    case ExpectedArrowOrNewline => "Expected '=>' or NEWLINE"
    case ExpectedStatement =>
      "Expected 'RETURN', 'CONTINUE', 'BREAK', 'VAR', 'IF', 'FOR', 'WHILE', 'FUNC' 'int, float, boolean, identifier, '+', '-', '(', '{', '[' or 'NOT'"
    case ExpectedExpr =>
      "Expected 'VAR', 'IF', 'FOR', 'WHILE', 'FUNC' 'int, float, boolean, identifier, '+', '-', '(', '{', '[' or 'NOT'"
    case ExpectedComparison =>
      "Expected 'IF', 'FOR', 'WHILE', 'FUNC', int, float, list, boolean, null, identifier, '+', '-', '(', '{', '[' or 'NOT'"
    case ExpectedAtom =>
      "Expected 'IF', 'FOR', 'WHILE', 'FUNC', int, float, list, boolean, null, identifier, '+', '-', '(', '{' or '['"
    case ExpectedCallArgument =>
      "Expected ')', 'VAR', 'IF', 'FOR', 'WHILE', 'FUNC', int, float, list, boolean, null, identifier, '+', '-' or '('"
    case ExpectedListItem =>
      "Expected ']', 'VAR', 'IF', 'FOR', 'WHILE', 'FUNC', int, float, list, boolean, null, identifier, '+', '-', '(', '{' or '['"
    case ExpectedEntryValue =>
      "Expected '}', 'VAR', 'IF', 'FOR', 'WHILE', 'FUNC', int, float, list, boolean, null, identifier, '+', '-', '(', '{' or '['"
    case ExpectedOperator => "Expected '.', '+', '-', '*' or '/'"
  }

  // ------------------------------------------------------------ precedence

  /** The `bin_op` instances, from the loosest to the tightest:
      `expr`'s AND/OR chain, the two dot chains of `comp_expr` and `dot`, the
      comparison chain, `arith_expr`, `term` and `power`. */
  datatype Level = Logic | DotChain | DotOperand | Comparison | Arith | Term | Power

  /** The operator tokens `bin_op` loops over at each level. */
  predicate IsOperator(level: Level, tok: Token)
  {
    match level
    case Logic => tok.Matches(Keyword, KwAnd) || tok.Matches(Keyword, KwOr)
    case DotChain => tok.kind == Dot
    case DotOperand => tok.kind == Dot
    case Comparison => tok.kind in {EE, NE, LT, GT, LTE, GTE}
    case Arith => tok.kind == Plus || tok.kind == Minus
    case Term => tok.kind == Mul || tok.kind == Div
    case Power => tok.kind == Pow
  }

  function LevelRank(level: Level): nat
  {
    match level
    case Logic => 54
    case DotChain => 50
    case Comparison => 50
    case DotOperand => 48
    case Arith => 46
    case Term => 44
    case Power => 40
  }

  /** The rank of `Operand` in the termination order: just below its level
      for a left operand, which is parsed where the level starts; a right
      operand is parsed after an operator, so any rank will do. */
  function OperandRank(level: Level, right: bool): nat
  {
    if right then 100 else LevelRank(level) - 1
  }

  /** The productions of an `if` hand back its branches, its cases and its
      else case, in an `IfNode`. */
  predicate HoldsBranches(r: Step)
  {
    r.res.error.None? ==> r.res.node.Some? && r.res.node.value.IfNode?
  }

  // ------------------------------------------------------------ productions

  /** `parse`: the statements, which must stop at EOF, at a keyword or at a
      '.', or at an identifier right after the keyword AS. */
  function ParseFrom(t: seq<Token>, i: nat): (r: Step)
    requires TokensOk(t) && i < |t|
    ensures Tracks(t, i, r)
    ensures var s := Statements(t, i);
      r.next == s.next && r.res.node == s.res.node
      && (r.res.error.None? <==>
            s.res.error.None?
            && (t[s.next].kind in {EOF, Keyword, Dot}
                || (t[s.next - 1].Matches(Keyword, KwAs) && t[s.next].kind == Identifier)))
  {
    var Step(res, j) := Statements(t, i);
    if res.error.None? && t[j].kind !in {EOF, Keyword, Dot} then
      if t[j - 1].Matches(Keyword, KwAs) && t[j].kind == Identifier then Step(res, j)
      else Step(Fail(res, ExpectedOperator), j)
    else Step(res, j)
  }

  /** The `while` loops of `statements` that skip NEWLINE tokens. */
  function SkipNewlines(t: seq<Token>, i: nat, res: PR): (r: Step)
    requires TokensOk(t) && i < |t|
    ensures i <= r.next < |t| && r.res.advanced == res.advanced + (r.next - i)
    ensures r.res.node == res.node && r.res.error == res.error && r.res.toReverse == res.toReverse
    ensures r.res.lastAdvanced == if r.next > i then 1 else res.lastAdvanced
    decreases |t| - i
  {
    if t[i].kind == Newline then SkipNewlines(t, i + 1, Advancement(res)) else Step(res, i)
  }

  function Statements(t: seq<Token>, i: nat): (r: Step)
    requires TokensOk(t) && i < |t|
    ensures Consumes(t, i, r)
    decreases |t| - i, 60
  {
    var Step(res, i1) := SkipNewlines(t, i, Start());
    var Step(c, i2) := Statement(t, i1);
    var res1 := Register(res, c);
    if res1.error.Some? then Step(res1, i2)
    else StatementsLoop(t, i2, res1, [c.node.value])
  }

  /** The `while True` loop of `statements` with the statements so far. */
  function StatementsLoop(t: seq<Token>, i: nat, res: PR, stmts: seq<Node>): (r: Step)
    requires TokensOk(t) && i < |t|
    ensures Continues(t, i, res, r)
    decreases |t| - i, 0
  {
    var Step(res1, i1) := SkipNewlines(t, i, res);
    if i1 == i then Step(Succeed(res1, ListNode(stmts)), i1)
    else
      var Step(c, i2) := Statement(t, i1);
      var res2 := TryRegister(res1, c);
      if c.error.Some? then Step(Succeed(res2, ListNode(stmts)), i2 - res2.toReverse)
      else StatementsLoop(t, i2, res2, stmts + [c.node.value])
  }

  function Statement(t: seq<Token>, i: nat): (r: Step)
    requires TokensOk(t) && i < |t|
    ensures Consumes(t, i, r)
    decreases |t| - i, 58
  {
    var res := Start();
    if t[i].Matches(Keyword, KwReturn) then
      var res1 := Advancement(res);
      var Step(c, i1) := Expr(t, i + 1);
      var res2 := TryRegister(res1, c);
      if c.error.Some? then Step(Succeed(res2, ReturnNode(None)), i1 - res2.toReverse)
      else Step(Succeed(res2, ReturnNode(Some(c.node.value))), i1)
    else if t[i].Matches(Keyword, KwContinue) then Step(Succeed(Advancement(res), ContinueNode), i + 1)
    else if t[i].Matches(Keyword, KwBreak) then Step(Succeed(Advancement(res), BreakNode), i + 1)
    else
      var Step(c, i1) := Expr(t, i);
      var res1 := Register(res, c);
      if res1.error.Some? then Step(Fail(res1, ExpectedStatement), i1)
      else Step(Succeed(res1, c.node.value), i1)
  }

  function Expr(t: seq<Token>, i: nat): (r: Step)
    requires TokensOk(t) && i < |t|
    ensures Consumes(t, i, r)
    decreases |t| - i, 56
  {
    var res := Start();
    if t[i].Matches(Keyword, KwVar) then
      var res1 := Advancement(res);
      if t[i + 1].kind != Identifier then Step(Fail(res1, ExpectedIdentifier), i + 1)
      else
        var res2 := Advancement(res1);
        if t[i + 2].kind != Eq then Step(Fail(res2, ExpectedQuoted("=")), i + 2)
        else
          var Step(c, i3) := Expr(t, i + 3);
          var res3 := Register(Advancement(res2), c);
          if res3.error.Some? then Step(res3, i3)
          else Step(Succeed(res3, VarAssignNode(TokText(t[i + 1]), c.node.value, false)), i3)
    else
      var Step(c, i1) := BinOp(Logic, t, i);
      var res1 := Register(res, c);
      if res1.error.Some? then Step(Fail(res1, ExpectedExpr), i1)
      else Step(Succeed(res1, c.node.value), i1)
  }

  function CompExpr(t: seq<Token>, i: nat): (r: Step)
    requires TokensOk(t) && i < |t|
    ensures Consumes(t, i, r)
    decreases |t| - i, 52
  {
    var res := Start();
    if t[i].Matches(Keyword, KwNot) then
      var Step(c, i1) := CompExpr(t, i + 1);
      var res1 := Register(Advancement(res), c);
      if res1.error.Some? then Step(res1, i1)
      else Step(Succeed(res1, UnaryOpNode(t[i], c.node.value)), i1)
    else
      var Step(c, i1) := if t[i].kind == Identifier then BinOp(DotChain, t, i) else BinOp(Comparison, t, i);
      var res1 := Register(res, c);
      if res1.error.Some? then Step(Fail(res1, ExpectedComparison), i1)
      else Step(Succeed(res1, c.node.value), i1)
  }

  /** The operand productions of `bin_op` at each level: `func_a`, or
      `func_b` for a right operand; they differ only for `power`, whose right
      operand is a `factor`. */
  function Operand(level: Level, right: bool, t: seq<Token>, i: nat): (r: Step)
    requires TokensOk(t) && i < |t|
    ensures Consumes(t, i, r)
    decreases |t| - i, OperandRank(level, right)
  {
    match level
    case Logic => CompExpr(t, i)
    case DotChain => BinOp(DotOperand, t, i)
    case DotOperand => BinOp(Arith, t, i)
    case Comparison => BinOp(Arith, t, i)
    case Arith => BinOp(Term, t, i)
    case Term => Factor(t, i)
    case Power => if right then Factor(t, i) else Call(t, i)
  }

  /** `bin_op(func_a, ops, func_b)` at one level: the left operand, then the
      operator loop. */
  function BinOp(level: Level, t: seq<Token>, i: nat): (r: Step)
    requires TokensOk(t) && i < |t|
    ensures Consumes(t, i, r)
    decreases |t| - i, LevelRank(level)
  {
    var Step(c, i1) := Operand(level, false, t, i);
    var res := Register(Start(), c);
    if res.error.Some? then Step(res, i1)
    else BinOpLoop(level, t, i1, res, c.node.value)
  }

  /** The operator loop of `bin_op`: each operator and right operand extends
      the tree built so far on the left. */
  function BinOpLoop(level: Level, t: seq<Token>, i: nat, res: PR, left: Node): (r: Step)
    requires TokensOk(t) && i < |t|
    ensures Continues(t, i, res, r)
    decreases |t| - i, 0
  {
    if IsOperator(level, t[i]) then
      var Step(c, i1) := Operand(level, true, t, i + 1);
      var res1 := Register(Advancement(res), c);
      if res1.error.Some? then Step(res1, i1)
      else BinOpLoop(level, t, i1, res1, BinOpNode(left, t[i], c.node.value))
    else Step(Succeed(res, left), i)
  }

  function Factor(t: seq<Token>, i: nat): (r: Step)
    requires TokensOk(t) && i < |t|
    ensures Consumes(t, i, r)
    decreases |t| - i, 42
  {
    if t[i].kind == Plus || t[i].kind == Minus then
      var Step(c, i1) := Factor(t, i + 1);
      var res := Register(Advancement(Start()), c);
      if res.error.Some? then Step(res, i1)
      else Step(Succeed(res, UnaryOpNode(t[i], c.node.value)), i1)
    else BinOp(Power, t, i)
  }

  function Call(t: seq<Token>, i: nat): (r: Step)
    requires TokensOk(t) && i < |t|
    ensures Consumes(t, i, r)
    decreases |t| - i, 38
  {
    var Step(a, i1) := Atom(t, i);
    var res := Register(Start(), a);
    if res.error.Some? then Step(res, i1)
    else if t[i1].kind == LParen then CallOpen(t, i1 + 1, Advancement(res), a.node.value)
    else Step(Succeed(res, a.node.value), i1)
  }

  /** The part of `call` after '(': ')' or the arguments. */
  function CallOpen(t: seq<Token>, i: nat, res: PR, callee: Node): (r: Step)
    requires TokensOk(t) && i < |t|
    ensures Continues(t, i, res, r)
    decreases |t| - i, 58
  {
    if t[i].kind == RParen then Step(Succeed(Advancement(res), CallNode(callee, [])), i + 1)
    else FirstArg(t, i, res, callee)
  }

  /** The first argument of `call`, then the rest. */
  function FirstArg(t: seq<Token>, i: nat, res: PR, callee: Node): (r: Step)
    requires TokensOk(t) && i < |t|
    ensures Continues(t, i, res, r)
    decreases |t| - i, 57
  {
    var Step(c, i1) := Expr(t, i);
    var res1 := Register(res, c);
    if res1.error.Some? then Step(Fail(res1, ExpectedCallArgument), i1)
    else CallArgs(t, i1, res1, callee, [c.node.value])
  }

  /** The argument loop of `call`. */
  function CallArgs(t: seq<Token>, i: nat, res: PR, callee: Node, args: seq<Node>): (r: Step)
    requires TokensOk(t) && i < |t|
    ensures Continues(t, i, res, r)
    decreases |t| - i, 0
  {
    if t[i].kind == Comma then
      var Step(c, i1) := Expr(t, i + 1);
      var res1 := Register(Advancement(res), c);
      if res1.error.Some? then Step(res1, i1)
      else CallArgs(t, i1, res1, callee, args + [c.node.value])
    else if t[i].kind != RParen then Step(Fail(res, ExpectedEither(",", ")")), i)
    else Step(Succeed(Advancement(res), CallNode(callee, args)), i + 1)
  }

  /** The node `atom` builds straight from a literal token: a number, a
      string, `null`, `true` or `false`. */
  function Literal(tok: Token): Option<Node>
  {
    if tok.kind == Int || tok.kind == Float then Some(NumberNode(tok))
    else if tok.kind == Str then Some(StringNode(tok))
    else if tok.Matches(Keyword, KwNull) then Some(NullNode)
    else if tok.Matches(Keyword, KwTrue) then Some(BooleanNode(true))
    else if tok.Matches(Keyword, KwFalse) then Some(BooleanNode(false))
    else None
  }

  /** The tokens on which `atom` hands over to a production of its own. */
  predicate Delegates(tok: Token)
  {
    tok.kind == Identifier || tok.kind == LSquare || tok.kind == LCurly
    || tok.Matches(Keyword, KwIf) || tok.Matches(Keyword, KwFor) || tok.Matches(Keyword, KwWhile)
    || tok.Matches(Keyword, KwFunction) || tok.Matches(Keyword, KwImport)
  }

  /** `atom`. Its cases are told apart by disjoint token tests, so they are
      grouped here: literals, a parenthesised expression, and the productions
      it delegates to. */
  function Atom(t: seq<Token>, i: nat): (r: Step)
    requires TokensOk(t) && i < |t|
    ensures Consumes(t, i, r)
    decreases |t| - i, 36
  {
    var res := Start();
    var tok := t[i];
    if Literal(tok).Some? then Step(Succeed(Advancement(res), Literal(tok).value), i + 1)
    else if tok.kind == LParen then Parenthesized(t, i)
    else if Delegates(tok) then
      var c := Delegate(t, i);
      Step(Relay(res, c), c.next)
    else Step(Fail(res, ExpectedAtom), i)
  }

  /** The `( expr )` case of `atom`. */
  function Parenthesized(t: seq<Token>, i: nat): (r: Step)
    requires TokensOk(t) && i < |t| && t[i].kind == LParen
    ensures Consumes(t, i, r)
    decreases |t| - i, 35
  {
    var Step(c, i1) := Expr(t, i + 1);
    var res1 := Register(Advancement(Start()), c);
    if res1.error.Some? then Step(res1, i1)
    else if t[i1].kind == RParen then Step(Succeed(Advancement(res1), c.node.value), i1 + 1)
    else Step(Fail(res1, ExpectedQuoted(")")), i1)
  }

  /** The production `atom` hands over to on the current token. */
  function Delegate(t: seq<Token>, i: nat): (r: Step)
    requires TokensOk(t) && i < |t| && Delegates(t[i])
    ensures Tracks(t, i, r)
    decreases |t| - i, 35
  {
    var tok := t[i];
    if tok.kind == Identifier then IdentifierExpr(t, i)
    else if tok.kind == LSquare then ListExpr(t, i)
    else if tok.kind == LCurly then ObjectExpr(t, i)
    else if tok.Matches(Keyword, KwIf) then IfExpr(t, i)
    else if tok.Matches(Keyword, KwFor) then ForExpr(t, i)
    else if tok.Matches(Keyword, KwWhile) then WhileExpr(t, i)
    else if tok.Matches(Keyword, KwFunction) then FuncDef(t, i)
    else ImportExpr(t, i)
  }

  /** `identifier_expr`: `x = e` (an updating assignment), a dotted chain, or
      a plain variable access. */
  function IdentifierExpr(t: seq<Token>, i: nat): (r: Step)
    requires TokensOk(t) && i < |t|
    ensures Consumes(t, i, r)
    decreases |t| - i, 2
  {
    if t[i].kind != Identifier then Step(Fail(Start(), ExpectedIdentifier), i)
    else Named(t, i)
  }

  /** `identifier_expr` from its identifier on. */
  function Named(t: seq<Token>, i: nat): (r: Step)
    requires TokensOk(t) && i < |t| && t[i].kind == Identifier
    ensures Consumes(t, i, r)
    decreases |t| - i, 1
  {
    AfterName(t, i + 1, Advancement(Start()), TokText(t[i]))
  }

  /** What follows the identifier of `identifier_expr`: `= e`, a dotted
      chain, or nothing. */
  function AfterName(t: seq<Token>, i: nat, res: PR, name: string): (r: Step)
    requires TokensOk(t) && i < |t|
    ensures Continues(t, i, res, r)
    decreases |t| - i, 1
  {
    if t[i].kind == Eq then Assignment(t, i, res, name)
    else if t[i].kind == Dot then DotNames(t, i, res, [name])
    else Step(Succeed(res, VarAccessNode(name)), i)
  }

  /** The `= e` of `identifier_expr` after a single name. */
  function Assignment(t: seq<Token>, i: nat, res: PR, name: string): (r: Step)
    requires TokensOk(t) && i < |t| && t[i].kind == Eq
    ensures Continues(t, i, res, r)
    decreases |t| - i, 0
  {
    var Step(c, i1) := Expr(t, i + 1);
    var res1 := Register(Advancement(res), c);
    if res1.error.Some? then Step(res1, i1)
    else Step(Succeed(res1, VarAssignNode(name, c.node.value, true)), i1)
  }

  /** The dotted-chain loop of `identifier_expr` with the names so far, then
      `= e` or nothing. */
  function DotNames(t: seq<Token>, i: nat, res: PR, names: seq<string>): (r: Step)
    requires TokensOk(t) && i < |t|
    ensures Continues(t, i, res, r)
    decreases |t| - i, 0
  {
    if t[i].kind == Dot then
      var res1 := Advancement(res);
      if t[i + 1].kind != Identifier then Step(Fail(res1, ExpectedIdentifier), i + 1)
      else DotNames(t, i + 2, Advancement(res1), names + [TokText(t[i + 1])])
    else if t[i].kind == Eq then
      var Step(c, i1) := Expr(t, i + 1);
      var res1 := Register(Advancement(res), c);
      if res1.error.Some? then Step(res1, i1)
      else Step(Succeed(res1, MultiVarAssignNode(names, c.node.value)), i1)
    else Step(Succeed(res, MultiVarAccessNode(names)), i)
  }

  const EmptyList: Node := ListNode([])
  const EmptyObject: Node := ObjectNode([])

  function ListExpr(t: seq<Token>, i: nat): (r: Step)
    requires TokensOk(t) && i < |t|
    ensures Consumes(t, i, r)
    decreases |t| - i, 2
  {
    var res := Start();
    if t[i].kind != LSquare then Step(Fail(res, ExpectedQuoted("[")), i)
    else
      ListOpen(t, i + 1, Advancement(res))
  }

  /** The part of `list_expr` after '[': ']' or the elements. */
  function ListOpen(t: seq<Token>, i: nat, res: PR): (r: Step)
    requires TokensOk(t) && i < |t|
    ensures Continues(t, i, res, r)
    decreases |t| - i, 58
  {
    if t[i].kind == RSquare then Step(Succeed(Advancement(res), EmptyList), i + 1)
    else FirstItem(t, i, res)
  }

  /** The first element of a non-empty `list_expr`, then the rest. */
  function FirstItem(t: seq<Token>, i: nat, res: PR): (r: Step)
    requires TokensOk(t) && i < |t|
    ensures Continues(t, i, res, r)
    decreases |t| - i, 57
  {
    var Step(c, i1) := Expr(t, i);
    var res1 := Register(res, c);
    if res1.error.Some? then Step(Fail(res1, ExpectedListItem), i1)
    else ListItems(t, i1, res1, [c.node.value])
  }

  /** The element loop of `list_expr`. */
  function ListItems(t: seq<Token>, i: nat, res: PR, elements: seq<Node>): (r: Step)
    requires TokensOk(t) && i < |t|
    ensures Continues(t, i, res, r)
    decreases |t| - i, 0
  {
    if t[i].kind == Comma then
      var Step(c, i1) := Expr(t, i + 1);
      var res1 := Register(Advancement(res), c);
      if res1.error.Some? then Step(res1, i1)
      else ListItems(t, i1, res1, elements + [c.node.value])
    else if t[i].kind != RSquare then Step(Fail(res, ExpectedEither(",", "]")), i)
    else Step(Succeed(Advancement(res), ListNode(elements)), i + 1)
  }

  function ObjectExpr(t: seq<Token>, i: nat): (r: Step)
    requires TokensOk(t) && i < |t|
    ensures Consumes(t, i, r)
    decreases |t| - i, 2
  {
    var res := Start();
    if t[i].kind != LCurly then Step(Fail(res, ExpectedQuoted("{")), i)
    else
      ObjectOpen(t, i + 1, Advancement(res))
  }

  /** The part of `object_expr` after '{': '}' or the entries. */
  function ObjectOpen(t: seq<Token>, i: nat, res: PR): (r: Step)
    requires TokensOk(t) && i < |t|
    ensures Continues(t, i, res, r)
    decreases |t| - i, 1
  {
    if t[i].kind == RCurly then Step(Succeed(Advancement(res), EmptyObject), i + 1)
    else if t[i].kind != Identifier then Step(Fail(res, ExpectedIdentifier), i)
    else FirstKey(t, i, res)
  }

  /** The key and the colon of the first entry of `object_expr`. */
  function FirstKey(t: seq<Token>, i: nat, res: PR): (r: Step)
    requires TokensOk(t) && i < |t| && t[i].kind == Identifier
    ensures Continues(t, i, res, r)
    decreases |t| - i, 0
  {
    var res1 := Advancement(res);
    if t[i + 1].kind != Colon then Step(Fail(res1, ExpectedQuoted(":")), i + 1)
    else FirstEntry(t, i + 2, Advancement(res1), TokText(t[i]))
  }

  /** The value of the first entry of a non-empty `object_expr`, then the
      rest. */
  function FirstEntry(t: seq<Token>, i: nat, res: PR, key: string): (r: Step)
    requires TokensOk(t) && i < |t|
    ensures Continues(t, i, res, r)
    decreases |t| - i, 57
  {
    var Step(c, i1) := Expr(t, i);
    var res1 := Register(res, c);
    if res1.error.Some? then Step(Fail(res1, ExpectedEntryValue), i1)
    else ObjectEntries(t, i1, res1, [Entry(key, c.node.value)])
  }

  /** The entry loop of `object_expr`: after a comma, anything but an
      identifier is passed over, so a trailing comma is accepted. */
  function ObjectEntries(t: seq<Token>, i: nat, res: PR, entries: seq<Entry>): (r: Step)
    requires TokensOk(t) && i < |t|
    ensures Continues(t, i, res, r)
    decreases |t| - i, 2
  {
    if t[i].kind == Comma then
      var turn := EntryTurn(t, i, res, entries);
      if turn.stop then turn.step
      else ObjectEntries(t, turn.step.next, turn.step.res, turn.entries)
    else if t[i].kind != RCurly then Step(Fail(res, ExpectedEither(",", "}")), i)
    else Step(Succeed(Advancement(res), ObjectNode(entries)), i + 1)
  }

  /** What one turn of the entry loop of `object_expr` leaves: the result
      and the cursor, the entries so far, and whether the loop must stop
      because the turn failed. */
  datatype Turn = Turn(step: Step, entries: seq<Entry>, stop: bool)

  /** A turn that moved the cursor forward and counted what it passed. */
  predicate Progresses(t: seq<Token>, i: nat, res: PR, r: Turn)
  {
    i < r.step.next < |t| && r.step.res.advanced == res.advanced + (r.step.next - i)
    && (r.stop ==> r.step.res.error.Some?)
  }

  /** One turn of the entry loop of `object_expr`, on a comma: the comma
      and, when an identifier follows it, one `key: expr` entry. */
  function EntryTurn(t: seq<Token>, i: nat, res: PR, entries: seq<Entry>): (r: Turn)
    requires TokensOk(t) && i < |t| && t[i].kind == Comma
    ensures Progresses(t, i, res, r)
    decreases |t| - i, 1
  {
    var res1 := Advancement(res);
    if t[i + 1].kind == Identifier then KeyedEntry(t, i + 1, res1, entries)
    else Turn(Step(res1, i + 1), entries, false)
  }

  /** A `key: expr` entry of `object_expr`, from its key on. */
  function KeyedEntry(t: seq<Token>, i: nat, res: PR, entries: seq<Entry>): (r: Turn)
    requires TokensOk(t) && i < |t| && t[i].kind == Identifier
    ensures Progresses(t, i, res, r)
    decreases |t| - i, 0
  {
    var res1 := Advancement(res);
    if t[i + 1].kind != Colon then Turn(Step(Fail(res1, ExpectedQuoted(":")), i + 1), entries, true)
    else EntryValue(t, i + 1, res1, TokText(t[i]), entries)
  }

  /** The ':' of an entry of `object_expr` and its value. */
  function EntryValue(t: seq<Token>, i: nat, res: PR, key: string, entries: seq<Entry>): (r: Turn)
    requires TokensOk(t) && i < |t| && t[i].kind == Colon
    ensures Progresses(t, i, res, r)
    decreases |t| - i, 0
  {
    var Step(c, i1) := Expr(t, i + 1);
    var res1 := Register(Advancement(res), c);
    if res1.error.Some? then Turn(Step(res1, i1), entries, true)
    else Turn(Step(res1, i1), entries + [Entry(key, c.node.value)], false)
  }

  function IfExpr(t: seq<Token>, i: nat): (r: Step)
    requires TokensOk(t) && i < |t|
    ensures Consumes(t, i, r)
    decreases |t| - i, 34
  {
    var Step(c, i1) := IfCases(t, i, KwIf);
    var res := Register(Start(), c);
    if res.error.Some? then Step(res, i1)
    else Step(Succeed(res, c.node.value), i1)
  }

  /** `if_expr_cases(keyword)`: one IF or ELIF case, then the rest. A block
      case may be closed by END, which ends the whole `if`. */
  function IfCases(t: seq<Token>, i: nat, keyword: string): (r: Step)
    requires TokensOk(t) && i < |t|
    ensures Consumes(t, i, r)
    ensures HoldsBranches(r)
    decreases |t| - i, 4
  {
    var res := Start();
    if !t[i].Matches(Keyword, keyword) then Step(Fail(res, ExpectedQuoted(keyword)), i)
    else Case(t, i, keyword)
  }

  /** An IF or ELIF case from its keyword on. */
  function Case(t: seq<Token>, i: nat, keyword: string): (r: Step)
    requires TokensOk(t) && i < |t| && t[i].Matches(Keyword, keyword)
    ensures Consumes(t, i, r)
    ensures HoldsBranches(r)
    decreases |t| - i, 3
  {
    CaseCondition(t, i + 1, Advancement(Start()))
  }

  /** The condition of a case and its THEN, then the case's body. */
  function CaseCondition(t: seq<Token>, i: nat, res: PR): (r: Step)
    requires TokensOk(t) && i < |t|
    ensures Continues(t, i, res, r)
    ensures HoldsBranches(r)
    decreases |t| - i, 57
  {
    var Step(c, i1) := Expr(t, i);
    var res1 := Register(res, c);
    if res1.error.Some? then Step(res1, i1)
    else if !t[i1].Matches(Keyword, KwThen) then Step(Fail(res1, ExpectedQuoted(KwThen)), i1)
    else CaseThen(t, i1, res1, c.node.value)
  }

  /** The THEN of a case, then the case's body. */
  function CaseThen(t: seq<Token>, i: nat, res: PR, condition: Node): (r: Step)
    requires TokensOk(t) && i < |t| && t[i].Matches(Keyword, KwThen)
    ensures Continues(t, i, res, r)
    ensures HoldsBranches(r)
    decreases |t| - i, 1
  {
    CaseBody(t, i + 1, Advancement(res), condition)
  }

  /** The part of `if_expr_cases` after THEN: a block case (NEWLINE and
      statements), which END may close, or an inline case. */
  function CaseBody(t: seq<Token>, i: nat, res: PR, condition: Node): (r: Step)
    requires TokensOk(t) && i < |t|
    ensures Continues(t, i, res, r)
    ensures HoldsBranches(r)
    decreases |t| - i, 58
  {
    if t[i].kind == Newline then CaseBlock(t, i + 1, Advancement(res), condition)
    else
      var Step(e, i1) := Expr(t, i);
      var res1 := Register(res, e);
      if res1.error.Some? then Step(res1, i1)
      else MoreCases(t, i1, res1, IfCase(condition, e.node.value, false))
  }

  /** The statements of a block case; END after them ends the whole `if`. */
  function CaseBlock(t: seq<Token>, i: nat, res: PR, condition: Node): (r: Step)
    requires TokensOk(t) && i < |t|
    ensures Continues(t, i, res, r)
    ensures HoldsBranches(r)
    decreases |t| - i, 61
  {
    var Step(s, i1) := Statements(t, i);
    var res1 := Register(res, s);
    if res1.error.Some? then Step(res1, i1)
    else
      var first := IfCase(condition, s.node.value, true);
      if t[i1].Matches(Keyword, KwEnd) then Step(Succeed(Advancement(res1), IfNode([first], None)), i1 + 1)
      else MoreCases(t, i1, res1, first)
  }

  /** The cases after the first one, and the else case. */
  function MoreCases(t: seq<Token>, i: nat, res: PR, first: IfCase): (r: Step)
    requires TokensOk(t) && i < |t|
    ensures Continues(t, i, res, r)
    ensures HoldsBranches(r)
    decreases |t| - i, 9
  {
    var Step(b, i1) := IfElifOrElse(t, i);
    var res1 := Register(res, b);
    if res1.error.Some? then Step(res1, i1)
    else Step(Succeed(res1, IfNode([first] + b.node.value.cases, b.node.value.elseCase)), i1)
  }

  /** `if_expr_b_or_c`: more cases after ELIF, or the else case if any. */
  function IfElifOrElse(t: seq<Token>, i: nat): (r: Step)
    requires TokensOk(t) && i < |t|
    ensures Tracks(t, i, r)
    ensures HoldsBranches(r)
    decreases |t| - i, 6
  {
    var Step(c, i1) := if t[i].Matches(Keyword, KwElif) then IfCases(t, i, KwElif) else IfElse(t, i);
    var res := Register(Start(), c);
    if res.error.Some? then Step(res, i1) else Step(Succeed(res, c.node.value), i1)
  }

  /** `if_expr_c`: the ELSE case, block or inline, or none at all. */
  function IfElse(t: seq<Token>, i: nat): (r: Step)
    requires TokensOk(t) && i < |t|
    ensures Tracks(t, i, r)
    ensures HoldsBranches(r)
    decreases |t| - i, 4
  {
    var res := Start();
    if t[i].Matches(Keyword, KwElse) then Else(t, i)
    else Step(Succeed(res, NoBranches), i)
  }

  const NoBranches: Node := IfNode([], None)

  /** The ELSE case of `if_expr_c`. */
  function Else(t: seq<Token>, i: nat): (r: Step)
    requires TokensOk(t) && i < |t| && t[i].Matches(Keyword, KwElse)
    ensures Consumes(t, i, r)
    ensures HoldsBranches(r)
    decreases |t| - i, 3
  {
    ElseBody(t, i + 1, Advancement(Start()))
  }

  /** The part of `if_expr_c` after ELSE: NEWLINE and a block, or one
      expression. */
  function ElseBody(t: seq<Token>, i: nat, res: PR): (r: Step)
    requires TokensOk(t) && i < |t|
    ensures Continues(t, i, res, r)
    ensures HoldsBranches(r)
    decreases |t| - i, 57
  {
    if t[i].kind == Newline then ElseBlock(t, i + 1, Advancement(res))
    else
      var Step(e, i1) := Expr(t, i);
      var res1 := Register(res, e);
      if res1.error.Some? then Step(res1, i1)
      else Step(Succeed(res1, IfNode([], Some(ElseCase(e.node.value, false)))), i1)
  }

  /** The statements of a block ELSE case and the END that closes it. */
  function ElseBlock(t: seq<Token>, i: nat, res: PR): (r: Step)
    requires TokensOk(t) && i < |t|
    ensures Continues(t, i, res, r)
    ensures HoldsBranches(r)
    decreases |t| - i, 61
  {
    var Step(s, i1) := Statements(t, i);
    var res1 := Register(res, s);
    if res1.error.Some? then Step(res1, i1)
    else if t[i1].Matches(Keyword, KwEnd) then
      Step(Succeed(Advancement(res1), IfNode([], Some(ElseCase(s.node.value, true)))), i1 + 1)
    else Step(Fail(res1, ExpectedQuoted(KwEnd)), i1)
  }

  /** The body after THEN shared by `for_expr` and `while_expr`: NEWLINE,
      statements and END (the block form, flagged true), or one expression.
      A body, when there is one, is handed back as the result's node. */
  function LoopBody(t: seq<Token>, i: nat, res: PR): (r: Step)
    requires TokensOk(t) && i < |t|
    ensures Continues(t, i, res, r)
    decreases |t| - i, 58
  {
    if t[i].kind == Newline then
      var Step(s, i1) := Statements(t, i + 1);
      var res1 := Register(Advancement(res), s);
      if res1.error.Some? then Step(res1, i1)
      else if !t[i1].Matches(Keyword, KwEnd) then Step(Fail(res1, ExpectedQuoted(KwEnd)), i1)
      else Step(Succeed(Advancement(res1), s.node.value), i1 + 1)
    else
      var Step(e, i1) := Expr(t, i);
      var res1 := Register(res, e);
      if res1.error.Some? then Step(res1, i1)
      else Step(Succeed(res1, e.node.value), i1)
  }

  function ForExpr(t: seq<Token>, i: nat): (r: Step)
    requires TokensOk(t) && i < |t|
    ensures Consumes(t, i, r)
    decreases |t| - i, 2
  {
    var res := Start();
    if !t[i].Matches(Keyword, KwFor) then Step(Fail(res, ExpectedQuoted(KwFor)), i)
    else
      var res1 := Advancement(res);
      if t[i + 1].kind != Identifier then Step(Fail(res1, ExpectedIdentifier), i + 1)
      else
        var res2 := Advancement(res1);
        if t[i + 2].kind != Eq then Step(Fail(res2, ExpectedQuoted("=")), i + 2)
        else ForStart(t, i + 3, Advancement(res2), TokText(t[i + 1]))
  }

  /** The start value of `for_expr` and TO. */
  function ForStart(t: seq<Token>, i: nat, res: PR, name: string): (r: Step)
    requires TokensOk(t) && i < |t|
    ensures Continues(t, i, res, r)
    decreases |t| - i, 57
  {
    var Step(s, i1) := Expr(t, i);
    var res1 := Register(res, s);
    if res1.error.Some? then Step(res1, i1)
    else if !t[i1].Matches(Keyword, KwTo) then Step(Fail(res1, ExpectedQuoted(KwTo)), i1)
    else ForEnd(t, i1, res1, name, s.node.value)
  }

  /** The end value of `for_expr`. */
  function ForEnd(t: seq<Token>, i: nat, res: PR, name: string, start: Node): (r: Step)
    requires TokensOk(t) && i < |t| && t[i].Matches(Keyword, KwTo)
    ensures Continues(t, i, res, r)
    decreases |t| - i, 1
  {
    var Step(e, i1) := Expr(t, i + 1);
    var res1 := Register(Advancement(res), e);
    if res1.error.Some? then Step(res1, i1)
    else ForStep(t, i1, res1, name, start, e.node.value)
  }

  /** The optional STEP of `for_expr`. */
  function ForStep(t: seq<Token>, i: nat, res: PR, name: string, start: Node, end: Node): (r: Step)
    requires TokensOk(t) && i < |t|
    ensures Continues(t, i, res, r)
    decreases |t| - i, 2
  {
    if t[i].Matches(Keyword, KwStep) then
      var Step(c, i1) := Expr(t, i + 1);
      var res1 := Register(Advancement(res), c);
      if res1.error.Some? then Step(res1, i1)
      else ForBody(t, i1, res1, name, start, end, Some(c.node.value))
    else ForBody(t, i, res, name, start, end, None)
  }

  /** THEN and the body of `for_expr`. */
  function ForBody(t: seq<Token>, i: nat, res: PR, name: string, start: Node, end: Node, step: Option<Node>)
    : (r: Step)
    requires TokensOk(t) && i < |t|
    ensures Continues(t, i, res, r)
    decreases |t| - i, 0
  {
    if !t[i].Matches(Keyword, KwThen) then Step(Fail(res, ExpectedQuoted(KwThen)), i)
    else
      var Step(b, j) := LoopBody(t, i + 1, Advancement(res));
      if b.error.Some? then Step(b, j)
      else Step(Succeed(b, ForNode(name, start, end, step, b.node.value, t[i + 1].kind == Newline)), j)
  }

  function WhileExpr(t: seq<Token>, i: nat): (r: Step)
    requires TokensOk(t) && i < |t|
    ensures Consumes(t, i, r)
    decreases |t| - i, 2
  {
    var res := Start();
    if !t[i].Matches(Keyword, KwWhile) then Step(Fail(res, ExpectedQuoted(KwWhile)), i)
    else
      var Step(c, i1) := Expr(t, i + 1);
      var res1 := Register(Advancement(res), c);
      if res1.error.Some? then Step(res1, i1)
      else if !t[i1].Matches(Keyword, KwThen) then Step(Fail(res1, ExpectedQuoted(KwThen)), i1)
      else
        var Step(b, j) := LoopBody(t, i1 + 1, Advancement(res1));
        if b.error.Some? then Step(b, j)
        else Step(Succeed(b, WhileNode(c.node.value, b.node.value, t[i1 + 1].kind == Newline)), j)
  }

  /** `func_def`: FUNC, an optional name, the parameter list, then `=> expr`
      (auto-return) or NEWLINE, statements and END. */
  function FuncDef(t: seq<Token>, i: nat): (r: Step)
    requires TokensOk(t) && i < |t|
    ensures Consumes(t, i, r)
    decreases |t| - i, 2
  {
    var res := Start();
    if !t[i].Matches(Keyword, KwFunction) then Step(Fail(res, ExpectedQuoted(KwFunction)), i)
    else
      var res1 := Advancement(res);
      if t[i + 1].kind == Identifier then
        var res2 := Advancement(res1);
        if t[i + 2].kind != LParen then Step(Fail(res2, ExpectedQuoted("(")), i + 2)
        else FuncParams(t, i + 2, res2, Some(TokText(t[i + 1])))
      else if t[i + 1].kind != LParen then Step(Fail(res1, ExpectedIdentifierOr("(")), i + 1)
      else FuncParams(t, i + 1, res1, None)
  }

  /** The parameter list of `func_def`, entered on its '('. */
  function FuncParams(t: seq<Token>, i: nat, res: PR, name: Option<string>): (r: Step)
    requires TokensOk(t) && i < |t| && t[i].kind == LParen
    ensures Continues(t, i, res, r)
    decreases |t| - i, 0
  {
    ParamsOpen(t, i + 1, Advancement(res), name)
  }

  /** The part of `func_def` after '(': the first parameter, or ')'. */
  function ParamsOpen(t: seq<Token>, i: nat, res: PR, name: Option<string>): (r: Step)
    requires TokensOk(t) && i < |t|
    ensures Continues(t, i, res, r)
    decreases |t| - i, 1
  {
    if t[i].kind == Identifier then FirstParam(t, i, res, name)
    else if t[i].kind != RParen then Step(Fail(res, ExpectedIdentifierOr(")")), i)
    else NoParams(t, i, res, name)
  }

  /** The first parameter of `func_def`, then the rest of the list. */
  function FirstParam(t: seq<Token>, i: nat, res: PR, name: Option<string>): (r: Step)
    requires TokensOk(t) && i < |t| && t[i].kind == Identifier
    ensures Continues(t, i, res, r)
    decreases |t| - i, 0
  {
    ParamList(t, i + 1, Advancement(res), name, [TokText(t[i])])
  }

  /** The ')' of a `func_def` without parameters, then its body. */
  function NoParams(t: seq<Token>, i: nat, res: PR, name: Option<string>): (r: Step)
    requires TokensOk(t) && i < |t| && t[i].kind == RParen
    ensures Continues(t, i, res, r)
    decreases |t| - i, 0
  {
    FuncBody(t, i + 1, Advancement(res), name, [])
  }

  /** The loop over `, name` of `func_def`. */
  function ParamList(t: seq<Token>, i: nat, res: PR, name: Option<string>, params: seq<string>): (r: Step)
    requires TokensOk(t) && i < |t|
    ensures Continues(t, i, res, r)
    decreases |t| - i, 0
  {
    if t[i].kind == Comma then
      var res1 := Advancement(res);
      if t[i + 1].kind != Identifier then Step(Fail(res1, ExpectedIdentifier), i + 1)
      else ParamList(t, i + 2, Advancement(res1), name, params + [TokText(t[i + 1])])
    else if t[i].kind != RParen then Step(Fail(res, ExpectedEither(",", ")")), i)
    else FuncBody(t, i + 1, Advancement(res), name, params)
  }

  /** The body of `func_def`, after the ')'. */
  function FuncBody(t: seq<Token>, i: nat, res: PR, name: Option<string>, params: seq<string>): (r: Step)
    requires TokensOk(t) && i < |t|
    ensures Continues(t, i, res, r)
    decreases |t| - i, 0
  {
    if t[i].kind == Arrow then
      var Step(c, i1) := Expr(t, i + 1);
      var res1 := Register(Advancement(res), c);
      if res1.error.Some? then Step(res1, i1)
      else Step(Succeed(res1, FuncDefNode(name, params, c.node.value, true)), i1)
    else if t[i].kind != Newline then Step(Fail(res, ExpectedArrowOrNewline), i)
    else
      var Step(s, i1) := Statements(t, i + 1);
      var res1 := Register(Advancement(res), s);
      if res1.error.Some? then Step(res1, i1)
      else if !t[i1].Matches(Keyword, KwEnd) then Step(Fail(res1, ExpectedQuoted(KwEnd)), i1)
      else Step(Succeed(Advancement(res1), FuncDefNode(name, params, s.node.value, false)), i1 + 1)
  }

  /** `import_expr`, syntax only: IMPORT, an expression, AS and a name. */
  function ImportExpr(t: seq<Token>, i: nat): (r: Step)
    requires TokensOk(t) && i < |t|
    ensures Consumes(t, i, r)
    decreases |t| - i, 2
  {
    var res := Start();
    if !t[i].Matches(Keyword, KwImport) then Step(Fail(res, ExpectedQuoted(KwImport)), i)
    else ImportLib(t, i)
  }

  /** `import_expr` from IMPORT on: the library expression, then the rest. */
  function ImportLib(t: seq<Token>, i: nat): (r: Step)
    requires TokensOk(t) && i < |t| && t[i].Matches(Keyword, KwImport)
    ensures Consumes(t, i, r)
    decreases |t| - i, 1
  {
    var Step(c, i1) := Expr(t, i + 1);
    var res1 := Register(Advancement(Start()), c);
    if res1.error.Some? then Step(res1, i1)
    else ImportAs(t, i1, res1, c.node.value)
  }

  /** `AS name` at the end of `import_expr`. */
  function ImportAs(t: seq<Token>, i: nat, res: PR, lib: Node): (r: Step)
    requires TokensOk(t) && i < |t|
    ensures Continues(t, i, res, r)
    decreases |t| - i, 0
  {
    if !t[i].Matches(Keyword, KwAs) then Step(Fail(res, ExpectedQuoted(KwAs)), i)
    else
      var res1 := Advancement(res);
      if t[i + 1].kind != Identifier then Step(Fail(res1, ExpectedIdentifier), i + 1)
      else Step(Succeed(Advancement(res1), ImportNode(lib, TokText(t[i + 1]))), i + 2)
  }
}
