/**
 * The parser of src/parser.py: a cursor over the token list and one method
 * per production. Each method is proved to return the result its grammar
 * function (grammar.dfy) gives and to leave the cursor where that function
 * says, so the properties proved about the grammar hold of the parser.
 */
module Parsing {
  import opened Wrappers
  import opened Tokens
  import opened Syntax
  import opened Grammar

  class Parser {
    const tokens: seq<Token>
    var tokIdx: int
    var currentTok: Token

    ghost predicate Valid()
      reads this
    {
      TokensOk(tokens) && 0 <= tokIdx < |tokens| && currentTok == tokens[tokIdx]
    }

    /** The cursor starts before the first token and is advanced once. */
    constructor (tokens: seq<Token>)
      requires TokensOk(tokens)
      ensures Valid() && this.tokens == tokens && tokIdx == 0
    {
      this.tokens := tokens;
      tokIdx := -1;
      currentTok := EofToken;
      new;
      Advance();
    }

    /** `update_current_tok`: the current token follows the index while the
        index is on the list. */
    method UpdateCurrentTok()
      modifies this
      ensures tokIdx == old(tokIdx)
      ensures 0 <= tokIdx < |tokens| ==> currentTok == tokens[tokIdx]
      ensures !(0 <= tokIdx < |tokens|) ==> currentTok == old(currentTok)
    {
      if 0 <= tokIdx < |tokens| {
        currentTok := tokens[tokIdx];
      }
    }

    method Advance()
      requires TokensOk(tokens) && -1 <= tokIdx && tokIdx + 1 < |tokens|
      modifies this
      ensures Valid() && tokIdx == old(tokIdx) + 1
    {
      tokIdx := tokIdx + 1;
      UpdateCurrentTok();
    }

    method Deadvance()
      requires Valid() && tokIdx > 0
      modifies this
      ensures Valid() && tokIdx == old(tokIdx) - 1
    {
      tokIdx := tokIdx - 1;
      UpdateCurrentTok();
    }

    method Reverse(amount: nat)
      requires Valid() && amount <= tokIdx
      modifies this
      ensures Valid() && tokIdx == old(tokIdx) - amount
    {
      tokIdx := tokIdx - amount;
      UpdateCurrentTok();
    }

    method Parse() returns (res: PR)
      requires Valid()
      modifies this
      ensures Valid()
      ensures res == Grammar.ParseFrom(tokens, old(tokIdx)).res
      ensures tokIdx == Grammar.ParseFrom(tokens, old(tokIdx)).next
    {
      res := Statements();
      if res.error.None? && currentTok.kind !in {EOF, Keyword, Dot} {
        Deadvance();
        if currentTok.Matches(Keyword, KwAs) {
          Advance();
          if currentTok.kind == Identifier {
            return;
          }
          Deadvance();
        }
        Advance();
        res := Fail(res, ExpectedOperator);
      }
    }

    /** A `while` loop of `statements` that passes over NEWLINE tokens; it
        also reports how many there were. */
    method SkipNewlines(res0: PR) returns (res: PR, count: nat)
      requires Valid()
      modifies this
      ensures Valid()
      ensures res == Grammar.SkipNewlines(tokens, old(tokIdx), res0).res
      ensures tokIdx == Grammar.SkipNewlines(tokens, old(tokIdx), res0).next
      ensures count == tokIdx - old(tokIdx)
    {
      ghost var start := tokIdx;
      res := res0;
      count := 0;
      while currentTok.kind == Newline
        invariant Valid() && start <= tokIdx && count == tokIdx - start
        invariant Grammar.SkipNewlines(tokens, tokIdx, res) == Grammar.SkipNewlines(tokens, start, res0)
        decreases |tokens| - tokIdx
      {
        res := Advancement(res);
        Advance();
        count := count + 1;
      }
    }

    /** Passes over the current token, then parses an expression and
        registers it. */
    method SkipThenExpr(res0: PR) returns (res: PR, e: PR)
      requires Valid() && currentTok.kind != EOF
      modifies this
      ensures Valid()
      ensures var Step(c, j) := Grammar.Expr(tokens, old(tokIdx) + 1);
        e == c && tokIdx == j && res == Register(Advancement(res0), c)
      decreases |tokens| - tokIdx, 0
    {
      res := Advancement(res0);
      Advance();
      e := Expr();
      res := Register(res, e);
    }

    /** Passes over the current token, then parses statements and registers
        them. */
    method SkipThenStatements(res0: PR) returns (res: PR, s: PR)
      requires Valid() && currentTok.kind != EOF
      modifies this
      ensures Valid()
      ensures var Step(c, j) := Grammar.Statements(tokens, old(tokIdx) + 1);
        s == c && tokIdx == j && res == Register(Advancement(res0), c)
      decreases |tokens| - tokIdx, 0
    {
      res := Advancement(res0);
      Advance();
      s := Statements();
      res := Register(res, s);
    }

    /** Passes over the current token, then expects a name: on an identifier
        it passes over that too and gives its text. */
    method SkipThenName(res0: PR) returns (res: PR, name: Option<string>)
      requires Valid() && currentTok.kind != EOF
      modifies this
      ensures Valid()
      ensures tokens[old(tokIdx) + 1].kind == Identifier ==>
        name == Some(TokText(tokens[old(tokIdx) + 1])) && res == Advancement(Advancement(res0)) && tokIdx == old(tokIdx) + 2
      ensures tokens[old(tokIdx) + 1].kind != Identifier ==>
        name.None? && res == Fail(Advancement(res0), ExpectedIdentifier) && tokIdx == old(tokIdx) + 1
    {
      res := Advancement(res0);
      Advance();
      if currentTok.kind != Identifier {
        return Fail(res, ExpectedIdentifier), None;
      }
      name := Some(TokText(currentTok));
      res := Advancement(res);
      Advance();
    }

    /** Passes over an operator, then parses the right operand of the level
        and registers it. */
    method SkipThenOperand(level: Level, res0: PR) returns (res: PR, right: PR)
      requires Valid() && currentTok.kind != EOF
      modifies this
      ensures Valid()
      ensures var Step(c, j) := Grammar.Operand(level, true, tokens, old(tokIdx) + 1);
        right == c && tokIdx == j && res == Register(Advancement(res0), c)
      decreases |tokens| - tokIdx, 0
    {
      res := Advancement(res0);
      Advance();
      right := Operand(level, true);
      res := Register(res, right);
    }

    /** Passes over THEN, then parses the body of a loop. */
    method SkipThenLoopBody(res0: PR) returns (res: PR, block: bool)
      requires Valid() && currentTok.kind != EOF
      modifies this
      ensures Valid()
      ensures var Step(b, j) := Grammar.LoopBody(tokens, old(tokIdx) + 1, Advancement(res0));
        res == b && tokIdx == j && block == (tokens[old(tokIdx) + 1].kind == Newline)
      decreases |tokens| - tokIdx, 0
    {
      res := Advancement(res0);
      Advance();
      res, block := LoopBody(res);
    }

    method Statements() returns (res: PR)
      requires Valid()
      modifies this
      ensures Valid()
      ensures res == Grammar.Statements(tokens, old(tokIdx)).res
      ensures tokIdx == Grammar.Statements(tokens, old(tokIdx)).next
      decreases |tokens| - tokIdx, 60
    {
      var newlines;
      res, newlines := SkipNewlines(Start());
      var first := Statement();
      res := Register(res, first);
      if res.error.Some? {
        return;
      }
      res := MoreStatements(res, [first.node.value]);
    }

    /** The `while True` loop of `statements`, given the statements so far. */
    method MoreStatements(res0: PR, statements0: seq<Node>) returns (res: PR)
      requires Valid()
      modifies this
      ensures Valid()
      ensures res == StatementsLoop(tokens, old(tokIdx), res0, statements0).res
      ensures tokIdx == StatementsLoop(tokens, old(tokIdx), res0, statements0).next
      decreases |tokens| - tokIdx, 0
    {
      ghost var start := tokIdx;
      res := res0;
      var statements := statements0;
      while true
        invariant Valid() && start <= tokIdx
        invariant StatementsLoop(tokens, tokIdx, res, statements) == StatementsLoop(tokens, start, res0, statements0)
        decreases |tokens| - tokIdx
      {
        var newlines;
        res, newlines := SkipNewlines(res);
        if newlines == 0 {
          break;
        }
        var s := Statement();
        res := TryRegister(res, s);
        if s.error.Some? {
          // The failed statement is undone; the next test of the loop finds
          // no NEWLINE and ends it.
          Reverse(res.toReverse);
          break;
        }
        statements := statements + [s.node.value];
      }
      res := Succeed(res, ListNode(statements));
    }

    method Statement() returns (res: PR)
      requires Valid()
      modifies this
      ensures Valid()
      ensures res == Grammar.Statement(tokens, old(tokIdx)).res
      ensures tokIdx == Grammar.Statement(tokens, old(tokIdx)).next
      decreases |tokens| - tokIdx, 58
    {
      res := Start();
      if currentTok.Matches(Keyword, KwReturn) {
        res := Advancement(res);
        Advance();
        var e := Expr();
        res := TryRegister(res, e);
        if e.error.Some? {
          Reverse(res.toReverse);
          return Succeed(res, ReturnNode(None));
        }
        return Succeed(res, ReturnNode(Some(e.node.value)));
      }
      if currentTok.Matches(Keyword, KwContinue) {
        res := Advancement(res);
        Advance();
        return Succeed(res, ContinueNode);
      }
      if currentTok.Matches(Keyword, KwBreak) {
        res := Advancement(res);
        Advance();
        return Succeed(res, BreakNode);
      }
      var e := Expr();
      res := Register(res, e);
      if res.error.Some? {
        return Fail(res, ExpectedStatement);
      }
      return Succeed(res, e.node.value);
    }

    method Expr() returns (res: PR)
      requires Valid()
      modifies this
      ensures Valid()
      ensures res == Grammar.Expr(tokens, old(tokIdx)).res
      ensures tokIdx == Grammar.Expr(tokens, old(tokIdx)).next
      decreases |tokens| - tokIdx, 56
    {
      res := Start();
      if currentTok.Matches(Keyword, KwVar) {
        res := Advancement(res);
        Advance();
        if currentTok.kind != Identifier {
          return Fail(res, ExpectedIdentifier);
        }
        var varName := currentTok;
        res := Advancement(res);
        Advance();
        if currentTok.kind != Eq {
          return Fail(res, ExpectedQuoted("="));
        }
        var e;
        res, e := SkipThenExpr(res);
        if res.error.Some? {
          return;
        }
        return Succeed(res, VarAssignNode(TokText(varName), e.node.value, false));
      }
      var node := BinOp(Logic);
      res := Register(res, node);
      if res.error.Some? {
        return Fail(res, ExpectedExpr);
      }
      return Succeed(res, node.node.value);
    }

    method CompExpr() returns (res: PR)
      requires Valid()
      modifies this
      ensures Valid()
      ensures res == Grammar.CompExpr(tokens, old(tokIdx)).res
      ensures tokIdx == Grammar.CompExpr(tokens, old(tokIdx)).next
      decreases |tokens| - tokIdx, 52
    {
      res := Start();
      if currentTok.Matches(Keyword, KwNot) {
        var op := currentTok;
        res := Advancement(res);
        Advance();
        var node := CompExpr();
        res := Register(res, node);
        if res.error.Some? {
          return;
        }
        return Succeed(res, UnaryOpNode(op, node.node.value));
      }
      var node;
      if currentTok.kind == Identifier {
        node := BinOp(DotChain);
      } else {
        node := BinOp(Comparison);
      }
      res := Register(res, node);
      if res.error.Some? {
        return Fail(res, ExpectedComparison);
      }
      return Succeed(res, node.node.value);
    }

    /** The operand production of a level (`func_a`, or `func_b` on the
        right). */
    method Operand(level: Level, right: bool) returns (res: PR)
      requires Valid()
      modifies this
      ensures Valid()
      ensures res == Grammar.Operand(level, right, tokens, old(tokIdx)).res
      ensures tokIdx == Grammar.Operand(level, right, tokens, old(tokIdx)).next
      decreases |tokens| - tokIdx, OperandRank(level, right)
    {
      match level {
        case Logic => res := CompExpr();
        case DotChain => res := BinOp(DotOperand);
        case DotOperand => res := BinOp(Arith);
        case Comparison => res := BinOp(Arith);
        case Arith => res := BinOp(Term);
        case Term => res := Factor();
        case Power =>
          if right {
            res := Factor();
          } else {
            res := Call();
          }
      }
    }

    /** One turn of the loop of `bin_op`: the operator and its right operand
        joined to `left`. */
    method OperatorTurn(level: Level, res0: PR, left0: Node) returns (res: PR, left: Node)
      requires Valid() && IsOperator(level, currentTok)
      modifies this
      ensures Valid() && old(tokIdx) < tokIdx
      ensures BinOpLoop(level, tokens, old(tokIdx), res0, left0)
           == if res.error.Some? then Step(res, tokIdx) else BinOpLoop(level, tokens, tokIdx, res, left)
      decreases |tokens| - tokIdx, LevelRank(level), 0
    {
      var op := currentTok;
      var right;
      res, right := SkipThenOperand(level, res0);
      left := if res.error.Some? then left0 else BinOpNode(left0, op, right.node.value);
    }

    /** `bin_op`; `power`, `term`, `arith_expr` and `dot` are its instances. */
    method BinOp(level: Level) returns (res: PR)
      requires Valid()
      modifies this
      ensures Valid()
      ensures res == Grammar.BinOp(level, tokens, old(tokIdx)).res
      ensures tokIdx == Grammar.BinOp(level, tokens, old(tokIdx)).next
      decreases |tokens| - tokIdx, LevelRank(level)
    {
      ghost var start := tokIdx;
      res := Start();
      var first := Operand(level, false);
      res := Register(res, first);
      if res.error.Some? {
        return;
      }
      var left := first.node.value;
      while IsOperator(level, currentTok)
        invariant Valid() && start <= tokIdx
        invariant BinOpLoop(level, tokens, tokIdx, res, left) == Grammar.BinOp(level, tokens, start)
        decreases |tokens| - tokIdx
      {
        res, left := OperatorTurn(level, res, left);
        if res.error.Some? {
          return;
        }
      }
      res := Succeed(res, left);
    }

    method Factor() returns (res: PR)
      requires Valid()
      modifies this
      ensures Valid()
      ensures res == Grammar.Factor(tokens, old(tokIdx)).res
      ensures tokIdx == Grammar.Factor(tokens, old(tokIdx)).next
      decreases |tokens| - tokIdx, 42
    {
      res := Start();
      var tok := currentTok;
      if tok.kind == Plus || tok.kind == Minus {
        res := Advancement(res);
        Advance();
        var factor := Factor();
        res := Register(res, factor);
        if res.error.Some? {
          return;
        }
        return Succeed(res, UnaryOpNode(tok, factor.node.value));
      }
      res := BinOp(Power);
    }

    method Call() returns (res: PR)
      requires Valid()
      modifies this
      ensures Valid()
      ensures res == Grammar.Call(tokens, old(tokIdx)).res
      ensures tokIdx == Grammar.Call(tokens, old(tokIdx)).next
      decreases |tokens| - tokIdx, 38
    {
      res := Start();
      var atom := Atom();
      res := Register(res, atom);
      if res.error.Some? {
        return;
      }
      if currentTok.kind == LParen {
        res := Advancement(res);
        Advance();
        res := CallOpen(res, atom.node.value);
        return;
      }
      return Succeed(res, atom.node.value);
    }

    /** The part of `call` after '(': ')' or the arguments. */
    method CallOpen(res0: PR, callee: Node) returns (res: PR)
      requires Valid()
      modifies this
      ensures Valid()
      ensures res == Grammar.CallOpen(tokens, old(tokIdx), res0, callee).res
      ensures tokIdx == Grammar.CallOpen(tokens, old(tokIdx), res0, callee).next
      decreases |tokens| - tokIdx, 58
    {
      if currentTok.kind == RParen {
        res := Advancement(res0);
        Advance();
        return Succeed(res, CallNode(callee, []));
      }
      res := FirstArg(res0, callee);
    }

    /** The first argument of `call`, then the rest. */
    method FirstArg(res0: PR, callee: Node) returns (res: PR)
      requires Valid()
      modifies this
      ensures Valid()
      ensures res == Grammar.FirstArg(tokens, old(tokIdx), res0, callee).res
      ensures tokIdx == Grammar.FirstArg(tokens, old(tokIdx), res0, callee).next
      decreases |tokens| - tokIdx, 57
    {
      var arg := Expr();
      res := Register(res0, arg);
      if res.error.Some? {
        return Fail(res, ExpectedCallArgument);
      }
      res := MoreArgs(res, callee, [arg.node.value]);
    }

    /** The `, expr` loop of `call` and its closing ')'. */
    method MoreArgs(res0: PR, callee: Node, args0: seq<Node>) returns (res: PR)
      requires Valid()
      modifies this
      ensures Valid()
      ensures res == CallArgs(tokens, old(tokIdx), res0, callee, args0).res
      ensures tokIdx == CallArgs(tokens, old(tokIdx), res0, callee, args0).next
      decreases |tokens| - tokIdx, 1
    {
      ghost var start := tokIdx;
      res := res0;
      var args := args0;
      while currentTok.kind == Comma
        invariant Valid() && start <= tokIdx
        invariant CallArgs(tokens, tokIdx, res, callee, args) == CallArgs(tokens, start, res0, callee, args0)
        decreases |tokens| - tokIdx
      {
        var arg;
        res, arg := SkipThenExpr(res);
        if res.error.Some? {
          return;
        }
        args := args + [arg.node.value];
      }
      if currentTok.kind != RParen {
        return Fail(res, ExpectedEither(",", ")"));
      }
      res := Advancement(res);
      Advance();
      return Succeed(res, CallNode(callee, args));
    }

    method Atom() returns (res: PR)
      requires Valid()
      modifies this
      ensures Valid()
      ensures res == Grammar.Atom(tokens, old(tokIdx)).res
      ensures tokIdx == Grammar.Atom(tokens, old(tokIdx)).next
      decreases |tokens| - tokIdx, 36
    {
      res := Start();
      var tok := currentTok;
      var literal := Literal(tok);
      if literal.Some? {
        res := Advancement(res);
        Advance();
        return Succeed(res, literal.value);
      } else if tok.kind == LParen {
        res := Parenthesized();
      } else if Delegates(tok) {
        var inner := Delegate();
        res := Register(res, inner);
        if res.error.Some? {
          return;
        }
        return Succeed(res, inner.node.value);
      } else {
        return Fail(res, ExpectedAtom);
      }
    }

    /** The `( expr )` case of `atom`. */
    method Parenthesized() returns (res: PR)
      requires Valid() && currentTok.kind == LParen
      modifies this
      ensures Valid()
      ensures res == Grammar.Parenthesized(tokens, old(tokIdx)).res
      ensures tokIdx == Grammar.Parenthesized(tokens, old(tokIdx)).next
      decreases |tokens| - tokIdx, 35
    {
      res := Start();
      var e;
      res, e := SkipThenExpr(res);
      if res.error.Some? {
        return;
      }
      if currentTok.kind == RParen {
        res := Advancement(res);
        Advance();
        return Succeed(res, e.node.value);
      }
      return Fail(res, ExpectedQuoted(")"));
    }

    /** The production `atom` hands over to on the current token. */
    method Delegate() returns (res: PR)
      requires Valid() && Delegates(currentTok)
      modifies this
      ensures Valid()
      ensures res == Grammar.Delegate(tokens, old(tokIdx)).res
      ensures tokIdx == Grammar.Delegate(tokens, old(tokIdx)).next
      decreases |tokens| - tokIdx, 35
    {
      var tok := currentTok;
      if tok.kind == Identifier {
        res := IdentifierExpr();
      } else if tok.kind == LSquare {
        res := ListExpr();
      } else if tok.kind == LCurly {
        res := ObjectExpr();
      } else if tok.Matches(Keyword, KwIf) {
        res := IfExpr();
      } else if tok.Matches(Keyword, KwFor) {
        res := ForExpr();
      } else if tok.Matches(Keyword, KwWhile) {
        res := WhileExpr();
      } else if tok.Matches(Keyword, KwFunction) {
        res := FuncDef();
      } else {
        res := ImportExpr();
      }
    }

    method IdentifierExpr() returns (res: PR)
      requires Valid()
      modifies this
      ensures Valid()
      ensures res == Grammar.IdentifierExpr(tokens, old(tokIdx)).res
      ensures tokIdx == Grammar.IdentifierExpr(tokens, old(tokIdx)).next
      decreases |tokens| - tokIdx, 2
    {
      if currentTok.kind != Identifier {
        return Fail(Start(), ExpectedIdentifier);
      }
      res := Named();
    }

    /** `identifier_expr` from its identifier on. */
    method Named() returns (res: PR)
      requires Valid() && currentTok.kind == Identifier
      modifies this
      ensures Valid()
      ensures res == Grammar.Named(tokens, old(tokIdx)).res
      ensures tokIdx == Grammar.Named(tokens, old(tokIdx)).next
      decreases |tokens| - tokIdx, 1
    {
      var varName := TokText(currentTok);
      res := Advancement(Start());
      Advance();
      res := AfterName(res, varName);
    }

    /** What follows the identifier of `identifier_expr`. */
    method AfterName(res0: PR, varName: string) returns (res: PR)
      requires Valid()
      modifies this
      ensures Valid()
      ensures res == Grammar.AfterName(tokens, old(tokIdx), res0, varName).res
      ensures tokIdx == Grammar.AfterName(tokens, old(tokIdx), res0, varName).next
      decreases |tokens| - tokIdx, 2
    {
      if currentTok.kind == Eq {
        res := Assignment(res0, varName);
      } else if currentTok.kind == Dot {
        res := MoreNames(res0, [varName]);
      } else {
        res := Succeed(res0, VarAccessNode(varName));
      }
    }

    /** The `= e` of `identifier_expr` after a single name. */
    method Assignment(res0: PR, varName: string) returns (res: PR)
      requires Valid() && currentTok.kind == Eq
      modifies this
      ensures Valid()
      ensures res == Grammar.Assignment(tokens, old(tokIdx), res0, varName).res
      ensures tokIdx == Grammar.Assignment(tokens, old(tokIdx), res0, varName).next
      decreases |tokens| - tokIdx, 1
    {
      var e;
      res, e := SkipThenExpr(res0);
      if res.error.Some? {
        return;
      }
      return Succeed(res, VarAssignNode(varName, e.node.value, true));
    }

    /** The `.name` loop of `identifier_expr`, then `= expr` or nothing. */
    method MoreNames(res0: PR, names0: seq<string>) returns (res: PR)
      requires Valid()
      modifies this
      ensures Valid()
      ensures res == DotNames(tokens, old(tokIdx), res0, names0).res
      ensures tokIdx == DotNames(tokens, old(tokIdx), res0, names0).next
      decreases |tokens| - tokIdx, 1
    {
      ghost var start := tokIdx;
      res := res0;
      var names := names0;
      while currentTok.kind == Dot
        invariant Valid() && start <= tokIdx
        invariant DotNames(tokens, tokIdx, res, names) == DotNames(tokens, start, res0, names0)
        decreases |tokens| - tokIdx
      {
        var name;
        res, name := SkipThenName(res);
        if name.None? {
          return;
        }
        names := names + [name.value];
      }
      if currentTok.kind == Eq {
        var e;
        res, e := SkipThenExpr(res);
        if res.error.Some? {
          return;
        }
        return Succeed(res, MultiVarAssignNode(names, e.node.value));
      }
      return Succeed(res, MultiVarAccessNode(names));
    }

    method ListExpr() returns (res: PR)
      requires Valid()
      modifies this
      ensures Valid()
      ensures res == Grammar.ListExpr(tokens, old(tokIdx)).res
      ensures tokIdx == Grammar.ListExpr(tokens, old(tokIdx)).next
      decreases |tokens| - tokIdx, 2
    {
      res := Start();
      if currentTok.kind != LSquare {
        return Fail(res, ExpectedQuoted("["));
      }
      res := Advancement(res);
      Advance();
      res := ListOpen(res);
    }

    /** The part of `list_expr` after '[': ']' or the elements. */
    method ListOpen(res0: PR) returns (res: PR)
      requires Valid()
      modifies this
      ensures Valid()
      ensures res == Grammar.ListOpen(tokens, old(tokIdx), res0).res
      ensures tokIdx == Grammar.ListOpen(tokens, old(tokIdx), res0).next
      decreases |tokens| - tokIdx, 58
    {
      if currentTok.kind == RSquare {
        res := Advancement(res0);
        Advance();
        return Succeed(res, EmptyList);
      }
      res := FirstItem(res0);
    }

    /** The first element of a non-empty `list_expr`, then the rest. */
    method FirstItem(res0: PR) returns (res: PR)
      requires Valid()
      modifies this
      ensures Valid()
      ensures res == Grammar.FirstItem(tokens, old(tokIdx), res0).res
      ensures tokIdx == Grammar.FirstItem(tokens, old(tokIdx), res0).next
      decreases |tokens| - tokIdx, 57
    {
      var e := Expr();
      res := Register(res0, e);
      if res.error.Some? {
        return Fail(res, ExpectedListItem);
      }
      res := MoreItems(res, [e.node.value]);
    }

    /** The `, expr` loop of `list_expr` and its closing ']'. */
    method MoreItems(res0: PR, elements0: seq<Node>) returns (res: PR)
      requires Valid()
      modifies this
      ensures Valid()
      ensures res == ListItems(tokens, old(tokIdx), res0, elements0).res
      ensures tokIdx == ListItems(tokens, old(tokIdx), res0, elements0).next
      decreases |tokens| - tokIdx, 1
    {
      ghost var start := tokIdx;
      res := res0;
      var elements := elements0;
      while currentTok.kind == Comma
        invariant Valid() && start <= tokIdx
        invariant ListItems(tokens, tokIdx, res, elements) == ListItems(tokens, start, res0, elements0)
        decreases |tokens| - tokIdx
      {
        var e;
        res, e := SkipThenExpr(res);
        if res.error.Some? {
          return;
        }
        elements := elements + [e.node.value];
      }
      if currentTok.kind != RSquare {
        return Fail(res, ExpectedEither(",", "]"));
      }
      res := Advancement(res);
      Advance();
      return Succeed(res, ListNode(elements));
    }

    method ObjectExpr() returns (res: PR)
      requires Valid()
      modifies this
      ensures Valid()
      ensures res == Grammar.ObjectExpr(tokens, old(tokIdx)).res
      ensures tokIdx == Grammar.ObjectExpr(tokens, old(tokIdx)).next
      decreases |tokens| - tokIdx, 2
    {
      res := Start();
      if currentTok.kind != LCurly {
        return Fail(res, ExpectedQuoted("{"));
      }
      res := Advancement(res);
      Advance();
      res := ObjectOpen(res);
    }

    /** The part of `object_expr` after '{': '}' or the entries. */
    method ObjectOpen(res0: PR) returns (res: PR)
      requires Valid()
      modifies this
      ensures Valid()
      ensures res == Grammar.ObjectOpen(tokens, old(tokIdx), res0).res
      ensures tokIdx == Grammar.ObjectOpen(tokens, old(tokIdx), res0).next
      decreases |tokens| - tokIdx, 1
    {
      if currentTok.kind == RCurly {
        res := Advancement(res0);
        Advance();
        return Succeed(res, EmptyObject);
      }
      if currentTok.kind != Identifier {
        return Fail(res0, ExpectedIdentifier);
      }
      res := FirstKey(res0);
    }

    /** The key and the colon of the first entry of `object_expr`. */
    method FirstKey(res0: PR) returns (res: PR)
      requires Valid() && currentTok.kind == Identifier
      modifies this
      ensures Valid()
      ensures res == Grammar.FirstKey(tokens, old(tokIdx), res0).res
      ensures tokIdx == Grammar.FirstKey(tokens, old(tokIdx), res0).next
      decreases |tokens| - tokIdx, 0
    {
      var key := TokText(currentTok);
      res := Advancement(res0);
      Advance();
      if currentTok.kind != Colon {
        return Fail(res, ExpectedQuoted(":"));
      }
      res := Advancement(res);
      Advance();
      res := FirstEntry(res, key);
    }

    /** The value of the first entry of a non-empty `object_expr`, then the
        rest. */
    method FirstEntry(res0: PR, key: string) returns (res: PR)
      requires Valid()
      modifies this
      ensures Valid()
      ensures res == Grammar.FirstEntry(tokens, old(tokIdx), res0, key).res
      ensures tokIdx == Grammar.FirstEntry(tokens, old(tokIdx), res0, key).next
      decreases |tokens| - tokIdx, 57
    {
      var e := Expr();
      res := Register(res0, e);
      if res.error.Some? {
        return Fail(res, ExpectedEntryValue);
      }
      res := MoreEntries(res, [Entry(key, e.node.value)]);
    }

    /** One turn of the `, key: expr` loop of `object_expr`: the comma and,
        after it, an entry if an identifier follows. */
    method NextEntry(res0: PR, entries0: seq<Entry>) returns (res: PR, entries: seq<Entry>, stop: bool)
      requires Valid() && currentTok.kind == Comma
      modifies this
      ensures Valid()
      ensures Turn(Step(res, tokIdx), entries, stop) == EntryTurn(tokens, old(tokIdx), res0, entries0)
      decreases |tokens| - tokIdx, 0
    {
      res := Advancement(res0);
      Advance();
      if currentTok.kind == Identifier {
        res, entries, stop := KeyedEntry(res, entries0);
      } else {
        entries, stop := entries0, false;
      }
    }

    /** A `key: expr` entry of `object_expr`, from its key on. */
    method KeyedEntry(res0: PR, entries0: seq<Entry>) returns (res: PR, entries: seq<Entry>, stop: bool)
      requires Valid() && currentTok.kind == Identifier
      modifies this
      ensures Valid()
      ensures Turn(Step(res, tokIdx), entries, stop) == Grammar.KeyedEntry(tokens, old(tokIdx), res0, entries0)
      decreases |tokens| - tokIdx, 0
    {
      var key := TokText(currentTok);
      res := Advancement(res0);
      Advance();
      if currentTok.kind != Colon {
        return Fail(res, ExpectedQuoted(":")), entries0, true;
      }
      res, entries, stop := EntryValue(res, key, entries0);
    }

    /** The ':' of an entry of `object_expr` and its value. */
    method EntryValue(res0: PR, key: string, entries0: seq<Entry>) returns (res: PR, entries: seq<Entry>, stop: bool)
      requires Valid() && currentTok.kind == Colon
      modifies this
      ensures Valid()
      ensures Turn(Step(res, tokIdx), entries, stop) == Grammar.EntryValue(tokens, old(tokIdx), res0, key, entries0)
      decreases |tokens| - tokIdx, 1
    {
      var e;
      res, e := SkipThenExpr(res0);
      if res.error.Some? {
        return res, entries0, true;
      }
      return res, entries0 + [Entry(key, e.node.value)], false;
    }

    /** The `, key: expr` loop of `object_expr` and its closing '}'. */
    method MoreEntries(res0: PR, entries0: seq<Entry>) returns (res: PR)
      requires Valid()
      modifies this
      ensures Valid()
      ensures res == ObjectEntries(tokens, old(tokIdx), res0, entries0).res
      ensures tokIdx == ObjectEntries(tokens, old(tokIdx), res0, entries0).next
      decreases |tokens| - tokIdx, 1
    {
      ghost var start := tokIdx;
      res := res0;
      var entries := entries0;
      while currentTok.kind == Comma
        invariant Valid() && start <= tokIdx
        invariant ObjectEntries(tokens, tokIdx, res, entries) == ObjectEntries(tokens, start, res0, entries0)
        decreases |tokens| - tokIdx
      {
        var stop;
        res, entries, stop := NextEntry(res, entries);
        if stop {
          return;
        }
      }
      if currentTok.kind != RCurly {
        return Fail(res, ExpectedEither(",", "}"));
      }
      res := Advancement(res);
      Advance();
      return Succeed(res, ObjectNode(entries));
    }

    method IfExpr() returns (res: PR)
      requires Valid()
      modifies this
      ensures Valid()
      ensures res == Grammar.IfExpr(tokens, old(tokIdx)).res
      ensures tokIdx == Grammar.IfExpr(tokens, old(tokIdx)).next
      decreases |tokens| - tokIdx, 34
    {
      res := Start();
      var allCases := IfCases(KwIf);
      res := Register(res, allCases);
      if res.error.Some? {
        return;
      }
      return Succeed(res, allCases.node.value);
    }

    /** `if_expr_b`. */
    method IfExprB() returns (res: PR)
      requires Valid()
      modifies this
      ensures Valid()
      ensures res == Grammar.IfCases(tokens, old(tokIdx), KwElif).res
      ensures tokIdx == Grammar.IfCases(tokens, old(tokIdx), KwElif).next
      decreases |tokens| - tokIdx, 6
    {
      res := IfCases(KwElif);
    }

    /** `if_expr_c`. */
    method IfExprC() returns (res: PR)
      requires Valid()
      modifies this
      ensures Valid()
      ensures res == Grammar.IfElse(tokens, old(tokIdx)).res
      ensures tokIdx == Grammar.IfElse(tokens, old(tokIdx)).next
      decreases |tokens| - tokIdx, 4
    {
      res := Start();
      if currentTok.Matches(Keyword, KwElse) {
        res := Else();
        return;
      }
      return Succeed(res, NoBranches);
    }

    /** The ELSE case of `if_expr_c`. */
    method Else() returns (res: PR)
      requires Valid() && currentTok.Matches(Keyword, KwElse)
      modifies this
      ensures Valid()
      ensures res == Grammar.Else(tokens, old(tokIdx)).res
      ensures tokIdx == Grammar.Else(tokens, old(tokIdx)).next
      decreases |tokens| - tokIdx, 3
    {
      res := Advancement(Start());
      Advance();
      res := ElseBody(res);
    }

    /** The part of `if_expr_c` after ELSE. */
    method ElseBody(res0: PR) returns (res: PR)
      requires Valid()
      modifies this
      ensures Valid()
      ensures res == Grammar.ElseBody(tokens, old(tokIdx), res0).res
      ensures tokIdx == Grammar.ElseBody(tokens, old(tokIdx), res0).next
      decreases |tokens| - tokIdx, 57
    {
      if currentTok.kind == Newline {
        res := Advancement(res0);
        Advance();
        res := ElseBlock(res);
        return;
      }
      var e := Expr();
      res := Register(res0, e);
      if res.error.Some? {
        return;
      }
      return Succeed(res, IfNode([], Some(ElseCase(e.node.value, false))));
    }

    /** The statements of a block ELSE case and its END. */
    method ElseBlock(res0: PR) returns (res: PR)
      requires Valid()
      modifies this
      ensures Valid()
      ensures res == Grammar.ElseBlock(tokens, old(tokIdx), res0).res
      ensures tokIdx == Grammar.ElseBlock(tokens, old(tokIdx), res0).next
      decreases |tokens| - tokIdx, 61
    {
      var statements := Statements();
      res := Register(res0, statements);
      if res.error.Some? {
        return;
      }
      if !currentTok.Matches(Keyword, KwEnd) {
        return Fail(res, ExpectedQuoted(KwEnd));
      }
      res := Advancement(res);
      Advance();
      return Succeed(res, IfNode([], Some(ElseCase(statements.node.value, true))));
    }

    /** `if_expr_b_or_c`. */
    method IfExprBOrC() returns (res: PR)
      requires Valid()
      modifies this
      ensures Valid()
      ensures res == Grammar.IfElifOrElse(tokens, old(tokIdx)).res
      ensures tokIdx == Grammar.IfElifOrElse(tokens, old(tokIdx)).next
      decreases |tokens| - tokIdx, 8
    {
      res := Start();
      var branches;
      if currentTok.Matches(Keyword, KwElif) {
        branches := IfExprB();
      } else {
        branches := IfExprC();
      }
      res := Register(res, branches);
      if res.error.Some? {
        return;
      }
      return Succeed(res, branches.node.value);
    }

    /** `if_expr_cases(case_keyword)`. */
    method IfCases(caseKeyword: string) returns (res: PR)
      requires Valid()
      modifies this
      ensures Valid()
      ensures res == Grammar.IfCases(tokens, old(tokIdx), caseKeyword).res
      ensures tokIdx == Grammar.IfCases(tokens, old(tokIdx), caseKeyword).next
      decreases |tokens| - tokIdx, 4
    {
      res := Start();
      if !currentTok.Matches(Keyword, caseKeyword) {
        return Fail(res, ExpectedQuoted(caseKeyword));
      }
      res := Case(caseKeyword);
    }

    /** An IF or ELIF case from its keyword on. */
    method Case(caseKeyword: string) returns (res: PR)
      requires Valid() && currentTok.Matches(Keyword, caseKeyword)
      modifies this
      ensures Valid()
      ensures res == Grammar.Case(tokens, old(tokIdx), caseKeyword).res
      ensures tokIdx == Grammar.Case(tokens, old(tokIdx), caseKeyword).next
      decreases |tokens| - tokIdx, 3
    {
      res := Advancement(Start());
      Advance();
      res := CaseCondition(res);
    }

    /** The condition of a case and its THEN, then the case's body. */
    method CaseCondition(res0: PR) returns (res: PR)
      requires Valid()
      modifies this
      ensures Valid()
      ensures res == Grammar.CaseCondition(tokens, old(tokIdx), res0).res
      ensures tokIdx == Grammar.CaseCondition(tokens, old(tokIdx), res0).next
      decreases |tokens| - tokIdx, 57
    {
      var condition := Expr();
      res := Register(res0, condition);
      if res.error.Some? {
        return;
      }
      if !currentTok.Matches(Keyword, KwThen) {
        return Fail(res, ExpectedQuoted(KwThen));
      }
      res := CaseThen(res, condition.node.value);
    }

    /** The THEN of a case, then the case's body. */
    method CaseThen(res0: PR, condition: Node) returns (res: PR)
      requires Valid() && currentTok.Matches(Keyword, KwThen)
      modifies this
      ensures Valid()
      ensures res == Grammar.CaseThen(tokens, old(tokIdx), res0, condition).res
      ensures tokIdx == Grammar.CaseThen(tokens, old(tokIdx), res0, condition).next
      decreases |tokens| - tokIdx, 1
    {
      res := Advancement(res0);
      Advance();
      res := CaseBody(res, condition);
    }

    /** The part of `if_expr_cases` after THEN. */
    method CaseBody(res0: PR, condition: Node) returns (res: PR)
      requires Valid()
      modifies this
      ensures Valid()
      ensures res == Grammar.CaseBody(tokens, old(tokIdx), res0, condition).res
      ensures tokIdx == Grammar.CaseBody(tokens, old(tokIdx), res0, condition).next
      decreases |tokens| - tokIdx, 58
    {
      if currentTok.kind == Newline {
        res := Advancement(res0);
        Advance();
        res := CaseBlock(res, condition);
        return;
      }
      var e := Expr();
      res := Register(res0, e);
      if res.error.Some? {
        return;
      }
      res := MoreCases(res, IfCase(condition, e.node.value, false));
    }

    /** The statements of a block case, and END or the remaining cases. */
    method CaseBlock(res0: PR, condition: Node) returns (res: PR)
      requires Valid()
      modifies this
      ensures Valid()
      ensures res == Grammar.CaseBlock(tokens, old(tokIdx), res0, condition).res
      ensures tokIdx == Grammar.CaseBlock(tokens, old(tokIdx), res0, condition).next
      decreases |tokens| - tokIdx, 61
    {
      var statements := Statements();
      res := Register(res0, statements);
      if res.error.Some? {
        return;
      }
      var first := IfCase(condition, statements.node.value, true);
      if currentTok.Matches(Keyword, KwEnd) {
        res := Advancement(res);
        Advance();
        return Succeed(res, IfNode([first], None));
      }
      res := MoreCases(res, first);
    }

    /** The cases after the first one, and the else case. */
    method MoreCases(res0: PR, first: IfCase) returns (res: PR)
      requires Valid()
      modifies this
      ensures Valid()
      ensures res == Grammar.MoreCases(tokens, old(tokIdx), res0, first).res
      ensures tokIdx == Grammar.MoreCases(tokens, old(tokIdx), res0, first).next
      decreases |tokens| - tokIdx, 9
    {
      var branches := IfExprBOrC();
      res := Register(res0, branches);
      if res.error.Some? {
        return;
      }
      return Succeed(res, IfNode([first] + branches.node.value.cases, branches.node.value.elseCase));
    }

    method ForExpr() returns (res: PR)
      requires Valid()
      modifies this
      ensures Valid()
      ensures res == Grammar.ForExpr(tokens, old(tokIdx)).res
      ensures tokIdx == Grammar.ForExpr(tokens, old(tokIdx)).next
      decreases |tokens| - tokIdx, 2
    {
      res := Start();
      if !currentTok.Matches(Keyword, KwFor) {
        return Fail(res, ExpectedQuoted(KwFor));
      }
      res := Advancement(res);
      Advance();
      if currentTok.kind != Identifier {
        return Fail(res, ExpectedIdentifier);
      }
      var varName := TokText(currentTok);
      res := Advancement(res);
      Advance();
      if currentTok.kind != Eq {
        return Fail(res, ExpectedQuoted("="));
      }
      res := Advancement(res);
      Advance();
      res := ForStart(res, varName);
    }

    /** The start value of `for_expr` and TO. */
    method ForStart(res0: PR, varName: string) returns (res: PR)
      requires Valid()
      modifies this
      ensures Valid()
      ensures res == Grammar.ForStart(tokens, old(tokIdx), res0, varName).res
      ensures tokIdx == Grammar.ForStart(tokens, old(tokIdx), res0, varName).next
      decreases |tokens| - tokIdx, 57
    {
      var startValue := Expr();
      res := Register(res0, startValue);
      if res.error.Some? {
        return;
      }
      if !currentTok.Matches(Keyword, KwTo) {
        return Fail(res, ExpectedQuoted(KwTo));
      }
      res := ForEnd(res, varName, startValue.node.value);
    }

    /** The end value of `for_expr`. */
    method ForEnd(res0: PR, varName: string, startValue: Node) returns (res: PR)
      requires Valid() && currentTok.Matches(Keyword, KwTo)
      modifies this
      ensures Valid()
      ensures res == Grammar.ForEnd(tokens, old(tokIdx), res0, varName, startValue).res
      ensures tokIdx == Grammar.ForEnd(tokens, old(tokIdx), res0, varName, startValue).next
      decreases |tokens| - tokIdx, 1
    {
      var endValue;
      res, endValue := SkipThenExpr(res0);
      if res.error.Some? {
        return;
      }
      res := ForStep(res, varName, startValue, endValue.node.value);
    }

    /** The optional STEP of `for_expr`. */
    method ForStep(res0: PR, varName: string, startValue: Node, endValue: Node) returns (res: PR)
      requires Valid()
      modifies this
      ensures Valid()
      ensures res == Grammar.ForStep(tokens, old(tokIdx), res0, varName, startValue, endValue).res
      ensures tokIdx == Grammar.ForStep(tokens, old(tokIdx), res0, varName, startValue, endValue).next
      decreases |tokens| - tokIdx, 2
    {
      res := res0;
      var stepValue := None;
      if currentTok.Matches(Keyword, KwStep) {
        var s;
        res, s := SkipThenExpr(res);
        if res.error.Some? {
          return;
        }
        stepValue := Some(s.node.value);
      }
      res := ForBody(res, varName, startValue, endValue, stepValue);
    }

    /** THEN and the body of `for_expr`. */
    method ForBody(res0: PR, varName: string, startValue: Node, endValue: Node, stepValue: Option<Node>)
      returns (res: PR)
      requires Valid()
      modifies this
      ensures Valid()
      ensures res == Grammar.ForBody(tokens, old(tokIdx), res0, varName, startValue, endValue, stepValue).res
      ensures tokIdx == Grammar.ForBody(tokens, old(tokIdx), res0, varName, startValue, endValue, stepValue).next
      decreases |tokens| - tokIdx, 1
    {
      res := res0;
      if !currentTok.Matches(Keyword, KwThen) {
        return Fail(res, ExpectedQuoted(KwThen));
      }
      var block;
      res, block := SkipThenLoopBody(res);
      if res.error.Some? {
        return;
      }
      return Succeed(res, ForNode(varName, startValue, endValue, stepValue, res.node.value, block));
    }

    method WhileExpr() returns (res: PR)
      requires Valid()
      modifies this
      ensures Valid()
      ensures res == Grammar.WhileExpr(tokens, old(tokIdx)).res
      ensures tokIdx == Grammar.WhileExpr(tokens, old(tokIdx)).next
      decreases |tokens| - tokIdx, 2
    {
      res := Start();
      if !currentTok.Matches(Keyword, KwWhile) {
        return Fail(res, ExpectedQuoted(KwWhile));
      }
      var condition;
      res, condition := SkipThenExpr(res);
      if res.error.Some? {
        return;
      }
      if !currentTok.Matches(Keyword, KwThen) {
        return Fail(res, ExpectedQuoted(KwThen));
      }
      var block;
      res, block := SkipThenLoopBody(res);
      if res.error.Some? {
        return;
      }
      return Succeed(res, WhileNode(condition.node.value, res.node.value, block));
    }

    /** The body after THEN of `for_expr` and `while_expr`; `block` tells the
        block form from the inline one, and the body is the result's node. */
    method LoopBody(res0: PR) returns (res: PR, block: bool)
      requires Valid()
      modifies this
      ensures Valid()
      ensures res == Grammar.LoopBody(tokens, old(tokIdx), res0).res
      ensures tokIdx == Grammar.LoopBody(tokens, old(tokIdx), res0).next
      ensures block == (tokens[old(tokIdx)].kind == Newline)
      decreases |tokens| - tokIdx, 58
    {
      res := res0;
      if currentTok.kind == Newline {
        block := true;
        var body;
        res, body := SkipThenStatements(res);
        if res.error.Some? {
          return;
        }
        if !currentTok.Matches(Keyword, KwEnd) {
          return Fail(res, ExpectedQuoted(KwEnd)), block;
        }
        res := Advancement(res);
        Advance();
        return Succeed(res, body.node.value), block;
      }
      block := false;
      var body := Expr();
      res := Register(res, body);
      if res.error.Some? {
        return;
      }
      return Succeed(res, body.node.value), block;
    }

    method FuncDef() returns (res: PR)
      requires Valid()
      modifies this
      ensures Valid()
      ensures res == Grammar.FuncDef(tokens, old(tokIdx)).res
      ensures tokIdx == Grammar.FuncDef(tokens, old(tokIdx)).next
      decreases |tokens| - tokIdx, 2
    {
      res := Start();
      if !currentTok.Matches(Keyword, KwFunction) {
        return Fail(res, ExpectedQuoted(KwFunction));
      }
      res := Advancement(res);
      Advance();
      var name: Option<string>;
      if currentTok.kind == Identifier {
        name := Some(TokText(currentTok));
        res := Advancement(res);
        Advance();
        if currentTok.kind != LParen {
          return Fail(res, ExpectedQuoted("("));
        }
      } else {
        name := None;
        if currentTok.kind != LParen {
          return Fail(res, ExpectedIdentifierOr("("));
        }
      }
      res := FuncParams(res, name);
    }

    /** The parameter list of `func_def`, entered on its '('. */
    method FuncParams(res0: PR, name: Option<string>) returns (res: PR)
      requires Valid() && currentTok.kind == LParen
      modifies this
      ensures Valid()
      ensures res == Grammar.FuncParams(tokens, old(tokIdx), res0, name).res
      ensures tokIdx == Grammar.FuncParams(tokens, old(tokIdx), res0, name).next
      decreases |tokens| - tokIdx, 2
    {
      res := Advancement(res0);
      Advance();
      res := ParamsOpen(res, name);
    }

    /** The part of `func_def` after '(': the first parameter, or ')'. */
    method ParamsOpen(res0: PR, name: Option<string>) returns (res: PR)
      requires Valid()
      modifies this
      ensures Valid()
      ensures res == Grammar.ParamsOpen(tokens, old(tokIdx), res0, name).res
      ensures tokIdx == Grammar.ParamsOpen(tokens, old(tokIdx), res0, name).next
      decreases |tokens| - tokIdx, 2
    {
      if currentTok.kind == Identifier {
        res := FirstParam(res0, name);
      } else if currentTok.kind != RParen {
        res := Fail(res0, ExpectedIdentifierOr(")"));
      } else {
        res := NoParams(res0, name);
      }
    }

    /** The first parameter of `func_def`, then the rest of the list. */
    method FirstParam(res0: PR, name: Option<string>) returns (res: PR)
      requires Valid() && currentTok.kind == Identifier
      modifies this
      ensures Valid()
      ensures res == Grammar.FirstParam(tokens, old(tokIdx), res0, name).res
      ensures tokIdx == Grammar.FirstParam(tokens, old(tokIdx), res0, name).next
      decreases |tokens| - tokIdx, 1
    {
      var first := TokText(currentTok);
      res := Advancement(res0);
      Advance();
      res := ParamList(res, name, [first]);
    }

    /** The ')' of a `func_def` without parameters, then its body. */
    method NoParams(res0: PR, name: Option<string>) returns (res: PR)
      requires Valid() && currentTok.kind == RParen
      modifies this
      ensures Valid()
      ensures res == Grammar.NoParams(tokens, old(tokIdx), res0, name).res
      ensures tokIdx == Grammar.NoParams(tokens, old(tokIdx), res0, name).next
      decreases |tokens| - tokIdx, 1
    {
      res := Advancement(res0);
      Advance();
      res := FuncBody(res, name, []);
    }

    /** The `, name` loop of `func_def` and its closing ')'. */
    method ParamList(res0: PR, name: Option<string>, params0: seq<string>) returns (res: PR)
      requires Valid()
      modifies this
      ensures Valid()
      ensures res == Grammar.ParamList(tokens, old(tokIdx), res0, name, params0).res
      ensures tokIdx == Grammar.ParamList(tokens, old(tokIdx), res0, name, params0).next
      decreases |tokens| - tokIdx, 1
    {
      ghost var start := tokIdx;
      res := res0;
      var params := params0;
      while currentTok.kind == Comma
        invariant Valid() && start <= tokIdx
        invariant Grammar.ParamList(tokens, tokIdx, res, name, params) == Grammar.ParamList(tokens, start, res0, name, params0)
        decreases |tokens| - tokIdx
      {
        var param;
        res, param := SkipThenName(res);
        if param.None? {
          return;
        }
        params := params + [param.value];
      }
      if currentTok.kind != RParen {
        return Fail(res, ExpectedEither(",", ")"));
      }
      res := Advancement(res);
      Advance();
      res := FuncBody(res, name, params);
    }

    /** The body of `func_def`, after the ')'. */
    method FuncBody(res0: PR, name: Option<string>, params: seq<string>) returns (res: PR)
      requires Valid()
      modifies this
      ensures Valid()
      ensures res == Grammar.FuncBody(tokens, old(tokIdx), res0, name, params).res
      ensures tokIdx == Grammar.FuncBody(tokens, old(tokIdx), res0, name, params).next
      decreases |tokens| - tokIdx, 1
    {
      res := res0;
      if currentTok.kind == Arrow {
        var body;
        res, body := SkipThenExpr(res);
        if res.error.Some? {
          return;
        }
        return Succeed(res, FuncDefNode(name, params, body.node.value, true));
      }
      if currentTok.kind != Newline {
        return Fail(res, ExpectedArrowOrNewline);
      }
      var body;
      res, body := SkipThenStatements(res);
      if res.error.Some? {
        return;
      }
      if !currentTok.Matches(Keyword, KwEnd) {
        return Fail(res, ExpectedQuoted(KwEnd));
      }
      res := Advancement(res);
      Advance();
      return Succeed(res, FuncDefNode(name, params, body.node.value, false));
    }

    method ImportExpr() returns (res: PR)
      requires Valid()
      modifies this
      ensures Valid()
      ensures res == Grammar.ImportExpr(tokens, old(tokIdx)).res
      ensures tokIdx == Grammar.ImportExpr(tokens, old(tokIdx)).next
      decreases |tokens| - tokIdx, 2
    {
      res := Start();
      if !currentTok.Matches(Keyword, KwImport) {
        return Fail(res, ExpectedQuoted(KwImport));
      }
      res := ImportLib();
    }

    /** `import_expr` from IMPORT on: the library expression, then the rest. */
    method ImportLib() returns (res: PR)
      requires Valid() && currentTok.Matches(Keyword, KwImport)
      modifies this
      ensures Valid()
      ensures res == Grammar.ImportLib(tokens, old(tokIdx)).res
      ensures tokIdx == Grammar.ImportLib(tokens, old(tokIdx)).next
      decreases |tokens| - tokIdx, 1
    {
      res := Advancement(Start());
      Advance();
      var lib := Expr();
      res := Register(res, lib);
      if res.error.Some? {
        return;
      }
      res := ImportAs(res, lib.node.value);
    }

    /** `AS name` at the end of `import_expr`. */
    method ImportAs(res0: PR, lib: Node) returns (res: PR)
      requires Valid()
      modifies this
      ensures Valid()
      ensures res == Grammar.ImportAs(tokens, old(tokIdx), res0, lib).res
      ensures tokIdx == Grammar.ImportAs(tokens, old(tokIdx), res0, lib).next
      decreases |tokens| - tokIdx, 0
    {
      if !currentTok.Matches(Keyword, KwAs) {
        return Fail(res0, ExpectedQuoted(KwAs));
      }
      res := Advancement(res0);
      Advance();
      if currentTok.kind != Identifier {
        return Fail(res, ExpectedIdentifier);
      }
      var varName := TokText(currentTok);
      res := Advancement(res);
      Advance();
      return Succeed(res, ImportNode(lib, varName));
    }
  }

  /** Parses a whole token list, as the interpreter's driver does with the
      lexer's output. */
  method ParseTokens(tokens: seq<Token>) returns (res: PR)
    requires TokensOk(tokens)
    ensures res == ParseFrom(tokens, 0).res
  {
    var parser := new Parser(tokens);
    res := parser.Parse();
  }
}
