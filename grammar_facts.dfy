/**
 * What the grammar of src/parser.py promises about the trees it builds:
 * `bin_op` folds to the left, `^` nests to the right, an identifier starts
 * a dot chain rather than a comparison, `statements` gives back a failed
 * statement's tokens, and the forms of assignments and bodies.
 */
module GrammarFacts {
  import opened Wrappers
  import opened Tokens
  import opened Syntax
  import opened Grammar

  // ---------------------------------------------------------------- bin_op

  /** One operator of a `bin_op` chain and the right operand parsed after it. */
  datatype Link = Link(op: Token, operand: Node)

  /** The left fold: every operator takes the whole tree before it as its
      left operand. */
  function FoldLeft(left: Node, links: seq<Link>): Node
    decreases |links|
  {
    if links == [] then left
    else FoldLeft(BinOpNode(left, links[0].op, links[0].operand), links[1..])
  }

  /** The operators of one level read from `i` on, each with the right
      operand parsed after it, for as long as those operands parse. */
  function Chain(level: Level, t: seq<Token>, i: nat): (r: seq<Link>)
    requires TokensOk(t) && i < |t|
    ensures forall k :: 0 <= k < |r| ==> IsOperator(level, r[k].op)
    decreases |t| - i
  {
    if IsOperator(level, t[i]) then
      var c := Operand(level, true, t, i + 1);
      if c.res.error.None? then [Link(t[i], c.res.node.value)] + Chain(level, t, c.next) else []
    else []
  }

  /** Left association: the last operator of a chain is the root, and
      everything before it is its left operand. */
  lemma {:induction false} FoldLeftLast(left: Node, links: seq<Link>)
    requires links != []
    ensures FoldLeft(left, links)
      == BinOpNode(FoldLeft(left, links[..|links| - 1]), links[|links| - 1].op, links[|links| - 1].operand)
    decreases |links|
  {
    var n := |links|;
    var first := BinOpNode(left, links[0].op, links[0].operand);
    if n == 1 {
      assert links[..0] == [];
      assert links[1..] == [];
    } else {
      FoldLeftLast(first, links[1..]);
      assert links[1..][..n - 2] == links[..n - 1][1..];
    }
  }

  /** The operator loop of `bin_op` builds the left fold of the operators
      and operands it reads, and stops only on a token that is not an
      operator of its level. */
  lemma {:induction false} LoopFolds(level: Level, t: seq<Token>, i: nat, res: PR, left: Node)
    requires TokensOk(t) && i < |t|
    ensures var r := BinOpLoop(level, t, i, res, left);
      r.res.error.None? ==>
        r.res.node == Some(FoldLeft(left, Chain(level, t, i))) && !IsOperator(level, t[r.next])
    decreases |t| - i
  {
    if IsOperator(level, t[i]) {
      var c := Operand(level, true, t, i + 1);
      var res1 := Register(Advancement(res), c.res);
      if res1.error.None? {
        var link := Link(t[i], c.res.node.value);
        var rest := Chain(level, t, c.next);
        LoopFolds(level, t, c.next, res1, BinOpNode(left, t[i], c.res.node.value));
        assert Chain(level, t, i) == [link] + rest;
        assert ([link] + rest)[1..] == rest;
      }
    }
  }

  /** `bin_op` at any level, AND/OR included: the first operand, then the
      left fold of the chain after it. */
  lemma BinOpFolds(level: Level, t: seq<Token>, i: nat)
    requires TokensOk(t) && i < |t|
    ensures var r := BinOp(level, t, i); var a := Operand(level, false, t, i);
      r.res.error.None? ==>
        a.res.error.None? && r.res.node == Some(FoldLeft(a.res.node.value, Chain(level, t, a.next)))
        && !IsOperator(level, t[r.next])
  {
    var a := Operand(level, false, t, i);
    if a.res.error.None? {
      LoopFolds(level, t, a.next, Register(Start(), a.res), a.res.node.value);
    }
  }

  /** `factor`: a sign applies to the whole factor after it, powers
      included, and a factor never stops in front of `^`. */
  lemma {:induction false} FactorStops(t: seq<Token>, i: nat)
    requires TokensOk(t) && i < |t|
    ensures var r := Factor(t, i);
      r.res.error.None? ==>
        t[r.next].kind != Pow
        && ((t[i].kind == Plus || t[i].kind == Minus) ==> r.res.node.value.UnaryOpNode? && r.res.node.value.op == t[i])
    decreases |t| - i
  {
    if t[i].kind == Plus || t[i].kind == Minus {
      FactorStops(t, i + 1);
    } else {
      BinOpFolds(Power, t, i);
    }
  }

  /** The right operand of `^` is a `factor`, which takes every further
      `^` with it: a power chain has at most one link. */
  lemma PowerChainShort(t: seq<Token>, i: nat)
    requires TokensOk(t) && i < |t|
    ensures |Chain(Power, t, i)| <= 1
  {
    if t[i].kind == Pow {
      FactorStops(t, i + 1);
    }
  }

  /** `a ^ b ^ c` is `a ^ (b ^ c)`: a power is its `call`, or the `call`
      raised to the whole `factor` after the first `^`. */
  lemma PowerRightAssociative(t: seq<Token>, i: nat)
    requires TokensOk(t) && i < |t|
    ensures var r := BinOp(Power, t, i); var a := Call(t, i);
      r.res.error.None? ==>
        a.res.error.None?
        && (r.res.node == a.res.node
            || (t[a.next].kind == Pow && a.next + 1 < |t| && Factor(t, a.next + 1).res.error.None?
                && r.res.node == Some(BinOpNode(a.res.node.value, t[a.next], Factor(t, a.next + 1).res.node.value))))
  {
    BinOpFolds(Power, t, i);
    var a := Call(t, i);
    if a.res.error.None? {
      var links := Chain(Power, t, a.next);
      PowerChainShort(t, a.next);
      if links != [] {
        var f := Factor(t, a.next + 1);
        assert links == [Link(t[a.next], f.res.node.value)];
        assert FoldLeft(a.res.node.value, links) == BinOpNode(a.res.node.value, t[a.next], f.res.node.value);
      }
    }
  }

  /** A `bin_op` whose first operand is followed by no operator of its level
      is that operand. */
  lemma Single(level: Level, t: seq<Token>, i: nat)
    requires TokensOk(t) && i < |t|
    requires Operand(level, false, t, i).res.error.None?
    requires !IsOperator(level, t[Operand(level, false, t, i).next])
    ensures BinOp(level, t, i).res.error.None?
    ensures BinOp(level, t, i).res.node == Operand(level, false, t, i).res.node
    ensures BinOp(level, t, i).next == Operand(level, false, t, i).next
  {
  }

  // ------------------------------------------------------------ comp_expr

  /** An identifier followed by `==`: the start of `x == 1`. */
  predicate NameThenEquals(t: seq<Token>, i: nat)
  {
    TokensOk(t) && i + 1 < |t| && t[i].kind == Identifier && t[i + 1].kind == EE
  }

  /** The identifier of `x == ...` is a `call` on its own. */
  lemma NameThenEqualsCall(t: seq<Token>, i: nat)
    requires NameThenEquals(t, i)
    ensures Call(t, i).res.error.None?
    ensures Call(t, i).res.node == Some(VarAccessNode(TokText(t[i]))) && Call(t, i).next == i + 1
  {
    assert AfterName(t, i + 1, Advancement(Start()), TokText(t[i]))
      == Step(Succeed(Advancement(Start()), VarAccessNode(TokText(t[i]))), i + 1);
    assert Delegate(t, i) == Named(t, i);
  }

  /** ... and so is every `bin_op` level down to the dot chain. */
  lemma NameThenEqualsChain(t: seq<Token>, i: nat)
    requires NameThenEquals(t, i)
    ensures CompExpr(t, i).res.error.None?
    ensures CompExpr(t, i).res.node == Some(VarAccessNode(TokText(t[i]))) && CompExpr(t, i).next == i + 1
  {
    NameThenEqualsCall(t, i);
    Single(Power, t, i);
    Single(Term, t, i);
    Single(Arith, t, i);
    Single(DotOperand, t, i);
    Single(DotChain, t, i);
  }

  /** An expression that starts with an identifier is a dot chain, and `==`
      is not an operator of a dot chain: in `x == 1` the statement is `x`
      alone, it leaves `==` unread, and the program is a syntax error. */
  lemma IdentifierComparisonRejected(t: seq<Token>, i: nat)
    requires NameThenEquals(t, i)
    ensures Expr(t, i).res.node == Some(VarAccessNode(TokText(t[i])))
    ensures Expr(t, i).next == i + 1
    ensures ParseFrom(t, i).res.error == Some(ExpectedOperator)
  {
    NameThenEqualsChain(t, i);
    Single(Logic, t, i);
    assert Statement(t, i).res.node == Some(VarAccessNode(TokText(t[i]))) && Statement(t, i).next == i + 1;
    assert Statements(t, i).next == i + 1 && Statements(t, i).res.error.None?;
  }

  // ------------------------------------------------------------ statements

  /** The newline loops of `statements` stop on the first other token. */
  lemma {:induction false} SkipStops(t: seq<Token>, i: nat, res: PR)
    requires TokensOk(t) && i < |t|
    ensures t[SkipNewlines(t, i, res).next].kind != Newline
    decreases |t| - i
  {
    if t[i].kind == Newline {
      SkipStops(t, i + 1, Advancement(res));
    }
  }

  /** The statement loop of `statements` never fails, and the statements
      read so far stay at the head of its list. */
  lemma {:induction false} LoopNeverFails(t: seq<Token>, i: nat, res: PR, stmts: seq<Node>)
    requires TokensOk(t) && i < |t|
    ensures var r := StatementsLoop(t, i, res, stmts);
      r.res.error == res.error && r.res.node.Some? && r.res.node.value.ListNode?
      && stmts <= r.res.node.value.elements && t[r.next].kind != Newline
    decreases |t| - i
  {
    var Step(res1, i1) := SkipNewlines(t, i, res);
    SkipStops(t, i, res);
    if i1 != i {
      var Step(c, i2) := Statement(t, i1);
      if c.error.None? {
        LoopNeverFails(t, i2, TryRegister(res1, c), stmts + [c.node.value]);
      }
    }
  }

  /** A statement that does not parse after a separator is given back: the
      cursor returns to where that statement began and the list ends there. */
  lemma FailedTryRestores(t: seq<Token>, i: nat, res: PR, stmts: seq<Node>)
    requires TokensOk(t) && i < |t|
    requires SkipNewlines(t, i, res).next > i
    requires Statement(t, SkipNewlines(t, i, res).next).res.error.Some?
    ensures StatementsLoop(t, i, res, stmts).next == SkipNewlines(t, i, res).next
    ensures StatementsLoop(t, i, res, stmts).res.node == Some(ListNode(stmts))
    ensures StatementsLoop(t, i, res, stmts).res.error == res.error
  {
  }

  /** `statements` needs one statement after the leading newlines, and fails
      exactly when that one fails. */
  lemma StatementsNeedOne(t: seq<Token>, i: nat)
    requires TokensOk(t) && i < |t|
    ensures Statements(t, i).res.error.None? <==> Statement(t, SkipNewlines(t, i, Start()).next).res.error.None?
  {
    var Step(res, i1) := SkipNewlines(t, i, Start());
    var Step(c, i2) := Statement(t, i1);
    if c.error.None? {
      LoopNeverFails(t, i2, Register(res, c), [c.node.value]);
    }
  }

  // ------------------------------------------------------- bodies and names

  /** The body shared by `for` and `while`: a block ends with END. */
  lemma LoopBodyEnds(t: seq<Token>, i: nat, res: PR)
    requires TokensOk(t) && i < |t| && t[i].kind == Newline
    ensures var r := LoopBody(t, i, res);
      r.res.error.None? ==> r.next > 0 && t[r.next - 1].Matches(Keyword, KwEnd)
  {
  }

  /** `for`: a block body (NEWLINE ... END) sets the null flag and an inline
      body clears it. */
  lemma ForBodyForm(t: seq<Token>, i: nat, res: PR, name: string, start: Node, end: Node, step: Option<Node>)
    requires TokensOk(t) && i < |t|
    ensures var r := ForBody(t, i, res, name, start, end, step);
      r.res.error.None? ==>
        i + 1 < |t| && r.res.node.value.ForNode?
        && (r.res.node.value.returnsNull <==> t[i + 1].kind == Newline)
        && (r.res.node.value.returnsNull ==> t[r.next - 1].Matches(Keyword, KwEnd))
  {
    if t[i].Matches(Keyword, KwThen) {
      var b := LoopBody(t, i + 1, Advancement(res));
      if b.res.error.None? {
        var n := ForNode(name, start, end, step, b.res.node.value, t[i + 1].kind == Newline);
        assert ForBody(t, i, res, name, start, end, step) == Step(Succeed(b.res, n), b.next);
        if t[i + 1].kind == Newline {
          LoopBodyEnds(t, i + 1, Advancement(res));
        }
      }
    }
  }

  /** `while`: the same two body forms. */
  lemma WhileBodyForm(t: seq<Token>, i: nat)
    requires TokensOk(t) && i < |t|
    ensures var r := WhileExpr(t, i);
      r.res.error.None? ==>
        r.res.node.value.WhileNode?
        && (r.res.node.value.returnsNull ==> t[r.next - 1].Matches(Keyword, KwEnd))
  {
    if t[i].Matches(Keyword, KwWhile) {
      var Step(c, i1) := Expr(t, i + 1);
      var res1 := Register(Advancement(Start()), c);
      if res1.error.None? && t[i1].Matches(Keyword, KwThen) && t[i1 + 1].kind == Newline {
        LoopBodyEnds(t, i1 + 1, Advancement(res1));
      }
    }
  }

  /** `func`: `=>` and one expression sets auto-return, a block cleared of
      it ends with END. */
  lemma FuncBodyForm(t: seq<Token>, i: nat, res: PR, name: Option<string>, params: seq<string>)
    requires TokensOk(t) && i < |t|
    ensures var r := FuncBody(t, i, res, name, params);
      r.res.error.None? ==>
        r.res.node.value.FuncDefNode? && r.res.node.value.params == params
        && (r.res.node.value.autoReturn <==> t[i].kind == Arrow)
        && (!r.res.node.value.autoReturn ==> t[i].kind == Newline && t[r.next - 1].Matches(Keyword, KwEnd))
  {
    if t[i].kind == Newline {
      FuncBlockForm(t, i, res, name, params);
    }
  }

  /** The block form of a `func` body. */
  lemma FuncBlockForm(t: seq<Token>, i: nat, res: PR, name: Option<string>, params: seq<string>)
    requires TokensOk(t) && i < |t| && t[i].kind == Newline
    ensures var r := FuncBody(t, i, res, name, params);
      r.res.error.None? ==>
        r.res.node.value.FuncDefNode? && r.res.node.value.params == params
        && !r.res.node.value.autoReturn && t[r.next - 1].Matches(Keyword, KwEnd)
  {
    var Step(s, i1) := Statements(t, i + 1);
    var res1 := Register(Advancement(res), s);
    if res1.error.None? && t[i1].Matches(Keyword, KwEnd) {
      assert FuncBody(t, i, res, name, params)
        == Step(Succeed(Advancement(res1), FuncDefNode(name, params, s.node.value, false)), i1 + 1);
    }
  }

  /** An `if` case: the first case holds its condition and its null flag,
      set for a block and cleared inline. */
  lemma CaseBodyForm(t: seq<Token>, i: nat, res: PR, condition: Node)
    requires TokensOk(t) && i < |t|
    ensures var r := CaseBody(t, i, res, condition);
      r.res.error.None? ==>
        |r.res.node.value.cases| > 0 && r.res.node.value.cases[0].condition == condition
        && (r.res.node.value.cases[0].returnsNull <==> t[i].kind == Newline)
  {
    if t[i].kind == Newline {
      CaseBlockForm(t, i + 1, Advancement(res), condition);
    } else {
      var Step(e, i1) := Expr(t, i);
      var res1 := Register(res, e);
      if res1.error.None? {
        MoreCasesFirst(t, i1, res1, IfCase(condition, e.node.value, false));
      }
    }
  }

  /** A block case is the first case, with the null flag set. */
  lemma CaseBlockForm(t: seq<Token>, i: nat, res: PR, condition: Node)
    requires TokensOk(t) && i < |t|
    ensures var r := CaseBlock(t, i, res, condition);
      r.res.error.None? ==>
        |r.res.node.value.cases| > 0 && r.res.node.value.cases[0].condition == condition
        && r.res.node.value.cases[0].returnsNull
  {
    var Step(s, i1) := Statements(t, i);
    var res1 := Register(res, s);
    if res1.error.None? && !t[i1].Matches(Keyword, KwEnd) {
      MoreCasesFirst(t, i1, res1, IfCase(condition, s.node.value, true));
    }
  }

  /** The cases after the first one are appended to it. */
  lemma MoreCasesFirst(t: seq<Token>, i: nat, res: PR, first: IfCase)
    requires TokensOk(t) && i < |t|
    ensures var r := MoreCases(t, i, res, first);
      r.res.error.None? ==> |r.res.node.value.cases| > 0 && r.res.node.value.cases[0] == first
  {
  }

  /** The ELSE case, with the same null flag. */
  lemma ElseBodyForm(t: seq<Token>, i: nat, res: PR)
    requires TokensOk(t) && i < |t|
    ensures var r := ElseBody(t, i, res);
      r.res.error.None? ==>
        r.res.node.value.cases == [] && r.res.node.value.elseCase.Some?
        && (r.res.node.value.elseCase.value.returnsNull <==> t[i].kind == Newline)
  {
  }

  /** A dotted chain `a.b...`: a multi-name access, or with `= e` a
      multi-name assignment, whose names start with the ones read so far and
      grow by one at each dot. */
  lemma {:induction false} DotNamesForms(t: seq<Token>, i: nat, res: PR, names: seq<string>)
    requires TokensOk(t) && i < |t|
    ensures var r := DotNames(t, i, res, names);
      r.res.error.None? ==> var n := r.res.node.value;
        (n.MultiVarAccessNode? || n.MultiVarAssignNode?) && names <= n.names
        && (t[i].kind == Dot ==> |n.names| > |names|)
        && (n.MultiVarAccessNode? ==> t[r.next].kind != Dot && t[r.next].kind != Eq)
    decreases |t| - i
  {
    if t[i].kind == Dot && t[i + 1].kind == Identifier {
      var more := names + [TokText(t[i + 1])];
      DotNamesForms(t, i + 2, Advancement(Advancement(res)), more);
    }
  }

  /** What follows a name in `identifier_expr`: `= e` is an updating
      assignment to the name, a dot starts a chain of at least two names,
      and anything else leaves a plain access to the name. */
  lemma AfterNameForms(t: seq<Token>, i: nat, res: PR, name: string)
    requires TokensOk(t) && i < |t|
    ensures var r := AfterName(t, i, res, name);
      r.res.error.None? ==> var n := r.res.node.value;
        (t[i].kind == Eq ==> n.VarAssignNode? && n.name == name && n.update)
        && (t[i].kind == Dot ==>
              (n.MultiVarAccessNode? || n.MultiVarAssignNode?) && |n.names| >= 2 && n.names[0] == name)
        && (t[i].kind != Eq && t[i].kind != Dot ==> n == VarAccessNode(name) && r.next == i)
  {
    if t[i].kind == Dot {
      DotNamesForms(t, i, res, [name]);
    }
  }

  /** `VAR x = e` is a declaring (not updating) assignment to `x`. */
  lemma VarDeclares(t: seq<Token>, i: nat)
    requires TokensOk(t) && i < |t| && t[i].Matches(Keyword, KwVar)
    ensures var r := Expr(t, i);
      r.res.error.None? ==> var n := r.res.node.value;
        i + 1 < |t| && n.VarAssignNode? && n.name == TokText(t[i + 1]) && !n.update
  {
  }

  // ---------------------------------------------------------------- objects

  /** In an object literal, a comma followed by anything but an identifier
      is passed over on its own. */
  lemma CommaSkipped(t: seq<Token>, i: nat, res: PR, entries: seq<Entry>)
    requires TokensOk(t) && i < |t| && t[i].kind == Comma
    requires t[i + 1].kind != Identifier
    ensures ObjectEntries(t, i, res, entries) == ObjectEntries(t, i + 1, Advancement(res), entries)
  {
  }

  /** So a trailing comma before '}' is accepted. */
  lemma TrailingComma(t: seq<Token>, i: nat, res: PR, entries: seq<Entry>)
    requires TokensOk(t) && i + 1 < |t| && t[i].kind == Comma && t[i + 1].kind == RCurly && res.error.None?
    ensures ObjectEntries(t, i, res, entries).res.error.None?
    ensures ObjectEntries(t, i, res, entries).res.node == Some(ObjectNode(entries))
    ensures ObjectEntries(t, i, res, entries).next == i + 2
  {
    CommaSkipped(t, i, res, entries);
  }
}
