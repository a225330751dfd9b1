/**
 * Properties of the evaluator: the store only ever grows, a variable reads as
 * it was last assigned, `if` runs the first true case, `for` counts through
 * its range, containers hold what their literals list, and a call sees its
 * arguments under its parameter names.
 */
module InterpreterFacts {
  import opened Wrappers
  import opened Tokens
  import opened Syntax
  import opened Scopes
  import opened Values
  import BuiltIns
  import opened Interpreter

  /** No table, list or object of `st` is missing from `st'`. */
  predicate Extends(st: Store, st': Store)
  {
    |st.tables| <= |st'.tables| && |st.lists| <= |st'.lists| && |st.objects| <= |st'.objects|
  }

  // ------------------------------------------------------ the store only grows

  /** Evaluating a node never removes a table, a list or an object: every
      reference a value holds stays valid. */
  lemma {:induction false} EvalExtends(mode: Reading, fuel: nat, node: Node, ctx: nat, st: Store)
    ensures Extends(st, Eval(mode, fuel, node, ctx, st).st)
    decreases fuel, 0, 1
  {
    if node.ListNode? || node.ObjectNode? || node.VarAssignNode? || node.MultiVarAssignNode? {
      DataExtends(mode, fuel, node, ctx, st);
    } else if node.BinOpNode? || node.UnaryOpNode? || node.IfNode? || node.ForNode? || node.WhileNode? {
      ControlExtends(mode, fuel, node, ctx, st);
    } else if node.CallNode? || node.ReturnNode? {
      OtherExtends(mode, fuel, node, ctx, st);
    } else {
      LeafExtends(mode, fuel, node, ctx, st);
    }
  }

  /** Containers and assignments. */
  lemma {:induction false} DataExtends(mode: Reading, fuel: nat, node: Node, ctx: nat, st: Store)
    requires node.ListNode? || node.ObjectNode? || node.VarAssignNode? || node.MultiVarAssignNode?
    ensures Extends(st, Eval(mode, fuel, node, ctx, st).st)
    decreases fuel, 0, 0
  {
    if fuel > 0 {
      var f := fuel - 1;
      match node
      case ListNode(elements) =>
        EvalAllExtends(mode, f, elements, ctx, st, []);
      case ObjectNode(entries) =>
        EvalEntriesExtends(mode, f, entries, ctx, st, map[]);
      case VarAssignNode(name, valueNode, update) =>
        AssignExtends(mode, f, name, valueNode, update, ctx, st);
      case MultiVarAssignNode(names, valueNode) =>
        AssignPathExtends(mode, f, names, valueNode, 0, VNull, ctx, st);
    }
  }

  /** Operators, conditionals and loops. */
  lemma {:induction false} ControlExtends(mode: Reading, fuel: nat, node: Node, ctx: nat, st: Store)
    requires node.BinOpNode? || node.UnaryOpNode? || node.IfNode? || node.ForNode? || node.WhileNode?
    ensures Extends(st, Eval(mode, fuel, node, ctx, st).st)
    decreases fuel, 0, 0
  {
    if fuel > 0 {
      var f := fuel - 1;
      match node
      case BinOpNode(left, op, right) =>
        BinOpExtends(mode, f, left, op, right, ctx, st);
      case UnaryOpNode(op, operand) =>
        UnaryExtends(mode, f, op, operand, ctx, st);
      case IfNode(cases, elseCase) =>
        EvalCasesExtends(mode, f, cases, elseCase, ctx, st);
      case ForNode(name, start, end, step, body, returnsNull) =>
        ForExtends(mode, f, name, start, end, step, body, returnsNull, ctx, st);
      case WhileNode(condition, body, returnsNull) =>
        WhileLoopExtends(mode, f, condition, body, ctx, st, []);
    }
  }

  /** Calls and returns. */
  lemma {:induction false} OtherExtends(mode: Reading, fuel: nat, node: Node, ctx: nat, st: Store)
    requires node.CallNode? || node.ReturnNode?
    ensures Extends(st, Eval(mode, fuel, node, ctx, st).st)
    decreases fuel, 0, 0
  {
    if fuel > 0 {
      var f := fuel - 1;
      match node
      case CallNode(callee, args) =>
        CallNodeExtends(mode, f, callee, args, ctx, st);
      case ReturnNode(result) =>
        if result.Some? {
          EvalExtends(mode, f, result.value, ctx, st);
        }
    }
  }

  /** Definitions, reads and the literals, which evaluate nothing beneath them. */
  lemma LeafExtends(mode: Reading, fuel: nat, node: Node, ctx: nat, st: Store)
    requires !(node.ListNode? || node.ObjectNode? || node.VarAssignNode? || node.MultiVarAssignNode?)
    requires !(node.BinOpNode? || node.UnaryOpNode? || node.IfNode? || node.ForNode? || node.WhileNode?)
    requires !(node.CallNode? || node.ReturnNode?)
    ensures Extends(st, Eval(mode, fuel, node, ctx, st).st)
  {
  }

  lemma {:induction false} BinOpExtends(mode: Reading, fuel: nat, left: Node, op: Token, right: Node, ctx: nat, st: Store)
    ensures Extends(st, EvalBinOp(mode, fuel, left, op, right, ctx, st).st)
    decreases fuel, 2, 0
  {
    EvalExtends(mode, fuel, left, ctx, st);
    var l := Eval(mode, fuel, left, ctx, st);
    EvalExtends(mode, fuel, right, ctx, l.st);
    var r := Eval(mode, fuel, right, ctx, l.st);
  }

  lemma {:induction false} AssignExtends(mode: Reading, fuel: nat, name: string, valueNode: Node, update: bool, ctx: nat, st: Store)
    ensures Extends(st, EvalAssign(mode, fuel, name, valueNode, update, ctx, st).st)
    decreases fuel, 2, 0
  {
    EvalExtends(mode, fuel, valueNode, ctx, st);
  }

  lemma {:induction false} UnaryExtends(mode: Reading, fuel: nat, op: Token, operand: Node, ctx: nat, st: Store)
    ensures Extends(st, EvalUnary(mode, fuel, op, operand, ctx, st).st)
    decreases fuel, 2, 0
  {
    EvalExtends(mode, fuel, operand, ctx, st);
  }

  lemma {:induction false} ForExtends(mode: Reading, fuel: nat, name: string, start: Node, end: Node, step: Option<Node>,
                                      body: Node, returnsNull: bool, ctx: nat, st: Store)
    ensures Extends(st, EvalFor(mode, fuel, name, start, end, step, body, returnsNull, ctx, st).st)
    decreases fuel, 2, 0
  {
    EvalExtends(mode, fuel, start, ctx, st);
    var s := Eval(mode, fuel, start, ctx, st);
    EvalExtends(mode, fuel, end, ctx, s.st);
    var e := Eval(mode, fuel, end, ctx, s.st);
    if s.signal.Ok? && s.signal.value.VNumber? && e.signal.Ok? && e.signal.value.VNumber? {
      StepExtends(mode, fuel, name, s.signal.value.n, e.signal.value.n, step, body, returnsNull, ctx, e.st);
    }
  }

  lemma {:induction false} StepExtends(mode: Reading, fuel: nat, name: string, i: int, end: int, step: Option<Node>,
                                       body: Node, returnsNull: bool, ctx: nat, st: Store)
    ensures Extends(st, EvalStep(mode, fuel, name, i, end, step, body, returnsNull, ctx, st).st)
    decreases fuel, 1, 1
  {
    if step.Some? {
      EvalExtends(mode, fuel, step.value, ctx, st);
    }
    var stride := if step.Some? then Eval(mode, fuel, step.value, ctx, st) else Res(Ok(VNumber(1)), st);
    if stride.signal.Ok? && stride.signal.value.VNumber? {
      ForLoopExtends(mode, fuel, name, i, end, stride.signal.value.n, body, ctx, stride.st, []);
    }
  }

  lemma {:induction false} CallNodeExtends(mode: Reading, fuel: nat, callee: Node, args: seq<Node>, ctx: nat, st: Store)
    ensures Extends(st, EvalCall(mode, fuel, callee, args, ctx, st).st)
    decreases fuel, 2, 0
  {
    EvalExtends(mode, fuel, callee, ctx, st);
    var c := Eval(mode, fuel, callee, ctx, st);
    if c.signal.Ok? && CopyBy(mode, c.signal.value, c.st).Success? {
      var (fn, st1) := CopyBy(mode, c.signal.value, c.st).value;
      EvalAllExtends(mode, fuel, args, ctx, st1, []);
      var m := EvalAll(mode, fuel, args, ctx, st1, []);
      if m.All? {
        ExecuteExtends(mode, fuel, fn, m.values, m.st);
      }
    }
  }

  lemma {:induction false} EvalAllExtends(mode: Reading, fuel: nat, nodes: seq<Node>, ctx: nat, st: Store, done: seq<Value>)
    ensures Extends(st, EvalAll(mode, fuel, nodes, ctx, st, done).st)
    decreases fuel, 1, |nodes|
  {
    if nodes != [] {
      EvalExtends(mode, fuel, nodes[0], ctx, st);
      var r := Eval(mode, fuel, nodes[0], ctx, st);
      if r.signal.Ok? {
        EvalAllExtends(mode, fuel, nodes[1..], ctx, r.st, done + [r.signal.value]);
      }
    }
  }

  lemma {:induction false} EvalEntriesExtends(mode: Reading, fuel: nat, entries: seq<Entry>, ctx: nat, st: Store,
                                              fields: map<string, Value>)
    ensures Extends(st, EvalEntries(mode, fuel, entries, ctx, st, fields).st)
    decreases fuel, 1, |entries|
  {
    if entries != [] {
      EvalExtends(mode, fuel, entries[0].value, ctx, st);
      var r := Eval(mode, fuel, entries[0].value, ctx, st);
      if r.signal.Ok? {
        EvalEntriesExtends(mode, fuel, entries[1..], ctx, r.st, fields[entries[0].key := r.signal.value]);
      }
    }
  }

  lemma {:induction false} EvalCasesExtends(mode: Reading, fuel: nat, cases: seq<IfCase>, elseCase: Option<ElseCase>,
                                            ctx: nat, st: Store)
    ensures Extends(st, EvalCases(mode, fuel, cases, elseCase, ctx, st).st)
    decreases fuel, 1, |cases|
  {
    if cases == [] {
      if elseCase.Some? {
        EvalExtends(mode, fuel, elseCase.value.body, ctx, st);
      }
    } else {
      EvalExtends(mode, fuel, cases[0].condition, ctx, st);
      var c := Eval(mode, fuel, cases[0].condition, ctx, st);
      EvalExtends(mode, fuel, cases[0].body, ctx, c.st);
      EvalCasesExtends(mode, fuel, cases[1..], elseCase, ctx, c.st);
    }
  }

  lemma {:induction false} ForLoopExtends(mode: Reading, fuel: nat, name: string, i: int, end: int, step: int, body: Node,
                                          ctx: nat, st: Store, done: seq<Value>)
    ensures Extends(st, ForLoop(mode, fuel, name, i, end, step, body, ctx, st, done).st)
    decreases fuel, 1, 0
  {
    if InRange(i, end, step) && fuel > 0 {
      var st0 := Bind(st, ctx, name, VNumber(i));
      EvalExtends(mode, fuel, body, ctx, st0);
      var r := Eval(mode, fuel, body, ctx, st0);
      if r.signal.Ok? {
        ForLoopExtends(mode, fuel - 1, name, i + step, end, step, body, ctx, r.st, done + [r.signal.value]);
      } else if r.signal.Continue? {
        ForLoopExtends(mode, fuel - 1, name, i + step, end, step, body, ctx, r.st, done);
      }
    }
  }

  lemma {:induction false} WhileLoopExtends(mode: Reading, fuel: nat, condition: Node, body: Node, ctx: nat, st: Store,
                                            done: seq<Value>)
    ensures Extends(st, WhileLoop(mode, fuel, condition, body, ctx, st, done).st)
    decreases fuel, 1, 0
  {
    if fuel > 0 {
      EvalExtends(mode, fuel, condition, ctx, st);
      var c := Eval(mode, fuel, condition, ctx, st);
      EvalExtends(mode, fuel, body, ctx, c.st);
      var r := Eval(mode, fuel, body, ctx, c.st);
      if r.signal.Ok? {
        WhileLoopExtends(mode, fuel - 1, condition, body, ctx, r.st, done + [r.signal.value]);
      } else if r.signal.Continue? {
        WhileLoopExtends(mode, fuel - 1, condition, body, ctx, r.st, done);
      }
    }
  }

  lemma {:induction false} AssignPathExtends(mode: Reading, fuel: nat, names: seq<string>, rhs: Node, k: nat, current: Value,
                                             ctx: nat, st: Store)
    ensures Extends(st, AssignPath(mode, fuel, names, rhs, k, current, ctx, st).st)
    decreases fuel, 1, |names| - k
  {
    if k < |names| && AssignStep(names, k, current, ctx, st).Success? {
      var v := AssignStep(names, k, current, ctx, st).value;
      if |names| - 1 == k + 1 {
        EvalExtends(mode, fuel, rhs, ctx, st);
        var r := Eval(mode, fuel, rhs, ctx, st);
        if v.VObject? && v.obj < |r.st.objects| {
          var last := names[|names| - 1];
          var fields := if r.signal.Ok? then r.st.objects[v.obj][last := r.signal.value] else r.st.objects[v.obj] - {last};
          AssignPathExtends(mode, fuel, names, rhs, k + 1, v, ctx, r.st.(objects := r.st.objects[v.obj := fields]));
        }
      } else {
        AssignPathExtends(mode, fuel, names, rhs, k + 1, v, ctx, st);
      }
    }
  }

  lemma {:induction false} ExecuteExtends(mode: Reading, fuel: nat, callee: Value, args: seq<Value>, st: Store)
    ensures Extends(st, Execute(mode, fuel, callee, args, st).st)
    decreases fuel, 1, 1
  {
    match callee
    case VFunction(name, params, body, _, home) =>
      RunExtends(mode, fuel, callee, args, st);
    case _ =>
  }

  lemma {:induction false} RunExtends(mode: Reading, fuel: nat, callee: Value, args: seq<Value>, st: Store)
    requires callee.VFunction?
    ensures Extends(st, Run(mode, fuel, callee, args, st).st)
    decreases fuel, 1, 0
  {
    if ArityFault(callee.name, callee.params, args).None? {
      var (t, st1) := Frame(st, callee.context, callee.params, args);
      EvalExtends(mode, fuel, callee.body, t, st1);
    }
  }
}

module EvaluationFacts {
  import opened Wrappers
  import opened Tokens
  import opened Syntax
  import opened Scopes
  import opened Values
  import opened Interpreter
  import opened InterpreterFacts

  // ------------------------------------------------------------ scope chains

  /** A table's chain depends only on that table and the ones before it. */
  lemma {:induction false} ChainAgrees(st: Store, st': Store, t: nat)
    requires t < |st.tables| && t < |st'.tables|
    requires forall u :: 0 <= u <= t ==> st.tables[u] == st'.tables[u]
    ensures ChainOf(st, t) == ChainOf(st', t)
    decreases t
  {
    var scope := st.tables[t];
    if scope.parent.Some? && scope.parent.value < t {
      ChainAgrees(st, st', scope.parent.value);
    }
  }

  /** Binding in a table changes the first map of its chain and nothing else. */
  lemma BindChain(st: Store, t: nat, name: string, v: Value)
    requires t < |st.tables|
    ensures ChainOf(Bind(st, t, name, v), t) == [ChainOf(st, t)[0][name := Some(v)]] + ChainOf(st, t)[1..]
  {
    var scope := st.tables[t];
    if scope.parent.Some? && scope.parent.value < t {
      ChainAgrees(st, Bind(st, t, name, v), scope.parent.value);
    }
  }

  /** After binding `name` in table `t`, `name` reads as the bound value there
      and every other name reads as before. */
  lemma GetAfterBind(st: Store, t: nat, name: string, v: Value, other: string)
    requires t < |st.tables|
    ensures Get(Bind(st, t, name, v), t, name) == Some(v)
    ensures other != name ==> Get(Bind(st, t, name, v), t, other) == Get(st, t, other)
  {
    BindChain(st, t, name, v);
    GetAfterSet(ChainOf(st, t), name, v, other);
  }

  // ---------------------------------------------------------------- variables

  /** Reading or updating a name that no table of the chain binds is the
      "is not defined" error, and nothing is evaluated. */
  lemma UnboundName(mode: Reading, fuel: nat, name: string, valueNode: Node, ctx: nat, st: Store)
    requires fuel > 0 && Get(st, ctx, name).None?
    ensures Eval(mode, fuel, VarAccessNode(name), ctx, st) == Res(Err(Error("'" + name + "' is not defined")), st)
    ensures EvalAssign(mode, fuel, name, valueNode, true, ctx, st) == Res(Err(Error("'" + name + "' is not defined")), st)
  {
  }

  /** An assignment binds the value in the current table: afterwards the name
      reads as the assigned value and every other name as it read after the
      right-hand side was evaluated. */
  lemma ReadAfterAssign(mode: Reading, fuel: nat, name: string, valueNode: Node, update: bool, ctx: nat, st: Store, other: string)
    requires ctx < |st.tables|
    requires EvalAssign(mode, fuel, name, valueNode, update, ctx, st).signal.Ok?
    ensures var r := EvalAssign(mode, fuel, name, valueNode, update, ctx, st);
      Get(r.st, ctx, name) == Some(r.signal.value)
      && (other != name ==> Get(r.st, ctx, other) == Get(Eval(mode, fuel, valueNode, ctx, st).st, ctx, other))
  {
    EvalExtends(mode, fuel, valueNode, ctx, st);
    var r := Eval(mode, fuel, valueNode, ctx, st);
    GetAfterBind(r.st, ctx, name, r.signal.value, other);
  }

  /** Reading a variable gives its value, re-homed to the reading table;
      reading does not change the store when the value is not a list. */
  lemma ReadVariable(mode: Reading, fuel: nat, name: string, ctx: nat, st: Store, v: Value)
    requires fuel > 0 && Get(st, ctx, name) == Some(v) && !v.VList? && (mode.Intended? || !v.VNull?)
    ensures Eval(mode, fuel, VarAccessNode(name), ctx, st) == Res(Ok(WithContext(v, ctx)), st)
  {
    assert CopyBy(mode, v, st) == Success((v, st));
  }

  /** As written, reading a variable bound to null fails: its `copy()` raises
      a `TypeError`. */
  lemma ReadNullFails(fuel: nat, name: string, ctx: nat, st: Store)
    requires fuel > 0 && Get(st, ctx, name) == Some(VNull)
    ensures Eval(AsWritten, fuel, VarAccessNode(name), ctx, st) == Res(Err(CopyAsWritten(VNull, st).error), st)
    ensures Eval(AsWritten, fuel, VarAccessNode(name), ctx, st).signal.fault.Crash?
  {
  }

  /** As intended, reading a variable bound to null gives null. */
  lemma ReadNull(fuel: nat, name: string, ctx: nat, st: Store)
    requires fuel > 0 && Get(st, ctx, name) == Some(VNull)
    ensures Eval(Intended, fuel, VarAccessNode(name), ctx, st) == Res(Ok(VNull), st)
  {
  }

  /** As written, every function definition, named or not, fails in the
      constructor call and binds nothing. */
  lemma DefinitionFails(fuel: nat, funcName: Option<string>, params: seq<string>, body: Node, autoReturn: bool,
                        ctx: nat, st: Store)
    requires fuel > 0
    ensures Eval(AsWritten, fuel, FuncDefNode(funcName, params, body, autoReturn), ctx, st)
         == Res(Err(FunctionArity), st)
  {
  }

  /** As intended, a named function definition binds the new function in the
      current table. */
  lemma DefinitionBinds(fuel: nat, name: string, params: seq<string>, body: Node, autoReturn: bool,
                        ctx: nat, st: Store)
    requires fuel > 0 && ctx < |st.tables|
    ensures var r := Eval(Intended, fuel, FuncDefNode(Some(name), params, body, autoReturn), ctx, st);
      r.signal.Ok? && r.signal.value.VFunction? && r.signal.value.context == ctx
      && r.signal.value.name == (if name == "" then "<anonymous>" else name)
      && Get(r.st, ctx, name) == Some(r.signal.value)
  {
    GetAfterBind(st, ctx, name, Closure(Some(name), params, body, autoReturn, ctx), name);
  }

  // -------------------------------------------------------------- operators

  /** The left operand is evaluated first, then the right one in the store the
      left one left; a signal from either is the result. */
  lemma OperandsInOrder(mode: Reading, fuel: nat, left: Node, op: Token, right: Node, ctx: nat, st: Store)
    ensures var l := Eval(mode, fuel, left, ctx, st);
      !l.signal.Ok? ==> EvalBinOp(mode, fuel, left, op, right, ctx, st) == l
    ensures var l := Eval(mode, fuel, left, ctx, st); var r := Eval(mode, fuel, right, ctx, l.st);
      l.signal.Ok? && !r.signal.Ok? ==> EvalBinOp(mode, fuel, left, op, right, ctx, st) == r
  {
  }

  /** Two numeric operands add as integers. */
  lemma AddsNumbers(mode: Reading, fuel: nat, left: Node, op: Token, right: Node, ctx: nat, st: Store, a: int, b: int)
    requires op.kind == Plus
    requires Eval(mode, fuel, left, ctx, st).signal == Ok(VNumber(a))
    requires Eval(mode, fuel, right, ctx, Eval(mode, fuel, left, ctx, st).st).signal == Ok(VNumber(b))
    ensures EvalBinOp(mode, fuel, left, op, right, ctx, st).signal == Ok(VNumber(a + b))
  {
  }

  /** `AND` and `OR` evaluate both operands, left first, and give the
      Boolean of their truthiness: `AND` is false exactly when one of them is
      a false value, `OR` exactly when both are. */
  lemma LogicalAtEval(mode: Reading, fuel: nat, left: Node, op: Token, right: Node, ctx: nat, st: Store)
    requires op.Matches(Keyword, KwAnd) || op.Matches(Keyword, KwOr)
    requires var l := Eval(mode, fuel, left, ctx, st);
      l.signal.Ok? && Eval(mode, fuel, right, ctx, l.st).signal.Ok?
    ensures var l := Eval(mode, fuel, left, ctx, st); var r := Eval(mode, fuel, right, ctx, l.st);
      var a, b := l.signal.value, r.signal.value;
      EvalBinOp(mode, fuel, left, op, right, ctx, st)
        == Res(Ok(VBoolean(if op.Matches(Keyword, KwAnd) then !IsFalse(a) && !IsFalse(b) else !IsFalse(a) || !IsFalse(b))), r.st)
  {
    var l := Eval(mode, fuel, left, ctx, st);
    var r := Eval(mode, fuel, right, ctx, l.st);
    LogicalDispatch(op, l.signal.value, r.signal.value, r.st);
    LogicalOperators(l.signal.value, r.signal.value, r.st);
  }

  /** Unary minus negates a number, `NOT` negates truthiness, and any other
      operator (unary `+`) gives the operand's value unchanged. */
  lemma UnaryOperators(mode: Reading, fuel: nat, op: Token, operand: Node, ctx: nat, st: Store)
    requires Eval(mode, fuel, operand, ctx, st).signal.Ok?
    ensures var v := Eval(mode, fuel, operand, ctx, st).signal.value;
      op.kind == Minus && v.VNumber? ==> EvalUnary(mode, fuel, op, operand, ctx, st).signal == Ok(VNumber(-v.n))
    ensures var v := Eval(mode, fuel, operand, ctx, st).signal.value;
      op.kind != Minus && op.Matches(Keyword, KwNot) ==>
        EvalUnary(mode, fuel, op, operand, ctx, st).signal == Ok(VBoolean(!Truthy(v)))
    ensures op.kind != Minus && !op.Matches(Keyword, KwNot) ==>
      EvalUnary(mode, fuel, op, operand, ctx, st) == Eval(mode, fuel, operand, ctx, st)
  {
  }

  // ----------------------------------------------------------------------- if

  /** The store after the conditions of the first `j` cases all evaluate to
      false values, one after the other from `st`; None when one of them does
      not (it fails, signals, or is true). */
  function Skipped(mode: Reading, fuel: nat, cases: seq<IfCase>, j: nat, ctx: nat, st: Store): Option<Store>
    requires j <= |cases|
    decreases j
  {
    if j == 0 then Some(st)
    else
      var c := Eval(mode, fuel, cases[0].condition, ctx, st);
      if c.signal.Ok? && !Truthy(c.signal.value) then Skipped(mode, fuel, cases[1..], j - 1, ctx, c.st)
      else None
  }

  /** `if` runs the body of the first case whose condition is true, when the
      conditions before it are false; each condition sees the store the
      previous ones left. */
  lemma {:induction false} FirstTrueCaseRuns(mode: Reading, fuel: nat, cases: seq<IfCase>, elseCase: Option<ElseCase>, ctx: nat,
                                             st: Store, j: nat)
    requires j < |cases| && Skipped(mode, fuel, cases, j, ctx, st).Some?
    requires var c := Eval(mode, fuel, cases[j].condition, ctx, Skipped(mode, fuel, cases, j, ctx, st).value);
      c.signal.Ok? && Truthy(c.signal.value)
    ensures var c := Eval(mode, fuel, cases[j].condition, ctx, Skipped(mode, fuel, cases, j, ctx, st).value);
      EvalCases(mode, fuel, cases, elseCase, ctx, st) == Chosen(mode, fuel, cases[j].body, cases[j].returnsNull, ctx, c.st)
    decreases j
  {
    if j > 0 {
      var c := Eval(mode, fuel, cases[0].condition, ctx, st);
      assert cases[1..][j - 1] == cases[j];
      FirstTrueCaseRuns(mode, fuel, cases[1..], elseCase, ctx, c.st, j - 1);
    }
  }

  /** When every condition is false, `if` runs its else branch, or yields
      null without one, in the store the conditions left. */
  lemma {:induction false} NoCaseRuns(mode: Reading, fuel: nat, cases: seq<IfCase>, elseCase: Option<ElseCase>, ctx: nat, st: Store)
    requires Skipped(mode, fuel, cases, |cases|, ctx, st).Some?
    ensures var after := Skipped(mode, fuel, cases, |cases|, ctx, st).value;
      EvalCases(mode, fuel, cases, elseCase, ctx, st)
         == if elseCase.None? then Res(Ok(VNull), after)
            else Chosen(mode, fuel, elseCase.value.body, elseCase.value.returnsNull, ctx, after)
    decreases |cases|
  {
    if cases != [] {
      var c := Eval(mode, fuel, cases[0].condition, ctx, st);
      NoCaseRuns(mode, fuel, cases[1..], elseCase, ctx, c.st);
    }
  }

  /** An error or a signal from a condition ends the `if` with that result. */
  lemma ConditionHalts(mode: Reading, fuel: nat, cases: seq<IfCase>, elseCase: Option<ElseCase>, ctx: nat, st: Store)
    requires cases != [] && !Eval(mode, fuel, cases[0].condition, ctx, st).signal.Ok?
    ensures EvalCases(mode, fuel, cases, elseCase, ctx, st) == Eval(mode, fuel, cases[0].condition, ctx, st)
  {
  }

  /** A block-form branch yields null whatever its body's value; an
      expression-form branch yields its body's value. */
  lemma BranchValue(mode: Reading, fuel: nat, body: Node, returnsNull: bool, ctx: nat, st: Store)
    requires Eval(mode, fuel, body, ctx, st).signal.Ok?
    ensures Chosen(mode, fuel, body, returnsNull, ctx, st).signal
         == Ok(if returnsNull then VNull else Eval(mode, fuel, body, ctx, st).signal.value)
  {
  }

  // ---------------------------------------------------------------------- for

  /** The values the `for` counter takes: from `i` by `step` while inside the range. */
  function Counters(i: int, end: int, step: int): seq<int>
    requires step != 0
    decreases if step > 0 then end - i else i - end
  {
    if InRange(i, end, step) then [i] + Counters(i + step, end, step) else []
  }

  /** The k-th counter is `i + k * step`, every counter is inside the range,
      and the one after the last is not: the loop runs exactly these turns. */
  lemma {:induction false} CountersSpan(i: int, end: int, step: int)
    requires step != 0
    ensures var cs := Counters(i, end, step);
      && (forall k :: 0 <= k < |cs| ==> InRange(cs[k], end, step) && cs[k] == i + k * step)
      && !InRange(i + |cs| * step, end, step)
    decreases if step > 0 then end - i else i - end
  {
    if InRange(i, end, step) {
      CountersSpan(i + step, end, step);
      var rest := Counters(i + step, end, step);
      var cs := Counters(i, end, step);
      assert cs == [i] + rest;
      forall k | 1 <= k < |cs| ensures cs[k] == i + k * step {
        assert cs[k] == (i + step) + (k - 1) * step;
        StepMore(k - 1, step);
      }
      StepMore(|rest|, step);
    }
  }

  /** `n + 1` steps are `n` steps and one more. */
  lemma StepMore(n: int, step: int)
    ensures n * step + step == (n + 1) * step
  {
  }

  function Numbers(cs: seq<int>): (vs: seq<Value>)
    ensures |vs| == |cs| && forall k :: 0 <= k < |cs| ==> vs[k] == VNumber(cs[k])
  {
    if cs == [] then [] else [VNumber(cs[0])] + Numbers(cs[1..])
  }

  /** A loop whose body reads its counter collects the counters in order. */
  lemma {:induction false} ForCountsThrough(mode: Reading, fuel: nat, name: string, i: int, end: int, step: int, ctx: nat,
                                            st: Store, done: seq<Value>)
    requires step != 0 && ctx < |st.tables|
    requires fuel >= |Counters(i, end, step)|
    ensures var m := ForLoop(mode, fuel, name, i, end, step, VarAccessNode(name), ctx, st, done);
      m.All? && m.values == done + Numbers(Counters(i, end, step))
    decreases |Counters(i, end, step)|
  {
    if InRange(i, end, step) {
      CountersStep(i, end, step, done);
      ForCountsThrough(mode, fuel - 1, name, i + step, end, step, ctx, Bind(st, ctx, name, VNumber(i)), done + [VNumber(i)]);
      CounterTurn(mode, fuel, name, i, end, step, ctx, st, done);
    } else {
      assert Counters(i, end, step) == [];
      assert done + Numbers([]) == done;
    }
  }

  /** A turn of a loop whose body reads its counter collects the counter and
      goes on from the next one. */
  lemma CounterTurn(mode: Reading, fuel: nat, name: string, i: int, end: int, step: int, ctx: nat, st: Store,
                    done: seq<Value>)
    requires InRange(i, end, step) && fuel > 0 && ctx < |st.tables|
    ensures ForLoop(mode, fuel, name, i, end, step, VarAccessNode(name), ctx, st, done)
         == ForLoop(mode, fuel - 1, name, i + step, end, step, VarAccessNode(name), ctx, Bind(st, ctx, name, VNumber(i)),
                    done + [VNumber(i)])
  {
    var st0 := Bind(st, ctx, name, VNumber(i));
    ReadCounter(mode, fuel, name, i, ctx, st);
    CollectingTurn(mode, fuel, name, i, end, step, VarAccessNode(name), ctx, st, done, VNumber(i), st0);
  }

  /** The counters from `i` are `i`, then the counters from the next one. */
  lemma CountersStep(i: int, end: int, step: int, done: seq<Value>)
    requires step != 0 && InRange(i, end, step)
    ensures |Counters(i + step, end, step)| < |Counters(i, end, step)|
    ensures done + Numbers(Counters(i, end, step)) == (done + [VNumber(i)]) + Numbers(Counters(i + step, end, step))
  {
    var cs := Counters(i, end, step);
    var rest := Counters(i + step, end, step);
    assert cs == [i] + rest;
    assert cs[1..] == rest;
    assert Numbers(cs) == [VNumber(i)] + Numbers(rest);
    assert done + ([VNumber(i)] + Numbers(rest)) == (done + [VNumber(i)]) + Numbers(rest);
  }

  /** The body reading the counter gives the counter's value. */
  lemma ReadCounter(mode: Reading, fuel: nat, name: string, i: int, ctx: nat, st: Store)
    requires fuel > 0 && ctx < |st.tables|
    ensures var st0 := Bind(st, ctx, name, VNumber(i));
      Eval(mode, fuel, VarAccessNode(name), ctx, st0) == Res(Ok(VNumber(i)), st0)
  {
    GetAfterBind(st, ctx, name, VNumber(i), name);
    ReadVariable(mode, fuel, name, ctx, Bind(st, ctx, name, VNumber(i)), VNumber(i));
  }

  /** A turn of `for` whose body yields a value collects it and goes on from
      the next counter. */
  lemma CollectingTurn(mode: Reading, fuel: nat, name: string, i: int, end: int, step: int, body: Node, ctx: nat,
                       st: Store, done: seq<Value>, v: Value, st': Store)
    requires InRange(i, end, step) && fuel > 0
    requires Eval(mode, fuel, body, ctx, Bind(st, ctx, name, VNumber(i))) == Res(Ok(v), st')
    ensures ForLoop(mode, fuel, name, i, end, step, body, ctx, st, done)
         == ForLoop(mode, fuel - 1, name, i + step, end, step, body, ctx, st', done + [v])
  {
  }

  /** One turn of `for` inside the range whose body yields a value or
      `continue`: the counter is bound, the body runs, and the loop goes on
      from the next counter in the store the body left, collecting the value. */
  lemma ForTurn(mode: Reading, fuel: nat, name: string, i: int, end: int, step: int, body: Node, ctx: nat, st: Store,
                done: seq<Value>, r: Res)
    requires InRange(i, end, step) && fuel > 0
    requires r == Eval(mode, fuel, body, ctx, Bind(st, ctx, name, VNumber(i)))
    ensures var m := ForLoop(mode, fuel, name, i, end, step, body, ctx, st, done);
      && (r.signal.Ok? ==>
            m == ForLoop(mode, fuel - 1, name, i + step, end, step, body, ctx, r.st, done + [r.signal.value]))
      && (r.signal.Continue? ==> m == ForLoop(mode, fuel - 1, name, i + step, end, step, body, ctx, r.st, done))
  {
  }

  /** A turn of `for` whose body breaks, fails or returns ends the loop:
      `break` with what was collected, an error or a `return` with its signal
      and the store the body left. */
  lemma ForTurnEnds(mode: Reading, fuel: nat, name: string, i: int, end: int, step: int, body: Node, ctx: nat,
                    st: Store, done: seq<Value>, r: Res)
    requires InRange(i, end, step) && fuel > 0
    requires r == Eval(mode, fuel, body, ctx, Bind(st, ctx, name, VNumber(i)))
    ensures var m := ForLoop(mode, fuel, name, i, end, step, body, ctx, st, done);
      && (r.signal.Break? ==> m == All(done, r.st))
      && (r.signal.Err? || r.signal.Return? ==> m == Halted(r.signal, r.st))
  {
  }

  /** A zero step with the start below the end never leaves the loop: whatever
      the fuel, it runs out. */
  lemma {:induction false} ZeroStepNeverEnds(mode: Reading, fuel: nat, name: string, i: int, end: int, ctx: nat, st: Store,
                                             done: seq<Value>)
    requires i < end && ctx < |st.tables|
    ensures var m := ForLoop(mode, fuel, name, i, end, 0, VarAccessNode(name), ctx, st, done);
      m.Halted? && m.signal == Err(OutOfFuel)
    decreases fuel
  {
    if fuel > 0 {
      var st0 := Bind(st, ctx, name, VNumber(i));
      GetAfterBind(st, ctx, name, VNumber(i), name);
      assert Eval(mode, fuel, VarAccessNode(name), ctx, st0) == Res(Ok(VNumber(i)), st0);
      ZeroStepNeverEnds(mode, fuel - 1, name, i, end, ctx, st0, done + [VNumber(i)]);
    }
  }

  /** `continue` as the body skips every value: the loop collects nothing. */
  lemma {:induction false} ContinueCollectsNothing(mode: Reading, fuel: nat, name: string, i: int, end: int, step: int, ctx: nat,
                                                   st: Store, done: seq<Value>)
    requires step != 0
    requires fuel >= |Counters(i, end, step)|
    ensures var m := ForLoop(mode, fuel, name, i, end, step, ContinueNode, ctx, st, done);
      m.All? && m.values == done
    decreases |Counters(i, end, step)|
  {
    if InRange(i, end, step) {
      var st0 := Bind(st, ctx, name, VNumber(i));
      ContinueCollectsNothing(mode, fuel - 1, name, i + step, end, step, ctx, st0, done);
    }
  }

  /** `break` as the body ends the loop in its first turn. */
  lemma BreakStops(mode: Reading, fuel: nat, name: string, i: int, end: int, step: int, ctx: nat, st: Store, done: seq<Value>)
    requires InRange(i, end, step) && fuel > 0
    ensures ForLoop(mode, fuel, name, i, end, step, BreakNode, ctx, st, done) == All(done, Bind(st, ctx, name, VNumber(i)))
  {
  }

  /** Start, end and step must be numbers; a missing step counts by one. */
  lemma ForBounds(mode: Reading, fuel: nat, name: string, start: Node, end: Node, body: Node, returnsNull: bool, ctx: nat, st: Store)
    ensures var s := Eval(mode, fuel, start, ctx, st);
      s.signal.Ok? && !s.signal.value.VNumber? ==>
        EvalFor(mode, fuel, name, start, end, None, body, returnsNull, ctx, st) == Res(Err(ExpectedNumber), s.st)
    ensures var s := Eval(mode, fuel, start, ctx, st); var e := Eval(mode, fuel, end, ctx, s.st);
      s.signal.Ok? && s.signal.value.VNumber? && e.signal.Ok? && e.signal.value.VNumber? ==>
        EvalFor(mode, fuel, name, start, end, None, body, returnsNull, ctx, st)
        == Collected(ForLoop(mode, fuel, name, s.signal.value.n, e.signal.value.n, 1, body, ctx, e.st, []), returnsNull)
  {
  }

  /** A condition of `while` that is not a value leaves the loop with its
      signal and the store it left. */
  lemma WhileConditionHalts(mode: Reading, fuel: nat, condition: Node, body: Node, ctx: nat, st: Store,
                            done: seq<Value>)
    requires fuel > 0
    ensures var c := Eval(mode, fuel, condition, ctx, st);
      !c.signal.Ok? ==> WhileLoop(mode, fuel, condition, body, ctx, st, done) == Halted(c.signal, c.st)
  {
  }

  /** A turn of `while` with a true condition whose body yields a value or
      `continue`: the loop goes on from the store the body left, collecting
      the value. */
  lemma WhileTurn(mode: Reading, fuel: nat, condition: Node, body: Node, ctx: nat, st: Store, done: seq<Value>,
                  c: Res, r: Res)
    requires fuel > 0 && c == Eval(mode, fuel, condition, ctx, st) && c.signal.Ok? && Truthy(c.signal.value)
    requires r == Eval(mode, fuel, body, ctx, c.st)
    ensures var m := WhileLoop(mode, fuel, condition, body, ctx, st, done);
      && (r.signal.Ok? ==> m == WhileLoop(mode, fuel - 1, condition, body, ctx, r.st, done + [r.signal.value]))
      && (r.signal.Continue? ==> m == WhileLoop(mode, fuel - 1, condition, body, ctx, r.st, done))
  {
  }

  /** A turn of `while` whose body breaks, fails or returns ends the loop:
      `break` with what was collected, an error or a `return` with its signal. */
  lemma WhileTurnEnds(mode: Reading, fuel: nat, condition: Node, body: Node, ctx: nat, st: Store, done: seq<Value>,
                      c: Res, r: Res)
    requires fuel > 0 && c == Eval(mode, fuel, condition, ctx, st) && c.signal.Ok? && Truthy(c.signal.value)
    requires r == Eval(mode, fuel, body, ctx, c.st)
    ensures var m := WhileLoop(mode, fuel, condition, body, ctx, st, done);
      && (r.signal.Break? ==> m == All(done, r.st))
      && (r.signal.Err? || r.signal.Return? ==> m == Halted(r.signal, r.st))
  {
  }

  /** `continue` as the body of `while` skips every value: however the loop
      ends, it has collected nothing. */
  lemma {:induction false} WhileContinueCollectsNothing(mode: Reading, fuel: nat, condition: Node, ctx: nat,
                                                        st: Store, done: seq<Value>)
    ensures var m := WhileLoop(mode, fuel, condition, ContinueNode, ctx, st, done);
      m.All? ==> m.values == done
    decreases fuel
  {
    if fuel > 0 {
      var c := Eval(mode, fuel, condition, ctx, st);
      if c.signal.Ok? && Truthy(c.signal.value) {
        WhileContinueCollectsNothing(mode, fuel - 1, condition, ctx, c.st, done);
      }
    }
  }

  /** `break` as the body of `while` ends the loop in its first turn. */
  lemma WhileBreakStops(mode: Reading, fuel: nat, condition: Node, ctx: nat, st: Store, done: seq<Value>)
    requires fuel > 0
    requires var c := Eval(mode, fuel, condition, ctx, st); c.signal.Ok? && Truthy(c.signal.value)
    ensures WhileLoop(mode, fuel, condition, BreakNode, ctx, st, done) == All(done, Eval(mode, fuel, condition, ctx, st).st)
  {
  }

  /** `while` with a false condition runs no turn and yields no values. */
  lemma WhileFalseRunsNothing(mode: Reading, fuel: nat, condition: Node, body: Node, ctx: nat, st: Store, done: seq<Value>)
    requires fuel > 0
    requires var c := Eval(mode, fuel, condition, ctx, st); c.signal.Ok? && !Truthy(c.signal.value)
    ensures WhileLoop(mode, fuel, condition, body, ctx, st, done) == All(done, Eval(mode, fuel, condition, ctx, st).st)
  {
  }

  // --------------------------------------------------------------- containers

  /** Evaluating a sequence of nodes that all give values collects one value
      per node, after those already collected. */
  lemma {:induction false} AllValuesCollected(mode: Reading, fuel: nat, nodes: seq<Node>, ctx: nat, st: Store, done: seq<Value>)
    ensures var m := EvalAll(mode, fuel, nodes, ctx, st, done);
      m.All? ==> |m.values| == |done| + |nodes| && m.values[..|done|] == done
    decreases |nodes|
  {
    if nodes != [] {
      var r := Eval(mode, fuel, nodes[0], ctx, st);
      if r.signal.Ok? {
        AllValuesCollected(mode, fuel, nodes[1..], ctx, r.st, done + [r.signal.value]);
        var m := EvalAll(mode, fuel, nodes[1..], ctx, r.st, done + [r.signal.value]);
        if m.All? {
          assert m.values[..|done|] == (m.values[..|done| + 1])[..|done|];
        }
      }
    }
  }

  /** A list literal whose elements all give values makes a new list with one
      element per node. */
  lemma ListLiteral(mode: Reading, fuel: nat, elements: seq<Node>, ctx: nat, st: Store)
    requires fuel > 0
    ensures var r := Eval(mode, fuel, ListNode(elements), ctx, st);
      r.signal.Ok? ==>
        r.signal.value.VList? && r.signal.value.list < |r.st.lists|
        && |r.st.lists[r.signal.value.list]| == |elements|
  {
    AllValuesCollected(mode, fuel - 1, elements, ctx, st, []);
    var m := EvalAll(mode, fuel - 1, elements, ctx, st, []);
    if m.All? {
      assert Eval(mode, fuel, ListNode(elements), ctx, st) == Res(Ok(VList(|m.st.lists|)), m.st.(lists := m.st.lists + [m.values]));
    }
  }

  function Keys(entries: seq<Entry>): set<string>
  {
    set k | 0 <= k < |entries| :: entries[k].key
  }

  /** An object literal whose values all evaluate makes a new object whose
      keys are exactly the literal's keys. */
  lemma {:induction false} ObjectKeys(mode: Reading, fuel: nat, entries: seq<Entry>, ctx: nat, st: Store, fields: map<string, Value>)
    ensures var r := EvalEntries(mode, fuel, entries, ctx, st, fields);
      r.signal.Ok? ==>
        r.signal.value.VObject? && r.signal.value.obj < |r.st.objects|
        && r.st.objects[r.signal.value.obj].Keys == fields.Keys + Keys(entries)
    decreases |entries|
  {
    if entries != [] {
      var r := Eval(mode, fuel, entries[0].value, ctx, st);
      if r.signal.Ok? {
        ObjectKeys(mode, fuel, entries[1..], ctx, r.st, fields[entries[0].key := r.signal.value]);
        assert Keys(entries) == {entries[0].key} + Keys(entries[1..]) by {
          forall key | key in Keys(entries) ensures key in {entries[0].key} + Keys(entries[1..]) {
            var k :| 0 <= k < |entries| && entries[k].key == key;
            if k > 0 {
              assert entries[1..][k - 1].key == key;
            }
          }
          forall key | key in Keys(entries[1..]) ensures key in Keys(entries) {
            var k :| 0 <= k < |entries[1..]| && entries[1..][k].key == key;
            assert entries[k + 1].key == key;
          }
        }
      }
    }
  }

  // -------------------------------------------------------------------- calls

  /** In the table a call runs in, each parameter (its last occurrence, when
      repeated) reads as its argument with the new table as context, and every
      other name reads as it does in the function's context. */
  lemma CallSeesArguments(st: Store, home: nat, params: seq<string>, args: seq<Value>, name: string)
    requires |params| == |args| && home < |st.tables|
    ensures var (t, st1) := Frame(st, home, params, args);
      forall k :: 0 <= k < |params| && params[k] !in params[k + 1..] ==>
        Get(st1, t, params[k]) == Some(WithContext(args[k], t))
    ensures var (t, st1) := Frame(st, home, params, args);
      name !in params ==> Get(st1, t, name) == Get(st, home, name)
  {
    var (t, st1) := Frame(st, home, params, args);
    var m := Bound(map[], params, args, t);
    ChainAgrees(st, st1, home);
    assert ChainOf(st1, t) == [m] + ChainOf(st, home);
    if name !in params {
      MissingAsksParent(m, ChainOf(st, home), name);
    }
  }

  /** A call with more or fewer arguments than parameters is the arity error,
      reported after the new table was made. */
  lemma ArityChecked(mode: Reading, fuel: nat, fn: Value, args: seq<Value>, st: Store)
    requires fn.VFunction? && |args| != |fn.params|
    ensures Execute(mode, fuel, fn, args, st)
         == Res(Err(ArityFault(fn.name, fn.params, args).value), NewTable(st, fn.context).1)
  {
  }

  /** Calling a function whose body reads one of its parameters gives back
      the argument passed for it. */
  lemma ParameterReadsArgument(mode: Reading, fuel: nat, fn: Value, args: seq<Value>, st: Store, k: nat)
    requires fn.VFunction? && fn.context < |st.tables| && fuel > 0
    requires |args| == |fn.params| && k < |args| && fn.params[k] !in fn.params[k + 1..]
    requires fn.body == VarAccessNode(fn.params[k]) && !args[k].VList?
    ensures mode.AsWritten? && args[k].VNull? ==> Execute(mode, fuel, fn, args, st).signal.Err?
    ensures mode.Intended? || !args[k].VNull? ==>
      Execute(mode, fuel, fn, args, st).signal == Ok(WithContext(args[k], |st.tables|))
  {
    CallSeesArguments(st, fn.context, fn.params, args, fn.params[k]);
    var (t, st1) := Frame(st, fn.context, fn.params, args);
    var v := WithContext(args[k], t);
    assert Get(st1, t, fn.params[k]) == Some(v);
    if mode.Intended? || !args[k].VNull? {
      ReadVariable(mode, fuel, fn.params[k], t, st1, v);
      assert Run(mode, fuel, fn, args, st) == Res(Ok(v), st1);
    } else {
      ReadNullFails(fuel, fn.params[k], t, st1);
    }
  }

  // ------------------------------------------------------ dotted assignment

  /** The objects a dotted path `n0.n1. ... .nk` passes through in `st`:
      `n0` names the object `path[0]` in scope, and each later name but the
      last is the element of the object before it that holds `path[j]`. */
  predicate PathTo(st: Store, ctx: nat, names: seq<string>, path: seq<nat>)
  {
    |names| >= 2 && |path| == |names| - 1
    && Get(st, ctx, names[0]) == Some(VObject(path[0]))
    && (forall j :: 0 <= j < |path| ==> path[j] < |st.objects|)
    && forall j :: 1 <= j < |path| ==>
         names[j] in st.objects[path[j - 1]] && st.objects[path[j - 1]][names[j]] == VObject(path[j])
  }

  /** The store with element `name` of object `o` set to `v`. */
  function WriteElement(st: Store, o: nat, name: string, v: Value): (r: Store)
    ensures r.tables == st.tables && r.lists == st.lists && |r.objects| == |st.objects|
    ensures o < |st.objects| ==> r.objects[o] == st.objects[o][name := v]
    ensures forall p :: 0 <= p < |st.objects| && p != o ==> r.objects[p] == st.objects[p]
  {
    if o < |st.objects| then st.(objects := st.objects[o := st.objects[o][name := v]]) else st
  }

  /** `n0.n1. ... .nk = e` along objects: the right-hand side is evaluated
      once, the element `nk` of the last object on the path is written in place
      (every reference to that object sees it, no other object changes), the
      result is what `n0` names afterwards, and reading the path back gives the
      value whenever it still leads to the same objects. */
  lemma DottedAssignWrites(mode: Reading, fuel: nat, names: seq<string>, rhs: Node, ctx: nat, st: Store, path: seq<nat>)
    requires ctx < |st.tables| && PathTo(st, ctx, names, path)
    requires var r := Eval(mode, fuel, rhs, ctx, st);
      r.signal.Ok? && Get(r.st, ctx, names[0]).Some?
    ensures var r := Eval(mode, fuel, rhs, ctx, st);
      var st' := WriteElement(r.st, path[|path| - 1], names[|names| - 1], r.signal.value);
      AssignPath(mode, fuel, names, rhs, 0, VNull, ctx, st) == Res(Ok(Get(r.st, ctx, names[0]).value), st')
      && (PathTo(st', ctx, names, path) ==> Walk(names, 0, VNull, ctx, st') == Success(r.signal.value))
  {
    EvalExtends(mode, fuel, rhs, ctx, st);
    var r := Eval(mode, fuel, rhs, ctx, st);
    var o := path[|path| - 1];
    var st' := WriteElement(r.st, o, names[|names| - 1], r.signal.value);
    ChainAgrees(r.st, st', ctx);
    AssignPathEnds(mode, fuel, names, rhs, ctx, st', o);
    AssignPathWalks(mode, fuel, names, rhs, ctx, st, path, 0);
    if PathTo(st', ctx, names, path) {
      ReadBack(names, ctx, st', path);
    }
  }

  /** The walk of `n0.n1. ... .nk = e` from name `k` on: the names up to the
      last object are followed in the store as it is, then the value is
      written and the rest of the assignment runs. */
  lemma {:induction false} AssignPathWalks(mode: Reading, fuel: nat, names: seq<string>, rhs: Node, ctx: nat, st: Store,
                                           path: seq<nat>, k: nat)
    requires ctx < |st.tables| && PathTo(st, ctx, names, path) && k <= |names| - 2
    requires Eval(mode, fuel, rhs, ctx, st).signal.Ok?
    ensures var r := Eval(mode, fuel, rhs, ctx, st);
      var st' := WriteElement(r.st, path[|path| - 1], names[|names| - 1], r.signal.value);
      AssignPath(mode, fuel, names, rhs, k, if k == 0 then VNull else VObject(path[k - 1]), ctx, st)
        == AssignPath(mode, fuel, names, rhs, |names| - 1, VObject(path[|path| - 1]), ctx, st')
    decreases |names| - k
  {
    var current := if k == 0 then VNull else VObject(path[k - 1]);
    assert AssignStep(names, k, current, ctx, st) == Success(VObject(path[k]));
    if k < |names| - 2 {
      AssignPathStep(mode, fuel, names, rhs, k, current, ctx, st, VObject(path[k]));
      AssignPathWalks(mode, fuel, names, rhs, ctx, st, path, k + 1);
    } else {
      EvalExtends(mode, fuel, rhs, ctx, st);
      AssignPathWrite(mode, fuel, names, rhs, current, ctx, st, path[k]);
    }
  }

  /** A name before the last object only moves the walk on. */
  lemma AssignPathStep(mode: Reading, fuel: nat, names: seq<string>, rhs: Node, k: nat, current: Value, ctx: nat, st: Store,
                       v: Value)
    requires k + 1 < |names| - 1 && AssignStep(names, k, current, ctx, st) == Success(v)
    ensures AssignPath(mode, fuel, names, rhs, k, current, ctx, st) == AssignPath(mode, fuel, names, rhs, k + 1, v, ctx, st)
  {
  }

  /** Reaching the last object evaluates the right-hand side and writes it there. */
  lemma AssignPathWrite(mode: Reading, fuel: nat, names: seq<string>, rhs: Node, current: Value, ctx: nat, st: Store, o: nat)
    requires |names| >= 2 && AssignStep(names, |names| - 2, current, ctx, st) == Success(VObject(o))
    requires var r := Eval(mode, fuel, rhs, ctx, st); r.signal.Ok? && o < |r.st.objects|
    ensures var r := Eval(mode, fuel, rhs, ctx, st);
      AssignPath(mode, fuel, names, rhs, |names| - 2, current, ctx, st)
        == AssignPath(mode, fuel, names, rhs, |names| - 1, VObject(o), ctx,
                      WriteElement(r.st, o, names[|names| - 1], r.signal.value))
  {
  }

  /** The last step of `n0. ... .nk = e` once `nk` is written: the result is
      what `n0` names. */
  lemma AssignPathEnds(mode: Reading, fuel: nat, names: seq<string>, rhs: Node, ctx: nat, st: Store, o: nat)
    requires |names| >= 2 && Get(st, ctx, names[0]).Some?
    requires o < |st.objects| && names[|names| - 1] in st.objects[o]
    ensures AssignPath(mode, fuel, names, rhs, |names| - 1, VObject(o), ctx, st) == Res(Ok(Get(st, ctx, names[0]).value), st)
  {
    var v := st.objects[o][names[|names| - 1]];
    assert AssignPath(mode, fuel, names, rhs, |names|, v, ctx, st) == Res(Ok(Get(st, ctx, names[0]).value), st);
  }

  /** `n0.n1. ... .nk` reads the element `nk` of the last object on the path. */
  lemma ReadBack(names: seq<string>, ctx: nat, st: Store, path: seq<nat>)
    requires PathTo(st, ctx, names, path) && names[|names| - 1] in st.objects[path[|path| - 1]]
    ensures Walk(names, 0, VNull, ctx, st) == Success(st.objects[path[|path| - 1]][names[|names| - 1]])
  {
    ReadFrom(names, ctx, st, path, 1);
  }

  /** The read of a dotted path from name `k` on, standing at `path[k - 1]`. */
  lemma {:induction false} ReadFrom(names: seq<string>, ctx: nat, st: Store, path: seq<nat>, k: nat)
    requires PathTo(st, ctx, names, path) && names[|names| - 1] in st.objects[path[|path| - 1]]
    requires 1 <= k <= |names| - 1
    ensures Walk(names, k, VObject(path[k - 1]), ctx, st) == Success(st.objects[path[|path| - 1]][names[|names| - 1]])
    decreases |names| - k
  {
    if k < |names| - 1 {
      ReadFrom(names, ctx, st, path, k + 1);
    } else {
      var v := st.objects[path[|path| - 1]][names[|names| - 1]];
      assert Walk(names, k + 1, v, ctx, st) == Success(v);
    }
  }

  /** `a.b = e` when `a` is not an object is the "is not a object" error for
      the missing object, and nothing is evaluated. */
  lemma DottedAssignNeedsObject(mode: Reading, fuel: nat, names: seq<string>, rhs: Node, ctx: nat, st: Store)
    requires names != [] && !(Get(st, ctx, names[0]).Some? && Get(st, ctx, names[0]).value.VObject?)
    ensures AssignPath(mode, fuel, names, rhs, 0, VNull, ctx, st) == Res(Err(NotAnObject(None)), st)
  {
  }

  // ------------------------------------------------------------ members and callees

  /** `l.m` on a list reads one of its three methods, bound to the list; any
      other name after a list is "not defined". */
  lemma ListMembers(names: seq<string>, ctx: nat, st: Store, l: nat)
    requires |names| == 2 && Get(st, ctx, names[0]) == Some(VList(l))
    ensures names[1] in {"append", "pop", "extend"} ==>
              Walk(names, 0, VNull, ctx, st) == Success(VBuiltIn(names[1], Some(l)))
    ensures names[1] !in {"append", "pop", "extend"} ==>
              Walk(names, 0, VNull, ctx, st) == Failure(Error(NotDefined(names[1])))
  {
    assert Walk(names, 0, VNull, ctx, st) == Walk(names, 1, VList(l), ctx, st);
    if names[1] in {"append", "pop", "extend"} {
      var m := VBuiltIn(names[1], Some(l));
      assert Walk(names, 2, m, ctx, st) == Success(m);
    }
  }

  /** A dot after a value that is neither an object nor a list reaches a
      member table this model does not hold. */
  lemma OtherMembersUnmodelled(names: seq<string>, ctx: nat, st: Store)
    requires |names| >= 2 && Get(st, ctx, names[0]).Some?
    requires !Get(st, ctx, names[0]).value.VObject? && !Get(st, ctx, names[0]).value.VList?
    ensures Walk(names, 0, VNull, ctx, st).Failure? && Walk(names, 0, VNull, ctx, st).error.Unmodelled?
  {
    var v := Get(st, ctx, names[0]).value;
    assert Walk(names, 0, VNull, ctx, st) == Walk(names, 1, v, ctx, st);
  }

  /** Calling a built-in runs its method and takes its answer; calling a value
      that is no function is the illegal-operation error, with the store kept. */
  lemma CalleeKinds(mode: Reading, fuel: nat, callee: Value, args: seq<Value>, st: Store)
    ensures callee.VBuiltIn? ==>
              Execute(mode, fuel, callee, args, st) == Answered(BuiltIns.Call(callee.name, callee.receiver, args, st), st)
    ensures !callee.VFunction? && !callee.VBuiltIn? ==>
              Execute(mode, fuel, callee, args, st) == Res(Err(Illegal(callee)), st)
  {
  }
}
