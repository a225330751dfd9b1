/**
 * The tree-walking evaluator (src/interpreter.py) and the call of a user
 * function (`Function.execute`, src/types.py). Evaluation threads an explicit
 * store; the context of a visit is the index of its symbol table. Every visit
 * spends one unit of `fuel`, so that loops and calls that do not end reach
 * `OutOfFuel` instead.
 */
module Interpreter {
  import opened Wrappers
  import opened Tokens
  import opened Syntax
  import opened Scopes
  import opened Values
  import BuiltIns

  /** `RTResult`: a value, an error, or one of the three control signals. */
  datatype Signal = Ok(value: Value) | Err(fault: Fault) | Return(result: Value) | Break | Continue

  /** The outcome of a visit together with the store it leaves. */
  datatype Res = Res(signal: Signal, st: Store)

  /** Visiting several nodes in order: all their values, or the first signal
      that was not a value (`res.should_return()`), with the store at that point. */
  datatype Many = All(values: seq<Value>, st: Store) | Halted(signal: Signal, st: Store)

  const ExpectedNumber := Error("Expected number")

  /** Which program is evaluated: the one AS WRITTEN, with the two defects of
      the source (copying null, building a function) as they stand and a
      `return` that hands back no value, as the result protocol the source
      relies on makes it; or the one evidently INTENDED, where each of these
      does what its callers expect. */
  datatype Reading = AsWritten | Intended

  /** The `copy()` a read or a call makes under the given reading. */
  function CopyBy(mode: Reading, v: Value, st: Store): (r: Answer)
    ensures mode.Intended? || !v.VNull? ==> r == Copy(v, st)
    ensures mode.AsWritten? && v.VNull? ==> r.Failure? && r.error.Crash?
    ensures r.Success? ==>
      r.value.1.tables == st.tables && r.value.1.objects == st.objects && |st.lists| <= |r.value.1.lists|
  {
    if mode.AsWritten? then CopyAsWritten(v, st) else Copy(v, st)
  }

  /** A runtime-value answer as a visit result: the store moves only on success. */
  function Answered(a: Answer, st: Store): (r: Res)
    ensures a.Success? ==> r == Res(Ok(a.value.0), a.value.1)
    ensures a.Failure? ==> r == Res(Err(a.error), st)
  {
    match a
    case Success((v, st')) => Res(Ok(v), st')
    case Failure(f) => Res(Err(f), st)
  }

  /** `value.copy().set_context(context)`, as a read of a variable and the
      result of a call return it. */
  function Copied(mode: Reading, v: Value, ctx: nat, st: Store): (r: Res)
    ensures CopyBy(mode, v, st).Success? ==>
      r == Res(Ok(WithContext(CopyBy(mode, v, st).value.0, ctx)), CopyBy(mode, v, st).value.1)
    ensures CopyBy(mode, v, st).Failure? ==> r == Res(Err(CopyBy(mode, v, st).error), st)
    ensures r.st.tables == st.tables && r.st.objects == st.objects && |st.lists| <= |r.st.lists|
  {
    match CopyBy(mode, v, st)
    case Success((c, st')) => Res(Ok(WithContext(c, ctx)), st')
    case Failure(f) => Res(Err(f), st)
  }

  /** The numeric comparison each of `<`, `>`, `<=` and `>=` names. */
  function OrderingOf(kind: TokenType): Ordering
    requires kind in {LT, GT, LTE, GTE}
  {
    match kind
    case LT => Less
    case GT => Greater
    case LTE => LessEq
    case GTE => GreaterEq
  }

  /** The operator dispatch of `visit_BinOpNode`. */
  function ApplyBinary(op: Token, left: Value, right: Value, st: Store): (r: Answer)
    ensures r.Success? ==> StoreGrows(st, r.value.1)
  {
    if op.kind in {LT, GT, LTE, GTE} then Compare(OrderingOf(op.kind), left, right, st)
    else match op.kind
    case Dot => Failure(Crash("AttributeError: values have no 'dotted_to'"))
    case Plus => AddedTo(left, right, st)
    case Minus => SubbedBy(left, right, st)
    case Mul => MultedBy(left, right, st)
    case Div => DivedBy(left, right, st)
    case Pow => PowedBy(left, right, st)
    case EE => ComparisonEq(left, right, st)
    case NE => ComparisonNe(left, right, st)
    case _ =>
      if op.Matches(Keyword, KwAnd) then AndedBy(left, right, st)
      else if op.Matches(Keyword, KwOr) then OredBy(left, right, st)
      else Failure(Crash("UnboundLocalError: no operator matched"))
  }

  /** Each arithmetic token runs the operation of its own name: `+` is
      `added_to`, `-` is `subbed_by`, `*` is `multed_by`, `/` is `dived_by`
      and `^` is `powed_by`. */
  lemma ArithmeticDispatch(op: Token, left: Value, right: Value, st: Store)
    requires op.kind in {Plus, Minus, Mul, Div, Pow}
    ensures ApplyBinary(op, left, right, st)
         == if op.kind == Plus then AddedTo(left, right, st)
            else if op.kind == Minus then SubbedBy(left, right, st)
            else if op.kind == Mul then MultedBy(left, right, st)
            else if op.kind == Div then DivedBy(left, right, st)
            else PowedBy(left, right, st)
  {
  }

  /** `==` and `!=` run `get_comparison_eq` and `get_comparison_ne`. */
  lemma EqualityDispatch(op: Token, left: Value, right: Value, st: Store)
    requires op.kind in {EE, NE}
    ensures ApplyBinary(op, left, right, st)
         == if op.kind == EE then ComparisonEq(left, right, st) else ComparisonNe(left, right, st)
  {
  }

  /** `<`, `>`, `<=` and `>=` run the numeric comparison of the same name. */
  lemma OrderingDispatch(op: Token, left: Value, right: Value, st: Store)
    requires op.kind in {LT, GT, LTE, GTE}
    ensures ApplyBinary(op, left, right, st) == Compare(OrderingOf(op.kind), left, right, st)
  {
  }

  /** The keywords `AND` and `OR` run `anded_by` and `ored_by`, and a dot has
      no operation. */
  lemma LogicalDispatch(op: Token, left: Value, right: Value, st: Store)
    ensures op.Matches(Keyword, KwAnd) ==> ApplyBinary(op, left, right, st) == AndedBy(left, right, st)
    ensures op.Matches(Keyword, KwOr) ==> ApplyBinary(op, left, right, st) == OredBy(left, right, st)
    ensures op.kind == Dot ==> ApplyBinary(op, left, right, st).Failure?
  {
  }

  /** The members a list offers after a dot: its three methods, bound to it. */
  function ListMember(name: string, l: nat): Option<Value>
  {
    if name in {"append", "pop", "extend"} then Some(VBuiltIn(name, Some(l))) else None
  }

  /** The walk of `visit_MultiVarAccessNode`: the first name is read from the
      scope chain, each later one from the element map of an object or the
      member table of a list. */
  function Walk(names: seq<string>, k: nat, current: Value, ctx: nat, st: Store): Outcome<Value, Fault>
    decreases |names| - k
  {
    if k >= |names| then
      if names == [] then Failure(Crash("AttributeError: 'NoneType' object has no attribute 'copy'"))
      else Success(current)
    else
      var found: Outcome<Option<Value>, Fault> :=
        if k == 0 then Success(Get(st, ctx, names[0]))
        else match current
          case VObject(o) =>
            if o >= |st.objects| then Failure(Dangling)
            else Success(if names[k] in st.objects[o] then Some(st.objects[o][names[k]]) else None)
          case VList(l) => Success(ListMember(names[k], l))
          case _ => Failure(Unmodelled("the member table of a " + TypeName(current)));
      match found
      case Failure(f) => Failure(f)
      case Success(None) => Failure(Error(NotDefined(names[k])))
      case Success(Some(v)) => Walk(names, k + 1, v, ctx, st)
  }

  /** What the k-th name of a dotted assignment reaches before anything is
      written: the first must name an object in scope, each later one an
      element of the object reached so far. */
  function AssignStep(names: seq<string>, k: nat, current: Value, ctx: nat, st: Store): Outcome<Value, Fault>
    requires k < |names|
  {
    if k == 0 then
      match Get(st, ctx, names[0])
      case Some(VObject(o)) => Success(VObject(o))
      case _ => Failure(NotAnObject(None))
    else
      match current
      case VObject(o) =>
        if o >= |st.objects| then Failure(Dangling)
        else if names[k] in st.objects[o] then Success(st.objects[o][names[k]])
        else Failure(Error(NotDefined(names[k])))
      case _ => Failure(Crash("AttributeError: no element map"))
  }

  /** `visit`: one node in the table `ctx`. */
  function Eval(mode: Reading, fuel: nat, node: Node, ctx: nat, st: Store): Res
    decreases fuel, 0, 0
  {
    if fuel == 0 then Res(Err(OutOfFuel), st)
    else
      var f := fuel - 1;
      match node
      case NumberNode(tok) =>
        if tok.value.IntValue? then Res(Ok(VNumber(tok.value.n)), st)
        else Res(Err(Unmodelled("a floating-point literal")), st)
      case StringNode(tok) => Res(Ok(VString(TokText(tok))), st)
      case BooleanNode(b) => Res(Ok(VBoolean(b)), st)
      case NullNode => Res(Ok(VNull), st)
      case ListNode(elements) =>
        (match EvalAll(mode, f, elements, ctx, st, [])
         case Halted(s, st') => Res(s, st')
         case All(values, st') => var (v, st'') := NewList(st', values); Res(Ok(v), st''))
      case ObjectNode(entries) => EvalEntries(mode, f, entries, ctx, st, map[])
      case VarAccessNode(name) =>
        (match Get(st, ctx, name)
         case None => Res(Err(Error(NotDefined(name))), st)
         case Some(v) => Copied(mode, v, ctx, st))
      case VarAssignNode(name, valueNode, update) => EvalAssign(mode, f, name, valueNode, update, ctx, st)
      case MultiVarAccessNode(names) =>
        (match Walk(names, 0, VNull, ctx, st)
         case Failure(fault) => Res(Err(fault), st)
         case Success(v) => Copied(mode, v, ctx, st))
      case MultiVarAssignNode(names, valueNode) => AssignPath(mode, f, names, valueNode, 0, VNull, ctx, st)
      case BinOpNode(left, op, right) => EvalBinOp(mode, f, left, op, right, ctx, st)
      case UnaryOpNode(op, operand) => EvalUnary(mode, f, op, operand, ctx, st)
      case IfNode(cases, elseCase) => EvalCases(mode, f, cases, elseCase, ctx, st)
      case ForNode(name, start, end, step, body, returnsNull) =>
        EvalFor(mode, f, name, start, end, step, body, returnsNull, ctx, st)
      case WhileNode(condition, body, returnsNull) =>
        Collected(WhileLoop(mode, f, condition, body, ctx, st, []), returnsNull)
      case FuncDefNode(funcName, params, body, autoReturn) =>
        if mode.AsWritten? then Res(Err(FunctionArity), st)
        else
          var fn := Closure(funcName, params, body, autoReturn, ctx);
          Res(Ok(fn), if funcName.Some? then Bind(st, ctx, funcName.value, fn) else st)
      case CallNode(callee, args) => EvalCall(mode, f, callee, args, ctx, st)
      case ImportNode(_, _) => Res(Err(Unmodelled("importing a library")), st)
      case ReturnNode(result) =>
        if result.None? then Res(Return(VNull), st)
        else
          var r := Eval(mode, f, result.value, ctx, st);
          if !r.signal.Ok? then r else Res(Return(r.signal.value), r.st)
      case ContinueNode => Res(Continue, st)
      case BreakNode => Res(Break, st)
  }

  /** As written, `visit_FuncDefNode` passes four arguments to the
      three-parameter `Function` constructor. */
  const FunctionArity := Crash("TypeError: Function.__init__() takes 4 positional arguments but 5 were given")

  /** The function value `visit_FuncDefNode` makes: unnamed functions are
      called "<anonymous>"; its context is the defining table. */
  function Closure(funcName: Option<string>, params: seq<string>, body: Node, autoReturn: bool, ctx: nat): Value
  {
    var named := funcName.Some? && funcName.value != "";
    VFunction(if named then funcName.value else "<anonymous>", params, body, autoReturn, ctx)
  }

  /** `visit_VarAssignNode`: an update needs an existing binding; the value is
      evaluated, then bound in the current table and yielded. */
  function EvalAssign(mode: Reading, fuel: nat, name: string, valueNode: Node, update: bool, ctx: nat, st: Store): Res
    decreases fuel, 2, 0
  {
    if update && Get(st, ctx, name).None? then Res(Err(Error(NotDefined(name))), st)
    else
      var r := Eval(mode, fuel, valueNode, ctx, st);
      if !r.signal.Ok? then r
      else Res(r.signal, Bind(r.st, ctx, name, r.signal.value))
  }

  /** `visit_BinOpNode`: the left operand, then the right one, then the operator. */
  function EvalBinOp(mode: Reading, fuel: nat, left: Node, op: Token, right: Node, ctx: nat, st: Store): Res
    decreases fuel, 2, 0
  {
    var l := Eval(mode, fuel, left, ctx, st);
    if !l.signal.Ok? then l
    else
      var r := Eval(mode, fuel, right, ctx, l.st);
      if !r.signal.Ok? then r
      else Answered(ApplyBinary(op, l.signal.value, r.signal.value, r.st), r.st)
  }

  /** `visit_UnaryOpNode`: minus multiplies by -1, `NOT` negates truthiness,
      any other operator leaves the operand as it is. */
  function EvalUnary(mode: Reading, fuel: nat, op: Token, operand: Node, ctx: nat, st: Store): Res
    decreases fuel, 2, 0
  {
    var r := Eval(mode, fuel, operand, ctx, st);
    if !r.signal.Ok? then r
    else if op.kind == Minus then Answered(MultedBy(r.signal.value, VNumber(-1), r.st), r.st)
    else if op.Matches(Keyword, KwNot) then Answered(Notted(r.signal.value, r.st), r.st)
    else r
  }

  /** `visit_ForNode`: start, end and the optional step (1 by default) must be
      numbers; then the loop runs. */
  function EvalFor(mode: Reading, fuel: nat, name: string, start: Node, end: Node, step: Option<Node>, body: Node,
                   returnsNull: bool, ctx: nat, st: Store): Res
    decreases fuel, 2, 0
  {
    var s := Eval(mode, fuel, start, ctx, st);
    if !s.signal.Ok? then s
    else if !s.signal.value.VNumber? then Res(Err(ExpectedNumber), s.st)
    else
      var e := Eval(mode, fuel, end, ctx, s.st);
      if !e.signal.Ok? then e
      else if !e.signal.value.VNumber? then Res(Err(ExpectedNumber), e.st)
      else EvalStep(mode, fuel, name, s.signal.value.n, e.signal.value.n, step, body, returnsNull, ctx, e.st)
  }

  /** The rest of `visit_ForNode` once start and end are numbers: the step,
      then the loop. */
  function EvalStep(mode: Reading, fuel: nat, name: string, i: int, end: int, step: Option<Node>, body: Node,
                    returnsNull: bool, ctx: nat, st: Store): Res
    decreases fuel, 1, 1
  {
    var stride := if step.Some? then Eval(mode, fuel, step.value, ctx, st) else Res(Ok(VNumber(1)), st);
    if !stride.signal.Ok? then stride
    else if !stride.signal.value.VNumber? then Res(Err(ExpectedNumber), stride.st)
    else Collected(ForLoop(mode, fuel, name, i, end, stride.signal.value.n, body, ctx, stride.st, []), returnsNull)
  }

  /** `visit_CallNode`: the callee is evaluated and copied, the arguments are
      evaluated in order, the callee runs, and its result is copied into the
      caller's context. */
  function EvalCall(mode: Reading, fuel: nat, callee: Node, args: seq<Node>, ctx: nat, st: Store): Res
    decreases fuel, 2, 0
  {
    var c := Eval(mode, fuel, callee, ctx, st);
    if !c.signal.Ok? then c
    else
      match CopyBy(mode, c.signal.value, c.st)
      case Failure(fault) => Res(Err(fault), c.st)
      case Success((fn, st1)) =>
        match EvalAll(mode, fuel, args, ctx, st1, [])
        case Halted(s, st2) => Res(s, st2)
        case All(values, st2) =>
          var r := Execute(mode, fuel, fn, values, st2);
          if !r.signal.Ok? then r else Copied(mode, r.signal.value, ctx, r.st)
  }

  /** The result of a loop: null in block form, else a new list of the values
      its body produced. */
  function Collected(m: Many, returnsNull: bool): (r: Res)
    ensures m.Halted? ==> r == Res(m.signal, m.st)
    ensures m.All? && returnsNull ==> r == Res(Ok(VNull), m.st)
    ensures m.All? && !returnsNull ==> r == Res(Ok(VList(|m.st.lists|)), m.st.(lists := m.st.lists + [m.values]))
  {
    match m
    case Halted(s, st) => Res(s, st)
    case All(values, st) =>
      if returnsNull then Res(Ok(VNull), st)
      else var (v, st') := NewList(st, values); Res(Ok(v), st')
  }

  /** The nodes in order, collecting their values; the first non-value stops. */
  function EvalAll(mode: Reading, fuel: nat, nodes: seq<Node>, ctx: nat, st: Store, done: seq<Value>): (m: Many)
    ensures m.Halted? ==> !m.signal.Ok?
    decreases fuel, 1, |nodes|
  {
    if nodes == [] then All(done, st)
    else
      var r := Eval(mode, fuel, nodes[0], ctx, st);
      if !r.signal.Ok? then Halted(r.signal, r.st)
      else EvalAll(mode, fuel, nodes[1..], ctx, r.st, done + [r.signal.value])
  }

  /** `visit_ObjectNode`: the entries in order, a later key overwriting an
      earlier one, then a new object. */
  function EvalEntries(mode: Reading, fuel: nat, entries: seq<Entry>, ctx: nat, st: Store, fields: map<string, Value>): Res
    decreases fuel, 1, |entries|
  {
    if entries == [] then
      var (v, st') := NewObject(st, fields); Res(Ok(v), st')
    else
      var r := Eval(mode, fuel, entries[0].value, ctx, st);
      if !r.signal.Ok? then r
      else EvalEntries(mode, fuel, entries[1..], ctx, r.st, fields[entries[0].key := r.signal.value])
  }

  /** `visit_IfNode`: the conditions in order; the first true one runs its body;
      with none, the else branch, or null. */
  function EvalCases(mode: Reading, fuel: nat, cases: seq<IfCase>, elseCase: Option<ElseCase>, ctx: nat, st: Store): Res
    decreases fuel, 1, |cases|
  {
    if cases == [] then
      if elseCase.None? then Res(Ok(VNull), st)
      else Chosen(mode, fuel, elseCase.value.body, elseCase.value.returnsNull, ctx, st)
    else
      var c := Eval(mode, fuel, cases[0].condition, ctx, st);
      if !c.signal.Ok? then c
      else if Truthy(c.signal.value) then Chosen(mode, fuel, cases[0].body, cases[0].returnsNull, ctx, c.st)
      else EvalCases(mode, fuel, cases[1..], elseCase, ctx, c.st)
  }

  /** The branch `if` picked: its body's value, or null for a block body. */
  function Chosen(mode: Reading, fuel: nat, body: Node, returnsNull: bool, ctx: nat, st: Store): Res
    decreases fuel, 0, 1
  {
    var r := Eval(mode, fuel, body, ctx, st);
    if !r.signal.Ok? then r
    else Res(Ok(if returnsNull then VNull else r.signal.value), r.st)
  }

  /** Whether the `for` counter `i` is still inside the range: below the end
      for a non-negative step, above it for a negative one. */
  predicate InRange(i: int, end: int, step: int)
  {
    if step >= 0 then i < end else i > end
  }

  /** The loop of `visit_ForNode`: bind the counter, advance it, run the body;
      `continue` skips collecting, `break` ends the loop, an error or a return
      leaves it. */
  function ForLoop(mode: Reading, fuel: nat, name: string, i: int, end: int, step: int, body: Node, ctx: nat, st: Store,
                   done: seq<Value>): (m: Many)
    ensures m.Halted? ==> !m.signal.Ok?
    decreases fuel, 1, 0
  {
    if !InRange(i, end, step) then All(done, st)
    else if fuel == 0 then Halted(Err(OutOfFuel), st)
    else
      var r := Eval(mode, fuel, body, ctx, Bind(st, ctx, name, VNumber(i)));
      match r.signal
      case Ok(v) => ForLoop(mode, fuel - 1, name, i + step, end, step, body, ctx, r.st, done + [v])
      case Continue => ForLoop(mode, fuel - 1, name, i + step, end, step, body, ctx, r.st, done)
      case Break => All(done, r.st)
      case _ => Halted(r.signal, r.st)
  }

  /** The loop of `visit_WhileNode`: evaluate the condition, stop when it is
      false, run the body, with the same signal handling as `for`. */
  function WhileLoop(mode: Reading, fuel: nat, condition: Node, body: Node, ctx: nat, st: Store, done: seq<Value>): (m: Many)
    ensures m.Halted? ==> !m.signal.Ok?
    decreases fuel, 1, 0
  {
    if fuel == 0 then Halted(Err(OutOfFuel), st)
    else
      var c := Eval(mode, fuel, condition, ctx, st);
      if !c.signal.Ok? then Halted(c.signal, c.st)
      else if !Truthy(c.signal.value) then All(done, c.st)
      else
        var r := Eval(mode, fuel, body, ctx, c.st);
        match r.signal
        case Ok(v) => WhileLoop(mode, fuel - 1, condition, body, ctx, r.st, done + [v])
        case Continue => WhileLoop(mode, fuel - 1, condition, body, ctx, r.st, done)
        case Break => All(done, r.st)
        case _ => Halted(r.signal, r.st)
  }

  /** `visit_MultiVarAssignNode`: walk the names; on reaching the object before
      the last name, evaluate the right-hand side and write it there in place
      (a right-hand side that is not a value leaves `None`, which reads as a
      missing element); then read the last name back, and yield the root.
      The write sits in a `try` whose handler reports any exception, one raised
      while evaluating the right-hand side included, as "is not a object". */
  function AssignPath(mode: Reading, fuel: nat, names: seq<string>, rhs: Node, k: nat, current: Value, ctx: nat, st: Store): Res
    decreases fuel, 1, |names| - k
  {
    if k >= |names| then
      if names == [] then Res(Err(Crash("IndexError: no names")), st)
      else
        match Get(st, ctx, names[0])
        case Some(root) => Res(Ok(root), st)
        case None => Res(Err(Crash("AttributeError: 'NoneType' result")), st)
    else
      match AssignStep(names, k, current, ctx, st)
      case Failure(fault) => Res(Err(fault), st)
      case Success(v) =>
        if |names| - 1 == k + 1 then
          var r := Eval(mode, fuel, rhs, ctx, st);
          if r.signal.Err? && (r.signal.fault.OutOfFuel? || r.signal.fault.Unmodelled?) then r
          else if r.signal.Err? && r.signal.fault.Crash? then Res(Err(NotAnObject(Some(v))), r.st)
          else match v
          case VObject(o) =>
            if o >= |r.st.objects| then Res(Err(Dangling), r.st)
            else
              var last := names[|names| - 1];
              var fields := if r.signal.Ok? then r.st.objects[o][last := r.signal.value] else r.st.objects[o] - {last};
              AssignPath(mode, fuel, names, rhs, k + 1, v, ctx, r.st.(objects := r.st.objects[o := fields]))
          case _ => Res(Err(NotAnObject(Some(v))), r.st)
        else AssignPath(mode, fuel, names, rhs, k + 1, v, ctx, st)
  }

  /** The table a call of a user function runs in: a new table under the
      function's context, holding the arguments under the parameter names. */
  function Frame(st: Store, home: nat, params: seq<string>, args: seq<Value>): (r: (nat, Store))
    requires |params| == |args|
    ensures r.0 == |st.tables| && |r.1.tables| == |st.tables| + 1
    ensures r.1.tables[..r.0] == st.tables && r.1.lists == st.lists && r.1.objects == st.objects
    ensures r.1.tables[r.0] == Scope(Bound(map[], params, args, r.0), Some(home))
  {
    var (t, st1) := NewTable(st, home);
    (t, st1.(tables := st1.tables[t := Scope(Bound(map[], params, args, t), Some(home))]))
  }

  /** `None.copy()`, where a call handed back no value. */
  const NoValue := Crash("AttributeError: 'NoneType' object has no attribute 'copy'")

  /** The signal a function body ends with, as the call's result. `execute`
      hands back what `register` gave it, which for a `return`, a `break` or
      a `continue` is no value, and the caller's `copy()` then fails on it;
      as intended, a `return` hands back the value it carries. */
  function Returned(mode: Reading, r: Res): (r': Res)
    ensures r'.st == r.st
    ensures r.signal.Return? && mode.Intended? ==> r'.signal == Ok(r.signal.result)
    ensures r.signal.Return? && mode.AsWritten? ==> r'.signal == Err(NoValue)
    ensures r.signal.Break? || r.signal.Continue? ==> r'.signal == Err(NoValue)
    ensures r.signal.Ok? || r.signal.Err? ==> r' == r
  {
    match r.signal
    case Return(v) => if mode.Intended? then Res(Ok(v), r.st) else Res(Err(NoValue), r.st)
    case Break => Res(Err(NoValue), r.st)
    case Continue => Res(Err(NoValue), r.st)
    case _ => r
  }

  /** `Function.execute`: the arity check, then the body in a new table under
      the function's context, with its parameters bound. */
  function Run(mode: Reading, fuel: nat, fn: Value, args: seq<Value>, st: Store): Res
    requires fn.VFunction?
    decreases fuel, 1, 0
  {
    match ArityFault(fn.name, fn.params, args)
    case Some(fault) => Res(Err(fault), NewTable(st, fn.context).1)
    case None =>
      var (t, st1) := Frame(st, fn.context, fn.params, args);
      Returned(mode, Eval(mode, fuel, fn.body, t, st1))
  }

  /** `execute` on the called value: a user function runs its body; a built-in
      runs its method; any other value cannot be called. */
  function Execute(mode: Reading, fuel: nat, callee: Value, args: seq<Value>, st: Store): Res
    decreases fuel, 1, 1
  {
    match callee
    case VFunction(_, _, _, _, _) => Run(mode, fuel, callee, args, st)
    case VBuiltIn(name, receiver) => Answered(BuiltIns.Call(name, receiver, args, st), st)
    case _ => Res(Err(Illegal(callee)), st)
  }
}
