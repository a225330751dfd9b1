/**
 * Runtime values and their operator tables (src/types.py), over an explicit
 * store: symbol tables, list element buffers and object element maps live in
 * the store and values refer to them by index, so that in-place updates are
 * seen through every reference, as Python's shared objects are.
 *
 * Numbers are integers: a floating-point result (true division, a negative
 * power) is reported as `Unmodelled` rather than computed.
 */
module Values {
  import opened Wrappers
  import opened Tokens
  import opened Syntax
  import opened Scopes
  import opened Numerals

  /** A runtime value. `VList` and `VObject` hold the index of their storage;
      a `VFunction` holds the table it runs under (its context); a `VBuiltIn`
      holds the list it is bound to, for the list methods. */
  datatype Value =
    | VNumber(n: int)
    | VString(s: string)
    | VBoolean(b: bool)
    | VNull
    | VList(list: nat)
    | VObject(obj: nat)
    | VFunction(name: string, params: seq<string>, body: Node, autoReturn: bool, context: nat)
    | VBuiltIn(name: string, receiver: Option<nat>)

  /** Why an evaluation stopped without a value. */
  datatype Fault =
    | Error(msg: string)                // an `RTError` with its message
    | NotAnObject(found: Option<Value>) // the `RTError` "'<found>' is not a object"
    | Crash(reason: string)             // a Python exception the interpreter lets escape
    | Unmodelled(what: string)          // floating point, console I/O, imports
    | OutOfFuel                         // the evaluation bound was reached

  /** A symbol table of the store: its own map and the index of its parent. */
  datatype Scope = Scope(symbols: map<string, Option<Value>>, parent: Option<nat>)

  datatype Store = Store(tables: seq<Scope>, lists: seq<seq<Value>>, objects: seq<map<string, Value>>)

  /** A value and the store after the operation that produced it, or a fault. */
  type Answer = Outcome<(Value, Store), Fault>

  // ---------------------------------------------------------------- the store

  /** The symbol maps from table `t` up to the root. A parent always precedes
      its child in the store, which is what makes the walk finite. */
  function ChainOf(st: Store, t: nat): (c: Chain<Value>)
    ensures t < |st.tables| ==> c != [] && c[0] == st.tables[t].symbols
    decreases t
  {
    if t >= |st.tables| then []
    else
      var scope := st.tables[t];
      [scope.symbols] + (if scope.parent.Some? && scope.parent.value < t then ChainOf(st, scope.parent.value) else [])
  }

  /** `context.symbol_table.get(name)`. */
  function Get(st: Store, t: nat, name: string): Option<Value>
  {
    Lookup(ChainOf(st, t), name)
  }

  /** `context.symbol_table.set(name, value)`. */
  function Bind(st: Store, t: nat, name: string, v: Value): (r: Store)
    ensures |r.tables| == |st.tables| && r.lists == st.lists && r.objects == st.objects
    ensures t < |st.tables| ==>
      r.tables[t] == st.tables[t].(symbols := st.tables[t].symbols[name := Some(v)])
    ensures forall u :: 0 <= u < |st.tables| && u != t ==> r.tables[u] == st.tables[u]
  {
    if t < |st.tables| then
      st.(tables := st.tables[t := st.tables[t].(symbols := st.tables[t].symbols[name := Some(v)])])
    else st
  }

  /** A new empty table under `parent`. */
  function NewTable(st: Store, parent: nat): (r: (nat, Store))
    ensures r.0 == |st.tables| && r.1.tables == st.tables + [Scope(map[], Some(parent))]
    ensures r.1.lists == st.lists && r.1.objects == st.objects
  {
    (|st.tables|, st.(tables := st.tables + [Scope(map[], Some(parent))]))
  }

  /** A new list holding `elements`. */
  function NewList(st: Store, elements: seq<Value>): (r: (Value, Store))
    ensures r.0 == VList(|st.lists|) && r.1.lists == st.lists + [elements]
    ensures r.1.tables == st.tables && r.1.objects == st.objects
  {
    (VList(|st.lists|), st.(lists := st.lists + [elements]))
  }

  /** A new object holding `elements`. */
  function NewObject(st: Store, elements: map<string, Value>): (r: (Value, Store))
    ensures r.0 == VObject(|st.objects|) && r.1.objects == st.objects + [elements]
    ensures r.1.tables == st.tables && r.1.lists == st.lists
  {
    (VObject(|st.objects|), st.(objects := st.objects + [elements]))
  }

  const Dangling := Crash("reference outside the store")

  /** `st'` is `st` with at most one list appended. */
  predicate StoreGrows(st: Store, st': Store)
  {
    st'.tables == st.tables && st'.objects == st.objects
    && |st.lists| <= |st'.lists| <= |st.lists| + 1 && st'.lists[..|st.lists|] == st.lists
  }

  // ------------------------------------------------------------ value basics

  /** `type(v).__name__`, as error messages print it. */
  function TypeName(v: Value): string
  {
    match v
    case VNumber(_) => "Number"
    case VString(_) => "String"
    case VBoolean(_) => "Boolean"
    case VNull => "Null"
    case VList(_) => "List"
    case VObject(_) => "Object"
    case VFunction(_, _, _, _, _) => "Function"
    case VBuiltIn(_, _) => "BuiltInFunction"
  }

  /** `is_true()`: null is false, a Boolean is its value, a String is true when
      non-empty; the default of `Type` makes every other value true. */
  predicate Truthy(v: Value)
  {
    match v
    case VNull => false
    case VBoolean(b) => b
    case VString(s) => |s| > 0
    case _ => true
  }

  /** What a value's `.value` field holds, as Python sees it. */
  datatype Payload = PInt(i: int) | PStr(s: string) | PBool(b: bool) | PNone

  /** `.value`: lists, objects and functions never set it, so it stays `None`. */
  function PayloadOf(v: Value): (p: Payload)
    ensures p.PNone? <==> !(v.VNumber? || v.VString? || v.VBoolean?)
  {
    match v
    case VNumber(n) => PInt(n)
    case VString(s) => PStr(s)
    case VBoolean(b) => PBool(b)
    case _ => PNone
  }

  /** Python `==` on payloads: a bool counts as the integer 0 or 1. */
  predicate PyEq(a: Payload, b: Payload)
  {
    if a.PBool? && b.PInt? then (if a.b then 1 else 0) == b.i
    else if a.PInt? && b.PBool? then a.i == (if b.b then 1 else 0)
    else a == b
  }

  /** `str(other.value)` as `String.added_to` uses it. */
  function PayloadText(p: Payload): string
  {
    match p
    case PInt(i) => IntToString(i)
    case PStr(s) => s
    case PBool(b) => if b then "True" else "False"
    case PNone => "None"
  }

  /** `set_context(context)`: only a function's context matters to evaluation. */
  function WithContext(v: Value, t: nat): (r: Value)
    ensures v.VFunction? ==> r == v.(context := t)
    ensures !v.VFunction? ==> r == v
  {
    if v.VFunction? then v.(context := t) else v
  }

  /** The `copy()` each class defines, AS WRITTEN: `Null.copy` calls `Null(value)`
      although `Null()` takes no argument, so copying null raises a `TypeError`. */
  function CopyAsWritten(v: Value, st: Store): (r: Answer)
    ensures v.VNull? ==> r.Failure? && r.error.Crash?
    ensures !v.VNull? ==> r == Copy(v, st)
  {
    if v.VNull? then Failure(Crash("TypeError: Null.__init__() takes 1 positional argument but 2 were given"))
    else Copy(v, st)
  }

  /** `copy()` as evidently intended: a list gets a new buffer with the same
      elements (a shallow copy), an object shares its element map, and every
      other value, null included, is copied as it is. */
  function Copy(v: Value, st: Store): (r: Answer)
    ensures r.Success? ==> !v.VList? ==> r.value == (v, st)
    ensures v.VList? ==> (r.Success? <==> v.list < |st.lists|)
    ensures v.VList? && r.Success? ==>
      r.value.0 == VList(|st.lists|) && r.value.1.lists == st.lists + [st.lists[v.list]]
      && r.value.1.tables == st.tables && r.value.1.objects == st.objects
    ensures !v.VList? ==> r.Success?
  {
    match v
    case VList(l) => if l < |st.lists| then Success(NewList(st, st.lists[l])) else Failure(Dangling)
    case _ => Success((v, st))
  }

  /** A copy reads the same as its original: same type, same truthiness, same
      payload, and for a list the same elements. */
  lemma CopyPreserves(v: Value, st: Store)
    requires v.VList? ==> v.list < |st.lists|
    ensures Copy(v, st).Success?
    ensures var (c, st') := Copy(v, st).value;
      TypeName(c) == TypeName(v) && Truthy(c) == Truthy(v) && PayloadOf(c) == PayloadOf(v)
      && (v.VList? ==> c.VList? && c.list < |st'.lists| && st'.lists[c.list] == st.lists[v.list])
  {
  }

  /** The two copies differ exactly on null. */
  lemma CopyAsWrittenOnlyDiffersOnNull(v: Value, st: Store)
    ensures CopyAsWritten(v, st) != Copy(v, st) <==> v.VNull?
  {
  }

  // ------------------------------------------------------------- operators

  const DivisionByZero := Error("Division by zero")
  const DivisionByNull := Error("Division by null")
  const RemoveOutOfBounds :=
    Error("Element at this index could not be removed from list because index is out of bounds.")
  const RetrieveOutOfBounds :=
    Error("Element at this index could not be retrived from list because index is out of bounds.")
  const FloatResult := Unmodelled("floating-point result")

  /** `illegal_operation(other)`: the error names the type of the right operand. */
  function Illegal(other: Value): Fault
  {
    Error("Can't do this operation with the type " + TypeName(other))
  }

  /** A Python list index: a negative index counts from the end. */
  function PyIndex(i: int, length: nat): (r: Option<nat>)
    ensures r.Some? <==> -(length as int) <= i < length
    ensures r.Some? ==> r.value < length && (r.value == i || r.value == i + length)
  {
    if 0 <= i < length then Some(i)
    else if -(length as int) <= i < 0 then Some(i + length)
    else None
  }

  /** `s * k` on a Python string: `k` copies, none when `k <= 0`. */
  function Repeat(s: string, k: int): (r: string)
    ensures |r| == if k <= 0 then 0 else |s| * k
    decreases k
  {
    if k <= 0 then [] else s + Repeat(s, k - 1)
  }

  function Power(a: int, b: nat): int
    decreases b
  {
    if b == 0 then 1 else a * Power(a, b - 1)
  }

  /** `a ** b` on Python integers: a negative exponent gives a float, or a
      `ZeroDivisionError` on a zero base. */
  function IntPow(a: int, b: int): (r: Outcome<int, Fault>)
    ensures r.Success? <==> b >= 0
  {
    if b >= 0 then Success(Power(a, b))
    else if a == 0 then Failure(Crash("ZeroDivisionError: 0.0 cannot be raised to a negative power"))
    else Failure(FloatResult)
  }

  function Gives(v: Value, st: Store): Answer { Success((v, st)) }
  function Number(n: int, st: Store): Answer { Success((VNumber(n), st)) }
  function StringResult(s: string, st: Store): Answer { Success((VString(s), st)) }
  function Truth(b: bool, st: Store): Answer { Success((VBoolean(b), st)) }

  /** `added_to`. Like the other operators, it changes the store at most by
      allocating the list it returns. */
  function AddedTo(left: Value, right: Value, st: Store): (r: Answer)
    ensures r.Success? ==> StoreGrows(st, r.value.1)
  {
    match left
    case VNumber(a) =>
      (match right
       case VNumber(b) => Number(a + b, st)
       case VNull => Number(a, st)
       case VString(s) => StringResult(IntToString(a) + s, st)
       case _ => Failure(Illegal(right)))
    case VString(s) =>
      (match right
       case VBoolean(_) => Failure(Crash("TypeError: the keyword table is not subscriptable"))
       case VNull => StringResult(s + KwNull, st)
       case _ => StringResult(s + PayloadText(PayloadOf(right)), st))
    case VBoolean(_) =>
      if right.VString? then Failure(Crash("TypeError: the keyword table is not subscriptable"))
      else Failure(Illegal(right))
    case VNull =>
      (match right
       case VNumber(b) => Number(b, st)
       case VString(s) => StringResult(KwNull + s, st)
       case _ => Failure(Illegal(right)))
    case VList(l) =>
      if l < |st.lists| then Success(NewList(st, st.lists[l] + [right])) else Failure(Dangling)
    case _ => Failure(Illegal(right))
  }

  /** `subbed_by`. */
  function SubbedBy(left: Value, right: Value, st: Store): (r: Answer)
    ensures r.Success? ==> StoreGrows(st, r.value.1)
  {
    match left
    case VNumber(a) =>
      (match right
       case VNumber(b) => Number(a - b, st)
       case VNull => Number(a, st)
       case _ => Failure(Illegal(right)))
    case VNull =>
      if right.VNumber? then Number(-right.n, st) else Failure(Illegal(right))
    case VList(l) =>
      if !right.VNumber? then Failure(Illegal(right))
      else if l >= |st.lists| then Failure(Dangling)
      else
        var elements := st.lists[l];
        (match PyIndex(right.n, |elements|)
         case None => Failure(RemoveOutOfBounds)
         case Some(k) => Success(NewList(st, elements[..k] + elements[k + 1..])))
    case _ => Failure(Illegal(right))
  }

  /** `multed_by`. */
  function MultedBy(left: Value, right: Value, st: Store): (r: Answer)
    ensures r.Success? ==> StoreGrows(st, r.value.1)
  {
    match left
    case VNumber(a) =>
      (match right
       case VNumber(b) => Number(a * b, st)
       case VNull => Number(0, st)
       case _ => Failure(Illegal(right)))
    case VString(s) =>
      if right.VNumber? then StringResult(Repeat(s, right.n), st) else Failure(Illegal(right))
    case VNull =>
      if right.VNumber? then Number(0, st) else Failure(Illegal(right))
    case VList(l) =>
      if !right.VList? then Failure(Illegal(right))
      else if l >= |st.lists| || right.list >= |st.lists| then Failure(Dangling)
      else Success(NewList(st, st.lists[l] + st.lists[right.list]))
    case _ => Failure(Illegal(right))
  }

  /** `dived_by`: division by zero and by null are errors; any other division of
      numbers is Python's true division, whose float result is not modelled. */
  function DivedBy(left: Value, right: Value, st: Store): (r: Answer)
    ensures r.Success? ==> r.value.1 == st
  {
    match left
    case VNumber(_) =>
      (match right
       case VNumber(b) => if b == 0 then Failure(DivisionByZero) else Failure(FloatResult)
       case VNull => Failure(DivisionByNull)
       case _ => Failure(Illegal(right)))
    case VNull =>
      if !right.VNumber? then Failure(Illegal(right))
      else if right.n == 0 then Failure(DivisionByZero)
      else Failure(FloatResult)
    case VList(l) =>
      if !right.VNumber? then Failure(Illegal(right))
      else if l >= |st.lists| then Failure(Dangling)
      else
        var elements := st.lists[l];
        (match PyIndex(right.n, |elements|)
         case None => Failure(RetrieveOutOfBounds)
         case Some(k) => Success((elements[k], st)))
    case _ => Failure(Illegal(right))
  }

  /** `powed_by`: a null exponent is 0 and a null base is 0. */
  function PowedBy(left: Value, right: Value, st: Store): (r: Answer)
    ensures r.Success? ==> r.value.1 == st
  {
    var exponent := if right.VNumber? then right.n else 0;
    if !(right.VNumber? || (left.VNumber? && right.VNull?)) then Failure(Illegal(right))
    else
      match left
      case VNumber(a) =>
        (match IntPow(a, exponent) case Success(p) => Number(p, st) case Failure(f) => Failure(f))
      case VNull =>
        (match IntPow(0, exponent) case Success(p) => Number(p, st) case Failure(f) => Failure(f))
      case _ => Failure(Illegal(right))
  }

  /** The four ordering comparisons. */
  datatype Ordering = Less | Greater | LessEq | GreaterEq

  /** `get_comparison_lt/gt/lte/gte`: defined for two numbers only. */
  function Compare(op: Ordering, left: Value, right: Value, st: Store): (r: Answer)
    ensures r.Success? <==> left.VNumber? && right.VNumber?
    ensures r.Success? ==> r.value.1 == st && r.value.0.VBoolean?
  {
    if left.VNumber? && right.VNumber? then
      var a, b := left.n, right.n;
      Truth(match op
            case Less => a < b
            case Greater => a > b
            case LessEq => a <= b
            case GreaterEq => a >= b, st)
    else Failure(Illegal(right))
  }

  /** `get_comparison_eq`: Python `==` of the two payloads. */
  function ComparisonEq(left: Value, right: Value, st: Store): (r: Answer)
    ensures r.Success? && r.value.1 == st && r.value.0.VBoolean?
  {
    Truth(PyEq(PayloadOf(left), PayloadOf(right)), st)
  }

  /** `get_comparison_ne`: Python `!=` of the two payloads. */
  function ComparisonNe(left: Value, right: Value, st: Store): (r: Answer)
    ensures r.Success? && r.value.1 == st && r.value.0.VBoolean?
    ensures r.value.0.b == !ComparisonEq(left, right, st).value.0.b
  {
    Truth(!PyEq(PayloadOf(left), PayloadOf(right)), st)
  }

  /** `anded_by`, `ored_by` and `notted`, through truthiness. */
  function AndedBy(left: Value, right: Value, st: Store): (r: Answer)
    ensures r.Success? && r.value.1 == st && r.value.0.VBoolean?
    ensures r.value.0.b <==> Truthy(left) && Truthy(right)
  {
    Truth(Truthy(right) && Truthy(left), st)
  }

  function OredBy(left: Value, right: Value, st: Store): (r: Answer)
    ensures r.Success? && r.value.1 == st && r.value.0.VBoolean?
    ensures r.value.0.b <==> Truthy(left) || Truthy(right)
  {
    Truth(Truthy(right) || Truthy(left), st)
  }

  function Notted(v: Value, st: Store): (r: Answer)
    ensures r.Success? && r.value.1 == st && r.value.0.VBoolean?
    ensures r.value.0.b <==> !Truthy(v)
  {
    Truth(!Truthy(v), st)
  }

  // ------------------------------------------------ properties of the operators

  /** Two numbers add, subtract and multiply as integers and raise to a
      natural power; a null right operand stands for 0. */
  lemma NumberArithmetic(a: int, b: int, st: Store)
    ensures AddedTo(VNumber(a), VNumber(b), st) == Number(a + b, st)
    ensures SubbedBy(VNumber(a), VNumber(b), st) == Number(a - b, st)
    ensures MultedBy(VNumber(a), VNumber(b), st) == Number(a * b, st)
    ensures b >= 0 ==> PowedBy(VNumber(a), VNumber(b), st) == Number(Power(a, b), st)
    ensures AddedTo(VNumber(a), VNull, st) == Number(a + 0, st)
    ensures SubbedBy(VNumber(a), VNull, st) == Number(a - 0, st)
    ensures MultedBy(VNumber(a), VNull, st) == Number(a * 0, st)
    ensures PowedBy(VNumber(a), VNull, st) == Number(Power(a, 0), st)
  {
  }

  /** A null left operand stands for 0 before a number. */
  lemma NullAsZero(b: int, st: Store)
    ensures AddedTo(VNull, VNumber(b), st) == Number(0 + b, st)
    ensures SubbedBy(VNull, VNumber(b), st) == Number(0 - b, st)
    ensures MultedBy(VNull, VNumber(b), st) == Number(0 * b, st)
    ensures b >= 0 ==> PowedBy(VNull, VNumber(b), st) == Number(Power(0, b), st)
  {
  }

  /** Division fails with "Division by zero" on a zero divisor, with "Division
      by null" on a null one, and is never an integer result. */
  lemma DivisionErrors(left: Value, right: Value, st: Store)
    requires left.VNumber? || left.VNull?
    ensures right == VNumber(0) ==> DivedBy(left, right, st) == Failure(DivisionByZero)
    ensures left.VNumber? && right.VNull? ==> DivedBy(left, right, st) == Failure(DivisionByNull)
    ensures DivedBy(left, right, st).Failure?
  {
  }

  /** Ordering comparisons succeed exactly on two numbers; otherwise the error
      names the right operand's type. */
  lemma ComparisonsNeedNumbers(op: Ordering, left: Value, right: Value, st: Store)
    ensures Compare(op, left, right, st).Success? <==> left.VNumber? && right.VNumber?
    ensures !(left.VNumber? && right.VNumber?) ==>
      Compare(op, left, right, st) == Failure(Error("Can't do this operation with the type " + TypeName(right)))
    ensures left.VNumber? && right.VNumber? ==>
      Compare(op, left, right, st).value.1 == st
      && (Compare(Less, left, right, st).value.0 == VBoolean(left.n < right.n))
      && (Compare(GreaterEq, left, right, st).value.0 == VBoolean(!(left.n < right.n)))
  {
  }

  /** `!=` is the negation of `==`; and since lists, functions, objects and null
      all carry `None`, any two of them compare equal. */
  lemma EqualityOnPayloads(left: Value, right: Value, st: Store)
    ensures ComparisonEq(left, right, st).Success? && ComparisonNe(left, right, st).Success?
    ensures ComparisonNe(left, right, st).value.0.b == !ComparisonEq(left, right, st).value.0.b
    ensures PayloadOf(left).PNone? && PayloadOf(right).PNone? ==>
      ComparisonEq(left, right, st).value.0 == VBoolean(true)
    ensures left.VString? && right.VNumber? ==> ComparisonEq(left, right, st).value.0 == VBoolean(false)
    ensures ComparisonEq(VBoolean(true), VNumber(1), st).value.0 == VBoolean(true)
  {
  }

  /** `==` is symmetric. */
  lemma EqualitySymmetric(left: Value, right: Value)
    ensures PyEq(PayloadOf(left), PayloadOf(right)) == PyEq(PayloadOf(right), PayloadOf(left))
  {
  }

  /** Only null, false and the empty string are false; 0 and empty lists are true. */
  lemma TruthinessTable(v: Value)
    ensures !Truthy(v) <==> v == VNull || v == VBoolean(false) || v == VString("")
    ensures Truthy(VNumber(0))
  {
  }

  /** The values that are false: null, false and the empty string. */
  predicate IsFalse(v: Value)
  {
    v == VNull || v == VBoolean(false) || v == VString("")
  }

  /** `AND` is false exactly when one operand is a false value, `OR` exactly
      when both are, and `NOT` inverts; the store is left as it is. */
  lemma LogicalOperators(left: Value, right: Value, st: Store)
    ensures AndedBy(left, right, st) == Truth(!IsFalse(left) && !IsFalse(right), st)
    ensures OredBy(left, right, st) == Truth(!IsFalse(left) || !IsFalse(right), st)
    ensures Notted(left, st) == Truth(IsFalse(left), st)
  {
    TruthinessTable(left);
    TruthinessTable(right);
  }

  /** String `+` concatenates: another string as it is, a number as its
      numeral, null as its keyword; string `*` repeats the text, and a count
      of zero or less gives the empty string. */
  lemma StringOperators(a: string, b: string, n: int, st: Store)
    ensures AddedTo(VString(a), VString(b), st) == StringResult(a + b, st)
    ensures AddedTo(VString(a), VNumber(n), st) == StringResult(a + IntToString(n), st)
    ensures AddedTo(VString(a), VNull, st) == StringResult(a + "null", st)
    ensures AddedTo(VNumber(n), VString(b), st) == StringResult(IntToString(n) + b, st)
    ensures MultedBy(VString(a), VNumber(n), st) == StringResult(Repeat(a, n), st)
    ensures n <= 0 ==> Repeat(a, n) == ""
    ensures MultedBy(VString(a), VString(b), st) == Failure(Illegal(VString(b)))
  {
  }

  /** `s * k` holds `s` over and over: it begins with `s`, and every
      character equals the one `|s|` places before it. */
  lemma {:induction false} RepeatPeriodic(s: string, k: int)
    ensures k > 0 ==> Repeat(s, k)[..|s|] == s
    ensures forall i :: |s| <= i < |Repeat(s, k)| ==> Repeat(s, k)[i] == Repeat(s, k)[i - |s|]
    decreases k
  {
    if k > 0 {
      RepeatPeriodic(s, k - 1);
      var rest := Repeat(s, k - 1);
      var r := s + rest;
      forall i | |s| <= i < |r| ensures r[i] == r[i - |s|] {
        assert r[i] == rest[i - |s|];
        if i - |s| >= |s| {
          assert r[i - |s|] == rest[i - 2 * |s|];
        } else {
          assert rest[..|s|] == s;
        }
      }
    }
  }

  /** `List + x` makes a new list: the original's elements followed by `x`;
      the original and every other list keep their elements. */
  lemma ListAddAppendsToCopy(l: nat, x: Value, st: Store)
    requires l < |st.lists|
    ensures AddedTo(VList(l), x, st).Success?
    ensures var (r, st') := AddedTo(VList(l), x, st).value;
      r == VList(|st.lists|) && st'.lists[r.list] == st.lists[l] + [x]
      && st'.lists[..|st.lists|] == st.lists && r.list != l
  {
  }

  /** `List - i` removes element `i` from a copy; `List / i` reads element `i`;
      an index outside the list is an error in both; `List * List` concatenates
      into a new list. */
  lemma ListIndexOperations(l: nat, i: int, st: Store)
    requires l < |st.lists|
    ensures var elements := st.lists[l];
      var inRange := -|elements| <= i < |elements|;
      var k := if i < 0 then i + |elements| else i;
      (!inRange ==> SubbedBy(VList(l), VNumber(i), st) == Failure(RemoveOutOfBounds)
                    && DivedBy(VList(l), VNumber(i), st) == Failure(RetrieveOutOfBounds))
      && (inRange ==>
            SubbedBy(VList(l), VNumber(i), st)
              == Gives(VList(|st.lists|), st.(lists := st.lists + [elements[..k] + elements[k + 1..]]))
            && DivedBy(VList(l), VNumber(i), st) == Gives(elements[k], st))
  {
  }

  lemma ListConcatenation(l: nat, m: nat, st: Store)
    requires l < |st.lists| && m < |st.lists|
    ensures MultedBy(VList(l), VList(m), st)
      == Gives(VList(|st.lists|), st.(lists := st.lists + [st.lists[l] + st.lists[m]]))
  {
  }

  // ------------------------------------------------------ calling a function

  /** `"'x' is not defined"`. */
  function NotDefined(name: string): string
  {
    "'" + name + "' is not defined"
  }

  /** The arity check of `Function.execute`: more arguments than parameters,
      then fewer, are errors that say by how much. */
  function ArityFault(name: string, params: seq<string>, args: seq<Value>): (r: Option<Fault>)
    ensures r.None? <==> |args| == |params|
    ensures |args| > |params| ==>
      r == Some(Error(IntToString(|args| - |params|) + " too many args passed into '" + name + "'"))
    ensures |args| < |params| ==>
      r == Some(Error(IntToString(|args|) + ", too few args passed into '" + name + "'"))
  {
    if |args| > |params| then
      Some(Error(IntToString(|args| - |params|) + " too many args passed into '" + name + "'"))
    else if |args| < |params| then
      Some(Error(IntToString(|args|) + ", too few args passed into '" + name + "'"))
    else None
  }

  /** The bindings `Function.execute` adds to the fresh table `t`: parameter k
      names argument k (a later repeated parameter overwriting an earlier one),
      each argument re-homed to `t` by `set_context`. */
  function Bound(symbols: map<string, Option<Value>>, params: seq<string>, args: seq<Value>, t: nat)
    : (m: map<string, Option<Value>>)
    requires |params| == |args|
    ensures forall k :: 0 <= k < |params| && params[k] !in params[k + 1..] ==>
      Own(m, params[k]) == Some(WithContext(args[k], t))
    ensures forall name :: name !in params ==> Own(m, name) == Own(symbols, name)
    decreases |params|
  {
    if params == [] then symbols
    else
      var first := symbols[params[0] := Some(WithContext(args[0], t))];
      var m := Bound(first, params[1..], args[1..], t);
      assert forall k :: 0 <= k < |params| && params[k] !in params[k + 1..] ==>
        Own(m, params[k]) == Some(WithContext(args[k], t))
      by {
        forall k | 0 <= k < |params| && params[k] !in params[k + 1..]
          ensures Own(m, params[k]) == Some(WithContext(args[k], t))
        {
          if k > 0 {
            assert params[k] == params[1..][k - 1] && params[k + 1..] == params[1..][k..];
          }
        }
      }
      m
  }

  /** The binding loop of `Function.execute`, on a symbol table. */
  method BindArguments(table: SymbolTable<Value>, params: seq<string>, args: seq<Value>, t: nat)
    requires table.Valid() && |params| == |args|
    modifies table
    ensures table.Valid()
    ensures table.symbols == Bound(old(table.symbols), params, args, t)
  {
    for i := 0 to |args|
      invariant table.Valid()
      invariant Bound(table.symbols, params[i..], args[i..], t) == Bound(old(table.symbols), params, args, t)
    {
      assert params[i..][1..] == params[i + 1..] && args[i..][1..] == args[i + 1..];
      table.Set(params[i], WithContext(args[i], t));
    }
  }
}
