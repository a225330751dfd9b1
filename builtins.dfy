/**
 * The built-in functions (src/built_in.py) other than console and operating
 * system I/O: the list methods `append`, `pop` and `extend`, which change their
 * receiver list in place, `len`, the `is_*` type tests, the `String`, `Number`
 * and `Boolean` conversions, and the registration of the globals in a table.
 */
module BuiltIns {
  import opened Wrappers
  import opened Tokens
  import opened Scopes
  import opened Numerals
  import opened Values

  // ------------------------------------------------------------- arguments

  /** A parameter of a built-in: its name and whether it may be left out. */
  datatype Param = Param(name: string, optional: bool)

  /** The `arg_names` attribute of each `execute_*` method, or `None` for a name
      without one (`getattr` then falls back to a method without it). */
  function ParamsOf(name: string): Option<seq<Param>>
  {
    if name in {"print", "is_number", "is_string", "is_boolean", "is_null", "is_list",
                "is_function", "append", "len", "String", "Number", "Boolean"}
    then Some([Param("value", false)])
    else if name in {"input", "input_int"} then Some([Param("value", true)])
    else if name == "pop" then Some([Param("index", true)])
    else if name == "extend" then Some([Param("list", false)])
    else if name == "clear" then Some([])
    else None
  }

  /** `check_and_populate_args`, which is not part of this model, taken as the
      arity check of `Function.execute` where a left-out optional parameter
      reads as null. The result lists one value per parameter. */
  function Populate(name: string, params: seq<Param>, args: seq<Value>): (r: Outcome<seq<Value>, Fault>)
    ensures r.Success? ==> |args| <= |params| == |r.value| && r.value[..|args|] == args
    ensures r.Success? <==>
      |args| <= |params| && forall k :: |args| <= k < |params| ==> params[k].optional
  {
    if |args| > |params| then
      Failure(Error(IntToString(|args| - |params|) + " too many args passed into '" + name + "'"))
    else if exists k :: |args| <= k < |params| && !params[k].optional then
      Failure(Error(IntToString(|args|) + ", too few args passed into '" + name + "'"))
    else
      Success(args + seq(|params| - |args|, _ => VNull))
  }

  // ---------------------------------------------------------- list methods

  const PopOutOfBounds :=
    Error("Element at this index could not be removed from list because index is out of bounds")

  /** `execute_append`: the receiver list gets `value` at its end; the result is null. */
  function Append(l: nat, value: Value, st: Store): (r: Answer)
    ensures r.Success? <==> l < |st.lists|
    ensures r.Success? ==>
      r.value.0 == VNull
      && r.value.1 == st.(lists := st.lists[l := st.lists[l] + [value]])
  {
    if l < |st.lists| then Success((VNull, st.(lists := st.lists[l := st.lists[l] + [value]])))
    else Failure(Dangling)
  }

  /** `execute_pop`: null stands for the last index; a non-number index and an
      index outside the list are errors; otherwise the element at the index is
      removed from the receiver and returned. */
  function Pop(l: nat, index: Value, st: Store): (r: Answer)
  {
    if l >= |st.lists| then Failure(Dangling)
    else
      var elements := st.lists[l];
      var i := if index.VNull? then VNumber(|elements| - 1) else index;
      if !i.VNumber? then Failure(Error("First argument must be number"))
      else match PyIndex(i.n, |elements|)
        case None => Failure(PopOutOfBounds)
        case Some(k) => Success((elements[k], st.(lists := st.lists[l := elements[..k] + elements[k + 1..]])))
  }

  /** `execute_extend`: the argument must be a list, whose elements are added,
      in order, at the end of the receiver. */
  function Extend(l: nat, other: Value, st: Store): (r: Answer)
    ensures r.Success? ==> r.value.0 == VNull
    ensures l < |st.lists| && !other.VList? ==> r == Failure(Error("First argument must be list"))
  {
    if l >= |st.lists| then Failure(Dangling)
    else if !other.VList? then Failure(Error("First argument must be list"))
    else if other.list >= |st.lists| then Failure(Dangling)
    else Success((VNull, st.(lists := st.lists[l := st.lists[l] + st.lists[other.list]])))
  }

  // ----------------------------------------------------- pure built-ins

  /** `execute_len`: the element count of a list or the length of a string. */
  function Len(v: Value, st: Store): (r: Outcome<int, Fault>)
    ensures v.VString? ==> r == Success(|v.s|)
    ensures v.VList? && v.list < |st.lists| ==> r == Success(|st.lists[v.list]|)
    ensures !v.VList? && !v.VString? ==> r == Failure(Error("Argument must be list or string"))
  {
    match v
    case VList(l) => if l < |st.lists| then Success(|st.lists[l]|) else Failure(Dangling)
    case VString(s) => Success(|s|)
    case _ => Failure(Error("Argument must be list or string"))
  }

  /** The `is_*` built-ins: whether the value is an instance of the named class
      (`is_function` tests for `BaseFunction`, the base class of the built-ins;
      a user function is a `Function`, which derives from `Type` alone). */
  function IsInstance(test: string, v: Value): bool
  {
    match test
    case "is_number" => v.VNumber?
    case "is_string" => v.VString?
    case "is_boolean" => v.VBoolean?
    case "is_null" => v.VNull?
    case "is_list" => v.VList?
    case _ => v.VBuiltIn?
  }

  /** `execute_Number`: a string is read by `int()`, true is 1 and false is 0;
      anything else is an error. */
  function ToNumber(v: Value): (r: Outcome<int, Fault>)
    ensures v.VBoolean? ==> r == Success(if v.b then 1 else 0)
    ensures v.VString? ==> (r.Success? <==> ParseInt(v.s).Some?)
    ensures v.VString? && r.Success? ==> r.value == ParseInt(v.s).value
    ensures !v.VString? && !v.VBoolean? ==> r == Failure(Error("The argument must be a string or boolean"))
  {
    match v
    case VString(s) =>
      (match ParseInt(s)
       case Some(n) => Success(n)
       case None => Failure(Error("A string argument must contain at least one number")))
    case VBoolean(b) => Success(if b then 1 else 0)
    case _ => Failure(Error("The argument must be a string or boolean"))
  }

  /** `str.lower()` on ASCII letters. */
  function Lower(s: string): (r: string)
    ensures |r| == |s|
    ensures forall k :: 0 <= k < |s| ==> r[k] == if 'A' <= s[k] <= 'Z' then (s[k] as int + 32) as char else s[k]
  {
    seq(|s|, k requires 0 <= k < |s| => if 'A' <= s[k] <= 'Z' then (s[k] as int + 32) as char else s[k])
  }

  /** Python's `part in text` on strings: `part` begins at some position. */
  predicate Contains(text: string, part: string)
    decreases |text|
  {
    part <= text || (text != [] && Contains(text[1..], part))
  }

  /** A text contains whatever one of its suffixes begins with. */
  lemma {:induction false} ContainsAfter(before: string, after: string, part: string)
    requires part <= after
    ensures Contains(before + after, part)
    decreases |before|
  {
    if before != [] {
      assert (before + after)[1..] == before[1..] + after;
      ContainsAfter(before[1..], after, part);
    }
  }

  /** `execute_Boolean`: a string is true when its lower-cased text contains
      "true"; a number is true when it equals 1; anything else is an error. */
  function ToBoolean(v: Value): (r: Outcome<bool, Fault>)
    ensures v.VNumber? ==> r == Success(v.n == 1)
    ensures v.VString? ==> r == Success(Contains(Lower(v.s), "true"))
    ensures !v.VString? && !v.VNumber? ==> r == Failure(Error("The argument must be a string or number"))
  {
    match v
    case VString(s) => Success(Contains(Lower(s), "true"))
    case VNumber(n) => Success(n == 1)
    case _ => Failure(Error("The argument must be a string or number"))
  }

  /** `str(value)`, which for every value class is its `__repr__`: a string is
      quoted and a list shows its elements between brackets. The bound `fuel`
      limits the nesting of lists; objects are not part of this model. */
  function Repr(v: Value, st: Store, fuel: nat): (r: Outcome<string, Fault>)
    ensures v.VNumber? ==> r == Success(IntToString(v.n))
    ensures v.VString? ==> r == Success("\"" + v.s + "\"")
    ensures v.VBoolean? ==> r == Success(if v.b then "True" else "False")
    ensures v.VNull? ==> r == Success("null")
    ensures v.VFunction? ==> r == Success("<function " + v.name + ">")
    ensures v.VBuiltIn? ==> r == Success("<built-in function " + v.name + ">")
    ensures v.VList? && r.Success? ==> |r.value| >= 2 && r.value[0] == '[' && r.value[|r.value| - 1] == ']'
    ensures v.VObject? ==> r.Failure?
    decreases fuel, 0
  {
    match v
    case VNumber(n) => Success(IntToString(n))
    case VString(s) => Success("\"" + s + "\"")
    case VBoolean(b) => Success(if b then "True" else "False")
    case VNull => Success(KwNull)
    case VList(l) =>
      if l >= |st.lists| then Failure(Dangling)
      else if fuel == 0 then Failure(OutOfFuel)
      else
        (match ReprElements(st.lists[l], st, fuel - 1)
         case Success(inner) => Success("[" + inner + "]")
         case Failure(f) => Failure(f))
    case VObject(_) => Failure(Unmodelled("the text of an object"))
    case VFunction(name, _, _, _, _) => Success("<function " + name + ">")
    case VBuiltIn(name, _) => Success("<built-in function " + name + ">")
  }

  /** `", ".join(str(x) for x in elements)`. */
  function ReprElements(elements: seq<Value>, st: Store, fuel: nat): Outcome<string, Fault>
    decreases fuel, 1 + |elements|
  {
    if elements == [] then Success("")
    else match Repr(elements[0], st, fuel)
      case Failure(f) => Failure(f)
      case Success(first) =>
        if |elements| == 1 then Success(first)
        else
          match ReprElements(elements[1..], st, fuel)
          case Failure(f) => Failure(f)
          case Success(rest) => Success(first + ", " + rest)
  }

  /** `", ".join(texts)`: the texts in order, a comma and a space between
      neighbours. */
  function CommaJoined(texts: seq<string>): string
  {
    if texts == [] then ""
    else if |texts| == 1 then texts[0]
    else texts[0] + ", " + CommaJoined(texts[1..])
  }

  /** The texts of `elements`, one per element, in order. */
  function ElementTexts(elements: seq<Value>, st: Store, fuel: nat): (r: seq<string>)
    requires forall k :: 0 <= k < |elements| ==> Repr(elements[k], st, fuel).Success?
    ensures |r| == |elements|
    ensures forall k :: 0 <= k < |elements| ==> r[k] == Repr(elements[k], st, fuel).value
  {
    if elements == [] then []
    else [Repr(elements[0], st, fuel).value] + ElementTexts(elements[1..], st, fuel)
  }

  /** The element loop of `List.__repr__` joins the element texts. */
  lemma {:induction false} ReprElementsJoins(elements: seq<Value>, st: Store, fuel: nat)
    requires forall k :: 0 <= k < |elements| ==> Repr(elements[k], st, fuel).Success?
    ensures ReprElements(elements, st, fuel) == Success(CommaJoined(ElementTexts(elements, st, fuel)))
    decreases |elements|
  {
    if |elements| > 1 {
      ReprElementsJoins(elements[1..], st, fuel);
      assert ElementTexts(elements, st, fuel)[1..] == ElementTexts(elements[1..], st, fuel);
    }
  }

  /** A list of any length prints its elements' texts between brackets,
      separated by a comma and a space: `[]`, `[a]`, `[a, b]`, … */
  lemma ReprOfList(l: nat, st: Store, fuel: nat)
    requires l < |st.lists| && fuel > 0
    requires forall k :: 0 <= k < |st.lists[l]| ==> Repr(st.lists[l][k], st, fuel - 1).Success?
    ensures Repr(VList(l), st, fuel) ==
      Success("[" + CommaJoined(ElementTexts(st.lists[l], st, fuel - 1)) + "]")
  {
    ReprElementsJoins(st.lists[l], st, fuel - 1);
  }

  /** `Number(String(n)) == n` for every integer `n`. */
  lemma NumberOfStringRoundTrip(n: int, st: Store, fuel: nat)
    ensures Repr(VNumber(n), st, fuel).Success?
    ensures ToNumber(VString(Repr(VNumber(n), st, fuel).value)) == Success(n)
  {
    IntToStringRoundTrip(n);
  }

  /** `Number` and `Boolean` undo each other on the booleans. */
  lemma BooleanOfNumberRoundTrip(b: bool)
    ensures ToNumber(VBoolean(b)).Success?
    ensures ToBoolean(VNumber(ToNumber(VBoolean(b)).value)) == Success(b)
  {
  }

  /** `Boolean` reads "true" in any letter case, anywhere in the string. */
  lemma BooleanOfTrueText(prefix: string, word: string, suffix: string)
    requires |word| == 4 && Lower(word) == "true"
    ensures ToBoolean(VString(prefix + word + suffix)) == Success(true)
  {
    var s := prefix + word + suffix;
    var k := |prefix|;
    assert Lower(s) == Lower(prefix) + (Lower(word) + Lower(suffix));
    ContainsAfter(Lower(prefix), Lower(word) + Lower(suffix), "true");
  }

  /** Each `is_*` built-in answers true for exactly one class of values, and the
      tests exclude one another; objects and user functions pass none of them. */
  lemma TypeTestsPartition(v: Value)
    ensures IsInstance("is_number", v) <==> v.VNumber?
    ensures IsInstance("is_string", v) <==> v.VString?
    ensures IsInstance("is_boolean", v) <==> v.VBoolean?
    ensures IsInstance("is_null", v) <==> v.VNull?
    ensures IsInstance("is_list", v) <==> v.VList?
    ensures IsInstance("is_function", v) <==> v.VBuiltIn?
    ensures v.VObject? || v.VFunction? <==>
      forall test :: test in TypeTests ==> !IsInstance(test, v)
  {
    assert "is_number" in TypeTests && "is_string" in TypeTests && "is_boolean" in TypeTests;
    assert "is_null" in TypeTests && "is_list" in TypeTests && "is_function" in TypeTests;
  }

  const TypeTests: set<string> := {"is_number", "is_string", "is_boolean", "is_null", "is_list", "is_function"}

  /** `pop` with no index removes and returns the last element. */
  lemma PopDefaultsToLast(l: nat, st: Store)
    requires l < |st.lists| && st.lists[l] != []
    ensures var elements := st.lists[l];
      Pop(l, VNull, st)
        == Success((elements[|elements| - 1], st.(lists := st.lists[l := elements[..|elements| - 1]])))
  {
    var elements := st.lists[l];
    assert elements[..|elements| - 1] + elements[|elements|..] == elements[..|elements| - 1];
  }

  /** A successful `pop` returns the element at the index and leaves the
      receiver one shorter, with the other elements in order; every other
      list, table and object is unchanged. */
  lemma PopShrinks(l: nat, index: Value, st: Store)
    requires l < |st.lists|
    ensures var r := Pop(l, index, st);
      r.Success? ==>
        var (element, st') := r.value;
        var elements := st.lists[l];
        |st'.lists| == |st.lists| && |st'.lists[l]| == |elements| - 1
        && (exists k :: 0 <= k < |elements| && element == elements[k]
                        && st'.lists[l] == elements[..k] + elements[k + 1..])
        && st'.tables == st.tables && st'.objects == st.objects
        && forall m :: 0 <= m < |st.lists| && m != l ==> st'.lists[m] == st.lists[m]
  {
  }

  /** A `pop` fails exactly when the index is neither null nor a number, or
      lies outside the list. */
  lemma PopFailures(l: nat, index: Value, st: Store)
    requires l < |st.lists|
    ensures var n := |st.lists[l]|;
      Pop(l, index, st).Failure? <==>
        !(index.VNull? || index.VNumber?)
        || (index.VNumber? && !(-(n as int) <= index.n < n))
        || (index.VNull? && n == 0)
    ensures !(index.VNull? || index.VNumber?) ==>
      Pop(l, index, st) == Failure(Error("First argument must be number"))
  {
  }

  /** `extend` appends the argument's elements, in order, to the receiver and
      touches nothing else. */
  lemma ExtendAppends(l: nat, other: nat, st: Store)
    requires l < |st.lists| && other < |st.lists|
    ensures var r := Extend(l, VList(other), st);
      r.Success? && r.value.1.lists[l] == st.lists[l] + st.lists[other]
      && forall m :: 0 <= m < |st.lists| && m != l ==> r.value.1.lists[m] == st.lists[m]
  {
  }

  // ----------------------------------------------------------------- calls

  /** `BuiltInFunction.execute`: populate the arguments, then run the method.
      The receiver of a list method is the list it was read from. */
  function Call(name: string, receiver: Option<nat>, args: seq<Value>, st: Store): (r: Answer)
    ensures name in {"print", "input", "input_int", "clear"} && r.Success? ==> false
    ensures r.Success? ==> ParamsOf(name).Some? && Populate(name, ParamsOf(name).value, args).Success?
    ensures r.Success? ==>
      r.value.1.tables == st.tables && r.value.1.objects == st.objects && |r.value.1.lists| == |st.lists|
  {
    match ParamsOf(name)
    case None => Failure(Crash("no execute_" + name + " method"))
    case Some(params) =>
      match Populate(name, params, args)
      case Failure(f) => Failure(f)
      case Success(values) =>
        if name in {"print", "input", "input_int", "clear"} then Failure(Unmodelled("console I/O"))
        else if name in {"append", "pop", "extend"} then
          (if receiver.None? then Failure(Crash("AttributeError: 'NoneType' object has no attribute 'elements'"))
           else if name == "append" then Append(receiver.value, values[0], st)
           else if name == "pop" then Pop(receiver.value, values[0], st)
           else Extend(receiver.value, values[0], st))
        else if name == "len" then
          (match Len(values[0], st) case Success(n) => Number(n, st) case Failure(f) => Failure(f))
        else if name == "Number" then
          (match ToNumber(values[0]) case Success(n) => Number(n, st) case Failure(f) => Failure(f))
        else if name == "Boolean" then
          (match ToBoolean(values[0]) case Success(b) => Truth(b, st) case Failure(f) => Failure(f))
        else if name == "String" then
          (match Repr(values[0], st, |st.lists|) case Success(s) => StringResult(s, st) case Failure(f) => Failure(f))
        else Truth(IsInstance(name, values[0]), st)
  }

  // --------------------------------------------------------------- globals

  /** The names `global_vars` binds, in its order. */
  const GlobalNames: seq<string> :=
    ["math", "print", "input", "input_int", "clear", "is_number", "is_string", "is_boolean",
     "is_null", "is_list", "is_function", "String", "Number", "Boolean", "len"]

  /** The value `global_vars` gives a name: the `math` object (its floating-point
      members are not modelled, so it is any object of the store) or the
      built-in of that name. */
  function GlobalValue(name: string, math: nat): Value
  {
    if name == "math" then VObject(math) else VBuiltIn(name, None)
  }

  /** The table's map after binding the given names in order. */
  function Registered(symbols: map<string, Option<Value>>, names: seq<string>, math: nat): (m: map<string, Option<Value>>)
    ensures m.Keys == symbols.Keys + (set name | name in names)
    ensures forall name :: name in names ==> m[name] == Some(GlobalValue(name, math))
    ensures forall name :: name in symbols && name !in names ==> m[name] == symbols[name]
    decreases |names|
  {
    if names == [] then symbols
    else
      assert forall name :: name in names <==> name == names[0] || name in names[1..];
      Registered(symbols[names[0] := Some(GlobalValue(names[0], math))], names[1..], math)
  }

  /** The table's map after removing the given names. */
  function Unregistered(symbols: map<string, Option<Value>>, names: seq<string>): (m: map<string, Option<Value>>)
    ensures m.Keys == symbols.Keys - (set name | name in names)
    ensures forall name :: name in m ==> m[name] == symbols[name]
    decreases |names|
  {
    if names == [] then symbols
    else
      assert forall name :: name in names <==> name == names[0] || name in names[1..];
      Unregistered(symbols - {names[0]}, names[1..])
  }

  /** The loop of `register_var`: each name, in order, is bound in the table's
      own scope to its global value. */
  method BindGlobals(table: SymbolTable<Value>, names: seq<string>, math: nat)
    requires table.Valid()
    modifies table
    ensures table.Valid()
    ensures table.symbols == Registered(old(table.symbols), names, math)
  {
    for i := 0 to |names|
      invariant table.Valid()
      invariant Registered(table.symbols, names[i..], math) == Registered(old(table.symbols), names, math)
    {
      assert names[i..][1..] == names[i + 1..];
      table.Set(names[i], GlobalValue(names[i], math));
    }
  }

  /** `register_var`: every global is bound in the table's own scope. */
  method RegisterVar(table: SymbolTable<Value>, math: nat)
    requires table.Valid()
    modifies table
    ensures table.Valid()
    ensures table.symbols == Registered(old(table.symbols), GlobalNames, math)
  {
    BindGlobals(table, GlobalNames, math);
  }

  /** Whether removing the names in order never meets a missing one. */
  predicate Removable(symbols: map<string, Option<Value>>, names: seq<string>)
    decreases |names|
  {
    names == [] || (names[0] in symbols && Removable(symbols - {names[0]}, names[1..]))
  }

  /** The removals succeed exactly when every name is bound and no name repeats. */
  lemma {:induction false} RemovableMeans(symbols: map<string, Option<Value>>, names: seq<string>)
    ensures Removable(symbols, names) <==>
      forall k :: 0 <= k < |names| ==> names[k] in symbols && names[k] !in names[..k]
    decreases |names|
  {
    if names != [] {
      var rest := names[1..];
      RemovableMeans(symbols - {names[0]}, rest);
      assert forall k :: 1 <= k < |names| ==> names[k] == rest[k - 1] && names[..k] == [names[0]] + rest[..k - 1];
    }
  }

  /** Removing the names in order until one is missing: the map that is left,
      and the name whose removal raised `KeyError`, if any. */
  function RemoveInOrder(symbols: map<string, Option<Value>>, names: seq<string>)
    : (r: (map<string, Option<Value>>, Option<string>))
    ensures r.1.None? <==> Removable(symbols, names)
    ensures r.1.None? ==> r.0 == Unregistered(symbols, names)
    ensures r.1.Some? ==> r.1.value in names && r.1.value !in r.0
    ensures r.0.Keys <= symbols.Keys
    decreases |names|
  {
    if names == [] then (symbols, None)
    else if names[0] !in symbols then (symbols, Some(names[0]))
    else RemoveInOrder(symbols - {names[0]}, names[1..])
  }

  /** The names a sequence holds. */
  function NamesOf(names: seq<string>): set<string>
  {
    set name | name in names
  }

  /** A removal that fails stops at the first name that is not bound or
      repeats an earlier one; the names before it are gone and every other
      binding stays. */
  lemma {:induction false} RemoveStopsAtMissing(symbols: map<string, Option<Value>>, names: seq<string>, k: nat)
    requires k < |names| && (names[k] !in symbols || names[k] in names[..k])
    requires forall j :: 0 <= j < k ==> names[j] in symbols && names[j] !in names[..j]
    ensures RemoveInOrder(symbols, names) == (symbols - NamesOf(names[..k]), Some(names[k]))
    decreases k
  {
    if k == 0 {
      assert NamesOf(names[..0]) == {};
      assert symbols - {} == symbols;
    } else {
      var rest := names[1..];
      forall j | 0 <= j < k - 1
        ensures rest[j] in symbols - {names[0]} && rest[j] !in rest[..j]
      {
        assert rest[j] == names[j + 1] && names[..j + 1] == [names[0]] + rest[..j];
      }
      assert names[..k] == [names[0]] + rest[..k - 1];
      RemoveStopsAtMissing(symbols - {names[0]}, rest, k - 1);
      assert rest[k - 1] == names[k];
      assert NamesOf(names[..k]) == {names[0]} + NamesOf(rest[..k - 1]);
      assert (symbols - {names[0]}) - NamesOf(rest[..k - 1]) == symbols - NamesOf(names[..k]);
    }
  }

  /** The loop of `unregister_var`: each name, in order, is removed from the
      table's own scope; the first one that is no longer there raises
      `KeyError`, after the earlier ones are gone. */
  method RemoveGlobals(table: SymbolTable<Value>, names: seq<string>) returns (r: Outcome<(), string>)
    requires table.Valid()
    modifies table
    ensures table.Valid()
    ensures r.Success? <==> Removable(old(table.symbols), names)
    ensures r.Success? ==> table.symbols == Unregistered(old(table.symbols), names)
    ensures table.symbols == RemoveInOrder(old(table.symbols), names).0
    ensures r.Failure? ==> r.error == KeyErrorText(RemoveInOrder(old(table.symbols), names).1.value)
  {
    for i := 0 to |names|
      invariant table.Valid()
      invariant RemoveInOrder(table.symbols, names[i..]) == RemoveInOrder(old(table.symbols), names)
    {
      assert names[i..][1..] == names[i + 1..];
      var removed := table.Remove(names[i]);
      if removed.Failure? {
        return removed;
      }
    }
    r := Success(());
  }

  /** `unregister_var`: every global is removed from the table's own scope; the
      first global that is not bound there raises `KeyError`, and the globals
      before it stay removed. */
  method UnregisterVar(table: SymbolTable<Value>) returns (r: Outcome<(), string>)
    requires table.Valid()
    modifies table
    ensures table.Valid()
    ensures r.Success? <==> Removable(old(table.symbols), GlobalNames)
    ensures r.Success? ==> table.symbols == Unregistered(old(table.symbols), GlobalNames)
    ensures table.symbols == RemoveInOrder(old(table.symbols), GlobalNames).0
    ensures r.Failure? ==> r.error == KeyErrorText(RemoveInOrder(old(table.symbols), GlobalNames).1.value)
  {
    r := RemoveGlobals(table, GlobalNames);
  }

  /** Unregistering after registering removes exactly the globals: a table that
      bound none of them before gets its own map back. */
  lemma RegisterThenUnregister(symbols: map<string, Option<Value>>, names: seq<string>, math: nat)
    ensures Unregistered(Registered(symbols, names, math), names) == Unregistered(symbols, names)
    ensures (forall name :: name in names ==> name !in symbols) ==>
      Unregistered(Registered(symbols, names, math), names) == symbols
  {
  }
}
