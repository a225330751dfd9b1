/**
 * The scope chain (src/symbol_table.py). A symbol table owns a map from names
 * to values and may have a parent table that it defers to. A stored value may
 * be Python's `None` (`Option.None` here), which reads as a missing binding.
 */
module Scopes {
  import opened Wrappers

  /** The symbol maps of a table and of its ancestors, own map first. */
  type Chain<V> = seq<map<string, Option<V>>>

  /** The entry a single map gives for `name`: `symbols.get(name, None)`. */
  function Own<V>(symbols: map<string, Option<V>>, name: string): Option<V>
  {
    if name in symbols then symbols[name] else None
  }

  /** `SymbolTable.get` over a whole chain. The own map answers when it holds a
      value for `name`; otherwise the parent is asked; past the root the
      answer is the default `None`. */
  function Lookup<V>(chain: Chain<V>, name: string): (r: Option<V>)
    ensures r.None? <==> forall k :: 0 <= k < |chain| ==> Own(chain[k], name).None?
    ensures r.Some? ==> exists k :: 0 <= k < |chain| && Own(chain[k], name) == r
    decreases |chain|
  {
    if chain == [] then None
    else if Own(chain[0], name).None? then
      assert forall k :: 1 <= k < |chain| ==> chain[k] == chain[1..][k - 1];
      Lookup(chain[1..], name)
    else Own(chain[0], name)
  }

  /** The answer comes from the nearest scope holding a value for the name. */
  lemma {:induction false} LookupNearest<V>(chain: Chain<V>, name: string, k: nat)
    requires k < |chain| && Own(chain[k], name).Some?
    requires forall j :: 0 <= j < k ==> Own(chain[j], name).None?
    ensures Lookup(chain, name) == Own(chain[k], name)
    decreases k
  {
    if k > 0 {
      LookupNearest(chain[1..], name, k - 1);
    }
  }

  /** A name bound to a value in the own map reads as that value. */
  lemma OwnBindingWins<V>(symbols: map<string, Option<V>>, parents: Chain<V>, name: string)
    requires name in symbols && symbols[name].Some?
    ensures Lookup([symbols] + parents, name) == symbols[name]
  {
  }

  /** A name missing from the own map, or bound there to `None`, reads as the
      parents read it; a table without a parent answers `None`. */
  lemma MissingAsksParent<V>(symbols: map<string, Option<V>>, parents: Chain<V>, name: string)
    requires name !in symbols || symbols[name].None?
    ensures Lookup([symbols] + parents, name) == Lookup(parents, name)
    ensures parents == [] ==> Lookup([symbols], name).None?
  {
    assert ([symbols] + parents)[1..] == parents;
  }

  /** After `set(name, v)` the name reads as `v` and every other name reads
      as before, whatever the parents hold. */
  lemma {:induction false} GetAfterSet<V>(chain: Chain<V>, name: string, v: V, other: string)
    requires chain != []
    ensures Lookup([chain[0][name := Some(v)]] + chain[1..], name) == Some(v)
    ensures other != name ==>
      Lookup([chain[0][name := Some(v)]] + chain[1..], other) == Lookup(chain, other)
  {
    var after := [chain[0][name := Some(v)]] + chain[1..];
    assert after[1..] == chain[1..];
  }

  /** After `remove(name)` the name reads as the parents read it and every
      other name reads as before. */
  lemma {:induction false} GetAfterRemove<V>(chain: Chain<V>, name: string, other: string)
    requires chain != []
    ensures Lookup([chain[0] - {name}] + chain[1..], name) == Lookup(chain[1..], name)
    ensures other != name ==>
      Lookup([chain[0] - {name}] + chain[1..], other) == Lookup(chain, other)
  {
    var after := [chain[0] - {name}] + chain[1..];
    assert after[1..] == chain[1..];
  }

  /** The text of the `KeyError` that `del` raises for a missing `name`, which
      Python writes with the key in quotes. */
  function KeyErrorText(name: string): string
  {
    "KeyError: '" + name + "'"
  }

  /** `SymbolTable`: its own symbols, updated in place, and a parent table
      fixed at construction. `Ancestors` is the set of tables up the chain. */
  class SymbolTable<V> {
    var symbols: map<string, Option<V>>
    const parent: SymbolTable?<V>
    ghost const Ancestors: set<SymbolTable<V>>
    ghost const depth: nat

    ghost predicate Valid()
      reads this, Ancestors
      decreases depth
    {
      this !in Ancestors
      && (parent == null ==> Ancestors == {} && depth == 0)
      && (parent != null ==>
            parent in Ancestors && Ancestors == {parent} + parent.Ancestors
            && parent.depth < depth && parent.Valid())
    }

    /** The symbol maps from this table up to the root. */
    ghost function Scopes(): (c: Chain<V>)
      reads this, Ancestors
      requires Valid()
      ensures c != [] && c[0] == symbols
      decreases depth
    {
      [symbols] + if parent == null then [] else parent.Scopes()
    }

    /** `SymbolTable(parent)`: a table with no symbols of its own. */
    constructor (parent: SymbolTable?<V>)
      requires parent != null ==> parent.Valid()
      ensures Valid() && symbols == map[] && this.parent == parent
      ensures Scopes() == [map[]] + (if parent == null then [] else parent.Scopes())
    {
      symbols := map[];
      this.parent := parent;
      Ancestors := if parent == null then {} else {parent} + parent.Ancestors;
      depth := if parent == null then 0 else parent.depth + 1;
    }

    /** `get(name)`: the own value unless it is missing, else the parent's answer. */
    function Get(name: string): (r: Option<V>)
      reads this, Ancestors
      requires Valid()
      ensures r == Lookup(Scopes(), name)
      decreases depth
    {
      var value := Own(symbols, name);
      if value.None? && parent != null then
        assert Scopes()[1..] == parent.Scopes();
        parent.Get(name)
      else
        value
    }

    /** `set(name, value)`: overwrite the own binding; parents are untouched. */
    method Set(name: string, value: V)
      requires Valid()
      modifies this
      ensures Valid()
      ensures symbols == old(symbols)[name := Some(value)]
      ensures Scopes() == [symbols] + old(Scopes())[1..]
    {
      symbols := symbols[name := Some(value)];
    }

    /** `remove(name)`: delete the own binding; a missing name is the `KeyError`
        raised by `del`, and then nothing changes. */
    method Remove(name: string) returns (r: Outcome<(), string>)
      requires Valid()
      modifies this
      ensures Valid()
      ensures r.Failure? <==> name !in old(symbols)
      ensures r.Failure? ==> r.error == KeyErrorText(name)
      ensures symbols == old(symbols) - {name}
      ensures Scopes() == [symbols] + old(Scopes())[1..]
    {
      if name !in symbols {
        return Failure(KeyErrorText(name));
      }
      symbols := symbols - {name};
      r := Success(());
    }
  }
}
