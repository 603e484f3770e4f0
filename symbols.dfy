/**
 * The symbol table: a map from names to SymbolInfo records for one scope,
 * with an optional link to an enclosing scope that lookup falls back to.
 */
module Symbols {
  import opened Wrappers

  /**
   * What is recorded about a name. `arrayLength` is -1 for a non-array;
   * `returnType` and `paramTypes` are filled in for functions only.
   */
  datatype SymbolInfo = SymbolInfo(
    name: string,
    typ: string,
    isLocal: bool,
    arrayLength: int,
    returnType: Option<string>,
    paramTypes: seq<string>,
    localVarCount: int)

  /** A fresh record with the defaults of the record's constructor. */
  function NewInfo(name: string, typ: string): (r: SymbolInfo)
    ensures r.name == name && r.typ == typ && r.isLocal
    ensures r.arrayLength == -1 && r.returnType == None && r.paramTypes == [] && r.localVarCount == 0
  {
    SymbolInfo(name, typ, true, -1, None, [], 0)
  }

  /** The record the scanner stores for an identifier it has not seen before: type "unknown", the other fields defaulted. */
  function Unknown(name: string): (r: SymbolInfo)
    ensures r.name == name && r.typ == "unknown" && r.isLocal
    ensures r.arrayLength == -1 && r.returnType == None && r.paramTypes == [] && r.localVarCount == 0
  {
    NewInfo(name, "unknown")
  }

  /** The built-in `read`: a function returning "any" and taking ["void"]. */
  function ReadInfo(): (r: SymbolInfo)
    ensures r.name == "read" && r.typ == "function" && r.isLocal
    ensures r.returnType == Some("any") && r.paramTypes == ["void"]
    ensures r.arrayLength == -1 && r.localVarCount == 0
  {
    NewInfo("read", "function").(returnType := Some("any"), paramTypes := ["void"])
  }

  /** The built-in `write`: a function returning "void" and taking ["any"]. */
  function WriteInfo(): (r: SymbolInfo)
    ensures r.name == "write" && r.typ == "function" && r.isLocal
    ensures r.returnType == Some("void") && r.paramTypes == ["any"]
    ensures r.arrayLength == -1 && r.localVarCount == 0
  {
    NewInfo("write", "function").(returnType := Some("void"), paramTypes := ["any"])
  }

  /** The global scope's contents before any scanning. */
  function BuiltIns(): (m: map<string, SymbolInfo>)
    ensures m.Keys == {"read", "write"}
    ensures forall n | n in m :: m[n].typ == "function" && m[n].name == n
    ensures m["read"].returnType == Some("any") && m["read"].paramTypes == ["void"]
    ensures m["write"].returnType == Some("void") && m["write"].paramTypes == ["any"]
  {
    map[]["read" := ReadInfo()]["write" := WriteInfo()]
  }

  class SymbolTable {
    var symbols: map<string, SymbolInfo>
    var parent: SymbolTable?
    const name: string
    /** This scope and every scope on its parent chain. */
    ghost var Repr: set<object>

    /** The parent chain is finite and acyclic. */
    ghost predicate Valid()
      reads this, Repr
      decreases Repr
    {
      this in Repr &&
      (parent != null ==>
        parent in Repr && parent.Repr <= Repr && this !in parent.Repr && parent.Valid())
    }

    /** Every name visible from this scope, an inner entry hiding an outer one. */
    ghost function Scope(): map<string, SymbolInfo>
      reads this, Repr
      requires Valid()
      decreases Repr
    {
      if parent == null then symbols else parent.Scope() + symbols
    }

    constructor (name: string)
      ensures Valid() && fresh(Repr) && Repr == {this}
      ensures symbols == map[] && parent == null && this.name == name
    {
      symbols := map[];
      parent := null;
      this.name := name;
      Repr := {this};
    }

    /** Stores `info` under `name` in this scope, replacing any entry there. */
    method Insert(name: string, info: SymbolInfo)
      requires Valid()
      modifies this`symbols
      ensures Valid()
      ensures symbols == old(symbols)[name := info]
      ensures Scope() == old(Scope())[name := info]
      ensures Lookup(name) == Some(info)
      ensures forall n | n != name :: Lookup(n) == old(Lookup(n))
    {
      symbols := symbols[name := info];
    }

    /** This scope's entry for `name`, else the parent chain's, else None. */
    function Lookup(name: string): (r: Option<SymbolInfo>)
      reads this, Repr
      requires Valid()
      ensures r.Some? <==> name in Scope()
      ensures r.Some? ==> r.value == Scope()[name]
      ensures name in symbols ==> r == Some(symbols[name])
      decreases Repr
    {
      if name in symbols then Some(symbols[name])
      else if parent != null then parent.Lookup(name)
      else None
    }
  }
}
