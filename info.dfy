/**
 * The symbol information the semantic pass builds: a list of scopes, each
 * with a typed and an untyped symbol table, a counter naming the current
 * parent scope, and the inheritance lists of the primitive types.
 *
 * A scope built without explicit tables gets the default tables of the scope
 * constructor. Python evaluates those defaults once, so every such scope
 * shares the same two table objects; the model makes them two `SymbolTable`
 * objects that the semantic information is given, and every defaulted scope
 * points at them.
 */
module Info {
  import opened Wrappers
  import opened Tokens

  /** What a symbol names. */
  datatype SymbolKind = Variable | Function | Class | Param

  /** What is known of a symbol: its kind, if set, and its path. */
  datatype SymbolInfo = SymbolInfo(kind: Option<SymbolKind>, path: string)

  /** A type's name and the range of its subtypes in the inheritance lists. */
  datatype TypeInfo = TypeInfo(name: string, subtypeRange: (int, int))

  /** A symbol table, a dictionary from names to symbol information that is updated in place. */
  class SymbolTable {
    var entries: map<string, SymbolInfo>

    constructor (entries: map<string, SymbolInfo>)
      ensures this.entries == entries
    {
      this.entries := entries;
    }

    /** `table[name] = info`. */
    method Put(name: string, info: SymbolInfo)
      modifies this
      ensures entries == old(entries)[name := info]
      ensures name in entries && entries[name] == info
    {
      entries := entries[name := info];
    }
  }

  /** A scope: its name, the index of its parent scope, and its two tables. */
  class Scope {
    const name: string
    const parent: int
    const typed: SymbolTable
    const untyped: SymbolTable

    constructor (name: string, parent: int, typed: SymbolTable, untyped: SymbolTable)
      ensures this.name == name && this.parent == parent
      ensures this.typed == typed && this.untyped == untyped
    {
      this.name := name;
      this.parent := parent;
      this.typed := typed;
      this.untyped := untyped;
    }
  }

  /** The names of the primitive types, in the order of their inheritance lists. */
  const PrimitiveNames: seq<string> :=
    ["void", "int", "i8", "i16", "i32", "i64", "uint", "u8", "u16", "u32", "u64", "f32", "f64"]

  /**
   * `get_primitive_types`: one inheritance list per primitive type, each
   * holding that type alone with the subtype range (0, 1).
   */
  function PrimitiveTypes(): (lists: seq<seq<TypeInfo>>)
    ensures |lists| == 13 == |PrimitiveNames|
    ensures forall i :: 0 <= i < |lists| ==> lists[i] == [TypeInfo(PrimitiveNames[i], (0, 1))]
  {
    [
      [TypeInfo("void", (0, 1))],
      [TypeInfo("int", (0, 1))],
      [TypeInfo("i8", (0, 1))],
      [TypeInfo("i16", (0, 1))],
      [TypeInfo("i32", (0, 1))],
      [TypeInfo("i64", (0, 1))],
      [TypeInfo("uint", (0, 1))],
      [TypeInfo("u8", (0, 1))],
      [TypeInfo("u16", (0, 1))],
      [TypeInfo("u32", (0, 1))],
      [TypeInfo("u64", (0, 1))],
      [TypeInfo("f32", (0, 1))],
      [TypeInfo("f64", (0, 1))]
    ]
  }

  /** Each primitive type has its own inheritance list: no name appears twice. */
  lemma PrimitiveNamesDistinct(i: int, j: int)
    requires 0 <= i < j < |PrimitiveNames|
    ensures PrimitiveTypes()[i][0].name != PrimitiveTypes()[j][0].name
  {
    assert PrimitiveNames[i] != PrimitiveNames[j] by {
      assert forall k, m :: 0 <= k < m < |PrimitiveNames| ==> PrimitiveNames[k] != PrimitiveNames[m];
    }
  }

  /** The symbol information of one compilation. */
  class SemanticInfo {
    const tokens: seq<Token>
    var currentPath: string
    var symbols: seq<Scope>
    var currentParentScope: int
    var inheritanceLists: seq<seq<TypeInfo>>
    /** The default tables of the scope constructor, shared by every scope built without tables. */
    const defaultTyped: SymbolTable
    const defaultUntyped: SymbolTable

    /**
     * The layout the operations keep: the top scope first, then `__main__`,
     * then the added scopes; the top scope alone has a typed table of its
     * own, and every other table is a shared default.
     */
    ghost predicate Valid()
      reads this
    {
      && |symbols| >= 2
      && symbols[0].name == "top" && symbols[0].parent == -1
      && symbols[1].name == "__main__" && symbols[1].parent == 0
      && symbols[0].typed != defaultTyped && symbols[0].typed != defaultUntyped
      && defaultTyped != defaultUntyped
      && symbols[0].untyped == defaultUntyped
      && forall i :: 1 <= i < |symbols| ==>
           symbols[i].typed == defaultTyped && symbols[i].untyped == defaultUntyped
    }

    /**
     * `__init__`: the prelude scopes and the primitive types, with `__main__`
     * as the current parent scope.
     */
    constructor (tokens: seq<Token>, defaultTyped: SymbolTable, defaultUntyped: SymbolTable)
      requires defaultTyped != defaultUntyped
      ensures Valid() && |symbols| == 2 && fresh(symbols[0].typed)
      ensures symbols[0].typed.entries == map["__main__" := SymbolInfo(Some(Function), "")]
      ensures this.tokens == tokens && currentPath == "" && currentParentScope == 0
      ensures inheritanceLists == PrimitiveTypes()
      ensures this.defaultTyped == defaultTyped && this.defaultUntyped == defaultUntyped
    {
      this.tokens := tokens;
      currentPath := "";
      this.defaultTyped := defaultTyped;
      this.defaultUntyped := defaultUntyped;
      var prelude := PreludeSymbols(defaultTyped, defaultUntyped);
      symbols := prelude;
      currentParentScope := 0;
      inheritanceLists := PrimitiveTypes();
    }

    /** `exit_scope`: the parent counter goes down by one, with no lower bound. */
    method ExitScope()
      modifies this`currentParentScope
      ensures currentParentScope == old(currentParentScope) - 1
    {
      currentParentScope := currentParentScope - 1;
    }

    /**
     * `add_new_scope`: appends one scope, with the shared default tables and
     * the current parent scope as its parent; the counter stays.
     */
    method AddNewScope(name: string)
      requires Valid()
      modifies this`symbols
      ensures Valid() && |symbols| == |old(symbols)| + 1 && symbols[..|old(symbols)|] == old(symbols)
      ensures fresh(symbols[|symbols| - 1])
      ensures symbols[|symbols| - 1].name == name && symbols[|symbols| - 1].parent == currentParentScope
    {
      var scope := new Scope(name, currentParentScope, defaultTyped, defaultUntyped);
      symbols := symbols + [scope];
    }

    /**
     * `add_new_symbol`: writes into the typed or the untyped table of the
     * last scope. Since that table is a shared default, the symbol shows in
     * the same table of every scope but the top one, and the untyped table of
     * the top one as well.
     */
    method AddNewSymbol(name: string, info: SymbolInfo, typed: bool)
      requires Valid()
      modifies if typed then symbols[|symbols| - 1].typed else symbols[|symbols| - 1].untyped
      ensures Valid() && symbols == old(symbols)
      ensures typed ==> defaultTyped.entries == old(defaultTyped.entries)[name := info]
      ensures !typed ==> defaultUntyped.entries == old(defaultUntyped.entries)[name := info]
      ensures forall i :: 1 <= i < |symbols| ==>
                name in (if typed then symbols[i].typed else symbols[i].untyped).entries
      ensures !typed ==> name in symbols[0].untyped.entries
      ensures symbols[0].typed.entries == old(symbols[0].typed.entries)
    {
      if typed {
        symbols[|symbols| - 1].typed.Put(name, info);
      } else {
        symbols[|symbols| - 1].untyped.Put(name, info);
      }
    }

    /** `add_new_top_level_symbol`: writes into the typed or the untyped table of the top scope. */
    method AddNewTopLevelSymbol(name: string, info: SymbolInfo, typed: bool)
      requires Valid()
      modifies if typed then symbols[0].typed else symbols[0].untyped
      ensures Valid() && symbols == old(symbols)
      ensures typed ==> symbols[0].typed.entries == old(symbols[0].typed.entries)[name := info]
      ensures typed ==> defaultTyped.entries == old(defaultTyped.entries)
      ensures !typed ==> defaultUntyped.entries == old(defaultUntyped.entries)[name := info]
      ensures !typed ==> symbols[0].typed.entries == old(symbols[0].typed.entries)
    {
      if typed {
        symbols[0].typed.Put(name, info);
      } else {
        symbols[0].untyped.Put(name, info);
      }
    }
  }

  /**
   * `get_prelude_symbols`: the top scope, whose typed table of its own holds
   * `__main__` as a function, and the `__main__` scope under it. Both take
   * the shared untyped default, and `__main__` the shared typed one.
   */
  method PreludeSymbols(defaultTyped: SymbolTable, defaultUntyped: SymbolTable) returns (scopes: seq<Scope>)
    ensures |scopes| == 2 && fresh(scopes[0]) && fresh(scopes[1]) && fresh(scopes[0].typed)
    ensures scopes[0].name == "top" && scopes[0].parent == -1
    ensures scopes[0].typed.entries == map["__main__" := SymbolInfo(Some(Function), "")]
    ensures scopes[0].untyped == defaultUntyped
    ensures scopes[1].name == "__main__" && scopes[1].parent == 0
    ensures scopes[1].typed == defaultTyped && scopes[1].untyped == defaultUntyped
  {
    var topTable := new SymbolTable(map["__main__" := SymbolInfo(Some(Function), "")]);
    var top := new Scope("top", -1, topTable, defaultUntyped);
    var main := new Scope("__main__", 0, defaultTyped, defaultUntyped);
    scopes := [top, main];
  }
}
