/** The semantic checks on declarations. */
module Checks {
  import opened Wrappers
  import opened Tokens
  import opened Info

  /** A semantic error: its message and the position it points at. */
  datatype SemanticError = SemanticError(message: string, row: int, column: int)

  /** The text before the parameter name in a duplicate-parameter message. */
  const DuplicateHead: string := "Duplicate parameter name `"

  /** The text between the parameter name and the function name. */
  const DuplicateMiddle: string := "` in function `"

  /** The message of a duplicate parameter `param` in function `func`. */
  function DuplicateMessage(param: string, func: string): (m: string)
    ensures |m| == |DuplicateHead| + |param| + |DuplicateMiddle| + |func| + 1
    ensures m[|DuplicateHead|..|DuplicateHead| + |param|] == param
    ensures m[|DuplicateHead| + |param| + |DuplicateMiddle|..|m| - 1] == func
  {
    var m := DuplicateHead + param + DuplicateMiddle + func + "`";
    assert m[|DuplicateHead|..|DuplicateHead| + |param|] == param;
    assert m[|DuplicateHead| + |param| + |DuplicateMiddle|..|m| - 1] == func;
    m
  }

  /**
   * `param_name_conflict`: an error, at the parameter's row and column,
   * exactly when the parameter's name is already in the scope's typed or
   * untyped table. Nothing is changed.
   */
  function ParamNameConflict(param: Token, func: Token, scope: Scope): (r: Outcome<SemanticError>)
    reads scope.typed, scope.untyped
    ensures r.Fail? <==> param.data in scope.typed.entries || param.data in scope.untyped.entries
    ensures r.Fail? ==> r.error.row == param.row && r.error.column == param.column
    ensures r.Fail? ==> r.error.message == DuplicateMessage(param.data, func.data)
  {
    if param.data in scope.typed.entries || param.data in scope.untyped.entries then
      Fail(SemanticError(DuplicateMessage(param.data, func.data), param.row, param.column))
    else
      Pass
  }

  /** The message of a duplicate can be read back: it names the parameter and the function. */
  lemma DuplicateMessageNames(param: string, func: string, m: string)
    requires m == DuplicateMessage(param, func)
    ensures m[..|DuplicateHead|] == DuplicateHead
    ensures m[|DuplicateHead|..|DuplicateHead| + |param|] == param
    ensures m[|DuplicateHead| + |param| + |DuplicateMiddle|..|m| - 1] == func
  {
    assert m[..|DuplicateHead|] == DuplicateHead;
  }

  /** Two duplicate messages with the same parameter length are equal only for the same names. */
  lemma DuplicateMessageInjective(p1: string, f1: string, p2: string, f2: string)
    requires |p1| == |p2| && DuplicateMessage(p1, f1) == DuplicateMessage(p2, f2)
    ensures p1 == p2 && f1 == f2
  {
    DuplicateMessageNames(p1, f1, DuplicateMessage(p1, f1));
    DuplicateMessageNames(p2, f2, DuplicateMessage(p2, f2));
  }

  /**
   * Since every scope but the top one shares the default tables, a name
   * registered in any of them makes a parameter of that name conflict in all
   * of them.
   */
  lemma SharedConflict(info: SemanticInfo, i: int, param: Token, func: Token)
    requires info.Valid() && 1 <= i < |info.symbols|
    requires param.data in info.defaultTyped.entries || param.data in info.defaultUntyped.entries
    ensures ParamNameConflict(param, func, info.symbols[i]).Fail?
  {
    assert info.symbols[i].typed == info.defaultTyped && info.symbols[i].untyped == info.defaultUntyped;
  }
}
