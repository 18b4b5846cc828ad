/**
 * Raccoon's abstract syntax tree and its operator kinds.
 *
 * Every AST class of the compiler is one constructor of `Node`, with the same
 * attributes and the same constructor defaults. Python fields are untyped: the
 * parser stores lists, tuples, plain integers (cursor positions), booleans and
 * `None` in them as well as nodes. Those plain Python values are the last five
 * constructors (`PyNone` … `PyTuple`), so that a field of type `Node` can hold
 * anything the parser puts there.
 */
module Ast {
  import opened Wrappers

  /** The kinds of comprehension expression. */
  datatype ComprehensionType = Generator | ListComprehension | DictComprehension | SetComprehension

  datatype Node =
    | Null
    | Newline(index: int)
    | Indent(index: int)
    | Dedent(index: int)
    | Identifier(index: int)
    | Integer(index: int)
    | Float(index: int)
    | ImagInteger(index: int)
    | ImagFloat(index: int)
    | String(index: int)
    | StringList(strings: Node)
    | ByteString(index: int)
    | PrefixedString(index: int)
    | Operator(op: Node, remOp: Node := PyNone)
    | UnaryExpr(expr: Node, op: Node)
    | BinaryExpr(lhs: Node, op: Node, rhs: Node)
    | FuncParam(name: Node, typeAnnotation: Node := PyNone, defaultValueExpr: Node := PyNone)
    | PositionalParamsSeparator
    | FuncParams(params: Node, tupleRestParam: Node := PyNone,
                 keywordOnlyParams: Node := PyList([]), namedTupleRestParam: Node := PyNone)
    | Function(name: Node, body: Node, params: Node := PyList([]),
               returnTypeAnnotation: Node := PyNone, genericsAnnotation: Node := PyNone,
               isAsync: bool := false, decorators: Node := PyList([]))
    | TupleRestExpr(expr: Node)
    | NamedTupleRestExpr(expr: Node)
    | Comprehension(expr: Node, varExpr: Node, iterableExpr: Node, keyExpr: Node := PyNone,
                    comprehensionType: ComprehensionType := Generator, whereExpr: Node := PyNone,
                    isAsync: bool := false, nestedComprehension: Node := PyNone)
    | Yield(exprs: Node, isYieldFrom: bool := false)
    | Dict(keyValuePairs: Node := PyList([]))
    | Set(exprs: Node := PyList([]))
    | List(exprs: Node := PyList([]))
    | Tuple(exprs: Node := PyList([]))
    | SubscriptIndex(fromExpr: Node := PyNone, skipExpr: Node := PyNone, toExpr: Node := PyNone)
    | Subscript(expr: Node, indices: Node)
    | Call(expr: Node, arguments: Node)
    | Field(expr: Node, field: Node)
    | Bool(isTrue: bool)
    | NoneLiteral
    | Argument(expr: Node, name: Node := PyNone)
    | AwaitedExpr(expr: Node)
    | WithArgument(expr: Node, name: Node := PyNone)
    | WithStatement(arguments: Node, body: Node, isAsync: bool := false)
    | Except(argument: Node, name: Node, body: Node)
    | TryStatement(tryBody: Node, exceptClauses: Node := PyNone, elseBody: Node := PyNone,
                   finallyBody: Node := PyNone)
    | ForStatement(varExpr: Node, iterableExpr: Node, body: Node, elseBody: Node,
                   whereExpr: Node := PyNone, isAsync: bool := false)
    | WhileStatement(condExpr: Node, body: Node, elseBody: Node, whereExpr: Node := PyNone)
    | Elif(condExpr: Node, body: Node)
    | IfStatement(condExpr: Node, ifBody: Node, elifs: Node := PyList([]), elseBody: Node := PyNone)
    | IfExpr(ifExpr: Node, condExpr: Node, elseExpr: Node)
    | NamedExpression(name: Node, expr: Node)
    | GenericType(genericType: Node, specializationTypes: Node)
    | FunctionType(returnType: Node, paramTypes: Node := PyList([]))
    | ListType(types: Node)
    | TupleType(types: Node)
    | Type(ty: Node)
    | IntersectionType(types: Node)
    | UnionType(types: Node)
    | GenericsAnnotation(types: Node)
    | Class(name: Node, body: Node, parentClasses: Node := PyList([]),
            genericsAnnotation: Node := PyNone, decorators: Node := PyList([]))
    | ListLHS(exprs: Node)
    | TupleLHS(exprs: Node)
    | Globals(names: Node)
    | NonLocals(names: Node)
    | AssertStatement(condExpr: Node, messageExpr: Node := PyNone)
    | DelStatement(names: Node)
    | PassStatement
    | BreakStatement
    | ContinueStatement
    | ReturnStatement(exprs: Node := PyList([]))
    | RaiseStatement(expr: Node := PyNone, fromExpr: Node := PyNone)
    | AssignmentStatement(lhses: Node, assignmentOp: Node, valueExpr: Node, typeAnnotation: Node := PyNone)
    | MainPath(pathNames: Node, alias: Node := PyNone, relativeLevel: int := 0)
    | SubPath(pathNames: Node, alias: Node := PyNone, isImportAll: bool := false)
    | ImportStatement(mainPath: Node, subPaths: Node)
    | Decorator(path: Node, arguments: Node)
      /** The lambda node the parser builds; the AST module itself does not declare it. */
    | FuncExpr(name: Node, body: Node, params: Node)
      // Plain Python values stored in node fields or returned by parser rules.
    | PyNone
    | PyInt(value: int)
    | PyBool(truth: bool)
    | PyList(items: seq<Node>)
    | PyTuple(items: seq<Node>)
  {
    /** The leaf classes: nodes that hold nothing but the index of their token. */
    predicate IsLeaf() {
      || Newline? || Indent? || Dedent? || Identifier? || Integer? || Float?
      || ImagInteger? || ImagFloat? || String? || ByteString? || PrefixedString?
    }

    /** True for the AST classes, false for the plain Python values. */
    predicate IsAst() {
      !(PyNone? || PyInt? || PyBool? || PyList? || PyTuple?)
    }
  }

  /**
   * Python truthiness of a value: AST objects define neither `__bool__` nor
   * `__len__`, so every node is true; `None`, `0`, `False` and empty lists and
   * tuples are false.
   */
  predicate Truthy(v: Node) {
    if v.PyNone? then false
    else if v.PyInt? then v.value != 0
    else if v.PyBool? then v.truth
    else if v.PyList? || v.PyTuple? then |v.items| > 0
    else true
  }

  /** The kinds of binary operator. */
  datatype BinaryOpKind =
    | Power | Mul | MatMul | Div | Mod | IntegerDiv | Plus | Minus
    | ShiftLeft | ShiftRight | BinaryAnd | BinaryXor | BinaryOr
    | LesserThan | GreaterThan | Equal | EqualLesserThan | EqualGreaterThan | NotEqual
    | In | NotIn | Is | IsNot
  {
    /** The token (and, for a two-token operator, the second token) naming the kind. */
    function Spelling(): (s: (string, Option<string>))
      ensures (this == NotIn || this == IsNot) <==> s.1.Some?
    {
      match this
      case Power => ("^", None)
      case Mul => ("*", None)
      case MatMul => ("@", None)
      case Div => ("/", None)
      case Mod => ("%", None)
      case IntegerDiv => ("//", None)
      case Plus => ("+", None)
      case Minus => ("_", None)
      case ShiftLeft => ("<<", None)
      case ShiftRight => (">>", None)
      case BinaryAnd => ("&", None)
      case BinaryXor => ("||", None)
      case BinaryOr => ("|", None)
      case LesserThan => ("<", None)
      case GreaterThan => (">", None)
      case Equal => ("==", None)
      case EqualLesserThan => (">=", None)
      case EqualGreaterThan => ("<=", None)
      case NotEqual => ("!=", None)
      case In => ("in", None)
      case NotIn => ("not", Some("in"))
      case Is => ("is", None)
      case IsNot => ("is", Some("not"))
    }
  }

  /**
   * The inputs that name kind `k`: the first token is `k`'s spelling, a two-token
   * kind also needs its second token, and `is` followed by anything but `not`
   * names `Is`.
   */
  predicate Spells(k: BinaryOpKind, op: string, remOp: Option<string>) {
    && op == k.Spelling().0
    && (k.Spelling().1.Some? ==> remOp == k.Spelling().1)
    && (k == Is ==> remOp != Some("not"))
  }

  /** `BinaryOpKind.from_string`: the kind an operator string (and second token) names, if any. */
  function BinaryOpFromString(op: string, remOp: Option<string> := None): (r: Option<BinaryOpKind>)
    ensures forall k :: r == Some(k) <==> Spells(k, op, remOp)
  {
    if op == "^" then Some(Power)
    else if op == "*" then Some(Mul)
    else if op == "@" then Some(MatMul)
    else if op == "/" then Some(Div)
    else if op == "%" then Some(Mod)
    else if op == "//" then Some(IntegerDiv)
    else if op == "+" then Some(Plus)
    else if op == "_" then Some(Minus)
    else if op == "<<" then Some(ShiftLeft)
    else if op == ">>" then Some(ShiftRight)
    else if op == "&" then Some(BinaryAnd)
    else if op == "||" then Some(BinaryXor)
    else if op == "|" then Some(BinaryOr)
    else if op == "<" then Some(LesserThan)
    else if op == ">" then Some(GreaterThan)
    else if op == "==" then Some(Equal)
    else if op == ">=" then Some(EqualLesserThan)
    else if op == "<=" then Some(EqualGreaterThan)
    else if op == "!=" then Some(NotEqual)
    else if op == "in" then Some(In)
    else if op == "not" && remOp == Some("in") then Some(NotIn)
    else if op == "is" && remOp == Some("not") then Some(IsNot)
    else if op == "is" then Some(Is)
    else None
  }

  /** Every kind is recovered from its own spelling. */
  lemma BinaryOpSpellingRoundTrip(k: BinaryOpKind)
    ensures BinaryOpFromString(k.Spelling().0, k.Spelling().1) == Some(k)
  {
    assert Spells(k, k.Spelling().0, k.Spelling().1);
  }

  /** Two different kinds never share a spelling. */
  lemma BinaryOpSpellingInjective(k1: BinaryOpKind, k2: BinaryOpKind)
    requires k1.Spelling() == k2.Spelling()
    ensures k1 == k2
  {
    BinaryOpSpellingRoundTrip(k1);
    BinaryOpSpellingRoundTrip(k2);
  }

  /**
   * The spellings the mapping keeps as written: minus is keyed on `_`, so `-` has
   * no kind; `>=` and `<=` map to the kinds named EQUAL_LESSER_THAN and
   * EQUAL_GREATER_THAN; `not` alone has no kind, and `is` followed by anything
   * other than `not` is `Is`.
   */
  lemma BinaryOpQuirks(second: Option<string>)
    ensures BinaryOpFromString("-") == None
    ensures BinaryOpFromString("_") == Some(Minus)
    ensures BinaryOpFromString(">=") == Some(EqualLesserThan)
    ensures BinaryOpFromString("<=") == Some(EqualGreaterThan)
    ensures second != Some("in") ==> BinaryOpFromString("not", second) == None
    ensures second != Some("not") ==> BinaryOpFromString("is", second) == Some(Is)
  {
  }

  /** The kinds of unary operator. */
  datatype UnaryOpKind = UPlus | UMinus | BinaryNot | Not | Square | Root {
    function Spelling(): string {
      match this
      case UPlus => "+"
      case UMinus => "-"
      case BinaryNot => "~"
      case Not => "not"
      case Square => "²"
      case Root => "√"
    }
  }

  /** `UnaryOpKind.from_string`: the kind an operator string names, if any. */
  function UnaryOpFromString(op: string): (r: Option<UnaryOpKind>)
    ensures forall k :: r == Some(k) <==> op == k.Spelling()
  {
    if op == "+" then Some(UPlus)
    else if op == "-" then Some(UMinus)
    else if op == "~" then Some(BinaryNot)
    else if op == "not" then Some(Not)
    else if op == "²" then Some(Square)
    else if op == "√" then Some(Root)
    else None
  }

  /** Every unary kind is recovered from its spelling, and spellings are distinct. */
  lemma UnaryOpSpellingRoundTrip(k: UnaryOpKind, k2: UnaryOpKind)
    ensures UnaryOpFromString(k.Spelling()) == Some(k)
    ensures k.Spelling() == k2.Spelling() ==> k == k2
  {
    assert UnaryOpFromString(k.Spelling()) == Some(k);
  }

  /** The default attribute values of a comprehension built from its three required fields. */
  lemma ComprehensionDefaults(expr: Node, varExpr: Node, iterableExpr: Node)
    ensures var c := Comprehension(expr, varExpr, iterableExpr);
            && c.comprehensionType == Generator && c.whereExpr == PyNone && !c.isAsync
            && c.nestedComprehension == PyNone && c.keyExpr == PyNone
  {
  }
}
