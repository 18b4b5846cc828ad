/**
 * Equality of AST nodes.
 *
 * Python compares two AST objects by comparing their attribute dictionaries
 * (`vars`), and compares lists, tuples, integers, booleans and `None` the usual
 * way. `Value(n, false)` is what Python's `==` sees of a value: two values are
 * equal exactly when their `Value`s are. `Value(n, true)` also records the class
 * of every object, which gives the class-aware equality the AST tests rely on.
 */
module AstEquality {
  import opened Ast

  /** One attribute of an AST object. */
  datatype Field = Obj(node: Node) | Int(i: int) | Flag(b: bool) | Kind(kind: ComprehensionType)

  /** What `==` compares: integers (booleans count as 0 and 1), `None`, enum members,
   *  attribute dictionaries (with the class when tagged), lists and tuples. */
  datatype Attr =
    | AInt(i: int)
    | ANone
    | AKind(kind: ComprehensionType)
    | AObj(cls: nat, fields: seq<(string, Attr)>)
    | AList(items: seq<Attr>)
    | ATuple(items: seq<Attr>)

  /**
   * The class of a node, numbered in the order the AST module declares its classes;
   * the plain Python values come last.
   */
  function ClassId(n: Node): nat {
    match n
    case Null => 0
    case Newline(_) => 1
    case Indent(_) => 2
    case Dedent(_) => 3
    case Identifier(_) => 4
    case Integer(_) => 5
    case Float(_) => 6
    case ImagInteger(_) => 7
    case ImagFloat(_) => 8
    case String(_) => 9
    case StringList(_) => 10
    case ByteString(_) => 11
    case PrefixedString(_) => 12
    case Operator(_, _) => 13
    case UnaryExpr(_, _) => 14
    case BinaryExpr(_, _, _) => 15
    case FuncParam(_, _, _) => 16
    case PositionalParamsSeparator => 17
    case FuncParams(_, _, _, _) => 18
    case Function(_, _, _, _, _, _, _) => 19
    case TupleRestExpr(_) => 20
    case NamedTupleRestExpr(_) => 21
    case Comprehension(_, _, _, _, _, _, _, _) => 22
    case Yield(_, _) => 23
    case Dict(_) => 24
    case Set(_) => 25
    case List(_) => 26
    case Tuple(_) => 27
    case SubscriptIndex(_, _, _) => 28
    case Subscript(_, _) => 29
    case Call(_, _) => 30
    case Field(_, _) => 31
    case Bool(_) => 32
    case NoneLiteral => 33
    case Argument(_, _) => 34
    case AwaitedExpr(_) => 35
    case WithArgument(_, _) => 36
    case WithStatement(_, _, _) => 37
    case Except(_, _, _) => 38
    case TryStatement(_, _, _, _) => 39
    case ForStatement(_, _, _, _, _, _) => 40
    case WhileStatement(_, _, _, _) => 41
    case Elif(_, _) => 42
    case IfStatement(_, _, _, _) => 43
    case IfExpr(_, _, _) => 44
    case NamedExpression(_, _) => 45
    case GenericType(_, _) => 46
    case FunctionType(_, _) => 47
    case ListType(_) => 48
    case TupleType(_) => 49
    case Type(_) => 50
    case IntersectionType(_) => 51
    case UnionType(_) => 52
    case GenericsAnnotation(_) => 53
    case Class(_, _, _, _, _) => 54
    case ListLHS(_) => 55
    case TupleLHS(_) => 56
    case Globals(_) => 57
    case NonLocals(_) => 58
    case AssertStatement(_, _) => 59
    case DelStatement(_) => 60
    case PassStatement => 61
    case BreakStatement => 62
    case ContinueStatement => 63
    case ReturnStatement(_) => 64
    case RaiseStatement(_, _) => 65
    case AssignmentStatement(_, _, _, _) => 66
    case MainPath(_, _, _) => 67
    case SubPath(_, _, _) => 68
    case ImportStatement(_, _) => 69
    case Decorator(_, _) => 70
    case FuncExpr(_, _, _) => 71
    case PyNone => 72
    case PyInt(_) => 73
    case PyBool(_) => 74
    case PyList(_) => 75
    case PyTuple(_) => 76
  }

  /**
   * `vars(n)`: the attributes of an AST object as (name, value) pairs, sorted by
   * name, so that two objects have equal dictionaries exactly when these
   * sequences are equal.
   */
  function Attributes(n: Node): (r: seq<(string, Field)>)
    ensures forall i | 0 <= i < |r| && r[i].1.Obj? :: r[i].1.node < n
  {
    if n.IsLeaf() then [("index", Int(n.index))]
    else match n
    case Null => []
    case StringList(strings) => [("strings", Obj(strings))]
    case Operator(op, remOp) => [("op", Obj(op)), ("rem_op", Obj(remOp))]
    case UnaryExpr(expr, op) => [("expr", Obj(expr)), ("op", Obj(op))]
    case BinaryExpr(lhs, op, rhs) => [("lhs", Obj(lhs)), ("op", Obj(op)), ("rhs", Obj(rhs))]
    case FuncParam(name, typeAnnotation, defaultValueExpr) =>
      [("default_value_expr", Obj(defaultValueExpr)),
       ("name", Obj(name)),
       ("type_annotation", Obj(typeAnnotation))]
    case PositionalParamsSeparator => []
    case FuncParams(params, tupleRestParam, keywordOnlyParams, namedTupleRestParam) =>
      [("keyword_only_params", Obj(keywordOnlyParams)),
       ("named_tuple_rest_param", Obj(namedTupleRestParam)),
       ("params", Obj(params)),
       ("tuple_rest_param", Obj(tupleRestParam))]
    case Function(name, body, params, returnTypeAnnotation, genericsAnnotation, isAsync, decorators) =>
      [("body", Obj(body)),
       ("decorators", Obj(decorators)),
       ("generics_annotation", Obj(genericsAnnotation)),
       ("is_async", Flag(isAsync)),
       ("name", Obj(name)),
       ("params", Obj(params)),
       ("return_type_annotation", Obj(returnTypeAnnotation))]
    case TupleRestExpr(expr) => [("expr", Obj(expr))]
    case NamedTupleRestExpr(expr) => [("expr", Obj(expr))]
    case Comprehension(expr, varExpr, iterableExpr, keyExpr, comprehensionType, whereExpr, isAsync, nestedComprehension) =>
      [("comprehension_type", Kind(comprehensionType)),
       ("expr", Obj(expr)),
       ("is_async", Flag(isAsync)),
       ("iterable_expr", Obj(iterableExpr)),
       ("key_expr", Obj(keyExpr)),
       ("nested_comprehension", Obj(nestedComprehension)),
       ("var_expr", Obj(varExpr)),
       ("where_expr", Obj(whereExpr))]
    case Yield(exprs, isYieldFrom) => [("exprs", Obj(exprs)), ("is_yield_from", Flag(isYieldFrom))]
    case Dict(keyValuePairs) => [("key_value_pairs", Obj(keyValuePairs))]
    case Set(exprs) => [("exprs", Obj(exprs))]
    case List(exprs) => [("exprs", Obj(exprs))]
    case Tuple(exprs) => [("exprs", Obj(exprs))]
    case SubscriptIndex(fromExpr, skipExpr, toExpr) =>
      [("from_expr", Obj(fromExpr)),
       ("skip_expr", Obj(skipExpr)),
       ("to_expr", Obj(toExpr))]
    case Subscript(expr, indices) => [("expr", Obj(expr)), ("indices", Obj(indices))]
    case Call(expr, arguments) => [("arguments", Obj(arguments)), ("expr", Obj(expr))]
    case Field(expr, field) => [("expr", Obj(expr)), ("field", Obj(field))]
    case Bool(isTrue) => [("is_true", Flag(isTrue))]
    case NoneLiteral => []
    case Argument(expr, name) => [("expr", Obj(expr)), ("name", Obj(name))]
    case AwaitedExpr(expr) => [("expr", Obj(expr))]
    case WithArgument(expr, name) => [("expr", Obj(expr)), ("name", Obj(name))]
    case WithStatement(arguments, body, isAsync) =>
      [("arguments", Obj(arguments)),
       ("body", Obj(body)),
       ("is_async", Flag(isAsync))]
    case Except(argument, name, body) =>
      [("argument", Obj(argument)),
       ("body", Obj(body)),
       ("name", Obj(name))]
    case TryStatement(tryBody, exceptClauses, elseBody, finallyBody) =>
      [("else_body", Obj(elseBody)),
       ("except_clauses", Obj(exceptClauses)),
       ("finally_body", Obj(finallyBody)),
       ("try_body", Obj(tryBody))]
    case ForStatement(varExpr, iterableExpr, body, elseBody, whereExpr, isAsync) =>
      [("body", Obj(body)),
       ("else_body", Obj(elseBody)),
       ("is_async", Flag(isAsync)),
       ("iterable_expr", Obj(iterableExpr)),
       ("var_expr", Obj(varExpr)),
       ("where_expr", Obj(whereExpr))]
    case WhileStatement(condExpr, body, elseBody, whereExpr) =>
      [("body", Obj(body)),
       ("cond_expr", Obj(condExpr)),
       ("else_body", Obj(elseBody)),
       ("where_expr", Obj(whereExpr))]
    case Elif(condExpr, body) => [("body", Obj(body)), ("cond_expr", Obj(condExpr))]
    case IfStatement(condExpr, ifBody, elifs, elseBody) =>
      [("cond_expr", Obj(condExpr)),
       ("elifs", Obj(elifs)),
       ("else_body", Obj(elseBody)),
       ("if_body", Obj(ifBody))]
    case IfExpr(ifExpr, condExpr, elseExpr) =>
      [("cond_expr", Obj(condExpr)),
       ("else_expr", Obj(elseExpr)),
       ("if_expr", Obj(ifExpr))]
    case NamedExpression(name, expr) => [("expr", Obj(expr)), ("name", Obj(name))]
    case GenericType(genericType, specializationTypes) =>
      [("generic_type", Obj(genericType)),
       ("specialization_types", Obj(specializationTypes))]
    case FunctionType(returnType, paramTypes) =>
      [("param_types", Obj(paramTypes)),
       ("return_type", Obj(returnType))]
    case ListType(types) => [("types", Obj(types))]
    case TupleType(types) => [("types", Obj(types))]
    case Type(ty) => [("type", Obj(ty))]
    case IntersectionType(types) => [("types", Obj(types))]
    case UnionType(types) => [("types", Obj(types))]
    case GenericsAnnotation(types) => [("types", Obj(types))]
    case Class(name, body, parentClasses, genericsAnnotation, decorators) =>
      [("body", Obj(body)),
       ("decorators", Obj(decorators)),
       ("generics_annotation", Obj(genericsAnnotation)),
       ("name", Obj(name)),
       ("parent_classes", Obj(parentClasses))]
    case ListLHS(exprs) => [("exprs", Obj(exprs))]
    case TupleLHS(exprs) => [("exprs", Obj(exprs))]
    case Globals(names) => [("names", Obj(names))]
    case NonLocals(names) => [("names", Obj(names))]
    case AssertStatement(condExpr, messageExpr) =>
      [("cond_expr", Obj(condExpr)),
       ("message_expr", Obj(messageExpr))]
    case DelStatement(names) => [("names", Obj(names))]
    case PassStatement => []
    case BreakStatement => []
    case ContinueStatement => []
    case ReturnStatement(exprs) => [("exprs", Obj(exprs))]
    case RaiseStatement(expr, fromExpr) => [("expr", Obj(expr)), ("from_expr", Obj(fromExpr))]
    case AssignmentStatement(lhses, assignmentOp, valueExpr, typeAnnotation) =>
      [("assignment_op", Obj(assignmentOp)),
       ("lhses", Obj(lhses)),
       ("type_annotation", Obj(typeAnnotation)),
       ("value_expr", Obj(valueExpr))]
    case MainPath(pathNames, alias, relativeLevel) =>
      [("alias", Obj(alias)),
       ("path_names", Obj(pathNames)),
       ("relative_level", Int(relativeLevel))]
    case SubPath(pathNames, alias, isImportAll) =>
      [("alias", Obj(alias)),
       ("is_import_all", Flag(isImportAll)),
       ("path_names", Obj(pathNames))]
    case ImportStatement(mainPath, subPaths) =>
      [("main_path", Obj(mainPath)),
       ("sub_paths", Obj(subPaths))]
    case Decorator(path, arguments) => [("arguments", Obj(arguments)), ("path", Obj(path))]
    case FuncExpr(name, body, params) =>
      [("body", Obj(body)),
       ("name", Obj(name)),
       ("params", Obj(params))]
    case _ => []
  }

  /** The value `==` compares; objects carry their class only when `tagged`. */
  function Value(n: Node, tagged: bool): Attr
    decreases n, 1
  {
    if n.PyNone? then ANone
    else if n.PyInt? then AInt(n.value)
    else if n.PyBool? then AInt(if n.truth then 1 else 0)
    else if n.PyList? then AList(Values(n.items, tagged))
    else if n.PyTuple? then ATuple(Values(n.items, tagged))
    else
      var attrs := Attributes(n);
      AObj(if tagged then ClassId(n) else 0,
           seq(|attrs|, i requires 0 <= i < |attrs| =>
             (attrs[i].0, if attrs[i].1.Obj? then Value(attrs[i].1.node, tagged) else Scalar(attrs[i].1))))
  }

  function Values(s: seq<Node>, tagged: bool): seq<Attr>
    decreases s, 0
  {
    seq(|s|, i requires 0 <= i < |s| => Value(s[i], tagged))
  }

  /** The value of an attribute that is not an object. */
  function Scalar(f: Field): Attr {
    match f
    case Obj(_) => ANone
    case Int(i) => AInt(i)
    case Flag(b) => AInt(if b then 1 else 0)
    case Kind(k) => AKind(k)
  }

  /** `a == b` as Python evaluates it: AST objects compare their attribute dictionaries only. */
  predicate PyEq(a: Node, b: Node) {
    Value(a, false) == Value(b, false)
  }

  /** Class-aware equality: equal attributes and the same class at every level. */
  predicate NodeEq(a: Node, b: Node) {
    Value(a, true) == Value(b, true)
  }

  /** The value of a leaf: its token index under the attribute name `index`. */
  lemma LeafValue(n: Node, tagged: bool)
    requires n.IsLeaf()
    ensures Value(n, tagged) == AObj(if tagged then ClassId(n) else 0, [("index", AInt(n.index))])
  {
    assert Attributes(n) == [("index", Int(n.index))];
  }

  /** As written, equality ignores the class: two leaves are equal whenever their token indices are. */
  lemma PyEqIgnoresClass(a: Node, b: Node)
    requires a.IsLeaf() && b.IsLeaf()
    ensures PyEq(a, b) <==> a.index == b.index
  {
    LeafValue(a, false);
    LeafValue(b, false);
    if PyEq(a, b) {
      assert Value(a, false).fields[0] == Value(b, false).fields[0];
    }
  }

  /** Nodes without attributes (`Null`, `NoneLiteral`, the jump statements, ...) are all equal. */
  lemma PyEqEmptyObjects(a: Node, b: Node)
    requires a.IsAst() && b.IsAst() && Attributes(a) == [] && Attributes(b) == []
    ensures PyEq(a, b)
    ensures NodeEq(a, b) <==> ClassId(a) == ClassId(b)
  {
  }

  /** Concrete instance: an integer literal equals the identifier with the same token index. */
  lemma PyEqIntegerIdentifier()
    ensures PyEq(Integer(0), Identifier(0)) && !NodeEq(Integer(0), Identifier(0))
  {
    PyEqIgnoresClass(Integer(0), Identifier(0));
    NodeEqOnLeaves(Integer(0), Identifier(0));
  }

  /** Concrete instance: the shim `Null()` equals the literal `None`. */
  lemma PyEqNullNoneLiteral()
    ensures PyEq(Null, NoneLiteral) && !NodeEq(Null, NoneLiteral)
  {
    PyEqEmptyObjects(Null, NoneLiteral);
  }

  /** Class-aware equality never equates objects of different classes. */
  lemma NodeEqKeepsClass(a: Node, b: Node)
    requires a.IsAst() && b.IsAst() && NodeEq(a, b)
    ensures ClassId(a) == ClassId(b)
  {
  }

  /** The leaf of class `cls` at token `index`. */
  function LeafOf(cls: nat, index: int): Node {
    match cls
    case 1 => Newline(index)
    case 2 => Indent(index)
    case 3 => Dedent(index)
    case 4 => Identifier(index)
    case 5 => Integer(index)
    case 6 => Float(index)
    case 7 => ImagInteger(index)
    case 8 => ImagFloat(index)
    case 9 => String(index)
    case 11 => ByteString(index)
    case 12 => PrefixedString(index)
    case _ => Null
  }

  /** A leaf is determined by its class and its token index. */
  lemma LeafRebuilt(n: Node)
    requires n.IsLeaf()
    ensures LeafOf(ClassId(n), n.index) == n
  {
  }

  /** On leaves, class-aware equality is exactly equality of the nodes. */
  lemma NodeEqOnLeaves(a: Node, b: Node)
    requires a.IsLeaf() && b.IsLeaf()
    ensures NodeEq(a, b) <==> a == b
  {
    LeafValue(a, true);
    LeafValue(b, true);
    if NodeEq(a, b) {
      assert Value(a, true).fields[0] == Value(b, true).fields[0];
      assert ClassId(a) == ClassId(b);
      LeafRebuilt(a);
      LeafRebuilt(b);
    }
  }

  /** A binary expression equals another exactly when its three parts do, under either equality. */
  lemma BinaryExprEqFieldwise(l1: Node, o1: Node, r1: Node, l2: Node, o2: Node, r2: Node, tagged: bool)
    ensures Value(BinaryExpr(l1, o1, r1), tagged) == Value(BinaryExpr(l2, o2, r2), tagged) <==>
              && Value(l1, tagged) == Value(l2, tagged)
              && Value(o1, tagged) == Value(o2, tagged)
              && Value(r1, tagged) == Value(r2, tagged)
  {
    assert Attributes(BinaryExpr(l1, o1, r1)) == [("lhs", Obj(l1)), ("op", Obj(o1)), ("rhs", Obj(r1))];
    assert Attributes(BinaryExpr(l2, o2, r2)) == [("lhs", Obj(l2)), ("op", Obj(o2)), ("rhs", Obj(r2))];
    var f1, f2 := Value(BinaryExpr(l1, o1, r1), tagged).fields, Value(BinaryExpr(l2, o2, r2), tagged).fields;
    assert f1 == [("lhs", Value(l1, tagged)), ("op", Value(o1, tagged)), ("rhs", Value(r1, tagged))];
    assert f2 == [("lhs", Value(l2, tagged)), ("op", Value(o2, tagged)), ("rhs", Value(r2, tagged))];
  }
}
