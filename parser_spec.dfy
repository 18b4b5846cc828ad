/**
 * The vocabulary of the packrat parser: its rules, the entries of its memo
 * cache, the outcome of a rule, and the shape every rule's result has.
 *
 * `IsValue(tokens, rule, v)` is the grammar of results: it says what a value
 * returned (or cached) for `rule` looks like and which tokens its operator and
 * leaf indices must point at. The parser keeps every cached success inside it.
 */
module ParserSpec {
  import opened Wrappers
  import opened Tokens
  import opened Ast

  /** The memoized rules; a rule's name is its identity in the cache. */
  datatype Rule =
    | Newline | Indent | Dedent | Identifier | Integer | Float | ImagInteger | ImagFloat
    | String | ByteString | PrefixedString
    | PowerExpr | UnaryExpr | MulExpr | SumExpr | ShiftExpr | AndExpr | XorExpr | OrExpr
    | ComparisonExpr | NotTest | AndTest | OrTest | Test
    | LambdaParam | LambdaParams | LambdaExprDef | Expr | Exprs | RestExpr | RestExprs
    | LambdaBlockDef | IndentableExpr | RestIndentableExpr
    | SubscriptIndex | Subscript | Atom | Identifiers | Argument | Arguments

  /**
   * A rule only ever calls rules of lower rank without first consuming a
   * token, which is what makes the mutual recursion of the rules terminate.
   */
  function Rank(r: Rule): nat {
    if IsLiteral(r) then 0
    else if r.PowerExpr? || r.LambdaParam? || r.LambdaExprDef? || r.LambdaBlockDef?
         || r.Atom? || r.Identifiers? then 1
    else if r.UnaryExpr? || r.LambdaParams? then 2
    else if r.MulExpr? then 3
    else if r.SumExpr? then 4
    else if r.ShiftExpr? then 5
    else if r.AndExpr? then 6
    else if r.XorExpr? then 7
    else if r.OrExpr? then 8
    else if r.ComparisonExpr? then 9
    else if r.NotTest? then 10
    else if r.AndTest? then 11
    else if r.OrTest? then 12
    else if r.Test? then 13
    else if r.Expr? || r.SubscriptIndex? then 14
    else if r.Exprs? || r.RestExpr? || r.IndentableExpr? || r.Subscript? then 15
    else if r.RestExprs? || r.RestIndentableExpr? then 16
    else if r.Argument? then 17
    else 18
  }

  /** The rules that consume one token of given kinds and wrap its index in a leaf. */
  predicate IsLiteral(r: Rule) {
    || r.Newline? || r.Indent? || r.Dedent? || r.Identifier? || r.Integer? || r.Float?
    || r.ImagInteger? || r.ImagFloat? || r.String? || r.ByteString? || r.PrefixedString?
  }

  /** The token kinds a literal rule accepts. */
  function LiteralKinds(r: Rule): set<TokenKind>
    requires IsLiteral(r)
  {
    if r.Newline? then {TokenKind.Newline}
    else if r.Indent? then {TokenKind.Indent}
    else if r.Dedent? then {TokenKind.Dedent}
    else if r.Identifier? then {TokenKind.Identifier}
    else if r.Integer? then {DecInteger, HexInteger, BinInteger, OctInteger}
    else if r.Float? then {DecFloat}
    else if r.ImagInteger? then {DecIntegerImag}
    else if r.ImagFloat? then {DecFloatImag}
    else if r.String? then {TokenKind.String}
    else if r.ByteString? then {TokenKind.ByteString}
    else {TokenKind.PrefixedString}
  }

  /** The leaf node a literal rule builds around the index of the token it consumed. */
  function Leaf(r: Rule, index: int): (n: Node)
    requires IsLiteral(r)
    ensures n.IsLeaf() && n.index == index
  {
    if r.Newline? then Node.Newline(index)
    else if r.Indent? then Node.Indent(index)
    else if r.Dedent? then Node.Dedent(index)
    else if r.Identifier? then Node.Identifier(index)
    else if r.Integer? then Node.Integer(index)
    else if r.Float? then Node.Float(index)
    else if r.ImagInteger? then Node.ImagInteger(index)
    else if r.ImagFloat? then Node.ImagFloat(index)
    else if r.String? then Node.String(index)
    else if r.ByteString? then Node.ByteString(index)
    else Node.PrefixedString(index)
  }

  /** The literal rule that builds leaves of the class of `n`, if any. */
  function LeafRule(n: Node): (r: Option<Rule>)
    ensures r.Some? ==> IsLiteral(r.value)
  {
    if n.Newline? then Some(Rule.Newline)
    else if n.Indent? then Some(Rule.Indent)
    else if n.Dedent? then Some(Rule.Dedent)
    else if n.Identifier? then Some(Rule.Identifier)
    else if n.Integer? then Some(Rule.Integer)
    else if n.Float? then Some(Rule.Float)
    else if n.ImagInteger? then Some(Rule.ImagInteger)
    else if n.ImagFloat? then Some(Rule.ImagFloat)
    else if n.String? then Some(Rule.String)
    else if n.ByteString? then Some(Rule.ByteString)
    else if n.PrefixedString? then Some(Rule.PrefixedString)
    else None
  }

  /** A leaf determines the rule that built it and the token it points at. */
  lemma LeafRoundTrip(r: Rule, index: int)
    requires IsLiteral(r)
    ensures LeafRule(Leaf(r, index)) == Some(r)
  {
  }

  /** Distinct literal rules build distinct leaves. */
  lemma LeafInjective(r1: Rule, i1: int, r2: Rule, i2: int)
    requires IsLiteral(r1) && IsLiteral(r2) && Leaf(r1, i1) == Leaf(r2, i2)
    ensures r1 == r2 && i1 == i2
  {
    LeafRoundTrip(r1, i1);
    LeafRoundTrip(r2, i2);
  }

  /** A cache entry: the rule's result (None for a failure) and the cursor after the attempt. */
  datatype Memo = Memo(result: Option<Node>, skip: int)

  /**
   * The entry a literal rule leaves at position `k`: it eats the next token
   * whatever its kind, so a failure on a token of the wrong kind records the
   * cursor one further on; at the end of input nothing is eaten.
   */
  function LiteralMemo(tokens: seq<Token>, r: Rule, k: int): (m: Memo)
    requires IsLiteral(r) && -1 <= k
    ensures k + 1 < |tokens| ==> m.skip == k + 1
    ensures k + 1 >= |tokens| ==> m == Memo(None, k)
    ensures m.result.Some? <==> k + 1 < |tokens| && tokens[k + 1].kind in LiteralKinds(r)
    ensures m.result.Some? ==> LeafRule(m.result.value) == Some(r) && m.result.value.index == k + 1
  {
    if k + 1 < |tokens| then
      Memo(if tokens[k + 1].kind in LiteralKinds(r) then Some(Leaf(r, k + 1)) else None, k + 1)
    else Memo(None, k)
  }

  /** Why a rule stopped with a Python exception instead of a result. */
  datatype Abort =
    | UndefinedName  // `not_test` refers to a name that is never defined
    | LengthOfNone   // `lambda_block_def` asks for the length of None
    | EndlessLoop    // a repetition whose body succeeds without consuming never ends
    | Unmodelled     // `atom` reached an alternative that calls rules outside this model

  /** The outcome of a rule: no match (None), a value, or an exception that unwinds the parse. */
  datatype Parsed = NoMatch | Matched(value: Node) | Aborted(reason: Abort) {
    function Result(): (o: Option<Node>)
      requires !Aborted?
      ensures o.Some? <==> Matched?
    {
      if Matched? then Some(value) else None
    }
  }

  /** A result read back from the cache. */
  function FromMemo(m: Memo): (r: Parsed)
    ensures !r.Aborted? && r.Result() == m.result
  {
    if m.result.Some? then Matched(m.result.value) else NoMatch
  }

  // ---------------------------------------------------------------------------
  // Left-associative binary expressions

  /** One operator word, or a two-word operator such as `not in`. */
  datatype OpSpec = Single(word: string) | Pair(first: string, second: string)

  /** The rules built by the left fold `binary_expr`. */
  predicate IsFold(r: Rule) {
    || r.MulExpr? || r.SumExpr? || r.ShiftExpr? || r.AndExpr? || r.XorExpr? || r.OrExpr?
    || r.ComparisonExpr? || r.AndTest? || r.OrTest?
  }

  /** The rule a fold rule parses its operands with. */
  function Operand(r: Rule): (o: Rule)
    requires IsFold(r)
    ensures Rank(o) < Rank(r)
  {
    if r.MulExpr? then Rule.UnaryExpr
    else if r.SumExpr? then MulExpr
    else if r.ShiftExpr? then SumExpr
    else if r.AndExpr? then ShiftExpr
    else if r.XorExpr? then AndExpr
    else if r.OrExpr? then XorExpr
    else if r.ComparisonExpr? then OrExpr
    else if r.AndTest? then NotTest
    else AndTest
  }

  /** The operators of a fold rule, in the order they are tried. */
  function Operators(r: Rule): (ops: seq<OpSpec>)
    requires IsFold(r)
    ensures |ops| > 0
  {
    if r.MulExpr? then [Single("*"), Single("@"), Single("/"), Single("%"), Single("//")]
    else if r.SumExpr? then [Single("+"), Single("-")]
    else if r.ShiftExpr? then [Single("<<"), Single(">>")]
    else if r.AndExpr? then [Single("&")]
    else if r.XorExpr? then [Single("||")]
    else if r.OrExpr? then [Single("|")]
    else if r.ComparisonExpr? then
      [Single("<"), Single(">"), Single("=="), Single(">="), Single("<="), Single("!="),
       Single("in"), Pair("not", "in"), Pair("is", "not"), Single("is")]
    else if r.AndTest? then [Single("and")]
    else [Single("or")]
  }

  /** The token at `p` exists and reads `w`. */
  predicate TokenIs(tokens: seq<Token>, p: int, w: string) {
    0 <= p < |tokens| && tokens[p].data == w
  }

  /** An optional token index as `Operator` stores it: the index, or None. */
  function IndexNode(rem: Option<int>): Node {
    if rem.Some? then PyInt(rem.value) else PyNone
  }

  /** `Operator(p)` for a one-token operator at `p` spelled `w`. */
  predicate IsWordOp(tokens: seq<Token>, op: Node, w: string) {
    op.Operator? && op.op.PyInt? && op.remOp.PyNone? && TokenIs(tokens, op.op.value, w)
  }

  /**
   * The operator node a fold builds for `spec`: the index of its first word,
   * and for a pair the index of the second word when that word followed.
   */
  predicate OpMatches(tokens: seq<Token>, spec: OpSpec, op: Node) {
    && op.Operator? && op.op.PyInt?
    && match spec
       case Single(w) => op.remOp.PyNone? && TokenIs(tokens, op.op.value, w)
       case Pair(a, b) =>
         && TokenIs(tokens, op.op.value, a)
         && (op.remOp.PyNone?
             || (op.remOp.PyInt? && op.remOp.value == op.op.value + 1 && TokenIs(tokens, op.op.value + 1, b)))
  }

  /** One (operator, right operand) step of a left fold. */
  datatype Step = Step(op: Node, rhs: Node)

  /** `BinaryExpr(…BinaryExpr(first, op1, e1)…, opk, ek)`: the steps folded from the left. */
  function LeftFold(first: Node, steps: seq<Step>): Node
    decreases |steps|
  {
    if steps == [] then first
    else
      var last := steps[|steps| - 1];
      BinaryExpr(LeftFold(first, steps[..|steps| - 1]), last.op, last.rhs)
  }

  /** Takes `k` steps back off a left fold: the inverse of `LeftFold`. */
  function Unfold(v: Node, k: nat): (Node, seq<Step>)
    decreases k
  {
    if k == 0 || !v.BinaryExpr? then (v, [])
    else
      var inner := Unfold(v.lhs, k - 1);
      (inner.0, inner.1 + [Step(v.op, v.rhs)])
  }

  /** Folding one more step wraps the fold so far. */
  lemma LeftFoldSnoc(first: Node, steps: seq<Step>, step: Step)
    ensures LeftFold(first, steps + [step]) == BinaryExpr(LeftFold(first, steps), step.op, step.rhs)
  {
    assert (steps + [step])[..|steps|] == steps;
  }

  /** Unfolding as many steps as were folded recovers the first operand and every step. */
  lemma {:induction false} UnfoldLeftFold(first: Node, steps: seq<Step>)
    ensures Unfold(LeftFold(first, steps), |steps|) == (first, steps)
    decreases |steps|
  {
    if steps != [] {
      var init := steps[..|steps| - 1];
      UnfoldLeftFold(first, init);
      assert init + [steps[|steps| - 1]] == steps;
    }
  }

  /** One more step of a fold keeps it a value of the fold rule. */
  lemma FoldStep(tokens: seq<Token>, r: Rule, acc: Option<Node>, which: nat, step: Step)
    requires IsFold(r) && which < |Operators(r)|
    requires acc.Some? ==> FoldValue(tokens, r, acc.value)
    requires OpMatches(tokens, Operators(r)[which], step.op) && IsValue(tokens, Operand(r), step.rhs)
    ensures FoldValue(tokens, r, BinaryExpr(acc.GetOr(PyNone), step.op, step.rhs))
  {
  }

  /** Two folds agree exactly when their first operands and steps do. */
  lemma LeftFoldInjective(f1: Node, s1: seq<Step>, f2: Node, s2: seq<Step>)
    requires |s1| == |s2| && LeftFold(f1, s1) == LeftFold(f2, s2)
    ensures f1 == f2 && s1 == s2
  {
    UnfoldLeftFold(f1, s1);
    UnfoldLeftFold(f2, s2);
  }

  /** Folding further steps onto a fold is the fold of all the steps. */
  lemma {:induction false} LeftFoldAppend(first: Node, s: seq<Step>, t: seq<Step>)
    ensures LeftFold(LeftFold(first, s), t) == LeftFold(first, s + t)
    decreases |t|
  {
    if t != [] {
      var init, last := t[..|t| - 1], t[|t| - 1];
      LeftFoldAppend(first, s, init);
      assert (s + t)[..|s + t| - 1] == s + init;
      assert (s + t)[|s + t| - 1] == last;
      calc {
        LeftFold(LeftFold(first, s), t);
        BinaryExpr(LeftFold(LeftFold(first, s), init), last.op, last.rhs);
        BinaryExpr(LeftFold(first, s + init), last.op, last.rhs);
        LeftFold(first, s + t);
      }
    } else {
      assert s + t == s;
    }
  }

  // ---------------------------------------------------------------------------
  // Prefix operators

  /** `ops[0](ops[1](…(base)))`: the first-written operator ends up outermost. */
  function Prefixed(ops: seq<Node>, base: Node): Node
    decreases |ops|
  {
    if ops == [] then base else Ast.UnaryExpr(Prefixed(ops[1..], base), ops[0])
  }

  /** Takes `k` prefix operators back off: the inverse of `Prefixed`. */
  function StripPrefix(v: Node, k: nat): (seq<Node>, Node)
    decreases k
  {
    if k == 0 || !v.UnaryExpr? then ([], v)
    else
      var inner := StripPrefix(v.expr, k - 1);
      ([v.op] + inner.0, inner.1)
  }

  /** Stripping as many operators as were applied recovers them, in order, and the base. */
  lemma {:induction false} StripPrefixed(ops: seq<Node>, base: Node)
    ensures StripPrefix(Prefixed(ops, base), |ops|) == (ops, base)
    decreases |ops|
  {
    if ops != [] {
      StripPrefixed(ops[1..], base);
      assert [ops[0]] + ops[1..] == ops;
    }
  }

  /** Sign operators applied to a power expression give a `unary_expr` value. */
  lemma {:induction false} PrefixedUnary(tokens: seq<Token>, ops: seq<Node>, base: Node)
    requires IsValue(tokens, PowerExpr, base)
    requires forall i | 0 <= i < |ops| :: SignOp(tokens, ops[i])
    ensures UnaryValue(tokens, Prefixed(ops, base))
    decreases |ops|
  {
    if ops != [] {
      PrefixedUnary(tokens, ops[1..], base);
    }
  }

  /** Applying the operators one by one from the last: the loop `unary_expr` runs. */
  lemma PrefixedStep(ops: seq<Node>, base: Node, i: nat)
    requires i < |ops|
    ensures Ast.UnaryExpr(Prefixed(ops[i + 1..], base), ops[i]) == Prefixed(ops[i..], base)
  {
    assert ops[i..][1..] == ops[i + 1..];
  }

  // ---------------------------------------------------------------------------
  // The grammar of results

  /** Every element of a non-empty Python list is a value of `item`. */
  ghost predicate ListOf(tokens: seq<Token>, item: Rule, v: Node)
    decreases v, Rank(item), 2
  {
    v.PyList? && |v.items| > 0 && forall i | 0 <= i < |v.items| :: IsValue(tokens, item, v.items[i])
  }

  /** An item followed by more items of the same rule make a list of that rule. */
  lemma ListCons(tokens: seq<Token>, item: Rule, first: Node, more: seq<Node>)
    requires IsValue(tokens, item, first)
    requires forall i | 0 <= i < |more| :: IsValue(tokens, item, more[i])
    ensures ListOf(tokens, item, PyList([first] + more))
  {
    var all := [first] + more;
    forall i | 0 <= i < |all|
      ensures IsValue(tokens, item, all[i])
    {
      if i > 0 {
        assert all[i] == more[i - 1];
      }
    }
  }

  /** The positional parameters: a parameter, more parameters, then the part after `/`. */
  lemma ParamList(tokens: seq<Token>, first: Node, more: seq<Node>, afterSlash: seq<Node>)
    requires IsValue(tokens, LambdaParam, first)
    requires forall i | 0 <= i < |more| :: IsValue(tokens, LambdaParam, more[i])
    requires forall i | 0 <= i < |afterSlash| ::
               afterSlash[i] == PositionalParamsSeparator || IsValue(tokens, LambdaParam, afterSlash[i])
    ensures var all := [first] + more + afterSlash;
            forall i | 0 <= i < |all| :: all[i] == PositionalParamsSeparator || IsValue(tokens, LambdaParam, all[i])
  {
    var all := [first] + more + afterSlash;
    forall i | 0 <= i < |all|
      ensures all[i] == PositionalParamsSeparator || IsValue(tokens, LambdaParam, all[i])
    {
      if 0 < i <= |more| {
        assert all[i] == more[i - 1];
      } else if i > |more| {
        assert all[i] == afterSlash[i - 1 - |more|];
      }
    }
  }

  /** None, or a value of `item`. */
  ghost predicate OptionalOf(tokens: seq<Token>, item: Rule, v: Node)
    decreases v, Rank(item), 2
  {
    v.PyNone? || IsValue(tokens, item, v)
  }

  /** A power expression before any `√`: an integer, optionally with `^` and/or an exponent, or squared. */
  ghost predicate UnrootedPower(tokens: seq<Token>, v: Node)
    decreases v, 0, 3
  {
    || IsValue(tokens, Rule.Integer, v)
    || (&& v.BinaryExpr? && IsValue(tokens, Rule.Integer, v.lhs)
        && v.op.Operator? && v.op.remOp.PyNone?
        && (v.op.op.PyNone? || IsWordOp(tokens, v.op, "^"))
        && OptionalOf(tokens, Rule.Integer, v.rhs)
        && !(v.op.op.PyNone? && v.rhs.PyNone?))
    || (v.UnaryExpr? && IsValue(tokens, Rule.Integer, v.expr) && IsWordOp(tokens, v.op, "²"))
  }

  /** A left fold of operands of `r` joined by operators of `r`; the first operand may be missing. */
  ghost predicate FoldValue(tokens: seq<Token>, r: Rule, v: Node)
    requires IsFold(r)
    decreases v, Rank(r), 0
  {
    || IsValue(tokens, Operand(r), v)
    || (&& v.BinaryExpr?
        && (exists i | 0 <= i < |Operators(r)| :: OpMatches(tokens, Operators(r)[i], v.op))
        && IsValue(tokens, Operand(r), v.rhs)
        && (v.lhs.PyNone? || FoldValue(tokens, r, v.lhs)))
  }

  /** The parameter list of a lambda, as each alternative of `lambda_params` builds it. */
  ghost predicate LambdaParamsValue(tokens: seq<Token>, v: Node)
    decreases v, Rank(LambdaParams), 0
  {
    && v.FuncParams?
    && (v.params.PyNone?
        || (v.params.PyList? && forall i | 0 <= i < |v.params.items| ::
              v.params.items[i] == PositionalParamsSeparator
              || IsValue(tokens, LambdaParam, v.params.items[i])))
    && OptionalOf(tokens, LambdaParam, v.tupleRestParam)
    && (v.keywordOnlyParams.PyNone?
        || (v.keywordOnlyParams.PyList? && forall i | 0 <= i < |v.keywordOnlyParams.items| ::
              IsValue(tokens, LambdaParam, v.keywordOnlyParams.items[i])))
    && OptionalOf(tokens, LambdaParam, v.namedTupleRestParam)
  }

  /** A value of `inner`, possibly marked as a `*` or `**` rest expression. */
  ghost predicate RestOf(tokens: seq<Token>, inner: Rule, v: Node)
    decreases v, Rank(inner), 2
  {
    || IsValue(tokens, inner, v)
    || (v.TupleRestExpr? && IsValue(tokens, inner, v.expr))
    || (v.NamedTupleRestExpr? && IsValue(tokens, inner, v.expr))
  }

  /** A literal rule's leaf: its class is the rule's, and its token has one of the rule's kinds. */
  ghost predicate LeafValue(tokens: seq<Token>, rule: Rule, v: Node)
    requires IsLiteral(rule)
  {
    LeafRule(v) == Some(rule) && 0 <= v.index < |tokens| && tokens[v.index].kind in LiteralKinds(rule)
  }

  /** `power_expr`: an unrooted power, or one under a `√`. */
  ghost predicate PowerValue(tokens: seq<Token>, v: Node)
    decreases v, Rank(PowerExpr), 0
  {
    || UnrootedPower(tokens, v)
    || (v.UnaryExpr? && UnrootedPower(tokens, v.expr) && IsWordOp(tokens, v.op, "√"))
  }

  /** `power_expr` with `^` and/or a second integer after the first. */
  lemma PowerWithExponent(tokens: seq<Token>, base: Node, power: Option<int>, exponent: Option<Node>)
    requires IsValue(tokens, Rule.Integer, base)
    requires power.Some? ==> TokenIs(tokens, power.value, "^")
    requires exponent.Some? ==> IsValue(tokens, Rule.Integer, exponent.value)
    requires power.Some? || exponent.Some?
    ensures UnrootedPower(tokens, BinaryExpr(base, Operator(IndexNode(power)), exponent.GetOr(PyNone)))
  {
  }

  /** `power_expr` with neither `^` nor a second integer: the integer, squared when `²` follows. */
  lemma PowerSquared(tokens: seq<Token>, base: Node, square: Option<int>)
    requires IsValue(tokens, Rule.Integer, base)
    requires square.Some? ==> TokenIs(tokens, square.value, "²")
    ensures UnrootedPower(tokens, if square.Some? then Ast.UnaryExpr(base, Operator(PyInt(square.value))) else base)
  {
  }

  /** The `√` of `power_expr` goes outermost. */
  lemma PowerRooted(tokens: seq<Token>, v: Node, root: Option<int>)
    requires UnrootedPower(tokens, v)
    requires root.Some? ==> TokenIs(tokens, root.value, "√")
    ensures PowerValue(tokens, if root.Some? then Ast.UnaryExpr(v, Operator(PyInt(root.value))) else v)
  {
  }

  /** One of the prefix operators `unary_expr` collects. */
  predicate SignOp(tokens: seq<Token>, op: Node) {
    IsWordOp(tokens, op, "+") || IsWordOp(tokens, op, "-") || IsWordOp(tokens, op, "~")
  }

  /** `unary_expr`: a power expression under any number of `+`, `-` and `~`. */
  ghost predicate UnaryValue(tokens: seq<Token>, v: Node)
    decreases v, Rank(Rule.UnaryExpr), 0
  {
    || IsValue(tokens, PowerExpr, v)
    || (&& v.UnaryExpr? && UnaryValue(tokens, v.expr)
        && SignOp(tokens, v.op))
  }

  /** `test`: a disjunction, or a conditional expression of three. */
  ghost predicate TestValue(tokens: seq<Token>, v: Node)
    decreases v, Rank(Test), 0
  {
    || IsValue(tokens, OrTest, v)
    || (&& v.IfExpr? && IsValue(tokens, OrTest, v.ifExpr) && IsValue(tokens, OrTest, v.condExpr)
        && IsValue(tokens, OrTest, v.elseExpr))
  }

  /** `lambda_param`: a parameter name with an optional default value. */
  ghost predicate LambdaParamValue(tokens: seq<Token>, v: Node)
    decreases v, Rank(LambdaParam), 0
  {
    && v.FuncParam? && IsValue(tokens, Rule.Identifier, v.name) && v.typeAnnotation.PyNone?
    && OptionalOf(tokens, Test, v.defaultValueExpr)
  }

  /** `lambda_expr_def`: an anonymous function whose body is one expression. */
  ghost predicate LambdaExprValue(tokens: seq<Token>, v: Node)
    decreases v, Rank(LambdaExprDef), 0
  {
    && v.FuncExpr? && v.name.PyNone? && v.body.PyList? && |v.body.items| == 1
    && IsValue(tokens, Expr, v.body.items[0])
    && ((v.params.PyList? && v.params.items == []) || IsValue(tokens, LambdaParams, v.params))
  }

  /** `subscript_index`: up to three optional bounds. */
  ghost predicate SubscriptIndexValue(tokens: seq<Token>, v: Node)
    decreases v, Rank(Rule.SubscriptIndex), 0
  {
    && v.SubscriptIndex? && OptionalOf(tokens, Test, v.fromExpr)
    && OptionalOf(tokens, Test, v.skipExpr) && OptionalOf(tokens, Test, v.toExpr)
  }

  /** `atom`, literal alternatives: a float, an integer, a list of strings, None, a boolean or a name. */
  ghost predicate AtomValue(tokens: seq<Token>, v: Node)
    decreases v, Rank(Atom), 0
  {
    || IsValue(tokens, Rule.Float, v) || IsValue(tokens, Rule.Integer, v)
    || ListOf(tokens, Rule.String, v)
    || v == NoneLiteral || v.Bool?
    || IsValue(tokens, Rule.Identifier, v)
  }

  /** The list the string alternative of `atom` returns: every string read, in order. */
  function AtomStrings(first: Node, more: seq<Node>): Node {
    PyList([first] + more)
  }

  /**
   * The list the string alternative of `atom` builds as written: its loop
   * assigns `self.string() is not None` to the loop variable, so every string
   * after the first is recorded as `True`.
   */
  function AtomStringsAsWritten(first: Node, more: seq<Node>): Node {
    PyList([first] + seq(|more|, _ => PyBool(true)))
  }

  /**
   * As written, two or more strings do not make an atom value: the second
   * item is `True`, not a string, and the strings after the first are lost.
   */
  lemma AtomStringsAsWrittenLosesStrings(tokens: seq<Token>, first: Node, more: seq<Node>)
    requires IsValue(tokens, Rule.String, first) && |more| > 0
    requires forall i | 0 <= i < |more| :: IsValue(tokens, Rule.String, more[i])
    ensures AtomStringsAsWritten(first, more).items[1] == PyBool(true) != more[0]
    ensures !AtomValue(tokens, AtomStringsAsWritten(first, more))
    ensures AtomValue(tokens, AtomStrings(first, more))
  {
    var w := AtomStringsAsWritten(first, more);
    assert w.items[1] == PyBool(true);
    assert !IsValue(tokens, Rule.String, w.items[1]);
    assert IsValue(tokens, Rule.String, more[0]);
    ListCons(tokens, Rule.String, first, more);
  }

  /** `v` under the marker `mark`: `*` (true) wraps it in a tuple rest, `**` (false) in a named tuple rest. */
  function Marked(mark: Option<bool>, v: Node): (w: Node)
    ensures mark.None? ==> w == v
  {
    match mark
    case Some(tuple) => if tuple then TupleRestExpr(v) else NamedTupleRestExpr(v)
    case None => v
  }

  /** A value of `inner` under any marker is a rest value of `inner`. */
  lemma MarkedRest(tokens: seq<Token>, inner: Rule, mark: Option<bool>, v: Node)
    requires IsValue(tokens, inner, v)
    ensures RestOf(tokens, inner, Marked(mark, v))
  {
    match mark
    case Some(tuple) =>
      if tuple {
        RestOfTuple(tokens, inner, v);
      } else {
        RestOfNamedTuple(tokens, inner, v);
      }
    case None =>
  }

  /** A value of `inner` under `*` is a rest value. */
  lemma RestOfTuple(tokens: seq<Token>, inner: Rule, v: Node)
    requires IsValue(tokens, inner, v)
    ensures RestOf(tokens, inner, TupleRestExpr(v))
  {
  }

  /** A value of `inner` under `**` is a rest value. */
  lemma RestOfNamedTuple(tokens: seq<Token>, inner: Rule, v: Node)
    requires IsValue(tokens, inner, v)
    ensures RestOf(tokens, inner, NamedTupleRestExpr(v))
  {
  }

  /**
   * The marker `rest_expr` reads after position `c`. Its tests take the
   * index `consume_string` returns as a truth value, so a marker that is
   * token 0 counts as absent; a `*` there is still consumed, and a `**`
   * after it then counts.
   */
  function RestMarkAt(tokens: seq<Token>, c: int): Option<bool> {
    if TokenIs(tokens, c + 1, "*") then
      if c + 1 != 0 then Some(true)
      else if TokenIs(tokens, c + 2, "**") then Some(false)
      else None
    else if TokenIs(tokens, c + 1, "**") && c + 1 != 0 then Some(false)
    else None
  }

  /**
   * The marker is read as written: `*` anywhere but at token 0 marks a tuple
   * rest, and a `*` at token 0 is consumed without marking anything.
   */
  lemma RestMarkQuirk(tokens: seq<Token>, c: int)
    requires 0 <= c && TokenIs(tokens, c + 1, "*")
    requires TokenIs(tokens, 0, "*") && !TokenIs(tokens, 1, "**")
    ensures RestMarkAt(tokens, c) == Some(true)
    ensures RestMarkAt(tokens, -1).None?
  {
  }

  /** `argument`: a keyword argument, or a possibly starred positional one. */
  ghost predicate ArgumentValue(tokens: seq<Token>, v: Node)
    decreases v, Rank(Rule.Argument), 0
  {
    && v.Argument?
    && ((IsValue(tokens, IndentableExpr, v.expr) && IsValue(tokens, Rule.Identifier, v.name))
        || (IsValue(tokens, RestIndentableExpr, v.expr) && v.name.PyNone?))
  }

  /** A value of `unary_expr` is never a Python None. */
  lemma UnaryNotNone(tokens: seq<Token>, v: Node)
    requires IsValue(tokens, Rule.UnaryExpr, v)
    ensures !v.PyNone?
  {
    assert UnaryValue(tokens, v);
  }

  /** No rule of the expression chain returns a Python None as a value. */
  lemma {:induction false} ChainValueNotNone(tokens: seq<Token>, rule: Rule, v: Node)
    requires IsFold(rule) || rule.NotTest? || rule.UnaryExpr? || rule.PowerExpr?
    requires IsValue(tokens, rule, v)
    ensures !v.PyNone?
    decreases Rank(rule)
  {
    if IsFold(rule) {
      assert FoldValue(tokens, rule, v);
      if !v.BinaryExpr? {
        var operand := Operand(rule);
        if operand.UnaryExpr? {
          UnaryNotNone(tokens, v);
        } else {
          ChainValueNotNone(tokens, operand, v);
        }
      }
    } else if rule.NotTest? {
      ChainValueNotNone(tokens, ComparisonExpr, v);
    } else if rule.UnaryExpr? {
      UnaryNotNone(tokens, v);
    }
  }

  /** `test` never returns a Python None as a value. */
  lemma TestNotNone(tokens: seq<Token>, v: Node)
    requires IsValue(tokens, Test, v)
    ensures !v.PyNone?
  {
    if v.PyNone? {
      ChainValueNotNone(tokens, OrTest, v);
    }
  }

  /**
   * The values `rule` can return over `tokens`. Indices inside the value point
   * at tokens of the right kind or text.
   */
  ghost predicate IsValue(tokens: seq<Token>, rule: Rule, v: Node)
    decreases v, Rank(rule), 1
  {
    if IsLiteral(rule) then LeafValue(tokens, rule, v)
    else if rule.PowerExpr? then PowerValue(tokens, v)
    else if rule.UnaryExpr? then UnaryValue(tokens, v)
    else if IsFold(rule) then FoldValue(tokens, rule, v)
    else if rule.NotTest? then IsValue(tokens, ComparisonExpr, v)
    else if rule.Test? then TestValue(tokens, v)
    else if rule.LambdaParam? then LambdaParamValue(tokens, v)
    else if rule.LambdaParams? then LambdaParamsValue(tokens, v)
    else if rule.LambdaExprDef? then LambdaExprValue(tokens, v)
    else if rule.Expr? then IsValue(tokens, LambdaExprDef, v) || IsValue(tokens, Test, v)
    else if rule.Exprs? then ListOf(tokens, Expr, v)
    else if rule.RestExpr? then RestOf(tokens, Expr, v)
    else if rule.RestExprs? then ListOf(tokens, RestExpr, v)
    else if rule.LambdaBlockDef? then false
    else if rule.IndentableExpr? then IsValue(tokens, LambdaBlockDef, v) || IsValue(tokens, Expr, v)
    else if rule.RestIndentableExpr? then RestOf(tokens, IndentableExpr, v)
    else if rule.SubscriptIndex? then SubscriptIndexValue(tokens, v)
    else if rule.Subscript? then
      v.Subscript? && v.expr.PyNone? && ListOf(tokens, Rule.SubscriptIndex, v.indices)
    else if rule.Atom? then AtomValue(tokens, v)
    else if rule.Identifiers? then ListOf(tokens, Rule.Identifier, v)
    else if rule.Argument? then ArgumentValue(tokens, v)
    else ListOf(tokens, Rule.Argument, v)
  }
}
