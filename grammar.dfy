/**
 * The rules of the packrat parser as plain functions of the token sequence:
 * what each rule returns when it starts at position `k`, and where it leaves
 * the cursor. Nothing here depends on the memo cache, which holds only what
 * these functions compute; the class `Parser` is proved to return exactly
 * these results, whether a rule's entry is in the cache or not.
 *
 * Positions are those of the parser's cursor: `k` is the index of the last
 * token consumed, -1 before the first, so the next token is `tokens[k + 1]`.
 */
module Grammar {
  import opened Wrappers
  import opened Tokens
  import opened Ast
  import opened ParserSpec

  /** A rule's outcome and the cursor it leaves behind. */
  datatype Res = Res(parsed: Parsed, end: int)

  /** The items a loop collected, the cursor after it, and the exception that cut it short, if any. */
  datatype Many = Many(items: seq<Node>, end: int, abort: Option<Abort>)

  /** How a loop that stopped without a value ends: no match, or the exception that cut it short. */
  function Stopped(abort: Option<Abort>): (r: Parsed)
    ensures !r.Matched? && (r.Aborted? <==> abort.Some?)
    ensures r.Aborted? ==> r.reason == abort.value
  {
    if abort.Some? then Aborted(abort.value) else NoMatch
  }

  /** The cache entry `memoize` stores for an outcome: its result and the cursor after it. */
  function MemoOf(r: Res): (m: Memo)
    requires !r.parsed.Aborted?
    ensures FromMemo(m) == r.parsed && m.skip == r.end
  {
    Memo(r.parsed.Result(), r.end)
  }

  /** A position the cursor can hold: before the first token, or on one. */
  predicate InRange(tokens: seq<Token>, k: int) {
    -1 <= k < |tokens|
  }

  /** An outcome that starts at `k`: it ends at or after `k`, and a match consumes a token. */
  predicate Spans(tokens: seq<Token>, k: int, r: Res) {
    k <= r.end < |tokens| && (r.parsed.Matched? ==> k < r.end)
  }

  /** `consume_string(w)` at `k`: the index of the next token when its text is `w`. */
  function TextAt(tokens: seq<Token>, k: int, w: string): (o: Option<int>)
    ensures o.Some? <==> TokenIs(tokens, k + 1, w)
    ensures o.Some? ==> o.value == k + 1
  {
    if TokenIs(tokens, k + 1, w) then Some(k + 1) else None
  }

  /** The cursor after a token that may have been consumed. */
  function Past(k: int, o: Option<int>): int {
    if o.Some? then o.value else k
  }

  /**
   * A rule called from `k`, `backtrackable(memoize(body))`: the body's
   * outcome, with the cursor back at `k` when there is no match.
   */
  function Parse(tokens: seq<Token>, rule: Rule, k: int): (r: Res)
    requires InRange(tokens, k)
    ensures Spans(tokens, k, r) && (r.parsed.NoMatch? ==> r.end == k)
    ensures r.parsed == Body(tokens, rule, k).parsed
    decreases |tokens| - k, Rank(rule), 4
  {
    var b := Body(tokens, rule, k);
    if b.parsed.NoMatch? then Res(NoMatch, k) else b
  }

  /** The body of `rule` from `k`, with the cursor it leaves, also on a failure. */
  function Body(tokens: seq<Token>, rule: Rule, k: int): (r: Res)
    requires InRange(tokens, k)
    ensures Spans(tokens, k, r)
    decreases |tokens| - k, Rank(rule), 3
  {
    if IsLiteral(rule) then Literal(tokens, rule, k)
    else if IsFold(rule) then ParseFold(tokens, rule, k)
    else if rule.PowerExpr? then ParsePower(tokens, k)
    else if rule.UnaryExpr? then ParseUnary(tokens, k)
    else if rule.NotTest? then ParseNotTest(tokens, k)
    else if rule.Test? then ParseTest(tokens, k)
    else if rule.LambdaParam? then ParseLambdaParam(tokens, k)
    else if rule.LambdaParams? then ParseLambdaParams(tokens, k)
    else if rule.LambdaExprDef? then ParseLambdaExprDef(tokens, k)
    else if rule.Expr? then ParseEither(tokens, Expr, LambdaExprDef, Test, k)
    else if rule.LambdaBlockDef? then ParseLambdaBlockDef(tokens, k)
    else if rule.IndentableExpr? then ParseEither(tokens, IndentableExpr, LambdaBlockDef, Expr, k)
    else if rule.RestExpr? then ParseRest(tokens, RestExpr, Expr, k)
    else if rule.RestIndentableExpr? then ParseRest(tokens, RestIndentableExpr, IndentableExpr, k)
    else if rule.Exprs? then ParseCommaList(tokens, Exprs, Expr, k)
    else if rule.RestExprs? then ParseCommaList(tokens, RestExprs, RestExpr, k)
    else if rule.Identifiers? then ParseCommaList(tokens, Identifiers, Rule.Identifier, k)
    else if rule.Arguments? then ParseCommaList(tokens, Arguments, Rule.Argument, k)
    else if rule.Subscript? then ParseSubscript(tokens, k)
    else if rule.SubscriptIndex? then ParseSubscriptIndex(tokens, k)
    else if rule.Atom? then ParseAtom(tokens, k)
    else ParseArgument(tokens, k)
  }

  /** The body of a literal rule is `consume`; the body of a fold rule is `binary_expr`. */
  lemma BodyCases(tokens: seq<Token>, rule: Rule, k: int)
    requires InRange(tokens, k)
    ensures IsLiteral(rule) ==> Body(tokens, rule, k) == Literal(tokens, rule, k)
    ensures !IsLiteral(rule) && IsFold(rule) ==> Body(tokens, rule, k) == ParseFold(tokens, rule, k)
  {
  }

  /** The body of each rule that is neither a literal nor a fold. */
  lemma BodyRules(tokens: seq<Token>, rule: Rule, k: int)
    requires InRange(tokens, k) && !IsLiteral(rule) && !IsFold(rule)
    ensures rule.PowerExpr? ==> Body(tokens, rule, k) == ParsePower(tokens, k)
    ensures rule.UnaryExpr? ==> Body(tokens, rule, k) == ParseUnary(tokens, k)
    ensures rule.NotTest? ==> Body(tokens, rule, k) == ParseNotTest(tokens, k)
    ensures rule.Test? ==> Body(tokens, rule, k) == ParseTest(tokens, k)
    ensures rule.LambdaParam? ==> Body(tokens, rule, k) == ParseLambdaParam(tokens, k)
    ensures rule.LambdaParams? ==> Body(tokens, rule, k) == ParseLambdaParams(tokens, k)
    ensures rule.LambdaExprDef? ==> Body(tokens, rule, k) == ParseLambdaExprDef(tokens, k)
    ensures rule.Expr? ==> Body(tokens, rule, k) == ParseEither(tokens, Expr, LambdaExprDef, Test, k)
    ensures rule.LambdaBlockDef? ==> Body(tokens, rule, k) == ParseLambdaBlockDef(tokens, k)
    ensures rule.IndentableExpr? ==> Body(tokens, rule, k) == ParseEither(tokens, IndentableExpr, LambdaBlockDef, Expr, k)
    ensures rule.RestExpr? ==> Body(tokens, rule, k) == ParseRest(tokens, RestExpr, Expr, k)
    ensures rule.RestIndentableExpr? ==> Body(tokens, rule, k) == ParseRest(tokens, RestIndentableExpr, IndentableExpr, k)
  {
  }

  /** The rules whose bodies are comma lists, subscripts, atoms and arguments. */
  predicate IsListRule(rule: Rule) {
    rule.Exprs? || rule.RestExprs? || rule.Identifiers? || rule.Arguments? ||
    rule.Subscript? || rule.SubscriptIndex? || rule.Atom? || rule.Argument?
  }

  /** Unfolds `Body` for the rules of `IsListRule`. */
  lemma BodyListRules(tokens: seq<Token>, rule: Rule, k: int)
    requires InRange(tokens, k) && IsListRule(rule)
    ensures rule.Exprs? ==> Body(tokens, rule, k) == ParseCommaList(tokens, Exprs, Expr, k)
    ensures rule.RestExprs? ==> Body(tokens, rule, k) == ParseCommaList(tokens, RestExprs, RestExpr, k)
    ensures rule.Identifiers? ==> Body(tokens, rule, k) == ParseCommaList(tokens, Identifiers, Rule.Identifier, k)
    ensures rule.Arguments? ==> Body(tokens, rule, k) == ParseCommaList(tokens, Arguments, Rule.Argument, k)
    ensures rule.Subscript? ==> Body(tokens, rule, k) == ParseSubscript(tokens, k)
    ensures rule.SubscriptIndex? ==> Body(tokens, rule, k) == ParseSubscriptIndex(tokens, k)
    ensures rule.Atom? ==> Body(tokens, rule, k) == ParseAtom(tokens, k)
    ensures rule.Argument? ==> Body(tokens, rule, k) == ParseArgument(tokens, k)
  {
    assert !IsLiteral(rule) && !IsFold(rule);
  }

  /** The item rule of each plain comma list. */
  function ListItem(rule: Rule): Rule
    requires rule.Exprs? || rule.RestExprs? || rule.Identifiers? || rule.Arguments?
  {
    if rule.Exprs? then Expr
    else if rule.RestExprs? then RestExpr
    else if rule.Identifiers? then Rule.Identifier
    else Rule.Argument
  }

  /** The body of a plain comma list is the list of its item rule, which ranks below it. */
  lemma CommaBody(tokens: seq<Token>, rule: Rule, k: int)
    requires InRange(tokens, k) && (rule.Exprs? || rule.RestExprs? || rule.Identifiers? || rule.Arguments?)
    ensures Rank(ListItem(rule)) < Rank(rule)
    ensures Body(tokens, rule, k) == ParseCommaList(tokens, rule, ListItem(rule), k)
  {
    assert !IsLiteral(rule) && !IsFold(rule);
  }

  /** A literal rule: `consume` eats the next token and keeps it when its kind is the rule's. */
  function Literal(tokens: seq<Token>, rule: Rule, k: int): (r: Res)
    requires InRange(tokens, k) && IsLiteral(rule)
    ensures Spans(tokens, k, r) && !r.parsed.Aborted?
    ensures Memo(r.parsed.Result(), r.end) == LiteralMemo(tokens, rule, k)
  {
    var m := LiteralMemo(tokens, rule, k);
    Res(FromMemo(m), m.skip)
  }

  // ---------------------------------------------------------------------------
  // Binary operators

  /** The operator `binary_expr` found: its first word, its second word, the cursor after them, which one. */
  datatype Found = Found(op: Option<int>, rem: Option<int>, end: int, which: nat)

  /**
   * The operator loop of `binary_expr` at `k`: the first operator of `ops`
   * whose first or second word follows. A two-word operator consumes each
   * of its words that is there, so its second word alone is consumed
   * without giving an operator.
   */
  function MatchOp(tokens: seq<Token>, ops: seq<OpSpec>, k: int): (m: Found)
    requires InRange(tokens, k)
    ensures k <= m.end < |tokens|
    ensures m.op.Some? ==> m.op.value == k + 1 && k < m.end && m.which < |ops|
    ensures m.op.None? && m.rem.None? ==> m.end == k
    decreases |ops|
  {
    if ops == [] then Found(None, None, k, 0)
    else
      var m := (match ops[0]
        case Single(w) => Found(TextAt(tokens, k, w), None, Past(k, TextAt(tokens, k, w)), 0)
        case Pair(a, b) =>
          var first := TextAt(tokens, k, a);
          var second := TextAt(tokens, Past(k, first), b);
          Found(first, second, Past(Past(k, first), second), 0));
      if m.op.Some? || m.rem.Some? then m
      else
        var rest := MatchOp(tokens, ops[1..], k);
        rest.(which := rest.which + 1)
  }

  /** One round of the fold loop: the step it reads, the cursor after it, or the exception it raised. */
  datatype Next = Next(step: Option<Step>, end: int, abort: Option<Abort>)

  /** One round of the loop of `binary_expr` at `k`: an operator of `rule`, then an operand. */
  function NextStep(tokens: seq<Token>, rule: Rule, k: int): (n: Next)
    requires InRange(tokens, k) && IsFold(rule)
    ensures k <= n.end < |tokens| && (n.step.Some? ==> k < n.end && n.abort.None?)
    decreases |tokens| - k, Rank(rule), 0
  {
    var m := MatchOp(tokens, Operators(rule), k);
    if m.op.None? then Next(None, m.end, None)
    else
      var rhs := Parse(tokens, Operand(rule), m.end);
      if rhs.parsed.Aborted? then Next(None, rhs.end, Some(rhs.parsed.reason))
      else if rhs.parsed.NoMatch? then Next(None, m.end, None)
      else Next(Some(Step(Operator(PyInt(m.op.value), IndexNode(m.rem)), rhs.parsed.value)), rhs.end, None)
  }

  /** The steps the loop of `binary_expr` reads from `k`, where it stops, and how. */
  datatype Scan = Scan(steps: seq<Step>, end: int, abort: Option<Abort>)

  /** Every round of the loop of `binary_expr` from `k`, until one finds no step. */
  function FoldSteps(tokens: seq<Token>, rule: Rule, k: int): (s: Scan)
    requires InRange(tokens, k) && IsFold(rule)
    ensures k <= s.end < |tokens| && (s.steps != [] ==> k < s.end)
    decreases |tokens| - k, Rank(rule), 1
  {
    var n := NextStep(tokens, rule, k);
    if n.step.None? then Scan([], n.end, n.abort)
    else
      var rest := FoldSteps(tokens, rule, n.end);
      Scan([n.step.value] + rest.steps, rest.end, rest.abort)
  }

  /** The steps of the loop of `binary_expr` from `k`, after the steps already read. */
  function StepsAfter(tokens: seq<Token>, rule: Rule, steps: seq<Step>, k: int): (s: Scan)
    requires InRange(tokens, k) && IsFold(rule)
    ensures s.end == FoldSteps(tokens, rule, k).end && s.abort == FoldSteps(tokens, rule, k).abort
    ensures s.steps == steps + FoldSteps(tokens, rule, k).steps
  {
    var rest := FoldSteps(tokens, rule, k);
    Scan(steps + rest.steps, rest.end, rest.abort)
  }

  /** Before the first round, no step has been read. */
  lemma StepsAfterStart(tokens: seq<Token>, rule: Rule, k: int)
    requires InRange(tokens, k) && IsFold(rule)
    ensures StepsAfter(tokens, rule, [], k) == FoldSteps(tokens, rule, k)
  {
    assert [] + FoldSteps(tokens, rule, k).steps == FoldSteps(tokens, rule, k).steps;
  }

  /** A round that read a step moves it to the steps already read. */
  lemma StepsAfterNext(tokens: seq<Token>, rule: Rule, steps: seq<Step>, k: int)
    requires InRange(tokens, k) && IsFold(rule) && NextStep(tokens, rule, k).step.Some?
    ensures var n := NextStep(tokens, rule, k);
      StepsAfter(tokens, rule, steps, k) == StepsAfter(tokens, rule, steps + [n.step.value], n.end)
  {
    var n := NextStep(tokens, rule, k);
    var rest := FoldSteps(tokens, rule, n.end);
    assert steps + ([n.step.value] + rest.steps) == (steps + [n.step.value]) + rest.steps;
  }

  /** A round that read no step ends the loop where that round ended. */
  lemma StepsAfterLast(tokens: seq<Token>, rule: Rule, steps: seq<Step>, k: int)
    requires InRange(tokens, k) && IsFold(rule) && NextStep(tokens, rule, k).step.None?
    ensures var n := NextStep(tokens, rule, k);
      StepsAfter(tokens, rule, steps, k) == Scan(steps, n.end, n.abort)
  {
    assert steps + [] == steps;
  }

  /**
   * `binary_expr`: the first operand, then the steps read after it, folded
   * to the left. A missing first operand is None in the innermost
   * expression; without it and without steps there is no match.
   */
  function ParseFold(tokens: seq<Token>, rule: Rule, k: int): (r: Res)
    requires InRange(tokens, k) && IsFold(rule)
    ensures Spans(tokens, k, r)
    decreases |tokens| - k, Rank(rule), 2
  {
    var lhs := Parse(tokens, Operand(rule), k);
    if lhs.parsed.Aborted? then lhs
    else
      var more := FoldSteps(tokens, rule, lhs.end);
      if more.abort.Some? then Res(Aborted(more.abort.value), more.end)
      else if lhs.parsed.NoMatch? && more.steps == [] then Res(NoMatch, more.end)
      else Res(Matched(LeftFold(lhs.parsed.Result().GetOr(PyNone), more.steps)), more.end)
  }

  // ---------------------------------------------------------------------------
  // Power and prefix operators

  /**
   * `power_expr`: an optional `√`, an integer, then the part after the
   * integer; the `√` applies last.
   */
  function ParsePower(tokens: seq<Token>, k: int): (r: Res)
    requires InRange(tokens, k)
    ensures Spans(tokens, k, r)
    decreases |tokens| - k, Rank(PowerExpr), 2
  {
    var root := TextAt(tokens, k, "√");
    var base := Parse(tokens, Rule.Integer, Past(k, root));
    if !base.parsed.Matched? then base
    else
      var tail := PowerTail(tokens, base.parsed.value, base.end);
      if tail.parsed.Aborted? then tail
      else
        var value := if root.Some? then Ast.UnaryExpr(tail.parsed.value, Operator(PyInt(root.value))) else tail.parsed.value;
        Res(Matched(value), tail.end)
  }

  /**
   * The part of `power_expr` after its integer `base`, which ends at `e`:
   * `^` and/or a second integer make a binary power; without either, an
   * optional `²` squares the base.
   */
  function PowerTail(tokens: seq<Token>, base: Node, e: int): (r: Res)
    requires InRange(tokens, e)
    ensures e <= r.end < |tokens| && !r.parsed.NoMatch?
    decreases |tokens| - e, Rank(PowerExpr), 1
  {
    var power := TextAt(tokens, e, "^");
    var exponent := Parse(tokens, Rule.Integer, Past(e, power));
    if exponent.parsed.Aborted? then exponent
    else
      var square := if power.None? && exponent.parsed.NoMatch? then TextAt(tokens, exponent.end, "²") else None;
      var unrooted :=
        if power.Some? || exponent.parsed.Matched? then
          BinaryExpr(base, Operator(IndexNode(power)), exponent.parsed.Result().GetOr(PyNone))
        else if square.Some? then Ast.UnaryExpr(base, Operator(PyInt(square.value)))
        else base;
      Res(Matched(unrooted), Past(exponent.end, square))
  }

  /** A sign `unary_expr` collects: `+`, `-` or `~`. */
  predicate IsSign(t: Token) {
    t.data == "+" || t.data == "-" || t.data == "~"
  }

  /** How many signs follow position `k` in a row. */
  function SignCount(tokens: seq<Token>, k: int): (n: nat)
    requires InRange(tokens, k)
    ensures k + n < |tokens|
    decreases |tokens| - k
  {
    if k + 1 < |tokens| && IsSign(tokens[k + 1]) then 1 + SignCount(tokens, k + 1) else 0
  }

  /** The operators of the `n` tokens after `k`, in the order they were written. */
  function SignOps(k: int, n: nat): (ops: seq<Node>)
    ensures |ops| == n
  {
    seq(n, i => Operator(PyInt(k + 1 + i)))
  }

  /** A sign after `k` is one more in the row. */
  lemma SignCountNext(tokens: seq<Token>, k: int)
    requires InRange(tokens, k)
    requires TokenIs(tokens, k + 1, "+") || TokenIs(tokens, k + 1, "-") || TokenIs(tokens, k + 1, "~")
    ensures SignCount(tokens, k) == 1 + SignCount(tokens, k + 1)
  {
  }

  /** No sign after `k`: the row is empty. */
  lemma SignCountEnd(tokens: seq<Token>, k: int)
    requires InRange(tokens, k)
    requires !TokenIs(tokens, k + 1, "+") && !TokenIs(tokens, k + 1, "-") && !TokenIs(tokens, k + 1, "~")
    ensures SignCount(tokens, k) == 0
  {
  }

  /** One more sign adds its operator at the end. */
  lemma SignOpsNext(k: int, n: nat)
    ensures SignOps(k, n + 1) == SignOps(k, n) + [Operator(PyInt(k + 1 + n))]
  {
  }

  /**
   * `unary_expr`: every sign that follows, then a power expression under
   * them, the first sign outermost.
   */
  function ParseUnary(tokens: seq<Token>, k: int): (r: Res)
    requires InRange(tokens, k)
    ensures Spans(tokens, k, r)
    decreases |tokens| - k, Rank(Rule.UnaryExpr), 2
  {
    var n := SignCount(tokens, k);
    var base := Parse(tokens, PowerExpr, k + n);
    if !base.parsed.Matched? then base
    else Res(Matched(Prefixed(SignOps(k, n), base.parsed.value)), base.end)
  }

  // ---------------------------------------------------------------------------
  // Tests

  /** `not_test`: a comparison; a `not` after it evaluates the undefined `not_op`, which raises. */
  function ParseNotTest(tokens: seq<Token>, k: int): (r: Res)
    requires InRange(tokens, k)
    ensures Spans(tokens, k, r)
    decreases |tokens| - k, Rank(NotTest), 2
  {
    var comparison := Parse(tokens, ComparisonExpr, k);
    if comparison.parsed.Aborted? then comparison
    else if TokenIs(tokens, comparison.end + 1, "not") then Res(Aborted(UndefinedName), comparison.end + 1)
    else comparison
  }

  /**
   * `test`: a disjunction, then `if` disjunction `else` disjunction for a
   * conditional. A partial conditional keeps what it consumed and returns
   * the first disjunction.
   */
  function ParseTest(tokens: seq<Token>, k: int): (r: Res)
    requires InRange(tokens, k)
    ensures Spans(tokens, k, r)
    decreases |tokens| - k, Rank(Test), 2
  {
    var first := Parse(tokens, OrTest, k);
    if !first.parsed.Matched? then first
    else
      var ifAt := TextAt(tokens, first.end, "if");
      if ifAt.None? then first
      else
        var cond := Parse(tokens, OrTest, ifAt.value);
        if cond.parsed.Aborted? then cond
        else if cond.parsed.NoMatch? then Res(first.parsed, ifAt.value)
        else
          var elseAt := TextAt(tokens, cond.end, "else");
          if elseAt.None? then Res(first.parsed, cond.end)
          else
            var alt := Parse(tokens, OrTest, elseAt.value);
            if alt.parsed.Aborted? then alt
            else if alt.parsed.NoMatch? then Res(first.parsed, elseAt.value)
            else Res(Matched(IfExpr(first.parsed.value, cond.parsed.value, alt.parsed.value)), alt.end)
  }

  // ---------------------------------------------------------------------------
  // Comma-separated rounds

  /**
   * One `revertable(consume_string(",") and …)` round at `k`, with the
   * checkpoint at `k`: a comma, the word `second` when given, then a value
   * of `item` when given. A failed round goes back to `k`; a round without
   * an item has the value None.
   */
  function Round(tokens: seq<Token>, second: Option<string>, item: Option<Rule>, k: int): (r: Res)
    requires InRange(tokens, k)
    ensures Spans(tokens, k, r) && (r.parsed.NoMatch? ==> r.end == k)
    ensures item.None? ==> !r.parsed.Aborted?
    decreases |tokens| - k, 0, 0
  {
    var comma := TextAt(tokens, k, ",");
    var word := if comma.Some? && second.Some? then TextAt(tokens, comma.value, second.value) else None;
    if comma.None? || (second.Some? && word.None?) then Res(NoMatch, k)
    else if item.None? then Res(Matched(PyNone), Past(comma.value, word))
    else
      var next := Parse(tokens, item.value, Past(comma.value, word));
      if next.parsed.NoMatch? then Res(NoMatch, k) else next
  }

  /** `register_revert()` then `while revertable(…)`: the values of the rounds that succeed, in order. */
  function Rounds(tokens: seq<Token>, second: Option<string>, item: Rule, k: int): (m: Many)
    requires InRange(tokens, k)
    ensures k <= m.end < |tokens|
    decreases |tokens| - k, 0, 1
  {
    var r := Round(tokens, second, Some(item), k);
    if r.parsed.Aborted? then Many([], r.end, Some(r.parsed.reason))
    else if r.parsed.NoMatch? then Many([], k, None)
    else
      var rest := Rounds(tokens, second, item, r.end);
      Many([r.parsed.value] + rest.items, rest.end, rest.abort)
  }

  /** The rounds from `k`, after rounds that gave `items`. */
  function RoundsAfter(tokens: seq<Token>, second: Option<string>, item: Rule, items: seq<Node>, k: int): (m: Many)
    requires InRange(tokens, k)
    ensures m.items == items + Rounds(tokens, second, item, k).items
    ensures m.end == Rounds(tokens, second, item, k).end && m.abort == Rounds(tokens, second, item, k).abort
  {
    var m := Rounds(tokens, second, item, k);
    Many(items + m.items, m.end, m.abort)
  }

  /** Before the first round, no item has been read. */
  lemma RoundsAfterStart(tokens: seq<Token>, second: Option<string>, item: Rule, k: int)
    requires InRange(tokens, k)
    ensures RoundsAfter(tokens, second, item, [], k) == Rounds(tokens, second, item, k)
  {
    assert [] + Rounds(tokens, second, item, k).items == Rounds(tokens, second, item, k).items;
  }

  /** A round that matched moves its value to the items already read. */
  lemma RoundsAfterNext(tokens: seq<Token>, second: Option<string>, item: Rule, items: seq<Node>, k: int)
    requires InRange(tokens, k) && Round(tokens, second, Some(item), k).parsed.Matched?
    ensures var r := Round(tokens, second, Some(item), k);
      RoundsAfter(tokens, second, item, items, k) == RoundsAfter(tokens, second, item, items + [r.parsed.value], r.end)
  {
    var r := Round(tokens, second, Some(item), k);
    var rest := Rounds(tokens, second, item, r.end);
    assert items + ([r.parsed.value] + rest.items) == (items + [r.parsed.value]) + rest.items;
  }

  /** A round that did not match ends the rounds: where it started, or where it raised. */
  lemma RoundsAfterLast(tokens: seq<Token>, second: Option<string>, item: Rule, items: seq<Node>, k: int)
    requires InRange(tokens, k) && !Round(tokens, second, Some(item), k).parsed.Matched?
    ensures var r := Round(tokens, second, Some(item), k);
      RoundsAfter(tokens, second, item, items, k) ==
        if r.parsed.Aborted? then Many(items, r.end, Some(r.parsed.reason)) else Many(items, k, None)
  {
    assert items + [] == items;
  }

  /**
   * `exprs`, `rest_exprs`, `identifiers`, `arguments`: an item, the items
   * of the rounds after it, then an optional trailing comma.
   */
  function ParseCommaList(tokens: seq<Token>, rule: Rule, item: Rule, k: int): (r: Res)
    requires InRange(tokens, k) && Rank(item) < Rank(rule)
    ensures Spans(tokens, k, r)
    decreases |tokens| - k, Rank(rule), 1
  {
    var first := Parse(tokens, item, k);
    if !first.parsed.Matched? then first
    else
      var more := Rounds(tokens, None, item, first.end);
      if more.abort.Some? then Res(Aborted(more.abort.value), more.end)
      else Res(Matched(PyList([first.parsed.value] + more.items)), Past(more.end, TextAt(tokens, more.end, ",")))
  }

  /** `subscript`: a comma list of subscript indices, wrapped in a `Subscript` without a subject. */
  function ParseSubscript(tokens: seq<Token>, k: int): (r: Res)
    requires InRange(tokens, k)
    ensures Spans(tokens, k, r)
    decreases |tokens| - k, Rank(Rule.Subscript), 2
  {
    var list := ParseCommaList(tokens, Rule.Subscript, Rule.SubscriptIndex, k);
    if list.parsed.Matched? then Res(Matched(Ast.Subscript(PyNone, list.parsed.value)), list.end) else list
  }

  // ---------------------------------------------------------------------------
  // Lambda parameters

  /** `lambda_param`: a name, then `=` and a default value when both are there. */
  function ParseLambdaParam(tokens: seq<Token>, k: int): (r: Res)
    requires InRange(tokens, k)
    ensures Spans(tokens, k, r)
    decreases |tokens| - k, Rank(LambdaParam), 2
  {
    var name := Parse(tokens, Rule.Identifier, k);
    if !name.parsed.Matched? then name
    else
      var eq := TextAt(tokens, name.end, "=");
      if eq.None? then Res(Matched(FuncParam(name.parsed.value)), name.end)
      else
        var value := Parse(tokens, Test, eq.value);
        if value.parsed.Aborted? then value
        else Res(Matched(FuncParam(name.parsed.value, defaultValueExpr := value.parsed.Result().GetOr(PyNone))), value.end)
  }

  /** `lambda_params`: the first of its four alternatives that matches, each tried from `k`. */
  function ParseLambdaParams(tokens: seq<Token>, k: int): (r: Res)
    requires InRange(tokens, k)
    ensures Spans(tokens, k, r)
    decreases |tokens| - k, Rank(LambdaParams), 2
  {
    var inParens := ParseParamsInParens(tokens, k);
    if !inParens.parsed.NoMatch? then inParens
    else
      var positional := ParseParamsPositional(tokens, k);
      if !positional.parsed.NoMatch? then positional
      else
        var starred := ParseParamsStarred(tokens, k);
        if !starred.parsed.NoMatch? then starred
        else ParseParamsDoubleStarred(tokens, k)
  }

  /** First alternative of `lambda_params`: `(`, parameters, `)`. */
  function ParseParamsInParens(tokens: seq<Token>, k: int): (r: Res)
    requires InRange(tokens, k)
    ensures Spans(tokens, k, r)
    decreases |tokens| - k, Rank(LambdaParams), 1
  {
    var open := TextAt(tokens, k, "(");
    if open.None? then Res(NoMatch, k)
    else
      var inner := Parse(tokens, LambdaParams, open.value);
      if !inner.parsed.Matched? then inner
      else
        var close := TextAt(tokens, inner.end, ")");
        if close.Some? then Res(inner.parsed, close.value) else Res(NoMatch, inner.end)
  }

  /**
   * Second alternative of `lambda_params`: parameters, then optionally `/`
   * and more parameters, then the `*` parameters and keyword-only ones, then
   * optionally `**` and a parameter.
   */
  function ParseParamsPositional(tokens: seq<Token>, k: int): (r: Res)
    requires InRange(tokens, k)
    ensures Spans(tokens, k, r)
    decreases |tokens| - k, Rank(LambdaParams), 1
  {
    var first := Parse(tokens, LambdaParam, k);
    if !first.parsed.Matched? then first
    else
      var more := Rounds(tokens, None, LambdaParam, first.end);
      if more.abort.Some? then Res(Aborted(more.abort.value), more.end)
      else
        var slash := ParseSlashPart(tokens, more.end);
        if slash.abort.Some? then Res(Aborted(slash.abort.value), slash.end)
        else
          var tail := ParseParamsTail(tokens, slash.end);
          if tail.abort.Some? then Res(Aborted(tail.abort.value), tail.end)
          else
            var params := [first.parsed.value] + more.items + slash.items;
            Res(Matched(FuncParams(PyList(params), tail.tupleRest, PyList(tail.keywordOnly), tail.named)), tail.end)
  }

  /** `(',' '/' (',' lambda_param)*)?`: the separator and the parameters after it, or nothing. */
  function ParseSlashPart(tokens: seq<Token>, k: int): (m: Many)
    requires InRange(tokens, k)
    ensures k <= m.end < |tokens|
    decreases |tokens| - k, 0, 2
  {
    var slash := Round(tokens, Some("/"), None, k);
    if !slash.parsed.Matched? then Many([], k, None)
    else
      var rest := Rounds(tokens, None, LambdaParam, slash.end);
      Many([PositionalParamsSeparator] + rest.items, rest.end, rest.abort)
  }

  /** The end of the positional alternative: `*` parameter, keyword-only parameters, `**` parameter. */
  datatype Tail = Tail(tupleRest: Node, keywordOnly: seq<Node>, named: Node, end: int, abort: Option<Abort>)

  /**
   * The `',' '*' param` rounds, of which the last parameter is kept, the
   * keyword-only parameters when there was one, and the optional
   * `',' '**' param`.
   */
  function ParseParamsTail(tokens: seq<Token>, k: int): (t: Tail)
    requires InRange(tokens, k)
    ensures k <= t.end < |tokens|
    decreases |tokens| - k, 0, 2
  {
    var stars := Rounds(tokens, Some("*"), LambdaParam, k);
    if stars.abort.Some? then Tail(PyNone, [], PyNone, stars.end, stars.abort)
    else
      var tupleRest := if |stars.items| > 0 then stars.items[|stars.items| - 1] else PyNone;
      var keywordOnly := if Truthy(tupleRest) then Rounds(tokens, None, LambdaParam, stars.end) else Many([], stars.end, None);
      if keywordOnly.abort.Some? then Tail(tupleRest, [], PyNone, keywordOnly.end, keywordOnly.abort)
      else
        var named := Round(tokens, Some("**"), Some(LambdaParam), keywordOnly.end);
        if named.parsed.Aborted? then Tail(tupleRest, keywordOnly.items, PyNone, named.end, Some(named.parsed.reason))
        else Tail(tupleRest, keywordOnly.items, named.parsed.Result().GetOr(PyNone), named.end, None)
  }

  /** Third alternative of `lambda_params`: `*` and a parameter, keyword-only parameters, then `**`. */
  function ParseParamsStarred(tokens: seq<Token>, k: int): (r: Res)
    requires InRange(tokens, k)
    ensures Spans(tokens, k, r)
    decreases |tokens| - k, Rank(LambdaParams), 1
  {
    var star := TextAt(tokens, k, "*");
    if star.None? then Res(NoMatch, k)
    else
      var tupleRest := Parse(tokens, LambdaParam, star.value);
      if !tupleRest.parsed.Matched? then tupleRest
      else
        var keywordOnly :=
          if Truthy(tupleRest.parsed.value) then Rounds(tokens, None, LambdaParam, tupleRest.end)
          else Many([], tupleRest.end, None);
        if keywordOnly.abort.Some? then Res(Aborted(keywordOnly.abort.value), keywordOnly.end)
        else
          var named := Round(tokens, Some("**"), Some(LambdaParam), keywordOnly.end);
          if named.parsed.Aborted? then named
          else
            var params := FuncParams(PyNone, tupleRest.parsed.value, PyList(keywordOnly.items), named.parsed.Result().GetOr(PyNone));
            Res(Matched(params), named.end)
  }

  /** Fourth alternative of `lambda_params`: `**` and a parameter. */
  function ParseParamsDoubleStarred(tokens: seq<Token>, k: int): (r: Res)
    requires InRange(tokens, k)
    ensures Spans(tokens, k, r)
    decreases |tokens| - k, Rank(LambdaParams), 1
  {
    var stars := TextAt(tokens, k, "**");
    if stars.None? then Res(NoMatch, k)
    else
      var named := Parse(tokens, LambdaParam, stars.value);
      if !named.parsed.Matched? then named
      else Res(Matched(FuncParams(PyNone, PyNone, PyNone, named.parsed.value)), named.end)
  }

  // ---------------------------------------------------------------------------
  // Expressions and lambdas

  /**
   * `lambda_expr_def`: `lambda`, optional parameters, `:` and an expression.
   * Without parameters the function gets an empty parameter list.
   */
  function ParseLambdaExprDef(tokens: seq<Token>, k: int): (r: Res)
    requires InRange(tokens, k)
    ensures Spans(tokens, k, r)
    decreases |tokens| - k, Rank(LambdaExprDef), 2
  {
    var keyword := TextAt(tokens, k, "lambda");
    if keyword.None? then Res(NoMatch, k)
    else
      var found := Parse(tokens, LambdaParams, keyword.value);
      if found.parsed.Aborted? then found
      else
        var params := if found.parsed.Matched? && Truthy(found.parsed.value) then found.parsed.value else PyList([]);
        var colon := TextAt(tokens, found.end, ":");
        if colon.None? then Res(NoMatch, found.end)
        else
          var body := Parse(tokens, Expr, colon.value);
          if !body.parsed.Matched? then body
          else Res(Matched(FuncExpr(PyNone, PyList([body.parsed.value]), params)), body.end)
  }

  /** `expr` and `indentable_expr`: the first rule, or else the second from the same position. */
  function ParseEither(tokens: seq<Token>, rule: Rule, first: Rule, second: Rule, k: int): (r: Res)
    requires InRange(tokens, k) && Rank(first) < Rank(rule) && Rank(second) < Rank(rule)
    ensures Spans(tokens, k, r)
    decreases |tokens| - k, Rank(rule), 2
  {
    var a := Parse(tokens, first, k);
    if !a.parsed.NoMatch? then a else Parse(tokens, second, k)
  }

  /** `while (x := self.rule()) is not None`: the values read from `k`, in order. */
  function Repeated(tokens: seq<Token>, rule: Rule, k: int): (m: Many)
    requires InRange(tokens, k)
    ensures k <= m.end < |tokens|
    decreases |tokens| - k, Rank(rule) + 1, 0
  {
    var r := Parse(tokens, rule, k);
    if r.parsed.Aborted? then Many([], r.end, Some(r.parsed.reason))
    else if r.parsed.NoMatch? then Many([], k, None)
    else
      var rest := Repeated(tokens, rule, r.end);
      Many([r.parsed.value] + rest.items, rest.end, rest.abort)
  }

  /**
   * `lambda_block_def`: `lambda`, optional parameters, `:`, an indent and
   * expressions. It then takes the length of the variable that ended the
   * expression loop, which is always None: a matching dedent raises.
   */
  function ParseLambdaBlockDef(tokens: seq<Token>, k: int): (r: Res)
    requires InRange(tokens, k)
    ensures Spans(tokens, k, r)
    decreases |tokens| - k, Rank(LambdaBlockDef), 2
  {
    var keyword := TextAt(tokens, k, "lambda");
    if keyword.None? then Res(NoMatch, k)
    else
      var found := Parse(tokens, LambdaParams, keyword.value);
      if found.parsed.Aborted? then found
      else
        var colon := TextAt(tokens, found.end, ":");
        if colon.None? then Res(NoMatch, found.end)
        else
          var indent := Parse(tokens, Rule.Indent, colon.value);
          if !indent.parsed.Matched? then Res(NoMatch, colon.value)
          else
            var block := Repeated(tokens, Expr, indent.end);
            if block.abort.Some? then Res(Aborted(block.abort.value), block.end)
            else
              var dedent := Parse(tokens, Rule.Dedent, block.end);
              if dedent.parsed.Matched? then Res(Aborted(LengthOfNone), dedent.end) else Res(NoMatch, block.end)
  }

  /** The cursor after the marker tests of `rest_expr`: a `*`, and a `**` when the `*` counted as absent. */
  function RestMarkEnd(tokens: seq<Token>, k: int): (e: int)
    requires InRange(tokens, k)
    ensures k <= e < |tokens|
  {
    var star := TextAt(tokens, k, "*");
    if star.Some? && star.value != 0 then star.value
    else Past(Past(k, star), TextAt(tokens, Past(k, star), "**"))
  }

  /** `rest_expr` and `rest_indentable_expr`: the marker, then the inner rule; the marker wraps it. */
  function ParseRest(tokens: seq<Token>, rule: Rule, inner: Rule, k: int): (r: Res)
    requires InRange(tokens, k) && Rank(inner) < Rank(rule)
    ensures Spans(tokens, k, r)
    decreases |tokens| - k, Rank(rule), 2
  {
    var result := Parse(tokens, inner, RestMarkEnd(tokens, k));
    if !result.parsed.Matched? then result
    else Res(Matched(Marked(RestMarkAt(tokens, k), result.parsed.value)), result.end)
  }

  // ---------------------------------------------------------------------------
  // Subscripts

  /**
   * `subscript_index`: a slice `from? ':' skip? (':' to?)?`, or else a plain
   * index read again from `k`.
   */
  function ParseSubscriptIndex(tokens: seq<Token>, k: int): (r: Res)
    requires InRange(tokens, k)
    ensures Spans(tokens, k, r)
    decreases |tokens| - k, Rank(Rule.SubscriptIndex), 2
  {
    var from := Parse(tokens, Test, k);
    if from.parsed.Aborted? then from
    else
      var slice := ParseSlice(tokens, from.parsed.Result(), from.end);
      if !slice.parsed.NoMatch? then slice
      else
        var index := Parse(tokens, Test, k);
        if !index.parsed.Matched? then index
        else Res(Matched(Ast.SubscriptIndex(index.parsed.value)), index.end)
  }

  /**
   * The slice after its first bound: `:`, an optional bound, then a second
   * `:` and an optional end bound. With a single colon the bound after it
   * is the end of the slice.
   */
  function ParseSlice(tokens: seq<Token>, from: Option<Node>, k: int): (r: Res)
    requires InRange(tokens, k)
    ensures Spans(tokens, k, r) && (r.parsed.NoMatch? <==> !TokenIs(tokens, k + 1, ":"))
    ensures r.parsed.NoMatch? ==> r.end == k
    decreases |tokens| - k, Rank(Rule.SubscriptIndex), 1
  {
    var colon := TextAt(tokens, k, ":");
    if colon.None? then Res(NoMatch, k)
    else
      var skip := Parse(tokens, Test, colon.value);
      if skip.parsed.Aborted? then skip
      else
        var second := TextAt(tokens, skip.end, ":");
        var to := if second.Some? then Parse(tokens, Test, second.value) else Res(NoMatch, skip.end);
        if to.parsed.Aborted? then to
        else
          var (skipExpr, toExpr) :=
            if to.parsed.NoMatch? && skip.parsed.Matched? && second.None? then (None, skip.parsed.Result())
            else (skip.parsed.Result(), to.parsed.Result());
          Res(Matched(Ast.SubscriptIndex(from.GetOr(PyNone), skipExpr.GetOr(PyNone), toExpr.GetOr(PyNone))), to.end)
  }

  // ---------------------------------------------------------------------------
  // Atoms and arguments

  /**
   * `atom`: a `(` starts alternatives whose rules are outside this model;
   * otherwise a float, an integer, one or more strings, `None`, `True`,
   * `False`, or a name, the first that matches.
   */
  function ParseAtom(tokens: seq<Token>, k: int): (r: Res)
    requires InRange(tokens, k)
    ensures Spans(tokens, k, r)
    decreases |tokens| - k, Rank(Atom), 2
  {
    if TokenIs(tokens, k + 1, "(") then Res(Aborted(Unmodelled), k + 1)
    else
      var float := Parse(tokens, Rule.Float, k);
      if float.parsed.Matched? then float
      else
        var integer := Parse(tokens, Rule.Integer, k);
        if integer.parsed.Matched? then integer
        else
          var strings := ParseStrings(tokens, k);
          if strings.parsed.Matched? then strings
          else
            var keyword := ParseKeyword(tokens, k);
            if keyword.parsed.Matched? then keyword
            else Parse(tokens, Rule.Identifier, k)
  }

  /** The string alternative of `atom`: a string and every string after it, as a list. */
  function ParseStrings(tokens: seq<Token>, k: int): (r: Res)
    requires InRange(tokens, k)
    ensures Spans(tokens, k, r) && !r.parsed.Aborted? && (r.parsed.NoMatch? ==> r.end == k)
    decreases |tokens| - k, Rank(Atom), 1
  {
    var first := Parse(tokens, Rule.String, k);
    if !first.parsed.Matched? then Res(NoMatch, k)
    else
      var more := Repeated(tokens, Rule.String, first.end);
      Res(Matched(AtomStrings(first.parsed.value, more.items)), more.end)
  }

  /** The keyword alternatives of `atom`: `None`, `True` or `False`. */
  function ParseKeyword(tokens: seq<Token>, k: int): (r: Res)
    requires InRange(tokens, k)
    ensures Spans(tokens, k, r) && !r.parsed.Aborted? && (r.parsed.NoMatch? ==> r.end == k)
  {
    if TokenIs(tokens, k + 1, "None") then Res(Matched(NoneLiteral), k + 1)
    else if TokenIs(tokens, k + 1, "True") then Res(Matched(Bool(true)), k + 1)
    else if TokenIs(tokens, k + 1, "False") then Res(Matched(Bool(false)), k + 1)
    else Res(NoMatch, k)
  }

  /** `argument`: a keyword argument, or else a possibly starred indentable expression. */
  function ParseArgument(tokens: seq<Token>, k: int): (r: Res)
    requires InRange(tokens, k)
    ensures Spans(tokens, k, r)
    decreases |tokens| - k, Rank(Rule.Argument), 2
  {
    var keyword := ParseKeywordArgument(tokens, k);
    if !keyword.parsed.NoMatch? then keyword
    else
      var rest := Parse(tokens, RestIndentableExpr, k);
      if !rest.parsed.Matched? then rest
      else Res(Matched(Ast.Argument(rest.parsed.value)), rest.end)
  }

  /** The keyword alternative of `argument`: a name, `=` and an indentable expression. */
  function ParseKeywordArgument(tokens: seq<Token>, k: int): (r: Res)
    requires InRange(tokens, k)
    ensures Spans(tokens, k, r)
    decreases |tokens| - k, Rank(Rule.Argument), 1
  {
    var name := Parse(tokens, Rule.Identifier, k);
    if !name.parsed.Matched? then name
    else
      var eq := TextAt(tokens, name.end, "=");
      if eq.None? then Res(NoMatch, name.end)
      else
        var value := Parse(tokens, IndentableExpr, eq.value);
        if !value.parsed.Matched? then value
        else Res(Matched(Ast.Argument(value.parsed.value, name.parsed.value)), value.end)
  }
}
