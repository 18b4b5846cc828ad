/**
 * The input `1 , lambda x` (with no `:` after the parameter) traced through
 * the rules. `exprs` reads `1`, registers its checkpoint at cursor 0 and
 * tries the round `, expr`. Inside that round `expr` tries `lambda_expr_def`,
 * whose `lambda_params` matches `x` through its positional alternative; that
 * alternative registers its own checkpoint at cursor 3. `lambda_expr_def`
 * then finds no `:` and fails, `test` fails on `lambda`, and the round
 * fails. The single checkpoint now holds cursor 3, so the round as written
 * jumps to 3 instead of going back to 0 (see `Parser.TryStepAsWritten`).
 * The rounds as intended (`Round`, `Parser.TryStep`) go back to 0, and the
 * list is `[1]` with the trailing comma consumed.
 */
module CheckpointTrace {
  import opened Wrappers
  import opened Tokens
  import opened Ast
  import opened ParserSpec
  import opened Grammar
  import Parsing

  /** The tokens of `1 , lambda x`. */
  const Input: seq<Token> := [
    Token(DecInteger, "1", 1, 0), Token(Other, ",", 1, 2),
    Token(Other, "lambda", 1, 4), Token(TokenKind.Identifier, "x", 1, 11)]

  /** The words of every binary operator, and the `not` and `if` that `not_test` and `test` look for. */
  predicate OperatorWord(w: string) {
    w in {"*", "@", "/", "%", "//", "+", "-", "<<", ">>", "&", "||", "|",
          "<", ">", "==", ">=", "<=", "!=", "in", "not", "is", "and", "or", "if"}
  }

  /** The next token after `k` is not a word of any operator in `ops`. */
  predicate NoneFollows(tokens: seq<Token>, ops: seq<OpSpec>, k: int) {
    forall i | 0 <= i < |ops| ::
      match ops[i]
      case Single(w) => !TokenIs(tokens, k + 1, w)
      case Pair(a, b) => !TokenIs(tokens, k + 1, a) && !TokenIs(tokens, k + 1, b)
  }

  /** When no operator word follows, the operator loop finds nothing and consumes nothing. */
  lemma {:induction false} NoOperator(tokens: seq<Token>, ops: seq<OpSpec>, k: int)
    requires InRange(tokens, k) && NoneFollows(tokens, ops, k)
    ensures MatchOp(tokens, ops, k).op.None? && MatchOp(tokens, ops, k).rem.None?
    decreases |ops|
  {
    if ops != [] {
      assert NoneFollows(tokens, ops[1..], k) by {
        forall i | 0 <= i < |ops| - 1
          ensures ops[1..][i] == ops[i + 1]
        {
        }
      }
      NoOperator(tokens, ops[1..], k);
    }
  }

  /** A token that is no operator word follows no fold rule's operand. */
  lemma NoFoldOperator(tokens: seq<Token>, rule: Rule, k: int)
    requires InRange(tokens, k) && IsFold(rule)
    requires k + 1 < |tokens| && !OperatorWord(tokens[k + 1].data)
    ensures NoneFollows(tokens, Operators(rule), k)
  {
  }

  /** An outcome of a rule that no operator word, `not` or `if` follows. */
  predicate Settled(tokens: seq<Token>, u: Res) {
    !u.parsed.Aborted? && -1 <= u.end && u.end + 1 < |tokens| && !OperatorWord(tokens[u.end + 1].data)
  }

  /** A fold rule whose operand gives a settled outcome gives that outcome. */
  lemma FoldThrough(tokens: seq<Token>, rule: Rule, k: int, u: Res)
    requires InRange(tokens, k) && IsFold(rule)
    requires Parse(tokens, Operand(rule), k) == u && Settled(tokens, u)
    ensures Parse(tokens, rule, k) == u
  {
    NoFoldOperator(tokens, rule, u.end);
    NoOperator(tokens, Operators(rule), u.end);
    assert FoldSteps(tokens, rule, u.end) == Scan([], u.end, None);
    BodyCases(tokens, rule, k);
    assert u.parsed.Matched? ==> LeftFold(u.parsed.value, []) == u.parsed.value;
  }

  /** `not_test` over a settled comparison gives the comparison. */
  lemma NotTestThrough(tokens: seq<Token>, k: int, u: Res)
    requires InRange(tokens, k)
    requires Parse(tokens, ComparisonExpr, k) == u && Settled(tokens, u)
    ensures Parse(tokens, NotTest, k) == u
  {
    BodyRules(tokens, NotTest, k);
  }

  /** `test` over a settled disjunction gives the disjunction. */
  lemma TestStep(tokens: seq<Token>, k: int, u: Res)
    requires InRange(tokens, k)
    requires Parse(tokens, OrTest, k) == u && Settled(tokens, u)
    ensures Parse(tokens, Test, k) == u
  {
    BodyRules(tokens, Test, k);
  }

  /** From `unary_expr` up to `test`, each rule gives the settled outcome of the one below it. */
  lemma TestThrough(tokens: seq<Token>, k: int, u: Res)
    requires InRange(tokens, k)
    requires Parse(tokens, Rule.UnaryExpr, k) == u && Settled(tokens, u)
    ensures Parse(tokens, Test, k) == u
  {
    FoldThrough(tokens, MulExpr, k, u);
    FoldThrough(tokens, SumExpr, k, u);
    FoldThrough(tokens, ShiftExpr, k, u);
    FoldThrough(tokens, AndExpr, k, u);
    FoldThrough(tokens, XorExpr, k, u);
    FoldThrough(tokens, OrExpr, k, u);
    FoldThrough(tokens, ComparisonExpr, k, u);
    NotTestThrough(tokens, k, u);
    FoldThrough(tokens, AndTest, k, u);
    FoldThrough(tokens, OrTest, k, u);
    TestStep(tokens, k, u);
  }

  /** The integer rule on each of the first three positions: only `1` is an integer. */
  lemma Integers()
    ensures Parse(Input, Rule.Integer, -1) == Res(Matched(Node.Integer(0)), 0)
    ensures Parse(Input, Rule.Integer, 0) == Res(NoMatch, 0)
    ensures Parse(Input, Rule.Integer, 1) == Res(NoMatch, 1)
  {
    BodyCases(Input, Rule.Integer, -1);
    BodyCases(Input, Rule.Integer, 0);
    BodyCases(Input, Rule.Integer, 1);
  }

  /** `power_expr` reads `1` alone from the start, and nothing at `lambda`. */
  lemma Powers()
    ensures Parse(Input, PowerExpr, -1) == Res(Matched(Node.Integer(0)), 0)
    ensures Parse(Input, PowerExpr, 1) == Res(NoMatch, 1)
  {
    Integers();
    BodyRules(Input, PowerExpr, -1);
    BodyRules(Input, PowerExpr, 1);
  }

  /** `unary_expr` reads `1` alone from the start, and nothing at `lambda`: no sign comes first. */
  lemma Unaries()
    ensures Parse(Input, Rule.UnaryExpr, -1) == Res(Matched(Node.Integer(0)), 0)
    ensures Parse(Input, Rule.UnaryExpr, 1) == Res(NoMatch, 1)
  {
    Powers();
    UnsignedUnary(-1, Res(Matched(Node.Integer(0)), 0));
    UnsignedUnary(1, Res(NoMatch, 1));
  }

  /** With no sign at `k + 1`, `unary_expr` gives what `power_expr` gives there. */
  lemma UnsignedUnary(k: int, u: Res)
    requires -1 <= k < |Input| - 1 && !IsSign(Input[k + 1])
    requires Parse(Input, PowerExpr, k) == u
    ensures Parse(Input, Rule.UnaryExpr, k) == u
  {
    assert SignCount(Input, k) == 0;
    assert u.parsed.Matched? ==> Prefixed([], u.parsed.value) == u.parsed.value;
    BodyRules(Input, Rule.UnaryExpr, k);
  }

  /** `test` reads `1` alone, since `,` follows it, and fails at `lambda`. */
  lemma Tests()
    ensures Parse(Input, Test, -1) == Res(Matched(Node.Integer(0)), 0)
    ensures Parse(Input, Test, 1) == Res(NoMatch, 1)
  {
    Unaries();
    SettledOnTrace();
    TestFrom(-1, Res(Matched(Node.Integer(0)), 0));
    TestFrom(1, Res(NoMatch, 1));
  }

  /** The two outcomes of `unary_expr` on the trace are followed by `,` and by `lambda`. */
  lemma SettledOnTrace()
    ensures Settled(Input, Res(Matched(Node.Integer(0)), 0))
    ensures Settled(Input, Res(NoMatch, 1))
  {
    assert Input[1].data == "," && Input[2].data == "lambda";
  }

  /** `TestThrough` on the trace, one start at a time. */
  lemma TestFrom(k: int, u: Res)
    requires -1 <= k < |Input| && Settled(Input, u)
    requires Parse(Input, Rule.UnaryExpr, k) == u
    ensures Parse(Input, Test, k) == u
  {
    TestThrough(Input, k, u);
  }

  /** `lambda_param` at `x`: the name, with no `=` after it. */
  lemma ParamX()
    ensures Parse(Input, LambdaParam, 2) == Res(Matched(FuncParam(Node.Identifier(3))), 3)
  {
    BodyCases(Input, Rule.Identifier, 2);
    BodyRules(Input, LambdaParam, 2);
  }

  /** After `x` the input ends: no round, no `/` part and no starred parameters follow. */
  lemma NothingAfterX()
    ensures Rounds(Input, None, LambdaParam, 3) == Many([], 3, None)
    ensures ParseSlashPart(Input, 3) == Many([], 3, None)
    ensures ParseParamsTail(Input, 3) == Tail(PyNone, [], PyNone, 3, None)
  {
    assert Round(Input, None, Some(LambdaParam), 3) == Res(NoMatch, 3);
    assert Round(Input, Some("*"), Some(LambdaParam), 3) == Res(NoMatch, 3);
    assert Round(Input, Some("**"), Some(LambdaParam), 3) == Res(NoMatch, 3);
  }

  /** `lambda_params` at `x`: the positional alternative matches the one parameter and stops at cursor 3. */
  lemma ParamsMatchX()
    ensures ParseParamsPositional(Input, 2) ==
              Res(Matched(FuncParams(PyList([FuncParam(Node.Identifier(3))]), PyNone, PyList([]), PyNone)), 3)
    ensures Parse(Input, LambdaParams, 2) == ParseParamsPositional(Input, 2)
  {
    ParamX();
    NothingAfterX();
    assert [FuncParam(Node.Identifier(3))] + [] + [] == [FuncParam(Node.Identifier(3))];
    assert ParseParamsInParens(Input, 2) == Res(NoMatch, 2);
    BodyRules(Input, LambdaParams, 2);
  }

  /** `lambda_expr_def` reads `lambda x`, finds no `:` after it and fails, with the cursor left at 3. */
  lemma LambdaDefFails()
    ensures ParseLambdaExprDef(Input, 1) == Res(NoMatch, 3)
    ensures Parse(Input, LambdaExprDef, 1) == Res(NoMatch, 1)
  {
    ParamsMatchX();
    BodyRules(Input, LambdaExprDef, 1);
  }

  /** `lambda_expr_def` fails after `,`, so `expr` falls back to `test`, which fails too. */
  lemma ExprFailsAtLambda()
    ensures Parse(Input, Expr, 1) == Res(NoMatch, 1)
  {
    LambdaDefFails();
    Tests();
    BodyRules(Input, Expr, 1);
  }

  /**
   * The round `, expr` after `1` fails, and the intended round goes back to
   * its own start, cursor 0, although the nested `lambda_params` matched up
   * to cursor 3.
   */
  lemma RoundGoesBack()
    ensures Round(Input, None, Some(Expr), 0) == Res(NoMatch, 0)
    ensures Rounds(Input, None, Expr, 0) == Many([], 0, None)
  {
    LambdaDefFails();
    ExprFailsAtLambda();
  }

  /** `expr` reads `1` alone: `lambda_expr_def` does not start there, and `test` reads the integer. */
  lemma ExprReadsOne()
    ensures Parse(Input, Expr, -1) == Res(Matched(Node.Integer(0)), 0)
  {
    BodyRules(Input, LambdaExprDef, -1);
    Tests();
    BodyRules(Input, Expr, -1);
  }

  /** `exprs` as intended on `1 , lambda x`: the list `[1]`, with the trailing comma consumed. */
  lemma ExprsOnTrace()
    ensures Parse(Input, Exprs, -1) == Res(Matched(PyList([Node.Integer(0)])), 1)
  {
    ExprReadsOne();
    RoundGoesBack();
    assert [Node.Integer(0)] + [] == [Node.Integer(0)];
    BodyListRules(Input, Exprs, -1);
  }

  /**
   * The round as written (`Parser.TryStepAsWritten`): it reads what `Round`
   * reads, but a failure goes back to `mark`, the checkpoint the item's rule
   * left behind, instead of the round's own start.
   */
  function RoundAsWritten(tokens: seq<Token>, second: Option<string>, item: Option<Rule>, k: int, mark: int): (r: Res)
    requires InRange(tokens, k)
    ensures r.parsed == Round(tokens, second, item, k).parsed
    ensures r.parsed.NoMatch? ==> r.end == mark
    ensures !r.parsed.NoMatch? ==> r.end == Round(tokens, second, item, k).end
  {
    var round := Round(tokens, second, item, k);
    if round.parsed.NoMatch? then Res(NoMatch, mark) else round
  }

  /**
   * `lambda_params` run by the parser on `x`: its positional alternative
   * matches and leaves the checkpoint at cursor 3, after `x`.
   */
  method PositionalCheckpoint() returns (mark: int)
    ensures mark == 3
  {
    var p := new Parsing.Parser(Input);
    p.cursor := 2;
    ParamsMatchX();
    var r := p.ParamsPositional();
    mark := p.revertData.cursor;
  }

  /**
   * On `1 , lambda x` the failed round `, expr` after `1` ends at cursor 3
   * as written, the checkpoint `lambda_params` left, where no trailing comma
   * follows: `exprs` returns `[1]` having skipped `, lambda x`. As intended
   * the round goes back to 0 and the trailing comma is consumed, ending at 1.
   */
  lemma RoundJumpsAsWritten()
    ensures RoundAsWritten(Input, None, Some(Expr), 0, ParseParamsPositional(Input, 2).end) == Res(NoMatch, 3)
    ensures TextAt(Input, 3, ",").None?
    ensures Round(Input, None, Some(Expr), 0) == Res(NoMatch, 0)
    ensures Past(0, TextAt(Input, 0, ",")) == 1
  {
    ParamsMatchX();
    RoundGoesBack();
  }
}
