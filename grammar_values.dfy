/**
 * Every value a rule of `Grammar` returns has the shape `ParserSpec.IsValue`
 * gives that rule: the tree a rule builds is made of values of the rules it
 * called, joined as its code joins them. Together with the proofs that the
 * parser returns exactly what `Grammar` computes, this says that a rule of
 * the parser only ever returns a tree of its own kind.
 */
module GrammarValues {
  import opened Wrappers
  import opened Tokens
  import opened Ast
  import opened ParserSpec
  import opened Grammar

  /** A match of `rule` from `k` is a value of `rule`. */
  lemma {:induction false} ParseSound(tokens: seq<Token>, rule: Rule, k: int)
    requires InRange(tokens, k)
    ensures var r := Parse(tokens, rule, k);
            r.parsed.Matched? ==> IsValue(tokens, rule, r.parsed.value)
    decreases |tokens| - k, Rank(rule), 5
  {
    BodySound(tokens, rule, k);
  }

  /** A match of the body of `rule` from `k` is a value of `rule`. */
  lemma {:induction false} BodySound(tokens: seq<Token>, rule: Rule, k: int)
    requires InRange(tokens, k)
    ensures var r := Body(tokens, rule, k);
            r.parsed.Matched? ==> IsValue(tokens, rule, r.parsed.value)
    decreases |tokens| - k, Rank(rule), 4
  {
    BodyCases(tokens, rule, k);
    if IsLiteral(rule) {
    } else if IsFold(rule) {
      FoldSound(tokens, rule, k);
    } else if IsListRule(rule) {
      ListRuleSound(tokens, rule, k);
    } else {
      OtherRuleSound(tokens, rule, k);
    }
  }

  /** The rules whose bodies are comma lists, subscripts, atoms and arguments. */
  lemma {:induction false} ListRuleSound(tokens: seq<Token>, rule: Rule, k: int)
    requires InRange(tokens, k) && IsListRule(rule)
    ensures var r := Body(tokens, rule, k);
            r.parsed.Matched? ==> IsValue(tokens, rule, r.parsed.value)
    decreases |tokens| - k, Rank(rule), 3
  {
    BodyListRules(tokens, rule, k);
    if rule.SubscriptIndex? {
      SubscriptIndexSound(tokens, k);
    } else if rule.Atom? {
      AtomSound(tokens, k);
    } else if rule.Argument? {
      ArgumentSound(tokens, k);
    } else {
      CommaRuleSound(tokens, rule, k);
    }
  }

  /** The rules whose bodies are comma lists. */
  lemma {:induction false} CommaRuleSound(tokens: seq<Token>, rule: Rule, k: int)
    requires InRange(tokens, k) && IsListRule(rule)
    requires !rule.SubscriptIndex? && !rule.Atom? && !rule.Argument?
    ensures var r := Body(tokens, rule, k);
            r.parsed.Matched? ==> IsValue(tokens, rule, r.parsed.value)
    decreases |tokens| - k, Rank(rule), 2
  {
    BodyListRules(tokens, rule, k);
    if rule.Exprs? {
      CommaListSound(tokens, Exprs, Expr, k);
    } else if rule.RestExprs? {
      CommaListSound(tokens, RestExprs, RestExpr, k);
    } else {
      NamedListSound(tokens, rule, k);
    }
  }

  /** `identifiers`, `arguments` and `subscript`. */
  lemma {:induction false} NamedListSound(tokens: seq<Token>, rule: Rule, k: int)
    requires InRange(tokens, k) && (rule.Identifiers? || rule.Arguments? || rule.Subscript?)
    ensures var r := Body(tokens, rule, k);
            r.parsed.Matched? ==> IsValue(tokens, rule, r.parsed.value)
    decreases |tokens| - k, Rank(rule), 1
  {
    BodyListRules(tokens, rule, k);
    if rule.Identifiers? {
      CommaListSound(tokens, Identifiers, Rule.Identifier, k);
    } else if rule.Arguments? {
      CommaListSound(tokens, Arguments, Rule.Argument, k);
    } else {
      CommaListSound(tokens, Rule.Subscript, Rule.SubscriptIndex, k);
    }
  }

  /** The rules that are neither literals, folds nor list rules. */
  lemma {:induction false} OtherRuleSound(tokens: seq<Token>, rule: Rule, k: int)
    requires InRange(tokens, k) && !IsLiteral(rule) && !IsFold(rule) && !IsListRule(rule)
    ensures var r := Body(tokens, rule, k);
            r.parsed.Matched? ==> IsValue(tokens, rule, r.parsed.value)
    decreases |tokens| - k, Rank(rule), 3
  {
    BodyRules(tokens, rule, k);
    if rule.PowerExpr? {
      PowerSound(tokens, k);
    } else if rule.UnaryExpr? {
      UnarySound(tokens, k);
    } else if rule.NotTest? {
      ParseSound(tokens, ComparisonExpr, k);
    } else if rule.Test? {
      TestSound(tokens, k);
    } else if rule.LambdaParam? {
      LambdaParamSound(tokens, k);
    } else if rule.LambdaParams? {
      LambdaParamsSound(tokens, k);
    } else if rule.LambdaExprDef? {
      LambdaExprDefSound(tokens, k);
    } else if rule.Expr? {
      ParseSound(tokens, LambdaExprDef, k);
      ParseSound(tokens, Test, k);
    } else if rule.LambdaBlockDef? {
      LambdaBlockDefNeverMatches(tokens, k);
    } else if rule.IndentableExpr? {
      ParseSound(tokens, LambdaBlockDef, k);
      ParseSound(tokens, Expr, k);
    } else if rule.RestExpr? {
      RestSound(tokens, RestExpr, Expr, k);
    } else {
      RestSound(tokens, RestIndentableExpr, IndentableExpr, k);
    }
  }

  // ---------------------------------------------------------------------------
  // Binary operators

  /** A step of the fold of `rule`: an operator of `rule`, then a value of its operand rule. */
  ghost predicate StepOk(tokens: seq<Token>, rule: Rule, s: Step)
    requires IsFold(rule)
  {
    && (exists i | 0 <= i < |Operators(rule)| :: OpMatches(tokens, Operators(rule)[i], s.op))
    && IsValue(tokens, Operand(rule), s.rhs)
  }

  /** An operator the loop of `binary_expr` finds is one of `ops`, at the tokens it consumed. */
  lemma {:induction false} MatchOpSound(tokens: seq<Token>, ops: seq<OpSpec>, k: int)
    requires InRange(tokens, k)
    ensures var m := MatchOp(tokens, ops, k);
            m.op.Some? ==> OpMatches(tokens, ops[m.which], Operator(PyInt(m.op.value), IndexNode(m.rem)))
    decreases |ops|
  {
    if ops != [] {
      MatchOpSound(tokens, ops[1..], k);
    }
  }

  /** A step one round of the fold loop reads is a step of the rule. */
  lemma {:induction false} NextStepSound(tokens: seq<Token>, rule: Rule, k: int)
    requires InRange(tokens, k) && IsFold(rule)
    ensures var n := NextStep(tokens, rule, k);
            n.step.Some? ==> StepOk(tokens, rule, n.step.value)
    decreases |tokens| - k, Rank(rule), 0
  {
    var m := MatchOp(tokens, Operators(rule), k);
    if m.op.Some? {
      MatchOpSound(tokens, Operators(rule), k);
      ParseSound(tokens, Operand(rule), m.end);
    }
  }

  /** Every step is a step of the fold of `rule`. */
  ghost predicate AllSteps(tokens: seq<Token>, rule: Rule, steps: seq<Step>)
    requires IsFold(rule)
  {
    forall i | 0 <= i < |steps| :: StepOk(tokens, rule, steps[i])
  }

  /** A step in front of steps of the rule are steps of the rule. */
  lemma AllStepsCons(tokens: seq<Token>, rule: Rule, x: Step, rest: seq<Step>)
    requires IsFold(rule) && StepOk(tokens, rule, x) && AllSteps(tokens, rule, rest)
    ensures AllSteps(tokens, rule, [x] + rest)
  {
    forall i | 1 <= i < |[x] + rest|
      ensures StepOk(tokens, rule, ([x] + rest)[i])
    {
      assert ([x] + rest)[i] == rest[i - 1];
    }
  }

  /** Every step the fold loop reads is a step of the rule. */
  lemma {:induction false} StepsSound(tokens: seq<Token>, rule: Rule, k: int)
    requires InRange(tokens, k) && IsFold(rule)
    ensures AllSteps(tokens, rule, FoldSteps(tokens, rule, k).steps)
    decreases |tokens| - k, Rank(rule), 1
  {
    var n := NextStep(tokens, rule, k);
    NextStepSound(tokens, rule, k);
    if n.step.Some? {
      StepsSound(tokens, rule, n.end);
      AllStepsCons(tokens, rule, n.step.value, FoldSteps(tokens, rule, n.end).steps);
    }
  }

  /** Steps of the rule folded onto a value of the rule, or onto a missing first operand, give a value of the rule. */
  lemma {:induction false} LeftFoldSound(tokens: seq<Token>, rule: Rule, first: Option<Node>, steps: seq<Step>)
    requires IsFold(rule) && (first.Some? ==> FoldValue(tokens, rule, first.value))
    requires first.Some? || steps != []
    requires AllSteps(tokens, rule, steps)
    ensures FoldValue(tokens, rule, LeftFold(first.GetOr(PyNone), steps))
    decreases |steps|
  {
    if steps != [] {
      var init, last := steps[..|steps| - 1], steps[|steps| - 1];
      assert StepOk(tokens, rule, last);
      var which :| 0 <= which < |Operators(rule)| && OpMatches(tokens, Operators(rule)[which], last.op);
      if init == [] {
        assert LeftFold(first.GetOr(PyNone), init) == first.GetOr(PyNone);
        FoldStep(tokens, rule, first, which, last);
      } else {
        assert AllSteps(tokens, rule, init) by {
          forall i | 0 <= i < |init|
            ensures StepOk(tokens, rule, init[i])
          {
            assert init[i] == steps[i];
          }
        }
        LeftFoldSound(tokens, rule, first, init);
        FoldStep(tokens, rule, Some(LeftFold(first.GetOr(PyNone), init)), which, last);
      }
    }
  }

  /** `binary_expr` returns a value of its rule. */
  lemma {:induction false} FoldSound(tokens: seq<Token>, rule: Rule, k: int)
    requires InRange(tokens, k) && IsFold(rule)
    ensures var r := ParseFold(tokens, rule, k);
            r.parsed.Matched? ==> IsValue(tokens, rule, r.parsed.value)
    decreases |tokens| - k, Rank(rule), 2
  {
    var lhs := Parse(tokens, Operand(rule), k);
    ParseSound(tokens, Operand(rule), k);
    if !lhs.parsed.Aborted? {
      if lhs.parsed.Matched? {
        assert FoldValue(tokens, rule, lhs.parsed.value);
      }
      var more := FoldSteps(tokens, rule, lhs.end);
      StepsSound(tokens, rule, lhs.end);
      if more.abort.None? && (lhs.parsed.Matched? || more.steps != []) {
        LeftFoldSound(tokens, rule, lhs.parsed.Result(), more.steps);
      }
    }
  }

  // ---------------------------------------------------------------------------
  // Power and prefix operators

  /** `power_expr` returns a power value. */
  lemma PowerSound(tokens: seq<Token>, k: int)
    requires InRange(tokens, k)
    ensures var r := ParsePower(tokens, k);
            r.parsed.Matched? ==> PowerValue(tokens, r.parsed.value)
    decreases |tokens| - k, Rank(PowerExpr), 2
  {
    var root := TextAt(tokens, k, "√");
    var base := Parse(tokens, Rule.Integer, Past(k, root));
    if base.parsed.Matched? {
      ParseSound(tokens, Rule.Integer, Past(k, root));
      var tail := PowerTail(tokens, base.parsed.value, base.end);
      PowerTailSound(tokens, base.parsed.value, base.end);
      if tail.parsed.Matched? {
        PowerRooted(tokens, tail.parsed.value, root);
      }
    }
  }

  /** The part after the integer gives a power without `√`. */
  lemma PowerTailSound(tokens: seq<Token>, base: Node, e: int)
    requires InRange(tokens, e) && IsValue(tokens, Rule.Integer, base)
    ensures var r := PowerTail(tokens, base, e);
            r.parsed.Matched? ==> UnrootedPower(tokens, r.parsed.value)
    decreases |tokens| - e, Rank(PowerExpr), 1
  {
    var power := TextAt(tokens, e, "^");
    var exponent := Parse(tokens, Rule.Integer, Past(e, power));
    if !exponent.parsed.Aborted? {
      ParseSound(tokens, Rule.Integer, Past(e, power));
      if power.Some? || exponent.parsed.Matched? {
        PowerWithExponent(tokens, base, power, exponent.parsed.Result());
      } else {
        PowerSquared(tokens, base, TextAt(tokens, exponent.end, "²"));
      }
    }
  }

  /** The tokens `SignCount` counts are signs. */
  lemma {:induction false} SignsAreSigns(tokens: seq<Token>, k: int)
    requires InRange(tokens, k)
    ensures forall j | k < j <= k + SignCount(tokens, k) :: IsSign(tokens[j])
    decreases |tokens| - k
  {
    if SignCount(tokens, k) > 0 {
      SignsAreSigns(tokens, k + 1);
      assert SignCount(tokens, k) == 1 + SignCount(tokens, k + 1);
    }
  }

  /** `unary_expr` returns a power value under sign operators. */
  lemma UnarySound(tokens: seq<Token>, k: int)
    requires InRange(tokens, k)
    ensures var r := ParseUnary(tokens, k);
            r.parsed.Matched? ==> UnaryValue(tokens, r.parsed.value)
    decreases |tokens| - k, Rank(Rule.UnaryExpr), 2
  {
    var n := SignCount(tokens, k);
    var base := Parse(tokens, PowerExpr, k + n);
    ParseSound(tokens, PowerExpr, k + n);
    if base.parsed.Matched? {
      SignsAreSigns(tokens, k);
      var ops := SignOps(k, n);
      forall i | 0 <= i < |ops|
        ensures SignOp(tokens, ops[i])
      {
        assert ops[i] == Operator(PyInt(k + 1 + i));
        assert k < k + 1 + i <= k + n;
      }
      PrefixedUnary(tokens, ops, base.parsed.value);
    }
  }

  /** `test` returns a disjunction or a conditional of three disjunctions. */
  lemma TestSound(tokens: seq<Token>, k: int)
    requires InRange(tokens, k)
    ensures var r := ParseTest(tokens, k);
            r.parsed.Matched? ==> TestValue(tokens, r.parsed.value)
    decreases |tokens| - k, Rank(Test), 2
  {
    var first := Parse(tokens, OrTest, k);
    ParseSound(tokens, OrTest, k);
    if first.parsed.Matched? {
      var ifAt := TextAt(tokens, first.end, "if");
      if ifAt.Some? {
        var cond := Parse(tokens, OrTest, ifAt.value);
        ParseSound(tokens, OrTest, ifAt.value);
        if cond.parsed.Matched? {
          var elseAt := TextAt(tokens, cond.end, "else");
          if elseAt.Some? {
            ParseSound(tokens, OrTest, elseAt.value);
          }
        }
      }
    }
  }

  // ---------------------------------------------------------------------------
  // Comma-separated rounds

  /** A round with an item that matches returns a value of the item rule. */
  lemma RoundSound(tokens: seq<Token>, second: Option<string>, item: Rule, k: int)
    requires InRange(tokens, k)
    ensures var r := Round(tokens, second, Some(item), k);
            r.parsed.Matched? ==> IsValue(tokens, item, r.parsed.value)
    decreases |tokens| - k, 0, 0
  {
    var comma := TextAt(tokens, k, ",");
    var word := if comma.Some? && second.Some? then TextAt(tokens, comma.value, second.value) else None;
    if comma.Some? && !(second.Some? && word.None?) {
      ParseSound(tokens, item, Past(comma.value, word));
    }
  }

  /** Every item is a value of `item`. */
  ghost predicate AllOf(tokens: seq<Token>, item: Rule, items: seq<Node>) {
    forall i | 0 <= i < |items| :: IsValue(tokens, item, items[i])
  }

  /** A value in front of values is a sequence of values. */
  lemma AllOfCons(tokens: seq<Token>, item: Rule, x: Node, rest: seq<Node>)
    requires IsValue(tokens, item, x) && AllOf(tokens, item, rest)
    ensures AllOf(tokens, item, [x] + rest)
  {
    forall i | 1 <= i < |[x] + rest|
      ensures IsValue(tokens, item, ([x] + rest)[i])
    {
      assert ([x] + rest)[i] == rest[i - 1];
    }
  }

  /** Every item the rounds read is a value of the item rule. */
  lemma {:induction false} RoundsSound(tokens: seq<Token>, second: Option<string>, item: Rule, k: int)
    requires InRange(tokens, k)
    ensures AllOf(tokens, item, Rounds(tokens, second, item, k).items)
    decreases |tokens| - k, 0, 1
  {
    var r := Round(tokens, second, Some(item), k);
    RoundSound(tokens, second, item, k);
    if r.parsed.Matched? {
      RoundsSound(tokens, second, item, r.end);
      AllOfCons(tokens, item, r.parsed.value, Rounds(tokens, second, item, r.end).items);
    }
  }

  /** A value in front of values of the same rule makes a list of that rule. */
  lemma ListOfCons(tokens: seq<Token>, item: Rule, first: Node, more: seq<Node>)
    requires IsValue(tokens, item, first) && AllOf(tokens, item, more)
    ensures ListOf(tokens, item, PyList([first] + more))
  {
    ListCons(tokens, item, first, more);
  }

  /** A comma list is a non-empty list of values of its item rule. */
  lemma CommaListSound(tokens: seq<Token>, rule: Rule, item: Rule, k: int)
    requires InRange(tokens, k) && Rank(item) < Rank(rule)
    ensures var r := ParseCommaList(tokens, rule, item, k);
            r.parsed.Matched? ==> ListOf(tokens, item, r.parsed.value)
    decreases |tokens| - k, Rank(rule), 0
  {
    var first := Parse(tokens, item, k);
    ParseSound(tokens, item, k);
    if first.parsed.Matched? {
      var more := Rounds(tokens, None, item, first.end);
      RoundsSound(tokens, None, item, first.end);
      ListOfCons(tokens, item, first.parsed.value, more.items);
    }
  }

  // ---------------------------------------------------------------------------
  // Lambda parameters

  /** `lambda_param` returns a name with an optional default value. */
  lemma LambdaParamSound(tokens: seq<Token>, k: int)
    requires InRange(tokens, k)
    ensures var r := ParseLambdaParam(tokens, k);
            r.parsed.Matched? ==> LambdaParamValue(tokens, r.parsed.value)
    decreases |tokens| - k, Rank(LambdaParam), 2
  {
    var name := Parse(tokens, Rule.Identifier, k);
    ParseSound(tokens, Rule.Identifier, k);
    if name.parsed.Matched? {
      var eq := TextAt(tokens, name.end, "=");
      if eq.Some? {
        ParseSound(tokens, Test, eq.value);
      }
    }
  }

  /** `lambda_params` returns a parameter list, whichever alternative matched. */
  lemma LambdaParamsSound(tokens: seq<Token>, k: int)
    requires InRange(tokens, k)
    ensures var r := ParseLambdaParams(tokens, k);
            r.parsed.Matched? ==> LambdaParamsValue(tokens, r.parsed.value)
    decreases |tokens| - k, Rank(LambdaParams), 2
  {
    InParensSound(tokens, k);
    PositionalSound(tokens, k);
    StarredSound(tokens, k);
    DoubleStarredSound(tokens, k);
  }

  /** The parenthesised alternative returns the parameter list inside. */
  lemma InParensSound(tokens: seq<Token>, k: int)
    requires InRange(tokens, k)
    ensures var r := ParseParamsInParens(tokens, k);
            r.parsed.Matched? ==> LambdaParamsValue(tokens, r.parsed.value)
    decreases |tokens| - k, Rank(LambdaParams), 1
  {
    var open := TextAt(tokens, k, "(");
    if open.Some? {
      ParseSound(tokens, LambdaParams, open.value);
    }
  }

  /** Every item is the `/` separator or a parameter. */
  ghost predicate ParamsOf(tokens: seq<Token>, items: seq<Node>) {
    forall i | 0 <= i < |items| :: items[i] == PositionalParamsSeparator || IsValue(tokens, LambdaParam, items[i])
  }

  /** The part after `/` is the separator followed by parameters. */
  lemma SlashSound(tokens: seq<Token>, k: int)
    requires InRange(tokens, k)
    ensures ParamsOf(tokens, ParseSlashPart(tokens, k).items)
    decreases |tokens| - k, 0, 2
  {
    var slash := Round(tokens, Some("/"), None, k);
    if slash.parsed.Matched? {
      RoundsSound(tokens, None, LambdaParam, slash.end);
      var rest := Rounds(tokens, None, LambdaParam, slash.end).items;
      var m := [PositionalParamsSeparator] + rest;
      forall i | 1 <= i < |m|
        ensures IsValue(tokens, LambdaParam, m[i])
      {
        assert m[i] == rest[i - 1];
      }
      assert ParamsOf(tokens, m);
    }
  }

  /** The positional parameters, more parameters and the part after `/` are all parameters or the separator. */
  lemma ParamsJoin(tokens: seq<Token>, first: Node, more: seq<Node>, afterSlash: seq<Node>)
    requires IsValue(tokens, LambdaParam, first) && AllOf(tokens, LambdaParam, more) && ParamsOf(tokens, afterSlash)
    ensures ParamsOf(tokens, [first] + more + afterSlash)
  {
    ParamList(tokens, first, more, afterSlash);
  }

  /** The tail of the positional alternative: each of its parts is absent or made of parameters. */
  lemma TailSound(tokens: seq<Token>, k: int)
    requires InRange(tokens, k)
    ensures var t := ParseParamsTail(tokens, k);
            && OptionalOf(tokens, LambdaParam, t.tupleRest)
            && AllOf(tokens, LambdaParam, t.keywordOnly)
            && OptionalOf(tokens, LambdaParam, t.named)
    decreases |tokens| - k, 0, 2
  {
    var stars := Rounds(tokens, Some("*"), LambdaParam, k);
    RoundsSound(tokens, Some("*"), LambdaParam, k);
    if stars.abort.None? {
      var tupleRest := if |stars.items| > 0 then stars.items[|stars.items| - 1] else PyNone;
      if Truthy(tupleRest) {
        RoundsSound(tokens, None, LambdaParam, stars.end);
      }
      var keywordOnly := if Truthy(tupleRest) then Rounds(tokens, None, LambdaParam, stars.end) else Many([], stars.end, None);
      if keywordOnly.abort.None? {
        RoundSound(tokens, Some("**"), LambdaParam, keywordOnly.end);
      }
    }
  }

  /** The positional alternative returns its parameters, the separator and the tail's parts. */
  lemma PositionalSound(tokens: seq<Token>, k: int)
    requires InRange(tokens, k)
    ensures var r := ParseParamsPositional(tokens, k);
            r.parsed.Matched? ==> LambdaParamsValue(tokens, r.parsed.value)
    decreases |tokens| - k, Rank(LambdaParams), 1
  {
    var first := Parse(tokens, LambdaParam, k);
    ParseSound(tokens, LambdaParam, k);
    if first.parsed.Matched? {
      var more := Rounds(tokens, None, LambdaParam, first.end);
      RoundsSound(tokens, None, LambdaParam, first.end);
      if more.abort.None? {
        var slash := ParseSlashPart(tokens, more.end);
        SlashSound(tokens, more.end);
        if slash.abort.None? {
          TailSound(tokens, slash.end);
          ParamsJoin(tokens, first.parsed.value, more.items, slash.items);
        }
      }
    }
  }

  /** The starred alternative returns a tuple rest parameter and what follows it. */
  lemma StarredSound(tokens: seq<Token>, k: int)
    requires InRange(tokens, k)
    ensures var r := ParseParamsStarred(tokens, k);
            r.parsed.Matched? ==> LambdaParamsValue(tokens, r.parsed.value)
    decreases |tokens| - k, Rank(LambdaParams), 1
  {
    var star := TextAt(tokens, k, "*");
    if star.Some? {
      var tupleRest := Parse(tokens, LambdaParam, star.value);
      ParseSound(tokens, LambdaParam, star.value);
      if tupleRest.parsed.Matched? {
        if Truthy(tupleRest.parsed.value) {
          RoundsSound(tokens, None, LambdaParam, tupleRest.end);
        }
        var keywordOnly :=
          if Truthy(tupleRest.parsed.value) then Rounds(tokens, None, LambdaParam, tupleRest.end)
          else Many([], tupleRest.end, None);
        if keywordOnly.abort.None? {
          RoundSound(tokens, Some("**"), LambdaParam, keywordOnly.end);
        }
      }
    }
  }

  /** The double-starred alternative returns the one named tuple rest parameter. */
  lemma DoubleStarredSound(tokens: seq<Token>, k: int)
    requires InRange(tokens, k)
    ensures var r := ParseParamsDoubleStarred(tokens, k);
            r.parsed.Matched? ==> LambdaParamsValue(tokens, r.parsed.value)
    decreases |tokens| - k, Rank(LambdaParams), 1
  {
    var stars := TextAt(tokens, k, "**");
    if stars.Some? {
      ParseSound(tokens, LambdaParam, stars.value);
    }
  }

  // ---------------------------------------------------------------------------
  // Expressions and lambdas

  /** `lambda_expr_def` returns a nameless function whose body is one expression. */
  lemma LambdaExprDefSound(tokens: seq<Token>, k: int)
    requires InRange(tokens, k)
    ensures var r := ParseLambdaExprDef(tokens, k);
            r.parsed.Matched? ==> LambdaExprValue(tokens, r.parsed.value)
    decreases |tokens| - k, Rank(LambdaExprDef), 2
  {
    var keyword := TextAt(tokens, k, "lambda");
    if keyword.Some? {
      var found := Parse(tokens, LambdaParams, keyword.value);
      ParseSound(tokens, LambdaParams, keyword.value);
      if !found.parsed.Aborted? {
        var colon := TextAt(tokens, found.end, ":");
        if colon.Some? {
          ParseSound(tokens, Expr, colon.value);
        }
      }
    }
  }

  /** `lambda_block_def` never returns a value: it fails or raises. */
  lemma LambdaBlockDefNeverMatches(tokens: seq<Token>, k: int)
    requires InRange(tokens, k)
    ensures !ParseLambdaBlockDef(tokens, k).parsed.Matched?
  {
  }

  /** `rest_expr` and `rest_indentable_expr` return a value of the inner rule, possibly marked. */
  lemma RestSound(tokens: seq<Token>, rule: Rule, inner: Rule, k: int)
    requires InRange(tokens, k) && Rank(inner) < Rank(rule)
    ensures var r := ParseRest(tokens, rule, inner, k);
            r.parsed.Matched? ==> RestOf(tokens, inner, r.parsed.value)
    decreases |tokens| - k, Rank(rule), 2
  {
    var result := Parse(tokens, inner, RestMarkEnd(tokens, k));
    ParseSound(tokens, inner, RestMarkEnd(tokens, k));
    if result.parsed.Matched? {
      MarkedRest(tokens, inner, RestMarkAt(tokens, k), result.parsed.value);
    }
  }

  // ---------------------------------------------------------------------------
  // Subscripts

  /** A slice holds up to three optional bounds, each a `test` value. */
  lemma SliceSound(tokens: seq<Token>, from: Option<Node>, k: int)
    requires InRange(tokens, k) && (from.Some? ==> IsValue(tokens, Test, from.value))
    ensures var r := ParseSlice(tokens, from, k);
            r.parsed.Matched? ==> SubscriptIndexValue(tokens, r.parsed.value)
    decreases |tokens| - k, Rank(Rule.SubscriptIndex), 1
  {
    var colon := TextAt(tokens, k, ":");
    if colon.Some? {
      var skip := Parse(tokens, Test, colon.value);
      ParseSound(tokens, Test, colon.value);
      if !skip.parsed.Aborted? {
        var second := TextAt(tokens, skip.end, ":");
        if second.Some? {
          ParseSound(tokens, Test, second.value);
        }
      }
    }
  }

  /** `subscript_index` returns a slice, or an index holding one `test` value. */
  lemma SubscriptIndexSound(tokens: seq<Token>, k: int)
    requires InRange(tokens, k)
    ensures var r := ParseSubscriptIndex(tokens, k);
            r.parsed.Matched? ==> SubscriptIndexValue(tokens, r.parsed.value)
    decreases |tokens| - k, Rank(Rule.SubscriptIndex), 2
  {
    var from := Parse(tokens, Test, k);
    ParseSound(tokens, Test, k);
    if !from.parsed.Aborted? {
      SliceSound(tokens, from.parsed.Result(), from.end);
    }
  }

  // ---------------------------------------------------------------------------
  // Atoms and arguments

  /** Every value a `while (x := self.rule()) is not None` loop reads is a value of the rule. */
  lemma {:induction false} RepeatedSound(tokens: seq<Token>, rule: Rule, k: int)
    requires InRange(tokens, k)
    ensures AllOf(tokens, rule, Repeated(tokens, rule, k).items)
    decreases |tokens| - k, Rank(rule) + 1, 0
  {
    var r := Parse(tokens, rule, k);
    ParseSound(tokens, rule, k);
    if r.parsed.Matched? {
      RepeatedSound(tokens, rule, r.end);
      AllOfCons(tokens, rule, r.parsed.value, Repeated(tokens, rule, r.end).items);
    }
  }

  /** `atom` returns a float, an integer, a list of strings, None, a boolean or a name. */
  lemma AtomSound(tokens: seq<Token>, k: int)
    requires InRange(tokens, k)
    ensures var r := ParseAtom(tokens, k);
            r.parsed.Matched? ==> AtomValue(tokens, r.parsed.value)
    decreases |tokens| - k, Rank(Atom), 2
  {
    ParseSound(tokens, Rule.Float, k);
    ParseSound(tokens, Rule.Integer, k);
    ParseSound(tokens, Rule.Identifier, k);
    var first := Parse(tokens, Rule.String, k);
    ParseSound(tokens, Rule.String, k);
    if first.parsed.Matched? {
      RepeatedSound(tokens, Rule.String, first.end);
      ListOfCons(tokens, Rule.String, first.parsed.value, Repeated(tokens, Rule.String, first.end).items);
    }
  }

  /** `argument` returns a keyword argument or a possibly starred positional one. */
  lemma ArgumentSound(tokens: seq<Token>, k: int)
    requires InRange(tokens, k)
    ensures var r := ParseArgument(tokens, k);
            r.parsed.Matched? ==> ArgumentValue(tokens, r.parsed.value)
    decreases |tokens| - k, Rank(Rule.Argument), 2
  {
    var name := Parse(tokens, Rule.Identifier, k);
    ParseSound(tokens, Rule.Identifier, k);
    if name.parsed.Matched? {
      var eq := TextAt(tokens, name.end, "=");
      if eq.Some? {
        ParseSound(tokens, IndentableExpr, eq.value);
      }
    }
    ParseSound(tokens, RestIndentableExpr, k);
  }
}
