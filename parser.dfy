/**
 * The packrat parser: a cursor into the token sequence, the line information
 * of the last token consumed, a two-level memo cache and a revert checkpoint.
 *
 * Every rule runs as `backtrackable(memoize(body))`: `Apply` restores the
 * state when the rule fails, `Memoized` reads or fills the cache, and
 * `RunBody` dispatches to the rule's own code. A Python exception raised by a
 * rule body becomes an `Aborted` outcome that every caller passes on at once,
 * uncached and unreverted, as the exception would unwind them.
 *
 * Each method is proved to return what the functions of module `Grammar`
 * compute from the starting position, and to leave the cursor where they
 * say; every cache entry holds exactly the outcome `Grammar.Body` computes,
 * so a cache hit returns what running the body would.
 */
module Parsing {
  import opened Wrappers
  import opened Tokens
  import opened Ast
  import opened ParserSpec
  import opened Grammar
  import opened GrammarValues
  import opened CombinatorSpec

  /** The memo cache: position → rule → (result, cursor after the attempt). */
  type Cache = map<int, map<Rule, Memo>>

  /** A saved `(cursor, row, column)` state. */
  datatype Checkpoint = Checkpoint(cursor: int, row: int, column: int)

  /** A cache entry for `rule` at position `k` holds the outcome of the rule's body there. */
  ghost predicate EntryOk(tokens: seq<Token>, k: int, rule: Rule, m: Memo) {
    && InRange(tokens, k)
    && !Body(tokens, rule, k).parsed.Aborted?
    && m == MemoOf(Body(tokens, rule, k))
  }

  /** The entry for `rule` at `k`, if there is one, is right. */
  ghost predicate EntryAt(tokens: seq<Token>, cache: Cache, k: int, rule: Rule) {
    k in cache && rule in cache[k] ==> EntryOk(tokens, k, rule, cache[k][rule])
  }

  /** Every entry of the cache is right; a proof names each entry it relies on. */
  ghost predicate CacheOk(tokens: seq<Token>, cache: Cache) {
    forall k: int, rule: Rule {:trigger EntryAt(tokens, cache, k, rule)} :: EntryAt(tokens, cache, k, rule)
  }

  /** `memoize`'s `if cursor_key:` — there is a map of non-zero length for position `k`. */
  predicate HasMap(cache: Cache, k: int) {
    k in cache && |cache[k]| != 0
  }

  /** `memoize` finds a usable entry: a non-empty map at position `k` holding `rule`. */
  predicate Hit(cache: Cache, k: int, rule: Rule) {
    HasMap(cache, k) && rule in cache[k]
  }

  /** No position loses its map: entries are added, and a map is only replaced where there was none. */
  ghost predicate Keeps(a: Cache, b: Cache) {
    forall k: int {:trigger HasMap(a, k)} :: HasMap(a, k) ==> HasMap(b, k)
  }

  /** Keeping the non-empty maps is transitive. */
  lemma KeepsTrans(a: Cache, b: Cache, c: Cache)
    requires Keeps(a, b) && Keeps(b, c)
    ensures Keeps(a, c)
  {
  }

  /** Storing a fresh one-entry map for a right entry keeps every entry right. */
  lemma StoreFreshOk(tokens: seq<Token>, b: Cache, k0: int, rule: Rule, m: Memo)
    requires CacheOk(tokens, b) && EntryOk(tokens, k0, rule, m)
    ensures CacheOk(tokens, b[k0 := map[rule := m]])
  {
    var b' := b[k0 := map[rule := m]];
    forall k: int, r: Rule {:trigger EntryAt(tokens, b', k, r)}
      ensures EntryAt(tokens, b', k, r)
    {
      if k == k0 && r in b'[k] {
        assert r == rule && b'[k][r] == m;
      } else {
        assert EntryAt(tokens, b, k, r);
      }
    }
  }

  /** Adding a right entry to the map at `k0` keeps every entry right. */
  lemma StoreAddOk(tokens: seq<Token>, b: Cache, k0: int, rule: Rule, m: Memo)
    requires CacheOk(tokens, b) && EntryOk(tokens, k0, rule, m) && k0 in b
    ensures CacheOk(tokens, b[k0 := b[k0][rule := m]])
  {
    var b' := b[k0 := b[k0][rule := m]];
    forall k: int, r: Rule {:trigger EntryAt(tokens, b', k, r)}
      ensures EntryAt(tokens, b', k, r)
    {
      assert EntryAt(tokens, b, k, r);
      if k == k0 && r != rule {
        assert b'[k] == b[k][rule := m];
      }
    }
  }

  class Parser {
    const tokens: seq<Token>
    var cursor: int
    var row: int
    var column: int
    var cache: Cache
    var revertData: Checkpoint
    /** The calls the combinators made to their callbacks, in order. */
    var fnCalls: seq<FnCall>

    ghost predicate Valid()
      reads this
    {
      && InRange(tokens, cursor)
      && InRange(tokens, revertData.cursor)
      && CacheOk(tokens, cache)
    }

    /**
     * A rule body's contract: it returns the outcome `ref` computes, leaves
     * the cursor at `ref`'s end unless it raised, and drops no map from the
     * cache.
     */
    twostate predicate Follows(r: Parsed, ref: Res)
      reads this
    {
      && r == ref.parsed
      && (!r.Aborted? ==> cursor == ref.end)
      && Keeps(old(cache), cache)
    }

    /** A loop's contract: the items and outcome of `m`, the cursor at its end, and no map dropped. */
    twostate predicate FollowsMany(r: Parsed, items: seq<Node>, m: Many)
      reads this
    {
      && items == m.items
      && r == Stopped(m.abort)
      && (!r.Aborted? ==> cursor == m.end)
      && Keeps(old(cache), cache)
    }

    /** A parser positioned before the first token, with an empty cache. */
    constructor (tokens: seq<Token>)
      ensures Valid()
      ensures this.tokens == tokens && cursor == -1 && row == 0 && column == -1
      ensures cache == map[] && revertData == Checkpoint(-1, 0, -1) && fnCalls == []
    {
      this.tokens := tokens;
      cursor := -1;
      row := 0;
      column := -1;
      cache := map[];
      revertData := Checkpoint(-1, 0, -1);
      fnCalls := [];
    }

    /** `revert`: puts the cursor and line information back. */
    method Revert(c: int, rw: int, cl: int)
      modifies this`cursor, this`row, this`column
      ensures cursor == c && row == rw && column == cl
    {
      cursor, row, column := c, rw, cl;
    }

    /** `eat_token`: the next token and its index, advancing onto it; None at the end of input. */
    method EatToken() returns (r: Option<(int, Token)>)
      requires Valid()
      modifies this`cursor, this`row, this`column
      ensures Valid()
      ensures old(cursor) + 1 < |tokens| ==>
                && cursor == old(cursor) + 1 && r == Some((cursor, tokens[cursor]))
                && row == tokens[cursor].row && column == tokens[cursor].column
      ensures old(cursor) + 1 >= |tokens| ==>
                r == None && cursor == old(cursor) && row == old(row) && column == old(column)
    {
      if cursor + 1 < |tokens| {
        cursor := cursor + 1;
        var token := tokens[cursor];
        column := token.column;
        row := token.row;
        return Some((cursor, token));
      }
      return None;
    }

    /** `consume_string`: advances onto the next token only if its text is `s`, returning its index. */
    method ConsumeString(s: string) returns (r: Option<int>)
      requires Valid()
      modifies this`cursor, this`row, this`column
      ensures Valid()
      ensures r.Some? <==> TokenIs(tokens, old(cursor) + 1, s)
      ensures r.Some? ==>
                && r.value == cursor == old(cursor) + 1
                && row == tokens[cursor].row && column == tokens[cursor].column
      ensures r.None? ==> cursor == old(cursor) && row == old(row) && column == old(column)
      ensures r == TextAt(tokens, old(cursor), s) && cursor == Past(old(cursor), r)
    {
      if cursor + 1 < |tokens| {
        var token := tokens[cursor + 1];
        if token.data == s {
          cursor := cursor + 1;
          column := token.column;
          row := token.row;
          return Some(cursor);
        }
      }
      return None;
    }

    /**
     * `consume`: eats the next token whatever its kind and returns the leaf of
     * the literal rule when the kind is one the rule accepts.
     */
    method Consume(rule: Rule) returns (r: Option<Node>)
      requires Valid() && IsLiteral(rule)
      modifies this`cursor, this`row, this`column
      ensures Valid()
      ensures Memo(r, cursor) == LiteralMemo(tokens, rule, old(cursor))
    {
      var payload := EatToken();
      if payload.Some? && payload.value.1.kind in LiteralKinds(rule) {
        return Some(Leaf(rule, payload.value.0));
      }
      return None;
    }

    /** `register_revert`: saves the current state as the checkpoint. */
    method RegisterRevert()
      modifies this`revertData
      ensures revertData == Checkpoint(cursor, row, column)
    {
      revertData := Checkpoint(cursor, row, column);
    }

    /**
     * `revertable`: on a false condition goes back to the checkpoint, on a true
     * one moves the checkpoint to the current state; returns the condition.
     */
    method Revertable(cond: bool) returns (r: bool)
      modifies this`cursor, this`row, this`column, this`revertData
      ensures r == cond
      ensures !cond ==> Checkpoint(cursor, row, column) == old(revertData) && revertData == old(revertData)
      ensures cond ==> cursor == old(cursor) && row == old(row) && column == old(column)
      ensures cond ==> revertData == Checkpoint(cursor, row, column)
    {
      if !cond {
        Revert(revertData.cursor, revertData.row, revertData.column);
      } else {
        RegisterRevert();
      }
      return cond;
    }

    /**
     * A rule as the parser calls it, `backtrackable(memoize(body))`: the
     * outcome `Grammar.Parse` computes. A failure leaves cursor, row and
     * column as they were; an outcome that is not an exception is in the
     * cache under the starting position; a usable cache entry is returned
     * without running the body and without touching row, column, cache or
     * checkpoint. A match is a tree of the rule's own kind.
     */
    method Apply(rule: Rule) returns (r: Parsed)
      requires Valid()
      modifies this`cursor, this`row, this`column, this`cache, this`revertData
      decreases |tokens| - cursor, Rank(rule), 10
      ensures Valid() && Follows(r, Parse(tokens, rule, old(cursor)))
      ensures r.Matched? ==> IsValue(tokens, rule, r.value)
      ensures r.NoMatch? ==> row == old(row) && column == old(column)
      ensures !r.Aborted? ==>
                Hit(cache, old(cursor), rule) && cache[old(cursor)][rule] == MemoOf(Body(tokens, rule, old(cursor)))
      ensures Hit(old(cache), old(cursor), rule) ==>
                cache == old(cache) && revertData == old(revertData) && row == old(row) && column == old(column)
    {
      var c, rw, cl := cursor, row, column;
      ParseSound(tokens, rule, c);
      r := Memoized(rule);
      if r.NoMatch? {
        Revert(c, rw, cl);
      }
    }

    /** A rule called from another rule's body, with what the caller relies on. */
    method Call(rule: Rule) returns (r: Parsed)
      requires Valid()
      modifies this`cursor, this`row, this`column, this`cache, this`revertData
      decreases |tokens| - cursor, Rank(rule), 11
      ensures Valid() && Follows(r, Parse(tokens, rule, old(cursor)))
      ensures r.NoMatch? ==> row == old(row) && column == old(column)
    {
      r := Apply(rule);
    }

    /**
     * `memoize`: on a usable entry sets the cursor to its stored value and
     * returns its result; otherwise runs the body and stores the result with
     * the cursor the body left. When no map existed for the position, a fresh
     * one-entry map replaces whatever the body's own calls stored there; an
     * entry already present for the rule is never overwritten.
     */
    method Memoized(rule: Rule) returns (r: Parsed)
      requires Valid()
      modifies this`cursor, this`row, this`column, this`cache, this`revertData
      decreases |tokens| - cursor, Rank(rule), 9
      ensures Valid() && Follows(r, Body(tokens, rule, old(cursor)))
      ensures !r.Aborted? ==>
                Hit(cache, old(cursor), rule) && cache[old(cursor)][rule] == MemoOf(Body(tokens, rule, old(cursor)))
      ensures Hit(old(cache), old(cursor), rule) ==>
                cache == old(cache) && revertData == old(revertData) && row == old(row) && column == old(column)
      ensures !HasMap(old(cache), old(cursor)) && !r.Aborted? ==>
                cache[old(cursor)] == map[rule := MemoOf(Body(tokens, rule, old(cursor)))]
    {
      var c := cursor;
      if Hit(cache, c, rule) {
        var m := cache[c][rule];
        assert EntryAt(tokens, cache, c, rule);
        cursor := m.skip;
        return FromMemo(m);
      }
      r := Fill(rule);
    }

    /** The miss path of `memoize`: run the body, then store what it returned. */
    method Fill(rule: Rule) returns (r: Parsed)
      requires Valid() && !Hit(cache, cursor, rule)
      modifies this`cursor, this`row, this`column, this`cache, this`revertData
      decreases |tokens| - cursor, Rank(rule), 8
      ensures Valid() && Follows(r, Body(tokens, rule, old(cursor)))
      ensures !r.Aborted? ==>
                Hit(cache, old(cursor), rule) && cache[old(cursor)][rule] == MemoOf(Body(tokens, rule, old(cursor)))
      ensures !HasMap(old(cache), old(cursor)) && !r.Aborted? ==>
                cache[old(cursor)] == map[rule := MemoOf(Body(tokens, rule, old(cursor)))]
    {
      var c := cursor;
      var hasMap := HasMap(cache, c);
      ghost var before := cache;
      r := RunBody(rule);
      if r.Aborted? {
        return;
      }
      Store(c, rule, Memo(r.Result(), cursor), hasMap, before);
    }

    /**
     * The store step of `memoize`: a fresh one-entry map when the position had
     * no usable map before the body ran, otherwise the entry is added to that
     * map unless it is already there.
     */
    method Store(c: int, rule: Rule, m: Memo, hasMap: bool, ghost before: Cache)
      requires Valid() && EntryOk(tokens, c, rule, m)
      requires Keeps(before, cache) && (hasMap <==> HasMap(before, c))
      modifies this`cache
      ensures Valid() && Keeps(before, cache)
      ensures Hit(cache, c, rule) && cache[c][rule] == m
      ensures !hasMap ==> cache[c] == map[rule := m]
    {
      if !hasMap {
        StoreFreshOk(tokens, cache, c, rule, m);
        cache := cache[c := map[rule := m]];
        assert rule in cache[c];
      } else if rule !in cache[c] {
        StoreAddOk(tokens, cache, c, rule, m);
        cache := cache[c := cache[c][rule := m]];
      } else {
        assert EntryAt(tokens, cache, c, rule);
      }
    }

    /** The body of each rule. */
    method RunBody(rule: Rule) returns (r: Parsed)
      requires Valid()
      modifies this`cursor, this`row, this`column, this`cache, this`revertData
      decreases |tokens| - cursor, Rank(rule), 7
      ensures Valid() && Follows(r, Body(tokens, rule, old(cursor)))
    {
      if IsLiteral(rule) {
        r := RunLiteral(rule);
      } else if IsFold(rule) {
        BodyCases(tokens, rule, cursor);
        r := Fold(rule);
      } else {
        r := RunRule(rule);
      }
    }

    /** The body of a token rule: `consume` with the rule's token kinds. */
    method RunLiteral(rule: Rule) returns (r: Parsed)
      requires Valid() && IsLiteral(rule)
      modifies this`cursor, this`row, this`column
      ensures Valid() && Follows(r, Body(tokens, rule, old(cursor)))
    {
      BodyCases(tokens, rule, cursor);
      var leaf := Consume(rule);
      r := if leaf.Some? then Matched(leaf.value) else NoMatch;
    }

    /** The bodies of the rules that are neither literals nor binary folds. */
    method RunRule(rule: Rule) returns (r: Parsed)
      requires Valid() && !IsLiteral(rule) && !IsFold(rule)
      modifies this`cursor, this`row, this`column, this`cache, this`revertData
      decreases |tokens| - cursor, Rank(rule), 6
      ensures Valid() && Follows(r, Body(tokens, rule, old(cursor)))
    {
      if IsListRule(rule) {
        r := RunListRule(rule);
        return;
      }
      BodyRules(tokens, rule, cursor);
      if rule.PowerExpr? {
        r := PowerBody();
      } else if rule.UnaryExpr? {
        r := UnaryBody();
      } else if rule.NotTest? {
        r := NotTestBody();
      } else if rule.Test? {
        r := TestBody();
      } else if rule.LambdaParam? {
        r := LambdaParamBody();
      } else if rule.LambdaParams? {
        r := LambdaParamsBody();
      } else if rule.LambdaExprDef? {
        r := LambdaExprDefBody();
      } else if rule.Expr? {
        r := EitherBody(Expr, LambdaExprDef, Test);
      } else if rule.LambdaBlockDef? {
        r := LambdaBlockDefBody();
      } else if rule.IndentableExpr? {
        r := EitherBody(IndentableExpr, LambdaBlockDef, Expr);
      } else if rule.RestExpr? {
        r := RestBody(RestExpr, Expr);
      } else {
        r := RestBody(RestIndentableExpr, IndentableExpr);
      }
    }

    /** The bodies of the comma lists, subscripts, atoms and arguments. */
    method RunListRule(rule: Rule) returns (r: Parsed)
      requires Valid() && IsListRule(rule)
      modifies this`cursor, this`row, this`column, this`cache, this`revertData
      decreases |tokens| - cursor, Rank(rule), 5
      ensures Valid() && Follows(r, Body(tokens, rule, old(cursor)))
    {
      BodyListRules(tokens, rule, cursor);
      if rule.SubscriptIndex? {
        r := SubscriptIndexBody();
      } else if rule.Atom? {
        r := AtomBody();
      } else if rule.Argument? {
        r := ArgumentBody();
      } else if rule.Subscript? {
        r := SubscriptBody();
      } else {
        r := RunCommaRule(rule);
      }
    }

    /** The rules that are plain comma-separated lists of one item rule. */
    method RunCommaRule(rule: Rule) returns (r: Parsed)
      requires Valid() && (rule.Exprs? || rule.RestExprs? || rule.Identifiers? || rule.Arguments?)
      modifies this`cursor, this`row, this`column, this`cache, this`revertData
      decreases |tokens| - cursor, Rank(rule), 4
      ensures Valid() && Follows(r, Body(tokens, rule, old(cursor)))
    {
      CommaBody(tokens, rule, cursor);
      r := CommaList(rule, ListItem(rule));
    }

    /** `subscript`: the comma list of subscript indices, wrapped in a `Subscript` without a subject. */
    method SubscriptBody() returns (r: Parsed)
      requires Valid()
      modifies this`cursor, this`row, this`column, this`cache, this`revertData
      decreases |tokens| - cursor, Rank(Rule.Subscript), 3
      ensures Valid() && Follows(r, ParseSubscript(tokens, old(cursor)))
    {
      r := CommaList(Rule.Subscript, Rule.SubscriptIndex);
      if r.Matched? {
        r := Matched(Ast.Subscript(PyNone, r.value));
      }
    }

    // -------------------------------------------------------------------------
    // Binary and prefix operators

    /**
     * The operator loop of `binary_expr`: tries each operator in turn. A
     * two-word operator counts as found when either word is; when only its
     * second word is, that word is consumed but no operator is returned.
     */
    method MatchOperator(ops: seq<OpSpec>) returns (op: Option<int>, rem: Option<int>, ghost which: nat)
      requires Valid()
      modifies this`cursor, this`row, this`column
      ensures Valid() && Found(op, rem, cursor, which) == MatchOp(tokens, ops, old(cursor))
      ensures op.None? && rem.None? ==> row == old(row) && column == old(column)
    {
      op, rem, which := None, None, 0;
      var i := 0;
      while i < |ops|
        invariant 0 <= i <= |ops|
        invariant Valid() && op.None? && rem.None? && cursor == old(cursor) && row == old(row) && column == old(column)
        invariant MatchOp(tokens, ops, cursor) == MatchOp(tokens, ops[i..], cursor).(which := MatchOp(tokens, ops[i..], cursor).which + i)
        decreases |ops| - i
      {
        assert ops[i..][1..] == ops[i + 1..];
        match ops[i] {
          case Pair(a, b) =>
            op := ConsumeString(a);
            rem := ConsumeString(b);
            if op.Some? || rem.Some? {
              which := i;
              return;
            }
          case Single(w) =>
            op := ConsumeString(w);
            if op.Some? {
              which := i;
              return;
            }
        }
        i := i + 1;
      }
      which := |ops|;
    }

    /**
     * `binary_expr`: an operand, then (operator, operand) steps folded to the
     * left. A missing first operand leaves None in the first `lhs`; a missing
     * right operand ends the loop with its operator already consumed.
     */
    method Fold(rule: Rule) returns (r: Parsed)
      requires Valid() && IsFold(rule)
      modifies this`cursor, this`row, this`column, this`cache, this`revertData
      decreases |tokens| - cursor, Rank(rule), 3
      ensures Valid() && Follows(r, ParseFold(tokens, rule, old(cursor)))
    {
      var lhs := Call(Operand(rule));
      if lhs.Aborted? {
        return lhs;
      }
      r := FoldLoop(rule, lhs.Result(), lhs.Result().GetOr(PyNone));
    }

    /**
     * The loop of `binary_expr` after its first operand `acc`: each step read
     * extends the expression to the left, until a round finds no step.
     */
    method FoldLoop(rule: Rule, acc: Option<Node>, ghost first: Node) returns (r: Parsed)
      requires Valid() && IsFold(rule) && first == acc.GetOr(PyNone)
      modifies this`cursor, this`row, this`column, this`cache, this`revertData
      decreases |tokens| - cursor, Rank(rule), 2
      ensures Valid() && Keeps(old(cache), cache)
      ensures var s := FoldSteps(tokens, rule, old(cursor));
                && r == (if s.abort.Some? then Aborted(s.abort.value)
                         else if acc.None? && s.steps == [] then NoMatch
                         else Matched(LeftFold(first, s.steps)))
                && (!r.Aborted? ==> cursor == s.end)
    {
      var value := acc;
      ghost var whole := FoldSteps(tokens, rule, cursor);
      StepsAfterStart(tokens, rule, cursor);
      ghost var steps: seq<Step> := [];
      while true
        invariant Valid() && Keeps(old(cache), cache) && old(cursor) <= cursor
        invariant whole == StepsAfter(tokens, rule, steps, cursor)
        invariant value == if acc.Some? || steps != [] then Some(LeftFold(first, steps)) else None
        decreases |tokens| - cursor
      {
        ghost var k, before := cursor, cache;
        var next, step := FoldMore(rule, value);
        KeepsTrans(old(cache), before, cache);
        if next.Aborted? {
          StepsAfterLast(tokens, rule, steps, k);
          return next;
        }
        if next.NoMatch? {
          StepsAfterLast(tokens, rule, steps, k);
          break;
        }
        StepsAfterNext(tokens, rule, steps, k);
        LeftFoldSnoc(first, steps, step);
        value := Some(next.value);
        steps := steps + [step];
      }
      r := if value.Some? then Matched(value.value) else NoMatch;
    }

    /** One round of the loop in `binary_expr`: an operator of `rule`, then its operand. */
    method FoldMore(rule: Rule, acc: Option<Node>) returns (r: Parsed, ghost step: Step)
      requires Valid() && IsFold(rule)
      modifies this`cursor, this`row, this`column, this`cache, this`revertData
      decreases |tokens| - cursor, Rank(rule), 0
      ensures Valid() && Keeps(old(cache), cache)
      ensures var n := NextStep(tokens, rule, old(cursor));
                && r == (if n.step.Some? then Matched(BinaryExpr(acc.GetOr(PyNone), step.op, step.rhs)) else Stopped(n.abort))
                && (n.step.Some? ==> n.step.value == step)
                && (!r.Aborted? ==> cursor == n.end)
    {
      var op, rem, which := MatchOperator(Operators(rule));
      step := Step(PyNone, PyNone);
      if op.None? {
        return NoMatch, step;
      }
      var rhs := Call(Operand(rule));
      if !rhs.Matched? {
        return rhs, step;
      }
      var opNode := Operator(PyInt(op.value), IndexNode(rem));
      step := Step(opNode, rhs.value);
      r := Matched(BinaryExpr(acc.GetOr(PyNone), opNode, rhs.value));
    }

    /**
     * `power_expr`: an optional `√`, an integer, then `^` and/or a second
     * integer, or else an optional `²`; the root is applied last.
     */
    method PowerBody() returns (r: Parsed)
      requires Valid()
      modifies this`cursor, this`row, this`column, this`cache, this`revertData
      decreases |tokens| - cursor, Rank(PowerExpr), 3
      ensures Valid() && Follows(r, ParsePower(tokens, old(cursor)))
    {
      var root := ConsumeString("√");
      var result := Call(Rule.Integer);
      if !result.Matched? {
        return result;
      }
      var power := ConsumeString("^");
      var integer2 := Call(Rule.Integer);
      if integer2.Aborted? {
        return integer2;
      }
      var v := result.value;
      if power.Some? || integer2.Matched? {
        v := BinaryExpr(v, Operator(IndexNode(power)), integer2.Result().GetOr(PyNone));
      } else {
        var square := ConsumeString("²");
        if square.Some? {
          v := Ast.UnaryExpr(v, Operator(PyInt(square.value)));
        }
      }
      if root.Some? {
        v := Ast.UnaryExpr(v, Operator(PyInt(root.value)));
      }
      r := Matched(v);
    }

    /**
     * `unary_expr`: collects `+`, `-` and `~` operators, then a power
     * expression, and applies the operators from the last one read, so the
     * first one read ends up outermost.
     */
    method UnaryBody() returns (r: Parsed)
      requires Valid()
      modifies this`cursor, this`row, this`column, this`cache, this`revertData
      decreases |tokens| - cursor, Rank(Rule.UnaryExpr), 3
      ensures Valid() && Follows(r, ParseUnary(tokens, old(cursor)))
    {
      var signs := Signs();
      var power := Call(PowerExpr);
      if !power.Matched? {
        return power;
      }
      var v := ApplyPrefixes(signs, power.value);
      r := Matched(v);
    }

    /** The sign loop of `unary_expr`: consumes every `+`, `-` or `~` in a row and returns their operators. */
    method Signs() returns (signs: seq<Node>)
      requires Valid()
      modifies this`cursor, this`row, this`column
      ensures Valid() && signs == SignOps(old(cursor), SignCount(tokens, old(cursor)))
      ensures cursor == old(cursor) + |signs|
    {
      signs := [];
      while true
        invariant Valid() && cursor == old(cursor) + |signs|
        invariant signs == SignOps(old(cursor), |signs|)
        invariant SignCount(tokens, old(cursor)) == |signs| + SignCount(tokens, cursor)
        decreases |tokens| - cursor
      {
        var op := ConsumeString("+");
        if op.None? {
          op := ConsumeString("-");
        }
        if op.None? {
          op := ConsumeString("~");
        }
        if op.None? {
          SignCountEnd(tokens, cursor);
          return;
        }
        SignCountNext(tokens, old(cursor) + |signs|);
        SignOpsNext(old(cursor), |signs|);
        signs := signs + [Operator(PyInt(op.value))];
      }
    }

    // -------------------------------------------------------------------------
    // Tests

    /**
     * `not_test`: a comparison, after which a `not` makes the source evaluate
     * the undefined name `not_op`, which raises.
     */
    method NotTestBody() returns (r: Parsed)
      requires Valid()
      modifies this`cursor, this`row, this`column, this`cache, this`revertData
      decreases |tokens| - cursor, Rank(NotTest), 3
      ensures Valid() && Follows(r, ParseNotTest(tokens, old(cursor)))
    {
      var result := Call(ComparisonExpr);
      if result.Aborted? {
        return result;
      }
      var notAt := ConsumeString("not");
      if notAt.Some? {
        return Aborted(UndefinedName);
      }
      r := result;
    }

    /**
     * `test`: a disjunction, optionally followed by `if` disjunction `else`
     * disjunction. A partial conditional leaves what it consumed consumed and
     * returns the first disjunction.
     */
    method TestBody() returns (r: Parsed)
      requires Valid()
      modifies this`cursor, this`row, this`column, this`cache, this`revertData
      decreases |tokens| - cursor, Rank(Test), 3
      ensures Valid() && Follows(r, ParseTest(tokens, old(cursor)))
    {
      var result := Call(OrTest);
      if !result.Matched? {
        return result;
      }
      var ifAt := ConsumeString("if");
      if ifAt.None? {
        return result;
      }
      var cond := Call(OrTest);
      if !cond.Matched? {
        return if cond.Aborted? then cond else result;
      }
      var elseAt := ConsumeString("else");
      if elseAt.None? {
        return result;
      }
      var alt := Call(OrTest);
      if !alt.Matched? {
        return if alt.Aborted? then alt else result;
      }
      r := Matched(IfExpr(result.value, cond.value, alt.value));
    }

    // -------------------------------------------------------------------------
    // Comma-separated repetitions

    /**
     * One `revertable(consume_string(",") and …)` test: a comma, then the word
     * `second` when given, then a value of `item` when given. A success
     * registers the new state as the checkpoint. The checkpoint is saved
     * before the item's rule runs and put back after it, so a failed round
     * returns to its own start; `TryStepAsWritten` is the round without that.
     */
    method TryStep(second: Option<string>, item: Option<Rule>) returns (r: Parsed)
      requires Valid() && revertData == Checkpoint(cursor, row, column)
      modifies this`cursor, this`row, this`column, this`cache, this`revertData
      decreases |tokens| - cursor, 0, 0
      ensures Valid() && Follows(r, Round(tokens, second, item, old(cursor)))
      ensures !r.Aborted? ==> revertData == Checkpoint(cursor, row, column)
      ensures r.NoMatch? ==> row == old(row) && column == old(column)
    {
      var saved := revertData;
      var comma := ConsumeString(",");
      var ok := comma.Some?;
      if ok && second.Some? {
        var word := ConsumeString(second.value);
        ok := word.Some?;
      }
      var value := PyNone;
      if ok && item.Some? {
        var next := Call(item.value);
        if next.Aborted? {
          return next;
        }
        ok := next.Matched?;
        value := next.Result().GetOr(PyNone);
      }
      revertData := saved;
      var more := Revertable(ok);
      r := if more then Matched(value) else NoMatch;
    }

    /**
     * The round as the source writes it: a failure goes back to `mark`,
     * whatever the checkpoint is after the item's rule ran, and a nested rule
     * that registers its own checkpoint moves it forward.
     */
    method TryStepAsWritten(second: Option<string>, item: Option<Rule>) returns (r: Parsed, ghost mark: Checkpoint)
      requires Valid() && revertData == Checkpoint(cursor, row, column)
      modifies this`cursor, this`row, this`column, this`cache, this`revertData
      decreases |tokens| - cursor, 0, 0
      ensures Valid() && Keeps(old(cache), cache)
      ensures r == Round(tokens, second, item, old(cursor)).parsed
      ensures r.Matched? ==> cursor == Round(tokens, second, item, old(cursor)).end
      ensures r.NoMatch? ==> Checkpoint(cursor, row, column) == mark
      ensures item.None? ==> mark == old(revertData)
      ensures !r.Aborted? ==> revertData == Checkpoint(cursor, row, column)
    {
      mark := revertData;
      var comma := ConsumeString(",");
      var ok := comma.Some?;
      if ok && second.Some? {
        var word := ConsumeString(second.value);
        ok := word.Some?;
      }
      var value := PyNone;
      if ok && item.Some? {
        var next := Call(item.value);
        if next.Aborted? {
          return next, revertData;
        }
        ok := next.Matched?;
        value := next.Result().GetOr(PyNone);
        mark := revertData;
      }
      var more := Revertable(ok);
      r := if more then Matched(value) else NoMatch;
    }

    /**
     * `register_revert()` followed by `while revertable(…)` rounds of
     * `TryStep`: the values of the successful rounds, in order.
     */
    method RunList(second: Option<string>, item: Rule) returns (r: Parsed, items: seq<Node>)
      requires Valid()
      modifies this`cursor, this`row, this`column, this`cache, this`revertData
      decreases |tokens| - cursor, 0, 1
      ensures Valid() && FollowsMany(r, items, Rounds(tokens, second, item, old(cursor)))
      ensures !r.Aborted? ==> revertData == Checkpoint(cursor, row, column)
    {
      items := [];
      ghost var whole := Rounds(tokens, second, item, cursor);
      RoundsAfterStart(tokens, second, item, cursor);
      RegisterRevert();
      while true
        invariant Valid() && Keeps(old(cache), cache) && old(cursor) <= cursor
        invariant revertData == Checkpoint(cursor, row, column)
        invariant whole == RoundsAfter(tokens, second, item, items, cursor)
        decreases |tokens| - cursor
      {
        ghost var k, before := cursor, cache;
        var next := TryStep(second, Some(item));
        KeepsTrans(old(cache), before, cache);
        if !next.Matched? {
          RoundsAfterLast(tokens, second, item, items, k);
          if next.Aborted? {
            return next, items;
          }
          break;
        }
        RoundsAfterNext(tokens, second, item, items, k);
        items := items + [next.value];
      }
      r := NoMatch;
    }

    /** The items after the first of a comma list, then the optional trailing comma. */
    method CommaTail(item: Rule) returns (r: Parsed, more: seq<Node>)
      requires Valid()
      modifies this`cursor, this`row, this`column, this`cache, this`revertData
      decreases |tokens| - cursor, 0, 2
      ensures Valid() && Keeps(old(cache), cache)
      ensures var m := Rounds(tokens, None, item, old(cursor));
                && more == m.items && r == Stopped(m.abort)
                && (!r.Aborted? ==> cursor == Past(m.end, TextAt(tokens, m.end, ",")))
    {
      r, more := RunList(None, item);
      if r.Aborted? {
        return;
      }
      var trailing := ConsumeString(",");
    }

    /**
     * The shape of `exprs`, `rest_exprs`, `identifiers`, `arguments` and
     * `subscript`: one `item`, more items each after a comma, then an
     * optional trailing comma; the items as a Python list.
     */
    method CommaList(rule: Rule, item: Rule) returns (r: Parsed)
      requires Valid() && Rank(item) < Rank(rule)
      modifies this`cursor, this`row, this`column, this`cache, this`revertData
      decreases |tokens| - cursor, Rank(rule), 2
      ensures Valid() && Follows(r, ParseCommaList(tokens, rule, item, old(cursor)))
    {
      ghost var list := ParseCommaList(tokens, rule, item, cursor);
      ghost var head := Parse(tokens, item, cursor);
      var first := Call(item);
      if !first.Matched? {
        assert list == head;
        return first;
      }
      ghost var tail := Rounds(tokens, None, item, cursor);
      var rest, more := CommaTail(item);
      if rest.Aborted? {
        assert list.parsed == Aborted(tail.abort.value);
        return rest;
      }
      assert list.parsed == Matched(PyList([first.value] + more));
      r := Matched(PyList([first.value] + more));
    }

    // -------------------------------------------------------------------------
    // Lambda parameters

    /** `lambda_param`: a name, then `=` and a default value when both are there. */
    method LambdaParamBody() returns (r: Parsed)
      requires Valid()
      modifies this`cursor, this`row, this`column, this`cache, this`revertData
      decreases |tokens| - cursor, Rank(LambdaParam), 4
      ensures Valid() && Follows(r, ParseLambdaParam(tokens, old(cursor)))
    {
      var identifier := Call(Rule.Identifier);
      if !identifier.Matched? {
        return identifier;
      }
      var eq := ConsumeString("=");
      if eq.None? {
        return Matched(FuncParam(identifier.value));
      }
      var test := Call(Test);
      if test.Aborted? {
        return test;
      }
      r := Matched(FuncParam(identifier.value, defaultValueExpr := test.Result().GetOr(PyNone)));
    }

    /**
     * `lambda_params`: four alternatives, each tried from the starting state:
     * a parenthesised parameter list, a positional list, a list starting with
     * `*`, and a lone `**` parameter.
     */
    method LambdaParamsBody() returns (r: Parsed)
      requires Valid()
      modifies this`cursor, this`row, this`column, this`cache, this`revertData
      decreases |tokens| - cursor, Rank(LambdaParams), 4
      ensures Valid() && Follows(r, ParseLambdaParams(tokens, old(cursor)))
    {
      var c, rw, cl := cursor, row, column;
      r := ParamsInParens();
      if !r.NoMatch? {
        return;
      }
      Revert(c, rw, cl);
      r := ParamsPositional();
      if !r.NoMatch? {
        return;
      }
      Revert(c, rw, cl);
      r := ParamsStarred();
      if !r.NoMatch? {
        return;
      }
      Revert(c, rw, cl);
      r := ParamsDoubleStarred();
    }

    /** First alternative of `lambda_params`: `(`, parameters, `)`. */
    method ParamsInParens() returns (r: Parsed)
      requires Valid()
      modifies this`cursor, this`row, this`column, this`cache, this`revertData
      decreases |tokens| - cursor, Rank(LambdaParams), 3
      ensures Valid() && Follows(r, ParseParamsInParens(tokens, old(cursor)))
    {
      var open := ConsumeString("(");
      if open.None? {
        return NoMatch;
      }
      var inner := Call(LambdaParams);
      if !inner.Matched? {
        return inner;
      }
      var close := ConsumeString(")");
      r := if close.Some? then inner else NoMatch;
    }

    /**
     * Second alternative of `lambda_params`: parameters, then optionally `/`
     * and more parameters, then the `*` parameters and keyword-only ones, then
     * optionally `**` and a parameter. A match leaves the checkpoint at the
     * cursor, where its last round registered it.
     */
    method ParamsPositional() returns (r: Parsed)
      requires Valid()
      modifies this`cursor, this`row, this`column, this`cache, this`revertData
      decreases |tokens| - cursor, Rank(LambdaParams), 3
      ensures Valid() && Follows(r, ParseParamsPositional(tokens, old(cursor)))
      ensures r.Matched? ==> revertData == Checkpoint(cursor, row, column)
    {
      var first := Call(LambdaParam);
      if !first.Matched? {
        return first;
      }
      var rest, more := RunList(None, LambdaParam);
      if rest.Aborted? {
        return rest;
      }
      var slash, afterSlash := SlashPart();
      if slash.Aborted? {
        return slash;
      }
      var tail, tupleRest, keywordOnly, named := ParamsTail();
      if tail.Aborted? {
        return tail;
      }
      var params := [first.value] + more + afterSlash;
      r := Matched(FuncParams(PyList(params), tupleRest, PyList(keywordOnly), named));
    }

    /** `(',' '/' (',' lambda_param)*)?` inside the positional alternative. */
    method SlashPart() returns (r: Parsed, items: seq<Node>)
      requires Valid()
      modifies this`cursor, this`row, this`column, this`cache, this`revertData
      decreases |tokens| - cursor, 0, 2
      ensures Valid() && FollowsMany(r, items, ParseSlashPart(tokens, old(cursor)))
      ensures !r.Aborted? ==> revertData == Checkpoint(cursor, row, column)
    {
      items := [];
      RegisterRevert();
      var slash := TryStep(Some("/"), None);
      if !slash.Matched? {
        return NoMatch, items;
      }
      var more;
      r, more := RunList(None, LambdaParam);
      items := [PositionalParamsSeparator] + more;
    }

    /**
     * The end of the positional alternative: the `',' '*' param` rounds, of
     * which the last parameter is kept, the keyword-only parameters when there
     * was one, and the optional `',' '**' param`.
     */
    method ParamsTail() returns (r: Parsed, tupleRest: Node, keywordOnly: seq<Node>, named: Node)
      requires Valid()
      modifies this`cursor, this`row, this`column, this`cache, this`revertData
      decreases |tokens| - cursor, 0, 2
      ensures Valid() && Keeps(old(cache), cache)
      ensures var t := ParseParamsTail(tokens, old(cursor));
                && r == Stopped(t.abort)
                && (!r.Aborted? ==>
                      && cursor == t.end && tupleRest == t.tupleRest && keywordOnly == t.keywordOnly && named == t.named
                      && revertData == Checkpoint(cursor, row, column))
    {
      tupleRest, keywordOnly, named := PyNone, [], PyNone;
      var stars;
      r, stars := RunList(Some("*"), LambdaParam);
      if r.Aborted? {
        return;
      }
      if |stars| > 0 {
        tupleRest := stars[|stars| - 1];
      }
      if Truthy(tupleRest) {
        r, keywordOnly := RunList(None, LambdaParam);
        if r.Aborted? {
          return;
        }
      }
      r, named := NamedRest();
    }

    /** `(',' '**' lambda_param)?`: the parameter, or None. */
    method NamedRest() returns (r: Parsed, named: Node)
      requires Valid()
      modifies this`cursor, this`row, this`column, this`cache, this`revertData
      decreases |tokens| - cursor, 0, 1
      ensures Valid() && Keeps(old(cache), cache)
      ensures var n := Round(tokens, Some("**"), Some(LambdaParam), old(cursor));
                && r == (if n.parsed.Aborted? then n.parsed else NoMatch)
                && (!r.Aborted? ==>
                      cursor == n.end && named == n.parsed.Result().GetOr(PyNone) && revertData == Checkpoint(cursor, row, column))
    {
      RegisterRevert();
      var step := TryStep(Some("**"), Some(LambdaParam));
      named := PyNone;
      if step.Matched? {
        named := step.value;
      }
      r := if step.Aborted? then step else NoMatch;
    }

    /**
     * Third alternative of `lambda_params`: `*` and a parameter, keyword-only
     * parameters, then `**`. A match leaves the checkpoint at the cursor.
     */
    method ParamsStarred() returns (r: Parsed)
      requires Valid()
      modifies this`cursor, this`row, this`column, this`cache, this`revertData
      decreases |tokens| - cursor, Rank(LambdaParams), 3
      ensures Valid() && Follows(r, ParseParamsStarred(tokens, old(cursor)))
      ensures r.Matched? ==> revertData == Checkpoint(cursor, row, column)
    {
      var star := ConsumeString("*");
      if star.None? {
        return NoMatch;
      }
      var tupleRest := Call(LambdaParam);
      if !tupleRest.Matched? {
        return tupleRest;
      }
      var keywordOnly := [];
      if Truthy(tupleRest.value) {
        var rest;
        rest, keywordOnly := RunList(None, LambdaParam);
        if rest.Aborted? {
          return rest;
        }
      }
      var tail, named := NamedRest();
      if tail.Aborted? {
        return tail;
      }
      r := Matched(FuncParams(PyNone, tupleRest.value, PyList(keywordOnly), named));
    }

    /** Fourth alternative of `lambda_params`: `**` and a parameter. */
    method ParamsDoubleStarred() returns (r: Parsed)
      requires Valid()
      modifies this`cursor, this`row, this`column, this`cache, this`revertData
      decreases |tokens| - cursor, Rank(LambdaParams), 3
      ensures Valid() && Follows(r, ParseParamsDoubleStarred(tokens, old(cursor)))
    {
      var stars := ConsumeString("**");
      if stars.None? {
        return NoMatch;
      }
      var named := Call(LambdaParam);
      if !named.Matched? {
        return named;
      }
      r := Matched(FuncParams(PyNone, PyNone, PyNone, named.value));
    }

    // -------------------------------------------------------------------------
    // Expressions and lambdas

    /**
     * `lambda_expr_def`: `lambda`, optional parameters, `:` and an expression.
     * Without parameters the function gets an empty parameter list.
     */
    method LambdaExprDefBody() returns (r: Parsed)
      requires Valid()
      modifies this`cursor, this`row, this`column, this`cache, this`revertData
      decreases |tokens| - cursor, Rank(LambdaExprDef), 4
      ensures Valid() && Follows(r, ParseLambdaExprDef(tokens, old(cursor)))
    {
      var keyword := ConsumeString("lambda");
      if keyword.None? {
        return NoMatch;
      }
      var found := Call(LambdaParams);
      if found.Aborted? {
        return found;
      }
      var params := if found.Matched? && Truthy(found.value) then found.value else PyList([]);
      var colon := ConsumeString(":");
      if colon.None? {
        return NoMatch;
      }
      var expr := Call(Expr);
      if !expr.Matched? {
        return expr;
      }
      r := Matched(FuncExpr(PyNone, PyList([expr.value]), params));
    }

    /** `expr` and `indentable_expr`: the first rule, or else the second from the same position. */
    method EitherBody(rule: Rule, first: Rule, second: Rule) returns (r: Parsed)
      requires Valid() && Rank(first) < Rank(rule) && Rank(second) < Rank(rule)
      modifies this`cursor, this`row, this`column, this`cache, this`revertData
      decreases |tokens| - cursor, Rank(rule), 4
      ensures Valid() && Follows(r, ParseEither(tokens, rule, first, second, old(cursor)))
    {
      r := Call(first);
      if !r.NoMatch? {
        return;
      }
      r := Call(second);
    }

    /**
     * `lambda_block_def`: `lambda`, optional parameters, `:`, an indent and
     * expressions. The source then takes the length of the variable that
     * ended the expression loop, which is always None: a matching dedent
     * raises, and the rule never returns a value.
     */
    method LambdaBlockDefBody() returns (r: Parsed)
      requires Valid()
      modifies this`cursor, this`row, this`column, this`cache, this`revertData
      decreases |tokens| - cursor, Rank(LambdaBlockDef), 4
      ensures Valid() && Follows(r, ParseLambdaBlockDef(tokens, old(cursor)))
    {
      var keyword := ConsumeString("lambda");
      if keyword.None? {
        return NoMatch;
      }
      var found := Call(LambdaParams);
      if found.Aborted? {
        return found;
      }
      var colon := ConsumeString(":");
      if colon.None? {
        return NoMatch;
      }
      var indent := Call(Rule.Indent);
      if !indent.Matched? {
        return NoMatch;
      }
      var block, exprs := ExprRun();
      if block.Aborted? {
        return block;
      }
      var dedent := Call(Rule.Dedent);
      r := if dedent.Matched? then Aborted(LengthOfNone) else NoMatch;
    }

    /** `while (expr := self.expr()) is not None`: the expressions read, in order. */
    method ExprRun() returns (r: Parsed, exprs: seq<Node>)
      requires Valid()
      modifies this`cursor, this`row, this`column, this`cache, this`revertData
      decreases |tokens| - cursor, Rank(Expr) + 1, 0
      ensures Valid() && FollowsMany(r, exprs, Repeated(tokens, Expr, old(cursor)))
    {
      exprs := [];
      while true
        invariant Valid() && Keeps(old(cache), cache) && old(cursor) <= cursor
        invariant var m := Repeated(tokens, Expr, cursor);
                  Repeated(tokens, Expr, old(cursor)) == Many(exprs + m.items, m.end, m.abort)
        decreases |tokens| - cursor
      {
        var expr := Call(Expr);
        if !expr.Matched? {
          return if expr.Aborted? then expr else NoMatch, exprs;
        }
        ghost var m := Repeated(tokens, Expr, cursor);
        assert exprs + ([expr.value] + m.items) == (exprs + [expr.value]) + m.items;
        exprs := exprs + [expr.value];
      }
    }

    /**
     * `rest_expr` and `rest_indentable_expr`: an optional `*` or `**`, then
     * the inner rule; the marker wraps the result.
     */
    method RestBody(rule: Rule, inner: Rule) returns (r: Parsed)
      requires Valid() && Rank(inner) < Rank(rule)
      modifies this`cursor, this`row, this`column, this`cache, this`revertData
      decreases |tokens| - cursor, Rank(rule), 4
      ensures Valid() && Follows(r, ParseRest(tokens, rule, inner, old(cursor)))
    {
      var mark := ReadRestMark();
      var result := Call(inner);
      if !result.Matched? {
        return result;
      }
      r := Matched(Marked(mark, result.value));
    }

    /**
     * The marker tests of `rest_expr`: `*`, or else `**`. They read the index
     * `consume_string` returns as a truth value, so a marker that is the very
     * first token is consumed but counts as absent.
     */
    method ReadRestMark() returns (mark: Option<bool>)
      requires Valid()
      modifies this`cursor, this`row, this`column
      ensures Valid() && cursor == RestMarkEnd(tokens, old(cursor))
      ensures mark == RestMarkAt(tokens, old(cursor))
    {
      mark := None;
      var star := ConsumeString("*");
      if star.Some? && star.value != 0 {
        mark := Some(true);
      } else {
        var stars := ConsumeString("**");
        if stars.Some? && stars.value != 0 {
          mark := Some(false);
        }
      }
    }

    // -------------------------------------------------------------------------
    // Subscripts

    /**
     * `subscript_index`: a slice `from? ':' skip? (':' to?)?`, or else a plain
     * index read again from the start.
     */
    method SubscriptIndexBody() returns (r: Parsed)
      requires Valid()
      modifies this`cursor, this`row, this`column, this`cache, this`revertData
      decreases |tokens| - cursor, Rank(Rule.SubscriptIndex), 4
      ensures Valid() && Follows(r, ParseSubscriptIndex(tokens, old(cursor)))
    {
      var c, rw, cl := cursor, row, column;
      var from := Call(Test);
      if from.Aborted? {
        return from;
      }
      r := Slice(from.Result());
      if !r.NoMatch? {
        return;
      }
      Revert(c, rw, cl);
      var test := Call(Test);
      if !test.Matched? {
        return test;
      }
      r := Matched(Ast.SubscriptIndex(test.value));
    }

    /**
     * The slice alternative of `subscript_index` after its first bound: `:`,
     * an optional bound, then a second `:` and an optional end bound. With a
     * single colon the bound after it is the end of the slice.
     */
    method Slice(from: Option<Node>) returns (r: Parsed)
      requires Valid()
      modifies this`cursor, this`row, this`column, this`cache, this`revertData
      decreases |tokens| - cursor, Rank(Rule.SubscriptIndex), 3
      ensures Valid() && Follows(r, ParseSlice(tokens, from, old(cursor)))
    {
      var colon := ConsumeString(":");
      if colon.None? {
        return NoMatch;
      }
      var skip := Call(Test);
      if skip.Aborted? {
        return skip;
      }
      var skipExpr, toExpr := skip.Result(), None;
      var second := ConsumeString(":");
      if second.Some? {
        var to := Call(Test);
        if to.Aborted? {
          return to;
        }
        toExpr := to.Result();
      }
      if toExpr.None? && skipExpr.Some? && second.None? {
        toExpr, skipExpr := skipExpr, None;
      }
      r := Matched(Ast.SubscriptIndex(from.GetOr(PyNone), skipExpr.GetOr(PyNone), toExpr.GetOr(PyNone)));
    }

    // -------------------------------------------------------------------------
    // Atoms and arguments

    /**
     * `atom`, literal alternatives: a float, an integer, one or more strings,
     * `None`, `True`, `False`, or a name. The alternatives that start with `(`
     * call rules outside this model; reaching one is an abort.
     */
    method AtomBody() returns (r: Parsed)
      requires Valid()
      modifies this`cursor, this`row, this`column, this`cache, this`revertData
      decreases |tokens| - cursor, Rank(Atom), 4
      ensures Valid() && Follows(r, ParseAtom(tokens, old(cursor)))
    {
      var c, rw, cl := cursor, row, column;
      var open := ConsumeString("(");
      if open.Some? {
        return Aborted(Unmodelled);
      }
      r := Call(Rule.Float);
      if r.Matched? {
        return;
      }
      r := Call(Rule.Integer);
      if r.Matched? {
        return;
      }
      r := Strings();
      if r.Matched? {
        return;
      }
      Revert(c, rw, cl);
      r := Keyword();
      if r.Matched? {
        return;
      }
      Revert(c, rw, cl);
      r := Call(Rule.Identifier);
    }

    /**
     * The string alternative of `atom`: a string, then every string that
     * follows it, as a list.
     */
    method Strings() returns (r: Parsed)
      requires Valid()
      modifies this`cursor, this`row, this`column, this`cache, this`revertData
      decreases |tokens| - cursor, Rank(Atom), 3
      ensures Valid() && Follows(r, ParseStrings(tokens, old(cursor)))
      ensures r.NoMatch? ==> row == old(row) && column == old(column)
    {
      var first := Call(Rule.String);
      if !first.Matched? {
        return NoMatch;
      }
      var more := StringRun();
      r := Matched(AtomStrings(first.value, more));
    }

    /** The loop of the string alternative: the strings read, in order, until one is missing. */
    method StringRun() returns (strings: seq<Node>)
      requires Valid()
      modifies this`cursor, this`row, this`column, this`cache, this`revertData
      decreases |tokens| - cursor, Rank(Rule.String) + 1, 0
      ensures Valid() && FollowsMany(NoMatch, strings, Repeated(tokens, Rule.String, old(cursor)))
    {
      strings := [];
      while true
        invariant Valid() && Keeps(old(cache), cache) && old(cursor) <= cursor
        invariant var m := Repeated(tokens, Rule.String, cursor);
                  Repeated(tokens, Rule.String, old(cursor)) == Many(strings + m.items, m.end, m.abort)
        decreases |tokens| - cursor
      {
        var next := Call(Rule.String);
        if !next.Matched? {
          return;
        }
        ghost var m := Repeated(tokens, Rule.String, cursor);
        assert strings + ([next.value] + m.items) == (strings + [next.value]) + m.items;
        strings := strings + [next.value];
      }
    }

    /** The keyword alternatives of `atom`: `None`, `True` or `False`. */
    method Keyword() returns (r: Parsed)
      requires Valid()
      modifies this`cursor, this`row, this`column
      ensures Valid() && Follows(r, ParseKeyword(tokens, old(cursor)))
      ensures r.NoMatch? ==> row == old(row) && column == old(column)
    {
      var none := ConsumeString("None");
      if none.Some? {
        return Matched(NoneLiteral);
      }
      var yes := ConsumeString("True");
      if yes.Some? {
        return Matched(Bool(true));
      }
      var no := ConsumeString("False");
      if no.Some? {
        return Matched(Bool(false));
      }
      r := NoMatch;
    }

    /**
     * `argument`: a name, `=` and an indentable expression; or else a
     * possibly starred indentable expression.
     */
    method ArgumentBody() returns (r: Parsed)
      requires Valid()
      modifies this`cursor, this`row, this`column, this`cache, this`revertData
      decreases |tokens| - cursor, Rank(Rule.Argument), 4
      ensures Valid() && Follows(r, ParseArgument(tokens, old(cursor)))
    {
      var c, rw, cl := cursor, row, column;
      r := KeywordArgument();
      if !r.NoMatch? {
        return;
      }
      Revert(c, rw, cl);
      var rest := Call(RestIndentableExpr);
      if !rest.Matched? {
        return rest;
      }
      r := Matched(Ast.Argument(rest.value));
    }

    /** The keyword alternative of `argument`: a name, `=` and an indentable expression. */
    method KeywordArgument() returns (r: Parsed)
      requires Valid()
      modifies this`cursor, this`row, this`column, this`cache, this`revertData
      decreases |tokens| - cursor, Rank(Rule.Argument), 3
      ensures Valid() && Follows(r, ParseKeywordArgument(tokens, old(cursor)))
    {
      var identifier := Call(Rule.Identifier);
      if !identifier.Matched? {
        return identifier;
      }
      var eq := ConsumeString("=");
      if eq.None? {
        return NoMatch;
      }
      var expr := Call(IndentableExpr);
      if !expr.Matched? {
        return expr;
      }
      r := Matched(Ast.Argument(expr.value, identifier.value));
    }

    // -------------------------------------------------------------------------
    // PEG combinators

    /**
     * A combinator's contract: it returns what `o` says, leaves the cursor at
     * `o`'s end unless it raised, appends `o`'s callback calls to the record,
     * and drops no map from the cache.
     */
    twostate predicate Runs(r: Attempt, o: Run)
      reads this
    {
      && r == o.attempt
      && (!r.Raised? ==> cursor == o.end)
      && fnCalls == old(fnCalls) + o.calls
      && Keeps(old(cache), cache)
    }

    /**
     * One element of a combinator: `consume_string` for a string, the rule
     * for a rule, the combinator's own code for a combinator. Like every
     * rule, an element that fails leaves cursor, row and column as they were.
     */
    method RunElement(e: Parsel) returns (r: Attempt)
      requires Valid()
      modifies this`cursor, this`row, this`column, this`cache, this`revertData, this`fnCalls
      decreases |tokens| - cursor, 100, Size(e)
      ensures Valid() && Runs(r, Element(tokens, e, old(cursor)))
      ensures r.Failed? ==> row == old(row) && column == old(column)
    {
      match e
      case Word(text) =>
        var index := ConsumeString(text);
        r := if index.Some? then Got(Index(index.value)) else Failed;
      case RuleRef(rule) =>
        var result := Call(rule);
        r := CombinatorSpec.Outcome(result);
      case Combinator(kind, parts, fn) =>
        match kind
        case P =>
          r := Sequence(parts, fn);
        case Alt =>
          var choice;
          r, choice := Choice(parts, fn);
        case More =>
          r := Repeat(parts, fn, false);
        case OptMore =>
          r := Repeat(parts, fn, true);
        case Opt =>
          r := Optional(parts, fn);
    }

    /**
     * `p`: the elements in order. Success returns the list of all their
     * values and then calls the callback with it; the first failure restores
     * the state and returns None without calling it.
     */
    method Sequence(parts: seq<Parsel>, fn: Option<nat>) returns (r: Attempt)
      requires Valid()
      modifies this`cursor, this`row, this`column, this`cache, this`revertData, this`fnCalls
      decreases |tokens| - cursor, 100, SizeAll(parts) + 1, 1
      ensures Valid() && Runs(r, SeqOf(tokens, parts, fn, old(cursor)))
      ensures r.Failed? ==> row == old(row) && column == old(column)
    {
      var c, rw, cl := cursor, row, column;
      ghost var e := Elements(tokens, parts, c);
      r := ReadElements(parts);
      if r.Got? {
        AppendAssoc(old(fnCalls), e.calls, Called(fn, r.value, None));
        fnCalls := fnCalls + Called(fn, r.value, None);
      } else if r.Failed? {
        Revert(c, rw, cl);
      }
    }

    /** The loop of `p`: the elements one after the other, up to the first that does not match. */
    method ReadElements(parts: seq<Parsel>) returns (r: Attempt)
      requires Valid()
      modifies this`cursor, this`row, this`column, this`cache, this`revertData, this`fnCalls
      decreases |tokens| - cursor, 100, SizeAll(parts) + 1, 0
      ensures Valid() && Runs(r, Elements(tokens, parts, old(cursor)))
    {
      ghost var whole := Elements(tokens, parts, cursor);
      assert parts[0..] == parts;
      AfterStart(whole);
      var items: seq<Value> := [];
      ghost var log: seq<FnCall> := [];
      var i := 0;
      while i < |parts|
        invariant 0 <= i <= |parts| && Valid() && Keeps(old(cache), cache) && old(cursor) <= cursor
        invariant fnCalls == old(fnCalls) + log
        invariant whole == After(items, log, Elements(tokens, parts[i..], cursor))
      {
        SizeAllBound(parts, i);
        ghost var k, before := cursor, cache;
        ghost var e := Element(tokens, parts[i], k);
        var one := RunElement(parts[i]);
        KeepsTrans(old(cache), before, cache);
        AppendAssoc(old(fnCalls), log, e.calls);
        if !one.Got? {
          ElementsStop(tokens, parts, i, k, items, log, whole);
          return one;
        }
        ElementsNext(tokens, parts, i, k, items, log, whole);
        log := log + e.calls;
        items := items + [one.value];
        i := i + 1;
      }
      ElementsDone(tokens, parts, cursor, items, log, whole);
      r := Got(Values(items));
    }

    /**
     * `alt`: the first element that matches, whose index is the choice passed
     * to the callback; when none matches, None with the state restored.
     */
    method Choice(parts: seq<Parsel>, fn: Option<nat>) returns (r: Attempt, choice: int)
      requires Valid()
      modifies this`cursor, this`row, this`column, this`cache, this`revertData, this`fnCalls
      decreases |tokens| - cursor, 100, SizeAll(parts) + 1
      ensures var a := AltOf(tokens, parts, fn, old(cursor)); Valid() && Runs(r, a.run) && choice == a.choice
      ensures r.Failed? ==> row == old(row) && column == old(column)
    {
      var c, rw, cl := cursor, row, column;
      ghost var a := Alternatives(tokens, parts, c);
      AlternativesStart(tokens, parts, c);
      ghost var log: seq<FnCall> := [];
      var i := 0;
      while i < |parts|
        invariant 0 <= i <= |parts| && Valid() && Keeps(old(cache), cache)
        invariant cursor == c && row == rw && column == cl
        invariant fnCalls == old(fnCalls) + log
        invariant a == Later(log, i, Alternatives(tokens, parts[i..], c))
      {
        SizeAllBound(parts, i);
        ghost var before := cache;
        ghost var calls := Element(tokens, parts[i], c).calls;
        var one := RunElement(parts[i]);
        KeepsTrans(old(cache), before, cache);
        AppendAssoc(old(fnCalls), log, calls);
        if !one.Failed? {
          AlternativesStop(tokens, parts, i, c, log, a);
          r, choice := one, if one.Got? then i else -1;
          if one.Got? {
            fnCalls := fnCalls + Called(fn, r.value, Some(i));
          }
          return;
        }
        AlternativesNext(tokens, parts, i, c, log, a);
        log := log + calls;
        i := i + 1;
      }
      AlternativesDone(tokens, parts, c, log, a);
      Revert(c, rw, cl);
      r, choice := Failed, -1;
    }

    /**
     * `more` (`orNull` false) and `opt_more` (`orNull` true): `p` over the
     * elements as often as it matches. No repetition restores the state and
     * returns None, or `Null()` for `opt_more`, without calling the callback.
     * A repetition that matches without consuming a token would repeat
     * forever; the model stops it with an `EndlessLoop` abort.
     */
    method Repeat(parts: seq<Parsel>, fn: Option<nat>, orNull: bool) returns (r: Attempt)
      requires Valid()
      modifies this`cursor, this`row, this`column, this`cache, this`revertData, this`fnCalls
      decreases |tokens| - cursor, 100, SizeAll(parts) + 2
      ensures Valid() && Runs(r, MoreOf(tokens, parts, fn, orNull, old(cursor)))
      ensures r.Failed? || (r.Got? && IsNull(r.value)) ==> row == old(row) && column == old(column)
    {
      var c, rw, cl := cursor, row, column;
      ghost var m := Repetitions(tokens, parts, c);
      AgainStart(m);
      var items: seq<Value> := [];
      ghost var log: seq<FnCall> := [];
      while true
        invariant Valid() && Keeps(old(cache), cache) && c <= cursor
        invariant items == [] ==> cursor == c && row == rw && column == cl
        invariant fnCalls == old(fnCalls) + log
        invariant m == Again(items, log, Repetitions(tokens, parts, cursor))
        decreases |tokens| - cursor
      {
        var start := cursor;
        ghost var before := cache;
        ghost var o := SeqOf(tokens, parts, None, start);
        var one := Sequence(parts, None);
        KeepsTrans(old(cache), before, cache);
        AppendAssoc(old(fnCalls), log, o.calls);
        if !one.Got? || cursor == start {
          RepetitionsLast(tokens, parts, start, items, log, m);
          if one.Raised? {
            return one;
          }
          if cursor == start && one.Got? {
            return Raised(EndlessLoop);
          }
          break;
        }
        RepetitionsNext(tokens, parts, start, items, log, m);
        log := log + o.calls;
        items := items + [one.value];
      }
      if |items| < 1 {
        Revert(c, rw, cl);
        return if orNull then Got(Tree(Null)) else Failed;
      }
      r := Got(Values(items));
      fnCalls := fnCalls + Called(fn, r.value, None);
    }

    /**
     * `opt`: `p` over the elements once if it matches, with the callback
     * called on its value; otherwise `Null()` with the state restored and
     * no callback.
     */
    method Optional(parts: seq<Parsel>, fn: Option<nat>) returns (r: Attempt)
      requires Valid()
      modifies this`cursor, this`row, this`column, this`cache, this`revertData, this`fnCalls
      decreases |tokens| - cursor, 100, SizeAll(parts) + 2
      ensures Valid() && Runs(r, OptOf(tokens, parts, fn, old(cursor)))
      ensures r.Got? && IsNull(r.value) ==> row == old(row) && column == old(column)
    {
      var c, rw, cl := cursor, row, column;
      r := Sequence(parts, None);
      if r.Raised? {
        return;
      }
      if r.Failed? {
        Revert(c, rw, cl);
        return Got(Tree(Null));
      }
      fnCalls := fnCalls + Called(fn, r.value, None);
    }
  }

  /** The closing loop of `unary_expr`: wraps `base` in `signs`, the last one innermost. */
  method ApplyPrefixes(signs: seq<Node>, base: Node) returns (v: Node)
    ensures v == Prefixed(signs, base)
  {
    v := base;
    var i := |signs|;
    while i > 0
      invariant 0 <= i <= |signs|
      invariant v == Prefixed(signs[i..], base)
    {
      i := i - 1;
      PrefixedStep(signs, base, i);
      v := Ast.UnaryExpr(v, signs[i]);
    }
  }
}
