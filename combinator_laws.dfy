/**
 * When the combinators succeed: `p` matches exactly when its elements match
 * one after the other, `alt` fails exactly when every alternative fails and
 * otherwise answers for the first one that does not, `more` fails exactly
 * when its first round fails, and `opt` gives `Null()` exactly when its
 * sequence fails.
 */
module CombinatorLaws {
  import opened Wrappers
  import opened Tokens
  import opened Ast
  import opened ParserSpec
  import opened Grammar
  import opened CombinatorSpec

  /**
   * The elements read one after the other from `k`: element `i` starts at
   * `ps[i]`, matches with value `vals[i]`, and leaves the cursor at `ps[i + 1]`.
   */
  ghost predicate Chain(tokens: seq<Token>, parts: seq<Parsel>, k: int, ps: seq<int>, vals: seq<Value>) {
    && |ps| == |parts| + 1 && |vals| == |parts| && ps[0] == k
    && (forall i | 0 <= i < |ps| :: InRange(tokens, ps[i]))
    && forall i | 0 <= i < |parts| ::
         InRange(tokens, ps[i]) && Element(tokens, parts[i], ps[i]).attempt == Got(vals[i])
         && Element(tokens, parts[i], ps[i]).end == ps[i + 1]
  }

  /** A chain that starts with a matching element continues with a chain of the rest. */
  lemma ChainTail(tokens: seq<Token>, parts: seq<Parsel>, k: int, ps: seq<int>, vals: seq<Value>)
    requires |parts| > 0 && Chain(tokens, parts, k, ps, vals)
    ensures Chain(tokens, parts[1..], ps[1], ps[1..], vals[1..])
  {
    forall i | 0 <= i < |parts| - 1
      ensures Element(tokens, parts[1..][i], ps[1..][i]).attempt == Got(vals[1..][i])
      ensures Element(tokens, parts[1..][i], ps[1..][i]).end == ps[1..][i + 1]
    {
      assert parts[1..][i] == parts[i + 1] && ps[1..][i] == ps[i + 1];
    }
  }

  /** A matching element in front of a chain of the rest is a chain. */
  lemma ChainCons(tokens: seq<Token>, parts: seq<Parsel>, k: int, v: Value, ps: seq<int>, vals: seq<Value>)
    requires |parts| > 0 && InRange(tokens, k)
    requires Element(tokens, parts[0], k).attempt == Got(v)
    requires Chain(tokens, parts[1..], Element(tokens, parts[0], k).end, ps, vals)
    ensures Chain(tokens, parts, k, [k] + ps, [v] + vals)
  {
    var ps', vals' := [k] + ps, [v] + vals;
    forall i | 1 <= i < |parts|
      ensures Element(tokens, parts[i], ps'[i]).attempt == Got(vals'[i])
      ensures Element(tokens, parts[i], ps'[i]).end == ps'[i + 1]
    {
      assert parts[i] == parts[1..][i - 1];
    }
  }

  /** Elements that match one after the other make `Elements` match, with their values and the cursor after the last. */
  lemma {:induction false} ElementsOfChain(tokens: seq<Token>, parts: seq<Parsel>, k: int, ps: seq<int>, vals: seq<Value>)
    requires Chain(tokens, parts, k, ps, vals)
    ensures Elements(tokens, parts, k).attempt == Got(Values(vals))
    ensures Elements(tokens, parts, k).end == ps[|parts|]
    decreases |parts|
  {
    if parts != [] {
      ChainTail(tokens, parts, k, ps, vals);
      ElementsOfChain(tokens, parts[1..], ps[1], ps[1..], vals[1..]);
      assert [vals[0]] + vals[1..] == vals;
    }
  }

  /** When `Elements` matches, its elements matched one after the other. */
  lemma {:induction false} ChainOfElements(tokens: seq<Token>, parts: seq<Parsel>, k: int)
    returns (ps: seq<int>)
    requires InRange(tokens, k) && Elements(tokens, parts, k).attempt.Got?
    ensures Chain(tokens, parts, k, ps, Elements(tokens, parts, k).attempt.value.items)
    ensures ps[|parts|] == Elements(tokens, parts, k).end
    decreases |parts|
  {
    if parts == [] {
      ps := [k];
    } else {
      var one := Element(tokens, parts[0], k);
      var rest := ChainOfElements(tokens, parts[1..], one.end);
      ChainCons(tokens, parts, k, one.attempt.value, rest, Elements(tokens, parts[1..], one.end).attempt.value.items);
      ps := [k] + rest;
    }
  }

  /**
   * `p` matches exactly when its elements match one after the other from
   * `k`; its value is then the list of their values, and the cursor stops
   * after the last of them.
   */
  lemma SeqOfMatches(tokens: seq<Token>, parts: seq<Parsel>, fn: Option<nat>, k: int)
    requires InRange(tokens, k)
    ensures SeqOf(tokens, parts, fn, k).attempt.Got? <==>
              exists ps, vals :: Chain(tokens, parts, k, ps, vals)
    ensures forall ps, vals | Chain(tokens, parts, k, ps, vals) ::
              SeqOf(tokens, parts, fn, k).attempt == Got(Values(vals)) && SeqOf(tokens, parts, fn, k).end == ps[|parts|]
  {
    if SeqOf(tokens, parts, fn, k).attempt.Got? {
      var ps := ChainOfElements(tokens, parts, k);
      assert Chain(tokens, parts, k, ps, Elements(tokens, parts, k).attempt.value.items);
    }
    forall ps, vals | Chain(tokens, parts, k, ps, vals)
      ensures SeqOf(tokens, parts, fn, k).attempt == Got(Values(vals)) && SeqOf(tokens, parts, fn, k).end == ps[|parts|]
    {
      ElementsOfChain(tokens, parts, k, ps, vals);
    }
  }

  /** Every element before `j` fails at `k`. */
  ghost predicate FailedBefore(tokens: seq<Token>, parts: seq<Parsel>, j: int, k: int)
    requires InRange(tokens, k) && j <= |parts|
  {
    forall i | 0 <= i < j :: Element(tokens, parts[i], k).attempt.Failed?
  }

  /** The alternatives from `k` fail exactly when each of them fails. */
  lemma {:induction false} AlternativesFail(tokens: seq<Token>, parts: seq<Parsel>, k: int)
    requires InRange(tokens, k)
    ensures Alternatives(tokens, parts, k).run.attempt.Failed? <==> FailedBefore(tokens, parts, |parts|, k)
    decreases |parts|
  {
    if parts != [] && Element(tokens, parts[0], k).attempt.Failed? {
      AlternativesFail(tokens, parts[1..], k);
      forall i | 1 <= i < |parts|
        ensures parts[i] == parts[1..][i - 1]
      {
      }
    }
  }

  /**
   * Unless every alternative fails, the outcome and the cursor are those of
   * the first alternative that does not fail; on a match `choice` is its
   * index.
   */
  lemma {:induction false} AlternativesFirst(tokens: seq<Token>, parts: seq<Parsel>, k: int)
    requires InRange(tokens, k) && !Alternatives(tokens, parts, k).run.attempt.Failed?
    ensures var a := Alternatives(tokens, parts, k);
            exists j | 0 <= j < |parts| ::
              && FailedBefore(tokens, parts, j, k)
              && Element(tokens, parts[j], k).attempt == a.run.attempt
              && Element(tokens, parts[j], k).end == a.run.end
              && (a.run.attempt.Got? ==> a.choice == j)
    decreases |parts|
  {
    var a := Alternatives(tokens, parts, k);
    var one := Element(tokens, parts[0], k);
    if one.attempt.Failed? {
      AlternativesFirst(tokens, parts[1..], k);
      var b := Alternatives(tokens, parts[1..], k);
      var j :| 0 <= j < |parts| - 1 && FailedBefore(tokens, parts[1..], j, k)
               && Element(tokens, parts[1..][j], k).attempt == b.run.attempt
               && Element(tokens, parts[1..][j], k).end == b.run.end
               && (b.run.attempt.Got? ==> b.choice == j);
      forall i | 1 <= i < j + 1
        ensures Element(tokens, parts[i], k).attempt.Failed?
      {
        assert parts[i] == parts[1..][i - 1];
      }
      assert parts[j + 1] == parts[1..][j];
      assert FailedBefore(tokens, parts, j + 1, k);
    } else {
      assert FailedBefore(tokens, parts, 0, k);
    }
  }

  /** `alt` fails exactly when every alternative fails at `k`. */
  lemma AltOfFails(tokens: seq<Token>, parts: seq<Parsel>, fn: Option<nat>, k: int)
    requires InRange(tokens, k)
    ensures AltOf(tokens, parts, fn, k).run.attempt.Failed? <==> FailedBefore(tokens, parts, |parts|, k)
  {
    AlternativesFail(tokens, parts, k);
  }

  /** Otherwise `alt` answers for its first alternative that does not fail, and `choice` names it. */
  lemma AltOfFirst(tokens: seq<Token>, parts: seq<Parsel>, fn: Option<nat>, k: int)
    requires InRange(tokens, k) && !AltOf(tokens, parts, fn, k).run.attempt.Failed?
    ensures var a := AltOf(tokens, parts, fn, k);
            exists j | 0 <= j < |parts| ::
              && FailedBefore(tokens, parts, j, k)
              && Element(tokens, parts[j], k).attempt == a.run.attempt
              && Element(tokens, parts[j], k).end == a.run.end
              && (a.run.attempt.Got? ==> a.choice == j)
  {
    AlternativesFirst(tokens, parts, k);
  }

  /**
   * `more` fails, and `opt_more` gives `Null()`, exactly when the first round
   * of `p` fails; a list is returned only when that round matched and moved
   * the cursor, and it starts with that round's value.
   */
  lemma MoreOfFirstRound(tokens: seq<Token>, parts: seq<Parsel>, fn: Option<nat>, orNull: bool, k: int)
    requires InRange(tokens, k)
    ensures var o, one := MoreOf(tokens, parts, fn, orNull, k), SeqOf(tokens, parts, None, k);
            && (o.attempt.Failed? <==> !orNull && one.attempt.Failed?)
            && (o.attempt == Got(Tree(Null)) <==> orNull && one.attempt.Failed?)
            && (o.attempt.Got? && o.attempt.value.Values? ==>
                  one.attempt.Got? && k < one.end && o.attempt.value.items[0] == one.attempt.value)
  {
  }

  /** `opt` gives `Null()` exactly when its sequence fails, and otherwise what the sequence gave. */
  lemma OptOfNull(tokens: seq<Token>, parts: seq<Parsel>, fn: Option<nat>, k: int)
    requires InRange(tokens, k)
    ensures var o, s := OptOf(tokens, parts, fn, k), SeqOf(tokens, parts, None, k);
            && (o.attempt == Got(Tree(Null)) <==> s.attempt.Failed?)
            && (!s.attempt.Failed? ==> o.attempt == s.attempt && o.end == s.end)
  {
  }
}
