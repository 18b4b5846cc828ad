/**
 * The vocabulary of the PEG combinators `p`, `alt`, `more`, `opt_more` and
 * `opt`: the grammar expressions they are built from, the values they
 * return, the record of the callbacks they make, and the shape a value of
 * each expression has.
 *
 * A combinator element is a string, matched with `consume_string`, a rule of
 * the parser, or another combinator. The `fn` callback a combinator may be
 * given is not run: each call is recorded with the callback's identifier and
 * its arguments, which stands for whatever it does to `combinator_data`.
 *
 * `Element`, `SeqOf`, `AltOf`, `MoreOf` and `OptOf` say, as functions of the
 * tokens, what each combinator returns from position `k`, where it leaves
 * the cursor, and which callback calls it makes, in order.
 */
module CombinatorSpec {
  import opened Wrappers
  import opened Tokens
  import opened Ast
  import opened ParserSpec
  import opened Grammar

  /** The five combinators. */
  datatype Kind = P | Alt | More | OptMore | Opt

  /** A combinator element: a token text, a rule, or a combinator over elements with an optional callback. */
  datatype Parsel =
    | Word(text: string)
    | RuleRef(rule: Rule)
    | Combinator(kind: Kind, parts: seq<Parsel>, fn: Option<nat>)

  /** What an element returns: a token index, an AST node, or a list of values. */
  datatype Value = Index(index: int) | Tree(node: Node) | Values(items: seq<Value>)

  /** One call of a callback: which callback, the value it was given, and `alt`'s choice. */
  datatype FnCall = FnCall(fn: nat, value: Value, choice: Option<nat>)

  /** How an element ends: no match (None), a value, or a Python exception. */
  datatype Attempt = Failed | Got(value: Value) | Raised(reason: Abort)

  /** The value `opt_more` and `opt` return for zero occurrences: `Null()`. */
  predicate IsNull(v: Value) {
    v.Tree? && v.node.Null?
  }

  /** The callback record a combinator with callback `fn` appends for a value. */
  function Called(fn: Option<nat>, v: Value, choice: Option<nat>): (calls: seq<FnCall>)
    ensures fn.None? <==> calls == []
    ensures fn.Some? ==> calls == [FnCall(fn.value, v, choice)]
  {
    if fn.Some? then [FnCall(fn.value, v, choice)] else []
  }

  /** `after` is the record `before` with more calls appended: calls are never undone. */
  predicate Logged(before: seq<FnCall>, after: seq<FnCall>) {
    |before| <= |after| && after[..|before|] == before
  }

  /** Appending to an appended record is appending. */
  lemma LoggedTrans(a: seq<FnCall>, b: seq<FnCall>, c: seq<FnCall>)
    requires Logged(a, b) && Logged(b, c)
    ensures Logged(a, c)
  {
    assert c[..|a|] == c[..|b|][..|a|];
  }

  /** A size that decreases from a combinator to its elements. */
  function Size(e: Parsel): nat {
    match e
    case Word(_) => 1
    case RuleRef(_) => 1
    case Combinator(_, parts, _) => SizeAll(parts) + 3
  }

  /** The total size of a sequence of elements. */
  function SizeAll(ps: seq<Parsel>): nat {
    if ps == [] then 0 else Size(ps[0]) + SizeAll(ps[1..])
  }

  /** No element of a sequence is larger than the whole. */
  lemma {:induction false} SizeAllBound(ps: seq<Parsel>, i: int)
    requires 0 <= i < |ps|
    ensures Size(ps[i]) <= SizeAll(ps)
  {
    if i > 0 {
      SizeAllBound(ps[1..], i - 1);
      assert ps[1..][i - 1] == ps[i];
    }
  }

  /** Strings and rules only: no element that could call a callback of its own. */
  predicate Flat(ps: seq<Parsel>) {
    forall i :: 0 <= i < |ps| ==> !ps[i].Combinator?
  }

  /**
   * The shape of a value an element returns: the index of a token with the
   * element's text, a value of the rule, or the list, choice or repetition
   * the combinator stands for.
   */
  ghost predicate Shape(tokens: seq<Token>, e: Parsel, v: Value)
    decreases e, 1
  {
    match e
    case Word(text) => v.Index? && TokenIs(tokens, v.index, text)
    case RuleRef(rule) => v.Tree? && IsValue(tokens, rule, v.node)
    case Combinator(kind, parts, _) =>
      match kind
      case P => SeqShape(tokens, parts, v)
      case Alt => exists i :: 0 <= i < |parts| && Shape(tokens, parts[i], v)
      case More => Repeats(tokens, parts, v)
      case OptMore => IsNull(v) || Repeats(tokens, parts, v)
      case Opt => IsNull(v) || SeqShape(tokens, parts, v)
  }

  /** A value of `p(parts)`: one value per element, each of that element's shape. */
  ghost predicate SeqShape(tokens: seq<Token>, parts: seq<Parsel>, v: Value)
    decreases parts, 0
  {
    && v.Values? && |v.items| == |parts|
    && forall i :: 0 <= i < |parts| ==> Shape(tokens, parts[i], v.items[i])
  }

  /** A value of `more(parts)`: at least one value of `p(parts)`. */
  ghost predicate Repeats(tokens: seq<Token>, parts: seq<Parsel>, v: Value)
    decreases parts, 1
  {
    && v.Values? && |v.items| >= 1
    && forall i :: 0 <= i < |v.items| ==> SeqShape(tokens, parts, v.items[i])
  }

  // ---------------------------------------------------------------------------
  // What each combinator does

  /** How an element ends, the cursor it leaves, and the callback calls it made, in order. */
  datatype Run = Run(attempt: Attempt, end: int, calls: seq<FnCall>)

  /** The outcome of `alt`, and the index of the element that matched, -1 when none did. */
  datatype Chosen = Chosen(run: Run, choice: int)

  /** The rounds of `p` that `more` reads: their values, the cursor after them, the calls, and the exception that ended them. */
  datatype Reps = Reps(values: seq<Value>, end: int, calls: seq<FnCall>, raised: Option<Abort>)

  /** A rule's outcome as an element's. */
  function Outcome(p: Parsed): (a: Attempt)
    ensures a.Failed? <==> p.NoMatch?
    ensures a.Raised? <==> p.Aborted?
  {
    match p
    case NoMatch => Failed
    case Matched(v) => Got(Tree(v))
    case Aborted(reason) => Raised(reason)
  }

  /** One element from `k`: `consume_string` for a string, the rule for a rule, the combinator for a combinator. */
  function Element(tokens: seq<Token>, e: Parsel, k: int): (o: Run)
    requires InRange(tokens, k)
    ensures k <= o.end < |tokens| && (o.attempt.Failed? ==> o.end == k)
    decreases |tokens| - k, Size(e), 2
  {
    match e
    case Word(text) =>
      var i := TextAt(tokens, k, text);
      if i.Some? then Run(Got(Index(i.value)), i.value, []) else Run(Failed, k, [])
    case RuleRef(rule) =>
      var r := Parse(tokens, rule, k);
      Run(Outcome(r.parsed), r.end, [])
    case Combinator(kind, parts, fn) =>
      match kind
      case P => SeqOf(tokens, parts, fn, k)
      case Alt => AltOf(tokens, parts, fn, k).run
      case More => MoreOf(tokens, parts, fn, false, k)
      case OptMore => MoreOf(tokens, parts, fn, true, k)
      case Opt => OptOf(tokens, parts, fn, k)
  }

  /** The elements one after the other from `k`, up to the first that does not match. */
  function Elements(tokens: seq<Token>, parts: seq<Parsel>, k: int): (o: Run)
    requires InRange(tokens, k)
    ensures k <= o.end < |tokens|
    ensures o.attempt.Got? ==> o.attempt.value.Values? && |o.attempt.value.items| == |parts|
    decreases |tokens| - k, SizeAll(parts), 3
  {
    if parts == [] then Run(Got(Values([])), k, [])
    else
      var one := Element(tokens, parts[0], k);
      if !one.attempt.Got? then one
      else
        var rest := Elements(tokens, parts[1..], one.end);
        var attempt := if rest.attempt.Got? then Got(Values([one.attempt.value] + rest.attempt.value.items)) else rest.attempt;
        Run(attempt, rest.end, one.calls + rest.calls)
  }

  /** `p`: the list of the elements' values and a callback call, or no match with the cursor back at `k`. */
  function SeqOf(tokens: seq<Token>, parts: seq<Parsel>, fn: Option<nat>, k: int): (o: Run)
    requires InRange(tokens, k)
    ensures k <= o.end < |tokens| && (o.attempt.Failed? ==> o.end == k)
    ensures o.attempt.Got? ==> o.attempt.value.Values? && |o.attempt.value.items| == |parts|
    decreases |tokens| - k, SizeAll(parts) + 1, 1
  {
    var s := Elements(tokens, parts, k);
    if s.attempt.Got? then Run(s.attempt, s.end, s.calls + Called(fn, s.attempt.value, None))
    else if s.attempt.Failed? then Run(Failed, k, s.calls)
    else s
  }

  /** The elements tried in turn from `k` until one matches or raises. */
  function Alternatives(tokens: seq<Token>, parts: seq<Parsel>, k: int): (a: Chosen)
    requires InRange(tokens, k)
    ensures k <= a.run.end < |tokens| && (a.run.attempt.Failed? ==> a.run.end == k)
    ensures a.run.attempt.Got? <==> 0 <= a.choice
    ensures a.choice < |parts|
    decreases |tokens| - k, SizeAll(parts), 3
  {
    if parts == [] then Chosen(Run(Failed, k, []), -1)
    else
      var one := Element(tokens, parts[0], k);
      if one.attempt.Raised? then Chosen(one, -1)
      else if one.attempt.Got? then Chosen(one, 0)
      else
        var rest := Alternatives(tokens, parts[1..], k);
        Chosen(Run(rest.run.attempt, rest.run.end, one.calls + rest.run.calls), if rest.choice >= 0 then rest.choice + 1 else -1)
  }

  /** `alt`: the first element that matches, with a callback call carrying its index. */
  function AltOf(tokens: seq<Token>, parts: seq<Parsel>, fn: Option<nat>, k: int): (a: Chosen)
    requires InRange(tokens, k)
    ensures k <= a.run.end < |tokens| && (a.run.attempt.Failed? ==> a.run.end == k)
    ensures a.run.attempt.Got? <==> 0 <= a.choice
    ensures a.choice < |parts|
    decreases |tokens| - k, SizeAll(parts) + 1, 1
  {
    var a := Alternatives(tokens, parts, k);
    if a.run.attempt.Got? then
      Chosen(Run(a.run.attempt, a.run.end, a.run.calls + Called(fn, a.run.attempt.value, Some(a.choice as nat))), a.choice)
    else a
  }

  /**
   * The rounds of `p` from `k` until one does not match. A round that
   * matches without consuming a token would repeat forever; it is recorded
   * as an `EndlessLoop` exception.
   */
  function Repetitions(tokens: seq<Token>, parts: seq<Parsel>, k: int): (m: Reps)
    requires InRange(tokens, k)
    ensures k <= m.end < |tokens|
    ensures m.values == [] && m.raised.None? ==> m.end == k
    ensures forall i | 0 <= i < |m.values| :: m.values[i].Values? && |m.values[i].items| == |parts|
    decreases |tokens| - k, SizeAll(parts) + 2, 0
  {
    var one := SeqOf(tokens, parts, None, k);
    if one.attempt.Raised? then Reps([], one.end, one.calls, Some(one.attempt.reason))
    else if one.attempt.Failed? then Reps([], k, one.calls, None)
    else if one.end == k then Reps([], k, one.calls, Some(EndlessLoop))
    else
      var rest := Repetitions(tokens, parts, one.end);
      Reps([one.attempt.value] + rest.values, rest.end, one.calls + rest.calls, rest.raised)
  }

  /** `more` (`orNull` false) and `opt_more` (`orNull` true): the rounds as a list, or no match (`Null()` for `opt_more`) at `k`. */
  function MoreOf(tokens: seq<Token>, parts: seq<Parsel>, fn: Option<nat>, orNull: bool, k: int): (o: Run)
    requires InRange(tokens, k)
    ensures k <= o.end < |tokens| && (o.attempt.Failed? ==> o.end == k)
    decreases |tokens| - k, SizeAll(parts) + 2, 1
  {
    var m := Repetitions(tokens, parts, k);
    if m.raised.Some? then Run(Raised(m.raised.value), m.end, m.calls)
    else if |m.values| < 1 then Run(if orNull then Got(Tree(Null)) else Failed, k, m.calls)
    else Run(Got(Values(m.values)), m.end, m.calls + Called(fn, Values(m.values), None))
  }

  /** `opt`: the value of `p` with a callback call, or `Null()` at `k`. */
  function OptOf(tokens: seq<Token>, parts: seq<Parsel>, fn: Option<nat>, k: int): (o: Run)
    requires InRange(tokens, k)
    ensures k <= o.end < |tokens| && !o.attempt.Failed?
    decreases |tokens| - k, SizeAll(parts) + 2, 1
  {
    var s := SeqOf(tokens, parts, None, k);
    if s.attempt.Raised? then s
    else if s.attempt.Failed? then Run(Got(Tree(Null)), k, s.calls)
    else Run(s.attempt, s.end, s.calls + Called(fn, s.attempt.value, None))
  }

  // ---------------------------------------------------------------------------
  // What a combinator's loop has done so far, in front of what is left

  /** Concatenation regroups freely. */
  lemma AppendAssoc<T>(a: seq<T>, b: seq<T>, c: seq<T>)
    ensures a + (b + c) == (a + b) + c
  {
  }

  /** The run of the remaining elements of `p`, after elements that gave `items` and made `log`. */
  function After(items: seq<Value>, log: seq<FnCall>, s: Run): (o: Run)
    requires s.attempt.Got? ==> s.attempt.value.Values?
    ensures o.end == s.end && o.calls == log + s.calls
    ensures o.attempt.Got? <==> s.attempt.Got?
  {
    Run(if s.attempt.Got? then Got(Values(items + s.attempt.value.items)) else s.attempt, s.end, log + s.calls)
  }

  /** Moving one element that gave `v` and made `calls` from the remaining run to the front. */
  lemma AfterStep(items: seq<Value>, log: seq<FnCall>, v: Value, calls: seq<FnCall>, s: Run)
    requires s.attempt.Got? ==> s.attempt.value.Values?
    ensures After(items, log, Run(if s.attempt.Got? then Got(Values([v] + s.attempt.value.items)) else s.attempt, s.end, calls + s.calls))
            == After(items + [v], log + calls, s)
  {
    assert log + (calls + s.calls) == (log + calls) + s.calls;
    if s.attempt.Got? {
      assert items + ([v] + s.attempt.value.items) == (items + [v]) + s.attempt.value.items;
    }
  }

  /** The alternatives from the `i`-th on, after earlier ones that made `log`. */
  function Later(log: seq<FnCall>, i: nat, a: Chosen): (b: Chosen)
    ensures b.run.attempt == a.run.attempt && b.run.end == a.run.end && b.run.calls == log + a.run.calls
    ensures a.choice >= 0 ==> b.choice == a.choice + i
  {
    Chosen(Run(a.run.attempt, a.run.end, log + a.run.calls), if a.choice >= 0 then a.choice + i else -1)
  }

  /** Moving one failed alternative that made `calls` to the front. */
  lemma LaterStep(log: seq<FnCall>, i: nat, calls: seq<FnCall>, a: Chosen)
    ensures Later(log, i, Chosen(Run(a.run.attempt, a.run.end, calls + a.run.calls), if a.choice >= 0 then a.choice + 1 else -1))
            == Later(log + calls, i + 1, a)
  {
    assert log + (calls + a.run.calls) == (log + calls) + a.run.calls;
  }

  /** The remaining rounds of `more`, after rounds that gave `items` and made `log`. */
  function Again(items: seq<Value>, log: seq<FnCall>, m: Reps): (o: Reps)
    ensures o.end == m.end && o.raised == m.raised
    ensures o.values == items + m.values && o.calls == log + m.calls
  {
    Reps(items + m.values, m.end, log + m.calls, m.raised)
  }

  /** Before the first round, nothing has been read. */
  lemma AgainStart(m: Reps)
    ensures Again([], [], m) == m
  {
    assert [] + m.values == m.values && [] + m.calls == m.calls;
  }

  /** Before the first element, nothing has been read. */
  lemma AfterStart(s: Run)
    requires s.attempt.Got? ==> s.attempt.value.Values?
    ensures After([], [], s) == s
  {
    assert [] + s.calls == s.calls;
    if s.attempt.Got? {
      assert [] + s.attempt.value.items == s.attempt.value.items;
    }
  }

  /** Moving one round that gave `v` and made `calls` to the front. */
  lemma AgainStep(items: seq<Value>, log: seq<FnCall>, v: Value, calls: seq<FnCall>, m: Reps)
    ensures Again(items, log, Reps([v] + m.values, m.end, calls + m.calls, m.raised)) == Again(items + [v], log + calls, m)
  {
    assert log + (calls + m.calls) == (log + calls) + m.calls;
    assert items + ([v] + m.values) == (items + [v]) + m.values;
  }

  /** A round of `more` that matched and moved on: it joins the rounds already read. */
  lemma RepetitionsNext(tokens: seq<Token>, parts: seq<Parsel>, k: int, items: seq<Value>, log: seq<FnCall>, m: Reps)
    requires InRange(tokens, k) && m == Again(items, log, Repetitions(tokens, parts, k))
    requires var one := SeqOf(tokens, parts, None, k); one.attempt.Got? && one.end != k
    ensures var one := SeqOf(tokens, parts, None, k);
      m == Again(items + [one.attempt.value], log + one.calls, Repetitions(tokens, parts, one.end))
  {
    var one := SeqOf(tokens, parts, None, k);
    AgainStep(items, log, one.attempt.value, one.calls, Repetitions(tokens, parts, one.end));
  }

  /** A round of `more` that did not match, raised, or matched without moving: the rounds end with it. */
  lemma RepetitionsLast(tokens: seq<Token>, parts: seq<Parsel>, k: int, items: seq<Value>, log: seq<FnCall>, m: Reps)
    requires InRange(tokens, k) && m == Again(items, log, Repetitions(tokens, parts, k))
    requires var one := SeqOf(tokens, parts, None, k); !one.attempt.Got? || one.end == k
    ensures var one := SeqOf(tokens, parts, None, k);
      m == Reps(items, if one.attempt.Raised? then one.end else k, log + one.calls,
                if one.attempt.Raised? then Some(one.attempt.reason) else if one.attempt.Failed? then None else Some(EndlessLoop))
  {
    assert items + [] == items;
  }

  /** An element of `p` that matched joins the values read so far. */
  lemma ElementsNext(tokens: seq<Token>, parts: seq<Parsel>, i: nat, k: int, items: seq<Value>, log: seq<FnCall>, whole: Run)
    requires i < |parts| && InRange(tokens, k) && whole == After(items, log, Elements(tokens, parts[i..], k))
    requires Element(tokens, parts[i], k).attempt.Got?
    ensures var e := Element(tokens, parts[i], k);
      whole == After(items + [e.attempt.value], log + e.calls, Elements(tokens, parts[i + 1..], e.end))
  {
    assert parts[i..][0] == parts[i] && parts[i..][1..] == parts[i + 1..];
    var e := Element(tokens, parts[i], k);
    AfterStep(items, log, e.attempt.value, e.calls, Elements(tokens, parts[i + 1..], e.end));
  }

  /** An element of `p` that did not match ends the elements with its own outcome. */
  lemma ElementsStop(tokens: seq<Token>, parts: seq<Parsel>, i: nat, k: int, items: seq<Value>, log: seq<FnCall>, whole: Run)
    requires i < |parts| && InRange(tokens, k) && whole == After(items, log, Elements(tokens, parts[i..], k))
    requires !Element(tokens, parts[i], k).attempt.Got?
    ensures var e := Element(tokens, parts[i], k); whole == Run(e.attempt, e.end, log + e.calls)
  {
    assert parts[i..][0] == parts[i];
  }

  /** With every element of `p` read, the values read are the list. */
  lemma ElementsDone(tokens: seq<Token>, parts: seq<Parsel>, k: int, items: seq<Value>, log: seq<FnCall>, whole: Run)
    requires InRange(tokens, k) && whole == After(items, log, Elements(tokens, parts[|parts|..], k))
    ensures whole == Run(Got(Values(items)), k, log)
  {
    assert parts[|parts|..] == [] && items + [] == items && log + [] == log;
  }

  /** An alternative that failed passes on to the next, keeping its calls. */
  lemma AlternativesNext(tokens: seq<Token>, parts: seq<Parsel>, i: nat, k: int, log: seq<FnCall>, whole: Chosen)
    requires i < |parts| && InRange(tokens, k) && whole == Later(log, i, Alternatives(tokens, parts[i..], k))
    requires Element(tokens, parts[i], k).attempt.Failed?
    ensures whole == Later(log + Element(tokens, parts[i], k).calls, i + 1, Alternatives(tokens, parts[i + 1..], k))
  {
    assert parts[i..][0] == parts[i] && parts[i..][1..] == parts[i + 1..];
    LaterStep(log, i, Element(tokens, parts[i], k).calls, Alternatives(tokens, parts[i + 1..], k));
  }

  /** An alternative that matched or raised is the outcome of `alt`'s loop. */
  lemma AlternativesStop(tokens: seq<Token>, parts: seq<Parsel>, i: nat, k: int, log: seq<FnCall>, whole: Chosen)
    requires i < |parts| && InRange(tokens, k) && whole == Later(log, i, Alternatives(tokens, parts[i..], k))
    requires !Element(tokens, parts[i], k).attempt.Failed?
    ensures var e := Element(tokens, parts[i], k);
      whole == Chosen(Run(e.attempt, e.end, log + e.calls), if e.attempt.Got? then i else -1)
  {
    assert parts[i..][0] == parts[i];
  }

  /** Before the first alternative, nothing has been tried. */
  lemma AlternativesStart(tokens: seq<Token>, parts: seq<Parsel>, k: int)
    requires InRange(tokens, k)
    ensures Alternatives(tokens, parts, k) == Later([], 0, Alternatives(tokens, parts[0..], k))
  {
    var a := Alternatives(tokens, parts, k);
    assert parts[0..] == parts && [] + a.run.calls == a.run.calls;
  }

  /** No alternative left: `alt`'s loop fails at `k`. */
  lemma AlternativesDone(tokens: seq<Token>, parts: seq<Parsel>, k: int, log: seq<FnCall>, whole: Chosen)
    requires InRange(tokens, k) && whole == Later(log, |parts|, Alternatives(tokens, parts[|parts|..], k))
    ensures whole == Chosen(Run(Failed, k, log), -1)
  {
    assert parts[|parts|..] == [] && log + [] == log;
  }
}
