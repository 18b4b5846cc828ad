/**
 * The token extraction pass: every leaf and operator of the tree copies the
 * tokens it points at into a map from token index to token, which is all
 * later passes keep of the token sequence.
 */
module TokenExtraction {
  import opened Wrappers
  import opened Tokens
  import opened Ast

  /** The leaf kinds whose token is copied: names, numbers and strings, but not layout tokens. */
  predicate IsBaseLeaf(n: Node) {
    || n.Identifier? || n.Integer? || n.Float? || n.ImagInteger? || n.ImagFloat?
    || n.String? || n.ByteString? || n.PrefixedString?
  }

  /** The token indices `act` reads for a node: its own for a base leaf, an operator's one or two. */
  function Indices(n: Node): (s: seq<int>)
    ensures |s| <= 2
    ensures !IsBaseLeaf(n) && !n.Operator? ==> s == []
  {
    if IsBaseLeaf(n) then [n.index]
    else if n.Operator? && n.op.PyInt? then
      [n.op.value] + (if n.remOp.PyInt? then [n.remOp.value] else [])
    else []
  }

  /**
   * The nodes `act` can handle: an operator holds token indices (the second
   * one may be absent), and every index it reads is that of a token.
   */
  predicate Readable(tokens: seq<Token>, n: Node) {
    && (n.Operator? ==> n.op.PyInt? && (n.remOp.PyInt? || n.remOp.PyNone?))
    && forall i :: 0 <= i < |Indices(n)| ==> 0 <= Indices(n)[i] < |tokens|
  }

  /** The map after `act` on `n`: each index `n` reads mapped to its token, in order. */
  function Extracted(tokens: seq<Token>, relevant: map<int, Token>, n: Node): (m: map<int, Token>)
    requires Readable(tokens, n)
  {
    var s := Indices(n);
    if |s| == 0 then relevant
    else if |s| == 1 then relevant[s[0] := tokens[s[0]]]
    else relevant[s[0] := tokens[s[0]]][s[1] := tokens[s[1]]]
  }

  /** What `act` writes: every index the node reads maps to its token, and every other key is kept. */
  lemma ExtractedContents(tokens: seq<Token>, relevant: map<int, Token>, n: Node)
    requires Readable(tokens, n)
    ensures forall i :: 0 <= i < |Indices(n)| ==>
              Indices(n)[i] in Extracted(tokens, relevant, n) &&
              Extracted(tokens, relevant, n)[Indices(n)[i]] == tokens[Indices(n)[i]]
    ensures forall k :: k !in Indices(n) ==>
              (k in Extracted(tokens, relevant, n) <==> k in relevant) &&
              (k in relevant ==> Extracted(tokens, relevant, n)[k] == relevant[k])
  {
  }

  /** `act` twice on the same node is `act` once. */
  lemma ExtractedIdempotent(tokens: seq<Token>, relevant: map<int, Token>, n: Node)
    requires Readable(tokens, n)
    ensures Extracted(tokens, Extracted(tokens, relevant, n), n) == Extracted(tokens, relevant, n)
  {
    var once := Extracted(tokens, relevant, n);
    ExtractedContents(tokens, relevant, n);
    ExtractedContents(tokens, once, n);
    var twice := Extracted(tokens, once, n);
    assert twice.Keys == once.Keys;
    forall k | k in once
      ensures twice[k] == once[k]
    {
      if k in Indices(n) {
        var i :| 0 <= i < |Indices(n)| && Indices(n)[i] == k;
      }
    }
  }

  /** The exceptions `act` can raise: a non-integer list index, or an index outside the list. */
  datatype ActError = TypeError | IndexError

  /** The map `act` leaves behind, and the exception it raised, if any. */
  datatype Acted = Acted(relevant: map<int, Token>, error: Option<ActError>)

  /**
   * A value used as a list index: an integer, or a boolean as 0 or 1; any
   * other value (None, a node) makes the subscript raise TypeError.
   */
  function AsIndex(v: Node): (i: Option<int>)
    ensures v.PyInt? ==> i == Some(v.value)
    ensures !v.PyInt? && !v.PyBool? ==> i.None?
  {
    if v.PyInt? then Some(v.value)
    else if v.PyBool? then Some(if v.truth then 1 else 0)
    else None
  }

  /**
   * `tokens[i]`: a negative index counts from the end, and an index outside
   * the list raises IndexError (None here).
   */
  function TokenAt(tokens: seq<Token>, i: int): (t: Option<Token>)
    ensures t.Some? <==> -|tokens| <= i < |tokens|
    ensures 0 <= i < |tokens| ==> t == Some(tokens[i])
    ensures -|tokens| <= i < 0 ==> t == Some(tokens[|tokens| + i])
  {
    if 0 <= i < |tokens| then Some(tokens[i])
    else if -|tokens| <= i < 0 then Some(tokens[|tokens| + i])
    else None
  }

  /** `relevant[v] = deepcopy(tokens[v])`: the entry written, or the exception raised before writing. */
  function CopyToken(tokens: seq<Token>, relevant: map<int, Token>, v: Node): (a: Acted)
  {
    var i := AsIndex(v);
    if i.None? then Acted(relevant, Some(TypeError))
    else
      var t := TokenAt(tokens, i.value);
      if t.None? then Acted(relevant, Some(IndexError))
      else Acted(relevant[i.value := t.value], None)
  }

  /**
   * `act` on any node: a base leaf copies its token; an operator copies the
   * token of its first word, then, unless its second word is None, that
   * one's. An exception on the second word leaves the first one copied.
   */
  function ActOn(tokens: seq<Token>, relevant: map<int, Token>, n: Node): (a: Acted)
  {
    if IsBaseLeaf(n) then CopyToken(tokens, relevant, PyInt(n.index))
    else if n.Operator? then
      var first := CopyToken(tokens, relevant, n.op);
      if first.error.Some? || n.remOp.PyNone? then first
      else CopyToken(tokens, first.relevant, n.remOp)
    else Acted(relevant, None)
  }

  /** On a readable node `act` raises nothing and leaves `Extracted`. */
  lemma ActOnReadable(tokens: seq<Token>, relevant: map<int, Token>, n: Node)
    requires Readable(tokens, n)
    ensures ActOn(tokens, relevant, n) == Acted(Extracted(tokens, relevant, n), None)
  {
    if n.Operator? {
      assert Indices(n)[0] == n.op.value;
      if n.remOp.PyInt? {
        assert Indices(n)[1] == n.remOp.value;
      }
    }
  }

  /**
   * An operator without a first word, as `power_expr` builds for an
   * exponent without `^`, makes `act` raise TypeError before it writes
   * anything.
   */
  lemma ActOnMissingOperator(tokens: seq<Token>, relevant: map<int, Token>, n: Node)
    requires n.Operator? && n.op.PyNone?
    ensures ActOn(tokens, relevant, n) == Acted(relevant, Some(TypeError))
  {
  }

  /**
   * `act` raises exactly when an index it reads is no integer or lies
   * outside the tokens; and when it raises on the second word of an
   * operator, the first word's token has been copied already.
   */
  lemma ActOnRaises(tokens: seq<Token>, relevant: map<int, Token>, n: Node)
    ensures var a := ActOn(tokens, relevant, n);
            a.error.Some? <==>
              || (IsBaseLeaf(n) && TokenAt(tokens, n.index).None?)
              || (n.Operator? && !IsBaseLeaf(n) && (AsIndex(n.op).None? || TokenAt(tokens, AsIndex(n.op).value).None?))
              || (n.Operator? && !IsBaseLeaf(n) && AsIndex(n.op).Some? && TokenAt(tokens, AsIndex(n.op).value).Some?
                  && !n.remOp.PyNone? && (AsIndex(n.remOp).None? || TokenAt(tokens, AsIndex(n.remOp).value).None?))
    ensures var a := ActOn(tokens, relevant, n);
            n.Operator? && !IsBaseLeaf(n) && a.error.Some? && AsIndex(n.op).Some? && TokenAt(tokens, AsIndex(n.op).value).Some? ==>
              a.relevant == relevant[AsIndex(n.op).value := TokenAt(tokens, AsIndex(n.op).value).value]
  {
  }

  /** The visitor that collects the tokens the tree refers to. */
  class TokenExtractionVisitor {
    const tokens: seq<Token>
    var relevantTokens: map<int, Token>

    constructor (tokens: seq<Token>)
      ensures this.tokens == tokens && relevantTokens == map[]
    {
      this.tokens := tokens;
      relevantTokens := map[];
    }

    /** `relevant_tokens[v] = deepcopy(self.tokens[v])`, or the exception the subscript raises. */
    method Copy(v: Node) returns (raised: Option<ActError>)
      modifies this`relevantTokens
      ensures Acted(relevantTokens, raised) == CopyToken(tokens, old(relevantTokens), v)
    {
      var i := AsIndex(v);
      if i.None? {
        return Some(TypeError);
      }
      var t := TokenAt(tokens, i.value);
      if t.None? {
        return Some(IndexError);
      }
      relevantTokens := relevantTokens[i.value := t.value];
      raised := None;
    }

    /**
     * `act`: for a name, number or string leaf, copies the token at its
     * index; for an operator, the token of its first word and, when there
     * is one, of its second; any other node leaves the map as it was.
     * Returns true, unless a subscript raised first (`raised`).
     */
    method Act(n: Node) returns (r: bool, raised: Option<ActError>)
      modifies this`relevantTokens
      ensures raised.None? ==> r
      ensures Acted(relevantTokens, raised) == ActOn(tokens, old(relevantTokens), n)
      ensures Readable(tokens, n) ==> r && raised.None? && relevantTokens == Extracted(tokens, old(relevantTokens), n)
    {
      if Readable(tokens, n) {
        ActOnReadable(tokens, relevantTokens, n);
      }
      if IsBaseLeaf(n) {
        raised := Copy(PyInt(n.index));
      } else if n.Operator? {
        raised := Copy(n.op);
        if raised.None? && !n.remOp.PyNone? {
          raised := Copy(n.remOp);
        }
      } else {
        raised := None;
      }
      r := raised.None?;
    }
  }
}
