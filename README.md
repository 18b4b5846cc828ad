# Raccoon front end in Dafny

A model of the front end of the Raccoon compiler, with proofs about it. Raccoon is a
Python-like language with a compiler written in Python. The model covers:

- **Parser.** The packrat, backtracking recursive-descent parser of expressions: its cursor,
  its `(row, column)` line information, its memo cache and its soft checkpoint
  (`revert_data`). It also covers the five PEG combinators `p`, `alt`, `more`, `opt_more` and
  `opt`, and every expression rule from the token rules up to `arguments`.
- **AST.** The node classes the parser builds, the operator-kind lookup tables, and Python's
  `==` on nodes.
- **Semantic information.** The scopes, the shared symbol tables, the primitive types and the
  prelude; the duplicate-parameter check; and the pass that copies the tokens the tree refers
  to.

## How the model is organised

- `wrappers.dfy` (module `Wrappers`): `Option` and `Outcome`.
- `tokens.dfy` (module `Tokens`): token kinds and the token record (kind, text, row, column).
- `ast.dfy` (module `Ast`): the node datatype, one constructor per AST class; Python's `None`, ints, bools, lists and tuples, which nodes hold as attributes; the operator lookups.
- `ast_equality.dfy` (module `AstEquality`): the attribute dictionary of a node, Python's `==` on nodes (`PyEq`), and a class-aware equality (`NodeEq`).
- `parser_spec.dfy` (module `ParserSpec`): the rule names, the memo record, the trees each rule may produce (`IsValue`), and the folds that build binary, unary and rest expressions.
- `grammar.dfy` (module `Grammar`): every rule as a plain function of the token sequence and a start position (`Grammar.Parse`, `Grammar.Body`): what the rule returns and where it leaves the cursor, with no cache.
- `grammar_values.dfy` (module `GrammarValues`): every match `Grammar.Parse` returns is a tree of the rule's own kind.
- `combinator_spec.dfy` (module `CombinatorSpec`): combinator grammar expressions (`Parsel`), their values, the callback record, and each combinator as a function (`SeqOf`, `AltOf`, `MoreOf`, `OptOf`).
- `combinator_laws.dfy` (module `CombinatorLaws`): when each combinator matches, fails or gives `Null()`, in terms of its elements.
- `parser.dfy` (module `Parsing`): the class `Parser`: state, primitives, decorators, rule bodies and combinators as methods. Each method is proved to return what the `Grammar` or `CombinatorSpec` function computes and to leave the cursor where it says.
- `checkpoint_trace.dfy` (module `CheckpointTrace`): the input `1 , lambda x` traced through the rules, for the checkpoint finding below.
- `info.dfy` (module `Info`): symbol tables, scopes, primitive types and `SemanticInfo`.
- `checks.dfy` (module `Checks`): `param_name_conflict`.
- `token_extraction.dfy` (module `TokenExtraction`): the visitor's `act`.

### How Python behaviour is modelled

**The parser's state.**
- The parser is a class whose methods change its fields.
- A rule's outcome is `NoMatch` (Python `None`), `Matched(node)` or `Aborted(reason)`.
- `Aborted` stands for a Python exception raised by the rule. It unwinds through every caller
  without reverting the cursor and without writing the cache, as an exception does.
- Two rules always raise when they get far enough:
  - `not_test` raises a `NameError` as soon as `not` follows a comparison, because `not_op` is
    undefined.
  - `lambda_block_def` raises a `TypeError` on `len(None)` as soon as its closing dedent matches.
- Both are modelled as aborts.

**Rules, decorators and the cache.**
- Every decorated rule goes through `Parsing.Parser.Apply`, which is `backtrackable` around
  `memoize` around the rule body.
- `Grammar.Parse` is the reference each rule is proved against. It is written without the
  cache: `Grammar.Body` is the rule body on its own, and `Grammar.Parse` puts the cursor back
  on a failure, as `backtrackable` does.
- The cache maps a cursor to a map from rule to `(result, skip)`.
- The cache invariant (`Parsing.EntryOk`) says that each entry holds exactly what
  `Grammar.Body` computes for that rule at that cursor: its result and the cursor after it.
  A cache hit therefore returns what running the body would.

**Combinators.**
- The combinators are interpreted over a grammar datatype. An element is a token text, a rule,
  or a nested combinator.
- The `fn` callback is not run. Each call is appended to the parser's field `fnCalls`, with the
  value, and `alt`'s choice, passed to it.
- A repetition of `more` or `opt_more` that succeeds without consuming a token makes the Python
  loop run forever. The model ends it with `Raised(EndlessLoop)`.

**Semantic information.**
- Python evaluates the default `{}` tables of `Scope.__init__` once, so every scope built
  without tables shares the same two dictionaries.
- The model makes them two `SymbolTable` objects that every such scope points at.
- `Info.SemanticInfo.Valid` states that sharing. `Info.SemanticInfo.AddNewSymbol` proves that a
  symbol added to the last scope shows in every scope but the top one.

### Behaviour kept as written

These quirks are part of the code's behaviour, and the model proves each of them:

- `rest_expr` tests `consume_string("*")` for truth, and that is a token index. A `*` at index 0
  therefore does not mark a tuple rest (`ParserSpec.RestMarkQuirk`).
- `test` builds an `IfExpr` only when its whole `if … else …` tail matches. Otherwise it
  returns the plain `or_test` value, after consuming whatever part of the tail matched.
- `BinaryOpKind.from_string` keys minus on `_`, not `-`. It maps `>=` to the kind named
  `EQUAL_LESSER_THAN` and `<=` to `EQUAL_GREATER_THAN` (`Ast.BinaryOpQuirks`).
- `power_expr` reads `integer` where its grammar says `atom_expr`, and `unary_expr`; the model
  follows the code. An exponent without `^` gives an `Operator` whose first word is `None`,
  which makes the token extraction pass raise (`TokenExtraction.ActOnMissingOperator`).
- In `binary_expr`, a two-word operator (`not in`, `is not`) is found when either of its words
  is.

## Model

| member | source | states |
|---|---|---|
| Ast.BinaryOpFromString | compiler/parser/ast.py:38-86 | returns `Some(k)` exactly when the operator and its second token spell kind `k`; `is` followed by anything but `not` is `IS` |
| Ast.BinaryOpSpellingRoundTrip | compiler/parser/ast.py:38-86 | every binary kind is recovered from its own spelling |
| Ast.BinaryOpSpellingInjective | compiler/parser/ast.py:38-86 | no two binary kinds share a spelling |
| Ast.BinaryOpQuirks | compiler/parser/ast.py:53-86 | `-` has no kind and `_` is minus; `>=` and `<=` map to the swapped names; `not` without `in` has no kind; `is` without `not` is `IS` |
| Ast.UnaryOpFromString | compiler/parser/ast.py:102-116 | returns `Some(k)` exactly when the string is `k`'s spelling |
| Ast.UnaryOpSpellingRoundTrip | compiler/parser/ast.py:102-116 | every unary kind is recovered from its spelling; the spellings are distinct |
| Ast.ComprehensionDefaults | compiler/parser/ast.py:297-316 | a comprehension built from its three required fields is a generator, synchronous, with no key, `where` or nested comprehension |
| AstEquality.LeafValue | compiler/parser/ast.py:162-220 | the attribute dictionary of a leaf holds its token index alone |
| AstEquality.PyEqIgnoresClass | compiler/parser/ast.py:148-149 | as written, two leaves are equal exactly when their token indices are, whatever their classes |
| AstEquality.PyEqEmptyObjects | compiler/parser/ast.py:148-149 | any two nodes without attributes are equal as written; class-aware equality tells them apart by class |
| AstEquality.PyEqIntegerIdentifier | compiler/parser/ast.py:148-149 | `Integer(0) == Identifier(0)` holds as written, but not under class-aware equality |
| AstEquality.PyEqNullNoneLiteral | compiler/parser/ast.py:148-158 | `Null() == NoneLiteral()` holds as written, but not under class-aware equality |
| AstEquality.NodeEqKeepsClass | compiler/parser/ast.py:148-149 | class-aware equality never equates nodes of different classes |
| AstEquality.NodeEqOnLeaves | compiler/parser/ast.py:148-149 | on leaves, class-aware equality is exactly equality of the nodes |
| AstEquality.BinaryExprEqFieldwise | compiler/parser/ast.py:234-238 | two binary expressions are equal exactly when their operands and operators are, under either equality |
| ParserSpec.Leaf | compiler/parser/parser.py:423-524 | a token rule's node is a leaf that holds the token index |
| ParserSpec.LeafRoundTrip | compiler/parser/parser.py:423-524 | the rule is recovered from the leaf it builds |
| ParserSpec.LeafInjective | compiler/parser/parser.py:423-524 | different token rules or indices give different leaves |
| ParserSpec.LiteralMemo | compiler/parser/parser.py:210-220 | `consume` always eats the next token if there is one, and matches exactly when that token's kind is one of the rule's |
| ParserSpec.FromMemo | compiler/parser/parser.py:184-189 | a cached entry answers with its stored result and never raises |
| ParserSpec.Operand | compiler/parser/parser.py:616-729 | each left-associative rule folds over a rule of lower rank |
| ParserSpec.Operators | compiler/parser/parser.py:616-729 | each left-associative rule has at least one operator |
| ParserSpec.LeftFoldSnoc | compiler/parser/parser.py:589-612 | one more loop round of `binary_expr` wraps the result so far as the left operand |
| ParserSpec.UnfoldLeftFold | compiler/parser/parser.py:589-612 | the operand and the operator steps are recovered from the folded tree |
| ParserSpec.LeftFoldInjective | compiler/parser/parser.py:589-612 | equally long step lists fold to the same tree only when they are equal |
| ParserSpec.LeftFoldAppend | compiler/parser/parser.py:589-612 | folding in two runs is folding once: the operators associate to the left |
| ParserSpec.FoldStep | compiler/parser/parser.py:604-612 | a matched operator and operand extend a value of the rule to a value of the rule |
| ParserSpec.PrefixedStep | compiler/parser/parser.py:575-576 | one round of the closing loop of `unary_expr` wraps one more sign |
| ParserSpec.StripPrefixed | compiler/parser/parser.py:561-578 | the signs and the base are recovered from a unary expression |
| ParserSpec.PrefixedUnary | compiler/parser/parser.py:561-578 | signs around a power value give a value of `unary_expr` |
| ParserSpec.ListCons | compiler/parser/parser.py:925-946 | a first item and more items of a rule form a comma-list value of the rule |
| ParserSpec.ParamList | compiler/parser/parser.py:799-821 | the positional parameters with an optional `/` marker form the `params` list of `FuncParams` |
| ParserSpec.PowerWithExponent | compiler/parser/parser.py:539-543 | `^` or an exponent gives a binary power whose operator holds the `^` index |
| ParserSpec.PowerSquared | compiler/parser/parser.py:544-547 | `²` gives a unary square of the base |
| ParserSpec.PowerRooted | compiler/parser/parser.py:549-550 | a leading `√` wraps the whole power expression |
| ParserSpec.AtomStringsAsWrittenLosesStrings | compiler/parser/parser.py:1472-1478 | as written, the second element of a run of strings is `True`, not the string, so the result is not a list of strings; the corrected list is |
| ParserSpec.Marked | compiler/parser/parser.py:967-972 | no mark leaves the value as it is |
| ParserSpec.MarkedRest | compiler/parser/parser.py:962-972 | a value of the inner rule, marked or not, is a rest value |
| ParserSpec.RestOfTuple | compiler/parser/parser.py:967-968 | a `*`-marked value is a rest value |
| ParserSpec.RestOfNamedTuple | compiler/parser/parser.py:969-970 | a `**`-marked value is a rest value |
| ParserSpec.RestMarkQuirk | compiler/parser/parser.py:955-960 | a `*` marks a tuple rest at any index but 0; at index 0 the truth test drops the mark |
| ParserSpec.ChainValueNotNone | compiler/parser/parser.py:528-729 | no value of the expression chain is Python `None` |
| ParserSpec.UnaryNotNone | compiler/parser/parser.py:556-578 | no value of `unary_expr` is Python `None` |
| ParserSpec.TestNotNone | compiler/parser/parser.py:733-749 | no value of `test` is Python `None` |
| Grammar.MemoOf | compiler/parser/parser.py:193-206 | the entry `memoize` stores answers with the outcome's result, and its skip is the cursor after the outcome |
| Grammar.Stopped | compiler/parser/parser.py:232-246 | a rule that did not match is a no-match, or an exception exactly when one was raised |
| Grammar.TextAt | compiler/parser/parser.py:130-146 | `consume_string(w)` gives an index exactly when the next token's text is `w`, and that index is the next token's |
| Grammar.Parse | compiler/parser/parser.py:148-208 | a decorated rule's result is its body's; it never ends before its start, a match consumes a token, and a no-match leaves the cursor where it started |
| Grammar.Body | compiler/parser/parser.py:423-1549 | a rule body never ends before its start, and a match consumes a token |
| Grammar.BodyCases | compiler/parser/parser.py:423-729 | the body of a token rule is `consume`; the body of a left-associative rule is `binary_expr` |
| Grammar.BodyRules | compiler/parser/parser.py:528-1090 | the body of each rule from `power_expr` to `rest_indentable_expr` is that rule's own function |
| Grammar.CommaBody | compiler/parser/parser.py:925-1574 | the body of `exprs`, `rest_exprs`, `identifiers` and `arguments` is the comma list of its item rule, which ranks below it |
| Grammar.BodyListRules | compiler/parser/parser.py:925-1574 | the body of each comma list, of `subscript_index`, `atom` and `argument` is that rule's own function |
| Grammar.Literal | compiler/parser/parser.py:210-220 | a token rule never raises, and its result and skip are those of `consume` |
| Grammar.MatchOp | compiler/parser/parser.py:593-602 | a found operator is the next token; the cursor moves only when some word matched |
| Grammar.NextStep | compiler/parser/parser.py:589-612 | a loop round that reads a step consumes tokens and raises nothing |
| Grammar.FoldSteps | compiler/parser/parser.py:589-612 | the loop of `binary_expr` moves the cursor whenever it reads a step |
| Grammar.StepsAfter | compiler/parser/parser.py:589-612 | the loop from the middle: the steps already read, then the loop's own steps, with its end and exception |
| Grammar.ParseFold | compiler/parser/parser.py:580-614 | `binary_expr` never ends before its start, and a match consumes a token |
| Grammar.ParsePower | compiler/parser/parser.py:528-552 | `power_expr` never ends before its start, and a match consumes a token |
| Grammar.PowerTail | compiler/parser/parser.py:539-547 | after an integer, the rest of `power_expr` always gives a tree and never moves back |
| Grammar.SignCount | compiler/parser/parser.py:561-568 | the signs in a row after a position all lie within the tokens |
| Grammar.SignOps | compiler/parser/parser.py:561-568 | one operator per sign |
| Grammar.SignCountNext | compiler/parser/parser.py:562-566 | a `+`, `-` or `~` next is one more sign in the row |
| Grammar.SignCountEnd | compiler/parser/parser.py:562-566 | no `+`, `-` or `~` next: the row of signs is empty |
| Grammar.SignOpsNext | compiler/parser/parser.py:568 | one more sign appends its operator at the end |
| Grammar.ParseUnary | compiler/parser/parser.py:556-578 | `unary_expr` never ends before its start, and a match consumes a token |
| Grammar.ParseNotTest | compiler/parser/parser.py:698-711 | `not_test` never ends before its start, and a match consumes a token |
| Grammar.ParseTest | compiler/parser/parser.py:733-749 | `test` never ends before its start, and a match consumes a token |
| Grammar.Round | compiler/parser/parser.py:937-941 | one `revertable` round: a no-match goes back to the round's start; a round without an item never raises |
| Grammar.Rounds | compiler/parser/parser.py:936-942 | the rounds never end before their start |
| Grammar.RoundsAfter | compiler/parser/parser.py:936-942 | the rounds from the middle: the items already read, then the rounds' own items, with their end and exception |
| Grammar.RoundsAfterStart | compiler/parser/parser.py:936 | before the first round nothing is read |
| Grammar.RoundsAfterNext | compiler/parser/parser.py:937-941 | a matched round appends its value and goes on from where it ended |
| Grammar.RoundsAfterLast | compiler/parser/parser.py:937-942 | a round that does not match ends the rounds: at their position when it failed, with its exception when it raised |
| Grammar.StepsAfterStart | compiler/parser/parser.py:589-590 | before the first round of `binary_expr` no step is read |
| Grammar.StepsAfterNext | compiler/parser/parser.py:604-612 | a round that read a step appends it and goes on from where it ended |
| Grammar.StepsAfterLast | compiler/parser/parser.py:604-610 | a round that read no step ends the loop |
| Grammar.ParseCommaList | compiler/parser/parser.py:925-946 | a comma list never ends before its start, and a match consumes a token |
| Grammar.ParseSubscript | compiler/parser/parser.py:1389-1410 | `subscript` never ends before its start, and a match consumes a token |
| Grammar.ParseLambdaParam | compiler/parser/parser.py:753-771 | `lambda_param` never ends before its start, and a match consumes a token |
| Grammar.ParseLambdaParams | compiler/parser/parser.py:775-890 | `lambda_params` never ends before its start, and a match consumes a token |
| Grammar.ParseParamsInParens | compiler/parser/parser.py:789-795 | the parenthesised alternative never ends before its start, and a match consumes a token |
| Grammar.ParseParamsPositional | compiler/parser/parser.py:797-852 | the positional alternative never ends before its start, and a match consumes a token |
| Grammar.ParseSlashPart | compiler/parser/parser.py:809-821 | the `/` part never ends before its start |
| Grammar.ParseParamsTail | compiler/parser/parser.py:823-848 | the rest parts never end before their start |
| Grammar.ParseParamsStarred | compiler/parser/parser.py:854-880 | the starred alternative never ends before its start, and a match consumes a token |
| Grammar.ParseParamsDoubleStarred | compiler/parser/parser.py:882-888 | the `**` alternative never ends before its start, and a match consumes a token |
| Grammar.ParseLambdaExprDef | compiler/parser/parser.py:894-909 | `lambda_expr_def` never ends before its start, and a match consumes a token |
| Grammar.ParseEither | compiler/parser/parser.py:912-922 | `expr` and `indentable_expr` never end before their start, and a match consumes a token |
| Grammar.Repeated | compiler/parser/parser.py:1015-1017 | the `while (x := rule()) is not None` loop never ends before its start |
| Grammar.ParseLambdaBlockDef | compiler/parser/parser.py:1001-1024 | `lambda_block_def` never ends before its start |
| Grammar.RestMarkEnd | compiler/parser/parser.py:955-960 | the marker tests of `rest_expr` never move the cursor back |
| Grammar.ParseRest | compiler/parser/parser.py:950-972 | `rest_expr` never ends before its start, and a match consumes a token |
| Grammar.ParseSubscriptIndex | compiler/parser/parser.py:1354-1385 | `subscript_index` never ends before its start, and a match consumes a token |
| Grammar.ParseSlice | compiler/parser/parser.py:1363-1378 | the slice alternative matches exactly when a `:` comes next, and otherwise moves nothing |
| Grammar.ParseAtom | compiler/parser/parser.py:1414-1498 | `atom` never ends before its start, and a match consumes a token |
| Grammar.ParseStrings | compiler/parser/parser.py:1472-1478 | the string alternative never raises, and a no-match moves nothing |
| Grammar.ParseKeyword | compiler/parser/parser.py:1480-1491 | the keyword alternatives never raise, and a no-match moves nothing |
| Grammar.ParseArgument | compiler/parser/parser.py:1527-1549 | `argument` never ends before its start, and a match consumes a token |
| Grammar.ParseKeywordArgument | compiler/parser/parser.py:1537-1542 | the keyword alternative never ends before its start, and a match consumes a token |
| GrammarValues.ParseSound | compiler/parser/parser.py:423-1549 | every match of every rule is a tree of the rule's own kind (`IsValue`) |
| GrammarValues.BodySound | compiler/parser/parser.py:423-1549 | every match of every rule body is a tree of the rule's own kind |
| GrammarValues.ListRuleSound | compiler/parser/parser.py:925-1574 | matches of the comma lists, `subscript_index`, `atom` and `argument` are trees of their kind |
| GrammarValues.CommaRuleSound | compiler/parser/parser.py:925-1574 | matches of `exprs`, `rest_exprs`, `identifiers`, `arguments` and `subscript` are trees of their kind |
| GrammarValues.NamedListSound | compiler/parser/parser.py:1389-1574 | matches of `identifiers`, `arguments` and `subscript` are trees of their kind |
| GrammarValues.OtherRuleSound | compiler/parser/parser.py:528-1090 | matches of the rules from `power_expr` to `rest_indentable_expr` are trees of their kind |
| GrammarValues.MatchOpSound | compiler/parser/parser.py:593-602 | a found operator is one of the rule's operators, at the tokens consumed |
| GrammarValues.NextStepSound | compiler/parser/parser.py:604-612 | a step read by the loop is an operator of the rule and an operand of its operand rule |
| GrammarValues.AllStepsCons | compiler/parser/parser.py:589-612 | a sound step in front of sound steps gives sound steps |
| GrammarValues.StepsSound | compiler/parser/parser.py:589-612 | every step the loop of `binary_expr` reads is sound |
| GrammarValues.LeftFoldSound | compiler/parser/parser.py:589-612 | folding sound steps onto an operand, or onto `None` when the first operand is missing, gives a value of the rule |
| GrammarValues.FoldSound | compiler/parser/parser.py:580-614 | a match of `binary_expr` is a value of the rule |
| GrammarValues.PowerSound | compiler/parser/parser.py:528-552 | a match of `power_expr` is a power value, with or without a root |
| GrammarValues.PowerTailSound | compiler/parser/parser.py:539-547 | after an integer, the rest of `power_expr` gives a binary power, a square or the integer itself |
| GrammarValues.SignsAreSigns | compiler/parser/parser.py:561-566 | every token in the row of signs is `+`, `-` or `~` |
| GrammarValues.UnarySound | compiler/parser/parser.py:556-578 | a match of `unary_expr` is a power value under sign operators |
| GrammarValues.TestSound | compiler/parser/parser.py:733-749 | a match of `test` is an `or_test` value or a conditional of three |
| GrammarValues.RoundSound | compiler/parser/parser.py:937-941 | a matched round's value is a value of the item rule |
| GrammarValues.AllOfCons | compiler/parser/parser.py:937-941 | an item value in front of item values gives item values |
| GrammarValues.RoundsSound | compiler/parser/parser.py:936-942 | every item the rounds collect is a value of the item rule |
| GrammarValues.ListOfCons | compiler/parser/parser.py:925-946 | a first item and more items form a list value of the rule |
| GrammarValues.CommaListSound | compiler/parser/parser.py:925-946 | a match of a comma list is a non-empty Python list of item values |
| GrammarValues.LambdaParamSound | compiler/parser/parser.py:753-771 | a match of `lambda_param` is a parameter with an optional default |
| GrammarValues.LambdaParamsSound | compiler/parser/parser.py:775-890 | a match of `lambda_params` is a `FuncParams` |
| GrammarValues.InParensSound | compiler/parser/parser.py:789-795 | the parenthesised alternative gives a `FuncParams` |
| GrammarValues.SlashSound | compiler/parser/parser.py:809-821 | the `/` part gives the separator and parameters |
| GrammarValues.ParamsJoin | compiler/parser/parser.py:799-821 | the first parameter, the next ones and the `/` part form a positional list |
| GrammarValues.TailSound | compiler/parser/parser.py:823-848 | the rest parts give an optional tuple rest parameter, keyword-only parameters and an optional `**` parameter |
| GrammarValues.PositionalSound | compiler/parser/parser.py:797-852 | the positional alternative gives a `FuncParams` |
| GrammarValues.StarredSound | compiler/parser/parser.py:854-880 | the starred alternative gives a `FuncParams` with a tuple rest parameter |
| GrammarValues.DoubleStarredSound | compiler/parser/parser.py:882-888 | the `**` alternative gives a `FuncParams` with only that parameter |
| GrammarValues.LambdaExprDefSound | compiler/parser/parser.py:894-909 | a match of `lambda_expr_def` is a lambda value |
| GrammarValues.LambdaBlockDefNeverMatches | compiler/parser/parser.py:1001-1024 | `lambda_block_def` never matches |
| GrammarValues.RestSound | compiler/parser/parser.py:950-972 | a match of `rest_expr` is an inner value, marked or not |
| GrammarValues.SliceSound | compiler/parser/parser.py:1363-1378 | a slice is a subscript index value |
| GrammarValues.SubscriptIndexSound | compiler/parser/parser.py:1354-1385 | a match of `subscript_index` is a slice or a single test |
| GrammarValues.RepeatedSound | compiler/parser/parser.py:1015-1017 | every value the loop collects is a value of the rule |
| GrammarValues.AtomSound | compiler/parser/parser.py:1414-1498 | a match of `atom` is an atom value |
| GrammarValues.ArgumentSound | compiler/parser/parser.py:1527-1549 | a match of `argument` is a keyword or a positional argument |
| CombinatorSpec.Called | compiler/parser/parser.py:250-256 | a callback call is recorded exactly when there is a callback, with the value and the choice |
| CombinatorSpec.LoggedTrans | compiler/parser/parser.py:222-397 | the callback record only grows |
| CombinatorSpec.Outcome | compiler/parser/parser.py:232-246 | a rule's no-match is a failed element and its exception a raised one |
| CombinatorSpec.Element | compiler/parser/parser.py:232-246 | one element never ends before its start, and a failed one moves nothing |
| CombinatorSpec.Elements | compiler/parser/parser.py:232-248 | the elements in turn give one value per element |
| CombinatorSpec.SeqOf | compiler/parser/parser.py:222-257 | `p` gives one value per element, and a failure moves nothing |
| CombinatorSpec.Alternatives | compiler/parser/parser.py:269-287 | the alternatives give a choice exactly when one matched, and a failure moves nothing |
| CombinatorSpec.AltOf | compiler/parser/parser.py:259-296 | `alt` gives a choice exactly when one alternative matched, and a failure moves nothing |
| CombinatorSpec.Repetitions | compiler/parser/parser.py:308-328 | every round read has one value per element; no rounds and no exception leave the cursor where it was |
| CombinatorSpec.MoreOf | compiler/parser/parser.py:298-368 | `more` and `opt_more` never end before their start, and a failure moves nothing |
| CombinatorSpec.OptOf | compiler/parser/parser.py:370-397 | `opt` never fails |
| CombinatorSpec.After | compiler/parser/parser.py:232-248 | the elements from the middle: the values and calls already made, then the rest's |
| CombinatorSpec.AfterStep | compiler/parser/parser.py:232-248 | moving one matched element from the rest to what is already read changes nothing |
| CombinatorSpec.Later | compiler/parser/parser.py:269-287 | the alternatives from the middle: the calls already made, then the rest's, with the choice shifted |
| CombinatorSpec.LaterStep | compiler/parser/parser.py:269-287 | moving one failed alternative to what is already tried changes nothing |
| CombinatorSpec.Again | compiler/parser/parser.py:308-328 | the rounds from the middle: the values and calls already made, then the rest's |
| CombinatorSpec.AgainStep | compiler/parser/parser.py:308-328 | moving one round to what is already read changes nothing |
| CombinatorSpec.RepetitionsNext | compiler/parser/parser.py:308-328 | a round that matched and moved joins the rounds read |
| CombinatorSpec.RepetitionsLast | compiler/parser/parser.py:308-328 | a round that failed, raised or did not move ends the rounds, with the matching exception |
| CombinatorSpec.ElementsNext | compiler/parser/parser.py:232-248 | a matched element joins the values read |
| CombinatorSpec.ElementsStop | compiler/parser/parser.py:232-248 | an element that did not match ends `p` with its outcome |
| CombinatorSpec.ElementsDone | compiler/parser/parser.py:248-256 | with every element read, `p`'s value is the list read |
| CombinatorSpec.AlternativesNext | compiler/parser/parser.py:269-287 | a failed alternative passes on to the next, keeping its calls |
| CombinatorSpec.AlternativesStop | compiler/parser/parser.py:269-287 | an alternative that matched or raised is `alt`'s outcome |
| CombinatorSpec.AlternativesDone | compiler/parser/parser.py:289-296 | no alternative left: `alt` fails and moves nothing |
| CombinatorLaws.ElementsOfChain | compiler/parser/parser.py:232-248 | elements that match one after the other make the elements match with their values |
| CombinatorLaws.ChainOfElements | compiler/parser/parser.py:232-248 | when the elements match, they matched one after the other |
| CombinatorLaws.SeqOfMatches | compiler/parser/parser.py:222-257 | `p` matches exactly when its elements match one after the other; its value is their list and it stops after the last |
| CombinatorLaws.AlternativesFail | compiler/parser/parser.py:269-287 | the alternatives fail exactly when each of them fails |
| CombinatorLaws.AlternativesFirst | compiler/parser/parser.py:269-287 | otherwise the outcome is that of the first alternative that does not fail, all before it failed, and the choice is its index |
| CombinatorLaws.AltOfFails | compiler/parser/parser.py:259-296 | `alt` fails exactly when every alternative fails |
| CombinatorLaws.AltOfFirst | compiler/parser/parser.py:259-296 | otherwise `alt` answers for its first alternative that does not fail, and its choice is that one |
| CombinatorLaws.MoreOfFirstRound | compiler/parser/parser.py:298-368 | `more` fails, and `opt_more` gives `Null()`, exactly when the first round fails; a list starts with the first round's value |
| CombinatorLaws.OptOfNull | compiler/parser/parser.py:370-397 | `opt` gives `Null()` exactly when its sequence fails, and otherwise what the sequence gave |
| Parsing.KeepsTrans | compiler/parser/parser.py:193-206 | keeping the cache's non-empty maps is transitive |
| Parsing.StoreFreshOk | compiler/parser/parser.py:197-198 | storing a fresh one-entry map for a right entry keeps every entry right |
| Parsing.StoreAddOk | compiler/parser/parser.py:199-204 | adding a right entry to an existing map keeps every entry right |
| Parsing.Parser.constructor | compiler/parser/parser.py:76-84 | the cursor before the first token, row 0 and column -1, an empty cache, and a checkpoint at that state |
| Parsing.Parser.Revert | compiler/parser/parser.py:104-111 | sets the cursor and the line information |
| Parsing.Parser.EatToken | compiler/parser/parser.py:113-128 | advances by one token and returns it with its index when there is one; otherwise changes nothing |
| Parsing.Parser.ConsumeString | compiler/parser/parser.py:130-146 | returns the index exactly when the next token's text is the string, having moved to it; otherwise changes nothing |
| Parsing.Parser.Consume | compiler/parser/parser.py:210-220 | result and new cursor are those of `LiteralMemo` |
| Parsing.Parser.RegisterRevert | compiler/parser/parser.py:399-404 | the checkpoint becomes the current state |
| Parsing.Parser.Revertable | compiler/parser/parser.py:406-420 | returns the condition; on false, back to the checkpoint; on true, the checkpoint moves to the current state |
| Parsing.Parser.Apply | compiler/parser/parser.py:148-208 | returns `Grammar.Parse`'s outcome and cursor; a match is a tree of the rule's kind; a no-match restores row and column; a result that is not an exception is cached at the start as `Grammar.Body` computes it; a cache hit leaves cache, checkpoint and line information alone |
| Parsing.Parser.Call | compiler/parser/parser.py:148-167 | returns `Grammar.Parse`'s outcome and cursor, and a no-match restores row and column |
| Parsing.Parser.Memoized | compiler/parser/parser.py:169-208 | returns `Grammar.Body`'s outcome and cursor; a hit leaves the cache alone; a miss stores the outcome once; a new cursor key holds only this rule |
| Parsing.Parser.Fill | compiler/parser/parser.py:193-206 | runs the body, returns `Grammar.Body`'s outcome and cursor, and stores them unless it raised |
| Parsing.Parser.Store | compiler/parser/parser.py:197-204 | writes the one entry, keeps the cache invariant and every map; a position without a map gets a one-entry map |
| Parsing.Parser.RunBody | compiler/parser/parser.py:423-1549 | returns `Grammar.Body`'s outcome and cursor for every rule |
| Parsing.Parser.RunRule | compiler/parser/parser.py:528-1574 | returns `Grammar.Body`'s outcome and cursor for every rule but the token and left-associative ones |
| Parsing.Parser.RunListRule | compiler/parser/parser.py:925-1574 | returns `Grammar.Body`'s outcome and cursor for the comma lists, `subscript_index`, `atom` and `argument` |
| Parsing.Parser.RunCommaRule | compiler/parser/parser.py:925-1574 | returns `Grammar.Body`'s outcome and cursor for `exprs`, `rest_exprs`, `identifiers` and `arguments` |
| Parsing.Parser.SubscriptBody | compiler/parser/parser.py:1389-1410 | returns `Grammar.ParseSubscript`'s outcome and cursor |
| Parsing.Parser.RunLiteral | compiler/parser/parser.py:423-524 | a token rule returns `Grammar.Body`'s outcome and cursor, that is `consume`'s |
| Parsing.Parser.MatchOperator | compiler/parser/parser.py:593-602 | returns `Grammar.MatchOp`'s operator words and cursor; without an operator, row and column stay |
| Parsing.Parser.Fold | compiler/parser/parser.py:580-614 | returns `Grammar.ParseFold`'s outcome and cursor |
| Parsing.Parser.FoldLoop | compiler/parser/parser.py:589-612 | the loop returns the fold of the steps `Grammar.FoldSteps` reads, and stops where it stops |
| Parsing.Parser.FoldMore | compiler/parser/parser.py:604-612 | one round returns the step `Grammar.NextStep` reads, and stops where it stops |
| Parsing.Parser.PowerBody | compiler/parser/parser.py:528-552 | returns `Grammar.ParsePower`'s outcome and cursor |
| Parsing.Parser.UnaryBody | compiler/parser/parser.py:556-578 | returns `Grammar.ParseUnary`'s outcome and cursor |
| Parsing.Parser.Signs | compiler/parser/parser.py:561-568 | collects one operator per sign in the row, in the order written, and stops after the last |
| Parsing.ApplyPrefixes | compiler/parser/parser.py:575-576 | the closing loop builds exactly `Prefixed(signs, base)` |
| Parsing.Parser.NotTestBody | compiler/parser/parser.py:698-711 | returns `Grammar.ParseNotTest`'s outcome and cursor |
| Parsing.Parser.TestBody | compiler/parser/parser.py:733-749 | returns `Grammar.ParseTest`'s outcome and cursor |
| Parsing.Parser.TryStep | compiler/parser/parser.py:937-941 | returns `Grammar.Round`'s outcome and cursor, going back to its own start on failure; the checkpoint is then the current state |
| Parsing.Parser.TryStepAsWritten | compiler/parser/parser.py:937-941 | as written: the outcome of `Grammar.Round`, but a failure goes to `mark`, the checkpoint the item's rule left |
| Parsing.Parser.RunList | compiler/parser/parser.py:936-942 | returns `Grammar.Rounds`'s items, outcome and cursor |
| Parsing.Parser.CommaTail | compiler/parser/parser.py:936-944 | the rounds' items, then an optional trailing comma |
| Parsing.Parser.CommaList | compiler/parser/parser.py:925-946 | returns `Grammar.ParseCommaList`'s outcome and cursor |
| Parsing.Parser.LambdaParamBody | compiler/parser/parser.py:753-771 | returns `Grammar.ParseLambdaParam`'s outcome and cursor |
| Parsing.Parser.LambdaParamsBody | compiler/parser/parser.py:775-890 | returns `Grammar.ParseLambdaParams`'s outcome and cursor |
| Parsing.Parser.ParamsInParens | compiler/parser/parser.py:789-795 | returns `Grammar.ParseParamsInParens`'s outcome and cursor |
| Parsing.Parser.ParamsPositional | compiler/parser/parser.py:797-852 | returns `Grammar.ParseParamsPositional`'s outcome and cursor; a match leaves the checkpoint at the current state |
| Parsing.Parser.SlashPart | compiler/parser/parser.py:809-821 | returns `Grammar.ParseSlashPart`'s items and cursor |
| Parsing.Parser.ParamsTail | compiler/parser/parser.py:823-848 | returns `Grammar.ParseParamsTail`'s parts and cursor |
| Parsing.Parser.NamedRest | compiler/parser/parser.py:841-848 | returns the optional `**` parameter of `Grammar.Round` |
| Parsing.Parser.ParamsStarred | compiler/parser/parser.py:854-880 | returns `Grammar.ParseParamsStarred`'s outcome and cursor |
| Parsing.Parser.ParamsDoubleStarred | compiler/parser/parser.py:882-888 | returns `Grammar.ParseParamsDoubleStarred`'s outcome and cursor |
| Parsing.Parser.LambdaExprDefBody | compiler/parser/parser.py:894-909 | returns `Grammar.ParseLambdaExprDef`'s outcome and cursor |
| Parsing.Parser.EitherBody | compiler/parser/parser.py:912-922 | returns `Grammar.ParseEither`'s outcome and cursor |
| Parsing.Parser.LambdaBlockDefBody | compiler/parser/parser.py:1001-1024 | returns `Grammar.ParseLambdaBlockDef`'s outcome and cursor |
| Parsing.Parser.ExprRun | compiler/parser/parser.py:1015-1017 | returns `Grammar.Repeated`'s values of `expr` and cursor |
| Parsing.Parser.RestBody | compiler/parser/parser.py:950-972 | returns `Grammar.ParseRest`'s outcome and cursor |
| Parsing.Parser.ReadRestMark | compiler/parser/parser.py:955-960 | returns the mark `RestMarkAt` reads, with the cursor at `Grammar.RestMarkEnd` |
| Parsing.Parser.SubscriptIndexBody | compiler/parser/parser.py:1354-1385 | returns `Grammar.ParseSubscriptIndex`'s outcome and cursor |
| Parsing.Parser.Slice | compiler/parser/parser.py:1363-1378 | returns `Grammar.ParseSlice`'s outcome and cursor |
| Parsing.Parser.AtomBody | compiler/parser/parser.py:1414-1498 | returns `Grammar.ParseAtom`'s outcome and cursor, which ends in the `Unmodelled` abort when `(` comes next |
| Parsing.Parser.Strings | compiler/parser/parser.py:1472-1478 | returns `Grammar.ParseStrings`'s outcome and cursor (corrected loop); a no-match keeps row and column |
| Parsing.Parser.StringRun | compiler/parser/parser.py:1475-1476 | returns `Grammar.Repeated`'s string leaves and cursor |
| Parsing.Parser.Keyword | compiler/parser/parser.py:1480-1491 | returns `Grammar.ParseKeyword`'s outcome and cursor; a no-match keeps row and column |
| Parsing.Parser.ArgumentBody | compiler/parser/parser.py:1527-1549 | returns `Grammar.ParseArgument`'s outcome and cursor |
| Parsing.Parser.KeywordArgument | compiler/parser/parser.py:1537-1542 | returns `Grammar.ParseKeywordArgument`'s outcome and cursor |
| Parsing.Parser.RunElement | compiler/parser/parser.py:222-397 | returns `CombinatorSpec.Element`'s outcome, cursor and callback calls; a failure keeps row and column |
| Parsing.Parser.ReadElements | compiler/parser/parser.py:232-248 | the loop of `p` returns `CombinatorSpec.Elements`'s outcome, cursor and callback calls |
| Parsing.Parser.Sequence | compiler/parser/parser.py:222-257 | returns `CombinatorSpec.SeqOf`'s outcome, cursor and callback calls; a failure keeps row and column |
| Parsing.Parser.Choice | compiler/parser/parser.py:259-296 | returns `CombinatorSpec.AltOf`'s outcome, choice, cursor and callback calls; a failure keeps row and column |
| Parsing.Parser.Repeat | compiler/parser/parser.py:298-368 | returns `CombinatorSpec.MoreOf`'s outcome, cursor and callback calls; a failure or `Null()` keeps row and column |
| Parsing.Parser.Optional | compiler/parser/parser.py:370-397 | returns `CombinatorSpec.OptOf`'s outcome, cursor and callback calls; `Null()` keeps row and column |
| CheckpointTrace.NoOperator | compiler/parser/parser.py:593-602 | when no operator word comes next, the operator loop finds nothing and moves nothing |
| CheckpointTrace.NoFoldOperator | compiler/parser/parser.py:593-602 | a next token that is no operator word of any rule means no operator of a left-associative rule follows |
| CheckpointTrace.FoldThrough | compiler/parser/parser.py:580-614 | a left-associative rule whose operand is not followed by an operator gives its operand's outcome |
| CheckpointTrace.NotTestThrough | compiler/parser/parser.py:698-711 | without a leading `not`, `not_test` gives the outcome of `comparison` |
| CheckpointTrace.TestStep | compiler/parser/parser.py:733-749 | without a following `if`, `test` gives the outcome of `or_test` |
| CheckpointTrace.TestThrough | compiler/parser/parser.py:556-749 | from `unary_expr` up to `test`, each rule gives the outcome of the one below when no operator, `not` or `if` follows |
| CheckpointTrace.Integers | compiler/parser/parser.py:423-524 | on `1 , lambda x`, `integer` matches `1`, and fails at `,` and at `lambda` |
| CheckpointTrace.Powers | compiler/parser/parser.py:528-552 | on the trace, `power_expr` reads `1` alone and fails at `lambda` |
| CheckpointTrace.UnsignedUnary | compiler/parser/parser.py:556-578 | with no sign next, `unary_expr` gives the outcome of `power_expr` |
| CheckpointTrace.Unaries | compiler/parser/parser.py:556-578 | on the trace, `unary_expr` reads `1` alone and fails at `lambda` |
| CheckpointTrace.Tests | compiler/parser/parser.py:733-749 | on `1 , lambda x`, `test` reads `1` alone and fails at `lambda` |
| CheckpointTrace.ParamX | compiler/parser/parser.py:753-771 | on the trace, `lambda_param` matches `x` with no default and stops at cursor 3 |
| CheckpointTrace.NothingAfterX | compiler/parser/parser.py:799-848 | after `x` the input ends: no more parameters, no `/` part and no rest parts |
| CheckpointTrace.ParamsMatchX | compiler/parser/parser.py:797-852 | on `1 , lambda x`, `lambda_params` matches `x` through its positional alternative and stops at cursor 3 |
| CheckpointTrace.LambdaDefFails | compiler/parser/parser.py:894-909 | `lambda_expr_def` reads `lambda x`, finds no `:` and fails, its body having moved to cursor 3 |
| CheckpointTrace.ExprFailsAtLambda | compiler/parser/parser.py:912-922 | `expr` fails after the comma |
| CheckpointTrace.RoundGoesBack | compiler/parser/parser.py:936-942 | the intended round `, expr` after `1` fails and goes back to cursor 0 |
| CheckpointTrace.ExprReadsOne | compiler/parser/parser.py:912-922 | on the trace, `expr` reads `1` alone |
| CheckpointTrace.ExprsOnTrace | compiler/parser/parser.py:925-946 | `exprs` as intended gives `[1]` and stops after the trailing comma, at cursor 1 |
| CheckpointTrace.RoundAsWritten | compiler/parser/parser.py:937-941 | the round as written reads what `Grammar.Round` reads, but a failure goes to the checkpoint left by the item's rule |
| CheckpointTrace.PositionalCheckpoint | compiler/parser/parser.py:838-845 | the parser run on `x` leaves the checkpoint at cursor 3 after `lambda_params` |
| CheckpointTrace.RoundJumpsAsWritten | compiler/parser/parser.py:936-944 | as written the failed round ends at cursor 3, where no trailing comma follows; as intended it goes back to 0 and the comma takes it to 1 |
| Info.SymbolTable.Put | compiler/semantic/info.py:97-100 | one entry added or replaced, the rest kept |
| Info.Scope.constructor | compiler/semantic/info.py:19-23 | a scope with its name, parent and tables |
| Info.PrimitiveTypes | compiler/semantic/info.py:108-127 | thirteen inheritance lists, each the one primitive type with range (0, 1) |
| Info.PrimitiveNamesDistinct | compiler/semantic/info.py:108-127 | no primitive type name appears twice |
| Info.PreludeSymbols | compiler/semantic/info.py:129-145 | the top scope, with `__main__` as a function in its own typed table, and the `__main__` scope on the shared defaults |
| Info.SemanticInfo.constructor | compiler/semantic/info.py:82-88 | the prelude scopes, the primitive types, an empty path, parent scope 0 |
| Info.SemanticInfo.ExitScope | compiler/semantic/info.py:90-91 | the parent counter goes down by one, unbounded |
| Info.SemanticInfo.AddNewScope | compiler/semantic/info.py:93-94 | one scope appended under the current parent, the others kept |
| Info.SemanticInfo.AddNewSymbol | compiler/semantic/info.py:96-100 | the shared table gets the entry, so it shows in every scope but the top one |
| Info.SemanticInfo.AddNewTopLevelSymbol | compiler/semantic/info.py:102-106 | a typed symbol goes to the top scope's own table only; an untyped one to the shared table |
| Checks.DuplicateMessage | compiler/semantic/checks.py:21 | the message holds the parameter name and the function name at fixed places |
| Checks.DuplicateMessageNames | compiler/semantic/checks.py:21 | both names can be read back from a message |
| Checks.DuplicateMessageInjective | compiler/semantic/checks.py:21 | equal messages with equally long parameter names name the same parameter and function |
| Checks.ParamNameConflict | compiler/semantic/checks.py:9-24 | an error at the parameter's row and column exactly when its name is in the scope's typed or untyped table |
| Checks.SharedConflict | compiler/semantic/checks.py:19-24 | a name in a shared default table conflicts in every scope but the top one |
| TokenExtraction.Indices | compiler/semantic/semantic.py:104-119 | at most two indices, and none for a node that is neither a name, number or string leaf nor an operator |
| TokenExtraction.ExtractedContents | compiler/semantic/semantic.py:104-119 | each index the node refers to maps to its token, and every other key is kept |
| TokenExtraction.ExtractedIdempotent | compiler/semantic/semantic.py:104-119 | visiting a node twice is visiting it once |
| TokenExtraction.AsIndex | compiler/semantic/semantic.py:110-119 | an int is its own index; a value that is neither an int nor a bool is no index |
| TokenExtraction.TokenAt | compiler/semantic/semantic.py:110-119 | Python list indexing: defined exactly from `-len` to `len - 1`, negative indices counting from the end |
| TokenExtraction.ActOnReadable | compiler/semantic/semantic.py:104-119 | on a node whose indices are all token indices, `act` raises nothing and leaves `Extracted` |
| TokenExtraction.ActOnMissingOperator | compiler/semantic/semantic.py:112-113 | an operator whose first word is `None` raises `TypeError` and writes nothing |
| TokenExtraction.ActOnRaises | compiler/semantic/semantic.py:104-119 | `act` raises exactly when an index it reads is no index or lies outside the tokens; an exception on an operator's second word keeps the first word's token |
| TokenExtraction.TokenExtractionVisitor.Copy | compiler/semantic/semantic.py:110-119 | one subscript copy: the entry `CopyToken` writes, or the exception it raises |
| TokenExtraction.TokenExtractionVisitor.Act | compiler/semantic/semantic.py:104-119 | the map and exception are those of `ActOn`; on a readable node the result is true and the map is `Extracted` of the old one |

## Left out

- `Parser.from_code`, the lexer and `get_line_info`: the model starts from a token sequence, and
  the line information is the pair of fields `row` and `column`.
- The parenthesised alternatives of `atom` need `indentable_exprs_or_comprehension`, `yield_expr`
  and `dict_or_set`. Those rules and the comprehension rules are not part of this model, so
  `Parsing.Parser.AtomBody` ends with an `Unmodelled` abort whenever `(` comes next.
- `indentable_exprs` and `rest_indentable_exprs`, and every rule after `arguments`.
- The combinator callbacks are not run: each call is recorded in `fnCalls` instead. A
  combinator's `combinator_data` is not modelled.
- Parsing.Parser.Repeat: a `more` or `opt_more` round that consumes nothing loops forever in
  Python; the model stops with `Raised(EndlessLoop)`.
- Parsing.Parser.NotTestBody and Parsing.Parser.LambdaBlockDefBody: the Python exceptions are
  an `Aborted` outcome, not an exception type.
- Parsing.Parser.TryStepAsWritten: states where a failed round goes through the ghost `mark`;
  the rest of the parser is proved with the corrected `Parsing.Parser.TryStep`, so what the
  as-written checkpoint does to later rules is shown only on the trace in `CheckpointTrace`.
- The parser methods state the checkpoint only where a caller relies on it; where a rule that
  raised leaves the cursor is not stated, as the exception unwinds past every caller.
- `deepcopy` of tokens in `act`: tokens are values here. The debug `print` in `act` is not
  modelled.
- `__repr__` of the parser, the AST nodes and the semantic records.
- `SymbolInfo` and `TypeInfo` keep only the kind, the path, the name and the subtype range;
  their other attributes, and `compiler_opts`, are not modelled.
- `get_prelude_ast` (it does nothing), the other semantic visitors, lowering, code generation
  and the command line are not part of this model.
- The AST classes `FuncExpr` and `With` that the parser uses are not defined in `ast.py`. The
  model gives `FuncExpr` the fields the parser passes it.

## Findings

| source | as written | input that shows it | evidently intended | confidence | as-written member | corrected member |
|---|---|---|---|---|---|---|
| compiler/parser/ast.py:148-149 | `__eq__` compares the attribute dictionaries only, so nodes of different classes with the same attributes are equal | `Integer(0) == Identifier(0)` is true; so is `Null() == NoneLiteral()` | equal nodes have the same class | not executed | AstEquality.PyEqIntegerIdentifier | AstEquality.NodeEqOnLeaves |
| compiler/parser/parser.py:1475 | `while(string := self.string() is not None)` binds the comparison, so `True` is appended instead of the string | two string tokens in a row give `[String(0), True]` | `[String(0), String(1)]` | not executed | ParserSpec.AtomStringsAsWrittenLosesStrings | Parsing.Parser.Strings |
| compiler/parser/parser.py:936-942 | `revert_data` is one field shared by every rule, so a nested rule that calls `register_revert` moves the checkpoint that a failed `revertable` round of the outer list goes back to | `1 , lambda x`: `lambda_params` leaves the checkpoint at cursor 3, `expr` then fails, and the round of `exprs` jumps to 3, so `exprs` gives `[1]` having skipped `, lambda x` | the failed round goes back to its own start, cursor 0, and the trailing comma is consumed (cursor 1) | not executed | CheckpointTrace.RoundJumpsAsWritten | CheckpointTrace.ExprsOnTrace |
