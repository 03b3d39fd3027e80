# Verified models of the unparser, the embedded file layer, the Android log and reference counts

This project models four parts of the repository in Dafny and proves what they are
for, over all inputs and, where they have state, over all runs.

- **The unparser** (`Lib/_ast_unparse.py`). `PyAst`, `PatternText` and `StmtText` define
  the trees; every expression and pattern node has an identity, since the precedence
  dictionary is keyed by it. `ExprText`, `PatternText` and `StmtText` say what tokens a
  tree prints as; `ExprGrammar`, `PatternGrammar` and `StmtGrammar` are a parser written
  from the Python Language Reference, edition 3.13 (chapter 10, with sections 6.17 and
  8.6), naming the operators of each rule itself. The `RoundTrip` modules prove that
  parsing what was printed gives the tree back; `OperandPairs`, by the rules of the
  grammar, which operands get parentheses; `ParsedExprs` and `ParsedStmts`, that every
  tree the parser yields is one of the trees this is proved for. `Unparser` is the visitor class itself, with its text, its
  dictionary, its indentation, its mode flag and its exceptions. Each method is proved
  to do what a script says (`Scripts`, `Visits`), whatever the dictionary holds;
  `VisitsText` and `StmtVisitsText` prove what the scripts write when every node gets
  the parentheses its context asks, or more, `Faithful` and `Sharing` when it does, and
  `Unparse` puts all of it together. Since the texts of the `RoundTrip` modules may have
  further pairs of parentheses, marked in a copy of the tree by the identity `PAIRED`,
  they cover what a dictionary adds. `Docstring` does the same for docstring literals,
  character by character (section 2.4.1).
- **The embedded virtual file layer** (`Embedded/mp_embed.c`). `FdRegistry` is the table
  of descriptors shared by threads, as a state machine whose steps are single accesses
  to memory and calls of the kernel, with open, close, lookups and every way of
  duplicating half done in any number of threads; `FdOutcomes` says what each call has
  done when it returns, and that it needs a bounded number of steps. `Descriptors` and
  `FdTable` are open, close, dup, dup2 and F_DUPFD with every failure. `EmbedStream` and `EmbedFile` are a
  stream and its pushback, patched into the shared buffer, and the calls that read it.
  `Mappings` and `MappingTable` are file mappings and their views. `Paths` and `PathOps`
  resolve paths, `EmbedLookup` finds entries, `DirListing` lists directories.
- **The Android log** (`Lib/_android_support.py`). `LogStream` is the buffering text
  stream, `Logcat` the rate limiter, over real numbers.
- **Reference counts** (`Include/refcount.h`), in `RefCount`: the 64-bit build with the
  GIL.

Functions that update objects in place are methods of classes here, each proved equal
to a function on values; the properties are then lemmas about those functions.

Some results are that something does not hold, with the condition under which it does:

- A `with` statement whose only item is a non-empty tuple without starred elements and
  without `as` is printed with the tuple in parentheses and read back as several items.
  The unparser's own comment promises an equivalent tree. `ModuleRoundTrip` proves that
  this is the only exception, and `LoneTupleFails` is the smallest instance.
- The parentheses written are not always needed: round a unary exponent (`UnaryExponent`)
  and round the later operands of `and` and `or` (`BoolPairs`).
- Trees that use one node in two places are not always printed faithfully, since the
  precedence dictionary is keyed by node. `UnparseModule` gives the exact condition, on
  the parenthesis decisions of the visits; `SharedYield` is a tree that fails, and
  `SecondVisit` one that fails only when the same unparser visits it again. A text that
  only has further pairs still reads back (`ExtraPairsRead`, with `SharedOperand` as an
  instance), except with one around a key of a mapping pattern (`SharedKey`).
- The comment beside the log stream's chunk size takes four bytes a character for
  granted, but the error handler in use writes a lone surrogate as six
  (`SurrogatesOverflow`), and null bytes are doubled after the payloads have been
  sized (`NullsOverflow`). `MessagesFitExactly`, `MessagesFitIff` and, for any text,
  `TextFitsIff` give the exact conditions.
- The rate bound depends on a clock that never goes back (`ClockSetBack`);
  `RateBoundAnyClock` is what holds for any clock.
- A refused dup2() can lose the target's EFILE when other threads fill the table in the
  meantime: `RefusedDup2Between` for whole calls in between, `FdRegistry.RegistersIff`
  for calls half done. `FdRegistry.Accounted` proves that nothing else is ever lost.
- A name on disk that differs from an embedded one only in case is listed beside it when
  the joined path does not fit the buffer: `CaseTwinListed`.
- A failing reallocation in the middle of a line loses a byte: `GetLine`.

## Model

| member | source | states |
|---|---|---|
| ExprRoundTrip.RoundTrip | Lib/_ast_unparse.py:761-966 | for every expression tree, every precedence its context can ask and any further pairs of parentheses around nodes that do not need them, the printed tokens parse to the same tree and leave exactly what follows; the grammar names the operators of its rules itself, so that a wrong entry in the table of precedences would read back as another tree |
| ExprRoundTrip.RoundTripAt | Lib/_ast_unparse.py:147-156 | the same at any level that is no stricter than the one asked for, so the parentheses put in are always enough |
| ExprRoundTrip.PrimaryRoundTrip | Lib/_ast_unparse.py:918-961 | attributes, calls and subscripts chain to the left: a primary and whatever trailers follow it parse to one tree |
| ExprRoundTrip.GroupRoundTrip | Lib/_ast_unparse.py:141-149 | a parenthesised text is read as the group it is: a tuple, a yield, a walrus or a plain expression, never mistaken for one another |
| ExprRoundTrip.LeftOperand | Lib/_ast_unparse.py:863-879 | a left operand printed at the operator's own level is folded to the left by the parser, so chains of one level need no parentheses |
| ExprRoundTrip.PowerBare | Lib/_ast_unparse.py:863-879 | `**` associates to the right and binds tighter than what may follow it |
| ExprRoundTrip.UnaryExponent | Lib/_ast_unparse.py:863-879 | a unary right operand of `**` is printed in parentheses, since POWER is asked of it and it has FACTOR; the grammar does not need them: without them the text reads as the same tree |
| ExprRoundTrip.BinaryBare | Lib/_ast_unparse.py:863-879 | every other binary operator associates to the left, with the operators that the grammar has in its rule |
| OperandPairs.BinaryPairs | Lib/_ast_unparse.py:831-879 | an operand of a binary operator is in parentheses exactly if the grammar rule that makes it is looser than the operator's, the right one also if it is the same; for `**` the left one also if it is the same and the right one only if it is looser |
| OperandPairs.UnaryPairs | Lib/_ast_unparse.py:812-828 | the operand of a unary operator is in parentheses exactly if its rule is looser |
| OperandPairs.ComparePairs | Lib/_ast_unparse.py:893-900 | every operand of a comparison is in parentheses exactly if it is a comparison or looser |
| OperandPairs.BoolPairs | Lib/_ast_unparse.py:904-916 | the i-th operand of `and` or `or` is in parentheses exactly if its rule is at most i levels tighter than the operator's |
| OperandPairs.IfPairs | Lib/_ast_unparse.py:761-769 | another conditional expression or a lambda is in parentheses as body or test, not after `else` |
| OperandPairs.PrimaryPairs | Lib/_ast_unparse.py:313-335 | what is awaited, yielded or has an attribute taken is in parentheses unless it is an atom or a primary |
| ExprRoundTrip.BoolBare | Lib/_ast_unparse.py:904-916 | `and`/`or` with each operand asked a higher level than the one before reads back as one node with all operands |
| ExprRoundTrip.CompareBare | Lib/_ast_unparse.py:893-900 | a chained comparison keeps all its operators and operands in order |
| ExprRoundTrip.UnaryBare | Lib/_ast_unparse.py:812-828 | `not`, `-`, `+` and `~` bind as their precedences say |
| ExprRoundTrip.IfExpBare | Lib/_ast_unparse.py:761-769 | a conditional expression reads back with test, body and else part in their places |
| ExprRoundTrip.NamedBare | Lib/_ast_unparse.py:234-239 | a walrus with both sides printed as atoms reads back |
| ExprRoundTrip.AwaitBare | Lib/_ast_unparse.py:313-319 | `await` of a primary reads back |
| ExprRoundTrip.YieldBare | Lib/_ast_unparse.py:321-335 | `yield`, `yield v` and `yield from v` read back as themselves |
| ExprRoundTrip.LambdaBare | Lib/_ast_unparse.py:1053-1062 | a lambda reads back with its parameters |
| ExprRoundTrip.ParamsRoundTrip | Lib/_ast_unparse.py:994-1043 | positional-only, positional, star, keyword-only and double-star parameters with their defaults read back as the same `arguments` node |
| ExprRoundTrip.ArgsRoundTrip | Lib/_ast_unparse.py:929-945 | positional, starred, keyword and double-star arguments read back in order |
| ExprRoundTrip.SliceRoundTrip | Lib/_ast_unparse.py:947-961 | a tuple in a subscript loses its parentheses and is still read as that tuple |
| ExprRoundTrip.ItemsRoundTrip | Lib/_ast_unparse.py:74-82 | a one-element tuple is told from its element by the trailing comma |
| PatternRoundTrip.PatternRoundTrip | Lib/_ast_unparse.py:1084-1161 | every pattern, at every level it can be asked and with any further pairs except around keys, parses back under section 8.6 of the Python Language Reference to the same pattern |
| PatternRoundTrip.CasePatternRoundTrip | Lib/_ast_unparse.py:1075-1082 | the pattern of a `case`, up to its guard or colon |
| PatternRoundTrip.MappingRoundTrip | Lib/_ast_unparse.py:1102-1120 | mapping patterns with and without a rest |
| PatternRoundTrip.ClassRoundTrip | Lib/_ast_unparse.py:1122-1143 | class patterns with positional and keyword parts |
| PatternRoundTrip.AlternativesRoundTrip | Lib/_ast_unparse.py:1158-1161 | alternatives joined by the bar |
| PatternRoundTrip.AsRoundTrip | Lib/_ast_unparse.py:1145-1156 | `as` patterns, with parentheses where needed |
| StmtRoundTrip.StmtRoundTrip | Lib/_ast_unparse.py:229-389 | every statement, printed at any indentation and followed by any dedented text, reads back by its indentation to the same statement, but for the one case of `WithRead` |
| StmtRoundTrip.BodyRoundTrip | Lib/_ast_unparse.py:118-130 | a suite one level deeper ends exactly where the indentation falls |
| StmtRoundTrip.IfRoundTrip | Lib/_ast_unparse.py:492-508 | collapsing a nested conditional into `elif` loses nothing: an `elif` chain reads back as the nest of conditionals it came from |
| OperandPairs.ElifText | Lib/_ast_unparse.py:492-508 | an else part that is only another conditional is written as `elif` and the text of that conditional after its own `if`, at the same indentation |
| OperandPairs.StatementPairs | Lib/_ast_unparse.py:229-283 | in a statement on its own a yield goes without parentheses and a walrus or a tuple does not; as a value all of them need them; the target of an assignment may be a bare tuple |
| StmtRoundTrip.TryRoundTrip | Lib/_ast_unparse.py:349-378 | handlers, `else` and `finally` come back in place, and every handler with the kind of its own `try` |
| StmtRoundTrip.HandlersRoundTrip | Lib/_ast_unparse.py:380-389 | no handler is dropped, and all are `except` or all `except*` |
| StmtRoundTrip.ForRoundTrip | Lib/_ast_unparse.py:479-490 | a loop target that is a bare tuple is read as a target up to `in` |
| StmtRoundTrip.MatchRoundTrip | Lib/_ast_unparse.py:981-986 | the cases of a `match` statement |
| HeaderRoundTrip.AssignedRoundTrip | Lib/_ast_unparse.py:253-261 | any chain of assignment targets and the value after them |
| HeaderRoundTrip.StarExprsRoundTrip | Lib/_ast_unparse.py:279-283 | an expression, or a lone starred one, where the grammar says star_expressions |
| WithRoundTrip.WithRead | Lib/_ast_unparse.py:520-524 | what the text of a `with` statement reads as: the same items, except that a lone plain tuple is read as several items |
| WithRoundTrip.ItemsKept | Lib/_ast_unparse.py:1069-1073 | the items are read back unchanged exactly when they are not a lone non-empty tuple without starred elements and without `as` |
| WithRoundTrip.NotItems | Lib/_ast_unparse.py:520-524 | no other context expression, however it begins, can be taken for a parenthesised list of items |
| ModuleRoundTrip.ModuleRoundTrip | Lib/_ast_unparse.py:189-194 | for every valid module, and any further pairs of parentheses, parsing the text gives an equal tree if and only if no `with` has a lone plain tuple for its context manager |
| ModuleRoundTrip.ReparseIff | Lib/_ast_unparse.py:189-194 | for every text the grammar accepts, unparsing its tree and parsing again gives the same tree if and only if no `with` in it has a lone plain tuple |
| ParsedStmts.ModuleYields | Grammar/python.gram:89-195 | valid trees leave nothing out: whatever text the grammar accepts, its tree is a valid module |
| ParsedExprs.ParseYields | Grammar/python.gram:717-733 | the same for expressions, at every level |
| ModuleRoundTrip.LoneTupleFails | Lib/_ast_unparse.py:520-524 | the smallest module that does not come back: `with (a,): pass` reads as `with a: pass` |
| Unparse.UnparseModule | Lib/_ast_unparse.py:189-211 | for every tree, shared nodes or not: a fresh unparser raises exactly on a `raise` with a cause but no exception and on an integer with more digits than the limit; on a valid tree the text is the text of the tree if and only if every decision on parentheses is the one the precedence asked by its context calls for, which holds whenever no node is asked two precedences or no node is shared; then, and whenever the visits only put further pairs, none of them around a key of a mapping pattern, the text parses to an equal tree if and only if no `with` has a lone plain tuple |
| Unparse.VisitAgain | Lib/_ast_unparse.py:189-194 | one unparser visits one tree three times: the second and third text are always equal; the first and second are if and only if the dictionary left by the first visit decides every parenthesis as the empty one did; all are the text of the tree when no node is asked two precedences; the second reads back under the same condition as the first, for that dictionary |
| Unparse.TextIffFaithful | Lib/_ast_unparse.py:147-156 | the same equivalence for any dictionary a visit may start from |
| Unparse.ExtraPairsRead | Lib/_ast_unparse.py:147-156 | for any dictionary: if no visit leaves out a pair that its context calls for and none puts a needless one around a key of a mapping pattern, the text of a valid module reads as what its own text reads as, and as an equal tree if and only if no `with` has a lone plain tuple |
| SharedTrees.SharedOperand | Lib/_ast_unparse.py:147-156 | `await (-1)` and a `return` of the same node: the second visit puts a pair that is not needed, the text is not the text of the tree, and it reads back |
| SharedTrees.SharedKey | Lib/_ast_unparse.py:1102-1120 | `await (-1)` and the same node as a key of a mapping pattern: the key gets a pair and the text does not parse |
| Erasure.SameImage | Lib/_ast_unparse.py:189-194 | modules that differ in identities only are valid together and read as the same tree |
| Unparse.SharedYield | Lib/_ast_unparse.py:147-156 | visiting a valid tree with one `yield` node in two places: the precedence asked in the first place is still there in the second, and the text does not parse |
| Unparse.SecondVisit | Lib/_ast_unparse.py:189-194 | with the two places in the other order the first visit is faithful, and a second visit of the same tree writes a text that does not parse |
| Unparse.VisitPrints | Lib/_ast_unparse.py:179-187 | if no node occurs twice in an expression and nothing was asked of those inside it, its visit appends its text at the precedence asked of it, raises only for too long an integer, and changes no other entry of the dictionary |
| Unparse.VisitPrintsBody | Lib/_ast_unparse.py:179-187 | the same for the statements of a body at the current indentation, which also raises on what cannot be printed and puts the kind of `try` back even then |
| Faithful.Exactly | Lib/_ast_unparse.py:147-156 | two ways of deciding on parentheses make one text if and only if they agree on every node: no added or missing pair is ever hidden by another |
| Faithful.NeverAlike | Lib/_ast_unparse.py:141-149 | a text in parentheses of its own never begins like an operand that has as many other tokens, one of them outside all parentheses |
| Sharing.OneEachAgrees | Lib/_ast_unparse.py:151-156 | when no context asks two precedences of a node, every decision taken is the one wanted, from any dictionary that has no others either, and the dictionary left behind is again such a one |
| Sharing.UnsharedOneEach | Lib/_ast_unparse.py:151-156 | a tree in which no node is visited twice asks only one precedence of each |
| Sharing.FailsIs | Objects/longobject.c:2043-2140 | a visit raises if and only if it refuses a statement or its text has an integer with more digits than the limit |
| Scripts.DoneIs | Lib/_ast_unparse.py:94-156 | a run appends its text and adds its entries, and puts indentation and kind of `try` back; when it raises, the kind of `try` still is, and the indentation is not lowered |
| VisitsText.ExprMeant | Lib/_ast_unparse.py:761-966 | if whoever decides leaves out no pair that a context wants, the visit of an expression writes, at the precedence its context asks, the text of a copy that differs in marks for the further pairs; of the expression itself, identities aside, if every context decides |
| StmtVisitsText.PatternMeant | Lib/_ast_unparse.py:1084-1161 | the same for patterns |
| StmtVisitsText.BodyMeant | Lib/_ast_unparse.py:229-389 | the same for statements, at any indentation and inside any kind of `try` |
| VisitsShape.BareOpen | Lib/_ast_unparse.py:761-966 | every expression that can be parenthesised writes a token of its own outside its operands |
| StmtVisitsShape.StmtShaped | Lib/_ast_unparse.py:337-347 | the visit of a statement refuses exactly a `raise` with a cause but no exception somewhere in it |
| Unparsing.Unparser.Visit | Lib/_ast_unparse.py:189-194 | for any dictionary and any tree, starts from an empty text and returns the text that running the script of the body leaves |
| Unparsing.Unparser.Traverse | Lib/_ast_unparse.py:179-187 | for any dictionary, leaves the text, the dictionary and the outcome that running the script of its node leaves |
| Unparsing.Unparser.SetPrecedence | Lib/_ast_unparse.py:154-156 | all nodes named, and no others, get the precedence |
| Unparsing.Unparser.RequireParens | Lib/_ast_unparse.py:147-149 | opens a parenthesis exactly when the precedence asked is higher than the node's |
| Unparsing.Unparser.WriteConstant | Lib/_ast_unparse.py:693-703 | writes a constant, or raises and writes nothing if it is too long an integer |
| Unparsing.Unparser.VisitNamedExpr | Lib/_ast_unparse.py:234-239 | for any dictionary, leaves the text, the dictionary and the outcome that running the script of its node leaves |
| Unparsing.Unparser.VisitIfExp | Lib/_ast_unparse.py:761-769 | for any dictionary, leaves the text, the dictionary and the outcome that running the script of its node leaves |
| Unparsing.Unparser.VisitBoolOp | Lib/_ast_unparse.py:904-916 | for any dictionary, leaves the text, the dictionary and the outcome that running the script of its node leaves; each operand is asked a higher level than the one before |
| Unparsing.Unparser.VisitUnaryOp | Lib/_ast_unparse.py:818-828 | for any dictionary, leaves the text, the dictionary and the outcome that running the script of its node leaves |
| Unparsing.Unparser.VisitBinOp | Lib/_ast_unparse.py:831-879 | for any dictionary, leaves the text, the dictionary and the outcome that running the script of its node leaves; whose precedences are those of the grammar, by `RoundTrip` |
| Unparsing.Unparser.VisitCompare | Lib/_ast_unparse.py:893-900 | for any dictionary, leaves the text, the dictionary and the outcome that running the script of its node leaves; left side and comparators are all asked before the first is visited |
| Unparsing.Unparser.VisitAwait | Lib/_ast_unparse.py:313-319 | for any dictionary, leaves the text, the dictionary and the outcome that running the script of its node leaves |
| Unparsing.Unparser.VisitYield | Lib/_ast_unparse.py:321-327 | for any dictionary, leaves the text, the dictionary and the outcome that running the script of its node leaves |
| Unparsing.Unparser.VisitYieldFrom | Lib/_ast_unparse.py:329-335 | for any dictionary, leaves the text, the dictionary and the outcome that running the script of its node leaves |
| Unparsing.Unparser.VisitTuple | Lib/_ast_unparse.py:802-808 | for any dictionary, leaves the text, the dictionary and the outcome that running the script of its node leaves |
| Unparsing.Unparser.VisitList | Lib/_ast_unparse.py:717-719 | for any dictionary, leaves the text, the dictionary and the outcome that running the script of its node leaves |
| Unparsing.Unparser.VisitAttribute | Lib/_ast_unparse.py:918-927 | for any dictionary, leaves the text, the dictionary and the outcome that running the script of its node leaves |
| Unparsing.Unparser.VisitCall | Lib/_ast_unparse.py:929-945 | for any dictionary, leaves the text, the dictionary and the outcome that running the script of its node leaves |
| Unparsing.Unparser.VisitSubscript | Lib/_ast_unparse.py:947-961 | for any dictionary, leaves the text, the dictionary and the outcome that running the script of its node leaves |
| Unparsing.Unparser.VisitStarred | Lib/_ast_unparse.py:963-966 | for any dictionary, leaves the text, the dictionary and the outcome that running the script of its node leaves |
| Unparsing.Unparser.VisitLambda | Lib/_ast_unparse.py:1053-1062 | for any dictionary, leaves the text, the dictionary and the outcome that running the script of its node leaves; the parameters go through a buffer of their own and the text before is kept, and an exception leaves the buffer in place |
| Unparsing.Unparser.VisitArguments | Lib/_ast_unparse.py:994-1043 | all parameters, defaults lined up with the last positional ones, even if there are more defaults than parameters |
| Unparsing.Unparser.VisitKeyword | Lib/_ast_unparse.py:1045-1051 | a keyword argument or `**` |
| Unparsing.Unparser.Interleave | Lib/_ast_unparse.py:62-72 | elements with separators between them, in order |
| Unparsing.Unparser.ItemsView | Lib/_ast_unparse.py:74-82 | the same with a comma after a single element |
| Unparsing.Unparser.TraversePattern | Lib/_ast_unparse.py:1084-1161 | for any dictionary, leaves the text, the dictionary and the outcome that running the script of its node leaves |
| Unparsing.Unparser.VisitMatchOr | Lib/_ast_unparse.py:1158-1161 | all alternatives are asked the level above the bar first |
| Unparsing.Unparser.VisitMatchClass | Lib/_ast_unparse.py:1122-1143 | the class as an atom, positional and keyword parts |
| Unparsing.Unparser.VisitMatchMapping | Lib/_ast_unparse.py:1102-1120 | pairs and the rest, with a comma only between them |
| Unparsing.Unparser.VisitMatchAs | Lib/_ast_unparse.py:1145-1156 | wildcard, capture or parenthesised `as` |
| Unparsing.Unparser.TraverseStmt | Lib/_ast_unparse.py:179-187 | for any dictionary, leaves the text, the dictionary and the outcome that running the script of its node leaves |
| Unparsing.Unparser.TraverseBody | Lib/_ast_unparse.py:179-184 | statements in order, up to the first that raises |
| Unparsing.Unparser.Block | Lib/_ast_unparse.py:118-130 | raises the indentation for the body and puts it back, unless the body raises |
| Unparsing.Unparser.Fill | Lib/_ast_unparse.py:94-102 | a new line at the current indentation |
| Unparsing.Unparser.VisitExprStmt | Lib/_ast_unparse.py:229-232 | for any dictionary, leaves the text, the dictionary and the outcome that running the script of its node leaves |
| Unparsing.Unparser.VisitAssign | Lib/_ast_unparse.py:253-261 | for any dictionary, leaves the text, the dictionary and the outcome that running the script of its node leaves |
| Unparsing.Unparser.VisitAugAssign | Lib/_ast_unparse.py:263-267 | for any dictionary, leaves the text, the dictionary and the outcome that running the script of its node leaves |
| Unparsing.Unparser.VisitReturn | Lib/_ast_unparse.py:279-283 | for any dictionary, leaves the text, the dictionary and the outcome that running the script of its node leaves |
| Unparsing.Unparser.VisitRaise | Lib/_ast_unparse.py:337-347 | raises on a cause without an exception, else for any dictionary, leaves the text, the dictionary and the outcome that running the script of its node leaves |
| Unparsing.Unparser.VisitWhile | Lib/_ast_unparse.py:510-518 | for any dictionary, leaves the text, the dictionary and the outcome that running the script of its node leaves |
| Unparsing.Unparser.VisitFor | Lib/_ast_unparse.py:479-490 | for any dictionary, leaves the text, the dictionary and the outcome that running the script of its node leaves |
| Unparsing.Unparser.VisitWith | Lib/_ast_unparse.py:520-524 | for any dictionary, leaves the text, the dictionary and the outcome that running the script of its node leaves |
| Unparsing.Unparser.VisitMatch | Lib/_ast_unparse.py:981-986 | for any dictionary, leaves the text, the dictionary and the outcome that running the script of its node leaves |
| Unparsing.Unparser.VisitCase | Lib/_ast_unparse.py:1075-1082 | for any dictionary, leaves the text, the dictionary and the outcome that running the script of its node leaves |
| Unparsing.Unparser.VisitIf | Lib/_ast_unparse.py:492-508 | the `elif` loop does what the nest of conditionals calls for |
| Unparsing.Unparser.VisitTry | Lib/_ast_unparse.py:364-378 | the kind of the enclosing `try` is put back, even when something inside raises |
| Unparsing.Unparser.DoVisitTry | Lib/_ast_unparse.py:349-362 | body, handlers, `else` and `finally`, each handler with the kind of this `try` |
| Unparsing.Unparser.VisitHandler | Lib/_ast_unparse.py:380-389 | `except` or `except*` by the kind now in force |
| Docstring.DocstringRoundTrip | Lib/_ast_unparse.py:532-574 | for every string and every notion of printable, the literal written closes exactly at its own final triple quotes, whatever follows, and decodes to the string, on the escaping path and on the fallback |
| Docstring.EscapedQuoteIsTriple | Lib/_ast_unparse.py:559-568 | when a final quote must be escaped, the quotes chosen are three long: the internal assertion cannot fail |
| Docstring.FallbackReads | Lib/_ast_unparse.py:547-552 | with both triple quotes in the text, the fallback takes three single quotes, which occur in the text, and escapes every single quote in it, so that the literal still closes at its own end and decodes to the string |
| Docstring.EscapedEnding | Lib/_ast_unparse.py:559-568 | escaping a final quote keeps the literal closed at the right place |
| Docstring.PlainEnding | Lib/_ast_unparse.py:553-568 | a text without the chosen quotes, and not ending in one, closes where it should |
| Docstring.LiteralIsClean | Lib/_ast_unparse.py:538-546 | every character of the literal is printable or a permitted line break or tab |
| Docstring.VerbatimLiteral | Lib/_ast_unparse.py:538-568 | a string without backslashes and control characters but tabs and line feeds is written as it stands, in triple double quotes if it does not contain them or end in one, else in triple single quotes if it does not contain them or end in one; only when neither holds is the last quote escaped |
| Docstring.EscapeIs | Lib/_ast_unparse.py:538-546 | tabs, line feeds and printable characters but the backslash stand as they are; the others are escaped in the shortest form |
| Docstring.HexDigits | Lib/_ast_unparse.py:544-545 | with lower-case hexadecimal digits, the highest first |
| Logcat.RateBoundAnyClock | Lib/_android_support.py:166-192 | for any clock, even one set back, and all i <= j: if the last message slept in full, messages i to j cost at most one bucket, plus the rate times the time from the beginning of i to the sending of j, plus what the resets to zero between them added |
| Logcat.RateBound | Lib/_android_support.py:166-192 | for all i <= j in any run with a clock that never goes back and full sleeps no reset happens, and messages i to j cost at most one bucket plus the rate times the time from the beginning of i to the sending of j |
| Logcat.RateBoundIsTight | Lib/_android_support.py:166-192 | the bound is met exactly by a burst after a quiet moment |
| Logcat.ClockSetBack | Lib/_android_support.py:179-186 | with the clock set back between two messages the bound without resets fails, and the one with resets is met exactly |
| Logcat.Limiter.Write | Lib/_android_support.py:166-192 | one write fills the bucket by a mebibyte per second since the last, from zero at least and up to 128 kibibytes, takes out 28 bytes and those of the tag and of the encoded message, returns the sleep that pays the debt, and hands on priority, tag and message |
| Logcat.Limiter.constructor | Lib/_android_support.py:160-164 | an empty bucket at the time of creation |
| Logcat.WritesBound | Lib/_android_support.py:166-192 | in any run of writes to a new limiter, with a clock that never goes back and full sleeps, messages i to j, with 28 bytes and the tag for each, come to at most 128 kibibytes plus a mebibyte for every second from the beginning of i to the sending of j |
| Logcat.WritesAreEvents | Lib/_android_support.py:166-192 | for any clock, the bucket a write leaves and the sleep it asks are those of the events that the bounds above are about, each costing 28 bytes and those of its tag and message |
| Logcat.PayloadIsSafe | Lib/_android_support.py:167-176 | no null byte and no leading newline reaches the log |
| Logcat.PayloadDecoded | Lib/_android_support.py:167-176 | reading C0 80 as a null byte gives the message back, after a space if it begins with a newline, if and only if it does not contain those two bytes itself |
| LogStream.WriteConserves | Lib/_android_support.py:59-100 | the payloads sent and the bytes pending are, in order, the encoding of everything written |
| LogStream.NewlineEndsPayload | Lib/_android_support.py:72-100 | a newline byte is only ever the last of a payload and never waits in the buffer |
| LogStream.LinesAre | Lib/_android_support.py:67-78 | text is cut into lines after each of the ten characters that end one, but not within a carriage return and line feed, and nowhere else |
| LogStream.ChunksAre | Lib/_android_support.py:74-78 | a line is cut every 1000 characters |
| LogStream.Utf8Read | Lib/_android_support.py:48-53 | the bytes of every character but a lone surrogate have the number and form that UTF-8 asks and make its code point; a lone surrogate is six ASCII characters |
| Logcat.PayloadSize | Lib/_android_support.py:167-176 | a message is longer than its payload by one for every null byte, and one more for a leading newline |
| LogStream.PayloadsFit | Lib/_android_support.py:82-94 | what leaves the text stream stays within the limit if and only if no chunk of a thousand characters encodes to more |
| LogStream.MessagesFitExactly | Lib/_android_support.py:6-18 | what the log is handed stays within the limit if and only if every payload does with its null bytes counted twice, and a leading newline too |
| LogStream.MessagesFitIff | Lib/_android_support.py:6-18 | for text without null characters, messages stay within the limit if and only if no chunk of a thousand characters encodes to more |
| LogStream.TextFitsIff | Lib/_android_support.py:6-18 | for any text, null characters included, any encoding and any state of the stream: messages stay within the limit if and only if those already sent do and no payload that the chunks add up to weighs more, a null byte weighing two and a leading newline one more |
| LogStream.FourBytesFit | Lib/_android_support.py:14-18 | for text without null characters, four bytes a character are enough |
| LogStream.PlainTextFits | Lib/_android_support.py:14-18 | under UTF-8 with backslashreplace, messages of text without null characters and lone surrogates always stay within the limit |
| LogStream.SurrogatesOverflow | Lib/_android_support.py:52-53 | under the same encoding a thousand lone surrogates, six bytes each, go out as one message over the limit |
| LogStream.NullsOverflow | Lib/_android_support.py:167-169 | four thousand null characters leave the stream as one payload within the limit, and become a message of twice the limit |
| LogStream.TextLogStream.Write | Lib/_android_support.py:59-78 | splits at line boundaries, then into chunks, and leaves the state that writing those chunks in turn leaves |
| LogStream.TextLogStream.WriteChunk | Lib/_android_support.py:82-94 | flushes before and after as the size, a final newline and write-through ask |
| LogStream.TextLogStream.Flush | Lib/_android_support.py:96-100 | sends the joined pending bytes, unless there are none, and empties the buffer |
| EmbedStream.UngetPrepends | Embedded/mp_embed.c:408-424 | a successful pushback puts the byte before the unread ones although it patches the shared buffer; it succeeds exactly at or before the end, with no other differing byte pending; a failure changes nothing |
| EmbedStream.FirstPushbackSucceeds | Embedded/mp_embed.c:408-424 | the first pushback at or before the end always succeeds, even before the first byte |
| EmbedStream.SeekRestores | Embedded/mp_embed.c:1131-1150 | a successful seek brings the content back byte for byte and positions in it; a failed one changes nothing |
| EmbedStream.SeekAnswers | Embedded/mp_embed.c:1131-1150 | where a seek of each kind goes, what it refuses, and that asking for the position afterwards gives the same answer; the end-of-file and error flags stay |
| EmbedStream.Shows | Embedded/mp_embed.c:401-424 | the buffer shows the content but for the one patched byte |
| EmbedStream.ReadThenPushBack | Embedded/mp_embed.c:408-424 | reading k bytes and pushing them back in reverse always succeeds and restores the unread bytes |
| EmbedStream.TakeKeeps | Embedded/mp_embed.c:1735-1748 | reading takes a prefix of the unread bytes |
| EmbedFile.EFile.Ungetc | Embedded/mp_embed.c:2295-2311 | pushback on the buffer itself, patched in place, is the pushback above |
| EmbedFile.EFile.UngetRestore | Embedded/mp_embed.c:401-406 | the patched byte is put back |
| EmbedFile.EFile.VirtualSeek | Embedded/mp_embed.c:1131-1150 | the position becomes the offset, or the offset from the end, or from the current position, which within the content is the number of bytes read; a negative target or any other whence is refused and changes nothing; otherwise the target is answered and the buffer restored |
| EmbedFile.EFile.Rewind | Embedded/mp_embed.c:2155-2171 | everything is unread again, as decompressed, and the flags are clear |
| EmbedFile.EFile.Fgetc | Embedded/mp_embed.c:1909-1934 | the first unread byte, or end of file |
| EmbedFile.EFile.Read | Embedded/mp_embed.c:1724-1748 | up to the bytes asked for |
| EmbedFile.EFile.Pread | Embedded/mp_embed.c:1750-1776 | the bytes of the content at the offset, as many as asked for and there, a patched byte showing as it is in the buffer; the position does not move |
| EmbedFile.EFile.Readv | Embedded/mp_embed.c:3830-3856 | fills the buffers with what one read of the sum of their lengths would give, cut at those lengths, stopping after the first short one |
| EmbedFile.EFile.Preadv | Embedded/mp_embed.c:3858-3894 | the same in pieces: what one pread of the sum of the lengths gives, cut at those lengths |
| ByteRuns.PiecesJoin | Embedded/mp_embed.c:3840-3856 | the pieces of a vectored read joined are one read of the sum |
| EmbedFile.EFile.Fread | Embedded/mp_embed.c:1674-1721 | consumes the smaller of what is asked and what is left, and returns the whole items read, even where size times count overflows |
| ByteRuns.OverflowTest | Embedded/mp_embed.c:1703-1703 | the division test finds exactly the products that overflow |
| EmbedFile.EFile.Fgets | Embedded/mp_embed.c:1811-1847 | the longest prefix that size, newline and end of file allow |
| EmbedFile.EFile.GetLine | Embedded/mp_embed.c:1850-1906 | the next line with its newline, in a buffer that doubles until it is longer than the line; when memory for doubling fails, -1, with exactly as many bytes consumed as the buffer holds and all but the last of them stored |
| EmbedFile.EFile.ReadAllLines | Embedded/mp_embed.c:1850-1906 | calling it until it answers -1 yields exactly the lines of what is unread, and leaves nothing |
| ByteRuns.LinesLossless | Embedded/mp_embed.c:1850-1906 | those lines lose nothing, and a newline is only the last byte of a line and ends every line but perhaps the last |
| FdRegistry.StepInv | Embedded/mp_embed.c:540-609 | every single access to shared memory and every kernel call by any thread, in open, close, the wrapped close, lookups, dup, dup2, F_DUPFD and the adoption of a copy, keeps the invariant of the registry |
| FdRegistry.RunInv | Embedded/mp_embed.c:540-609 | so it holds at every moment of every interleaving of any number of threads, with any of these calls half done |
| FdRegistry.RegistrySafety | Embedded/mp_embed.c:540-609 | at every moment occupied slots name open fds, each once, with live objects; a lookup without the lock, by the thread that owns the fd, returns exactly that fd's live object, or nothing if it has none, while other slots change under it |
| FdRegistry.OneLockHolder | Embedded/mp_embed.c:540-609 | at most one thread is between taking and dropping the lock |
| FdRegistry.NotRegistered | Embedded/mp_embed.c:576-582 | a scan past all slots has missed nothing |
| FdRegistry.StepGentle | Embedded/mp_embed.c:540-609 | a step changes slots and map only under the lock and only at fds its thread works on, and destroys only an object its thread alone holds |
| FdRegistry.OthersStand | Embedded/mp_embed.c:540-609 | so no step touches what another thread's scan has already passed for its own fd, or the slot it has claimed |
| FdRegistry.SourceAlive | Embedded/mp_embed.c:2418-2465 | when dup, dup2 or F_DUPFD copies its source, that is still the live object registered for the source fd, whatever other threads did since it was looked up, and the new fd is in no slot yet |
| FdRegistry.RegistersIff | Embedded/mp_embed.c:552-572 | a registration, with any other threads' calls half done around it, succeeds if and only if some slot is free when it takes the lock; the target of a refused dup2() comes back under the same condition |
| FdRegistry.LostIff | Embedded/mp_embed.c:2440-2465 | an object is alive but neither registered nor held by a thread if and only if a refused dup2() found all slots taken when it put it back, and it stays so |
| FdRegistry.Accounted | Embedded/mp_embed.c:2440-2465 | so at every moment of every interleaving the live objects are exactly those registered, those some thread holds, and those given up by such a dup2() |
| FdOutcomes.CallEnds | Embedded/mp_embed.c:2397-2492 | every call, with other threads' calls half done all through it, ends as it should for what the kernel and the allocator answered and whether a slot was free when it took the lock: what it registered, closed, made and destroyed is stated for each |
| FdOutcomes.DupOntoEnds | Embedded/mp_embed.c:2440-2465 | a dup2() that is granted leaves its target with a new live copy of the source if there was memory and a slot, closed and in no slot if there was not, open and plain if the source is plain; refused, it puts back what the target had if a slot was free; the source keeps what it had |
| FdOutcomes.DupEnds | Embedded/mp_embed.c:2430-2438 | the same for dup() and F_DUPFD and the fd they give out |
| FdOutcomes.CloseEnds | Embedded/mp_embed.c:1579-1600 | a close leaves its fd neither open nor in a slot and destroys its object, and nothing else; the wrapped close, which closes before it destroys, has closed and destroyed the same |
| FdOutcomes.OpenEnds | Embedded/mp_embed.c:1086-1122 | an open ends with the file registered and alive if a slot was free when it took the lock, and otherwise with the object destroyed and the fd closed |
| FdOutcomes.DeedsMean | Embedded/mp_embed.c:540-609 | what a thread is said to have closed was, at some step of its own, left neither open nor in any slot; what it destroyed was alive, then dead and in no slot; what it made did not exist |
| FdOutcomes.CallBounded | Embedded/mp_embed.c:540-609 | no call takes more than 1552 steps of its own, however the threads interleave |
| FdOutcomes.NoDeadlock | Embedded/mp_embed.c:540-609 | while any thread is in a call, some thread in a call can take a step |
| Descriptors.Conservation | Embedded/mp_embed.c:2397-2465 | after any run of open, dup, F_DUPFD, dup2 and close with any failures, the live EFILEs are exactly those of the registered fds, none shared, at most 512; every EFILE made is live or destroyed, never both |
| Descriptors.StepKeeps | Embedded/mp_embed.c:2397-2465 | every call keeps that, however it ends |
| Descriptors.RefusedDup2 | Embedded/mp_embed.c:2440-2465 | a dup2() the kernel refuses leaves fds, EFILEs and kernel as they were, if no other call comes between |
| Descriptors.RefusedDup2Between | Embedded/mp_embed.c:2440-2465 | with any calls of other threads between unregistering the target and putting it back, a refused dup2() leaves the target its EFILE, unchanged, if and only if a slot is free at that moment; otherwise the fd stays open without one and the EFILE is alive in no slot |
| Descriptors.LastSlotTaken | Embedded/mp_embed.c:2440-2465 | with a full table, any file opened in between makes that happen |
| Descriptors.DupCopies | Embedded/mp_embed.c:2397-2465 | a successful duplicate has an EFILE of its own, a copy of the source, which is left as it was |
| Descriptors.CopyReads | Embedded/mp_embed.c:2394-2416 | the copy reads the same bytes exactly when no pushed-back byte waits in the source, and then stands at the same offset |
| Descriptors.Independent | Embedded/mp_embed.c:2394-2416 | moving one descriptor does not move another |
| Descriptors.FailedCopyClosesTarget | Embedded/mp_embed.c:2418-2428 | when copying fails after the kernel's dup2() succeeded, the target is closed and its old EFILE gone |
| Descriptors.OpenDoes | Embedded/mp_embed.c:1086-1122 | when an open succeeds, and that the fd then has a new EFILE with the whole content unread, while a failed one leaves no fd and no EFILE |
| Descriptors.CloseDoes | Embedded/mp_embed.c:1579-1593 | a close leaves its fd neither open nor in the table, its EFILE destroyed, and every other fd as it was |
| Descriptors.DupDoes | Embedded/mp_embed.c:2430-2438 | when dup() succeeds on a plain and on a virtual fd, and the table, the EFILEs and the open fds it leaves |
| Descriptors.DupOntoDoes | Embedded/mp_embed.c:2440-2465 | the same for dup2(): refused, onto itself, from a plain source, copied, or closed because the copy failed |
| FdTable.DescriptorTable.OpenVirtual | Embedded/mp_embed.c:1086-1122 | opening, with each of its failures undone: an EFILE that cannot be filled, opened or registered is destroyed again |
| FdTable.DescriptorTable.CloseFd | Embedded/mp_embed.c:1579-1593 | unregisters, destroys, then closes |
| FdTable.DescriptorTable.DupFd | Embedded/mp_embed.c:2430-2438 | dup() |
| FdTable.DescriptorTable.FcntlDupFd | Embedded/mp_embed.c:2480-2492 | F_DUPFD, which looks the fd up afterwards, does the same as dup() |
| FdTable.DescriptorTable.DupFdOnto | Embedded/mp_embed.c:2440-2465 | dup2() over the table of slots |
| FdTable.DescriptorTable.Adopt | Embedded/mp_embed.c:2418-2428 | registers a copy or closes the new fd |
| FdTable.DescriptorTable.Register | Embedded/mp_embed.c:540-574 | takes the first free slot; fails exactly when all 512 are taken |
| FdTable.DescriptorTable.Lookup | Embedded/mp_embed.c:576-582 | the fd's object if it has one; never a free slot for a negative fd |
| FdTable.DescriptorTable.Unregister | Embedded/mp_embed.c:584-609 | takes exactly that fd out |
| FdTable.TableSize | Embedded/mp_embed.c:544-574 | a slot is free exactly while fewer than 512 fds are registered |
| Mappings.Lifetime | Embedded/mp_embed.c:3448-3594 | at every moment of every run a mapping's data is there exactly while its handle is open or a view remains, its counter is the number of its views, and all other allocations were freed once |
| Mappings.FreedAtLastUse | Embedded/mp_embed.c:3571-3592 | a call frees a mapping exactly when it takes away its last use |
| Mappings.LiveWhileInUse | Embedded/mp_embed.c:3519-3592 | the same for any state that satisfies the invariant, repeated views at one address counted each |
| Mappings.StepKeeps | Embedded/mp_embed.c:3448-3594 | every call keeps the invariant |
| Mappings.MappedCanBeUnmapped | Embedded/mp_embed.c:3519-3592 | what a map call answered can always be unmapped, which takes back exactly one view |
| MappingTable.MappingTable.CreateFileMapping | Embedded/mp_embed.c:3448-3517 | a mapping is made exactly if no write is asked, the file is not empty, the size asked is within it, memory and content can be had and one of 512 handles is free; it takes one free place and is open without views; otherwise tables and heap are as before |
| MappingTable.MappingTable.MapViewOfFile | Embedded/mp_embed.c:3519-3569 | a view is given exactly of an open handle, without write access, at an offset below the size and if a place is free: it is that offset of that mapping, one free place now holds it, and the counter is one higher; a handle that is not open is foreign, and otherwise nothing changes |
| MappingTable.MappingTable.UnmapViewOfFile | Embedded/mp_embed.c:3571-3594 | taken back exactly if it is a view given before: one place that held it is free and the counter one lower, the data going with the last view of a closed mapping; otherwise foreign and nothing changed |
| MappingTable.MappingTable.CloseMapping | Embedded/mp_embed.c:2705-2731 | a handle is closed exactly if it is open: its place is free, and the data goes unless a view remains; otherwise foreign and nothing changed |
| Paths.NormIdempotent | Embedded/mp_embed.c:620-660 | normalising twice is normalising once |
| Paths.NormAppend | Embedded/mp_embed.c:620-660 | a prefix may be normalised before something is appended |
| Paths.NormFits | Embedded/mp_embed.c:620-660 | a path that starts with a slash never gets longer, any other by at most one character |
| Paths.NormSteps | Embedded/mp_embed.c:620-660 | the normal form one component after another: empty components and a single dot change nothing, a name goes below, two dots take it away again, and the root is its own parent |
| Paths.FolderPrefixIs | Embedded/mp_embed.c:990-999 | the folder test holds exactly when the folder's components begin the path's, and leaves the rest of them |
| Paths.LookupsAgree | Embedded/mp_embed.c:1502-1512 | a path from an open virtual directory and the absolute path through any base, with or without an alias of the executable's folder, lead to the same lookup, up to ASCII case, if and only if the folder or its alias begins the absolute path, what follows it is what the virtual path leads to, and that is not the folder itself unless it is the root |
| Paths.JoinAgrees | Embedded/mp_embed.c:1502-1512 | through the folder itself and without an alias: if and only if no prefix leaves the executable's folder and the result is strictly below it, or that folder is the root |
| PathOps.BothLookups | Embedded/mp_embed.c:1001-1017 | the equivalence for what the two calls return: while the absolute path as given has at most 4094 characters, neither is cut |
| Paths.TrailingSlash | Embedded/mp_embed.c:1502-1512 | a final slash in the directory's name makes no difference |
| Paths.FoldAt | Embedded/mp_embed.c:241-254 | a key has small ASCII letters for capitals, slashes for backslashes, and every other character as it is |
| PathOps.NormalizePath | Embedded/mp_embed.c:620-660 | the loop with its stack of segments computes the normal form |
| PathOps.NextToken | Embedded/mp_embed.c:629-647 | the tokens are the non-empty segments between slashes |
| PathOps.JoinVirtual | Embedded/mp_embed.c:1502-1512 | joins, cuts the text where the buffer ends, normalises, and keeps the mark of the executable's folder |
| PathOps.GetVirtualPath | Embedded/mp_embed.c:1001-1017 | the lookup key, cut off where the buffer ends |
| PathOps.LowerInPlace | Embedded/mp_embed.c:250-254 | the key lowered in place |
| EmbedLookup.FindRefinesMap | Embedded/mp_embed.c:206-228 | on a well-formed blob the lookup agrees with the map from stored paths to entries, exactly unless an unstored path has a stored hash |
| EmbedLookup.FindIsSearch | Embedded/mp_embed.c:206-228 | filter, bucket, seed and slot find the unique entry with the hash of the path, or none |
| EmbedLookup.NoFalseNegative | Embedded/mp_embed.c:184-195 | in a filter that has at least the bits that inserting every entry sets, the bits of each entry stay set while others are inserted, so no stored path is turned away |
| EmbedLookup.BuiltSets | Embedded/mp_embed.c:184-195 | inserting the entries one by one sets exactly the bits of their hashes |
| EmbedLookup.PassesExactly | Embedded/mp_embed.c:184-195 | a filter with just those bits passes exactly the hashes all of whose bits some entries set |
| EmbedLookup.HashesDistinct | Embedded/mp_embed.c:217-228 | two entries never have one hash |
| EmbedLookup.SingleEntry | Include/mp_embed.h:451-478 | well-formed blobs exist |
| EmbedLookup.KnownHashes | Embedded/mp_embed.c:131-195 | known values of FNV-1a, of the finaliser and of the bits of the filter |
| EmbedLookup.EmbedFind | Embedded/mp_embed.c:206-228 | the lookup as written, with every index in range |
| EmbedLookup.Hash64 | Embedded/mp_embed.c:131-138 | the FNV-1a loop |
| EmbedLookup.BloomCheck | Embedded/mp_embed.c:184-195 | the filter loop |
| DirListing.VDir.ReadDir | Embedded/mp_embed.c:4019-4047 | the next entry of what is left: embedded children first, then what is on disk and not shadowed |
| DirListing.VDir.ReadAll | Embedded/mp_embed.c:4019-4047 | reading to the end yields the whole listing, each entry once and in order |
| DirListing.VDir.RewindDir | Embedded/mp_embed.c:4068-4076 | rewinding replays the same listing |
| DirListing.ListedOnce | Embedded/mp_embed.c:1174-1183 | a name on disk is listed as often as it is there, or not at all if shadowed |
| DirListing.InOrder | Embedded/mp_embed.c:4019-4047 | both parts of a listing keep the order of what they list |
| DirListing.ChildrenFirst | Embedded/mp_embed.c:4024-4035 | a listing begins with the names of the children in the order they are stored |
| DirListing.CaseTwinListed | Embedded/mp_embed.c:1177-1183 | a name on disk, other than the two dots, that equals an embedded child up to ASCII case is listed beside it if and only if the joined path has 4096 characters or more |
| DirListing.NoCaseTwins | Embedded/mp_embed.c:1177-1183 | so a listed name that equals a child up to ASCII case has a joined path of 4096 characters or more |
| DirListing.FilePartIs | Embedded/mp_embed.c:4032-4035 | the name of a child is what follows the last slash |
| RefCount.ImmortalForever | Include/refcount.h:25-53 | a count of 2^31 or more stays there under any run of Py_INCREF, Py_DECREF and Py_SET_REFCNT, never falls, never passes the larger of its start and 3 * 2^30, and the object is never deallocated |
| RefCount.ImmortalRises | Include/refcount.h:281-288 | each Py_INCREF adds one until 3 * 2^30 is reached, and nothing else moves it |
| RefCount.ToleranceIsExact | Include/refcount.h:25-53 | starting at 3 * 2^30, d decrements and u increments by code that knows nothing of immortality, mixed into any run, keep the object immortal if and only if d <= 2^30 and u < 2^30 |
| RefCount.MortalCounts | Include/refcount.h:411-423 | a count that stays below 2^31 is the number of outstanding references, and the object is deallocated exactly when that is zero |
| RefCount.SetThenCounts | Include/refcount.h:152-172 | setting the count of a mortal object cuts it to 32 bits, makes the object immortal from 2^31 on, and otherwise references are counted from there |
| RefCount.PyObject.PyIncref | Include/refcount.h:281-288 | adds one below 3 * 2^30 |
| RefCount.PyObject.PyDecref | Include/refcount.h:411-423 | takes one from a mortal count, and deallocates at zero |
| RefCount.PyObject.PySetRefcnt | Include/refcount.h:152-172 | sets a mortal count, cut to 32 bits |

## Left out

- f-strings, t-strings, dictionaries, sets, comprehensions, slices with bounds, string, bytes, float, complex and negative constants: further node kinds of the unparser with rules of their own for their text.
- Function and class definitions, decorators, type parameters, imports, annotated assignments, `assert`, `del`, `global`, `nonlocal`, the asynchronous statements, type comments and the interactive mode.
- Spacing and the splitting of text into tokens: the text of expressions and statements is modelled as tokens, a new line with its indentation being one of them, and keywords (`match` and `case` too) as tokens of their own, so that the space before the dot in `3 .real` does not appear.
- Unparse.UnparseModule: the limit on the digits of an integer is fixed during a visit, and parsing such an integer back, which has a limit of its own, is not restricted; of a text that lacks a pair of parentheses which a context calls for, or has a needless one around a key of a mapping pattern, as shared nodes can make it, nothing is said about what it reads as, but for the trees of SharedYield, SecondVisit and SharedKey.
- Unparsing.Unparser.Visit: an exception is modelled as a result passed on by every method, without its type and message.
- ParsedStmts.ModuleYields: the grammar is written from the language reference, for the node kinds covered; `Python/ast.c` and the compiler, which reject some of its trees, are not part of this model; a starred element of a subscript is read at the level of `|`, as in other lists, where the language allows any expression without parentheses.
- Docstring.DocstringRoundTrip: which characters are printable is a parameter, as the Unicode database decides it.
- Logcat.RateBound: seconds are real numbers, so the rounding of floating point does not appear, and the clock is a parameter of each write.
- LogStream.MessagesFitIff: encodings other than UTF-8 are any function from characters to bytes; encoders that keep state between characters are not covered.
- FdRegistry.RegistrySafety: memory is sequentially consistent at the grain of one field, a thread looks up only fds it owns, as the comment in the source asks, and the one-time initialisation has already run; fds changing hands between threads do so only between calls. The target of a dup2() is an fd of the same thread: a number that is not open belongs to no thread, and what another thread's open() makes of it meanwhile is a race of the caller's.
- FdOutcomes.CallBounded: which thread runs next is not modelled, so that a call returns once its thread has been given that many steps; the kernel's close() succeeds.
- Descriptors.Conservation: descriptors of Windows handles, the handle table kept beside the slots, and streams opened over a descriptor are not part of it; the kernel's answers and failing allocations are inputs; here calls of other threads come between the steps of a call only in RefusedDup2Between, as whole calls, and FdRegistry interleaves them step by step, without the contents of the EFILEs.
- EmbedFile.EFile.VirtualSeek: offsets are unbounded integers, so overflow of 64-bit positions does not appear, and decompression is a parameter.
- Mappings.Lifetime: each call is one step, and unmapping the null address is excluded; handles of other kinds, which the calls pass on, answer that they are foreign.
- PathOps.NormalizePath: the text is a value, not a buffer rewritten in place; paths of 4096 characters or more are excluded.
- Paths.LookupsAgree: the names of directories and the path contain no backslash; for paths so long that a buffer cuts them nothing is said of both lookups together; symbolic links, short names and the current directory belong to the operating system.
- EmbedLookup.FindRefinesMap: the generator of the blob is not part of this model; that every entry sits in the slot its hash leads to is a predicate, the filter a builder written here, and the header's byte offsets are replaced by sequences.
- DirListing.VDir.ReadDir: the directory on disk is a fixed sequence of names, and the table of open directories is left out.
- RefCount.ToleranceIsExact: the free-threaded and 32-bit builds and the debug checks are left out.
- Wide-character input, formatted input, memory mapping, metadata calls and the mirrored buffer of the Windows runtime: plumbing over foreign interfaces that would add only easy members.
