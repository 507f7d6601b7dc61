# license-checker-go, modelled in Dafny

This project models the core of license-checker, a command-line tool that
decides whether a project's dependencies use acceptable licenses. It covers
five parts:

- **The license-expression engine** (`boolexpr`). It splits an expression such
  as `MIT || (Apache-2.0 && !GPL-3.0)` at top-level spaces and builds a tree of
  literals, `NOT`, `AND` and `OR`. It then evaluates the tree against a map of
  license decisions. A literal is first read as one of Go's `strconv.ParseBool`
  spellings and only then looked up in the map.
- **The checker** (`checker`). It builds the decision context from an allow
  list and a deny list. It gives the verdict on one license expression and
  turns an unknown variable anywhere inside it into an unknown-license error
  for the whole expression. It files every dependency of a project into the
  allowed, disallowed or unknown bucket of a report.
- **The report** (`checker/report.go`). It is three maps from license to the
  dependencies using it, appended to in place.
- **The phraser** (`phraser`). It is a small state machine that cycles through
  phrase templates. The first phrase is shown once only. Every later cycle is a
  fresh random order of the rest.
- **The configuration** (`config`). It fills defaults into empty fields and
  checks that every required field is set. Its record loop turns already parsed
  license-file records into a decision map.

Modules: `Wrappers` (Option, Result and a three-way `Outcome`), `StrConv`
(`ParseBool`), `BoolExpr`, `Checker`, `Phraser` and `Config`. Each of
`BoolExprExamples`, `SolverExamples`, `CheckerExamples` and `ConfigExamples`
states cases from the package documentation and the repository's tests as lemmas
over the model: every case of the splitter, tree-builder and evaluator tests,
and a selection of the checker and license-file tests.

Modelling decisions:

- **Panics are values.** The tree builder indexes the split parts without
  checking how many there are. It panics for the empty expression, for two bare
  tokens such as `a b`, and for a trailing operator such as `a && `. Each of
  these is the `Panic` alternative of `Outcome`, and every caller propagates it
  unchanged. There is no well-formedness precondition.
- **Wrapped errors are values.** Each `fmt.Errorf(... %w ...)` is an error
  value holding the wrapped cause (`Wrapped`, `ParseLicense`, `SolveLicense`,
  `CheckLicense`). `errors.As` walks down that chain (`AsUnknownVariable`,
  `AsUnknownLicense`).
- **Go map iteration order is a nondeterministic choice.** `ValidateCurrentLicenses`
  takes any dependency not yet visited. Its contract holds for every order.
- **`rand.Shuffle` is any permutation.** The random index of each
  Fisher–Yates step is any index not above the current one.
- **Strings are sequences of characters**, one per byte of the Go string.

A one-part expression goes to the unary builder unstripped
(`src/boolexpr/lexer.go:9-15`), so `(MIT)` is the literal `"(MIT)"`, not the
tree of `MIT`; see `BoolExprExamples.ParenthesisedLiteralIsNotUnwrapped`.

One behaviour of the code is easy to miss. Only the first space after an
operator separates the operands. Any further spaces become part of the
right-hand literal: `MIT &&  Apache-2.0` (two spaces) has the right literal
`" Apache-2.0"`. That literal is not in the context, so the whole expression
is an unknown license (`BoolExpr.ExtraSpaceAfterOperator`,
`CheckerExamples.ExtraSpaceMakesUnknown`).

Chains group to the right except when the rest after the first operator
starts with `(` and ends with `)` without being one single group. The
tree-builder strips the first `(` and the last `)` of the whole rest, so
`a && (x) && (c)` has the single literal `x) && (c` on its right
(`BoolExpr.GroupedOperandsAfterOperator`,
`BoolExprExamples.GroupedMiddleOperand`). A rest that starts with a group but
does not end in `)` is left whole, and `a && (x) && c` is still
`AND(a, AND(x, c))` (`BoolExpr.GroupedMiddleOperandGroupsRight`).

## Model

| member | source | states |
|---|---|---|
| StrConv.ParseBool | src/boolexpr/solver.go:50-53 | Exactly `1 t T TRUE true True` read as true and `0 f F FALSE false False` as false; everything else is a syntax error (matching is case-sensitive). |
| StrConv.NoSpellingOfLength | src/boolexpr/solver.go:50-53 | Text whose length is not 1, 4 or 5 is no boolean spelling and does not parse as one. |
| BoolExpr.NewUnknownVariableError | src/boolexpr/errors.go:13-15 | The error carries exactly the given name and is found by kind with that name. |
| BoolExpr.UnknownVariableMessage | src/boolexpr/errors.go:17-19 | The message is the prefix `unknown variable: ` followed by exactly the name, so the name can be read back. |
| BoolExpr.UnknownVariableSurvivesWrapping | src/checker/checker.go:87-90 | However many `%w` contexts wrap an unknown-variable error, matching by kind still finds it, with its name. |
| BoolExpr.AsUnknownVariable | src/checker/checker.go:87-90 | Matching by kind finds an unknown variable exactly when the chain of wrapped errors ends in one, and gives that variable's name. |
| BoolExpr.RemoveWrappingParentheses | src/boolexpr/lexer.go:57-62 | When the first character is `(` and the last is `)`, the input is the result wrapped in one pair; otherwise the input is returned unchanged. Nothing in between is checked. |
| BoolExpr.RemoveWrappingParenthesesInverse | src/boolexpr/lexer.go:57-62 | Removing the parentheses from `"(" + x + ")"` gives back `x`, for every `x`. |
| BoolExpr.Scan | src/boolexpr/lexer.go:23-52 | The splitter's loop from any state: at most three parts, the parts found so far kept in front, and a pending current part always produces at least one more part. |
| BoolExpr.ScanBounds | src/boolexpr/lexer.go:23-52 | Every part the loop adds is no longer than the current part plus the remaining input, and strictly shorter once two or more parts are added. |
| BoolExpr.ScanFinalToken | src/boolexpr/lexer.go:50-52 | A token left at the end of the input becomes the last part, stripped of one pair of wrapping parentheses. |
| BoolExpr.ScanEndsSecondPart | src/boolexpr/lexer.go:26-34 | With one part found, a top-level space ends the second part and the rest of the input after that one space becomes the third part. |
| BoolExpr.ScanOperatorThenRest | src/boolexpr/lexer.go:26-34 | With one part found, an operator token followed by a space and any rest gives the operator and that rest as the last two parts. |
| BoolExpr.Split | src/boolexpr/lexer.go:18-55 | The splitter returns at most three parts. |
| BoolExpr.SplitBounds | src/boolexpr/lexer.go:18-55 | A split has at most three parts, and with two or more parts each is strictly shorter than the expression, which is why the tree builder terminates. |
| BoolExpr.SplitString | src/boolexpr/lexer.go:18-55 | The loop over the characters, with its part list, current part and parenthesis count, returns exactly `Split(expression)`. |
| BoolExpr.ScanSkipsSpaces | src/boolexpr/lexer.go:25-30 | A run of top-level spaces with no current part adds no part, so runs of spaces never produce empty parts. |
| BoolExpr.SplitSkipsLeadingSpaces | src/boolexpr/lexer.go:25-30 | Leading spaces do not change the split. |
| BoolExpr.SplitSkipsSpacesAfterToken | src/boolexpr/lexer.go:26-30 | After a token, a run of one or more spaces ends the part once, and the split continues on the rest with no empty part in between. |
| BoolExpr.SplitToken | src/boolexpr/lexer.go:50-52 | A single token with no top-level space splits into itself with one pair of wrapping parentheses removed. |
| BoolExpr.SplitTwoTokens | src/boolexpr/lexer.go:26-52 | Two tokens separated by one space split into the two stripped tokens. |
| BoolExpr.SplitJoin | src/boolexpr/lexer.go:31-34 | `a op rest` splits into the stripped `a`, the stripped `op` and the rest verbatim (parentheses aside), whatever the rest contains. |
| BoolExpr.ScanEmpty | src/boolexpr/lexer.go:23-52 | From an empty state the loop finds no part exactly when the remaining input is all spaces. |
| BoolExpr.SplitEmptyIffBlank | src/boolexpr/lexer.go:18-55 | The split is empty if and only if the expression is all spaces (including the empty string). |
| BoolExpr.BuildTree | src/boolexpr/lexer.go:9-15 | No part or two parts panic; a successful tree has `AND` or `OR` at its root exactly when the expression split into three parts. |
| BoolExpr.BuildUnary | src/boolexpr/lexer.go:64-70 | Only `NOT` or a literal comes out, a literal holds the whole text (as `parseLiteral` builds it), and only an expression starting with `!` can fail or panic. |
| BoolExpr.BuildBinary | src/boolexpr/lexer.go:73-104 | Fewer than three parts panic; a tree is `AND` exactly when the operator is `&&` and `OR` exactly when it is `\|\|`; an invalid-operator error names the operator, which is neither. |
| BoolExpr.ParseNegation | src/boolexpr/lexer.go:114-124 | Succeeds, fails or panics exactly as the tree of the rest does; on success `NOT` of that tree, on failure its error wrapped as the left subtree. |
| BoolExpr.New | src/boolexpr/boolexpr.go:32-38 | Succeeds exactly when the tree builder succeeds, with the same tree; fails exactly when it fails, with that error wrapped in the "failed to build decision tree" context. |
| BoolExpr.BuildTreeToken | src/boolexpr/lexer.go:9-15 | A one-part expression goes unstripped to the unary builder: without a leading `!` it is a literal of the whole text; with one, its `NOT` wraps the tree of the remainder, and a failure or panic there is propagated. |
| BoolExpr.LeadingSpacesKeptInLiteral | src/boolexpr/lexer.go:11-12 | Leading spaces before a single token stay in the literal, because the unstripped expression is used. |
| BoolExpr.BuildTreeBinary | src/boolexpr/lexer.go:73-104 | For `a op b` with tokens `a` and `op` and one space before and after the operator, both subtrees are built left then right, a failure of either is wrapped as left or right, `&&` builds `AND`, `\|\|` builds `OR`, and any other operator is an invalid-operator error. |
| BoolExpr.BuildTreeOfNames | src/boolexpr/lexer.go:73-104 | `a && b` and `a \|\| b` over plain names are `AND`/`OR` of the two literals. |
| BoolExpr.ExtraSpaceAfterOperator | src/boolexpr/lexer.go:31-34 | With two spaces after the operator, the right literal keeps the extra space. |
| BoolExpr.RightAssociative | src/boolexpr/lexer.go:31-34 | For tokens `a` and `op` and a non-empty `b` that does not start with `(`, `a op b op' c` builds the same tree as `a op (b op' c)`. |
| BoolExpr.BlankPanics | src/boolexpr/lexer.go:74-76 | A blank expression gives no part and panics. |
| BoolExpr.TwoTokensPanic | src/boolexpr/lexer.go:74-76 | Two bare tokens give two parts and panic. |
| BoolExpr.TrailingOperatorPanics | src/boolexpr/lexer.go:74-76 | A trailing operator leaves an empty third part, whose tree panics. |
| BoolExpr.BuildTreeNegatedName | src/boolexpr/lexer.go:64-67 | `!` before a plain name is `NOT` of that name's literal. |
| BoolExpr.ClosedThenOpenedIsToken | src/boolexpr/lexer.go:23-48 | A word that closes a parenthesis and later reopens one, `x)mid(c`, is one token, because the spaces between are read below depth 0. |
| BoolExpr.GroupedOperandsAfterOperator | src/boolexpr/lexer.go:31-34 | With a group as the middle operand, `a && (x)mid(c)` has the single literal `x)mid(c` on its right, because one `(` and one `)` are stripped from the whole rest. |
| BoolExpr.GroupedRestGroupsRight | src/boolexpr/lexer.go:31-34 | With the rest wrapped once more, `a && ((x) && (c))` is `AND(a, AND(x, c))`. |
| BoolExpr.GroupedMiddleOperandGroupsRight | src/boolexpr/lexer.go:31-34 | A group as the middle operand with a plain last operand leaves the rest unstripped, so `a && (x) && c` is `AND(a, AND(x, c))`. |
| BoolExpr.GroupThenNameIsKept | src/boolexpr/lexer.go:31-34 | The rest `(x) && c` does not end in `)`, so no parenthesis is stripped from it, and it builds `AND(x, c)`. |
| BoolExpr.LiteralValue | src/boolexpr/solver.go:48-65 | A boolean spelling gives its value whatever the context; otherwise a context entry gives its value; it is unresolved exactly when the text is neither. |
| BoolExpr.FirstUnknown | src/boolexpr/solver.go:29-36 | The leftmost literal that resolves to nothing: none exactly when every literal resolves, and otherwise one that does not. |
| BoolExpr.FirstUnknownAppend | src/boolexpr/solver.go:29-36 | The leftmost unresolved literal of two lists joined is the first list's, if it has one, else the second's. |
| BoolExpr.Solve | src/boolexpr/solver.go:8-46 | Every error the evaluator returns is, by kind, an unknown variable naming one of the tree's literals; the "unknown operator" error never occurs. |
| BoolExpr.SolveFailsOnUnknown | src/boolexpr/solver.go:8-46 | Evaluation succeeds exactly when every literal of the tree resolves. On failure the error is, by kind, an unknown variable naming the leftmost unresolved literal, on either side of any operator. |
| BoolExpr.SolveDependsOnlyOnLeaves | src/boolexpr/solver.go:8-65 | Two contexts that agree on the tree's literals give the same result. |
| BoolExpr.SolveStableUnderExtension | src/boolexpr/solver.go:8-65 | Adding decisions to a context never changes a result the evaluator already reached. |
| BoolExprExamples.SplitName | src/boolexpr/lexer_test.go:12 | `a` splits into `a`. |
| BoolExprExamples.SplitPair | src/boolexpr/lexer_test.go:13-14 | `a && b` and `a \|\| b` split into name, operator, name. |
| BoolExprExamples.SplitWrappedPair | src/boolexpr/lexer_test.go:17 | `(a && b)` splits into `a && b`. |
| BoolExprExamples.SplitWrappedName | src/boolexpr/lexer_test.go:18 | `(a) && b` splits into `a`, `&&`, `b`. |
| BoolExprExamples.SplitLeftGroupOf | src/boolexpr/lexer_test.go:20-21 | `(a && b) && c` and `(a \|\| b) && c` split with the left group unwrapped. |
| BoolExprExamples.SplitRightGroupOf | src/boolexpr/lexer_test.go:22-23 | `a && (b && c)` and `a && (b \|\| c)` split with the right group unwrapped. |
| BoolExprExamples.SplitChain | src/boolexpr/lexer_test.go:25 | `a && b && c` splits into `a`, `&&`, `b && c`. |
| BoolExprExamples.SplitNested | src/boolexpr/lexer_test.go:27 | Spaces inside parentheses never split, and one pair is removed from the tail. |
| BoolExprExamples.SplitLeftGroup | src/boolexpr/lexer_test.go:20 | A group on the left is one part, unwrapped. |
| BoolExprExamples.SplitGroup | src/boolexpr/lexer_test.go:16 | `(a)` splits into `a`. |
| BoolExprExamples.BuildLiteralAndNegation | src/boolexpr/lexer_test.go:39-61 | `t` is a literal and `!t` is `NOT` of it. |
| BoolExprExamples.BuildNames | src/boolexpr/lexer_test.go:43-53 | `f` and `SomeVariable` are literals of their text. |
| BoolExprExamples.BuildAnd | src/boolexpr/lexer_test.go:63-73 | `t && f` is `AND` of the two literals. |
| BoolExprExamples.BuildOr | src/boolexpr/lexer_test.go:74-84 | `t \|\| f` is `OR` of the two literals. |
| BoolExprExamples.SplitTrailingGroup | src/boolexpr/lexer_test.go:85-102 | `t && (f \|\| t)` splits with the group unwrapped. |
| BoolExprExamples.BuildNestedGroup | src/boolexpr/lexer_test.go:85-102 | `t && (f \|\| t)` is `AND(t, OR(f, t))`. |
| BoolExprExamples.DoubleSpaceAfterOperator | src/boolexpr/lexer.go:31-34 | `a &&  b` has the right literal `" b"`. |
| BoolExprExamples.GroupedMiddleOperand | src/boolexpr/lexer.go:31-34 | `a && (x) && (c)` has the literal `x) && (c` on its right, while `a && ((x) && (c))` is `AND(a, AND(x, c))`. |
| BoolExprExamples.ParenthesisedLiteralIsNotUnwrapped | src/boolexpr/lexer.go:11-12 | `(MIT)` is the literal `"(MIT)"`, not the tree of `MIT`. |
| BoolExpr.NegatedGroup | src/boolexpr/lexer.go:9-15 | `!` before a parenthesised group is `NOT` of the literal text of the group, parentheses included, whatever the group contains. |
| BoolExprExamples.NegatedGroupIsLiteral | src/boolexpr/lexer.go:114-124 | `!(a && b)` is `NOT` of the literal `"(a && b)"`. |
| BoolExprExamples.EmptyExpressionPanics | src/boolexpr/lexer.go:74-76 | The empty expression panics. |
| BoolExprExamples.TwoBareTokensPanic | src/boolexpr/lexer.go:74-76 | `a b` panics. |
| BoolExprExamples.DanglingOperatorPanics | src/boolexpr/lexer.go:74-76 | `a && ` panics. |
| SolverExamples.SpellingsIgnoreContext | src/boolexpr/solver.go:50-61 | A spelling resolves to its own value even when the context has the same key; any other text resolves through the context. |
| SolverExamples.TruthTables | src/boolexpr/solver_test.go:45-63 | Over `T` and `F`, `&&` and `\|\|` give the full truth tables of conjunction and disjunction. |
| SolverExamples.ChainTree | src/boolexpr/solver_test.go:65-77 | A chain of three spellings groups to the right. |
| SolverExamples.SolveChains | src/boolexpr/solver_test.go:73-74 | `T && T && F` is false and `T && T && T` is true. |
| SolverExamples.SolveLiterals | src/boolexpr/solver_test.go:11-17 | `T` alone is true and `F` alone is false. |
| SolverExamples.SolveVariableNames | src/boolexpr/solver_test.go:19-26 | With A true and B false, `A` is true and `B` is false. |
| SolverExamples.SolveVariablesAnd | src/boolexpr/solver_test.go:19-35 | With A true and B false, `A && B` is false. |
| SolverExamples.SolveVariablesOr | src/boolexpr/solver_test.go:19-35 | With A true and B false, `A \|\| B` is true. |
| SolverExamples.SolveVariablesNot | src/boolexpr/solver_test.go:28-29 | With A true and B false, `!A` is false and `!B` is true. |
| SolverExamples.SolveNot | src/boolexpr/solver_test.go:37-43 | `!T` is false and `!F` is true. |
| SolverExamples.SolveNegatedOperands | src/boolexpr/solver_test.go:67-68 | `T && !F` and `!F && T` are true. |
| SolverExamples.SolveGroupRight | src/boolexpr/solver_test.go:70 | `T \|\| (F && F)` is true. |
| SolverExamples.SolveGroupLeft | src/boolexpr/solver_test.go:71 | `(T \|\| F) && F` is false. |
| SolverExamples.SolveUnknownVariable | src/boolexpr/solver_test.go:92-101 | `A` in an empty context is an unknown-variable error naming `A`, whose message mentions both. |
| SolverExamples.NoShortCircuit | src/boolexpr/solver.go:29-36 | A false left side does not hide an unknown right side: the result is the right side's error. |
| SolverExamples.SplitDocumentedExample | src/boolexpr/boolexpr.go:27-31 | `T && (T \|\| F)` splits into `T`, `&&`, `T \|\| F`. |
| SolverExamples.DocumentedExample | src/boolexpr/boolexpr.go:27-31 | `T && (T \|\| F)` is true in every context. |
| SolverExamples.WrappedExpressionIsUnknown | src/boolexpr/lexer.go:11-12 | `(T && F)` is one literal of its whole text, so it is an unknown variable naming that text. |
| Checker.UnknownLicenseMessage | src/checker/checker.go:17-19 | The message quotes the whole license expression after `unknown license `. |
| Checker.BuildContext | src/checker/checker.go:62-74 | The keys are exactly the licenses of both lists; every disallowed license maps to false, even when it is also allowed; every other allowed license maps to true. |
| Checker.AsUnknownLicense | src/checker/checker.go:87-90 | Matching by kind finds an unknown license exactly when the chain of "failed to check" wrappers ends in one, and gives its expression. |
| Checker.IsLicenseAllowed | src/checker/checker.go:81-96 | An unknown-license failure always names the whole expression; a parse failure is reported as such, wrapping the parser's error; every failure is one of those two, so "failed to solve" never occurs; the verdict panics exactly when parsing panics. |
| Checker.ParsedLicenseVerdict | src/checker/checker.go:87-95 | Once the expression parses, the verdict is an unknown license exactly when some literal is neither a spelling nor in the context; otherwise it is the tree's value, and the "failed to solve" path is never taken. |
| Checker.LicenseNameVerdict | src/checker/checker.go:81-96 | A plain license name is decided as the context says, and is an unknown license when the context has no entry. |
| Checker.JoinedNamesVerdict | src/checker/checker.go:81-96 | Two plain names joined by `&&` or `\|\|` are an unknown license when either is missing, and otherwise the operator over the two decisions. |
| Checker.ExtraSpaceVerdict | src/checker/checker.go:81-96 | Two names joined by an operator with two spaces after it are an unknown license for the whole expression, whatever the context says about the names, unless the context has an entry for the right name with its leading space. |
| Checker.UpdateKeepsOtherVerdicts | src/checker/checker.go:77-79 | Changing the decision for one license leaves the verdict on every expression not mentioning it unchanged. |
| Checker.Appended | src/checker/report.go:19-24 | The list under the key grows by exactly the one item at its end, earlier entries keep their order, and every other key is unchanged. |
| Checker.EntriesAppended | src/checker/report.go:19-24 | Appending adds exactly the one (license, dependency) pair to the bucket's entries. |
| Checker.AppendedWellFormed | src/checker/report.go:19-24 | Appending a pair not yet in a bucket keeps the bucket free of empty lists and duplicates. |
| Checker.FiledGrows | src/checker/checker.go:100-112 | Visiting one more dependency adds exactly its (license, dependency) pair to the bucket its verdict picks and nothing to the others; the pair was not there before. |
| Checker.Report.constructor | src/checker/report.go:3-8 | All three buckets start empty. |
| Checker.Report.RecordDecision | src/checker/report.go:10-16 | An allowed decision is appended to the allowed bucket and a disallowed one to the disallowed bucket; the other buckets are unchanged. |
| Checker.Report.RecordAllowed | src/checker/report.go:19-24 | Appends the dependency under the license in the allowed bucket only. |
| Checker.Report.RecordDisallowed | src/checker/report.go:27-32 | Appends the dependency under the license in the disallowed bucket only. |
| Checker.Report.RecordUnknownLicense | src/checker/report.go:38-43 | Appends the dependency under the license in the unknown bucket only. |
| Checker.Report.HasDisallowedLicenses | src/checker/report.go:34-36 | True exactly when the disallowed bucket has a key. |
| Checker.Report.HasUnknownLicenses | src/checker/report.go:45-47 | True exactly when the unknown bucket has a key. |
| Checker.BucketOf | src/checker/checker.go:106-112 | A verdict is filed exactly when it is a decision or an unknown license, and in the unknown bucket exactly for an unknown license. |
| Checker.FileStep | src/checker/checker.go:100-112 | Filing one more dependency keeps every bucket equal to the set of (license, dependency) pairs its verdicts put there, with no empty list and no duplicate. |
| Checker.LicenseChecker.NewFromMap | src/checker/checker.go:50-54 | The checker uses the given context. |
| Checker.LicenseChecker.NewFromLists | src/checker/checker.go:56-60 | The checker's context is the one the two lists build. |
| Checker.LicenseChecker.Update | src/checker/checker.go:77-79 | Sets the decision for one license and leaves every other key unchanged. |
| Checker.LicenseChecker.ValidateCurrentLicenses | src/checker/checker.go:98-116 | On success a fresh report files every dependency in exactly the bucket its verdict names, under its license string. A failure comes from some dependency whose verdict is an error other than an unknown license, wrapped once more. A panic comes from some dependency whose verdict panics. |
| Checker.SummaryVerdicts | src/checker/report.go:34-47 | For a complete report, "has disallowed licenses" holds exactly when some dependency is decided false, and "has unknown licenses" exactly when some dependency's license is unknown. |
| CheckerExamples.ListsGiveTestContext | src/checker/checker_test.go:12-33 | The test's lists build the map MIT: true, Apache-2.0: true, GPL-3.0: false. |
| CheckerExamples.TestNamesArePlain | src/checker/checker_test.go:12-33 | The test's license names are plain names: non-empty, no space, parenthesis or leading `!`, and no boolean spelling. |
| CheckerExamples.KnownNames | src/checker/checker_test.go:12-33 | `MIT` is allowed and `GPL-3.0` is not. |
| CheckerExamples.KnownConjunction | src/checker/checker_test.go:12-33 | `MIT && Apache-2.0` is allowed. |
| CheckerExamples.KnownDisjunction | src/checker/checker_test.go:12-33 | `MIT \|\| GPL-3.0` is allowed. |
| CheckerExamples.EmptyListsUnknown | src/checker/checker.go:81-96 | With empty lists, every expression that parses and has a literal that is no boolean spelling is an unknown license as a whole. |
| CheckerExamples.OnlyUnknownLicenses | src/checker/checker_test.go:35-43 | With empty lists the test's name `unknown` is an unknown license. |
| CheckerExamples.UnknownNameInExpression | src/checker/checker.go:87-90 | An unknown name inside an expression makes the whole expression the unknown license. |
| CheckerExamples.ExtraSpaceMakesUnknown | src/checker/checker.go:81-96 | `MIT &&  Apache-2.0` is an unknown license, although both names are allowed. |
| CheckerExamples.ParseFailureIsNotUnknown | src/checker/checker.go:82-85 | A parse failure is a failure that is never an unknown license. |
| CheckerExamples.UpdatedNameVerdict | src/checker/checker_test.go:46-65 | After an update, the name is decided the new way. |
| CheckerExamples.TestDependencyBuckets | src/checker/checker_test.go:67-96 | Each test dependency's verdict goes to the bucket the test expects. |
| CheckerExamples.AllTestDependencyBuckets | src/checker/checker_test.go:67-96 | The same, for every test dependency at once. |
| CheckerExamples.FiledWitness | src/checker/checker_test.go:67-96 | Each test dependency is filed under its license in the bucket its license picks. |
| CheckerExamples.AllowedFiledWithin | src/checker/checker_test.go:67-96 | Only the dependencies under MIT and Apache-2.0 are filed as allowed. |
| CheckerExamples.TestAllowedFiled | src/checker/checker_test.go:67-96 | The allowed bucket holds exactly the three MIT and Apache-2.0 dependencies. |
| CheckerExamples.TestDisallowedFiled | src/checker/checker_test.go:67-96 | The disallowed bucket holds exactly the GPL-3.0 dependency. |
| CheckerExamples.TestUnknownFiled | src/checker/checker_test.go:67-96 | The unknown bucket holds exactly the GPL-2.0 dependency. |
| CheckerExamples.ValidationOfTestDependencies | src/checker/checker_test.go:67-96 | A complete report of the test dependencies has MIT and Apache-2.0 allowed, GPL-3.0 disallowed and GPL-2.0 unknown, each with its dependencies. |
| CheckerExamples.ValidateTestDependencies | src/checker/checker_test.go:66-94 | Validating the test dependencies with a checker made from the test's lists succeeds with no error, with MIT and Apache-2.0 allowed, GPL-3.0 disallowed and GPL-2.0 unknown. |
| Phraser.Phraser.New | src/phraser/phraser.go:30-36 | Nothing shown yet: index -1, not shuffled, the phrases as given. |
| Phraser.Phraser.Shuffle | src/phraser/phraser.go:38-54 | With two or more phrases, the phrases become a permutation of the old ones; with fewer, nothing changes. |
| Phraser.Phraser.Get | src/phraser/phraser.go:56-79 | No phrases gives `""` and one phrase gives that phrase, both changing nothing. Otherwise it gives the next phrase in order; at the end of a cycle it drops the first phrase (first time only), reshuffles and gives the first of the new order. The index stays in range, and after the first reshuffle every template is one of the original phrases other than the first. |
| Phraser.FirstCycle | src/phraser/phraser_test.go:16-33 | The first cycle of a new phraser shows every phrase once, in the given order, starting with the first. |
| Phraser.LaterCycles | src/phraser/phraser_test.go:35-61 | Every phrase shown after the first cycle is an original phrase other than the first. |
| Config.Join | src/config/config.go:63-66 | The joined path is never empty and ends with the file name. |
| Config.MessagesDistinct | src/config/config.go:94-102 | The three texts `Validate` lists are pairwise different, so the listed messages say exactly which fields are empty. |
| Config.Violations | src/config/config.go:91-103 | Each required field is listed exactly when it is empty, in check order. |
| Config.Config.Empty | src/config/config.go:30 | Every field starts empty. |
| Config.Config.ApplyDefaults | src/config/config.go:58-76 | Each empty defaulted field gets its default, the script and license file inside the already-defaulted cache directory. A set field is kept, so a second call changes nothing, and afterwards validation passes. |
| Config.Config.Validate | src/config/config.go:91-109 | No error exactly when all three required fields are set; otherwise the error lists every empty one, in check order. |
| Config.ValidWhenSet | src/config/config.go:91-109 | There are no violations exactly when every required field is set. |
| Config.DefaultConfig | src/config/config.go:29-33 | The defaults of an empty configuration, which always pass validation. |
| Config.RecordErrorOf | src/config/config.go:179-187 | A record without exactly two fields is an invalid record with its field count; otherwise a second field that is no boolean spelling is reported. |
| Config.LicenseMapFromRecords | src/config/config.go:177-192 | Succeeds exactly when every record has two fields and a boolean spelling, giving the map of all records. Otherwise it fails with the error of the first bad record. |
| Config.RecordsMap | src/config/config.go:177-190 | Every license some record names is a key of the map (the converse is `Config.RecordsMapKeys`). |
| Config.RecordsMapLastWins | src/config/config.go:189 | The last record naming a license decides it. |
| Config.RecordsMapKeys | src/config/config.go:177-190 | A license is in the map exactly when some record names it. |
| ConfigExamples.ValidRecords | src/config/config_test.go:33-49 | Two good records give both decisions. |
| ConfigExamples.InvalidBoolRecord | src/config/config_test.go:51-61 | A field that is no boolean spelling is rejected, and it is the one reported. |
| ConfigExamples.DuplicateRecords | src/config/config.go:189 | Two records for the same license, true then false, give that license false. |

## Left out

- File and network input and output are not modelled: YAML decoding and encoding, CSV reading and writing, opening and creating files, and HTTP. This leaves out `NewFromFile` and `Write` in the checker, and `LoadConfig`, `Write`, `WriteLicenseMap`, `PersistCuratedListChoice`, `String` and the file part of `ReadLicenseMap` in the configuration. The record loop is modelled over already parsed records.
- The curated lists, the curated license scripts, the file downloader, the terminal UI, the license describer, the environment override and the command-line entry point are outside this model.
- Logging (`slog.Debug`) is not modelled.
- `fmt` formatting is not modelled. Errors are values of their kind with their fields. Only the two messages built from a fixed prefix (unknown variable and unknown license) and the three validation messages (`Config.Message`) are stated as text; the error `Validate` returns holds the list of violations rather than the formatted `validation errors: [...]` string.
- `filepath.Abs`, used when loading the configuration, is not modelled.
- Config.Join: does not model `filepath.Join`'s path cleaning (collapsing `.`, `..` and repeated separators); it states only that the result is non-empty and ends with the file name.
- Phraser.Phraser.Get: returns the chosen template; formatting it with `fmt.Sprintf` and the caller's arguments is not modelled.
- Phraser.Phraser.Shuffle: any permutation may come out; the uniform distribution of `rand.Shuffle` is not modelled.
- Checker.LicenseChecker.ValidateCurrentLicenses: Go visits a map in an unspecified order, so when several dependencies would abort, which one's error is returned is not determined; the contract says only that it comes from one of them.
- Checker.LicenseChecker.NewFromMap: Go shares the caller's map with the checker, so a later `Update` is visible through the caller's map too. The model copies the map as a value and does not model that aliasing.
- A nil map and an empty map behave the same for every operation modelled, so the report's lazily allocated maps start as empty maps.
- The evaluator's "unknown operator" error cannot happen, because every tree the model builds has one of the four operators; the datatype `BoolExpr.Node` has exactly those four alternatives (`Literal`, `Not`, `And`, `Or`), with a raw text only on a literal. For the same reason the checker's "failed to solve" branch, which the model keeps, is never taken.
- Go's `string(byte)` re-encoding of non-ASCII bytes while splitting is not modelled; one character stands for one byte.
- Several tests and call sites use constructor names or signatures that do not match the code (a two-argument `NewFromMap`, `NewLicenseChecker`, `NewConfig`, `WriteLicenseMapToCSV`); the model follows the code.
