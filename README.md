# math-expressions in Dafny

A model of `MathExpression`, the single class of the math-expressions library. The class
turns a text such as `cos(0) + 2 x ^ 2` into a list of parts. The part kinds are numbers,
operators, parenthesised sub-expressions, function calls, variables and commas. `evaluate`
then works out the value, with POWER first, then MULTIPLY and DIVIDE, then ADD and
SUBTRACT.

The model follows the code of `src/main/java/me/comfortable_andy/math/MathExpression.java`:

- `parts.dfy` (module `Parts`): the `Part` kinds with `validNextParts` and `isComplete`, and
  the `OperatorType` table with `valueOfSymbol` and `getByOrder`. It also holds the `Function`
  constructor, which drops empty arguments.
- `parser.dfy` (module `Parser`):
  - `parseSimple` is a loop over the atoms of one segment, carrying the held name and the
    last checked part.
  - `splitComma` is a loop cutting a parts list at its commas.
  - `parse` is a loop over the tokens with a stack of enclosing lists.
  - Each method is proved equal to a function (`SimpleParts`, `Segments`, `Parsed`) that
    states the same step as a fold.
- `parser_properties.dfy` (module `ParserProperties`): parentheses balance, what a closing
  parenthesis does to the enclosing list, and that every Function built has non-empty,
  comma-free arguments.
- `evaluator.dfy` (module `Evaluator`): the grouping loop of `evaluate`, one reduction of
  `pass`, the tier loop, `applyModifiers`, and the `evaluate` of each part kind (variable
  lookup, sub-expressions, function calls). Every one of them takes a `Revision`: `AsWritten`
  is the code as it stands, and `Corrected` repairs the two defects listed under Findings.
  Sub-expressions and arguments are evaluated under the same reading as the expression that
  holds them.
- `grouping.dfy` (module `Grouping`): what the grouping loop collects, stated on the parts
  list (the value of each operand in order, and the run of operators written between each
  pair), and which part makes it throw and with which exception.
- `revisions.dfy` (module `Revisions`): the two readings agree on every parts list with no
  minus sign before the first operand, in the list itself and in every sub-expression and
  argument.
- `expression.dfy` (module `Expressions`): the `MathExpression` object. Its parts list is
  fixed and its variable map is mutable. It has `setVariable`, `removeVariable`, `isValid`,
  `evaluate` and the `parse` factory. The loops of `evaluate`, `pass` and
  `Function.evaluate` are methods proved equal to the functions of `Evaluator`, under either
  reading. The object's `Evaluate` runs them as written.
- `order_of_operations.dfy` (module `OrderOfOperations`): the passes of `evaluate`,
  tier by tier, give the same value as an independent reference evaluation. In that
  reference, the last operator of the loosest tier is the root, and each operand carries the
  signs written before it.
- `evaluation.dfy` (module `Evaluation`): the same result stated on the parts list. It
  evaluates by the order of operations exactly when no two operands are side by side, and
  otherwise fails with an index out of bounds.
- `variables.dfy` (module `Variables`): the lookup order of a variable, and that evaluation
  reads the map only at the names the parts mention.
- `examples.dfy` (module `Examples`): expressions from the unit test and from the edge cases
  of `evaluate`, traced through the model.

Sub-expressions built by `parse` share the variable map of the expression that holds them,
so the model passes one map down to every sub-expression.

Exceptions become error constructors: `ParseError` and `EvalError`. The failure of
`valueOfSymbol` becomes `None`.

Where the library's own description of its behaviour differs from the code, the model
follows the code:

- The atom pattern tries `[A-Za-z0-9]+` first, so `2a` is one name, not `2 * a`.
- There is no implicit MULTIPLY before a parenthesis.
- A Number or a Variable may not be followed by a Comma, so commas are accepted only right
  after a closing parenthesis.
- The name branches of `parseSimple` do not update `last`. Its adjacency check therefore
  holds per step only. Each checked part is compared with `last`, which is the last part that
  passed the check or a held name released just before it. The names and operators appended on
  the implicit-MULTIPLY branches never become `last`, so a checked part may follow a part it
  was never compared with. No property about every pair of neighbouring parts holds of the
  output, and the model states none: Parser.CheckedPath and Parser.ImplicitMultiply state the
  step.
- A closing parenthesis does not check that the inner list is complete.

## Model

| member | source | states |
|---|---|---|
| Parts.Values | src/main/java/me/comfortable_andy/math/MathExpression.java:382-386 | the constants are declared in non-decreasing order of their precedence tier |
| Parts.ValuesComplete | src/main/java/me/comfortable_andy/math/MathExpression.java:382-386 | every operator type is among the declared constants |
| Parts.ValueOfSymbol | src/main/java/me/comfortable_andy/math/MathExpression.java:394-399 | a found operator has the given symbol; nothing is found exactly when no operator has that symbol (the IllegalArgumentException) |
| Parts.SymbolRoundTrip | src/main/java/me/comfortable_andy/math/MathExpression.java:394-399 | looking up an operator's own symbol gives back that operator |
| Parts.OperatorCharacters | src/main/java/me/comfortable_andy/math/MathExpression.java:219-223 | the character class of parseSimple holds the backslash and exactly the symbols valueOfSymbol accepts |
| Parts.GroupByTierMembers | src/main/java/me/comfortable_andy/math/MathExpression.java:401-414 | grouping tier-ordered constants puts an operator in set k exactly when it is listed and has execution index k |
| Parts.GetByOrder | src/main/java/me/comfortable_andy/math/MathExpression.java:401-414 | three tiers, tier k holding exactly the operators of execution index k: {POWER}, {MULTIPLY, DIVIDE}, {ADD, SUBTRACT} |
| Parts.ValidNextParts | src/main/java/me/comfortable_andy/math/MathExpression.java:332-557 | every evaluable part may be followed by an operator; a Variable or Function only by an operator; no part admits a Comma; only a Comma admits a Variable |
| Parts.IsComplete | src/main/java/me/comfortable_andy/math/MathExpression.java:338-557 | a part may end an expression exactly when it is evaluable (not an operator, not a comma) |
| Parts.DropEmptyMembers | src/main/java/me/comfortable_andy/math/MathExpression.java:461 | after removeIf, the kept arguments are exactly the non-empty ones |
| Parts.DropEmptyAppend | src/main/java/me/comfortable_andy/math/MathExpression.java:461 | removing empties distributes over concatenation, so the kept arguments stay in their original order |
| Parts.NewFunction | src/main/java/me/comfortable_andy/math/MathExpression.java:458-462 | the Function keeps its name, and an argument is kept exactly when it was given and is non-empty |
| Parser.Classify | src/main/java/me/comfortable_andy/math/MathExpression.java:237-242 | an atom is read as a Number exactly when it is a numeral; an operator part comes only from its own one-character symbol; a rejected symbol is one character that valueOfSymbol refuses |
| Parser.ParseSimple | src/main/java/me/comfortable_andy/math/MathExpression.java:218-287 | the loop over the atoms, with its held name and last part, computes the fold SimpleParts over the atoms |
| Parser.ParseSimpleKeepsAtoms | src/main/java/me/comfortable_andy/math/MathExpression.java:243-285 | on success, parseSimple keeps every atom in order (names as Variables) and adds nothing but implicit MULTIPLY operators |
| Parser.ParseSimpleFlat | src/main/java/me/comfortable_andy/math/MathExpression.java:218-287 | parseSimple yields only Numbers, Operators, Commas and Variables |
| Parser.CheckedPath | src/main/java/me/comfortable_andy/math/MathExpression.java:263-281 | a held name followed by a number fails; otherwise a non-name atom is accepted exactly when there is no predecessor or its kind is among the predecessor's valid successors, and then it is appended after the released name |
| Parser.ImplicitMultiply | src/main/java/me/comfortable_andy/math/MathExpression.java:243-261 | a name after a held name or after a number is appended behind an implicit MULTIPLY and nothing is held afterwards |
| Parser.Segments | src/main/java/me/comfortable_andy/math/MathExpression.java:289-300 | there is one segment more than there are commas; no segment holds a comma; joining the segments with commas gives the input back |
| Parser.SegmentsUnique | src/main/java/me/comfortable_andy/math/MathExpression.java:289-300 | any comma-free lists that join to the input are its segments, so splitting and joining are inverse |
| Parser.SegmentsConcat | src/main/java/me/comfortable_andy/math/MathExpression.java:289-300 | concatenating the segments gives the input with its commas removed, order preserved |
| Parser.SegmentsFromInput | src/main/java/me/comfortable_andy/math/MathExpression.java:289-300 | every part of every segment comes from the input |
| Parser.SplitComma | src/main/java/me/comfortable_andy/math/MathExpression.java:289-300 | the loop returns exactly the segments, one more than the commas |
| Parser.Parsed | src/main/java/me/comfortable_andy/math/MathExpression.java:172-216 | a successful parse is empty exactly when the text is blank, and a non-empty result ends on a complete part |
| Parser.Parse | src/main/java/me/comfortable_andy/math/MathExpression.java:172-216 | the loop over the tokens with its stack of lists computes the fold Parsed, including its errors |
| ParserProperties.ParsedBalanced | src/main/java/me/comfortable_andy/math/MathExpression.java:187-213 | a successful parse of a non-blank text has as many "(" as ")" and no prefix closes more than it opened |
| ParserProperties.UnbalancedFails | src/main/java/me/comfortable_andy/math/MathExpression.java:187-213 | unequal counts, or a prefix closing more than it opened, make parse fail |
| ParserProperties.CloseParenthesis | src/main/java/me/comfortable_andy/math/MathExpression.java:192-201 | ")" fails exactly on an empty stack; otherwise it pops the stack and changes only the end of the enclosing list. A trailing Variable becomes a Function of that name whose arguments hold the inner parts without commas, in order; otherwise exactly one Parenthesis of the inner list is appended |
| ParserProperties.NewFunctionWellFormed | src/main/java/me/comfortable_andy/math/MathExpression.java:196-198 | the Function built on ")" has only non-empty, comma-free arguments |
| ParserProperties.ParsedWellFormed | src/main/java/me/comfortable_andy/math/MathExpression.java:187-213 | every Function in a parsed expression, at any depth, has non-empty, comma-free arguments |
| Evaluator.SignOf | src/main/java/me/comfortable_andy/math/MathExpression.java:136-138 | the product of the modifiers of a run of signs is 1 or -1 |
| Evaluator.SignCountsMinuses | src/main/java/me/comfortable_andy/math/MathExpression.java:136-138 | a run of signs negates exactly when it holds an odd number of minus signs |
| Evaluator.SignOfAppend | src/main/java/me/comfortable_andy/math/MathExpression.java:136-138 | applying two runs in turn is applying their concatenation |
| Evaluator.Lower | src/main/java/me/comfortable_andy/math/MathExpression.java:531 | lower-casing keeps the length and lower-cases each character |
| Evaluator.AddOperator | src/main/java/me/comfortable_andy/math/MathExpression.java:62-72 | filing an operator fails exactly when it is not a sign and either no operand precedes it with its gap still empty ("Cannot start expression with") or its gap already holds an operator ("Duplicate operators"); on success the values are unchanged, the runs are padded with empty ones up to the current gap, the operator is appended to that gap, and the sign discipline holds: the leading run holds only signs, every other run is one operator followed by signs |
| Evaluator.Group | src/main/java/me/comfortable_andy/math/MathExpression.java:52-74 | under either reading, the grouping loop leaves runs that obey the sign discipline; what it collects and when it throws are stated on the parts by Grouping.GroupContents and Grouping.GroupFailure |
| Evaluator.ArgValues | src/main/java/me/comfortable_andy/math/MathExpression.java:476-479 | under either reading, the arguments give one value each |
| Evaluator.ReduceAt | src/main/java/me/comfortable_andy/math/MathExpression.java:103-132 | one reduction shrinks both lists by one and keeps the sign discipline |
| Evaluator.PassFrom | src/main/java/me/comfortable_andy/math/MathExpression.java:93-134 | a pass keeps the sign discipline and leaves between one and the original number of values |
| Evaluator.Tiers | src/main/java/me/comfortable_andy/math/MathExpression.java:84-88 | the passes over the tiers keep the sign discipline and leave between one and the original number of values |
| Grouping.GroupContents | src/main/java/me/comfortable_andy/math/MathExpression.java:52-74 | after a successful grouping, `evaluated[j]` is the value of the j-th evaluable part, `operators[k]` is exactly the run of operators written between operands k - 1 and k, and the list of runs ends at the last gap that holds an operator |
| Grouping.GroupFailure | src/main/java/me/comfortable_andy/math/MathExpression.java:52-74 | the grouping loop succeeds exactly when no part fails, and otherwise throws what its first failing part throws: "Not an operator" for a comma (the cast at 67), the part's own exception, "Cannot start expression with" for a non-sign operator at the start (68-69), and "Duplicate operators" for a non-sign operator after another operator (70-71) |
| Grouping.GroupRejectsOperator | src/main/java/me/comfortable_andy/math/MathExpression.java:62-72 | with no comma and every operand evaluating, grouping fails exactly when some non-sign operator opens the parts or follows another operator |
| Grouping.GroupMeaning | src/main/java/me/comfortable_andy/math/MathExpression.java:52-74 | what grouping collects on success, and when and how it fails, together |
| Grouping.LastRun | src/main/java/me/comfortable_andy/math/MathExpression.java:62-72 | without commas, a run of operators is still open after the last operand exactly when the parts end on an operator |
| Revisions.PlusSign | src/main/java/me/comfortable_andy/math/MathExpression.java:136-138 | a run of signs with no minus leaves a value unchanged |
| Revisions.ReduceRevisions | src/main/java/me/comfortable_andy/math/MathExpression.java:76-134 | once grouped, the lone-operand rule and the pass loop give the same value as written and corrected when the leading run holds no minus |
| Revisions.ValueRevisions | src/main/java/me/comfortable_andy/math/MathExpression.java:38-134 | evaluate as written equals the corrected evaluate on every parts list with no minus sign before the first operand, at any depth |
| Revisions.GroupRevisions | src/main/java/me/comfortable_andy/math/MathExpression.java:52-74 | on such parts the grouping loop collects the same lists under both readings |
| Expressions.MathExpression.constructor | src/main/java/me/comfortable_andy/math/MathExpression.java:33-36 | the given parts and an empty variable map |
| Expressions.MathExpression.WithVariables | src/main/java/me/comfortable_andy/math/MathExpression.java:24-31 | the given parts and the given variable map |
| Expressions.MathExpression.Parse | src/main/java/me/comfortable_andy/math/MathExpression.java:172-216 | a fresh expression over the parsed parts and the given map exactly when parsing succeeds, and otherwise the parse error |
| Expressions.MathExpression.SetVariable | src/main/java/me/comfortable_andy/math/MathExpression.java:154-157 | the name is bound to the value, the other bindings are unchanged, and the object itself is returned |
| Expressions.MathExpression.RemoveVariable | src/main/java/me/comfortable_andy/math/MathExpression.java:159-161 | the binding is removed and its previous value, if any, is returned |
| Expressions.MathExpression.Evaluate | src/main/java/me/comfortable_andy/math/MathExpression.java:38-91 | evaluating the object's parts over its own map gives Value as written, and, when no minus sign stands before the first operand at any depth, also the corrected Value whose meaning Evaluation.ValueMeaning states |
| Expressions.MathExpression.IsValid | src/main/java/me/comfortable_andy/math/MathExpression.java:140-152 | true exactly when there is a part and the parts alternate between evaluable and not |
| Expressions.EvaluateParts | src/main/java/me/comfortable_andy/math/MathExpression.java:38-91 | the body of evaluate (empty check, grouping loop, lone operand at 76-81, tier loop) computes Value under the chosen reading |
| Expressions.GroupParts | src/main/java/me/comfortable_andy/math/MathExpression.java:52-74 | the first loop of evaluate computes Group: it succeeds exactly when no part fails, then holds the operand values in order and the run of operators between each pair of operands, and otherwise throws what the first failing part throws |
| Expressions.ReadPart | src/main/java/me/comfortable_andy/math/MathExpression.java:57-73 | one turn of the first loop extends the grouping of the prefix by one part |
| Expressions.PushOperator | src/main/java/me/comfortable_andy/math/MathExpression.java:62-72 | padding the runs and filing the operator, with both checks: it fails exactly when a non-sign operator opens the parts or lands in a gap already holding an operator, with the matching exception, and otherwise appends the operator to the current gap after padding |
| Expressions.Pass | src/main/java/me/comfortable_andy/math/MathExpression.java:93-134 | the in-place loop of pass, with its index stepping back after each reduction, computes PassFrom from index 0 under the chosen reading: as written the first sign of the leading run survives a reduction (127-132) |
| Expressions.EvaluatePart | src/main/java/me/comfortable_andy/math/MathExpression.java:341-535 | the evaluate of a Number, Parenthesis, Function or Variable part computes PartValue |
| Expressions.EvaluateArgs | src/main/java/me/comfortable_andy/math/MathExpression.java:475-479 | the loop over the argument expressions computes ArgValues, stopping at the first error |
| OrderOfOperations.PassJoin | src/main/java/me/comfortable_andy/math/MathExpression.java:99-102 | a pass does not reach across an operator outside its tier: it works on each side separately |
| OrderOfOperations.PassesLevel | src/main/java/me/comfortable_andy/math/MathExpression.java:84-88 | the passes for the first n tiers leave exactly one value, the reference evaluation with those tiers |
| OrderOfOperations.PassesPrecedence | src/main/java/me/comfortable_andy/math/MathExpression.java:84-88 | the three passes compute the usual order of operations on any chain of operands |
| OrderOfOperations.ReduceAtChain | src/main/java/me/comfortable_andy/math/MathExpression.java:103-132 | a corrected reduction combines two neighbouring signed operands with the operator between them and leaves every other operand and operator as it was |
| OrderOfOperations.PassFromChain | src/main/java/me/comfortable_andy/math/MathExpression.java:93-134 | on lists where every later operand has an operator before it, pass succeeds and is a left-to-right pass over the chain of signed operands |
| OrderOfOperations.TiersChain | src/main/java/me/comfortable_andy/math/MathExpression.java:84-88 | the remaining tier passes on the lists follow the chain passes |
| OrderOfOperations.ReduceCorrected | src/main/java/me/comfortable_andy/math/MathExpression.java:76-90 | once grouped, the corrected evaluate is the usual order of operations on the signed operands when every later operand has an operator before it, and an index out of bounds otherwise |
| OrderOfOperations.PassFromGap | src/main/java/me/comfortable_andy/math/MathExpression.java:99-101 | an operand with no operator before it makes pass fail with an index out of bounds |
| Evaluation.GroupKeepsShape | src/main/java/me/comfortable_andy/math/MathExpression.java:52-74 | the grouping loop has a value exactly when some part is evaluable, and every later operand has an operator before it exactly when no two evaluable parts touch |
| Evaluation.GroupGapped | src/main/java/me/comfortable_andy/math/MathExpression.java:52-74 | after grouping, every later operand has an operator before it exactly when no two evaluable parts are adjacent |
| Evaluation.ValueMeaning | src/main/java/me/comfortable_andy/math/MathExpression.java:38-91 | the corrected evaluate gives the grouping error, or the usual order of operations on the signed operands when no two operands touch, or an index out of bounds |
| Evaluation.ValidValue | src/main/java/me/comfortable_andy/math/MathExpression.java:140-152 | a list that isValid accepts, of two parts or more, evaluates under the corrected reading by the order of operations once grouped |
| Evaluation.WrittenMeaning | src/main/java/me/comfortable_andy/math/MathExpression.java:38-91 | evaluate as written gives the grouping error, the order of operations when no two operands touch, or an index out of bounds, whenever no minus sign stands before the first operand at any depth |
| Variables.LookupOrder | src/main/java/me/comfortable_andy/math/MathExpression.java:529-535 | after setVariable the name yields the new value; after removeVariable it falls back to the constant of the lower-cased name, or is unknown; "PI" finds pi unless the map binds "PI"; other names are unaffected |
| Variables.ValueFrame | src/main/java/me/comfortable_andy/math/MathExpression.java:529-535 | under either reading, two maps that agree on every name the parts mention, at any depth, give the same result |
| Variables.SetUnmentioned | src/main/java/me/comfortable_andy/math/MathExpression.java:154-157 | under either reading, setting a variable the parts do not mention leaves their value unchanged |
| Variables.RemoveUnmentioned | src/main/java/me/comfortable_andy/math/MathExpression.java:159-161 | under either reading, removing a variable the parts do not mention leaves their value unchanged |
| Variables.Closed | src/main/java/me/comfortable_andy/math/MathExpression.java:529-535 | under either reading, an expression that mentions no variable does not depend on the map |
| Examples.ParseSimpleText | src/test/java/me/comfortable_andy/math/MathExpressionTest.java:16 | "1 + 1 * 2" parses to five parts |
| Examples.EvaluateSimple | src/test/java/me/comfortable_andy/math/MathExpressionTest.java:16 | "1 + 1 * 2" evaluates to 3 |
| Examples.ParseFunctionCall | src/test/java/me/comfortable_andy/math/MathExpressionTest.java:21 | "cos(0) + 1" parses to a call of cos on one argument, then + 1 |
| Examples.EvaluateFunctionCall | src/test/java/me/comfortable_andy/math/MathExpressionTest.java:21 | "cos(0) + 1" is 2 when the library's cosine of 0 is 1 |
| Examples.EvaluateSineOfX | src/test/java/me/comfortable_andy/math/MathExpressionTest.java:30 | "sin(x)" parses to a call of sin on the variable x, and evaluates to 0 with x bound to 0 when the library's sine of 0 is 0 |
| Examples.ParseBindEvaluate | src/test/java/me/comfortable_andy/math/MathExpressionTest.java:45-49 | parsing "sin(x)", binding x to 0 and evaluating the object gives 0, the value the test expects |
| Examples.ParseImplicitProducts | src/main/java/me/comfortable_andy/math/MathExpression.java:243-270 | "2 x" becomes 2 * x, and "x 2" fails with a variable directly before a number |
| Examples.ParseAdjacentNumbers | src/main/java/me/comfortable_andy/math/MathExpression.java:272-281 | "1 2" fails with an unexpected Number |
| Examples.ParseFailures | src/main/java/me/comfortable_andy/math/MathExpression.java:172-213 | ")" alone is an illegal closing parenthesis, "(" alone is incomplete, and a blank text is the empty expression |
| Examples.ParseDanglingOperator | src/main/java/me/comfortable_andy/math/MathExpression.java:212-213 | "1 +" is incomplete |
| Examples.EvaluateSignAfterOperator | src/main/java/me/comfortable_andy/math/MathExpression.java:63-112 | "10 + - 12" is -2 under either reading: a sign after an operator belongs to the operand that follows |
| Examples.EvaluateVariables | src/main/java/me/comfortable_andy/math/MathExpression.java:529-535 | "PI" finds the constant pi, a map binding of "pi" wins over it, and an unbound "x" is unknown |
| Examples.EvaluateBadStart | src/main/java/me/comfortable_andy/math/MathExpression.java:48-69 | an empty list fails, and so does a list starting with MULTIPLY |
| Examples.EvaluateDuplicateOperators | src/main/java/me/comfortable_andy/math/MathExpression.java:70-71 | "1 + * 2" fails with duplicate operators |
| Examples.EvaluateStrayComma | src/main/java/me/comfortable_andy/math/MathExpression.java:65 | a comma at the top level fails the cast to an operator |
| Examples.EvaluateOutOfBounds | src/main/java/me/comfortable_andy/math/MathExpression.java:76-101 | "1 2" and "-" alone read past the lists |
| Examples.LoneOperandSign | src/main/java/me/comfortable_andy/math/MathExpression.java:76-81 | "- 5" gives 5 as written and -5 corrected |
| Examples.LeadingSignReapplied | src/main/java/me/comfortable_andy/math/MathExpression.java:106-132 | "- 5 * 2 + 1" gives 11 as written and -9 corrected |
| Examples.ReduceLeadingSignAsWritten | src/main/java/me/comfortable_andy/math/MathExpression.java:106-132 | as written, the sign of 5 survives the product and is applied again in the sum, giving 11 |
| Examples.ReduceLeadingSignCorrected | src/main/java/me/comfortable_andy/math/MathExpression.java:106-132 | corrected, the sign is consumed by the product, giving -9 |

## Left out

- The two regular expressions (the token pattern of `parse` and the atom pattern of `parseSimple`) and `Double.parseDouble` in `tryParse`. Their matches are the input of the model: tokens `(`, `)` and segments, each segment carrying its atoms.
- Floating point: doubles are modelled as exact reals. `Math.pow` and the result of a division by zero are functions supplied in a `Library` value.
- The reflective call of `java.lang.Math` methods in `Function.evaluate` is a lookup by name and arity supplied in the `Library`. An unknown method and an argument mismatch are both the one error `UnknownFunction`.
- `BuiltIn` lists only the constants `e`, `pi` and `tau` of `java.lang.Math`, not the other public static double fields that the reflective initialiser finds.
- `Lower` lower-cases ASCII letters only, where `toLowerCase` covers all of Unicode.
- The thread safety of `ConcurrentHashMap` is left out. Sub-expressions share their parent's map, so one map value is passed down.
- `toString` and the display code are left out.
- The unit test's console output and timing are left out; its expected values appear as examples.
- The "Missing operator" check of `pass` is modelled, but no input reaches it: by the time `pass` reaches index i > 0 it has already read `operators.get(i)` as the run after the previous operand.
- Parts.DropEmpty: its own contract bounds only the length; membership and order are the lemmas Parts.DropEmptyMembers and Parts.DropEmptyAppend.
- ParserProperties.CloseParenthesis bounds the number of Function arguments by the commas plus one rather than giving it exactly, because empty arguments are dropped.

## Findings

| source | as written | input that shows it | evidently intended | confidence | as-written member | corrected member |
|---|---|---|---|---|---|---|
| src/main/java/me/comfortable_andy/math/MathExpression.java:76-81 | a lone operand applies its leading run without the run's first sign (`subList(1, ...)`, and only when the run has two or more signs) | "- 5" evaluates to 5 | the whole leading run is applied, giving -5, as `pass` does for the first operand of a longer expression | not executed | Examples.LoneOperandSign | OrderOfOperations.ReduceCorrected |
| src/main/java/me/comfortable_andy/math/MathExpression.java:127-132 | after a reduction at the first operand, the first operator of the leading run is kept, and the next reduction applies it to the combined value again | "- 5 * 2 + 1" evaluates to 11 | the leading sign is consumed by the reduction, giving (-5) * 2 + 1 = -9 | not executed | Examples.LeadingSignReapplied | OrderOfOperations.ReduceCorrected |
