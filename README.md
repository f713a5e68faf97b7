# bingocpp core, modelled in Dafny

bingocpp is the C++ acceleration layer of the bingo symbolic-regression
package. An equation is an acyclic graph (`AGraph`) kept in *stack form*: a
list of commands `(node, param1, param2)`. A node code of 0 loads input
column `param1` and 1 loads constant `param1`. Codes 2 to 12 are operators
(+, -, *, /, sin, cos, exp, log, pow, abs, sqrt) whose parameters are the
indices of earlier rows. This project models:

- **The stack backend** (`include/BingoCpp/backend.h`), across several
  modules:
  - `Operators` holds the arity and terminal tables plus `get_arity`.
  - `Stack` holds commands and well-formed stacks.
  - `Liveness` holds `getUtilizedCommands`: a reverse marking pass, proved
    to give the least operand-closed set that holds the last row.
  - `Simplify` holds `simplifyStack`: the utilized rows compacted with
    their operand indices remapped. It is proved well formed, of the
    complexity's length, fully utilized and idempotent.
  - `Evaluation` holds `evaluate` and `simplifyAndEvaluate`: buffer loops
    proved equal to the expression-tree value, and equal to each other.
    It also has the derivative selector `param_x_or_c`.
- **`AGraph`** (`src/agraph.cpp`), in modules `Format` and `AGraphs`:
  - `print_string_with_args` and the three print maps;
  - the stack listing and the LaTeX and console renderers;
  - the class with its fields and setters, `needsLocalOptimization` and
    `getComplexity`.
- **`src/utils.cpp`**, in module `Utils`:
  - `set_break_points`;
  - `GenFact`;
  - the index logic of `convolution`;
  - the shape of the Savitzky-Golay weight table;
  - the row bookkeeping of `CalculatePartials`, which splits the data at NaN
    rows of column 0 and trims each segment by 3 rows in front and 4
    behind.
- **`src/probability_mass_function.cpp`**, in module `ProbabilityMass`: its
  helpers, the three constructors and both `addItem` overloads.

Functions and lemmas model expression-shaped code. Loops become methods with
invariants, proved against those functions. `AGraph` and
`ProbabilityMassFunction` are classes whose methods update their fields.
Failures are values: `Option`, `Result` and `Outcome` are in module
`Wrappers`. There are three kinds:
- a C++ exception (`invalid_argument`);
- an Eigen block of negative size;
- a read past the end of `string_list`.

Four behaviours of the code are kept as written, though each departs from
what its surroundings suggest:
- `isFitnessSet` returns `fitness_ != 0`, not the `fit_set_` field that
  the constructors and `setCommandArray` write and nothing reads. The default fitness
  of 1e9 therefore reports "set" right after construction, and again after
  `setCommandArray`.
- `setLocalOptimizationParams` does not invalidate the fitness, although
  `setCommandArray` resets it.
- `normalize_weights` calls `check_valid_weights(normalized, raw)` against
  that function's parameter order. So the sum tested against 1 − 1e-6 is
  the sum of the *raw* weights, and the sign test is on the normalised
  ones. A single weight 0.5 is therefore rejected.
- `addItem` rebuilds the raw weights from the normalised percentages, not
  from the stored raw weights, so each round multiplies the old raw weights
  by 100.

## Model

| member | source | states |
|---|---|---|
| `Operators.IsArity2` | src/agraph.cpp:328-342 | true exactly for +, -, *, / and pow |
| `Operators.IsTerminal` | src/agraph.cpp:344-358 | true exactly for the variable and constant codes |
| `Operators.Arity` | include/BingoCpp/backend.h:126 | 0 for terminals, 2 for the binary table entries, 1 for the other functions, never more |
| `Liveness.GetUtilizedCommands` | include/BingoCpp/backend.h:113-123 | the reverse pass returns the utilized bitmap `Utilized(p)` |
| `Liveness.UtilizedLast` | include/BingoCpp/backend.h:113-123 | the last command of a non-empty stack is always utilized |
| `Liveness.UtilizedOperands` | include/BingoCpp/backend.h:113-123 | a utilized operator row makes its first operand utilized, and its second one when it is binary |
| `Liveness.UtilizedClosed` | include/BingoCpp/backend.h:113-123 | the bitmap is closed under operands |
| `Liveness.UtilizedLeast` | include/BingoCpp/backend.h:113-123 | the bitmap is contained in every operand-closed bitmap holding the last row, so it is exactly the rows the last command depends on |
| `Liveness.UnreferencedRowIsUnused` | include/BingoCpp/backend.h:113-123 | for X0, X1, X0+X0, sin(X1), row 2 × row 0 the bitmap is [true, false, true, false, true]: rows only an unused row needs are unused too |
| `Simplify.CompactWellFormed` | include/BingoCpp/backend.h:100-110 | compacting rows whose operands are kept yields a well-formed stack |
| `Simplify.SimplifiedShape` | include/BingoCpp/backend.h:100-110 | the simplified stack is well formed, has one row per utilized command, and each kept row sits at its new index, with `param1` (and `param2` of a binary row) renumbered by `NewIndex` and `param2` of a unary row set to its renumbered `param1` |
| `Simplify.SimplifiedAllUtilized` | include/BingoCpp/backend.h:100-110 | every row of a simplified stack is utilized |
| `Simplify.SimplifyIdempotent` | include/BingoCpp/backend.h:100-110 | simplifying a simplified stack changes nothing |
| `Simplify.SimplifyStack` | include/BingoCpp/backend.h:100-110 | the loop returns the compacted utilized rows `Simplified(p)` |
| `Evaluation.Evaluate` | include/BingoCpp/backend.h:20-36 | the buffer loop returns the value of the last command as an expression tree |
| `Evaluation.SimplifiedValue` | include/BingoCpp/backend.h:63-77 | every utilized row has the same value at its new index in the simplified stack |
| `Evaluation.SimplifyPreservesValue` | include/BingoCpp/backend.h:63-77 | the simplified stack evaluates to the same value as the original |
| `Evaluation.SimplifyAndEvaluate` | include/BingoCpp/backend.h:63-77 | evaluating only the utilized commands returns what `evaluate` returns |
| `Evaluation.SelectDerivative` | include/BingoCpp/backend.h:38-60 | `param_x_or_c` defaults to true; true selects the x gradient, false the constants gradient |
| `Format.PrintStringWithArgs` | src/agraph.cpp:54-69 | the character loop yields `Substitute(template, false, arg1, arg2)` |
| `Format.SubstituteVerbatim` | src/agraph.cpp:54-69 | a template without "{}" is copied unchanged |
| `Format.SubstituteAfterPrefix` | src/agraph.cpp:54-69 | a placeholder-free prefix is copied through, unless its last '{' pairs with the rest's first '}' |
| `Format.SubstituteOneFrom` | src/agraph.cpp:58-63 | one "{}" becomes arg1 before any pair was found and arg2 after |
| `Format.SubstituteOne` | src/agraph.cpp:54-69 | a one-placeholder template gets arg1 in its slot |
| `Format.SubstituteTwo` | src/agraph.cpp:54-69 | a two-placeholder template gets arg1 in the first slot and arg2 in the second |
| `Format.SubstituteIgnoresFirstArg` | src/agraph.cpp:61 | once a pair was found, arg1 is never read again |
| `Format.IntToStringRoundTrip` | src/agraph.cpp:80-82 | the decimal text of an index parses back to the index |
| `Format.NatToStringRoundTrip` | src/agraph.cpp:80-82 | the decimal digits of a natural number parse back to it |
| `AGraphs.StackString` | src/agraph.cpp:103-118 | the listing loop concatenates the element strings of the chosen rows, all rows or the utilized ones |
| `AGraphs.StackTemplateSingleLine` | src/agraph.cpp:12-24 | no stack-map template contains a newline |
| `AGraphs.StackElementBodySingleLine` | src/agraph.cpp:73-98 | a row's text is one line when constant values print on one line |
| `AGraphs.StackElementOneNewline` | src/agraph.cpp:73-101 | each element string holds exactly one newline, when constant values print on one line |
| `AGraphs.StackLinesOnePerRow` | src/agraph.cpp:103-118 | the listing holds one line per listed row |
| `AGraphs.FormattedElement` | src/agraph.cpp:120-146 | the element string fails exactly when an operator row indexes past the end of `string_list` |
| `AGraphs.FormattedStringUsingAsWritten` | src/agraph.cpp:148-161 | the as-written loop, which pushes only utilized rows, returns `AsWrittenFormattedString` |
| `AGraphs.AsWrittenStaysNone` | src/agraph.cpp:152-159 | once a row reads past `string_list`, the as-written rendering fails |
| `AGraphs.AsWrittenReadsPastEnd` | src/agraph.cpp:148-161 | for X0, X1, sin(row 1), the as-written console rendering reads past `string_list`, while the intended text is "sin(X_1)" |
| `AGraphs.AsWrittenListAllUtilized` | src/agraph.cpp:148-161 | when every row is utilized, the as-written list holds each row's expression text |
| `AGraphs.AsWrittenAgreesWhenAllUtilized` | src/agraph.cpp:148-161 | when every row is utilized, the as-written rendering is the intended text |
| `AGraphs.AsWrittenSafeOnSimplified` | src/agraph.cpp:148-161 | on a simplified stack the as-written rendering never fails and gives the intended text |
| `AGraphs.FormattedStringUsing` | src/agraph.cpp:148-161 | the corrected loop returns the expression text of the last row |
| `AGraphs.UnaryParts` | src/agraph.cpp:12-52 | each unary template is one "{}" between two placeholder-free parts |
| `AGraphs.SubstituteUnaryOperand` | src/agraph.cpp:141-143 | a unary template never uses its second argument, so `string_list[param2]` does not matter |
| `AGraphs.NeedsOptimizationIffSimplifiedHasUnset` | src/agraph.cpp:224-235 | a utilized unset constant exists exactly when the simplified stack holds an unset constant |
| `AGraphs.AGraph.constructor` | src/agraph.cpp:164-170 | empty stack and constants, fitness 1e9, age 0, and `isFitnessSet` already true |
| `AGraphs.AGraph.FromCopy` | src/agraph.cpp:172-178 | every field copied; `fit_set_` takes the source's `isFitnessSet()` |
| `AGraphs.AGraph.Copy` | src/agraph.cpp:180-183 | a fresh graph with the same fields |
| `AGraphs.AGraph.SetCommandArray` | src/agraph.cpp:189-193 | the stack replaced, fitness reset to 1e9 and `fit_set_` cleared, the rest kept |
| `AGraphs.AGraph.NotifyCommandArrayModification` | src/agraph.cpp:195-198 | fitness reset to 1e9 and `fit_set_` cleared, nothing else changed |
| `AGraphs.AGraph.SetFitness` | src/agraph.cpp:204-206 | only the fitness changes |
| `AGraphs.AGraph.IsFitnessSet` | src/agraph.cpp:208-210 | true exactly when the fitness is non-zero |
| `AGraphs.AGraph.SetGeneticAge` | src/agraph.cpp:212-214 | only the age changes |
| `AGraphs.AGraph.GetUtilizedCommands` | src/agraph.cpp:220-222 | the backend's utilized bitmap of the stack |
| `AGraphs.AGraph.NeedsLocalOptimization` | src/agraph.cpp:224-235 | true exactly when some utilized constant row has index -1 or an index at or past the number of constants |
| `AGraphs.AGraph.SetLocalOptimizationParams` | src/agraph.cpp:242-244 | only the constants change; the fitness stays |
| `AGraphs.AGraph.GetComplexity` | src/agraph.cpp:321-326 | the number of utilized rows equals the simplified stack's length; at least 1 for a non-empty stack, at most the stack length |
| `AGraphs.AGraph.GetLatexString` | src/agraph.cpp:303-305 | the LaTeX expression text of the last row |
| `AGraphs.AGraph.GetConsoleString` | src/agraph.cpp:307-309 | the console expression text of the last row |
| `AGraphs.AGraph.GetStackString` | src/agraph.cpp:311-319 | the full listing and the utilized listing under their two headers |
| `Utils.NaNRowsExactly` | src/utils.cpp:25-31 | the pushed indices are strictly increasing and are exactly the NaN rows |
| `Utils.SetBreakPoints` | src/utils.cpp:25-33 | appends the NaN rows of column 0, then the row count |
| `Utils.BreakPointsShape` | src/utils.cpp:25-33 | break points are increasing, lie in 0..rows, end with the row count, and all but the last are NaN rows |
| `Utils.GenFact` | src/utils.cpp:136-142 | the loop returns the product of a-b+1 .. a |
| `Utils.GenFactIsFallingFactorial` | src/utils.cpp:136-142 | that product is the falling factorial a·(a-1)···(a-b+1), and 1 when b <= 0 |
| `Utils.GenFactFactorial` | src/utils.cpp:136-142 | falling factorial times (a-b)! is a! |
| `Utils.GenFactFitsInt32ForPartials` | src/utils.cpp:151-153 | with half window 3 and orders up to 3, every GenFact that GramWeight asks for fits in a 32-bit int |
| `Utils.WindowInRange` | src/utils.cpp:169-181 | given at least 2h+1 points, the clamped window lies inside the data and the weight column is row i's offset in it; interior rows use the middle column |
| `Utils.ShortDataReadsPastEnd` | src/utils.cpp:169-187 | with fewer than 2h+1 points, row 0 reads past the end of the data |
| `Utils.ConvolveRow` | src/utils.cpp:170-189 | output row i becomes its weighted window sum; the other rows are untouched |
| `Utils.Convolution` | src/utils.cpp:161-192 | every output row is the weighted sum of its clamped window |
| `Utils.HalfWindowFacts` | src/utils.cpp:198 | the half window is non-negative, 2m+1 recovers an odd window, and the partials' window 7 gives 3 |
| `Utils.SavitzkyGolay` | src/utils.cpp:194-207 | the weight table is (2m+1)×(2m+1) with entry (i+m, j+m) = GramWeight(i, j, m, order, deriv), and the result is its convolution |
| `Utils.KeptRowsStaysNone` | src/utils.cpp:70-100 | one segment shorter than the window fails the whole run |
| `Utils.KeptRowsShape` | src/utils.cpp:70-100 | after k segments the kept rows are strictly increasing, avoid every break point, lie between 3 and start − 5, and number start − 8k |
| `Utils.TrimSegment` | src/utils.cpp:73-92 | a segment's block minus 3 rows in front and 4 behind |
| `Utils.TracksStep` | src/utils.cpp:97-99 | appending a trimmed segment extends the kept rows by that segment |
| `Utils.TrimStep` | src/utils.cpp:73-99 | one loop pass fails exactly on a segment shorter than the window, else appends the trimmed rows |
| `Utils.TrimSegments` | src/utils.cpp:70-100 | the loop fails exactly when `KeptRows` does, and otherwise returns those rows |
| `Utils.CalculatePartials` | src/utils.cpp:60-102 | the returned rows are `PartialRows(x)`, with failure exactly when a segment is too short |
| `Utils.PartialsOfTwentyRows` | src/utils.cpp:60-102 | 20 NaN-free rows keep 13 |
| `Utils.PartialsAcrossOneNaN` | src/utils.cpp:60-102 | 41 rows with a NaN at row 20 keep 13 + 13 |
| `Utils.PartialRowsShape` | src/utils.cpp:60-102 | rows + 1 − 8·(break points) rows are kept, and none has NaN in column 0 |
| `Utils.PartialsOfShortData` | src/utils.cpp:60-102 | fewer than 7 rows always fail |
| `ProbabilityMass.DefaultWeights` | src/probability_mass_function.cpp:11-16 | n items give n weights of 1/n; no items leave the weights alone |
| `ProbabilityMass.DefaultWeightsSumToOne` | src/probability_mass_function.cpp:11-16 | default weights sum to 1 |
| `ProbabilityMass.WeightsAndItemsHaveEqualSize` | src/probability_mass_function.cpp:18-26 | throws exactly when the sizes differ |
| `ProbabilityMass.NormalizeWeights` | src/probability_mass_function.cpp:39-47 | the total is the raw sum and the length is kept |
| `ProbabilityMass.NormalizeRejectsSmallTotal` | src/probability_mass_function.cpp:28-37 | a non-empty raw vector summing below 1 − 1e-6 throws |
| `ProbabilityMass.NormalizeChecksSigns` | src/probability_mass_function.cpp:28-37 | otherwise it passes exactly when no weight is negative |
| `ProbabilityMass.NormalizeWeightsAccepts` | src/probability_mass_function.cpp:28-47 | passes exactly when empty, or when the raw sum is at least 1 − 1e-6 and no weight is negative |
| `ProbabilityMass.NormalizeWeightsValues` | src/probability_mass_function.cpp:39-47 | for weights that pass (`Acceptable`), the total is positive, each normalised weight times the total is 100 times its raw weight, and they sum to 100 |
| `ProbabilityMass.SubUnitTotalRejected` | src/probability_mass_function.cpp:28-47 | the single weight 0.5 is rejected although its percentages sum to 100 |
| `ProbabilityMass.MeanCurrentWeight` | src/probability_mass_function.cpp:49-55 | 1.0 without weights, otherwise the total divided by the count |
| `ProbabilityMass.MeanIsAverageWeight` | src/probability_mass_function.cpp:49-55 | after normalising, the mean current weight is the average raw weight |
| `ProbabilityMass.ProbabilityMassFunction.constructor` | src/probability_mass_function.cpp:58-64 | no items, no weights, total 0 |
| `ProbabilityMass.ProbabilityMassFunction.WithItems` | src/probability_mass_function.cpp:66-74 | as written: the items are stored, the weights dropped, the total 0 |
| `ProbabilityMass.ProbabilityMassFunction.FromCopy` | src/probability_mass_function.cpp:76-83 | every field copied |
| `ProbabilityMass.ProbabilityMassFunction.Create` | src/probability_mass_function.cpp:66-74 | corrected: fails exactly when the sizes differ, otherwise stores the items, the weights and their total |
| `ProbabilityMass.ProbabilityMassFunction.AddItem` | src/probability_mass_function.cpp:92-99 | item appended; raw weights = old normalised × old total, then the new weight; all re-normalised, with the outcome of that check |
| `ProbabilityMass.ProbabilityMassFunction.AddItemWithDefaultWeight` | src/probability_mass_function.cpp:85-90 | the same, with the mean current weight as the new weight |
| `ProbabilityMass.AddItemScalesRawWeights` | src/probability_mass_function.cpp:92-98 | for weights that pass, the next addItem rebuilds 100 times the raw weights |
| `ProbabilityMass.FirstItemGetsAllTheMass` | src/probability_mass_function.cpp:85-99 | on an empty distribution, addItem(item) adds weight 1.0, which normalises to 100 |
| `ProbabilityMass.UnevenInitIsAccepted` | src/probability_mass_function.cpp:66-74 | as written, three items with one weight construct without error |
| `ProbabilityMass.UnevenInitIsRefused` | src/probability_mass_function.cpp:66-74 | corrected, three items with one weight fail |

## Left out

- Stack.WellFormed: a unary row's `param2` must also name an earlier row,
  although `evaluate` and `simplifyStack` never read it. The renderer reads
  `string_list[param2]` for every non-terminal row (src/agraph.cpp:141-143),
  so one well-formedness serves both. Stacks with a forward or negative
  unary `param2` are therefore outside the model.
- Simplify.Remap: `simplifyStack` is modelled as writing a kept unary row's
  renumbered `param1` into its `param2` as well. The old `param2` is not
  carried over, so a unary row of the simplified stack reads its operand
  twice.
- Floating point: every double is a Dafny `real`. Overflow, underflow, NaN
  and infinity are not modelled. A division by a zero total in
  `normalize_weights` (NaN entries for zero weights and ±inf entries for the others, in C++) gives 0.0 entries here. The
  `try`/`catch` blocks in `evaluateEquationAt` and the two gradient entry
  points, which turn `underflow_error`/`overflow_error` into NaN arrays, are
  left out for the same reason.
- Values in the backend: the files that implement `backend.h` are not part
  of this model. `evaluate` and `simplifyAndEvaluate` are modelled from
  their documented behaviour. Rows are evaluated over an abstract value type
  with the operators given as functions, and an unset constant takes a
  caller-given value (a NaN column).
- `evaluateWithDerivative` and `simplifyAndEvaluateWithDerivative`: the
  reverse-mode differentiation arithmetic is not modelled. Only the
  selection of the derivative target is (`SelectDerivative`).
- `std::to_string(double)` is a parameter `toStr`. Only the property that
  its text holds no newline is assumed where it is used.
- `GramPoly` and `GramWeight` are floating-point recursions. `SavitzkyGolay`
  takes the weight function as a parameter and models the table's shape and
  the convolution.
- Utils.CalculatePartials: only the rows kept (the `x` half of the returned
  pair) are modelled. The derivative half, computed column by column with
  `SavitzkyGolay`, has the same rows but its values are not modelled.
  `update_return_values` is folded into `TrimStep`. Its console output is
  left out, and so is the preallocation of `x_return`, which is overwritten
  at `start == 0`.
- Utils.GenFact: the accumulator is a C++ `int`, and its 32-bit overflow is
  not modelled. `GenFactFitsInt32ForPartials` shows that the calls
  `CalculatePartials` makes stay in range. The double arguments are taken
  as integers.
- Utils.Convolution: the requires asks for at least 2h+1 data points.
  `ShortDataReadsPastEnd` shows that shorter data makes the C++ code read
  out of bounds.
- Utils.SavitzkyGolay: the requires asks for a non-negative window and enough
  data, for the same reason as `Convolution`.
- Eigen matrices are sequences of rows, the convolution's column vector is
  a `seq<real>`, and the weight table is a sequence of rows.
- `drawSample` draws from `std::random_device`; randomness is not modelled.
- Console output (`std::cout`), `operator<<`, `isCpp`, the pybind module,
  `fitness_metric`, `explicit_regression` and the benchmarks are outside the
  modelled core.
- AGraphs.AGraph.GetLatexString, AGraphs.AGraph.GetConsoleString: these
  require a non-empty stack, because `string_list.back()` on an empty list
  is undefined behaviour in C++. They use the corrected renderer; the
  as-written one is `FormattedStringUsingAsWritten`.
- Plain getters (`getCommandArray`, `getFitness`, `getGeneticAge`,
  `getNumberLocalOptimizationParams`, `getLocalOptimizationParams`) are field
  reads on the class, with no contract of their own.
- `set_default_weights` is never called in the source. Its effect is
  modelled as the function `DefaultWeights`.

## Findings

| source | as written | input that shows it | evidently intended | confidence | as-written member | corrected member |
|---|---|---|---|---|---|---|
| src/agraph.cpp:148-161 | `get_formatted_string_using` pushes a string only for utilized rows, but `get_formatted_element_string` indexes `string_list` by the original row number | the stack X0, X1, sin(row 1) with row 0 unused: row 2 reads `string_list[1]` of a one-element list | one entry per row (an empty one for unused rows), so the console text is "sin(X_1)" | not executed | `AGraphs.AsWrittenReadsPastEnd` | `AGraphs.FormattedStringUsing` |
| src/probability_mass_function.cpp:66-74 | the two-argument constructor assigns `weights_ = weights_`, dropping the given weights, and never checks the sizes | items [1, 2, 3] with the weights [1.0]: constructs without error, with no weights and total 0 | store the given weights and throw `invalid_argument` when their count differs from the items' (tests/probability_mass_function_tests.cpp:41-52 expects the exception) | not executed | `ProbabilityMass.UnevenInitIsAccepted` | `ProbabilityMass.ProbabilityMassFunction.Create` |
