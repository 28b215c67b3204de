# Calculator brain — a Dafny model

This project models `CalculatorBrain`, the expression evaluator of a small
iOS calculator (`Calculator/CalculatorBrain.swift`). The brain records an
append-only history of input steps: a number, a variable name, or an
operation symbol. It answers every query by replaying that history from the
start. The replay keeps four locals:

- an accumulator;
- the description of the accumulator;
- an overall description;
- an optional pending binary operation.

From these it returns `(result, isPending, description)`.

Modules, following the source:

- `Operations` (`operations.dfy`): the operation table. Symbol lookup, the
  numeric function of each entry and the label each entry draws.
- `Evaluator` (`evaluator.dfy`): the steps, the pending record, the replay
  state, the nested `performOperation` / `executePendingBinaryOperation`,
  and `evaluate`. It also holds the reference meaning of `evaluate`: the
  steps build an expression tree, and the contract of `Evaluate` states that
  the result is the tree's value and the description is its rendering.
- `EvaluatorProperties` (`properties.dfy`): what appending one step does to
  the output of `evaluate`, for every earlier history.
- `Scenarios` (`scenarios.dfy`): concrete histories.
- `Brain` (`brain.dfy`): the class as an immutable value. It holds the
  mutators and the accessors. It also holds the loop of lines 81-93, written
  as one pass that updates the locals in place.

The numbers are Swift `Double`s, and their arithmetic is not modelled. The
model takes a `Numerics` record as a parameter. It supplies `sqrt`, `cos`,
`sin`, `tan`, negation, `pow`, `×`, `÷`, `+`, `−`, `Double.pi`, `M_E` and the
`NumberFormatter`-based `formatNumber`. Every property holds for any choice
of them: the model verifies the structural and textual behaviour, not the
floating-point results. The carrier type is `real`.

Behaviour of the code worth noting:

- Multiplication is labelled with a lower-case `x` (line 135).
- Subtraction is keyed by `−` (U+2212) but labelled with an ASCII `-`
  (line 138).
- The history `[3, +, 4]` with no `=` gives result 4 and description `"3+"`,
  with the addition still pending. Line 84 overwrites the accumulator,
  nothing completes the pending addition, and an operand step never updates
  the overall description that line 34 returns. See
  `Scenarios.AddWithoutEquals`.

`evaluate` is a Dafny function of the history and the bindings, so it is
pure and deterministic by construction. The brain is a value, so no query
can change its history. The optional binding table (`variables?`) is
modelled as a map: `nil` and a missing key both read as 0 (line 87), so nil
behaves as the empty map. The `result`, `description` and `resultIsPending`
accessors are `CalculatorBrain.Result`, `CalculatorBrain.Description` and
`CalculatorBrain.ResultIsPending`; they evaluate with no bindings.

## Model

| member | source | states |
|---|---|---|
| Operations.Lookup | Calculator/CalculatorBrain.swift:126-140 | the lookup fails exactly for symbols outside the thirteen keys of the table, whatever the numerics |
| Operations.Table | Calculator/CalculatorBrain.swift:126-140 | the dictionary literal: its keys are exactly the thirteen symbols, whatever the numerics; what each entry does is stated by the step lemmas (`ConstantStep`, `UnaryStep`, `PendingAfterBinary`, `ResolvedAfterEquals`) |
| Operations.ApplyUnary | Calculator/CalculatorBrain.swift:129-133 | no contract: the numeric closures of the unary entries, each delegating to its uninterpreted primitive; `UnaryStep` states how the accumulator is updated with it |
| Operations.ApplyBinary | Calculator/CalculatorBrain.swift:134-138 | no contract: the numeric closures of the binary entries, each delegating to its uninterpreted primitive; `ResolvedAfterEquals` and `PendingAfterBinary` state how a pending operation is completed with it |
| Operations.UnaryLabel | Calculator/CalculatorBrain.swift:129-133 | a unary label is the entry's prefix (`UnaryPrefix`: "√(", "cos(", "sin(", "tan(" or "-("), then the operand's text unchanged, then ")" |
| Operations.BinaryLabel | Calculator/CalculatorBrain.swift:134-138 | a binary label is the left text unchanged, then exactly the operator's infix (`Infix`: "^", lower-case "x", "÷", "+", ASCII "-"), then the right text unchanged |
| Operations.BinaryLabelExtends | Calculator/CalculatorBrain.swift:134-138 | the label shown with an empty right side is a prefix of the label with any right side |
| Evaluator.State.IsPartialResult | Calculator/CalculatorBrain.swift:26-30 | no contract: true exactly when a pending record exists; `Evaluate` states what that means for the entered expression (an operation is open) |
| Evaluator.State.DisplayDescription | Calculator/CalculatorBrain.swift:31-40 | no contract: the overall description while pending, the description accumulator otherwise. The getter's write `description = descriptionAccumulator` (line 36) is not modelled; it is harmless, because the getter is read once, at line 93, after which the locals are discarded. `OutputOfReplay` and `Evaluate` state the result |
| Evaluator.VariableOr0 | Calculator/CalculatorBrain.swift:87-87 | a bound name reads its binding and an unbound one reads 0, as `?? 0` gives |
| Evaluator.Apply | Calculator/CalculatorBrain.swift:82-91 | no contract: one iteration of the loop; `OperandStep`, `VariableStep`, `ConstantStep`, `UnaryStep`, `PendingAfterBinary`, `ResolvedAfterEquals` and `UnknownSymbolIsNoOp` state each branch |
| Evaluator.Run | Calculator/CalculatorBrain.swift:81-92 | no contract: the loop from a given state, front to back; `RunAppend` and `RunDenotes` state what it does |
| Evaluator.Replay | Calculator/CalculatorBrain.swift:22-92 | no contract: the loop from the initial locals of lines 22-25; `ReplaySnoc` states its step-by-step behaviour and `Evaluate` its meaning |
| Evaluator.ExecutePending | Calculator/CalculatorBrain.swift:65-72 | completing a pending operation applies its function to the saved left operand and the accumulator, wraps the two descriptions in its label, and clears pending; with nothing pending nothing changes; the overall description is never touched |
| Evaluator.PerformOperation | Calculator/CalculatorBrain.swift:42-63 | a symbol missing from the table leaves the whole replay state unchanged; "=" does exactly the pending completion |
| Evaluator.Evaluate | Calculator/CalculatorBrain.swift:20-94 | for every history and binding table, the result is never nil and is the value of the entered expression tree; isPending holds exactly when a binary operation of that tree is still open; once nothing is open the description is the tree's rendering, and while one is open it begins with the rendered left operand and the operator |
| EvaluatorProperties.RunAppend | Calculator/CalculatorBrain.swift:81-92 | replaying a concatenated history replays the first part and continues from where it left off |
| EvaluatorProperties.ReplaySnoc | Calculator/CalculatorBrain.swift:81-92 | appending one step to the history applies exactly that step to the state the earlier history left |
| EvaluatorProperties.OutputOfReplay | Calculator/CalculatorBrain.swift:93-93 | the output is the final accumulator, whether a pending record remains, and the displayed description of the state the replay ends in |
| EvaluatorProperties.EmptyHistory | Calculator/CalculatorBrain.swift:20-93 | an empty history evaluates to result 0, not pending, description "" |
| EvaluatorProperties.UnknownSymbolIsNoOp | Calculator/CalculatorBrain.swift:42-44 | appending a symbol the table lacks leaves result, pending flag and description unchanged |
| EvaluatorProperties.PendingAfterBinary | Calculator/CalculatorBrain.swift:55-58 | right after a binary operator the result is pending, the result is the value after completing any earlier pending operation, and the description is that value's text followed by the operator and an empty right side |
| EvaluatorProperties.BinaryOpensPending | Calculator/CalculatorBrain.swift:55-57 | a binary operator first completes the earlier pending operation, then opens a new one whose left operand and text are the completed value and its description |
| EvaluatorProperties.ResolvedAfterEquals | Calculator/CalculatorBrain.swift:59-72 | after "=" nothing is pending; a pending operation is completed with the accumulator as its right operand, and the output is the completed value and label; without one the output is the accumulator and its description |
| EvaluatorProperties.UnaryStep | Calculator/CalculatorBrain.swift:49-54 | a unary operator applies its function to the accumulator and its label to the description; while an operation is pending it stays pending and the description becomes the pending label around the new text |
| EvaluatorProperties.ConstantStep | Calculator/CalculatorBrain.swift:46-48 | a constant sets the result and its label; a pending operation and the description shown with it are untouched |
| EvaluatorProperties.OperandStep | Calculator/CalculatorBrain.swift:83-85 | an operand sets the result to its value and, when nothing is pending, the description to its formatted text; while pending, the shown description is unchanged |
| EvaluatorProperties.VariableStep | Calculator/CalculatorBrain.swift:86-88 | a variable sets the result to its binding or to 0 when unbound and, when nothing is pending, the description to its bare name; while pending, the shown description is unchanged |
| Evaluator.ApplyDenotes | Calculator/CalculatorBrain.swift:42-91 | every kind of step keeps the replay state equal to the value and rendering of the expression tree built so far |
| Evaluator.RunDenotes | Calculator/CalculatorBrain.swift:81-92 | agreement between replay state and expression tree holds after any number of steps |
| Scenarios.AddThenEquals | Calculator/CalculatorBrain.swift:55-72 | for any operands a and b (3 and 4, say), a + b = gives plus(a, b), not pending, described as "a+b" |
| Scenarios.AddWithoutEquals | Calculator/CalculatorBrain.swift:31-39 | 3 + 4 without "=" gives 4, pending, described as "3+" |
| Scenarios.SquareRoot | Calculator/CalculatorBrain.swift:129-129 | 9 √ gives sqrt(9), described as "√(9)" |
| Scenarios.UnaryWhilePending | Calculator/CalculatorBrain.swift:49-54 | for any operands a and b (3 and 9, say), a + b √ gives sqrt(b), pending, described as "a+√(b)" |
| Scenarios.VariableThenEquals | Calculator/CalculatorBrain.swift:86-88 | M + 5 = with M bound to 2 gives plus(2, 5), described as "M+5" |
| Scenarios.UnboundVariable | Calculator/CalculatorBrain.swift:87-87 | an unbound variable reads as 0 and is described by its name |
| Scenarios.ChainResolvesFirst | Calculator/CalculatorBrain.swift:55-58 | a + b × completes the addition before opening the multiplication, giving plus(a, b), pending, described as "a+bx" |
| Scenarios.PercentIgnored | Calculator/CalculatorBrain.swift:43-43 | appending the unknown symbol "%" changes nothing |
| Brain.CalculatorBrain.PerformOperation | Calculator/CalculatorBrain.swift:96-98 | the history gains exactly the symbol at its end, earlier steps unchanged |
| Brain.CalculatorBrain.SetVariable | Calculator/CalculatorBrain.swift:100-102 | the history gains exactly the variable at its end, earlier steps unchanged |
| Brain.CalculatorBrain.SetOperand | Calculator/CalculatorBrain.swift:104-106 | the history gains exactly the operand at its end, earlier steps unchanged |
| Brain.CalculatorBrain.Clear | Calculator/CalculatorBrain.swift:108-110 | the history becomes empty, and every evaluation afterwards is result 0, not pending, description "" |
| Brain.CalculatorBrain.Undo | Calculator/CalculatorBrain.swift:112-116 | an empty history stays empty; otherwise exactly the last step is removed |
| Brain.CalculatorBrain.Evaluate | Calculator/CalculatorBrain.swift:20-94 | evaluating the brain's history yields the value of the expression it records; pending exactly when an operation is open; once nothing is open, the expression's rendering |
| Brain.CalculatorBrain.Description | Calculator/CalculatorBrain.swift:155-159 | with nothing pending, the rendering of the entered expression; while an operation is pending, a text that begins with its rendered left operand and operator |
| Brain.CalculatorBrain.ResultIsPending | Calculator/CalculatorBrain.swift:161-165 | true exactly when a binary operation of the entered expression waits for its right operand; false for an empty history |
| Brain.CalculatorBrain.Result | Calculator/CalculatorBrain.swift:149-153 | the forced unwrap of the result never fails, and with no history the result is 0 |
| Brain.UndoRevertsMutator | Calculator/CalculatorBrain.swift:96-116 | undo right after any of the three mutators gives back the brain as it was, and so every evaluation as it was |
| Brain.UndoOnEmpty | Calculator/CalculatorBrain.swift:108-116 | undo on a new brain, or after clear, leaves the history empty and evaluation at its empty-history output |
| Brain.EvaluateByLoop | Calculator/CalculatorBrain.swift:81-93 | one pass over the history, updating the locals (packed into one state) in place, returns exactly the output of the replay |

## Left out

- Floating-point behaviour of the primitives: NaN, infinities, rounding, and the actual values of `sqrt`, `cos`, `sin`, `tan`, `pow`, `/`, `Double.pi` and `M_E`. They are parameters of the model, and no property depends on their values.
- `formatNumber` (lines 118-124): it calls the locale-dependent `NumberFormatter` from Foundation. It is the `format` parameter, so its six-fraction-digit rendering is not modelled.
- `Calculator/ViewController.swift`: UIKit glue that parses the display text and renders the brain's output. It is not part of this model.
- Mutation in place: the Swift class mutates `operationSequence`. The model returns a new brain from each mutator. Callers see the same sequence of histories.
- Evaluator.VariableOr0: variable names are compared code point by code point, while Swift's `Dictionary<String, Double>` lookup at line 87 compares `String` keys up to Unicode canonical equivalence. A name spelled `"e\u{301}"` with a binding for `"\u{E9}"` reads that binding in Swift but 0 in the model. Dafny strings have no Unicode normalisation. The thirteen keys of the operation table are unaffected, because none of them has a canonically equivalent spelling.
