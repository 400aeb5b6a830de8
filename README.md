# CalculatorBrain in Dafny

A model of the calculator's brain (`Calculator/CalculatorBrain.swift`) with
proofs of what it computes. The brain records button presses on a stack of
operations: operands, and unary or binary operators looked up by their
button symbol in a fixed registry. It evaluates the stack as a postfix
program by walking it backward from the top. The walk returns the position
where it stopped and an optional value; a missing operand anywhere yields no
value.

The project has six modules:

- `Wrappers` (`wrappers.dfy`): the `Option` type that models Swift's `Double?`.
- `Operations` (`operations.dfy`): the `Operation` node type and the registry.
  The registry is given as a value (`KnownOperations`) and is also built entry
  by entry (`BuildKnownOperations`). Lemmas state the arity, display name and
  arithmetic of each entry.
- `Evaluation` (`evaluation.dfy`): the recursive evaluator `EvaluateFrom`,
  with two independent references that it is proved against:
  - `Supplies`, a count of owed sub-expressions. It decides *whether* a
    value comes out.
  - Expression trees (`Expr`), their postfix layout on the stack
    (`LaidOut`) and their meaning (`Denote`). These decide *which* value
    comes out: soundness (`EvaluateLaidOut`) and completeness
    (`EvaluatedSpanIsLaidOut`).
- `Brain` (`brain.dfy`): the `CalculatorBrain` class. Its `stack` field is
  changed by `PushOperand` and `PerformOperation`, and `Evaluate` reads it.
- `Scenarios` (`scenarios.dfy`): key sequences driven through a brain, with
  the values they evaluate to. They cover operand order, unknown symbols
  and missing operands.
- `BoundsGuard` (`guard.dfy`): the bounds test of the recursive evaluator as
  written, and why its off-by-one stays hidden (see Findings).

Swift's `Double` is modelled as `real`. The library functions `sin`, `cos`
and `sqrt` are parameters, gathered in a `MathLib` value. So is the value of
a division by zero (`overZero`).

## Model

| member | source | states |
|---|---|---|
| Operations.Arity | Calculator/CalculatorBrain.swift:13-17 | an operation takes at most two operands, and takes none exactly when it is an operand |
| Operations.KnownOperations | Calculator/CalculatorBrain.swift:19-34 | the registry has exactly the keys `+ - × ÷ x² sin cos √` |
| Operations.BuildKnownOperations | Calculator/CalculatorBrain.swift:19-32 | building the registry one entry at a time gives exactly the registry value |
| Operations.RegistryArities | Calculator/CalculatorBrain.swift:22-30 | a registered symbol is binary iff it is one of `+ - × ÷`, and unary iff it is one of `x² sin cos √` |
| Operations.RegistryDisplayNames | Calculator/CalculatorBrain.swift:22-30 | every entry displays its own symbol, except `cos`, whose display name is "con" |
| Operations.UnregisteredSymbols | Calculator/CalculatorBrain.swift:19-34 | `±` and `π` are not in the registry |
| Operations.BinaryArithmetic | Calculator/CalculatorBrain.swift:22-25 | called with the later operand first, the closures compute `a + b`, `a - b`, `a * b`, and `a / b` for a non-zero divisor |
| Operations.CommutativeEntries | Calculator/CalculatorBrain.swift:22-24 | `+` and `×` ignore argument order; swapping the arguments of `-` negates it |
| Operations.UnaryArithmetic | Calculator/CalculatorBrain.swift:27-30 | `x²` squares its operand; `sin`, `cos` and `√` apply the library's functions |
| Evaluation.EvaluateFrom | Calculator/CalculatorBrain.swift:49-76 | a position outside the stack gives (position, none); inside, the returned position is at least -1 and below the argument |
| Evaluation.FailureStopsBelowStart | Calculator/CalculatorBrain.swift:60-75 | a failed in-range evaluation starts at an operator and reports the position just below it, whatever the sub-evaluation returned |
| Evaluation.SuppliesIffEvaluates | Calculator/CalculatorBrain.swift:55-75 | the nodes below a position complete `need` sub-expressions iff evaluation there yields a value and the nodes below its stop complete `need - 1` |
| Evaluation.EvaluatesIffSupplies | Calculator/CalculatorBrain.swift:49-76 | evaluation yields a value iff the nodes from that position downward complete exactly one sub-expression |
| Evaluation.EvaluateIgnoresAbove | Calculator/CalculatorBrain.swift:49-76 | evaluating at a position gives the same result however many nodes are pushed above it |
| Evaluation.EvaluateLaidOut | Calculator/CalculatorBrain.swift:55-75 | the postfix layout of any tree evaluates to the tree's value and stops just below the layout |
| Evaluation.EvaluatedSpanIsLaidOut | Calculator/CalculatorBrain.swift:55-75 | every value the evaluator yields is the value of a tree laid out exactly over the span it consumed |
| Evaluation.BinarySpanStep | Calculator/CalculatorBrain.swift:66-71 | a binary operator on top of two evaluated layouts lays out and evaluates the binary tree, with the later operand as the closure's first argument |
| Evaluation.TopEvaluation | Calculator/CalculatorBrain.swift:78-80 | evaluating from the top yields a value iff the stack completes one expression; the value is that of a tree the stack ends with; every tree the stack ends with has that value |
| Evaluation.NoneAbsorbsOperator | Calculator/CalculatorBrain.swift:60-75 | a missing value stays missing under any operator pushed above it |
| Evaluation.NoneAbsorbsEarlierOperand | Calculator/CalculatorBrain.swift:66-75 | a missing earlier operand makes a binary operator's value missing, whatever later operand lies between them |
| Brain.CalculatorBrain.constructor | Calculator/CalculatorBrain.swift:34-37 | a new brain holds the registry and an empty stack |
| Brain.CalculatorBrain.PushOperand | Calculator/CalculatorBrain.swift:39-41 | the stack gains `Operand(value)` on top and keeps everything below |
| Brain.CalculatorBrain.PerformOperation | Calculator/CalculatorBrain.swift:43-47 | a registered symbol appends its registry entry; any other symbol leaves the stack unchanged |
| Brain.CalculatorBrain.Evaluate | Calculator/CalculatorBrain.swift:78-80 | the empty stack gives no value; a value comes out iff the stack completes one expression, and it is the value of the expression the stack ends with |
| Scenarios.OperandThenSquare | Calculator/CalculatorBrain.swift:39-80 | a single operand evaluates to itself, and `x²` after it gives its square |
| Scenarios.PushTwoAndPerform | Calculator/CalculatorBrain.swift:39-80 | pushing `a`, `b` and a binary symbol gives the symbol's closure applied to `b` then `a` |
| Scenarios.OperandOrder | Calculator/CalculatorBrain.swift:22-25 | `a, b, +` is a + b, `a, b, -` is a - b, `a, b, ×` is a * b, and `a, b, ÷` is a / b for non-zero b |
| Scenarios.ThreeAndFive | Calculator/CalculatorBrain.swift:23-25 | `3, 5, -` gives -2 and `3, 5, ÷` gives 0.6 |
| Scenarios.SwappedOperands | Calculator/CalculatorBrain.swift:22-24 | `+` and `×` give the same value whichever operand is pushed first |
| Scenarios.UnknownSymbols | Calculator/CalculatorBrain.swift:43-47 | performing `±` or `π` leaves the value unchanged |
| Scenarios.MissingOperands | Calculator/CalculatorBrain.swift:49-80 | the empty stack, a lone `sin` and `v, +` all give no value |
| Scenarios.MissingValuePropagates | Calculator/CalculatorBrain.swift:60-75 | with the operand of `√` missing, pushing `v, ×` and then `sin` still gives no value |
| BoundsGuard.AsWrittenAdmitsCount | Calculator/CalculatorBrain.swift:50 | the bounds test as written lets `position == stack.count` through, though it indexes nothing |
| BoundsGuard.GuardsAgreeBelowCount | Calculator/CalculatorBrain.swift:50 | below the count, the test as written and the corrected test agree |
| BoundsGuard.WalkStaysBelowCount | Calculator/CalculatorBrain.swift:49-80 | started below the count, the walk continues only from positions below the count, where the two tests agree |

## Left out

- Double arithmetic: rounding, NaN and infinities are not modelled. Values are real numbers, so `3, 5, ÷` is exactly 0.6.
- Division by zero: Double gives an infinity or NaN. The model gives `overZero(dividend)`, an unconstrained parameter.
- `sin`, `cos` and `sqrt` are not modelled; they are uninterpreted parameters of `MathLib`. The square root of a negative number is not NaN here.
- `toString` (lines 82-86) prints the stack through Swift's reflection. It is not modelled.
- Brain.CalculatorBrain.constructor: the registry is built once per brain rather than once as a static constant. No brain can change it, so sharing cannot be observed.
- The closures of the registry are compared by identity (named functions such as `Plus`), not by behaviour.
- `CalculatorViewController.swift` calls a later brain interface, with variables, a memory operand `M` and a `±` operation. That interface is not in `CalculatorBrain.swift`, and the model follows `CalculatorBrain.swift`. Its registry has no `±` or `π` entry, so `PerformOperation` ignores those symbols.
- The `-` symbol is the ASCII hyphen, as in the source.
- The view controllers and graph drawing, which call the brain, are not part of this model. `ViewController.swift` shows NaN when `evaluate()` gives no value; that display rule is not modelled.

## Findings

| source | as written | input that shows it | evidently intended | confidence | as-written member | corrected member |
|---|---|---|---|---|---|---|
| Calculator/CalculatorBrain.swift:50 | `position > stack.count` rejects positions past the count but not the count itself | `evaluate(stack.count)` passes the test and reads `stack[stack.count]`, one past the end | `position >= stack.count` | not executed; latent, because the public `evaluate()` starts at `stack.count - 1` and the walk only moves down (`BoundsGuard.WalkStaysBelowCount`) | BoundsGuard.AsWrittenAdmitsCount | Evaluation.EvaluateFrom |
