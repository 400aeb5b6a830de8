/**
 * The operation nodes recorded on the calculator's stack and the registry of
 * known operations (CalculatorBrain.swift, lines 13-34).
 *
 * Swift's `Double` is modelled as `real`. The library functions the registry
 * captures (`sin`, `cos`, `sqrt`) and the value Double division yields for a
 * zero divisor (an infinity or NaN, which no real number is) are not given by
 * the source; they are supplied as closures in a `MathLib`.
 */
module Operations {

  /** The numeric library the registry's closures call into. */
  datatype MathLib = MathLib(
    sin: real -> real,
    cos: real -> real,
    sqrt: real -> real,
    // what `dividend / 0.0` yields; outside the reals in IEEE arithmetic
    overZero: real -> real)

  /** A node of the stack: an operand, or an operator with its display name and closure. */
  datatype Operation =
    | Operand(value: real)
    | UnaryOperation(operation: string, unaryCalculation: real -> real)
    | BinaryOperation(operation: string, binaryCalculation: (real, real) -> real)

  /** How many completed sub-expressions an operation consumes. */
  function Arity(op: Operation): (n: nat)
    ensures n <= 2
    ensures n == 0 <==> op.Operand?
  {
    match op
    case Operand(_) => 0
    case UnaryOperation(_, _) => 1
    case BinaryOperation(_, _) => 2
  }

  // The closures of the registry. A binary closure is called with the
  // sub-expression found first when reading backward (the one pushed last)
  // as its first argument, so `-` and `÷` put their second argument on the
  // left of the arithmetic operator.

  function Plus(x0: real, x1: real): real { x0 + x1 }

  function Minus(x0: real, x1: real): real { x1 - x0 }

  function Times(x0: real, x1: real): real { x0 * x1 }

  function Quotient(math: MathLib): (real, real) -> real
  {
    (x0: real, x1: real) => if x0 == 0.0 then math.overZero(x1) else x1 / x0
  }

  function Square(x0: real): real { x0 * x0 }

  /** The symbols of the registry. */
  const BinarySymbols: set<string> := {"+", "-", "×", "÷"}
  const UnarySymbols: set<string> := {"x²", "sin", "cos", "√"}

  /** The registry as a value: what `buildKnownOprations` returns. */
  function KnownOperations(math: MathLib): (ops: map<string, Operation>)
    ensures ops.Keys == BinarySymbols + UnarySymbols
  {
    map[
      "+" := BinaryOperation("+", Plus),
      "-" := BinaryOperation("-", Minus),
      "×" := BinaryOperation("×", Times),
      "÷" := BinaryOperation("÷", Quotient(math)),
      "x²" := UnaryOperation("x²", Square),
      "sin" := UnaryOperation("sin", math.sin),
      "cos" := UnaryOperation("con", math.cos),
      "√" := UnaryOperation("√", math.sqrt)]
  }

  /** Builds the registry one entry at a time, as `buildKnownOprations` does. */
  method BuildKnownOperations(math: MathLib) returns (operations: map<string, Operation>)
    ensures operations == KnownOperations(math)
  {
    operations := map[];
    operations := operations["+" := BinaryOperation("+", Plus)];
    operations := operations["-" := BinaryOperation("-", Minus)];
    operations := operations["×" := BinaryOperation("×", Times)];
    operations := operations["÷" := BinaryOperation("÷", Quotient(math))];
    operations := operations["x²" := UnaryOperation("x²", Square)];
    operations := operations["sin" := UnaryOperation("sin", math.sin)];
    operations := operations["cos" := UnaryOperation("con", math.cos)];
    operations := operations["√" := UnaryOperation("√", math.sqrt)];
  }

  /** Every registered symbol names a binary or a unary operator, never an operand. */
  lemma RegistryArities(math: MathLib, symbol: string)
    requires symbol in KnownOperations(math)
    ensures Arity(KnownOperations(math)[symbol]) == 2 <==> symbol in BinarySymbols
    ensures Arity(KnownOperations(math)[symbol]) == 1 <==> symbol in UnarySymbols
  {
  }

  /** Each entry displays its own symbol, except `cos`, whose display name is "con". */
  lemma RegistryDisplayNames(math: MathLib, symbol: string)
    requires symbol in KnownOperations(math)
    ensures KnownOperations(math)[symbol].operation == if symbol == "cos" then "con" else symbol
  {
  }

  /** `±` and `π` are buttons of the interface but not entries of this registry. */
  lemma UnregisteredSymbols(math: MathLib)
    ensures "±" !in KnownOperations(math) && "π" !in KnownOperations(math)
  {
  }

  /**
   * The arithmetic of the binary entries, with `a` the operand pushed first and
   * `b` the one pushed last: the closure receives `b` first.
   */
  lemma BinaryArithmetic(math: MathLib, a: real, b: real)
    ensures KnownOperations(math)["+"].binaryCalculation(b, a) == a + b
    ensures KnownOperations(math)["-"].binaryCalculation(b, a) == a - b
    ensures KnownOperations(math)["×"].binaryCalculation(b, a) == a * b
    ensures b != 0.0 ==> KnownOperations(math)["÷"].binaryCalculation(b, a) == a / b
    ensures b == 0.0 ==> KnownOperations(math)["÷"].binaryCalculation(b, a) == math.overZero(a)
  {
  }

  /** `+` and `×` do not depend on the order of their arguments; `-` does. */
  lemma CommutativeEntries(math: MathLib, a: real, b: real)
    ensures KnownOperations(math)["+"].binaryCalculation(a, b) == KnownOperations(math)["+"].binaryCalculation(b, a)
    ensures KnownOperations(math)["×"].binaryCalculation(a, b) == KnownOperations(math)["×"].binaryCalculation(b, a)
    ensures KnownOperations(math)["-"].binaryCalculation(a, b) == -KnownOperations(math)["-"].binaryCalculation(b, a)
  {
  }

  /** The unary entries apply squaring and the library's functions. */
  lemma UnaryArithmetic(math: MathLib, x: real)
    ensures KnownOperations(math)["x²"].unaryCalculation(x) == x * x
    ensures KnownOperations(math)["sin"].unaryCalculation(x) == math.sin(x)
    ensures KnownOperations(math)["cos"].unaryCalculation(x) == math.cos(x)
    ensures KnownOperations(math)["√"].unaryCalculation(x) == math.sqrt(x)
  {
  }
}
