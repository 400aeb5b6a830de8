/**
 * Uses of `CalculatorBrain` as the calculator's keypad drives it, with what
 * each sequence of button presses evaluates to.
 */
module Scenarios {
  import opened Wrappers
  import opened Operations
  import opened Evaluation
  import opened Brain

  /** A lone operand evaluates to itself; squaring it gives its square. */
  method OperandThenSquare(math: MathLib, v: real) returns (single: Option<real>, squared: Option<real>)
    ensures single == Some(v)
    ensures squared == Some(v * v)
  {
    var brain := new CalculatorBrain(math);
    brain.PushOperand(v);
    assert EndsWith(brain.stack, Num(v));
    single := brain.Evaluate();
    brain.PerformOperation("x²");
    assert brain.stack == [Operand(v), UnaryOperation("x²", Square)];
    assert EndsWith(brain.stack, Unary("x²", Square, Num(v)));
    squared := brain.Evaluate();
  }

  /** Pushes `a`, then `b`, then performs the binary `symbol`. */
  method PushTwoAndPerform(math: MathLib, a: real, b: real, symbol: string) returns (r: Option<real>)
    requires symbol in BinarySymbols
    ensures r == Some(KnownOperations(math)[symbol].binaryCalculation(b, a))
  {
    var brain := new CalculatorBrain(math);
    brain.PushOperand(a);
    brain.PushOperand(b);
    brain.PerformOperation(symbol);
    var op := KnownOperations(math)[symbol];
    assert EndsWith(brain.stack, Binary(op.operation, op.binaryCalculation, Num(a), Num(b)));
    r := brain.Evaluate();
  }

  /** The operand pushed first is the left-hand side of every binary operator. */
  method OperandOrder(math: MathLib, a: real, b: real)
    returns (sum: Option<real>, difference: Option<real>, product: Option<real>, quotient: Option<real>)
    ensures sum == Some(a + b)
    ensures difference == Some(a - b)
    ensures product == Some(a * b)
    ensures quotient == Some(if b == 0.0 then math.overZero(a) else a / b)
  {
    BinaryArithmetic(math, a, b);
    sum := PushTwoAndPerform(math, a, b, "+");
    difference := PushTwoAndPerform(math, a, b, "-");
    product := PushTwoAndPerform(math, a, b, "×");
    quotient := PushTwoAndPerform(math, a, b, "÷");
  }

  /** 3, 5, `-` is 3 - 5; 3, 5, `÷` is 3 / 5. */
  method ThreeAndFive(math: MathLib) returns (difference: Option<real>, quotient: Option<real>)
    ensures difference == Some(-2.0)
    ensures quotient == Some(0.6)
  {
    var sum, product;
    sum, difference, product, quotient := OperandOrder(math, 3.0, 5.0);
  }

  /** Swapping the operands of `+` or `×` does not change the result. */
  method SwappedOperands(math: MathLib, a: real, b: real, symbol: string)
    returns (r: Option<real>, swapped: Option<real>)
    requires symbol == "+" || symbol == "×"
    ensures r == swapped
  {
    CommutativeEntries(math, a, b);
    r := PushTwoAndPerform(math, a, b, symbol);
    swapped := PushTwoAndPerform(math, b, a, symbol);
  }

  /** Unknown symbols leave the stack, and so the result, as they were. */
  method UnknownSymbols(math: MathLib, v: real) returns (before: Option<real>, after: Option<real>)
    ensures before == Some(v) && after == before
  {
    UnregisteredSymbols(math);
    var brain := new CalculatorBrain(math);
    brain.PushOperand(v);
    assert EndsWith(brain.stack, Num(v));
    before := brain.Evaluate();
    brain.PerformOperation("±");
    brain.PerformOperation("π");
    after := brain.Evaluate();
  }

  /** Nothing pushed: no value. An operator without enough operands: no value. */
  method MissingOperands(math: MathLib, v: real)
    returns (empty: Option<real>, unaryAlone: Option<real>, binaryOnOne: Option<real>)
    ensures empty == None && unaryAlone == None && binaryOnOne == None
  {
    var brain := new CalculatorBrain(math);
    empty := brain.Evaluate();
    brain.PerformOperation("sin");
    unaryAlone := brain.Evaluate();
    var other := new CalculatorBrain(math);
    other.PushOperand(v);
    other.PerformOperation("+");
    binaryOnOne := other.Evaluate();
  }

  /** A missing operand under `√` stays missing through `×` and `sin` above it. */
  method MissingValuePropagates(math: MathLib, v: real)
    returns (root: Option<real>, product: Option<real>, sine: Option<real>)
    ensures root == None && product == None && sine == None
  {
    var brain := new CalculatorBrain(math);
    brain.PerformOperation("√");
    root := brain.Evaluate();
    var rootStack := brain.stack;
    brain.PushOperand(v);
    brain.PerformOperation("×");
    assert brain.stack == rootStack + [Operand(v), BinaryOperation("×", Times)];
    EvaluateIgnoresAbove(rootStack, [Operand(v), BinaryOperation("×", Times)], 0);
    NoneAbsorbsEarlierOperand(brain.stack, 0, Num(v));
    product := brain.Evaluate();
    var productStack := brain.stack;
    brain.PerformOperation("sin");
    NoneAbsorbsOperator(productStack, UnaryOperation("sin", math.sin));
    sine := brain.Evaluate();
  }
}
