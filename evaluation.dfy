/**
 * The evaluator of CalculatorBrain.swift (lines 49-76): a backward walk over
 * the stack that returns the position where it stopped and an optional value.
 *
 * Beside it stand two independent descriptions of what it computes:
 *  - `Supplies`, a backward count of how many sub-expressions are still
 *    owed, which decides whether evaluation yields a value;
 *  - expression trees (`Expr`), their postfix layout on the stack and their
 *    meaning `Denote`, which decide which value it yields.
 */
module Evaluation {
  import opened Wrappers
  import opened Operations

  /** Whether `position` indexes `stack`. */
  predicate InRange(stack: seq<Operation>, position: int)
  {
    0 <= position < |stack|
  }

  /**
   * Evaluates the sub-expression whose last node sits at `position`. The
   * first component is the position just below what was consumed. On a
   * missing value the source returns the operator's position minus one,
   * not the position the failed sub-evaluation stopped at; so does this.
   */
  function EvaluateFrom(stack: seq<Operation>, position: int): (r: (int, Option<real>))
    ensures !InRange(stack, position) ==> r == (position, None)
    ensures InRange(stack, position) ==> -1 <= r.0 < position
    decreases position + 1
  {
    if position < 0 || position >= |stack| then (position, None)
    else
      var rest := position - 1;
      match stack[position]
      case Operand(value) => (rest, Some(value))
      case UnaryOperation(_, calculation) =>
        var operand := EvaluateFrom(stack, rest);
        if operand.1.Some? then (operand.0, Some(calculation(operand.1.value))) else (rest, None)
      case BinaryOperation(_, calculation) =>
        var left := EvaluateFrom(stack, rest);
        if left.1.Some? then
          var right := EvaluateFrom(stack, left.0);
          if right.1.Some? then (right.0, Some(calculation(left.1.value, right.1.value)))
          else (rest, None)
        else (rest, None)
  }

  /**
   * A failed evaluation of an in-range position reports the position just
   * below the node it started at, wherever the failed sub-evaluation stopped.
   */
  lemma FailureStopsBelowStart(stack: seq<Operation>, position: int)
    requires InRange(stack, position)
    requires EvaluateFrom(stack, position).1.None?
    ensures EvaluateFrom(stack, position).0 == position - 1
    ensures !stack[position].Operand?
  {
  }

  /**
   * Reading backward from `position`, the nodes complete `need` further
   * sub-expressions: each node pays one owed sub-expression and owes as many
   * as its arity.
   */
  predicate Supplies(stack: seq<Operation>, position: int, need: nat)
    decreases position + 1
  {
    need == 0 ||
    (InRange(stack, position) && Supplies(stack, position - 1, need - 1 + Arity(stack[position])))
  }

  /** One evaluation pays exactly one owed sub-expression. */
  lemma {:induction false} SuppliesIffEvaluates(stack: seq<Operation>, position: int, need: nat)
    requires need >= 1
    ensures Supplies(stack, position, need) <==>
      (EvaluateFrom(stack, position).1.Some? && Supplies(stack, EvaluateFrom(stack, position).0, need - 1))
    decreases position + 1
  {
    if InRange(stack, position) {
      match stack[position]
      case Operand(_) =>
      case UnaryOperation(_, _) =>
        SuppliesIffEvaluates(stack, position - 1, need);
      case BinaryOperation(_, _) =>
        SuppliesIffEvaluates(stack, position - 1, need + 1);
        var (afterLeft, left) := EvaluateFrom(stack, position - 1);
        if left.Some? {
          SuppliesIffEvaluates(stack, afterLeft, need);
        }
    }
  }

  /** Evaluation yields a value exactly when the nodes below owe nothing. */
  lemma EvaluatesIffSupplies(stack: seq<Operation>, position: int)
    ensures EvaluateFrom(stack, position).1.Some? <==> Supplies(stack, position, 1)
  {
    SuppliesIffEvaluates(stack, position, 1);
  }

  /** Evaluation at `position` reads nothing above `position`. */
  lemma {:induction false} EvaluateIgnoresAbove(stack: seq<Operation>, more: seq<Operation>, position: int)
    requires position < |stack|
    ensures EvaluateFrom(stack + more, position) == EvaluateFrom(stack, position)
    decreases position + 1
  {
    if 0 <= position {
      assert (stack + more)[position] == stack[position];
      match stack[position]
      case Operand(_) =>
      case UnaryOperation(_, _) =>
        EvaluateIgnoresAbove(stack, more, position - 1);
      case BinaryOperation(_, _) =>
        EvaluateIgnoresAbove(stack, more, position - 1);
        var (afterLeft, left) := EvaluateFrom(stack, position - 1);
        if left.Some? {
          EvaluateIgnoresAbove(stack, more, afterLeft);
        }
    }
  }

  /**
   * An expression tree. A binary node keeps its operands in the order they
   * were pushed: `earlier` first, `later` just below the operator.
   */
  datatype Expr =
    | Num(value: real)
    | Unary(operation: string, unaryCalculation: real -> real, operand: Expr)
    | Binary(operation: string, binaryCalculation: (real, real) -> real, earlier: Expr, later: Expr)

  /** The number of nodes of a tree. */
  function Size(e: Expr): (n: nat)
    ensures n >= 1
  {
    match e
    case Num(_) => 1
    case Unary(_, _, x) => Size(x) + 1
    case Binary(_, _, a, b) => Size(a) + Size(b) + 1
  }

  /** The value of a tree; a binary closure gets the later operand first. */
  function Denote(e: Expr): real
  {
    match e
    case Num(v) => v
    case Unary(_, f, x) => f(Denote(x))
    case Binary(_, f, a, b) => f(Denote(b), Denote(a))
  }

  /**
   * The nodes of `stack` ending at `top` record `e` in push order: the
   * operator at `top`, below it its later operand, below that its earlier one.
   */
  ghost predicate LaidOut(stack: seq<Operation>, top: int, e: Expr)
    decreases e
  {
    InRange(stack, top) &&
    match e
    case Num(v) => stack[top] == Operand(v)
    case Unary(name, f, x) =>
      stack[top] == UnaryOperation(name, f) && LaidOut(stack, top - 1, x)
    case Binary(name, f, a, b) =>
      stack[top] == BinaryOperation(name, f)
      && LaidOut(stack, top - 1, b) && LaidOut(stack, top - 1 - Size(b), a)
  }

  /** One unary step of the evaluator, on a sub-result already known. */
  lemma UnaryStep(stack: seq<Operation>, top: int, name: string, f: real -> real, next: int, v: real)
    requires InRange(stack, top) && stack[top] == UnaryOperation(name, f)
    requires EvaluateFrom(stack, top - 1) == (next, Some(v))
    ensures EvaluateFrom(stack, top) == (next, Some(f(v)))
  {
  }

  /** One binary step of the evaluator, on sub-results already known. */
  lemma BinaryStep(stack: seq<Operation>, top: int, name: string, f: (real, real) -> real,
                   middle: int, next: int, later: real, earlier: real)
    requires InRange(stack, top) && stack[top] == BinaryOperation(name, f)
    requires EvaluateFrom(stack, top - 1) == (middle, Some(later))
    requires EvaluateFrom(stack, middle) == (next, Some(earlier))
    ensures EvaluateFrom(stack, top) == (next, Some(f(later, earlier)))
  {
  }

  /**
   * Soundness: wherever it sits in the stack, a laid-out tree evaluates to
   * the tree's value and consumes exactly its own nodes.
   */
  lemma {:induction false} EvaluateLaidOut(stack: seq<Operation>, top: int, e: Expr)
    requires LaidOut(stack, top, e)
    ensures EvaluateFrom(stack, top) == (top - Size(e), Some(Denote(e)))
    decreases e
  {
    match e
    case Num(v) =>
    case Unary(name, f, x) =>
      EvaluateLaidOut(stack, top - 1, x);
      UnaryStep(stack, top, name, f, top - 1 - Size(x), Denote(x));
    case Binary(name, f, a, b) =>
      var middle := top - 1 - Size(b);
      EvaluateLaidOut(stack, top - 1, b);
      EvaluateLaidOut(stack, middle, a);
      BinaryStep(stack, top, name, f, middle, middle - Size(a), Denote(b), Denote(a));
  }

  /** The tree an evaluation that yields a value has walked over. */
  ghost function SpanTree(stack: seq<Operation>, position: int): Expr
    requires EvaluateFrom(stack, position).1.Some?
    decreases position + 1
  {
    match stack[position]
    case Operand(v) => Num(v)
    case UnaryOperation(name, f) => Unary(name, f, SpanTree(stack, position - 1))
    case BinaryOperation(name, f) =>
      Binary(name, f, SpanTree(stack, EvaluateFrom(stack, position - 1).0), SpanTree(stack, position - 1))
  }

  /**
   * Completeness: every value the evaluator yields is the value of a tree
   * laid out exactly over the span it consumed.
   */
  lemma {:induction false} EvaluatedSpanIsLaidOut(stack: seq<Operation>, position: int)
    requires EvaluateFrom(stack, position).1.Some?
    ensures LaidOut(stack, position, SpanTree(stack, position))
    ensures EvaluateFrom(stack, position).0 == position - Size(SpanTree(stack, position))
    ensures Denote(SpanTree(stack, position)) == EvaluateFrom(stack, position).1.value
    decreases position + 1, 1
  {
    match stack[position]
    case Operand(v) =>
    case UnaryOperation(name, f) =>
      UnarySpanIsLaidOut(stack, position, name, f);
    case BinaryOperation(name, f) =>
      BinarySpanIsLaidOut(stack, position, name, f);
  }

  /** The unary case of `EvaluatedSpanIsLaidOut`. */
  lemma {:induction false} UnarySpanIsLaidOut(stack: seq<Operation>, position: int, name: string, f: real -> real)
    requires InRange(stack, position) && stack[position] == UnaryOperation(name, f)
    requires EvaluateFrom(stack, position).1.Some?
    ensures LaidOut(stack, position, SpanTree(stack, position))
    ensures EvaluateFrom(stack, position).0 == position - Size(SpanTree(stack, position))
    ensures Denote(SpanTree(stack, position)) == EvaluateFrom(stack, position).1.value
    decreases position + 1, 0
  {
    var operand := EvaluateFrom(stack, position - 1);
    assert operand.1.Some?;
    EvaluatedSpanIsLaidOut(stack, position - 1);
    var x := SpanTree(stack, position - 1);
    assert SpanTree(stack, position) == Unary(name, f, x);
    UnaryStep(stack, position, name, f, operand.0, operand.1.value);
  }

  /** A binary operator over the layouts of its two operands lays out the binary tree. */
  /** A binary operator over two evaluated layouts lays out, and evaluates, the binary tree. */
  lemma BinarySpanStep(stack: seq<Operation>, top: int, name: string, f: (real, real) -> real, a: Expr, b: Expr)
    requires InRange(stack, top) && stack[top] == BinaryOperation(name, f)
    requires LaidOut(stack, top - 1, b) && EvaluateFrom(stack, top - 1) == (top - 1 - Size(b), Some(Denote(b)))
    requires LaidOut(stack, top - 1 - Size(b), a)
    requires EvaluateFrom(stack, top - 1 - Size(b)) == (top - 1 - Size(b) - Size(a), Some(Denote(a)))
    ensures LaidOut(stack, top, Binary(name, f, a, b))
    ensures EvaluateFrom(stack, top) == (top - Size(Binary(name, f, a, b)), Some(Denote(Binary(name, f, a, b))))
  {
    BinaryStep(stack, top, name, f, top - 1 - Size(b), top - 1 - Size(b) - Size(a), Denote(b), Denote(a));
  }

  /** The binary case of `EvaluatedSpanIsLaidOut`. */
  lemma {:induction false} BinarySpanIsLaidOut(stack: seq<Operation>, position: int, name: string,
                                               f: (real, real) -> real)
    requires InRange(stack, position) && stack[position] == BinaryOperation(name, f)
    requires EvaluateFrom(stack, position).1.Some?
    ensures LaidOut(stack, position, SpanTree(stack, position))
    ensures EvaluateFrom(stack, position).0 == position - Size(SpanTree(stack, position))
    ensures Denote(SpanTree(stack, position)) == EvaluateFrom(stack, position).1.value
    decreases position + 1, 0
  {
    var left := EvaluateFrom(stack, position - 1);
    assert left.1.Some?;
    var right := EvaluateFrom(stack, left.0);
    EvaluatedSpanIsLaidOut(stack, position - 1);
    EvaluatedSpanIsLaidOut(stack, left.0);
    var a, b := SpanTree(stack, left.0), SpanTree(stack, position - 1);
    assert SpanTree(stack, position) == Binary(name, f, a, b);
    BinarySpanStep(stack, position, name, f, a, b);
  }

  /** The stack ends with the layout of `e`. */
  ghost predicate EndsWith(stack: seq<Operation>, e: Expr)
  {
    LaidOut(stack, |stack| - 1, e)
  }

  /** What evaluating from the top of the stack yields, in terms of both references. */
  lemma TopEvaluation(stack: seq<Operation>)
    ensures EvaluateFrom(stack, |stack| - 1).1.Some? <==> Supplies(stack, |stack| - 1, 1)
    ensures EvaluateFrom(stack, |stack| - 1).1.Some? ==>
      exists e :: EndsWith(stack, e) && Denote(e) == EvaluateFrom(stack, |stack| - 1).1.value
    ensures forall e :: EndsWith(stack, e) ==> EvaluateFrom(stack, |stack| - 1).1 == Some(Denote(e))
  {
    EvaluatesIffSupplies(stack, |stack| - 1);
    if EvaluateFrom(stack, |stack| - 1).1.Some? {
      EvaluatedSpanIsLaidOut(stack, |stack| - 1);
      assert EndsWith(stack, SpanTree(stack, |stack| - 1));
    }
    forall e | EndsWith(stack, e)
      ensures EvaluateFrom(stack, |stack| - 1).1 == Some(Denote(e))
    {
      EvaluateLaidOut(stack, |stack| - 1, e);
    }
  }

  /** An operator step of the evaluator whose (later) operand is missing. */
  lemma OperatorStepMissing(stack: seq<Operation>, top: int)
    requires InRange(stack, top) && !stack[top].Operand?
    requires EvaluateFrom(stack, top - 1).1.None?
    ensures EvaluateFrom(stack, top).1.None?
  {
  }

  /** A missing value stays missing under any operator pushed on top of it. */
  lemma NoneAbsorbsOperator(stack: seq<Operation>, op: Operation)
    requires !op.Operand?
    requires EvaluateFrom(stack, |stack| - 1).1.None?
    ensures EvaluateFrom(stack + [op], |stack|).1.None?
  {
    var whole := stack + [op];
    assert whole[|stack|] == op;
    if |stack| > 0 {
      EvaluateIgnoresAbove(stack, [op], |stack| - 1);
    }
    OperatorStepMissing(whole, |stack|);
  }

  /** A binary step of the evaluator whose earlier operand is missing. */
  lemma BinaryStepMissingEarlier(stack: seq<Operation>, top: int, middle: int, later: real)
    requires InRange(stack, top) && stack[top].BinaryOperation?
    requires EvaluateFrom(stack, top - 1) == (middle, Some(later))
    requires EvaluateFrom(stack, middle).1.None?
    ensures EvaluateFrom(stack, top).1.None?
  {
  }

  /**
   * A missing value stays missing as the earlier operand of a binary
   * operator, whatever well-formed later operand is laid out between them.
   */
  lemma NoneAbsorbsEarlierOperand(stack: seq<Operation>, earlier: int, later: Expr)
    requires EvaluateFrom(stack, earlier).1.None?
    requires LaidOut(stack, earlier + Size(later), later)
    requires InRange(stack, earlier + Size(later) + 1) && stack[earlier + Size(later) + 1].BinaryOperation?
    ensures EvaluateFrom(stack, earlier + Size(later) + 1).1.None?
  {
    var top := earlier + Size(later) + 1;
    EvaluateLaidOut(stack, top - 1, later);
    BinaryStepMissingEarlier(stack, top, earlier, Denote(later));
  }
}
