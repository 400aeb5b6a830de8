/**
 * The `CalculatorBrain` class of CalculatorBrain.swift: the registry it is
 * built with, the stack its mutators append to and its public evaluation.
 */
module Brain {
  import opened Wrappers
  import opened Operations
  import opened Evaluation

  class CalculatorBrain {
    /** The registry; shared by all brains in the source, built once per brain here. */
    const knownOperations: map<string, Operation>
    /** The recorded operations, oldest first. */
    var stack: seq<Operation>

    constructor (math: MathLib)
      ensures knownOperations == KnownOperations(math)
      ensures stack == []
    {
      var operations := BuildKnownOperations(math);
      knownOperations := operations;
      stack := [];
    }

    /** Records an operand on top of the stack. */
    method PushOperand(value: real)
      modifies this
      ensures stack == old(stack) + [Operand(value)]
      ensures |stack| == |old(stack)| + 1 && stack[|stack| - 1] == Operand(value)
      ensures stack[..|old(stack)|] == old(stack)
    {
      stack := stack + [Operand(value)];
    }

    /** Records the registered operation for `symbol`; ignores unknown symbols. */
    method PerformOperation(symbol: string)
      modifies this
      ensures symbol in knownOperations ==> stack == old(stack) + [knownOperations[symbol]]
      ensures symbol !in knownOperations ==> stack == old(stack)
    {
      if symbol in knownOperations {
        stack := stack + [knownOperations[symbol]];
      }
    }

    /**
     * The value of the expression on top of the stack, or None when an
     * operator lacks operands (the empty stack included). A function: it
     * reads the stack and cannot change it.
     */
    function Evaluate(): (r: Option<real>)
      reads this
      ensures stack == [] ==> r.None?
      ensures r.Some? <==> Supplies(stack, |stack| - 1, 1)
      ensures r.Some? ==> exists e :: EndsWith(stack, e) && Denote(e) == r.value
      ensures forall e :: EndsWith(stack, e) ==> r == Some(Denote(e))
    {
      TopEvaluation(stack);
      EvaluateFrom(stack, |stack| - 1).1
    }
  }
}
