/**
 * The bounds test at the head of `evaluate(position)`
 * (CalculatorBrain.swift, line 50) rejects `position < 0` and
 * `position > stack.count`, so it lets `position == stack.count` through to
 * `stack[position]`, one past the last element. `EvaluateFrom` tests
 * `InRange` instead; the lemmas below say where the two differ and why the
 * difference never shows through the public `evaluate()`.
 */
module BoundsGuard {
  import opened Operations
  import opened Evaluation

  /** The test as written: the position is NOT rejected. */
  predicate PassesAsWritten(stack: seq<Operation>, position: int)
  {
    !(position < 0 || position > |stack|)
  }

  /** The as-written test admits the one position that is no index of the stack. */
  lemma AsWrittenAdmitsCount(stack: seq<Operation>)
    ensures PassesAsWritten(stack, |stack|)
    ensures !InRange(stack, |stack|)
  {
  }

  /** Below the count, the as-written test and `InRange` agree. */
  lemma GuardsAgreeBelowCount(stack: seq<Operation>, position: int)
    requires position < |stack|
    ensures PassesAsWritten(stack, position) <==> InRange(stack, position)
  {
  }

  /**
   * The public entry starts below the count and every position the walk
   * continues from lies below where it started, so the walk never reaches
   * the position the two tests disagree on.
   */
  lemma WalkStaysBelowCount(stack: seq<Operation>, position: int)
    requires position < |stack|
    ensures EvaluateFrom(stack, position).0 < |stack|
    ensures PassesAsWritten(stack, EvaluateFrom(stack, position).0) <==>
            InRange(stack, EvaluateFrom(stack, position).0)
  {
  }
}
