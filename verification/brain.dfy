/**
 The `CalculatorBrain` class (Calculator/CalculatorBrain.swift, lines 11-167)
 as an immutable value: its only stored state is the private history of steps
 (`operationSequence`, line 18); each mutator returns the brain with the
 history changed, and every query replays the history.
 */
module Brain {

  import opened Wrappers
  import opened Operations
  import opened Evaluator
  import EvaluatorProperties

  datatype CalculatorBrain = CalculatorBrain(history: seq<Step>)
  {
    /** `performOperation(symbol:)` (lines 96-98): records the symbol, known or not. */
    function PerformOperation(symbol: string): (b: CalculatorBrain)
      ensures |b.history| == |history| + 1
      ensures b.history[..|history|] == history
      ensures b.history[|history|] == OperationValue(symbol)
    {
      CalculatorBrain(history + [OperationValue(symbol)])
    }

    /** `setOperand(variable:)` (lines 100-102). */
    function SetVariable(name: string): (b: CalculatorBrain)
      ensures |b.history| == |history| + 1
      ensures b.history[..|history|] == history
      ensures b.history[|history|] == VariableValue(name)
    {
      CalculatorBrain(history + [VariableValue(name)])
    }

    /** `setOperand(operand:)` (lines 104-106). */
    function SetOperand(x: real): (b: CalculatorBrain)
      ensures |b.history| == |history| + 1
      ensures b.history[..|history|] == history
      ensures b.history[|history|] == OperandValue(x)
    {
      CalculatorBrain(history + [OperandValue(x)])
    }

    /** `clear()` (lines 108-110): afterwards every evaluation is the
        empty-history one. */
    function Clear(): (b: CalculatorBrain)
      ensures b.history == []
      ensures forall n: Numerics, vars: map<string, real> ::
                b.Evaluate(n, vars) == Output(Some(0.0), false, "")
    {
      CalculatorBrain([])
    }

    /** `undo()` (lines 112-116): drops the last step; an empty history stays empty. */
    function Undo(): (b: CalculatorBrain)
      ensures |history| == 0 ==> b.history == []
      ensures |history| > 0 ==> b.history + [history[|history| - 1]] == history
    {
      if |history| == 0 then this else CalculatorBrain(history[..|history| - 1])
    }

    /** `evaluate(using:)` (lines 20-94). A nil binding table behaves as the
        empty map, since line 87 reads both as 0. */
    function Evaluate(n: Numerics, vars: map<string, real>): (r: Output)
      ensures r.result == Some(Value(n, vars, Parsed(n, history).current))
      ensures r.isPending <==> Parsed(n, history).open.Some?
      ensures !r.isPending ==> r.description == Render(n, Parsed(n, history).current)
    {
      Evaluator.Evaluate(n, history, vars)
    }

    /** `result` (lines 149-153): the forced unwrap never fails, and with no
        history the result is 0. */
    function Result(n: Numerics): (r: real)
      ensures Evaluate(n, map[]).result == Some(r)
      ensures r == Value(n, map[], Parsed(n, history).current)
      ensures |history| == 0 ==> r == 0.0
    {
      Evaluate(n, map[]).result.value
    }

    /** `description` (lines 155-159), evaluated without variable bindings:
        the rendering of the entered expression once nothing is pending, and
        while an operation is pending a text that begins with its left operand
        and operator. */
    function Description(n: Numerics): (r: string)
      ensures Parsed(n, history).open.None? ==> r == Render(n, Parsed(n, history).current)
      ensures Parsed(n, history).open.Some? ==>
                var o := Parsed(n, history).open.value;
                BinaryLabel(o.binary, Render(n, o.left), "") <= r
    {
      Evaluate(n, map[]).description
    }

    /** `resultIsPending` (lines 161-165): a binary operation of the entered
        expression still waits for its right operand. */
    function ResultIsPending(n: Numerics): (r: bool)
      ensures r <==> Parsed(n, history).open.Some?
      ensures |history| == 0 ==> !r
    {
      Evaluate(n, map[]).isPending
    }
  }

  /** A new brain (line 18): no history. */
  const Fresh: CalculatorBrain := CalculatorBrain([])

  /** Undo right after any mutator gives back the brain as it was, and so
      every evaluation as it was. */
  lemma UndoRevertsMutator(b: CalculatorBrain, symbol: string, name: string, x: real)
    ensures b.PerformOperation(symbol).Undo() == b
    ensures b.SetVariable(name).Undo() == b
    ensures b.SetOperand(x).Undo() == b
  {
  }

  /** Undo on an empty history, or after clear, leaves the history empty. */
  lemma UndoOnEmpty(b: CalculatorBrain, n: Numerics, vars: map<string, real>)
    ensures Fresh.Undo() == Fresh
    ensures b.Clear().Undo() == Fresh
    ensures b.Clear().Undo().Evaluate(n, vars) == Output(Some(0.0), false, "")
  {
  }

  /** The loop of lines 81-93: one pass over the history updating the locals
      (packed into one `State`) in place, giving exactly the replay's output. */
  method EvaluateByLoop(n: Numerics, steps: seq<Step>, vars: map<string, real>) returns (r: Output)
    ensures r == Evaluator.Evaluate(n, steps, vars)
  {
    var st := Initial;
    var i := 0;
    while i < |steps|
      invariant 0 <= i <= |steps|
      invariant st == Replay(n, vars, steps[..i])
    {
      EvaluatorProperties.ReplaySnoc(n, vars, steps[..i], steps[i]);
      assert steps[..i + 1] == steps[..i] + [steps[i]];
      st := Apply(n, vars, st, steps[i]);
      i := i + 1;
    }
    assert steps[..i] == steps;
    r := Output(Some(st.accumulator), st.IsPartialResult(), st.DisplayDescription());
  }
}
