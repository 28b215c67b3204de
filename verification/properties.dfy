/**
 What one more recorded step does to the output of `evaluate`
 (Calculator/CalculatorBrain.swift, lines 20-94), stated for every history
 that precedes it.
 */
module EvaluatorProperties {

  import opened Wrappers
  import opened Operations
  import opened Evaluator

  /** Replaying a concatenation replays the first part, then the second from
      where the first left off. */
  lemma {:induction false} RunAppend(n: Numerics, vars: map<string, real>, st: State, s: seq<Step>, t: seq<Step>)
    ensures Run(n, vars, st, s + t) == Run(n, vars, Run(n, vars, st, s), t)
    decreases |s|
  {
    if |s| == 0 {
      assert s + t == t;
    } else {
      assert (s + t)[0] == s[0];
      assert (s + t)[1..] == s[1..] + t;
      RunAppend(n, vars, Apply(n, vars, st, s[0]), s[1..], t);
    }
  }

  /** Appending a step to the history applies exactly that step to the state
      the history left behind. */
  lemma ReplaySnoc(n: Numerics, vars: map<string, real>, steps: seq<Step>, step: Step)
    ensures Replay(n, vars, steps + [step]) == Apply(n, vars, Replay(n, vars, steps), step)
  {
    RunAppend(n, vars, Initial, steps, [step]);
  }

  /** The output of `evaluate` is read off the state the replay ends in
      (line 93): its accumulator, whether an operation is pending, and the
      displayed description. */
  lemma OutputOfReplay(n: Numerics, vars: map<string, real>, steps: seq<Step>, st: State)
    requires Replay(n, vars, steps) == st
    ensures Evaluate(n, steps, vars) == Output(Some(st.accumulator), st.pending.Some?, st.DisplayDescription())
  {
  }

  /** An empty history evaluates to result 0, nothing pending and an empty description. */
  lemma EmptyHistory(n: Numerics, vars: map<string, real>)
    ensures Evaluate(n, [], vars) == Output(Some(0.0), false, "")
  {
  }

  /** Appending a symbol the table does not know leaves all three outputs unchanged. */
  lemma UnknownSymbolIsNoOp(n: Numerics, vars: map<string, real>, steps: seq<Step>, symbol: string)
    requires symbol !in Symbols()
    ensures Evaluate(n, steps + [OperationValue(symbol)], vars) == Evaluate(n, steps, vars)
  {
    ReplaySnoc(n, vars, steps, OperationValue(symbol));
  }

  /** Right after a binary operator the result is pending, the result shown is
      the value with any earlier pending operation completed, and the
      description is that value's description followed by the operator with an
      empty right side. */
  lemma PendingAfterBinary(n: Numerics, vars: map<string, real>, steps: seq<Step>, symbol: string, k: BinaryKind)
    requires symbol in Table(n) && Table(n)[symbol] == Binary(k)
    ensures var resolved := ExecutePending(n, Replay(n, vars, steps));
            var r := Evaluate(n, steps + [OperationValue(symbol)], vars);
            && r.isPending
            && r.result == Some(resolved.accumulator)
            && r.description == resolved.descriptionAccumulator + Infix(k)
  {
    ReplaySnoc(n, vars, steps, OperationValue(symbol));
  }

  /** A binary operator opens a new pending operation whose left operand is
      the accumulator after completing the previous one. */
  lemma BinaryOpensPending(n: Numerics, vars: map<string, real>, steps: seq<Step>, symbol: string, k: BinaryKind)
    requires symbol in Table(n) && Table(n)[symbol] == Binary(k)
    ensures var resolved := ExecutePending(n, Replay(n, vars, steps));
            Replay(n, vars, steps + [OperationValue(symbol)]).pending
              == Some(PendingInfo(k, resolved.accumulator, resolved.descriptionAccumulator))
  {
    ReplaySnoc(n, vars, steps, OperationValue(symbol));
  }

  /** After "=" nothing is pending: a pending operation is completed with the
      accumulator as its right operand, and without one the output is the
      accumulator and its description. */
  lemma ResolvedAfterEquals(n: Numerics, vars: map<string, real>, steps: seq<Step>)
    ensures var prev := Replay(n, vars, steps);
            var r := Evaluate(n, steps + [OperationValue("=")], vars);
            && !r.isPending
            && (prev.pending.None? ==>
                  r == Output(Some(prev.accumulator), false, prev.descriptionAccumulator))
            && (prev.pending.Some? ==>
                  var p := prev.pending.value;
                  r == Output(Some(ApplyBinary(n, p.binary, p.firstOperand, prev.accumulator)),
                              false,
                              BinaryLabel(p.binary, p.descriptionOperand, prev.descriptionAccumulator)))
  {
    ReplaySnoc(n, vars, steps, OperationValue("="));
  }

  /** A unary operator applies its function to the accumulator and its label to
      the description; while an operation is pending the shown description is
      the pending label around the new description, and the operation stays pending. */
  lemma UnaryStep(n: Numerics, vars: map<string, real>, steps: seq<Step>, symbol: string, k: UnaryKind)
    requires symbol in Table(n) && Table(n)[symbol] == Unary(k)
    ensures var prev := Replay(n, vars, steps);
            var desc := UnaryLabel(k, prev.descriptionAccumulator);
            var r := Evaluate(n, steps + [OperationValue(symbol)], vars);
            && r.result == Some(ApplyUnary(n, k, prev.accumulator))
            && r.isPending == prev.pending.Some?
            && (prev.pending.None? ==> r.description == desc)
            && (prev.pending.Some? ==>
                  r.description == BinaryLabel(prev.pending.value.binary, prev.pending.value.descriptionOperand, desc))
  {
    ReplaySnoc(n, vars, steps, OperationValue(symbol));
  }

  /** A constant sets the accumulator and its description and leaves a pending
      operation, and the description shown with it, untouched. */
  lemma ConstantStep(n: Numerics, vars: map<string, real>, steps: seq<Step>, symbol: string, value: real, text: string)
    requires symbol in Table(n) && Table(n)[symbol] == Constant(value, text)
    ensures var prev := Replay(n, vars, steps);
            var r := Evaluate(n, steps + [OperationValue(symbol)], vars);
            && r.result == Some(value)
            && r.isPending == prev.pending.Some?
            && r.description == (if prev.pending.Some? then prev.description else text)
  {
    ReplaySnoc(n, vars, steps, OperationValue(symbol));
  }

  /** An operand sets the accumulator to its value and the description
      accumulator to its formatted text; a pending operation and the description
      shown with it are untouched. */
  lemma OperandStep(n: Numerics, vars: map<string, real>, steps: seq<Step>, x: real)
    ensures var prev := Replay(n, vars, steps);
            var r := Evaluate(n, steps + [OperandValue(x)], vars);
            && r.result == Some(x)
            && r.isPending == prev.pending.Some?
            && r.description == (if prev.pending.Some? then prev.description else n.format(x))
  {
    ReplaySnoc(n, vars, steps, OperandValue(x));
  }

  /** A variable reads its binding, or 0 when it has none, and is described by
      its bare name; a pending operation and the description shown with it are untouched. */
  lemma VariableStep(n: Numerics, vars: map<string, real>, steps: seq<Step>, name: string)
    ensures var prev := Replay(n, vars, steps);
            var r := Evaluate(n, steps + [VariableValue(name)], vars);
            && r.result == Some(if name in vars then vars[name] else 0.0)
            && r.isPending == prev.pending.Some?
            && r.description == (if prev.pending.Some? then prev.description else name)
  {
    ReplaySnoc(n, vars, steps, VariableValue(name));
  }
}
