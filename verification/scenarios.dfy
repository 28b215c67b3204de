/**
 Concrete histories replayed by `evaluate` (Calculator/CalculatorBrain.swift,
 lines 20-94), for arbitrary numerics and formatting.
 */
module Scenarios {

  import opened Wrappers
  import opened Operations
  import opened Evaluator
  import EvaluatorProperties

  /** The state the replay of a + b = ends in, one step at a time. */
  lemma ReplayAddThenEquals(n: Numerics, vars: map<string, real>, a: real, b: real)
    ensures Replay(n, vars, [OperandValue(a), OperationValue("+"), OperandValue(b), OperationValue("=")])
         == State(n.plus(a, b), n.format(a) + "+" + n.format(b), n.format(a) + "+", None)
  {
    var fa, fb := n.format(a), n.format(b);
    var steps := [OperandValue(a), OperationValue("+"), OperandValue(b), OperationValue("=")];
    var s1 := [OperandValue(a)];
    var s2 := s1 + [OperationValue("+")];
    var s3 := s2 + [OperandValue(b)];
    var s4 := s3 + [OperationValue("=")];
    var open := State(a, fa, fa + "+", Some(PendingInfo(Plus, a, fa)));
    assert Replay(n, vars, s1) == State(a, fa, "", None) by {
      EvaluatorProperties.ReplaySnoc(n, vars, [], OperandValue(a));
      assert [] + [OperandValue(a)] == s1;
    }
    assert Replay(n, vars, s2) == open by {
      EvaluatorProperties.ReplaySnoc(n, vars, s1, OperationValue("+"));
      assert Lookup(n, "+") == Some(Binary(Plus));
    }
    assert Replay(n, vars, s3) == open.(accumulator := b, descriptionAccumulator := fb) by {
      EvaluatorProperties.ReplaySnoc(n, vars, s2, OperandValue(b));
    }
    assert Replay(n, vars, s4) == State(n.plus(a, b), fa + "+" + fb, fa + "+", None) by {
      EvaluatorProperties.ReplaySnoc(n, vars, s3, OperationValue("="));
    }
    assert s4 == steps;
  }

  /** The square-root label nested inside an addition's label, as one text. */
  lemma SqrtInsidePlus(fa: string, fb: string)
    ensures BinaryLabel(Plus, fa, UnaryLabel(Sqrt, fb)) == fa + "+√(" + fb + ")"
  {
  }

  /** The state the replay of a + b √ ends in, one step at a time. */
  lemma ReplayUnaryWhilePending(n: Numerics, vars: map<string, real>, a: real, b: real)
    ensures Replay(n, vars, [OperandValue(a), OperationValue("+"), OperandValue(b), OperationValue("√")])
         == State(n.sqrt(b), "√(" + n.format(b) + ")", n.format(a) + "+√(" + n.format(b) + ")", Some(PendingInfo(Plus, a, n.format(a))))
  {
    var fa, fb := n.format(a), n.format(b);
    var steps := [OperandValue(a), OperationValue("+"), OperandValue(b), OperationValue("√")];
    var s1 := [OperandValue(a)];
    var s2 := s1 + [OperationValue("+")];
    var s3 := s2 + [OperandValue(b)];
    var s4 := s3 + [OperationValue("√")];
    var open := State(a, fa, fa + "+", Some(PendingInfo(Plus, a, fa)));
    assert Replay(n, vars, s1) == State(a, fa, "", None) by {
      EvaluatorProperties.ReplaySnoc(n, vars, [], OperandValue(a));
      assert [] + [OperandValue(a)] == s1;
    }
    assert Replay(n, vars, s2) == open by {
      EvaluatorProperties.ReplaySnoc(n, vars, s1, OperationValue("+"));
      assert Lookup(n, "+") == Some(Binary(Plus));
    }
    assert Replay(n, vars, s3) == open.(accumulator := b, descriptionAccumulator := fb) by {
      EvaluatorProperties.ReplaySnoc(n, vars, s2, OperandValue(b));
    }
    assert Replay(n, vars, s4) == open.(accumulator := n.sqrt(b), descriptionAccumulator := "√(" + fb + ")",
                                        description := fa + "+√(" + fb + ")") by {
      EvaluatorProperties.ReplaySnoc(n, vars, s3, OperationValue("√"));
      assert Lookup(n, "√") == Some(Unary(Sqrt));
      SqrtInsidePlus(fa, fb);
    }
    assert s4 == steps;
  }

  /** The state the replay of a + b × ends in, one step at a time. */
  lemma ReplayChain(n: Numerics, vars: map<string, real>, a: real, b: real)
    ensures Replay(n, vars, [OperandValue(a), OperationValue("+"), OperandValue(b), OperationValue("×")])
         == State(n.plus(a, b), n.format(a) + "+" + n.format(b), n.format(a) + "+" + n.format(b) + "x", Some(PendingInfo(Times, n.plus(a, b), n.format(a) + "+" + n.format(b))))
  {
    var fa, fb := n.format(a), n.format(b);
    var steps := [OperandValue(a), OperationValue("+"), OperandValue(b), OperationValue("×")];
    var s1 := [OperandValue(a)];
    var s2 := s1 + [OperationValue("+")];
    var s3 := s2 + [OperandValue(b)];
    var s4 := s3 + [OperationValue("×")];
    var open := State(a, fa, fa + "+", Some(PendingInfo(Plus, a, fa)));
    assert Replay(n, vars, s1) == State(a, fa, "", None) by {
      EvaluatorProperties.ReplaySnoc(n, vars, [], OperandValue(a));
      assert [] + [OperandValue(a)] == s1;
    }
    assert Replay(n, vars, s2) == open by {
      EvaluatorProperties.ReplaySnoc(n, vars, s1, OperationValue("+"));
      assert Lookup(n, "+") == Some(Binary(Plus));
    }
    assert Replay(n, vars, s3) == open.(accumulator := b, descriptionAccumulator := fb) by {
      EvaluatorProperties.ReplaySnoc(n, vars, s2, OperandValue(b));
    }
    assert Replay(n, vars, s4) == State(n.plus(a, b), fa + "+" + fb, fa + "+" + fb + "x", Some(PendingInfo(Times, n.plus(a, b), fa + "+" + fb))) by {
      EvaluatorProperties.ReplaySnoc(n, vars, s3, OperationValue("×"));
      assert Lookup(n, "×") == Some(Binary(Times));
    }
    assert s4 == steps;
  }

  /** a + b = (3 + 4 = for instance) completes the addition and describes it
      as "a+b". */
  lemma AddThenEquals(n: Numerics, vars: map<string, real>, a: real, b: real)
    ensures Evaluate(n, [OperandValue(a), OperationValue("+"), OperandValue(b), OperationValue("=")], vars)
         == Output(Some(n.plus(a, b)), false, n.format(a) + "+" + n.format(b))
  {
    ReplayAddThenEquals(n, vars, a, b);
    EvaluatorProperties.OutputOfReplay(n, vars, [OperandValue(a), OperationValue("+"), OperandValue(b), OperationValue("=")],
                                       State(n.plus(a, b), n.format(a) + "+" + n.format(b), n.format(a) + "+", None));
  }

  /** 3 + 4 without "=": the addition stays pending, the result is the last
      operand and the description still reads "3+" (an operand never updates
      the overall description, line 34). */
  lemma AddWithoutEquals(n: Numerics, vars: map<string, real>)
    ensures Evaluate(n, [OperandValue(3.0), OperationValue("+"), OperandValue(4.0)], vars)
         == Output(Some(4.0), true, n.format(3.0) + "+")
  {
  }

  /** 9 √ gives sqrt(9), described as "√(9)". */
  lemma SquareRoot(n: Numerics, vars: map<string, real>)
    ensures Evaluate(n, [OperandValue(9.0), OperationValue("√")], vars)
         == Output(Some(n.sqrt(9.0)), false, "√(" + n.format(9.0) + ")")
  {
  }

  /** a + b √ (3 + 9 √ for instance): the square root is shown nested inside
      the open addition. */
  lemma UnaryWhilePending(n: Numerics, vars: map<string, real>, a: real, b: real)
    ensures Evaluate(n, [OperandValue(a), OperationValue("+"), OperandValue(b), OperationValue("√")], vars)
         == Output(Some(n.sqrt(b)), true, n.format(a) + "+√(" + n.format(b) + ")")
  {
    ReplayUnaryWhilePending(n, vars, a, b);
    EvaluatorProperties.OutputOfReplay(n, vars, [OperandValue(a), OperationValue("+"), OperandValue(b), OperationValue("√")], State(n.sqrt(b), "√(" + n.format(b) + ")", n.format(a) + "+√(" + n.format(b) + ")", Some(PendingInfo(Plus, a, n.format(a)))));
  }

  /** M + 5 = with M bound to 2: the variable is read from the bindings and
      described by its name. */
  lemma VariableThenEquals(n: Numerics)
    ensures Evaluate(n, [VariableValue("M"), OperationValue("+"), OperandValue(5.0), OperationValue("=")], map["M" := 2.0])
         == Output(Some(n.plus(2.0, 5.0)), false, "M+" + n.format(5.0))
  {
  }

  /** An unbound variable reads as 0. */
  lemma UnboundVariable(n: Numerics)
    ensures Evaluate(n, [VariableValue("M")], map[]) == Output(Some(0.0), false, "M")
  {
  }

  /** a + b ×: the addition is completed before the multiplication opens,
      which is labelled with a lower-case "x". */
  lemma ChainResolvesFirst(n: Numerics, vars: map<string, real>, a: real, b: real)
    ensures Evaluate(n, [OperandValue(a), OperationValue("+"), OperandValue(b), OperationValue("×")], vars)
         == Output(Some(n.plus(a, b)), true, n.format(a) + "+" + n.format(b) + "x")
  {
    ReplayChain(n, vars, a, b);
    EvaluatorProperties.OutputOfReplay(n, vars, [OperandValue(a), OperationValue("+"), OperandValue(b), OperationValue("×")], State(n.plus(a, b), n.format(a) + "+" + n.format(b), n.format(a) + "+" + n.format(b) + "x", Some(PendingInfo(Times, n.plus(a, b), n.format(a) + "+" + n.format(b)))));
  }

  /** "%" is not in the table, so appending it changes nothing. */
  lemma PercentIgnored(n: Numerics, vars: map<string, real>)
    ensures Evaluate(n, [OperandValue(3.0), OperationValue("%")], vars)
         == Evaluate(n, [OperandValue(3.0)], vars)
  {
  }
}
