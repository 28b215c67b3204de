/**
 `evaluate` of the calculator brain (Calculator/CalculatorBrain.swift, lines
 20-94): a left-to-right replay of the recorded steps that keeps an
 accumulator, a description of the accumulator, an overall description and an
 optional pending binary operation, all local to one call.

 Its meaning is given by an expression tree: the recorded steps build an
 expression, and the result and the description are its value and its
 rendering. The replay computes numbers and strings separately; the contract
 of `Evaluate` says they never drift apart.
 */
module Evaluator {

  import opened Wrappers
  import opened Operations

  /** One recorded input (`SequenceValue`, lines 13-17). */
  datatype Step =
    | OperandValue(operand: real)
    | VariableValue(name: string)
    | OperationValue(symbol: string)

  /** `PendingBinaryOperationInfo` (lines 74-79): the binary closures are
      represented by the table kind that supplies them. */
  datatype PendingInfo = PendingInfo(binary: BinaryKind, firstOperand: real, descriptionOperand: string)

  /** The locals of one `evaluate` call (lines 22-25). */
  datatype State = State(
    accumulator: real,
    descriptionAccumulator: string,
    description: string,
    pending: Option<PendingInfo>)
  {
    /** `isPartialResult` (lines 26-30). */
    predicate IsPartialResult()
    {
      pending.Some?
    }

    /** `displayDescription` (lines 31-40): the overall description while an
        operation is pending, the description accumulator otherwise. */
    function DisplayDescription(): string
    {
      if IsPartialResult() then description else descriptionAccumulator
    }
  }

  /** The initial values of lines 22-25. */
  const Initial: State := State(0.0, "", "", None)

  /** The triple `evaluate` returns (line 21). */
  datatype Output = Output(result: Option<real>, isPending: bool, description: string)

  /** The value of a variable: a missing binding reads as zero (line 87). */
  function VariableOr0(vars: map<string, real>, name: string): (r: real)
    ensures name !in vars ==> r == 0.0
    ensures name in vars ==> r == vars[name]
  {
    if name in vars then vars[name] else 0.0
  }

  /** `executePendingBinaryOperation` (lines 65-72): completes the pending
      operation with the accumulator as its right operand. */
  function ExecutePending(n: Numerics, st: State): (r: State)
    ensures r.pending.None?
    ensures r.description == st.description
    ensures st.pending.None? ==> r == st
    ensures st.pending.Some? ==>
              && r.accumulator == ApplyBinary(n, st.pending.value.binary, st.pending.value.firstOperand, st.accumulator)
              && r.descriptionAccumulator == BinaryLabel(st.pending.value.binary, st.pending.value.descriptionOperand, st.descriptionAccumulator)
  {
    match st.pending
    case None => st
    case Some(p) =>
      st.(descriptionAccumulator := BinaryLabel(p.binary, p.descriptionOperand, st.descriptionAccumulator),
          accumulator := ApplyBinary(n, p.binary, p.firstOperand, st.accumulator),
          pending := None)
  }

  /** The nested `performOperation` (lines 42-63). An unknown symbol changes nothing. */
  function PerformOperation(n: Numerics, st: State, symbol: string): (r: State)
    ensures symbol !in Symbols() ==> r == st
    ensures symbol == "=" ==> r == ExecutePending(n, st)
  {
    match Lookup(n, symbol)
    case None => st
    case Some(op) =>
      match op
      case Constant(value, text) =>
        st.(accumulator := value, descriptionAccumulator := text)
      case Unary(k) =>
        var acc := ApplyUnary(n, k, st.accumulator);
        var desc := UnaryLabel(k, st.descriptionAccumulator);
        if st.IsPartialResult() then
          st.(accumulator := acc, descriptionAccumulator := desc,
              description := BinaryLabel(st.pending.value.binary, st.pending.value.descriptionOperand, desc))
        else
          st.(accumulator := acc, descriptionAccumulator := desc)
      case Binary(k) =>
        var resolved := ExecutePending(n, st);
        var p := PendingInfo(k, resolved.accumulator, resolved.descriptionAccumulator);
        resolved.(pending := Some(p), description := BinaryLabel(k, p.descriptionOperand, ""))
      case Equals =>
        ExecutePending(n, st)
  }

  /** One iteration of the loop of lines 81-92. */
  function Apply(n: Numerics, vars: map<string, real>, st: State, step: Step): (r: State)
  {
    match step
    case OperandValue(x) => st.(accumulator := x, descriptionAccumulator := n.format(x))
    case VariableValue(name) => st.(accumulator := VariableOr0(vars, name), descriptionAccumulator := name)
    case OperationValue(symbol) => PerformOperation(n, st, symbol)
  }

  /** The whole loop of lines 81-92, from a given state, front to back. */
  function Run(n: Numerics, vars: map<string, real>, st: State, steps: seq<Step>): State
    decreases |steps|
  {
    if |steps| == 0 then st else Run(n, vars, Apply(n, vars, st, steps[0]), steps[1..])
  }

  /** The state at the end of the loop, starting from the initial locals. */
  function Replay(n: Numerics, vars: map<string, real>, steps: seq<Step>): State
  {
    Run(n, vars, Initial, steps)
  }

  /** An expression as the user entered it. `Blank` is what stands before any
      operand has been entered (value 0, empty text). */
  datatype Expr =
    | Blank
    | Literal(x: real)
    | Name(name: string)
    | Const(value: real, text: string)
    | Un(unary: UnaryKind, arg: Expr)
    | Bin(binary: BinaryKind, left: Expr, right: Expr)

  function Value(n: Numerics, vars: map<string, real>, e: Expr): real
  {
    match e
    case Blank => 0.0
    case Literal(x) => x
    case Name(v) => VariableOr0(vars, v)
    case Const(v, _) => v
    case Un(k, a) => ApplyUnary(n, k, Value(n, vars, a))
    case Bin(k, l, r) => ApplyBinary(n, k, Value(n, vars, l), Value(n, vars, r))
  }

  function Render(n: Numerics, e: Expr): string
  {
    match e
    case Blank => ""
    case Literal(x) => n.format(x)
    case Name(v) => v
    case Const(_, t) => t
    case Un(k, a) => UnaryLabel(k, Render(n, a))
    case Bin(k, l, r) => BinaryLabel(k, Render(n, l), Render(n, r))
  }

  /** A binary operator waiting for its right operand. */
  datatype Open = Open(binary: BinaryKind, left: Expr)

  /** The expression under construction and the operation still open. */
  datatype Parse = Parse(current: Expr, open: Option<Open>)

  /** Completes the open operation, if any, with the current expression. */
  function Close(p: Parse): (r: Parse)
    ensures r.open.None?
  {
    match p.open
    case None => p
    case Some(o) => Parse(Bin(o.binary, o.left, p.current), None)
  }

  /** How one step extends the expression. */
  function Push(n: Numerics, p: Parse, step: Step): Parse
  {
    match step
    case OperandValue(x) => p.(current := Literal(x))
    case VariableValue(v) => p.(current := Name(v))
    case OperationValue(symbol) =>
      match Lookup(n, symbol)
      case None => p
      case Some(Constant(v, t)) => p.(current := Const(v, t))
      case Some(Unary(k)) => p.(current := Un(k, p.current))
      case Some(Binary(k)) =>
        var c := Close(p);
        Parse(c.current, Some(Open(k, c.current)))
      case Some(Equals) => Close(p)
  }

  function Build(n: Numerics, p: Parse, steps: seq<Step>): Parse
    decreases |steps|
  {
    if |steps| == 0 then p else Build(n, Push(n, p, steps[0]), steps[1..])
  }

  /** The expression an entire history builds. */
  function Parsed(n: Numerics, steps: seq<Step>): Parse
  {
    Build(n, Parse(Blank, None), steps)
  }

  /** The replay state is the value and rendering of the parse: the
      accumulator and its description are those of the current expression, the
      pending record holds those of the open operation's left operand, and the
      overall description shown while it is open starts with that operand
      and the operator. */
  ghost predicate Denotes(n: Numerics, vars: map<string, real>, st: State, p: Parse)
  {
    && st.accumulator == Value(n, vars, p.current)
    && st.descriptionAccumulator == Render(n, p.current)
    && (st.pending.None? <==> p.open.None?)
    && (p.open.Some? ==>
          var o := p.open.value;
          && st.pending.value == PendingInfo(o.binary, Value(n, vars, o.left), Render(n, o.left))
          && BinaryLabel(o.binary, Render(n, o.left), "") <= st.description)
  }

  /** Every step keeps the replay state and the parse in agreement. */
  lemma ApplyDenotes(n: Numerics, vars: map<string, real>, st: State, p: Parse, step: Step)
    requires Denotes(n, vars, st, p)
    ensures Denotes(n, vars, Apply(n, vars, st, step), Push(n, p, step))
  {
    if step.OperationValue? {
      match Lookup(n, step.symbol)
      case None =>
      case Some(Constant(v, t)) =>
      case Some(Unary(k)) =>
        if p.open.Some? {
          var o := p.open.value;
          BinaryLabelExtends(o.binary, Render(n, o.left), UnaryLabel(k, st.descriptionAccumulator));
        }
      case Some(Binary(k)) =>
      case Some(Equals) =>
    }
  }

  lemma {:induction false} RunDenotes(n: Numerics, vars: map<string, real>, st: State, p: Parse, steps: seq<Step>)
    requires Denotes(n, vars, st, p)
    ensures Denotes(n, vars, Run(n, vars, st, steps), Build(n, p, steps))
    decreases |steps|
  {
    if |steps| > 0 {
      ApplyDenotes(n, vars, st, p, steps[0]);
      RunDenotes(n, vars, Apply(n, vars, st, steps[0]), Push(n, p, steps[0]), steps[1..]);
    }
  }

  /** `evaluate(using:)` (lines 20-94). The result is never nil and is the
      value of the entered expression; the result is pending exactly when an
      operation is open; once nothing is open the description renders the
      expression, and while one is open (line 34) it begins with the rendered
      left operand and the operator. */
  function Evaluate(n: Numerics, steps: seq<Step>, vars: map<string, real>): (r: Output)
    ensures r.result == Some(Value(n, vars, Parsed(n, steps).current))
    ensures r.isPending <==> Parsed(n, steps).open.Some?
    ensures !r.isPending ==> r.description == Render(n, Parsed(n, steps).current)
    ensures r.isPending ==>
              var o := Parsed(n, steps).open.value;
              BinaryLabel(o.binary, Render(n, o.left), "") <= r.description
  {
    RunDenotes(n, vars, Initial, Parse(Blank, None), steps);
    var st := Replay(n, vars, steps);
    Output(Some(st.accumulator), st.IsPartialResult(), st.DisplayDescription())
  }
}
