/**
 The operation table of the calculator brain (Calculator/CalculatorBrain.swift,
 lines 126-147) and the numeric primitives it is built from.

 The numbers are Swift `Double`s; their arithmetic (sqrt, the trigonometric
 functions, pow, the four operators, the constants pi and e) and the
 locale-dependent `NumberFormatter` are not modelled. They are supplied as the
 fields of a `Numerics` record, so every result below holds for ANY choice of
 them: the model states the structural and textual behaviour, not the numerics.
 */
module Operations {

  import opened Wrappers

  /** The primitives the table uses, taken as parameters. */
  datatype Numerics = Numerics(
    sqrt: real -> real,
    cos: real -> real,
    sin: real -> real,
    tan: real -> real,
    negate: real -> real,
    power: (real, real) -> real,
    times: (real, real) -> real,
    divide: (real, real) -> real,
    plus: (real, real) -> real,
    minus: (real, real) -> real,
    pi: real,
    e: real,
    /** `formatNumber` (lines 118-124): at most six fractional digits, locale-aware. */
    format: real -> string)

  datatype UnaryKind = Sqrt | Cos | Sin | Tan | Negate

  datatype BinaryKind = Power | Times | Divide | Plus | Minus

  /** One entry of the table: the Swift `Operation` enum with its closures
      replaced by the kind that selects them. */
  datatype Operation =
    | Constant(value: real, text: string)
    | Unary(unary: UnaryKind)
    | Binary(binary: BinaryKind)
    | Equals

  /** The numeric function of a unary entry. */
  function ApplyUnary(n: Numerics, k: UnaryKind, x: real): real
  {
    match k
    case Sqrt => n.sqrt(x)
    case Cos => n.cos(x)
    case Sin => n.sin(x)
    case Tan => n.tan(x)
    case Negate => n.negate(x)
  }

  /** The text a unary entry puts before its operand; the label closes with ")". */
  function UnaryPrefix(k: UnaryKind): string
  {
    match k
    case Sqrt => "√("
    case Cos => "cos("
    case Sin => "sin("
    case Tan => "tan("
    case Negate => "-("
  }

  /** The description closure of a unary entry (lines 129-133). */
  function UnaryLabel(k: UnaryKind, s: string): (r: string)
    ensures |r| == |UnaryPrefix(k)| + |s| + 1
    ensures r[..|UnaryPrefix(k)|] == UnaryPrefix(k)
    ensures r[|UnaryPrefix(k)|..|r| - 1] == s
    ensures r[|r| - 1] == ')'
  {
    UnaryPrefix(k) + s + ")"
  }

  /** The numeric function of a binary entry. */
  function ApplyBinary(n: Numerics, k: BinaryKind, x: real, y: real): real
  {
    match k
    case Power => n.power(x, y)
    case Times => n.times(x, y)
    case Divide => n.divide(x, y)
    case Plus => n.plus(x, y)
    case Minus => n.minus(x, y)
  }

  /** The infix text of a binary entry. Multiplication is shown as a lower-case
      "x" (line 135), subtraction as an ASCII hyphen (line 138). */
  function Infix(k: BinaryKind): string
  {
    match k
    case Power => "^"
    case Times => "x"
    case Divide => "÷"
    case Plus => "+"
    case Minus => "-"
  }

  /** The description closure of a binary entry (lines 134-138). */
  function BinaryLabel(k: BinaryKind, left: string, right: string): (r: string)
    ensures |r| == |left| + |Infix(k)| + |right|
    ensures r[..|left|] == left
    ensures r[|left|..|left| + |Infix(k)|] == Infix(k)
    ensures r[|left| + |Infix(k)|..] == right
  {
    left + Infix(k) + right
  }

  /** The table itself (lines 126-140): the only symbols the brain understands. */
  function Table(n: Numerics): (t: map<string, Operation>)
    ensures t.Keys == Symbols()
  {
    map[
      "π" := Constant(n.pi, "π"),
      "e" := Constant(n.e, "e"),
      "√" := Unary(Sqrt),
      "cos" := Unary(Cos),
      "sin" := Unary(Sin),
      "tan" := Unary(Tan),
      "+/-" := Unary(Negate),
      "xʸ" := Binary(Power),
      "×" := Binary(Times),
      "÷" := Binary(Divide),
      "+" := Binary(Plus),
      "−" := Binary(Minus),
      "=" := Equals
    ]
  }

  /** `operations[symbol]`: the `if let` lookup of line 43. */
  function Lookup(n: Numerics, symbol: string): (r: Option<Operation>)
    ensures r.None? <==> symbol !in Symbols()
    ensures r.Some? ==> r.value == Table(n)[symbol]
  {
    if symbol in Table(n) then Some(Table(n)[symbol]) else None
  }

  /** The thirteen symbols of the table, independent of the numerics. */
  function Symbols(): set<string>
  {
    {"π", "e", "√", "cos", "sin", "tan", "+/-", "xʸ", "×", "÷", "+", "−", "="}
  }

  /** A binary label with an empty right side is a prefix of every completion
      of it: what is shown while an operation is pending extends to what is
      shown once its right operand is known. */
  lemma BinaryLabelExtends(k: BinaryKind, left: string, right: string)
    ensures BinaryLabel(k, left, "") <= BinaryLabel(k, left, right)
  {
  }
}
