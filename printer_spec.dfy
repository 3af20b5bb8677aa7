/**
 * What ASTPrettyPrinter.cpp writes, as the sequence of lines a printer at a
 * given depth appends to its stream for one tree. A printer at depth d
 * prefixes each of its own lines with d tabs; children are printed by a
 * printer at depth d + 1, and a missing child by one `nullnode` line at the
 * parent's depth. Doubles are written by the stream's own formatting, which
 * is a parameter here.
 */
module PrinterSpec {
  import opened Wrappers
  import opened Numbers
  import opened Ast

  /** The m_tabstr of a printer: n tab characters. */
  function Tabs(n: nat): (s: string)
    ensures |s| == n
  {
    if n == 0 then "" else "\t" + Tabs(n - 1)
  }

  /** One line written by a depth d printer: its tabs, then the text. */
  function Line(d: nat, text: string): string
  {
    Tabs(d) + text
  }

  /** How many tabs a line starts with. */
  function LeadingTabs(s: string): (n: nat)
    ensures n <= |s|
  {
    if |s| > 0 && s[0] == '\t' then 1 + LeadingTabs(s[1..]) else 0
  }

  /** The word after `Type: ` for each constant type. */
  function TypeName(v: ConstValue): string
  {
    match v
    case Int64Value(_) => "Integer"
    case Float64Value(_) => "Float"
    case BoolValue(_) => "Boolean"
    case StringValue(_) => "String"
    case CharValue(_) => "Char"
  }

  /** What operator<< writes for the value itself. */
  function ValueText(v: ConstValue, fmt: Float64 -> string): string
  {
    match v
    case Int64Value(i) => IntToString(i as int)
    case Float64Value(f) => fmt(f)
    case BoolValue(b) => if b then "True" else "False"
    case StringValue(s) => s
    case CharValue(c) => [c]
  }

  /** The four lines every constant, and Nil, is printed as. */
  function ConstantBlock(d: nat, typeName: string, value: string): seq<string>
  {
    [Line(d, "Constant: {"), Line(d, "Type: " + typeName), Line(d, "Value: " + value), Line(d, "}")]
  }

  /** The lines a printer at depth d writes for e. */
  function Lines(e: Expr, d: nat, fmt: Float64 -> string): (ls: seq<string>)
    ensures |ls| >= 4
    ensures |ls| == 4 <==> e.Constant? || e.Nil?
    decreases e
  {
    match e
    case Constant(_, v) => ConstantBlock(d, TypeName(v), ValueText(v, fmt))
    case Nil(_) => ConstantBlock(d, "Nil", "Nil")
    case Unary(_, op, b) =>
      [Line(d, "Unary Op: {"), Line(d, "Type: " + IntToString(UnaryOrdinal(op)))]
      + SlotLines("Branch -> {", b, d, fmt)
    case Binary(_, op, l, r) =>
      [Line(d, "Binary Op: {"), Line(d, "Type: " + IntToString(BinaryOrdinal(op)))]
      + SlotLines("Lhs -> {", l, d, fmt)
      + SlotLines("Rhs -> {", r, d, fmt)
  }

  /** A labelled child slot, `Lhs -> {`, `Rhs -> {` or `Branch -> {`, and
      the `}` that closes it. */
  function SlotLines(heading: string, c: Option<Expr>, d: nat, fmt: Float64 -> string): (ls: seq<string>)
    ensures |ls| >= 3
    ensures |ls| == 3 <==> c.None?
    decreases c, 1
  {
    [Line(d, heading)] + ChildLines(c, d, fmt) + [Line(d, "}")]
  }

  /** A child slot of a node printed at depth d: the child through the
      depth d + 1 printer, or `nullnode` at depth d. */
  function ChildLines(c: Option<Expr>, d: nat, fmt: Float64 -> string): (ls: seq<string>)
    ensures |ls| >= 1
    ensures |ls| == 1 <==> c.None?
    decreases c, 0
  {
    match c
    case Some(x) => Lines(x, d + 1, fmt)
    case None => [Line(d, "nullnode")]
  }
}
