/**
 * The printer of ASTPrettyPrinter.cpp as a class: every printer writes to
 * the same output stream and knows its depth; a node's children are printed
 * by a fresh printer one level deeper that shares the stream. The stream is
 * kept as the list of lines written to it so far.
 */
module Printer {
  import opened Wrappers
  import opened Numbers
  import opened Ast
  import opened Tokens
  import opened PrinterSpec

  /** The std::ostream the printers share. */
  class OutStream {
    var lines: seq<string>

    constructor()
      ensures lines == []
    {
      lines := [];
    }

    /** Writes one line. */
    method WriteLine(s: string)
      modifies this
      ensures lines == old(lines) + [s]
    {
      lines := lines + [s];
    }
  }

  class PrettyPrinter {
    const os: OutStream
    const tabs: nat
    const tabstr: string
    /** How the stream writes a double. */
    const fmt: Float64 -> string

    predicate Valid()
    {
      tabstr == Tabs(tabs)
    }

    constructor(os: OutStream, tabs: nat, fmt: Float64 -> string)
      ensures this.os == os && this.tabs == tabs && this.fmt == fmt
      ensures Valid()
    {
      this.os := os;
      this.tabs := tabs;
      this.tabstr := Tabs(tabs);
      this.fmt := fmt;
    }

    /** Writes the printer's tabs, then text, as one line. */
    method Emit(text: string)
      requires Valid()
      modifies os
      ensures os.lines == old(os.lines) + [Line(tabs, text)]
    {
      os.WriteLine(tabstr + text);
    }

    /** node.visit(printer): the overload for the node's kind. */
    method Visit(e: Expr)
      requires Valid()
      modifies os
      ensures os.lines == old(os.lines) + Lines(e, tabs, fmt)
      decreases e, 1
    {
      match e
      case Constant(_, v) => VisitConstant(v);
      case Nil(_) => VisitNil();
      case Unary(t, op, b) => VisitUnary(t, op, b);
      case Binary(t, op, l, r) => VisitBinary(t, op, l, r);
    }

    /** The five ASTNodeConstant overloads. */
    method VisitConstant(v: ConstValue)
      requires Valid()
      modifies os
      ensures os.lines == old(os.lines) + ConstantBlock(tabs, TypeName(v), ValueText(v, fmt))
    {
      Emit("Constant: {");
      Emit("Type: " + TypeName(v));
      match v {
        case Int64Value(i) => Emit("Value: " + IntToString(i as int));
        case Float64Value(f) => Emit("Value: " + fmt(f));
        case BoolValue(b) =>
          if b {
            Emit("Value: " + "True");
          } else {
            Emit("Value: " + "False");
          }
        case StringValue(s) => Emit("Value: " + s);
        case CharValue(c) => Emit("Value: " + [c]);
      }
      Emit("}");
    }

    /** The Nil overload: the node's token is read and ignored. */
    method VisitNil()
      requires Valid()
      modifies os
      ensures os.lines == old(os.lines) + ConstantBlock(tabs, "Nil", "Nil")
    {
      Emit("Constant: {");
      Emit("Type: " + "Nil");
      Emit("Value: " + "Nil");
      Emit("}");
    }

    method VisitBinary(t: Token, op: BinaryOp, left: Option<Expr>, right: Option<Expr>)
      requires Valid()
      modifies os
      ensures os.lines == old(os.lines) + Lines(Binary(t, op, left, right), tabs, fmt)
      decreases Binary(t, op, left, right), 0
    {
      EmitHeader("Binary Op: {", IntToString(BinaryOrdinal(op)));
      var printer := new PrettyPrinter(os, tabs + 1, fmt);
      VisitSlot(printer, "Lhs -> {", left);
      VisitSlot(printer, "Rhs -> {", right);
    }

    method VisitUnary(t: Token, op: UnaryOp, branch: Option<Expr>)
      requires Valid()
      modifies os
      ensures os.lines == old(os.lines) + Lines(Unary(t, op, branch), tabs, fmt)
      decreases Unary(t, op, branch), 0
    {
      EmitHeader("Unary Op: {", IntToString(UnaryOrdinal(op)));
      var printer := new PrettyPrinter(os, tabs + 1, fmt);
      VisitSlot(printer, "Branch -> {", branch);
    }

    /** The two lines an operator node starts with: its kind and the
        operator's ordinal. */
    method EmitHeader(kind: string, ordinal: string)
      requires Valid()
      modifies os
      ensures os.lines == old(os.lines) + [Line(tabs, kind), Line(tabs, "Type: " + ordinal)]
    {
      Emit(kind);
      Emit("Type: " + ordinal);
    }

    /** A labelled child slot: the heading line, the child through the deeper
        printer or a `nullnode` line from this one, and the closing brace. */
    method VisitSlot(printer: PrettyPrinter, heading: string, c: Option<Expr>)
      requires Valid() && printer.Valid()
      requires printer.os == os && printer.tabs == tabs + 1 && printer.fmt == fmt
      modifies os
      ensures os.lines == old(os.lines) + SlotLines(heading, c, tabs, fmt)
      decreases c, 2
    {
      Emit(heading);
      if c.Some? {
        printer.Visit(c.value);
      } else {
        Emit("nullnode");
      }
      Emit("}");
    }
  }
}
