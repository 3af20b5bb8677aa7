/**
 * The expression tree the parser builds (ASTNodeConstant.hpp,
 * ASTNodeBinary.hpp, ASTNodeUnary.hpp, and the Nil leaf the printer
 * handles). Every node carries its token; children are owned pointers that
 * may be null, so they are Options, and as values they can be neither shared
 * nor cyclic.
 */
module Ast {
  import opened Wrappers
  import Tokens
  import opened Numbers

  /** The header declares Add .. Pow; Parser.cpp also builds the thirteen
      after them. */
  datatype BinaryOp =
    | Add | Sub | Mult | Div | Pow
    | Or | And
    | BitwiseOr | BitwiseAnd | BitwiseXor
    | Equality | NonEquality
    | Greater | GreaterEqual | Less | LessEqual
    | RShift | LShift

  datatype UnaryOp = Plus | Negate | Not | BitwiseNot

  /** The five ASTNodeConstant instantiations. */
  datatype ConstValue =
    | Int64Value(i: int64)
    | Float64Value(f: Float64)
    | BoolValue(b: bool)
    | StringValue(s: string)
    | CharValue(c: char)

  datatype Expr =
    | Constant(tok: Tokens.Token, value: ConstValue)
    | Nil(tok: Tokens.Token)
    | Unary(tok: Tokens.Token, uop: UnaryOp, branch: Option<Expr>)
    | Binary(tok: Tokens.Token, bop: BinaryOp, left: Option<Expr>, right: Option<Expr>)

  predicate InHeaderEnum(op: BinaryOp)
  {
    op in {Add, Sub, Mult, Div, Pow}
  }

  /** static_cast<int> of the operator: the header's order for its five
      enumerators; the others follow in the order Parser.cpp builds them. */
  function BinaryOrdinal(op: BinaryOp): (n: nat)
    ensures n < 18
    ensures InHeaderEnum(op) <==> n < 5
  {
    match op
    case Add => 0          case Sub => 1         case Mult => 2
    case Div => 3          case Pow => 4
    case Or => 5           case And => 6
    case BitwiseOr => 7    case BitwiseAnd => 8  case BitwiseXor => 9
    case Equality => 10    case NonEquality => 11
    case Greater => 12     case GreaterEqual => 13
    case Less => 14        case LessEqual => 15
    case RShift => 16      case LShift => 17
  }

  /** The enumerator with a given ordinal. */
  function BinaryOpOfOrdinal(n: nat): Option<BinaryOp>
  {
    if n == 0 then Some(Add) else if n == 1 then Some(Sub)
    else if n == 2 then Some(Mult) else if n == 3 then Some(Div)
    else if n == 4 then Some(Pow) else if n == 5 then Some(Or)
    else if n == 6 then Some(And) else if n == 7 then Some(BitwiseOr)
    else if n == 8 then Some(BitwiseAnd) else if n == 9 then Some(BitwiseXor)
    else if n == 10 then Some(Equality) else if n == 11 then Some(NonEquality)
    else if n == 12 then Some(Greater) else if n == 13 then Some(GreaterEqual)
    else if n == 14 then Some(Less) else if n == 15 then Some(LessEqual)
    else if n == 16 then Some(RShift) else if n == 17 then Some(LShift)
    else None
  }

  /** Ordinals identify operators: the ordinal printed determines the
      operator, and every ordinal below 18 is used. */
  lemma BinaryOrdinalBijective(op: BinaryOp, n: nat)
    ensures BinaryOpOfOrdinal(BinaryOrdinal(op)) == Some(op)
    ensures BinaryOpOfOrdinal(n).Some? <==> n < 18
    ensures BinaryOpOfOrdinal(n).Some? ==> BinaryOrdinal(BinaryOpOfOrdinal(n).value) == n
  {
  }

  function UnaryOrdinal(op: UnaryOp): (n: nat)
    ensures n < 4
  {
    match op
    case Plus => 0
    case Negate => 1
    case Not => 2
    case BitwiseNot => 3
  }

  function UnaryOpOfOrdinal(n: nat): Option<UnaryOp>
  {
    if n == 0 then Some(Plus) else if n == 1 then Some(Negate)
    else if n == 2 then Some(Not) else if n == 3 then Some(BitwiseNot)
    else None
  }

  lemma UnaryOrdinalBijective(op: UnaryOp, n: nat)
    ensures UnaryOpOfOrdinal(UnaryOrdinal(op)) == Some(op)
    ensures UnaryOpOfOrdinal(n).Some? <==> n < 4
    ensures UnaryOpOfOrdinal(n).Some? ==> UnaryOrdinal(UnaryOpOfOrdinal(n).value) == n
  {
  }

  function Size(e: Expr): nat
  {
    match e
    case Constant(_, _) => 1
    case Nil(_) => 1
    case Unary(_, _, b) => 1 + OptSize(b)
    case Binary(_, _, l, r) => 1 + OptSize(l) + OptSize(r)
  }

  function OptSize(e: Option<Expr>): nat
  {
    match e
    case None => 0
    case Some(x) => Size(x)
  }

  /** The non-null children, left before right. Constants and Nil are
      leaves; a unary node has at most one child, a binary node at most two,
      and every child is strictly smaller than its parent. */
  function Children(e: Expr): (cs: seq<Expr>)
    ensures e.Constant? || e.Nil? ==> cs == []
    ensures e.Unary? ==> |cs| == (if e.branch.Some? then 1 else 0)
    ensures e.Binary? ==> |cs| == (if e.left.Some? then 1 else 0) + (if e.right.Some? then 1 else 0)
    ensures forall i :: 0 <= i < |cs| ==> Size(cs[i]) < Size(e)
  {
    match e
    case Constant(_, _) => []
    case Nil(_) => []
    case Unary(_, _, b) => OptList(b)
    case Binary(_, _, l, r) => OptList(l) + OptList(r)
  }

  function OptList(e: Option<Expr>): (xs: seq<Expr>)
    ensures |xs| == if e.Some? then 1 else 0
    ensures e.Some? ==> xs[0] == e.value
  {
    match e
    case None => []
    case Some(x) => [x]
  }

  /** The total size is one more than the sum of the sizes of the children. */
  lemma SizeOfChildren(e: Expr)
    ensures Size(e) == 1 + SumSizes(Children(e))
  {
    match e
    case Constant(_, _) =>
    case Nil(_) =>
    case Unary(_, _, b) =>
    case Binary(_, _, l, r) =>
      SumSizesAppend(OptList(l), OptList(r));
  }

  function SumSizes(xs: seq<Expr>): nat
  {
    if xs == [] then 0 else Size(xs[0]) + SumSizes(xs[1..])
  }

  lemma {:induction false} SumSizesAppend(xs: seq<Expr>, ys: seq<Expr>)
    ensures SumSizes(xs + ys) == SumSizes(xs) + SumSizes(ys)
  {
    if xs != [] {
      assert (xs + ys)[0] == xs[0] && (xs + ys)[1..] == xs[1..] + ys;
      SumSizesAppend(xs[1..], ys);
    } else {
      assert xs + ys == ys;
    }
  }

  // ---------------------------------------------------------------------
  // Trees that differ only in their tokens

  /** a and b differ at most in their tokens. */
  predicate SameShape(a: Expr, b: Expr)
    decreases a
  {
    match a
    case Constant(_, v) => b.Constant? && b.value == v
    case Nil(_) => b.Nil?
    case Unary(_, op, x) => b.Unary? && b.uop == op && SameOptShape(x, b.branch)
    case Binary(_, op, l, r) =>
      b.Binary? && b.bop == op && SameOptShape(l, b.left) && SameOptShape(r, b.right)
  }

  predicate SameOptShape(x: Option<Expr>, y: Option<Expr>)
    decreases x
  {
    match x
    case None => y.None?
    case Some(u) => y.Some? && SameShape(u, y.value)
  }
}
