/**
 * The parser object of Parser.hpp / Parser.cpp: the two-token window
 * (m_previous, m_current) over the scanner's tokens, one method per parse
 * function, each tier a `for (;;)` loop that reassigns lhs. The scanner is
 * modelled by the sequence of tokens its next() calls return (ending in
 * Eof) and the index of the current one. Every parse method is proved to
 * return what ParserSpec.Parse gives under the parser's node-token rule
 * (AsWritten is the code as written; Corrected builds each operator node
 * with its operator token), and to leave m_previous on the last token it
 * consumed. The loop body of each tier is its own method, one turn of the
 * loop. The error and panic flags are outside every modifies clause, so no method
 * changes them.
 */
module Parser {
  import opened Wrappers
  import opened Tokens
  import opened Numbers
  import opened Ast
  import opened ParserSpec

  class Parser {
    /** The tokens successive m_lexer.next() calls return. */
    const toks: seq<Token>
    /** Which token each operator node is built with: AsWritten is
        Parser.cpp, which reads m_previous after the operand is parsed. */
    const rule: NodeTokenRule
    /** Index in toks of m_current. */
    var pos: nat
    var previous: Token
    /** Index in toks of m_previous. A parse method that consumes tokens
        leaves it on the last one consumed, which is the token Parser.cpp
        builds an operator node with. */
    ghost var prevPos: nat
    var current: Token
    var ast: Option<Expr>
    var hadError: bool
    var panicMode: bool

    ghost predicate Valid()
      reads this
    {
      && WellFormed(toks)
      && pos < |toks|
      && current == toks[pos]
      && prevPos <= pos && previous == toks[prevPos]
    }

    /** Parser(lexer): both window tokens are the first token; no tree, no
        error, no panic. */
    constructor (ts: seq<Token>, r: NodeTokenRule)
      requires WellFormed(ts)
      ensures toks == ts && rule == r && pos == 0
      ensures previous == ts[0] && current == ts[0]
      ensures ast == None && !hadError && !panicMode
      ensures Valid()
    {
      toks, rule := ts, r;
      pos := 0;
      previous, current := ts[0], ts[0];
      prevPos := 0;
      ast := None;
      hadError, panicMode := false, false;
    }

    /** advance(): m_current moves into m_previous and exactly one new token
        is pulled. Past the final Eof the scanner keeps returning Eof, which
        the index modelling the scanner stays on. */
    method Advance() returns (t: Token)
      requires Valid()
      modifies this`pos, this`previous, this`prevPos, this`current
      ensures Valid()
      ensures previous == old(current) && prevPos == old(pos)
      ensures pos == if old(pos) + 1 < |toks| then old(pos) + 1 else old(pos)
      ensures t == current
    {
      previous, prevPos := current, pos;
      if pos + 1 < |toks| {
        pos := pos + 1;
      }
      current := toks[pos];
      return current;
    }

    /** match(type): advances exactly when the current token has that kind;
        otherwise the window and the scanner are untouched. */
    method Match(kind: TokenKind) returns (matched: bool)
      requires Valid()
      modifies this`pos, this`previous, this`prevPos, this`current
      ensures Valid()
      ensures matched == (old(current).kind == kind)
      ensures matched ==> previous == old(current) && prevPos == old(pos)
      ensures matched && kind != Eof ==> pos == old(pos) + 1
      ensures !matched ==> pos == old(pos) && previous == old(previous) && prevPos == old(prevPos) && current == old(current)
    {
      if kind == current.kind {
        var _ := Advance();
        return true;
      }
      return false;
    }

    /** parse(): one expression; trailing tokens are left unconsumed. */
    method Parse() returns (e: Option<Expr>)
      requires Valid()
      modifies this`pos, this`previous, this`prevPos, this`current
      ensures Valid()
      ensures Parsed(e, pos) == ParserSpec.Parse(toks, rule, 0, old(pos))
      ensures prevPos == if pos == old(pos) then old(prevPos) else pos - 1
    {
      e := ParseExpression();
    }

    method ParseExpression() returns (e: Option<Expr>)
      requires Valid()
      modifies this`pos, this`previous, this`prevPos, this`current
      ensures Valid()
      ensures Parsed(e, pos) == ParserSpec.Parse(toks, rule, 0, old(pos))
      ensures prevPos == if pos == old(pos) then old(prevPos) else pos - 1
      decreases |toks| - pos, 20
    {
      e := ParseOrAnd();
    }

    /** parseOrAnd(): the tier-0 loop. */
    method ParseOrAnd() returns (lhs: Option<Expr>)
      requires Valid()
      modifies this`pos, this`previous, this`prevPos, this`current
      ensures Valid()
      ensures Parsed(lhs, pos) == ParserSpec.Parse(toks, rule, 0, old(pos))
      ensures prevPos == if pos == old(pos) then old(prevPos) else pos - 1
      decreases |toks| - pos, 19
    {
      lhs := ParseBitwiseOrAndXor();
      TierEntry(toks, rule, 0, old(pos), lhs, pos);
      while true
        invariant Valid() && old(pos) <= pos
        invariant prevPos == if pos == old(pos) then old(prevPos) else pos - 1
        invariant TierLoop(toks, rule, 0, lhs, pos) == ParserSpec.Parse(toks, rule, 0, old(pos))
        decreases |toks| - pos
      {
        var more, next := OrAndTurn(lhs);
        if !more {
          break;
        }
        lhs := next;
      }
    }

    /** One turn of the loop of parseOrAnd: on an operator of tier 0, the
        operator and the next operand are consumed and the node is built;
        otherwise nothing is consumed and the loop breaks. */
    method OrAndTurn(lhs: Option<Expr>) returns (more: bool, next: Option<Expr>)
      requires Valid()
      modifies this`pos, this`previous, this`prevPos, this`current
      ensures Valid()
      ensures more == TierOp(0, toks[old(pos)].kind).Some?
      ensures !more ==> pos == old(pos) && prevPos == old(prevPos)
      ensures !more ==> TierLoop(toks, rule, 0, lhs, pos) == Parsed(lhs, pos)
      ensures more ==> old(pos) < pos && prevPos == pos - 1
      ensures more ==> TierLoop(toks, rule, 0, next, pos) == TierLoop(toks, rule, 0, lhs, old(pos))
      decreases |toks| - pos, 18
    {
      var op := MatchTier0();
      if op.None? {
        TierLoopStop(toks, rule, 0, lhs, pos);
        return false, lhs;
      }
      var opTok := previous;  // the operator token, used under the corrected rule
      ghost var mid := pos;
      var rhs := ParseBitwiseOrAndXor();
      TierLoopStep(toks, rule, 0, lhs, old(pos), op.value, mid, rhs, pos);
      assert prevPos == pos - 1;
      var nodeTok := if rule.AsWritten? then previous else opTok;
      assert nodeTok == NodeToken(rule, toks, old(pos), pos);
      return true, Some(Binary(nodeTok, op.value, lhs, rhs));
    }

    /** The `match` calls of parseOrAnd, first to last: the operator of the
        first kind that matches, its token consumed; none if no kind matches. */
    method MatchTier0() returns (op: Option<BinaryOp>)
      requires Valid()
      modifies this`pos, this`previous, this`prevPos, this`current
      ensures Valid()
      ensures op == TierOp(0, toks[old(pos)].kind)
      ensures op.Some? ==> previous == old(current) && prevPos == old(pos) && pos == old(pos) + 1
      ensures op.None? ==> pos == old(pos) && previous == old(previous) && prevPos == old(prevPos) && current == old(current)
    {
      var matched0 := Match(PipePipe);
      if matched0 {
        return Some(Or);
      }
      var matched1 := Match(AndAnd);
      if matched1 {
        return Some(BinaryOp.And);
      }
      return None;
    }

    /** parseBitwiseOrAndXor(): the tier-1 loop. */
    method ParseBitwiseOrAndXor() returns (lhs: Option<Expr>)
      requires Valid()
      modifies this`pos, this`previous, this`prevPos, this`current
      ensures Valid()
      ensures Parsed(lhs, pos) == ParserSpec.Parse(toks, rule, 1, old(pos))
      ensures prevPos == if pos == old(pos) then old(prevPos) else pos - 1
      decreases |toks| - pos, 17
    {
      lhs := ParseEqualNotEqual();
      TierEntry(toks, rule, 1, old(pos), lhs, pos);
      while true
        invariant Valid() && old(pos) <= pos
        invariant prevPos == if pos == old(pos) then old(prevPos) else pos - 1
        invariant TierLoop(toks, rule, 1, lhs, pos) == ParserSpec.Parse(toks, rule, 1, old(pos))
        decreases |toks| - pos
      {
        var more, next := BitwiseOrAndXorTurn(lhs);
        if !more {
          break;
        }
        lhs := next;
      }
    }

    /** One turn of the loop of parseBitwiseOrAndXor: on an operator of tier 1, the
        operator and the next operand are consumed and the node is built;
        otherwise nothing is consumed and the loop breaks. */
    method BitwiseOrAndXorTurn(lhs: Option<Expr>) returns (more: bool, next: Option<Expr>)
      requires Valid()
      modifies this`pos, this`previous, this`prevPos, this`current
      ensures Valid()
      ensures more == TierOp(1, toks[old(pos)].kind).Some?
      ensures !more ==> pos == old(pos) && prevPos == old(prevPos)
      ensures !more ==> TierLoop(toks, rule, 1, lhs, pos) == Parsed(lhs, pos)
      ensures more ==> old(pos) < pos && prevPos == pos - 1
      ensures more ==> TierLoop(toks, rule, 1, next, pos) == TierLoop(toks, rule, 1, lhs, old(pos))
      decreases |toks| - pos, 16
    {
      var op := MatchTier1();
      if op.None? {
        TierLoopStop(toks, rule, 1, lhs, pos);
        return false, lhs;
      }
      var opTok := previous;  // the operator token, used under the corrected rule
      ghost var mid := pos;
      var rhs := ParseEqualNotEqual();
      TierLoopStep(toks, rule, 1, lhs, old(pos), op.value, mid, rhs, pos);
      assert prevPos == pos - 1;
      var nodeTok := if rule.AsWritten? then previous else opTok;
      assert nodeTok == NodeToken(rule, toks, old(pos), pos);
      return true, Some(Binary(nodeTok, op.value, lhs, rhs));
    }

    /** The `match` calls of parseBitwiseOrAndXor, first to last: the operator of the
        first kind that matches, its token consumed; none if no kind matches. */
    method MatchTier1() returns (op: Option<BinaryOp>)
      requires Valid()
      modifies this`pos, this`previous, this`prevPos, this`current
      ensures Valid()
      ensures op == TierOp(1, toks[old(pos)].kind)
      ensures op.Some? ==> previous == old(current) && prevPos == old(pos) && pos == old(pos) + 1
      ensures op.None? ==> pos == old(pos) && previous == old(previous) && prevPos == old(prevPos) && current == old(current)
    {
      var matched0 := Match(Pipe);
      if matched0 {
        return Some(BitwiseOr);
      }
      var matched1 := Match(TokenKind.And);
      if matched1 {
        return Some(BitwiseAnd);
      }
      var matched2 := Match(Carat);
      if matched2 {
        return Some(BitwiseXor);
      }
      return None;
    }

    /** parseEqualNotEqual(): the tier-2 loop. */
    method ParseEqualNotEqual() returns (lhs: Option<Expr>)
      requires Valid()
      modifies this`pos, this`previous, this`prevPos, this`current
      ensures Valid()
      ensures Parsed(lhs, pos) == ParserSpec.Parse(toks, rule, 2, old(pos))
      ensures prevPos == if pos == old(pos) then old(prevPos) else pos - 1
      decreases |toks| - pos, 15
    {
      lhs := ParseGreaterLessAndEqual();
      TierEntry(toks, rule, 2, old(pos), lhs, pos);
      while true
        invariant Valid() && old(pos) <= pos
        invariant prevPos == if pos == old(pos) then old(prevPos) else pos - 1
        invariant TierLoop(toks, rule, 2, lhs, pos) == ParserSpec.Parse(toks, rule, 2, old(pos))
        decreases |toks| - pos
      {
        var more, next := EqualNotEqualTurn(lhs);
        if !more {
          break;
        }
        lhs := next;
      }
    }

    /** One turn of the loop of parseEqualNotEqual: on an operator of tier 2, the
        operator and the next operand are consumed and the node is built;
        otherwise nothing is consumed and the loop breaks. */
    method EqualNotEqualTurn(lhs: Option<Expr>) returns (more: bool, next: Option<Expr>)
      requires Valid()
      modifies this`pos, this`previous, this`prevPos, this`current
      ensures Valid()
      ensures more == TierOp(2, toks[old(pos)].kind).Some?
      ensures !more ==> pos == old(pos) && prevPos == old(prevPos)
      ensures !more ==> TierLoop(toks, rule, 2, lhs, pos) == Parsed(lhs, pos)
      ensures more ==> old(pos) < pos && prevPos == pos - 1
      ensures more ==> TierLoop(toks, rule, 2, next, pos) == TierLoop(toks, rule, 2, lhs, old(pos))
      decreases |toks| - pos, 14
    {
      var op := MatchTier2();
      if op.None? {
        TierLoopStop(toks, rule, 2, lhs, pos);
        return false, lhs;
      }
      var opTok := previous;  // the operator token, used under the corrected rule
      ghost var mid := pos;
      var rhs := ParseGreaterLessAndEqual();
      TierLoopStep(toks, rule, 2, lhs, old(pos), op.value, mid, rhs, pos);
      assert prevPos == pos - 1;
      var nodeTok := if rule.AsWritten? then previous else opTok;
      assert nodeTok == NodeToken(rule, toks, old(pos), pos);
      return true, Some(Binary(nodeTok, op.value, lhs, rhs));
    }

    /** The `match` calls of parseEqualNotEqual, first to last: the operator of the
        first kind that matches, its token consumed; none if no kind matches. */
    method MatchTier2() returns (op: Option<BinaryOp>)
      requires Valid()
      modifies this`pos, this`previous, this`prevPos, this`current
      ensures Valid()
      ensures op == TierOp(2, toks[old(pos)].kind)
      ensures op.Some? ==> previous == old(current) && prevPos == old(pos) && pos == old(pos) + 1
      ensures op.None? ==> pos == old(pos) && previous == old(previous) && prevPos == old(prevPos) && current == old(current)
    {
      var matched0 := Match(EqualEqual);
      if matched0 {
        return Some(Equality);
      }
      var matched1 := Match(NotEqual);
      if matched1 {
        return Some(NonEquality);
      }
      return None;
    }

    /** parseGreaterLessAndEqual(): the tier-3 loop. */
    method ParseGreaterLessAndEqual() returns (lhs: Option<Expr>)
      requires Valid()
      modifies this`pos, this`previous, this`prevPos, this`current
      ensures Valid()
      ensures Parsed(lhs, pos) == ParserSpec.Parse(toks, rule, 3, old(pos))
      ensures prevPos == if pos == old(pos) then old(prevPos) else pos - 1
      decreases |toks| - pos, 13
    {
      lhs := ParseLShiftRShift();
      TierEntry(toks, rule, 3, old(pos), lhs, pos);
      while true
        invariant Valid() && old(pos) <= pos
        invariant prevPos == if pos == old(pos) then old(prevPos) else pos - 1
        invariant TierLoop(toks, rule, 3, lhs, pos) == ParserSpec.Parse(toks, rule, 3, old(pos))
        decreases |toks| - pos
      {
        var more, next := GreaterLessAndEqualTurn(lhs);
        if !more {
          break;
        }
        lhs := next;
      }
    }

    /** One turn of the loop of parseGreaterLessAndEqual: on an operator of tier 3, the
        operator and the next operand are consumed and the node is built;
        otherwise nothing is consumed and the loop breaks. */
    method GreaterLessAndEqualTurn(lhs: Option<Expr>) returns (more: bool, next: Option<Expr>)
      requires Valid()
      modifies this`pos, this`previous, this`prevPos, this`current
      ensures Valid()
      ensures more == TierOp(3, toks[old(pos)].kind).Some?
      ensures !more ==> pos == old(pos) && prevPos == old(prevPos)
      ensures !more ==> TierLoop(toks, rule, 3, lhs, pos) == Parsed(lhs, pos)
      ensures more ==> old(pos) < pos && prevPos == pos - 1
      ensures more ==> TierLoop(toks, rule, 3, next, pos) == TierLoop(toks, rule, 3, lhs, old(pos))
      decreases |toks| - pos, 12
    {
      var op := MatchTier3();
      if op.None? {
        TierLoopStop(toks, rule, 3, lhs, pos);
        return false, lhs;
      }
      var opTok := previous;  // the operator token, used under the corrected rule
      ghost var mid := pos;
      var rhs := ParseLShiftRShift();
      TierLoopStep(toks, rule, 3, lhs, old(pos), op.value, mid, rhs, pos);
      assert prevPos == pos - 1;
      var nodeTok := if rule.AsWritten? then previous else opTok;
      assert nodeTok == NodeToken(rule, toks, old(pos), pos);
      return true, Some(Binary(nodeTok, op.value, lhs, rhs));
    }

    /** The `match` calls of parseGreaterLessAndEqual, first to last: the operator of the
        first kind that matches, its token consumed; none if no kind matches. */
    method MatchTier3() returns (op: Option<BinaryOp>)
      requires Valid()
      modifies this`pos, this`previous, this`prevPos, this`current
      ensures Valid()
      ensures op == TierOp(3, toks[old(pos)].kind)
      ensures op.Some? ==> previous == old(current) && prevPos == old(pos) && pos == old(pos) + 1
      ensures op.None? ==> pos == old(pos) && previous == old(previous) && prevPos == old(prevPos) && current == old(current)
    {
      var matched0 := Match(TokenKind.Greater);
      if matched0 {
        return Some(BinaryOp.Greater);
      }
      var matched1 := Match(TokenKind.GreaterEqual);
      if matched1 {
        return Some(BinaryOp.GreaterEqual);
      }
      var matched2 := Match(TokenKind.Less);
      if matched2 {
        return Some(BinaryOp.Less);
      }
      var matched3 := Match(TokenKind.LessEqual);
      if matched3 {
        return Some(BinaryOp.LessEqual);
      }
      return None;
    }

    /** parseLShiftRShift(): the tier-4 loop. */
    method ParseLShiftRShift() returns (lhs: Option<Expr>)
      requires Valid()
      modifies this`pos, this`previous, this`prevPos, this`current
      ensures Valid()
      ensures Parsed(lhs, pos) == ParserSpec.Parse(toks, rule, 4, old(pos))
      ensures prevPos == if pos == old(pos) then old(prevPos) else pos - 1
      decreases |toks| - pos, 11
    {
      lhs := ParsePlusMinus();
      TierEntry(toks, rule, 4, old(pos), lhs, pos);
      while true
        invariant Valid() && old(pos) <= pos
        invariant prevPos == if pos == old(pos) then old(prevPos) else pos - 1
        invariant TierLoop(toks, rule, 4, lhs, pos) == ParserSpec.Parse(toks, rule, 4, old(pos))
        decreases |toks| - pos
      {
        var more, next := LShiftRShiftTurn(lhs);
        if !more {
          break;
        }
        lhs := next;
      }
    }

    /** One turn of the loop of parseLShiftRShift: on an operator of tier 4, the
        operator and the next operand are consumed and the node is built;
        otherwise nothing is consumed and the loop breaks. */
    method LShiftRShiftTurn(lhs: Option<Expr>) returns (more: bool, next: Option<Expr>)
      requires Valid()
      modifies this`pos, this`previous, this`prevPos, this`current
      ensures Valid()
      ensures more == TierOp(4, toks[old(pos)].kind).Some?
      ensures !more ==> pos == old(pos) && prevPos == old(prevPos)
      ensures !more ==> TierLoop(toks, rule, 4, lhs, pos) == Parsed(lhs, pos)
      ensures more ==> old(pos) < pos && prevPos == pos - 1
      ensures more ==> TierLoop(toks, rule, 4, next, pos) == TierLoop(toks, rule, 4, lhs, old(pos))
      decreases |toks| - pos, 10
    {
      var op := MatchTier4();
      if op.None? {
        TierLoopStop(toks, rule, 4, lhs, pos);
        return false, lhs;
      }
      var opTok := previous;  // the operator token, used under the corrected rule
      ghost var mid := pos;
      var rhs := ParsePlusMinus();
      TierLoopStep(toks, rule, 4, lhs, old(pos), op.value, mid, rhs, pos);
      assert prevPos == pos - 1;
      var nodeTok := if rule.AsWritten? then previous else opTok;
      assert nodeTok == NodeToken(rule, toks, old(pos), pos);
      return true, Some(Binary(nodeTok, op.value, lhs, rhs));
    }

    /** The `match` calls of parseLShiftRShift, first to last: the operator of the
        first kind that matches, its token consumed; none if no kind matches. */
    method MatchTier4() returns (op: Option<BinaryOp>)
      requires Valid()
      modifies this`pos, this`previous, this`prevPos, this`current
      ensures Valid()
      ensures op == TierOp(4, toks[old(pos)].kind)
      ensures op.Some? ==> previous == old(current) && prevPos == old(pos) && pos == old(pos) + 1
      ensures op.None? ==> pos == old(pos) && previous == old(previous) && prevPos == old(prevPos) && current == old(current)
    {
      var matched0 := Match(GreaterGreater);
      if matched0 {
        return Some(RShift);
      }
      var matched1 := Match(LessLess);
      if matched1 {
        return Some(LShift);
      }
      return None;
    }

    /** parsePlusMinus(): the tier-5 loop. */
    method ParsePlusMinus() returns (lhs: Option<Expr>)
      requires Valid()
      modifies this`pos, this`previous, this`prevPos, this`current
      ensures Valid()
      ensures Parsed(lhs, pos) == ParserSpec.Parse(toks, rule, 5, old(pos))
      ensures prevPos == if pos == old(pos) then old(prevPos) else pos - 1
      decreases |toks| - pos, 9
    {
      lhs := ParseMultiplyDivide();
      TierEntry(toks, rule, 5, old(pos), lhs, pos);
      while true
        invariant Valid() && old(pos) <= pos
        invariant prevPos == if pos == old(pos) then old(prevPos) else pos - 1
        invariant TierLoop(toks, rule, 5, lhs, pos) == ParserSpec.Parse(toks, rule, 5, old(pos))
        decreases |toks| - pos
      {
        var more, next := PlusMinusTurn(lhs);
        if !more {
          break;
        }
        lhs := next;
      }
    }

    /** One turn of the loop of parsePlusMinus: on an operator of tier 5, the
        operator and the next operand are consumed and the node is built;
        otherwise nothing is consumed and the loop breaks. */
    method PlusMinusTurn(lhs: Option<Expr>) returns (more: bool, next: Option<Expr>)
      requires Valid()
      modifies this`pos, this`previous, this`prevPos, this`current
      ensures Valid()
      ensures more == TierOp(5, toks[old(pos)].kind).Some?
      ensures !more ==> pos == old(pos) && prevPos == old(prevPos)
      ensures !more ==> TierLoop(toks, rule, 5, lhs, pos) == Parsed(lhs, pos)
      ensures more ==> old(pos) < pos && prevPos == pos - 1
      ensures more ==> TierLoop(toks, rule, 5, next, pos) == TierLoop(toks, rule, 5, lhs, old(pos))
      decreases |toks| - pos, 8
    {
      var op := MatchTier5();
      if op.None? {
        TierLoopStop(toks, rule, 5, lhs, pos);
        return false, lhs;
      }
      var opTok := previous;  // the operator token, used under the corrected rule
      ghost var mid := pos;
      var rhs := ParseMultiplyDivide();
      TierLoopStep(toks, rule, 5, lhs, old(pos), op.value, mid, rhs, pos);
      assert prevPos == pos - 1;
      var nodeTok := if rule.AsWritten? then previous else opTok;
      assert nodeTok == NodeToken(rule, toks, old(pos), pos);
      return true, Some(Binary(nodeTok, op.value, lhs, rhs));
    }

    /** The `match` calls of parsePlusMinus, first to last: the operator of the
        first kind that matches, its token consumed; none if no kind matches. */
    method MatchTier5() returns (op: Option<BinaryOp>)
      requires Valid()
      modifies this`pos, this`previous, this`prevPos, this`current
      ensures Valid()
      ensures op == TierOp(5, toks[old(pos)].kind)
      ensures op.Some? ==> previous == old(current) && prevPos == old(pos) && pos == old(pos) + 1
      ensures op.None? ==> pos == old(pos) && previous == old(previous) && prevPos == old(prevPos) && current == old(current)
    {
      var matched0 := Match(TokenKind.Plus);
      if matched0 {
        return Some(Add);
      }
      var matched1 := Match(Minus);
      if matched1 {
        return Some(Sub);
      }
      return None;
    }

    /** parseMultiplyDivide(): the tier-6 loop. */
    method ParseMultiplyDivide() returns (lhs: Option<Expr>)
      requires Valid()
      modifies this`pos, this`previous, this`prevPos, this`current
      ensures Valid()
      ensures Parsed(lhs, pos) == ParserSpec.Parse(toks, rule, 6, old(pos))
      ensures prevPos == if pos == old(pos) then old(prevPos) else pos - 1
      decreases |toks| - pos, 7
    {
      lhs := ParsePow();
      TierEntry(toks, rule, 6, old(pos), lhs, pos);
      while true
        invariant Valid() && old(pos) <= pos
        invariant prevPos == if pos == old(pos) then old(prevPos) else pos - 1
        invariant TierLoop(toks, rule, 6, lhs, pos) == ParserSpec.Parse(toks, rule, 6, old(pos))
        decreases |toks| - pos
      {
        var more, next := MultiplyDivideTurn(lhs);
        if !more {
          break;
        }
        lhs := next;
      }
    }

    /** One turn of the loop of parseMultiplyDivide: on an operator of tier 6, the
        operator and the next operand are consumed and the node is built;
        otherwise nothing is consumed and the loop breaks. */
    method MultiplyDivideTurn(lhs: Option<Expr>) returns (more: bool, next: Option<Expr>)
      requires Valid()
      modifies this`pos, this`previous, this`prevPos, this`current
      ensures Valid()
      ensures more == TierOp(6, toks[old(pos)].kind).Some?
      ensures !more ==> pos == old(pos) && prevPos == old(prevPos)
      ensures !more ==> TierLoop(toks, rule, 6, lhs, pos) == Parsed(lhs, pos)
      ensures more ==> old(pos) < pos && prevPos == pos - 1
      ensures more ==> TierLoop(toks, rule, 6, next, pos) == TierLoop(toks, rule, 6, lhs, old(pos))
      decreases |toks| - pos, 6
    {
      var op := MatchTier6();
      if op.None? {
        TierLoopStop(toks, rule, 6, lhs, pos);
        return false, lhs;
      }
      var opTok := previous;  // the operator token, used under the corrected rule
      ghost var mid := pos;
      var rhs := ParsePow();
      TierLoopStep(toks, rule, 6, lhs, old(pos), op.value, mid, rhs, pos);
      assert prevPos == pos - 1;
      var nodeTok := if rule.AsWritten? then previous else opTok;
      assert nodeTok == NodeToken(rule, toks, old(pos), pos);
      return true, Some(Binary(nodeTok, op.value, lhs, rhs));
    }

    /** The `match` calls of parseMultiplyDivide, first to last: the operator of the
        first kind that matches, its token consumed; none if no kind matches. */
    method MatchTier6() returns (op: Option<BinaryOp>)
      requires Valid()
      modifies this`pos, this`previous, this`prevPos, this`current
      ensures Valid()
      ensures op == TierOp(6, toks[old(pos)].kind)
      ensures op.Some? ==> previous == old(current) && prevPos == old(pos) && pos == old(pos) + 1
      ensures op.None? ==> pos == old(pos) && previous == old(previous) && prevPos == old(prevPos) && current == old(current)
    {
      var matched0 := Match(Star);
      if matched0 {
        return Some(Mult);
      }
      var matched1 := Match(Slash);
      if matched1 {
        return Some(Div);
      }
      return None;
    }

    /** parsePow(): the tier-7 loop. */
    method ParsePow() returns (lhs: Option<Expr>)
      requires Valid()
      modifies this`pos, this`previous, this`prevPos, this`current
      ensures Valid()
      ensures Parsed(lhs, pos) == ParserSpec.Parse(toks, rule, 7, old(pos))
      ensures prevPos == if pos == old(pos) then old(prevPos) else pos - 1
      decreases |toks| - pos, 5
    {
      lhs := ParsePrefix();
      TierEntry(toks, rule, 7, old(pos), lhs, pos);
      while true
        invariant Valid() && old(pos) <= pos
        invariant prevPos == if pos == old(pos) then old(prevPos) else pos - 1
        invariant TierLoop(toks, rule, 7, lhs, pos) == ParserSpec.Parse(toks, rule, 7, old(pos))
        decreases |toks| - pos
      {
        var more, next := PowTurn(lhs);
        if !more {
          break;
        }
        lhs := next;
      }
    }

    /** One turn of the loop of parsePow: on an operator of tier 7, the
        operator and the next operand are consumed and the node is built;
        otherwise nothing is consumed and the loop breaks. */
    method PowTurn(lhs: Option<Expr>) returns (more: bool, next: Option<Expr>)
      requires Valid()
      modifies this`pos, this`previous, this`prevPos, this`current
      ensures Valid()
      ensures more == TierOp(7, toks[old(pos)].kind).Some?
      ensures !more ==> pos == old(pos) && prevPos == old(prevPos)
      ensures !more ==> TierLoop(toks, rule, 7, lhs, pos) == Parsed(lhs, pos)
      ensures more ==> old(pos) < pos && prevPos == pos - 1
      ensures more ==> TierLoop(toks, rule, 7, next, pos) == TierLoop(toks, rule, 7, lhs, old(pos))
      decreases |toks| - pos, 4
    {
      var op := MatchTier7();
      if op.None? {
        TierLoopStop(toks, rule, 7, lhs, pos);
        return false, lhs;
      }
      var opTok := previous;  // the operator token, used under the corrected rule
      ghost var mid := pos;
      var rhs := ParsePrefix();
      TierLoopStep(toks, rule, 7, lhs, old(pos), op.value, mid, rhs, pos);
      assert prevPos == pos - 1;
      var nodeTok := if rule.AsWritten? then previous else opTok;
      assert nodeTok == NodeToken(rule, toks, old(pos), pos);
      return true, Some(Binary(nodeTok, op.value, lhs, rhs));
    }

    /** The `match` calls of parsePow, first to last: the operator of the
        first kind that matches, its token consumed; none if no kind matches. */
    method MatchTier7() returns (op: Option<BinaryOp>)
      requires Valid()
      modifies this`pos, this`previous, this`prevPos, this`current
      ensures Valid()
      ensures op == TierOp(7, toks[old(pos)].kind)
      ensures op.Some? ==> previous == old(current) && prevPos == old(pos) && pos == old(pos) + 1
      ensures op.None? ==> pos == old(pos) && previous == old(previous) && prevPos == old(prevPos) && current == old(current)
    {
      var matched0 := Match(StarStar);
      if matched0 {
        return Some(Pow);
      }
      return None;
    }
    /** The `match` calls of parsePrefix, first to last: the operator of the
        first kind that matches, its token consumed; none if no kind matches. */
    method MatchPrefix() returns (op: Option<UnaryOp>)
      requires Valid()
      modifies this`pos, this`previous, this`prevPos, this`current
      ensures Valid()
      ensures op == PrefixOp(toks[old(pos)].kind)
      ensures op.Some? ==> previous == old(current) && prevPos == old(pos) && pos == old(pos) + 1
      ensures op.None? ==> pos == old(pos) && previous == old(previous) && prevPos == old(prevPos) && current == old(current)
    {
      var plus := Match(TokenKind.Plus);
      if plus {
        return Some(UnaryOp.Plus);
      }
      var minus := Match(Minus);
      if minus {
        return Some(Negate);
      }
      var not := Match(TokenKind.Not);
      if not {
        return Some(UnaryOp.Not);
      }
      var tilde := Match(Tilde);
      if tilde {
        return Some(BitwiseNot);
      }
      return None;
    }

    /** parsePrefix(): a prefix operator applies to a recursively parsed
        prefix expression; otherwise a primary. */
    method ParsePrefix() returns (e: Option<Expr>)
      requires Valid()
      modifies this`pos, this`previous, this`prevPos, this`current
      ensures Valid()
      ensures Parsed(e, pos) == ParserSpec.ParsePrefix(toks, rule, old(pos))
      ensures Parsed(e, pos) == ParserSpec.Parse(toks, rule, PrefixLevel, old(pos))
      ensures prevPos == if pos == old(pos) then old(prevPos) else pos - 1
      decreases |toks| - pos, 3
    {
      var op := MatchPrefix();
      if op.Some? {
        var opTok := previous;  // the operator token, used under the corrected rule
        var branch := ParsePrefix();
        assert prevPos == pos - 1;
        var nodeTok := if rule.AsWritten? then previous else opTok;
        assert nodeTok == NodeToken(rule, toks, old(pos), pos);
        return Some(Unary(nodeTok, op.value, branch));
      }
      e := ParsePrimary();
    }

    /** parsePrimary(): a literal, or a parenthesised expression; null when
        the ')' is missing (the inner tokens stay consumed) or on any other
        token (which is not consumed). The diagnostics are not modelled. */
    method ParsePrimary() returns (e: Option<Expr>)
      requires Valid()
      modifies this`pos, this`previous, this`prevPos, this`current
      ensures Valid()
      ensures Parsed(e, pos) == ParserSpec.ParsePrimary(toks, rule, old(pos))
      ensures prevPos == if pos == old(pos) then old(prevPos) else pos - 1
      decreases |toks| - pos, 1
    {
      var isFloat := Match(FloatLiteral);
      if isFloat {
        return Some(Constant(previous, Float64Value(Float64(previous.lexeme))));
      }
      var isInteger := Match(IntegerLiteral);
      if isInteger {
        return Some(Constant(previous, Int64Value(StrToLL(previous.lexeme))));
      }
      var open := Match(OpenParen);
      if open {
        var expr := ParseExpression();
        var closed := Match(CloseParen);
        if !closed {
          return None;
        }
        return expr;
      }
      return None;
    }
  }
}
