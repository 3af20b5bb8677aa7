/**
 * Precedence, associativity and the error paths of Parser.cpp on concrete
 * token shapes. The literal and operator tokens are arbitrary tokens of the
 * right kinds, so each lemma covers every input of its shape.
 */
module ParserExamples {
  import opened Wrappers
  import opened Tokens
  import opened Ast
  import opened ParserSpec
  import opened ParserProperties

  /** The constant parsePrimary builds from a literal token. */
  function Lit(t: Token): Expr
  {
    Constant(t, LiteralValue(t))
  }

  lemma LitUnparse(t: Token)
    requires IsLiteral(t)
    ensures Printable(Lit(t)) && Tier(Lit(t)) == PrefixLevel && Unparse(Lit(t)) == [t]
  {
  }

  /** toks parses to e under both node-token rules, with toks[n] current
      afterwards: exactly e with the corrected rule, and a tree of e's shape,
      whose operator nodes may carry other tokens, as Parser.cpp is written. */
  predicate ParsesAs(toks: seq<Token>, e: Option<Expr>, n: nat)
    requires WellFormed(toks)
  {
    && ParseAll(toks, Corrected) == Parsed(e, n)
    && ParseAll(toks, AsWritten).pos == n
    && SameOptShape(ParseAll(toks, AsWritten).expr, e)
  }

  /** `a + b * c` is Add(a, Mult(b, c)): multiplication binds tighter. */
  lemma MultBindsTighter(a: Token, plus: Token, b: Token, star: Token, c: Token, eof: Token)
    requires IsLiteral(a) && IsLiteral(b) && IsLiteral(c)
    requires plus.kind == TokenKind.Plus && star.kind == Star && eof.kind == Eof
    ensures ParsesAs([a, plus, b, star, c, eof],
      Some(Binary(plus, Add, Some(Lit(a)), Some(Binary(star, Mult, Some(Lit(b)), Some(Lit(c)))))), 5)
  {
    LitUnparse(a); LitUnparse(b); LitUnparse(c);
    var r := Binary(star, Mult, Some(Lit(b)), Some(Lit(c)));
    assert Unparse(r) == [b, star, c];
    var e := Binary(plus, Add, Some(Lit(a)), Some(r));
    assert Unparse(e) == [a, plus, b, star, c];
    assert Unparse(e) + [eof] == [a, plus, b, star, c, eof];
    RoundTrip(e, eof);
    RulesAgree(Unparse(e) + [eof], 0, 0);
  }

  /** `a - b - c` is Sub(Sub(a, b), c): the additive tier is left-associative. */
  lemma SubLeftAssociative(a: Token, m1: Token, b: Token, m2: Token, c: Token, eof: Token)
    requires IsLiteral(a) && IsLiteral(b) && IsLiteral(c)
    requires m1.kind == Minus && m2.kind == Minus && eof.kind == Eof
    ensures ParsesAs([a, m1, b, m2, c, eof],
      Some(Binary(m2, Sub, Some(Binary(m1, Sub, Some(Lit(a)), Some(Lit(b)))), Some(Lit(c)))), 5)
  {
    LitUnparse(a); LitUnparse(b); LitUnparse(c);
    var l := Binary(m1, Sub, Some(Lit(a)), Some(Lit(b)));
    assert Unparse(l) == [a, m1, b];
    var e := Binary(m2, Sub, Some(l), Some(Lit(c)));
    assert Unparse(e) == [a, m1, b, m2, c];
    assert Unparse(e) + [eof] == [a, m1, b, m2, c, eof];
    RoundTrip(e, eof);
    RulesAgree(Unparse(e) + [eof], 0, 0);
  }

  /** `a ** b ** c` is Pow(Pow(a, b), c): parsePow loops like every other
      tier, so exponentiation is left-associative too. */
  lemma PowLeftAssociative(a: Token, p1: Token, b: Token, p2: Token, c: Token, eof: Token)
    requires IsLiteral(a) && IsLiteral(b) && IsLiteral(c)
    requires p1.kind == StarStar && p2.kind == StarStar && eof.kind == Eof
    ensures ParsesAs([a, p1, b, p2, c, eof],
      Some(Binary(p2, Pow, Some(Binary(p1, Pow, Some(Lit(a)), Some(Lit(b)))), Some(Lit(c)))), 5)
  {
    LitUnparse(a); LitUnparse(b); LitUnparse(c);
    var l := Binary(p1, Pow, Some(Lit(a)), Some(Lit(b)));
    assert Unparse(l) == [a, p1, b];
    var e := Binary(p2, Pow, Some(l), Some(Lit(c)));
    assert Unparse(e) == [a, p1, b, p2, c];
    assert Unparse(e) + [eof] == [a, p1, b, p2, c, eof];
    RoundTrip(e, eof);
    RulesAgree(Unparse(e) + [eof], 0, 0);
  }

  /** `- - a` is Negate(Negate(a)): parsePrefix recurses. */
  lemma DoubleNegation(m1: Token, m2: Token, a: Token, eof: Token)
    requires IsLiteral(a) && m1.kind == Minus && m2.kind == Minus && eof.kind == Eof
    ensures ParsesAs([m1, m2, a, eof],
      Some(Unary(m1, Negate, Some(Unary(m2, Negate, Some(Lit(a)))))), 3)
  {
    LitUnparse(a);
    var inner := Unary(m2, Negate, Some(Lit(a)));
    assert Unparse(inner) == [m2, a];
    var e := Unary(m1, Negate, Some(inner));
    assert Unparse(e) == [m1, m2, a];
    assert Unparse(e) + [eof] == [m1, m2, a, eof];
    RoundTrip(e, eof);
    RulesAgree(Unparse(e) + [eof], 0, 0);
  }

  /** `- a ** b` is Pow(Negate(a), b): a prefix operator binds tighter than
      exponentiation. */
  lemma PrefixBindsTighterThanPow(m: Token, a: Token, p: Token, b: Token, eof: Token)
    requires IsLiteral(a) && IsLiteral(b)
    requires m.kind == Minus && p.kind == StarStar && eof.kind == Eof
    ensures ParsesAs([m, a, p, b, eof],
      Some(Binary(p, Pow, Some(Unary(m, Negate, Some(Lit(a)))), Some(Lit(b)))), 4)
  {
    LitUnparse(a); LitUnparse(b);
    var l := Unary(m, Negate, Some(Lit(a)));
    assert Unparse(l) == [m, a];
    var e := Binary(p, Pow, Some(l), Some(Lit(b)));
    assert Unparse(e) == [m, a, p, b];
    assert Unparse(e) + [eof] == [m, a, p, b, eof];
    RoundTrip(e, eof);
    RulesAgree(Unparse(e) + [eof], 0, 0);
  }

  /** A token that no rule accepts, such as Eof or ')', makes parsePrimary
      return null without consuming it, and every level above passes the
      null on unchanged. */
  lemma {:induction false} UnexpectedTokenIsNull(toks: seq<Token>, rule: NodeTokenRule, level: nat, pos: nat)
    requires WellFormed(toks) && pos < |toks| && level <= PrimaryLevel
    requires var k := toks[pos].kind;
      !IsLiteral(toks[pos]) && k != OpenParen && PrefixOp(k).None? && NoTierFrom(k, 0)
    ensures Parse(toks, rule, level, pos) == Parsed(None, pos)
    decreases PrimaryLevel - level
  {
    if level < PrefixLevel {
      UnexpectedTokenIsNull(toks, rule, level + 1, pos);
      TierPassThrough(toks, rule, level, pos, None, pos);
    } else if level == PrefixLevel {
      assert ParsePrefix(toks, rule, pos) == ParsePrimary(toks, rule, pos);
    }
  }

  /** A literal followed by a token that no tier matches at or above level
      is parsed alone, whatever the node-token rule. */
  lemma {:induction false} LiteralAlone(toks: seq<Token>, rule: NodeTokenRule, level: nat, pos: nat)
    requires WellFormed(toks) && pos + 1 < |toks| && level <= PrimaryLevel
    requires IsLiteral(toks[pos]) && NoTierFrom(toks[pos + 1].kind, level)
    ensures Parse(toks, rule, level, pos) == Parsed(Some(Lit(toks[pos])), pos + 1)
    decreases PrimaryLevel - level
  {
    if level < PrefixLevel {
      LiteralAlone(toks, rule, level + 1, pos);
      TierPassThrough(toks, rule, level, pos, Some(Lit(toks[pos])), pos + 1);
    } else if level == PrefixLevel {
      PrefixPassThrough(toks, rule, pos);
    }
  }

  /** `a +` followed by Eof: the missing right operand is a null child of an
      Add node that is still built, and parsing stops at the Eof. The node
      carries the `+` under both rules, since the operand consumed nothing. */
  lemma DanglingOperator(rule: NodeTokenRule, a: Token, plus: Token, eof: Token)
    requires IsLiteral(a) && plus.kind == TokenKind.Plus && eof.kind == Eof
    ensures ParseAll([a, plus, eof], rule) == Parsed(Some(Binary(plus, Add, Some(Lit(a)), None)), 2)
  {
    var toks := [a, plus, eof];
    var e := Some(Binary(plus, Add, Some(Lit(a)), None));
    EofIsNoOperator();
    OperatorStopsTighterTiers(Add);
    LiteralAlone(toks, rule, 6, 0);
    TierEntry(toks, rule, 5, 0, Some(Lit(a)), 1);
    UnexpectedTokenIsNull(toks, rule, 6, 2);
    TierLoopStep(toks, rule, 5, Some(Lit(a)), 1, Add, 2, None, 2);
    TierLoopStop(toks, rule, 5, e, 2);
    TierPassThrough(toks, rule, 4, 0, e, 2);
    TierPassThrough(toks, rule, 3, 0, e, 2);
    TierPassThrough(toks, rule, 2, 0, e, 2);
    TierPassThrough(toks, rule, 1, 0, e, 2);
    TierPassThrough(toks, rule, 0, 0, e, 2);
  }

  /** `a || b` followed by Eof: one Or node over the two constants. Under
      the corrected rule it carries the `||`; as written, m_previous is read
      after the right operand, so it carries `b`. */
  lemma OrNodeToken(rule: NodeTokenRule, a: Token, bar: Token, b: Token, eof: Token)
    requires IsLiteral(a) && bar.kind == PipePipe && IsLiteral(b) && eof.kind == Eof
    ensures ParseAll([a, bar, b, eof], rule)
      == Parsed(Some(Binary(if rule.AsWritten? then b else bar, Or, Some(Lit(a)), Some(Lit(b)))), 3)
  {
    var toks := [a, bar, b, eof];
    var e := Some(Binary(NodeToken(rule, toks, 1, 3), Or, Some(Lit(a)), Some(Lit(b))));
    EofIsNoOperator();
    OperatorStopsTighterTiers(Or);
    LiteralAlone(toks, rule, 1, 0);
    TierEntry(toks, rule, 0, 0, Some(Lit(a)), 1);
    LiteralAlone(toks, rule, 1, 2);
    TierLoopStep(toks, rule, 0, Some(Lit(a)), 1, Or, 2, Some(Lit(b)), 3);
    TierLoopStop(toks, rule, 0, e, 3);
  }

  /** As written, the binary node of `a || b` is built on the literal `b`
      instead of the `||` it was matched on, so the tree is not faithful to
      its tokens. */
  lemma AsWrittenOrKeepsOperandToken(a: Token, bar: Token, b: Token, eof: Token)
    requires IsLiteral(a) && bar.kind == PipePipe && IsLiteral(b) && eof.kind == Eof
    ensures ParseAll([a, bar, b, eof], AsWritten).expr == Some(Binary(b, Or, Some(Lit(a)), Some(Lit(b))))
    ensures !OptFaithful(ParseAll([a, bar, b, eof], AsWritten).expr, [a, bar, b, eof])
  {
    OrNodeToken(AsWritten, a, bar, b, eof);
  }

  /** `( a` followed by Eof: the missing ')' makes the whole group null,
      and the Eof is left current. */
  lemma MissingCloseParen(rule: NodeTokenRule, open: Token, a: Token, eof: Token)
    requires open.kind == OpenParen && IsLiteral(a) && eof.kind == Eof
    ensures ParseAll([open, a, eof], rule) == Parsed(None, 2)
  {
    var toks := [open, a, eof];
    EofIsNoOperator();
    LiteralAlone(toks, rule, 0, 1);
    assert ParsePrimary(toks, rule, 0) == Parsed(None, 2);
    PrefixPassThrough(toks, rule, 0);
    TierPassThrough(toks, rule, 7, 0, None, 2);
    TierPassThrough(toks, rule, 6, 0, None, 2);
    TierPassThrough(toks, rule, 5, 0, None, 2);
    TierPassThrough(toks, rule, 4, 0, None, 2);
    TierPassThrough(toks, rule, 3, 0, None, 2);
    TierPassThrough(toks, rule, 2, 0, None, 2);
    TierPassThrough(toks, rule, 1, 0, None, 2);
    TierPassThrough(toks, rule, 0, 0, None, 2);
  }

  /** parse() reads one expression and leaves what follows it: on `a )`
      it returns the constant with the ')' still current. */
  lemma TrailingTokensLeft(rule: NodeTokenRule, a: Token, close: Token, eof: Token)
    requires IsLiteral(a) && close.kind == CloseParen && eof.kind == Eof
    ensures ParseAll([a, close, eof], rule) == Parsed(Some(Lit(a)), 1)
  {
    ParenIsNoOperator();
    LiteralAlone([a, close, eof], rule, 0, 0);
  }
}
