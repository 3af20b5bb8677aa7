/**
 * The precedence-climbing parser of Parser.cpp as functions over a token
 * sequence that ends in Eof (what the scanner's successive next() calls
 * return) and an index into it. Levels 0..7 are the eight binary tiers
 * (parseOrAnd .. parsePow), level 8 is parsePrefix and level 9 parsePrimary.
 * The class in parser.dfy is proved to compute exactly these results.
 */
module ParserSpec {
  import opened Wrappers
  import opened Tokens
  import opened Numbers
  import opened Ast

  const PrefixLevel: nat := 8
  const PrimaryLevel: nat := 9

  /** A token sequence the parser can read: it ends in Eof. No rule matches
      Eof, so the parser never moves past it. */
  predicate WellFormed(toks: seq<Token>)
  {
    |toks| > 0 && toks[|toks| - 1].kind == Eof
  }

  // ---------------------------------------------------------------------
  // Operator tables

  /** The tier of each binary operator: 0 is parseOrAnd, 7 is parsePow. */
  function OpTier(op: BinaryOp): (tier: nat)
    ensures tier < PrefixLevel
  {
    match op
    case Or => 0            case And => 0
    case BitwiseOr => 1     case BitwiseAnd => 1     case BitwiseXor => 1
    case Equality => 2      case NonEquality => 2
    case Greater => 3       case GreaterEqual => 3   case Less => 3     case LessEqual => 3
    case RShift => 4        case LShift => 4
    case Add => 5           case Sub => 5
    case Mult => 6          case Div => 6
    case Pow => 7
  }

  /** The token kind each binary operator is matched on. */
  function OpKind(op: BinaryOp): TokenKind
  {
    match op
    case Or => PipePipe              case And => AndAnd
    case BitwiseOr => Pipe           case BitwiseAnd => TokenKind.And
    case BitwiseXor => Carat
    case Equality => EqualEqual      case NonEquality => NotEqual
    case Greater => TokenKind.Greater
    case GreaterEqual => TokenKind.GreaterEqual
    case Less => TokenKind.Less      case LessEqual => TokenKind.LessEqual
    case RShift => GreaterGreater    case LShift => LessLess
    case Add => TokenKind.Plus       case Sub => Minus
    case Mult => Star                case Div => Slash
    case Pow => StarStar
  }

  /** The `match` calls of one tier loop: which operator, if any, the tier
      builds on a token of kind k. */
  function TierOp(tier: nat, k: TokenKind): (op: Option<BinaryOp>)
    ensures op.Some? ==> OpTier(op.value) == tier && OpKind(op.value) == k
  {
    if tier == 0 then
      if k == PipePipe then Some(Or) else if k == AndAnd then Some(BinaryOp.And) else None
    else if tier == 1 then
      if k == Pipe then Some(BitwiseOr) else if k == TokenKind.And then Some(BitwiseAnd)
      else if k == Carat then Some(BitwiseXor) else None
    else if tier == 2 then
      if k == EqualEqual then Some(Equality) else if k == NotEqual then Some(NonEquality) else None
    else if tier == 3 then
      if k == TokenKind.Greater then Some(BinaryOp.Greater)
      else if k == TokenKind.GreaterEqual then Some(BinaryOp.GreaterEqual)
      else if k == TokenKind.Less then Some(BinaryOp.Less)
      else if k == TokenKind.LessEqual then Some(BinaryOp.LessEqual) else None
    else if tier == 4 then
      if k == GreaterGreater then Some(RShift) else if k == LessLess then Some(LShift) else None
    else if tier == 5 then
      if k == TokenKind.Plus then Some(Add) else if k == Minus then Some(Sub) else None
    else if tier == 6 then
      if k == Star then Some(Mult) else if k == Slash then Some(Div) else None
    else if tier == 7 then
      if k == StarStar then Some(Pow) else None
    else None
  }

  /** The `match` calls of parsePrefix. */
  function PrefixOp(k: TokenKind): Option<UnaryOp>
  {
    if k == TokenKind.Plus then Some(UnaryOp.Plus)
    else if k == Minus then Some(Negate)
    else if k == TokenKind.Not then Some(UnaryOp.Not)
    else if k == Tilde then Some(BitwiseNot)
    else None
  }

  function PrefixKind(op: UnaryOp): TokenKind
  {
    match op
    case Plus => TokenKind.Plus
    case Negate => Minus
    case Not => TokenKind.Not
    case BitwiseNot => Tilde
  }

  /** Every operator is built by its own tier on its own kind. */
  lemma TierOpComplete(op: BinaryOp)
    ensures TierOp(OpTier(op), OpKind(op)) == Some(op)
  {
    match op
    case Or =>            case And =>
    case BitwiseOr =>     case BitwiseAnd =>      case BitwiseXor =>
    case Equality =>      case NonEquality =>
    case Greater =>       case GreaterEqual =>    case Less =>      case LessEqual =>
    case RShift =>        case LShift =>
    case Add =>           case Sub =>
    case Mult =>          case Div =>
    case Pow =>
  }

  /** The tables agree: a tier builds op exactly on op's kind at op's tier,
      so no token kind is an operator of two tiers. */
  lemma TierOpIff(tier: nat, k: TokenKind, op: BinaryOp)
    ensures TierOp(tier, k) == Some(op) <==> tier == OpTier(op) && k == OpKind(op)
  {
    TierOpComplete(op);
  }

  lemma PrefixOpIff(k: TokenKind, op: UnaryOp)
    ensures PrefixOp(k) == Some(op) <==> k == PrefixKind(op)
  {
  }

  /** No binary tier at or above `from` matches kind k. */
  predicate NoTierFrom(k: TokenKind, from: nat)
  {
    forall tier :: from <= tier < PrefixLevel ==> TierOp(tier, k).None?
  }

  // ---------------------------------------------------------------------
  // Node tokens

  /** Which token a node is built with. Parser.cpp passes m_previous to the
      node constructor only after the operand has been parsed, so AsWritten
      takes the last token of the operand; Corrected takes the operator
      token just matched, as evidently intended. */
  datatype NodeTokenRule = AsWritten | Corrected

  function NodeToken(rule: NodeTokenRule, toks: seq<Token>, opPos: nat, endPos: nat): (t: Token)
    requires opPos < endPos <= |toks|
    ensures t in toks
  {
    match rule
    case Corrected => toks[opPos]
    case AsWritten => toks[endPos - 1]
  }

  /** What parsePrimary builds from a literal token: a double read from a
      float literal, otherwise the integer strtoll reads, which for a run of
      decimal digits is its value, saturated at the largest int64. */
  function LiteralValue(t: Token): (v: ConstValue)
    ensures t.kind == FloatLiteral ==> v == Float64Value(Float64(t.lexeme))
    ensures t.kind != FloatLiteral ==> v.Int64Value?
    ensures t.kind != FloatLiteral && |t.lexeme| > 0 && AllDigits(t.lexeme) ==>
      v.i as int == if DigitsValue(t.lexeme) > Int64Max then Int64Max else DigitsValue(t.lexeme)
  {
    if t.kind == FloatLiteral then Float64Value(Float64(t.lexeme))
    else if |t.lexeme| > 0 && AllDigits(t.lexeme) then
      StrToLLOfDigits(t.lexeme);
      Int64Value(StrToLL(t.lexeme))
    else Int64Value(StrToLL(t.lexeme))
  }

  /** Every node of e was built from a token of toks of the right kind: an
      operator node from its operator's token, a constant from a literal
      token and the value read from its lexeme. */
  predicate Faithful(e: Expr, toks: seq<Token>)
  {
    match e
    case Constant(t, v) =>
      t in toks && (t.kind == IntegerLiteral || t.kind == FloatLiteral) && v == LiteralValue(t)
    case Nil(_) => false
    case Unary(t, op, b) =>
      t in toks && t.kind == PrefixKind(op) && (b.Some? ==> Faithful(b.value, toks))
    case Binary(t, op, l, r) =>
      && t in toks && t.kind == OpKind(op)
      && (l.Some? ==> Faithful(l.value, toks))
      && (r.Some? ==> Faithful(r.value, toks))
  }

  predicate OptFaithful(e: Option<Expr>, toks: seq<Token>)
  {
    e.Some? ==> Faithful(e.value, toks)
  }

  // ---------------------------------------------------------------------
  // The parse functions

  /** A result (null on error) and the index of the new current token. */
  datatype Parsed = Parsed(expr: Option<Expr>, pos: nat)

  /** parseX() at the given level, started with toks[pos] current: the
      tier loops below PrefixLevel, parsePrefix at it, parsePrimary above.
      It never consumes the final Eof. */
  function Parse(toks: seq<Token>, rule: NodeTokenRule, level: nat, pos: nat): (r: Parsed)
    requires WellFormed(toks) && pos < |toks| && level <= PrimaryLevel
    ensures pos <= r.pos < |toks|
    decreases |toks| - pos, 3 * (PrimaryLevel - level) + 2
  {
    if level < PrefixLevel then ParseTier(toks, rule, level, pos)
    else if level == PrefixLevel then ParsePrefix(toks, rule, pos)
    else ParsePrimary(toks, rule, pos)
  }

  /** A binary tier: its left operand from the next level, then its loop. */
  function ParseTier(toks: seq<Token>, rule: NodeTokenRule, tier: nat, pos: nat): (r: Parsed)
    requires WellFormed(toks) && pos < |toks| && tier < PrefixLevel
    ensures pos <= r.pos < |toks|
    decreases |toks| - pos, 3 * (PrimaryLevel - tier) + 1
  {
    var lhs := Parse(toks, rule, tier + 1, pos);
    TierLoop(toks, rule, tier, lhs.expr, lhs.pos)
  }

  /** parsePrefix(): a prefix operator applies to a recursively parsed
      prefix expression; any other token starts a primary. */
  function ParsePrefix(toks: seq<Token>, rule: NodeTokenRule, pos: nat): (r: Parsed)
    requires WellFormed(toks) && pos < |toks|
    ensures pos <= r.pos < |toks|
    decreases |toks| - pos, 4
  {
    match PrefixOp(toks[pos].kind)
    case Some(op) =>
      PrefixOpIff(toks[pos].kind, op);
      var b := ParsePrefix(toks, rule, pos + 1);
      Parsed(Some(Unary(NodeToken(rule, toks, pos, b.pos), op, b.expr)), b.pos)
    case None =>
      ParsePrimary(toks, rule, pos)
  }

  /** parsePrimary(): a literal, a parenthesised expression, or null. */
  function ParsePrimary(toks: seq<Token>, rule: NodeTokenRule, pos: nat): (r: Parsed)
    requires WellFormed(toks) && pos < |toks|
    ensures pos <= r.pos < |toks|
    decreases |toks| - pos, 1
  {
    var t := toks[pos];
    if t.kind == FloatLiteral || t.kind == IntegerLiteral then
      Parsed(Some(Constant(t, LiteralValue(t))), pos + 1)
    else if t.kind == OpenParen then
      var inner := Parse(toks, rule, 0, pos + 1);
      if toks[inner.pos].kind == CloseParen then Parsed(inner.expr, inner.pos + 1)
      else Parsed(None, inner.pos)
    else
      Parsed(None, pos)
  }

  /** The `for (;;)` loop of a binary tier, with lhs parsed so far and
      toks[pos] current. */
  function TierLoop(toks: seq<Token>, rule: NodeTokenRule, tier: nat, lhs: Option<Expr>, pos: nat): (r: Parsed)
    requires WellFormed(toks) && pos < |toks| && tier < PrefixLevel
    ensures pos <= r.pos < |toks|
    decreases |toks| - pos, 3 * (PrimaryLevel - tier)
  {
    match TierOp(tier, toks[pos].kind)
    case None => Parsed(lhs, pos)
    case Some(op) =>
      TierOpIff(tier, toks[pos].kind, op);
      var rhs := Parse(toks, rule, tier + 1, pos + 1);
      TierLoop(toks, rule, tier, Some(Binary(NodeToken(rule, toks, pos, rhs.pos), op, lhs, rhs.expr)), rhs.pos)
  }

  /** A binary tier stops only at a token that is not an operator of its
      own tier or of any tighter one. */
  lemma {:induction false} TierStops(toks: seq<Token>, rule: NodeTokenRule, tier: nat, pos: nat)
    requires WellFormed(toks) && pos < |toks| && tier < PrefixLevel
    ensures NoTierFrom(toks[Parse(toks, rule, tier, pos).pos].kind, tier)
    decreases |toks| - pos, 3 * (PrimaryLevel - tier) + 1
  {
    var lhs := Parse(toks, rule, tier + 1, pos);
    if tier + 1 < PrefixLevel {
      TierStops(toks, rule, tier + 1, pos);
    }
    TierLoopStops(toks, rule, tier, lhs.expr, lhs.pos);
  }

  lemma {:induction false} TierLoopStops(toks: seq<Token>, rule: NodeTokenRule, tier: nat, lhs: Option<Expr>, pos: nat)
    requires WellFormed(toks) && pos < |toks| && tier < PrefixLevel
    requires NoTierFrom(toks[pos].kind, tier + 1)
    ensures NoTierFrom(toks[TierLoop(toks, rule, tier, lhs, pos).pos].kind, tier)
    decreases |toks| - pos, 3 * (PrimaryLevel - tier)
  {
    match TierOp(tier, toks[pos].kind)
    case None =>
    case Some(op) =>
      var rhs := Parse(toks, rule, tier + 1, pos + 1);
      if tier + 1 < PrefixLevel {
        TierStops(toks, rule, tier + 1, pos + 1);
      }
      TierLoopStops(toks, rule, tier, Some(Binary(NodeToken(rule, toks, pos, rhs.pos), op, lhs, rhs.expr)), rhs.pos);
  }

  /** With the corrected node-token rule every node the parser builds is
      faithful to the tokens. */
  lemma {:induction false} ParseFaithful(toks: seq<Token>, level: nat, pos: nat)
    requires WellFormed(toks) && pos < |toks| && level <= PrimaryLevel
    ensures OptFaithful(Parse(toks, Corrected, level, pos).expr, toks)
    decreases |toks| - pos, 3 * (PrimaryLevel - level) + 2
  {
    if level < PrefixLevel {
      var lhs := Parse(toks, Corrected, level + 1, pos);
      ParseFaithful(toks, level + 1, pos);
      TierLoopFaithful(toks, level, lhs.expr, lhs.pos);
    } else if level == PrefixLevel {
      PrefixFaithful(toks, pos);
    } else {
      PrimaryFaithful(toks, pos);
    }
  }

  lemma {:induction false} PrimaryFaithful(toks: seq<Token>, pos: nat)
    requires WellFormed(toks) && pos < |toks|
    ensures OptFaithful(ParsePrimary(toks, Corrected, pos).expr, toks)
    decreases |toks| - pos, 1
  {
    var t := toks[pos];
    if t.kind == FloatLiteral || t.kind == IntegerLiteral {
      assert t in toks;
    } else if t.kind == OpenParen {
      ParseFaithful(toks, 0, pos + 1);
    }
  }

  lemma {:induction false} PrefixFaithful(toks: seq<Token>, pos: nat)
    requires WellFormed(toks) && pos < |toks|
    ensures OptFaithful(ParsePrefix(toks, Corrected, pos).expr, toks)
    decreases |toks| - pos, 4
  {
    match PrefixOp(toks[pos].kind)
    case Some(op) =>
      PrefixOpIff(toks[pos].kind, op);
      PrefixFaithful(toks, pos + 1);
    case None =>
      ParseFaithful(toks, PrimaryLevel, pos);
  }

  lemma {:induction false} TierLoopFaithful(toks: seq<Token>, tier: nat, lhs: Option<Expr>, pos: nat)
    requires WellFormed(toks) && pos < |toks| && tier < PrefixLevel
    requires OptFaithful(lhs, toks)
    ensures OptFaithful(TierLoop(toks, Corrected, tier, lhs, pos).expr, toks)
    decreases |toks| - pos, 3 * (PrimaryLevel - tier)
  {
    match TierOp(tier, toks[pos].kind)
    case None =>
    case Some(op) =>
      var rhs := Parse(toks, Corrected, tier + 1, pos + 1);
      ParseFaithful(toks, tier + 1, pos + 1);
      TierLoopFaithful(toks, tier, Some(Binary(toks[pos], op, lhs, rhs.expr)), rhs.pos);
  }

  /** One turn of a tier loop that matches an operator: the operator token
      was toks[pos] and the operand parser, started after it, returned rhs
      with toks[after] current; the node carries the rule's token. */
  lemma TierLoopStep(toks: seq<Token>, rule: NodeTokenRule, tier: nat, lhs: Option<Expr>, pos: nat, op: BinaryOp, mid: nat, rhs: Option<Expr>, after: nat)
    requires WellFormed(toks) && mid == pos + 1 && mid < |toks| && tier < PrefixLevel
    requires TierOp(tier, toks[pos].kind) == Some(op)
    requires Parsed(rhs, after) == Parse(toks, rule, tier + 1, mid)
    ensures pos < after < |toks|
    ensures TierLoop(toks, rule, tier, Some(Binary(NodeToken(rule, toks, pos, after), op, lhs, rhs)), after)
         == TierLoop(toks, rule, tier, lhs, pos)
  {
  }

  /** A tier is its loop started on the next level's result. */
  lemma TierEntry(toks: seq<Token>, rule: NodeTokenRule, tier: nat, from: nat, lhs: Option<Expr>, pos: nat)
    requires WellFormed(toks) && from < |toks| && tier < PrefixLevel
    requires Parsed(lhs, pos) == Parse(toks, rule, tier + 1, from)
    ensures pos < |toks|
    ensures TierLoop(toks, rule, tier, lhs, pos) == Parse(toks, rule, tier, from)
  {
  }

  /** The turn of a tier loop that breaks out. */
  lemma TierLoopStop(toks: seq<Token>, rule: NodeTokenRule, tier: nat, lhs: Option<Expr>, pos: nat)
    requires WellFormed(toks) && pos < |toks| && tier < PrefixLevel
    requires TierOp(tier, toks[pos].kind) == None
    ensures TierLoop(toks, rule, tier, lhs, pos) == Parsed(lhs, pos)
  {
  }

  /** A tier whose loop stops at once passes the next level's result on,
      under either node-token rule. */
  lemma TierPassThrough(toks: seq<Token>, rule: NodeTokenRule, tier: nat, from: nat, e: Option<Expr>, pos: nat)
    requires WellFormed(toks) && from < |toks| && tier < PrefixLevel
    requires Parsed(e, pos) == Parse(toks, rule, tier + 1, from)
    requires TierOp(tier, toks[pos].kind) == None
    ensures Parse(toks, rule, tier, from) == Parsed(e, pos)
  {
    assert TierLoop(toks, rule, tier, e, pos) == Parsed(e, pos);
  }

  /** parsePrefix on a token that is no prefix operator is parsePrimary. */
  lemma PrefixPassThrough(toks: seq<Token>, rule: NodeTokenRule, pos: nat)
    requires WellFormed(toks) && pos < |toks| && PrefixOp(toks[pos].kind) == None
    ensures Parse(toks, rule, PrefixLevel, pos) == ParsePrimary(toks, rule, pos)
  {
  }

  /** parsePrimary on '(': the expression inside, then the ')' it expects. */
  lemma PrimaryGroup(toks: seq<Token>, rule: NodeTokenRule, pos: nat, inner: Option<Expr>, close: nat)
    requires WellFormed(toks) && pos + 1 < |toks| && toks[pos].kind == OpenParen
    requires Parsed(inner, close) == Parse(toks, rule, 0, pos + 1)
    requires toks[close].kind == CloseParen
    ensures ParsePrimary(toks, rule, pos) == Parsed(inner, close + 1)
  {
  }

  // ---------------------------------------------------------------------
  // The two node-token rules build the same tree

  /** The node-token rule decides which token each node carries and nothing
      else: both rules consume the same tokens and build trees of the same
      shape. Every property of the corrected parse that does not mention
      tokens therefore holds for the parse as written. */
  lemma {:induction false} RulesAgree(toks: seq<Token>, level: nat, pos: nat)
    requires WellFormed(toks) && pos < |toks| && level <= PrimaryLevel
    ensures Parse(toks, AsWritten, level, pos).pos == Parse(toks, Corrected, level, pos).pos
    ensures SameOptShape(Parse(toks, AsWritten, level, pos).expr, Parse(toks, Corrected, level, pos).expr)
    decreases |toks| - pos, 3 * (PrimaryLevel - level) + 2
  {
    if level < PrefixLevel {
      RulesAgree(toks, level + 1, pos);
      var a, c := Parse(toks, AsWritten, level + 1, pos), Parse(toks, Corrected, level + 1, pos);
      TierLoopsAgree(toks, level, a.expr, c.expr, a.pos);
    } else if level == PrefixLevel {
      PrefixRulesAgree(toks, pos);
    } else {
      PrimaryRulesAgree(toks, pos);
    }
  }

  lemma {:induction false} PrefixRulesAgree(toks: seq<Token>, pos: nat)
    requires WellFormed(toks) && pos < |toks|
    ensures ParsePrefix(toks, AsWritten, pos).pos == ParsePrefix(toks, Corrected, pos).pos
    ensures SameOptShape(ParsePrefix(toks, AsWritten, pos).expr, ParsePrefix(toks, Corrected, pos).expr)
    decreases |toks| - pos, 4
  {
    match PrefixOp(toks[pos].kind)
    case Some(op) =>
      PrefixOpIff(toks[pos].kind, op);
      PrefixRulesAgree(toks, pos + 1);
    case None =>
      PrimaryRulesAgree(toks, pos);
  }

  lemma {:induction false} PrimaryRulesAgree(toks: seq<Token>, pos: nat)
    requires WellFormed(toks) && pos < |toks|
    ensures ParsePrimary(toks, AsWritten, pos).pos == ParsePrimary(toks, Corrected, pos).pos
    ensures SameOptShape(ParsePrimary(toks, AsWritten, pos).expr, ParsePrimary(toks, Corrected, pos).expr)
    decreases |toks| - pos, 1
  {
    if toks[pos].kind == OpenParen {
      RulesAgree(toks, 0, pos + 1);
    }
  }

  /** Tier loops started on same-shape operands at the same token agree. */
  lemma {:induction false} TierLoopsAgree(toks: seq<Token>, tier: nat, la: Option<Expr>, lc: Option<Expr>, pos: nat)
    requires WellFormed(toks) && pos < |toks| && tier < PrefixLevel
    requires SameOptShape(la, lc)
    ensures TierLoop(toks, AsWritten, tier, la, pos).pos == TierLoop(toks, Corrected, tier, lc, pos).pos
    ensures SameOptShape(TierLoop(toks, AsWritten, tier, la, pos).expr, TierLoop(toks, Corrected, tier, lc, pos).expr)
    decreases |toks| - pos, 3 * (PrimaryLevel - tier)
  {
    match TierOp(tier, toks[pos].kind)
    case None =>
    case Some(op) =>
      TierOpIff(tier, toks[pos].kind, op);
      RulesAgree(toks, tier + 1, pos + 1);
      var a, c := Parse(toks, AsWritten, tier + 1, pos + 1), Parse(toks, Corrected, tier + 1, pos + 1);
      var na := Binary(NodeToken(AsWritten, toks, pos, a.pos), op, la, a.expr);
      var nc := Binary(NodeToken(Corrected, toks, pos, c.pos), op, lc, c.expr);
      assert SameShape(na, nc);
      TierLoopsAgree(toks, tier, Some(na), Some(nc), a.pos);
  }

  /** parse(): one expression from the start; trailing tokens are left. */
  function ParseAll(toks: seq<Token>, rule: NodeTokenRule): Parsed
    requires WellFormed(toks)
  {
    Parse(toks, rule, 0, 0)
  }

  // ---------------------------------------------------------------------
  // The node-token finding

  /** Under the node-token rule as written, `-1` parses to a negation node
      that carries the literal token `1` instead of the `-` token: the tree
      is not faithful to its tokens. ParseFaithful proves the corrected
      rule never does this. */
  lemma AsWrittenNegationKeepsOperandToken()
    ensures var toks := NegatedOne();
      var r := ParseAll(toks, AsWritten);
      && r.expr == Some(Unary(toks[1], Negate, Some(Constant(toks[1], Int64Value(1)))))
      && !OptFaithful(r.expr, toks)
  {
    var toks := NegatedOne();
    var neg := Unary(toks[1], Negate, Some(Constant(toks[1], Int64Value(1))));
    AsWrittenNegationPrefix();
    var e := Some(neg);
    TierPassThrough(toks, AsWritten, 7, 0, e, 2);
    TierPassThrough(toks, AsWritten, 6, 0, e, 2);
    TierPassThrough(toks, AsWritten, 5, 0, e, 2);
    TierPassThrough(toks, AsWritten, 4, 0, e, 2);
    TierPassThrough(toks, AsWritten, 3, 0, e, 2);
    TierPassThrough(toks, AsWritten, 2, 0, e, 2);
    TierPassThrough(toks, AsWritten, 1, 0, e, 2);
    TierPassThrough(toks, AsWritten, 0, 0, e, 2);
  }

  /** The tokens of `-1`. */
  function NegatedOne(): (toks: seq<Token>)
    ensures WellFormed(toks) && |toks| == 3
  {
    [Token(Minus, "-", 1, 1), Token(IntegerLiteral, "1", 1, 2), Token(Eof, "", 1, 3)]
  }

  lemma AsWrittenNegationPrefix()
    ensures var toks := NegatedOne();
      Parse(toks, AsWritten, PrefixLevel, 0)
        == Parsed(Some(Unary(toks[1], Negate, Some(Constant(toks[1], Int64Value(1))))), 2)
  {
    var toks := NegatedOne();
    var one := Constant(toks[1], Int64Value(1));
    assert StrToLL("1") == 1 by { StrToLLOfDigits("1"); }
    assert ParsePrimary(toks, AsWritten, 1) == Parsed(Some(one), 2);
    assert ParsePrefix(toks, AsWritten, 1) == Parsed(Some(one), 2);
  }
}
